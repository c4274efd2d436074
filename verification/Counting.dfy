/** Cardinalities and sums over the entries of a finite map keyed by process id. */
module Counting {

  /** The keys whose entry satisfies P. */
  ghost function Having<V>(m: map<int, V>, P: V -> bool): set<int> {
    set k | k in m && P(m[k])
  }

  ghost function Count<V>(m: map<int, V>, P: V -> bool): nat {
    |Having(m, P)|
  }

  function One(b: bool): nat {
    if b then 1 else 0
  }

  lemma CountUpdate<V>(m: map<int, V>, k: int, v: V, P: V -> bool)
    requires k in m
    ensures Count(m[k := v], P) == Count(m, P) + One(P(v)) - One(P(m[k]))
  {
    var before, after := Having(m, P), Having(m[k := v], P);
    var others := before - {k};
    forall j ensures j in after <==> (j in others || (j == k && P(v))) {
    }
    assert after == if P(v) then others + {k} else others;
    assert before == if P(m[k]) then others + {k} else others;
  }

  /** New entries that do not satisfy P, and old ones that go on as before, leave the count alone. */
  lemma CountSame<V>(m: map<int, V>, m': map<int, V>, P: V -> bool)
    requires m.Keys <= m'.Keys
    requires forall k | k in m' :: P(m'[k]) == (k in m && P(m[k]))
    ensures Count(m', P) == Count(m, P)
  {
    forall k ensures k in Having(m', P) <==> k in Having(m, P) {
      if k in m' {
        assert P(m'[k]) == (k in m && P(m[k]));
      }
    }
    assert Having(m', P) == Having(m, P);
  }

  lemma CountNone<V>(m: map<int, V>, P: V -> bool)
    requires forall k | k in m :: !P(m[k])
    ensures Count(m, P) == 0
  {
    forall k | k in m ensures k !in Having(m, P) {
      assert !P(m[k]);
    }
    assert Having(m, P) == {};
  }

  /** Two predicates that exclude each other are counted separately. */
  lemma CountSplit<V>(m: map<int, V>, P: V -> bool, Q: V -> bool, R: V -> bool)
    requires forall k | k in m :: P(m[k]) == (Q(m[k]) || R(m[k])) && !(Q(m[k]) && R(m[k]))
    ensures Count(m, P) == Count(m, Q) + Count(m, R)
  {
    var q, r := Having(m, Q), Having(m, R);
    forall k ensures (k in Having(m, P) <==> k in q + r) && !(k in q && k in r) {
      if k in m {
        assert P(m[k]) == (Q(m[k]) || R(m[k]));
      }
    }
    assert Having(m, P) == q + r && q !! r;
  }

  /** Sets related one to one have the same size. */
  lemma {:induction false} SameSize<A(!new), B(!new)>(xs: set<A>, ys: set<B>, f: A -> B)
    requires forall x | x in xs :: f(x) in ys
    requires forall y | y in ys :: exists x :: x in xs && f(x) == y
    requires forall x, x' | x in xs && x' in xs && f(x) == f(x') :: x == x'
    ensures |xs| == |ys|
    decreases |xs|
  {
    if xs == {} {
      assert ys == {};
    } else {
      var x :| x in xs;
      forall y | y in ys - {f(x)} ensures exists x' :: x' in xs - {x} && f(x') == y {
        var x' :| x' in xs && f(x') == y;
        assert x' in xs - {x};
      }
      SameSize(xs - {x}, ys - {f(x)}, f);
    }
  }

  /** A set that maps one to one into another is no larger. */
  lemma InjectionSize<A(!new), B(!new)>(xs: set<A>, ys: set<B>, f: A -> B)
    requires forall x | x in xs :: f(x) in ys
    requires forall x, x' | x in xs && x' in xs && f(x) == f(x') :: x == x'
    ensures |xs| <= |ys|
  {
    var image := set x | x in xs :: f(x);
    SameSize(xs, image, f);
    SubsetSize(image, ys);
  }

  lemma {:induction false} SubsetSize<A>(xs: set<A>, ys: set<A>)
    requires xs <= ys
    ensures |xs| <= |ys|
  {
    assert ys == xs + (ys - xs);
  }

  ghost function Pick<T>(s: set<T>): (x: T)
    requires s != {}
    ensures x in s
  {
    var x :| x in s;
    x
  }

  /** The sum of a measure over all entries. */
  ghost function Sum<V>(m: map<int, V>, f: V -> int): int
    decreases m.Keys
  {
    if m.Keys == {} then 0
    else
      var k := Pick(m.Keys);
      f(m[k]) + Sum(m - {k}, f)
  }

  /** Any entry may be taken out first. */
  lemma {:induction false} SumRemove<V>(m: map<int, V>, f: V -> int, k: int)
    requires k in m
    ensures Sum(m, f) == f(m[k]) + Sum(m - {k}, f)
    decreases m.Keys
  {
    var j := Pick(m.Keys);
    if j != k {
      SumRemove(m - {j}, f, k);
      SumRemove(m - {k}, f, j);
      assert m - {j} - {k} == m - {k} - {j};
    }
  }

  lemma SumUpdate<V>(m: map<int, V>, f: V -> int, k: int, v: V)
    requires k in m
    ensures Sum(m[k := v], f) == Sum(m, f) - f(m[k]) + f(v)
  {
    SumRemove(m, f, k);
    SumRemove(m[k := v], f, k);
    assert m - {k} == m[k := v] - {k};
  }

  lemma {:induction false} SumBound<V>(m: map<int, V>, f: V -> int, most: int)
    requires forall k | k in m :: f(m[k]) <= most
    ensures Sum(m, f) <= |m| * most
    decreases m.Keys
  {
    if m.Keys != {} {
      var k := Pick(m.Keys);
      SumRemove(m, f, k);
      SumBound(m - {k}, f, most);
      assert |m| == |m - {k}| + 1;
    }
  }

  lemma {:induction false} SumZero<V>(m: map<int, V>, f: V -> int)
    requires forall k | k in m :: f(m[k]) == 0
    ensures Sum(m, f) == 0
    decreases m.Keys
  {
    if m.Keys != {} {
      var k := Pick(m.Keys);
      SumRemove(m, f, k);
      SumZero(m - {k}, f);
    }
  }
}
