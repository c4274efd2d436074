/**
 A record in shared memory guarded by one counting semaphore of initial value 1.

 A process that has passed sem_wait is `inside`, together with the single-field
 writes it still has to make before sem_post. Other processes may run between any
 two of those writes. `view` is a history variable: what the record will hold once
 the section in progress is complete.
 */
module SharedRecord {

  datatype Proc = TheDirector | TheOperator(pid: int) | TheUser(pid: int)

  datatype Shared<M, W> = Shared(mem: M, view: M, sem: int, inside: map<Proc, seq<W>>)

  /** The record after a list of single-field writes, in order. */
  function Run<M, W>(apply: (M, W) -> M, m: M, todo: seq<W>): M
    decreases |todo|
  {
    if todo == [] then m else Run(apply, apply(m, todo[0]), todo[1..])
  }

  /** sem_wait returns for p, which then owes the writes in todo. */
  function Enter<M, W>(apply: (M, W) -> M, sh: Shared<M, W>, p: Proc, todo: seq<W>): Shared<M, W> {
    Shared(sh.mem, Run(apply, sh.view, todo), sh.sem - 1, sh.inside[p := todo])
  }

  /** p makes its next write. */
  function WriteNext<M, W>(apply: (M, W) -> M, sh: Shared<M, W>, p: Proc): Shared<M, W>
    requires p in sh.inside && sh.inside[p] != []
  {
    sh.(mem := apply(sh.mem, sh.inside[p][0]), inside := sh.inside[p := sh.inside[p][1..]])
  }

  /** p calls sem_post. */
  function Leave<M, W>(sh: Shared<M, W>, p: Proc): Shared<M, W>
    requires p in sh.inside && sh.inside[p] == []
  {
    sh.(sem := sh.sem + 1, inside := sh.inside - {p})
  }

  ghost predicate Sole<W>(inside: map<Proc, seq<W>>, p: Proc) {
    inside.Keys == {p}
  }

  /** The lock admits one process at a time, and what that process still owes leads from mem to view. */
  ghost predicate Consistent<M, W>(apply: (M, W) -> M, sh: Shared<M, W>) {
    && ((sh.sem == 1 && sh.inside.Keys == {}) || (sh.sem == 0 && exists p :: Sole(sh.inside, p)))
    && (sh.inside.Keys == {} ==> sh.mem == sh.view)
    && forall p | p in sh.inside :: Run(apply, sh.mem, sh.inside[p]) == sh.view
  }

  /** The semaphore is 1 minus the number of processes in the section, which is at most one. */
  lemma SemaphoreCountsHolders<M, W>(apply: (M, W) -> M, sh: Shared<M, W>)
    requires Consistent(apply, sh)
    ensures sh.sem == 1 - |sh.inside| && 0 <= sh.sem
    ensures forall p, q | p in sh.inside && q in sh.inside :: p == q
  {
    assert |sh.inside| == |sh.inside.Keys|;
    if sh.sem == 0 {
      var p :| Sole(sh.inside, p);
    }
  }

  /** Entering is the one moment at which the section takes effect as a whole. */
  lemma EnterIsAtomic<M, W>(apply: (M, W) -> M, sh: Shared<M, W>, p: Proc, todo: seq<W>)
    requires Consistent(apply, sh) && sh.sem > 0
    ensures Consistent(apply, Enter(apply, sh, p, todo))
    ensures Enter(apply, sh, p, todo).view == Run(apply, sh.mem, todo)
  {
    assert Sole(Enter(apply, sh, p, todo).inside, p);
  }

  /** The writes themselves and the final sem_post are invisible in the view. */
  lemma WriteNextKeepsView<M, W>(apply: (M, W) -> M, sh: Shared<M, W>, p: Proc)
    requires Consistent(apply, sh) && p in sh.inside && sh.inside[p] != []
    ensures Consistent(apply, WriteNext(apply, sh, p)) && WriteNext(apply, sh, p).view == sh.view
  {
    var q :| Sole(sh.inside, q);
    var sh' := WriteNext(apply, sh, p);
    assert p == q;
    assert Sole(sh'.inside, p);
  }

  lemma LeaveKeepsView<M, W>(apply: (M, W) -> M, sh: Shared<M, W>, p: Proc)
    requires Consistent(apply, sh) && p in sh.inside && sh.inside[p] == []
    ensures Consistent(apply, Leave(sh, p)) && Leave(sh, p).mem == Leave(sh, p).view == sh.view
  {
    var q :| Sole(sh.inside, q);
    assert p == q;
  }

  lemma {:induction false} RunConcat<M, W>(apply: (M, W) -> M, m: M, a: seq<W>, b: seq<W>)
    ensures Run(apply, m, a + b) == Run(apply, Run(apply, m, a), b)
    decreases |a|
  {
    if a == [] {
      assert a + b == b;
    } else {
      assert (a + b)[1..] == a[1..] + b;
      RunConcat(apply, apply(m, a[0]), a[1..], b);
    }
  }

  lemma Run1<M, W>(apply: (M, W) -> M, m: M, a: W)
    ensures Run(apply, m, [a]) == apply(m, a)
  {
    assert [a][1..] == [];
    assert Run(apply, m, [a]) == Run(apply, apply(m, a), []);
  }

  lemma Run2<M, W>(apply: (M, W) -> M, m: M, a: W, b: W)
    ensures Run(apply, m, [a, b]) == apply(apply(m, a), b)
  {
    assert [a, b][1..] == [b];
    Run1(apply, apply(m, a), b);
  }

  lemma Run4<M, W>(apply: (M, W) -> M, m: M, a: W, b: W, c: W, d: W)
    ensures Run(apply, m, [a, b, c, d]) == apply(apply(apply(apply(m, a), b), c), d)
  {
    assert [a, b, c, d] == [a, b] + [c, d];
    RunConcat(apply, m, [a, b], [c, d]);
    Run2(apply, m, a, b);
    Run2(apply, apply(apply(m, a), b), c, d);
  }
}
