/** Sequences of steps, each with the state it leads to, for any step relation. */
module Paths {

  ghost predicate Leads<S, A>(step: (S, A, S) -> bool, s: S, path: seq<(A, S)>, s': S)
    decreases |path|
  {
    if path == [] then s' == s
    else step(s, path[0].0, path[0].1) && Leads(step, path[0].1, path[1..], s')
  }

  lemma LeadsOnce<S, A>(step: (S, A, S) -> bool, s: S, a: A, s': S)
    requires step(s, a, s')
    ensures Leads(step, s, [(a, s')], s')
  {
    assert [(a, s')][1..] == [];
    assert Leads(step, s', [], s');
  }

  lemma {:induction false} LeadsOn<S, A>(step: (S, A, S) -> bool, s: S, a: seq<(A, S)>, t: S, b: seq<(A, S)>, s': S)
    requires Leads(step, s, a, t) && Leads(step, t, b, s')
    ensures Leads(step, s, a + b, s')
    decreases |a|
  {
    if a == [] {
      assert a + b == b;
    } else {
      LeadsOn(step, a[0].1, a[1..], t, b, s');
      assert (a + b)[0] == a[0] && (a + b)[1..] == a[1..] + b;
    }
  }

  /**
   A property that holds at first, and survives a step exactly when the step is not
   bad, holds throughout iff no step is bad.
   */
  lemma {:induction false} KeptExactly(holds: seq<bool>, bad: seq<bool>)
    requires |holds| == |bad| + 1 && holds[0]
    requires forall i | 0 <= i < |bad| && holds[i] :: holds[i + 1] <==> !bad[i]
    ensures (forall i | 0 <= i < |holds| :: holds[i]) <==> (forall i | 0 <= i < |bad| :: !bad[i])
    decreases |bad|
  {
    if |bad| > 0 {
      var n := |bad| - 1;
      KeptExactly(holds[..n + 1], bad[..n]);
      assert forall i | 0 <= i <= n :: holds[..n + 1][i] == holds[i];
      assert forall i | 0 <= i < n :: bad[..n][i] == bad[i];
      assert holds[n] ==> (holds[n + 1] <==> !bad[n]);
    }
  }
}
