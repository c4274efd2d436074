/**
 Counting the steps of a run. A law of conservation says of a measure of the state that
 it is the number of steps of some kind that the run has taken so far.
 */
module Chronicle {
  import opened Settings
  import opened SharedRecord
  import opened Statistics
  import opened Seats
  import opened Protocol
  import opened Locks
  import opened Moves
  import opened Sessions
  import opened Director
  import opened Places
  import opened Tallies
  import opened Counting
  import opened Runs

  /** How many of the first n steps are of kind P, given the state they are taken in. */
  ghost function Steps(P: (State, Action) -> bool, states: seq<State>, actions: seq<Action>, n: nat): nat
    requires n <= |actions| < |states|
  {
    if n == 0 then 0
    else Steps(P, states, actions, n - 1) + One(P(states[n - 1], actions[n - 1]))
  }

  /** A measure that begins at 0 and grows with each step of kind P, and only then, counts those steps. */
  lemma {:induction false} CountsSteps(
      P: (State, Action) -> bool, f: State -> int, states: seq<State>, actions: seq<Action>, n: nat)
    requires n <= |actions| < |states| && f(states[0]) == 0
    requires forall k | 0 <= k < n :: f(states[k + 1]) == f(states[k]) + One(P(states[k], actions[k]))
    ensures f(states[n]) == Steps(P, states, actions, n)
  {
    if n > 0 {
      CountsSteps(P, f, states, actions, n - 1);
    }
  }

  /** A measure that grows with each step of kind P and falls with each of kind Q is their difference. */
  lemma {:induction false} BalancesSteps(P: (State, Action) -> bool, Q: (State, Action) -> bool, f: State -> int,
                                         states: seq<State>, actions: seq<Action>, n: nat)
    requires n <= |actions| < |states| && f(states[0]) == 0
    requires forall k | 0 <= k < n ::
               f(states[k + 1]) == f(states[k]) + One(P(states[k], actions[k])) - One(Q(states[k], actions[k]))
    ensures f(states[n]) == Steps(P, states, actions, n) - Steps(Q, states, actions, n)
  {
    if n > 0 {
      BalancesSteps(P, Q, f, states, actions, n - 1);
    }
  }

  /** What the first n steps add up to. */
  ghost function Amount(g: (State, Action) -> real, states: seq<State>, actions: seq<Action>, n: nat): real
    requires n <= |actions| < |states|
  {
    if n == 0 then 0.0
    else Amount(g, states, actions, n - 1) + g(states[n - 1], actions[n - 1])
  }

  lemma {:induction false} AddsUp(
      g: (State, Action) -> real, f: State -> real, states: seq<State>, actions: seq<Action>, n: nat)
    requires n <= |actions| < |states| && f(states[0]) == 0.0
    requires forall k | 0 <= k < n :: f(states[k + 1]) == f(states[k]) + g(states[k], actions[k])
    ensures f(states[n]) == Amount(g, states, actions, n)
  {
    if n > 0 {
      AddsUp(g, f, states, actions, n - 1);
    }
  }

  // ---------- counting processes ----------

  /** P looks at nothing but the user's own place and plan. */
  ghost predicate OwnBusiness(P: UserState -> bool) {
    !P(NewUser()) && forall x, y | SamePlace(x, y) :: P(x) == P(y)
  }

  /** The change in the number of users of a kind, whoever makes the step. */
  ghost function UserGain(P: UserState -> bool, s: State, s': State, a: Action): int {
    if a.UserStep? && a.u in s.users && a.u in s'.users then One(P(s'.users[a.u])) - One(P(s.users[a.u])) else 0
  }

  lemma UsersCounted(c: Config, s: State, s': State, a: Action, P: UserState -> bool)
    requires PidsDistinct(s.users.Keys, s.operators.Keys) && Moved(c, s, s', a) && OwnBusiness(P)
    ensures Count(s'.users, P) == Count(s.users, P) + UserGain(P, s, s', a)
  {
    if a.UserStep? {
      CountUpdate(s.users, a.u, s'.users[a.u], P);
    } else {
      OthersLeaveUsers(c, s, s', a);
      forall u | u in s'.users ensures P(s'.users[u]) == (u in s.users && P(s.users[u])) {
        assert u in s.users ==> SamePlace(s.users[u], s'.users[u]);
      }
      CountSame(s.users, s'.users, P);
    }
  }

  lemma OthersLeaveUsers(c: Config, s: State, s': State, a: Action)
    requires PidsDistinct(s.users.Keys, s.operators.Keys) && Moved(c, s, s', a) && !a.UserStep?
    ensures s.users.Keys <= s'.users.Keys
    ensures forall u | u in s'.users ::
              if u in s.users then SamePlace(s.users[u], s'.users[u]) else s'.users[u] == NewUser()
  {
    match a
    case OperatorStep(p, oa) => OperatorTouchesItems(c, s, p, oa);
    case DispenserStep(da) => DispenserSetsItems(s, da);
    case DirectorStep(xa) => DirectorUsersAre(c, s, xa);
    case _ =>
  }

  ghost function OperatorGain(P: OperatorState -> bool, s: State, s': State, a: Action): int {
    if a.OperatorStep? && a.p in s.operators && a.p in s'.operators
    then One(P(s'.operators[a.p])) - One(P(s.operators[a.p])) else 0
  }

  lemma OperatorsCounted(c: Config, s: State, s': State, a: Action, P: OperatorState -> bool)
    requires Moved(c, s, s', a)
    ensures Count(s'.operators, P) == Count(s.operators, P) + OperatorGain(P, s, s', a)
  {
    if a.OperatorStep? {
      CountUpdate(s.operators, a.p, s'.operators[a.p], P);
    }
  }

  // ---------- steps of a run ----------

  /** What every step of a run has: the invariant before it, and the move it makes. */
  lemma StepOfRun(c: Config, states: seq<State>, actions: seq<Action>, k: nat)
    requires Execution(c, states, actions) && k < |actions|
    ensures Inv(c, states[k]) && Moved(c, states[k], states[k + 1], actions[k])
  {
    InvAlways(c, states, actions, k);
    StepsAreAtomic(c, states[k], actions[k]);
  }

  lemma MoveOfRun(c: Config, states: seq<State>, actions: seq<Action>, k: nat)
    requires Execution(c, states, actions) && k < |actions|
    ensures Moved(c, states[k], states[k + 1], actions[k])
  {
    StepOfRun(c, states, actions, k);
  }

  /** The tallies of the totals grow by what the step's section adds. */
  lemma TotalsGrow(c: Config, s: State, s': State, a: Action, k: int)
    requires Moved(c, s, s', a) && |s.stats.view.sim.services| == SERVICES && IsTally(k)
    ensures TallyOf(s'.stats.view.sim, k) == Plus(TallyOf(s.stats.view.sim, k), Added(ChangeOf(s, a), k))
  {
    MoveChangesStats(c, s, s', a);
    ChangeAdds(s.stats.view, ChangeOf(s, a), k);
  }
}
