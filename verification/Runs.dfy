/** The invariant of the whole system, and that it holds in every state of every run. */
module Runs {
  import opened Settings
  import opened SharedRecord
  import opened Statistics
  import opened Seats
  import opened Protocol
  import opened Locks
  import opened Moves
  import opened Sessions
  import opened Stations
  import opened Agreement
  import opened Places
  import opened Director
  import opened Outcome
  import opened Tokens
  import opened Tallies
  import opened Tickets
  import opened Unwritten
  import opened Doors

  ghost predicate Books(c: Config, s: State) {
    && Ledger(s.stats.view, s.hist.past)
    && BoundsInv(s)
    && DoneInv(s)
    && PauseInv(c, s)
    && TicketInv(s)
    && PendingInv(s)
    && forall k | IsService(k) :: RequestsBalance(s, k)
  }

  ghost predicate Behaves(c: Config, s: State) {
    && LockInv(c, s)
    && SessionInv(s)
    && StationInv(c, s)
    && AgreeInv(c, s)
    && PlaceInv(s)
    && ClockInv(c, s)
    && OutcomeInv(c, s)
    && TokenInv(s)
    && LateInv(s)
    && DoorInv(c, s)
  }

  ghost predicate Inv(c: Config, s: State) {
    Loaded(c) && Behaves(c, s) && Books(c, s)
  }

  lemma InvInitially(c: Config, s: State)
    requires Init(c, s)
    ensures Inv(c, s)
  {
    LocksInitially(c, s);
    SessionsInitially(c, s);
    StationsInitially(c, s);
    AgreementInitially(c, s);
    PlacesInitially(c, s);
    ClockInitially(c, s);
    OutcomeInitially(c, s);
    TokensInitially(c, s);
    TalliesInitially(c, s);
    TicketsInitially(c, s);
    LedgerInitially(s.stats.view);
    PendingInitially(c, s);
    DoorsInitially(c, s);
  }

  lemma BehaviourPreserved(c: Config, s: State, s': State, a: Action)
    requires Loaded(c) && Behaves(c, s) && LockInv(c, s') && Running(s) && Moved(c, s, s', a)
    ensures Behaves(c, s')
  {
    MatchingNames(c, s);
    SessionsPreserved(c, s, s', a);
    StationsPreserved(c, s, s', a);
    AgreementPreserved(c, s, s', a);
    PlacesPreserved(c, s, s', a);
    ClockPreserved(c, s, s', a);
    OutcomePreserved(c, s, s', a);
    TokensPreserved(c, s, s', a);
    LatePreserved(c, s, s', a);
    DoorsPreserved(c, s, s', a);
  }

  lemma BooksPreserved(c: Config, s: State, s': State, a: Action)
    requires Inv(c, s) && Moved(c, s, s', a)
    requires s'.stats.view == ApplyChange(s.stats.view, ChangeOf(s, a))
    requires s'.hist.past == Archived(s.hist.past, s.stats.view, ChangeOf(s, a)) && PendingInv(s')
    ensures Books(c, s')
  {
    ChangesBookable(c, s, s', a);
    LedgerPreserved(s.stats.view, s.hist.past, ChangeOf(s, a));
    ChangesRespectable(c, s, s', a);
    BoundsPreserved(s, s', ChangeOf(s, a));
    DonePreserved(c, s, s', a);
    PausesPreserved(c, s, s', a);
    TicketsPreserved(c, s, s', a);
    forall k | IsService(k) ensures RequestsBalance(s', k) {
      RequestsPreserved(c, s, s', a, k);
    }
  }

  /** What a move does to the statistics and the archive, whichever program makes it. */
  lemma MoveChangesStats(c: Config, s: State, s': State, a: Action)
    requires Moved(c, s, s', a)
    ensures s'.stats.view == ApplyChange(s.stats.view, ChangeOf(s, a))
    ensures s'.hist.past == Archived(s.hist.past, s.stats.view, ChangeOf(s, a))
  {
  }

  /** Every step of every program keeps the invariant. */
  lemma InvPreserved(c: Config, s: State, a: Action)
    requires Inv(c, s) && Enabled(c, s, a)
    ensures Inv(c, Apply(c, s, a))
  {
    var s' := Apply(c, s, a);
    StepsAreAtomic(c, s, a);
    MoveChangesStats(c, s, s', a);
    PendingPreserved(c, s, a);
    BehaviourPreserved(c, s, s', a);
    BooksPreserved(c, s, s', a);
  }

  /** In every state of every run. */
  lemma {:induction false} InvAlways(c: Config, states: seq<State>, actions: seq<Action>, i: nat)
    requires Execution(c, states, actions) && i < |states|
    ensures Inv(c, states[i])
  {
    if i == 0 {
      InvInitially(c, states[0]);
    } else {
      InvAlways(c, states, actions, i - 1);
      InvPreserved(c, states[i - 1], actions[i - 1]);
    }
  }

  /** s is a state of some run. */
  ghost predicate Reachable(c: Config, s: State) {
    exists states, actions, i :: Execution(c, states, actions) && 0 <= i < |states| && states[i] == s
  }

  lemma ReachableInv(c: Config, s: State)
    requires Reachable(c, s)
    ensures Inv(c, s)
  {
    var states, actions, i :| Execution(c, states, actions) && 0 <= i < |states| && states[i] == s;
    InvAlways(c, states, actions, i);
  }
}
