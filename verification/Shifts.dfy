/**
 What operators do, counted over whole runs: every seat taken is left once, every shift
 left is recorded, every signal is accounted for; and the times that operators report.
 */
module Shifts {
  import opened Settings
  import opened SharedRecord
  import opened Statistics
  import opened Seats
  import opened Protocol
  import opened Locks
  import opened Moves
  import opened Sessions
  import opened Stations
  import opened Director
  import opened Tokens
  import opened Tallies
  import opened Tickets
  import opened Counting
  import opened Runs
  import opened Chronicle

  // ---------- kinds of steps ----------

  /** An operator takes a seat: the one its first search finds, or the one found while it waited. */
  predicate TakesSeat(s: State, a: Action) {
    a.OperatorStep? && a.p in s.operators
    && (a.oa == OTakeFound || (a.oa == OFirstSearch && FindSeat(s.seats.mem, s.operators[a.p].service) != -1))
  }

  predicate StopsWork(s: State, a: Action) {
    a.OperatorStep? && (a.oa == OSeeClose || a.oa == OGoEarly)
  }

  predicate GoesEarly(s: State, a: Action) {
    a.OperatorStep? && a.oa == OGoEarly
  }

  predicate LeavesSeat(s: State, a: Action) {
    a.OperatorStep? && a.oa == ORelease
  }

  // ---------- where operators are ----------

  predicate OnItsWayOut(y: OperatorState) {
    y.pc.Leaving?
  }

  /** The operator has left its seat and its shift is not yet recorded. */
  predicate Unrecorded(y: OperatorState) {
    y.pc.LeftSeat? || y.pc == RecordPause || y.pc == RecordShift
  }

  ghost function ActiveMeasure(): State -> int {
    (s: State) => s.stats.view.counts.active + Count(s.operators, Unrecorded)
  }

  ghost function PauseMeasure(): State -> int {
    (s: State) => s.stats.view.counts.pauses + Count(s.operators, Pausing)
  }

  ghost function SeatedMeasure(): State -> int {
    (s: State) => Count(s.operators, AtSeat)
  }

  ghost function LeavingMeasure(): State -> int {
    (s: State) => Count(s.operators, OnItsWayOut)
  }

  lemma OperatorShift(c: Config, s: State, p: int, oa: OperatorAct)
    requires p in s.operators && OperatorEnabled(c, s, p, oa) && (oa.OPollRequest? ==> oa.m.body.ServiceRequest?)
    ensures var y, y' := s.operators[p], OperatorNext(c, s, p, oa); var a := OperatorStep(p, oa);
            && One(AtSeat(y')) == One(AtSeat(y)) + One(TakesSeat(s, a)) - One(LeavesSeat(s, a))
            && One(OnItsWayOut(y')) == One(OnItsWayOut(y)) + One(StopsWork(s, a)) - One(LeavesSeat(s, a))
  {
  }

  lemma OperatorBooks(c: Config, s: State, p: int, oa: OperatorAct)
    requires p in s.operators && OperatorEnabled(c, s, p, oa)
    ensures var y, y' := s.operators[p], OperatorNext(c, s, p, oa); var a := OperatorStep(p, oa);
            && One(Unrecorded(y')) + One(OperatorChange(y, oa) == Worked) == One(Unrecorded(y)) + One(LeavesSeat(s, a))
            && One(Pausing(y')) + One(OperatorChange(y, oa) == Paused) == One(Pausing(y)) + One(GoesEarly(s, a))
  {
  }

  lemma ChangesCounts(m: Stats, ch: Change)
    ensures ApplyChange(m, ch).counts.active == m.counts.active + One(ch == Worked)
    ensures ApplyChange(m, ch).counts.pauses == m.counts.pauses + One(ch == Paused)
  {
  }

  lemma OthersDoNotWork(s: State, a: Action)
    requires !a.OperatorStep?
    ensures ChangeOf(s, a) != Worked && ChangeOf(s, a) != Paused
  {
  }

  lemma ShiftMoves(c: Config, s: State, s': State, a: Action)
    requires SessionInv(s) && Moved(c, s, s', a)
    ensures SeatedMeasure()(s') == SeatedMeasure()(s) + One(TakesSeat(s, a)) - One(LeavesSeat(s, a))
    ensures LeavingMeasure()(s') == LeavingMeasure()(s) + One(StopsWork(s, a)) - One(LeavesSeat(s, a))
  {
    OperatorsCounted(c, s, s', a, AtSeat);
    OperatorsCounted(c, s, s', a, OnItsWayOut);
    if a.OperatorStep? {
      if a.oa.OPollRequest? {
        ReceivedByServer(s, a.oa.m);
      }
      OperatorShift(c, s, a.p, a.oa);
    }
  }

  lemma BookMoves(c: Config, s: State, s': State, a: Action)
    requires Moved(c, s, s', a)
    ensures ActiveMeasure()(s') == ActiveMeasure()(s) + One(LeavesSeat(s, a))
    ensures PauseMeasure()(s') == PauseMeasure()(s) + One(GoesEarly(s, a))
  {
    OperatorsCounted(c, s, s', a, Unrecorded);
    OperatorsCounted(c, s, s', a, Pausing);
    MoveChangesStats(c, s, s', a);
    ChangesCounts(s.stats.view, ChangeOf(s, a));
    if a.OperatorStep? {
      OperatorBooks(c, s, a.p, a.oa);
    } else {
      OthersDoNotWork(s, a);
    }
  }

  /**
   Shifts: the active operators recorded, and those that have left a seat and are about
   to be, are exactly the times in the run that an operator left a seat, early or at
   closing. Pauses recorded, and about to be, are the times one went home early.
   */
  lemma ShiftsCounted(c: Config, states: seq<State>, actions: seq<Action>, n: nat)
    requires Execution(c, states, actions) && n <= |actions|
    ensures states[n].stats.view.counts.active + Count(states[n].operators, Unrecorded)
         == Steps(LeavesSeat, states, actions, n)
    ensures states[n].stats.view.counts.pauses + Count(states[n].operators, Pausing)
         == Steps(GoesEarly, states, actions, n)
  {
    forall i | 0 <= i < n
      ensures ActiveMeasure()(states[i + 1]) == ActiveMeasure()(states[i]) + One(LeavesSeat(states[i], actions[i]))
      ensures PauseMeasure()(states[i + 1]) == PauseMeasure()(states[i]) + One(GoesEarly(states[i], actions[i]))
    {
      StepOfRun(c, states, actions, i);
      BookMoves(c, states[i], states[i + 1], actions[i]);
    }
    CountNone(states[0].operators, Unrecorded);
    CountNone(states[0].operators, Pausing);
    CountsSteps(LeavesSeat, ActiveMeasure(), states, actions, n);
    CountsSteps(GoesEarly, PauseMeasure(), states, actions, n);
  }

  /**
   Operators at a seat are the times a seat was taken less the times one was left, and
   those about to leave are the times one stopped work less the times one was left: an
   operator stops only at closing or for a pause, and leaves the seat it took, once.
   */
  lemma SeatsTakenAndLeft(c: Config, states: seq<State>, actions: seq<Action>, n: nat)
    requires Execution(c, states, actions) && n <= |actions|
    ensures Count(states[n].operators, AtSeat)
         == Steps(TakesSeat, states, actions, n) - Steps(LeavesSeat, states, actions, n)
    ensures Count(states[n].operators, OnItsWayOut)
         == Steps(StopsWork, states, actions, n) - Steps(LeavesSeat, states, actions, n)
  {
    forall i | 0 <= i < n
      ensures SeatedMeasure()(states[i + 1])
           == SeatedMeasure()(states[i]) + One(TakesSeat(states[i], actions[i]))
              - One(LeavesSeat(states[i], actions[i]))
      ensures LeavingMeasure()(states[i + 1])
           == LeavingMeasure()(states[i]) + One(StopsWork(states[i], actions[i]))
              - One(LeavesSeat(states[i], actions[i]))
    {
      StepOfRun(c, states, actions, i);
      ShiftMoves(c, states[i], states[i + 1], actions[i]);
    }
    CountNone(states[0].operators, AtSeat);
    CountNone(states[0].operators, OnItsWayOut);
    BalancesSteps(TakesSeat, LeavesSeat, SeatedMeasure(), states, actions, n);
    BalancesSteps(StopsWork, LeavesSeat, LeavingMeasure(), states, actions, n);
  }

  /** Operator p goes home early. */
  function EarlyExitOf(p: int): (State, Action) -> bool {
    (s: State, a: Action) => a == OperatorStep(p, OGoEarly)
  }

  function PausesOf(p: int): State -> int {
    (s: State) => if p in s.operators then s.operators[p].pauses else 0
  }

  lemma OperatorPauses(c: Config, s: State, p: int, oa: OperatorAct)
    requires p in s.operators && OperatorEnabled(c, s, p, oa)
    ensures OperatorNext(c, s, p, oa).pauses == s.operators[p].pauses + One(oa == OGoEarly)
  {
  }

  lemma OwnPauses(c: Config, s: State, s': State, a: Action, p: int)
    requires Moved(c, s, s', a)
    ensures PausesOf(p)(s') == PausesOf(p)(s) + One(EarlyExitOf(p)(s, a))
  {
    if a.OperatorStep? {
      OperatorPauses(c, s, a.p, a.oa);
    }
  }

  lemma ChoiceAfterService(c: Config, s: State, p: int)
    requires Running(s) && p in s.operators && OutsideLocks(s, TheOperator(p)) && s.operators[p].pc == AfterService
    ensures Enabled(c, s, OperatorStep(p, OKeepWorking))
    ensures Enabled(c, s, OperatorStep(p, OGoEarly)) <==> s.operators[p].pauses < c.nofPause
  {
  }

  lemma PausesTaken(c: Config, states: seq<State>, actions: seq<Action>, n: nat, p: int)
    requires Execution(c, states, actions) && n <= |actions|
    ensures PausesOf(p)(states[n]) == Steps(EarlyExitOf(p), states, actions, n)
  {
    forall i | 0 <= i < n
      ensures PausesOf(p)(states[i + 1]) == PausesOf(p)(states[i]) + One(EarlyExitOf(p)(states[i], actions[i]))
    {
      StepOfRun(c, states, actions, i);
      OwnPauses(c, states[i], states[i + 1], actions[i], p);
    }
    CountsSteps(EarlyExitOf(p), PausesOf(p), states, actions, n);
  }

  /**
   In every run, an operator that has served a customer may go on working, and may go
   home early iff it has done so fewer times than configured, over all its days.
   */
  lemma EarlyExitsAllowed(c: Config, states: seq<State>, actions: seq<Action>, n: nat, p: int)
    requires Execution(c, states, actions) && n <= |actions| && p in states[n].operators
    requires Running(states[n]) && OutsideLocks(states[n], TheOperator(p))
    requires states[n].operators[p].pc == AfterService
    ensures Enabled(c, states[n], OperatorStep(p, OKeepWorking))
    ensures Enabled(c, states[n], OperatorStep(p, OGoEarly))
       <==> Steps(EarlyExitOf(p), states, actions, n) < c.nofPause
  {
    PausesTaken(c, states, actions, n, p);
    ChoiceAfterService(c, states[n], p);
  }

  // ---------- signals ----------

  /** An operator signals a free seat: after leaving one, or when its own search was in vain. */
  predicate SignalsSeat(s: State, a: Action) {
    && a.OperatorStep? && a.p in s.operators
    && (a.oa == OPostStation
        || (a.oa == OScanStatus && s.operators[a.p].pc.ScanStatus? && s.operators[a.p].pc.i >= |s.seats.mem|))
  }

  predicate WakesUp(s: State, a: Action) {
    a.OperatorStep? && a.oa == OWakeUp
  }

  predicate SignalsFreed(s: State, a: Action) {
    a.UserStep? && a.ua == UPostFreed
  }

  /** A user that waits for a seat consumes a signal if there is one, and tries again in any case. */
  predicate ConsumesFreed(s: State, a: Action) {
    a.UserStep? && a.ua == URetryAgain && s.events.freed > 0
  }

  function StationMeasure(): State -> int {
    (s: State) => s.events.station
  }

  function FreedMeasure(): State -> int {
    (s: State) => s.events.freed
  }

  lemma UserSignals(c: Config, s: State, u: int, ua: UserAct)
    requires u in s.users && UserEnabled(c, s, u, ua)
    ensures var e := UserEffect(s, u, ua); var a := UserStep(u, ua);
            && e.events.station == s.events.station
            && e.events.freed == s.events.freed + One(SignalsFreed(s, a)) - One(ConsumesFreed(s, a))
  {
  }

  lemma OperatorSignals(c: Config, s: State, p: int, oa: OperatorAct)
    requires p in s.operators && OperatorEnabled(c, s, p, oa)
    ensures var e := OperatorEffect(c, s, p, oa); var a := OperatorStep(p, oa);
            && e.events.station == s.events.station + One(SignalsSeat(s, a)) - One(WakesUp(s, a))
            && e.events.freed == s.events.freed
  {
  }

  lemma DirectorSignals(s: State, xa: DirectorAct)
    ensures DirectorEffect(s, xa).events.station == s.events.station
    ensures DirectorEffect(s, xa).events.freed == s.events.freed
  {
  }

  lemma SignalMoves(c: Config, s: State, s': State, a: Action)
    requires Moved(c, s, s', a)
    ensures StationMeasure()(s') == StationMeasure()(s) + One(SignalsSeat(s, a)) - One(WakesUp(s, a))
    ensures FreedMeasure()(s') == FreedMeasure()(s) + One(SignalsFreed(s, a)) - One(ConsumesFreed(s, a))
  {
    match a
    case UserStep(u, ua) => UserSignals(c, s, u, ua);
    case OperatorStep(p, oa) => OperatorSignals(c, s, p, oa);
    case DirectorStep(xa) => DirectorSignals(s, xa);
    case _ =>
  }

  /** The signals pending are those given less those consumed, for operators and for users. */
  lemma SignalsConserved(c: Config, states: seq<State>, actions: seq<Action>, n: nat)
    requires Execution(c, states, actions) && n <= |actions|
    ensures states[n].events.station
         == Steps(SignalsSeat, states, actions, n) - Steps(WakesUp, states, actions, n)
    ensures states[n].events.freed
         == Steps(SignalsFreed, states, actions, n) - Steps(ConsumesFreed, states, actions, n)
  {
    forall i | 0 <= i < n
      ensures StationMeasure()(states[i + 1])
           == StationMeasure()(states[i]) + One(SignalsSeat(states[i], actions[i]))
              - One(WakesUp(states[i], actions[i]))
      ensures FreedMeasure()(states[i + 1])
           == FreedMeasure()(states[i]) + One(SignalsFreed(states[i], actions[i]))
              - One(ConsumesFreed(states[i], actions[i]))
    {
      StepOfRun(c, states, actions, i);
      SignalMoves(c, states[i], states[i + 1], actions[i]);
    }
    BalancesSteps(SignalsSeat, WakesUp, StationMeasure(), states, actions, n);
    BalancesSteps(SignalsFreed, ConsumesFreed, FreedMeasure(), states, actions, n);
  }

  // ---------- the times reported ----------

  /** With this draw the operator can answer its customer, and what it sends reports time t. */
  predicate Reports(c: Config, s: State, p: int, draw: nat, t: real)
    requires p in s.operators
  {
    var y, a := s.operators[p], OAnswer(draw, true);
    && OperatorEnabled(c, s, p, a)
    && OperatorEffect(c, s, p, a).sent == multiset{Done(y.customer, p, y.number, y.service, t)}
  }

  /**
   The times an operator can report for the service it is giving are exactly those of a
   whole number of nanoseconds from half to one and a half times the nominal time: no
   draw sends any other, and for each of them some draw sends the message.
   */
  lemma TimesReported(c: Config, s: State, p: int, t: real)
    requires Loaded(c) && p in s.operators && s.operators[p].pc == Serving && IsService(s.operators[p].service)
    ensures (exists draw: nat :: Reports(c, s, p, draw, t))
       <==> (exists n: nat :: LastsFor(c, t, n) && NanosFit(c, s.operators[p].service, n))
  {
    var y := s.operators[p];
    ServiceMinutesExactRange(c, y.service, t);
    forall draw: nat ensures Reports(c, s, p, draw, t) <==> ServiceMinutes(c, y.service, draw) == t {
      SameMessage(Done(y.customer, p, y.number, y.service, ServiceMinutes(c, y.service, draw)),
                  Done(y.customer, p, y.number, y.service, t));
    }
    if draw: nat :| ServiceMinutes(c, y.service, draw) == t {
      assert Reports(c, s, p, draw, t);
    }
  }

  lemma SameMessage(m: Msg, n: Msg)
    ensures multiset{m} == multiset{n} <==> m == n
  {
    assert m in multiset{m};
  }
}
