/**
 How visits to the office end, counted over whole runs: every closing-time exit of a user
 not yet late that day is a late user, every reason to fail is a failure, and every reply
 recorded adds its wait and its time.
 */
module Visits {
  import opened Settings
  import opened SharedRecord
  import opened Statistics
  import opened Seats
  import opened Protocol
  import opened Locks
  import opened Moves
  import opened Sessions
  import opened Director
  import opened Places
  import opened Tokens
  import opened Tallies
  import opened Tickets
  import opened Counting
  import opened Timing
  import opened Runs
  import opened Chronicle

  /** The service is k, or k stands for all of them. */
  predicate For(service: int, k: int) {
    k == SERVICES || service == k
  }

  predicate ClosingExit(ua: UserAct) {
    ua == USeeClosed || ua == URetryLate || ua == USeeLate
  }

  // ---------- late users ----------

  /** The user is on its way to be counted as late for service k, for the first time today. */
  function AboutToBeLate(k: int): UserState -> bool {
    (x: UserState) => x.pc.BeLate? && !x.plan.wasLate && For(Wanted(x), k)
  }

  /** A user that has not been late today finds that it is closing time. */
  function LateExit(k: int): (State, Action) -> bool {
    (s: State, a: Action) =>
      && a.UserStep? && a.u in s.users && ClosingExit(a.ua)
      && !s.users[a.u].plan.wasLate && For(Wanted(s.users[a.u]), k)
  }

  ghost function LateMeasure(k: int): State -> int {
    (s: State) => TallyOf(s.stats.view.sim, k).late + Count(s.users, AboutToBeLate(k))
  }

  lemma EarlyLateness(c: Config, s: State, u: int, ua: UserAct, k: int)
    requires u in s.users && UserEnabled(c, s, u, ua) && Early(ua)
    ensures var x, x' := s.users[u], UserNext(c, s, u, ua); var A := AboutToBeLate(k);
            One(A(x')) + Added(UserChange(x, ua), k).late == One(A(x)) + One(LateExit(k)(s, UserStep(u, ua)))
  {
  }

  lemma LaterLateness(c: Config, s: State, u: int, ua: UserAct, k: int)
    requires u in s.users && UserEnabled(c, s, u, ua) && !Early(ua)
    ensures var x, x' := s.users[u], UserNext(c, s, u, ua); var A := AboutToBeLate(k);
            One(A(x')) + Added(UserChange(x, ua), k).late == One(A(x)) + One(LateExit(k)(s, UserStep(u, ua)))
  {
  }

  lemma LateMoves(c: Config, s: State, s': State, a: Action, k: int)
    requires PidsDistinct(s.users.Keys, s.operators.Keys) && Moved(c, s, s', a)
    requires |s.stats.view.sim.services| == SERVICES && IsTally(k)
    ensures LateMeasure(k)(s') == LateMeasure(k)(s) + One(LateExit(k)(s, a))
  {
    assert OwnBusiness(AboutToBeLate(k));
    UsersCounted(c, s, s', a, AboutToBeLate(k));
    TotalsGrow(c, s, s', a, k);
    if a.UserStep? {
      if Early(a.ua) {
        EarlyLateness(c, s, a.u, a.ua, k);
      } else {
        LaterLateness(c, s, a.u, a.ua, k);
      }
    } else {
      OnlyUsersAreLate(s, a, k);
    }
  }

  lemma OnlyUsersAreLate(s: State, a: Action, k: int)
    requires !a.UserStep?
    ensures Added(ChangeOf(s, a), k).late == Added(ChangeOf(s, a), k).failed == Added(ChangeOf(s, a), k).served == 0
    ensures Added(ChangeOf(s, a), k).wait == Added(ChangeOf(s, a), k).time == 0.0
  {
  }

  /**
   Late users, per service and overall: those counted and those about to be are exactly
   the times in the run that a user not yet late that day took a closing-time exit,
   before a service, while waiting for a seat, or after a service.
   */
  lemma LateUsersCounted(c: Config, states: seq<State>, actions: seq<Action>, n: nat, k: int)
    requires Execution(c, states, actions) && n <= |actions| && IsTally(k)
    ensures TallyOf(states[n].stats.view.sim, k).late + Count(states[n].users, AboutToBeLate(k))
         == Steps(LateExit(k), states, actions, n)
  {
    forall i | 0 <= i < n
      ensures LateMeasure(k)(states[i + 1]) == LateMeasure(k)(states[i]) + One(LateExit(k)(states[i], actions[i]))
    {
      StepOfRun(c, states, actions, i);
      LateMoves(c, states[i], states[i + 1], actions[i], k);
    }
    CountNone(states[0].users, AboutToBeLate(k));
    CountsSteps(LateExit(k), LateMeasure(k), states, actions, n);
  }

  // ---------- failures ----------

  predicate Failing(x: UserState) {
    x.pc.BeFailed? || x.pc == BeLate(AtHead) || x.pc == BeLate(AtRetry)
  }

  function AboutToFail(k: int): UserState -> bool {
    (x: UserState) => Failing(x) && For(Wanted(x), k)
  }

  /** The reasons for which a service fails. */
  predicate FailsBy(x: UserState, ua: UserAct) {
    || ua == USeeClosed || ua == URetryLate
    || (ua == UJudgeSeats && |x.visit.valid| == 0)
    || ua == USendRequest(false)
    || (ua.UGetDone? && ua.m.body.ServiceDone? && ua.m.body.number < 0)
  }

  function FailCause(k: int): (State, Action) -> bool {
    (s: State, a: Action) =>
      a.UserStep? && a.u in s.users && FailsBy(s.users[a.u], a.ua) && For(Wanted(s.users[a.u]), k)
  }

  ghost function FailMeasure(k: int): State -> int {
    (s: State) => TallyOf(s.stats.view.sim, k).failed + Count(s.users, AboutToFail(k))
  }

  lemma EarlyFailures(c: Config, s: State, u: int, ua: UserAct, k: int)
    requires u in s.users && UserEnabled(c, s, u, ua) && Early(ua)
    ensures var x, x' := s.users[u], UserNext(c, s, u, ua); var A := AboutToFail(k);
            One(A(x')) + Added(UserChange(x, ua), k).failed == One(A(x)) + One(FailCause(k)(s, UserStep(u, ua)))
  {
  }

  lemma LaterFailures(c: Config, s: State, u: int, ua: UserAct, k: int)
    requires u in s.users && UserEnabled(c, s, u, ua) && !Early(ua)
    ensures var x, x' := s.users[u], UserNext(c, s, u, ua); var A := AboutToFail(k);
            One(A(x')) + Added(UserChange(x, ua), k).failed == One(A(x)) + One(FailCause(k)(s, UserStep(u, ua)))
  {
  }

  lemma FailMoves(c: Config, s: State, s': State, a: Action, k: int)
    requires PidsDistinct(s.users.Keys, s.operators.Keys) && Moved(c, s, s', a)
    requires |s.stats.view.sim.services| == SERVICES && IsTally(k)
    ensures FailMeasure(k)(s') == FailMeasure(k)(s) + One(FailCause(k)(s, a))
  {
    assert OwnBusiness(AboutToFail(k));
    UsersCounted(c, s, s', a, AboutToFail(k));
    TotalsGrow(c, s, s', a, k);
    if a.UserStep? {
      if Early(a.ua) {
        EarlyFailures(c, s, a.u, a.ua, k);
      } else {
        LaterFailures(c, s, a.u, a.ua, k);
      }
    } else {
      OnlyUsersAreLate(s, a, k);
    }
  }

  /**
   Failures, per service and overall: those recorded and those about to be are exactly
   the times in the run that a service failed, because it was closing time before it
   began or while its user waited for a seat, because no seat was staffed for it, or
   because the request could not be sent.
   */
  lemma FailuresCounted(c: Config, states: seq<State>, actions: seq<Action>, n: nat, k: int)
    requires Execution(c, states, actions) && n <= |actions| && IsTally(k)
    ensures TallyOf(states[n].stats.view.sim, k).failed + Count(states[n].users, AboutToFail(k))
         == Steps(FailCause(k), states, actions, n)
  {
    forall i | 0 <= i < n
      ensures FailMeasure(k)(states[i + 1]) == FailMeasure(k)(states[i]) + One(FailCause(k)(states[i], actions[i]))
    {
      StepOfRun(c, states, actions, i);
      FailMoves(c, states[i], states[i + 1], actions[i], k);
    }
    CountNone(states[0].users, AboutToFail(k));
    CountsSteps(FailCause(k), FailMeasure(k), states, actions, n);
  }

  /** The user is sent home at the beginning of a service and has not yet recorded its failure. */
  predicate TurnedAway(x: UserState) {
    x.pc == BeLate(AtHead) || x.pc == BeFailed(WithoutTicket)
  }

  predicate TurnsAway(s: State, a: Action) {
    a.UserStep? && a.ua == USeeClosed
  }

  ghost function TurnedAwayMeasure(): State -> int {
    (s: State) => s.hist.ticketless + Count(s.users, TurnedAway)
  }

  lemma UserTurnedAway(c: Config, s: State, u: int, ua: UserAct)
    requires u in s.users && UserEnabled(c, s, u, ua)
    ensures UserEffect(s, u, ua).hist.ticketless + One(TurnedAway(UserNext(c, s, u, ua)))
         == s.hist.ticketless + One(TurnedAway(s.users[u])) + One(ua == USeeClosed)
  {
    TicketlessEffect(s, u, ua);
  }

  lemma TicketlessEffect(s: State, u: int, ua: UserAct)
    requires u in s.users
    ensures UserEffect(s, u, ua).hist.ticketless == s.hist.ticketless + One(Ticketless(s.users[u], ua))
  {
  }

  lemma TurnedAwayMoves(c: Config, s: State, s': State, a: Action)
    requires PidsDistinct(s.users.Keys, s.operators.Keys) && Moved(c, s, s', a)
    ensures TurnedAwayMeasure()(s') == TurnedAwayMeasure()(s) + One(TurnsAway(s, a))
  {
    assert OwnBusiness(TurnedAway);
    UsersCounted(c, s, s', a, TurnedAway);
    match a
    case UserStep(u, ua) => UserTurnedAway(c, s, u, ua);
    case OperatorStep(p, oa) => OperatorTicketless(c, s, p, oa);
    case DirectorStep(xa) => DirectorTicketless(s, xa);
    case _ =>
  }

  /** Failures without a ticket, recorded and about to be, are the users turned away before a service. */
  lemma TurnedAwayCounted(c: Config, states: seq<State>, actions: seq<Action>, n: nat)
    requires Execution(c, states, actions) && n <= |actions|
    ensures states[n].hist.ticketless + Count(states[n].users, TurnedAway) == Steps(TurnsAway, states, actions, n)
  {
    forall i | 0 <= i < n
      ensures TurnedAwayMeasure()(states[i + 1])
           == TurnedAwayMeasure()(states[i]) + One(TurnsAway(states[i], actions[i]))
    {
      StepOfRun(c, states, actions, i);
      TurnedAwayMoves(c, states[i], states[i + 1], actions[i]);
    }
    CountNone(states[0].users, TurnedAway);
    CountsSteps(TurnsAway, TurnedAwayMeasure(), states, actions, n);
  }

  // ---------- services rendered ----------

  /** A user records the reply it has received. */
  function Recording(k: int): (State, Action) -> bool {
    (s: State, a: Action) =>
      a.UserStep? && a.u in s.users && a.ua == URecord && For(s.users[a.u].visit.done.service, k)
  }

  function WaitRecorded(k: int): (State, Action) -> real {
    (s: State, a: Action) => if Recording(k)(s, a) then s.users[a.u].visit.wait as real else 0.0
  }

  function TimeRecorded(k: int): (State, Action) -> real {
    (s: State, a: Action) => if Recording(k)(s, a) then s.users[a.u].visit.done.time else 0.0
  }

  ghost function ServedMeasure(k: int): State -> int {
    (s: State) => TallyOf(s.stats.view.sim, k).served
  }

  ghost function WaitMeasure(k: int): State -> real {
    (s: State) => TallyOf(s.stats.view.sim, k).wait
  }

  ghost function TimeMeasure(k: int): State -> real {
    (s: State) => TallyOf(s.stats.view.sim, k).time
  }

  lemma RecordMoves(c: Config, s: State, s': State, a: Action, k: int)
    requires Moved(c, s, s', a) && |s.stats.view.sim.services| == SERVICES && IsTally(k)
    ensures ServedMeasure(k)(s') == ServedMeasure(k)(s) + One(Recording(k)(s, a))
    ensures WaitMeasure(k)(s') == WaitMeasure(k)(s) + WaitRecorded(k)(s, a)
    ensures TimeMeasure(k)(s') == TimeMeasure(k)(s) + TimeRecorded(k)(s, a)
  {
    TotalsGrow(c, s, s', a, k);
    if !a.UserStep? {
      OnlyUsersAreLate(s, a, k);
    }
  }

  /**
   Per service and overall: the users served, the total wait and the total service time
   are those of the replies recorded in the run, no more and no less.
   */
  lemma RecordsAddUp(c: Config, states: seq<State>, actions: seq<Action>, n: nat, k: int)
    requires Execution(c, states, actions) && n <= |actions| && IsTally(k)
    ensures var t := TallyOf(states[n].stats.view.sim, k);
            && t.served == Steps(Recording(k), states, actions, n)
            && t.wait == Amount(WaitRecorded(k), states, actions, n)
            && t.time == Amount(TimeRecorded(k), states, actions, n)
  {
    forall i | 0 <= i < n
      ensures ServedMeasure(k)(states[i + 1]) == ServedMeasure(k)(states[i]) + One(Recording(k)(states[i], actions[i]))
      ensures WaitMeasure(k)(states[i + 1]) == WaitMeasure(k)(states[i]) + WaitRecorded(k)(states[i], actions[i])
      ensures TimeMeasure(k)(states[i + 1]) == TimeMeasure(k)(states[i]) + TimeRecorded(k)(states[i], actions[i])
    {
      StepOfRun(c, states, actions, i);
      RecordMoves(c, states[i], states[i + 1], actions[i], k);
    }
    CountsSteps(Recording(k), ServedMeasure(k), states, actions, n);
    AddsUp(WaitRecorded(k), WaitMeasure(k), states, actions, n);
    AddsUp(TimeRecorded(k), TimeMeasure(k), states, actions, n);
  }

  // ---------- closing time ----------

  predicate GoesOn(ua: UserAct) {
    ua == UBegin || ua == URetryAgain || ua == UNotLate
  }

  /**
   In every run: a user begins a service, tries again for a seat, or frees its seat in
   time, only at a tick whose minute is before closing; it is late, before a service, in
   waiting or after one, only at a tick whose minute is not.
   */
  lemma ClosingTimeDecides(c: Config, states: seq<State>, actions: seq<Action>, i: nat, u: int, ua: UserAct)
    requires Execution(c, states, actions) && i < |actions| && actions[i] == UserStep(u, ua)
    ensures var minute := MinuteOf(states[i].stats.mem.clock.tick);
            && (GoesOn(ua) ==> minute < c.shiftClose * 60)
            && (ClosingExit(ua) ==> minute >= c.shiftClose * 60)
  {
    InvAlways(c, states, actions, i);
    ClosedByMinute(c, states[i], u, ua);
  }

  lemma ClosedByMinute(c: Config, s: State, u: int, ua: UserAct)
    requires u in s.users && UserEnabled(c, s, u, ua) && ShowsTick(s.stats.mem.clock, s.stats.mem.clock.tick)
    ensures var minute := MinuteOf(s.stats.mem.clock.tick);
            && (GoesOn(ua) ==> minute < c.shiftClose * 60)
            && (ClosingExit(ua) ==> minute >= c.shiftClose * 60)
  {
  }
}
