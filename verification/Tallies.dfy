/** Conservation of requests and tickets, and bounds on the totals that the director reports. */
module Tallies {
  import opened Settings
  import opened SharedRecord
  import opened Statistics
  import opened Seats
  import opened Protocol
  import opened Locks
  import opened Moves
  import opened Sessions
  import opened Director
  import opened Counting
  import opened Places
  import opened Timing

  // ---------- what a change does to the totals ----------

  /** Events of one kind that a change adds to service k; k == SERVICES stands for the global tally. */
  function Added(ch: Change, k: int): Tally {
    match ch
    case Booked(j, d) => if j == k || k == SERVICES then d else NOTHING
    case LateAt(j) => if j == k || k == SERVICES then CameLate() else NOTHING
    case _ => NOTHING
  }

  function TallyOf(b: Book, k: int): Tally {
    if k == SERVICES then b.global else ServiceOf(b, k)
  }

  predicate IsTally(k: int) {
    0 <= k <= SERVICES
  }

  lemma ChangeAdds(m: Stats, ch: Change, k: int)
    requires |m.sim.services| == SERVICES && IsTally(k)
    ensures TallyOf(ApplyChange(m, ch).sim, k) == Plus(TallyOf(m.sim, k), Added(ch, k))
    ensures |ApplyChange(m, ch).sim.services| == SERVICES
  {
  }

  // ---------- the reply carries a fair time for a real service ----------

  ghost predicate Fair(k: int, time: real) {
    IsService(k) && WithinHalf(time, Duration(k))
  }

  ghost predicate DoneFits(x: UserState) {
    && (x.item.InService? || x.item.AnswerLost? ==> IsService(x.item.service))
    && (x.item.Answered? ==> Fair(x.item.service, x.item.time))
    && (x.pc.HaveDone? || x.pc.ReadyToRecord? ==> Fair(x.visit.done.service, x.visit.done.time))
  }

  ghost predicate DoneInv(s: State) {
    forall u | u in s.users :: DoneFits(s.users[u])
  }

  lemma UserDoneFits(c: Config, s: State, u: int, ua: UserAct)
    requires u in s.users && UserEnabled(c, s, u, ua) && DoneFits(s.users[u])
    requires PcFits(s.operators.Keys, s.users[u]) && Expects(s.users[u], ua)
    ensures DoneFits(UserNext(c, s, u, ua))
  {
    if Early(ua) {
      EarlyDone(c, s, u, ua);
    } else {
      LateDone(c, s, u, ua);
    }
  }

  lemma EarlyDone(c: Config, s: State, u: int, ua: UserAct)
    requires u in s.users && UserEnabled(c, s, u, ua) && PcFits(s.operators.Keys, s.users[u]) && Early(ua)
    ensures DoneFits(UserNext(c, s, u, ua))
  {
  }

  lemma LateDone(c: Config, s: State, u: int, ua: UserAct)
    requires u in s.users && UserEnabled(c, s, u, ua) && DoneFits(s.users[u]) && !Early(ua)
    requires Expects(s.users[u], ua)
    ensures DoneFits(UserNext(c, s, u, ua))
  {
  }

  lemma OperatorDoneFits(c: Config, s: State, p: int, oa: OperatorAct)
    requires Loaded(c) && DoneInv(s) && p in s.operators && IsService(s.operators[p].service)
    ensures forall u | u in OperatorUsers(c, s, p, oa) :: DoneFits(OperatorUsers(c, s, p, oa)[u])
  {
    if oa.OAnswer? {
      ServiceMinutesWithinHalf(c, s.operators[p].service, oa.draw);
    }
    forall u | u in OperatorUsers(c, s, p, oa) ensures DoneFits(OperatorUsers(c, s, p, oa)[u]) {
      assert u in s.users;
      assert DoneFits(s.users[u]);
    }
  }

  lemma UserKeepsDone(c: Config, s: State, s': State, u: int, ua: UserAct)
    requires SessionInv(s) && DoneInv(s) && UserMove(c, s, s', u, ua)
    ensures DoneInv(s')
  {
    assert UserFits(s.operators.Keys, s.users[u]);
    if ua.UGetTicket? || ua.UGetDone? {
      ReceivedByUser(s, u, ua.m);
    }
    UserDoneFits(c, s, u, ua);
  }

  lemma OperatorKeepsDone(c: Config, s: State, s': State, p: int, oa: OperatorAct)
    requires Loaded(c) && SessionInv(s) && DoneInv(s) && OperatorMove(c, s, s', p, oa)
    ensures DoneInv(s')
  {
    assert OperatorFits(s.users, p, s.operators[p]);
    OperatorDoneFits(c, s, p, oa);
  }

  lemma DirectorKeepsDone(c: Config, s: State, s': State, xa: DirectorAct)
    requires SessionInv(s) && DoneInv(s) && DirectorMove(c, s, s', xa)
    ensures DoneInv(s')
  {
    DirectorUsersAre(c, s, xa);
  }

  lemma DonePreserved(c: Config, s: State, s': State, a: Action)
    requires Loaded(c) && SessionInv(s) && DoneInv(s) && Moved(c, s, s', a)
    ensures DoneInv(s')
  {
    match a
    case UserStep(u, ua) => UserKeepsDone(c, s, s', u, ua);
    case OperatorStep(p, oa) => OperatorKeepsDone(c, s, s', p, oa);
    case DispenserStep(da) => DispenserDoneFits(s, s', da);
    case DirectorStep(xa) => DirectorKeepsDone(c, s, s', xa);
    case _ =>
  }

  lemma DispenserDoneFits(s: State, s': State, da: DispenserAct)
    requires DoneInv(s) && s'.users == DispenserUsers(s, da)
    ensures DoneInv(s')
  {
    forall u | u in s'.users ensures DoneFits(s'.users[u]) {
      assert u in s.users && DoneFits(s.users[u]);
    }
  }

  // ---------- requests ----------

  /** A request of service k that an operator has counted and no user has recorded yet. */
  predicate IsCounted(x: UserState, k: int) {
    || (x.item.InService? && x.item.counted && x.item.service == k)
    || (x.item.Answered? && x.item.service == k)
    || (x.item.AnswerLost? && x.item.service == k)
    || ((x.pc.HaveDone? || x.pc.ReadyToRecord?) && x.visit.done.service == k)
  }

  function CountedFor(k: int): UserState -> bool {
    x => IsCounted(x, k)
  }

  ghost predicate RequestsBalance(s: State, k: int) {
    var t := ServiceOf(s.stats.view.sim, k);
    t.requests == t.served + Count(s.users, CountedFor(k))
  }

  lemma UserCounts(c: Config, s: State, u: int, ua: UserAct, k: int)
    requires u in s.users && UserEnabled(c, s, u, ua) && IsService(k)
    requires PcFits(s.operators.Keys, s.users[u]) && Expects(s.users[u], ua)
    ensures var x, x' := s.users[u], UserNext(c, s, u, ua);
            One(IsCounted(x', k)) + Added(UserChange(x, ua), k).served == One(IsCounted(x, k))
    ensures Added(UserChange(s.users[u], ua), k).requests == 0
  {
    if Early(ua) {
      EarlyCounts(c, s, u, ua, k);
    } else {
      LateCounts(c, s, u, ua, k);
    }
  }

  lemma EarlyCounts(c: Config, s: State, u: int, ua: UserAct, k: int)
    requires u in s.users && UserEnabled(c, s, u, ua) && PcFits(s.operators.Keys, s.users[u]) && Early(ua)
    ensures !IsCounted(UserNext(c, s, u, ua), k) && !IsCounted(s.users[u], k)
    ensures UserChange(s.users[u], ua) == Unchanged
  {
  }

  lemma LateCounts(c: Config, s: State, u: int, ua: UserAct, k: int)
    requires u in s.users && UserEnabled(c, s, u, ua) && !Early(ua) && IsService(k)
    requires PcFits(s.operators.Keys, s.users[u]) && Expects(s.users[u], ua)
    ensures var x, x' := s.users[u], UserNext(c, s, u, ua);
            One(IsCounted(x', k)) + Added(UserChange(x, ua), k).served == One(IsCounted(x, k))
    ensures Added(UserChange(s.users[u], ua), k).requests == 0
  {
  }

  lemma UserKeepsRequests(c: Config, s: State, s': State, u: int, ua: UserAct, k: int)
    requires SessionInv(s) && UserMove(c, s, s', u, ua) && IsService(k)
    requires |s.stats.view.sim.services| == SERVICES && RequestsBalance(s, k)
    ensures RequestsBalance(s', k)
  {
    assert UserFits(s.operators.Keys, s.users[u]);
    if ua.UGetTicket? || ua.UGetDone? {
      ReceivedByUser(s, u, ua.m);
    }
    var x, x' := s.users[u], UserNext(c, s, u, ua);
    UserCounts(c, s, u, ua, k);
    CountUpdate(s.users, u, x', CountedFor(k));
    assert CountedFor(k)(x) == IsCounted(x, k) && CountedFor(k)(x') == IsCounted(x', k);
    ChangeAdds(s.stats.view, UserChange(x, ua), k);
  }

  /** A step that sets the item of one user at most. */
  lemma ItemCounts(s: State, s': State, u: int, k: int)
    requires u in s.users && u in s'.users && s'.users == s.users[u := s'.users[u]]
    ensures Count(s'.users, CountedFor(k))
         == Count(s.users, CountedFor(k)) + One(IsCounted(s'.users[u], k)) - One(IsCounted(s.users[u], k))
  {
    CountUpdate(s.users, u, s'.users[u], CountedFor(k));
    assert CountedFor(k)(s.users[u]) == IsCounted(s.users[u], k);
    assert CountedFor(k)(s'.users[u]) == IsCounted(s'.users[u], k);
  }

  lemma OperatorCounts(c: Config, s: State, p: int, oa: OperatorAct, k: int)
    requires p in s.operators && OperatorEnabled(c, s, p, oa) && Serves(oa) && IsService(k)
    requires OperatorFits(s.users, p, s.operators[p])
    requires oa.OPollRequest? ==> oa.m.body.ServiceRequest? && oa.m.body.sender in s.users
                                  && s.users[oa.m.body.sender].item.Waiting?
                                  && s.users[oa.m.body.sender].pc.AwaitDone?
    requires !oa.OPollRequest? ==> s.users[s.operators[p].customer].pc.AwaitDone?
    ensures var y := s.operators[p];
            var u := Customer(y, oa);
            var users' := OperatorUsers(c, s, p, oa);
            && u in s.users && u in users'
            && users' == s.users[u := users'[u]]
            && Added(OperatorChange(y, oa), k).requests == One(IsCounted(users'[u], k)) - One(IsCounted(s.users[u], k))
  {
    match oa
    case OPollRequest(m) =>
    case OCount =>
    case OAnswer(draw, sent) =>
  }

  lemma OperatorAdds(y: OperatorState, oa: OperatorAct, k: int)
    ensures var t := Added(OperatorChange(y, oa), k);
            t.served == t.failed == t.late == 0 && t.time == t.wait == 0.0 && (t.requests != 0 ==> oa.OCount?)
  {
  }

  lemma OperatorKeepsRequests(c: Config, s: State, s': State, p: int, oa: OperatorAct, k: int)
    requires SessionInv(s) && OperatorMove(c, s, s', p, oa) && IsService(k)
    requires |s.stats.view.sim.services| == SERVICES && RequestsBalance(s, k)
    ensures RequestsBalance(s', k)
  {
    var y := s.operators[p];
    assert OperatorFits(s.users, p, y);
    OperatorAdds(y, oa, k);
    ChangeAdds(s.stats.view, OperatorChange(y, oa), k);
    if Serves(oa) {
      var u := Customer(y, oa);
      if oa.OPollRequest? {
        ReceivedByServer(s, oa.m);
        QueuedMessage(s, oa.m);
      }
      assert UserFits(s.operators.Keys, s.users[u]);
      OperatorCounts(c, s, p, oa, k);
      ItemCounts(s, s', u, k);
    } else {
      QuietOperator(c, s, p, oa);
    }
  }

  lemma DispenserKeepsRequests(s: State, s': State, da: DispenserAct, k: int)
    requires SessionInv(s) && DispenserMove(s, s', da) && RequestsBalance(s, k)
    ensures RequestsBalance(s', k)
  {
    DispenserSetsItems(s, da);
    if da.DReceive? {
      ReceivedByServer(s, da.m);
      QueuedMessage(s, da.m);
    }
    forall u | u in s'.users
      ensures CountedFor(k)(s'.users[u]) == (u in s.users && CountedFor(k)(s.users[u]))
    {
      assert IsCounted(s'.users[u], k) == IsCounted(s.users[u], k);
    }
    CountSame(s.users, s'.users, CountedFor(k));
  }

  lemma DirectorKeepsRequests(c: Config, s: State, s': State, xa: DirectorAct, k: int)
    requires SessionInv(s) && DirectorMove(c, s, s', xa) && IsService(k)
    requires |s.stats.view.sim.services| == SERVICES && RequestsBalance(s, k)
    ensures RequestsBalance(s', k)
  {
    DirectorUsersAre(c, s, xa);
    DirectorAddsNothing(s.director, xa, k);
    ChangeAdds(s.stats.view, DirectorChange(s.director, xa), k);
    forall u | u in s'.users
      ensures CountedFor(k)(s'.users[u]) == (u in s.users && CountedFor(k)(s.users[u]))
    {
      assert u !in s.users ==> !IsCounted(s'.users[u], k);
    }
    CountSame(s.users, s'.users, CountedFor(k));
  }

  lemma DirectorAddsNothing(d: DirectorState, xa: DirectorAct, k: int)
    ensures Added(DirectorChange(d, xa), k) == NOTHING
  {
  }

  lemma RequestsPreserved(c: Config, s: State, s': State, a: Action, k: int)
    requires SessionInv(s) && Moved(c, s, s', a) && IsService(k)
    requires |s.stats.view.sim.services| == SERVICES && RequestsBalance(s, k)
    ensures RequestsBalance(s', k)
  {
    match a
    case UserStep(u, ua) => UserKeepsRequests(c, s, s', u, ua, k);
    case OperatorStep(p, oa) => OperatorKeepsRequests(c, s, s', p, oa, k);
    case DispenserStep(da) => DispenserKeepsRequests(s, s', da, k);
    case DirectorStep(xa) => DirectorKeepsRequests(c, s, s', xa, k);
    case _ =>
  }

  // ---------- times and waits ----------

  /** Total service time is within half and one and a half times the nominal time of those served. */
  ghost predicate TimeBounded(t: Tally, nominal: nat) {
    && t.served >= 0
    && t.served as real * nominal as real / 2.0 <= t.time <= 3.0 * t.served as real * nominal as real / 2.0
  }

  ghost predicate WaitBounded(t: Tally) {
    -1439.0 * t.served as real <= t.wait <= 1439.0 * t.served as real
  }

  ghost predicate BoundsInv(s: State) {
    && |s.stats.view.sim.services| == SERVICES
    && (forall k | IsService(k) :: TimeBounded(ServiceOf(s.stats.view.sim, k), Duration(k)))
    && (forall k | IsTally(k) :: WaitBounded(TallyOf(s.stats.view.sim, k)))
  }

  /** A booked event respects the bounds if its completed services do. */
  ghost predicate Respectable(ch: Change) {
    ch.Booked? ==>
      || (ch.d.served == 0 && ch.d.time == 0.0 && ch.d.wait == 0.0)
      || (ch.d.served == 1 && Fair(ch.k, ch.d.time) && -1439.0 <= ch.d.wait <= 1439.0)
  }

  lemma TimeStaysBounded(t: Tally, d: Tally, nominal: nat)
    requires TimeBounded(t, nominal)
    requires (d.served == 0 && d.time == 0.0) || (d.served == 1 && WithinHalf(d.time, nominal))
    ensures TimeBounded(Plus(t, d), nominal)
  {
    var n, m := t.served as real, nominal as real;
    assert (n + 1.0) * m == n * m + m;
    assert 3.0 * (n + 1.0) * m == 3.0 * n * m + 3.0 * m;
    assert (t.served + 1) as real == n + 1.0;
  }

  lemma WaitStaysBounded(t: Tally, d: Tally)
    requires WaitBounded(t)
    requires (d.served == 0 && d.wait == 0.0) || (d.served == 1 && -1439.0 <= d.wait <= 1439.0)
    ensures WaitBounded(Plus(t, d))
  {
    assert (t.served + d.served) as real == t.served as real + d.served as real;
  }

  lemma BoundsPreserved(s: State, s': State, ch: Change)
    requires BoundsInv(s) && Respectable(ch) && s'.stats.view == ApplyChange(s.stats.view, ch)
    ensures BoundsInv(s')
  {
    var m, m' := s.stats.view, s'.stats.view;
    ChangeAdds(m, ch, 0);
    forall k | IsService(k) ensures TimeBounded(ServiceOf(m'.sim, k), Duration(k)) {
      ChangeAdds(m, ch, k);
      TimeStaysBounded(ServiceOf(m.sim, k), Added(ch, k), Duration(k));
    }
    forall k | IsTally(k) ensures WaitBounded(TallyOf(m'.sim, k)) {
      ChangeAdds(m, ch, k);
      WaitStaysBounded(TallyOf(m.sim, k), Added(ch, k));
    }
  }

  lemma ChangesRespectable(c: Config, s: State, s': State, a: Action)
    requires Moved(c, s, s', a) && DoneInv(s)
    requires forall u | u in s.users :: UserTimes(s.users[u], s.stats.mem.clock.tick)
    ensures Respectable(ChangeOf(s, a))
  {
    if a.UserStep? && a.ua == URecord {
      var x := s.users[a.u];
      assert DoneFits(x) && UserTimes(x, s.stats.mem.clock.tick);
      ShownWait(x.trace.startTick, x.trace.endTick);
      assert -1439.0 <= x.visit.wait as real <= 1439.0;
    }
  }

  // ---------- the ledger ----------

  lemma UserBookable(c: Config, s: State, u: int, ua: UserAct)
    requires SessionInv(s) && DoneInv(s) && u in s.users && UserEnabled(c, s, u, ua)
    ensures Bookable(UserChange(s.users[u], ua))
  {
    assert UserFits(s.operators.Keys, s.users[u]) && DoneFits(s.users[u]);
    UserBooksServices(c, s, u, ua);
  }

  lemma OperatorBookable(c: Config, s: State, p: int, oa: OperatorAct)
    requires SessionInv(s) && p in s.operators && OperatorEnabled(c, s, p, oa)
    ensures Bookable(OperatorChange(s.operators[p], oa))
  {
    assert OperatorFits(s.users, p, s.operators[p]);
  }

  lemma DirectorBookable(d: DirectorState, xa: DirectorAct)
    ensures Bookable(DirectorChange(d, xa))
  {
  }

  lemma ChangesBookable(c: Config, s: State, s': State, a: Action)
    requires SessionInv(s) && DoneInv(s) && Moved(c, s, s', a)
    ensures Bookable(ChangeOf(s, a))
  {
    match a
    case UserStep(u, ua) => UserBookable(c, s, u, ua);
    case OperatorStep(p, oa) => OperatorBookable(c, s, p, oa);
    case DirectorStep(xa) => DirectorBookable(s.director, xa);
    case _ =>
  }

  lemma UserBooksServices(c: Config, s: State, u: int, ua: UserAct)
    requires u in s.users && UserEnabled(c, s, u, ua)
    requires UserFits(s.operators.Keys, s.users[u]) && DoneFits(s.users[u])
    ensures Bookable(UserChange(s.users[u], ua))
  {
    var x := s.users[u];
    assert IsService(Wanted(x));
  }

  // ---------- pauses ----------

  /** The operator has counted its pause and the statistics have not. */
  predicate Pausing(y: OperatorState) {
    y.pc == Leaving(true) || y.pc == LeftSeat(true) || y.pc == RecordPause
  }

  function PausesOf(y: OperatorState): int {
    y.pauses
  }

  ghost predicate PauseInv(c: Config, s: State) {
    && s.stats.view.counts.pauses + Count(s.operators, Pausing) == Sum(s.operators, PausesOf)
    && forall p | p in s.operators :: s.operators[p].pauses <= c.nofPause
  }

  lemma OperatorPauses(c: Config, s: State, p: int, oa: OperatorAct)
    requires p in s.operators && OperatorEnabled(c, s, p, oa) && s.operators[p].pauses <= c.nofPause
    ensures var y, y' := s.operators[p], OperatorNext(c, s, p, oa);
            && y'.pauses <= c.nofPause
            && One(OperatorChange(y, oa).Paused?) + One(Pausing(y')) - One(Pausing(y)) == y'.pauses - y.pauses
  {
  }

  lemma ChangePauses(m: Stats, ch: Change)
    ensures ApplyChange(m, ch).counts.pauses == m.counts.pauses + One(ch.Paused?)
  {
  }

  lemma OthersDoNotPause(x: UserState, ua: UserAct, d: DirectorState, xa: DirectorAct)
    ensures !UserChange(x, ua).Paused? && !DirectorChange(d, xa).Paused?
  {
  }

  lemma OperatorKeepsPauses(c: Config, s: State, s': State, p: int, oa: OperatorAct)
    requires PauseInv(c, s) && OperatorMove(c, s, s', p, oa)
    ensures PauseInv(c, s')
  {
    var y' := OperatorNext(c, s, p, oa);
    OperatorPauses(c, s, p, oa);
    CountUpdate(s.operators, p, y', Pausing);
    SumUpdate(s.operators, PausesOf, p, y');
    ChangePauses(s.stats.view, OperatorChange(s.operators[p], oa));
  }

  lemma PausesPreserved(c: Config, s: State, s': State, a: Action)
    requires PauseInv(c, s) && Moved(c, s, s', a)
    ensures PauseInv(c, s')
  {
    match a
    case UserStep(u, ua) =>
      OthersDoNotPause(s.users[u], ua, s.director, XLoop);
      ChangePauses(s.stats.view, UserChange(s.users[u], ua));
    case OperatorStep(p, oa) => OperatorKeepsPauses(c, s, s', p, oa);
    case DirectorStep(xa) =>
      OthersDoNotPause(NewUser(), UTakeDay, s.director, xa);
      ChangePauses(s.stats.view, DirectorChange(s.director, xa));
    case _ =>
  }

  // ---------- initially ----------

  lemma TalliesInitially(c: Config, s: State)
    requires Init(c, s)
    ensures DoneInv(s) && BoundsInv(s) && PauseInv(c, s)
    ensures forall k | IsService(k) :: RequestsBalance(s, k)
  {
    forall k | IsService(k) ensures RequestsBalance(s, k) {
      CountNone(s.users, CountedFor(k));
    }
    CountNone(s.operators, Pausing);
    SumZero(s.operators, PausesOf);
  }
}
