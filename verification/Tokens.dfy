/** Day tokens are conserved, and a user can be late at most once for each token it consumed. */
module Tokens {
  import opened Settings
  import opened SharedRecord
  import opened Statistics
  import opened Seats
  import opened Protocol
  import opened Locks
  import opened Moves
  import opened Sessions
  import opened Director
  import opened Counting
  import opened Places

  function SumOf(s: seq<nat>): nat {
    if |s| == 0 then 0 else SumOf(s[..|s| - 1]) + s[|s| - 1]
  }

  /** Posts of day_update_event that the director still owes for the current day. */
  function Unposted(d: DirectorPc): nat {
    if d.PostDay? then d.left else 0
  }

  /** Days for which tokens have been posted or are being posted. */
  function StartedDays(d: DirectorState): int {
    match d.pc
    case ResetStats => d.days - 1
    case ResetSeats => d.days - 1
    case ResetDone => d.days - 1
    case Killing(exploded) => if exploded then d.days - 1 else d.days
    case Reported(exploded, _) => if exploded then d.days - 1 else d.days
    case _ => d.days
  }

  /** Every token posted is unclaimed, consumed by a user, or consumed by an operator. */
  ghost predicate TokenInv(s: State) {
    && s.events.day + s.hist.userTokens + s.hist.operatorTokens + Unposted(s.director.pc) == SumOf(s.hist.crowds)
    && |s.hist.crowds| == StartedDays(s.director)
  }

  /** The user has consumed a day token for which it may still be counted as late. */
  predicate MayBeLate(x: UserState) {
    x.pc.Starting? || (!x.pc.WaitDay? && !x.plan.wasLate)
  }

  /** Late users counted so far, and those who still may be, are covered by tokens consumed. */
  ghost predicate LateInv(s: State) {
    s.stats.view.sim.global.late + Count(s.users, MayBeLate) <= s.hist.userTokens
  }

  lemma TokensInitially(c: Config, s: State)
    requires Init(c, s)
    ensures TokenInv(s) && LateInv(s)
  {
    CountNone(s.users, MayBeLate);
  }

  lemma SumOfAppend(s: seq<nat>, n: nat)
    ensures SumOf(s + [n]) == SumOf(s) + n
  {
    assert (s + [n])[..|s|] == s;
  }

  // ---------- conservation of tokens ----------

  lemma UserTokenEffect(c: Config, s: State, u: int, ua: UserAct)
    requires u in s.users && UserEnabled(c, s, u, ua)
    ensures var e := UserEffect(s, u, ua);
            && e.events.day + e.hist.userTokens == s.events.day + s.hist.userTokens
            && e.hist.userTokens == s.hist.userTokens + One(ua.UTakeDay?)
            && e.hist.operatorTokens == s.hist.operatorTokens && e.hist.crowds == s.hist.crowds
  {
  }

  lemma OperatorTokenEffect(c: Config, s: State, p: int, oa: OperatorAct)
    requires p in s.operators && OperatorEnabled(c, s, p, oa)
    ensures var e := OperatorEffect(c, s, p, oa);
            && e.events.day + e.hist.operatorTokens == s.events.day + s.hist.operatorTokens
            && e.hist.userTokens == s.hist.userTokens && e.hist.crowds == s.hist.crowds
  {
  }

  ghost predicate TokensAfter(s: State, e: Effect, d: DirectorState) {
    && e.hist.userTokens == s.hist.userTokens
    && e.events.day + e.hist.userTokens + e.hist.operatorTokens + Unposted(d.pc) == SumOf(e.hist.crowds)
    && |e.hist.crowds| == StartedDays(d)
  }

  lemma DayStepTokens(c: Config, s: State, xa: DirectorAct)
    requires DirectorEnabled(c, s, xa) && TokenInv(s) && DirectorFits(c, s.director)
    requires xa.XBoundary? || xa.XResetDone? || xa.XPostDay?
    ensures TokensAfter(s, DirectorEffect(s, xa), DirectorNext(c, s, xa))
  {
    SumOfAppend(s.hist.crowds, Crowd(s));
  }

  predicate AtDoors(xa: DirectorAct) {
    xa.XOpenCheck? || xa.XPostOpen? || xa.XCloseCheck? || xa.XPostClose?
  }

  lemma DoorStepTokens(c: Config, s: State, xa: DirectorAct)
    requires DirectorEnabled(c, s, xa) && TokenInv(s) && DirectorFits(c, s.director) && AtDoors(xa)
    ensures TokensAfter(s, DirectorEffect(s, xa), DirectorNext(c, s, xa))
  {
  }

  lemma OtherStepTokens(c: Config, s: State, xa: DirectorAct)
    requires DirectorEnabled(c, s, xa) && TokenInv(s) && DirectorFits(c, s.director)
    requires !AtDoors(xa) && !xa.XBoundary? && !xa.XResetDone? && !xa.XPostDay?
    ensures TokensAfter(s, DirectorEffect(s, xa), DirectorNext(c, s, xa))
  {
  }

  lemma DirectorTokenEffect(c: Config, s: State, xa: DirectorAct)
    requires DirectorEnabled(c, s, xa) && TokenInv(s) && DirectorFits(c, s.director)
    ensures TokensAfter(s, DirectorEffect(s, xa), DirectorNext(c, s, xa))
  {
    if xa.XBoundary? || xa.XResetDone? || xa.XPostDay? {
      DayStepTokens(c, s, xa);
    } else if AtDoors(xa) {
      DoorStepTokens(c, s, xa);
    } else {
      OtherStepTokens(c, s, xa);
    }
  }

  lemma TokensPreserved(c: Config, s: State, s': State, a: Action)
    requires TokenInv(s) && DirectorFits(c, s.director) && Moved(c, s, s', a)
    ensures TokenInv(s')
  {
    match a
    case UserStep(u, ua) => UserTokenEffect(c, s, u, ua);
    case OperatorStep(p, oa) => OperatorTokenEffect(c, s, p, oa);
    case DispenserStep(da) => assert s'.events == s.events && s'.hist == s.hist;
    case DirectorStep(xa) => DirectorTokenEffect(c, s, xa);
    case _ =>
  }

  // ---------- late users ----------

  lemma LateLocal(c: Config, s: State, u: int, ua: UserAct)
    requires u in s.users && UserEnabled(c, s, u, ua)
    ensures var x, x' := s.users[u], UserNext(c, s, u, ua);
            One(MayBeLate(x')) + One(UserChange(x, ua).LateAt?) <= One(MayBeLate(x)) + One(ua.UTakeDay?)
  {
  }

  lemma LateChange(m: Stats, ch: Change)
    requires ch.Booked? ==> ch.d.late == 0
    ensures ApplyChange(m, ch).sim.global.late == m.sim.global.late + One(ch.LateAt?)
  {
  }

  lemma BookedWithoutLate(s: State, a: Action)
    ensures ChangeOf(s, a).Booked? ==> ChangeOf(s, a).d.late == 0
  {
  }

  lemma UserKeepsLate(c: Config, s: State, s': State, u: int, ua: UserAct)
    requires LateInv(s) && UserMove(c, s, s', u, ua)
    ensures LateInv(s')
  {
    var x' := UserNext(c, s, u, ua);
    CountUpdate(s.users, u, x', MayBeLate);
    LateLocal(c, s, u, ua);
    UserTokenEffect(c, s, u, ua);
    BookedWithoutLate(s, UserStep(u, ua));
    LateChange(s.stats.view, UserChange(s.users[u], ua));
  }

  lemma SameLate(s: State, s': State)
    requires LateInv(s) && s'.hist.userTokens == s.hist.userTokens
    requires s'.stats.view.sim.global.late == s.stats.view.sim.global.late
    requires s.users.Keys <= s'.users.Keys
    requires forall u | u in s'.users ::
               if u in s.users then SamePlace(s.users[u], s'.users[u]) else s'.users[u] == NewUser()
    ensures LateInv(s')
  {
    forall u | u in s'.users ensures MayBeLate(s'.users[u]) == (u in s.users && MayBeLate(s.users[u])) {
      assert u in s.users ==> SamePlace(s.users[u], s'.users[u]);
    }
    CountSame(s.users, s'.users, MayBeLate);
  }

  lemma OperatorNotLate(y: OperatorState, oa: OperatorAct, d: DirectorState, xa: DirectorAct)
    ensures !OperatorChange(y, oa).LateAt? && !DirectorChange(d, xa).LateAt?
  {
  }

  lemma OperatorKeepsLate(c: Config, s: State, s': State, p: int, oa: OperatorAct)
    requires SessionInv(s) && TokenInv(s) && LateInv(s) && OperatorMove(c, s, s', p, oa)
    ensures LateInv(s')
  {
    OperatorNotLate(s.operators[p], oa, s.director, XLoop);
    LateChange(s.stats.view, OperatorChange(s.operators[p], oa));
    OperatorTokenEffect(c, s, p, oa);
    OperatorTouchesItems(c, s, p, oa);
    SameLate(s, s');
  }

  lemma DispenserKeepsLate(s: State, s': State, da: DispenserAct)
    requires SessionInv(s) && TokenInv(s) && LateInv(s) && DispenserMove(s, s', da)
    ensures LateInv(s')
  {
    DispenserSetsItems(s, da);
    SameLate(s, s');
  }

  lemma SectionKeepsLate(s: State, s': State, a: Action)
    requires LateInv(s) && SectionMove(s, s', a)
    ensures LateInv(s')
  {
    SameLate(s, s');
  }

  lemma LatePreserved(c: Config, s: State, s': State, a: Action)
    requires SessionInv(s) && TokenInv(s) && LateInv(s) && DirectorFits(c, s.director) && Moved(c, s, s', a)
    ensures LateInv(s')
  {
    BookedWithoutLate(s, a);
    match a
    case UserStep(u, ua) => UserKeepsLate(c, s, s', u, ua);
    case OperatorStep(p, oa) => OperatorKeepsLate(c, s, s', p, oa);
    case DispenserStep(da) => DispenserKeepsLate(s, s', da);
    case DirectorStep(xa) => DirectorKeepsLate(c, s, s', xa);
    case _ => SectionKeepsLate(s, s', a);
  }

  lemma DirectorKeepsLate(c: Config, s: State, s': State, xa: DirectorAct)
    requires SessionInv(s) && TokenInv(s) && LateInv(s) && DirectorFits(c, s.director) && DirectorMove(c, s, s', xa)
    ensures LateInv(s')
  {
    LateChange(s.stats.view, DirectorChange(s.director, xa));
    DirectorTokenEffect(c, s, xa);
    DirectorUsersAre(c, s, xa);
    SameLate(s, s');
  }
}
