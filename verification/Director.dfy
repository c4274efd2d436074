/** The clock and the tokens: the director's position in its loop, the minute others read, the day tokens. */
module Director {
  import opened Settings
  import opened SharedRecord
  import opened Statistics
  import opened Seats
  import opened Protocol
  import opened Locks
  import opened Moves
  import opened Sessions
  import opened Timing

  /** Nothing of the current iteration has been counted yet. */
  ghost predicate AtHead(c: Config, d: DirectorState) {
    || (d.ticks == 0 && d.minutes == 0 && d.days == 0)
    || (d.ticks >= 1 && d.days >= 1 && 1 <= d.minutes <= MINUTES_A_DAY
        && d.ticks == (d.days - 1) * MINUTES_A_DAY + d.minutes)
  }

  /** What each point of the director's loop says about its two counters and the ticks completed. */
  ghost predicate DirectorFits(c: Config, d: DirectorState) {
    match d.pc
    case LoopHead => AtHead(c, d) && (d.days < c.simDuration || (d.days == c.simDuration && d.minutes == 1))
    case OpenCheck => AtHead(c, d) && d.days < c.simDuration
    case PostOpen(_) => AtHead(c, d) && d.days < c.simDuration && d.minutes == c.shiftOpen * 60 >= 1
    case CloseCheck => AtHead(c, d) && d.days < c.simDuration
    case PostClose(_) => AtHead(c, d) && d.days < c.simDuration && d.minutes == c.shiftClose * 60 >= 1
    case Boundary => AtHead(c, d) && d.days < c.simDuration
    case ResetStats => AtBoundary(c, d)
    case ResetSeats => AtBoundary(c, d)
    case ResetDone => AtBoundary(c, d)
    case PostDay(_) => AtBoundary(c, d)
    case CheckNewUsers => AtTail(c, d)
    case Advance => AtTail(c, d)
    case Killing(exploded) => AtEnd(c, d, exploded)
    case Reported(exploded, _) => AtEnd(c, d, exploded)
  }

  ghost predicate AtBoundary(c: Config, d: DirectorState) {
    1 <= d.days <= c.simDuration && d.ticks == (d.days - 1) * MINUTES_A_DAY
  }

  ghost predicate AtTail(c: Config, d: DirectorState) {
    && d.days >= 1 && d.minutes < MINUTES_A_DAY && d.ticks == (d.days - 1) * MINUTES_A_DAY + d.minutes
    && (d.days < c.simDuration || (d.days == c.simDuration && d.minutes == 0))
  }

  ghost predicate AtEnd(c: Config, d: DirectorState, exploded: bool) {
    && d.days >= 1
    && d.ticks == (d.days - 1) * MINUTES_A_DAY + (if exploded then 0 else 1)
    && (if exploded then d.days <= c.simDuration else d.days == c.simDuration)
  }

  lemma DirectorStays(c: Config, s: State, xa: DirectorAct)
    requires Loaded(c) && DirectorFits(c, s.director) && DirectorEnabled(c, s, xa)
    ensures DirectorFits(c, DirectorNext(c, s, xa))
  {
  }

  // ---------- the minute that others read ----------

  predicate ShowsTick(k: Clock, t: nat) {
    k.tick == t && k.minute == MinuteOf(t)
  }

  predicate NoClock(todo: seq<StatWrite>) {
    forall i | 0 <= i < |todo| :: !todo[i].SetMinute?
  }

  /** The writer of the section in progress leaves the clock alone, or is the director about to write it. */
  ghost predicate ClockSection(s: State, p: Proc, todo: seq<StatWrite>) {
    var mem, view := s.stats.mem.clock, s.stats.view.clock;
    || (NoClock(todo) && mem.tick == view.tick)
    || (p == TheDirector && s.director.pc == LoopHead && todo == ClockWrites(view.minute, view.tick)
        && mem.tick + 1 == view.tick)
  }

  predicate InOffice(x: UserState) {
    !x.pc.WaitDay? && !x.pc.Starting? && !x.pc.WaitOpen?
  }

  predicate Timed(x: UserState) {
    x.pc.ReadyToSend? || x.pc.AwaitDone? || x.pc.HaveDone? || x.pc.ReadyToRecord?
  }

  /** A user in the office came after the first tick, and its clock readings are ticks that have passed. */
  ghost predicate UserTimes(x: UserState, now: nat) {
    && (InOffice(x) ==> now >= 1)
    && (Timed(x) ==> 1 <= x.trace.startTick <= now && x.visit.start == MinuteOf(x.trace.startTick))
    && (x.pc.ReadyToRecord? ==>
          && x.trace.startTick <= x.trace.endTick <= now
          && x.visit.wait == MinuteOf(x.trace.endTick) - MinuteOf(x.trace.startTick))
  }

  ghost predicate ClockInv(c: Config, s: State) {
    && DirectorFits(c, s.director)
    && ShowsTick(s.stats.view.clock, s.director.ticks)
    && ShowsTick(s.stats.mem.clock, s.stats.mem.clock.tick)
    && s.stats.mem.clock.tick <= s.stats.view.clock.tick
    && (forall p | p in s.stats.inside :: ClockSection(s, p, s.stats.inside[p]))
    && (s.events.open > 0 ==> s.stats.mem.clock.tick >= 1)
    && (forall u | u in s.users :: UserTimes(s.users[u], s.stats.mem.clock.tick))
  }

  lemma ClockInitially(c: Config, s: State)
    requires Init(c, s)
    ensures ClockInv(c, s)
  {
  }

  /** Outside a section of the director's, everyone sees the director's own tick. */
  lemma DirectorOutside(c: Config, s: State)
    requires LockInv(c, s) && ClockInv(c, s) && TheDirector !in s.stats.inside
    ensures s.stats.mem.clock.tick == s.director.ticks
  {
    if s.stats.inside.Keys != {} {
      var p :| p in s.stats.inside;
      assert ClockSection(s, p, s.stats.inside[p]);
    }
  }

  lemma UserClockEffect(s: State, u: int, ua: UserAct)
    requires u in s.users
    ensures UserEffect(s, u, ua).stats.Owes? ==> NoClock(UserEffect(s, u, ua).stats.writes)
    ensures UserEffect(s, u, ua).events.open <= s.events.open
  {
  }

  lemma OperatorClockEffect(c: Config, s: State, p: int, oa: OperatorAct)
    requires p in s.operators
    ensures OperatorEffect(c, s, p, oa).stats.Owes? ==> NoClock(OperatorEffect(c, s, p, oa).stats.writes)
    ensures OperatorEffect(c, s, p, oa).events.open <= s.events.open
  {
  }

  lemma ChangeKeepsClock(m: Stats, ch: Change)
    requires !ch.Ticked?
    ensures ApplyChange(m, ch).clock.tick == m.clock.tick && ApplyChange(m, ch).clock.minute == m.clock.minute
  {
  }

  lemma EarlyReadsClock(c: Config, s: State, u: int, ua: UserAct)
    requires u in s.users && UserEnabled(c, s, u, ua)
    requires UserTimes(s.users[u], s.stats.mem.clock.tick) && ShowsTick(s.stats.mem.clock, s.stats.mem.clock.tick)
    requires s.events.open > 0 ==> s.stats.mem.clock.tick >= 1
    requires Early(ua)
    ensures UserTimes(UserNext(c, s, u, ua), s.stats.mem.clock.tick)
  {
  }

  lemma LateReadsClock(c: Config, s: State, u: int, ua: UserAct)
    requires u in s.users && UserEnabled(c, s, u, ua)
    requires UserTimes(s.users[u], s.stats.mem.clock.tick) && ShowsTick(s.stats.mem.clock, s.stats.mem.clock.tick)
    requires s.events.open > 0 ==> s.stats.mem.clock.tick >= 1
    requires !Early(ua)
    ensures UserTimes(UserNext(c, s, u, ua), s.stats.mem.clock.tick)
  {
  }

  lemma UserReadsClock(c: Config, s: State, u: int, ua: UserAct)
    requires u in s.users && UserEnabled(c, s, u, ua)
    requires UserTimes(s.users[u], s.stats.mem.clock.tick) && ShowsTick(s.stats.mem.clock, s.stats.mem.clock.tick)
    requires s.events.open > 0 ==> s.stats.mem.clock.tick >= 1
    ensures UserTimes(UserNext(c, s, u, ua), s.stats.mem.clock.tick)
  {
    if Early(ua) {
      EarlyReadsClock(c, s, u, ua);
    } else {
      LateReadsClock(c, s, u, ua);
    }
  }

  /** Users and operators: the clock of the view does not move, and their sections do not touch it. */
  lemma QuietSection(c: Config, s: State, s': State, who: Proc, e: Effect, ch: Change)
    requires LockInv(c, s) && ClockInv(c, s) && Effected(s, s', who, e, ch) && !ch.Ticked?
    requires s'.director == s.director && who != TheDirector
    requires e.stats.Owes? ==> NoClock(e.stats.writes) && s.stats.inside.Keys == {}
    ensures ShowsTick(s'.stats.view.clock, s'.director.ticks)
    ensures s'.stats.mem == s.stats.mem
    ensures forall p | p in s'.stats.inside :: ClockSection(s', p, s'.stats.inside[p])
  {
    ChangeKeepsClock(s.stats.view, ch);
    forall p | p in s'.stats.inside ensures ClockSection(s', p, s'.stats.inside[p]) {
      if e.stats.Outside? || p != who {
        assert ClockSection(s, p, s.stats.inside[p]);
      }
    }
  }

  lemma UserKeepsClock(c: Config, s: State, s': State, u: int, ua: UserAct)
    requires LockInv(c, s) && ClockInv(c, s) && UserMove(c, s, s', u, ua)
    ensures ClockInv(c, s')
  {
    UserClockEffect(s, u, ua);
    UserStatsGuard(c, s, u, ua);
    NotTicked(s.users[u], ua);
    QuietSection(c, s, s', TheUser(u), UserEffect(s, u, ua), UserChange(s.users[u], ua));
    UserReadsClock(c, s, u, ua);
  }

  lemma NotTicked(x: UserState, ua: UserAct)
    ensures !UserChange(x, ua).Ticked?
  {
  }

  lemma UserStatsGuard(c: Config, s: State, u: int, ua: UserAct)
    requires LockInv(c, s) && u in s.users && UserEnabled(c, s, u, ua)
    ensures UserEffect(s, u, ua).stats.Owes? ==> s.stats.inside.Keys == {}
  {
  }

  lemma OperatorStatsGuard(c: Config, s: State, p: int, oa: OperatorAct)
    requires LockInv(c, s) && p in s.operators && OperatorEnabled(c, s, p, oa)
    ensures OperatorEffect(c, s, p, oa).stats.Owes? ==> s.stats.inside.Keys == {}
    ensures !OperatorChange(s.operators[p], oa).Ticked?
  {
  }

  /** Two users that differ in their history item only have read the same clock. */
  lemma TimesIgnoreItem(s: State, s': State)
    requires forall u | u in s.users :: UserTimes(s.users[u], s.stats.mem.clock.tick)
    requires s'.stats.mem == s.stats.mem
    requires s.users.Keys == s'.users.Keys
    requires forall u | u in s.users :: s'.users[u] == s.users[u].(item := s'.users[u].item)
    ensures forall u | u in s'.users :: UserTimes(s'.users[u], s'.stats.mem.clock.tick)
  {
    forall u | u in s'.users ensures UserTimes(s'.users[u], s'.stats.mem.clock.tick) {
      assert UserTimes(s.users[u], s.stats.mem.clock.tick);
    }
  }

  lemma OperatorSetsItems(c: Config, s: State, p: int, oa: OperatorAct)
    requires p in s.operators
    ensures OperatorUsers(c, s, p, oa).Keys == s.users.Keys
    ensures forall u | u in s.users ::
              OperatorUsers(c, s, p, oa)[u] == s.users[u].(item := OperatorUsers(c, s, p, oa)[u].item)
  {
  }

  lemma OperatorKeepsClock(c: Config, s: State, s': State, p: int, oa: OperatorAct)
    requires LockInv(c, s) && ClockInv(c, s) && OperatorMove(c, s, s', p, oa)
    ensures ClockInv(c, s')
  {
    OperatorClockEffect(c, s, p, oa);
    OperatorStatsGuard(c, s, p, oa);
    QuietSection(c, s, s', TheOperator(p), OperatorEffect(c, s, p, oa), OperatorChange(s.operators[p], oa));
    OperatorSetsItems(c, s, p, oa);
    TimesIgnoreItem(s, s');
  }

  lemma DispenserKeepsClock(c: Config, s: State, s': State, da: DispenserAct)
    requires LockInv(c, s) && ClockInv(c, s) && DispenserMove(s, s', da)
    ensures ClockInv(c, s')
  {
    DispenserSetsItems(s, da);
    TimesIgnoreItem(s, s');
    assert s'.stats == s.stats;
    forall p | p in s'.stats.inside ensures ClockSection(s', p, s'.stats.inside[p]) {
      assert ClockSection(s, p, s.stats.inside[p]);
    }
  }

  lemma DispenserSetsItems(s: State, da: DispenserAct)
    ensures DispenserUsers(s, da).Keys == s.users.Keys
    ensures forall u | u in s.users ::
              DispenserUsers(s, da)[u] == s.users[u].(item := DispenserUsers(s, da)[u].item)
  {
  }

  lemma Advances(c: Config, s: State, s': State)
    requires LockInv(c, s) && ClockInv(c, s) && DirectorMove(c, s, s', XAdvance)
    ensures ClockInv(c, s')
  {
    var d, d' := s.director, s'.director;
    ClockIs(d'.ticks, d'.days - 1, d'.minutes);
    DirectorOutside(c, s);
    assert DirectorFits(c, d');
    forall p | p in s'.stats.inside ensures ClockSection(s', p, s'.stats.inside[p]) {
    }
  }

  lemma DirectorKeepsClock(c: Config, s: State, s': State, xa: DirectorAct)
    requires Loaded(c) && LockInv(c, s) && SessionInv(s) && ClockInv(c, s) && DirectorMove(c, s, s', xa)
    ensures ClockInv(c, s')
  {
    if xa == XAdvance {
      Advances(c, s, s');
    } else {
      DirectorStays(c, s, xa);
      DirectorOutside(c, s);
      DirectorUsersAre(c, s, xa);
      DirectorClockEffect(c, s, xa);
      OtherDirectorSteps(c, s, s', DirectorEffect(s, xa), DirectorChange(s.director, xa));
    }
  }

  lemma DirectorClockEffect(c: Config, s: State, xa: DirectorAct)
    requires LockInv(c, s) && xa != XAdvance && DirectorEnabled(c, s, xa) && DirectorFits(c, s.director)
    ensures var e := DirectorEffect(s, xa);
            && (e.stats.Owes? ==> NoClock(e.stats.writes) && s.stats.inside.Keys == {})
            && (e.events.open > s.events.open ==> s.director.ticks >= 1)
    ensures !DirectorChange(s.director, xa).Ticked?
    ensures DirectorNext(c, s, xa).ticks == s.director.ticks
  {
  }

  lemma OtherDirectorSteps(c: Config, s: State, s': State, e: Effect, ch: Change)
    requires LockInv(c, s) && ClockInv(c, s) && Effected(s, s', TheDirector, e, ch) && !ch.Ticked?
    requires TheDirector !in s.stats.inside && s.stats.mem.clock.tick == s.director.ticks
    requires DirectorFits(c, s'.director) && s'.director.ticks == s.director.ticks
    requires e.stats.Owes? ==> NoClock(e.stats.writes) && s.stats.inside.Keys == {}
    requires e.events.open > s.events.open ==> s.director.ticks >= 1
    requires s.users.Keys <= s'.users.Keys
    requires forall u | u in s'.users :: s'.users[u] == if u in s.users then s.users[u] else NewUser()
    ensures ClockInv(c, s')
  {
    ChangeKeepsClock(s.stats.view, ch);
    forall p | p in s'.stats.inside ensures ClockSection(s', p, s'.stats.inside[p]) {
      if e.stats.Outside? {
        assert ClockSection(s, p, s.stats.inside[p]);
      }
    }
    forall u | u in s'.users ensures UserTimes(s'.users[u], s'.stats.mem.clock.tick) {
      if u in s.users {
        assert UserTimes(s.users[u], s.stats.mem.clock.tick);
      }
    }
  }

  lemma SectionKeepsClock(c: Config, s: State, s': State, a: Action)
    requires LockInv(c, s) && ClockInv(c, s) && SectionMove(s, s', a)
    ensures ClockInv(c, s')
  {
    if a.StatStep? {
      SemaphoreCountsHolders(ApplyStat, s.stats);
      ClockWritten(c, s, s', a.who);
    } else {
      forall p | p in s'.stats.inside ensures ClockSection(s', p, s'.stats.inside[p]) {
        assert ClockSection(s, p, s.stats.inside[p]);
      }
    }
  }

  lemma ClockWritten(c: Config, s: State, s': State, p: Proc)
    requires ClockInv(c, s) && p in s.stats.inside && s.stats.inside[p] != []
    requires forall q | q in s.stats.inside :: q == p
    requires s' == s.(stats := WriteNext(ApplyStat, s.stats, p))
    ensures ClockInv(c, s')
  {
    assert ClockSection(s, p, s.stats.inside[p]);
    var w := s.stats.inside[p][0];
    assert s'.stats.mem == ApplyStat(s.stats.mem, w);
    assert !w.SetMinute? ==> s'.stats.mem.clock.tick == s.stats.mem.clock.tick
                             && s'.stats.mem.clock.minute == s.stats.mem.clock.minute;
    assert s.stats.mem.clock.tick <= s'.stats.mem.clock.tick;
    forall u | u in s'.users ensures UserTimes(s'.users[u], s'.stats.mem.clock.tick) {
      assert UserTimes(s.users[u], s.stats.mem.clock.tick);
    }
    assert ClockSection(s', p, s'.stats.inside[p]);
  }

  lemma ClockPreserved(c: Config, s: State, s': State, a: Action)
    requires Loaded(c) && LockInv(c, s) && SessionInv(s) && ClockInv(c, s) && Moved(c, s, s', a)
    ensures ClockInv(c, s')
  {
    match a
    case UserStep(u, ua) => UserKeepsClock(c, s, s', u, ua);
    case OperatorStep(p, oa) => OperatorKeepsClock(c, s, s', p, oa);
    case DispenserStep(da) => DispenserKeepsClock(c, s, s', da);
    case DirectorStep(xa) => DirectorKeepsClock(c, s, s', xa);
    case _ => SectionKeepsClock(c, s, s', a);
  }
}
