/** Lock discipline: both semaphores admit one holder, nobody holds both, and sections refine atomic updates. */
module Locks {
  import opened Settings
  import opened SharedRecord
  import opened Statistics
  import opened Seats
  import opened Protocol

  ghost predicate Known(s: State, p: Proc) {
    match p
    case TheDirector => true
    case TheOperator(pid) => pid in s.operators
    case TheUser(pid) => pid in s.users
  }

  /** Only the director writes the clock and opens a new day. */
  predicate Ordinary(w: StatWrite) {
    !w.SetMinute? && !w.SetDay? && !w.ClearToday?
  }

  ghost predicate StatSection(s: State, d: DirectorPc, p: Proc, todo: seq<StatWrite>) {
    && Known(s, p)
    && (if p.TheDirector? then d.ResetSeats? || d.LoopHead?
        else forall i | 0 <= i < |todo| :: Ordinary(todo[i]))
  }

  ghost predicate SeatSection(s: State, d: DirectorPc, p: Proc, todo: seq<SeatWrite>) {
    && Known(s, p)
    && (if p.TheDirector? then d == ResetDone
        else forall i | 0 <= i < |todo| :: !todo[i].SetService?)
  }

  ghost predicate StatsLock(s: State) {
    && Consistent(ApplyStat, s.stats)
    && forall p | p in s.stats.inside :: StatSection(s, s.director.pc, p, s.stats.inside[p])
  }

  ghost predicate SeatsLock(c: Config, s: State) {
    && Consistent(ApplySeat, s.seats)
    && (forall p | p in s.seats.inside :: SeatSection(s, s.director.pc, p, s.seats.inside[p]))
    && |s.seats.mem| == |s.seats.view| == c.numSeats
  }

  ghost predicate LockInv(c: Config, s: State) {
    && StatsLock(s)
    && SeatsLock(c, s)
    && s.stats.inside.Keys !! s.seats.inside.Keys
  }

  lemma {:induction false} RunKeepsLength(m: seq<Seat>, todo: seq<SeatWrite>)
    ensures |Run(ApplySeat, m, todo)| == |m|
    decreases |todo|
  {
    if todo != [] {
      RunKeepsLength(ApplySeat(m, todo[0]), todo[1..]);
    }
  }

  lemma LocksInitially(c: Config, s: State)
    requires Init(c, s)
    ensures LockInv(c, s)
  {
  }

  /** What a program must respect when a step enters a section. */
  ghost predicate Disciplined(s: State, d: DirectorState, who: Proc, e: Effect) {
    && (e.stats.Owes? ==>
          e.seats.Outside? && s.stats.sem > 0 && OutsideLocks(s, who) && StatSection(s, d.pc, who, e.stats.writes))
    && (e.seats.Owes? ==>
          s.seats.sem > 0 && OutsideLocks(s, who) && SeatSection(s, d.pc, who, e.seats.writes))
    && (d.pc == s.director.pc || OutsideLocks(s, TheDirector))
  }

  lemma CommitStats(s: State, s': State, who: Proc, e: Effect)
    requires StatsLock(s) && Disciplined(s, s'.director, who, e)
    requires s'.stats == Into(ApplyStat, s.stats, who, e.stats)
    requires s.users.Keys <= s'.users.Keys && s.operators.Keys <= s'.operators.Keys
    ensures StatsLock(s')
  {
    if e.stats.Owes? {
      EnterIsAtomic(ApplyStat, s.stats, who, e.stats.writes);
      SemaphoreCountsHolders(ApplyStat, s.stats);
    }
  }

  lemma CommitSeats(c: Config, s: State, s': State, who: Proc, e: Effect)
    requires SeatsLock(c, s) && Disciplined(s, s'.director, who, e)
    requires s'.seats == Into(ApplySeat, s.seats, who, e.seats)
    requires s.users.Keys <= s'.users.Keys && s.operators.Keys <= s'.operators.Keys
    ensures SeatsLock(c, s')
  {
    if e.seats.Owes? {
      EnterIsAtomic(ApplySeat, s.seats, who, e.seats.writes);
      SemaphoreCountsHolders(ApplySeat, s.seats);
      RunKeepsLength(s.seats.view, e.seats.writes);
    }
  }

  lemma CommitKeepsLocks(c: Config, s: State, s': State, who: Proc, e: Effect)
    requires LockInv(c, s) && Disciplined(s, s'.director, who, e)
    requires s'.stats == Into(ApplyStat, s.stats, who, e.stats)
    requires s'.seats == Into(ApplySeat, s.seats, who, e.seats)
    requires s.users.Keys <= s'.users.Keys && s.operators.Keys <= s'.operators.Keys
    ensures LockInv(c, s')
  {
    CommitStats(s, s', who, e);
    CommitSeats(c, s, s', who, e);
  }

  lemma UserDisciplined(c: Config, s: State, u: int, ua: UserAct)
    requires Enabled(c, s, UserStep(u, ua))
    ensures Disciplined(s, s.director, TheUser(u), UserEffect(s, u, ua))
  {
  }

  lemma OperatorDisciplined(c: Config, s: State, p: int, oa: OperatorAct)
    requires Enabled(c, s, OperatorStep(p, oa))
    ensures Disciplined(s, s.director, TheOperator(p), OperatorEffect(c, s, p, oa))
  {
  }

  lemma DirectorDisciplined(c: Config, s: State, xa: DirectorAct)
    requires Enabled(c, s, DirectorStep(xa))
    ensures Disciplined(s, DirectorNext(c, s, xa), TheDirector, DirectorEffect(s, xa))
  {
  }

  /** A write or the final sem_post inside the statistics section is invisible in the view. */
  lemma StatSectionSteps(s: State, s': State, p: Proc)
    requires StatsLock(s) && p in s.stats.inside
    requires s'.stats == if s.stats.inside[p] != [] then WriteNext(ApplyStat, s.stats, p) else Leave(s.stats, p)
    requires s' == s.(stats := s'.stats)
    ensures StatsLock(s') && s'.stats.view == s.stats.view
  {
    assert StatSection(s, s.director.pc, p, s.stats.inside[p]);
    if s.stats.inside[p] != [] {
      WriteNextKeepsView(ApplyStat, s.stats, p);
    } else {
      LeaveKeepsView(ApplyStat, s.stats, p);
    }
  }

  /** The same for the seat section. */
  lemma SeatSectionSteps(c: Config, s: State, s': State, p: Proc)
    requires SeatsLock(c, s) && p in s.seats.inside
    requires s'.seats == if s.seats.inside[p] != [] then WriteNext(ApplySeat, s.seats, p) else Leave(s.seats, p)
    requires s' == s.(seats := s'.seats)
    ensures SeatsLock(c, s') && s'.seats.view == s.seats.view
  {
    assert SeatSection(s, s.director.pc, p, s.seats.inside[p]);
    if s.seats.inside[p] != [] {
      WriteNextKeepsView(ApplySeat, s.seats, p);
    } else {
      LeaveKeepsView(ApplySeat, s.seats, p);
    }
  }

  predicate InsideSection(a: Action) {
    a.StatStep? || a.StatLeave? || a.SeatStep? || a.SeatLeave?
  }

  lemma SectionSteps(c: Config, s: State, a: Action)
    requires LockInv(c, s) && Enabled(c, s, a) && InsideSection(a)
    ensures LockInv(c, Apply(c, s, a))
    ensures Apply(c, s, a).stats.view == s.stats.view && Apply(c, s, a).seats.view == s.seats.view
  {
    var s' := Apply(c, s, a);
    if a.StatStep? || a.StatLeave? {
      StatSectionSteps(s, s', a.who);
    } else {
      SeatSectionSteps(c, s, s', a.who);
    }
  }

  lemma UserKeepsLocks(c: Config, s: State, u: int, ua: UserAct)
    requires LockInv(c, s) && Enabled(c, s, UserStep(u, ua))
    ensures LockInv(c, Apply(c, s, UserStep(u, ua)))
  {
    UserDisciplined(c, s, u, ua);
    CommitKeepsLocks(c, s, Apply(c, s, UserStep(u, ua)), TheUser(u), UserEffect(s, u, ua));
  }

  lemma OperatorKeepsLocks(c: Config, s: State, p: int, oa: OperatorAct)
    requires LockInv(c, s) && Enabled(c, s, OperatorStep(p, oa))
    ensures LockInv(c, Apply(c, s, OperatorStep(p, oa)))
  {
    OperatorDisciplined(c, s, p, oa);
    CommitKeepsLocks(c, s, Apply(c, s, OperatorStep(p, oa)), TheOperator(p), OperatorEffect(c, s, p, oa));
  }

  lemma LocksPreserved(c: Config, s: State, a: Action)
    requires LockInv(c, s) && Enabled(c, s, a)
    ensures LockInv(c, Apply(c, s, a))
  {
    var s' := Apply(c, s, a);
    match a
    case UserStep(u, ua) => UserKeepsLocks(c, s, u, ua);
    case OperatorStep(p, oa) => OperatorKeepsLocks(c, s, p, oa);
    case DispenserStep(da) =>
      CommitKeepsLocks(c, s, s', TheDirector, DispenserEffect(s, da));
    case DirectorStep(xa) =>
      DirectorDisciplined(c, s, xa);
      CommitKeepsLocks(c, s, s', TheDirector, DirectorEffect(s, xa));
    case _ => SectionSteps(c, s, a);
  }

  // ---------- what a step does to the statistics as a whole ----------

  /** The change made by the section that a user's step enters, if it enters one. */
  function UserChange(x: UserState, ua: UserAct): Change {
    match ua
    case URecord => Booked(x.visit.done.service, Completed(x.visit.wait as real, x.visit.done.time))
    case ULate => if x.plan.wasLate then Unchanged else LateAt(Wanted(x))
    case UFail => Booked(Wanted(x), Failed())
    case _ => Unchanged
  }

  function OperatorChange(y: OperatorState, oa: OperatorAct): Change {
    match oa
    case OCount => Booked(y.service, Requested())
    case ORecordPause => Paused
    case ORecordShift => Worked
    case _ => Unchanged
  }

  function DirectorChange(d: DirectorState, xa: DirectorAct): Change {
    match xa
    case XResetStats => NewDay(d.days)
    case XAdvance => Ticked(d.minutes + 1, d.ticks + 1)
    case _ => Unchanged
  }

  function ChangeOf(s: State, a: Action): Change {
    match a
    case UserStep(u, ua) => if u in s.users then UserChange(s.users[u], ua) else Unchanged
    case OperatorStep(p, oa) => if p in s.operators then OperatorChange(s.operators[p], oa) else Unchanged
    case DirectorStep(xa) => DirectorChange(s.director, xa)
    case _ => Unchanged
  }

  ghost predicate Amounts(s: State, e: Effect, ch: Change) {
    && (if e.stats.Owes? then Run(ApplyStat, s.stats.view, e.stats.writes) == ApplyChange(s.stats.view, ch)
        else ch == Unchanged)
    && e.hist.past == Archived(s.hist.past, s.stats.view, ch)
  }

  lemma UserAmounts(s: State, u: int, ua: UserAct)
    requires u in s.users
    ensures Amounts(s, UserEffect(s, u, ua), UserChange(s.users[u], ua))
  {
    var e := UserEffect(s, u, ua);
    match ua
    case URecord => RecordAmounts(s, s.users[u], e);
    case ULate => LateAmounts(s, s.users[u], e);
    case UFail => FailAmounts(s, s.users[u], e);
    case _ =>
  }

  lemma LateAmounts(s: State, x: UserState, e: Effect)
    requires e.stats == Owes(LateWrites(Wanted(x), x.plan.wasLate)) && e.hist == s.hist
    ensures Amounts(s, e, UserChange(x, ULate))
  {
    RunLate(s.stats.view, Wanted(x), x.plan.wasLate);
  }

  lemma FailAmounts(s: State, x: UserState, e: Effect)
    requires e.stats == Owes(FailWrites(Wanted(x))) && e.hist.past == s.hist.past
    ensures Amounts(s, e, UserChange(x, UFail))
  {
    RunFail(s.stats.view, Wanted(x));
  }

  lemma RecordAmounts(s: State, x: UserState, e: Effect)
    requires e.stats == Owes(SuccessWrites(x.visit.done.service, x.visit.wait as real, x.visit.done.time))
    requires e.hist == s.hist
    ensures Amounts(s, e, UserChange(x, URecord))
  {
    RunSuccess(s.stats.view, x.visit.done.service, x.visit.wait as real, x.visit.done.time);
  }

  lemma OperatorAmounts(c: Config, s: State, p: int, oa: OperatorAct)
    requires p in s.operators
    ensures Amounts(s, OperatorEffect(c, s, p, oa), OperatorChange(s.operators[p], oa))
  {
    match oa
    case OCount => RunRequest(s.stats.view, s.operators[p].service);
    case ORecordPause => RunShort(s.stats.view, 0, 0, 0);
    case ORecordShift => RunShort(s.stats.view, 0, 0, 0);
    case _ =>
  }

  lemma DirectorAmounts(s: State, xa: DirectorAct)
    ensures Amounts(s, DirectorEffect(s, xa), DirectorChange(s.director, xa))
  {
    RunShort(s.stats.view, s.director.days, s.director.minutes + 1, s.director.ticks + 1);
  }
}
