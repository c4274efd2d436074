/** Runs of the director alone, from one iteration of its loop to a later one, while everybody else stays put. */
module Solo {
  import opened Settings
  import opened SharedRecord
  import opened Statistics
  import opened Seats
  import opened Protocol
  import opened Locks
  import opened Runs
  import opened Paths
  import opened Race

  /** Nobody is in a locked section. */
  ghost predicate Quiet(s: State) {
    && Running(s)
    && s.stats == Shared(s.stats.mem, s.stats.mem, 1, map[])
    && s.seats == Shared(s.seats.mem, s.seats.mem, 1, map[])
  }

  lemma QuietIsConsistent(s: State)
    requires Quiet(s)
    ensures Consistent(ApplyStat, s.stats) && Consistent(ApplySeat, s.seats)
  {
  }

  lemma {:induction false} StatSectionEnds(c: Config, step: Relation, s: State, who: Proc)
    returns (path: Path, s': State)
    requires Follows(c, step) && Running(s) && who in s.stats.inside && Consistent(ApplyStat, s.stats)
    ensures Leads(step, s, path, s')
    ensures s' == s.(stats := Shared(s.stats.view, s.stats.view, 1, map[]))
    decreases |s.stats.inside[who]|
  {
    if s.stats.inside[who] == [] {
      path := Once(c, step, s, StatLeave(who));
      LeaveKeepsView(ApplyStat, s.stats, who);
      SemaphoreCountsHolders(ApplyStat, s.stats);
      s' := Apply(c, s, StatLeave(who));
    } else {
      var first := Once(c, step, s, StatStep(who));
      WriteNextKeepsView(ApplyStat, s.stats, who);
      var t := Apply(c, s, StatStep(who));
      path, s' := StatSectionEnds(c, step, t, who);
      path := Then(c, step, s, first, t, path, s');
    }
  }

  // ---------- the director ----------

  function At(s: State, pc: DirectorPc): State {
    s.(director := s.director.(pc := pc))
  }

  /** A step of the director that concerns nobody else. */
  lemma Alone(c: Config, step: Relation, s: State, xa: DirectorAct) returns (path: Path)
    requires Follows(c, step) && Quiet(s) && DirectorEnabled(c, s, xa)
    requires DirectorEffect(s, xa) == Nothing(s) && DirectorUsers(s, xa) == s.users
    ensures Leads(step, s, path, s.(director := DirectorNext(c, s, xa)))
  {
    NothingCommitted(s, TheDirector);
    path := Once(c, step, s, DirectorStep(xa));
  }

  datatype Batch = OfOpen | OfClose | OfDay

  function Posting(b: Batch, n: nat): DirectorPc {
    match b
    case OfOpen => PostOpen(n)
    case OfClose => PostClose(n)
    case OfDay => PostDay(n)
  }

  function Poster(b: Batch): DirectorAct {
    match b
    case OfOpen => XPostOpen
    case OfClose => XPostClose
    case OfDay => XPostDay
  }

  /** n tokens are posted. */
  function Given(s: State, b: Batch, n: nat): State {
    match b
    case OfOpen =>
      s.(events := s.events.(open := s.events.open + n),
         hist := Logged(s, s.hist.doors.(opening := s.hist.doors.opening + n)))
    case OfClose =>
      s.(events := s.events.(close := s.events.close + n),
         hist := Logged(s, s.hist.doors.(closing := s.hist.doors.closing + n)))
    case OfDay => s.(events := s.events.(day := s.events.day + n))
  }

  function AfterPosts(d: DirectorState, b: Batch): DirectorState {
    match b
    case OfOpen => d.(pc := CloseCheck)
    case OfClose => d.(pc := Boundary)
    case OfDay => d.(pc := CheckNewUsers, minutes := 0)
  }

  lemma PostsOne(c: Config, step: Relation, s: State, b: Batch, n: nat) returns (path: Path)
    requires Follows(c, step) && Quiet(s) && s.director.pc == Posting(b, n) && n > 0
    ensures Leads(step, s, path, At(Given(s, b, 1), Posting(b, n - 1)))
  {
    NothingCommitted(s, TheDirector);
    assert s.queue - multiset{} + multiset{} == s.queue;
    path := Once(c, step, s, DirectorStep(Poster(b)));
  }

  lemma PostsNone(c: Config, step: Relation, s: State, b: Batch) returns (path: Path)
    requires Follows(c, step) && Quiet(s) && s.director.pc == Posting(b, 0)
    ensures Leads(step, s, path, Given(s, b, 0).(director := AfterPosts(s.director, b)))
  {
    path := Alone(c, step, s, Poster(b));
  }

  lemma GivenAdds(s: State, b: Batch, n: nat)
    requires n > 0
    ensures var t := At(Given(s, b, 1), Posting(b, n - 1));
            && (Quiet(s) ==> Quiet(t))
            && t.director.pc == Posting(b, n - 1)
            && Given(t, b, n - 1).(director := AfterPosts(t.director, b))
                == Given(s, b, n).(director := AfterPosts(s.director, b))
  {
  }

  lemma {:induction false} Posts(c: Config, step: Relation, s: State, b: Batch, n: nat) returns (path: Path)
    requires Follows(c, step) && Quiet(s) && s.director.pc == Posting(b, n)
    ensures Leads(step, s, path, Given(s, b, n).(director := AfterPosts(s.director, b)))
    decreases n
  {
    if n == 0 {
      path := PostsNone(c, step, s, b);
    } else {
      GivenAdds(s, b, n);
      var t := At(Given(s, b, 1), Posting(b, n - 1));
      var first := PostsOne(c, step, s, b, n);
      path := Posts(c, step, t, b, n - 1);
      path := Then(c, step, s, first, t, path, Given(s, b, n).(director := AfterPosts(s.director, b)));
    }
  }

  predicate Strikes(hour: nat, d: DirectorState) {
    d.minutes == hour * 60 && d.minutes != 0
  }

  lemma NoOpening(c: Config, step: Relation, s: State) returns (path: Path)
    requires Follows(c, step) && Quiet(s) && s.director.pc == OpenCheck && !Strikes(c.shiftOpen, s.director)
    ensures Leads(step, s, path, At(s, CloseCheck))
  {
    path := Alone(c, step, s, XOpenCheck);
  }

  lemma NoClosing(c: Config, step: Relation, s: State) returns (path: Path)
    requires Follows(c, step) && Quiet(s) && s.director.pc == CloseCheck && !Strikes(c.shiftClose, s.director)
    ensures Leads(step, s, path, At(s, Boundary))
  {
    path := Alone(c, step, s, XCloseCheck);
  }

  lemma StartsOpening(c: Config, step: Relation, s: State) returns (path: Path)
    requires Follows(c, step) && Quiet(s) && s.director.pc == OpenCheck && Strikes(c.shiftOpen, s.director)
    ensures Leads(step, s, path, At(s, PostOpen(Crowd(s))))
  {
    path := Alone(c, step, s, XOpenCheck);
  }

  lemma StartsClosing(c: Config, step: Relation, s: State) returns (path: Path)
    requires Follows(c, step) && Quiet(s) && s.director.pc == CloseCheck && Strikes(c.shiftClose, s.director)
    ensures Leads(step, s, path, At(s, PostClose(|s.operators|)))
  {
    path := Alone(c, step, s, XCloseCheck);
  }

  lemma Opening(c: Config, step: Relation, s: State) returns (path: Path)
    requires Follows(c, step) && Quiet(s) && s.director.pc == OpenCheck && Strikes(c.shiftOpen, s.director)
    ensures Leads(step, s, path, At(Given(s, OfOpen, Crowd(s)), CloseCheck))
  {
    var n := Crowd(s);
    var t := At(s, PostOpen(n));
    var first := StartsOpening(c, step, s);
    path := Posts(c, step, t, OfOpen, n);
    path := Then(c, step, s, first, t, path, At(Given(s, OfOpen, n), CloseCheck));
  }

  lemma Closing(c: Config, step: Relation, s: State) returns (path: Path)
    requires Follows(c, step) && Quiet(s) && s.director.pc == CloseCheck && Strikes(c.shiftClose, s.director)
    ensures Leads(step, s, path,
                  At(Given(s, OfClose, |s.operators|), Boundary))
  {
    var n := |s.operators|;
    var t := At(s, PostClose(n));
    var first := StartsClosing(c, step, s);
    path := Posts(c, step, t, OfClose, n);
    path := Then(c, step, s, first, t, path, At(Given(s, OfClose, n), Boundary));
  }

  /** An hourless tick up to the day boundary check. */
  lemma QuietHours(c: Config, step: Relation, s: State) returns (path: Path)
    requires Follows(c, step) && Quiet(s) && s.director.pc == LoopHead && s.director.days < c.simDuration
    requires !Strikes(c.shiftOpen, s.director) && !Strikes(c.shiftClose, s.director)
    ensures Leads(step, s, path, At(s, Boundary))
  {
    path := Alone(c, step, s, XLoop);
    var more := NoOpening(c, step, At(s, OpenCheck));
    path := Then(c, step, s, path, At(s, OpenCheck), more, At(s, CloseCheck));
    more := NoClosing(c, step, At(s, CloseCheck));
    path := Then(c, step, s, path, At(s, CloseCheck), more, At(s, Boundary));
  }

  function DoorsTold(s: State): State {
    At(Given(Given(s, OfOpen, Crowd(s)), OfClose, |s.operators|), Boundary)
  }

  /** The tick at which doors open and close. */
  lemma BusyHour(c: Config, step: Relation, s: State) returns (path: Path)
    requires Follows(c, step) && Quiet(s) && s.director.pc == LoopHead && s.director.days < c.simDuration
    requires Strikes(c.shiftOpen, s.director) && Strikes(c.shiftClose, s.director)
    ensures Leads(step, s, path, DoorsTold(s))
  {
    path := Alone(c, step, s, XLoop);
    var more := Opening(c, step, At(s, OpenCheck));
    var t := At(Given(s, OfOpen, Crowd(s)), CloseCheck);
    path := Then(c, step, s, path, At(s, OpenCheck), more, t);
    more := Closing(c, step, t);
    path := Then(c, step, s, path, t, more, DoorsTold(s));
  }

  /** Nobody arrives, and the clock is set. */
  function TickDone(s: State, record: Shared<Stats, StatWrite>): State {
    var d := s.director;
    s.(stats := record, director := DirectorState(LoopHead, d.minutes + 1, d.days, d.ticks + 1),
       hist := Logged(s, s.hist.doors.(people := s.hist.doors.people + [|s.users|])))
  }

  /** In the statistics only the clock has moved on, by the tick that ends. */
  predicate ClockMoved(s: State, record: Shared<Stats, StatWrite>) {
    var d := s.director;
    record.mem == s.stats.mem.(clock := s.stats.mem.clock.(minute := d.minutes + 1, tick := d.ticks + 1))
  }

  lemma ClockEntered(c: Config, step: Relation, s: State) returns (path: Path, t: State)
    requires Follows(c, step) && Quiet(s) && s.director.pc == Advance
    ensures var todo := ClockWrites(s.director.minutes + 1, s.director.ticks + 1);
            t == TickDone(s, SharedRecord.Enter(ApplyStat, s.stats, TheDirector, todo))
    ensures Leads(step, s, path, t)
  {
    path := Once(c, step, s, DirectorStep(XAdvance));
    var todo := ClockWrites(s.director.minutes + 1, s.director.ticks + 1);
    t := TickDone(s, SharedRecord.Enter(ApplyStat, s.stats, TheDirector, todo));
    assert s.queue - multiset{} + multiset{} == s.queue;
    assert t == Apply(c, s, DirectorStep(XAdvance));
  }

  lemma SetsClock(c: Config, step: Relation, s: State) returns (path: Path, record: Shared<Stats, StatWrite>)
    requires Follows(c, step) && Quiet(s) && s.director.pc == Advance
    ensures Leads(step, s, path, TickDone(s, record)) && Quiet(TickDone(s, record)) && ClockMoved(s, record)
  {
    QuietIsConsistent(s);
    var d := s.director;
    var t, more, s';
    path, t := ClockEntered(c, step, s);
    EnterIsAtomic(ApplyStat, s.stats, TheDirector, ClockWrites(d.minutes + 1, d.ticks + 1));
    RunShort(s.stats.mem, 0, d.minutes + 1, d.ticks + 1);
    more, s' := StatSectionEnds(c, step, t, TheDirector);
    record := s'.stats;
    path := Then(c, step, s, path, t, more, s');
  }

  lemma NobodyComes(c: Config, step: Relation, s: State) returns (path: Path)
    requires Follows(c, step) && Quiet(s) && s.director.pc == CheckNewUsers
    requires PidsDistinct(s.users.Keys, s.operators.Keys)
    ensures Leads(step, s, path, At(s, Advance))
  {
    assert DirectorUsers(s, XNewUsers({})) == s.users && s.users.Keys + {} == s.users.Keys;
    path := Alone(c, step, s, XNewUsers({}));
  }

  lemma EndsTick(c: Config, step: Relation, s: State) returns (path: Path, record: Shared<Stats, StatWrite>)
    requires Follows(c, step) && Quiet(s) && s.director.pc == CheckNewUsers
    requires PidsDistinct(s.users.Keys, s.operators.Keys)
    ensures Leads(step, s, path, TickDone(s, record)) && Quiet(TickDone(s, record)) && ClockMoved(s, record)
  {
    path := NobodyComes(c, step, s);
    var more;
    more, record := SetsClock(c, step, At(s, Advance));
    path := Then(c, step, s, path, At(s, Advance), more, TickDone(s, record));
  }

  lemma NoNewDay(c: Config, step: Relation, s: State) returns (path: Path)
    requires Follows(c, step) && Quiet(s) && s.director.pc == Boundary && s.director.minutes % MINUTES_A_DAY != 0
    ensures Leads(step, s, path, At(s, CheckNewUsers))
  {
    path := Alone(c, step, s, XBoundary);
  }

  /** A tick in which nothing happens. */
  lemma IdleTick(c: Config, step: Relation, s: State) returns (path: Path, record: Shared<Stats, StatWrite>)
    requires Follows(c, step) && Quiet(s) && s.director.pc == LoopHead && s.director.days < c.simDuration
    requires !Strikes(c.shiftOpen, s.director) && !Strikes(c.shiftClose, s.director)
    requires s.director.minutes % MINUTES_A_DAY != 0 && PidsDistinct(s.users.Keys, s.operators.Keys)
    ensures Leads(step, s, path, TickDone(s, record)) && Quiet(TickDone(s, record)) && ClockMoved(s, record)
  {
    path := QuietHours(c, step, s);
    var more := NoNewDay(c, step, At(s, Boundary));
    path := Then(c, step, s, path, At(s, Boundary), more, At(s, CheckNewUsers));
    more, record := EndsTick(c, step, At(s, CheckNewUsers));
    path := Then(c, step, s, path, At(s, CheckNewUsers), more, TickDone(s, record));
  }

  function Later(s: State, n: nat, record: Shared<Stats, StatWrite>, log: History): State {
    var d := s.director;
    s.(stats := record, hist := log, director := DirectorState(LoopHead, d.minutes + n, d.days, d.ticks + n))
  }

  /** No hour strikes and no day ends at this minute. */
  predicate IdleMinute(c: Config, t: nat) {
    t != c.shiftOpen * 60 && t != c.shiftClose * 60 && t % MINUTES_A_DAY != 0
  }

  /** The director alone, while nothing is due. */
  lemma {:induction false} IdleTicks(c: Config, step: Relation, s: State, n: nat)
    returns (path: Path, record: Shared<Stats, StatWrite>, log: History)
    requires Follows(c, step) && Quiet(s) && s.director.pc == LoopHead && s.director.days < c.simDuration
    requires forall t | s.director.minutes <= t < s.director.minutes + n :: IdleMinute(c, t)
    requires PidsDistinct(s.users.Keys, s.operators.Keys)
    ensures Leads(step, s, path, Later(s, n, record, log)) && Quiet(Later(s, n, record, log))
    ensures record.mem.counts == s.stats.mem.counts
    decreases n
  {
    if n == 0 {
      path, record, log := [], s.stats, s.hist;
      assert Later(s, 0, record, log) == s;
    } else {
      assert IdleMinute(c, s.director.minutes);
      path, record := IdleTick(c, step, s);
      var t := TickDone(s, record);
      var more, stats', hist' := IdleTicks(c, step, t, n - 1);
      assert Later(t, n - 1, stats', hist') == Later(s, n, stats', hist');
      path := Then(c, step, s, path, t, more, Later(s, n, stats', hist'));
      record, log := stats', hist';
    }
  }

  /** The tick at which doors open and close, the rest of it included. */
  lemma BusyTick(c: Config, step: Relation, s: State) returns (path: Path, record: Shared<Stats, StatWrite>)
    requires Follows(c, step) && Quiet(s) && s.director.pc == LoopHead && s.director.days < c.simDuration
    requires Strikes(c.shiftOpen, s.director) && Strikes(c.shiftClose, s.director)
    requires s.director.minutes % MINUTES_A_DAY != 0 && PidsDistinct(s.users.Keys, s.operators.Keys)
    ensures Leads(step, s, path, TickDone(DoorsTold(s), record)) && Quiet(TickDone(DoorsTold(s), record))
    ensures ClockMoved(s, record)
  {
    path := BusyHour(c, step, s);
    var t := DoorsTold(s);
    var more := NoNewDay(c, step, t);
    path := Then(c, step, s, path, t, more, At(t, CheckNewUsers));
    more, record := EndsTick(c, step, At(t, CheckNewUsers));
    path := Then(c, step, s, path, At(t, CheckNewUsers), more, TickDone(t, record));
  }

  // ---------- the first tick ----------

  lemma DayBegins(c: Config, step: Relation, s: State) returns (path: Path)
    requires Follows(c, step) && Quiet(s) && s.director.pc == Boundary && s.director.minutes % MINUTES_A_DAY == 0
    requires s.stats.mem.counts.lateToday <= c.explodeMax
    ensures Leads(step, s, path, s.(director := s.director.(pc := ResetStats, days := s.director.days + 1)))
  {
    path := Alone(c, step, s, XBoundary);
  }

  lemma StatsResetEntered(c: Config, step: Relation, s: State) returns (path: Path, log: History, t: State)
    requires Follows(c, step) && Quiet(s) && s.director.pc == ResetStats
    ensures t == At(s, ResetSeats).(hist := log,
                   stats := SharedRecord.Enter(ApplyStat, s.stats, TheDirector, NewDayWrites(s.director.days)))
    ensures Leads(step, s, path, t)
  {
    var todo := NewDayWrites(s.director.days);
    log := s.hist.(past := s.hist.past + [ThisDay(s.stats.view)]);
    path := Once(c, step, s, DirectorStep(XResetStats));
    t := At(s, ResetSeats).(stats := SharedRecord.Enter(ApplyStat, s.stats, TheDirector, todo), hist := log);
    assert s.queue - multiset{} + multiset{} == s.queue;
    assert t == Apply(c, s, DirectorStep(XResetStats));
  }

  lemma StatsReset(c: Config, step: Relation, s: State)
    returns (path: Path, record: Shared<Stats, StatWrite>, log: History)
    requires Follows(c, step) && Quiet(s) && s.director.pc == ResetStats
    ensures Leads(step, s, path, At(s, ResetSeats).(stats := record, hist := log))
    ensures Quiet(At(s, ResetSeats).(stats := record, hist := log)) && record.mem.counts.lateToday == 0
  {
    QuietIsConsistent(s);
    var t, more, s';
    path, log, t := StatsResetEntered(c, step, s);
    EnterIsAtomic(ApplyStat, s.stats, TheDirector, NewDayWrites(s.director.days));
    RunShort(s.stats.mem, s.director.days, 0, 0);
    more, s' := StatSectionEnds(c, step, t, TheDirector);
    record := s'.stats;
    path := Then(c, step, s, path, t, more, s');
  }

  function SeatsOf(services: seq<int>): Shared<seq<Seat>, SeatWrite> {
    Shared(Cleared(services), Cleared(services), 1, map[])
  }

  function BeingReset(s: State, services: seq<int>, log: History): State {
    At(s, ResetDone).(
      seats := SharedRecord.Enter(ApplySeat, s.seats, TheDirector, ResetWrites(services, 0)), hist := log)
  }

  lemma ResetEntered(c: Config, step: Relation, s: State, services: seq<int>) returns (path: Path, log: History)
    requires Follows(c, step) && Quiet(s) && s.director.pc == ResetSeats
    requires |services| == c.numSeats && forall i | 0 <= i < |services| :: IsService(services[i])
    ensures Leads(step, s, path, BeingReset(s, services, log))
  {
    var xa := XResetSeats(services);
    log := DirectorEffect(s, xa).hist;
    path := Once(c, step, s, DirectorStep(xa));
    assert s.queue - multiset{} + multiset{} == s.queue;
    assert BeingReset(s, services, log) == Apply(c, s, DirectorStep(xa));
  }

  lemma ResetView(s: State, services: seq<int>, log: History)
    requires Quiet(s) && |services| == |s.seats.mem|
    ensures Consistent(ApplySeat, BeingReset(s, services, log).seats)
    ensures BeingReset(s, services, log).seats.view == Cleared(services)
  {
    QuietIsConsistent(s);
    EnterIsAtomic(ApplySeat, s.seats, TheDirector, ResetWrites(services, 0));
    RunReset(s.seats.mem, services, 0);
  }

  lemma SeatsReset(c: Config, step: Relation, s: State, services: seq<int>) returns (path: Path, log: History)
    requires Follows(c, step) && Quiet(s) && s.director.pc == ResetSeats
    requires |services| == c.numSeats == |s.seats.mem| && forall i | 0 <= i < |services| :: IsService(services[i])
    ensures Leads(step, s, path, At(s, ResetDone).(seats := SeatsOf(services), hist := log))
  {
    path, log := ResetEntered(c, step, s, services);
    ResetView(s, services, log);
    var more, s' := SectionEnds(c, step, BeingReset(s, services, log), TheDirector);
    path := Then(c, step, s, path, BeingReset(s, services, log), more, s');
  }

  lemma PostingBegins(c: Config, step: Relation, s: State) returns (path: Path, log: History)
    requires Follows(c, step) && Quiet(s) && s.director.pc == ResetDone
    ensures Leads(step, s, path, At(s, PostDay(Crowd(s))).(hist := log))
  {
    log := s.hist.(crowds := s.hist.crowds + [Crowd(s)]);
    path := Once(c, step, s, DirectorStep(XResetDone));
    assert s.queue - multiset{} + multiset{} == s.queue;
    assert At(s, PostDay(Crowd(s))).(hist := log) == Apply(c, s, DirectorStep(XResetDone));
  }

  lemma DayPosted(c: Config, step: Relation, s: State) returns (path: Path, log: History)
    requires Follows(c, step) && Quiet(s) && s.director.pc == ResetDone
    ensures Leads(step, s, path, s.(director := s.director.(pc := CheckNewUsers, minutes := 0), hist := log,
                                    events := s.events.(day := s.events.day + Crowd(s))))
  {
    var n := Crowd(s);
    path, log := PostingBegins(c, step, s);
    var t := At(s, PostDay(n)).(hist := log);
    var more := Posts(c, step, t, OfDay, n);
    path := Then(c, step, s, path, t, more,
                 s.(director := s.director.(pc := CheckNewUsers, minutes := 0), hist := log,
                    events := s.events.(day := s.events.day + n)));
  }

  /** The whole reset of the first day: a day token for everybody, and the seats get their services. */
  lemma DayStarts(c: Config, step: Relation, s: State, services: seq<int>) returns (path: Path, s': State)
    requires Follows(c, step) && Quiet(s) && s.director.pc == ResetStats
    requires |services| == c.numSeats == |s.seats.mem| && forall i | 0 <= i < |services| :: IsService(services[i])
    ensures Leads(step, s, path, s') && Quiet(s') && s'.stats.mem.counts.lateToday == 0
    ensures s' == s.(stats := s'.stats, hist := s'.hist, seats := SeatsOf(services),
                     director := s.director.(pc := CheckNewUsers, minutes := 0),
                     events := s.events.(day := s.events.day + Crowd(s)))
  {
    var record, log;
    path, record, log := StatsReset(c, step, s);
    var t := At(s, ResetSeats).(stats := record, hist := log);
    var more, hist1 := SeatsReset(c, step, t, services);
    var t1 := At(t, ResetDone).(seats := SeatsOf(services), hist := hist1);
    path := Then(c, step, s, path, t, more, t1);
    var last, hist2 := DayPosted(c, step, t1);
    s' := t1.(director := t1.director.(pc := CheckNewUsers, minutes := 0), hist := hist2,
              events := t1.events.(day := t1.events.day + Crowd(t1)));
    path := Then(c, step, s, path, t1, last, s');
  }

  /** The first tick: from the start to LoopHead with one day begun. */
  lemma FirstTick(c: Config, step: Relation, s: State, services: seq<int>) returns (path: Path, s': State)
    requires Follows(c, step) && Quiet(s) && s.director == DirectorState(LoopHead, 0, 0, 0) && c.simDuration > 0
    requires s.stats.mem.counts.lateToday <= c.explodeMax && PidsDistinct(s.users.Keys, s.operators.Keys)
    requires |services| == c.numSeats == |s.seats.mem| && forall i | 0 <= i < |services| :: IsService(services[i])
    ensures Leads(step, s, path, s') && Quiet(s') && s'.stats.mem.counts.lateToday == 0
    ensures s' == s.(stats := s'.stats, hist := s'.hist, seats := SeatsOf(services),
                     director := DirectorState(LoopHead, 1, 1, 1),
                     events := s.events.(day := s.events.day + Crowd(s)))
  {
    path := QuietHours(c, step, s);
    var t := At(s, Boundary);
    var more := DayBegins(c, step, t);
    var t1 := t.(director := t.director.(pc := ResetStats, days := 1));
    path := Then(c, step, s, path, t, more, t1);
    var t2;
    more, t2 := DayStarts(c, step, t1, services);
    path := Then(c, step, s, path, t1, more, t2);
    var record;
    more, record := EndsTick(c, step, t2);
    s' := TickDone(t2, record);
    path := Then(c, step, s, path, t2, more, s');
  }

  /** Sixty-one ticks after the start: day, opening and closing tokens are posted, and nobody has moved. */
  lemma DoorsOpen(c: Config, step: Relation, s: State, services: seq<int>) returns (path: Path, s': State)
    requires Follows(c, step) && Quiet(s) && s.director == DirectorState(LoopHead, 0, 0, 0) && c.simDuration > 1
    requires c.shiftOpen == c.shiftClose == 1
    requires s.stats.mem.counts.lateToday <= c.explodeMax && PidsDistinct(s.users.Keys, s.operators.Keys)
    requires |services| == c.numSeats == |s.seats.mem| && forall i | 0 <= i < |services| :: IsService(services[i])
    ensures Leads(step, s, path, s') && Quiet(s') && s'.stats.mem.counts.lateToday == 0
    ensures s' == s.(stats := s'.stats, hist := s'.hist, seats := SeatsOf(services), director := s'.director,
                     events := s.events.(day := s.events.day + Crowd(s), open := s.events.open + Crowd(s),
                                         close := s.events.close + |s.operators|))
    ensures s'.director == DirectorState(LoopHead, 61, 1, 61) && s'.stats.mem.clock.minute == 61
  {
    var t, more, record, log;
    path, t := FirstTick(c, step, s, services);
    more, record, log := IdleTicks(c, step, t, 59);
    var t1 := Later(t, 59, record, log);
    path := Then(c, step, s, path, t, more, t1);
    more, record := BusyTick(c, step, t1);
    s' := TickDone(DoorsTold(t1), record);
    path := Then(c, step, s, path, t1, more, s');
  }

  // ---------- the end of a day ----------

  /** A day boundary at which not too many were late, up to the reset of the seats. */
  function Dusk(s: State, record: Shared<Stats, StatWrite>, log: History): State {
    s.(stats := record, hist := log, director := s.director.(pc := ResetSeats, days := s.director.days + 1))
  }

  lemma DayEnds(c: Config, step: Relation, s: State)
    returns (path: Path, record: Shared<Stats, StatWrite>, log: History)
    requires Follows(c, step) && Quiet(s) && s.director.pc == LoopHead && s.director.days < c.simDuration
    requires !Strikes(c.shiftOpen, s.director) && !Strikes(c.shiftClose, s.director)
    requires s.director.minutes % MINUTES_A_DAY == 0 && s.stats.mem.counts.lateToday <= c.explodeMax
    ensures Leads(step, s, path, Dusk(s, record, log)) && Quiet(Dusk(s, record, log))
    ensures record.mem.counts.lateToday == 0
  {
    path := QuietHours(c, step, s);
    var t := At(s, Boundary);
    var more := DayBegins(c, step, t);
    var t1 := t.(director := t.director.(pc := ResetStats, days := t.director.days + 1));
    path := Then(c, step, s, path, t, more, t1);
    more, record, log := StatsReset(c, step, t1);
    path := Then(c, step, s, path, t1, more, Dusk(s, record, log));
  }

  /** Doors open at one o'clock; they close at once or not at all. */
  predicate NothingAfterOne(c: Config) {
    c.shiftOpen == 1 && (c.shiftClose == 1 || c.shiftClose > 24)
  }

  /** From minute 61 to the reset of the seats at the end of the day. */
  lemma RestOfDay(c: Config, step: Relation, s: State)
    returns (path: Path, s': State)
    requires Follows(c, step) && Quiet(s) && s.director.pc == LoopHead && s.director.days < c.simDuration
    requires s.director.minutes == 61 && NothingAfterOne(c)
    requires s.stats.mem.counts.lateToday <= c.explodeMax && PidsDistinct(s.users.Keys, s.operators.Keys)
    ensures Leads(step, s, path, s') && Quiet(s') && s'.stats.mem.counts.lateToday == 0
    ensures s' == s.(stats := s'.stats, hist := s'.hist, director := s'.director)
    ensures s'.director.pc == ResetSeats && s'.director.days == s.director.days + 1
  {
    var record, log, more;
    path, record, log := IdleTicks(c, step, s, MINUTES_A_DAY - 61);
    var t := Later(s, MINUTES_A_DAY - 61, record, log);
    more, record, log := DayEnds(c, step, t);
    s' := Dusk(t, record, log);
    path := Then(c, step, s, path, t, more, s');
  }

  /** The tick at which doors open and do not close. */
  lemma OpeningTick(c: Config, step: Relation, s: State) returns (path: Path, record: Shared<Stats, StatWrite>)
    requires Follows(c, step) && Quiet(s) && s.director.pc == LoopHead && s.director.days < c.simDuration
    requires Strikes(c.shiftOpen, s.director) && !Strikes(c.shiftClose, s.director)
    requires s.director.minutes % MINUTES_A_DAY != 0 && PidsDistinct(s.users.Keys, s.operators.Keys)
    ensures var t := Given(s, OfOpen, Crowd(s));
            Leads(step, s, path, TickDone(t, record)) && Quiet(TickDone(t, record))
    ensures ClockMoved(s, record)
  {
    var t := Given(s, OfOpen, Crowd(s));
    path := OpeningHour(c, step, s);
    var more := NoNewDay(c, step, At(t, Boundary));
    path := Then(c, step, s, path, At(t, Boundary), more, At(t, CheckNewUsers));
    more, record := EndsTick(c, step, At(t, CheckNewUsers));
    path := Then(c, step, s, path, At(t, CheckNewUsers), more, TickDone(t, record));
  }

  lemma OpeningHour(c: Config, step: Relation, s: State) returns (path: Path)
    requires Follows(c, step) && Quiet(s) && s.director.pc == LoopHead && s.director.days < c.simDuration
    requires Strikes(c.shiftOpen, s.director) && !Strikes(c.shiftClose, s.director)
    ensures Leads(step, s, path, At(Given(s, OfOpen, Crowd(s)), Boundary))
  {
    path := Alone(c, step, s, XLoop);
    var t := At(Given(s, OfOpen, Crowd(s)), CloseCheck);
    var more := Opening(c, step, At(s, OpenCheck));
    path := Then(c, step, s, path, At(s, OpenCheck), more, t);
    more := NoClosing(c, step, t);
    path := Then(c, step, s, path, t, more, At(t, Boundary));
  }

  /** As DoorsOpen, for doors that open at one o'clock and never close. */
  lemma DoorsStayOpen(c: Config, step: Relation, s: State, services: seq<int>) returns (path: Path, s': State)
    requires Follows(c, step) && Quiet(s) && s.director == DirectorState(LoopHead, 0, 0, 0) && c.simDuration > 1
    requires c.shiftOpen == 1 && c.shiftClose > 24
    requires s.stats.mem.counts.lateToday <= c.explodeMax && PidsDistinct(s.users.Keys, s.operators.Keys)
    requires |services| == c.numSeats == |s.seats.mem| && forall i | 0 <= i < |services| :: IsService(services[i])
    ensures Leads(step, s, path, s') && Quiet(s') && s'.stats.mem.counts.lateToday == 0
    ensures s' == s.(stats := s'.stats, hist := s'.hist, seats := SeatsOf(services), director := s'.director,
                     events := s.events.(day := s.events.day + Crowd(s), open := s.events.open + Crowd(s)))
    ensures s'.director == DirectorState(LoopHead, 61, 1, 61) && s'.stats.mem.clock.minute == 61
  {
    var t, more, record, log;
    path, t := FirstTick(c, step, s, services);
    more, record, log := IdleTicks(c, step, t, 59);
    var t1 := Later(t, 59, record, log);
    path := Then(c, step, s, path, t, more, t1);
    more, record := OpeningTick(c, step, t1);
    s' := TickDone(Given(t1, OfOpen, Crowd(t1)), record);
    path := Then(c, step, s, path, t1, more, s');
  }
}
