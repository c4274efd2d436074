/**
 What a day reset does to those it overtakes, and what happens between the last
 iteration of the director's loop and its report: runs that go on from any state of a
 run of the kind described, and runs from the start of the programs.
 */
module Overtaken {
  import opened Settings
  import opened SharedRecord
  import opened Statistics
  import opened Seats
  import opened Protocol
  import opened Locks
  import opened Sessions
  import opened Stations
  import opened Places
  import opened Agreement
  import opened Runs
  import opened Exclusivity
  import opened Paths
  import opened Race
  import opened Solo
  import opened Witness

  lemma FreeIsQuiet(c: Config, s: State)
    requires Reachable(c, s) && Running(s) && s.stats.sem > 0 && s.seats.sem > 0
    ensures Quiet(s)
  {
    ReachableInv(c, s);
    assert s.stats.inside.Keys == {} && s.seats.inside.Keys == {};
  }

  // ---------- two operators ----------

  /** Draws that give seat i the service k and every other seat another service. */
  function Drawing(n: nat, i: int, k: int): (services: seq<int>)
    requires IsService(k)
    ensures |services| == n && forall j | 0 <= j < n :: IsService(services[j]) && (services[j] == k <==> j == i)
  {
    seq(n, j => if j == i then k else (k + 1) % SERVICES)
  }

  lemma DrawnIsFound(n: nat, i: int, k: int)
    requires 0 <= i < n && IsService(k)
    ensures FindSeat(Cleared(Drawing(n, i, k)), k) == i
  {
    assert Vacant(Cleared(Drawing(n, i, k)), i, k);
  }

  /** The seats are reset, and q finds seat i free for it. */
  lemma ResetThenSearch(c: Config, step: Relation, s: State, q: int, i: int) returns (path: Path, s': State)
    requires Follows(c, step) && Quiet(s) && s.director.pc == ResetSeats && 0 <= i < c.numSeats == |s.seats.mem|
    requires q in s.operators && s.operators[q].pc == FirstSearch && IsService(s.operators[q].service)
    ensures Leads(step, s, path, s')
    ensures q in s'.operators && s'.operators == s.operators[q := s'.operators[q]]
    ensures AtSeat(s'.operators[q]) && s'.operators[q].seat == i
  {
    var k := s.operators[q].service;
    var services := Drawing(c.numSeats, i, k);
    DrawnIsFound(c.numSeats, i, k);
    var log;
    path, log := SeatsReset(c, step, s, services);
    var t := At(s, ResetDone).(seats := SeatsOf(services), hist := log);
    var more := TakesSeat(c, step, t, q, i);
    s' := Seated(t, q, i, true);
    path := Then(c, step, s, path, t, more, s');
  }

  /**
   The director is about to reset the seats while p is still at its seat, and q is about
   to make its first search: from every such state of a run, the run can go on so that q
   finds p's seat under the lock and both hold it.
   */
  lemma ResetLosesExclusivity(c: Config, s: State, p: int, q: int) returns (s': State)
    requires Reachable(c, s) && s.stats.sem > 0 && s.seats.sem > 0 && s.director.pc == ResetSeats
    requires p in s.operators && q in s.operators && p != q
    requires AtSeat(s.operators[p]) && s.operators[q].pc == FirstSearch
    ensures Reachable(c, s') && !OneEach(s'.operators)
    ensures p in s'.operators && q in s'.operators && AtSeat(s'.operators[p]) && AtSeat(s'.operators[q])
    ensures s'.operators[p].seat == s.operators[p].seat == s'.operators[q].seat
  {
    StepsFollow(c);
    FreeIsQuiet(c, s);
    SeatInRange(c, s, p, q);
    var path;
    path, s' := ResetUnder(c, StepOf(c), s, p, q);
    ReachableOn(c, s, path, s');
  }

  lemma ResetUnder(c: Config, step: Relation, s: State, p: int, q: int) returns (path: Path, s': State)
    requires Follows(c, step) && Quiet(s) && s.director.pc == ResetSeats && p in s.operators && q in s.operators
    requires p != q && AtSeat(s.operators[p]) && s.operators[q].pc == FirstSearch && IsService(s.operators[q].service)
    requires 0 <= s.operators[p].seat < c.numSeats == |s.seats.mem|
    ensures Leads(step, s, path, s') && p in s'.operators && q in s'.operators && !OneEach(s'.operators)
    ensures AtSeat(s'.operators[p]) && AtSeat(s'.operators[q])
    ensures s'.operators[p].seat == s.operators[p].seat == s'.operators[q].seat
  {
    path, s' := ResetThenSearch(c, step, s, q, s.operators[p].seat);
    assert s'.operators[p] == s.operators[p];
  }

  lemma SeatInRange(c: Config, s: State, p: int, q: int)
    requires Reachable(c, s) && p in s.operators && AtSeat(s.operators[p]) && q in s.operators
    ensures 0 <= s.operators[p].seat < c.numSeats == |s.seats.mem| && IsService(s.operators[q].service)
  {
    ReachableInv(c, s);
    assert SeatKnown(c, s.operators[p]) && OperatorFits(s.users, q, s.operators[q]);
  }

  /** 101 works on past the end of its day, and 102, who came in on that day, searches after the reset. */
  lemma OvertakenAtWork() returns (s: State)
    ensures Init(OneSeat(), Start()) && Reachable(OneSeat(), s) && !OneEach(s.operators)
    ensures 101 in s.operators && AtSeat(s.operators[101]) && s.operators[101].seat == 0
    ensures 102 in s.operators && AtSeat(s.operators[102]) && s.operators[102].seat == 0
  {
    var t := AtWorkAtDusk();
    StartIsInitial(OneSeat());
    s := ResetLosesExclusivity(OneSeat(), t, 101, 102);
  }

  lemma AtWorkAtDusk() returns (s: State)
    ensures Reachable(OneSeat(), s) && Quiet(s) && s.director.pc == ResetSeats
    ensures 101 in s.operators && AtSeat(s.operators[101]) && s.operators[101].seat == 0
    ensures 102 in s.operators && s.operators[102].pc == FirstSearch
  {
    var c, step, s0 := OneSeat(), StepOf(OneSeat()), Start();
    StepsFollow(c);
    StartIsInitial(OneSeat());
    FourOperators();
    var path, t := DoorsOpen(c, step, s0, [0]);
    var more, t1 := StartsWork(c, step, t, 101);
    path := Then(c, step, s0, path, t, more, t1);
    var t2;
    more, t2 := Arrives(c, step, t1, 102);
    path := Then(c, step, s0, path, t1, more, t2);
    more, s := RestOfDay(c, step, t2);
    path := Then(c, step, s0, path, t2, more, s);
    InitialIsReachable(c, s0);
    ReachableOn(c, s0, path, s);
  }

  // ---------- two users ----------

  lemma TriesFirst(c: Config, step: Relation, s: State, w: int, i: int) returns (path: Path, s': State)
    requires Follows(c, step) && Quiet(s) && w in s.users && s.users[w].pc == TrySeat
    requires |s.users[w].visit.valid| > 0 && s.users[w].visit.valid[0] == i && Offered(s.seats.mem, i)
    ensures Leads(step, s, path, s')
    ensures w in s'.users && s'.users == s.users[w := s'.users[w]]
    ensures Sitting(s'.users[w]) && s'.users[w].visit.seat == i
  {
    path := Once(c, step, s, UserStep(w, UTrySeat));
    s' := Apply(c, s, UserStep(w, UTrySeat));
  }

  /**
   The director is about to reset the seats while user u sits, and w, who searched
   before, is about to try u's seat first: from every such state of a run, the run can
   go on so that both sit there.
   */
  lemma ResetSharesSeat(c: Config, s: State, u: int, w: int) returns (s': State)
    requires Reachable(c, s) && s.stats.sem > 0 && s.seats.sem > 0 && s.director.pc == ResetSeats
    requires u in s.users && w in s.users && u != w && Sitting(s.users[u])
    requires s.users[w].pc == TrySeat && |s.users[w].visit.valid| > 0
    requires s.users[w].visit.valid[0] == s.users[u].visit.seat
    ensures Reachable(c, s') && u in s'.users && w in s'.users
    ensures Sitting(s'.users[u]) && Sitting(s'.users[w])
    ensures s'.users[u].visit.seat == s.users[u].visit.seat == s'.users[w].visit.seat
  {
    var step := StepOf(c);
    StepsFollow(c);
    FreeIsQuiet(c, s);
    UserSeatInRange(c, s, u);
    var i := s.users[u].visit.seat;
    var services := Drawing(c.numSeats, i, 0);
    var path, log := SeatsReset(c, step, s, services);
    var t := At(s, ResetDone).(seats := SeatsOf(services), hist := log);
    var more;
    more, s' := TriesFirst(c, step, t, w, i);
    path := Then(c, step, s, path, t, more, s');
    ReachableOn(c, s, path, s');
  }

  lemma UserSeatInRange(c: Config, s: State, u: int)
    requires Reachable(c, s) && u in s.users && Sitting(s.users[u])
    ensures 0 <= s.users[u].visit.seat < c.numSeats == |s.seats.mem|
  {
    ReachableInv(c, s);
    assert SearchFits(c, s, s.users[u]);
  }

  // ---------- a late user after the last iteration ----------

  lemma IsLate(c: Config, step: Relation, s: State, u: int) returns (path: Path, s': State)
    requires Follows(c, step) && Quiet(s) && u in s.users && s.users[u].pc.BeLate? && !s.users[u].plan.wasLate
    ensures Leads(step, s, path, s') && Quiet(s') && s'.director == s.director
    ensures s'.stats.mem.counts.lateToday == s.stats.mem.counts.lateToday + 1
  {
    var k := Wanted(s.users[u]);
    var t;
    path, t := LateEntered(c, step, s, u);
    QuietIsConsistent(s);
    EnterIsAtomic(ApplyStat, s.stats, TheUser(u), LateWrites(k, false));
    RunLate(s.stats.mem, k, false);
    var more;
    more, s' := StatSectionEnds(c, step, t, TheUser(u));
    path := Then(c, step, s, path, t, more, s');
  }

  lemma LateEntered(c: Config, step: Relation, s: State, u: int) returns (path: Path, t: State)
    requires Follows(c, step) && Quiet(s) && u in s.users && s.users[u].pc.BeLate? && !s.users[u].plan.wasLate
    ensures Leads(step, s, path, t) && t.director == s.director && t.seats == s.seats
    ensures t.stats == SharedRecord.Enter(ApplyStat, s.stats, TheUser(u), LateWrites(Wanted(s.users[u]), false))
  {
    path := Once(c, step, s, UserStep(u, ULate));
    t := Apply(c, s, UserStep(u, ULate));
  }

  lemma Reports(c: Config, step: Relation, s: State) returns (path: Path, s': State)
    requires Follows(c, step) && Quiet(s) && s.director.pc == Killing(false)
    ensures Leads(step, s, path, s')
    ensures s'.director.pc == Reported(false, if s.stats.mem.counts.lateToday > c.explodeMax then Explode else Timeout)
  {
    path := Alone(c, step, s, XReport);
    s' := s.(director := DirectorNext(c, s, XReport));
  }

  /**
   The loop has ended in time, as many users were late as is allowed, and one more is
   about to count itself: from every such state of a run, the run can go on to a report
   that says "explode".
   */
  lemma ExplodesAfterTimeout(c: Config, s: State, u: int) returns (s': State)
    requires Reachable(c, s) && s.stats.sem > 0 && s.seats.sem > 0 && s.director.pc == Killing(false)
    requires u in s.users && s.users[u].pc.BeLate? && !s.users[u].plan.wasLate
    requires s.stats.mem.counts.lateToday == c.explodeMax
    ensures Reachable(c, s') && s'.director.pc == Reported(false, Explode)
  {
    var step := StepOf(c);
    StepsFollow(c);
    FreeIsQuiet(c, s);
    var path, t := IsLate(c, step, s, u);
    var more;
    more, s' := Reports(c, step, t);
    path := Then(c, step, s, path, t, more, s');
    ReachableOn(c, s, path, s');
  }

  // ---------- such a run, from the start ----------

  function Walking(s: State, u: int, x: UserState): State {
    s.(users := s.users[u := x])
  }

  lemma UserTakesDay(c: Config, step: Relation, s: State, u: int) returns (path: Path, log: History)
    requires Follows(c, step) && Quiet(s) && u in s.users && s.users[u].pc == WaitDay && s.events.day > 0
    ensures Leads(step, s, path, Walking(s, u, s.users[u].(pc := Starting)).(
                    events := s.events.(day := s.events.day - 1), hist := log))
  {
    log := s.hist.(userTokens := s.hist.userTokens + 1);
    path := Once(c, step, s, UserStep(u, UTakeDay));
    assert s.queue - multiset{} + multiset{} == s.queue;
    assert Apply(c, s, UserStep(u, UTakeDay))
        == Walking(s, u, s.users[u].(pc := Starting)).(events := s.events.(day := s.events.day - 1), hist := log);
  }

  lemma UserGoesOut(c: Config, step: Relation, s: State, u: int) returns (path: Path)
    requires Follows(c, step) && Quiet(s) && u in s.users && s.users[u].pc == Starting && c.maxRequests >= 1
    ensures Leads(step, s, path, Walking(s, u, s.users[u].(
                    pc := WaitOpen, plan := Plan([0], 0, WalkInTime(c, 1, 0), false))))
  {
    path := Once(c, step, s, UserStep(u, UGoOut([0], 0)));
    NothingCommitted(s, TheUser(u));
  }

  lemma UserEnters(c: Config, step: Relation, s: State, u: int) returns (path: Path, log: History)
    requires Follows(c, step) && Quiet(s) && u in s.users && s.users[u].pc == WaitOpen && s.events.open > 0
    ensures Leads(step, s, path, Walking(s, u, s.users[u].(pc := WaitWalkIn)).(
                    events := s.events.(open := s.events.open - 1), hist := log))
  {
    log := Logged(s, Entered(s));
    path := Once(c, step, s, UserStep(u, UEnterOffice));
    assert s.queue - multiset{} + multiset{} == s.queue;
    assert Apply(c, s, UserStep(u, UEnterOffice))
        == Walking(s, u, s.users[u].(pc := WaitWalkIn)).(events := s.events.(open := s.events.open - 1), hist := log);
  }

  /** It walks in when its time has come, and finds that closing time is past. */
  lemma UserSeesClosed(c: Config, step: Relation, s: State, u: int) returns (path: Path)
    requires Follows(c, step) && Quiet(s) && u in s.users && s.users[u].pc == WaitWalkIn
    requires s.stats.mem.clock.minute >= s.users[u].plan.walkIn && Closed(c, s)
    requires s.users[u].plan.next < |s.users[u].plan.list|
    ensures Leads(step, s, path, Walking(s, u, s.users[u].(pc := BeLate(AtHead))))
  {
    var t := Walking(s, u, s.users[u].(pc := Head));
    path := Once(c, step, s, UserStep(u, UWalkIn));
    NothingCommitted(s, TheUser(u));
    var more := Once(c, step, t, UserStep(u, USeeClosed));
    NothingCommitted(t, TheUser(u));
    assert t.users[u := s.users[u].(pc := BeLate(AtHead))] == s.users[u := s.users[u].(pc := BeLate(AtHead))];
    path := Then(c, step, s, path, t, more, Walking(s, u, s.users[u].(pc := BeLate(AtHead))));
  }

  /** The user goes out for one service, and enters when the doors have opened. */
  lemma ComesOut(c: Config, step: Relation, s: State, u: int) returns (path: Path, s': State)
    requires Follows(c, step) && Quiet(s) && u in s.users && s.users[u] == NewUser() && c.maxRequests >= 1
    requires s.events.day > 0 && s.events.open > 0
    ensures Leads(step, s, path, s') && Quiet(s') && u in s'.users
    ensures s' == Walking(s, u, s'.users[u]).(hist := s'.hist, events := s.events.(
                    day := s.events.day - 1, open := s.events.open - 1))
    ensures s'.users[u] == NewUser().(pc := WaitWalkIn, plan := Plan([0], 0, WalkInTime(c, 1, 0), false))
  {
    var x := s.users[u];
    var more, log, hist2;
    path, log := UserTakesDay(c, step, s, u);
    var t := Walking(s, u, x.(pc := Starting)).(events := s.events.(day := s.events.day - 1), hist := log);
    more := UserGoesOut(c, step, t, u);
    var y := x.(pc := WaitOpen, plan := Plan([0], 0, WalkInTime(c, 1, 0), false));
    var t1 := Walking(t, u, y);
    path := Then(c, step, s, path, t, more, t1);
    more, hist2 := UserEnters(c, step, t1, u);
    s' := Walking(t1, u, y.(pc := WaitWalkIn)).(events := t1.events.(open := t1.events.open - 1), hist := hist2);
    path := Then(c, step, s, path, t1, more, s');
  }

  /** It finds the doors closed when its time has come. */
  lemma ComesLate(c: Config, step: Relation, s: State, u: int) returns (path: Path, s': State)
    requires Follows(c, step) && Quiet(s) && u in s.users && s.users[u] == NewUser() && c.maxRequests >= 1
    requires s.events.day > 0 && s.events.open > 0 && Closed(c, s)
    requires s.stats.mem.clock.minute >= WalkInTime(c, 1, 0)
    ensures Leads(step, s, path, s') && Quiet(s')
    ensures s' == s.(users := s'.users, events := s'.events, hist := s'.hist) && s'.users.Keys == s.users.Keys
    ensures s'.users[u].pc == BeLate(AtHead) && !s'.users[u].plan.wasLate
  {
    var t;
    path, t := ComesOut(c, step, s, u);
    var more := UserSeesClosed(c, step, t, u);
    s' := Walking(t, u, t.users[u].(pc := BeLate(AtHead)));
    path := Then(c, step, s, path, t, more, s');
  }

  /** The second reset, the rest of its tick, and the end of the loop. */
  lemma LastTick(c: Config, step: Relation, s: State, services: seq<int>) returns (path: Path, s': State)
    requires Follows(c, step) && Quiet(s) && s.director.pc == ResetSeats && s.director.days == c.simDuration
    requires PidsDistinct(s.users.Keys, s.operators.Keys)
    requires |services| == c.numSeats == |s.seats.mem| && forall i | 0 <= i < |services| :: IsService(services[i])
    ensures Leads(step, s, path, s') && Quiet(s') && s'.director.pc == Killing(false)
    ensures s'.users == s.users && s'.stats.mem.counts == s.stats.mem.counts
  {
    var more, log, hist2, record;
    path, log := SeatsReset(c, step, s, services);
    var t := At(s, ResetDone).(seats := SeatsOf(services), hist := log);
    more, hist2 := DayPosted(c, step, t);
    var t1 := t.(director := t.director.(pc := CheckNewUsers, minutes := 0), hist := hist2,
                 events := t.events.(day := t.events.day + Crowd(t)));
    path := Then(c, step, s, path, t, more, t1);
    more, record := EndsTick(c, step, t1);
    var t2 := TickDone(t1, record);
    path := Then(c, step, s, path, t1, more, t2);
    more := Alone(c, step, t2, XLoop);
    s' := At(t2, Killing(false));
    path := Then(c, step, s, path, t2, more, s');
  }

  lemma LateAtTheEnd() returns (s: State)
    ensures Reachable(OneSeat(), s) && Quiet(s) && s.director.pc == Killing(false)
    ensures 201 in s.users && s.users[201].pc == BeLate(AtHead) && !s.users[201].plan.wasLate
    ensures s.stats.mem.counts.lateToday == 0
  {
    var c, step, s0 := OneSeat(), StepOf(OneSeat()), Start();
    StepsFollow(c);
    StartIsInitial(OneSeat());
    FourOperators();
    var path, t := DoorsOpen(c, step, s0, [0]);
    var more, t1 := ComesLate(c, step, t, 201);
    path := Then(c, step, s0, path, t, more, t1);
    var t2;
    more, t2 := RestOfDay(c, step, t1);
    path := Then(c, step, s0, path, t1, more, t2);
    more, s := LastTick(c, step, t2, [0]);
    path := Then(c, step, s0, path, t2, more, s);
    InitialIsReachable(c, s0);
    ReachableOn(c, s0, path, s);
  }

  /** A run of the programs, from their start, that is not cut short and is reported as exploded. */
  lemma TimeoutReportedAsExplosion() returns (s: State)
    ensures Init(OneSeat(), Start()) && Reachable(OneSeat(), s) && s.director.pc == Reported(false, Explode)
  {
    StartIsInitial(OneSeat());
    var t := LateAtTheEnd();
    s := ExplodesAfterTimeout(OneSeat(), t, 201);
  }
}
