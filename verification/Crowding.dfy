/**
 A concrete run, from the start of the programs, at whose end two users hold one seat:
 the first is still there when the day ends, and the second, who searched on that day,
 tries the seat after the reset.
 */
module Crowding {
  import opened Settings
  import opened SharedRecord
  import opened Statistics
  import opened Seats
  import opened Protocol
  import opened Locks
  import opened Stations
  import opened Runs
  import opened Exclusivity
  import opened Paths
  import opened Race
  import opened Solo
  import opened Witness
  import opened Overtaken

  /** Only user u, the queue, the dispenser and history are not what they were. */
  predicate OnlyUser(s: State, s': State, u: int) {
    && u in s.users && u in s'.users
    && s' == s.(users := s.users[u := s'.users[u]], queue := s'.queue, dispenser := s'.dispenser, hist := s'.hist)
  }

  lemma Begins(c: Config, step: Relation, s: State, u: int) returns (path: Path, s': State)
    requires Follows(c, step) && Quiet(s) && u in s.users && s.users[u].pc == WaitWalkIn && !Closed(c, s)
    requires s.stats.mem.clock.minute >= s.users[u].plan.walkIn && s.users[u].plan.next < |s.users[u].plan.list|
    ensures Leads(step, s, path, s') && Quiet(s') && s' == Walking(s, u, s.users[u].(pc := ReadyToAsk))
  {
    var t := Walking(s, u, s.users[u].(pc := Head));
    path := Once(c, step, s, UserStep(u, UWalkIn));
    NothingCommitted(s, TheUser(u));
    var more := Once(c, step, t, UserStep(u, UBegin));
    NothingCommitted(t, TheUser(u));
    s' := Walking(s, u, s.users[u].(pc := ReadyToAsk));
    assert t.users[u := s.users[u].(pc := ReadyToAsk)] == s.users[u := s.users[u].(pc := ReadyToAsk)];
    path := Then(c, step, s, path, t, more, s');
  }

  lemma Asks(c: Config, step: Relation, s: State, u: int) returns (path: Path, s': State)
    requires Follows(c, step) && Quiet(s) && u in s.users && s.users[u].pc == ReadyToAsk && s.queue == multiset{}
    ensures Leads(step, s, path, s') && Quiet(s') && OnlyUser(s, s', u) && s'.dispenser == s.dispenser
    ensures s'.users[u].(item := s.users[u].item) == s.users[u].(pc := AwaitTicket)
    ensures s'.queue == multiset{AskTicket(u, Wanted(s.users[u]))}
  {
    path := Once(c, step, s, UserStep(u, UAskTicket(true)));
    s' := Apply(c, s, UserStep(u, UAskTicket(true)));
  }

  lemma DeskTakes(c: Config, step: Relation, s: State, u: int, k: int) returns (path: Path, s': State)
    requires Follows(c, step) && Quiet(s) && u in s.users && s.queue == multiset{AskTicket(u, k)}
    requires s.dispenser.pc == Idle
    ensures Leads(step, s, path, s') && Quiet(s') && OnlyUser(s, s', u) && s'.queue == multiset{}
    ensures s'.users[u].(item := s.users[u].item) == s.users[u]
    ensures s'.dispenser == Dispenser(Holding(u), s.dispenser.counter)
  {
    var m := AskTicket(u, k);
    path := Once(c, step, s, DispenserStep(DReceive(m)));
    s' := Apply(c, s, DispenserStep(DReceive(m)));
  }

  lemma DeskGives(c: Config, step: Relation, s: State, u: int) returns (path: Path, s': State)
    requires Follows(c, step) && Quiet(s) && u in s.users && s.queue == multiset{} && s.dispenser.pc == Holding(u)
    ensures Leads(step, s, path, s') && Quiet(s') && OnlyUser(s, s', u)
    ensures s'.queue == multiset{GiveTicket(u, s.dispenser.counter)}
    ensures s'.users[u].(item := s.users[u].item) == s.users[u]
    ensures s'.dispenser == Dispenser(Replied, s.dispenser.counter)
  {
    path := Once(c, step, s, DispenserStep(DReply(true)));
    s' := Apply(c, s, DispenserStep(DReply(true)));
  }

  lemma DeskCounts(c: Config, step: Relation, s: State, u: int) returns (path: Path, s': State)
    requires Follows(c, step) && Quiet(s) && u in s.users && s.dispenser.pc == Replied
    ensures Leads(step, s, path, s') && Quiet(s') && OnlyUser(s, s', u) && s'.users == s.users && s'.queue == s.queue
    ensures s'.dispenser == Dispenser(Idle, s.dispenser.counter + 1)
  {
    path := Once(c, step, s, DispenserStep(DCount));
    s' := Apply(c, s, DispenserStep(DCount));
    assert s.users[u := s.users[u]] == s.users;
  }

  lemma Gets(c: Config, step: Relation, s: State, u: int, n: nat) returns (path: Path, s': State)
    requires Follows(c, step) && Quiet(s) && u in s.users && s.users[u].pc == AwaitTicket
    requires s.queue == multiset{GiveTicket(u, n)}
    ensures Leads(step, s, path, s') && Quiet(s') && OnlyUser(s, s', u) && s'.dispenser == s.dispenser
    ensures s'.users[u].pc == HaveTicket && s'.users[u].plan == s.users[u].plan && s'.queue == multiset{}
  {
    var m := GiveTicket(u, n);
    path := Once(c, step, s, UserStep(u, UGetTicket(m)));
    s' := Apply(c, s, UserStep(u, UGetTicket(m)));
  }

  /** The whole exchange with the dispenser. */
  lemma GetsTicket(c: Config, step: Relation, s: State, u: int) returns (path: Path, s': State)
    requires Follows(c, step) && Quiet(s) && u in s.users && s.users[u].pc == ReadyToAsk
    requires s.queue == multiset{} && s.dispenser.pc == Idle
    ensures Leads(step, s, path, s') && Quiet(s') && OnlyUser(s, s', u)
    ensures s'.users[u].pc == HaveTicket && s'.users[u].plan == s.users[u].plan
    ensures s'.queue == multiset{} && s'.dispenser.pc == Idle
  {
    var t, t1, more;
    path, t := Asks(c, step, s, u);
    more, t1 := DeskTakes(c, step, t, u, Wanted(s.users[u]));
    path := Then(c, step, s, path, t, more, t1);
    more, t := DeskGives(c, step, t1, u);
    path := Then(c, step, s, path, t1, more, t);
    more, t1 := DeskCounts(c, step, t, u);
    path := Then(c, step, s, path, t, more, t1);
    more, s' := Gets(c, step, t1, u, s.dispenser.counter);
    path := Then(c, step, s, path, t1, more, s');
  }

  lemma SearchEntered(c: Config, step: Relation, s: State, u: int) returns (path: Path, t: State)
    requires Follows(c, step) && Quiet(s) && u in s.users && s.users[u].pc == HaveTicket
    ensures Leads(step, s, path, t) && u in t.users
    ensures t == s.(users := s.users[u := t.users[u]], seats := SharedRecord.Enter(ApplySeat, s.seats, TheUser(u), []))
    ensures t.users[u].pc == Searched && t.users[u].plan == s.users[u].plan
    ensures t.users[u].visit.valid == ValidSeats(s.seats.mem, Wanted(s.users[u]), |s.seats.mem|)
  {
    path := Once(c, step, s, UserStep(u, UFindSeats));
    t := Apply(c, s, UserStep(u, UFindSeats));
    assert s.queue - multiset{} + multiset{} == s.queue;
  }

  /** The user finds seats and goes on to try them. */
  lemma Finds(c: Config, step: Relation, s: State, u: int) returns (path: Path, s': State)
    requires Follows(c, step) && Quiet(s) && u in s.users && s.users[u].pc == HaveTicket
    requires ValidSeats(s.seats.mem, Wanted(s.users[u]), |s.seats.mem|) != []
    ensures Leads(step, s, path, s') && Quiet(s') && OnlyUser(s, s', u)
    ensures s'.queue == s.queue && s'.dispenser == s.dispenser && s'.users[u].pc == TrySeat
    ensures s'.users[u].visit.valid == ValidSeats(s.seats.mem, Wanted(s.users[u]), |s.seats.mem|)
  {
    var t, t1, more;
    path, t := SearchEntered(c, step, s, u);
    QuietIsConsistent(s);
    EnterIsAtomic(ApplySeat, s.seats, TheUser(u), []);
    more, t1 := SectionEnds(c, step, t, TheUser(u));
    path := Then(c, step, s, path, t, more, t1);
    more := Once(c, step, t1, UserStep(u, UJudgeSeats));
    NothingCommitted(t1, TheUser(u));
    s' := Walking(t1, u, t1.users[u].(pc := TrySeat));
    path := Then(c, step, s, path, t1, more, s');
  }

  lemma OneStaffed(m: seq<Seat>, k: int)
    requires |m| == 1 && m[0].operator == OCCUPIED && m[0].service == k
    ensures ValidSeats(m, k, 1) == [0]
  {
    assert Staffed(m, 0, k);
    assert ValidSeats(m, k, 0) == [];
  }

  /** A user waiting to walk in goes through all that, to the point of trying seat 0. */
  lemma ComesToSeat(c: Config, step: Relation, s: State, u: int) returns (path: Path, s': State)
    requires Follows(c, step) && Quiet(s) && u in s.users && s.users[u].pc == WaitWalkIn && !Closed(c, s)
    requires s.stats.mem.clock.minute >= s.users[u].plan.walkIn && s.users[u].plan.next < |s.users[u].plan.list|
    requires s.queue == multiset{} && s.dispenser.pc == Idle
    requires |s.seats.mem| == 1 && s.seats.mem[0].operator == OCCUPIED
    requires s.seats.mem[0].service == Wanted(s.users[u])
    ensures Leads(step, s, path, s') && Quiet(s') && OnlyUser(s, s', u)
    ensures s'.queue == multiset{} && s'.dispenser.pc == Idle
    ensures s'.users[u].pc == TrySeat && s'.users[u].visit.valid == [0]
  {
    var t, t1, more;
    path, t := Begins(c, step, s, u);
    more, t1 := GetsTicket(c, step, t, u);
    path := Then(c, step, s, path, t, more, t1);
    OneStaffed(s.seats.mem, Wanted(s.users[u]));
    more, s' := Finds(c, step, t1, u);
    path := Then(c, step, s, path, t1, more, s');
  }

  lemma TryEntered(c: Config, step: Relation, s: State, u: int) returns (path: Path, t: State)
    requires Follows(c, step) && Quiet(s) && u in s.users && s.users[u].pc == TrySeat
    requires s.users[u].visit.valid == [0] && Offered(s.seats.mem, 0)
    ensures Leads(step, s, path, t) && u in t.users
    ensures t == s.(users := s.users[u := t.users[u]],
                    seats := SharedRecord.Enter(ApplySeat, s.seats, TheUser(u), [SetUser(0, OCCUPIED)]))
    ensures t.users[u].pc == HaveSeat && t.users[u].visit.seat == 0
  {
    path := Once(c, step, s, UserStep(u, UTrySeat));
    t := Apply(c, s, UserStep(u, UTrySeat));
    assert s.queue - multiset{} + multiset{} == s.queue;
  }

  /** It finds the seat free and takes it. */
  lemma TakesPlace(c: Config, step: Relation, s: State, u: int) returns (path: Path, s': State)
    requires Follows(c, step) && Quiet(s) && u in s.users && s.users[u].pc == TrySeat
    requires s.users[u].visit.valid == [0] && |s.seats.mem| == 1 && s.seats.mem[0].user == FREE
    ensures Leads(step, s, path, s') && Quiet(s') && u in s'.users
    ensures s' == s.(users := s.users[u := s'.users[u]], seats := s'.seats)
    ensures s'.seats.mem == [s.seats.mem[0].(user := OCCUPIED)]
    ensures s'.users[u].pc == HaveSeat && s'.users[u].visit.seat == 0
  {
    var t, more;
    path, t := TryEntered(c, step, s, u);
    QuietIsConsistent(s);
    EnterIsAtomic(ApplySeat, s.seats, TheUser(u), [SetUser(0, OCCUPIED)]);
    RunUser(s.seats.mem, 0, OCCUPIED);
    more, s' := SectionEnds(c, step, t, TheUser(u));
    path := Then(c, step, s, path, t, more, s');
  }

  // ---------- the run ----------

  /** One seat, doors that open at one o'clock and stay open. */
  function LongDay(): Config {
    Config(1, 2, 1, 1, 25, 0, 1, 1)
  }

  /** The user comes in and is about to try the one seat. */
  lemma Comes(c: Config, step: Relation, s: State, u: int) returns (path: Path, s': State)
    requires Follows(c, step) && Quiet(s) && u in s.users && s.users[u] == NewUser() && c == LongDay()
    requires s.events.day > 0 && s.events.open > 0 && s.stats.mem.clock.minute == 61
    requires s.queue == multiset{} && s.dispenser.pc == Idle
    requires |s.seats.mem| == 1 && s.seats.mem[0].operator == OCCUPIED && s.seats.mem[0].service == 0
    ensures Leads(step, s, path, s') && Quiet(s') && u in s'.users
    ensures s' == s.(users := s.users[u := s'.users[u]], hist := s'.hist, dispenser := s'.dispenser,
                     events := s.events.(day := s.events.day - 1, open := s.events.open - 1))
    ensures s'.users[u].pc == TrySeat && s'.users[u].visit.valid == [0] && s'.dispenser.pc == Idle
  {
    var t, more;
    path, t := ComesOut(c, step, s, u);
    more, s' := ComesToSeat(c, step, t, u);
    assert s.users[u := t.users[u]][u := s'.users[u]] == s.users[u := s'.users[u]];
    path := Then(c, step, s, path, t, more, s');
  }

  /** 101 works at the seat, 201 and 202 have found it, and 201 takes it. */
  lemma TwoFindOneTakes(step: Relation) returns (path: Path, s: State)
    requires Follows(LongDay(), step)
    ensures Leads(step, Start(), path, s) && Quiet(s) && s.director == DirectorState(LoopHead, 61, 1, 61)
    ensures s.stats.mem.counts.lateToday == 0 && s.users.Keys == {201, 202} && s.operators.Keys == Staff().Keys
    ensures Sitting(s.users[201]) && s.users[201].visit.seat == 0
    ensures s.users[202].pc == TrySeat && s.users[202].visit.valid == [0]
  {
    var c, s0 := LongDay(), Start();
    StartIsInitial(c);
    FourOperators();
    var t, t1, more;
    path, t := DoorsStayOpen(c, step, s0, [0]);
    more, t1 := StartsWork(c, step, t, 101);
    path := Then(c, step, s0, path, t, more, t1);
    more, t := Comes(c, step, t1, 201);
    path := Then(c, step, s0, path, t1, more, t);
    more, t1 := Comes(c, step, t, 202);
    path := Then(c, step, s0, path, t, more, t1);
    more, s := TakesPlace(c, step, t1, 201);
    path := Then(c, step, s0, path, t1, more, s);
  }

  lemma TwoAtDusk() returns (s: State)
    ensures Reachable(LongDay(), s) && Quiet(s) && s.director.pc == ResetSeats
    ensures 201 in s.users && Sitting(s.users[201]) && s.users[201].visit.seat == 0
    ensures 202 in s.users && s.users[202].pc == TrySeat && s.users[202].visit.valid == [0]
  {
    var c, step, s0 := LongDay(), StepOf(LongDay()), Start();
    StepsFollow(c);
    StartIsInitial(c);
    var path, t := TwoFindOneTakes(step);
    assert PidsDistinct(t.users.Keys, t.operators.Keys);
    var more;
    more, s := RestOfDay(c, step, t);
    path := Then(c, step, s0, path, t, more, s);
    InitialIsReachable(c, s0);
    ReachableOn(c, s0, path, s);
  }

  /** A run of the programs, from their start, after which users 201 and 202 both sit at seat 0. */
  lemma TwoUsersOneSeat() returns (s: State)
    ensures Init(LongDay(), Start()) && Reachable(LongDay(), s)
    ensures 201 in s.users && Sitting(s.users[201]) && s.users[201].visit.seat == 0
    ensures 202 in s.users && Sitting(s.users[202]) && s.users[202].visit.seat == 0
  {
    StartIsInitial(LongDay());
    var t := TwoAtDusk();
    s := ResetSharesSeat(LongDay(), t, 201, 202);
  }
}
