/**
 A concrete run, from the start of the programs, at whose end two operators hold one
 seat. One seat, four operators of its service, doors that open and close at one
 o'clock: the first operator and then the second take the seat and leave it at
 closing time, which wakes the two others, who have been waiting for it.
 */
module Witness {
  import opened Settings
  import opened SharedRecord
  import opened Statistics
  import opened Seats
  import opened Protocol
  import opened Locks
  import opened Stations
  import opened Runs
  import opened Exclusivity
  import opened Paths
  import opened Race
  import opened Solo

  // ---------- the operators ----------

  function Standing(s: State, p: int, pc: OperatorPc): State
    requires p in s.operators
  {
    Becomes(s, p, s.operators[p].(pc := pc))
  }

  lemma TakesDay(c: Config, step: Relation, s: State, p: int) returns (path: Path, log: History)
    requires Follows(c, step) && Quiet(s) && p in s.operators && s.operators[p].pc == OffDuty && s.events.day > 0
    ensures Leads(step, s, path, Standing(s, p, OutsideDoor).(
                    events := s.events.(day := s.events.day - 1), hist := log))
  {
    log := s.hist.(operatorTokens := s.hist.operatorTokens + 1);
    path := Once(c, step, s, OperatorStep(p, OTakeDay));
    assert s.queue - multiset{} + multiset{} == s.queue;
    assert Apply(c, s, OperatorStep(p, OTakeDay))
        == Standing(s, p, OutsideDoor).(events := s.events.(day := s.events.day - 1), hist := log);
  }

  lemma EntersOffice(c: Config, step: Relation, s: State, p: int) returns (path: Path, log: History)
    requires Follows(c, step) && Quiet(s) && p in s.operators && s.operators[p].pc == OutsideDoor && s.events.open > 0
    ensures Leads(step, s, path, Standing(s, p, LookForWork(0)).(
                    events := s.events.(open := s.events.open - 1), hist := log))
  {
    log := Logged(s, Entered(s));
    path := Once(c, step, s, OperatorStep(p, OEnterOffice));
    assert s.queue - multiset{} + multiset{} == s.queue;
    assert Apply(c, s, OperatorStep(p, OEnterOffice))
        == Standing(s, p, LookForWork(0)).(events := s.events.(open := s.events.open - 1), hist := log);
  }

  lemma FindsWork(c: Config, step: Relation, s: State, p: int) returns (path: Path)
    requires Follows(c, step) && Quiet(s) && p in s.operators && s.operators[p].pc == LookForWork(0)
    requires |s.seats.mem| >= 1 && s.seats.mem[0].service == s.operators[p].service
    ensures Leads(step, s, path, Standing(s, p, FirstSearch))
  {
    path := OneScan(c, step, s, p, OLookForWork);
  }

  /** An operator comes in and is about to search. */
  lemma Arrives(c: Config, step: Relation, s: State, p: int) returns (path: Path, s': State)
    requires Follows(c, step) && Quiet(s) && p in s.operators && s.operators[p].pc == OffDuty
    requires s.events.day > 0 && s.events.open > 0
    requires |s.seats.mem| >= 1 && s.seats.mem[0].service == s.operators[p].service
    ensures Leads(step, s, path, s') && Quiet(s')
    ensures s' == Standing(s, p, FirstSearch).(
              events := s.events.(day := s.events.day - 1, open := s.events.open - 1), hist := s'.hist)
  {
    var log;
    path, log := TakesDay(c, step, s, p);
    var t := Standing(s, p, OutsideDoor).(events := s.events.(day := s.events.day - 1), hist := log);
    var more, hist1 := EntersOffice(c, step, t, p);
    var t1 := Standing(t, p, LookForWork(0)).(events := t.events.(open := t.events.open - 1), hist := hist1);
    path := Then(c, step, s, path, t, more, t1);
    more := FindsWork(c, step, t1, p);
    s' := Standing(t1, p, FirstSearch);
    path := Then(c, step, s, path, t1, more, s');
  }

  /** It finds the lowest seat that is free for it and takes it. */
  lemma TakesSeat(c: Config, step: Relation, s: State, p: int, i: int) returns (path: Path)
    requires Follows(c, step) && Quiet(s) && p in s.operators && s.operators[p].pc == FirstSearch
    requires FindSeat(s.seats.mem, s.operators[p].service) == i != -1
    ensures Leads(step, s, path, Seated(s, p, i, true))
  {
    path := Once(c, step, s, OperatorStep(p, OFirstSearch));
    var t := Becomes(s, p, s.operators[p].(pc := OnShift, seat := i, matched := true)).(
               seats := SharedRecord.Enter(ApplySeat, s.seats, TheOperator(p), TakeWrites(i, p)));
    assert s.queue - multiset{} + multiset{} == s.queue;
    assert t == Apply(c, s, OperatorStep(p, OFirstSearch));
    QuietIsConsistent(s);
    EnterIsAtomic(ApplySeat, s.seats, TheOperator(p), TakeWrites(i, p));
    RunTake(s.seats.mem, i, p);
    var more, s' := SectionEnds(c, step, t, TheOperator(p));
    path := Then(c, step, s, path, t, more, s');
  }

  /** It finds no seat and waits. */
  lemma FindsNone(c: Config, step: Relation, s: State, p: int) returns (path: Path)
    requires Follows(c, step) && Quiet(s) && p in s.operators && s.operators[p].pc == FirstSearch
    requires FindSeat(s.seats.mem, s.operators[p].service) == -1
    ensures Leads(step, s, path, Standing(s, p, WaitStation))
  {
    path := Once(c, step, s, OperatorStep(p, OFirstSearch));
    var t := Standing(s, p, WaitStation).(seats := SharedRecord.Enter(ApplySeat, s.seats, TheOperator(p), []));
    assert s.queue - multiset{} + multiset{} == s.queue;
    assert t == Apply(c, s, OperatorStep(p, OFirstSearch));
    QuietIsConsistent(s);
    EnterIsAtomic(ApplySeat, s.seats, TheOperator(p), []);
    var more, s' := SectionEnds(c, step, t, TheOperator(p));
    path := Then(c, step, s, path, t, more, s');
  }

  lemma SeesClosing(c: Config, step: Relation, s: State, p: int) returns (path: Path, log: History)
    requires Follows(c, step) && Quiet(s) && p in s.operators && s.operators[p].pc == OnShift && s.events.close > 0
    ensures Leads(step, s, path, Standing(s, p, Leaving(false)).(
                    events := s.events.(close := s.events.close - 1), hist := log))
  {
    log := Logged(s, Shut(s));
    path := Once(c, step, s, OperatorStep(p, OSeeClose));
    assert s.queue - multiset{} + multiset{} == s.queue;
    assert Apply(c, s, OperatorStep(p, OSeeClose))
        == Standing(s, p, Leaving(false)).(events := s.events.(close := s.events.close - 1), hist := log);
  }

  function Vacated(s: State, p: int, i: int): State
    requires p in s.operators && 0 <= i < |s.seats.mem|
  {
    var m := s.seats.mem[i := s.seats.mem[i].(process := 0, operator := FREE)];
    Standing(s, p, LeftSeat(false)).(seats := Shared(m, m, 1, map[]))
  }

  lemma Releases(c: Config, step: Relation, s: State, p: int) returns (path: Path)
    requires Follows(c, step) && Quiet(s) && p in s.operators && s.operators[p].pc == Leaving(false)
    requires 0 <= s.operators[p].seat < |s.seats.mem|
    ensures Leads(step, s, path, Vacated(s, p, s.operators[p].seat))
  {
    var i := s.operators[p].seat;
    path := Once(c, step, s, OperatorStep(p, ORelease));
    var t := Standing(s, p, LeftSeat(false)).(
               seats := SharedRecord.Enter(ApplySeat, s.seats, TheOperator(p), ReleaseWrites(i)));
    assert s.queue - multiset{} + multiset{} == s.queue;
    assert t == Apply(c, s, OperatorStep(p, ORelease));
    QuietIsConsistent(s);
    EnterIsAtomic(ApplySeat, s.seats, TheOperator(p), ReleaseWrites(i));
    RunRelease(s.seats.mem, i);
    var more, s' := SectionEnds(c, step, t, TheOperator(p));
    path := Then(c, step, s, path, t, more, s');
  }

  lemma Signals(c: Config, step: Relation, s: State, p: int) returns (path: Path)
    requires Follows(c, step) && Quiet(s) && p in s.operators && s.operators[p].pc == LeftSeat(false)
    ensures Leads(step, s, path, Standing(s, p, RecordShift).(events := s.events.(station := s.events.station + 1)))
  {
    path := Once(c, step, s, OperatorStep(p, OPostStation));
    assert s.queue - multiset{} + multiset{} == s.queue;
    assert Apply(c, s, OperatorStep(p, OPostStation))
        == Standing(s, p, RecordShift).(events := s.events.(station := s.events.station + 1));
  }

  /** An operator comes in, finds the seat taken and waits. */
  lemma Queues(c: Config, step: Relation, s: State, p: int) returns (path: Path, s': State)
    requires Follows(c, step) && Quiet(s) && p in s.operators && s.operators[p].pc == OffDuty
    requires s.events.day > 0 && s.events.open > 0
    requires |s.seats.mem| == 1 && s.seats.mem[0].service == s.operators[p].service
    requires s.seats.mem[0].operator == OCCUPIED
    ensures Leads(step, s, path, s') && Quiet(s')
    ensures s' == Standing(s, p, WaitStation).(
              events := s.events.(day := s.events.day - 1, open := s.events.open - 1), hist := s'.hist)
  {
    var t;
    path, t := Arrives(c, step, s, p);
    var more := FindsNone(c, step, t, p);
    s' := Standing(t, p, WaitStation);
    path := Then(c, step, s, path, t, more, s');
  }

  /** An operator comes in and takes the one seat. */
  lemma StartsWork(c: Config, step: Relation, s: State, p: int) returns (path: Path, s': State)
    requires Follows(c, step) && Quiet(s) && p in s.operators && s.operators[p].pc == OffDuty
    requires s.events.day > 0 && s.events.open > 0
    requires |s.seats.mem| == 1 && s.seats.mem[0].service == s.operators[p].service && s.seats.mem[0].operator == FREE
    ensures Leads(step, s, path, s') && Quiet(s')
    ensures s' == Seated(s, p, 0, true).(
              events := s.events.(day := s.events.day - 1, open := s.events.open - 1), hist := s'.hist)
  {
    var t;
    path, t := Arrives(c, step, s, p);
    var more := TakesSeat(c, step, t, p, 0);
    s' := Seated(t, p, 0, true);
    path := Then(c, step, s, path, t, more, s');
  }

  /** At closing time it gets up and signals that a seat is free. */
  lemma GoesHome(c: Config, step: Relation, s: State, p: int) returns (path: Path, s': State)
    requires Follows(c, step) && Quiet(s) && p in s.operators
    requires s.operators[p].pc == OnShift && s.operators[p].seat == 0
    requires |s.seats.mem| == 1 && s.events.close > 0
    ensures Leads(step, s, path, s') && Quiet(s')
    ensures s' == Standing(s, p, RecordShift).(seats := s'.seats, hist := s'.hist, events := s.events.(
                    close := s.events.close - 1, station := s.events.station + 1))
    ensures s'.seats.mem == [s.seats.mem[0].(process := 0, operator := FREE)]
  {
    var log;
    path, log := SeesClosing(c, step, s, p);
    var t := Standing(s, p, Leaving(false)).(events := s.events.(close := s.events.close - 1), hist := log);
    var more := Releases(c, step, t, p);
    path := Then(c, step, s, path, t, more, Vacated(t, p, 0));
    var t1 := Vacated(t, p, 0);
    more := Signals(c, step, t1, p);
    s' := Standing(t1, p, RecordShift).(events := t1.events.(station := t1.events.station + 1));
    path := Then(c, step, s, path, t1, more, s');
  }

  predicate Ready(s: State, p: int, k: int) {
    p in s.operators && s.operators[p].pc == OffDuty && s.operators[p].service == k
  }

  predicate Waits(s: State, p: int, k: int) {
    p in s.operators && s.operators[p].pc == WaitStation && s.operators[p].service == k
  }

  /** r works while p and q come in and wait. */
  lemma TwoQueue(c: Config, step: Relation, s: State, p: int, q: int, r: int, w: int, k: int)
    returns (path: Path, s': State)
    requires Follows(c, step) && Quiet(s) && s.seats.mem == [Seat(0, FREE, FREE, k)]
    requires Ready(s, p, k) && Ready(s, q, k) && Ready(s, r, k) && Ready(s, w, k)
    requires p != q && p != r && p != w && q != r && q != w && r != w
    requires s.events.day >= 4 && s.events.open >= 4
    ensures Leads(step, s, path, s') && Quiet(s') && s'.seats.mem == [Seat(r, OCCUPIED, FREE, k)]
    ensures Waits(s', p, k) && Waits(s', q, k) && Ready(s', w, k)
    ensures r in s'.operators && s'.operators[r].pc == OnShift && s'.operators[r].seat == 0
    ensures s'.events == s.events.(day := s.events.day - 3, open := s.events.open - 3)
  {
    var t, t1, more;
    path, t := StartsWork(c, step, s, r);
    more, t1 := Queues(c, step, t, p);
    path := Then(c, step, s, path, t, more, t1);
    more, s' := Queues(c, step, t1, q);
    path := Then(c, step, s, path, t1, more, s');
  }

  /** r leaves, w comes, works and leaves: two signals, the seat free, and p and q still waiting. */
  lemma TwoSignals(c: Config, step: Relation, s: State, p: int, q: int, r: int, w: int, k: int)
    returns (path: Path, s': State)
    requires Follows(c, step) && Quiet(s) && s.seats.mem == [Seat(r, OCCUPIED, FREE, k)]
    requires Waits(s, p, k) && Waits(s, q, k) && Ready(s, w, k)
    requires r in s.operators && s.operators[r].pc == OnShift && s.operators[r].seat == 0
    requires p != q && p != r && p != w && q != r && q != w && r != w
    requires s.events.day > 0 && s.events.open > 0 && s.events.close >= 2
    ensures Leads(step, s, path, s') && Quiet(s') && s'.seats.mem == [Seat(0, FREE, FREE, k)]
    ensures Waits(s', p, k) && Waits(s', q, k) && s'.events.station == s.events.station + 2
  {
    var t, t1, more;
    path, t := GoesHome(c, step, s, r);
    more, t1 := StartsWork(c, step, t, w);
    path := Then(c, step, s, path, t, more, t1);
    more, s' := GoesHome(c, step, t1, w);
    path := Then(c, step, s, path, t1, more, s');
  }

  // ---------- the run ----------

  function OneSeat(): Config {
    Config(1, 2, 1, 1, 1, 0, 1, 1)
  }

  function Staff(): map<int, OperatorState> {
    map[101 := NewOperator(0), 102 := NewOperator(0), 103 := NewOperator(0), 104 := NewOperator(0)]
  }

  function NoStats(): Stats {
    Stats(EmptyBook(), EmptyBook(), Counts(0, 0, 0, 0, 0), Clock(0, 0, 0))
  }

  /** One seat, two users, four operators of service 0. */
  function Start(): State {
    State(map[201 := NewUser(), 202 := NewUser()], Staff(), multiset{}, Dispenser(Idle, 0),
          DirectorState(LoopHead, 0, 0, 0),
          Shared(NoStats(), NoStats(), 1, map[]),
          Shared([Seat(0, FREE, FREE, 0)], [Seat(0, FREE, FREE, 0)], 1, map[]),
          Events(0, 0, 0, 0, 0), History([], 0, 0, [], 0, 0, true, {}, DoorLog([2], 0, 0, 0, 0)))
  }

  /** It is a state in which the programs start, whatever the hours. */
  lemma StartIsInitial(c: Config)
    requires Loaded(c) && c.numSeats == 1
    ensures Init(c, Start()) && Quiet(Start())
  {
    EmptyIsBlank();
    TwoUsers();
  }

  lemma TwoUsers()
    ensures |Start().users| == 2
  {
    assert Start().users.Keys == {201, 202};
    assert |Start().users| == |Start().users.Keys|;
  }

  lemma InitialIsReachable(c: Config, s: State)
    requires Init(c, s)
    ensures Reachable(c, s)
  {
    assert Execution(c, [s], []) && [s][0] == s;
  }

  lemma FourOperators()
    ensures |Staff()| == 4 && Crowd(Start()) >= 4
  {
    assert Staff().Keys == {101, 102, 103, 104};
    assert |Staff()| == |Staff().Keys|;
  }

  /** From the start to the moment at which 101 and 102 wait, the seat is free, and two tokens are posted. */
  lemma TwoWait() returns (s: State)
    ensures Reachable(OneSeat(), s) && Quiet(s) && s.seats.mem == [Seat(0, FREE, FREE, 0)]
    ensures Waits(s, 101, 0) && Waits(s, 102, 0) && s.events.station == 2
  {
    var c, step, s0 := OneSeat(), StepOf(OneSeat()), Start();
    StepsFollow(c);
    StartIsInitial(OneSeat());
    FourOperators();
    var path, t := DoorsOpen(c, step, s0, [0]);
    var more, t1 := TwoQueue(c, step, t, 101, 102, 103, 104, 0);
    path := Then(c, step, s0, path, t, more, t1);
    more, s := TwoSignals(c, step, t1, 101, 102, 103, 104, 0);
    path := Then(c, step, s0, path, t1, more, s);
    InitialIsReachable(c, s0);
    ReachableOn(c, s0, path, s);
  }

  /** A run of the programs, from their start, after which operators 101 and 102 both hold seat 0. */
  lemma TwoOperatorsOneSeat() returns (s: State)
    ensures Init(OneSeat(), Start()) && Reachable(OneSeat(), s) && !OneEach(s.operators)
    ensures 101 in s.operators && AtSeat(s.operators[101]) && s.operators[101].seat == 0
    ensures 102 in s.operators && AtSeat(s.operators[102]) && s.operators[102].seat == 0
  {
    StartIsInitial(OneSeat());
    var t := TwoWait();
    s := ExclusivityFails(OneSeat(), t, 101, 102);
  }
}
