/**
 Operators do not have their seats to themselves: whenever two of them wait for the
 same seat and two signals have been given, the run can go on so that both sit there.
 The program takes a seat found while waiting without looking at it again.
 */
module Race {
  import opened Settings
  import opened SharedRecord
  import opened Statistics
  import opened Seats
  import opened Protocol
  import opened Stations
  import opened Locks
  import opened Runs
  import opened Paths
  import opened Exclusivity

  type Relation = (State, Action, State) -> bool

  type Path = seq<(Action, State)>

  ghost predicate Step(c: Config, s: State, a: Action, s': State) {
    Enabled(c, s, a) && s' == Apply(c, s, a)
  }

  ghost function StepOf(c: Config): Relation {
    (s: State, a: Action, s': State) => Step(c, s, a, s')
  }

  /** Every step of the system is a step of the relation, of which the lemmas below need no more. */
  ghost predicate Follows(c: Config, step: Relation) {
    forall s, a | Enabled(c, s, a) :: step(s, a, Apply(c, s, a))
  }

  lemma StepsFollow(c: Config)
    ensures Follows(c, StepOf(c))
  {
    forall s, a | Enabled(c, s, a) ensures StepOf(c)(s, a, Apply(c, s, a)) {
      assert Step(c, s, a, Apply(c, s, a));
    }
  }

  lemma RunReaches(c: Config, states: seq<State>, actions: seq<Action>, i: nat)
    requires Execution(c, states, actions) && i < |states|
    ensures Reachable(c, states[i])
  {
  }

  /** A step from a state of a run leads to a state of a run. */
  lemma ReachableStep(c: Config, s: State, a: Action)
    requires Reachable(c, s) && Enabled(c, s, a)
    ensures Reachable(c, Apply(c, s, a))
  {
    var states, actions, i :| Execution(c, states, actions) && 0 <= i < |states| && states[i] == s;
    ExtendRun(c, states, actions, i, a);
    RunReaches(c, states[..i + 1] + [Apply(c, s, a)], actions[..i] + [a], i + 1);
  }

  lemma ExtendRun(c: Config, states: seq<State>, actions: seq<Action>, i: nat, a: Action)
    requires Execution(c, states, actions) && i < |states| && Enabled(c, states[i], a)
    ensures Execution(c, states[..i + 1] + [Apply(c, states[i], a)], actions[..i] + [a])
  {
    var more, acts := states[..i + 1] + [Apply(c, states[i], a)], actions[..i] + [a];
    forall k | 0 <= k < |acts| ensures Enabled(c, more[k], acts[k]) && more[k + 1] == Apply(c, more[k], acts[k]) {
      if k < i {
        assert more[k] == states[k] && more[k + 1] == states[k + 1] && acts[k] == actions[k];
      } else {
        assert more[k] == states[i] && acts[k] == a;
      }
    }
  }

  lemma {:induction false} ReachableOn(c: Config, s: State, path: Path, s': State)
    requires Reachable(c, s) && Leads(StepOf(c), s, path, s')
    ensures Reachable(c, s')
    decreases |path|
  {
    if path != [] {
      FirstStep(c, s, path, s');
      ReachableStep(c, s, path[0].0);
      ReachableOn(c, path[0].1, path[1..], s');
    }
  }

  lemma FirstStep(c: Config, s: State, path: Path, s': State)
    requires Leads(StepOf(c), s, path, s') && path != []
    ensures Step(c, s, path[0].0, path[0].1) && Leads(StepOf(c), path[0].1, path[1..], s')
  {
  }

  lemma Once(c: Config, step: Relation, s: State, a: Action) returns (path: Path)
    requires Follows(c, step) && Enabled(c, s, a)
    ensures Leads(step, s, path, Apply(c, s, a))
  {
    path := [(a, Apply(c, s, a))];
    assert step(s, a, Apply(c, s, a));
    LeadsOnce(step, s, a, Apply(c, s, a));
  }

  /** The locked section in progress runs to its end while everybody else waits. */
  lemma {:induction false} SectionEnds(c: Config, step: Relation, s: State, who: Proc)
    returns (path: Path, s': State)
    requires Follows(c, step) && Running(s) && who in s.seats.inside && Consistent(ApplySeat, s.seats)
    ensures Leads(step, s, path, s')
    ensures s' == s.(seats := Shared(s.seats.view, s.seats.view, 1, map[]))
    decreases |s.seats.inside[who]|
  {
    if s.seats.inside[who] == [] {
      path := Once(c, step, s, SeatLeave(who));
      LeaveKeepsView(ApplySeat, s.seats, who);
      SemaphoreCountsHolders(ApplySeat, s.seats);
      s' := Apply(c, s, SeatLeave(who));
    } else {
      var first := Once(c, step, s, SeatStep(who));
      WriteNextKeepsView(ApplySeat, s.seats, who);
      path, s' := SectionEnds(c, step, Apply(c, s, SeatStep(who)), who);
      LeadsOn(step, s, first, Apply(c, s, SeatStep(who)), path, s');
      path := first + path;
    }
  }

  lemma Then(c: Config, step: Relation, s: State, a: Path, t: State, b: Path, s': State)
    returns (path: Path)
    requires Follows(c, step) && Leads(step, s, a, t) && Leads(step, t, b, s')
    ensures Leads(step, s, path, s')
  {
    LeadsOn(step, s, a, t, b, s');
    path := a + b;
  }

  function Becomes(s: State, p: int, y: OperatorState): State {
    s.(operators := s.operators[p := y])
  }

  lemma NothingCommitted(s: State, who: Proc)
    ensures Commit(s, who, Nothing(s)) == s
  {
    assert s.queue - multiset{} + multiset{} == s.queue;
  }

  lemma ScanChangesNothing(c: Config, s: State, p: int, oa: OperatorAct)
    requires p in s.operators && (oa == OScanService || (oa == OScanStatus && s.operators[p].pc.ScanStatus?
                                                         && s.operators[p].pc.i < |s.seats.mem|))
    ensures OperatorEffect(c, s, p, oa) == Nothing(s) && OperatorUsers(c, s, p, oa) == s.users
  {
  }

  lemma OneScan(c: Config, step: Relation, s: State, p: int, oa: OperatorAct) returns (path: Path)
    requires Follows(c, step) && Enabled(c, s, OperatorStep(p, oa))
    requires OperatorEffect(c, s, p, oa) == Nothing(s) && OperatorUsers(c, s, p, oa) == s.users
    ensures Leads(step, s, path, Becomes(s, p, OperatorNext(c, s, p, oa)))
  {
    NothingCommitted(s, TheOperator(p));
    path := Once(c, step, s, OperatorStep(p, oa));
  }

  function Scanning(s: State, p: int, pc: OperatorPc): State
    requires p in s.operators
  {
    Becomes(s, p, s.operators[p].(pc := pc))
  }

  /** The operator settles on seat i. */
  function Settled(s: State, p: int, i: int): State
    requires p in s.operators
  {
    Becomes(s, p, s.operators[p].(pc := TakeFound, seat := i, foundDay := TableDay(s)))
  }

  lemma StatusRead(c: Config, s: State, p: int, j: nat)
    requires p in s.operators && s.operators[p].pc == ScanStatus(j) && j < |s.seats.mem|
    ensures OperatorNext(c, s, p, OScanStatus)
         == s.operators[p].(pc := if s.seats.mem[j].operator == FREE then ScanService(j) else ScanStatus(j + 1))
  {
  }

  /** The status of seat j is read. */
  lemma ReadsStatus(c: Config, step: Relation, s: State, p: int, j: nat) returns (path: Path)
    requires Follows(c, step) && Running(s) && p in s.operators && OutsideLocks(s, TheOperator(p))
    requires s.operators[p].pc == ScanStatus(j) && j < |s.seats.mem|
    ensures Leads(step, s, path,
                  Scanning(s, p, if s.seats.mem[j].operator == FREE then ScanService(j) else ScanStatus(j + 1)))
  {
    ScanChangesNothing(c, s, p, OScanStatus);
    StatusRead(c, s, p, j);
    path := OneScan(c, step, s, p, OScanStatus);
  }

  lemma ServiceRead(c: Config, s: State, p: int, j: nat)
    requires p in s.operators && s.operators[p].pc == ScanService(j) && j < |s.seats.mem|
    ensures var y := s.operators[p];
            OperatorNext(c, s, p, OScanService)
            == if s.seats.mem[j].service == y.service then y.(pc := TakeFound, seat := j, foundDay := TableDay(s))
               else y.(pc := ScanStatus(j + 1))
  {
  }

  /** The service of seat j is read. */
  lemma ReadsService(c: Config, step: Relation, s: State, p: int, j: nat) returns (path: Path)
    requires Follows(c, step) && Running(s) && p in s.operators && OutsideLocks(s, TheOperator(p))
    requires s.operators[p].pc == ScanService(j) && j < |s.seats.mem|
    ensures Leads(step, s, path,
                  if s.seats.mem[j].service == s.operators[p].service then Settled(s, p, j)
                  else Scanning(s, p, ScanStatus(j + 1)))
  {
    ScanChangesNothing(c, s, p, OScanService);
    ServiceRead(c, s, p, j);
    path := OneScan(c, step, s, p, OScanService);
  }

  /** One seat is looked at. */
  lemma LooksAt(c: Config, step: Relation, s: State, p: int, j: nat) returns (path: Path)
    requires Follows(c, step) && Running(s) && p in s.operators && OutsideLocks(s, TheOperator(p))
    requires s.operators[p].pc == ScanStatus(j) && j < |s.seats.mem|
    ensures Leads(step, s, path,
                  if Vacant(s.seats.mem, j, s.operators[p].service) then Settled(s, p, j)
                  else Scanning(s, p, ScanStatus(j + 1)))
  {
    path := ReadsStatus(c, step, s, p, j);
    if s.seats.mem[j].operator == FREE {
      var t := Scanning(s, p, ScanService(j));
      var more := ReadsService(c, step, t, p, j);
      assert Settled(t, p, j) == Settled(s, p, j);
      assert Scanning(t, p, ScanStatus(j + 1)) == Scanning(s, p, ScanStatus(j + 1));
      path := Then(c, step, s, path, t, more,
                   if Vacant(s.seats.mem, j, s.operators[p].service) then Settled(s, p, j)
                   else Scanning(s, p, ScanStatus(j + 1)));
    }
  }

  lemma FindFrom(m: seq<Seat>, k: int, j: nat)
    requires j <= |m| && FindSeat(m, k, j) != -1
    ensures j < |m| && FindSeat(m, k, j) == if Vacant(m, j, k) then j else FindSeat(m, k, j + 1)
  {
  }

  lemma GoesOn(c: Config, step: Relation, s: State, p: int, j: nat, i: int, more: Path)
    returns (path: Path)
    requires Follows(c, step) && Running(s) && p in s.operators && OutsideLocks(s, TheOperator(p))
    requires s.operators[p].pc == ScanStatus(j) && j < |s.seats.mem| && !Vacant(s.seats.mem, j, s.operators[p].service)
    requires Leads(step, Scanning(s, p, ScanStatus(j + 1)), more, Settled(s, p, i))
    ensures Leads(step, s, path, Settled(s, p, i))
  {
    path := LooksAt(c, step, s, p, j);
    path := Then(c, step, s, path, Scanning(s, p, ScanStatus(j + 1)), more, Settled(s, p, i));
  }

  lemma ScanningOn(c: Config, s: State, p: int, j: nat, i: int)
    requires p in s.operators
    ensures var t := Scanning(s, p, ScanStatus(j + 1));
            && p in t.operators && t.operators[p] == s.operators[p].(pc := ScanStatus(j + 1))
            && t.seats == s.seats && t.stats == s.stats && t.director == s.director
            && Settled(t, p, i) == Settled(s, p, i)
  {
  }

  /** From a scan at seat j on, a waiting operator settles on the lowest seat that is free for it. */
  lemma {:induction false} Scans(c: Config, step: Relation, s: State, p: int, j: nat) returns (path: Path)
    requires Follows(c, step) && Running(s) && p in s.operators && OutsideLocks(s, TheOperator(p))
    requires s.operators[p].pc == ScanStatus(j) && j <= |s.seats.mem|
    requires FindSeat(s.seats.mem, s.operators[p].service, j) != -1
    ensures Leads(step, s, path, Settled(s, p, FindSeat(s.seats.mem, s.operators[p].service, j)))
    decreases |s.seats.mem| - j
  {
    var k := s.operators[p].service;
    FindFrom(s.seats.mem, k, j);
    if Vacant(s.seats.mem, j, k) {
      path := LooksAt(c, step, s, p, j);
    } else {
      var i := FindSeat(s.seats.mem, k, j + 1);
      ScanningOn(c, s, p, j, i);
      path := Scans(c, step, Scanning(s, p, ScanStatus(j + 1)), p, j + 1);
      path := GoesOn(c, step, s, p, j, i, path);
    }
  }

  /** The state in which the operator has used up a token and settled on seat i. */
  function Woken(s: State, p: int, i: int): State
    requires p in s.operators && s.events.station > 0
  {
    Settled(s, p, i).(events := s.events.(station := s.events.station - 1))
  }

  lemma WakesUp(c: Config, step: Relation, s: State, p: int) returns (path: Path)
    requires Follows(c, step) && Running(s) && p in s.operators && OutsideLocks(s, TheOperator(p))
    requires s.operators[p].pc == WaitStation && s.events.station > 0
    ensures Leads(step, s, path,
                  Scanning(s, p, ScanStatus(0)).(events := s.events.(station := s.events.station - 1)))
  {
    NothingCommitted(s, TheOperator(p));
    path := Once(c, step, s, OperatorStep(p, OWakeUp));
  }

  lemma WakesAndFinds(c: Config, step: Relation, s: State, p: int) returns (path: Path)
    requires Follows(c, step) && Running(s) && p in s.operators && OutsideLocks(s, TheOperator(p))
    requires s.operators[p].pc == WaitStation && s.events.station > 0
    requires FindSeat(s.seats.mem, s.operators[p].service) != -1
    ensures Leads(step, s, path, Woken(s, p, FindSeat(s.seats.mem, s.operators[p].service)))
  {
    var i := FindSeat(s.seats.mem, s.operators[p].service);
    var t := Scanning(s, p, ScanStatus(0)).(events := s.events.(station := s.events.station - 1));
    path := WakesUp(c, step, s, p);
    var more := Scans(c, step, t, p, 0);
    assert Settled(t, p, i) == Woken(s, p, i);
    path := Then(c, step, s, path, t, more, Woken(s, p, i));
  }

  /** The operator sits at seat i, which now names it. */
  function Seated(s: State, p: int, i: int, fits: bool): State
    requires p in s.operators && 0 <= i < |s.seats.mem|
  {
    var m := s.seats.mem[i := s.seats.mem[i].(process := p, operator := OCCUPIED)];
    Becomes(s, p, s.operators[p].(pc := OnShift, seat := i, matched := fits)).(seats := Shared(m, m, 1, map[]))
  }

  lemma EntersToSit(c: Config, step: Relation, s: State, p: int) returns (path: Path, fits: bool)
    requires Follows(c, step) && Running(s) && p in s.operators && OutsideLocks(s, TheOperator(p))
    requires s.operators[p].pc == TakeFound && s.seats.sem > 0
    ensures Leads(step, s, path,
              Becomes(s, p, s.operators[p].(pc := OnShift, matched := fits)).(
                seats := SharedRecord.Enter(ApplySeat, s.seats, TheOperator(p), TakeWrites(s.operators[p].seat, p))))
  {
    NothingCommitted(s, TheOperator(p));
    path := Once(c, step, s, OperatorStep(p, OTakeFound));
    fits := s.operators[p].foundDay == s.hist.seatDay;
  }

  /** It takes the seat it found, whatever has become of it. */
  lemma Sits(c: Config, step: Relation, s: State, p: int) returns (path: Path, fits: bool)
    requires Follows(c, step) && Running(s) && p in s.operators && OutsideLocks(s, TheOperator(p))
    requires s.operators[p].pc == TakeFound && s.seats.sem > 0 && Consistent(ApplySeat, s.seats)
    requires 0 <= s.operators[p].seat < |s.seats.mem|
    ensures Leads(step, s, path, Seated(s, p, s.operators[p].seat, fits))
  {
    var i := s.operators[p].seat;
    path, fits := EntersToSit(c, step, s, p);
    var t := Becomes(s, p, s.operators[p].(pc := OnShift, matched := fits)).(
               seats := SharedRecord.Enter(ApplySeat, s.seats, TheOperator(p), TakeWrites(i, p)));
    EnterIsAtomic(ApplySeat, s.seats, TheOperator(p), TakeWrites(i, p));
    RunTake(s.seats.mem, i, p);
    var more, s' := SectionEnds(c, step, t, TheOperator(p));
    path := Then(c, step, s, path, t, more, s');
  }

  /** Two operators wait for a seat of one service. */
  predicate BothWait(s: State, p: int, q: int) {
    && p in s.operators && q in s.operators && p != q && s.operators[p].service == s.operators[q].service
    && OutsideLocks(s, TheOperator(p)) && s.operators[p].pc == WaitStation
    && OutsideLocks(s, TheOperator(q)) && s.operators[q].pc == WaitStation
  }

  function BothWoken(s: State, p: int, q: int, i: int): State
    requires BothWait(s, p, q) && s.events.station >= 2
  {
    Woken(Woken(s, p, i), q, i)
  }

  lemma BothWake(c: Config, step: Relation, s: State, p: int, q: int) returns (path: Path)
    requires Follows(c, step) && Running(s) && s.events.station >= 2 && BothWait(s, p, q)
    requires FindSeat(s.seats.mem, s.operators[p].service) != -1
    ensures Leads(step, s, path, BothWoken(s, p, q, FindSeat(s.seats.mem, s.operators[p].service)))
  {
    var i := FindSeat(s.seats.mem, s.operators[p].service);
    path := WakesAndFinds(c, step, s, p);
    var t := Woken(s, p, i);
    var more := WakesAndFinds(c, step, t, q);
    path := Then(c, step, s, path, t, more, BothWoken(s, p, q, i));
  }

  lemma BothSit(c: Config, step: Relation, s: State, p: int, q: int, i: int) returns (path: Path, s': State)
    requires Follows(c, step) && Running(s) && p in s.operators && q in s.operators && p != q && s.seats.inside == map[]
    requires OutsideLocks(s, TheOperator(p)) && OutsideLocks(s, TheOperator(q)) && Consistent(ApplySeat, s.seats)
    requires s.operators[p].pc == TakeFound && s.operators[p].seat == i
    requires s.operators[q].pc == TakeFound && s.operators[q].seat == i && 0 <= i < |s.seats.mem|
    ensures Leads(step, s, path, s')
    ensures p in s'.operators && q in s'.operators && AtSeat(s'.operators[p]) && AtSeat(s'.operators[q])
    ensures s'.operators[p].seat == i == s'.operators[q].seat
  {
    var first, fits := Sits(c, step, s, p);
    var t := Seated(s, p, i, fits);
    var more, matched' := Sits(c, step, t, q);
    s' := Seated(t, q, i, matched');
    path := Then(c, step, s, first, t, more, s');
  }

  /** Whoever is in the seat section leaves it; nothing else happens. */
  lemma SeatsSettle(c: Config, s: State) returns (path: Path, s': State)
    requires Reachable(c, s) && Running(s)
    ensures Leads(StepOf(c), s, path, s')
    ensures s' == s.(seats := Shared(s.seats.view, s.seats.view, 1, map[]))
  {
    ReachableInv(c, s);
    StepsFollow(c);
    if who :| who in s.seats.inside {
      path, s' := SectionEnds(c, StepOf(c), s, who);
    } else {
      assert s.seats.inside.Keys == {};
      path, s' := [], s;
    }
  }

  /**
   Two operators of one service wait, two tokens are posted, and a seat is free for
   them once the section in progress, if any, is over: from every such state of a run,
   the run can go on so that both hold that seat.
   */
  lemma ExclusivityFails(c: Config, s: State, p: int, q: int) returns (s': State)
    requires Reachable(c, s) && Running(s) && s.events.station >= 2 && BothWait(s, p, q)
    requires FindSeat(s.seats.view, s.operators[p].service) != -1
    ensures Reachable(c, s') && !OneEach(s'.operators)
    ensures p in s'.operators && q in s'.operators && AtSeat(s'.operators[p]) && AtSeat(s'.operators[q])
    ensures s'.operators[p].seat == s'.operators[q].seat == FindSeat(s.seats.view, s.operators[p].service)
  {
    StepsFollow(c);
    var i := FindSeat(s.seats.view, s.operators[p].service);
    var settling, s0 := SeatsSettle(c, s);
    var first := BothWake(c, StepOf(c), s0, p, q);
    var t := BothWoken(s0, p, q, i);
    var path;
    path, s' := BothSit(c, StepOf(c), t, p, q, i);
    path := Then(c, StepOf(c), s0, first, t, path, s');
    ReachableOn(c, s, settling, s0);
    ReachableOn(c, s0, path, s');
  }
}
