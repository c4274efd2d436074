/**
 The register of operators at the seats, in every run: through the racy waiting path,
 in which an operator takes a seat it found without the lock, and through day resets
 that overtake operators still at work.
 */
module Stations {
  import opened Settings
  import opened SharedRecord
  import opened Statistics
  import opened Seats
  import opened Protocol
  import opened Locks
  import opened Moves
  import opened Sessions

  /** The operator believes it occupies its seat. */
  predicate AtSeat(y: OperatorState) {
    y.pc.OnShift? || y.pc.Poll? || y.pc.GotRequest? || y.pc.Serving? || y.pc.AfterService? || y.pc.Leaving?
  }

  /** A seat is occupied iff it names a process, and that process is on shift at this very seat. */
  ghost predicate SeatRegistered(operators: map<int, OperatorState>, t: Seat, i: int) {
    && (t.operator == OCCUPIED <==> t.process != 0)
    && (t.process != 0 ==>
          t.process in operators && AtSeat(operators[t.process]) && operators[t.process].seat == i)
  }

  ghost predicate Registered(operators: map<int, OperatorState>, m: seq<Seat>) {
    forall i | 0 <= i < |m| :: SeatRegistered(operators, m[i], i)
  }

  /** Whoever a seat names is an operator, and serves the seat's service if its seat was matched. */
  ghost predicate Matches(operators: map<int, OperatorState>, t: Seat) {
    t.process != 0 ==>
      t.process in operators && (operators[t.process].matched ==> t.service == operators[t.process].service)
  }

  ghost predicate Matching(operators: map<int, OperatorState>, m: seq<Seat>) {
    forall i | 0 <= i < |m| :: Matches(operators, m[i])
  }

  /** Matching holds of every memory another process can observe while todo is being written. */
  ghost predicate MatchingAlong(operators: map<int, OperatorState>, m: seq<Seat>, todo: seq<SeatWrite>)
    decreases |todo|
  {
    Matching(operators, m) && (todo != [] ==> MatchingAlong(operators, ApplySeat(m, todo[0]), todo[1..]))
  }

  ghost predicate SeatKnown(c: Config, y: OperatorState) {
    AtSeat(y) || y.pc == TakeFound ==> 0 <= y.seat < c.numSeats
  }

  ghost predicate StationInv(c: Config, s: State) {
    && |s.seats.mem| == |s.seats.view| == c.numSeats
    && Registered(s.operators, s.seats.view)
    && Matching(s.operators, s.seats.mem)
    && (forall p | p in s.seats.inside :: MatchingAlong(s.operators, s.seats.mem, s.seats.inside[p]))
    && (forall p | p in s.operators :: SeatKnown(c, s.operators[p]))
    && (forall p | p in s.operators :: p > 0)
  }

  lemma StationsInitially(c: Config, s: State)
    requires Init(c, s)
    ensures StationInv(c, s)
  {
  }

  lemma MatchingNames(c: Config, s: State)
    requires StationInv(c, s)
    ensures NamesOperators(s)
  {
    forall i | 0 <= i < |s.seats.mem| ensures s.seats.mem[i].process in s.operators.Keys + {0} {
      assert Matches(s.operators, s.seats.mem[i]);
    }
  }

  // ---------- lists of writes ----------

  lemma {:induction false} AlongConcat(operators: map<int, OperatorState>, m: seq<Seat>,
                                       a: seq<SeatWrite>, b: seq<SeatWrite>)
    requires MatchingAlong(operators, m, a) && MatchingAlong(operators, Run(ApplySeat, m, a), b)
    ensures MatchingAlong(operators, m, a + b)
    decreases |a|
  {
    if a == [] {
      assert a + b == b;
    } else {
      assert (a + b)[1..] == a[1..] + b;
      AlongConcat(operators, ApplySeat(m, a[0]), a[1..], b);
    }
  }

  lemma Along1(operators: map<int, OperatorState>, m: seq<Seat>, w: SeatWrite)
    requires Matching(operators, m) && Matching(operators, ApplySeat(m, w))
    ensures MatchingAlong(operators, m, [w])
  {
    assert [w][1..] == [];
    assert MatchingAlong(operators, ApplySeat(m, w), []);
  }

  lemma Along2(operators: map<int, OperatorState>, m: seq<Seat>, v: SeatWrite, w: SeatWrite)
    requires Matching(operators, m) && Matching(operators, ApplySeat(m, v))
    requires Matching(operators, ApplySeat(ApplySeat(m, v), w))
    ensures MatchingAlong(operators, m, [v, w])
  {
    assert [v, w][1..] == [w];
    Along1(operators, ApplySeat(m, v), w);
  }

  lemma AlongReset1(operators: map<int, OperatorState>, m: seq<Seat>, i: int, k: int)
    requires Matching(operators, m)
    ensures MatchingAlong(operators, m, ResetSeatWrites(i, k))
  {
    var a, b := SetProcess(i, 0), SetOperator(i, FREE);
    var c, d := SetUser(i, FREE), SetService(i, k);
    var m1 := ApplySeat(m, a);
    var m2 := ApplySeat(m1, b);
    assert Matching(operators, m1) && Matching(operators, m2);
    Along2(operators, m, a, b);
    Run2(ApplySeat, m, a, b);
    Along2(operators, m2, c, d);
    AlongConcat(operators, m, [a, b], [c, d]);
    assert ResetSeatWrites(i, k) == [a, b] + [c, d];
  }

  lemma ResetSeatKeepsMatching(operators: map<int, OperatorState>, m: seq<Seat>, i: int, k: int)
    requires Matching(operators, m) && 0 <= i < |m|
    ensures Matching(operators, Run(ApplySeat, m, ResetSeatWrites(i, k)))
  {
    RunResetSeat(m, i, k);
  }

  /** Nothing seen during the reset loop is worse than what was there before. */
  lemma {:induction false} AlongReset(operators: map<int, OperatorState>, m: seq<Seat>, services: seq<int>, i: nat)
    requires Matching(operators, m) && i <= |services| == |m|
    ensures MatchingAlong(operators, m, ResetWrites(services, i))
    decreases |services| - i
  {
    if i < |services| {
      AlongReset1(operators, m, i, services[i]);
      ResetSeatKeepsMatching(operators, m, i, services[i]);
      RunKeepsLength(m, ResetSeatWrites(i, services[i]));
      AlongReset(operators, Run(ApplySeat, m, ResetSeatWrites(i, services[i])), services, i + 1);
      AlongConcat(operators, m, ResetSeatWrites(i, services[i]), ResetWrites(services, i + 1));
    }
  }

  /** Matching depends only on which operators there are, what they serve and whether their seat was matched. */
  lemma {:induction false} AlongSame(before: map<int, OperatorState>, after: map<int, OperatorState>,
                                     m: seq<Seat>, todo: seq<SeatWrite>)
    requires before.Keys == after.Keys
    requires forall p | p in before ::
               before[p].service == after[p].service && before[p].matched == after[p].matched
    requires MatchingAlong(before, m, todo)
    ensures MatchingAlong(after, m, todo)
    decreases |todo|
  {
    forall i | 0 <= i < |m| ensures Matches(after, m[i]) {
      assert Matches(before, m[i]);
    }
    if todo != [] {
      AlongSame(before, after, ApplySeat(m, todo[0]), todo[1..]);
    }
  }

  // ---------- users ----------

  lemma UserSeatWrites(s: State, u: int, ua: UserAct)
    requires u in s.users
    ensures var e := UserEffect(s, u, ua);
            e.seats.Owes? ==> e.seats.writes == [] || exists i, st :: e.seats.writes == [SetUser(i, st)]
  {
  }

  lemma UserKeepsStations(c: Config, s: State, s': State, u: int, ua: UserAct)
    requires StationInv(c, s) && UserMove(c, s, s', u, ua)
    ensures StationInv(c, s')
  {
    var e := UserEffect(s, u, ua);
    UserSeatWrites(s, u, ua);
    if e.seats.Owes? && e.seats.writes != [] {
      var i, st :| e.seats.writes == [SetUser(i, st)];
      Run1(ApplySeat, s.seats.view, SetUser(i, st));
      UserColumnOnly(s.operators, s.seats.view, i, st);
    }
    SameOperators(c, s, s', TheUser(u), e.seats);
  }

  lemma UserColumnOnly(operators: map<int, OperatorState>, m: seq<Seat>, i: int, st: Status)
    requires Registered(operators, m) && Matching(operators, m)
    ensures Registered(operators, ApplySeat(m, SetUser(i, st)))
    ensures MatchingAlong(operators, m, [SetUser(i, st)])
  {
    var m' := ApplySeat(m, SetUser(i, st));
    forall j | 0 <= j < |m'| ensures SeatRegistered(operators, m'[j], j) && Matches(operators, m'[j]) {
      assert SeatRegistered(operators, m[j], j) && Matches(operators, m[j]);
    }
    Along1(operators, m, SetUser(i, st));
  }

  lemma SameOperators(c: Config, s: State, s': State, who: Proc, section: Section<SeatWrite>)
    requires StationInv(c, s) && s'.operators == s.operators
    requires s'.seats == Into(ApplySeat, s.seats, who, section)
    requires section.Owes? ==> s.seats.inside.Keys == {} && s.seats.mem == s.seats.view
    requires section.Owes? ==> MatchingAlong(s.operators, s.seats.mem, section.writes)
    requires Registered(s.operators, s'.seats.view)
    ensures StationInv(c, s')
  {
    if section.Owes? {
      RunKeepsLength(s.seats.view, section.writes);
    }
  }

  // ---------- operators ----------

  /** A step by which the operator neither takes nor releases a seat. */
  lemma OperatorWalks(c: Config, s: State, s': State, p: int)
    requires StationInv(c, s) && p in s.operators && p in s'.operators
    requires s'.operators == s.operators[p := s'.operators[p]] && s'.seats.view == s.seats.view
    requires s'.seats.mem == s.seats.mem
    requires forall q | q in s'.seats.inside ::
               (q in s.seats.inside && s'.seats.inside[q] == s.seats.inside[q]) || s'.seats.inside[q] == []
    requires s'.operators[p].service == s.operators[p].service
    requires s'.operators[p].matched == s.operators[p].matched
    requires AtSeat(s.operators[p]) ==> AtSeat(s'.operators[p]) && s'.operators[p].seat == s.operators[p].seat
    requires SeatKnown(c, s'.operators[p])
    ensures StationInv(c, s')
  {
    forall i | 0 <= i < |s.seats.view| ensures SeatRegistered(s'.operators, s.seats.view[i], i) {
      assert SeatRegistered(s.operators, s.seats.view[i], i);
    }
    AlongSame(s.operators, s'.operators, s.seats.mem, []);
    forall q | q in s'.seats.inside ensures MatchingAlong(s'.operators, s'.seats.mem, s'.seats.inside[q]) {
      if s'.seats.inside[q] != [] {
        AlongSame(s.operators, s'.operators, s.seats.mem, s.seats.inside[q]);
      }
    }
  }

  /** An operator that sat nowhere sits down, possibly at a seat that another still believes to hold. */
  lemma OperatorSits(c: Config, s: State, s': State, p: int, i: int)
    requires StationInv(c, s) && p in s.operators && p in s'.operators && 0 <= i < c.numSeats
    requires s.seats.inside.Keys == {} && s.seats.mem == s.seats.view
    requires s'.operators == s.operators[p := s'.operators[p]]
    requires s'.seats == Into(ApplySeat, s.seats, TheOperator(p), Owes(TakeWrites(i, p)))
    requires !AtSeat(s.operators[p]) && AtSeat(s'.operators[p]) && s'.operators[p].seat == i
    requires s'.operators[p].service == s.operators[p].service
    requires s'.operators[p].matched ==> s.seats.mem[i].service == s.operators[p].service
    ensures StationInv(c, s')
  {
    var m := s.seats.view;
    RunTake(m, i, p);
    forall j | 0 <= j < |m| ensures SeatRegistered(s'.operators, s'.seats.view[j], j)
                                  && Matches(s'.operators, m[j]) && Matches(s'.operators, s'.seats.view[j]) {
      assert SeatRegistered(s.operators, m[j], j) && Matches(s.operators, m[j]);
    }
    var m1 := ApplySeat(m, SetProcess(i, p));
    assert Matching(s'.operators, m1);
    Along2(s'.operators, m, SetProcess(i, p), SetOperator(i, OCCUPIED));
  }

  lemma OperatorStands(c: Config, s: State, s': State, p: int)
    requires StationInv(c, s) && p in s.operators && p in s'.operators && AtSeat(s.operators[p])
    requires s.seats.inside.Keys == {} && s.seats.mem == s.seats.view
    requires s'.operators == s.operators[p := s'.operators[p]]
    requires s'.seats == Into(ApplySeat, s.seats, TheOperator(p), Owes(ReleaseWrites(s.operators[p].seat)))
    requires s'.operators[p].service == s.operators[p].service
    requires s'.operators[p].matched == s.operators[p].matched
    requires SeatKnown(c, s'.operators[p])
    ensures StationInv(c, s')
  {
    var m, i := s.seats.view, s.operators[p].seat;
    assert SeatKnown(c, s.operators[p]);
    RunRelease(m, i);
    forall j | 0 <= j < |m| ensures SeatRegistered(s'.operators, s'.seats.view[j], j)
                                  && Matches(s'.operators, m[j]) && Matches(s'.operators, s'.seats.view[j]) {
      assert SeatRegistered(s.operators, m[j], j) && Matches(s.operators, m[j]);
    }
    var m1 := ApplySeat(m, SetOperator(i, FREE));
    assert Matching(s'.operators, m1);
    Along2(s'.operators, m, SetOperator(i, FREE), SetProcess(i, 0));
  }

  /** A day of the seat table that a search may have seen: never the one that is only being prepared. */
  predicate Seen(s: State, d: int) {
    if Resetting(s) then d < s.hist.seatDay else d <= s.hist.seatDay
  }

  /** A seat found without the lock still offers the service sought, unless a reset came between. */
  ghost predicate ScanFits(c: Config, s: State, y: OperatorState) {
    && Seen(s, y.foundDay)
    && (y.pc == TakeFound && y.foundDay == s.hist.seatDay ==>
          0 <= y.seat < |s.seats.mem| && s.seats.mem[y.seat].service == y.service)
  }

  lemma OperatorLocal(c: Config, s: State, p: int, oa: OperatorAct)
    requires p in s.operators && OperatorEnabled(c, s, p, oa) && |s.seats.mem| == c.numSeats
    requires SeatKnown(c, s.operators[p])
    requires !oa.OFirstSearch? && !oa.OTakeFound? && !oa.ORelease?
    requires oa.OPollRequest? ==> oa.m.body.ServiceRequest?
    ensures var y, y' := s.operators[p], OperatorNext(c, s, p, oa);
            && y'.service == y.service && y'.matched == y.matched
            && (AtSeat(y) ==> AtSeat(y') && y'.seat == y.seat)
            && SeatKnown(c, y')
    ensures OperatorEffect(c, s, p, oa).seats.Outside?
  {
  }

  lemma OperatorStaysPut(c: Config, s: State, s': State, p: int, oa: OperatorAct)
    requires StationInv(c, s) && OperatorMove(c, s, s', p, oa) && ScanFits(c, s, s.operators[p])
    requires oa.OPollRequest? ==> oa.m.body.ServiceRequest?
    requires !oa.OFirstSearch? && !oa.OTakeFound? && !oa.ORelease?
    ensures StationInv(c, s')
  {
    assert SeatKnown(c, s.operators[p]);
    OperatorLocal(c, s, p, oa);
    OperatorWalks(c, s, s', p);
  }

  lemma FirstSearchKeepsStations(c: Config, s: State, s': State, p: int)
    requires StationInv(c, s) && OperatorMove(c, s, s', p, OFirstSearch)
    ensures StationInv(c, s')
  {
    var i := FindSeat(s.seats.mem, s.operators[p].service);
    if i == -1 {
      OperatorWalks(c, s, s', p);
    } else {
      OperatorSits(c, s, s', p, i);
    }
  }

  lemma OperatorKeepsStations(c: Config, s: State, s': State, p: int, oa: OperatorAct)
    requires StationInv(c, s) && OperatorMove(c, s, s', p, oa) && ScanFits(c, s, s.operators[p])
    requires oa.OPollRequest? ==> oa.m.body.ServiceRequest?
    ensures StationInv(c, s')
  {
    var y := s.operators[p];
    assert SeatKnown(c, y);
    match oa
    case OFirstSearch => FirstSearchKeepsStations(c, s, s', p);
    case OTakeFound => OperatorSits(c, s, s', p, y.seat);
    case ORelease => OperatorStands(c, s, s', p);
    case _ => OperatorStaysPut(c, s, s', p, oa);
  }

  // ---------- director, sections ----------

  lemma DirectorKeepsStations(c: Config, s: State, s': State, xa: DirectorAct)
    requires StationInv(c, s) && DirectorMove(c, s, s', xa)
    ensures StationInv(c, s')
  {
    var e := DirectorEffect(s, xa);
    if xa.XResetSeats? {
      RunReset(s.seats.view, xa.services, 0);
      AlongReset(s.operators, s.seats.mem, xa.services, 0);
      assert s'.seats.view == Cleared(xa.services);
    }
    SameOperators(c, s, s', TheDirector, e.seats);
  }

  lemma SectionKeepsStations(c: Config, s: State, s': State, a: Action)
    requires StationInv(c, s) && SectionMove(s, s', a) && LockInv(c, s)
    ensures StationInv(c, s')
  {
    if a.SeatStep? {
      SemaphoreCountsHolders(ApplySeat, s.seats);
      assert MatchingAlong(s.operators, s.seats.mem, s.seats.inside[a.who]);
      SoleWriter(c, s, s', a.who);
    }
  }

  lemma SoleWriter(c: Config, s: State, s': State, p: Proc)
    requires StationInv(c, s) && p in s.seats.inside && s.seats.inside[p] != []
    requires s' == s.(seats := WriteNext(ApplySeat, s.seats, p))
    requires forall q | q in s.seats.inside :: q == p
    ensures StationInv(c, s')
  {
    var todo := s.seats.inside[p];
    assert MatchingAlong(s.operators, s.seats.mem, todo);
    assert MatchingAlong(s.operators, ApplySeat(s.seats.mem, todo[0]), todo[1..]);
  }

  lemma StationsPreserved(c: Config, s: State, s': State, a: Action)
    requires StationInv(c, s) && Moved(c, s, s', a) && LockInv(c, s) && SessionInv(s)
    requires forall p | p in s.operators :: ScanFits(c, s, s.operators[p])
    ensures StationInv(c, s')
  {
    match a
    case UserStep(u, ua) => UserKeepsStations(c, s, s', u, ua);
    case OperatorStep(p, oa) =>
      if oa.OPollRequest? {
        ReceivedByServer(s, oa.m);
      }
      OperatorKeepsStations(c, s, s', p, oa);
    case DispenserStep(da) => SameOperators(c, s, s', TheDirector, Outside);
    case DirectorStep(xa) => DirectorKeepsStations(c, s, s', xa);
    case _ => SectionKeepsStations(c, s, s', a);
  }
}
