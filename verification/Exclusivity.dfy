/**
 When an operator, or a user, has its seat to itself. The waiting path takes a seat found
 earlier without looking again, and a reset frees seats at which somebody still is, so
 exclusivity can be lost; these lemmas say exactly when, for steps and for whole runs.
 */
module Exclusivity {
  import opened Settings
  import opened SharedRecord
  import opened Statistics
  import opened Seats
  import opened Protocol
  import opened Locks
  import opened Moves
  import opened Sessions
  import opened Stations
  import opened Agreement
  import opened Places
  import opened Paths
  import opened Runs

  /** Every operator at a seat is the one that the seat names. */
  ghost predicate Faithful(operators: map<int, OperatorState>, m: seq<Seat>) {
    forall p | p in operators && AtSeat(operators[p]) :: ProcessAt(m, operators[p].seat) == p
  }

  /** No two operators believe they hold one seat. */
  ghost predicate OneEach(operators: map<int, OperatorState>) {
    forall p, q | p in operators && q in operators && p != q && AtSeat(operators[p]) && AtSeat(operators[q]) ::
      operators[p].seat != operators[q].seat
  }

  lemma FaithfulMeansOneEach(operators: map<int, OperatorState>, m: seq<Seat>)
    requires Faithful(operators, m)
    ensures OneEach(operators)
  {
    forall p, q | p in operators && q in operators && p != q && AtSeat(operators[p]) && AtSeat(operators[q])
      ensures operators[p].seat != operators[q].seat
    {
      assert ProcessAt(m, operators[p].seat) == p;
    }
  }

  predicate SomebodyAtSeat(operators: map<int, OperatorState>) {
    exists p | p in operators :: AtSeat(operators[p])
  }

  /** The two steps by which an operator can come to hold a seat that names somebody else, or nobody. */
  ghost predicate Overtakes(s: State, a: Action) {
    match a
    case OperatorStep(p, OTakeFound) =>
      p in s.operators && 0 <= s.operators[p].seat < |s.seats.mem|
      && s.seats.mem[s.operators[p].seat].operator == OCCUPIED
    case DirectorStep(XResetSeats(_)) => SomebodyAtSeat(s.operators)
    case _ => false
  }

  lemma SitsDown(c: Config, s: State, s': State, p: int, i: int)
    requires StationInv(c, s) && Faithful(s.operators, s.seats.view) && p in s.operators && p in s'.operators
    requires 0 <= i < c.numSeats && p > 0
    requires s'.operators == s.operators[p := s'.operators[p]]
    requires s'.seats.view == Run(ApplySeat, s.seats.view, TakeWrites(i, p))
    requires !AtSeat(s.operators[p]) && AtSeat(s'.operators[p]) && s'.operators[p].seat == i
    ensures Faithful(s'.operators, s'.seats.view) <==> s.seats.view[i].operator == FREE
    ensures OneEach(s'.operators) <==> s.seats.view[i].operator == FREE
  {
    var m := s.seats.view;
    RunTake(m, i, p);
    assert SeatRegistered(s.operators, m[i], i);
    if m[i].operator == FREE {
      forall q | q in s'.operators && AtSeat(s'.operators[q])
        ensures ProcessAt(s'.seats.view, s'.operators[q].seat) == q
      {
        assert q != p ==> ProcessAt(m, s.operators[q].seat) == q && q > 0;
      }
      FaithfulMeansOneEach(s'.operators, s'.seats.view);
    } else {
      var q := m[i].process;
      assert q in s'.operators && q != p && AtSeat(s'.operators[q]) && s'.operators[q].seat == i;
      assert ProcessAt(s'.seats.view, s'.operators[q].seat) == p;
    }
  }

  lemma StandsUp(c: Config, s: State, s': State, p: int)
    requires StationInv(c, s) && Faithful(s.operators, s.seats.view) && p in s.operators && p in s'.operators
    requires AtSeat(s.operators[p]) && !AtSeat(s'.operators[p])
    requires s'.operators == s.operators[p := s'.operators[p]]
    requires s'.seats.view == Run(ApplySeat, s.seats.view, ReleaseWrites(s.operators[p].seat))
    ensures Faithful(s'.operators, s'.seats.view)
  {
    var m, i := s.seats.view, s.operators[p].seat;
    assert SeatKnown(c, s.operators[p]);
    RunRelease(m, i);
    forall q | q in s'.operators && AtSeat(s'.operators[q])
      ensures ProcessAt(s'.seats.view, s'.operators[q].seat) == q
    {
      assert ProcessAt(m, s.operators[q].seat) == q;
    }
  }

  lemma Walks(c: Config, s: State, p: int, oa: OperatorAct)
    requires p in s.operators && OperatorEnabled(c, s, p, oa)
    requires !oa.OFirstSearch? && !oa.OTakeFound? && !oa.ORelease?
    ensures var y, y' := s.operators[p], OperatorNext(c, s, p, oa);
            AtSeat(y') ==> AtSeat(y) && y'.seat == y.seat
    ensures OperatorEffect(c, s, p, oa).seats.Outside?
  {
  }

  lemma OperatorStaysFaithful(c: Config, s: State, s': State, p: int, oa: OperatorAct)
    requires StationInv(c, s) && OperatorMove(c, s, s', p, oa) && Faithful(s.operators, s.seats.view)
    ensures Faithful(s'.operators, s'.seats.view) <==> !Overtakes(s, OperatorStep(p, oa))
    ensures oa == OTakeFound ==> (OneEach(s'.operators) <==> !Overtakes(s, OperatorStep(p, oa)))
  {
    var y := s.operators[p];
    assert SeatKnown(c, y);
    match oa
    case OFirstSearch =>
      var i := FindSeat(s.seats.mem, y.service);
      if i != -1 {
        SitsDown(c, s, s', p, i);
      }
    case OTakeFound => SitsDown(c, s, s', p, y.seat);
    case ORelease => StandsUp(c, s, s', p);
    case _ => Walks(c, s, p, oa);
  }

  lemma UserKeepsProcesses(s: State, s': State, u: int, ua: UserAct)
    requires u in s.users && s'.seats.view == After(s.seats.view, UserEffect(s, u, ua).seats)
    ensures forall i :: ProcessAt(s'.seats.view, i) == ProcessAt(s.seats.view, i)
  {
    UserSeatWrites(s, u, ua);
    var e := UserEffect(s, u, ua);
    if e.seats.Owes? && e.seats.writes != [] {
      var i, st :| e.seats.writes == [SetUser(i, st)];
      Run1(ApplySeat, s.seats.view, SetUser(i, st));
    }
  }

  lemma DirectorStaysFaithful(c: Config, s: State, s': State, xa: DirectorAct)
    requires StationInv(c, s) && DirectorMove(c, s, s', xa) && Faithful(s.operators, s.seats.view)
    ensures Faithful(s'.operators, s'.seats.view) <==> !Overtakes(s, DirectorStep(xa))
  {
    if xa.XResetSeats? {
      RunReset(s.seats.view, xa.services, 0);
      assert s'.seats.view == Cleared(xa.services);
      if p :| p in s.operators && AtSeat(s.operators[p]) {
        assert p > 0 && ProcessAt(s'.seats.view, s.operators[p].seat) == 0;
      }
    }
  }

  lemma UserStaysFaithful(c: Config, s: State, s': State, u: int, ua: UserAct)
    requires UserMove(c, s, s', u, ua) && Faithful(s.operators, s.seats.view)
    ensures Faithful(s'.operators, s'.seats.view)
  {
    UserKeepsProcesses(s, s', u, ua);
  }

  lemma MoveStaysFaithful(c: Config, s: State, s': State, a: Action)
    requires StationInv(c, s) && Moved(c, s, s', a) && Faithful(s.operators, s.seats.view)
    ensures Faithful(s'.operators, s'.seats.view) <==> !Overtakes(s, a)
  {
    match a
    case UserStep(u, ua) => UserStaysFaithful(c, s, s', u, ua);
    case OperatorStep(p, oa) => OperatorStaysFaithful(c, s, s', p, oa);
    case DirectorStep(xa) => DirectorStaysFaithful(c, s, s', xa);
    case _ =>
  }

  /**
   In a state with the lock and register invariants, which every reachable state has,
   let every operator at a seat be the one named there. A step keeps this so exactly when
   it neither takes an occupied seat nor resets the seats under somebody at work.
   */
  lemma FaithfulnessExactly(c: Config, s: State, a: Action)
    requires LockInv(c, s) && StationInv(c, s) && Enabled(c, s, a) && Faithful(s.operators, s.seats.view)
    ensures var s' := Apply(c, s, a);
            Faithful(s'.operators, s'.seats.view) <==> !Overtakes(s, a)
  {
    StepsAreAtomic(c, s, a);
    MoveStaysFaithful(c, s, Apply(c, s, a), a);
  }

  /**
   Taking the seat found while waiting leaves each operator a seat of its own iff the
   seat is still FREE at that moment: the check that the program does not make.
   */
  lemma TakingFoundSeat(c: Config, s: State, p: int)
    requires LockInv(c, s) && StationInv(c, s) && Enabled(c, s, OperatorStep(p, OTakeFound))
    requires Faithful(s.operators, s.seats.view)
    ensures OneEach(Apply(c, s, OperatorStep(p, OTakeFound)).operators)
       <==> s.seats.mem[s.operators[p].seat].operator == FREE
  {
    StepsAreAtomic(c, s, OperatorStep(p, OTakeFound));
    OperatorStaysFaithful(c, s, Apply(c, s, OperatorStep(p, OTakeFound)), p, OTakeFound);
    assert SeatKnown(c, s.operators[p]);
  }

  // ---------- operators, over whole runs ----------

  lemma FaithfulStep(c: Config, states: seq<State>, actions: seq<Action>, i: nat)
    requires Execution(c, states, actions) && i < |actions|
    requires Faithful(states[i].operators, states[i].seats.view)
    ensures Faithful(states[i + 1].operators, states[i + 1].seats.view) <==> !Overtakes(states[i], actions[i])
  {
    InvAlways(c, states, actions, i);
    FaithfulnessExactly(c, states[i], actions[i]);
  }

  /**
   A whole run: every operator at a seat is the one named there, in every state, iff no
   step of the run takes an occupied seat found earlier or resets the seats while some
   operator is at one.
   */
  lemma FaithfulRuns(c: Config, states: seq<State>, actions: seq<Action>)
    requires Execution(c, states, actions)
    ensures (forall i | 0 <= i < |states| :: Faithful(states[i].operators, states[i].seats.view))
       <==> (forall i | 0 <= i < |actions| :: !Overtakes(states[i], actions[i]))
  {
    var holds := seq(|states|, (i: int) requires 0 <= i < |states| =>
                                 Faithful(states[i].operators, states[i].seats.view));
    var bad := seq(|actions|, (i: int) requires 0 <= i < |actions| => Overtakes(states[i], actions[i]));
    forall i | 0 <= i < |bad| && holds[i] ensures holds[i + 1] <==> !bad[i] {
      FaithfulStep(c, states, actions, i);
    }
    KeptExactly(holds, bad);
    assert forall i | 0 <= i < |states| :: holds[i] == Faithful(states[i].operators, states[i].seats.view);
    assert forall i | 0 <= i < |actions| :: bad[i] == Overtakes(states[i], actions[i]);
  }

  /** In such a run no two operators ever hold one seat. */
  lemma OneEachThroughout(c: Config, states: seq<State>, actions: seq<Action>, i: nat)
    requires Execution(c, states, actions) && i < |states|
    requires forall k | 0 <= k < |actions| :: !Overtakes(states[k], actions[k])
    ensures OneEach(states[i].operators)
  {
    FaithfulRuns(c, states, actions);
    FaithfulMeansOneEach(states[i].operators, states[i].seats.view);
  }

  // ---------- users ----------

  /** The one step by which users can come to share a seat. */
  predicate FreesUnder(s: State, a: Action) {
    IsReset(a) && SomebodySits(s.users)
  }

  lemma ResetShares(c: Config, s: State, s': State, xa: DirectorAct)
    requires LockInv(c, s) && AgreeInv(c, s) && DirectorMove(c, s, s', xa) && xa.XResetSeats?
    ensures ExclusiveIn(s') <==> !SomebodySits(s.users)
  {
    ResetPlaces(c, s, s', xa);
    if u :| u in s.users && Sitting(s.users[u]) {
      assert SearchFits(c, s, s.users[u]);
      assert !SeatTaken(s'.seats.view, s'.users[u].visit.seat);
    }
  }

  /**
   In a state with the invariants of every reachable state, let every user have its seat
   to itself and every seat in use, or left behind, be marked as taken. A step keeps this
   exactly when it is not a reset of the seats while somebody sits.
   */
  lemma SharingExactly(c: Config, s: State, a: Action)
    requires LockInv(c, s) && SessionInv(s) && AgreeInv(c, s) && Enabled(c, s, a) && ExclusiveIn(s)
    ensures ExclusiveIn(Apply(c, s, a)) <==> !FreesUnder(s, a)
  {
    StepsAreAtomic(c, s, a);
    if IsReset(a) {
      ResetShares(c, s, Apply(c, s, a), a.xa);
    } else {
      MoveKeepsPlaces(c, s, Apply(c, s, a), a);
    }
  }

  lemma SharingStep(c: Config, states: seq<State>, actions: seq<Action>, i: nat)
    requires Execution(c, states, actions) && i < |actions| && ExclusiveIn(states[i])
    ensures ExclusiveIn(states[i + 1]) <==> !FreesUnder(states[i], actions[i])
  {
    InvAlways(c, states, actions, i);
    SharingExactly(c, states[i], actions[i]);
  }

  /** A whole run: users have their seats to themselves in every state iff no reset comes while somebody sits. */
  lemma UnsharedRuns(c: Config, states: seq<State>, actions: seq<Action>)
    requires Execution(c, states, actions)
    ensures (forall i | 0 <= i < |states| :: ExclusiveIn(states[i]))
       <==> (forall i | 0 <= i < |actions| :: !FreesUnder(states[i], actions[i]))
  {
    var holds := seq(|states|, (i: int) requires 0 <= i < |states| => ExclusiveIn(states[i]));
    var bad := seq(|actions|, (i: int) requires 0 <= i < |actions| => FreesUnder(states[i], actions[i]));
    forall i | 0 <= i < |bad| && holds[i] ensures holds[i + 1] <==> !bad[i] {
      SharingStep(c, states, actions, i);
    }
    KeptExactly(holds, bad);
    assert forall i | 0 <= i < |states| :: holds[i] == ExclusiveIn(states[i]);
    assert forall i | 0 <= i < |actions| :: bad[i] == FreesUnder(states[i], actions[i]);
  }
}
