/**
 No seat is kept occupied for nobody: in every run, resets or not, a seat whose user
 status is OCCUPIED has a user sitting there, or one that left it behind since the last
 reset.
 */
module Vacancies {
  import opened Settings
  import opened SharedRecord
  import opened Statistics
  import opened Seats
  import opened Protocol
  import opened Locks
  import opened Moves
  import opened Sessions
  import opened Stations
  import opened Agreement
  import opened Places
  import opened Runs
  import opened Chronicle
  import opened Theorems

  predicate UsedAt(users: map<int, UserState>, i: int) {
    exists u | u in users :: Sitting(users[u]) && users[u].visit.seat == i
  }

  /** Each seat that is OCCUPIED for users is in use or was left behind. */
  ghost predicate Marked(users: map<int, UserState>, m: seq<Seat>, abandoned: set<int>) {
    forall i | 0 <= i < |m| && m[i].user == OCCUPIED :: i in abandoned || UsedAt(users, i)
  }

  ghost predicate MarkedIn(s: State) {
    Marked(s.users, s.seats.view, s.hist.abandoned)
  }

  /** Users keep their seats, and the user column is as it was. */
  lemma StillMarked(s: State, s': State)
    requires MarkedIn(s)
    requires s.users.Keys <= s'.users.Keys && forall u | u in s.users :: SamePlace(s.users[u], s'.users[u])
    requires |s'.seats.view| == |s.seats.view|
    requires forall j | 0 <= j < |s.seats.view| :: s'.seats.view[j].user == s.seats.view[j].user
    requires s'.hist.abandoned == s.hist.abandoned
    ensures MarkedIn(s')
  {
    forall i | 0 <= i < |s'.seats.view| && s'.seats.view[i].user == OCCUPIED && i !in s'.hist.abandoned
      ensures UsedAt(s'.users, i)
    {
      var u :| u in s.users && Sitting(s.users[u]) && s.users[u].visit.seat == i;
      assert SamePlace(s.users[u], s'.users[u]);
      assert Sitting(s'.users[u]);
    }
  }

  lemma UserLeavesMarked(s: State, s': State, u: int, e: Effect, ch: PlaceChange)
    requires u in s.users && u in s'.users && s'.users == s.users[u := s'.users[u]]
    requires UserPlaced(s, s.users[u], s'.users[u], e, ch)
    requires s'.seats.view == Moves.After(s.seats.view, e.seats) && s'.hist == e.hist
    requires MarkedIn(s)
    ensures MarkedIn(s')
  {
    var x, x' := s.users[u], s'.users[u];
    UserColumn(s.seats.view, e.seats, if ch.Frees? then x.visit.seat else x'.visit.seat,
               if ch.Frees? then FREE else OCCUPIED);
    forall i | 0 <= i < |s'.seats.view| && s'.seats.view[i].user == OCCUPIED && i !in s'.hist.abandoned
      ensures UsedAt(s'.users, i)
    {
      if Sitting(x') && x'.visit.seat == i {
        assert s'.users[u] == x';
      } else {
        var w :| w in s.users && Sitting(s.users[w]) && s.users[w].visit.seat == i;
        assert w != u && s'.users[w] == s.users[w];
      }
    }
  }

  lemma UserKeepsMarked(c: Config, s: State, s': State, u: int, ua: UserAct)
    requires SessionInv(s) && UserMove(c, s, s', u, ua) && MarkedIn(s)
    ensures MarkedIn(s')
  {
    assert UserFits(s.operators.Keys, s.users[u]);
    if ua.UGetTicket? || ua.UGetDone? {
      ReceivedByUser(s, u, ua.m);
    }
    UserChangesPlace(c, s, u, ua);
    UserLeavesMarked(s, s', u, UserEffect(s, u, ua), PlaceChangeOf(s, s.users[u], ua));
  }

  lemma OperatorKeepsMarked(c: Config, s: State, s': State, p: int, oa: OperatorAct)
    requires OperatorMove(c, s, s', p, oa) && MarkedIn(s)
    ensures MarkedIn(s')
  {
    OperatorKeepsUserColumn(c, s, p, oa);
    OperatorTouchesItems(c, s, p, oa);
    var e := OperatorEffect(c, s, p, oa);
    if e.seats.Owes? && e.seats.writes != [] {
      if i :| e.seats.writes == TakeWrites(i, p) {
        OtherColumns(s.seats.view, i, p);
      } else {
        var i :| e.seats.writes == ReleaseWrites(i);
        OtherColumns(s.seats.view, i, p);
      }
    }
    StillMarked(s, s');
  }

  lemma DirectorKeepsMarked(c: Config, s: State, s': State, xa: DirectorAct)
    requires LockInv(c, s) && SessionInv(s) && DirectorMove(c, s, s', xa) && MarkedIn(s)
    requires xa.XResetSeats? ==> |s.seats.view| == |xa.services|
    ensures MarkedIn(s')
  {
    if xa.XResetSeats? {
      RunReset(s.seats.view, xa.services, 0);
    } else {
      DirectorUsersAre(c, s, xa);
      DirectorKeepsSeats(s, xa);
      StillMarked(s, s');
    }
  }

  lemma DispenserKeepsMarked(s: State, s': State, da: DispenserAct)
    requires DispenserMove(s, s', da) && MarkedIn(s)
    ensures MarkedIn(s')
  {
    StillMarked(s, s');
  }

  lemma MoveKeepsMarked(c: Config, s: State, s': State, a: Action)
    requires LockInv(c, s) && SessionInv(s) && Moved(c, s, s', a) && MarkedIn(s)
    ensures MarkedIn(s')
  {
    match a
    case UserStep(u, ua) => UserKeepsMarked(c, s, s', u, ua);
    case OperatorStep(p, oa) => OperatorKeepsMarked(c, s, s', p, oa);
    case DispenserStep(da) => DispenserKeepsMarked(s, s', da);
    case DirectorStep(xa) => DirectorKeepsMarked(c, s, s', xa);
    case _ =>
  }

  lemma {:induction false} MarkedThroughout(c: Config, states: seq<State>, actions: seq<Action>, n: nat)
    requires Execution(c, states, actions) && n < |states|
    ensures MarkedIn(states[n])
  {
    if n > 0 {
      MarkedThroughout(c, states, actions, n - 1);
      StepOfRun(c, states, actions, n - 1);
      MoveKeepsMarked(c, states[n - 1], states[n], actions[n - 1]);
    }
  }

  /** In every run: a seat OCCUPIED for users, once stations_lock is free, is in use or was left behind. */
  lemma OccupiedForSomebody(c: Config, s: State, i: int)
    requires Reachable(c, s) && s.seats.sem > 0
    requires 0 <= i < |s.seats.mem| && s.seats.mem[i].user == OCCUPIED && i !in s.hist.abandoned
    ensures UsedAt(s.users, i)
  {
    var states, actions, n :| Execution(c, states, actions) && 0 <= n < |states| && states[n] == s;
    MarkedThroughout(c, states, actions, n);
    ReachableInv(c, s);
    FreeMeansSettled(c, s);
  }

  /**
   On a day that began with nobody sitting, whenever stations_lock is free, the seats
   OCCUPIED for users are exactly those in use and those left behind.
   */
  lemma OccupiedExactly(c: Config, s: State, i: int)
    requires Reachable(c, s) && s.hist.calm && s.seats.sem > 0 && 0 <= i < |s.seats.mem|
    ensures s.seats.mem[i].user == OCCUPIED <==> i in s.hist.abandoned || UsedAt(s.users, i)
  {
    if s.seats.mem[i].user == OCCUPIED && i !in s.hist.abandoned {
      OccupiedForSomebody(c, s, i);
    }
    if i in s.hist.abandoned {
      AbandonedSeatsStayTaken(c, s, i);
    }
    if UsedAt(s.users, i) {
      SittersSeatsAreTaken(c, s);
    }
  }
}
