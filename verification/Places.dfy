/**
 Users at the seats. From a seat reset at which nobody sits, until the next reset, no
 two users sit at one seat, a seat whose user status is FREE has nobody sitting at
 it, and a seat left behind by a user who went away stays OCCUPIED.
 */
module Places {
  import opened Settings
  import opened SharedRecord
  import opened Statistics
  import opened Seats
  import opened Protocol
  import opened Locks
  import opened Moves
  import opened Sessions
  import opened Stations
  import opened Agreement

  predicate SeatTaken(m: seq<Seat>, i: int) {
    0 <= i < |m| ==> m[i].user == OCCUPIED
  }

  ghost predicate Exclusive(users: map<int, UserState>, m: seq<Seat>, abandoned: set<int>) {
    && (forall u, w | u in users && w in users && u != w && Sitting(users[u]) && Sitting(users[w]) ::
          users[u].visit.seat != users[w].visit.seat)
    && (forall u | u in users && Sitting(users[u]) ::
          SeatTaken(m, users[u].visit.seat) && users[u].visit.seat !in abandoned)
    && (forall i | i in abandoned :: SeatTaken(m, i))
  }

  ghost predicate ExclusiveIn(s: State) {
    Exclusive(s.users, s.seats.view, s.hist.abandoned)
  }

  ghost predicate PlaceInv(s: State) {
    s.hist.calm ==> ExclusiveIn(s)
  }

  lemma PlacesInitially(c: Config, s: State)
    requires Init(c, s)
    ensures PlaceInv(s)
  {
  }

  /** What a user's step does to its own place. */
  datatype PlaceChange = Stays | Sits(i: int) | Frees | GoesAway

  function PlaceChangeOf(s: State, x: UserState, ua: UserAct): PlaceChange {
    match ua
    case UTrySeat =>
      var i := FirstOffered(s.seats.mem, x.visit.valid);
      if i == -1 then Stays else Sits(i)
    case USendRequest(sent) => if sent then Stays else GoesAway
    case USeeLate => GoesAway
    case UFreeSeat => Frees
    case _ => Stays
  }

  ghost predicate UserPlaced(s: State, x: UserState, x': UserState, e: Effect, ch: PlaceChange) {
    match ch
    case Stays =>
      && Sitting(x') == Sitting(x) && x'.visit.seat == x.visit.seat && e.hist.abandoned == s.hist.abandoned
      && (e.seats.Owes? ==> e.seats.writes == [])
    case Sits(i) =>
      && !Sitting(x) && Sitting(x') && x'.visit.seat == i && Offered(s.seats.mem, i)
      && e.hist.abandoned == s.hist.abandoned && e.seats == Owes([SetUser(i, OCCUPIED)])
    case Frees =>
      && Sitting(x) && !Sitting(x') && x'.visit.seat == x.visit.seat
      && e.hist.abandoned == s.hist.abandoned && e.seats == Owes([SetUser(x.visit.seat, FREE)])
    case GoesAway =>
      && Sitting(x) && !Sitting(x') && e.hist.abandoned == s.hist.abandoned + {x.visit.seat} && e.seats.Outside?
  }

  predicate MovesPlace(ua: UserAct) {
    ua == UTrySeat || ua.USendRequest? || ua == USeeLate || ua == UFreeSeat
  }

  lemma UserChangesPlace(c: Config, s: State, u: int, ua: UserAct)
    requires u in s.users && UserEnabled(c, s, u, ua) && Expects(s.users[u], ua)
    requires PcFits(s.operators.Keys, s.users[u])
    ensures UserPlaced(s, s.users[u], UserNext(c, s, u, ua), UserEffect(s, u, ua), PlaceChangeOf(s, s.users[u], ua))
    ensures UserEffect(s, u, ua).hist.calm == s.hist.calm
  {
    if ua == UTrySeat {
      UserSits(c, s, u);
    } else if MovesPlace(ua) {
      UserRises(c, s, u, ua);
    } else {
      UserStaysPut(c, s, u, ua);
      EffectStaysPut(s, u, ua);
    }
  }

  lemma UserRises(c: Config, s: State, u: int, ua: UserAct)
    requires u in s.users && UserEnabled(c, s, u, ua) && (ua.USendRequest? || ua == USeeLate || ua == UFreeSeat)
    ensures UserPlaced(s, s.users[u], UserNext(c, s, u, ua), UserEffect(s, u, ua), PlaceChangeOf(s, s.users[u], ua))
    ensures UserEffect(s, u, ua).hist.calm == s.hist.calm
  {
    match ua
    case USendRequest(sent) =>
    case USeeLate =>
    case UFreeSeat =>
  }

  lemma UserSits(c: Config, s: State, u: int)
    requires u in s.users && s.users[u].pc == TrySeat
    ensures UserPlaced(s, s.users[u], UserNext(c, s, u, UTrySeat), UserEffect(s, u, UTrySeat),
                       PlaceChangeOf(s, s.users[u], UTrySeat))
  {
    var x := s.users[u];
    var i := FirstOffered(s.seats.mem, x.visit.valid);
    if i != -1 {
      var a :| 0 <= a < |x.visit.valid| && x.visit.valid[a] == i && Offered(s.seats.mem, i);
    }
  }

  lemma UserStaysPut(c: Config, s: State, u: int, ua: UserAct)
    requires u in s.users && UserEnabled(c, s, u, ua) && Expects(s.users[u], ua) && !MovesPlace(ua)
    requires PcFits(s.operators.Keys, s.users[u])
    ensures Sitting(UserNext(c, s, u, ua)) == Sitting(s.users[u])
    ensures UserNext(c, s, u, ua).visit.seat == s.users[u].visit.seat
  {
    if Early(ua) {
      StandsEarly(c, s, u, ua);
    } else {
      SitsLate(c, s, u, ua);
    }
  }

  lemma StandsEarly(c: Config, s: State, u: int, ua: UserAct)
    requires u in s.users && UserEnabled(c, s, u, ua) && Early(ua) && ua != UTrySeat
    ensures !Sitting(UserNext(c, s, u, ua)) && !Sitting(s.users[u])
    ensures UserNext(c, s, u, ua).visit.seat == s.users[u].visit.seat
  {
  }

  lemma SitsLate(c: Config, s: State, u: int, ua: UserAct)
    requires u in s.users && UserEnabled(c, s, u, ua) && Expects(s.users[u], ua) && !Early(ua) && !MovesPlace(ua)
    requires HoldsTicket(s.users[u]) ==> s.users[u].visit.ticket >= 0
    ensures Sitting(UserNext(c, s, u, ua)) == Sitting(s.users[u])
    ensures UserNext(c, s, u, ua).visit.seat == s.users[u].visit.seat
  {
  }

  predicate HistoryUntouched(s: State, e: Effect) {
    && e.hist.calm == s.hist.calm && e.hist.abandoned == s.hist.abandoned
    && (e.seats.Owes? ==> e.seats.writes == [])
  }

  lemma EarlyEffectStaysPut(s: State, u: int, ua: UserAct)
    requires u in s.users && Early(ua) && ua != UTrySeat
    ensures HistoryUntouched(s, UserEffect(s, u, ua))
  {
  }

  lemma LateEffectStaysPut(s: State, u: int, ua: UserAct)
    requires u in s.users && Expects(s.users[u], ua) && !Early(ua) && !MovesPlace(ua)
    requires ua.UGetDone? ==> s.users[u].visit.ticket >= 0
    ensures HistoryUntouched(s, UserEffect(s, u, ua))
  {
  }

  lemma EffectStaysPut(s: State, u: int, ua: UserAct)
    requires u in s.users && Expects(s.users[u], ua) && !MovesPlace(ua)
    requires ua.UGetDone? ==> s.users[u].visit.ticket >= 0
    ensures HistoryUntouched(s, UserEffect(s, u, ua))
  {
    if Early(ua) {
      EarlyEffectStaysPut(s, u, ua);
    } else {
      LateEffectStaysPut(s, u, ua);
    }
  }

  /** The user column after a section that writes one user status, or none. */
  lemma UserColumn(m: seq<Seat>, section: Section<SeatWrite>, i: int, st: Status)
    requires section.Outside? || section.writes == [] || section.writes == [SetUser(i, st)]
    ensures |After(m, section)| == |m|
    ensures forall j | 0 <= j < |m| ::
              After(m, section)[j].user
              == if section.Owes? && section.writes != [] && i == j then st else m[j].user
  {
    if section.Owes? && section.writes != [] {
      Run1(ApplySeat, m, SetUser(i, st));
    }
  }

  lemma PlaceChanges(s: State, s': State, u: int, e: Effect, ch: PlaceChange)
    requires u in s.users && u in s'.users && s'.users == s.users[u := s'.users[u]]
    requires UserPlaced(s, s.users[u], s'.users[u], e, ch)
    requires s'.seats.view == After(s.seats.view, e.seats) && s'.hist == e.hist
    requires e.seats.Owes? ==> s.seats.mem == s.seats.view
    requires ExclusiveIn(s)
    ensures ExclusiveIn(s')
  {
    var i := s'.users[u].visit.seat;
    UserColumn(s.seats.view, e.seats, if ch.Frees? then s.users[u].visit.seat else i,
               if ch.Frees? then FREE else OCCUPIED);
  }

  lemma UserKeepsPlaces(c: Config, s: State, s': State, u: int, ua: UserAct)
    requires SessionInv(s) && UserMove(c, s, s', u, ua)
    ensures s'.hist.calm == s.hist.calm && (ExclusiveIn(s) ==> ExclusiveIn(s'))
  {
    assert UserFits(s.operators.Keys, s.users[u]);
    if ua.UGetTicket? || ua.UGetDone? {
      ReceivedByUser(s, u, ua.m);
    }
    UserChangesPlace(c, s, u, ua);
    if ExclusiveIn(s) {
      PlaceChanges(s, s', u, UserEffect(s, u, ua), PlaceChangeOf(s, s.users[u], ua));
    }
  }

  lemma OperatorKeepsUserColumn(c: Config, s: State, p: int, oa: OperatorAct)
    requires p in s.operators
    ensures var e := OperatorEffect(c, s, p, oa);
            && e.hist.calm == s.hist.calm && e.hist.abandoned == s.hist.abandoned
            && (e.seats.Owes? ==>
                  || e.seats.writes == []
                  || (exists i :: e.seats.writes == TakeWrites(i, p))
                  || (exists i :: e.seats.writes == ReleaseWrites(i)))
  {
  }

  lemma OtherColumns(m: seq<Seat>, i: int, p: int)
    ensures |Run(ApplySeat, m, TakeWrites(i, p))| == |Run(ApplySeat, m, ReleaseWrites(i))| == |m|
    ensures forall j | 0 <= j < |m| ::
              Run(ApplySeat, m, TakeWrites(i, p))[j].user
              == Run(ApplySeat, m, ReleaseWrites(i))[j].user == m[j].user
  {
    Run2(ApplySeat, m, SetProcess(i, p), SetOperator(i, OCCUPIED));
    Run2(ApplySeat, m, SetOperator(i, FREE), SetProcess(i, 0));
  }

  lemma OperatorKeepsPlaces(c: Config, s: State, s': State, p: int, oa: OperatorAct)
    requires OperatorMove(c, s, s', p, oa)
    ensures s'.hist.calm == s.hist.calm && (ExclusiveIn(s) ==> ExclusiveIn(s'))
  {
    OperatorKeepsUserColumn(c, s, p, oa);
    OperatorTouchesItems(c, s, p, oa);
    var e := OperatorEffect(c, s, p, oa);
    if e.seats.Owes? && e.seats.writes != [] {
      if i :| e.seats.writes == TakeWrites(i, p) {
        OtherColumns(s.seats.view, i, p);
      } else {
        var i :| e.seats.writes == ReleaseWrites(i);
        OtherColumns(s.seats.view, i, p);
      }
    }
    SamePlaces(s, s');
  }

  lemma OperatorTouchesItems(c: Config, s: State, p: int, oa: OperatorAct)
    requires p in s.operators
    ensures OperatorUsers(c, s, p, oa).Keys == s.users.Keys
    ensures forall u | u in s.users :: SamePlace(s.users[u], OperatorUsers(c, s, p, oa)[u])
  {
  }

  predicate SamePlace(x: UserState, x': UserState) {
    x'.pc == x.pc && x'.visit == x.visit && x'.plan == x.plan && x'.trace == x.trace
  }

  lemma SamePlaces(s: State, s': State)
    requires s.users.Keys <= s'.users.Keys
    requires forall u | u in s'.users :: if u in s.users then SamePlace(s.users[u], s'.users[u])
                                         else !Sitting(s'.users[u])
    requires |s'.seats.view| == |s.seats.view|
    requires forall j | 0 <= j < |s.seats.view| :: s'.seats.view[j].user == s.seats.view[j].user
    requires s'.hist.abandoned == s.hist.abandoned
    ensures ExclusiveIn(s) ==> ExclusiveIn(s')
  {
  }

  lemma DirectorKeepsPlaces(c: Config, s: State, s': State, xa: DirectorAct)
    requires SessionInv(s) && LockInv(c, s) && DirectorMove(c, s, s', xa) && !xa.XResetSeats?
    ensures s'.hist.calm == s.hist.calm && (ExclusiveIn(s) ==> ExclusiveIn(s'))
  {
    DirectorUsersAre(c, s, xa);
    DirectorKeepsSeats(s, xa);
    SamePlaces(s, s');
  }

  predicate SomebodySits(users: map<int, UserState>) {
    exists u | u in users :: Sitting(users[u])
  }

  /** After a reset nobody sits at a taken seat, and no seat is left behind. */
  lemma ResetPlaces(c: Config, s: State, s': State, xa: DirectorAct)
    requires DirectorMove(c, s, s', xa) && xa.XResetSeats? && |s.seats.view| == |xa.services|
    ensures s'.users == s.users && s'.hist.abandoned == {} && s'.hist.calm == !SomebodySits(s.users)
    ensures forall i | 0 <= i < |xa.services| :: !SeatTaken(s'.seats.view, i)
    ensures !SomebodySits(s.users) ==> ExclusiveIn(s')
  {
    RunReset(s.seats.view, xa.services, 0);
    assert s'.seats.view == Cleared(xa.services);
  }

  lemma DirectorKeepsSeats(s: State, xa: DirectorAct)
    requires !xa.XResetSeats?
    ensures DirectorEffect(s, xa).seats.Outside?
    ensures DirectorEffect(s, xa).hist.calm == s.hist.calm
    ensures DirectorEffect(s, xa).hist.abandoned == s.hist.abandoned
  {
  }

  lemma DispenserKeepsPlaces(s: State, s': State, da: DispenserAct)
    requires DispenserMove(s, s', da)
    ensures s'.hist.calm == s.hist.calm && (ExclusiveIn(s) ==> ExclusiveIn(s'))
  {
    SamePlaces(s, s');
  }

  /** No step but the reset lets two users share a seat. */
  lemma MoveKeepsPlaces(c: Config, s: State, s': State, a: Action)
    requires LockInv(c, s) && SessionInv(s) && Moved(c, s, s', a) && !IsReset(a)
    ensures s'.hist.calm == s.hist.calm && (ExclusiveIn(s) ==> ExclusiveIn(s'))
  {
    match a
    case UserStep(u, ua) => UserKeepsPlaces(c, s, s', u, ua);
    case OperatorStep(p, oa) => OperatorKeepsPlaces(c, s, s', p, oa);
    case DispenserStep(da) => DispenserKeepsPlaces(s, s', da);
    case DirectorStep(xa) => DirectorKeepsPlaces(c, s, s', xa);
    case _ =>
  }

  lemma PlacesPreserved(c: Config, s: State, s': State, a: Action)
    requires LockInv(c, s) && SessionInv(s) && PlaceInv(s) && Moved(c, s, s', a)
    ensures PlaceInv(s')
  {
    if IsReset(a) {
      ResetPlaces(c, s, s', a.xa);
    } else {
      MoveKeepsPlaces(c, s, s', a);
    }
  }
}
