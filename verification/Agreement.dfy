/**
 When the service received is the service wanted: no day reset between an operator's
 search and its taking the seat, nor between a user's search and its reading of the
 operator's name.
 */
module Agreement {
  import opened Settings
  import opened SharedRecord
  import opened Statistics
  import opened Seats
  import opened Protocol
  import opened Locks
  import opened Moves
  import opened Sessions
  import opened Stations

  /** No start_new_day has begun to rewrite the seats since the seat-table day d was current. */
  predicate Fresh(s: State, d: int) {
    d == s.hist.seatDay
  }

  ghost predicate SameServices(m: seq<Seat>, m': seq<Seat>) {
    |m| == |m'| && forall i | 0 <= i < |m| :: m[i].service == m'[i].service
  }

  predicate Searching(x: UserState) {
    x.pc.Searched? || x.pc.TrySeat? || x.pc.Retry? || x.pc.HaveSeat?
  }

  /** The seats a user found exist, and offer the service wanted unless a reset came since. */
  ghost predicate SearchFits(c: Config, s: State, x: UserState) {
    && Seen(s, x.trace.foundDay)
    && (Sitting(x) ==> 0 <= x.visit.seat < c.numSeats)
    && (Searching(x) ==> forall a | 0 <= a < |x.visit.valid| :: 0 <= x.visit.valid[a] < c.numSeats)
    && (Searching(x) && Fresh(s, x.trace.foundDay) ==>
          && (forall a | 0 <= a < |x.visit.valid| :: Offers(s.seats.mem, x.visit.valid[a], Wanted(x)))
          && (x.pc == HaveSeat ==> Offers(s.seats.mem, x.visit.seat, Wanted(x))))
  }

  predicate Offers(m: seq<Seat>, i: int, k: int) {
    0 <= i < |m| && m[i].service == k
  }

  ghost predicate ServesWanted(operators: map<int, OperatorState>, p: int, k: int) {
    p in operators ==> operators[p].service == k
  }

  /** A user whose operator was read in time is served for what it wants, at every stage from there on. */
  ghost predicate AgreedFits(operators: map<int, OperatorState>, x: UserState) {
    x.trace.agreed ==>
      && ((x.pc.ReadClock? || x.pc.ReadyToSend?) ==> ServesWanted(operators, x.visit.operator, Wanted(x)))
      && (x.item.Waiting? ==> ServesWanted(operators, x.item.operator, Wanted(x)))
      && (x.item.InService? ==> x.item.service == Wanted(x))
      && (x.item.Answered? ==> x.item.service == Wanted(x))
      && ((x.pc.HaveDone? || x.pc.ReadyToRecord?) ==> x.visit.done.service == Wanted(x))
  }

  ghost predicate AgreeInv(c: Config, s: State) {
    && (forall p | p in s.operators :: ScanFits(c, s, s.operators[p]))
    && (forall u | u in s.users :: SearchFits(c, s, s.users[u]))
    && (forall u | u in s.users :: AgreedFits(s.operators, s.users[u]))
  }

  lemma AgreementInitially(c: Config, s: State)
    requires Init(c, s)
    ensures AgreeInv(c, s)
  {
  }

  /** The seat table's day, and the services in it, after a step. */
  ghost predicate DayGoesOn(s: State, s': State) {
    && |s'.seats.mem| == |s.seats.mem| && s.hist.seatDay <= s'.hist.seatDay
    && (Resetting(s') ==> Resetting(s) || s.hist.seatDay < s'.hist.seatDay)
    && (Resetting(s) || SameServices(s.seats.mem, s'.seats.mem))
  }

  lemma SectionDay(c: Config, s: State, s': State, a: Action)
    requires LockInv(c, s) && SectionMove(s, s', a)
    ensures DayGoesOn(s, s')
  {
    if a.SeatStep? {
      assert SeatSection(s, s.director.pc, a.who, s.seats.inside[a.who]);
    }
  }

  lemma DirectorDay(c: Config, s: State, s': State, xa: DirectorAct)
    requires DirectorMove(c, s, s', xa)
    ensures DayGoesOn(s, s')
  {
    DirectorAndDay(c, s, xa);
  }

  /** Only the reset changes services, and whatever was found before it is no longer fresh afterwards. */
  lemma FreshBefore(c: Config, s: State, s': State, a: Action)
    requires LockInv(c, s) && Moved(c, s, s', a)
    ensures DayGoesOn(s, s')
  {
    match a
    case UserStep(u, ua) => UserKeepsDay(s, u, ua);
    case OperatorStep(p, oa) => OperatorKeepsDay(c, s, p, oa);
    case DispenserStep(da) =>
    case DirectorStep(xa) => DirectorDay(c, s, s', xa);
    case _ => SectionDay(c, s, s', a);
  }

  lemma UserKeepsDay(s: State, u: int, ua: UserAct)
    requires u in s.users
    ensures UserEffect(s, u, ua).hist.seatDay == s.hist.seatDay
  {
  }

  lemma OperatorKeepsDay(c: Config, s: State, p: int, oa: OperatorAct)
    requires p in s.operators
    ensures OperatorEffect(c, s, p, oa).hist.seatDay == s.hist.seatDay
  {
  }

  lemma DirectorAndDay(c: Config, s: State, xa: DirectorAct)
    requires DirectorEnabled(c, s, xa)
    ensures var d := DirectorEffect(s, xa).hist.seatDay;
            if xa.XResetSeats? then d == s.hist.seatDay + 1 else d == s.hist.seatDay
  {
  }

  // ---------- steps that leave a process alone ----------

  lemma OthersStayInTune(c: Config, s: State, s': State, a: Action)
    requires LockInv(c, s) && Moved(c, s, s', a) && AgreeInv(c, s)
    ensures forall p | p in s.operators :: ScanFits(c, s', s.operators[p])
    ensures forall u | u in s.users :: SearchFits(c, s', s.users[u])
  {
    FreshBefore(c, s, s', a);
    forall p | p in s.operators ensures ScanFits(c, s', s.operators[p]) {
      assert ScanFits(c, s, s.operators[p]);
    }
    forall u | u in s.users ensures SearchFits(c, s', s.users[u]) {
      assert SearchFits(c, s, s.users[u]);
      StaysFound(c, s, s', s.users[u]);
    }
  }

  lemma StaysFound(c: Config, s: State, s': State, x: UserState)
    requires SearchFits(c, s, x) && DayGoesOn(s, s')
    ensures SearchFits(c, s', x)
  {
    if Searching(x) && Fresh(s', x.trace.foundDay) {
      forall a | 0 <= a < |x.visit.valid| ensures Offers(s'.seats.mem, x.visit.valid[a], Wanted(x)) {
        assert Offers(s.seats.mem, x.visit.valid[a], Wanted(x));
      }
    }
  }

  // ---------- users ----------

  lemma UserSearches(c: Config, s: State, u: int, ua: UserAct)
    requires u in s.users && UserEnabled(c, s, u, ua) && |s.seats.mem| == c.numSeats
    requires SearchFits(c, s, s.users[u]) && (ua == UFindSeats ==> !Resetting(s))
    ensures SearchFits(c, s, UserNext(c, s, u, ua))
  {
    var x := s.users[u];
    if ua == UFindSeats {
      SeatsFound(c, s, u);
    } else if ua == UTrySeat {
      SeatTried(c, s, u);
    } else {
      SearchKept(c, s, u, ua);
    }
  }

  lemma SeatsFound(c: Config, s: State, u: int)
    requires u in s.users && |s.seats.mem| == c.numSeats && SearchFits(c, s, s.users[u]) && !Resetting(s)
    ensures SearchFits(c, s, UserNext(c, s, u, UFindSeats))
  {
    var x, x' := s.users[u], UserNext(c, s, u, UFindSeats);
    forall a | 0 <= a < |x'.visit.valid|
      ensures 0 <= x'.visit.valid[a] < c.numSeats && Offers(s.seats.mem, x'.visit.valid[a], Wanted(x'))
    {
      assert x'.visit.valid[a] in x'.visit.valid;
      assert Staffed(s.seats.mem, x'.visit.valid[a], Wanted(x));
    }
  }

  lemma SeatTried(c: Config, s: State, u: int)
    requires u in s.users && s.users[u].pc == TrySeat && SearchFits(c, s, s.users[u])
    ensures SearchFits(c, s, UserNext(c, s, u, UTrySeat))
  {
    var x := s.users[u];
    var i := FirstOffered(s.seats.mem, x.visit.valid);
    if i != -1 {
      var a :| 0 <= a < |x.visit.valid| && x.visit.valid[a] == i;
    }
  }

  predicate SearchGoesOn(x: UserState, x': UserState) {
    && x'.trace.foundDay == x.trace.foundDay && x'.visit.valid == x.visit.valid
    && x'.visit.seat == x.visit.seat
    && (Searching(x') ==> Searching(x) && x'.pc != HaveSeat && Wanted(x') == Wanted(x))
    && (Sitting(x') ==> Sitting(x))
  }

  lemma EarlySearchKept(c: Config, s: State, u: int, ua: UserAct)
    requires u in s.users && UserEnabled(c, s, u, ua) && ua != UFindSeats && ua != UTrySeat && Early(ua)
    ensures SearchGoesOn(s.users[u], UserNext(c, s, u, ua))
  {
  }

  lemma LateSearchKept(c: Config, s: State, u: int, ua: UserAct)
    requires u in s.users && UserEnabled(c, s, u, ua) && !Early(ua)
    ensures SearchGoesOn(s.users[u], UserNext(c, s, u, ua))
  {
  }

  lemma SearchKept(c: Config, s: State, u: int, ua: UserAct)
    requires u in s.users && UserEnabled(c, s, u, ua) && ua != UFindSeats && ua != UTrySeat
    ensures SearchGoesOn(s.users[u], UserNext(c, s, u, ua))
  {
    if Early(ua) {
      EarlySearchKept(c, s, u, ua);
    } else {
      LateSearchKept(c, s, u, ua);
    }
  }

  lemma UserAgrees(c: Config, s: State, u: int, ua: UserAct)
    requires u in s.users && UserEnabled(c, s, u, ua)
    requires PcFits(s.operators.Keys, s.users[u]) && Expects(s.users[u], ua)
    requires PcFits(s.operators.Keys, UserNext(c, s, u, ua))
    requires AgreedFits(s.operators, s.users[u]) && SearchFits(c, s, s.users[u])
    requires Matching(s.operators, s.seats.mem) && |s.seats.mem| == c.numSeats && 0 !in s.operators
    ensures AgreedFits(s.operators, UserNext(c, s, u, ua))
  {
    var x := s.users[u];
    if ua == UReadOperator {
      assert Matches(s.operators, s.seats.mem[x.visit.seat]);
    } else if ua.UGetDone? {
      DoneAgrees(c, s, u, ua.m);
    } else {
      AgreementKept(c, s, u, ua);
    }
  }

  lemma DoneAgrees(c: Config, s: State, u: int, m: Msg)
    requires u in s.users && s.users[u].pc == AwaitDone && PcFits(s.operators.Keys, s.users[u])
    requires Expects(s.users[u], UGetDone(m)) && AgreedFits(s.operators, s.users[u])
    ensures AgreedFits(s.operators, UserNext(c, s, u, UGetDone(m)))
  {
  }

  lemma AgreementKept(c: Config, s: State, u: int, ua: UserAct)
    requires u in s.users && UserEnabled(c, s, u, ua) && ua != UReadOperator && !ua.UGetDone?
    requires PcFits(s.operators.Keys, s.users[u]) && PcFits(s.operators.Keys, UserNext(c, s, u, ua))
    requires AgreedFits(s.operators, s.users[u])
    ensures AgreedFits(s.operators, UserNext(c, s, u, ua))
  {
    if Early(ua) {
      EarlyAgreement(c, s, u, ua);
    } else {
      LateAgreement(c, s, u, ua);
    }
  }

  lemma EarlyAgreement(c: Config, s: State, u: int, ua: UserAct)
    requires u in s.users && UserEnabled(c, s, u, ua) && Early(ua)
    requires PcFits(s.operators.Keys, UserNext(c, s, u, ua))
    ensures AgreedFits(s.operators, UserNext(c, s, u, ua))
  {
  }

  lemma LateAgreement(c: Config, s: State, u: int, ua: UserAct)
    requires u in s.users && UserEnabled(c, s, u, ua) && !Early(ua) && ua != UReadOperator && !ua.UGetDone?
    requires PcFits(s.operators.Keys, s.users[u])
    requires AgreedFits(s.operators, s.users[u])
    ensures AgreedFits(s.operators, UserNext(c, s, u, ua))
  {
  }

  // ---------- operators and the rest ----------

  lemma OperatorScans(c: Config, s: State, p: int, oa: OperatorAct)
    requires p in s.operators && OperatorEnabled(c, s, p, oa) && ScanFits(c, s, s.operators[p])
    ensures ScanFits(c, s, OperatorNext(c, s, p, oa))
    ensures OperatorNext(c, s, p, oa).service == s.operators[p].service
  {
  }

  /** Operators keep their service, so whoever agrees with one goes on agreeing. */
  lemma AgreesWithSameServices(before: map<int, OperatorState>, after: map<int, OperatorState>, x: UserState)
    requires AgreedFits(before, x) && before.Keys == after.Keys
    requires forall p | p in before :: before[p].service == after[p].service
    ensures AgreedFits(after, x)
  {
  }

  /** Only the outstanding item of the customer changes, and it goes on agreeing. */
  ghost predicate ItemsAgree(s: State, s': State) {
    forall u | u in s'.users ::
      && u in s.users && AgreedFits(s'.operators, s'.users[u])
      && s'.users[u] == s.users[u].(item := s'.users[u].item)
  }

  lemma OperatorKeepsAgreement(c: Config, s: State, s': State, p: int, oa: OperatorAct)
    requires SessionInv(s) && OperatorMove(c, s, s', p, oa) && AgreeInv(c, s)
    ensures ItemsAgree(s, s')
  {
    assert OperatorFits(s.users, p, s.operators[p]);
    if Serves(oa) {
      if oa.OPollRequest? {
        ReceivedByServer(s, oa.m);
        QueuedMessage(s, oa.m);
      }
      CustomerAgrees(c, s, s', p, oa);
    } else {
      QuietOperator(c, s, p, oa);
    }
    OperatorScansOn(c, s, s', p, oa);
    forall u | u in s'.users ensures AgreedFits(s'.operators, s'.users[u]) {
      AgreesWithSameServices(s.operators, s'.operators, s'.users[u]);
    }
  }

  lemma OperatorScansOn(c: Config, s: State, s': State, p: int, oa: OperatorAct)
    requires OperatorMove(c, s, s', p, oa) && AgreeInv(c, s)
    ensures forall q | q in s'.operators :: q in s.operators && ScanFits(c, s, s'.operators[q])
    ensures forall q | q in s.operators :: q in s'.operators && s'.operators[q].service == s.operators[q].service
  {
    assert ScanFits(c, s, s.operators[p]);
    OperatorScans(c, s, p, oa);
  }

  lemma CustomerAgrees(c: Config, s: State, s': State, p: int, oa: OperatorAct)
    requires p in s.operators && OperatorEnabled(c, s, p, oa) && Serves(oa)
    requires s'.users == OperatorUsers(c, s, p, oa)
    requires OperatorFits(s.users, p, s.operators[p])
    requires forall u | u in s.users :: AgreedFits(s.operators, s.users[u])
    requires forall u | u in s.users :: UserFits(s.operators.Keys, s.users[u])
    requires oa.OPollRequest? ==>
               && oa.m.body.ServiceRequest? && oa.m.body.sender in s.users
               && s.users[oa.m.body.sender].item == Waiting(p, oa.m.body.number)
    ensures forall u | u in s'.users ::
              && u in s.users && AgreedFits(s.operators, s'.users[u])
              && s'.users[u] == s.users[u].(item := s'.users[u].item)
  {
    var u := Customer(s.operators[p], oa);
    assert UserFits(s.operators.Keys, s.users[u]) && AgreedFits(s.operators, s.users[u]);
    match oa
    case OPollRequest(m) =>
    case OCount =>
    case OAnswer(draw, sent) =>
  }

  lemma SearchIgnoresItem(c: Config, s: State, x: UserState, item: Item)
    requires SearchFits(c, s, x)
    ensures SearchFits(c, s, x.(item := item))
  {
  }

  lemma DispenserKeepsAgreement(s: State, s': State, da: DispenserAct)
    requires DispenserMove(s, s', da)
    requires forall u | u in s.users :: AgreedFits(s.operators, s.users[u])
    ensures ItemsAgree(s, s')
  {
  }

  lemma OperatorKeepsAll(c: Config, s: State, s': State, p: int, oa: OperatorAct)
    requires SessionInv(s) && SessionInv(s') && StationInv(c, s) && AgreeInv(c, s) && OperatorMove(c, s, s', p, oa)
    ensures AgreeInv(c, s')
  {
    OperatorKeepsAgreement(c, s, s', p, oa);
    OperatorScansOn(c, s, s', p, oa);
    OperatorKeepsDay(c, s, p, oa);
    ItemsAside(c, s, s');
  }

  lemma DispenserKeepsAll(c: Config, s: State, s': State, da: DispenserAct)
    requires AgreeInv(c, s) && DispenserMove(s, s', da)
    ensures AgreeInv(c, s')
  {
    DispenserKeepsAgreement(s, s', da);
    ItemsAside(c, s, s');
  }

  lemma SectionKeepsAgreement(c: Config, s: State, s': State, a: Action)
    requires LockInv(c, s) && AgreeInv(c, s) && SectionMove(s, s', a)
    ensures AgreeInv(c, s')
  {
    OthersStayInTune(c, s, s', a);
  }

  lemma AgreementPreserved(c: Config, s: State, s': State, a: Action)
    requires LockInv(c, s) && SessionInv(s) && SessionInv(s') && StationInv(c, s)
    requires AgreeInv(c, s) && Moved(c, s, s', a)
    ensures AgreeInv(c, s')
  {
    match a
    case UserStep(u, ua) => UserKeepsAgreement(c, s, s', u, ua);
    case OperatorStep(p, oa) => OperatorKeepsAll(c, s, s', p, oa);
    case DispenserStep(da) => DispenserKeepsAll(c, s, s', da);
    case DirectorStep(xa) => DirectorKeepsAgreement(c, s, s', xa);
    case _ => SectionKeepsAgreement(c, s, s', a);
  }

  lemma DirectorKeepsAgreement(c: Config, s: State, s': State, xa: DirectorAct)
    requires LockInv(c, s) && SessionInv(s) && AgreeInv(c, s) && DirectorMove(c, s, s', xa)
    ensures AgreeInv(c, s')
  {
    OthersStayInTune(c, s, s', DirectorStep(xa));
    DirectorUsersAre(c, s, xa);
  }

  lemma ItemsAside(c: Config, s: State, s': State)
    requires AgreeInv(c, s) && s'.seats.mem == s.seats.mem
    requires s'.hist.seatDay == s.hist.seatDay && Resetting(s') == Resetting(s)
    requires forall p | p in s'.operators :: ScanFits(c, s, s'.operators[p])
    requires ItemsAgree(s, s')
    ensures AgreeInv(c, s')
  {
    forall u | u in s'.users ensures SearchFits(c, s', s'.users[u]) {
      assert SearchFits(c, s, s.users[u]);
      SearchIgnoresItem(c, s, s.users[u], s'.users[u].item);
      StaysFound(c, s, s', s'.users[u]);
    }
    forall p | p in s'.operators ensures ScanFits(c, s', s'.operators[p]) {
      assert ScanFits(c, s, s'.operators[p]);
    }
  }

  lemma UserKeepsAgreement(c: Config, s: State, s': State, u: int, ua: UserAct)
    requires LockInv(c, s) && SessionInv(s) && SessionInv(s') && StationInv(c, s)
    requires AgreeInv(c, s) && UserMove(c, s, s', u, ua)
    ensures AgreeInv(c, s')
  {
    OthersStayInTune(c, s, s', UserStep(u, ua));
    assert UserFits(s.operators.Keys, s.users[u]) && UserFits(s'.operators.Keys, s'.users[u]);
    assert AgreedFits(s.operators, s.users[u]) && SearchFits(c, s, s.users[u]);
    if ua.UGetTicket? || ua.UGetDone? {
      ReceivedByUser(s, u, ua.m);
    }
    UserSearches(c, s, u, ua);
    UserKeepsDay(s, u, ua);
    StaysFound(c, s, s', s'.users[u]);
    UserAgrees(c, s, u, ua);
  }
}
