/**
 Where everybody is, counted over whole runs: those in a room are those that have
 entered it less those that have left it, for the users and the operators and for each
 stretch of their programs. So no stretch is skipped, left half-way or entered twice.
 */
module Rooms {
  import opened Settings
  import opened SharedRecord
  import opened Statistics
  import opened Seats
  import opened Protocol
  import opened Locks
  import opened Moves
  import opened Sessions
  import opened Stations
  import opened Places
  import opened Director
  import opened Counting
  import opened Runs
  import opened Chronicle
  import opened Errands
  import opened Tickets

  // ---------- users ----------

  datatype Room =
    | Deciding
    | BeforeOpening
    | BeforeWalkIn
    | Indoors
    | Visiting
    | AtDesk
    | Signalling

  function UsersIn(r: Room): UserState -> bool {
    (x: UserState) => match r
                      case Deciding => x.pc == Starting
                      case BeforeOpening => x.pc == WaitOpen
                      case BeforeWalkIn => x.pc == WaitWalkIn
                      case Indoors => InOffice(x) && x.pc != WaitWalkIn
                      case Visiting => InVisit(x.pc)
                      case AtDesk => Sitting(x)
                      case Signalling => x.pc == Freed
  }

  predicate WalksInto(s: State, x: UserState, ua: UserAct, r: Room) {
    match r
    case Deciding => ua.UTakeDay?
    case BeforeOpening => ua.UGoOut?
    case BeforeWalkIn => ua.UEnterOffice?
    case Indoors => ua.UWalkIn?
    case Visiting => ua.UBegin?
    case AtDesk => ua.UTrySeat? && FirstOffered(s.seats.mem, x.visit.valid) != -1
    case Signalling => ua.UFreeSeat?
  }

  predicate WalksOutOf(x: UserState, ua: UserAct, r: Room) {
    match r
    case Deciding => ua.UGoOut? || ua.UStayHome?
    case BeforeOpening => ua.UEnterOffice?
    case BeforeWalkIn => ua.UWalkIn?
    case Indoors => ua.UGoHome? || (ua.UFail? && x.pc == BeFailed(WithoutTicket))
    case Visiting =>
      || (ua.UAskTicket? && !ua.sent) || ua.UPostFreed?
      || (ua.ULate? && x.pc == BeLate(AtEnd)) || (ua.UFail? && x.pc == BeFailed(WithTicket))
    case AtDesk => ua.UFreeSeat? || ua.USeeLate? || (ua.USendRequest? && !ua.sent)
    case Signalling => ua.UPostFreed?
  }

  function EntersRoom(r: Room): (State, Action) -> bool {
    (s: State, a: Action) => a.UserStep? && a.u in s.users && WalksInto(s, s.users[a.u], a.ua, r)
  }

  function LeavesRoom(r: Room): (State, Action) -> bool {
    (s: State, a: Action) => a.UserStep? && a.u in s.users && WalksOutOf(s.users[a.u], a.ua, r)
  }

  ghost function RoomMeasure(r: Room): State -> int {
    (s: State) => Count(s.users, UsersIn(r))
  }

  /** One step more or less in the room. */
  ghost predicate WalksAs(c: Config, s: State, u: int, ua: UserAct, r: Room)
    requires u in s.users
  {
    var x := s.users[u];
    One(UsersIn(r)(UserNext(c, s, u, ua)))
    == One(UsersIn(r)(x)) + One(WalksInto(s, x, ua, r)) - One(WalksOutOf(x, ua, r))
  }

  predicate Arrives(ua: UserAct) {
    ua.UTakeDay? || ua.UStayHome? || ua.UGoOut? || ua.UEnterOffice? || ua.UWalkIn? || ua.UGoHome?
  }

  predicate Served(ua: UserAct) {
    ua.USendRequest? || ua.UGetDone? || ua.UReadEnd? || ua.URecord?
  }

  predicate Searches(ua: UserAct) {
    ua.UFindSeats? || ua.UJudgeSeats? || ua.UTrySeat?
  }

  lemma ArrivingWalk(c: Config, s: State, u: int, ua: UserAct, r: Room)
    requires u in s.users && UserEnabled(c, s, u, ua)
    requires Arrives(ua)
    ensures WalksAs(c, s, u, ua, r)
  {
  }

  lemma AskingWalk(c: Config, s: State, u: int, ua: UserAct, r: Room)
    requires u in s.users && UserEnabled(c, s, u, ua) && Expects(s.users[u], ua)
    requires Early(ua) && !Arrives(ua) && !Searches(ua)
    ensures WalksAs(c, s, u, ua, r)
  {
  }

  lemma SearchingWalk(c: Config, s: State, u: int, ua: UserAct, r: Room)
    requires u in s.users && UserEnabled(c, s, u, ua)
    requires Searches(ua)
    ensures WalksAs(c, s, u, ua, r)
  {
  }

  lemma WaitingWalk(c: Config, s: State, u: int, ua: UserAct, r: Room)
    requires u in s.users && UserEnabled(c, s, u, ua) && Expects(s.users[u], ua)
    requires !Early(ua) && !Ends(ua) && !Served(ua)
    ensures WalksAs(c, s, u, ua, r)
  {
  }

  lemma ServedWalk(c: Config, s: State, u: int, ua: UserAct, r: Room)
    requires u in s.users && UserEnabled(c, s, u, ua) && Expects(s.users[u], ua)
    requires Served(ua) && (ua.UGetDone? ==> s.users[u].visit.ticket >= 0)
    ensures WalksAs(c, s, u, ua, r)
  {
  }

  lemma LastWalk(c: Config, s: State, u: int, ua: UserAct, r: Room)
    requires u in s.users && UserEnabled(c, s, u, ua)
    requires Ends(ua) && !Reckons(ua)
    ensures WalksAs(c, s, u, ua, r)
  {
  }

  lemma ReckonedWalk(c: Config, s: State, u: int, ua: UserAct, r: Room)
    requires u in s.users && UserEnabled(c, s, u, ua)
    requires Reckons(ua)
    ensures WalksAs(c, s, u, ua, r)
  {
  }

  lemma Walk(c: Config, s: State, u: int, ua: UserAct, r: Room)
    requires SessionInv(s) && u in s.users && UserEnabled(c, s, u, ua)
    ensures WalksAs(c, s, u, ua, r)
  {
    assert UserFits(s.operators.Keys, s.users[u]);
    if ua.UGetTicket? || ua.UGetDone? {
      ReceivedByUser(s, u, ua.m);
    }
    if Arrives(ua) {
      ArrivingWalk(c, s, u, ua, r);
    } else if Searches(ua) {
      SearchingWalk(c, s, u, ua, r);
    } else if Early(ua) {
      AskingWalk(c, s, u, ua, r);
    } else if Reckons(ua) {
      ReckonedWalk(c, s, u, ua, r);
    } else if Ends(ua) {
      LastWalk(c, s, u, ua, r);
    } else if Served(ua) {
      ServedWalk(c, s, u, ua, r);
    } else {
      WaitingWalk(c, s, u, ua, r);
    }
  }

  lemma RoomMoves(c: Config, s: State, s': State, a: Action, r: Room)
    requires SessionInv(s) && Moved(c, s, s', a)
    ensures RoomMeasure(r)(s') == RoomMeasure(r)(s) + One(EntersRoom(r)(s, a)) - One(LeavesRoom(r)(s, a))
  {
    assert OwnBusiness(UsersIn(r));
    UsersCounted(c, s, s', a, UsersIn(r));
    if a.UserStep? {
      Walk(c, s, a.u, a.ua, r);
    }
  }

  /**
   Users in a room: deciding whether to go out, before opening, before their time to walk
   in, inside until they go home, in the middle of a service, at a seat, and owing the
   signal for a seat just freed.
   */
  lemma UserFlows(c: Config, states: seq<State>, actions: seq<Action>, n: nat, r: Room)
    requires Execution(c, states, actions) && n <= |actions|
    ensures Count(states[n].users, UsersIn(r))
         == Steps(EntersRoom(r), states, actions, n) - Steps(LeavesRoom(r), states, actions, n)
  {
    forall i | 0 <= i < n
      ensures RoomMeasure(r)(states[i + 1])
           == RoomMeasure(r)(states[i]) + One(EntersRoom(r)(states[i], actions[i]))
              - One(LeavesRoom(r)(states[i], actions[i]))
    {
      StepOfRun(c, states, actions, i);
      RoomMoves(c, states[i], states[i + 1], actions[i], r);
    }
    CountNone(states[0].users, UsersIn(r));
    BalancesSteps(EntersRoom(r), LeavesRoom(r), RoomMeasure(r), states, actions, n);
  }

  // ---------- operators ----------

  datatype Post =
    | AtDoor
    | Looking
    | Queueing
    | Requested
    | AtWork
    | Answering
    | Owing
    | Pausing

  function OperatorsIn(r: Post): OperatorState -> bool {
    (y: OperatorState) => match r
                          case AtDoor => y.pc == OutsideDoor
                          case Looking => y.pc.LookForWork? || y.pc == FirstSearch
                          case Queueing =>
                            y.pc == WaitStation || y.pc.ScanStatus? || y.pc.ScanService? || y.pc == TakeFound
                          case Requested => y.pc == GotRequest
                          case AtWork => y.pc == Serving
                          case Answering => y.pc == AfterService
                          case Owing => y.pc.LeftSeat?
                          case Pausing => y.pc == RecordPause
  }

  predicate GoesTo(s: State, y: OperatorState, oa: OperatorAct, r: Post) {
    match r
    case AtDoor => oa.OTakeDay?
    case Looking => oa.OEnterOffice?
    case Queueing => oa.OFirstSearch? && FindSeat(s.seats.mem, y.service) == -1
    case Requested => oa.OPollRequest?
    case AtWork => oa.OCount?
    case Answering => oa.OAnswer?
    case Owing => oa.ORelease?
    case Pausing => oa.OPostStation? && y.pc == LeftSeat(true)
  }

  predicate GoesFrom(s: State, y: OperatorState, oa: OperatorAct, r: Post) {
    match r
    case AtDoor => oa.OEnterOffice?
    case Looking => oa.OFirstSearch? || (oa.OLookForWork? && y.pc.LookForWork? && y.pc.i >= |s.seats.mem|)
    case Queueing => oa.OSeeClosedWaiting? || oa.OTakeFound?
    case Requested => oa.OCount?
    case AtWork => oa.OAnswer?
    case Answering => oa.OKeepWorking? || oa.OGoEarly?
    case Owing => oa.OPostStation?
    case Pausing => oa.ORecordPause?
  }

  function EntersPost(r: Post): (State, Action) -> bool {
    (s: State, a: Action) => a.OperatorStep? && a.p in s.operators && GoesTo(s, s.operators[a.p], a.oa, r)
  }

  function LeavesPost(r: Post): (State, Action) -> bool {
    (s: State, a: Action) => a.OperatorStep? && a.p in s.operators && GoesFrom(s, s.operators[a.p], a.oa, r)
  }

  ghost function PostMeasure(r: Post): State -> int {
    (s: State) => Count(s.operators, OperatorsIn(r))
  }

  ghost predicate GoesAs(c: Config, s: State, p: int, oa: OperatorAct, r: Post)
    requires p in s.operators
  {
    var y := s.operators[p];
    One(OperatorsIn(r)(OperatorNext(c, s, p, oa)))
    == One(OperatorsIn(r)(y)) + One(GoesTo(s, y, oa, r)) - One(GoesFrom(s, y, oa, r))
  }

  predicate SeeksSeat(oa: OperatorAct) {
    oa.OTakeDay? || oa.OEnterOffice? || oa.OLookForWork? || oa.OFirstSearch?
  }

  predicate AwaitsSeat(oa: OperatorAct) {
    oa.OWakeUp? || oa.OSeeClosedWaiting? || oa.OScanStatus? || oa.OScanService? || oa.OTakeFound?
  }

  lemma WaiterGoes(c: Config, s: State, p: int, oa: OperatorAct, r: Post)
    requires p in s.operators && OperatorEnabled(c, s, p, oa) && AwaitsSeat(oa)
    ensures GoesAs(c, s, p, oa, r)
  {
  }

  lemma SeekerGoes(c: Config, s: State, p: int, oa: OperatorAct, r: Post)
    requires p in s.operators && OperatorEnabled(c, s, p, oa) && SeeksSeat(oa)
    ensures GoesAs(c, s, p, oa, r)
  {
  }

  lemma WorkerGoes(c: Config, s: State, p: int, oa: OperatorAct, r: Post)
    requires p in s.operators && OperatorEnabled(c, s, p, oa) && !SeeksSeat(oa) && !AwaitsSeat(oa)
    requires oa.OPollRequest? ==> oa.m.body.ServiceRequest?
    ensures GoesAs(c, s, p, oa, r)
  {
  }

  lemma Goes(c: Config, s: State, p: int, oa: OperatorAct, r: Post)
    requires SessionInv(s) && p in s.operators && OperatorEnabled(c, s, p, oa)
    ensures GoesAs(c, s, p, oa, r)
  {
    if oa.OPollRequest? {
      ReceivedByServer(s, oa.m);
    }
    if SeeksSeat(oa) {
      SeekerGoes(c, s, p, oa, r);
    } else if AwaitsSeat(oa) {
      WaiterGoes(c, s, p, oa, r);
    } else {
      WorkerGoes(c, s, p, oa, r);
    }
  }

  lemma PostMoves(c: Config, s: State, s': State, a: Action, r: Post)
    requires SessionInv(s) && Moved(c, s, s', a)
    ensures PostMeasure(r)(s') == PostMeasure(r)(s) + One(EntersPost(r)(s, a)) - One(LeavesPost(r)(s, a))
  {
    OperatorsCounted(c, s, s', a, OperatorsIn(r));
    if a.OperatorStep? {
      Goes(c, s, a.p, a.oa, r);
    }
  }

  /**
   Operators: before the door, looking for work, waiting for a station, with a request
   not yet counted, serving, between two customers, owing the signal for the seat left,
   and about to record a pause.
   */
  lemma OperatorFlows(c: Config, states: seq<State>, actions: seq<Action>, n: nat, r: Post)
    requires Execution(c, states, actions) && n <= |actions|
    ensures Count(states[n].operators, OperatorsIn(r))
         == Steps(EntersPost(r), states, actions, n) - Steps(LeavesPost(r), states, actions, n)
  {
    forall i | 0 <= i < n
      ensures PostMeasure(r)(states[i + 1])
           == PostMeasure(r)(states[i]) + One(EntersPost(r)(states[i], actions[i]))
              - One(LeavesPost(r)(states[i], actions[i]))
    {
      StepOfRun(c, states, actions, i);
      PostMoves(c, states[i], states[i + 1], actions[i], r);
    }
    CountNone(states[0].operators, OperatorsIn(r));
    BalancesSteps(EntersPost(r), LeavesPost(r), PostMeasure(r), states, actions, n);
  }
}
