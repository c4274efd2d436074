/**
 The post office as one transition system.

 Users, operators, the ticket dispenser and the director each have a program
 counter and local variables. They share the statistics record, the seat table, a
 message queue with typed receive, and counting semaphores. Every read of shared
 memory outside a lock, every single-field write inside one, every semaphore
 operation and every message operation is a step of its own.

 Inside a locked section nobody else writes the record (SharedRecord.Consistent),
 so the values the section reads are read when it is entered.
 */
module Protocol {
  import opened Settings
  import opened SharedRecord
  import opened Statistics
  import opened Seats

  // ---------- messages ----------

  datatype Body =
    | TicketRequest(sender: int, wanted: int)
    | TicketResponse(number: int)
    | ServiceRequest(sender: int, number: int)
    | ServiceDone(operator: int, number: int, service: int, time: real)

  /** A message on the System V queue: the type it is received by, and its content. */
  datatype Msg = Msg(mtype: int, body: Body)

  const TICKET_TYPE := 1
  const SERVICE_BASE := 30000

  function AskTicket(u: int, k: int): Msg { Msg(TICKET_TYPE, TicketRequest(u, k)) }
  function GiveTicket(u: int, n: int): Msg { Msg(u, TicketResponse(n)) }
  function AskService(u: int, n: int, p: int): Msg { Msg(SERVICE_BASE + p, ServiceRequest(u, n)) }
  function Done(u: int, p: int, n: int, k: int, t: real): Msg { Msg(u, ServiceDone(p, n, k, t)) }

  // ---------- users ----------

  /** Where a user's exchange stands. A history variable: no step depends on it. */
  datatype Item =
    | NoItem
    | Asked(wanted: int)
    | AtDispenser
    | Ticketed(number: int)
    | TicketLost(number: int)
    | Waiting(operator: int, number: int)
    | InService(operator: int, number: int, service: int, counted: bool)
    | Answered(operator: int, number: int, service: int, time: real)
    | AnswerLost(service: int)

  datatype LateKind = AtHead | AtRetry | AtEnd
  datatype FailKind = WithoutTicket | WithTicket

  datatype UserPc =
    | WaitDay
    | Starting
    | WaitOpen
    | WaitWalkIn
    | Head
    | ReadyToAsk
    | AwaitTicket
    | HaveTicket
    | Searched
    | TrySeat
    | Retry
    | HaveSeat
    | ReadClock
    | ReadyToSend
    | AwaitDone
    | HaveDone
    | ReadyToRecord
    | CheckClose
    | ReadyToFree
    | Freed
    | BeLate(late: LateKind)
    | BeFailed(fail: FailKind)
    | UserConfused

  /** The day's plan, and whether the user has already been counted as late today. */
  datatype Plan = Plan(list: seq<int>, next: nat, walkIn: int, wasLate: bool)

  datatype Reply = Reply(number: int, service: int, time: real)

  /** The local variables of one service. */
  datatype Visit = Visit(ticket: int, valid: seq<int>, seat: int, operator: int, start: int, wait: int, done: Reply)

  /**
   History variables: the seat-table day of the search, whether the operator named
   by the seat is known to serve the wanted service, and the clock ticks behind the
   two minutes read.
   */
  datatype Trace = Trace(foundDay: nat, agreed: bool, startTick: nat, endTick: nat)

  datatype UserState = UserState(pc: UserPc, plan: Plan, visit: Visit, item: Item, trace: Trace)

  function NewUser(): UserState {
    UserState(WaitDay, Plan([], 0, 0, false), Visit(0, [], 0, 0, 0, 0, Reply(0, 0, 0.0)), NoItem, Trace(0, false, 0, 0))
  }

  /** The service the user is currently after. */
  function Wanted(x: UserState): int {
    if x.plan.next < |x.plan.list| then x.plan.list[x.plan.next] else 0
  }

  // ---------- operators ----------

  datatype OperatorPc =
    | OffDuty
    | OutsideDoor
    | LookForWork(i: nat)
    | FirstSearch
    | WaitStation
    | ScanStatus(i: nat)
    | ScanService(i: nat)
    | TakeFound
    | OnShift
    | Poll
    | GotRequest
    | Serving
    | AfterService
    | Leaving(early: bool)
    | LeftSeat(early: bool)
    | RecordPause
    | RecordShift
    | OperatorConfused

  /** Local variables of an operator; foundDay and matched are history variables. */
  datatype OperatorState = OperatorState(
    pc: OperatorPc,
    service: int,
    seat: int,
    pauses: nat,
    customer: int,
    number: int,
    foundDay: int,
    matched: bool)

  function NewOperator(k: int): OperatorState {
    OperatorState(OffDuty, k, 0, 0, 0, 0, 0, false)
  }

  // ---------- dispenser and director ----------

  datatype DispenserPc = Idle | Holding(sender: int) | Replied | DispenserConfused

  datatype Dispenser = Dispenser(pc: DispenserPc, counter: nat)

  datatype ExitMode = Explode | Timeout

  datatype DirectorPc =
    | LoopHead
    | OpenCheck
    | PostOpen(left: nat)
    | CloseCheck
    | PostClose(left: nat)
    | Boundary
    | ResetStats
    | ResetSeats
    | ResetDone
    | PostDay(left: nat)
    | CheckNewUsers
    | Advance
    | Killing(exploded: bool)
    | Reported(exploded: bool, mode: ExitMode)

  /** minutes and days are the director's own variables; ticks counts completed iterations. */
  datatype DirectorState = DirectorState(pc: DirectorPc, minutes: nat, days: nat, ticks: nat)

  /**
   History of a run: the archived daily statistics, the day tokens users have
   consumed and operators have consumed, the crowd for which each day's tokens were
   posted, failures recorded before a ticket was asked for, the number of seat
   resets begun, whether nobody sat at a seat at the last reset, and the seats left
   occupied by users who went away, and the log of the doors.
   */
  datatype History = History(
    past: seq<DayRecord>,
    userTokens: nat,
    operatorTokens: nat,
    crowds: seq<nat>,
    ticketless: nat,
    seatDay: nat,
    calm: bool,
    abandoned: set<int>,
    doors: DoorLog)

  /**
   History of the doors: the number of users after each tick, beginning with none
   completed; the tokens posted for opening and for closing; and how many of each have
   been consumed.
   */
  datatype DoorLog = DoorLog(people: seq<nat>, opening: nat, closing: nat, entered: nat, shut: nat)

  /** The counting semaphores on which processes wait for one another. */
  datatype Events = Events(day: nat, open: nat, close: nat, station: nat, freed: nat)

  datatype State = State(
    users: map<int, UserState>,
    operators: map<int, OperatorState>,
    queue: multiset<Msg>,
    dispenser: Dispenser,
    director: DirectorState,
    stats: Shared<Stats, StatWrite>,
    seats: Shared<seq<Seat>, SeatWrite>,
    events: Events,
    hist: History)

  // ---------- process ids ----------

  /**
   Pids that the message types tell apart. The third clause concerns a user whose
   pid equals the type used when a seat names no operator (process 0).
   */
  ghost predicate PidsDistinct(users: set<int>, operators: set<int>) {
    && (forall u | u in users :: u > 0 && u != TICKET_TYPE && u != SERVICE_BASE)
    && (forall p | p in operators :: p > 0)
    && (forall u, p | u in users && p in operators :: u != SERVICE_BASE + p)
  }

  // ---------- initial states ----------

  ghost predicate Init(c: Config, s: State) {
    && Loaded(c)
    && PidsDistinct(s.users.Keys, s.operators.Keys)
    && (forall u | u in s.users :: s.users[u] == NewUser())
    && (forall p | p in s.operators ::
          IsService(s.operators[p].service) && s.operators[p] == NewOperator(s.operators[p].service))
    && s.queue == multiset{}
    && s.dispenser == Dispenser(Idle, 0)
    && s.director == DirectorState(LoopHead, 0, 0, 0)
    && Zeroed(s.stats.view)
    && s.stats == Shared(s.stats.view, s.stats.view, 1, map[])
    && s.seats == Shared(s.seats.view, s.seats.view, 1, map[])
    && |s.seats.view| == c.numSeats
    && (forall i | 0 <= i < c.numSeats :: s.seats.view[i] == Seat(0, FREE, FREE, 0))
    && s.events == Events(0, 0, 0, 0, 0)
    && s.hist == History([], 0, 0, [], 0, 0, true, {}, DoorLog([|s.users|], 0, 0, 0, 0))
  }

  ghost predicate Zeroed(m: Stats) {
    && Blank(m.sim) && Blank(m.today)
    && m.counts == Counts(0, 0, 0, 0, 0) && m.clock == Clock(0, 0, 0)
  }

  // ---------- common to all processes ----------

  /** Until the director has reaped its children and reported, every process may take steps. */
  predicate Running(s: State) {
    !s.director.pc.Reported?
  }

  predicate OutsideLocks(s: State, p: Proc) {
    p !in s.stats.inside && p !in s.seats.inside
  }

  /** start_new_day is rewriting the seats. */
  predicate Resetting(s: State) {
    TheDirector in s.seats.inside
  }

  /** The day of the seat table that a reader sees, or -1 while the table is being rewritten. */
  function TableDay(s: State): int {
    if Resetting(s) then -1 else s.hist.seatDay
  }

  /** Writes owed by a section that a step enters, if it enters one. */
  datatype Section<W> = Outside | Owes(writes: seq<W>)

  /** What a step does to everything that is shared. */
  datatype Effect = Effect(
    stats: Section<StatWrite>,
    seats: Section<SeatWrite>,
    taken: multiset<Msg>,
    sent: multiset<Msg>,
    events: Events,
    hist: History)

  function Nothing(s: State): Effect {
    Effect(Outside, Outside, multiset{}, multiset{}, s.events, s.hist)
  }

  function Into<M, W>(apply: (M, W) -> M, sh: Shared<M, W>, p: Proc, section: Section<W>): Shared<M, W> {
    if section.Outside? then sh else SharedRecord.Enter(apply, sh, p, section.writes)
  }

  function Commit(s: State, who: Proc, e: Effect): State {
    s.(stats := Into(ApplyStat, s.stats, who, e.stats),
       seats := Into(ApplySeat, s.seats, who, e.seats),
       queue := s.queue - e.taken + e.sent,
       events := e.events,
       hist := e.hist)
  }

  function Logged(s: State, doors: DoorLog): History {
    s.hist.(doors := doors)
  }

  function Entered(s: State): DoorLog {
    s.hist.doors.(entered := s.hist.doors.entered + 1)
  }

  function Shut(s: State): DoorLog {
    s.hist.doors.(shut := s.hist.doors.shut + 1)
  }

  function Down(n: nat): nat {
    if n > 0 then n - 1 else 0
  }

  function SetItem(users: map<int, UserState>, u: int, item: Item): map<int, UserState> {
    if u in users then users[u := users[u].(item := item)] else users
  }

  function ProcessAt(m: seq<Seat>, i: int): int {
    if 0 <= i < |m| then m[i].process else 0
  }

  predicate Closed(c: Config, s: State) {
    s.stats.mem.clock.minute >= c.shiftClose * 60
  }

  // ---------- the user program ----------

  datatype UserAct =
    | UTakeDay
    | UStayHome
    | UGoOut(list: seq<int>, draw: nat)
    | UEnterOffice
    | UWalkIn
    | UGoHome
    | USeeClosed
    | UBegin
    | UAskTicket(sent: bool)
    | UGetTicket(m: Msg)
    | UFindSeats
    | UJudgeSeats
    | UTrySeat
    | URetryLate
    | URetryAgain
    | UReadOperator
    | UReadClock
    | USendRequest(sent: bool)
    | UGetDone(m: Msg)
    | UReadEnd
    | URecord
    | USeeLate
    | UNotLate
    | UFreeSeat
    | UPostFreed
    | ULate
    | UFail

  predicate UserEnabled(c: Config, s: State, u: int, a: UserAct)
    requires u in s.users
  {
    var x := s.users[u];
    match a
    case UTakeDay => x.pc == WaitDay && s.events.day > 0
    case UStayHome => x.pc == Starting
    case UGoOut(list, draw) =>
      x.pc == Starting && 1 <= |list| <= c.maxRequests && forall i | 0 <= i < |list| :: IsService(list[i])
    case UEnterOffice => x.pc == WaitOpen && s.events.open > 0
    case UWalkIn => x.pc == WaitWalkIn && s.stats.mem.clock.minute >= x.plan.walkIn
    case UGoHome => x.pc == Head && x.plan.next >= |x.plan.list|
    case USeeClosed => x.pc == Head && x.plan.next < |x.plan.list| && Closed(c, s)
    case UBegin => x.pc == Head && x.plan.next < |x.plan.list| && !Closed(c, s)
    case UAskTicket(sent) => x.pc == ReadyToAsk
    case UGetTicket(m) => x.pc == AwaitTicket && m in s.queue && m.mtype == u
    case UFindSeats => x.pc == HaveTicket && s.seats.sem > 0
    case UJudgeSeats => x.pc == Searched
    case UTrySeat => x.pc == TrySeat && s.seats.sem > 0
    case URetryLate => x.pc == Retry && Closed(c, s)
    case URetryAgain => x.pc == Retry && !Closed(c, s)
    case UReadOperator => x.pc == HaveSeat
    case UReadClock => x.pc == ReadClock
    case USendRequest(sent) => x.pc == ReadyToSend
    case UGetDone(m) => x.pc == AwaitDone && m in s.queue && m.mtype == u
    case UReadEnd => x.pc == HaveDone
    case URecord => x.pc == ReadyToRecord && s.stats.sem > 0
    case USeeLate => x.pc == CheckClose && Closed(c, s)
    case UNotLate => x.pc == CheckClose && !Closed(c, s)
    case UFreeSeat => x.pc == ReadyToFree && s.seats.sem > 0
    case UPostFreed => x.pc == Freed
    case ULate => x.pc.BeLate? && s.stats.sem > 0
    case UFail => x.pc.BeFailed? && s.stats.sem > 0
  }

  /** The next iteration of the day's loop. */
  function NextService(x: UserState): UserState {
    x.(pc := Head, plan := x.plan.(next := x.plan.next + 1))
  }

  /** The user's own variables after a step. */
  function UserNext(c: Config, s: State, u: int, a: UserAct): UserState
    requires u in s.users
  {
    var x := s.users[u];
    match a
    case UTakeDay => x.(pc := Starting)
    case UStayHome => x.(pc := WaitDay, plan := x.plan.(wasLate := false))
    case UGoOut(list, draw) =>
      x.(pc := WaitOpen, plan := Plan(list, 0, WalkInTime(c, |list|, draw), false))
    case UEnterOffice => x.(pc := WaitWalkIn)
    case UWalkIn => x.(pc := Head)
    case UGoHome => x.(pc := WaitDay)
    case USeeClosed => x.(pc := BeLate(AtHead))
    case UBegin => x.(pc := ReadyToAsk)
    case UAskTicket(sent) => if sent then x.(pc := AwaitTicket, item := Asked(Wanted(x))) else NextService(x)
    case UGetTicket(m) =>
      if !m.body.TicketResponse? then x.(pc := UserConfused, item := NoItem)
      else if m.body.number < 0 then NextService(x.(item := NoItem))
      else x.(pc := HaveTicket, visit := x.visit.(ticket := m.body.number), item := NoItem)
    case UFindSeats =>
      x.(pc := Searched, visit := x.visit.(valid := ValidSeats(s.seats.mem, Wanted(x), |s.seats.mem|)),
         trace := x.trace.(foundDay := s.hist.seatDay))
    case UJudgeSeats => x.(pc := if |x.visit.valid| == 0 then BeFailed(WithTicket) else TrySeat)
    case UTrySeat =>
      var i := FirstOffered(s.seats.mem, x.visit.valid);
      if i == -1 then x.(pc := Retry) else x.(pc := HaveSeat, visit := x.visit.(seat := i))
    case URetryLate => x.(pc := BeLate(AtRetry))
    case URetryAgain => x.(pc := TrySeat)
    case UReadOperator =>
      var p := ProcessAt(s.seats.mem, x.visit.seat);
      x.(pc := ReadClock, visit := x.visit.(operator := p),
         trace := x.trace.(agreed := x.trace.foundDay == s.hist.seatDay
                                     && (p !in s.operators || s.operators[p].matched)))
    case UReadClock => x.(pc := ReadyToSend, visit := x.visit.(start := s.stats.mem.clock.minute),
         trace := x.trace.(startTick := s.stats.mem.clock.tick))
    case USendRequest(sent) =>
      if sent then x.(pc := AwaitDone, item := Waiting(x.visit.operator, x.visit.ticket))
      else x.(pc := BeFailed(WithTicket))
    case UGetDone(m) =>
      if !m.body.ServiceDone? then x.(pc := UserConfused, item := NoItem)
      else if m.body.number < 0 then x.(pc := BeFailed(WithTicket), item := NoItem)
      else x.(pc := HaveDone, item := NoItem,
              visit := x.visit.(done := Reply(m.body.number, m.body.service, m.body.time)))
    case UReadEnd =>
      x.(pc := ReadyToRecord, visit := x.visit.(wait := s.stats.mem.clock.minute - x.visit.start),
         trace := x.trace.(endTick := s.stats.mem.clock.tick))
    case URecord => x.(pc := CheckClose)
    case USeeLate => x.(pc := BeLate(AtEnd))
    case UNotLate => x.(pc := ReadyToFree)
    case UFreeSeat => x.(pc := Freed)
    case UPostFreed => NextService(x)
    case ULate =>
      var y := x.(plan := x.plan.(wasLate := true));
      if x.pc == BeLate(AtHead) then y.(pc := BeFailed(WithoutTicket))
      else if x.pc == BeLate(AtRetry) then y.(pc := BeFailed(WithTicket))
      else NextService(y)
    case UFail => if x.pc == BeFailed(WithoutTicket) then x.(pc := WaitDay) else NextService(x)
  }

  /** The seat is left behind occupied. */
  function Abandon(h: History, seat: int): History {
    h.(abandoned := h.abandoned + {seat})
  }

  function UserEffect(s: State, u: int, a: UserAct): Effect
    requires u in s.users
  {
    var x := s.users[u];
    var e := Nothing(s);
    match a
    case UTakeDay =>
      e.(events := s.events.(day := Down(s.events.day)), hist := s.hist.(userTokens := s.hist.userTokens + 1))
    case UEnterOffice => e.(events := s.events.(open := Down(s.events.open)), hist := Logged(s, Entered(s)))
    case UAskTicket(sent) => if sent then e.(sent := multiset{AskTicket(u, Wanted(x))}) else e
    case UGetTicket(m) => e.(taken := multiset{m})
    case UFindSeats => e.(seats := Owes([]))
    case UTrySeat =>
      var i := FirstOffered(s.seats.mem, x.visit.valid);
      e.(seats := Owes(if i == -1 then [] else [SetUser(i, OCCUPIED)]))
    case URetryAgain => e.(events := s.events.(freed := Down(s.events.freed)))
    case USendRequest(sent) =>
      if sent then e.(sent := multiset{AskService(u, x.visit.ticket, x.visit.operator)})
      else e.(hist := Abandon(s.hist, x.visit.seat))
    case UGetDone(m) =>
      if m.body.ServiceDone? && m.body.number < 0
      then e.(taken := multiset{m}, hist := Abandon(s.hist, x.visit.seat))
      else e.(taken := multiset{m})
    case URecord => e.(stats := Owes(SuccessWrites(x.visit.done.service, x.visit.wait as real, x.visit.done.time)))
    case USeeLate => e.(hist := Abandon(s.hist, x.visit.seat))
    case UFreeSeat => e.(seats := Owes([SetUser(x.visit.seat, FREE)]))
    case UPostFreed => e.(events := s.events.(freed := s.events.freed + 1))
    case ULate => e.(stats := Owes(LateWrites(Wanted(x), x.plan.wasLate)))
    case UFail =>
      e.(stats := Owes(FailWrites(Wanted(x))),
         hist := if x.pc == BeFailed(WithoutTicket) then s.hist.(ticketless := s.hist.ticketless + 1) else s.hist)
    case _ => e
  }

  // ---------- the operator program ----------

  datatype OperatorAct =
    | OTakeDay
    | OEnterOffice
    | OLookForWork
    | OFirstSearch
    | OWakeUp
    | OSeeClosedWaiting
    | OScanStatus
    | OScanService
    | OTakeFound
    | OSeeClose
    | OStayOpen
    | OPollNothing
    | OPollRequest(m: Msg)
    | OCount
    | OAnswer(draw: nat, sent: bool)
    | OKeepWorking
    | OGoEarly
    | ORelease
    | OPostStation
    | ORecordPause
    | ORecordShift

  predicate OperatorEnabled(c: Config, s: State, p: int, a: OperatorAct)
    requires p in s.operators
  {
    var y := s.operators[p];
    match a
    case OTakeDay => y.pc == OffDuty && s.events.day > 0
    case OEnterOffice => y.pc == OutsideDoor && s.events.open > 0
    case OLookForWork => y.pc.LookForWork?
    case OFirstSearch => y.pc == FirstSearch && s.seats.sem > 0
    case OWakeUp => y.pc == WaitStation && s.events.station > 0
    case OSeeClosedWaiting => y.pc == WaitStation && s.events.close > 0
    case OScanStatus => y.pc.ScanStatus?
    case OScanService => y.pc.ScanService?
    case OTakeFound => y.pc == TakeFound && s.seats.sem > 0
    case OSeeClose => y.pc == OnShift && s.events.close > 0
    case OStayOpen => y.pc == OnShift && s.events.close == 0
    case OPollNothing => y.pc == Poll && forall m | m in s.queue :: m.mtype != SERVICE_BASE + p
    case OPollRequest(m) => y.pc == Poll && m in s.queue && m.mtype == SERVICE_BASE + p
    case OCount => y.pc == GotRequest && s.stats.sem > 0
    case OAnswer(draw, sent) => y.pc == Serving
    case OKeepWorking => y.pc == AfterService
    case OGoEarly => y.pc == AfterService && y.pauses < c.nofPause
    case ORelease => y.pc.Leaving? && s.seats.sem > 0
    case OPostStation => y.pc.LeftSeat?
    case ORecordPause => y.pc == RecordPause && s.stats.sem > 0
    case ORecordShift => y.pc == RecordShift && s.stats.sem > 0
  }

  function OperatorNext(c: Config, s: State, p: int, a: OperatorAct): OperatorState
    requires p in s.operators
  {
    var y := s.operators[p];
    var seats := s.seats.mem;
    match a
    case OTakeDay => y.(pc := OutsideDoor)
    case OEnterOffice => y.(pc := LookForWork(0))
    case OLookForWork =>
      if y.pc.LookForWork? then
        var i := y.pc.i;
        if i >= |seats| then y.(pc := OffDuty)
        else if seats[i].service == y.service then y.(pc := FirstSearch)
        else y.(pc := LookForWork(i + 1))
      else y
    case OFirstSearch =>
      var i := FindSeat(seats, y.service);
      if i == -1 then y.(pc := WaitStation) else y.(pc := OnShift, seat := i, matched := true)
    case OWakeUp => y.(pc := ScanStatus(0))
    case OSeeClosedWaiting => y.(pc := OffDuty)
    case OScanStatus =>
      if y.pc.ScanStatus? then
        var i := y.pc.i;
        if i >= |seats| then y.(pc := WaitStation)
        else if seats[i].operator == FREE then y.(pc := ScanService(i))
        else y.(pc := ScanStatus(i + 1))
      else y
    case OScanService =>
      if y.pc.ScanService? then
        var i := y.pc.i;
        if i < |seats| && seats[i].service == y.service
        then y.(pc := TakeFound, seat := i, foundDay := TableDay(s))
        else y.(pc := ScanStatus(i + 1))
      else y
    case OTakeFound => y.(pc := OnShift, matched := y.foundDay == s.hist.seatDay)
    case OSeeClose => y.(pc := Leaving(false))
    case OStayOpen => y.(pc := Poll)
    case OPollNothing => y.(pc := OnShift)
    case OPollRequest(m) =>
      if m.body.ServiceRequest? then y.(pc := GotRequest, customer := m.body.sender, number := m.body.number)
      else y.(pc := OperatorConfused)
    case OCount => y.(pc := Serving)
    case OAnswer(draw, sent) => y.(pc := AfterService)
    case OKeepWorking => y.(pc := OnShift)
    case OGoEarly => y.(pc := Leaving(true), pauses := y.pauses + 1)
    case ORelease => y.(pc := LeftSeat(y.pc.Leaving? && y.pc.early))
    case OPostStation => y.(pc := if y.pc.LeftSeat? && y.pc.early then RecordPause else RecordShift)
    case ORecordPause => y.(pc := RecordShift)
    case ORecordShift => y.(pc := OffDuty)
  }

  /** The time an operator reports for one service. */
  function TimeTaken(c: Config, y: OperatorState, draw: nat): real {
    if Loaded(c) && IsService(y.service) then ServiceMinutes(c, y.service, draw) else 0.0
  }

  /** The history variable of the customer whose exchange the operator advances. */
  function OperatorUsers(c: Config, s: State, p: int, a: OperatorAct): map<int, UserState>
    requires p in s.operators
  {
    var y := s.operators[p];
    match a
    case OPollRequest(m) =>
      if m.body.ServiceRequest?
      then SetItem(s.users, m.body.sender, InService(p, m.body.number, y.service, false))
      else s.users
    case OCount => SetItem(s.users, y.customer, InService(p, y.number, y.service, true))
    case OAnswer(draw, sent) =>
      SetItem(s.users, y.customer,
              if sent then Answered(p, y.number, y.service, TimeTaken(c, y, draw)) else AnswerLost(y.service))
    case _ => s.users
  }

  function OperatorEffect(c: Config, s: State, p: int, a: OperatorAct): Effect
    requires p in s.operators
  {
    var y := s.operators[p];
    var e := Nothing(s);
    match a
    case OTakeDay =>
      e.(events := s.events.(day := Down(s.events.day)),
         hist := s.hist.(operatorTokens := s.hist.operatorTokens + 1))
    case OEnterOffice => e.(events := s.events.(open := Down(s.events.open)), hist := Logged(s, Entered(s)))
    case OFirstSearch =>
      var i := FindSeat(s.seats.mem, y.service);
      e.(seats := Owes(if i == -1 then [] else TakeWrites(i, p)))
    case OWakeUp => e.(events := s.events.(station := Down(s.events.station)))
    case OSeeClosedWaiting => e.(events := s.events.(close := Down(s.events.close)), hist := Logged(s, Shut(s)))
    case OScanStatus =>
      if y.pc.ScanStatus? && y.pc.i >= |s.seats.mem|
      then e.(events := s.events.(station := s.events.station + 1))
      else e
    case OTakeFound => e.(seats := Owes(TakeWrites(y.seat, p)))
    case OSeeClose => e.(events := s.events.(close := Down(s.events.close)), hist := Logged(s, Shut(s)))
    case OPollRequest(m) => e.(taken := multiset{m})
    case OCount => e.(stats := Owes(RequestWrites(y.service)))
    case OAnswer(draw, sent) =>
      if sent then e.(sent := multiset{Done(y.customer, p, y.number, y.service, TimeTaken(c, y, draw))}) else e
    case ORelease => e.(seats := Owes(ReleaseWrites(y.seat)))
    case OPostStation => e.(events := s.events.(station := s.events.station + 1))
    case ORecordPause => e.(stats := Owes(PauseWrites()))
    case ORecordShift => e.(stats := Owes(ActiveWrites()))
    case _ => e
  }

  // ---------- the dispenser program ----------

  datatype DispenserAct = DReceive(m: Msg) | DReply(sent: bool) | DCount

  predicate DispenserEnabled(s: State, a: DispenserAct) {
    match a
    case DReceive(m) => s.dispenser.pc == Idle && m in s.queue && m.mtype == TICKET_TYPE
    case DReply(sent) => s.dispenser.pc.Holding?
    case DCount => s.dispenser.pc == Replied
  }

  function DispenserNext(s: State, a: DispenserAct): Dispenser {
    var d := s.dispenser;
    match a
    case DReceive(m) => d.(pc := if m.body.TicketRequest? then Holding(m.body.sender) else DispenserConfused)
    case DReply(sent) => d.(pc := Replied)
    case DCount => Dispenser(Idle, d.counter + 1)
  }

  function DispenserUsers(s: State, a: DispenserAct): map<int, UserState> {
    match a
    case DReceive(m) => if m.body.TicketRequest? then SetItem(s.users, m.body.sender, AtDispenser) else s.users
    case DReply(sent) =>
      if s.dispenser.pc.Holding?
      then SetItem(s.users, s.dispenser.pc.sender,
                   if sent then Ticketed(s.dispenser.counter) else TicketLost(s.dispenser.counter))
      else s.users
    case DCount => s.users
  }

  function DispenserEffect(s: State, a: DispenserAct): Effect {
    var e := Nothing(s);
    match a
    case DReceive(m) => e.(taken := multiset{m})
    case DReply(sent) =>
      if sent && s.dispenser.pc.Holding?
      then e.(sent := multiset{GiveTicket(s.dispenser.pc.sender, s.dispenser.counter)})
      else e
    case DCount => e
  }

  // ---------- the director program ----------

  datatype DirectorAct =
    | XLoop
    | XOpenCheck
    | XPostOpen
    | XCloseCheck
    | XPostClose
    | XBoundary
    | XResetStats
    | XResetSeats(services: seq<int>)
    | XResetDone
    | XPostDay
    | XNewUsers(pids: set<int>)
    | XAdvance
    | XReport

  ghost predicate DirectorEnabled(c: Config, s: State, a: DirectorAct) {
    var d := s.director;
    match a
    case XLoop => d.pc == LoopHead
    case XOpenCheck => d.pc == OpenCheck
    case XPostOpen => d.pc.PostOpen?
    case XCloseCheck => d.pc == CloseCheck
    case XPostClose => d.pc.PostClose?
    case XBoundary => d.pc == Boundary
    case XResetStats => d.pc == ResetStats && s.stats.sem > 0
    case XResetSeats(services) =>
      && d.pc == ResetSeats && s.seats.sem > 0
      && |services| == c.numSeats && forall i | 0 <= i < |services| :: IsService(services[i])
    case XResetDone => d.pc == ResetDone
    case XPostDay => d.pc.PostDay?
    case XNewUsers(pids) =>
      && d.pc == CheckNewUsers && pids !! s.users.Keys && pids !! s.operators.Keys
      && PidsDistinct(s.users.Keys + pids, s.operators.Keys)
    case XAdvance => d.pc == Advance && s.stats.sem > 0
    case XReport => d.pc.Killing?
  }

  function Crowd(s: State): nat {
    |s.users| + |s.operators|
  }

  function DirectorNext(c: Config, s: State, a: DirectorAct): DirectorState {
    var d := s.director;
    match a
    case XLoop => d.(pc := if d.days < c.simDuration then OpenCheck else Killing(false))
    case XOpenCheck =>
      d.(pc := if d.minutes == c.shiftOpen * 60 && d.minutes != 0 then PostOpen(Crowd(s)) else CloseCheck)
    case XPostOpen => d.(pc := if d.pc.PostOpen? && d.pc.left > 0 then PostOpen(d.pc.left - 1) else CloseCheck)
    case XCloseCheck =>
      d.(pc := if d.minutes == c.shiftClose * 60 && d.minutes != 0 then PostClose(|s.operators|) else Boundary)
    case XPostClose => d.(pc := if d.pc.PostClose? && d.pc.left > 0 then PostClose(d.pc.left - 1) else Boundary)
    case XBoundary =>
      if d.minutes % MINUTES_A_DAY != 0 then d.(pc := CheckNewUsers)
      else d.(days := d.days + 1,
              pc := if s.stats.mem.counts.lateToday > c.explodeMax then Killing(true) else ResetStats)
    case XResetStats => d.(pc := ResetSeats)
    case XResetSeats(services) => d.(pc := ResetDone)
    case XResetDone => d.(pc := PostDay(Crowd(s)))
    case XPostDay =>
      if d.pc.PostDay? && d.pc.left > 0 then d.(pc := PostDay(d.pc.left - 1))
      else d.(pc := CheckNewUsers, minutes := 0)
    case XNewUsers(pids) => d.(pc := Advance)
    case XAdvance => d.(pc := LoopHead, minutes := d.minutes + 1, ticks := d.ticks + 1)
    case XReport =>
      d.(pc := Reported(d.pc.Killing? && d.pc.exploded,
                        if s.stats.mem.counts.lateToday > c.explodeMax then Explode else Timeout))
  }

  /** The user sits at its seat: from taking it until it frees it or walks away. */
  predicate Sitting(x: UserState) {
    || x.pc.HaveSeat? || x.pc.ReadClock? || x.pc.ReadyToSend? || x.pc.AwaitDone?
    || x.pc.HaveDone? || x.pc.ReadyToRecord? || x.pc.CheckClose? || x.pc.ReadyToFree?
  }

  function DirectorUsers(s: State, a: DirectorAct): map<int, UserState> {
    match a
    case XNewUsers(pids) => s.users + map u | u in pids :: NewUser()
    case _ => s.users
  }

  ghost function DirectorEffect(s: State, a: DirectorAct): Effect {
    var d := s.director;
    var e := Nothing(s);
    match a
    case XPostOpen =>
      if d.pc.PostOpen? && d.pc.left > 0
      then e.(events := s.events.(open := s.events.open + 1),
              hist := Logged(s, s.hist.doors.(opening := s.hist.doors.opening + 1)))
      else e
    case XPostClose =>
      if d.pc.PostClose? && d.pc.left > 0
      then e.(events := s.events.(close := s.events.close + 1),
              hist := Logged(s, s.hist.doors.(closing := s.hist.doors.closing + 1)))
      else e
    case XResetStats =>
      e.(stats := Owes(NewDayWrites(d.days)), hist := s.hist.(past := s.hist.past + [ThisDay(s.stats.view)]))
    case XResetSeats(services) =>
      e.(seats := Owes(ResetWrites(services, 0)),
         hist := s.hist.(seatDay := s.hist.seatDay + 1, calm := forall u | u in s.users :: !Sitting(s.users[u]),
                         abandoned := {}))
    case XResetDone => e.(hist := s.hist.(crowds := s.hist.crowds + [Crowd(s)]))
    case XPostDay =>
      if d.pc.PostDay? && d.pc.left > 0 then e.(events := s.events.(day := s.events.day + 1)) else e
    case XAdvance =>
      e.(stats := Owes(ClockWrites(d.minutes + 1, d.ticks + 1)),
         hist := Logged(s, s.hist.doors.(people := s.hist.doors.people + [|s.users|])))
    case _ => e
  }

  // ---------- the whole system ----------

  datatype Action =
    | UserStep(u: int, ua: UserAct)
    | OperatorStep(p: int, oa: OperatorAct)
    | DispenserStep(da: DispenserAct)
    | DirectorStep(xa: DirectorAct)
    | StatStep(who: Proc)
    | StatLeave(who: Proc)
    | SeatStep(who: Proc)
    | SeatLeave(who: Proc)

  /** The director enters the section that rewrites the seats. */
  predicate IsReset(a: Action) {
    a.DirectorStep? && a.xa.XResetSeats?
  }

  ghost predicate Enabled(c: Config, s: State, a: Action) {
    && Running(s)
    && match a
       case UserStep(u, ua) => u in s.users && OutsideLocks(s, TheUser(u)) && UserEnabled(c, s, u, ua)
       case OperatorStep(p, oa) => p in s.operators && OutsideLocks(s, TheOperator(p)) && OperatorEnabled(c, s, p, oa)
       case DispenserStep(da) => DispenserEnabled(s, da)
       case DirectorStep(xa) => OutsideLocks(s, TheDirector) && DirectorEnabled(c, s, xa)
       case StatStep(who) => who in s.stats.inside && s.stats.inside[who] != []
       case StatLeave(who) => who in s.stats.inside && s.stats.inside[who] == []
       case SeatStep(who) => who in s.seats.inside && s.seats.inside[who] != []
       case SeatLeave(who) => who in s.seats.inside && s.seats.inside[who] == []
  }

  ghost function Apply(c: Config, s: State, a: Action): State
    requires Enabled(c, s, a)
  {
    match a
    case UserStep(u, ua) =>
      Commit(s, TheUser(u), UserEffect(s, u, ua)).(users := s.users[u := UserNext(c, s, u, ua)])
    case OperatorStep(p, oa) =>
      Commit(s, TheOperator(p), OperatorEffect(c, s, p, oa)).(
        operators := s.operators[p := OperatorNext(c, s, p, oa)], users := OperatorUsers(c, s, p, oa))
    case DispenserStep(da) =>
      Commit(s, TheDirector, DispenserEffect(s, da)).(
        dispenser := DispenserNext(s, da), users := DispenserUsers(s, da))
    case DirectorStep(xa) =>
      Commit(s, TheDirector, DirectorEffect(s, xa)).(
        director := DirectorNext(c, s, xa), users := DirectorUsers(s, xa))
    case StatStep(who) => s.(stats := WriteNext(ApplyStat, s.stats, who))
    case StatLeave(who) => s.(stats := Leave(s.stats, who))
    case SeatStep(who) => s.(seats := WriteNext(ApplySeat, s.seats, who))
    case SeatLeave(who) => s.(seats := Leave(s.seats, who))
  }

  /** A finite run: the states passed through and the actions between them. */
  ghost predicate Execution(c: Config, states: seq<State>, actions: seq<Action>) {
    && |states| == |actions| + 1
    && Init(c, states[0])
    && forall i | 0 <= i < |actions| ::
         Enabled(c, states[i], actions[i]) && states[i + 1] == Apply(c, states[i], actions[i])
  }
}
