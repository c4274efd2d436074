/** The main results, for every state of every run and every step that can be taken there. */
module Theorems {
  import opened Settings
  import opened SharedRecord
  import opened Statistics
  import opened Seats
  import opened Protocol
  import opened Locks
  import opened Moves
  import opened Sessions
  import opened Stations
  import opened Agreement
  import opened Places
  import opened Director
  import opened Outcome
  import opened Tokens
  import opened Tallies
  import opened Tickets
  import opened Unwritten
  import opened Counting
  import opened Timing
  import opened Runs

  // ---------- locks ----------

  /** Each semaphore is 1 minus its holders, and no process holds both. */
  lemma LockDiscipline(c: Config, s: State)
    requires Reachable(c, s)
    ensures && s.stats.sem == 1 - |s.stats.inside| && s.stats.sem >= 0
            && s.seats.sem == 1 - |s.seats.inside| && s.seats.sem >= 0
            && forall p :: !(p in s.stats.inside && p in s.seats.inside)
  {
    ReachableInv(c, s);
    SemaphoreCountsHolders(ApplyStat, s.stats);
    SemaphoreCountsHolders(ApplySeat, s.seats);
  }

  /** With the lock free, what is in memory is exactly the effect of the completed sections. */
  lemma FreeMeansSettled(c: Config, s: State)
    requires LockInv(c, s)
    ensures s.stats.sem > 0 ==> s.stats.mem == s.stats.view
    ensures s.seats.sem > 0 ==> s.seats.mem == s.seats.view
  {
  }

  // ---------- sessions ----------

  /** All that is on its way for user u: its messages, the dispenser's hand, the operators serving it. */
  ghost predicate Pending(s: State, u: int) {
    || (exists m :: m in s.queue && Owner(m) == u)
    || s.dispenser.pc == Holding(u)
    || (exists p :: p in s.operators && Engaged(s.operators[p]) && s.operators[p].customer == u)
  }

  /**
   Session matching: user u has at most one item anywhere, and its kind goes with
   the user's program counter.
   */
  lemma OneItemPerUser(c: Config, s: State, u: int)
    requires Reachable(c, s) && u in s.users
    ensures && (forall m | m in s.queue && Owner(m) == u ::
                  && s.queue[m] == 1
                  && (m.body.TicketRequest? || m.body.TicketResponse? <==> s.users[u].pc == AwaitTicket)
                  && (m.body.ServiceRequest? || m.body.ServiceDone? <==> s.users[u].pc == AwaitDone))
            && (forall m, n | m in s.queue && n in s.queue && Owner(m) == u && Owner(n) == u :: m == n)
            && (s.dispenser.pc == Holding(u) ==> s.users[u].pc == AwaitTicket)
            && (forall p | p in s.operators && Engaged(s.operators[p]) && s.operators[p].customer == u ::
                  s.users[u].pc == AwaitDone && s.operators[p].number == s.users[u].visit.ticket)
            && (Pending(s, u) ==> s.users[u].pc == AwaitTicket || s.users[u].pc == AwaitDone)
  {
    ReachableInv(c, s);
    OneItem(s, u);
  }

  /** A user with a message on the queue is in nobody's hands, and no two operators serve the same user. */
  lemma NoTwoPlaces(c: Config, s: State, u: int)
    requires Reachable(c, s) && u in s.users
    ensures && (forall m, p | m in s.queue && Owner(m) == u && p in s.operators && Engaged(s.operators[p]) ::
                  s.operators[p].customer != u && s.dispenser.pc != Holding(u))
            && (forall p, q | p in s.operators && q in s.operators && p != q
                              && Engaged(s.operators[p]) && Engaged(s.operators[q])
                              && s.operators[p].customer == u :: s.operators[q].customer != u)
  {
    ReachableInv(c, s);
    NoSecondItem(s, u);
  }

  lemma NoSecondItem(s: State, u: int)
    requires SessionInv(s) && u in s.users
    ensures forall m, p | m in s.queue && Owner(m) == u && p in s.operators && Engaged(s.operators[p]) ::
              s.operators[p].customer != u && s.dispenser.pc != Holding(u)
    ensures forall p, q | p in s.operators && q in s.operators && p != q
                          && Engaged(s.operators[p]) && Engaged(s.operators[q])
                          && s.operators[p].customer == u :: s.operators[q].customer != u
  {
    OneItem(s, u);
  }

  /** The item of the customer that operator p is serving. */
  function ServedBy(s: State, p: int): Item
    requires p in s.operators
  {
    var y := s.operators[p];
    InService(p, y.number, y.service, y.pc == Serving)
  }

  lemma OneItem(s: State, u: int)
    requires SessionInv(s) && u in s.users
    ensures forall m | m in s.queue && Owner(m) == u ::
              && Queued(u, s.users[u].item) == multiset{m} && s.queue[m] == 1
              && (m.body.TicketRequest? || m.body.TicketResponse? <==> s.users[u].pc == AwaitTicket)
              && (m.body.ServiceRequest? || m.body.ServiceDone? <==> s.users[u].pc == AwaitDone)
    ensures forall m, n | m in s.queue && n in s.queue && Owner(m) == u && Owner(n) == u :: m == n
    ensures s.dispenser.pc == Holding(u) ==> s.users[u].item == AtDispenser
    ensures s.users[u].item == AtDispenser ==> s.users[u].pc == AwaitTicket
    ensures forall p | p in s.operators && Engaged(s.operators[p]) && s.operators[p].customer == u ::
              && s.users[u].item == ServedBy(s, p)
              && s.users[u].pc == AwaitDone && s.operators[p].number == s.users[u].visit.ticket
  {
    assert UserFits(s.operators.Keys, s.users[u]);
    forall m | m in s.queue && Owner(m) == u
      ensures Queued(u, s.users[u].item) == multiset{m} && s.queue[m] == 1
      ensures m.body.TicketRequest? || m.body.TicketResponse? <==> s.users[u].pc == AwaitTicket
      ensures m.body.ServiceRequest? || m.body.ServiceDone? <==> s.users[u].pc == AwaitDone
    {
      QueuedMessage(s, m);
      assert s.queue[m] == Expected(s.users, m);
    }
    forall m, n | m in s.queue && n in s.queue && Owner(m) == u && Owner(n) == u ensures m == n {
      assert m in multiset{n};
    }
    forall p | p in s.operators && Engaged(s.operators[p]) && s.operators[p].customer == u
      ensures s.users[u].item == ServedBy(s, p)
    {
      assert OperatorFits(s.users, p, s.operators[p]);
    }
  }

  /** The reply a user receives is of the kind it waits for, and a done message carries the ticket it sent. */
  lemma RepliesMatch(c: Config, s: State, u: int, ua: UserAct)
    requires Reachable(c, s) && u in s.users && UserEnabled(c, s, u, ua)
    ensures match ua
            case UGetTicket(m) => m.body.TicketResponse? && m.body.number >= 0
            case UGetDone(m) => m.body.ServiceDone? && m.body.number == s.users[u].visit.ticket
            case _ => true
  {
    ReachableInv(c, s);
    if ua.UGetTicket? || ua.UGetDone? {
      ReceivedByUser(s, u, ua.m);
    }
  }

  function OwnerOf(): Msg -> int {
    (m: Msg) => Owner(m)
  }

  lemma OwnersDiffer(s: State, m: Msg, n: Msg)
    requires SessionInv(s) && m in s.queue && n in s.queue && Owner(m) == Owner(n)
    ensures Owner(m) in s.users && s.queue[m] == 1 && m == n
  {
    QueuedMessage(s, m);
    OneItem(s, Owner(m));
  }

  lemma QueueInjects(s: State)
    requires SessionInv(s)
    ensures |s.queue| <= |s.users|
  {
    var messages := set m | m in s.queue;
    forall m | m in messages ensures OwnerOf()(m) in s.users.Keys && s.queue[m] == 1 {
      OwnersDiffer(s, m, m);
    }
    forall m, n | m in messages && n in messages && OwnerOf()(m) == OwnerOf()(n) ensures m == n {
      OwnersDiffer(s, m, n);
    }
    assert s.queue == multiset(messages);
    InjectionSize(messages, s.users.Keys, OwnerOf());
  }

  /** The queue never holds more messages than there are users. */
  lemma QueueBounded(c: Config, s: State)
    requires Reachable(c, s)
    ensures |s.queue| <= |s.users|
  {
    ReachableInv(c, s);
    QueueInjects(s);
  }

  // ---------- services ----------

  /** A user whose operator was named in time receives the service it asked for, on whatever day. */
  lemma ServiceAgreed(c: Config, s: State, u: int, m: Msg)
    requires Reachable(c, s) && u in s.users && UserEnabled(c, s, u, UGetDone(m))
    requires s.users[u].trace.agreed
    ensures m.body.ServiceDone? && m.body.service == Wanted(s.users[u])
  {
    ReachableInv(c, s);
    DoneIsAgreed(c, s, u, m);
  }

  lemma DoneIsAgreed(c: Config, s: State, u: int, m: Msg)
    requires SessionInv(s) && AgreeInv(c, s) && u in s.users && s.users[u].pc == AwaitDone
    requires m in s.queue && m.mtype == u && s.users[u].trace.agreed
    ensures m.body.ServiceDone? && m.body.service == Wanted(s.users[u])
  {
    ReceivedByUser(s, u, m);
    assert AgreedFits(s.operators, s.users[u]);
  }

  /** Between two states of a run the seat-table day grows by the resets begun between them. */
  function ResetsDone(actions: seq<Action>, i: nat, j: nat): nat
    requires i <= j <= |actions|
  {
    if i == j then 0 else ResetsDone(actions, i, j - 1) + One(IsReset(actions[j - 1]))
  }

  lemma {:induction false} ResetsAddUp(states: seq<State>, actions: seq<Action>, i: nat, j: nat)
    requires |states| == |actions| + 1 && i <= j <= |actions|
    requires forall k | i <= k < j ::
               states[k + 1].hist.seatDay == states[k].hist.seatDay + One(IsReset(actions[k]))
    ensures states[j].hist.seatDay == states[i].hist.seatDay + ResetsDone(actions, i, j)
    decreases j - i
  {
    if i < j {
      ResetsAddUp(states, actions, i, j - 1);
      assert states[j - 1 + 1].hist.seatDay == states[j].hist.seatDay;
    }
  }

  lemma SeatDaysAreResets(c: Config, states: seq<State>, actions: seq<Action>, i: nat, j: nat)
    requires Execution(c, states, actions) && i <= j <= |actions|
    ensures states[j].hist.seatDay == states[i].hist.seatDay + ResetsDone(actions, i, j)
  {
    forall k | i <= k < j
      ensures states[k + 1].hist.seatDay == states[k].hist.seatDay + One(IsReset(actions[k]))
    {
      NextSeatDay(c, states, actions, k);
    }
    ResetsAddUp(states, actions, i, j);
  }

  lemma NextSeatDay(c: Config, states: seq<State>, actions: seq<Action>, j: nat)
    requires Execution(c, states, actions) && j < |actions|
    ensures states[j + 1].hist.seatDay == states[j].hist.seatDay + One(IsReset(actions[j]))
  {
    InvAlways(c, states, actions, j);
    SeatDayMoves(c, states[j], actions[j]);
  }

  lemma SeatDayMoves(c: Config, s: State, a: Action)
    requires LockInv(c, s) && Enabled(c, s, a)
    ensures Apply(c, s, a).hist.seatDay == s.hist.seatDay + One(IsReset(a))
  {
    StepsAreAtomic(c, s, a);
    SeatDayStep(c, s, Apply(c, s, a), a);
  }

  lemma SeatDayStep(c: Config, s: State, s': State, a: Action)
    requires Moved(c, s, s', a)
    ensures s'.hist.seatDay == s.hist.seatDay + One(IsReset(a))
  {
    match a
    case UserStep(u, ua) => UserKeepsDay(s, u, ua);
    case OperatorStep(p, oa) => OperatorKeepsDay(c, s, p, oa);
    case DirectorStep(xa) => DirectorAndDay(c, s, xa);
    case _ =>
  }

  // ---------- seats ----------

  function ProcessOf(m: seq<Seat>): int -> int {
    i => ProcessAt(m, i)
  }

  /**
   The register, whenever stations_lock is free: a seat is OCCUPIED iff it names a
   process, that process is on shift at this seat, hence no process is named twice,
   and occupied seats never outnumber the operators on shift.
   */
  lemma RegisterHolds(c: Config, s: State)
    requires Reachable(c, s) && s.seats.sem > 0
    ensures var m := s.seats.mem;
            && Registered(s.operators, m)
            && (forall a, b | 0 <= a < |m| && 0 <= b < |m| && m[a].process == m[b].process != 0 :: a == b)
            && |OccupiedSeats(m)| <= Count(s.operators, AtSeat)
  {
    ReachableInv(c, s);
    FreeMeansSettled(c, s);
    RegisterInjective(s.operators, s.seats.mem);
  }

  function OccupiedSeats(m: seq<Seat>): set<int> {
    set a | 0 <= a < |m| && m[a].operator == OCCUPIED
  }

  lemma RegisterInjective(operators: map<int, OperatorState>, m: seq<Seat>)
    requires Registered(operators, m)
    ensures forall a, b | 0 <= a < |m| && 0 <= b < |m| && m[a].process == m[b].process != 0 :: a == b
    ensures |OccupiedSeats(m)| <= Count(operators, AtSeat)
  {
    forall a, b | 0 <= a < |m| && 0 <= b < |m| && m[a].process == m[b].process != 0 ensures a == b {
      assert SeatRegistered(operators, m[a], a) && SeatRegistered(operators, m[b], b);
    }
    forall a | a in OccupiedSeats(m) ensures ProcessOf(m)(a) in Having(operators, AtSeat) {
      assert SeatRegistered(operators, m[a], a);
    }
    InjectionSize(OccupiedSeats(m), Having(operators, AtSeat), ProcessOf(m));
  }

  /** On a day that began with nobody sitting, users never share a seat, whatever the interleaving. */
  lemma NoSharedSeat(c: Config, s: State)
    requires Reachable(c, s) && s.hist.calm
    ensures forall u, w | u in s.users && w in s.users && u != w && Sitting(s.users[u]) && Sitting(s.users[w]) ::
              s.users[u].visit.seat != s.users[w].visit.seat
  {
    ReachableInv(c, s);
  }

  /**
   On such a day, whenever stations_lock is free, the seat of whoever sits is OCCUPIED
   for users, so a FREE seat has no holder.
   */
  lemma SittersSeatsAreTaken(c: Config, s: State)
    requires Reachable(c, s) && s.hist.calm && s.seats.sem > 0
    ensures forall u | u in s.users && Sitting(s.users[u]) ::
              0 <= s.users[u].visit.seat < |s.seats.mem| && s.seats.mem[s.users[u].visit.seat].user == OCCUPIED
  {
    ReachableInv(c, s);
    FreeMeansSettled(c, s);
    forall u | u in s.users && Sitting(s.users[u])
      ensures 0 <= s.users[u].visit.seat < c.numSeats && SeatTaken(s.seats.view, s.users[u].visit.seat)
    {
      assert SearchFits(c, s, s.users[u]);
    }
  }

  /** A seat whose user walked away stays OCCUPIED, with nobody on it, until the next reset. */
  lemma AbandonedSeatsStayTaken(c: Config, s: State, a: int)
    requires Reachable(c, s) && s.hist.calm && s.seats.sem > 0
    requires a in s.hist.abandoned && 0 <= a < |s.seats.mem|
    ensures s.seats.mem[a].user == OCCUPIED
    ensures forall u | u in s.users && Sitting(s.users[u]) :: s.users[u].visit.seat != a
  {
    ReachableInv(c, s);
    FreeMeansSettled(c, s);
    assert SeatTaken(s.seats.view, a);
  }

  // ---------- requests ----------

  function IsServing(k: int): OperatorState -> bool {
    (y: OperatorState) => y.pc == Serving && y.service == k
  }

  function InServiceFor(k: int): UserState -> bool {
    (x: UserState) => x.item.InService? && x.item.counted && x.item.service == k
  }

  function AnsweredFor(k: int): UserState -> bool {
    (x: UserState) => x.item.Answered? && x.item.service == k
  }

  /** The done message for this user could not be sent. */
  function AnswerLostFor(k: int): UserState -> bool {
    (x: UserState) => x.item.AnswerLost? && x.item.service == k
  }

  /** The user has received a done message and has not recorded it. */
  function UnrecordedFor(k: int): UserState -> bool {
    (x: UserState) => (x.pc.HaveDone? || x.pc.ReadyToRecord?) && x.visit.done.service == k
  }

  function AnsweredOrLostFor(k: int): UserState -> bool {
    (x: UserState) => (x.item.Answered? || x.item.AnswerLost?) && x.item.service == k
  }

  function OutOfServiceFor(k: int): UserState -> bool {
    (x: UserState) =>
      || ((x.item.Answered? || x.item.AnswerLost?) && x.item.service == k)
      || ((x.pc.HaveDone? || x.pc.ReadyToRecord?) && x.visit.done.service == k)
  }

  function CustomerOf(operators: map<int, OperatorState>): int -> int {
    p => if p in operators then operators[p].customer else 0
  }

  /** Done messages of service k on the queue. */
  ghost function QueuedDone(s: State, k: int): set<Msg> {
    set m | m in s.queue && m.body.ServiceDone? && m.body.service == k
  }

  lemma ServingIsInService(s: State, k: int)
    requires SessionInv(s)
    ensures Count(s.operators, IsServing(k)) == Count(s.users, InServiceFor(k))
  {
    var ps, us := Having(s.operators, IsServing(k)), Having(s.users, InServiceFor(k));
    var f := CustomerOf(s.operators);
    forall p | p in ps ensures f(p) in us && s.users[f(p)].item.operator == p {
      assert OperatorFits(s.users, p, s.operators[p]);
    }
    forall u | u in us ensures exists p :: p in ps && f(p) == u {
      assert CustomerFits(s.operators, u, s.users[u]);
      var p := s.users[u].item.operator;
      assert OperatorFits(s.users, p, s.operators[p]);
      assert p in ps && f(p) == u;
    }
    SameSize(ps, us, f);
  }

  lemma QueuedIsAnswered(s: State, k: int)
    requires SessionInv(s)
    ensures |QueuedDone(s, k)| == Count(s.users, AnsweredFor(k))
  {
    var ms, us := QueuedDone(s, k), Having(s.users, AnsweredFor(k));
    forall m | m in ms ensures OwnerOf()(m) in us {
      QueuedMessage(s, m);
    }
    forall m, n | m in ms && n in ms && OwnerOf()(m) == OwnerOf()(n) ensures m == n {
      OwnersDiffer(s, m, n);
    }
    forall u | u in us ensures exists m :: m in ms && OwnerOf()(m) == u {
      var x := s.users[u].item;
      var m := Done(u, x.operator, x.number, x.service, x.time);
      assert s.queue[m] == Expected(s.users, m) == 1;
      assert m in ms && OwnerOf()(m) == u;
    }
    SameSize(ms, us, OwnerOf());
  }

  lemma CountedSplits(s: State, k: int)
    requires SessionInv(s)
    ensures Count(s.users, CountedFor(k))
         == Count(s.users, InServiceFor(k)) + Count(s.users, AnsweredFor(k)) + Count(s.users, AnswerLostFor(k))
            + Count(s.users, UnrecordedFor(k))
  {
    forall u | u in s.users
      ensures CountedFor(k)(s.users[u]) == (InServiceFor(k)(s.users[u]) || OutOfServiceFor(k)(s.users[u]))
      ensures !(InServiceFor(k)(s.users[u]) && OutOfServiceFor(k)(s.users[u]))
      ensures !(AnsweredOrLostFor(k)(s.users[u]) && UnrecordedFor(k)(s.users[u]))
    {
      assert UserFits(s.operators.Keys, s.users[u]);
    }
    CountSplit(s.users, CountedFor(k), InServiceFor(k), OutOfServiceFor(k));
    CountSplit(s.users, OutOfServiceFor(k), AnsweredOrLostFor(k), UnrecordedFor(k));
    CountSplit(s.users, AnsweredOrLostFor(k), AnsweredFor(k), AnswerLostFor(k));
  }

  /**
   Request conservation, per service: every counted request is recorded as served,
   at an operator, in a queued done message, in the hands of its user, or lost with
   a done message that could not be sent.
   */
  lemma RequestConservation(c: Config, s: State, k: int)
    requires Reachable(c, s) && IsService(k)
    ensures var t := ServiceOf(s.stats.view.sim, k);
            && t.requests == t.served + Count(s.operators, IsServing(k)) + |QueuedDone(s, k)|
                             + Count(s.users, UnrecordedFor(k)) + Count(s.users, AnswerLostFor(k))
            && t.served <= t.requests
  {
    ReachableInv(c, s);
    assert RequestsBalance(s, k);
    CountedSplits(s, k);
    ServingIsInService(s, k);
    QueuedIsAnswered(s, k);
  }

  // ---------- tickets ----------

  /** Ticket responses on the queue. */
  ghost function QueuedTickets(s: State): set<Msg> {
    set m | m in s.queue && m.body.TicketResponse?
  }

  predicate TicketComing(x: UserState) {
    x.item.Ticketed?
  }

  predicate TicketMissing(x: UserState) {
    x.item.TicketLost?
  }

  predicate TicketOnTheWay(x: UserState) {
    x.item.Ticketed? || x.item.TicketLost?
  }

  lemma QueuedIsTicketed(s: State)
    requires SessionInv(s)
    ensures |QueuedTickets(s)| == Count(s.users, TicketComing)
  {
    var ms, us := QueuedTickets(s), Having(s.users, TicketComing);
    forall m | m in ms ensures OwnerOf()(m) in us {
      QueuedMessage(s, m);
    }
    forall m, n | m in ms && n in ms && OwnerOf()(m) == OwnerOf()(n) ensures m == n {
      OwnersDiffer(s, m, n);
    }
    forall u | u in us ensures exists m :: m in ms && OwnerOf()(m) == u {
      var m := GiveTicket(u, s.users[u].item.number);
      assert s.queue[m] == Expected(s.users, m) == 1;
      assert m in ms && OwnerOf()(m) == u;
    }
    SameSize(ms, us, OwnerOf());
  }

  lemma TicketsSplit(s: State)
    requires SessionInv(s)
    ensures Count(s.users, HasTicket)
         == |QueuedTickets(s)| + Count(s.users, TicketMissing) + Count(s.users, HoldsTicket)
  {
    QueuedIsTicketed(s);
    forall u | u in s.users ensures !(TicketOnTheWay(s.users[u]) && HoldsTicket(s.users[u])) {
      assert UserFits(s.operators.Keys, s.users[u]);
    }
    CountSplit(s.users, HasTicket, TicketOnTheWay, HoldsTicket);
    CountSplit(s.users, TicketOnTheWay, TicketComing, TicketMissing);
  }

  /**
   Ticket conservation: the numbers issued are those on the queue, those held
   unresolved, those whose reply could not be sent, and those resolved as served or
   failed; closing-time failures of users without a ticket are set apart.
   */
  lemma TicketConservation(c: Config, s: State)
    requires Reachable(c, s)
    ensures var t := s.stats.view.sim.global;
            Issued(s.dispenser)
            == |QueuedTickets(s)| + Count(s.users, HoldsTicket) + Count(s.users, TicketMissing)
               + t.served + t.failed - s.hist.ticketless
  {
    ReachableInv(c, s);
    TicketsSplit(s);
  }

  /** No ticket number is live in two places, and none is beyond those issued. */
  lemma TicketsUnique(c: Config, s: State, u: int, w: int)
    requires Reachable(c, s)
    requires u in s.users && HasTicket(s.users[u])
    requires w in s.users && HasTicket(s.users[w])
    ensures 0 <= NumberOf(s.users[u]) < Issued(s.dispenser)
    ensures NumberOf(s.users[u]) == NumberOf(s.users[w]) ==> u == w
  {
    ReachableInv(c, s);
  }

  // ---------- totals ----------

  /** Whenever stats_lock is free the ledger in memory is consistent. */
  lemma LedgerInMemory(c: Config, s: State)
    requires Reachable(c, s) && s.stats.sem > 0
    ensures Ledger(s.stats.mem, s.hist.past)
  {
    ReachableInv(c, s);
    FreeMeansSettled(c, s);
  }

  /** Total service time is within half of the nominal time of those served, whenever stats_lock is free. */
  lemma ServiceTimeBounded(c: Config, s: State, k: int)
    requires Reachable(c, s) && IsService(k) && s.stats.sem > 0
    ensures TimeBounded(ServiceOf(s.stats.mem.sim, k), Duration(k))
  {
    ReachableInv(c, s);
    FreeMeansSettled(c, s);
    assert TimeBounded(ServiceOf(s.stats.view.sim, k), Duration(k));
  }

  /**
   The average service time of a service, as the director computes it from memory, is
   at most one and a half times nominal: in every state, whoever may be in the middle
   of writing, and so also in the report that is made after everybody was killed.
   */
  lemma AverageTimeBounded(c: Config, s: State, k: int)
    requires Reachable(c, s) && IsService(k)
    ensures var t := ServiceOf(s.stats.mem.sim, k);
            t.requests > 0 ==> t.time / t.requests as real <= 1.5 * Duration(k) as real
  {
    ReachableInv(c, s);
    ServedLags(c, s, k);
    MemoryLags(s, k);
    var t, v := ServiceOf(s.stats.mem.sim, k), ServiceOf(s.stats.view.sim, k);
    TallyAverage(t, v, Duration(k));
  }

  /** As long as some operator is at work for the service, not every counted request has been recorded. */
  lemma ServedLags(c: Config, s: State, k: int)
    requires Reachable(c, s) && IsService(k)
    ensures var v := ServiceOf(s.stats.view.sim, k);
            && v.served <= v.requests
            && (forall p | p in s.operators && s.operators[p].pc == Serving && s.operators[p].service == k ::
                  v.served <= v.requests - 1)
  {
    RequestConservation(c, s, k);
    forall p | p in s.operators && s.operators[p].pc == Serving && s.operators[p].service == k
      ensures Count(s.operators, IsServing(k)) >= 1
    {
      assert p in Having(s.operators, IsServing(k));
    }
  }

  lemma TallyAverage(t: Tally, v: Tally, nominal: nat)
    requires TimeBounded(v, nominal) && t.time <= v.time && v.served <= t.requests
    ensures t.requests > 0 ==> t.time / t.requests as real <= 1.5 * nominal as real
  {
    if t.requests > 0 {
      AverageBound(t.time, v.served, t.requests, nominal as real);
    }
  }

  lemma AverageBound(time: real, served: int, requests: int, d: real)
    requires 0 <= served <= requests && requests > 0 && d >= 0.0
    requires time <= 3.0 * served as real * d / 2.0
    ensures time / requests as real <= 1.5 * d
  {
    var r := requests as real;
    assert served as real * d <= r * d;
    assert time <= 1.5 * d * r;
    assert time / r * r == time;
    if time / r > 1.5 * d {
      assert time / r * r > 1.5 * d * r;
    }
  }

  /** Total waits stay within 1439 minutes per user served, per service and overall. */
  lemma WaitsBounded(c: Config, s: State, k: int)
    requires Reachable(c, s) && IsTally(k)
    ensures var t := TallyOf(s.stats.view.sim, k);
            -1439.0 * t.served as real <= t.wait <= 1439.0 * t.served as real
  {
    ReachableInv(c, s);
    assert WaitBounded(TallyOf(s.stats.view.sim, k));
  }

  /**
   The wait a user records is the number of clock ticks waited less a day for each
   day boundary in between, so it is exact when there is none.
   */
  lemma WaitIsElapsedTime(c: Config, s: State, u: int)
    requires Reachable(c, s) && u in s.users && s.users[u].pc == ReadyToRecord
    ensures var x := s.users[u]; var a, b := x.trace.startTick, x.trace.endTick;
            && 1 <= a <= b
            && x.visit.wait == (b - a) - MINUTES_A_DAY * (DayOf(b) - DayOf(a))
            && (DayOf(a) == DayOf(b) ==> x.visit.wait == b - a)
  {
    ReachableInv(c, s);
    WaitElapsed(s.users[u], s.stats.mem.clock.tick);
  }

  lemma WaitElapsed(x: UserState, now: nat)
    requires UserTimes(x, now) && x.pc == ReadyToRecord
    ensures var a, b := x.trace.startTick, x.trace.endTick;
            && 1 <= a <= b
            && x.visit.wait == (b - a) - MINUTES_A_DAY * (DayOf(b) - DayOf(a))
            && (DayOf(a) == DayOf(b) ==> x.visit.wait == b - a)
  {
    ShownWait(x.trace.startTick, x.trace.endTick);
  }

  /** No operator takes more pauses than it has. */
  lemma OwnPausesBounded(c: Config, s: State, p: int)
    requires Reachable(c, s) && p in s.operators
    ensures s.operators[p].pauses <= c.nofPause
  {
    ReachableInv(c, s);
  }

  /** Pauses recorded, and those about to be, are the pauses operators have taken, so they are bounded. */
  lemma PausesBounded(c: Config, s: State)
    requires Reachable(c, s)
    ensures s.stats.view.counts.pauses + Count(s.operators, Pausing) == Sum(s.operators, PausesOf)
    ensures s.stats.view.counts.pauses <= |s.operators| * c.nofPause
  {
    ReachableInv(c, s);
    SumBound(s.operators, PausesOf, c.nofPause);
  }

  /** Late users are covered by day tokens consumed by users, and those by the crowds of the days started. */
  lemma LateUsersBounded(c: Config, s: State)
    requires Reachable(c, s)
    ensures && s.stats.view.sim.global.late <= s.hist.userTokens <= SumOf(s.hist.crowds)
            && |s.hist.crowds| <= s.director.days
  {
    ReachableInv(c, s);
  }

  /** With stats_lock free, the figures in memory obey the same laws: requests, waits, pauses, late users. */
  lemma FiguresInMemory(c: Config, s: State, k: int)
    requires Reachable(c, s) && s.stats.sem > 0 && IsService(k)
    ensures var t := ServiceOf(s.stats.mem.sim, k);
            && t.requests == t.served + Count(s.operators, IsServing(k)) + |QueuedDone(s, k)|
                             + Count(s.users, UnrecordedFor(k)) + Count(s.users, AnswerLostFor(k))
            && -1439.0 * t.served as real <= t.wait <= 1439.0 * t.served as real
    ensures s.stats.mem.counts.pauses + Count(s.operators, Pausing) == Sum(s.operators, PausesOf)
    ensures s.stats.mem.counts.pauses <= |s.operators| * c.nofPause
    ensures s.stats.mem.sim.global.late <= s.hist.userTokens <= SumOf(s.hist.crowds)
  {
    ReachableInv(c, s);
    FreeMeansSettled(c, s);
    RequestConservation(c, s, k);
    WaitsBounded(c, s, k);
    PausesBounded(c, s);
    LateUsersBounded(c, s);
  }

  // ---------- the director ----------

  /** Between iterations the two counters are the day and minute of the ticks completed. */
  lemma ClockClosedForm(c: Config, s: State)
    requires Reachable(c, s)
    requires s.director.pc == LoopHead && s.director.ticks >= 1
    ensures var d := s.director;
            && 1 <= d.minutes <= MINUTES_A_DAY
            && (d.days - 1) * MINUTES_A_DAY + d.minutes == d.ticks
            && d.minutes == MinuteOf(d.ticks) && d.days == DayOf(d.ticks) + 1
  {
    ReachableInv(c, s);
    var d := s.director;
    ClockIs(d.ticks, d.days - 1, d.minutes);
  }

  lemma TicksWhenKilling(c: Config, d: DirectorState)
    requires DirectorFits(c, d) && d.pc.Killing?
    ensures if d.pc.exploded then d.ticks % MINUTES_A_DAY == 0 && d.days <= c.simDuration
            else d.ticks == (c.simDuration - 1) * MINUTES_A_DAY + 1
  {
    MultipleOfDay(d.ticks, d.days - 1, d.pc.exploded);
  }

  /**
   A run that ends without an explosion ends after (simDuration - 1) * 1440 + 1
   ticks; an explosion falls on a day boundary.
   */
  lemma TicksAtTheEnd(c: Config, s: State)
    requires Reachable(c, s) && s.director.pc.Killing?
    ensures var d := s.director;
            if d.pc.exploded then d.ticks % MINUTES_A_DAY == 0 && d.days <= c.simDuration
            else d.ticks == (c.simDuration - 1) * MINUTES_A_DAY + 1
  {
    ReachableInv(c, s);
    TicksWhenKilling(c, s.director);
  }

  lemma MultipleOfDay(t: nat, days: nat, exploded: bool)
    requires exploded ==> t == days * MINUTES_A_DAY
    ensures exploded ==> t % MINUTES_A_DAY == 0
  {
  }

  /** The exit mode written: "explode" whenever the director broke off because of late users. */
  lemma ExplosionReported(c: Config, s: State)
    requires Reachable(c, s) && s.director.pc.Reported?
    ensures s.director.pc.exploded ==> s.director.pc.mode == Explode
    ensures s.director.pc.mode == Explode
       <==> s.stats.mem.counts.lateToday > c.explodeMax
  {
    ReachableInv(c, s);
  }
}
