/**
 Request and reply matching. Each user has at most one outstanding item, its kind is
 fixed by the user's program counter, and the queue holds exactly the messages of
 those items.
 */
module Sessions {
  import opened Settings
  import opened SharedRecord
  import opened Statistics
  import opened Seats
  import opened Protocol
  import opened Locks
  import opened Moves

  /** The user a message belongs to: whoever sent the request, or whoever the reply is addressed to. */
  function Owner(m: Msg): int {
    match m.body
    case TicketRequest(sender, _) => sender
    case ServiceRequest(sender, _) => sender
    case TicketResponse(_) => m.mtype
    case ServiceDone(_, _, _, _) => m.mtype
  }

  /** The message, if any, by which the item of user u is on the queue. */
  function Queued(u: int, item: Item): (q: multiset<Msg>)
    ensures |q| <= 1 && forall m | m in q :: Owner(m) == u
  {
    match item
    case Asked(k) => multiset{AskTicket(u, k)}
    case Ticketed(n) => multiset{GiveTicket(u, n)}
    case Waiting(p, n) => multiset{AskService(u, n, p)}
    case Answered(p, n, k, t) => multiset{Done(u, p, n, k, t)}
    case _ => multiset{}
  }

  function Expected(users: map<int, UserState>, m: Msg): nat {
    if Owner(m) in users then Queued(Owner(m), users[Owner(m)].item)[m] else 0
  }

  /** The queue is exactly the messages of the items outstanding. */
  ghost predicate QueueExact(s: State) {
    forall m :: s.queue[m] == Expected(s.users, m)
  }

  predicate TicketPhase(item: Item) {
    item.Asked? || item.AtDispenser? || item.Ticketed? || item.TicketLost?
  }

  predicate ServicePhase(item: Item) {
    item.Waiting? || item.InService? || item.Answered? || item.AnswerLost?
  }

  /** Program counters before the first service of the day and between two services. */
  predicate BetweenServices(pc: UserPc) {
    pc.WaitDay? || pc.Starting? || pc.WaitOpen? || pc.WaitWalkIn? || pc.Head?
  }

  /** The user has a ticket whose service is neither recorded as done nor as failed. */
  predicate HoldsTicket(x: UserState) {
    || x.pc.HaveTicket? || x.pc.Searched? || x.pc.TrySeat? || x.pc.Retry? || x.pc.HaveSeat? || x.pc.ReadClock?
    || x.pc.ReadyToSend? || x.pc.AwaitDone? || x.pc.HaveDone? || x.pc.ReadyToRecord?
    || x.pc == BeLate(AtRetry) || x.pc == BeFailed(WithTicket)
  }

  predicate KnowsOperator(x: UserState) {
    x.pc.ReadClock? || x.pc.ReadyToSend? || x.pc.AwaitDone?
  }

  ghost predicate PlanFits(x: UserState) {
    forall i | 0 <= i < |x.plan.list| :: IsService(x.plan.list[i])
  }

  /** What a user's program counter says about its variables and its outstanding item. */
  ghost predicate PcFits(operators: set<int>, x: UserState) {
    && x.pc != UserConfused
    && (x.pc == AwaitTicket <==> TicketPhase(x.item))
    && (x.pc == AwaitDone <==> ServicePhase(x.item))
    && (!BetweenServices(x.pc) ==> x.plan.next < |x.plan.list|)
    && (HoldsTicket(x) ==> x.visit.ticket >= 0)
    && (x.item.Asked? ==> x.item.wanted == Wanted(x))
    && ((x.item.Ticketed? || x.item.TicketLost?) ==> x.item.number >= 0)
    && ((x.item.Waiting? || x.item.InService? || x.item.Answered?) ==> x.item.number == x.visit.ticket)
    && (x.item.Waiting? ==> x.item.operator == x.visit.operator)
    && (KnowsOperator(x) ==> x.visit.operator == 0 || x.visit.operator in operators)
  }

  ghost predicate UserFits(operators: set<int>, x: UserState) {
    PlanFits(x) && PcFits(operators, x)
  }

  predicate Engaged(y: OperatorState) {
    y.pc == GotRequest || y.pc == Serving
  }

  /** An operator at work holds the request of a user who knows it, and conversely. */
  ghost predicate OperatorFits(users: map<int, UserState>, p: int, y: OperatorState) {
    && y.pc != OperatorConfused
    && IsService(y.service)
    && (Engaged(y) ==>
          y.customer in users
          && users[y.customer].item == InService(p, y.number, y.service, y.pc == Serving))
  }

  ghost predicate CustomerFits(operators: map<int, OperatorState>, u: int, x: UserState) {
    x.item.InService? ==>
      && x.item.operator in operators
      && Engaged(operators[x.item.operator])
      && operators[x.item.operator].customer == u
  }

  ghost predicate DispenserFits(s: State) {
    && s.dispenser.pc != DispenserConfused
    && (s.dispenser.pc.Holding? ==>
          s.dispenser.pc.sender in s.users && s.users[s.dispenser.pc.sender].item == AtDispenser)
    && forall u | u in s.users && s.users[u].item == AtDispenser :: s.dispenser.pc == Holding(u)
  }

  ghost predicate SessionInv(s: State) {
    && PidsDistinct(s.users.Keys, s.operators.Keys)
    && QueueExact(s)
    && DispenserFits(s)
    && (forall u | u in s.users :: UserFits(s.operators.Keys, s.users[u]))
    && (forall u | u in s.users :: CustomerFits(s.operators, u, s.users[u]))
    && (forall p | p in s.operators :: OperatorFits(s.users, p, s.operators[p]))
  }

  /** Every process named in the seat table is an operator. */
  ghost predicate NamesOperators(s: State) {
    forall i | 0 <= i < |s.seats.mem| :: s.seats.mem[i].process == 0 || s.seats.mem[i].process in s.operators
  }

  lemma SessionsInitially(c: Config, s: State)
    requires Init(c, s)
    ensures SessionInv(s)
  {
  }

  /** A user's item is put on the queue, taken off it, or left where it is. */
  predicate ItemMoves(u: int, before: Item, after: Item, taken: multiset<Msg>, sent: multiset<Msg>) {
    || (taken == multiset{} && sent == multiset{} && Queued(u, after) == Queued(u, before))
    || (taken == Queued(u, before) && sent == multiset{} && Queued(u, after) == multiset{})
    || (taken == multiset{} && Queued(u, before) == multiset{} && sent == Queued(u, after))
  }

  /** Moving the one item of one user keeps the queue exact. */
  lemma QueueMoves(s: State, s': State, u: int, x: UserState, taken: multiset<Msg>, sent: multiset<Msg>)
    requires QueueExact(s) && u in s.users && s'.users == s.users[u := x]
    requires s'.queue == s.queue - taken + sent
    requires ItemMoves(u, s.users[u].item, x.item, taken, sent)
    ensures QueueExact(s')
  {
    forall m ensures s'.queue[m] == Expected(s'.users, m) {
      assert s.queue[m] == Expected(s.users, m);
      if Owner(m) != u {
        assert m !in Queued(u, s.users[u].item) && m !in Queued(u, x.item);
        assert m !in taken && m !in sent;
      }
    }
  }

  lemma QueueStays(s: State, s': State)
    requires QueueExact(s) && s'.queue == s.queue
    requires s.users.Keys <= s'.users.Keys
    requires forall u | u in s.users :: s'.users[u].item == s.users[u].item
    requires forall u | u in s'.users && u !in s.users :: s'.users[u].item == NoItem
    ensures QueueExact(s')
  {
    forall m ensures s'.queue[m] == Expected(s'.users, m) {
      assert s.queue[m] == Expected(s.users, m);
    }
  }

  /** A message on the queue is the outstanding item of its owner. */
  lemma QueuedMessage(s: State, m: Msg)
    requires QueueExact(s) && m in s.queue
    ensures Owner(m) in s.users && m in Queued(Owner(m), s.users[Owner(m)].item)
    ensures Queued(Owner(m), s.users[Owner(m)].item) == multiset{m}
  {
    assert s.queue[m] == Expected(s.users, m);
  }

  /** Only the expected reply ever carries a user's pid as its type. */
  lemma ReceivedByUser(s: State, u: int, m: Msg)
    requires SessionInv(s) && u in s.users && m in s.queue && m.mtype == u
    ensures Queued(u, s.users[u].item) == multiset{m}
    ensures s.users[u].pc == AwaitTicket ==>
              m.body.TicketResponse? && m.body.number >= 0 && s.users[u].item == Ticketed(m.body.number)
    ensures s.users[u].pc == AwaitDone ==>
              m.body.ServiceDone? && m.body.number == s.users[u].visit.ticket && Answers(s.users[u], m.body)
    ensures s.users[u].pc == AwaitTicket || s.users[u].pc == AwaitDone
  {
    QueuedMessage(s, m);
    var o := Owner(m);
    assert UserFits(s.operators.Keys, s.users[o]);
    assert UserFits(s.operators.Keys, s.users[u]);
  }

  /** Only requests for service carry an operator's type, only requests for a ticket carry the dispenser's. */
  lemma ReceivedByServer(s: State, m: Msg)
    requires SessionInv(s) && m in s.queue
    ensures m.mtype == TICKET_TYPE ==> m.body.TicketRequest?
    ensures forall p | p in s.operators && m.mtype == SERVICE_BASE + p ::
              m.body.ServiceRequest? && s.users[Owner(m)].item == Waiting(p, m.body.number)
  {
    QueuedMessage(s, m);
    assert UserFits(s.operators.Keys, s.users[Owner(m)]);
  }

  // ---------- users ----------

  /** What the received message of a step, if any, is known to be. */
  ghost predicate Expects(x: UserState, ua: UserAct) {
    match ua
    case UGetTicket(m) => m.body.TicketResponse? && m.body.number >= 0 && x.item == Ticketed(m.body.number)
    case UGetDone(m) => m.body.ServiceDone? && m.body.number == x.visit.ticket && Answers(x, m.body)
    case _ => true
  }

  /** The reply is the one that the user's item says is on its way. */
  ghost predicate Answers(x: UserState, b: Body)
    requires b.ServiceDone?
  {
    x.item == Answered(b.operator, b.number, b.service, b.time)
  }

  predicate Messages(ua: UserAct) {
    ua.UAskTicket? || ua.UGetTicket? || ua.USendRequest? || ua.UGetDone?
  }

  lemma QuietUser(c: Config, s: State, u: int, ua: UserAct)
    requires u in s.users && !Messages(ua)
    ensures UserNext(c, s, u, ua).item == s.users[u].item
    ensures UserEffect(s, u, ua).taken == UserEffect(s, u, ua).sent == multiset{}
  {
  }

  lemma UserSends(c: Config, s: State, u: int, ua: UserAct)
    requires u in s.users && UserEnabled(c, s, u, ua) && (ua.UAskTicket? || ua.USendRequest?)
    requires PcFits(s.operators.Keys, s.users[u])
    ensures ItemMoves(u, s.users[u].item, UserNext(c, s, u, ua).item,
                      UserEffect(s, u, ua).taken, UserEffect(s, u, ua).sent)
  {
    assert s.users[u].item == NoItem;
  }

  lemma UserReceives(c: Config, s: State, u: int, ua: UserAct)
    requires u in s.users && (ua.UGetTicket? || ua.UGetDone?)
    requires Queued(u, s.users[u].item) == multiset{ua.m}
    ensures ItemMoves(u, s.users[u].item, UserNext(c, s, u, ua).item,
                      UserEffect(s, u, ua).taken, UserEffect(s, u, ua).sent)
  {
    assert UserNext(c, s, u, ua).item == NoItem;
  }

  lemma PlanStaysFit(c: Config, s: State, u: int, ua: UserAct)
    requires u in s.users && UserEnabled(c, s, u, ua) && PlanFits(s.users[u])
    ensures PlanFits(UserNext(c, s, u, ua))
  {
    var x, x' := s.users[u], UserNext(c, s, u, ua);
    assert x'.plan.list == if ua.UGoOut? then ua.list else x.plan.list;
  }

  lemma MessageStaysFit(c: Config, s: State, u: int, ua: UserAct)
    requires u in s.users && UserEnabled(c, s, u, ua) && Messages(ua)
    requires PcFits(s.operators.Keys, s.users[u]) && Expects(s.users[u], ua)
    ensures PcFits(s.operators.Keys, UserNext(c, s, u, ua))
  {
    match ua
    case UAskTicket(sent) =>
    case UGetTicket(m) =>
    case USendRequest(sent) =>
    case UGetDone(m) =>
  }

  /** The acts up to the choice of a seat. */
  predicate Early(ua: UserAct) {
    || ua.UTakeDay? || ua.UStayHome? || ua.UGoOut? || ua.UEnterOffice? || ua.UWalkIn? || ua.UGoHome?
    || ua.USeeClosed? || ua.UBegin? || ua.UAskTicket? || ua.UGetTicket? || ua.UFindSeats? || ua.UJudgeSeats?
    || ua.UTrySeat?
  }

  lemma EarlyStaysFit(c: Config, s: State, u: int, ua: UserAct)
    requires u in s.users && UserEnabled(c, s, u, ua) && !Messages(ua) && Early(ua)
    requires PcFits(s.operators.Keys, s.users[u])
    ensures PcFits(s.operators.Keys, UserNext(c, s, u, ua))
  {
  }

  lemma LateStaysFit(c: Config, s: State, u: int, ua: UserAct)
    requires u in s.users && UserEnabled(c, s, u, ua) && !Messages(ua) && !Early(ua)
    requires PcFits(s.operators.Keys, s.users[u])
    requires ProcessAt(s.seats.mem, s.users[u].visit.seat) in s.operators.Keys + {0}
    ensures PcFits(s.operators.Keys, UserNext(c, s, u, ua))
  {
  }

  lemma ItemStaysWithServer(c: Config, s: State, u: int, ua: UserAct)
    requires u in s.users && UserEnabled(c, s, u, ua)
    requires PcFits(s.operators.Keys, s.users[u]) && Expects(s.users[u], ua)
    ensures var x, x' := s.users[u], UserNext(c, s, u, ua);
            && (x'.item.InService? <==> x.item.InService?)
            && (x.item.InService? ==> x'.item == x.item)
            && (x'.item.AtDispenser? <==> x.item.AtDispenser?)
  {
    if !Messages(ua) {
      QuietUser(c, s, u, ua);
    }
  }

  lemma UserFitsOn(c: Config, s: State, u: int, ua: UserAct)
    requires u in s.users && UserEnabled(c, s, u, ua)
    requires UserFits(s.operators.Keys, s.users[u]) && Expects(s.users[u], ua) && NamesOperators(s)
    ensures UserFits(s.operators.Keys, UserNext(c, s, u, ua))
  {
    PlanStaysFit(c, s, u, ua);
    if Messages(ua) {
      MessageStaysFit(c, s, u, ua);
    } else if Early(ua) {
      EarlyStaysFit(c, s, u, ua);
    } else {
      LateStaysFit(c, s, u, ua);
    }
  }

  lemma UserItemMoves(c: Config, s: State, u: int, ua: UserAct)
    requires u in s.users && UserEnabled(c, s, u, ua) && PcFits(s.operators.Keys, s.users[u])
    requires ua.UGetTicket? || ua.UGetDone? ==> Queued(u, s.users[u].item) == multiset{ua.m}
    ensures ItemMoves(u, s.users[u].item, UserNext(c, s, u, ua).item,
                      UserEffect(s, u, ua).taken, UserEffect(s, u, ua).sent)
  {
    if ua.UGetTicket? || ua.UGetDone? {
      UserReceives(c, s, u, ua);
    } else if Messages(ua) {
      UserSends(c, s, u, ua);
    } else {
      QuietUser(c, s, u, ua);
    }
  }

  lemma UserKeepsSessions(c: Config, s: State, s': State, u: int, ua: UserAct)
    requires SessionInv(s) && UserMove(c, s, s', u, ua) && NamesOperators(s)
    ensures SessionInv(s')
  {
    assert UserFits(s.operators.Keys, s.users[u]);
    if ua.UGetTicket? || ua.UGetDone? {
      ReceivedByUser(s, u, ua.m);
    }
    UserItemMoves(c, s, u, ua);
    QueueMoves(s, s', u, UserNext(c, s, u, ua), UserEffect(s, u, ua).taken, UserEffect(s, u, ua).sent);
    UserFitsOn(c, s, u, ua);
    ItemStaysWithServer(c, s, u, ua);
    OneUserChanged(s, s', u);
  }

  /** A user that neither enters nor leaves the dispenser or an operator disturbs nobody else. */
  lemma OneUserChanged(s: State, s': State, u: int)
    requires SessionInv(s) && QueueExact(s') && u in s.users && u in s'.users
    requires s'.users == s.users[u := s'.users[u]]
    requires s'.operators == s.operators && s'.dispenser == s.dispenser
    requires UserFits(s.operators.Keys, s'.users[u])
    requires s'.users[u].item.InService? <==> s.users[u].item.InService?
    requires s.users[u].item.InService? ==> s'.users[u].item == s.users[u].item
    requires s'.users[u].item.AtDispenser? <==> s.users[u].item.AtDispenser?
    ensures SessionInv(s')
  {
    assert s'.users.Keys == s.users.Keys;
    forall p | p in s'.operators ensures OperatorFits(s'.users, p, s'.operators[p]) {
      assert OperatorFits(s.users, p, s.operators[p]);
    }
    forall w | w in s'.users
      ensures UserFits(s'.operators.Keys, s'.users[w]) && CustomerFits(s'.operators, w, s'.users[w])
    {
      assert UserFits(s.operators.Keys, s.users[w]) && CustomerFits(s.operators, w, s.users[w]);
    }
  }

  // ---------- operators ----------

  /** The user whose request an operator's step moves, if it moves one. */
  function Customer(y: OperatorState, oa: OperatorAct): int {
    match oa
    case OPollRequest(m) => if m.body.ServiceRequest? then m.body.sender else 0
    case _ => y.customer
  }

  predicate Serves(oa: OperatorAct) {
    oa.OPollRequest? || oa.OCount? || oa.OAnswer?
  }

  /** What the history variable of the customer becomes. */
  ghost predicate CustomerMoves(c: Config, s: State, p: int, oa: OperatorAct)
    requires p in s.operators
  {
    var u := Customer(s.operators[p], oa);
    var users' := OperatorUsers(c, s, p, oa);
    && u in s.users && u in users'
    && users' == s.users[u := s.users[u].(item := users'[u].item)]
    && ItemMoves(u, s.users[u].item, users'[u].item,
                 OperatorEffect(c, s, p, oa).taken, OperatorEffect(c, s, p, oa).sent)
  }

  lemma PollItemMoves(c: Config, s: State, p: int, m: Msg)
    requires p in s.operators && m.body.ServiceRequest? && m.body.sender in s.users
    requires s.users[m.body.sender].item == Waiting(p, m.body.number)
    requires m == AskService(m.body.sender, m.body.number, p)
    ensures CustomerMoves(c, s, p, OPollRequest(m))
  {
  }

  lemma AnswerItemMoves(c: Config, s: State, p: int, oa: OperatorAct)
    requires p in s.operators && OperatorEnabled(c, s, p, oa) && (oa.OCount? || oa.OAnswer?)
    requires OperatorFits(s.users, p, s.operators[p])
    ensures CustomerMoves(c, s, p, oa)
  {
  }

  lemma OperatorItemMoves(c: Config, s: State, p: int, oa: OperatorAct)
    requires p in s.operators && OperatorEnabled(c, s, p, oa) && Serves(oa)
    requires OperatorFits(s.users, p, s.operators[p])
    requires oa.OPollRequest? ==>
               && oa.m.body.ServiceRequest? && oa.m.body.sender in s.users
               && s.users[oa.m.body.sender].item == Waiting(p, oa.m.body.number)
               && oa.m == AskService(oa.m.body.sender, oa.m.body.number, p)
    ensures CustomerMoves(c, s, p, oa)
  {
    if oa.OPollRequest? {
      PollItemMoves(c, s, p, oa.m);
    } else {
      AnswerItemMoves(c, s, p, oa);
    }
  }

  lemma OperatorKeepsSessions(c: Config, s: State, s': State, p: int, oa: OperatorAct)
    requires SessionInv(s) && OperatorMove(c, s, s', p, oa)
    ensures SessionInv(s')
  {
    var y, e := s.operators[p], OperatorEffect(c, s, p, oa);
    assert OperatorFits(s.users, p, y);
    if Serves(oa) {
      if oa.OPollRequest? {
        ReceivedByServer(s, oa.m);
        QueuedMessage(s, oa.m);
      }
      var u := Customer(y, oa);
      OperatorItemMoves(c, s, p, oa);
      QueueMoves(s, s', u, s'.users[u], e.taken, e.sent);
      ServiceMoves(c, s, s', p, oa, u);
    } else {
      OtherOperatorSteps(c, s, s', p, oa);
    }
  }

  lemma ServiceMoves(c: Config, s: State, s': State, p: int, oa: OperatorAct, u: int)
    requires SessionInv(s) && QueueExact(s') && p in s.operators && OperatorEnabled(c, s, p, oa)
    requires Serves(oa) && u == Customer(s.operators[p], oa) && u in s.users
    requires s'.operators == s.operators[p := OperatorNext(c, s, p, oa)] && s'.dispenser == s.dispenser
    requires s'.users == OperatorUsers(c, s, p, oa)
    requires oa.OPollRequest? ==>
               oa.m.body.ServiceRequest? && s.users[u].item == Waiting(p, oa.m.body.number)
    ensures SessionInv(s')
  {
    assert OperatorFits(s.users, p, s.operators[p]);
    assert UserFits(s.operators.Keys, s.users[u]);
    OneServiceMoved(s, s', p, u);
  }

  lemma QuietOperator(c: Config, s: State, p: int, oa: OperatorAct)
    requires p in s.operators && OperatorEnabled(c, s, p, oa) && !Serves(oa)
    requires s.operators[p].pc != OperatorConfused
    ensures OperatorEffect(c, s, p, oa).taken == OperatorEffect(c, s, p, oa).sent == multiset{}
    ensures OperatorUsers(c, s, p, oa) == s.users
    ensures !Engaged(s.operators[p]) && !Engaged(OperatorNext(c, s, p, oa))
    ensures OperatorNext(c, s, p, oa).pc != OperatorConfused
    ensures OperatorNext(c, s, p, oa).service == s.operators[p].service
  {
  }

  lemma OtherOperatorSteps(c: Config, s: State, s': State, p: int, oa: OperatorAct)
    requires SessionInv(s) && OperatorMove(c, s, s', p, oa) && !Serves(oa)
    ensures SessionInv(s')
  {
    assert OperatorFits(s.users, p, s.operators[p]);
    QuietOperator(c, s, p, oa);
    assert s'.queue == s.queue;
    QueueStays(s, s');
    OneOperatorChanged(s, s', p);
  }

  lemma OneOperatorChanged(s: State, s': State, p: int)
    requires SessionInv(s) && QueueExact(s') && p in s.operators && p in s'.operators
    requires s'.operators == s.operators[p := s'.operators[p]]
    requires s'.users == s.users && s'.dispenser == s.dispenser
    requires !Engaged(s.operators[p]) && !Engaged(s'.operators[p]) && s'.operators[p].pc != OperatorConfused
    requires s'.operators[p].service == s.operators[p].service
    ensures SessionInv(s')
  {
    assert s'.operators.Keys == s.operators.Keys;
    forall q | q in s'.operators ensures OperatorFits(s'.users, q, s'.operators[q]) {
      assert OperatorFits(s.users, q, s.operators[q]);
    }
    forall w | w in s'.users ensures CustomerFits(s'.operators, w, s'.users[w]) {
      assert CustomerFits(s.operators, w, s.users[w]);
    }
  }

  /** One operator takes up, counts or answers the request of one user. */
  lemma OneServiceMoved(s: State, s': State, p: int, u: int)
    requires SessionInv(s) && QueueExact(s')
    requires p in s.operators && p in s'.operators && u in s.users && u in s'.users
    requires s'.operators == s.operators[p := s'.operators[p]] && s'.dispenser == s.dispenser
    requires s'.users == s.users[u := s.users[u].(item := s'.users[u].item)]
    requires s'.operators[p].service == s.operators[p].service && s'.operators[p].pc != OperatorConfused
    requires if Engaged(s.operators[p]) then s.operators[p].customer == u
             else s.users[u].item.Waiting?
    requires if Engaged(s'.operators[p])
             then s'.operators[p].customer == u && s'.users[u].item
                  == InService(p, s'.operators[p].number, s'.operators[p].service, s'.operators[p].pc == Serving)
             else s'.users[u].item.Answered? || s'.users[u].item.AnswerLost?
    requires (s'.users[u].item.InService? || s'.users[u].item.Answered?) ==>
               s'.users[u].item.number == s.users[u].visit.ticket
    ensures SessionInv(s')
  {
    assert OperatorFits(s.users, p, s.operators[p]);
    assert UserFits(s.operators.Keys, s.users[u]) && CustomerFits(s.operators, u, s.users[u]);
    assert s'.operators.Keys == s.operators.Keys && s'.users.Keys == s.users.Keys;
    forall q | q in s'.operators ensures OperatorFits(s'.users, q, s'.operators[q]) {
      assert OperatorFits(s.users, q, s.operators[q]);
    }
    forall w | w in s'.users
      ensures UserFits(s'.operators.Keys, s'.users[w]) && CustomerFits(s'.operators, w, s'.users[w])
    {
      assert UserFits(s.operators.Keys, s.users[w]) && CustomerFits(s.operators, w, s.users[w]);
    }
  }

  // ---------- dispenser, director, sections ----------

  lemma DispenserKeepsSessions(s: State, s': State, da: DispenserAct)
    requires SessionInv(s) && DispenserMove(s, s', da)
    ensures SessionInv(s')
  {
    match da
    case DReceive(m) =>
      ReceivedByServer(s, m);
      QueuedMessage(s, m);
      TicketMoves(s, s', da, m.body.sender);
    case DReply(sent) => TicketMoves(s, s', da, s.dispenser.pc.sender);
    case DCount =>
      assert s'.queue == s.queue;
      QueueStays(s, s');
      TicketCounted(s, s');
  }

  lemma TicketItemMoves(s: State, da: DispenserAct, u: int)
    requires !da.DCount? && u in s.users
    requires match da
             case DReceive(m) =>
               m.body.TicketRequest? && m.body.sender == u && Queued(u, s.users[u].item) == multiset{m}
             case DReply(sent) => s.dispenser.pc == Holding(u) && s.users[u].item == AtDispenser
             case DCount => true
    ensures var users' := DispenserUsers(s, da);
            && u in users'
            && users' == s.users[u := s.users[u].(item := users'[u].item)]
            && ItemMoves(u, s.users[u].item, users'[u].item, DispenserEffect(s, da).taken, DispenserEffect(s, da).sent)
            && match users'[u].item
               case AtDispenser => DispenserNext(s, da).pc == Holding(u)
               case Ticketed(n) => n >= 0 && DispenserNext(s, da).pc == Replied
               case TicketLost(n) => n >= 0 && DispenserNext(s, da).pc == Replied
               case _ => false
  {
  }

  lemma TicketMoves(s: State, s': State, da: DispenserAct, u: int)
    requires SessionInv(s) && DispenserMove(s, s', da) && !da.DCount? && u in s.users
    requires match da
             case DReceive(m) =>
               m.body.TicketRequest? && m.body.sender == u && Queued(u, s.users[u].item) == multiset{m}
             case DReply(sent) => s.dispenser.pc == Holding(u)
             case DCount => true
    ensures SessionInv(s')
  {
    var e := DispenserEffect(s, da);
    TicketItemMoves(s, da, u);
    QueueMoves(s, s', u, s'.users[u], e.taken, e.sent);
    OneTicketMoved(s, s', u);
  }

  lemma TicketCounted(s: State, s': State)
    requires SessionInv(s) && QueueExact(s') && s'.users == s.users && s'.operators == s.operators
    requires s.dispenser.pc == Replied && s'.dispenser.pc == Idle
    ensures SessionInv(s')
  {
  }

  lemma OneTicketMoved(s: State, s': State, u: int)
    requires SessionInv(s) && QueueExact(s') && u in s.users && u in s'.users
    requires s.dispenser.pc == Idle || s.dispenser.pc == Holding(u)
    requires s'.users == s.users[u := s.users[u].(item := s'.users[u].item)]
    requires s'.operators == s.operators
    requires s.users[u].item.Asked? || s.users[u].item.AtDispenser?
    requires match s'.users[u].item
             case AtDispenser => s'.dispenser.pc == Holding(u)
             case Ticketed(n) => n >= 0 && s'.dispenser.pc == Replied
             case TicketLost(n) => n >= 0 && s'.dispenser.pc == Replied
             case _ => false
    ensures SessionInv(s')
  {
    assert UserFits(s.operators.Keys, s.users[u]) && CustomerFits(s.operators, u, s.users[u]);
    assert s'.users.Keys == s.users.Keys;
    forall p | p in s'.operators ensures OperatorFits(s'.users, p, s'.operators[p]) {
      assert OperatorFits(s.users, p, s.operators[p]);
    }
    forall w | w in s'.users
      ensures UserFits(s'.operators.Keys, s'.users[w]) && CustomerFits(s'.operators, w, s'.users[w])
    {
      assert UserFits(s.operators.Keys, s.users[w]) && CustomerFits(s.operators, w, s.users[w]);
    }
  }

  lemma DirectorKeepsSessions(c: Config, s: State, s': State, xa: DirectorAct)
    requires SessionInv(s) && DirectorMove(c, s, s', xa)
    ensures SessionInv(s')
  {
    DirectorUsersAre(c, s, xa);
    DirectorIsQuiet(s, xa);
    assert s'.queue == s.queue;
    QueueStays(s, s');
    UsersAdded(s, s');
  }

  lemma DirectorIsQuiet(s: State, xa: DirectorAct)
    ensures DirectorEffect(s, xa).taken == DirectorEffect(s, xa).sent == multiset{}
  {
  }

  /** The director only ever adds new users. */
  lemma DirectorUsersAre(c: Config, s: State, xa: DirectorAct)
    requires DirectorEnabled(c, s, xa) && PidsDistinct(s.users.Keys, s.operators.Keys)
    ensures var users := DirectorUsers(s, xa);
            && s.users.Keys <= users.Keys
            && PidsDistinct(users.Keys, s.operators.Keys)
            && (forall u | u in users :: users[u] == if u in s.users then s.users[u] else NewUser())
            && (!xa.XNewUsers? ==> users == s.users)
  {
    if xa.XNewUsers? {
      assert DirectorUsers(s, xa).Keys == s.users.Keys + xa.pids;
    }
  }

  lemma UsersAdded(s: State, s': State)
    requires SessionInv(s) && QueueExact(s') && s.users.Keys <= s'.users.Keys
    requires PidsDistinct(s'.users.Keys, s.operators.Keys)
    requires forall u | u in s'.users :: s'.users[u] == if u in s.users then s.users[u] else NewUser()
    requires s'.operators == s.operators && s'.dispenser == s.dispenser
    ensures SessionInv(s')
  {
    forall p | p in s'.operators ensures OperatorFits(s'.users, p, s'.operators[p]) {
      assert OperatorFits(s.users, p, s.operators[p]);
    }
  }

  lemma SessionsPreserved(c: Config, s: State, s': State, a: Action)
    requires SessionInv(s) && Moved(c, s, s', a) && NamesOperators(s)
    ensures SessionInv(s')
  {
    match a
    case UserStep(u, ua) => UserKeepsSessions(c, s, s', u, ua);
    case OperatorStep(p, oa) => OperatorKeepsSessions(c, s, s', p, oa);
    case DispenserStep(da) => DispenserKeepsSessions(s, s', da);
    case DirectorStep(xa) => DirectorKeepsSessions(c, s, s', xa);
    case _ =>
  }
}
