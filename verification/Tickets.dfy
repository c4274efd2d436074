/** Ticket conservation: every number issued is with one user, resolved, or on its way to one user. */
module Tickets {
  import opened Settings
  import opened SharedRecord
  import opened Statistics
  import opened Seats
  import opened Protocol
  import opened Locks
  import opened Moves
  import opened Sessions
  import opened Director
  import opened Counting
  import opened Places
  import opened Tallies

  /** A ticket of the user's is on its way, lost on its way, or in its hands and unresolved. */
  predicate HasTicket(x: UserState) {
    x.item.Ticketed? || x.item.TicketLost? || HoldsTicket(x)
  }

  function NumberOf(x: UserState): int {
    if x.item.Ticketed? || x.item.TicketLost? then x.item.number else x.visit.ticket
  }

  /** Numbers handed out, whether or not the dispenser has advanced its counter yet. */
  function Issued(d: Dispenser): nat {
    d.counter + One(d.pc == Replied)
  }

  /** Services recorded as done or failed, less the failures of users who never asked for a ticket. */
  function Resolved(s: State): int {
    s.stats.view.sim.global.served + s.stats.view.sim.global.failed - s.hist.ticketless
  }

  ghost predicate TicketsBalance(s: State) {
    Issued(s.dispenser) == Resolved(s) + Count(s.users, HasTicket)
  }

  ghost predicate TicketsDistinct(s: State) {
    && (forall u | u in s.users && HasTicket(s.users[u]) :: 0 <= NumberOf(s.users[u]) < Issued(s.dispenser))
    && (forall u, w | u in s.users && w in s.users && u != w && HasTicket(s.users[u]) && HasTicket(s.users[w]) ::
          NumberOf(s.users[u]) != NumberOf(s.users[w]))
  }

  ghost predicate TicketInv(s: State) {
    TicketsBalance(s) && TicketsDistinct(s) && |s.stats.view.sim.services| == SERVICES
  }

  lemma TicketsInitially(c: Config, s: State)
    requires Init(c, s)
    ensures TicketInv(s)
  {
    CountNone(s.users, HasTicket);
  }

  /** A failure recorded for a user who never asked for a ticket. */
  predicate Ticketless(x: UserState, ua: UserAct) {
    ua.UFail? && x.pc == BeFailed(WithoutTicket)
  }

  lemma EarlyTicket(c: Config, s: State, u: int, ua: UserAct)
    requires u in s.users && UserEnabled(c, s, u, ua) && Early(ua) && !ua.UJudgeSeats? && !ua.UTrySeat?
    requires PcFits(s.operators.Keys, s.users[u]) && Expects(s.users[u], ua)
    ensures var x, x' := s.users[u], UserNext(c, s, u, ua);
            && HasTicket(x') == HasTicket(x) && (HasTicket(x') ==> NumberOf(x') == NumberOf(x))
    ensures UserChange(s.users[u], ua) == Unchanged
  {
  }

  lemma LateTicket(c: Config, s: State, u: int, ua: UserAct)
    requires u in s.users && UserEnabled(c, s, u, ua) && (!Early(ua) || ua.UJudgeSeats? || ua.UTrySeat?)
    requires PcFits(s.operators.Keys, s.users[u]) && Expects(s.users[u], ua)
    ensures var x, x' := s.users[u], UserNext(c, s, u, ua);
            && (HasTicket(x') ==> HasTicket(x) && NumberOf(x') == NumberOf(x))
            && One(HasTicket(x')) + One(ua.URecord? || (ua.UFail? && !Ticketless(x, ua))) == One(HasTicket(x))
  {
    var x := s.users[u];
    if x.pc.BeFailed? {
      assert x.pc.fail.WithTicket? || x.pc.fail.WithoutTicket?;
    } else if x.pc.BeLate? {
      assert x.pc.late.AtHead? || x.pc.late.AtRetry? || x.pc.late.AtEnd?;
    }
  }

  lemma UserResolves(s: State, u: int, ua: UserAct)
    requires u in s.users
    ensures var t := Added(UserChange(s.users[u], ua), SERVICES);
            t.served + t.failed == One(ua.URecord? || ua.UFail?)
    ensures UserEffect(s, u, ua).hist.ticketless == s.hist.ticketless + One(Ticketless(s.users[u], ua))
  {
  }

  lemma UserTicket(c: Config, s: State, u: int, ua: UserAct)
    requires SessionInv(s) && u in s.users && UserEnabled(c, s, u, ua)
    ensures var x, x' := s.users[u], UserNext(c, s, u, ua);
            && (HasTicket(x') ==> HasTicket(x) && NumberOf(x') == NumberOf(x))
            && One(HasTicket(x')) + One(ua.URecord? || (ua.UFail? && !Ticketless(x, ua))) == One(HasTicket(x))
  {
    assert UserFits(s.operators.Keys, s.users[u]);
    if ua.UGetTicket? || ua.UGetDone? {
      ReceivedByUser(s, u, ua.m);
    }
    if Early(ua) && !ua.UJudgeSeats? && !ua.UTrySeat? {
      EarlyTicket(c, s, u, ua);
    } else {
      LateTicket(c, s, u, ua);
    }
  }

  lemma UserKeepsTickets(c: Config, s: State, s': State, u: int, ua: UserAct)
    requires SessionInv(s) && TicketInv(s) && UserMove(c, s, s', u, ua)
    ensures TicketInv(s')
  {
    UserTicket(c, s, u, ua);
    UserResolves(s, u, ua);
    ChangeAdds(s.stats.view, UserChange(s.users[u], ua), SERVICES);
    OneUsersTicket(s, s', u, ua);
  }

  lemma OneUsersTicket(s: State, s': State, u: int, ua: UserAct)
    requires TicketInv(s) && u in s.users && u in s'.users
    requires s'.users == s.users[u := s'.users[u]] && s'.dispenser == s.dispenser
    requires |s'.stats.view.sim.services| == SERVICES
    requires HasTicket(s'.users[u]) ==> HasTicket(s.users[u]) && NumberOf(s'.users[u]) == NumberOf(s.users[u])
    requires Resolved(s') - Resolved(s) == One(HasTicket(s.users[u])) - One(HasTicket(s'.users[u]))
    ensures TicketInv(s')
  {
    CountUpdate(s.users, u, s'.users[u], HasTicket);
  }

  /** Users whose tickets are as before, and a dispenser that issued nothing. */
  lemma SameTickets(s: State, s': State)
    requires TicketInv(s) && Issued(s'.dispenser) == Issued(s.dispenser) && Resolved(s') == Resolved(s)
    requires |s'.stats.view.sim.services| == SERVICES
    requires s.users.Keys <= s'.users.Keys
    requires forall u | u in s'.users ::
               HasTicket(s'.users[u])
               == (u in s.users && HasTicket(s.users[u]) && NumberOf(s.users[u]) == NumberOf(s'.users[u]))
    requires forall u | u in s.users && HasTicket(s.users[u]) :: HasTicket(s'.users[u])
    ensures TicketInv(s')
  {
    CountSame(s.users, s'.users, HasTicket);
  }

  lemma OperatorKeepsTickets(c: Config, s: State, s': State, p: int, oa: OperatorAct)
    requires SessionInv(s) && TicketInv(s) && OperatorMove(c, s, s', p, oa)
    ensures TicketInv(s')
  {
    OperatorItems(c, s, s', p, oa);
    OperatorAdds(s.operators[p], oa, SERVICES);
    ChangeAdds(s.stats.view, OperatorChange(s.operators[p], oa), SERVICES);
    OperatorTicketless(c, s, p, oa);
    SameTickets(s, s');
  }

  lemma OperatorTicketless(c: Config, s: State, p: int, oa: OperatorAct)
    requires p in s.operators
    ensures OperatorEffect(c, s, p, oa).hist.ticketless == s.hist.ticketless
  {
  }

  lemma ServedKeepsTicket(c: Config, s: State, p: int, oa: OperatorAct)
    requires SessionInv(s) && p in s.operators && OperatorEnabled(c, s, p, oa) && Serves(oa)
    ensures var users' := OperatorUsers(c, s, p, oa);
            && users'.Keys == s.users.Keys
            && forall u | u in s.users ::
                 HasTicket(users'[u]) == HasTicket(s.users[u]) && NumberOf(users'[u]) == NumberOf(s.users[u])
  {
    assert OperatorFits(s.users, p, s.operators[p]);
    if oa.OPollRequest? {
      ReceivedByServer(s, oa.m);
      QueuedMessage(s, oa.m);
    }
    CustomerKeepsTicket(c, s, p, oa);
  }

  lemma OperatorItems(c: Config, s: State, s': State, p: int, oa: OperatorAct)
    requires SessionInv(s) && OperatorMove(c, s, s', p, oa)
    ensures s'.users.Keys == s.users.Keys
    ensures forall u | u in s.users ::
              HasTicket(s'.users[u]) == HasTicket(s.users[u]) && NumberOf(s'.users[u]) == NumberOf(s.users[u])
  {
    assert OperatorFits(s.users, p, s.operators[p]);
    if Serves(oa) {
      ServedKeepsTicket(c, s, p, oa);
    } else {
      QuietOperator(c, s, p, oa);
    }
  }

  lemma CustomerKeepsTicket(c: Config, s: State, p: int, oa: OperatorAct)
    requires p in s.operators && OperatorEnabled(c, s, p, oa) && Serves(oa)
    requires oa.OPollRequest? ==> oa.m.body.ServiceRequest?
    requires var u := Customer(s.operators[p], oa); u in s.users && ServicePhase(s.users[u].item)
    ensures var users' := OperatorUsers(c, s, p, oa);
            && users'.Keys == s.users.Keys
            && forall u | u in s.users ::
                 HasTicket(users'[u]) == HasTicket(s.users[u]) && NumberOf(users'[u]) == NumberOf(s.users[u])
  {
    match oa
    case OPollRequest(m) =>
    case OCount =>
    case OAnswer(draw, sent) =>
  }

  lemma DispenserKeepsTickets(s: State, s': State, da: DispenserAct)
    requires SessionInv(s) && TicketInv(s) && DispenserMove(s, s', da)
    ensures TicketInv(s')
  {
    match da
    case DReceive(m) =>
      ReceivedByServer(s, m);
      QueuedMessage(s, m);
      assert UserFits(s.operators.Keys, s.users[m.body.sender]);
      SameTickets(s, s');
    case DReply(sent) => NumberIssued(s, s', sent);
    case DCount => SameTickets(s, s');
  }

  lemma NumberIssued(s: State, s': State, sent: bool)
    requires SessionInv(s) && TicketInv(s) && DispenserMove(s, s', DReply(sent))
    ensures TicketInv(s')
  {
    var u := s.dispenser.pc.sender;
    assert UserFits(s.operators.Keys, s.users[u]);
    assert s'.users == s.users[u := s'.users[u]];
    assert NumberOf(s'.users[u]) == s.dispenser.counter && !HasTicket(s.users[u]);
    CountUpdate(s.users, u, s'.users[u], HasTicket);
  }

  lemma DirectorResolvesNothing(m: Stats, d: DirectorState, xa: DirectorAct)
    requires |m.sim.services| == SERVICES
    ensures var m' := ApplyChange(m, DirectorChange(d, xa));
            && |m'.sim.services| == SERVICES
            && m'.sim.global.served == m.sim.global.served && m'.sim.global.failed == m.sim.global.failed
  {
    DirectorAddsNothing(d, xa, SERVICES);
    ChangeAdds(m, DirectorChange(d, xa), SERVICES);
  }

  lemma DirectorKeepsTickets(c: Config, s: State, s': State, xa: DirectorAct)
    requires SessionInv(s) && TicketInv(s) && DirectorMove(c, s, s', xa)
    ensures TicketInv(s')
  {
    DirectorUsersAre(c, s, xa);
    DirectorResolvesNothing(s.stats.view, s.director, xa);
    DirectorTicketless(s, xa);
    SameTickets(s, s');
  }

  lemma DirectorTicketless(s: State, xa: DirectorAct)
    ensures DirectorEffect(s, xa).hist.ticketless == s.hist.ticketless
  {
  }

  lemma TicketsPreserved(c: Config, s: State, s': State, a: Action)
    requires SessionInv(s) && TicketInv(s) && Moved(c, s, s', a)
    ensures TicketInv(s')
  {
    match a
    case UserStep(u, ua) => UserKeepsTickets(c, s, s', u, ua);
    case OperatorStep(p, oa) => OperatorKeepsTickets(c, s, s', p, oa);
    case DispenserStep(da) => DispenserKeepsTickets(s, s', da);
    case DirectorStep(xa) => DirectorKeepsTickets(c, s, s', xa);
    case _ =>
  }
}
