/**
 One relation per program that lists what a step changes, with the statistics and
 the seat table seen through their views. Every step of the system is one of these.
 */
module Moves {
  import opened Settings
  import opened SharedRecord
  import opened Statistics
  import opened Seats
  import opened Protocol
  import opened Locks

  function After(m: seq<Seat>, section: Section<SeatWrite>): seq<Seat> {
    if section.Outside? then m else Run(ApplySeat, m, section.writes)
  }

  /** The parts of the state on which an effect acts. */
  ghost predicate Effected(s: State, s': State, who: Proc, e: Effect, ch: Change) {
    && s'.queue == s.queue - e.taken + e.sent
    && s'.events == e.events
    && s'.hist == e.hist
    && s'.stats == Into(ApplyStat, s.stats, who, e.stats)
    && s'.stats.view == ApplyChange(s.stats.view, ch)
    && s'.hist.past == Archived(s.hist.past, s.stats.view, ch)
    && s'.seats == Into(ApplySeat, s.seats, who, e.seats)
    && s'.seats.view == After(s.seats.view, e.seats)
    && (e.seats.Owes? ==> s.seats.mem == s.seats.view && s.seats.inside.Keys == {})
  }

  ghost predicate UserMove(c: Config, s: State, s': State, u: int, ua: UserAct) {
    && u in s.users && UserEnabled(c, s, u, ua)
    && s'.users == s.users[u := UserNext(c, s, u, ua)]
    && s'.operators == s.operators && s'.dispenser == s.dispenser && s'.director == s.director
    && Effected(s, s', TheUser(u), UserEffect(s, u, ua), UserChange(s.users[u], ua))
  }

  ghost predicate OperatorMove(c: Config, s: State, s': State, p: int, oa: OperatorAct) {
    && p in s.operators && OperatorEnabled(c, s, p, oa)
    && s'.operators == s.operators[p := OperatorNext(c, s, p, oa)]
    && s'.users == OperatorUsers(c, s, p, oa)
    && s'.dispenser == s.dispenser && s'.director == s.director
    && Effected(s, s', TheOperator(p), OperatorEffect(c, s, p, oa), OperatorChange(s.operators[p], oa))
  }

  ghost predicate DispenserMove(s: State, s': State, da: DispenserAct) {
    && DispenserEnabled(s, da)
    && s'.dispenser == DispenserNext(s, da)
    && s'.users == DispenserUsers(s, da)
    && s'.operators == s.operators && s'.director == s.director
    && Effected(s, s', TheDirector, DispenserEffect(s, da), Unchanged)
  }

  ghost predicate DirectorMove(c: Config, s: State, s': State, xa: DirectorAct) {
    && OutsideLocks(s, TheDirector) && DirectorEnabled(c, s, xa)
    && s'.director == DirectorNext(c, s, xa)
    && s'.users == DirectorUsers(s, xa)
    && s'.operators == s.operators && s'.dispenser == s.dispenser
    && Effected(s, s', TheDirector, DirectorEffect(s, xa), DirectorChange(s.director, xa))
  }

  /** A step inside a locked section touches memory only, by one of the writes owed. */
  ghost predicate SectionMove(s: State, s': State, a: Action) {
    && InsideSection(a)
    && s' == s.(stats := s'.stats, seats := s'.seats)
    && s'.stats.view == s.stats.view && s'.seats.view == s.seats.view
    && (if a.StatStep? then a.who in s.stats.inside && s.stats.inside[a.who] != []
                            && s'.stats == WriteNext(ApplyStat, s.stats, a.who)
        else if a.StatLeave? then a.who in s.stats.inside && s.stats.inside[a.who] == []
                                  && s'.stats == Leave(s.stats, a.who)
        else s'.stats == s.stats)
    && (if a.SeatStep? then a.who in s.seats.inside && s.seats.inside[a.who] != []
                            && s'.seats == WriteNext(ApplySeat, s.seats, a.who)
        else if a.SeatLeave? then a.who in s.seats.inside && s.seats.inside[a.who] == []
                                  && s'.seats == Leave(s.seats, a.who)
        else s'.seats == s.seats)
  }

  /** Seen through the views, every step is atomic: a whole update of a record, or none. */
  ghost predicate Moved(c: Config, s: State, s': State, a: Action) {
    match a
    case UserStep(u, ua) => UserMove(c, s, s', u, ua)
    case OperatorStep(p, oa) => OperatorMove(c, s, s', p, oa)
    case DispenserStep(da) => DispenserMove(s, s', da)
    case DirectorStep(xa) => DirectorMove(c, s, s', xa)
    case _ => SectionMove(s, s', a)
  }

  lemma CommitIsEffected(c: Config, s: State, s': State, who: Proc, e: Effect, ch: Change)
    requires LockInv(c, s) && Disciplined(s, s'.director, who, e) && Amounts(s, e, ch)
    requires s' == Commit(s, who, e).(users := s'.users, operators := s'.operators,
                                      dispenser := s'.dispenser, director := s'.director)
    ensures Effected(s, s', who, e, ch)
  {
  }

  lemma StepsAreAtomic(c: Config, s: State, a: Action)
    requires LockInv(c, s) && Enabled(c, s, a)
    ensures LockInv(c, Apply(c, s, a)) && Moved(c, s, Apply(c, s, a), a)
  {
    LocksPreserved(c, s, a);
    match a
    case UserStep(u, ua) => UserStepMoves(c, s, u, ua);
    case OperatorStep(p, oa) => OperatorStepMoves(c, s, p, oa);
    case DispenserStep(da) => DispenserStepMoves(c, s, da);
    case DirectorStep(xa) => DirectorStepMoves(c, s, xa);
    case _ => SectionSteps(c, s, a);
  }

  lemma UserStepMoves(c: Config, s: State, u: int, ua: UserAct)
    requires LockInv(c, s) && Enabled(c, s, UserStep(u, ua))
    ensures UserMove(c, s, Apply(c, s, UserStep(u, ua)), u, ua)
  {
    UserDisciplined(c, s, u, ua);
    UserAmounts(s, u, ua);
    CommitIsEffected(c, s, Apply(c, s, UserStep(u, ua)), TheUser(u), UserEffect(s, u, ua),
                     UserChange(s.users[u], ua));
  }

  lemma OperatorStepMoves(c: Config, s: State, p: int, oa: OperatorAct)
    requires LockInv(c, s) && Enabled(c, s, OperatorStep(p, oa))
    ensures OperatorMove(c, s, Apply(c, s, OperatorStep(p, oa)), p, oa)
  {
    OperatorDisciplined(c, s, p, oa);
    OperatorAmounts(c, s, p, oa);
    CommitIsEffected(c, s, Apply(c, s, OperatorStep(p, oa)), TheOperator(p), OperatorEffect(c, s, p, oa),
                     OperatorChange(s.operators[p], oa));
  }

  lemma DispenserStepMoves(c: Config, s: State, da: DispenserAct)
    requires LockInv(c, s) && Enabled(c, s, DispenserStep(da))
    ensures DispenserMove(s, Apply(c, s, DispenserStep(da)), da)
  {
    CommitIsEffected(c, s, Apply(c, s, DispenserStep(da)), TheDirector, DispenserEffect(s, da), Unchanged);
  }

  lemma DirectorStepMoves(c: Config, s: State, xa: DirectorAct)
    requires LockInv(c, s) && Enabled(c, s, DirectorStep(xa))
    ensures DirectorMove(c, s, Apply(c, s, DirectorStep(xa)), xa)
  {
    DirectorDisciplined(c, s, xa);
    DirectorAmounts(s, xa);
    CommitIsEffected(c, s, Apply(c, s, DirectorStep(xa)), TheDirector, DirectorEffect(s, xa),
                     DirectorChange(s.director, xa));
  }
}
