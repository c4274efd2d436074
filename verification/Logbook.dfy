/**
 What the counters of the system count, over whole runs: each of them is the number of
 steps of one kind that the run has taken.
 */
module Logbook {
  import opened Settings
  import opened SharedRecord
  import opened Statistics
  import opened Seats
  import opened Protocol
  import opened Locks
  import opened Moves
  import opened Sessions
  import opened Director
  import opened Tallies
  import opened Tickets
  import opened Counting
  import opened Runs
  import opened Chronicle
  import opened Visits

  // ---------- requests ----------

  /** An operator counts a request of service k. */
  function CountsRequest(k: int): (State, Action) -> bool {
    (s: State, a: Action) =>
      a.OperatorStep? && a.p in s.operators && a.oa == OCount && For(s.operators[a.p].service, k)
  }

  ghost function RequestMeasure(k: int): State -> int {
    (s: State) => TallyOf(s.stats.view.sim, k).requests
  }

  lemma OnlyOperatorsCount(s: State, a: Action, k: int)
    requires !a.OperatorStep?
    ensures Added(ChangeOf(s, a), k).requests == 0
  {
  }

  lemma RequestMoves(c: Config, s: State, s': State, a: Action, k: int)
    requires Moved(c, s, s', a) && |s.stats.view.sim.services| == SERVICES && IsTally(k)
    ensures RequestMeasure(k)(s') == RequestMeasure(k)(s) + One(CountsRequest(k)(s, a))
  {
    TotalsGrow(c, s, s', a, k);
    if !a.OperatorStep? {
      OnlyOperatorsCount(s, a, k);
    }
  }

  /** Per service and overall: the requests recorded are the requests that operators have counted. */
  lemma RequestsCounted(c: Config, states: seq<State>, actions: seq<Action>, n: nat, k: int)
    requires Execution(c, states, actions) && n <= |actions| && IsTally(k)
    ensures TallyOf(states[n].stats.view.sim, k).requests == Steps(CountsRequest(k), states, actions, n)
  {
    forall i | 0 <= i < n
      ensures RequestMeasure(k)(states[i + 1])
           == RequestMeasure(k)(states[i]) + One(CountsRequest(k)(states[i], actions[i]))
    {
      StepOfRun(c, states, actions, i);
      RequestMoves(c, states[i], states[i + 1], actions[i], k);
    }
    CountsSteps(CountsRequest(k), RequestMeasure(k), states, actions, n);
  }

  // ---------- tokens, tickets, days ----------

  datatype Counter = UserDays | OperatorDays | Entries | Closings | Numbers | Archive | Resets

  function Reading(s: State, k: Counter): nat {
    match k
    case UserDays => s.hist.userTokens
    case OperatorDays => s.hist.operatorTokens
    case Entries => s.hist.doors.entered
    case Closings => s.hist.doors.shut
    case Numbers => Issued(s.dispenser)
    case Archive => |s.hist.past|
    case Resets => s.hist.seatDay
  }

  predicate Counted(a: Action, k: Counter) {
    match k
    case UserDays => a.UserStep? && a.ua == UTakeDay
    case OperatorDays => a.OperatorStep? && a.oa == OTakeDay
    case Entries => (a.UserStep? && a.ua == UEnterOffice) || (a.OperatorStep? && a.oa == OEnterOffice)
    case Closings => a.OperatorStep? && (a.oa == OSeeClose || a.oa == OSeeClosedWaiting)
    case Numbers => a.DispenserStep? && a.da.DReply?
    case Archive => a == DirectorStep(XResetStats)
    case Resets => IsReset(a)
  }

  function CountedAs(k: Counter): (State, Action) -> bool {
    (s: State, a: Action) => Counted(a, k)
  }

  function CounterMeasure(k: Counter): State -> int {
    (s: State) => Reading(s, k)
  }

  /** History as a step leaves it. */
  ghost predicate CountsInto(s: State, s': State, a: Action, k: Counter) {
    Reading(s', k) == Reading(s, k) + One(Counted(a, k))
  }

  lemma UserCounts(c: Config, s: State, s': State, u: int, ua: UserAct, k: Counter)
    requires UserMove(c, s, s', u, ua)
    ensures CountsInto(s, s', UserStep(u, ua), k)
  {
    var h := UserEffect(s, u, ua).hist;
    UserHistory(s, u, ua);
    assert s'.hist == h;
  }

  /** What a user's step adds to the history. */
  ghost predicate UserLogs(s: State, ua: UserAct, h: History) {
    && h.userTokens == s.hist.userTokens + One(ua == UTakeDay) && h.operatorTokens == s.hist.operatorTokens
    && h.doors.entered == s.hist.doors.entered + One(ua == UEnterOffice) && h.doors.shut == s.hist.doors.shut
    && h.past == s.hist.past && h.seatDay == s.hist.seatDay
  }

  lemma EarlyHistory(s: State, u: int, ua: UserAct)
    requires u in s.users && Early(ua)
    ensures UserLogs(s, ua, UserEffect(s, u, ua).hist)
  {
  }

  lemma LateHistory(s: State, u: int, ua: UserAct)
    requires u in s.users && !Early(ua)
    ensures UserLogs(s, ua, UserEffect(s, u, ua).hist)
  {
  }

  lemma UserHistory(s: State, u: int, ua: UserAct)
    requires u in s.users
    ensures UserLogs(s, ua, UserEffect(s, u, ua).hist)
  {
    if Early(ua) {
      EarlyHistory(s, u, ua);
    } else {
      LateHistory(s, u, ua);
    }
  }

  lemma OperatorHistory(c: Config, s: State, p: int, oa: OperatorAct)
    requires p in s.operators
    ensures var h := OperatorEffect(c, s, p, oa).hist;
            && h.userTokens == s.hist.userTokens && h.operatorTokens == s.hist.operatorTokens + One(oa == OTakeDay)
            && h.doors.entered == s.hist.doors.entered + One(oa == OEnterOffice)
            && h.doors.shut == s.hist.doors.shut + One(oa == OSeeClose || oa == OSeeClosedWaiting)
            && h.past == s.hist.past && h.seatDay == s.hist.seatDay
  {
  }

  lemma DirectorHistory(s: State, xa: DirectorAct)
    ensures var h := DirectorEffect(s, xa).hist;
            && h.userTokens == s.hist.userTokens && h.operatorTokens == s.hist.operatorTokens
            && h.doors.entered == s.hist.doors.entered && h.doors.shut == s.hist.doors.shut
            && |h.past| == |s.hist.past| + One(xa == XResetStats)
            && h.seatDay == s.hist.seatDay + One(xa.XResetSeats?)
  {
  }

  lemma OperatorCounts(c: Config, s: State, s': State, p: int, oa: OperatorAct, k: Counter)
    requires OperatorMove(c, s, s', p, oa)
    ensures CountsInto(s, s', OperatorStep(p, oa), k)
  {
    OperatorHistory(c, s, p, oa);
  }

  lemma DirectorCounts(c: Config, s: State, s': State, xa: DirectorAct, k: Counter)
    requires DirectorMove(c, s, s', xa)
    ensures CountsInto(s, s', DirectorStep(xa), k)
  {
    DirectorHistory(s, xa);
  }

  lemma DispenserCounts(s: State, s': State, da: DispenserAct, k: Counter)
    requires DispenserMove(s, s', da)
    ensures CountsInto(s, s', DispenserStep(da), k)
  {
  }

  lemma CounterMoves(c: Config, s: State, s': State, a: Action, k: Counter)
    requires Moved(c, s, s', a)
    ensures CountsInto(s, s', a, k)
  {
    match a
    case UserStep(u, ua) => UserCounts(c, s, s', u, ua, k);
    case OperatorStep(p, oa) => OperatorCounts(c, s, s', p, oa, k);
    case DispenserStep(da) => DispenserCounts(s, s', da, k);
    case DirectorStep(xa) => DirectorCounts(c, s, s', xa, k);
    case _ =>
  }

  /**
   The day tokens that users and operators have consumed, the tokens consumed at opening
   and at closing, the ticket numbers issued, the days archived and the seat resets are
   the steps of those kinds: each consumes, issues or archives one, and nothing else does.
   */
  lemma CountersCount(c: Config, states: seq<State>, actions: seq<Action>, n: nat, k: Counter)
    requires Execution(c, states, actions) && n <= |actions|
    ensures Reading(states[n], k) == Steps(CountedAs(k), states, actions, n)
  {
    forall i | 0 <= i < n
      ensures CounterMeasure(k)(states[i + 1])
           == CounterMeasure(k)(states[i]) + One(CountedAs(k)(states[i], actions[i]))
    {
      StepOfRun(c, states, actions, i);
      CounterMoves(c, states[i], states[i + 1], actions[i], k);
    }
    CountsSteps(CountedAs(k), CounterMeasure(k), states, actions, n);
  }

  // ---------- who there is ----------

  /** The users added in the first n steps. */
  function Joined(actions: seq<Action>, n: nat): set<int>
    requires n <= |actions|
  {
    if n == 0 then {}
    else Joined(actions, n - 1) + Joins(actions[n - 1])
  }

  function Joins(a: Action): set<int> {
    if a.DirectorStep? && a.xa.XNewUsers? then a.xa.pids else {}
  }

  /** Those there are after a step. */
  ghost predicate Gains(s: State, s': State, joined: set<int>) {
    s'.users.Keys == s.users.Keys + joined && s'.operators.Keys == s.operators.Keys
  }

  lemma OperatorGains(c: Config, s: State, s': State, p: int, oa: OperatorAct)
    requires OperatorMove(c, s, s', p, oa)
    ensures Gains(s, s', {})
  {
    OperatorSetsItems(c, s, p, oa);
  }

  lemma DispenserGains(s: State, s': State, da: DispenserAct)
    requires DispenserMove(s, s', da)
    ensures Gains(s, s', {})
  {
    DispenserSetsItems(s, da);
  }

  lemma DirectorGains(c: Config, s: State, s': State, xa: DirectorAct)
    requires DirectorMove(c, s, s', xa)
    ensures Gains(s, s', Joins(DirectorStep(xa)))
  {
    assert s'.users == DirectorUsers(s, xa);
  }

  lemma UsersJoin(c: Config, s: State, s': State, a: Action)
    requires Moved(c, s, s', a)
    ensures Gains(s, s', Joins(a))
  {
    match a
    case UserStep(u, ua) =>
    case OperatorStep(p, oa) => OperatorGains(c, s, s', p, oa);
    case DispenserStep(da) => DispenserGains(s, s', da);
    case DirectorStep(xa) => DirectorGains(c, s, s', xa);
    case _ =>
  }

  lemma GainsOfRun(c: Config, states: seq<State>, actions: seq<Action>, k: nat)
    requires Execution(c, states, actions) && k < |actions|
    ensures Gains(states[k], states[k + 1], Joins(actions[k]))
  {
    MoveOfRun(c, states, actions, k);
    UsersJoin(c, states[k], states[k + 1], actions[k]);
  }

  lemma {:induction false} GainsAddUp(states: seq<State>, actions: seq<Action>, n: nat)
    requires n <= |actions| < |states|
    requires forall k | 0 <= k < n :: Gains(states[k], states[k + 1], Joins(actions[k]))
    ensures Gains(states[0], states[n], Joined(actions, n))
  {
    if n > 0 {
      GainsAddUp(states, actions, n - 1);
      assert Gains(states[n - 1], states[n - 1 + 1], Joins(actions[n - 1]));
    }
  }

  /** The users are those of the beginning and all that were added since; the operators stay the same. */
  lemma UsersAre(c: Config, states: seq<State>, actions: seq<Action>, n: nat)
    requires Execution(c, states, actions) && n <= |actions|
    ensures states[n].users.Keys == states[0].users.Keys + Joined(actions, n)
    ensures states[n].operators.Keys == states[0].operators.Keys
  {
    forall k | 0 <= k < n ensures Gains(states[k], states[k + 1], Joins(actions[k])) {
      GainsOfRun(c, states, actions, k);
    }
    GainsAddUp(states, actions, n);
  }
}
