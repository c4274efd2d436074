/**
 One user's day, over whole runs: the services on its list are begun in order and once
 each, it walks in no earlier than its time, it fails for want of a seat exactly when
 none was staffed, it is marked late exactly when it was counted, and it records the
 reply that it received.
 */
module Errands {
  import opened Settings
  import opened SharedRecord
  import opened Statistics
  import opened Seats
  import opened Protocol
  import opened Locks
  import opened Moves
  import opened Sessions
  import opened Director
  import opened Places
  import opened Counting
  import opened Timing
  import opened Runs
  import opened Delivery

  /** A service has been begun and is not over. */
  predicate InVisit(pc: UserPc) {
    match pc
    case WaitDay => false
    case Starting => false
    case WaitOpen => false
    case WaitWalkIn => false
    case Head => false
    case BeLate(late) => late != AtHead
    case BeFailed(fail) => fail == WithTicket
    case UserConfused => false
    case _ => true
  }

  /** How many services of the list have been begun. */
  function Attempted(x: UserState): nat {
    x.plan.next + One(InVisit(x.pc))
  }

  /** The services that user u begins in the steps after g and before n, in order. */
  function Begun(states: seq<State>, actions: seq<Action>, u: int, g: nat, n: nat): seq<int>
    requires n <= |actions| < |states|
  {
    if n <= g + 1 then []
    else
      Begun(states, actions, u, g, n - 1)
      + (if actions[n - 1] == UserStep(u, UBegin) && u in states[n - 1].users
         then [Wanted(states[n - 1].users[u])] else [])
  }

  // ---------- what single steps do to the plan ----------

  /** A step of the user leaves its plan alone, but for the number of services begun and the late mark. */
  ghost predicate PlanGoesOn(x: UserState, x': UserState, ua: UserAct) {
    && x'.plan.list == x.plan.list && x'.plan.walkIn == x.plan.walkIn
    && (if ua == UBegin
        then x.plan.next < |x.plan.list| && Attempted(x) == x.plan.next && Attempted(x') == x.plan.next + 1
        else Attempted(x') == Attempted(x))
    && (x'.plan.wasLate == (if ua == UStayHome then false else x.plan.wasLate || ua == ULate))
  }

  lemma EarlyPlan(c: Config, s: State, u: int, ua: UserAct)
    requires u in s.users && UserEnabled(c, s, u, ua) && Expects(s.users[u], ua) && !ua.UGoOut? && Early(ua)
    ensures PlanGoesOn(s.users[u], UserNext(c, s, u, ua), ua)
  {
  }

  predicate Ends(ua: UserAct) {
    ua.USeeLate? || ua.UNotLate? || ua.UFreeSeat? || ua.UPostFreed? || ua.ULate? || ua.UFail?
  }

  lemma MiddlePlan(c: Config, s: State, u: int, ua: UserAct)
    requires u in s.users && UserEnabled(c, s, u, ua) && Expects(s.users[u], ua) && !Early(ua) && !Ends(ua)
    ensures PlanGoesOn(s.users[u], UserNext(c, s, u, ua), ua)
  {
  }

  predicate Reckons(ua: UserAct) {
    ua.ULate? || ua.UFail?
  }

  lemma EndPlan(c: Config, s: State, u: int, ua: UserAct)
    requires u in s.users && UserEnabled(c, s, u, ua) && Ends(ua) && !Reckons(ua)
    ensures PlanGoesOn(s.users[u], UserNext(c, s, u, ua), ua)
  {
  }

  lemma ReckonedPlan(c: Config, s: State, u: int, ua: UserAct)
    requires u in s.users && UserEnabled(c, s, u, ua) && Reckons(ua)
    ensures PlanGoesOn(s.users[u], UserNext(c, s, u, ua), ua)
  {
  }

  lemma PlanStep(c: Config, s: State, u: int, ua: UserAct)
    requires SessionInv(s) && u in s.users && UserEnabled(c, s, u, ua) && !ua.UGoOut?
    ensures PlanGoesOn(s.users[u], UserNext(c, s, u, ua), ua)
  {
    assert UserFits(s.operators.Keys, s.users[u]);
    if ua.UGetTicket? || ua.UGetDone? {
      ReceivedByUser(s, u, ua.m);
    }
    if Early(ua) {
      EarlyPlan(c, s, u, ua);
    } else if Reckons(ua) {
      ReckonedPlan(c, s, u, ua);
    } else if Ends(ua) {
      EndPlan(c, s, u, ua);
    } else {
      MiddlePlan(c, s, u, ua);
    }
  }

  /** The same for a step of anybody. */
  ghost predicate PlanKept(s: State, s': State, u: int, a: Action) {
    && u in s.users && u in s'.users
    && (if a.UserStep? && a.u == u then PlanGoesOn(s.users[u], s'.users[u], a.ua)
        else SamePlace(s.users[u], s'.users[u]))
  }

  lemma StepOfPlan(c: Config, s: State, a: Action, u: int)
    requires SessionInv(s) && Enabled(c, s, a) && u in s.users && !(a.UserStep? && a.u == u && a.ua.UGoOut?)
    ensures PlanKept(s, Apply(c, s, a), u, a)
  {
    UsersStay(c, s, a, u);
    if a.UserStep? && a.u == u {
      PlanStep(c, s, u, a.ua);
    }
  }

  lemma NextPlan(c: Config, states: seq<State>, actions: seq<Action>, u: int, k: nat)
    requires Execution(c, states, actions) && k < |actions| && u in states[k].users
    requires !(actions[k].UserStep? && actions[k].u == u && actions[k].ua.UGoOut?)
    ensures PlanKept(states[k], states[k + 1], u, actions[k])
  {
    InvAlways(c, states, actions, k);
    StepOfPlan(c, states[k], actions[k], u);
  }

  // ---------- over a day ----------

  /** The user goes out at g with this list and draw, and does not go out again before n. */
  predicate OutSince(actions: seq<Action>, u: int, list: seq<int>, draw: nat, g: nat, n: nat)
    requires n <= |actions|
  {
    && g < n && actions[g] == UserStep(u, UGoOut(list, draw))
    && forall k | g < k < n :: !(actions[k].UserStep? && actions[k].u == u && actions[k].ua.UGoOut?)
  }

  lemma GoingOut(c: Config, s: State, u: int, list: seq<int>, draw: nat)
    requires Enabled(c, s, UserStep(u, UGoOut(list, draw)))
    ensures var s' := Apply(c, s, UserStep(u, UGoOut(list, draw)));
            && u in s'.users && s'.users[u].plan == Plan(list, 0, WalkInTime(c, |list|, draw), false)
            && Attempted(s'.users[u]) == 0
  {
  }

  /** Every step after g and before n keeps the plan going. */
  ghost predicate PlansKept(states: seq<State>, actions: seq<Action>, u: int, g: nat, n: nat)
    requires n <= |actions| < |states|
  {
    forall k | g < k < n :: PlanKept(states[k], states[k + 1], u, actions[k])
  }

  lemma PlansExtend(states: seq<State>, actions: seq<Action>, u: int, g: nat, n: nat)
    requires g + 1 < n <= |actions| < |states| && PlansKept(states, actions, u, g, n - 1)
    requires PlanKept(states[n - 1], states[n], u, actions[n - 1])
    ensures PlansKept(states, actions, u, g, n)
  {
  }

  lemma PlanNext(c: Config, states: seq<State>, actions: seq<Action>, u: int, list: seq<int>, draw: nat, g: nat, n: nat)
    requires Execution(c, states, actions) && n <= |actions| && OutSince(actions, u, list, draw, g, n)
    requires g + 1 < n && u in states[n - 1].users && PlansKept(states, actions, u, g, n - 1)
    ensures u in states[n].users && PlansKept(states, actions, u, g, n)
  {
    NextPlan(c, states, actions, u, n - 1);
    PlansExtend(states, actions, u, g, n);
  }

  lemma {:induction false} PlanSpan(c: Config, states: seq<State>, actions: seq<Action>,
                                    u: int, list: seq<int>, draw: nat, g: nat, n: nat)
    requires Execution(c, states, actions) && n <= |actions| && OutSince(actions, u, list, draw, g, n)
    ensures u in states[n].users && PlansKept(states, actions, u, g, n)
    decreases n
  {
    if n == g + 1 {
      PlanBegins(c, states, actions, u, list, draw, g);
    } else {
      PlanSpan(c, states, actions, u, list, draw, g, n - 1);
      PlanNext(c, states, actions, u, list, draw, g, n);
    }
  }

  /** The plan a user goes out with. */
  ghost predicate Fresh(s: State, u: int, list: seq<int>, walkIn: int) {
    && u in s.users && s.users[u].plan == Plan(list, 0, walkIn, false) && Attempted(s.users[u]) == 0
  }

  lemma PlanBegins(c: Config, states: seq<State>, actions: seq<Action>, u: int, list: seq<int>, draw: nat, g: nat)
    requires Execution(c, states, actions) && g < |actions| && actions[g] == UserStep(u, UGoOut(list, draw))
    ensures Fresh(states[g + 1], u, list, WalkInTime(c, |list|, draw))
  {
    GoingOut(c, states[g], u, list, draw);
  }

  /** The services begun since g are a beginning of the list, as long as the plan says. */
  ghost predicate ListAt(states: seq<State>, actions: seq<Action>, u: int, list: seq<int>, walkIn: int, g: nat, n: nat)
    requires n <= |actions| < |states|
  {
    && u in states[n].users
    && var x := states[n].users[u];
       && x.plan.list == list && x.plan.walkIn == walkIn
       && Attempted(x) <= |list| && Begun(states, actions, u, g, n) == list[..Attempted(x)]
  }

  lemma ListNext(states: seq<State>, actions: seq<Action>, u: int, list: seq<int>, walkIn: int, g: nat, n: nat)
    requires g + 1 < n <= |actions| < |states| && ListAt(states, actions, u, list, walkIn, g, n - 1)
    requires PlanKept(states[n - 1], states[n], u, actions[n - 1])
    ensures ListAt(states, actions, u, list, walkIn, g, n)
  {
    var x, x' := states[n - 1].users[u], states[n].users[u];
    if actions[n - 1] == UserStep(u, UBegin) {
      assert list[..x.plan.next] + [list[x.plan.next]] == list[..x.plan.next + 1];
    } else {
      assert Attempted(x') == Attempted(x);
    }
  }

  lemma {:induction false} ListOn(states: seq<State>, actions: seq<Action>,
                                  u: int, list: seq<int>, walkIn: int, g: nat, n: nat)
    requires g < n <= |actions| < |states| && Fresh(states[g + 1], u, list, walkIn)
    requires PlansKept(states, actions, u, g, n)
    ensures ListAt(states, actions, u, list, walkIn, g, n)
    decreases n
  {
    if n > g + 1 {
      ListOn(states, actions, u, list, walkIn, g, n - 1);
      assert PlanKept(states[n - 1], states[n - 1 + 1], u, actions[n - 1]);
      ListNext(states, actions, u, list, walkIn, g, n);
    }
  }

  /** From its going out on, the services that a user begins are a beginning of its list. */
  lemma ListFollowed(c: Config, states: seq<State>, actions: seq<Action>,
                     u: int, list: seq<int>, draw: nat, g: nat, n: nat)
    requires Execution(c, states, actions) && n <= |actions| && OutSince(actions, u, list, draw, g, n)
    ensures ListAt(states, actions, u, list, WalkInTime(c, |list|, draw), g, n)
  {
    PlanSpan(c, states, actions, u, list, draw, g, n);
    PlanBegins(c, states, actions, u, list, draw, g);
    ListOn(states, actions, u, list, WalkInTime(c, |list|, draw), g, n);
  }

  lemma AtHome(c: Config, s: State, u: int)
    requires u in s.users
    ensures UserEnabled(c, s, u, UGoHome) ==> Attempted(s.users[u]) >= |s.users[u].plan.list|
    ensures UserEnabled(c, s, u, USeeClosed) ==> Attempted(s.users[u]) < |s.users[u].plan.list|
  {
  }

  /** A user that goes home at the end of its day has begun every service of its list, in order and once each. */
  lemma WholeListBegun(c: Config, states: seq<State>, actions: seq<Action>,
                       u: int, list: seq<int>, draw: nat, g: nat, n: nat)
    requires Execution(c, states, actions) && n < |actions| && OutSince(actions, u, list, draw, g, n)
    requires actions[n] == UserStep(u, UGoHome)
    ensures Begun(states, actions, u, g, n) == list
  {
    ListFollowed(c, states, actions, u, list, draw, g, n);
    AtHome(c, states[n], u);
  }

  /** One that is turned away at closing time has begun all before the service it is turned away from. */
  lemma PrefixBegun(c: Config, states: seq<State>, actions: seq<Action>,
                    u: int, list: seq<int>, draw: nat, g: nat, n: nat)
    requires Execution(c, states, actions) && n < |actions| && OutSince(actions, u, list, draw, g, n)
    requires actions[n] == UserStep(u, USeeClosed)
    ensures u in states[n].users
    ensures Begun(states, actions, u, g, n) < list
    ensures Wanted(states[n].users[u]) == list[|Begun(states, actions, u, g, n)|]
  {
    ListFollowed(c, states, actions, u, list, draw, g, n);
    AtHome(c, states[n], u);
    assert UserEnabled(c, states[n], u, USeeClosed);
  }

  lemma WalksInAt(c: Config, s: State, u: int)
    requires u in s.users && UserEnabled(c, s, u, UWalkIn) && ShowsTick(s.stats.mem.clock, s.stats.mem.clock.tick)
    ensures MinuteOf(s.stats.mem.clock.tick) >= s.users[u].plan.walkIn
  {
  }

  /** A user walks in no earlier than the time drawn for its list, which is after opening. */
  lemma WalksInOnTime(c: Config, states: seq<State>, actions: seq<Action>,
                      u: int, list: seq<int>, draw: nat, g: nat, n: nat)
    requires Execution(c, states, actions) && n < |actions| && OutSince(actions, u, list, draw, g, n)
    requires actions[n] == UserStep(u, UWalkIn)
    ensures c.shiftOpen * 60 < WalkInTime(c, |list|, draw) <= MinuteOf(states[n].stats.mem.clock.tick)
  {
    ListFollowed(c, states, actions, u, list, draw, g, n);
    InvAlways(c, states, actions, n);
    WalksInAt(c, states[n], u);
    WalkInWithinShift(c, |list|, draw);
  }

  predicate CountedSince(actions: seq<Action>, u: int, g: nat, n: nat)
    requires n <= |actions|
  {
    exists k | g < k < n :: actions[k] == UserStep(u, ULate)
  }

  predicate MarkAt(states: seq<State>, actions: seq<Action>, u: int, g: nat, n: nat)
    requires n <= |actions| < |states|
  {
    u in states[n].users && (states[n].users[u].plan.wasLate <==> CountedSince(actions, u, g, n))
  }

  lemma MarkNext(states: seq<State>, actions: seq<Action>, u: int, g: nat, n: nat)
    requires g + 1 < n <= |actions| < |states| && MarkAt(states, actions, u, g, n - 1)
    requires PlanKept(states[n - 1], states[n], u, actions[n - 1]) && actions[n - 1] != UserStep(u, UStayHome)
    ensures MarkAt(states, actions, u, g, n)
  {
    if k :| g < k < n - 1 && actions[k] == UserStep(u, ULate) {
      assert CountedSince(actions, u, g, n);
    }
    if actions[n - 1] == UserStep(u, ULate) {
      assert CountedSince(actions, u, g, n);
    }
  }

  lemma {:induction false} MarkOn(states: seq<State>, actions: seq<Action>, u: int, g: nat, n: nat)
    requires g < n <= |actions| < |states| && MarkAt(states, actions, u, g, g + 1)
    requires PlansKept(states, actions, u, g, n) && forall k | g < k < n :: actions[k] != UserStep(u, UStayHome)
    ensures MarkAt(states, actions, u, g, n)
    decreases n
  {
    if n > g + 1 {
      MarkOn(states, actions, u, g, n - 1);
      assert PlanKept(states[n - 1], states[n - 1 + 1], u, actions[n - 1]);
      MarkNext(states, actions, u, g, n);
    }
  }

  /** The mark that a user has been late today is set exactly when it has been counted since it went out. */
  lemma MarkedWhenCounted(c: Config, states: seq<State>, actions: seq<Action>,
                          u: int, list: seq<int>, draw: nat, g: nat, n: nat)
    requires Execution(c, states, actions) && n <= |actions| && OutSince(actions, u, list, draw, g, n)
    requires forall k | g < k < n :: actions[k] != UserStep(u, UStayHome)
    ensures MarkAt(states, actions, u, g, n)
  {
    PlanSpan(c, states, actions, u, list, draw, g, n);
    PlanBegins(c, states, actions, u, list, draw, g);
    MarkOn(states, actions, u, g, n);
  }

  // ---------- searching ----------

  /** What a search found is what its user tries, until it searches again. */
  ghost predicate FindKept(s: State, s': State, u: int, a: Action) {
    && u in s.users && u in s'.users
    && (a != UserStep(u, UFindSeats) ==> s'.users[u].visit.valid == s.users[u].visit.valid)
    && (!Receives(a, u) ==> s'.users[u].visit.done == s.users[u].visit.done)
  }

  lemma EarlyFind(c: Config, s: State, u: int, ua: UserAct)
    requires u in s.users && UserEnabled(c, s, u, ua) && Early(ua)
    ensures var x, x' := s.users[u], UserNext(c, s, u, ua);
            (ua != UFindSeats ==> x'.visit.valid == x.visit.valid) && x'.visit.done == x.visit.done
  {
  }

  lemma LateFind(c: Config, s: State, u: int, ua: UserAct)
    requires u in s.users && UserEnabled(c, s, u, ua) && !Early(ua)
    ensures var x, x' := s.users[u], UserNext(c, s, u, ua);
            x'.visit.valid == x.visit.valid && (!ua.UGetDone? ==> x'.visit.done == x.visit.done)
  {
  }

  lemma StepOfFind(c: Config, s: State, a: Action, u: int)
    requires Enabled(c, s, a) && u in s.users
    ensures FindKept(s, Apply(c, s, a), u, a)
  {
    UsersStay(c, s, a, u);
    if a.UserStep? && a.u == u {
      if Early(a.ua) {
        EarlyFind(c, s, u, a.ua);
      } else {
        LateFind(c, s, u, a.ua);
      }
    }
  }

  lemma {:induction false} FindSpan(c: Config, states: seq<State>, actions: seq<Action>, u: int, i: nat, k: nat)
    requires Execution(c, states, actions) && i <= k < |states| && u in states[i].users
    requires forall x | i <= x < k :: actions[x] != UserStep(u, UFindSeats)
    ensures u in states[k].users && states[k].users[u].visit.valid == states[i].users[u].visit.valid
    decreases k
  {
    if i < k {
      FindSpan(c, states, actions, u, i, k - 1);
      StepOfFind(c, states[k - 1], actions[k - 1], u);
    }
  }

  predicate Receives(a: Action, u: int) {
    a.UserStep? && a.u == u && a.ua.UGetDone?
  }

  lemma {:induction false} ReplySpan(c: Config, states: seq<State>, actions: seq<Action>, u: int, i: nat, k: nat)
    requires Execution(c, states, actions) && i <= k < |states| && u in states[i].users
    requires forall x | i <= x < k :: !Receives(actions[x], u)
    ensures u in states[k].users && states[k].users[u].visit.done == states[i].users[u].visit.done
    decreases k
  {
    if i < k {
      ReplySpan(c, states, actions, u, i, k - 1);
      StepOfFind(c, states[k - 1], actions[k - 1], u);
    }
  }

  lemma Searching(c: Config, s: State, u: int)
    requires Enabled(c, s, UserStep(u, UFindSeats))
    ensures var s' := Apply(c, s, UserStep(u, UFindSeats));
            && u in s.users && u in s'.users
            && (s'.users[u].visit.valid == [] <==> forall j :: !Staffed(s.seats.mem, j, Wanted(s.users[u])))
  {
    var v := ValidSeats(s.seats.mem, Wanted(s.users[u]), |s.seats.mem|);
    if v != [] {
      assert v[0] in v;
    }
  }

  lemma Judging(c: Config, s: State, u: int)
    requires Enabled(c, s, UserStep(u, UJudgeSeats))
    ensures var s' := Apply(c, s, UserStep(u, UJudgeSeats));
            && u in s'.users
            && s'.users[u].pc == (if s.users[u].visit.valid == [] then BeFailed(WithTicket) else TrySeat)
  {
  }

  /**
   A visit fails after its search, at once, exactly when at the search no seat was
   staffed for the service wanted; otherwise the user goes on to try for a seat.
   */
  lemma FailsWhenNoneStaffed(c: Config, states: seq<State>, actions: seq<Action>, u: int, i: nat, k: nat)
    requires Execution(c, states, actions) && i < k < |actions|
    requires LastBefore(actions, i, k, UserStep(u, UFindSeats)) && actions[k] == UserStep(u, UJudgeSeats)
    ensures u in states[i].users && u in states[k + 1].users
    ensures states[k + 1].users[u].pc == BeFailed(WithTicket)
       <==> forall j :: !Staffed(states[i].seats.mem, j, Wanted(states[i].users[u]))
    ensures states[k + 1].users[u].pc == BeFailed(WithTicket) || states[k + 1].users[u].pc == TrySeat
  {
    assert actions[i] == UserStep(u, UFindSeats);
    Searching(c, states[i], u);
    FindSpan(c, states, actions, u, i + 1, k);
    Judging(c, states[k], u);
  }

  // ---------- the reply ----------

  lemma Receiving(c: Config, s: State, u: int, m: Msg)
    requires SessionInv(s) && Enabled(c, s, UserStep(u, UGetDone(m)))
    ensures var s' := Apply(c, s, UserStep(u, UGetDone(m)));
            && u in s'.users && m.body.ServiceDone?
            && s'.users[u].visit.done == Reply(m.body.number, m.body.service, m.body.time)
  {
    assert UserFits(s.operators.Keys, s.users[u]);
    ReceivedByUser(s, u, m);
  }

  /** What a user records is the service and the time of the done message that it received last. */
  lemma RecordsWhatItReceived(c: Config, states: seq<State>, actions: seq<Action>, u: int, m: Msg, i: nat, k: nat)
    requires Execution(c, states, actions) && i < k < |actions|
    requires actions[i] == UserStep(u, UGetDone(m)) && actions[k] == UserStep(u, URecord)
    requires forall x | i < x < k :: !Receives(actions[x], u)
    ensures u in states[k].users && m.body.ServiceDone?
    ensures states[k].users[u].visit.done == Reply(m.body.number, m.body.service, m.body.time)
  {
    InvAlways(c, states, actions, i);
    Receiving(c, states[i], u, m);
    ReplySpan(c, states, actions, u, i + 1, k);
  }
}
