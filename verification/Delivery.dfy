/**
 Over whole runs: a user whose search, and whose operator's search, no reset of the
 seats overtook is given the service it asked for, on whatever day the answer comes.
 */
module Delivery {
  import opened Settings
  import opened SharedRecord
  import opened Statistics
  import opened Seats
  import opened Protocol
  import opened Locks
  import opened Moves
  import opened Sessions
  import opened Stations
  import opened Agreement
  import opened Places
  import opened Runs
  import opened Theorems

  /** A step of the section in which the director rewrites the seats, its entry and its end included. */
  predicate ResetStep(a: Action) {
    IsReset(a) || a == SeatStep(TheDirector) || a == SeatLeave(TheDirector)
  }

  predicate NoReset(actions: seq<Action>, i: nat, j: nat)
    requires j <= |actions|
  {
    forall x | i < x < j :: !ResetStep(actions[x])
  }

  /** The step at i is the last of its kind before j. */
  predicate LastBefore(actions: seq<Action>, i: nat, j: nat, a: Action)
    requires j <= |actions|
  {
    i < j && actions[i] == a && forall x | i < x < j :: actions[x] != a
  }

  /** Operator p comes to hold a seat. */
  predicate SitsDown(s: State, s': State, p: int) {
    && p in s.operators && p in s'.operators
    && !AtSeat(s.operators[p]) && AtSeat(s'.operators[p])
  }

  predicate LastSeating(states: seq<State>, p: int, j: nat, k: nat)
    requires k < |states|
  {
    j < k && SitsDown(states[j], states[j + 1], p) && forall x | j < x < k :: !SitsDown(states[x], states[x + 1], p)
  }

  /**
   The seat that p holds at k it took under the lock in which it found it, or it had
   found it earlier and no reset came between.
   */
  ghost predicate TookInTime(states: seq<State>, actions: seq<Action>, p: int, k: nat)
    requires k < |actions| < |states|
  {
    exists j :: 0 <= j < k && LastSeating(states, p, j, k)
             && (actions[j] == OperatorStep(p, OTakeFound) ==>
                   exists h :: 0 <= h < j && LastBefore(actions, h, j, OperatorStep(p, OScanService))
                            && NoReset(actions, h, j))
  }

  // ---------- what single steps leave alone ----------

  lemma OperatorLeavesUsers(c: Config, s: State, p: int, oa: OperatorAct, u: int)
    requires Enabled(c, s, OperatorStep(p, oa)) && u in s.users
    ensures var s' := Apply(c, s, OperatorStep(p, oa)); u in s'.users && SamePlace(s.users[u], s'.users[u])
  {
    OperatorTouchesItems(c, s, p, oa);
    assert Apply(c, s, OperatorStep(p, oa)).users == OperatorUsers(c, s, p, oa);
  }

  lemma UsersStay(c: Config, s: State, a: Action, u: int)
    requires Enabled(c, s, a) && u in s.users
    ensures u in Apply(c, s, a).users
    ensures !(a.UserStep? && a.u == u) ==> SamePlace(s.users[u], Apply(c, s, a).users[u])
  {
    if a.OperatorStep? {
      OperatorLeavesUsers(c, s, a.p, a.oa, u);
    }
  }

  lemma OperatorsStay(c: Config, s: State, a: Action, p: int)
    requires Enabled(c, s, a) && p in s.operators
    ensures p in Apply(c, s, a).operators
    ensures Apply(c, s, a).operators[p]
         == if a.OperatorStep? && a.p == p then OperatorNext(c, s, p, a.oa) else s.operators[p]
  {
  }

  /** The user has its operator's name and waits for the answer. */
  predicate Committed(x: UserState) {
    x.pc.ReadClock? || x.pc.ReadyToSend? || x.pc.AwaitDone?
  }

  /** Of one visit: a search goes on, or a request does, only from the same stage and for the same service. */
  ghost predicate SameVisit(x: UserState, x': UserState, ua: UserAct) {
    && (ua != UFindSeats ==>
          && x'.trace.foundDay == x.trace.foundDay
          && (Searching(x') ==> Searching(x) && Wanted(x') == Wanted(x)))
    && (ua != UReadOperator ==>
          && x'.trace.agreed == x.trace.agreed
          && (Committed(x') ==> Committed(x) && Wanted(x') == Wanted(x)))
  }

  lemma EarlyVisit(c: Config, s: State, u: int, ua: UserAct)
    requires u in s.users && UserEnabled(c, s, u, ua) && Early(ua)
    ensures SameVisit(s.users[u], UserNext(c, s, u, ua), ua)
  {
  }

  lemma LateVisit(c: Config, s: State, u: int, ua: UserAct)
    requires u in s.users && UserEnabled(c, s, u, ua) && !Early(ua)
    ensures SameVisit(s.users[u], UserNext(c, s, u, ua), ua)
  {
  }

  lemma VisitGoesOn(c: Config, s: State, u: int, ua: UserAct)
    requires u in s.users && UserEnabled(c, s, u, ua)
    ensures SameVisit(s.users[u], UserNext(c, s, u, ua), ua)
  {
    if Early(ua) {
      EarlyVisit(c, s, u, ua);
    } else {
      LateVisit(c, s, u, ua);
    }
  }

  lemma StepOfVisit(c: Config, s: State, a: Action, u: int)
    requires Enabled(c, s, a) && u in s.users
    ensures var s' := Apply(c, s, a);
            u in s'.users && SameVisit(s.users[u], s'.users[u], if a.UserStep? && a.u == u then a.ua else UBegin)
  {
    UsersStay(c, s, a, u);
    if a.UserStep? && a.u == u {
      VisitGoesOn(c, s, u, a.ua);
    }
  }

  lemma HoldGoesOn(c: Config, s: State, p: int, oa: OperatorAct)
    requires p in s.operators && OperatorEnabled(c, s, p, oa)
    ensures var y, y' := s.operators[p], OperatorNext(c, s, p, oa);
            && (oa != OScanService ==> y'.foundDay == y.foundDay && (y'.pc == TakeFound ==> y.pc == TakeFound))
            && (oa == OScanService && y'.pc == TakeFound ==> y'.foundDay == TableDay(s))
            && (!AtSeat(y) && AtSeat(y') ==>
                  || (oa == OFirstSearch && y'.matched)
                  || (oa == OTakeFound && y'.matched == (y.foundDay == s.hist.seatDay)))
            && (AtSeat(y) || !AtSeat(y') ==> y'.matched == y.matched)
  {
  }

  lemma ResettingGoesOn(c: Config, s: State, a: Action)
    requires Enabled(c, s, a) && Resetting(s) && !ResetStep(a)
    ensures Resetting(Apply(c, s, a))
  {
  }

  // ---------- over a stretch of a run ----------

  /** Until its next search the user goes on from this one. */
  lemma {:induction false} SearchSpan(c: Config, states: seq<State>, actions: seq<Action>, u: int, i: nat, k: nat)
    requires Execution(c, states, actions) && i <= k < |states| && u in states[i].users
    requires forall x | i <= x < k :: actions[x] != UserStep(u, UFindSeats)
    ensures u in states[k].users && states[k].users[u].trace.foundDay == states[i].users[u].trace.foundDay
    ensures Searching(states[k].users[u]) ==> Wanted(states[k].users[u]) == Wanted(states[i].users[u])
    decreases k
  {
    if i < k {
      SearchSpan(c, states, actions, u, i, k - 1);
      StepOfVisit(c, states[k - 1], actions[k - 1], u);
    }
  }

  /** Until it reads the next operator's name the user goes on with this one. */
  lemma {:induction false} RequestSpan(c: Config, states: seq<State>, actions: seq<Action>, u: int, i: nat, k: nat)
    requires Execution(c, states, actions) && i <= k < |states| && u in states[i].users
    requires forall x | i <= x < k :: actions[x] != UserStep(u, UReadOperator)
    ensures u in states[k].users && states[k].users[u].trace.agreed == states[i].users[u].trace.agreed
    ensures Committed(states[k].users[u]) ==> Wanted(states[k].users[u]) == Wanted(states[i].users[u])
    decreases k
  {
    if i < k {
      RequestSpan(c, states, actions, u, i, k - 1);
      StepOfVisit(c, states[k - 1], actions[k - 1], u);
    }
  }

  predicate SameFind(y: OperatorState, y': OperatorState) {
    y'.foundDay == y.foundDay && (y'.pc == TakeFound ==> y.pc == TakeFound)
  }

  lemma StepOfHold(c: Config, s: State, a: Action, p: int)
    requires Enabled(c, s, a) && p in s.operators
    ensures var s' := Apply(c, s, a);
            && p in s'.operators
            && (a != OperatorStep(p, OScanService) ==> SameFind(s.operators[p], s'.operators[p]))
            && (!SitsDown(s, s', p) ==> s'.operators[p].matched == s.operators[p].matched)
            && (SitsDown(s, s', p) ==>
                  || (a == OperatorStep(p, OFirstSearch) && s'.operators[p].matched)
                  || (a == OperatorStep(p, OTakeFound)
                      && s'.operators[p].matched == (s.operators[p].foundDay == s.hist.seatDay)))
  {
    OperatorsStay(c, s, a, p);
    if a.OperatorStep? && a.p == p {
      HoldGoesOn(c, s, p, a.oa);
    }
  }

  lemma {:induction false} ScanSpan(c: Config, states: seq<State>, actions: seq<Action>, p: int, i: nat, k: nat)
    requires Execution(c, states, actions) && i <= k < |states| && p in states[i].operators
    requires forall x | i <= x < k :: actions[x] != OperatorStep(p, OScanService)
    ensures p in states[k].operators && SameFind(states[i].operators[p], states[k].operators[p])
    decreases k
  {
    if i < k {
      ScanSpan(c, states, actions, p, i, k - 1);
      StepOfHold(c, states[k - 1], actions[k - 1], p);
    }
  }

  lemma {:induction false} SeatSpan(c: Config, states: seq<State>, actions: seq<Action>, p: int, i: nat, k: nat)
    requires Execution(c, states, actions) && i <= k < |states| && p in states[i].operators
    requires forall x | i <= x < k :: !SitsDown(states[x], states[x + 1], p)
    ensures p in states[k].operators && states[k].operators[p].matched == states[i].operators[p].matched
    decreases k
  {
    if i < k {
      SeatSpan(c, states, actions, p, i, k - 1);
      StepOfHold(c, states[k - 1], actions[k - 1], p);
    }
  }

  lemma {:induction false} DaySpan(c: Config, states: seq<State>, actions: seq<Action>, i: nat, k: nat)
    requires Execution(c, states, actions) && i <= k < |states|
    requires forall x | i <= x < k :: !ResetStep(actions[x])
    ensures states[k].hist.seatDay == states[i].hist.seatDay
    ensures Resetting(states[i]) ==> Resetting(states[k])
    decreases k
  {
    if i < k {
      DaySpan(c, states, actions, i, k - 1);
      NextSeatDay(c, states, actions, k - 1);
      if Resetting(states[k - 1]) {
        ResettingGoesOn(c, states[k - 1], actions[k - 1]);
      }
    }
  }

  /** Whoever can enter the seat section finds the reset finished. */
  lemma NotResetting(c: Config, s: State)
    requires LockInv(c, s) && s.seats.sem > 0
    ensures !Resetting(s) && TableDay(s) == s.hist.seatDay
  {
  }

  // ---------- the operator ----------

  lemma ScanSees(c: Config, s: State, p: int)
    requires Enabled(c, s, OperatorStep(p, OScanService))
    ensures var s' := Apply(c, s, OperatorStep(p, OScanService));
            && p in s'.operators && (s'.operators[p].pc == TakeFound ==> s'.operators[p].foundDay == TableDay(s))
            && s'.hist == s.hist && (Resetting(s') <==> Resetting(s))
  {
  }

  lemma TakingNeeds(c: Config, s: State, p: int)
    requires LockInv(c, s) && Enabled(c, s, OperatorStep(p, OTakeFound))
    ensures s.operators[p].pc == TakeFound && !Resetting(s)
  {
    NotResetting(c, s);
  }

  lemma FoundInTime(c: Config, states: seq<State>, actions: seq<Action>, p: int, h: nat, j: nat)
    requires Execution(c, states, actions) && h < j < |actions|
    requires actions[j] == OperatorStep(p, OTakeFound)
    requires LastBefore(actions, h, j, OperatorStep(p, OScanService)) && NoReset(actions, h, j)
    ensures p in states[j].operators && states[j].operators[p].foundDay == states[j].hist.seatDay
  {
    assert actions[h] == OperatorStep(p, OScanService);
    ScanSees(c, states[h], p);
    ScanSpan(c, states, actions, p, h + 1, j);
    DaySpan(c, states, actions, h + 1, j);
    InvAlways(c, states, actions, j);
    TakingNeeds(c, states[j], p);
  }

  /** An operator that took its seat in time is marked as matched. */
  lemma InTimeIsMatched(c: Config, states: seq<State>, actions: seq<Action>, p: int, k: nat)
    requires Execution(c, states, actions) && k < |actions| && TookInTime(states, actions, p, k)
    ensures p in states[k].operators && states[k].operators[p].matched
  {
    var j :| 0 <= j < k && LastSeating(states, p, j, k)
             && (actions[j] == OperatorStep(p, OTakeFound) ==>
                   exists h :: 0 <= h < j && LastBefore(actions, h, j, OperatorStep(p, OScanService))
                            && NoReset(actions, h, j));
    StepOfHold(c, states[j], actions[j], p);
    if actions[j] == OperatorStep(p, OTakeFound) {
      var h :| 0 <= h < j && LastBefore(actions, h, j, OperatorStep(p, OScanService)) && NoReset(actions, h, j);
      FoundInTime(c, states, actions, p, h, j);
    }
    SeatSpan(c, states, actions, p, j + 1, k);
  }

  // ---------- the user ----------

  /** The operator whose name the user reads in the step at k. */
  function NamedAt(s: State, u: int): int
    requires u in s.users
  {
    ProcessAt(s.seats.mem, s.users[u].visit.seat)
  }

  lemma SearchSees(c: Config, s: State, u: int)
    requires LockInv(c, s) && Enabled(c, s, UserStep(u, UFindSeats))
    ensures var s' := Apply(c, s, UserStep(u, UFindSeats));
            && u in s.users && u in s'.users && s'.users[u].trace.foundDay == s.hist.seatDay
            && Wanted(s'.users[u]) == Wanted(s.users[u]) && s'.hist == s.hist
  {
  }

  lemma ReadingSees(c: Config, s: State, u: int)
    requires Enabled(c, s, UserStep(u, UReadOperator))
    ensures var s' := Apply(c, s, UserStep(u, UReadOperator)); var p := NamedAt(s, u);
            && u in s'.users && Searching(s.users[u]) && Wanted(s'.users[u]) == Wanted(s.users[u])
            && s'.users[u].trace.agreed
               == (s.users[u].trace.foundDay == s.hist.seatDay && (p !in s.operators || s.operators[p].matched))
  {
  }

  /** The user's search was not overtaken by a reset before it read the operator's name. */
  lemma SearchedInTime(c: Config, states: seq<State>, actions: seq<Action>, u: int, i: nat, k: nat)
    requires Execution(c, states, actions) && i < k < |actions|
    requires LastBefore(actions, i, k, UserStep(u, UFindSeats)) && NoReset(actions, i, k)
    requires actions[k] == UserStep(u, UReadOperator)
    ensures u in states[i].users && u in states[k].users
    ensures states[k].users[u].trace.foundDay == states[k].hist.seatDay
    ensures Wanted(states[k].users[u]) == Wanted(states[i].users[u])
  {
    assert actions[i] == UserStep(u, UFindSeats);
    InvAlways(c, states, actions, i);
    SearchSees(c, states[i], u);
    SearchSpan(c, states, actions, u, i + 1, k);
    DaySpan(c, states, actions, i + 1, k);
    ReadingSees(c, states[k], u);
  }

  /**
   Service agreement. The user searches at i, reads its operator's name at k and
   receives its answer at n. No reset of the seats comes between i and k, and the
   operator named, if there is one, took its seat in time. Then the answer is for
   the service that the user wanted, whatever happens between k and n.
   */
  lemma WantedIsDelivered(c: Config, states: seq<State>, actions: seq<Action>, u: int, i: nat, k: nat, n: nat, m: Msg)
    requires Execution(c, states, actions) && i < k < n < |actions|
    requires LastBefore(actions, i, k, UserStep(u, UFindSeats)) && NoReset(actions, i, k)
    requires LastBefore(actions, k, n, UserStep(u, UReadOperator))
    requires actions[n] == UserStep(u, UGetDone(m))
    requires u in states[k].users
    requires NamedAt(states[k], u) in states[k].operators ==> TookInTime(states, actions, NamedAt(states[k], u), k)
    ensures u in states[i].users && m.body.ServiceDone? && m.body.service == Wanted(states[i].users[u])
  {
    var p := NamedAt(states[k], u);
    SearchedInTime(c, states, actions, u, i, k);
    if p in states[k].operators {
      InTimeIsMatched(c, states, actions, p, k);
    }
    assert actions[k] == UserStep(u, UReadOperator);
    ReadingSees(c, states[k], u);
    RequestSpan(c, states, actions, u, k + 1, n);
    AnswerAgrees(c, states, actions, u, n, m);
  }

  lemma AnswerAgrees(c: Config, states: seq<State>, actions: seq<Action>, u: int, n: nat, m: Msg)
    requires Execution(c, states, actions) && n < |actions| && actions[n] == UserStep(u, UGetDone(m))
    requires u in states[n].users && states[n].users[u].trace.agreed
    ensures Committed(states[n].users[u])
    ensures m.body.ServiceDone? && m.body.service == Wanted(states[n].users[u])
  {
    assert Reachable(c, states[n]);
    ServiceAgreed(c, states[n], u, m);
  }
}
