/**
 The two searches that operators make without the lock, over whole runs: one that ends
 in vain has read every seat since it began, and found each unfit when it read it.
 */
module Searches {
  import opened Settings
  import opened SharedRecord
  import opened Statistics
  import opened Seats
  import opened Protocol
  import opened Locks
  import opened Moves
  import opened Stations
  import opened Runs
  import opened Delivery

  /** A search begins when the operator enters, and again whenever a signal wakes it up. */
  predicate BeginsSearch(oa: OperatorAct) {
    oa == OEnterOffice || oa == OWakeUp
  }

  /** How many seats the search has passed by. */
  function Position(pc: OperatorPc): nat {
    match pc
    case LookForWork(i) => i
    case ScanStatus(i) => i
    case ScanService(i) => i
    case _ => 0
  }

  /**
   The seat is of no use to the operator as it looks at it now: it offers another
   service, or the operator waits for a station and this one is taken.
   */
  predicate PassesBy(s: State, p: int, j: int) {
    && p in s.operators && 0 <= j < |s.seats.mem|
    && var seat, y := s.seats.mem[j], s.operators[p];
       seat.service != y.service || (!y.pc.LookForWork? && seat.operator != FREE)
  }

  /** Operator p passed seat j by after step g and before step n. */
  predicate SeenPast(states: seq<State>, p: int, j: int, g: nat, n: nat)
    requires n < |states|
  {
    exists k | g < k < n :: PassesBy(states[k], p, j)
  }

  predicate SearchAt(states: seq<State>, p: int, g: nat, n: nat)
    requires n < |states|
  {
    && p in states[n].operators
    && forall j | 0 <= j < Position(states[n].operators[p].pc) :: SeenPast(states, p, j, g, n)
  }

  // ---------- one step ----------

  /** The search goes on by a seat that is of no use, starts afresh, or stays. */
  predicate Advances(s: State, s': State, p: int) {
    && p in s.operators && p in s'.operators
    && var i, i' := Position(s.operators[p].pc), Position(s'.operators[p].pc);
       i' <= i || (i' == i + 1 && PassesBy(s, p, i))
  }

  /** The search without the lock is not beyond the last seat when it reads the second field. */
  ghost predicate InTable(c: Config, s: State, p: int) {
    && p in s.operators && |s.seats.mem| == c.numSeats
    && (s.operators[p].pc.ScanService? ==> s.operators[p].pc.i < c.numSeats)
  }

  lemma OperatorAdvances(c: Config, s: State, p: int, oa: OperatorAct)
    requires p in s.operators && OperatorEnabled(c, s, p, oa) && InTable(c, s, p)
    ensures var y, y' := s.operators[p], OperatorNext(c, s, p, oa);
            && (Position(y'.pc) <= Position(y.pc)
                || (Position(y'.pc) == Position(y.pc) + 1 && PassesBy(s, p, Position(y.pc))))
            && (y'.pc.ScanService? ==> y'.pc.i < c.numSeats)
  {
  }

  lemma SearchMoves(c: Config, s: State, s': State, a: Action, p: int)
    requires Moved(c, s, s', a) && InTable(c, s, p) && |s'.seats.mem| == c.numSeats
    ensures Advances(s, s', p) && InTable(c, s', p)
  {
    if a.OperatorStep? && a.p == p {
      OperatorAdvances(c, s, p, a.oa);
    }
  }

  lemma SearchOn(states: seq<State>, p: int, g: nat, n: nat)
    requires g + 1 < n < |states| && SearchAt(states, p, g, n - 1) && Advances(states[n - 1], states[n], p)
    ensures SearchAt(states, p, g, n)
  {
    forall j | 0 <= j < Position(states[n].operators[p].pc) ensures SeenPast(states, p, j, g, n) {
      if j < Position(states[n - 1].operators[p].pc) {
        assert SeenPast(states, p, j, g, n - 1);
        var k :| g < k < n - 1 && PassesBy(states[k], p, j);
        assert g < k < n && PassesBy(states[k], p, j);
      } else {
        assert PassesBy(states[n - 1], p, j);
      }
    }
  }

  lemma SearchBegins(c: Config, s: State, p: int, oa: OperatorAct)
    requires Enabled(c, s, OperatorStep(p, oa)) && BeginsSearch(oa)
    ensures var s' := Apply(c, s, OperatorStep(p, oa));
            p in s'.operators && Position(s'.operators[p].pc) == 0 && !s'.operators[p].pc.ScanService?
  {
  }

  // ---------- over a run ----------

  /** What a step of a run is to the search. */
  lemma StepOfSearch(c: Config, states: seq<State>, actions: seq<Action>, k: nat)
    requires Execution(c, states, actions) && k < |actions|
    ensures |states[k].seats.mem| == |states[k + 1].seats.mem| == c.numSeats
    ensures Moved(c, states[k], states[k + 1], actions[k])
  {
    InvAlways(c, states, actions, k);
    InvAlways(c, states, actions, k + 1);
    StepsAreAtomic(c, states[k], actions[k]);
  }

  lemma NextSearch(c: Config, states: seq<State>, a: Action, p: int, g: nat, n: nat)
    requires g + 1 < n < |states| && Moved(c, states[n - 1], states[n], a) && |states[n].seats.mem| == c.numSeats
    requires SearchAt(states, p, g, n - 1) && InTable(c, states[n - 1], p)
    ensures SearchAt(states, p, g, n) && InTable(c, states[n], p)
  {
    SearchMoves(c, states[n - 1], states[n], a, p);
    SearchOn(states, p, g, n);
  }

  lemma FirstOfSearch(c: Config, states: seq<State>, actions: seq<Action>, p: int, oa: OperatorAct, g: nat)
    requires Execution(c, states, actions) && g < |actions|
    requires BeginsSearch(oa) && actions[g] == OperatorStep(p, oa)
    ensures SearchAt(states, p, g, g + 1) && InTable(c, states[g + 1], p)
  {
    StepOfSearch(c, states, actions, g);
    SearchBegins(c, states[g], p, oa);
  }

  lemma SearchGoesOn(c: Config, states: seq<State>, actions: seq<Action>, p: int, g: nat, n: nat)
    requires Execution(c, states, actions) && g + 1 < n <= |actions|
    requires SearchAt(states, p, g, n - 1) && InTable(c, states[n - 1], p)
    ensures SearchAt(states, p, g, n) && InTable(c, states[n], p)
  {
    StepOfSearch(c, states, actions, n - 1);
    NextSearch(c, states, actions[n - 1], p, g, n);
  }

  lemma {:induction false} SearchSpan(c: Config, states: seq<State>, actions: seq<Action>,
                                      p: int, oa: OperatorAct, g: nat, n: nat)
    requires Execution(c, states, actions) && g < n <= |actions|
    requires BeginsSearch(oa) && actions[g] == OperatorStep(p, oa)
    ensures SearchAt(states, p, g, n) && InTable(c, states[n], p)
    decreases n
  {
    if n == g + 1 {
      FirstOfSearch(c, states, actions, p, oa, g);
    } else {
      SearchSpan(c, states, actions, p, oa, g, n - 1);
      SearchGoesOn(c, states, actions, p, g, n);
    }
  }

  /** All seats were of no use, each when it was read. */
  predicate NoneFit(c: Config, states: seq<State>, p: int, g: nat, n: nat)
    requires n < |states|
  {
    forall j | 0 <= j < c.numSeats :: SeenPast(states, p, j, g, n)
  }

  predicate OffersAny(s: State, p: int) {
    p in s.operators && exists j | 0 <= j < |s.seats.mem| :: s.seats.mem[j].service == s.operators[p].service
  }

  lemma Looking(c: Config, s: State, p: int)
    requires InTable(c, s, p) && Enabled(c, s, OperatorStep(p, OLookForWork))
    ensures var pc' := Apply(c, s, OperatorStep(p, OLookForWork)).operators[p].pc;
            && (pc'.LookForWork? || pc' == OffDuty || pc' == FirstSearch)
            && (pc' == OffDuty ==> Position(s.operators[p].pc) >= c.numSeats)
            && (pc' == FirstSearch ==> OffersAny(s, p))
  {
  }

  /**
   An operator that enters goes home without searching only if each seat, when the
   operator read it, offered another service; it searches only if some seat offers its
   own as it decides to.
   */
  lemma GoesHomeUnlessOffered(c: Config, states: seq<State>, actions: seq<Action>, p: int, g: nat, n: nat)
    requires Execution(c, states, actions) && g < n < |actions|
    requires LastBefore(actions, g, n, OperatorStep(p, OEnterOffice)) && actions[n] == OperatorStep(p, OLookForWork)
    ensures p in states[n + 1].operators
    ensures var pc := states[n + 1].operators[p].pc;
            && (pc.LookForWork? || pc == OffDuty || pc == FirstSearch)
            && (pc == OffDuty ==> NoneFit(c, states, p, g, n))
            && (pc == FirstSearch ==> OffersAny(states[n], p))
  {
    SearchSpan(c, states, actions, p, OEnterOffice, g, n);
    Looking(c, states[n], p);
  }

  lemma Scanning(c: Config, s: State, p: int, oa: OperatorAct)
    requires InTable(c, s, p) && Enabled(c, s, OperatorStep(p, oa)) && (oa == OScanStatus || oa == OScanService)
    ensures var y' := Apply(c, s, OperatorStep(p, oa)).operators[p];
            && (y'.pc == WaitStation ==> Position(s.operators[p].pc) >= c.numSeats)
            && (y'.pc == TakeFound ==>
                  && y'.seat == Position(s.operators[p].pc) < |s.seats.mem|
                  && s.seats.mem[y'.seat].service == y'.service)
            && (y'.pc == WaitStation || y'.pc == TakeFound || y'.pc.ScanStatus? || y'.pc.ScanService?)
  {
  }

  /**
   An operator woken by a signal waits again only if each seat, when it read it, was
   taken or offered another service; it settles on a seat that offers its service as it
   reads it, having passed by all the lower ones.
   */
  lemma WaitsOnUnlessFound(c: Config, states: seq<State>, actions: seq<Action>, p: int, oa: OperatorAct, g: nat, n: nat)
    requires Execution(c, states, actions) && g < n < |actions|
    requires LastBefore(actions, g, n, OperatorStep(p, OWakeUp)) && actions[n] == OperatorStep(p, oa)
    requires oa == OScanStatus || oa == OScanService
    ensures p in states[n + 1].operators
    ensures var y := states[n + 1].operators[p];
            && (y.pc == WaitStation || y.pc == TakeFound || y.pc.ScanStatus? || y.pc.ScanService?)
            && (y.pc == WaitStation ==> NoneFit(c, states, p, g, n))
            && (y.pc == TakeFound ==>
                  && 0 <= y.seat < |states[n].seats.mem| && states[n].seats.mem[y.seat].service == y.service
                  && forall j | 0 <= j < y.seat :: SeenPast(states, p, j, g, n))
  {
    SearchSpan(c, states, actions, p, OWakeUp, g, n);
    Scanning(c, states[n], p, oa);
  }
}
