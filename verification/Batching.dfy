/** The director's batches over whole runs: when they are posted, of what size, and what becomes of them. */
module Batching {
  import opened Settings
  import opened SharedRecord
  import opened Statistics
  import opened Seats
  import opened Protocol
  import opened Locks
  import opened Moves
  import opened Director
  import opened Tokens
  import opened Timing
  import opened Rounds
  import opened Doors
  import opened Runs

  /** After t ticks the director has posted what the loop run as a program has, for the users of this run. */
  ghost predicate PostedFor(c: Config, s: State, t: nat) {
    var o := OfficeIn(c, s);
    && Growing(s.hist.doors.people) && |s.hist.doors.people| == t + 1 && s.hist.doors.people[t] == |s.users|
    && s.hist.doors.opening == Posted(o, Opening, t)
    && s.hist.doors.closing == Posted(o, Closing, t)
    && SumOf(s.hist.crowds) == Posted(o, Morning, t)
  }

  /** So it is whenever the director is at the head of its loop. */
  lemma PostedByTicks(c: Config, s: State)
    requires Reachable(c, s) && s.director.pc == LoopHead
    ensures PostedFor(c, s, s.director.ticks)
  {
    ReachableInv(c, s);
  }

  lemma PostedAt(c: Config, states: seq<State>, actions: seq<Action>, i: nat)
    requires Execution(c, states, actions) && i < |states|
    ensures states[i].director.pc == LoopHead ==> PostedFor(c, states[i], states[i].director.ticks)
  {
    InvAlways(c, states, actions, i);
  }

  /** Every opening and closing token posted is unclaimed, or has let somebody in or out. */
  lemma DoorTokensConserved(c: Config, s: State)
    requires Reachable(c, s)
    ensures s.events.open + s.hist.doors.entered == s.hist.doors.opening
    ensures s.events.close + s.hist.doors.shut == s.hist.doors.closing
  {
    ReachableInv(c, s);
  }

  lemma PeopleGrow(c: Config, s: State, a: Action)
    requires LockInv(c, s) && Enabled(c, s, a)
    ensures var s' := Apply(c, s, a);
            s.hist.doors.people <= s'.hist.doors.people && |s'.operators| == |s.operators|
  {
    var s' := Apply(c, s, a);
    StepsAreAtomic(c, s, a);
    MovePeople(c, s, s', a);
    assert s'.operators.Keys == s.operators.Keys;
    assert |s'.operators| == |s'.operators.Keys| && |s.operators| == |s.operators.Keys|;
  }

  lemma MovePeople(c: Config, s: State, s': State, a: Action)
    requires Moved(c, s, s', a)
    ensures s.hist.doors.people <= s'.hist.doors.people && s'.operators.Keys == s.operators.Keys
  {
    match a
    case UserStep(u, ua) => UserUsesDoors(c, s, u, ua);
    case OperatorStep(p, oa) => OperatorUsesDoors(c, s, p, oa);
    case DirectorStep(xa) => DirectorAddsPeople(s, xa);
    case _ =>
  }

  lemma DirectorAddsPeople(s: State, xa: DirectorAct)
    ensures s.hist.doors.people <= DirectorEffect(s, xa).hist.doors.people
  {
  }

  lemma NextPeople(c: Config, states: seq<State>, actions: seq<Action>, k: nat)
    requires Execution(c, states, actions) && k < |actions|
    ensures states[k].hist.doors.people <= states[k + 1].hist.doors.people
    ensures |states[k + 1].operators| == |states[k].operators|
  {
    InvAlways(c, states, actions, k);
    PeopleGrow(c, states[k], actions[k]);
  }

  lemma Longer(a: seq<nat>, b: seq<nat>, c: seq<nat>)
    requires a <= b && b <= c
    ensures a <= c
  {
    assert forall k | 0 <= k < |a| :: a[k] == b[k] == c[k];
  }

  lemma {:induction false} PrefixesAddUp(states: seq<State>, i: nat, j: nat)
    requires i <= j < |states|
    requires forall k | i <= k < j ::
               && states[k].hist.doors.people <= states[k + 1].hist.doors.people
               && |states[k + 1].operators| == |states[k].operators|
    ensures states[i].hist.doors.people <= states[j].hist.doors.people
    ensures |states[i].operators| == |states[j].operators|
    decreases j
  {
    if i < j {
      PrefixesAddUp(states, i, j - 1);
      assert states[j - 1].hist.doors.people <= states[j - 1 + 1].hist.doors.people;
      Longer(states[i].hist.doors.people, states[j - 1].hist.doors.people, states[j].hist.doors.people);
    }
  }

  lemma PeoplePrefix(c: Config, states: seq<State>, actions: seq<Action>, i: nat, j: nat)
    requires Execution(c, states, actions) && i <= j < |states|
    ensures states[i].hist.doors.people <= states[j].hist.doors.people
    ensures |states[i].operators| == |states[j].operators|
  {
    forall k | i <= k < j
      ensures states[k].hist.doors.people <= states[k + 1].hist.doors.people
      ensures |states[k + 1].operators| == |states[k].operators|
    {
      NextPeople(c, states, actions, k);
    }
    PrefixesAddUp(states, i, j);
  }

  /** Between the heads of the loop after two consecutive day boundaries. */
  ghost predicate DayPosted(c: Config, s: State, s': State, d: nat) {
    var people, n := s'.hist.doors.people, |s'.operators|;
    && |people| == (d + 1) * MINUTES_A_DAY + 2
    && s'.hist.doors.opening - s.hist.doors.opening
       == (if 1 <= c.shiftOpen <= 24 then n + people[d * MINUTES_A_DAY + c.shiftOpen * 60] else 0)
    && s'.hist.doors.closing - s.hist.doors.closing == (if 1 <= c.shiftClose <= 24 then n else 0)
    && SumOf(s'.hist.crowds) - SumOf(s.hist.crowds) == n + people[(d + 1) * MINUTES_A_DAY]
  }

  predicate AtTick(s: State, t: nat) {
    s.director.pc == LoopHead && s.director.ticks == t
  }

  lemma PostsBetween(c: Config, s: State, s': State, d: nat)
    requires PostedFor(c, s, d * MINUTES_A_DAY + 1) && PostedFor(c, s', (d + 1) * MINUTES_A_DAY + 1)
    requires s.hist.doors.people <= s'.hist.doors.people && |s.operators| == |s'.operators|
    ensures DayPosted(c, s, s', d)
  {
    DayOfPosts(c, |s.operators|, s.hist.doors.people, s'.hist.doors.people, d);
  }

  /**
   In every run: between the heads of the loop after two consecutive day boundaries,
   exactly one opening batch goes to everybody present at its tick and one closing
   batch to the operators, if the hours are 1 to 24, and one batch of the next day to
   everybody.
   */
  lemma PostsOfOneDay(c: Config, states: seq<State>, actions: seq<Action>, i: nat, j: nat, d: nat)
    requires Execution(c, states, actions) && i <= j < |states|
    requires AtTick(states[i], d * MINUTES_A_DAY + 1) && AtTick(states[j], (d + 1) * MINUTES_A_DAY + 1)
    ensures DayPosted(c, states[i], states[j], d)
  {
    PeoplePrefix(c, states, actions, i, j);
    PostedAt(c, states, actions, i);
    PostedAt(c, states, actions, j);
    PostsBetween(c, states[i], states[j], d);
  }

  lemma DayOfPosts(c: Config, n: nat, a: seq<nat>, b: seq<nat>, d: nat)
    requires Growing(a) && Growing(b) && a <= b
    requires |a| == d * MINUTES_A_DAY + 2 && |b| == (d + 1) * MINUTES_A_DAY + 2
    ensures var o, o', t, t' := OfficeOf(c, n, a), OfficeOf(c, n, b), |a| - 1, |b| - 1;
            && Posted(o', Opening, t') - Posted(o, Opening, t)
               == (if 1 <= c.shiftOpen <= 24 then n + b[d * MINUTES_A_DAY + c.shiftOpen * 60] else 0)
            && Posted(o', Closing, t') - Posted(o, Closing, t) == (if 1 <= c.shiftClose <= 24 then n else 0)
            && Posted(o', Morning, t') - Posted(o, Morning, t) == n + b[(d + 1) * MINUTES_A_DAY]
  {
    var o' := OfficeOf(c, n, b);
    PostedEarlier(c, n, a, b, Opening, |a| - 1);
    PostedEarlier(c, n, a, b, Closing, |a| - 1);
    PostedEarlier(c, n, a, b, Morning, |a| - 1);
    TokensOfOneDay(o', Opening, d);
    TokensOfOneDay(o', Closing, d);
    TokensOfOneDay(o', Morning, d);
    if 1 <= c.shiftOpen <= 24 {
      UsersOf(c, n, b, d * MINUTES_A_DAY + c.shiftOpen * 60);
    }
    UsersOf(c, n, b, (d + 1) * MINUTES_A_DAY);
  }

  /**
   While the closing batch of a day is being posted, the opening batch of the day is
   complete if its hour is no later, the same tick included, and has not begun if its
   hour is later.
   */
  lemma OpeningPrecedesClosing(c: Config, s: State, d: nat)
    requires Reachable(c, s) && s.director.pc.PostClose? && 1 <= c.shiftOpen <= 24
    requires d * MINUTES_A_DAY + 1 < s.director.ticks + 1 <= (d + 1) * MINUTES_A_DAY + 1
    ensures var o, t := OfficeIn(c, s), d * MINUTES_A_DAY + 1;
            s.hist.doors.opening - Posted(o, Opening, t)
            == if c.shiftOpen <= c.shiftClose then |s.operators| + Users(o, t - 1 + c.shiftOpen * 60) else 0
  {
    ReachableInv(c, s);
    OpeningsAtClosing(c, s, d);
  }

  lemma OpeningsAtClosing(c: Config, s: State, d: nat)
    requires DoorInv(c, s) && DirectorFits(c, s.director) && s.director.pc.PostClose? && 1 <= c.shiftOpen <= 24
    requires d * MINUTES_A_DAY + 1 < s.director.ticks + 1 <= (d + 1) * MINUTES_A_DAY + 1
    ensures var o, t := OfficeIn(c, s), d * MINUTES_A_DAY + 1;
            s.hist.doors.opening - Posted(o, Opening, t)
            == if c.shiftOpen <= c.shiftClose then |s.operators| + Users(o, t - 1 + c.shiftOpen * 60) else 0
  {
    ClosingTick(c, s.director, d);
    OpeningsSoFar(OfficeIn(c, s), d, s.director.ticks + 1);
  }

  /** The tick in which a closing batch is posted is the tick of its hour. */
  lemma ClosingTick(c: Config, k: DirectorState, d: nat)
    requires DirectorFits(c, k) && k.pc.PostClose?
    requires d * MINUTES_A_DAY + 1 < k.ticks + 1 <= (d + 1) * MINUTES_A_DAY + 1
    ensures 1 <= c.shiftClose <= 24 && k.ticks + 1 == d * MINUTES_A_DAY + c.shiftClose * 60 + 1
  {
    TestsDue(c, k);
    OneBatchADay(c.shiftClose, d, k.ticks + 1);
  }

  lemma OpeningsSoFar(o: Office, d: nat, t: nat)
    requires d * MINUTES_A_DAY + 1 < t <= (d + 1) * MINUTES_A_DAY + 1 && 1 <= o.c.shiftOpen <= 24
    ensures var a := d * MINUTES_A_DAY + 1; var b := a + o.c.shiftOpen * 60;
            Posted(o, Opening, t) - Posted(o, Opening, a)
            == if b <= t then o.operators + Users(o, b - 1) else 0
  {
    var a := d * MINUTES_A_DAY + 1;
    var b := a + o.c.shiftOpen * 60;
    forall x | a < x <= t ensures Due(o.c, Opening, x) <==> x == b {
      DueOnceADay(o.c, Opening, d, x);
    }
    if b <= t {
      OneBatch(o, Opening, a, b, t);
    } else {
      NothingPosted(o, Opening, a, t);
    }
  }
}
