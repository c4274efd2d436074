/** The director's main loop, run as a program. */
module Rounds {
  import opened Settings
  import opened Timing

  /**
   What the loop is given: the configuration, the processes started, and what other
   processes decide, namely the value of today.late_users that it reads at a tick and
   the users added at the end of a tick.
   */
  datatype Office = Office(c: Config, operators: nat, users: nat, late: nat -> int, arrivals: nat -> nat)

  /** The three semaphores the director posts in batches. */
  datatype Signal = Opening | Closing | Morning

  /** The users there are after t ticks. */
  function Users(o: Office, t: nat): nat {
    if t == 0 then o.users else Users(o, t - 1) + o.arrivals(t)
  }

  function Hour(c: Config, g: Signal): nat
    requires g != Morning
  {
    if g == Opening then c.shiftOpen else c.shiftClose
  }

  predicate Due(c: Config, g: Signal, t: nat)
    requires t >= 1
  {
    match g
    case Opening => PostsAt(c.shiftOpen, t)
    case Closing => PostsAt(c.shiftClose, t)
    case Morning => NewDayAt(t)
  }

  function BatchSize(o: Office, g: Signal, t: nat): nat
    requires t >= 1
  {
    if g == Closing then o.operators else o.operators + Users(o, t - 1)
  }

  /** The tokens a semaphore has been given after t ticks. */
  function Posted(o: Office, g: Signal, t: nat): nat {
    if t == 0 then 0 else Posted(o, g, t - 1) + if Due(o.c, g, t) then BatchSize(o, g, t) else 0
  }

  /** At the tick of the d-th day boundary there are more late users than the limit. */
  predicate TooLate(o: Office, d: nat) {
    o.late(d * MINUTES_A_DAY + 1) > o.c.explodeMax
  }

  /** sem_post once for each of n processes. */
  method PostAll(semaphore: nat, n: nat) returns (after: nat)
    ensures after == semaphore + n
  {
    after := semaphore;
    for i := 0 to n
      invariant after == semaphore + i
    {
      after := after + 1;
    }
  }

  /** The check of one hour at the tick after `ticks`. */
  method PostAtHour(o: Office, g: Signal, minutes: nat, ghost ticks: nat, people: nat, semaphore: nat)
    returns (after: nat)
    requires g != Morning && minutes == MinuteOf(ticks) && people == BatchSize(o, g, ticks + 1)
    requires semaphore == Posted(o, g, ticks)
    ensures after == Posted(o, g, ticks + 1)
  {
    after := semaphore;
    if minutes == Hour(o.c, g) * 60 && minutes != 0 {
      after := PostAll(semaphore, people);
    }
  }

  /** The three semaphores, the director's counters, the number of users, and how the loop ended. */
  datatype LoopResult = LoopResult(
    open: nat, close: nat, day: nat, days: nat, minutes: nat, users: nat, ticks: nat, exploded: bool)

  /**
   How the minute loop ends: after (simDuration - 1) * 1440 + 1 ticks, or in the course
   of the first tick that is a day boundary at which late users exceed the limit. ticks
   counts the completed iterations.
   */
  ghost predicate EndsWith(o: Office, r: LoopResult) {
    && (var last := if r.exploded then r.ticks + 1 else r.ticks;
        && r.open == Posted(o, Opening, last) && r.close == Posted(o, Closing, last)
        && r.day == Posted(o, Morning, r.ticks) && r.users == Users(o, r.ticks))
    && (forall d | 0 <= d < if r.exploded then r.days - 1 else r.days :: !TooLate(o, d))
    && (if r.exploded
        then r.days >= 1 && TooLate(o, r.days - 1) && r.ticks == (r.days - 1) * MINUTES_A_DAY
             && r.days <= o.c.simDuration
        else r.ticks == (o.c.simDuration - 1) * MINUTES_A_DAY + 1 && r.days == o.c.simDuration)
    && r.minutes == MinuteOf(r.ticks)
  }

  /** There is one way for the loop to end. */
  lemma OneEnd(o: Office, r: LoopResult, q: LoopResult)
    requires Loaded(o.c) && EndsWith(o, r) && EndsWith(o, q)
    ensures r == q
  {
    assert r.exploded ==> TooLate(o, r.days - 1);
    assert q.exploded ==> TooLate(o, q.days - 1);
  }

  /** The minute loop of main. It always ends. */
  method DirectorLoop(o: Office) returns (r: LoopResult)
    requires Loaded(o.c)
    ensures EndsWith(o, r)
  {
    var c := o.c;
    r := LoopResult(0, 0, 0, 0, 0, o.users, 0, false);
    while r.days < c.simDuration
      invariant !r.exploded && r.minutes == MinuteOf(r.ticks) && r.days <= c.simDuration
      invariant if r.ticks == 0 then r.days == 0 else r.days == DayOf(r.ticks) + 1
      invariant r.days == c.simDuration ==> r.ticks == (c.simDuration - 1) * MINUTES_A_DAY + 1 && r.minutes == 1
      invariant r.open == Posted(o, Opening, r.ticks) && r.close == Posted(o, Closing, r.ticks)
      invariant r.day == Posted(o, Morning, r.ticks) && r.users == Users(o, r.ticks)
      invariant forall d | 0 <= d < r.days :: !TooLate(o, d)
      decreases c.simDuration * MINUTES_A_DAY - r.ticks
    {
      NextTick(c, r.ticks, r.days);
      var open := PostAtHour(o, Opening, r.minutes, r.ticks, o.operators + r.users, r.open);
      var close := PostAtHour(o, Closing, r.minutes, r.ticks, o.operators, r.close);
      r := r.(open := open, close := close);
      if r.minutes % MINUTES_A_DAY == 0 {
        r := r.(days := r.days + 1);
        if o.late(r.ticks + 1) > c.explodeMax {
          return r.(exploded := true);
        }
        var day := PostAll(r.day, r.users + o.operators);
        r := r.(day := day, minutes := 0);
      }
      r := r.(users := r.users + o.arrivals(r.ticks + 1), minutes := r.minutes + 1, ticks := r.ticks + 1);
    }
  }

  /** What the next iteration finds in its two counters, and what it leaves there. */
  lemma NextTick(c: Config, ticks: nat, days: nat)
    requires days < c.simDuration
    requires if ticks == 0 then days == 0 else days == DayOf(ticks) + 1
    ensures var t := ticks + 1; var minutes := MinuteOf(ticks);
            if NewDayAt(t) then ticks == days * MINUTES_A_DAY && MinuteOf(t) == 1 && DayOf(t) + 1 == days + 1
            else days >= 1 && MinuteOf(t) == minutes + 1 && DayOf(t) + 1 == days
    ensures ticks < c.simDuration * MINUTES_A_DAY
  {
    var t := ticks + 1;
    if ticks >= 1 {
      ClockSplits(ticks);
      assert days * MINUTES_A_DAY <= c.simDuration * MINUTES_A_DAY;
      if NewDayAt(t) {
        ClockIs(t, days, 1);
      } else {
        ClockIs(t, days - 1, MinuteOf(ticks) + 1);
      }
    }
  }

  lemma {:induction false} NothingPosted(o: Office, g: Signal, a: nat, b: nat)
    requires a <= b && forall t | a < t <= b :: !Due(o.c, g, t)
    ensures Posted(o, g, b) == Posted(o, g, a)
    decreases b - a
  {
    if a < b {
      NothingPosted(o, g, a, b - 1);
    }
  }

  lemma OneBatch(o: Office, g: Signal, a: nat, t: nat, b: nat)
    requires a < t <= b && forall x | a < x <= b :: Due(o.c, g, x) <==> x == t
    ensures Posted(o, g, b) == Posted(o, g, a) + BatchSize(o, g, t)
  {
    NothingPosted(o, g, a, t - 1);
    NothingPosted(o, g, t, b);
  }

  /** The ticks after boundary d, up to and including the next one, and the one of them at which g is due. */
  lemma DueOnceADay(c: Config, g: Signal, d: nat, t: nat)
    requires d * MINUTES_A_DAY + 1 < t <= (d + 1) * MINUTES_A_DAY + 1
    ensures g == Morning ==> (Due(c, g, t) <==> t == (d + 1) * MINUTES_A_DAY + 1)
    ensures g != Morning ==> (Due(c, g, t) <==> 1 <= Hour(c, g) <= 24 && t == d * MINUTES_A_DAY + Hour(c, g) * 60 + 1)
  {
    if g == Morning {
      ClockIs(t - 1, d, t - 1 - d * MINUTES_A_DAY);
    } else {
      OneBatchADay(Hour(c, g), d, t);
    }
  }

  /**
   Between two consecutive day boundaries the director posts one closing batch of a
   token for each operator, one opening batch of a token for everybody, provided the
   hour is 1 to 24, and the next day's batch for everybody.
   */
  lemma TokensOfOneDay(o: Office, g: Signal, d: nat)
    ensures var a := d * MINUTES_A_DAY + 1; var b := (d + 1) * MINUTES_A_DAY + 1;
            Posted(o, g, b) - Posted(o, g, a)
            == match g
               case Morning => o.operators + Users(o, b - 1)
               case Opening =>
                 if 1 <= o.c.shiftOpen <= 24 then o.operators + Users(o, a - 1 + o.c.shiftOpen * 60) else 0
               case Closing => if 1 <= o.c.shiftClose <= 24 then o.operators else 0
  {
    var a := d * MINUTES_A_DAY + 1;
    var b := (d + 1) * MINUTES_A_DAY + 1;
    forall t | a < t <= b
      ensures g == Morning ==> (Due(o.c, g, t) <==> t == b)
      ensures g != Morning ==> (Due(o.c, g, t) <==> 1 <= Hour(o.c, g) <= 24 && t == a + Hour(o.c, g) * 60)
    {
      DueOnceADay(o.c, g, d, t);
    }
    if g == Morning {
      OneBatch(o, g, a, b, b);
    } else if 1 <= Hour(o.c, g) <= 24 {
      OneBatch(o, g, a, a + Hour(o.c, g) * 60, b);
    } else {
      NothingPosted(o, g, a, b);
    }
  }
}
