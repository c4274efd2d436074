/** The simulated clock: what the minute shown and the day counted say about the number of ticks. */
module Timing {
  import opened Settings

  /** The minute shown after t ticks: 1 to 1440, and 0 only before the first tick. */
  function MinuteOf(t: nat): nat {
    if t == 0 then 0 else (t - 1) % MINUTES_A_DAY + 1
  }

  /** The number of complete days before tick t. */
  function DayOf(t: nat): nat {
    if t == 0 then 0 else (t - 1) / MINUTES_A_DAY
  }

  lemma ClockSplits(t: nat)
    requires t >= 1
    ensures t == DayOf(t) * MINUTES_A_DAY + MinuteOf(t) && 1 <= MinuteOf(t) <= MINUTES_A_DAY
  {
  }

  /** The split of a tick into day and minute is unique. */
  lemma ClockIs(t: nat, days: nat, minute: nat)
    requires t == days * MINUTES_A_DAY + minute && 1 <= minute <= MINUTES_A_DAY
    ensures MinuteOf(t) == minute && DayOf(t) == days
  {
    var r := minute - 1;
    assert t - 1 == days * MINUTES_A_DAY + r && 0 <= r < MINUTES_A_DAY;
  }

  /**
   The wait computed from two displayed minutes is the elapsed time less one day for
   every day boundary crossed. It is within a day of zero, and non-negative when both
   readings fall on one day.
   */
  lemma ShownWait(start: nat, end: nat)
    requires 1 <= start <= end
    ensures MinuteOf(end) - MinuteOf(start) == (end - start) - MINUTES_A_DAY * (DayOf(end) - DayOf(start))
    ensures -1439 <= MinuteOf(end) - MinuteOf(start) <= 1439
    ensures DayOf(start) == DayOf(end) ==> MinuteOf(end) - MinuteOf(start) == end - start
  {
    ClockSplits(start);
    ClockSplits(end);
  }

  // ---------- the director's loop, tick by tick ----------

  /** The minutes the director holds when it begins tick t (the first tick is number 1). */
  function Before(t: nat): nat
    requires t >= 1
  {
    MinuteOf(t - 1)
  }

  /** The batch of semaphore posts for an hour goes out in tick t. */
  predicate PostsAt(hour: nat, t: nat)
    requires t >= 1
  {
    Before(t) == hour * 60 && Before(t) != 0
  }

  /** A day boundary falls in tick t. */
  predicate NewDayAt(t: nat)
    requires t >= 1
  {
    Before(t) % MINUTES_A_DAY == 0
  }

  /**
   In the 1440 ticks that follow the d-th boundary, up to and including the next
   one, the batch for an hour is posted at exactly one tick if the hour is 1 to 24,
   and at none otherwise.
   */
  lemma OneBatchADay(hour: nat, d: nat, t: nat)
    requires d * MINUTES_A_DAY + 1 < t <= (d + 1) * MINUTES_A_DAY + 1
    ensures PostsAt(hour, t) <==> 1 <= hour <= 24 && t == d * MINUTES_A_DAY + hour * 60 + 1
  {
    ClockIs(t - 1, d, t - 1 - d * MINUTES_A_DAY);
  }

  /** Opening is posted before closing within a day iff the hour of opening is the smaller. */
  lemma OpeningFirst(open: nat, close: nat, d: nat, a: nat, b: nat)
    requires d * MINUTES_A_DAY + 1 < a <= (d + 1) * MINUTES_A_DAY + 1
    requires d * MINUTES_A_DAY + 1 < b <= (d + 1) * MINUTES_A_DAY + 1
    requires PostsAt(open, a) && PostsAt(close, b)
    ensures (a <= b <==> open <= close) && (a == b <==> open == close)
  {
    OneBatchADay(open, d, a);
    OneBatchADay(close, d, b);
  }
}
