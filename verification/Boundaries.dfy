/**
 The day boundaries of a run: what the director reads there decides whether it goes on,
 and when it leaves its loop its counters are those of the loop run as a program.
 */
module Boundaries {
  import opened Settings
  import opened SharedRecord
  import opened Statistics
  import opened Seats
  import opened Protocol
  import opened Moves
  import opened Director
  import opened Timing
  import opened Rounds
  import opened Tokens
  import opened Doors
  import opened Runs
  import opened Chronicle

  /** The director passes a day boundary, where it reads how many users have been late today. */
  predicate PassesBoundary(s: State, a: Action) {
    a == DirectorStep(XBoundary) && s.director.minutes % MINUTES_A_DAY == 0
  }

  /** What a step adds to the readings. */
  function Read(s: State, a: Action): seq<int> {
    if PassesBoundary(s, a) then [s.stats.mem.counts.lateToday] else []
  }

  /** What it has read at the boundaries among the first n steps. */
  function Readings(states: seq<State>, actions: seq<Action>, n: nat): seq<int>
    requires n <= |actions| < |states|
  {
    if n == 0 then [] else Readings(states, actions, n - 1) + Read(states[n - 1], actions[n - 1])
  }

  /** The director has broken off because of late users. */
  predicate BrokenOff(pc: DirectorPc) {
    (pc.Killing? || pc.Reported?) && pc.exploded
  }

  /** One reading a day; all are within the limit, but for the last one if the director broke off. */
  predicate WithinLimit(c: Config, d: DirectorState, readings: seq<int>) {
    && |readings| == d.days
    && (forall i | 0 <= i < |readings| - 1 :: readings[i] <= c.explodeMax)
    && (BrokenOff(d.pc) <==> |readings| > 0 && readings[|readings| - 1] > c.explodeMax)
    && (d.pc.Killing? || d.pc.Reported? ==> d.minutes == MinuteOf(d.ticks))
  }

  /** At the tick's end a boundary has been passed exactly if the ticks completed are whole days. */
  lemma AtBoundaryTick(c: Config, d: DirectorState)
    requires Director.AtHead(c, d)
    ensures d.minutes == MinuteOf(d.ticks)
    ensures d.minutes % MINUTES_A_DAY == 0 <==> d.ticks == d.days * MINUTES_A_DAY
  {
    MinuteAtHead(c, d);
  }

  lemma DirectorReads(c: Config, s: State, xa: DirectorAct, readings: seq<int>)
    requires DirectorEnabled(c, s, xa) && DirectorFits(c, s.director) && WithinLimit(c, s.director, readings)
    ensures WithinLimit(c, DirectorNext(c, s, xa),
                        readings + Read(s, DirectorStep(xa)))
  {
    if xa == XBoundary || xa == XLoop {
      MinuteAtHead(c, s.director);
      DirectorChecks(c, s, xa, readings);
    } else if xa == XReport {
      DirectorReports(c, s, readings);
    } else {
      DirectorPassesOn(c, s, xa, readings);
    }
  }

  lemma DirectorReports(c: Config, s: State, readings: seq<int>)
    requires DirectorEnabled(c, s, XReport) && WithinLimit(c, s.director, readings)
    ensures WithinLimit(c, DirectorNext(c, s, XReport), readings + Read(s, DirectorStep(XReport)))
  {
  }

  lemma DirectorPassesOn(c: Config, s: State, xa: DirectorAct, readings: seq<int>)
    requires DirectorEnabled(c, s, xa) && WithinLimit(c, s.director, readings)
    requires xa != XBoundary && xa != XLoop && xa != XReport
    ensures WithinLimit(c, DirectorNext(c, s, xa), readings + Read(s, DirectorStep(xa)))
  {
    assert !s.director.pc.Killing? && !s.director.pc.Reported?;
  }

  lemma DirectorChecks(c: Config, s: State, xa: DirectorAct, readings: seq<int>)
    requires DirectorEnabled(c, s, xa) && (xa == XBoundary || xa == XLoop) && WithinLimit(c, s.director, readings)
    requires s.director.minutes == MinuteOf(s.director.ticks)
    ensures WithinLimit(c, DirectorNext(c, s, xa), readings + Read(s, DirectorStep(xa)))
  {
  }

  lemma NextReading(c: Config, s: State, s': State, a: Action, readings: seq<int>)
    requires Moved(c, s, s', a) && DirectorFits(c, s.director) && WithinLimit(c, s.director, readings)
    ensures WithinLimit(c, s'.director, readings + Read(s, a))
  {
    if a.DirectorStep? {
      DirectorReads(c, s, a.xa, readings);
    } else {
      assert readings + Read(s, a) == readings;
    }
  }

  lemma FirstReading(c: Config, s: State)
    requires Init(c, s)
    ensures WithinLimit(c, s.director, [])
  {
  }

  lemma DirectorInRun(c: Config, states: seq<State>, actions: seq<Action>, k: nat)
    requires Execution(c, states, actions) && k < |states|
    ensures DirectorFits(c, states[k].director)
  {
    InvAlways(c, states, actions, k);
  }

  lemma {:induction false} ReadingsWithinLimit(c: Config, states: seq<State>, actions: seq<Action>, n: nat)
    requires Execution(c, states, actions) && n <= |actions|
    ensures WithinLimit(c, states[n].director, Readings(states, actions, n))
  {
    if n == 0 {
      FirstReading(c, states[0]);
    } else {
      ReadingsWithinLimit(c, states, actions, n - 1);
      DirectorInRun(c, states, actions, n - 1);
      MoveOfRun(c, states, actions, n - 1);
      NextReading(c, states[n - 1], states[n], actions[n - 1], Readings(states, actions, n - 1));
    }
  }

  lemma {:induction false} ReadingsGrow(states: seq<State>, actions: seq<Action>, i: nat, n: nat)
    requires i <= n <= |actions| < |states|
    ensures Readings(states, actions, i) <= Readings(states, actions, n)
    decreases n
  {
    if i < n {
      ReadingsGrow(states, actions, i, n - 1);
    }
  }

  lemma BoundaryTaken(c: Config, s: State, s': State)
    requires DirectorMove(c, s, s', XBoundary) && DirectorFits(c, s.director)
    ensures PassesBoundary(s, DirectorStep(XBoundary)) <==> s.director.ticks == s.director.days * MINUTES_A_DAY
    ensures var late := s.stats.mem.counts.lateToday;
            if s.director.ticks != s.director.days * MINUTES_A_DAY
            then s'.director == s.director.(pc := CheckNewUsers)
            else s'.director.days == s.director.days + 1
                 && s'.director.pc == (if late <= c.explodeMax then ResetStats else Killing(true))
  {
    AtBoundaryTick(c, s.director);
  }

  /**
   In every run, where the director passes the check for a new day: it is a boundary iff
   the ticks completed are so many whole days; there the run goes into a new day iff no
   more users have been late than the limit, and otherwise the director breaks off. What
   it reads there is the reading of that day.
   */
  lemma BoundaryDecides(c: Config, states: seq<State>, actions: seq<Action>, i: nat, n: nat)
    requires Execution(c, states, actions) && i < n <= |actions| && actions[i] == DirectorStep(XBoundary)
    ensures var d, d', late := states[i].director, states[i + 1].director, states[i].stats.mem.counts.lateToday;
            if d.ticks != d.days * MINUTES_A_DAY then d' == d.(pc := CheckNewUsers)
            else && d'.days == d.days + 1
                 && d'.pc == (if late <= c.explodeMax then ResetStats else Killing(true))
                 && d.days < |Readings(states, actions, n)| && Readings(states, actions, n)[d.days] == late
  {
    StepOfRun(c, states, actions, i);
    BoundaryTaken(c, states[i], states[i + 1]);
    ReadingsWithinLimit(c, states, actions, i);
    ReadingsGrow(states, actions, i + 1, n);
  }

  // ---------- the loop as a program ----------

  /** The d-th reading, at the tick of the d-th boundary. */
  function LateAt(readings: seq<int>, t: nat): int {
    if t >= 1 && (t - 1) % MINUTES_A_DAY == 0 && (t - 1) / MINUTES_A_DAY < |readings|
    then readings[(t - 1) / MINUTES_A_DAY] else 0
  }

  /** The office as this run makes it: its users, its operators, and what its director read. */
  function OfficeRun(c: Config, s: State, readings: seq<int>): Office {
    OfficeIn(c, s).(late := (t: nat) => LateAt(readings, t))
  }

  lemma TooLateReads(c: Config, s: State, readings: seq<int>, d: nat)
    requires d < |readings|
    ensures TooLate(OfficeRun(c, s, readings), d) <==> readings[d] > c.explodeMax
  {
    var t := d * MINUTES_A_DAY + 1;
    ClockIs(t, d, 1);
    assert (t - 1) % MINUTES_A_DAY == 0 && (t - 1) / MINUTES_A_DAY == d;
  }

  /** Who has been late makes no difference to the users there are or to a batch. */
  lemma {:induction false} LateIsNotPosted(o: Office, late: nat -> int, g: Signal, t: nat)
    ensures Users(o.(late := late), t) == Users(o, t)
    ensures Posted(o.(late := late), g, t) == Posted(o, g, t)
  {
    if t > 0 {
      LateIsNotPosted(o, late, g, t - 1);
    }
  }

  /** The director's position in terms of the loop: tokens posted, counters, users. */
  function LoopState(s: State): LoopResult {
    var d := s.director;
    LoopResult(s.hist.doors.opening, s.hist.doors.closing, SumOf(s.hist.crowds), d.days, d.minutes, |s.users|, d.ticks,
               BrokenOff(d.pc))
  }

  lemma EndOfLoop(c: Config, s: State, readings: seq<int>)
    requires DoorInv(c, s) && DirectorFits(c, s.director) && WithinLimit(c, s.director, readings)
    requires s.director.pc.Killing? || s.director.pc.Reported?
    ensures EndsWith(OfficeRun(c, s, readings), LoopState(s))
  {
    var d, o := s.director, OfficeRun(c, s, readings);
    var late := (t: nat) => LateAt(readings, t);
    forall t: nat, g: Signal | t == d.ticks || t == d.ticks + 1
      ensures Posted(o, g, t) == Posted(OfficeIn(c, s), g, t) && Users(o, t) == Users(OfficeIn(c, s), t)
    {
      LateIsNotPosted(OfficeIn(c, s), late, g, t);
    }
    UsersOf(c, |s.operators|, s.hist.doors.people, d.ticks);
    forall e | 0 <= e < |readings| ensures TooLate(o, e) <==> readings[e] > c.explodeMax {
      TooLateReads(c, s, readings, e);
    }
  }

  /**
   In every run, when the director has left its loop, the tokens it has posted, its days,
   minutes and ticks, and whether it broke off, are those that the minute loop run as a
   program returns for the users of this run and the late users its director read.
   */
  lemma RunEndsAsLoop(c: Config, states: seq<State>, actions: seq<Action>, n: nat)
    requires Execution(c, states, actions) && n <= |actions|
    requires states[n].director.pc.Killing? || states[n].director.pc.Reported?
    ensures var o := OfficeRun(c, states[n], Readings(states, actions, n)); var r := LoopState(states[n]);
            EndsWith(o, r) && forall q | EndsWith(o, q) :: q == r
  {
    InvAlways(c, states, actions, n);
    ReadingsWithinLimit(c, states, actions, n);
    var o, r := OfficeRun(c, states[n], Readings(states, actions, n)), LoopState(states[n]);
    EndOfLoop(c, states[n], Readings(states, actions, n));
    forall q | EndsWith(o, q) ensures q == r {
      OneEnd(o, q, r);
    }
  }

  /** Cut short or not, given what has been read at the boundaries. */
  predicate EndedBy(c: Config, exploded: bool, readings: seq<int>) {
    && 1 <= |readings| <= c.simDuration
    && (forall i | 0 <= i < |readings| - 1 :: readings[i] <= c.explodeMax)
    && (exploded <==> readings[|readings| - 1] > c.explodeMax)
    && (!exploded ==> |readings| == c.simDuration)
  }

  lemma EndReadings(c: Config, d: DirectorState, readings: seq<int>)
    requires DirectorFits(c, d) && d.pc.Reported? && WithinLimit(c, d, readings)
    ensures EndedBy(c, d.pc.exploded, readings)
  {
  }

  /**
   Why a run ends: it is cut short iff the last count that the director read at a
   boundary exceeded the limit; every earlier one was within it. A run that is not cut
   short has passed all its boundaries, each with a count within the limit.
   */
  lemma CutShortExactly(c: Config, states: seq<State>, actions: seq<Action>, n: nat)
    requires Execution(c, states, actions) && n <= |actions| && states[n].director.pc.Reported?
    ensures EndedBy(c, states[n].director.pc.exploded, Readings(states, actions, n))
  {
    DirectorInRun(c, states, actions, n);
    ReadingsWithinLimit(c, states, actions, n);
    EndReadings(c, states[n].director, Readings(states, actions, n));
  }
}
