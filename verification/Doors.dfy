/**
 The tokens of the director's three batches, in the transition system: what has been
 posted at each point of its loop is what the loop run as a program posts, and every
 token is still unclaimed or has been consumed.
 */
module Doors {
  import opened Settings
  import opened SharedRecord
  import opened Statistics
  import opened Seats
  import opened Protocol
  import opened Moves
  import opened Sessions
  import opened Director
  import opened Tokens
  import opened Timing
  import opened Rounds
  import opened Counting

  ghost predicate Growing(people: seq<nat>) {
    |people| >= 1 && forall i, j | 0 <= i <= j < |people| :: people[i] <= people[j]
  }

  /** The users added in tick t of a run. */
  function Added(people: seq<nat>, t: nat): nat {
    if 1 <= t < |people| && people[t - 1] <= people[t] then people[t] - people[t - 1] else 0
  }

  /** The office as the loop sees it, with the users of this run. */
  function OfficeOf(c: Config, operators: nat, people: seq<nat>): Office {
    Office(c, operators, if |people| > 0 then people[0] else 0, (t: nat) => 0, (t: nat) => Added(people, t))
  }

  lemma {:induction false} UsersOf(c: Config, operators: nat, people: seq<nat>, t: nat)
    requires Growing(people) && t < |people|
    ensures Users(OfficeOf(c, operators, people), t) == people[t]
  {
    if t > 0 {
      UsersOf(c, operators, people, t - 1);
      assert people[t - 1] <= people[t];
    }
  }

  /** What has been posted up to a tick depends only on the users there were before it. */
  lemma {:induction false} PostedEarlier(c: Config, operators: nat, a: seq<nat>, b: seq<nat>, g: Signal, t: nat)
    requires Growing(a) && Growing(b) && a <= b && t <= |a|
    ensures Posted(OfficeOf(c, operators, a), g, t) == Posted(OfficeOf(c, operators, b), g, t)
  {
    if t > 0 {
      PostedEarlier(c, operators, a, b, g, t - 1);
      UsersOf(c, operators, a, t - 1);
      UsersOf(c, operators, b, t - 1);
    }
  }

  /** The tokens given to the three semaphores after t ticks. */
  datatype Batches = Batches(open: nat, close: nat, day: nat)

  function BatchesAt(o: Office, t: nat): Batches {
    Batches(Posted(o, Opening, t), Posted(o, Closing, t), Posted(o, Morning, t))
  }

  // The points of the loop from which on a batch of the current tick, if due, is under way or done.

  predicate OpeningBegun(pc: DirectorPc) {
    match pc
    case LoopHead => false
    case OpenCheck => false
    case Killing(exploded) => exploded
    case Reported(exploded, _) => exploded
    case _ => true
  }

  predicate ClosingBegun(pc: DirectorPc) {
    OpeningBegun(pc) && !pc.PostOpen? && !pc.CloseCheck?
  }

  predicate MorningBegun(pc: DirectorPc) {
    pc.PostDay? || pc.CheckNewUsers? || pc.Advance?
  }

  function OpeningLeft(pc: DirectorPc): nat {
    if pc.PostOpen? then pc.left else 0
  }

  function ClosingLeft(pc: DirectorPc): nat {
    if pc.PostClose? then pc.left else 0
  }

  /** What has been posted, for the ticks before the current one and for that one. */
  ghost predicate InStep(pc: DirectorPc, log: DoorLog, mornings: nat, before: Batches, after: Batches) {
    && log.opening + OpeningLeft(pc) == (if OpeningBegun(pc) then after.open else before.open)
    && log.closing + ClosingLeft(pc) == (if ClosingBegun(pc) then after.close else before.close)
    && mornings == (if MorningBegun(pc) then after.day else before.day)
  }

  ghost predicate PeopleFit(users: nat, d: DirectorState, people: seq<nat>) {
    && Growing(people) && |people| == d.ticks + 1
    && (if d.pc.Advance? then people[d.ticks] <= users else people[d.ticks] == users)
  }

  function OfficeIn(c: Config, s: State): Office {
    OfficeOf(c, |s.operators|, s.hist.doors.people)
  }

  ghost predicate DoorInv(c: Config, s: State) {
    && PeopleFit(|s.users|, s.director, s.hist.doors.people)
    && InStep(s.director.pc, s.hist.doors, SumOf(s.hist.crowds),
              BatchesAt(OfficeIn(c, s), s.director.ticks), BatchesAt(OfficeIn(c, s), s.director.ticks + 1))
    && s.events.open + s.hist.doors.entered == s.hist.doors.opening
    && s.events.close + s.hist.doors.shut == s.hist.doors.closing
  }

  lemma DoorsInitially(c: Config, s: State)
    requires Init(c, s)
    ensures DoorInv(c, s)
  {
  }

  // ---------- the director ----------

  lemma MinuteAtHead(c: Config, d: DirectorState)
    requires Director.AtHead(c, d)
    ensures d.minutes == MinuteOf(d.ticks)
  {
    if d.ticks >= 1 {
      ClockIs(d.ticks, d.days - 1, d.minutes);
    }
  }

  /** The tests the director makes are the ones that say what is due in the tick it is in. */
  lemma TestsDue(c: Config, d: DirectorState)
    requires Director.AtHead(c, d)
    ensures Due(c, Opening, d.ticks + 1) <==> d.minutes == c.shiftOpen * 60 && d.minutes != 0
    ensures Due(c, Closing, d.ticks + 1) <==> d.minutes == c.shiftClose * 60 && d.minutes != 0
    ensures Due(c, Morning, d.ticks + 1) <==> d.minutes % MINUTES_A_DAY == 0
  {
    MinuteAtHead(c, d);
  }

  lemma MorningDue(c: Config, d: DirectorState)
    requires AtBoundary(c, d)
    ensures Due(c, Morning, d.ticks + 1)
  {
    if d.ticks >= 1 {
      ClockIs(d.ticks, d.days - 2, MINUTES_A_DAY);
    }
  }

  /** One more tick of a kind: its batch, or nothing. */
  lemma NextPosted(c: Config, operators: nat, people: seq<nat>, g: Signal, t: nat)
    requires Growing(people) && t < |people|
    ensures var o := OfficeOf(c, operators, people);
            Posted(o, g, t + 1) == Posted(o, g, t) + (if !Due(c, g, t + 1) then 0
                                                      else if g == Closing then operators else operators + people[t])
  {
    UsersOf(c, operators, people, t);
  }

  /** What the current tick adds, seen from a point of the loop. */
  ghost predicate TickAdds(c: Config, s: State, before: Batches, after: Batches) {
    var d := s.director;
    && (d.pc.OpenCheck? || d.pc.PostOpen? || d.pc.CloseCheck? ==>
          && after.open == before.open + (if d.minutes == c.shiftOpen * 60 && d.minutes != 0 then Crowd(s) else 0)
          && after.close
             == before.close + (if d.minutes == c.shiftClose * 60 && d.minutes != 0 then |s.operators| else 0))
    && (d.pc.Boundary? && d.minutes % MINUTES_A_DAY != 0 ==> after.day == before.day)
    && (d.pc.ResetDone? ==> after.day == before.day + Crowd(s))
  }

  lemma WhatTickAdds(c: Config, s: State)
    requires DoorInv(c, s) && DirectorFits(c, s.director)
    ensures TickAdds(c, s, BatchesAt(OfficeIn(c, s), s.director.ticks), BatchesAt(OfficeIn(c, s), s.director.ticks + 1))
  {
    var d, people := s.director, s.hist.doors.people;
    NextPosted(c, |s.operators|, people, Opening, d.ticks);
    NextPosted(c, |s.operators|, people, Closing, d.ticks);
    NextPosted(c, |s.operators|, people, Morning, d.ticks);
    if d.pc.ResetDone? {
      MorningDue(c, d);
    } else if d.pc.OpenCheck? || d.pc.PostOpen? || d.pc.CloseCheck? || d.pc.Boundary? {
      TestsDue(c, d);
    }
  }

  lemma PostsInStep(c: Config, s: State, xa: DirectorAct, before: Batches, after: Batches)
    requires DirectorEnabled(c, s, xa) && TickAdds(c, s, before, after)
    requires xa.XOpenCheck? || xa.XPostOpen? || xa.XCloseCheck? || xa.XPostClose?
    requires InStep(s.director.pc, s.hist.doors, SumOf(s.hist.crowds), before, after)
    ensures var e := DirectorEffect(s, xa);
            && e.hist.doors.people == s.hist.doors.people && DirectorNext(c, s, xa).ticks == s.director.ticks
            && InStep(DirectorNext(c, s, xa).pc, e.hist.doors, SumOf(e.hist.crowds), before, after)
  {
  }

  lemma MorningInStep(c: Config, s: State, xa: DirectorAct, before: Batches, after: Batches)
    requires DirectorEnabled(c, s, xa) && TickAdds(c, s, before, after) && xa.XResetDone?
    requires InStep(s.director.pc, s.hist.doors, SumOf(s.hist.crowds), before, after)
    ensures var e := DirectorEffect(s, xa);
            && e.hist.doors.people == s.hist.doors.people && DirectorNext(c, s, xa).ticks == s.director.ticks
            && InStep(DirectorNext(c, s, xa).pc, e.hist.doors, SumOf(e.hist.crowds), before, after)
  {
    SumOfAppend(s.hist.crowds, Crowd(s));
  }

  lemma BoundaryInStep(c: Config, s: State, xa: DirectorAct, before: Batches, after: Batches)
    requires DirectorEnabled(c, s, xa) && TickAdds(c, s, before, after) && xa.XBoundary?
    requires InStep(s.director.pc, s.hist.doors, SumOf(s.hist.crowds), before, after)
    ensures var e := DirectorEffect(s, xa);
            && e.hist.doors.people == s.hist.doors.people && DirectorNext(c, s, xa).ticks == s.director.ticks
            && InStep(DirectorNext(c, s, xa).pc, e.hist.doors, SumOf(e.hist.crowds), before, after)
  {
  }

  lemma DayTokenInStep(c: Config, s: State, xa: DirectorAct, before: Batches, after: Batches)
    requires DirectorEnabled(c, s, xa) && TickAdds(c, s, before, after) && xa.XPostDay?
    requires InStep(s.director.pc, s.hist.doors, SumOf(s.hist.crowds), before, after)
    ensures var e := DirectorEffect(s, xa);
            && e.hist.doors.people == s.hist.doors.people && DirectorNext(c, s, xa).ticks == s.director.ticks
            && InStep(DirectorNext(c, s, xa).pc, e.hist.doors, SumOf(e.hist.crowds), before, after)
  {
  }

  lemma RestInStep(c: Config, s: State, xa: DirectorAct, before: Batches, after: Batches)
    requires DirectorEnabled(c, s, xa)
    requires xa.XLoop? || xa.XResetStats? || xa.XResetSeats? || xa.XNewUsers? || xa.XReport?
    requires InStep(s.director.pc, s.hist.doors, SumOf(s.hist.crowds), before, after)
    ensures var e := DirectorEffect(s, xa);
            && e.hist.doors.people == s.hist.doors.people && DirectorNext(c, s, xa).ticks == s.director.ticks
            && InStep(DirectorNext(c, s, xa).pc, e.hist.doors, SumOf(e.hist.crowds), before, after)
  {
  }

  lemma DirectorInStep(c: Config, s: State, xa: DirectorAct, before: Batches, after: Batches)
    requires DirectorEnabled(c, s, xa) && !xa.XAdvance? && TickAdds(c, s, before, after)
    requires InStep(s.director.pc, s.hist.doors, SumOf(s.hist.crowds), before, after)
    ensures var e := DirectorEffect(s, xa);
            && e.hist.doors.people == s.hist.doors.people && DirectorNext(c, s, xa).ticks == s.director.ticks
            && InStep(DirectorNext(c, s, xa).pc, e.hist.doors, SumOf(e.hist.crowds), before, after)
  {
    if xa.XOpenCheck? || xa.XPostOpen? || xa.XCloseCheck? || xa.XPostClose? {
      PostsInStep(c, s, xa, before, after);
    } else if xa.XResetDone? {
      MorningInStep(c, s, xa, before, after);
    } else if xa.XBoundary? {
      BoundaryInStep(c, s, xa, before, after);
    } else if xa.XPostDay? {
      DayTokenInStep(c, s, xa, before, after);
    } else {
      RestInStep(c, s, xa, before, after);
    }
  }

  lemma DirectorDoors(c: Config, s: State, xa: DirectorAct)
    requires DirectorEnabled(c, s, xa)
    ensures var e, h := DirectorEffect(s, xa), s.hist.doors;
            && e.hist.doors.entered == h.entered && e.hist.doors.shut == h.shut
            && e.events.open - e.hist.doors.opening == s.events.open - h.opening
            && e.events.close - e.hist.doors.closing == s.events.close - h.closing
  {
  }

  lemma NobodyLeaves(s: State, pids: set<int>)
    ensures |DirectorUsers(s, XNewUsers(pids))| >= |s.users|
  {
    var users' := DirectorUsers(s, XNewUsers(pids));
    SubsetSize(s.users.Keys, users'.Keys);
    assert |users'| == |users'.Keys| && |s.users| == |s.users.Keys|;
  }

  lemma DirectorPeople(c: Config, s: State, xa: DirectorAct)
    requires DirectorEnabled(c, s, xa) && PeopleFit(|s.users|, s.director, s.hist.doors.people)
    ensures PeopleFit(|DirectorUsers(s, xa)|, DirectorNext(c, s, xa), DirectorEffect(s, xa).hist.doors.people)
  {
    if xa.XNewUsers? {
      NobodyLeaves(s, xa.pids);
    }
  }

  lemma TickLogged(c: Config, s: State, s': State)
    requires DoorInv(c, s) && DirectorMove(c, s, s', XAdvance)
    ensures InStep(s'.director.pc, s'.hist.doors, SumOf(s'.hist.crowds),
                   BatchesAt(OfficeIn(c, s'), s'.director.ticks), BatchesAt(OfficeIn(c, s'), s'.director.ticks + 1))
  {
    var a := s.hist.doors.people;
    var b := a + [|s.users|];
    assert Growing(b);
    PostedEarlier(c, |s.operators|, a, b, Opening, |a|);
    PostedEarlier(c, |s.operators|, a, b, Closing, |a|);
    PostedEarlier(c, |s.operators|, a, b, Morning, |a|);
    assert BatchesAt(OfficeIn(c, s'), s'.director.ticks) == BatchesAt(OfficeIn(c, s), s.director.ticks + 1);
  }

  lemma StillInStep(c: Config, s: State, s': State, xa: DirectorAct)
    requires DoorInv(c, s) && DirectorFits(c, s.director) && DirectorMove(c, s, s', xa) && !xa.XAdvance?
    ensures InStep(s'.director.pc, s'.hist.doors, SumOf(s'.hist.crowds),
                   BatchesAt(OfficeIn(c, s'), s'.director.ticks), BatchesAt(OfficeIn(c, s'), s'.director.ticks + 1))
  {
    WhatTickAdds(c, s);
    DirectorInStep(c, s, xa, BatchesAt(OfficeIn(c, s), s.director.ticks),
                   BatchesAt(OfficeIn(c, s), s.director.ticks + 1));
    assert OfficeIn(c, s') == OfficeIn(c, s);
  }

  lemma DirectorKeepsDoors(c: Config, s: State, s': State, xa: DirectorAct)
    requires DoorInv(c, s) && DirectorFits(c, s.director) && DirectorMove(c, s, s', xa)
    ensures DoorInv(c, s')
  {
    DirectorPeople(c, s, xa);
    DirectorDoors(c, s, xa);
    if xa.XAdvance? {
      TickLogged(c, s, s');
    } else {
      StillInStep(c, s, s', xa);
    }
  }

  // ---------- everybody else ----------

  /** Nothing but the tokens consumed changes. */
  ghost predicate DoorsUsed(s: State, e: Effect) {
    && e.hist.doors == s.hist.doors.(entered := e.hist.doors.entered, shut := e.hist.doors.shut)
    && e.hist.crowds == s.hist.crowds
    && e.events.open + e.hist.doors.entered == s.events.open + s.hist.doors.entered
    && e.events.close + e.hist.doors.shut == s.events.close + s.hist.doors.shut
  }

  lemma EarlyUsesDoors(c: Config, s: State, u: int, ua: UserAct)
    requires u in s.users && UserEnabled(c, s, u, ua) && Early(ua)
    ensures DoorsUsed(s, UserEffect(s, u, ua))
  {
  }

  lemma LateUsesDoors(c: Config, s: State, u: int, ua: UserAct)
    requires u in s.users && UserEnabled(c, s, u, ua) && !Early(ua)
    ensures DoorsUsed(s, UserEffect(s, u, ua))
  {
  }

  lemma UserUsesDoors(c: Config, s: State, u: int, ua: UserAct)
    requires u in s.users && UserEnabled(c, s, u, ua)
    ensures DoorsUsed(s, UserEffect(s, u, ua))
  {
    if Early(ua) {
      EarlyUsesDoors(c, s, u, ua);
    } else {
      LateUsesDoors(c, s, u, ua);
    }
  }

  lemma OperatorUsesDoors(c: Config, s: State, p: int, oa: OperatorAct)
    requires p in s.operators && OperatorEnabled(c, s, p, oa)
    ensures DoorsUsed(s, OperatorEffect(c, s, p, oa))
  {
  }

  lemma SameNumbers(c: Config, s: State, s': State, e: Effect)
    requires DoorInv(c, s) && s'.director == s.director && DoorsUsed(s, e)
    requires s'.users.Keys == s.users.Keys && s'.operators.Keys == s.operators.Keys
    requires s'.hist == e.hist && s'.events == e.events
    ensures DoorInv(c, s')
  {
    assert |s'.users| == |s'.users.Keys| == |s.users|;
    assert |s'.operators| == |s'.operators.Keys| == |s.operators|;
  }

  lemma OperatorUsersKeys(c: Config, s: State, p: int, oa: OperatorAct)
    requires p in s.operators
    ensures OperatorUsers(c, s, p, oa).Keys == s.users.Keys
  {
  }

  lemma UserKeepsDoors(c: Config, s: State, s': State, u: int, ua: UserAct)
    requires DoorInv(c, s) && UserMove(c, s, s', u, ua)
    ensures DoorInv(c, s')
  {
    UserUsesDoors(c, s, u, ua);
    SameNumbers(c, s, s', UserEffect(s, u, ua));
  }

  lemma OperatorKeepsDoors(c: Config, s: State, s': State, p: int, oa: OperatorAct)
    requires DoorInv(c, s) && OperatorMove(c, s, s', p, oa)
    ensures DoorInv(c, s')
  {
    OperatorUsesDoors(c, s, p, oa);
    OperatorUsersKeys(c, s, p, oa);
    SameNumbers(c, s, s', OperatorEffect(c, s, p, oa));
  }

  lemma DispenserKeepsDoors(c: Config, s: State, s': State, da: DispenserAct)
    requires DoorInv(c, s) && DispenserMove(s, s', da)
    ensures DoorInv(c, s')
  {
    SameNumbers(c, s, s', DispenserEffect(s, da));
  }

  lemma DoorsPreserved(c: Config, s: State, s': State, a: Action)
    requires DoorInv(c, s) && DirectorFits(c, s.director) && Moved(c, s, s', a)
    ensures DoorInv(c, s')
  {
    match a
    case UserStep(u, ua) => UserKeepsDoors(c, s, s', u, ua);
    case OperatorStep(p, oa) => OperatorKeepsDoors(c, s, s', p, oa);
    case DispenserStep(da) => DispenserKeepsDoors(c, s, s', da);
    case DirectorStep(xa) => DirectorKeepsDoors(c, s, s', xa);
    case _ => SameNumbers(c, s, s', Nothing(s));
  }
}
