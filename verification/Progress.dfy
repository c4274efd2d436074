/** The two locks cause no deadlock: until the report is written, some process can always take a step. */
module Progress {
  import opened Settings
  import opened SharedRecord
  import opened Statistics
  import opened Seats
  import opened Protocol
  import opened Locks
  import opened Sessions
  import opened Runs

  /** Whoever is inside a lock can go on, whatever the others do. */
  lemma HolderCanGoOn(c: Config, s: State, p: Proc)
    requires Running(s)
    ensures p in s.stats.inside ==> Enabled(c, s, StatStep(p)) || Enabled(c, s, StatLeave(p))
    ensures p in s.seats.inside ==> Enabled(c, s, SeatStep(p)) || Enabled(c, s, SeatLeave(p))
  {
  }

  function ServicesDrawn(n: nat): (services: seq<int>)
    ensures |services| == n && forall i | 0 <= i < n :: IsService(services[i])
  {
    seq(n, i => 0)
  }

  /** The director's next step, when both locks are free. */
  function DirectorTurn(c: Config, d: DirectorState): DirectorAct {
    match d.pc
    case LoopHead => XLoop
    case OpenCheck => XOpenCheck
    case PostOpen(_) => XPostOpen
    case CloseCheck => XCloseCheck
    case PostClose(_) => XPostClose
    case Boundary => XBoundary
    case ResetStats => XResetStats
    case ResetSeats => XResetSeats(ServicesDrawn(c.numSeats))
    case ResetDone => XResetDone
    case PostDay(_) => XPostDay
    case CheckNewUsers => XNewUsers({})
    case Advance => XAdvance
    case Killing(_) => XReport
    case Reported(_, _) => XReport
  }

  lemma DirectorCanStep(c: Config, s: State)
    requires Inv(c, s) && Running(s) && s.stats.inside.Keys == {} && s.seats.inside.Keys == {}
    ensures Enabled(c, s, DirectorStep(DirectorTurn(c, s.director)))
  {
    assert s.users.Keys + {} == s.users.Keys;
  }

  lemma SomebodyCanStep(c: Config, s: State)
    requires Reachable(c, s) && Running(s)
    ensures exists a :: Enabled(c, s, a)
  {
    ReachableInv(c, s);
    if p :| p in s.stats.inside {
      HolderCanGoOn(c, s, p);
    } else if p :| p in s.seats.inside {
      HolderCanGoOn(c, s, p);
    } else {
      DirectorCanStep(c, s);
    }
  }

  // ---------- who waits for what ----------

  predicate NoMessageFor(s: State, mtype: int) {
    forall m | m in s.queue :: m.mtype != mtype
  }

  /** What the user waits for is not there: a token, its hour, a reply, or a lock. */
  predicate UserWaits(s: State, u: int)
    requires u in s.users
  {
    var x := s.users[u];
    match x.pc
    case WaitDay => s.events.day == 0
    case WaitOpen => s.events.open == 0
    case WaitWalkIn => s.stats.mem.clock.minute < x.plan.walkIn
    case AwaitTicket => NoMessageFor(s, u)
    case AwaitDone => NoMessageFor(s, u)
    case HaveTicket => s.seats.sem <= 0
    case TrySeat => s.seats.sem <= 0
    case ReadyToFree => s.seats.sem <= 0
    case ReadyToRecord => s.stats.sem <= 0
    case BeLate(_) => s.stats.sem <= 0
    case BeFailed(_) => s.stats.sem <= 0
    case _ => false
  }

  /** A step of the user where it stands. */
  function UserTurn(c: Config, s: State, u: int, m: Msg): UserAct
    requires u in s.users
  {
    var x := s.users[u];
    match x.pc
    case WaitDay => UTakeDay
    case Starting => UStayHome
    case WaitOpen => UEnterOffice
    case WaitWalkIn => UWalkIn
    case Head => if x.plan.next >= |x.plan.list| then UGoHome else if Closed(c, s) then USeeClosed else UBegin
    case ReadyToAsk => UAskTicket(true)
    case AwaitTicket => UGetTicket(m)
    case HaveTicket => UFindSeats
    case Searched => UJudgeSeats
    case TrySeat => UTrySeat
    case Retry => if Closed(c, s) then URetryLate else URetryAgain
    case HaveSeat => UReadOperator
    case ReadClock => UReadClock
    case ReadyToSend => USendRequest(true)
    case AwaitDone => UGetDone(m)
    case HaveDone => UReadEnd
    case ReadyToRecord => URecord
    case CheckClose => if Closed(c, s) then USeeLate else UNotLate
    case ReadyToFree => UFreeSeat
    case Freed => UPostFreed
    case BeLate(_) => ULate
    case BeFailed(_) => UFail
    case UserConfused => UGoHome
  }

  lemma UserGoesOn(c: Config, s: State, u: int, m: Msg)
    requires u in s.users && !UserWaits(s, u) && s.users[u].pc != UserConfused
    requires s.users[u].pc == AwaitTicket || s.users[u].pc == AwaitDone ==> m in s.queue && m.mtype == u
    ensures UserEnabled(c, s, u, UserTurn(c, s, u, m))
  {
  }

  lemma UserNotWaiting(c: Config, s: State, u: int, ua: UserAct)
    requires u in s.users && UserEnabled(c, s, u, ua)
    ensures !UserWaits(s, u)
  {
  }

  lemma SomeMessage(s: State, mtype: int) returns (m: Msg)
    ensures NoMessageFor(s, mtype) || (m in s.queue && m.mtype == mtype)
  {
    if NoMessageFor(s, mtype) {
      m := AskTicket(0, 0);
    } else {
      m :| m in s.queue && m.mtype == mtype;
    }
  }

  lemma UserMayStep(c: Config, s: State, u: int)
    requires Running(s) && u in s.users && OutsideLocks(s, TheUser(u)) && s.users[u].pc != UserConfused
    ensures (exists ua :: Enabled(c, s, UserStep(u, ua))) <==> !UserWaits(s, u)
  {
    if !UserWaits(s, u) {
      var m := SomeMessage(s, u);
      UserGoesOn(c, s, u, m);
      assert Enabled(c, s, UserStep(u, UserTurn(c, s, u, m)));
    }
    if ua :| Enabled(c, s, UserStep(u, ua)) {
      UserNotWaiting(c, s, u, ua);
    }
  }

  lemma NeverConfused(c: Config, s: State)
    requires Reachable(c, s)
    ensures forall u | u in s.users :: s.users[u].pc != UserConfused
    ensures forall p | p in s.operators :: s.operators[p].pc != OperatorConfused
  {
    ReachableInv(c, s);
    forall u | u in s.users ensures s.users[u].pc != UserConfused {
      assert UserFits(s.operators.Keys, s.users[u]);
    }
    forall p | p in s.operators ensures s.operators[p].pc != OperatorConfused {
      assert OperatorFits(s.users, p, s.operators[p]);
    }
  }

  /**
   A user outside the locks can take a step exactly when it is not waiting for a token,
   its hour, a reply or a lock: nothing else holds it up.
   */
  lemma UserStepsUnlessWaiting(c: Config, s: State, u: int)
    requires Reachable(c, s) && Running(s) && u in s.users && OutsideLocks(s, TheUser(u))
    ensures (exists ua :: Enabled(c, s, UserStep(u, ua))) <==> !UserWaits(s, u)
  {
    NeverConfused(c, s);
    UserMayStep(c, s, u);
  }

  predicate OperatorWaits(s: State, p: int)
    requires p in s.operators
  {
    match s.operators[p].pc
    case OffDuty => s.events.day == 0
    case OutsideDoor => s.events.open == 0
    case WaitStation => s.events.station == 0 && s.events.close == 0
    case FirstSearch => s.seats.sem <= 0
    case TakeFound => s.seats.sem <= 0
    case Leaving(_) => s.seats.sem <= 0
    case GotRequest => s.stats.sem <= 0
    case RecordPause => s.stats.sem <= 0
    case RecordShift => s.stats.sem <= 0
    case _ => false
  }

  function OperatorTurn(s: State, p: int, m: Msg): OperatorAct
    requires p in s.operators
  {
    match s.operators[p].pc
    case OffDuty => OTakeDay
    case OutsideDoor => OEnterOffice
    case LookForWork(_) => OLookForWork
    case FirstSearch => OFirstSearch
    case WaitStation => if s.events.station > 0 then OWakeUp else OSeeClosedWaiting
    case ScanStatus(_) => OScanStatus
    case ScanService(_) => OScanService
    case TakeFound => OTakeFound
    case OnShift => if s.events.close > 0 then OSeeClose else OStayOpen
    case Poll => if m in s.queue && m.mtype == SERVICE_BASE + p then OPollRequest(m) else OPollNothing
    case GotRequest => OCount
    case Serving => OAnswer(0, true)
    case AfterService => OKeepWorking
    case Leaving(_) => ORelease
    case LeftSeat(_) => OPostStation
    case RecordPause => ORecordPause
    case RecordShift => ORecordShift
    case OperatorConfused => OKeepWorking
  }

  lemma OperatorGoesOn(c: Config, s: State, p: int, m: Msg)
    requires p in s.operators && !OperatorWaits(s, p) && s.operators[p].pc != OperatorConfused
    requires NoMessageFor(s, SERVICE_BASE + p) || (m in s.queue && m.mtype == SERVICE_BASE + p)
    ensures OperatorEnabled(c, s, p, OperatorTurn(s, p, m))
  {
  }

  lemma OperatorNotWaiting(c: Config, s: State, p: int, oa: OperatorAct)
    requires p in s.operators && OperatorEnabled(c, s, p, oa)
    ensures !OperatorWaits(s, p)
  {
  }

  lemma OperatorMayStep(c: Config, s: State, p: int)
    requires Running(s) && p in s.operators && OutsideLocks(s, TheOperator(p))
    requires s.operators[p].pc != OperatorConfused
    ensures (exists oa :: Enabled(c, s, OperatorStep(p, oa))) <==> !OperatorWaits(s, p)
  {
    if !OperatorWaits(s, p) {
      var m := SomeMessage(s, SERVICE_BASE + p);
      OperatorGoesOn(c, s, p, m);
      assert Enabled(c, s, OperatorStep(p, OperatorTurn(s, p, m)));
    }
    if oa :| Enabled(c, s, OperatorStep(p, oa)) {
      OperatorNotWaiting(c, s, p, oa);
    }
  }

  /** The same for operators, who never wait for a request. */
  lemma OperatorStepsUnlessWaiting(c: Config, s: State, p: int)
    requires Reachable(c, s) && Running(s) && p in s.operators && OutsideLocks(s, TheOperator(p))
    ensures (exists oa :: Enabled(c, s, OperatorStep(p, oa))) <==> !OperatorWaits(s, p)
  {
    NeverConfused(c, s);
    OperatorMayStep(c, s, p);
  }
}
