/**
 What the statistics in memory may still lack while a section is being written. The
 director's report reads them without the lock, after its children have been killed.
 */
module Unwritten {
  import opened Settings
  import opened SharedRecord
  import opened Statistics
  import opened Seats
  import opened Protocol
  import opened Locks
  import opened Tallies

  /** No write takes time away from a service or counts a request. */
  ghost predicate OnlyMoreTime(todo: seq<StatWrite>) {
    forall i | 0 <= i < |todo| && todo[i].SimService? :: todo[i].d.requests == 0 && todo[i].d.time >= 0.0
  }

  /** An operator has received a request, is about to count it, and is serving its customer. */
  ghost predicate AboutToCount(s: State, p: Proc, todo: seq<StatWrite>) {
    && p.TheOperator? && p.pid in s.operators && s.operators[p.pid].pc == Serving
    && todo == RequestWrites(s.operators[p.pid].service)
  }

  ghost predicate PendingInv(s: State) {
    forall p | p in s.stats.inside ::
      OnlyMoreTime(s.stats.inside[p]) || AboutToCount(s, p, s.stats.inside[p])
  }

  lemma PendingInitially(c: Config, s: State)
    requires Init(c, s)
    ensures PendingInv(s)
  {
  }

  lemma UserOwes(c: Config, s: State, u: int, ua: UserAct)
    requires u in s.users && UserEnabled(c, s, u, ua) && DoneFits(s.users[u])
    ensures var e := UserEffect(s, u, ua); e.stats.Owes? ==> OnlyMoreTime(e.stats.writes)
  {
  }

  lemma OperatorOwes(c: Config, s: State, p: int, oa: OperatorAct)
    requires p in s.operators && OperatorEnabled(c, s, p, oa)
    ensures var e := OperatorEffect(c, s, p, oa);
            e.stats.Owes? ==>
              if oa == OCount
              then e.stats.writes == RequestWrites(s.operators[p].service)
                   && OperatorNext(c, s, p, oa) == s.operators[p].(pc := Serving)
              else OnlyMoreTime(e.stats.writes)
  {
  }

  lemma DirectorOwes(c: Config, s: State, xa: DirectorAct)
    requires DirectorEnabled(c, s, xa)
    ensures var e := DirectorEffect(s, xa); e.stats.Owes? ==> OnlyMoreTime(e.stats.writes)
  {
  }

  lemma UserKeepsPending(c: Config, s: State, u: int, ua: UserAct)
    requires PendingInv(s) && DoneInv(s) && Enabled(c, s, UserStep(u, ua))
    ensures PendingInv(Apply(c, s, UserStep(u, ua)))
  {
    UserOwes(c, s, u, ua);
  }

  lemma OperatorKeepsPending(c: Config, s: State, p: int, oa: OperatorAct)
    requires PendingInv(s) && Enabled(c, s, OperatorStep(p, oa))
    ensures PendingInv(Apply(c, s, OperatorStep(p, oa)))
  {
    OperatorOwes(c, s, p, oa);
  }

  lemma DirectorKeepsPending(c: Config, s: State, xa: DirectorAct)
    requires PendingInv(s) && Enabled(c, s, DirectorStep(xa))
    ensures PendingInv(Apply(c, s, DirectorStep(xa)))
  {
    DirectorOwes(c, s, xa);
  }

  lemma WriteKeepsPending(c: Config, s: State, p: Proc)
    requires PendingInv(s) && Enabled(c, s, StatStep(p))
    ensures PendingInv(Apply(c, s, StatStep(p)))
  {
  }

  lemma PendingPreserved(c: Config, s: State, a: Action)
    requires PendingInv(s) && DoneInv(s) && Enabled(c, s, a)
    ensures PendingInv(Apply(c, s, a))
  {
    match a
    case UserStep(u, ua) => UserKeepsPending(c, s, u, ua);
    case OperatorStep(p, oa) => OperatorKeepsPending(c, s, p, oa);
    case DirectorStep(xa) => DirectorKeepsPending(c, s, xa);
    case StatStep(p) => WriteKeepsPending(c, s, p);
    case _ =>
  }

  // ---------- memory against the completed sections ----------

  lemma {:induction false} TimeGrows(m: Stats, todo: seq<StatWrite>, k: int)
    requires OnlyMoreTime(todo)
    ensures var t, t' := ServiceOf(m.sim, k), ServiceOf(Run(ApplyStat, m, todo).sim, k);
            t'.requests == t.requests && t'.time >= t.time
    decreases |todo|
  {
    if todo != [] {
      TimeGrows(ApplyStat(m, todo[0]), todo[1..], k);
    }
  }

  /** What is in memory of a service: no more time than will be, and every request but one about to be counted. */
  lemma MemoryLags(s: State, k: int)
    requires Consistent(ApplyStat, s.stats) && PendingInv(s) && IsService(k) && |s.stats.view.sim.services| == SERVICES
    ensures var t, v := ServiceOf(s.stats.mem.sim, k), ServiceOf(s.stats.view.sim, k);
            && t.time <= v.time
            && (t.requests == v.requests
                || (t.requests == v.requests - 1
                    && exists p :: p in s.operators && s.operators[p].pc == Serving && s.operators[p].service == k))
  {
    if p :| p in s.stats.inside {
      var todo := s.stats.inside[p];
      if OnlyMoreTime(todo) {
        TimeGrows(s.stats.mem, todo, k);
      } else {
        var j := s.operators[p.pid].service;
        RunRequest(s.stats.mem, j);
      }
    }
  }
}
