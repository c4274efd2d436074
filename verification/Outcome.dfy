/** Why the run ended: an explosion seen by the director is still there when it writes its report. */
module Outcome {
  import opened Settings
  import opened SharedRecord
  import opened Statistics
  import opened Seats
  import opened Protocol
  import opened Locks
  import opened Moves

  predicate Overrun(c: Config, s: State) {
    s.stats.mem.counts.lateToday > c.explodeMax
  }

  ghost predicate OutcomeInv(c: Config, s: State) {
    && (s.director.pc == Killing(true) ==> Overrun(c, s))
    && (s.director.pc.Reported? ==>
          && (s.director.pc.exploded ==> s.director.pc.mode == Explode)
          && (s.director.pc.mode == Explode <==> Overrun(c, s)))
  }

  lemma OutcomeInitially(c: Config, s: State)
    requires Init(c, s)
    ensures OutcomeInv(c, s)
  {
  }

  /** No write but the director's reset lowers the number of users late today. */
  lemma LateTodayGrows(m: Stats, w: StatWrite)
    requires Ordinary(w)
    ensures ApplyStat(m, w).counts.lateToday >= m.counts.lateToday
  {
  }

  lemma WritesKeepOutcome(c: Config, s: State, s': State, p: Proc)
    requires LockInv(c, s) && OutcomeInv(c, s) && !s.director.pc.Reported?
    requires p in s.stats.inside && s.stats.inside[p] != []
    requires s' == s.(stats := WriteNext(ApplyStat, s.stats, p))
    ensures OutcomeInv(c, s')
  {
    assert StatSection(s, s.director.pc, p, s.stats.inside[p]);
    if s.director.pc == Killing(true) {
      assert p != TheDirector;
      LateTodayGrows(s.stats.mem, s.stats.inside[p][0]);
    }
  }

  lemma DirectorKeepsOutcome(c: Config, s: State, s': State, xa: DirectorAct)
    requires OutcomeInv(c, s) && DirectorMove(c, s, s', xa)
    ensures OutcomeInv(c, s')
  {
    assert s'.stats.mem == s.stats.mem;
  }

  lemma OutcomePreserved(c: Config, s: State, s': State, a: Action)
    requires LockInv(c, s) && OutcomeInv(c, s) && Running(s) && Moved(c, s, s', a)
    ensures OutcomeInv(c, s')
  {
    match a
    case UserStep(u, ua) => assert s'.stats.mem == s.stats.mem;
    case OperatorStep(p, oa) => assert s'.stats.mem == s.stats.mem;
    case DispenserStep(da) => assert s'.stats.mem == s.stats.mem;
    case DirectorStep(xa) => DirectorKeepsOutcome(c, s, s', xa);
    case StatStep(who) => WritesKeepOutcome(c, s, s', who);
    case _ => assert s'.stats.mem == s.stats.mem;
  }
}
