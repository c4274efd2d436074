/**
 The statistics record as the programs update it: field by field, in place, between
 sem_wait and sem_post on stats_lock. Each method is proved to make exactly the
 writes that the transition system attributes to its section.
 */
module StatsRecord {
  import opened Settings
  import opened SharedRecord
  import opened Statistics

  class PosteStats {
    var simGlobal: Tally
    const simServices: array<Tally>
    var todayGlobal: Tally
    const todayServices: array<Tally>
    var lateToday: int
    var pausesToday: int
    var activeToday: int
    var pauses: int
    var active: int
    var day: int
    var minute: int
    ghost var tick: nat
    var statsLock: int

    ghost predicate Valid()
      reads this
    {
      simServices.Length == todayServices.Length == SERVICES && simServices != todayServices
    }

    ghost function View(): Stats
      reads this, simServices, todayServices
    {
      Stats(Book(simGlobal, simServices[..]), Book(todayGlobal, todayServices[..]),
            Counts(lateToday, pausesToday, activeToday, pauses, active), Clock(day, minute, tick))
    }

    /** Shared memory starts out zeroed, the lock at 1. */
    constructor ()
      ensures Valid() && fresh(simServices) && fresh(todayServices) && statsLock == 1
      ensures Blank(View().sim) && Blank(View().today)
      ensures View().counts == Counts(0, 0, 0, 0, 0) && View().clock == Clock(0, 0, 0)
    {
      simGlobal, todayGlobal := NOTHING, NOTHING;
      simServices := new Tally[SERVICES](_ => NOTHING);
      todayServices := new Tally[SERVICES](_ => NOTHING);
      lateToday, pausesToday, activeToday, pauses, active := 0, 0, 0, 0, 0;
      day, minute, tick, statsLock := 0, 0, 0, 1;
    }

    method UpdateFails(k: int)
      requires Valid() && IsService(k) && statsLock > 0
      modifies this, simServices, todayServices
      ensures Valid() && statsLock == old(statsLock)
      ensures View() == Run(ApplyStat, old(View()), FailWrites(k))
      ensures View() == ApplyChange(old(View()), Booked(k, Failed()))
    {
      statsLock := statsLock - 1;
      simGlobal := simGlobal.(failed := simGlobal.failed + 1);
      simServices[k] := simServices[k].(failed := simServices[k].failed + 1);
      todayGlobal := todayGlobal.(failed := todayGlobal.failed + 1);
      todayServices[k] := todayServices[k].(failed := todayServices[k].failed + 1);
      statsLock := statsLock + 1;
      RunFail(old(View()), k);
    }

    method UpdateSuccess(k: int, waitTime: real, serviceTime: real)
      requires Valid() && IsService(k) && statsLock > 0
      modifies this, simServices, todayServices
      ensures Valid() && statsLock == old(statsLock)
      ensures View() == Run(ApplyStat, old(View()), SuccessWrites(k, waitTime, serviceTime))
      ensures View() == ApplyChange(old(View()), Booked(k, Completed(waitTime, serviceTime)))
    {
      statsLock := statsLock - 1;
      simGlobal := simGlobal.(served := simGlobal.served + 1);
      simGlobal := simGlobal.(wait := simGlobal.wait + waitTime);
      simGlobal := simGlobal.(time := simGlobal.time + serviceTime);
      simServices[k] := simServices[k].(served := simServices[k].served + 1);
      simServices[k] := simServices[k].(wait := simServices[k].wait + waitTime);
      simServices[k] := simServices[k].(time := simServices[k].time + serviceTime);
      todayGlobal := todayGlobal.(served := todayGlobal.served + 1);
      todayServices[k] := todayServices[k].(served := todayServices[k].served + 1);
      todayServices[k] := todayServices[k].(wait := todayServices[k].wait + waitTime);
      todayServices[k] := todayServices[k].(time := todayServices[k].time + serviceTime);
      todayGlobal := todayGlobal.(wait := todayGlobal.wait + waitTime);
      todayGlobal := todayGlobal.(time := todayGlobal.time + serviceTime);
      statsLock := statsLock + 1;
      ghost var m, d := old(View()), Completed(waitTime, serviceTime);
      assert simServices[k] == Plus(m.sim.services[k], d) && simGlobal == Plus(m.sim.global, d);
      assert todayServices[k] == Plus(m.today.services[k], d) && todayGlobal == Plus(m.today.global, d);
      assert simServices[..] == m.sim.services[k := Plus(m.sim.services[k], d)];
      assert todayServices[..] == m.today.services[k := Plus(m.today.services[k], d)];
      assert View() == ApplyChange(m, Booked(k, d));
      assert View() == Run(ApplyStat, m, SuccessWrites(k, waitTime, serviceTime)) by {
        RunSuccess(m, k, waitTime, serviceTime);
      }
    }

    method UpdateRequests(k: int)
      requires Valid() && IsService(k) && statsLock > 0
      modifies this, simServices, todayServices
      ensures Valid() && statsLock == old(statsLock)
      ensures View() == Run(ApplyStat, old(View()), RequestWrites(k))
      ensures View() == ApplyChange(old(View()), Booked(k, Requested()))
    {
      statsLock := statsLock - 1;
      simServices[k] := simServices[k].(requests := simServices[k].requests + 1);
      simGlobal := simGlobal.(requests := simGlobal.requests + 1);
      todayServices[k] := todayServices[k].(requests := todayServices[k].requests + 1);
      todayGlobal := todayGlobal.(requests := todayGlobal.requests + 1);
      statsLock := statsLock + 1;
      RunRequest(old(View()), k);
    }

    method UpdatePauses()
      requires Valid() && statsLock > 0
      modifies this
      ensures Valid() && statsLock == old(statsLock)
      ensures View() == Run(ApplyStat, old(View()), PauseWrites()) == ApplyChange(old(View()), Paused)
    {
      statsLock := statsLock - 1;
      pauses := pauses + 1;
      pausesToday := pausesToday + 1;
      statsLock := statsLock + 1;
      RunShort(old(View()), 0, 0, 0);
    }

    method RecordShift()
      requires Valid() && statsLock > 0
      modifies this
      ensures Valid() && statsLock == old(statsLock)
      ensures View() == Run(ApplyStat, old(View()), ActiveWrites()) == ApplyChange(old(View()), Worked)
    {
      statsLock := statsLock - 1;
      active := active + 1;
      activeToday := activeToday + 1;
      statsLock := statsLock + 1;
      RunShort(old(View()), 0, 0, 0);
    }

    /** The locked half of start_new_day. */
    method ClearToday(newDay: int)
      requires Valid() && statsLock > 0
      modifies this, todayServices
      ensures Valid() && statsLock == old(statsLock)
      ensures View() == Run(ApplyStat, old(View()), NewDayWrites(newDay)) == ApplyChange(old(View()), NewDay(newDay))
    {
      statsLock := statsLock - 1;
      day := newDay;
      todayGlobal := NOTHING;
      forall k | 0 <= k < todayServices.Length {
        todayServices[k] := NOTHING;
      }
      lateToday, pausesToday, activeToday := 0, 0, 0;
      statsLock := statsLock + 1;
      RunShort(old(View()), newDay, 0, 0);
      EmptyIsBlank();
      assert todayServices[..] == EmptyBook().services;
    }

    method ShowMinute(m: int, ghost t: nat)
      requires Valid() && statsLock > 0
      modifies this
      ensures Valid() && statsLock == old(statsLock)
      ensures View() == Run(ApplyStat, old(View()), ClockWrites(m, t)) == ApplyChange(old(View()), Ticked(m, t))
    {
      statsLock := statsLock - 1;
      minute, tick := m, t;
      statsLock := statsLock + 1;
      RunShort(old(View()), 0, m, t);
    }
  }

  /** The one flag a user process keeps for itself across the day. */
  class LateFlag {
    var beenLateToday: bool

    constructor ()
      ensures !beenLateToday
    {
      beenLateToday := false;
    }

    method NewDay()
      modifies this
      ensures !beenLateToday
    {
      beenLateToday := false;
    }

    /** handle_late_users: the second call of a day changes nothing. */
    method HandleLateUsers(stats: PosteStats, k: int)
      requires stats.Valid() && IsService(k) && stats.statsLock > 0
      modifies this, stats, stats.simServices
      ensures stats.Valid() && stats.statsLock == old(stats.statsLock) && beenLateToday
      ensures stats.View() == Run(ApplyStat, old(stats.View()), LateWrites(k, old(beenLateToday)))
      ensures stats.View() == if old(beenLateToday) then old(stats.View())
                              else ApplyChange(old(stats.View()), LateAt(k))
    {
      stats.statsLock := stats.statsLock - 1;
      RunLate(stats.View(), k, beenLateToday);
      if beenLateToday {
        stats.statsLock := stats.statsLock + 1;
        return;
      } else {
        beenLateToday := true;
      }
      stats.lateToday := stats.lateToday + 1;
      stats.simGlobal := stats.simGlobal.(late := stats.simGlobal.late + 1);
      stats.simServices[k] := stats.simServices[k].(late := stats.simServices[k].late + 1);
      stats.statsLock := stats.statsLock + 1;
    }
  }
}
