/** How long the scheduler's loop sleeps between two passes. */
module SchedulerWake {
  import opened Basics
  import opened Slots
  import opened SchedulerStore

  class WakeTimer {
    var wakeInterval: int
    var minWakeInterval: int

    constructor ()
      ensures wakeInterval == 30 * SECOND && minWakeInterval == SECOND
    {
      wakeInterval, minWakeInterval := 30 * SECOND, SECOND;
    }

    // The earliest next run of an enabled schedule.
    method NextWakeAt(t: Tables) returns (at: Option<int>)
      ensures at.None? <==> forall id :: id in t.schedules && t.schedules[id].enabled ==> t.schedules[id].nextRunAt.None?
      ensures at.Some? ==> exists id :: id in t.schedules && t.schedules[id].enabled && t.schedules[id].nextRunAt == at
      ensures at.Some? ==> forall id :: id in t.schedules && t.schedules[id].enabled && t.schedules[id].nextRunAt.Some? ==>
        at.value <= t.schedules[id].nextRunAt.value
    {
      at := None;
      var rest := t.schedules.Keys;
      while rest != {}
        invariant rest <= t.schedules.Keys
        invariant at.None? <==>
          forall id :: id in t.schedules && t.schedules[id].enabled && t.schedules[id].nextRunAt.Some? ==> id in rest
        invariant at.Some? ==> exists id :: id in t.schedules && t.schedules[id].enabled && t.schedules[id].nextRunAt == at
        invariant at.Some? ==>
          forall id :: id in t.schedules && t.schedules[id].enabled && t.schedules[id].nextRunAt.Some? && id !in rest ==>
            at.value <= t.schedules[id].nextRunAt.value
        decreases rest
      {
        var id :| id in rest;
        rest := rest - {id};
        var s := t.schedules[id];
        if s.enabled && s.nextRunAt.Some? {
          if at.None? || s.nextRunAt.value < at.value { at := s.nextRunAt; }
        }
      }
    }

    // The loop never sleeps past a next run by the minimum or more, and it sleeps less than its full
    // interval only for a schedule that is due by the time it wakes, or for the minimum.
    method NextWakeDelay(t: Tables, now: int) returns (delay: int)
      modifies this
      ensures 0 < minWakeInterval <= wakeInterval
      ensures old(wakeInterval) > 0 ==> wakeInterval == old(wakeInterval)
      ensures 0 < old(minWakeInterval) <= wakeInterval ==> minWakeInterval == old(minWakeInterval)
      ensures old(wakeInterval) <= 0 ==> wakeInterval == 30 * SECOND
      ensures old(minWakeInterval) <= 0 ==> minWakeInterval == if SECOND <= wakeInterval then SECOND else wakeInterval
      ensures minWakeInterval <= delay <= wakeInterval
      ensures forall id :: id in t.schedules && t.schedules[id].enabled && t.schedules[id].nextRunAt.Some? ==>
        now + delay <= t.schedules[id].nextRunAt.value || delay == minWakeInterval
      ensures delay < wakeInterval ==>
        exists id :: id in t.schedules && t.schedules[id].enabled && t.schedules[id].nextRunAt.Some?
                     && t.schedules[id].nextRunAt.value <= now + delay
    {
      if wakeInterval <= 0 { wakeInterval := 30 * SECOND; }
      if minWakeInterval <= 0 { minWakeInterval := SECOND; }
      if minWakeInterval > wakeInterval { minWakeInterval := wakeInterval; }
      var at := NextWakeAt(t);
      if at.None? { return wakeInterval; }
      delay := at.value - now;
      if delay <= minWakeInterval { return minWakeInterval; }
      if delay > wakeInterval { return wakeInterval; }
    }
  }
}
