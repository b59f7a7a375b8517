/** The scheduler's two critical sections, over the manager object. */
module BackupService {
  import opened Basics
  import J = Journal
  import opened JournalManager
  import opened Scheduler

  class BackupService {
    const jobs: Manager
    var schedule: Schedule

    constructor (jobs: Manager, schedule: Schedule)
      ensures this.jobs == jobs && this.schedule == schedule
    {
      this.jobs, this.schedule := jobs, schedule;
    }

    /** Write the schedule row. */
    method PutSchedule(s: Schedule, wr: Write) returns (ok: bool)
      modifies this`schedule
      ensures schedule == (if Stored(wr) then s else old(schedule)) && ok == wr.Landed?
    {
      if Stored(wr) { schedule := s; }
      ok := wr.Landed?;
    }

    /** `targets` are the backup targets on record when the schedule is checked. */
    method SaveSchedule(now: int, q: Schedule, targets: set<string>, wr: Write, ghost w: World) returns (ok: bool)
      requires w.schedule == schedule && w.advance.None? && w.clock <= now
      modifies this`schedule
      ensures schedule == Scheduler.SaveSchedule(w, now, q, targets, wr).schedule
      ensures ok <==> && 1 <= q.hours <= 8760 && 1 <= q.retention <= 1000
                      && (q.target == "" || q.target == "local" || q.target in targets) && wr == Landed
      ensures ok ==> schedule == q.(next := Some(now + q.hours * HOUR))
    {
      if q.hours < 1 || q.hours > 8760 || q.retention < 1 || q.retention > 1000 { return false; }
      if q.target != "" && q.target != "local" && q.target !in targets { return false; }
      ok := PutSchedule(q.(next := Some(now + q.hours * HOUR)), wr);
    }

    /** Submit what is due, then advance: the machine's step, followed by the save of the next due time. */
    method ScheduleDue(now: int, newId: J.JobId, removed: bool, w1: Write, w2: Write, format: Format, ghost w: World)
      returns (ok: bool, ghost victim: J.JobId)
      requires jobs.up && newId !in jobs.past.used
      requires w.journal == jobs.View() && w.schedule == schedule && w.advance.None? && w.clock <= now
      modifies this`schedule, jobs
      ensures var after := SaveNext(Scheduler.ScheduleDue(w, now, newId, victim, removed, w1, format), w2);
              after.journal == jobs.View() && after.schedule == schedule && after.advance.None?
      ensures var due := old(schedule).enabled && old(schedule).next.Some? && old(schedule).next.value <= now;
              && (!due ==> ok && schedule == old(schedule) && jobs.View() == old(jobs.View()))
              && (due && ok ==> schedule == old(schedule).(next := Some(now + old(schedule).hours * 3_600_000_000_000)))
              && (schedule != old(schedule) ==> due)
    {
      hide J.Submit, J.Accepts, J.Duplicate;
      victim := 0;
      if !schedule.enabled || schedule.next.None? || now < schedule.next.value { return true, victim; }
      var created;
      ok, created, victim := jobs.Submit(KIND, DedupeKey(schedule.next.value, format), newId, now, removed, w1);
      if !ok { return; }
      ok := PutSchedule(schedule.(next := Some(now + schedule.hours * HOUR)), w2);
    }
  }
}
