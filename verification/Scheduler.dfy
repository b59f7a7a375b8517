/**
 The backup scheduler on top of the job journal: a due time is submitted as a job first and advanced
 afterwards, so a crash or a failed write in between repeats the submission, and the journal's dedupe
 key turns the repetition into the job that exists. Times are nanoseconds.
 */
module Scheduler {
  import opened Basics
  import J = Journal
  import opened JournalLabels
  import S = JournalSafety

  const HOUR := 3_600_000_000_000
  const KIND := "backup-create"

  datatype Schedule = Schedule(enabled: bool, hours: int, retention: int, target: string, next: Option<int>)

  predicate InRange(q: Schedule) { 1 <= q.hours <= 8760 && 1 <= q.retention <= 1000 }

  /** The empty name means the local target; every other target has to be on record. */
  predicate TargetKnown(target: string, targets: set<string>) { target == "" || target == "local" || target in targets }

  /** A job the scheduler created: its due time, and the jobs the manager held at that moment. */
  datatype Entry = Entry(due: int, id: J.JobId, held: set<J.JobId>)

  /** `advance` is the due time a call that holds the mutex has yet to save; `accepted` and `labels` are history. */
  datatype World = World(
    journal: J.World, schedule: Schedule, clock: int, advance: Option<int>, accepted: seq<Entry>, labels: Labels)

  const FreshWorld := World(J.FreshWorld, Schedule(false, 6, 20, "local", None), 0, None, [], map[])

  /** The text of a due time; any formatting will do. */
  type Format = int -> string

  function DedupeKey(due: int, format: Format): string { "backup:" + format(due) }

  ghost predicate IsDue(w: World, now: int) {
    && w.advance.None? && w.clock <= now && w.journal.mem.Some?
    && w.schedule.enabled && w.schedule.next.Some? && w.schedule.next.value <= now
  }

  /** Submit the due time; a job that already has this key counts as submitted. */
  ghost function ScheduleDue(w: World, now: int, id: J.JobId, victim: J.JobId, removed: bool, wr: Write,
                             format: Format): World {
    if !IsDue(w, now) then w
    else
      var due := w.schedule.next.value;
      var key := DedupeKey(due, format);
      var jobs := w.journal.mem.value.jobs;
      var created := J.Accepts(w.journal, KIND, key, id, victim, removed, wr);
      var j1 := J.Submit(w.journal, KIND, key, id, now, victim, removed, wr);
      w.(journal := j1, clock := now,
         advance := if created || J.Duplicate(jobs, KIND, key) then Some(now + w.schedule.hours * HOUR) else None,
         accepted := if created then w.accepted + [Entry(due, id, jobs.Keys)] else w.accepted,
         labels := if j1.used == w.journal.used then w.labels else w.labels[id := (KIND, key)])
  }

  /** Save the next due time and release the mutex. */
  function SaveNext(w: World, wr: Write): World {
    if w.advance.None? then w
    else w.(schedule := if Stored(wr) then w.schedule.(next := w.advance) else w.schedule, advance := None)
  }

  function SaveSchedule(w: World, now: int, q: Schedule, targets: set<string>, wr: Write): World {
    if w.advance.Some? || now < w.clock || !InRange(q) || !TargetKnown(q.target, targets) then w
    else w.(clock := now, schedule := if Stored(wr) then q.(next := Some(now + q.hours * HOUR)) else w.schedule)
  }

  /** Everything else the journal does, submissions by others included; a crash releases the mutex. */
  ghost function Other(w: World, s: J.Step): World {
    var j1 := J.Next(w.journal, s);
    w.(journal := j1, advance := if s.SCrash? then None else w.advance,
       labels := if Creates(s) && j1.used != w.journal.used then w.labels[s.id := Tag(s)] else w.labels)
  }

  datatype Step =
    | SDue(now: int, id: J.JobId, victim: J.JobId, removed: bool, wr: Write)
    | SSaveNext(wr: Write)
    | SSaveSchedule(now: int, q: Schedule, targets: set<string>, wr: Write)
    | SOther(step: J.Step)

  ghost function Apply(w: World, s: Step, format: Format): World {
    match s
    case SDue(now, id, victim, removed, wr) => ScheduleDue(w, now, id, victim, removed, wr, format)
    case SSaveNext(wr) => SaveNext(w, wr)
    case SSaveSchedule(now, q, targets, wr) => SaveSchedule(w, now, q, targets, wr)
    case SOther(step) => Other(w, step)
  }

  ghost function Run(steps: seq<Step>, format: Format): World {
    if steps == [] then FreshWorld else Apply(Run(steps[..|steps| - 1], format), steps[|steps| - 1], format)
  }

  // ---------------------------------------------------------------- what every step keeps

  /** Due times increase, unless the earlier job was no longer held when its due time was submitted again. */
  ghost predicate Increasing(accepted: seq<Entry>) {
    forall i, j :: 0 <= i < j < |accepted| ==>
                     accepted[i].due < accepted[j].due
                       || (accepted[i].due == accepted[j].due && accepted[i].id !in accepted[j].held)
  }

  ghost predicate Bounded(accepted: seq<Entry>, limit: int) {
    forall i :: 0 <= i < |accepted| ==> accepted[i].due <= limit
  }

  ghost predicate Keyed(accepted: seq<Entry>, labels: Labels, format: Format) {
    forall i :: 0 <= i < |accepted| ==>
      accepted[i].id in labels && labels[accepted[i].id] == (KIND, DedupeKey(accepted[i].due, format))
  }

  ghost predicate Inv(w: World, format: Format) {
    && WorldLabelled(w.journal, w.labels) && Keyed(w.accepted, w.labels, format)
    && Increasing(w.accepted) && Bounded(w.accepted, w.clock)
    && (w.schedule.next.Some? ==> Bounded(w.accepted, w.schedule.next.value))
    && (w.advance.Some? ==> Bounded(w.accepted, w.advance.value)) && InRange(w.schedule)
  }

  lemma NewLabel(w: J.World, l: Labels, id: J.JobId, accepted: seq<Entry>, tag: (string, string), format: Format)
    requires l.Keys <= w.used && id !in w.used && Keyed(accepted, l, format)
    ensures Keyed(accepted, l[id := tag], format)
  {
  }

  lemma DueKeeps(w: World, now: int, id: J.JobId, victim: J.JobId, removed: bool, wr: Write, format: Format)
    requires Inv(w, format)
    ensures Inv(ScheduleDue(w, now, id, victim, removed, wr, format), format)
  {
    hide J.Available, J.Oldest, WorldLabelled;
    if IsDue(w, now) {
      var due := w.schedule.next.value;
      var key := DedupeKey(due, format);
      var s := J.SSubmit(KIND, key, id, now, victim, removed, wr);
      CreateKeepsLabels(w.journal, w.labels, s);
      SubmitUses(w.journal, w.labels, key, id, now, victim, removed, wr);
      if J.Submit(w.journal, KIND, key, id, now, victim, removed, wr).used != w.journal.used {
        NewLabel(w.journal, w.labels, id, w.accepted, (KIND, key), format);
      }
      if J.Accepts(w.journal, KIND, key, id, victim, removed, wr) {
        NotHeld(w, due, format);
        AcceptKeeps(w.accepted, Entry(due, id, w.journal.mem.value.jobs.Keys), w.labels[id := (KIND, key)], format);
      }
      hide Increasing, Keyed, J.Accepts, J.Submit, J.Duplicate;
    }
  }

  /** A due time that no held job has, and that none exceeds, continues the order. */
  lemma AcceptKeeps(accepted: seq<Entry>, e: Entry, l: Labels, format: Format)
    requires Keyed(accepted, l, format) && e.id in l && l[e.id] == (KIND, DedupeKey(e.due, format))
    requires Increasing(accepted) && Bounded(accepted, e.due)
    requires forall i :: 0 <= i < |accepted| && accepted[i].due == e.due ==> accepted[i].id !in e.held
    ensures Increasing(accepted + [e]) && Keyed(accepted + [e], l, format)
  {
  }

  lemma SubmitUses(w: J.World, l: Labels, key: string, id: J.JobId, now: int, victim: J.JobId, removed: bool, wr: Write)
    requires w.mem.Some? && WorldLabelled(w, l)
    ensures var used := J.Submit(w, KIND, key, id, now, victim, removed, wr).used;
            && (used != w.used ==> id !in w.used) && l.Keys <= w.used
            && (J.Accepts(w, KIND, key, id, victim, removed, wr) ==> used != w.used)
  {
    hide J.Available, J.Oldest, J.Duplicate;
    assert id !in w.used ==> id in w.used + {id};
  }

  /** The dedupe check refuses a key the manager still holds. */
  lemma NotHeld(w: World, due: int, format: Format)
    requires WorldLabelled(w.journal, w.labels) && Keyed(w.accepted, w.labels, format) && w.journal.mem.Some?
    requires !J.Duplicate(w.journal.mem.value.jobs, KIND, DedupeKey(due, format))
    ensures forall i :: 0 <= i < |w.accepted| && w.accepted[i].due == due ==>
            w.accepted[i].id !in w.journal.mem.value.jobs
  {
  }

  lemma OtherKeeps(w: World, s: J.Step, format: Format)
    requires Inv(w, format)
    ensures Inv(Other(w, s), format)
  {
    hide J.Apply;
    var w0 := w.journal.(tick := w.journal.tick + 1);
    assert WorldLabelled(w0, w.labels);
    if Creates(s) {
      CreateKeepsLabels(w0, w.labels, s);
      if J.Apply(w0, s).used != w.journal.used { CreatesFresh(w0, s); }
    } else {
      StepKeepsLabels(w0, w.labels, s);
    }
  }

  lemma {:induction false} RunKeeps(steps: seq<Step>, format: Format)
    ensures Inv(Run(steps, format), format)
  {
    if steps != [] {
      var w, s := Run(steps[..|steps| - 1], format), steps[|steps| - 1];
      RunKeeps(steps[..|steps| - 1], format);
      match s
      case SDue(now, id, victim, removed, wr) => hide Inv; DueKeeps(w, now, id, victim, removed, wr, format);
      case SOther(step) => hide Inv; OtherKeeps(w, step, format);
      case SSaveNext(wr) => hide WorldLabelled;
      case SSaveSchedule(now, q, targets, wr) => hide WorldLabelled;
    } else {
      assert Inv(FreshWorld, format);
    }
  }

  /**
   Across crashes and failed schedule writes, at most one job is created per due time while that job is
   retained, and a newly submitted due time is later than every earlier one; a due time comes back only
   when its job is no longer held. The stored schedule is in range throughout.
   */
  lemma OneJobPerDueTime(steps: seq<Step>, format: Format, i: nat, j: nat)
    requires i < j < |Run(steps, format).accepted|
    ensures var a := Run(steps, format).accepted;
            && a[i].due <= a[j].due
            && (a[i].id in a[j].held ==> a[i].due < a[j].due)
    ensures InRange(Run(steps, format).schedule)
  {
    RunKeeps(steps, format);
  }

  /** A refused submission leaves a record behind exactly when its first save landed although it failed. */
  lemma RefusedSubmissionLeavesRecordIff(w: J.World, key: string, id: J.JobId, now: int, victim: J.JobId, removed: bool,
                                         wr: Write)
    requires w.mem.Some? && id !in w.used && id !in w.disk
    requires !J.Accepts(w, KIND, key, id, victim, removed, wr)
    ensures id in J.Submit(w, KIND, key, id, now, victim, removed, wr).disk
            <==> wr.FailedNew? && J.Accepts(w, KIND, key, id, victim, removed, Landed)
    ensures var disk := J.Submit(w, KIND, key, id, now, victim, removed, wr).disk;
            id in disk ==> J.AwaitsReview(J.Recover(disk[id]))
  {
    hide J.Available, J.Oldest, J.Duplicate;
  }

  ghost function Restarted(w: J.World): J.World { J.Next(J.Next(w, J.SCrash), J.SOpen) }

  lemma RestartQueued(w: J.World, id: J.JobId)
    requires S.Inv(w)
    ensures S.Inv(Restarted(w)) && (id in Restarted(w).disk <==> id in w.disk)
    ensures id in w.disk && J.AwaitsReview(J.Recover(w.disk[id])) ==> S.Waits(Restarted(w), id)
  {
    hide S.Inv;
    S.StepKeepsInv(w, w.tick + 1, J.SCrash);
    S.StepKeepsInv(J.Next(w, J.SCrash), w.tick + 2, J.SOpen);
  }

  lemma SubmitKeepsInv(w: J.World, s: J.Step)
    requires S.Inv(w) && w.mem.Some? && s.SSubmit? && s.kind == KIND
    ensures w.disk.Keys <= w.used && S.Inv(J.Next(w, s))
    ensures J.Next(w, s) ==
            J.Submit(w.(tick := w.tick + 1), KIND, s.dedupe, s.id, s.now, s.victim, s.removed, s.wr)
  {
    assert w.disk.Keys <= w.used;
    hide S.Inv, J.Submit;
    S.StepKeepsInv(w, w.tick + 1, s);
  }

  lemma TickIsFree(w: J.World, key: string, id: J.JobId, victim: J.JobId, removed: bool)
    ensures forall wr :: J.Accepts(w.(tick := w.tick + 1), KIND, key, id, victim, removed, wr)
                         == J.Accepts(w, KIND, key, id, victim, removed, wr)
  {
  }

  /**
   A submission that reported an error comes back after the next start exactly when its first save landed
   although it failed. It then waits for review, and until it is acknowledged no runner starts and no
   command goes out, whatever the journal does.
   */
  lemma RefusedSubmissionBlocksIff(w: J.World, key: string, id: J.JobId, now: int, victim: J.JobId, removed: bool,
                                   wr: Write, steps: seq<J.Step>)
    requires S.Inv(w) && w.mem.Some? && id !in w.used && !J.Accepts(w, KIND, key, id, victim, removed, wr)
    requires forall i :: 0 <= i < |steps| ==> !S.Acknowledges(steps[i], id)
    ensures var w1 := Restarted(J.Next(w, J.SSubmit(KIND, key, id, now, victim, removed, wr)));
            && (id in w1.disk <==> wr.FailedNew? && J.Accepts(w, KIND, key, id, victim, removed, Landed))
            && (id in w1.disk ==> var w2 := J.Run(w1, steps);
                                  S.Waits(w2, id) && w2.started == w1.started && w2.dispatched == w1.dispatched)
  {
    hide S.Inv, S.Waits, J.Available, J.Oldest, J.Duplicate, J.Submit, J.Run, J.Next, J.Apply, Restarted, J.Recover,
         J.AwaitsReview, J.Accepts;
    var s := J.SSubmit(KIND, key, id, now, victim, removed, wr);
    var w0 := J.Next(w, s);
    SubmitKeepsInv(w, s);
    TickIsFree(w, key, id, victim, removed);
    RefusedSubmissionLeavesRecordIff(w.(tick := w.tick + 1), key, id, now, victim, removed, wr);
    RestartQueued(w0, id);
    if id in w0.disk { S.GateUntilAcknowledged(Restarted(w0), steps, id); }
  }
}
