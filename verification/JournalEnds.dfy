/**
 How records end. The three statuses of an ended job are never written for another reason than their own,
 in memory or storage, over every run; whatever is not certain is interrupted.
 */
module JournalEnds {
  import opened Basics
  import opened Reconcile
  import opened Journal
  import S = JournalSafety

  /** Nothing about these intents is left open: each had its effect, or was refused before any. */
  predicate Settled(s: seq<Intent>) {
    forall i :: i in s ==>
      i.outcome == Succeeded
      || (i.action == Command && i.outcome == Failed && i.evidence.Some?
          && i.evidence.value.source == CommandRejected && i.evidence.value.state == Rejected)
  }

  lemma ResolvedIsSettled(s: seq<Intent>)
    ensures AllResolved(s) <==> Settled(s)
  {
    assert forall n :: 0 <= n < |s| ==> s[n] in s;
  }

  /** Some record of the job, in memory or storage, has this status. */
  ghost predicate Has(w: World, id: JobId, st: Status) {
    || (id in w.disk && w.disk[id].status == st)
    || (w.mem.Some? && id in w.mem.value.jobs && w.mem.value.jobs[id].status == st)
  }

  /** The step ends the job in this way, from a state that bears it out. */
  ghost predicate Ends(m: Memory, s: Step, id: JobId, st: Status) {
    && id in m.jobs && Settled(m.jobs[id].intents)
    && (|| (&& s.SRunFinish? && m.run.Some? && m.run.value.id == id && !m.closed && !m.storageErr
            && m.run.value.phase.Ending?
            && (st.JobSucceeded? ==> m.run.value.phase.result == NoError)
            && (st.JobStopped? ==> m.run.value.phase.result == StopError)
            && (st.JobFailed? ==> m.run.value.phase.result == OtherError))
        || (&& s.SManualFinish? && st.JobSucceeded? && m.scribe.Some? && m.scribe.value.id == id
            && !s.failed && !s.cancelled))
  }

  ghost predicate Explained(w: World, s: Step, id: JobId, st: Status) {
    Has(Apply(w, s), id, st) && !Has(w, id, st) ==> w.mem.Some? && Ends(w.mem.value, s, id, st)
  }

  // ---------------------------------------------------------------- one step

  lemma PutHas(w: World, id: JobId, j: Job, wr: Write, k: JobId, st: Status)
    requires w.mem.Some? && id in w.mem.value.jobs && j.status == w.mem.value.jobs[id].status
    ensures Has(PutJob(w, id, j, wr), k, st) ==> Has(w, k, st)
  {
  }

  lemma FinishExplained(w: World, wr: Write, k: JobId, st: Status)
    requires Ended(st)
    ensures Explained(w, SRunFinish(wr), k, st)
  {
    hide AllResolved, Settled;
    if w.mem.Some? && w.mem.value.run.Some? && w.mem.value.run.value.id in w.mem.value.jobs {
      ResolvedIsSettled(w.mem.value.jobs[w.mem.value.run.value.id].intents);
    }
  }

  lemma PutHasAtMost(w: World, id: JobId, j: Job, wr: Write, k: JobId, st: Status)
    requires w.mem.Some?
    ensures var w1 := PutJob(w, id, j, wr);
            w1.mem.Some? && (Has(w1, k, st) ==> Has(w, k, st) || (k == id && j.status == st))
  {
  }

  /** Reservations, executions and the clock have no status. */
  lemma SameJobsHave(w: World, w1: World, k: JobId, st: Status)
    requires w1.disk == w.disk && w.mem.Some? && w1.mem.Some? && w1.mem.value.jobs == w.mem.value.jobs
    ensures Has(w1, k, st) == Has(w, k, st)
  {
  }

  lemma ManualFinishExplained(w: World, failed: bool, cancelled: bool, wr: Write, k: JobId, st: Status)
    requires Ended(st)
    ensures Explained(w, SManualFinish(failed, cancelled, wr), k, st)
  {
    hide AllResolved, Settled, Has, PutJob;
    var w1 := ManualFinish(w, failed, cancelled, wr);
    if w.mem.Some? && w.mem.value.manual.Reserved? && w1 != w {
      if w.mem.value.scribe.None? {
        SameJobsHave(w, w1, k, st);
      } else {
        var j := w.mem.value.jobs[w.mem.value.scribe.value.id];
        var bad := failed || cancelled || !AllResolved(j.intents);
        var closed := if bad then j.(status := Interrupted, verdict := Unknown) else j.(status := JobSucceeded);
        ResolvedIsSettled(j.intents);
        PutHasAtMost(w, w.mem.value.scribe.value.id, closed, wr, k, st);
        SameJobsHave(PutJob(w, w.mem.value.scribe.value.id, closed, wr), w1, k, st);
      }
    }
  }

  lemma JobStepExplained(w: World, s: Step, k: JobId, st: Status)
    requires Ended(st) && S.JobStep(s) && !s.SRunFinish?
    ensures Explained(w, s, k, st)
  {
    hide Duplicate, Available, Oldest, Settled, AllResolved;
  }

  lemma DeskStepExplained(w: World, s: Step, k: JobId, st: Status)
    requires Ended(st) && (s.SStop? || s.SAcknowledge? || s.SReview? || s.SObserve?)
    ensures Explained(w, s, k, st)
  {
    hide Evaluate, Undecided, ObservationAllowed, Settled, AllResolved;
  }

  lemma ReserveStepExplained(w: World, s: Step, k: JobId, st: Status)
    requires Ended(st) && (s.SReserve? || s.SManualBegin?)
    ensures Explained(w, s, k, st)
  {
    hide Available, Settled;
  }

  lemma BeginHas(w: World, id: JobId, iid: string, action: Action, identity: Identity, now: int, v1: bool, wr: Write,
                 v2: bool, k: JobId, st: Status)
    requires w.mem.Some? && id in w.mem.value.jobs
    ensures var w1 := BeginIntent(w, id, iid, action, identity, now, v1, wr, v2).0;
            w1.mem.Some? && (Has(w1, k, st) ==> Has(w, k, st))
  {
    hide IntentAdmitted, HasId, Has, PutJob;
    var j := w.mem.value.jobs[id];
    var intents := j.intents + [NewIntent(w.mem.value, iid, action, identity, now)];
    PutHas(w, id, j.(intents := intents, verdict := Unknown), wr, k, st);
    PutHas(w, id, j.(verdict := RequiresReview), wr, k, st);
    assert PutJob(w, id, j, wr).mem.Some? by { PutOpen(w, id, wr); }
    PutOpen(w, id, wr);
  }

  lemma PutOpen(w: World, id: JobId, wr: Write)
    requires w.mem.Some?
    ensures forall j :: PutJob(w, id, j, wr).mem.Some?
  {
  }

  lemma IntentStepExplained(w: World, s: Step, k: JobId, st: Status)
    requires Ended(st) && (s.SResource? || s.SCmdBegin?)
    ensures Explained(w, s, k, st)
  {
    hide BeginIntent, AllReceipted, CommandId, Ends;
    if Acting(w, s.slot) {
      var e := ExecOf(w.mem.value, s.slot).value;
      match s
      case SResource(slot, iid, action, identity, now, v1, wr, v2) =>
        BeginHas(w, e.id, iid, action, identity, now, v1, wr, v2, k, st);
      case SCmdBegin(slot, identity, now, v1, wr, v2) =>
        if e.cmd.Checked? { CmdBeginHas(w, slot, identity, now, v1, wr, v2, k, st); }
    }
  }

  lemma CmdBeginHas(w: World, slot: Slot, identity: Identity, now: int, v1: bool, wr: Write, v2: bool, k: JobId,
                    st: Status)
    requires Acting(w, slot) && ExecOf(w.mem.value, slot).value.cmd.Checked?
    ensures Has(CmdBegin(w, slot, identity, now, v1, wr, v2), k, st) ==> Has(w, k, st)
  {
    hide BeginIntent, CommandId;
    var e := ExecOf(w.mem.value, slot).value;
    BeginHas(WithCmd(w, slot, Idle), e.id, CommandId(e.cmd.sequence), Command, identity, now, v1, wr, v2, k, st);
  }

  lemma CommandStepExplained(w: World, s: Step, k: JobId, st: Status)
    requires Ended(st) && S.CommandStep(s) && !s.SResource? && !s.SCmdBegin?
    ensures Explained(w, s, k, st)
  {
    hide AllReceipted, AllResolved, StampAll, Settled;
  }

  lemma OpenExplained(w: World, s: Step, k: JobId, st: Status)
    requires Ended(st) && (s.SOpen? || s.SOpenFailed?)
    ensures Explained(w, s, k, st)
  {
    hide Settled;
  }

  lemma StepExplained(w: World, s: Step, k: JobId, st: Status)
    requires Ended(st)
    ensures Explained(w, s, k, st)
  {
    if s.SOpen? || s.SOpenFailed? {
      OpenExplained(w, s, k, st);
    } else if s.SRunFinish? {
      FinishExplained(w, s.wr, k, st);
    } else if s.SManualFinish? {
      ManualFinishExplained(w, s.failed, s.cancelled, s.wr, k, st);
    } else if S.JobStep(s) {
      JobStepExplained(w, s, k, st);
    } else if s.SReserve? || s.SManualBegin? {
      ReserveStepExplained(w, s, k, st);
    } else if S.DeskStep(s) {
      DeskStepExplained(w, s, k, st);
    } else if s.SResource? || s.SCmdBegin? {
      IntentStepExplained(w, s, k, st);
    } else if S.CommandStep(s) {
      CommandStepExplained(w, s, k, st);
    } else {
      QuietStepExplained(w, s, k, st);
    }
  }

  lemma QuietStepExplained(w: World, s: Step, k: JobId, st: Status)
    requires !S.JobStep(s) && !S.DeskStep(s) && !S.CommandStep(s) && !s.SOpen? && !s.SOpenFailed?
    ensures Explained(w, s, k, st)
  {
    hide Settled, Available;
  }

  // ---------------------------------------------------------------- every run

  /** Some earlier step of the run ended the job in this way. */
  ghost predicate EndedBy(steps: seq<Step>, i: nat, id: JobId, st: Status)
    requires i < |steps|
  {
    var w := Run(FreshWorld, steps[..i]); w.mem.Some? && Ends(w.mem.value, steps[i], id, st)
  }

  lemma {:induction false} EveryEnd(steps: seq<Step>, id: JobId, st: Status) returns (i: nat)
    requires Ended(st) && Has(Run(FreshWorld, steps), id, st)
    ensures i < |steps| && EndedBy(steps, i, id, st)
  {
    hide Ends, Has, Apply;
    assert FreshWorld.mem.None? && !Has(FreshWorld, id, st) by { NothingHas(id, st); }
    assert steps != [];
    var front, last := steps[..|steps| - 1], steps[|steps| - 1];
    var w := Run(FreshWorld, front);
    var w1 := w.(tick := w.tick + 1);
    assert Has(w1, id, st) == Has(w, id, st) by { TickHas(w, w.tick + 1, id, st); }
    if Has(w, id, st) {
      i := EveryEnd(front, id, st);
      assert front[..i] == steps[..i] && front[i] == steps[i];
    } else {
      StepExplained(w1, last, id, st);
      i := |front|;
      assert steps[..i] == front;
    }
  }

  lemma NothingHas(id: JobId, st: Status)
    ensures !Has(FreshWorld, id, st)
  {
  }

  lemma TickHas(w: World, t: nat, id: JobId, st: Status)
    ensures Has(w.(tick := t), id, st) == Has(w, id, st)
  {
  }

  /**
   Over every run, a record that says succeeded comes from a step that ended a run whose runner returned
   without an error, or a manual command that neither failed nor was cancelled, with every intent settled.
   */
  lemma SucceededForAReason(steps: seq<Step>, id: JobId)
    requires var w := Run(FreshWorld, steps); id in w.disk && w.disk[id].status == JobSucceeded
    ensures exists i :: && 0 <= i < |steps| && Run(FreshWorld, steps[..i]).mem.Some?
                        && var m := Run(FreshWorld, steps[..i]).mem.value;
                           && id in m.jobs && Settled(m.jobs[id].intents)
                           && (|| (&& steps[i].SRunFinish? && m.run.Some? && m.run.value.id == id
                                   && m.run.value.phase == Ending(NoError) && !m.closed && !m.storageErr)
                               || (&& steps[i].SManualFinish? && m.scribe.Some? && m.scribe.value.id == id
                                   && !steps[i].failed && !steps[i].cancelled))
  {
    hide Run, Settled;
    var i := EveryEnd(steps, id, JobSucceeded);
    assert Run(FreshWorld, steps[..i]).mem.Some? && steps[i] == steps[i];
  }

  /** One that says failed, or stopped, comes from a run whose runner returned just that error. */
  lemma FailedForAReason(steps: seq<Step>, id: JobId)
    requires var w := Run(FreshWorld, steps);
             id in w.disk && (w.disk[id].status == JobFailed || w.disk[id].status == JobStopped)
    ensures var result := if Run(FreshWorld, steps).disk[id].status == JobFailed then OtherError else StopError;
            exists i :: && 0 <= i < |steps| && steps[i].SRunFinish? && Run(FreshWorld, steps[..i]).mem.Some?
                        && var m := Run(FreshWorld, steps[..i]).mem.value;
                           && id in m.jobs && Settled(m.jobs[id].intents) && !m.closed && !m.storageErr
                           && m.run.Some? && m.run.value.id == id && m.run.value.phase == Ending(result)
  {
    hide Run, Settled;
    var i := EveryEnd(steps, id, Run(FreshWorld, steps).disk[id].status);
    assert Run(FreshWorld, steps[..i]).mem.Some? && steps[i] == steps[i];
  }
}
