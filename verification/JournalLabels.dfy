/** What a job is for never changes: kind and dedupe key stay with its record through every journal step. */
module JournalLabels {
  import opened Basics
  import opened Reconcile
  import opened Journal

  type Labels = map<JobId, (string, string)>

  ghost predicate Labelled(t: map<JobId, Job>, l: Labels) {
    forall id :: id in t ==> id in l && l[id] == (t[id].kind, t[id].dedupe)
  }

  ghost predicate WorldLabelled(w: World, l: Labels) {
    && l.Keys <= w.used && Labelled(w.disk, l) && (w.mem.Some? ==> Labelled(w.mem.value.jobs, l))
  }

  ghost predicate SameLabel(a: Job, b: Job) { a.kind == b.kind && a.dedupe == b.dedupe }

  lemma OpenLabels(w: World, l: Labels, done: set<JobId>)
    requires WorldLabelled(w, l)
    ensures WorldLabelled(OpenWorld(w), l) && WorldLabelled(OpenFailed(w, done), l)
  {
  }

  lemma RunLabels(w: World, l: Labels, s: Step)
    requires WorldLabelled(w, l) && (s.SRunPersist? || s.SRunAdmit? || s.SRunnerReturn? || s.SRunFinish? || s.SLog?)
    ensures WorldLabelled(Apply(w, s), l)
  {
    hide FinalStatus;
  }

  lemma DeskLabels(w: World, l: Labels, s: Step)
    requires WorldLabelled(w, l)
             && (s.SStop? || s.SAcknowledge? || s.SReview? || s.SObserve? || s.SReserve? || s.SManualFinish?)
    ensures WorldLabelled(Apply(w, s), l)
  {
    if s.SReserve? || s.SManualFinish? { ManualLabels(w, l, s); } else { OperatorLabels(w, l, s); }
  }

  lemma ManualLabels(w: World, l: Labels, s: Step)
    requires WorldLabelled(w, l) && (s.SReserve? || s.SManualFinish?)
    ensures WorldLabelled(Apply(w, s), l)
  {
    hide AllResolved, Available;
  }

  lemma OperatorLabels(w: World, l: Labels, s: Step)
    requires WorldLabelled(w, l) && (s.SStop? || s.SAcknowledge? || s.SReview? || s.SObserve?)
    ensures WorldLabelled(Apply(w, s), l)
  {
    hide Evaluate, Undecided, ObservationAllowed;
  }

  lemma BeginLabels(w: World, l: Labels, id: JobId, iid: string, action: Action, identity: Identity, now: int, v1: bool,
                    wr: Write, v2: bool)
    requires WorldLabelled(w, l) && w.mem.Some? && id in w.mem.value.jobs
    ensures WorldLabelled(BeginIntent(w, id, iid, action, identity, now, v1, wr, v2).0, l)
  {
    hide IntentAdmitted, HasId, WorldLabelled, PutJob;
    var j := w.mem.value.jobs[id];
    var intents := j.intents + [NewIntent(w.mem.value, iid, action, identity, now)];
    PutLabels(w, l, id, j.(intents := intents, verdict := Unknown), wr);
    PutLabels(w, l, id, j.(verdict := RequiresReview), wr);
  }

  lemma PutLabels(w: World, l: Labels, id: JobId, j: Job, wr: Write)
    requires WorldLabelled(w, l) && w.mem.Some? && id in w.mem.value.jobs && SameLabel(w.mem.value.jobs[id], j)
    ensures WorldLabelled(PutJob(w, id, j, wr), l)
  {
  }

  lemma CommandLabels(w: World, l: Labels, s: Step)
    requires WorldLabelled(w, l)
    requires s.SResource? || s.SCmdCheck? || s.SCmdBegin? || s.SCmdGuard? || s.SCmdValidate? || s.SCmdCall?
             || s.SCmdStamp? || s.SCmdAbort?
    ensures WorldLabelled(Apply(w, s), l)
  {
    hide BeginIntent, AllReceipted, AllResolved, WorldLabelled;
    match s
    case SResource(slot, iid, action, identity, now, v1, wr, v2) =>
      if Acting(w, slot) {
        BeginLabels(w, l, ExecOf(w.mem.value, slot).value.id, iid, action, identity, now, v1, wr, v2);
      }
    case SCmdBegin(slot, identity, now, v1, wr, v2) =>
      if Acting(w, slot) && ExecOf(w.mem.value, slot).value.cmd.Checked? {
        CmdBeginLabels(w, l, slot, identity, now, v1, wr, v2);
      }
    case SCmdStamp(slot, now, wr) => StampLabels(w, l, slot, now, wr);
    case _ => PhaseLabels(w, l, s);
  }

  lemma CmdBeginLabels(w: World, l: Labels, slot: Slot, identity: Identity, now: int, v1: bool, wr: Write, v2: bool)
    requires WorldLabelled(w, l) && Acting(w, slot) && ExecOf(w.mem.value, slot).value.cmd.Checked?
    ensures WorldLabelled(CmdBegin(w, slot, identity, now, v1, wr, v2), l)
  {
    hide BeginIntent, CommandId;
    var e := ExecOf(w.mem.value, slot).value;
    var idle := WithCmd(w, slot, Idle);
    BeginLabels(idle, l, e.id, CommandId(e.cmd.sequence), Command, identity, now, v1, wr, v2);
    BeginSlot(idle, slot, e.id, CommandId(e.cmd.sequence), Command, identity, now, v1, wr, v2);
  }

  lemma BeginSlot(w: World, slot: Slot, id: JobId, iid: string, action: Action, identity: Identity, now: int, v1: bool,
                  wr: Write, v2: bool)
    requires w.mem.Some? && id in w.mem.value.jobs
    ensures var r := BeginIntent(w, id, iid, action, identity, now, v1, wr, v2).0;
            r.mem.Some? && ExecOf(r.mem.value, slot) == ExecOf(w.mem.value, slot)
  {
    hide IntentAdmitted, HasId;
  }

  lemma StampLabels(w: World, l: Labels, slot: Slot, now: int, wr: Write)
    requires WorldLabelled(w, l)
    ensures WorldLabelled(CmdStamp(w, slot, now, wr), l)
  {
    hide StampAll, AllResolved;
  }

  lemma PhaseLabels(w: World, l: Labels, s: Step)
    requires WorldLabelled(w, l) && (s.SCmdCheck? || s.SCmdGuard? || s.SCmdValidate? || s.SCmdCall? || s.SCmdAbort?)
    ensures WorldLabelled(Apply(w, s), l)
  {
    hide AllReceipted;
  }

  predicate Creates(s: Step) { s.SSubmit? || s.SManualBegin? }

  lemma StepKeepsLabels(w: World, l: Labels, s: Step)
    requires WorldLabelled(w, l) && !Creates(s)
    ensures WorldLabelled(Apply(w, s), l)
  {
    if s.SOpen? || s.SOpenFailed? {
      OpenLabels(w, l, if s.SOpenFailed? then s.done else {});
    } else if s.SRunPersist? || s.SRunAdmit? || s.SRunnerReturn? || s.SRunFinish? || s.SLog? {
      hide Apply, WorldLabelled;
      RunLabels(w, l, s);
    } else if s.SStop? || s.SAcknowledge? || s.SReview? || s.SObserve? || s.SReserve? || s.SManualFinish? {
      hide Apply, WorldLabelled;
      DeskLabels(w, l, s);
    } else if s.SResource? || s.SCmdCheck? || s.SCmdBegin? || s.SCmdGuard? || s.SCmdValidate? || s.SCmdCall?
        || s.SCmdStamp? || s.SCmdAbort? {
      hide Apply, WorldLabelled;
      CommandLabels(w, l, s);
    }
  }

  /** What a new job is for. */
  function Tag(s: Step): (string, string)
    requires Creates(s)
  {
    if s.SSubmit? then (s.kind, s.dedupe) else ("manual-command", "")
  }

  /** A new job brings its own label. */
  lemma CreateKeepsLabels(w: World, l: Labels, s: Step)
    requires WorldLabelled(w, l) && Creates(s)
    ensures var w1 := Apply(w, s); WorldLabelled(w1, if w1.used == w.used then l else l[s.id := Tag(s)])
  {
    hide Duplicate, Available, Oldest;
  }

  lemma CreatesFresh(w: World, s: Step)
    requires Creates(s) && Apply(w, s).used != w.used
    ensures s.id !in w.used
  {
    hide Available, Oldest, Duplicate;
  }
}
