/**
 The order of command intents within a job: at most one command lacks its receipt, and no later command
 follows it. Exactly two kinds of step break it, both made possible by an observation that replaces a
 receipt.
 */
module JournalOrder {
  import opened Basics
  import opened Reconcile
  import opened Journal
  import opened JournalSafety

  /** Job `id` has its commands in order in storage and in memory. */
  ghost predicate InOrder(w: World, id: JobId) {
    && (id in w.disk ==> OpenCommandIsLast(w.disk[id].intents))
    && (w.mem.Some? && id in w.mem.value.jobs ==> OpenCommandIsLast(w.mem.value.jobs[id].intents))
  }

  /** The observation is attached, and what it hits is a command that another command follows. */
  ghost predicate HitsEarlierCommand(w: World, id: JobId, iid: string, o: Observation) {
    && w.mem.Some? && ObservationAllowed(o) && !w.mem.value.storageErr && id in w.mem.value.jobs
    && var s := w.mem.value.jobs[id].intents;
       var k := IndexOf(s, iid);
       k < |s| && s[k].action.Command? && exists n :: k < n < |s| && s[n].action.Command?
  }

  /** A command is begun although an earlier one has lost its receipt since receipts were checked. */
  ghost predicate BeginsBehindOpen(w: World, id: JobId, slot: Slot, identity: Identity, v1: bool) {
    && Acting(w, slot) && ExecOf(w.mem.value, slot).value.id == id
    && ExecOf(w.mem.value, slot).value.cmd.Checked?
    && IntentAdmitted(w.mem.value, w.mem.value.jobs[id], CommandId(ExecOf(w.mem.value, slot).value.cmd.sequence),
                      identity, v1)
    && !AllReceipted(w.mem.value.jobs[id].intents)
  }

  ghost predicate Breaks(w: World, s: Step, id: JobId) {
    match s
    case SObserve(job, iid, o, _, _) => job == id && HitsEarlierCommand(w, id, iid, o)
    case SCmdBegin(slot, identity, _, v1, _, _) => BeginsBehindOpen(w, id, slot, identity, v1)
    case _ => false
  }

  // ---------------------------------------------------------------- one step

  /** Every list of the new state is one of the old state's, or empty. */
  ghost predicate OldLists(w: World, w1: World, id: JobId) {
    && (id in w1.disk ==> OldList(w, id, w1.disk[id].intents))
    && (w1.mem.Some? && id in w1.mem.value.jobs ==> OldList(w, id, w1.mem.value.jobs[id].intents))
  }

  ghost predicate OldList(w: World, id: JobId, s: seq<Intent>) {
    || s == []
    || (id in w.disk && s == w.disk[id].intents)
    || (w.mem.Some? && id in w.mem.value.jobs && s == w.mem.value.jobs[id].intents)
  }

  lemma OldListsInOrder(w: World, w1: World, id: JobId)
    requires InOrder(w, id) && OldLists(w, w1, id)
    ensures InOrder(w1, id)
  {
  }

  lemma JobStepOldLists(w: World, s: Step, id: JobId)
    requires JobStep(s)
    ensures OldLists(w, Apply(w, s), id)
  {
    hide Duplicate, Available, Oldest, FinalStatus;
  }

  lemma DeskStepOldLists(w: World, s: Step, id: JobId)
    requires DeskStep(s) && !s.SObserve?
    ensures OldLists(w, Apply(w, s), id)
  {
    hide Available, AllResolved;
  }

  lemma PhaseStepOldLists(w: World, s: Step, id: JobId)
    requires s.SCmdCheck? || s.SCmdGuard? || s.SCmdValidate? || s.SCmdCall? || s.SCmdAbort?
    ensures OldLists(w, Apply(w, s), id)
  {
    hide AllReceipted;
  }

  lemma RestOldLists(w: World, s: Step, id: JobId)
    requires !JobStep(s) && !DeskStep(s) && !CommandStep(s)
    ensures OldLists(w, Apply(w, s), id)
  {
  }

  /** Saving a job whose list is out of order is seen in memory, whatever the write does. */
  lemma PutInOrderIff(w: World, id: JobId, job: JobId, j: Job, wr: Write)
    requires InOrder(w, id) && w.mem.Some?
    ensures InOrder(PutJob(w, job, j, wr), id) <==> (job == id ==> OpenCommandIsLast(j.intents))
  {
  }

  /** An observation keeps the order exactly when it does not hit a command that another command follows. */
  lemma ObservedInOrderIff(j: Job, iid: string, o: Observation, now: int)
    requires OpenCommandIsLast(j.intents) && ObservationAllowed(o) && IndexOf(j.intents, iid) < |j.intents|
    ensures var k := IndexOf(j.intents, iid);
            OpenCommandIsLast(Observed(j, iid, o, now).intents) <==>
            !(j.intents[k].action.Command? && exists n :: k < n < |j.intents| && j.intents[n].action.Command?)
  {
    var k := IndexOf(j.intents, iid);
    var s, t := j.intents, Observed(j, iid, o, now).intents;
    assert !Receipt(t[k]);
    assert forall n :: 0 <= n < |s| ==> t[n].action == s[n].action && (n != k ==> t[n] == s[n]);
  }

  lemma ObserveInOrderIff(w: World, id: JobId, s: Step)
    requires InOrder(w, id) && s.SObserve?
    ensures InOrder(Apply(w, s), id) <==> !Breaks(w, s, id)
  {
    if w.mem.Some? && ObservationAllowed(s.o) && !w.mem.value.storageErr && s.id in w.mem.value.jobs {
      var j := w.mem.value.jobs[s.id];
      if IndexOf(j.intents, s.iid) < |j.intents| {
        PutInOrderIff(w, id, s.id, Observed(j, s.iid, s.o, s.now), s.wr);
        if s.id == id { ObservedInOrderIff(j, s.iid, s.o, s.now); }
      }
    }
  }

  lemma AppendedInOrderIff(s: seq<Intent>, i: Intent)
    requires OpenCommandIsLast(s)
    ensures OpenCommandIsLast(s + [i]) <==> !i.action.Command? || AllReceipted(s)
  {
    var t := s + [i];
    assert forall k :: 0 <= k < |s| ==> t[k] == s[k];
    assert t[|s|] == i;
  }

  /** Beginning an intent keeps the order unless it appends a command behind one without a receipt. */
  lemma BeginInOrderIff(w: World, id: JobId, job: JobId, iid: string, action: Action, identity: Identity, now: int,
                        v1: bool, wr: Write, v2: bool)
    requires InOrder(w, id) && w.mem.Some? && job in w.mem.value.jobs
    ensures InOrder(BeginIntent(w, job, iid, action, identity, now, v1, wr, v2).0, id) <==>
            !(job == id && action.Command? && IntentAdmitted(w.mem.value, w.mem.value.jobs[id], iid, identity, v1)
              && !AllReceipted(w.mem.value.jobs[id].intents))
  {
    var m, j := w.mem.value, w.mem.value.jobs[job];
    var i := NewIntent(m, iid, action, identity, now);
    PutInOrderIff(w, id, job, j.(intents := j.intents + [i], verdict := Unknown), wr);
    PutInOrderIff(w, id, job, j.(verdict := RequiresReview), wr);
    if job == id { AppendedInOrderIff(j.intents, i); }
    hide InOrder, OpenCommandIsLast, AllReceipted, IntentAdmitted;
  }

  lemma CmdIsFree(w: World, slot: Slot, c: Cmd, id: JobId)
    requires w.mem.Some? && ExecOf(w.mem.value, slot).Some?
    ensures InOrder(WithCmd(w, slot, c), id) == InOrder(w, id)
  {
  }

  lemma CmdBeginInOrderIff(w: World, id: JobId, s: Step)
    requires InOrder(w, id) && s.SCmdBegin?
    ensures InOrder(Apply(w, s), id) <==> !Breaks(w, s, id)
  {
    hide InOrder, IntentAdmitted, AllReceipted, BeginIntent;
    if Acting(w, s.slot) && ExecOf(w.mem.value, s.slot).value.cmd.Checked? {
      var e := ExecOf(w.mem.value, s.slot).value;
      var iid := CommandId(e.cmd.sequence);
      var w0 := WithCmd(w, s.slot, Idle);
      CmdIsFree(w, s.slot, Idle, id);
      var r := BeginIntent(w0, e.id, iid, Command, s.identity, s.now, s.v1, s.wr, s.v2);
      BeginInOrderIff(w0, id, e.id, iid, Command, s.identity, s.now, s.v1, s.wr, s.v2);
      BegunFrame(w0, s.slot, iid, s.identity, s.now, s.v1, s.wr, s.v2);
      if r.1 { CmdIsFree(r.0, s.slot, Begun(iid, w.tick), id); }
      SlotsAreFree(w0, w, id, e.id, iid, s.identity, s.v1);
    }
  }

  /** Admission does not look at the commands under way. */
  lemma SlotsAreFree(w0: World, w: World, id: JobId, job: JobId, iid: string, identity: Identity, v1: bool)
    requires w.mem.Some? && w0.mem.Some?
             && w0.mem == Some(w.mem.value.(run := w0.mem.value.run, scribe := w0.mem.value.scribe))
    requires job in w.mem.value.jobs
    ensures IntentAdmitted(w0.mem.value, w0.mem.value.jobs[job], iid, identity, v1) ==
            IntentAdmitted(w.mem.value, w.mem.value.jobs[job], iid, identity, v1)
  {
  }

  lemma StampedInOrder(s: seq<Intent>, iid: string, refused: bool, instance: string, now: int)
    requires OpenCommandIsLast(s)
    ensures OpenCommandIsLast(StampAll(s, iid, refused, instance, now))
  {
    var t := StampAll(s, iid, refused, instance, now);
    assert forall k :: 0 <= k < |s| ==> t[k].action == s[k].action && (Receipt(s[k]) ==> Receipt(t[k]));
  }

  lemma StampInOrder(w: World, id: JobId, s: Step)
    requires InOrder(w, id) && s.SCmdStamp?
    ensures InOrder(Apply(w, s), id)
  {
    hide AllResolved, StampAll;
    if Acting(w, s.slot) && ExecOf(w.mem.value, s.slot).value.cmd.Returned? {
      var m, e := w.mem.value, ExecOf(w.mem.value, s.slot).value;
      var j := m.jobs[e.id];
      var instance := if m.authority.Some? then m.authority.value.instance else "";
      if e.id == id { StampedInOrder(j.intents, e.cmd.iid, e.cmd.refused, instance, s.now); }
    }
  }

  /**
   Every step of the journal keeps the order of a job's commands if and only if it is not an observation
   that hits a command followed by a command, and not a command begun while an earlier one has lost the
   receipt it had when receipts were checked.
   */
  lemma StepKeepsOrderIff(w: World, s: Step, id: JobId)
    requires InOrder(w, id)
    ensures InOrder(Next(w, s), id) <==> !Breaks(w, s, id)
  {
    hide InOrder, Breaks, Apply;
    var w1 := w.(tick := w.tick + 1);
    TickIsFree(w, w.tick + 1, s, id);
    if s.SObserve? {
      ObserveInOrderIff(w1, id, s);
    } else if s.SCmdBegin? {
      CmdBeginInOrderIff(w1, id, s);
    } else {
      QuietStepInOrder(w1, s, id);
    }
  }

  lemma TickIsFree(w: World, t: nat, s: Step, id: JobId)
    ensures InOrder(w.(tick := t), id) == InOrder(w, id) && Breaks(w.(tick := t), s, id) == Breaks(w, s, id)
  {
    hide IntentAdmitted, AllReceipted, OpenCommandIsLast, ObservationAllowed, IndexOf, CommandId;
  }

  lemma QuietStepInOrder(w: World, s: Step, id: JobId)
    requires InOrder(w, id) && !s.SObserve? && !s.SCmdBegin?
    ensures InOrder(Apply(w, s), id) && !Breaks(w, s, id)
  {
    if s.SResource? {
      ResourceInOrder(w, s, id);
    } else if s.SCmdStamp? {
      StampInOrder(w, id, s);
    } else {
      hide InOrder, Apply, OldLists;
      if JobStep(s) {
        JobStepOldLists(w, s, id);
      } else if DeskStep(s) {
        DeskStepOldLists(w, s, id);
      } else if CommandStep(s) {
        PhaseStepOldLists(w, s, id);
      } else {
        RestOldLists(w, s, id);
      }
      OldListsInOrder(w, Apply(w, s), id);
    }
  }

  lemma ResourceInOrder(w: World, s: Step, id: JobId)
    requires InOrder(w, id) && s.SResource?
    ensures InOrder(Apply(w, s), id)
  {
    if Acting(w, s.slot) && !s.action.Command? {
      var e := ExecOf(w.mem.value, s.slot).value;
      BeginInOrderIff(w, id, e.id, s.iid, s.action, s.identity, s.now, s.v1, s.wr, s.v2);
      hide BeginIntent, InOrder;
    }
  }

  // ---------------------------------------------------------------- every run

  ghost predicate NoBreak(steps: seq<Step>, id: JobId) {
    forall i :: 0 <= i < |steps| ==> !Breaks(Run(FreshWorld, steps[..i]), steps[i], id)
  }

  ghost predicate AlwaysInOrder(steps: seq<Step>, id: JobId) {
    forall i :: 0 <= i <= |steps| ==> InOrder(Run(FreshWorld, steps[..i]), id)
  }

  /** A job's commands stay in order throughout a run if and only if no step of the run is one of the two kinds. */
  lemma {:induction false} OrderInEveryRunIff(steps: seq<Step>, id: JobId)
    ensures AlwaysInOrder(steps, id) <==> NoBreak(steps, id)
  {
    hide InOrder, Breaks, Next;
    if steps == [] {
      assert InOrder(Run(FreshWorld, []), id) by { FreshInOrder(id); }
    } else {
      var front, last := steps[..|steps| - 1], steps[|steps| - 1];
      OrderInEveryRunIff(front, id);
      assert forall i :: 0 <= i <= |front| ==> front[..i] == steps[..i];
      assert steps[..|steps|] == steps && steps[..|front|] == front;
      var w := Run(FreshWorld, front);
      assert Run(FreshWorld, steps) == Next(w, last);
      if InOrder(w, id) { StepKeepsOrderIff(w, last, id); }
      assert AlwaysInOrder(steps, id) <==> AlwaysInOrder(front, id) && InOrder(Next(w, last), id);
      assert NoBreak(steps, id) <==> NoBreak(front, id) && !Breaks(w, last, id);
    }
  }

  /** Whichever step breaks the order, an observation has hit a command of that job by then. */
  lemma BreakNeedsObservation(steps: seq<Step>, s: Step, id: JobId)
    requires Breaks(Run(FreshWorld, steps), s, id)
    ensures id in Next(Run(FreshWorld, steps), s).touched
  {
    EveryRun(steps);
    var w := Run(FreshWorld, steps);
    if s.SCmdBegin? {
      UncheckedIsTouched(w, s.slot);
      TouchedStays(w, s);
    }
  }

  lemma UncheckedIsTouched(w: World, slot: Slot)
    requires Inv(w) && Acting(w, slot) && ExecOf(w.mem.value, slot).value.cmd.Checked?
    requires !AllReceipted(w.mem.value.jobs[ExecOf(w.mem.value, slot).value.id].intents)
    ensures ExecOf(w.mem.value, slot).value.id in w.touched
  {
  }

  lemma TouchedStays(w: World, s: Step)
    requires s.SCmdBegin?
    ensures Next(w, s).touched == w.touched
  {
    hide IntentAdmitted, HasId, CommandId;
  }

  lemma FreshInOrder(id: JobId)
    ensures InOrder(FreshWorld, id)
  {
  }

  // ---------------------------------------------------------------- the two failing runs

  const Who := Identity("p", "r", "g", "o")

  /** Job 1 runs without an authority, holds intents `s` and command `c`, and its journal is healthy. */
  ghost predicate At(w: World, c: Cmd, s: seq<Intent>) {
    && w.mem.Some? && w.mem.value.run == Some(Exec(1, InRunner, c)) && !w.mem.value.storageErr
    && w.mem.value.authority.None? && !w.mem.value.required
    && 1 in w.mem.value.jobs && w.mem.value.jobs[1].intents == s && !w.mem.value.jobs[1].stop
    && w.mem.value.jobs[1].versions == V1
  }

  const Base := Memory(map[], None, Free, None, false, false, None, false)

  function FirstIntent(iid: string): Intent { NewIntent(Base, iid, Command, Who, 0) }

  ghost predicate Reachable(w: World) { exists steps :: Run(FreshWorld, steps) == w }

  lemma NextReachable(w: World, s: Step)
    requires Reachable(w)
    ensures Reachable(Next(w, s))
  {
    hide Next;
    var steps :| Run(FreshWorld, steps) == w;
    assert (steps + [s])[..|steps|] == steps;
    assert Run(FreshWorld, steps + [s]) == Next(w, s);
  }

  lemma ChecksReceipts(w: World, s: seq<Intent>) returns (w1: World)
    requires Reachable(w) && At(w, Idle, s) && AllReceipted(s)
    ensures Reachable(w1) && At(w1, Checked(|s|), s)
  {
    hide Reachable;
    w1 := Next(w, SCmdCheck(JobSlot));
    NextReachable(w, SCmdCheck(JobSlot));
  }

  lemma BeginsCommand(w: World, s: seq<Intent>) returns (w2: World, t: nat)
    requires Reachable(w) && At(w, Idle, s) && AllReceipted(s) && |s| < 9 && !HasId(s, CommandId(|s|))
    ensures Reachable(w2) && At(w2, Begun(CommandId(|s|), t), s + [FirstIntent(CommandId(|s|))])
  {
    hide Reachable;
    var w1 := ChecksReceipts(w, s);
    NextReachable(w1, SCmdBegin(JobSlot, Who, 0, true, Landed, true));
    w2 := BeginsChecked(w1, s);
    t := w1.tick + 1;
  }

  lemma BeginsChecked(w: World, s: seq<Intent>) returns (w2: World)
    requires At(w, Checked(|s|), s) && |s| < 9 && !HasId(s, CommandId(|s|))
    ensures w2 == Next(w, SCmdBegin(JobSlot, Who, 0, true, Landed, true))
    ensures At(w2, Begun(CommandId(|s|), w.tick + 1), s + [FirstIntent(CommandId(|s|))])
  {
    assert |CommandId(|s|)| == 9;
    w2 := Next(w, SCmdBegin(JobSlot, Who, 0, true, Landed, true));
  }

  lemma ClearsCommand(w: World, iid: string, t: nat, s: seq<Intent>) returns (w2: World, v: nat)
    requires Reachable(w) && At(w, Begun(iid, t), s)
    ensures Reachable(w2) && At(w2, Cleared(iid, t, v), s)
  {
    hide Reachable;
    var w1 := Next(w, SCmdGuard(JobSlot, true));
    NextReachable(w, SCmdGuard(JobSlot, true));
    assert At(w1, Guarded(iid, t), s);
    w2, v := Next(w1, SCmdValidate(JobSlot, true)), w1.tick + 1;
    NextReachable(w1, SCmdValidate(JobSlot, true));
  }

  lemma FinishesCommand(w: World, iid: string, t: nat, v: nat, s: seq<Intent>) returns (w2: World)
    requires Reachable(w) && At(w, Cleared(iid, t, v), s)
    ensures Reachable(w2) && At(w2, Idle, StampAll(s, iid, false, "", 0))
  {
    hide Reachable;
    var w1 := Next(w, SCmdCall(JobSlot, Acked));
    NextReachable(w, SCmdCall(JobSlot, Acked));
    assert At(w1, Returned(iid, false), s);
    w2 := Next(w1, SCmdStamp(JobSlot, 0, Landed));
    NextReachable(w1, SCmdStamp(JobSlot, 0, Landed));
  }

  lemma StartsJob() returns (w: World)
    ensures Reachable(w) && At(w, Idle, [])
  {
    assert Run(FreshWorld, []) == FreshWorld;
    assert Reachable(FreshWorld);
    hide Reachable;
    var w1 := Next(FreshWorld, SOpen);
    NextReachable(FreshWorld, SOpen);
    assert w1.mem == Some(Memory(map[], None, Free, None, false, false, None, false)) && w1.disk == map[]
           && w1.used == {};
    assert !Duplicate(w1.mem.value.jobs, "k", "") && Available(w1.mem.value);
    assert |w1.mem.value.jobs| == 0;
    var w2 := Next(w1, SSubmit("k", "", 1, 0, 0, true, Landed));
    NextReachable(w1, SSubmit("k", "", 1, 0, 0, true, Landed));
    assert w2.mem.Some? && 1 in w2.mem.value.jobs && w2.mem.value.jobs[1] == NewJob("k", "", Queued, 0)
           && w2.mem.value.run == Some(Exec(1, Accepted, Idle)) && !w2.mem.value.storageErr
           && w2.mem.value.authority.None? && !w2.mem.value.required;
    w := StartsRunner(w2);
  }

  lemma StartsRunner(w: World) returns (w2: World)
    requires Reachable(w) && w.mem.Some? && 1 in w.mem.value.jobs && w.mem.value.jobs[1] == NewJob("k", "", Queued, 0)
    requires w.mem.value.run == Some(Exec(1, Accepted, Idle)) && !w.mem.value.storageErr
    requires w.mem.value.authority.None? && !w.mem.value.required
    ensures Reachable(w2) && At(w2, Idle, [])
  {
    hide Reachable;
    var w1 := Next(w, SRunPersist(Landed));
    NextReachable(w, SRunPersist(Landed));
    w2 := Next(w1, SRunAdmit(true));
    NextReachable(w1, SRunAdmit(true));
  }

  /** Job 1 has run its first command to its receipt. */
  lemma RunsFirstCommand() returns (w: World, done: Intent)
    ensures Reachable(w) && At(w, Idle, [done])
    ensures done.action.Command? && done.id == CommandId(0) && Receipt(done)
  {
    w := StartsJob();
    var t, v;
    w, t := BeginsCommand(w, []);
    var one := [FirstIntent(CommandId(0))];
    assert [] + one == one;
    w, v := ClearsCommand(w, CommandId(0), t, one);
    w := FinishesCommand(w, CommandId(0), t, v, one);
    done := Stamp(one[0], CommandId(0), false, "", 0);
    assert StampAll(one, CommandId(0), false, "", 0) == [done];
  }

  lemma IdsDiffer()
    ensures CommandId(0) != CommandId(1)
  {
    assert CommandId(0)[8] == '0' && CommandId(1)[8] == '1';
  }

  /** Observing an acknowledged command drops its receipt: the list can then hold two open commands. */
  lemma ObservationBreaksOrder() returns (w: World)
    ensures Reachable(w) && Acting(w, JobSlot) && 1 in w.mem.value.jobs
    ensures !OpenCommandIsLast(w.mem.value.jobs[1].intents)
  {
    hide Reachable, At;
    var done, t;
    w, done := RunsFirstCommand();
    IdsDiffer();
    assert AllReceipted([done]) && !HasId([done], CommandId(1));
    w, t := BeginsCommand(w, [done]);
    assert [done] + [FirstIntent(CommandId(1))] == [done, FirstIntent(CommandId(1))];
    w := ObservesFirst(w, Begun(CommandId(1), t), done, FirstIntent(CommandId(1)));
  }

  /**
   Receipts are checked, then the journal is free for a moment, and only then the intent is written. An
   observation of the last command in between breaks nothing yet; the command begun next does.
   */
  lemma LateObservationBreaksOrder() returns (w: World)
    ensures Reachable(w) && Acting(w, JobSlot) && 1 in w.mem.value.jobs
    ensures !OpenCommandIsLast(w.mem.value.jobs[1].intents)
  {
    var done, open;
    w, done := RunsFirstCommand();
    IdsDiffer();
    assert AllReceipted([done]);
    w := ChecksReceipts(w, [done]);
    w, open := ObservesLast(w, Checked(1), done);
    hide Reachable;
    NextReachable(w, SCmdBegin(JobSlot, Who, 0, true, Landed, true));
    w := BeginsChecked(w, [open]);
    var s := w.mem.value.jobs[1].intents;
    assert s == [open] + [FirstIntent(CommandId(1))];
    assert s[0] == open && s[1] == FirstIntent(CommandId(1));
  }

  lemma ObservesLast(w: World, c: Cmd, a: Intent) returns (w2: World, b: Intent)
    requires Reachable(w) && At(w, c, [a]) && a.action.Command? && a.id == CommandId(0)
    ensures Reachable(w2) && At(w2, c, [b]) && b.action.Command? && b.id == CommandId(0) && !Receipt(b)
  {
    hide Reachable;
    var o := Observation(Unspecified, Unseen, Who, None);
    var s := SObserve(1, CommandId(0), o, 0, Landed);
    w2 := Next(w, s);
    NextReachable(w, s);
    assert |w2.mem.value.jobs[1].intents| == 1;
    b := w2.mem.value.jobs[1].intents[0];
    assert w2.mem.value.jobs[1].intents == [b];
  }

  lemma ObservesFirst(w: World, c: Cmd, a: Intent, b: Intent) returns (w2: World)
    requires Reachable(w) && At(w, c, [a, b]) && a.action.Command? && b.action.Command? && a.id == CommandId(0)
    ensures Reachable(w2) && Acting(w2, JobSlot) && 1 in w2.mem.value.jobs
    ensures !OpenCommandIsLast(w2.mem.value.jobs[1].intents)
  {
    hide Reachable;
    var o := Observation(Unspecified, Unseen, Who, None);
    var s := SObserve(1, CommandId(0), o, 0, Landed);
    w2 := Next(w, s);
    NextReachable(w, s);
    var s1 := w2.mem.value.jobs[1].intents;
    assert s1[0].action.Command? && s1[1].action.Command? && !Receipt(s1[0]);
  }
}
