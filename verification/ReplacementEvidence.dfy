/**
 Where the evidence behind a replacement comes from. Whatever plan says that its old machine is fenced, in
 storage, in memory, in a successor or behind a call, the provider has said so in answer to one step of
 the run: the delete task completed, the machine is in no HA group, and a fully understood inventory read
 between two permission checks lacks it.
 */
module ReplacementEvidence {
  import opened Basics
  import opened Fencing
  import opened Replacement
  import ReplacementSafety

  /** The answers `r` prove evidence `e` about machine `m`. */
  ghost predicate Says(r: Replies, m: Machine, e: Evidence) {
    && e.verifiedAt == Some(r.at)
    && r.task.Some? && r.task.value.stopped && r.task.value.exitOk && r.task.value.node == m.node
    && r.task.value.kind == "qmdestroy" && e.task.Some? && r.task.value.raw == e.task.value.raw
    && r.ha.Some? && (forall h :: h in r.ha.value ==> h != NoSid && h != Guest(m.vmid))
    && r.auditBefore && r.auditAfter
    && r.inventory.Some? && (forall g :: g in r.inventory.value ==> g.known && g.vmid > 0 && g.vmid != m.vmid)
  }

  /** The answers the provider gave during a step. */
  function AnswersOf(s: Step): Option<Replies> {
    match s
    case SRun(_, input) => Some(input.replies)
    case SResumeProve(input) => Some(input.replies)
    case _ => None
  }

  ghost predicate SaidIn(s: Step, m: Machine, e: Evidence) {
    AnswersOf(s).Some? && Says(AnswersOf(s).value, m, e)
  }

  ghost predicate Seen(steps: seq<Step>, m: Machine, e: Evidence) {
    e.outcome.Fenced? ==> exists k :: 0 <= k < |steps| && SaidIn(steps[k], m, e)
  }

  /** The plan's evidence, and that of the successor it carries. */
  ghost predicate Backs(steps: seq<Step>, p: Plan) {
    && (p.fence.Some? ==> Seen(steps, p.vm, p.fence.value))
    && (p.successor.Some? ==> Backs(steps, p.successor.value))
  }

  ghost predicate ExecBacked(steps: seq<Step>, x: Exec) {
    Backs(steps, x.p) && (x.pc.SaveFence? ==> Seen(steps, x.p.vm, x.pc.evidence))
  }

  ghost predicate AllBacked(steps: seq<Step>, w: World) {
    && (forall id :: id in w.store ==> Backs(steps, w.store[id]))
    && (forall id :: id in w.runs ==> ExecBacked(steps, w.runs[id]))
    && (w.admin.Resuming? ==> Backs(steps, w.admin.p)) && (w.admin.Publishing? ==> Backs(steps, w.admin.next))
    && (forall ev :: ev in w.log ==> Backs(steps, ev.record))
  }

  // ---------------------------------------------------------------- longer runs

  lemma SeenLater(steps: seq<Step>, s: Step, m: Machine, e: Evidence)
    requires Seen(steps, m, e)
    ensures Seen(steps + [s], m, e)
  {
    if e.outcome.Fenced? {
      var k :| 0 <= k < |steps| && SaidIn(steps[k], m, e);
      assert (steps + [s])[k] == steps[k];
    }
  }

  lemma SeenNow(steps: seq<Step>, s: Step, m: Machine, e: Evidence)
    requires e.outcome.Fenced? ==> SaidIn(s, m, e)
    ensures Seen(steps + [s], m, e)
  {
    assert (steps + [s])[|steps|] == s;
  }

  lemma BacksLater(steps: seq<Step>, s: Step, p: Plan)
    requires Backs(steps, p)
    ensures Backs(steps + [s], p)
  {
    hide Seen;
    if p.fence.Some? { SeenLater(steps, s, p.vm, p.fence.value); }
    if p.successor.Some? { BacksLater(steps, s, p.successor.value); }
  }

  lemma AllLater(steps: seq<Step>, s: Step, w: World)
    requires AllBacked(steps, w)
    ensures AllBacked(steps + [s], w)
  {
    hide Backs, Seen;
    forall p | Backs(steps, p) ensures Backs(steps + [s], p) { BacksLater(steps, s, p); }
    forall id | id in w.runs ensures ExecBacked(steps + [s], w.runs[id]) {
      if w.runs[id].pc.SaveFence? { SeenLater(steps, s, w.runs[id].p.vm, w.runs[id].pc.evidence); }
    }
  }

  // ---------------------------------------------------------------- one action

  lemma RevalidateSays(m: Machine, prior: Evidence, home: string, r: Replies)
    ensures var e := Revalidate(m, prior, home, r).0; e.outcome.Fenced? ==> Says(r, m, e)
  {
    ProvedMeans(prior, m, r);
  }

  lemma DestroyedSays(m: Machine, home: string, d: Destruction, r: Replies)
    ensures var e := Destroyed(m, home, d, r).0; e.outcome.Fenced? ==> Says(r, m, e)
  {
    DestroyedIffProved(m, home, d, r);
  }

  /** A plan with the same machine and successor, and evidence that is seen. */
  lemma SameBacks(steps: seq<Step>, p: Plan, q: Plan)
    requires Backs(steps, p) && q.vm == p.vm && q.successor == p.successor
    requires q.fence == p.fence || (q.fence.Some? && Seen(steps, q.vm, q.fence.value))
    ensures Backs(steps, q)
  {
  }

  lemma RevalidatingBacks(steps: seq<Step>, s: Step, p: Plan, next: Pc, now: int, i: Input)
    requires Backs(steps + [s], p) && AnswersOf(s) == Some(i.replies) && !next.SaveFence?
    ensures ExecBacked(steps + [s], Exec(Revalidating(p, next, now, i).p, Revalidating(p, next, now, i).next))
  {
    hide Seen, Backs, Revalidate, Fresh, Says, Revalidating;
    ReplacementSafety.RevalidatingShape(p, next, now, i);
    var q := Revalidating(p, next, now, i).p;
    if p.fence.Some? {
      var e := Revalidate(p.vm, p.fence.value, i.home, i.replies).0;
      RevalidateSays(p.vm, p.fence.value, i.home, i.replies);
      SeenNow(steps, s, p.vm, e);
    }
    SameBacks(steps + [s], p, q);
  }

  lemma CallingBacks(steps: seq<Step>, s: Step, p: Plan, e: Effect, now: int, i: Input)
    requires Backs(steps + [s], p) && AnswersOf(s) == Some(i.replies)
    ensures ExecBacked(steps + [s], Exec(Calling(p, e, now, i).p, Calling(p, e, now, i).next))
  {
    hide Seen, Backs, Destroyed, Fresh, Says;
    DestroyedSays(p.vm, i.home, i.destruction, i.replies);
    SeenNow(steps, s, p.vm, Destroyed(p.vm, i.home, i.destruction, i.replies).0);
  }

  lemma AdvanceBacks(steps: seq<Step>, s: Step, x: Exec, now: int, i: Input)
    requires ExecBacked(steps + [s], x) && AnswersOf(s) == Some(i.replies)
    ensures ExecBacked(steps + [s], Exec(Advance(x, now, i).p, Advance(x, now, i).next))
  {
    hide Seen, Backs, Revalidating, Calling, Fresh;
    var m := Advance(x, now, i);
    match x.pc
    case Call(e) => CallingBacks(steps, s, x.p, e, now, i);
    case Adopt => RevalidatingBacks(steps, s, x.p, AdoptChild, now, i);
    case Fence =>
      if x.p.fenceStarted { RevalidatingBacks(steps, s, x.p, Node, now, i); } else { SameBacks(steps + [s], x.p, m.p); }
    case ProveNode => RevalidatingBacks(steps, s, x.p, MarkNode, now, i);
    case ConcludeFence => RevalidatingBacks(steps, s, x.p, ConcludeNode, now, i);
    case _ => SameBacks(steps + [s], x.p, m.p);
  }

  // ---------------------------------------------------------------- every step

  lemma PutBacked(steps: seq<Step>, store: map<PlanId, Plan>, id: PlanId, p: Plan, wr: Write)
    requires (forall k :: k in store ==> Backs(steps, store[k])) && Backs(steps, p)
    ensures forall k :: k in Save(store, id, p, wr) ==> Backs(steps, Save(store, id, p, wr)[k])
  {
    hide Backs;
  }

  lemma RunStepBacked(steps: seq<Step>, w: World, id: PlanId, i: Input)
    requires AllBacked(steps + [SRun(id, i)], w)
    ensures AllBacked(steps + [SRun(id, i)], RunStep(w, id, i))
  {
    hide Backs, Seen, Advance;
    if id in w.runs && id in w.store && id in w.root && !w.runs[id].pc.Leave? {
      var m := Advance(w.runs[id], w.now, i);
      AdvanceBacks(steps, SRun(id, i), w.runs[id], w.now, i);
      PutBacked(steps + [SRun(id, i)], w.store, id, m.p, i.write);
    }
  }

  lemma ResumeProveBacked(steps: seq<Step>, w: World, i: Input)
    requires AllBacked(steps + [SResumeProve(i)], w)
    ensures AllBacked(steps + [SResumeProve(i)], ResumeProve(w, i))
  {
    hide Backs, Seen, Revalidating;
    if w.admin.Resuming? && !w.admin.proved {
      var m := Revalidating(w.admin.p, Check, w.now, i);
      RevalidatingBacks(steps, SResumeProve(i), w.admin.p, Check, w.now, i);
      PutBacked(steps + [SResumeProve(i)], w.store, m.p.id, m.p, i.write);
    }
  }

  lemma CommitBacked(steps: seq<Step>, w: World, id: PlanId, ok: bool, wr: Write)
    requires AllBacked(steps, w)
    ensures AllBacked(steps, ResumeCommit(w, id, ok, wr))
  {
    if w.admin.Resuming? && w.admin.p.id in w.store {
      var next := Successor(w.admin.p, id, w.admin.user, w.now);
      var closed := ClosedBy(w.store[w.admin.p.id], next);
      assert Backs(steps, w.admin.p) && Backs(steps, next) && Backs(steps, closed);
      PutBacked(steps, w.store, w.admin.p.id, closed, wr);
    }
    hide Backs, Seen, Successor, ClosedBy;
  }

  lemma PublishBacked(steps: seq<Step>, w: World, s: Step)
    requires AllBacked(steps, w) && (s.SResumePublish? || s.SRebuild?)
    ensures AllBacked(steps, Apply(w, s))
  {
    if s.SResumePublish? && w.admin.Publishing? {
      PutBacked(steps, w.store, w.admin.next.id, w.admin.next, s.wr);
    }
    if s.SRebuild? && s.id in w.store && w.store[s.id].successor.Some? {
      assert Backs(steps, w.store[s.id].successor.value);
      PutBacked(steps, w.store, w.store[s.id].successor.value.id, w.store[s.id].successor.value, s.wr);
    }
    hide Backs, Seen;
  }

  /** Planning, closing, approving and beginning leave evidence alone. */
  lemma PlainStepBacked(steps: seq<Step>, w: World, s: Step)
    requires AllBacked(steps, w) && (s.SSupersede? || s.SCreate? || s.SApprove? || s.SBegin?)
    ensures AllBacked(steps, Apply(w, s))
  {
    var p := if s.id in w.store then w.store[s.id] else if s.SCreate? then NewPlan(s.id, s.vm, s.mode, s.user, w.now)
             else NewPlan(s.id, Machine("", "", "", 0, false), Dead, "", 0);
    var q := match s
             case SSupersede(_, _, _, _) => p.(status := Superseded)
             case SCreate(id, vm, mode, user, _) => NewPlan(id, vm, mode, user, w.now)
             case SApprove(_, _, _, _) => p.(approved := true, acknowledged := true)
             case _ => p.(status := Running);
    assert Backs(steps, p) && Backs(steps, q);
    PutBacked(steps, w.store, s.id, q, s.wr);
    hide Backs, Seen, CanSupersede, Unclaimed, NewPlan;
  }

  lemma StepBacked(steps: seq<Step>, w: World, s: Step)
    requires AllBacked(steps, w)
    ensures AllBacked(steps + [s], Apply(w, s))
  {
    AllLater(steps, s, w);
    hide AllBacked;
    match s
    case SRun(id, i) => RunStepBacked(steps, w, id, i);
    case SResumeProve(i) => ResumeProveBacked(steps, w, i);
    case SResumeCommit(id, ok, wr) => CommitBacked(steps + [s], w, id, ok, wr);
    case STick(_) => QuietStepBacked(steps + [s], w, s);
    case SCrash => QuietStepBacked(steps + [s], w, s);
    case SResumeOpen(_, _, _) => QuietStepBacked(steps + [s], w, s);
    case SResumeAbort => QuietStepBacked(steps + [s], w, s);
    case SResumePublish(_) => PublishBacked(steps + [s], w, s);
    case SRebuild(_, _, _, _) => PublishBacked(steps + [s], w, s);
    case _ => PlainStepBacked(steps + [s], w, s);
  }

  lemma QuietStepBacked(steps: seq<Step>, w: World, s: Step)
    requires AllBacked(steps, w) && (s.STick? || s.SCrash? || s.SResumeOpen? || s.SResumeAbort?)
    ensures AllBacked(steps, Apply(w, s))
  {
    hide Backs, Seen;
  }

  lemma {:induction false} EveryRun(steps: seq<Step>)
    ensures AllBacked(steps, Run(FreshWorld, steps))
  {
    hide AllBacked, Apply;
    if steps == [] {
      assert AllBacked([], FreshWorld) by { NothingYet(); }
    } else {
      var front, last := steps[..|steps| - 1], steps[|steps| - 1];
      EveryRun(front);
      StepBacked(front, Run(FreshWorld, front), last);
      assert front + [last] == steps;
    }
  }

  lemma NothingYet()
    ensures AllBacked([], FreshWorld)
  {
  }

  // ---------------------------------------------------------------- the promises

  /**
   The old node is deleted only after some step of the run, no more than sixty seconds earlier, in which the
   provider answered that the delete task of this very machine completed, that the machine is in no HA
   group, and, between two permission checks, with an inventory in which every guest is understood and
   none is the machine.
   */
  lemma NodeDeletedOnlyWhenGone(steps: seq<Step>, k: nat)
    requires k < |Run(FreshWorld, steps).log| && Run(FreshWorld, steps).log[k].effect.DeleteNode?
    ensures var ev := Run(FreshWorld, steps).log[k];
            var m := ev.record.vm;
            ev.record.fence.Some? && ev.record.fence.value.task.Some? && ev.record.fence.value.machine == m.id
            && var t := ev.record.fence.value.task.value;
            t.wellFormed && t.node == m.node && t.kind == "qmdestroy" && t.vmid == m.vmid
            && exists j, r :: && 0 <= j < |steps| && AnswersOf(steps[j]) == Some(r)
                              && r.at <= ev.at <= r.at + 60_000_000_000
                              && r.task.Some? && r.task.value.stopped && r.task.value.exitOk
                              && r.task.value.node == m.node && r.task.value.kind == "qmdestroy"
                              && r.task.value.raw == t.raw
                              && r.ha.Some? && (forall h :: h in r.ha.value ==> h != NoSid && h != Guest(m.vmid))
                              && r.auditBefore && r.auditAfter && r.inventory.Some?
                              && (forall g :: g in r.inventory.value ==> g.known && g.vmid > 0 && g.vmid != m.vmid)
  {
    hide Run, Backs, ReplacementSafety.Inv;
    EveryRun(steps);
    ReplacementSafety.RunKeeps(steps);
    var ev := Run(FreshWorld, steps).log[k];
    LoggedFence(Run(FreshWorld, steps), k);
    assert ev in Run(FreshWorld, steps).log && Backs(steps, ev.record);
    var j := SaidAt(steps, ev.record);
    var r := AnswersOf(steps[j]).value;
    assert AnswersOf(steps[j]) == Some(r);
  }

  lemma SaidAt(steps: seq<Step>, p: Plan) returns (j: nat)
    requires Backs(steps, p) && p.fence.Some? && p.fence.value.outcome.Fenced?
    ensures j < |steps| && SaidIn(steps[j], p.vm, p.fence.value)
  {
    hide SaidIn;
    j :| 0 <= j < |steps| && SaidIn(steps[j], p.vm, p.fence.value);
  }

  lemma LoggedFence(w: World, k: nat)
    requires ReplacementSafety.Inv(w) && k < |w.log| && w.log[k].effect.DeleteNode?
    ensures w.log[k].record.fence.Some? && w.log[k].record.fence.value.outcome.Fenced?
    ensures w.log[k].record.fence.value.verifiedAt.Some?
    ensures var at := w.log[k].record.fence.value.verifiedAt.value; at <= w.log[k].at <= at + 60_000_000_000
    ensures MatchingTask(w.log[k].record.fence.value.task, w.log[k].record.vm)
    ensures w.log[k].record.fence.value.machine == w.log[k].record.vm.id
  {
  }

  lemma SucceededFence(w: World, id: PlanId)
    requires ReplacementSafety.Inv(w) && id in w.store && w.store[id].status.Succeeded?
    ensures w.store[id].fence.Some? && w.store[id].fence.value.outcome.Fenced?
    ensures MatchingTask(w.store[id].fence.value.task, w.store[id].vm)
    ensures w.store[id].fence.value.machine == w.store[id].vm.id
  {
    ReplacementSafety.RecordAt(w, id);
  }

  /** A plan recorded as succeeded rests on such answers too. */
  lemma SuccessMeansGone(steps: seq<Step>, id: PlanId)
    requires var w := Run(FreshWorld, steps); id in w.store && w.store[id].status.Succeeded?
    ensures var p := Run(FreshWorld, steps).store[id];
            var m := p.vm;
            p.fence.Some? && p.fence.value.task.Some? && p.fence.value.machine == m.id
            && var t := p.fence.value.task.value;
            t.wellFormed && t.node == m.node && t.kind == "qmdestroy" && t.vmid == m.vmid
            && exists j, r :: && 0 <= j < |steps| && AnswersOf(steps[j]) == Some(r)
                              && r.task.Some? && r.task.value.stopped && r.task.value.exitOk
                              && r.task.value.node == m.node && r.task.value.kind == "qmdestroy"
                              && r.task.value.raw == t.raw
                              && r.ha.Some? && (forall h :: h in r.ha.value ==> h != NoSid && h != Guest(m.vmid))
                              && r.auditBefore && r.auditAfter && r.inventory.Some?
                              && (forall g :: g in r.inventory.value ==> g.known && g.vmid > 0 && g.vmid != m.vmid)
  {
    hide Run, Backs, ReplacementSafety.Inv;
    EveryRun(steps);
    ReplacementSafety.RunKeeps(steps);
    var p := Run(FreshWorld, steps).store[id];
    SucceededFence(Run(FreshWorld, steps), id);
    var j := SaidAt(steps, p);
    var r := AnswersOf(steps[j]).value;
    assert AnswersOf(steps[j]) == Some(r);
  }
}
