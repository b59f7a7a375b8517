/** The promises of worker replacement, over every run. */
module ReplacementTheorems {
  import opened Basics
  import opened Fencing
  import opened Replacement
  import opened ReplacementSafety

  // ---------------------------------------------------------------- at most once, in order

  /** Each plan after the first continues the one before it. */
  ghost predicate IsChain(store: map<PlanId, Plan>, chain: seq<PlanId>) {
    forall k :: 0 < k < |chain| ==> chain[k] in store && store[chain[k]].previous == Some(chain[k - 1])
  }

  lemma {:induction false} ChainHasOneRoot(w: World, chain: seq<PlanId>, k: nat)
    requires Inv(w) && IsChain(w.store, chain) && k < |chain| && chain[0] in w.root
    ensures chain[k] in w.root && w.root[chain[k]] == w.root[chain[0]]
  {
    hide CoverOk, RunsOk, LogOk, AdminOk, Ordered;
    if k > 0 {
      ChainHasOneRoot(w, chain, k - 1);
      RecordAt(w, chain[k]);
    }
  }

  /**
   Over every run with crashes and failed writes, a plan and all its resume successors together drain,
   destroy the old VM, delete the stale node and create the replacement at most once each.
   */
  lemma OncePerChain(steps: seq<Step>, chain: seq<PlanId>, i: nat, j: nat)
    requires var w := Run(FreshWorld, steps);
             IsChain(w.store, chain) && i < j < |w.log| && w.log[i].effect == w.log[j].effect
    ensures var w := Run(FreshWorld, steps);
            !(w.log[i].record.id in chain && w.log[j].record.id in chain)
  {
    RunKeeps(steps);
    var w := Run(FreshWorld, steps);
    if a, b :| && 0 <= a < |chain| && 0 <= b < |chain|
               && chain[a] == w.log[i].record.id && chain[b] == w.log[j].record.id {
      Rooted(w, chain, a);
      ChainHasOneRoot(w, chain, a);
      ChainHasOneRoot(w, chain, b);
      assert false;
    }
  }

  /** One member with a chain name gives its predecessors the same. */
  lemma {:induction false} Rooted(w: World, chain: seq<PlanId>, k: nat)
    requires Inv(w) && IsChain(w.store, chain) && k < |chain| && chain[k] in w.root
    ensures chain[0] in w.root
  {
    hide CoverOk, RunsOk, LogOk, AdminOk, Ordered;
    if k > 0 {
      RecordAt(w, chain[k]);
      Rooted(w, chain, k - 1);
    }
  }

  /**
   What was durable when each call went out. A reachable worker's VM is destroyed only after a completed
   drain and a completed replacement; a dead worker's replacement is created only after the old VM is
   fenced and the old node gone; the node is deleted only under evidence proved within the last minute.
   */
  lemma CallsAreInOrder(steps: seq<Step>, k: nat)
    requires k < |Run(FreshWorld, steps).log|
    ensures var ev := Run(FreshWorld, steps).log[k];
            && Started(ev.record, ev.effect) && ev.record.approved && ev.record.acknowledged
            && ev.record.status.Running?
            && (ev.effect.Drain? ==> ev.record.mode.Reachable? && !ev.record.childStarted && !ev.record.fenceStarted)
            && (ev.effect.DestroyVm? && ev.record.mode.Reachable? ==>
                ev.record.drainComplete && ev.record.childComplete)
            && (ev.effect.DestroyVm? && ev.record.mode.Dead? ==> !ev.record.childStarted)
            && (ev.effect.CreateChild? && ev.record.mode.Dead? ==>
                  HasFence(ev.record) && ev.record.fenceStarted && ev.record.nodeDeleted)
            && (ev.effect.CreateChild? && ev.record.mode.Reachable? ==>
                ev.record.drainComplete && !ev.record.fenceStarted)
            && (ev.effect.DeleteNode? ==>
                  && ev.record.fence.Some? && Fresh(ev.record.fence.value, ev.at) && ev.record.fenceStarted
                  && MatchingTask(ev.record.fence.value.task, ev.record.vm)
                  && ev.record.fence.value.machine == ev.record.vm.id
                  && (ev.record.mode.Reachable? ==> ev.record.drainComplete && ev.record.childComplete))
  {
    RunKeeps(steps);
  }

  /** A plan recorded as succeeded went through every stage, and holds proof that its old VM is gone. */
  lemma SuccessIsComplete(steps: seq<Step>, id: PlanId)
    requires var w := Run(FreshWorld, steps); id in w.store && w.store[id].status.Succeeded?
    ensures var p := Run(FreshWorld, steps).store[id];
            && p.childComplete && p.nodeDeleted && p.fenceStarted && (p.mode.Reachable? ==> p.drainComplete)
            && HasFence(p) && MatchingTask(p.fence.value.task, p.vm) && p.fence.value.machine == p.vm.id
  {
    RunKeeps(steps);
    RecordAt(Run(FreshWorld, steps), id);
  }

  // ---------------------------------------------------------------- one line of work per machine

  /** `id` is an unresolved plan for the machine, or a successor still held by its closed predecessor. */
  ghost predicate Claims(store: map<PlanId, Plan>, id: PlanId, vm: string) {
    if id in store then !Resolved(store[id].status) && store[id].vm.id == vm
    else exists from :: Holds(store, from, id, vm)
  }

  ghost predicate Holds(store: map<PlanId, Plan>, from: PlanId, id: PlanId, vm: string) {
    && from in store && store[from].successor.Some? && store[from].successor.value.id == id
    && store[from].successor.value.vm.id == vm
  }

  ghost predicate OneLine(store: map<PlanId, Plan>) {
    forall a, b, vm :: Claims(store, a, vm) && Claims(store, b, vm) ==> a == b
  }

  /** A successor of the machine waits to be stored. */
  ghost predicate Pending(store: map<PlanId, Plan>, vm: string) {
    exists from, id :: Holds(store, from, id, vm) && id !in store
  }

  /**
   Planning a new replacement keeps one line of work per machine exactly when no successor of that
   machine is waiting to be stored. The planning code only looks at stored plans.
   */
  lemma CreateKeepsOneLineIff(w: World, id: PlanId, vm: Machine, mode: Mode, user: string, wr: Write)
    requires Inv(w) && OneLine(w.store) && Stored(wr)
    requires w.admin.Idle? && id !in w.root && id !in w.store && Unclaimed(w.store, vm.id)
    ensures OneLine(Create(w, id, vm, mode, user, wr).store) <==> !Pending(w.store, vm.id)
  {
    hide CoverOk, RunsOk, LogOk, AdminOk, Ordered;
    var s0, s1 := w.store, Create(w, id, vm, mode, user, wr).store;
    assert Claims(s1, id, vm.id);
    if from, n :| Holds(s0, from, n, vm.id) && n !in s0 {
      RecordAt(w, from);
      assert n in w.root && n != id;
      assert Holds(s1, from, n, vm.id);
      assert Claims(s1, n, vm.id);
    } else {
      forall a, b, v | Claims(s1, a, v) && Claims(s1, b, v) ensures a == b {
        Inherited(w, s1, id, a, v);
        Inherited(w, s1, id, b, v);
      }
    }
  }

  lemma Inherited(w: World, s1: map<PlanId, Plan>, id: PlanId, a: PlanId, v: string)
    requires StoreOk(w.store, w.root, w.tip) && id !in w.store && id !in w.root && id in s1
             && s1 == w.store[id := s1[id]] && s1[id].successor.None?
    requires Unclaimed(w.store, s1[id].vm.id) && !Pending(w.store, s1[id].vm.id) && Claims(s1, a, v)
    ensures if a == id then v == s1[id].vm.id else Claims(w.store, a, v) && v != s1[id].vm.id
  {
    hide Ordered;
    if a != id && a !in s1 {
      var from :| Holds(s1, from, a, v);
      assert Holds(w.store, from, a, v);
    }
  }

  /** Rewriting a record without reopening it claims nothing new. */
  lemma PutKeepsOneLine(store: map<PlanId, Plan>, id: PlanId, q: Plan, wr: Write)
    requires OneLine(store) && id in store && q.vm == store[id].vm && q.successor == store[id].successor
    requires !Resolved(q.status) ==> !Resolved(store[id].status)
    ensures OneLine(Save(store, id, q, wr))
  {
    var s1 := Save(store, id, q, wr);
    forall a, v | Claims(s1, a, v) ensures Claims(store, a, v) {
      if a !in s1 {
        var from :| Holds(s1, from, a, v);
        assert Holds(store, from, a, v);
      }
    }
  }

  lemma PublishKeepsOneLine(w: World, from: PlanId, wr: Write)
    requires Inv(w) && OneLine(w.store) && from in w.store && w.store[from].successor.Some?
    ensures OneLine(Publish(w.store, w.store[from].successor.value, wr))
  {
    hide CoverOk, RunsOk, LogOk, AdminOk, Ordered;
    RecordAt(w, from);
    var n := w.store[from].successor.value;
    var s1 := Publish(w.store, n, wr);
    forall a, v | Claims(s1, a, v) ensures Claims(w.store, a, v) {
      if a in s1 && a !in w.store {
        assert Holds(w.store, from, a, v);
      } else if a !in s1 {
        var f :| Holds(s1, f, a, v);
        assert Holds(w.store, f, a, v);
      }
    }
  }

  lemma CommitKeepsOneLine(w: World, id: PlanId, ok: bool, wr: Write)
    requires Inv(w) && OneLine(w.store)
    ensures OneLine(ResumeCommit(w, id, ok, wr).store)
  {
    hide CoverOk, RunsOk, LogOk, Ordered;
    var s1 := ResumeCommit(w, id, ok, wr).store;
    if s1 != w.store {
      var p := w.admin.p;
      forall a, v | Claims(s1, a, v)
        ensures if a == id then v == p.vm.id && Claims(w.store, p.id, v) else a != p.id && Claims(w.store, a, v)
      {
        if a !in s1 {
          var f :| Holds(s1, f, a, v);
          if f != p.id { assert Holds(w.store, f, a, v); RecordAt(w, f); }
        }
      }
    }
  }

  /** Every other step keeps one line of work per machine. */
  lemma OtherStepsKeepOneLine(w: World, s: Step)
    requires Inv(w) && OneLine(w.store) && !s.SCreate?
    ensures OneLine(Apply(w, s).store)
  {
    hide OneLine, RootsOk, CoverOk, LogOk, StoreOk, Ordered, PcOk, Advance, Revalidating, CanSupersede;
    match s
    case SSupersede(id, user, childUnused, wr) =>
      if Apply(w, s) != w {
        Unresolved(w, id, user);
        PutKeepsOneLine(w.store, id, w.store[id].(status := Superseded), wr);
      }
    case SApprove(id, user, confirmed, wr) =>
      if Apply(w, s) != w { PutKeepsOneLine(w.store, id, w.store[id].(approved := true, acknowledged := true), wr); }
    case SBegin(id, wr) =>
      if Apply(w, s) != w { PutKeepsOneLine(w.store, id, w.store[id].(status := Running), wr); }
    case SRun(id, i) =>
      if id in w.runs && id in w.store && id in w.root && !w.runs[id].pc.Leave? && Advance(w.runs[id], w.now, i).saves {
        RunStepPut(w, id, i);
        PutKeepsOneLine(w.store, id, Advance(w.runs[id], w.now, i).p, i.write);
      }
    case SResumeProve(i) =>
      if w.admin.Resuming? && !w.admin.proved {
        RecordAt(w, w.admin.p.id);
        RevalidatingOk(w.admin.p, Check, w.now, i);
        PutKeepsOneLine(w.store, w.admin.p.id, Revalidating(w.admin.p, Check, w.now, i).p, i.write);
      }
    case SResumeCommit(id, ok, wr) => CommitKeepsOneLine(w, id, ok, wr);
    case SResumePublish(wr) => if w.admin.Publishing? { PublishKeepsOneLine(w, w.admin.next.previous.value, wr); }
    case SRebuild(id, user, readable, wr) =>
      if id in w.store && w.store[id].successor.Some? { PublishKeepsOneLine(w, id, wr); }
    case _ =>
  }

  lemma Unresolved(w: World, id: PlanId, user: string)
    requires id in w.store && CanSupersede(w.store[id], w.active, user, w.now)
    ensures !Resolved(w.store[id].status)
  {
  }

  lemma RunStepPut(w: World, id: PlanId, i: Input)
    requires Inv(w) && id in w.runs && id in w.store && !w.runs[id].pc.Leave?
    ensures var q := Advance(w.runs[id], w.now, i).p;
            q.vm == w.store[id].vm && q.successor == w.store[id].successor && !Resolved(w.store[id].status)
  {
    hide RootsOk, CoverOk, LogOk, PcOk, Advance;
    RecordAt(w, id);
    AdvanceOk(w.runs[id], w.now, i);
  }

  const YES :=
    Input(true, false, Landed, "", Replies(None, None, false, None, false, 0), Destruction(false, None, false))

  const WORKER := Machine("m", "p", "n", 100, true)

  function P0(): Plan { NewPlan(0, WORKER, Reachable, "a", 0) }
  function P1(): Plan { P0().(approved := true, acknowledged := true) }
  function P2(): Plan { P1().(status := Running) }
  function P3(): Plan { P2().(effects := true, drainStarted := true) }
  function P4(): Plan { P3().(drainComplete := true) }
  function P5(): Plan { P4().(childStarted := true) }

  function Quiet(store: map<PlanId, Plan>, log: seq<Event>): World {
    World(store, {}, map[], Idle, 0, map[0 := 0], map[0 := 0], log)
  }

  function Busy(p: Plan, pc: Pc, log: seq<Event>): World {
    World(map[0 := p], {0}, map[0 := Exec(p, pc)], Idle, 0, map[0 := 0], map[0 := 0], log)
  }

  lemma Started0() returns (steps: seq<Step>)
    ensures Run(FreshWorld, steps) == Busy(P2(), Check, [])
  {
    var s1, s2, s3 := SCreate(0, WORKER, Reachable, "a", Landed), SApprove(0, "a", true, Landed), SBegin(0, Landed);
    assert Apply(FreshWorld, s1) == Quiet(map[0 := P0()], []);
    assert Apply(Quiet(map[0 := P0()], []), s2) == Quiet(map[0 := P1()], []);
    assert Apply(Quiet(map[0 := P1()], []), s3) == Busy(P2(), Check, []);
    hide Apply, P0, P1, P2, Quiet, Busy;
    steps := [];
    RunSnoc(steps, s1);
    steps := steps + [s1];
    RunSnoc(steps, s2);
    steps := steps + [s2];
    RunSnoc(steps, s3);
    steps := steps + [s3];
  }

  lemma FirstMoves()
    ensures Advance(Exec(P2(), Check), 0, YES) == Stay(P2(), MarkDrain)
    ensures Advance(Exec(P2(), MarkDrain), 0, YES) == Saving(P3(), Call(Drain)) && P3() != P2()
    ensures Advance(Exec(P3(), Call(Drain)), 0, YES) == Move(P3(), FinishDrain, false, Some(Drain))
  {
    assert P3().effects && !P2().effects;
  }

  lemma LastMoves()
    ensures Advance(Exec(P3(), FinishDrain), 0, YES) == Saving(P4(), Child) && P4() != P3()
    ensures Advance(Exec(P4(), Child), 0, YES) == Saving(P5(), Call(CreateChild)) && P5() != P4()
  {
    assert P4().drainComplete && !P3().drainComplete && P5().childStarted && !P4().childStarted;
  }

  /** A reachable replacement that dies right after starting its child leaves a plan that can be resumed. */
  lemma StoppedAfterChild() returns (steps: seq<Step>)
    ensures Run(FreshWorld, steps) == Quiet(map[0 := P5()], [Event(0, Drain, P3(), 0)])
  {
    var log := [Event(0, Drain, P3(), 0)];
    assert Apply(Busy(P5(), Call(CreateChild), log), SCrash) == Quiet(map[0 := P5()], log);
    FirstMoves();
    LastMoves();
    hide Run, Apply, Busy, Quiet, Advance, P2, P3, P4, P5;
    steps := Started0();
    steps := Proceed(steps, P2(), Check, [], P2(), MarkDrain, []);
    steps := Proceed(steps, P2(), MarkDrain, [], P3(), Call(Drain), []);
    steps := Proceed(steps, P3(), Call(Drain), [], P3(), FinishDrain, log);
    steps := Proceed(steps, P3(), FinishDrain, log, P4(), Child, log);
    steps := Proceed(steps, P4(), Child, log, P5(), Call(CreateChild), log);
    RunSnoc(steps, SCrash);
    steps := steps + [SCrash];
  }

  /** One action of the only execution, with every answer positive. */
  lemma Proceed(steps: seq<Step>, p: Plan, pc: Pc, log: seq<Event>, q: Plan, next: Pc, more: seq<Event>)
    returns (longer: seq<Step>)
    requires Run(FreshWorld, steps) == Busy(p, pc, log)
    requires !pc.Leave?
             && Advance(Exec(p, pc), 0, YES) == Move(q, next, q != p, if more == log then None else Some(Drain))
    requires more == log || more == log + [Event(0, Drain, p, 0)]
    ensures Run(FreshWorld, longer) == Busy(q, next, more)
  {
    hide Advance;
    RunSnoc(steps, SRun(0, YES));
    longer := steps + [SRun(0, YES)];
  }

  /**
   The promise fails when the second write of a resume is missing: the machine then has no open plan
   in the store, a new replacement is planned for it, and the successor is rebuilt beside it.
   */
  lemma TwoLinesForOneMachine() returns (steps: seq<Step>)
    ensures !OneLine(Run(FreshWorld, steps).store)
  {
    var log := [Event(0, Drain, P3(), 0)];
    var open, commit := SResumeOpen(0, "a", true), SResumeCommit(1, true, FailedNew);
    var plan, rebuild := SCreate(2, WORKER, Reachable, "a", Landed), SRebuild(0, "a", true, Landed);
    var w0 := Quiet(map[0 := P5()], log);
    var w1 := Apply(w0, open);
    assert w1 == w0.(admin := Resuming(P5(), "a", true));
    var w2 := Apply(w1, commit);
    GapAfterCommit(w1, w2);
    var w3 := Apply(w2, plan);
    var w4 := Apply(w3, rebuild);
    SecondLine(w2, w3, w4);
    hide Run, Apply, Quiet, P5, OneLine;
    steps := StoppedAfterChild();
    RunSnoc(steps, open);
    steps := steps + [open];
    RunSnoc(steps, commit);
    steps := steps + [commit];
    RunSnoc(steps, plan);
    steps := steps + [plan];
    RunSnoc(steps, rebuild);
    steps := steps + [rebuild];
  }

  function Next5(): Plan { Successor(P5(), 1, "a", 0) }

  /** The first write of the resume landed although it reported an error. */
  lemma GapAfterCommit(w1: World, w2: World)
    requires w1.admin == Resuming(P5(), "a", true) && w1.store == map[0 := P5()] && w1.root == map[0 := 0]
             && w1.now == 0 && w1.active == {}
    requires w2 == Apply(w1, SResumeCommit(1, true, FailedNew))
    ensures w2.store == map[0 := P5().(status := Superseded, successor := Some(Next5()))]
    ensures w2.admin.Idle? && w2.root == map[0 := 0, 1 := 0] && w2.now == 0 && w2.active == {}
  {
  }

  lemma SecondLine(w2: World, w3: World, w4: World)
    requires w2.store == map[0 := P5().(status := Superseded, successor := Some(Next5()))]
    requires w2.admin.Idle? && w2.root == map[0 := 0, 1 := 0] && w2.now == 0 && w2.active == {}
    requires w3 == Apply(w2, SCreate(2, WORKER, Reachable, "a", Landed))
             && w4 == Apply(w3, SRebuild(0, "a", true, Landed))
    ensures !OneLine(w4.store)
  {
    PlannedBeside(w2, w3);
    RebuiltBeside(w3, w4);
    hide Apply, P5, Successor;
    assert Next5().status.Planned? && Next5().vm == WORKER by { NextFacts(); }
    assert Claims(w4.store, 1, "m") && Claims(w4.store, 2, "m");
  }

  lemma NextFacts()
    ensures Next5().status.Planned? && Next5().vm == WORKER && Next5().id == 1 && Next5().author == "a"
            && Next5().previous == Some(0)
  {
  }

  lemma PlannedBeside(w2: World, w3: World)
    requires w2.store == map[0 := P5().(status := Superseded, successor := Some(Next5()))]
    requires w2.admin.Idle? && w2.root == map[0 := 0, 1 := 0] && w2.now == 0 && w2.active == {}
    requires w3 == Apply(w2, SCreate(2, WORKER, Reachable, "a", Landed))
    ensures w3.store == w2.store[2 := NewPlan(2, WORKER, Reachable, "a", 0)] && w3.admin.Idle? && w3.active == {}
  {
    hide P5, Next5, NewPlan;
  }

  lemma RebuiltBeside(w3: World, w4: World)
    requires w3.admin.Idle? && w3.active == {} && 0 in w3.store && 1 !in w3.store
    requires w3.store[0].status.Superseded? && w3.store[0].successor == Some(Next5())
    requires w4 == Apply(w3, SRebuild(0, "a", true, Landed))
    ensures w4.store == w3.store[1 := Next5()]
  {
    NextFacts();
    hide P5, Next5;
  }
}
