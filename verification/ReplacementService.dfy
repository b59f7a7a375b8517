/**
 The replacement service as an object. Every method is the source's own sequence of checks, writes and
 calls, and `Valid` says that whatever it does is a run of the replacement machine: each primitive
 refuses to act unless the machine takes the same action at this place.
 */
module ReplacementService {
  import opened Basics
  import opened Fencing
  import opened Replacement
  import Safety = ReplacementSafety

  /** Prove the fence again: the plan to save, whether to save it, and whether to go on. */
  method ProveAgain(p: Plan, next: Pc, now: int, i: Input) returns (q: Plan, saves: bool, good: bool)
    requires !next.End?
    ensures Revalidating(p, next, now, i) == Move(q, if good then next else End(false), saves, None)
    ensures q == p.(fence := q.fence, reused := q.reused) && (good ==> saves) && (!saves ==> q == p)
    ensures saves == p.fence.Some?
    ensures p.fence.Some? ==>
              var prior := p.fence.value;
              var (evidence, proved) := Revalidate(p.vm, prior, i.home, i.replies);
              if !proved && p.nodeDeleted && p.childStarted && prior.outcome == Fenced && prior.task.Some?
                 && prior.machine == p.vm.id && i.reuse
              then good && q == p.(reused := true)
              else q == p.(fence := Some(evidence)) && (good <==> proved && Fresh(evidence, now))
  {
    hide Revalidate, Fresh, Revalidating;
    RevalidatingCases(p, next, now, i);
    if p.fence.None? { return p, false, false; }
    var prior := p.fence.value;
    var evidence, proved := RevalidateWorkerFence(p.vm, prior, i.home, i.replies);
    if !proved && p.nodeDeleted && p.childStarted && prior.outcome.Fenced? && prior.task.Some?
       && prior.machine == p.vm.id && i.reuse {
      return p.(reused := true), true, true;
    }
    return p.(fence := Some(evidence)), true, proved && Fresh(evidence, now);
  }

  /** The places at which the workflow proves the fence again, and what follows each. */
  predicate Proves(p: Plan, pc: Pc, next: Pc) {
    || (pc.Adopt? && p.fenceStarted && next.AdoptChild?) || (pc.Fence? && p.fenceStarted && next.Node?)
    || (pc.ProveNode? && next.MarkNode?) || (pc.ConcludeFence? && next.ConcludeNode?)
  }

  lemma ProvesMove(p: Plan, pc: Pc, next: Pc, now: int, i: Input)
    requires Proves(p, pc, next)
    ensures Advance(Exec(p, pc), now, i) == Revalidating(p, next, now, i)
  {
    hide Revalidating;
  }

  /** `b` is the record `a`, or `a` closed because it never started. */
  ghost predicate Closed(a: Plan, b: Plan, active: set<PlanId>, user: string, now: int) {
    a == b || (CanSupersede(a, active, user, now) && b == a.(status := Superseded))
  }

  ghost predicate AllClosed(s0: map<PlanId, Plan>, s1: map<PlanId, Plan>, active: set<PlanId>, user: string, now: int) {
    s0.Keys == s1.Keys && forall k :: k in s0 ==> Closed(s0[k], s1[k], active, user, now)
  }

  /** The plans in `todo` are untouched, and the others resolved or of other machines. */
  ghost predicate Looked(before: map<PlanId, Plan>, store: map<PlanId, Plan>, todo: set<PlanId>, vm: Machine,
                         active: set<PlanId>, user: string, now: int) {
    && AllClosed(before, store, active, user, now) && todo <= store.Keys
    && (forall k :: k in todo ==> store[k] == before[k])
    && (forall k :: k in store && k !in todo && store[k].vm.id == vm.id ==> Resolved(store[k].status))
  }

  lemma LookedAt(before: map<PlanId, Plan>, was: map<PlanId, Plan>, store: map<PlanId, Plan>, todo: set<PlanId>,
                 vm: Machine, active: set<PlanId>, user: string, now: int, k: PlanId)
    requires Looked(before, was, todo, vm, active, user, now) && k in todo && store.Keys == was.Keys
    requires forall j :: j in store && j != k ==> store[j] == was[j]
    requires Closed(was[k], store[k], active, user, now)
    ensures AllClosed(before, store, active, user, now)
    ensures (store[k].vm.id == vm.id ==> Resolved(store[k].status)) ==>
              Looked(before, store, todo - {k}, vm, active, user, now)
  {
    hide Closed, Resolved;
  }

  lemma LookedAtAll(before: map<PlanId, Plan>, store: map<PlanId, Plan>, vm: Machine, active: set<PlanId>, user: string,
                    now: int)
    requires Looked(before, store, {}, vm, active, user, now)
    ensures AllClosed(before, store, active, user, now) && Unclaimed(store, vm.id)
  {
    hide Closed, Resolved;
  }

  /** What is closed never started, and nobody can be about to run it. */
  lemma ClosedMeans(active: set<PlanId>, user: string, now: int)
    ensures forall a, b :: Closed(a, b, active, user, now) <==>
              b == a
              || (&& b == a.(status := Superseded) && a.author == user && a.id !in active
                  && !a.effects && !a.drainStarted && !a.fenceStarted && !a.nodeDeleteStarted && !a.childStarted
                  && (a.status == RequiresReview || (a.status == Planned && (!a.approved || now > a.expiresAt))))
  {
  }

  lemma SameIsClosed(active: set<PlanId>, user: string, now: int)
    ensures forall p :: Closed(p, p, active, user, now)
  {
  }

  /** Plan `first` is closed and names its stored successor, which has forgotten nothing that was started. */
  ghost predicate Continued(first: Plan, store: map<PlanId, Plan>, id: PlanId, newId: PlanId, user: string) {
    && id in store && newId in store && store[id].status.Superseded? && store[id].successor == Some(store[newId])
    && var n := store[newId];
       && n.id == newId && n.previous == Some(id) && n.resume && !n.approved && n.status.Planned? && n.author == user
       && Inherits(first, n)
  }

  /** What was started or completed stays so; a deletion that was started counts as done, and is observed again. */
  predicate Inherits(first: Plan, n: Plan) {
    && n.vm == first.vm && n.mode == first.mode && n.drainStarted == first.drainStarted
    && n.drainComplete == first.drainComplete && n.fenceStarted == first.fenceStarted
    && n.nodeDeleteStarted == first.nodeDeleteStarted && n.nodeDeleted == (first.nodeDeleted || first.nodeDeleteStarted)
    && n.childStarted == first.childStarted && n.childComplete == first.childComplete
  }

  /** A successor waits for a new approval and forgets nothing that was started. */
  lemma SuccessorFacts(first: Plan, p: Plan, id: PlanId, user: string, now: int)
    requires p == first.(fence := p.fence, reused := p.reused)
    ensures var n := Successor(p, id, user, now);
            && n.id == id && n.previous == Some(p.id) && n.resume && !n.approved && n.status.Planned?
            && n.author == user && Inherits(first, n)
  {
  }

  lemma VerifyMove(p: Plan, round: Round, now: int, i: Input)
    ensures Advance(Exec(p, FinishVerify(round)), now, i) ==
            if !i.ok then Stay(p, End(false))
            else if round.Adopting? then Saving(p.(childComplete := true), AfterStart(p.(childComplete := true)))
            else Saving(p.(childComplete := true), MarkWorkloads)
  {
  }

  lemma NodeMove(p: Plan, now: int, i: Input)
    ensures Advance(Exec(p, MarkNode), now, i) == Saving(p.(nodeDeleteStarted := true), Call(DeleteNode))
    ensures Advance(Exec(p, Call(DeleteNode)), now, i) ==
            if i.ok && p.fence.Some? && Fresh(p.fence.value, now) then Move(p, FinishNode, false, Some(DeleteNode))
            else Stay(p, End(false))
  {
  }

  lemma NodeEnds(p: Plan, now: int, i: Input)
    ensures Advance(Exec(p, FinishNode), now, i) ==
            if i.ok then Saving(p.(nodeDeleted := true), AfterNode(p.(nodeDeleted := true))) else Stay(p, End(false))
  {
  }

  lemma NodeStart(p: Plan, now: int, i: Input)
    ensures Advance(Exec(p, Node), now, i) ==
            if !i.ok then Stay(p, End(false))
            else if p.nodeDeleted then Stay(p, AfterNode(p))
            else if p.nodeDeleteStarted then Saving(p.(nodeDeleted := true), AfterNode(p.(nodeDeleted := true)))
            else Stay(p, ProveNode)
  {
  }

  lemma EndMove(p: Plan, done: bool, now: int, i: Input)
    ensures Advance(Exec(p, End(done)), now, i) ==
            Saving(p.(status := if done then Succeeded else RequiresReview), Leave)
  {
  }

  lemma DrainMove(p: Plan, now: int, i: Input)
    ensures Advance(Exec(p, MarkDrain), now, i) == Saving(p.(effects := true, drainStarted := true), Call(Drain))
    ensures Advance(Exec(p, Call(Drain)), now, i) == if i.ok then Move(p, FinishDrain, false, Some(Drain))
            else Stay(p, End(false))
    ensures Advance(Exec(p, FinishDrain), now, i) == if i.ok then Saving(p.(drainComplete := true), Child)
            else Stay(p, End(false))
  {
  }

  lemma FenceStart(p: Plan, now: int, i: Input)
    requires !p.fenceStarted
    ensures Advance(Exec(p, Fence), now, i) ==
            if i.ok then Saving(p.(effects := true, fenceStarted := true), Call(DestroyVm)) else Stay(p, End(false))
  {
  }

  lemma ChildMove(p: Plan, now: int, i: Input)
    ensures !p.childComplete ==>
              Advance(Exec(p, Child), now, i) ==
              if p.childStarted || !i.ok then Stay(p, End(false))
              else Saving(p.(effects := true, childStarted := true), Call(CreateChild))
    ensures Advance(Exec(p, Call(CreateChild)), now, i) ==
            if i.ok then Move(p, FinishChild, false, Some(CreateChild)) else Stay(p, End(false))
  {
  }

  lemma ChildEnds(p: Plan, now: int, i: Input)
    ensures Advance(Exec(p, FinishChild), now, i) ==
            if i.ok then Saving(p.(childComplete := true), AfterChild(p.(childComplete := true)))
            else Stay(p, End(false))
  {
  }

  /** What a step of an execution does to the world, by the kind of its action. */
  lemma StepEffect(w: World, id: PlanId, i: Input, m: Move)
    requires id in w.runs && id in w.store && id in w.root && !w.runs[id].pc.Leave?
             && Advance(w.runs[id], w.now, i) == m
    ensures m.saves && m.call.None? && !w.runs[id].pc.End? ==>
              RunStep(w, id, i) ==
                w.(store := Save(w.store, id, m.p, i.write),
                   runs := w.runs[id := Exec(m.p, if i.write.Landed? then m.next else End(false))])
    ensures m.saves && m.call.None? && w.runs[id].pc.End? ==>
              RunStep(w, id, i) == w.(store := Save(w.store, id, m.p, i.write), runs := w.runs[id := Exec(m.p, m.next)])
    ensures !m.saves && m.call.None? ==> RunStep(w, id, i) == w.(runs := w.runs[id := Exec(m.p, m.next)])
    ensures !m.saves && m.call.Some? ==>
              RunStep(w, id, i) ==
                w.(runs := w.runs[id := Exec(m.p, m.next)],
                   log := w.log + [Event(w.root[id], m.call.value, w.store[id], w.now)])
  {
    hide Advance;
    assert w.log + [] == w.log;
  }

  /** The same, from one reachable world to the next. */
  lemma NextWorld(w: World, trace: seq<Step>, id: PlanId, i: Input, m: Move)
    requires w == Run(FreshWorld, trace)
    requires id in w.runs && id in w.store && id in w.root && !w.runs[id].pc.Leave?
             && Advance(w.runs[id], w.now, i) == m
    ensures m.saves && m.call.None? && !w.runs[id].pc.End? ==>
              Run(FreshWorld, trace + [SRun(id, i)]) ==
              w.(store := Save(w.store, id, m.p, i.write),
                 runs := w.runs[id := Exec(m.p, if i.write.Landed? then m.next else End(false))])
    ensures m.saves && m.call.None? && w.runs[id].pc.End? ==>
              Run(FreshWorld, trace + [SRun(id, i)]) ==
                w.(store := Save(w.store, id, m.p, i.write), runs := w.runs[id := Exec(m.p, m.next)])
    ensures !m.saves && m.call.None? ==>
            Run(FreshWorld, trace + [SRun(id, i)]) == w.(runs := w.runs[id := Exec(m.p, m.next)])
    ensures !m.saves && m.call.Some? ==>
              Run(FreshWorld, trace + [SRun(id, i)]) ==
              w.(runs := w.runs[id := Exec(m.p, m.next)],
                 log := w.log + [Event(w.root[id], m.call.value, w.store[id], w.now)])
  {
    StepEffect(w, id, i, m);
    RunSnoc(trace, SRun(id, i));
    hide Advance, Run, RunStep;
  }

  /** A commit of a resume, from one reachable world to the next. */
  lemma NextCommit(w: World, trace: seq<Step>, id: PlanId, wr: Write)
    requires w == Run(FreshWorld, trace) && w.admin.Resuming? && w.admin.proved && id !in w.root && id !in w.store
    requires w.admin.p.id in w.store && w.admin.p.id in w.root
    ensures var from, next := w.admin.p.id, Successor(w.admin.p, id, w.admin.user, w.now);
            Run(FreshWorld, trace + [SResumeCommit(id, true, wr)]) ==
            w.(store := Save(w.store, from, ClosedBy(w.store[from], next), wr),
               admin := if wr.Landed? then Publishing(next) else Idle, root := w.root[id := w.root[from]],
               tip := if Stored(wr) then w.tip[w.root[from] := id] else w.tip)
  {
    RunSnoc(trace, SResumeCommit(id, true, wr));
    hide Run, Successor, ClosedBy;
  }

  /** A rebuild, from one reachable world to the next. */
  lemma NextRebuild(w: World, trace: seq<Step>, id: PlanId, user: string, readable: bool, wr: Write)
    requires w == Run(FreshWorld, trace) && w.admin.Idle? && id !in w.active && id in w.store
    requires w.store[id].status.Superseded? && w.store[id].successor.Some?
    requires var n := w.store[id].successor.value;
             !(n.id in w.store && readable) && n.author == user && n.status.Planned? && n.previous == Some(id)
    ensures Run(FreshWorld, trace + [SRebuild(id, user, readable, wr)]) ==
            w.(store := Publish(w.store, w.store[id].successor.value, wr))
  {
    RunSnoc(trace, SRebuild(id, user, readable, wr));
    hide Run;
  }

  /** At most one call went out, and it was `e`. */
  ghost predicate AtMostOne(before: seq<Event>, after: seq<Event>, e: Effect) {
    after == before || (|after| == |before| + 1 && after[..|before|] == before && after[|before|].effect == e)
  }

  class Service {
    var store: map<PlanId, Plan>
    var active: set<PlanId>
    var now: int
    ghost var runs: map<PlanId, Exec>
    ghost var admin: Admin
    ghost var root: map<PlanId, PlanId>
    ghost var tip: map<PlanId, PlanId>
    ghost var log: seq<Event>
    ghost var trace: seq<Step>

    ghost function View(): World
      reads this
    {
      World(store, active, runs, admin, now, root, tip, log)
    }

    /** The object is in a state the machine reaches. */
    ghost predicate Valid()
      reads this
    {
      View() == Run(FreshWorld, trace)
    }

    constructor ()
      ensures Valid() && View() == FreshWorld && trace == []
    {
      store, active, now := map[], {}, 0;
      runs, admin, root, tip, log, trace := map[], Idle, map[], map[], [], [];
    }

    /** The execution of plan `id` holds `p` and is about to do `pc`. */
    ghost predicate At(id: PlanId, p: Plan, pc: Pc)
      reads this
    {
      Valid() && id in store && id in root && id in active && id in runs && runs[id] == Exec(p, pc) && p.id == id
    }

    /** The outside answers, whatever it answers, after some time. */
    method Ask(id: PlanId, ghost p: Plan, ghost pc: Pc) returns (i: Input)
      requires At(id, p, pc)
      modifies this`now, this`trace
      ensures At(id, p, pc) && p.id == id && now >= old(now)
    {
      i := *;
      var elapsed: nat := *;
      RunSnoc(trace, STick(elapsed));
      now := now + elapsed;
      trace := trace + [STick(elapsed)];
      hide Run;
    }

    /** Save the plan of an execution. */
    method SavePlan(id: PlanId, p: Plan, i: Input, ghost q: Plan, ghost pc: Pc, ghost next: Pc) returns (ok: bool)
      requires At(id, q, pc) && !pc.Leave? && !pc.End? && p.id == id
      requires Advance(Exec(q, pc), now, i) == Saving(p, next)
      modifies this`store, this`now, this`runs, this`trace
      ensures ok == i.write.Landed? && At(id, p, if ok then next else End(false))
      ensures now == old(now) && (ok ==> store[id] == p)
    {
      hide Advance, Run;
      NextWorld(View(), trace, id, i, Saving(p, next));
      ok := i.write.Landed?;
      runs := runs[id := Exec(p, if ok then next else End(false))];
      trace := trace + [SRun(id, i)];
      if Stored(i.write) { store := store[id := p]; }
    }

    /** Hand an effect to the outside. */
    method CallOut(id: PlanId, e: Effect, i: Input, ghost p: Plan, ghost next: Pc)
      requires At(id, p, Call(e)) && Advance(Exec(p, Call(e)), now, i) == Move(p, next, false, Some(e))
      modifies this`runs, this`log, this`trace
      ensures At(id, p, next)
      ensures log == old(log) + [Event(root[id], e, store[id], now)]
    {
      hide Advance, Run;
      NextWorld(View(), trace, id, i, Move(p, next, false, Some(e)));
      log := log + [Event(root[id], e, store[id], now)];
      runs := runs[id := Exec(p, next)];
      trace := trace + [SRun(id, i)];
    }

    /** A check, a read or a checkpoint: nothing changes but the place in the workflow. */
    method Look(id: PlanId, i: Input, ghost p: Plan, ghost pc: Pc, ghost next: Pc)
      requires At(id, p, pc) && !pc.Leave? && !pc.End? && Advance(Exec(p, pc), now, i) == Stay(p, next)
      modifies this`runs, this`trace
      ensures At(id, p, next)
    {
      hide Advance, Run;
      NextWorld(View(), trace, id, i, Stay(p, next));
      runs := runs[id := Exec(p, next)];
      trace := trace + [SRun(id, i)];
    }

    /** Prove the fence again without touching the provider. */
    method RevalidateFence(id: PlanId, p: Plan, pc: Pc, next: Pc) returns (ok: bool, q: Plan)
      requires At(id, p, pc) && Proves(p, pc, next)
      modifies this`store, this`now, this`runs, this`trace
      ensures At(id, q, if ok then next else End(false))
      ensures q == p.(fence := q.fence, reused := q.reused)
    {
      hide At, Run, Advance, Revalidating;
      var i := Ask(id, p, pc);
      ProvesMove(p, pc, next, now, i);
      var saves, good;
      q, saves, good := ProveAgain(p, next, now, i);
      if saves {
        ok := RecordProof(id, p, q, i, pc, next, good);
      } else {
        Look(id, i, p, pc, End(false));
        ok := false;
      }
    }

    method RecordProof(id: PlanId, p: Plan, q: Plan, i: Input, pc: Pc, next: Pc, good: bool) returns (ok: bool)
      requires At(id, p, pc) && !pc.Leave? && !pc.End? && q.id == id
      requires Advance(Exec(p, pc), now, i) == Saving(q, if good then next else End(false))
      modifies this`store, this`now, this`runs, this`trace
      ensures At(id, q, if ok then next else End(false))
    {
      hide At, Advance;
      if good {
        ok := SavePlan(id, q, i, p, pc, next);
      } else {
        ok := SavePlan(id, q, i, p, pc, End(false));
        ok := false;
      }
    }

    /** Destroy the old machine once, or prove again that it is gone. */
    method FenceOld(id: PlanId, p: Plan) returns (ok: bool, q: Plan)
      requires At(id, p, Fence)
      modifies this`store, this`now, this`runs, this`log, this`trace
      ensures At(id, q, if ok then Node else End(false)) && q.mode == p.mode && q.drainComplete == p.drainComplete
      ensures AtMostOne(old(log), log, DestroyVm) && (p.fenceStarted ==> log == old(log))
    {
      hide At, Run, Advance;
      q := p;
      if p.fenceStarted {
        ok, q := RevalidateFence(id, p, Fence, Node);
        return;
      }
      var i := Ask(id, p, Fence);
      FenceStart(p, now, i);
      if !i.ok {
        Look(id, i, p, Fence, End(false));
        return false, q;
      }
      q := p.(effects := true, fenceStarted := true);
      ok := SavePlan(id, q, i, p, Fence, Call(DestroyVm));
      if !ok { return; }
      ok, q := Destroy(id, q);
    }

    method Destroy(id: PlanId, p: Plan) returns (ok: bool, q: Plan)
      requires At(id, p, Call(DestroyVm))
      modifies this`store, this`now, this`runs, this`log, this`trace
      ensures At(id, q, if ok then Node else End(false)) && q.mode == p.mode && q.drainComplete == p.drainComplete
      ensures AtMostOne(old(log), log, DestroyVm)
    {
      hide At, Run, Destroyed;
      q := p;
      var i := Ask(id, p, Call(DestroyVm));
      if !i.ok {
        Look(id, i, p, Call(DestroyVm), End(false));
        return false, q;
      }
      var (evidence, proved) := Destroyed(p.vm, i.home, i.destruction, i.replies);
      CallOut(id, DestroyVm, i, p, SaveFence(evidence, proved));
      ok, q := RecordFence(id, p, evidence, proved);
    }

    /** The evidence is saved even when it proves nothing. */
    method RecordFence(id: PlanId, p: Plan, evidence: Evidence, proved: bool) returns (ok: bool, q: Plan)
      requires At(id, p, SaveFence(evidence, proved))
      modifies this`store, this`now, this`runs, this`trace
      ensures At(id, q, if ok then Node else End(false)) && q.mode == p.mode && q.drainComplete == p.drainComplete
    {
      hide At, Run, Fresh;
      var i := Ask(id, p, SaveFence(evidence, proved));
      q := p.(fence := Some(evidence));
      if !proved || !Fresh(evidence, now) {
        ok := SavePlan(id, q, i, p, SaveFence(evidence, proved), End(false));
        return false, q;
      }
      ok := SavePlan(id, q, i, p, SaveFence(evidence, proved), FenceIntent);
      if !ok { return; }
      i := Ask(id, q, FenceIntent);
      ok := i.ok;
      Look(id, i, q, FenceIntent, if ok then Node else End(false));
    }

    /** Delete the stale node once, under fresh evidence, or observe that it is gone. */
    method RemoveNode(id: PlanId, p: Plan) returns (ok: bool, q: Plan)
      requires At(id, p, Node)
      modifies this`store, this`now, this`runs, this`log, this`trace
      ensures At(id, q, if ok then AfterNode(q) else End(false)) && q.mode == p.mode
              && q.drainComplete == p.drainComplete
      ensures AtMostOne(old(log), log, DeleteNode) && (p.nodeDeleteStarted ==> log == old(log))
    {
      hide At, Run, Advance, AfterNode;
      q := p;
      var i := Ask(id, p, Node);
      NodeStart(p, now, i);
      if !i.ok {
        Look(id, i, p, Node, End(false));
        return false, q;
      }
      if p.nodeDeleted {
        Look(id, i, p, Node, AfterNode(p));
        return true, q;
      }
      if p.nodeDeleteStarted {
        q := p.(nodeDeleted := true);
        ok := SavePlan(id, q, i, p, Node, AfterNode(q));
        return;
      }
      Look(id, i, p, Node, ProveNode);
      ok, q := ProveAndDelete(id, p);
    }

    method ProveAndDelete(id: PlanId, p: Plan) returns (ok: bool, q: Plan)
      requires At(id, p, ProveNode)
      modifies this`store, this`now, this`runs, this`log, this`trace
      ensures At(id, q, if ok then AfterNode(q) else End(false)) && q.mode == p.mode
              && q.drainComplete == p.drainComplete
      ensures AtMostOne(old(log), log, DeleteNode)
    {
      hide At, Run, AfterNode;
      ok, q := RevalidateFence(id, p, ProveNode, MarkNode);
      if ok { ok, q := DeleteNodeOnce(id, q); }
    }

    method DeleteNodeOnce(id: PlanId, p: Plan) returns (ok: bool, q: Plan)
      requires At(id, p, MarkNode)
      modifies this`store, this`now, this`runs, this`log, this`trace
      ensures At(id, q, if ok then AfterNode(q) else End(false)) && q.mode == p.mode
              && q.drainComplete == p.drainComplete
      ensures AtMostOne(old(log), log, DeleteNode)
    {
      hide At, Run, Fresh, Advance, AfterNode;
      var i := Ask(id, p, MarkNode);
      NodeMove(p, now, i);
      q := p.(nodeDeleteStarted := true);
      ok := SavePlan(id, q, i, p, MarkNode, Call(DeleteNode));
      if !ok { return; }
      i := Ask(id, q, Call(DeleteNode));
      NodeMove(q, now, i);
      if !i.ok || q.fence.None? || !Fresh(q.fence.value, now) {
        Look(id, i, q, Call(DeleteNode), End(false));
        return false, q;
      }
      CallOut(id, DeleteNode, i, q, FinishNode);
      ok, q := AwaitAbsence(id, q);
    }

    method AwaitAbsence(id: PlanId, p: Plan) returns (ok: bool, q: Plan)
      requires At(id, p, FinishNode)
      modifies this`store, this`now, this`runs, this`trace
      ensures At(id, q, if ok then AfterNode(q) else End(false)) && q.mode == p.mode
              && q.drainComplete == p.drainComplete
    {
      hide *;
      q := p;
      var i := Ask(id, p, FinishNode);
      NodeEnds(p, now, i);
      if !i.ok {
        Look(id, i, p, FinishNode, End(false));
        return false, q;
      }
      q := p.(nodeDeleted := true);
      ok := SavePlan(id, q, i, p, FinishNode, AfterNode(q));
    }

    method CreateReplacement(id: PlanId, p: Plan) returns (ok: bool, q: Plan)
      requires At(id, p, Child) && !p.childComplete
      modifies this`store, this`now, this`runs, this`log, this`trace
      ensures At(id, q, if ok then AfterChild(q) else End(false)) && q.mode == p.mode
              && q.drainComplete == p.drainComplete
      ensures AtMostOne(old(log), log, CreateChild) && (p.childStarted ==> log == old(log))
    {
      hide At, Run, Advance, AfterChild;
      q := p;
      var i := Ask(id, p, Child);
      ChildMove(p, now, i);
      if p.childStarted || !i.ok {
        Look(id, i, p, Child, End(false));
        return false, q;
      }
      q := p.(effects := true, childStarted := true);
      ok := SavePlan(id, q, i, p, Child, Call(CreateChild));
      if ok { ok, q := RunChild(id, q); }
    }

    method RunChild(id: PlanId, p: Plan) returns (ok: bool, q: Plan)
      requires At(id, p, Call(CreateChild))
      modifies this`store, this`now, this`runs, this`log, this`trace
      ensures At(id, q, if ok then AfterChild(q) else End(false)) && q.mode == p.mode
              && q.drainComplete == p.drainComplete
      ensures AtMostOne(old(log), log, CreateChild)
    {
      hide At, Run, Advance, AfterChild;
      q := p;
      var i := Ask(id, p, Call(CreateChild));
      ChildMove(p, now, i);
      if !i.ok {
        Look(id, i, p, Call(CreateChild), End(false));
        return false, q;
      }
      CallOut(id, CreateChild, i, p, FinishChild);
      ok, q := FinishCreation(id, p);
    }

    /** After the call: wait for the child's own record. */
    method FinishCreation(id: PlanId, p: Plan) returns (ok: bool, q: Plan)
      requires At(id, p, FinishChild)
      modifies this`store, this`now, this`runs, this`trace
      ensures At(id, q, if ok then AfterChild(q) else End(false)) && q.mode == p.mode
              && q.drainComplete == p.drainComplete
    {
      hide *;
      q := p;
      var i := Ask(id, p, FinishChild);
      ChildEnds(p, now, i);
      if !i.ok {
        Look(id, i, p, FinishChild, End(false));
        return false, q;
      }
      q := p.(childComplete := true);
      ok := SavePlan(id, q, i, p, FinishChild, AfterChild(q));
    }

    method VerifyChild(id: PlanId, p: Plan, round: Round) returns (ok: bool, q: Plan)
      requires At(id, p, MarkVerify(round))
      modifies this`store, this`now, this`runs, this`trace
      ensures At(id, q, if !ok then End(false) else if round.Adopting? then AfterStart(q) else MarkWorkloads)
      ensures q.mode == p.mode && q.drainComplete == p.drainComplete && (ok ==> q.childComplete)
    {
      hide At, Run;
      q := p;
      var i := Ask(id, p, MarkVerify(round));
      if !i.ok {
        Look(id, i, p, MarkVerify(round), End(false));
        return false, q;
      }
      ok := SavePlan(id, p, i, p, MarkVerify(round), FinishVerify(round));
      if !ok { return; }
      ok, q := FinishVerifying(id, p, round);
    }

    method FinishVerifying(id: PlanId, p: Plan, round: Round) returns (ok: bool, q: Plan)
      requires At(id, p, FinishVerify(round))
      modifies this`store, this`now, this`runs, this`trace
      ensures At(id, q, if !ok then End(false) else if round.Adopting? then AfterStart(q) else MarkWorkloads)
      ensures q.mode == p.mode && q.drainComplete == p.drainComplete && (ok ==> q.childComplete)
    {
      hide *;
      q := p;
      var i := Ask(id, p, FinishVerify(round));
      VerifyMove(p, round, now, i);
      if !i.ok {
        Look(id, i, p, FinishVerify(round), End(false));
        return false, q;
      }
      q := p.(childComplete := true);
      ghost var next := if round.Adopting? then AfterStart(q) else MarkWorkloads;
      ok := SavePlan(id, q, i, p, FinishVerify(round), next);
    }

    method DrainOld(id: PlanId, p: Plan) returns (ok: bool, q: Plan)
      requires At(id, p, MarkDrain)
      modifies this`store, this`now, this`runs, this`log, this`trace
      ensures At(id, q, if ok then Child else End(false)) && q.mode == p.mode && q.childComplete == p.childComplete
              && (ok ==> q.drainComplete)
    {
      hide At, Run, Advance;
      var i := Ask(id, p, MarkDrain);
      DrainMove(p, now, i);
      q := p.(effects := true, drainStarted := true);
      ok := SavePlan(id, q, i, p, MarkDrain, Call(Drain));
      if !ok { return; }
      i := Ask(id, q, Call(Drain));
      DrainMove(q, now, i);
      if !i.ok {
        Look(id, i, q, Call(Drain), End(false));
        return false, q;
      }
      CallOut(id, Drain, i, q, FinishDrain);
      ok, q := FinishDraining(id, q);
    }

    method FinishDraining(id: PlanId, p: Plan) returns (ok: bool, q: Plan)
      requires At(id, p, FinishDrain)
      modifies this`store, this`now, this`runs, this`log, this`trace
      ensures At(id, q, if ok then Child else End(false)) && q.mode == p.mode && q.childComplete == p.childComplete
              && (ok ==> q.drainComplete)
    {
      hide At, Run, Advance;
      q := p;
      var i := Ask(id, p, FinishDrain);
      DrainMove(p, now, i);
      if !i.ok {
        Look(id, i, p, FinishDrain, End(false));
        return false, q;
      }
      q := p.(drainComplete := true);
      ok := SavePlan(id, q, i, p, FinishDrain, Child);
    }

    /** Checks, then either the drain of a first run or the adoption of an existing replacement. */
    method Prepare(id: PlanId, p: Plan) returns (ok: bool, q: Plan)
      requires At(id, p, Check)
      modifies this`store, this`now, this`runs, this`log, this`trace
      ensures At(id, q, if ok then AfterStart(q) else End(false)) && q.mode == p.mode
    {
      hide At, Run, Revalidate, Revalidating;
      q := p;
      var i := Ask(id, p, Check);
      if !i.ok {
        Look(id, i, p, Check, End(false));
        return false, q;
      }
      if !p.resume {
        Look(id, i, p, Check, if p.mode.Reachable? then MarkDrain else Fence);
        if p.mode.Dead? { return true, q; }
        ok, q := DrainOld(id, p);
        return;
      }
      Look(id, i, p, Check, Adopt);
      if p.fenceStarted {
        ok, q := RevalidateFence(id, p, Adopt, AdoptChild);
        if !ok { return; }
      } else {
        i := Ask(id, p, Adopt);
        Look(id, i, p, Adopt, AdoptChild);
      }
      i := Ask(id, q, AdoptChild);
      Look(id, i, q, AdoptChild, if q.childStarted then MarkVerify(Adopting) else End(false));
      if !q.childStarted { return false, q; }
      ok, q := VerifyChild(id, q, Adopting);
    }

    /** Both orders of the middle stages: a dead worker is removed first, a reachable one last. */
    method Replace(id: PlanId, p: Plan) returns (ok: bool, q: Plan)
      requires At(id, p, AfterStart(p))
      modifies this`store, this`now, this`runs, this`log, this`trace
      ensures At(id, q, if ok then ConcludeFence else End(false))
    {
      hide At, Run, Advance;
      ok, q := true, p;
      if p.mode.Dead? {
        ok, q := FenceOld(id, q);
        if !ok { return; }
        ok, q := RemoveNode(id, q);
        if !ok { return; }
      }
      if !q.childComplete {
        ok, q := CreateReplacement(id, q);
      } else {
        SkipCreate(id, q);
      }
      if !ok { return; }
      if p.mode.Reachable? {
        if !q.drainComplete { return false, q; }
        ok, q := FenceOld(id, q);
        if !ok { return; }
        ok, q := RemoveNode(id, q);
      }
    }

    method SkipCreate(id: PlanId, p: Plan)
      requires At(id, p, Child) && p.childComplete
      modifies this`store, this`now, this`runs, this`log, this`trace
      ensures At(id, p, AfterChild(p))
    {
      hide At, Run;
      var i := Ask(id, p, Child);
      Look(id, i, p, Child, AfterChild(p));
    }

    method Conclude(id: PlanId, p: Plan) returns (ok: bool, q: Plan)
      requires At(id, p, ConcludeFence)
      modifies this`store, this`now, this`runs, this`log, this`trace
      ensures At(id, q, End(ok))
    {
      hide At, Run, Revalidate, Revalidating;
      ok, q := RevalidateFence(id, p, ConcludeFence, ConcludeNode);
      if !ok { return; }
      var i := Ask(id, q, ConcludeNode);
      Look(id, i, q, ConcludeNode, if i.ok then MarkVerify(Concluding) else End(false));
      if !i.ok { return false, q; }
      ok, q := VerifyChild(id, q, Concluding);
      if ok { ok := AwaitWorkloads(id, q); }
    }

    method AwaitWorkloads(id: PlanId, q: Plan) returns (ok: bool)
      requires At(id, q, MarkWorkloads)
      modifies this`store, this`now, this`runs, this`log, this`trace
      ensures At(id, q, End(ok))
    {
      hide At, Run;
      var i := Ask(id, q, MarkWorkloads);
      ok := SavePlan(id, q, i, q, MarkWorkloads, Workloads);
      if !ok { return; }
      i := Ask(id, q, Workloads);
      ok := i.ok;
      Look(id, i, q, Workloads, End(ok));
    }

    /** Take the place of an execution that has only to leave. */
    method LeaveRun(id: PlanId)
      requires Valid() && admin.Idle? && id in store && id in root && id in runs && runs[id].pc.Leave?
      modifies this`active, this`runs, this`trace
      ensures Valid() && active == old(active) - {id}
    {
      hide Run, Advance;
      RunSnoc(trace, SRun(id, NOTHING));
      active := active - {id};
      runs := runs - {id};
      trace := trace + [SRun(id, NOTHING)];
    }

    method RecordEnd(id: PlanId, p: Plan, done: bool) returns (ok: bool)
      requires At(id, p, End(done))
      modifies this`store, this`runs, this`trace
      ensures Valid() && id in store && id in runs && runs[id].pc.Leave?
      ensures ok ==> store[id].status == if done then Succeeded else RequiresReview
    {
      hide Advance, Run;
      var i: Input := *;
      var q := p.(status := if done then Succeeded else RequiresReview);
      EndMove(p, done, now, i);
      NextWorld(View(), trace, id, i, Saving(q, Leave));
      if Stored(i.write) { store := store[id := q]; }
      runs := runs[id := Exec(q, Leave)];
      trace := trace + [SRun(id, i)];
      ok := i.write.Landed?;
    }

    /** The deferred end of an execution: record the outcome, then leave. */
    method FinishRun(id: PlanId, p: Plan, done: bool) returns (ok: bool)
      requires At(id, p, End(done)) && admin.Idle?
      modifies this`store, this`active, this`runs, this`trace
      ensures Valid() && active == old(active) - {id}
      ensures ok ==> done && id in store && store[id].status.Succeeded?
    {
      hide Valid;
      ok := RecordEnd(id, p, done);
      ok := ok && done;
      LeaveRun(id);
    }

    /** The section under the mutex that starts an execution. */
    method BeginRun(id: PlanId, wr: Write) returns (ok: bool, p: Plan)
      requires Valid() && admin.Idle? && id in store && id in root && store[id].id == id
      requires store[id].status.Planned? && store[id].approved && now <= store[id].expiresAt && id !in active
      modifies this`store, this`active, this`runs, this`trace
      ensures Valid() && active == old(active) + {id} && id in store && id in runs
      ensures if ok then At(id, p, Check) else runs[id].pc.Leave?
    {
      hide Run;
      RunSnoc(trace, SBegin(id, wr));
      p := store[id].(status := Running);
      if Stored(wr) { store := store[id := p]; }
      active := active + {id};
      runs := runs[id := Exec(p, if wr.Landed? then Check else Leave)];
      trace := trace + [SBegin(id, wr)];
      ok := wr.Landed?;
    }

    lemma Known(id: PlanId)
      requires Valid() && id in store
      ensures id in root && store[id].id == id
    {
      Safety.RunKeeps(trace);
      Safety.RecordAt(View(), id);
    }

    /** Run an approved plan to its end; the clock, every answer and every write outcome are the outside's. */
    method RunReplacement(id: PlanId, wr: Write) returns (ok: bool)
      requires Valid() && admin.Idle?
      modifies this`store, this`active, this`now, this`runs, this`log, this`trace
      ensures Valid() && active == old(active)
      ensures ok ==> id in store && store[id].status.Succeeded?
      ensures ok ==>
              id in old(store) && old(store)[id].status.Planned? && old(store)[id].approved
              && old(now) <= old(store)[id].expiresAt
    {
      hide Valid, At;
      if id !in store || !store[id].status.Planned? || !store[id].approved || now > store[id].expiresAt
         || id in active {
        return false;
      }
      Known(id);
      var begun, p := BeginRun(id, wr);
      if !begun {
        LeaveRun(id);
        return false;
      }
      var done, q := Prepare(id, p);
      if done { done, q := Replace(id, q); }
      if done { done, q := Conclude(id, q); }
      ok := FinishRun(id, q, done);
    }

    /** Close an earlier plan of the same machine that never started. */
    method SupersedeOne(k: PlanId, user: string) returns (ok: bool)
      requires Valid() && admin.Idle? && k in store && CanSupersede(store[k], active, user, now)
      modifies this`store, this`trace
      ensures Valid() && store.Keys == old(store).Keys && forall j :: j in store && j != k ==> store[j] == old(store)[j]
      ensures Closed(old(store)[k], store[k], active, user, now)
      ensures ok ==> store[k].status.Superseded? && store[k].vm == old(store)[k].vm
    {
      hide Run, CanSupersede;
      var w: Write := *;
      RunSnoc(trace, SSupersede(k, user, true, w));
      if Stored(w) { store := store[k := store[k].(status := Superseded)]; }
      trace := trace + [SSupersede(k, user, true, w)];
      ok := w.Landed?;
    }

    method CreatePlan(id: PlanId, vm: Machine, mode: Mode, user: string, wr: Write) returns (ok: bool)
      requires Valid() && admin.Idle? && id !in root && id !in store && Unclaimed(store, vm.id)
      modifies this`store, this`root, this`tip, this`trace
      ensures Valid() && store == Save(old(store), id, NewPlan(id, vm, mode, user, now), wr) && ok == wr.Landed?
    {
      hide Run, NewPlan;
      RunSnoc(trace, SCreate(id, vm, mode, user, wr));
      if Stored(wr) { store := store[id := NewPlan(id, vm, mode, user, now)]; }
      root, tip := root[id := id], tip[id := id];
      trace := trace + [SCreate(id, vm, mode, user, wr)];
      ok := wr.Landed?;
    }

    /** One earlier plan: it does not matter, it is closed, or it stands in the way. */
    method Consider(k: PlanId, vm: Machine, user: string, unused: bool) returns (ok: bool)
      requires Valid() && admin.Idle? && k in store
      modifies this`store, this`trace
      ensures Valid() && store.Keys == old(store).Keys && forall j :: j in store && j != k ==> store[j] == old(store)[j]
      ensures Closed(old(store)[k], store[k], active, user, now)
      ensures ok && store[k].vm.id == vm.id ==> Resolved(store[k].status)
    {
      hide Valid, CanSupersede;
      if store[k].vm.id != vm.id || Resolved(store[k].status) { return true; }
      if !CanSupersede(store[k], active, user, now) || !unused { return false; }
      ok := SupersedeOne(k, user);
    }

    /** Look at every earlier plan of the machine, in whatever order they are listed. */
    method CloseEarlier(vm: Machine, user: string, unused: set<PlanId>) returns (ok: bool)
      requires Valid() && admin.Idle?
      modifies this`store, this`trace
      ensures Valid() && AllClosed(old(store), store, active, user, now)
      ensures ok ==> Unclaimed(store, vm.id)
    {
      ghost var before := store;
      var todo := store.Keys;
      hide Closed, CanSupersede, Valid;
      SameIsClosed(active, user, now);
      assert Looked(before, store, todo, vm, active, user, now);
      hide Looked, AllClosed, Unclaimed;
      while todo != {}
        invariant Valid() && todo <= store.Keys && Looked(before, store, todo, vm, active, user, now)
        decreases |todo|
      {
        var k :| k in todo;
        ghost var was := store;
        var free := Consider(k, vm, user, k in unused);
        LookedAt(before, was, store, todo, vm, active, user, now, k);
        todo := todo - {k};
        if !free { return false; }
      }
      LookedAtAll(before, store, vm, active, user, now);
      ok := true;
    }

    /** Close what never started, refuse if anything else is open, and create a new chain. */
    method PlanReplacement(id: PlanId, vm: Machine, mode: Mode, user: string, unused: set<PlanId>, wr: Write)
      returns (ok: bool)
      requires Valid() && admin.Idle? && id !in root && id !in store
      modifies this`store, this`root, this`tip, this`trace
      ensures Valid()
      ensures ok ==> id in store && store[id] == NewPlan(id, vm, mode, user, now)
      ensures ok ==> forall k :: k in store && k != id && store[k].vm.id == vm.id ==> Resolved(store[k].status)
      ensures AllClosed(old(store), map k | k in store && k in old(store) :: store[k], active, user, now)
      ensures forall k :: k in old(store) ==>
                && k in store
                && var p := old(store)[k];
                   store[k] == p
                   || (&& store[k] == p.(status := Superseded) && p.author == user && p.id !in active
                       && !p.effects && !p.drainStarted && !p.fenceStarted && !p.nodeDeleteStarted && !p.childStarted
                       && (p.status == RequiresReview || (p.status == Planned && (!p.approved || now > p.expiresAt))))
      ensures ok ==> var p := store[id];
                     && p.status == Planned && !p.approved && !p.acknowledged && !p.resume && p.author == user
                     && p.vm == vm && p.mode == mode && p.expiresAt == now + 600_000_000_000 && p.fence.None?
                     && !p.effects && !p.drainStarted && !p.fenceStarted && !p.nodeDeleteStarted && !p.childStarted
                     && !p.drainComplete && !p.nodeDeleted && !p.childComplete && p.previous.None? && p.successor.None?
      ensures ok ==> forall k :: k in store && k != id && store[k].vm.id == vm.id ==>
                                   store[k].status == Succeeded || store[k].status == Superseded
    {
      ClosedMeans(active, user, now);
      hide Closed, Valid;
      ok := CloseEarlier(vm, user, unused);
      if ok { ok := CreatePlan(id, vm, mode, user, wr); }
    }

    method ApproveReplacement(id: PlanId, user: string, confirmed: bool, wr: Write) returns (ok: bool)
      requires Valid() && admin.Idle?
      modifies this`store, this`trace
      ensures Valid() && View() == Approve(old(View()), id, user, confirmed, wr)
      ensures ok ==> id in store && store[id].approved && store[id].author == user && now <= store[id].expiresAt
      ensures var fit := && id in old(store) && old(store)[id].status == Planned && old(store)[id].author == user
                         && now <= old(store)[id].expiresAt && confirmed;
              && (ok <==> fit && wr == Landed)
              && store == (if fit && wr != FailedOld
                           then old(store)[id := old(store)[id].(approved := true, acknowledged := true)]
                           else old(store))
    {
      if id !in store { return false; }
      var p := store[id];
      if !p.status.Planned? || p.author != user || now > p.expiresAt || !confirmed { return false; }
      RunSnoc(trace, SApprove(id, user, confirmed, wr));
      if Stored(wr) { store := store[id := p.(approved := true, acknowledged := true)]; }
      trace := trace + [SApprove(id, user, confirmed, wr)];
      ok := wr.Landed?;
      hide Run;
    }

    /** The process dies: executions and the mutex are gone, the store is not. */
    method Crash()
      requires Valid()
      modifies this`active, this`runs, this`admin, this`trace
      ensures Valid() && active == {} && admin.Idle?
    {
      hide Run;
      RunSnoc(trace, SCrash);
      active, runs, admin := {}, map[], Idle;
      trace := trace + [SCrash];
    }

    /** Store a successor; a create never replaces a record. */
    method PublishPlan(next: Plan, wr: Write) returns (ok: bool)
      modifies this`store
      ensures store == Publish(old(store), next, wr) && ok == (next.id !in old(store) && wr.Landed?)
    {
      ok := next.id !in store && wr.Landed?;
      if next.id !in store && Stored(wr) { store := store[next.id := next]; }
    }

    /** A closed plan whose successor may still be missing from the store. */
    method RebuildSuccessor(id: PlanId, user: string, readable: bool, wr: Write) returns (ok: bool)
      requires Valid() && admin.Idle? && id in store && id !in active && store[id].status.Superseded?
               && store[id].successor.Some?
      modifies this`store, this`trace
      ensures Valid() && id in store
      ensures forall k :: k in old(store) ==> k in store && store[k] == old(store)[k]
      ensures ok ==> id in old(store) && var n := old(store)[id].successor.value;
              n.id in store && store[n.id].status.Planned? && store[n.id].author == user
    {
      hide Run;
      var next := store[id].successor.value;
      if next.id in store && readable { return store[next.id].status.Planned? && store[next.id].author == user; }
      if next.author != user || !next.status.Planned? || next.previous != Some(id) { return false; }
      NextRebuild(View(), trace, id, user, readable, wr);
      ok := PublishPlan(next, wr);
      trace := trace + [SRebuild(id, user, readable, wr)];
    }

    method OpenResume(id: PlanId, user: string, ok: bool) returns (p: Plan)
      requires Valid() && admin.Idle? && id in store && id !in active && ok && store[id].childStarted
      requires store[id].status.RequiresReview? || store[id].status.Running?
      modifies this`admin, this`trace
      ensures Valid() && p == store[id] && admin == Resuming(p, user, !p.fenceStarted)
    {
      hide Run;
      RunSnoc(trace, SResumeOpen(id, user, ok));
      p := store[id];
      admin := Resuming(p, user, !p.fenceStarted);
      trace := trace + [SResumeOpen(id, user, ok)];
    }

    /** The fence proved again before a successor is written. */
    method ProveForResume(p: Plan, user: string) returns (ok: bool, q: Plan)
      requires Valid() && admin == Resuming(p, user, false) && p.id in store
      modifies this`store, this`admin, this`trace
      ensures Valid() && if ok then admin == Resuming(q, user, true) && q.id == p.id && q.id in store else admin.Idle?
      ensures store.Keys == old(store).Keys
              && (ok ==> store[q.id] == q && q == p.(fence := q.fence, reused := q.reused))
    {
      hide Run, Revalidating;
      var i: Input := *;
      var saves, good;
      q, saves, good := ProveAgain(p, Check, now, i);
      RunSnoc(trace, SResumeProve(i));
      trace := trace + [SResumeProve(i)];
      if saves && Stored(i.write) { store := store[p.id := q]; }
      ok := good && i.write.Landed?;
      admin := if ok then Resuming(q, user, true) else Idle;
    }

    /** First write of a resume: close the original with its complete successor inside. */
    method CommitSuccessor(p: Plan, user: string, id: PlanId, wr: Write) returns (ok: bool, next: Plan)
      requires Valid() && admin == Resuming(p, user, true) && p.id in store && p.id in root && id !in root
               && id !in store
      modifies this`store, this`admin, this`root, this`tip, this`trace
      ensures Valid() && next == Successor(p, id, user, now) && (if ok then admin == Publishing(next) else admin.Idle?)
      ensures store == Save(old(store), p.id, ClosedBy(old(store)[p.id], next), wr) && ok == wr.Landed?
    {
      hide Run, Successor, ClosedBy;
      next := Successor(p, id, user, now);
      NextCommit(View(), trace, id, wr);
      if Stored(wr) {
        store := store[p.id := ClosedBy(store[p.id], next)];
        tip := tip[root[p.id] := id];
      }
      root := root[id := root[p.id]];
      admin := if wr.Landed? then Publishing(next) else Idle;
      trace := trace + [SResumeCommit(id, true, wr)];
      ok := wr.Landed?;
    }

    method PublishSuccessor(next: Plan, wr: Write) returns (ok: bool)
      requires Valid() && admin == Publishing(next)
      modifies this`store, this`admin, this`trace
      ensures Valid() && admin.Idle? && store == Publish(old(store), next, wr)
              && ok == (next.id !in old(store) && wr.Landed?)
    {
      hide Run;
      RunSnoc(trace, SResumePublish(wr));
      ok := PublishPlan(next, wr);
      admin := Idle;
      trace := trace + [SResumePublish(wr)];
    }

    method AbortResume()
      requires Valid()
      modifies this`admin, this`trace
      ensures Valid() && admin.Idle?
    {
      hide Run;
      RunSnoc(trace, SResumeAbort);
      admin := Idle;
      trace := trace + [SResumeAbort];
    }

    /**
     Continue an interrupted replacement under a new plan. On success the successor is stored, waits for
     approval by `user`, and has inherited every started flag of the plan it continues.
     */
    method PlanReplacementResume(id: PlanId, user: string, newId: PlanId, ok1: bool, ok2: bool, w1: Write, w2: Write)
      returns (ok: bool)
      requires Valid() && admin.Idle? && newId !in root && newId !in store
      modifies this`store, this`admin, this`root, this`tip, this`trace
      ensures Valid() && admin.Idle?
      ensures ok ==>
              id in old(store) && id !in active && id in store && store[id].status.Superseded?
              && store[id].successor.Some?
      ensures ok ==> var n := store[id].successor.value.id;
              n in store && store[n].status.Planned? && store[n].author == user
      ensures ok && !old(store)[id].status.Superseded? ==> Continued(old(store)[id], store, id, newId, user)
      ensures ok && !old(store)[id].status.Superseded? ==>
                var a, n := old(store)[id], store[newId];
                && (a.status == RequiresReview || a.status == Running) && a.childStarted
                && n.vm == a.vm && n.mode == a.mode && !n.approved && n.childStarted
                && n.drainStarted == a.drainStarted && n.drainComplete == a.drainComplete
                && n.fenceStarted == a.fenceStarted && n.nodeDeleteStarted == a.nodeDeleteStarted
                && n.childComplete == a.childComplete
    {
      hide Valid, Successor, Started;
      if id in active || id !in store { return false; }
      if store[id].status.Superseded? && store[id].successor.Some? {
        ok := RebuildSuccessor(id, user, ok1, w1);
        return;
      }
      if !(store[id].status.RequiresReview? || store[id].status.Running?) || !store[id].childStarted || !ok1 {
        return false;
      }
      Known(id);
      ok := Continue(id, user, newId, ok2, w1, w2);
    }

    method Continue(id: PlanId, user: string, newId: PlanId, seen: bool, w1: Write, w2: Write) returns (ok: bool)
      requires Valid() && admin.Idle? && newId !in root && newId !in store && id in store && id in root
               && store[id].id == id && id !in active
      requires (store[id].status.RequiresReview? || store[id].status.Running?) && store[id].childStarted
      modifies this`store, this`admin, this`root, this`tip, this`trace
      ensures Valid() && admin.Idle?
      ensures ok ==> Continued(old(store)[id], store, id, newId, user)
    {
      hide Valid, Continued, Revalidating;
      var p := OpenResume(id, user, true);
      ghost var first := p;
      if p.fenceStarted {
        var proved, q := ProveForResume(p, user);
        if !proved { return false; }
        p := q;
      }
      if !seen {
        AbortResume();
        return false;
      }
      ok := HandOn(p, user, newId, w1, w2, first);
    }

    /** The two writes of a resume, in this order. */
    method HandOn(p: Plan, user: string, id: PlanId, w1: Write, w2: Write, ghost first: Plan) returns (ok: bool)
      requires Valid() && admin == Resuming(p, user, true) && p.id in store && p.id in root && id !in root
               && id !in store
      requires p == first.(fence := p.fence, reused := p.reused)
      modifies this`store, this`admin, this`root, this`tip, this`trace
      ensures Valid() && admin.Idle?
      ensures ok ==> Continued(first, store, p.id, id, user)
    {
      hide Valid, Successor, Started;
      SuccessorFacts(first, p, id, user, now);
      var next: Plan;
      ok, next := CommitSuccessor(p, user, id, w1);
      if ok { ok := PublishSuccessor(next, w2); }
    }
  }

  const NOTHING :=
    Input(false, false, Landed, "", Replies(None, None, false, None, false, 0), Destruction(false, None, false))
}