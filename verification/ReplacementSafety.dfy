/** What every run of the replacement machine keeps. */
module ReplacementSafety {
  import opened Basics
  import opened Fencing
  import opened Replacement

  // ---------------------------------------------------------------- plans and places

  /** The order in which stages can have been recorded. */
  ghost predicate Ordered(p: Plan) {
    && (p.drainComplete ==> p.drainStarted) && (p.drainStarted ==> p.mode.Reachable?)
    && (p.nodeDeleted ==> p.nodeDeleteStarted) && (p.nodeDeleteStarted ==> p.fenceStarted)
    && (p.fence.Some? ==> p.fenceStarted)
    && (p.childComplete ==> p.childStarted)
    && (p.drainStarted || p.fenceStarted || p.childStarted ==> p.effects)
    && (p.mode.Reachable? && p.fenceStarted ==> p.childComplete)
    && (p.mode.Reachable? && p.childStarted ==> p.drainComplete)
    && (p.mode.Dead? && p.childStarted ==> p.nodeDeleted)
    && (p.resume <==> p.previous.Some?) && (p.resume ==> p.childStarted)
    && (p.status.Planned? && !p.resume ==> !p.effects)
    && (p.status.Succeeded? ==> Finished(p))
    && (p.approved ==> p.acknowledged)
    && (p.successor.Some? ==> p.status.Superseded?)
    && (p.fence.Some? ==> Backed(p.fence.value, p.vm))
  }

  ghost predicate HasFence(p: Plan) { p.fence.Some? && p.fence.value.outcome.Fenced? }

  /** The stages around the old worker are only entered with the replacement untouched or complete. */
  ghost predicate Settled(p: Plan) {
    (p.childStarted ==> p.childComplete) && (p.mode.Reachable? ==> p.childComplete)
  }

  /** A dead worker's replacement is still to be created: the fence must hold by then. */
  ghost predicate FenceHolds(p: Plan) { p.fenceStarted && (!p.childStarted ==> HasFence(p)) }

  ghost predicate Done(p: Plan) { p.childComplete && p.nodeDeleted }

  /** Done, and the old VM last proved to be fenced. */
  ghost predicate Finished(p: Plan) { Done(p) && HasFence(p) }

  ghost predicate PcOk(pc: Pc, p: Plan) {
    && p.status.Running? && p.approved && p.successor.None?
    && match pc
       case Check => p.resume || !p.effects
       case MarkDrain => !p.effects && p.mode.Reachable? && !p.resume
       case Call(Drain) => p.drainStarted && !p.childStarted && !p.fenceStarted && !p.resume
       case FinishDrain => p.drainStarted && !p.childStarted
       case Adopt => p.resume
       case AdoptChild => p.resume
       case MarkVerify(round) => p.childStarted && (round.Concluding? ==> Finished(p))
       case FinishVerify(round) => p.childStarted && (round.Concluding? ==> Finished(p))
       case Fence => Settled(p)
       case Call(DestroyVm) => Settled(p) && p.fenceStarted && (p.mode.Dead? ==> !p.childStarted)
       case SaveFence(e, _) => Settled(p) && p.fenceStarted && Backed(e, p.vm)
       case FenceIntent => Settled(p) && FenceHolds(p)
       case Node => Settled(p) && FenceHolds(p)
       case ProveNode => Settled(p) && FenceHolds(p) && !p.nodeDeleteStarted
       case MarkNode => Settled(p) && HasFence(p) && !p.nodeDeleteStarted && p.fenceStarted
       case Call(DeleteNode) => Settled(p) && HasFence(p) && p.nodeDeleteStarted
       case FinishNode => Settled(p) && HasFence(p) && p.nodeDeleteStarted
       case Child =>
         && (p.childStarted ==> p.childComplete)
         && (!p.childStarted ==> if p.mode.Dead? then HasFence(p) && p.nodeDeleted else p.drainComplete)
         && (p.childStarted && p.mode.Dead? ==> p.nodeDeleted)
       case Call(CreateChild) => p.childStarted && !p.childComplete && (p.mode.Dead? ==> HasFence(p))
       case FinishChild => p.childStarted
       case ConcludeFence => Done(p)
       case ConcludeNode => Finished(p)
       case MarkWorkloads => Finished(p)
       case Workloads => Finished(p)
       case End(ok) => ok ==> Finished(p)
       case Leave => true
  }

  /** `b` is a later form of the same plan: nothing that was started is forgotten. */
  ghost predicate Extends(a: Plan, b: Plan) {
    && a.id == b.id && a.previous == b.previous && a.vm == b.vm && a.mode == b.mode && a.resume == b.resume
    && forall e :: Started(a, e) ==> Started(b, e)
  }

  /** What must be durable when a call goes out. */
  ghost predicate Justified(p: Plan, e: Effect, at: int) {
    && Started(p, e) && p.approved && p.acknowledged && p.status.Running? && Ordered(p)
    && match e
       case Drain => p.mode.Reachable? && !p.fenceStarted && !p.childStarted && !p.resume
       case DestroyVm => if p.mode.Reachable? then p.drainComplete && p.childComplete else !p.childStarted
       case DeleteNode =>
         && p.fence.Some? && Fresh(p.fence.value, at)
         && (p.mode.Reachable? ==> p.drainComplete && p.childComplete)
       case CreateChild => if p.mode.Dead? then HasFence(p) && p.nodeDeleted else p.drainComplete && !p.fenceStarted
  }

  /** Only the evidence, or the note that the identifier was taken over, changes. */
  lemma RevalidatingShape(p: Plan, next: Pc, now: int, i: Input)
    ensures var m := Revalidating(p, next, now, i);
            && m.call.None? && (!m.saves ==> m.p == p) && (m.next == next || m.next == End(false))
            && m.p == p.(fence := m.p.fence, reused := m.p.reused)
            && (m.p.fence == p.fence
                || (p.fence.Some? && m.p.fence == Some(Revalidate(p.vm, p.fence.value, i.home, i.replies).0)))
            && (m.next == next && !next.End? ==> HasFence(m.p))
  {
    hide Revalidate, Revalidating, Fresh;
    RevalidatingCases(p, next, now, i);
    if p.fence.Some? { RevalidatedIsFenced(p.vm, p.fence.value, i.home, i.replies, now); }
  }

  lemma RevalidatingOk(p: Plan, next: Pc, now: int, i: Input)
    requires Ordered(p) && p.fenceStarted && !p.status.Succeeded?
    ensures var m := Revalidating(p, next, now, i);
            && Ordered(m.p) && Extends(p, m.p) && m.call.None? && (!m.saves ==> m.p == p)
            && (m.next == next || m.next == End(false))
            && m.p == p.(fence := m.p.fence, reused := m.p.reused)
            && (m.next == next && !next.End? ==> HasFence(m.p))
  {
    hide Revalidate, Backed, Revalidating;
    RevalidatingShape(p, next, now, i);
    if p.fence.Some? { EvidenceIsBacked(p.vm, p.fence.value, i.home, i.destruction, i.replies); }
  }

  lemma RevalidatedIsFenced(m: Machine, prior: Evidence, home: string, r: Replies, now: int)
    ensures Fresh(Revalidate(m, prior, home, r).0, now) ==> Revalidate(m, prior, home, r).0.outcome.Fenced?
  {
  }

  ghost predicate MoveOk(x: Exec, m: Move, now: int) {
    && Ordered(m.p) && Extends(x.p, m.p) && m.p.successor.None?
    && (!m.saves ==> m.p == x.p)
    && (m.saves ==> m.call.None?)
    && (!x.pc.End? ==> !m.next.Leave? && PcOk(m.next, m.p))
    && (m.call.Some? ==> x.pc == Call(m.call.value) && Justified(x.p, m.call.value, now))
    && (m.next.Call? ==> m.saves && !Started(x.p, m.next.effect) && Started(m.p, m.next.effect))
  }

  lemma ProvingOk(x: Exec, now: int, i: Input)
    requires Ordered(x.p) && PcOk(x.pc, x.p) && (x.pc.Adopt? || x.pc.ConcludeFence?)
    ensures MoveOk(x, Advance(x, now, i), now)
  {
    hide Revalidating, Backed;
    if x.pc.Adopt? && x.p.fenceStarted { RevalidatingOk(x.p, AdoptChild, now, i); }
    if x.pc.ConcludeFence? { RevalidatingOk(x.p, ConcludeNode, now, i); }
  }

  lemma ProvingOldOk(x: Exec, now: int, i: Input)
    requires Ordered(x.p) && PcOk(x.pc, x.p) && (x.pc.Fence? || x.pc.ProveNode?)
    ensures MoveOk(x, Advance(x, now, i), now)
  {
    hide Revalidating, Backed;
    if x.pc.Fence? && x.p.fenceStarted { RevalidatingOk(x.p, Node, now, i); }
    if x.pc.ProveNode? { RevalidatingOk(x.p, MarkNode, now, i); }
  }

  lemma CallingOk(x: Exec, now: int, i: Input)
    requires Ordered(x.p) && PcOk(x.pc, x.p) && x.pc.Call?
    ensures MoveOk(x, Advance(x, now, i), now)
  {
    EvidenceIsBacked(x.p.vm, NewEvidence(x.p.vm), i.home, i.destruction, i.replies);
    hide Destroyed, Fresh, Backed, Revalidate;
  }

  lemma OldWorkerOk(x: Exec, now: int, i: Input)
    requires Ordered(x.p) && PcOk(x.pc, x.p)
    requires x.pc.SaveFence? || x.pc.FenceIntent? || x.pc.Node? || x.pc.MarkNode? || x.pc.FinishNode?
    ensures MoveOk(x, Advance(x, now, i), now)
  {
    hide Backed;
  }

  lemma NewWorkerOk(x: Exec, now: int, i: Input)
    requires Ordered(x.p) && PcOk(x.pc, x.p)
    requires x.pc.AdoptChild? || x.pc.MarkVerify? || x.pc.FinishVerify? || x.pc.Child? || x.pc.FinishChild?
    ensures MoveOk(x, Advance(x, now, i), now)
  {
    hide Backed;
  }

  lemma EndsOk(x: Exec, now: int, i: Input)
    requires Ordered(x.p) && PcOk(x.pc, x.p)
    requires x.pc.Check? || x.pc.MarkDrain? || x.pc.FinishDrain? || x.pc.ConcludeNode? || x.pc.MarkWorkloads?
             || x.pc.Workloads? || x.pc.End?
    ensures MoveOk(x, Advance(x, now, i), now)
  {
    hide Backed;
  }

  /** One action keeps the stage order, moves to a justified place, and only calls what is justified. */
  lemma AdvanceOk(x: Exec, now: int, i: Input)
    requires Ordered(x.p) && PcOk(x.pc, x.p) && !x.pc.Leave?
    ensures MoveOk(x, Advance(x, now, i), now)
  {
    hide MoveOk, Advance, PcOk, Ordered;
    match x.pc
    case Adopt | ConcludeFence => ProvingOk(x, now, i);
    case Fence | ProveNode => ProvingOldOk(x, now, i);
    case Call(_) => CallingOk(x, now, i);
    case SaveFence(_, _) | FenceIntent | Node | MarkNode | FinishNode => OldWorkerOk(x, now, i);
    case AdoptChild | MarkVerify(_) | FinishVerify(_) | Child | FinishChild => NewWorkerOk(x, now, i);
    case _ => EndsOk(x, now, i);
  }

  // ---------------------------------------------------------------- chains

  type Roots = map<PlanId, PlanId>

  /** A successor that exists only inside its closed predecessor is the newest plan of the chain. */
  ghost predicate SuccessorOk(from: PlanId, n: Plan, store: map<PlanId, Plan>, root: Roots, tip: Roots) {
    && Ordered(n) && n.status.Planned? && n.resume && n.previous == Some(from) && n.successor.None? && n.id != from
    && from in root && n.id in root && root[n.id] == root[from]
    && (n.id !in store ==> root[from] in tip && tip[root[from]] == n.id)
  }

  ghost predicate RecordOk(id: PlanId, p: Plan, store: map<PlanId, Plan>, root: Roots, tip: Roots) {
    && p.id == id && Ordered(p) && id in root && root[id] in tip
    && (!p.status.Superseded? ==> tip[root[id]] == id)
    && (p.previous.None? ==> root[id] == id)
    && (p.previous.Some? ==> p.previous.value in root && root[p.previous.value] == root[id])
    && (p.successor.Some? ==> SuccessorOk(id, p.successor.value, store, root, tip))
  }

  /** Every chain is named by one of its plans. */
  ghost predicate RootsOk(root: Roots) { forall id :: id in root ==> root[id] in root }

  ghost predicate StoreOk(store: map<PlanId, Plan>, root: Roots, tip: Roots) {
    forall id :: id in store ==> RecordOk(id, store[id], store, root, tip)
  }

  /** Every effect dispatched in the chain `r` is recorded as started in `p`. */
  ghost predicate Covers(p: Plan, log: seq<Event>, r: PlanId) {
    forall k :: 0 <= k < |log| && log[k].root == r ==> Started(p, log[k].effect)
  }

  ghost predicate CoverOk(store: map<PlanId, Plan>, root: Roots, tip: Roots, log: seq<Event>) {
    forall id :: id in store && id in root ==>
      && (root[id] in tip && tip[root[id]] == id ==> Covers(store[id], log, root[id]))
      && (store[id].successor.Some? && store[id].successor.value.id !in store ==>
          Covers(store[id].successor.value, log, root[id]))
  }

  ghost predicate NotYet(log: seq<Event>, r: PlanId, e: Effect) {
    forall k :: 0 <= k < |log| && log[k].root == r ==> log[k].effect != e
  }

  ghost predicate ExecOk(id: PlanId, x: Exec, p: Plan, log: seq<Event>, r: PlanId) {
    x.p.id == id && (!x.pc.Leave? ==>
      && p.status.Running? && Extends(p, x.p) && Ordered(x.p) && PcOk(x.pc, x.p)
      && (!x.pc.End? ==> p == x.p)
      && (x.pc.Call? ==> NotYet(log, r, x.pc.effect)))
  }

  ghost predicate RunsOk(runs: map<PlanId, Exec>, active: set<PlanId>, store: map<PlanId, Plan>, root: Roots,
                         log: seq<Event>) {
    && runs.Keys == active
    && forall id :: id in runs ==> id in store && id in root && ExecOk(id, runs[id], store[id], log, root[id])
  }

  ghost predicate AdminOk(admin: Admin, store: map<PlanId, Plan>, active: set<PlanId>) {
    match admin
    case Idle => true
    case Resuming(p, _, proved) =>
      && p.id in store && store[p.id] == p && p.id !in active && p.childStarted && (!proved ==> p.fenceStarted)
      && (p.status.RequiresReview? || p.status.Running?)
    case Publishing(n) => n.previous.Some? && n.previous.value in store && store[n.previous.value].successor == Some(n)
  }

  ghost predicate LogOk(log: seq<Event>, root: Roots) {
    && (forall k :: 0 <= k < |log| ==> Justified(log[k].record, log[k].effect, log[k].at)
                                       && log[k].record.id in root && root[log[k].record.id] == log[k].root)
    && (forall i, j :: 0 <= i < j < |log| ==> log[i].root != log[j].root || log[i].effect != log[j].effect)
  }

  ghost predicate Inv(w: World) {
    && RootsOk(w.root) && StoreOk(w.store, w.root, w.tip) && CoverOk(w.store, w.root, w.tip, w.log)
    && RunsOk(w.runs, w.active, w.store, w.root, w.log) && AdminOk(w.admin, w.store, w.active) && LogOk(w.log, w.root)
  }

  // ---------------------------------------------------------------- rewriting one record

  /** `q` may take the place of `p` under its identifier. */
  ghost predicate Replaces(p: Plan, q: Plan) {
    && Extends(p, q) && Ordered(q) && q.successor == p.successor && (p.status.Superseded? ==> q.status.Superseded?)
  }

  lemma PutKeeps(store: map<PlanId, Plan>, root: Roots, tip: Roots, log: seq<Event>, id: PlanId, q: Plan)
    requires StoreOk(store, root, tip) && CoverOk(store, root, tip, log) && id in store && Replaces(store[id], q)
    ensures StoreOk(store[id := q], root, tip) && CoverOk(store[id := q], root, tip, log)
  {
    hide Ordered, Started;
    var s1 := store[id := q];
    forall k | k in s1 ensures RecordOk(k, s1[k], s1, root, tip) {
      assert RecordOk(k, store[k], store, root, tip);
    }
    assert id in root;
    assert Covers(store[id], log, root[id]) ==> Covers(q, log, root[id]);
  }

  lemma SaveKeeps(store: map<PlanId, Plan>, root: Roots, tip: Roots, log: seq<Event>, id: PlanId, q: Plan, wr: Write)
    requires StoreOk(store, root, tip) && CoverOk(store, root, tip, log) && id in store && Replaces(store[id], q)
    ensures StoreOk(Save(store, id, q, wr), root, tip) && CoverOk(Save(store, id, q, wr), root, tip, log)
  {
    if Stored(wr) { PutKeeps(store, root, tip, log, id, q); }
  }

  /** Other records, and the record of an execution that only has to leave, may change under the executions. */
  lemma RunsFrame(runs: map<PlanId, Exec>, active: set<PlanId>, store: map<PlanId, Plan>, s1: map<PlanId, Plan>,
                  root: Roots, log: seq<Event>)
    requires RunsOk(runs, active, store, root, log)
    requires forall id :: id in runs && id in store ==> id in s1 && (s1[id] == store[id] || runs[id].pc.Leave?)
    ensures RunsOk(runs, active, s1, root, log)
  {
    hide PcOk, Ordered, NotYet, Extends;
  }

  lemma SupersedeKeeps(w: World, id: PlanId, user: string, childUnused: bool, wr: Write)
    requires Inv(w)
    ensures Inv(Supersede(w, id, user, childUnused, wr))
  {
    hide StoreOk, CoverOk, LogOk, ExecOk;
    if w.admin.Idle? && id in w.store && CanSupersede(w.store[id], w.active, user, w.now) && childUnused {
      RecordAt(w, id);
      SaveKeeps(w.store, w.root, w.tip, w.log, id, w.store[id].(status := Superseded), wr);
      RunsFrame(w.runs, w.active, w.store, Supersede(w, id, user, childUnused, wr).store, w.root, w.log);
    }
  }

  lemma RecordAt(w: World, id: PlanId)
    requires StoreOk(w.store, w.root, w.tip) && id in w.store
    ensures RecordOk(id, w.store[id], w.store, w.root, w.tip)
  {
  }

  lemma ApproveKeeps(w: World, id: PlanId, user: string, confirmed: bool, wr: Write)
    requires Inv(w)
    ensures Inv(Approve(w, id, user, confirmed, wr))
  {
    hide StoreOk, CoverOk, LogOk, PcOk;
    var w1 := Approve(w, id, user, confirmed, wr);
    if w1 != w {
      RecordAt(w, id);
      SaveKeeps(w.store, w.root, w.tip, w.log, id, w.store[id].(approved := true, acknowledged := true), wr);
      RunsFrame(w.runs, w.active, w.store, w1.store, w.root, w.log);
    }
  }

  lemma BeginKeeps(w: World, id: PlanId, wr: Write)
    requires Inv(w)
    ensures Inv(Begin(w, id, wr))
  {
    hide RootsOk, StoreOk, CoverOk, LogOk, RunsOk, PcOk, NotYet, SuccessorOk;
    var w1 := Begin(w, id, wr);
    if w1 != w {
      RecordAt(w, id);
      var p := w.store[id].(status := Running);
      SaveKeeps(w.store, w.root, w.tip, w.log, id, p, wr);
      BeginPc(w.store[id]);
      RunsPut(w.runs, w.active, w.store, w.root, w.log, id, p);
      RunsOthers(w.runs, w.active, w1.store, w.root, w.log);
      RunsEnter(w.runs, w.active, w1.store, w.root, w.log, id, w1.runs[id]);
    }
  }

  /** One execution joins, or moves on. */
  lemma RunsEnter(runs: map<PlanId, Exec>, active: set<PlanId>, store: map<PlanId, Plan>, root: Roots, log: seq<Event>,
                  id: PlanId, x: Exec)
    requires runs.Keys == active && id in store && id in root && ExecOk(id, x, store[id], log, root[id])
    requires forall k :: k in runs && k != id ==> k in store && k in root && ExecOk(k, runs[k], store[k], log, root[k])
    ensures RunsOk(runs[id := x], active + {id}, store, root, log)
  {
    hide ExecOk;
  }

  lemma RunsOthers(runs: map<PlanId, Exec>, active: set<PlanId>, store: map<PlanId, Plan>, root: Roots, log: seq<Event>)
    requires RunsOk(runs, active, store, root, log)
    ensures runs.Keys == active
    ensures forall k :: k in runs ==> k in store && k in root && ExecOk(k, runs[k], store[k], log, root[k])
  {
    hide ExecOk;
  }

  lemma BeginPc(p: Plan)
    requires p.status.Planned? && p.approved && Ordered(p)
    ensures PcOk(Check, p.(status := Running))
  {
  }

  /** A fresh identifier is in nobody's way. */
  lemma FreshChain(store: map<PlanId, Plan>, root: Roots, tip: Roots, log: seq<Event>, id: PlanId)
    requires RootsOk(root) && StoreOk(store, root, tip) && CoverOk(store, root, tip, log) && LogOk(log, root)
             && id !in root
    ensures RootsOk(root[id := id]) && StoreOk(store, root[id := id], tip[id := id])
            && CoverOk(store, root[id := id], tip[id := id], log)
    ensures LogOk(log, root[id := id]) && forall k :: 0 <= k < |log| ==> log[k].root != id
  {
    hide Ordered, Started, Justified;
    var r1, t1 := root[id := id], tip[id := id];
    forall k | k in store ensures RecordOk(k, store[k], store, r1, t1) {
      assert RecordOk(k, store[k], store, root, tip);
      assert root[k] in root && root[k] != id;
    }
  }

  lemma AddPlan(store: map<PlanId, Plan>, root: Roots, tip: Roots, log: seq<Event>, p: Plan)
    requires StoreOk(store, root, tip) && CoverOk(store, root, tip, log) && p.id !in store
    requires RecordOk(p.id, p, store, root, tip) && p.successor.None? && Covers(p, log, root[p.id])
    ensures StoreOk(store[p.id := p], root, tip) && CoverOk(store[p.id := p], root, tip, log)
  {
    hide Ordered, Covers;
    var s1 := store[p.id := p];
    forall k | k in s1 ensures RecordOk(k, s1[k], s1, root, tip) {
      if k in store { assert RecordOk(k, store[k], store, root, tip); }
    }
  }

  lemma RunsRoots(runs: map<PlanId, Exec>, active: set<PlanId>, store: map<PlanId, Plan>, root: Roots, r1: Roots,
                  log: seq<Event>)
    requires RunsOk(runs, active, store, root, log) && forall id :: id in root ==> id in r1 && r1[id] == root[id]
    ensures RunsOk(runs, active, store, r1, log)
  {
    hide ExecOk;
  }

  lemma CreateKeeps(w: World, id: PlanId, vm: Machine, mode: Mode, user: string, wr: Write)
    requires Inv(w)
    ensures Inv(Create(w, id, vm, mode, user, wr))
  {
    hide RootsOk, StoreOk, CoverOk, RunsOk, LogOk, Started, NewPlan, SuccessorOk;
    var w1 := Create(w, id, vm, mode, user, wr);
    if w1 != w {
      var p := NewPlan(id, vm, mode, user, w.now);
      NewPlanOrdered(id, vm, mode, user, w.now);
      FreshChain(w.store, w.root, w.tip, w.log, id);
      RunsRoots(w.runs, w.active, w.store, w.root, w1.root, w.log);
      if Stored(wr) {
        hide Ordered;
        AddPlan(w.store, w1.root, w1.tip, w.log, p);
        RunsAdd(w.runs, w.active, w.store, w1.root, w.log, p);
      }
    }
  }

  lemma RunsAdd(runs: map<PlanId, Exec>, active: set<PlanId>, store: map<PlanId, Plan>, root: Roots, log: seq<Event>,
                p: Plan)
    requires RunsOk(runs, active, store, root, log) && p.id !in store
    ensures RunsOk(runs, active, store[p.id := p], root, log)
  {
    hide ExecOk;
  }

  lemma NewPlanOrdered(id: PlanId, vm: Machine, mode: Mode, user: string, now: int)
    ensures Ordered(NewPlan(id, vm, mode, user, now))
    ensures var p := NewPlan(id, vm, mode, user, now);
            p.id == id && p.previous.None? && p.successor.None? && p.status.Planned?
  {
  }

  // ---------------------------------------------------------------- resuming

  lemma ResumeOpenKeeps(w: World, id: PlanId, user: string, ok: bool)
    requires Inv(w)
    ensures Inv(ResumeOpen(w, id, user, ok))
  {
    hide CoverOk, RunsOk, LogOk, Ordered;
    if id in w.store { RecordAt(w, id); }
  }

  lemma ResumeProveKeeps(w: World, i: Input)
    requires Inv(w)
    ensures Inv(ResumeProve(w, i))
  {
    hide RootsOk, StoreOk, CoverOk, LogOk, Revalidating, RunsOk, SuccessorOk;
    if w.admin.Resuming? && !w.admin.proved {
      var p := w.admin.p;
      RecordAt(w, p.id);
      RevalidatingOk(p, Check, w.now, i);
      hide Ordered, Extends;
      var m := Revalidating(p, Check, w.now, i);
      if m.saves {
        SaveKeeps(w.store, w.root, w.tip, w.log, p.id, m.p, i.write);
        RunsPut(w.runs, w.active, w.store, w.root, w.log, p.id, m.p);
      }
    }
  }

  lemma SuccessorOrdered(p: Plan, id: PlanId, user: string, now: int)
    requires Ordered(p) && p.childStarted
    ensures var n := Successor(p, id, user, now);
            && Ordered(n) && n.status.Planned? && n.resume && n.previous == Some(p.id) && n.successor.None?
            && n.id == id
            && forall e :: Started(p, e) ==> Started(n, e)
  {
  }

  /** Closing a plan hands the chain to its successor. */
  lemma HandOver(store: map<PlanId, Plan>, root: Roots, tip: Roots, log: seq<Event>, id: PlanId, n: Plan)
    requires StoreOk(store, root, tip) && CoverOk(store, root, tip, log)
    requires id in store && !store[id].status.Superseded? && n.id in root && root[n.id] == root[id] && n.id !in store
    requires Ordered(n) && n.status.Planned? && n.resume && n.previous == Some(id) && n.successor.None?
    requires forall e :: Started(store[id], e) ==> Started(n, e)
    requires Ordered(store[id].(status := Superseded, successor := Some(n)))
    ensures var s1, t1 := store[id := store[id].(status := Superseded, successor := Some(n))], tip[root[id] := n.id];
            StoreOk(s1, root, t1) && CoverOk(s1, root, t1, log)
  {
    hide Ordered, Started;
    assert RecordOk(id, store[id], store, root, tip);
    var s1, t1 := store[id := store[id].(status := Superseded, successor := Some(n))], tip[root[id] := n.id];
    assert Covers(store[id], log, root[id]);
    assert Covers(n, log, root[id]);
    forall k | k in s1 ensures RecordOk(k, s1[k], s1, root, t1) {
      assert RecordOk(k, store[k], store, root, tip);
    }
  }

  lemma ResumeCommitKeeps(w: World, id: PlanId, ok: bool, wr: Write)
    requires Inv(w)
    ensures Inv(ResumeCommit(w, id, ok, wr))
  {
    hide RootsOk, StoreOk, CoverOk, RunsOk, LogOk, Successor, Started, Covers, SuccessorOk;
    var w1 := ResumeCommit(w, id, ok, wr);
    if w1 != w {
      var p := w.admin.p;
      RecordAt(w, p.id);
      SuccessorOrdered(p, id, w.admin.user, w.now);
      var n := Successor(p, id, w.admin.user, w.now);
      var closed := p.(status := Superseded, successor := Some(n));
      assert Ordered(closed);
      hide Ordered;
      NewName(w.store, w.root, w.tip, w.log, id, p.id);
      RunsRoots(w.runs, w.active, w.store, w.root, w1.root, w.log);
      if Stored(wr) {
        HandOver(w.store, w1.root, w.tip, w.log, p.id, n);
        RunsPut(w.runs, w.active, w.store, w1.root, w.log, p.id, closed);
      }
    }
  }

  lemma RunsPut(runs: map<PlanId, Exec>, active: set<PlanId>, store: map<PlanId, Plan>, root: Roots, log: seq<Event>,
                id: PlanId, p: Plan)
    requires RunsOk(runs, active, store, root, log) && id !in active
    ensures RunsOk(runs, active, store[id := p], root, log)
  {
    hide ExecOk;
  }

  /** Reserving an identifier for an existing chain disturbs nothing. */
  lemma NewName(store: map<PlanId, Plan>, root: Roots, tip: Roots, log: seq<Event>, id: PlanId, from: PlanId)
    requires RootsOk(root) && StoreOk(store, root, tip) && CoverOk(store, root, tip, log) && LogOk(log, root)
    requires id !in root && from in root && id !in store
    ensures var r1 := root[id := root[from]];
            RootsOk(r1) && StoreOk(store, r1, tip) && CoverOk(store, r1, tip, log) && LogOk(log, r1)
  {
    hide Ordered, Started, Justified, Covers;
    var r1 := root[id := root[from]];
    forall k | k in store ensures RecordOk(k, store[k], store, r1, tip) {
      assert RecordOk(k, store[k], store, root, tip);
    }
  }

  /** The successor held by a closed plan can be stored, now or later, but only once. */
  lemma PublishKeeps(w: World, from: PlanId, wr: Write)
    requires Inv(w) && from in w.store && w.store[from].successor.Some?
    ensures Inv(w.(store := Publish(w.store, w.store[from].successor.value, wr), admin := Idle))
  {
    hide RootsOk, StoreOk, CoverOk, RunsOk, LogOk, Ordered, Covers;
    RecordAt(w, from);
    var n := w.store[from].successor.value;
    if n.id !in w.store && Stored(wr) {
      PendingCovers(w, from);
      AddPlan(w.store, w.root, w.tip, w.log, n);
      RunsAdd(w.runs, w.active, w.store, w.root, w.log, n);
    }
  }

  lemma PendingCovers(w: World, from: PlanId)
    requires StoreOk(w.store, w.root, w.tip) && CoverOk(w.store, w.root, w.tip, w.log)
    requires from in w.store && w.store[from].successor.Some? && w.store[from].successor.value.id !in w.store
    ensures Covers(w.store[from].successor.value, w.log, w.root[from])
  {
    hide Ordered, Covers;
  }

  lemma ResumePublishKeeps(w: World, wr: Write)
    requires Inv(w)
    ensures Inv(ResumePublish(w, wr))
  {
    hide RootsOk, StoreOk, CoverOk, RunsOk, LogOk;
    if w.admin.Publishing? { PublishKeeps(w, w.admin.next.previous.value, wr); }
  }

  lemma RebuildKeeps(w: World, id: PlanId, user: string, readable: bool, wr: Write)
    requires Inv(w)
    ensures Inv(Rebuild(w, id, user, readable, wr))
  {
    hide RootsOk, StoreOk, CoverOk, RunsOk, LogOk;
    if id in w.store && w.store[id].successor.Some? { PublishKeeps(w, id, wr); }
  }

  // ---------------------------------------------------------------- executions

  /** Two executions belong to different chains. */
  lemma RunsApart(w: World, a: PlanId, b: PlanId)
    requires Inv(w) && a in w.runs && b in w.runs && a != b && !w.runs[a].pc.Leave? && !w.runs[b].pc.Leave?
    ensures w.root[a] != w.root[b]
  {
    hide CoverOk, LogOk, Ordered, PcOk;
    RecordAt(w, a);
    RecordAt(w, b);
  }

  /** A dispatched call is recorded as started in the newest plan of its chain. */
  lemma CoverGrows(store: map<PlanId, Plan>, root: Roots, tip: Roots, log: seq<Event>, id: PlanId, ev: Event)
    requires StoreOk(store, root, tip) && CoverOk(store, root, tip, log)
    requires id in store && !store[id].status.Superseded? && ev.root == root[id] && Started(store[id], ev.effect)
    ensures CoverOk(store, root, tip, log + [ev])
  {
    hide Ordered, Started;
    assert RecordOk(id, store[id], store, root, tip);
    forall k | k in store && k in root
      ensures root[k] in tip && tip[root[k]] == k ==> Covers(store[k], log + [ev], root[k])
      ensures store[k].successor.Some? && store[k].successor.value.id !in store ==>
              Covers(store[k].successor.value, log + [ev], root[k])
    {
      assert RecordOk(k, store[k], store, root, tip);
    }
  }

  lemma LogGrows(log: seq<Event>, root: Roots, ev: Event)
    requires LogOk(log, root) && Justified(ev.record, ev.effect, ev.at) && NotYet(log, ev.root, ev.effect)
    requires ev.record.id in root && root[ev.record.id] == ev.root
    ensures LogOk(log + [ev], root)
  {
    hide Justified;
  }

  lemma JustifiedStarted(p: Plan, e: Effect, at: int)
    requires Justified(p, e, at)
    ensures Started(p, e)
  {
  }

  lemma ExtendsTransitive(a: Plan, b: Plan, c: Plan)
    requires Extends(a, b) && Extends(b, c)
    ensures Extends(a, c)
  {
  }

  ghost predicate OthersOk(runs: map<PlanId, Exec>, id: PlanId, store: map<PlanId, Plan>, root: Roots,
                           log: seq<Event>) {
    forall k :: k in runs && k != id ==> k in store && k in root && ExecOk(k, runs[k], store[k], log, root[k])
  }

  /** A call of one execution is not a call in any other execution's chain. */
  lemma OthersUnmoved(w: World, id: PlanId, ev: Event)
    requires Inv(w) && id in w.runs && !w.runs[id].pc.Leave? && ev.root == w.root[id]
    ensures OthersOk(w.runs, id, w.store, w.root, w.log + [ev])
  {
    hide RootsOk, StoreOk, CoverOk, LogOk, Ordered, PcOk, Extends, AdminOk;
    forall k | k in w.runs && k != id ensures ExecOk(k, w.runs[k], w.store[k], w.log + [ev], w.root[k]) {
      if !w.runs[k].pc.Leave? { RunsApart(w, id, k); }
    }
  }

  /** Where the execution is after a step that did not write. */
  lemma MovedOn(id: PlanId, x: Exec, p: Plan, m: Move, log: seq<Event>, r: PlanId, now: int)
    requires ExecOk(id, x, p, log, r) && MoveOk(x, m, now) && !m.saves && !x.pc.Leave? && !x.pc.End?
    ensures ExecOk(id, Exec(m.p, m.next), p, log + (if m.call.Some? then [Event(r, m.call.value, p, now)] else []), r)
  {
    hide Ordered, PcOk, Justified;
  }

  /** Where the execution is after a write. */
  lemma Wrote(id: PlanId, x: Exec, p: Plan, m: Move, log: seq<Event>, r: PlanId, now: int, wr: Write)
    requires ExecOk(id, x, p, log, r) && MoveOk(x, m, now) && m.saves && !x.pc.Leave? && Ordered(p) && Covers(p, log, r)
    requires x.pc.End? ==> m.next.Leave?
    ensures Replaces(p, m.p)
    ensures !x.pc.End? ==> m.p.status.Running?
    ensures var next := if !wr.Landed? && !x.pc.End? then End(false) else m.next;
            ExecOk(id, Exec(m.p, next), if Stored(wr) then m.p else p, log, r)
  {
    ExtendsTransitive(p, x.p, m.p);
    if !x.pc.End? {
      PcFacts(x.pc, x.p);
      PcFacts(m.next, m.p);
      hide Justified, PcOk, Started;
      assert m.next.Call? ==> NotYet(log, r, m.next.effect);
      EndFalse(m.p);
    }
  }

  lemma PcFacts(pc: Pc, p: Plan)
    requires PcOk(pc, p)
    ensures p.status.Running? && p.successor.None? && p.approved
  {
  }

  lemma EndFalse(p: Plan)
    requires p.status.Running? && p.successor.None? && p.approved
    ensures PcOk(End(false), p)
  {
  }

  lemma CoversOwn(w: World, id: PlanId)
    requires Inv(w) && id in w.store && !w.store[id].status.Superseded?
    ensures id in w.root && Covers(w.store[id], w.log, w.root[id]) && Ordered(w.store[id]) && w.store[id].id == id
  {
    hide RunsOk, LogOk, AdminOk, Covers, Ordered;
    RecordAt(w, id);
  }

  lemma RunStepKeeps(w: World, id: PlanId, i: Input)
    requires Inv(w)
    ensures Inv(RunStep(w, id, i))
  {
    hide RootsOk, StoreOk, CoverOk, RunsOk, LogOk, MoveOk, Advance, PcOk, Ordered, Covers, Replaces, Justified;
    if id in w.runs && id in w.store && id in w.root {
      RunsOthers(w.runs, w.active, w.store, w.root, w.log);
      if w.runs[id].pc.Leave? {
        LeaveKeeps(w, id);
      } else {
        AdvanceOk(w.runs[id], w.now, i);
        if Advance(w.runs[id], w.now, i).saves { WriteKeeps(w, id, i); } else { MoveKeeps(w, id, i); }
      }
    }
  }

  lemma LeaveKeeps(w: World, id: PlanId)
    requires Inv(w) && id in w.runs
    ensures Inv(w.(active := w.active - {id}, runs := w.runs - {id}))
  {
    hide RootsOk, StoreOk, CoverOk, LogOk, ExecOk;
  }

  lemma MoveKeeps(w: World, id: PlanId, i: Input)
    requires Inv(w) && id in w.runs && id in w.store && id in w.root && !w.runs[id].pc.Leave?
    requires MoveOk(w.runs[id], Advance(w.runs[id], w.now, i), w.now) && !Advance(w.runs[id], w.now, i).saves
    ensures Inv(RunStep(w, id, i))
  {
    hide RootsOk, StoreOk, CoverOk, RunsOk, LogOk, MoveOk, Advance, PcOk, Ordered, Covers, Justified;
    var x := w.runs[id];
    var m := Advance(x, w.now, i);
    RunsOthers(w.runs, w.active, w.store, w.root, w.log);
    NotAtEnd(x, w.now, i);
    MovedOn(id, x, w.store[id], m, w.log, w.root[id], w.now);
    var w1 := RunStep(w, id, i);
    if m.call.Some? {
      var ev := Event(w.root[id], m.call.value, w.store[id], w.now);
      CallFacts(x, m, w.now);
      CoversOwn(w, id);
      JustifiedStarted(w.store[id], ev.effect, ev.at);
      OthersUnmoved(w, id, ev);
      CoverGrows(w.store, w.root, w.tip, w.log, id, ev);
      LogGrows(w.log, w.root, ev);
    } else {
      assert w.log + [] == w.log;
    }
    hide ExecOk;
    RunsEnter(w.runs, w.active, w.store, w.root, w1.log, id, w1.runs[id]);
    assert w.active + {id} == w.active;
  }

  lemma NotAtEnd(x: Exec, now: int, i: Input)
    ensures x.pc.End? ==> Advance(x, now, i).saves && Advance(x, now, i).next.Leave?
  {
    hide Revalidating, Destroyed;
  }

  lemma CallFacts(x: Exec, m: Move, now: int)
    requires MoveOk(x, m, now) && m.call.Some?
    ensures x.pc == Call(m.call.value) && Justified(x.p, m.call.value, now)
  {
    hide Justified;
  }

  lemma WriteKeeps(w: World, id: PlanId, i: Input)
    requires Inv(w) && id in w.runs && id in w.store && id in w.root && !w.runs[id].pc.Leave?
    requires MoveOk(w.runs[id], Advance(w.runs[id], w.now, i), w.now) && Advance(w.runs[id], w.now, i).saves
    ensures Inv(RunStep(w, id, i))
  {
    hide RootsOk, StoreOk, CoverOk, RunsOk, LogOk, MoveOk, Advance, PcOk, Ordered, Covers, Justified, NotYet;
    var x := w.runs[id];
    var m := Advance(x, w.now, i);
    RunsOthers(w.runs, w.active, w.store, w.root, w.log);
    NotAtEnd(x, w.now, i);
    CoversOwn(w, id);
    SavesCallNothing(x, m, w.now);
    Wrote(id, x, w.store[id], m, w.log, w.root[id], w.now, i.write);
    var w1 := RunStep(w, id, i);
    SaveKeeps(w.store, w.root, w.tip, w.log, id, m.p, i.write);
    assert w.log + [] == w.log;
    hide ExecOk;
    RunsEnter(w.runs, w.active, w1.store, w.root, w.log, id, w1.runs[id]);
    assert w.active + {id} == w.active;
  }

  lemma SavesCallNothing(x: Exec, m: Move, now: int)
    requires MoveOk(x, m, now) && m.saves
    ensures m.call.None?
  {
    hide Justified;
  }

  // ---------------------------------------------------------------- every run

  lemma StepKeeps(w: World, s: Step)
    requires Inv(w)
    ensures Inv(Apply(w, s))
  {
    match s
    case STick(_) =>
    case SCrash => CrashKeeps(w);
    case SSupersede(id, user, childUnused, wr) => hide Inv; SupersedeKeeps(w, id, user, childUnused, wr);
    case SCreate(id, vm, mode, user, wr) => hide Inv; CreateKeeps(w, id, vm, mode, user, wr);
    case SApprove(id, user, confirmed, wr) => hide Inv; ApproveKeeps(w, id, user, confirmed, wr);
    case SBegin(id, wr) => hide Inv; BeginKeeps(w, id, wr);
    case SRun(id, input) => hide Inv; RunStepKeeps(w, id, input);
    case SResumeOpen(id, user, ok) => hide Inv; ResumeOpenKeeps(w, id, user, ok);
    case SResumeProve(input) => hide Inv; ResumeProveKeeps(w, input);
    case SResumeCommit(id, ok, wr) => hide Inv; ResumeCommitKeeps(w, id, ok, wr);
    case SResumePublish(wr) => hide Inv; ResumePublishKeeps(w, wr);
    case SResumeAbort =>
    case SRebuild(id, user, readable, wr) => hide Inv; RebuildKeeps(w, id, user, readable, wr);
  }

  lemma CrashKeeps(w: World)
    requires Inv(w)
    ensures Inv(Apply(w, SCrash))
  {
    hide RootsOk, StoreOk, CoverOk, LogOk;
  }

  lemma {:induction false} RunKeeps(steps: seq<Step>)
    ensures Inv(Run(FreshWorld, steps))
  {
    if steps != [] {
      RunKeeps(steps[..|steps| - 1]);
      hide Inv;
      StepKeeps(Run(FreshWorld, steps[..|steps| - 1]), steps[|steps| - 1]);
    }
  }
}
