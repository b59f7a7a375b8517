/**
 Worker replacement as a machine of small steps. Each execution keeps its own copy of the plan and a
 place in the workflow; every step carries the outcome of the write, call or observation it makes.
 Executions interleave with each other and with the operations that hold the mutex, and the process
 may die between any two steps.
 */
module Replacement {
  import opened Basics
  import opened Fencing

  type PlanId = nat

  const PLAN_TTL := 600_000_000_000

  datatype Mode = Reachable | Dead
  datatype Status = Planned | Running | RequiresReview | Succeeded | Superseded
  datatype Effect = Drain | DestroyVm | DeleteNode | CreateChild

  datatype Plan = Plan(
    id: PlanId, previous: Option<PlanId>, revision: nat, vm: Machine, mode: Mode, status: Status, author: string,
    approved: bool, acknowledged: bool, resume: bool, expiresAt: int, fence: Option<Evidence>, reused: bool,
    effects: bool, drainStarted: bool, drainComplete: bool, fenceStarted: bool,
    nodeDeleteStarted: bool, nodeDeleted: bool, childStarted: bool, childComplete: bool,
    successor: Option<Plan>)

  predicate Resolved(s: Status) { s.Succeeded? || s.Superseded? }

  predicate Started(p: Plan, e: Effect) {
    match e
    case Drain => p.drainStarted
    case DestroyVm => p.fenceStarted
    case DeleteNode => p.nodeDeleteStarted
    case CreateChild => p.childStarted
  }

  /** Which verification of the replacement worker is under way. */
  datatype Round = Adopting | Concluding

  /** The next action of an execution. */
  datatype Pc =
    | Check
    | MarkDrain
    | Call(effect: Effect)
    | FinishDrain
    | Adopt
    | AdoptChild
    | MarkVerify(round: Round)
    | FinishVerify(round: Round)
    | Fence
    | SaveFence(evidence: Evidence, proved: bool)
    | FenceIntent
    | Node
    | ProveNode
    | MarkNode
    | FinishNode
    | Child
    | FinishChild
    | ConcludeFence
    | ConcludeNode
    | MarkWorkloads
    | Workloads
    | End(ok: bool)
    | Leave

  datatype Exec = Exec(p: Plan, pc: Pc)

  /**
   What the outside answers during one step: `ok` for checks, reads and checkpoints, `reuse` for the
   proof that the replacement took over the old provider identifier.
   */
  datatype Input = Input(ok: bool, reuse: bool, write: Write, home: string, replies: Replies, destruction: Destruction)

  /** Result of one action: the plan in memory, what comes next, whether the plan is saved, and any external call. */
  datatype Move = Move(p: Plan, next: Pc, saves: bool, call: Option<Effect>)

  function Stay(p: Plan, next: Pc): Move { Move(p, next, false, None) }
  function Saving(p: Plan, next: Pc): Move { Move(p, next, true, None) }
  function Fail(p: Plan): Move { Stay(p, End(false)) }

  function AfterStart(p: Plan): Pc { if p.mode.Dead? then Fence else Child }
  function AfterNode(p: Plan): Pc { if p.mode.Dead? then Child else ConcludeFence }
  function AfterChild(p: Plan): Pc {
    if p.mode.Dead? then ConcludeFence else if p.drainComplete then Fence else End(false)
  }

  /** Prove the fence again, without touching the provider, and go on to `next`. */
  function Revalidating(p: Plan, next: Pc, now: int, i: Input): Move {
    if p.fence.None? then Fail(p)
    else
      var prior := p.fence.value;
      var (evidence, proved) := Revalidate(p.vm, prior, i.home, i.replies);
      if !proved && p.nodeDeleted && p.childStarted && prior.outcome.Fenced? && prior.task.Some?
         && prior.machine == p.vm.id && i.reuse then
        Saving(p.(reused := true), next)
      else
        Saving(p.(fence := Some(evidence)), if proved && Fresh(evidence, now) then next else End(false))
  }

  /** What proving a fence again amounts to, case by case. */
  lemma RevalidatingCases(p: Plan, next: Pc, now: int, i: Input)
    ensures p.fence.None? ==> Revalidating(p, next, now, i) == Stay(p, End(false))
    ensures p.fence.Some? ==>
              var prior := p.fence.value;
              var (evidence, proved) := Revalidate(p.vm, prior, i.home, i.replies);
              var reuse := !proved && p.nodeDeleted && p.childStarted && prior.outcome.Fenced? && prior.task.Some?
                && prior.machine == p.vm.id && i.reuse;
              && (reuse ==> Revalidating(p, next, now, i) == Saving(p.(reused := true), next))
              && (!reuse ==> Revalidating(p, next, now, i) ==
                             Saving(p.(fence := Some(evidence)),
                                    if proved && Fresh(evidence, now) then next else End(false)))
  {
  }

  function FencingOld(p: Plan, now: int, i: Input): Move {
    if p.fenceStarted then Revalidating(p, Node, now, i)
    else if !i.ok then Fail(p)
    else Saving(p.(effects := true, fenceStarted := true), Call(DestroyVm))
  }

  function RemovingNode(p: Plan, i: Input): Move {
    if !i.ok then Fail(p)
    else if p.nodeDeleted then Stay(p, AfterNode(p))
    else if p.nodeDeleteStarted then Saving(p.(nodeDeleted := true), AfterNode(p))
    else Stay(p, ProveNode)
  }

  function Creating(p: Plan, i: Input): Move {
    if p.childComplete then Stay(p, AfterChild(p))
    else if p.childStarted || !i.ok then Fail(p)
    else Saving(p.(effects := true, childStarted := true), Call(CreateChild))
  }

  /** The external calls: each is preceded by the checkpoint after its started flag was saved. */
  function Calling(p: Plan, e: Effect, now: int, i: Input): Move {
    if !i.ok then Fail(p)
    else
      match e
      case Drain => Move(p, FinishDrain, false, Some(Drain))
      case CreateChild => Move(p, FinishChild, false, Some(CreateChild))
      case DestroyVm =>
        var (evidence, proved) := Destroyed(p.vm, i.home, i.destruction, i.replies);
        Move(p, SaveFence(evidence, proved), false, Some(DestroyVm))
      case DeleteNode =>
        if p.fence.Some? && Fresh(p.fence.value, now) then Move(p, FinishNode, false, Some(DeleteNode)) else Fail(p)
  }

  function Advance(x: Exec, now: int, i: Input): Move {
    var p := x.p;
    match x.pc
    case Check =>
      if !i.ok then Fail(p)
      else if p.resume then Stay(p, Adopt)
      else Stay(p, if p.mode.Reachable? then MarkDrain else Fence)
    case MarkDrain => Saving(p.(effects := true, drainStarted := true), Call(Drain))
    case Call(e) => Calling(p, e, now, i)
    case FinishDrain => if i.ok then Saving(p.(drainComplete := true), Child) else Fail(p)
    case Adopt => if p.fenceStarted then Revalidating(p, AdoptChild, now, i) else Stay(p, AdoptChild)
    case AdoptChild => Stay(p, if p.childStarted then MarkVerify(Adopting) else End(false))
    case MarkVerify(round) => if i.ok then Saving(p, FinishVerify(round)) else Fail(p)
    case FinishVerify(round) =>
      if i.ok then Saving(p.(childComplete := true), if round.Adopting? then AfterStart(p) else MarkWorkloads)
      else Fail(p)
    case Fence => FencingOld(p, now, i)
    case SaveFence(evidence, proved) =>
      Saving(p.(fence := Some(evidence)), if proved && Fresh(evidence, now) then FenceIntent else End(false))
    case FenceIntent => if i.ok then Stay(p, Node) else Fail(p)
    case Node => RemovingNode(p, i)
    case ProveNode => Revalidating(p, MarkNode, now, i)
    case MarkNode => Saving(p.(nodeDeleteStarted := true), Call(DeleteNode))
    case FinishNode => if i.ok then Saving(p.(nodeDeleted := true), AfterNode(p)) else Fail(p)
    case Child => Creating(p, i)
    case FinishChild => if i.ok then Saving(p.(childComplete := true), AfterChild(p)) else Fail(p)
    case ConcludeFence => Revalidating(p, ConcludeNode, now, i)
    case ConcludeNode => Stay(p, if i.ok then MarkVerify(Concluding) else End(false))
    case MarkWorkloads => Saving(p, Workloads)
    case Workloads => Stay(p, End(i.ok))
    case End(ok) => Saving(p.(status := if ok then Succeeded else RequiresReview), Leave)
    case Leave => Stay(p, Leave)
  }

  // ---------------------------------------------------------------- the world

  /** An external call, with the durable plan at that moment. `root` names the chain of plans it belongs to. */
  datatype Event = Event(root: PlanId, effect: Effect, record: Plan, at: int)

  /** The operation that holds the mutex across several writes. */
  datatype Admin = Idle | Resuming(p: Plan, user: string, proved: bool) | Publishing(next: Plan)

  /**
   `root`, `tip` and `log` are history: the chain each plan belongs to, the newest plan of each chain,
   and the external calls made.
   */
  datatype World = World(
    store: map<PlanId, Plan>, active: set<PlanId>, runs: map<PlanId, Exec>, admin: Admin, now: int,
    root: map<PlanId, PlanId>, tip: map<PlanId, PlanId>, log: seq<Event>)

  const FreshWorld := World(map[], {}, map[], Idle, 0, map[], map[], [])

  function NewPlan(id: PlanId, vm: Machine, mode: Mode, user: string, now: int): Plan {
    Plan(id, None, 1, vm, mode, Planned, user, false, false, false, now + PLAN_TTL, None, false,
         false, false, false, false, false, false, false, false, None)
  }

  /** Nothing was dispatched for this plan, and nobody can be about to run it. */
  predicate CanSupersede(p: Plan, active: set<PlanId>, user: string, now: int) {
    && p.author == user && !p.effects && !p.childStarted && !p.fenceStarted && !p.drainStarted && !p.nodeDeleteStarted
    && p.id !in active
    && ((p.status.Planned? && (!p.approved || now > p.expiresAt)) || p.status.RequiresReview?)
  }

  /** One round of the loop that looks at earlier plans of the same machine. */
  function Supersede(w: World, id: PlanId, user: string, childUnused: bool, wr: Write): World {
    if w.admin.Idle? && id in w.store && CanSupersede(w.store[id], w.active, user, w.now) && childUnused
    then w.(store := Save(w.store, id, w.store[id].(status := Superseded), wr))
    else w
  }

  predicate Unclaimed(store: map<PlanId, Plan>, machine: string) {
    forall id :: id in store && store[id].vm.id == machine ==> Resolved(store[id].status)
  }

  /** A new chain; identifiers are never reused. */
  function Create(w: World, id: PlanId, vm: Machine, mode: Mode, user: string, wr: Write): World {
    if w.admin.Idle? && id !in w.root && id !in w.store && Unclaimed(w.store, vm.id)
    then w.(store := Save(w.store, id, NewPlan(id, vm, mode, user, w.now), wr), root := w.root[id := id],
            tip := w.tip[id := id])
    else w
  }

  function Approve(w: World, id: PlanId, user: string, confirmed: bool, wr: Write): World {
    if w.admin.Idle? && id in w.store && w.store[id].status.Planned? && w.store[id].author == user
       && w.now <= w.store[id].expiresAt && confirmed
    then w.(store := Save(w.store, id, w.store[id].(approved := true, acknowledged := true), wr))
    else w
  }

  function Begin(w: World, id: PlanId, wr: Write): World {
    if w.admin.Idle? && id in w.store && w.store[id].status.Planned? && w.store[id].approved
       && w.now <= w.store[id].expiresAt && id !in w.active
    then
      var p := w.store[id].(status := Running);
      w.(store := Save(w.store, id, p, wr), active := w.active + {id},
         runs := w.runs[id := Exec(p, if wr.Landed? then Check else Leave)])
    else w
  }

  function EventsOf(w: World, m: Move, id: PlanId): seq<Event>
    requires id in w.store && id in w.root
  {
    if m.call.Some? then [Event(w.root[id], m.call.value, w.store[id], w.now)] else []
  }

  function RunStep(w: World, id: PlanId, i: Input): World {
    if id !in w.runs || id !in w.store || id !in w.root then w
    else if w.runs[id].pc.Leave? then
      if w.admin.Idle? then w.(active := w.active - {id}, runs := w.runs - {id}) else w
    else
      var m := Advance(w.runs[id], w.now, i);
      var next := if m.saves && !i.write.Landed? && !w.runs[id].pc.End? then End(false) else m.next;
      w.(store := if m.saves then Save(w.store, id, m.p, i.write) else w.store,
         runs := w.runs[id := Exec(m.p, next)],
         log := w.log + EventsOf(w, m, id))
  }

  // ---------------------------------------------------------------- resuming

  function ResumeOpen(w: World, id: PlanId, user: string, ok: bool): World {
    if w.admin.Idle? && id !in w.active && id in w.store && ok
       && (w.store[id].status.RequiresReview? || w.store[id].status.Running?) && w.store[id].childStarted
    then w.(admin := Resuming(w.store[id], user, !w.store[id].fenceStarted))
    else w
  }

  function ResumeProve(w: World, i: Input): World {
    if w.admin.Resuming? && !w.admin.proved then
      var m := Revalidating(w.admin.p, Check, w.now, i);
      w.(store := if m.saves then Save(w.store, m.p.id, m.p, i.write) else w.store,
         admin := if m.saves && i.write.Landed? && m.next.Check? then Resuming(m.p, w.admin.user, true) else Idle)
    else w
  }

  /** The plan that continues `p` under a new identifier, to be approved afresh. */
  function Successor(p: Plan, id: PlanId, user: string, now: int): Plan {
    p.(id := id, previous := Some(p.id), revision := p.revision + 1, status := Planned, author := user,
       approved := false,
       acknowledged := false, resume := true, expiresAt := now + PLAN_TTL,
       nodeDeleted := p.nodeDeleted || p.nodeDeleteStarted, successor := None)
  }

  /** A plan that hands its chain to `next`. */
  function ClosedBy(p: Plan, next: Plan): Plan { p.(status := Superseded, successor := Some(next)) }

  /** First write: the original is closed and carries its complete successor. */
  function ResumeCommit(w: World, id: PlanId, ok: bool, wr: Write): World {
    if w.admin.Resuming? && w.admin.proved && ok && id !in w.root && id !in w.store
       && w.admin.p.id in w.store && w.admin.p.id in w.root
    then
      var from := w.admin.p.id;
      var next := Successor(w.admin.p, id, w.admin.user, w.now);
      var closed := ClosedBy(w.store[from], next);
      var w1 := w.(store := Save(w.store, from, closed, wr), admin := if wr.Landed? then Publishing(next) else Idle,
                   root := w.root[id := w.root[from]]);
      if Stored(wr) then w1.(tip := w.tip[w.root[from] := id]) else w1
    else w
  }

  /** A create never replaces a record. */
  function Publish(store: map<PlanId, Plan>, next: Plan, wr: Write): map<PlanId, Plan> {
    if next.id in store then store else Save(store, next.id, next, wr)
  }

  /** Second write: the successor becomes a plan of its own. */
  function ResumePublish(w: World, wr: Write): World {
    if w.admin.Publishing? then w.(store := Publish(w.store, w.admin.next, wr), admin := Idle) else w
  }

  function ResumeAbort(w: World): World { w.(admin := Idle) }

  /** A later call finishes a resume whose second write is missing. */
  function Rebuild(w: World, id: PlanId, user: string, readable: bool, wr: Write): World {
    if w.admin.Idle? && id !in w.active && id in w.store && w.store[id].status.Superseded?
       && w.store[id].successor.Some? then
      var next := w.store[id].successor.value;
      if next.id in w.store && readable then w
      else if next.author == user && next.status.Planned? && next.previous == Some(id)
      then w.(store := Publish(w.store, next, wr))
      else w
    else w
  }

  datatype Step =
    | STick(elapsed: nat)
    | SCrash
    | SSupersede(id: PlanId, user: string, childUnused: bool, wr: Write)
    | SCreate(id: PlanId, vm: Machine, mode: Mode, user: string, wr: Write)
    | SApprove(id: PlanId, user: string, confirmed: bool, wr: Write)
    | SBegin(id: PlanId, wr: Write)
    | SRun(id: PlanId, input: Input)
    | SResumeOpen(id: PlanId, user: string, ok: bool)
    | SResumeProve(input: Input)
    | SResumeCommit(id: PlanId, ok: bool, wr: Write)
    | SResumePublish(wr: Write)
    | SResumeAbort
    | SRebuild(id: PlanId, user: string, readable: bool, wr: Write)

  function Apply(w: World, s: Step): World {
    match s
    case STick(elapsed) => w.(now := w.now + elapsed)
    case SCrash => w.(active := {}, runs := map[], admin := Idle)
    case SSupersede(id, user, childUnused, wr) => Supersede(w, id, user, childUnused, wr)
    case SCreate(id, vm, mode, user, wr) => Create(w, id, vm, mode, user, wr)
    case SApprove(id, user, confirmed, wr) => Approve(w, id, user, confirmed, wr)
    case SBegin(id, wr) => Begin(w, id, wr)
    case SRun(id, input) => RunStep(w, id, input)
    case SResumeOpen(id, user, ok) => ResumeOpen(w, id, user, ok)
    case SResumeProve(input) => ResumeProve(w, input)
    case SResumeCommit(id, ok, wr) => ResumeCommit(w, id, ok, wr)
    case SResumePublish(wr) => ResumePublish(w, wr)
    case SResumeAbort => ResumeAbort(w)
    case SRebuild(id, user, readable, wr) => Rebuild(w, id, user, readable, wr)
  }

  function Run(w: World, steps: seq<Step>): World {
    if steps == [] then w else Apply(Run(w, steps[..|steps| - 1]), steps[|steps| - 1])
  }

  lemma RunSnoc(steps: seq<Step>, s: Step)
    ensures Run(FreshWorld, steps + [s]) == Apply(Run(FreshWorld, steps), s)
  {
    hide Apply;
    assert (steps + [s])[..|steps|] == steps;
  }
}
