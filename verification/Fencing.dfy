/**
 Evidence that a worker's virtual machine is gone for good. Only a completed delete task, together
 with an inventory read framed by two permission checks, proves it. Times are nanoseconds.
 */
module Fencing {
  import opened Basics

  const TTL := 60_000_000_000

  datatype Machine = Machine(id: string, provider: string, node: string, vmid: int, worker: bool)

  /** A task identifier split into the parts the evidence rules look at; `raw` is its full text. */
  datatype Task = Task(wellFormed: bool, node: string, kind: string, vmid: int, raw: string)

  datatype Verdict = Unproved | Fenced

  datatype Evidence = Evidence(
    version: int, mode: string, outcome: Verdict, verifiedAt: Option<int>, provider: string, resource: (string, int),
    machine: string, generation: string, task: Option<Task>, resourceAbsent: bool, haAbsent: bool)

  /** Answers of the provider; a missing answer is a failed or incomplete read. */
  datatype TaskStatus = TaskStatus(stopped: bool, exitOk: bool, raw: string, node: string, kind: string)
  datatype HaEntry = NoSid | Guest(vmid: int) | OtherResource
  datatype Guest = Entry(vmid: int, known: bool)
  datatype Replies = Replies(
    task: Option<TaskStatus>, ha: Option<seq<HaEntry>>, auditBefore: bool, inventory: Option<seq<Guest>>,
    auditAfter: bool, at: int)

  function NewEvidence(m: Machine): Evidence {
    Evidence(1, "destroy-owned", Unproved, None, m.provider, (m.node, m.vmid), m.id, m.id, None, false, false)
  }

  predicate MatchingTask(t: Option<Task>, m: Machine) {
    t.Some? && t.value.wellFormed && t.value.node == m.node && t.value.kind == "qmdestroy" && t.value.vmid == m.vmid
  }

  predicate Fresh(e: Evidence, now: int) {
    && e.version == 1 && e.mode == "destroy-owned" && e.outcome.Fenced? && e.resourceAbsent && e.haAbsent
    && e.verifiedAt.Some? && e.verifiedAt.value <= now && now - e.verifiedAt.value <= TTL
  }

  predicate TaskDone(t: Option<TaskStatus>, e: Evidence, m: Machine) {
    && t.Some? && t.value.stopped && t.value.exitOk && t.value.node == m.node && t.value.kind == "qmdestroy"
    && e.task.Some? && t.value.raw == e.task.value.raw
  }

  predicate NotHighlyAvailable(ha: Option<seq<HaEntry>>, m: Machine) {
    ha.Some? && forall i :: 0 <= i < |ha.value| ==> !ha.value[i].NoSid? && ha.value[i] != Guest(m.vmid)
  }

  predicate Absent(inventory: Option<seq<Guest>>, m: Machine) {
    && inventory.Some?
    && forall i :: 0 <= i < |inventory.value| ==>
                     inventory.value[i].vmid > 0 && inventory.value[i].known && inventory.value[i].vmid != m.vmid
  }

  /** Everything the provider must have said before a fence counts as proved. */
  predicate Proved(e: Evidence, m: Machine, r: Replies) {
    TaskDone(r.task, e, m) && NotHighlyAvailable(r.ha, m) && r.auditBefore && Absent(r.inventory, m) && r.auditAfter
  }

  function Prove(e: Evidence, m: Machine, r: Replies): Evidence {
    if Proved(e, m, r)
    then e.(outcome := Fenced, verifiedAt := Some(r.at), resourceAbsent := true, haAbsent := true)
    else e.(outcome := Unproved, verifiedAt := None, resourceAbsent := false, haAbsent := false)
  }

  /** The prior evidence is about this machine. */
  predicate About(e: Evidence, m: Machine, home: string) {
    && e.version == 1 && e.mode == "destroy-owned" && e.provider == m.provider && e.resource == (m.node, m.vmid)
    && e.machine == m.id && e.generation == m.id && m.worker && m.node == home
  }

  function Revalidate(m: Machine, prior: Evidence, home: string, r: Replies): (Evidence, bool) {
    if !About(prior, m, home) || !MatchingTask(prior.task, m) then (NewEvidence(m), false)
    else (Prove(prior, m, r), Proved(prior, m, r))
  }

  /**
   Re-proved evidence is fresh exactly when it is about this machine and its delete task, the provider
   confirmed all of it just now, and no more than sixty seconds have passed since.
   */
  lemma FreshIffProved(m: Machine, prior: Evidence, home: string, r: Replies, now: int)
    ensures var (e, proved) := Revalidate(m, prior, home, r);
            Fresh(e, now) <==>
            && prior.version == 1 && prior.mode == "destroy-owned" && prior.provider == m.provider
            && prior.resource == (m.node, m.vmid) && prior.machine == m.id && prior.generation == m.id
            && m.worker && m.node == home
            && prior.task.Some? && prior.task.value.wellFormed && prior.task.value.node == m.node
            && prior.task.value.kind == "qmdestroy" && prior.task.value.vmid == m.vmid
            && r.task.Some? && r.task.value.stopped && r.task.value.exitOk && r.task.value.node == m.node
            && r.task.value.kind == "qmdestroy" && r.task.value.raw == prior.task.value.raw
            && r.ha.Some? && (forall h :: h in r.ha.value ==> h != NoSid && h != Guest(m.vmid))
            && r.auditBefore && r.auditAfter
            && r.inventory.Some? && (forall g :: g in r.inventory.value ==> g.known && g.vmid > 0 && g.vmid != m.vmid)
            && r.at <= now && now - r.at <= 60_000_000_000
    ensures Fresh(Revalidate(m, prior, home, r).0, now) ==> Revalidate(m, prior, home, r).1
  {
    ProvedMeans(prior, m, r);
  }

  /** What the provider must have said, answer by answer. */
  lemma ProvedMeans(e: Evidence, m: Machine, r: Replies)
    ensures Proved(e, m, r) <==>
            && r.task.Some? && r.task.value.stopped && r.task.value.exitOk && r.task.value.node == m.node
            && r.task.value.kind == "qmdestroy" && e.task.Some? && r.task.value.raw == e.task.value.raw
            && r.ha.Some? && (forall h :: h in r.ha.value ==> h != NoSid && h != Guest(m.vmid))
            && r.auditBefore && r.auditAfter
            && r.inventory.Some? && (forall g :: g in r.inventory.value ==> g.known && g.vmid > 0 && g.vmid != m.vmid)
  {
    if r.ha.Some? {
      assert forall i :: 0 <= i < |r.ha.value| ==> r.ha.value[i] in r.ha.value;
      assert NotHighlyAvailable(r.ha, m) <==> forall h :: h in r.ha.value ==> h != NoSid && h != Guest(m.vmid);
    }
    if r.inventory.Some? {
      assert forall i :: 0 <= i < |r.inventory.value| ==> r.inventory.value[i] in r.inventory.value;
      assert Absent(r.inventory, m)
        <==> forall g :: g in r.inventory.value ==> g.known && g.vmid > 0 && g.vmid != m.vmid;
    }
  }

  /** The destructive call yields a proved fence exactly when its own checks, its task and every answer agree. */
  lemma DestroyedIffProved(m: Machine, home: string, d: Destruction, r: Replies)
    ensures var (e, proved) := Destroyed(m, home, d, r);
            && (proved <==>
                && m.worker && m.id != "" && m.provider != "" && m.node == home && d.reached && d.finished
                && d.task.Some? && d.task.value.wellFormed && d.task.value.node == m.node
                && d.task.value.kind == "qmdestroy" && d.task.value.vmid == m.vmid
                && r.task.Some? && r.task.value.stopped && r.task.value.exitOk && r.task.value.node == m.node
                && r.task.value.kind == "qmdestroy" && r.task.value.raw == d.task.value.raw
                && r.ha.Some? && (forall h :: h in r.ha.value ==> h != NoSid && h != Guest(m.vmid))
                && r.auditBefore && r.auditAfter && r.inventory.Some?
                && (forall g :: g in r.inventory.value ==> g.known && g.vmid > 0 && g.vmid != m.vmid))
            && (e.outcome == Fenced <==> proved) && (proved ==> e.verifiedAt == Some(r.at) && e.task == d.task)
  {
    ProvedMeans(NewEvidence(m).(task := d.task), m, r);
  }

  /** A fence counts only with this machine's own delete task behind it. */
  predicate Backed(e: Evidence, m: Machine) {
    e.outcome.Fenced? ==> MatchingTask(e.task, m) && e.machine == m.id && e.resourceAbsent && e.haAbsent
  }

  /** Both ways of obtaining evidence, the destructive call and the later proof, only ever produce backed evidence. */
  lemma EvidenceIsBacked(m: Machine, prior: Evidence, home: string, d: Destruction, r: Replies)
    ensures Backed(Revalidate(m, prior, home, r).0, m) && Backed(Destroyed(m, home, d, r).0, m)
    ensures !Revalidate(m, prior, home, r).1 ==> !Revalidate(m, prior, home, r).0.outcome.Fenced?
  {
  }

  method WorkerNotHa(ha: Option<seq<HaEntry>>, m: Machine) returns (ok: bool)
    ensures ok == NotHighlyAvailable(ha, m)
    ensures ok <==> ha.Some? && forall h :: h in ha.value ==> h != NoSid && h != Guest(m.vmid)
  {
    if ha.None? { return false; }
    for i := 0 to |ha.value|
      invariant forall k :: 0 <= k < i ==> !ha.value[k].NoSid? && ha.value[k] != Guest(m.vmid)
    {
      assert ha.value[i] in ha.value;
      if ha.value[i].NoSid? || ha.value[i] == Guest(m.vmid) { return false; }
    }
    ok := true;
  }

  /** The proof in the order the provider is asked; every early exit leaves the fence unproved. */
  method ProveWorkerFence(m: Machine, evidence: Evidence, r: Replies) returns (e: Evidence, ok: bool)
    ensures e == Prove(evidence, m, r) && ok == Proved(evidence, m, r)
    ensures ok <==>
            && r.task.Some? && r.task.value.stopped && r.task.value.exitOk && r.task.value.node == m.node
            && r.task.value.kind == "qmdestroy" && evidence.task.Some? && r.task.value.raw == evidence.task.value.raw
            && r.ha.Some? && (forall h :: h in r.ha.value ==> h != NoSid && h != Guest(m.vmid))
            && r.auditBefore && r.auditAfter
            && r.inventory.Some? && (forall g :: g in r.inventory.value ==> g.known && g.vmid > 0 && g.vmid != m.vmid)
    ensures e == evidence.(outcome := if ok then Fenced else Unproved, verifiedAt := if ok then Some(r.at) else None,
                           resourceAbsent := ok, haAbsent := ok)
  {
    ProvedMeans(evidence, m, r);
    e := evidence.(outcome := Unproved, verifiedAt := None, resourceAbsent := false, haAbsent := false);
    ok := false;
    if !TaskDone(r.task, evidence, m) { return; }
    var free := WorkerNotHa(r.ha, m);
    if !free || !r.auditBefore || r.inventory.None? { return; }
    var entries := r.inventory.value;
    for i := 0 to |entries|
      invariant !ok
                && e == evidence.(outcome := Unproved, verifiedAt := None, resourceAbsent := false, haAbsent := false)
      invariant forall k :: 0 <= k < i ==> entries[k].vmid > 0 && entries[k].known && entries[k].vmid != m.vmid
    {
      if entries[i].vmid <= 0 || !entries[i].known { return; }
      if entries[i].vmid == m.vmid { return; }
    }
    if !r.auditAfter { return; }
    e := evidence.(outcome := Fenced, verifiedAt := Some(r.at), resourceAbsent := true, haAbsent := true);
    ok := true;
  }

  method RevalidateWorkerFence(m: Machine, prior: Evidence, home: string, r: Replies) returns (e: Evidence, ok: bool)
    ensures (e, ok) == Revalidate(m, prior, home, r)
  {
    if !About(prior, m, home) { return NewEvidence(m), false; }
    if !MatchingTask(prior.task, m) { return NewEvidence(m), false; }
    e, ok := ProveWorkerFence(m, prior, r);
  }

  /** What happened on the way to the delete request: checks passed, and the task it returned. */
  datatype Destruction = Destruction(reached: bool, task: Option<Task>, finished: bool)

  /** Evidence returned by the one destructive call. */
  function Destroyed(m: Machine, home: string, d: Destruction, r: Replies): (Evidence, bool) {
    var e := NewEvidence(m);
    if !m.worker || m.id == "" || m.provider == "" || m.node != home || !d.reached then (e, false)
    else if !MatchingTask(d.task, m) || !d.finished then (e.(task := d.task), false)
    else (Prove(e.(task := d.task), m, r), Proved(e.(task := d.task), m, r))
  }
}
