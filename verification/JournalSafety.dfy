/** What every step of the journal keeps, and what follows for whole runs with crashes and failed writes. */
module JournalSafety {
  import opened Basics
  import opened Reconcile
  import opened Journal

  // ---------------------------------------------------------------- the invariant

  type Table = map<JobId, Job>

  ghost predicate GoodRecord(lowered: set<JobId>, acked: set<JobId>, id: JobId, j: Job) {
    && |j.intents| <= MAX_INTENTS && DistinctIds(j.intents)
    && (Ended(j.status) && id !in lowered ==> AllResolved(j.intents))
    && (j.reviewed ==> id in acked)
  }

  ghost predicate GoodTable(t: Table, lowered: set<JobId>, acked: set<JobId>) {
    forall id :: id in t ==> GoodRecord(lowered, acked, id, t[id])
  }

  /** Memory extends the disk, and equals it while no save has failed. */
  ghost predicate Mirrors(disk: Table, jobs: Table, storageErr: bool) {
    && (forall id :: id in jobs ==> id in disk && IdPrefix(disk[id].intents, jobs[id].intents)
                                    && (disk[id].status.Interrupted? ==> jobs[id].status.Interrupted?))
    && (!storageErr ==> forall id :: id in jobs ==> disk[id] == jobs[id])
  }

  /** Records the process does not know are leftovers of a save that failed after it landed. */
  ghost predicate Leftovers(disk: Table, jobs: Table) {
    forall id :: id in disk && id !in jobs ==> Journal.Open(disk[id].status)
  }

  ghost predicate NoneAwaits(t: Table) {
    forall id :: id in t ==> !AwaitsReview(t[id])
  }

  ghost predicate GateInv(disk: Table, m: Memory) {
    && (m.run.Some? ==> m.manual.Free? && m.scribe.None?)
    && (m.scribe.Some? ==> m.manual.Reserved?)
    && (m.run.Some? || m.manual.Reserved? ==> NoneAwaits(disk) && NoneAwaits(m.jobs))
  }

  predicate Live(c: Cmd) { c.Begun? || c.Guarded? || c.Cleared? || c.Returned? }

  ghost predicate CmdInv(durable: seq<Intent>, tick: nat, c: Cmd) {
    && (Live(c) ==> HasId(durable, c.iid))
    && (c.Begun? || c.Guarded? ==> c.savedAt <= tick)
    && (c.Cleared? ==> c.savedAt < c.validatedAt <= tick)
  }

  ghost predicate OrderInv(touched: bool, c: Cmd, s: seq<Intent>) {
    !touched ==> OpenCommandIsLast(s) && (c.Checked? ==> AllReceipted(s))
  }

  ghost predicate ExecInv(disk: Table, jobs: Table, touched: set<JobId>, tick: nat, e: Exec) {
    && e.id in jobs && e.id in disk
    && Journal.Open(jobs[e.id].status) && Journal.Open(disk[e.id].status)
    && (!e.phase.InRunner? ==> e.cmd.Idle?)
    && CmdInv(disk[e.id].intents, tick, e.cmd)
    && OrderInv(e.id in touched, e.cmd, jobs[e.id].intents)
  }

  ghost predicate RunInv(disk: Table, m: Memory, touched: set<JobId>, started: seq<JobId>, tick: nat) {
    && (m.run.Some? ==> ExecInv(disk, m.jobs, touched, tick, m.run.value))
    && (m.run.Some? && (m.run.value.phase.Accepted? || m.run.value.phase.Persisted?) ==> m.run.value.id !in started)
    && (m.scribe.Some? ==> ExecInv(disk, m.jobs, touched, tick, m.scribe.value) && m.scribe.value.phase.InRunner?)
  }

  ghost predicate StartInv(started: seq<JobId>, used: set<JobId>) {
    Distinct(started) && forall id :: id in started ==> id in used
  }

  ghost predicate DispatchInv(dispatched: seq<Dispatch>, disk: Table, used: set<JobId>) {
    forall d :: d in dispatched ==> d.job in used && (d.job in disk ==> HasId(disk[d.job].intents, d.iid))
  }

  ghost predicate TimesInv(dispatched: seq<Dispatch>, tick: nat) {
    forall d :: d in dispatched ==> d.savedAt < d.validatedAt <= tick
  }

  ghost predicate MemInv(w: World, m: Memory) {
    && GoodTable(m.jobs, w.lowered, w.acked)
    && Mirrors(w.disk, m.jobs, m.storageErr) && Leftovers(w.disk, m.jobs)
    && GateInv(w.disk, m) && RunInv(w.disk, m, w.touched, w.started, w.tick)
  }

  ghost predicate Inv(w: World) {
    && w.disk.Keys <= w.used && GoodTable(w.disk, w.lowered, w.acked)
    && StartInv(w.started, w.used) && DispatchInv(w.dispatched, w.disk, w.used) && TimesInv(w.dispatched, w.tick)
    && (w.mem.Some? ==> MemInv(w, w.mem.value))
  }

  // ---------------------------------------------------------------- frames

  lemma PrefixHas(a: seq<Intent>, b: seq<Intent>, iid: string)
    requires IdPrefix(a, b) && HasId(a, iid)
    ensures HasId(b, iid)
  {
    var k :| 0 <= k < |a| && a[k].id == iid;
    assert b[k].id == iid;
  }

  lemma TickKeepsInv(w: World, t: nat)
    requires Inv(w) && w.tick <= t
    ensures Inv(w.(tick := t))
  {
  }

  /** Acknowledged, lowered and touched jobs only ever weaken what is claimed. */
  lemma HistoryKeepsInv(w: World, acked: set<JobId>, lowered: set<JobId>, touched: set<JobId>)
    requires Inv(w) && w.acked <= acked && w.lowered <= lowered && w.touched <= touched
    ensures Inv(w.(acked := acked, lowered := lowered, touched := touched))
  {
    GoodTableWeakens(w.disk, w.lowered, w.acked, lowered, acked);
    if w.mem.Some? {
      GoodTableWeakens(w.mem.value.jobs, w.lowered, w.acked, lowered, acked);
    }
  }

  lemma GoodTableWeakens(t: Table, lowered: set<JobId>, acked: set<JobId>, lowered': set<JobId>, acked': set<JobId>)
    requires GoodTable(t, lowered, acked) && lowered <= lowered' && acked <= acked'
    ensures GoodTable(t, lowered', acked')
  {
    forall id | id in t ensures GoodRecord(lowered', acked', id, t[id]) {
      assert GoodRecord(lowered, acked, id, t[id]);
    }
  }

  /** Moving a command from phase to phase touches nothing else. */
  lemma CmdKeepsInv(w: World, s: Slot, c: Cmd)
    requires Inv(w) && Acting(w, s)
    requires var e := ExecOf(w.mem.value, s).value;
             CmdInv(w.disk[e.id].intents, w.tick, c) && OrderInv(e.id in w.touched, c, w.mem.value.jobs[e.id].intents)
    ensures Inv(WithCmd(w, s, c))
  {
  }

  lemma GoodTablePut(t: Table, lowered: set<JobId>, acked: set<JobId>, id: JobId, j: Job)
    requires GoodTable(t, lowered, acked) && GoodRecord(lowered, acked, id, j)
    ensures GoodTable(t[id := j], lowered, acked)
  {
    var t1 := t[id := j];
    forall k | k in t1 ensures GoodRecord(lowered, acked, k, t1[k]) {
      assert k != id ==> GoodRecord(lowered, acked, k, t[k]);
    }
  }

  lemma DispatchPut(dispatched: seq<Dispatch>, disk: Table, used: set<JobId>, id: JobId, j: Job)
    requires DispatchInv(dispatched, disk, used)
    requires id in disk && IdPrefix(disk[id].intents, j.intents)
    ensures DispatchInv(dispatched, disk[id := j], used)
  {
    forall d | d in dispatched && d.job == id ensures HasId(j.intents, d.iid) {
      PrefixHas(disk[id].intents, j.intents, d.iid);
    }
  }

  lemma MirrorsPut(disk: Table, jobs: Table, storageErr: bool, id: JobId, j: Job, wr: Write)
    requires Mirrors(disk, jobs, storageErr) && id in jobs
    requires IdPrefix(jobs[id].intents, j.intents) && (disk[id].status.Interrupted? ==> j.status.Interrupted?)
    ensures Mirrors(Save(disk, id, j, wr), jobs[id := j], storageErr || !wr.Landed?)
    ensures IdPrefix(disk[id].intents, j.intents)
  {
  }

  lemma CmdInvPrefix(a: seq<Intent>, b: seq<Intent>, tick: nat, c: Cmd)
    requires CmdInv(a, tick, c) && IdPrefix(a, b)
    ensures CmdInv(b, tick, c)
  {
    if Live(c) { PrefixHas(a, b, c.iid); }
  }

  /** The order facts an execution on job `id` needs of the job's new intent list. */
  ghost predicate OrderKept(m: Memory, touched: set<JobId>, id: JobId, s: seq<Intent>) {
    && (m.run.Some? && m.run.value.id == id ==> OrderInv(id in touched, m.run.value.cmd, s))
    && (m.scribe.Some? && m.scribe.value.id == id ==> OrderInv(id in touched, m.scribe.value.cmd, s))
  }

  lemma ExecPut(disk: Table, jobs: Table, touched: set<JobId>, tick: nat, e: Exec, id: JobId, j: Job, wr: Write)
    requires ExecInv(disk, jobs, touched, tick, e) && id in jobs && id in disk
    requires j.status == jobs[id].status && IdPrefix(disk[id].intents, j.intents)
    requires e.id == id ==> OrderInv(id in touched, e.cmd, j.intents)
    ensures ExecInv(Save(disk, id, j, wr), jobs[id := j], touched, tick, e)
  {
    if e.id == id { CmdInvPrefix(disk[id].intents, j.intents, tick, e.cmd); }
  }

  lemma GatePut(disk: Table, m: Memory, id: JobId, j: Job, wr: Write)
    requires GateInv(disk, m) && Leftovers(disk, m.jobs) && id in m.jobs
    requires AwaitsReview(j) ==> AwaitsReview(m.jobs[id])
    ensures GateInv(Save(disk, id, j, wr), m.(jobs := m.jobs[id := j], storageErr := m.storageErr || !wr.Landed?))
    ensures Leftovers(Save(disk, id, j, wr), m.jobs[id := j])
  {
  }

  /** Rewriting a job in memory and on disk keeps the invariant when the new record is as good as the old. */
  lemma PutKeepsInv(w: World, id: JobId, j: Job, wr: Write)
    requires Inv(w) && w.mem.Some? && id in w.mem.value.jobs
    requires GoodRecord(w.lowered, w.acked, id, j)
    requires IdPrefix(w.mem.value.jobs[id].intents, j.intents)
    requires j.status == w.mem.value.jobs[id].status
    requires AwaitsReview(j) ==> AwaitsReview(w.mem.value.jobs[id])
    requires OrderKept(w.mem.value, w.touched, id, j.intents)
    ensures Inv(PutJob(w, id, j, wr))
  {
    var m := w.mem.value;
    MirrorsPut(w.disk, m.jobs, m.storageErr, id, j, wr);
    GatePut(w.disk, m, id, j, wr);
    GoodTablePut(m.jobs, w.lowered, w.acked, id, j);
    if Stored(wr) {
      GoodTablePut(w.disk, w.lowered, w.acked, id, j);
      DispatchPut(w.dispatched, w.disk, w.used, id, j);
    }
    if m.run.Some? { ExecPut(w.disk, m.jobs, w.touched, w.tick, m.run.value, id, j, wr); }
    if m.scribe.Some? { ExecPut(w.disk, m.jobs, w.touched, w.tick, m.scribe.value, id, j, wr); }
  }

  // ---------------------------------------------------------------- steps

  lemma OpenKeepsInv(w: World)
    requires Inv(w) && w.mem.None?
    ensures Inv(OpenWorld(w))
  {
  }

  lemma OpenFailedKeepsInv(w: World, done: set<JobId>)
    requires Inv(w) && w.mem.None?
    ensures Inv(OpenFailed(w, done))
  {
  }

  /** While the journal is available, nothing on disk waits for review. */
  lemma AvailableNoneAwaits(disk: Table, m: Memory)
    requires Available(m) && Mirrors(disk, m.jobs, m.storageErr) && Leftovers(disk, m.jobs)
    ensures NoneAwaits(disk) && NoneAwaits(m.jobs)
  {
    forall id | id in disk ensures !AwaitsReview(disk[id]) {
      assert id in m.jobs ==> disk[id] == m.jobs[id];
    }
  }

  /** A journal without the evicted record: nothing but that record is forgotten. */
  lemma EvictKeepsInv(w: World, gone: set<JobId>)
    requires Inv(w) && w.mem.Some? && Available(w.mem.value)
    ensures Inv(w.(disk := w.disk - gone, mem := Some(w.mem.value.(jobs := w.mem.value.jobs - gone))))
  {
  }

  lemma SubmitKeepsInv(w: World, kind: string, dedupe: string, id: JobId, now: int, victim: JobId, removed: bool,
                       wr: Write)
    requires Inv(w) && w.mem.Some?
    ensures Inv(Submit(w, kind, dedupe, id, now, victim, removed, wr))
  {
    var m := w.mem.value;
    var w2 := Submit(w, kind, dedupe, id, now, victim, removed, wr);
    if w2 == w {
      return;
    }
    AvailableNoneAwaits(w.disk, m);
    var gone: set<JobId> := if |m.jobs| >= MAX_JOBS then {victim} else {};
    EvictKeepsInv(w, gone);
    NewRecordKeepsInv(w.(disk := w.disk - gone, mem := Some(m.(jobs := m.jobs - gone))), id,
                      NewJob(kind, dedupe, Queued, now), wr);
  }

  /** Writing the first record of a job nobody used before; `run` is filled in when it landed. */
  lemma NewRecordKeepsInv(w: World, id: JobId, j: Job, wr: Write)
    requires Inv(w) && w.mem.Some? && Available(w.mem.value) && id !in w.used
    requires j.intents == [] && j.status.Queued? && !j.reviewed
    requires NoneAwaits(w.disk) && NoneAwaits(w.mem.value.jobs)
    ensures Inv(w.(disk := Save(w.disk, id, j, wr), used := w.used + {id},
                   mem := Some(if wr.Landed?
                               then w.mem.value.(jobs := w.mem.value.jobs[id := j],
                                                 run := Some(Exec(id, Accepted, Idle)))
                               else w.mem.value)))
  {
    GoodTablePut(w.disk, w.lowered, w.acked, id, j);
    GoodTablePut(w.mem.value.jobs, w.lowered, w.acked, id, j);
  }

  lemma RunPersistKeepsInv(w: World, wr: Write)
    requires Inv(w)
    ensures Inv(RunPersist(w, wr))
  {
    if RunPersist(w, wr) == w {
      return;
    }
    var m, e := w.mem.value, w.mem.value.run.value;
    var j := m.jobs[e.id].(status := Running);
    MirrorsPut(w.disk, m.jobs, m.storageErr, e.id, j, wr);
    GatePut(w.disk, m, e.id, j, wr);
    GoodTablePut(m.jobs, w.lowered, w.acked, e.id, j);
    if Stored(wr) {
      GoodTablePut(w.disk, w.lowered, w.acked, e.id, j);
      DispatchPut(w.dispatched, w.disk, w.used, e.id, j);
    }
  }

  lemma RunAdmitKeepsInv(w: World, ok: bool)
    requires Inv(w)
    ensures Inv(RunAdmit(w, ok))
  {
    if RunAdmit(w, ok) != w && Valid(w.mem.value, ok) {
      DistinctSnoc(w.started, w.mem.value.run.value.id);
    }
  }

  lemma RunnerReturnKeepsInv(w: World, result: RunResult)
    requires Inv(w)
    ensures Inv(RunnerReturn(w, result))
  {
  }

  /** The record written at completion, and the one kept in memory when that write failed. */
  lemma FinishedRecord(w: World, e: Exec, j: Job, m: Memory)
    requires Inv(w) && w.mem == Some(m) && m.run == Some(e) && e.phase.Ending? && j == m.jobs[e.id]
    ensures var s := FinalStatus(j, m, e.phase.result);
            var j1 := j.(status := s, verdict := if s.Interrupted? then Unknown else j.verdict);
            GoodRecord(w.lowered, w.acked, e.id, j1) && GoodRecord(w.lowered, w.acked, e.id, j1.(status := Interrupted))
  {
    assert GoodRecord(w.lowered, w.acked, e.id, j);
  }

  /** Storage, memory and the gate after completion; a failed write leaves an interrupted record in memory. */
  lemma FinishedTables(disk: Table, m: Memory, id: JobId, j1: Job, kept: Job, wr: Write)
    requires Mirrors(disk, m.jobs, m.storageErr) && GateInv(disk, m) && Leftovers(disk, m.jobs)
    requires m.run.Some? && id in m.jobs && id in disk && Journal.Open(disk[id].status)
    requires kept == if wr.Landed? then j1 else j1.(status := Interrupted)
    requires j1.intents == m.jobs[id].intents
    ensures IdPrefix(disk[id].intents, j1.intents)
    ensures var m1 := m.(jobs := m.jobs[id := kept], run := None, storageErr := m.storageErr || !wr.Landed?);
            var disk1 := Save(disk, id, j1, wr);
            Mirrors(disk1, m1.jobs, m1.storageErr) && GateInv(disk1, m1) && Leftovers(disk1, m1.jobs)
  {
  }

  lemma RunFinishKeepsInv(w: World, wr: Write)
    requires Inv(w)
    ensures Inv(RunFinish(w, wr))
  {
    if RunFinish(w, wr) == w {
      return;
    }
    hide GoodTable, FinalStatus, Mirrors, GateInv, Leftovers, DispatchInv;
    var m, e := w.mem.value, w.mem.value.run.value;
    var j := m.jobs[e.id];
    FinishedRecord(w, e, j, m);
    var s := FinalStatus(j, m, e.phase.result);
    var j1 := j.(status := s, verdict := if s.Interrupted? then Unknown else j.verdict);
    var kept := if wr.Landed? then j1 else j1.(status := Interrupted);
    GoodTablePut(m.jobs, w.lowered, w.acked, e.id, kept);
    FinishedTables(w.disk, m, e.id, j1, kept, wr);
    if Stored(wr) {
      GoodTablePut(w.disk, w.lowered, w.acked, e.id, j1);
      DispatchPut(w.dispatched, w.disk, w.used, e.id, j1);
    }
  }

  lemma StopKeepsInv(w: World, id: JobId, wr: Write)
    requires Inv(w)
    ensures Inv(Stop(w, id, wr))
  {
    if Stop(w, id, wr) != w {
      var j := w.mem.value.jobs[id];
      assert GoodRecord(w.lowered, w.acked, id, j);
      PutKeepsInv(w, id, j.(stop := true), wr);
    }
  }

  lemma AcknowledgeKeepsInv(w: World, id: JobId, wr: Write)
    requires Inv(w)
    ensures Inv(Acknowledge(w, id, wr))
  {
    if Acknowledge(w, id, wr) != w {
      HistoryKeepsInv(w, w.acked + {id}, w.lowered, w.touched);
      var j := w.mem.value.jobs[id];
      assert GoodRecord(w.lowered, w.acked, id, j);
      PutKeepsInv(w.(acked := w.acked + {id}), id, j.(reviewed := true), wr);
    }
  }

  lemma ReviewKeepsInv(w: World, id: JobId, wr: Write)
    requires Inv(w)
    ensures Inv(ReviewCommands(w, id, wr))
  {
    if ReviewCommands(w, id, wr) != w {
      var j := w.mem.value.jobs[id];
      assert GoodRecord(w.lowered, w.acked, id, j);
      PutKeepsInv(w, id, j.(verdict := RequiresReview), wr);
    }
  }

  lemma ConfigKeepsInv(w: World, s: Step)
    requires Inv(w) && (s.SCrash? || s.SSetAuthority? || s.SRequire? || s.SClose? || s.SRelease?)
    ensures Inv(Apply(w, s))
  {
  }

  lemma ReserveKeepsInv(w: World, ok: bool)
    requires Inv(w)
    ensures Inv(Reserve(w, ok))
  {
    if w.mem.Some? && Available(w.mem.value) { AvailableNoneAwaits(w.disk, w.mem.value); }
  }

  lemma ManualBeginKeepsInv(w: World, id: JobId, now: int, wr: Write)
    requires Inv(w)
    ensures Inv(ManualBegin(w, id, now, wr))
  {
    if ManualBegin(w, id, now, wr) != w {
      var j := NewJob("manual-command", "", Running, now);
      GoodTablePut(w.disk, w.lowered, w.acked, id, j);
      GoodTablePut(w.mem.value.jobs, w.lowered, w.acked, id, j);
    }
  }

  lemma ManualFinishKeepsInv(w: World, failed: bool, cancelled: bool, wr: Write)
    requires Inv(w)
    ensures Inv(ManualFinish(w, failed, cancelled, wr))
  {
    if ManualFinish(w, failed, cancelled, wr) == w || w.mem.value.scribe.None? {
      return;
    }
    var m, e := w.mem.value, w.mem.value.scribe.value;
    var j := m.jobs[e.id];
    assert GoodRecord(w.lowered, w.acked, e.id, j);
    var bad := failed || cancelled || !AllResolved(j.intents);
    var j1 := if bad then j.(status := Interrupted, verdict := Unknown) else j.(status := JobSucceeded);
    MirrorsPut(w.disk, m.jobs, m.storageErr, e.id, j1, wr);
    GoodTablePut(m.jobs, w.lowered, w.acked, e.id, j1);
    if Stored(wr) {
      GoodTablePut(w.disk, w.lowered, w.acked, e.id, j1);
      DispatchPut(w.dispatched, w.disk, w.used, e.id, j1);
    }
  }

  lemma ObservedIsGood(w: World, id: JobId, j: Job, iid: string, o: Observation, now: int)
    requires GoodRecord(w.lowered, w.acked, id, j) && IndexOf(j.intents, iid) < |j.intents|
    requires !Journal.Open(j.status) ==> id in w.lowered
    requires j.intents[IndexOf(j.intents, iid)].action.Command? ==> id in w.touched
    ensures GoodRecord(w.lowered, w.acked, id, Observed(j, iid, o, now))
    ensures IdPrefix(j.intents, Observed(j, iid, o, now).intents)
    ensures forall c: Cmd :: OrderInv(id in w.touched, c, j.intents) ==>
                               OrderInv(id in w.touched, c, Observed(j, iid, o, now).intents)
  {
    var s, s1 := j.intents, Observed(j, iid, o, now).intents;
    assert |s1| == |s| && forall k :: 0 <= k < |s| ==> s1[k].id == s[k].id && s1[k].action == s[k].action;
    assert forall k :: 0 <= k < |s| && s[k].action.Command? && id !in w.touched ==> s1[k] == s[k];
  }

  lemma ObserveKeepsInv(w: World, id: JobId, iid: string, o: Observation, now: int, wr: Write)
    requires Inv(w)
    ensures Inv(Observe(w, id, iid, o, now, wr))
  {
    if w.mem.None? || !ObservationAllowed(o) || w.mem.value.storageErr || id !in w.mem.value.jobs {
      return;
    }
    var m, j := w.mem.value, w.mem.value.jobs[id];
    var k := IndexOf(j.intents, iid);
    if k == |j.intents| {
      return;
    }
    var lowered := if Journal.Open(j.status) then w.lowered else w.lowered + {id};
    var touched := if j.intents[k].action.Command? then w.touched + {id} else w.touched;
    HistoryKeepsInv(w, w.acked, lowered, touched);
    var w1 := w.(lowered := lowered, touched := touched);
    assert GoodRecord(w1.lowered, w1.acked, id, j);
    ObservedIsGood(w1, id, j, iid, o, now);
    PutKeepsInv(w1, id, Observed(j, iid, o, now), wr);
  }

  lemma AppendIsGood(lowered: set<JobId>, acked: set<JobId>, id: JobId, j: Job, i: Intent)
    requires GoodRecord(lowered, acked, id, j) && Journal.Open(j.status)
    requires |j.intents| < MAX_INTENTS && !HasId(j.intents, i.id)
    ensures GoodRecord(lowered, acked, id, j.(intents := j.intents + [i], verdict := Unknown))
    ensures IdPrefix(j.intents, j.intents + [i]) && HasId(j.intents + [i], i.id)
    ensures AllReceipted(j.intents) ==> OpenCommandIsLast(j.intents + [i])
    ensures !i.action.Command? && OpenCommandIsLast(j.intents) ==> OpenCommandIsLast(j.intents + [i])
    ensures !i.action.Command? && AllReceipted(j.intents) ==> AllReceipted(j.intents + [i])
  {
    assert (j.intents + [i])[|j.intents|] == i;
  }

  /** A durable intent, begun with no command under way other than the one it belongs to. */
  lemma BeginKeepsInv(w: World, s: Slot, iid: string, action: Action, identity: Identity, now: int, v1: bool, wr: Write,
                      v2: bool)
    requires Inv(w) && Acting(w, s)
    requires action.Command? ==>
               var e := ExecOf(w.mem.value, s).value;
               e.cmd.Idle? && (e.id !in w.touched ==> AllReceipted(w.mem.value.jobs[e.id].intents))
    ensures var e := ExecOf(w.mem.value, s).value;
            var r := BeginIntent(w, e.id, iid, action, identity, now, v1, wr, v2);
            Inv(r.0) && (r.1 ==> e.id in r.0.disk && HasId(r.0.disk[e.id].intents, iid))
  {
    var e := ExecOf(w.mem.value, s).value;
    var m, j := w.mem.value, w.mem.value.jobs[e.id];
    assert GoodRecord(w.lowered, w.acked, e.id, j);
    if IntentAdmitted(m, j, iid, identity, v1) {
      var i := NewIntent(m, iid, action, identity, now);
      AppendIsGood(w.lowered, w.acked, e.id, j, i);
      PutKeepsInv(w, e.id, j.(intents := j.intents + [i], verdict := Unknown), wr);
    } else if BeginIntent(w, e.id, iid, action, identity, now, v1, wr, v2).0 != w {
      PutKeepsInv(w, e.id, j.(verdict := RequiresReview), wr);
    }
  }

  lemma LogKeepsInv(w: World, s: Slot, wr: Write)
    requires Inv(w)
    ensures Inv(LogStep(w, s, wr))
  {
    if Acting(w, s) && !w.mem.value.storageErr {
      var id := ExecOf(w.mem.value, s).value.id;
      assert GoodRecord(w.lowered, w.acked, id, w.mem.value.jobs[id]);
      PutKeepsInv(w, id, w.mem.value.jobs[id], wr);
    }
  }

  /** What beginning an intent leaves alone. */
  lemma BegunFrame(w: World, s: Slot, iid: string, identity: Identity, now: int, v1: bool, wr: Write, v2: bool)
    requires Acting(w, s)
    ensures var w1 := BeginIntent(w, ExecOf(w.mem.value, s).value.id, iid, Command, identity, now, v1, wr, v2).0;
            Acting(w1, s) && ExecOf(w1.mem.value, s) == ExecOf(w.mem.value, s) && w1.tick == w.tick
  {
  }

  lemma CmdBeginKeepsInv(w: World, s: Slot, identity: Identity, now: int, v1: bool, wr: Write, v2: bool)
    requires Inv(w)
    ensures Inv(CmdBegin(w, s, identity, now, v1, wr, v2))
  {
    hide Inv;
    if !Acting(w, s) || !ExecOf(w.mem.value, s).value.cmd.Checked? {
      return;
    }
    CheckedFacts(w, s);
    BegunKeepsInv(WithCmd(w, s, Idle), s, CommandId(ExecOf(w.mem.value, s).value.cmd.sequence), identity, now, v1, wr,
                  v2);
  }

  lemma CheckedFacts(w: World, s: Slot)
    requires Inv(w) && Acting(w, s) && ExecOf(w.mem.value, s).value.cmd.Checked?
    ensures Inv(WithCmd(w, s, Idle))
    ensures var e := ExecOf(w.mem.value, s).value; e.id !in w.touched ==> AllReceipted(w.mem.value.jobs[e.id].intents)
  {
    CmdKeepsInv(w, s, Idle);
  }

  lemma BegunKeepsInv(w: World, s: Slot, iid: string, identity: Identity, now: int, v1: bool, wr: Write, v2: bool)
    requires Inv(w) && Acting(w, s) && ExecOf(w.mem.value, s).value.cmd.Idle?
    requires var e := ExecOf(w.mem.value, s).value; e.id !in w.touched ==> AllReceipted(w.mem.value.jobs[e.id].intents)
    ensures var r := BeginIntent(w, ExecOf(w.mem.value, s).value.id, iid, Command, identity, now, v1, wr, v2);
            Inv(r.0) && (r.1 ==> Acting(r.0, s) && Inv(WithCmd(r.0, s, Begun(iid, w.tick))))
  {
    BeginKeepsInv(w, s, iid, Command, identity, now, v1, wr, v2);
    BegunFrame(w, s, iid, identity, now, v1, wr, v2);
    var r := BeginIntent(w, ExecOf(w.mem.value, s).value.id, iid, Command, identity, now, v1, wr, v2);
    hide BeginIntent;
    if r.1 {
      CmdKeepsInv(r.0, s, Begun(iid, w.tick));
    }
  }

  lemma CmdCheckKeepsInv(w: World, s: Slot)
    requires Inv(w)
    ensures Inv(CmdCheck(w, s))
  {
    if Acting(w, s) && AllReceipted(w.mem.value.jobs[ExecOf(w.mem.value, s).value.id].intents) {
      CmdKeepsInv(w, s, Checked(|w.mem.value.jobs[ExecOf(w.mem.value, s).value.id].intents|));
    }
  }

  lemma CmdGuardKeepsInv(w: World, s: Slot, ok: bool)
    requires Inv(w)
    ensures Inv(CmdGuard(w, s, ok))
  {
    if Acting(w, s) && ExecOf(w.mem.value, s).value.cmd.Begun? {
      var c := ExecOf(w.mem.value, s).value.cmd;
      CmdKeepsInv(w, s, if ok then Guarded(c.iid, c.savedAt) else Idle);
    }
  }

  /** The last validation happens strictly after the step that made the intent durable. */
  lemma CmdValidateKeepsInv(w: World, s: Slot, ok: bool)
    requires Inv(w)
    requires Acting(w, s) && ExecOf(w.mem.value, s).value.cmd.Guarded? ==>
             ExecOf(w.mem.value, s).value.cmd.savedAt < w.tick
    ensures Inv(CmdValidate(w, s, ok))
  {
    if Acting(w, s) && ExecOf(w.mem.value, s).value.cmd.Guarded? {
      var c := ExecOf(w.mem.value, s).value.cmd;
      CmdKeepsInv(w, s, if Valid(w.mem.value, ok) then Cleared(c.iid, c.savedAt, w.tick) else Idle);
    }
  }

  lemma CmdAbortKeepsInv(w: World, s: Slot)
    requires Inv(w)
    ensures Inv(CmdAbort(w, s))
  {
    if Acting(w, s) {
      CmdKeepsInv(w, s, Idle);
    }
  }

  lemma CmdCallKeepsInv(w: World, s: Slot, result: CallResult)
    requires Inv(w)
    ensures Inv(CmdCall(w, s, result))
  {
    if Acting(w, s) && ExecOf(w.mem.value, s).value.cmd.Cleared? {
      var c := ExecOf(w.mem.value, s).value.cmd;
      CmdKeepsInv(w, s, if result.Unproved? then Idle else Returned(c.iid, result.Refused?));
    }
  }

  lemma StampedIsGood(lowered: set<JobId>, acked: set<JobId>, id: JobId, j: Job, iid: string, refused: bool,
                      instance: string, now: int)
    requires GoodRecord(lowered, acked, id, j) && Journal.Open(j.status)
    ensures var s := StampAll(j.intents, iid, refused, instance, now);
            && GoodRecord(lowered, acked, id,
                          j.(intents := s, verdict := if AllResolved(s) then Succeeded else Unknown))
            && IdPrefix(j.intents, s)
            && (OpenCommandIsLast(j.intents) ==> OpenCommandIsLast(s))
  {
    var s := StampAll(j.intents, iid, refused, instance, now);
    assert forall k :: 0 <= k < |s| ==> s[k].id == j.intents[k].id && s[k].action == j.intents[k].action;
    assert forall k :: 0 <= k < |s| && Receipt(j.intents[k]) ==> Receipt(s[k]);
  }

  lemma CmdStampKeepsInv(w: World, s: Slot, now: int, wr: Write)
    requires Inv(w)
    ensures Inv(CmdStamp(w, s, now, wr))
  {
    if !Acting(w, s) || !ExecOf(w.mem.value, s).value.cmd.Returned? {
      return;
    }
    CmdKeepsInv(w, s, Idle);
    if !w.mem.value.storageErr {
      StampKeepsInv(WithCmd(w, s, Idle), s, ExecOf(w.mem.value, s).value.cmd, now, wr);
    }
  }

  /** The receipt, written once the command slot is idle again. */
  lemma StampKeepsInv(w: World, s: Slot, c: Cmd, now: int, wr: Write)
    requires Inv(w) && Acting(w, s) && c.Returned? && ExecOf(w.mem.value, s).value.cmd.Idle?
    ensures var m, e := w.mem.value, ExecOf(w.mem.value, s).value;
            var instance := if m.authority.Some? then m.authority.value.instance else "";
            var intents := StampAll(m.jobs[e.id].intents, c.iid, c.refused, instance, now);
            Inv(PutJob(w, e.id,
                       m.jobs[e.id].(intents := intents,
                                     verdict := if AllResolved(intents) then Succeeded else Unknown), wr))
  {
    var m, e := w.mem.value, ExecOf(w.mem.value, s).value;
    var j := m.jobs[e.id];
    var instance := if m.authority.Some? then m.authority.value.instance else "";
    assert GoodRecord(w.lowered, w.acked, e.id, j);
    StampedIsGood(w.lowered, w.acked, e.id, j, c.iid, c.refused, instance, now);
    var intents := StampAll(j.intents, c.iid, c.refused, instance, now);
    PutKeepsInv(w, e.id, j.(intents := intents, verdict := if AllResolved(intents) then Succeeded else Unknown), wr);
  }

  predicate JobStep(s: Step) {
    s.SSubmit? || s.SRunPersist? || s.SRunAdmit? || s.SRunnerReturn? || s.SRunFinish? || s.SLog?
  }

  predicate DeskStep(s: Step) {
    s.SStop? || s.SAcknowledge? || s.SReview? || s.SObserve? || s.SReserve? || s.SManualBegin? || s.SManualFinish?
  }

  predicate CommandStep(s: Step) {
    || s.SResource? || s.SCmdCheck? || s.SCmdBegin? || s.SCmdGuard? || s.SCmdValidate?
    || s.SCmdCall? || s.SCmdStamp? || s.SCmdAbort?
  }

  lemma JobStepKeepsInv(w: World, s: Step)
    requires Inv(w) && JobStep(s)
    ensures Inv(Apply(w, s))
  {
    hide Inv;
    match s
    case SSubmit(kind, dedupe, id, now, victim, removed, wr) =>
      if w.mem.Some? { SubmitKeepsInv(w, kind, dedupe, id, now, victim, removed, wr); }
    case SRunPersist(wr) => RunPersistKeepsInv(w, wr);
    case SRunAdmit(ok) => RunAdmitKeepsInv(w, ok);
    case SRunnerReturn(result) => RunnerReturnKeepsInv(w, result);
    case SRunFinish(wr) => RunFinishKeepsInv(w, wr);
    case SLog(slot, wr) => LogKeepsInv(w, slot, wr);
  }

  lemma DeskStepKeepsInv(w: World, s: Step)
    requires Inv(w) && DeskStep(s)
    ensures Inv(Apply(w, s))
  {
    hide Inv;
    match s
    case SStop(id, wr) => StopKeepsInv(w, id, wr);
    case SAcknowledge(id, wr) => AcknowledgeKeepsInv(w, id, wr);
    case SReview(id, wr) => ReviewKeepsInv(w, id, wr);
    case SObserve(id, iid, o, now, wr) => ObserveKeepsInv(w, id, iid, o, now, wr);
    case SReserve(ok) => ReserveKeepsInv(w, ok);
    case SManualBegin(id, now, wr) => ManualBeginKeepsInv(w, id, now, wr);
    case SManualFinish(failed, cancelled, wr) => ManualFinishKeepsInv(w, failed, cancelled, wr);
  }

  lemma CommandStepKeepsInv(w: World, s: Step)
    requires Inv(w) && CommandStep(s)
    requires Acting(w, s.slot) && ExecOf(w.mem.value, s.slot).value.cmd.Guarded? ==>
             ExecOf(w.mem.value, s.slot).value.cmd.savedAt < w.tick
    ensures Inv(Apply(w, s))
  {
    hide Inv;
    match s
    case SResource(slot, iid, action, identity, now, v1, wr, v2) =>
      if Acting(w, slot) && !action.Command? { BeginKeepsInv(w, slot, iid, action, identity, now, v1, wr, v2); }
    case SCmdBegin(slot, identity, now, v1, wr, v2) => CmdBeginKeepsInv(w, slot, identity, now, v1, wr, v2);
    case SCmdStamp(slot, now, wr) => CmdStampKeepsInv(w, slot, now, wr);
    case _ => PhaseStepKeepsInv(w, s);
  }

  lemma PhaseStepKeepsInv(w: World, s: Step)
    requires Inv(w) && (s.SCmdCheck? || s.SCmdGuard? || s.SCmdValidate? || s.SCmdCall? || s.SCmdAbort?)
    requires Acting(w, s.slot) && ExecOf(w.mem.value, s.slot).value.cmd.Guarded? ==>
             ExecOf(w.mem.value, s.slot).value.cmd.savedAt < w.tick
    ensures Inv(Apply(w, s))
  {
    hide Inv;
    match s
    case SCmdCheck(slot) => CmdCheckKeepsInv(w, slot);
    case SCmdGuard(slot, ok) => CmdGuardKeepsInv(w, slot, ok);
    case SCmdValidate(slot, ok) => CmdValidateKeepsInv(w, slot, ok);
    case SCmdCall(slot, result) => CmdCallKeepsInv(w, slot, result);
    case SCmdAbort(slot) => CmdAbortKeepsInv(w, slot);
  }

  /** Before any step the clock advances, so whatever is under way was begun earlier. */
  lemma TickAge(w: World, t: nat, s: Slot)
    requires Inv(w) && w.tick < t
    ensures var w1 := w.(tick := t);
            && Inv(w1)
            && (Acting(w1, s) && ExecOf(w1.mem.value, s).value.cmd.Guarded? ==>
                ExecOf(w1.mem.value, s).value.cmd.savedAt < w1.tick)
  {
    TickKeepsInv(w, t);
  }

  lemma StepKeepsInv(w: World, t: nat, s: Step)
    requires Inv(w) && w.tick < t
    ensures Inv(StepAt(w, t, s))
  {
    hide Inv;
    TickKeepsInv(w, t);
    var w1 := w.(tick := t);
    if JobStep(s) {
      JobStepKeepsInv(w1, s);
    } else if DeskStep(s) {
      DeskStepKeepsInv(w1, s);
    } else if CommandStep(s) {
      TickAge(w, t, s.slot);
      CommandStepKeepsInv(w1, s);
    } else if w1.mem.None? && (s.SOpen? || s.SOpenFailed?) {
      OpenKeepsInv(w1);
      if s.SOpenFailed? { OpenFailedKeepsInv(w1, s.done); }
    } else if !s.SOpen? && !s.SOpenFailed? {
      ConfigKeepsInv(w1, s);
    }
  }

  lemma {:induction false} RunKeepsInv(w: World, steps: seq<Step>)
    requires Inv(w)
    ensures Inv(Run(w, steps))
  {
    if steps != [] {
      RunKeepsInv(w, steps[..|steps| - 1]);
      StepKeepsInv(Run(w, steps[..|steps| - 1]), Run(w, steps[..|steps| - 1]).tick + 1, steps[|steps| - 1]);
    }
  }

  // ---------------------------------------------------------------- every run

  lemma EveryRun(steps: seq<Step>)
    ensures Inv(Run(FreshWorld, steps))
  {
    RunKeepsInv(FreshWorld, steps);
  }

  /**
   The process may die after any step. On reopening, a job that had dispatched a command is either a
   recorded end or interrupted, and reviewed only if an operator acknowledged it; the dispatched intent is
   in the record. The intents of a recorded end are all resolved, unless reconciliation rewrote their
   evidence after the end (`lowered`).
   */
  lemma CrashRecovery(steps: seq<Step>, d: Dispatch)
    requires var w := Run(FreshWorld, steps); d in w.dispatched && d.job in w.disk
    ensures var w := Run(FreshWorld, steps);
            var j := Reopened(w.disk)[d.job];
            && HasId(j.intents, d.iid)
            && (|| (Ended(j.status) && (d.job !in w.lowered ==> AllResolved(j.intents)))
                || (j.status.Interrupted? && (j.reviewed ==> d.job in w.acked)))
  {
    EveryRun(steps);
    var w := Run(FreshWorld, steps);
    assert GoodRecord(w.lowered, w.acked, d.job, w.disk[d.job]);
  }

  /** Job `k` waits for review in storage, and in memory if the journal is open. */
  ghost predicate Waits(w: World, k: JobId) {
    && k in w.disk && AwaitsReview(w.disk[k])
    && (w.mem.Some? && k in w.mem.value.jobs ==> AwaitsReview(w.mem.value.jobs[k]))
  }

  /**
   What a step may do to a record `k` whose id is taken, and when it may start or dispatch anything;
   `acks` says that the step acknowledges that record.
   */
  ghost predicate Moves(w: World, w1: World, k: JobId, acks: bool) {
    && w.used <= w1.used
    && (k in w.used && k in w1.disk ==> k in w.disk && IdPrefix(w.disk[k].intents, w1.disk[k].intents))
    && (Waits(w, k) && !acks ==> Waits(w1, k) && w1.started == w.started && w1.dispatched == w.dispatched)
  }

  predicate Acknowledges(s: Step, k: JobId) { s.SAcknowledge? && s.id == k }

  /** A record waiting for review in storage leaves nothing running. */
  lemma AwaitingFacts(w: World, k: JobId)
    requires Inv(w) && w.mem.Some? && k in w.disk && AwaitsReview(w.disk[k])
    ensures w.mem.value.run.None? && w.mem.value.scribe.None? && !Available(w.mem.value)
  {
    var m := w.mem.value;
    if Available(m) { AvailableNoneAwaits(w.disk, m); }
  }

  lemma PutMoves(w: World, id: JobId, j: Job, wr: Write, k: JobId)
    requires Inv(w) && w.mem.Some? && id in w.mem.value.jobs
    requires IdPrefix(w.mem.value.jobs[id].intents, j.intents)
    requires AwaitsReview(w.mem.value.jobs[id]) ==> AwaitsReview(j)
    ensures Moves(w, PutJob(w, id, j, wr), k, false)
  {
    if k in w.disk && AwaitsReview(w.disk[k]) { AwaitingFacts(w, k); }
  }

  lemma SubmitMoves(w: World, kind: string, dedupe: string, id: JobId, now: int, victim: JobId, removed: bool,
                    wr: Write, k: JobId)
    requires Inv(w) && w.mem.Some?
    ensures Moves(w, Submit(w, kind, dedupe, id, now, victim, removed, wr), k, false)
  {
    if k in w.disk && AwaitsReview(w.disk[k]) { AwaitingFacts(w, k); }
  }

  lemma LogMoves(w: World, s: Slot, wr: Write, k: JobId)
    requires Inv(w)
    ensures Moves(w, LogStep(w, s, wr), k, false)
  {
    hide Inv;
    if Acting(w, s) {
      var id := ExecOf(w.mem.value, s).value.id;
      PutMoves(w, id, w.mem.value.jobs[id], wr, k);
    }
  }

  lemma PersistMoves(w: World, wr: Write, k: JobId)
    requires Inv(w)
    ensures Moves(w, RunPersist(w, wr), k, false)
  {
    if w.mem.Some? && w.mem.value.run.Some? { assert NoneAwaits(w.disk); }
  }

  lemma FinishMoves(w: World, wr: Write, k: JobId)
    requires Inv(w)
    ensures Moves(w, RunFinish(w, wr), k, false)
  {
    if w.mem.Some? && w.mem.value.run.Some? { assert NoneAwaits(w.disk); }
  }

  lemma AdmitMoves(w: World, ok: bool, k: JobId)
    requires Inv(w)
    ensures Moves(w, RunAdmit(w, ok), k, false)
  {
    if w.mem.Some? && w.mem.value.run.Some? { assert NoneAwaits(w.disk); }
  }

  lemma JobStepMoves(w: World, s: Step, k: JobId)
    requires Inv(w) && JobStep(s)
    ensures Moves(w, Apply(w, s), k, false)
  {
    hide Inv;
    match s
    case SSubmit(kind, dedupe, id, now, victim, removed, wr) =>
      if w.mem.Some? { SubmitMoves(w, kind, dedupe, id, now, victim, removed, wr, k); }
    case SRunPersist(wr) => PersistMoves(w, wr, k);
    case SRunAdmit(ok) => AdmitMoves(w, ok, k);
    case SRunnerReturn(_) =>
    case SRunFinish(wr) => FinishMoves(w, wr, k);
    case SLog(slot, wr) => LogMoves(w, slot, wr, k);
  }

  lemma OperatorMoves(w: World, s: Step, k: JobId)
    requires Inv(w) && w.mem.Some? && (s.SStop? || s.SReview? || s.SObserve?)
    ensures Moves(w, Apply(w, s), k, false)
  {
    hide Inv;
    if s.id !in w.mem.value.jobs {
      return;
    }
    var j := w.mem.value.jobs[s.id];
    if s.SStop? && Journal.Open(j.status) {
      PutMoves(w, s.id, j.(stop := true), s.wr, k);
    } else if s.SReview? {
      PutMoves(w, s.id, j.(verdict := RequiresReview), s.wr, k);
    } else if s.SObserve? && IndexOf(j.intents, s.iid) < |j.intents| {
      PutMoves(w, s.id, Observed(j, s.iid, s.o, s.now), s.wr, k);
    }
  }

  lemma AcknowledgeMoves(w: World, id: JobId, wr: Write, k: JobId)
    requires Inv(w)
    ensures Moves(w, Acknowledge(w, id, wr), k, id == k)
  {
    if w.mem.Some? && k in w.disk && AwaitsReview(w.disk[k]) { AwaitingFacts(w, k); }
  }

  lemma ManualMoves(w: World, s: Step, k: JobId)
    requires Inv(w) && (s.SReserve? || s.SManualBegin? || s.SManualFinish?)
    ensures Moves(w, Apply(w, s), k, false)
  {
    if s.SReserve? {
      hide Inv, Available;
      if w.mem.Some? && k in w.disk && AwaitsReview(w.disk[k]) { AwaitingFacts(w, k); }
    } else if s.SManualBegin? {
      ManualBeginMoves(w, s.id, s.now, s.wr, k);
    } else {
      hide Inv;
      ManualFinishMoves(w, s.failed, s.cancelled, s.wr, k);
    }
  }

  lemma ManualBeginMoves(w: World, id: JobId, now: int, wr: Write, k: JobId)
    requires Inv(w)
    ensures Moves(w, ManualBegin(w, id, now, wr), k, false)
  {
    assert w.disk.Keys <= w.used;
    if w.mem.Some? && w.mem.value.manual.Reserved? { assert NoneAwaits(w.disk); }
    hide Inv;
  }

  lemma ManualFinishMoves(w: World, failed: bool, cancelled: bool, wr: Write, k: JobId)
    requires Inv(w)
    ensures Moves(w, ManualFinish(w, failed, cancelled, wr), k, false)
  {
    hide AllResolved;
    if w.mem.Some? && w.mem.value.manual.Reserved? {
      var m := w.mem.value;
      assert NoneAwaits(w.disk);
      assert m.scribe.Some? && m.scribe.value.id in m.jobs ==> Prefixed(w.disk, m.jobs, m.scribe.value.id);
    }
    hide Inv;
  }

  ghost predicate Prefixed(disk: Table, jobs: Table, id: JobId) {
    id in disk && id in jobs && IdPrefix(disk[id].intents, jobs[id].intents)
  }

  lemma DeskStepMoves(w: World, s: Step, k: JobId)
    requires Inv(w) && DeskStep(s)
    ensures Moves(w, Apply(w, s), k, Acknowledges(s, k))
  {
    hide Inv;
    if s.SAcknowledge? {
      AcknowledgeMoves(w, s.id, s.wr, k);
    } else if s.SReserve? || s.SManualBegin? || s.SManualFinish? {
      ManualMoves(w, s, k);
    } else if w.mem.Some? {
      OperatorMoves(w, s, k);
    }
  }

  lemma BeginMoves(w: World, s: Slot, iid: string, action: Action, identity: Identity, now: int, v1: bool, wr: Write,
                   v2: bool, k: JobId)
    requires Inv(w) && Acting(w, s)
    ensures Moves(w, BeginIntent(w, ExecOf(w.mem.value, s).value.id, iid, action, identity, now, v1, wr, v2).0, k,
                  false)
  {
    hide Inv;
    var id := ExecOf(w.mem.value, s).value.id;
    var j := w.mem.value.jobs[id];
    PutMoves(w, id, j.(intents := j.intents + [NewIntent(w.mem.value, iid, action, identity, now)], verdict := Unknown),
             wr, k);
    PutMoves(w, id, j.(verdict := RequiresReview), wr, k);
  }

  lemma IdleKeepsInv(w: World, s: Slot)
    requires Inv(w) && Acting(w, s)
    ensures Inv(WithCmd(w, s, Idle))
  {
    CmdKeepsInv(w, s, Idle);
  }

  lemma CmdBeginMoves(w: World, s: Slot, identity: Identity, now: int, v1: bool, wr: Write, v2: bool, k: JobId)
    requires Inv(w)
    ensures Moves(w, CmdBegin(w, s, identity, now, v1, wr, v2), k, false)
  {
    hide Inv;
    if Acting(w, s) && ExecOf(w.mem.value, s).value.cmd.Checked? {
      IdleKeepsInv(w, s);
      BeginMoves(WithCmd(w, s, Idle), s, CommandId(ExecOf(w.mem.value, s).value.cmd.sequence), Command, identity, now,
                 v1, wr, v2, k);
    }
  }

  lemma StampPrefix(s: seq<Intent>, iid: string, refused: bool, instance: string, now: int)
    ensures IdPrefix(s, StampAll(s, iid, refused, instance, now))
  {
  }

  lemma CmdStampMoves(w: World, s: Slot, now: int, wr: Write, k: JobId)
    requires Inv(w)
    ensures Moves(w, CmdStamp(w, s, now, wr), k, false)
  {
    hide Inv, AllResolved, StampAll, Stamp;
    if Acting(w, s) && ExecOf(w.mem.value, s).value.cmd.Returned? && !w.mem.value.storageErr {
      IdleKeepsInv(w, s);
      var m, e := w.mem.value, ExecOf(w.mem.value, s).value;
      var j := m.jobs[e.id];
      var instance := if m.authority.Some? then m.authority.value.instance else "";
      StampPrefix(j.intents, e.cmd.iid, e.cmd.refused, instance, now);
      var intents := StampAll(j.intents, e.cmd.iid, e.cmd.refused, instance, now);
      PutMoves(WithCmd(w, s, Idle), e.id,
               j.(intents := intents, verdict := if AllResolved(intents) then Succeeded else Unknown), wr, k);
    }
  }

  lemma PhaseMoves(w: World, s: Step, k: JobId)
    requires Inv(w) && (s.SCmdCheck? || s.SCmdGuard? || s.SCmdValidate? || s.SCmdCall? || s.SCmdAbort?)
    ensures Moves(w, Apply(w, s), k, false)
  {
    hide Inv, AllReceipted;
    if Acting(w, s.slot) { ActingFacts(w, s.slot); }
  }

  /** While an execution acts, nothing awaits review. */
  lemma ActingFacts(w: World, slot: Slot)
    requires Inv(w) && Acting(w, slot)
    ensures NoneAwaits(w.disk)
  {
  }

  lemma CommandStepMoves(w: World, s: Step, k: JobId)
    requires Inv(w) && CommandStep(s)
    ensures Moves(w, Apply(w, s), k, false)
  {
    hide Inv;
    match s
    case SResource(slot, iid, action, identity, now, v1, wr, v2) =>
      if Acting(w, slot) { BeginMoves(w, slot, iid, action, identity, now, v1, wr, v2, k); }
    case SCmdBegin(slot, identity, now, v1, wr, v2) => CmdBeginMoves(w, slot, identity, now, v1, wr, v2, k);
    case SCmdStamp(slot, now, wr) => CmdStampMoves(w, slot, now, wr, k);
    case _ => PhaseMoves(w, s, k);
  }

  lemma RestStepMoves(w: World, s: Step, k: JobId)
    requires Inv(w) && !JobStep(s) && !DeskStep(s) && !CommandStep(s)
    ensures Moves(w, Apply(w, s), k, false)
  {
  }

  lemma TickMoves(w: World, t: nat, w1: World, k: JobId, acks: bool)
    ensures Moves(w.(tick := t), w1, k, acks) ==> Moves(w, w1, k, acks)
  {
    hide IdPrefix, AwaitsReview;
  }

  lemma StepMoves(w: World, s: Step, k: JobId)
    requires Inv(w)
    ensures Moves(w, Next(w, s), k, Acknowledges(s, k))
  {
    hide Inv, Apply, Moves;
    TickKeepsInv(w, w.tick + 1);
    var w1 := w.(tick := w.tick + 1);
    TickMoves(w, w.tick + 1, Apply(w1, s), k, Acknowledges(s, k));
    if JobStep(s) {
      JobStepMoves(w1, s, k);
    } else if DeskStep(s) {
      DeskStepMoves(w1, s, k);
    } else if CommandStep(s) {
      CommandStepMoves(w1, s, k);
    } else {
      RestStepMoves(w1, s, k);
    }
  }

  /**
   An interrupted job that waits for review blocks every new start over any continuation, restarts
   included: it is never evicted, no runner starts, no command goes out. Only an acknowledgement of
   this very job ends that; reconciliation and command review do not. A job whose acknowledgement failed
   to save waits again after the next start.
   */
  lemma {:induction false} GateUntilAcknowledged(w: World, steps: seq<Step>, id: JobId)
    requires Inv(w) && Waits(w, id) && forall i :: 0 <= i < |steps| ==> !Acknowledges(steps[i], id)
    ensures var w1 := Run(w, steps); Waits(w1, id) && w1.started == w.started && w1.dispatched == w.dispatched
  {
    if steps != [] {
      var front, last := steps[..|steps| - 1], steps[|steps| - 1];
      var w0 := Run(w, front);
      RunKeepsInv(w, front);
      StepMoves(w0, last, id);
      GateUntilAcknowledged(w, front, id);
    }
  }

  /** Every runner starts at most once, and a running job never overlaps a manual reservation. */
  lemma StartsOnceAndAlone(steps: seq<Step>)
    ensures var w := Run(FreshWorld, steps);
            && Distinct(w.started)
            && (w.mem.Some? && w.mem.value.run.Some? ==> w.mem.value.manual.Free? && w.mem.value.scribe.None?)
  {
    EveryRun(steps);
  }

  /** The durable intent list of a retained job only grows, and stays within 256 distinct ids. */
  lemma {:induction false} DurableIntentsOnlyGrow(w: World, steps: seq<Step>, id: JobId)
    requires Inv(w) && id in w.disk && id in Run(w, steps).disk
    ensures var t := Run(w, steps).disk[id].intents;
            IdPrefix(w.disk[id].intents, t) && DistinctIds(t) && |t| <= MAX_INTENTS
    ensures id in Run(w, steps).used
  {
    RunKeepsInv(w, steps);
    var t := Run(w, steps);
    assert GoodRecord(t.lowered, t.acked, id, t.disk[id]);
    if steps != [] {
      var front, last := steps[..|steps| - 1], steps[|steps| - 1];
      var w0 := Run(w, front);
      RunKeepsInv(w, front);
      UsedGrows(w, front);
      StepMoves(w0, last, id);
      DurableIntentsOnlyGrow(w, front, id);
    }
  }

  lemma {:induction false} UsedGrows(w: World, steps: seq<Step>)
    requires Inv(w)
    ensures w.used <= Run(w, steps).used
  {
    hide Inv, Next;
    if steps != [] {
      UsedGrows(w, steps[..|steps| - 1]);
      RunKeepsInv(w, steps[..|steps| - 1]);
      StepMoves(Run(w, steps[..|steps| - 1]), steps[|steps| - 1], 0);
    }
  }

  /** Every dispatched command was validated after the step that made its intent durable. */
  lemma DispatchedAfterValidation(steps: seq<Step>, d: Dispatch)
    requires d in Run(FreshWorld, steps).dispatched
    ensures d.savedAt < d.validatedAt <= Run(FreshWorld, steps).tick
  {
    EveryRun(steps);
  }
}
