/**
 The manager object: its critical sections change fields and the saved records in place, and each is
 proved to perform exactly one step of the journal machine.
 */
module JournalManager {
  import opened Basics
  import opened Reconcile
  import opened Journal

  /** A command that is not under way goes nowhere. */
  lemma IdleStays(w: World, identity: Identity, now: int, v1: bool, wr: Write, v2: bool, guard: bool, v3: bool,
                  result: CallResult, later: int, wr2: Write)
    requires w.mem.Some? && w.mem.value.run.Some?
    ensures w.mem.value.run.value.cmd.Idle? ==>
              && CmdBegin(w, JobSlot, identity, now, v1, wr, v2) == w && CmdGuard(w, JobSlot, guard) == w
              && CmdValidate(w, JobSlot, v3) == w && CmdCall(w, JobSlot, result) == w
              && CmdStamp(w, JobSlot, later, wr2) == w
  {
    hide BeginIntent, StampAll, AllResolved, CommandId;
  }

  /** How the save of record `id` ends, where anything but a landed one is listed. */
  function WriteOf(writes: map<JobId, Write>, id: JobId): Write { if id in writes then writes[id] else Landed }

  /** The records loaded once those in `done` are. */
  function Loaded(disk: map<JobId, Job>, done: set<JobId>): map<JobId, Job> {
    map id | id in disk && id in done :: Recover(disk[id])
  }

  lemma OneMoreReopened(disk: map<JobId, Job>, done: set<JobId>, id: JobId)
    requires id in disk
    ensures PartlyReopened(disk, done)[id := Recover(disk[id])] == PartlyReopened(disk, done + {id})
    ensures Loaded(disk, done)[id := Recover(disk[id])] == Loaded(disk, done + {id})
    ensures id !in done ==> PartlyReopened(disk, done)[id] == disk[id]
  {
  }

  lemma NoneReopened(disk: map<JobId, Job>)
    ensures PartlyReopened(disk, {}) == disk && Loaded(disk, {}) == map[]
    ensures PartlyReopened(disk, disk.Keys) == Loaded(disk, disk.Keys) == Reopened(disk)
  {
  }

  /** What reopening makes of each record. */
  lemma ReopenedMeans(disk: map<JobId, Job>)
    ensures Reopened(disk).Keys == disk.Keys
    ensures forall id :: id in disk ==>
              var j, was := Reopened(disk)[id], disk[id];
              if was.status == Queued || was.status == Running
              then j.status == Interrupted && j.reviewed == was.reviewed && j.intents == was.intents
                   && (was.versions == V1 ==> j.verdict == Unknown)
              else j == was.(verdict := if was.versions == V1 then was.verdict else RequiresReview)
  {
  }

  class Manager {
    var disk: map<JobId, Job>
    var up: bool
    var jobs: map<JobId, Job>
    var run: Option<Exec>
    var manual: Manual
    var scribe: Option<Exec>
    var storageErr: bool
    var closed: bool
    var authority: Option<Authority>
    var required: bool
    var tick: nat
    ghost var past: World

    ghost function Mem(): Memory
      reads this
    {
      Memory(jobs, run, manual, scribe, storageErr, closed, authority, required)
    }

    ghost function View(): World
      reads this
    {
      past.(disk := disk, tick := tick, mem := if up then Some(Mem()) else None)
    }

    constructor (records: map<JobId, Job>)
      ensures View() == FreshWorld.(disk := records)
    {
      disk, up := records, false;
      jobs, run, manual, scribe := map[], None, Free, None;
      storageErr, closed, authority, required := false, false, None, false;
      tick, past := 0, FreshWorld;
    }

    /** Write one record; on an error the file may hold the old or the new content. */
    method Save(id: JobId, j: Job, wr: Write) returns (failed: bool)
      modifies this`disk
      ensures disk == Basics.Save(old(disk), id, j, wr) && failed == !wr.Landed?
    {
      if Stored(wr) { disk := disk[id := j]; }
      failed := !wr.Landed?;
    }

    method PutJob(id: JobId, j: Job, wr: Write)
      requires up
      modifies this`disk, this`jobs, this`storageErr
      ensures View() == Journal.PutJob(old(View()), id, j, wr)
    {
      jobs := jobs[id := j];
      var failed := Save(id, j, wr);
      if failed { storageErr := true; }
    }

    /** An unfinished record becomes interrupted, one of another version is left for review. */
    method RecoverRecord(record: Job) returns (j: Job)
      ensures j == Recover(record)
    {
      j := record;
      if j.status.Queued? || j.status.Running? {
        j := j.(status := Interrupted, verdict := Unknown);
      }
      if j.versions.workflow != 1 || j.versions.plan != 1 || j.versions.stepSchema != 1 {
        j := j.(verdict := RequiresReview);
      }
    }

    /**
     Load every record file in turn and save each back as recovered. `writes` is how these saves end;
     the first failure ends the loop.
     */
    method RecoverRecords(writes: map<JobId, Write>)
      returns (ok: bool, loaded: map<JobId, Job>, ghost done: set<JobId>)
      modifies this`disk
      ensures ok == forall id :: id in old(disk) ==> WriteOf(writes, id).Landed?
      ensures ok ==> disk == Reopened(old(disk)) && loaded == disk
      ensures !ok ==> disk == PartlyReopened(old(disk), done)
    {
      ghost var before := disk;
      NoneReopened(before);
      var files := disk.Keys;
      loaded, done := map[], {};
      hide PartlyReopened, Loaded, Reopened, Recover;
      while files != {}
        invariant files <= before.Keys <= disk.Keys && done == before.Keys - files
        invariant disk == PartlyReopened(before, done) && loaded == Loaded(before, done)
        invariant forall id :: id in done ==> WriteOf(writes, id).Landed?
        decreases |files|
      {
        var id :| id in files;
        OneMoreReopened(before, done, id);
        var j := RecoverRecord(disk[id]);
        loaded := loaded[id := j];
        var failed := Save(id, j, WriteOf(writes, id));
        if failed {
          done := if Stored(WriteOf(writes, id)) then done + {id} else done;
          return false, loaded, done;
        }
        files, done := files - {id}, done + {id};
      }
      assert done == before.Keys;
      ok := true;
    }

    /** The manager exists only if every record was recovered and saved back. */
    method OpenCluster(writes: map<JobId, Write>) returns (ok: bool, ghost done: set<JobId>)
      requires !up
      modifies this
      ensures ok == forall id :: id in old(disk) ==> WriteOf(writes, id).Landed?
      ensures View() == if ok then OpenWorld(old(View())) else OpenFailed(old(View()), done)
      ensures ok ==> up && jobs == disk && disk.Keys == old(disk).Keys
      ensures ok ==> forall id :: id in jobs ==>
                       var was := old(disk)[id];
                       if was.status == Queued || was.status == Running
                       then jobs[id].status == Interrupted && jobs[id].reviewed == was.reviewed
                            && jobs[id].intents == was.intents && (was.versions == V1 ==> jobs[id].verdict == Unknown)
                       else jobs[id] == was.(verdict := if was.versions == V1 then was.verdict else RequiresReview)
    {
      ReopenedMeans(disk);
      hide PartlyReopened, Reopened, WriteOf;
      var loaded;
      ok, loaded, done := RecoverRecords(writes);
      if !ok { return; }
      jobs := loaded;
      run, manual, scribe, storageErr, closed, authority, required := None, Free, None, false, false, None, false;
      up := true;
    }

    method IsBusy() returns (r: bool)
      ensures r == Busy(Mem())
      ensures r <==> run.Some? || manual != Free
                     || exists id :: id in jobs && jobs[id].status == Interrupted && !jobs[id].reviewed
    {
      if run.Some? || !manual.Free? { return true; }
      var left := jobs.Keys;
      while left != {}
        invariant left <= jobs.Keys
        invariant forall id :: id in jobs && id !in left ==> !AwaitsReview(jobs[id])
        decreases |left|
      {
        var id :| id in left;
        if jobs[id].status.Interrupted? && !jobs[id].reviewed { return true; }
        left := left - {id};
      }
      r := false;
    }

    method IsAvailable() returns (r: bool)
      ensures r == Available(Mem())
      ensures r <==> && !closed && !storageErr && run.None? && manual == Free
                     && forall id :: id in jobs && jobs[id].status == Interrupted ==> jobs[id].reviewed
    {
      if closed || storageErr { return false; }
      var busy := IsBusy();
      r := !busy;
    }

    method FindDuplicate(kind: string, dedupe: string) returns (r: bool)
      ensures r == Duplicate(jobs, kind, dedupe)
    {
      if dedupe == "" { return false; }
      var left := jobs.Keys;
      while left != {}
        invariant left <= jobs.Keys
        invariant forall id :: id in jobs && id !in left ==> jobs[id].dedupe != dedupe || jobs[id].kind != kind
        decreases |left|
      {
        var id :| id in left;
        if jobs[id].dedupe == dedupe && jobs[id].kind == kind { return true; }
        left := left - {id};
      }
      r := false;
    }

    method FindOldest() returns (id: JobId)
      requires |jobs| > 0
      ensures Oldest(jobs, id)
    {
      assert jobs.Keys != {};
      id :| id in jobs;
      var left := jobs.Keys - {id};
      while left != {}
        invariant left <= jobs.Keys && id in jobs
        invariant forall k :: k in jobs && k !in left ==> jobs[id].createdAt <= jobs[k].createdAt
        decreases |left|
      {
        var k :| k in left;
        if jobs[k].createdAt < jobs[id].createdAt { id := k; }
        left := left - {k};
      }
    }

    /** Make room: the oldest record goes, from disk first. */
    method EvictOldest(removed: bool) returns (ok: bool, ghost victim: JobId)
      requires |jobs| > 0
      modifies this`disk, this`jobs
      ensures Oldest(old(jobs), victim) && ok == removed
      ensures victim in old(jobs) && forall k :: k in old(jobs) ==>
              old(jobs)[victim].createdAt <= old(jobs)[k].createdAt
      ensures disk == (if ok then old(disk) - {victim} else old(disk))
              && jobs == (if ok then old(jobs) - {victim} else old(jobs))
    {
      var oldest := FindOldest();
      ok, victim := removed, oldest;
      if removed {
        disk := disk - {oldest};
        jobs := jobs - {oldest};
      }
    }

    /** Save the first record of a job; only a save that landed makes it the active one. */
    method Accept(kind: string, dedupe: string, newId: JobId, now: int, wr: Write)
      requires up
      modifies this
      ensures var j := NewJob(kind, dedupe, Queued, now);
              var w, m := old(View()), old(Mem());
              View() == w.(disk := Basics.Save(old(disk), newId, j, wr), used := w.used + {newId},
                           mem := Some(if wr.Landed?
                                       then m.(jobs := m.jobs[newId := j], run := Some(Exec(newId, Accepted, Idle)))
                                       else m))
    {
      var j := NewJob(kind, dedupe, Queued, now);
      past := past.(used := past.used + {newId});
      var failed := Save(newId, j, wr);
      if failed { return; }
      jobs := jobs[newId := j];
      run := Some(Exec(newId, Accepted, Idle));
    }

    /** `newId` is a new unique id; `removed` and `wr` are how the eviction and the first save ended. */
    method Submit(kind: string, dedupe: string, newId: JobId, now: int, removed: bool, wr: Write)
      returns (ok: bool, created: bool, ghost victim: JobId)
      requires up && newId !in past.used
      modifies this
      ensures View() == Journal.Submit(old(View()), kind, dedupe, newId, now, victim, removed, wr)
      ensures created == Journal.Accepts(old(View()), kind, dedupe, newId, victim, removed, wr)
      ensures ok == (created || Duplicate(old(jobs), kind, dedupe))
      ensures up && tick == old(tick)
    {
      ok, created, victim := false, false, 0;
      var duplicate := FindDuplicate(kind, dedupe);
      if duplicate { return true, false, victim; }
      var available := IsAvailable();
      if !available { return; }
      hide Duplicate, Available;
      if |jobs| >= MAX_JOBS {
        var evicted;
        evicted, victim := EvictOldest(removed);
        if !evicted { return; }
      } else {
        assert disk == disk - {} && jobs == jobs - {};
      }
      Accept(kind, dedupe, newId, now, wr);
      ok, created := wr.Landed?, wr.Landed?;
    }

    method ReserveManual(ok: bool)
      requires up
      modifies this`manual
      ensures View() == Reserve(old(View()), ok)
      ensures var granted := && !closed && !storageErr && run.None? && old(manual) == Free
                             && (forall id :: id in jobs && jobs[id].status == Interrupted ==> jobs[id].reviewed)
                             && (if authority.None? then !required else ok);
              manual == if granted then Reserved else old(manual)
    {
      var available := IsAvailable();
      if available && Valid(Memory(jobs, run, manual, scribe, storageErr, closed, authority, required), ok) {
        manual := Reserved;
      }
    }

    method Unresolved(s: seq<Intent>) returns (r: bool)
      ensures r == !AllResolved(s)
    {
      for n := 0 to |s|
        invariant forall k :: 0 <= k < n ==> Resolved(s[k])
      {
        if s[n].outcome != Succeeded && !Receipt(s[n]) { return true; }
      }
      r := false;
    }

    /** The status a run ends with. */
    method DecideStatus(j: Job, ended: RunResult) returns (status: Status)
      ensures status == FinalStatus(j, Mem(), ended)
      ensures var settled := && !closed && !storageErr
                             && forall i :: i in j.intents ==>
                                  i.outcome == Succeeded
                                  || (i.action == Command && i.outcome == Failed && i.evidence.Some?
                                      && i.evidence.value.source == CommandRejected
                                      && i.evidence.value.state == Rejected);
              && (status == JobSucceeded <==> settled && ended == NoError)
              && (status == JobStopped <==> settled && ended == StopError)
              && (status == JobFailed <==> settled && ended == OtherError)
              && (status.JobSucceeded? || status.JobStopped? || status.JobFailed? || status.Interrupted?)
    {
      assert forall n :: 0 <= n < |j.intents| ==> j.intents[n] in j.intents;
      var result := ended;
      var uncertain := Unresolved(j.intents);
      if uncertain && result != Panicked { result := UncertainError; }
      if closed || storageErr || result == Panicked || result == DeadlineError || result == CancelError
         || result == UncertainError {
        status := Interrupted;
      } else if result == StopError {
        status := JobStopped;
      } else if result == OtherError {
        status := JobFailed;
      } else {
        status := JobSucceeded;
      }
    }

    /** The deferred end of a run: decide the status, save it, free the journal. */
    method FinishRun(wr: Write)
      requires up && run.Some? && run.value.phase.Ending? && run.value.id in jobs
      modifies this
      ensures View() == RunFinish(old(View()), wr)
      ensures var id, result := old(run).value.id, old(run).value.phase.result;
              var settled := && !old(closed) && !old(storageErr)
                             && forall i :: i in old(jobs)[id].intents ==>
                                  i.outcome == Succeeded
                                  || (i.action == Command && i.outcome == Failed && i.evidence.Some?
                                      && i.evidence.value.source == CommandRejected
                                      && i.evidence.value.state == Rejected);
              && id in jobs && jobs.Keys == old(jobs).Keys
              && (jobs[id].status == JobSucceeded <==> settled && result == NoError && wr.Landed?)
              && (jobs[id].status == JobStopped <==> settled && result == StopError && wr.Landed?)
              && (jobs[id].status == JobFailed <==> settled && result == OtherError && wr.Landed?)
              && (jobs[id].status in {JobSucceeded, JobStopped, JobFailed, Interrupted})
              && (jobs[id].status == Interrupted && (wr.Landed? || !settled) ==> jobs[id].verdict == Unknown)
              && (Stored(wr) ==> && id in disk
                                 && (disk[id].status == JobSucceeded <==> settled && result == NoError)
                                 && (disk[id].status == JobStopped <==> settled && result == StopError)
                                 && (disk[id].status == JobFailed <==> settled && result == OtherError))
    {
      hide FinalStatus;
      var status := DecideStatus(jobs[run.value.id], run.value.phase.result);
      CloseRun(status, wr);
    }

    /** Save the job with its last status and free the journal; a failed save leaves it interrupted in memory. */
    method CloseRun(status: Status, wr: Write)
      requires up && run.Some? && run.value.id in jobs
      modifies this`disk, this`jobs, this`run, this`storageErr
      ensures var id, j := old(run).value.id, old(jobs)[old(run).value.id];
              var j1 := j.(status := status, verdict := if status.Interrupted? then Unknown else j.verdict);
              && disk == Basics.Save(old(disk), id, j1, wr)
              && jobs == old(jobs)[id := if wr.Landed? then j1 else j1.(status := Interrupted)]
      ensures run == None && storageErr == (old(storageErr) || !wr.Landed?)
    {
      var id := run.value.id;
      var j := jobs[id];
      if status == Interrupted { j := j.(verdict := Unknown); }
      j := j.(status := status);
      var failed := Save(id, j, wr);
      if failed {
        storageErr := true;
        j := j.(status := Interrupted);
      }
      jobs := jobs[id := j];
      run := None;
    }

    method Acknowledge(id: JobId, wr: Write)
      requires up
      modifies this
      ensures View() == Journal.Acknowledge(old(View()), id, wr)
      ensures if id in old(jobs) && old(jobs)[id].status == Interrupted
              then jobs == old(jobs)[id := old(jobs)[id].(reviewed := true)] else View() == old(View())
    {
      if id !in jobs || jobs[id].status != Interrupted { return; }
      past := past.(acked := past.acked + {id});
      PutJob(id, jobs[id].(reviewed := true), wr);
    }

    method ReviewCommands(id: JobId, wr: Write)
      requires up
      modifies this
      ensures View() == Journal.ReviewCommands(old(View()), id, wr)
      ensures if && id in old(jobs) && old(jobs)[id].status != Running && old(jobs)[id].status != Queued
                 && forall i :: i in old(jobs)[id].intents ==> i.action == Command
              then jobs == old(jobs)[id := old(jobs)[id].(verdict := RequiresReview)] else View() == old(View())
    {
      if id in jobs { assert forall n :: 0 <= n < |jobs[id].intents| ==> jobs[id].intents[n] in jobs[id].intents; }
      if id !in jobs || jobs[id].status == Running || jobs[id].status == Queued { return; }
      var s := jobs[id].intents;
      for n := 0 to |s|
        invariant forall k :: 0 <= k < n ==> s[k].action.Command?
      {
        if s[n].action != Command { return; }
      }
      PutJob(id, jobs[id].(verdict := RequiresReview), wr);
    }

    method FindIntent(s: seq<Intent>, iid: string) returns (n: nat)
      ensures n == IndexOf(s, iid)
    {
      n := 0;
      while n < |s| && s[n].id != iid
        invariant 0 <= n <= |s|
        invariant forall k :: 0 <= k < n ==> s[k].id != iid
      {
        n := n + 1;
      }
    }

    /** The verdict over all intents of a job, given the outcome just reached for one of them. */
    method Conclude(s: seq<Intent>, outcome: Outcome) returns (verdict: Outcome)
      ensures verdict == if Undecided(s) then RequiresReview else outcome
    {
      for k := 0 to |s|
        invariant forall i :: 0 <= i < k ==> !s[i].outcome.Unknown? && !s[i].outcome.RequiresReview?
      {
        if s[k].outcome == Unknown || s[k].outcome == RequiresReview { return RequiresReview; }
      }
      verdict := outcome;
    }

    /** The job with observation `o` attached to its intent number `n`. */
    method Attach(j: Job, n: nat, o: Observation, now: int) returns (r: Job)
      requires n < |j.intents| && n == IndexOf(j.intents, j.intents[n].id)
      ensures r == Observed(j, j.intents[n].id, o, now)
    {
      var outcome := Evaluate(j.intents[n], o, now);
      if j.versions.workflow != 1 || j.versions.plan != 1 || j.versions.stepSchema != 1 { outcome := RequiresReview; }
      var s := j.intents[n := j.intents[n].(outcome := outcome, evidence := Some(o))];
      var verdict := Conclude(s, outcome);
      r := j.(intents := s, verdict := verdict);
    }

    /** Evidence and a conclusion are stored; nothing is run and no gate is cleared. */
    method ObserveIntent(id: JobId, iid: string, o: Observation, now: int, wr: Write)
      requires up
      modifies this
      ensures View() == Observe(old(View()), id, iid, o, now, wr)
    {
      hide Observed, IndexOf;
      if !ObservationAllowed(o) || storageErr || id !in jobs { return; }
      var j := jobs[id];
      var n := FindIntent(j.intents, iid);
      if n == |j.intents| { return; }
      var observed := Attach(j, n, o, now);
      past := past.(lowered := if Open(j.status) then past.lowered else past.lowered + {id},
                    touched := if j.intents[n].action.Command? then past.touched + {id} else past.touched);
      PutJob(id, observed, wr);
    }

    // ------------------------------------------------------------ commands of the running job

    predicate CanAct()
      reads this
    {
      up && run.Some? && run.value.phase.InRunner? && run.value.id in jobs
    }

    method SetCmd(c: Cmd)
      requires CanAct()
      modifies this`run
      ensures View() == WithCmd(old(View()), JobSlot, c)
    {
      run := Some(run.value.(cmd := c));
    }

    /** Append and save an intent before its effect; an id already present never authorises a replay. */
    method BeginIntent(id: JobId, iid: string, action: Action, identity: Identity, now: int, v1: bool, wr: Write,
                       v2: bool)
      returns (proceed: bool)
      requires up && id in jobs
      modifies this`disk, this`jobs, this`storageErr
      ensures (View(), proceed) == Journal.BeginIntent(old(View()), id, iid, action, identity, now, v1, wr, v2)
    {
      proceed := false;
      var j := jobs[id];
      if j.stop || storageErr || !identity.Valid() || |iid| == 0 || |iid| > 128 || |j.intents| >= MAX_INTENTS {
        return;
      }
      for n := 0 to |j.intents|
        invariant forall k :: 0 <= k < n ==> j.intents[k].id != iid
      {
        if j.intents[n].id == iid { return; }
      }
      var m := Memory(jobs, run, manual, scribe, storageErr, closed, authority, required);
      if j.versions.workflow != 1 || j.versions.plan != 1 || j.versions.stepSchema != 1 {
        PutJob(id, j.(verdict := RequiresReview), wr);
        return;
      }
      if !Valid(m, v1) { return; }
      PutJob(id, j.(intents := j.intents + [NewIntent(m, iid, action, identity, now)], verdict := Unknown), wr);
      proceed := wr.Landed? && Valid(m, v2);
    }

    /** Refuse to go on while an earlier command has no receipt; otherwise reserve the next number. */
    method CheckCommands() returns (proceed: bool)
      requires CanAct() && run.value.cmd.Idle?
      modifies this`run
      ensures View() == CmdCheck(old(View()), JobSlot)
      ensures proceed == (run.value.cmd.Checked? && CanAct()) && run.Some?
      ensures !proceed ==> run.value.cmd.Idle?
    {
      var s := jobs[run.value.id].intents;
      for n := 0 to |s|
        invariant forall k :: 0 <= k < n && s[k].action.Command? ==> Receipt(s[k])
      {
        if s[n].action == Command && !Receipt(s[n]) { return false; }
      }
      SetCmd(Checked(|s|));
      proceed := true;
    }

    /** The receipt of a returned command. */
    method StampReceipt(now: int, wr: Write)
      requires CanAct() && run.value.cmd.Returned?
      modifies this
      ensures View() == CmdStamp(old(View()), JobSlot, now, wr)
    {
      var id, iid, refused := run.value.id, run.value.cmd.iid, run.value.cmd.refused;
      SetCmd(Idle);
      if storageErr { return; }
      var j := jobs[id];
      var instance := if authority.Some? then authority.value.instance else "";
      var s := j.intents;
      for n := 0 to |s|
        invariant |s| == |j.intents|
        invariant forall k :: 0 <= k < n ==> s[k] == Stamp(j.intents[k], iid, refused, instance, now)
        invariant forall k :: n <= k < |s| ==> s[k] == j.intents[k]
      {
        if s[n].id == iid {
          s := s[n := s[n].(outcome := if refused then Failed else Succeeded,
                            evidence := Some(Observation(if refused then CommandRejected else CommandAcknowledged,
                                                         if refused then Rejected else Acknowledged,
                                                         s[n].identity, Some(now))),
                            instance := instance)];
        }
      }
      assert s == StampAll(j.intents, iid, refused, instance, now);
      var open := Unresolved(s);
      PutJob(id, j.(intents := s, verdict := if open then Unknown else Succeeded), wr);
    }

    /** Check, durable intent: the write-ahead half of a command. */
    method BeginCommand(identity: Identity, now: int, v1: bool, wr: Write, v2: bool) returns (proceed: bool)
      requires CanAct() && run.value.cmd.Checked?
      modifies this
      ensures View() == CmdBegin(old(View()), JobSlot, identity, now, v1, wr, v2)
      ensures CanAct() && proceed == run.value.cmd.Begun? && (!proceed ==> run.value.cmd.Idle?)
    {
      var id, iid := run.value.id, CommandId(run.value.cmd.sequence);
      SetCmd(Idle);
      proceed := BeginIntent(id, iid, Command, identity, now, v1, wr, v2);
      if proceed { SetCmd(Begun(iid, tick)); }
    }

    /** The guard carried by the context, then the last validation before the call. */
    method ClearCommand(guard: bool, v3: bool) returns (proceed: bool)
      requires CanAct() && run.value.cmd.Begun?
      modifies this`run
      ensures View() == CmdValidate(CmdGuard(old(View()), JobSlot, guard), JobSlot, v3)
      ensures CanAct() && proceed == run.value.cmd.Cleared? && (!proceed ==> run.value.cmd.Idle?)
    {
      var c := run.value.cmd;
      if !guard {
        SetCmd(Idle);
        return false;
      }
      SetCmd(Guarded(c.iid, c.savedAt));
      proceed := Valid(Memory(jobs, run, manual, scribe, storageErr, closed, authority, required), v3);
      SetCmd(if proceed then Cleared(c.iid, c.savedAt, tick) else Idle);
    }

    /** The call itself; an unproved outcome leaves the intent without a receipt. */
    method CallCommand(result: CallResult)
      requires CanAct() && run.value.cmd.Cleared?
      modifies this`run, this`past
      ensures View() == CmdCall(old(View()), JobSlot, result)
      ensures CanAct() && (if result.Unproved? then run.value.cmd.Idle? else run.value.cmd.Returned?)
    {
      var e := run.value;
      past := past.(dispatched :=
                    past.dispatched + [Dispatch(e.id, e.cmd.iid, authority, e.cmd.savedAt, e.cmd.validatedAt)]);
      SetCmd(if result == Unproved then Idle else Returned(e.cmd.iid, result == Refused));
    }

    /**
     The whole path of one command: check, durable intent, guard, last validation, call, receipt. The
     external answers are parameters. It performs the machine's command steps in this order, so nothing
     is dispatched unless every earlier step let it through.
     */
    method RecordMutation(identity: Identity, now: int, v1: bool, wr: Write, v2: bool, guard: bool, v3: bool,
                          result: CallResult, later: int, wr2: Write)
      requires CanAct() && run.value.cmd.Idle?
      modifies this
      ensures var begun := CmdBegin(CmdCheck(old(View()), JobSlot), JobSlot, identity, now, v1, wr, v2);
              var called := CmdCall(CmdValidate(CmdGuard(begun, JobSlot, guard), JobSlot, v3), JobSlot, result);
              View() == CmdStamp(called, JobSlot, later, wr2)
    {
      hide CmdCheck, CmdBegin, CmdGuard, CmdValidate, CmdCall, CmdStamp;
      var ok := CheckCommands();
      if !ok {
        IdleStays(View(), identity, now, v1, wr, v2, guard, v3, result, later, wr2);
        return;
      }
      ok := BeginCommand(identity, now, v1, wr, v2);
      IdleStays(View(), identity, now, v1, wr, v2, guard, v3, result, later, wr2);
      if !ok { return; }
      ok := ClearCommand(guard, v3);
      IdleStays(View(), identity, now, v1, wr, v2, guard, v3, result, later, wr2);
      if !ok { return; }
      CallCommand(result);
      IdleStays(View(), identity, now, v1, wr, v2, guard, v3, result, later, wr2);
      if run.value.cmd.Returned? { StampReceipt(later, wr2); }
    }
  }
}
