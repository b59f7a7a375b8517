/**
 The durable job journal: one operation at a time, intents written ahead of each effect, receipts
 recorded after it. The state keeps memory and disk apart; every step carries the outcome of the
 write or validation it performs, and the process may die between any two steps.
 */
module Journal {
  import opened Basics
  import opened Reconcile

  type JobId = nat

  const MAX_JOBS := 100
  const MAX_INTENTS := 256

  datatype Status = Queued | Running | JobSucceeded | JobFailed | JobStopped | Interrupted

  /** Recorded as ended, and not as interrupted. */
  predicate Ended(s: Status) { s.JobSucceeded? || s.JobFailed? || s.JobStopped? }

  predicate Open(s: Status) { s.Queued? || s.Running? }

  datatype Job = Job(
    kind: string, dedupe: string, status: Status, createdAt: int, versions: Versions,
    stop: bool, reviewed: bool, verdict: Outcome, intents: seq<Intent>)

  predicate AwaitsReview(j: Job) { j.status.Interrupted? && !j.reviewed }

  /** How the runner ended. */
  datatype RunResult = NoError | StopError | UncertainError | DeadlineError | CancelError | OtherError | Panicked

  datatype Phase = Accepted | Persisted | InRunner | Ending(result: RunResult)

  datatype CallResult = Acked | Refused | Unproved

  /** Progress of the one command an execution may have under way. */
  datatype Cmd =
    | Idle
    | Checked(sequence: nat)
    | Begun(iid: string, savedAt: nat)
    | Guarded(iid: string, savedAt: nat)
    | Cleared(iid: string, savedAt: nat, validatedAt: nat)
    | Returned(iid: string, refused: bool)

  datatype Exec = Exec(id: JobId, phase: Phase, cmd: Cmd)

  /** A synchronous request holds its reservation until it has finished its journal record. */
  datatype Manual = Free | Reserved | Closing

  datatype Slot = JobSlot | ManualSlot

  datatype Authority = Authority(instance: string, epoch: nat)

  datatype Memory = Memory(
    jobs: map<JobId, Job>, run: Option<Exec>, manual: Manual, scribe: Option<Exec>,
    storageErr: bool, closed: bool, authority: Option<Authority>, required: bool)

  /** A command handed to its transport, with the logical times of its durable intent and last validation. */
  datatype Dispatch = Dispatch(job: JobId, iid: string, authority: Option<Authority>, savedAt: nat, validatedAt: nat)

  /** Everything after `mem` is history: it only records what happened. */
  datatype World = World(
    disk: map<JobId, Job>, mem: Option<Memory>,
    tick: nat, used: set<JobId>, started: seq<JobId>, dispatched: seq<Dispatch>,
    acked: set<JobId>, lowered: set<JobId>, touched: set<JobId>)

  const FreshWorld := World(map[], None, 0, {}, [], [], {}, {}, {})

  // ---------------------------------------------------------------- intents

  ghost predicate DistinctIds(s: seq<Intent>) {
    forall i, j :: 0 <= i < j < |s| ==> s[i].id != s[j].id
  }

  ghost predicate HasId(s: seq<Intent>, iid: string) {
    exists k :: 0 <= k < |s| && s[k].id == iid
  }

  /** `b` still lists every intent of `a`, in place. */
  ghost predicate IdPrefix(a: seq<Intent>, b: seq<Intent>) {
    |a| <= |b| && forall k :: 0 <= k < |a| ==> a[k].id == b[k].id
  }

  ghost predicate AllResolved(s: seq<Intent>) {
    forall k :: 0 <= k < |s| ==> Resolved(s[k])
  }

  ghost predicate AllReceipted(s: seq<Intent>) {
    forall k :: 0 <= k < |s| && s[k].action.Command? ==> Receipt(s[k])
  }

  /** At most one command lacks its receipt, and no later command follows it. */
  ghost predicate OpenCommandIsLast(s: seq<Intent>) {
    forall i, j :: 0 <= i < j < |s| && s[i].action.Command? && s[j].action.Command? ==> Receipt(s[i])
  }

  function Digits(n: nat): (s: string)
    ensures |s| > 0
  {
    if n < 10 then ["0123456789"[n]] else Digits(n / 10) + ["0123456789"[n % 10]]
  }

  function CommandId(n: nat): string { "command:" + Digits(n) }

  /** The receipt written for a command that returned. */
  function Stamp(i: Intent, iid: string, refused: bool, instance: string, now: int): Intent {
    if i.id != iid then i
    else i.(outcome := if refused then Failed else Succeeded,
            evidence := Some(Observation(if refused then CommandRejected else CommandAcknowledged,
                                         if refused then Rejected else Acknowledged, i.identity, Some(now))),
            instance := instance)
  }

  function StampAll(s: seq<Intent>, iid: string, refused: bool, instance: string, now: int): (r: seq<Intent>)
    ensures |r| == |s|
    ensures forall k :: 0 <= k < |s| ==> r[k] == Stamp(s[k], iid, refused, instance, now)
  {
    if s == [] then []
    else StampAll(s[..|s| - 1], iid, refused, instance, now) + [Stamp(s[|s| - 1], iid, refused, instance, now)]
  }

  /** Position of the intent an observation is about, or the length when there is none. */
  function IndexOf(s: seq<Intent>, iid: string): (k: nat)
    ensures k <= |s|
    ensures k < |s| ==> s[k].id == iid
    ensures forall i :: 0 <= i < k ==> s[i].id != iid
  {
    if s == [] then 0 else if s[0].id == iid then 0 else 1 + IndexOf(s[1..], iid)
  }

  // ---------------------------------------------------------------- admission

  ghost predicate Busy(m: Memory) {
    || m.run.Some? || !m.manual.Free?
    || exists id :: id in m.jobs && AwaitsReview(m.jobs[id])
  }

  ghost predicate Available(m: Memory) { !m.closed && !m.storageErr && !Busy(m) }

  /** The verdict of an authority check whose remote half answered `ok`. */
  predicate Valid(m: Memory, ok: bool) {
    if m.authority.None? then !m.required else ok
  }

  ghost predicate Oldest(jobs: map<JobId, Job>, id: JobId) {
    id in jobs && forall k :: k in jobs ==> jobs[id].createdAt <= jobs[k].createdAt
  }

  ghost predicate Duplicate(jobs: map<JobId, Job>, kind: string, dedupe: string) {
    dedupe != "" && exists k :: k in jobs && jobs[k].dedupe == dedupe && jobs[k].kind == kind
  }

  function NewJob(kind: string, dedupe: string, status: Status, now: int): Job {
    Job(kind, dedupe, status, now, V1, false, false, Unknown, [])
  }

  // ---------------------------------------------------------------- plumbing

  function ExecOf(m: Memory, s: Slot): Option<Exec> { if s.JobSlot? then m.run else m.scribe }

  function WithExec(m: Memory, s: Slot, e: Option<Exec>): Memory {
    if s.JobSlot? then m.(run := e) else m.(scribe := e)
  }

  function WithCmd(w: World, s: Slot, c: Cmd): World
    requires w.mem.Some? && ExecOf(w.mem.value, s).Some?
  {
    w.(mem := Some(WithExec(w.mem.value, s, Some(ExecOf(w.mem.value, s).value.(cmd := c)))))
  }

  /** Change a job in memory and save it; a failed save closes the journal. */
  function PutJob(w: World, id: JobId, j: Job, wr: Write): World
    requires w.mem.Some?
  {
    var m := w.mem.value;
    w.(disk := Save(w.disk, id, j, wr),
       mem := Some(m.(jobs := m.jobs[id := j], storageErr := m.storageErr || !wr.Landed?)))
  }

  /** An execution that can act: its runner is inside its body. */
  ghost predicate Acting(w: World, s: Slot) {
    && w.mem.Some?
    && ExecOf(w.mem.value, s).Some?
    && ExecOf(w.mem.value, s).value.phase.InRunner?
    && ExecOf(w.mem.value, s).value.id in w.mem.value.jobs
  }

  // ---------------------------------------------------------------- restart

  /** What reopening does to one record. */
  function Recover(j: Job): Job {
    var j1 := if Open(j.status) then j.(status := Interrupted, verdict := Unknown) else j;
    if j1.versions.Current() then j1 else j1.(verdict := RequiresReview)
  }

  function Reopened(disk: map<JobId, Job>): map<JobId, Job> {
    map id | id in disk :: Recover(disk[id])
  }

  function OpenWorld(w: World): World {
    var jobs := Reopened(w.disk);
    w.(disk := jobs, mem := Some(Memory(jobs, None, Free, None, false, false, None, false)))
  }

  function PartlyReopened(disk: map<JobId, Job>, done: set<JobId>): map<JobId, Job> {
    map id | id in disk :: if id in done then Recover(disk[id]) else disk[id]
  }

  /** An open that failed or died after rewriting the records in `done`. */
  function OpenFailed(w: World, done: set<JobId>): World {
    w.(disk := PartlyReopened(w.disk, done), mem := None)
  }

  // ---------------------------------------------------------------- submission and run

  /** A submission that creates and starts a job. */
  ghost predicate Accepts(w: World, kind: string, dedupe: string, id: JobId, victim: JobId, removed: bool, wr: Write) {
    && w.mem.Some? && !Duplicate(w.mem.value.jobs, kind, dedupe) && Available(w.mem.value) && id !in w.used
    && (|w.mem.value.jobs| >= MAX_JOBS ==> Oldest(w.mem.value.jobs, victim) && removed)
    && wr.Landed?
  }

  ghost function Submit(w: World, kind: string, dedupe: string, id: JobId, now: int,
                        victim: JobId, removed: bool, wr: Write): World
    requires w.mem.Some?
  {
    var m := w.mem.value;
    if Duplicate(m.jobs, kind, dedupe) || !Available(m) || id in w.used then w
    else if |m.jobs| >= MAX_JOBS && (!Oldest(m.jobs, victim) || !removed) then w
    else
      var gone := if |m.jobs| >= MAX_JOBS then {victim} else {};
      var disk, jobs := w.disk - gone, m.jobs - gone;
      var j := NewJob(kind, dedupe, Queued, now);
      w.(disk := Save(disk, id, j, wr),
         used := w.used + {id},
         mem := Some(if wr.Landed? then m.(jobs := jobs[id := j], run := Some(Exec(id, Accepted, Idle)))
                     else m.(jobs := jobs)))
  }

  function RunPersist(w: World, wr: Write): World {
    if w.mem.None? || w.mem.value.run.None? then w
    else
      var m, e := w.mem.value, w.mem.value.run.value;
      if !e.phase.Accepted? || e.id !in m.jobs then w
      else
        var w1 := PutJob(w, e.id, m.jobs[e.id].(status := Running), wr);
        w1.(mem := Some(w1.mem.value.(run := Some(e.(phase := if wr.Landed? then Persisted else Ending(OtherError))))))
  }

  function RunAdmit(w: World, ok: bool): World {
    if w.mem.None? || w.mem.value.run.None? then w
    else
      var m, e := w.mem.value, w.mem.value.run.value;
      if !e.phase.Persisted? then w
      else if Valid(m, ok) then
        w.(mem := Some(m.(run := Some(e.(phase := InRunner)))), started := w.started + [e.id])
      else w.(mem := Some(m.(run := Some(e.(phase := Ending(UncertainError))))))
  }

  function RunnerReturn(w: World, result: RunResult): World {
    if w.mem.None? || w.mem.value.run.None? then w
    else
      var m, e := w.mem.value, w.mem.value.run.value;
      if !e.phase.InRunner? || !e.cmd.Idle? then w
      else w.(mem := Some(m.(run := Some(e.(phase := Ending(result))))))
  }

  ghost function FinalStatus(j: Job, m: Memory, result: RunResult): Status {
    var r := if AllResolved(j.intents) || result.Panicked? then result else UncertainError;
    if m.closed || m.storageErr || r.Panicked? || r.DeadlineError? || r.CancelError? || r.UncertainError?
    then Interrupted
    else if r.StopError? then JobStopped
    else if r.OtherError? then JobFailed
    else JobSucceeded
  }

  ghost function RunFinish(w: World, wr: Write): World {
    if w.mem.None? || w.mem.value.run.None? then w
    else
      var m, e := w.mem.value, w.mem.value.run.value;
      if !e.phase.Ending? || e.id !in m.jobs then w
      else
        var j := m.jobs[e.id];
        var s := FinalStatus(j, m, e.phase.result);
        var j1 := j.(status := s, verdict := if s.Interrupted? then Unknown else j.verdict);
        var kept := if wr.Landed? then j1 else j1.(status := Interrupted);
        w.(disk := Save(w.disk, e.id, j1, wr),
           mem := Some(m.(jobs := m.jobs[e.id := kept], run := None, storageErr := m.storageErr || !wr.Landed?)))
  }

  // ---------------------------------------------------------------- operator actions

  function Stop(w: World, id: JobId, wr: Write): World {
    if w.mem.None? || id !in w.mem.value.jobs || !Open(w.mem.value.jobs[id].status) then w
    else PutJob(w, id, w.mem.value.jobs[id].(stop := true), wr)
  }

  function Acknowledge(w: World, id: JobId, wr: Write): World {
    if w.mem.None? || id !in w.mem.value.jobs || !w.mem.value.jobs[id].status.Interrupted? then w
    else PutJob(w, id, w.mem.value.jobs[id].(reviewed := true), wr).(acked := w.acked + {id})
  }

  ghost function ReviewCommands(w: World, id: JobId, wr: Write): World {
    if w.mem.None? || id !in w.mem.value.jobs || Open(w.mem.value.jobs[id].status) then w
    else
      var j := w.mem.value.jobs[id];
      if exists k :: 0 <= k < |j.intents| && !j.intents[k].action.Command? then w
      else PutJob(w, id, j.(verdict := RequiresReview), wr)
  }

  ghost predicate Undecided(s: seq<Intent>) {
    exists n :: 0 <= n < |s| && (s[n].outcome.Unknown? || s[n].outcome.RequiresReview?)
  }

  /** Attach an observation to an intent; the verdict is drawn from all intents of the job. */
  ghost function Observed(j: Job, iid: string, o: Observation, now: int): Job
    requires IndexOf(j.intents, iid) < |j.intents|
  {
    var k := IndexOf(j.intents, iid);
    var outcome := if j.versions.Current() then Evaluate(j.intents[k], o, now) else RequiresReview;
    var intents := j.intents[k := j.intents[k].(outcome := outcome, evidence := Some(o))];
    j.(intents := intents, verdict := if Undecided(intents) then RequiresReview else outcome)
  }

  predicate ObservationAllowed(o: Observation) {
    && (o.source.Unspecified? || o.source.OwnershipVerified? || o.source.DeleteTaskCompleted?)
    && o.identity.Valid() && (o.state.Exists? || o.state.Absent? || o.state.Unseen?)
  }

  ghost function Observe(w: World, id: JobId, iid: string, o: Observation, now: int, wr: Write): World {
    if w.mem.None? || !ObservationAllowed(o) || w.mem.value.storageErr || id !in w.mem.value.jobs then w
    else
      var j := w.mem.value.jobs[id];
      var k := IndexOf(j.intents, iid);
      if k == |j.intents| then w
      else
        var w1 := PutJob(w, id, Observed(j, iid, o, now), wr);
        w1.(lowered := if Open(j.status) then w.lowered else w.lowered + {id},
            touched := if j.intents[k].action.Command? then w.touched + {id} else w.touched)
  }

  function SetAuthority(w: World, a: Authority): World {
    if w.mem.None? then w
    else
      var m := w.mem.value;
      if a.instance == "" || a.epoch == 0 || m.run.Some? || !m.manual.Free? || m.authority.Some? then w
      else w.(mem := Some(m.(authority := Some(a))))
  }

  function RequireAuthority(w: World): World {
    if w.mem.None? then w else w.(mem := Some(w.mem.value.(required := true)))
  }

  function CloseManager(w: World): World {
    if w.mem.None? then w else w.(mem := Some(w.mem.value.(closed := true)))
  }

  // ---------------------------------------------------------------- manual reservation

  ghost function Reserve(w: World, ok: bool): World {
    if w.mem.None? || !Available(w.mem.value) || !Valid(w.mem.value, ok) then w
    else w.(mem := Some(w.mem.value.(manual := Reserved)))
  }

  function ManualBegin(w: World, id: JobId, now: int, wr: Write): World {
    if w.mem.None? then w
    else
      var m := w.mem.value;
      if m.scribe.Some? || !m.manual.Reserved? || m.storageErr || |m.jobs| >= MAX_JOBS || id in w.used then w
      else
        var j := NewJob("manual-command", "", Running, now);
        w.(disk := Save(w.disk, id, j, wr),
           used := w.used + {id},
           mem := Some(if wr.Landed? then m.(jobs := m.jobs[id := j], scribe := Some(Exec(id, InRunner, Idle)))
                       else m.(storageErr := true)))
  }

  ghost function ManualFinish(w: World, failed: bool, cancelled: bool, wr: Write): World {
    if w.mem.None? || !w.mem.value.manual.Reserved? then w
    else
      var m := w.mem.value;
      if m.scribe.None? then w.(mem := Some(m.(manual := Closing)))
      else
        var e := m.scribe.value;
        if !e.cmd.Idle? || e.id !in m.jobs then w
        else
          var j := m.jobs[e.id];
          var bad := failed || cancelled || !AllResolved(j.intents);
          var closed := if bad then j.(status := Interrupted, verdict := Unknown) else j.(status := JobSucceeded);
          var w1 := PutJob(w, e.id, closed, wr);
          w1.(mem := Some(w1.mem.value.(manual := Closing, scribe := None)))
  }

  function Release(w: World): World {
    if w.mem.None? || w.mem.value.scribe.Some? then w
    else w.(mem := Some(w.mem.value.(manual := Free)))
  }

  // ---------------------------------------------------------------- work inside a run

  ghost function LogStep(w: World, s: Slot, wr: Write): World {
    if !Acting(w, s) || w.mem.value.storageErr then w
    else PutJob(w, ExecOf(w.mem.value, s).value.id, w.mem.value.jobs[ExecOf(w.mem.value, s).value.id], wr)
  }

  /** The checks of a durable intent, in source order, ending with the first authority check. */
  ghost predicate IntentAdmitted(m: Memory, j: Job, iid: string, identity: Identity, v1: bool) {
    && !j.stop && !m.storageErr && identity.Valid() && 0 < |iid| <= 128
    && |j.intents| < MAX_INTENTS && !HasId(j.intents, iid)
    && j.versions.Current() && Valid(m, v1)
  }

  function NewIntent(m: Memory, iid: string, action: Action, identity: Identity, now: int): Intent {
    Intent(iid, action, if m.authority.Some? then m.authority.value.instance else "", V1, identity, now,
           if m.authority.Some? then m.authority.value.epoch else 0, Unknown, None)
  }

  /** Append and save an intent. The second component says whether the caller may go on to its effect. */
  ghost function BeginIntent(w: World, id: JobId, iid: string, action: Action, identity: Identity, now: int,
                             v1: bool, wr: Write, v2: bool): (World, bool)
    requires w.mem.Some? && id in w.mem.value.jobs
  {
    var m, j := w.mem.value, w.mem.value.jobs[id];
    if IntentAdmitted(m, j, iid, identity, v1) then
      (PutJob(w, id, j.(intents := j.intents + [NewIntent(m, iid, action, identity, now)], verdict := Unknown), wr),
       wr.Landed? && Valid(m, v2))
    else if !j.stop && !m.storageErr && identity.Valid() && 0 < |iid| <= 128
            && |j.intents| < MAX_INTENTS && !HasId(j.intents, iid) && !j.versions.Current() then
      (PutJob(w, id, j.(verdict := RequiresReview), wr), false)
    else (w, false)
  }

  /** A create or delete intent begun directly by the runner. */
  ghost function ResourceIntent(w: World, s: Slot, iid: string, action: Action, identity: Identity, now: int,
                                v1: bool, wr: Write, v2: bool): World {
    if !Acting(w, s) || action.Command? then w
    else BeginIntent(w, ExecOf(w.mem.value, s).value.id, iid, action, identity, now, v1, wr, v2).0
  }

  ghost function CmdCheck(w: World, s: Slot): World {
    if !Acting(w, s) || !ExecOf(w.mem.value, s).value.cmd.Idle? then w
    else
      var j := w.mem.value.jobs[ExecOf(w.mem.value, s).value.id];
      if !AllReceipted(j.intents) then w else WithCmd(w, s, Checked(|j.intents|))
  }

  ghost function CmdBegin(w: World, s: Slot, identity: Identity, now: int, v1: bool, wr: Write, v2: bool): World {
    if !Acting(w, s) || !ExecOf(w.mem.value, s).value.cmd.Checked? then w
    else
      var e := ExecOf(w.mem.value, s).value;
      var iid := CommandId(e.cmd.sequence);
      var r := BeginIntent(WithCmd(w, s, Idle), e.id, iid, Command, identity, now, v1, wr, v2);
      if r.1 then WithCmd(r.0, s, Begun(iid, w.tick)) else r.0
  }

  ghost function CmdGuard(w: World, s: Slot, ok: bool): World {
    if !Acting(w, s) || !ExecOf(w.mem.value, s).value.cmd.Begun? then w
    else
      var c := ExecOf(w.mem.value, s).value.cmd;
      WithCmd(w, s, if ok then Guarded(c.iid, c.savedAt) else Idle)
  }

  ghost function CmdValidate(w: World, s: Slot, ok: bool): World {
    if !Acting(w, s) || !ExecOf(w.mem.value, s).value.cmd.Guarded? then w
    else
      var c := ExecOf(w.mem.value, s).value.cmd;
      WithCmd(w, s, if Valid(w.mem.value, ok) then Cleared(c.iid, c.savedAt, w.tick) else Idle)
  }

  /** The external effect. */
  ghost function CmdCall(w: World, s: Slot, result: CallResult): World {
    if !Acting(w, s) || !ExecOf(w.mem.value, s).value.cmd.Cleared? then w
    else
      var e := ExecOf(w.mem.value, s).value;
      WithCmd(w, s, if result.Unproved? then Idle else Returned(e.cmd.iid, result.Refused?))
      .(dispatched :=
        w.dispatched + [Dispatch(e.id, e.cmd.iid, w.mem.value.authority, e.cmd.savedAt, e.cmd.validatedAt)])
  }

  ghost function CmdStamp(w: World, s: Slot, now: int, wr: Write): World {
    if !Acting(w, s) || !ExecOf(w.mem.value, s).value.cmd.Returned? then w
    else
      var m, e := w.mem.value, ExecOf(w.mem.value, s).value;
      var idle := WithCmd(w, s, Idle);
      if m.storageErr then idle
      else
        var j := m.jobs[e.id];
        var instance := if m.authority.Some? then m.authority.value.instance else "";
        var intents := StampAll(j.intents, e.cmd.iid, e.cmd.refused, instance, now);
        PutJob(idle, e.id, j.(intents := intents, verdict := if AllResolved(intents) then Succeeded else Unknown), wr)
  }

  /** A refusal, cancellation or panic inside a command abandons it where it stands. */
  ghost function CmdAbort(w: World, s: Slot): World {
    if !Acting(w, s) then w else WithCmd(w, s, Idle)
  }

  // ---------------------------------------------------------------- the machine

  datatype Step =
    | SCrash
    | SOpen
    | SOpenFailed(done: set<JobId>)
    | SSubmit(kind: string, dedupe: string, id: JobId, now: int, victim: JobId, removed: bool, wr: Write)
    | SRunPersist(wr: Write)
    | SRunAdmit(ok: bool)
    | SRunnerReturn(result: RunResult)
    | SRunFinish(wr: Write)
    | SStop(id: JobId, wr: Write)
    | SAcknowledge(id: JobId, wr: Write)
    | SReview(id: JobId, wr: Write)
    | SObserve(id: JobId, iid: string, o: Observation, now: int, wr: Write)
    | SSetAuthority(a: Authority)
    | SRequire
    | SClose
    | SReserve(ok: bool)
    | SManualBegin(id: JobId, now: int, wr: Write)
    | SManualFinish(failed: bool, cancelled: bool, wr: Write)
    | SRelease
    | SLog(slot: Slot, wr: Write)
    | SResource(slot: Slot, iid: string, action: Action, identity: Identity, now: int, v1: bool, wr: Write, v2: bool)
    | SCmdCheck(slot: Slot)
    | SCmdBegin(slot: Slot, identity: Identity, now: int, v1: bool, wr: Write, v2: bool)
    | SCmdGuard(slot: Slot, ok: bool)
    | SCmdValidate(slot: Slot, ok: bool)
    | SCmdCall(slot: Slot, callResult: CallResult)
    | SCmdStamp(slot: Slot, now: int, wr: Write)
    | SCmdAbort(slot: Slot)

  /** One step; a step whose checks fail leaves the state alone, as the source returns an error. */
  ghost function Apply(w: World, s: Step): World {
    match s
    case SCrash => w.(mem := None)
    case SOpen => if w.mem.Some? then w else OpenWorld(w)
    case SOpenFailed(done) => if w.mem.Some? then w else OpenFailed(w, done)
    case SSubmit(kind, dedupe, id, now, victim, removed, wr) =>
      if w.mem.None? then w else Submit(w, kind, dedupe, id, now, victim, removed, wr)
    case SRunPersist(wr) => RunPersist(w, wr)
    case SRunAdmit(ok) => RunAdmit(w, ok)
    case SRunnerReturn(result) => RunnerReturn(w, result)
    case SRunFinish(wr) => RunFinish(w, wr)
    case SStop(id, wr) => Stop(w, id, wr)
    case SAcknowledge(id, wr) => Acknowledge(w, id, wr)
    case SReview(id, wr) => ReviewCommands(w, id, wr)
    case SObserve(id, iid, o, now, wr) => Observe(w, id, iid, o, now, wr)
    case SSetAuthority(a) => SetAuthority(w, a)
    case SRequire => RequireAuthority(w)
    case SClose => CloseManager(w)
    case SReserve(ok) => Reserve(w, ok)
    case SManualBegin(id, now, wr) => ManualBegin(w, id, now, wr)
    case SManualFinish(failed, cancelled, wr) => ManualFinish(w, failed, cancelled, wr)
    case SRelease => Release(w)
    case SLog(slot, wr) => LogStep(w, slot, wr)
    case SResource(slot, iid, action, identity, now, v1, wr, v2) =>
      ResourceIntent(w, slot, iid, action, identity, now, v1, wr, v2)
    case SCmdCheck(slot) => CmdCheck(w, slot)
    case SCmdBegin(slot, identity, now, v1, wr, v2) => CmdBegin(w, slot, identity, now, v1, wr, v2)
    case SCmdGuard(slot, ok) => CmdGuard(w, slot, ok)
    case SCmdValidate(slot, ok) => CmdValidate(w, slot, ok)
    case SCmdCall(slot, result) => CmdCall(w, slot, result)
    case SCmdStamp(slot, now, wr) => CmdStamp(w, slot, now, wr)
    case SCmdAbort(slot) => CmdAbort(w, slot)
  }

  /** One step at a later moment. */
  ghost function StepAt(w: World, t: nat, s: Step): World { Apply(w.(tick := t), s) }

  ghost function Next(w: World, s: Step): World { StepAt(w, w.tick + 1, s) }

  ghost function Run(w: World, steps: seq<Step>): World {
    if steps == [] then w else Next(Run(w, steps[..|steps| - 1]), steps[|steps| - 1])
  }
}
