# TalosDeck: verified models of its durable core

TalosDeck does destructive infrastructure work from durable records. A crash, a lost reply, a failed
write or a second management instance must never cause a blind replay. This project models the parts
of TalosDeck that carry this promise and proves the promise for every run: every sequence of steps,
with the process dying between any two of them, writes that land, fail leaving the old content, or
fail leaving the new content, and operations interleaving wherever the source releases its mutex.

`dafny verify dfyconfig.toml` checks everything (Dafny 4.11).

## How it is built

Each component has these layers:

* a machine of small steps over explicit memory and storage (`Journal`, `Authority`, `Replacement`,
  `AlertMachine`, `Vault`, `Scheduler`), whose steps carry the outcome of every write, call and
  validation they make. Fields described as history (`log`, `starts`, `root`, `tip`, `queued`, `plain`, ...) only
  record what happened; steps consult them only to give out identifiers nobody has used;
* invariants, one lemma per step, and theorems over every run (`JournalSafety`, `JournalOrder`,
  `JournalKeys`, `AuthorityLease`, `AuthorityFence`, `AuthorityStale`, `Fleet`, `ReplacementSafety`, `ReplacementTheorems`, `AlertSafety`, `AlertTheorems`, ...);
* what the pure parts mean, in plain fields and literal names and without the functions that compute them
  (`JournalEnds`, `JournalMeaning`, `AlertRouting`, `HealthMeaning`, `ReplacementEvidence`, `Fencing`, `Impact`);
* the source's own form: classes that change fields in place and methods with loops
  (`JournalManager`, `AuthorityHelper`, `AuthorityPolicy`, `ReplacementService`, `AlertCenter`, `AlertLoops`, `AlertTrim`,
  `VaultStore`, `BackupService`, `HealthEvaluator`), each proved to perform exactly the steps of its
  machine or to compute exactly what its specification says. Map iteration is an arbitrary choice.

| files | source |
|---|---|
| `Reconcile`, `Journal`, `JournalSafety`, `JournalOrder`, `JournalLabels`, `JournalKeys`, `JournalEnds`, `JournalMeaning`, `JournalManager` | `internal/jobs`, `internal/reconcile` |
| `Authority`, `AuthorityLease`, `AuthorityFence`, `AuthorityStale`, `AuthorityHelper`, `AuthorityPolicy`, `Fleet` | `internal/executionauthority`, `cmd/talosdeck/authority_policy.go` |
| `Fencing`, `Replacement`, `ReplacementSafety`, `ReplacementEvidence`, `ReplacementTheorems`, `ReplacementService`, `Impact` | `internal/operations/workerreplacement.go`, `internal/proxmox/worker_fencing.go` |
| `AlertState`, `AlertQueue`, `AlertMachine`, `AlertSafety`, `AlertRouting`, `AlertTheorems`, `AlertTrim`, `AlertLoops`, `AlertCenter` | `internal/alertcenter` |
| `Health`, `HealthReport`, `HealthScore`, `HealthMeaning`, `HealthEvaluator`, `Ordering` | `internal/health/evaluate.go` |
| `Vault`, `VaultStore` | `internal/clusters` |
| `Scheduler`, `BackupService` | `internal/operations/backup_lifecycle.go` |

## Where the code does less than it seems to promise

Seven properties one would expect do not hold as such. Each has a concrete failing run or input, and a
theorem that says exactly when the property holds.

* *During a run at most one command lacks a receipt, and no command follows it.* Attaching an observation to
  an acknowledged command replaces its receipt. If another command follows it, two open commands stand in
  one list (`ObservationBreaksOrder`). If it is the last one and the observation arrives after the receipts
  were checked but before the next intent is written, the order still holds, and the command begun next
  breaks it (`LateObservationBreaksOrder`). A step keeps the order if and only if it is neither an
  observation that hits a command followed by a command nor an admitted command begun while an earlier one
  has no receipt (`StepKeepsOrderIff`); the order holds throughout a run if and only if the run has no step
  of these two kinds (`OrderInEveryRunIff`).
* *A machine has one line of replacement work.* `PlanReplacementResume` makes two writes; if the second is
  missing, planning sees no open plan and starts a second chain beside the pending successor
  (`TwoLinesForOneMachine`). Planning keeps one line if and only if no successor of that machine waits to
  be stored (`CreateKeepsOneLineIff`); every other step keeps it (`OtherStepsKeepOneLine`). Per chain,
  at-most-once holds without condition (`OncePerChain`).
* *One session holds the lease.* If an administrator replaces the lock file under a leased session, a second
  session acquires beside it (`ReplacedLockBreaksLease`, a run from a fresh host). Replacing the file leaves
  the lease exclusive in every continuation if and only if no session that has it open holds the lease, is
  on the way to it, or still waits for an epoch the file may reach (`ReplaceIsSafeIff`). Under replacements
  of this harmless kind alone the lease is exclusive in every run (`ExclusiveLease`). With the file replaced at
  any moment it is still true that at most one session passes validation (`OneSessionValidates`), since the
  session left on the old inode fails the test of the held file.
* *Whoever passes validation holds the newest epoch.* A session that has compared epochs when the lock file is
  replaced can bring an old epoch back after others have moved on, and a process then passes validation
  under a superseded epoch (`StaleSessionBreaksFence`). Replacing the file leaves this fence standing in
  every continuation if and only if no session that has the file open may still overwrite the epoch file
  behind another's back (`ReplaceKeepsFenceIff`). Leased sessions do no harm here, so the fence stands in more
  runs than the lease is exclusive in (`CarefulIsCalm`, `FenceInEveryRun`), and dispatches are fenced in all of
  them (`NoDispatchUnderASupersededEpoch`).
* *An unchanged cluster passes the drift check.* Two pods that share a claim give two volumes under one key,
  and the claim is read once per pod; if the reads differ, the report rejects itself
  (`InconsistentReportRejectsItself`). A report accepts itself if and only if it is known and consistent
  (`AcceptsItselfIff`).
* *A store that opened reads every record.* Opening tries credentials and private records but no revisions.
  A key file left behind by a failed rotation can be accepted and lack the key of a revision
  (`FileLeftBehindMissesRevision`). An accepted start reads every record if and only if its ring holds the keys
  of all revisions (`OpenReadsIff`); when every start is of that kind, every record is readable at every crash
  point (`EveryCrashPoint`).
* *Storage holds one record per dedupe key.* A submission looks for its key in memory only. After a first save
  that failed although it landed, the same submission stores a second record (`ResubmissionRepeatsKey`). A
  step keeps one record per key if and only if it is not a submission whose record reaches storage beside one
  of its key that the manager does not hold (`StepKeepsKeysIff`, over runs `KeysInEveryRunIff`). Such a record
  comes back after the next start, and then blocks the journal until it is acknowledged
  (`RefusedSubmissionBlocksIff`).

## Model

| member | source | states |
|---|---|---|
| `JournalSafety.CrashRecovery` | internal/jobs/manager.go:143-163 | over every run and crash point: a job that dispatched a command reopens either as an ended record or as interrupted, reviewed only if an operator acknowledged it, with the dispatched intent in the record; the intents of an ended record are all resolved, unless reconciliation rewrote their evidence after the end |
| `JournalSafety.GateUntilAcknowledged` | internal/jobs/manager.go:209-233 | while an interrupted job waits for review, no continuation without an acknowledgement of that job (restarts, reconciliation, command review and failed saves included) evicts it, starts a runner or dispatches a command; a job whose acknowledgement failed to save waits again after a restart |
| `JournalSafety.StartsOnceAndAlone` | internal/jobs/manager.go:234-335 | over every run each job's runner starts at most once, and a running job never overlaps a manual reservation |
| `JournalSafety.DurableIntentsOnlyGrow` | internal/jobs/reconcile.go:86-132 | the stored intent list of a retained job only grows, with pairwise distinct ids, up to 256 entries |
| `JournalOrder.StepKeepsOrderIff` | internal/jobs/command.go:24-50 | for every step of the journal: it keeps the rule that no command follows a command without receipt, in memory and storage, if and only if it is not an observation hitting a command followed by a command and not an admitted command begun while some command has no receipt |
| `JournalOrder.OrderInEveryRunIff` | internal/jobs/command.go:24-50 | over every run: the rule holds at every moment if and only if the run has no step of these two kinds |
| `JournalOrder.BreakNeedsObservation` | internal/jobs/reconcile.go:137-182 | whichever step breaks the rule, an observation has hit a command of that job by then |
| `JournalOrder.ObservationBreaksOrder` | internal/jobs/reconcile.go:156-178 | a reachable state in which an observation of an earlier command has left two open commands in one list |
| `JournalOrder.LateObservationBreaksOrder` | internal/jobs/command.go:33-48 | a reachable state with two open commands in which the observation fell between the receipt check and the write of the next intent |
| `JournalSafety.DispatchedAfterValidation` | internal/jobs/command.go:48-58 | every dispatched command was validated at a moment strictly after its intent became durable |
| `JournalSafety.StepKeepsInv` | internal/jobs/manager.go:297-365 | every step of the journal, at any crash point and write outcome, keeps the journal's whole invariant |
| `Reconcile.Evaluate` | internal/reconcile/state.go:57-84 | an intent counts as succeeded if and only if it is of the present version with a complete identity and a fresh observation of the same identity shows the state the action aims at; it stays unknown exactly when the observation is missing or not fresh; an observation never yields failed |
| `JournalManager.Manager.OpenCluster` | internal/jobs/manager.go:108-165 | the loop over the record files turns every unfinished record into interrupted and saves each back; it succeeds exactly when every save landed, and a failed save ends the open with the records rewritten so far and no manager |
| `JournalManager.Manager.IsBusy` | internal/jobs/manager.go:209-219 | busy exactly when a job runs, a reservation is held, or an interrupted job awaits review |
| `JournalManager.Manager.Submit` | internal/jobs/manager.go:246-296 | the manager's fields and files change exactly as the machine's submission; it reports whether a job was created or already existed |
| `JournalMeaning.SubmitMeans` | internal/jobs/manager.go:246-296 | a submission is accepted only by an open, healthy journal with nothing running, reserved or unreviewed and no held job of its kind and key; at 100 records only the oldest makes room; the accepted job is queued under its own kind and key, stored first, as the one run |
| `JournalManager.Manager.EvictOldest` | internal/jobs/manager.go:275-287 | at the limit exactly the oldest record goes, and nothing goes when its file cannot be removed |
| `JournalManager.Manager.ReserveManual` | internal/jobs/manager.go:234-245 | a reservation is granted exactly when the manager is available and the authority valid |
| `JournalManager.Manager.FinishRun` | internal/jobs/manager.go:302-365 | a run ends succeeded, stopped or failed exactly when its runner returned no error, the stop error or an ordinary error, every intent is settled, and the journal is open and healthy; everything else, a failed final save included, is interrupted |
| `JournalEnds.SucceededForAReason` | internal/jobs/manager.go:302-365 | over every run, a stored succeeded record comes from a step that ended a run without an error, or a manual command that neither failed nor was cancelled, with every intent settled |
| `JournalEnds.FailedForAReason` | internal/jobs/manager.go:318-325 | over every run, a stored failed or stopped record comes from a run whose runner returned just that error, with every intent settled and the journal open and healthy |
| `JournalManager.Manager.Acknowledge` | internal/jobs/manager.go:406-424 | acknowledging marks exactly an interrupted job as reviewed |
| `JournalManager.Manager.ReviewCommands` | internal/jobs/command.go:103-127 | command review changes the verdict only, never the admission gate |
| `JournalManager.Manager.ObserveIntent` | internal/jobs/reconcile.go:137-182 | the observed intent and the job's verdict change as the machine's observation |
| `JournalMeaning.ObserveMeans` | internal/jobs/reconcile.go:137-182 | an observation rewrites outcome and evidence of the one intent it is about, never to failed, and no status, review or other intent |
| `JournalManager.Manager.BeginIntent` | internal/jobs/reconcile.go:86-132 | an intent is appended and saved exactly when all checks pass; the caller may go on only after the save landed and the authority was valid again |
| `JournalMeaning.BeginIntentMeans` | internal/jobs/reconcile.go:86-132 | an intent is appended exactly when no stop was asked, the journal is healthy, identity and identifier fit, the identifier is new, fewer than 256 are there, the version is present and the authority agrees; the caller goes on only after the save landed and the authority agreed again |
| `JournalManager.Manager.StampReceipt` | internal/jobs/command.go:66-93 | the returned command, and only it, gets its receipt |
| `JournalMeaning.ReceiptSaysWhatWasAnswered` | internal/jobs/command.go:58-93 | an acknowledged command is recorded as acknowledged, a refused one as rejected, and one without a proved outcome not at all |
| `JournalMeaning.RequiredRefuses` | internal/jobs/reconcile.go:27-44 | with an authority required and none installed nothing new is started, reserved, cleared or written ahead |
| `JournalManager.Manager.RecordMutation` | internal/jobs/command.go:20-101 | one command is exactly check, durable intent, guard, validation, call and receipt, in this order, stopping where a step refuses |
| `JournalLabels.StepKeepsLabels` | internal/jobs/manager.go:166-196 | no journal step changes the kind or dedupe key of a job, in memory or storage |
| `JournalKeys.StepKeepsKeysIff` | internal/jobs/manager.go:261-291 | for every step of the journal: storage keeps one record per kind and dedupe key if and only if the step is not an admitted submission whose record reaches storage while one of its key is there that the manager does not hold |
| `JournalKeys.KeysInEveryRunIff` | internal/jobs/manager.go:261-291 | over every run: storage holds one record per key at every moment if and only if the run has no such submission |
| `JournalKeys.ResubmissionRepeatsKey` | internal/jobs/manager.go:288-291 | a run in which a failed save that landed and the same submission again leave two records of one key |
| `Authority.ExclusiveLease` | internal/executionauthority/authority.go:57-109 | for any number of sessions started from any directories, copies included, with crashes anywhere and the lock file replaced only when that is harmless: at most one session is leased, acquired epochs strictly increase, and each expected epoch is spent at most once |
| `Authority.OneSessionValidates` | internal/executionauthority/authority.go:122-134 | over every run, the lock file replaced at any moment: at most one session passes validation |
| `Authority.StepKeepsInv` | internal/executionauthority/authority.go:36-134 | every step of sessions, clients and data directories, with the expected epoch taken from the directory or an override, keeps the invariant of the protocol; replacing the lock file does when it is harmless |
| `AuthorityLease.RecordedEpochSpentOnce` | cmd/talosdeck/authority_policy.go:55-83 | of all sessions started from directories that record one epoch, copies and restored backups included, at most one ever acquires |
| `AuthorityLease.LeftBehindIsRefused` | internal/executionauthority/authority.go:73-76 | while the policy file of a directory whose epoch was passed stays as it is, a session started from it acquires only with an override |
| `AuthorityLease.ReplaceIsSafeIff` | internal/executionauthority/authority.go:122-130 | replacing the lock file leaves the lease exclusive in every continuation if and only if no session with the file open is leased, on the way to a lease, or still able to get there |
| `AuthorityLease.ReplacedLockBreaksLease` | internal/executionauthority/authority.go:36-61 | a run from a fresh host: one full acquisition, the lock file replaced, and a second lease beside the first |
| `AuthorityFence.FenceInEveryRun` | internal/executionauthority/authority.go:110-134 | over every run in which the lock file is replaced only while no session may still overwrite the epoch file behind another, leased sessions notwithstanding: each epoch is acquired once, and whoever passes validation holds the newest epoch, acquired by nobody else |
| `AuthorityFence.StepKeeps` | internal/executionauthority/authority.go:36-134 | every step keeps the invariant behind the fence; replacing the lock file does when no session may still overwrite |
| `AuthorityFence.CarefulIsCalm` | internal/executionauthority/authority.go:57-109 | every run in which the lock file is replaced only when harmless to the lease is one in which the fence stands |
| `AuthorityStale.ReplaceKeepsFenceIff` | internal/executionauthority/authority.go:122-130 | replacing the lock file leaves the fence standing in every continuation if and only if no session with the file open may still overwrite the epoch file behind another session |
| `AuthorityStale.StaleSessionBreaksFence` | internal/executionauthority/authority.go:73-109 | a run from a fresh host in which a session that had compared epochs before the replacement brings an old epoch back, and epoch 3 passes validation after epoch 4 was acquired |
| `AuthorityPolicy.OnceEnabledStaysEnabled` | cmd/talosdeck/authority_policy.go:11-54 | once a process of a directory was told to ask an authority, every later start there, whatever its options and whatever writes failed, is refused or asks the same authority with exactly the epoch on file |
| `AuthorityPolicy.Directory.ExecutionPolicy` | cmd/talosdeck/authority_policy.go:13-54 | a start is unrestricted exactly when there is no policy file and no authority was requested; one that asks does so by the file, and an existing file is never changed |
| `AuthorityPolicy.FileGoesBackToRequest` | cmd/talosdeck/authority_policy.go:13-83 | over every run of a directory, the policy on file names the authority that one process requested, with the epoch of that request or one that a process of the directory acquired |
| `AuthorityPolicy.EpochOnFileWasAcquired` | cmd/talosdeck/authority_policy.go:55-83 | between any two moments of a run the policy stays on file, names the same authority, and has the same epoch or one that a process of the directory acquired |
| `AuthorityHelper.Helper.OpenLockFile` | internal/executionauthority/authority.go:36-46 | whether the lock file existed is noted before it is opened or created |
| `AuthorityHelper.Helper.Greet` | internal/executionauthority/authority.go:47-61 | an invalid greeting or a held lock ends the session |
| `AuthorityHelper.Helper.CompareEpoch` | internal/executionauthority/authority.go:62-76 | the session goes on exactly when the epoch file agrees with the expected epoch; an absent file counts only on first use |
| `AuthorityHelper.Helper.AdvanceEpoch` | internal/executionauthority/authority.go:77-109 | the lease exists only after rename and directory sync |
| `AuthorityHelper.ServeValidations` | internal/executionauthority/authority.go:110-135 | the loop answers exactly the longest good prefix of its requests |
| `AuthorityHelper.Handle.Acquire` | internal/executionauthority/client.go:66-79 | the client is usable if and only if the reply is the expected epoch plus one for its own instance |
| `AuthorityHelper.Handle.Validate` | internal/executionauthority/client.go:128-140 | a validation succeeds if and only if the exact reply came back on an unpoisoned handle; any other answer poisons it for good |
| `Fleet.NoDispatchUnderASupersededEpoch` | internal/jobs/reconcile.go:27-44 | over every run of many journals and one authority, the lock file replaced also under leased sessions: a command sent under an epoch was validated after its intent was durable and before any later epoch, or the same one by another session, was acquired |
| `Fencing.FreshIffProved` | internal/proxmox/worker_fencing.go:101-113 | re-proved evidence is fresh if and only if it is about this machine and its delete task, the provider said the task completed, the HA list lacks the machine and unnamed entries, the inventory between two permission checks is fully understood and lacks the machine, and at most sixty seconds have passed |
| `Fencing.DestroyedIffProved` | internal/proxmox/worker_fencing.go:45-99 | the destructive call yields a proved fence if and only if its own checks passed, it returned a finished delete task of this machine, and all these answers agree |
| `Fencing.ProveWorkerFence` | internal/proxmox/worker_fencing.go:118-162 | the proof, asked in order with early exits, succeeds if and only if the task completed, no HA entry is unnamed or the machine, and every guest in the inventory between two permission checks is understood and is not the machine |
| `Fencing.WorkerNotHa` | internal/proxmox/worker_fencing.go:173-191 | true exactly when the HA list was read, has no unnamed entry and does not name the machine |
| `ReplacementTheorems.OncePerChain` | internal/operations/workerreplacement.go:392-496 | over every run with crashes and failed writes, a plan and all its resume successors together dispatch each of drain, VM destruction, node deletion and child creation at most once |
| `ReplacementTheorems.CallsAreInOrder` | internal/operations/workerreplacement.go:424-467 | what is durable when a call goes out: destruction of a reachable worker only after completed drain and completed child; a dead worker's child only after a proved fence and a deleted node; node deletion only under evidence at most sixty seconds old with the machine's own delete task |
| `ReplacementTheorems.SuccessIsComplete` | internal/operations/workerreplacement.go:657-710 | a plan recorded as succeeded has its child complete, node deleted and, if reachable, drain complete, and holds evidence that says fenced with the delete task of its own machine |
| `ReplacementEvidence.NodeDeletedOnlyWhenGone` | internal/operations/workerreplacement.go:424-467 | over every run, behind each node deletion lies a step at most sixty seconds earlier in which the provider gave every one of these answers about this very machine |
| `ReplacementEvidence.SuccessMeansGone` | internal/operations/workerreplacement.go:657-710 | a plan recorded as succeeded rests on a step of the run with such answers |
| `ReplacementTheorems.CreateKeepsOneLineIff` | internal/operations/workerreplacement.go:212-231 | planning keeps one line of work per machine if and only if no successor of that machine waits to be stored |
| `ReplacementTheorems.OtherStepsKeepOneLine` | internal/operations/workerreplacement.go:731-832 | every step other than planning keeps one line of work per machine |
| `ReplacementTheorems.TwoLinesForOneMachine` | internal/operations/workerreplacement.go:821-831 | a run in which the second write of a resume is missing and a machine ends with two open chains |
| `ReplacementSafety.AdvanceOk` | internal/operations/workerreplacement.go:538-710 | each action of the workflow keeps the stage order, sets a started flag before the call it announces, and calls only what is justified |
| `ReplacementSafety.StepKeeps` | internal/operations/workerreplacement.go:195-301 | every step of every operation keeps the invariant of the replacement machine |
| `ReplacementService.Service.PlanReplacement` | internal/operations/workerreplacement.go:195-267 | the only records it changes are earlier plans of the same author that never started, are not running, and are unapproved, expired or under review, and these become superseded; the new plan has nothing approved or started, and is stored only when every other plan of the machine is resolved |
| `ReplacementService.Service.ApproveReplacement` | internal/operations/workerreplacement.go:268-293 | approval succeeds and changes a record exactly when it is planned, unexpired, of the same author and confirmed |
| `ReplacementService.Service.RunReplacement` | internal/operations/workerreplacement.go:538-710 | for every answer and write outcome the run is a run of the machine; success means an approved, unexpired plan is now recorded as succeeded, and the active mark is always removed |
| `ReplacementService.Service.Prepare` | internal/operations/workerreplacement.go:592-656 | checks, then drain or adoption; a failure leaves the run at its end |
| `ReplacementService.Service.FenceOld` | internal/operations/workerreplacement.go:392-423 | at most one call, the destruction, goes out; none when fencing had started, where the fence is proved again |
| `ReplacementService.Service.RemoveNode` | internal/operations/workerreplacement.go:424-467 | at most one call, the node deletion, goes out; none when deletion had started, where absence is observed |
| `ReplacementService.Service.CreateReplacement` | internal/operations/workerreplacement.go:468-496 | at most one call, the creation, goes out; none when creation had started |
| `ReplacementService.Service.VerifyChild` | internal/operations/workerreplacement.go:515-537 | on success the child is recorded as complete |
| `ReplacementService.ProveAgain` | internal/operations/workerreplacement.go:369-391 | revalidation saves new evidence, or notes the reused provider id when the node is deleted and the child started, and goes on only with fresh proof or that exception |
| `ReplacementService.Service.PlanReplacementResume` | internal/operations/workerreplacement.go:731-832 | on success the original is closed and names a stored, unapproved successor for the same machine that has inherited every flag of what was started and completed |
| `ReplacementService.Service.RebuildSuccessor` | internal/operations/workerreplacement.go:747-762 | a missing successor is stored from its predecessor, never over an existing record |
| `Impact.Sound` | internal/operations/workerreplacement.go:320-367 | when the drift check accepts, every current volume has a reviewed one with the same namespace, identities, remaining fields and attachments, and without a persistent volume the same pod, name, kind and reasons; every pod equals a reviewed one but for its phase |
| `Impact.AcceptsWhatMatches` | internal/operations/workerreplacement.go:320-367 | conversely, against a consistent review everything that matches in this sense is accepted |
| `Impact.KeysMean` | internal/operations/workerreplacement.go:320-341 | with identifiers free of colons and names free of slashes, two entries share a key exactly when they are the same volume and claim, the same volume of one pod, or the same pod |
| `Impact.Transitive` | internal/operations/workerreplacement.go:342-366 | acceptance against an accepted report implies acceptance against the original |
| `Impact.AcceptsItselfIff` | internal/operations/workerreplacement.go:342-352 | a report accepts itself if and only if it is known and entries sharing a key agree |
| `Impact.InconsistentReportRejectsItself` | internal/k8s/replacement.go:239-249 | two pods sharing a claim that was read differently for each give a report that is rejected against itself |
| `Impact.AttachmentOrderIsNoDrift` | internal/operations/workerreplacement.go:334-338 | listing order and transient state of attachments with distinct ids are no drift |
| `Impact.Accepts` | internal/operations/workerreplacement.go:320-367 | the loops decide exactly the subset relation, last entry per key winning |
| `AlertTheorems.ResendOnlyAfterRejection` | internal/alertcenter/worker.go:43-157 | over every run with crashes, failed writes and interleaved settings changes, between two sends of a delivery lies a recorded definite rejection or an operator retry that took effect |
| `AlertTheorems.FiveAttempts` | internal/alertcenter/worker.go:104-154 | between operator retries that took effect a delivery is handed to the transport at most five times |
| `AlertTheorems.InFlightIsSending` | internal/alertcenter/worker.go:118-130 | a delivery in flight is present and in state sending, so completion always finds it |
| `AlertTheorems.AttemptsMatchPhases` | internal/alertcenter/worker.go:132-154 | in memory and storage: pending 0 attempts, retrying 1 to 4, failed 5, sending 1 to 5 |
| `AlertTheorems.RefusedWaits` | internal/alertcenter/worker.go:140-154 | a refusal before the fifth attempt waits two, four, eight, then sixteen seconds, or as long as the receiver asks, up to one hour; the fifth fails |
| `AlertTheorems.SentIsCurrent` | internal/alertcenter/worker.go:9-130 | over every run, whenever a step hands a message over: its claim is already stored, its channel is enabled and unchanged, and it is about the present transition of a fresh alert that no silence covers and that an enabled route to that channel takes by severity, rule and node |
| `AlertTheorems.OneNotificationPerTransition` | internal/alertcenter/center.go:334-381 | per alert, transition and channel at most one non-reminder was ever queued on the way to any state in memory or storage, and reminders are at least five minutes after everything before them |
| `AlertTheorems.SentOncePerTransition` | internal/alertcenter/center.go:334-381 | over every run, any two messages sent about one transition of an alert to one channel are attempts of one delivery, or were queued at least five minutes apart and are not both first notifications |
| `AlertTheorems.MemoryIsTidy` | internal/alertcenter/center.go:106-138 | memory holds at most 5000 active and 1000 resolved alerts and 2000 deliveries, no mark without its alert, and equals storage while healthy |
| `AlertState.RetryDelayBounds` | internal/alertcenter/worker.go:146-153 | every retry delay is between two seconds and one hour |
| `AlertQueue.NeverBefore` | internal/alertcenter/center.go:359-369 | what the dispatch marks let through was never queued before, even after its delivery was trimmed |
| `AlertRouting.AnnouncedExactly` | internal/alertcenter/center.go:300-381 | a new transition goes, as one pending notice, to every enabled channel of every enabled route whose lowest severity it reaches and whose rules and nodes are none or contain its own, a resolution only where asked for, and to no other channel |
| `AlertRouting.ObservedExactly` | internal/alertcenter/center.go:227-284 | each observation, case by case: a new, changed, resolved or one-time alert becomes exactly this alert and is announced on exactly these channels; a confirmed, unknown or already cleared one queues nothing |
| `AlertRouting.EveryObservation` | internal/alertcenter/center.go:220-288 | over every run, each observation of each report is such a step |
| `AlertRouting.RemindedExactly` | internal/alertcenter/center.go:340-381 | reminders go exactly to the channels on which some route is due: the alert unchanged and the channel without news of it for the interval, and nothing about it undecided there |
| `AlertRouting.GraverIsTakenToo` | internal/alertcenter/center.go:301-317 | a route that takes an alert takes every graver one of the same rule and node |
| `AlertQueue.QueueActiveKeeps` | internal/alertcenter/worker.go:56-70 | polling all active alerts in any order, over overlapping routes, keeps the queue invariant and touches no existing delivery |
| `AlertSafety.TrimKeeps` | internal/alertcenter/center.go:139-172 | trimming keeps every claim about marks, attempts and sends |
| `AlertSafety.StepKeeps` | internal/alertcenter/settings.go:28-266 | every step of the center and of its settings keeps the center's invariant |
| `AlertTrim.TrimHistory` | internal/alertcenter/center.go:139-172 | every active alert and the newest 1000 resolved ones stay; only sent or suppressed deliveries go, oldest first, no more than needed; exactly the marks of missing alerts go |
| `AlertTrim.TrimMeans` | internal/alertcenter/center.go:139-172 | what the trimmed state is in plain fields: which alerts, deliveries and marks stay, which go, in what order and how many |
| `AlertTrim.TrimDeliveries` | internal/alertcenter/center.go:159-171 | the loop over sorted terminal deliveries drops oldest first until 2000 are left or none is terminal |
| `AlertLoops.Silenced` | internal/alertcenter/center.go:318-330 | the result is the latest end of the silences that cover the alert now by rule, node and severity, and nothing exactly when none does |
| `AlertLoops.QueueOnRoutes` | internal/alertcenter/center.go:334-381 | the nested loops over routes and channels queue exactly the specified notifications |
| `AlertLoops.QueueForActive` | internal/alertcenter/worker.go:56-70 | the loop over the alert map queues for exactly the active alerts, each once |
| `AlertLoops.Screen` | internal/alertcenter/worker.go:71-94 | every due delivery is judged, suppressed or deferred, and the pick is the oldest that may go |
| `AlertLoops.ScreenMeans` | internal/alertcenter/worker.go:71-94 | only waiting deliveries that are due are judged; a drop suppresses, a delay moves the next attempt, and nothing else changes |
| `AlertLoops.PickMeans` | internal/alertcenter/worker.go:71-94 | something is picked exactly when some due delivery may go, and nothing that may go is older |
| `AlertLoops.Judge` | internal/alertcenter/worker.go:9-38 | a due delivery goes out exactly when its channel is usable, its alert present and fresh, no silence covers it and an enabled route to the channel takes it; it waits when stale or silenced, and is dropped otherwise |
| `AlertLoops.FindCurrent` | internal/alertcenter/center.go:209-219 | the alert found has the fingerprint and none with it was first seen later |
| `AlertLoops.ObserveEach` | internal/alertcenter/center.go:220-288 | all observations are applied in turn, or none when one is invalid |
| `AlertCenter.AlertCenter.PersistState` | internal/alertcenter/center.go:106-138 | a successful persist leaves memory equal to storage and to the trimmed state; a failure leaves memory alone and marks the center degraded; skipping an unchanged write is as good as writing |
| `AlertCenter.OpenState` | internal/alertcenter/center.go:68-99 | a restart turns sending into uncertain and nothing else, marks every active alert stale, and exists only if that was persisted |
| `AlertCenter.AlertCenter.Observe` | internal/alertcenter/center.go:220-288 | more than ten thousand or one unacceptable observation changes nothing; otherwise the object performs the machine's observation |
| `AlertCenter.AlertCenter.ClaimNext` | internal/alertcenter/worker.go:43-119 | a delivery is handed over only after its claim is stored, and at most one per call |
| `AlertCenter.AlertCenter.FinishDelivery` | internal/alertcenter/worker.go:123-156 | a delivered message is sent, an unclear one uncertain, a refused one retrying or after five attempts failed, and no other delivery changes |
| `AlertCenter.AlertCenter.RetryDelivery` | internal/alertcenter/settings.go:203-220 | only a failed or uncertain delivery is reset |
| `AlertCenter.AlertCenter.DeleteChannel` | internal/alertcenter/settings.go:70-93 | a channel goes only when no route names it, and its waiting deliveries are suppressed |
| `AlertCenter.AlertCenter.SaveRoutes` | internal/alertcenter/settings.go:99-134 | routes are replaced only at the current revision and exactly when all are valid: distinct ids (new ones where missing), names, severities, limits, repeat intervals, existing channels and selectors |
| `HealthReport.ReportIsUnique` | internal/health/evaluate.go:66-146 | reordering or repeating a snapshot's checks does not change the report |
| `Health.Deduplicate` | internal/health/evaluate.go:95-135 | the map-building loop holds, per category and id, the entry that beats all others by rank, penalty and text |
| `HealthEvaluator.Evaluate` | internal/health/evaluate.go:95-232 | loops, map iteration in any order, sorting and running sums produce exactly the one report; what it says is the subject of the next rows |
| `HealthMeaning.StatusMeans` | internal/health/evaluate.go:157-226 | the cluster is critical if and only if a fresh, identified check of a known category is; else warning if and only if one is; else unknown if and only if something is stale or part of some category is not known; else healthy; each category likewise |
| `HealthMeaning.FindingsMean` | internal/health/evaluate.go:186-190 | findings are exactly the shown critical, warning and unknown checks; every critical check that counts is among them, and every warning unless something graver stands under its name; they are listed by category and then by name |
| `HealthMeaning.CategoryScoreMeans` | internal/health/evaluate.go:80-92 | a category's score is a hundred less 100 for a lost quorum or an invalid certificate, else 75 for anything critical, else 25 for a warning |
| `HealthMeaning.ScoreIsWeightedMean` | internal/health/evaluate.go:66-92 | the score is the mean of the eight categories weighted 15, 20, 15, 15, 10, 10, 10 and 5 |
| `HealthMeaning.CoverageMeans` | internal/health/evaluate.go:149-183 | a category is covered in the proportion of its shown checks that are not unknown, and the cluster is covered by the weighted mean of its categories |
| `HealthMeaning.QuorumLossTakesTwentyPoints` | internal/health/evaluate.go:81-86 | a lost etcd quorum makes the cluster critical and takes all of etcd's twenty points |
| `HealthScore.ScoreIsSound` | internal/health/evaluate.go:136-225 | scores and coverage lie in 0..100; a score is present if and only if nothing is stale and no category shows an unknown check, and then equals the observed score with coverage 100 |
| `HealthScore.StaleSnapshotScoresNothing` | internal/health/evaluate.go:95-118 | a stale snapshot has coverage 0 and no score |
| `HealthScore.ScoreIsMonotone` | internal/health/evaluate.go:80-92 | worsening checks never raises the score when both reports have one |
| `HealthScore.WorstIsMaximum` | internal/health/evaluate.go:154-186 | a category's deduction is the largest penalty among all its entries, those displaced included |
| `Vault.EveryCrashPoint` | internal/clusters/store.go:577-670 | at every point of every run, rotation included, whose starts hold the keys of all revisions: each record decrypts to its unchanged meaning with the key file of the path in use and with the ring in memory |
| `Vault.ReopenReads` | internal/clusters/store.go:71-224 | dying anywhere in such a run and starting again from the path in use is accepted and reads every record |
| `Vault.OpenReadsIff` | internal/clusters/store.go:186-215 | after any run, a start that is accepted reads every record if and only if its ring holds the keys of all revisions |
| `Vault.FileLeftBehindMissesRevision` | internal/clusters/store.go:190-218 | a run in which a start from a key file left by a failed rotation opens the credentials of the one cluster, is accepted, and cannot read a revision of it |
| `Vault.AfterCommit` | internal/clusters/store.go:597-670 | after the commit every record is under the new key, both key files hold it, and no earlier key is gone |
| `Vault.RotateIsARun` | internal/clusters/store.go:579-670 | a rotation is the run of the machine's four steps: the two key files, the switch and the commit |
| `VaultStore.Store.RotateKey` | internal/clusters/store.go:579-670 | the object performs the four steps of a rotation, each stopping where the one before failed; it succeeds exactly when the target may be written, all three writes landed and every record opens; whatever fails, the records and their meaning stay, and success puts every record under the new key and the whole ring in both files |
| `VaultStore.SealAll` | internal/clusters/settings.go:152-192 | the re-encryption loop succeeds exactly when every record opens, and then yields every record resealed under the active key |
| `Vault.OpensInPlace` | internal/clusters/store.go:272-310 | what is sealed for one row opens there with the key it was sealed under, and under no other row or key |
| `Vault.PutMeans` | internal/clusters/settings.go:36-55 | a create keeps an existing record as it was and a revision needs the row of its cluster; any other put that lands stores the value in its own place under the active key, and no other row is touched |
| `VaultStore.Store.PutSecret` | internal/clusters/settings.go:36-55 | the object's put is the vault's put: the value is stored under its own place, a create refuses an existing record, and a revision needs the row of its cluster |
| `VaultStore.Store.GetSecret` | internal/clusters/settings.go:56-71 | a get of a private record returns the stored meaning, and nothing for a missing record |
| `VaultStore.Store.Open` | internal/clusters/store.go:186-215 | the loops over credentials and private records accept a ring exactly when each of them opens |
| `Scheduler.OneJobPerDueTime` | internal/operations/backup_lifecycle.go:216-228 | across crashes and failed schedule writes a due time gets a second job only when the first is no longer held, newly submitted due times otherwise strictly increase, and the stored schedule stays in range |
| `Scheduler.RefusedSubmissionBlocksIff` | internal/jobs/manager.go:288-291 | a submission that reported an error is back after the next start if and only if its save landed although it failed, and then nothing starts or is dispatched until it is acknowledged |
| `BackupService.BackupService.ScheduleDue` | internal/operations/backup_lifecycle.go:216-228 | nothing happens before the due time; then submit first, and only after that the next run is one interval from now |
| `BackupService.BackupService.SaveSchedule` | internal/operations/backup_lifecycle.go:188-200 | an interval outside 1 to 8760 hours, a retention outside 1 to 1000 or an unknown target changes nothing; otherwise the next run is one interval away |

## Left out

- Event lists, log texts, route names once they are checked, their bounding and redaction, users, audit lines and user-visible messages: they decide nothing in these machines.
- Incompatible journal files and their archiving on open, and the JSON encodings of all records.
- `Checkpoint` appears as a journal write followed by a validation; the action and target checks of `RecordMutation` are a valid identity here.
- Real time, timeouts and goroutine scheduling: clocks are inputs, and interleaving is by explicit steps.
- Kubernetes, Proxmox, Talos, SSH and mail clients: each call is an arbitrary outcome.
- The provisioning service behind the replacement child, including what its own run may do; it is one call here.
- `replacementImpactHash` and the comparison of approval hashes and node names: one boolean in approvals and checks.
- Persisted evidence size limits (4 MB plans, 16 MB alert state): a write over the limit is a write that failed.
- Journal executions of several clusters are independent managers; each is one journal here.
- Backup contents, their retention and the upload to targets.
- Attachments with equal ids keep their order when sorted; the source's sort is unstable for more than twelve of them.
- Health scores are real numbers, and the JSON text used to break ties is any injective function.
- AES-GCM, SHA-256 and UUIDs: sealing is symbolic, encodings are injective and new identifiers are fresh.
- Deleting, listing and editing of clusters, revisions and settings, and everything in the API, web and authentication layers.
- Title, details and timestamps of alerts that no decision reads, and the legacy Telegram watcher.
