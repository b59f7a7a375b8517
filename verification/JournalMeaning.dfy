/** What the journal's checks and receipts mean, field by field. */
module JournalMeaning {
  import opened Basics
  import opened Reconcile
  import opened Journal

  /**
   A submission is accepted only by a free journal: open, healthy, with nothing running or reserved and no
   interrupted job unreviewed. It is queued under its own kind and key, in storage first, as the one run. A key
   that a held job of that kind has is not accepted again, and at the limit only the oldest record makes room.
   */
  lemma SubmitMeans(w: World, kind: string, dedupe: string, id: JobId,
                    now: int, victim: JobId, removed: bool, wr: Write)
    requires w.mem.Some? && id !in w.used
    ensures var m, w1 := w.mem.value, Submit(w, kind, dedupe, id, now, victim, removed, wr);
            var accepted := && wr == Landed && !m.closed && !m.storageErr && m.run.None? && m.manual == Free
                            && (forall k :: k in m.jobs && m.jobs[k].status == Interrupted ==> m.jobs[k].reviewed)
                            && !(dedupe != "" && exists k :: && k in m.jobs && m.jobs[k].dedupe == dedupe
                                                             && m.jobs[k].kind == kind)
                            && (|m.jobs| >= 100 ==>
                                  && removed && victim in m.jobs
                                  && forall k :: k in m.jobs ==> m.jobs[victim].createdAt <= m.jobs[k].createdAt);
            && (Accepts(w, kind, dedupe, id, victim, removed, wr) <==> accepted)
            && (if accepted
                then && w1.mem.Some? && w1.mem.value.run == Some(Exec(id, Accepted, Idle)) && id in w1.mem.value.jobs
                     && var j := w1.mem.value.jobs[id];
                        && j.status == Queued && j.kind == kind && j.dedupe == dedupe && j.createdAt == now
                        && j.intents == [] && !j.reviewed && !j.stop && id in w1.disk && w1.disk[id] == j
                        && (forall k :: k in m.jobs && k != id ==>
                              k in w1.mem.value.jobs || (|m.jobs| >= 100 && k == victim))
                else w1.mem.Some? && w1.mem.value.run == m.run && w1.mem.value.jobs.Keys <= m.jobs.Keys)
  {
  }

  lemma FreshId(s: seq<Intent>, iid: string)
    ensures HasId(s, iid) <==> exists i :: i in s && i.id == iid
  {
    if i :| i in s && i.id == iid {
      var k :| 0 <= k < |s| && s[k] == i;
    }
  }

  /**
   An intent is appended exactly when the job was not asked to stop, the journal is healthy, the identity is
   complete, the identifier fits and is new, fewer than 256 are there, the job is of the present version, and
   the authority agrees. It then records what is about to happen and nothing about its outcome. The caller
   may go on only if it was saved and the authority agreed again.
   */
  lemma BeginIntentMeans(w: World, id: JobId, iid: string, action: Action, identity: Identity, now: int, v1: bool,
                         wr: Write, v2: bool)
    requires w.mem.Some? && id in w.mem.value.jobs
    ensures var m, j := w.mem.value, w.mem.value.jobs[id];
            var (w1, proceed) := BeginIntent(w, id, iid, action, identity, now, v1, wr, v2);
            var admitted := && !j.stop && !m.storageErr && 1 <= |iid| <= 128 && |j.intents| < 256 && j.versions == V1
                            && 1 <= |identity.provider| <= 256 && 1 <= |identity.resource| <= 256
                            && 1 <= |identity.generation| <= 256 && 1 <= |identity.owner| <= 256
                            && (forall i :: i in j.intents ==> i.id != iid)
                            && (if m.authority.None? then !m.required else v1);
            && (proceed <==> admitted && wr == Landed && (if m.authority.None? then !m.required else v2))
            && w1.mem.Some? && id in w1.mem.value.jobs
            && (var s := w1.mem.value.jobs[id].intents;
                if admitted
                then && |s| == |j.intents| + 1 && s[..|j.intents|] == j.intents
                     && s[|j.intents|].id == iid && s[|j.intents|].action == action
                     && s[|j.intents|].identity == identity && s[|j.intents|].createdAt == now
                     && s[|j.intents|].outcome == Unknown && s[|j.intents|].evidence.None?
                     && (wr != FailedOld ==> id in w1.disk && w1.disk[id] == w1.mem.value.jobs[id])
                else s == j.intents)
            && (forall k :: k in w.mem.value.jobs && k != id ==>
                  k in w1.mem.value.jobs && w1.mem.value.jobs[k] == w.mem.value.jobs[k])
  {
    hide IntentAdmitted, HasId;
    var m, j := w.mem.value, w.mem.value.jobs[id];
    AdmittedMeans(m, j, iid, identity, v1);
    if IntentAdmitted(m, j, iid, identity, v1) {
      Appended(j.intents, NewIntent(m, iid, action, identity, now));
    } else {
      hide Save, NewIntent;
    }
  }

  lemma Appended(s: seq<Intent>, x: Intent)
    ensures |s + [x]| == |s| + 1 && (s + [x])[..|s|] == s && (s + [x])[|s|] == x
  {
  }

  lemma AdmittedMeans(m: Memory, j: Job, iid: string, identity: Identity, v1: bool)
    ensures IntentAdmitted(m, j, iid, identity, v1) <==>
            && !j.stop && !m.storageErr && 1 <= |iid| <= 128 && |j.intents| < 256 && j.versions == V1
            && 1 <= |identity.provider| <= 256 && 1 <= |identity.resource| <= 256
            && 1 <= |identity.generation| <= 256 && 1 <= |identity.owner| <= 256
            && (forall i :: i in j.intents ==> i.id != iid)
            && (if m.authority.None? then !m.required else v1)
  {
    FreshId(j.intents, iid);
    hide HasId;
  }

  /**
   The receipt of a returned command. Every intent of its identifier is marked acknowledged when the command
   was acknowledged, rejected when it was refused, and no other intent changes.
   */
  lemma StampMeans(s: seq<Intent>, iid: string, refused: bool, instance: string, now: int, n: nat)
    requires n < |s|
    ensures var r := StampAll(s, iid, refused, instance, now);
            && |r| == |s| && r[n].id == s[n].id && r[n].identity == s[n].identity && r[n].action == s[n].action
            && (s[n].id != iid ==> r[n] == s[n])
            && (s[n].id == iid && refused ==>
                  r[n].outcome == Failed
                  && r[n].evidence == Some(Observation(CommandRejected, Rejected, s[n].identity, Some(now))))
            && (s[n].id == iid && !refused ==>
                  r[n].outcome == Succeeded
                  && r[n].evidence == Some(Observation(CommandAcknowledged, Acknowledged, s[n].identity, Some(now))))
  {
  }

  /** The stamp of a returned command, in the job's record. */
  lemma StampedRecord(w: World, slot: Slot, now: int, wr: Write)
    requires Acting(w, slot) && ExecOf(w.mem.value, slot).value.cmd.Returned? && !w.mem.value.storageErr
    ensures var m, e, w1 := w.mem.value, ExecOf(w.mem.value, slot).value, CmdStamp(w, slot, now, wr);
            var instance := if m.authority.Some? then m.authority.value.instance else "";
            && w1.mem.Some? && e.id in w1.mem.value.jobs
            && w1.mem.value.jobs[e.id].intents ==
               StampAll(m.jobs[e.id].intents, e.cmd.iid, e.cmd.refused, instance, now)
  {
    hide StampAll, AllResolved;
  }

  lemma CallReturns(w: World, slot: Slot, result: CallResult)
    requires Acting(w, slot) && ExecOf(w.mem.value, slot).value.cmd.Cleared?
    ensures var e, w1 := ExecOf(w.mem.value, slot).value, CmdCall(w, slot, result);
            && Acting(w1, slot) && w1.mem.value.jobs == w.mem.value.jobs
            && w1.mem.value.storageErr == w.mem.value.storageErr
            && ExecOf(w1.mem.value, slot).value ==
               e.(cmd := if result == Unproved then Idle else Returned(e.cmd.iid, result == Refused))
  {
  }

  /** The receipt says what the call answered: acknowledged is not rejected, and neither is an unproved outcome. */
  lemma ReceiptSaysWhatWasAnswered(w: World, slot: Slot, result: CallResult, now: int, wr: Write, n: nat)
    requires Acting(w, slot) && ExecOf(w.mem.value, slot).value.cmd.Cleared? && !w.mem.value.storageErr
    requires var e := ExecOf(w.mem.value, slot).value;
             n < |w.mem.value.jobs[e.id].intents| && w.mem.value.jobs[e.id].intents[n].id == e.cmd.iid
    ensures var e := ExecOf(w.mem.value, slot).value;
            var w1 := CmdStamp(CmdCall(w, slot, result), slot, now, wr);
            && w1.mem.Some? && e.id in w1.mem.value.jobs && n < |w1.mem.value.jobs[e.id].intents|
            && var i, before := w1.mem.value.jobs[e.id].intents[n], w.mem.value.jobs[e.id].intents[n];
               match result
               case Acked => i.outcome == Succeeded && i.evidence.Some?
                             && i.evidence.value.source == CommandAcknowledged && i.evidence.value.state == Acknowledged
               case Refused => i.outcome == Failed && i.evidence.Some?
                               && i.evidence.value.source == CommandRejected && i.evidence.value.state == Rejected
               case Unproved => i == before
  {
    var e, w1 := ExecOf(w.mem.value, slot).value, CmdCall(w, slot, result);
    CallReturns(w, slot, result);
    if result == Unproved {
      IdleIsNotStamped(w1, slot, now, wr);
    } else {
      StampedRecord(w1, slot, now, wr);
      var instance := if w1.mem.value.authority.Some? then w1.mem.value.authority.value.instance else "";
      StampMeans(w1.mem.value.jobs[e.id].intents, e.cmd.iid, result == Refused, instance, now, n);
    }
    hide StampAll, CmdStamp, CmdCall;
  }

  lemma IdleIsNotStamped(w: World, slot: Slot, now: int, wr: Write)
    requires Acting(w, slot) && ExecOf(w.mem.value, slot).value.cmd.Idle?
    ensures CmdStamp(w, slot, now, wr) == w
  {
  }

  // ---------------------------------------------------------------- observations

  /**
   An observation rewrites the one intent it is about: its evidence is the observation, its outcome is never a
   failure and is a success only as evaluated. No status, review or other intent changes.
   */
  lemma ObserveMeans(w: World, id: JobId, iid: string, o: Observation, now: int, wr: Write, k: JobId, n: nat)
    requires w.mem.Some? && k in w.mem.value.jobs && n < |w.mem.value.jobs[k].intents|
    ensures var w1 := Observe(w, id, iid, o, now, wr);
            && w1.mem.Some? && k in w1.mem.value.jobs && n < |w1.mem.value.jobs[k].intents|
            && w1.mem.value.run == w.mem.value.run && w1.mem.value.manual == w.mem.value.manual
            && var j, was := w1.mem.value.jobs[k], w.mem.value.jobs[k];
               && j == was.(intents := j.intents, verdict := j.verdict) && |j.intents| == |was.intents|
               && j.intents[n] == was.intents[n].(outcome := j.intents[n].outcome, evidence := j.intents[n].evidence)
               && (j.intents[n] != was.intents[n] ==>
                     && k == id && was.intents[n].id == iid && j.intents[n].evidence == Some(o)
                     && j.intents[n].outcome != Failed
                     && (j.intents[n].outcome == Succeeded ==> Evaluate(was.intents[n], o, now) == Succeeded))
  {
    hide Undecided, ObservationAllowed;
  }

  // ---------------------------------------------------------------- a required authority

  lemma BeginFrame(w: World, id: JobId, iid: string, action: Action, identity: Identity, now: int, v1: bool, wr: Write,
                   v2: bool)
    requires w.mem.Some? && id in w.mem.value.jobs
    ensures var w1 := BeginIntent(w, id, iid, action, identity, now, v1, wr, v2).0;
            && w1.mem.Some? && w1 == w.(disk := w1.disk, mem := w1.mem)
            && w1.mem.value == w.mem.value.(jobs := w1.mem.value.jobs, storageErr := w1.mem.value.storageErr)
  {
    hide IntentAdmitted;
  }

  /** No command is cleared, no runner started, nothing reserved and no intent added. */
  ghost predicate NothingNew(w: World, w1: World)
    requires w.mem.Some?
  {
    && w1.started == w.started && w1.dispatched == w.dispatched && w1.mem.Some?
    && (w1.mem.value.manual == Reserved ==> w.mem.value.manual == Reserved)
    && (forall slot :: ExecOf(w1.mem.value, slot).Some? && ExecOf(w1.mem.value, slot).value.cmd.Cleared? ==>
          ExecOf(w.mem.value, slot).Some? && ExecOf(w.mem.value, slot).value.cmd.Cleared?)
    && (forall id :: id in w.mem.value.jobs ==>
          id in w1.mem.value.jobs && w1.mem.value.jobs[id].intents == w.mem.value.jobs[id].intents)
  }

  lemma BeginRefused(w: World, id: JobId, iid: string, action: Action, identity: Identity, now: int, v1: bool,
                     wr: Write,
                     v2: bool)
    requires w.mem.Some? && w.mem.value.required && w.mem.value.authority.None? && id in w.mem.value.jobs
    ensures NothingNew(w, BeginIntent(w, id, iid, action, identity, now, v1, wr, v2).0)
    ensures !BeginIntent(w, id, iid, action, identity, now, v1, wr, v2).1
  {
    BeginFrame(w, id, iid, action, identity, now, v1, wr, v2);
    BeginIntentMeans(w, id, iid, action, identity, now, v1, wr, v2);
    hide BeginIntent;
  }

  /** With an authority required and none installed, no step that needs one does anything new. */
  lemma RequiredRefuses(w: World, s: Step)
    requires w.mem.Some? && w.mem.value.required && w.mem.value.authority.None?
    requires s.SRunAdmit? || s.SReserve? || s.SCmdValidate? || s.SCmdBegin? || s.SResource?
    ensures NothingNew(w, Apply(w, s))
  {
    if s.SResource? || s.SCmdBegin? {
      IntentRefused(w, s);
    } else {
      hide Available;
    }
  }

  lemma IntentRefused(w: World, s: Step)
    requires w.mem.Some? && w.mem.value.required && w.mem.value.authority.None? && (s.SResource? || s.SCmdBegin?)
    ensures NothingNew(w, Apply(w, s))
  {
    hide BeginIntent, CommandId;
    if Acting(w, s.slot) {
      var e := ExecOf(w.mem.value, s.slot).value;
      match s
      case SResource(slot, iid, action, identity, now, v1, wr, v2) =>
        BeginRefused(w, e.id, iid, action, identity, now, v1, wr, v2);
      case SCmdBegin(slot, identity, now, v1, wr, v2) =>
        if e.cmd.Checked? { CommandRefused(w, slot, identity, now, v1, wr, v2); }
    }
  }

  lemma CommandRefused(w: World, slot: Slot, identity: Identity, now: int, v1: bool, wr: Write, v2: bool)
    requires w.mem.Some? && w.mem.value.required && w.mem.value.authority.None? && Acting(w, slot)
    requires ExecOf(w.mem.value, slot).value.cmd.Checked?
    ensures NothingNew(w, CmdBegin(w, slot, identity, now, v1, wr, v2))
  {
    hide BeginIntent, CommandId;
    var e := ExecOf(w.mem.value, slot).value;
    BeginRefused(WithCmd(w, slot, Idle), e.id, CommandId(e.cmd.sequence), Command, identity, now, v1, wr, v2);
  }
}
