/**
 Fencing by epoch. The lease may come to be held twice when the lock file is replaced, but that alone does
 no harm: only a session that may still overwrite the epoch file after others have moved it on does. With
 no such session around at a replacement, whoever passes validation holds the newest epoch, alone.
 */
module AuthorityFence {
  import opened Basics
  import opened Authority

  /** A session that may found the epoch file, and has another lock file open than `p` or has yet to open one. */
  ghost predicate Rival(h: Host, p: Phase)
    requires FileOpen(p)
  {
    exists f :: f in h.sessions && f in h.starts && RivalOf(h.sessions[f], h.starts[f].expected, p)
  }

  predicate RivalOf(f: Phase, expected: nat, p: Phase)
    requires FileOpen(p)
  {
    Founder(f, expected) && (f.Statted? || f.inode != p.inode)
  }

  /**
   A session with the lock file open that may yet overwrite the epoch file behind another session's back,
   should the lock file be replaced now.
   */
  ghost predicate MayOverwrite(h: Host, p: Phase, expected: nat) {
    match p
    case Statted(_) => false
    case Compared(_, _, _) => h.visible.Some? || Rival(h, p)
    case Renamed(_, _, _, _) => false
    case Leased(_, _, _) => false
    case _ =>
      && expected < MAX_EPOCH
      && (if h.visible.Some? then h.visible.value <= expected
          else if expected == 0 then !p.hadLock && Rival(h, p)
          else Rival(h, p) || (!p.Locked? && HasFile(h)))
  }

  /** Replacing the lock file now leaves the fence standing. */
  ghost predicate Calm(h: Host) {
    forall s :: s in h.sessions && s in h.starts ==> !MayOverwrite(h, h.sessions[s], h.starts[s].expected)
  }

  /** Whoever passes validation holds an epoch that no other session has acquired, and no later one is acquired. */
  ghost predicate Fenced(h: Host) {
    forall s, a :: ValidateOk(h, s) && a in h.log ==>
                     a.epoch < h.clients[s].epoch || (a.epoch == h.clients[s].epoch && a.sid == s)
  }

  /** What is harmless to the lease is harmless to the fence. */
  lemma HarmlessIsCalm(h: Host)
    requires Harmless(h)
    ensures Calm(h)
  {
    forall s | s in h.sessions && s in h.starts ensures !MayOverwrite(h, h.sessions[s], h.starts[s].expected) {
      assert !MayShare(h, h.sessions[s], h.starts[s].expected);
    }
  }

  // ---------------------------------------------------------------- invariant

  ghost predicate OldFilesCalm(h: Host) {
    forall s :: s in h.sessions && s in h.starts && FileOpen(h.sessions[s]) && h.lock != Some(h.sessions[s].inode)
                ==> !MayOverwrite(h, h.sessions[s], h.starts[s].expected)
  }

  /** The epoch file was advanced by this session. */
  predicate Claims(p: Phase) { p.Renamed? || p.Leased? }

  ghost predicate PhaseOk(visible: Option<nat>, p: Phase, expected: nat) {
    && (p.Greeted? || p.Locked? ==> p.expected == expected)
    && (p.Compared? ==> p.epoch == Value(visible) == expected && p.epoch < MAX_EPOCH)
    && (Claims(p) ==> visible.Some? && p.epoch <= visible.value)
  }

  ghost predicate PhasesOk(h: Host) {
    forall s :: s in h.sessions ==> s in h.starts && PhaseOk(h.visible, h.sessions[s], h.starts[s].expected)
  }

  ghost predicate ClaimsApart(sessions: map<Sid, Phase>) {
    forall s, t :: s in sessions && t in sessions && s != t && Claims(sessions[s]) && Claims(sessions[t]) ==>
                     sessions[s].epoch != sessions[t].epoch
  }

  /** An acquired epoch is claimed by nobody else. */
  ghost predicate LogApart(sessions: map<Sid, Phase>, log: seq<Acquisition>) {
    forall s, a :: s in sessions && Claims(sessions[s]) && a in log && a.epoch == sessions[s].epoch ==>
                     sessions[s].Leased? && a.sid == s
  }

  ghost predicate LogOnce(log: seq<Acquisition>) {
    forall i, j :: 0 <= i < j < |log| ==> log[i].epoch != log[j].epoch
  }

  ghost predicate LogBounded(h: Host) { forall a :: a in h.log ==> a.epoch <= Value(h.durable) && a.at <= h.tick }

  /** A client belongs to a session that was leased. */
  ghost predicate ClientsOk(h: Host) {
    forall c :: c in h.clients ==> c in h.starts && (c in h.sessions ==> h.sessions[c].Leased?)
  }

  ghost predicate FenceInv(h: Host) {
    && InodeInv(h) && OneHolder(h) && OldFilesCalm(h) && PhasesOk(h)
    && ClaimsApart(h.sessions) && LogApart(h.sessions, h.log) && LogOnce(h.log) && LogBounded(h) && ClientsOk(h)
    && Value(h.durable) <= Value(h.visible) <= MAX_EPOCH
  }

  /** A validation succeeds only for the newest epoch ever acquired, and for one session. */
  lemma ValidatedIsNewest(h: Host)
    requires FenceInv(h)
    ensures Fenced(h)
  {
    hide OldFilesCalm;
    forall s, a | ValidateOk(h, s) && a in h.log
      ensures a.epoch < h.clients[s].epoch || (a.epoch == h.clients[s].epoch && a.sid == s)
    {
      assert PhaseOk(h.visible, h.sessions[s], h.starts[s].expected) && Claims(h.sessions[s]);
    }
  }

  // ---------------------------------------------------------------- one session moves

  /** No session but `s` changes. */
  ghost predicate OnlyMoves(h: Host, h1: Host, s: Sid) {
    forall t :: t in h1.sessions && t != s ==>
                  && t in h.sessions && h1.sessions[t] == h.sessions[t]
                  && t in h.starts && t in h1.starts && h1.starts[t] == h.starts[t]
  }

  /** A founder after the move was one before it, with the same lock file or none. */
  ghost predicate NoNewFounder(h: Host, h1: Host, s: Sid) {
    s in h1.sessions && s in h1.starts && Founder(h1.sessions[s], h1.starts[s].expected) ==>
      && s in h.sessions && s in h.starts && Founder(h.sessions[s], h.starts[s].expected)
      && (h.sessions[s].Statted? || (FileOpen(h1.sessions[s]) && h1.sessions[s].inode == h.sessions[s].inode))
  }

  lemma RivalsStay(h: Host, h1: Host, s: Sid, p: Phase)
    requires OnlyMoves(h, h1, s) && NoNewFounder(h, h1, s) && h1.visible == h.visible && FileOpen(p)
    ensures (Rival(h1, p) ==> Rival(h, p)) && (HasFile(h1) ==> HasFile(h))
  {
    if Rival(h1, p) {
      var f :| f in h1.sessions && f in h1.starts && RivalOf(h1.sessions[f], h1.starts[f].expected, p);
      assert RivalOf(h.sessions[f], h.starts[f].expected, p);
    }
  }

  lemma CalmStays(h: Host, h1: Host, s: Sid)
    requires OldFilesCalm(h) && OnlyMoves(h, h1, s) && h1.visible == h.visible
    requires h.visible.Some? || NoNewFounder(h, h1, s)
    requires h1.lock == h.lock || forall t :: t in h1.sessions && t != s ==> !FileOpen(h1.sessions[t])
    requires s in h1.sessions && s in h1.starts && FileOpen(h1.sessions[s]) && h1.lock != Some(h1.sessions[s].inode) ==>
               !MayOverwrite(h1, h1.sessions[s], h1.starts[s].expected)
    ensures OldFilesCalm(h1)
  {
    forall t | t in h1.sessions && t in h1.starts && FileOpen(h1.sessions[t]) && h1.lock != Some(h1.sessions[t].inode)
      ensures !MayOverwrite(h1, h1.sessions[t], h1.starts[t].expected)
    {
      if t != s && h.visible.None? { RivalsStay(h, h1, s, h1.sessions[t]); }
      hide Rival, HasFile, NoNewFounder, OnlyMoves;
    }
  }

  lemma PhasesStay(h: Host, h1: Host, s: Sid)
    requires PhasesOk(h) && OnlyMoves(h, h1, s) && h1.visible == h.visible
    requires s in h1.sessions ==> s in h1.starts && PhaseOk(h1.visible, h1.sessions[s], h1.starts[s].expected)
    ensures PhasesOk(h1)
  {
    forall t | t in h1.sessions ensures t in h1.starts && PhaseOk(h1.visible, h1.sessions[t], h1.starts[t].expected) {
      if t != s { assert PhaseOk(h.visible, h.sessions[t], h.starts[t].expected); }
    }
  }

  /** A session without a claim moves on, or a session ends. */
  lemma PlainMove(h: Host, h1: Host, s: Sid)
    requires FenceInv(h) && OnlyMoves(h, h1, s)
    requires h1 == h.(sessions := h1.sessions, starts := h1.starts, lock := h1.lock, nextInode := h1.nextInode)
    requires InodeInv(h1) && OldFilesCalm(h1) && OneHolder(h1) && PhasesOk(h1)
    requires s in h1.sessions ==> !Claims(h1.sessions[s]) && s !in h.clients
    requires forall t :: t in h.starts ==> t in h1.starts
    ensures FenceInv(h1)
  {
    hide InodeInv, OldFilesCalm, OneHolder, PhasesOk;
  }

  lemma Moves(h: Host, s: Sid, p: Phase)
    requires FenceInv(h) && s in h.sessions && FileOpen(p) && FileOpen(h.sessions[s]) && p.inode == h.sessions[s].inode
    requires !Claims(p) && !h.sessions[s].Leased? && PhaseOk(h.visible, p, h.starts[s].expected)
    requires Holds(p) ==> Holds(h.sessions[s]) || LockFree(h, p.inode)
    requires h.visible.Some? || NoNewFounder(h, WithPhase(h, s, p), s)
    requires h.lock != Some(p.inode) ==> !MayOverwrite(WithPhase(h, s, p), p, h.starts[s].expected)
    ensures FenceInv(WithPhase(h, s, p))
  {
    var h1 := WithPhase(h, s, p);
    CalmStays(h, h1, s);
    HolderMoves(h, h1, s);
    PhasesStay(h, h1, s);
    hide OldFilesCalm, MayOverwrite, OneHolder, PhasesOk, NoNewFounder;
    PlainMove(h, h1, s);
  }

  lemma Ends(h: Host, s: Sid)
    requires FenceInv(h)
    ensures FenceInv(End(h, s))
  {
    var h1 := End(h, s);
    CalmStays(h, h1, s);
    HolderMoves(h, h1, s);
    PhasesStay(h, h1, s);
    hide OldFilesCalm, MayOverwrite, OneHolder, PhasesOk;
    PlainMove(h, h1, s);
  }

  lemma StatKeeps(h: Host, s: Sid, start: Start)
    requires FenceInv(h) && s !in h.starts
    ensures FenceInv(WithPhase(h, s, Statted(h.lock.Some?)).(starts := h.starts[s := start]))
  {
    hide OldFilesCalm, MayOverwrite;
    var h1 := WithPhase(h, s, Statted(h.lock.Some?)).(starts := h.starts[s := start]);
    NewSessionIsCalm(h, s, start);
    HolderMoves(h, h1, s);
    PhasesStay(h, h1, s);
    hide OneHolder, PhasesOk;
    PlainMove(h, h1, s);
  }

  lemma NewSessionIsCalm(h: Host, s: Sid, start: Start)
    requires InodeInv(h) && OldFilesCalm(h) && s !in h.starts && h.sessions.Keys <= h.starts.Keys
    ensures OldFilesCalm(WithPhase(h, s, Statted(h.lock.Some?)).(starts := h.starts[s := start]))
  {
    var h1 := WithPhase(h, s, Statted(h.lock.Some?)).(starts := h.starts[s := start]);
    if h.lock.Some? { CalmStays(h, h1, s); }
  }

  lemma OpenLockKeeps(h: Host, s: Sid)
    requires FenceInv(h)
    ensures FenceInv(Apply(h, OpenLock(s)))
  {
    var h1 := Apply(h, OpenLock(s));
    if h1 != h {
      CalmStays(h, h1, s);
      HolderMoves(h, h1, s);
      PhasesStay(h, h1, s);
      hide OldFilesCalm, MayOverwrite, OneHolder, PhasesOk;
      PlainMove(h, h1, s);
    }
  }

  /** Greeting and locking bring no session nearer to a lock file it does not have. */
  lemma WaitsOn(h: Host, s: Sid, p: Phase)
    requires FenceInv(h) && s in h.sessions && (h.sessions[s].Opened? || h.sessions[s].Greeted?)
    requires (p.Greeted? || p.Locked?) && p.inode == h.sessions[s].inode && p.hadLock == h.sessions[s].hadLock
    requires p.expected == h.starts[s].expected && (p.Locked? ==> LockFree(h, p.inode))
    ensures FenceInv(WithPhase(h, s, p))
  {
    var h1 := WithPhase(h, s, p);
    assert NoNewFounder(h, h1, s);
    RivalsStay(h, h1, s, p);
    assert Rival(h, p) == Rival(h, h.sessions[s]);
    assert MayOverwrite(h1, p, p.expected) ==> MayOverwrite(h, h.sessions[s], p.expected);
    hide Rival, HasFile, NoNewFounder, LockFree;
    Moves(h, s, p);
  }

  lemma HelloKeeps(h: Host, s: Sid, instance: string)
    requires FenceInv(h)
    ensures FenceInv(Apply(h, Hello(s, instance)))
  {
    hide FenceInv;
    if s in h.sessions && s in h.starts && h.sessions[s].Opened? {
      if ValidInstance(instance) {
        WaitsOn(h, s, Greeted(h.sessions[s].hadLock, h.sessions[s].inode, instance, h.starts[s].expected));
      } else {
        Ends(h, s);
      }
    }
  }

  lemma Expects(h: Host, s: Sid)
    requires FenceInv(h) && s in h.sessions
    ensures s in h.starts && PhaseOk(h.visible, h.sessions[s], h.starts[s].expected)
  {
  }

  lemma TakeLockKeeps(h: Host, s: Sid)
    requires FenceInv(h)
    ensures FenceInv(Apply(h, TakeLock(s)))
  {
    hide FenceInv;
    if s in h.sessions && h.sessions[s].Greeted? {
      var p := h.sessions[s];
      Expects(h, s);
      if LockFree(h, p.inode) {
        WaitsOn(h, s, Locked(p.hadLock, p.inode, p.instance, p.expected));
      } else {
        Ends(h, s);
      }
    }
  }

  // ---------------------------------------------------------------- the epoch file advances

  lemma AdmittedKeeps(h: Host, s: Sid)
    requires FenceInv(h) && s in h.sessions && h.sessions[s].Locked?
    requires Admits(h, h.sessions[s].hadLock, h.sessions[s].expected)
    ensures var p := h.sessions[s]; FenceInv(WithPhase(h, s, Compared(p.inode, p.instance, Value(h.visible))))
  {
    var p := h.sessions[s];
    var q := Compared(p.inode, p.instance, Value(h.visible));
    var h1 := WithPhase(h, s, q);
    Expects(h, s);
    if h.visible.Some? {
      assert MayOverwrite(h, p, h.starts[s].expected);
    } else {
      assert NoNewFounder(h, h1, s);
      RivalsStay(h, h1, s, q);
      assert Rival(h, q) == Rival(h, p);
      assert MayOverwrite(h1, q, 0) ==> MayOverwrite(h, p, 0);
    }
    hide Rival, HasFile, NoNewFounder;
    Moves(h, s, q);
  }

  lemma CompareKeeps(h: Host, s: Sid)
    requires FenceInv(h)
    ensures FenceInv(Apply(h, Compare(s)))
  {
    hide FenceInv, Admits;
    if s in h.sessions && h.sessions[s].Locked? {
      var p := h.sessions[s];
      if Admits(h, p.hadLock, p.expected) { AdmittedKeeps(h, s); } else { Ends(h, s); }
    }
  }

  /** Nobody else is past the comparison and has yet to advance the epoch file. */
  lemma ComparedAlone(h: Host, s: Sid, t: Sid)
    requires FenceInv(h) && s in h.sessions && t in h.sessions && h.sessions[s].Compared? && h.sessions[t].Compared?
    ensures s == t
  {
    if s != t {
      var p, q := h.sessions[s], h.sessions[t];
      assert s in h.starts && t in h.starts && p.inode != q.inode;
      assert RivalOf(q, h.starts[t].expected, p) && RivalOf(p, h.starts[s].expected, q);
      assert MayOverwrite(h, p, h.starts[s].expected) && MayOverwrite(h, q, h.starts[t].expected);
      assert false;
    }
  }

  /** A session with an old lock file cannot expect the epoch to come. */
  lemma OldWaitersMiss(h: Host, s: Sid, t: Sid)
    requires FenceInv(h) && s in h.sessions && h.sessions[s].Compared? && t in h.sessions && t != s
    requires FileOpen(h.sessions[t]) && h.lock != Some(h.sessions[t].inode)
    ensures !MayOverwrite(Apply(h, Rename(s, true)), h.sessions[t], h.starts[t].expected)
  {
    var p, q := h.sessions[s], h.sessions[t];
    assert s in h.starts && t in h.starts && !MayOverwrite(h, q, h.starts[t].expected);
    assert PhaseOk(h.visible, p, h.starts[s].expected);
    if q.Compared? { ComparedAlone(h, s, t); }
    if h.visible.None? && (q.Opened? || q.Greeted? || q.Locked?) && h.starts[t].expected > 0 {
      assert HasFile(h);
      assert p.inode != q.inode ==> RivalOf(p, h.starts[s].expected, q);
      assert p.inode == q.inode ==> !q.Locked?;
    }
  }

  lemma RenamedKeeps(h: Host, s: Sid)
    requires FenceInv(h) && s in h.sessions && h.sessions[s].Compared?
    ensures FenceInv(Apply(h, Rename(s, true)))
  {
    var h1 := Apply(h, Rename(s, true));
    HolderMoves(h, h1, s);
    forall t | t in h1.sessions && FileOpen(h1.sessions[t]) && h1.lock != Some(h1.sessions[t].inode)
      ensures !MayOverwrite(h1, h1.sessions[t], h1.starts[t].expected)
    {
      if t != s { OldWaitersMiss(h, s, t); }
    }
    assert OldFilesCalm(h1);
    RenamedPhases(h, s);
    hide OldFilesCalm, MayOverwrite, OneHolder, PhasesOk;
  }

  lemma RenamedPhases(h: Host, s: Sid)
    requires FenceInv(h) && s in h.sessions && h.sessions[s].Compared?
    ensures var h1 := Apply(h, Rename(s, true));
            && PhasesOk(h1) && ClaimsApart(h1.sessions) && LogApart(h1.sessions, h1.log) && ClientsOk(h1)
            && Value(h1.durable) <= Value(h1.visible) <= MAX_EPOCH
  {
    var h1 := Apply(h, Rename(s, true));
    assert PhaseOk(h.visible, h.sessions[s], h.starts[s].expected);
    forall t | t in h.sessions && t != s
      ensures t in h1.starts && PhaseOk(h1.visible, h1.sessions[t], h1.starts[t].expected)
      ensures Claims(h.sessions[t]) ==> h.sessions[t].epoch < h1.visible.value
    {
      assert PhaseOk(h.visible, h.sessions[t], h.starts[t].expected);
      if h.sessions[t].Compared? { ComparedAlone(h, s, t); }
    }
    hide OldFilesCalm, MayOverwrite, OneHolder;
  }

  lemma RenameKeeps(h: Host, s: Sid, done: bool)
    requires FenceInv(h)
    ensures FenceInv(Apply(h, Rename(s, done)))
  {
    hide FenceInv;
    if s in h.sessions && h.sessions[s].Compared? {
      if done { RenamedKeeps(h, s); } else { Ends(h, s); }
    }
  }

  lemma SyncedKeeps(h: Host, s: Sid)
    requires FenceInv(h) && s in h.sessions && h.sessions[s].Renamed?
    ensures FenceInv(Apply(h, Sync(s, true)))
  {
    hide OldFilesCalm;
    var h1 := Apply(h, Sync(s, true));
    assert PhaseOk(h.visible, h.sessions[s], h.starts[s].expected);
    CalmStays(h, h1, s);
    HolderMoves(h, h1, s);
    PhasesStay(h, h1, s);
    SyncedLog(h, s);
    hide MayOverwrite, OneHolder, PhasesOk, ClaimsApart, LogApart, LogOnce, LogBounded;
  }

  lemma SyncedLog(h: Host, s: Sid)
    requires ClaimsApart(h.sessions) && LogApart(h.sessions, h.log) && LogOnce(h.log) && LogBounded(h)
    requires Value(h.durable) <= Value(h.visible) && s in h.sessions && h.sessions[s].Renamed?
    requires h.sessions[s].epoch <= Value(h.visible)
    ensures var h1 := Apply(h, Sync(s, true));
            ClaimsApart(h1.sessions) && LogApart(h1.sessions, h1.log) && LogOnce(h1.log) && LogBounded(h1)
  {
    assert forall i :: 0 <= i < |h.log| ==> h.log[i] in h.log;
  }

  lemma SyncKeeps(h: Host, s: Sid, ok: bool)
    requires FenceInv(h)
    ensures FenceInv(Apply(h, Sync(s, ok)))
  {
    hide FenceInv;
    if s in h.sessions && h.sessions[s].Renamed? {
      if ok { SyncedKeeps(h, s); } else { Ends(h, s); }
    }
  }

  // ---------------------------------------------------------------- every step

  /** Moments and directories matter to nobody's phase, and clients only of leased sessions. */
  lemma RestKeeps(h: Host, h1: Host)
    requires FenceInv(h) && h.tick <= h1.tick && h1 == h.(clients := h1.clients, dirs := h1.dirs, tick := h1.tick)
    requires ClientsOk(h1)
    ensures FenceInv(h1) && (Calm(h) ==> Calm(h1))
  {
    assert HasFile(h1) == HasFile(h);
    assert forall p :: FileOpen(p) ==> Rival(h1, p) == Rival(h, p);
    hide HasFile, Rival;
  }

  lemma CrashKeeps(h: Host, revert: bool)
    requires FenceInv(h)
    ensures FenceInv(Apply(h, HostCrash(revert)))
  {
    hide MayOverwrite;
  }

  lemma OtherKeeps(h: Host, st: Step)
    requires FenceInv(h)
    requires || st.Enable? || st.Deliver? || st.Validate? || st.EndSession? || st.Poison? || st.HostCrash?
             || st.Record? || st.CopyDir?
    ensures FenceInv(Apply(h, st))
  {
    var h1 := Apply(h, st);
    if st.HostCrash? {
      CrashKeeps(h, st.revert);
    } else if st.EndSession? || (st.Validate? && h1 != h) {
      Ends(h, st.sid);
      RestKeeps(End(h, st.sid), h1);
    } else {
      assert ClientsOk(h1);
      hide FenceInv, ValidateOk;
      RestKeeps(h, h1);
    }
  }

  lemma ReplaceKeeps(h: Host)
    requires FenceInv(h) && Calm(h)
    ensures FenceInv(Apply(h, ReplaceLock))
  {
    var h1 := Apply(h, ReplaceLock);
    assert HasFile(h1) == HasFile(h);
    assert forall p :: FileOpen(p) ==> Rival(h1, p) == Rival(h, p);
    hide HasFile, Rival;
  }

  lemma StepKeeps(h: Host, t: nat, st: Step)
    requires FenceInv(h) && h.tick <= t && (st.ReplaceLock? ==> Calm(h))
    ensures FenceInv(StepAt(h, t, st))
  {
    var h0 := h.(tick := t);
    assert ClientsOk(h0);
    hide FenceInv, Calm, ClientsOk;
    RestKeeps(h, h0);
    match st
    case Stat(s, dir, override) =>
      if s !in h.starts && dir in h.dirs {
        var expected := if override.Some? then override.value else h.dirs[dir];
        StatKeeps(h0, s, Start(dir, expected, override.Some?));
      }
    case OpenLock(s) => OpenLockKeeps(h0, s);
    case Hello(s, instance) => HelloKeeps(h0, s, instance);
    case TakeLock(s) => TakeLockKeeps(h0, s);
    case Compare(s) => CompareKeeps(h0, s);
    case Rename(s, done) => RenameKeeps(h0, s, done);
    case Sync(s, ok) => SyncKeeps(h0, s, ok);
    case ReplaceLock => ReplaceKeeps(h0);
    case _ => OtherKeeps(h0, st);
  }

  // ---------------------------------------------------------------- every run

  /** The lock file is replaced, if at all, only when that is calm. */
  ghost predicate CalmRun(h: Host, steps: seq<Step>) {
    forall i :: 0 <= i < |steps| && steps[i].ReplaceLock? ==> Calm(Run(h, steps[..i]))
  }

  /** The runs in which the lease is exclusive are among these. */
  lemma CarefulIsCalm(h: Host, steps: seq<Step>)
    requires Careful(h, steps)
    ensures CalmRun(h, steps)
  {
    hide Run, Harmless, Calm;
    forall i | 0 <= i < |steps| && steps[i].ReplaceLock? ensures Calm(Run(h, steps[..i])) {
      HarmlessIsCalm(Run(h, steps[..i]));
    }
  }

  lemma CalmFront(h: Host, steps: seq<Step>)
    requires CalmRun(h, steps) && steps != []
    ensures CalmRun(h, steps[..|steps| - 1])
    ensures steps[|steps| - 1].ReplaceLock? ==> Calm(Run(h, steps[..|steps| - 1]))
  {
    hide Run, Calm;
    assert forall i :: 0 <= i < |steps| - 1 ==> steps[..|steps| - 1][..i] == steps[..i];
  }

  lemma {:induction false} RunKeeps(h: Host, steps: seq<Step>)
    requires FenceInv(h) && CalmRun(h, steps)
    ensures FenceInv(Run(h, steps))
  {
    hide FenceInv, Apply, Calm, CalmRun;
    if steps != [] {
      CalmFront(h, steps);
      RunKeeps(h, steps[..|steps| - 1]);
      var h0 := Run(h, steps[..|steps| - 1]);
      StepKeeps(h0, h0.tick + 1, steps[|steps| - 1]);
    }
  }

  /**
   Over every run in which the lock file is replaced, if at all, only when that is calm, leased sessions
   notwithstanding: each epoch is acquired once, and whoever passes validation holds the newest one, alone.
   */
  lemma FenceInEveryRun(steps: seq<Step>)
    requires CalmRun(FreshHost, steps)
    ensures var h := Run(FreshHost, steps); Fenced(h) && LogOnce(h.log)
  {
    hide CalmRun, Run, Fenced;
    RunKeeps(FreshHost, steps);
    ValidatedIsNewest(Run(FreshHost, steps));
  }
}
