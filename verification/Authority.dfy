/**
 The execution lease: helper sessions on an independent host take a file lock, compare and advance an
 epoch file, and answer validations; clients keep the epoch they acquired. Each session is started by a
 process from a data directory whose policy file records an epoch. Any number of sessions and (possibly
 copied) directories take part, and any process or the host may die at any step.
 */
module Authority {
  import opened Basics

  type Sid = nat
  type Dir = nat
  type Inode = nat

  const MAX_EPOCH: nat := 0xFFFF_FFFF_FFFF_FFFF

  /** Where a helper process is. From `Locked` on it holds the lock of its inode. */
  datatype Phase =
    | Statted(hadLock: bool)
    | Opened(hadLock: bool, inode: Inode)
    | Greeted(hadLock: bool, inode: Inode, instance: string, expected: nat)
    | Locked(hadLock: bool, inode: Inode, instance: string, expected: nat)
    | Compared(inode: Inode, instance: string, epoch: nat)
    | Renamed(inode: Inode, instance: string, spent: nat, epoch: nat)
    | Leased(inode: Inode, instance: string, epoch: nat)

  predicate Holds(p: Phase) { p.Locked? || p.Compared? || p.Renamed? || p.Leased? }

  /** Past the comparison of epochs: on the way to the lease, or in it. */
  predicate Active(p: Phase) { p.Compared? || p.Renamed? || p.Leased? }

  /** The lock file is open. */
  predicate FileOpen(p: Phase) { !p.Statted? }

  /** How a management process starts: from a directory, with the epoch it will name in its greeting. */
  datatype Start = Start(dir: Dir, expected: nat, overridden: bool)

  /** A management process's end of the transport. */
  datatype Client = Client(instance: string, epoch: nat, poisoned: bool)

  datatype Acquisition = Acquisition(sid: Sid, expected: nat, epoch: nat, at: nat)

  /** `dirs` are the recorded epochs; `starts` never forgets a session, and `log` every lease taken. */
  datatype Host = Host(
    lock: Option<Inode>, nextInode: Inode, visible: Option<nat>, durable: Option<nat>,
    sessions: map<Sid, Phase>, clients: map<Sid, Client>, dirs: map<Dir, nat>,
    starts: map<Sid, Start>, log: seq<Acquisition>, tick: nat)

  const FreshHost := Host(None, 0, None, None, map[], map[], map[], map[], [], 0)

  function Value(e: Option<nat>): nat { if e.Some? then e.value else 0 }

  ghost predicate LockFree(h: Host, inode: Inode) {
    forall s :: s in h.sessions && Holds(h.sessions[s]) ==> h.sessions[s].inode != inode
  }

  predicate ValidChar(c: char) {
    'a' <= c <= 'z' || 'A' <= c <= 'Z' || '0' <= c <= '9' || c == '-'
  }

  predicate ValidInstance(s: string) {
    1 <= |s| <= 128 && forall i :: 0 <= i < |s| ==> ValidChar(s[i])
  }

  datatype Step =
    | Enable(dir: Dir, wr: Write)
    | Stat(sid: Sid, dir: Dir, override: Option<nat>)
    | OpenLock(sid: Sid)
    | Hello(sid: Sid, instance: string)
    | TakeLock(sid: Sid)
    | Compare(sid: Sid)
    | Rename(sid: Sid, done: bool)
    | Sync(sid: Sid, ok: bool)
    | Deliver(sid: Sid)
    | Validate(sid: Sid)
    | EndSession(sid: Sid)
    | Poison(sid: Sid)
    | HostCrash(revert: bool)
    | Record(sid: Sid, wr: Write)
    | CopyDir(from: Dir, to: Dir)
    | ReplaceLock

  function End(h: Host, s: Sid): Host { h.(sessions := h.sessions - {s}) }

  function WithPhase(h: Host, s: Sid, p: Phase): Host { h.(sessions := h.sessions[s := p]) }

  /** The helper's test for one validation request, and the client's own tests around it. */
  predicate ValidateOk(h: Host, s: Sid) {
    && s in h.sessions && h.sessions[s].Leased?
    && s in h.clients && !h.clients[s].poisoned
    && h.clients[s].instance == h.sessions[s].instance && h.clients[s].epoch == h.sessions[s].epoch
    && h.visible == Some(h.sessions[s].epoch)
    && h.lock == Some(h.sessions[s].inode)
  }

  /** The epoch file admits a session that expects `expected`. */
  predicate Admits(h: Host, hadLock: bool, expected: nat) {
    !(h.visible.None? && hadLock) && Value(h.visible) != MAX_EPOCH && expected == Value(h.visible)
  }

  ghost function Apply(h: Host, st: Step): Host {
    match st
    case Enable(dir, wr) => if dir in h.dirs then h else h.(dirs := Save(h.dirs, dir, 0, wr))
    case Stat(s, dir, override) =>
      if s in h.starts || dir !in h.dirs then h
      else
        var expected := if override.Some? then override.value else h.dirs[dir];
        WithPhase(h, s, Statted(h.lock.Some?)).(starts := h.starts[s := Start(dir, expected, override.Some?)])
    case OpenLock(s) =>
      if s !in h.sessions || !h.sessions[s].Statted? then h
      else
        var inode := if h.lock.Some? then h.lock.value else h.nextInode;
        WithPhase(h, s, Opened(h.sessions[s].hadLock, inode))
        .(lock := Some(inode), nextInode := if h.lock.Some? then h.nextInode else h.nextInode + 1)
    case Hello(s, instance) =>
      if s !in h.sessions || s !in h.starts || !h.sessions[s].Opened? then h
      else if !ValidInstance(instance) then End(h, s)
      else WithPhase(h, s, Greeted(h.sessions[s].hadLock, h.sessions[s].inode, instance, h.starts[s].expected))
    case TakeLock(s) =>
      if s !in h.sessions || !h.sessions[s].Greeted? then h
      else
        var p := h.sessions[s];
        if LockFree(h, p.inode) then WithPhase(h, s, Locked(p.hadLock, p.inode, p.instance, p.expected)) else End(h, s)
    case Compare(s) =>
      if s !in h.sessions || !h.sessions[s].Locked? then h
      else
        var p := h.sessions[s];
        if Admits(h, p.hadLock, p.expected) then WithPhase(h, s, Compared(p.inode, p.instance, Value(h.visible)))
        else End(h, s)
    case Rename(s, done) =>
      if s !in h.sessions || !h.sessions[s].Compared? then h
      else if !done then End(h, s)
      else
        var p := h.sessions[s];
        WithPhase(h, s, Renamed(p.inode, p.instance, p.epoch, p.epoch + 1)).(visible := Some(p.epoch + 1))
    case Sync(s, ok) =>
      if s !in h.sessions || !h.sessions[s].Renamed? then h
      else if !ok then End(h, s)
      else
        var p := h.sessions[s];
        WithPhase(h, s, Leased(p.inode, p.instance, p.epoch))
        .(durable := h.visible, log := h.log + [Acquisition(s, p.spent, p.epoch, h.tick)])
    case Deliver(s) =>
      if s !in h.sessions || !h.sessions[s].Leased? || s in h.clients then h
      else h.(clients := h.clients[s := Client(h.sessions[s].instance, h.sessions[s].epoch, false)])
    case Validate(s) =>
      if ValidateOk(h, s) || s !in h.clients then h
      else End(h, s).(clients := h.clients[s := h.clients[s].(poisoned := true)])
    case EndSession(s) => End(h, s)
    case Poison(s) => if s !in h.clients then h else h.(clients := h.clients[s := h.clients[s].(poisoned := true)])
    case HostCrash(revert) => h.(sessions := map[], visible := if revert then h.durable else h.visible)
    case Record(s, wr) =>
      if s !in h.clients || s !in h.starts then h
      else h.(dirs := Save(h.dirs, h.starts[s].dir, h.clients[s].epoch, wr))
    case CopyDir(from, to) => if from !in h.dirs then h else h.(dirs := h.dirs[to := h.dirs[from]])
    case ReplaceLock => h.(lock := Some(h.nextInode), nextInode := h.nextInode + 1)
  }

  /** One step at a later moment. */
  ghost function StepAt(h: Host, t: nat, st: Step): Host { Apply(h.(tick := t), st) }

  ghost function Next(h: Host, st: Step): Host { StepAt(h, h.tick + 1, st) }

  ghost function Run(h: Host, steps: seq<Step>): Host {
    if steps == [] then h else Next(Run(h, steps[..|steps| - 1]), steps[|steps| - 1])
  }

  // ---------------------------------------------------------------- who can still lease

  /** An epoch file exists, or some session may still create it. */
  ghost predicate HasFile(h: Host) {
    || h.visible.Some?
    || exists s :: s in h.sessions && s in h.starts && Founder(h.sessions[s], h.starts[s].expected)
  }

  /** A session that found no lock file and expects epoch 0 may create the epoch file. */
  predicate Founder(p: Phase, expected: nat) {
    p.Compared? || ((p.Statted? || p.Opened? || p.Greeted? || p.Locked?) && !p.hadLock && expected == 0)
  }

  /**
   A session with the lock file open that may yet share the lease with another one, should the lock file
   be replaced now: it holds the lease or is on the way to it, and the epoch it waits for is still to come.
   */
  ghost predicate MayShare(h: Host, p: Phase, expected: nat) {
    match p
    case Statted(_) => false
    case Compared(_, _, _) => true
    case Renamed(_, _, _, epoch) => epoch < MAX_EPOCH
    case Leased(_, _, epoch) => epoch < MAX_EPOCH
    case _ =>
      && expected < MAX_EPOCH
      && (if h.visible.Some? then h.visible.value <= expected
          else (expected == 0 && !p.hadLock) || (expected > 0 && HasFile(h)))
  }

  /** Replacing the lock file now harms nothing. */
  ghost predicate Harmless(h: Host) {
    forall s :: s in h.sessions && s in h.starts ==> !MayShare(h, h.sessions[s], h.starts[s].expected)
  }

  // ---------------------------------------------------------------- invariant

  /** Every open lock file is an old one or the present one. */
  ghost predicate InodeInv(h: Host) {
    && (h.lock.Some? ==> h.lock.value < h.nextInode)
    && (forall s :: s in h.sessions && FileOpen(h.sessions[s]) ==> h.lock.Some? && h.sessions[s].inode < h.nextInode)
  }

  /** The lock of one file has one holder, whatever happens to the path. */
  ghost predicate OneHolder(h: Host) {
    forall s, t :: s in h.sessions && t in h.sessions && Holds(h.sessions[s]) && Holds(h.sessions[t]) && s != t ==>
                     h.sessions[s].inode != h.sessions[t].inode
  }

  ghost predicate OneActive(h: Host) {
    forall s, t :: s in h.sessions && t in h.sessions && Active(h.sessions[s]) && Active(h.sessions[t]) ==> s == t
  }

  /** Whoever has a replaced lock file open is past any chance of sharing the lease. */
  ghost predicate OldFilesHarmless(h: Host) {
    forall s :: s in h.sessions && s in h.starts && FileOpen(h.sessions[s]) && h.lock != Some(h.sessions[s].inode)
                ==> !MayShare(h, h.sessions[s], h.starts[s].expected)
  }

  /** The newest epoch ever acquired. */
  function Newest(log: seq<Acquisition>): nat { if log == [] then 0 else log[|log| - 1].epoch }

  ghost predicate Increasing(log: seq<Acquisition>) {
    forall i, j :: 0 <= i < j < |log| ==> log[i].epoch < log[j].epoch
  }

  ghost predicate LogInv(log: seq<Acquisition>, starts: map<Sid, Start>, tick: nat) {
    && Increasing(log)
    && (forall a :: a in log ==> && a.epoch == a.expected + 1 && a.at <= tick
                                 && a.sid in starts && a.expected == starts[a.sid].expected)
  }

  ghost predicate PhaseInv(h: Host, p: Phase, expected: nat) {
    && (p.Greeted? || p.Locked? ==> p.expected == expected)
    && (p.Compared? ==> p.epoch == Value(h.visible) == expected && p.epoch < MAX_EPOCH)
    && (p.Renamed? ==> && h.visible == Some(p.epoch) && p.spent == expected && p.epoch == p.spent + 1
                       && p.epoch > Newest(h.log))
    && (p.Leased? ==> h.visible == Some(p.epoch) && p.epoch == Newest(h.log))
  }

  ghost predicate PhasesInv(h: Host) {
    forall s :: s in h.sessions ==> s in h.starts && PhaseInv(h, h.sessions[s], h.starts[s].expected)
  }

  ghost predicate Inv(h: Host) {
    && InodeInv(h) && OneHolder(h) && OneActive(h) && OldFilesHarmless(h)
    && LogInv(h.log, h.starts, h.tick) && PhasesInv(h)
    && Newest(h.log) <= Value(h.durable) <= Value(h.visible) <= MAX_EPOCH
    && (h.visible.Some? ==> h.visible.value > 0) && (h.durable.Some? ==> h.durable.value > 0)
  }

  lemma NewestIsMax(log: seq<Acquisition>)
    requires Increasing(log)
    ensures forall a :: a in log ==> a.epoch <= Newest(log)
  {
  }

  /** What ends a chance to share the lease never brings it back while the file grows or stays. */
  lemma NoNewChance(h: Host, h1: Host, p: Phase, expected: nat)
    requires !MayShare(h, p, expected)
    requires HasFile(h1) ==> HasFile(h)
    requires h.visible == h1.visible || (h1.visible.Some? && Value(h.visible) < h1.visible.value && !Active(p))
    ensures !MayShare(h1, p, expected)
  {
  }

  /** Only `s` moves, and nothing gives a session with an old lock file a new chance. */
  lemma OldFilesKept(h: Host, h1: Host, s: Sid)
    requires OldFilesHarmless(h) && h1.visible == h.visible && (HasFile(h1) ==> HasFile(h))
    requires forall t :: t in h1.sessions && t != s ==>
                           && t in h.sessions && h1.sessions[t] == h.sessions[t]
                           && t in h.starts && t in h1.starts && h1.starts[t] == h.starts[t]
    requires h1.lock == h.lock || forall t :: t in h1.sessions && t != s ==> !FileOpen(h1.sessions[t])
    requires s in h1.sessions && s in h1.starts && FileOpen(h1.sessions[s]) && h1.lock != Some(h1.sessions[s].inode) ==>
               !MayShare(h1, h1.sessions[s], h1.starts[s].expected)
    ensures OldFilesHarmless(h1)
  {
    hide HasFile;
    forall t | t in h1.sessions && t in h1.starts && FileOpen(h1.sessions[t]) && h1.lock != Some(h1.sessions[t].inode)
      ensures !MayShare(h1, h1.sessions[t], h1.starts[t].expected)
    {
      if t != s { NoNewChance(h, h1, h.sessions[t], h.starts[t].expected); }
    }
  }

  /** Only `s` moves, and comes to hold a lock only if that lock was free. */
  lemma HolderMoves(h: Host, h1: Host, s: Sid)
    requires OneHolder(h)
    requires forall t :: t in h1.sessions && t != s ==> t in h.sessions && h1.sessions[t] == h.sessions[t]
    requires s in h1.sessions && Holds(h1.sessions[s]) ==>
               || LockFree(h, h1.sessions[s].inode)
               || (s in h.sessions && Holds(h.sessions[s]) && h.sessions[s].inode == h1.sessions[s].inode)
    ensures OneHolder(h1)
  {
  }

  /** The epoch file and the log stay, and only `s` moves. */
  lemma PhasesMove(h: Host, h1: Host, s: Sid)
    requires PhasesInv(h) && h1.visible == h.visible && h1.log == h.log
    requires forall t :: t in h1.sessions && t != s ==>
                           && t in h.sessions && h1.sessions[t] == h.sessions[t]
                           && t in h.starts && t in h1.starts && h1.starts[t] == h.starts[t]
    requires s in h1.sessions ==> s in h1.starts && PhaseInv(h1, h1.sessions[s], h1.starts[s].expected)
    ensures PhasesInv(h1)
  {
    forall t | t in h1.sessions ensures t in h1.starts && PhaseInv(h1, h1.sessions[t], h1.starts[t].expected) {
      if t != s { assert PhaseInv(h, h.sessions[t], h.starts[t].expected); }
    }
  }

  lemma ActiveMoves(h: Host, h1: Host, s: Sid)
    requires OneActive(h)
    requires forall t :: t in h1.sessions && t != s ==> t in h.sessions && h1.sessions[t] == h.sessions[t]
    requires s in h1.sessions && Active(h1.sessions[s]) ==>
               || (s in h.sessions && Active(h.sessions[s]))
               || forall t :: t in h.sessions ==> !Active(h.sessions[t])
    ensures OneActive(h1)
  {
  }

  /** A session moves on without passing the comparison of epochs. */
  lemma MoveKeepsInv(h: Host, s: Sid, p: Phase)
    requires Inv(h) && s in h.sessions && !Active(p) && !Active(h.sessions[s])
    requires FileOpen(p) && FileOpen(h.sessions[s]) && p.inode == h.sessions[s].inode
    requires p.hadLock == h.sessions[s].hadLock && PhaseInv(h, p, h.starts[s].expected)
    requires Holds(p) ==> LockFree(h, p.inode)
    ensures Inv(WithPhase(h, s, p))
  {
    var h1 := WithPhase(h, s, p);
    assert HasFile(h1) ==> HasFile(h);
    OldFilesKept(h, h1, s);
    HolderMoves(h, h1, s);
    ActiveMoves(h, h1, s);
    PhasesMove(h, h1, s);
    hide OldFilesHarmless, HasFile, MayShare, OneHolder, OneActive, PhasesInv;
  }

  lemma EndKeepsInv(h: Host, s: Sid)
    requires Inv(h)
    ensures Inv(End(h, s))
  {
    var h1 := End(h, s);
    assert HasFile(h1) ==> HasFile(h);
    OldFilesKept(h, h1, s);
    HolderMoves(h, h1, s);
    ActiveMoves(h, h1, s);
    PhasesMove(h, h1, s);
    hide OldFilesHarmless, HasFile, MayShare, OneHolder, OneActive, PhasesInv;
  }

  /** Moments, clients and directories matter to nobody's phase. */
  lemma RestIsFree(h: Host, h1: Host)
    requires Inv(h) && h.tick <= h1.tick
    requires h1 == h.(clients := h1.clients, dirs := h1.dirs, tick := h1.tick)
    ensures Inv(h1) && (Harmless(h) ==> Harmless(h1))
  {
    assert HasFile(h1) == HasFile(h);
  }

  lemma NewSessionKeepsInv(h: Host, s: Sid, start: Start)
    requires Inv(h) && s !in h.starts
    ensures Inv(WithPhase(h, s, Statted(h.lock.Some?)).(starts := h.starts[s := start]))
  {
    var h1 := WithPhase(h, s, Statted(h.lock.Some?)).(starts := h.starts[s := start]);
    NewSessionIsHarmless(h, s, start);
    HolderMoves(h, h1, s);
    ActiveMoves(h, h1, s);
    PhasesMove(h, h1, s);
    hide OldFilesHarmless, OneHolder, OneActive, PhasesInv;
  }

  lemma NewSessionIsHarmless(h: Host, s: Sid, start: Start)
    requires InodeInv(h) && OldFilesHarmless(h) && s !in h.starts && h.sessions.Keys <= h.starts.Keys
    ensures OldFilesHarmless(WithPhase(h, s, Statted(h.lock.Some?)).(starts := h.starts[s := start]))
  {
    var h1 := WithPhase(h, s, Statted(h.lock.Some?)).(starts := h.starts[s := start]);
    if h.lock.Some? {
      assert HasFile(h1) ==> HasFile(h);
      OldFilesKept(h, h1, s);
    }
  }

  lemma StatKeepsInv(h: Host, s: Sid, dir: Dir, override: Option<nat>)
    requires Inv(h)
    ensures Inv(Apply(h, Stat(s, dir, override)))
  {
    hide Inv;
    if s !in h.starts && dir in h.dirs {
      var expected := if override.Some? then override.value else h.dirs[dir];
      NewSessionKeepsInv(h, s, Start(dir, expected, override.Some?));
    }
  }

  lemma OpenLockKeepsInv(h: Host, s: Sid)
    requires Inv(h)
    ensures Inv(Apply(h, OpenLock(s)))
  {
    var h1 := Apply(h, OpenLock(s));
    if h1 != h {
      assert HasFile(h1) ==> HasFile(h);
      OldFilesKept(h, h1, s);
      HolderMoves(h, h1, s);
      ActiveMoves(h, h1, s);
      PhasesMove(h, h1, s);
      hide OldFilesHarmless, HasFile, MayShare, OneHolder, OneActive, PhasesInv;
    }
  }

  lemma HelloKeepsInv(h: Host, s: Sid, instance: string)
    requires Inv(h)
    ensures Inv(Apply(h, Hello(s, instance)))
  {
    hide Inv;
    if s in h.sessions && s in h.starts && h.sessions[s].Opened? {
      if ValidInstance(instance) {
        MoveKeepsInv(h, s, Greeted(h.sessions[s].hadLock, h.sessions[s].inode, instance, h.starts[s].expected));
      } else {
        EndKeepsInv(h, s);
      }
    }
  }

  lemma GreetedExpects(h: Host, s: Sid)
    requires Inv(h) && s in h.sessions && (h.sessions[s].Greeted? || h.sessions[s].Locked?)
    ensures s in h.starts && h.sessions[s].expected == h.starts[s].expected
  {
  }

  lemma TakeLockKeepsInv(h: Host, s: Sid)
    requires Inv(h)
    ensures Inv(Apply(h, TakeLock(s)))
  {
    hide Inv;
    if s in h.sessions && h.sessions[s].Greeted? {
      var p := h.sessions[s];
      GreetedExpects(h, s);
      if LockFree(h, p.inode) {
        MoveKeepsInv(h, s, Locked(p.hadLock, p.inode, p.instance, p.expected));
      } else {
        EndKeepsInv(h, s);
      }
    }
  }

  /** Whoever passes the comparison of epochs has the present lock file open and is alone past it. */
  lemma ComparedAlone(h: Host, s: Sid)
    requires Inv(h) && s in h.sessions && h.sessions[s].Locked?
    requires Admits(h, h.sessions[s].hadLock, h.sessions[s].expected)
    ensures h.lock == Some(h.sessions[s].inode)
    ensures forall t :: t in h.sessions ==> !Active(h.sessions[t])
  {
    GreetedExpects(h, s);
    assert MayShare(h, h.sessions[s], h.starts[s].expected);
    forall t | t in h.sessions ensures !Active(h.sessions[t]) {
      assert PhaseInv(h, h.sessions[t], h.starts[t].expected);
      if Active(h.sessions[t]) { assert MayShare(h, h.sessions[t], h.starts[t].expected); }
    }
  }

  lemma AdmittedKeepsInv(h: Host, s: Sid)
    requires Inv(h) && s in h.sessions && h.sessions[s].Locked?
    requires Admits(h, h.sessions[s].hadLock, h.sessions[s].expected)
    ensures var p := h.sessions[s]; Inv(WithPhase(h, s, Compared(p.inode, p.instance, Value(h.visible))))
  {
    var p := h.sessions[s];
    var h1 := WithPhase(h, s, Compared(p.inode, p.instance, Value(h.visible)));
    GreetedExpects(h, s);
    ComparedAlone(h, s);
    assert HasFile(h1) ==> HasFile(h);
    OldFilesKept(h, h1, s);
    HolderMoves(h, h1, s);
    ActiveMoves(h, h1, s);
    PhasesMove(h, h1, s);
    hide OldFilesHarmless, HasFile, MayShare, OneHolder, OneActive, PhasesInv;
  }

  lemma CompareKeepsInv(h: Host, s: Sid)
    requires Inv(h)
    ensures Inv(Apply(h, Compare(s)))
  {
    hide Inv, Admits;
    if s !in h.sessions || !h.sessions[s].Locked? {
      return;
    }
    var p := h.sessions[s];
    if Admits(h, p.hadLock, p.expected) {
      AdmittedKeepsInv(h, s);
    } else {
      EndKeepsInv(h, s);
    }
  }

  lemma RenamedIsHarmless(h: Host, s: Sid)
    requires Inv(h) && s in h.sessions && h.sessions[s].Compared?
    ensures OldFilesHarmless(Apply(h, Rename(s, true)))
  {
    var h1 := Apply(h, Rename(s, true));
    assert MayShare(h, h.sessions[s], h.starts[s].expected) && HasFile(h);
    assert PhaseInv(h, h.sessions[s], h.starts[s].expected);
    forall t | t in h1.sessions && FileOpen(h1.sessions[t]) && h1.lock != Some(h1.sessions[t].inode)
      ensures !MayShare(h1, h1.sessions[t], h1.starts[t].expected)
    {
      NoNewChance(h, h1, h.sessions[t], h.starts[t].expected);
    }
  }

  lemma RenamedKeepsInv(h: Host, s: Sid)
    requires Inv(h) && s in h.sessions && h.sessions[s].Compared?
    ensures Inv(Apply(h, Rename(s, true)))
  {
    var h1 := Apply(h, Rename(s, true));
    RenamedIsHarmless(h, s);
    HolderMoves(h, h1, s);
    ActiveMoves(h, h1, s);
    assert PhaseInv(h, h.sessions[s], h.starts[s].expected);
    hide OldFilesHarmless, OneHolder;
  }

  lemma RenameKeepsInv(h: Host, s: Sid, done: bool)
    requires Inv(h)
    ensures Inv(Apply(h, Rename(s, done)))
  {
    hide Inv;
    if s in h.sessions && h.sessions[s].Compared? {
      if done { RenamedKeepsInv(h, s); } else { EndKeepsInv(h, s); }
    }
  }

  lemma SyncedIsHarmless(h: Host, s: Sid)
    requires Inv(h) && s in h.sessions && h.sessions[s].Renamed?
    ensures OldFilesHarmless(Apply(h, Sync(s, true)))
  {
    OldFilesKept(h, Apply(h, Sync(s, true)), s);
  }

  lemma SyncedKeepsInv(h: Host, s: Sid)
    requires Inv(h) && s in h.sessions && h.sessions[s].Renamed?
    ensures Inv(Apply(h, Sync(s, true)))
  {
    hide OldFilesHarmless;
    var h1 := Apply(h, Sync(s, true));
    assert PhaseInv(h, h.sessions[s], h.starts[s].expected);
    SyncedIsHarmless(h, s);
    HolderMoves(h, h1, s);
    ActiveMoves(h, h1, s);
    hide OneHolder;
    NewestIsMax(h.log);
    assert h1.log[|h1.log| - 1] == h1.log[|h.log|];
  }

  lemma SyncKeepsInv(h: Host, s: Sid, ok: bool)
    requires Inv(h)
    ensures Inv(Apply(h, Sync(s, ok)))
  {
    hide Inv;
    if s in h.sessions && h.sessions[s].Renamed? {
      if ok { SyncedKeepsInv(h, s); } else { EndKeepsInv(h, s); }
    }
  }

  lemma RestKeepsInv(h: Host, st: Step)
    requires Inv(h)
    requires || st.Enable? || st.Deliver? || st.Validate? || st.EndSession? || st.Poison? || st.HostCrash?
             || st.Record? || st.CopyDir?
    ensures Inv(Apply(h, st))
  {
    hide Inv, ValidateOk;
    var h1 := Apply(h, st);
    if st.HostCrash? {
      CrashKeepsInv(h, st.revert);
    } else if st.EndSession? || (st.Validate? && h1 != h) {
      EndKeepsInv(h, st.sid);
      RestIsFree(End(h, st.sid), h1);
    } else {
      RestIsFree(h, h1);
    }
  }

  lemma CrashKeepsInv(h: Host, revert: bool)
    requires Inv(h)
    ensures Inv(Apply(h, HostCrash(revert)))
  {
    hide MayShare, HasFile;
  }

  lemma ReplaceKeepsInv(h: Host)
    requires Inv(h) && Harmless(h)
    ensures Inv(Apply(h, ReplaceLock))
  {
    var h1 := Apply(h, ReplaceLock);
    assert HasFile(h1) ==> HasFile(h);
  }

  /** Every step keeps the invariant, replacing the lock file included when that is harmless. */
  lemma StepKeepsInv(h: Host, t: nat, st: Step)
    requires Inv(h) && h.tick <= t && (st.ReplaceLock? ==> Harmless(h))
    ensures Inv(StepAt(h, t, st))
  {
    hide Inv, Harmless;
    var h0 := h.(tick := t);
    RestIsFree(h, h0);
    match st
    case Stat(s, dir, override) => StatKeepsInv(h0, s, dir, override);
    case OpenLock(s) => OpenLockKeepsInv(h0, s);
    case Hello(s, instance) => HelloKeepsInv(h0, s, instance);
    case TakeLock(s) => TakeLockKeepsInv(h0, s);
    case Compare(s) => CompareKeepsInv(h0, s);
    case Rename(s, done) => RenameKeepsInv(h0, s, done);
    case Sync(s, ok) => SyncKeepsInv(h0, s, ok);
    case ReplaceLock => ReplaceKeepsInv(h0);
    case _ => RestKeepsInv(h0, st);
  }

  /** The lock file is replaced, if at all, only when that is harmless. */
  ghost predicate Careful(h: Host, steps: seq<Step>) {
    forall i :: 0 <= i < |steps| && steps[i].ReplaceLock? ==> Harmless(Run(h, steps[..i]))
  }

  lemma CarefulFront(h: Host, steps: seq<Step>)
    requires Careful(h, steps) && steps != []
    ensures Careful(h, steps[..|steps| - 1])
    ensures steps[|steps| - 1].ReplaceLock? ==> Harmless(Run(h, steps[..|steps| - 1]))
  {
    hide Run, Harmless;
    assert forall i :: 0 <= i < |steps| - 1 ==> steps[..|steps| - 1][..i] == steps[..i];
  }

  lemma {:induction false} RunKeepsInv(h: Host, steps: seq<Step>)
    requires Inv(h) && Careful(h, steps)
    ensures Inv(Run(h, steps))
  {
    hide Inv, Apply, Harmless, Careful;
    if steps != [] {
      CarefulFront(h, steps);
      RunKeepsInv(h, steps[..|steps| - 1]);
      var h0 := Run(h, steps[..|steps| - 1]);
      StepKeepsInv(h0, h0.tick + 1, steps[|steps| - 1]);
    }
  }

  // ---------------------------------------------------------------- every run

  lemma EveryRun(steps: seq<Step>)
    requires Careful(FreshHost, steps)
    ensures Inv(Run(FreshHost, steps))
  {
    hide Careful, Run;
    RunKeepsInv(FreshHost, steps);
  }

  ghost predicate OneLease(h: Host) {
    forall s, t :: s in h.sessions && t in h.sessions && h.sessions[s].Leased? && h.sessions[t].Leased? ==> s == t
  }

  /**
   With the lock file replaced, if at all, only when that is harmless: at most one session ever holds the
   lease, acquired epochs strictly increase, and each expected epoch is spent by at most one acquisition.
   */
  lemma ExclusiveLease(steps: seq<Step>)
    requires Careful(FreshHost, steps)
    ensures var h := Run(FreshHost, steps);
            && OneLease(h) && Increasing(h.log)
            && (forall i, j :: 0 <= i < j < |h.log| ==> h.log[i].expected != h.log[j].expected)
  {
    EveryRun(steps);
    var h := Run(FreshHost, steps);
    assert forall i :: 0 <= i < |h.log| ==> h.log[i] in h.log;
  }

  lemma StartKeepsHolder(h: Host, st: Step)
    requires OneHolder(h) && (st.Stat? || st.OpenLock? || st.Hello?)
    ensures OneHolder(Apply(h, st))
  {
    hide OneHolder, ValidInstance;
    HolderMoves(h, Apply(h, st), st.sid);
  }

  lemma LockKeepsHolder(h: Host, st: Step)
    requires OneHolder(h) && (st.TakeLock? || st.Compare?)
    ensures OneHolder(Apply(h, st))
  {
    hide OneHolder, Admits, LockFree;
    HolderMoves(h, Apply(h, st), st.sid);
  }

  lemma AdvanceKeepsHolder(h: Host, st: Step)
    requires OneHolder(h) && (st.Rename? || st.Sync? || st.Validate? || st.EndSession?)
    ensures OneHolder(Apply(h, st))
  {
    hide OneHolder, ValidateOk;
    HolderMoves(h, Apply(h, st), st.sid);
  }

  lemma StepKeepsHolder(h: Host, st: Step)
    requires OneHolder(h)
    ensures OneHolder(Next(h, st))
  {
    var h0 := h.(tick := h.tick + 1);
    assert OneHolder(h0);
    hide ValidateOk, Admits, LockFree, ValidInstance;
    if st.Stat? || st.OpenLock? || st.Hello? {
      StartKeepsHolder(h0, st);
    } else if st.TakeLock? || st.Compare? {
      LockKeepsHolder(h0, st);
    } else if st.Rename? || st.Sync? || st.Validate? || st.EndSession? {
      AdvanceKeepsHolder(h0, st);
    }
  }

  /** What the test of the held inode delivers in every run, the lock file replaced at any moment. */
  lemma {:induction false} OneSessionValidates(steps: seq<Step>)
    ensures var h := Run(FreshHost, steps);
            OneHolder(h) && forall s, t :: ValidateOk(h, s) && ValidateOk(h, t) ==> s == t
  {
    if steps != [] {
      OneSessionValidates(steps[..|steps| - 1]);
      StepKeepsHolder(Run(FreshHost, steps[..|steps| - 1]), steps[|steps| - 1]);
    }
  }
}
