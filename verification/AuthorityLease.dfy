/**
 What the lease promises about recorded epochs and copied directories, and exactly when replacing the
 lock file lets two sessions hold the lease.
 */
module AuthorityLease {
  import opened Basics
  import opened Authority

  // ---------------------------------------------------------------- runs

  lemma {:induction false} RunConcat(h: Host, a: seq<Step>, b: seq<Step>)
    ensures Run(h, a + b) == Run(Run(h, a), b)
  {
    hide Next;
    if b == [] {
      assert a + b == a;
    } else {
      var front := b[..|b| - 1];
      RunConcat(h, a, front);
      assert (a + b)[..|a + b| - 1] == a + front;
    }
  }

  /** No session, and no lease once taken, is forgotten. */
  ghost predicate Extends(h: Host, h1: Host) {
    && |h.log| <= |h1.log| && h1.log[..|h.log|] == h.log
    && (forall s :: s in h.starts ==> s in h1.starts && h1.starts[s] == h.starts[s])
  }

  lemma StepExtends(h: Host, st: Step)
    ensures Extends(h, Next(h, st))
  {
    hide ValidateOk, Admits, LockFree, ValidInstance;
  }

  lemma {:induction false} RunExtends(h: Host, steps: seq<Step>)
    ensures Extends(h, Run(h, steps))
  {
    hide Next;
    if steps != [] {
      RunExtends(h, steps[..|steps| - 1]);
      StepExtends(Run(h, steps[..|steps| - 1]), steps[|steps| - 1]);
    }
  }

  // ---------------------------------------------------------------- recorded epochs

  ghost predicate Acquired(h: Host, s: Sid) { exists a :: a in h.log && a.sid == s }

  /** Step `i` of the run starts session `s` from a directory that records `epoch`, without an override. */
  ghost predicate StartsFrom(steps: seq<Step>, i: nat, s: Sid, epoch: nat) {
    && i < |steps| && steps[i].Stat? && steps[i].sid == s && steps[i].override.None?
    && s !in Run(FreshHost, steps[..i]).starts
    && steps[i].dir in Run(FreshHost, steps[..i]).dirs && Run(FreshHost, steps[..i]).dirs[steps[i].dir] == epoch
  }

  lemma StartIsKept(steps: seq<Step>, i: nat, s: Sid, epoch: nat)
    requires StartsFrom(steps, i, s, epoch)
    ensures var h := Run(FreshHost, steps); s in h.starts && h.starts[s].expected == epoch
  {
    var h0 := Run(FreshHost, steps[..i]);
    assert steps[..i + 1][..i] == steps[..i];
    var h1 := Run(FreshHost, steps[..i + 1]);
    assert h1 == Next(h0, steps[i]);
    assert h1.starts[s].expected == epoch;
    hide Run;
    assert steps[..i + 1] + steps[i + 1..] == steps;
    RunConcat(FreshHost, steps[..i + 1], steps[i + 1..]);
    RunExtends(h1, steps[i + 1..]);
  }

  lemma SpentOnce(h: Host, s: Sid, t: Sid)
    requires Inv(h) && Acquired(h, s) && Acquired(h, t)
    ensures s in h.starts && t in h.starts && (h.starts[s].expected == h.starts[t].expected ==> s == t)
  {
    var a :| a in h.log && a.sid == s;
    var b :| b in h.log && b.sid == t;
    var i :| 0 <= i < |h.log| && h.log[i] == a;
    var j :| 0 <= j < |h.log| && h.log[j] == b;
  }

  /**
   Of all sessions started from directories that record one epoch, copies and restored backups included,
   at most one ever acquires the lease.
   */
  lemma RecordedEpochSpentOnce(steps: seq<Step>, i: nat, j: nat, s: Sid, t: Sid, epoch: nat)
    requires Careful(FreshHost, steps) && StartsFrom(steps, i, s, epoch) && StartsFrom(steps, j, t, epoch)
    requires Acquired(Run(FreshHost, steps), s) && Acquired(Run(FreshHost, steps), t)
    ensures s == t
  {
    hide Run, Inv, StartsFrom, Careful, Acquired;
    StartIsKept(steps, i, s, epoch);
    StartIsKept(steps, j, t, epoch);
    EveryRun(steps);
    SpentOnce(Run(FreshHost, steps), s, t);
  }

  /** Throughout the run directory `d` records what it recorded at the start. */
  ghost predicate Unwritten(h: Host, steps: seq<Step>, d: Dir) {
    forall i :: 0 <= i <= |steps| ==> d in Run(h, steps[..i]).dirs && d in h.dirs
                                      && Run(h, steps[..i]).dirs[d] == h.dirs[d]
  }

  /** Sessions that the run started from `d` without an override expect what `d` recorded. */
  ghost predicate StartedAs(h: Host, h1: Host, d: Dir) {
    forall s :: s in h1.starts && s !in h.starts && h1.starts[s].dir == d && !h1.starts[s].overridden ==>
                  d in h.dirs && h1.starts[s].expected == h.dirs[d]
  }

  lemma StepStartsAs(h: Host, h0: Host, st: Step, d: Dir)
    requires StartedAs(h, h0, d) && d in h.dirs && d in h0.dirs && h0.dirs[d] == h.dirs[d]
    ensures StartedAs(h, Next(h0, st), d)
  {
    hide ValidateOk, Admits, LockFree, ValidInstance;
  }

  lemma {:induction false} LateStarts(h: Host, steps: seq<Step>, d: Dir)
    requires Unwritten(h, steps, d)
    ensures StartedAs(h, Run(h, steps), d)
  {
    if steps != [] {
      var front := steps[..|steps| - 1];
      assert forall i :: 0 <= i <= |front| ==> front[..i] == steps[..i];
      LateStarts(h, front, d);
      assert steps[..|front|] == front;
      StepStartsAs(h, Run(h, front), steps[|front|], d);
    }
  }

  /**
   A directory left behind, by a lost reply, a failed record or an old copy, is refused: until its policy
   file is written again, every session it starts that acquires the lease was started with an override.
   */
  lemma LeftBehindIsRefused(h: Host, steps: seq<Step>, d: Dir, s: Sid)
    requires Inv(h) && Careful(h, steps) && Unwritten(h, steps, d)
    requires d in h.dirs && h.dirs[d] < Newest(h.log)
    requires var h1 := Run(h, steps); Acquired(h1, s) && s !in h.starts && s in h1.starts && h1.starts[s].dir == d
    ensures Run(h, steps).starts[s].overridden
  {
    var h1 := Run(h, steps);
    RunKeepsInv(h, steps);
    RunExtends(h, steps);
    LateStarts(h, steps, d);
    hide Run, Careful, Unwritten;
    var a :| a in h1.log && a.sid == s;
    var i :| 0 <= i < |h1.log| && h1.log[i] == a;
    assert h1.log[..|h.log|][|h.log| - 1] == h.log[|h.log| - 1];
  }

  // ---------------------------------------------------------------- continuations

  ghost predicate NoReplacement(steps: seq<Step>) {
    forall i :: 0 <= i < |steps| ==> !steps[i].ReplaceLock?
  }

  /** `h1` follows `h` with the lock file left in place. */
  ghost predicate Reaches(h: Host, h1: Host) {
    exists steps :: NoReplacement(steps) && Run(h, steps) == h1
  }

  lemma StaysReached(h: Host)
    ensures Reaches(h, h)
  {
    assert Run(h, []) == h && NoReplacement([]);
  }

  lemma NextReached(h: Host, h1: Host, st: Step)
    requires Reaches(h, h1) && !st.ReplaceLock?
    ensures Reaches(h, Next(h1, st))
  {
    hide Next;
    var steps :| NoReplacement(steps) && Run(h, steps) == h1;
    assert (steps + [st])[..|steps|] == steps;
    assert NoReplacement(steps + [st]) && Run(h, steps + [st]) == Next(h1, st);
  }

  /** Only the phase of `s` and the clock differ. */
  ghost predicate Moved(h: Host, h1: Host, s: Sid, p: Phase) {
    h1 == WithPhase(h, s, p).(tick := h1.tick)
  }

  lemma Compares(g: Host, h: Host, s: Sid) returns (h1: Host)
    requires Reaches(g, h) && s in h.sessions && h.sessions[s].Locked?
    requires Admits(h, h.sessions[s].hadLock, h.sessions[s].expected)
    ensures Reaches(g, h1)
    ensures Moved(h, h1, s, Compared(h.sessions[s].inode, h.sessions[s].instance, Value(h.visible)))
  {
    hide Reaches;
    NextReached(g, h, Compare(s));
    h1 := Next(h, Compare(s));
  }

  lemma LocksAndCompares(g: Host, h: Host, s: Sid) returns (h1: Host)
    requires Reaches(g, h) && s in h.sessions && h.sessions[s].Greeted?
    requires Admits(h, h.sessions[s].hadLock, h.sessions[s].expected) && LockFree(h, h.sessions[s].inode)
    ensures Reaches(g, h1)
    ensures Moved(h, h1, s, Compared(h.sessions[s].inode, h.sessions[s].instance, Value(h.visible)))
  {
    hide Reaches;
    var p := h.sessions[s];
    NextReached(g, h, TakeLock(s));
    h1 := Next(h, TakeLock(s));
    assert LockFree(h.(tick := h.tick + 1), p.inode);
    assert Moved(h, h1, s, Locked(p.hadLock, p.inode, p.instance, p.expected));
    h1 := Compares(g, h1, s);
  }

  lemma GreetsAndCompares(g: Host, h: Host, s: Sid) returns (h1: Host)
    requires Reaches(g, h) && s in h.sessions && s in h.starts && h.sessions[s].Opened?
    requires Admits(h, h.sessions[s].hadLock, h.starts[s].expected) && LockFree(h, h.sessions[s].inode)
    ensures Reaches(g, h1)
    ensures Moved(h, h1, s, Compared(h.sessions[s].inode, "a", Value(h.visible)))
  {
    hide Reaches;
    var p := h.sessions[s];
    NextReached(g, h, Hello(s, "a"));
    h1 := Next(h, Hello(s, "a"));
    assert ValidInstance("a");
    assert Moved(h, h1, s, Greeted(p.hadLock, p.inode, "a", h.starts[s].expected));
    h1 := LocksAndCompares(g, h1, s);
  }

  lemma OpensAndCompares(g: Host, h: Host, s: Sid) returns (h1: Host)
    requires Reaches(g, h) && s in h.sessions && s in h.starts && h.sessions[s].Statted?
    requires Admits(h, h.sessions[s].hadLock, h.starts[s].expected)
    requires h.lock.Some? && LockFree(h, h.lock.value)
    ensures Reaches(g, h1)
    ensures Moved(h, h1, s, Compared(h.lock.value, "a", Value(h.visible)))
  {
    hide Reaches;
    NextReached(g, h, OpenLock(s));
    h1 := Next(h, OpenLock(s));
    assert Moved(h, h1, s, Opened(h.sessions[s].hadLock, h.lock.value));
    h1 := GreetsAndCompares(g, h1, s);
  }

  /** A session has the lock file open and has not yet compared epochs. */
  ghost predicate Waits(h: Host, s: Sid) {
    && s in h.sessions && s in h.starts
    && (h.sessions[s].Opened? || h.sessions[s].Greeted? || h.sessions[s].Locked?)
    && (h.sessions[s].Opened? || h.sessions[s].expected == h.starts[s].expected)
  }

  /** A session that may pass the comparison of epochs, once nobody else holds its lock. */
  lemma PassesComparison(g: Host, h: Host, s: Sid) returns (h1: Host, name: string)
    requires Reaches(g, h) && Waits(h, s) && (h.sessions[s].Locked? || LockFree(h, h.sessions[s].inode))
    requires Admits(h, h.sessions[s].hadLock, h.starts[s].expected)
    ensures Reaches(g, h1)
    ensures Moved(h, h1, s, Compared(h.sessions[s].inode, name, Value(h.visible)))
  {
    hide Reaches;
    if h.sessions[s].Opened? {
      h1 := GreetsAndCompares(g, h, s);
      name := "a";
    } else if h.sessions[s].Greeted? {
      h1 := LocksAndCompares(g, h, s);
      name := h.sessions[s].instance;
    } else {
      h1 := Compares(g, h, s);
      name := h.sessions[s].instance;
    }
  }

  /** Everything but the epoch file, its history and the phase of `s` is as before. */
  ghost predicate Advanced(h: Host, h1: Host, s: Sid, p: Phase, epoch: nat) {
    && h1.lock == h.lock && h1.nextInode == h.nextInode && h1.starts == h.starts && h1.visible == Some(epoch)
    && h1.sessions == h.sessions[s := p] && h1.clients == h.clients
  }

  /** The one lease taken since then is that of `s`. */
  ghost predicate Logged(h: Host, h1: Host, s: Sid, epoch: nat) {
    exists a :: h1.log == h.log + [a] && a.sid == s && a.epoch == epoch
  }

  lemma Advances(g: Host, h: Host, s: Sid) returns (h1: Host)
    requires Reaches(g, h) && s in h.sessions && h.sessions[s].Compared?
    ensures Reaches(g, h1)
    ensures var p := h.sessions[s];
            && Advanced(h, h1, s, Leased(p.inode, p.instance, p.epoch + 1), p.epoch + 1)
            && Logged(h, h1, s, p.epoch + 1)
  {
    hide Reaches;
    var p := h.sessions[s];
    NextReached(g, h, Rename(s, true));
    h1 := Next(h, Rename(s, true));
    assert Advanced(h, h1, s, Renamed(p.inode, p.instance, p.epoch, p.epoch + 1), p.epoch + 1);
    NextReached(g, h1, Sync(s, true));
    var h2 := Next(h1, Sync(s, true));
    assert h2.log == h.log + [Acquisition(s, p.epoch, p.epoch + 1, h2.tick)];
    h1 := h2;
  }

  lemma FreshSid(used: set<Sid>) returns (s: Sid)
    ensures forall u :: u in used ==> u < s
    decreases |used|
  {
    s := 0;
    if used != {} {
      var u :| u in used;
      var r := FreshSid(used - {u});
      s := if u < r then r else u + 1;
      assert forall v :: v in used ==> v == u || v in used - {u};
    }
  }

  /** A new session, told the present epoch by its operator, passes the comparison beside the others. */
  ghost predicate Joined(h: Host, h1: Host, s: Sid, p: Phase) {
    && s !in h.starts && h1.lock == h.lock && h1.nextInode == h.nextInode
    && h1.visible == h.visible && h1.log == h.log && h1.clients == h.clients
    && h1.starts.Keys == h.starts.Keys + {s} && (forall t :: t in h.starts ==> h1.starts[t] == h.starts[t])
    && h1.sessions == h.sessions[s := p]
  }

  lemma Joins(g: Host, h: Host) returns (h1: Host, s: Sid)
    requires Reaches(g, h) && h.lock.Some? && LockFree(h, h.lock.value)
    requires h.visible.Some? && h.visible.value < MAX_EPOCH
    ensures Reaches(g, h1) && Joined(h, h1, s, Compared(h.lock.value, "a", h.visible.value))
  {
    hide Reaches;
    s := FreshSid(h.starts.Keys);
    NextReached(g, h, Enable(0, Landed));
    var h0 := Next(h, Enable(0, Landed));
    assert h0 == h.(dirs := h0.dirs, tick := h0.tick) && 0 in h0.dirs;
    NextReached(g, h0, Stat(s, 0, Some(h.visible.value)));
    h1 := Next(h0, Stat(s, 0, Some(h.visible.value)));
    assert Joined(h, h1, s, Statted(true));
    assert LockFree(h1, h.lock.value);
    h1 := OpensAndCompares(g, h1, s);
  }

  /** Every session is as before, and perhaps others were started since. */
  ghost predicate Kept(h: Host, h1: Host) {
    && h1.lock == h.lock && h1.sessions == h.sessions
    && (forall t :: t in h.starts ==> t in h1.starts && h1.starts[t] == h.starts[t])
  }

  lemma Ends(g: Host, h: Host, s: Sid) returns (h1: Host)
    requires Reaches(g, h)
    ensures Reaches(g, h1) && h1 == End(h, s).(tick := h1.tick)
  {
    hide Reaches;
    NextReached(g, h, EndSession(s));
    h1 := Next(h, EndSession(s));
  }

  /** Sessions that come and go can bring the epoch file to any later epoch. */
  lemma {:induction false} Raises(g: Host, h: Host, epoch: nat) returns (h1: Host)
    requires Reaches(g, h) && h.lock.Some? && LockFree(h, h.lock.value) && h.sessions.Keys <= h.starts.Keys
    requires h.visible.Some? && h.visible.value <= epoch < MAX_EPOCH
    ensures Reaches(g, h1) && h1.visible == Some(epoch) && Kept(h, h1)
    decreases epoch - h.visible.value
  {
    hide Reaches;
    h1 := h;
    if h.visible.value < epoch {
      var s;
      h1, s := Joins(g, h);
      h1 := Advances(g, h1, s);
      h1 := Ends(g, h1, s);
      assert h1.sessions == h.sessions;
      h1 := Raises(g, h1, epoch);
    }
  }

  // ---------------------------------------------------------------- two leases

  /** Two sessions can come to hold the lease at once, with the lock file left in place from now on. */
  ghost predicate CanDouble(h: Host) { exists h1 :: Reaches(h, h1) && !OneLease(h1) }

  /** Nobody holds the lock of the present file yet. */
  ghost predicate PathFree(h: Host) {
    h.lock.Some? && LockFree(h, h.lock.value) && h.sessions.Keys <= h.starts.Keys
  }

  lemma LeasedDoubles(g: Host, h: Host, s: Sid)
    requires Reaches(g, h) && PathFree(h) && s in h.sessions && h.sessions[s].Leased?
    requires h.visible.Some? && h.visible.value < MAX_EPOCH
    ensures CanDouble(g)
  {
    hide Reaches, LockFree;
    var h1, t := Joins(g, h);
    h1 := Advances(g, h1, t);
    assert h1.sessions[s].Leased? && h1.sessions[t].Leased?;
  }

  lemma ComparedDoubles(g: Host, h: Host, s: Sid)
    requires Reaches(g, h) && PathFree(h) && s in h.sessions && h.sessions[s].Compared?
    requires h.sessions[s].epoch == Value(h.visible) < MAX_EPOCH
    ensures CanDouble(g)
  {
    hide Reaches;
    if h.visible.Some? {
      var h1, t := Joins(g, h);
      h1 := Advances(g, h1, s);
      h1 := Advances(g, h1, t);
      assert h1.sessions[s].Leased? && h1.sessions[t].Leased?;
    } else {
      var h1 := Advances(g, h, s);
      LeasedDoubles(g, h1, s);
    }
  }

  lemma RenamedDoubles(g: Host, h: Host, s: Sid)
    requires Reaches(g, h) && PathFree(h) && s in h.sessions && h.sessions[s].Renamed?
    requires h.visible.Some? && h.visible.value < MAX_EPOCH
    ensures CanDouble(g)
  {
    hide Reaches, CanDouble;
    NextReached(g, h, Sync(s, true));
    LeasedDoubles(g, Next(h, Sync(s, true)), s);
  }

  /** Whoever holds the lock that `s` waits for may die. */
  lemma FreesLock(g: Host, h: Host, s: Sid) returns (h1: Host)
    requires Reaches(g, h) && PathFree(h) && OneHolder(h) && Waits(h, s)
    ensures Reaches(g, h1) && PathFree(h1) && OneHolder(h1) && Waits(h1, s)
    ensures h1.visible == h.visible && h1.lock == h.lock && h1.starts == h.starts && h1.sessions[s] == h.sessions[s]
    ensures h1.sessions[s].Locked? || LockFree(h1, h1.sessions[s].inode)
    ensures forall t :: t in h.sessions && !(Holds(h.sessions[t]) && h.sessions[t].inode == h.sessions[s].inode) ==>
            t in h1.sessions && h1.sessions[t] == h.sessions[t]
  {
    hide Reaches;
    h1 := h;
    if !h.sessions[s].Locked? && !LockFree(h, h.sessions[s].inode) {
      var t :| t in h.sessions && Holds(h.sessions[t]) && h.sessions[t].inode == h.sessions[s].inode;
      h1 := Ends(g, h, t);
    }
  }

  lemma WaitingDoubles(g: Host, h: Host, s: Sid)
    requires Reaches(g, h) && PathFree(h) && OneHolder(h) && Waits(h, s)
    requires h.visible.Some? && h.visible.value <= h.starts[s].expected < MAX_EPOCH
    requires h.lock != Some(h.sessions[s].inode)
    ensures CanDouble(g)
  {
    hide Reaches, CanDouble, OneHolder;
    var h1 := FreesLock(g, h, s);
    var h2 := Raises(g, h1, h.starts[s].expected);
    assert !h2.sessions[s].Locked? ==> LockFree(h2, h2.sessions[s].inode);
    var h3, name := PassesComparison(g, h2, s);
    assert LockFree(h3, h3.lock.value);
    ComparedDoubles(g, h3, s);
  }

  lemma FounderDoubles(g: Host, h: Host, s: Sid)
    requires Reaches(g, h) && PathFree(h) && OneHolder(h) && Waits(h, s)
    requires h.visible.None? && h.starts[s].expected == 0 && !h.sessions[s].hadLock
    requires h.lock != Some(h.sessions[s].inode)
    ensures CanDouble(g)
  {
    hide Reaches, CanDouble, OneHolder;
    var h1 := FreesLock(g, h, s);
    var h2, name := PassesComparison(g, h1, s);
    ComparedDoubles(g, h2, s);
  }

  /** A session that found no lock file founds the epoch file on the new lock file, and `s` gets its turn later. */
  lemma FoundedDoubles(g: Host, h: Host, f: Sid, s: Sid)
    requires Reaches(g, h) && PathFree(h) && OneHolder(h) && Waits(h, s) && h.visible.None?
    requires f in h.sessions && f in h.starts && h.sessions[f] == Statted(false) && h.starts[f].expected == 0
    requires 0 < h.starts[s].expected < MAX_EPOCH && h.lock != Some(h.sessions[s].inode)
    ensures CanDouble(g)
  {
    hide Reaches, CanDouble;
    var h1 := OpensAndCompares(g, h, f);
    h1 := Advances(g, h1, f);
    h1 := Ends(g, h1, f);
    assert h1.sessions == h.sessions - {f};
    WaitingDoubles(g, h1, s);
  }

  /** What replacing the lock file leaves of the invariant. */
  lemma Replaced(h: Host)
    requires Inv(h)
    ensures var g := Next(h, ReplaceLock);
            && PathFree(g) && OneHolder(g) && g.visible == h.visible && g.starts == h.starts && g.sessions == h.sessions
            && (forall s :: s in g.sessions && FileOpen(g.sessions[s]) ==> g.lock != Some(g.sessions[s].inode))
  {
    hide MayShare, HasFile;
  }

  lemma SharerFacts(h: Host, s: Sid)
    requires Inv(h) && s in h.sessions && MayShare(h, h.sessions[s], h.starts[s].expected)
    ensures var p := h.sessions[s];
            && FileOpen(p)
            && (p.Compared? ==> p.epoch == Value(h.visible) < MAX_EPOCH)
            && (p.Renamed? || p.Leased? ==> h.visible.Some? && h.visible.value < MAX_EPOCH)
            && (!Active(p) ==> Waits(h, s))
  {
    assert PhaseInv(h, h.sessions[s], h.starts[s].expected);
  }

  /** A session past the comparison of epochs, or one whose epoch the file has reached or will reach. */
  lemma SharerDoubles(h: Host, s: Sid)
    requires Inv(h) && s in h.sessions && MayShare(h, h.sessions[s], h.starts[s].expected)
    requires Active(h.sessions[s]) || h.visible.Some? || (h.starts[s].expected == 0 && !h.sessions[s].hadLock)
    ensures CanDouble(Next(h, ReplaceLock))
  {
    var g := Next(h, ReplaceLock);
    StaysReached(g);
    Replaced(h);
    SharerFacts(h, s);
    hide Reaches, CanDouble, Inv, PathFree, OneHolder, HasFile, Next;
    if h.sessions[s].Compared? {
      ComparedDoubles(g, g, s);
    } else if h.sessions[s].Renamed? {
      RenamedDoubles(g, g, s);
    } else if h.sessions[s].Leased? {
      LeasedDoubles(g, g, s);
    } else if h.visible.Some? {
      WaitingDoubles(g, g, s);
    } else {
      FounderDoubles(g, g, s);
    }
  }

  /** A session that waits for an epoch while there is no epoch file, but somebody may still found one. */
  lemma LateSharerDoubles(h: Host, f: Sid, s: Sid)
    requires Inv(h) && s in h.sessions && MayShare(h, h.sessions[s], h.starts[s].expected)
    requires !Active(h.sessions[s]) && h.visible.None? && h.starts[s].expected > 0
    requires f in h.sessions && f in h.starts && Founder(h.sessions[f], h.starts[f].expected)
    ensures CanDouble(Next(h, ReplaceLock))
  {
    var g := Next(h, ReplaceLock);
    if FileOpen(h.sessions[f]) {
      SharerDoubles(h, f);
    } else {
      StaysReached(g);
      Replaced(h);
      SharerFacts(h, s);
      hide Reaches, CanDouble, Inv, PathFree, OneHolder, HasFile, Next;
      FoundedDoubles(g, g, f, s);
    }
  }

  lemma HarmDoubles(h: Host)
    requires Inv(h) && !Harmless(h)
    ensures CanDouble(Next(h, ReplaceLock))
  {
    hide CanDouble, Next;
    var s :| s in h.sessions && s in h.starts && MayShare(h, h.sessions[s], h.starts[s].expected);
    if Active(h.sessions[s]) || h.visible.Some? || (h.starts[s].expected == 0 && !h.sessions[s].hadLock) {
      SharerDoubles(h, s);
    } else {
      var f :| f in h.sessions && f in h.starts && Founder(h.sessions[f], h.starts[f].expected);
      LateSharerDoubles(h, f, s);
    }
  }

  /**
   Replacing the lock file leaves the lease exclusive in every continuation if and only if no session that
   has the file open holds the lease, is on the way to it, or still waits for an epoch the file may reach.
   */
  lemma ReplaceIsSafeIff(h: Host)
    requires Inv(h)
    ensures var g := Next(h, ReplaceLock);
            Harmless(h) <==> forall steps :: Careful(g, steps) ==> OneLease(Run(g, steps))
  {
    var g := Next(h, ReplaceLock);
    if Harmless(h) {
      StepKeepsInv(h, h.tick + 1, ReplaceLock);
      forall steps | Careful(g, steps) ensures OneLease(Run(g, steps)) {
        RunKeepsInv(g, steps);
        ActiveAlone(Run(g, steps));
      }
    } else {
      HarmDoubles(h);
      var h1 :| Reaches(g, h1) && !OneLease(h1);
      var steps :| NoReplacement(steps) && Run(g, steps) == h1;
      assert Careful(g, steps);
    }
  }

  lemma ActiveAlone(h: Host)
    requires Inv(h)
    ensures OneLease(h)
  {
    hide MayShare, HasFile;
  }

  lemma FirstSessionOpens() returns (h: Host)
    ensures Reaches(FreshHost, h) && h.lock == Some(0) && h.nextInode == 1 && h.visible.None?
    ensures h.sessions == map[1 := Opened(false, 0)] && h.starts == map[1 := Start(0, 0, false)]
  {
    StaysReached(FreshHost);
    hide Reaches, ValidateOk;
    NextReached(FreshHost, FreshHost, Enable(0, Landed));
    var h1 := Next(FreshHost, Enable(0, Landed));
    NextReached(FreshHost, h1, Stat(1, 0, None));
    var h2 := Next(h1, Stat(1, 0, None));
    assert h2.sessions == map[1 := Statted(false)] && h2.starts == map[1 := Start(0, 0, false)];
    NextReached(FreshHost, h2, OpenLock(1));
    h := Next(h2, OpenLock(1));
  }

  /** A lease is taken, the lock file is replaced under it, and a second session takes the next lease beside it. */
  lemma ReplacedLockBreaksLease() returns (h: Host, h1: Host)
    ensures Reaches(FreshHost, h) && h.sessions == map[1 := Leased(0, "a", 1)]
    ensures Reaches(Next(h, ReplaceLock), h1) && !OneLease(h1)
  {
    hide Reaches, Next, OneLease;
    h := FirstSessionOpens();
    h := GreetsAndCompares(FreshHost, h, 1);
    h := Advances(FreshHost, h, 1);
    h1 := SecondLease(h);
  }

  lemma SecondLease(h: Host) returns (h1: Host)
    requires h.sessions == map[1 := Leased(0, "a", 1)] && h.starts.Keys == {1} && h.visible == Some(1)
    requires h.nextInode == 1
    ensures Reaches(Next(h, ReplaceLock), h1) && !OneLease(h1)
  {
    var g := Next(h, ReplaceLock);
    StaysReached(g);
    assert PathFree(g);
    LeasedDoubles(g, g, 1);
    h1 :| Reaches(g, h1) && !OneLease(h1);
  }
}
