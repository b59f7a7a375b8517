/**
 Exactly when replacing the lock file lets the fence fall: a session that may still overwrite the epoch
 file brings back an epoch that others have spent, and somebody passes validation under it.
 */
module AuthorityStale {
  import opened Basics
  import opened Authority
  import opened AuthorityFence
  import opened AuthorityLease

  /** The fence can fall, with the lock file left in place from now on. */
  ghost predicate CanFall(h: Host) { exists h1 :: Reaches(h, h1) && !Fenced(h1) }

  // ---------------------------------------------------------------- clients

  /** Every session was started, and a client belongs to one that was leased. */
  ghost predicate Known(h: Host) { h.sessions.Keys <= h.starts.Keys && ClientsOk(h) }

  lemma StepKeepsClients(h: Host, st: Step)
    requires Known(h)
    ensures Known(Next(h, st))
  {
    if st.Rename? || st.Sync? || st.Deliver? || st.Validate? {
      AdvanceKeepsClients(h, st);
    } else {
      StartKeepsClients(h, st);
    }
  }

  lemma StartKeepsClients(h: Host, st: Step)
    requires Known(h) && !(st.Rename? || st.Sync? || st.Deliver? || st.Validate?)
    ensures Known(Next(h, st))
  {
    hide Admits, LockFree, ValidInstance;
  }

  lemma AdvanceKeepsClients(h: Host, st: Step)
    requires Known(h) && (st.Rename? || st.Sync? || st.Deliver? || st.Validate?)
    ensures Known(Next(h, st))
  {
    hide ValidateOk;
  }

  lemma {:induction false} RunKeepsClients(h: Host, steps: seq<Step>)
    requires Known(h)
    ensures Known(Run(h, steps))
  {
    hide Known, Next;
    if steps != [] {
      RunKeepsClients(h, steps[..|steps| - 1]);
      StepKeepsClients(Run(h, steps[..|steps| - 1]), steps[|steps| - 1]);
    }
  }

  lemma NoClientYet(g: Host, h: Host, s: Sid)
    requires Known(g) && Reaches(g, h) && s in h.sessions && !h.sessions[s].Leased?
    ensures s !in h.clients
  {
    var steps :| NoReplacement(steps) && Run(g, steps) == h;
    RunKeepsClients(g, steps);
  }

  // ---------------------------------------------------------------- two sessions past one comparison

  /** The session's reply reaches its client. */
  lemma Delivers(g: Host, h: Host, s: Sid) returns (h1: Host)
    requires Reaches(g, h) && s in h.sessions && h.sessions[s].Leased? && s !in h.clients
    requires h.lock == Some(h.sessions[s].inode) && h.visible == Some(h.sessions[s].epoch)
    ensures Reaches(g, h1) && ValidateOk(h1, s) && h1.log == h.log && h1.clients[s].epoch == h.sessions[s].epoch
  {
    hide Reaches;
    NextReached(g, h, Deliver(s));
    h1 := Next(h, Deliver(s));
  }

  /** Two sessions that compared the same epoch, one of them with the present lock file open. */
  lemma TwinsFall(g: Host, h: Host, s: Sid, t: Sid)
    requires Reaches(g, h) && Known(g) && s != t && s in h.sessions && t in h.sessions
    requires h.sessions[s].Compared? && h.sessions[t].Compared? && h.sessions[s].epoch == h.sessions[t].epoch
    requires h.lock == Some(h.sessions[t].inode)
    ensures CanFall(g)
  {
    var epoch := h.sessions[s].epoch + 1;
    NoClientYet(g, h, t);
    hide Reaches, Known;
    var h1 := Advances(g, h, s);
    var a :| h1.log == h.log + [a] && a.sid == s && a.epoch == epoch;
    var h2 := Advances(g, h1, t);
    var b :| h2.log == h1.log + [b] && b.sid == t && b.epoch == epoch;
    assert h1.log[|h.log|] == a && h2.log[|h.log|] == a;
    var h3 := Delivers(g, h2, t);
    assert a in h3.log && !Fenced(h3);
  }

  lemma ComparedFalls(g: Host, h: Host, s: Sid)
    requires Reaches(g, h) && Known(g) && PathFree(h) && s in h.sessions && h.sessions[s].Compared?
    requires h.visible.Some? && h.sessions[s].epoch == h.visible.value < MAX_EPOCH
    ensures CanFall(g)
  {
    hide Reaches, Known, CanFall;
    var h1, t := Joins(g, h);
    TwinsFall(g, h1, s, t);
  }

  lemma WaitingFalls(g: Host, h: Host, s: Sid)
    requires Reaches(g, h) && Known(g) && PathFree(h) && OneHolder(h) && AuthorityLease.Waits(h, s)
    requires h.visible.Some? && h.visible.value <= h.starts[s].expected < MAX_EPOCH
    requires h.lock != Some(h.sessions[s].inode)
    ensures CanFall(g)
  {
    hide Reaches, CanFall, OneHolder, Known;
    var h1 := FreesLock(g, h, s);
    var h2 := Raises(g, h1, h.starts[s].expected);
    assert !h2.sessions[s].Locked? ==> LockFree(h2, h2.sessions[s].inode);
    var h3, name := PassesComparison(g, h2, s);
    assert LockFree(h3, h3.lock.value);
    ComparedFalls(g, h3, s);
  }

  // ---------------------------------------------------------------- before the first epoch

  /** The founder `s` compares on its old lock file, and `f` on the new one. */
  lemma FoundersFall(g: Host, h: Host, f: Sid, s: Sid)
    requires Reaches(g, h) && Known(g) && PathFree(h) && OneHolder(h) && h.visible.None?
    requires f in h.sessions && f in h.starts && h.sessions[f] == Statted(false) && h.starts[f].expected == 0
    requires s in h.sessions && h.sessions[s].Compared? && h.sessions[s].epoch == 0
    requires h.lock != Some(h.sessions[s].inode)
    ensures CanFall(g)
  {
    hide Reaches, CanFall, Known, OneHolder;
    var h1 := OpensAndCompares(g, h, f);
    TwinsFall(g, h1, s, f);
  }

  lemma WaitingFounderFalls(g: Host, h: Host, f: Sid, s: Sid)
    requires Reaches(g, h) && Known(g) && PathFree(h) && OneHolder(h) && h.visible.None?
    requires f in h.sessions && f in h.starts && h.sessions[f] == Statted(false) && h.starts[f].expected == 0
    requires AuthorityLease.Waits(h, s) && h.starts[s].expected == 0 && !h.sessions[s].hadLock
    requires h.lock != Some(h.sessions[s].inode)
    ensures CanFall(g)
  {
    hide Reaches, CanFall, Known, OneHolder;
    var h1 := FreesLock(g, h, s);
    var h2, name := PassesComparison(g, h1, s);
    assert LockFree(h2, h2.lock.value);
    assert OneHolder(h2) by { HolderMoves(h1, h2, s); }
    FoundersFall(g, h2, f, s);
  }

  /** The founder takes its turn and goes, and leaves the first epoch behind. */
  lemma Founds(g: Host, h: Host, f: Sid) returns (h1: Host)
    requires Reaches(g, h) && PathFree(h) && f in h.sessions && h.visible.None?
    requires Founder(h.sessions[f], h.starts[f].expected)
    requires || h.sessions[f].Statted? || (h.sessions[f].Compared? && h.sessions[f].epoch == 0)
             || (AuthorityLease.Waits(h, f) && (h.sessions[f].Locked? || LockFree(h, h.sessions[f].inode)))
    ensures Reaches(g, h1) && h1.lock == h.lock && h1.starts == h.starts && h1.visible == Some(1)
    ensures h1.sessions == h.sessions - {f}
  {
    hide Reaches;
    h1 := h;
    if h.sessions[f].Statted? {
      h1 := OpensAndCompares(g, h, f);
    } else if !h.sessions[f].Compared? {
      var name;
      h1, name := PassesComparison(g, h, f);
    }
    h1 := Advances(g, h1, f);
    h1 := AuthorityLease.Ends(g, h1, f);
  }

  /** A session waits for an epoch to come, and a founder that it does not keep from its lock begins the count. */
  lemma FoundedFalls(g: Host, h: Host, f: Sid, s: Sid)
    requires Reaches(g, h) && Known(g) && PathFree(h) && OneHolder(h) && h.visible.None? && f != s
    requires f in h.sessions && f in h.starts && Founder(h.sessions[f], h.starts[f].expected)
    requires h.sessions[f].Compared? ==> h.sessions[f].epoch == 0
    requires h.sessions[f].Greeted? || h.sessions[f].Locked? ==> h.sessions[f].expected == h.starts[f].expected
    requires AuthorityLease.Waits(h, s) && 0 < h.starts[s].expected < MAX_EPOCH && h.lock != Some(h.sessions[s].inode)
    requires h.sessions[f].Statted? || h.sessions[f].inode != h.sessions[s].inode || !h.sessions[s].Locked?
    ensures CanFall(g)
  {
    hide Reaches, CanFall, Known;
    var h1 := h;
    if !h.sessions[f].Statted? && !h.sessions[f].Compared? {
      assert AuthorityLease.Waits(h, f);
      h1 := FreesLock(g, h, f);
    }
    var h2 := Founds(g, h1, f);
    assert OneHolder(h2) && PathFree(h2);
    WaitingFalls(g, h2, s);
  }

  // ---------------------------------------------------------------- the exact condition

  lemma Replaced(h: Host)
    requires FenceInv(h)
    ensures var g := Next(h, ReplaceLock);
            && PathFree(g) && OneHolder(g) && Known(g)
            && g.visible == h.visible && g.starts == h.starts && g.sessions == h.sessions
            && (forall s :: s in g.sessions && FileOpen(g.sessions[s]) ==> g.lock != Some(g.sessions[s].inode))
  {
    hide OldFilesCalm;
  }

  /** Two founders with different lock files open: one of these files would be an old one. */
  lemma FoundersShareFile(h: Host, f: Sid, s: Sid)
    requires FenceInv(h) && h.visible.None? && f in h.sessions && s in h.sessions
    requires FileOpen(h.sessions[f]) && FileOpen(h.sessions[s])
    requires Founder(h.sessions[f], h.starts[f].expected) && Founder(h.sessions[s], h.starts[s].expected)
    ensures h.sessions[f].inode == h.sessions[s].inode
  {
    var p, q := h.sessions[f], h.sessions[s];
    if p.inode != q.inode {
      assert RivalOf(q, h.starts[s].expected, p) && RivalOf(p, h.starts[f].expected, q);
      assert PhaseOk(h.visible, p, h.starts[f].expected) && PhaseOk(h.visible, q, h.starts[s].expected);
      assert MayOverwrite(h, p, h.starts[f].expected) && MayOverwrite(h, q, h.starts[s].expected);
    }
  }

  lemma OverwriterFalls(h: Host, s: Sid)
    requires FenceInv(h) && s in h.sessions && h.visible.Some?
    requires MayOverwrite(h, h.sessions[s], h.starts[s].expected)
    ensures CanFall(Next(h, ReplaceLock))
  {
    var g := Next(h, ReplaceLock);
    StaysReached(g);
    Replaced(h);
    assert PhaseOk(h.visible, h.sessions[s], h.starts[s].expected);
    hide Reaches, CanFall, FenceInv, PathFree, OneHolder, Next, Known;
    if h.sessions[s].Compared? { ComparedFalls(g, g, s); } else { WaitingFalls(g, g, s); }
  }

  lemma FounderFalls(h: Host, f: Sid, s: Sid)
    requires FenceInv(h) && s in h.sessions && f in h.sessions && h.visible.None? && FileOpen(h.sessions[s])
    requires Founder(h.sessions[s], h.starts[s].expected) && h.starts[s].expected == 0
    requires RivalOf(h.sessions[f], h.starts[f].expected, h.sessions[s])
    ensures CanFall(Next(h, ReplaceLock))
  {
    if FileOpen(h.sessions[f]) { FoundersShareFile(h, f, s); }
    var g := Next(h, ReplaceLock);
    StaysReached(g);
    Replaced(h);
    assert PhaseOk(h.visible, h.sessions[s], h.starts[s].expected);
    hide Reaches, CanFall, FenceInv, PathFree, OneHolder, Next, Known;
    if h.sessions[s].Compared? { FoundersFall(g, g, f, s); } else { WaitingFounderFalls(g, g, f, s); }
  }

  lemma LateWaiterFalls(h: Host, f: Sid, s: Sid)
    requires FenceInv(h) && s in h.sessions && f in h.sessions && h.visible.None?
    requires h.sessions[s].Opened? || h.sessions[s].Greeted? || h.sessions[s].Locked?
    requires 0 < h.starts[s].expected < MAX_EPOCH && Founder(h.sessions[f], h.starts[f].expected)
    requires h.sessions[f].Statted? || h.sessions[f].inode != h.sessions[s].inode || !h.sessions[s].Locked?
    ensures CanFall(Next(h, ReplaceLock))
  {
    var g := Next(h, ReplaceLock);
    StaysReached(g);
    Replaced(h);
    assert PhaseOk(h.visible, h.sessions[s], h.starts[s].expected);
    assert PhaseOk(h.visible, h.sessions[f], h.starts[f].expected);
    hide Reaches, CanFall, FenceInv, PathFree, OneHolder, Next, Known;
    FoundedFalls(g, g, f, s);
  }

  lemma UnrestFalls(h: Host)
    requires FenceInv(h) && !Calm(h)
    ensures CanFall(Next(h, ReplaceLock))
  {
    var s :| s in h.sessions && s in h.starts && MayOverwrite(h, h.sessions[s], h.starts[s].expected);
    var p, expected := h.sessions[s], h.starts[s].expected;
    assert PhaseOk(h.visible, p, expected);
    hide CanFall, Next, FenceInv;
    if h.visible.Some? {
      OverwriterFalls(h, s);
    } else if Rival(h, p) {
      var f :| f in h.sessions && f in h.starts && RivalOf(h.sessions[f], h.starts[f].expected, p);
      if expected == 0 { FounderFalls(h, f, s); } else { LateWaiterFalls(h, f, s); }
    } else {
      var f :| f in h.sessions && f in h.starts && Founder(h.sessions[f], h.starts[f].expected);
      LateWaiterFalls(h, f, s);
    }
  }

  /**
   Replacing the lock file leaves the fence standing in every continuation if and only if no session that has
   the file open may still overwrite the epoch file behind another's back. Sessions that hold the lease, or
   have advanced the file already, do no harm.
   */
  lemma ReplaceKeepsFenceIff(h: Host)
    requires FenceInv(h)
    ensures var g := Next(h, ReplaceLock);
            Calm(h) <==> forall steps :: CalmRun(g, steps) ==> Fenced(Run(g, steps))
  {
    var g := Next(h, ReplaceLock);
    if Calm(h) {
      AuthorityFence.StepKeeps(h, h.tick + 1, ReplaceLock);
      forall steps | CalmRun(g, steps) ensures Fenced(Run(g, steps)) {
        AuthorityFence.RunKeeps(g, steps);
        AuthorityFence.ValidatedIsNewest(Run(g, steps));
      }
    } else {
      UnrestFalls(h);
      var h1 :| Reaches(g, h1) && !Fenced(h1);
      var steps :| NoReplacement(steps) && Run(g, steps) == h1;
      assert CalmRun(g, steps);
    }
  }

  // ---------------------------------------------------------------- a failing run

  ghost predicate Spent(h: Host, epoch: nat) { exists a :: a in h.log && a.epoch == epoch }

  /** A session comes, takes the next epoch and goes. */
  lemma OneMore(g: Host, h: Host) returns (h1: Host)
    requires Reaches(g, h) && PathFree(h) && h.visible.Some? && h.visible.value < MAX_EPOCH
    ensures Reaches(g, h1) && PathFree(h1) && h1.lock == h.lock && h1.sessions == h.sessions
    ensures h1.visible == Some(h.visible.value + 1) && Spent(h1, h.visible.value + 1)
  {
    hide Reaches;
    var h2, s := Joins(g, h);
    var h3 := Advances(g, h2, s);
    var a :| h3.log == h2.log + [a] && a.sid == s && a.epoch == h.visible.value + 1;
    assert h3.log[|h2.log|] == a && a in h3.log;
    h1 := AuthorityLease.Ends(g, h3, s);
    assert h1.sessions == h.sessions && h1.log == h3.log;
  }

  /** The first epoch was spent, and a second session has just compared it. */
  lemma SecondCompares() returns (h: Host, s: Sid)
    ensures Reaches(FreshHost, h) && h.visible == Some(1) && PathFree(Next(h, ReplaceLock)) && Known(h)
    ensures s in h.sessions && h.sessions[s].Compared? && h.sessions[s].epoch == 1
    ensures Next(h, ReplaceLock).lock != Some(h.sessions[s].inode)
  {
    hide Reaches, Next;
    h := FirstSessionOpens();
    h := GreetsAndCompares(FreshHost, h, 1);
    h := Advances(FreshHost, h, 1);
    h := AuthorityLease.Ends(FreshHost, h, 1);
    assert h.sessions == map[] && h.lock == Some(0) && h.nextInode == 1;
    h, s := JoinsFirst(h);
    assert ClientsOk(FreshHost) && Known(FreshHost);
    ReachesKnown(FreshHost, h);
  }

  lemma JoinsFirst(h0: Host) returns (h: Host, s: Sid)
    requires Reaches(FreshHost, h0) && h0.sessions == map[] && h0.lock == Some(0) && h0.nextInode == 1
    requires h0.visible == Some(1)
    ensures Reaches(FreshHost, h) && h.visible == Some(1) && PathFree(Next(h, ReplaceLock))
    ensures s in h.sessions && h.sessions[s].Compared? && h.sessions[s].epoch == 1
    ensures Next(h, ReplaceLock).lock != Some(h.sessions[s].inode)
  {
    hide Reaches;
    h, s := Joins(FreshHost, h0);
    assert h.sessions == map[s := Compared(0, "a", 1)];
  }

  lemma ReachesKnown(g: Host, h: Host)
    requires Known(g) && Reaches(g, h)
    ensures Known(h)
  {
    var steps :| NoReplacement(steps) && Run(g, steps) == h;
    RunKeepsClients(g, steps);
  }

  /**
   A session has compared epoch 1, the lock file is replaced, and others spend the epochs up to 4. The
   session brings back epoch 2, and a process that passes validation then holds epoch 3.
   */
  lemma StaleSessionBreaksFence() returns (h: Host, h1: Host, t: Sid)
    ensures Reaches(FreshHost, h) && Reaches(Next(h, ReplaceLock), h1)
    ensures ValidateOk(h1, t) && h1.clients[t].epoch == 3 && Spent(h1, 4)
  {
    var s;
    h, s := SecondCompares();
    var g := Next(h, ReplaceLock);
    StaysReached(g);
    assert Known(g) && g.visible == Some(1) && g.sessions == h.sessions;
    hide Reaches, Next, PathFree, Known;
    h1 := OneMore(g, g);
    h1 := OneMore(g, h1);
    h1 := OneMore(g, h1);
    h1, t := BringsBack(g, h1, s);
  }

  lemma BringsBack(g: Host, h: Host, s: Sid) returns (h1: Host, t: Sid)
    requires Reaches(g, h) && Known(g) && PathFree(h) && Spent(h, 4)
    requires s in h.sessions && h.sessions[s].Compared? && h.sessions[s].epoch == 1
    requires h.lock != Some(h.sessions[s].inode)
    ensures Reaches(g, h1) && ValidateOk(h1, t) && h1.clients[t].epoch == 3 && Spent(h1, 4)
  {
    hide Reaches, Known;
    var four :| four in h.log && four.epoch == 4;
    var h2 := Advances(g, h, s);
    assert four in h2.log && LockFree(h2, h2.lock.value);
    var h3;
    h3, t := Joins(g, h2);
    NoClientYet(g, h3, t);
    var h4 := Advances(g, h3, t);
    assert four in h4.log;
    h1 := Delivers(g, h4, t);
  }
}
