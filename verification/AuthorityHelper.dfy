/** The helper process and the client object of the execution lease, as the objects that change in place. */
module AuthorityHelper {
  import opened Basics
  import opened Authority

  /** The authority host as the helper process sees and changes it. */
  class Helper {
    var lock: Option<Inode>
    var nextInode: Inode
    var visible: Option<nat>
    var durable: Option<nat>
    var sessions: map<Sid, Phase>
    ghost var rest: Host

    ghost function View(): Host
      reads this
    {
      rest.(lock := lock, nextInode := nextInode, visible := visible, durable := durable, sessions := sessions)
    }

    constructor (h: Host)
      ensures View() == h
    {
      lock, nextInode, visible, durable, sessions, rest := h.lock, h.nextInode, h.visible, h.durable, h.sessions, h;
    }

    method IsLockFree(inode: Inode) returns (r: bool)
      ensures r == LockFree(View(), inode)
    {
      var left := sessions.Keys;
      while left != {}
        invariant left <= sessions.Keys
        invariant forall s :: s in sessions && s !in left && Holds(sessions[s]) ==> sessions[s].inode != inode
        decreases |left|
      {
        var s :| s in left;
        if Holds(sessions[s]) && sessions[s].inode == inode { return false; }
        left := left - {s};
      }
      r := true;
    }

    /** A process in `dir` starts a session: remember whether the lock file existed, then open or create it. */
    method OpenLockFile(s: Sid, ghost dir: Dir, ghost override: Option<nat>)
      requires s !in sessions && s !in rest.starts && dir in rest.dirs
      modifies this`lock, this`nextInode, this`sessions, this`rest
      ensures View() == Apply(Apply(old(View()), Stat(s, dir, override)), OpenLock(s))
      ensures s in sessions && sessions[s].Opened?
    {
      ghost var expected := if override.Some? then override.value else rest.dirs[dir];
      rest := rest.(starts := rest.starts[s := Start(dir, expected, override.Some?)]);
      var hadLock := lock.Some?;
      if !hadLock {
        lock := Some(nextInode);
        nextInode := nextInode + 1;
      }
      assert sessions[s := Statted(hadLock)][s := Opened(hadLock, lock.value)] ==
             sessions[s := Opened(hadLock, lock.value)];
      sessions := sessions[s := Opened(hadLock, lock.value)];
    }

    /** Check the greeting, sent with the epoch the process started with, and take the lock without waiting. */
    method Greet(s: Sid, instance: string, expected: nat) returns (ok: bool)
      requires s in sessions && sessions[s].Opened? && s in rest.starts && expected == rest.starts[s].expected
      modifies this`sessions
      ensures View() == Apply(Apply(old(View()), Hello(s, instance)), TakeLock(s))
      ensures ok == (s in sessions) && (ok ==> sessions[s].Locked?)
    {
      var p := sessions[s];
      ok := false;
      if !ValidInstance(instance) {
        sessions := sessions - {s};
        return;
      }
      sessions := sessions[s := Greeted(p.hadLock, p.inode, instance, expected)];
      ok := IsLockFree(p.inode);
      if ok {
        sessions := sessions[s := Locked(p.hadLock, p.inode, instance, expected)];
      } else {
        sessions := sessions - {s};
      }
    }

    /** Compare the expected epoch with the file; an absent file counts only on first use. */
    method CompareEpoch(s: Sid) returns (ok: bool)
      requires s in sessions && sessions[s].Locked?
      modifies this`sessions
      ensures View() == Apply(old(View()), Compare(s))
      ensures ok == (s in sessions) && (ok ==> sessions[s].Compared?)
      ensures ok <==> && old(sessions)[s].expected != MAX_EPOCH
                      && (if visible.Some? then visible.value == old(sessions)[s].expected
                          else old(sessions)[s].expected == 0 && !old(sessions)[s].hadLock)
    {
      var p := sessions[s];
      var epoch := 0;
      ok := true;
      if visible.Some? {
        epoch := visible.value;
      } else if p.hadLock {
        ok := false;
      }
      if !ok || epoch == MAX_EPOCH || p.expected != epoch {
        sessions := sessions - {s};
        return false;
      }
      sessions := sessions[s := Compared(p.inode, p.instance, epoch)];
    }

    /** Advance the epoch file by rename, then make it durable; only then is the lease acquired. */
    method AdvanceEpoch(s: Sid, renamed: bool, synced: bool)
      requires s in sessions && sessions[s].Compared?
      modifies this
      ensures View() == Apply(Apply(old(View()), Rename(s, renamed)), Sync(s, synced))
    {
      var p := sessions[s];
      if !renamed {
        sessions := sessions - {s};
        return;
      }
      var epoch := p.epoch + 1;
      visible := Some(epoch);
      if !synced {
        sessions := sessions - {s};
        return;
      }
      durable := visible;
      sessions := sessions[s := Leased(p.inode, p.instance, epoch)];
      rest := rest.(log := rest.log + [Acquisition(s, p.epoch, epoch, rest.tick)]);
    }
  }

  /** What the helper sees when one request line arrives. */
  datatype Request = Request(validate: bool, instance: string, epoch: nat, file: Option<nat>, sameInode: bool)

  /** The validation loop answers exactly the longest good prefix of its requests, then ends for good. */
  method ServeValidations(instance: string, epoch: nat, requests: seq<Request>) returns (answered: nat)
    ensures answered <= |requests|
    ensures forall i :: 0 <= i < answered ==> requests[i] == Request(true, instance, epoch, Some(epoch), true)
    ensures answered < |requests| ==> requests[answered] != Request(true, instance, epoch, Some(epoch), true)
  {
    answered := 0;
    while answered < |requests|
      invariant 0 <= answered <= |requests|
      invariant forall i :: 0 <= i < answered ==> requests[i] == Request(true, instance, epoch, Some(epoch), true)
    {
      var r := requests[answered];
      if !r.validate || r.instance != instance || r.epoch != epoch { return; }
      if r.file != Some(epoch) { return; }
      if !r.sameInode { return; }
      answered := answered + 1;
    }
  }

  datatype Reply = Reply(op: string, instance: string, epoch: nat)

  /** The management process's handle. A failed exchange poisons it for good; it never reconnects. */
  class Handle {
    var poisoned: bool
    var instance: string
    var epoch: nat

    /** `reply` is the answer, or nothing when the exchange failed or timed out. */
    constructor Acquire(name: string, expected: nat, reply: Option<Reply>)
      requires expected <= MAX_EPOCH
      ensures instance == name
      ensures !poisoned <==> reply == Some(Reply("acquired", name, expected + 1)) && expected < MAX_EPOCH
      ensures !poisoned ==> epoch == expected + 1
    {
      instance := name;
      if reply.None? || reply.value.op != "acquired" || reply.value.instance != name || reply.value.epoch == 0
         || expected == MAX_EPOCH || reply.value.epoch != expected + 1 {
        poisoned, epoch := true, 0;
      } else {
        poisoned, epoch := false, reply.value.epoch;
      }
    }

    method Validate(name: string, e: nat, reply: Option<Reply>) returns (ok: bool)
      modifies this`poisoned
      ensures ok <==> !old(poisoned) && name == instance && e == epoch && reply == Some(Reply("valid", instance, epoch))
      ensures poisoned <==> old(poisoned) || (name == instance && e == epoch && !ok)
    {
      if poisoned || name != instance || e != epoch { return false; }
      if reply.None? || reply.value.op != "valid" || reply.value.instance != name || reply.value.epoch != e {
        poisoned := true;
        return false;
      }
      ok := true;
    }
  }
}
