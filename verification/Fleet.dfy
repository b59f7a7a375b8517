/**
 Several management processes, each with its own journal, sharing one execution authority. A journal
 validates only through the authority, so fencing by epoch reaches every dispatched command.
 */
module Fleet {
  import opened Basics
  import J = Journal
  import S = JournalSafety
  import A = Authority
  import F = AuthorityFence

  /** `worlds[p]` is the journal of process `p`, whose lease session has the same number. */
  datatype Fleet = Fleet(host: A.Host, worlds: map<A.Sid, J.World>, tick: nat)

  const FreshFleet := Fleet(A.FreshHost, map[], 0)

  datatype Step =
    | HostStep(h: A.Step)
    | StartProcess(p: A.Sid, records: J.World)
    | JournalStep(p: A.Sid, s: J.Step)

  /** A process starts with whatever records its data directory holds, and a clean history. */
  ghost predicate CleanStart(w: J.World) {
    S.Inv(w) && w.mem.None? && w.dispatched == []
  }

  /** Authority answers are the host's, and the installed epoch is the one the process acquired. */
  ghost predicate Honest(f: Fleet, p: A.Sid, s: J.Step) {
    && (s.SCmdValidate? && s.ok ==> A.ValidateOk(f.host, p))
    && (s.SSetAuthority? ==> p in f.host.clients && s.a.epoch == f.host.clients[p].epoch)
  }

  ghost function Apply(f: Fleet, st: Step): Fleet {
    var t := f.tick + 1;
    match st
    case HostStep(h) =>
      if h.ReplaceLock? && !F.Calm(f.host) then f else f.(host := A.StepAt(f.host, t, h), tick := t)
    case StartProcess(p, records) =>
      if p in f.worlds || !CleanStart(records) || records.tick > f.tick then f
      else f.(worlds := f.worlds[p := records], tick := t)
    case JournalStep(p, s) =>
      if p !in f.worlds || !Honest(f, p, s) then f
      else f.(worlds := f.worlds[p := J.StepAt(f.worlds[p], t, s)], tick := t)
  }

  ghost function Run(f: Fleet, steps: seq<Step>): Fleet {
    if steps == [] then f else Apply(Run(f, steps[..|steps| - 1]), steps[|steps| - 1])
  }

  // ---------------------------------------------------------------- what a journal step does to its commands

  /** An acquisition of a later epoch, or of the same one by another session. */
  predicate Overtakes(q: A.Acquisition, p: A.Sid, epoch: nat) { q.epoch > epoch || (q.epoch == epoch && q.sid != p) }

  /** No acquisition that overtakes `p` precedes the validation it made at `t` under `a`. */
  ghost predicate Fenced(log: seq<A.Acquisition>, p: A.Sid, a: Option<J.Authority>, t: nat) {
    a.Some? ==> forall q :: q in log && Overtakes(q, p, a.value.epoch) ==> q.at > t
  }

  ghost predicate ClearedFenced(log: seq<A.Acquisition>, p: A.Sid, a: Option<J.Authority>, e: Option<J.Exec>) {
    e.Some? && e.value.cmd.Cleared? ==> Fenced(log, p, a, e.value.cmd.validatedAt)
  }

  ghost predicate DispatchedFenced(log: seq<A.Acquisition>, p: A.Sid, ds: seq<J.Dispatch>) {
    forall d :: d in ds ==> Fenced(log, p, d.authority, d.validatedAt)
  }

  ghost predicate Bound(host: A.Host, p: A.Sid, m: J.Memory) {
    m.authority.Some? ==> p in host.clients && m.authority.value.epoch == host.clients[p].epoch
  }

  ghost predicate WorldInv(host: A.Host, p: A.Sid, w: J.World) {
    && DispatchedFenced(host.log, p, w.dispatched)
    && (w.mem.Some? ==>
          && Bound(host, p, w.mem.value)
          && ClearedFenced(host.log, p, w.mem.value.authority, w.mem.value.run)
          && ClearedFenced(host.log, p, w.mem.value.authority, w.mem.value.scribe))
  }

  ghost predicate Inv(f: Fleet) {
    && F.FenceInv(f.host) && f.host.tick <= f.tick
    && (forall p :: p in f.worlds ==>
        S.Inv(f.worlds[p]) && f.worlds[p].tick <= f.tick && WorldInv(f.host, p, f.worlds[p]))
  }

  ghost predicate SameCleared(e: Option<J.Exec>, e1: Option<J.Exec>) {
    e1.Some? && e1.value.cmd.Cleared? ==> e.Some? && e.value.cmd == e1.value.cmd
  }

  /** Nothing was dispatched, cleared or put under another authority. */
  ghost predicate Quiet(w: J.World, w1: J.World) {
    && w1.dispatched == w.dispatched
    && (w1.mem.Some? ==>
          var m1 := w1.mem.value;
          if w.mem.None? then m1.authority.None? && m1.run.None? && m1.scribe.None?
          else && m1.authority == w.mem.value.authority
               && SameCleared(w.mem.value.run, m1.run) && SameCleared(w.mem.value.scribe, m1.scribe))
  }

  lemma JobStepIsQuiet(w: J.World, s: J.Step)
    requires S.JobStep(s)
    ensures Quiet(w, J.Apply(w, s))
  {
    hide J.Duplicate, J.Available, J.Oldest, J.FinalStatus;
  }

  lemma DeskStepIsQuiet(w: J.World, s: J.Step)
    requires S.DeskStep(s)
    ensures Quiet(w, J.Apply(w, s))
  {
    hide J.Available, J.AllResolved, J.Observed, J.IndexOf;
  }

  lemma CommandStepIsQuiet(w: J.World, s: J.Step)
    requires S.CommandStep(s) && !s.SCmdValidate? && !s.SCmdCall?
    ensures Quiet(w, J.Apply(w, s))
  {
    if s.SResource? || s.SCmdBegin? { IntentStepIsQuiet(w, s); } else { PhaseStepIsQuiet(w, s); }
  }

  lemma IntentStepIsQuiet(w: J.World, s: J.Step)
    requires s.SResource? || s.SCmdBegin?
    ensures Quiet(w, J.Apply(w, s))
  {
    hide J.IntentAdmitted, J.HasId, J.CommandId;
  }

  lemma PhaseStepIsQuiet(w: J.World, s: J.Step)
    requires s.SCmdCheck? || s.SCmdGuard? || s.SCmdStamp? || s.SCmdAbort?
    ensures Quiet(w, J.Apply(w, s))
  {
    hide J.AllReceipted, J.AllResolved, J.StampAll;
  }

  /** A step other than validate, call and installing an authority neither clears nor dispatches anything. */
  lemma MostStepsAreQuiet(w: J.World, s: J.Step)
    requires !s.SCmdValidate? && !s.SCmdCall? && !s.SSetAuthority?
    ensures Quiet(w, J.Apply(w, s))
  {
    if S.JobStep(s) {
      JobStepIsQuiet(w, s);
    } else if S.DeskStep(s) {
      DeskStepIsQuiet(w, s);
    } else if S.CommandStep(s) {
      CommandStepIsQuiet(w, s);
    }
  }

  lemma QuietKeepsWorld(host: A.Host, p: A.Sid, w: J.World, w1: J.World)
    requires WorldInv(host, p, w) && Quiet(w, w1)
    ensures WorldInv(host, p, w1)
  {
  }

  /** Installing an authority happens while nothing runs. */
  lemma SetAuthorityKeepsWorld(host: A.Host, p: A.Sid, w: J.World, a: J.Authority)
    requires S.Inv(w) && WorldInv(host, p, w) && p in host.clients && a.epoch == host.clients[p].epoch
    ensures WorldInv(host, p, J.SetAuthority(w, a))
  {
  }

  /** The host's answer at `w.tick` is what makes the clearance safe. */
  lemma ValidateKeepsWorld(host: A.Host, p: A.Sid, w: J.World, slot: J.Slot, ok: bool)
    requires F.FenceInv(host) && WorldInv(host, p, w) && (ok ==> A.ValidateOk(host, p))
    ensures WorldInv(host, p, J.CmdValidate(w, slot, ok))
  {
    if J.Acting(w, slot) && J.ExecOf(w.mem.value, slot).value.cmd.Guarded? && J.Valid(w.mem.value, ok) {
      var a := w.mem.value.authority;
      if a.Some? {
        F.ValidatedIsNewest(host);
        assert Fenced(host.log, p, a, w.tick);
      }
    }
  }

  lemma CallKeepsWorld(host: A.Host, p: A.Sid, w: J.World, slot: J.Slot, result: J.CallResult)
    requires WorldInv(host, p, w)
    ensures WorldInv(host, p, J.CmdCall(w, slot, result))
  {
  }

  lemma LaterWorld(host: A.Host, p: A.Sid, w: J.World, t: nat)
    requires S.Inv(w) && w.tick <= t && WorldInv(host, p, w)
    ensures S.Inv(w.(tick := t)) && WorldInv(host, p, w.(tick := t))
  {
    S.TickKeepsInv(w, t);
  }

  lemma JournalStepKeepsWorld(f: Fleet, p: A.Sid, s: J.Step)
    requires Inv(f) && p in f.worlds && Honest(f, p, s)
    ensures WorldInv(f.host, p, J.StepAt(f.worlds[p], f.tick + 1, s))
  {
    hide WorldInv, S.Inv, Quiet, A.ValidateOk, F.FenceInv;
    var w := f.worlds[p].(tick := f.tick + 1);
    LaterWorld(f.host, p, f.worlds[p], f.tick + 1);
    match s
    case SCmdValidate(slot, ok) => ValidateKeepsWorld(f.host, p, w, slot, ok);
    case SCmdCall(slot, result) => CallKeepsWorld(f.host, p, w, slot, result);
    case SSetAuthority(a) => SetAuthorityKeepsWorld(f.host, p, w, a);
    case _ => QuietStepKeepsWorld(f.host, p, w, s);
  }

  lemma QuietStepKeepsWorld(host: A.Host, p: A.Sid, w: J.World, s: J.Step)
    requires WorldInv(host, p, w) && !s.SCmdValidate? && !s.SCmdCall? && !s.SSetAuthority?
    ensures WorldInv(host, p, J.Apply(w, s))
  {
    hide WorldInv, Quiet, J.Apply;
    MostStepsAreQuiet(w, s);
    QuietKeepsWorld(host, p, w, J.Apply(w, s));
  }

  /** A host step only adds acquisitions made now, and never changes a client's epoch. */
  lemma HostStepKeepsWorlds(f: Fleet, st: A.Step, p: A.Sid, w: J.World)
    requires Inv(f) && WorldInv(f.host, p, w) && w.tick <= f.tick && S.Inv(w)
    ensures WorldInv(A.StepAt(f.host, f.tick + 1, st), p, w)
  {
    var h, h1 := f.host, A.StepAt(f.host, f.tick + 1, st);
    HostStepShape(h, f.tick + 1, st, p);
    hide A.Apply, A.StepAt;
    forall a: Option<J.Authority>, t: nat | Fenced(h.log, p, a, t) && t <= f.tick ensures Fenced(h1.log, p, a, t) {
    }
  }

  lemma HostStepShape(h: A.Host, t: nat, st: A.Step, p: A.Sid)
    ensures var h1 := A.StepAt(h, t, st);
            && |h1.log| >= |h.log| && h1.log[..|h.log|] == h.log
            && (forall q :: q in h1.log && q !in h.log ==> q.at == t)
            && (p in h.clients ==> p in h1.clients && h1.clients[p].epoch == h.clients[p].epoch)
  {
    hide A.ValidateOk, A.Admits, A.LockFree, A.ValidInstance;
    if !st.Sync? { assert A.StepAt(h, t, st).log == h.log; }
    ClientStays(h, t, st, p);
  }

  lemma ClientStays(h: A.Host, t: nat, st: A.Step, p: A.Sid)
    ensures var h1 := A.StepAt(h, t, st);
            p in h.clients ==> p in h1.clients && h1.clients[p].epoch == h.clients[p].epoch
  {
    hide A.ValidateOk, A.Admits, A.LockFree, A.ValidInstance;
  }

  lemma HostStepKeepsInv(f: Fleet, h: A.Step)
    requires Inv(f)
    ensures Inv(Apply(f, HostStep(h)))
  {
    hide S.Inv, WorldInv, F.FenceInv, A.StepAt;
    if h.ReplaceLock? ==> F.Calm(f.host) {
      F.StepKeeps(f.host, f.tick + 1, h);
      HostTick(f.host, f.tick + 1, h);
      forall p | p in f.worlds ensures WorldInv(A.StepAt(f.host, f.tick + 1, h), p, f.worlds[p]) {
        HostStepKeepsWorlds(f, h, p, f.worlds[p]);
      }
    }
  }

  lemma HostTick(h: A.Host, t: nat, st: A.Step)
    ensures A.StepAt(h, t, st).tick == t
  {
  }

  lemma WorldTick(w: J.World, t: nat, s: J.Step)
    ensures J.StepAt(w, t, s).tick == t
  {
  }

  lemma JournalStepKeepsInv(f: Fleet, p: A.Sid, s: J.Step)
    requires Inv(f)
    ensures Inv(Apply(f, JournalStep(p, s)))
  {
    hide S.Inv, WorldInv, F.FenceInv, J.StepAt, Honest;
    if p in f.worlds && Honest(f, p, s) {
      S.StepKeepsInv(f.worlds[p], f.tick + 1, s);
      WorldTick(f.worlds[p], f.tick + 1, s);
      JournalStepKeepsWorld(f, p, s);
    }
  }

  lemma StepKeepsInv(f: Fleet, st: Step)
    requires Inv(f)
    ensures Inv(Apply(f, st))
  {
    match st
    case HostStep(h) => HostStepKeepsInv(f, h);
    case StartProcess(p, records) => hide F.FenceInv, S.Inv;
    case JournalStep(p, s) => JournalStepKeepsInv(f, p, s);
  }

  lemma {:induction false} RunKeepsInv(f: Fleet, steps: seq<Step>)
    requires Inv(f)
    ensures Inv(Run(f, steps))
  {
    if steps != [] {
      RunKeepsInv(f, steps[..|steps| - 1]);
      StepKeepsInv(Run(f, steps[..|steps| - 1]), steps[|steps| - 1]);
    }
  }

  /**
   Fencing over every run of any number of processes, the lock file replaced whenever that is calm: a
   command sent under an authority was validated after its intent became durable, and by the moment of that
   validation no other session had acquired that epoch or a later one. So once another instance holds a
   later epoch, no call validated afterwards goes out under the old one.
   */
  lemma NoDispatchUnderASupersededEpoch(steps: seq<Step>, p: A.Sid, d: J.Dispatch)
    requires var f := Run(FreshFleet, steps); p in f.worlds && d in f.worlds[p].dispatched
    ensures var f := Run(FreshFleet, steps);
            && d.savedAt < d.validatedAt
            && (d.authority.Some? ==>
                forall q :: q in f.host.log && Overtakes(q, p, d.authority.value.epoch) ==> q.at > d.validatedAt)
  {
    RunKeepsInv(FreshFleet, steps);
    var f := Run(FreshFleet, steps);
    assert WorldInv(f.host, p, f.worlds[p]);
    assert Fenced(f.host.log, p, d.authority, d.validatedAt);
  }
}
