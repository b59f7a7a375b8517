/**
 The policy file of a data directory: which authority its processes must ask, and the epoch they expect.
 Processes read it at every start, and rewrite it with each epoch they acquire.
 */
module AuthorityPolicy {
  import opened Basics

  datatype Policy = Policy(host: string, binary: string, state: string, expected: nat)

  /** A creation that died may leave a file that does not parse. */
  datatype File = Absent | Damaged | Present(policy: Policy)

  datatype Answer = Unrestricted | Ask(policy: Policy) | Refused

  predicate Complete(p: Policy) { p.host != "" && p.binary != "" && p.state != "" }

  predicate SameAuthority(p: Policy, q: Policy) { p.host == q.host && p.binary == q.binary && p.state == q.state }

  /** What a creation of the file may leave: nothing, a torn file, or the whole policy. */
  predicate Possible(requested: Policy, after: File, ok: bool) {
    after == Present(requested) || (!ok && !after.Present?)
  }

  class Directory {
    var file: File

    constructor ()
      ensures file == Absent
    {
      file := Absent;
    }

    /** Decide how a process of this directory may run, given the options it was started with. */
    method ExecutionPolicy(requested: Policy, after: File, ok: bool) returns (a: Answer)
      requires Possible(requested, after, ok)
      modifies this
      ensures (file, a) == Decide(old(file), requested, after, ok)
      ensures a.Unrestricted? <==> old(file).Absent? && requested.host == ""
      ensures a.Ask? ==> file == Present(a.policy) && (requested.host != "" ==> SameAuthority(a.policy, requested))
      ensures !old(file).Absent? ==> file == old(file)
      ensures old(file).Present? ==>
                var p := old(file).policy;
                a == if && p.host != "" && p.binary != "" && p.state != ""
                        && (requested.host == "" || (requested.host == p.host && requested.binary == p.binary
                                                     && requested.state == p.state)) then Ask(p) else Refused
      ensures old(file).Damaged? ==> a == Refused
    {
      if file.Present? || file.Damaged? {
        if file.Damaged? || !Complete(file.policy) { return Refused; }
        if requested.host != "" && !SameAuthority(requested, file.policy) { return Refused; }
        return Ask(file.policy);
      }
      if requested.host == "" { return Unrestricted; }
      file := after;
      if !ok { return Refused; }
      a := Ask(requested);
    }

    /** Rewrite the file by rename with the epoch a process has acquired. */
    method RecordExecutionEpoch(policy: Policy, epoch: nat, wr: Write) returns (ok: bool)
      modifies this
      ensures file == Recorded(old(file), policy, epoch, wr) && ok == wr.Landed?
    {
      if Stored(wr) { file := Present(policy.(expected := epoch)); }
      ok := wr.Landed?;
    }
  }

  function Decide(file: File, requested: Policy, after: File, ok: bool): (File, Answer) {
    match file
    case Damaged => (file, Refused)
    case Present(p) =>
      (file, if Complete(p) && (requested.host == "" || SameAuthority(requested, p)) then Ask(p) else Refused)
    case Absent =>
      if requested.host == "" then (file, Unrestricted) else (after, if ok then Ask(requested) else Refused)
  }

  function Recorded(file: File, policy: Policy, epoch: nat, wr: Write): File {
    if Stored(wr) then Present(policy.(expected := epoch)) else file
  }

  // ---------------------------------------------------------------- every run

  /** `asking` holds, for each process, the policy it was told to follow; `acquired` the epoch it then acquired. */
  datatype State = State(file: File, asking: map<nat, Policy>, acquired: map<nat, nat>, last: Answer)

  const NewDirectory := State(Absent, map[], map[], Refused)

  /** A process names the epoch of its policy or an operator's override, and acquires the next one. */
  datatype Step =
    | Begin(process: nat, requested: Policy, after: File, ok: bool)
    | Acquire(process: nat, override: Option<nat>)
    | Record(process: nat, wr: Write)

  function Apply(s: State, st: Step): State {
    match st
    case Begin(i, requested, after, ok) =>
      if !Possible(requested, after, ok) || i in s.asking then s
      else
        var (file, a) := Decide(s.file, requested, after, ok);
        s.(file := file, asking := if a.Ask? then s.asking[i := a.policy] else s.asking, last := a)
    case Acquire(i, override) =>
      if i !in s.asking || i in s.acquired then s
      else s.(acquired := s.acquired[i := (if override.Some? then override.value else s.asking[i].expected) + 1])
    case Record(i, wr) =>
      if i !in s.asking || i !in s.acquired then s
      else s.(file := Recorded(s.file, s.asking[i], s.acquired[i], wr))
  }

  function Run(s: State, steps: seq<Step>): State {
    if steps == [] then s else Apply(Run(s, steps[..|steps| - 1]), steps[|steps| - 1])
  }

  /** Whoever asks an authority asks the one on file. */
  ghost predicate OneAuthority(s: State) {
    forall i :: i in s.asking ==> s.file.Present? && SameAuthority(s.asking[i], s.file.policy)
  }

  lemma StepKeepsAuthority(s: State, st: Step)
    requires OneAuthority(s)
    ensures OneAuthority(Apply(s, st))
    ensures s.file.Present? ==> Apply(s, st).file.Present? && SameAuthority(s.file.policy, Apply(s, st).file.policy)
  {
  }

  lemma {:induction false} RunKeepsAuthority(s: State, steps: seq<Step>)
    requires OneAuthority(s)
    ensures OneAuthority(Run(s, steps))
    ensures s.file.Present? ==> Run(s, steps).file.Present? && SameAuthority(s.file.policy, Run(s, steps).file.policy)
  {
    if steps != [] {
      RunKeepsAuthority(s, steps[..|steps| - 1]);
      StepKeepsAuthority(Run(s, steps[..|steps| - 1]), steps[|steps| - 1]);
    }
  }

  /**
   Once a process was told to ask an authority, no later start of any process in that directory, with
   whatever options and after whatever failed writes, runs without it or under another one: it is refused,
   or asks the same authority with exactly the epoch on file.
   */
  lemma OnceEnabledStaysEnabled(steps: seq<Step>, i: nat, later: seq<Step>, st: Step)
    requires var s := Run(NewDirectory, steps); i in s.asking
    requires st.Begin? && Possible(st.requested, st.after, st.ok)
    requires st.process !in Run(Run(NewDirectory, steps), later).asking
    ensures var s := Run(NewDirectory, steps);
            var s1 := Run(s, later);
            var a := Apply(s1, st).last;
            || a.Refused?
            || (a.Ask? && SameAuthority(a.policy, s.asking[i]) && s1.file == Present(a.policy))
  {
    var s := Run(NewDirectory, steps);
    RunKeepsAuthority(NewDirectory, steps);
    RunKeepsAuthority(s, later);
  }

  // ---------------------------------------------------------------- the epoch on file

  /** The epoch on file is one that some process of the directory acquired. */
  ghost predicate Spent(s: State) {
    s.file.Present? && exists i :: i in s.acquired && s.acquired[i] == s.file.policy.expected
  }

  lemma StepKeepsEpoch(s: State, st: Step)
    requires OneAuthority(s) && s.file.Present?
    ensures var s1 := Apply(s, st);
            && s1.file.Present? && (s1.file.policy.expected == s.file.policy.expected || Spent(s1))
            && (Spent(s) ==> Spent(s1))
  {
    if Spent(s) && st.Acquire? {
      var k :| k in s.acquired && s.acquired[k] == s.file.policy.expected;
      assert k in Apply(s, st).acquired && Apply(s, st).acquired[k] == s.acquired[k];
    }
    if st.Record? && st.process in s.asking && st.process in s.acquired && Stored(st.wr) {
      assert Apply(s, st).acquired[st.process] == Apply(s, st).file.policy.expected;
    }
  }

  /**
   Over every run of a directory, at any moment later than one at which the policy is on file: it is still
   there, names the same authority, and its epoch is the one it had or one that a process of the directory
   acquired.
   */
  lemma {:induction false} EpochOnFileWasAcquired(steps: seq<Step>, later: seq<Step>)
    requires Run(NewDirectory, steps).file.Present?
    ensures var s, s1 := Run(NewDirectory, steps), Run(Run(NewDirectory, steps), later);
            && s1.file.Present? && SameAuthority(s.file.policy, s1.file.policy)
            && (s1.file.policy.expected == s.file.policy.expected || Spent(s1))
  {
    hide Apply;
    var s := Run(NewDirectory, steps);
    RunKeepsAuthority(NewDirectory, steps);
    RunKeepsAuthority(s, later);
    if later != [] {
      var front := later[..|later| - 1];
      EpochOnFileWasAcquired(steps, front);
      RunKeepsAuthority(s, front);
      StepKeepsEpoch(Run(s, front), later[|later| - 1]);
    }
  }

  /** Some process of the run asked for `p`. */
  ghost predicate Requested(steps: seq<Step>, p: Policy) {
    exists k :: 0 <= k < |steps| && steps[k].Begin? && steps[k].requested == p
  }

  /** The policy on file is `p`, but for an epoch that some process acquired. */
  ghost predicate ComesFrom(s: State, p: Policy) {
    s.file.Present? && SameAuthority(p, s.file.policy) && (s.file.policy.expected == p.expected || Spent(s))
  }

  /** Over every run, what is on file goes back to one request of one process. */
  ghost predicate GoesBack(steps: seq<Step>, s: State) {
    s.file.Present? ==> exists p :: Requested(steps, p) && ComesFrom(s, p)
  }

  lemma {:induction false} FileGoesBackToRequest(steps: seq<Step>)
    ensures GoesBack(steps, Run(NewDirectory, steps))
  {
    if steps != [] {
      var front, last := steps[..|steps| - 1], steps[|steps| - 1];
      var s, s1 := Run(NewDirectory, front), Run(NewDirectory, steps);
      FileGoesBackToRequest(front);
      RunKeepsAuthority(NewDirectory, front);
      if s.file.Present? {
        var p :| Requested(front, p) && ComesFrom(s, p);
        var k :| 0 <= k < |front| && front[k].Begin? && front[k].requested == p;
        assert steps[k] == front[k];
        StepKeepsAuthority(s, last);
        StepKeepsEpoch(s, last);
        assert Requested(steps, p) && ComesFrom(s1, p);
      } else if s1.file.Present? {
        assert steps[|front|] == last && last.Begin? && s1.file.policy == last.requested;
        assert Requested(steps, last.requested) && ComesFrom(s1, last.requested);
      }
    }
  }
}
