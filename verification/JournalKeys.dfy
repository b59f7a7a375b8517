/**
 Stored records and dedupe keys. A submission looks for its key among the jobs in memory only, so a record
 that a failed save left in storage is not seen: exactly then one key can get a second record.
 */
module JournalKeys {
  import opened Basics
  import opened Journal
  import opened JournalLabels
  import opened JournalOrder
  import S = JournalSafety

  function DiskLabels(disk: map<JobId, Job>): Labels { map id | id in disk :: (disk[id].kind, disk[id].dedupe) }

  /** Memory and storage agree on what each job is for. */
  ghost predicate Matched(w: World) { S.Inv(w) && WorldLabelled(w, DiskLabels(w.disk)) }

  lemma Relabel(w: World, l: Labels)
    requires WorldLabelled(w, l) && S.Inv(w)
    ensures Matched(w)
  {
    assert w.mem.Some? ==> forall id :: id in w.mem.value.jobs ==> id in w.disk;
    hide S.Inv;
  }

  /** What a step makes of the labels of the stored records. */
  lemma StepLabels(w: World, s: Step) returns (l: Labels)
    requires Matched(w)
    ensures Matched(Next(w, s)) && Labelled(Next(w, s).disk, l)
    ensures l == DiskLabels(w.disk) || (Creates(s) && s.id !in w.used && l == DiskLabels(w.disk)[s.id := Tag(s)])
  {
    hide S.Inv, Apply, WorldLabelled;
    l := DiskLabels(w.disk);
    var w0, w1 := w.(tick := w.tick + 1), Next(w, s);
    assert WorldLabelled(w0, l) by { LaterIsLabelled(w, l); }
    S.StepKeepsInv(w, w.tick + 1, s);
    if Creates(s) {
      CreateKeepsLabels(w0, l, s);
      if w1.used != w.used {
        CreatesFresh(w0, s);
        l := l[s.id := Tag(s)];
      }
    } else {
      StepKeepsLabels(w0, l, s);
    }
    Relabel(w1, l);
    assert Labelled(w1.disk, l) by { DiskIsLabelled(w1, l); }
  }

  lemma LaterIsLabelled(w: World, l: Labels)
    requires WorldLabelled(w, l)
    ensures WorldLabelled(w.(tick := w.tick + 1), l)
  {
  }

  lemma DiskIsLabelled(w: World, l: Labels)
    requires WorldLabelled(w, l)
    ensures Labelled(w.disk, l)
  {
  }

  // ---------------------------------------------------------------- one record per key

  /** No two stored records share a kind and a dedupe key. */
  ghost predicate OnePerKey(disk: map<JobId, Job>) {
    forall a, b :: a in disk && b in disk && a != b && disk[a].dedupe != "" ==> !SameLabel(disk[a], disk[b])
  }

  /** A record of this key is stored, although the manager does not hold it. */
  ghost predicate Unseen(w: World, kind: string, dedupe: string)
    requires w.mem.Some?
  {
    exists k :: k in w.disk && k !in w.mem.value.jobs && w.disk[k].kind == kind && w.disk[k].dedupe == dedupe
  }

  /** A keyed submission passes every check and its record reaches storage beside an unseen one of its key. */
  ghost predicate Repeats(w: World, s: Step) {
    && s.SSubmit? && s.dedupe != "" && Stored(s.wr)
    && Accepts(w, s.kind, s.dedupe, s.id, s.victim, s.removed, Landed) && Unseen(w, s.kind, s.dedupe)
  }

  lemma SubLabels(disk: map<JobId, Job>, disk1: map<JobId, Job>)
    requires OnePerKey(disk) && Labelled(disk1, DiskLabels(disk))
    ensures OnePerKey(disk1)
  {
  }

  /** A new record without a key, or with a key that nobody else has. */
  lemma NewLabelKeeps(disk: map<JobId, Job>, disk1: map<JobId, Job>, id: JobId, tag: (string, string))
    requires OnePerKey(disk) && id !in disk && Labelled(disk1, DiskLabels(disk)[id := tag])
    requires tag.1 == "" || forall k :: k in disk1 && k != id ==> (disk1[k].kind, disk1[k].dedupe) != tag
    ensures OnePerKey(disk1)
  {
  }

  lemma SubmitStores(w: World, s: Step)
    requires S.Inv(w) && w.mem.Some? && s.SSubmit? && s.id !in w.used
    ensures var disk := Next(w, s).disk;
            && (Stored(s.wr) && Accepts(w, s.kind, s.dedupe, s.id, s.victim, s.removed, Landed) <==> s.id in disk)
            && (s.id in disk ==> disk[s.id].kind == s.kind && disk[s.id].dedupe == s.dedupe)
            && (forall k :: k in w.disk && k !in w.mem.value.jobs ==> k in disk && disk[k] == w.disk[k])
            && (forall k :: k in disk && k != s.id ==> k in w.disk && disk[k] == w.disk[k])
  {
    assert s.id !in w.disk;
    hide S.Inv, Available, Duplicate;
  }

  lemma SubmitKeepsKeysIff(w: World, s: Step)
    requires Matched(w) && OnePerKey(w.disk) && w.mem.Some? && s.SSubmit? && s.id !in w.used
    ensures OnePerKey(Next(w, s).disk) <==> !Repeats(w, s)
  {
    var disk := Next(w, s).disk;
    SubmitStores(w, s);
    if Repeats(w, s) {
      var k :| k in w.disk && k !in w.mem.value.jobs && w.disk[k].kind == s.kind && w.disk[k].dedupe == s.dedupe;
      assert SameLabel(disk[s.id], disk[k]) && s.id != k;
    } else if s.id in disk && s.dedupe != "" {
      assert !Duplicate(w.mem.value.jobs, s.kind, s.dedupe);
      hide S.Inv;
      forall k | k in disk && k != s.id ensures (disk[k].kind, disk[k].dedupe) != (s.kind, s.dedupe) {
        if k in w.mem.value.jobs { assert SameLabel(w.mem.value.jobs[k], w.disk[k]); }
      }
    }
    hide S.Inv, Next;
  }

  /**
   A step of the journal keeps one stored record per dedupe key if and only if it is not a submission whose
   record reaches storage while a record of its key, which the manager does not hold, is there.
   */
  lemma StepKeepsKeysIff(w: World, s: Step)
    requires Matched(w) && OnePerKey(w.disk)
    ensures Matched(Next(w, s)) && (OnePerKey(Next(w, s).disk) <==> !Repeats(w, s))
  {
    hide S.Inv, Apply, WorldLabelled, OnePerKey;
    var l := StepLabels(w, s);
    if s.SSubmit? && w.mem.Some? && s.id !in w.used {
      SubmitKeepsKeysIff(w, s);
    } else if l == DiskLabels(w.disk) {
      SubLabels(w.disk, Next(w, s).disk);
    } else {
      NothingUnopened(w, s);
      if s.SManualBegin? { NewLabelKeeps(w.disk, Next(w, s).disk, s.id, Tag(s)); }
    }
  }

  lemma NothingUnopened(w: World, s: Step)
    requires S.Inv(w) && Creates(s) && s.id !in w.used
    ensures s.id !in w.disk && (w.mem.None? ==> Next(w, s).disk == w.disk)
  {
    assert w.disk.Keys <= w.used;
    hide S.Inv;
  }

  // ---------------------------------------------------------------- every run

  ghost predicate NoRepeat(steps: seq<Step>) {
    forall i :: 0 <= i < |steps| ==> !Repeats(Run(FreshWorld, steps[..i]), steps[i])
  }

  ghost predicate AlwaysOnePerKey(steps: seq<Step>) {
    forall i :: 0 <= i <= |steps| ==> OnePerKey(Run(FreshWorld, steps[..i]).disk)
  }

  lemma FreshIsMatched()
    ensures Matched(FreshWorld) && OnePerKey(FreshWorld.disk)
  {
    S.EveryRun([]);
    hide S.Inv;
  }

  lemma {:induction false} RunIsMatched(steps: seq<Step>)
    ensures Matched(Run(FreshWorld, steps))
  {
    hide Matched, Next;
    if steps == [] {
      FreshIsMatched();
    } else {
      RunIsMatched(steps[..|steps| - 1]);
      var l := StepLabels(Run(FreshWorld, steps[..|steps| - 1]), steps[|steps| - 1]);
    }
  }

  /** Storage holds one record per dedupe key throughout a run if and only if no submission of the run repeats one. */
  lemma {:induction false} KeysInEveryRunIff(steps: seq<Step>)
    ensures AlwaysOnePerKey(steps) <==> NoRepeat(steps)
  {
    hide Matched, Repeats, OnePerKey, Next, NoRepeat, AlwaysOnePerKey;
    if steps == [] {
      FreshIsMatched();
      assert AlwaysOnePerKey([]) && NoRepeat([]) by { NoSteps(); }
    } else {
      var front, last := steps[..|steps| - 1], steps[|steps| - 1];
      KeysInEveryRunIff(front);
      RunIsMatched(front);
      OneMoreStep(steps);
      var w := Run(FreshWorld, front);
      LastMoment(front);
      if OnePerKey(w.disk) { StepKeepsKeysIff(w, last); }
    }
  }

  lemma NoSteps()
    ensures AlwaysOnePerKey([]) && NoRepeat([])
  {
  }

  lemma LastMoment(steps: seq<Step>)
    ensures AlwaysOnePerKey(steps) ==> OnePerKey(Run(FreshWorld, steps).disk)
  {
    hide OnePerKey, Run;
    assert steps[..|steps|] == steps;
  }

  lemma RunNext(steps: seq<Step>)
    requires steps != []
    ensures Run(FreshWorld, steps) == Next(Run(FreshWorld, steps[..|steps| - 1]), steps[|steps| - 1])
  {
    hide Next;
  }

  lemma OneMoreStep(steps: seq<Step>)
    requires steps != []
    ensures var front, last := steps[..|steps| - 1], steps[|steps| - 1];
            var w := Run(FreshWorld, front);
            && (AlwaysOnePerKey(steps) <==> AlwaysOnePerKey(front) && OnePerKey(Next(w, last).disk))
            && (NoRepeat(steps) <==> NoRepeat(front) && !Repeats(w, last))
  {
    hide Repeats, OnePerKey, Next, Run;
    var front, last := steps[..|steps| - 1], steps[|steps| - 1];
    RunNext(steps);
    assert forall i :: 0 <= i <= |front| ==> front[..i] == steps[..i];
    assert steps[..|steps|] == steps && steps[..|front|] == front;
  }

  /** A first save that failed although it landed, and the same submission again: two records of one key. */
  lemma ResubmissionRepeatsKey() returns (w: World)
    ensures Reachable(w) && !OnePerKey(w.disk)
    ensures 1 in w.disk && 2 in w.disk && SameLabel(w.disk[1], w.disk[2]) && w.disk[1].dedupe == "k"
  {
    hide Reachable, Next;
    w := Opens();
    w := Submits(w, 1, FailedNew);
    w := Submits(w, 2, Landed);
    assert w.disk[1].dedupe != "" && SameLabel(w.disk[1], w.disk[2]);
  }

  lemma Opens() returns (w: World)
    ensures Reachable(w) && w.mem == Some(Base) && w.disk == map[] && w.used == {}
  {
    assert Run(FreshWorld, []) == FreshWorld;
    assert Reachable(FreshWorld);
    hide Reachable, Run;
    NextReachable(FreshWorld, SOpen);
    w := Next(FreshWorld, SOpen);
  }

  lemma Submits(w: World, id: JobId, wr: Write) returns (w1: World)
    requires Reachable(w) && w.mem == Some(Base) && id !in w.used && Stored(wr)
    ensures Reachable(w1) && w1.used == w.used + {id} && (wr.FailedNew? ==> w1.mem == w.mem)
    ensures w1.disk == w.disk[id := NewJob("backup", "k", Queued, 0)]
  {
    hide Reachable;
    var s := SSubmit("backup", "k", id, 0, 0, false, wr);
    NextReachable(w, s);
    w1 := Next(w, s);
    assert !Duplicate(Base.jobs, "backup", "k") && Available(Base) && |Base.jobs| == 0;
    assert w1 == Submit(w.(tick := w.tick + 1), "backup", "k", id, 0, 0, false, wr);
    assert w.disk - {} == w.disk && Base.jobs - {} == Base.jobs;
  }
}
