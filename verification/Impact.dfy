/**
 The drift check on storage impact: what is observed now may only contain what was reviewed. Fields
 the check never looks at one by one are kept together in `rest`; equal JSON text means equal values.
 */
module Impact {
  import opened Ordering

  datatype Attachment = Attachment(uid: string, attached: bool, deleting: bool, rest: string)

  datatype Volume = Volume(
    namespace: string, pod: string, name: string, kind: string, reasons: seq<string>, pvUid: string, pvcUid: string,
    rest: string, attachments: seq<Attachment>)

  datatype Pod = Pod(namespace: string, name: string, phase: string, rest: string)

  datatype Report = Report(unknown: bool, nodeUid: string, pods: seq<Pod>, volumes: seq<Volume>)

  // ---------------------------------------------------------------- normal forms

  function Settle(a: Attachment): Attachment { a.(attached := false, deleting := false) }

  function Insert(a: Attachment, s: seq<Attachment>): (r: seq<Attachment>)
    ensures multiset(r) == multiset(s) + multiset{a}
  {
    if s == [] || Lt(a.uid, s[0].uid) then [a] + s
    else
      assert s == [s[0]] + s[1..];
      [s[0]] + Insert(a, s[1..])
  }

  /** Attachments by identifier, with their transient state cleared. */
  function SortAttachments(s: seq<Attachment>): seq<Attachment> {
    if s == [] then [] else Insert(Settle(s[|s| - 1]), SortAttachments(s[..|s| - 1]))
  }

  function Normalize(v: Volume): Volume {
    var a := SortAttachments(v.attachments);
    if v.pvUid != "" then v.(pod := "", name := "", kind := "persistent-volume", reasons := [], attachments := a)
    else v.(attachments := a)
  }

  function VolumeKey(v: Volume): string {
    if v.pvUid != "" then "pv:" + v.pvUid + ":pvc:" + v.pvcUid else v.namespace + "/" + v.pod + "/" + v.name
  }

  function NormalizePod(p: Pod): Pod { p.(phase := "") }

  function PodKey(p: Pod): string { p.namespace + "/" + p.name }

  // ---------------------------------------------------------------- the check

  /** Risks by key; a later entry replaces an earlier one. */
  function Known(volumes: seq<Volume>): map<string, Volume> {
    if volumes == [] then map[]
    else Known(volumes[..|volumes| - 1])[VolumeKey(volumes[|volumes| - 1]) := Normalize(volumes[|volumes| - 1])]
  }

  function KnownPods(pods: seq<Pod>): map<string, Pod> {
    if pods == [] then map[]
    else KnownPods(pods[..|pods| - 1])[PodKey(pods[|pods| - 1]) := NormalizePod(pods[|pods| - 1])]
  }

  predicate Holds<V(==)>(m: map<string, V>, k: string, v: V) { k in m && m[k] == v }

  predicate Subset(current: Report, reviewed: Report) {
    && !current.unknown && current.nodeUid == reviewed.nodeUid
    && (forall i :: 0 <= i < |current.volumes| ==>
                      Holds(Known(reviewed.volumes), VolumeKey(current.volumes[i]), Normalize(current.volumes[i])))
    && (forall i :: 0 <= i < |current.pods| ==>
                      Holds(KnownPods(reviewed.pods), PodKey(current.pods[i]), NormalizePod(current.pods[i])))
  }

  method Accepts(current: Report, reviewed: Report) returns (ok: bool)
    ensures ok == Subset(current, reviewed)
  {
    hide Normalize, VolumeKey;
    if current.unknown || current.nodeUid != reviewed.nodeUid { return false; }
    var known: map<string, Volume> := map[];
    for i := 0 to |reviewed.volumes|
      invariant known == Known(reviewed.volumes[..i])
    {
      var v := reviewed.volumes[i];
      assert reviewed.volumes[..i + 1][..i] == reviewed.volumes[..i];
      known := known[VolumeKey(v) := Normalize(v)];
    }
    assert reviewed.volumes[..|reviewed.volumes|] == reviewed.volumes;
    for i := 0 to |current.volumes|
      invariant forall k :: 0 <= k < i ==> Holds(known, VolumeKey(current.volumes[k]), Normalize(current.volumes[k]))
    {
      var v := current.volumes[i];
      if VolumeKey(v) !in known || known[VolumeKey(v)] != Normalize(v) { return false; }
    }
    var pods: map<string, Pod> := map[];
    for i := 0 to |reviewed.pods|
      invariant pods == KnownPods(reviewed.pods[..i])
    {
      var p := reviewed.pods[i];
      assert reviewed.pods[..i + 1][..i] == reviewed.pods[..i];
      pods := pods[PodKey(p) := NormalizePod(p)];
    }
    assert reviewed.pods[..|reviewed.pods|] == reviewed.pods;
    for i := 0 to |current.pods|
      invariant forall k :: 0 <= k < i ==> Holds(pods, PodKey(current.pods[k]), NormalizePod(current.pods[k]))
    {
      var p := current.pods[i];
      if PodKey(p) !in pods || pods[PodKey(p)] != NormalizePod(p) { return false; }
    }
    ok := true;
  }

  // ---------------------------------------------------------------- what it promises

  /** A known risk is the normal form of a volume of the report, under that volume's key. */
  lemma {:induction false} KnownIsListed(volumes: seq<Volume>, k: string)
    requires k in Known(volumes)
    ensures exists j :: 0 <= j < |volumes| && VolumeKey(volumes[j]) == k && Normalize(volumes[j]) == Known(volumes)[k]
  {
    hide Normalize, VolumeKey;
    var front, last := volumes[..|volumes| - 1], volumes[|volumes| - 1];
    if k != VolumeKey(last) {
      KnownIsListed(front, k);
      var j :| 0 <= j < |front| && VolumeKey(front[j]) == k && Normalize(front[j]) == Known(front)[k];
      assert volumes[j] == front[j];
    }
  }

  lemma {:induction false} KnownPodIsListed(pods: seq<Pod>, k: string)
    requires k in KnownPods(pods)
    ensures exists j :: 0 <= j < |pods| && PodKey(pods[j]) == k && NormalizePod(pods[j]) == KnownPods(pods)[k]
  {
    var front, last := pods[..|pods| - 1], pods[|pods| - 1];
    if k != PodKey(last) {
      KnownPodIsListed(front, k);
      var j :| 0 <= j < |front| && PodKey(front[j]) == k && NormalizePod(front[j]) == KnownPods(front)[k];
      assert pods[j] == front[j];
    }
  }

  lemma SamePod(p: Pod, q: Pod)
    requires NormalizePod(p) == NormalizePod(q)
    ensures p == q.(phase := p.phase)
  {
    var n := NormalizePod(p);
    assert n.namespace == p.namespace == q.namespace && n.name == p.name == q.name && n.rest == p.rest == q.rest;
  }

  /** The attachments with their transient state cleared, in listing order. */
  function Settled(s: seq<Attachment>): seq<Attachment> {
    seq(|s|, i requires 0 <= i < |s| => s[i].(attached := false, deleting := false))
  }

  lemma {:induction false} SortKeeps(s: seq<Attachment>)
    ensures multiset(SortAttachments(s)) == multiset(Settled(s))
  {
    if s != [] {
      var front, last := s[..|s| - 1], s[|s| - 1];
      SortKeeps(front);
      assert Settled(s) == Settled(front) + [last.(attached := false, deleting := false)];
    }
  }

  /** Equal normal forms mean equal volumes, but for where a persistent volume was found and for transient state. */
  lemma SameVolume(v: Volume, w: Volume)
    requires Normalize(v) == Normalize(w)
    ensures w.namespace == v.namespace && w.pvUid == v.pvUid && w.pvcUid == v.pvcUid && w.rest == v.rest
    ensures v.pvUid == "" ==> w.pod == v.pod && w.name == v.name && w.kind == v.kind && w.reasons == v.reasons
    ensures multiset(Settled(w.attachments)) == multiset(Settled(v.attachments))
  {
    var n, k := Normalize(v), Normalize(w);
    assert n.namespace == k.namespace && n.pvUid == k.pvUid && n.pvcUid == k.pvcUid && n.rest == k.rest;
    assert n.attachments == k.attachments;
    SortKeeps(v.attachments);
    SortKeeps(w.attachments);
  }

  ghost predicate ReviewedPod(r: Report, p: Pod) { exists q :: q in r.pods && q == p.(phase := q.phase) }

  /**
   When the check accepts, each volume observed equals a reviewed one in namespace, identities and all fields
   never looked at one by one, with the same attachments, no more and no fewer; one without a persistent
   volume also in pod, name, kind and reasons. Each pod equals a reviewed one but for its phase. So a
   report with any other difference is rejected.
   */
  lemma Sound(current: Report, reviewed: Report)
    requires Subset(current, reviewed)
    ensures forall v :: v in current.volumes ==>
              exists w :: && w in reviewed.volumes
                          && w.namespace == v.namespace && w.pvUid == v.pvUid && w.pvcUid == v.pvcUid
                          && w.rest == v.rest
                          && (v.pvUid == "" ==>
                                w.pod == v.pod && w.name == v.name && w.kind == v.kind && w.reasons == v.reasons)
                          && multiset(Settled(w.attachments)) == multiset(Settled(v.attachments))
    ensures forall p :: p in current.pods ==> exists q :: q in reviewed.pods && q == p.(phase := q.phase)
    ensures current.nodeUid == reviewed.nodeUid && !current.unknown
  {
    hide Normalize, VolumeKey, Known, KnownPods;
    forall v | v in current.volumes
      ensures exists w :: && w in reviewed.volumes
                          && w.namespace == v.namespace && w.pvUid == v.pvUid && w.pvcUid == v.pvcUid
                          && w.rest == v.rest
                          && (v.pvUid == "" ==>
                                w.pod == v.pod && w.name == v.name && w.kind == v.kind && w.reasons == v.reasons)
                          && multiset(Settled(w.attachments)) == multiset(Settled(v.attachments))
    {
      var i :| 0 <= i < |current.volumes| && current.volumes[i] == v;
      KnownIsListed(reviewed.volumes, VolumeKey(v));
      var j :| 0 <= j < |reviewed.volumes| && Normalize(reviewed.volumes[j]) == Normalize(v);
      SameVolume(v, reviewed.volumes[j]);
      assert reviewed.volumes[j] in reviewed.volumes;
    }
    forall p | p in current.pods ensures ReviewedPod(reviewed, p) {
      var i :| 0 <= i < |current.pods| && current.pods[i] == p;
      KnownPodIsListed(reviewed.pods, PodKey(p));
      var j :| 0 <= j < |reviewed.pods| && NormalizePod(reviewed.pods[j]) == NormalizePod(p);
      SamePod(reviewed.pods[j], p);
      assert reviewed.pods[j] in reviewed.pods;
    }
  }

  /** Acceptance against an accepted report is acceptance against the original. */
  lemma Transitive(a: Report, b: Report, c: Report)
    requires Subset(a, b) && Subset(b, c)
    ensures Subset(a, c)
  {
    hide Normalize, VolumeKey, Known, KnownPods, PodKey, NormalizePod;
    forall i | 0 <= i < |a.volumes| ensures Holds(Known(c.volumes), VolumeKey(a.volumes[i]), Normalize(a.volumes[i])) {
      KnownIsListed(b.volumes, VolumeKey(a.volumes[i]));
      var j :| 0 <= j < |b.volumes| && VolumeKey(b.volumes[j]) == VolumeKey(a.volumes[i])
        && Normalize(b.volumes[j]) == Normalize(a.volumes[i]);
      assert Holds(Known(c.volumes), VolumeKey(b.volumes[j]), Normalize(b.volumes[j]));
    }
    forall i | 0 <= i < |a.pods| ensures Holds(KnownPods(c.pods), PodKey(a.pods[i]), NormalizePod(a.pods[i])) {
      KnownPodIsListed(b.pods, PodKey(a.pods[i]));
      var j :| 0 <= j < |b.pods| && PodKey(b.pods[j]) == PodKey(a.pods[i])
        && NormalizePod(b.pods[j]) == NormalizePod(a.pods[i]);
      assert Holds(KnownPods(c.pods), PodKey(b.pods[j]), NormalizePod(b.pods[j]));
    }
  }

  /** Texts without the separator before it are told apart by what stands around its first occurrence. */
  lemma Split(a: string, x: string, b: string, y: string, sep: char)
    requires sep !in a && sep !in b && a + [sep] + x == b + [sep] + y
    ensures a == b && x == y
  {
    var t := a + [sep] + x;
    assert t[|a|] == sep && t[|b|] == sep;
    assert forall i :: 0 <= i < |a| ==> t[i] == a[i];
    assert forall i :: 0 <= i < |b| ==> t[i] == b[i];
    assert |a| == |b|;
    assert a == t[..|a|] && b == t[..|b|] && x == t[|a| + 1..] && y == t[|b| + 1..];
  }

  /**
   Identifiers hold no colon and names no slash. Then two entries share a key exactly when they stand for one
   volume and claim, one volume of one pod, or one pod.
   */
  lemma KeysMean(v: Volume, w: Volume, p: Pod, q: Pod)
    requires ':' !in v.pvUid && ':' !in w.pvUid && '/' !in v.namespace + v.pod && '/' !in w.namespace + w.pod
    requires '/' !in p.namespace && '/' !in q.namespace
    ensures v.pvUid != "" && w.pvUid != "" ==>
              (VolumeKey(v) == VolumeKey(w) <==> v.pvUid == w.pvUid && v.pvcUid == w.pvcUid)
    ensures v.pvUid == "" && w.pvUid == "" ==>
              (VolumeKey(v) == VolumeKey(w) <==> v.namespace == w.namespace && v.pod == w.pod && v.name == w.name)
    ensures PodKey(p) == PodKey(q) <==> p.namespace == q.namespace && p.name == q.name
  {
    if v.pvUid != "" && w.pvUid != "" && VolumeKey(v) == VolumeKey(w) { ClaimKeys(v, w); }
    if v.pvUid == "" && w.pvUid == "" && VolumeKey(v) == VolumeKey(w) { NameKeys(v, w); }
    if PodKey(p) == PodKey(q) { Split(p.namespace, p.name, q.namespace, q.name, '/'); }
  }

  lemma ClaimKeys(v: Volume, w: Volume)
    requires ':' !in v.pvUid && ':' !in w.pvUid && v.pvUid != "" && w.pvUid != "" && VolumeKey(v) == VolumeKey(w)
    ensures v.pvUid == w.pvUid && v.pvcUid == w.pvcUid
  {
    assert VolumeKey(v)[3..] == v.pvUid + [':'] + ("pvc:" + v.pvcUid);
    assert VolumeKey(w)[3..] == w.pvUid + [':'] + ("pvc:" + w.pvcUid);
    Split(v.pvUid, "pvc:" + v.pvcUid, w.pvUid, "pvc:" + w.pvcUid, ':');
    assert ("pvc:" + v.pvcUid)[4..] == v.pvcUid && ("pvc:" + w.pvcUid)[4..] == w.pvcUid;
  }

  lemma NameKeys(v: Volume, w: Volume)
    requires '/' !in v.namespace + v.pod && '/' !in w.namespace + w.pod
    requires v.pvUid == "" && w.pvUid == "" && VolumeKey(v) == VolumeKey(w)
    ensures v.namespace == w.namespace && v.pod == w.pod && v.name == w.name
  {
    assert VolumeKey(v) == v.namespace + ['/'] + (v.pod + "/" + v.name);
    assert VolumeKey(w) == w.namespace + ['/'] + (w.pod + "/" + w.name);
    Split(v.namespace, v.pod + "/" + v.name, w.namespace, w.pod + "/" + w.name, '/');
    Split(v.pod, v.name, w.pod, w.name, '/');
  }

  /** Entries that share a key agree once normalised. */
  ghost predicate Consistent(r: Report) {
    && (forall v, w :: v in r.volumes && w in r.volumes && VolumeKey(v) == VolumeKey(w) ==>
        Normalize(v) == Normalize(w))
    && (forall p, q :: p in r.pods && q in r.pods && PodKey(p) == PodKey(q) ==> NormalizePod(p) == NormalizePod(q))
  }

  lemma {:induction false} ListedIsKnown(volumes: seq<Volume>, j: nat)
    requires j < |volumes|
    ensures VolumeKey(volumes[j]) in Known(volumes)
  {
    hide Normalize, VolumeKey;
    if j < |volumes| - 1 { ListedIsKnown(volumes[..|volumes| - 1], j); }
  }

  lemma {:induction false} ListedPodIsKnown(pods: seq<Pod>, j: nat)
    requires j < |pods|
    ensures PodKey(pods[j]) in KnownPods(pods)
  {
    if j < |pods| - 1 { ListedPodIsKnown(pods[..|pods| - 1], j); }
  }

  /**
   An unchanged cluster passes the check exactly when its report is known and consistent: two volumes
   with one key and different risks make a report reject itself.
   */
  lemma AcceptsItselfIff(r: Report)
    ensures Subset(r, r) <==> !r.unknown && Consistent(r)
  {
    hide Normalize, VolumeKey, Known, KnownPods, PodKey, NormalizePod;
    if !r.unknown && Consistent(r) {
      forall i | 0 <= i < |r.volumes|
        ensures Holds(Known(r.volumes), VolumeKey(r.volumes[i]), Normalize(r.volumes[i]))
      {
        ListedIsKnown(r.volumes, i);
        KnownIsListed(r.volumes, VolumeKey(r.volumes[i]));
      }
      forall i | 0 <= i < |r.pods| ensures Holds(KnownPods(r.pods), PodKey(r.pods[i]), NormalizePod(r.pods[i])) {
        ListedPodIsKnown(r.pods, i);
        KnownPodIsListed(r.pods, PodKey(r.pods[i]));
      }
    }
  }

  /** Pod `pod` mounts the claim `pvc-1`, whose volume has this reclaim policy when it is read for that pod. */
  function SharedClaim(pod: string, reclaimPolicy: string): Volume {
    Volume("ns", pod, "data", "pvc", [], "pv-1", "pvc-1", reclaimPolicy, [])
  }

  /**
   Two pods share a claim. The inventory reads claim and volume once per pod, so a reclaim policy changed
   between the reads leaves one key with two risks, and the unchanged cluster is rejected.
   */
  lemma InconsistentReportRejectsItself()
    ensures var r := Report(false, "uid", [Pod("ns", "a", "Running", ""), Pod("ns", "b", "Running", "")],
                            [SharedClaim("a", "Retain"), SharedClaim("b", "Delete")]);
            !Subset(r, r)
  {
    var r := Report(false, "uid", [Pod("ns", "a", "Running", ""), Pod("ns", "b", "Running", "")],
                    [SharedClaim("a", "Retain"), SharedClaim("b", "Delete")]);
    AcceptsItselfIff(r);
    var v, w := r.volumes[0], r.volumes[1];
    assert v in r.volumes && w in r.volumes && VolumeKey(v) == VolumeKey(w);
    assert Normalize(v).rest == "Retain" && Normalize(w).rest == "Delete";
    assert "Retain"[0] != "Delete"[0];
  }

  // ---------------------------------------------------------------- attachment order

  ghost predicate SortedByUid(s: seq<Attachment>) { forall i, j :: 0 <= i < j < |s| ==> Lt(s[i].uid, s[j].uid) }

  /** `b` is one of the attachments, with its transient state cleared. */
  ghost predicate Lists(s: seq<Attachment>, b: Attachment) { exists i :: 0 <= i < |s| && b == Settle(s[i]) }

  ghost predicate DistinctUids(s: seq<Attachment>) { forall i, j :: 0 <= i < j < |s| ==> s[i].uid != s[j].uid }

  lemma {:induction false} InsertSorts(a: Attachment, s: seq<Attachment>)
    requires SortedByUid(s) && forall b :: b in s ==> b.uid != a.uid
    ensures SortedByUid(Insert(a, s)) && forall b :: b in Insert(a, s) <==> b in s || b == a
  {
    if s != [] {
      LtTotal(a.uid, s[0].uid);
      if Lt(a.uid, s[0].uid) {
        forall j | 0 < j < |s| ensures Lt(a.uid, s[j].uid) { LtTransitive(a.uid, s[0].uid, s[j].uid); }
      } else {
        assert s == [s[0]] + s[1..];
        InsertSorts(a, s[1..]);
        var rest := Insert(a, s[1..]);
        forall j | 0 <= j < |rest| ensures Lt(s[0].uid, rest[j].uid) { assert rest[j] in rest; }
      }
    }
  }

  lemma {:induction false} SortSorts(s: seq<Attachment>)
    requires DistinctUids(s)
    ensures SortedByUid(SortAttachments(s))
    ensures forall b :: b in SortAttachments(s) <==> Lists(s, b)
  {
    if s != [] {
      var front, last := s[..|s| - 1], s[|s| - 1];
      SortSorts(front);
      assert forall b :: b in SortAttachments(front) ==> b.uid != last.uid;
      InsertSorts(Settle(last), SortAttachments(front));
      forall b ensures b in SortAttachments(s) <==> Lists(s, b) {
        if b in SortAttachments(front) {
          var i :| 0 <= i < |front| && b == Settle(front[i]);
          assert s[i] == front[i];
        }
        if i :| 0 <= i < |s| && b == Settle(s[i]) && i < |s| - 1 { assert front[i] == s[i]; }
      }
    }
  }

  lemma {:induction false} SortedUnique(a: seq<Attachment>, b: seq<Attachment>)
    requires SortedByUid(a) && SortedByUid(b) && forall x :: x in a <==> x in b
    ensures a == b
  {
    assert (a == [] || a[0] in b) && (b == [] || b[0] in a);
    if a != [] {
      if a[0] != b[0] {
        LtTransitive(a[0].uid, b[0].uid, a[0].uid);
        LtIrreflexive(a[0].uid);
      }
      forall x ensures x in a[1..] <==> x in b[1..] {
        LtIrreflexive(x.uid);
        if x in a[1..] { assert Lt(a[0].uid, x.uid); assert x in b && x != b[0]; }
        if x in b[1..] { assert Lt(b[0].uid, x.uid); assert x in a && x != a[0]; }
      }
      SortedUnique(a[1..], b[1..]);
    }
  }

  /** The order in which attachments are listed, and whether they are attached or being deleted, is no drift. */
  lemma AttachmentOrderIsNoDrift(v: Volume, w: Volume)
    requires DistinctUids(v.attachments) && DistinctUids(w.attachments) && w == v.(attachments := w.attachments)
    requires forall b :: Lists(v.attachments, b) <==> Lists(w.attachments, b)
    ensures Normalize(v) == Normalize(w) && VolumeKey(v) == VolumeKey(w)
  {
    SortSorts(v.attachments);
    SortSorts(w.attachments);
    SortedUnique(SortAttachments(v.attachments), SortAttachments(w.attachments));
  }

  // ---------------------------------------------------------------- what is accepted

  ghost predicate AllDistinct(r: Report) { forall v :: v in r.volumes ==> DistinctUids(v.attachments) }

  lemma InSettled(s: seq<Attachment>, b: Attachment)
    ensures b in Settled(s) <==> Lists(s, b)
  {
    if Lists(s, b) {
      var i :| 0 <= i < |s| && b == Settle(s[i]);
      assert Settled(s)[i] == b;
    }
  }

  /** Volumes with the same fields and attachments have one normal form and one key. */
  lemma NormalizeAgrees(v: Volume, w: Volume)
    requires DistinctUids(v.attachments) && DistinctUids(w.attachments)
    requires w.namespace == v.namespace && w.pvUid == v.pvUid && w.pvcUid == v.pvcUid && w.rest == v.rest
    requires v.pvUid == "" ==> w.pod == v.pod && w.name == v.name && w.kind == v.kind && w.reasons == v.reasons
    requires multiset(Settled(w.attachments)) == multiset(Settled(v.attachments))
    ensures Normalize(v) == Normalize(w) && VolumeKey(v) == VolumeKey(w)
  {
    var u := v.(attachments := w.attachments);
    forall b ensures Lists(v.attachments, b) <==> Lists(w.attachments, b) {
      InSettled(v.attachments, b);
      InSettled(w.attachments, b);
      assert b in Settled(v.attachments) <==> b in multiset(Settled(v.attachments));
      assert b in Settled(w.attachments) <==> b in multiset(Settled(w.attachments));
    }
    AttachmentOrderIsNoDrift(v, u);
    hide SortAttachments;
  }

  /** A reviewed volume is known under its key, when entries that share a key agree. */
  lemma ReviewedIsKnown(reviewed: Report, w: Volume)
    requires Consistent(reviewed) && w in reviewed.volumes
    ensures Holds(Known(reviewed.volumes), VolumeKey(w), Normalize(w))
  {
    hide Normalize, VolumeKey, Known;
    var i :| 0 <= i < |reviewed.volumes| && reviewed.volumes[i] == w;
    ListedIsKnown(reviewed.volumes, i);
    KnownIsListed(reviewed.volumes, VolumeKey(w));
  }

  lemma ReviewedPodIsKnown(reviewed: Report, q: Pod)
    requires Consistent(reviewed) && q in reviewed.pods
    ensures Holds(KnownPods(reviewed.pods), PodKey(q), NormalizePod(q))
  {
    hide Normalize, VolumeKey, KnownPods;
    var i :| 0 <= i < |reviewed.pods| && reviewed.pods[i] == q;
    ListedPodIsKnown(reviewed.pods, i);
    KnownPodIsListed(reviewed.pods, PodKey(q));
  }

  /**
   And what matches is accepted: against a consistent review, a known report of the same node, in which each
   volume and pod has a reviewed counterpart as above, passes. Nothing else is held against it.
   */
  lemma AcceptsWhatMatches(current: Report, reviewed: Report)
    requires Consistent(reviewed) && AllDistinct(current) && AllDistinct(reviewed)
    requires !current.unknown && current.nodeUid == reviewed.nodeUid
    requires forall v :: v in current.volumes ==>
               exists w :: && w in reviewed.volumes
                           && w.namespace == v.namespace && w.pvUid == v.pvUid && w.pvcUid == v.pvcUid
                           && w.rest == v.rest
                           && (v.pvUid == "" ==>
                                 w.pod == v.pod && w.name == v.name && w.kind == v.kind && w.reasons == v.reasons)
                           && multiset(Settled(w.attachments)) == multiset(Settled(v.attachments))
    requires forall p :: p in current.pods ==> exists q :: q in reviewed.pods && q == p.(phase := q.phase)
    ensures Subset(current, reviewed)
  {
    hide Normalize, VolumeKey, Known, KnownPods, Consistent;
    forall i | 0 <= i < |current.volumes|
      ensures Holds(Known(reviewed.volumes), VolumeKey(current.volumes[i]), Normalize(current.volumes[i]))
    {
      var v := current.volumes[i];
      assert v in current.volumes;
      var w :| && w in reviewed.volumes
               && w.namespace == v.namespace && w.pvUid == v.pvUid && w.pvcUid == v.pvcUid && w.rest == v.rest
               && (v.pvUid == "" ==> w.pod == v.pod && w.name == v.name && w.kind == v.kind && w.reasons == v.reasons)
               && multiset(Settled(w.attachments)) == multiset(Settled(v.attachments));
      NormalizeAgrees(v, w);
      ReviewedIsKnown(reviewed, w);
    }
    forall i | 0 <= i < |current.pods|
      ensures Holds(KnownPods(reviewed.pods), PodKey(current.pods[i]), NormalizePod(current.pods[i]))
    {
      var p := current.pods[i];
      assert p in current.pods;
      var q :| q in reviewed.pods && q == p.(phase := q.phase);
      ReviewedPodIsKnown(reviewed, q);
      assert NormalizePod(p) == NormalizePod(q) && PodKey(p) == PodKey(q);
    }
  }
}
