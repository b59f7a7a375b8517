/** Scoring: categories, totals and the report, with the properties the policy promises. */
module HealthReport {
  import opened Basics
  import opened Ordering
  import opened Health

  // ---------------------------------------------------------------- listing order

  predicate KeyLt(c: Check, d: Check) {
    Lt(c.category, d.category) || (c.category == d.category && Lt(c.id, d.id))
  }

  ghost predicate Sorted(s: seq<Check>) { forall i, j :: 0 <= i < j < |s| ==> KeyLt(s[i], s[j]) }

  lemma KeyLtTransitive(a: Check, b: Check, c: Check)
    requires KeyLt(a, b) && KeyLt(b, c)
    ensures KeyLt(a, c)
  {
    if Lt(a.category, b.category) && Lt(b.category, c.category) { LtTransitive(a.category, b.category, c.category); }
    if Lt(a.id, b.id) && Lt(b.id, c.id) { LtTransitive(a.id, b.id, c.id); }
  }

  lemma KeyLtIrreflexive(a: Check)
    ensures !KeyLt(a, a)
  {
    LtIrreflexive(a.category);
    LtIrreflexive(a.id);
  }

  lemma KeyLtTotal(a: Check, b: Check)
    requires KeyOf(a) != KeyOf(b)
    ensures KeyLt(a, b) || KeyLt(b, a)
  {
    LtTotal(a.category, b.category);
    LtTotal(a.id, b.id);
  }

  /** A sorted listing is determined by its elements: the order of map iteration cannot show. */
  lemma {:induction false} SortedUnique(a: seq<Check>, b: seq<Check>)
    requires Sorted(a) && Sorted(b) && (forall c :: c in a <==> c in b)
    ensures a == b
  {
    assert (a == [] || a[0] in b) && (b == [] || b[0] in a);
    if a != [] {
      if a[0] != b[0] {
        KeyLtTransitive(a[0], b[0], a[0]);
        KeyLtIrreflexive(a[0]);
      }
      forall c ensures c in a[1..] <==> c in b[1..] {
        KeyLtIrreflexive(c);
        if c in a[1..] {
          assert KeyLt(a[0], c);
          assert c in b && c != b[0];
        }
        if c in b[1..] {
          assert KeyLt(b[0], c);
          assert c in a && c != a[0];
        }
      }
      SortedUnique(a[1..], b[1..]);
    }
  }

  ghost predicate DistinctKeys(s: seq<Check>) { forall i, j :: 0 <= i < j < |s| ==> KeyOf(s[i]) != KeyOf(s[j]) }

  /** Place `c` into a sorted sequence. */
  method Insert(s: seq<Check>, c: Check) returns (r: seq<Check>)
    requires Sorted(s) && forall d :: d in s ==> KeyOf(d) != KeyOf(c)
    ensures Sorted(r) && forall d :: d in r <==> d in s || d == c
  {
    var i := 0;
    while i < |s| && KeyLt(s[i], c)
      invariant 0 <= i <= |s|
      invariant forall k :: 0 <= k < i ==> KeyLt(s[k], c)
    {
      i := i + 1;
    }
    forall k | i <= k < |s| ensures KeyLt(c, s[k]) {
      assert s[k] in s && s[i] in s;
      KeyLtTotal(c, s[i]);
      if i < k { KeyLtTransitive(c, s[i], s[k]); }
    }
    r := s[..i] + [c] + s[i..];
  }

  method Sort(s: seq<Check>) returns (r: seq<Check>)
    requires DistinctKeys(s)
    ensures Sorted(r) && forall d :: d in r <==> d in s
  {
    r := [];
    for i := 0 to |s|
      invariant Sorted(r)
      invariant forall d :: d in r <==> d in s[..i]
    {
      assert forall d :: d in s[..i] ==> exists k :: 0 <= k < i && s[k] == d;
      r := Insert(r, s[i]);
      assert s[..i + 1] == s[..i] + [s[i]];
    }
    assert s[..|s|] == s;
  }

  // ---------------------------------------------------------------- one category

  datatype Tally = Tally(known: nat, unknown: nat, worst: real, worstId: string, worstReason: string, critical: bool,
                         warning: bool)

  function Count(t: Tally, c: Check): Tally {
    if c.state == "not-applicable" then t.(known := t.known + 1)
    else if c.state == "unknown" then t.(unknown := t.unknown + 1)
    else if c.state == "healthy" || c.state == "warning" || c.state == "critical" then
      var t1 := if Penalty(c) > t.worst then t.(worst := Penalty(c), worstId := c.id, worstReason := c.reason) else t;
      t1.(known := t.known + 1, critical := t.critical || c.state == "critical", warning := t.warning
          || c.state == "warning")
    else t
  }

  function TallyOf(s: seq<Check>): (t: Tally)
    ensures 0.0 <= t.worst <= 100.0
  {
    if s == [] then Tally(0, 0, 0.0, "", "", false, false) else Count(TallyOf(s[..|s| - 1]), s[|s| - 1])
  }

  datatype Deduction = Deduction(checkId: string, points: real, reason: string)
  datatype Level = LCritical | LWarning | LUnknown | LHealthy

  datatype Category = Category(
    id: string, weight: real, score: Option<real>, observed: Option<real>, coverage: real,
    status: Level, deduction: Option<Deduction>, checks: seq<Check>)

  function Missing(category: string): Check {
    Check(category, "missing-source:" + category, "unknown", "missing-category", "Observation unavailable", None)
  }

  function Coverage(t: Tally): (r: real)
    ensures 0.0 <= r <= 100.0
    ensures t.known + t.unknown > 0 ==> (r == 100.0 <==> t.unknown == 0) && (r == 0.0 <==> t.known == 0)
  {
    if t.known + t.unknown == 0 then 0.0
    else
      var r := 100.0 * t.known as real / (t.known + t.unknown) as real;
      assert r * (t.known + t.unknown) as real == 100.0 * t.known as real;
      r
  }

  function CategoryOf(p: Policy, shown: seq<Check>): Category {
    var t := TallyOf(shown);
    Category(p.id, p.weight,
             if t.unknown == 0 then Some(100.0 - t.worst) else None,
             if t.known > 0 then Some(100.0 - t.worst) else None,
             Coverage(t),
             if t.critical then LCritical else if t.warning then LWarning else if t.unknown > 0 then LUnknown
             else LHealthy,
             if t.worst > 0.0 then Some(Deduction(t.worstId, t.worst, t.worstReason)) else None,
             shown)
  }

  // ---------------------------------------------------------------- totals

  datatype Totals = Totals(current: real, sum: real, weight: real, coverage: real, complete: bool, critical: bool,
                           warning: bool)

  /** `x` percent of `w`. */
  function Percent(x: real, w: real): real { x * w / 100.0 }

  function Times(x: real, w: real): real { x * w }

  function Add(t: Totals, c: Category): Totals {
    var w := Percent(c.coverage, c.weight);
    Totals(if c.score.Some? then t.current + Percent(c.score.value, c.weight) else t.current,
           if c.observed.Some? then t.sum + Times(c.observed.value, w) else t.sum,
           if c.observed.Some? then t.weight + w else t.weight,
           t.coverage + w,
           t.complete && c.score.Some?,
           t.critical || TallyOf(c.checks).critical,
           t.warning || TallyOf(c.checks).warning)
  }

  const ZERO := Totals(0.0, 0.0, 0.0, 0.0, true, false, false)

  function TotalsOf(cats: seq<Category>): Totals {
    if cats == [] then ZERO else Add(TotalsOf(cats[..|cats| - 1]), cats[|cats| - 1])
  }

  datatype Report = Report(
    snapshotId: string, checkedAt: Option<int>, stale: bool, status: Level, score: Option<real>, observed: Option<real>,
    coverage: real, categories: seq<Category>, findings: seq<Check>)

  predicate Finding(c: Check) { c.state == "critical" || c.state == "warning" || c.state == "unknown" }

  function Assemble(s: Snapshot, stale: bool, cats: seq<Category>, findings: seq<Check>): Report {
    var t := TotalsOf(cats);
    Report(s.id, s.checkedAt, stale,
           if t.critical then LCritical else if t.warning then LWarning else if !t.complete || stale then LUnknown
           else LHealthy,
           if t.complete && !stale then Some(t.current) else None,
           if t.weight > 0.0 then Some(t.sum / t.weight) else None,
           t.coverage, cats, findings)
  }

  // ---------------------------------------------------------------- what a report is

  /** The checks of one category, in id order; an empty category shows one synthetic unknown check. */
  ghost predicate IsListing(shown: seq<Check>, m: map<Key, Check>, category: string) {
    if exists k :: k in m && k.0 == category then
      Sorted(shown) && forall c :: c in shown <==> KeyOf(c) in m && m[KeyOf(c)] == c && c.category == category
    else shown == [Missing(category)]
  }

  ghost predicate AreCategories(cats: seq<Category>, m: map<Key, Check>) {
    && |cats| == |POLICIES|
    && forall i :: 0 <= i < |cats| ==>
       IsListing(cats[i].checks, m, POLICIES[i].id) && cats[i] == CategoryOf(POLICIES[i], cats[i].checks)
  }

  ghost predicate AreFindings(f: seq<Check>, cats: seq<Category>) {
    Sorted(f) && forall c :: c in f <==> Finding(c) && exists i :: 0 <= i < |cats| && c in cats[i].checks
  }

  /** `r` is the report of snapshot `s` at time `now`, by the policy. */
  ghost predicate IsReport(r: Report, s: Snapshot, now: int, enc: Encoding) {
    exists m :: IsReportVia(r, s, now, enc, m)
  }

  ghost predicate IsReportVia(r: Report, s: Snapshot, now: int, enc: Encoding, m: map<Key, Check>) {
    && IsBest(m, Entries(s, now), enc)
    && AreCategories(r.categories, m) && AreFindings(r.findings, r.categories)
    && r == Assemble(s, Stale(s, now), r.categories, r.findings)
  }

  lemma ListingUnique(a: seq<Check>, b: seq<Check>, m: map<Key, Check>, category: string)
    requires IsListing(a, m, category) && IsListing(b, m, category)
    ensures a == b
  {
    if exists k :: k in m && k.0 == category { SortedUnique(a, b); }
  }

  lemma SameEntries(s: Snapshot, t: Snapshot, now: int)
    requires s.checkedAt == t.checkedAt && forall c :: c in s.checks <==> c in t.checks
    ensures Entries(s, now) == Entries(t, now) && Stale(s, now) == Stale(t, now)
  {
  }

  lemma CategoriesUnique(a: seq<Category>, b: seq<Category>, m: map<Key, Check>)
    requires AreCategories(a, m) && AreCategories(b, m)
    ensures a == b
  {
    hide IsListing, CategoryOf;
    forall i | 0 <= i < |POLICIES| ensures a[i] == b[i] {
      ListingUnique(a[i].checks, b[i].checks, m, POLICIES[i].id);
    }
  }

  /** The report does not change when the snapshot's checks are reordered or repeated. */
  lemma ReportIsUnique(r: Report, q: Report, s: Snapshot, t: Snapshot, now: int, enc: Encoding)
    requires IsReport(r, s, now, enc) && IsReport(q, t, now, enc)
    requires s.id == t.id && s.checkedAt == t.checkedAt && forall c :: c in s.checks <==> c in t.checks
    ensures r == q
  {
    hide IsBest, Entries, Stale, TotalsOf, AreCategories;
    var m :| IsReportVia(r, s, now, enc, m);
    var n :| IsReportVia(q, t, now, enc, n);
    SameEntries(s, t, now);
    BestIsUnique(m, n, Entries(s, now), enc);
    CategoriesUnique(r.categories, q.categories, m);
    SortedUnique(r.findings, q.findings);
  }
}
