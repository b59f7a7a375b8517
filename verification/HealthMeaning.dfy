/**
 What a report says, in terms of the snapshot's own checks: when the cluster and each category are critical,
 warning, unknown or healthy, what is among the findings, and what each kind of trouble costs.
 */
module HealthMeaning {
  import opened Basics
  import opened Health
  import opened Ordering
  import opened HealthReport
  import opened HealthScore

  /** The snapshot and this check of it are at most ten minutes old, and the check says what it is about. */
  predicate Counts(s: Snapshot, c: Check, now: int) {
    && c in s.checks && c.id != ""
    && s.checkedAt.Some? && s.checkedAt.value <= now && now - s.checkedAt.value <= 600
    && c.observedAt.Some? && c.observedAt.value <= now && now - c.observedAt.value <= 600
  }

  predicate IsCategory(category: string) {
    category in {"control-plane", "etcd", "nodes", "storage", "networking", "workloads", "backups", "certificates"}
  }

  /** Some check of the category that counts is in this state. */
  ghost predicate Shows(s: Snapshot, now: int, category: string, state: string) {
    exists c :: Counts(s, c, now) && c.category == category && c.state == state
  }

  /** Nothing is known about some part of the category: it has no check at all, or one that says nothing. */
  ghost predicate Blind(s: Snapshot, now: int, category: string) {
    || (forall c :: c in s.checks ==> c.category != category)
    || exists c :: c in s.checks && c.category == category
                   && !(Counts(s, c, now) && c.state in {"critical", "warning", "healthy", "not-applicable"})
  }

  // ---------------------------------------------------------------- entries

  lemma CategoriesAre(category: string)
    ensures Relevant(category) <==> IsCategory(category)
    ensures forall i :: 0 <= i < |POLICIES| ==> IsCategory(POLICIES[i].id)
  {
    if Relevant(category) {
      var i :| 0 <= i < |POLICIES| && POLICIES[i].id == category;
    }
    assert POLICIES[0].id == "control-plane" && POLICIES[1].id == "etcd" && POLICIES[2].id == "nodes";
    assert POLICIES[3].id == "storage" && POLICIES[4].id == "networking" && POLICIES[5].id == "workloads";
    assert POLICIES[6].id == "backups" && POLICIES[7].id == "certificates";
  }

  /** The five states are different words. */
  lemma StatesDiffer()
    ensures "critical" != "warning" && "critical" != "unknown" && "critical" != "healthy"
    ensures "critical" != "not-applicable" && "warning" != "unknown" && "warning" != "healthy"
    ensures "warning" != "not-applicable" && "unknown" != "healthy" && "unknown" != "not-applicable"
    ensures "healthy" != "not-applicable"
  {
    assert |"critical"| == 8 && |"warning"| == 7 && |"unknown"| == 7 && |"healthy"| == 7 && |"not-applicable"| == 14;
    assert "warning"[0] == 'w' && "unknown"[0] == 'u' && "healthy"[0] == 'h';
  }

  lemma NormalizeMeans(s: Snapshot, c: Check, now: int)
    requires c in s.checks
    ensures var n := Normalize(c, now, StaleSnapshot(s, now));
            && n.category == c.category && KnownState(n.state)
            && (n.state == "unknown" <==>
                !(Counts(s, c, now) && c.state in {"critical", "warning", "healthy", "not-applicable"}))
            && (n.state != "unknown" ==> n.state == c.state && n.reason == c.reason && n.id == c.id)
  {
    StatesDiffer();
  }

  lemma Ranks(state: string)
    requires KnownState(state)
    ensures Rank(state) >= 4 <==> state == "critical"
    ensures Rank(state) >= 3 <==> state == "critical" || state == "warning"
    ensures Rank(state) >= 2 <==> state == "critical" || state == "warning" || state == "unknown"
  {
    StatesDiffer();
  }

  /** Some entry of the category is at least this grave. */
  ghost predicate EntryReaches(s: Snapshot, now: int, category: string, level: nat) {
    exists n :: n in Entries(s, now) && n.category == category && Rank(n.state) >= level
  }

  ghost predicate HasEntry(s: Snapshot, now: int, category: string) {
    exists n :: n in Entries(s, now) && n.category == category
  }

  /** What a check counts for, as the rank of its entry. */
  lemma CheckReaches(s: Snapshot, c: Check, now: int)
    requires c in s.checks
    ensures var rank := Rank(Normalize(c, now, StaleSnapshot(s, now)).state);
            && (rank >= 4 <==> Counts(s, c, now) && c.state == "critical")
            && (rank >= 3 <==> Counts(s, c, now) && (c.state == "critical" || c.state == "warning"))
            && (rank >= 2 <==>
                || (Counts(s, c, now) && (c.state == "critical" || c.state == "warning"))
                || !(Counts(s, c, now) && c.state in {"critical", "warning", "healthy", "not-applicable"}))
  {
    NormalizeMeans(s, c, now);
    Ranks(Normalize(c, now, StaleSnapshot(s, now)).state);
    StatesDiffer();
    hide Normalize, Rank, Counts;
  }

  ghost predicate Grave(s: Snapshot, now: int, category: string, level: nat) {
    exists c :: c in s.checks && c.category == category && Rank(Normalize(c, now, StaleSnapshot(s, now)).state) >= level
  }

  lemma EntryOfCheck(s: Snapshot, now: int, category: string, level: nat)
    requires IsCategory(category)
    ensures EntryReaches(s, now, category, level) <==> Grave(s, now, category, level)
    ensures HasEntry(s, now, category) <==> exists c :: c in s.checks && c.category == category
  {
    CategoriesAre(category);
    hide Rank, Relevant, IsCategory, StaleSnapshot;
    forall c | c in s.checks && c.category == category
      ensures Normalize(c, now, StaleSnapshot(s, now)) in Entries(s, now)
    {
    }
    forall n | n in Entries(s, now)
      ensures exists c :: c in s.checks && c.category == n.category && n == Normalize(c, now, StaleSnapshot(s, now))
    {
    }
    hide Entries, Normalize;
  }

  /** The levels of a category's entries, by its checks. */
  lemma EntryLevels(s: Snapshot, now: int, category: string)
    requires IsCategory(category)
    ensures EntryReaches(s, now, category, 4) <==> Shows(s, now, category, "critical")
    ensures EntryReaches(s, now, category, 3) <==>
            Shows(s, now, category, "critical") || Shows(s, now, category, "warning")
    ensures EntryReaches(s, now, category, 2) || !HasEntry(s, now, category) <==>
            Shows(s, now, category, "critical") || Shows(s, now, category, "warning") || Blind(s, now, category)
  {
    hide EntryReaches, HasEntry, Normalize, Rank, IsCategory, Counts, Grave, Shows, Blind;
    EntryOfCheck(s, now, category, 4);
    EntryOfCheck(s, now, category, 3);
    EntryOfCheck(s, now, category, 2);
    GraveStates(s, now, category);
    BlindLevel(s, now, category);
  }

  lemma GraveStates(s: Snapshot, now: int, category: string)
    ensures Grave(s, now, category, 4) <==> Shows(s, now, category, "critical")
    ensures Grave(s, now, category, 3) <==> Shows(s, now, category, "critical") || Shows(s, now, category, "warning")
  {
    AllInSnapshot(s, now);
    forall c | c in s.checks
      ensures var rank := Rank(Normalize(c, now, StaleSnapshot(s, now)).state);
              && (rank >= 4 <==> Counts(s, c, now) && c.state == "critical")
              && (rank >= 3 <==> Counts(s, c, now) && (c.state == "critical" || c.state == "warning"))
    {
      CheckReaches(s, c, now);
    }
    hide Normalize, Rank, Counts, StaleSnapshot;
  }

  lemma BlindLevel(s: Snapshot, now: int, category: string)
    ensures Grave(s, now, category, 2) || (forall c :: c in s.checks ==> c.category != category) <==>
            Shows(s, now, category, "critical") || Shows(s, now, category, "warning") || Blind(s, now, category)
  {
    AllInSnapshot(s, now);
    forall c | c in s.checks
      ensures Rank(Normalize(c, now, StaleSnapshot(s, now)).state) >= 2 <==>
              || (Counts(s, c, now) && (c.state == "critical" || c.state == "warning"))
              || !(Counts(s, c, now) && c.state in {"critical", "warning", "healthy", "not-applicable"})
    {
      CheckReaches(s, c, now);
    }
    hide Normalize, Rank, Counts, StaleSnapshot;
  }

  lemma AllInSnapshot(s: Snapshot, now: int)
    ensures forall c :: Counts(s, c, now) ==> c in s.checks
  {
  }

  // ---------------------------------------------------------------- what is shown

  ghost predicate Reaches(shown: seq<Check>, level: nat) { exists c :: c in shown && Rank(c.state) >= level }

  lemma WinnerIsShown(m: map<Key, Check>, entries: set<Check>, enc: Encoding, shown: seq<Check>, category: string,
                      n: Check)
    requires IsBest(m, entries, enc) && IsListing(shown, m, category) && n in entries && n.category == category
    ensures exists c :: c in shown && Rank(c.state) >= Rank(n.state)
  {
    hide Rank, Sorted;
    var w := m[KeyOf(n)];
    assert KeyOf(n) in m && KeyOf(n).0 == category && KeyOf(w) == KeyOf(n);
    assert w in shown && (w == n || Beats(w, n, enc));
  }

  lemma ShownIsEntry(m: map<Key, Check>, entries: set<Check>, enc: Encoding, shown: seq<Check>, category: string,
                     n: Check)
    requires IsBest(m, entries, enc) && IsListing(shown, m, category) && n in entries && n.category == category
    ensures forall c :: c in shown ==> c in entries && c.category == category
  {
    hide Rank, Sorted, Beats;
    assert KeyOf(n) in m && KeyOf(n).0 == category;
  }

  lemma NothingShown(m: map<Key, Check>, entries: set<Check>, enc: Encoding, shown: seq<Check>, category: string)
    requires IsBest(m, entries, enc) && IsListing(shown, m, category)
    requires forall n :: n in entries ==> n.category != category
    ensures shown == [Missing(category)]
  {
    hide Rank, Sorted, Beats;
    assert forall k :: k in m ==> m[k] in entries && m[k].category == k.0;
  }

  lemma MissingReaches(category: string, level: nat)
    ensures Reaches([Missing(category)], level) <==> level <= 2
  {
    StatesDiffer();
    assert Rank("unknown") == 2 && Missing(category) in [Missing(category)];
  }

  /** The gravest state among the entries of a category is shown, and nothing graver. */
  lemma ShownReaches(shown: seq<Check>, m: map<Key, Check>, s: Snapshot, now: int, enc: Encoding, category: string,
                     level: nat)
    requires IsBest(m, Entries(s, now), enc) && IsListing(shown, m, category)
    ensures Reaches(shown, level) <==>
            EntryReaches(s, now, category, level) || (!HasEntry(s, now, category) && level <= 2)
  {
    hide IsBest, IsListing, Entries, Rank;
    var entries := Entries(s, now);
    if n :| n in entries && n.category == category {
      ShownIsEntry(m, entries, enc, shown, category, n);
      if EntryReaches(s, now, category, level) {
        var e :| e in entries && e.category == category && Rank(e.state) >= level;
        WinnerIsShown(m, entries, enc, shown, category, e);
      }
    } else {
      NothingShown(m, entries, enc, shown, category);
      MissingReaches(category, level);
    }
  }

  lemma CountStates(t: Tally, c: Check)
    requires KnownState(c.state)
    ensures Count(t, c).critical <==> t.critical || Rank(c.state) >= 4
    ensures Count(t, c).critical || Count(t, c).warning <==> t.critical || t.warning || Rank(c.state) >= 3
    ensures Count(t, c).critical || Count(t, c).warning || Count(t, c).unknown > 0 <==>
            t.critical || t.warning || t.unknown > 0 || Rank(c.state) >= 2
  {
    hide Penalty;
    StatesDiffer();
  }

  lemma {:induction false} TallyStates(shown: seq<Check>)
    requires AllKnownStates(shown)
    ensures TallyOf(shown).critical <==> Reaches(shown, 4)
    ensures TallyOf(shown).critical || TallyOf(shown).warning <==> Reaches(shown, 3)
    ensures TallyOf(shown).critical || TallyOf(shown).warning || TallyOf(shown).unknown > 0 <==> Reaches(shown, 2)
  {
    hide Penalty, Count, Rank, KnownState;
    if shown != [] {
      var front, c := shown[..|shown| - 1], shown[|shown| - 1];
      assert forall i :: 0 <= i < |front| ==> front[i] == shown[i];
      TallyStates(front);
      CountStates(TallyOf(front), c);
      assert shown == front + [c];
      ReachesSnoc(front, c, 4);
      ReachesSnoc(front, c, 3);
      ReachesSnoc(front, c, 2);
    }
  }

  lemma ReachesSnoc(front: seq<Check>, c: Check, level: nat)
    ensures Reaches(front + [c], level) <==> Reaches(front, level) || Rank(c.state) >= level
  {
    hide Rank;
    assert forall d :: d in front + [c] <==> d in front || d == c;
  }

  /** The flags of a tally say what the category shows. */
  ghost predicate StatesAre(t: Tally, s: Snapshot, now: int, category: string) {
    && (t.critical <==> Shows(s, now, category, "critical"))
    && (t.critical || t.warning <==> Shows(s, now, category, "critical") || Shows(s, now, category, "warning"))
    && (t.critical || t.warning || t.unknown > 0 <==>
        Shows(s, now, category, "critical") || Shows(s, now, category, "warning") || Blind(s, now, category))
  }

  /**
   A category is critical exactly when a check of it that counts is; else warning when one is; else unknown
   when part of it is not known; else healthy.
   */
  lemma CategoryStatus(p: Policy, shown: seq<Check>, m: map<Key, Check>, s: Snapshot, now: int, enc: Encoding)
    requires IsBest(m, Entries(s, now), enc) && IsListing(shown, m, p.id) && IsCategory(p.id)
    ensures CategoryOf(p, shown).status ==
            if Shows(s, now, p.id, "critical") then LCritical
            else if Shows(s, now, p.id, "warning") then LWarning
            else if Blind(s, now, p.id) then LUnknown
            else LHealthy
    ensures StatesAre(TallyOf(shown), s, now, p.id)
    ensures CategoryOf(p, shown).id == p.id && (CategoryOf(p, shown).score.Some? <==> TallyOf(shown).unknown == 0)
  {
    hide IsBest, IsListing, IsCategory, Shows, Blind, EntryReaches, HasEntry, Reaches, TallyOf, Coverage, Entries;
    hide AllKnownStates;
    ListingStates(shown, m, s, now, enc, p.id);
    ShownReaches(shown, m, s, now, enc, p.id, 4);
    ShownReaches(shown, m, s, now, enc, p.id, 3);
    ShownReaches(shown, m, s, now, enc, p.id, 2);
    TallyStates(shown);
    EntryLevels(s, now, p.id);
    NoEntryNoLevel(s, now, p.id, 4);
    NoEntryNoLevel(s, now, p.id, 3);
  }

  lemma NoEntryNoLevel(s: Snapshot, now: int, category: string, level: nat)
    ensures EntryReaches(s, now, category, level) ==> HasEntry(s, now, category)
  {
    hide Entries;
  }

  // ---------------------------------------------------------------- the whole report

  lemma {:induction false} TotalStates(cats: seq<Category>)
    ensures TotalsOf(cats).critical <==> exists i :: 0 <= i < |cats| && TallyOf(cats[i].checks).critical
    ensures TotalsOf(cats).warning <==> exists i :: 0 <= i < |cats| && TallyOf(cats[i].checks).warning
    ensures TotalsOf(cats).complete <==> forall i :: 0 <= i < |cats| ==> cats[i].score.Some?
  {
    hide TallyOf, Percent, Times;
    if cats != [] {
      var front := cats[..|cats| - 1];
      TotalStates(front);
      assert forall i :: 0 <= i < |front| ==> front[i] == cats[i];
      if TotalsOf(cats).critical && !TallyOf(cats[|cats| - 1].checks).critical {
        var i :| 0 <= i < |front| && TallyOf(front[i].checks).critical;
        assert TallyOf(cats[i].checks).critical;
      }
      if TotalsOf(cats).warning && !TallyOf(cats[|cats| - 1].checks).warning {
        var i :| 0 <= i < |front| && TallyOf(front[i].checks).warning;
        assert TallyOf(cats[i].checks).warning;
      }
    }
  }

  /** The categories of a report, by their names and weights. */
  lemma CategoryNames(r: Report, m: map<Key, Check>)
    requires AreCategories(r.categories, m)
    ensures |r.categories| == 8
    ensures forall i :: 0 <= i < 8 ==>
            r.categories[i].id == POLICIES[i].id && r.categories[i].weight == POLICIES[i].weight
    ensures forall category :: IsCategory(category) ==> exists i :: 0 <= i < 8 && r.categories[i].id == category
  {
    hide IsListing, TallyOf;
    forall category | IsCategory(category) ensures exists i :: 0 <= i < 8 && r.categories[i].id == category {
      CategoriesAre(category);
      var i :| 0 <= i < |POLICIES| && POLICIES[i].id == category;
      assert r.categories[i].id == category;
    }
  }

  /**
   The cluster is critical exactly when some check that counts is; else warning when one is; else unknown when
   the report is stale or part of some category is not known; else healthy. Each category likewise.
   */
  lemma StatusMeans(r: Report, s: Snapshot, now: int, enc: Encoding)
    requires IsReport(r, s, now, enc)
    ensures r.status == LCritical <==> exists c :: Counts(s, c, now) && IsCategory(c.category) && c.state == "critical"
    ensures r.status == LWarning <==>
            && (forall c :: Counts(s, c, now) && IsCategory(c.category) ==> c.state != "critical")
            && (exists c :: Counts(s, c, now) && IsCategory(c.category) && c.state == "warning")
    ensures r.status == LUnknown <==>
            && (forall c :: Counts(s, c, now) && IsCategory(c.category) ==>
                c.state != "critical" && c.state != "warning")
            && (r.stale || exists category :: IsCategory(category) && Blind(s, now, category))
    ensures forall cat :: cat in r.categories ==>
              cat.status == if Shows(s, now, cat.id, "critical") then LCritical
                            else if Shows(s, now, cat.id, "warning") then LWarning
                            else if Blind(s, now, cat.id) then LUnknown
                            else LHealthy
  {
    hide IsBest, Entries, Stale, AreCategories, AreFindings, TotalsOf, Shows, Blind, IsCategory, Counts;
    var m :| IsReportVia(r, s, now, enc, m);
    CategoryNames(r, m);
    forall i | 0 <= i < 8 ensures CategoryIs(r.categories[i], s, now) { OneCategory(r, m, s, now, enc, i); }
    OverallStatus(r, s, now);
  }

  ghost predicate CategoryIs(cat: Category, s: Snapshot, now: int) {
    && IsCategory(cat.id) && StatesAre(TallyOf(cat.checks), s, now, cat.id)
    && (cat.score.Some? <==> TallyOf(cat.checks).unknown == 0)
    && cat.status == (if Shows(s, now, cat.id, "critical") then LCritical
                      else if Shows(s, now, cat.id, "warning") then LWarning
                      else if Blind(s, now, cat.id) then LUnknown
                      else LHealthy)
  }

  lemma OneCategory(r: Report, m: map<Key, Check>, s: Snapshot, now: int, enc: Encoding, i: nat)
    requires IsBest(m, Entries(s, now), enc) && AreCategories(r.categories, m) && i < |r.categories|
    ensures CategoryIs(r.categories[i], s, now)
  {
    hide IsBest, Entries, IsListing, CategoryOf, TallyOf, Shows, Blind, IsCategory, StatesAre;
    CategoriesAre("");
    CategoryStatus(POLICIES[i], r.categories[i].checks, m, s, now, enc);
  }

  /** From the categories to the cluster. */
  lemma OverallStatus(r: Report, s: Snapshot, now: int)
    requires |r.categories| == 8
    requires forall category :: IsCategory(category) ==> exists i :: 0 <= i < 8 && r.categories[i].id == category
    requires forall i :: 0 <= i < 8 ==> CategoryIs(r.categories[i], s, now)
    requires r == Assemble(s, r.stale, r.categories, r.findings)
    ensures r.status == LCritical <==> exists c :: Counts(s, c, now) && IsCategory(c.category) && c.state == "critical"
    ensures r.status == LWarning <==>
            && (forall c :: Counts(s, c, now) && IsCategory(c.category) ==> c.state != "critical")
            && (exists c :: Counts(s, c, now) && IsCategory(c.category) && c.state == "warning")
    ensures r.status == LUnknown <==>
            && (forall c :: Counts(s, c, now) && IsCategory(c.category) ==>
                c.state != "critical" && c.state != "warning")
            && (r.stale || exists category :: IsCategory(category) && Blind(s, now, category))
  {
    TotalStates(r.categories);
    hide Counts, Blind, IsCategory, TallyOf, TotalsOf;
    forall c | Counts(s, c, now) && IsCategory(c.category)
      ensures exists i :: 0 <= i < 8 && r.categories[i].id == c.category && Shows(s, now, r.categories[i].id, c.state)
    {
      var i :| 0 <= i < 8 && r.categories[i].id == c.category;
    }
  }

  // ---------------------------------------------------------------- findings

  /**
   Findings are exactly the shown checks that are critical, warning or unknown. Every critical check that
   counts is among them as such, and every warning unless something graver stands under its name.
   */
  lemma FindingsMean(r: Report, s: Snapshot, now: int, enc: Encoding)
    requires IsReport(r, s, now, enc)
    ensures forall f :: f in r.findings <==>
              (f.state == "critical" || f.state == "warning" || f.state == "unknown")
              && exists i :: 0 <= i < |r.categories| && f in r.categories[i].checks
    ensures forall c :: Counts(s, c, now) && IsCategory(c.category) && c.state == "critical" ==>
              exists f :: f in r.findings && f.category == c.category && f.id == c.id && f.state == "critical"
    ensures forall c :: Counts(s, c, now) && IsCategory(c.category) && c.state == "warning" ==>
              exists f :: f in r.findings && f.category == c.category && f.id == c.id
                          && (f.state == "critical" || f.state == "warning")
    ensures forall i, j :: 0 <= i < j < |r.findings| ==>
              || Lt(r.findings[i].category, r.findings[j].category)
              || (r.findings[i].category == r.findings[j].category && Lt(r.findings[i].id, r.findings[j].id))
  {
    hide IsBest, Entries, Stale, IsListing, CategoryOf, Counts, IsCategory, Assemble;
    var m :| IsReportVia(r, s, now, enc, m);
    forall c | Counts(s, c, now) && IsCategory(c.category) && (c.state == "critical" || c.state == "warning")
      ensures exists f :: f in r.findings && f.category == c.category && f.id == c.id
                          && (f.state == "critical" || (f.state == "warning" && c.state == "warning"))
    {
      var f, i := Listed(r, m, s, now, enc, c);
      assert f in r.findings;
    }
    StatesDiffer();
  }

  /** The check shown under the name of one that counts. */
  lemma Listed(r: Report, m: map<Key, Check>, s: Snapshot, now: int, enc: Encoding, c: Check) returns (f: Check, i: nat)
    requires IsBest(m, Entries(s, now), enc) && AreCategories(r.categories, m)
    requires Counts(s, c, now) && IsCategory(c.category) && (c.state == "critical" || c.state == "warning")
    ensures i < |r.categories| && f in r.categories[i].checks && f.category == c.category && f.id == c.id
    ensures f.state == "critical" || (f.state == "warning" && c.state == "warning")
  {
    AllInSnapshot(s, now);
    CategoriesAre(c.category);
    var n := Normalize(c, now, StaleSnapshot(s, now));
    NormalizeMeans(s, c, now);
    StatesDiffer();
    assert n in Entries(s, now) && n.state == c.state && n.id == c.id && n.category == c.category;
    hide Counts, Normalize, IsCategory;
    f := WinnerOf(m, Entries(s, now), enc, n);
    assert KnownState(f.state) by { assert f in Entries(s, now); }
    Ranks(f.state);
    Ranks(n.state);
    hide Entries, Rank;
    i :| 0 <= i < |POLICIES| && POLICIES[i].id == c.category;
    IsShown(r.categories[i].checks, m, c.category, f);
  }

  lemma WinnerOf(m: map<Key, Check>, entries: set<Check>, enc: Encoding, n: Check) returns (w: Check)
    requires IsBest(m, entries, enc) && n in entries
    ensures w in entries && KeyOf(w) == KeyOf(n) && KeyOf(n) in m && m[KeyOf(n)] == w && Rank(w.state) >= Rank(n.state)
  {
    hide Rank;
    w := m[KeyOf(n)];
  }

  lemma IsShown(shown: seq<Check>, m: map<Key, Check>, category: string, f: Check)
    requires IsListing(shown, m, category) && KeyOf(f) in m && m[KeyOf(f)] == f && f.category == category
    ensures f in shown
  {
    hide Sorted;
    assert KeyOf(f).0 == category;
  }

  // ---------------------------------------------------------------- what trouble costs

  /** The category has lost its quorum, or a certificate of it has expired or is not valid yet. */
  ghost predicate Lost(s: Snapshot, now: int, category: string) {
    exists c :: Counts(s, c, now) && c.category == category && c.state == "critical"
                && c.reason in {"quorum-lost", "certificate-expired", "not-yet-valid"}
  }

  ghost function Cost(s: Snapshot, now: int, category: string): real {
    if Lost(s, now, category) then 100.0
    else if Shows(s, now, category, "critical") then 75.0
    else if Shows(s, now, category, "warning") then 25.0
    else 0.0
  }

  function CheckCost(c: Check): real {
    if c.state == "critical" then
      if c.reason in {"quorum-lost", "certificate-expired", "not-yet-valid"} then 100.0 else 75.0
    else if c.state == "warning" then 25.0 else 0.0
  }

  lemma CheckPenalty(s: Snapshot, c: Check, now: int)
    requires c in s.checks
    ensures Penalty(Normalize(c, now, StaleSnapshot(s, now))) == if Counts(s, c, now) then CheckCost(c) else 0.0
  {
    NormalizeMeans(s, c, now);
    StatesDiffer();
    hide Normalize, Counts;
  }

  ghost predicate Dearest(s: Snapshot, now: int, category: string, worst: real) {
    && worst >= 0.0
    && (forall c :: Counts(s, c, now) && c.category == category ==> CheckCost(c) <= worst)
    && (worst > 0.0 ==> exists c :: Counts(s, c, now) && c.category == category && CheckCost(c) == worst)
  }

  lemma CostIs(s: Snapshot, now: int, category: string, worst: real)
    requires Dearest(s, now, category, worst)
    ensures worst == Cost(s, now, category)
  {
    hide Counts;
    StatesDiffer();
  }

  lemma CheckIsEntry(s: Snapshot, c: Check, now: int)
    requires c in s.checks && IsCategory(c.category)
    ensures Normalize(c, now, StaleSnapshot(s, now)) in Entries(s, now)
  {
    CategoriesAre(c.category);
    hide Normalize;
  }

  lemma EntryIsCheck(s: Snapshot, n: Check, now: int) returns (c: Check)
    requires n in Entries(s, now)
    ensures c in s.checks && c.category == n.category && n == Normalize(c, now, StaleSnapshot(s, now))
  {
    hide Relevant;
    c :| c in s.checks && Relevant(c.category) && n == Normalize(c, now, StaleSnapshot(s, now));
  }

  lemma WorstIsDearest(shown: seq<Check>, m: map<Key, Check>, s: Snapshot, now: int, enc: Encoding, category: string)
    requires IsBest(m, Entries(s, now), enc) && IsListing(shown, m, category) && IsCategory(category)
    ensures Dearest(s, now, category, TallyOf(shown).worst)
  {
    hide IsBest, IsListing, TallyOf, Counts, Penalty, IsCategory, CheckCost, Normalize, Entries, StaleSnapshot;
    WorstIsMaximum(shown, m, s, now, enc, category);
    TallyBound(shown);
    AllInSnapshot(s, now);
    var worst := TallyOf(shown).worst;
    forall c | Counts(s, c, now) && c.category == category ensures CheckCost(c) <= worst {
      CheckIsEntry(s, c, now);
      CheckPenalty(s, c, now);
      NormalizeMeans(s, c, now);
    }
    if worst > 0.0 {
      var n :| n in Entries(s, now) && n.category == category && Penalty(n) == worst;
      var c := EntryIsCheck(s, n, now);
      CheckPenalty(s, c, now);
      assert Counts(s, c, now) && c.category == category && CheckCost(c) == worst;
    }
  }

  /**
   A category's score, when it has one, is a hundred less what its worst trouble costs: 100 when its quorum
   is lost or a certificate is not valid, 75 for anything else critical, 25 for a warning.
   */
  lemma CategoryScoreMeans(r: Report, s: Snapshot, now: int, enc: Encoding, i: nat)
    requires IsReport(r, s, now, enc) && i < |r.categories|
    ensures var cat := r.categories[i];
            && (cat.score.Some? ==> cat.score.value == 100.0 - Cost(s, now, cat.id))
            && (cat.observed.Some? ==> cat.observed.value == 100.0 - Cost(s, now, cat.id))
            && (cat.deduction.Some? <==> Cost(s, now, cat.id) > 0.0)
            && (cat.deduction.Some? ==> cat.deduction.value.points == Cost(s, now, cat.id))
  {
    hide IsBest, Entries, Stale, IsListing, AreFindings, Assemble, Cost, TallyOf, Coverage;
    var m :| IsReportVia(r, s, now, enc, m);
    CategoriesAre("");
    WorstIsDearest(r.categories[i].checks, m, s, now, enc, POLICIES[i].id);
    CostIs(s, now, POLICIES[i].id, TallyOf(r.categories[i].checks).worst);
  }

  lemma PercentOf(x: real)
    ensures Percent(x, 5.0) == 0.05 * x && Percent(x, 10.0) == 0.1 * x && Percent(x, 15.0) == 0.15 * x
    ensures Percent(x, 20.0) == 0.2 * x
  {
  }

  /** The mean of the eight scores, by weight. */
  function Mean(controlPlane: real, etcd: real, nodes: real, storage: real, networking: real, workloads: real,
                backups: real, certificates: real): real {
    0.15 * controlPlane + 0.2 * etcd + 0.15 * nodes + 0.15 * storage + 0.1 * networking + 0.1 * workloads
    + 0.1 * backups + 0.05 * certificates
  }

  /** The score is the weighted mean of the eight categories. */
  lemma ScoreIsWeightedMean(r: Report, s: Snapshot, now: int, enc: Encoding)
    requires IsReport(r, s, now, enc) && r.score.Some?
    ensures |r.categories| == 8 && forall i :: 0 <= i < 8 ==> r.categories[i].score.Some?
    ensures r.categories[0].id == "control-plane" && r.categories[1].id == "etcd" && r.categories[2].id == "nodes"
    ensures r.categories[3].id == "storage" && r.categories[4].id == "networking" && r.categories[5].id == "workloads"
    ensures r.categories[6].id == "backups" && r.categories[7].id == "certificates"
    ensures var c := r.categories;
            r.score.value == Mean(c[0].score.value, c[1].score.value, c[2].score.value, c[3].score.value,
                                  c[4].score.value, c[5].score.value, c[6].score.value, c[7].score.value)
  {
    hide IsBest, Entries, Stale, IsListing, AreFindings, TotalsOf, Mean;
    var m :| IsReportVia(r, s, now, enc, m);
    CategoryNames(r, m);
    TotalStates(r.categories);
    hide AreCategories;
    SumOfEight(r.categories);
  }

  /** The shares of the first `i` categories. */
  function Weighted(x: seq<real>, i: nat): real
    requires i <= |x| <= |POLICIES|
  {
    if i == 0 then 0.0 else Weighted(x, i - 1) + Percent(x[i - 1], POLICIES[i - 1].weight)
  }

  lemma {:induction false} EightShares(x: seq<real>)
    requires |x| == 8
    ensures Weighted(x, 8) == Mean(x[0], x[1], x[2], x[3], x[4], x[5], x[6], x[7])
  {
    forall i: nat | i < 8
      ensures Weighted(x, i + 1) == Weighted(x, i) + Percent(x[i], POLICIES[i].weight)
    {
    }
    assert Weighted(x, 0) == 0.0;
    forall i | 0 <= i < 8 { PercentOf(x[i]); }
    hide Percent, Weighted;
  }

  lemma {:induction false} TotalsAreShares(c: seq<Category>, scores: seq<real>, coverages: seq<real>)
    requires |c| == |scores| == |coverages| <= 8
    requires forall i :: 0 <= i < |c| ==> c[i].weight == POLICIES[i].weight && c[i].coverage == coverages[i]
    requires forall i :: 0 <= i < |c| && c[i].score.Some? ==> c[i].score.value == scores[i]
    ensures TotalsOf(c).coverage == Weighted(coverages, |c|)
    ensures (forall i :: 0 <= i < |c| ==> c[i].score.Some?) ==> TotalsOf(c).current == Weighted(scores, |c|)
  {
    hide Percent, Times, TallyOf;
    if c != [] {
      var n := |c| - 1;
      TotalsAreShares(c[..n], scores[..n], coverages[..n]);
      SharesOfFront(scores, n);
      SharesOfFront(coverages, n);
    }
  }

  lemma {:induction false} SharesOfFront(x: seq<real>, n: nat)
    requires n <= |x| <= 8
    decreases n
    ensures Weighted(x[..n], n) == Weighted(x, n)
  {
    hide Percent;
    if n > 0 {
      SharesOfFront(x, n - 1);
      SharesOfFront(x[..n], n - 1);
      assert x[..n][..n - 1] == x[..n - 1];
    }
  }

  lemma {:induction false} SumOfEight(c: seq<Category>)
    requires |c| == 8 && forall i :: 0 <= i < 8 ==> c[i].weight == POLICIES[i].weight
    ensures TotalsOf(c).coverage == Mean(c[0].coverage, c[1].coverage, c[2].coverage, c[3].coverage,
                                         c[4].coverage, c[5].coverage, c[6].coverage, c[7].coverage)
    ensures (forall i :: 0 <= i < 8 ==> c[i].score.Some?) ==>
              TotalsOf(c).current == Mean(c[0].score.value, c[1].score.value, c[2].score.value, c[3].score.value,
                                          c[4].score.value, c[5].score.value, c[6].score.value, c[7].score.value)
  {
    hide Mean, TotalsOf, Weighted;
    var scores := seq(8, i requires 0 <= i < 8 => if c[i].score.Some? then c[i].score.value else 0.0);
    var coverages := seq(8, i requires 0 <= i < 8 => c[i].coverage);
    TotalsAreShares(c, scores, coverages);
    EightShares(scores);
    EightShares(coverages);
  }

  /** How many of these checks say something. */
  function Telling(shown: seq<Check>): nat {
    if shown == [] then 0
    else Telling(shown[..|shown| - 1]) + if shown[|shown| - 1].state == "unknown" then 0 else 1
  }

  lemma {:induction false} TallyTelling(shown: seq<Check>)
    requires AllKnownStates(shown)
    ensures TallyOf(shown).known == Telling(shown)
  {
    hide Penalty;
    if shown != [] {
      TallyTelling(shown[..|shown| - 1]);
      assert KnownState(shown[|shown| - 1].state);
    }
  }

  /** A category is covered as far as its shown checks say something, and the cluster as its categories, by weight. */
  lemma {:induction false} CoverageMeans(r: Report, s: Snapshot, now: int, enc: Encoding, i: nat)
    requires IsReport(r, s, now, enc) && i < 8
    ensures |r.categories| == 8 && r.categories[i].checks != []
    ensures var cat := r.categories[i]; cat.coverage * |cat.checks| as real == 100.0 * Telling(cat.checks) as real
    ensures var c := r.categories;
            r.coverage == Mean(c[0].coverage, c[1].coverage, c[2].coverage, c[3].coverage, c[4].coverage, c[5].coverage,
                               c[6].coverage, c[7].coverage)
  {
    hide IsReportVia, Mean, Telling;
    var m :| IsReportVia(r, s, now, enc, m);
    CategoryIsCovered(r, s, now, enc, m, i);
    ClusterIsCovered(r, s, now, enc, m);
  }

  lemma CategoryIsCovered(r: Report, s: Snapshot, now: int, enc: Encoding, m: map<Key, Check>, i: nat)
    requires IsReportVia(r, s, now, enc, m) && i < 8
    ensures |r.categories| == 8 && r.categories[i].checks != []
    ensures var cat := r.categories[i]; cat.coverage * |cat.checks| as real == 100.0 * Telling(cat.checks) as real
  {
    hide IsBest, Entries, Stale, IsListing, AreFindings, Assemble, CategoryOf, Telling;
    CategoryCoverage(r.categories[i], m, s, now, enc, i);
  }

  lemma {:induction false} ClusterIsCovered(r: Report, s: Snapshot, now: int, enc: Encoding, m: map<Key, Check>)
    requires IsReportVia(r, s, now, enc, m) && |r.categories| == 8
    ensures var c := r.categories;
            r.coverage == Mean(c[0].coverage, c[1].coverage, c[2].coverage, c[3].coverage, c[4].coverage, c[5].coverage,
                               c[6].coverage, c[7].coverage)
  {
    hide IsBest, Entries, Stale, AreCategories, AreFindings, TotalsOf, Mean;
    CategoryNames(r, m);
    SumOfEight(r.categories);
  }

  lemma CategoryCoverage(cat: Category, m: map<Key, Check>, s: Snapshot, now: int, enc: Encoding, i: nat)
    requires i < 8 && IsBest(m, Entries(s, now), enc) && IsListing(cat.checks, m, POLICIES[i].id)
    requires cat == CategoryOf(POLICIES[i], cat.checks)
    ensures cat.checks != [] && cat.coverage * |cat.checks| as real == 100.0 * Telling(cat.checks) as real
  {
    hide IsBest, Entries, IsListing, TallyOf, Telling, Coverage;
    ListingStates(cat.checks, m, s, now, enc, POLICIES[i].id);
    CoverageOf(cat.checks);
  }

  lemma CoverageOf(shown: seq<Check>)
    requires AllKnownStates(shown) && shown != []
    ensures Coverage(TallyOf(shown)) * |shown| as real == 100.0 * Telling(shown) as real
  {
    hide AllKnownStates, TallyOf, Telling, HasUnknown;
    TallyTelling(shown);
    TallyCounts(shown);
    Ratio(TallyOf(shown));
    hide Coverage;
  }

  lemma Ratio(t: Tally)
    requires t.known + t.unknown > 0
    ensures Coverage(t) * (t.known + t.unknown) as real == 100.0 * t.known as real
  {
  }

  /** Losing the etcd quorum takes the whole of etcd's twenty points. */
  lemma QuorumLossTakesTwentyPoints(r: Report, s: Snapshot, now: int, enc: Encoding, c: Check)
    requires IsReport(r, s, now, enc) && r.score.Some?
    requires Counts(s, c, now) && c.category == "etcd" && c.state == "critical" && c.reason == "quorum-lost"
    ensures r.status == LCritical && r.score.value <= 80.0
  {
    ScoreIsWeightedMean(r, s, now, enc);
    CategoryScoreMeans(r, s, now, enc, 1);
    StatusMeans(r, s, now, enc);
    assert Cost(s, now, "etcd") == 100.0;
    forall i: nat | i < 8 ensures r.categories[i].score.value <= 100.0 {
      CategoryScoreMeans(r, s, now, enc, i);
      CostIsNotNegative(s, now, r.categories[i].id);
    }
    hide IsReport, Counts, Cost;
  }

  lemma CostIsNotNegative(s: Snapshot, now: int, category: string)
    ensures 0.0 <= Cost(s, now, category) <= 100.0
  {
  }
}
