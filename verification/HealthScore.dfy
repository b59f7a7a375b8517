/** What scores mean: bounds, when a score exists, staleness, and monotonicity; and the evaluator itself. */
module HealthScore {
  import opened Basics
  import opened Health
  import opened HealthReport

  // ---------------------------------------------------------------- tallies

  ghost predicate AllKnownStates(s: seq<Check>) { forall i :: 0 <= i < |s| ==> KnownState(s[i].state) }

  ghost predicate HasUnknown(s: seq<Check>) { exists i :: 0 <= i < |s| && s[i].state == "unknown" }

  lemma {:induction false} TallyCounts(s: seq<Check>)
    requires AllKnownStates(s)
    ensures TallyOf(s).known + TallyOf(s).unknown == |s|
    ensures TallyOf(s).unknown == 0 <==> !HasUnknown(s)
    ensures (forall i :: 0 <= i < |s| ==> s[i].state == "unknown") ==> TallyOf(s).known == 0
  {
    hide Penalty;
    if s != [] {
      var front, c := s[..|s| - 1], s[|s| - 1];
      TallyCounts(front);
      assert KnownState(c.state);
      assert forall i :: 0 <= i < |front| ==> s[i] == front[i];
      HasUnknownSnoc(s);
    }
  }

  lemma HasUnknownSnoc(s: seq<Check>)
    requires s != []
    ensures HasUnknown(s) <==> HasUnknown(s[..|s| - 1]) || s[|s| - 1].state == "unknown"
  {
    var front := s[..|s| - 1];
    assert forall i :: 0 <= i < |front| ==> s[i] == front[i];
    if i :| 0 <= i < |front| && front[i].state == "unknown" { assert s[i].state == "unknown"; }
  }

  ghost predicate Bounds(s: seq<Check>, worst: real) {
    && worst >= 0.0
    && (forall i :: 0 <= i < |s| ==> Penalty(s[i]) <= worst)
    && (worst > 0.0 ==> exists i :: 0 <= i < |s| && Penalty(s[i]) == worst)
  }

  lemma BoundsSnoc(s: seq<Check>, c: Check, worst: real)
    requires Bounds(s, worst)
    ensures Bounds(s + [c], if Penalty(c) > worst then Penalty(c) else worst)
  {
    hide Penalty;
    var t := s + [c];
    assert t[|s|] == c;
    assert forall i :: 0 <= i < |s| ==> t[i] == s[i];
    if Penalty(c) <= worst && worst > 0.0 {
      var i :| 0 <= i < |s| && Penalty(s[i]) == worst;
      assert Penalty(t[i]) == worst;
    }
  }

  lemma CountWorst(t: Tally, c: Check)
    requires KnownState(c.state) && t.worst >= 0.0
    ensures Count(t, c).worst == if Penalty(c) > t.worst then Penalty(c) else t.worst
  {
  }

  /** The tally's worst value is the largest penalty shown. */
  lemma {:induction false} TallyWorst(s: seq<Check>)
    requires AllKnownStates(s)
    ensures Bounds(s, TallyOf(s).worst)
  {
    hide Penalty, Bounds, Count;
    if s == [] {
      EmptyBounds();
    } else {
      var front, c := s[..|s| - 1], s[|s| - 1];
      TallyWorst(front);
      BoundsSnoc(front, c, TallyOf(front).worst);
      assert front + [c] == s;
      CountWorst(TallyOf(front), c);
    }
  }

  lemma EmptyBounds()
    ensures Bounds([], 0.0)
  {
  }

  /** Between entries that compete for one place, the winner's penalty is the larger. */
  lemma WinnerPenalty(a: Check, b: Check, enc: Encoding)
    requires Beats(a, b, enc) && KnownState(a.state) && KnownState(b.state)
    ensures Penalty(a) >= Penalty(b)
  {
  }

  lemma ListingStates(shown: seq<Check>, m: map<Key, Check>, s: Snapshot, now: int, enc: Encoding, category: string)
    requires IsBest(m, Entries(s, now), enc) && IsListing(shown, m, category)
    ensures shown != [] && AllKnownStates(shown) && forall i :: 0 <= i < |shown| ==> shown[i].category == category
  {
    if exists k :: k in m && k.0 == category {
      var k :| k in m && k.0 == category;
      assert m[k] in shown;
      forall i | 0 <= i < |shown| ensures KnownState(shown[i].state) && shown[i].category == category {
        assert shown[i] in shown;
      }
    }
  }

  /** The deduction of a category is the largest penalty among all its entries, winners or not. */
  lemma WorstIsMaximum(shown: seq<Check>, m: map<Key, Check>, s: Snapshot, now: int, enc: Encoding, category: string)
    requires IsBest(m, Entries(s, now), enc) && IsListing(shown, m, category)
    ensures forall n :: n in Entries(s, now) && n.category == category ==> Penalty(n) <= TallyOf(shown).worst
    ensures TallyOf(shown).worst > 0.0 ==>
            exists n :: n in Entries(s, now) && n.category == category && Penalty(n) == TallyOf(shown).worst
  {
    ListingStates(shown, m, s, now, enc, category);
    TallyWorst(shown);
    hide TallyOf;
    forall n | n in Entries(s, now) && n.category == category ensures Penalty(n) <= TallyOf(shown).worst {
      var w := m[KeyOf(n)];
      assert KeyOf(n) in m && KeyOf(n).0 == category && w in shown;
      var i :| 0 <= i < |shown| && shown[i] == w;
      if n != w { WinnerPenalty(w, n, enc); }
    }
    if TallyOf(shown).worst > 0.0 {
      var i :| 0 <= i < |shown| && Penalty(shown[i]) == TallyOf(shown).worst;
      assert shown[i] in shown;
    }
  }

  // ---------------------------------------------------------------- totals

  function WeightOf(cats: seq<Category>): real {
    if cats == [] then 0.0 else WeightOf(cats[..|cats| - 1]) + cats[|cats| - 1].weight
  }

  ghost predicate GoodCategory(c: Category) {
    && c.weight >= 0.0 && 0.0 <= c.coverage <= 100.0
    && (c.score.Some? ==> 0.0 <= c.score.value <= 100.0 && c.coverage == 100.0 && c.observed == c.score)
    && (c.observed.Some? ==> 0.0 <= c.observed.value <= 100.0)
    && (c.observed.None? ==> c.coverage == 0.0)
  }

  lemma Share(x: real, w: real)
    requires 0.0 <= x <= 100.0 && w >= 0.0
    ensures 0.0 <= Percent(x, w) <= w && 0.0 <= Times(x, w) <= 100.0 * w
    ensures x == 100.0 ==> Percent(x, w) == w
    ensures Times(x, w) == 100.0 * Percent(x, w)
  {
    assert x * w <= 100.0 * w;
    assert x * w >= 0.0;
  }

  ghost predicate TotalsInv(t: Totals, w: real) {
    && 0.0 <= t.current <= w && 0.0 <= t.coverage <= w && 0.0 <= t.weight <= w && 0.0 <= t.sum <= 100.0 * t.weight
    && (t.complete ==> t.coverage == w && t.weight == w && t.sum == 100.0 * t.current)
  }

  lemma AddKeeps(t: Totals, w: real, c: Category)
    requires TotalsInv(t, w) && GoodCategory(c)
    ensures TotalsInv(Add(t, c), w + c.weight)
  {
    hide TallyOf, Percent, Times;
    Share(c.coverage, c.weight);
    var part := Percent(c.coverage, c.weight);
    if c.score.Some? { Share(c.score.value, c.weight); }
    if c.observed.Some? { Share(c.observed.value, part); }
  }

  lemma {:induction false} TotalsBounds(cats: seq<Category>)
    requires forall i :: 0 <= i < |cats| ==> GoodCategory(cats[i])
    ensures TotalsInv(TotalsOf(cats), WeightOf(cats))
    ensures TotalsOf(cats).complete <==> forall i :: 0 <= i < |cats| ==> cats[i].score.Some?
  {
    hide TotalsInv, GoodCategory;
    if cats == [] {
      EmptyTotals();
    } else {
      TotalsBounds(cats[..|cats| - 1]);
      AddKeeps(TotalsOf(cats[..|cats| - 1]), WeightOf(cats[..|cats| - 1]), cats[|cats| - 1]);
      assert forall i :: 0 <= i < |cats| - 1 ==> cats[i] == cats[..|cats| - 1][i];
    }
  }

  lemma EmptyTotals()
    ensures TotalsInv(ZERO, 0.0)
  {
  }

  lemma {:induction false} WeightOfPolicies(cats: seq<Category>, n: nat)
    requires n <= |cats| == |POLICIES| && forall i :: 0 <= i < |cats| ==> cats[i].weight == POLICIES[i].weight
    ensures WeightOf(cats[..n]) == PrefixWeight(n)
  {
    if n > 0 {
      assert cats[..n][..n - 1] == cats[..n - 1];
      WeightOfPolicies(cats, n - 1);
    }
  }

  function PrefixWeight(n: nat): real
    requires n <= |POLICIES|
  {
    if n == 0 then 0.0 else PrefixWeight(n - 1) + POLICIES[n - 1].weight
  }

  lemma WeightsSumTo100()
    ensures PrefixWeight(8) == 100.0
  {
    assert PrefixWeight(2) == 35.0;
    assert PrefixWeight(4) == 65.0;
    assert PrefixWeight(6) == 85.0;
  }

  lemma CategoryIsGood(p: Policy, shown: seq<Check>)
    requires p.weight >= 0.0 && shown != [] && AllKnownStates(shown)
    ensures GoodCategory(CategoryOf(p, shown)) && (CategoryOf(p, shown).score.Some? <==> !HasUnknown(shown))
  {
    TallyCounts(shown);
  }

  lemma ReportCategories(r: Report, s: Snapshot, now: int, enc: Encoding, m: map<Key, Check>)
    requires IsReportVia(r, s, now, enc, m)
    ensures |r.categories| == 8 && WeightOf(r.categories) == 100.0
    ensures forall i :: 0 <= i < 8 ==> GoodCategory(r.categories[i])
    ensures forall i :: 0 <= i < 8 ==> (r.categories[i].score.Some? <==> !HasUnknown(r.categories[i].checks))
  {
    hide IsBest, Entries, Stale, GoodCategory, HasUnknown, Assemble, IsListing, AreFindings, TallyOf, Coverage;
    forall i | 0 <= i < 8
      ensures GoodCategory(r.categories[i]) && (r.categories[i].score.Some? <==> !HasUnknown(r.categories[i].checks))
    {
      assert IsListing(r.categories[i].checks, m, POLICIES[i].id);
      ListingStates(r.categories[i].checks, m, s, now, enc, POLICIES[i].id);
      CategoryIsGood(POLICIES[i], r.categories[i].checks);
    }
    WeightOfPolicies(r.categories, 8);
    assert r.categories[..8] == r.categories;
    WeightsSumTo100();
  }

  /**
   Scores and coverage stay within 0..100. A score is present exactly when nothing is stale and no
   category shows an unknown check; it then equals the observed score, and coverage is 100.
   */
  lemma ScoreIsSound(r: Report, s: Snapshot, now: int, enc: Encoding)
    requires IsReport(r, s, now, enc)
    ensures 0.0 <= r.coverage <= 100.0
    ensures r.observed.Some? ==> 0.0 <= r.observed.value <= 100.0
    ensures r.score.Some? <==> !Stale(s, now) && forall i :: 0 <= i < |r.categories| ==>
            !HasUnknown(r.categories[i].checks)
    ensures r.score.Some? ==> 0.0 <= r.score.value <= 100.0 && r.observed == r.score && r.coverage == 100.0
  {
    hide HasUnknown, GoodCategory, AreCategories, AreFindings, IsBest, Stale, Entries, TotalsOf, CategoryOf, IsListing;
    var m :| IsReportVia(r, s, now, enc, m);
    ReportCategories(r, s, now, enc, m);
    TotalsBounds(r.categories);
    var t := TotalsOf(r.categories);
    if t.weight > 0.0 { Quotient(t.sum, t.weight); }
  }

  lemma Quotient(sum: real, w: real)
    requires w > 0.0 && 0.0 <= sum <= 100.0 * w
    ensures 0.0 <= sum / w <= 100.0
    ensures w == 100.0 ==> sum / w == sum / 100.0
  {
    Scale(sum, w);
  }

  lemma Scale(sum: real, w: real)
    requires w > 0.0 && 0.0 <= sum <= 100.0 * w
    ensures 0.0 <= sum / w <= 100.0
  {
    var q := sum / w;
    assert q * w == sum;
    Cancel(0.0, q, w);
    Cancel(q, 100.0, w);
  }

  lemma Cancel(x: real, y: real, w: real)
    requires w > 0.0 && x * w <= y * w
    ensures x <= y
  {
    assert (y - x) * w >= 0.0;
  }

  // ---------------------------------------------------------------- staleness

  lemma {:induction false} NothingKnown(cats: seq<Category>)
    requires forall i :: 0 <= i < |cats| ==> cats[i].coverage == 0.0 && cats[i].observed.None? && cats[i].score.None?
    ensures TotalsOf(cats).coverage == 0.0 && TotalsOf(cats).weight == 0.0 && (cats != [] ==> !TotalsOf(cats).complete)
  {
    hide TallyOf;
    if cats != [] {
      NothingKnown(cats[..|cats| - 1]);
    }
  }

  lemma StaleCategory(p: Policy, shown: seq<Check>, m: map<Key, Check>, s: Snapshot, now: int, enc: Encoding)
    requires StaleSnapshot(s, now) && IsBest(m, Entries(s, now), enc) && IsListing(shown, m, p.id)
    ensures var c := CategoryOf(p, shown); c.coverage == 0.0 && c.observed.None? && c.score.None?
  {
    ListingStates(shown, m, s, now, enc, p.id);
    forall i | 0 <= i < |shown| ensures shown[i].state == "unknown" {
      assert shown[i] in shown;
    }
    assert HasUnknown(shown) by { assert shown[0].state == "unknown"; }
    TallyCounts(shown);
  }

  /** A stale snapshot gives coverage 0 and neither score. */
  lemma StaleSnapshotScoresNothing(r: Report, s: Snapshot, now: int, enc: Encoding)
    requires IsReport(r, s, now, enc) && StaleSnapshot(s, now)
    ensures r.stale && r.coverage == 0.0 && r.score.None? && r.observed.None?
  {
    var m :| IsReportVia(r, s, now, enc, m);
    hide IsBest, Entries, IsListing, CategoryOf;
    forall i | 0 <= i < |r.categories|
      ensures r.categories[i].coverage == 0.0 && r.categories[i].observed.None? && r.categories[i].score.None?
    {
      StaleCategory(POLICIES[i], r.categories[i].checks, m, s, now, enc);
    }
    NothingKnown(r.categories);
  }

  // ---------------------------------------------------------------- monotonicity

  /** Every check of `t` is at least as bad as the check of `s` in the same place. */
  ghost predicate NoBetter(s: Snapshot, t: Snapshot, now: int) {
    && |s.checks| == |t.checks|
    && forall i :: 0 <= i < |s.checks| ==>
                     && s.checks[i].category == t.checks[i].category
                     && Penalty(Normalize(s.checks[i], now, StaleSnapshot(s, now)))
                        <= Penalty(Normalize(t.checks[i], now, StaleSnapshot(t, now)))
  }

  lemma WorstGrows(a: seq<Check>, b: seq<Check>, m: map<Key, Check>, n: map<Key, Check>,
                   s: Snapshot, t: Snapshot, now: int, enc: Encoding, category: string)
    requires IsBest(m, Entries(s, now), enc) && IsListing(a, m, category)
    requires IsBest(n, Entries(t, now), enc) && IsListing(b, n, category)
    requires NoBetter(s, t, now)
    ensures TallyOf(a).worst <= TallyOf(b).worst
  {
    WorstIsMaximum(a, m, s, now, enc, category);
    WorstIsMaximum(b, n, t, now, enc, category);
    hide IsBest, IsListing, TallyOf, Normalize, Penalty;
    TallyBound(b);
    if TallyOf(a).worst > 0.0 {
      var x :| x in Entries(s, now) && x.category == category && Penalty(x) == TallyOf(a).worst;
      var y := Counterpart(s, t, now, x);
      assert Penalty(y) <= TallyOf(b).worst;
    }
  }

  /** The entry of `t` in the place of an entry of `s`. */
  lemma Counterpart(s: Snapshot, t: Snapshot, now: int, x: Check) returns (y: Check)
    requires NoBetter(s, t, now) && x in Entries(s, now)
    ensures y in Entries(t, now) && y.category == x.category && Penalty(x) <= Penalty(y)
  {
    hide Penalty, Relevant, Normalize;
    var c :| c in s.checks && Relevant(c.category) && x == Normalize(c, now, StaleSnapshot(s, now));
    var i :| 0 <= i < |s.checks| && s.checks[i] == c;
    assert t.checks[i] in t.checks;
    y := Normalize(t.checks[i], now, StaleSnapshot(t, now));
  }

  lemma TallyBound(s: seq<Check>)
    ensures 0.0 <= TallyOf(s).worst
  {
  }

  lemma {:induction false} CurrentFalls(a: seq<Category>, b: seq<Category>)
    requires |a| == |b|
    requires forall i :: 0 <= i < |a| ==> a[i].score.Some? && b[i].score.Some? && a[i].weight == b[i].weight >= 0.0
    requires forall i :: 0 <= i < |a| ==> b[i].score.value <= a[i].score.value
    ensures TotalsOf(b).current <= TotalsOf(a).current
  {
    hide Percent, Times, TallyOf;
    if a != [] {
      CurrentFalls(a[..|a| - 1], b[..|b| - 1]);
      var x, y := a[|a| - 1], b[|b| - 1];
      Scaled(y.score.value, x.score.value, x.weight);
    }
  }

  lemma Scaled(x: real, y: real, w: real)
    requires x <= y && w >= 0.0
    ensures Percent(x, w) <= Percent(y, w)
  {
    assert x * w <= y * w;
  }

  /** Worsening checks never raises the score, when both reports have one. */
  lemma ScoreIsMonotone(r: Report, q: Report, s: Snapshot, t: Snapshot, now: int, enc: Encoding)
    requires IsReport(r, s, now, enc) && IsReport(q, t, now, enc) && NoBetter(s, t, now)
    requires r.score.Some? && q.score.Some?
    ensures q.score.value <= r.score.value
  {
    hide IsBest, Entries, Stale, IsListing, HasUnknown, GoodCategory, NoBetter, AreFindings, TotalsInv, AreCategories,
      TotalsOf;
    var m :| IsReportVia(r, s, now, enc, m);
    var n :| IsReportVia(q, t, now, enc, n);
    ReportCategories(r, s, now, enc, m);
    ReportCategories(q, t, now, enc, n);
    TotalsBounds(r.categories);
    TotalsBounds(q.categories);
    CategoriesFall(r, q, s, t, now, enc, m, n);
    CurrentFalls(r.categories, q.categories);
  }

  lemma CategoriesFall(r: Report, q: Report, s: Snapshot, t: Snapshot, now: int, enc: Encoding, m: map<Key, Check>,
                       n: map<Key, Check>)
    requires IsReportVia(r, s, now, enc, m) && IsReportVia(q, t, now, enc, n) && NoBetter(s, t, now)
    requires forall i :: 0 <= i < |r.categories| ==> r.categories[i].score.Some?
    requires forall i :: 0 <= i < |q.categories| ==> q.categories[i].score.Some?
    ensures |r.categories| == |q.categories| == 8
    ensures forall i :: 0 <= i < 8 ==> q.categories[i].score.value <= r.categories[i].score.value
    ensures forall i :: 0 <= i < 8 ==> r.categories[i].weight == q.categories[i].weight >= 0.0
  {
    hide IsBest, Entries, Stale, IsListing, NoBetter, AreFindings, Assemble, TallyOf, Coverage;
    forall i | 0 <= i < 8
      ensures q.categories[i].score.value <= r.categories[i].score.value
      ensures r.categories[i].weight == q.categories[i].weight >= 0.0
    {
      WorstGrows(r.categories[i].checks, q.categories[i].checks, m, n, s, t, now, enc, POLICIES[i].id);
    }
  }
}
