/** The evaluator's loops, proved to produce the one report the policy describes. */
module HealthEvaluator {
  import opened Basics
  import opened Ordering
  import opened Health
  import opened HealthReport

  /** The entries of one category, in whatever order the map yields them. */
  method Collect(m: map<Key, Check>, category: string) returns (r: seq<Check>)
    requires forall k :: k in m ==> KeyOf(m[k]) == k
    ensures DistinctKeys(r)
    ensures forall c :: c in r <==> KeyOf(c) in m && m[KeyOf(c)] == c && c.category == category
  {
    r := [];
    var todo := m.Keys;
    while todo != {}
      invariant todo <= m.Keys && DistinctKeys(r)
      invariant forall c :: c in r <==> KeyOf(c) in m.Keys - todo && m[KeyOf(c)] == c && c.category == category
    {
      var k :| k in todo;
      todo := todo - {k};
      var c := m[k];
      if c.category == category {
        assert forall i :: 0 <= i < |r| ==> r[i] in r && KeyOf(r[i]) != k;
        r := r + [c];
      }
    }
  }

  method ListCategory(m: map<Key, Check>, category: string) returns (shown: seq<Check>)
    requires forall k :: k in m ==> KeyOf(m[k]) == k
    ensures IsListing(shown, m, category) && Sorted(shown) && forall c :: c in shown ==> c.category == category
  {
    hide Sorted, DistinctKeys;
    var found := Collect(m, category);
    shown := Sort(found);
    assert forall k :: k in m && k.0 == category ==> m[k] in found && m[k] in shown;
    if |shown| == 0 {
      shown := [Missing(category)];
      OneIsSorted(Missing(category));
    } else {
      var c := shown[0];
      assert c in shown;
      assert KeyOf(c) in m && KeyOf(c).0 == category;
    }
  }

  lemma OneIsSorted(c: Check)
    ensures Sorted([c])
  {
  }

  /** The tally loop, with the findings it appends. */
  method TallyUp(shown: seq<Check>) returns (t: Tally, found: seq<Check>)
    requires Sorted(shown)
    ensures t == TallyOf(shown) && DistinctKeys(found)
    ensures forall c :: c in found <==> c in shown && Finding(c)
  {
    hide Penalty;
    t, found := Tally(0, 0, 0.0, "", "", false, false), [];
    for i := 0 to |shown|
      invariant t == TallyOf(shown[..i]) && DistinctKeys(found)
      invariant forall c :: c in found <==> c in shown[..i] && Finding(c)
    {
      var c := shown[i];
      assert shown[..i + 1][..i] == shown[..i] && shown[..i + 1] == shown[..i] + [c];
      t := Count(t, c);
      if Finding(c) {
        NewKey(shown, i, found);
        found := found + [c];
      }
    }
    assert shown[..|shown|] == shown;
  }

  lemma NewKey(shown: seq<Check>, i: nat, found: seq<Check>)
    requires Sorted(shown) && i < |shown| && DistinctKeys(found)
    requires forall c :: c in found ==> c in shown[..i]
    ensures DistinctKeys(found + [shown[i]])
  {
    forall k | 0 <= k < |found| ensures KeyOf(found[k]) != KeyOf(shown[i]) {
      assert found[k] in found;
      var j :| 0 <= j < i && shown[..i][j] == found[k];
      assert KeyLt(shown[j], shown[i]);
      LtIrreflexive(shown[i].category);
      LtIrreflexive(shown[i].id);
    }
  }

  lemma JoinDistinct(a: seq<Check>, b: seq<Check>, p: nat)
    requires DistinctKeys(a) && DistinctKeys(b) && p < |POLICIES|
    requires forall c :: c in a ==> exists i :: 0 <= i < p && c.category == POLICIES[i].id
    requires forall c :: c in b ==> c.category == POLICIES[p].id
    ensures DistinctKeys(a + b)
  {
    PolicyIdsDiffer();
    var s := a + b;
    forall i, j | 0 <= i < j < |s| ensures KeyOf(s[i]) != KeyOf(s[j]) {
      if i < |a| <= j {
        assert a[i] in a && b[j - |a|] in b;
      }
    }
  }

  lemma PolicyIdsDiffer()
    ensures forall i, j :: 0 <= i < j < |POLICIES| ==> POLICIES[i].id != POLICIES[j].id
  {
    assert forall i :: 0 <= i < |POLICIES| ==> |POLICIES[i].id| > 0;
    assert POLICIES[0].id[0] == 'c' && POLICIES[1].id[0] == 'e' && POLICIES[2].id[1] == 'o' && POLICIES[3].id[0] == 's';
    assert POLICIES[4].id[1] == 'e' && POLICIES[4].id[0] == 'n' && POLICIES[2].id[0] == 'n';
    assert POLICIES[5].id[0] == 'w' && POLICIES[6].id[0] == 'b' && POLICIES[7].id[0] == 'c' && POLICIES[7].id[1] == 'e'
           && POLICIES[0].id[1] == 'o';
  }

  ghost predicate SomeCategories(cats: seq<Category>, m: map<Key, Check>) {
    && |cats| <= |POLICIES|
    && forall i :: 0 <= i < |cats| ==>
       IsListing(cats[i].checks, m, POLICIES[i].id) && cats[i] == CategoryOf(POLICIES[i], cats[i].checks)
  }

  ghost predicate SomeFindings(f: seq<Check>, cats: seq<Category>) {
    && DistinctKeys(f)
    && (forall c :: c in f <==> Finding(c) && exists i :: 0 <= i < |cats| && c in cats[i].checks)
    && |cats| <= |POLICIES|
    && (forall i :: 0 <= i < |cats| ==> forall c :: c in cats[i].checks ==> c.category == POLICIES[i].id)
  }

  lemma MoreFindings(f: seq<Check>, cats: seq<Category>, found: seq<Check>, cat: Category)
    requires SomeFindings(f, cats) && DistinctKeys(found) && |cats| < |POLICIES|
    requires forall c :: c in found <==> c in cat.checks && Finding(c)
    requires forall c :: c in cat.checks ==> c.category == POLICIES[|cats|].id
    ensures SomeFindings(f + found, cats + [cat])
  {
    hide DistinctKeys, Finding;
    JoinDistinct(f, found, |cats|);
    var next := cats + [cat];
    assert next[|cats|] == cat && forall i :: 0 <= i < |cats| ==> next[i] == cats[i];
    forall c | c in f + found ensures Finding(c) && exists i :: 0 <= i < |next| && c in next[i].checks {
      if c in f {
        var i :| 0 <= i < |cats| && c in cats[i].checks;
        assert c in next[i].checks;
      } else {
        assert c in next[|cats|].checks;
      }
    }
  }

  lemma MoreCategories(cats: seq<Category>, m: map<Key, Check>, cat: Category)
    requires SomeCategories(cats, m) && |cats| < |POLICIES|
    requires IsListing(cat.checks, m, POLICIES[|cats|].id) && cat == CategoryOf(POLICIES[|cats|], cat.checks)
    ensures SomeCategories(cats + [cat], m)
  {
    hide IsListing, CategoryOf;
  }

  /** One category: its listing, its tally and the findings it contributes. */
  method ScoreCategory(m: map<Key, Check>, policy: Policy) returns (cat: Category, t: Tally, found: seq<Check>)
    requires forall k :: k in m ==> KeyOf(m[k]) == k
    ensures IsListing(cat.checks, m, policy.id) && cat == CategoryOf(policy, cat.checks) && t == TallyOf(cat.checks)
    ensures DistinctKeys(found) && forall c :: c in found <==> c in cat.checks && Finding(c)
    ensures forall c :: c in cat.checks ==> c.category == policy.id
  {
    hide IsListing, Sorted, DistinctKeys, TallyOf, Coverage, Finding;
    var shown := ListCategory(m, policy.id);
    t, found := TallyUp(shown);
    var score, observed: Option<real> := None, None;
    if t.known > 0 { observed := Some(100.0 - t.worst); }
    if t.unknown == 0 { score := Some(100.0 - t.worst); }
    var status := if t.critical then LCritical else if t.warning then LWarning else if t.unknown > 0 then LUnknown
      else LHealthy;
    var deduction := if t.worst > 0.0 then Some(Deduction(t.worstId, t.worst, t.worstReason)) else None;
    cat := Category(policy.id, policy.weight, score, observed, Coverage(t), status, deduction, shown);
  }

  lemma TotalsSnoc(cats: seq<Category>, cat: Category)
    ensures TotalsOf(cats + [cat]) == Add(TotalsOf(cats), cat)
  {
    hide Add;
    assert (cats + [cat])[..|cats|] == cats;
  }

  /** Loops, map iteration in any order, and running sums yield exactly the report the policy describes. */
  method Evaluate(s: Snapshot, now: int, enc: Encoding) returns (r: Report)
    requires Injective(enc)
    ensures IsReport(r, s, now, enc)
  {
    hide IsBest, Entries, Stale, Injective, SomeCategories, SomeFindings, AreCategories, AreFindings, DistinctKeys,
      Sorted,
         IsListing, TallyOf, Percent, Times, CategoryOf, TotalsOf, IsReport, Finding;
    var m, stale := Deduplicate(s, now, enc);
    BestKeys(m, Entries(s, now), enc);
    var cats: seq<Category>, findings: seq<Check> := [], [];
    var current, sum, weight, coverage := 0.0, 0.0, 0.0, 0.0;
    var complete, critical, warning := true, false, false;
    StartLoop(m);
    for p := 0 to |POLICIES|
      invariant |cats| == p && SomeCategories(cats, m) && SomeFindings(findings, cats)
      invariant TotalsOf(cats) == Totals(current, sum, weight, coverage, complete, critical, warning)
    {
      var cat, t, found := ScoreCategory(m, POLICIES[p]);
      var part := Percent(cat.coverage, cat.weight);
      coverage := coverage + part;
      if cat.observed.Some? { sum, weight := sum + Times(cat.observed.value, part), weight + part; }
      if cat.score.Some? {
        current := current + Percent(cat.score.value, cat.weight);
      } else {
        complete := false;
      }
      critical, warning := critical || t.critical, warning || t.warning;
      MoreFindings(findings, cats, found, cat);
      MoreCategories(cats, m, cat);
      TotalsSnoc(cats, cat);
      cats, findings := cats + [cat], findings + found;
    }
    FindingsReady(findings, cats);
    var ordered := Sort(findings);
    r := Report(s.id, s.checkedAt, stale,
                if critical then LCritical else if warning then LWarning else if !complete || stale then LUnknown
                else LHealthy,
                if complete && !stale then Some(current) else None,
                if weight > 0.0 then Some(sum / weight) else None,
                coverage, cats, ordered);
    LoopDone(m, cats, findings, ordered);
    Reported(r, s, now, enc, m);
  }

  lemma Reported(r: Report, s: Snapshot, now: int, enc: Encoding, m: map<Key, Check>)
    requires IsBest(m, Entries(s, now), enc) && AreCategories(r.categories, m) && AreFindings(r.findings, r.categories)
    requires r == Assemble(s, Stale(s, now), r.categories, r.findings)
    ensures IsReport(r, s, now, enc)
  {
    hide IsBest, Entries, Stale, AreCategories, AreFindings, Assemble;
    assert IsReportVia(r, s, now, enc, m);
  }

  lemma BestKeys(m: map<Key, Check>, entries: set<Check>, enc: Encoding)
    requires IsBest(m, entries, enc)
    ensures forall k :: k in m ==> KeyOf(m[k]) == k
  {
  }

  lemma StartLoop(m: map<Key, Check>)
    ensures SomeCategories([], m) && SomeFindings([], []) && TotalsOf([]) == ZERO
  {
  }

  lemma FindingsReady(findings: seq<Check>, cats: seq<Category>)
    requires SomeFindings(findings, cats)
    ensures DistinctKeys(findings)
  {
  }

  lemma LoopDone(m: map<Key, Check>, cats: seq<Category>, findings: seq<Check>, ordered: seq<Check>)
    requires |cats| == |POLICIES| && SomeCategories(cats, m) && SomeFindings(findings, cats)
    requires Sorted(ordered) && forall d :: d in ordered <==> d in findings
    ensures AreCategories(cats, m) && AreFindings(ordered, cats)
  {
    hide IsListing, CategoryOf, Sorted, DistinctKeys, Finding;
  }
}
