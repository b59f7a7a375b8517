/**
 The health evaluator: a deduplicating fold over a snapshot's checks, then weighted scoring per
 category. Scores are real numbers. The JSON text used for the last tie-break is a parameter `enc`.
 */
module Health {
  import opened Basics
  import opened Ordering

  /** `text` stands for the descriptive fields, which only take part in the JSON text. Times are seconds. */
  datatype Check = Check(category: string, id: string, state: string, reason: string, text: string,
                         observedAt: Option<int>)
  datatype Snapshot = Snapshot(id: string, checkedAt: Option<int>, checks: seq<Check>)
  datatype Policy = Policy(id: string, weight: real)

  const FRESHNESS := 600

  const POLICIES: seq<Policy> := [
    Policy("control-plane", 15.0), Policy("etcd", 20.0), Policy("nodes", 15.0), Policy("storage", 15.0),
    Policy("networking", 10.0), Policy("workloads", 10.0), Policy("backups", 10.0), Policy("certificates", 5.0)]

  predicate Fresh(at: Option<int>, now: int) { at.Some? && at.value <= now && now - at.value <= FRESHNESS }

  predicate KnownState(s: string) {
    s == "healthy" || s == "warning" || s == "critical" || s == "unknown" || s == "not-applicable"
  }

  function Rank(s: string): nat {
    if s == "critical" then 4 else if s == "warning" then 3 else if s == "unknown" then 2
    else if s == "healthy" then 1 else if s == "not-applicable" then 0 else 2
  }

  function Penalty(c: Check): real {
    if c.state == "critical" then
      if c.reason == "quorum-lost" || c.reason == "certificate-expired" || c.reason == "not-yet-valid" then 100.0
      else 75.0
    else if c.state == "warning" then 25.0 else 0.0
  }

  predicate Relevant(category: string) { exists i :: 0 <= i < |POLICIES| && POLICIES[i].id == category }

  /** A check as it enters the map: identified, demoted when stale, with a state the policy knows. */
  function Normalize(c: Check, now: int, stale: bool): (r: Check)
    ensures KnownState(r.state) && r.category == c.category
  {
    var c1 := if c.id == ""
      then c.(id := "missing-id:" + c.category, state := "unknown", reason := "missing-check-identity") else c;
    var c2 := if stale || !Fresh(c1.observedAt, now) then c1.(state := "unknown", reason := "stale-observation")
      else c1;
    if KnownState(c2.state) then c2 else c2.(state := "unknown", reason := "invalid-observation-state")
  }

  predicate StaleSnapshot(s: Snapshot, now: int) { !Fresh(s.checkedAt, now) }

  ghost predicate StaleCheck(checks: seq<Check>, now: int) {
    exists c :: c in checks && Relevant(c.category) && !Fresh(c.observedAt, now)
  }

  /** Something made the report stale: the snapshot itself, or one relevant check. */
  ghost predicate Stale(s: Snapshot, now: int) { StaleSnapshot(s, now) || StaleCheck(s.checks, now) }

  ghost function EntriesOf(checks: seq<Check>, now: int, stale: bool): set<Check> {
    set c | c in checks && Relevant(c.category) :: Normalize(c, now, stale)
  }

  /** The checks that compete for a place in the report. */
  ghost function Entries(s: Snapshot, now: int): set<Check> { EntriesOf(s.checks, now, StaleSnapshot(s, now)) }

  // ---------------------------------------------------------------- the deduplicating order

  type Encoding = Check -> string

  /** `c` displaces `d` under one key: higher rank, then higher penalty, then smaller JSON text. */
  predicate Beats(c: Check, d: Check, enc: Encoding) {
    || Rank(c.state) > Rank(d.state)
    || (Rank(c.state) == Rank(d.state)
        && (Penalty(c) > Penalty(d) || (Penalty(c) == Penalty(d) && Lt(enc(c), enc(d)))))
  }

  ghost predicate Injective(enc: Encoding) { forall c, d :: enc(c) == enc(d) ==> c == d }

  lemma BeatsTransitive(a: Check, b: Check, c: Check, enc: Encoding)
    requires Beats(a, b, enc) && Beats(b, c, enc)
    ensures Beats(a, c, enc)
  {
    if Lt(enc(a), enc(b)) && Lt(enc(b), enc(c)) { LtTransitive(enc(a), enc(b), enc(c)); }
  }

  lemma BeatsTotal(a: Check, b: Check, enc: Encoding)
    requires Injective(enc)
    ensures Beats(a, b, enc) || a == b || Beats(b, a, enc)
  {
    LtTotal(enc(a), enc(b));
  }

  lemma BeatsAsymmetric(a: Check, b: Check, enc: Encoding)
    requires Beats(a, b, enc)
    ensures !Beats(b, a, enc) && a != b
  {
    LtIrreflexive(enc(a));
    if Lt(enc(a), enc(b)) && Lt(enc(b), enc(a)) { LtTransitive(enc(a), enc(b), enc(a)); }
  }

  type Key = (string, string)

  function KeyOf(c: Check): Key { (c.category, c.id) }

  /** Per key, `m` holds the entry that beats every other entry with that key. */
  ghost predicate IsBest(m: map<Key, Check>, entries: set<Check>, enc: Encoding) {
    && (forall k :: k in m ==> m[k] in entries && KeyOf(m[k]) == k)
    && (forall c :: c in entries ==> KeyOf(c) in m && (c == m[KeyOf(c)] || Beats(m[KeyOf(c)], c, enc)))
  }

  lemma BestIsUnique(m: map<Key, Check>, n: map<Key, Check>, entries: set<Check>, enc: Encoding)
    requires IsBest(m, entries, enc) && IsBest(n, entries, enc)
    ensures m == n
  {
    forall k | k in m ensures k in n && m[k] == n[k] {
      if m[k] != n[k] { BeatsAsymmetric(m[k], n[k], enc); }
    }
  }

  method IsRelevant(category: string) returns (r: bool)
    ensures r == Relevant(category)
  {
    for i := 0 to |POLICIES|
      invariant forall k :: 0 <= k < i ==> POLICIES[k].id != category
    {
      if POLICIES[i].id == category { return true; }
    }
    r := false;
  }

  /** One round of the map-building loop keeps the maximum. */
  lemma BestStep(m: map<Key, Check>, entries: set<Check>, c: Check, enc: Encoding)
    requires IsBest(m, entries, enc) && Injective(enc)
    ensures IsBest(if KeyOf(c) in m && !Beats(c, m[KeyOf(c)], enc) then m else m[KeyOf(c) := c], entries + {c}, enc)
  {
    var k := KeyOf(c);
    if k in m {
      BeatsTotal(c, m[k], enc);
      if Beats(c, m[k], enc) {
        forall d | d in entries && KeyOf(d) == k ensures Beats(c, d, enc) {
          if d != m[k] { BeatsTransitive(c, m[k], d, enc); }
        }
      }
    }
  }

  lemma EntriesSnoc(checks: seq<Check>, c: Check, now: int, stale: bool)
    ensures EntriesOf(checks + [c], now, stale) ==
            if Relevant(c.category) then EntriesOf(checks, now, stale) + {Normalize(c, now, stale)}
            else EntriesOf(checks, now, stale)
    ensures StaleCheck(checks + [c], now) ==
            (StaleCheck(checks, now) || (Relevant(c.category) && !Fresh(c.observedAt, now)))
  {
    var e, e1 := EntriesOf(checks, now, stale), EntriesOf(checks + [c], now, stale);
    assert forall d :: d in checks + [c] <==> d in checks || d == c;
    if Relevant(c.category) {
      assert e1 == e + {Normalize(c, now, stale)};
    } else {
      assert e1 == e;
    }
  }

  /** The map-building loop computes, per category and id, the maximum entry. */
  method Deduplicate(s: Snapshot, now: int, enc: Encoding) returns (m: map<Key, Check>, stale: bool)
    requires Injective(enc)
    ensures IsBest(m, Entries(s, now), enc) && stale == Stale(s, now)
  {
    hide EntriesOf, StaleCheck, Relevant, IsBest, Beats, Normalize, Injective;
    var snapshotStale := !Fresh(s.checkedAt, now);
    m, stale := map[], snapshotStale;
    EmptyIsBest(now, snapshotStale, enc);
    for i := 0 to |s.checks|
      invariant IsBest(m, EntriesOf(s.checks[..i], now, snapshotStale), enc)
      invariant stale == (snapshotStale || StaleCheck(s.checks[..i], now))
    {
      var c := s.checks[i];
      assert s.checks[..i + 1] == s.checks[..i] + [c];
      EntriesSnoc(s.checks[..i], c, now, snapshotStale);
      var relevant := IsRelevant(c.category);
      if relevant {
        var n := Normalize(c, now, snapshotStale);
        if snapshotStale || !Fresh(c.observedAt, now) { stale := true; }
        BestStep(m, EntriesOf(s.checks[..i], now, snapshotStale), n, enc);
        if KeyOf(n) !in m || Beats(n, m[KeyOf(n)], enc) { m := m[KeyOf(n) := n]; }
      }
    }
    assert s.checks[..|s.checks|] == s.checks;
  }

  lemma EmptyIsBest(now: int, stale: bool, enc: Encoding)
    ensures IsBest(map[], EntriesOf([], now, stale), enc) && !StaleCheck([], now)
  {
  }
}
