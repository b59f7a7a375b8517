/** Trimming, as the source does it: collect, sort, delete, then drop the marks of missing alerts. */
module AlertTrim {
  import opened Basics
  import opened AlertState

  ghost predicate Ascending<K(!new)>(s: seq<K>, key: map<K, int>) {
    (forall i :: 0 <= i < |s| ==> s[i] in key) && forall i, j :: 0 <= i < j < |s| ==> key[s[i]] <= key[s[j]]
  }

  ghost predicate SameElements<K(!new)>(s: seq<K>, t: seq<K>) { forall x :: x in s <==> x in t }

  lemma Spliced<K(!new)>(s: seq<K>, i: nat, x: K)
    requires i <= |s| && Distinct(s) && x !in s
    ensures var r := s[..i] + [x] + s[i..]; Distinct(r) && SameElements(r, s + [x])
  {
    var r := s[..i] + [x] + s[i..];
    assert s == s[..i] + s[i..];
    assert forall k :: 0 <= k < |s| ==> s[k] in s;
  }

  method InsertByKey<K(!new)>(s: seq<K>, x: K, key: map<K, int>) returns (r: seq<K>)
    requires Distinct(s) && Ascending(s, key) && x !in s && x in key
    ensures Distinct(r) && Ascending(r, key) && SameElements(r, s + [x])
  {
    hide Distinct, SameElements;
    var i := 0;
    while i < |s| && key[s[i]] <= key[x]
      invariant 0 <= i <= |s| && forall k :: 0 <= k < i ==> key[s[k]] <= key[x]
    {
      i := i + 1;
    }
    Spliced(s, i, x);
    r := s[..i] + [x] + s[i..];
  }

  method SortByKey<K(!new)>(s: seq<K>, key: map<K, int>) returns (r: seq<K>)
    requires Distinct(s) && forall x :: x in s ==> x in key
    ensures Distinct(r) && Ascending(r, key) && SameElements(r, s)
  {
    r := [];
    for i := 0 to |s|
      invariant Distinct(r) && Ascending(r, key) && SameElements(r, s[..i])
    {
      assert s[i] !in s[..i] && s[i] in s;
      r := InsertByKey(r, s[i], key);
      assert s[..i + 1] == s[..i] + [s[i]];
    }
    assert s[..|s|] == s;
  }

  method Listed<K(==, !new)>(ids: set<K>) returns (r: seq<K>)
    ensures Distinct(r) && forall x :: x in r <==> x in ids
  {
    r := [];
    var todo := ids;
    while todo != {}
      invariant todo <= ids && Distinct(r) && forall x :: x in r <==> x in ids - todo
      decreases |todo|
    {
      var x :| x in todo;
      DistinctSnoc(r, x);
      todo := todo - {x};
      r := r + [x];
    }
  }

  ghost function Elements<K>(s: seq<K>): set<K> { set x | x in s }

  lemma {:induction false} DistinctCount<K>(s: seq<K>)
    requires Distinct(s)
    ensures |Elements(s)| == |s|
  {
    if s != [] {
      var front, x := s[..|s| - 1], s[|s| - 1];
      DistinctCount(front);
      assert Elements(s) == Elements(front) + {x};
      assert x !in front;
    }
  }

  method TrimAlerts(alerts: map<AlertId, Alert>) returns (r: map<AlertId, Alert>)
    ensures forall s: State :: s.alerts == alerts ==> AlertsTrimmed(s, s.(alerts := r))
  {
    var resolved := Listed<AlertId>(set id | id in alerts && alerts[id].status.Resolved?);
    var newest: map<AlertId, int> := map id | id in alerts :: -alerts[id].lastChanged;
    var order := SortByKey<AlertId>(resolved, newest);
    r := alerts;
    if |order| > MAX_RESOLVED {
      var gone := order[MAX_RESOLVED..];
      r := map id | id in alerts && id !in gone :: alerts[id];
    }
    forall s: State | s.alerts == alerts ensures AlertsTrimmed(s, s.(alerts := r)) {
      AlertsAreTrimmed(s, r, order);
    }
  }

  lemma AlertsAreTrimmed(s: State, r: map<AlertId, Alert>, order: seq<AlertId>)
    requires Distinct(order) && forall id :: id in order <==> id in ResolvedIds(s)
    requires Ascending(order, map id | id in s.alerts :: -s.alerts[id].lastChanged)
    requires r == if |order| > MAX_RESOLVED then map id | id in s.alerts && id !in order[MAX_RESOLVED..] :: s.alerts[id]
             else s.alerts
    ensures AlertsTrimmed(s, s.(alerts := r))
  {
    var t := s.(alerts := r);
    var kept := if |order| > MAX_RESOLVED then order[..MAX_RESOLVED] else order;
    DistinctCount(order);
    assert Elements(order) == ResolvedIds(s);
    DistinctCount(kept);
    KeptAreFront(s, r, order, kept);
    assert ResolvedIds(t) == Elements(kept);
    forall id | id in ActiveIds(s) ensures id in r {
      assert id !in order;
    }
  }

  lemma KeptAreFront(s: State, r: map<AlertId, Alert>, order: seq<AlertId>, kept: seq<AlertId>)
    requires Distinct(order) && forall id :: id in order <==> id in ResolvedIds(s)
    requires Ascending(order, map id | id in s.alerts :: -s.alerts[id].lastChanged)
    requires r == if |order| > MAX_RESOLVED then map id | id in s.alerts && id !in order[MAX_RESOLVED..] :: s.alerts[id]
             else s.alerts
    requires kept == if |order| > MAX_RESOLVED then order[..MAX_RESOLVED] else order
    ensures forall id :: id in kept <==> id in ResolvedIds(s.(alerts := r))
    ensures forall k, gone :: k in kept && gone in ResolvedIds(s) && gone !in r ==>
            s.alerts[gone].lastChanged <= s.alerts[k].lastChanged
  {
    var t := s.(alerts := r);
    if |order| > MAX_RESOLVED {
      var gone := order[MAX_RESOLVED..];
      assert order == kept + gone;
      assert forall id :: id in gone ==> id in order;
      forall id | id in kept ensures id in ResolvedIds(t) {
        var i :| 0 <= i < MAX_RESOLVED && order[i] == id;
        assert id in order && id !in gone;
      }
      forall id | id in ResolvedIds(t) ensures id in kept {
        assert id in ResolvedIds(s) && id !in gone;
      }
      forall k, gone | k in kept && gone in ResolvedIds(s) && gone !in r
        ensures s.alerts[gone].lastChanged <= s.alerts[k].lastChanged
      {
        var i :| 0 <= i < MAX_RESOLVED && order[i] == k;
        var j :| 0 <= j < |order| - MAX_RESOLVED && order[MAX_RESOLVED..][j] == gone;
        assert order[MAX_RESOLVED + j] == gone;
        assert k in order && gone in order;
      }
    }
  }

  /** Delete terminal deliveries, oldest first, until the limit holds. */
  method TrimDeliveries(deliveries: map<DeliveryId, Delivery>) returns (r: map<DeliveryId, Delivery>)
    ensures forall s: State :: s.deliveries == deliveries ==> DeliveriesTrimmed(s, s.(deliveries := r))
  {
    var terminal := Listed(set id | id in deliveries && Terminal(deliveries[id].phase));
    var age := map id | id in deliveries :: deliveries[id].createdAt;
    var order := SortByKey(terminal, age);
    r := deliveries;
    var i := 0;
    assert DroppedFront(deliveries, deliveries, order, 0);
    while i < |order| && |r| > MAX_DELIVERIES
      invariant 0 <= i <= |order| && DroppedFront(deliveries, r, order, i)
      invariant |r| >= MAX_DELIVERIES || r == deliveries
      invariant i == 0 || |deliveries| > MAX_DELIVERIES
    {
      assert order[i] in order;
      DropNext(deliveries, r, order, i);
      r := r - {order[i]};
      i := i + 1;
    }
    forall s: State | s.deliveries == deliveries ensures DeliveriesTrimmed(s, s.(deliveries := r)) {
      DeliveriesAreTrimmed(s, r, order, i);
    }
  }

  /** Exactly the first `i` of `order` are gone. */
  ghost predicate DroppedFront(all: map<DeliveryId, Delivery>, r: map<DeliveryId, Delivery>, order: seq<DeliveryId>,
                               i: nat) {
    && i <= |order| && (forall id :: id in r <==> id in all && id !in order[..i])
    && (forall id :: id in r ==> r[id] == all[id])
  }

  lemma DropNext(all: map<DeliveryId, Delivery>, r: map<DeliveryId, Delivery>, order: seq<DeliveryId>, i: nat)
    requires Distinct(order) && i < |order| && DroppedFront(all, r, order, i) && order[i] in all
    ensures DroppedFront(all, r - {order[i]}, order, i + 1) && |r - {order[i]}| == |r| - 1
  {
    assert order[..i + 1] == order[..i] + [order[i]];
    assert order[i] !in order[..i];
    assert (r - {order[i]}).Keys == r.Keys - {order[i]};
    assert |r.Keys| == |r| && |(r - {order[i]}).Keys| == |r - {order[i]}|;
  }

  lemma DeliveriesAreTrimmed(s: State, r: map<DeliveryId, Delivery>, order: seq<DeliveryId>, i: nat)
    requires Distinct(order) && forall id :: id in order <==> id in TerminalIds(s)
    requires Ascending(order, map id | id in s.deliveries :: s.deliveries[id].createdAt)
    requires DroppedFront(s.deliveries, r, order, i) && (i == |order| || |r| <= MAX_DELIVERIES)
    requires (|r| >= MAX_DELIVERIES || r == s.deliveries) && (i == 0 || |s.deliveries| > MAX_DELIVERIES)
    ensures DeliveriesTrimmed(s, s.(deliveries := r))
  {
    var t := s.(deliveries := r);
    var front := order[..i];
    assert front + order[i..] == order;
    assert forall id :: id in front ==> id in order;
    assert i == |order| ==> front == order;
    assert i == 0 ==> front == [] && r == s.deliveries;
    forall kept, gone | kept in TerminalIds(t) && gone in s.deliveries && gone !in r
      ensures s.deliveries[gone].createdAt <= s.deliveries[kept].createdAt
    {
      OldestFirst(s, order, i, kept, gone);
    }
  }

  lemma OldestFirst(s: State, order: seq<DeliveryId>, i: nat, kept: DeliveryId, gone: DeliveryId)
    requires i <= |order| && kept in order && kept !in order[..i] && gone in order[..i]
    requires forall id :: id in order ==> id in s.deliveries
    requires Ascending(order, map id | id in s.deliveries :: s.deliveries[id].createdAt)
    ensures gone in s.deliveries && s.deliveries[gone].createdAt <= s.deliveries[kept].createdAt
  {
    assert order == order[..i] + order[i..];
    var a :| 0 <= a < |order| - i && order[i..][a] == kept;
    assert order[i + a] == kept;
    var b :| 0 <= b < i && order[..i][b] == gone;
    assert order[b] == gone && gone in order;
  }

  method TrimMarks(dispatch: map<(AlertId, ChannelId), Mark>, alerts: map<AlertId, Alert>)
    returns (r: map<(AlertId, ChannelId), Mark>)
    ensures forall k :: k in r <==> k in dispatch && k.0 in alerts
    ensures forall k :: k in r ==> r[k] == dispatch[k]
  {
    r := dispatch;
    var todo := dispatch.Keys;
    while todo != {}
      invariant todo <= dispatch.Keys && forall k :: k in r <==> k in dispatch && (k in todo || k.0 in alerts)
      invariant forall k :: k in r ==> r[k] == dispatch[k]
      decreases |todo|
    {
      var k :| k in todo;
      todo := todo - {k};
      if k.0 !in alerts { r := r - {k}; }
    }
  }

  /**
   The trimmed state: the newest thousand resolved alerts, every active one, every delivery that is not sent
   or suppressed, the newest of those while they fit, and no mark without its alert.
   */
  method TrimHistory(s: State) returns (t: State)
    ensures IsTrim(s, t)
  {
    var alerts := TrimAlerts(s.alerts);
    var deliveries := TrimDeliveries(s.deliveries);
    var dispatch := TrimMarks(s.dispatch, alerts);
    t := s.(alerts := alerts, deliveries := deliveries, dispatch := dispatch);
    assert AlertsTrimmed(s, s.(alerts := alerts)) && DeliveriesTrimmed(s, s.(deliveries := deliveries));
    TrimParts(s, t);
  }

  /** What trimming keeps, drops and bounds. */
  lemma TrimMeans(s: State, t: State)
    requires IsTrim(s, t)
    ensures forall id :: id in t.alerts ==> id in s.alerts && t.alerts[id] == s.alerts[id]
    ensures forall id :: id in s.alerts && s.alerts[id].status == Active ==> id in t.alerts
    ensures forall gone, kept :: && gone in s.alerts && gone !in t.alerts && kept in t.alerts
                                 && t.alerts[kept].status == Resolved ==>
                                   s.alerts[gone].lastChanged <= t.alerts[kept].lastChanged
    ensures var before := |set id | id in s.alerts && s.alerts[id].status == Resolved|;
            var after := |set id | id in t.alerts && t.alerts[id].status == Resolved|;
            after == if before < 1000 then before else 1000
    ensures forall id :: id in t.deliveries ==> id in s.deliveries && t.deliveries[id] == s.deliveries[id]
    ensures forall id :: id in s.deliveries && id !in t.deliveries ==>
              s.deliveries[id].phase == Sent || s.deliveries[id].phase == Suppressed
    ensures forall gone, kept :: && gone in s.deliveries && gone !in t.deliveries && kept in t.deliveries
                                 && (t.deliveries[kept].phase == Sent || t.deliveries[kept].phase == Suppressed) ==>
                                   s.deliveries[gone].createdAt <= t.deliveries[kept].createdAt
    ensures |s.deliveries| <= 2000 ==> t.deliveries == s.deliveries
    ensures |s.deliveries| > 2000 ==>
              && |t.deliveries| >= 2000
              && (|t.deliveries| > 2000 ==>
                    forall id :: id in t.deliveries ==>
                      t.deliveries[id].phase != Sent && t.deliveries[id].phase != Suppressed)
    ensures forall k :: k in t.dispatch <==> k in s.dispatch && k.0 in t.alerts
  {
    assert (set id | id in s.alerts && s.alerts[id].status == Resolved) == ResolvedIds(s);
    assert (set id | id in t.alerts && t.alerts[id].status == Resolved) == ResolvedIds(t);
    hide ResolvedIds, ActiveIds;
    assert forall id :: id in t.deliveries && Terminal(t.deliveries[id].phase) ==> id in TerminalIds(t);
  }

  lemma TrimParts(s: State, t: State)
    requires AlertsTrimmed(s, s.(alerts := t.alerts)) && DeliveriesTrimmed(s, s.(deliveries := t.deliveries))
    ensures AlertsTrimmed(s, t) && DeliveriesTrimmed(s, t)
  {
    assert ResolvedIds(t) == ResolvedIds(s.(alerts := t.alerts));
    assert TerminalIds(t) == TerminalIds(s.(deliveries := t.deliveries));
  }
}
