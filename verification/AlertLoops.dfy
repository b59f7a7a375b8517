/** The loops of the alert center over its maps and lists, each proved to compute its specification. */
module AlertLoops {
  import opened Basics
  import opened AlertState
  import AlertRouting
  import opened AlertMachine

  // ---------------------------------------------------------------- silences

  /** The latest end among the silences that apply, whatever order the map yields them in. */
  method Silenced(silences: map<nat, Silence>, a: Alert, now: int) returns (end: Option<int>)
    ensures SilenceEnd(silences, a, now, end)
    ensures forall k :: && k in silences && silences[k].starts <= now && now < silences[k].ends
                        && (silences[k].rule == "" || silences[k].rule == a.rule)
                        && (silences[k].node == "" || silences[k].node == a.node)
                        && (silences[k].severity == "" || silences[k].severity == a.severity)
                        ==> end.Some? && silences[k].ends <= end.value
    ensures end.Some? ==>
            now < end.value
            && exists k :: && k in silences && silences[k].starts <= now && silences[k].ends == end.value
                           && (silences[k].rule == "" || silences[k].rule == a.rule)
                           && (silences[k].node == "" || silences[k].node == a.node)
                           && (silences[k].severity == "" || silences[k].severity == a.severity)
  {
    end := None;
    var todo := silences.Keys;
    while todo != {}
      invariant todo <= silences.Keys
      invariant end.None? ==> forall k :: k in silences && k !in todo ==> !Applies(silences[k], a, now)
      invariant end.Some? ==> exists k :: k in silences && Applies(silences[k], a, now) && silences[k].ends == end.value
      invariant end.Some? ==> forall k :: k in silences && k !in todo && Applies(silences[k], a, now) ==>
                silences[k].ends <= end.value
      decreases |todo|
    {
      var k :| k in todo;
      todo := todo - {k};
      if Applies(silences[k], a, now) && (end.None? || silences[k].ends > end.value) { end := Some(silences[k].ends); }
    }
  }

  lemma EndIsUnique(silences: map<nat, Silence>, a: Alert, now: int, x: Option<int>, y: Option<int>)
    requires SilenceEnd(silences, a, now, x) && SilenceEnd(silences, a, now, y)
    ensures x == y
  {
  }

  /** A finite set of silences has a latest end for every alert. */
  lemma {:induction false} EndExists(silences: map<nat, Silence>, a: Alert, now: int)
    ensures exists end :: SilenceEnd(silences, a, now, end)
    decreases |silences|
  {
    if silences == map[] {
      assert SilenceEnd(silences, a, now, None);
    } else {
      var k :| k in silences;
      var rest := silences - {k};
      assert rest.Keys == silences.Keys - {k};
      assert |rest.Keys| == |rest| && |silences.Keys| == |silences|;
      EndExists(rest, a, now);
      var e :| SilenceEnd(rest, a, now, e);
      var q := silences[k];
      var end := if Applies(q, a, now) && (e.None? || q.ends > e.value) then Some(q.ends) else e;
      EndExtends(silences, rest, k, a, now, e, end);
    }
  }

  lemma EndExtends(silences: map<nat, Silence>, rest: map<nat, Silence>, k: nat, a: Alert, now: int, e: Option<int>,
                   end: Option<int>)
    requires k in silences && rest == silences - {k} && SilenceEnd(rest, a, now, e)
    requires end == if Applies(silences[k], a, now) && (e.None? || silences[k].ends > e.value)
             then Some(silences[k].ends) else e
    ensures SilenceEnd(silences, a, now, end)
  {
    hide Applies;
    assert forall i :: i in silences <==> i == k || i in rest;
    assert forall i :: i in rest ==> rest[i] == silences[i];
    if e.Some? {
      var i :| i in rest && Applies(rest[i], a, now) && rest[i].ends == e.value;
      assert i in silences && silences[i].ends == e.value && Applies(silences[i], a, now);
    }
  }

  ghost function LatestEnd(silences: map<nat, Silence>, now: int, a: Alert): (end: Option<int>)
    ensures SilenceEnd(silences, a, now, end)
  {
    EndExists(silences, a, now);
    var end :| SilenceEnd(silences, a, now, end);
    end
  }

  /** The ends of all silences at one moment, as a function of the alert. */
  ghost function Ends(silences: map<nat, Silence>, now: int): (f: Alert -> Option<int>)
    ensures EndsOk(silences, now, f)
    ensures forall a :: f(a) == LatestEnd(silences, now, a)
  {
    a => LatestEnd(silences, now, a)
  }

  method EndOf(silences: map<nat, Silence>, a: Alert, now: int) returns (end: Option<int>)
    ensures end == Ends(silences, now)(a)
  {
    end := Silenced(silences, a, now);
    EndIsUnique(silences, a, now, end, LatestEnd(silences, now, a));
  }

  // ---------------------------------------------------------------- queueing

  method IsBlocked(s: State, alert: AlertId, ch: ChannelId) returns (r: bool)
    ensures r == Blocked(s, alert, ch)
  {
    var todo := s.deliveries.Keys;
    while todo != {}
      invariant todo <= s.deliveries.Keys
      invariant forall id :: id in s.deliveries && id !in todo && !Terminal(s.deliveries[id].phase) && id.Notice? ==>
                               !(id.alert == alert && id.channel == ch)
      decreases |todo|
    {
      var id :| id in todo;
      todo := todo - {id};
      if id.Notice? && id.alert == alert && id.channel == ch && !Terminal(s.deliveries[id].phase) { return true; }
    }
    r := false;
  }

  method QueueNotification(s: State, alert: AlertId, a: Alert, now: int, slot: int, route: Route, ch: ChannelId,
                           end: Option<int>) returns (t: State)
    ensures t == QueueOne(s, alert, a, now, slot, route, ch, end)
  {
    t := s;
    if ch !in s.channels || !s.channels[ch].enabled { return; }
    if slot != 0 {
      var blocked := IsBlocked(s, alert, ch);
      if blocked { return; }
    }
    hide Blocked;
    if (alert, ch) in s.dispatch && s.dispatch[(alert, ch)].transition == a.transition {
      if slot == 0 || route.repeatMinutes == 0
         || now - s.dispatch[(alert, ch)].lastQueuedAt < route.repeatMinutes * MINUTE {
        return;
      }
    }
    var id := Notice(alert, ch, a.transition, slot);
    if id in s.deliveries { return; }
    var d := Delivery(Pending, 0, if end.Some? then end.value else now, now, ch, s.channels[ch].generation, a.status,
                      end.Some?);
    t := s.(dispatch := s.dispatch[(alert, ch) := Mark(a.transition, now)], deliveries := s.deliveries[id := d],
            queued := s.queued + [Entry(alert, ch, a.transition, slot, now)]);
  }

  method QueueOnRoutes(s: State, alert: AlertId, a: Alert, now: int, slot: int, routes: seq<Route>, end: Option<int>)
    returns (t: State)
    ensures t == QueueRoutes(s, alert, a, now, slot, routes, end)
  {
    hide QueueOne, Matches;
    t := s;
    for i := 0 to |routes|
      invariant t == QueueRoutes(s, alert, a, now, slot, routes[..i], end)
    {
      var r := routes[i];
      assert routes[..i + 1][..i] == routes[..i];
      if Matches(r, a) && !(slot != 0 && r.repeatMinutes == 0) {
        ghost var before := t;
        for j := 0 to |r.channels|
          invariant t == QueueChannels(before, alert, a, now, slot, r, r.channels[..j], end)
        {
          assert r.channels[..j + 1][..j] == r.channels[..j];
          t := QueueNotification(t, alert, a, now, slot, r, r.channels[j], end);
        }
        assert r.channels[..|r.channels|] == r.channels;
      }
    }
    assert routes[..|routes|] == routes;
  }

  method QueueDueReminders(s: State, alert: AlertId, a: Alert, now: int, routes: seq<Route>, end: Option<int>)
    returns (t: State)
    ensures t == QueueReminders(s, alert, a, now, routes, end)
  {
    hide QueueRoutes, Matches;
    t := s;
    for i := 0 to |routes|
      invariant t == QueueReminders(s, alert, a, now, routes[..i], end)
    {
      var r := routes[i];
      assert routes[..i + 1][..i] == routes[..i];
      if r.repeatMinutes > 0 && Matches(r, a) && now - a.lastChanged >= r.repeatMinutes * MINUTE {
        t := QueueOnRoutes(t, alert, a, now, now, [r], end);
      }
    }
    assert routes[..|routes|] == routes;
  }

  /** New routes and reminders for every active alert, in whatever order the map yields them. */
  method QueueForActive(s: State, now: int) returns (t: State, ghost order: seq<AlertId>)
    ensures IsOrder(s, order) && t == QueueActive(s, order, now, Ends(s.silences, now))
  {
    hide QueueRoutes, QueueReminders;
    t, order := s, [];
    ghost var ends := Ends(s.silences, now);
    var todo := s.alerts.Keys;
    while todo != {}
      invariant todo <= s.alerts.Keys && t == QueueActive(s, order, now, ends)
      invariant t.alerts == s.alerts && t.silences == s.silences && t.routes == s.routes
      invariant Distinct(order) && forall id :: id in order <==>
                id in s.alerts && id !in todo && s.alerts[id].status.Active?
      decreases |todo|
    {
      var id :| id in todo;
      todo := todo - {id};
      if s.alerts[id].status.Active? {
        var a := s.alerts[id];
        var end := EndOf(s.silences, a, now);
        QueueFrame(t, id, a, now, 0, t.routes, end);
        var mid := QueueOnRoutes(t, id, a, now, 0, t.routes, end);
        ReminderFrame(mid, id, a, now, mid.routes, end);
        var next := QueueDueReminders(mid, id, a, now, mid.routes, end);
        DistinctSnoc(order, id);
        assert (order + [id])[..|order|] == order;
        t, order := next, order + [id];
      }
    }
  }

  lemma {:induction false} ChannelFrame(s: State, alert: AlertId, a: Alert, now: int, slot: int, r: Route,
                                        chs: seq<ChannelId>, end: Option<int>)
    ensures var t := QueueChannels(s, alert, a, now, slot, r, chs, end);
            t.alerts == s.alerts && t.silences == s.silences && t.routes == s.routes
  {
    hide Queues;
    if chs != [] { ChannelFrame(s, alert, a, now, slot, r, chs[..|chs| - 1], end); }
  }

  lemma {:induction false} QueueFrame(s: State, alert: AlertId, a: Alert, now: int, slot: int, routes: seq<Route>,
                                      end: Option<int>)
    ensures var t := QueueRoutes(s, alert, a, now, slot, routes, end);
            t.alerts == s.alerts && t.silences == s.silences && t.routes == s.routes
  {
    hide QueueChannels, Matches;
    if routes != [] {
      var front, r := routes[..|routes| - 1], routes[|routes| - 1];
      QueueFrame(s, alert, a, now, slot, front, end);
      ChannelFrame(QueueRoutes(s, alert, a, now, slot, front, end), alert, a, now, slot, r, r.channels, end);
    }
  }

  lemma {:induction false} ReminderFrame(s: State, alert: AlertId, a: Alert, now: int, routes: seq<Route>,
                                         end: Option<int>)
    ensures var t := QueueReminders(s, alert, a, now, routes, end);
            t.alerts == s.alerts && t.silences == s.silences && t.routes == s.routes
  {
    hide QueueRoutes, Matches;
    if routes != [] {
      var front, r := routes[..|routes| - 1], routes[|routes| - 1];
      ReminderFrame(s, alert, a, now, front, end);
      QueueFrame(QueueReminders(s, alert, a, now, front, end), alert, a, now, now, [r], end);
    }
  }

  // ---------------------------------------------------------------- screening

  method MarkOrphans(deliveries: map<DeliveryId, Delivery>, inFlight: set<DeliveryId>)
    returns (r: map<DeliveryId, Delivery>)
    ensures r == map id | id in deliveries :: Orphan(deliveries[id], id in inFlight)
  {
    hide Orphan;
    r := map[];
    var todo := deliveries.Keys;
    while todo != {}
      invariant todo <= deliveries.Keys && r.Keys == deliveries.Keys - todo
      invariant forall id :: id in r ==> r[id] == Orphan(deliveries[id], id in inFlight)
      decreases |todo|
    {
      var id :| id in todo;
      todo := todo - {id};
      r := r[id := Orphan(deliveries[id], id in inFlight)];
    }
  }

  method Judge(s: State, id: DeliveryId, d: Delivery, now: int) returns (v: Verdict)
    ensures Judged(s, id, d, now, v)
    ensures var usable := && d.channel in s.channels && s.channels[d.channel].enabled
                          && s.channels[d.channel].generation == d.generation;
            var present := && id.Notice? && id.alert in s.alerts && s.alerts[id.alert].transition == id.transition
                           && s.alerts[id.alert].status == d.shown;
            && (v == Drop <== !usable || (id.Notice? && !present))
            && (usable && id.Test? ==> v == Go)
            && (usable && present && s.alerts[id.alert].stale ==> v == Later(now + 60_000_000_000, false))
            && (usable && present && !s.alerts[id.alert].stale ==>
                  var a := s.alerts[id.alert];
                  if exists k :: && k in s.silences && s.silences[k].starts <= now < s.silences[k].ends
                                 && (s.silences[k].rule == "" || s.silences[k].rule == a.rule)
                                 && (s.silences[k].node == "" || s.silences[k].node == a.node)
                                 && (s.silences[k].severity == "" || s.silences[k].severity == a.severity)
                  then v.Later? && v.silenced && v.until > now
                  else v == if exists r :: && r in s.routes && r.enabled && d.channel in r.channels
                                           && (r.minSeverity == "info" ==>
                                               a.severity in {"info", "warning", "critical"})
                                           && (r.minSeverity == "warning" ==> a.severity in {"warning", "critical"})
                                           && (r.minSeverity == "critical" ==> a.severity == "critical")
                                           && (r.rules == [] || a.rule in r.rules)
                                           && (r.nodes == [] || a.node in r.nodes)
                                           && (a.status == Active || a.event || r.sendResolved)
                            then Go else Drop)
  {
    if d.channel !in s.channels || !s.channels[d.channel].enabled || s.channels[d.channel].generation != d.generation {
      return Drop;
    }
    if id.Test? { return Go; }
    if id.alert !in s.alerts || s.alerts[id.alert].transition != id.transition || s.alerts[id.alert].status != d.shown {
      return Drop;
    }
    var a := s.alerts[id.alert];
    if a.stale { return Later(now + MINUTE, false); }
    var end := Silenced(s.silences, a, now);
    if end.Some? { return Later(end.value, true); }
    forall r | r in s.routes
      ensures Matches(r, a) <==>
              && r.enabled && (r.minSeverity == "info" ==> a.severity in {"info", "warning", "critical"})
              && (r.minSeverity == "warning" ==> a.severity in {"warning", "critical"})
              && (r.minSeverity == "critical" ==> a.severity == "critical")
              && (r.rules == [] || a.rule in r.rules) && (r.nodes == [] || a.node in r.nodes)
              && (a.status == Active || a.event || r.sendResolved)
    {
      AlertRouting.MatchesMeans(r, a);
    }
    hide Matches;
    for i := 0 to |s.routes|
      invariant forall k :: 0 <= k < i ==> !(Matches(s.routes[k], a) && d.channel in s.routes[k].channels)
    {
      if Matches(s.routes[i], a) && d.channel in s.routes[i].channels { return Go; }
    }
    v := Drop;
  }

  /** The deliveries in `done` have been screened; `pick` is the oldest of those that may go. */
  ghost predicate Screening(s: State, now: int, r: map<DeliveryId, Delivery>, verdicts: map<DeliveryId, Verdict>,
                            done: set<DeliveryId>) {
    && r.Keys == s.deliveries.Keys
    && (forall id :: id in verdicts <==> id in done && id in s.deliveries && Due(s.deliveries[id], now))
    && (forall id :: id in verdicts ==> Judged(s, id, s.deliveries[id], now, verdicts[id]))
    && (forall id :: id in s.deliveries ==>
        r[id] == if id in verdicts then Screened(s.deliveries[id], verdicts[id]) else s.deliveries[id])
  }

  lemma ScreenStep(s: State, now: int, r: map<DeliveryId, Delivery>, verdicts: map<DeliveryId, Verdict>,
                   done: set<DeliveryId>, id: DeliveryId, v: Verdict)
    requires Screening(s, now, r, verdicts, done) && id in s.deliveries && id !in done && Due(s.deliveries[id], now)
             && Judged(s, id, s.deliveries[id], now, v)
    ensures Screening(s, now, r[id := Screened(s.deliveries[id], v)], verdicts[id := v], done + {id})
  {
    hide Judged;
  }

  lemma SkipStep(s: State, now: int, r: map<DeliveryId, Delivery>, verdicts: map<DeliveryId, Verdict>,
                 done: set<DeliveryId>, id: DeliveryId)
    requires Screening(s, now, r, verdicts, done) && id in s.deliveries && !Due(s.deliveries[id], now)
    ensures Screening(s, now, r, verdicts, done + {id})
  {
    hide Judged;
  }

  lemma ScreenDone(s: State, now: int, r: map<DeliveryId, Delivery>, verdicts: map<DeliveryId, Verdict>)
    requires Screening(s, now, r, verdicts, s.deliveries.Keys)
    ensures IsScreen(s, now, s.(deliveries := r), verdicts)
  {
    hide Judged;
  }

  lemma ScreenKeys(s: State, now: int, r: map<DeliveryId, Delivery>, verdicts: map<DeliveryId, Verdict>,
                   done: set<DeliveryId>)
    requires Screening(s, now, r, verdicts, done)
    ensures forall k :: k in verdicts ==> k in s.deliveries && k in done
  {
    hide Judged;
  }

  /** One delivery: judged if it is due, and picked if it is older than the one picked so far. */
  method ScreenOne(s: State, now: int, id: DeliveryId, r0: map<DeliveryId, Delivery>, pick0: Option<DeliveryId>,
                   ghost verdicts0: map<DeliveryId, Verdict>, ghost done: set<DeliveryId>)
    returns (r: map<DeliveryId, Delivery>, pick: Option<DeliveryId>, ghost verdicts: map<DeliveryId, Verdict>)
    requires Screening(s, now, r0, verdicts0, done) && IsPick(s, verdicts0, pick0) && id in s.deliveries && id !in done
    requires pick0.Some? ==> pick0.value in s.deliveries
    ensures Screening(s, now, r, verdicts, done + {id}) && IsPick(s, verdicts, pick)
    ensures pick.Some? ==> pick.value in s.deliveries
  {
    hide Judged, Screening, IsPick, Due, Screened;
    r, pick, verdicts := r0, pick0, verdicts0;
    var d := s.deliveries[id];
    if !Due(d, now) {
      SkipStep(s, now, r, verdicts, done, id);
      return;
    }
    ScreenKeys(s, now, r, verdicts, done);
    var v := Judge(s, id, d, now);
    ScreenStep(s, now, r, verdicts, done, id, v);
    PickStep(s, verdicts, pick, id, v);
    r, verdicts := r[id := Screened(d, v)], verdicts[id := v];
    if v.Go? && (pick.None? || d.createdAt < s.deliveries[pick.value].createdAt) { pick := Some(id); }
  }

  method Screen(s: State, now: int)
    returns (t: State, pick: Option<DeliveryId>, ghost verdicts: map<DeliveryId, Verdict>)
    ensures IsScreen(s, now, t, verdicts) && IsPick(s, verdicts, pick)
  {
    var r := s.deliveries;
    pick, verdicts := None, map[];
    ghost var done: set<DeliveryId> := {};
    var todo := s.deliveries.Keys;
    assert Screening(s, now, r, verdicts, done) && IsPick(s, verdicts, pick);
    hide Judged, Screening, IsPick, IsScreen, Due;
    while todo != {}
      invariant todo <= s.deliveries.Keys && done == s.deliveries.Keys - todo
      invariant Screening(s, now, r, verdicts, done) && IsPick(s, verdicts, pick)
      invariant pick.Some? ==> pick.value in s.deliveries
      decreases |todo|
    {
      var id :| id in todo;
      r, pick, verdicts := ScreenOne(s, now, id, r, pick, verdicts, done);
      done := done + {id};
      todo := todo - {id};
    }
    assert done == s.deliveries.Keys;
    ScreenDone(s, now, r, verdicts);
    t := s.(deliveries := r);
  }

  /** Something goes out unless nothing may, and of all that may go it is the oldest. */
  lemma PickMeans(s: State, now: int, t: State, verdicts: map<DeliveryId, Verdict>, pick: Option<DeliveryId>)
    requires IsScreen(s, now, t, verdicts) && IsPick(s, verdicts, pick)
    ensures pick.None? <==> forall id :: id in verdicts ==> verdicts[id] != Go
    ensures pick.Some? ==>
              && pick.value in verdicts && pick.value in s.deliveries && verdicts[pick.value] == Go
              && forall id :: id in verdicts && verdicts[id] == Go ==>
                   id in s.deliveries && s.deliveries[pick.value].createdAt <= s.deliveries[id].createdAt
  {
    hide Judged, Due;
  }

  /** What a screening does to each delivery: only what is due is judged, and only a judgement changes it. */
  lemma ScreenMeans(s: State, now: int, t: State, verdicts: map<DeliveryId, Verdict>)
    requires IsScreen(s, now, t, verdicts)
    ensures t == s.(deliveries := t.deliveries) && t.deliveries.Keys == s.deliveries.Keys
    ensures forall id :: id in s.deliveries ==>
              var d, e := s.deliveries[id], t.deliveries[id];
              if (d.phase == Pending || d.phase == Retrying) && d.nextAt <= now
              then && id in verdicts
                   && (verdicts[id] == Go ==> e == d) && (verdicts[id] == Drop ==> e.phase == Suppressed)
                   && (verdicts[id].Later? ==> e.phase == d.phase && e.nextAt == verdicts[id].until)
              else id !in verdicts && e == d
  {
    hide Judged;
  }

  lemma PickStep(s: State, verdicts: map<DeliveryId, Verdict>, pick: Option<DeliveryId>, id: DeliveryId, v: Verdict)
    requires IsPick(s, verdicts, pick) && id in s.deliveries && id !in verdicts
             && (forall k :: k in verdicts ==> k in s.deliveries)
    requires pick.Some? ==> pick.value in s.deliveries
    ensures IsPick(s, verdicts[id := v],
                   if v.Go? && (pick.None? || s.deliveries[id].createdAt < s.deliveries[pick.value].createdAt)
                   then Some(id) else pick)
  {
  }

  // ---------------------------------------------------------------- observations

  method FindCurrent(alerts: map<AlertId, Alert>, o: Observation) returns (cur: Option<AlertId>)
    ensures IsCurrent(alerts, o, cur)
    ensures cur.None? <==> forall id :: id in alerts ==> alerts[id].rule != o.rule || alerts[id].resource != o.resource
    ensures cur.Some? ==>
              && cur.value in alerts && alerts[cur.value].rule == o.rule && alerts[cur.value].resource == o.resource
              && forall id :: id in alerts && alerts[id].rule == o.rule && alerts[id].resource == o.resource ==>
                   alerts[id].firstSeen <= alerts[cur.value].firstSeen
  {
    cur := None;
    var todo := alerts.Keys;
    while todo != {}
      invariant todo <= alerts.Keys
      invariant cur.None? ==> forall id :: id in alerts && id !in todo ==>
                !(alerts[id].rule == o.rule && alerts[id].resource == o.resource)
      invariant cur.Some? ==>
                cur.value in alerts && alerts[cur.value].rule == o.rule && alerts[cur.value].resource == o.resource
      invariant cur.Some? ==>
                forall id :: && id in alerts && id !in todo
                             && alerts[id].rule == o.rule && alerts[id].resource == o.resource ==>
                               alerts[id].firstSeen <= alerts[cur.value].firstSeen
      decreases |todo|
    {
      var id :| id in todo;
      todo := todo - {id};
      if alerts[id].rule == o.rule && alerts[id].resource == o.resource
         && (cur.None? || alerts[id].firstSeen > alerts[cur.value].firstSeen) {
        cur := Some(id);
      }
    }
  }

  method ObserveNext(s: State, o: Observation, newId: AlertId, now: int) returns (t: State, ghost x: Seen)
    ensures x.o == o && x.newId == newId && IsCurrent(s.alerts, o, x.cur)
            && t == ObserveOne(s, x, now, Ends(s.silences, now))
    ensures t.silences == s.silences
  {
    hide QueueRoutes;
    var cur := FindCurrent(s.alerts, o);
    x := Seen(o, cur, newId);
    t := s;
    var found := if cur.Some? then Some(s.alerts[cur.value]) else None;
    var r := Changed(found, o, now);
    if r.None? { return; }
    var id := if Renews(found, o) then newId else cur.value;
    t := s.(alerts := s.alerts[id := r.value.0]);
    if r.value.1 {
      var end := EndOf(t.silences, r.value.0, now);
      QueueFrame(t, id, r.value.0, now, 0, t.routes, end);
      t := QueueOnRoutes(t, id, r.value.0, now, 0, t.routes, end);
    }
  }

  /** Each observation was matched with the alerts as the earlier ones had left them. */
  ghost predicate AllCurrent(s: State, xs: seq<Seen>, now: int, ends: Alert -> Option<int>) {
    forall i :: 0 <= i < |xs| ==> IsCurrent(ObserveAll(s, xs[..i], now, ends).alerts, xs[i].o, xs[i].cur)
  }

  lemma CurrentSnoc(s: State, xs: seq<Seen>, x: Seen, now: int, ends: Alert -> Option<int>)
    requires AllCurrent(s, xs, now, ends) && IsCurrent(ObserveAll(s, xs, now, ends).alerts, x.o, x.cur)
    ensures AllCurrent(s, xs + [x], now, ends)
    ensures ObserveAll(s, xs + [x], now, ends) == ObserveOne(ObserveAll(s, xs, now, ends), x, now, ends)
  {
    hide ObserveOne, IsCurrent;
    assert (xs + [x])[..|xs|] == xs;
    assert forall i :: 0 <= i < |xs| ==> (xs + [x])[..i] == xs[..i];
  }

  /** All observations in turn; one that is not acceptable refuses them all. */
  method ObserveEach(s: State, os: seq<Observation>, ids: seq<AlertId>, now: int, ghost used: set<nat>)
    returns (ok: bool, t: State, ghost xs: seq<Seen>)
    requires |ids| == |os| && Distinct(ids) && forall i :: 0 <= i < |ids| ==> ids[i] !in used
    ensures ok == forall i :: 0 <= i < |os| ==> Acceptable(os[i])
    ensures ok ==>
            |xs| == |os| && SeenOk(s, xs, now, Ends(s.silences, now), used)
            && t == ObserveAll(s, xs, now, Ends(s.silences, now))
    ensures ok ==> forall i :: 0 <= i < |xs| ==> xs[i].o == os[i] && xs[i].newId == ids[i]
  {
    hide ObserveOne, Acceptable, IsCurrent;
    t, xs := s, [];
    ghost var ends := Ends(s.silences, now);
    for n := 0 to |os|
      invariant |xs| == n && t == ObserveAll(s, xs, now, ends) && t.silences == s.silences
      invariant forall i :: 0 <= i < n ==> Acceptable(os[i]) && xs[i].o == os[i] && xs[i].newId == ids[i]
      invariant AllCurrent(s, xs, now, ends)
    {
      if !Acceptable(os[n]) { return false, t, xs; }
      ghost var x;
      t, x := ObserveNext(t, os[n], ids[n], now);
      CurrentSnoc(s, xs, x, now, ends);
      xs := xs + [x];
    }
    ok := true;
  }
}
