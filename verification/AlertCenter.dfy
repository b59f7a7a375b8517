/** The alert center object: its critical sections clone the state, change it and persist it. */
module AlertCenter {
  import opened Basics
  import opened AlertState
  import opened AlertTrim
  import opened AlertLoops
  import M = AlertMachine

  method CountActive(s: State) returns (n: nat)
    ensures n == |ActiveIds(s)|
  {
    n := 0;
    var todo := s.alerts.Keys;
    ghost var seen: set<AlertId> := {};
    while todo != {}
      invariant todo <= s.alerts.Keys && n == |seen|
      invariant forall id :: id in seen <==> id in ActiveIds(s) && id !in todo
      decreases |todo|
    {
      var id :| id in todo;
      todo := todo - {id};
      if s.alerts[id].status.Active? {
        n := n + 1;
        seen := seen + {id};
      }
    }
    assert seen == ActiveIds(s);
  }

  lemma RecoverMeans(s: State, t: State)
    requires IsTrim(M.Recover(s), t)
    ensures forall id :: id in t.deliveries ==>
              && id in s.deliveries && t.deliveries[id].phase != Sending
              && (s.deliveries[id].phase == Sending ==> t.deliveries[id].phase == Uncertain)
              && (s.deliveries[id].phase != Sending ==> t.deliveries[id] == s.deliveries[id])
    ensures forall id :: id in t.alerts && t.alerts[id].status == Active ==> t.alerts[id].stale
  {
  }

  /** What a restart does to the stored deliveries and alerts, then the first persist. */
  method OpenState(disk: Option<State>, wr: Write) returns (ok: bool, t: State, after: Option<State>)
    ensures var w := M.World(disk, None, {}, []);
            M.Open(w, t, wr) == w.(disk := after, center := if ok then Some(M.Center(t, {}, true)) else None)
    ensures forall id :: id in t.deliveries ==>
              && disk.Some? && id in disk.value.deliveries && t.deliveries[id].phase != Sending
              && (disk.value.deliveries[id].phase == Sending ==> t.deliveries[id].phase == Uncertain)
              && (disk.value.deliveries[id].phase != Sending ==> t.deliveries[id] == disk.value.deliveries[id])
    ensures forall id :: id in t.alerts && t.alerts[id].status == Active ==> t.alerts[id].stale
    ensures ok ==> after == Some(t)
  {
    var s := if disk.Some? then disk.value else EMPTY;
    var next := M.Recover(s);
    t := TrimHistory(next);
    RecoverMeans(s, t);
    hide IsTrim, M.Recover, ActiveIds;
    after := disk;
    var active := CountActive(t);
    if active > MAX_ACTIVE || |t.deliveries| > MAX_DELIVERIES { return false, t, after; }
    if Stored(wr) { after := Some(t); }
    ok := wr.Landed?;
  }

  class AlertCenter {
    var disk: Option<State>
    var state: State
    var lastPersisted: State
    var inFlight: set<DeliveryId>
    var healthy: bool
    ghost var used: set<nat>
    ghost var log: seq<M.Event>

    ghost function View(): M.World
      reads this
    {
      M.World(disk, Some(M.Center(state, inFlight, healthy)), used, log)
    }

    /** While the center is healthy, storage holds exactly what memory holds. */
    ghost predicate Valid()
      reads this
    {
      lastPersisted == state && (healthy ==> disk == Some(state))
    }

    constructor (t: State)
      ensures Valid() && View() == M.World(Some(t), Some(M.Center(t, {}, true)), {}, [])
    {
      disk, state, lastPersisted, inFlight, healthy := Some(t), t, t, {}, true;
      used, log := {}, [];
    }

    /** Trim and write; an unchanged state needs no write, and `done` is then a write that landed. */
    method PersistState(next: State, wr: Write) returns (ok: bool, ghost t: State, ghost done: Write)
      requires Valid()
      modifies this`disk, this`state, this`lastPersisted, this`healthy
      ensures Valid() && IsTrim(next, t) && View() == M.Persist(old(View()), t, done)
      ensures ok == M.Saves(t, done) && (ok ==> state == t && disk == Some(t) && healthy)
    {
      var trimmed := TrimHistory(next);
      t, done := trimmed, wr;
      hide IsTrim, ActiveIds;
      var active := CountActive(trimmed);
      if active > MAX_ACTIVE || |trimmed.deliveries| > MAX_DELIVERIES {
        healthy := false;
        return false, t, done;
      }
      if healthy && trimmed == lastPersisted { return true, t, Landed; }
      if Stored(wr) { disk := Some(trimmed); }
      if !wr.Landed? {
        healthy := false;
        return false, t, done;
      }
      state, lastPersisted, healthy := trimmed, trimmed, true;
      ok := true;
    }

    method Observe(os: seq<M.Observation>, ids: seq<AlertId>, now: int, wr: Write)
      returns (ok: bool, ghost xs: seq<M.Seen>, ghost t: State, ghost done: Write)
      requires Valid() && |ids| == |os| && Distinct(ids) && forall i :: 0 <= i < |ids| ==> ids[i] !in used
      modifies this`disk, this`state, this`lastPersisted, this`healthy, this`used
      ensures Valid()
      ensures |os| > 10000 || (exists i :: 0 <= i < |os| && !M.Acceptable(os[i])) ==> !ok && View() == old(View())
      ensures |os| <= 10000 && (forall i :: 0 <= i < |os| ==> M.Acceptable(os[i])) ==>
                |xs| == |os| && View() == M.Observe(old(View()), xs, now, Ends(old(state).silences, now), t, done)
    {
      t, done, xs := state, wr, [];
      if |os| > 10000 { return false, xs, t, done; }
      var good, next;
      good, next, xs := ObserveEach(state, os, ids, now, used);
      if !good { return false, xs, t, done; }
      hide M.SeenOk, M.ObserveAll, IsTrim, M.Acceptable;
      ok, t, done := PersistState(next, wr);
      used := used + set i | 0 <= i < |xs| :: xs[i].newId;
    }

    method RetryDelivery(id: DeliveryId, now: int, wr: Write) returns (ok: bool, ghost t: State, ghost done: Write)
      requires Valid()
      modifies this`disk, this`state, this`lastPersisted, this`healthy, this`log
      ensures Valid() && View() == M.RetryDelivery(old(View()), id, now, t, done)
      ensures ok ==> && id in old(state).deliveries && old(state).deliveries[id].phase in {Failed, Uncertain}
                     && id in state.deliveries
                     && state.deliveries[id] ==
                        old(state).deliveries[id].(phase := Pending, attempts := 0, nextAt := now,
                                                                           silenced := false)
      ensures id in old(state).deliveries && old(state).deliveries[id].phase !in {Failed, Uncertain} ==>
                !ok && View() == old(View())
    {
      t, done := state, wr;
      if id !in state.deliveries { return false, t, done; }
      var d := state.deliveries[id];
      if !d.phase.Failed? && !d.phase.Uncertain? { return false, t, done; }
      hide IsTrim, Fits;
      var reset := d.(phase := Pending, attempts := 0, nextAt := now, silenced := false);
      ghost var next := state.(deliveries := state.deliveries[id := reset]);
      ok, t, done := PersistState(state.(deliveries := state.deliveries[id := reset]), wr);
      TrimFacts(next, t);
      if Fits(t) && Stored(done) { log := log + [M.Retry(id)]; }
    }

    method IsRouted(ch: ChannelId) returns (routed: bool)
      ensures routed <==> exists r :: r in state.routes && ch in r.channels
    {
      for i := 0 to |state.routes|
        invariant forall k :: 0 <= k < i ==> ch !in state.routes[k].channels
      {
        if ch in state.routes[i].channels { return true; }
      }
      return false;
    }

    method DeleteChannel(ch: ChannelId, wr: Write) returns (ok: bool, ghost t: State, ghost done: Write)
      requires Valid()
      modifies this`disk, this`state, this`lastPersisted, this`healthy
      ensures Valid() && View() == M.DeleteChannel(old(View()), ch, t, done)
      ensures ok ==> && ch in old(state).channels && state.channels == old(state).channels - {ch}
                     && (forall r :: r in state.routes ==> ch !in r.channels)
                     && (forall id :: id in state.deliveries ==> id in old(state).deliveries)
                     && (forall id :: id in state.deliveries && state.deliveries[id].channel == ch ==>
                                        state.deliveries[id].phase != Pending && state.deliveries[id].phase != Retrying)
                     && (forall id :: id in state.deliveries && state.deliveries[id].channel != ch ==>
                                        state.deliveries[id] == old(state).deliveries[id])
      ensures (exists r :: r in old(state).routes && ch in r.channels) ==> !ok && View() == old(View())
    {
      hide IsTrim;
      t, done := state, wr;
      if ch !in state.channels { return false, t, done; }
      var routed := IsRouted(ch);
      if routed { return false, t, done; }
      ghost var next := M.DropChannel(state, ch);
      ok, t, done := PersistState(M.DropChannel(state, ch), wr);
      TrimFacts(next, t);
    }

    /** `uuids` holds a new id for every route that may arrive without one. */
    method SaveRoutes(revision: nat, routes: seq<Route>, uuids: seq<string>, wr: Write)
      returns (ok: bool, ghost t: State, ghost done: Write)
      requires Valid() && |uuids| == |routes|
      modifies this`disk, this`state, this`lastPersisted, this`healthy
      ensures Valid() && View() == M.SaveRoutes(old(View()), revision, M.IdentifyAll(routes, uuids), t, done)
      ensures ok ==>
              && revision == old(state).revision && state.revision == revision + 1 && |state.routes| == |routes| <= 100
                     && forall i :: 0 <= i < |routes| ==>
                          state.routes[i] == routes[i].(id := if routes[i].id == "" then uuids[i] else routes[i].id)
      ensures ok ==> forall r :: r in state.routes ==>
                       && r.minSeverity in {"info", "warning", "critical"} && 1 <= |r.channels| <= 50
                       && (forall ch :: ch in r.channels ==> ch in state.channels)
                       && (r.repeatMinutes == 0 || 5 <= r.repeatMinutes <= 10080)
                       && |r.rules| <= 100 && |r.nodes| <= 100
      ensures ok ==> forall i, j :: 0 <= i < j < |state.routes| ==> state.routes[i].id != state.routes[j].id
      ensures revision != old(state).revision ==> !ok && View() == old(View())
    {
      hide M.RoutesValid, M.IdentifyAll, IsTrim, M.Persist;
      IdentifiedFacts(routes, uuids);
      TooManyRoutes(state, M.IdentifyAll(routes, uuids));
      t, done := state, wr;
      if revision != state.revision || |routes| > 100 { return false, t, done; }
      var good, named := CheckRoutes(state, routes, uuids);
      if !good { return false, t, done; }
      RoutesFacts(state, named);
      ok, t, done := StoreRoutes(named, wr);
    }

    /** Replace the routes and count the change. */
    method StoreRoutes(named: seq<Route>, wr: Write) returns (ok: bool, ghost t: State, ghost done: Write)
      requires Valid()
      modifies this`disk, this`state, this`lastPersisted, this`healthy
      ensures var s := old(state).(routes := named, revision := old(state).revision + 1);
              Valid() && View() == M.Change(old(View()), s, t, done) && IsTrim(s, t)
      ensures ok ==> state.routes == named && state.revision == old(state).revision + 1
                     && state.channels == old(state).channels
    {
      hide IsTrim;
      ghost var next := state.(routes := named, revision := state.revision + 1);
      ok, t, done := PersistState(state.(routes := named, revision := state.revision + 1), wr);
      TrimFacts(next, t);
    }

    /** Everything a claim decides before it writes: orphans, new notifications, reminders, screening, and the pick. */
    method PlanClaim(now: int) returns (s2: State, pick: Option<DeliveryId>, ghost p: M.Plan)
      ensures M.PlanOk(M.Center(state, inFlight, healthy), p, now, Ends(state.silences, now))
      ensures p.screened == s2 && p.pick == pick && (pick.Some? ==> pick.value in s2.deliveries)
    {
      var orphaned := MarkOrphans(state.deliveries, inFlight);
      var s0 := state.(deliveries := orphaned);
      assert s0 == M.Orphans(state, inFlight);
      assert ActiveIds(s0) == ActiveIds(state);
      ghost var order, verdicts;
      var s1;
      s1, order := QueueForActive(s0, now);
      s2, pick, verdicts := Screen(s1, now);
      p := M.Plan(order, s2, verdicts, pick);
      PickIsThere(s1, now, s2, verdicts, pick);
      OrderHolds(state, s0, order);
      hide IsScreen, IsPick, QueueActive, M.Orphans, M.IsOrder, ActiveIds;
    }

    /** First half of a delivery, under the mutex: the claim is durable before the message leaves. */
    method ClaimNext(now: int, sender: bool, wr: Write)
      returns (claimed: Option<DeliveryId>, ghost p: M.Plan, ghost t: State, ghost done: Write)
      requires Valid()
      modifies this`disk, this`state, this`lastPersisted, this`healthy, this`inFlight, this`log
      ensures Valid() && View() == M.Claim(old(View()), p, now, Ends(old(state).silences, now), sender, t, done)
      ensures claimed.Some? ==>
              claimed.value in inFlight && log == old(log) + [M.Send(claimed.value)] && disk == Some(state)
      ensures claimed.Some? ==> claimed.value in state.deliveries && state.deliveries[claimed.value].phase == Sending
      ensures claimed.None? ==> log == old(log) && inFlight == old(inFlight)
    {
      t, done, claimed := state, wr, None;
      var s2, pick;
      s2, pick, p := PlanClaim(now);
      hide IsTrim, Fits, M.PlanOk;
      if pick.None? {
        var saved;
        saved, t, done := PersistState(s2, wr);
        return;
      }
      if !sender { return; }
      var d := s2.deliveries[pick.value];
      var saved;
      var claim := d.(phase := Sending, attempts := d.attempts + 1);
      saved, t, done := PersistState(s2.(deliveries := s2.deliveries[pick.value := claim]), wr);
      TrimFacts(s2.(deliveries := s2.deliveries[pick.value := claim]), t);
      if !saved { return; }
      inFlight := inFlight + {pick.value};
      log := log + [M.Send(pick.value)];
      claimed := pick;
    }

    /** Second half: record what the transport answered. */
    method FinishDelivery(id: DeliveryId, o: M.Outcome, now: int, wr: Write)
      returns (ok: bool, ghost t: State, ghost done: Write)
      requires Valid() && id in inFlight
      modifies this`disk, this`state, this`lastPersisted, this`healthy, this`inFlight, this`log
      ensures Valid() && View() == M.Finish(old(View()), id, o, now, t, done)
      ensures ok ==> && id in old(state).deliveries
                     && (o == M.Delivered && id in state.deliveries ==> state.deliveries[id].phase == Sent)
                     && (o != M.Delivered ==> id in state.deliveries)
                     && (o == M.Unclear ==> state.deliveries[id].phase == Uncertain)
                     && (o.Refused? ==> state.deliveries[id].attempts == old(state).deliveries[id].attempts
                                        && state.deliveries[id].phase ==
                                           if old(state).deliveries[id].attempts >= 5 then Failed else Retrying)
      ensures ok ==> forall k :: k in state.deliveries && k != id ==>
                                   k in old(state).deliveries && state.deliveries[k] == old(state).deliveries[k]
    {
      hide IsTrim, Fits;
      t, done := state, wr;
      inFlight := inFlight - {id};
      if id !in state.deliveries { return false, t, done; }
      var d := M.Completed(state.deliveries[id], o, now);
      hide M.Completed;
      ghost var next := state.(deliveries := state.deliveries[id := d]);
      ok, t, done := PersistState(state.(deliveries := state.deliveries[id := d]), wr);
      TrimFacts(next, t);
      if o.Refused? && Fits(t) && Stored(done) { log := log + [M.Rejected(id)]; }
    }
  }

  lemma IdentifiedFacts(routes: seq<Route>, uuids: seq<string>)
    requires |uuids| == |routes|
    ensures var named := M.IdentifyAll(routes, uuids);
            |named| == |routes|
            && forall i :: 0 <= i < |routes| ==>
                 named[i] == routes[i].(id := if routes[i].id == "" then uuids[i] else routes[i].id)
  {
  }

  lemma TooManyRoutes(s: State, routes: seq<Route>)
    ensures |routes| > 100 ==> !M.RoutesValid(s, routes)
  {
  }

  /** What valid routes are, field by field. */
  lemma RoutesFacts(s: State, routes: seq<Route>)
    requires M.RoutesValid(s, routes)
    ensures forall r :: r in routes ==>
              && r.minSeverity in {"info", "warning", "critical"} && 1 <= |r.channels| <= 50
              && (forall ch :: ch in r.channels ==> ch in s.channels)
              && (r.repeatMinutes == 0 || 5 <= r.repeatMinutes <= 10080)
              && |r.rules| <= 100 && |r.nodes| <= 100
    ensures forall i, j :: 0 <= i < j < |routes| ==> routes[i].id != routes[j].id
  {
    hide M.ValidId, M.Blank, M.Bytes;
  }

  /** Trimming keeps everything undecided, and the settings. */
  lemma TrimFacts(next: State, t: State)
    requires IsTrim(next, t)
    ensures forall id :: id in t.deliveries ==> id in next.deliveries && t.deliveries[id] == next.deliveries[id]
    ensures forall id :: id in next.deliveries && !Terminal(next.deliveries[id].phase) ==> id in t.deliveries
    ensures t.channels == next.channels && t.routes == next.routes && t.revision == next.revision
  {
    hide AlertsTrimmed;
  }

  lemma OrderHolds(s: State, s0: State, order: seq<AlertId>)
    requires M.IsOrder(s0, order) && ActiveIds(s0) == ActiveIds(s)
    ensures M.IsOrder(s, order)
  {
  }

  lemma PickIsThere(s: State, now: int, t: State, verdicts: map<DeliveryId, Verdict>, pick: Option<DeliveryId>)
    requires IsScreen(s, now, t, verdicts) && IsPick(s, verdicts, pick)
    ensures pick.Some? ==> pick.value in t.deliveries
  {
    hide Judged;
  }

  /** One route: its fields, then its channels one by one, then its selectors one by one. */
  method CheckRoute(r: Route, channels: map<ChannelId, Channel>) returns (ok: bool)
    ensures ok == M.RouteValid(r, channels)
  {
    hide M.FieldsValid, M.ValidId;
    if !M.FieldsValid(r) { return false; }
    for j := 0 to |r.channels|
      invariant forall k :: 0 <= k < j ==> r.channels[k] in channels
    {
      if r.channels[j] !in channels { return false; }
    }
    var selectors := r.rules + r.nodes;
    for j := 0 to |selectors|
      invariant forall k :: 0 <= k < j ==> M.ValidId(selectors[k])
    {
      if !M.ValidId(selectors[j]) { return false; }
    }
    ok := true;
  }

  ghost function IdsOf(routes: seq<Route>): set<string> { set k | 0 <= k < |routes| :: routes[k].id }

  /** Routes are valid together exactly when the front is, and the last one is valid and brings a new id. */
  lemma RoutesSnoc(s: State, routes: seq<Route>, r: Route)
    ensures M.RoutesValid(s, routes + [r])
            <==> |routes| < 100 && M.RoutesValid(s, routes) && M.RouteValid(r, s.channels) && r.id !in IdsOf(routes)
    ensures IdsOf(routes + [r]) == IdsOf(routes) + {r.id}
  {
    hide M.RouteValid;
    var all := routes + [r];
    assert all[..|routes|] == routes && all[|routes|] == r;
    if r.id in IdsOf(routes) {
      var k :| 0 <= k < |routes| && routes[k].id == r.id;
      assert all[k].id == all[|routes|].id;
    }
    assert forall k :: 0 <= k < |routes| ==> all[k] == routes[k];
  }

  lemma RoutesFront(s: State, routes: seq<Route>, i: nat)
    requires i <= |routes| && M.RoutesValid(s, routes)
    ensures M.RoutesValid(s, routes[..i])
  {
    hide M.RouteValid;
  }

  /** The routes with their ids filled in; no id may come twice. */
  method CheckRoutes(s: State, routes: seq<Route>, uuids: seq<string>) returns (ok: bool, named: seq<Route>)
    requires |routes| <= 100 && |uuids| == |routes|
    ensures ok == M.RoutesValid(s, M.IdentifyAll(routes, uuids))
    ensures ok ==> named == M.IdentifyAll(routes, uuids)
  {
    hide M.RouteValid;
    ghost var all := M.IdentifyAll(routes, uuids);
    var ids: set<string> := {};
    named := [];
    for i := 0 to |routes|
      invariant named == all[..i] && M.RoutesValid(s, named) && ids == IdsOf(named)
    {
      var r := M.Identified(routes[i], uuids[i]);
      assert all[..i + 1] == named + [r];
      RoutesSnoc(s, named, r);
      hide M.RoutesValid, IdsOf;
      if M.RoutesValid(s, all) { RoutesFront(s, all, i + 1); }
      if r.id in ids { return false, named; }
      var good := CheckRoute(r, s.channels);
      if !good { return false, named; }
      ids := ids + {r.id};
      named := named + [r];
    }
    ok := true;
  }
}
