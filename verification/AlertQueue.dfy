/** Queueing: at most one notification per alert, transition and channel, and reminders five minutes apart. */
module AlertQueue {
  import opened Basics
  import opened AlertState

  ghost predicate SameTriple(p: Entry, q: Entry) {
    p.alert == q.alert && p.channel == q.channel && p.transition == q.transition
  }

  /** After the first notification of a triple there are only reminders, each five minutes or more after all before. */
  ghost predicate EntriesOk(q: seq<Entry>) {
    && (forall i, j :: 0 <= i < j < |q| && SameTriple(q[i], q[j]) ==> q[j].slot != 0 && q[j].at - q[i].at >= 5 * MINUTE)
    && (forall i :: 0 <= i < |q| ==> q[i].slot == 0 || q[i].slot == q[i].at)
  }

  ghost predicate IsQueued(q: seq<Entry>, id: DeliveryId) { exists i :: 0 <= i < |q| && IdOf(q[i]) == id }

  /** While its alert is retained, an entry is remembered by the mark of its alert and channel. */
  ghost predicate Remembered(e: Entry, dispatch: map<(AlertId, ChannelId), Mark>) {
    && (e.alert, e.channel) in dispatch
    && var m := dispatch[(e.alert, e.channel)];
       m.transition > e.transition || (m.transition == e.transition && e.at <= m.lastQueuedAt)
  }

  ghost predicate MarksOk(alerts: map<AlertId, Alert>, dispatch: map<(AlertId, ChannelId), Mark>, q: seq<Entry>) {
    && (forall k :: k in dispatch && k.0 in alerts ==> dispatch[k].transition <= alerts[k.0].transition)
    && (forall i :: 0 <= i < |q| && q[i].alert in alerts ==> Remembered(q[i], dispatch))
  }

  predicate RepeatOk(r: Route) { r.repeatMinutes == 0 || 5 <= r.repeatMinutes <= 10080 }

  ghost predicate RoutesOk(routes: seq<Route>) { forall i :: 0 <= i < |routes| ==> RepeatOk(routes[i]) }

  ghost predicate AllQueued(deliveries: map<DeliveryId, Delivery>, q: seq<Entry>) {
    forall id :: id in deliveries && id.Notice? ==> IsQueued(q, id)
  }

  ghost predicate QueueInv(s: State) {
    && EntriesOk(s.queued) && MarksOk(s.alerts, s.dispatch, s.queued) && AllQueued(s.deliveries, s.queued)
    && RoutesOk(s.routes)
  }

  /** A delivery that appeared by queueing between two states. */
  ghost predicate IsNew(s: State, t: State, id: DeliveryId) {
    && id.Notice? && id !in s.deliveries && !IsQueued(s.queued, id) && IsQueued(t.queued, id)
    && id in t.deliveries && t.deliveries[id].phase.Pending? && t.deliveries[id].attempts == 0
  }

  /** `t` is `s` with notifications queued. */
  ghost predicate Grown(s: State, t: State) {
    && t == s.(dispatch := t.dispatch, deliveries := t.deliveries, queued := t.queued)
    && s.queued <= t.queued
    && (forall id :: id in s.deliveries ==> id in t.deliveries && t.deliveries[id] == s.deliveries[id])
    && (forall id :: id in t.deliveries ==> id in s.deliveries || IsNew(s, t, id))
    && (forall k :: k in t.dispatch ==> k in s.dispatch || k.0 in s.alerts)
    && (forall i :: |s.queued| <= i < |t.queued| ==> t.queued[i].alert in s.alerts)
  }

  lemma QueuedPrefix(q: seq<Entry>, r: seq<Entry>, id: DeliveryId)
    requires q <= r && IsQueued(q, id)
    ensures IsQueued(r, id)
  {
    var i :| 0 <= i < |q| && IdOf(q[i]) == id;
    assert r[i] == q[i];
  }

  lemma GrownRefl(s: State)
    ensures Grown(s, s)
  {
  }

  lemma GrownTransitive(s: State, t: State, u: State)
    requires Grown(s, t) && Grown(t, u)
    ensures Grown(s, u)
  {
    hide IsQueued;
    forall id | id in u.deliveries && id !in s.deliveries ensures IsNew(s, u, id) {
      if id in t.deliveries {
        QueuedPrefix(t.queued, u.queued, id);
      } else if IsQueued(s.queued, id) {
        QueuedPrefix(s.queued, t.queued, id);
      }
    }
    forall i | |s.queued| <= i < |u.queued| ensures u.queued[i].alert in s.alerts {
      if i < |t.queued| { assert u.queued[i] == t.queued[i]; }
    }
  }

  // ---------------------------------------------------------------- one notification

  /** What is queued was never queued before. */
  lemma NeverBefore(s: State, alert: AlertId, a: Alert, now: int, slot: int, r: Route, ch: ChannelId)
    requires QueueInv(s) && alert in s.alerts && s.alerts[alert] == a && RepeatOk(r) && (slot == 0 || slot == now)
    requires Queues(s, alert, a, now, slot, r, ch)
    ensures !IsQueued(s.queued, Notice(alert, ch, a.transition, slot))
    ensures forall i :: 0 <= i < |s.queued| && SameTriple(s.queued[i], Entry(alert, ch, a.transition, slot, now)) ==>
                          slot != 0 && now - s.queued[i].at >= 5 * MINUTE
  {
    hide Blocked, AllQueued, RoutesOk;
    forall i | 0 <= i < |s.queued| && SameTriple(s.queued[i], Entry(alert, ch, a.transition, slot, now))
      ensures slot != 0 && now - s.queued[i].at >= 5 * MINUTE
    {
      assert Remembered(s.queued[i], s.dispatch);
    }
  }

  lemma MarksGrow(s: State, alert: AlertId, a: Alert, now: int, slot: int, ch: ChannelId)
    requires MarksOk(s.alerts, s.dispatch, s.queued) && alert in s.alerts && s.alerts[alert] == a
    requires forall i :: 0 <= i < |s.queued| && SameTriple(s.queued[i], Entry(alert, ch, a.transition, slot, now)) ==>
             s.queued[i].at <= now
    ensures MarksOk(s.alerts, s.dispatch[(alert, ch) := Mark(a.transition, now)],
                    s.queued + [Entry(alert, ch, a.transition, slot, now)])
  {
    var d1 := s.dispatch[(alert, ch) := Mark(a.transition, now)];
    forall i | 0 <= i < |s.queued| && s.queued[i].alert in s.alerts ensures Remembered(s.queued[i], d1) {
      assert Remembered(s.queued[i], s.dispatch);
    }
  }

  lemma EntriesGrow(q: seq<Entry>, e: Entry)
    requires EntriesOk(q) && (e.slot == 0 || e.slot == e.at)
    requires forall i :: 0 <= i < |q| && SameTriple(q[i], e) ==> e.slot != 0 && e.at - q[i].at >= 5 * MINUTE
    ensures EntriesOk(q + [e])
  {
    hide SameTriple;
  }

  lemma AllQueuedGrows(deliveries: map<DeliveryId, Delivery>, q: seq<Entry>, e: Entry, d: Delivery)
    requires AllQueued(deliveries, q)
    ensures AllQueued(deliveries[IdOf(e) := d], q + [e]) && IsQueued(q + [e], IdOf(e))
  {
    hide IdOf;
    var r := q + [e];
    assert r[|q|] == e;
    assert IsQueued(r, IdOf(e)) by { assert IdOf(r[|q|]) == IdOf(e); }
    forall id | id in deliveries && id.Notice? ensures IsQueued(r, id) { QueuedPrefix(q, r, id); }
  }

  lemma QueueOneKeeps(s: State, alert: AlertId, a: Alert, now: int, slot: int, r: Route, ch: ChannelId,
                      end: Option<int>)
    requires QueueInv(s) && alert in s.alerts && s.alerts[alert] == a && RepeatOk(r) && (slot == 0 || slot == now)
    ensures var t := QueueOne(s, alert, a, now, slot, r, ch, end); QueueInv(t) && Grown(s, t)
  {
    if Queues(s, alert, a, now, slot, r, ch) {
      NeverBefore(s, alert, a, now, slot, r, ch);
      var e := Entry(alert, ch, a.transition, slot, now);
      hide EntriesOk, MarksOk, AllQueued, RoutesOk, Blocked, AlreadyMarked, IsQueued;
      MarksGrow(s, alert, a, now, slot, ch);
      EntriesGrow(s.queued, e);
      AllQueuedGrows(s.deliveries, s.queued, e, QueueOne(s, alert, a, now, slot, r, ch, end).deliveries[IdOf(e)]);
    } else {
      GrownRefl(s);
    }
  }

  // ---------------------------------------------------------------- all of them

  lemma {:induction false} QueueChannelsKeeps(s: State, alert: AlertId, a: Alert, now: int, slot: int, r: Route,
                                              chs: seq<ChannelId>, end: Option<int>)
    requires QueueInv(s) && alert in s.alerts && s.alerts[alert] == a && RepeatOk(r) && (slot == 0 || slot == now)
    ensures var t := QueueChannels(s, alert, a, now, slot, r, chs, end); QueueInv(t) && Grown(s, t)
  {
    hide QueueInv, QueueOne;
    if chs == [] {
      GrownRefl(s);
    } else {
      var front := chs[..|chs| - 1];
      QueueChannelsKeeps(s, alert, a, now, slot, r, front, end);
      var m := QueueChannels(s, alert, a, now, slot, r, front, end);
      QueueOneKeeps(m, alert, a, now, slot, r, chs[|chs| - 1], end);
      GrownTransitive(s, m, QueueOne(m, alert, a, now, slot, r, chs[|chs| - 1], end));
    }
  }

  lemma {:induction false} QueueRoutesKeeps(s: State, alert: AlertId, a: Alert, now: int, slot: int, routes: seq<Route>,
                                            end: Option<int>)
    requires QueueInv(s) && alert in s.alerts && s.alerts[alert] == a && RoutesOk(routes) && (slot == 0 || slot == now)
    ensures var t := QueueRoutes(s, alert, a, now, slot, routes, end); QueueInv(t) && Grown(s, t)
  {
    hide QueueInv, QueueChannels;
    if routes == [] {
      GrownRefl(s);
    } else {
      var front, r := routes[..|routes| - 1], routes[|routes| - 1];
      QueueRoutesKeeps(s, alert, a, now, slot, front, end);
      var m := QueueRoutes(s, alert, a, now, slot, front, end);
      QueueChannelsKeeps(m, alert, a, now, slot, r, r.channels, end);
      GrownTransitive(s, m, QueueChannels(m, alert, a, now, slot, r, r.channels, end));
    }
  }

  lemma {:induction false} QueueRemindersKeeps(s: State, alert: AlertId, a: Alert, now: int, routes: seq<Route>,
                                               end: Option<int>)
    requires QueueInv(s) && alert in s.alerts && s.alerts[alert] == a && RoutesOk(routes)
    ensures var t := QueueReminders(s, alert, a, now, routes, end); QueueInv(t) && Grown(s, t)
  {
    hide QueueInv, QueueRoutes, Matches;
    if routes == [] {
      GrownRefl(s);
    } else {
      var front, r := routes[..|routes| - 1], routes[|routes| - 1];
      QueueRemindersKeeps(s, alert, a, now, front, end);
      var m := QueueReminders(s, alert, a, now, front, end);
      QueueRoutesKeeps(m, alert, a, now, now, [r], end);
      GrownTransitive(s, m, QueueRoutes(m, alert, a, now, now, [r], end));
    }
  }

  lemma {:induction false} QueueActiveKeeps(s: State, order: seq<AlertId>, now: int, ends: Alert -> Option<int>)
    requires QueueInv(s)
    ensures var t := QueueActive(s, order, now, ends); QueueInv(t) && Grown(s, t)
  {
    hide QueueRoutes, QueueReminders, EntriesOk, MarksOk, AllQueued, RoutesOk;
    if order == [] {
      GrownRefl(s);
    } else {
      var front, id := order[..|order| - 1], order[|order| - 1];
      QueueActiveKeeps(s, front, now, ends);
      var m := QueueActive(s, front, now, ends);
      if id in m.alerts && m.alerts[id].status.Active? {
        var a := m.alerts[id];
        QueueRoutesKeeps(m, id, a, now, 0, m.routes, ends(a));
        var n := QueueRoutes(m, id, a, now, 0, m.routes, ends(a));
        QueueRemindersKeeps(n, id, a, now, m.routes, ends(a));
        GrownTransitive(m, n, QueueReminders(n, id, a, now, m.routes, ends(a)));
        GrownTransitive(s, m, QueueReminders(n, id, a, now, m.routes, ends(a)));
      }
    }
  }
}
