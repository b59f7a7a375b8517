/**
 Where a change is announced. A new, worsened, eased or resolved alert, or an event, puts one pending notice on
 each enabled channel of each route that takes it, and on no other; anything else queues nothing.
 */
module AlertRouting {
  import opened Basics
  import opened AlertState
  import opened AlertQueue
  import opened AlertMachine
  import AlertSafety

  /** What a route takes, by the names of the severities. */
  lemma MatchesMeans(r: Route, a: Alert)
    ensures Matches(r, a) <==>
            && r.enabled
            && (r.minSeverity == "info" ==> a.severity == "info" || a.severity == "warning" || a.severity == "critical")
            && (r.minSeverity == "warning" ==> a.severity == "warning" || a.severity == "critical")
            && (r.minSeverity == "critical" ==> a.severity == "critical")
            && (r.rules == [] || a.rule in r.rules) && (r.nodes == [] || a.node in r.nodes)
            && (a.status == Active || a.event || r.sendResolved)
  {
    assert |"info"| == 4 && |"warning"| == 7 && |"critical"| == 8;
  }

  /** A route that takes an alert takes every graver one of the same rule and node. */
  lemma GraverIsTakenToo(r: Route, a: Alert, b: Alert)
    requires Matches(r, a) && b == a.(severity := b.severity)
    requires b.severity == "critical" || (b.severity == "warning" && a.severity != "critical")
    ensures Matches(r, b)
  {
    MatchesMeans(r, a);
    MatchesMeans(r, b);
  }

  // ---------------------------------------------------------------- one transition

  /** The notice about this transition on this channel. */
  function NoticeOf(alert: AlertId, a: Alert, ch: ChannelId): DeliveryId { Notice(alert, ch, a.transition, 0) }

  function NewNotice(s: State, a: Alert, now: int, end: Option<int>, ch: ChannelId): Delivery
    requires ch in s.channels
  {
    Delivery(Pending, 0, if end.Some? then end.value else now, now, ch, s.channels[ch].generation, a.status, end.Some?)
  }

  /** Nothing was queued about this transition yet. */
  ghost predicate Unannounced(s: State, alert: AlertId, a: Alert) {
    forall ch: ChannelId :: NoticeOf(alert, a, ch) !in s.deliveries
                            && ((alert, ch) in s.dispatch ==> s.dispatch[(alert, ch)].transition != a.transition)
  }

  /** `t` is `s` with exactly one notice about the transition on each channel of `C`. */
  ghost predicate Announced(s: State, t: State, alert: AlertId, a: Alert, now: int, end: Option<int>,
                            C: set<ChannelId>) {
    && t.channels == s.channels && C <= s.channels.Keys
    && (forall ch :: ch in C <==> NoticeOf(alert, a, ch) in t.deliveries)
    && (forall ch :: ch in C <==> (alert, ch) in t.dispatch && t.dispatch[(alert, ch)].transition == a.transition)
    && (forall ch :: ch in C ==> t.deliveries[NoticeOf(alert, a, ch)] == NewNotice(s, a, now, end, ch))
    && (forall id :: id in s.deliveries ==> id in t.deliveries && t.deliveries[id] == s.deliveries[id])
    && (forall id :: id in t.deliveries ==> id in s.deliveries || (id.Notice? && id == NoticeOf(alert, a, id.channel)))
  }

  lemma NothingAnnounced(s: State, alert: AlertId, a: Alert, now: int, end: Option<int>)
    requires Unannounced(s, alert, a)
    ensures Announced(s, s, alert, a, now, end, {})
  {
  }

  lemma OneAnnounced(s: State, t: State, alert: AlertId, a: Alert, now: int, end: Option<int>, C: set<ChannelId>,
                     r: Route, ch: ChannelId)
    requires Announced(s, t, alert, a, now, end, C)
    ensures var enabled := ch in s.channels && s.channels[ch].enabled;
            Announced(s, QueueOne(t, alert, a, now, 0, r, ch, end), alert, a, now, end, if enabled then C + {ch} else C)
  {
    QueuesOnce(s, t, alert, a, now, end, C, r, ch);
    hide Queues;
    if Queues(t, alert, a, now, 0, r, ch) {
      Announce(s, t, alert, a, now, end, C, ch);
    } else if ch in s.channels && s.channels[ch].enabled {
      assert C + {ch} == C;
    }
  }

  lemma QueuesOnce(s: State, t: State, alert: AlertId, a: Alert, now: int, end: Option<int>, C: set<ChannelId>,
                   r: Route, ch: ChannelId)
    requires Announced(s, t, alert, a, now, end, C)
    ensures Queues(t, alert, a, now, 0, r, ch) <==> ch in s.channels && s.channels[ch].enabled && ch !in C
  {
    assert NoticeOf(alert, a, ch) == Notice(alert, ch, a.transition, 0);
  }

  lemma Announce(s: State, t: State, alert: AlertId, a: Alert, now: int, end: Option<int>, C: set<ChannelId>,
                 ch: ChannelId)
    requires Announced(s, t, alert, a, now, end, C) && ch in s.channels && ch !in C
    ensures Announced(s, t.(dispatch := t.dispatch[(alert, ch) := Mark(a.transition, now)],
                            deliveries := t.deliveries[NoticeOf(alert, a, ch) := NewNotice(s, a, now, end, ch)],
                            queued := t.queued + [Entry(alert, ch, a.transition, 0, now)]),
                      alert, a, now, end, C + {ch})
  {
    assert forall c: ChannelId :: c != ch ==> NoticeOf(alert, a, c) != NoticeOf(alert, a, ch);
  }

  ghost function Enabled(s: State, chs: seq<ChannelId>): set<ChannelId> {
    set ch | ch in chs && ch in s.channels && s.channels[ch].enabled
  }

  lemma {:induction false} ChannelsAnnounced(s: State, t: State, alert: AlertId, a: Alert, now: int, end: Option<int>,
                                             C: set<ChannelId>, r: Route, chs: seq<ChannelId>)
    requires Announced(s, t, alert, a, now, end, C)
    ensures Announced(s, QueueChannels(t, alert, a, now, 0, r, chs, end), alert, a, now, end, C + Enabled(s, chs))
  {
    hide Announced, QueueOne;
    if chs == [] {
      assert C + Enabled(s, chs) == C;
    } else {
      var front, ch := chs[..|chs| - 1], chs[|chs| - 1];
      ChannelsAnnounced(s, t, alert, a, now, end, C, r, front);
      OneAnnounced(s, QueueChannels(t, alert, a, now, 0, r, front, end), alert, a, now, end, C + Enabled(s, front), r,
                   ch);
      assert chs == front + [ch];
      assert C + Enabled(s, chs) ==
             if ch in s.channels && s.channels[ch].enabled then C + Enabled(s, front) + {ch} else C + Enabled(s, front);
    }
  }

  /** The enabled channels of the routes that take the alert. */
  ghost function Addressed(s: State, routes: seq<Route>, a: Alert): set<ChannelId> {
    set ch | ch in s.channels && s.channels[ch].enabled && exists r :: r in routes && Matches(r, a) && ch in r.channels
  }

  lemma AddressedSnoc(s: State, front: seq<Route>, r: Route, a: Alert)
    ensures Addressed(s, front + [r], a) ==
            if Matches(r, a) then Addressed(s, front, a) + Enabled(s, r.channels) else Addressed(s, front, a)
  {
    hide Matches;
    var routes := front + [r];
    assert r in routes && forall q :: q in routes <==> q in front || q == r;
    forall ch | ch in Addressed(s, front, a) ensures ch in Addressed(s, routes, a) {
      var q :| q in front && Matches(q, a) && ch in q.channels;
      assert q in routes;
    }
  }

  lemma {:induction false} RoutesAnnounced(s: State, alert: AlertId, a: Alert, now: int, routes: seq<Route>,
                                           end: Option<int>)
    requires Unannounced(s, alert, a)
    ensures Announced(s, QueueRoutes(s, alert, a, now, 0, routes, end), alert, a, now, end, Addressed(s, routes, a))
  {
    hide Announced, QueueChannels, Matches, Unannounced, Addressed;
    if routes == [] {
      NothingAnnounced(s, alert, a, now, end);
      assert Addressed(s, [], a) == {} by { AddressedNone(s, a); }
    } else {
      var front, r := routes[..|routes| - 1], routes[|routes| - 1];
      RoutesAnnounced(s, alert, a, now, front, end);
      AddressedSnoc(s, front, r, a);
      assert routes == front + [r];
      if Matches(r, a) {
        ChannelsAnnounced(s, QueueRoutes(s, alert, a, now, 0, front, end), alert, a, now, end, Addressed(s, front, a),
                          r,
                          r.channels);
      }
    }
  }

  lemma AddressedNone(s: State, a: Alert)
    ensures Addressed(s, [], a) == {}
  {
  }

  /**
   A transition nobody was told of yet goes, as one pending notice, to every enabled channel of every enabled
   route whose lowest severity it reaches and whose rules and nodes are none or contain its own, a resolution
   only on routes that ask for it; to no other channel, and nothing else changes. A silenced one waits until
   the silence ends.
   */
  lemma AnnouncedExactly(s: State, alert: AlertId, a: Alert, now: int, routes: seq<Route>, end: Option<int>)
    requires Unannounced(s, alert, a)
    ensures var t := QueueRoutes(s, alert, a, now, 0, routes, end);
            && (forall id :: id in t.deliveries <==>
                  id in s.deliveries
                  || (&& id.Notice? && id.alert == alert && id.transition == a.transition && id.slot == 0
                      && id.channel in s.channels && s.channels[id.channel].enabled
                      && exists r :: && r in routes && r.enabled && id.channel in r.channels
                                     && (r.minSeverity == "info" ==>
                                           a.severity == "info" || a.severity == "warning" || a.severity == "critical")
                                     && (r.minSeverity == "warning" ==>
                                         a.severity == "warning" || a.severity == "critical")
                                     && (r.minSeverity == "critical" ==> a.severity == "critical")
                                     && (r.rules == [] || a.rule in r.rules) && (r.nodes == [] || a.node in r.nodes)
                                     && (a.status == Active || a.event || r.sendResolved)))
            && (forall id :: id in s.deliveries ==> t.deliveries[id] == s.deliveries[id])
            && (forall id :: id in t.deliveries && id !in s.deliveries ==>
                  t.deliveries[id] == Delivery(Pending, 0, if end.Some? then end.value else now, now, id.channel,
                                               s.channels[id.channel].generation, a.status, end.Some?))
  {
    var t := QueueRoutes(s, alert, a, now, 0, routes, end);
    RoutesAnnounced(s, alert, a, now, routes, end);
    forall r | r in routes
      ensures Matches(r, a) <==>
              && r.enabled
              && (r.minSeverity == "info" ==>
                  a.severity == "info" || a.severity == "warning" || a.severity == "critical")
              && (r.minSeverity == "warning" ==> a.severity == "warning" || a.severity == "critical")
              && (r.minSeverity == "critical" ==> a.severity == "critical")
              && (r.rules == [] || a.rule in r.rules) && (r.nodes == [] || a.node in r.nodes)
              && (a.status == Active || a.event || r.sendResolved)
    {
      MatchesMeans(r, a);
    }
    hide Matches, QueueRoutes, Unannounced;
    assert forall id: DeliveryId :: id.Notice? && id == NoticeOf(alert, a, id.channel) <==>
                        id.Notice? && id.alert == alert && id.transition == a.transition && id.slot == 0;
  }

  // ---------------------------------------------------------------- what an observation announces

  /** The alert an observation found. */
  function Found(s: State, x: Seen): Option<Alert> {
    if x.cur.Some? && x.cur.value in s.alerts then Some(s.alerts[x.cur.value]) else None
  }

  /** The alert changed to `a`, and exactly the routes that take it are told. */
  ghost predicate Tells(s: State, t: State, id: AlertId, a: Alert, now: int, ends: Alert -> Option<int>) {
    && t.alerts == s.alerts[id := a] && t.routes == s.routes && t.silences == s.silences
    && Announced(s, t, id, a, now, ends(a), Addressed(s, s.routes, a))
  }

  lemma NewIdIsUnannounced(s: State, id: AlertId, a: Alert, used: set<nat>, log: seq<Event>)
    requires AlertSafety.StateOk(s, used, log) && id !in used
    ensures Unannounced(s, id, a)
  {
    hide EntriesOk, MarksOk, AlertSafety.DeliveriesOk, AlertSafety.SentKnown;
  }

  lemma NextTransitionIsUnannounced(s: State, id: AlertId, a: Alert, used: set<nat>, log: seq<Event>)
    requires AlertSafety.StateOk(s, used, log) && id in s.alerts && a.transition > s.alerts[id].transition
    ensures Unannounced(s, id, a)
  {
    hide EntriesOk, AlertSafety.DeliveriesOk, AlertSafety.SentKnown, AlertSafety.UsedOk;
    assert forall i :: 0 <= i < |s.queued| && s.queued[i].alert == id ==> Remembered(s.queued[i], s.dispatch);
  }

  lemma TransitionTells(s: State, id: AlertId, a: Alert, now: int, ends: Alert -> Option<int>)
    requires Unannounced(s, id, a)
    ensures var s1 := s.(alerts := s.alerts[id := a]);
            Tells(s, QueueRoutes(s1, id, a, now, 0, s.routes, ends(a)), id, a, now, ends)
  {
    var s1 := s.(alerts := s.alerts[id := a]);
    assert Unannounced(s1, id, a);
    RoutesAnnounced(s1, id, a, now, s.routes, ends(a));
    QueueingKeeps(s1, id, a, now, s.routes, ends(a));
    assert Addressed(s1, s.routes, a) == Addressed(s, s.routes, a);
    hide QueueRoutes, Unannounced, Addressed;
  }

  lemma {:induction false} QueueingKeeps(s: State, id: AlertId, a: Alert, now: int, routes: seq<Route>,
                                         end: Option<int>)
    ensures var t := QueueRoutes(s, id, a, now, 0, routes, end);
            t.alerts == s.alerts && t.routes == s.routes && t.silences == s.silences
  {
    hide Matches;
    if routes != [] {
      var front, r := routes[..|routes| - 1], routes[|routes| - 1];
      QueueingKeeps(s, id, a, now, front, end);
      ChannelsKeep(QueueRoutes(s, id, a, now, 0, front, end), id, a, now, r, r.channels, end);
    }
  }

  lemma {:induction false} ChannelsKeep(s: State, id: AlertId, a: Alert, now: int, r: Route, chs: seq<ChannelId>,
                                        end: Option<int>)
    ensures var t := QueueChannels(s, id, a, now, 0, r, chs, end);
            t.alerts == s.alerts && t.routes == s.routes && t.silences == s.silences
  {
    hide Queues;
    if chs != [] { ChannelsKeep(s, id, a, now, r, chs[..|chs| - 1], end); }
  }

  /**
   What one observation does, case by case: a condition that sets in makes a new alert; one that clears
   resolves it; one that gets graver or milder is a new transition; an event never seen before is an alert
   resolved at once. Each of these is announced. What is only confirmed, unknown, or cleared already is not.
   */
  lemma ObservedExactly(s: State, x: Seen, now: int, ends: Alert -> Option<int>, used: set<nat>, log: seq<Event>)
    requires AlertSafety.StateOk(s, used, log) && x.newId !in used && IsCurrent(s.alerts, x.o, x.cur)
    ensures var o, t, found := x.o, ObserveOne(s, x, now, ends), Found(s, x);
            var isActive := found.Some? && found.value.status == Active;
            && (o.known && !o.event && o.active && !isActive ==>
                  Tells(s, t, x.newId, Alert(o.rule, o.resource, o.node, o.component, o.severity, Active, false, false,
                                             now, now, 1), now, ends))
            && (o.known && o.event && found.None? ==>
                  Tells(s, t, x.newId, Alert(o.rule, o.resource, o.node, o.component, o.severity, Resolved, false, true,
                                             now, now, 1), now, ends))
            && (o.known && !o.event && !o.active && isActive ==>
                  Tells(s, t, x.cur.value, found.value.(status := Resolved, stale := false, lastChanged := now,
                                                        transition := found.value.transition + 1), now, ends))
            && (o.known && !o.event && o.active && isActive && found.value.severity != o.severity ==>
                  Tells(s, t, x.cur.value,
                        found.value.(node := o.node, component := o.component, severity := o.severity,
                                                        stale := false, lastChanged := now,
                                                        transition := found.value.transition + 1), now, ends))
            && (o.known && !o.event && o.active && isActive && found.value.severity == o.severity ==>
                  t == s.(alerts := s.alerts[x.cur.value := found.value.(node := o.node, component := o.component,
                                                                         stale := false)]))
            && (!o.known && isActive ==> t == s.(alerts := s.alerts[x.cur.value := found.value.(stale := true)]))
            && (!o.known && !isActive ==> t == s)
            && (o.known && o.event && found.Some? ==> t == s)
            && (o.known && !o.event && !o.active && !isActive ==> t == s)
  {
    hide AlertSafety.StateOk, QueueRoutes, Tells, Unannounced, IsCurrent;
    var found := Found(s, x);
    var r := Changed(found, x.o, now);
    if r.Some? && r.value.1 {
      var a := r.value.0;
      assert x.cur.Some? ==> x.cur.value in s.alerts by { CurrentIsThere(s, x); }
      if Renews(found, x.o) {
        NewIdIsUnannounced(s, x.newId, a, used, log);
        TransitionTells(s, x.newId, a, now, ends);
      } else {
        NextTransitionIsUnannounced(s, x.cur.value, a, used, log);
        TransitionTells(s, x.cur.value, a, now, ends);
      }
    } else {
      assert x.cur.Some? ==> x.cur.value in s.alerts by { CurrentIsThere(s, x); }
    }
  }

  lemma CurrentIsThere(s: State, x: Seen)
    requires IsCurrent(s.alerts, x.o, x.cur)
    ensures x.cur.Some? ==> x.cur.value in s.alerts
  {
  }

  /** Each observation of each report, over every run. */
  lemma EveryObservation(steps: seq<Step>, xs: seq<Seen>, now: int, ends: Alert -> Option<int>, i: nat)
    requires var w := Run(steps); w.center.Some? && SeenOk(w.center.value.state, xs, now, ends, w.used) && i < |xs|
    ensures var s0 := ObserveAll(Run(steps).center.value.state, xs[..i], now, ends);
            && ObserveAll(Run(steps).center.value.state, xs[..i + 1], now, ends) == ObserveOne(s0, xs[i], now, ends)
            && exists used, log :: AlertSafety.StateOk(s0, used, log) && xs[i].newId !in used
                                   && IsCurrent(s0.alerts, xs[i].o, xs[i].cur)
  {
    AlertSafety.RunKeeps(steps);
    var w := Run(steps);
    var s := w.center.value.state;
    AlertSafety.CenterFacts(w);
    hide AlertSafety.Inv, AlertSafety.StateOk, ObserveOne, Run;
    var front := xs[..i];
    assert xs[..i + 1][..i] == front;
    FrontIsSeen(s, xs, now, ends, w.used, i);
    AlertSafety.ObserveAllOk(s, front, now, ends, w.used, w.log);
    assert xs[i].newId !in w.used + AlertSafety.NewIds(front);
  }

  lemma FrontIsSeen(s: State, xs: seq<Seen>, now: int, ends: Alert -> Option<int>, used: set<nat>, i: nat)
    requires SeenOk(s, xs, now, ends, used) && i <= |xs|
    ensures SeenOk(s, xs[..i], now, ends, used)
  {
    hide ObserveAll, IsCurrent;
    assert forall k :: 0 <= k <= i ==> xs[..i][..k] == xs[..k];
  }

  // ---------------------------------------------------------------- reminders

  /** No undecided delivery of this alert waits for the channel. */
  ghost predicate Quiet(s: State, alert: AlertId, ch: ChannelId) {
    forall id :: id in s.deliveries && id.Notice? && id.alert == alert && id.channel == ch ==>
                   s.deliveries[id].phase == Sent || s.deliveries[id].phase == Suppressed
  }

  /** The route reminds of the alert on this channel now. */
  ghost predicate Reminds(s: State, r: Route, alert: AlertId, a: Alert, now: int, ch: ChannelId) {
    && Matches(r, a) && r.repeatMinutes > 0 && now - a.lastChanged >= r.repeatMinutes * 60_000_000_000
    && ch in r.channels && ch in s.channels && s.channels[ch].enabled && Quiet(s, alert, ch)
    && ((alert, ch) in s.dispatch && s.dispatch[(alert, ch)].transition == a.transition ==>
          now - s.dispatch[(alert, ch)].lastQueuedAt >= r.repeatMinutes * 60_000_000_000)
  }

  /** `t` is `s` with one reminder on each channel of `C`. */
  ghost predicate Reminded(s: State, t: State, alert: AlertId, a: Alert, now: int, end: Option<int>,
                           C: set<ChannelId>) {
    && t.channels == s.channels && C <= s.channels.Keys
    && (forall ch :: ch in C <==> Notice(alert, ch, a.transition, now) in t.deliveries)
    && (forall ch :: ch in C ==> t.deliveries[Notice(alert, ch, a.transition, now)] == NewNotice(s, a, now, end, ch))
    && (forall id :: id in s.deliveries ==> id in t.deliveries && t.deliveries[id] == s.deliveries[id])
    && (forall id :: id in t.deliveries ==>
          id in s.deliveries || (id.Notice? && id == Notice(alert, id.channel, a.transition, now)))
    && (forall ch: ChannelId :: ch !in C && (alert, ch) in t.dispatch ==>
          (alert, ch) in s.dispatch && t.dispatch[(alert, ch)] == s.dispatch[(alert, ch)])
    && (forall ch: ChannelId :: ch !in C && (alert, ch) in s.dispatch ==> (alert, ch) in t.dispatch)
  }

  lemma QueuesReminder(s: State, t: State, alert: AlertId, a: Alert, now: int, end: Option<int>, C: set<ChannelId>,
                       r: Route, ch: ChannelId)
    requires Reminded(s, t, alert, a, now, end, C) && now != 0 && ch in r.channels
    requires Matches(r, a) && r.repeatMinutes > 0 && now - a.lastChanged >= r.repeatMinutes * MINUTE
    ensures Queues(t, alert, a, now, now, r, ch) <==> Reminds(s, r, alert, a, now, ch) && ch !in C
  {
    hide Matches;
    if ch in C {
      var id := Notice(alert, ch, a.transition, now);
      assert id in t.deliveries && t.deliveries[id].phase.Pending?;
      assert Blocked(t, alert, ch);
    } else {
      assert Blocked(t, alert, ch) <==> !Quiet(s, alert, ch) by {
        if !Quiet(s, alert, ch) {
          var id :| id in s.deliveries && id.Notice? && id.alert == alert && id.channel == ch
            && !(s.deliveries[id].phase == Sent || s.deliveries[id].phase == Suppressed);
          assert id in t.deliveries && t.deliveries[id] == s.deliveries[id];
        }
      }
    }
  }

  lemma Remind(s: State, t: State, alert: AlertId, a: Alert, now: int, end: Option<int>, C: set<ChannelId>,
               ch: ChannelId)
    requires Reminded(s, t, alert, a, now, end, C) && ch in s.channels && ch !in C
    ensures Reminded(s, t.(dispatch := t.dispatch[(alert, ch) := Mark(a.transition, now)],
                           deliveries :=
                             t.deliveries[Notice(alert, ch, a.transition, now) := NewNotice(s, a, now, end, ch)],
                           queued := t.queued + [Entry(alert, ch, a.transition, now, now)]),
                     alert, a, now, end, C + {ch})
  {
  }

  /** The channels of `chs` on which `r` reminds. */
  ghost function DueOn(s: State, r: Route, alert: AlertId, a: Alert, now: int, chs: seq<ChannelId>): set<ChannelId> {
    set ch | ch in chs && Reminds(s, r, alert, a, now, ch)
  }

  lemma {:induction false} ChannelsReminded(s: State, t: State, alert: AlertId, a: Alert, now: int, end: Option<int>,
                                            C: set<ChannelId>, r: Route, chs: seq<ChannelId>)
    requires Reminded(s, t, alert, a, now, end, C) && now != 0 && forall ch :: ch in chs ==> ch in r.channels
    requires Matches(r, a) && r.repeatMinutes > 0 && now - a.lastChanged >= r.repeatMinutes * MINUTE
    ensures Reminded(s, QueueChannels(t, alert, a, now, now, r, chs, end), alert, a, now, end,
                     C + DueOn(s, r, alert, a, now, chs))
  {
    hide Reminded, Queues, Reminds, Matches;
    if chs == [] {
      assert C + DueOn(s, r, alert, a, now, chs) == C;
    } else {
      var front, ch := chs[..|chs| - 1], chs[|chs| - 1];
      ChannelsReminded(s, t, alert, a, now, end, C, r, front);
      var m, D := QueueChannels(t, alert, a, now, now, r, front, end), C + DueOn(s, r, alert, a, now, front);
      assert chs == front + [ch];
      QueuesReminder(s, m, alert, a, now, end, D, r, ch);
      if Queues(m, alert, a, now, now, r, ch) {
        assert ch in s.channels && m.channels == s.channels by { RemindsEnabled(s, m, r, alert, a, now, end, D, ch); }
        Remind(s, m, alert, a, now, end, D, ch);
        assert C + DueOn(s, r, alert, a, now, chs) == D + {ch};
      } else {
        assert C + DueOn(s, r, alert, a, now, chs) == D;
      }
    }
  }

  lemma RemindsEnabled(s: State, t: State, r: Route, alert: AlertId, a: Alert, now: int, end: Option<int>,
                       C: set<ChannelId>, ch: ChannelId)
    requires Reminds(s, r, alert, a, now, ch) && Reminded(s, t, alert, a, now, end, C)
    ensures ch in s.channels && t.channels == s.channels
  {
  }

  /**
   Reminders go exactly to the channels on which some route is due: the alert has been as it is, and the
   channel without a new notice about it, for the route's interval, and nothing about it is undecided there.
   */
  lemma {:induction false} RemindedExactly(s: State, alert: AlertId, a: Alert, now: int, routes: seq<Route>,
                                           end: Option<int>)
    requires now != 0 && forall ch: ChannelId :: Notice(alert, ch, a.transition, now) !in s.deliveries
    ensures var t := QueueReminders(s, alert, a, now, routes, end);
            exists C :: Reminded(s, t, alert, a, now, end, C)
                        && forall ch: ChannelId :: ch in C <==>
                           exists r :: r in routes && Reminds(s, r, alert, a, now, ch)
  {
    var C := RemindedOn(s, alert, a, now, routes, end);
  }

  lemma {:induction false} RemindedOn(s: State, alert: AlertId, a: Alert, now: int, routes: seq<Route>,
                                      end: Option<int>)
    returns (C: set<ChannelId>)
    requires now != 0 && forall ch: ChannelId :: Notice(alert, ch, a.transition, now) !in s.deliveries
    ensures Reminded(s, QueueReminders(s, alert, a, now, routes, end), alert, a, now, end, C)
    ensures forall ch: ChannelId :: ch in C <==> exists r :: r in routes && Reminds(s, r, alert, a, now, ch)
  {
    C := {};
    if routes != [] {
      var front, r := routes[..|routes| - 1], routes[|routes| - 1];
      C := RemindedOn(s, alert, a, now, front, end);
      var m := QueueReminders(s, alert, a, now, front, end);
      var D := if r.repeatMinutes > 0 && Matches(r, a) && now - a.lastChanged >= r.repeatMinutes * MINUTE
               then DueOn(s, r, alert, a, now, r.channels) else {};
      OneRoute(m, alert, a, now, r, end);
      assert routes == front + [r];
      hide Reminded, QueueChannels, QueueRoutes, Matches;
      if r.repeatMinutes > 0 && Matches(r, a) && now - a.lastChanged >= r.repeatMinutes * MINUTE {
        ChannelsReminded(s, m, alert, a, now, end, C, r, r.channels);
      }
      forall ch: ChannelId ensures ch in C + D <==> exists q :: q in routes && Reminds(s, q, alert, a, now, ch) {
        if ch in D { assert r in routes && Reminds(s, r, alert, a, now, ch); }
        if ch in C {
          var q :| q in front && Reminds(s, q, alert, a, now, ch);
          assert q in routes;
        }
        assert Reminds(s, r, alert, a, now, ch) ==> ch in D;
      }
      assert C + {} == C;
      C := C + D;
    }
  }

  lemma OneRoute(s: State, alert: AlertId, a: Alert, now: int, r: Route, end: Option<int>)
    ensures r.repeatMinutes > 0 && Matches(r, a) ==>
              QueueRoutes(s, alert, a, now, now, [r], end) == QueueChannels(s, alert, a, now, now, r, r.channels, end)
  {
    hide Matches, QueueChannels;
    assert [r][..0] == [];
    assert QueueRoutes(s, alert, a, now, now, [], end) == s;
  }
}
