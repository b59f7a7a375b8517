/** What every run of the alert center keeps. */
module AlertSafety {
  import opened Basics
  import opened AlertState
  import opened AlertQueue
  import opened AlertMachine

  // ---------------------------------------------------------------- the log

  /** Calls of the transport since the operator last asked for a retry. */
  function Sends(log: seq<Event>, id: DeliveryId): nat {
    if log == [] then 0
    else
      var before, e := Sends(log[..|log| - 1], id), log[|log| - 1];
      if e.id != id then before else if e.Send? then before + 1 else if e.Retry? then 0 else before
  }

  /** The last call has neither been rejected on record nor been followed by a retry. */
  predicate Out(log: seq<Event>, id: DeliveryId) {
    log != [] && var e := log[|log| - 1];
                 if e.id != id then Out(log[..|log| - 1], id) else e.Send?
  }

  lemma LogSnoc(log: seq<Event>, e: Event, id: DeliveryId)
    ensures var log1 := log + [e];
            && Sends(log1, id) ==
               (if e.id != id then Sends(log, id) else if e.Send? then Sends(log, id) + 1 else if e.Retry? then 0
                else Sends(log, id))
            && (Out(log1, id) <==> if e.id != id then Out(log, id) else e.Send?)
  {
    assert (log + [e])[..|log|] == log;
  }

  lemma {:induction false} NeverSent(log: seq<Event>, id: DeliveryId)
    requires forall k :: 0 <= k < |log| ==> log[k] != Send(id)
    ensures Sends(log, id) == 0 && !Out(log, id)
  {
    if log != [] { NeverSent(log[..|log| - 1], id); }
  }

  /** Every call was the first since the last retry or followed a recorded rejection, and was one of five at most. */
  ghost predicate SendsOk(log: seq<Event>) {
    forall k :: 0 <= k < |log| && log[k].Send? ==>
      !Out(log[..k], log[k].id) && Sends(log[..k], log[k].id) < MAX_ATTEMPTS
  }

  lemma SendsOkSnoc(log: seq<Event>, e: Event)
    requires SendsOk(log) && (e.Send? ==> !Out(log, e.id) && Sends(log, e.id) < MAX_ATTEMPTS)
    ensures SendsOk(log + [e])
  {
    var log1 := log + [e];
    forall k | 0 <= k < |log1| && log1[k].Send?
      ensures !Out(log1[..k], log1[k].id) && Sends(log1[..k], log1[k].id) < MAX_ATTEMPTS
    {
      assert k < |log| ==> log1[..k] == log[..k];
      assert k == |log| ==> log1[..k] == log;
    }
  }

  // ---------------------------------------------------------------- states

  predicate AttemptsOk(d: Delivery) {
    && d.attempts <= MAX_ATTEMPTS
    && (d.phase.Pending? ==> d.attempts == 0) && (d.phase.Retrying? ==> 1 <= d.attempts <= 4)
    && (d.phase.Sending? ==> 1 <= d.attempts) && (d.phase.Failed? ==> d.attempts == MAX_ATTEMPTS)
  }

  ghost predicate FitsLog(d: Delivery, log: seq<Event>, id: DeliveryId) {
    Sends(log, id) <= d.attempts && (Waiting(d.phase) ==> !Out(log, id))
  }

  ghost predicate DeliveriesOk(deliveries: map<DeliveryId, Delivery>, log: seq<Event>, used: set<nat>) {
    forall id :: id in deliveries ==>
      AttemptsOk(deliveries[id]) && FitsLog(deliveries[id], log, id) && (id.Test? ==> id.uuid in used)
  }

  /** Whatever was sent is remembered by every state that may come after it. */
  ghost predicate SentKnown(log: seq<Event>, q: seq<Entry>, used: set<nat>) {
    forall k :: 0 <= k < |log| && log[k].Send? ==> if log[k].id.Notice? then IsQueued(q, log[k].id)
      else log[k].id.uuid in used
  }

  ghost predicate UsedOk(alerts: map<AlertId, Alert>, dispatch: map<(AlertId, ChannelId), Mark>, q: seq<Entry>,
                         used: set<nat>) {
    && (forall id :: id in alerts ==> id in used) && (forall k :: k in dispatch ==> k.0 in used)
    && (forall i :: 0 <= i < |q| ==> q[i].alert in used)
  }

  ghost predicate StateOk(s: State, used: set<nat>, log: seq<Event>) {
    && QueueInv(s) && DeliveriesOk(s.deliveries, log, used) && SentKnown(log, s.queued, used)
    && UsedOk(s.alerts, s.dispatch, s.queued, used)
  }

  ghost predicate Tidy(s: State) {
    && Fits(s) && |ResolvedIds(s)| <= MAX_RESOLVED && forall k :: k in s.dispatch ==> k.0 in s.alerts
  }

  ghost predicate InFlightOk(inFlight: set<DeliveryId>, deliveries: map<DeliveryId, Delivery>) {
    forall id :: id in inFlight ==> id in deliveries && deliveries[id].phase.Sending?
  }

  ghost predicate Inv(w: World) {
    && SendsOk(w.log)
    && (w.disk.Some? ==> StateOk(w.disk.value, w.used, w.log))
    && (w.center.Some? ==>
          var c := w.center.value;
          StateOk(c.state, w.used, w.log) && Tidy(c.state) && InFlightOk(c.inFlight, c.state.deliveries) && w.disk.Some?
          && (c.healthy ==> w.disk.value == c.state))
    && (w.disk.None? ==> w.log == [])
  }

  // ---------------------------------------------------------------- frames

  /** More identifiers in use disturb nothing. */
  lemma UsedGrows(s: State, used: set<nat>, more: set<nat>, log: seq<Event>)
    requires StateOk(s, used, log) && used <= more
    ensures StateOk(s, more, log)
  {
    hide QueueInv, FitsLog, IsQueued;
  }

  lemma MarksTrim(s: State, t: State)
    requires MarksOk(s.alerts, s.dispatch, s.queued) && IsTrim(s, t)
    ensures MarksOk(t.alerts, t.dispatch, t.queued)
  {
    hide DeliveriesTrimmed, ResolvedIds, ActiveIds;
    forall i | 0 <= i < |t.queued| && t.queued[i].alert in t.alerts ensures Remembered(t.queued[i], t.dispatch) {
      assert Remembered(s.queued[i], s.dispatch);
    }
  }

  lemma TrimKeeps(s: State, t: State, used: set<nat>, log: seq<Event>)
    requires StateOk(s, used, log) && IsTrim(s, t)
    ensures StateOk(t, used, log)
  {
    MarksTrim(s, t);
    hide EntriesOk, MarksOk, RoutesOk, FitsLog, AttemptsOk, IsQueued, ResolvedIds, ActiveIds;
  }

  lemma TrimIsTidy(s: State, t: State)
    requires IsTrim(s, t) && Fits(t)
    ensures Tidy(t)
  {
    hide DeliveriesTrimmed;
  }

  lemma TrimKeepsFlight(s: State, t: State, inFlight: set<DeliveryId>)
    requires InFlightOk(inFlight, s.deliveries) && IsTrim(s, t)
    ensures InFlightOk(inFlight, t.deliveries)
  {
    hide AlertsTrimmed;
  }

  /** A change to a good state, saved or not, keeps the invariant. */
  lemma ChangeKeeps(w: World, next: State, t: State, wr: Write)
    requires Inv(w) && w.center.Some? && StateOk(next, w.used, w.log)
             && InFlightOk(w.center.value.inFlight, next.deliveries)
    ensures Inv(Change(w, next, t, wr))
  {
    hide StateOk, Tidy, InFlightOk, SendsOk, IsTrim, Fits;
    if IsTrim(next, t) {
      TrimKeeps(next, t, w.used, w.log);
      TrimKeepsFlight(next, t, w.center.value.inFlight);
      if Fits(t) { TrimIsTidy(next, t); }
    }
  }

  lemma MoreUsed(w: World, used: set<nat>)
    requires Inv(w) && w.used <= used
    ensures Inv(w.(used := used))
  {
    hide StateOk, Tidy, InFlightOk, SendsOk;
    if w.disk.Some? { UsedGrows(w.disk.value, w.used, used, w.log); }
    if w.center.Some? { UsedGrows(w.center.value.state, w.used, used, w.log); }
  }

  // ---------------------------------------------------------------- settings

  lemma SettingsOk(s: State, t: State, used: set<nat>, log: seq<Event>)
    requires StateOk(s, used, log) && RoutesOk(t.routes)
    requires t ==
             s.(channels := t.channels, silences := t.silences, revision := t.revision, routes := t.routes,
                migrated := t.migrated)
    ensures StateOk(t, used, log)
  {
    hide EntriesOk, MarksOk, AllQueued, DeliveriesOk, SentKnown, UsedOk;
  }

  /** Deliveries rewritten in place. */
  lemma RewriteOk(s: State, t: State, used: set<nat>, log: seq<Event>)
    requires StateOk(s, used, log)
             && t == s.(channels := t.channels, silences := t.silences, deliveries := t.deliveries)
    requires t.deliveries.Keys == s.deliveries.Keys
    requires forall id :: id in t.deliveries ==> AttemptsOk(t.deliveries[id]) && FitsLog(t.deliveries[id], log, id)
    ensures StateOk(t, used, log)
  {
    hide EntriesOk, MarksOk, SentKnown, UsedOk, AttemptsOk, FitsLog, IsQueued;
  }

  lemma SettingsKeep(w: World, s: Step)
    requires Inv(w) && (s.SSaveChannel? || s.SSaveRoutes? || s.SAddSilence? || s.SImport?)
    ensures Inv(Apply(w, s))
  {
    hide Inv;
    match s
    case SSaveChannel(channel, generation, enabled, newId, t, wr) =>
      SaveChannelKeeps(w, channel, generation, enabled, newId, t, wr);
    case SSaveRoutes(revision, routes, t, wr) => SaveRoutesKeeps(w, revision, routes, t, wr);
    case SAddSilence(k, q, now, t, wr) => AddSilenceKeeps(w, k, q, now, t, wr);
    case SImport(enabled, minSeverity, newId, routeId, configured, t, wr) =>
      ImportKeeps(w, enabled, minSeverity, newId, routeId, configured, t, wr);
  }

  lemma CenterFacts(w: World)
    requires Inv(w) && w.center.Some?
    ensures StateOk(w.center.value.state, w.used, w.log)
            && InFlightOk(w.center.value.inFlight, w.center.value.state.deliveries)
    ensures RoutesOk(w.center.value.state.routes) && DeliveriesOk(w.center.value.state.deliveries, w.log, w.used)
  {
    hide Tidy, SendsOk, EntriesOk, MarksOk, AllQueued, DeliveriesOk, SentKnown, UsedOk, RoutesOk, InFlightOk;
  }

  lemma SaveChannelKeeps(w: World, id: Option<ChannelId>, generation: nat, enabled: bool, newId: ChannelId, t: State,
                         wr: Write)
    requires Inv(w)
    ensures Inv(SaveChannel(w, id, generation, enabled, newId, t, wr))
  {
    hide Inv, StateOk, InFlightOk, Change, RoutesOk;
    if w.center.Some? {
      CenterFacts(w);
      var s := w.center.value.state;
      var c1 := if id.Some? then s.channels[id.value := Channel(enabled, generation + 1)]
        else s.channels[newId := Channel(enabled, 1)];
      SettingsOk(s, s.(channels := c1), w.used, w.log);
      ChangeKeeps(w, s.(channels := c1), t, wr);
      ChangeUsed(w, s.(channels := c1), t, wr, {newId});
    }
  }

  /** A change followed by giving out identifiers. */
  lemma ChangeUsed(w: World, next: State, t: State, wr: Write, ids: set<nat>)
    requires w.center.Some? && Inv(Change(w, next, t, wr))
    ensures Inv(Change(w, next, t, wr).(used := w.used + ids))
  {
    hide Inv, IsTrim;
    MoreUsed(Change(w, next, t, wr), w.used + ids);
  }

  lemma SaveRoutesKeeps(w: World, revision: nat, routes: seq<Route>, t: State, wr: Write)
    requires Inv(w)
    ensures Inv(SaveRoutes(w, revision, routes, t, wr))
  {
    hide Inv, StateOk, InFlightOk, Change;
    if w.center.Some? && RoutesValid(w.center.value.state, routes) {
      CenterFacts(w);
      var s := w.center.value.state;
      var next := s.(routes := routes, revision := revision + 1);
      SettingsOk(s, next, w.used, w.log);
      ChangeKeeps(w, next, t, wr);
    }
  }

  lemma AddSilenceKeeps(w: World, k: nat, q: Silence, now: int, t: State, wr: Write)
    requires Inv(w)
    ensures Inv(AddSilence(w, k, q, now, t, wr))
  {
    hide Inv, StateOk, InFlightOk, Change, RoutesOk;
    if w.center.Some? {
      CenterFacts(w);
      var next := PutSilence(w.center.value.state, k, q, now);
      SettingsOk(w.center.value.state, next, w.used, w.log);
      ChangeKeeps(w, next, t, wr);
      ChangeUsed(w, next, t, wr, {k});
    }
  }

  lemma ImportKeeps(w: World, enabled: bool, minSeverity: string, newId: ChannelId, routeId: string, configured: bool,
                    t: State, wr: Write)
    requires Inv(w)
    ensures Inv(ImportLegacy(w, enabled, minSeverity, newId, routeId, configured, t, wr))
  {
    hide Inv, StateOk, InFlightOk, Change;
    if w.center.Some? {
      CenterFacts(w);
      var s := w.center.value.state;
      var r := Route(routeId, "Migrated Telegram", enabled, if Score(minSeverity) == 0 then "info" else minSeverity, [],
                     [], [newId], true, 0);
      var s1 := s.(migrated := true);
      var next := if configured
                  then s1.(channels := s.channels[newId := Channel(enabled, 1)], routes := s.routes + [r],
                           revision := s.revision + 1) else s1;
      SettingsOk(s, next, w.used, w.log);
      ChangeKeeps(w, next, t, wr);
      ChangeUsed(w, next, t, wr, {newId});
    }
  }

  // ---------------------------------------------------------------- deliveries changed by operators

  lemma DropChannelOk(s: State, ch: ChannelId, used: set<nat>, log: seq<Event>, inFlight: set<DeliveryId>)
    requires StateOk(s, used, log) && InFlightOk(inFlight, s.deliveries)
    ensures StateOk(DropChannel(s, ch), used, log) && InFlightOk(inFlight, DropChannel(s, ch).deliveries)
  {
    RewriteOk(s, DropChannel(s, ch), used, log);
  }

  lemma DropSilenceOk(s: State, k: nat, now: int, used: set<nat>, log: seq<Event>, inFlight: set<DeliveryId>)
    requires StateOk(s, used, log) && InFlightOk(inFlight, s.deliveries)
    ensures StateOk(DropSilence(s, k, now), used, log) && InFlightOk(inFlight, DropSilence(s, k, now).deliveries)
  {
    RewriteOk(s, DropSilence(s, k, now), used, log);
  }

  lemma DeleteKeeps(w: World, s: Step)
    requires Inv(w) && (s.SDeleteChannel? || s.SDeleteSilence?)
    ensures Inv(Apply(w, s))
  {
    hide Inv, StateOk, InFlightOk, Change, DropChannel, DropSilence, RoutesOk;
    if w.center.Some? {
      CenterFacts(w);
      var c := w.center.value;
      match s
      case SDeleteChannel(ch, t, wr) =>
        DropChannelOk(c.state, ch, w.used, w.log, c.inFlight);
        ChangeKeeps(w, DropChannel(c.state, ch), t, wr);
      case SDeleteSilence(k, now, t, wr) =>
        DropSilenceOk(c.state, k, now, w.used, w.log, c.inFlight);
        ChangeKeeps(w, DropSilence(c.state, k, now), t, wr);
    }
  }

  /** Rejections and retries only relax what the log asks of a state. */
  lemma Relaxed(s: State, used: set<nat>, log: seq<Event>, e: Event)
    requires StateOk(s, used, log) && !e.Send?
    ensures StateOk(s, used, log + [e])
  {
    hide QueueInv, UsedOk, IsQueued, AttemptsOk, Sends, Out;
    forall id | id in s.deliveries ensures FitsLog(s.deliveries[id], log + [e], id) { LogSnoc(log, e, id); }
  }

  lemma RelaxedWorld(w: World, e: Event)
    requires Inv(w) && w.center.Some? && !e.Send?
    ensures Inv(w.(log := w.log + [e]))
  {
    hide StateOk, Tidy, InFlightOk, SendsOk;
    SendsOkSnoc(w.log, e);
    if w.disk.Some? { Relaxed(w.disk.value, w.used, w.log, e); }
    Relaxed(w.center.value.state, w.used, w.log, e);
  }

  lemma RequeueOk(s: State, id: DeliveryId, now: int, used: set<nat>, log: seq<Event>, inFlight: set<DeliveryId>)
    requires StateOk(s, used, log + [Retry(id)]) && InFlightOk(inFlight, s.deliveries) && Retryable(s, id)
    ensures StateOk(Requeue(s, id, now), used, log + [Retry(id)])
            && InFlightOk(inFlight, Requeue(s, id, now).deliveries)
  {
    LogSnoc(log, Retry(id), id);
    hide Sends, Out;
    RewriteOk(s, Requeue(s, id, now), used, log + [Retry(id)]);
  }

  lemma RetryKeeps(w: World, id: DeliveryId, now: int, t: State, wr: Write)
    requires Inv(w)
    ensures Inv(RetryDelivery(w, id, now, t, wr))
  {
    hide Inv, StateOk, InFlightOk, Requeue, Tidy, RoutesOk, IsTrim, Fits;
    if w.center.Some? && Retryable(w.center.value.state, id) {
      var w1 := w.(log := w.log + [Retry(id)]);
      RelaxedWorld(w, Retry(id));
      CenterFacts(w1);
      RequeueOk(w.center.value.state, id, now, w.used, w.log, w.center.value.inFlight);
      ChangeKeeps(w1, Requeue(w.center.value.state, id, now), t, wr);
      UnrecordedKeeps(w, t, wr);
    }
  }

  lemma PutTestOk(s: State, ch: ChannelId, uuid: nat, now: int, used: set<nat>, log: seq<Event>,
                  inFlight: set<DeliveryId>)
    requires StateOk(s, used, log) && InFlightOk(inFlight, s.deliveries) && ch in s.channels && uuid !in used
    ensures StateOk(PutTest(s, ch, uuid, now), used + {uuid}, log)
            && InFlightOk(inFlight, PutTest(s, ch, uuid, now).deliveries)
  {
    assert forall k :: 0 <= k < |log| ==> log[k] != Send(Test(uuid));
    NeverSent(log, Test(uuid));
    assert Test(uuid) !in s.deliveries;
    UsedGrows(s, used, used + {uuid}, log);
    hide EntriesOk, MarksOk, RoutesOk, SentKnown, UsedOk, Sends, Out, IsQueued;
  }

  lemma TestKeeps(w: World, ch: ChannelId, uuid: nat, now: int, t: State, wr: Write)
    requires Inv(w)
    ensures Inv(TestChannel(w, ch, uuid, now, t, wr))
  {
    hide Inv, StateOk, InFlightOk, PutTest, Tidy, RoutesOk, IsTrim, Fits, RecentTest;
    if w.center.Some? && ch in w.center.value.state.channels && uuid !in w.used {
      CenterFacts(w);
      var w1 := w.(used := w.used + {uuid});
      MoreUsed(w, w1.used);
      PutTestOk(w.center.value.state, ch, uuid, now, w.used, w.log, w.center.value.inFlight);
      ChangeKeeps(w1, PutTest(w.center.value.state, ch, uuid, now), t, wr);
    }
  }

  // ---------------------------------------------------------------- alerts

  /** Nothing already there is touched. */
  ghost predicate KeepsDeliveries(s: State, t: State) {
    forall id :: id in s.deliveries ==> id in t.deliveries && t.deliveries[id] == s.deliveries[id]
  }

  /** Queueing keeps a state good: what is new was never sent. */
  lemma GrownOk(s: State, t: State, used: set<nat>, log: seq<Event>)
    requires StateOk(s, used, log) && QueueInv(t) && Grown(s, t)
    ensures StateOk(t, used, log) && KeepsDeliveries(s, t)
  {
    hide QueueInv, IsQueued, Sends, Out;
    forall id | id in t.deliveries
      ensures AttemptsOk(t.deliveries[id]) && FitsLog(t.deliveries[id], log, id) && (id.Test? ==> id.uuid in used)
    {
      if id !in s.deliveries {
        assert IsNew(s, t, id);
        NeverSent(log, id);
      }
    }
    forall k | 0 <= k < |log| && log[k].Send? && log[k].id.Notice? ensures IsQueued(t.queued, log[k].id) {
      QueuedPrefix(s.queued, t.queued, log[k].id);
    }
    forall i | 0 <= i < |t.queued| ensures t.queued[i].alert in used {
      if i < |s.queued| { assert t.queued[i] == s.queued[i]; }
    }
  }

  /** An alert that appears or moves on keeps every mark at or below its transition. */
  lemma PutAlertOk(s: State, id: AlertId, a: Alert, used: set<nat>, log: seq<Event>)
    requires StateOk(s, used, log)
    requires if id in s.alerts then a.transition >= s.alerts[id].transition else id !in used
    ensures StateOk(s.(alerts := s.alerts[id := a]), used + {id}, log)
  {
    hide EntriesOk, RoutesOk, FitsLog, AttemptsOk, IsQueued, Remembered;
    var t := s.(alerts := s.alerts[id := a]);
    assert MarksOk(t.alerts, t.dispatch, t.queued);
    assert AllQueued(t.deliveries, t.queued);
    assert DeliveriesOk(t.deliveries, log, used + {id});
  }

  lemma ObserveOneOk(s: State, x: Seen, now: int, ends: Alert -> Option<int>, used: set<nat>, log: seq<Event>)
    requires StateOk(s, used, log) && x.newId !in used && (x.cur.Some? ==> x.cur.value in s.alerts)
    ensures StateOk(ObserveOne(s, x, now, ends), used + {x.newId}, log)
            && KeepsDeliveries(s, ObserveOne(s, x, now, ends))
  {
    hide QueueInv, DeliveriesOk, SentKnown, Tidy;
    UsedGrows(s, used, used + {x.newId}, log);
    var old1 := if x.cur.Some? then Some(s.alerts[x.cur.value]) else None;
    var r := Changed(old1, x.o, now);
    if r.Some? {
      var id := if Renews(old1, x.o) then x.newId else x.cur.value;
      assert id in s.alerts ==> id in used && id != x.newId;
      PutAlertOk(s, id, r.value.0, used, log);
      var s1 := s.(alerts := s.alerts[id := r.value.0]);
      hide StateOk, QueueInv, QueueRoutes, Changed, DeliveriesOk;
      UsedGrows(s1, used + {id}, used + {x.newId}, log);
      if r.value.1 {
        assert QueueInv(s1) && RoutesOk(s1.routes) by { InvOf(s1, used + {x.newId}, log); }
        QueueRoutesKeeps(s1, id, r.value.0, now, 0, s1.routes, ends(r.value.0));
        GrownOk(s1, QueueRoutes(s1, id, r.value.0, now, 0, s1.routes, ends(r.value.0)), used + {x.newId}, log);
      }
    }
  }

  lemma InvOf(s: State, used: set<nat>, log: seq<Event>)
    requires StateOk(s, used, log)
    ensures QueueInv(s) && RoutesOk(s.routes)
  {
    hide EntriesOk, MarksOk, AllQueued, DeliveriesOk, SentKnown, UsedOk, RoutesOk;
  }

  ghost function NewIds(xs: seq<Seen>): set<nat> { set i | 0 <= i < |xs| :: xs[i].newId }

  lemma {:induction false} ObserveAllOk(s: State, xs: seq<Seen>, now: int, ends: Alert -> Option<int>, used: set<nat>,
                                        log: seq<Event>)
    requires StateOk(s, used, log) && SeenOk(s, xs, now, ends, used)
    ensures StateOk(ObserveAll(s, xs, now, ends), used + NewIds(xs), log)
            && KeepsDeliveries(s, ObserveAll(s, xs, now, ends))
  {
    hide StateOk, ObserveOne, IsCurrent, Acceptable;
    if xs == [] {
      assert used + NewIds(xs) == used;
    } else {
      var front, x := xs[..|xs| - 1], xs[|xs| - 1];
      SeenFront(s, xs, now, ends, used);
      ObserveAllOk(s, front, now, ends, used, log);
      ObserveOneOk(ObserveAll(s, front, now, ends), x, now, ends, used + NewIds(front), log);
      assert used + NewIds(front) + {x.newId} == used + NewIds(xs);
    }
  }

  lemma SeenFront(s: State, xs: seq<Seen>, now: int, ends: Alert -> Option<int>, used: set<nat>)
    requires SeenOk(s, xs, now, ends, used) && xs != []
    ensures var front, x := xs[..|xs| - 1], xs[|xs| - 1];
            && SeenOk(s, front, now, ends, used) && x.newId !in used + NewIds(front)
            && NewIds(xs) == NewIds(front) + {x.newId}
            && (x.cur.Some? ==> x.cur.value in ObserveAll(s, front, now, ends).alerts)
  {
    hide ObserveAll, Acceptable;
    var front, x := xs[..|xs| - 1], xs[|xs| - 1];
    assert forall i :: 0 <= i < |front| ==> front[..i] == xs[..i] && front[i] == xs[i];
  }

  lemma KeepsFlight(s: State, t: State, inFlight: set<DeliveryId>)
    requires KeepsDeliveries(s, t) && InFlightOk(inFlight, s.deliveries)
    ensures InFlightOk(inFlight, t.deliveries)
  {
  }

  lemma ObserveKeeps(w: World, xs: seq<Seen>, now: int, ends: Alert -> Option<int>, t: State, wr: Write)
    requires Inv(w)
    ensures Inv(Observe(w, xs, now, ends, t, wr))
  {
    hide Inv, StateOk, InFlightOk, ObserveAll, Tidy, RoutesOk, IsTrim, Fits, KeepsDeliveries, SeenOk, EndsOk,
      DeliveriesOk;
    if w.center.Some? && SeenOk(w.center.value.state, xs, now, ends, w.used) {
      CenterFacts(w);
      var s := w.center.value.state;
      ObserveAllOk(s, xs, now, ends, w.used, w.log);
      var w1 := w.(used := w.used + NewIds(xs));
      MoreUsed(w, w1.used);
      KeepsFlight(s, ObserveAll(s, xs, now, ends), w.center.value.inFlight);
      ChangeKeeps(w1, ObserveAll(s, xs, now, ends), t, wr);
    }
  }

  lemma MarkStaleOk(s: State, component: string, used: set<nat>, log: seq<Event>)
    requires StateOk(s, used, log)
    ensures StateOk(MarkStale(s, component), used, log)
  {
    hide EntriesOk, AllQueued, RoutesOk, DeliveriesOk, SentKnown, Remembered;
  }

  lemma MarkStaleKeeps(w: World, component: string, t: State, wr: Write)
    requires Inv(w)
    ensures Inv(MarkObservationsStale(w, component, t, wr))
  {
    if w.center.Some? {
      hide Inv, StateOk, InFlightOk, Change, RoutesOk, DeliveriesOk;
      CenterFacts(w);
      MarkStaleOk(w.center.value.state, component, w.used, w.log);
      ChangeKeeps(w, MarkStale(w.center.value.state, component), t, wr);
    }
  }

  lemma OrphansOk(s: State, inFlight: set<DeliveryId>, used: set<nat>, log: seq<Event>)
    requires StateOk(s, used, log)
    ensures StateOk(Orphans(s, inFlight), used, log)
    ensures InFlightOk(inFlight, s.deliveries) ==> InFlightOk(inFlight, Orphans(s, inFlight).deliveries)
  {
    RewriteOk(s, Orphans(s, inFlight), used, log);
  }

  lemma EmptyOk(used: set<nat>)
    ensures StateOk(EMPTY, used, [])
  {
  }

  lemma RecoverOk(w: World)
    requires Inv(w)
    ensures StateOk(Recover(if w.disk.Some? then w.disk.value else EMPTY), w.used, w.log)
  {
    EmptyOk(w.used);
    hide StateOk, Tidy, SendsOk, Orphans, MarkStale, EMPTY;
    var s := if w.disk.Some? then w.disk.value else EMPTY;
    MarkStaleOk(s, "", w.used, w.log);
    OrphansOk(MarkStale(s, ""), {}, w.used, w.log);
  }

  lemma OpenKeeps(w: World, t: State, wr: Write)
    requires Inv(w)
    ensures Inv(Open(w, t, wr))
  {
    hide StateOk, Tidy, SendsOk, IsTrim, Fits, Recover;
    RecoverOk(w);
    var s := if w.disk.Some? then w.disk.value else EMPTY;
    if IsTrim(Recover(s), t) && Fits(t) {
      TrimKeeps(Recover(s), t, w.used, w.log);
      TrimIsTidy(Recover(s), t);
    }
  }

  // ---------------------------------------------------------------- claim and completion

  lemma ScreenOk(s: State, now: int, t: State, verdicts: map<DeliveryId, Verdict>, used: set<nat>, log: seq<Event>,
                 inFlight: set<DeliveryId>)
    requires StateOk(s, used, log) && IsScreen(s, now, t, verdicts) && InFlightOk(inFlight, s.deliveries)
    ensures StateOk(t, used, log) && InFlightOk(inFlight, t.deliveries)
  {
    hide Judged, Sends, Out;
    assert DeliveriesOk(s.deliveries, log, used);
    RewriteOk(s, t, used, log);
  }

  lemma PreparedOk(c: Center, order: seq<AlertId>, now: int, ends: Alert -> Option<int>, used: set<nat>,
                   log: seq<Event>)
    requires StateOk(c.state, used, log) && InFlightOk(c.inFlight, c.state.deliveries)
    ensures StateOk(Prepared(c, order, now, ends), used, log)
            && InFlightOk(c.inFlight, Prepared(c, order, now, ends).deliveries)
  {
    hide StateOk, InFlightOk, Orphans, QueueActive, QueueInv, KeepsDeliveries;
    OrphansOk(c.state, c.inFlight, used, log);
    var s := Orphans(c.state, c.inFlight);
    InvOf(s, used, log);
    QueueActiveKeeps(s, order, now, ends);
    GrownOk(s, QueueActive(s, order, now, ends), used, log);
    KeepsFlight(s, QueueActive(s, order, now, ends), c.inFlight);
  }

  /** The picked delivery is waiting: never one whose last call is undecided. */
  lemma PickFacts(s: State, now: int, t: State, verdicts: map<DeliveryId, Verdict>, pick: DeliveryId, used: set<nat>,
                  log: seq<Event>)
    requires StateOk(s, used, log) && IsScreen(s, now, t, verdicts) && IsPick(s, verdicts, Some(pick))
    ensures pick in t.deliveries && Waiting(t.deliveries[pick].phase) && t.deliveries[pick] == s.deliveries[pick]
    ensures !Out(log, pick) && Sends(log, pick) < MAX_ATTEMPTS && t.deliveries[pick].attempts < MAX_ATTEMPTS
    ensures pick.Notice? ==> IsQueued(s.queued, pick)
    ensures pick.Test? ==> pick.uuid in used
  {
    hide Judged, Sends, Out, IsQueued, EntriesOk, MarksOk;
  }

  /** The state after a claim, against the log before and after the call it permits. */
  lemma ClaimedOk(s: State, id: DeliveryId, used: set<nat>, log: seq<Event>)
    requires StateOk(s, used, log) && id in s.deliveries && Waiting(s.deliveries[id].phase)
             && s.deliveries[id].attempts < MAX_ATTEMPTS
    ensures StateOk(Claimed(s, id), used, log)
    ensures StateOk(Claimed(s, id), used, log + [Send(id)])
  {
    RewriteOk(s, Claimed(s, id), used, log);
    var t := Claimed(s, id);
    hide QueueInv, Sends, Out, IsQueued, UsedOk;
    forall k | k in t.deliveries ensures FitsLog(t.deliveries[k], log + [Send(id)], k) { LogSnoc(log, Send(id), k); }
    assert id.Notice? ==> IsQueued(t.queued, id) by { AllAreQueued(t); }
  }

  lemma AllAreQueued(s: State)
    requires QueueInv(s)
    ensures forall id :: id in s.deliveries && id.Notice? ==> IsQueued(s.queued, id)
  {
    hide EntriesOk, MarksOk, RoutesOk, IsQueued;
  }

  lemma ClaimedFlight(s: State, id: DeliveryId, inFlight: set<DeliveryId>)
    requires id in s.deliveries && InFlightOk(inFlight, s.deliveries)
    ensures InFlightOk(inFlight + {id}, Claimed(s, id).deliveries)
  {
  }

  lemma ClaimKeeps(w: World, p: Plan, now: int, ends: Alert -> Option<int>, sender: bool, t: State, wr: Write)
    requires Inv(w)
    ensures Inv(Claim(w, p, now, ends, sender, t, wr))
  {
    hide StateOk, InFlightOk, Tidy, IsTrim, Fits, IsScreen, IsPick, Prepared, Claimed, EndsOk, IsOrder, SendsOk, Sends,
      Out, IsQueued;
    if w.center.Some? && PlanOk(w.center.value, p, now, ends) && IsTrim(NextClaim(p), t) && (p.pick.Some? ==> sender) {
      var c := w.center.value;
      PreparedOk(c, p.order, now, ends, w.used, w.log);
      var s := Prepared(c, p.order, now, ends);
      ScreenOk(s, now, p.screened, p.verdicts, w.used, w.log, c.inFlight);
      if p.pick.None? {
        ChangeKeeps(w, p.screened, t, wr);
      } else {
        var id := p.pick.value;
        PickFacts(s, now, p.screened, p.verdicts, id, w.used, w.log);
        ClaimedOk(p.screened, id, w.used, w.log);
        ClaimedFlight(p.screened, id, c.inFlight);
        SentKeeps(w, Claimed(p.screened, id), id, t, wr);
      }
    }
  }

  lemma FewerFlight(inFlight: set<DeliveryId>, more: set<DeliveryId>, deliveries: map<DeliveryId, Delivery>)
    requires InFlightOk(more, deliveries) && inFlight <= more
    ensures InFlightOk(inFlight, deliveries)
  {
  }

  /** A claim that reached storage lets exactly one call out. */
  lemma SentKeeps(w: World, next: State, id: DeliveryId, t: State, wr: Write)
    requires Inv(w) && w.center.Some? && IsTrim(next, t)
    requires StateOk(next, w.used, w.log) && StateOk(next, w.used, w.log + [Send(id)])
             && InFlightOk(w.center.value.inFlight + {id}, next.deliveries)
    requires !Out(w.log, id) && Sends(w.log, id) < MAX_ATTEMPTS
    ensures Inv(if Saves(t, wr)
                then Persist(w, t, wr).(center := Some(Center(t, w.center.value.inFlight + {id}, true)),
                                        log := w.log + [Send(id)])
                else Persist(w, t, wr))
  {
    hide StateOk, InFlightOk, Tidy, IsTrim, Fits, SendsOk, Sends, Out;
    var c := w.center.value;
    TrimKeeps(next, t, w.used, w.log);
    TrimKeeps(next, t, w.used, w.log + [Send(id)]);
    FewerFlight(c.inFlight, c.inFlight + {id}, next.deliveries);
    TrimKeepsFlight(next, t, c.inFlight + {id});
    TrimKeepsFlight(next, t, c.inFlight);
    SendsOkSnoc(w.log, Send(id));
    if Fits(t) { TrimIsTidy(next, t); }
  }

  lemma CompletedOk(s: State, id: DeliveryId, o: Outcome, now: int, used: set<nat>, log: seq<Event>,
                    inFlight: set<DeliveryId>)
    requires StateOk(s, used, log) && id in s.deliveries && s.deliveries[id].phase.Sending?
             && InFlightOk(inFlight, s.deliveries) && id !in inFlight
    requires o.Refused? ==> !Out(log, id)
    ensures var t := s.(deliveries := s.deliveries[id := Completed(s.deliveries[id], o, now)]);
            StateOk(t, used, log) && InFlightOk(inFlight, t.deliveries)
  {
    hide Sends, Out, RetryDelay;
    RewriteOk(s, s.(deliveries := s.deliveries[id := Completed(s.deliveries[id], o, now)]), used, log);
  }

  lemma FinishKeeps(w: World, id: DeliveryId, o: Outcome, now: int, t: State, wr: Write)
    requires Inv(w)
    ensures Inv(Finish(w, id, o, now, t, wr))
  {
    if w.center.Some? && id in w.center.value.inFlight {
      CenterFacts(w);
      assert id in w.center.value.state.deliveries && w.center.value.state.deliveries[id].phase.Sending?;
      FewerFlight(w.center.value.inFlight - {id}, w.center.value.inFlight, w.center.value.state.deliveries);
      hide StateOk, InFlightOk, Tidy, IsTrim, Fits, Completed, SendsOk, Sends, Out, DeliveriesOk, RoutesOk;
      var c := w.center.value.(inFlight := w.center.value.inFlight - {id});
      var w0 := w.(center := Some(c));
      var next := c.state.(deliveries := c.state.deliveries[id := Completed(c.state.deliveries[id], o, now)]);
      if o.Refused? {
        RefusedKeeps(w0, id, o, now, next, t, wr);
        UnrecordedKeeps(w0, t, wr);
      } else {
        CompletedOk(c.state, id, o, now, w.used, w.log, c.inFlight);
        ChangeKeeps(w0, next, t, wr);
      }
    }
  }

  /** A rejection is logged together with the state that records it. */
  lemma RefusedKeeps(w: World, id: DeliveryId, o: Outcome, now: int, next: State, t: State, wr: Write)
    requires Inv(w) && w.center.Some? && id in w.center.value.state.deliveries && id !in w.center.value.inFlight
             && o.Refused?
    requires w.center.value.state.deliveries[id].phase.Sending?
    requires var s := w.center.value.state;
             next == s.(deliveries := s.deliveries[id := Completed(s.deliveries[id], o, now)])
    ensures Inv(Change(w.(log := w.log + [Rejected(id)]), next, t, wr))
  {
    hide Inv, StateOk, InFlightOk, Completed, Sends, Out, DeliveriesOk, RoutesOk, Change;
    var w1 := w.(log := w.log + [Rejected(id)]);
    RelaxedWorld(w, Rejected(id));
    LogSnoc(w.log, Rejected(id), id);
    CenterFacts(w1);
    CompletedOk(w.center.value.state, id, o, now, w.used, w1.log, w.center.value.inFlight);
    ChangeKeeps(w1, next, t, wr);
  }

  /** A write that changed nothing leaves the center degraded and everything else as it was. */
  lemma UnrecordedKeeps(w: World, t: State, wr: Write)
    requires Inv(w) && w.center.Some?
    ensures !(Fits(t) && Stored(wr)) ==> Inv(Persist(w, t, wr))
  {
    hide StateOk, InFlightOk, Tidy, Fits, SendsOk;
  }

  // ---------------------------------------------------------------- every run

  lemma CrashKeeps(w: World)
    requires Inv(w)
    ensures Inv(w.(center := None))
  {
    hide StateOk, InFlightOk, Tidy, SendsOk;
  }

  lemma StepKeeps(w: World, s: Step)
    requires Inv(w)
    ensures Inv(Apply(w, s))
  {
    hide Inv;
    match s
    case SOpen(t, wr) => OpenKeeps(w, t, wr);
    case SCrash => CrashKeeps(w);
    case SObserve(xs, now, ends, t, wr) => ObserveKeeps(w, xs, now, ends, t, wr);
    case SMarkStale(component, t, wr) => MarkStaleKeeps(w, component, t, wr);
    case SRetry(id, now, t, wr) => RetryKeeps(w, id, now, t, wr);
    case STest(ch, uuid, now, t, wr) => TestKeeps(w, ch, uuid, now, t, wr);
    case SClaim(plan, now, ends, sender, t, wr) => ClaimKeeps(w, plan, now, ends, sender, t, wr);
    case SFinish(id, o, now, t, wr) => FinishKeeps(w, id, o, now, t, wr);
    case SDeleteChannel(_, _, _) => hide Apply; DeleteKeeps(w, s);
    case SDeleteSilence(_, _, _, _) => hide Apply; DeleteKeeps(w, s);
    case _ => hide Apply; SettingsKeep(w, s);
  }

  lemma {:induction false} RunKeeps(steps: seq<Step>)
    ensures Inv(Run(steps))
  {
    if steps != [] {
      RunKeeps(steps[..|steps| - 1]);
      hide Inv;
      StepKeeps(Run(steps[..|steps| - 1]), steps[|steps| - 1]);
    }
  }
}
