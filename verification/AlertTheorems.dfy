/** The promises of the alert center, over every run with crashes, failed writes and interleaved settings changes. */
module AlertTheorems {
  import opened Basics
  import opened AlertState
  import opened AlertQueue
  import opened AlertMachine
  import opened AlertSafety
  import AlertRouting

  lemma {:induction false} RejectionBetween(log: seq<Event>, id: DeliveryId, i: nat, k: nat)
    requires i < k <= |log| && log[i] == Send(id) && !Out(log[..k], id)
    ensures exists j :: i < j < k && (log[j] == Rejected(id) || log[j] == Retry(id))
  {
    var last := log[k - 1];
    assert log[..k][..k - 1] == log[..k - 1];
    if last.id == id {
      assert k - 1 != i;
    } else {
      assert k - 1 != i;
      RejectionBetween(log, id, i, k - 1);
    }
  }

  /**
   A delivery is handed to the transport again only after a definite rejection of it was recorded, or
   after a retry that an operator asked for took effect.
   */
  lemma ResendOnlyAfterRejection(steps: seq<Step>, id: DeliveryId, i: nat, k: nat)
    requires i < k < |Run(steps).log| && Run(steps).log[i] == Send(id) && Run(steps).log[k] == Send(id)
    ensures exists j :: i < j < k && (Run(steps).log[j] == Rejected(id) || Run(steps).log[j] == Retry(id))
  {
    RunKeeps(steps);
    RejectionBetween(Run(steps).log, id, i, k);
  }

  /** Between two operator retries that took effect a delivery is handed over at most five times. */
  lemma FiveAttempts(steps: seq<Step>, id: DeliveryId, n: nat)
    requires n <= |Run(steps).log|
    ensures Sends(Run(steps).log[..n], id) <= MAX_ATTEMPTS
  {
    RunKeeps(steps);
    SendsBounded(Run(steps).log, id, n);
  }

  lemma {:induction false} SendsBounded(log: seq<Event>, id: DeliveryId, n: nat)
    requires SendsOk(log) && n <= |log|
    ensures Sends(log[..n], id) <= MAX_ATTEMPTS
  {
    if n > 0 {
      assert log[..n][..n - 1] == log[..n - 1];
      SendsBounded(log, id, n - 1);
    }
  }

  /** A delivery in flight is there and still being sent: its completion always finds it. */
  lemma InFlightIsSending(steps: seq<Step>, id: DeliveryId)
    requires var w := Run(steps); w.center.Some? && id in w.center.value.inFlight
    ensures var s := Run(steps).center.value.state; id in s.deliveries && s.deliveries[id].phase.Sending?
  {
    RunKeeps(steps);
  }

  /** In memory and in storage: pending means no attempt, retrying one to four, failed five. */
  lemma AttemptsMatchPhases(steps: seq<Step>, s: State, id: DeliveryId)
    requires var w := Run(steps);
             (w.disk == Some(s) || (w.center.Some? && w.center.value.state == s)) && id in s.deliveries
    ensures var d := s.deliveries[id];
            && (d.phase.Pending? ==> d.attempts == 0) && (d.phase.Retrying? ==> 1 <= d.attempts <= 4)
            && (d.phase.Failed? ==> d.attempts == 5) && (d.phase.Sending? ==> 1 <= d.attempts <= 5)
  {
    RunKeeps(steps);
  }

  /**
   Of every state in memory or storage: per alert, transition and channel at most one notification that is
   no reminder was ever queued on the way to it, and reminders of the same three are at least five
   minutes apart from everything before them.
   */
  lemma OneNotificationPerTransition(steps: seq<Step>, s: State, i: nat, j: nat)
    requires var w := Run(steps); w.disk == Some(s) || (w.center.Some? && w.center.value.state == s)
    requires i < j < |s.queued| && SameTriple(s.queued[i], s.queued[j])
    ensures s.queued[j].slot != 0 && s.queued[j].at - s.queued[i].at >= 5 * MINUTE
            && IdOf(s.queued[i]) != IdOf(s.queued[j])
  {
    RunKeeps(steps);
  }

  /** Memory is bounded, has no mark without its alert, and is what storage holds unless a write failed. */
  lemma MemoryIsTidy(steps: seq<Step>)
    requires Run(steps).center.Some?
    ensures var w := Run(steps); var s := w.center.value.state;
            && |ActiveIds(s)| <= 5000 && |ResolvedIds(s)| <= 1000 && |s.deliveries| <= 2000
            && (forall k :: k in s.dispatch ==> k.0 in s.alerts)
            && (w.center.value.healthy ==> w.disk == Some(s))
  {
    RunKeeps(steps);
  }

  /**
   A delivery refused before its fifth attempt waits 2, 4, 8 and then 16 seconds, or as long as the receiver asks,
   up to one hour.
   */
  lemma RefusedWaits(steps: seq<Step>, id: DeliveryId, retryAfter: int, now: int)
    requires var w := Run(steps); w.center.Some? && id in w.center.value.inFlight
    ensures var w := Run(steps);
            && id in w.center.value.state.deliveries
            && var d := Completed(w.center.value.state.deliveries[id], Refused(retryAfter), now);
               var attempts := w.center.value.state.deliveries[id].attempts;
               if attempts >= 5 then d.phase.Failed?
               else
                 && d.phase.Retrying? && 2 * SECOND <= d.nextAt - now <= HOUR && attempts > 0
                 && var usual := [2, 4, 8, 16][attempts - 1] * SECOND;
                    && (retryAfter <= usual ==> d.nextAt - now == usual)
                    && (usual <= retryAfter <= HOUR ==> d.nextAt - now == retryAfter)
                    && (retryAfter >= HOUR ==> d.nextAt - now == HOUR)
  {
    RunKeeps(steps);
    hide RetryDelay;
    var attempts := Run(steps).center.value.state.deliveries[id].attempts;
    assert 1 <= attempts <= 5;
    RetryDelayBounds(attempts, retryAfter);
    if attempts <= 4 { RetryDelayMeans(attempts, retryAfter); }
  }

  // ---------------------------------------------------------------- what goes out

  ghost predicate SameNews(a: DeliveryId, b: DeliveryId) {
    a.Notice? && b.Notice? && a.alert == b.alert && a.channel == b.channel && a.transition == b.transition
  }

  /** Two entries of the queue history stand for `a` and `b` and are at least five minutes apart. */
  ghost predicate QueuedApart(q: seq<Entry>, a: DeliveryId, b: DeliveryId) {
    exists i, j :: 0 <= i < |q| && 0 <= j < |q| && IdOf(q[i]) == a && IdOf(q[j]) == b
                   && (q[j].at - q[i].at >= 5 * MINUTE || q[i].at - q[j].at >= 5 * MINUTE)
  }

  /**
   Any two messages that were ever sent about one transition of an alert to one channel are attempts of one
   delivery, or were queued at least five minutes apart and are not both first notifications.
   */
  lemma SentOncePerTransition(steps: seq<Step>, i: nat, j: nat)
    requires i < j < |Run(steps).log| && Run(steps).log[i].Send? && Run(steps).log[j].Send?
    requires SameNews(Run(steps).log[i].id, Run(steps).log[j].id) && Run(steps).log[i].id != Run(steps).log[j].id
    ensures var w := Run(steps); var a, b := w.log[i].id, w.log[j].id;
            && (a.slot != 0 || b.slot != 0)
            && w.disk.Some? && QueuedApart(w.disk.value.queued, a, b)
            && (a.slot != 0 && b.slot != 0 ==> a.slot - b.slot >= 5 * MINUTE || b.slot - a.slot >= 5 * MINUTE)
  {
    RunKeeps(steps);
    var w := Run(steps);
    var q := w.disk.value.queued;
    var a, b := w.log[i].id, w.log[j].id;
    assert SentKnown(w.log, q, w.used) && EntriesOk(q);
    hide *;
    assert IsQueued(q, a) && IsQueued(q, b);
    EntriesApart(q, a, b);
  }

  lemma EntriesApart(q: seq<Entry>, a: DeliveryId, b: DeliveryId)
    requires EntriesOk(q) && IsQueued(q, a) && IsQueued(q, b) && SameNews(a, b) && a != b
    ensures (a.slot != 0 || b.slot != 0) && QueuedApart(q, a, b)
    ensures a.slot != 0 && b.slot != 0 ==> a.slot - b.slot >= 5 * MINUTE || b.slot - a.slot >= 5 * MINUTE
  {
    var m :| 0 <= m < |q| && IdOf(q[m]) == a;
    var n :| 0 <= n < |q| && IdOf(q[n]) == b;
    assert SameTriple(q[m], q[n]) && SameTriple(q[n], q[m]);
  }

  /** The delivery's channel is enabled and unchanged, and a notice is about the present transition of a fresh,
      unsilenced alert that is still routed to that channel. */
  ghost predicate IsCurrentNews(s: State, id: DeliveryId, d: Delivery, now: int) {
    && d.channel in s.channels && s.channels[d.channel].enabled && s.channels[d.channel].generation == d.generation
    && (id.Notice? ==>
          && id.alert in s.alerts && s.alerts[id.alert].transition == id.transition
          && s.alerts[id.alert].status == d.shown && !s.alerts[id.alert].stale
          && !IsSilenced(s.silences, s.alerts[id.alert], now)
          && exists r :: r in s.routes && Matches(r, s.alerts[id.alert]) && d.channel in r.channels)
  }

  lemma OnlyClaimsSend(w: World, s: Step)
    requires !s.SClaim?
    ensures var w1 := Apply(w, s); |w1.log| > |w.log| ==> !w1.log[|w.log|].Send?
  {
    hide IsTrim, SeenOk, EndsOk, ObserveAll, RoutesValid, RecentTest, Fits;
  }

  lemma PreparedFrame(c: Center, order: seq<AlertId>, now: int, ends: Alert -> Option<int>, used: set<nat>,
                      log: seq<Event>)
    requires StateOk(c.state, used, log)
    ensures var s := Prepared(c, order, now, ends);
            && s.alerts == c.state.alerts && s.channels == c.state.channels && s.routes == c.state.routes
            && s.silences == c.state.silences
  {
    var s := Orphans(c.state, c.inFlight);
    OrphansOk(c.state, c.inFlight, used, log);
    InvOf(s, used, log);
    QueueActiveKeeps(s, order, now, ends);
    hide QueueActive, StateOk, QueueInv;
  }

  lemma PickIsCurrent(s: State, now: int, t: State, verdicts: map<DeliveryId, Verdict>, id: DeliveryId)
    requires IsScreen(s, now, t, verdicts) && IsPick(s, verdicts, Some(id))
    ensures id in t.deliveries && t.deliveries[id] == s.deliveries[id] && IsCurrentNews(s, id, t.deliveries[id], now)
  {
    hide Matches, IsSilenced;
  }

  /**
   Whenever a step hands a message to the transport, the claim is already stored, and what goes out is
   current news by the alerts, routes, channels and silences the center held at that moment.
   */
  lemma SentIsCurrent(steps: seq<Step>, s: Step)
    requires var w, w1 := Run(steps), Apply(Run(steps), s); |w1.log| > |w.log| && w1.log[|w.log|].Send?
    ensures var w, w1 := Run(steps), Apply(Run(steps), s);
            && s.SClaim? && w.center.Some? && w1.center.Some? && w1.disk == Some(w1.center.value.state)
            && var id, t := w1.log[|w.log|].id, w1.center.value.state;
               id in t.deliveries && t.deliveries[id].phase.Sending?
               && IsCurrentNews(w.center.value.state, id, t.deliveries[id], s.now)
    ensures var w, w1 := Run(steps), Apply(Run(steps), s);
            var id, c := w1.log[|w.log|].id, w.center.value.state;
            id.Notice? ==>
              id.alert in c.alerts
              && var a, d := c.alerts[id.alert], w1.center.value.state.deliveries[id];
                 && c.channels[d.channel].enabled && c.channels[d.channel].generation == d.generation
                 && a.transition == id.transition && a.status == d.shown && !a.stale
                 && (forall k :: k in c.silences ==>
                       !(&& c.silences[k].starts <= s.now < c.silences[k].ends
                         && (c.silences[k].rule == "" || c.silences[k].rule == a.rule)
                         && (c.silences[k].node == "" || c.silences[k].node == a.node)
                         && (c.silences[k].severity == "" || c.silences[k].severity == a.severity)))
                 && exists r :: && r in c.routes && r.enabled && d.channel in r.channels
                                && (r.minSeverity == "info" ==> a.severity in {"info", "warning", "critical"})
                                && (r.minSeverity == "warning" ==> a.severity in {"warning", "critical"})
                                && (r.minSeverity == "critical" ==> a.severity == "critical")
                                && (r.rules == [] || a.rule in r.rules) && (r.nodes == [] || a.node in r.nodes)
                                && (a.status == Active || a.event || r.sendResolved)
  {
    RunKeeps(steps);
    var w := Run(steps);
    if s.SClaim? { ClaimIsCurrent(w, s); } else { OnlyClaimsSend(w, s); }
    var id, c := Apply(w, s).log[|w.log|].id, w.center.value.state;
    if id.Notice? {
      var a, ch := c.alerts[id.alert], Apply(w, s).center.value.state.deliveries[id].channel;
      var r :| r in c.routes && Matches(r, a) && ch in r.channels;
      AlertRouting.MatchesMeans(r, a);
    }
    hide Run, Apply, Inv;
  }

  lemma ClaimIsCurrent(w: World, s: Step)
    requires Inv(w) && s.SClaim? && |Apply(w, s).log| > |w.log|
    ensures var w1 := Apply(w, s);
            && w.center.Some? && w1.center.Some? && w1.disk == Some(w1.center.value.state)
            && var id, t := w1.log[|w.log|].id, w1.center.value.state;
               id in t.deliveries && t.deliveries[id].phase.Sending?
               && IsCurrentNews(w.center.value.state, id, t.deliveries[id], s.now)
  {
    hide StateOk, InFlightOk, Tidy, SendsOk, IsTrim, IsScreen, IsPick, Fits, EndsOk, IsOrder, Prepared, IsSilenced,
         Matches;
    var c, p := w.center.value, s.plan;
    PreparedFrame(c, p.order, s.now, s.ends, w.used, w.log);
    var q := Prepared(c, p.order, s.now, s.ends);
    PickIsCurrent(q, s.now, p.screened, p.verdicts, p.pick.value);
    SendingStays(p.screened, p.pick.value, s.t);
  }

  lemma SendingStays(s: State, id: DeliveryId, t: State)
    requires id in s.deliveries && IsTrim(Claimed(s, id), t)
    ensures id in t.deliveries && t.deliveries[id] == Claimed(s, id).deliveries[id]
  {
    hide AlertsTrimmed;
  }
}
