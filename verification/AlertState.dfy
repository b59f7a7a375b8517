/**
 The alert center's state and the pure parts of its logic: routing, silences, queueing, screening.
 Times are nanoseconds. `queued` is history: it records every notification ever queued on the way to a
 state, so that it survives the trimming of sent deliveries.
 */
module AlertState {
  import opened Basics

  const MINUTE := 60_000_000_000
  const SECOND := 1_000_000_000
  const HOUR := 3_600_000_000_000
  const MAX_ACTIVE := 5000
  const MAX_RESOLVED := 1000
  const MAX_DELIVERIES := 2000
  const MAX_ATTEMPTS := 5

  type AlertId = nat
  type ChannelId = nat

  datatype Status = Active | Resolved

  datatype Alert = Alert(
    rule: string, resource: string, node: string, component: string, severity: string, status: Status, stale: bool,
    event: bool,
    firstSeen: int, lastChanged: int, transition: nat)

  datatype Channel = Channel(enabled: bool, generation: nat)

  datatype Route = Route(
    id: string, name: string, enabled: bool, minSeverity: string, rules: seq<string>, nodes: seq<string>,
    channels: seq<ChannelId>,
    sendResolved: bool, repeatMinutes: int)

  datatype Silence = Silence(rule: string, node: string, severity: string, starts: int, ends: int)

  /** Deterministic for notices, so that a poll or a restart finds what was queued before. */
  datatype DeliveryId = Notice(alert: AlertId, channel: ChannelId, transition: nat, slot: int) | Test(uuid: nat)

  datatype Phase = Pending | Retrying | Sending | Sent | Uncertain | Failed | Suppressed

  datatype Delivery = Delivery(
    phase: Phase, attempts: nat, nextAt: int, createdAt: int, channel: ChannelId, generation: nat, shown: Status,
    silenced: bool)

  predicate Terminal(p: Phase) { p.Sent? || p.Suppressed? }
  predicate Waiting(p: Phase) { p.Pending? || p.Retrying? }

  datatype Mark = Mark(transition: nat, lastQueuedAt: int)

  datatype Entry = Entry(alert: AlertId, channel: ChannelId, transition: nat, slot: int, at: int)

  function IdOf(e: Entry): DeliveryId { Notice(e.alert, e.channel, e.transition, e.slot) }

  datatype State = State(
    alerts: map<AlertId, Alert>, channels: map<ChannelId, Channel>, deliveries: map<DeliveryId, Delivery>,
    silences: map<nat, Silence>, revision: nat, routes: seq<Route>, dispatch: map<(AlertId, ChannelId), Mark>,
    migrated: bool,
    queued: seq<Entry>)

  const EMPTY := State(map[], map[], map[], map[], 0, [], map[], false, [])

  // ---------------------------------------------------------------- routing

  function Score(severity: string): nat {
    if severity == "info" then 1 else if severity == "warning" then 2 else if severity == "critical" then 3 else 0
  }

  predicate Selects(list: seq<string>, x: string) { list == [] || x in list }

  predicate Matches(r: Route, a: Alert) {
    && r.enabled && Score(a.severity) >= Score(r.minSeverity)
    && !(a.status.Resolved? && !a.event && !r.sendResolved)
    && Selects(r.rules, a.rule) && Selects(r.nodes, a.node)
  }

  predicate Applies(q: Silence, a: Alert, now: int) {
    && q.starts <= now < q.ends && (q.rule == "" || q.rule == a.rule) && (q.node == "" || q.node == a.node)
    && (q.severity == "" || q.severity == a.severity)
  }

  ghost predicate IsSilenced(silences: map<nat, Silence>, a: Alert, now: int) {
    exists k :: k in silences && Applies(silences[k], a, now)
  }

  ghost predicate IsLatestEnd(silences: map<nat, Silence>, a: Alert, now: int, end: int) {
    && (exists k :: k in silences && Applies(silences[k], a, now) && silences[k].ends == end)
    && (forall k :: k in silences && Applies(silences[k], a, now) ==> silences[k].ends <= end)
  }

  /** When the alert is silenced, the end is the latest end of the silences that apply. */
  ghost predicate SilenceEnd(silences: map<nat, Silence>, a: Alert, now: int, end: Option<int>) {
    if end.Some? then IsLatestEnd(silences, a, now, end.value) else !IsSilenced(silences, a, now)
  }

  // ---------------------------------------------------------------- queueing

  /** A reminder waits while an earlier delivery to the same channel is undecided. */
  ghost predicate Blocked(s: State, alert: AlertId, ch: ChannelId) {
    exists id :: id in s.deliveries && id.Notice? && id.alert == alert && id.channel == ch
      && !Terminal(s.deliveries[id].phase)
  }

  ghost predicate AlreadyMarked(s: State, alert: AlertId, a: Alert, now: int, slot: int, r: Route, ch: ChannelId) {
    && (alert, ch) in s.dispatch && s.dispatch[(alert, ch)].transition == a.transition
    && (slot == 0 || r.repeatMinutes == 0 || now - s.dispatch[(alert, ch)].lastQueuedAt < r.repeatMinutes * MINUTE)
  }

  ghost predicate Queues(s: State, alert: AlertId, a: Alert, now: int, slot: int, r: Route, ch: ChannelId) {
    && ch in s.channels && s.channels[ch].enabled && !(slot != 0 && Blocked(s, alert, ch))
    && !AlreadyMarked(s, alert, a, now, slot, r, ch) && Notice(alert, ch, a.transition, slot) !in s.deliveries
  }

  /** Queue one notification; `end` is the end of the alert's silence, if it is silenced. */
  ghost function QueueOne(s: State, alert: AlertId, a: Alert, now: int, slot: int, r: Route, ch: ChannelId,
                          end: Option<int>): State {
    if Queues(s, alert, a, now, slot, r, ch) then
      var d := Delivery(Pending, 0, if end.Some? then end.value else now, now, ch, s.channels[ch].generation, a.status,
                        end.Some?);
      s.(dispatch := s.dispatch[(alert, ch) := Mark(a.transition, now)],
         deliveries := s.deliveries[Notice(alert, ch, a.transition, slot) := d],
         queued := s.queued + [Entry(alert, ch, a.transition, slot, now)])
    else s
  }

  ghost function QueueChannels(s: State, alert: AlertId, a: Alert, now: int, slot: int, r: Route, chs: seq<ChannelId>,
                               end: Option<int>): State {
    if chs == [] then s
    else QueueOne(QueueChannels(s, alert, a, now, slot, r, chs[..|chs| - 1], end), alert, a, now, slot, r,
                  chs[|chs| - 1], end)
  }

  predicate RouteQueues(r: Route, a: Alert, slot: int) { Matches(r, a) && !(slot != 0 && r.repeatMinutes == 0) }

  ghost function QueueRoutes(s: State, alert: AlertId, a: Alert, now: int, slot: int, routes: seq<Route>,
                             end: Option<int>): State {
    if routes == [] then s
    else
      var front, r := QueueRoutes(s, alert, a, now, slot, routes[..|routes| - 1], end), routes[|routes| - 1];
      if RouteQueues(r, a, slot) then QueueChannels(front, alert, a, now, slot, r, r.channels, end) else front
  }

  /** Reminders of one active alert: a route repeats once its interval has passed since the last change. */
  ghost function QueueReminders(s: State, alert: AlertId, a: Alert, now: int, routes: seq<Route>,
                                end: Option<int>): State {
    if routes == [] then s
    else
      var front, r := QueueReminders(s, alert, a, now, routes[..|routes| - 1], end), routes[|routes| - 1];
      if r.repeatMinutes > 0 && Matches(r, a) && now - a.lastChanged >= r.repeatMinutes * MINUTE
      then QueueRoutes(front, alert, a, now, now, [r], end)
      else front
  }

  /** New routes and reminders for the alerts in `order`; `ends` gives each alert's silence. */
  ghost function QueueActive(s: State, order: seq<AlertId>, now: int, ends: Alert -> Option<int>): State {
    if order == [] then s
    else
      var front, id := QueueActive(s, order[..|order| - 1], now, ends), order[|order| - 1];
      if id in front.alerts && front.alerts[id].status.Active? then
        var a := front.alerts[id];
        QueueReminders(QueueRoutes(front, id, a, now, 0, front.routes, ends(a)), id, a, now, front.routes, ends(a))
      else front
  }

  // ---------------------------------------------------------------- screening

  datatype Verdict = Go | Drop | Later(until: int, silenced: bool)

  /** May this delivery go out now? */
  ghost predicate Judged(s: State, id: DeliveryId, d: Delivery, now: int, v: Verdict) {
    if d.channel !in s.channels || !s.channels[d.channel].enabled || s.channels[d.channel].generation != d.generation
    then v == Drop
    else if id.Test? then v == Go
    else if id.alert !in s.alerts || s.alerts[id.alert].transition != id.transition
      || s.alerts[id.alert].status != d.shown then v == Drop
    else
      var a := s.alerts[id.alert];
      if a.stale then v == Later(now + MINUTE, false)
      else if IsSilenced(s.silences, a, now) then v.Later? && v.silenced && IsLatestEnd(s.silences, a, now, v.until)
      else if exists r :: r in s.routes && Matches(r, a) && d.channel in r.channels then v == Go
      else v == Drop
  }

  function Screened(d: Delivery, v: Verdict): Delivery {
    match v
    case Go => d
    case Drop => d.(phase := Suppressed, silenced := false)
    case Later(until, silenced) => d.(nextAt := until, silenced := silenced)
  }

  predicate Due(d: Delivery, now: int) { Waiting(d.phase) && d.nextAt <= now }

  /** One pass over the deliveries that are due. */
  ghost predicate IsScreen(s: State, now: int, t: State, verdicts: map<DeliveryId, Verdict>) {
    && t == s.(deliveries := t.deliveries) && t.deliveries.Keys == s.deliveries.Keys
    && (forall id :: id in verdicts <==> id in s.deliveries && Due(s.deliveries[id], now))
    && (forall id :: id in verdicts ==> Judged(s, id, s.deliveries[id], now, verdicts[id]))
    && (forall id :: id in s.deliveries ==>
                       t.deliveries[id] == if id in verdicts then Screened(s.deliveries[id], verdicts[id])
                         else s.deliveries[id])
  }

  /** The oldest delivery that may go out, if there is one. */
  ghost predicate IsPick(s: State, verdicts: map<DeliveryId, Verdict>, pick: Option<DeliveryId>) {
    if pick.Some? then
      && pick.value in verdicts && verdicts[pick.value].Go? && pick.value in s.deliveries
      && forall id :: id in verdicts && verdicts[id].Go? && id in s.deliveries ==>
         s.deliveries[pick.value].createdAt <= s.deliveries[id].createdAt
    else forall id :: id in verdicts ==> !verdicts[id].Go?
  }

  // ---------------------------------------------------------------- attempts

  function Pow2(n: nat): nat { if n == 0 then 1 else 2 * Pow2(n - 1) }

  function RetryDelay(attempts: nat, retryAfter: int): int {
    var delay := Pow2(attempts) * SECOND;
    var longer := if retryAfter > delay then retryAfter else delay;
    if longer > HOUR then HOUR else longer
  }

  lemma {:induction false} Pow2AtLeast(n: nat)
    ensures Pow2(n) >= n + 1
  {
    if n > 0 { Pow2AtLeast(n - 1); }
  }

  /** Every automatic retry waits between two seconds and one hour, whatever the receiver asked for. */
  lemma RetryDelayBounds(attempts: nat, retryAfter: int)
    requires attempts >= 1
    ensures 2 * SECOND <= RetryDelay(attempts, retryAfter) <= HOUR
  {
    Pow2AtLeast(attempts);
  }

  /** The waits double from two seconds to sixteen; a receiver that asks for longer gets it, up to one hour. */
  lemma RetryDelayMeans(attempts: nat, retryAfter: int)
    requires 1 <= attempts <= 4
    ensures var usual := [2, 4, 8, 16][attempts - 1] * SECOND;
            && RetryDelay(attempts, retryAfter) >= usual
            && (retryAfter <= usual ==> RetryDelay(attempts, retryAfter) == usual)
            && (usual <= retryAfter <= HOUR ==> RetryDelay(attempts, retryAfter) == retryAfter)
            && (retryAfter >= HOUR ==> RetryDelay(attempts, retryAfter) == HOUR)
  {
    assert Pow2(1) == 2 && Pow2(2) == 4 && Pow2(3) == 8 && Pow2(4) == 16;
  }

  // ---------------------------------------------------------------- trimming

  ghost function ResolvedIds(s: State): set<AlertId> { set id | id in s.alerts && s.alerts[id].status.Resolved? }

  ghost function ActiveIds(s: State): set<AlertId> { set id | id in s.alerts && s.alerts[id].status.Active? }

  ghost function TerminalIds(s: State): set<DeliveryId> {
    set id | id in s.deliveries && Terminal(s.deliveries[id].phase)
  }

  function AtMost(n: nat, limit: nat): nat { if n < limit then n else limit }

  /** Active alerts stay; of the resolved ones the newest stay. */
  ghost predicate AlertsTrimmed(s: State, t: State) {
    && (forall id :: id in t.alerts ==> id in s.alerts && t.alerts[id] == s.alerts[id])
    && ActiveIds(s) <= t.alerts.Keys
    && |ResolvedIds(t)| == AtMost(|ResolvedIds(s)|, MAX_RESOLVED)
    && (forall kept, gone :: kept in ResolvedIds(t) && gone in ResolvedIds(s) && gone !in t.alerts ==>
          s.alerts[gone].lastChanged <= s.alerts[kept].lastChanged)
  }

  /** Only sent or suppressed deliveries go, oldest first, and no more than needed. */
  ghost predicate DeliveriesTrimmed(s: State, t: State) {
    && (forall id :: id in t.deliveries ==> id in s.deliveries && t.deliveries[id] == s.deliveries[id])
    && (forall id :: id in s.deliveries && id !in t.deliveries ==> Terminal(s.deliveries[id].phase))
    && (forall kept, gone :: kept in TerminalIds(t) && gone in s.deliveries && gone !in t.deliveries ==>
          s.deliveries[gone].createdAt <= s.deliveries[kept].createdAt)
    && (|s.deliveries| <= MAX_DELIVERIES ==> t.deliveries == s.deliveries)
    && (|s.deliveries| > MAX_DELIVERIES ==>
        |t.deliveries| >= MAX_DELIVERIES && (|t.deliveries| > MAX_DELIVERIES ==> TerminalIds(t) == {}))
  }

  ghost predicate IsTrim(s: State, t: State) {
    && AlertsTrimmed(s, t) && DeliveriesTrimmed(s, t)
    && t == s.(alerts := t.alerts, deliveries := t.deliveries, dispatch := t.dispatch)
    && (forall k :: k in t.dispatch <==> k in s.dispatch && k.0 in t.alerts)
    && (forall k :: k in t.dispatch ==> t.dispatch[k] == s.dispatch[k])
  }

  ghost predicate Fits(t: State) { |ActiveIds(t)| <= MAX_ACTIVE && |t.deliveries| <= MAX_DELIVERIES }
}
