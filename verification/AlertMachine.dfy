/**
 The alert center as a machine: the critical sections that run under its mutex, with the transport called
 between the claim of a delivery and its completion. Memory and storage are kept apart; a persist may
 fail leaving the old or the new content, and the process may die between any two steps.
 */
module AlertMachine {
  import opened Basics
  import opened AlertState

  // ---------------------------------------------------------------- observations

  datatype Observation = Observation(
    rule: string, resource: string, node: string, component: string, known: bool, active: bool, event: bool,
    severity: string, wellFormed: bool)

  predicate Acceptable(o: Observation) { o.wellFormed && Score(o.severity) > 0 }

  /** The newest alert with this rule and resource; between equally new ones any may be found. */
  ghost predicate IsCurrent(alerts: map<AlertId, Alert>, o: Observation, cur: Option<AlertId>) {
    if cur.None? then forall id :: id in alerts ==> !(alerts[id].rule == o.rule && alerts[id].resource == o.resource)
    else
      && cur.value in alerts && alerts[cur.value].rule == o.rule && alerts[cur.value].resource == o.resource
      && forall id :: id in alerts && alerts[id].rule == o.rule && alerts[id].resource == o.resource ==>
                        alerts[id].firstSeen <= alerts[cur.value].firstSeen
  }

  function FreshAlert(o: Observation, now: int, status: Status): Alert {
    Alert(o.rule, o.resource, o.node, o.component, o.severity, status, false, o.event, now, now, 1)
  }

  /** The alert after this observation, and whether that is a transition. */
  function Changed(old1: Option<Alert>, o: Observation, now: int): Option<(Alert, bool)> {
    if !o.known then
      if old1.Some? && old1.value.status.Active? then Some((old1.value.(stale := true), false)) else None
    else if o.event then
      if old1.Some? then None else Some((FreshAlert(o, now, Resolved), true))
    else if !o.active then
      if old1.Some? && old1.value.status.Active?
      then Some((old1.value.(status := Resolved, stale := false, lastChanged := now,
                             transition := old1.value.transition + 1), true))
      else None
    else if old1.None? || old1.value.status.Resolved? then Some((FreshAlert(o, now, Active), true))
    else
      var a := old1.value.(node := o.node, component := o.component, severity := o.severity, stale := false);
      if old1.value.severity != o.severity then Some((a.(lastChanged := now, transition := a.transition + 1), true))
      else Some((a, false))
  }

  /** An observation with the alert it found and the identifier a new alert would get. */
  datatype Seen = Seen(o: Observation, cur: Option<AlertId>, newId: AlertId)

  predicate Renews(old1: Option<Alert>, o: Observation) {
    old1.None? || (old1.value.status.Resolved? && o.known && o.active && !o.event)
  }

  ghost function ObserveOne(s: State, x: Seen, now: int, ends: Alert -> Option<int>): State {
    var old1 := if x.cur.Some? && x.cur.value in s.alerts then Some(s.alerts[x.cur.value]) else None;
    var r := Changed(old1, x.o, now);
    if r.None? then s
    else
      var id := if Renews(old1, x.o) then x.newId else x.cur.value;
      var s1 := s.(alerts := s.alerts[id := r.value.0]);
      if r.value.1 then QueueRoutes(s1, id, r.value.0, now, 0, s1.routes, ends(r.value.0)) else s1
  }

  ghost function ObserveAll(s: State, xs: seq<Seen>, now: int, ends: Alert -> Option<int>): State {
    if xs == [] then s else ObserveOne(ObserveAll(s, xs[..|xs| - 1], now, ends), xs[|xs| - 1], now, ends)
  }

  /** Each observation met the right alert, with identifiers nobody used before. */
  ghost predicate SeenOk(s: State, xs: seq<Seen>, now: int, ends: Alert -> Option<int>, used: set<nat>) {
    && (forall i :: 0 <= i < |xs| ==>
        Acceptable(xs[i].o) && IsCurrent(ObserveAll(s, xs[..i], now, ends).alerts, xs[i].o, xs[i].cur))
    && (forall i :: 0 <= i < |xs| ==> xs[i].newId !in used)
    && (forall i, j :: 0 <= i < j < |xs| ==> xs[i].newId != xs[j].newId)
  }

  ghost predicate EndsOk(silences: map<nat, Silence>, now: int, ends: Alert -> Option<int>) {
    forall a :: SilenceEnd(silences, a, now, ends(a))
  }

  // ---------------------------------------------------------------- other changes of the state

  function MarkStale(s: State, component: string): State {
    s.(alerts := map id | id in s.alerts ::
         if s.alerts[id].status.Active? && (component == "" || s.alerts[id].component == component)
         then s.alerts[id].(stale := true) else s.alerts[id])
  }

  function DropChannel(s: State, ch: ChannelId): State {
    s.(channels := s.channels - {ch},
       deliveries := map id | id in s.deliveries ::
         if s.deliveries[id].channel == ch && Waiting(s.deliveries[id].phase)
         then s.deliveries[id].(phase := Suppressed, silenced := false) else s.deliveries[id])
  }

  function DropSilence(s: State, k: nat, now: int): State {
    s.(silences := s.silences - {k},
       deliveries := map id | id in s.deliveries ::
         if s.deliveries[id].phase.Pending? && s.deliveries[id].silenced then s.deliveries[id].(nextAt := now)
         else s.deliveries[id])
  }

  /** The source measures texts in UTF-8 bytes. */
  function Bytes(s: string): nat {
    if s == [] then 0
    else
      var c := s[|s| - 1] as int;
      Bytes(s[..|s| - 1]) + if c < 0x80 then 1 else if c < 0x800 then 2 else if c < 0x10000 then 3 else 4
  }

  predicate Space(c: char) {
    || '\t' <= c <= '\r' || c in " \U{85}\U{a0}\U{1680}\U{2028}\U{2029}\U{202f}\U{205f}\U{3000}"
    || '\U{2000}' <= c <= '\U{200a}'
  }

  predicate Blank(s: string) { forall i :: 0 <= i < |s| ==> Space(s[i]) }

  predicate ValidId(s: string) { s != "" && Bytes(s) <= 256 && '\r' !in s && '\n' !in s && '\0' !in s && '\t' !in s }

  predicate FieldsValid(r: Route) {
    && ValidId(r.id) && !Blank(r.name) && Bytes(r.name) <= 100 && Score(r.minSeverity) > 0
    && 0 < |r.channels| <= 50 && |r.rules| <= 100 && |r.nodes| <= 100
    && 0 <= r.repeatMinutes <= 10080 && !(0 < r.repeatMinutes < 5)
  }

  predicate RouteValid(r: Route, channels: map<ChannelId, Channel>) {
    && FieldsValid(r) && (forall j :: 0 <= j < |r.channels| ==> r.channels[j] in channels)
    && (forall j :: 0 <= j < |r.rules + r.nodes| ==> ValidId((r.rules + r.nodes)[j]))
  }

  predicate RoutesValid(s: State, routes: seq<Route>) {
    && |routes| <= 100 && (forall i :: 0 <= i < |routes| ==> RouteValid(routes[i], s.channels))
    && (forall i, j :: 0 <= i < j < |routes| ==> routes[i].id != routes[j].id)
  }

  /** A route that arrives without an id gets a new one. */
  function Identified(r: Route, uuid: string): Route { if r.id == "" then r.(id := uuid) else r }

  function IdentifyAll(routes: seq<Route>, uuids: seq<string>): seq<Route>
    requires |uuids| == |routes|
  {
    seq(|routes|, i requires 0 <= i < |routes| => Identified(routes[i], uuids[i]))
  }

  predicate SilenceValid(q: Silence, now: int) {
    && q.ends > now && q.ends > q.starts && q.ends - now <= 30 * 24 * HOUR
    && !(q.rule == "" && q.node == "" && q.severity == "") && (q.severity == "" || Score(q.severity) > 0)
  }

  function PutSilence(s: State, k: nat, q: Silence, now: int): State {
    s.(silences := (map i | i in s.silences && s.silences[i].ends >= now - 24 * HOUR :: s.silences[i])[k := q])
  }

  function Requeue(s: State, id: DeliveryId, now: int): State
    requires id in s.deliveries
  {
    s.(deliveries :=
       s.deliveries[id := s.deliveries[id].(phase := Pending, attempts := 0, nextAt := now, silenced := false)])
  }

  function PutTest(s: State, ch: ChannelId, uuid: nat, now: int): State
    requires ch in s.channels
  {
    s.(deliveries :=
       s.deliveries[Test(uuid) := Delivery(Pending, 0, now, now, ch, s.channels[ch].generation, Active, false)])
  }

  ghost predicate RecentTest(s: State, ch: ChannelId, now: int) {
    exists id :: id in s.deliveries && id.Test? && s.deliveries[id].channel == ch
      && now - s.deliveries[id].createdAt < MINUTE
  }

  // ---------------------------------------------------------------- delivery

  /** A claim whose completion was never recorded is uncertain. */
  function Orphan(d: Delivery, inFlight: bool): Delivery {
    if d.phase.Sending? && !inFlight then d.(phase := Uncertain, silenced := false) else d
  }

  function Orphans(s: State, inFlight: set<DeliveryId>): State {
    s.(deliveries := map id | id in s.deliveries :: Orphan(s.deliveries[id], id in inFlight))
  }

  ghost predicate IsOrder(s: State, order: seq<AlertId>) {
    Distinct(order) && forall id :: id in order <==> id in ActiveIds(s)
  }

  function Claimed(s: State, id: DeliveryId): State
    requires id in s.deliveries
  {
    s.(deliveries := s.deliveries[id := s.deliveries[id].(phase := Sending, attempts := s.deliveries[id].attempts + 1)])
  }

  datatype Outcome = Delivered | Unclear | Refused(retryAfter: int)

  function Completed(d: Delivery, o: Outcome, now: int): Delivery {
    match o
    case Delivered => d.(phase := Sent, silenced := false)
    case Unclear => d.(phase := Uncertain, silenced := false)
    case Refused(retryAfter) =>
      if d.attempts >= MAX_ATTEMPTS then d.(phase := Failed, silenced := false)
      else d.(phase := Retrying, silenced := false, nextAt := now + RetryDelay(d.attempts, retryAfter))
  }

  /** What a restart makes of the stored state. */
  function Recover(s: State): State {
    Orphans(MarkStale(s, ""), {})
  }

  // ---------------------------------------------------------------- the world

  /** Calls of the transport, definite rejections that reached storage, and retries asked for by an operator. */
  datatype Event = Send(id: DeliveryId) | Rejected(id: DeliveryId) | Retry(id: DeliveryId)

  datatype Center = Center(state: State, inFlight: set<DeliveryId>, healthy: bool)

  /** `used` are identifiers already given out; `log` is history. */
  datatype World = World(disk: Option<State>, center: Option<Center>, used: set<nat>, log: seq<Event>)

  const FreshWorld := World(None, None, {}, [])

  ghost predicate Saves(t: State, wr: Write) { Fits(t) && wr.Landed? }

  /** Write the trimmed state `t`; only a write that landed changes memory. */
  ghost function Persist(w: World, t: State, wr: Write): World
    requires w.center.Some?
  {
    w.(disk := if Fits(t) && Stored(wr) then Some(t) else w.disk,
       center :=
         Some(if Saves(t, wr) then w.center.value.(state := t, healthy := true) else w.center.value.(healthy := false)))
  }

  /** Replace the state by `next`, trimmed to `t`. */
  ghost function Change(w: World, next: State, t: State, wr: Write): World
    requires w.center.Some?
  {
    if IsTrim(next, t) then Persist(w, t, wr) else w
  }

  ghost function Open(w: World, t: State, wr: Write): World {
    var next := Recover(if w.disk.Some? then w.disk.value else EMPTY);
    if w.center.None? && IsTrim(next, t) && Fits(t) then
      w.(disk := if Stored(wr) then Some(t) else w.disk,
         center := if wr.Landed? then Some(Center(t, {}, true)) else None)
    else w
  }

  ghost function Observe(w: World, xs: seq<Seen>, now: int, ends: Alert -> Option<int>, t: State, wr: Write): World {
    if w.center.Some? && SeenOk(w.center.value.state, xs, now, ends, w.used)
       && EndsOk(w.center.value.state.silences, now, ends) then
      Change(w, ObserveAll(w.center.value.state, xs, now, ends), t,
             wr).(used := w.used + set i | 0 <= i < |xs| :: xs[i].newId)
    else w
  }

  /** A save names an existing channel with its generation, or makes a new one. */
  ghost function SaveChannel(w: World, id: Option<ChannelId>, generation: nat, enabled: bool, newId: ChannelId,
                             t: State, wr: Write): World {
    if w.center.None? then w
    else
      var s := w.center.value.state;
      if id.Some? then
        if id.value in s.channels && s.channels[id.value].generation == generation
        then Change(w, s.(channels := s.channels[id.value := Channel(enabled, generation + 1)]), t, wr) else w
      else if |s.channels| < 50 && newId !in w.used
      then Change(w, s.(channels := s.channels[newId := Channel(enabled, 1)]), t, wr).(used := w.used + {newId}) else w
  }

  ghost function DeleteChannel(w: World, ch: ChannelId, t: State, wr: Write): World {
    if w.center.Some? && ch in w.center.value.state.channels
       && (forall r :: r in w.center.value.state.routes ==> ch !in r.channels)
    then Change(w, DropChannel(w.center.value.state, ch), t, wr) else w
  }

  ghost function SaveRoutes(w: World, revision: nat, routes: seq<Route>, t: State, wr: Write): World {
    if w.center.Some? && revision == w.center.value.state.revision && RoutesValid(w.center.value.state, routes)
    then Change(w, w.center.value.state.(routes := routes, revision := revision + 1), t, wr) else w
  }

  ghost function AddSilence(w: World, k: nat, q: Silence, now: int, t: State, wr: Write): World {
    if w.center.Some? && SilenceValid(q, now) && k !in w.used
       && |PutSilence(w.center.value.state, k, q, now).silences - {k}| < 1000
    then Change(w, PutSilence(w.center.value.state, k, q, now), t, wr).(used := w.used + {k}) else w
  }

  ghost function DeleteSilence(w: World, k: nat, now: int, t: State, wr: Write): World {
    if w.center.Some? && k in w.center.value.state.silences
    then Change(w, DropSilence(w.center.value.state, k, now), t, wr) else w
  }

  predicate Retryable(s: State, id: DeliveryId) {
    id in s.deliveries && (s.deliveries[id].phase.Failed? || s.deliveries[id].phase.Uncertain?)
  }

  ghost function RetryDelivery(w: World, id: DeliveryId, now: int, t: State, wr: Write): World {
    if w.center.Some? && Retryable(w.center.value.state, id) && IsTrim(Requeue(w.center.value.state, id, now), t)
    then Persist(w, t, wr).(log := if Fits(t) && Stored(wr) then w.log + [Retry(id)] else w.log) else w
  }

  ghost function TestChannel(w: World, ch: ChannelId, uuid: nat, now: int, t: State, wr: Write): World {
    if w.center.Some? && ch in w.center.value.state.channels && w.center.value.state.channels[ch].enabled
       && !RecentTest(w.center.value.state, ch, now) && uuid !in w.used
    then Change(w, PutTest(w.center.value.state, ch, uuid, now), t, wr).(used := w.used + {uuid}) else w
  }

  ghost function ImportLegacy(w: World, enabled: bool, minSeverity: string, newId: ChannelId, routeId: string,
                              configured: bool, t: State, wr: Write): World {
    if w.center.None? || w.center.value.state.migrated || newId in w.used then w
    else
      var s := w.center.value.state.(migrated := true);
      var r := Route(routeId, "Migrated Telegram", enabled, if Score(minSeverity) == 0 then "info" else minSeverity, [],
                     [], [newId], true, 0);
      var next := if configured
                  then s.(channels := s.channels[newId := Channel(enabled, 1)], routes := s.routes + [r],
                          revision := s.revision + 1) else s;
      Change(w, next, t, wr).(used := w.used + {newId})
  }

  ghost function MarkObservationsStale(w: World, component: string, t: State, wr: Write): World {
    if w.center.Some? then Change(w, MarkStale(w.center.value.state, component), t, wr) else w
  }

  /** The choices a claim makes: the order of alerts, the verdicts, and the delivery picked. */
  datatype Plan = Plan(order: seq<AlertId>, screened: State, verdicts: map<DeliveryId, Verdict>,
                       pick: Option<DeliveryId>)

  ghost function Prepared(c: Center, order: seq<AlertId>, now: int, ends: Alert -> Option<int>): State {
    QueueActive(Orphans(c.state, c.inFlight), order, now, ends)
  }

  ghost predicate PlanOk(c: Center, p: Plan, now: int, ends: Alert -> Option<int>) {
    && EndsOk(c.state.silences, now, ends) && IsOrder(c.state, p.order)
    && IsScreen(Prepared(c, p.order, now, ends), now, p.screened, p.verdicts)
    && IsPick(Prepared(c, p.order, now, ends), p.verdicts, p.pick)
    && (p.pick.Some? ==> p.pick.value in p.screened.deliveries)
  }

  ghost function NextClaim(p: Plan): State
    requires p.pick.Some? ==> p.pick.value in p.screened.deliveries
  {
    if p.pick.Some? then Claimed(p.screened, p.pick.value) else p.screened
  }

  /** First half of a delivery: everything up to handing the message to the transport. */
  ghost function Claim(w: World, p: Plan, now: int, ends: Alert -> Option<int>, sender: bool, t: State,
                       wr: Write): World {
    if w.center.None? || !PlanOk(w.center.value, p, now, ends) || !IsTrim(NextClaim(p), t) || (p.pick.Some? && !sender)
    then w
    else
      var w1 := Persist(w, t, wr);
      if p.pick.Some? && Saves(t, wr)
      then w1.(center := Some(w1.center.value.(inFlight := w1.center.value.inFlight + {p.pick.value})),
               log := w.log + [Send(p.pick.value)])
      else w1
  }

  /** Second half: the transport has answered. */
  ghost function Finish(w: World, id: DeliveryId, o: Outcome, now: int, t: State, wr: Write): World {
    if w.center.None? || id !in w.center.value.inFlight then w
    else
      var c := w.center.value.(inFlight := w.center.value.inFlight - {id});
      var w0 := w.(center := Some(c));
      if id !in c.state.deliveries then w0
      else
        var next := c.state.(deliveries := c.state.deliveries[id := Completed(c.state.deliveries[id], o, now)]);
        if !IsTrim(next, t) then w
        else Persist(w0, t, wr).(log := if o.Refused? && Fits(t) && Stored(wr) then w.log + [Rejected(id)] else w.log)
  }

  datatype Step =
    | SOpen(t: State, wr: Write)
    | SCrash
    | SObserve(xs: seq<Seen>, now: int, ends: Alert -> Option<int>, t: State, wr: Write)
    | SMarkStale(component: string, t: State, wr: Write)
    | SSaveChannel(channel: Option<ChannelId>, generation: nat, enabled: bool, newId: ChannelId, t: State, wr: Write)
    | SDeleteChannel(ch: ChannelId, t: State, wr: Write)
    | SSaveRoutes(revision: nat, routes: seq<Route>, t: State, wr: Write)
    | SAddSilence(k: nat, q: Silence, now: int, t: State, wr: Write)
    | SDeleteSilence(k: nat, now: int, t: State, wr: Write)
    | SRetry(id: DeliveryId, now: int, t: State, wr: Write)
    | STest(ch: ChannelId, uuid: nat, now: int, t: State, wr: Write)
    | SImport(enabled: bool, minSeverity: string, newId: ChannelId, routeId: string, configured: bool, t: State,
              wr: Write)
    | SClaim(plan: Plan, now: int, ends: Alert -> Option<int>, sender: bool, t: State, wr: Write)
    | SFinish(id: DeliveryId, o: Outcome, now: int, t: State, wr: Write)

  ghost function Apply(w: World, s: Step): World {
    match s
    case SOpen(t, wr) => Open(w, t, wr)
    case SCrash => w.(center := None)
    case SObserve(xs, now, ends, t, wr) => Observe(w, xs, now, ends, t, wr)
    case SMarkStale(component, t, wr) => MarkObservationsStale(w, component, t, wr)
    case SSaveChannel(channel, generation, enabled, newId, t, wr) =>
      SaveChannel(w, channel, generation, enabled, newId, t, wr)
    case SDeleteChannel(ch, t, wr) => DeleteChannel(w, ch, t, wr)
    case SSaveRoutes(revision, routes, t, wr) => SaveRoutes(w, revision, routes, t, wr)
    case SAddSilence(k, q, now, t, wr) => AddSilence(w, k, q, now, t, wr)
    case SDeleteSilence(k, now, t, wr) => DeleteSilence(w, k, now, t, wr)
    case SRetry(id, now, t, wr) => RetryDelivery(w, id, now, t, wr)
    case STest(ch, uuid, now, t, wr) => TestChannel(w, ch, uuid, now, t, wr)
    case SImport(enabled, minSeverity, newId, routeId, configured, t, wr) =>
      ImportLegacy(w, enabled, minSeverity, newId, routeId, configured, t, wr)
    case SClaim(plan, now, ends, sender, t, wr) => Claim(w, plan, now, ends, sender, t, wr)
    case SFinish(id, o, now, t, wr) => Finish(w, id, o, now, t, wr)
  }

  ghost function Run(steps: seq<Step>): World {
    if steps == [] then FreshWorld else Apply(Run(steps[..|steps| - 1]), steps[|steps| - 1])
  }
}
