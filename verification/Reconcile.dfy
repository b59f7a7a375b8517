/** Durable intents, observations and the verdicts drawn from them. */
module Reconcile {
  import opened Basics

  datatype Identity = Identity(provider: string, resource: string, generation: string, owner: string) {
    predicate Valid() {
      && 0 < |provider| <= 256 && 0 < |resource| <= 256
      && 0 < |generation| <= 256 && 0 < |owner| <= 256
    }
  }

  datatype Outcome = Unknown | Succeeded | Failed | RequiresReview
  datatype Source = Unspecified | OwnershipVerified | DeleteTaskCompleted | CommandAcknowledged | CommandRejected
  datatype ResourceState = Exists | Absent | Unseen | Acknowledged | Rejected
  datatype Action = Create | Delete | Command

  datatype Observation = Observation(source: Source, state: ResourceState, identity: Identity, observedAt: Option<int>)

  datatype Versions = Versions(workflow: int, plan: int, stepSchema: int) {
    predicate Current() { workflow == 1 && plan == 1 && stepSchema == 1 }
  }

  const V1 := Versions(1, 1, 1)

  datatype Intent = Intent(
    id: string, action: Action, instance: string, versions: Versions, identity: Identity,
    createdAt: int, epoch: nat, outcome: Outcome, evidence: Option<Observation>)

  /** A transport receipt: the command was acknowledged, or conclusively rejected before any effect. */
  predicate Receipt(i: Intent) {
    && i.action.Command?
    && i.evidence.Some?
    && ((i.evidence.value.source.CommandAcknowledged? && i.evidence.value.state.Acknowledged? && i.outcome.Succeeded?)
        || (i.evidence.value.source.CommandRejected? && i.evidence.value.state.Rejected? && i.outcome.Failed?))
  }

  /** The test a finishing job applies to each of its intents. */
  predicate Resolved(i: Intent) { i.outcome.Succeeded? || Receipt(i) }

  const SECOND := 1_000_000_000
  const MINUTE := 60 * SECOND

  /** Times are nanoseconds; an absent `observedAt` is the zero time. */
  function Evaluate(i: Intent, o: Observation, now: int): (r: Outcome)
    ensures r == Succeeded <==>
            && i.versions == V1 && i.identity.Valid() && o.identity == i.identity
            && o.observedAt.Some? && i.createdAt <= o.observedAt.value
            && o.observedAt.value <= now + 1_000_000_000 && now - o.observedAt.value <= 60_000_000_000
            && ((i.action == Create && o.state == Exists) || (i.action == Delete && o.state == Absent))
    ensures r == Unknown <==>
            && i.versions == V1 && i.identity.Valid()
            && (|| o.state == Unseen || o.observedAt.None? || o.observedAt.value < i.createdAt
                || o.observedAt.value > now + 1_000_000_000 || now - o.observedAt.value > 60_000_000_000)
    ensures r != Failed
  {
    if !i.versions.Current() || !i.identity.Valid() then RequiresReview
    else if o.state.Unseen? || o.observedAt.None? || o.observedAt.value < i.createdAt
            || o.observedAt.value > now + SECOND || now - o.observedAt.value > MINUTE then Unknown
    else if o.identity != i.identity then RequiresReview
    else match i.action
      case Create => if o.state.Exists? then Succeeded else RequiresReview
      case Delete => if o.state.Absent? then Succeeded else RequiresReview
      case Command => RequiresReview
  }
}
