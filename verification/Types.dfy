/** The records of the runtime. Identities and generations are natural numbers with 0 for
    "none"; enumerations are their one-byte wire codes. */
module Types {

  type Byte = b: int | 0 <= b < 256

  datatype Option<+T> = None | Some(value: T)

  datatype Quantity = Quantity(value: int, unit: Byte)

  /** Half-open [start, end). */
  datatype Interval = Interval(start: int, end: int)

  predicate Contains(w: Interval, t: int) {
    w.start <= t < w.end
  }

  // ---- enumeration codes ----

  const UNIT_NONE: Byte := 0
  const UNIT_COUNT: Byte := 1
  const UNIT_BYTES: Byte := 2
  const UNIT_BYTES_PER_SECOND: Byte := 3
  const UNIT_PERCENT: Byte := 6

  const CLASS_UNKNOWN: Byte := 21

  /** The canonical unit of a resource class. */
  function UnitFor(cls: Byte): Byte {
    if cls in {2, 3, 4, 5, 6, 7, 8, 14, 18, 19} then UNIT_BYTES
    else if cls in {9, 10, 11, 12, 13} then UNIT_BYTES_PER_SECOND
    else UNIT_COUNT
  }

  const STRENGTH_HARD: Byte := 1
  const STRENGTH_UNKNOWN: Byte := 5

  const HOLDING: Byte := 3
  const HELD: Byte := 4
  const COMMITTING: Byte := 5
  const COMMITTED: Byte := 6
  const PENDING_ACTIVATION: Byte := 7
  const ACTIVATING: Byte := 8
  const ACTIVE: Byte := 9
  const PARTIALLY_CONSUMED: Byte := 10
  const CONSUMED: Byte := 11
  const MODIFYING: Byte := 12
  const RENEWING: Byte := 13
  const RELEASING: Byte := 14
  const RELEASED: Byte := 15
  const EXPIRED: Byte := 16
  const CANCELLED: Byte := 17
  const RECOVERING: Byte := 20
  const REVALIDATION_REQUIRED: Byte := 21

  /** Lifecycles that still hold capacity. */
  predicate HoldsCapacity(lifecycle: Byte) {
    lifecycle in {HOLDING, HELD, COMMITTING, COMMITTED, PENDING_ACTIVATION, ACTIVATING, ACTIVE, PARTIALLY_CONSUMED,
                  CONSUMED, MODIFYING, RENEWING, RELEASING, RECOVERING, REVALIDATION_REQUIRED}
  }

  /** Lifecycles that rest on current physical evidence. */
  predicate IsLive(lifecycle: Byte) {
    lifecycle in {ACTIVE, PARTIALLY_CONSUMED, CONSUMED}
  }

  /** Lifecycles a release, cancellation or expiry leaves behind. */
  predicate IsEnded(lifecycle: Byte) {
    lifecycle in {RELEASED, EXPIRED, CANCELLED}
  }

  const TRANSFER_ALLOWED: Byte := 2

  const HOLD_ACQUIRED: Byte := 1
  const HOLD_RELEASED: Byte := 3
  const HOLD_EXPIRED: Byte := 4
  const HOLD_COMMITTED: Byte := 5

  const TX_COMMITTED: Byte := 5

  const CONDITION_UNAVAILABLE: Byte := 2
  const CONDITION_INVALIDATED: Byte := 3

  // ---- contract terms ----

  /** The part of a request that a reservation copies and nothing in the runtime interprets. */
  datatype Terms = Terms(
    activationMode: Byte,
    workload: Option<nat>, workloadGeneration: Option<nat>, execution: Option<nat>, executionGeneration: Option<nat>,
    requiredCapabilityId: nat, capacityRequiresCapability: bool,
    preferredPool: nat, placement: nat, preferredClass: Byte, localityWeight: int,
    topologyDomain: Byte, requireLocalPlacement: bool, requireSameDriverGeneration: bool,
    priorityGeneration: nat, priorityClass: int, preemptible: bool,
    exclusivity: Byte, elasticity: Byte, renewal: Byte,
    fragmentationTolerance: int, allOrNothing: bool, provenance: seq<Byte>)

  datatype Request = Request(
    id: nat, generation: nat, resourceClass: Byte, unit: Byte, quantity: Quantity,
    partialAllowed: bool, minAcceptable: Option<Quantity>, window: Interval, durationAfterActivation: Option<int>,
    strength: Byte, owner: nat, ownerGeneration: nat, minResourceGeneration: Option<nat>,
    policyGeneration: nat, transfer: Byte, poolConstraint: nat, group: Option<nat>, targetResource: Option<nat>,
    terms: Terms)

  datatype Reservation = Reservation(
    id: nat, generation: nat, setId: nat, groupId: nat,
    strength: Byte, resourceClass: Byte, unit: Byte, resource: nat, boundGeneration: Option<nat>,
    quantity: Quantity, activated: Quantity, consumed: Quantity, window: Interval, lifecycle: Byte,
    owner: nat, ownerGeneration: nat, policyGeneration: nat, transfer: Byte, terms: Terms,
    activationGeneration: Option<nat>, consumptionGeneration: Option<nat>, releaseGeneration: Option<nat>,
    transferGeneration: Option<nat>, recoveryGeneration: Option<nat>,
    contributes: bool, persisted: bool, activatedAt: Option<int>, releasedAt: Option<int>)

  datatype Resource = Resource(
    id: nat, generation: nat, resourceClass: Byte, unit: Byte, totalCapacity: Quantity,
    pool: nat, poolGeneration: nat, owner: nat, ownerBoot: nat, capabilities: nat, topology: nat,
    contract: nat, contractGeneration: nat, available: bool)

  datatype UnavailableWindow = UnavailableWindow(interval: Interval, reason: seq<Byte>)

  datatype Publication = Publication(
    worker: nat, workerBoot: nat, id: nat, generation: nat, resourceClass: Byte, unit: Byte, totalCapacity: Quantity,
    pool: nat, poolGeneration: nat, capabilities: nat, topology: nat, contract: nat, contractGeneration: nat,
    availableFrom: int, lifetime: int, ratio: int, unavailable: seq<UnavailableWindow>)

  datatype HoldSpec = HoldSpec(
    id: nat, generation: nat, owner: nat, ownerGeneration: nat, resourceClass: Byte, unit: Byte,
    quantity: Quantity, window: Interval, policyGeneration: nat, commitAuthority: bool, provenance: seq<Byte>)

  datatype Hold = Hold(spec: HoldSpec, state: Byte, resource: nat, applied: bool, expiry: int, persisted: bool)

  datatype ReservationSet = ReservationSet(
    id: nat, generation: nat, groupId: nat, owner: nat, ownerGeneration: nat,
    allOrNothing: bool, tx: Byte, committed: bool, rolledBack: bool, persisted: bool, members: seq<nat>)

  /** Evidence a worker presents: who it is, under which boot, which generation of evidence, when. */
  datatype Evidence = Evidence(worker: nat, workerBoot: nat, generation: nat, at: int)
}
