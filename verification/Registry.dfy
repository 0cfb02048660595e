/** The reservation runtime as a state and its public operations, each one atomic step. Time
    is an argument; the order in which a hash map is walked is an argument `order`. */
module Registry {
  import opened Types
  import opened Levels
  import opened Envelopes
  import Int64

  datatype Config = Config(maxHistory: nat, maxHolds: nat, horizon: nat)

  datatype State = State(
    config: Config, epoch: nat, authority: nat,
    resources: map<nat, Resource>, envelopes: map<nat, Envelope>, workerBoots: map<nat, nat>,
    requests: map<nat, nat>, reservations: map<nat, Reservation>, currentGen: map<nat, nat>,
    history: map<nat, seq<Reservation>>, sets: map<nat, ReservationSet>, holds: map<nat, Hold>,
    nextReservationId: nat, nextHoldId: nat, nextSetId: nat)

  const DEFAULT_HORIZON: nat := 365 * 24 * 3600 * 1_000_000_000
  const HOLD_LEASE: nat := 900 * 1_000_000_000

  function NewState(maxHistory: nat, maxHolds: nat, horizon: nat): State {
    State(Config(maxHistory, maxHolds, if horizon == 0 then DEFAULT_HORIZON else horizon), 1, 1,
          map[], map[], map[], map[], map[], map[], map[], map[], map[], 1, 1, 1)
  }

  function Fold(s: State, order: seq<nat>, f: (State, nat) -> State): State {
    if order == [] then s else f(Fold(s, order[..|order| - 1], f), order[|order| - 1])
  }

  // ---- contributions to envelopes ----

  function AddCommitted(e: Envelope, strength: Byte, w: Interval, q: int): Envelope {
    if strength == STRENGTH_HARD then AddHard(e, w, q) else AddSoft(e, w, q)
  }

  predicate CanContribute(s: State, r: Reservation) {
    r.resource in s.envelopes && !r.contributes
  }

  predicate CanWithdraw(s: State, r: Reservation) {
    r.resource in s.envelopes && r.contributes
  }

  /** The envelopes after `r` is added, if it is not yet contributing. */
  function Contribute(s: State, r: Reservation): (State, Reservation) {
    if CanContribute(s, r) then
      (s.(envelopes := s.envelopes[r.resource := AddCommitted(s.envelopes[r.resource], r.strength, r.window, r.quantity.value)]),
       r.(contributes := true))
    else (s, r)
  }

  function Withdraw(s: State, r: Reservation): (State, Reservation) {
    if CanWithdraw(s, r) then
      (s.(envelopes := s.envelopes[r.resource := AddCommitted(s.envelopes[r.resource], r.strength, r.window, -r.quantity.value)]),
       r.(contributes := false))
    else (s, r)
  }

  function Put(s: State, id: nat, r: Reservation): State {
    s.(reservations := s.reservations[id := r])
  }

  function Held(s: State, resource: nat, w: Interval, q: int): State {
    if resource in s.envelopes then s.(envelopes := s.envelopes[resource := AddHeld(s.envelopes[resource], w, q)]) else s
  }

  // ---- admission ----

  predicate ValidRequest(r: Request) {
    && r.id != 0 && r.generation != 0
    && r.resourceClass != CLASS_UNKNOWN && r.unit != UNIT_NONE
    && r.quantity.value > 0 && r.unit == UnitFor(r.resourceClass)
    && (r.partialAllowed ==>
          r.minAcceptable.Some? && r.minAcceptable.value.unit == r.unit
          && 0 < r.minAcceptable.value.value <= r.quantity.value)
    && (r.durationAfterActivation.Some? ==> r.durationAfterActivation.value != 0)
    && r.owner != 0 && r.ownerGeneration != 0
    && r.strength != STRENGTH_UNKNOWN
    && (r.quantity.unit == UNIT_PERCENT ==> r.quantity.value <= 100)
  }

  predicate Matches(req: Request, id: nat, res: Resource) {
    && (req.targetResource.Some? ==> id == req.targetResource.value)
    && (req.resourceClass != CLASS_UNKNOWN ==> res.resourceClass == req.resourceClass)
    && res.unit == req.unit
    && res.available
    && (req.minResourceGeneration.Some? ==> req.minResourceGeneration.value <= res.generation)
  }

  function Candidates(s: State, req: Request): set<nat> {
    set id | id in s.resources && Matches(req, id, s.resources[id])
  }

  function Headroom(s: State, hard: bool, w: Interval, id: nat): int {
    if id !in s.envelopes then 0
    else if hard then MinHardHeadroom(s.envelopes[id], w) else MinSoftHeadroom(s.envelopes[id], w)
  }

  predicate Better(s: State, hard: bool, w: Interval, a: nat, b: nat) {
    var ha, hb := Headroom(s, hard, w, a), Headroom(s, hard, w, b);
    ha > hb || (ha == hb && a < b)
  }

  /** Greatest headroom, least identity on ties. */
  ghost predicate IsBest(s: State, hard: bool, w: Interval, ids: set<nat>, best: nat) {
    best in ids && forall id :: id in ids && id != best ==> Better(s, hard, w, best, id)
  }

  ghost function Best(s: State, hard: bool, w: Interval, ids: set<nat>): (best: nat)
    requires ids != {}
    ensures IsBest(s, hard, w, ids, best)
  {
    var id :| id in ids;
    assert forall x :: x in ids && x != id ==> x in ids - {id};
    if ids - {id} == {} then id
    else
      var b := Best(s, hard, w, ids - {id});
      if Better(s, hard, w, id, b) then id else b
  }

  datatype Verdict = Admissible | AdmissibleWithModification | Rejected

  datatype Report = Report(verdict: Verdict, resource: nat)

  predicate Admitted(r: Report) {
    r.verdict != Rejected
  }

  /** The request repeats one whose reservation still holds capacity. */
  predicate IsDuplicate(s: State, req: Request) {
    req.id in s.requests && s.requests[req.id] in s.reservations
    && HoldsCapacity(s.reservations[s.requests[req.id]].lifecycle)
  }

  ghost function Assess(s: State, req: Request): Report {
    if !ValidRequest(req) || IsDuplicate(s, req) then Report(Rejected, 0)
    else
      var ids := Candidates(s, req);
      if ids == {} then Report(Rejected, 0)
      else
        var best := Best(s, req.strength == STRENGTH_HARD, req.window, ids);
        var h := Headroom(s, req.strength == STRENGTH_HARD, req.window, best);
        if h >= req.quantity.value then Report(Admissible, best)
        else if req.partialAllowed && req.minAcceptable.Some? && h >= req.minAcceptable.value.value then
          Report(AdmissibleWithModification, best)
        else Report(Rejected, 0)
  }

  // ---- holds ----

  predicate ValidSpec(spec: HoldSpec) {
    && spec.id != 0 && spec.generation != 0
    && spec.quantity.value > 0
    && spec.unit == spec.quantity.unit && spec.unit == UnitFor(spec.resourceClass)
  }

  const NO_TERMS: Terms := Terms(1, None, None, None, None, 0, false, 0, 0, CLASS_UNKNOWN, 0, 0, false, false, 0, 0, false, 1, 1, 1, 0, true, [])

  /** The hard request a hold is admitted as; it names no target resource. */
  function Probe(spec: HoldSpec): Request {
    Request(0, 1, spec.resourceClass, spec.unit, spec.quantity, false, None, spec.window, None, STRENGTH_HARD,
            spec.owner, spec.ownerGeneration, None, spec.policyGeneration, 1, 0, None, None, NO_TERMS)
  }

  ghost function AcquireHold(s: State, spec: HoldSpec, now: int): (State, bool) {
    if !ValidSpec(spec) || |s.holds| >= s.config.maxHolds then (s, false)
    else
      var ids := Candidates(s, Probe(spec));
      if ids == {} then (s, false)
      else
        var best := Best(s, true, spec.window, ids);
        if Headroom(s, true, spec.window, best) < spec.quantity.value then (s, false)
        else
          var h := Hold(spec, HOLD_ACQUIRED, best, true, now + HOLD_LEASE, false);
          (Held(s.(holds := s.holds[spec.id := h]), best, spec.window, spec.quantity.value), true)
  }

  /** Takes a hold off its envelope, leaving it in the given state. */
  function DropHold(s: State, id: nat, state: Byte): State
    requires id in s.holds
  {
    var h := s.holds[id];
    var s1 := if h.applied then Held(s, h.resource, h.spec.window, -h.spec.quantity.value) else s;
    s1.(holds := s1.holds[id := h.(applied := false, state := state)])
  }

  /** Rollback of a provisional hold. */
  function ReleaseProvisional(s: State, id: nat): State {
    if id !in s.holds then s
    else if s.holds[id].state in {HOLD_RELEASED, HOLD_EXPIRED, HOLD_COMMITTED} then
      s.(holds := s.holds[id := s.holds[id].(state := HOLD_RELEASED, applied := false)])
    else DropHold(s, id, HOLD_RELEASED)
  }

  datatype Outcome<+T> = Done(value: T) | Refused

  function ReleaseHold(s: State, id: nat, generation: nat): (State, Outcome<()>) {
    if id !in s.holds || s.holds[id].spec.generation != generation then (s, Refused)
    else if s.holds[id].state in {HOLD_RELEASED, HOLD_EXPIRED} then (s, Done(()))
    else (DropHold(s, id, HOLD_RELEASED), Done(()))
  }

  function ExpireHold(s: State, now: int, id: nat): State {
    if id in s.holds && s.holds[id].state == HOLD_ACQUIRED && s.holds[id].expiry < now then DropHold(s, id, HOLD_EXPIRED)
    else s
  }

  function ExpireHolds(s: State, now: int, order: seq<nat>): State {
    Fold(s, order, (x: State, id: nat) => ExpireHold(x, now, id))
  }

  // ---- commit ----

  function ReservationOf(req: Request, resource: nat, bound: nat, id: nat, generation: nat): Reservation {
    Reservation(id, generation, 0, 0, req.strength, req.resourceClass, req.unit, resource, Some(bound),
                req.quantity, Quantity(0, UNIT_COUNT), Quantity(0, UNIT_COUNT), req.window, COMMITTED,
                req.owner, req.ownerGeneration, req.policyGeneration, req.transfer, req.terms,
                None, None, None, None, None, false, false, None, None)
  }

  ghost predicate CommitAllowed(s: State, req: Request, hold: Option<nat>) {
    var rep := Assess(s, req);
    && Admitted(rep) && rep.resource in s.resources
    && (hold.Some? ==> hold.value in s.holds && s.holds[hold.value].state == HOLD_ACQUIRED && s.holds[hold.value].resource == rep.resource)
  }

  function NextGeneration(s: State, id: nat): nat {
    if id in s.currentGen then s.currentGen[id] + 1 else 1
  }

  /** The reservation a successful commit creates, before it contributes. */
  ghost function NewReservation(s: State, req: Request): Reservation
    requires Assess(s, req).resource in s.resources
  {
    var resource := Assess(s, req).resource;
    var id := s.nextReservationId + 1;
    ReservationOf(req, resource, s.resources[resource].generation, id, NextGeneration(s, id))
  }

  ghost function CommitOne(s: State, req: Request, hold: Option<nat>): (State, Outcome<nat>) {
    if !CommitAllowed(s, req, hold) then (s, Refused)
    else
      var r := NewReservation(s, req);
      var s1 := s.(nextReservationId := r.id, currentGen := s.currentGen[r.id := r.generation]);
      var (s2, r2) := Contribute(s1, r);
      var s3 := Put(s2, r.id, r2).(requests := if req.id in s.requests then s.requests else s.requests[req.id := r.id]);
      var s4 := if hold.None? then s3
                else
                  var h := s3.holds[hold.value];
                  var s5 := Held(s3, h.resource, h.spec.window, -h.spec.quantity.value);
                  s5.(holds := s5.holds[hold.value := h.(applied := false, state := HOLD_COMMITTED)]);
      (s4, Done(r.id))
  }

  ghost function Commit(s: State, req: Request, hold: Option<nat>): (State, Outcome<nat>) {
    if hold.Some? && hold.value !in s.holds then (s, Refused) else CommitOne(s, req, hold)
  }

  // ---- bundles ----

  function MemberSpec(m: Request, id: nat): HoldSpec {
    HoldSpec(id, 1, m.owner, m.ownerGeneration, m.resourceClass, m.unit, m.quantity, m.window, m.policyGeneration, true, [])
  }

  /** Phase two: one provisional hold per member under the next hold identities. */
  ghost function AcquireAll(s: State, members: seq<Request>, now: int): (State, bool)
    decreases |members|
  {
    if members == [] then (s, true)
    else
      var id := s.nextHoldId + 1;
      var (s1, ok) := AcquireHold(s.(nextHoldId := id), MemberSpec(members[0], id), now);
      if !ok then (s1, false) else AcquireAll(s1, members[1..], now)
  }

  function ReleaseRange(s: State, from: nat, to: int): State
    decreases if from < to then to - from else 0
  {
    if from >= to then s else ReleaseRange(ReleaseProvisional(s, from + 1), from + 1, to)
  }

  /** Phase three: commit each member against its hold; the hold of member i has identity
      `firstHold + i + 1`. Stops at the first refusal and reports how many were committed. */
  ghost function CommitAll(s: State, members: seq<Request>, firstHold: nat): (State, nat)
    decreases |members|
  {
    if members == [] then (s, 0)
    else
      var (s1, out) := CommitOne(s, members[0], Some(firstHold + 1));
      if out.Refused? then (s1, 0)
      else
        var (s2, n) := CommitAll(s1, members[1..], firstHold + 1);
        (s2, n + 1)
  }

  function CancelMember(s: State, id: nat): State {
    if id !in s.reservations then s
    else
      var (s1, r) := Withdraw(s, s.reservations[id]);
      Put(s1, id, r.(lifecycle := CANCELLED))
  }

  /** Cancels reservations `from + 1 .. to`. */
  function CancelRange(s: State, from: nat, to: nat): State
    decreases if from < to then to - from else 0
  {
    if from >= to then s else CancelRange(CancelMember(s, from + 1), from + 1, to)
  }

  function BundleSet(s: State, members: seq<Request>): ReservationSet {
    var ids := seq(|members|, i requires 0 <= i => s.nextReservationId + 1 + i);
    var owner := if members == [] then 0 else members[0].owner;
    var ownerGeneration := if members == [] then 0 else members[0].ownerGeneration;
    ReservationSet(s.nextSetId + 1, 1, 0, owner, ownerGeneration, true, TX_COMMITTED, true, false, false, ids)
  }

  /** Undoes a stopped phase three: `n` members were committed, the rest still only held. */
  function RollBack(s: State, firstReservation: nat, firstHold: nat, n: nat, members: nat): State {
    ReleaseRange(CancelRange(s, firstReservation, firstReservation + n), firstHold + n, firstHold + members)
  }

  ghost predicate AllAdmitted(s: State, members: seq<Request>) {
    forall i :: 0 <= i < |members| ==> Admitted(Assess(s, members[i]))
  }

  ghost function CommitBundle(s: State, members: seq<Request>, now: int): (State, Outcome<seq<nat>>) {
    var s0 := s.(nextSetId := s.nextSetId + 1);
    if !AllAdmitted(s0, members) then (s0, Refused)
    else
      var (s1, held) := AcquireAll(s0, members, now);
      if !held then (ReleaseRange(s1, s.nextHoldId, s1.nextHoldId - 1), Refused)
      else
        var (s2, n) := CommitAll(s1, members, s.nextHoldId);
        if n < |members| then (RollBack(s2, s.nextReservationId, s.nextHoldId, n, |members|), Refused)
        else
          var made := BundleSet(s, members);
          (s2.(sets := s2.sets[made.id := made]), Done(made.members))
  }

  // ---- lifecycle ----

  predicate IsCurrent(s: State, id: nat, generation: nat) {
    id in s.reservations && s.reservations[id].generation == generation
  }

  /** Evidence comes from the worker that owns the resource, under the boot it published with. */
  predicate Fresh(s: State, resource: nat, worker: nat, boot: nat) {
    && resource in s.resources && s.resources[resource].available
    && worker == s.resources[resource].owner && boot == s.resources[resource].ownerBoot
  }

  datatype Activation = Activated | Revalidate | ActivationRefused

  function Activate(s: State, id: nat, generation: nat, e: Evidence): (State, Activation) {
    if !IsCurrent(s, id, generation) then (s, ActivationRefused)
    else
      var r := s.reservations[id];
      if r.lifecycle == ACTIVE then (s, Activated)
      else if r.resource !in s.resources then (s, ActivationRefused)
      else
        var res := s.resources[r.resource];
        var advanced := r.boundGeneration.Some? && res.generation > r.boundGeneration.value;
        if !res.available || advanced then (Put(s, id, r.(lifecycle := REVALIDATION_REQUIRED)), Revalidate)
        else if !(e.worker == res.owner && e.workerBoot == res.ownerBoot) then (s, ActivationRefused)
        else if !Contains(r.window, e.at) then (s, ActivationRefused)
        else if r.activationGeneration.Some? && e.generation < r.activationGeneration.value then (s, ActivationRefused)
        else if r.lifecycle !in {COMMITTED, PENDING_ACTIVATION, ACTIVATING} then (s, ActivationRefused)
        else
          (Put(s, id, r.(lifecycle := ACTIVE, activatedAt := Some(e.at), activationGeneration := Some(e.generation), activated := r.quantity)),
           Activated)
  }

  datatype Consumption = Accepted | Replayed | ConsumptionRefused

  function Consume(s: State, id: nat, generation: nat, amount: Quantity, e: Evidence): (State, Consumption) {
    if !IsCurrent(s, id, generation) then (s, ConsumptionRefused)
    else
      var r := s.reservations[id];
      if !IsLive(r.lifecycle) then (s, ConsumptionRefused)
      else if amount.value <= 0 || amount.unit != r.unit then (s, ConsumptionRefused)
      else if !Fresh(s, r.resource, e.worker, e.workerBoot) then (s, ConsumptionRefused)
      else if r.consumptionGeneration.Some? && e.generation < r.consumptionGeneration.value then (s, ConsumptionRefused)
      else if r.consumptionGeneration.Some? && e.generation == r.consumptionGeneration.value then (s, Replayed)
      else if amount.value > r.quantity.value - r.consumed.value then (s, ConsumptionRefused)
      else
        var consumed := Quantity(r.consumed.value + amount.value, r.unit);
        (Put(s, id, r.(consumed := consumed, consumptionGeneration := Some(e.generation),
                       lifecycle := if consumed == r.quantity then CONSUMED else PARTIALLY_CONSUMED)),
         Accepted)
  }

  datatype Release = ReleasedNow | ReleasedBefore | ReleaseRefused

  function ReleaseReservation(s: State, id: nat, generation: nat, e: Evidence): (State, Release) {
    if !IsCurrent(s, id, generation) then (s, ReleaseRefused)
    else
      var r := s.reservations[id];
      if IsEnded(r.lifecycle) then (s, ReleasedBefore)
      else if !Fresh(s, r.resource, e.worker, e.workerBoot) then (s, ReleaseRefused)
      else if r.releaseGeneration.Some? && e.generation < r.releaseGeneration.value then (s, ReleaseRefused)
      else
        var (s1, r1) := Withdraw(s, r);
        (Put(s1, id, r1.(lifecycle := RELEASED, releasedAt := Some(e.at), releaseGeneration := Some(e.generation))), ReleasedNow)
  }

  function Cancel(s: State, id: nat, generation: nat): (State, Outcome<()>) {
    if !IsCurrent(s, id, generation) then (s, Refused)
    else if IsEnded(s.reservations[id].lifecycle) then (s, Done(()))
    else
      var (s1, r) := Withdraw(s, s.reservations[id]);
      (Put(s1, id, r.(lifecycle := CANCELLED)), Done(()))
  }

  predicate IsDue(s: State, now: int, id: nat) {
    id in s.reservations && HoldsCapacity(s.reservations[id].lifecycle) && s.reservations[id].window.end < now
  }

  function ExpireOne(s: State, now: int, id: nat): State {
    if !IsDue(s, now, id) then s
    else
      var (s1, r) := Withdraw(s, s.reservations[id]);
      Put(s1, id, r.(lifecycle := EXPIRED, releasedAt := Some(now)))
  }

  function ExpireDue(s: State, now: int, order: seq<nat>): State {
    Fold(s, order, (x: State, id: nat) => ExpireOne(x, now, id))
  }

  // ---- modification ----

  /** Bounded history: the newest record goes to the back, the oldest falls off the front. */
  function Remembered(h: seq<Reservation>, r: Reservation, bound: nat): seq<Reservation> {
    var g := h + [r];
    if |g| > bound then g[1..] else g
  }

  function HistoryOf(s: State, id: nat): seq<Reservation> {
    if id in s.history then s.history[id] else []
  }

  /** The old record goes to history and the new one becomes the live generation. */
  function Supersede(s: State, id: nat, old_: Reservation, new_: Reservation): State {
    s.(history := s.history[id := Remembered(HistoryOf(s, id), old_.(contributes := false), s.config.maxHistory)],
       currentGen := s.currentGen[id := new_.generation],
       reservations := s.reservations[id := new_])
  }

  /** A refused change puts the contribution back. */
  function Restore(s: State, id: nat, r: Reservation): State {
    var (s1, r1) := Contribute(s, r);
    Put(s1, id, r1)
  }

  /** An accepted change makes the new record the live generation. */
  function Adopt(s: State, id: nat, old_: Reservation, new_: Reservation): State {
    var (s1, n) := Contribute(s, new_);
    Supersede(s1, id, old_, n)
  }

  /** The resized record. It is flagged as contributing before it is added to the envelope, so
      the addition returns at once. */
  function Resized(r: Reservation, generation: nat, q: Quantity, policyGeneration: nat): Reservation {
    r.(generation := generation, quantity := q, policyGeneration := policyGeneration, lifecycle := COMMITTED,
    activationGeneration := None, consumed := Quantity(0, r.unit), activated := Quantity(0, r.unit), contributes := true)
  }

  function Renewed(r: Reservation, generation: nat, w: Interval, policyGeneration: nat): Reservation {
    r.(generation := generation, window := w, policyGeneration := policyGeneration, lifecycle := COMMITTED,
    activationGeneration := None, contributes := true)
  }

  function Resize(s: State, id: nat, generation: nat, q: Quantity, policyGeneration: nat): (State, Outcome<nat>) {
    if !IsCurrent(s, id, generation) then (s, Refused)
    else
      var r := s.reservations[id];
      if q.value <= 0 || q.unit != r.unit || policyGeneration < r.policyGeneration then (s, Refused)
      else
        var (s1, r1) := Withdraw(s, r);
        if Headroom(s1, r.strength == STRENGTH_HARD, r.window, r.resource) < q.value then (Restore(s1, id, r1), Refused)
        else (Adopt(s1, id, r1, Resized(r1, NextGeneration(s, id), q, policyGeneration)), Done(NextGeneration(s, id)))
  }

  function Renew(s: State, id: nat, generation: nat, w: Interval, policyGeneration: nat): (State, Outcome<nat>) {
    if !IsCurrent(s, id, generation) then (s, Refused)
    else
      var r := s.reservations[id];
      if policyGeneration < r.policyGeneration then (s, Refused)
      else
        var (s1, r1) := Withdraw(s, r);
        if Headroom(s1, r.strength == STRENGTH_HARD, w, r.resource) < r.quantity.value then (Restore(s1, id, r1), Refused)
        else (Adopt(s1, id, r1, Renewed(r1, NextGeneration(s, id), w, policyGeneration)), Done(NextGeneration(s, id)))
  }

  function Transfer(s: State, id: nat, generation: nat, owner: nat, ownerGeneration: nat, e: Evidence): (State, Outcome<nat>) {
    if !IsCurrent(s, id, generation) then (s, Refused)
    else
      var r := s.reservations[id];
      if r.transfer != TRANSFER_ALLOWED || owner == 0 || ownerGeneration == 0 || !Fresh(s, r.resource, e.worker, e.workerBoot) then (s, Refused)
      else
        var n := r.(generation := NextGeneration(s, id), owner := owner, ownerGeneration := ownerGeneration,
        transferGeneration := Some(1), lifecycle := COMMITTED, activationGeneration := None);
        (Supersede(s, id, r, n), Done(n.generation))
  }

  // ---- resources ----

  datatype Registration = RegisteredNew | Replaced | Stale | Invalid | DuplicateGeneration

  predicate BootIsStale(s: State, worker: nat, boot: nat) {
    worker in s.workerBoots && boot < s.workerBoots[worker]
  }

  function ResourceOf(p: Publication): Resource {
    Resource(p.id, p.generation, p.resourceClass, p.unit, p.totalCapacity, p.pool, p.poolGeneration, p.worker, p.workerBoot,
             p.capabilities, p.topology, p.contract, p.contractGeneration, true)
  }

  function WithUnavailable(e: Envelope, ws: seq<UnavailableWindow>): Envelope {
    if ws == [] then e
    else
      var d := WithUnavailable(e, ws[..|ws| - 1]);
      var w := ws[|ws| - 1].interval;
      if w.end <= e.origin || e.origin + e.horizon <= w.start then d else SetUnavailable(d, w, 0)
  }

  function PublishedEnvelope(s: State, p: Publication): Envelope {
    WithUnavailable(FreshEnvelope(p.unit, p.totalCapacity, p.ratio, p.availableFrom, s.config.horizon), p.unavailable)
  }

  function Demoted(r: Reservation): Reservation {
    if IsLive(r.lifecycle) then r.(lifecycle := REVALIDATION_REQUIRED) else r
  }

  /** One reservation of a replaced resource: added to the new envelope if it is not flagged. */
  function Readmit(s: State, resource: nat, id: nat): State {
    if id in s.reservations && s.reservations[id].resource == resource && HoldsCapacity(s.reservations[id].lifecycle) then
      var (s1, r) := Contribute(s, s.reservations[id]);
      Put(s1, id, Demoted(r))
    else s
  }

  function PublishResource(s: State, p: Publication, order: seq<nat>): (State, Registration) {
    if p.totalCapacity.value <= 0 || p.totalCapacity.unit != p.unit then (s, Invalid)
    else if p.id == 0 || p.generation == 0 || p.worker == 0 || p.workerBoot == 0 then (s, Invalid)
    else if BootIsStale(s, p.worker, p.workerBoot) then (s, Stale)
    else
      var s1 := s.(workerBoots := s.workerBoots[p.worker := p.workerBoot]);
      if p.id in s.resources && p.generation < s.resources[p.id].generation then (s1, Stale)
      else if p.id in s.resources && p.generation == s.resources[p.id].generation then (s1, DuplicateGeneration)
      else
        var s2 := s1.(resources := s.resources[p.id := ResourceOf(p)], envelopes := s.envelopes[p.id := PublishedEnvelope(s, p)]);
        if p.id !in s.resources then (s2, RegisteredNew)
        else (Fold(s2, order, (x: State, id: nat) => Readmit(x, p.id, id)), Replaced)
  }

  function Invalidated(r: Reservation, resource: nat): Reservation {
    if r.resource == resource && HoldsCapacity(r.lifecycle) then r.(lifecycle := REVALIDATION_REQUIRED) else r
  }

  function InvalidateResource(s: State, id: nat): (State, Outcome<()>) {
    if id !in s.resources then (s, Refused)
    else
      (s.(resources := s.resources[id := s.resources[id].(available := false)],
          reservations := map k | k in s.reservations :: Invalidated(s.reservations[k], id)), Done(()))
  }

  function Flagged(r: Reservation, resource: nat): Reservation {
    if r.resource == resource then Demoted(r) else r
  }

  function AdvanceGeneration(s: State, id: nat, generation: nat, condition: Byte): (State, Outcome<()>) {
    if id !in s.resources || generation <= s.resources[id].generation then (s, Refused)
    else
      var available := condition != CONDITION_UNAVAILABLE && condition != CONDITION_INVALIDATED;
      (s.(resources := s.resources[id := s.resources[id].(generation := generation, available := available)],
          reservations := map k | k in s.reservations :: Flagged(s.reservations[k], id)), Done(()))
  }

  function Revalidated(r: Reservation, resource: nat, generation: nat): Reservation {
    if r.resource == resource && r.lifecycle == REVALIDATION_REQUIRED then
      r.(lifecycle := PENDING_ACTIVATION, boundGeneration := Some(generation))
    else r
  }

  function RevalidateResource(s: State, id: nat, p: Publication): (State, Outcome<()>) {
    if id !in s.resources || BootIsStale(s, p.worker, p.workerBoot) then (s, Refused)
    else
      (s.(workerBoots := s.workerBoots[p.worker := p.workerBoot],
          resources := s.resources[id := s.resources[id].(generation := p.generation, owner := p.worker, ownerBoot := p.workerBoot,
          capabilities := p.capabilities, topology := p.topology, available := true)],
          reservations := map k | k in s.reservations :: Revalidated(s.reservations[k], id, p.generation)), Done(()))
  }

  function SetEpoch(s: State, epoch: nat): (State, Outcome<()>) {
    if epoch < s.epoch then (s, Refused) else (s.(epoch := epoch, authority := s.authority + 1), Done(()))
  }

  // ---- runs ----

  datatype Op =
    | OpEpoch(epoch: nat)
    | OpPublish(publication: Publication, order: seq<nat>)
    | OpInvalidate(resource: nat)
    | OpAdvance(resource: nat, generation: nat, condition: Byte)
    | OpRevalidate(resource: nat, publication: Publication)
    | OpCreateHold(spec: HoldSpec, now: int)
    | OpReleaseHold(hold: nat, generation: nat)
    | OpExpireHolds(now: int, order: seq<nat>)
    | OpCommit(request: Request, commitHold: Option<nat>)
    | OpBundle(members: seq<Request>, now: int)
    | OpActivate(id: nat, generation: nat, evidence: Evidence)
    | OpConsume(id: nat, generation: nat, amount: Quantity, evidence: Evidence)
    | OpRelease(id: nat, generation: nat, evidence: Evidence)
    | OpCancel(id: nat, generation: nat)
    | OpExpireDue(now: int, order: seq<nat>)
    | OpResize(id: nat, generation: nat, quantity: Quantity, policyGeneration: nat)
    | OpRenew(id: nat, generation: nat, window: Interval, policyGeneration: nat)
    | OpTransfer(id: nat, generation: nat, owner: nat, ownerGeneration: nat, evidence: Evidence)

  ghost function Step(s: State, op: Op): State {
    match op
    case OpEpoch(e) => SetEpoch(s, e).0
    case OpPublish(p, order) => PublishResource(s, p, order).0
    case OpInvalidate(id) => InvalidateResource(s, id).0
    case OpAdvance(id, g, c) => AdvanceGeneration(s, id, g, c).0
    case OpRevalidate(id, p) => RevalidateResource(s, id, p).0
    case OpCreateHold(spec, now) => AcquireHold(s, spec, now).0
    case OpReleaseHold(id, g) => ReleaseHold(s, id, g).0
    case OpExpireHolds(now, order) => ExpireHolds(s, now, order)
    case OpCommit(req, hold) => Commit(s, req, hold).0
    case OpBundle(ms, now) => CommitBundle(s, ms, now).0
    case OpActivate(id, g, e) => Activate(s, id, g, e).0
    case OpConsume(id, g, a, e) => Consume(s, id, g, a, e).0
    case OpRelease(id, g, e) => ReleaseReservation(s, id, g, e).0
    case OpCancel(id, g) => Cancel(s, id, g).0
    case OpExpireDue(now, order) => ExpireDue(s, now, order)
    case OpResize(id, g, q, p) => Resize(s, id, g, q, p).0
    case OpRenew(id, g, w, p) => Renew(s, id, g, w, p).0
    case OpTransfer(id, g, o, og, e) => Transfer(s, id, g, o, og, e).0
  }

  ghost function RunOps(s: State, ops: seq<Op>): State {
    if ops == [] then s else Step(RunOps(s, ops[..|ops| - 1]), ops[|ops| - 1])
  }
}
