/** The promises fencing makes, over any run of any operations. */
module Fences {
  import opened Types
  import opened Envelopes
  import opened Registry
  import opened Fencing
  import opened Authority

  // ---- generations ----

  /** Generations never move backward. */
  ghost predicate GenerationsAdvance(s: State, t: State) {
    forall id :: id in s.currentGen ==> id in t.currentGen && s.currentGen[id] <= t.currentGen[id]
  }

  lemma GenerationsAdvanceRun(s: State, ops: seq<Op>)
    requires Struct(s)
    ensures GenerationsAdvance(s, RunOps(s, ops))
  {
    forall x: State, y: State | Struct(x) && GenerationsAdvance(s, x) && Small(x, y) ensures GenerationsAdvance(s, y) {
      GenerationsSmall(x, y);
    }
    RunBySmall(s, ops, x => GenerationsAdvance(s, x));
  }

  lemma GenerationsSmall(x: State, y: State)
    requires Struct(x) && Small(x, y)
    ensures GenerationsAdvance(x, y)
  {
    hide Metered, GenerationRises, Eased, OwnerOk, BootsRise, NoLiveOn, ReservationOk, HoldOk, SameResources;
    forall id | id in x.currentGen ensures id in y.currentGen && x.currentGen[id] <= y.currentGen[id] {
      assert GenerationsOk(x, id);
    }
  }

  /** An operation addressed to a reservation under a generation. */
  predicate Addresses(op: Op, id: nat, generation: nat) {
    (op.OpActivate? || op.OpConsume? || op.OpRelease? || op.OpCancel? || op.OpResize? || op.OpRenew? || op.OpTransfer?)
    && op.id == id && op.generation == generation
  }

  lemma StaleIsRefused(s: State, op: Op)
    requires op.OpActivate? || op.OpConsume? || op.OpRelease? || op.OpCancel? || op.OpResize? || op.OpRenew? || op.OpTransfer?
    requires !IsCurrent(s, op.id, op.generation)
    ensures Step(s, op) == s
  {
    hide IsCurrent, SetEpoch, PublishResource, InvalidateResource, AdvanceGeneration, RevalidateResource, AcquireHold, ReleaseHold,
         ExpireHolds, Commit, CommitBundle, ExpireDue, Withdraw, Contribute, Supersede, Fresh, IsLive, IsEnded, Contains;
    match op
    case OpActivate(_, _, _) =>
    case OpConsume(_, _, _, _) =>
    case OpRelease(_, _, _) =>
    case OpCancel(_, _) =>
    case OpResize(_, _, _, _) =>
    case OpRenew(_, _, _, _) =>
    case OpTransfer(_, _, _, _, _) =>
  }

  /** A superseded generation is refused without effect forever after: whatever runs next, no
      operation addressed to it changes anything. */
  lemma SupersededStaysRefused(s: State, ops: seq<Op>, id: nat, generation: nat, op: Op)
    requires Struct(s) && id in s.currentGen && generation < s.currentGen[id]
    requires Addresses(op, id, generation)
    ensures Step(RunOps(s, ops), op) == RunOps(s, ops)
  {
    hide Step, RunOps;
    GenerationsAdvanceRun(s, ops);
    StructRun(s, ops);
    var t := RunOps(s, ops);
    assert GenerationsOk(t, id);
    StaleIsRefused(t, op);
  }

  /** The record a (identity, generation) pair names: the live one or one in history. */
  function RecordOf(s: State, id: nat, generation: nat): Option<Reservation> {
    if id in s.reservations && s.reservations[id].generation == generation then Some(s.reservations[id])
    else FirstOf(HistoryOf(s, id), generation)
  }

  function FirstOf(h: seq<Reservation>, generation: nat): Option<Reservation> {
    if h == [] then None
    else if h[0].generation == generation then Some(h[0])
    else FirstOf(h[1..], generation)
  }

  lemma {:induction false} FirstOfContiguous(h: seq<Reservation>, first: nat, generation: nat)
    requires forall i :: 0 <= i < |h| ==> h[i].generation == first + i
    ensures FirstOf(h, generation).Some? <==> first <= generation < first + |h|
    ensures FirstOf(h, generation).Some? ==> FirstOf(h, generation).value == h[generation - first]
    decreases |h|
  {
    if h != [] && h[0].generation != generation {
      assert forall i :: 0 <= i < |h[1..]| ==> h[1..][i] == h[i + 1];
      FirstOfContiguous(h[1..], first + 1, generation);
    }
  }

  /** A pair names a record exactly when its generation is the live one or among the last
      remembered, never more than the bound allows, and then exactly one record carries it. */
  lemma RecordsAreNamedOnce(s: State, id: nat, generation: nat)
    requires Struct(s) && id in s.reservations
    ensures var live, h := s.currentGen[id], HistoryOf(s, id);
            && s.reservations[id].generation == live && |h| <= s.config.maxHistory
            && (RecordOf(s, id, generation).Some? <==> live - |h| <= generation <= live)
            && (RecordOf(s, id, generation).Some? ==>
                  RecordOf(s, id, generation).value.id == id && RecordOf(s, id, generation).value.generation == generation)
            && (forall i, j :: 0 <= i < |h| && 0 <= j < |h| && h[i].generation == h[j].generation ==> i == j)
            && (forall i :: 0 <= i < |h| ==> h[i].generation != live)
  {
    assert GenerationsOk(s, id) && ReservationOk(s, id, s.reservations[id]);
    FirstOfContiguous(HistoryOf(s, id), s.currentGen[id] - |HistoryOf(s, id)|, generation);
  }

  // ---- worker boots ----

  /** Every owner's boot is recorded and not above the recorded one. */
  ghost predicate BootsRecorded(s: State) {
    forall id :: id in s.resources ==>
                   s.resources[id].owner in s.workerBoots && s.resources[id].ownerBoot <= s.workerBoots[s.resources[id].owner]
  }

  /** Since `s`, the resource kept its owner and boot or its owner took it under a boot not below
      the one `s` had recorded. */
  ghost predicate Fenced(s: State, t: State, id: nat)
    requires id in t.resources
  {
    var res := t.resources[id];
    || (id in s.resources && s.resources[id].owner == res.owner && s.resources[id].ownerBoot == res.ownerBoot)
    || (res.owner in s.workerBoots ==> s.workerBoots[res.owner] <= res.ownerBoot)
  }

  ghost predicate BootsKept(s: State, t: State) {
    BootsRise(s, t) && BootsRecorded(t) && forall id :: id in t.resources ==> Fenced(s, t, id)
  }

  lemma BootsSmall(s: State, x: State, y: State)
    requires BootsKept(s, x) && Small(x, y)
    ensures BootsKept(s, y)
  {
    assert BootsRise(x, y);
    forall id | id in y.resources
      ensures Fenced(s, y, id) && y.resources[id].owner in y.workerBoots && y.resources[id].ownerBoot <= y.workerBoots[y.resources[id].owner]
    {
      if Calm(x, y) {
        assert OwnerOk(x, y, id);
        if id in x.resources { assert Fenced(s, x, id); }
      } else {
        assert Fenced(s, x, id);
      }
    }
  }

  lemma BootsRun(s: State, ops: seq<Op>)
    requires Struct(s) && BootsRecorded(s)
    ensures BootsKept(s, RunOps(s, ops))
  {
    forall x: State, y: State | Struct(x) && BootsKept(s, x) && Small(x, y) ensures BootsKept(s, y) {
      BootsSmall(s, x, y);
    }
    RunBySmall(s, ops, x => BootsKept(s, x));
  }

  /** Once a worker has owned a resource under a boot, evidence from it under a smaller boot is
      never fresh again, even if ownership moves away and comes back. */
  lemma StaleBootIsNeverFresh(s: State, ops: seq<Op>, resource: nat, boot: nat)
    requires Struct(s) && BootsRecorded(s) && resource in s.resources && boot < s.resources[resource].ownerBoot
    ensures !Fresh(RunOps(s, ops), resource, s.resources[resource].owner, boot)
  {
    BootsRun(s, ops);
    var t := RunOps(s, ops);
    if resource in t.resources {
      assert Fenced(s, t, resource);
    }
  }

  predicate Presents(op: Op, worker: nat, boot: nat) {
    (op.OpActivate? || op.OpConsume? || op.OpRelease? || op.OpTransfer?)
    && op.evidence.worker == worker && op.evidence.workerBoot == boot
  }

  /** Such evidence never newly activates, consumes, releases or transfers. The most an
      activation can do is send the reservation to revalidation. */
  lemma StaleBootNeverActs(s: State, ops: seq<Op>, resource: nat, boot: nat, op: Op)
    requires Struct(s) && BootsRecorded(s) && resource in s.resources && boot < s.resources[resource].ownerBoot
    requires Presents(op, s.resources[resource].owner, boot)
    requires var t := RunOps(s, ops); op.id in t.reservations && t.reservations[op.id].resource == resource
    ensures var t := RunOps(s, ops);
            || Step(t, op) == t
            || Step(t, op) == Put(t, op.id, t.reservations[op.id].(lifecycle := REVALIDATION_REQUIRED))
  {
    hide Contains, Withdraw, IsLive, Struct, BootsRecorded, RunOps, Remembered;
    StaleBootIsNeverFresh(s, ops, resource, boot);
  }

  // ---- evidence ----

  /** A live reservation's resource exists and is available. */
  ghost predicate EvidenceHeld(s: State) {
    forall id :: id in s.reservations && IsLive(s.reservations[id].lifecycle) ==>
                   s.reservations[id].resource in s.resources && s.resources[s.reservations[id].resource].available
  }

  lemma EvidenceSmall(x: State, y: State)
    requires Struct(x) && EvidenceHeld(x) && Small(x, y)
    ensures EvidenceHeld(y)
  {
    hide Struct, Calm, EvidenceHeld, BootsRise, Metered, GenerationRises, IsLive;
    if Calm(x, y) {
      EvidenceCalm(x, y);
    } else {
      EvidenceOne(x, y);
    }
  }

  lemma EvidenceCalm(x: State, y: State)
    requires EvidenceHeld(x) && Calm(x, y)
    ensures EvidenceHeld(y)
  {
    hide IsLive, BootsRise;
    forall id | id in y.reservations && IsLive(y.reservations[id].lifecycle)
      ensures y.reservations[id].resource in y.resources && y.resources[y.reservations[id].resource].available
    {
      assert Eased(x.reservations[id], y.reservations[id]);
    }
  }

  lemma EvidenceOne(x: State, y: State)
    requires EvidenceHeld(x) && Small(x, y) && !Calm(x, y)
    ensures EvidenceHeld(y)
  {
    hide Calm, Metered, GenerationRises, IsLive;
    assert !IsLive(COMMITTED) by { CommittedIsNotLive(); }
  }

  lemma CommittedIsNotLive()
    ensures !IsLive(COMMITTED)
  {
  }

  /** In every reachable state, through invalidation, generation advance, replacement and
      revalidation alike, live reservations rest on an available resource. */
  lemma EvidenceRun(s: State, ops: seq<Op>)
    requires Struct(s) && EvidenceHeld(s)
    ensures EvidenceHeld(RunOps(s, ops))
  {
    forall x: State, y: State | Struct(x) && EvidenceHeld(x) && Small(x, y) ensures EvidenceHeld(y) {
      EvidenceSmall(x, y);
    }
    RunBySmall(s, ops, x => EvidenceHeld(x));
  }

  ghost predicate NoneNewlyActive(s: State, t: State) {
    forall id :: id in t.reservations && t.reservations[id].lifecycle == ACTIVE ==>
                   id in s.reservations && s.reservations[id].lifecycle == ACTIVE
  }

  lemma NoneNewlyActiveMild(s: State, x: State, y: State)
    requires NoneNewlyActive(s, x) && Mild(x, y)
    ensures NoneNewlyActive(s, y)
  {
    forall id | id in y.reservations && y.reservations[id].lifecycle == ACTIVE
      ensures id in s.reservations && s.reservations[id].lifecycle == ACTIVE
    {
      if Calm(x, y) { assert Eased(x.reservations[id], y.reservations[id]); }
    }
  }

  /** A step that newly makes a reservation active is an activation of it, on evidence from the
      resource's current owner, while the resource generation is at most the bound one. */
  lemma ActivationSeesCurrentResource(s: State, op: Op, id: nat)
    requires Struct(s) && id in Step(s, op).reservations && Step(s, op).reservations[id].lifecycle == ACTIVE
    requires !(id in s.reservations && s.reservations[id].lifecycle == ACTIVE)
    ensures op.OpActivate? && op.id == id && id in s.reservations
    ensures var r := s.reservations[id];
            && Fresh(s, r.resource, op.evidence.worker, op.evidence.workerBoot)
            && r.boundGeneration.Some? && s.resources[r.resource].generation <= r.boundGeneration.value
            && Contains(r.window, op.evidence.at)
  {
    hide Struct, Contains, Mild;
    if !IsSharp(op) {
      forall x: State, y: State | NoneNewlyActive(s, x) && Mild(x, y) ensures NoneNewlyActive(s, y) {
        NoneNewlyActiveMild(s, x, y);
      }
      StepByMild(s, op, x => NoneNewlyActive(s, x));
    } else {
      ActivationOnly(s, op, id);
    }
  }

  lemma ActivationOnly(s: State, op: Op, id: nat)
    requires Struct(s) && IsSharp(op) && id in Step(s, op).reservations && Step(s, op).reservations[id].lifecycle == ACTIVE
    requires !(id in s.reservations && s.reservations[id].lifecycle == ACTIVE)
    ensures op.OpActivate? && op.id == id && id in s.reservations
    ensures var r := s.reservations[id];
            && Fresh(s, r.resource, op.evidence.worker, op.evidence.workerBoot)
            && r.boundGeneration.Some? && s.resources[r.resource].generation <= r.boundGeneration.value
            && Contains(r.window, op.evidence.at)
  {
    hide Struct, Small, Calm, Succeeded, Heated, Resize, Renew, Transfer, Consume, Contains, IsLive, Step;
    if op.OpActivate? {
      ActivateShape(s, op.id, op.generation, op.evidence, id);
      assert Step(s, op) == Activate(s, op.id, op.generation, op.evidence).0 by { StepActivate(s, op); }
      BoundFacts(s, op.id);
    } else {
      NotActivation(s, op, id);
    }
  }

  lemma StepActivate(s: State, op: Op)
    requires op.OpActivate?
    ensures Step(s, op) == Activate(s, op.id, op.generation, op.evidence).0
  {
    hide Activate;
  }

  function ActivatedBy(r: Reservation, e: Evidence): Reservation {
    r.(lifecycle := ACTIVE, activatedAt := Some(e.at), activationGeneration := Some(e.generation), activated := r.quantity)
  }

  /** The three things an activation can do. */
  lemma ActivateCases(s: State, id: nat, generation: nat, e: Evidence)
    requires IsCurrent(s, id, generation)
    ensures var t := Activate(s, id, generation, e).0;
            var r := s.reservations[id];
            || t == s
            || t == Put(s, id, r.(lifecycle := REVALIDATION_REQUIRED))
            || (&& t == Put(s, id, ActivatedBy(r, e)) && Fresh(s, r.resource, e.worker, e.workerBoot) && Contains(r.window, e.at)
                && (r.boundGeneration.Some? ==> s.resources[r.resource].generation <= r.boundGeneration.value))
  {
    hide Contains;
  }

  lemma FreshExists(s: State, resource: nat, e: Evidence)
    ensures Fresh(s, resource, e.worker, e.workerBoot) ==> resource in s.resources
  {
  }

  lemma ActivateShape(s: State, id: nat, generation: nat, e: Evidence, k: nat)
    ensures var t := Activate(s, id, generation, e).0;
            k in t.reservations && t.reservations[k].lifecycle == ACTIVE ==>
              && k in s.reservations
              && (s.reservations[k].lifecycle == ACTIVE
                  || (k == id
                      && Fresh(s, s.reservations[k].resource, e.worker, e.workerBoot)
                      && Contains(s.reservations[k].window, e.at)
                      && (s.reservations[k].boundGeneration.Some? ==>
                            s.resources[s.reservations[k].resource].generation <= s.reservations[k].boundGeneration.value)))
  {
    hide Contains, Activate, Fresh;
    if IsCurrent(s, id, generation) {
      ActivateCases(s, id, generation, e);
      FreshExists(s, s.reservations[id].resource, e);
    } else {
      assert Activate(s, id, generation, e).0 == s by { StaleIsRefused(s, OpActivate(id, generation, e)); StepActivate(s, OpActivate(id, generation, e)); }
    }
  }

  lemma NotActivation(s: State, op: Op, id: nat)
    requires Struct(s) && (op.OpConsume? || op.OpResize? || op.OpRenew? || op.OpTransfer?)
    ensures NoneNewlyActive(s, Step(s, op))
  {
    hide Struct, Step;
    var t := Step(s, op);
    NewLifecycle(s, op);
    forall k | k in t.reservations && t.reservations[k].lifecycle == ACTIVE
      ensures k in s.reservations && s.reservations[k].lifecycle == ACTIVE
    {
    }
  }

  lemma ConsumeCases(s: State, id: nat, generation: nat, amount: Quantity, e: Evidence)
    ensures var t := Consume(s, id, generation, amount, e).0;
            || t == s
            || (&& id in s.reservations && id in t.reservations && t.reservations == s.reservations[id := t.reservations[id]]
                && t.reservations[id].lifecycle in {CONSUMED, PARTIALLY_CONSUMED})
  {
    hide IsLive, Fresh;
  }

  lemma TransferCases(s: State, id: nat, generation: nat, owner: nat, ownerGeneration: nat, e: Evidence)
    ensures var t := Transfer(s, id, generation, owner, ownerGeneration, e).0;
            || t == s
            || (&& id in s.reservations && id in t.reservations && t.reservations == s.reservations[id := t.reservations[id]]
                && t.reservations[id].lifecycle == COMMITTED && t.reservations[id].consumed == s.reservations[id].consumed)
  {
    hide Fresh, Remembered, HistoryOf;
  }

  /** Other than activation, an operation on one reservation leaves its lifecycle or ends in one
      that is not active. */
  lemma NewLifecycle(s: State, op: Op)
    requires op.OpConsume? || op.OpResize? || op.OpRenew? || op.OpTransfer?
    ensures var t := Step(s, op);
            || t.reservations == s.reservations
            || (op.id in s.reservations && op.id in t.reservations && t.reservations == s.reservations[op.id := t.reservations[op.id]]
                && t.reservations[op.id].lifecycle in {s.reservations[op.id].lifecycle, COMMITTED, CONSUMED, PARTIALLY_CONSUMED})
  {
    hide Resize, Renew, Consume, Transfer;
    if op.OpConsume? {
      ConsumeCases(s, op.id, op.generation, op.amount, op.evidence);
    } else if op.OpTransfer? {
      TransferCases(s, op.id, op.generation, op.owner, op.ownerGeneration, op.evidence);
    } else if !IsCurrent(s, op.id, op.generation) {
      StaleIsRefused(s, op);
    } else if op.OpResize? {
      SmallResizeShape(s, op.id, op.generation, op.quantity, op.policyGeneration);
    } else if op.OpRenew? {
      SmallRenewShape(s, op.id, op.generation, op.window, op.policyGeneration);
    }
  }

  lemma AdoptShape(s: State, id: nat, old_: Reservation, n: Reservation)
    requires n.contributes
    ensures var t := Adopt(s, id, old_, n); t.reservations == s.reservations[id := n] && t.envelopes == s.envelopes
  {
    hide AddCommitted, Remembered, HistoryOf;
  }

  lemma RestoreShape(s: State, id: nat, r: Reservation)
    ensures var t := Restore(s, id, r);
            id in t.reservations && t.reservations == s.reservations[id := r.(contributes := t.reservations[id].contributes)]
  {
    hide AddCommitted;
  }

  lemma ChangesIgnoreFlag(r: Reservation, c: bool, generation: nat, q: Quantity, w: Interval, policyGeneration: nat)
    ensures Resized(r.(contributes := c), generation, q, policyGeneration) == Resized(r, generation, q, policyGeneration)
    ensures Renewed(r.(contributes := c), generation, w, policyGeneration) == Renewed(r, generation, w, policyGeneration)
    ensures Resized(r, generation, q, policyGeneration).contributes && Renewed(r, generation, w, policyGeneration).contributes
  {
  }

  lemma ResizeCases(s: State, id: nat, generation: nat, q: Quantity, policyGeneration: nat)
    requires IsCurrent(s, id, generation)
    ensures var (t, out) := Resize(s, id, generation, q, policyGeneration);
            var (s1, r1) := Withdraw(s, s.reservations[id]);
            || (t == s && out.Refused?)
            || (t == Restore(s1, id, r1) && out.Refused?)
            || (t == Adopt(s1, id, r1, Resized(r1, NextGeneration(s, id), q, policyGeneration)) && out.Done?)
  {
    hide Withdraw, Headroom, Adopt, Restore, Resized;
  }

  /** Withdrawing and restoring changes at most the flag. */
  lemma RestoredShape(s: State, id: nat)
    requires id in s.reservations
    ensures var (s1, r1) := Withdraw(s, s.reservations[id]);
            var t := Restore(s1, id, r1);
            && id in t.reservations && t.reservations == s.reservations[id := t.reservations[id]]
            && t.reservations[id] == s.reservations[id].(contributes := t.reservations[id].contributes)
  {
    hide Withdraw, Restore, Contribute;
    var (s1, r1) := Withdraw(s, s.reservations[id]);
    WithdrawShape(s, s.reservations[id]);
    RestoreShape(s1, id, r1);
  }

  lemma AdoptedShape(s: State, id: nat, n: Reservation)
    requires id in s.reservations && n.contributes
    ensures var (s1, r1) := Withdraw(s, s.reservations[id]);
            Adopt(s1, id, r1, n).reservations == s.reservations[id := n]
  {
    hide Withdraw, Adopt, Contribute;
    var (s1, r1) := Withdraw(s, s.reservations[id]);
    WithdrawShape(s, s.reservations[id]);
    AdoptShape(s1, id, r1, n);
  }

  lemma WithdrawnFlag(s: State, r: Reservation)
    ensures Withdraw(s, r).1 == r.(contributes := Withdraw(s, r).1.contributes)
  {
    hide AddCommitted;
  }

  /** The record a resize leaves: restored as it was but for the flag, or resized. */
  lemma SmallResizeShape(s: State, id: nat, generation: nat, q: Quantity, policyGeneration: nat)
    requires IsCurrent(s, id, generation)
    ensures var (t, out) := Resize(s, id, generation, q, policyGeneration);
            var r := s.reservations[id];
            && id in t.reservations && t.reservations == s.reservations[id := t.reservations[id]]
            && (out.Refused? ==> t.reservations[id] == r.(contributes := t.reservations[id].contributes))
            && (out.Done? ==> t.reservations[id] == Resized(r, NextGeneration(s, id), q, policyGeneration))
  {
    hide Withdraw, Adopt, Restore, Resized, Resize;
    var r := s.reservations[id];
    var r1 := Withdraw(s, r).1;
    WithdrawnFlag(s, r);
    ChangesIgnoreFlag(r, r1.contributes, NextGeneration(s, id), q, r.window, policyGeneration);
    AdoptedShape(s, id, Resized(r, NextGeneration(s, id), q, policyGeneration));
    RestoredShape(s, id);
    SameEntry(s.reservations, id);
    ResizeCases(s, id, generation, q, policyGeneration);
  }

  lemma RenewCases(s: State, id: nat, generation: nat, w: Interval, policyGeneration: nat)
    requires IsCurrent(s, id, generation)
    ensures var (t, out) := Renew(s, id, generation, w, policyGeneration);
            var (s1, r1) := Withdraw(s, s.reservations[id]);
            || (t == s && out.Refused?)
            || (t == Restore(s1, id, r1) && out.Refused?)
            || (t == Adopt(s1, id, r1, Renewed(r1, NextGeneration(s, id), w, policyGeneration)) && out.Done?)
  {
    hide Withdraw, Headroom, Adopt, Restore, Renewed;
  }

  lemma SameEntry(m: map<nat, Reservation>, id: nat)
    requires id in m
    ensures m == m[id := m[id]] && m[id] == m[id].(contributes := m[id].contributes)
  {
  }

  lemma SmallRenewShape(s: State, id: nat, generation: nat, w: Interval, policyGeneration: nat)
    requires IsCurrent(s, id, generation)
    ensures var (t, out) := Renew(s, id, generation, w, policyGeneration);
            var r := s.reservations[id];
            && id in t.reservations && t.reservations == s.reservations[id := t.reservations[id]]
            && (out.Refused? ==> t.reservations[id] == r.(contributes := t.reservations[id].contributes))
            && (out.Done? ==> t.reservations[id] == Renewed(r, NextGeneration(s, id), w, policyGeneration))
  {
    hide Withdraw, Adopt, Restore, Renewed, Renew;
    var r := s.reservations[id];
    var r1 := Withdraw(s, r).1;
    WithdrawnFlag(s, r);
    ChangesIgnoreFlag(r, r1.contributes, NextGeneration(s, id), r.quantity, w, policyGeneration);
    AdoptedShape(s, id, Renewed(r, NextGeneration(s, id), w, policyGeneration));
    RestoredShape(s, id);
    SameEntry(s.reservations, id);
    RenewCases(s, id, generation, w, policyGeneration);
  }

  lemma BoundFacts(s: State, id: nat)
    requires Struct(s) && id in s.reservations
    ensures s.reservations[id].boundGeneration.Some?
  {
    assert ReservationOk(s, id, s.reservations[id]);
  }

  // ---- consumption ----

  function ConsumedBy(s: State, id: nat): int {
    if id in s.reservations then s.reservations[id].consumed.value else 0
  }

  /** The sum of the amounts accepted since the last commit or accepted resize. */
  ghost function Ledger(s: State, ops: seq<Op>, id: nat): int {
    if ops == [] then ConsumedBy(s, id)
    else
      var before, op := ops[..|ops| - 1], ops[|ops| - 1];
      var x := RunOps(s, before);
      if op.OpConsume? && op.id == id && Consume(x, id, op.generation, op.amount, op.evidence).1 == Accepted then
        Ledger(s, before, id) + op.amount.value
      else if op.OpResize? && op.id == id && Resize(x, id, op.generation, op.quantity, op.policyGeneration).1.Done? then 0
      else Ledger(s, before, id)
  }

  ghost predicate ConsumedKept(s: State, t: State) {
    forall id :: ConsumedBy(t, id) == ConsumedBy(s, id)
  }

  lemma ConsumedMild(s: State, x: State, y: State)
    requires ConsumedKept(s, x) && Mild(x, y)
    ensures ConsumedKept(s, y)
  {
    forall id ensures ConsumedBy(y, id) == ConsumedBy(s, id) {
      assert ConsumedBy(x, id) == ConsumedBy(s, id);
      if Calm(x, y) && id in x.reservations { assert Eased(x.reservations[id], y.reservations[id]); }
    }
  }

  lemma ConsumedModify(s: State, op: Op, id: nat)
    requires op.OpResize? || op.OpRenew? || op.OpTransfer? || op.OpActivate?
    ensures ConsumedBy(Step(s, op), id) ==
            if op.OpResize? && op.id == id && Resize(s, id, op.generation, op.quantity, op.policyGeneration).1.Done? then 0
            else ConsumedBy(s, id)
  {
    hide Resize, Renew, Activate, Transfer;
    if op.OpTransfer? {
      TransferCases(s, op.id, op.generation, op.owner, op.ownerGeneration, op.evidence);
    } else if !IsCurrent(s, op.id, op.generation) {
      StaleIsRefused(s, op);
      if op.OpResize? { ResizeRefused(s, op.id, op.generation, op.quantity, op.policyGeneration); }
    } else if op.OpResize? {
      SmallResizeShape(s, op.id, op.generation, op.quantity, op.policyGeneration);
    } else if op.OpRenew? {
      SmallRenewShape(s, op.id, op.generation, op.window, op.policyGeneration);
    } else if op.OpActivate? {
      ActivateCases(s, op.id, op.generation, op.evidence);
    }
  }

  lemma ResizeRefused(s: State, id: nat, generation: nat, q: Quantity, policyGeneration: nat)
    requires !IsCurrent(s, id, generation)
    ensures Resize(s, id, generation, q, policyGeneration).1.Refused?
  {
    hide Withdraw, Restore, Adopt;
  }

  /** Consumption is conserved: over any run, what a reservation shows as consumed is the ledger
      of accepted amounts, and it never exceeds the quantity. */
  lemma {:induction false} ConsumptionIsConserved(s: State, ops: seq<Op>, id: nat)
    requires Struct(s)
    ensures ConsumedBy(RunOps(s, ops), id) == Ledger(s, ops, id)
    ensures id in RunOps(s, ops).reservations ==> 0 <= Ledger(s, ops, id) <= RunOps(s, ops).reservations[id].quantity.value
    decreases |ops|
  {
    hide Struct, Mild, Resize;
    StructRun(s, ops);
    if id in RunOps(s, ops).reservations {
      ConsumedWithin(RunOps(s, ops), id);
    }
    if ops != [] {
      var before, op := ops[..|ops| - 1], ops[|ops| - 1];
      var x := RunOps(s, before);
      ConsumptionIsConserved(s, before, id);
      StructRun(s, before);
      if op.OpConsume? {
      } else if IsSharp(op) {
        ConsumedModify(x, op, id);
      } else {
        forall y: State, z: State | ConsumedKept(x, y) && Mild(y, z) ensures ConsumedKept(x, z) { ConsumedMild(x, y, z); }
        StepByMild(x, op, y => ConsumedKept(x, y));
        assert ConsumedKept(x, Step(x, op));
      }
    }
  }

  lemma ConsumedWithin(s: State, id: nat)
    requires Struct(s) && id in s.reservations
    ensures 0 <= s.reservations[id].consumed.value <= s.reservations[id].quantity.value
  {
    assert ReservationOk(s, id, s.reservations[id]);
  }

  ghost predicate AllMetered(s: State) {
    forall id :: id in s.reservations ==> Metered(s.reservations[id])
  }

  lemma MeteredSmall(x: State, y: State)
    requires AllMetered(x) && Small(x, y)
    ensures AllMetered(y)
  {
    forall id | id in y.reservations ensures Metered(y.reservations[id]) {
      if Calm(x, y) { assert Eased(x.reservations[id], y.reservations[id]); }
      if id in x.reservations { assert Metered(x.reservations[id]); }
    }
  }

  /** Over any run, a consumed reservation has consumed its whole quantity, and a partly consumed
      one some but, stated in its own unit, not all of it. */
  lemma MeteredRun(s: State, ops: seq<Op>)
    requires Struct(s) && AllMetered(s)
    ensures AllMetered(RunOps(s, ops))
  {
    forall x: State, y: State | Struct(x) && AllMetered(x) && Small(x, y) ensures AllMetered(y) {
      MeteredSmall(x, y);
    }
    RunBySmall(s, ops, x => AllMetered(x));
  }

  /** Consuming the last of the quantity marks the reservation consumed if and only if the
      quantity is stated in the reservation's unit; admission does not check that it is. */
  lemma ExhaustionIsSeenInOwnUnit(s: State, id: nat, generation: nat, amount: Quantity, e: Evidence)
    requires Consume(s, id, generation, amount, e).1 == Accepted
    requires s.reservations[id].consumed.value + amount.value == s.reservations[id].quantity.value
    ensures Consume(s, id, generation, amount, e).0.reservations[id].lifecycle == CONSUMED <==>
            s.reservations[id].quantity.unit == s.reservations[id].unit
  {
    hide Fresh, IsLive;
  }

  lemma UnitMismatchIsAdmissible()
    ensures exists r: Request :: ValidRequest(r) && r.quantity.unit != r.unit
  {
    var r := Request(1, 1, 1, UNIT_COUNT, Quantity(5, UNIT_BYTES), false, None, Interval(0, 10), None, STRENGTH_HARD,
                     1, 1, None, 0, 1, 0, None, None, NO_TERMS);
    assert ValidRequest(r);
  }

  ghost predicate SeenSince(t: State, id: nat, generation: nat) {
    id in t.reservations && t.reservations[id].consumptionGeneration.Some? && generation <= t.reservations[id].consumptionGeneration.value
  }

  lemma SeenSmall(x: State, y: State, id: nat, generation: nat)
    requires SeenSince(x, id, generation) && Small(x, y)
    ensures SeenSince(y, id, generation)
  {
    if Calm(x, y) { assert Eased(x.reservations[id], y.reservations[id]); }
  }

  /** Accepted consumption generations strictly increase: after one is accepted, whatever runs
      next, presenting it or an older one again changes nothing, under any reservation
      generation, even across resizes, renewals and transfers. */
  lemma ReplayChangesNothing(s: State, id: nat, generation: nat, amount: Quantity, e: Evidence, ops: seq<Op>,
                             generation': nat, amount': Quantity, e': Evidence)
    requires Struct(s) && Consume(s, id, generation, amount, e).1 == Accepted && e'.generation <= e.generation
    ensures var t := RunOps(Consume(s, id, generation, amount, e).0, ops);
            Consume(t, id, generation', amount', e').0 == t
    ensures s.reservations[id].consumptionGeneration.Some? ==> s.reservations[id].consumptionGeneration.value < e.generation
  {
    hide Fresh, IsLive, Struct, Small;
    var s1 := Consume(s, id, generation, amount, e).0;
    StructConsume(s, id, generation, amount, e);
    forall x: State, y: State | SeenSince(x, id, e.generation) && Small(x, y) ensures SeenSince(y, id, e.generation) {
      SeenSmall(x, y, id, e.generation);
    }
    RunBySmall(s1, ops, x => SeenSince(x, id, e.generation));
    assert SeenSince(RunOps(s1, ops), id, e.generation);
  }

  /** The empty runtime satisfies every premise above. */
  lemma NewStateIsFenced(maxHistory: nat, maxHolds: nat, horizon: nat)
    ensures var s := NewState(maxHistory, maxHolds, horizon);
            Struct(s) && BootsRecorded(s) && EvidenceHeld(s) && AllMetered(s)
  {
  }
}
