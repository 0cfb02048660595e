/** What publications, invalidations, generation advances and revalidations do, from the fields of
    records and publications alone. */
module ResourceLaws {
  import opened Types
  import opened Levels
  import opened Envelopes
  import opened Registry
  import opened Fencing
  import opened Mirrors
  import opened Persistence
  import opened EffectLaws
  import opened LifecycleLaws
  import MirrorSteps
  import Exactness

  /** An empty runtime: epoch and authority one, no record, counters at one, a year of horizon
      unless another is asked for. */
  lemma EmptyLaw(maxHistory: nat, maxHolds: nat, horizon: nat)
    ensures var s := NewState(maxHistory, maxHolds, horizon);
            && s.config.maxHistory == maxHistory && s.config.maxHolds == maxHolds
            && s.config.horizon == (if horizon > 0 then horizon else 31_536_000_000_000_000)
            && s.epoch == 1 && s.authority == 1 && s.nextReservationId == 1 && s.nextHoldId == 1 && s.nextSetId == 1
            && s.resources == map[] && s.envelopes == map[] && s.workerBoots == map[] && s.requests == map[] && s.reservations == map[]
            && s.currentGen == map[] && s.history == map[] && s.sets == map[] && s.holds == map[]
  {
  }

  /** An epoch not behind the current one replaces it and raises the authority. */
  lemma EpochLaw(s: State, epoch: nat)
    ensures var (t, out) := SetEpoch(s, epoch);
            && (out.Done? <==> s.epoch <= epoch)
            && t == if out.Done? then s.(epoch := epoch, authority := s.authority + 1) else s
    ensures Step(s, OpEpoch(epoch)) == SetEpoch(s, epoch).0
  {
  }

  // ---- publication ----

  /** The publication names itself and its worker and a positive capacity in its own unit. */
  predicate Publishable(p: Publication) {
    p.totalCapacity.value > 0 && p.totalCapacity.unit == p.unit && p.id > 0 && p.generation > 0 && p.worker > 0 && p.workerBoot > 0
  }

  /** The worker has been seen under a later boot. */
  predicate Rebooted(s: State, p: Publication) {
    p.worker in s.workerBoots && s.workerBoots[p.worker] > p.workerBoot
  }

  /** What is published is recorded as published, available, under its worker's boot. */
  predicate Shows(res: Resource, p: Publication) {
    && res.id == p.id && res.generation == p.generation && res.resourceClass == p.resourceClass && res.unit == p.unit
    && res.totalCapacity == p.totalCapacity && res.pool == p.pool && res.poolGeneration == p.poolGeneration
    && res.owner == p.worker && res.ownerBoot == p.workerBoot && res.capabilities == p.capabilities && res.topology == p.topology
    && res.contract == p.contract && res.contractGeneration == p.contractGeneration && res.available
  }

  /** One of the windows covers the instant. */
  predicate Out(ws: seq<UnavailableWindow>, x: int) {
    exists i :: 0 <= i < |ws| && ws[i].interval.start <= x < ws[i].interval.end
  }

  /** An envelope over the horizon from where availability starts; nothing is on its levels, and its
      capacity is the published one except in the windows that are out. */
  ghost predicate Opens(s: State, p: Publication, e: Envelope) {
    && e.unit == p.unit && e.capacity == p.totalCapacity && e.ratio == p.ratio && e.origin == p.availableFrom && e.horizon == s.config.horizon
    && (forall x :: x in e.levels <==> p.availableFrom <= x < p.availableFrom + s.config.horizon)
    && forall x :: x in e.levels ==> e.levels[x] == Level(0, 0, 0, if Out(p.unavailable, x) then 0 else p.totalCapacity.value)
  }

  lemma {:induction false} OutageLevels(e: Envelope, ws: seq<UnavailableWindow>)
    requires forall x :: x in e.levels ==> e.origin <= x < e.origin + e.horizon
    ensures var d := WithUnavailable(e, ws);
            && d == e.(levels := d.levels)
            && (forall x :: x in d.levels <==> x in e.levels)
            && forall x :: x in e.levels ==> d.levels[x] == if Out(ws, x) then e.levels[x].(cap := 0) else e.levels[x]
    decreases |ws|
  {
    if ws != [] {
      var before, w := ws[..|ws| - 1], ws[|ws| - 1];
      OutageLevels(e, before);
      forall x ensures Out(ws, x) <==> Out(before, x) || w.interval.start <= x < w.interval.end {
        if Out(before, x) {
          var i :| 0 <= i < |before| && before[i].interval.start <= x < before[i].interval.end;
          assert ws[i] == before[i];
        }
        if Out(ws, x) {
          var i :| 0 <= i < |ws| && ws[i].interval.start <= x < ws[i].interval.end;
          assert i < |before| ==> before[i] == ws[i];
        }
        assert ws[|ws| - 1] == w;
      }
    }
  }

  lemma PublishedOpens(s: State, p: Publication)
    ensures Opens(s, p, PublishedEnvelope(s, p))
  {
    hide WithUnavailable, Out;
    OutageLevels(FreshEnvelope(p.unit, p.totalCapacity, p.ratio, p.availableFrom, s.config.horizon), p.unavailable);
  }

  /** A publication is refused as invalid, as stale by its boot or its generation, or as a duplicate;
      it replaces a known resource of an earlier generation, and else registers a new one. */
  lemma PublishIff(s: State, p: Publication, order: seq<nat>)
    ensures var out := PublishResource(s, p, order).1;
            var known := p.id in s.resources;
            && (out == Invalid <==> !Publishable(p))
            && (out == Stale <==> Publishable(p) && (Rebooted(s, p) || (known && p.generation < s.resources[p.id].generation)))
            && (out == DuplicateGeneration <==> Publishable(p) && !Rebooted(s, p) && known && p.generation == s.resources[p.id].generation)
            && (out == Replaced <==> Publishable(p) && !Rebooted(s, p) && known && p.generation > s.resources[p.id].generation)
            && (out == RegisteredNew <==> Publishable(p) && !Rebooted(s, p) && !known)
  {
    hide PublishedEnvelope, Readmit, Fold, ResourceOf;
  }

  /** Whatever passes the boot check records the boot; what is accepted also installs the resource
      and an empty envelope for it. A first publication does nothing else. */
  lemma PublishLaw(s: State, p: Publication, order: seq<nat>)
    ensures var (t, out) := PublishResource(s, p, order);
            if !Publishable(p) || Rebooted(s, p) then t == s
            else
              && t.workerBoots == s.workerBoots[p.worker := p.workerBoot]
              && if out == Stale || out == DuplicateGeneration then t == s.(workerBoots := t.workerBoots)
                 else
                   && p.id in t.resources && Shows(t.resources[p.id], p) && t.resources == s.resources[p.id := t.resources[p.id]]
                   && (out == RegisteredNew ==>
                         && p.id in t.envelopes && Opens(s, p, t.envelopes[p.id])
                         && t == s.(workerBoots := t.workerBoots, resources := t.resources, envelopes := s.envelopes[p.id := t.envelopes[p.id]]))
    ensures Step(s, OpPublish(p, order)) == PublishResource(s, p, order).0
  {
    hide PublishedEnvelope, Readmit, Fold, Opens;
    PublishIff(s, p, order);
    PublishedOpens(s, p);
    if PublishResource(s, p, order).1 == Replaced {
      Exactness.ReplacedIsFold(s, p, order);
      WalkKeeps(Exactness.Reinstalled(s, p), p.id, order);
    }
    StepPublish(s, p, order);
  }

  lemma StepPublish(s: State, p: Publication, order: seq<nat>)
    ensures Step(s, OpPublish(p, order)) == PublishResource(s, p, order).0
  {
    hide PublishResource;
  }

  // ---- replacement ----

  /** The record a replacement leaves: one that holds capacity contributes and is not live. */
  function Moved(r: Reservation, resource: nat): Reservation {
    if r.resource == resource && Occupies(r.lifecycle) then
      r.(contributes := true, lifecycle := if 9 <= r.lifecycle <= 11 then REVALIDATION_REQUIRED else r.lifecycle)
    else r
  }

  /** No envelope but that of the resource changes. */
  ghost predicate OnlyOn(s: State, t: State, resource: nat) {
    t.envelopes.Keys == s.envelopes.Keys && forall k :: k in s.envelopes && k != resource ==> t.envelopes[k] == s.envelopes[k]
  }

  lemma ContributeElsewhere(s: State, r: Reservation)
    ensures OnlyOn(s, Contribute(s, r).0, r.resource)
  {
    hide AddCommitted;
  }

  lemma ReadmitLaw(s: State, resource: nat, id: nat)
    requires resource in s.envelopes
    ensures var t := Readmit(s, resource, id);
            && t == s.(envelopes := t.envelopes, reservations := t.reservations) && OnlyOn(s, t, resource)
            && t.reservations == if id in s.reservations then s.reservations[id := Moved(s.reservations[id], resource)] else s.reservations
  {
    hide Contribute, Raises, HoldsCapacity, Occupies, IsLive;
    Codes();
    if id in s.reservations {
      ContributeLaw(s, s.reservations[id]);
      ContributeElsewhere(s, s.reservations[id]);
      assert s.reservations[id := s.reservations[id]] == s.reservations;
    }
  }

  ghost predicate MovedAlong(s: State, t: State, resource: nat, order: seq<nat>) {
    && t == s.(envelopes := t.envelopes, reservations := t.reservations)
    && OnlyOn(s, t, resource) && t.reservations.Keys == s.reservations.Keys
    && forall k :: k in s.reservations ==> t.reservations[k] == if k in order then Moved(s.reservations[k], resource) else s.reservations[k]
  }

  lemma MovedOnce(r: Reservation, resource: nat)
    ensures Moved(Moved(r, resource), resource) == Moved(r, resource)
  {
  }

  lemma {:induction false} WalkKeeps(s: State, resource: nat, order: seq<nat>)
    requires resource in s.envelopes
    ensures MovedAlong(s, Fold(s, order, (x: State, id: nat) => Readmit(x, resource, id)), resource, order)
    decreases |order|
  {
    hide Readmit, Moved;
    if order != [] {
      var before, id := order[..|order| - 1], order[|order| - 1];
      WalkKeeps(s, resource, before);
      ReadmitLaw(Fold(s, before, (x: State, id: nat) => Readmit(x, resource, id)), resource, id);
      assert forall k :: k in order <==> k in before || k == id;
      if id in s.reservations { MovedOnce(s.reservations[id], resource); }
    }
  }

  /** After a replacement, walked in any order, every reservation on the resource that holds capacity
      is flagged and no longer live, every other record is as before, and the levels of the new
      envelope are what the newly flagged ones weigh. */
  lemma ReplaceLaw(s: State, p: Publication, order: seq<nat>)
    requires PublishResource(s, p, order).1 == Replaced && Visits(order, s.reservations.Keys)
    ensures var t := PublishResource(s, p, order).0;
            && t == s.(workerBoots := t.workerBoots, resources := t.resources, envelopes := t.envelopes, reservations := t.reservations)
            && t.reservations.Keys == s.reservations.Keys
            && t.envelopes.Keys == s.envelopes.Keys + {p.id} && (forall k :: k in s.envelopes && k != p.id ==> t.envelopes[k] == s.envelopes[k])
            && (forall k :: k in s.reservations ==>
                              var r := s.reservations[k];
                              t.reservations[k] == if r.resource == p.id && Occupies(r.lifecycle) then
                                                     r.(contributes := true, lifecycle := if 9 <= r.lifecycle <= 11 then REVALIDATION_REQUIRED else r.lifecycle)
                                                   else r)
  {
    hide PublishedEnvelope, Readmit, Fold, Occupies;
    PublishLaw(s, p, order);
    Exactness.ReplacedIsFold(s, p, order);
    WalkKeeps(Exactness.Reinstalled(s, p), p.id, order);
  }

  lemma ReplacedLevels(s: State, p: Publication, order: seq<nat>)
    requires PublishResource(s, p, order).1 == Replaced
    ensures var t := PublishResource(s, p, order).0;
            && p.id in t.envelopes
            && (exists empty: Envelope :: Opens(s, p, empty)
                                          && t.envelopes[p.id] == empty.(levels := t.envelopes[p.id].levels) && t.envelopes[p.id].levels.Keys == empty.levels.Keys
                                          && forall x :: x in empty.levels ==>
                                                           t.envelopes[p.id].levels[x] ==
                                                           Level(HardSum(t.reservations, p.id, x) - HardSum(s.reservations, p.id, x),
                                                                 SoftSum(t.reservations, p.id, x) - SoftSum(s.reservations, p.id, x), 0, empty.levels[x].cap))
  {
    hide PublishedEnvelope, PublishResource, HardSum, SoftSum, HeldSum, Opens;
    var t, s2, empty := PublishResource(s, p, order).0, Exactness.Reinstalled(s, p), PublishedEnvelope(s, p);
    Exactness.ReplacementKeepsExcess(s, p, order);
    Exactness.ReinstalledShape(s, p);
    PublishedOpens(s, p);
    forall x | x in empty.levels
      ensures x in t.envelopes[p.id].levels
      ensures t.envelopes[p.id].levels[x] == Level(HardSum(t.reservations, p.id, x) - HardSum(s.reservations, p.id, x),
                                                   SoftSum(t.reservations, p.id, x) - SoftSum(s.reservations, p.id, x), 0, empty.levels[x].cap)
    {
      assert InSpan(s2, p.id, x) && InSpan(t, p.id, x);
      MirrorSteps.PublishedLevels(s, p, x);
      assert Exactness.Excess(t, p.id, x) == Exactness.Excess(s2, p.id, x);
    }
  }

  // ---- invalidation and advance ----

  /** Besides reservations and recorded boots, nothing but the record of the resource changes. */
  predicate Relabels(s: State, t: State, id: nat, res: Resource) {
    t == s.(workerBoots := t.workerBoots, resources := s.resources[id := res], reservations := t.reservations)
    && t.reservations.Keys == s.reservations.Keys
  }

  /** A known resource becomes unavailable, and every reservation on it that holds capacity, live or
      not, must be revalidated. */
  lemma InvalidateLaw(s: State, id: nat)
    ensures var (t, out) := InvalidateResource(s, id);
            && (out.Done? <==> id in s.resources)
            && if out.Refused? then t == s
               else
                 && Relabels(s, t, id, s.resources[id].(available := false)) && t.workerBoots == s.workerBoots
                 && forall k :: k in s.reservations ==>
                                  var r := s.reservations[k];
                                  t.reservations[k] == if r.resource == id && Occupies(r.lifecycle) then r.(lifecycle := REVALIDATION_REQUIRED) else r
    ensures Step(s, OpInvalidate(id)) == InvalidateResource(s, id).0
  {
    hide HoldsCapacity, Occupies;
    Codes();
  }

  /** A later generation is taken over, with the availability its condition says, and the live
      reservations on the resource, and no others, must be revalidated. */
  lemma AdvanceLaw(s: State, id: nat, generation: nat, condition: Byte)
    ensures var (t, out) := AdvanceGeneration(s, id, generation, condition);
            && (out.Done? <==> id in s.resources && s.resources[id].generation < generation)
            && if out.Refused? then t == s
               else
                 && Relabels(s, t, id, s.resources[id].(generation := generation,
                 available := condition != CONDITION_UNAVAILABLE && condition != CONDITION_INVALIDATED)) && t.workerBoots == s.workerBoots
                 && forall k :: k in s.reservations ==>
                                  var r := s.reservations[k];
                                  t.reservations[k] == if r.resource == id && 9 <= r.lifecycle <= 11 then r.(lifecycle := REVALIDATION_REQUIRED) else r
    ensures Step(s, OpAdvance(id, generation, condition)) == AdvanceGeneration(s, id, generation, condition).0
  {
    hide IsLive;
    Codes();
  }

  // ---- revalidation ----

  /** Exactly the waiting records on the resource become pending, bound to the generation. */
  ghost predicate Rebinds(before: map<nat, Reservation>, after: map<nat, Reservation>, resource: nat, generation: nat) {
    after.Keys == before.Keys
    && forall k :: k in before ==>
                     after[k] == if before[k].resource == resource && before[k].lifecycle == REVALIDATION_REQUIRED then
                                   before[k].(lifecycle := PENDING_ACTIVATION, boundGeneration := Some(generation))
                                 else before[k]
  }

  lemma RevalidationRebinds(s: State, id: nat, p: Publication)
    ensures var (t, out) := RevalidateResource(s, id, p); out.Done? ==> Rebinds(s.reservations, t.reservations, id, p.generation)
  {
  }

  /** A publication not from an earlier boot revalidates a known resource, of whatever generation:
      the resource takes over generation, owner, boot, capabilities and topology and is available.
      Exactly the reservations on it that waited become pending, bound to the published generation;
      every other record is as before. */
  lemma RevalidateLaw(s: State, id: nat, p: Publication)
    ensures var (t, out) := RevalidateResource(s, id, p);
            && (out.Done? <==> id in s.resources && !Rebooted(s, p))
            && if out.Refused? then t == s
               else
                 && Relabels(s, t, id, s.resources[id].(generation := p.generation, owner := p.worker, ownerBoot := p.workerBoot,
                 capabilities := p.capabilities, topology := p.topology, available := true))
                 && t.workerBoots == s.workerBoots[p.worker := p.workerBoot]
                 && Rebinds(s.reservations, t.reservations, id, p.generation)
    ensures Step(s, OpRevalidate(id, p)) == RevalidateResource(s, id, p).0
  {
  }

  /** A reservation that waited for its resource is activated after the revalidation if and only if
      the evidence is from the worker and boot that published it, within the window and not behind
      the reservation's last activation. */
  lemma RevalidatedIsActivated(s: State, id: nat, p: Publication, k: nat, generation: nat, e: Evidence)
    requires RevalidateResource(s, id, p).1.Done?
    requires Live(s, k, generation) && s.reservations[k].resource == id && s.reservations[k].lifecycle == REVALIDATION_REQUIRED
    ensures var r, t := s.reservations[k], RevalidateResource(s, id, p).0;
            var (u, out) := Activate(t, k, generation, e);
            && (out == Activated <==> e.worker == p.worker && e.workerBoot == p.workerBoot && r.window.start <= e.at < r.window.end
                                      && (r.activationGeneration.Some? ==> r.activationGeneration.value <= e.generation))
            && out != Revalidate
            && (out == Activated ==> Becomes(t, u, k, r.(lifecycle := ACTIVE, boundGeneration := Some(p.generation), activatedAt := Some(e.at),
               activationGeneration := Some(e.generation), activated := r.quantity)))
            && (out != Activated ==> u == t)
  {
    hide RevalidateResource, Activate;
    RevalidateLaw(s, id, p);
    ActivateLaw(RevalidateResource(s, id, p).0, k, generation, e);
  }

  /** Without the revalidation it cannot be: no evidence activates a reservation that waits. */
  lemma WaitingIsNotActivated(s: State, id: nat, generation: nat, e: Evidence)
    requires Live(s, id, generation) && s.reservations[id].lifecycle == REVALIDATION_REQUIRED
    ensures Activate(s, id, generation, e).1 != Activated
  {
    hide Activate;
    ActivateLaw(s, id, generation, e);
  }
}
