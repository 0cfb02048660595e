/** Fencing over whole runs: superseded generations, stale worker boots and stale evidence stay
    refused whatever happens in between. */
module Authority {
  import opened Types
  import opened Envelopes
  import opened Registry
  import opened Fencing

  // ---- small steps ----

  /** The record keeps its terms; if its lifecycle or binding changes it does not become live. */
  ghost predicate Eased(r: Reservation, r': Reservation) {
    && r' == r.(contributes := r'.contributes, lifecycle := r'.lifecycle, releasedAt := r'.releasedAt,
             releaseGeneration := r'.releaseGeneration, boundGeneration := r'.boundGeneration)
    && ((r'.lifecycle == r.lifecycle && r'.boundGeneration == r.boundGeneration) || !IsLive(r'.lifecycle))
  }

  /** A resource keeps its owner and boot, or gets an owner whose boot is recorded and not below
      the one recorded before. */
  ghost predicate OwnerOk(s: State, t: State, id: nat)
    requires id in t.resources
  {
    var res := t.resources[id];
    || (id in s.resources && s.resources[id].owner == res.owner && s.resources[id].ownerBoot == res.ownerBoot)
    || (res.owner in t.workerBoots && t.workerBoots[res.owner] == res.ownerBoot)
  }

  ghost predicate BootsRise(s: State, t: State) {
    forall w :: w in s.workerBoots ==> w in t.workerBoots && s.workerBoots[w] <= t.workerBoots[w]
  }

  ghost predicate NoLiveOn(s: State, resource: nat) {
    forall k :: k in s.reservations && s.reservations[k].resource == resource ==> !IsLive(s.reservations[k].lifecycle)
  }

  /** Same identities and generations. */
  ghost predicate SameRegistry(s: State, t: State) {
    && t.reservations.Keys == s.reservations.Keys && t.currentGen == s.currentGen && t.history == s.history
    && t.nextReservationId == s.nextReservationId
  }

  ghost predicate SameResources(s: State, t: State) {
    t.resources == s.resources && t.workerBoots == s.workerBoots
  }

  ghost predicate Calm(s: State, t: State) {
    && SameRegistry(s, t)
    && s.resources.Keys <= t.resources.Keys
    && BootsRise(s, t)
    && (forall k :: k in s.reservations ==> Eased(s.reservations[k], t.reservations[k]))
    && (forall id :: id in t.resources ==> OwnerOk(s, t, id))
    && (forall id :: id in s.resources ==> t.resources[id].available || t.resources[id].available == s.resources[id].available || NoLiveOn(t, id))
  }

  /** One new record, at its first generation, not live and nothing consumed. */
  ghost predicate Born(s: State, t: State) {
    var id := s.nextReservationId + 1;
    && SameResources(s, t) && t.history == s.history && id !in s.reservations
    && id in t.reservations && t.reservations == s.reservations[id := t.reservations[id]]
    && t.currentGen == s.currentGen[id := 1] && t.nextReservationId == id
    && t.reservations[id].lifecycle == COMMITTED && t.reservations[id].consumed.value == 0
  }

  /** One record gives way to its next generation, which is not live. */
  ghost predicate Succeeded(s: State, t: State, id: nat) {
    && SameResources(s, t) && id in s.reservations && id in t.reservations
    && t.reservations == s.reservations[id := t.reservations[id]]
    && t.currentGen == s.currentGen[id := s.reservations[id].generation + 1]
    && t.nextReservationId == s.nextReservationId
    && t.reservations[id].lifecycle == COMMITTED
    && t.reservations[id].consumptionGeneration == s.reservations[id].consumptionGeneration
  }

  /** Fully consumed means the whole quantity, partly consumed means some of it and, when the
      quantity is stated in the reservation's own unit, not all of it. */
  ghost predicate Metered(r: Reservation) {
    && (r.lifecycle == CONSUMED ==> r.consumed.value == r.quantity.value && r.quantity.unit == r.unit)
    && (r.lifecycle == PARTIALLY_CONSUMED ==> 0 < r.consumed.value <= r.quantity.value)
    && (r.lifecycle == PARTIALLY_CONSUMED && r.consumed.value == r.quantity.value ==> r.quantity.unit != r.unit)
  }

  ghost predicate GenerationRises(a: Option<nat>, b: Option<nat>) {
    a == b || (b.Some? && (a.Some? ==> a.value < b.value))
  }

  /** One record becomes or stays live while its resource is available. */
  ghost predicate Heated(s: State, t: State, id: nat) {
    && SameResources(s, t) && SameRegistry(s, t) && id in s.reservations && id in t.reservations
    && t.reservations == s.reservations[id := t.reservations[id]]
    && s.reservations[id].resource in s.resources && s.resources[s.reservations[id].resource].available
    && t.reservations[id].resource == s.reservations[id].resource
    && t.reservations[id].generation == s.reservations[id].generation
    && Metered(t.reservations[id])
    && GenerationRises(s.reservations[id].consumptionGeneration, t.reservations[id].consumptionGeneration)
  }

  ghost predicate Mild(s: State, t: State) {
    Calm(s, t) || Born(s, t)
  }

  ghost predicate Small(s: State, t: State) {
    Mild(s, t) || exists id :: id in s.reservations && (Succeeded(s, t, id) || Heated(s, t, id))
  }

  // ---- every operation is a chain of small steps ----

  lemma EasedSame(s: State)
    ensures forall k :: k in s.reservations ==> Eased(s.reservations[k], s.reservations[k])
  {
  }

  lemma CalmQuiet(s: State, t: State)
    requires SameResources(s, t) && SameRegistry(s, t) && t.reservations == s.reservations
    ensures Calm(s, t)
  {
    EasedSame(s);
  }

  lemma CalmOne(s: State, t: State, id: nat)
    requires SameResources(s, t) && SameRegistry(s, t) && id in s.reservations && id in t.reservations
    requires t.reservations == s.reservations[id := t.reservations[id]] && Eased(s.reservations[id], t.reservations[id])
    ensures Calm(s, t)
  {
    EasedSame(s);
  }

  lemma SmallEnd(s: State, t: State, id: nat, lifecycle: Byte)
    requires id in s.reservations && !IsLive(lifecycle)
    requires var (s1, r) := Withdraw(s, s.reservations[id]);
             exists at, g :: t == Put(s1, id, r.(lifecycle := lifecycle, releasedAt := at, releaseGeneration := g))
    ensures Calm(s, t)
  {
    hide IsLive, AddCommitted, Calm;
    CalmOne(s, t, id);
  }

  lemma SmallExpireOne(s: State, now: int, id: nat)
    ensures Calm(s, ExpireOne(s, now, id))
  {
    hide Calm, Withdraw;
    if IsDue(s, now, id) {
      var (s1, r) := Withdraw(s, s.reservations[id]);
      WithdrawShape(s, s.reservations[id]);
      assert ExpireOne(s, now, id) == Put(s1, id, r.(lifecycle := EXPIRED, releasedAt := Some(now), releaseGeneration := r.releaseGeneration));
      SmallEnd(s, ExpireOne(s, now, id), id, EXPIRED);
    } else {
      CalmQuiet(s, s);
    }
  }

  lemma SmallCancelMember(s: State, id: nat)
    ensures Calm(s, CancelMember(s, id))
  {
    hide Calm, Withdraw;
    if id in s.reservations {
      var (s1, r) := Withdraw(s, s.reservations[id]);
      assert CancelMember(s, id) == Put(s1, id, r.(lifecycle := CANCELLED, releasedAt := r.releasedAt, releaseGeneration := r.releaseGeneration));
      SmallEnd(s, CancelMember(s, id), id, CANCELLED);
    } else {
      CalmQuiet(s, s);
    }
  }

  lemma SmallDrop(s: State, id: nat, state: Byte)
    requires id in s.holds
    ensures Calm(s, DropHold(s, id, state))
  {
    hide Calm, AddHeld;
    CalmQuiet(s, DropHold(s, id, state));
  }

  lemma SmallReleaseProvisional(s: State, id: nat)
    ensures Calm(s, ReleaseProvisional(s, id))
  {
    hide Calm, DropHold;
    if id in s.holds {
      SmallDrop(s, id, HOLD_RELEASED);
    }
    if s.reservations == ReleaseProvisional(s, id).reservations {
      CalmQuietIf(s, ReleaseProvisional(s, id));
    }
  }

  lemma CalmQuietIf(s: State, t: State)
    ensures SameResources(s, t) && SameRegistry(s, t) && t.reservations == s.reservations ==> Calm(s, t)
  {
    hide Calm;
    if SameResources(s, t) && SameRegistry(s, t) && t.reservations == s.reservations {
      CalmQuiet(s, t);
    }
  }

  lemma SmallExpireHold(s: State, now: int, id: nat)
    ensures Calm(s, ExpireHold(s, now, id))
  {
    hide Calm, DropHold;
    CalmQuietIf(s, s);
    if id in s.holds {
      SmallDrop(s, id, HOLD_EXPIRED);
    }
  }

  lemma AcquireQuiet(s: State, spec: HoldSpec, now: int)
    ensures var t := AcquireHold(s, spec, now).0;
            SameResources(s, t) && SameRegistry(s, t) && t.reservations == s.reservations
  {
    hide AddHeld, Candidates, Headroom, ValidSpec, Best, IsBest;
  }

  lemma SmallAcquire(s: State, spec: HoldSpec, now: int)
    ensures Calm(s, AcquireHold(s, spec, now).0)
  {
    hide Calm, AcquireHold, SameResources, SameRegistry;
    AcquireQuiet(s, spec, now);
    CalmQuietIf(s, AcquireHold(s, spec, now).0);
  }

  lemma SmallCommit(s: State, req: Request, hold: Option<nat>)
    requires Struct(s)
    ensures CommitOne(s, req, hold).0 == s || Born(s, CommitOne(s, req, hold).0)
  {
    hide Assess, Contribute, Held;
    if CommitAllowed(s, req, hold) {
      CommitShape(s, req, hold);
      SmallCommitFrame(s, req, hold);
    }
  }

  lemma SmallCommitFrame(s: State, req: Request, hold: Option<nat>)
    requires CommitAllowed(s, req, hold)
    ensures CommitOne(s, req, hold).0.workerBoots == s.workerBoots
  {
    hide Assess, AddCommitted, AddHeld;
  }

  lemma SmallReadmit(s: State, resource: nat, id: nat)
    ensures Calm(s, Readmit(s, resource, id))
  {
    hide Calm, AddCommitted, HoldsCapacity;
    if Readmit(s, resource, id) == s {
      CalmQuiet(s, s);
    } else {
      CalmOne(s, Readmit(s, resource, id), id);
    }
  }

  /** Any property kept by mild steps is kept by the operations made of them. */
  lemma ByFold(s: State, order: seq<nat>, f: (State, nat) -> State, P: State -> bool)
    requires Struct(s) && P(s)
    requires forall x: State, y: State :: Struct(x) && P(x) && Mild(x, y) ==> P(y)
    requires forall x: State, id: nat :: Calm(x, f(x, id))
    requires forall x: State, id: nat :: Struct(x) ==> Struct(f(x, id))
    ensures P(Fold(s, order, f)) && Struct(Fold(s, order, f))
  {
    hide Struct, Calm;
    forall x: State, id: nat | Struct(x) && P(x) ensures Struct(f(x, id)) && P(f(x, id)) {
      assert Mild(x, f(x, id));
    }
    FoldKeeps(s, order, f, x => Struct(x) && P(x));
  }

  lemma {:induction false} ByAcquireAll(s: State, members: seq<Request>, now: int, P: State -> bool)
    requires Struct(s) && P(s)
    requires forall x: State, y: State :: Struct(x) && P(x) && Mild(x, y) ==> P(y)
    ensures P(AcquireAll(s, members, now).0)
    decreases |members|
  {
    hide Struct, Calm, AcquireHold;
    if members != [] {
      var id := s.nextHoldId + 1;
      var s0 := s.(nextHoldId := id);
      CalmQuiet(s, s0);
      StructCounters(s, s0);
      assert Mild(s, s0);
      SmallAcquire(s0, MemberSpec(members[0], id), now);
      StructAcquire(s0, MemberSpec(members[0], id), now);
      var s1 := AcquireHold(s0, MemberSpec(members[0], id), now).0;
      assert Mild(s0, s1);
      ByAcquireAll(s1, members[1..], now, P);
    }
  }

  lemma {:induction false} ByReleaseRange(s: State, from: nat, to: int, P: State -> bool)
    requires Struct(s) && P(s)
    requires forall x: State, y: State :: Struct(x) && P(x) && Mild(x, y) ==> P(y)
    ensures P(ReleaseRange(s, from, to))
    decreases if from < to then to - from else 0
  {
    hide Struct, Calm, ReleaseProvisional;
    if from < to {
      SmallReleaseProvisional(s, from + 1);
      StructReleaseProvisional(s, from + 1);
      assert Mild(s, ReleaseProvisional(s, from + 1));
      ByReleaseRange(ReleaseProvisional(s, from + 1), from + 1, to, P);
    }
  }

  lemma {:induction false} ByCancelRange(s: State, from: nat, to: nat, P: State -> bool)
    requires Struct(s) && P(s)
    requires forall x: State, y: State :: Struct(x) && P(x) && Mild(x, y) ==> P(y)
    ensures P(CancelRange(s, from, to)) && Struct(CancelRange(s, from, to))
    decreases if from < to then to - from else 0
  {
    hide Struct, Calm, CancelMember;
    if from < to {
      SmallCancelMember(s, from + 1);
      StructCancelMember(s, from + 1);
      assert Mild(s, CancelMember(s, from + 1));
      ByCancelRange(CancelMember(s, from + 1), from + 1, to, P);
    }
  }

  lemma {:induction false} ByCommitAll(s: State, members: seq<Request>, firstHold: nat, P: State -> bool)
    requires Struct(s) && P(s)
    requires forall x: State, y: State :: Struct(x) && P(x) && Mild(x, y) ==> P(y)
    ensures P(CommitAll(s, members, firstHold).0)
    decreases |members|
  {
    hide Struct, Calm, CommitOne, Born;
    if members != [] {
      var s1 := CommitOne(s, members[0], Some(firstHold + 1)).0;
      SmallCommit(s, members[0], Some(firstHold + 1));
      StructCommit(s, members[0], Some(firstHold + 1));
      assert s1 == s || Mild(s, s1);
      ByCommitAll(s1, members[1..], firstHold + 1, P);
    }
  }

  lemma ByBundle(s: State, members: seq<Request>, now: int, P: State -> bool)
    requires Struct(s) && P(s)
    requires forall x: State, y: State :: Struct(x) && P(x) && Mild(x, y) ==> P(y)
    ensures P(CommitBundle(s, members, now).0)
  {
    hide Struct, Calm, AcquireAll, CommitAll, ReleaseRange, CancelRange, AllAdmitted;
    var s0 := s.(nextSetId := s.nextSetId + 1);
    StructCounters(s, s0);
    CalmQuiet(s, s0);
    assert Mild(s, s0);
    if AllAdmitted(s0, members) {
      var (s1, held) := AcquireAll(s0, members, now);
      StructAcquireAll(s0, members, now);
      ByAcquireAll(s0, members, now, P);
      if !held {
        ByReleaseRange(s1, s.nextHoldId, s1.nextHoldId - 1, P);
      } else {
        var (s2, n) := CommitAll(s1, members, s.nextHoldId);
        StructCommitAll(s1, members, s.nextHoldId);
        ByCommitAll(s1, members, s.nextHoldId, P);
        if n < |members| {
          ByCancelRange(s2, s.nextReservationId, s.nextReservationId + n, P);
          ByReleaseRange(CancelRange(s2, s.nextReservationId, s.nextReservationId + n), s.nextHoldId + n, s.nextHoldId + |members|, P);
        } else {
          var made := BundleSet(s, members);
          var s3 := s2.(sets := s2.sets[made.id := made]);
          CalmQuiet(s2, s3);
          assert Mild(s2, s3);
        }
      }
    }
  }

  lemma SmallPublish(s: State, p: Publication)
    requires !BootIsStale(s, p.worker, p.workerBoot)
    ensures var s1 := s.(workerBoots := s.workerBoots[p.worker := p.workerBoot]);
            && Calm(s, s1)
            && Calm(s, s1.(resources := s.resources[p.id := ResourceOf(p)], envelopes := s.envelopes[p.id := PublishedEnvelope(s, p)]))
  {
    hide PublishedEnvelope, IsLive;
    EasedSame(s);
  }

  lemma ByPublish(s: State, p: Publication, order: seq<nat>, P: State -> bool)
    requires Struct(s) && P(s)
    requires forall x: State, y: State :: Struct(x) && P(x) && Mild(x, y) ==> P(y)
    ensures P(PublishResource(s, p, order).0)
  {
    hide PublishedEnvelope, Struct, Calm, Readmit, Fold;
    if p.id != 0 && !BootIsStale(s, p.worker, p.workerBoot) {
      SmallPublish(s, p);
      var s1 := s.(workerBoots := s.workerBoots[p.worker := p.workerBoot]);
      var s2 := s1.(resources := s.resources[p.id := ResourceOf(p)], envelopes := s.envelopes[p.id := PublishedEnvelope(s, p)]);
      assert Mild(s, s1) && Mild(s, s2);
      StructNewEnvelope(s, p);
      forall x: State, id: nat ensures Calm(x, Readmit(x, p.id, id)) { SmallReadmit(x, p.id, id); }
      forall x: State, id: nat | Struct(x) ensures Struct(Readmit(x, p.id, id)) { StructReadmit(x, p.id, id); }
      ByFold(s2, order, (x: State, id: nat) => Readmit(x, p.id, id), P);
    }
  }

  lemma LiveHolds()
    ensures forall l: Byte :: IsLive(l) ==> HoldsCapacity(l)
    ensures !IsLive(REVALIDATION_REQUIRED) && !IsLive(PENDING_ACTIVATION)
  {
  }

  /** One resource changes, and records are eased along with it. */
  lemma CalmResource(s: State, t: State, id: nat)
    requires t == s.(resources := t.resources, workerBoots := t.workerBoots, reservations := t.reservations)
    requires id in s.resources && id in t.resources && t.resources == s.resources[id := t.resources[id]]
    requires t.reservations.Keys == s.reservations.Keys && forall k :: k in s.reservations ==> Eased(s.reservations[k], t.reservations[k])
    requires BootsRise(s, t) && OwnerOk(s, t, id)
    requires t.resources[id].available || t.resources[id].available == s.resources[id].available || NoLiveOn(t, id)
    ensures Calm(s, t)
  {
    hide Eased, NoLiveOn;
  }

  lemma InvalidatedEased(r: Reservation, resource: nat)
    ensures Eased(r, Invalidated(r, resource)) && (Invalidated(r, resource).resource == resource ==> !IsLive(Invalidated(r, resource).lifecycle))
  {
    hide HoldsCapacity, IsLive;
    LiveHolds();
  }

  lemma FlaggedEased(r: Reservation, resource: nat)
    ensures Eased(r, Flagged(r, resource)) && (Flagged(r, resource).resource == resource ==> !IsLive(Flagged(r, resource).lifecycle))
  {
    hide HoldsCapacity, IsLive;
    LiveHolds();
  }

  lemma RevalidatedEased(r: Reservation, resource: nat, generation: nat)
    ensures Eased(r, Revalidated(r, resource, generation))
  {
    hide HoldsCapacity, IsLive;
    LiveHolds();
  }

  lemma SmallInvalidate(s: State, id: nat)
    ensures Calm(s, InvalidateResource(s, id).0)
  {
    hide Calm, Eased, IsLive, Invalidated;
    CalmQuietIf(s, s);
    if id in s.resources {
      forall r: Reservation ensures Eased(r, Invalidated(r, id)) && (Invalidated(r, id).resource == id ==> !IsLive(Invalidated(r, id).lifecycle)) {
        InvalidatedEased(r, id);
      }
      CalmResource(s, InvalidateResource(s, id).0, id);
    }
  }

  lemma SmallAdvance(s: State, id: nat, generation: nat, condition: Byte)
    ensures Calm(s, AdvanceGeneration(s, id, generation, condition).0)
  {
    hide Calm, Eased, IsLive, Flagged;
    CalmQuietIf(s, s);
    if id in s.resources && generation > s.resources[id].generation {
      forall r: Reservation ensures Eased(r, Flagged(r, id)) && (Flagged(r, id).resource == id ==> !IsLive(Flagged(r, id).lifecycle)) {
        FlaggedEased(r, id);
      }
      CalmResource(s, AdvanceGeneration(s, id, generation, condition).0, id);
    }
  }

  lemma SmallRevalidate(s: State, id: nat, p: Publication)
    ensures Calm(s, RevalidateResource(s, id, p).0)
  {
    hide Calm, Eased, Revalidated;
    CalmQuietIf(s, s);
    if id in s.resources && !BootIsStale(s, p.worker, p.workerBoot) {
      forall r: Reservation ensures Eased(r, Revalidated(r, id, p.generation)) {
        RevalidatedEased(r, id, p.generation);
      }
      CalmResource(s, RevalidateResource(s, id, p).0, id);
    }
  }

  lemma SmallActivate(s: State, id: nat, generation: nat, e: Evidence)
    ensures Small(s, Activate(s, id, generation, e).0)
  {
    hide Calm, Contains, Small;
    CalmQuietIf(s, s);
    SmallCases(s, s, id);
    if IsCurrent(s, id, generation) {
      var r := s.reservations[id];
      var r1 := r.(lifecycle := REVALIDATION_REQUIRED);
      var r2 := r.(lifecycle := ACTIVE, activatedAt := Some(e.at), activationGeneration := Some(e.generation), activated := r.quantity);
      CalmOne(s, Put(s, id, r1), id);
      SmallCases(s, Put(s, id, r1), id);
      SmallCases(s, Put(s, id, r2), id);
    }
  }

  lemma SmallCases(s: State, t: State, id: nat)
    ensures Calm(s, t) ==> Small(s, t)
    ensures id in s.reservations && (Succeeded(s, t, id) || Heated(s, t, id)) ==> Small(s, t)
  {
    hide Calm, Heated, Succeeded;
  }

  lemma SmallConsume(s: State, id: nat, generation: nat, amount: Quantity, e: Evidence)
    requires Struct(s)
    ensures Small(s, Consume(s, id, generation, amount, e).0)
  {
    hide Calm, IsLive, Struct;
    var (t, out) := Consume(s, id, generation, amount, e);
    CalmQuietIf(s, t);
    if out == Accepted {
      CurrentFacts(s, id, generation);
      Positive(s, id, s.reservations[id]);
      assert Heated(s, t, id);
    }
  }

  lemma SmallRelease(s: State, id: nat, generation: nat, e: Evidence)
    ensures Mild(s, ReleaseReservation(s, id, generation, e).0)
  {
    hide Calm, Withdraw, Fresh, IsEnded;
    var (t, out) := ReleaseReservation(s, id, generation, e);
    CalmQuietIf(s, t);
    if out == ReleasedNow {
      SmallEnd(s, t, id, RELEASED);
    }
  }

  lemma SmallCancel(s: State, id: nat, generation: nat)
    ensures Mild(s, Cancel(s, id, generation).0)
  {
    hide Calm, Withdraw, IsEnded;
    CalmQuietIf(s, s);
    SmallCancelMember(s, id);
  }

  lemma SmallRestore(s: State, id: nat, generation: nat)
    requires IsCurrent(s, id, generation)
    ensures var (s1, r1) := Withdraw(s, s.reservations[id]); Calm(s, Restore(s1, id, r1))
  {
    hide Calm, Withdraw, Contribute;
    var (s1, r1) := Withdraw(s, s.reservations[id]);
    WithdrawShape(s, s.reservations[id]);
    CalmOne(s, Restore(s1, id, r1), id);
  }

  lemma CurrentGenerationIs(s: State, id: nat, generation: nat)
    requires Struct(s) && IsCurrent(s, id, generation)
    ensures NextGeneration(s, id) == s.reservations[id].generation + 1
  {
    assert GenerationsOk(s, id);
  }

  lemma FlagOnly(s: State, n: Reservation)
    ensures var m := Contribute(s, n).1;
            m.lifecycle == n.lifecycle && m.generation == n.generation && m.consumptionGeneration == n.consumptionGeneration
  {
    hide AddCommitted;
  }

  lemma SmallAdopt(s: State, id: nat, generation: nat, n: Reservation)
    requires Struct(s) && IsCurrent(s, id, generation) && n.generation == NextGeneration(s, id) && n.lifecycle == COMMITTED
    requires n.consumptionGeneration == s.reservations[id].consumptionGeneration
    ensures var (s1, r1) := Withdraw(s, s.reservations[id]); Succeeded(s, Adopt(s1, id, r1, n), id)
  {
    hide Withdraw, Contribute, Struct, Supersede;
    var (s1, r1) := Withdraw(s, s.reservations[id]);
    WithdrawShape(s, s.reservations[id]);
    CurrentGenerationIs(s, id, generation);
    var (s2, n2) := Contribute(s1, n);
    SupersedeShape(s2, id, r1, n2);
    FlagOnly(s1, n);
  }

  lemma SupersedeShape(s: State, id: nat, old_: Reservation, n: Reservation)
    ensures var t := Supersede(s, id, old_, n);
            && SameResources(s, t) && t.nextReservationId == s.nextReservationId
            && t.reservations == s.reservations[id := n] && t.currentGen == s.currentGen[id := n.generation]
  {
    hide Remembered, HistoryOf;
  }

  lemma SmallResize(s: State, id: nat, generation: nat, q: Quantity, policyGeneration: nat)
    requires Struct(s)
    ensures Small(s, Resize(s, id, generation, q, policyGeneration).0)
  {
    hide Calm, Succeeded, Withdraw, Restore, Adopt, Headroom, Struct, Heated, Born;
    CalmQuietIf(s, s);
    if IsCurrent(s, id, generation) {
      WithdrawShape(s, s.reservations[id]);
      SmallRestore(s, id, generation);
      SmallAdopt(s, id, generation, Resized(Withdraw(s, s.reservations[id]).1, NextGeneration(s, id), q, policyGeneration));
    }
  }

  lemma SmallRenew(s: State, id: nat, generation: nat, w: Interval, policyGeneration: nat)
    requires Struct(s)
    ensures Small(s, Renew(s, id, generation, w, policyGeneration).0)
  {
    hide Calm, Succeeded, Withdraw, Restore, Adopt, Headroom, Struct, Heated, Born;
    CalmQuietIf(s, s);
    if IsCurrent(s, id, generation) {
      WithdrawShape(s, s.reservations[id]);
      SmallRestore(s, id, generation);
      SmallAdopt(s, id, generation, Renewed(Withdraw(s, s.reservations[id]).1, NextGeneration(s, id), w, policyGeneration));
    }
  }

  lemma SmallTransfer(s: State, id: nat, generation: nat, owner: nat, ownerGeneration: nat, e: Evidence)
    requires Struct(s)
    ensures Small(s, Transfer(s, id, generation, owner, ownerGeneration, e).0)
  {
    hide Calm, Remembered, Fresh;
    var (t, out) := Transfer(s, id, generation, owner, ownerGeneration, e);
    CalmQuietIf(s, t);
    if out.Done? {
      CurrentFacts(s, id, generation);
      assert Succeeded(s, t, id);
    }
  }

  lemma ByExpireHolds(s: State, now: int, order: seq<nat>, P: State -> bool)
    requires Struct(s) && P(s)
    requires forall x: State, y: State :: Struct(x) && P(x) && Mild(x, y) ==> P(y)
    ensures P(ExpireHolds(s, now, order))
  {
    hide Struct, Calm, ExpireHold, Mild;
    forall x: State, id: nat ensures Calm(x, ExpireHold(x, now, id)) { SmallExpireHold(x, now, id); }
    forall x: State, id: nat | Struct(x) ensures Struct(ExpireHold(x, now, id)) { StructExpireHold(x, now, id); }
    ByFold(s, order, (x: State, id: nat) => ExpireHold(x, now, id), P);
  }

  lemma ByExpireDue(s: State, now: int, order: seq<nat>, P: State -> bool)
    requires Struct(s) && P(s)
    requires forall x: State, y: State :: Struct(x) && P(x) && Mild(x, y) ==> P(y)
    ensures P(ExpireDue(s, now, order))
  {
    hide Struct, Calm, ExpireOne, Mild;
    forall x: State, id: nat ensures Calm(x, ExpireOne(x, now, id)) { SmallExpireOne(x, now, id); }
    forall x: State, id: nat | Struct(x) ensures Struct(ExpireOne(x, now, id)) { StructExpireOne(x, now, id); }
    ByFold(s, order, (x: State, id: nat) => ExpireOne(x, now, id), P);
  }

  predicate IsMany(op: Op) {
    op.OpPublish? || op.OpBundle? || op.OpExpireHolds? || op.OpExpireDue?
  }

  predicate IsSharp(op: Op) {
    op.OpActivate? || op.OpConsume? || op.OpResize? || op.OpRenew? || op.OpTransfer?
  }

  lemma StepIsMild(s: State, op: Op)
    requires Struct(s) && !IsMany(op) && !IsSharp(op)
    ensures Mild(s, Step(s, op))
  {
    hide Struct, Calm, Born, AcquireHold, CommitOne, ReleaseReservation, Cancel,
         DropHold, InvalidateResource, AdvanceGeneration, RevalidateResource;
    CalmQuietIf(s, s);
    match op
    case OpEpoch(e) => CalmQuietIf(s, Step(s, op));
    case OpInvalidate(id) => SmallInvalidate(s, id);
    case OpAdvance(id, g, c) => SmallAdvance(s, id, g, c);
    case OpRevalidate(id, p) => SmallRevalidate(s, id, p);
    case OpCreateHold(spec, now) => SmallAcquire(s, spec, now);
    case OpReleaseHold(id, g) => if id in s.holds { SmallDrop(s, id, HOLD_RELEASED); }
    case OpCommit(req, hold) => SmallCommit(s, req, hold);
    case OpRelease(id, g, e) => SmallRelease(s, id, g, e);
    case OpCancel(id, g) => SmallCancel(s, id, g);
  }

  lemma StepIsSmall(s: State, op: Op)
    requires Struct(s) && IsSharp(op)
    ensures Small(s, Step(s, op))
  {
    hide Struct, Small, Activate, Consume, Resize, Renew, Transfer;
    match op
    case OpActivate(id, g, e) => SmallActivate(s, id, g, e);
    case OpConsume(id, g, a, e) => SmallConsume(s, id, g, a, e);
    case OpResize(id, g, q, p) => SmallResize(s, id, g, q, p);
    case OpRenew(id, g, w, p) => SmallRenew(s, id, g, w, p);
    case OpTransfer(id, g, o, og, e) => SmallTransfer(s, id, g, o, og, e);
  }

  /** Operations other than activation, consumption and modification are chains of mild steps. */
  lemma StepByMild(s: State, op: Op, P: State -> bool)
    requires Struct(s) && P(s) && !IsSharp(op)
    requires forall x: State, y: State :: Struct(x) && P(x) && Mild(x, y) ==> P(y)
    ensures P(Step(s, op))
  {
    hide Struct, Mild, CommitBundle, PublishResource, ExpireHolds, ExpireDue, IsSharp;
    if op.OpPublish? {
      ByPublish(s, op.publication, op.order, P);
    } else if op.OpBundle? {
      ByBundle(s, op.members, op.now, P);
    } else if op.OpExpireHolds? {
      ByExpireHolds(s, op.now, op.order, P);
    } else if op.OpExpireDue? {
      ByExpireDue(s, op.now, op.order, P);
    } else {
      StepIsMild(s, op);
    }
  }

  lemma StepBySmall(s: State, op: Op, P: State -> bool)
    requires Struct(s) && P(s)
    requires forall x: State, y: State :: Struct(x) && P(x) && Small(x, y) ==> P(y)
    ensures P(Step(s, op))
  {
    hide Struct, Mild, Step, Succeeded, Heated;
    if IsSharp(op) {
      StepIsSmall(s, op);
    } else {
      forall x: State, y: State | Struct(x) && P(x) && Mild(x, y) ensures P(y) {
        assert Small(x, y);
      }
      StepByMild(s, op, P);
    }
  }

  lemma {:induction false} RunBySmall(s: State, ops: seq<Op>, P: State -> bool)
    requires Struct(s) && P(s)
    requires forall x: State, y: State :: Struct(x) && P(x) && Small(x, y) ==> P(y)
    ensures P(RunOps(s, ops)) && Struct(RunOps(s, ops))
    decreases |ops|
  {
    hide Struct, Small, Step;
    if ops != [] {
      RunBySmall(s, ops[..|ops| - 1], P);
      StepBySmall(RunOps(s, ops[..|ops| - 1]), ops[|ops| - 1], P);
      StructStep(RunOps(s, ops[..|ops| - 1]), ops[|ops| - 1]);
    }
  }
}
