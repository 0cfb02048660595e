/** What every step keeps, without any condition on the step: well-formed records, generation
    and boot fencing, and the evidence behind live reservations. */
module Fencing {
  import opened Types
  import opened Envelopes
  import opened Registry

  // ---- structure ----

  ghost predicate ReservationOk(s: State, id: nat, r: Reservation) {
    && r.id == id && id <= s.nextReservationId
    && r.resource in s.resources
    && r.quantity.value > 0
    && r.boundGeneration.Some?
    && 0 <= r.consumed.value <= r.quantity.value
  }

  /** The live record carries the current generation; history is a bounded, contiguous run of
      generations ending just below it. */
  ghost predicate GenerationsOk(s: State, id: nat) {
    && id in s.currentGen && id in s.reservations
    && s.currentGen[id] == s.reservations[id].generation
    && s.currentGen[id] > 0
    && var h := HistoryOf(s, id);
       && |h| <= s.config.maxHistory && |h| < s.currentGen[id]
       && forall i :: 0 <= i < |h| ==> h[i].id == id && h[i].generation == s.currentGen[id] - |h| + i
  }

  ghost predicate HoldOk(s: State, id: nat, h: Hold) {
    && h.spec.id == id && h.resource in s.resources && h.spec.quantity.value > 0
    && (h.state == HOLD_ACQUIRED <==> h.applied)
  }

  ghost predicate Struct(s: State) {
    && s.resources.Keys == s.envelopes.Keys && 0 !in s.resources
    && s.currentGen.Keys == s.reservations.Keys && s.history.Keys <= s.reservations.Keys
    && (forall id :: id in s.reservations ==> ReservationOk(s, id, s.reservations[id]))
    && (forall id :: id in s.reservations ==> GenerationsOk(s, id))
    && (forall id :: id in s.holds ==> HoldOk(s, id, s.holds[id]))
  }

  lemma RecordIsOk(s: State, id: nat)
    requires Struct(s) && id in s.reservations
    ensures ReservationOk(s, id, s.reservations[id])
  {
  }

  /** Records of untouched identities stay well-formed while resources only grow and counters rise. */
  lemma FrameReservation(s: State, t: State, k: nat)
    requires Struct(s) && k in s.reservations && k in t.reservations && t.reservations[k] == s.reservations[k]
    requires s.resources.Keys <= t.resources.Keys && s.nextReservationId <= t.nextReservationId && t.config == s.config
    requires k in t.currentGen && t.currentGen[k] == s.currentGen[k] && HistoryOf(t, k) == HistoryOf(s, k)
    ensures ReservationOk(t, k, t.reservations[k]) && GenerationsOk(t, k)
  {
    assert ReservationOk(s, k, s.reservations[k]) && GenerationsOk(s, k);
  }

  lemma FrameHold(s: State, t: State, k: nat)
    requires Struct(s) && k in s.holds && k in t.holds && t.holds[k] == s.holds[k] && s.resources.Keys <= t.resources.Keys
    ensures HoldOk(t, k, t.holds[k])
  {
    assert HoldOk(s, k, s.holds[k]);
  }

  lemma {:induction false} FoldKeeps(s: State, order: seq<nat>, f: (State, nat) -> State, P: State -> bool)
    requires P(s) && forall x: State, id: nat :: P(x) ==> P(f(x, id))
    ensures P(Fold(s, order, f))
    decreases |order|
  {
    if order != [] {
      FoldKeeps(s, order[..|order| - 1], f, P);
    }
  }

  /** Replacing one live record by another with the same generation. */
  lemma StructPut(s: State, t: State, id: nat, r: Reservation)
    requires Struct(s) && id in s.reservations && ReservationOk(s, id, r) && r.generation == s.reservations[id].generation
    requires t.envelopes.Keys == s.envelopes.Keys && t == Put(s.(envelopes := t.envelopes), id, r)
    ensures Struct(t)
  {
    hide ReservationOk, GenerationsOk, HoldOk;
    PutOk(s, t, id, r);
    forall k | k in t.reservations ensures GenerationsOk(t, k) && ReservationOk(t, k, t.reservations[k]) {
      if k != id { FrameReservation(s, t, k); }
    }
    forall k | k in t.holds ensures HoldOk(t, k, t.holds[k]) {
      FrameHold(s, t, k);
    }
  }

  lemma PutOk(s: State, t: State, id: nat, r: Reservation)
    requires Struct(s) && id in s.reservations && ReservationOk(s, id, r) && r.generation == s.reservations[id].generation
    requires t == Put(s.(envelopes := t.envelopes), id, r)
    ensures GenerationsOk(t, id) && ReservationOk(t, id, r)
  {
    assert GenerationsOk(s, id);
  }

  /** Remembering the superseded record keeps history contiguous under the next generation. */
  lemma HistoryContiguous(h: seq<Reservation>, r: Reservation, bound: nat, id: nat)
    requires |h| <= bound && |h| < r.generation && r.id == id
    requires forall i :: 0 <= i < |h| ==> h[i].id == id && h[i].generation == r.generation - |h| + i
    ensures var g := Remembered(h, r, bound);
            && |g| <= bound && |g| < r.generation + 1
            && forall i :: 0 <= i < |g| ==> g[i].id == id && g[i].generation == r.generation + 1 - |g| + i
  {
  }

  lemma SupersededOk(s: State, t: State, id: nat, old_: Reservation, r: Reservation)
    requires Struct(s) && id in s.reservations && ReservationOk(s, id, r)
    requires old_.id == id && old_.generation == s.reservations[id].generation && r.generation == old_.generation + 1
    requires t == Supersede(s.(envelopes := t.envelopes), id, old_, r)
    ensures GenerationsOk(t, id) && ReservationOk(t, id, r)
  {
    hide Remembered;
    assert GenerationsOk(s, id);
    HistoryContiguous(HistoryOf(s, id), old_.(contributes := false), s.config.maxHistory, id);
  }

  /** Replacing a live record by its next generation. */
  lemma StructSupersede(s: State, t: State, id: nat, old_: Reservation, r: Reservation)
    requires Struct(s) && id in s.reservations && ReservationOk(s, id, r)
    requires old_.id == id && old_.generation == s.reservations[id].generation && r.generation == old_.generation + 1
    requires t.envelopes.Keys == s.envelopes.Keys && t == Supersede(s.(envelopes := t.envelopes), id, old_, r)
    ensures Struct(t)
  {
    hide Remembered;
    SupersededOk(s, t, id, old_, r);
    forall k | k in t.reservations ensures GenerationsOk(t, k) && ReservationOk(t, k, t.reservations[k]) {
      if k != id { FrameReservation(s, t, k); }
    }
    forall k | k in t.holds ensures HoldOk(t, k, t.holds[k]) {
      FrameHold(s, t, k);
    }
  }

  /** Changing lifecycles and bindings of live records in place, and resources that exist. */
  lemma StructRelabel(s: State, t: State)
    requires Struct(s)
    requires t == s.(resources := t.resources, workerBoots := t.workerBoots, reservations := t.reservations)
    requires t.resources.Keys == s.resources.Keys && t.reservations.Keys == s.reservations.Keys
    requires forall k :: k in s.reservations ==>
                           t.reservations[k] == s.reservations[k].(lifecycle := t.reservations[k].lifecycle, boundGeneration := t.reservations[k].boundGeneration)
                           && t.reservations[k].boundGeneration.Some?
    ensures Struct(t)
  {
    forall k | k in t.reservations ensures GenerationsOk(t, k) && ReservationOk(t, k, t.reservations[k]) {
      assert GenerationsOk(s, k) && ReservationOk(s, k, s.reservations[k]);
    }
    forall k | k in t.holds ensures HoldOk(t, k, t.holds[k]) {
      assert HoldOk(s, k, s.holds[k]);
    }
  }

  lemma StructHold(s: State, t: State, id: nat)
    requires Struct(s) && id in t.holds && HoldOk(s, id, t.holds[id])
    requires t.envelopes.Keys == s.envelopes.Keys && t == s.(envelopes := t.envelopes, holds := s.holds[id := t.holds[id]], nextHoldId := t.nextHoldId)
    ensures Struct(t)
  {
    forall k | k in t.reservations ensures GenerationsOk(t, k) && ReservationOk(t, k, t.reservations[k]) {
      assert GenerationsOk(s, k) && ReservationOk(s, k, s.reservations[k]);
    }
    forall k | k in t.holds ensures HoldOk(t, k, t.holds[k]) {
      if k != id { assert HoldOk(s, k, s.holds[k]); }
    }
  }

  /** Counters, epochs and sets do not matter. */
  lemma StructCounters(s: State, t: State)
    requires Struct(s)
    requires t == s.(epoch := t.epoch, authority := t.authority, workerBoots := t.workerBoots, sets := t.sets,
    nextHoldId := t.nextHoldId, nextSetId := t.nextSetId)
    ensures Struct(t)
  {
    forall k | k in t.reservations ensures GenerationsOk(t, k) && ReservationOk(t, k, t.reservations[k]) {
      assert GenerationsOk(s, k) && ReservationOk(s, k, s.reservations[k]);
    }
    forall k | k in t.holds ensures HoldOk(t, k, t.holds[k]) {
      assert HoldOk(s, k, s.holds[k]);
    }
  }

  lemma StructAcquire(s: State, spec: HoldSpec, now: int)
    requires Struct(s)
    ensures Struct(AcquireHold(s, spec, now).0)
  {
    var (t, ok) := AcquireHold(s, spec, now);
    if ok { StructHold(s, t, spec.id); }
  }

  lemma StructDrop(s: State, id: nat, state: Byte)
    requires Struct(s) && id in s.holds && state != HOLD_ACQUIRED
    ensures Struct(DropHold(s, id, state))
  {
    assert HoldOk(s, id, s.holds[id]);
    StructHold(s, DropHold(s, id, state), id);
  }

  lemma StructReleaseProvisional(s: State, id: nat)
    requires Struct(s)
    ensures Struct(ReleaseProvisional(s, id))
  {
    if id in s.holds {
      assert HoldOk(s, id, s.holds[id]);
      if s.holds[id].state in {HOLD_RELEASED, HOLD_EXPIRED, HOLD_COMMITTED} {
        StructHold(s, ReleaseProvisional(s, id), id);
      } else {
        StructDrop(s, id, HOLD_RELEASED);
      }
    }
  }

  lemma StructExpireHold(s: State, now: int, id: nat)
    requires Struct(s)
    ensures Struct(ExpireHold(s, now, id))
  {
    if id in s.holds && s.holds[id].state == HOLD_ACQUIRED && s.holds[id].expiry < now {
      StructDrop(s, id, HOLD_EXPIRED);
    }
  }

  lemma StructExpireOne(s: State, now: int, id: nat)
    requires Struct(s)
    ensures Struct(ExpireOne(s, now, id))
  {
    hide AddCommitted, HoldsCapacity, Struct;
    if IsDue(s, now, id) {
      RecordIsOk(s, id);
      StructPut(s, ExpireOne(s, now, id), id, ExpireOne(s, now, id).reservations[id]);
    }
  }

  /** A commit adds one well-formed record under a new identity. */
  lemma StructCommit(s: State, req: Request, hold: Option<nat>)
    requires Struct(s)
    ensures Struct(CommitOne(s, req, hold).0)
  {
    hide Assess, Contribute, Held;
    if CommitAllowed(s, req, hold) {
      var t := CommitOne(s, req, hold).0;
      CommitShape(s, req, hold);
      var id := s.nextReservationId + 1;
      forall k | k in t.reservations ensures GenerationsOk(t, k) && ReservationOk(t, k, t.reservations[k]) {
        if k != id { FrameReservation(s, t, k); }
      }
      forall k | k in t.holds ensures HoldOk(t, k, t.holds[k]) {
        if hold == Some(k) { assert HoldOk(s, k, s.holds[k]); } else { FrameHold(s, t, k); }
      }
    }
  }

  lemma NewIdIsNew(s: State)
    requires Struct(s)
    ensures s.nextReservationId + 1 !in s.reservations
  {
    assert forall id :: id in s.reservations ==> id <= s.nextReservationId;
  }

  /** What a successful commit changes. */
  lemma CommitShape(s: State, req: Request, hold: Option<nat>)
    requires Struct(s) && CommitAllowed(s, req, hold)
    ensures var t := CommitOne(s, req, hold).0;
            var id := s.nextReservationId + 1;
            && id !in s.reservations
            && t.reservations == s.reservations[id := NewReservation(s, req).(contributes := true)]
            && t.currentGen == s.currentGen[id := 1] && t.nextReservationId == id
            && t.history == s.history && t.resources == s.resources && t.config == s.config
            && t.envelopes.Keys == s.envelopes.Keys
            && t.holds == (if hold.None? then s.holds
                           else s.holds[hold.value := s.holds[hold.value].(applied := false, state := HOLD_COMMITTED)])
            && ReservationOk(t, id, t.reservations[id]) && GenerationsOk(t, id)
            && ValidRequest(req)
  {
    hide Best, ValidRequest, IsDuplicate, Candidates, Headroom;
    NewIdIsNew(s);
    AdmittedFacts(s, req);
  }

  lemma AdmittedFacts(s: State, req: Request)
    requires Admitted(Assess(s, req))
    ensures ValidRequest(req) && req.quantity.value > 0 && !IsDuplicate(s, req)
    ensures Assess(s, req).resource in Candidates(s, req)
  {
  }

  lemma {:induction false} StructAcquireAll(s: State, members: seq<Request>, now: int)
    requires Struct(s)
    ensures Struct(AcquireAll(s, members, now).0)
    decreases |members|
  {
    hide AcquireHold, Struct;
    if members != [] {
      var id := s.nextHoldId + 1;
      var s0 := s.(nextHoldId := id);
      StructCounters(s, s0);
      StructAcquire(s0, MemberSpec(members[0], id), now);
      StructAcquireAll(AcquireHold(s0, MemberSpec(members[0], id), now).0, members[1..], now);
    }
  }

  lemma {:induction false} StructReleaseRange(s: State, from: nat, to: int)
    requires Struct(s)
    ensures Struct(ReleaseRange(s, from, to))
    decreases if from < to then to - from else 0
  {
    hide Struct;
    if from < to {
      StructReleaseProvisional(s, from + 1);
      StructReleaseRange(ReleaseProvisional(s, from + 1), from + 1, to);
    }
  }

  lemma {:induction false} StructCommitAll(s: State, members: seq<Request>, firstHold: nat)
    requires Struct(s)
    ensures Struct(CommitAll(s, members, firstHold).0)
    decreases |members|
  {
    hide CommitOne, Struct;
    if members != [] {
      StructCommit(s, members[0], Some(firstHold + 1));
      StructCommitAll(CommitOne(s, members[0], Some(firstHold + 1)).0, members[1..], firstHold + 1);
    }
  }

  lemma StructCancelMember(s: State, id: nat)
    requires Struct(s)
    ensures Struct(CancelMember(s, id))
  {
    hide AddCommitted, Struct;
    if id in s.reservations {
      var t := CancelMember(s, id);
      RecordIsOk(s, id);
      StructPut(s, t, id, t.reservations[id]);
    }
  }

  lemma {:induction false} StructCancelRange(s: State, from: nat, to: nat)
    requires Struct(s)
    ensures Struct(CancelRange(s, from, to))
    decreases if from < to then to - from else 0
  {
    hide CancelMember, Struct;
    if from < to {
      StructCancelMember(s, from + 1);
      StructCancelRange(CancelMember(s, from + 1), from + 1, to);
    }
  }

  lemma StructBundle(s: State, members: seq<Request>, now: int)
    requires Struct(s)
    ensures Struct(CommitBundle(s, members, now).0)
  {
    hide Struct, AcquireAll, CommitAll, ReleaseRange, CancelRange, AllAdmitted;
    var s0 := s.(nextSetId := s.nextSetId + 1);
    StructCounters(s, s0);
    if AllAdmitted(s0, members) {
      var (s1, held) := AcquireAll(s0, members, now);
      StructAcquireAll(s0, members, now);
      if !held {
        StructReleaseRange(s1, s.nextHoldId, s1.nextHoldId - 1);
      } else {
        var (s2, n) := CommitAll(s1, members, s.nextHoldId);
        StructCommitAll(s1, members, s.nextHoldId);
        if n < |members| {
          StructCancelRange(s2, s.nextReservationId, s.nextReservationId + n);
          StructReleaseRange(CancelRange(s2, s.nextReservationId, s.nextReservationId + n), s.nextHoldId + n, s.nextHoldId + |members|);
        } else {
          var made := BundleSet(s, members);
          StructCounters(s2, s2.(sets := s2.sets[made.id := made]));
        }
      }
    }
  }

  lemma StructReadmit(s: State, resource: nat, id: nat)
    requires Struct(s)
    ensures Struct(Readmit(s, resource, id))
  {
    hide AddCommitted, HoldsCapacity, IsLive, Struct;
    if id in s.reservations && s.reservations[id].resource == resource && HoldsCapacity(s.reservations[id].lifecycle) {
      var t := Readmit(s, resource, id);
      RecordIsOk(s, id);
      StructPut(s, t, id, t.reservations[id]);
    }
  }

  lemma StructNewEnvelope(s: State, p: Publication)
    requires Struct(s) && p.id != 0
    ensures Struct(s.(workerBoots := s.workerBoots[p.worker := p.workerBoot], resources := s.resources[p.id := ResourceOf(p)],
                      envelopes := s.envelopes[p.id := PublishedEnvelope(s, p)]))
  {
    hide PublishedEnvelope;
    var t := s.(workerBoots := s.workerBoots[p.worker := p.workerBoot], resources := s.resources[p.id := ResourceOf(p)],
    envelopes := s.envelopes[p.id := PublishedEnvelope(s, p)]);
    forall k | k in t.reservations ensures GenerationsOk(t, k) && ReservationOk(t, k, t.reservations[k]) {
      FrameReservation(s, t, k);
    }
    forall k | k in t.holds ensures HoldOk(t, k, t.holds[k]) {
      FrameHold(s, t, k);
    }
  }

  lemma StructPublish(s: State, p: Publication, order: seq<nat>)
    requires Struct(s)
    ensures Struct(PublishResource(s, p, order).0)
  {
    hide PublishedEnvelope, Struct, Readmit, Fold;
    StructCounters(s, s.(workerBoots := s.workerBoots[p.worker := p.workerBoot]));
    if p.id != 0 {
      StructNewEnvelope(s, p);
      forall x: State, id: nat | Struct(x) ensures Struct(Readmit(x, p.id, id)) {
        StructReadmit(x, p.id, id);
      }
      FoldKeeps(s.(workerBoots := s.workerBoots[p.worker := p.workerBoot], resources := s.resources[p.id := ResourceOf(p)],
                   envelopes := s.envelopes[p.id := PublishedEnvelope(s, p)]),
                order, (x: State, id: nat) => Readmit(x, p.id, id), x => Struct(x));
    }
  }

  lemma CurrentFacts(s: State, id: nat, generation: nat)
    requires Struct(s) && IsCurrent(s, id, generation)
    ensures ReservationOk(s, id, s.reservations[id]) && NextGeneration(s, id) == s.reservations[id].generation + 1
  {
    assert GenerationsOk(s, id);
  }

  /** Fields the structure does not mention may change freely. */
  lemma SameTerms(s: State, id: nat, r: Reservation, r': Reservation)
    requires ReservationOk(s, id, r)
    requires r'.id == r.id && r'.resource == r.resource && r'.boundGeneration == r.boundGeneration
    requires r'.quantity.value > 0 && 0 <= r'.consumed.value <= r'.quantity.value
    ensures ReservationOk(s, id, r')
  {
  }

  lemma Positive(s: State, id: nat, r: Reservation)
    requires ReservationOk(s, id, r)
    ensures r.id == id && r.quantity.value > 0 && 0 <= r.consumed.value <= r.quantity.value
  {
  }

  /** Withdrawing, and contributing again, touch only the levels and the flag. */
  lemma WithdrawShape(s: State, r: Reservation)
    ensures var (s1, r1) := Withdraw(s, r);
            && s1 == s.(envelopes := s1.envelopes) && s1.envelopes.Keys == s.envelopes.Keys
            && r1 == r.(contributes := r1.contributes)
            && forall n: Reservation :: Contribute(s1, n).0 == s.(envelopes := Contribute(s1, n).0.envelopes)
                                        && Contribute(s1, n).0.envelopes.Keys == s.envelopes.Keys
                                        && Contribute(s1, n).1 == n.(contributes := Contribute(s1, n).1.contributes)
  {
    hide AddCommitted;
  }

  lemma StructRestore(s: State, id: nat, generation: nat)
    requires Struct(s) && IsCurrent(s, id, generation)
    ensures var (s1, r1) := Withdraw(s, s.reservations[id]); Struct(Restore(s1, id, r1))
  {
    hide Struct, ReservationOk, Contribute, Withdraw;
    var (s1, r1) := Withdraw(s, s.reservations[id]);
    WithdrawShape(s, s.reservations[id]);
    var t := Restore(s1, id, r1);
    CurrentFacts(s, id, generation);
    Positive(s, id, s.reservations[id]);
    SameTerms(s, id, s.reservations[id], t.reservations[id]);
    StructPut(s, t, id, t.reservations[id]);
  }

  lemma StructAdopt(s: State, id: nat, generation: nat, n: Reservation)
    requires Struct(s) && IsCurrent(s, id, generation)
    requires var r := s.reservations[id];
             && n.id == id && n.resource == r.resource && n.boundGeneration == r.boundGeneration
             && n.generation == NextGeneration(s, id)
             && n.quantity.value > 0 && 0 <= n.consumed.value <= n.quantity.value
    ensures var (s1, r1) := Withdraw(s, s.reservations[id]); Struct(Adopt(s1, id, r1, n))
  {
    hide Struct, ReservationOk, AddCommitted, Remembered;
    var (s1, r1) := Withdraw(s, s.reservations[id]);
    var t := Adopt(s1, id, r1, n);
    CurrentFacts(s, id, generation);
    Positive(s, id, s.reservations[id]);
    SameTerms(s, id, s.reservations[id], t.reservations[id]);
    StructSupersede(s, t, id, r1, t.reservations[id]);
  }

  lemma StructResize(s: State, id: nat, generation: nat, q: Quantity, policyGeneration: nat)
    requires Struct(s)
    ensures Struct(Resize(s, id, generation, q, policyGeneration).0)
  {
    hide Struct, Headroom, Restore, Adopt, ReservationOk;
    if IsCurrent(s, id, generation) && q.value > 0 {
      CurrentFacts(s, id, generation);
      Positive(s, id, s.reservations[id]);
      WithdrawShape(s, s.reservations[id]);
      StructRestore(s, id, generation);
      StructAdopt(s, id, generation, Resized(Withdraw(s, s.reservations[id]).1, NextGeneration(s, id), q, policyGeneration));
    }
  }

  lemma StructRenew(s: State, id: nat, generation: nat, w: Interval, policyGeneration: nat)
    requires Struct(s)
    ensures Struct(Renew(s, id, generation, w, policyGeneration).0)
  {
    hide Struct, Headroom, Restore, Adopt, ReservationOk;
    if IsCurrent(s, id, generation) {
      CurrentFacts(s, id, generation);
      Positive(s, id, s.reservations[id]);
      WithdrawShape(s, s.reservations[id]);
      StructRestore(s, id, generation);
      StructAdopt(s, id, generation, Renewed(Withdraw(s, s.reservations[id]).1, NextGeneration(s, id), w, policyGeneration));
    }
  }

  lemma StructTransfer(s: State, id: nat, generation: nat, owner: nat, ownerGeneration: nat, e: Evidence)
    requires Struct(s)
    ensures Struct(Transfer(s, id, generation, owner, ownerGeneration, e).0)
  {
    hide Remembered, Struct;
    var (t, out) := Transfer(s, id, generation, owner, ownerGeneration, e);
    if out.Done? {
      CurrentFacts(s, id, generation);
      StructSupersede(s, t, id, s.reservations[id], t.reservations[id]);
    }
  }

  lemma StructActivate(s: State, id: nat, generation: nat, e: Evidence)
    requires Struct(s)
    ensures Struct(Activate(s, id, generation, e).0)
  {
    hide Contains, ReservationOk, IsLive;
    hide Struct;
    if IsCurrent(s, id, generation) {
      CurrentFacts(s, id, generation);
      var r := s.reservations[id];
      var r1 := r.(lifecycle := REVALIDATION_REQUIRED);
      var r2 := r.(lifecycle := ACTIVE, activatedAt := Some(e.at), activationGeneration := Some(e.generation), activated := r.quantity);
      SameTerms(s, id, r, r1);
      SameTerms(s, id, r, r2);
      StructPut(s, Put(s, id, r1), id, r1);
      StructPut(s, Put(s, id, r2), id, r2);
    }
  }

  lemma StructConsume(s: State, id: nat, generation: nat, amount: Quantity, e: Evidence)
    requires Struct(s)
    ensures Struct(Consume(s, id, generation, amount, e).0)
  {
    hide Struct;
    var t := Consume(s, id, generation, amount, e).0;
    if t != s {
      CurrentFacts(s, id, generation);
      StructPut(s, t, id, t.reservations[id]);
    }
  }

  lemma StructEnd(s: State, op: Op)
    requires Struct(s) && (op.OpRelease? || op.OpCancel?)
    ensures Struct(Step(s, op))
  {
    hide Struct, ReleaseReservation, Cancel, ReservationOk;
    EndCases(s, op);
    var t := Step(s, op);
    if t != s {
      RecordIsOk(s, op.id);
      SameRecordOk(s, op.id, s.reservations[op.id], t.reservations[op.id]);
      StructPut(s, t, op.id, t.reservations[op.id]);
    }
  }

  /** An ended record keeps its identity, terms and consumption. */
  predicate Ended(r: Reservation, r': Reservation) {
    r' == r.(contributes := r'.contributes, lifecycle := r'.lifecycle, releasedAt := r'.releasedAt, releaseGeneration := r'.releaseGeneration)
  }

  lemma EndCases(s: State, op: Op)
    requires op.OpRelease? || op.OpCancel?
    ensures var t := Step(s, op);
            t == s || (&& op.id in s.reservations && op.id in t.reservations && t.envelopes.Keys == s.envelopes.Keys
                       && t == Put(s.(envelopes := t.envelopes), op.id, t.reservations[op.id]) && Ended(s.reservations[op.id], t.reservations[op.id]))
  {
    hide Withdraw, Fresh, IsEnded;
    if op.id in s.reservations { WithdrawOnly(s, s.reservations[op.id]); }
  }

  lemma WithdrawOnly(s: State, r: Reservation)
    ensures var (s1, r1) := Withdraw(s, r);
            s1 == s.(envelopes := s1.envelopes) && s1.envelopes.Keys == s.envelopes.Keys && r1 == r.(contributes := r1.contributes)
  {
    hide AddCommitted;
  }

  lemma SameRecordOk(s: State, id: nat, r: Reservation, r': Reservation)
    requires ReservationOk(s, id, r) && Ended(r, r')
    ensures ReservationOk(s, id, r')
  {
  }

  lemma StructExpireHolds(s: State, now: int, order: seq<nat>)
    requires Struct(s)
    ensures Struct(ExpireHolds(s, now, order))
  {
    hide Struct, ExpireHold;
    forall x: State, id: nat | Struct(x) ensures Struct(ExpireHold(x, now, id)) { StructExpireHold(x, now, id); }
    FoldKeeps(s, order, (x: State, id: nat) => ExpireHold(x, now, id), x => Struct(x));
  }

  lemma StructExpireDue(s: State, now: int, order: seq<nat>)
    requires Struct(s)
    ensures Struct(ExpireDue(s, now, order))
  {
    hide Struct, ExpireOne;
    forall x: State, id: nat | Struct(x) ensures Struct(ExpireOne(x, now, id)) { StructExpireOne(x, now, id); }
    FoldKeeps(s, order, (x: State, id: nat) => ExpireOne(x, now, id), x => Struct(x));
  }

  predicate IsSupply(op: Op) {
    op.OpEpoch? || op.OpPublish? || op.OpInvalidate? || op.OpAdvance? || op.OpRevalidate? || op.OpCreateHold? || op.OpReleaseHold? || op.OpExpireHolds?
  }

  lemma StructSupply(s: State, op: Op)
    requires Struct(s) && IsSupply(op)
    ensures Struct(Step(s, op))
  {
    hide Struct, AcquireHold, PublishResource, DropHold, InvalidateResource, AdvanceGeneration, RevalidateResource, ExpireHolds;
    match op
    case OpEpoch(e) => StructCounters(s, Step(s, op));
    case OpPublish(p, order) => StructPublish(s, p, order);
    case OpInvalidate(id) => StructInvalidate(s, id);
    case OpAdvance(id, g, c) => StructAdvance(s, id, g, c);
    case OpRevalidate(id, p) => StructRevalidate(s, id, p);
    case OpCreateHold(spec, now) => StructAcquire(s, spec, now);
    case OpReleaseHold(id, g) =>
      if id in s.holds { StructDrop(s, id, HOLD_RELEASED); }
    case OpExpireHolds(now, order) => StructExpireHolds(s, now, order);
    case _ =>
  }

  lemma StructDemand(s: State, op: Op)
    requires Struct(s) && !IsSupply(op)
    ensures Struct(Step(s, op))
  {
    hide Struct, CommitOne, CommitBundle, Activate, Consume, ReleaseReservation, Cancel, Resize, Renew, Transfer, ExpireDue;
    match op
    case OpCommit(req, hold) => StructCommit(s, req, hold);
    case OpBundle(ms, now) => StructBundle(s, ms, now);
    case OpActivate(id, g, e) => StructActivate(s, id, g, e);
    case OpConsume(id, g, a, e) => StructConsume(s, id, g, a, e);
    case OpRelease(_, _, _) => StructEnd(s, op);
    case OpCancel(_, _) => StructEnd(s, op);
    case OpExpireDue(now, order) => StructExpireDue(s, now, order);
    case OpResize(id, g, q, p) => StructResize(s, id, g, q, p);
    case OpRenew(id, g, w, p) => StructRenew(s, id, g, w, p);
    case OpTransfer(id, g, o, og, e) => StructTransfer(s, id, g, o, og, e);
    case _ =>
  }

  /** Every operation, in every state, under any arguments, keeps the structure. */
  lemma StructStep(s: State, op: Op)
    requires Struct(s)
    ensures Struct(Step(s, op))
  {
    hide Struct, Step;
    if IsSupply(op) { StructSupply(s, op); } else { StructDemand(s, op); }
  }

  lemma AllBound(s: State)
    requires Struct(s)
    ensures forall k :: k in s.reservations ==> s.reservations[k].boundGeneration.Some?
  {
    forall k | k in s.reservations ensures s.reservations[k].boundGeneration.Some? {
      assert ReservationOk(s, k, s.reservations[k]);
    }
  }

  predicate Relabelled(r: Reservation, r': Reservation) {
    r' == r.(lifecycle := r'.lifecycle, boundGeneration := r'.boundGeneration)
  }

  lemma LabelOnly(r: Reservation, id: nat, generation: nat)
    ensures Relabelled(r, Revalidated(r, id, generation)) && (r.boundGeneration.Some? ==> Revalidated(r, id, generation).boundGeneration.Some?)
    ensures Relabelled(r, Invalidated(r, id)) && Invalidated(r, id).boundGeneration == r.boundGeneration
    ensures Relabelled(r, Flagged(r, id)) && Flagged(r, id).boundGeneration == r.boundGeneration
  {
    hide HoldsCapacity, IsLive;
  }

  lemma StructInvalidate(s: State, id: nat)
    requires Struct(s)
    ensures Struct(InvalidateResource(s, id).0)
  {
    hide Invalidated, Struct;
    if id in s.resources {
      AllBound(s);
      forall r: Reservation ensures Relabelled(r, Invalidated(r, id)) && Invalidated(r, id).boundGeneration == r.boundGeneration { LabelOnly(r, id, 0); }
      StructRelabel(s, InvalidateResource(s, id).0);
    }
  }

  lemma StructAdvance(s: State, id: nat, generation: nat, condition: Byte)
    requires Struct(s)
    ensures Struct(AdvanceGeneration(s, id, generation, condition).0)
  {
    hide Flagged, Struct;
    if AdvanceGeneration(s, id, generation, condition).1.Done? {
      AllBound(s);
      forall r: Reservation ensures Relabelled(r, Flagged(r, id)) && Flagged(r, id).boundGeneration == r.boundGeneration { LabelOnly(r, id, 0); }
      StructRelabel(s, AdvanceGeneration(s, id, generation, condition).0);
    }
  }

  lemma StructRevalidate(s: State, id: nat, p: Publication)
    requires Struct(s)
    ensures Struct(RevalidateResource(s, id, p).0)
  {
    hide Revalidated, Struct;
    if RevalidateResource(s, id, p).1.Done? {
      AllBound(s);
      forall r: Reservation ensures Relabelled(r, Revalidated(r, id, p.generation)) { LabelOnly(r, id, p.generation); }
      forall r: Reservation | r.boundGeneration.Some? ensures Revalidated(r, id, p.generation).boundGeneration.Some? { LabelOnly(r, id, p.generation); }
      StructRelabel(s, RevalidateResource(s, id, p).0);
    }
  }

  lemma {:induction false} StructRun(s: State, ops: seq<Op>)
    requires Struct(s)
    ensures Struct(RunOps(s, ops))
    decreases |ops|
  {
    hide Struct, Step;
    if ops != [] {
      StructRun(s, ops[..|ops| - 1]);
      StructStep(RunOps(s, ops[..|ops| - 1]), ops[|ops| - 1]);
    }
  }
}
