/** The steps that keep the mirror and the bound without any condition, or under one that is
    plain from the operation. */
module MirrorSteps {
  import opened Types
  import opened Levels
  import opened Envelopes
  import opened Registry
  import opened Fencing
  import opened Sums
  import opened Mirrors
  import Authority
  import Fences

  /** Withdrawing and then relabelling a record. */
  lemma ConsistentEnd(s: State, t: State, id: nat, r: Reservation)
    requires Consistent(s) && Struct(t) && id in s.reservations
    requires var (s1, r1) := Withdraw(s, s.reservations[id]);
             t == Put(s1, id, r)
             && r == r1.(lifecycle := r.lifecycle, releasedAt := r.releasedAt, releaseGeneration := r.releaseGeneration)
    ensures Consistent(t)
  {
    hide MovedBy, Struct, Mirror, NoOvercommit, AddCommitted;
    var old_ := s.reservations[id];
    var (s1, r1) := Withdraw(s, old_);
    WithdrawMoves(s, old_);
    ResourceHasEnvelope(s, id);
    assert !r1.contributes;
    MovedSameWeight(s, s1, old_, r1, r);
    SameLevelsMove(s, s1, s, t, old_, r);
    ConsistentLighter(s, t, id, r);
  }

  lemma ResourceHasEnvelope(s: State, id: nat)
    requires Struct(s) && id in s.reservations
    ensures s.reservations[id].resource in s.envelopes
  {
    assert ReservationOk(s, id, s.reservations[id]);
  }

  lemma ConsistentRelease(s: State, id: nat, generation: nat, e: Evidence)
    requires Consistent(s)
    ensures Consistent(ReleaseReservation(s, id, generation, e).0)
  {
    hide Consistent, Withdraw, Fresh, IsEnded;
    var (t, out) := ReleaseReservation(s, id, generation, e);
    if out == ReleasedNow {
      assert Struct(s) by { ConsistentIsStruct(s); }
      assert Struct(t) by { StructEnd(s, OpRelease(id, generation, e)); StepRelease(s, id, generation, e); }
      ConsistentEnd(s, t, id, t.reservations[id]);
    }
  }

  lemma ConsistentIsStruct(s: State)
    requires Consistent(s)
    ensures Struct(s) && Mirror(s) && NoOvercommit(s)
  {
  }

  lemma StepRelease(s: State, id: nat, generation: nat, e: Evidence)
    ensures Step(s, OpRelease(id, generation, e)) == ReleaseReservation(s, id, generation, e).0
  {
    hide ReleaseReservation;
  }

  lemma ConsistentCancelMember(s: State, id: nat)
    requires Consistent(s)
    ensures Consistent(CancelMember(s, id))
  {
    hide Consistent, Withdraw;
    ConsistentIsStruct(s);
    if id in s.reservations {
      StructCancelMember(s, id);
      ConsistentEnd(s, CancelMember(s, id), id, CancelMember(s, id).reservations[id]);
    }
  }

  lemma ConsistentExpireOne(s: State, now: int, id: nat)
    requires Consistent(s)
    ensures Consistent(ExpireOne(s, now, id))
  {
    hide Consistent, Withdraw, IsDue;
    ConsistentIsStruct(s);
    if IsDue(s, now, id) {
      DueExists(s, now, id);
      StructExpireOne(s, now, id);
      ConsistentEnd(s, ExpireOne(s, now, id), id, ExpireOne(s, now, id).reservations[id]);
    }
  }

  lemma DueExists(s: State, now: int, id: nat)
    requires IsDue(s, now, id)
    ensures id in s.reservations
  {
  }

  lemma ConsistentExpireHold(s: State, now: int, id: nat)
    requires Consistent(s)
    ensures Consistent(ExpireHold(s, now, id))
  {
    hide Consistent, DropHold;
    if id in s.holds {
      ConsistentDrop(s, id, HOLD_EXPIRED);
    }
  }

  lemma ConsistentReleaseProvisional(s: State, id: nat)
    requires Consistent(s)
    ensures Consistent(ReleaseProvisional(s, id))
  {
    hide Consistent, DropHold;
    if id in s.holds {
      ConsistentDrop(s, id, HOLD_RELEASED);
      ConsistentIsStruct(s);
      if s.holds[id].state != HOLD_ACQUIRED { SettledHold(s, id); }
    }
  }

  /** A settled hold is not applied, so marking it released is dropping it. */
  lemma SettledHold(s: State, id: nat)
    requires Struct(s) && id in s.holds && s.holds[id].state != HOLD_ACQUIRED
    ensures DropHold(s, id, HOLD_RELEASED) == s.(holds := s.holds[id := s.holds[id].(state := HOLD_RELEASED, applied := false)])
  {
    assert HoldOk(s, id, s.holds[id]);
  }

  // ---- operations that weigh nothing ----

  lemma ConsistentPut(s: State, id: nat, r: Reservation)
    requires Consistent(s) && id in s.reservations && SameWeight(s.reservations[id], r) && Struct(Put(s, id, r))
    ensures Consistent(Put(s, id, r))
  {
    hide Struct, Mirror, NoOvercommit;
    ConsistentRelabel(s, Put(s, id, r));
  }

  lemma ConsistentActivate(s: State, id: nat, generation: nat, e: Evidence)
    requires Consistent(s)
    ensures Consistent(Activate(s, id, generation, e).0)
  {
    hide Struct, Mirror, NoOvercommit, Activate, Fresh, Contains;
    StructActivate(s, id, generation, e);
    if IsCurrent(s, id, generation) {
      Fences.ActivateCases(s, id, generation, e);
      if Activate(s, id, generation, e).0 != s {
        ConsistentPut(s, id, Activate(s, id, generation, e).0.reservations[id]);
      }
    } else {
      Fences.StaleIsRefused(s, OpActivate(id, generation, e));
      Fences.StepActivate(s, OpActivate(id, generation, e));
    }
  }

  lemma ConsistentConsume(s: State, id: nat, generation: nat, amount: Quantity, e: Evidence)
    requires Consistent(s)
    ensures Consistent(Consume(s, id, generation, amount, e).0)
  {
    hide Struct, Mirror, NoOvercommit, IsLive, Fresh;
    StructConsume(s, id, generation, amount, e);
    if Consume(s, id, generation, amount, e).0 != s {
      ConsistentPut(s, id, Consume(s, id, generation, amount, e).0.reservations[id]);
    }
  }

  lemma ConsistentTransfer(s: State, id: nat, generation: nat, owner: nat, ownerGeneration: nat, e: Evidence)
    requires Consistent(s)
    ensures Consistent(Transfer(s, id, generation, owner, ownerGeneration, e).0)
  {
    hide Struct, Mirror, NoOvercommit, Fresh, Supersede;
    var (t, out) := Transfer(s, id, generation, owner, ownerGeneration, e);
    StructTransfer(s, id, generation, owner, ownerGeneration, e);
    if out.Done? {
      var r := s.reservations[id];
      var n := r.(generation := NextGeneration(s, id), owner := owner, ownerGeneration := ownerGeneration,
      transferGeneration := Some(1), lifecycle := COMMITTED, activationGeneration := None);
      Authority.SupersedeShape(s, id, r, n);
      SupersedeLeaves(s, id, r, n);
      ConsistentRelabel(s, t);
    }
  }

  lemma SupersedeLeaves(s: State, id: nat, old_: Reservation, n: Reservation)
    ensures var t := Supersede(s, id, old_, n); t.envelopes == s.envelopes && t.holds == s.holds
  {
    hide Remembered, HistoryOf;
  }

  lemma ConsistentCounters(s: State, t: State)
    requires Consistent(s)
    requires t == s.(epoch := t.epoch, authority := t.authority, workerBoots := t.workerBoots, sets := t.sets,
    nextHoldId := t.nextHoldId, nextSetId := t.nextSetId)
    ensures Consistent(t)
  {
    hide Struct, Mirror, NoOvercommit;
    StructCounters(s, t);
    ConsistentRelabel(s, t);
  }

  lemma ConsistentInvalidate(s: State, id: nat)
    requires Consistent(s)
    ensures Consistent(InvalidateResource(s, id).0)
  {
    hide Struct, Mirror, NoOvercommit, HoldsCapacity;
    StructInvalidate(s, id);
    ConsistentRelabel(s, InvalidateResource(s, id).0);
  }

  lemma ConsistentAdvance(s: State, id: nat, generation: nat, condition: Byte)
    requires Consistent(s)
    ensures Consistent(AdvanceGeneration(s, id, generation, condition).0)
  {
    hide Struct, Mirror, NoOvercommit, IsLive;
    StructAdvance(s, id, generation, condition);
    ConsistentRelabel(s, AdvanceGeneration(s, id, generation, condition).0);
  }

  lemma ConsistentRevalidate(s: State, id: nat, p: Publication)
    requires Consistent(s)
    ensures Consistent(RevalidateResource(s, id, p).0)
  {
    hide Struct, Mirror, NoOvercommit;
    StructRevalidate(s, id, p);
    ConsistentRelabel(s, RevalidateResource(s, id, p).0);
  }

  /** A refused change of a contributing reservation puts back exactly what it took off. */
  lemma ConsistentRestore(s: State, id: nat, generation: nat)
    requires Consistent(s) && IsCurrent(s, id, generation) && s.reservations[id].contributes
    ensures var (s1, r1) := Withdraw(s, s.reservations[id]); Consistent(Restore(s1, id, r1))
  {
    hide MovedBy, Struct, Mirror, NoOvercommit, AddCommitted;
    var r := s.reservations[id];
    var (s1, r1) := Withdraw(s, r);
    var (s2, r2) := Contribute(s1, r1);
    ResourceHasEnvelope(s, id);
    assert r2 == r;
    WithdrawMoves(s, r);
    ContributeMoves(s1, r1);
    MovedTwice(s, s1, s2, r, r1, r2);
    StructRestore(s, id, generation);
    SameLevelsMove(s, s2, s, Restore(s1, id, r1), r, r);
    ConsistentLighter(s, Restore(s1, id, r1), id, r);
  }

  // ---- publication ----

  lemma {:induction false} UnavailableLevels(e: Envelope, ws: seq<UnavailableWindow>, x: int)
    requires x in e.levels
    ensures var d := WithUnavailable(e, ws);
            && d == e.(levels := d.levels) && d.levels.Keys == e.levels.Keys
            && d.levels[x] == e.levels[x].(cap := d.levels[x].cap) && d.levels[x].cap in {e.levels[x].cap, 0}
    decreases |ws|
  {
    if ws != [] {
      UnavailableLevels(e, ws[..|ws| - 1], x);
    }
  }

  /** A new envelope shows nothing committed and the published or no capacity. */
  lemma PublishedLevels(s: State, p: Publication, x: int)
    requires x in PublishedEnvelope(s, p).levels
    ensures var v := PublishedEnvelope(s, p).levels[x];
            v.hard == 0 && v.soft == 0 && v.held == 0 && v.cap in {p.totalCapacity.value, 0}
  {
    var e := FreshEnvelope(p.unit, p.totalCapacity, p.ratio, p.availableFrom, s.config.horizon);
    KeysOfPublished(e, p.unavailable);
    UnavailableLevels(e, p.unavailable, x);
  }

  lemma {:induction false} UnavailableShape(e: Envelope, ws: seq<UnavailableWindow>)
    ensures WithUnavailable(e, ws) == e.(levels := WithUnavailable(e, ws).levels)
    decreases |ws|
  {
    if ws != [] { UnavailableShape(e, ws[..|ws| - 1]); }
  }

  lemma {:induction false} KeysOfPublished(e: Envelope, ws: seq<UnavailableWindow>)
    ensures WithUnavailable(e, ws).levels.Keys == e.levels.Keys
    decreases |ws|
  {
    if ws != [] {
      KeysOfPublished(e, ws[..|ws| - 1]);
    }
  }

  /** Nothing is reserved or held on a resource that was never published. */
  lemma UnknownResourceWeighsNothing(s: State, resource: nat, t: int)
    requires Struct(s) && resource !in s.resources
    ensures HardSum(s.reservations, resource, t) == 0 && SoftSum(s.reservations, resource, t) == 0 && HeldSum(s.holds, resource, t) == 0
  {
    forall id | id in s.reservations
      ensures HardWeight(s.reservations[id], resource, t) == 0 && SoftWeight(s.reservations[id], resource, t) == 0
    {
      assert ReservationOk(s, id, s.reservations[id]);
    }
    forall id | id in s.holds ensures HeldWeight(s.holds[id], resource, t) == 0 {
      assert HoldOk(s, id, s.holds[id]);
    }
    SumZero(HardWeights(s.reservations, resource, t));
    SumZero(SoftWeights(s.reservations, resource, t));
    SumZero(HeldWeights(s.holds, resource, t));
  }

  lemma ConsistentNewResource(s: State, t: State, p: Publication)
    requires Consistent(s) && Struct(t) && p.id !in s.resources && p.totalCapacity.value > 0
    requires t.envelopes == s.envelopes[p.id := PublishedEnvelope(s, p)] && t.reservations == s.reservations && t.holds == s.holds
    ensures Consistent(t)
  {
    hide PublishedEnvelope, HardSum, SoftSum, HeldSum, Struct;
    forall resource, x | InSpan(t, resource, x) ensures MirrorAt(t, resource, x) && FitsAt(t, resource, x) {
      if resource == p.id {
        PublishedLevels(s, p, x);
        UnknownResourceWeighsNothing(s, p.id, x);
      } else {
        assert InSpan(s, resource, x);
        assert MirrorAt(s, resource, x) && FitsAt(s, resource, x);
      }
    }
  }

  lemma ConsistentPublish(s: State, p: Publication, order: seq<nat>)
    requires Consistent(s) && PublishResource(s, p, order).1 != Replaced
    ensures Consistent(PublishResource(s, p, order).0)
  {
    hide Struct, Mirror, NoOvercommit, PublishedEnvelope, Fold;
    ConsistentCounters(s, s.(workerBoots := s.workerBoots[p.worker := p.workerBoot]));
    StructPublish(s, p, order);
    if PublishResource(s, p, order).1 == RegisteredNew {
      ConsistentNewResource(s, PublishResource(s, p, order).0, p);
    }
  }

  // ---- parts of a bundle ----

  lemma AcquireKeepsCounter(s: State, spec: HoldSpec, now: int)
    ensures AcquireHold(s, spec, now).0.nextHoldId == s.nextHoldId
  {
    hide Headroom, Candidates, AddHeld;
  }

  lemma {:induction false} ConsistentReleaseRange(s: State, from: nat, to: int)
    requires Consistent(s)
    ensures Consistent(ReleaseRange(s, from, to))
    decreases if from < to then to - from else 0
  {
    hide Consistent, ReleaseProvisional;
    if from < to {
      ConsistentReleaseProvisional(s, from + 1);
      ConsistentReleaseRange(ReleaseProvisional(s, from + 1), from + 1, to);
    }
  }

  lemma {:induction false} ConsistentCancelRange(s: State, from: nat, to: nat)
    requires Consistent(s)
    ensures Consistent(CancelRange(s, from, to))
    decreases if from < to then to - from else 0
  {
    hide Consistent, CancelMember;
    if from < to {
      ConsistentCancelMember(s, from + 1);
      ConsistentCancelRange(CancelMember(s, from + 1), from + 1, to);
    }
  }

  lemma WholeOrNothing(s: State, req: Request)
    requires !req.partialAllowed
    ensures Assess(s, req).verdict != AdmissibleWithModification
  {
    hide ValidRequest, IsDuplicate, Candidates, Headroom;
  }

  lemma CancelIsMember(s: State, id: nat, generation: nat)
    ensures Cancel(s, id, generation).0 == s || Cancel(s, id, generation).0 == CancelMember(s, id)
  {
    hide Withdraw;
  }

  lemma ProvisionalIsDrop(s: State, id: nat)
    requires Struct(s) && id in s.holds
    ensures ReleaseProvisional(s, id) == DropHold(s, id, HOLD_RELEASED)
  {
    hide DropHold, Struct;
    if s.holds[id].state in {HOLD_RELEASED, HOLD_EXPIRED, HOLD_COMMITTED} {
      SettledHold(s, id);
    }
  }

  lemma AbsentHold(s: State, id: nat)
    requires id !in s.holds
    ensures ReleaseProvisional(s, id) == s
  {
  }

  lemma HoldHasEnvelope(s: State, id: nat)
    requires Struct(s) && id in s.holds
    ensures s.holds[id].resource in s.envelopes
  {
    assert HoldOk(s, id, s.holds[id]);
  }

  lemma AllowedResource(s: State, req: Request, hold: Option<nat>)
    requires CommitAllowed(s, req, hold)
    ensures Assess(s, req).resource in s.resources
  {
    hide Assess;
  }

  lemma NewUnflagged(s: State, req: Request)
    requires Assess(s, req).resource in s.resources
    ensures !NewReservation(s, req).contributes
  {
    hide Assess;
  }

  lemma NewStateIsConsistent(maxHistory: nat, maxHolds: nat, horizon: nat)
    ensures Consistent(NewState(maxHistory, maxHolds, horizon))
  {
  }
}
