/** The flag that says a reservation is in its envelope and the lifecycle that says it holds
    capacity agree all along a run if and only if it revives no record that has ended. */
module Flags {
  import opened Types
  import opened Levels
  import opened Envelopes
  import opened Registry
  import opened Fencing
  import opened Mirrors
  import opened MirrorSteps
  import opened Exactness
  import opened MirrorRuns
  import opened Persistence
  import Bundles
  import Fences

  predicate Agrees(r: Reservation) {
    r.contributes <==> HoldsCapacity(r.lifecycle)
  }

  /** The four branches that touch a record which no longer holds capacity: an activation that finds
      its resource unavailable or advanced, a transfer that is accepted, and a resize or renewal that
      is refused for want of room. */
  predicate Revives(s: State, op: Op) {
    match op
    case OpActivate(id, g, _) => IsCurrent(s, id, g) && !HoldsCapacity(s.reservations[id].lifecycle) && IsOvertaken(s, id)
    case OpTransfer(id, g, owner, ownerGeneration, e) =>
      IsCurrent(s, id, g) && !HoldsCapacity(s.reservations[id].lifecycle) && IsTransferable(s, id, owner, ownerGeneration, e)
    case OpResize(id, _, _, _) => IsOrderly(s, op) && !HoldsCapacity(s.reservations[id].lifecycle) && !IsAdmitted(s, op)
    case OpRenew(id, _, _, _) => IsOrderly(s, op) && !HoldsCapacity(s.reservations[id].lifecycle) && !IsAdmitted(s, op)
    case _ => false
  }

  /** The record's resource is unavailable, or of a later generation than the record is bound to. */
  predicate IsOvertaken(s: State, id: nat)
    requires id in s.reservations
  {
    var r := s.reservations[id];
    r.resource in s.resources &&
    (!s.resources[r.resource].available || (r.boundGeneration.Some? && s.resources[r.resource].generation > r.boundGeneration.value))
  }

  predicate IsTransferable(s: State, id: nat, owner: nat, ownerGeneration: nat, e: Evidence)
    requires id in s.reservations
  {
    s.reservations[id].transfer == TRANSFER_ALLOWED && owner != 0 && ownerGeneration != 0 && Fresh(s, s.reservations[id].resource, e.worker, e.workerBoot)
  }

  lemma Codes()
    ensures forall l: Byte :: IsEnded(l) ==> !HoldsCapacity(l)
    ensures forall l: Byte :: IsLive(l) ==> HoldsCapacity(l)
    ensures HoldsCapacity(COMMITTED) && HoldsCapacity(ACTIVE) && HoldsCapacity(CONSUMED) && HoldsCapacity(PARTIALLY_CONSUMED)
    ensures HoldsCapacity(REVALIDATION_REQUIRED) && HoldsCapacity(PENDING_ACTIVATION)
    ensures IsEnded(RELEASED) && IsEnded(EXPIRED) && IsEnded(CANCELLED)
  {
  }

  lemma AgreesPut(s: State, t: State, id: nat)
    requires FlagsMatch(s) && id in t.reservations && t.reservations == s.reservations[id := t.reservations[id]] && Agrees(t.reservations[id])
    ensures FlagsMatch(t)
  {
    hide HoldsCapacity;
  }

  lemma AgreesSame(s: State, t: State)
    requires FlagsMatch(s) && t.reservations == s.reservations
    ensures FlagsMatch(t)
  {
    hide HoldsCapacity;
  }

  lemma DisagreesPut(s: State, t: State, id: nat)
    requires id in t.reservations && !Agrees(t.reservations[id])
    ensures !FlagsMatch(t)
  {
    hide HoldsCapacity;
  }

  // ---- one record ends ----

  lemma EndedAgrees(s: State, t: State, id: nat, lifecycle: Byte)
    requires Struct(s) && FlagsMatch(s) && id in s.reservations && IsEnded(lifecycle)
    requires id in t.reservations && t.reservations == s.reservations[id := t.reservations[id]]
    requires t.reservations[id].lifecycle == lifecycle && t.reservations[id].contributes == Withdraw(s, s.reservations[id]).1.contributes
    ensures FlagsMatch(t)
  {
    hide HoldsCapacity, IsEnded, Withdraw, Struct, FlagsMatch;
    Codes();
    ResourceHasEnvelope(s, id);
    Bundles.WithdrawUnflags(s, s.reservations[id]);
    AgreesPut(s, t, id);
  }

  lemma FlagsCancelMember(s: State, id: nat)
    requires Struct(s) && FlagsMatch(s)
    ensures FlagsMatch(CancelMember(s, id))
  {
    hide HoldsCapacity, IsEnded, Withdraw, Struct, FlagsMatch;
    Codes();
    if id in s.reservations {
      WithdrawOnly(s, s.reservations[id]);
      EndedAgrees(s, CancelMember(s, id), id, CANCELLED);
    }
  }

  lemma FlagsExpireOne(s: State, now: int, id: nat)
    requires Struct(s) && FlagsMatch(s)
    ensures Struct(ExpireOne(s, now, id)) && FlagsMatch(ExpireOne(s, now, id))
  {
    hide HoldsCapacity, IsEnded, Withdraw, Struct, FlagsMatch, IsDue;
    Codes();
    StructExpireOne(s, now, id);
    if IsDue(s, now, id) {
      DueExists(s, now, id);
      WithdrawOnly(s, s.reservations[id]);
      EndedAgrees(s, ExpireOne(s, now, id), id, EXPIRED);
    }
  }

  lemma FlagsRelease(s: State, id: nat, generation: nat, e: Evidence)
    requires Struct(s) && FlagsMatch(s)
    ensures FlagsMatch(ReleaseReservation(s, id, generation, e).0)
  {
    hide HoldsCapacity, IsEnded, Withdraw, Struct, FlagsMatch, ReleaseReservation;
    Codes();
    var (t, out) := ReleaseReservation(s, id, generation, e);
    ReleasedRecord(s, id, generation, e);
    if out == ReleasedNow { EndedAgrees(s, t, id, RELEASED); }
  }

  lemma ReleasedRecord(s: State, id: nat, generation: nat, e: Evidence)
    ensures var (t, out) := ReleaseReservation(s, id, generation, e);
            && (out != ReleasedNow ==> t == s)
            && (out == ReleasedNow ==>
                  && id in s.reservations && id in t.reservations && t.reservations == s.reservations[id := t.reservations[id]]
                  && t.reservations[id].lifecycle == RELEASED && t.reservations[id].contributes == Withdraw(s, s.reservations[id]).1.contributes)
  {
    hide Withdraw, Fresh, IsEnded;
    if IsCurrent(s, id, generation) { WithdrawOnly(s, s.reservations[id]); }
  }

  // ---- one record changes ----

  lemma FlagsActivate(s: State, id: nat, generation: nat, e: Evidence)
    requires FlagsMatch(s)
    ensures FlagsMatch(Activate(s, id, generation, e).0) <==> !Revives(s, OpActivate(id, generation, e))
  {
    hide HoldsCapacity, FlagsMatch, Activate, IsOvertaken;
    if !IsCurrent(s, id, generation) {
      Fences.StaleIsRefused(s, OpActivate(id, generation, e));
      Fences.StepActivate(s, OpActivate(id, generation, e));
    } else if HoldsCapacity(s.reservations[id].lifecycle) {
      HoldingActivation(s, id, generation, e);
    } else {
      Codes();
      MatchedAt(s, id);
      EndedActivation(s, id, generation, e);
      if IsOvertaken(s, id) { DisagreesPut(s, Activate(s, id, generation, e).0, id); }
    }
  }

  lemma HoldingActivation(s: State, id: nat, generation: nat, e: Evidence)
    requires FlagsMatch(s) && IsCurrent(s, id, generation) && HoldsCapacity(s.reservations[id].lifecycle)
    ensures FlagsMatch(Activate(s, id, generation, e).0)
  {
    hide HoldsCapacity, FlagsMatch, Contains, Activate;
    Codes();
    Fences.ActivateCases(s, id, generation, e);
    MatchedAt(s, id);
    if Activate(s, id, generation, e).0 != s { AgreesPut(s, Activate(s, id, generation, e).0, id); }
  }

  lemma EndedActivation(s: State, id: nat, generation: nat, e: Evidence)
    requires IsCurrent(s, id, generation) && !HoldsCapacity(s.reservations[id].lifecycle)
    ensures Activate(s, id, generation, e).0 ==
            if IsOvertaken(s, id) then Put(s, id, s.reservations[id].(lifecycle := REVALIDATION_REQUIRED)) else s
  {
    hide Contains;
  }

  lemma MatchedAt(s: State, id: nat)
    requires FlagsMatch(s) && id in s.reservations
    ensures Agrees(s.reservations[id])
  {
    hide HoldsCapacity;
  }

  lemma FlagsConsume(s: State, id: nat, generation: nat, amount: Quantity, e: Evidence)
    requires FlagsMatch(s)
    ensures FlagsMatch(Consume(s, id, generation, amount, e).0)
  {
    hide HoldsCapacity, IsLive, FlagsMatch, Fresh;
    Codes();
    var t := Consume(s, id, generation, amount, e).0;
    if t != s { MatchedAt(s, id); AgreesPut(s, t, id); }
  }

  lemma FlagsTransfer(s: State, id: nat, generation: nat, owner: nat, ownerGeneration: nat, e: Evidence)
    requires FlagsMatch(s)
    ensures FlagsMatch(Transfer(s, id, generation, owner, ownerGeneration, e).0) <==>
            !Revives(s, OpTransfer(id, generation, owner, ownerGeneration, e))
  {
    hide HoldsCapacity, FlagsMatch, Fresh, Remembered, HistoryOf;
    Codes();
    var (t, out) := Transfer(s, id, generation, owner, ownerGeneration, e);
    if out.Done? {
      MatchedAt(s, id);
      if HoldsCapacity(s.reservations[id].lifecycle) { AgreesPut(s, t, id); } else { DisagreesPut(s, t, id); }
    }
  }

  lemma FlagsChange(s: State, op: Op)
    requires Struct(s) && FlagsMatch(s) && (op.OpResize? || op.OpRenew?)
    ensures FlagsMatch(Step(s, op)) <==> !Revives(s, op)
  {
    hide HoldsCapacity, FlagsMatch, Struct, Step, IsOrderly, IsAdmitted, Withdraw, Adopt, Restore, ChangedRecord;
    Codes();
    if IsOrderly(s, op) {
      OrderlyExists(s, op);
      var r := s.reservations[op.id];
      var (s1, r1) := Withdraw(s, r);
      ChangeCases(s, op);
      WithdrawOnly(s, r);
      MatchedAt(s, op.id);
      if IsAdmitted(s, op) {
        ChangedFlag(s, op);
        Fences.AdoptShape(s1, op.id, r1, ChangedRecord(s, op));
        AgreesPut(s, Step(s, op), op.id);
      } else {
        ResourceHasEnvelope(s, op.id);
        RestoredRecords(s, op.id);
        if HoldsCapacity(r.lifecycle) { AgreesPut(s, Step(s, op), op.id); } else { DisagreesPut(s, Step(s, op), op.id); }
      }
    } else {
      UnorderlyIsRefused(s, op);
    }
  }

  lemma OrderlyExists(s: State, op: Op)
    requires (op.OpResize? || op.OpRenew?) && IsOrderly(s, op)
    ensures op.id in s.reservations
  {
  }

  lemma ChangedFlag(s: State, op: Op)
    requires (op.OpResize? || op.OpRenew?) && op.id in s.reservations
    ensures ChangedRecord(s, op).contributes && ChangedRecord(s, op).lifecycle == COMMITTED
  {
    hide Withdraw;
  }

  lemma RestoredRecords(s: State, id: nat)
    requires id in s.reservations && s.reservations[id].resource in s.envelopes
    ensures var (s1, r1) := Withdraw(s, s.reservations[id]);
            Restore(s1, id, r1).reservations == s.reservations[id := s.reservations[id].(contributes := true)]
  {
    hide AddCommitted;
  }

  // ---- the others ----

  lemma FlagsCommit(s: State, req: Request, hold: Option<nat>)
    requires Struct(s) && FlagsMatch(s)
    ensures FlagsMatch(CommitOne(s, req, hold).0)
  {
    hide HoldsCapacity, FlagsMatch, Struct, CommitOne, CommitAllowed, Assess;
    Codes();
    if CommitAllowed(s, req, hold) {
      AllowedResource(s, req, hold);
      CommitShape(s, req, hold);
      NewCommitted(s, req);
      AgreesPut(s, CommitOne(s, req, hold).0, s.nextReservationId + 1);
    } else {
      RefusedCommit(s, req, hold);
    }
  }

  lemma NewCommitted(s: State, req: Request)
    requires Assess(s, req).resource in s.resources
    ensures NewReservation(s, req).lifecycle == COMMITTED
  {
    hide Assess;
  }

  lemma FlagsBundle(s: State, members: seq<Request>, now: int)
    requires Struct(s) && FlagsMatch(s)
    ensures FlagsMatch(CommitBundle(s, members, now).0)
  {
    hide HoldsCapacity, Struct, CommitBundle, Bundles.LastHold, Bundles.Undone, Bundles.Added;
    Codes();
    var (t, out) := CommitBundle(s, members, now);
    if out.Done? {
      Bundles.DoneBundleAdds(s, members, now);
      AddedAgree(s, t, members);
    } else {
      Bundles.RefusedBundleUndoes(s, members, now);
      UndoneAgree(s, t, Bundles.LastHold(s, members, now));
    }
  }

  lemma AddedAgree(s: State, t: State, members: seq<Request>)
    requires FlagsMatch(s) && Bundles.Added(s, t, members)
    ensures FlagsMatch(t)
  {
    hide HoldsCapacity, Bundles.RangeWeight, Matches;
    Codes();
    forall k | k in t.reservations ensures Agrees(t.reservations[k]) {
      if k !in s.reservations {
        assert Bundles.Carries(t, members[k - s.nextReservationId - 1], s.nextReservationId + 1 + (k - s.nextReservationId - 1));
      }
    }
  }

  lemma UndoneAgree(s: State, t: State, h1: nat)
    requires FlagsMatch(s) && Bundles.Undone(s, t, h1)
    ensures FlagsMatch(t)
  {
    hide HoldsCapacity;
    Codes();
  }

  lemma FlagsReadmit(s: State, resource: nat, id: nat)
    requires FlagsMatch(s)
    ensures FlagsMatch(Readmit(s, resource, id))
  {
    hide HoldsCapacity, FlagsMatch, Contribute, IsLive;
    Codes();
    if id in s.reservations && HoldsCapacity(s.reservations[id].lifecycle) {
      MatchedAt(s, id);
      StaysFlagged(s, s.reservations[id]);
      ContributeShape(s, s.reservations[id]);
      if Readmit(s, resource, id) != s { AgreesPut(s, Readmit(s, resource, id), id); }
    }
  }

  lemma StaysFlagged(s: State, r: Reservation)
    requires r.contributes
    ensures Contribute(s, r) == (s, r)
  {
  }

  lemma FlagsPublish(s: State, p: Publication, order: seq<nat>)
    requires FlagsMatch(s)
    ensures FlagsMatch(PublishResource(s, p, order).0)
  {
    hide FlagsMatch, Readmit, Fold, PublishedEnvelope;
    if PublishResource(s, p, order).1 == Replaced {
      var s2 := Reinstalled(s, p);
      AgreesSame(s, s2);
      ReplacedIsFold(s, p, order);
      forall x: State, id: nat | FlagsMatch(x) ensures FlagsMatch(Readmit(x, p.id, id)) { FlagsReadmit(x, p.id, id); }
      FoldKeeps(s2, order, (x: State, id: nat) => Readmit(x, p.id, id), x => FlagsMatch(x));
    } else {
      AgreesSame(s, PublishResource(s, p, order).0);
    }
  }

  lemma FlagsMap(s: State, op: Op)
    requires FlagsMatch(s) && (op.OpInvalidate? || op.OpAdvance? || op.OpRevalidate?)
    ensures FlagsMatch(Step(s, op))
  {
    hide HoldsCapacity, IsLive;
    Codes();
  }

  /** Operations after which the reservations are what they were. */
  lemma FlagsHold(s: State, op: Op)
    requires Struct(s) && FlagsMatch(s) && (op.OpEpoch? || op.OpCreateHold? || op.OpReleaseHold?)
    ensures FlagsMatch(Step(s, op))
  {
    hide FlagsMatch, Struct, AcquireHold, DropHold;
    match op
    case OpEpoch(e) => AgreesSame(s, Step(s, op));
    case OpCreateHold(spec, now) =>
      Bundles.AcquiredShape(s, spec, now);
      AgreesSame(s, Step(s, op));
    case OpReleaseHold(id, g) =>
      if id in s.holds { DropReservations(s, id, HOLD_RELEASED); }
      AgreesSame(s, Step(s, op));
  }

  lemma DropReservations(s: State, id: nat, state: Byte)
    requires id in s.holds
    ensures DropHold(s, id, state).reservations == s.reservations
  {
    hide AddHeld;
  }

  lemma FlagsExpireHolds(s: State, now: int, order: seq<nat>)
    requires FlagsMatch(s)
    ensures FlagsMatch(ExpireHolds(s, now, order))
  {
    hide FlagsMatch, DropHold;
    forall x: State, id: nat | FlagsMatch(x) ensures FlagsMatch(ExpireHold(x, now, id)) {
      if id in x.holds { DropReservations(x, id, HOLD_EXPIRED); }
      AgreesSame(x, ExpireHold(x, now, id));
    }
    FoldKeeps(s, order, (x: State, id: nat) => ExpireHold(x, now, id), x => FlagsMatch(x));
  }

  lemma FlagsExpireDue(s: State, now: int, order: seq<nat>)
    requires Struct(s) && FlagsMatch(s)
    ensures FlagsMatch(ExpireDue(s, now, order))
  {
    hide FlagsMatch, Struct, ExpireOne;
    forall x: State, id: nat | Struct(x) && FlagsMatch(x) ensures Struct(ExpireOne(x, now, id)) && FlagsMatch(ExpireOne(x, now, id)) {
      FlagsExpireOne(x, now, id);
    }
    FoldKeeps(s, order, (x: State, id: nat) => ExpireOne(x, now, id), x => Struct(x) && FlagsMatch(x));
  }

  // ---- steps and runs ----

  predicate IsRecordOp(op: Op) {
    op.OpActivate? || op.OpConsume? || op.OpRelease? || op.OpCancel? || op.OpResize? || op.OpRenew? || op.OpTransfer?
  }

  lemma FlagsRecordStep(s: State, op: Op)
    requires Struct(s) && FlagsMatch(s) && IsRecordOp(op)
    ensures FlagsMatch(Step(s, op)) <==> !Revives(s, op)
  {
    hide FlagsMatch, Struct, HoldsCapacity, Activate, Consume, ReleaseReservation, Cancel, CancelMember, Transfer, Resize, Renew, IsOrderly, IsAdmitted,
         IsOvertaken, IsTransferable;
    match op
    case OpActivate(id, g, e) => FlagsActivate(s, id, g, e);
    case OpConsume(id, g, a, e) => FlagsConsume(s, id, g, a, e);
    case OpRelease(id, g, e) => FlagsRelease(s, id, g, e);
    case OpCancel(id, g) => FlagsCancelMember(s, id); CancelIsMember(s, id, g);
    case OpTransfer(id, g, o, og, e) => FlagsTransfer(s, id, g, o, og, e);
    case OpResize(_, _, _, _) => FlagsChange(s, op);
    case OpRenew(_, _, _, _) => FlagsChange(s, op);
  }

  lemma FlagsOtherStep(s: State, op: Op)
    requires Struct(s) && FlagsMatch(s) && !IsRecordOp(op)
    ensures FlagsMatch(Step(s, op))
  {
    hide FlagsMatch, Struct, CommitOne, CommitBundle, PublishResource, ExpireHolds, ExpireDue, AcquireHold, ReleaseHold, SetEpoch,
         InvalidateResource, AdvanceGeneration, RevalidateResource;
    match op
    case OpEpoch(_) => FlagsHold(s, op);
    case OpPublish(p, order) => FlagsPublish(s, p, order);
    case OpInvalidate(_) => FlagsMap(s, op);
    case OpAdvance(_, _, _) => FlagsMap(s, op);
    case OpRevalidate(_, _) => FlagsMap(s, op);
    case OpCreateHold(_, _) => FlagsHold(s, op);
    case OpReleaseHold(_, _) => FlagsHold(s, op);
    case OpExpireHolds(now, order) => FlagsExpireHolds(s, now, order);
    case OpExpireDue(now, order) => FlagsExpireDue(s, now, order);
    case OpCommit(req, hold) => FlagsCommit(s, req, hold);
    case OpBundle(ms, now) => FlagsBundle(s, ms, now);
    case _ =>
  }

  /** An operation keeps flags and lifecycles in agreement if and only if it revives no record that
      has ended. */
  lemma FlagsStepIff(s: State, op: Op)
    requires Struct(s) && FlagsMatch(s)
    ensures FlagsMatch(Step(s, op)) <==> !Revives(s, op)
  {
    hide FlagsMatch, Struct, Step;
    if IsRecordOp(op) {
      hide Revives;
      FlagsRecordStep(s, op);
    } else {
      FlagsOtherStep(s, op);
    }
  }

  ghost predicate NoneRevived(s: State, ops: seq<Op>) {
    forall k :: 0 <= k < |ops| ==> !Revives(RunOps(s, ops[..k]), ops[k])
  }

  lemma {:induction false} FlagsRun(s: State, ops: seq<Op>)
    requires Struct(s) && FlagsMatch(s) && NoneRevived(s, ops)
    ensures FlagsMatch(RunOps(s, ops))
    decreases |ops|
  {
    hide FlagsMatch, Struct, Step, Revives;
    if ops != [] {
      var before := ops[..|ops| - 1];
      assert forall k :: 0 <= k < |before| ==> before[..k] == ops[..k] && before[k] == ops[k];
      FlagsRun(s, before);
      StructRun(s, before);
      FlagsStepIff(RunOps(s, before), ops[|ops| - 1]);
    }
  }

  /** They agree all along a run if and only if the run revives none. */
  lemma {:induction false} FlagsAlongIff(s: State, ops: seq<Op>)
    requires Struct(s) && FlagsMatch(s)
    ensures NoneRevived(s, ops) <==> forall k :: 0 <= k <= |ops| ==> FlagsMatch(RunOps(s, ops[..k]))
  {
    hide FlagsMatch, Struct, Step, Revives, RunOps;
    if NoneRevived(s, ops) {
      forall k | 0 <= k <= |ops| ensures FlagsMatch(RunOps(s, ops[..k])) {
        assert forall j :: 0 <= j < k ==> ops[..k][..j] == ops[..j] && ops[..k][j] == ops[j];
        FlagsRun(s, ops[..k]);
      }
    } else {
      var k :| 0 <= k < |ops| && Revives(RunOps(s, ops[..k]), ops[k]);
      StructRun(s, ops[..k]);
      RunExtends(s, ops, k);
      if FlagsMatch(RunOps(s, ops[..k])) { FlagsStepIff(RunOps(s, ops[..k]), ops[k]); }
    }
  }
}
