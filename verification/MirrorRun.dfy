/** Runs of the runtime: a guard that holds of an operation exactly when the operation keeps the
    mirror and the bound, and what every guarded run keeps. */
module MirrorRuns {
  import opened Types
  import opened Levels
  import opened Envelopes
  import opened Registry
  import opened Fencing
  import opened Mirrors
  import opened MirrorSteps
  import opened Exactness
  import opened Bundles
  import opened BundleExactness

  // ---- the guard ----

  /** What a caller can check before an operation. A publication's order is that of a walk over
      all reservations. */
  ghost predicate Guard(s: State, op: Op) {
    match op
    case OpPublish(p, _) => IsReplacement(s, p) ==> PublishGuard(s, p)
    case OpCreateHold(spec, _) => IsGrantable(s, spec) ==> !Loses(s, spec.id)
    case OpCommit(req, hold) => CommitAllowed(s, req, hold) ==> CommitGuard(s, req, hold)
    case OpBundle(ms, now) => NoHoldLost(s, LastHold(s, ms, now))
    case OpResize(_, _, _, _) => IsOrderly(s, op) ==> ChangeGuard(s, op)
    case OpRenew(_, _, _, _) => IsOrderly(s, op) ==> ChangeGuard(s, op)
    case _ => true
  }

  /** The publication is in order, from no stale boot, and of a later generation. */
  predicate IsReplacement(s: State, p: Publication) {
    && p.totalCapacity.value > 0 && p.totalCapacity.unit == p.unit
    && p.id != 0 && p.generation != 0 && p.worker != 0 && p.workerBoot != 0
    && !BootIsStale(s, p.worker, p.workerBoot)
    && p.id in s.resources && s.resources[p.id].generation < p.generation
  }

  /** The hold is in order, there is a place for it, and some matching resource has headroom. */
  ghost predicate IsGrantable(s: State, spec: HoldSpec) {
    && ValidSpec(spec) && |s.holds| < s.config.maxHolds
    && exists id :: id in Candidates(s, Probe(spec)) && spec.quantity.value <= Headroom(s, true, spec.window, id)
  }

  lemma ReplacementIs(s: State, p: Publication, order: seq<nat>)
    ensures PublishResource(s, p, order).1 == Replaced <==> IsReplacement(s, p)
  {
    hide PublishedEnvelope, Fold, Readmit, BootIsStale;
  }

  lemma GrantableIs(s: State, spec: HoldSpec, now: int)
    ensures AcquireHold(s, spec, now).1 <==> IsGrantable(s, spec)
  {
    hide Headroom, Candidates, ValidSpec, Held;
    var ids := Candidates(s, Probe(spec));
    if ids != {} {
      var best := Best(s, true, spec.window, ids);
      assert IsBest(s, true, spec.window, ids, best);
      forall id | id in ids ensures Headroom(s, true, spec.window, id) <= Headroom(s, true, spec.window, best) {
        assert id != best ==> Better(s, true, spec.window, best, id);
      }
    }
  }

  ghost predicate PublishGuard(s: State, p: Publication) {
    forall x :: InSpan(Reinstalled(s, p), p.id, x) ==> !Burdened(s, p.id, x) && Accommodates(s, p, x)
  }

  /** An applied hold under this identity touches its span. */
  ghost predicate Loses(s: State, id: nat) {
    id in s.holds && s.holds[id].applied && TouchesSpan(s, s.holds[id].resource, s.holds[id].spec.window)
  }

  ghost predicate CommitGuard(s: State, req: Request, hold: Option<nat>) {
    RoomFor(Off(s, hold), req.strength, Assess(s, req).resource, req.window, req.quantity.value)
  }

  ghost predicate ChangeGuard(s: State, op: Op)
    requires (op.OpResize? || op.OpRenew?) && IsOrderly(s, op)
  {
    var r := s.reservations[op.id];
    if IsAdmitted(s, op) then !TouchesSpan(s, r.resource, TargetWindow(s, op))
    else r.contributes || RoomFor(s, r.strength, r.resource, r.window, r.quantity.value)
  }

  /** The order a publication walks its reservations in visits them all. */
  ghost predicate WalksAll(s: State, op: Op) {
    op.OpPublish? ==> forall id :: id in s.reservations ==> id in op.order
  }

  // ---- one step ----

  /** Operations that keep the invariant whatever their arguments. */
  predicate IsQuiet(op: Op) {
    !(op.OpPublish? || op.OpCreateHold? || op.OpCommit? || op.OpBundle? || op.OpResize? || op.OpRenew?)
  }

  predicate IsPassing(op: Op) {
    op.OpEpoch? || op.OpInvalidate? || op.OpAdvance? || op.OpRevalidate? || op.OpActivate? || op.OpConsume? || op.OpTransfer?
  }

  /** Those that weigh nothing. */
  lemma ConsistentPassing(s: State, op: Op)
    requires Consistent(s) && IsPassing(op)
    ensures Consistent(Step(s, op))
  {
    hide Consistent, Activate, Consume, Transfer, InvalidateResource, AdvanceGeneration, RevalidateResource, SetEpoch;
    match op
    case OpEpoch(e) => ConsistentEpoch(s, e);
    case OpInvalidate(id) => ConsistentInvalidate(s, id);
    case OpAdvance(id, g, c) => ConsistentAdvance(s, id, g, c);
    case OpRevalidate(id, p) => ConsistentRevalidate(s, id, p);
    case OpActivate(id, g, e) => ConsistentActivate(s, id, g, e);
    case OpConsume(id, g, a, e) => ConsistentConsume(s, id, g, a, e);
    case OpTransfer(id, g, o, og, e) => ConsistentTransfer(s, id, g, o, og, e);
  }

  lemma ConsistentEpoch(s: State, epoch: nat)
    requires Consistent(s)
    ensures Consistent(SetEpoch(s, epoch).0)
  {
    hide Consistent;
    ConsistentCounters(s, SetEpoch(s, epoch).0);
  }

  /** Those that only take away. */
  lemma ConsistentQuiet(s: State, op: Op)
    requires Consistent(s) && IsQuiet(op)
    ensures Consistent(Step(s, op))
  {
    hide Consistent, ReleaseReservation, Cancel, DropHold, CancelMember, ExpireOne, ExpireHold, Fold, IsPassing;
    if IsPassing(op) {
      hide Step;
      ConsistentPassing(s, op);
    } else {
      NotPassing(op);
      match op
      case OpReleaseHold(id, g) => if id in s.holds { ConsistentDrop(s, id, HOLD_RELEASED); }
      case OpExpireHolds(now, order) =>
        forall x: State, id: nat | Consistent(x) ensures Consistent(ExpireHold(x, now, id)) { ConsistentExpireHold(x, now, id); }
        FoldKeeps(s, order, (x: State, id: nat) => ExpireHold(x, now, id), x => Consistent(x));
      case OpRelease(id, g, e) => ConsistentRelease(s, id, g, e);
      case OpCancel(id, g) => ConsistentCancelMember(s, id); CancelIsMember(s, id, g);
      case OpExpireDue(now, order) =>
        forall x: State, id: nat | Consistent(x) ensures Consistent(ExpireOne(x, now, id)) { ConsistentExpireOne(x, now, id); }
        FoldKeeps(s, order, (x: State, id: nat) => ExpireOne(x, now, id), x => Consistent(x));
    }
  }

  lemma NotPassing(op: Op)
    requires IsQuiet(op) && !IsPassing(op)
    ensures op.OpReleaseHold? || op.OpExpireHolds? || op.OpRelease? || op.OpCancel? || op.OpExpireDue?
  {
  }

  lemma PublishIff(s: State, p: Publication, order: seq<nat>)
    requires Consistent(s) && forall id :: id in s.reservations ==> id in order
    ensures Consistent(PublishResource(s, p, order).0) <==> (IsReplacement(s, p) ==> PublishGuard(s, p))
  {
    hide Consistent, PublishResource, InSpan, Burdened, Accommodates, Reinstalled, IsReplacement;
    ReplacementIs(s, p, order);
    if PublishResource(s, p, order).1 == Replaced {
      ReplacementKeepsIff(s, p, order);
    } else {
      ConsistentPublish(s, p, order);
    }
  }

  lemma HoldIff(s: State, spec: HoldSpec, now: int)
    requires Consistent(s)
    ensures Consistent(AcquireHold(s, spec, now).0) <==> (IsGrantable(s, spec) ==> !Loses(s, spec.id))
  {
    hide Consistent, AcquireHold, TouchesSpan, IsGrantable;
    GrantableIs(s, spec, now);
    if AcquireHold(s, spec, now).1 { AcquireIff(s, spec, now); } else { RefusedHold(s, spec, now); }
  }

  lemma CommitIff(s: State, req: Request, hold: Option<nat>)
    requires Consistent(s)
    ensures Consistent(Commit(s, req, hold).0) <==> (CommitAllowed(s, req, hold) ==> CommitGuard(s, req, hold))
  {
    hide Consistent, CommitOne, Assess, RoomFor, Off, CommitAllowed;
    if CommitAllowed(s, req, hold) {
      CommitKeepsBoundIff(s, req, hold);
      if hold.Some? { AllowedHold(s, req, hold.value); }
    } else {
      RefusedCommit(s, req, hold);
    }
  }

  lemma ChangeIff(s: State, op: Op)
    requires Consistent(s) && (op.OpResize? || op.OpRenew?)
    ensures Consistent(Step(s, op)) <==> (IsOrderly(s, op) ==> ChangeGuard(s, op))
  {
    hide Consistent, Step, IsAdmitted, RoomFor, TouchesSpan;
    if !IsOrderly(s, op) {
      UnorderlyIsRefused(s, op);
    } else if IsAdmitted(s, op) {
      AcceptedChangeIff(s, op);
    } else {
      RefusedChangeIff(s, op);
    }
  }

  /** An operation keeps the invariant if and only if its guard holds. */
  lemma StepKeepsIff(s: State, op: Op)
    requires Consistent(s) && WalksAll(s, op)
    ensures Consistent(Step(s, op)) <==> Guard(s, op)
  {
    hide Consistent, PublishGuard, Loses, CommitGuard, ChangeGuard, NoHoldLost, LastHold, CommitAllowed, IsOrderly, IsReplacement, IsGrantable;
    if IsQuiet(op) {
      hide Step, Guard;
      QuietIsGuarded(s, op);
      ConsistentQuiet(s, op);
    } else {
      NotQuiet(op);
      StepIs(s, op);
      hide Step, Commit, CommitBundle, AcquireHold, PublishResource, IsQuiet;
      match op
      case OpPublish(p, order) => PublishIff(s, p, order);
      case OpCreateHold(spec, now) => HoldIff(s, spec, now);
      case OpCommit(req, hold) => CommitIff(s, req, hold);
      case OpBundle(ms, now) => BundleKeepsIff(s, ms, now);
      case OpResize(_, _, _, _) => ChangeIff(s, op);
      case OpRenew(_, _, _, _) => ChangeIff(s, op);
    }
  }

  lemma NotQuiet(op: Op)
    requires !IsQuiet(op)
    ensures op.OpPublish? || op.OpCreateHold? || op.OpCommit? || op.OpBundle? || op.OpResize? || op.OpRenew?
  {
  }

  lemma QuietIsGuarded(s: State, op: Op)
    requires IsQuiet(op)
    ensures Guard(s, op)
  {
  }

  lemma StepIs(s: State, op: Op)
    ensures op.OpPublish? ==> Step(s, op) == PublishResource(s, op.publication, op.order).0
    ensures op.OpCreateHold? ==> Step(s, op) == AcquireHold(s, op.spec, op.now).0
    ensures op.OpCommit? ==> Step(s, op) == Commit(s, op.request, op.commitHold).0
    ensures op.OpBundle? ==> Step(s, op) == CommitBundle(s, op.members, op.now).0
  {
    hide PublishResource, AcquireHold, Commit, CommitBundle;
  }

  // ---- runs ----

  ghost predicate Guarded(s: State, ops: seq<Op>) {
    forall k :: 0 <= k < |ops| ==> Guard(RunOps(s, ops[..k]), ops[k]) && WalksAll(RunOps(s, ops[..k]), ops[k])
  }

  /** In every state a guarded run reaches, each envelope's hard, soft and held level at every
      instant of its span is the sum over the flagged reservations and applied holds covering
      it, and hard commitments plus holds never exceed the capacity there. */
  lemma {:induction false} ConsistentRun(s: State, ops: seq<Op>)
    requires Consistent(s) && Guarded(s, ops)
    ensures Consistent(RunOps(s, ops))
    decreases |ops|
  {
    hide Consistent, Step, Guard, WalksAll;
    if ops != [] {
      var before := ops[..|ops| - 1];
      GuardedPrefix(s, ops);
      ConsistentRun(s, before);
      StepKeepsIff(RunOps(s, before), ops[|ops| - 1]);
    }
  }

  lemma GuardedPrefix(s: State, ops: seq<Op>)
    requires Guarded(s, ops) && ops != []
    ensures var before := ops[..|ops| - 1];
            Guarded(s, before) && Guard(RunOps(s, before), ops[|ops| - 1]) && WalksAll(RunOps(s, before), ops[|ops| - 1])
  {
    hide Step, Guard, WalksAll, RunOps;
    var before := ops[..|ops| - 1];
    assert forall k :: 0 <= k < |before| ==> before[..k] == ops[..k] && before[k] == ops[k];
  }

  /** And the first operation whose guard fails ends it: the invariant holds all the way along a
      run if and only if the run is guarded. */
  lemma {:induction false} GuardedIff(s: State, ops: seq<Op>)
    requires Consistent(s) && forall k :: 0 <= k < |ops| ==> WalksAll(RunOps(s, ops[..k]), ops[k])
    ensures Guarded(s, ops) <==> forall k :: 0 <= k <= |ops| ==> Consistent(RunOps(s, ops[..k]))
    decreases |ops|
  {
    hide Consistent, Step, Guard, WalksAll, RunOps;
    if Guarded(s, ops) {
      forall k | 0 <= k <= |ops| ensures Consistent(RunOps(s, ops[..k])) {
        assert forall j :: 0 <= j < k ==> ops[..k][..j] == ops[..j] && ops[..k][j] == ops[j];
        ConsistentRun(s, ops[..k]);
      }
    } else {
      var k :| 0 <= k < |ops| && !Guard(RunOps(s, ops[..k]), ops[k]);
      if Consistent(RunOps(s, ops[..k])) {
        StepKeepsIff(RunOps(s, ops[..k]), ops[k]);
        RunExtends(s, ops, k);
      }
    }
  }

  lemma RunExtends(s: State, ops: seq<Op>, k: nat)
    requires k < |ops|
    ensures RunOps(s, ops[..k + 1]) == Step(RunOps(s, ops[..k]), ops[k])
  {
    hide Step;
    assert ops[..k + 1][..k] == ops[..k];
  }

  // ---- operations that are guarded without looking at the levels ----

  /** A commit admitted in full is guarded, hold or no hold; so is any commit against a hold of its
      own quantity and window, whatever part of it was admitted. */
  lemma OrdinaryCommitIsGuarded(s: State, req: Request, hold: Option<nat>)
    requires Consistent(s) && CommitAllowed(s, req, hold)
    requires Assess(s, req).verdict == Admissible || (hold.Some? && IsOwnHold(s, req, hold.value))
    ensures CommitGuard(s, req, hold)
  {
    hide Consistent, Assess, RoomFor, CommitAllowed, DropHold, HoldCounts;
    if Assess(s, req).verdict == Admissible {
      hide Off;
      FullAdmissionHasRoom(s, req, hold);
    } else {
      ConsistentIsStruct(s);
      HoldIsThere(s, req, hold.value);
      HoldIsApplied(s, hold.value);
      if req.strength == STRENGTH_HARD {
        OwnHoldMakesRoom(s, hold.value, Assess(s, req).resource, req.window, req.quantity.value);
      } else {
        AllowedIsAdmitted(s, req, hold.value);
        AppliedHoldCounts(s, hold.value);
        CountedHoldMakesRoom(s, req, req.quantity.value);
        OffHasRoom(s, hold.value, req.strength, Assess(s, req).resource, req.window, req.quantity.value);
      }
    }
  }

  /** A hold of the request's quantity and window. */
  predicate IsOwnHold(s: State, req: Request, hold: nat) {
    hold in s.holds && s.holds[hold].spec.window == req.window && s.holds[hold].spec.quantity.value == req.quantity.value
  }

  lemma HoldIsApplied(s: State, hold: nat)
    requires Struct(s) && hold in s.holds && s.holds[hold].state == HOLD_ACQUIRED
    ensures s.holds[hold].applied
  {
    assert HoldOk(s, hold, s.holds[hold]);
  }

  ghost predicate HoldIdsFree(s: State, n: nat) {
    forall id :: s.nextHoldId < id <= s.nextHoldId + n && id in s.holds ==> !s.holds[id].applied
  }

  /** A bundle whose hold identities are free is guarded, whatever its members. */
  lemma FreeBundleIsGuarded(s: State, members: seq<Request>, now: int)
    requires Consistent(s) && HoldIdsFree(s, |members|)
    ensures Guard(s, OpBundle(members, now))
  {
    hide Consistent, CommitBundle, LastHold, Undone, Added, TouchesSpan;
    ConsistentIsStruct(s);
    if CommitBundle(s, members, now).1.Done? {
      DoneBundleAdds(s, members, now);
    } else {
      RefusedBundleUndoes(s, members, now);
    }
  }
}
