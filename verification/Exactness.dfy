/** The operations that do not keep the mirror or the bound, each with the exact condition under
    which they do. */
module Exactness {
  import opened Types
  import opened Levels
  import opened Envelopes
  import opened Registry
  import opened Fencing
  import opened Sums
  import opened Mirrors
  import opened MirrorSteps
  import Authority
  import Fences
  import Int64

  /** The window covers an instant of the resource's span. */
  ghost predicate TouchesSpan(s: State, resource: nat, w: Interval) {
    exists x :: InSpan(s, resource, x) && Contains(w, x)
  }

  // ---- room ----

  /** A quantity of the given strength fits at an instant. */
  ghost predicate HasRoom(s: State, strength: Byte, resource: nat, x: int, q: int)
    requires InSpan(s, resource, x)
  {
    var v := LevelOf(s, resource, x);
    if strength == STRENGTH_HARD then q <= HardSlack(v) else v.soft + q <= Max(0, EffOf(s.envelopes[resource].ratio)(v.cap))
  }

  /** It fits at every instant of the window in the span. */
  ghost predicate RoomFor(s: State, strength: Byte, resource: nat, w: Interval, q: int) {
    forall x :: InSpan(s, resource, x) && Contains(w, x) ==> HasRoom(s, strength, resource, x, q)
  }

  /** Headroom is at least a 64-bit quantity exactly when the slack is, wherever the window
      meets the span. */
  lemma HeadroomIff(s: State, w: Interval, resource: nat, q: int)
    requires resource in s.envelopes && q <= Int64.MAX
    ensures q <= Headroom(s, true, w, resource) <==>
            forall x :: InSpan(s, resource, x) && Contains(w, x) ==> q <= HardSlack(LevelOf(s, resource, x))
  {
    var e := s.envelopes[resource];
    var h := MinHardHeadroom(e, w);
    LeastIsLeast(e.levels, w.start, w.end, HardSlack, Int64.MAX, h);
    assert forall x :: InSpan(s, resource, x) && Contains(w, x) ==> w.start <= x < w.end && x in e.levels;
    if Meets(e.levels, w.start, w.end) {
      var x :| w.start <= x < w.end && x in e.levels && HardSlack(e.levels[x]) == h;
      assert InSpan(s, resource, x) && Contains(w, x);
    }
  }

  /** For hard quantities room is headroom. */
  lemma HardRoomIsHeadroom(s: State, resource: nat, w: Interval, q: int)
    requires resource in s.envelopes && q <= Int64.MAX
    ensures RoomFor(s, STRENGTH_HARD, resource, w, q) <==> q <= Headroom(s, true, w, resource)
  {
    hide Headroom;
    HeadroomIff(s, w, resource, q);
  }

  /** Headroom of either strength makes room: soft headroom is counted after hard commitments and
      holds as well. */
  lemma HeadroomIsRoom(s: State, strength: Byte, resource: nat, w: Interval, q: int)
    requires Consistent(s) && q <= Headroom(s, strength == STRENGTH_HARD, w, resource)
    ensures RoomFor(s, strength, resource, w, q)
  {
    hide Headroom, Struct, NoOvercommit, Int64.EffCapacity;
    forall x | InSpan(s, resource, x) && Contains(w, x) ensures HasRoom(s, strength, resource, x, q) {
      HeadroomBounds(s, strength == STRENGTH_HARD, w, resource, x);
      LevelsNonNegative(s, resource, x);
    }
  }

  /** Adding a contribution to a consistent state keeps the bound exactly when there is room. */
  lemma BoundAfter(s: State, t: State, old_: Reservation, r: Reservation)
    requires NoOvercommit(s) && MovedBy(s, t, old_, r) && !old_.contributes && r.contributes
    ensures NoOvercommit(t) <==> RoomFor(s, r.strength, r.resource, r.window, r.quantity.value)
  {
    hide Int64.EffCapacity;
    forall resource, x | InSpan(s, resource, x)
      ensures InSpan(t, resource, x)
      ensures FitsAt(t, resource, x) <==>
              (resource == r.resource && Contains(r.window, x) ==> HasRoom(s, r.strength, resource, x, r.quantity.value))
    {
      assert FitsAt(s, resource, x);
    }
    forall resource, x | InSpan(t, resource, x) ensures InSpan(s, resource, x) {
    }
    if NoOvercommit(t) {
      forall x | InSpan(s, r.resource, x) && Contains(r.window, x) ensures HasRoom(s, r.strength, r.resource, x, r.quantity.value) {
        assert InSpan(t, r.resource, x) && FitsAt(t, r.resource, x);
      }
    }
  }

  // ---- resize and renewal ----

  /** A record adopted with its flag already set is summed but never added to its envelope. */
  lemma AdoptedMirror(s: State, id: nat, generation: nat, n: Reservation)
    requires Consistent(s) && IsCurrent(s, id, generation)
    requires n.contributes && n.resource == s.reservations[id].resource && n.quantity.value > 0
    ensures var (s1, r1) := Withdraw(s, s.reservations[id]);
            Mirror(Adopt(s1, id, r1, n)) <==> !TouchesSpan(s, n.resource, n.window)
  {
    hide HardSum, SoftSum, HeldSum, Struct, NoOvercommit, Withdraw, Adopt, Covered;
    var r := s.reservations[id];
    var (s1, r1) := Withdraw(s, r);
    var t := Adopt(s1, id, r1, n);
    WithdrawMoves(s, r);
    WithdrawShape(s, r);
    Fences.AdoptShape(s1, id, r1, n);
    AdoptKeepsHolds(s1, id, r1, n);
    ResourceHasEnvelope(s, id);
    WithdrawClears(s, r);
    forall resource, x | InSpan(s, resource, x)
      ensures InSpan(t, resource, x)
      ensures MirrorAt(t, resource, x) <==> !(resource == n.resource && Contains(n.window, x))
    {
      assert InSpan(s1, resource, x) && LevelOf(t, resource, x) == LevelOf(s1, resource, x);
      assert MirrorAt(s, resource, x);
      HardSumPut(s.reservations, id, n, resource, x);
      SoftSumPut(s.reservations, id, n, resource, x);
      AdoptedWeight(n, resource, x);
    }
    forall resource, x | InSpan(t, resource, x) ensures InSpan(s, resource, x) {
    }
    if TouchesSpan(s, n.resource, n.window) {
      var x :| InSpan(s, n.resource, x) && Contains(n.window, x);
      assert InSpan(t, n.resource, x) && !MirrorAt(t, n.resource, x);
    }
  }

  lemma AdoptedWeight(n: Reservation, resource: nat, x: int)
    requires n.contributes && n.quantity.value > 0
    ensures 0 <= HardWeight(n, resource, x) && 0 <= SoftWeight(n, resource, x)
    ensures HardWeight(n, resource, x) + SoftWeight(n, resource, x) > 0 <==> resource == n.resource && Contains(n.window, x)
  {
  }

  lemma WithdrawClears(s: State, r: Reservation)
    requires r.resource in s.envelopes
    ensures !Withdraw(s, r).1.contributes && Withdraw(s, r).0.holds == s.holds
    ensures forall resource, x :: HardWeight(Withdraw(s, r).1, resource, x) == 0 && SoftWeight(Withdraw(s, r).1, resource, x) == 0
  {
    hide AddCommitted;
  }

  lemma AdoptKeepsHolds(s: State, id: nat, old_: Reservation, n: Reservation)
    ensures Adopt(s, id, old_, n).holds == s.holds
  {
    hide AddCommitted, Remembered, HistoryOf;
  }

  /** The checks a resize or renewal makes before it looks at capacity. */
  predicate IsOrderly(s: State, op: Op)
    requires op.OpResize? || op.OpRenew?
  {
    && IsCurrent(s, op.id, op.generation) && op.policyGeneration >= s.reservations[op.id].policyGeneration
    && (op.OpResize? ==> op.quantity.value > 0 && op.quantity.unit == s.reservations[op.id].unit)
  }

  function TargetWindow(s: State, op: Op): Interval
    requires (op.OpResize? || op.OpRenew?) && op.id in s.reservations
  {
    if op.OpRenew? then op.window else s.reservations[op.id].window
  }

  function TargetQuantity(s: State, op: Op): int
    requires (op.OpResize? || op.OpRenew?) && op.id in s.reservations
  {
    if op.OpResize? then op.quantity.value else s.reservations[op.id].quantity.value
  }

  /** The capacity check: headroom with the reservation's own contribution off. */
  predicate IsAdmitted(s: State, op: Op)
    requires (op.OpResize? || op.OpRenew?) && op.id in s.reservations
  {
    var r := s.reservations[op.id];
    Headroom(Withdraw(s, r).0, r.strength == STRENGTH_HARD, TargetWindow(s, op), r.resource) >= TargetQuantity(s, op)
  }

  function ChangedRecord(s: State, op: Op): Reservation
    requires (op.OpResize? || op.OpRenew?) && op.id in s.reservations
  {
    var r1 := Withdraw(s, s.reservations[op.id]).1;
    if op.OpResize? then Resized(r1, NextGeneration(s, op.id), op.quantity, op.policyGeneration)
    else Renewed(r1, NextGeneration(s, op.id), op.window, op.policyGeneration)
  }

  lemma ChangeCases(s: State, op: Op)
    requires (op.OpResize? || op.OpRenew?) && IsOrderly(s, op)
    ensures var (s1, r1) := Withdraw(s, s.reservations[op.id]);
            Step(s, op) == if IsAdmitted(s, op) then Adopt(s1, op.id, r1, ChangedRecord(s, op)) else Restore(s1, op.id, r1)
  {
    hide Withdraw, Headroom, Adopt, Restore, Resized, Renewed;
    WithdrawnTerms(s, s.reservations[op.id]);
  }

  lemma WithdrawnTerms(s: State, r: Reservation)
    ensures var r1 := Withdraw(s, r).1; r1 == r.(contributes := r1.contributes) && (r1.contributes ==> r.contributes)
  {
    hide AddCommitted;
  }

  lemma ChangedFacts(s: State, op: Op)
    requires (op.OpResize? || op.OpRenew?) && IsOrderly(s, op) && Struct(s)
    ensures var n := ChangedRecord(s, op);
            n.contributes && n.resource == s.reservations[op.id].resource && n.quantity.value > 0 && n.window == TargetWindow(s, op)
  {
    hide Withdraw, Struct;
    WithdrawnTerms(s, s.reservations[op.id]);
    WeightIsPositive(s, op.id);
  }

  lemma UnorderlyIsRefused(s: State, op: Op)
    requires (op.OpResize? || op.OpRenew?) && !IsOrderly(s, op)
    ensures Step(s, op) == s
  {
    hide Withdraw, Headroom, Adopt, Restore, Resized, Renewed;
  }

  /** An accepted change only takes levels off. */
  lemma AdoptedBound(s: State, id: nat, n: Reservation)
    requires NoOvercommit(s) && id in s.reservations && n.contributes && s.reservations[id].quantity.value > 0
    ensures var (s1, r1) := Withdraw(s, s.reservations[id]); NoOvercommit(Adopt(s1, id, r1, n))
  {
    hide Withdraw, Adopt, HardWeight, SoftWeight;
    var (s1, r1) := Withdraw(s, s.reservations[id]);
    WithdrawMoves(s, s.reservations[id]);
    WithdrawnTerms(s, s.reservations[id]);
    Fences.AdoptShape(s1, id, r1, n);
    var t := Adopt(s1, id, r1, n);
    forall resource, x | InSpan(t, resource, x) ensures FitsAt(t, resource, x) {
      assert InSpan(s1, resource, x) && InSpan(s, resource, x) && FitsAt(s, resource, x);
      OffIsLighter(s.reservations[id], r1, resource, x);
    }
  }

  lemma OffIsLighter(r: Reservation, r': Reservation, resource: nat, x: int)
    requires r.quantity.value > 0 && r' == r.(contributes := r'.contributes) && (r'.contributes ==> r.contributes)
    ensures HardWeight(r', resource, x) <= HardWeight(r, resource, x) && SoftWeight(r', resource, x) <= SoftWeight(r, resource, x)
  {
  }

  /** An accepted resize or renewal keeps the mirror, and the whole invariant, if and only if its
      window misses the span of its resource altogether. */
  lemma AcceptedChangeIff(s: State, op: Op)
    requires Consistent(s) && (op.OpResize? || op.OpRenew?) && IsOrderly(s, op) && IsAdmitted(s, op)
    ensures var outside := !TouchesSpan(s, s.reservations[op.id].resource, TargetWindow(s, op));
            (Mirror(Step(s, op)) <==> outside) && (Consistent(Step(s, op)) <==> outside)
  {
    hide Mirror, NoOvercommit, Struct, Withdraw, Adopt, TouchesSpan, ChangedRecord, IsAdmitted, Step;
    var r := s.reservations[op.id];
    ChangeCases(s, op);
    ChangedFacts(s, op);
    AdoptedMirror(s, op.id, op.generation, ChangedRecord(s, op));
    WeightIsPositive(s, op.id);
    AdoptedBound(s, op.id, ChangedRecord(s, op));
    StructStep(s, op);
  }

  /** A refused one puts back what it took off, even if there was nothing to take off: the mirror
      survives, the whole invariant if and only if the reservation was contributing or its old
      quantity still has room. */
  lemma RefusedChangeIff(s: State, op: Op)
    requires Consistent(s) && (op.OpResize? || op.OpRenew?) && IsOrderly(s, op) && !IsAdmitted(s, op)
    ensures var r := s.reservations[op.id];
            && Mirror(Step(s, op))
            && (Consistent(Step(s, op)) <==> r.contributes || RoomFor(s, r.strength, r.resource, r.window, r.quantity.value))
  {
    hide Withdraw, Restore, Step, IsAdmitted, Struct, Mirror, NoOvercommit, RoomFor;
    ChangeCases(s, op);
    StructStep(s, op);
    if s.reservations[op.id].contributes {
      ConsistentRestore(s, op.id, op.generation);
    } else {
      ReturnedIff(s, op.id);
    }
  }

  /** Restoring a record that did not contribute. */
  lemma ReturnedIff(s: State, id: nat)
    requires Consistent(s) && id in s.reservations && !s.reservations[id].contributes
    ensures var r := s.reservations[id];
            var (s1, r1) := Withdraw(s, r);
            var t := Restore(s1, id, r1);
            Mirror(t) && (NoOvercommit(t) <==> RoomFor(s, r.strength, r.resource, r.window, r.quantity.value))
  {
    hide MovedBy, AddCommitted, Struct, Mirror, NoOvercommit, RoomFor;
    var r := s.reservations[id];
    var (s2, r2) := Contribute(s, r);
    var t := Restore(s, id, r);
    ResourceHasEnvelope(s, id);
    ContributeMoves(s, r);
    SameLevelsMove(s, s2, s, t, r, r2);
    MirrorPut(s, t, id, r, r2);
    BoundAfter(s, t, r, r2);
  }

  // ---- commits ----

  /** The state with the commit's hold off. */
  function Off(s: State, hold: Option<nat>): State {
    if hold.Some? && hold.value in s.holds then DropHold(s, hold.value, HOLD_COMMITTED) else s
  }

  /** A commit, against a hold or not, admitted in full or in part, keeps the mirror; it keeps the
      whole invariant if and only if its full quantity has room once the hold is off. */
  lemma CommitKeepsBoundIff(s: State, req: Request, hold: Option<nat>)
    requires Consistent(s) && CommitAllowed(s, req, hold)
    ensures var t := CommitOne(s, req, hold).0;
            Mirror(t) && (Consistent(t) <==> RoomFor(Off(s, hold), req.strength, Assess(s, req).resource, req.window, req.quantity.value))
  {
    hide Assess, CommitOne, MovedBy, Struct, Mirror, NoOvercommit, CommitAllowed, DropHold, RoomFor;
    if hold.Some? { CommitThenDrop(s, req, hold.value); }
    AllowedResource(s, req, hold);
    NewRecordFacts(s, req);
    var t, r, id := CommitOne(s, req, hold).0, NewReservation(s, req), s.nextReservationId + 1;
    StructCommit(s, req, hold);
    CommitShape(s, req, None);
    CommitMoves(s, req);
    var b := Off(s, hold);
    if hold.Some? {
      HoldIsThere(s, req, hold.value);
      ConsistentDrop(s, hold.value, HOLD_COMMITTED);
      MovedUnderDrop(s, CommitOne(s, req, None).0, hold.value, r, r.(contributes := true));
    }
    MirrorPut(b, t, id, r, r.(contributes := true));
    BoundAfter(b, t, r, r.(contributes := true));
  }

  lemma HoldIsThere(s: State, req: Request, hold: nat)
    requires CommitAllowed(s, req, Some(hold))
    ensures hold in s.holds && s.holds[hold].state == HOLD_ACQUIRED && s.holds[hold].resource == Assess(s, req).resource
  {
    hide Assess;
  }

  /** Taking the hold off before or after the record is added comes to the same. */
  lemma MovedUnderDrop(s: State, t: State, hold: nat, old_: Reservation, r: Reservation)
    requires Struct(s) && MovedBy(s, t, old_, r) && t.holds == s.holds && hold in s.holds
    ensures var b, u := DropHold(s, hold, HOLD_COMMITTED), DropHold(t, hold, HOLD_COMMITTED);
            MovedBy(b, u, old_, r) && u.holds == b.holds && b.reservations == s.reservations && u.reservations == t.reservations
  {
    hide DropHold, HardWeight, SoftWeight, HeldWeight, Struct;
    HoldHasEnvelope(s, hold);
    DropMoves(s, hold, HOLD_COMMITTED);
    DropMoves(t, hold, HOLD_COMMITTED);
    DroppedRecord(s, hold);
    DroppedRecord(t, hold);
    var b, u := DropHold(s, hold, HOLD_COMMITTED), DropHold(t, hold, HOLD_COMMITTED);
    forall resource, x | InSpan(b, resource, x) ensures InSpan(s, resource, x) && InSpan(t, resource, x) {
    }
  }

  lemma DroppedRecord(s: State, hold: nat)
    requires hold in s.holds
    ensures DropHold(s, hold, HOLD_COMMITTED).holds == s.holds[hold := s.holds[hold].(applied := false, state := HOLD_COMMITTED)]
  {
  }

  lemma NewRecordFacts(s: State, req: Request)
    requires Struct(s) && CommitAllowed(s, req, None)
    ensures Assess(s, req).resource in s.resources
    ensures var r := NewReservation(s, req);
            && !r.contributes && r.resource == Assess(s, req).resource && r.resource in s.envelopes && r.quantity == req.quantity
            && r.window == req.window && r.strength == req.strength && req.quantity.value > 0
  {
    hide Assess;
    AdmittedFacts(s, req);
    KeysAgree(s);
  }

  /** A request admitted in full always has room, hold or no hold. */
  lemma FullAdmissionHasRoom(s: State, req: Request, hold: Option<nat>)
    requires Consistent(s) && Assess(s, req).verdict == Admissible
    ensures RoomFor(Off(s, hold), req.strength, Assess(s, req).resource, req.window, req.quantity.value)
  {
    hide Assess, Headroom, Struct, Mirror, NoOvercommit, DropHold, Max, EffOf;
    AssessFits(s, req);
    HeadroomIsRoom(s, req.strength, Assess(s, req).resource, req.window, req.quantity.value);
    if hold.Some? && hold.value in s.holds { OffHasRoom(s, hold.value, req.strength, Assess(s, req).resource, req.window, req.quantity.value); }
  }

  lemma OffHasRoom(s: State, hold: nat, strength: Byte, resource: nat, w: Interval, q: int)
    requires Struct(s) && hold in s.holds && RoomFor(s, strength, resource, w, q)
    ensures RoomFor(DropHold(s, hold, HOLD_COMMITTED), strength, resource, w, q)
  {
    hide DropHold, Struct, EffOf, Max;
    HoldHasEnvelope(s, hold);
    DropMoves(s, hold, HOLD_COMMITTED);
    var t := DropHold(s, hold, HOLD_COMMITTED);
    forall x | InSpan(t, resource, x) && Contains(w, x) ensures HasRoom(t, strength, resource, x, q) {
      assert InSpan(s, resource, x) && HasRoom(s, strength, resource, x, q);
      HoldWeighs(s, hold, resource, x);
    }
  }

  lemma HoldWeighs(s: State, hold: nat, resource: nat, x: int)
    requires Struct(s) && hold in s.holds
    ensures 0 <= HeldWeight(s.holds[hold], resource, x)
  {
    assert HoldOk(s, hold, s.holds[hold]);
  }

  /** A hard commit against an applied hold of its own quantity and window always has room. */
  lemma OwnHoldMakesRoom(s: State, hold: nat, resource: nat, w: Interval, q: int)
    requires Consistent(s) && hold in s.holds && s.holds[hold].applied && s.holds[hold].resource == resource
    requires s.holds[hold].spec.window == w && s.holds[hold].spec.quantity.value == q
    ensures RoomFor(Off(s, Some(hold)), STRENGTH_HARD, resource, w, q)
  {
    hide DropHold, Struct, EffOf, Max;
    HoldHasEnvelope(s, hold);
    DropMoves(s, hold, HOLD_COMMITTED);
    var t := DropHold(s, hold, HOLD_COMMITTED);
    forall x | InSpan(t, resource, x) && Contains(w, x) ensures HasRoom(t, STRENGTH_HARD, resource, x, q) {
      assert InSpan(s, resource, x) && FitsAt(s, resource, x);
    }
  }

  // ---- reused hold identities ----

  /** Acquiring a hold under an identity whose hold is still applied loses that hold: the mirror
      survives if and only if the lost hold's window misses the span. */
  lemma ReusedHoldKeepsMirrorIff(s: State, spec: HoldSpec, now: int)
    requires Consistent(s) && AcquireHold(s, spec, now).1 && spec.id in s.holds && s.holds[spec.id].applied
    ensures var lost := s.holds[spec.id];
            Mirror(AcquireHold(s, spec, now).0) <==> !TouchesSpan(s, lost.resource, lost.spec.window)
  {
    hide AcquireHold, HardSum, SoftSum, HeldSum, Headroom, Struct, NoOvercommit;
    var t := AcquireHold(s, spec, now).0;
    var lost := s.holds[spec.id];
    AcquireMoves(s, spec, now);
    HoldIsPositive(s, spec.id);
    forall resource, x | InSpan(s, resource, x)
      ensures InSpan(t, resource, x)
      ensures MirrorAt(t, resource, x) <==> !(resource == lost.resource && Contains(lost.spec.window, x))
    {
      assert MirrorAt(s, resource, x);
      HeldSumPut(s.holds, spec.id, t.holds[spec.id], resource, x);
    }
    forall resource, x | InSpan(t, resource, x) ensures InSpan(s, resource, x) {
    }
    if TouchesSpan(s, lost.resource, lost.spec.window) {
      var x :| InSpan(s, lost.resource, x) && Contains(lost.spec.window, x);
      assert InSpan(t, lost.resource, x) && !MirrorAt(t, lost.resource, x);
    }
  }

  lemma HoldIsPositive(s: State, id: nat)
    requires Struct(s) && id in s.holds
    ensures 0 < s.holds[id].spec.quantity.value
  {
    assert HoldOk(s, id, s.holds[id]);
  }

  /** Whether or not its identity is in use, an acquired hold keeps the whole invariant if and
      only if it does not replace an applied hold whose window touches the span. */
  lemma AcquireIff(s: State, spec: HoldSpec, now: int)
    requires Consistent(s) && AcquireHold(s, spec, now).1
    ensures Consistent(AcquireHold(s, spec, now).0) <==>
            !(spec.id in s.holds && s.holds[spec.id].applied && TouchesSpan(s, s.holds[spec.id].resource, s.holds[spec.id].spec.window))
  {
    hide AcquireHold, Headroom, Struct, Mirror, TouchesSpan, MovedByHold;
    StructAcquire(s, spec, now);
    AcquiredBound(s, spec, now);
    if spec.id in s.holds && s.holds[spec.id].applied {
      ReusedHoldKeepsMirrorIff(s, spec, now);
    } else {
      ConsistentAcquire(s, spec, now);
    }
  }

  lemma AcquiredBound(s: State, spec: HoldSpec, now: int)
    requires Struct(s) && NoOvercommit(s) && AcquireHold(s, spec, now).1
    ensures NoOvercommit(AcquireHold(s, spec, now).0)
  {
    hide AcquireHold, Headroom, Struct;
    AcquireMoves(s, spec, now);
    var t := AcquireHold(s, spec, now).0;
    var h := t.holds[spec.id];
    forall resource, x | InSpan(t, resource, x) ensures FitsAt(t, resource, x) {
      assert InSpan(s, resource, x);
      assert FitsAt(s, resource, x);
      if resource == h.resource && Contains(spec.window, x) {
        HeadroomBounds(s, true, spec.window, resource, x);
      }
    }
  }

  // ---- replacement publications ----

  /** By how much the registry's sums exceed the levels. */
  ghost function Excess(s: State, resource: nat, x: int): (int, int, int)
    requires InSpan(s, resource, x)
  {
    var v := LevelOf(s, resource, x);
    (HardSum(s.reservations, resource, x) - v.hard, SoftSum(s.reservations, resource, x) - v.soft, HeldSum(s.holds, resource, x) - v.held)
  }

  ghost predicate SameExcess(s: State, t: State) {
    && SameSpans(s, t) && t.holds == s.holds
    && forall resource, x :: InSpan(s, resource, x) ==>
                               Excess(t, resource, x) == Excess(s, resource, x) && LevelOf(t, resource, x).cap == LevelOf(s, resource, x).cap
  }

  lemma ReadmitKeepsExcess(s: State, x: State, resource: nat, id: nat)
    requires SameExcess(s, x)
    ensures SameExcess(s, Readmit(x, resource, id))
  {
    hide HardSum, SoftSum, HeldSum, MovedBy, AddCommitted, HoldsCapacity, Contribute;
    var y := Readmit(x, resource, id);
    if id in x.reservations && x.reservations[id].resource == resource && HoldsCapacity(x.reservations[id].lifecycle) {
      var r := x.reservations[id];
      var (x1, r1) := Contribute(x, r);
      ContributeMoves(x, r);
      MovedSameWeight(x, x1, r, r1, Demoted(r1));
      SameLevelsMove(x, x1, x, y, r, Demoted(r1));
      ContributeShape(x, r);
      ExcessPut(s, x, y, id, r, Demoted(r1));
    }
  }

  lemma ContributeShape(s: State, r: Reservation)
    ensures var (t, r1) := Contribute(s, r); t == s.(envelopes := t.envelopes) && t.envelopes.Keys == s.envelopes.Keys
  {
    hide AddCommitted;
  }

  lemma ExcessPut(s: State, x: State, y: State, id: nat, r: Reservation, r': Reservation)
    requires SameExcess(s, x) && MovedBy(x, y, r, r') && id in x.reservations && x.reservations[id] == r
    requires y.reservations == x.reservations[id := r'] && y.holds == x.holds
    ensures SameExcess(s, y)
  {
    hide HardSum, SoftSum, HeldSum, HardWeight, SoftWeight;
    forall resource, k | InSpan(s, resource, k) ensures InSpan(y, resource, k) && Excess(y, resource, k) == Excess(s, resource, k) && LevelOf(y, resource, k).cap == LevelOf(s, resource, k).cap {
      assert InSpan(x, resource, k) && Excess(x, resource, k) == Excess(s, resource, k);
      HardSumPut(x.reservations, id, r', resource, k);
      SoftSumPut(x.reservations, id, r', resource, k);
    }
  }

  /** A flagged reservation or applied hold of the resource covers the instant. */
  ghost predicate Burdened(s: State, resource: nat, x: int) {
    || (exists id :: id in s.reservations && s.reservations[id].contributes && s.reservations[id].resource == resource && Contains(s.reservations[id].window, x))
    || (exists id :: id in s.holds && s.holds[id].applied && s.holds[id].resource == resource && Contains(s.holds[id].spec.window, x))
  }

  lemma SumsVanishIff(s: State, resource: nat, x: int)
    requires Struct(s)
    ensures HardSum(s.reservations, resource, x) == 0 && SoftSum(s.reservations, resource, x) == 0 && HeldSum(s.holds, resource, x) == 0
            <==> !Burdened(s, resource, x)
  {
    var hw, sw, dw := HardWeights(s.reservations, resource, x), SoftWeights(s.reservations, resource, x), HeldWeights(s.holds, resource, x);
    forall id | id in s.reservations
      ensures 0 <= hw[id] && 0 <= sw[id]
      ensures hw[id] == 0 && sw[id] == 0 <==>
              !(s.reservations[id].contributes && s.reservations[id].resource == resource && Contains(s.reservations[id].window, x))
    {
      assert ReservationOk(s, id, s.reservations[id]);
    }
    forall id | id in s.holds
      ensures 0 <= dw[id]
      ensures dw[id] == 0 <==> !(s.holds[id].applied && s.holds[id].resource == resource && Contains(s.holds[id].spec.window, x))
    {
      assert HoldOk(s, id, s.holds[id]);
    }
    SumZero(hw);
    SumZero(sw);
    SumZero(dw);
  }

  /** The registry right after a replacement installed its new envelope. */
  function Reinstalled(s: State, p: Publication): State {
    s.(workerBoots := s.workerBoots[p.worker := p.workerBoot],
       resources := s.resources[p.id := ResourceOf(p)], envelopes := s.envelopes[p.id := PublishedEnvelope(s, p)])
  }

  /** A replacement publication installs an empty envelope and re-adds only reservations that are
      not flagged: the mirror survives if and only if nothing flagged or applied on the resource
      covers an instant of the new span. */
  lemma ReplacementKeepsMirrorIff(s: State, p: Publication, order: seq<nat>)
    requires Consistent(s) && PublishResource(s, p, order).1 == Replaced
    ensures Mirror(PublishResource(s, p, order).0) <==>
            forall x :: InSpan(Reinstalled(s, p), p.id, x) ==> !Burdened(s, p.id, x)
  {
    hide PublishedEnvelope, Fold, Readmit, Struct, NoOvercommit, HardSum, SoftSum, HeldSum, SameExcess, Burdened;
    var s2 := Reinstalled(s, p);
    var t := PublishResource(s, p, order).0;
    ReplacementKeepsExcess(s, p, order);
    MirrorIffNoExcess(s2, t);
    forall resource, x | InSpan(s2, resource, x)
      ensures Excess(s2, resource, x) == (0, 0, 0) <==> (resource == p.id ==> !Burdened(s, p.id, x))
    {
      if resource == p.id {
        PublishedLevels(s, p, x);
        SumsVanishIff(s, p.id, x);
      } else {
        assert InSpan(s, resource, x);
        assert MirrorAt(s, resource, x);
      }
    }
  }

  lemma ReplacementKeepsExcess(s: State, p: Publication, order: seq<nat>)
    requires PublishResource(s, p, order).1 == Replaced
    ensures SameExcess(Reinstalled(s, p), PublishResource(s, p, order).0)
  {
    hide PublishedEnvelope, PublishResource, Fold, Readmit, Reinstalled, SameExcess;
    var s2 := Reinstalled(s, p);
    ReplacedIsFold(s, p, order);
    SelfExcess(s2);
    forall x: State, id: nat | SameExcess(s2, x) ensures SameExcess(s2, Readmit(x, p.id, id)) {
      ReadmitKeepsExcess(s2, x, p.id, id);
    }
    FoldKeeps(s2, order, (x: State, id: nat) => Readmit(x, p.id, id), x => SameExcess(s2, x));
  }

  // ---- and the bound ----

  /** A replacement re-adds this reservation. */
  predicate Returns(r: Reservation, resource: nat) {
    r.resource == resource && HoldsCapacity(r.lifecycle) && !r.contributes
  }

  /** The reservations, flagged exactly where a replacement of the resource re-adds them. */
  ghost function Returning(s: State, resource: nat): map<nat, Reservation> {
    map id | id in s.reservations :: s.reservations[id].(contributes := Returns(s.reservations[id], resource))
  }

  /** They fit what the new envelope offers at an instant. */
  ghost predicate Accommodates(s: State, p: Publication, x: int)
    requires InSpan(Reinstalled(s, p), p.id, x)
  {
    var cap := LevelOf(Reinstalled(s, p), p.id, x).cap;
    HardSum(Returning(s, p.id), p.id, x) <= cap && SoftSum(Returning(s, p.id), p.id, x) <= Max(0, EffOf(p.ratio)(cap))
  }

  /** What walking an order of reservations has done to the flags. */
  ghost predicate ReadmittedBy(m: map<nat, Reservation>, n: map<nat, Reservation>, resource: nat, order: seq<nat>) {
    && n.Keys == m.Keys
    && forall id :: id in m ==>
                      && SameWeight(n[id], m[id].(contributes := m[id].contributes || (id in order && Returns(m[id], resource))))
                      && HoldsCapacity(n[id].lifecycle) == HoldsCapacity(m[id].lifecycle)
  }

  lemma {:induction false} ReadmittedByOrder(s: State, resource: nat, order: seq<nat>)
    requires resource in s.envelopes
    ensures var t := Fold(s, order, (x: State, id: nat) => Readmit(x, resource, id));
            resource in t.envelopes && ReadmittedBy(s.reservations, t.reservations, resource, order)
  {
    hide ReadmittedBy, Readmit;
    var f := (x: State, id: nat) => Readmit(x, resource, id);
    if order == [] {
      ReadmittedNone(s.reservations, resource);
    } else {
      var before, id := order[..|order| - 1], order[|order| - 1];
      ReadmittedByOrder(s, resource, before);
      ReadmittedOne(s.reservations, Fold(s, before, f), resource, before, id);
      assert before + [id] == order;
    }
  }

  lemma ReadmittedNone(m: map<nat, Reservation>, resource: nat)
    ensures ReadmittedBy(m, m, resource, [])
  {
  }

  lemma ReadmittedOne(m: map<nat, Reservation>, t: State, resource: nat, order: seq<nat>, id: nat)
    requires ReadmittedBy(m, t.reservations, resource, order) && resource in t.envelopes
    ensures resource in Readmit(t, resource, id).envelopes
    ensures ReadmittedBy(m, Readmit(t, resource, id).reservations, resource, order + [id])
  {
    hide HoldsCapacity, Readmit, SameWeight;
    ReadmittedAs(t, resource, id);
    var n := Readmit(t, resource, id).reservations;
    forall k | k in m
      ensures SameWeight(n[k], m[k].(contributes := m[k].contributes || (k in order + [id] && Returns(m[k], resource))))
      ensures HoldsCapacity(n[k].lifecycle) == HoldsCapacity(m[k].lifecycle)
    {
      assert SameWeight(t.reservations[k], m[k].(contributes := m[k].contributes || (k in order && Returns(m[k], resource))));
      if k == id { FlaggedOnce(m[k], t.reservations[k], n[k], resource, k in order); }
    }
  }

  lemma FlaggedOnce(r: Reservation, a: Reservation, b: Reservation, resource: nat, done: bool)
    requires SameWeight(a, r.(contributes := r.contributes || (done && Returns(r, resource)))) && HoldsCapacity(a.lifecycle) == HoldsCapacity(r.lifecycle)
    requires SameWeight(b, a.(contributes := a.contributes || Returns(a, resource)))
    ensures SameWeight(b, r.(contributes := r.contributes || Returns(r, resource)))
  {
    hide HoldsCapacity;
  }

  lemma ReadmittedAs(t: State, resource: nat, id: nat)
    requires resource in t.envelopes
    ensures var n := Readmit(t, resource, id);
            && resource in n.envelopes && n.reservations.Keys == t.reservations.Keys
            && (forall k :: k in t.reservations && k != id ==> n.reservations[k] == t.reservations[k])
            && (id in t.reservations ==>
                  && SameWeight(n.reservations[id], t.reservations[id].(contributes := t.reservations[id].contributes || Returns(t.reservations[id], resource)))
                  && HoldsCapacity(n.reservations[id].lifecycle) == HoldsCapacity(t.reservations[id].lifecycle))
  {
    hide Readmit, HoldsCapacity, Demoted;
    ReadmittedRecord(t, resource, id);
    if id in t.reservations {
      DemotedStillHolds(t.reservations[id].(contributes := true));
    }
  }

  lemma ReadmittedRecord(t: State, resource: nat, id: nat)
    requires resource in t.envelopes
    ensures var n := Readmit(t, resource, id);
            && resource in n.envelopes
            && n.reservations == (if id in t.reservations && t.reservations[id].resource == resource && HoldsCapacity(t.reservations[id].lifecycle)
                                  then t.reservations[id := Demoted(t.reservations[id].(contributes := true))] else t.reservations)
  {
    hide Contribute, HoldsCapacity, Demoted;
    if id in t.reservations {
      ContributeShape(t, t.reservations[id]);
      ContributedFlag(t, t.reservations[id]);
    }
  }

  lemma ContributedFlag(s: State, r: Reservation)
    ensures r.resource in s.envelopes ==> Contribute(s, r).1 == r.(contributes := true)
  {
    hide AddCommitted;
  }

  lemma DemotedStillHolds(r: Reservation)
    ensures SameWeight(Demoted(r), r) && HoldsCapacity(Demoted(r).lifecycle) == HoldsCapacity(r.lifecycle)
  {
  }

  lemma ReadmittedElsewhere(m: map<nat, Reservation>, n: map<nat, Reservation>, resource: nat, order: seq<nat>, other: nat, x: int)
    requires ReadmittedBy(m, n, resource, order) && other != resource
    ensures HardSum(n, other, x) == HardSum(m, other, x) && SoftSum(n, other, x) == SoftSum(m, other, x)
  {
    hide HoldsCapacity, Covered;
    assert HardWeights(n, other, x) == HardWeights(m, other, x);
    assert SoftWeights(n, other, x) == SoftWeights(m, other, x);
  }

  /** Where nothing on the resource weighed before, exactly the returning reservations weigh. */
  lemma ReadmittedHere(s: State, n: map<nat, Reservation>, resource: nat, order: seq<nat>, x: int)
    requires ReadmittedBy(s.reservations, n, resource, order) && (forall id :: id in s.reservations ==> id in order) && !Burdened(s, resource, x)
    ensures HardSum(n, resource, x) == HardSum(Returning(s, resource), resource, x)
    ensures SoftSum(n, resource, x) == SoftSum(Returning(s, resource), resource, x)
  {
    hide HoldsCapacity;
    forall id | id in s.reservations
      ensures HardWeight(n[id], resource, x) == HardWeight(Returning(s, resource)[id], resource, x)
      ensures SoftWeight(n[id], resource, x) == SoftWeight(Returning(s, resource)[id], resource, x)
    {
      assert SameWeight(n[id], s.reservations[id].(contributes := s.reservations[id].contributes || Returns(s.reservations[id], resource)));
    }
    assert HardWeights(n, resource, x) == HardWeights(Returning(s, resource), resource, x);
    assert SoftWeights(n, resource, x) == SoftWeights(Returning(s, resource), resource, x);
  }

  /** A replacement keeps the whole invariant if and only if, at every instant of the new span,
      nothing flagged or applied on the resource covers it and the reservations re-added fit the
      new capacity (hard) and the new effective capacity (soft). */
  lemma ReplacementKeepsIff(s: State, p: Publication, order: seq<nat>)
    requires Consistent(s) && PublishResource(s, p, order).1 == Replaced
    requires forall id :: id in s.reservations ==> id in order
    ensures Consistent(PublishResource(s, p, order).0) <==>
            forall x :: InSpan(Reinstalled(s, p), p.id, x) ==> !Burdened(s, p.id, x) && Accommodates(s, p, x)
  {
    hide PublishedEnvelope, Struct, Mirror, NoOvercommit, HardSum, SoftSum, HeldSum, SameExcess, Burdened, PublishResource, Accommodates;
    var t := PublishResource(s, p, order).0;
    StructPublish(s, p, order);
    ReplacementKeepsMirrorIff(s, p, order);
    if forall x :: InSpan(Reinstalled(s, p), p.id, x) ==> !Burdened(s, p.id, x) {
      ReplacementBoundIff(s, p, order);
    }
  }

  lemma ReplacementBoundIff(s: State, p: Publication, order: seq<nat>)
    requires Consistent(s) && PublishResource(s, p, order).1 == Replaced && Mirror(PublishResource(s, p, order).0)
    requires forall id :: id in s.reservations ==> id in order
    requires forall x :: InSpan(Reinstalled(s, p), p.id, x) ==> !Burdened(s, p.id, x)
    ensures NoOvercommit(PublishResource(s, p, order).0) <==>
            forall x :: InSpan(Reinstalled(s, p), p.id, x) ==> Accommodates(s, p, x)
  {
    hide PublishedEnvelope, Struct, HardSum, SoftSum, HeldSum, Burdened, PublishResource, Reinstalled, ReadmittedBy;
    var s2, t := Reinstalled(s, p), PublishResource(s, p, order).0;
    ReplacementKeepsExcess(s, p, order);
    ReinstalledShape(s, p);
    ReplacedIsFold(s, p, order);
    ReadmittedByOrder(s2, p.id, order);
    forall resource, x | InSpan(s2, resource, x)
      ensures InSpan(t, resource, x)
      ensures FitsAt(t, resource, x) <==> (resource == p.id ==> Accommodates(s, p, x))
    {
      assert MirrorAt(t, resource, x);
      if resource == p.id {
        ReadmittedHere(s, t.reservations, p.id, order, x);
        SumsVanishIff(s, p.id, x);
      } else {
        ReadmittedElsewhere(s.reservations, t.reservations, p.id, order, resource, x);
        assert InSpan(s, resource, x) && MirrorAt(s, resource, x) && FitsAt(s, resource, x);
      }
    }
    forall resource, x | InSpan(t, resource, x) ensures InSpan(s2, resource, x) {
    }
    if NoOvercommit(t) {
      forall x | InSpan(s2, p.id, x) ensures Accommodates(s, p, x) {
        assert InSpan(t, p.id, x) && FitsAt(t, p.id, x);
      }
    }
  }

  lemma ReinstalledShape(s: State, p: Publication)
    ensures var s2 := Reinstalled(s, p);
            && p.id in s2.envelopes && s2.envelopes[p.id] == PublishedEnvelope(s, p) && s2.envelopes[p.id].ratio == p.ratio
            && s2.reservations == s.reservations && s2.holds == s.holds
            && (forall resource, x :: resource != p.id ==> (InSpan(s2, resource, x) <==> InSpan(s, resource, x)))
            && forall resource :: resource != p.id && resource in s.envelopes ==> resource in s2.envelopes && s2.envelopes[resource] == s.envelopes[resource]
  {
    UnavailableShape(FreshEnvelope(p.unit, p.totalCapacity, p.ratio, p.availableFrom, s.config.horizon), p.unavailable);
  }

  lemma ReplacedIsFold(s: State, p: Publication, order: seq<nat>)
    requires PublishResource(s, p, order).1 == Replaced
    ensures PublishResource(s, p, order).0 == Fold(Reinstalled(s, p), order, (x: State, id: nat) => Readmit(x, p.id, id))
  {
    hide PublishedEnvelope, Fold, Readmit;
  }

  lemma SelfExcess(s: State)
    ensures SameExcess(s, s)
  {
    hide HardSum, SoftSum, HeldSum;
  }

  lemma MirrorIffNoExcess(s: State, t: State)
    requires SameExcess(s, t)
    ensures Mirror(t) <==> forall resource, x :: InSpan(s, resource, x) ==> Excess(s, resource, x) == (0, 0, 0)
  {
    hide HardSum, SoftSum, HeldSum;
    forall resource, x ensures InSpan(s, resource, x) <==> InSpan(t, resource, x) {
    }
    forall resource, x | InSpan(s, resource, x) ensures MirrorAt(t, resource, x) <==> Excess(s, resource, x) == (0, 0, 0) {
      assert Excess(t, resource, x) == Excess(s, resource, x);
    }
  }
}
