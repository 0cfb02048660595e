/** Bundles never overcommit, done or refused, nor on the way; they keep the mirror exactly when
    phase two takes no identity from a hold that still weighs. */
module BundleExactness {
  import opened Types
  import opened Levels
  import opened Envelopes
  import opened Registry
  import opened Fencing
  import opened Sums
  import opened Mirrors
  import opened MirrorSteps
  import opened Bundles
  import opened Exactness

  /** No identity phase two uses, up to the last it was granted, still names a hold that weighs. */
  ghost predicate NoHoldLost(s: State, h1: nat) {
    forall id :: s.nextHoldId < id <= h1 && id in s.holds && s.holds[id].applied ==>
                   !TouchesSpan(s, s.holds[id].resource, s.holds[id].spec.window)
  }

  // ---- the mirror ----

  /** Holds outside the identities granted are as before, the others weigh nothing. */
  ghost predicate HoldsGone(m: map<nat, Hold>, n: map<nat, Hold>, from: nat, to: nat) {
    && (forall id :: id in m && !(from < id <= to) ==> id in n && n[id] == m[id])
    && (forall id :: id in n && (id !in m || from < id <= to) ==> !n[id].applied)
  }

  lemma HeldSumGone(s: State, n: map<nat, Hold>, h1: nat, resource: nat, x: int)
    requires Struct(s) && HoldsGone(s.holds, n, s.nextHoldId, h1)
    ensures HeldSum(n, resource, x) == HeldSum(s.holds, resource, x) <==>
            forall id :: s.nextHoldId < id <= h1 && id in s.holds ==> HeldWeight(s.holds[id], resource, x) == 0
  {
    hide Covered, Struct;
    var a, b := HeldWeights(s.holds, resource, x), HeldWeights(n, resource, x);
    forall id | id in s.holds
      ensures At(b, id) == (if s.nextHoldId < id <= h1 then 0 else a[id]) && 0 <= a[id]
    {
      HoldWeighs(s, id, resource, x);
    }
    SumBelow(a, b);
  }

  /** New reservations that do not contribute change no sum. */
  lemma SameSumsUnflagged(m: map<nat, Reservation>, n: map<nat, Reservation>, resource: nat, x: int)
    requires forall id :: id in m ==> id in n && n[id] == m[id]
    requires forall id :: id in n && id !in m ==> !n[id].contributes
    ensures HardSum(n, resource, x) == HardSum(m, resource, x) && SoftSum(n, resource, x) == SoftSum(m, resource, x)
  {
    hide Covered;
    SumBelow(HardWeights(m, resource, x), HardWeights(n, resource, x));
    SumBelow(SoftWeights(m, resource, x), SoftWeights(n, resource, x));
  }

  ghost function Outside(m: map<nat, Reservation>, from: nat, to: nat): map<nat, Reservation> {
    map id | id in m && !(from < id <= to) :: m[id]
  }

  /** A sum is what a range of identities weighs plus the rest. */
  lemma {:induction false} SumsOutside(m: map<nat, Reservation>, from: nat, to: nat, resource: nat, x: int)
    ensures var w, rest := RangeWeight(m, from, to, resource, x), Outside(m, from, to);
            HardSum(m, resource, x) == HardSum(rest, resource, x) + w.0 && SoftSum(m, resource, x) == SoftSum(rest, resource, x) + w.1
    decreases if from < to then to - from else 0
  {
    hide HardSum, SoftSum, HardWeight, SoftWeight;
    if from < to {
      SumsOutside(m, from, to - 1, resource, x);
      var rest := Outside(m, from, to);
      if to in m {
        HardSumPut(rest, to, m[to], resource, x);
        SoftSumPut(rest, to, m[to], resource, x);
        assert Outside(m, from, to - 1) == rest[to := m[to]];
      } else {
        assert Outside(m, from, to - 1) == rest;
      }
    } else {
      assert Outside(m, from, to) == m;
    }
  }

  /** Away from holds, the registry's sums rise as the levels do. */
  ghost predicate Tracks(s: State, t: State, h1: nat) {
    && SameSpans(s, t) && HoldsGone(s.holds, t.holds, s.nextHoldId, h1)
    && forall resource, x :: InSpan(s, resource, x) ==>
                               var v, u := LevelOf(s, resource, x), LevelOf(t, resource, x);
                               && u.hard - v.hard == HardSum(t.reservations, resource, x) - HardSum(s.reservations, resource, x)
                               && u.soft - v.soft == SoftSum(t.reservations, resource, x) - SoftSum(s.reservations, resource, x)
                               && u.held == v.held && u.cap == v.cap
  }

  lemma UndoneTracks(s: State, t: State, h1: nat)
    requires Undone(s, t, h1)
    ensures Tracks(s, t, h1)
  {
    hide HardSum, SoftSum;
    forall resource, x | InSpan(s, resource, x)
      ensures HardSum(t.reservations, resource, x) == HardSum(s.reservations, resource, x)
      ensures SoftSum(t.reservations, resource, x) == SoftSum(s.reservations, resource, x)
    {
      SameSumsUnflagged(s.reservations, t.reservations, resource, x);
    }
  }

  lemma AddedTracks(s: State, t: State, members: seq<Request>)
    requires Struct(s) && Added(s, t, members)
    ensures Tracks(s, t, s.nextHoldId + |members|)
  {
    hide HardSum, SoftSum, Struct, RangeWeight, Carries;
    var from, to := s.nextReservationId, s.nextReservationId + |members|;
    NothingNew(s, from, to);
    assert Outside(t.reservations, from, to) == s.reservations;
    forall resource, x | InSpan(s, resource, x)
      ensures var w := RangeWeight(t.reservations, from, to, resource, x);
              && HardSum(t.reservations, resource, x) == HardSum(s.reservations, resource, x) + w.0
              && SoftSum(t.reservations, resource, x) == SoftSum(s.reservations, resource, x) + w.1
    {
      SumsOutside(t.reservations, from, to, resource, x);
    }
  }

  lemma TracksMirrorIff(s: State, t: State, h1: nat)
    requires Consistent(s) && Tracks(s, t, h1)
    ensures Mirror(t) <==> NoHoldLost(s, h1)
  {
    hide HardSum, SoftSum, HeldSum, Struct, NoOvercommit;
    forall resource, x | InSpan(s, resource, x)
      ensures InSpan(t, resource, x)
      ensures MirrorAt(t, resource, x) <==> forall id :: s.nextHoldId < id <= h1 && id in s.holds ==> HeldWeight(s.holds[id], resource, x) == 0
    {
      assert MirrorAt(s, resource, x);
      HeldSumGone(s, t.holds, h1, resource, x);
    }
    forall resource, x | InSpan(t, resource, x) ensures InSpan(s, resource, x) {
    }
    if Mirror(t) {
      forall id, x | s.nextHoldId < id <= h1 && id in s.holds && s.holds[id].applied && InSpan(s, s.holds[id].resource, x)
        ensures !Contains(s.holds[id].spec.window, x)
      {
        assert MirrorAt(t, s.holds[id].resource, x) && HeldWeight(s.holds[id], s.holds[id].resource, x) == 0;
        HoldIsPositive(s, id);
      }
    }
  }

  lemma BundleMirrorIff(s: State, members: seq<Request>, now: int)
    requires Consistent(s)
    ensures Mirror(CommitBundle(s, members, now).0) <==> NoHoldLost(s, LastHold(s, members, now))
  {
    hide Struct, Mirror, NoOvercommit, CommitBundle, LastHold, Undone, Added, Tracks, NoHoldLost;
    var (t, out) := CommitBundle(s, members, now);
    if out.Done? {
      DoneBundleAdds(s, members, now);
      AddedTracks(s, t, members);
    } else {
      RefusedBundleUndoes(s, members, now);
      UndoneTracks(s, t, LastHold(s, members, now));
    }
    TracksMirrorIff(s, t, LastHold(s, members, now));
  }

  // ---- the bound ----

  /** Each member has its own applied hold, of its quantity and window. */
  ghost predicate MemberHolds(s: State, members: seq<Request>, firstHold: nat) {
    forall i :: 0 <= i < |members| ==> MemberHold(s, members[i], firstHold + 1 + i)
  }

  ghost predicate MemberHold(s: State, m: Request, hold: nat) {
    hold in s.holds && s.holds[hold].applied && s.holds[hold].spec == MemberSpec(m, hold)
  }

  lemma {:induction false} AcquireAllHolds(s: State, members: seq<Request>, now: int)
    requires Struct(s) && NoOvercommit(s)
    ensures var (t, ok) := AcquireAll(s, members, now);
            && NoOvercommit(t)
            && (ok ==> MemberHolds(t, members, s.nextHoldId))
            && forall id :: id in s.holds && id <= s.nextHoldId ==> id in t.holds && t.holds[id] == s.holds[id]
    decreases |members|
  {
    hide AcquireHold, Struct, NoOvercommit, MovedByHold;
    if members != [] {
      var id := s.nextHoldId + 1;
      var s0 := s.(nextHoldId := id);
      var spec := MemberSpec(members[0], id);
      var (s1, ok) := AcquireHold(s0, spec, now);
      StructCounters(s, s0);
      AcquiredShape(s0, spec, now);
      SameBounds(s, s0);
      if ok {
        AcquireMoves(s0, spec, now);
        StructAcquire(s0, spec, now);
        AcquiredBound(s0, spec, now);
        AcquireAllHolds(s1, members[1..], now);
        var (t, ok1) := AcquireAll(s1, members[1..], now);
        if ok1 {
          forall i | 0 <= i < |members| ensures MemberHold(t, members[i], s.nextHoldId + 1 + i) {
            if i > 0 { assert MemberHold(t, members[1..][i - 1], id + 1 + (i - 1)); }
          }
        }
      } else {
        RefusedHold(s0, spec, now);
      }
    }
  }

  lemma SameBounds(s: State, t: State)
    requires t.envelopes == s.envelopes
    ensures NoOvercommit(t) <==> NoOvercommit(s)
  {
    forall resource, x ensures InSpan(s, resource, x) <==> InSpan(t, resource, x) {
    }
    forall resource, x | InSpan(s, resource, x) ensures FitsAt(s, resource, x) <==> FitsAt(t, resource, x) {
    }
  }

  // ---- a member's own hold makes its room ----

  /** Wherever the window meets the span, nothing committed is negative and the hold is in the held
      level. */
  ghost predicate HoldCounts(s: State, resource: nat, w: Interval, q: int) {
    forall x :: InSpan(s, resource, x) && Contains(w, x) ==> 0 <= LevelOf(s, resource, x).hard && q <= LevelOf(s, resource, x).held
  }

  lemma AdmittedHeadroom(s: State, req: Request)
    requires Admitted(Assess(s, req))
    ensures 0 < Headroom(s, req.strength == STRENGTH_HARD, req.window, Assess(s, req).resource)
  {
    hide Headroom, Candidates, IsDuplicate;
  }

  /** Whatever part of it is admitted, a soft request has room for the whole of a hold that counts:
      admission leaves some slack after hard commitments and holds, and this hold is one of them. */
  lemma CountedHoldMakesRoom(s: State, m: Request, q: int)
    requires Admitted(Assess(s, m)) && m.strength != STRENGTH_HARD && HoldCounts(s, Assess(s, m).resource, m.window, q)
    ensures RoomFor(s, m.strength, Assess(s, m).resource, m.window, q)
  {
    hide Assess, Headroom, Admitted, EffOf;
    AdmittedHeadroom(s, m);
    var resource := Assess(s, m).resource;
    forall x | InSpan(s, resource, x) && Contains(m.window, x) ensures HasRoom(s, m.strength, resource, x, q) {
      HeadroomBounds(s, false, m.window, resource, x);
    }
  }

  /** In a consistent state every applied hold counts. */
  lemma AppliedHoldCounts(s: State, hold: nat)
    requires Consistent(s) && hold in s.holds && s.holds[hold].applied
    ensures HoldCounts(s, s.holds[hold].resource, s.holds[hold].spec.window, s.holds[hold].spec.quantity.value)
  {
    hide Struct, NoOvercommit, HardSum, SoftSum;
    var h := s.holds[hold];
    forall x | InSpan(s, h.resource, x) && Contains(h.spec.window, x)
      ensures 0 <= LevelOf(s, h.resource, x).hard && h.spec.quantity.value <= LevelOf(s, h.resource, x).held
    {
      assert MirrorAt(s, h.resource, x);
      LevelsNonNegative(s, h.resource, x);
      var weights := HeldWeights(s.holds, h.resource, x);
      forall id | id in s.holds ensures 0 <= weights[id] {
        HoldWeighs(s, id, h.resource, x);
      }
      SumNonNegative(weights);
      assert weights[hold] == h.spec.quantity.value;
    }
  }

  /** New holds of a range weigh at least what any one of them does. */
  lemma {:induction false} RangeHeldAtLeast(s: State, from: nat, to: nat, hold: nat, resource: nat, x: int)
    requires Struct(s)
    ensures 0 <= RangeHeld(s.holds, from, to, resource, x)
    ensures from < hold <= to && hold in s.holds ==> HeldWeight(s.holds[hold], resource, x) <= RangeHeld(s.holds, from, to, resource, x)
    decreases if from < to then to - from else 0
  {
    hide Struct, HeldWeight;
    if from < to {
      RangeHeldAtLeast(s, from, to - 1, hold, resource, x);
      if to in s.holds { HoldWeighs(s, to, resource, x); }
    }
  }

  lemma {:induction false} RangeWeightAtLeast(s: State, from: nat, to: nat, resource: nat, x: int)
    requires Struct(s)
    ensures 0 <= RangeWeight(s.reservations, from, to, resource, x).0
    decreases if from < to then to - from else 0
  {
    hide Struct;
    if from < to {
      RangeWeightAtLeast(s, from, to - 1, resource, x);
      if to in s.reservations { WeightIsPositive(s, to); }
    }
  }

  /** So does, on the way through phase three, the hold phase two took for a member. */
  lemma MemberHoldCounts(b: State, s: State, m: Request, hold: nat, r1: nat, h1: nat)
    requires Consistent(b) && Struct(s) && Laid(b, s, r1, h1) && b.nextHoldId < hold <= h1 && MemberHold(s, m, hold)
    ensures HoldCounts(s, s.holds[hold].resource, m.window, m.quantity.value)
  {
    hide Struct, NoOvercommit, Mirror, RangeHeld, RangeWeight, Untouched;
    var resource := s.holds[hold].resource;
    forall x | InSpan(s, resource, x) && Contains(m.window, x)
      ensures 0 <= LevelOf(s, resource, x).hard && m.quantity.value <= LevelOf(s, resource, x).held
    {
      assert InSpan(b, resource, x);
      LevelsNonNegative(b, resource, x);
      RangeWeightAtLeast(s, b.nextReservationId, r1, resource, x);
      RangeHeldAtLeast(s, b.nextHoldId, h1, hold, resource, x);
    }
  }

  // ---- the bound ----

  /** One commit against the member's own hold, once that hold makes its room. */
  lemma MemberBound(s: State, m: Request, hold: nat)
    requires Struct(s) && NoOvercommit(s) && CommitAllowed(s, m, Some(hold)) && MemberHold(s, m, hold)
    requires HoldCounts(s, s.holds[hold].resource, m.window, m.quantity.value)
    ensures NoOvercommit(CommitOne(s, m, Some(hold)).0)
  {
    hide Assess, CommitOne, MovedBy, MovedByHold, Struct, CommitAllowed, DropHold, RoomFor, NoOvercommit, HoldCounts;
    CommitThenDrop(s, m, hold);
    AllowedResource(s, m, None);
    NewRecordFacts(s, m);
    CommitMoves(s, m);
    var u, r := CommitOne(s, m, None).0, NewReservation(s, m);
    StructCommit(s, m, None);
    HoldHasEnvelope(u, hold);
    DropMoves(u, hold, HOLD_COMMITTED);
    HoldIsThere(s, m, hold);
    AllowedIsAdmitted(s, m, hold);
    if m.strength != STRENGTH_HARD { CountedHoldMakesRoom(s, m, m.quantity.value); }
    Swapped(s, u, DropHold(u, hold, HOLD_COMMITTED), r, hold, m);
    SwappedFits(s, DropHold(u, hold, HOLD_COMMITTED), r);
  }

  lemma AllowedIsAdmitted(s: State, req: Request, hold: nat)
    requires CommitAllowed(s, req, Some(hold))
    ensures Admitted(Assess(s, req))
  {
    hide Assess;
  }

  /** What the swap does at an instant: the load of a hard member stays, a soft one moves over. */
  ghost predicate SwappedAt(s: State, t: State, r: Reservation, resource: nat, x: int)
    requires InSpan(s, resource, x) && InSpan(t, resource, x)
  {
    var v, u := LevelOf(s, resource, x), LevelOf(t, resource, x);
    var q := if resource == r.resource && Contains(r.window, x) then r.quantity.value else 0;
    && u.cap == v.cap && t.envelopes[resource].ratio == s.envelopes[resource].ratio
    && HardLoad(u) == HardLoad(v) - (if r.strength == STRENGTH_HARD then 0 else q)
    && u.soft == v.soft + (if r.strength == STRENGTH_HARD then 0 else q)
  }

  ghost predicate SwappedFor(s: State, t: State, r: Reservation) {
    && (forall resource, x :: InSpan(s, resource, x) <==> InSpan(t, resource, x))
    && forall resource, x :: InSpan(s, resource, x) && InSpan(t, resource, x) ==> SwappedAt(s, t, r, resource, x)
  }

  lemma Swapped(s: State, u: State, t: State, r: Reservation, hold: nat, m: Request)
    requires MovedBy(s, u, r, r.(contributes := true)) && !r.contributes && MemberHold(s, m, hold)
    requires r.window == m.window && r.quantity == m.quantity
    requires u.holds == s.holds && s.holds[hold].resource == r.resource
    requires hold in t.holds && MovedByHold(u, t, Some(u.holds[hold]), t.holds[hold]) && !t.holds[hold].applied
    ensures SwappedFor(s, t, r)
  {
    hide Max, EffOf;
    forall resource, x ensures (InSpan(s, resource, x) <==> InSpan(u, resource, x)) && (InSpan(u, resource, x) <==> InSpan(t, resource, x)) {
    }
  }

  lemma SwappedFits(s: State, t: State, r: Reservation)
    requires SwappedFor(s, t, r) && NoOvercommit(s) && 0 < r.quantity.value
    requires r.strength != STRENGTH_HARD ==> RoomFor(s, r.strength, r.resource, r.window, r.quantity.value)
    ensures NoOvercommit(t)
  {
    hide Max, EffOf;
    forall resource, x | InSpan(t, resource, x) ensures FitsAt(t, resource, x) {
      assert InSpan(s, resource, x) && SwappedAt(s, t, r, resource, x);
      assert FitsAt(s, resource, x);
      if r.strength != STRENGTH_HARD && resource == r.resource && Contains(r.window, x) {
        assert HasRoom(s, r.strength, resource, x, r.quantity.value);
      }
    }
  }

  /** Phase three never overcommits, whether or not it completes. */
  lemma {:induction false} CommitAllBound(b: State, s: State, members: seq<Request>, firstHold: nat, r1: nat, h1: nat)
    requires Consistent(b) && Struct(s) && NoOvercommit(s) && Laid(b, s, r1, h1) && MemberHolds(s, members, firstHold)
    requires b.nextReservationId <= s.nextReservationId && s.nextReservationId + |members| <= r1
    requires b.nextHoldId <= firstHold && firstHold + |members| <= h1
    ensures NoOvercommit(CommitAll(s, members, firstHold).0)
    decreases |members|
  {
    hide Struct, NoOvercommit, Mirror, CommitOne, CommitAllowed, MemberHold, HoldCounts, Laid, Carries;
    if members != [] {
      var m, hold := members[0], firstHold + 1;
      var s1 := CommitOne(s, m, Some(hold)).0;
      assert MemberHold(s, members[0], firstHold + 1 + 0);
      if CommitAllowed(s, m, Some(hold)) {
        MemberHoldCounts(b, s, m, hold, r1, h1);
        MemberBound(s, m, hold);
        CommitLays(b, s, m, hold, r1, h1);
        StructCommit(s, m, Some(hold));
        LaterHolds(s, s1, members, firstHold);
        CommitAllBound(b, s1, members[1..], hold, r1, h1);
      } else {
        RefusedCommit(s, m, Some(hold));
      }
    }
  }

  lemma LaterHolds(s: State, t: State, members: seq<Request>, firstHold: nat)
    requires MemberHolds(s, members, firstHold) && members != []
    requires forall id :: id in s.holds && id != firstHold + 1 ==> id in t.holds && t.holds[id] == s.holds[id]
    ensures MemberHolds(t, members[1..], firstHold + 1)
  {
    hide MemberHold;
    forall i | 0 <= i < |members[1..]| ensures MemberHold(t, members[1..][i], firstHold + 1 + 1 + i) {
      assert MemberHold(s, members[i + 1], firstHold + 1 + (i + 1));
      MemberHoldKept(s, t, members[i + 1], firstHold + 1 + 1 + i);
    }
  }

  lemma MemberHoldKept(s: State, t: State, m: Request, hold: nat)
    requires MemberHold(s, m, hold) && (hold in s.holds ==> hold in t.holds && t.holds[hold] == s.holds[hold])
    ensures MemberHold(t, m, hold)
  {
  }

  // ---- rolling back ----

  lemma CancelMemberBound(s: State, id: nat)
    requires Struct(s) && NoOvercommit(s)
    ensures NoOvercommit(CancelMember(s, id))
  {
    hide CancelMember, Struct, HardWeight, SoftWeight;
    if id in s.reservations {
      CancelMoves(s, id);
      WeightIsPositive(s, id);
      var t := CancelMember(s, id);
      forall resource, x | InSpan(t, resource, x) ensures FitsAt(t, resource, x) {
        assert InSpan(s, resource, x) && FitsAt(s, resource, x);
        LighterWeight(s.reservations[id], t.reservations[id], resource, x);
      }
    } else {
      AbsentMember(s, id);
    }
  }

  lemma ProvisionalBound(s: State, id: nat)
    requires Struct(s) && NoOvercommit(s)
    ensures NoOvercommit(ReleaseProvisional(s, id))
  {
    hide ReleaseProvisional, DropHold, Struct;
    if id in s.holds {
      ProvisionalIsDrop(s, id);
      HoldHasEnvelope(s, id);
      DropMoves(s, id, HOLD_RELEASED);
      var t := ReleaseProvisional(s, id);
      forall resource, x | InSpan(t, resource, x) ensures FitsAt(t, resource, x) {
        assert InSpan(s, resource, x) && FitsAt(s, resource, x);
        HoldWeighs(s, id, resource, x);
      }
    } else {
      AbsentHold(s, id);
    }
  }

  lemma {:induction false} CancelRangeBound(s: State, from: nat, to: nat)
    requires Struct(s) && NoOvercommit(s)
    ensures NoOvercommit(CancelRange(s, from, to))
    decreases if from < to then to - from else 0
  {
    hide CancelMember, Struct, NoOvercommit;
    if from < to {
      CancelMemberBound(s, from + 1);
      StructCancelMember(s, from + 1);
      CancelRangeBound(CancelMember(s, from + 1), from + 1, to);
    }
  }

  lemma {:induction false} ReleaseRangeBound(s: State, from: nat, to: int)
    requires Struct(s) && NoOvercommit(s)
    ensures NoOvercommit(ReleaseRange(s, from, to))
    decreases if from < to then to - from else 0
  {
    hide ReleaseProvisional, Struct, NoOvercommit;
    if from < to {
      ProvisionalBound(s, from + 1);
      StructReleaseProvisional(s, from + 1);
      ReleaseRangeBound(ReleaseProvisional(s, from + 1), from + 1, to);
    }
  }

  // ---- the bundle ----

  /** The states a bundle goes through: after some holds of phase two or their release, after some
      commits of phase three, and after some cancellations and releases of its rollback. */
  ghost predicate GoesThrough(s: State, members: seq<Request>, now: int, x: State) {
    var s0 := s.(nextSetId := s.nextSetId + 1);
    var (s1, held) := AcquireAll(s0, members, now);
    var (s2, n) := CommitAll(s1, members, s.nextHoldId);
    || (exists k :: 0 <= k <= |members| && x == AcquireAll(s0, members[..k], now).0)
    || (exists to: int :: x == ReleaseRange(s1, s.nextHoldId, to))
    || (held && exists k :: 0 <= k <= |members| && x == CommitAll(s1, members[..k], s.nextHoldId).0)
    || (held && exists to: nat :: x == CancelRange(s2, s.nextReservationId, to))
    || (held && exists k: nat :: x == RollBack(s2, s.nextReservationId, s.nextHoldId, n, k))
  }

  lemma PrefixHolds(s: State, members: seq<Request>, firstHold: nat, k: nat)
    requires MemberHolds(s, members, firstHold) && k <= |members|
    ensures MemberHolds(s, members[..k], firstHold)
  {
    hide MemberHold;
    forall i | 0 <= i < k ensures MemberHold(s, members[..k][i], firstHold + 1 + i) {
      assert MemberHold(s, members[i], firstHold + 1 + i);
    }
  }

  /** Phase three from where phase two left off. */
  lemma PhaseThreeBound(s0: State, members: seq<Request>, now: int, k: nat)
    requires Consistent(s0) && AcquireAll(s0, members, now).1 && k <= |members|
    ensures var s1 := AcquireAll(s0, members, now).0;
            Struct(s1) && NoOvercommit(CommitAll(s1, members[..k], s0.nextHoldId).0)
  {
    hide Struct, NoOvercommit, Mirror, AcquireAll, CommitAll, Laid, MemberHolds;
    var r1 := s0.nextReservationId + |members|;
    var s1 := AcquireAll(s0, members, now).0;
    LaidStart(s0, r1);
    AcquireAllLays(s0, s0, members, now, r1);
    AcquireAllHolds(s0, members, now);
    StructAcquireAll(s0, members, now);
    PrefixHolds(s1, members, s0.nextHoldId, k);
    CommitAllBound(s0, s1, members[..k], s0.nextHoldId, r1, s0.nextHoldId + |members|);
  }

  /** A bundle overcommits nothing in any state it goes through, whatever its members, wherever it
      stops and whatever identities its holds take. */
  lemma BundleNeverOvercommits(s: State, members: seq<Request>, now: int, x: State)
    requires Consistent(s) && GoesThrough(s, members, now, x)
    ensures NoOvercommit(x)
  {
    hide Consistent, Struct, NoOvercommit, AcquireAll, CommitAll, CancelRange, ReleaseRange, RollBack;
    var s0 := s.(nextSetId := s.nextSetId + 1);
    ConsistentCounters(s, s0);
    ConsistentIsStruct(s0);
    var (s1, held) := AcquireAll(s0, members, now);
    AcquireAllHolds(s0, members, now);
    StructAcquireAll(s0, members, now);
    forall k | 0 <= k <= |members| ensures NoOvercommit(AcquireAll(s0, members[..k], now).0) {
      AcquireAllHolds(s0, members[..k], now);
    }
    forall to: int ensures NoOvercommit(ReleaseRange(s1, s.nextHoldId, to)) { ReleaseRangeBound(s1, s.nextHoldId, to); }
    if held {
      forall k | 0 <= k <= |members| ensures NoOvercommit(CommitAll(s1, members[..k], s.nextHoldId).0) {
        PhaseThreeBound(s0, members, now, k);
      }
      assert members[..|members|] == members;
      RollBackBound(s1, members, s.nextReservationId, s.nextHoldId);
    }
  }

  lemma RollBackBound(s1: State, members: seq<Request>, firstReservation: nat, firstHold: nat)
    requires Struct(s1) && NoOvercommit(CommitAll(s1, members, firstHold).0)
    ensures var (s2, n) := CommitAll(s1, members, firstHold);
            && (forall to: nat :: NoOvercommit(CancelRange(s2, firstReservation, to)))
            && forall k: nat :: NoOvercommit(RollBack(s2, firstReservation, firstHold, n, k))
  {
    hide Struct, NoOvercommit, CommitAll, CancelRange, ReleaseRange;
    var (s2, n) := CommitAll(s1, members, firstHold);
    StructCommitAll(s1, members, firstHold);
    forall to: nat ensures NoOvercommit(CancelRange(s2, firstReservation, to)) { CancelRangeBound(s2, firstReservation, to); }
    forall k: nat ensures NoOvercommit(RollBack(s2, firstReservation, firstHold, n, k)) {
      StructCancelRange(s2, firstReservation, firstReservation + n);
      CancelRangeBound(s2, firstReservation, firstReservation + n);
      ReleaseRangeBound(CancelRange(s2, firstReservation, firstReservation + n), firstHold + n, firstHold + k);
    }
  }

  /** Nor when it is over. */
  lemma BundleBound(s: State, members: seq<Request>, now: int)
    requires Consistent(s)
    ensures NoOvercommit(CommitBundle(s, members, now).0)
  {
    hide Consistent, Struct, NoOvercommit, AcquireAll, CommitAll, CancelRange, ReleaseRange, AllAdmitted, LastHold, Undone;
    var s0 := s.(nextSetId := s.nextSetId + 1);
    ConsistentIsStruct(s);
    ConsistentCounters(s, s0);
    if CommitBundle(s, members, now).1.Refused? {
      RefusedBundleUndoes(s, members, now);
      UndoneEnvelopes(s, CommitBundle(s, members, now).0, LastHold(s, members, now));
      SameBounds(s, CommitBundle(s, members, now).0);
    } else {
      assert members[..|members|] == members;
      PhaseThreeBound(s0, members, now, |members|);
      SameBounds(CommitAll(AcquireAll(s0, members, now).0, members, s.nextHoldId).0, CommitBundle(s, members, now).0);
    }
  }

  /** A bundle, whatever its members and wherever it stops, keeps the whole invariant if and only
      if it takes no identity from a hold that weighs. */
  lemma BundleKeepsIff(s: State, members: seq<Request>, now: int)
    requires Consistent(s)
    ensures Consistent(CommitBundle(s, members, now).0) <==> NoHoldLost(s, LastHold(s, members, now))
  {
    hide Struct, Mirror, NoOvercommit, CommitBundle, LastHold, NoHoldLost;
    StructBundleStep(s, members, now);
    BundleMirrorIff(s, members, now);
    BundleBound(s, members, now);
  }

  lemma UndoneEnvelopes(s: State, t: State, h1: nat)
    requires Undone(s, t, h1)
    ensures t.envelopes == s.envelopes
  {
  }

  lemma StructBundleStep(s: State, members: seq<Request>, now: int)
    requires Struct(s)
    ensures Struct(CommitBundle(s, members, now).0)
  {
    hide Struct, CommitBundle;
    StructStep(s, OpBundle(members, now));
  }
}
