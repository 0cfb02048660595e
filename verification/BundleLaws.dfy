/** What a bundle does, as the sequence of states it goes through: one hold after the other, then
    one commit after the other. */
module BundleLaws {
  import opened Types
  import opened Envelopes
  import opened Registry
  import opened Fencing
  import opened Bundles
  import opened EffectLaws
  import opened AdmissionLaws
  import opened HoldLaws
  import opened LifecycleLaws

  /** The member could be committed on its own. */
  ghost predicate Admits(s: State, m: Request) {
    InOrder(m) && !Repeats(s, m)
    && exists id: nat :: Serves(s, m, id, m.quantity.value) || (m.partialAllowed && Serves(s, m, id, m.minAcceptable.value.value))
  }

  /** A provisional hold asks for just what the member asks for. */
  lemma MemberSpecLaw(m: Request, id: nat)
    ensures var spec := MemberSpec(m, id);
            && spec.id == id && spec.generation == 1 && spec.owner == m.owner && spec.ownerGeneration == m.ownerGeneration
            && spec.resourceClass == m.resourceClass && spec.unit == m.unit && spec.quantity == m.quantity && spec.window == m.window
            && spec.policyGeneration == m.policyGeneration && spec.commitAuthority && spec.provenance == []
  {
  }

  /** The next hold identity is taken and a hold for the member asked for under it. */
  ghost function HoldNext(x: State, m: Request, now: int): (State, bool) {
    AcquireHold(x.(nextHoldId := x.nextHoldId + 1), MemberSpec(m, x.nextHoldId + 1), now)
  }

  ghost predicate CommitsNext(x: State, y: State, m: Request, hold: nat) {
    Commit(x, m, Some(hold)).1.Done? && y == Commit(x, m, Some(hold)).0
  }

  /** The states before and after each of the first holds. */
  ghost predicate Holding(start: State, members: seq<Request>, now: int, xs: seq<State>) {
    && 1 <= |xs| <= |members| + 1 && xs[0] == start
    && forall i :: 0 <= i < |xs| - 1 ==> HoldNext(xs[i], members[i], now) == (xs[i + 1], true)
  }

  /** And of the first commits, against the holds from the given identity on. */
  ghost predicate Committing(start: State, members: seq<Request>, hold: nat, ys: seq<State>) {
    && 1 <= |ys| <= |members| + 1 && ys[0] == start
    && forall i :: 0 <= i < |ys| - 1 ==> CommitsNext(ys[i], ys[i + 1], members[i], hold + i)
  }

  // ---- the phases as sequences ----

  lemma {:induction false} HeldAlong(s: State, members: seq<Request>, now: int) returns (xs: seq<State>)
    ensures Holding(s, members, now, xs) && 1 <= |xs| <= |members| + 1
    ensures AcquireAll(s, members, now).1 <==> |xs| == |members| + 1
    ensures if |xs| == |members| + 1 then AcquireAll(s, members, now).0 == xs[|members|]
            else AcquireAll(s, members, now) == HoldNext(xs[|xs| - 1], members[|xs| - 1], now) && !HoldNext(xs[|xs| - 1], members[|xs| - 1], now).1
    decreases |members|
  {
    hide HoldNext, Holding;
    xs := [s];
    if members == [] {
      HoldingNone(s, members, now);
    } else {
      AcquireUnfolds(s, members, now);
      var (y, granted) := HoldNext(s, members[0], now);
      if granted {
        var rest := HeldAlong(y, members[1..], now);
        HoldingOnward(s, y, members, now, rest);
        xs := [s] + rest;
        assert |xs| <= |members| ==> members[1..][|rest| - 1] == members[|xs| - 1];
      } else {
        HoldingNone(s, members, now);
      }
    }
  }

  lemma AcquireUnfolds(s: State, members: seq<Request>, now: int)
    requires members != []
    ensures var (y, granted) := HoldNext(s, members[0], now);
            AcquireAll(s, members, now) == if granted then AcquireAll(y, members[1..], now) else (y, false)
  {
    hide AcquireHold;
  }

  lemma HoldingNone(s: State, members: seq<Request>, now: int)
    ensures Holding(s, members, now, [s])
  {
  }

  lemma HoldingOnward(s: State, y: State, members: seq<Request>, now: int, rest: seq<State>)
    requires members != [] && HoldNext(s, members[0], now) == (y, true) && Holding(y, members[1..], now, rest)
    ensures Holding(s, members, now, [s] + rest)
  {
    hide HoldNext;
    var xs := [s] + rest;
    forall i | 0 <= i < |xs| - 1 ensures HoldNext(xs[i], members[i], now) == (xs[i + 1], true) {
      if i > 0 { assert HoldNext(rest[i - 1], members[1..][i - 1], now) == (rest[i], true); }
    }
  }

  lemma {:induction false} CommittedAlong(s: State, members: seq<Request>, firstHold: nat) returns (ys: seq<State>)
    ensures Committing(s, members, firstHold + 1, ys) && 1 <= |ys| <= |members| + 1
    ensures CommitAll(s, members, firstHold) == (ys[|ys| - 1], |ys| - 1)
    ensures |ys| <= |members| ==> Commit(ys[|ys| - 1], members[|ys| - 1], Some(firstHold + |ys|)).1.Refused?
    decreases |members|
  {
    hide CommitOne, Commit, Committing;
    ys := [s];
    if members == [] {
      CommittingNone(s, members, firstHold + 1);
    } else {
      CommitIsOne(s, members[0], firstHold + 1);
      var (y, out) := CommitOne(s, members[0], Some(firstHold + 1));
      if out.Done? {
        var rest := CommittedAlong(y, members[1..], firstHold + 1);
        CommittingOnward(s, y, members, firstHold + 1, rest);
        ys := [s] + rest;
        assert |ys| <= |members| ==> members[1..][|rest| - 1] == members[|ys| - 1];
      } else {
        CommittingNone(s, members, firstHold + 1);
      }
    }
  }

  lemma CommittingNone(s: State, members: seq<Request>, hold: nat)
    ensures Committing(s, members, hold, [s])
  {
  }

  lemma CommittingOnward(s: State, y: State, members: seq<Request>, hold: nat, rest: seq<State>)
    requires members != [] && CommitsNext(s, y, members[0], hold) && Committing(y, members[1..], hold + 1, rest)
    ensures Committing(s, members, hold, [s] + rest)
  {
    hide CommitsNext;
    var ys := [s] + rest;
    forall i | 0 <= i < |ys| - 1 ensures CommitsNext(ys[i], ys[i + 1], members[i], hold + i) {
      if i > 0 { assert CommitsNext(rest[i - 1], rest[i], members[1..][i - 1], hold + 1 + (i - 1)); }
    }
  }

  /** A commit against a hold that is not there is refused either way. */
  lemma CommitIsOne(s: State, m: Request, hold: nat)
    ensures Commit(s, m, Some(hold)).1 == CommitOne(s, m, Some(hold)).1 && Commit(s, m, Some(hold)).0 == CommitOne(s, m, Some(hold)).0
    ensures CommitOne(s, m, Some(hold)).1.Refused? ==> CommitOne(s, m, Some(hold)).0 == s
  {
    hide Assess, AddCommitted, AddHeld;
  }

  lemma AllAdmitIff(s: State, members: seq<Request>)
    ensures AllAdmitted(s.(nextSetId := s.nextSetId + 1), members) <==> forall i :: 0 <= i < |members| ==> Admits(s, members[i])
  {
    hide Assess, InOrder;
    var s0 := s.(nextSetId := s.nextSetId + 1);
    forall i | 0 <= i < |members| ensures Admitted(Assess(s0, members[i])) <==> Admits(s, members[i]) {
      AdmittedIff(s0, members[i]);
      CounterIsNotAsked(s, s0, members[i]);
    }
  }

  lemma CounterIsNotAsked(s: State, s0: State, m: Request)
    requires s0 == s.(nextSetId := s0.nextSetId)
    ensures Admits(s0, m) <==> Admits(s, m)
  {
    hide InOrder;
    assert forall id: nat, q: int :: Serves(s0, m, id, q) <==> Serves(s, m, id, q);
  }

  // ---- undoing ----

  /** The holds of a range of identities end released and off their levels; only holds and levels
      change. */
  ghost predicate Released(s: State, t: State, from: nat, to: int) {
    && t == s.(envelopes := t.envelopes, holds := t.holds) && t.holds.Keys == s.holds.Keys && t.envelopes.Keys == s.envelopes.Keys
    && forall k :: k in s.holds ==>
                     t.holds[k] == if from < k <= to then s.holds[k].(state := HOLD_RELEASED, applied := false) else s.holds[k]
  }

  lemma {:induction false} ReleaseRangeLaw(s: State, from: nat, to: int)
    ensures Released(s, ReleaseRange(s, from, to), from, to)
    decreases if from < to then to - from else 0
  {
    hide ReleaseProvisional, TakenOff;
    if from < to {
      ReleasedOne(s, from + 1);
      ReleaseRangeLaw(ReleaseProvisional(s, from + 1), from + 1, to);
    }
  }

  lemma ReleasedOne(s: State, id: nat)
    ensures var t := ReleaseProvisional(s, id);
            && t == s.(envelopes := t.envelopes, holds := t.holds) && t.envelopes.Keys == s.envelopes.Keys
            && t.holds == if id in s.holds then s.holds[id := s.holds[id].(state := HOLD_RELEASED, applied := false)] else s.holds
  {
    hide ReleaseProvisional, Shifts;
    ProvisionalLaw(s, id);
    if id in s.holds && TakenOff(s, ReleaseProvisional(s, id), id, HOLD_RELEASED) {
      LevelsStay(s, ReleaseProvisional(s, id), s.holds[id]);
    }
  }

  lemma LevelsStay(s: State, t: State, h: Hold)
    requires Shifts(s.envelopes, t.envelopes, h.resource, h.spec.window, 0, 0, if h.applied then -h.spec.quantity.value else 0)
    ensures t.envelopes.Keys == s.envelopes.Keys
  {
  }

  /** The reservations of a range of identities end cancelled and unflagged; only records and levels
      change. */
  ghost predicate Cancelled(s: State, t: State, from: nat, to: nat) {
    && t == s.(envelopes := t.envelopes, reservations := t.reservations)
    && t.reservations.Keys == s.reservations.Keys && t.envelopes.Keys == s.envelopes.Keys
    && forall k :: k in s.reservations ==>
                     var r := s.reservations[k];
                     t.reservations[k] == if from < k <= to then r.(lifecycle := CANCELLED, contributes := r.contributes && r.resource !in s.envelopes) else r
  }

  lemma {:induction false} CancelRangeLaw(s: State, from: nat, to: nat)
    ensures Cancelled(s, CancelRange(s, from, to), from, to)
    decreases if from < to then to - from else 0
  {
    hide CancelMember;
    if from < to {
      CancelledOne(s, from + 1);
      CancelRangeLaw(CancelMember(s, from + 1), from + 1, to);
    }
  }

  lemma CancelledOne(s: State, id: nat)
    ensures var t := CancelMember(s, id);
            && t == s.(envelopes := t.envelopes, reservations := t.reservations) && t.envelopes.Keys == s.envelopes.Keys
            && t.reservations == if id in s.reservations then
                                   var r := s.reservations[id];
                                   s.reservations[id := r.(lifecycle := CANCELLED, contributes := r.contributes && r.resource !in s.envelopes)]
                                 else s.reservations
  {
    hide CancelMember, Raises;
    CancelMemberLaw(s, id);
    if id in s.reservations { RaiseKeeps(s, CancelMember(s, id), s.reservations[id]); }
  }

  lemma RaiseKeeps(s: State, t: State, r: Reservation)
    requires Raises(s.envelopes, t.envelopes, r, if r.contributes then -r.quantity.value else 0)
    ensures t.envelopes.Keys == s.envelopes.Keys
  {
  }

  // ---- the bundle ----

  /** The set of a bundle lists its members' reservations in order and belongs to the owner of the
      first member. */
  lemma BundleSetLaw(s: State, members: seq<Request>)
    ensures var made := BundleSet(s, members);
            && made.id == s.nextSetId + 1 && made.generation == 1 && made.groupId == 0
            && made.owner == (if |members| > 0 then members[0].owner else 0)
            && made.ownerGeneration == (if |members| > 0 then members[0].ownerGeneration else 0)
            && made.allOrNothing && made.tx == TX_COMMITTED && made.committed && !made.rolledBack && !made.persisted
            && |made.members| == |members| && forall i :: 0 <= i < |members| ==> made.members[i] == s.nextReservationId + 1 + i
  {
  }

  /** A bundle is done if and only if every member is admitted to begin with, a hold is granted for
      each in turn, and each is then committed in turn against its hold. A
      refused hold releases those before it; a refused commit cancels what was committed and releases
      the holds not yet used. */
  lemma BundleLaw(s: State, members: seq<Request>, now: int) returns (xs: seq<State>, ys: seq<State>, z: State)
    ensures var (t, out) := CommitBundle(s, members, now);
            var n, s0 := |members|, s.(nextSetId := s.nextSetId + 1);
            if !(forall i :: 0 <= i < n ==> Admits(s, members[i])) then t == s0 && out.Refused?
            else
              && 1 <= |xs| <= n + 1 && Holding(s0, members, now, xs)
              && if |xs| <= n then
                   var (x, granted) := HoldNext(xs[|xs| - 1], members[|xs| - 1], now);
                   !granted && Released(x, t, s.nextHoldId, x.nextHoldId - 1) && out.Refused?
                 else
                   && 1 <= |ys| <= n + 1 && Committing(xs[n], members, s.nextHoldId + 1, ys)
                   && if |ys| <= n then
                        && Commit(ys[|ys| - 1], members[|ys| - 1], Some(s.nextHoldId + |ys|)).1.Refused? && out.Refused?
                        && Cancelled(ys[|ys| - 1], z, s.nextReservationId, s.nextReservationId + |ys| - 1)
                        && Released(z, t, s.nextHoldId + |ys| - 1, s.nextHoldId + n)
                      else
                        && out == Done(BundleSet(s, members).members)
                        && t == ys[n].(sets := ys[n].sets[s.nextSetId + 1 := BundleSet(s, members)])
    ensures Step(s, OpBundle(members, now)) == CommitBundle(s, members, now).0
  {
    hide AllAdmitted, Admits, AcquireAll, CommitAll, ReleaseRange, CancelRange, Holding, Committing, HoldNext, Commit, Released, Cancelled, BundleSet;
    var n, s0 := |members|, s.(nextSetId := s.nextSetId + 1);
    AllAdmitIff(s, members);
    BundleSetLaw(s, members);
    xs := HeldAlong(s0, members, now);
    ys, z := [], s;
    if |xs| <= n {
      var x := HoldNext(xs[|xs| - 1], members[|xs| - 1], now).0;
      ReleaseRangeLaw(x, s.nextHoldId, x.nextHoldId - 1);
    } else {
      ys := CommittedAlong(xs[n], members, s.nextHoldId);
      z := CancelRange(ys[|ys| - 1], s.nextReservationId, s.nextReservationId + |ys| - 1);
      CancelRangeLaw(ys[|ys| - 1], s.nextReservationId, s.nextReservationId + |ys| - 1);
      ReleaseRangeLaw(z, s.nextHoldId + |ys| - 1, s.nextHoldId + n);
    }
  }

  /** The record under the identity is what the member asked for, on a resource of the kind it asked
      for. */
  predicate Placed(t: State, m: Request, id: nat) {
    && id in t.reservations && t.reservations[id].id == id && t.reservations[id].generation == 1
    && Fulfils(t, m, t.reservations[id])
    && var k := t.reservations[id].resource;
       && (m.targetResource == None || m.targetResource == Some(k))
       && (m.resourceClass == 21 || t.resources[k].resourceClass == m.resourceClass)
       && t.resources[k].unit == m.unit && t.resources[k].available
       && (m.minResourceGeneration == None || t.resources[k].generation >= m.minResourceGeneration.value)
  }

  /** Each member of a bundle that is done has its own new record, under the next identities in
      order. */
  lemma MembersArePlaced(s: State, members: seq<Request>, now: int)
    requires Struct(s) && CommitBundle(s, members, now).1.Done?
    ensures forall i :: 0 <= i < |members| ==> Placed(CommitBundle(s, members, now).0, members[i], s.nextReservationId + 1 + i)
  {
    hide CommitBundle, Struct, Carries, Placed, LastHold;
    DoneBundleAdds(s, members, now);
    var t := CommitBundle(s, members, now).0;
    forall i | 0 <= i < |members| ensures Placed(t, members[i], s.nextReservationId + 1 + i) {
      CarriedIsPlaced(t, members[i], s.nextReservationId + 1 + i);
    }
  }

  lemma CarriedIsPlaced(t: State, m: Request, id: nat)
    requires Carries(t, m, id)
    ensures Placed(t, m, id)
  {
  }
}
