/** Bundles are all-or-nothing, whichever phase or member stops them. Nothing is asked of the
    caller: hold identities may clash, members may share a request identity or be partial. */
module Bundles {
  import opened Types
  import opened Levels
  import opened Envelopes
  import opened Registry
  import opened Fencing
  import opened Mirrors
  import opened MirrorSteps

  // ---- what a range of new identities weighs ----

  /** What reservations from + 1 .. to weigh at an instant, hard and soft. */
  ghost function RangeWeight(m: map<nat, Reservation>, from: nat, to: nat, resource: nat, x: int): (int, int)
    decreases if from < to then to - from else 0
  {
    if from >= to then (0, 0)
    else
      var below := RangeWeight(m, from, to - 1, resource, x);
      if to in m then (below.0 + HardWeight(m[to], resource, x), below.1 + SoftWeight(m[to], resource, x)) else below
  }

  ghost function RangeHeld(m: map<nat, Hold>, from: nat, to: nat, resource: nat, x: int): int
    decreases if from < to then to - from else 0
  {
    if from >= to then 0
    else RangeHeld(m, from, to - 1, resource, x) + (if to in m then HeldWeight(m[to], resource, x) else 0)
  }

  lemma {:induction false} RangeWeightPut(m: map<nat, Reservation>, id: nat, r: Reservation, from: nat, to: nat, resource: nat, x: int)
    ensures var w, w' := RangeWeight(m, from, to, resource, x), RangeWeight(m[id := r], from, to, resource, x);
            var was := if id in m then (HardWeight(m[id], resource, x), SoftWeight(m[id], resource, x)) else (0, 0);
            if from < id <= to then w' == (w.0 - was.0 + HardWeight(r, resource, x), w.1 - was.1 + SoftWeight(r, resource, x)) else w' == w
    decreases if from < to then to - from else 0
  {
    hide HardWeight, SoftWeight;
    if from < to {
      RangeWeightPut(m, id, r, from, to - 1, resource, x);
    }
  }

  lemma {:induction false} RangeHeldPut(m: map<nat, Hold>, id: nat, h: Hold, from: nat, to: nat, resource: nat, x: int)
    ensures RangeHeld(m[id := h], from, to, resource, x) == RangeHeld(m, from, to, resource, x) +
            if from < id <= to then HeldWeight(h, resource, x) - (if id in m then HeldWeight(m[id], resource, x) else 0) else 0
    decreases if from < to then to - from else 0
  {
    hide HeldWeight;
    if from < to {
      RangeHeldPut(m, id, h, from, to - 1, resource, x);
    }
  }

  ghost predicate Unflagged(m: map<nat, Reservation>, from: nat, to: nat) {
    forall id :: from < id <= to && id in m ==> !m[id].contributes
  }

  ghost predicate Settled(m: map<nat, Hold>, from: nat, to: nat) {
    forall id :: from < id <= to && id in m ==> !m[id].applied
  }

  lemma {:induction false} RangeWeightZero(m: map<nat, Reservation>, from: nat, to: nat, resource: nat, x: int)
    requires Unflagged(m, from, to)
    ensures RangeWeight(m, from, to, resource, x) == (0, 0)
    decreases if from < to then to - from else 0
  {
    if from < to {
      RangeWeightZero(m, from, to - 1, resource, x);
    }
  }

  lemma {:induction false} RangeHeldZero(m: map<nat, Hold>, from: nat, to: nat, resource: nat, x: int)
    requires Settled(m, from, to)
    ensures RangeHeld(m, from, to, resource, x) == 0
    decreases if from < to then to - from else 0
  {
    if from < to {
      RangeHeldZero(m, from, to - 1, resource, x);
    }
  }

  // ---- a state laid on top of another ----

  /** The levels of `t` are those of `b` plus what new reservations up to `r1` and new holds up
      to `h1` weigh. */
  ghost predicate Raised(b: State, t: State, r1: nat, h1: nat) {
    && SameSpans(b, t)
    && forall resource, x :: InSpan(b, resource, x) ==>
                               var v, u := LevelOf(b, resource, x), LevelOf(t, resource, x);
                               var w := RangeWeight(t.reservations, b.nextReservationId, r1, resource, x);
                               && u.hard == v.hard + w.0 && u.soft == v.soft + w.1 && u.cap == v.cap
                               && u.held == v.held + RangeHeld(t.holds, b.nextHoldId, h1, resource, x)
  }

  /** Records outside the new identities are those of `b`. */
  ghost predicate Untouched(b: State, t: State, r1: nat, h1: nat) {
    && t.resources == b.resources
    && (forall id :: id in b.reservations && !(b.nextReservationId < id <= r1) ==> id in t.reservations && t.reservations[id] == b.reservations[id])
    && (forall id :: id in t.reservations && id !in b.reservations ==> b.nextReservationId < id <= r1)
    && (forall id :: id in b.holds && !(b.nextHoldId < id <= h1) ==> id in t.holds && t.holds[id] == b.holds[id])
    && (forall id :: id in t.holds && id !in b.holds ==> b.nextHoldId < id <= h1)
  }

  ghost predicate Laid(b: State, t: State, r1: nat, h1: nat) {
    Raised(b, t, r1, h1) && Untouched(b, t, r1, h1)
  }

  /** A record in the new range is created or replaced along with its weight. */
  lemma LaidPut(b: State, s: State, t: State, id: nat, old_: Reservation, r1: nat, h1: nat)
    requires Laid(b, s, r1, h1) && id in t.reservations && MovedBy(s, t, old_, t.reservations[id])
    requires t.reservations == s.reservations[id := t.reservations[id]] && t.holds == s.holds && t.resources == s.resources
    requires if id in s.reservations then s.reservations[id] == old_ else !old_.contributes
    requires b.nextReservationId < id <= r1
    ensures Laid(b, t, r1, h1)
  {
    hide RangeWeight, RangeHeld;
    forall resource, x | InSpan(b, resource, x)
      ensures var v, u := LevelOf(b, resource, x), LevelOf(t, resource, x);
              var w := RangeWeight(t.reservations, b.nextReservationId, r1, resource, x);
              && u.hard == v.hard + w.0 && u.soft == v.soft + w.1 && u.cap == v.cap
              && u.held == v.held + RangeHeld(t.holds, b.nextHoldId, h1, resource, x)
    {
      assert InSpan(s, resource, x);
      RangeWeightPut(s.reservations, id, t.reservations[id], b.nextReservationId, r1, resource, x);
    }
  }

  lemma LaidHold(b: State, s: State, t: State, id: nat, r1: nat, h1: nat)
    requires Laid(b, s, r1, h1) && id in s.holds && id in t.holds && MovedByHold(s, t, Some(s.holds[id]), t.holds[id])
    requires t.holds == s.holds[id := t.holds[id]] && t.reservations == s.reservations && t.resources == s.resources
    requires b.nextHoldId < id <= h1
    ensures Laid(b, t, r1, h1)
  {
    hide RangeWeight, RangeHeld, HeldWeight;
    forall resource, x | InSpan(b, resource, x)
      ensures var v, u := LevelOf(b, resource, x), LevelOf(t, resource, x);
              var w := RangeWeight(t.reservations, b.nextReservationId, r1, resource, x);
              && u.hard == v.hard + w.0 && u.soft == v.soft + w.1 && u.cap == v.cap
              && u.held == v.held + RangeHeld(t.holds, b.nextHoldId, h1, resource, x)
    {
      assert InSpan(s, resource, x);
      RangeHeldPut(s.holds, id, t.holds[id], b.nextHoldId, h1, resource, x);
    }
  }

  /** A hold under the next identity, whatever that identity named before. */
  lemma LaidNewHold(b: State, s: State, t: State, r1: nat, h1: nat)
    requires Laid(b, s, r1, h1) && h1 + 1 in t.holds && MovedByHold(s, t, None, t.holds[h1 + 1])
    requires t.holds == s.holds[h1 + 1 := t.holds[h1 + 1]] && t.reservations == s.reservations && t.resources == s.resources
    requires b.nextHoldId <= h1
    ensures Laid(b, t, r1, h1 + 1)
  {
    hide RangeWeight, HeldWeight;
    forall resource, x | InSpan(b, resource, x)
      ensures var v, u := LevelOf(b, resource, x), LevelOf(t, resource, x);
              var w := RangeWeight(t.reservations, b.nextReservationId, r1, resource, x);
              && u.hard == v.hard + w.0 && u.soft == v.soft + w.1 && u.cap == v.cap
              && u.held == v.held + RangeHeld(t.holds, b.nextHoldId, h1 + 1, resource, x)
    {
      assert InSpan(s, resource, x);
      RangeHeldPut(s.holds, h1 + 1, t.holds[h1 + 1], b.nextHoldId, h1, resource, x);
    }
  }

  // ---- the phases ----

  lemma AcquiredShape(s: State, spec: HoldSpec, now: int)
    requires Struct(s)
    ensures var t := AcquireHold(s, spec, now).0;
            t.nextHoldId == s.nextHoldId && t.nextReservationId == s.nextReservationId && t.resources == s.resources
            && t.reservations == s.reservations && t.sets == s.sets
  {
    hide Headroom, Candidates, AddHeld, Struct, ValidSpec;
  }

  /** Phase two lays one applied hold after the other. */
  lemma {:induction false} AcquireAllLays(b: State, s: State, members: seq<Request>, now: int, r1: nat)
    requires Struct(s) && Laid(b, s, r1, s.nextHoldId) && b.nextHoldId <= s.nextHoldId
    ensures var (t, ok) := AcquireAll(s, members, now);
            var top := if ok then t.nextHoldId else t.nextHoldId - 1;
            && s.nextHoldId <= top <= s.nextHoldId + |members| && (ok ==> top == s.nextHoldId + |members|)
            && Laid(b, t, r1, top) && t.reservations == s.reservations && t.nextReservationId == s.nextReservationId && t.sets == s.sets
    decreases |members|
  {
    hide AcquireHold, Struct, Laid, MovedByHold;
    if members != [] {
      var id := s.nextHoldId + 1;
      var s0 := s.(nextHoldId := id);
      var spec := MemberSpec(members[0], id);
      var (s1, ok) := AcquireHold(s0, spec, now);
      StructCounters(s, s0);
      LaidCounters(b, s, s0, r1, s.nextHoldId);
      AcquiredShape(s0, spec, now);
      if ok {
        AcquireMoves(s0, spec, now);
        StructAcquire(s0, spec, now);
        LaidNewHold(b, s0, s1, r1, s.nextHoldId);
        AcquireAllLays(b, s1, members[1..], now, r1);
      } else {
        RefusedHold(s0, spec, now);
      }
    }
  }

  lemma LaidCounters(b: State, s: State, t: State, r1: nat, h1: nat)
    requires Laid(b, s, r1, h1)
    requires t.envelopes == s.envelopes && t.reservations == s.reservations && t.holds == s.holds && t.resources == s.resources
    ensures Laid(b, t, r1, h1)
  {
    hide RangeWeight, RangeHeld;
    forall resource, x | InSpan(b, resource, x)
      ensures InSpan(s, resource, x) && LevelOf(t, resource, x) == LevelOf(s, resource, x)
    {
    }
  }

  lemma DropShape(s: State, id: nat, state: Byte)
    requires id in s.holds
    ensures var t := DropHold(s, id, state);
            t.resources == s.resources && t.nextReservationId == s.nextReservationId && t.sets == s.sets
  {
  }

  lemma {:induction false} ReleaseRangeLays(b: State, s: State, from: nat, to: nat, r1: nat, h1: nat)
    requires Struct(s) && Laid(b, s, r1, h1) && b.nextHoldId <= from && to <= h1 && Settled(s.holds, b.nextHoldId, from)
    ensures var t := ReleaseRange(s, from, to);
            && Laid(b, t, r1, h1) && t.reservations == s.reservations && t.sets == s.sets
            && Settled(t.holds, b.nextHoldId, if from <= to then to else from)
    decreases if from < to then to - from else 0
  {
    hide Struct, Laid, ReleaseProvisional, DropHold, MovedByHold;
    if from < to {
      var id := from + 1;
      var t := ReleaseProvisional(s, id);
      StructReleaseProvisional(s, id);
      if id in s.holds {
        HoldHasEnvelope(s, id);
        ProvisionalIsDrop(s, id);
        DropMoves(s, id, HOLD_RELEASED);
        DropShape(s, id, HOLD_RELEASED);
        LaidHold(b, s, t, id, r1, h1);
      } else {
        AbsentHold(s, id);
      }
      ReleaseRangeLays(b, t, from + 1, to, r1, h1);
    }
  }

  /** Reservation `id` carries out member `m`. */
  ghost predicate Carries(t: State, m: Request, id: nat) {
    && id in t.reservations
    && var r := t.reservations[id];
       && r.contributes && r.lifecycle == COMMITTED && r.resource in t.resources && Matches(m, r.resource, t.resources[r.resource])
       && r == ReservationOf(m, r.resource, t.resources[r.resource].generation, id, 1).(contributes := true)
  }

  lemma CommitCarries(s: State, req: Request)
    requires Struct(s) && CommitAllowed(s, req, None)
    ensures var t := CommitOne(s, req, None).0; Carries(t, req, s.nextReservationId + 1)
  {
    hide Assess, CommitOne, Matches;
    AdmittedFacts(s, req);
    NewIdIsNew(s);
    CommitShape(s, req, None);
  }

  lemma CommitKeepsSets(s: State, req: Request, hold: Option<nat>)
    ensures CommitOne(s, req, hold).0.sets == s.sets
  {
    hide Assess, AddCommitted, AddHeld, CommitAllowed;
  }

  /** One commit of phase three. */
  lemma CommitLays(b: State, s: State, req: Request, hold: nat, r1: nat, h1: nat)
    requires Struct(s) && Laid(b, s, r1, h1) && b.nextReservationId <= s.nextReservationId < r1 && b.nextHoldId < hold <= h1
    requires CommitAllowed(s, req, Some(hold))
    ensures var t := CommitOne(s, req, Some(hold)).0;
            var id := s.nextReservationId + 1;
            && Laid(b, t, r1, h1) && t.resources == s.resources && t.nextReservationId == id && Carries(t, req, id)
            && id !in s.reservations && t.reservations == s.reservations[id := t.reservations[id]]
            && hold in t.holds && t.holds == s.holds[hold := t.holds[hold]] && !t.holds[hold].applied
  {
    hide CommitOne, CommitAllowed, DropHold, Laid, MovedBy, MovedByHold, Struct, NewReservation;
    var id := s.nextReservationId + 1;
    CommitThenDrop(s, req, hold);
    var u := CommitOne(s, req, None).0;
    AllowedResource(s, req, None);
    CommitShape(s, req, None);
    CommitCarries(s, req);
    CommitMoves(s, req);
    NewUnflagged(s, req);
    LaidPut(b, s, u, id, NewReservation(s, req), r1, h1);
    StructCommit(s, req, None);
    AllowedHold(s, req, hold);
    HoldHasEnvelope(u, hold);
    DropMoves(u, hold, HOLD_COMMITTED);
    DropShape(u, hold, HOLD_COMMITTED);
    LaidHold(b, u, DropHold(u, hold, HOLD_COMMITTED), hold, r1, h1);
  }

  lemma AllowedHold(s: State, req: Request, hold: nat)
    requires CommitAllowed(s, req, Some(hold))
    ensures hold in s.holds
  {
    hide Assess;
  }

  lemma AllowedIsDone(s: State, req: Request, hold: Option<nat>)
    requires CommitAllowed(s, req, hold)
    ensures CommitOne(s, req, hold).1 == Done(s.nextReservationId + 1)
  {
    hide Assess, Contribute;
  }

  /** A record that survives a later phase still carries its member. */
  lemma CarriesOn(s: State, t: State, m: Request, id: nat)
    requires Carries(s, m, id) && t.resources == s.resources && id in t.reservations && t.reservations[id] == s.reservations[id]
    ensures Carries(t, m, id)
  {
  }

  lemma {:induction false} CommitAllLays(b: State, s: State, members: seq<Request>, firstHold: nat, r1: nat, h1: nat)
    requires Struct(s) && Laid(b, s, r1, h1) && b.nextReservationId <= s.nextReservationId && s.nextReservationId + |members| <= r1
    requires b.nextHoldId <= firstHold && firstHold + |members| <= h1 && Settled(s.holds, b.nextHoldId, firstHold)
    ensures var (t, n) := CommitAll(s, members, firstHold);
            && Laid(b, t, r1, h1) && n <= |members| && t.resources == s.resources && t.nextReservationId == s.nextReservationId + n && t.sets == s.sets
            && Settled(t.holds, b.nextHoldId, firstHold + n)
            && (forall id :: id in s.reservations ==> id in t.reservations && t.reservations[id] == s.reservations[id])
            && (forall id :: id in t.reservations && id !in s.reservations ==> s.nextReservationId < id <= s.nextReservationId + n)
            && forall i :: 0 <= i < n ==> Carries(t, members[i], s.nextReservationId + 1 + i)
    decreases |members|
  {
    hide Struct, Laid, CommitOne, CommitAllowed, Carries;
    if members != [] {
      var hold := firstHold + 1;
      var (s1, out) := CommitOne(s, members[0], Some(hold));
      CommitKeepsSets(s, members[0], Some(hold));
      if CommitAllowed(s, members[0], Some(hold)) {
        CommitLays(b, s, members[0], hold, r1, h1);
        AllowedIsDone(s, members[0], Some(hold));
        StructCommit(s, members[0], Some(hold));
        CommitAllLays(b, s1, members[1..], hold, r1, h1);
        var (t, n) := CommitAll(s1, members[1..], hold);
        CarriesOn(s1, t, members[0], s.nextReservationId + 1);
        forall i | 0 < i < n + 1 ensures Carries(t, members[i], s.nextReservationId + 1 + i) {
          assert members[i] == members[1..][i - 1];
        }
      } else {
        RefusedCommit(s, members[0], Some(hold));
      }
    }
  }

  lemma {:induction false} CancelRangeLays(b: State, s: State, from: nat, to: nat, r1: nat, h1: nat)
    requires Struct(s) && Laid(b, s, r1, h1) && b.nextReservationId <= from && to <= r1
    requires forall id :: b.nextReservationId < id <= from && id in s.reservations ==> IsUndone(s.reservations[id])
    ensures var t := CancelRange(s, from, to);
            && Laid(b, t, r1, h1) && t.holds == s.holds && t.sets == s.sets && t.reservations.Keys == s.reservations.Keys
            && forall id :: b.nextReservationId < id <= (if from <= to then to else from) && id in t.reservations ==> IsUndone(t.reservations[id])
    decreases if from < to then to - from else 0
  {
    hide Struct, Laid, CancelMember, MovedBy;
    if from < to {
      var id := from + 1;
      var t := CancelMember(s, id);
      StructCancelMember(s, id);
      if id in s.reservations {
        CancelMoves(s, id);
        LaidPut(b, s, t, id, s.reservations[id], r1, h1);
      } else {
        AbsentMember(s, id);
      }
      CancelRangeLays(b, t, from + 1, to, r1, h1);
    }
  }

  predicate IsUndone(r: Reservation) {
    !r.contributes && r.lifecycle == CANCELLED
  }

  lemma AbsentMember(s: State, id: nat)
    requires id !in s.reservations
    ensures CancelMember(s, id) == s
  {
  }

  lemma WithdrawUnflags(s: State, r: Reservation)
    requires r.resource in s.envelopes
    ensures !Withdraw(s, r).1.contributes
  {
    hide AddCommitted;
  }

  lemma CancelMoves(s: State, id: nat)
    requires Struct(s) && id in s.reservations
    ensures var t := CancelMember(s, id);
            && id in t.reservations && t.reservations == s.reservations[id := t.reservations[id]] && IsUndone(t.reservations[id])
            && MovedBy(s, t, s.reservations[id], t.reservations[id])
            && t.holds == s.holds && t.resources == s.resources && t.sets == s.sets
  {
    hide MovedBy, Withdraw, Struct;
    var r := s.reservations[id];
    ResourceHasEnvelope(s, id);
    WithdrawMoves(s, r);
    WithdrawShape(s, r);
    WithdrawUnflags(s, r);
    var (s1, r1) := Withdraw(s, r);
    MovedSameWeight(s, s1, r, r1, r1.(lifecycle := CANCELLED));
    SameLevelsMove(s, s1, s, CancelMember(s, id), r, r1.(lifecycle := CANCELLED));
  }

  // ---- the bundle ----

  lemma LaidStart(b: State, r1: nat)
    requires Struct(b)
    ensures Laid(b, b, r1, b.nextHoldId)
  {
    hide HardWeight, SoftWeight, HeldWeight;
    assert Unflagged(b.reservations, b.nextReservationId, r1) by {
      forall id | id in b.reservations ensures id <= b.nextReservationId {
        assert ReservationOk(b, id, b.reservations[id]);
      }
    }
    forall resource, x | InSpan(b, resource, x)
      ensures RangeWeight(b.reservations, b.nextReservationId, r1, resource, x) == (0, 0)
      ensures RangeHeld(b.holds, b.nextHoldId, b.nextHoldId, resource, x) == 0
    {
      RangeWeightZero(b.reservations, b.nextReservationId, r1, resource, x);
    }
  }

  /** Everything laid on top weighs nothing: the envelopes are the old ones. */
  lemma LaidFlat(b: State, t: State, r1: nat, h1: nat)
    requires Laid(b, t, r1, h1) && Unflagged(t.reservations, b.nextReservationId, r1) && Settled(t.holds, b.nextHoldId, h1)
    ensures t.envelopes == b.envelopes
  {
    hide RangeWeight, RangeHeld, Unflagged, Settled;
    forall k | k in b.envelopes ensures t.envelopes[k] == b.envelopes[k] {
      forall x | x in b.envelopes[k].levels ensures t.envelopes[k].levels[x] == b.envelopes[k].levels[x] {
        assert InSpan(b, k, x);
        RangeWeightZero(t.reservations, b.nextReservationId, r1, k, x);
        RangeHeldZero(t.holds, b.nextHoldId, h1, k, x);
        assert LevelOf(t, k, x) == LevelOf(b, k, x);
      }
      assert t.envelopes[k].levels == b.envelopes[k].levels;
    }
  }

  /** The last hold identity under which phase two is granted a hold. */
  ghost function LastHold(s: State, members: seq<Request>, now: int): nat {
    var s0 := s.(nextSetId := s.nextSetId + 1);
    if !AllAdmitted(s0, members) then s.nextHoldId
    else
      var (s1, held) := AcquireAll(s0, members, now);
      if held || s1.nextHoldId == 0 then s1.nextHoldId else s1.nextHoldId - 1
  }

  /** Only the new identities carry anything new, and nothing there weighs. */
  ghost predicate Undone(s: State, t: State, h1: nat) {
    && t.envelopes == s.envelopes && t.sets == s.sets && t.resources == s.resources
    && (forall id :: id in s.reservations ==> id in t.reservations && t.reservations[id] == s.reservations[id])
    && (forall id :: id in t.reservations && id !in s.reservations ==> IsUndone(t.reservations[id]))
    && (forall id :: id in s.holds && !(s.nextHoldId < id <= h1) ==> id in t.holds && t.holds[id] == s.holds[id])
    && (forall id :: id in t.holds && (id !in s.holds || s.nextHoldId < id <= h1) ==> !t.holds[id].applied)
  }

  lemma LaidUndone(b: State, t: State, r1: nat, h1: nat)
    requires Struct(b) && Laid(b, t, r1, h1) && Settled(t.holds, b.nextHoldId, h1) && t.sets == b.sets
    requires forall id :: b.nextReservationId < id <= r1 && id in t.reservations ==> IsUndone(t.reservations[id])
    ensures Undone(b, t, h1)
  {
    hide Raised;
    LaidFlat(b, t, r1, h1);
    forall id | id in b.reservations ensures id <= b.nextReservationId {
      assert ReservationOk(b, id, b.reservations[id]);
    }
  }

  /** A bundle that is refused, in whichever phase and at whichever member, leaves every envelope
      exactly as it was and no new reservation contributing, and touches no hold beyond those phase
      two was granted. */
  lemma RefusedBundleUndoes(s: State, members: seq<Request>, now: int)
    requires Struct(s) && CommitBundle(s, members, now).1.Refused?
    ensures Undone(s, CommitBundle(s, members, now).0, LastHold(s, members, now))
    ensures s.nextHoldId <= LastHold(s, members, now) <= s.nextHoldId + |members|
  {
    hide Struct, Laid, AcquireAll, CommitAll, ReleaseRange, CancelRange, AllAdmitted, Undone, IsUndone, Settled;
    var s0 := s.(nextSetId := s.nextSetId + 1);
    var r1 := s.nextReservationId + |members|;
    StructCounters(s, s0);
    LaidStart(s0, r1);
    var t := CommitBundle(s, members, now).0;
    if !AllAdmitted(s0, members) {
      NothingNew(s0, s0.nextReservationId, r1);
      EmptyRange(s0.holds, s0.nextHoldId);
      LaidUndone(s0, s0, r1, s0.nextHoldId);
    } else {
      var (s1, held) := AcquireAll(s0, members, now);
      AcquireAllLays(s0, s0, members, now, r1);
      StructAcquireAll(s0, members, now);
      EmptyRange(s1.holds, s.nextHoldId);
      if !held {
        ReleaseRangeLays(s0, s1, s.nextHoldId, s1.nextHoldId - 1, r1, s1.nextHoldId - 1);
        NothingNew(s0, s0.nextReservationId, r1);
        LaidUndone(s0, t, r1, s1.nextHoldId - 1);
      } else {
        StoppedBundleUndoes(s0, s1, members, r1);
      }
    }
    UndoneCounters(s, s0, t, LastHold(s, members, now));
  }

  lemma EmptyRange(m: map<nat, Hold>, k: nat)
    ensures Settled(m, k, k)
  {
  }

  lemma NothingNew(s: State, from: nat, to: nat)
    requires Struct(s) && from >= s.nextReservationId
    ensures forall id :: from < id <= to ==> id !in s.reservations
  {
    forall id | id in s.reservations ensures id <= s.nextReservationId {
      assert ReservationOk(s, id, s.reservations[id]);
    }
  }

  lemma UndoneCounters(s: State, s0: State, t: State, h1: nat)
    requires Undone(s0, t, h1) && s0 == s.(nextSetId := s0.nextSetId)
    ensures Undone(s, t, h1)
  {
  }

  /** Phase three stopped short of the last member. */
  lemma StoppedBundleUndoes(b: State, s1: State, members: seq<Request>, r1: nat)
    requires Struct(b) && Struct(s1) && r1 == b.nextReservationId + |members| && s1.reservations == b.reservations
    requires s1.nextReservationId == b.nextReservationId && s1.sets == b.sets
    requires Laid(b, s1, r1, b.nextHoldId + |members|) && CommitAll(s1, members, b.nextHoldId).1 < |members|
    ensures var (s2, n) := CommitAll(s1, members, b.nextHoldId);
            Undone(b, RollBack(s2, b.nextReservationId, b.nextHoldId, n, |members|), b.nextHoldId + |members|)
  {
    hide Struct, Laid, CommitAll, ReleaseRange, CancelRange, Undone, IsUndone, Settled;
    var h1 := b.nextHoldId + |members|;
    var (s2, n) := CommitAll(s1, members, b.nextHoldId);
    EmptyRange(s1.holds, b.nextHoldId);
    CommitAllLays(b, s1, members, b.nextHoldId, r1, h1);
    StructCommitAll(s1, members, b.nextHoldId);
    var s3 := CancelRange(s2, b.nextReservationId, b.nextReservationId + n);
    CancelRangeLays(b, s2, b.nextReservationId, b.nextReservationId + n, r1, h1);
    StructCancelRange(s2, b.nextReservationId, b.nextReservationId + n);
    ReleaseRangeLays(b, s3, b.nextHoldId + n, h1, r1, h1);
    NothingNew(b, b.nextReservationId, r1);
    LaidUndone(b, ReleaseRange(s3, b.nextHoldId + n, h1), r1, h1);
  }

  /** Each member has its own new contributing reservation, numbered in order; they are the only
      new ones; the levels rise by exactly what they weigh; holds weigh what they did. */
  ghost predicate Added(s: State, t: State, members: seq<Request>) {
    && SameSpans(s, t) && t.resources == s.resources
    && (forall id :: id in s.reservations ==> id in t.reservations && t.reservations[id] == s.reservations[id])
    && (forall i :: 0 <= i < |members| ==> Carries(t, members[i], s.nextReservationId + 1 + i))
    && (forall id :: id in t.reservations && id !in s.reservations ==> s.nextReservationId < id <= s.nextReservationId + |members|)
    && (forall id :: id in t.holds && (id !in s.holds || s.nextHoldId < id <= s.nextHoldId + |members|) ==> !t.holds[id].applied)
    && (forall id :: id in s.holds && !(s.nextHoldId < id <= s.nextHoldId + |members|) ==> id in t.holds && t.holds[id] == s.holds[id])
    && forall resource, x :: InSpan(s, resource, x) ==>
                               var v, u := LevelOf(s, resource, x), LevelOf(t, resource, x);
                               var w := RangeWeight(t.reservations, s.nextReservationId, s.nextReservationId + |members|, resource, x);
                               u == Level(v.hard + w.0, v.soft + w.1, v.held, v.cap)
  }

  lemma LaidAdded(b: State, t: State, members: seq<Request>)
    requires Laid(b, t, b.nextReservationId + |members|, b.nextHoldId + |members|)
    requires Settled(t.holds, b.nextHoldId, b.nextHoldId + |members|)
    requires forall id :: id in b.reservations ==> id in t.reservations && t.reservations[id] == b.reservations[id]
    requires forall i :: 0 <= i < |members| ==> Carries(t, members[i], b.nextReservationId + 1 + i)
    ensures Added(b, t, members)
  {
    hide RangeWeight, RangeHeld, Carries;
    forall resource, x | InSpan(b, resource, x) ensures RangeHeld(t.holds, b.nextHoldId, b.nextHoldId + |members|, resource, x) == 0 {
      RangeHeldZero(t.holds, b.nextHoldId, b.nextHoldId + |members|, resource, x);
    }
  }

  lemma AddedCounters(s: State, s0: State, t: State, t0: State, members: seq<Request>)
    requires Added(s0, t0, members) && s0 == s.(nextSetId := s0.nextSetId) && t == t0.(sets := t.sets)
    ensures Added(s, t, members)
  {
    hide RangeWeight, Matches, ReservationOf;
    forall i | 0 <= i < |members| ensures Carries(t, members[i], s.nextReservationId + 1 + i) {
      assert Carries(t0, members[i], s.nextReservationId + 1 + i);
    }
    forall resource, x | InSpan(s, resource, x)
      ensures var v, w := LevelOf(s, resource, x), RangeWeight(t.reservations, s.nextReservationId, s.nextReservationId + |members|, resource, x);
              LevelOf(t, resource, x) == Level(v.hard + w.0, v.soft + w.1, v.held, v.cap)
    {
      assert InSpan(s0, resource, x);
    }
  }

  /** A bundle that is done adds exactly one contributing reservation per member. */
  lemma DoneBundleAdds(s: State, members: seq<Request>, now: int)
    requires Struct(s) && CommitBundle(s, members, now).1.Done?
    ensures var (t, out) := CommitBundle(s, members, now);
            && Added(s, t, members)
            && |out.value| == |members| && (forall i :: 0 <= i < |members| ==> out.value[i] == s.nextReservationId + 1 + i)
            && t.sets == s.sets[s.nextSetId + 1 := BundleSet(s, members)]
            && LastHold(s, members, now) == s.nextHoldId + |members|
  {
    hide Struct, Laid, AcquireAll, CommitAll, ReleaseRange, CancelRange, AllAdmitted, Added, Settled, Carries;
    var s0 := s.(nextSetId := s.nextSetId + 1);
    var r1, h1 := s.nextReservationId + |members|, s.nextHoldId + |members|;
    StructCounters(s, s0);
    LaidStart(s0, r1);
    var (s1, held) := AcquireAll(s0, members, now);
    AcquireAllLays(s0, s0, members, now, r1);
    StructAcquireAll(s0, members, now);
    EmptyRange(s1.holds, s.nextHoldId);
    var (s2, n) := CommitAll(s1, members, s.nextHoldId);
    CommitAllLays(s0, s1, members, s.nextHoldId, r1, h1);
    LaidAdded(s0, s2, members);
    AddedCounters(s, s0, CommitBundle(s, members, now).0, s2, members);
  }
}
