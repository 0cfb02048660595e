/** The envelopes mirror the registry, and hard capacity is never overcommitted. */
module Mirrors {
  import opened Types
  import opened Levels
  import opened Envelopes
  import opened Registry
  import opened Fencing
  import opened Sums
  import Int64

  // ---- what each record weighs at an instant ----

  function Covered(w: Interval, t: int, q: int): int {
    if Contains(w, t) then q else 0
  }

  function HardWeight(r: Reservation, resource: nat, t: int): int {
    if r.contributes && r.resource == resource && r.strength == STRENGTH_HARD then Covered(r.window, t, r.quantity.value) else 0
  }

  function SoftWeight(r: Reservation, resource: nat, t: int): int {
    if r.contributes && r.resource == resource && r.strength != STRENGTH_HARD then Covered(r.window, t, r.quantity.value) else 0
  }

  function HeldWeight(h: Hold, resource: nat, t: int): int {
    if h.applied && h.resource == resource then Covered(h.spec.window, t, h.spec.quantity.value) else 0
  }

  ghost function HardWeights(m: map<nat, Reservation>, resource: nat, t: int): map<nat, int> {
    map id | id in m :: HardWeight(m[id], resource, t)
  }

  ghost function HardSum(m: map<nat, Reservation>, resource: nat, t: int): int {
    SumOf(HardWeights(m, resource, t))
  }

  ghost function SoftWeights(m: map<nat, Reservation>, resource: nat, t: int): map<nat, int> {
    map id | id in m :: SoftWeight(m[id], resource, t)
  }

  ghost function SoftSum(m: map<nat, Reservation>, resource: nat, t: int): int {
    SumOf(SoftWeights(m, resource, t))
  }

  ghost function HeldWeights(m: map<nat, Hold>, resource: nat, t: int): map<nat, int> {
    map id | id in m :: HeldWeight(m[id], resource, t)
  }

  ghost function HeldSum(m: map<nat, Hold>, resource: nat, t: int): int {
    SumOf(HeldWeights(m, resource, t))
  }

  predicate InSpan(s: State, resource: nat, t: int) {
    resource in s.envelopes && t in s.envelopes[resource].levels
  }

  function LevelOf(s: State, resource: nat, t: int): Level
    requires InSpan(s, resource, t)
  {
    s.envelopes[resource].levels[t]
  }

  ghost predicate MirrorAt(s: State, resource: nat, t: int)
    requires InSpan(s, resource, t)
  {
    var v := LevelOf(s, resource, t);
    && v.hard == HardSum(s.reservations, resource, t)
    && v.soft == SoftSum(s.reservations, resource, t)
    && v.held == HeldSum(s.holds, resource, t)
  }

  /** At every instant of every span the levels are the sums over flagged reservations and
      applied holds. */
  ghost predicate Mirror(s: State) {
    forall resource, t :: InSpan(s, resource, t) ==> MirrorAt(s, resource, t)
  }

  /** Hard commitments and holds fit the capacity; soft ones the effective capacity. */
  ghost predicate FitsAt(s: State, resource: nat, t: int)
    requires InSpan(s, resource, t)
  {
    var v := LevelOf(s, resource, t);
    v.hard + v.held <= v.cap && v.soft <= Max(0, EffOf(s.envelopes[resource].ratio)(v.cap))
  }

  ghost predicate NoOvercommit(s: State) {
    forall resource, t :: InSpan(s, resource, t) ==> FitsAt(s, resource, t)
  }

  ghost predicate Consistent(s: State) {
    Struct(s) && Mirror(s) && NoOvercommit(s)
  }

  // ---- replacing one record ----

  lemma HardSumPut(m: map<nat, Reservation>, id: nat, r: Reservation, resource: nat, t: int)
    ensures HardSum(m[id := r], resource, t) ==
            HardSum(m, resource, t) - (if id in m then HardWeight(m[id], resource, t) else 0) + HardWeight(r, resource, t)
  {
    hide HardWeight;
    var m' := m[id := r];
    SumUpdate(HardWeights(m, resource, t), id, HardWeight(r, resource, t));
    assert HardWeights(m', resource, t) == HardWeights(m, resource, t)[id := HardWeight(r, resource, t)];
  }

  lemma SoftSumPut(m: map<nat, Reservation>, id: nat, r: Reservation, resource: nat, t: int)
    ensures SoftSum(m[id := r], resource, t) ==
            SoftSum(m, resource, t) - (if id in m then SoftWeight(m[id], resource, t) else 0) + SoftWeight(r, resource, t)
  {
    hide SoftWeight;
    var m' := m[id := r];
    SumUpdate(SoftWeights(m, resource, t), id, SoftWeight(r, resource, t));
    assert SoftWeights(m', resource, t) == SoftWeights(m, resource, t)[id := SoftWeight(r, resource, t)];
  }

  lemma HeldSumPut(m: map<nat, Hold>, id: nat, r: Hold, resource: nat, t: int)
    ensures HeldSum(m[id := r], resource, t) ==
            HeldSum(m, resource, t) - (if id in m then HeldWeight(m[id], resource, t) else 0) + HeldWeight(r, resource, t)
  {
    hide HeldWeight;
    var m' := m[id := r];
    SumUpdate(HeldWeights(m, resource, t), id, HeldWeight(r, resource, t));
    assert HeldWeights(m', resource, t) == HeldWeights(m, resource, t)[id := HeldWeight(r, resource, t)];
  }

  /** Same spans, same ratios; only levels may differ. */
  ghost predicate SameSpans(s: State, t: State) {
    && t.envelopes.Keys == s.envelopes.Keys
    && forall k :: k in s.envelopes ==>
                     t.envelopes[k] == s.envelopes[k].(levels := t.envelopes[k].levels)
                     && t.envelopes[k].levels.Keys == s.envelopes[k].levels.Keys
  }

  /** The levels moved by the difference between two versions of a reservation. */
  ghost predicate MovedBy(s: State, t: State, old_: Reservation, new_: Reservation) {
    && SameSpans(s, t)
    && forall resource, x :: InSpan(s, resource, x) ==>
                               var v, u := LevelOf(s, resource, x), LevelOf(t, resource, x);
                               && u.hard == v.hard - HardWeight(old_, resource, x) + HardWeight(new_, resource, x)
                               && u.soft == v.soft - SoftWeight(old_, resource, x) + SoftWeight(new_, resource, x)
                               && u.held == v.held && u.cap == v.cap
  }

  ghost predicate MovedByHold(s: State, t: State, old_: Option<Hold>, new_: Hold) {
    && SameSpans(s, t)
    && forall resource, x :: InSpan(s, resource, x) ==>
                               var v, u := LevelOf(s, resource, x), LevelOf(t, resource, x);
                               && u.held == v.held - (if old_.Some? then HeldWeight(old_.value, resource, x) else 0) + HeldWeight(new_, resource, x)
                               && u.hard == v.hard && u.soft == v.soft && u.cap == v.cap
  }

  lemma MirrorPut(s: State, t: State, id: nat, old_: Reservation, new_: Reservation)
    requires Mirror(s) && MovedBy(s, t, old_, new_) && t.holds == s.holds
    requires t.reservations == s.reservations[id := new_]
    requires if id in s.reservations then s.reservations[id] == old_ else !old_.contributes
    ensures Mirror(t)
  {
    hide HardSum, SoftSum, HeldSum;
    forall resource, x | InSpan(t, resource, x) ensures MirrorAt(t, resource, x) {
      assert InSpan(s, resource, x);
      assert MirrorAt(s, resource, x);
      HardSumPut(s.reservations, id, new_, resource, x);
      SoftSumPut(s.reservations, id, new_, resource, x);
    }
  }

  lemma MirrorPutHold(s: State, t: State, id: nat, old_: Option<Hold>, new_: Hold)
    requires Mirror(s) && MovedByHold(s, t, old_, new_) && t.reservations == s.reservations
    requires t.holds == s.holds[id := new_]
    requires if old_.Some? then id in s.holds && s.holds[id] == old_.value else id in s.holds ==> !s.holds[id].applied
    ensures Mirror(t)
  {
    hide HardSum, SoftSum, HeldSum;
    forall resource, x | InSpan(t, resource, x) ensures MirrorAt(t, resource, x) {
      assert InSpan(s, resource, x);
      assert MirrorAt(s, resource, x);
      HeldSumPut(s.holds, id, new_, resource, x);
    }
  }

  // ---- what the primitives move ----

  lemma CommittedLevels(e: Envelope, strength: Byte, w: Interval, q: int, x: int)
    requires x in e.levels
    ensures var d := AddCommitted(e, strength, w, q);
            && d == e.(levels := d.levels) && d.levels.Keys == e.levels.Keys
            && d.levels[x] == e.levels[x].(hard := e.levels[x].hard + (if strength == STRENGTH_HARD then Covered(w, x, q) else 0),
            soft := e.levels[x].soft + (if strength == STRENGTH_HARD then 0 else Covered(w, x, q)))
  {
  }

  lemma CommittedShape(e: Envelope, strength: Byte, w: Interval, q: int)
    ensures var d := AddCommitted(e, strength, w, q); d == e.(levels := d.levels) && d.levels.Keys == e.levels.Keys
  {
  }

  lemma ContributeMoves(s: State, r: Reservation)
    ensures MovedBy(s, Contribute(s, r).0, r, Contribute(s, r).1)
  {
    hide AddCommitted, Covered;
    var (t, r1) := Contribute(s, r);
    if CanContribute(s, r) {
      CommittedShape(s.envelopes[r.resource], r.strength, r.window, r.quantity.value);
      forall resource, x | InSpan(s, resource, x)
        ensures var v, u := LevelOf(s, resource, x), LevelOf(t, resource, x);
                && u.hard == v.hard - HardWeight(r, resource, x) + HardWeight(r1, resource, x)
                && u.soft == v.soft - SoftWeight(r, resource, x) + SoftWeight(r1, resource, x)
                && u.held == v.held && u.cap == v.cap
      {
        if resource == r.resource {
          CommittedLevels(s.envelopes[resource], r.strength, r.window, r.quantity.value, x);
        }
      }
    } else {
      StillMoves(s, t, r);
    }
  }

  lemma WithdrawMoves(s: State, r: Reservation)
    ensures MovedBy(s, Withdraw(s, r).0, r, Withdraw(s, r).1)
  {
    hide AddCommitted, Covered;
    var (t, r1) := Withdraw(s, r);
    if CanWithdraw(s, r) {
      CommittedShape(s.envelopes[r.resource], r.strength, r.window, -r.quantity.value);
      forall resource, x | InSpan(s, resource, x)
        ensures var v, u := LevelOf(s, resource, x), LevelOf(t, resource, x);
                && u.hard == v.hard - HardWeight(r, resource, x) + HardWeight(r1, resource, x)
                && u.soft == v.soft - SoftWeight(r, resource, x) + SoftWeight(r1, resource, x)
                && u.held == v.held && u.cap == v.cap
      {
        if resource == r.resource {
          CommittedLevels(s.envelopes[resource], r.strength, r.window, -r.quantity.value, x);
          NegativeCover(r.window, x, r.quantity.value);
        }
      }
    } else {
      StillMoves(s, t, r);
    }
  }

  lemma NegativeCover(w: Interval, t: int, q: int)
    ensures Covered(w, t, -q) == -Covered(w, t, q)
  {
  }

  lemma MovedTwice(s: State, t: State, u: State, a: Reservation, b: Reservation, c: Reservation)
    requires MovedBy(s, t, a, b) && MovedBy(t, u, b, c)
    ensures MovedBy(s, u, a, c)
  {
    hide HardWeight, SoftWeight;
    forall resource, x | InSpan(s, resource, x) ensures InSpan(t, resource, x) && InSpan(u, resource, x) {
    }
  }

  /** Two versions of a record that weigh the same everywhere. */
  predicate SameWeight(a: Reservation, b: Reservation) {
    && a.contributes == b.contributes && a.resource == b.resource && a.strength == b.strength
    && a.window == b.window && a.quantity.value == b.quantity.value
  }

  lemma MovedSameWeight(s: State, t: State, a: Reservation, b: Reservation, c: Reservation)
    requires MovedBy(s, t, a, b) && SameWeight(b, c)
    ensures MovedBy(s, t, a, c)
  {
  }

  lemma StillMoves(s: State, t: State, a: Reservation)
    requires t.envelopes == s.envelopes
    ensures MovedBy(s, t, a, a)
  {
  }

  lemma DropMoves(s: State, id: nat, state: Byte)
    requires id in s.holds && s.holds[id].resource in s.envelopes
    ensures var t := DropHold(s, id, state);
            && MovedByHold(s, t, Some(s.holds[id]), t.holds[id]) && t.reservations == s.reservations
            && t.holds == s.holds[id := t.holds[id]] && !t.holds[id].applied
  {
  }

  // ---- levels are non-negative ----

  lemma WeightsNonNegative(s: State, resource: nat, t: int)
    requires Struct(s)
    ensures 0 <= HardSum(s.reservations, resource, t) && 0 <= SoftSum(s.reservations, resource, t) && 0 <= HeldSum(s.holds, resource, t)
  {
    forall id | id in s.reservations ensures 0 <= HardWeight(s.reservations[id], resource, t) && 0 <= SoftWeight(s.reservations[id], resource, t) {
      assert ReservationOk(s, id, s.reservations[id]);
    }
    forall id | id in s.holds ensures 0 <= HeldWeight(s.holds[id], resource, t) {
      assert HoldOk(s, id, s.holds[id]);
    }
    SumNonNegative(HardWeights(s.reservations, resource, t));
    SumNonNegative(SoftWeights(s.reservations, resource, t));
    SumNonNegative(HeldWeights(s.holds, resource, t));
  }

  lemma LevelsNonNegative(s: State, resource: nat, t: int)
    requires Struct(s) && Mirror(s) && InSpan(s, resource, t)
    ensures var v := LevelOf(s, resource, t); 0 <= v.hard && 0 <= v.soft && 0 <= v.held
  {
    assert MirrorAt(s, resource, t);
    WeightsNonNegative(s, resource, t);
  }

  // ---- steps that only take away ----

  /** Withdrawing a contribution, with any change that weighs nothing more. */
  lemma ConsistentLighter(s: State, t: State, id: nat, r: Reservation)
    requires Consistent(s) && Struct(t) && id in s.reservations && t.holds == s.holds
    requires t.reservations == s.reservations[id := r] && MovedBy(s, t, s.reservations[id], r)
    requires !r.contributes || SameWeight(s.reservations[id], r)
    ensures Consistent(t)
  {
    hide HardWeight, SoftWeight, Struct, HardSum, SoftSum, HeldSum, SameWeight;
    var old_ := s.reservations[id];
    MirrorPut(s, t, id, old_, r);
    WeightIsPositive(s, id);
    forall resource, x | InSpan(t, resource, x) ensures FitsAt(t, resource, x) {
      assert InSpan(s, resource, x);
      assert FitsAt(s, resource, x);
      LighterWeight(old_, r, resource, x);
    }
  }

  lemma WeightIsPositive(s: State, id: nat)
    requires Struct(s) && id in s.reservations
    ensures 0 < s.reservations[id].quantity.value
  {
    assert ReservationOk(s, id, s.reservations[id]);
  }

  lemma LighterWeight(a: Reservation, b: Reservation, resource: nat, t: int)
    requires 0 <= a.quantity.value && (!b.contributes || SameWeight(a, b))
    ensures HardWeight(b, resource, t) <= HardWeight(a, resource, t) && SoftWeight(b, resource, t) <= SoftWeight(a, resource, t)
  {
  }

  lemma ConsistentDrop(s: State, id: nat, state: Byte)
    requires Consistent(s) && id in s.holds && state != HOLD_ACQUIRED
    ensures Consistent(DropHold(s, id, state))
  {
    hide DropHold, HeldSum, HardSum, SoftSum;
    var t := DropHold(s, id, state);
    assert HoldOk(s, id, s.holds[id]);
    StructDrop(s, id, state);
    DropMoves(s, id, state);
    MirrorPutHold(s, t, id, Some(s.holds[id]), t.holds[id]);
    forall resource, x | InSpan(t, resource, x) ensures FitsAt(t, resource, x) {
      assert InSpan(s, resource, x);
      assert FitsAt(s, resource, x);
    }
  }

  // ---- steps that weigh nothing ----

  lemma SameWeightSame(a: Reservation, b: Reservation, resource: nat, t: int)
    requires SameWeight(a, b)
    ensures HardWeight(a, resource, t) == HardWeight(b, resource, t) && SoftWeight(a, resource, t) == SoftWeight(b, resource, t)
  {
  }

  lemma SameSums(m: map<nat, Reservation>, n: map<nat, Reservation>, resource: nat, t: int)
    requires m.Keys == n.Keys && forall k :: k in m ==> SameWeight(m[k], n[k])
    ensures HardSum(m, resource, t) == HardSum(n, resource, t) && SoftSum(m, resource, t) == SoftSum(n, resource, t)
  {
    hide SameWeight, HardWeight, SoftWeight;
    forall k | k in m ensures HardWeight(m[k], resource, t) == HardWeight(n[k], resource, t) && SoftWeight(m[k], resource, t) == SoftWeight(n[k], resource, t) {
      SameWeightSame(m[k], n[k], resource, t);
    }
    assert HardWeights(m, resource, t) == HardWeights(n, resource, t);
    assert SoftWeights(m, resource, t) == SoftWeights(n, resource, t);
  }

  /** Levels, weights and capacities are untouched. */
  lemma ConsistentRelabel(s: State, t: State)
    requires Consistent(s) && Struct(t) && t.envelopes == s.envelopes
    requires t.reservations.Keys == s.reservations.Keys && t.holds == s.holds
    requires forall k :: k in s.reservations ==> SameWeight(s.reservations[k], t.reservations[k])
    ensures Consistent(t)
  {
    hide HardSum, SoftSum, HeldSum, SameWeight, Struct;
    forall resource, x | InSpan(t, resource, x) ensures MirrorAt(t, resource, x) && FitsAt(t, resource, x) {
      assert InSpan(s, resource, x);
      assert MirrorAt(s, resource, x) && FitsAt(s, resource, x);
      SameSums(s.reservations, t.reservations, resource, x);
    }
  }

  // ---- steps that add ----

  /** Headroom bounds the slack at every instant of the window in the span. */
  lemma HeadroomBounds(s: State, hard: bool, w: Interval, resource: nat, x: int)
    requires InSpan(s, resource, x) && Contains(w, x)
    ensures hard ==> Headroom(s, hard, w, resource) <= HardSlack(LevelOf(s, resource, x))
    ensures !hard ==> Headroom(s, hard, w, resource) <= SoftSlack(LevelOf(s, resource, x), EffOf(s.envelopes[resource].ratio))
  {
    var e := s.envelopes[resource];
    assert Meets(e.levels, w.start, w.end);
    if hard {
      LeastIsLeast(e.levels, w.start, w.end, HardSlack, Int64.MAX, MinHardHeadroom(e, w));
    } else {
      LeastIsLeast(e.levels, w.start, w.end, SoftSlackBy(EffOf(e.ratio)), Int64.MAX, MinSoftHeadroom(e, w));
    }
  }

  lemma AssessFits(s: State, req: Request)
    requires Struct(s) && Assess(s, req).verdict == Admissible
    ensures var resource := Assess(s, req).resource;
            && resource in s.resources && resource in s.envelopes
            && req.quantity.value <= Headroom(s, req.strength == STRENGTH_HARD, req.window, resource)
  {
    hide ValidRequest, IsDuplicate, Headroom;
  }

  lemma CommitMoves(s: State, req: Request)
    requires Struct(s) && CommitAllowed(s, req, None)
    ensures var t := CommitOne(s, req, None).0;
            var id := s.nextReservationId + 1;
            MovedBy(s, t, NewReservation(s, req), NewReservation(s, req).(contributes := true)) && t.holds == s.holds
  {
    hide Assess, MovedBy;
    var r := NewReservation(s, req);
    var s1 := s.(nextReservationId := r.id, currentGen := s.currentGen[r.id := r.generation]);
    ContributeMoves(s1, r);
    var t := CommitOne(s, req, None).0;
    CommitShape(s, req, None);
    SameLevelsMove(s1, Contribute(s1, r).0, s, t, r, Contribute(s1, r).1);
  }

  lemma SameLevelsMove(s: State, t: State, s': State, t': State, a: Reservation, b: Reservation)
    requires MovedBy(s, t, a, b) && s'.envelopes == s.envelopes && t'.envelopes == t.envelopes
    ensures MovedBy(s', t', a, b)
  {
    hide HardWeight, SoftWeight;
    forall resource, x ensures InSpan(s, resource, x) == InSpan(s', resource, x) && InSpan(t, resource, x) == InSpan(t', resource, x) {
    }
  }

  /** Taking a hold off is what a commit against it does last. */
  lemma CommitThenDrop(s: State, req: Request, hold: nat)
    requires Struct(s) && CommitAllowed(s, req, Some(hold))
    ensures CommitAllowed(s, req, None)
    ensures CommitOne(s, req, Some(hold)).0 == DropHold(CommitOne(s, req, None).0, hold, HOLD_COMMITTED)
    ensures CommitOne(s, req, Some(hold)).1 == CommitOne(s, req, None).1
  {
    hide Assess, AddHeld, AddCommitted;
    assert HoldOk(s, hold, s.holds[hold]);
  }

  /** A fully admissible commit keeps the mirror and never overcommits. */
  lemma ConsistentCommit(s: State, req: Request, hold: Option<nat>)
    requires Consistent(s) && Assess(s, req).verdict != AdmissibleWithModification
    ensures Consistent(CommitOne(s, req, hold).0)
  {
    hide Assess, CommitOne, HardSum, SoftSum, HeldSum, DropHold;
    if CommitAllowed(s, req, hold) {
      if hold.Some? { CommitThenDrop(s, req, hold.value); }
      AdmittedFacts(s, req);
      AssessFits(s, req);
      ConsistentRecord(s, req);
      if hold.Some? {
        CommitShape(s, req, None);
        ConsistentDrop(CommitOne(s, req, None).0, hold.value, HOLD_COMMITTED);
      }
    } else {
      RefusedCommit(s, req, hold);
    }
  }

  lemma RefusedCommit(s: State, req: Request, hold: Option<nat>)
    requires !CommitAllowed(s, req, hold)
    ensures CommitOne(s, req, hold) == (s, Refused)
  {
    hide CommitAllowed;
  }

  lemma ConsistentRecord(s: State, req: Request)
    requires Consistent(s) && CommitAllowed(s, req, None)
    requires req.quantity.value <= Headroom(s, req.strength == STRENGTH_HARD, req.window, Assess(s, req).resource)
    ensures Consistent(CommitOne(s, req, None).0)
  {
    hide Assess, CommitOne, HardSum, SoftSum, HeldSum, Headroom;
    var t, r, id := CommitOne(s, req, None).0, NewReservation(s, req), s.nextReservationId + 1;
    CommitShape(s, req, None);
    StructCommit(s, req, None);
    CommitMoves(s, req);
    MirrorPut(s, t, id, r, r.(contributes := true));
    forall resource, x | InSpan(t, resource, x) ensures FitsAt(t, resource, x) {
      assert InSpan(s, resource, x);
      assert FitsAt(s, resource, x);
      LevelsNonNegative(s, resource, x);
      if resource == r.resource && Contains(r.window, x) {
        HeadroomBounds(s, req.strength == STRENGTH_HARD, req.window, resource, x);
      }
    }
  }

  /** What a granted hold is. */
  lemma GrantedHold(s: State, spec: HoldSpec, now: int)
    requires Struct(s) && AcquireHold(s, spec, now).1
    ensures var t := AcquireHold(s, spec, now).0;
            && spec.id in t.holds && t.holds[spec.id].resource in s.envelopes
            && var h := t.holds[spec.id];
               && t == Held(s.(holds := s.holds[spec.id := h]), h.resource, spec.window, spec.quantity.value)
               && h.spec == spec && h.applied && h.state == HOLD_ACQUIRED
               && 0 < spec.quantity.value <= Headroom(s, true, spec.window, h.resource)
  {
    hide Headroom, Matches, AddHeld, Struct;
    KeysAgree(s);
  }

  lemma KeysAgree(s: State)
    requires Struct(s)
    ensures s.resources.Keys == s.envelopes.Keys
  {
  }

  lemma AcquireMoves(s: State, spec: HoldSpec, now: int)
    requires Struct(s) && AcquireHold(s, spec, now).1
    ensures var t := AcquireHold(s, spec, now).0;
            && spec.id in t.holds && t.holds == s.holds[spec.id := t.holds[spec.id]] && t.reservations == s.reservations
            && MovedByHold(s, t, None, t.holds[spec.id])
            && t.holds[spec.id].spec == spec && t.holds[spec.id].applied && t.holds[spec.id].state == HOLD_ACQUIRED
            && spec.quantity.value > 0
            && spec.quantity.value <= Headroom(s, true, spec.window, t.holds[spec.id].resource)
  {
    hide Headroom, AcquireHold, Struct;
    GrantedHold(s, spec, now);
  }

  /** Acquiring under an identity with no applied hold keeps the mirror and never overcommits. */
  lemma ConsistentAcquire(s: State, spec: HoldSpec, now: int)
    requires Consistent(s) && !(spec.id in s.holds && s.holds[spec.id].applied)
    ensures Consistent(AcquireHold(s, spec, now).0)
  {
    hide AcquireHold, HardSum, SoftSum, HeldSum, Headroom;
    var (t, ok) := AcquireHold(s, spec, now);
    if ok {
      AcquireMoves(s, spec, now);
      StructAcquire(s, spec, now);
      var h := t.holds[spec.id];
      MirrorPutHold(s, t, spec.id, None, h);
      forall resource, x | InSpan(t, resource, x) ensures FitsAt(t, resource, x) {
        assert InSpan(s, resource, x);
        assert FitsAt(s, resource, x);
        if resource == h.resource && Contains(spec.window, x) {
          HeadroomBounds(s, true, spec.window, resource, x);
        }
      }
    } else {
      RefusedHold(s, spec, now);
    }
  }

  lemma RefusedHold(s: State, spec: HoldSpec, now: int)
    requires !AcquireHold(s, spec, now).1
    ensures AcquireHold(s, spec, now).0 == s
  {
    hide Headroom, Candidates;
  }
}
