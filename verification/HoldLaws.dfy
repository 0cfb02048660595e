/** What the hold operations and bundles do, from the fields of specifications, resources and
    levels alone. */
module HoldLaws {
  import opened Types
  import opened Levels
  import opened Envelopes
  import opened Registry
  import opened Fencing
  import opened EffectLaws
  import opened AdmissionLaws

  // ---- acquiring ----

  /** The resource is of the kind the specification names, or of any kind if it names none, and has
      hard room for the quantity. */
  ghost predicate Lends(s: State, spec: HoldSpec, id: nat, q: int) {
    && id in s.resources
    && var res := s.resources[id];
       && (spec.resourceClass == 21 || res.resourceClass == spec.resourceClass)
       && res.unit == spec.unit && res.available
       && Takes(s, id, true, spec.window, q)
  }

  /** It can lend the quantity, and whatever another can lend, this one can too, and one more if
      the other has a smaller identity. */
  ghost predicate LendsBest(s: State, spec: HoldSpec, id: nat) {
    && Lends(s, spec, id, spec.quantity.value)
    && forall other: nat, q: int :: other != id && Lends(s, spec, other, q) ==> Lends(s, spec, id, if other < id then q + 1 else q)
  }

  predicate SpecInOrder(spec: HoldSpec) {
    && spec.id > 0 && spec.generation > 0 && spec.quantity.value >= 1
    && spec.quantity.unit == spec.unit == UnitFor(spec.resourceClass)
  }

  lemma LendsIff(s: State, spec: HoldSpec, id: nat, q: int)
    ensures Lends(s, spec, id, q) <==> id in Candidates(s, Probe(spec)) && q <= Headroom(s, true, spec.window, id)
  {
    hide Takes, Headroom;
    TakesIff(s, id, true, spec.window, q);
  }

  lemma AcquireCases(s: State, spec: HoldSpec, now: int)
    ensures var ids, best := Candidates(s, Probe(spec)), if Candidates(s, Probe(spec)) == {} then 0 else Best(s, true, spec.window, Candidates(s, Probe(spec)));
            && (ids != {} ==> IsBest(s, true, spec.window, ids, best))
            && AcquireHold(s, spec, now) ==
               if SpecInOrder(spec) && |s.holds| < s.config.maxHolds && ids != {} && spec.quantity.value <= Headroom(s, true, spec.window, best) then
                 (Held(s.(holds := s.holds[spec.id := Hold(spec, HOLD_ACQUIRED, best, true, now + HOLD_LEASE, false)]), best, spec.window, spec.quantity.value), true)
               else (s, false)
  {
    hide Candidates, Headroom, Better, UnitFor, Probe, AddHeld;
  }

  /** A hold is granted if and only if its specification is in order, there is a place for it and
      some resource can lend its quantity. */
  lemma GrantedIff(s: State, spec: HoldSpec, now: int)
    ensures AcquireHold(s, spec, now).1 <==>
            SpecInOrder(spec) && |s.holds| < s.config.maxHolds && exists id: nat :: Lends(s, spec, id, spec.quantity.value)
  {
    hide AcquireHold, Lends, SpecInOrder, Candidates, Headroom, Probe;
    AcquireCases(s, spec, now);
    forall id: nat ensures Lends(s, spec, id, spec.quantity.value) <==> id in Candidates(s, Probe(spec)) && spec.quantity.value <= Headroom(s, true, spec.window, id) {
      LendsIff(s, spec, id, spec.quantity.value);
    }
  }

  /** A granted hold is acquired on the resource that can lend most, for fifteen minutes, and its
      quantity is held there over its window; nothing else changes. A refused one changes nothing. */
  lemma AcquireLaw(s: State, spec: HoldSpec, now: int)
    ensures var (t, granted) := AcquireHold(s, spec, now);
            if !granted then t == s
            else
              && spec.id in t.holds
              && var h := t.holds[spec.id];
                 && h.spec == spec && h.state == HOLD_ACQUIRED && h.applied && !h.persisted && h.expiry == now + 900_000_000_000
                 && LendsBest(s, spec, h.resource)
                 && t == s.(envelopes := t.envelopes, holds := s.holds[spec.id := h])
                 && Shifts(s.envelopes, t.envelopes, h.resource, spec.window, 0, 0, spec.quantity.value)
    ensures Step(s, OpCreateHold(spec, now)) == AcquireHold(s, spec, now).0
  {
    hide AcquireHold, Lends, SpecInOrder, Candidates, Headroom, Probe, Held, Shifts;
    AcquireCases(s, spec, now);
    if AcquireHold(s, spec, now).1 {
      var best := Best(s, true, spec.window, Candidates(s, Probe(spec)));
      var s1 := s.(holds := s.holds[spec.id := Hold(spec, HOLD_ACQUIRED, best, true, now + HOLD_LEASE, false)]);
      HeldLaw(s1, best, spec.window, spec.quantity.value);
      forall id: nat, q: int ensures Lends(s, spec, id, q) <==> id in Candidates(s, Probe(spec)) && q <= Headroom(s, true, spec.window, id) {
        LendsIff(s, spec, id, q);
      }
    }
  }

  // ---- giving back ----

  /** The hold comes off its levels if it was on them and ends in the given state; nothing else
      changes. */
  ghost predicate TakenOff(s: State, t: State, id: nat, state: Byte)
    requires id in s.holds
  {
    var h := s.holds[id];
    && t == s.(envelopes := t.envelopes, holds := s.holds[id := h.(applied := false, state := state)])
    && Shifts(s.envelopes, t.envelopes, h.resource, h.spec.window, 0, 0, if h.applied then -h.spec.quantity.value else 0)
  }

  lemma DropLaw(s: State, id: nat, state: Byte)
    requires id in s.holds
    ensures TakenOff(s, DropHold(s, id, state), id, state)
  {
    hide Held, Shifts;
    var h := s.holds[id];
    if h.applied { HeldLaw(s, h.resource, h.spec.window, -h.spec.quantity.value); } else { NoShift(s.envelopes, h.resource, h.spec.window); }
  }

  /** A release under the hold's own generation takes it off, once; under another it is refused. A
      committed hold, being off already, only changes its state. */
  lemma ReleaseHoldLaw(s: State, id: nat, generation: nat)
    ensures var (t, out) := ReleaseHold(s, id, generation);
            && (out.Done? <==> id in s.holds && s.holds[id].spec.generation == generation)
            && if out.Done? && s.holds[id].state != HOLD_RELEASED && s.holds[id].state != HOLD_EXPIRED then TakenOff(s, t, id, HOLD_RELEASED) else t == s
    ensures Step(s, OpReleaseHold(id, generation)) == ReleaseHold(s, id, generation).0
  {
    hide DropHold, TakenOff;
    if id in s.holds { DropLaw(s, id, HOLD_RELEASED); }
  }

  /** A rollback leaves a provisional hold released, whatever state it was in, and takes it off its
      levels only if it had not ended. */
  lemma ProvisionalLaw(s: State, id: nat)
    ensures var t := ReleaseProvisional(s, id);
            if id !in s.holds then t == s
            else if s.holds[id].state == HOLD_RELEASED || s.holds[id].state == HOLD_EXPIRED || s.holds[id].state == HOLD_COMMITTED then
              t == s.(holds := s.holds[id := s.holds[id].(applied := false, state := HOLD_RELEASED)])
            else TakenOff(s, t, id, HOLD_RELEASED)
  {
    hide DropHold, TakenOff;
    if id in s.holds { DropLaw(s, id, HOLD_RELEASED); }
  }
}
