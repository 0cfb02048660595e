/** What activation, consumption, release, cancellation and the two expiries do, from the fields of
    records, resources and evidence alone. */
module LifecycleLaws {
  import opened Types
  import opened Levels
  import opened Envelopes
  import opened Registry
  import opened Fencing
  import opened Persistence
  import opened EffectLaws
  import opened HoldLaws

  /** The reservation is there under the generation. */
  predicate Live(s: State, id: nat, generation: nat) {
    id in s.reservations && s.reservations[id].generation == generation
  }

  /** The evidence is from the worker the available resource belongs to, under the boot it was
      published with. */
  predicate Vouched(s: State, resource: nat, e: Evidence) {
    resource in s.resources && s.resources[resource].available
    && e.worker == s.resources[resource].owner && e.workerBoot == s.resources[resource].ownerBoot
  }

  /** The record under one identity is replaced; nothing else changes. */
  predicate Becomes(s: State, t: State, id: nat, r: Reservation) {
    t == s.(reservations := s.reservations[id := r])
  }

  // ---- activation ----

  /** The resource is gone or has moved on since the reservation was bound to it. */
  predicate Outdated(s: State, r: Reservation)
    requires r.resource in s.resources
  {
    var res := s.resources[r.resource];
    !res.available || (r.boundGeneration.Some? && r.boundGeneration.value < res.generation)
  }

  predicate Activatable(s: State, r: Reservation, e: Evidence) {
    && Vouched(s, r.resource, e) && !Outdated(s, r)
    && r.window.start <= e.at < r.window.end
    && (r.activationGeneration.Some? ==> r.activationGeneration.value <= e.generation)
    && (r.lifecycle == COMMITTED || r.lifecycle == PENDING_ACTIVATION || r.lifecycle == ACTIVATING)
  }

  /** An active reservation stays as it is. Another is activated if and only if the evidence is its
      owner's current one, within the window and not behind, the resource is as it was bound and the
      lifecycle is committed, pending or activating; if the resource has gone or moved on it must be
      revalidated; in all other cases nothing changes. */
  lemma ActivateLaw(s: State, id: nat, generation: nat, e: Evidence)
    ensures var (t, out) := Activate(s, id, generation, e);
            && (out == Activated <==> Live(s, id, generation) && (s.reservations[id].lifecycle == ACTIVE || Activatable(s, s.reservations[id], e)))
            && (out == Revalidate <==> Live(s, id, generation) && s.reservations[id].lifecycle != ACTIVE
                                       && s.reservations[id].resource in s.resources && Outdated(s, s.reservations[id]))
            && (if out == Activated && s.reservations[id].lifecycle != ACTIVE then
                  Becomes(s, t, id, s.reservations[id].(lifecycle := ACTIVE, activatedAt := Some(e.at), activationGeneration := Some(e.generation),
                  activated := s.reservations[id].quantity))
                else if out == Revalidate then Becomes(s, t, id, s.reservations[id].(lifecycle := REVALIDATION_REQUIRED))
                else t == s)
    ensures Step(s, OpActivate(id, generation, e)) == Activate(s, id, generation, e).0
  {
  }

  // ---- consumption ----

  /** The reservation is live and the amount and the evidence are in order. */
  predicate Consumable(s: State, r: Reservation, amount: Quantity, e: Evidence) {
    9 <= r.lifecycle <= 11 && amount.value > 0 && amount.unit == r.unit && Vouched(s, r.resource, e)
  }

  /** An amount is accepted if and only if the reservation is live, the amount positive, in its unit
      and no more than what is left, and the evidence its owner's and newer than the last; it is
      added, and the reservation is consumed when nothing is left. The last evidence again is a
      replay; it and whatever is refused change nothing. */
  lemma ConsumeLaw(s: State, id: nat, generation: nat, amount: Quantity, e: Evidence)
    ensures var (t, out) := Consume(s, id, generation, amount, e);
            && (out == Accepted <==>
                Live(s, id, generation) && Consumable(s, s.reservations[id], amount, e)
                && (s.reservations[id].consumptionGeneration.Some? ==> s.reservations[id].consumptionGeneration.value < e.generation)
                && s.reservations[id].consumed.value + amount.value <= s.reservations[id].quantity.value)
            && (out == Replayed <==>
                Live(s, id, generation) && Consumable(s, s.reservations[id], amount, e) && s.reservations[id].consumptionGeneration == Some(e.generation))
            && (if out == Accepted then
                  var r := s.reservations[id];
                  var total := Quantity(r.consumed.value + amount.value, r.unit);
                  Becomes(s, t, id, r.(consumed := total, consumptionGeneration := Some(e.generation),
                  lifecycle := if total == r.quantity then CONSUMED else PARTIALLY_CONSUMED))
                else t == s)
    ensures Step(s, OpConsume(id, generation, amount, e)) == Consume(s, id, generation, amount, e).0
  {
    Codes();
  }

  // ---- ending ----

  predicate HasEnded(r: Reservation) {
    15 <= r.lifecycle <= 17
  }

  /** The record ends: off its levels, unflagged, with what is to be noted; nothing else changes. */
  ghost predicate Ends(s: State, t: State, id: nat, r': Reservation)
    requires id in s.reservations
  {
    var r := s.reservations[id];
    && t == s.(envelopes := t.envelopes, reservations := s.reservations[id := r'.(contributes := r.contributes && r.resource !in s.envelopes)])
    && Raises(s.envelopes, t.envelopes, r, if r.contributes then -r.quantity.value else 0)
  }

  lemma EndLaw(s: State, id: nat, r': Reservation)
    requires id in s.reservations
    ensures var (s1, r1) := Withdraw(s, s.reservations[id]);
            Ends(s, Put(s1, id, r'.(contributes := r1.contributes)), id, r')
  {
    hide Withdraw, Raises;
    WithdrawLaw(s, s.reservations[id]);
  }

  /** A release ends a reservation that has not ended if and only if the evidence is its owner's and
      not behind the last; an ended one is acknowledged without effect. */
  lemma ReleaseLaw(s: State, id: nat, generation: nat, e: Evidence)
    ensures var (t, out) := ReleaseReservation(s, id, generation, e);
            && (out == ReleasedBefore <==> Live(s, id, generation) && HasEnded(s.reservations[id]))
            && (out == ReleasedNow <==>
                Live(s, id, generation) && !HasEnded(s.reservations[id]) && Vouched(s, s.reservations[id].resource, e)
                && (s.reservations[id].releaseGeneration.Some? ==> s.reservations[id].releaseGeneration.value <= e.generation))
            && (if out == ReleasedNow then
                  Ends(s, t, id, s.reservations[id].(lifecycle := RELEASED, releasedAt := Some(e.at), releaseGeneration := Some(e.generation)))
                else t == s)
    ensures Step(s, OpRelease(id, generation, e)) == ReleaseReservation(s, id, generation, e).0
  {
    hide Withdraw, Ends;
    Codes();
    if id in s.reservations {
      var r := s.reservations[id];
      WithdrawLaw(s, r);
      EndLaw(s, id, r.(lifecycle := RELEASED, releasedAt := Some(e.at), releaseGeneration := Some(e.generation)));
    }
  }

  /** A cancellation ends a reservation that has not ended, whatever the resource says. */
  lemma CancelLaw(s: State, id: nat, generation: nat)
    ensures var (t, out) := Cancel(s, id, generation);
            && (out.Done? <==> Live(s, id, generation))
            && (if out.Done? && !HasEnded(s.reservations[id]) then Ends(s, t, id, s.reservations[id].(lifecycle := CANCELLED)) else t == s)
    ensures Step(s, OpCancel(id, generation)) == Cancel(s, id, generation).0
  {
    hide Withdraw, Ends;
    Codes();
    if id in s.reservations {
      WithdrawLaw(s, s.reservations[id]);
      EndLaw(s, id, s.reservations[id].(lifecycle := CANCELLED));
    }
  }

  /** Rolling back a member of a bundle cancels it whether or not it had ended. */
  lemma CancelMemberLaw(s: State, id: nat)
    ensures var t := CancelMember(s, id);
            if id in s.reservations then Ends(s, t, id, s.reservations[id].(lifecycle := CANCELLED)) else t == s
  {
    hide Withdraw, Ends;
    if id in s.reservations {
      WithdrawLaw(s, s.reservations[id]);
      EndLaw(s, id, s.reservations[id].(lifecycle := CANCELLED));
    }
  }

  // ---- expiry ----

  /** The window of a reservation that holds capacity is over. */
  predicate Overdue(r: Reservation, now: int) {
    Occupies(r.lifecycle) && r.window.end < now
  }

  /** The record an expiry leaves. */
  function Lapsed(s: State, r: Reservation, now: int): Reservation {
    r.(lifecycle := EXPIRED, releasedAt := Some(now), contributes := r.contributes && r.resource !in s.envelopes)
  }

  lemma ExpireOneLaw(s: State, now: int, id: nat)
    ensures var t := ExpireOne(s, now, id);
            && t == s.(envelopes := t.envelopes, reservations := t.reservations) && t.envelopes.Keys == s.envelopes.Keys
            && t.reservations == if id in s.reservations && Overdue(s.reservations[id], now) then s.reservations[id := Lapsed(s, s.reservations[id], now)]
                                 else s.reservations
  {
    hide Withdraw, Raises, HoldsCapacity, Occupies;
    Codes();
    if id in s.reservations {
      WithdrawLaw(s, s.reservations[id]);
      WithdrawOnly(s, s.reservations[id]);
    }
  }

  /** After a walk, exactly the overdue records it met have lapsed. */
  ghost predicate LapsedAlong(s: State, t: State, now: int, order: seq<nat>) {
    && t == s.(envelopes := t.envelopes, reservations := t.reservations)
    && t.envelopes.Keys == s.envelopes.Keys && t.reservations.Keys == s.reservations.Keys
    && forall k :: k in s.reservations ==>
                     t.reservations[k] == if k in order && Overdue(s.reservations[k], now) then Lapsed(s, s.reservations[k], now) else s.reservations[k]
  }

  lemma {:induction false} ExpireAlong(s: State, now: int, order: seq<nat>)
    ensures LapsedAlong(s, ExpireDue(s, now, order), now, order)
    decreases |order|
  {
    hide ExpireOne, Occupies;
    if order != [] {
      var before, id := order[..|order| - 1], order[|order| - 1];
      ExpireAlong(s, now, before);
      var x := ExpireDue(s, now, before);
      ExpireOneLaw(x, now, id);
      EndedIsNotDue();
      assert forall k :: k in order <==> k in before || k == id;
    }
  }

  lemma EndedIsNotDue()
    ensures !Occupies(EXPIRED)
  {
  }

  /** After a full walk in any order, exactly the reservations that held capacity beyond their
      windows have expired, unflagged, and are released as of now; every other record, and
      everything but records and levels, is as before. */
  lemma ExpireDueLaw(s: State, now: int, order: seq<nat>)
    requires Struct(s) && Visits(order, s.reservations.Keys)
    ensures var t := ExpireDue(s, now, order);
            && t == s.(envelopes := t.envelopes, reservations := t.reservations) && t.reservations.Keys == s.reservations.Keys
            && forall k :: k in s.reservations ==>
                             var r := s.reservations[k];
                             t.reservations[k] == if Occupies(r.lifecycle) && r.window.end < now then
                                                    r.(lifecycle := EXPIRED, releasedAt := Some(now), contributes := false)
                                                  else r
    ensures Step(s, OpExpireDue(now, order)) == ExpireDue(s, now, order)
  {
    hide ExpireDue, Occupies;
    ExpireAlong(s, now, order);
    forall k | k in s.reservations ensures s.reservations[k].resource in s.envelopes {
      RecordIsOk(s, k);
    }
  }

  /** And each once the walk is over counts one. */
  lemma OverdueAre(s: State, now: int)
    ensures (set k | k in s.reservations && HoldsCapacity(s.reservations[k].lifecycle) && s.reservations[k].window.end < now) ==
            (set k | k in s.reservations && Occupies(s.reservations[k].lifecycle) && s.reservations[k].window.end < now)
  {
    hide Occupies, HoldsCapacity;
    Codes();
  }

  // ---- expiry of holds ----

  ghost predicate HoldsLapsedAlong(s: State, t: State, now: int, order: seq<nat>) {
    && t == s.(envelopes := t.envelopes, holds := t.holds)
    && t.envelopes.Keys == s.envelopes.Keys && t.holds.Keys == s.holds.Keys
    && forall k :: k in s.holds ==>
                     var h := s.holds[k];
                     t.holds[k] == if k in order && h.state == HOLD_ACQUIRED && h.expiry < now then h.(state := HOLD_EXPIRED, applied := false) else h
  }

  lemma ExpireHoldLaw(s: State, now: int, id: nat)
    ensures var t := ExpireHold(s, now, id);
            && t == s.(envelopes := t.envelopes, holds := t.holds) && t.envelopes.Keys == s.envelopes.Keys
            && t.holds == if id in s.holds && s.holds[id].state == HOLD_ACQUIRED && s.holds[id].expiry < now then
                            s.holds[id := s.holds[id].(state := HOLD_EXPIRED, applied := false)]
                          else s.holds
  {
    hide DropHold, Shifts;
    if id in s.holds {
      DropLaw(s, id, HOLD_EXPIRED);
      KeysStay(s, DropHold(s, id, HOLD_EXPIRED), id);
    }
  }

  lemma KeysStay(s: State, t: State, id: nat)
    requires id in s.holds && TakenOff(s, t, id, HOLD_EXPIRED)
    ensures t.envelopes.Keys == s.envelopes.Keys
  {
  }

  lemma {:induction false} ExpireHoldsAlong(s: State, now: int, order: seq<nat>)
    ensures HoldsLapsedAlong(s, ExpireHolds(s, now, order), now, order)
    decreases |order|
  {
    hide ExpireHold;
    if order != [] {
      var before, id := order[..|order| - 1], order[|order| - 1];
      ExpireHoldsAlong(s, now, before);
      ExpireHoldLaw(ExpireHolds(s, now, before), now, id);
      assert forall k :: k in order <==> k in before || k == id;
    }
  }

  /** After a full walk in any order, exactly the acquired holds past their expiry have expired and
      are off their levels; every other hold, and everything but holds and levels, is as before. */
  lemma ExpireHoldsLaw(s: State, now: int, order: seq<nat>)
    requires Visits(order, s.holds.Keys)
    ensures var t := ExpireHolds(s, now, order);
            && t == s.(envelopes := t.envelopes, holds := t.holds) && t.holds.Keys == s.holds.Keys
            && forall k :: k in s.holds ==>
                             var h := s.holds[k];
                             t.holds[k] == if h.state == HOLD_ACQUIRED && h.expiry < now then h.(state := HOLD_EXPIRED, applied := false) else h
    ensures Step(s, OpExpireHolds(now, order)) == ExpireHolds(s, now, order)
  {
    hide ExpireHolds;
    ExpireHoldsAlong(s, now, order);
  }
}
