/** What a resize, a renewal and a transfer do, from the fields of records and levels alone. */
module ChangeLaws {
  import opened Types
  import opened Levels
  import opened Envelopes
  import opened Registry
  import opened Fencing
  import opened EffectLaws
  import opened LifecycleLaws

  /** The generation after the recorded one. */
  function Following(s: State, id: nat): nat {
    if id in s.currentGen then s.currentGen[id] + 1 else 1
  }

  /** In a well-formed state that is one more than the live one. */
  lemma FollowingIsNext(s: State, id: nat)
    requires Struct(s) && id in s.reservations
    ensures Following(s, id) == s.reservations[id].generation + 1
  {
    assert GenerationsOk(s, id);
  }

  /** The record's history after it was superseded: it comes last, unflagged, and if that is one too
      many the first one goes. */
  ghost predicate Archived(s: State, id: nat, r: Reservation, h: seq<Reservation>) {
    var past := if id in s.history then s.history[id] else [];
    && (|past| < s.config.maxHistory ==> h == past + [r.(contributes := false)])
    && (|past| >= s.config.maxHistory ==> [(past + [r.(contributes := false)])[0]] + h == past + [r.(contributes := false)])
  }

  /** The new record is the live generation and the old one is history; apart from levels nothing
      else changes. */
  ghost predicate Succeeds(s: State, t: State, id: nat, r: Reservation, n: Reservation) {
    && id in t.history && Archived(s, id, r, t.history[id])
    && t == s.(envelopes := t.envelopes, history := s.history[id := t.history[id]],
               currentGen := s.currentGen[id := n.generation], reservations := s.reservations[id := n])
  }

  /** A refused change leaves the record contributing again, whether or not it did before. */
  ghost predicate PutsBack(s: State, t: State, id: nat)
    requires id in s.reservations
  {
    var r := s.reservations[id];
    && t == s.(envelopes := t.envelopes, reservations := s.reservations[id := r.(contributes := r.contributes || r.resource in s.envelopes)])
    && Raises(s.envelopes, t.envelopes, r, if r.contributes then 0 else r.quantity.value)
  }

  lemma SucceedLaw(s: State, id: nat, old_: Reservation, n: Reservation)
    ensures Succeeds(s, Supersede(s, id, old_, n), id, old_, n)
  {
  }

  lemma ArchivedIgnoresFlag(s: State, id: nat, r: Reservation, r': Reservation, h: seq<Reservation>)
    requires r' == r.(contributes := r'.contributes) && Archived(s, id, r', h)
    ensures Archived(s, id, r, h)
  {
  }

  /** Adopting a record that is flagged already adds nothing to the levels. */
  lemma AdoptLaw(s: State, id: nat, n: Reservation)
    requires id in s.reservations && n.contributes
    ensures var r := s.reservations[id];
            var (s1, r1) := Withdraw(s, r);
            var t := Adopt(s1, id, r1, n);
            Succeeds(s, t, id, r, n) && Raises(s.envelopes, t.envelopes, r, if r.contributes then -r.quantity.value else 0)
  {
    hide Withdraw, Raises, Archived, Supersede, Contribute;
    var r := s.reservations[id];
    var (s1, r1) := Withdraw(s, r);
    WithdrawLaw(s, r);
    FlaggedStays(s1, n);
    SucceedLaw(s1, id, r1, n);
    KeepsLevels(s1, id, r1, n);
    var t := Adopt(s1, id, r1, n);
    ArchivedInState(s, s1, id, r1, t.history[id]);
    ArchivedIgnoresFlag(s, id, r, r1, t.history[id]);
  }

  lemma FlaggedStays(s: State, n: Reservation)
    requires n.contributes
    ensures Contribute(s, n) == (s, n)
  {
    hide AddCommitted;
  }

  lemma ArchivedInState(s: State, s1: State, id: nat, r: Reservation, h: seq<Reservation>)
    requires s1 == s.(envelopes := s1.envelopes) && Archived(s1, id, r, h)
    ensures Archived(s, id, r, h)
  {
  }

  lemma PutBackLaw(s: State, id: nat)
    requires id in s.reservations
    ensures var (s1, r1) := Withdraw(s, s.reservations[id]); PutsBack(s, Restore(s1, id, r1), id)
  {
    hide Raises, Withdraw, Restore;
    RestoreLaw(s, id, s.reservations[id]);
  }

  // ---- resize ----

  /** The quantity is positive, in the reservation's unit, and the policy not behind. */
  predicate Resizable(r: Reservation, q: Quantity, policyGeneration: nat) {
    q.value > 0 && q.unit == r.unit && r.policyGeneration <= policyGeneration
  }

  lemma ResizeUnfolds(s: State, id: nat, generation: nat, q: Quantity, policyGeneration: nat)
    ensures var (t, out) := Resize(s, id, generation, q, policyGeneration);
            if !Live(s, id, generation) || !Resizable(s.reservations[id], q, policyGeneration) then t == s && out.Refused?
            else
              var r := s.reservations[id];
              var (s1, r1) := Withdraw(s, r);
              if q.value > Headroom(s1, r.strength == STRENGTH_HARD, r.window, r.resource) then t == Restore(s1, id, r1) && out.Refused?
              else
                && out == Done(Following(s, id))
                && t == Adopt(s1, id, r1, r1.(generation := Following(s, id), quantity := q, policyGeneration := policyGeneration, lifecycle := COMMITTED,
                consumed := Quantity(0, r.unit), activated := Quantity(0, r.unit), activationGeneration := None, contributes := true))
  {
    hide Headroom, Adopt, Restore, Withdraw;
    if id in s.reservations { WithdrawLaw(s, s.reservations[id]); }
  }

  /** A resize is accepted if and only if it is addressed to the live generation, the quantity is
      positive and in the reservation's unit, the policy is not behind, and the room besides the
      reservation's own contribution is at least the quantity. */
  lemma ResizeIff(s: State, id: nat, generation: nat, q: Quantity, policyGeneration: nat)
    ensures Resize(s, id, generation, q, policyGeneration).1.Done? <==>
            && Live(s, id, generation) && Resizable(s.reservations[id], q, policyGeneration)
            && TakesBesides(s, s.reservations[id], s.reservations[id].window, q.value)
  {
    hide Resize, Adopt, Restore, Withdraw, Headroom, TakesBesides;
    ResizeUnfolds(s, id, generation, q, policyGeneration);
    if Live(s, id, generation) { TakesBesidesIff(s, s.reservations[id], s.reservations[id].window, q.value); }
  }

  /** Accepted, it makes the quantity the one asked for under the next generation: committed anew,
      nothing activated or consumed, flagged but no longer on the levels. Refused for want of room it
      puts the old contribution back; refused before that it changes nothing. */
  lemma ResizeLaw(s: State, id: nat, generation: nat, q: Quantity, policyGeneration: nat)
    ensures var (t, out) := Resize(s, id, generation, q, policyGeneration);
            if !Live(s, id, generation) || !Resizable(s.reservations[id], q, policyGeneration) then t == s && out.Refused?
            else if out.Refused? then PutsBack(s, t, id)
            else
              var r := s.reservations[id];
              && out.value == Following(s, id)
              && Succeeds(s, t, id, r, r.(generation := Following(s, id), quantity := q, policyGeneration := policyGeneration, lifecycle := COMMITTED,
              consumed := Quantity(0, r.unit), activated := Quantity(0, r.unit), activationGeneration := None, contributes := true))
              && Raises(s.envelopes, t.envelopes, r, if r.contributes then -r.quantity.value else 0)
    ensures Step(s, OpResize(id, generation, q, policyGeneration)) == Resize(s, id, generation, q, policyGeneration).0
  {
    hide Adopt, Restore, Withdraw, Headroom, Raises, Succeeds, PutsBack, Resize;
    ResizeUnfolds(s, id, generation, q, policyGeneration);
    if Live(s, id, generation) {
      var r := s.reservations[id];
      WithdrawLaw(s, r);
      PutBackLaw(s, id);
      AdoptLaw(s, id, r.(generation := Following(s, id), quantity := q, policyGeneration := policyGeneration, lifecycle := COMMITTED,
                         consumed := Quantity(0, r.unit), activated := Quantity(0, r.unit), activationGeneration := None, contributes := true));
    }
    StepResize(s, id, generation, q, policyGeneration);
  }

  lemma StepResize(s: State, id: nat, generation: nat, q: Quantity, policyGeneration: nat)
    ensures Step(s, OpResize(id, generation, q, policyGeneration)) == Resize(s, id, generation, q, policyGeneration).0
  {
    hide Resize;
  }

  // ---- renewal ----

  lemma RenewUnfolds(s: State, id: nat, generation: nat, w: Interval, policyGeneration: nat)
    ensures var (t, out) := Renew(s, id, generation, w, policyGeneration);
            if !Live(s, id, generation) || policyGeneration < s.reservations[id].policyGeneration then t == s && out.Refused?
            else
              var r := s.reservations[id];
              var (s1, r1) := Withdraw(s, r);
              if r.quantity.value > Headroom(s1, r.strength == STRENGTH_HARD, w, r.resource) then t == Restore(s1, id, r1) && out.Refused?
              else
                && out == Done(Following(s, id))
                && t == Adopt(s1, id, r1, r1.(generation := Following(s, id), window := w, policyGeneration := policyGeneration, lifecycle := COMMITTED,
                activationGeneration := None, contributes := true))
  {
    hide Headroom, Adopt, Restore, Withdraw;
    if id in s.reservations { WithdrawLaw(s, s.reservations[id]); }
  }

  /** A renewal is accepted if and only if it is addressed to the live generation, the policy is not
      behind, and the room over the new window besides the reservation's own contribution is at
      least its quantity. */
  lemma RenewIff(s: State, id: nat, generation: nat, w: Interval, policyGeneration: nat)
    ensures Renew(s, id, generation, w, policyGeneration).1.Done? <==>
            && Live(s, id, generation) && s.reservations[id].policyGeneration <= policyGeneration
            && TakesBesides(s, s.reservations[id], w, s.reservations[id].quantity.value)
  {
    hide Renew, Adopt, Restore, Withdraw, Headroom, TakesBesides;
    RenewUnfolds(s, id, generation, w, policyGeneration);
    if Live(s, id, generation) { TakesBesidesIff(s, s.reservations[id], w, s.reservations[id].quantity.value); }
  }

  /** Accepted, it makes the window the one asked for under the next generation, with what was
      consumed kept; refused, it is as a refused resize. */
  lemma RenewLaw(s: State, id: nat, generation: nat, w: Interval, policyGeneration: nat)
    ensures var (t, out) := Renew(s, id, generation, w, policyGeneration);
            if !Live(s, id, generation) || policyGeneration < s.reservations[id].policyGeneration then t == s && out.Refused?
            else if out.Refused? then PutsBack(s, t, id)
            else
              var r := s.reservations[id];
              && out.value == Following(s, id)
              && Succeeds(s, t, id, r, r.(generation := Following(s, id), window := w, policyGeneration := policyGeneration, lifecycle := COMMITTED,
              activationGeneration := None, contributes := true))
              && Raises(s.envelopes, t.envelopes, r, if r.contributes then -r.quantity.value else 0)
    ensures Step(s, OpRenew(id, generation, w, policyGeneration)) == Renew(s, id, generation, w, policyGeneration).0
  {
    hide Adopt, Restore, Withdraw, Headroom, Raises, Succeeds, PutsBack, Renew;
    RenewUnfolds(s, id, generation, w, policyGeneration);
    if Live(s, id, generation) {
      var r := s.reservations[id];
      WithdrawLaw(s, r);
      PutBackLaw(s, id);
      AdoptLaw(s, id, r.(generation := Following(s, id), window := w, policyGeneration := policyGeneration, lifecycle := COMMITTED,
                         activationGeneration := None, contributes := true));
    }
    StepRenew(s, id, generation, w, policyGeneration);
  }

  lemma StepRenew(s: State, id: nat, generation: nat, w: Interval, policyGeneration: nat)
    ensures Step(s, OpRenew(id, generation, w, policyGeneration)) == Renew(s, id, generation, w, policyGeneration).0
  {
    hide Renew;
  }

  // ---- transfer ----

  /** A transfer is accepted if and only if it is addressed to the live generation, the reservation
      allows it, the new owner and its generation are named and the evidence is the resource
      owner's. The new owner then has the reservation, committed, under the next generation; the
      levels are untouched. A refused one changes nothing. */
  lemma TransferLaw(s: State, id: nat, generation: nat, owner: nat, ownerGeneration: nat, e: Evidence)
    ensures var (t, out) := Transfer(s, id, generation, owner, ownerGeneration, e);
            && (out.Done? <==> Live(s, id, generation) && s.reservations[id].transfer == TRANSFER_ALLOWED && owner > 0 && ownerGeneration > 0
                               && Vouched(s, s.reservations[id].resource, e))
            && if out.Refused? then t == s
               else
                 && out.value == Following(s, id) && t.envelopes == s.envelopes
                 && Succeeds(s, t, id, s.reservations[id], s.reservations[id].(generation := Following(s, id), owner := owner,
                 ownerGeneration := ownerGeneration, transferGeneration := Some(1), lifecycle := COMMITTED, activationGeneration := None))
    ensures Step(s, OpTransfer(id, generation, owner, ownerGeneration, e)) == Transfer(s, id, generation, owner, ownerGeneration, e).0
  {
    hide Supersede, Archived;
    if id in s.reservations {
      var r := s.reservations[id];
      var n := r.(generation := Following(s, id), owner := owner, ownerGeneration := ownerGeneration,
      transferGeneration := Some(1), lifecycle := COMMITTED, activationGeneration := None);
      SucceedLaw(s, id, r, n);
      KeepsLevels(s, id, r, n);
    }
  }

  lemma KeepsLevels(s: State, id: nat, old_: Reservation, n: Reservation)
    ensures Supersede(s, id, old_, n).envelopes == s.envelopes
  {
    hide Remembered;
  }
}
