/** What an assessment, a hold and a commit do, from the fields of requests, resources and levels
    alone. */
module AdmissionLaws {
  import opened Types
  import opened Levels
  import opened Envelopes
  import opened Registry
  import opened Fencing
  import opened EffectLaws
  import Int64

  // ---- assessment ----

  /** A request that passes validation. */
  predicate InOrder(req: Request) {
    && req.id > 0 && req.generation > 0 && req.owner > 0 && req.ownerGeneration > 0
    && req.resourceClass != 21 && req.strength != 5
    && req.unit != 0 && req.unit == UnitFor(req.resourceClass)
    && req.quantity.value >= 1 && !(req.quantity.unit == 6 && req.quantity.value > 100)
    && req.durationAfterActivation != Some(0)
    && (if !req.partialAllowed then true
        else match req.minAcceptable
             case None => false
             case Some(least) => least.unit == req.unit && 1 <= least.value <= req.quantity.value)
  }

  /** The reservation recorded for the request's identity still holds capacity. */
  predicate Repeats(s: State, req: Request) {
    req.id in s.requests && s.requests[req.id] in s.reservations && Occupies(s.reservations[s.requests[req.id]].lifecycle)
  }

  /** The resource is one the request asks for: the one it names, if it names one, of its class, if
      it has one, counted in its unit, available, and of at least the generation it asks for. */
  predicate AskedFor(req: Request, id: nat, res: Resource) {
    && (req.targetResource == None || req.targetResource == Some(id))
    && (req.resourceClass == 21 || res.resourceClass == req.resourceClass) && res.unit == req.unit && res.available
    && (req.minResourceGeneration == None || res.generation >= req.minResourceGeneration.value)
  }

  /** And it has room for the quantity. */
  ghost predicate Serves(s: State, req: Request, id: nat, q: int) {
    id in s.resources && AskedFor(req, id, s.resources[id]) && Takes(s, id, req.strength == STRENGTH_HARD, req.window, q)
  }

  /** The least quantity the request settles for. */
  function Acceptable(req: Request): int {
    if req.partialAllowed && req.minAcceptable.Some? then Min(req.minAcceptable.value.value, req.quantity.value) else req.quantity.value
  }

  /** It serves the request, and whatever another serves it with, this one can too, and one more
      if the other has a smaller identity. */
  ghost predicate ServesBest(s: State, req: Request, id: nat) {
    && Serves(s, req, id, Acceptable(req))
    && forall other: nat, q: int :: other != id && Serves(s, req, other, q) ==> Serves(s, req, id, if other < id then q + 1 else q)
  }

  lemma MatchesIff(req: Request, id: nat, res: Resource)
    ensures Matches(req, id, res) <==> AskedFor(req, id, res)
  {
  }

  lemma InOrderIff(req: Request)
    ensures ValidRequest(req) <==> InOrder(req)
  {
    hide UnitFor;
  }

  lemma RepeatsIff(s: State, req: Request)
    ensures IsDuplicate(s, req) <==> Repeats(s, req)
  {
  }

  lemma ServesIff(s: State, req: Request, id: nat, q: int)
    ensures Serves(s, req, id, q) <==> id in Candidates(s, req) && q <= Headroom(s, req.strength == STRENGTH_HARD, req.window, id)
  {
    hide Takes, Headroom, AskedFor, Matches;
    TakesIff(s, id, req.strength == STRENGTH_HARD, req.window, q);
    if id in s.resources { MatchesIff(req, id, s.resources[id]); }
  }

  /** What an assessment of a valid request, not a repeated one, looks at. */
  lemma AssessCases(s: State, req: Request)
    ensures var rep, ids := Assess(s, req), Candidates(s, req);
            if !InOrder(req) || Repeats(s, req) || ids == {} then rep == Report(Rejected, 0)
            else
              var best := Best(s, req.strength == STRENGTH_HARD, req.window, ids);
              var h := Headroom(s, req.strength == STRENGTH_HARD, req.window, best);
              && IsBest(s, req.strength == STRENGTH_HARD, req.window, ids, best)
              && rep.verdict == (if h >= req.quantity.value then Admissible else if h >= Acceptable(req) then AdmissibleWithModification else Rejected)
              && rep.resource == (if rep.verdict == Rejected then 0 else best)
  {
    hide Candidates, Headroom, ValidRequest, IsDuplicate, Repeats, Better;
    InOrderIff(req);
    RepeatsIff(s, req);
  }

  /** A request is admitted if and only if it is in order, not a repetition, and some resource it
      asks for has room for its quantity, or for its minimum if it allows part; it is admitted in
      full if and only if some such resource has room for the whole quantity. */
  lemma AdmittedIff(s: State, req: Request)
    ensures Assess(s, req).verdict == Admissible <==>
            InOrder(req) && !Repeats(s, req) && exists id: nat :: Serves(s, req, id, req.quantity.value)
    ensures Assess(s, req).verdict != Rejected <==>
            InOrder(req) && !Repeats(s, req)
            && exists id: nat :: Serves(s, req, id, req.quantity.value) || (req.partialAllowed && Serves(s, req, id, req.minAcceptable.value.value))
  {
    hide Assess, Serves, InOrder, Repeats, Candidates, Headroom;
    AssessCases(s, req);
    if InOrder(req) {
      AcceptableIs(req);
      ServedIff(s, req, req.quantity.value);
      if req.partialAllowed { ServedIff(s, req, req.minAcceptable.value.value); }
      forall id: nat | req.partialAllowed && Serves(s, req, id, req.quantity.value) ensures Serves(s, req, id, req.minAcceptable.value.value) {
        SameTerms(s, req, id, req.quantity.value, req.minAcceptable.value.value);
        SameTerms(s, req, id, req.quantity.value, req.quantity.value);
      }
    }
  }

  /** Some resource serves the request with a quantity exactly when the best candidate can. */
  lemma ServedIff(s: State, req: Request, q: int)
    requires InOrder(req)
    ensures var ids := Candidates(s, req);
            (exists id: nat :: Serves(s, req, id, q)) <==>
            ids != {} && q <= Headroom(s, req.strength == STRENGTH_HARD, req.window, Best(s, req.strength == STRENGTH_HARD, req.window, ids))
  {
    hide Serves, InOrder, Candidates, Headroom;
    forall id: nat ensures Serves(s, req, id, q) <==> id in Candidates(s, req) && q <= Headroom(s, req.strength == STRENGTH_HARD, req.window, id) {
      ServesIff(s, req, id, q);
    }
  }

  lemma AcceptableIs(req: Request)
    requires InOrder(req)
    ensures Acceptable(req) == if req.partialAllowed then req.minAcceptable.value.value else req.quantity.value
    ensures req.partialAllowed ==> req.minAcceptable.Some? && req.minAcceptable.value.value <= req.quantity.value
    ensures 0 < Acceptable(req) <= req.quantity.value
  {
    hide UnitFor;
  }

  /** The resource an admission reports serves the request best. */
  lemma ReportedServesBest(s: State, req: Request)
    requires Assess(s, req).verdict != Rejected
    ensures ServesBest(s, req, Assess(s, req).resource)
    ensures Assess(s, req).verdict == Admissible ==> Serves(s, req, Assess(s, req).resource, req.quantity.value)
  {
    hide Assess, Serves, InOrder, Repeats, Candidates, Headroom;
    AssessCases(s, req);
    AcceptableIs(req);
    forall id: nat, q: int ensures Serves(s, req, id, q) <==> id in Candidates(s, req) && q <= Headroom(s, req.strength == STRENGTH_HARD, req.window, id) {
      ServesIff(s, req, id, q);
    }
  }

  /** A report admits in full, in part or not at all just as some resource asked for has room, and
      names the one that serves best. */
  ghost predicate Judges(s: State, req: Request, rep: Report) {
    && (rep.verdict == Admissible <==> InOrder(req) && !Repeats(s, req) && exists id: nat :: Serves(s, req, id, req.quantity.value))
    && (rep.verdict != Rejected <==>
        InOrder(req) && !Repeats(s, req)
        && exists id: nat :: Serves(s, req, id, req.quantity.value) || (req.partialAllowed && Serves(s, req, id, req.minAcceptable.value.value)))
    && (rep.verdict != Rejected ==> ServesBest(s, req, rep.resource))
  }

  lemma AssessmentJudges(s: State, req: Request)
    ensures Judges(s, req, Assess(s, req))
  {
    hide Assess, Serves, ServesBest, InOrder, Repeats;
    AdmittedIff(s, req);
    if Assess(s, req).verdict != Rejected { ReportedServesBest(s, req); }
  }

  /** At most one resource serves best. */
  lemma ServesBestIsUnique(s: State, req: Request, a: nat, b: nat)
    requires ServesBest(s, req, a) && ServesBest(s, req, b)
    ensures a == b
  {
    hide Serves;
    var hard := req.strength == STRENGTH_HARD;
    if a != b {
      var h := Headroom(s, hard, req.window, a);
      assert Serves(s, req, a, h) by { SameTerms(s, req, a, Acceptable(req), h); }
      var k := Headroom(s, hard, req.window, b);
      assert Serves(s, req, b, k) by { SameTerms(s, req, b, Acceptable(req), k); }
      SameTerms(s, req, a, Acceptable(req), if b < a then k + 1 else k);
      SameTerms(s, req, b, Acceptable(req), if a < b then h + 1 else h);
    }
  }

  lemma SameTerms(s: State, req: Request, id: nat, q: int, q': int)
    requires Serves(s, req, id, q)
    ensures Serves(s, req, id, q') <==> q' <= Headroom(s, req.strength == STRENGTH_HARD, req.window, id)
  {
    hide Takes, Headroom;
    TakesIff(s, id, req.strength == STRENGTH_HARD, req.window, q');
  }

  // ---- commits ----

  /** The record is what was asked for: the request's own terms on a resource as it stands, with
      nothing activated, consumed or ended yet. */
  predicate Fulfils(s: State, req: Request, r: Reservation) {
    && r.resource in s.resources && r.boundGeneration == Some(s.resources[r.resource].generation)
    && r.strength == req.strength && r.resourceClass == req.resourceClass && r.unit == req.unit
    && r.quantity == req.quantity && r.window == req.window
    && r.owner == req.owner && r.ownerGeneration == req.ownerGeneration
    && r.policyGeneration == req.policyGeneration && r.transfer == req.transfer && r.terms == req.terms
    && r.lifecycle == COMMITTED && r.setId == 0 && r.groupId == 0
    && r.activated == Quantity(0, UNIT_COUNT) && r.consumed == Quantity(0, UNIT_COUNT)
    && r.activationGeneration == None && r.consumptionGeneration == None && r.releaseGeneration == None
    && r.transferGeneration == None && r.recoveryGeneration == None && r.activatedAt == None && r.releasedAt == None
    && r.contributes && !r.persisted
  }

  /** The hold can be committed on the resource. */
  predicate HoldsOn(s: State, hold: Option<nat>, resource: nat) {
    hold == None || (hold.value in s.holds && s.holds[hold.value].state == HOLD_ACQUIRED && s.holds[hold.value].resource == resource)
  }

  /** The record comes onto its levels and the hold, if there is one, off its own. */
  ghost predicate Settles(s: State, t: State, r: Reservation, hold: Option<nat>) {
    exists mid: map<nat, Envelope> ::
      && Raises(s.envelopes, mid, r, r.quantity.value)
      && if hold.Some? && hold.value in s.holds then
           var h := s.holds[hold.value];
           Shifts(mid, t.envelopes, h.resource, h.spec.window, 0, 0, -h.spec.quantity.value)
         else t.envelopes == mid
  }

  /** A commit is done if and only if the request is in order and not repeated, some resource
      serves it best and its hold, if it names one, is acquired on that resource. */
  lemma CommitIff(s: State, req: Request, hold: Option<nat>)
    ensures Commit(s, req, hold).1.Done? <==>
            InOrder(req) && !Repeats(s, req) && exists k: nat :: ServesBest(s, req, k) && HoldsOn(s, hold, k)
  {
    hide Assess, ServesBest, Serves, InOrder, Repeats;
    CommitUnfolds(s, req, hold);
    AdmittedIff(s, req);
    if Assess(s, req).verdict != Rejected {
      var best := Assess(s, req).resource;
      ReportedServesBest(s, req);
      BestIsKnown(s, req, best);
      forall k: nat | ServesBest(s, req, k) ensures k == best {
        ServesBestIsUnique(s, req, k, best);
      }
    } else if InOrder(req) {
      AcceptableIs(req);
      forall k: nat | ServesBest(s, req, k) ensures Repeats(s, req) {
        BestServes(s, req, k);
      }
    }
  }

  lemma BestIsKnown(s: State, req: Request, k: nat)
    requires ServesBest(s, req, k)
    ensures k in s.resources && (InOrder(req) ==> k in s.envelopes)
  {
    hide InOrder;
    if InOrder(req) { AcceptableIs(req); }
  }

  lemma BestServes(s: State, req: Request, k: nat)
    requires ServesBest(s, req, k) && InOrder(req)
    ensures Serves(s, req, k, req.quantity.value) || (req.partialAllowed && Serves(s, req, k, req.minAcceptable.value.value))
  {
    hide Serves, InOrder;
    AcceptableIs(req);
  }

  ghost function Created(s: State, req: Request): Reservation
    requires Assess(s, req).resource in s.resources
  {
    NewReservation(s, req).(contributes := true)
  }

  lemma CommitUnfolds(s: State, req: Request, hold: Option<nat>)
    ensures Commit(s, req, hold).1.Done? <==>
            Assess(s, req).verdict != Rejected && Assess(s, req).resource in s.resources && HoldsOn(s, hold, Assess(s, req).resource)
    ensures Commit(s, req, hold).1.Refused? ==> Commit(s, req, hold).0 == s
    ensures Commit(s, req, hold).1.Done? ==> Commit(s, req, hold) == CommitOne(s, req, hold)
  {
    hide Assess, AddCommitted, AddHeld;
  }

  /** A commit that is refused changes nothing. One that is done adds exactly one record, under the
      next identity, on the resource that serves the request best; remembers it under the request's
      identity unless one is remembered; and commits its hold. */
  lemma CommitLaw(s: State, req: Request, hold: Option<nat>)
    ensures var (t, out) := Commit(s, req, hold);
            var id := s.nextReservationId + 1;
            if out.Refused? then t == s
            else
              && out.value == id && id in t.reservations
              && var r := t.reservations[id];
                 && r.id == id && r.generation == (if id in s.currentGen then s.currentGen[id] + 1 else 1)
                 && ServesBest(s, req, r.resource) && Fulfils(s, req, r) && Settles(s, t, r, hold)
                 && t == s.(envelopes := t.envelopes, nextReservationId := id,
                            currentGen := s.currentGen[id := r.generation], reservations := s.reservations[id := r],
                            requests := if req.id in s.requests then s.requests else s.requests[req.id := id],
                            holds := if hold.None? then s.holds
                                     else s.holds[hold.value := s.holds[hold.value].(applied := false, state := HOLD_COMMITTED)])
    ensures Step(s, OpCommit(req, hold)) == Commit(s, req, hold).0
  {
    hide Assess, ServesBest, InOrder, Repeats, CommitOne, Settles, Fulfils, NewReservation;
    CommitUnfolds(s, req, hold);
    if Commit(s, req, hold).1.Done? {
      AdmittedIff(s, req);
      ReportedServesBest(s, req);
      BestIsKnown(s, req, Assess(s, req).resource);
      CreatedFulfils(s, req);
      CommittedState(s, req, hold);
    }
  }

  /** The same of the commit that bundles use. */
  lemma CommitPlaces(s: State, req: Request, hold: Option<nat>)
    ensures var (t, out) := CommitOne(s, req, hold);
            out.Done? ==>
              && out.value == s.nextReservationId + 1 && out.value in t.reservations
              && ServesBest(s, req, t.reservations[out.value].resource) && Fulfils(s, req, t.reservations[out.value])
  {
    hide Assess, ServesBest, Fulfils, CommitOne;
    RefusedUnlessAllowed(s, req, hold);
    if CommitAllowed(s, req, hold) {
      AdmittedIff(s, req);
      ReportedServesBest(s, req);
      BestIsKnown(s, req, Assess(s, req).resource);
      CreatedFulfils(s, req);
      CommittedState(s, req, hold);
    }
  }

  lemma RefusedUnlessAllowed(s: State, req: Request, hold: Option<nat>)
    ensures CommitOne(s, req, hold).1.Done? ==> CommitAllowed(s, req, hold)
  {
    hide CommitAllowed, NewReservation, AddCommitted, AddHeld;
  }

  lemma CreatedFulfils(s: State, req: Request)
    requires Assess(s, req).resource in s.resources
    ensures var r := Created(s, req);
            && Fulfils(s, req, r) && r.resource == Assess(s, req).resource
            && r.id == s.nextReservationId + 1 && r.generation == (if r.id in s.currentGen then s.currentGen[r.id] + 1 else 1)
  {
    hide Assess;
  }

  lemma CommittedState(s: State, req: Request, hold: Option<nat>)
    requires CommitAllowed(s, req, hold) && Assess(s, req).resource in s.envelopes
    ensures var (t, out) := CommitOne(s, req, hold);
            var r := Created(s, req);
            && out == Done(r.id) && Settles(s, t, r, hold)
            && t == s.(envelopes := t.envelopes, nextReservationId := r.id,
                       currentGen := s.currentGen[r.id := r.generation], reservations := s.reservations[r.id := r],
                       requests := if req.id in s.requests then s.requests else s.requests[req.id := r.id],
                       holds := if hold.None? then s.holds
                                else s.holds[hold.value := s.holds[hold.value].(applied := false, state := HOLD_COMMITTED)])
  {
    hide Assess, Contribute, Held, Raises, Shifts;
    var r := NewReservation(s, req);
    var s1 := s.(nextReservationId := r.id, currentGen := s.currentGen[r.id := r.generation]);
    ContributeLaw(s1, r);
    var mid := Contribute(s1, r).0;
    RaisedFor(s.envelopes, mid.envelopes, r);
    if hold.Some? {
      var h := s.holds[hold.value];
      var s3 := Put(mid, r.id, Created(s, req)).(requests := if req.id in s.requests then s.requests else s.requests[req.id := r.id]);
      HeldLaw(s3, h.resource, h.spec.window, -h.spec.quantity.value);
    }
  }

  lemma RaisedFor(before: map<nat, Envelope>, after: map<nat, Envelope>, r: Reservation)
    requires Raises(before, after, r, r.quantity.value)
    ensures Raises(before, after, r.(contributes := true), r.quantity.value)
  {
  }
}
