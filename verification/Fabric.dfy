/** The runtime object: maps and counters that its operations update in place. Each public method
    is one step under the exclusive lock and is proved to do what the registry's specification
    of the operation says. */
module Fabric {
  import opened Types
  import opened Envelopes
  import opened Registry
  import opened Persistence
  import opened EffectLaws
  import opened AdmissionLaws
  import opened LifecycleLaws
  import opened ChangeLaws
  import opened ResourceLaws
  import Authority
  import MirrorSteps
  import Int64

  /** At most one identity is best. */
  lemma BestIsUnique(s: State, hard: bool, w: Interval, ids: set<nat>, a: nat, b: nat)
    requires IsBest(s, hard, w, ids, a) && IsBest(s, hard, w, ids, b)
    ensures a == b
  {
    hide Headroom;
  }

  lemma FoldStep(s: State, order: seq<nat>, id: nat, f: (State, nat) -> State)
    ensures Fold(s, order + [id], f) == f(Fold(s, order, f), id)
  {
    assert (order + [id])[..|order|] == order;
  }

  // ---- what the walks count ----

  /** The reservations on a resource that hold capacity, among some identities. */
  ghost function HoldingOn(m: map<nat, Reservation>, resource: nat, ids: set<nat>): set<nat> {
    set k | k in ids && k in m && m[k].resource == resource && HoldsCapacity(m[k].lifecycle)
  }

  ghost function WaitingOn(m: map<nat, Reservation>, resource: nat, ids: set<nat>): set<nat> {
    set k | k in ids && k in m && m[k].resource == resource && m[k].lifecycle == REVALIDATION_REQUIRED
  }

  ghost function DueAmong(s: State, now: int, ids: set<nat>): set<nat> {
    set k | k in ids && IsDue(s, now, k)
  }

  /** Over all reservations: those that hold capacity and whose windows are over. */
  lemma DueAre(s: State, now: int)
    ensures DueAmong(s, now, s.reservations.Keys) ==
            set k | k in s.reservations && HoldsCapacity(s.reservations[k].lifecycle) && s.reservations[k].window.end < now
  {
    hide HoldsCapacity;
  }

  lemma DueAlike(s: State, t: State, now: int, id: nat)
    requires id in s.reservations && id in t.reservations && t.reservations[id] == s.reservations[id]
    ensures IsDue(t, now, id) <==> IsDue(s, now, id)
  {
  }

  lemma HoldingNext(m: map<nat, Reservation>, resource: nat, todo: set<nat>, k: nat)
    requires k in todo && todo <= m.Keys
    ensures |HoldingOn(m, resource, m.Keys - (todo - {k}))| ==
            |HoldingOn(m, resource, m.Keys - todo)| + if m[k].resource == resource && HoldsCapacity(m[k].lifecycle) then 1 else 0
  {
    hide HoldsCapacity;
    var before, after := HoldingOn(m, resource, m.Keys - todo), HoldingOn(m, resource, m.Keys - (todo - {k}));
    assert after == if m[k].resource == resource && HoldsCapacity(m[k].lifecycle) then before + {k} else before;
  }

  lemma WaitingNext(m: map<nat, Reservation>, resource: nat, todo: set<nat>, k: nat)
    requires k in todo && todo <= m.Keys
    ensures |WaitingOn(m, resource, m.Keys - (todo - {k}))| ==
            |WaitingOn(m, resource, m.Keys - todo)| + if m[k].resource == resource && m[k].lifecycle == REVALIDATION_REQUIRED then 1 else 0
  {
    var before, after := WaitingOn(m, resource, m.Keys - todo), WaitingOn(m, resource, m.Keys - (todo - {k}));
    assert after == if m[k].resource == resource && m[k].lifecycle == REVALIDATION_REQUIRED then before + {k} else before;
  }

  lemma DueNext(s: State, now: int, todo: set<nat>, k: nat)
    requires k in todo && todo <= s.reservations.Keys
    ensures |DueAmong(s, now, s.reservations.Keys - (todo - {k}))| ==
            |DueAmong(s, now, s.reservations.Keys - todo)| + if IsDue(s, now, k) then 1 else 0
  {
    hide IsDue;
    var before, after := DueAmong(s, now, s.reservations.Keys - todo), DueAmong(s, now, s.reservations.Keys - (todo - {k}));
    assert after == if IsDue(s, now, k) then before + {k} else before;
  }

  /** Before the walk nothing is counted, after it everything is. */
  lemma CountEnds(s: State, resource: nat, now: int)
    ensures var keys := s.reservations.Keys;
            && HoldingOn(s.reservations, resource, keys - keys) == WaitingOn(s.reservations, resource, keys - keys) == DueAmong(s, now, keys - keys) == {}
            && keys - {} == keys
  {
  }

  class ReservationFabric {
    var config: Config
    var epoch: nat
    var authority: nat
    var resources: map<nat, Resource>
    var envelopes: map<nat, Envelope>
    var workerBoots: map<nat, nat>
    var requests: map<nat, nat>
    var reservations: map<nat, Reservation>
    var currentGen: map<nat, nat>
    var history: map<nat, seq<Reservation>>
    var sets: map<nat, ReservationSet>
    var holds: map<nat, Hold>
    var nextReservationId: nat
    var nextHoldId: nat
    var nextSetId: nat

    ghost function View(): State
      reads this
    {
      State(config, epoch, authority, resources, envelopes, workerBoots, requests, reservations, currentGen, history, sets, holds,
            nextReservationId, nextHoldId, nextSetId)
    }

    constructor (maxHistory: nat, maxHolds: nat, horizon: nat)
      ensures View() == NewState(maxHistory, maxHolds, horizon)
    {
      config := Config(maxHistory, maxHolds, if horizon == 0 then DEFAULT_HORIZON else horizon);
      epoch, authority := 1, 1;
      resources, envelopes, workerBoots := map[], map[], map[];
      requests, reservations, currentGen, history := map[], map[], map[], map[];
      sets, holds := map[], map[];
      nextReservationId, nextHoldId, nextSetId := 1, 1, 1;
    }

    // ---- contributions ----

    method AddContribution(r: Reservation) returns (r1: Reservation)
      modifies this`envelopes
      ensures (View(), r1) == Contribute(old(View()), r)
    {
      hide AddHard, AddSoft;
      if r.resource !in envelopes || r.contributes {
        return r;
      }
      var e := envelopes[r.resource];
      e := if r.strength == STRENGTH_HARD then AddHard(e, r.window, r.quantity.value) else AddSoft(e, r.window, r.quantity.value);
      envelopes := envelopes[r.resource := e];
      r1 := r.(contributes := true);
    }

    method RemoveContribution(r: Reservation) returns (r1: Reservation)
      modifies this`envelopes
      ensures (View(), r1) == Withdraw(old(View()), r)
    {
      hide AddHard, AddSoft;
      if r.resource !in envelopes || !r.contributes {
        return r;
      }
      var e := envelopes[r.resource];
      e := if r.strength == STRENGTH_HARD then AddHard(e, r.window, -r.quantity.value) else AddSoft(e, r.window, -r.quantity.value);
      envelopes := envelopes[r.resource := e];
      r1 := r.(contributes := false);
    }

    method AddHeldTo(resource: nat, w: Interval, q: int)
      modifies this`envelopes
      ensures View() == Held(old(View()), resource, w, q)
    {
      hide AddHeld;
      if resource in envelopes {
        envelopes := envelopes[resource := AddHeld(envelopes[resource], w, q)];
      }
    }

    // ---- admission ----

    method HeadroomFor(hard: bool, w: Interval, id: nat) returns (h: int)
      ensures h == Headroom(View(), hard, w, id)
    {
      hide MinHardHeadroom, MinSoftHeadroom;
      if id !in envelopes {
        return 0;
      }
      h := if hard then MinHardHeadroom(envelopes[id], w) else MinSoftHeadroom(envelopes[id], w);
    }

    method MatchingResources(req: Request) returns (ids: set<nat>)
      ensures ids == Candidates(View(), req)
      ensures forall id :: id in ids <==> id in resources && AskedFor(req, id, resources[id])
    {
      hide Matches, AskedFor;
      ids := {};
      var todo := resources.Keys;
      while todo != {}
        invariant todo <= resources.Keys
        invariant forall id :: id in ids <==> id in resources && id !in todo && Matches(req, id, resources[id])
        decreases |todo|
      {
        var id :| id in todo;
        if Matches(req, id, resources[id]) {
          ids := ids + {id};
        }
        todo := todo - {id};
      }
      forall id | id in resources ensures Matches(req, id, resources[id]) <==> AskedFor(req, id, resources[id]) {
        MatchesIff(req, id, resources[id]);
      }
    }

    /** The running best over the matching resources. */
    method BestOf(hard: bool, w: Interval, ids: set<nat>) returns (best: nat, h: int)
      requires ids != {}
      ensures best == Best(View(), hard, w, ids) && h == Headroom(View(), hard, w, best)
    {
      hide Headroom;
      var todo := ids;
      best :| best in todo;
      h := HeadroomFor(hard, w, best);
      todo := todo - {best};
      while todo != {}
        invariant todo <= ids && best in ids && best !in todo && h == Headroom(View(), hard, w, best)
        invariant forall id :: id in ids && id !in todo && id != best ==> Better(View(), hard, w, best, id)
        decreases |todo|
      {
        var id :| id in todo;
        var hi := HeadroomFor(hard, w, id);
        if hi > h || (hi == h && id < best) {
          best, h := id, hi;
        }
        todo := todo - {id};
      }
      BestIsUnique(View(), hard, w, ids, best, Best(View(), hard, w, ids));
    }

    method AssessOne(req: Request) returns (rep: Report)
      ensures rep == Assess(View(), req)
      ensures Judges(View(), req, rep)
    {
      hide ValidRequest, Headroom, Candidates, HoldsCapacity, Judges, AskedFor, IsBest, Better;
      ghost var s := View();
      AssessmentJudges(s, req);
      if !ValidRequest(req) {
        return Report(Rejected, 0);
      }
      if req.id in requests && requests[req.id] in reservations && HoldsCapacity(reservations[requests[req.id]].lifecycle) {
        return Report(Rejected, 0);
      }
      var ids := MatchingResources(req);
      assert View() == s;
      if ids == {} {
        return Report(Rejected, 0);
      }
      var best, h := BestOf(req.strength == STRENGTH_HARD, req.window, ids);
      assert View() == s;
      if h >= req.quantity.value {
        return Report(Admissible, best);
      }
      if req.partialAllowed && req.minAcceptable.Some? && h >= req.minAcceptable.value.value {
        return Report(AdmissibleWithModification, best);
      }
      rep := Report(Rejected, 0);
    }

    // ---- holds ----

    method CreateHold(spec: HoldSpec, now: int) returns (created: bool)
      modifies this`holds, this`envelopes
      ensures (View(), created) == AcquireHold(old(View()), spec, now)
    {
      hide ValidSpec, Headroom, Candidates, AddHeld, Probe;
      if !ValidSpec(spec) || |holds| >= config.maxHolds {
        return false;
      }
      var ids := MatchingResources(Probe(spec));
      if ids == {} {
        return false;
      }
      var best, h := BestOf(true, spec.window, ids);
      if h < spec.quantity.value {
        return false;
      }
      holds := holds[spec.id := Hold(spec, HOLD_ACQUIRED, best, true, now + HOLD_LEASE, false)];
      AddHeldTo(best, spec.window, spec.quantity.value);
      created := true;
    }

    method TakeOff(id: nat, state: Byte)
      requires id in holds
      modifies this`holds, this`envelopes
      ensures View() == DropHold(old(View()), id, state)
    {
      hide AddHeld;
      var h := holds[id];
      if h.applied {
        AddHeldTo(h.resource, h.spec.window, -h.spec.quantity.value);
      }
      holds := holds[id := h.(applied := false, state := state)];
    }

    method ReleaseHoldLocked(id: nat)
      modifies this`holds, this`envelopes
      ensures View() == ReleaseProvisional(old(View()), id)
    {
      hide DropHold;
      if id !in holds {
        return;
      }
      if holds[id].state in {HOLD_RELEASED, HOLD_EXPIRED, HOLD_COMMITTED} {
        holds := holds[id := holds[id].(state := HOLD_RELEASED, applied := false)];
        return;
      }
      TakeOff(id, HOLD_RELEASED);
    }

    method ReleaseHold(id: nat, generation: nat) returns (out: Outcome<()>)
      modifies this`holds, this`envelopes
      ensures (View(), out) == Registry.ReleaseHold(old(View()), id, generation)
    {
      hide DropHold;
      if id !in holds || holds[id].spec.generation != generation {
        return Refused;
      }
      if holds[id].state in {HOLD_RELEASED, HOLD_EXPIRED} {
        return Done(());
      }
      TakeOff(id, HOLD_RELEASED);
      out := Done(());
    }

    /** Walks the holds in some order, each once. */
    method ExpireHolds(now: int) returns (ghost order: seq<nat>)
      modifies this`holds, this`envelopes
      ensures View() == Registry.ExpireHolds(old(View()), now, order) && Visits(order, old(holds).Keys)
    {
      hide DropHold, Fold;
      order := [];
      var todo := holds.Keys;
      ghost var f := (x: State, id: nat) => ExpireHold(x, now, id);
      FoldNone(View(), f);
      while todo != {}
        invariant todo <= old(holds).Keys && holds.Keys == old(holds).Keys
        invariant Walked(order, old(holds).Keys, todo)
        invariant View() == Fold(old(View()), order, f)
        decreases |todo|
      {
        var id :| id in todo;
        FoldStep(old(View()), order, id, f);
        DropKeeps(View(), id, HOLD_EXPIRED);
        if holds[id].state == HOLD_ACQUIRED && holds[id].expiry < now {
          TakeOff(id, HOLD_EXPIRED);
        }
        WalkOn(order, old(holds).Keys, todo, id);
        order := order + [id];
        todo := todo - {id};
      }
      WalkedAll(order, old(holds).Keys);
    }

    // ---- commit ----

    method Record(req: Request, r: Reservation)
      modifies this`envelopes, this`requests, this`reservations, this`currentGen, this`nextReservationId
      ensures View() == Recorded(old(View()), req, r)
    {
      hide Contribute;
      nextReservationId := r.id;
      currentGen := currentGen[r.id := r.generation];
      var r1 := AddContribution(r);
      reservations := reservations[r.id := r1];
      if req.id !in requests {
        requests := requests[req.id := r.id];
      }
    }

    method SettleHold(hold: nat)
      requires hold in holds
      modifies this`envelopes, this`holds
      ensures View() == SettledBy(old(View()), Some(hold))
    {
      hide AddHeld;
      var h := holds[hold];
      AddHeldTo(h.resource, h.spec.window, -h.spec.quantity.value);
      holds := holds[hold := h.(applied := false, state := HOLD_COMMITTED)];
    }

    method CommitOneLocked(req: Request, hold: Option<nat>) returns (out: Outcome<nat>)
      modifies this`envelopes, this`requests, this`reservations, this`currentGen, this`holds, this`nextReservationId
      ensures (View(), out) == CommitOne(old(View()), req, hold)
      ensures out.Done? ==>
                && out.value == old(nextReservationId) + 1 && out.value in reservations
                && ServesBest(old(View()), req, reservations[out.value].resource) && Fulfils(old(View()), req, reservations[out.value])
    {
      hide Assess, Recorded, CommitOne, ServesBest, Fulfils;
      CommitPlaces(View(), req, hold);
      CommitUnfold(View(), req, hold);
      var rep := AssessOne(req);
      if rep.verdict == Rejected || rep.resource !in resources {
        return Refused;
      }
      if hold.Some? && (hold.value !in holds || holds[hold.value].state != HOLD_ACQUIRED || holds[hold.value].resource != rep.resource) {
        return Refused;
      }
      var id := nextReservationId + 1;
      var generation := if id in currentGen then currentGen[id] + 1 else 1;
      var r := ReservationOf(req, rep.resource, resources[rep.resource].generation, id, generation);
      RecordedHolds(View(), req, r);
      Record(req, r);
      if hold.Some? {
        SettleHold(hold.value);
      }
      out := Done(id);
    }

    method Commit(req: Request, hold: Option<nat>) returns (out: Outcome<nat>)
      modifies this`envelopes, this`requests, this`reservations, this`currentGen, this`holds, this`nextReservationId
      ensures (View(), out) == Registry.Commit(old(View()), req, hold)
    {
      hide CommitOne;
      if hold.Some? && hold.value !in holds {
        return Refused;
      }
      out := CommitOneLocked(req, hold);
    }

    /** Phase one: every member is assessed before anything changes. */
    method AssessAll(members: seq<Request>) returns (admitted: bool)
      ensures admitted <==> AllAdmitted(View(), members)
    {
      hide Assess;
      for i := 0 to |members|
        invariant forall j :: 0 <= j < i ==> Admitted(Assess(View(), members[j]))
      {
        var rep := AssessOne(members[i]);
        if !Admitted(rep) {
          return false;
        }
      }
      admitted := true;
    }

    /** Phase two: provisional holds under consecutive identities, until one is refused. */
    method AcquireMembers(members: seq<Request>, now: int) returns (acquired: bool)
      modifies this`holds, this`envelopes, this`nextHoldId
      ensures (View(), acquired) == AcquireAll(old(View()), members, now)
    {
      hide AcquireHold;
      assert members[0..] == members;
      for i := 0 to |members|
        invariant AcquireAll(old(View()), members, now) == AcquireAll(View(), members[i..], now)
      {
        assert members[i..][1..] == members[i + 1..];
        nextHoldId := nextHoldId + 1;
        var created := CreateHold(MemberSpec(members[i], nextHoldId), now);
        if !created {
          return false;
        }
      }
      acquired := true;
    }

    method ReleaseAll(from: nat, to: int)
      requires from <= to
      modifies this`holds, this`envelopes
      ensures View() == ReleaseRange(old(View()), from, to)
    {
      hide ReleaseProvisional;
      for i := from to to
        invariant ReleaseRange(old(View()), from, to) == ReleaseRange(View(), i, to)
      {
        ReleaseHoldLocked(i + 1);
      }
    }

    /** Phase three: commits against the holds, until one is refused. */
    method CommitMembers(members: seq<Request>, firstHold: nat) returns (n: nat)
      modifies this`envelopes, this`requests, this`reservations, this`currentGen, this`holds, this`nextReservationId
      ensures (View(), n) == CommitAll(old(View()), members, firstHold)
    {
      hide CommitOne;
      assert members[0..] == members;
      n := 0;
      while n < |members|
        invariant n <= |members|
        invariant CommitAll(old(View()), members, firstHold) == Counted(CommitAll(View(), members[n..], firstHold + n), n)
      {
        assert members[n..][1..] == members[n + 1..];
        ghost var before := View();
        var out := CommitOneLocked(members[n], Some(firstHold + n + 1));
        CommitAllUnfold(before, members[n..], firstHold + n);
        if out.Refused? {
          return;
        }
        n := n + 1;
      }
    }

    method CancelAll(from: nat, to: nat)
      requires from <= to
      modifies this`envelopes, this`reservations
      ensures View() == CancelRange(old(View()), from, to)
    {
      hide Withdraw;
      for i := from to to
        invariant CancelRange(old(View()), from, to) == CancelRange(View(), i, to)
      {
        if i + 1 in reservations {
          var r := RemoveContribution(reservations[i + 1]);
          reservations := reservations[i + 1 := r.(lifecycle := CANCELLED)];
        }
      }
    }

    /** Cancels what was committed and releases the holds that are left. */
    method Undo(firstReservation: nat, firstHold: nat, n: nat, members: nat)
      requires n <= members
      modifies this`envelopes, this`reservations, this`holds
      ensures View() == RollBack(old(View()), firstReservation, firstHold, n, members)
    {
      hide CancelRange, ReleaseRange;
      CancelAll(firstReservation, firstReservation + n);
      ReleaseAll(firstHold + n, firstHold + members);
    }

    method CommitBundle(members: seq<Request>, now: int) returns (out: Outcome<seq<nat>>)
      modifies this
      ensures (View(), out) == Registry.CommitBundle(old(View()), members, now)
    {
      hide AllAdmitted, AcquireAll, CommitAll, ReleaseRange, RollBack, BundleSet;
      var firstReservation, firstHold := nextReservationId, nextHoldId;
      nextSetId := nextSetId + 1;
      var admitted := AssessAll(members);
      if !admitted {
        return Refused;
      }
      ghost var start := View();
      var acquired := AcquireMembers(members, now);
      CountHolds(start, members, now);
      if !acquired {
        ReleaseAll(firstHold, nextHoldId - 1);
        return Refused;
      }
      ghost var held := View();
      var n := CommitMembers(members, firstHold);
      CountMembers(held, members, firstHold);
      if n < |members| {
        Undo(firstReservation, firstHold, n, |members|);
        return Refused;
      }
      var made := MadeSet(members, firstReservation);
      sets := sets[made.id := made];
      out := Done(made.members);
    }

    method MadeSet(members: seq<Request>, firstReservation: nat) returns (made: ReservationSet)
      requires nextSetId >= 1
      ensures forall s: State :: s.nextReservationId == firstReservation && s.nextSetId == nextSetId - 1 ==> made == BundleSet(s, members)
    {
      var ids: seq<nat> := [];
      for i := 0 to |members|
        invariant ids == seq(i, k requires 0 <= k => firstReservation + 1 + k)
      {
        ids := ids + [firstReservation + 1 + i];
      }
      made := ReservationSet(nextSetId, 1, 0, if members == [] then 0 else members[0].owner, if members == [] then 0 else members[0].ownerGeneration,
        true, TX_COMMITTED, true, false, false, ids);
    }

    // ---- lifecycle ----

    method Activate(id: nat, generation: nat, e: Evidence) returns (out: Activation)
      modifies this`reservations
      ensures (View(), out) == Registry.Activate(old(View()), id, generation, e)
    {
      hide Contains;
      if id !in reservations || reservations[id].generation != generation {
        return ActivationRefused;
      }
      var r := reservations[id];
      if r.lifecycle == ACTIVE {
        return Activated;
      }
      if r.resource !in resources {
        return ActivationRefused;
      }
      var res := resources[r.resource];
      var advanced := r.boundGeneration.Some? && res.generation > r.boundGeneration.value;
      if !res.available || advanced {
        reservations := reservations[id := r.(lifecycle := REVALIDATION_REQUIRED)];
        return Revalidate;
      }
      if !(e.worker == res.owner && e.workerBoot == res.ownerBoot) {
        return ActivationRefused;
      }
      if !Contains(r.window, e.at) {
        return ActivationRefused;
      }
      if r.activationGeneration.Some? && e.generation < r.activationGeneration.value {
        return ActivationRefused;
      }
      if !(r.lifecycle in {COMMITTED, PENDING_ACTIVATION, ACTIVATING}) {
        return ActivationRefused;
      }
      r := r.(lifecycle := ACTIVE, activatedAt := Some(e.at), activationGeneration := Some(e.generation), activated := r.quantity);
      reservations := reservations[id := r];
      out := Activated;
    }

    method Consume(id: nat, generation: nat, amount: Quantity, e: Evidence) returns (out: Consumption)
      modifies this`reservations
      ensures (View(), out) == Registry.Consume(old(View()), id, generation, amount, e)
    {
      hide Fresh, IsLive;
      if id !in reservations || reservations[id].generation != generation {
        return ConsumptionRefused;
      }
      var r := reservations[id];
      if !IsLive(r.lifecycle) {
        return ConsumptionRefused;
      }
      if amount.value <= 0 || amount.unit != r.unit {
        return ConsumptionRefused;
      }
      var current := IsFresh(r.resource, e);
      if !current {
        return ConsumptionRefused;
      }
      if r.consumptionGeneration.Some? && e.generation < r.consumptionGeneration.value {
        return ConsumptionRefused;
      }
      if r.consumptionGeneration.Some? && e.generation == r.consumptionGeneration.value {
        return Replayed;
      }
      if amount.value > r.quantity.value - r.consumed.value {
        return ConsumptionRefused;
      }
      var consumed := Quantity(r.consumed.value + amount.value, r.unit);
      r := r.(consumed := consumed, consumptionGeneration := Some(e.generation),
              lifecycle := if consumed == r.quantity then CONSUMED else PARTIALLY_CONSUMED);
      reservations := reservations[id := r];
      out := Accepted;
    }

    method IsFresh(resource: nat, e: Evidence) returns (current: bool)
      ensures current <==> Fresh(View(), resource, e.worker, e.workerBoot)
    {
      if resource !in resources {
        return false;
      }
      var res := resources[resource];
      current := res.available && e.worker == res.owner && e.workerBoot == res.ownerBoot;
    }

    method Release(id: nat, generation: nat, e: Evidence) returns (out: Registry.Release)
      modifies this`reservations, this`envelopes
      ensures (View(), out) == ReleaseReservation(old(View()), id, generation, e)
    {
      hide Withdraw, Fresh, IsEnded;
      if id !in reservations || reservations[id].generation != generation {
        return ReleaseRefused;
      }
      var r := reservations[id];
      if IsEnded(r.lifecycle) {
        return ReleasedBefore;
      }
      var current := IsFresh(r.resource, e);
      if !current {
        return ReleaseRefused;
      }
      if r.releaseGeneration.Some? && e.generation < r.releaseGeneration.value {
        return ReleaseRefused;
      }
      r := RemoveContribution(r);
      reservations := reservations[id := r.(lifecycle := RELEASED, releasedAt := Some(e.at), releaseGeneration := Some(e.generation))];
      out := ReleasedNow;
    }

    method Cancel(id: nat, generation: nat) returns (out: Outcome<()>)
      modifies this`reservations, this`envelopes
      ensures (View(), out) == Registry.Cancel(old(View()), id, generation)
    {
      hide Withdraw, IsEnded;
      if id !in reservations || reservations[id].generation != generation {
        return Refused;
      }
      if IsEnded(reservations[id].lifecycle) {
        return Done(());
      }
      var r := RemoveContribution(reservations[id]);
      reservations := reservations[id := r.(lifecycle := CANCELLED)];
      out := Done(());
    }

    method ExpireAt(now: int, id: nat) returns (expired: bool)
      requires id in reservations
      modifies this`reservations, this`envelopes
      ensures View() == ExpireOne(old(View()), now, id) && reservations.Keys == old(reservations).Keys
      ensures expired <==> IsDue(old(View()), now, id)
      ensures forall k :: k in reservations && k != id ==> reservations[k] == old(reservations)[k]
    {
      hide Withdraw, HoldsCapacity;
      var r := reservations[id];
      expired := HoldsCapacity(r.lifecycle) && r.window.end < now;
      if HoldsCapacity(r.lifecycle) && r.window.end < now {
        r := RemoveContribution(r);
        reservations := reservations[id := r.(lifecycle := EXPIRED, releasedAt := Some(now))];
      }
    }

    /** Walks the reservations in some order, each once, and counts those it expires. */
    method ExpireDue(now: int) returns (count: nat, ghost order: seq<nat>)
      modifies this`reservations, this`envelopes
      ensures View() == Registry.ExpireDue(old(View()), now, order) && Visits(order, old(reservations).Keys)
      ensures reservations.Keys == old(reservations).Keys && forall k :: k in old(reservations) ==>
                reservations[k] == if Overdue(old(reservations)[k], now) then Lapsed(old(View()), old(reservations)[k], now) else old(reservations)[k]
      ensures count == |set k | k in old(reservations) && HoldsCapacity(old(reservations)[k].lifecycle) && old(reservations)[k].window.end < now|
    {
      hide ExpireOne, Fold, IsDue, DueAmong, Walked;
      order, count := [], 0;
      var todo := reservations.Keys;
      ghost var s0, keys := View(), reservations.Keys;
      ghost var f := (x: State, id: nat) => ExpireOne(x, now, id);
      FoldNone(View(), f);
      CountEnds(s0, 0, now);
      WalkedNone(keys);
      while todo != {}
        invariant todo <= keys && reservations.Keys == keys
        invariant Walked(order, keys, todo)
        invariant View() == Fold(s0, order, f)
        invariant forall k :: k in todo ==> reservations[k] == old(reservations)[k]
        invariant count == |DueAmong(s0, now, keys - todo)|
        decreases |todo|
      {
        var id :| id in todo;
        FoldStep(s0, order, id, f);
        DueAlike(s0, View(), now, id);
        var expired := ExpireAt(now, id);
        WalkOn(order, keys, todo, id);
        DueNext(s0, now, todo, id);
        if expired { count := count + 1; }
        order := order + [id];
        todo := todo - {id};
      }
      WalkedAll(order, keys);
      DueAre(s0, now);
      ExpireAlong(s0, now, order);
    }

    // ---- modification ----

    /** The old record goes to the bounded history. */
    method Remember(id: nat, r: Reservation)
      modifies this`history
      ensures View() == old(View()).(history := old(history)[id := Remembered(HistoryOf(old(View()), id), r.(contributes := false), config.maxHistory)])
    {
      var h := (if id in history then history[id] else []) + [r.(contributes := false)];
      if |h| > config.maxHistory {
        h := h[1..];
      }
      history := history[id := h];
    }

    /** Makes the new record the live generation. */
    method Install(id: nat, old_: Reservation, new_: Reservation)
      modifies this`history, this`currentGen, this`reservations, this`envelopes
      ensures View() == Adopt(old(View()), id, old_, new_)
    {
      hide Contribute, Remembered, HistoryOf;
      ContributeKeepsHistory(View(), new_);
      Remember(id, old_);
      var n := AddContribution(new_);
      currentGen := currentGen[id := n.generation];
      reservations := reservations[id := n];
      HistoryFirst(old(View()), id, old_, new_);
    }

    method PutBack(id: nat, r: Reservation)
      modifies this`reservations, this`envelopes
      ensures View() == Restore(old(View()), id, r)
    {
      hide Contribute;
      var r1 := AddContribution(r);
      reservations := reservations[id := r1];
    }

    /** Also reports how much was acquired or released on top of the old quantity. */
    method Resize(id: nat, generation: nat, q: Quantity, policyGeneration: nat) returns (out: Outcome<nat>, acquired: int, released: int)
      modifies this`history, this`currentGen, this`reservations, this`envelopes
      ensures (View(), out) == Registry.Resize(old(View()), id, generation, q, policyGeneration)
      ensures out.Done? <==> Live(old(View()), id, generation) && Resizable(old(reservations)[id], q, policyGeneration)
                             && TakesBesides(old(View()), old(reservations)[id], old(reservations)[id].window, q.value)
      ensures out.Done? ==> id in reservations && reservations[id].quantity == q && reservations[id].generation == out.value
      ensures out.Done? ==> acquired - released == q.value - old(reservations)[id].quantity.value
      ensures 0 <= acquired && 0 <= released && (acquired == 0 || released == 0) && (out.Refused? ==> acquired == released == 0)
    {
      hide Withdraw, Headroom, Restore, Adopt, Resized, TakesBesides, Raises, Archived, PutsBack;
      ResizeIff(View(), id, generation, q, policyGeneration);
      ResizeLaw(View(), id, generation, q, policyGeneration);
      out, acquired, released := Refused, 0, 0;
      if id !in reservations || reservations[id].generation != generation {
        return;
      }
      var r := reservations[id];
      if q.value <= 0 || q.unit != r.unit || policyGeneration < r.policyGeneration {
        return;
      }
      var next := if id in currentGen then currentGen[id] + 1 else 1;
      var r1 := RemoveContribution(r);
      var h := HeadroomFor(r.strength == STRENGTH_HARD, r.window, r.resource);
      if h < q.value {
        PutBack(id, r1);
        return;
      }
      Install(id, r1, Resized(r1, next, q, policyGeneration));
      if q.value > r.quantity.value {
        acquired := q.value - r.quantity.value;
      } else {
        released := r.quantity.value - q.value;
      }
      out := Done(next);
    }

    method Renew(id: nat, generation: nat, w: Interval, policyGeneration: nat) returns (out: Outcome<nat>)
      modifies this`history, this`currentGen, this`reservations, this`envelopes
      ensures (View(), out) == Registry.Renew(old(View()), id, generation, w, policyGeneration)
      ensures out.Done? <==> Live(old(View()), id, generation) && old(reservations)[id].policyGeneration <= policyGeneration
                             && TakesBesides(old(View()), old(reservations)[id], w, old(reservations)[id].quantity.value)
      ensures out.Done? ==> id in reservations && reservations[id].window == w && reservations[id].generation == out.value
    {
      hide Withdraw, Headroom, Restore, Adopt, Renewed, TakesBesides, Raises, Archived, PutsBack;
      RenewIff(View(), id, generation, w, policyGeneration);
      RenewLaw(View(), id, generation, w, policyGeneration);
      if id !in reservations || reservations[id].generation != generation {
        return Refused;
      }
      var r := reservations[id];
      if policyGeneration < r.policyGeneration {
        return Refused;
      }
      var next := if id in currentGen then currentGen[id] + 1 else 1;
      var r1 := RemoveContribution(r);
      var h := HeadroomFor(r.strength == STRENGTH_HARD, w, r.resource);
      if h < r.quantity.value {
        PutBack(id, r1);
        return Refused;
      }
      Install(id, r1, Renewed(r1, next, w, policyGeneration));
      out := Done(next);
    }

    method Transfer(id: nat, generation: nat, owner: nat, ownerGeneration: nat, e: Evidence) returns (out: Outcome<nat>)
      modifies this`history, this`currentGen, this`reservations
      ensures (View(), out) == Registry.Transfer(old(View()), id, generation, owner, ownerGeneration, e)
    {
      hide Fresh, Remembered, HistoryOf;
      if id !in reservations || reservations[id].generation != generation {
        return Refused;
      }
      var r := reservations[id];
      if r.transfer != TRANSFER_ALLOWED {
        return Refused;
      }
      if owner == 0 || ownerGeneration == 0 {
        return Refused;
      }
      var current := IsFresh(r.resource, e);
      if !current {
        return Refused;
      }
      var next := if id in currentGen then currentGen[id] + 1 else 1;
      Remember(id, r);
      currentGen := currentGen[id := next];
      reservations := reservations[id := r.(generation := next, owner := owner, ownerGeneration := ownerGeneration, transferGeneration := Some(1),
                                            lifecycle := COMMITTED, activationGeneration := None)];
      out := Done(next);
    }

    // ---- resources ----

    method PublishedIndex(p: Publication) returns (e: Envelope)
      ensures e == PublishedEnvelope(View(), p)
    {
      e := FreshEnvelope(p.unit, p.totalCapacity, p.ratio, p.availableFrom, config.horizon);
      ghost var current := e;
      for i := 0 to |p.unavailable|
        invariant e == WithUnavailable(current, p.unavailable[..i]) && e.origin == current.origin && e.horizon == current.horizon
      {
        assert p.unavailable[..i + 1][..i] == p.unavailable[..i];
        var w := p.unavailable[i].interval;
        if !(w.end <= p.availableFrom || w.start >= p.availableFrom + config.horizon) {
          e := SetUnavailable(e, w, 0);
        }
      }
      assert p.unavailable[..|p.unavailable|] == p.unavailable;
    }

    method ReadmitOne(resource: nat, id: nat)
      modifies this`reservations, this`envelopes
      ensures View() == Readmit(old(View()), resource, id) && (id in old(reservations) ==> reservations.Keys == old(reservations).Keys)
    {
      hide Contribute, HoldsCapacity, IsLive;
      if id !in reservations || reservations[id].resource != resource || !HoldsCapacity(reservations[id].lifecycle) {
        return;
      }
      var r := AddContribution(reservations[id]);
      if IsLive(r.lifecycle) {
        r := r.(lifecycle := REVALIDATION_REQUIRED);
      }
      reservations := reservations[id := r];
    }

    /** Walks the reservations of a replaced resource in some order, each once. */
    method ReadmitAll(resource: nat) returns (ghost order: seq<nat>)
      modifies this`reservations, this`envelopes
      ensures View() == Fold(old(View()), order, (x: State, id: nat) => Readmit(x, resource, id))
      ensures Visits(order, old(reservations).Keys)
    {
      hide Readmit, Fold;
      order := [];
      var todo := reservations.Keys;
      ghost var f := (x: State, id: nat) => Readmit(x, resource, id);
      FoldNone(View(), f);
      while todo != {}
        invariant todo <= old(reservations).Keys && reservations.Keys == old(reservations).Keys
        invariant Walked(order, old(reservations).Keys, todo)
        invariant View() == Fold(old(View()), order, f)
        decreases |todo|
      {
        var id :| id in todo;
        FoldStep(old(View()), order, id, f);
        ReadmitOne(resource, id);
        WalkOn(order, old(reservations).Keys, todo, id);
        order := order + [id];
        todo := todo - {id};
      }
      WalkedAll(order, old(reservations).Keys);
    }

    method PublishResource(p: Publication) returns (out: Registration, ghost order: seq<nat>)
      modifies this`workerBoots, this`resources, this`envelopes, this`reservations
      ensures (View(), out) == Registry.PublishResource(old(View()), p, order)
      ensures out == Replaced ==> Visits(order, old(reservations).Keys)
    {
      hide PublishedEnvelope, Fold;
      order := [];
      if p.totalCapacity.value <= 0 || p.totalCapacity.unit != p.unit {
        return Invalid, [];
      }
      if p.id == 0 || p.generation == 0 || p.worker == 0 || p.workerBoot == 0 {
        return Invalid, [];
      }
      if p.worker in workerBoots && workerBoots[p.worker] > p.workerBoot {
        return Stale, [];
      }
      workerBoots := workerBoots[p.worker := p.workerBoot];
      if p.id in resources {
        if p.generation < resources[p.id].generation {
          return Stale, [];
        }
        if p.generation == resources[p.id].generation {
          return DuplicateGeneration, [];
        }
      }
      var e := PublishedIndex(p);
      PublishedIgnoresBoots(old(View()), View(), p);
      var advance := p.id in resources;
      resources := resources[p.id := ResourceOf(p)];
      envelopes := envelopes[p.id := e];
      if advance {
        order := ReadmitAll(p.id);
        return Replaced, order;
      }
      out := RegisteredNew;
    }

    /** Every reservation on the resource that holds capacity must be revalidated. */
    method InvalidateOn(id: nat)
      modifies this`reservations
      ensures reservations.Keys == old(reservations).Keys
      ensures forall k :: k in reservations ==> reservations[k] == Invalidated(old(reservations)[k], id)
    {
      var todo := reservations.Keys;
      while todo != {}
        invariant todo <= old(reservations).Keys == reservations.Keys
        invariant forall k :: k in reservations ==> reservations[k] == if k in todo then old(reservations)[k] else Invalidated(old(reservations)[k], id)
        decreases |todo|
      {
        var k :| k in todo;
        var r := reservations[k];
        if r.resource == id && HoldsCapacity(r.lifecycle) {
          reservations := reservations[k := r.(lifecycle := REVALIDATION_REQUIRED)];
        }
        todo := todo - {k};
      }
    }

    method InvalidateResource(id: nat) returns (out: Outcome<()>)
      modifies this`resources, this`reservations
      ensures (View(), out) == Registry.InvalidateResource(old(View()), id)
    {
      hide Invalidated;
      if id !in resources {
        return Refused;
      }
      resources := resources[id := resources[id].(available := false)];
      InvalidateOn(id);
      InvalidatedIs(old(View()), id, reservations);
      out := Done(());
    }

    /** Every live reservation on the resource must be revalidated; all that hold capacity count. */
    method FlagOn(id: nat) returns (flagged: nat)
      modifies this`reservations
      ensures reservations.Keys == old(reservations).Keys
      ensures forall k :: k in reservations ==> reservations[k] == Flagged(old(reservations)[k], id)
      ensures flagged == |HoldingOn(old(reservations), id, old(reservations).Keys)|
    {
      hide HoldsCapacity, IsLive, HoldingOn;
      flagged := 0;
      var todo := reservations.Keys;
      ghost var m, keys := reservations, reservations.Keys;
      CountEnds(View(), id, 0);
      while todo != {}
        invariant todo <= keys == reservations.Keys
        invariant forall k :: k in reservations ==> reservations[k] == if k in todo then m[k] else Flagged(m[k], id)
        invariant flagged == |HoldingOn(m, id, keys - todo)|
        decreases |todo|
      {
        var k :| k in todo;
        var r := reservations[k];
        Authority.LiveHolds();
        HoldingNext(m, id, todo, k);
        if r.resource == id && HoldsCapacity(r.lifecycle) {
          if IsLive(r.lifecycle) {
            reservations := reservations[k := r.(lifecycle := REVALIDATION_REQUIRED)];
          }
          flagged := flagged + 1;
        }
        todo := todo - {k};
      }
    }

    /** Reports how many reservations on the resource hold capacity. */
    method AdvanceGeneration(id: nat, generation: nat, condition: Byte) returns (out: Outcome<()>, flagged: nat)
      modifies this`resources, this`reservations
      ensures (View(), out) == Registry.AdvanceGeneration(old(View()), id, generation, condition)
      ensures flagged == if out.Done? then |HoldingOn(old(reservations), id, old(reservations).Keys)| else 0
    {
      hide Flagged, HoldingOn;
      if id !in resources {
        return Refused, 0;
      }
      if generation <= resources[id].generation {
        return Refused, 0;
      }
      var available := condition != CONDITION_UNAVAILABLE && condition != CONDITION_INVALIDATED;
      resources := resources[id := resources[id].(generation := generation, available := available)];
      flagged := FlagOn(id);
      AdvancedIs(old(View()), id, generation, condition, reservations);
      out := Done(());
    }

    /** Fresh evidence binds the reservations that waited for it. */
    method RebindOn(id: nat, generation: nat) returns (reactivated: nat)
      modifies this`reservations
      ensures reservations.Keys == old(reservations).Keys
      ensures forall k :: k in reservations ==> reservations[k] == Revalidated(old(reservations)[k], id, generation)
      ensures reactivated == |WaitingOn(old(reservations), id, old(reservations).Keys)|
    {
      hide WaitingOn;
      reactivated := 0;
      var todo := reservations.Keys;
      ghost var m, keys := reservations, reservations.Keys;
      CountEnds(View(), id, 0);
      while todo != {}
        invariant todo <= keys == reservations.Keys
        invariant forall k :: k in reservations ==> reservations[k] == if k in todo then m[k] else Revalidated(m[k], id, generation)
        invariant reactivated == |WaitingOn(m, id, keys - todo)|
        decreases |todo|
      {
        var k :| k in todo;
        var r := reservations[k];
        WaitingNext(m, id, todo, k);
        if r.resource == id && r.lifecycle == REVALIDATION_REQUIRED {
          reservations := reservations[k := r.(lifecycle := PENDING_ACTIVATION, boundGeneration := Some(generation))];
          reactivated := reactivated + 1;
        }
        todo := todo - {k};
      }
    }

    /** Reports how many reservations it bound again. */
    method RevalidateResource(id: nat, p: Publication) returns (out: Outcome<()>, reactivated: nat)
      modifies this`resources, this`reservations, this`workerBoots
      ensures (View(), out) == Registry.RevalidateResource(old(View()), id, p)
      ensures out.Done? ==> Rebinds(old(reservations), reservations, id, p.generation)
      ensures reactivated == if out.Done? then |WaitingOn(old(reservations), id, old(reservations).Keys)| else 0
    {
      hide Revalidated, WaitingOn, Rebinds;
      RevalidationRebinds(View(), id, p);
      if id !in resources {
        return Refused, 0;
      }
      if p.worker in workerBoots && workerBoots[p.worker] > p.workerBoot {
        return Refused, 0;
      }
      workerBoots := workerBoots[p.worker := p.workerBoot];
      resources := resources[id := resources[id].(generation := p.generation, owner := p.worker, ownerBoot := p.workerBoot,
                                                  capabilities := p.capabilities, topology := p.topology, available := true)];
      reactivated := RebindOn(id, p.generation);
      RevalidatedIs(old(View()), id, p, reservations);
      out := Done(());
    }

    method SetEpoch(newEpoch: nat) returns (out: Outcome<()>)
      modifies this`epoch, this`authority
      ensures (View(), out) == Registry.SetEpoch(old(View()), newEpoch)
    {
      if newEpoch < epoch {
        return Refused;
      }
      epoch := newEpoch;
      authority := authority + 1;
      out := Done(());
    }
  }

  /** The registry with one more reservation. */
  ghost function Recorded(s: State, req: Request, r: Reservation): State {
    var s1 := s.(nextReservationId := r.id, currentGen := s.currentGen[r.id := r.generation]);
    var (s2, r2) := Contribute(s1, r);
    Put(s2, r.id, r2).(requests := if req.id in s.requests then s.requests else s.requests[req.id := r.id])
  }

  /** The hold of a commit comes off its envelope whatever its flag says. */
  ghost function SettledBy(s: State, hold: Option<nat>): State
    requires hold.Some? ==> hold.value in s.holds
  {
    if hold.None? then s
    else
      var h := s.holds[hold.value];
      var t := Held(s, h.resource, h.spec.window, -h.spec.quantity.value);
      t.(holds := t.holds[hold.value := h.(applied := false, state := HOLD_COMMITTED)])
  }

  lemma RecordedHolds(s: State, req: Request, r: Reservation)
    ensures Recorded(s, req, r).holds == s.holds
  {
    hide AddCommitted;
  }

  lemma CommitUnfold(s: State, req: Request, hold: Option<nat>)
    ensures if CommitAllowed(s, req, hold) then
              var r := NewReservation(s, req);
              && (hold.Some? ==> hold.value in Recorded(s, req, r).holds)
              && CommitOne(s, req, hold) == (SettledBy(Recorded(s, req, r), hold), Done(r.id))
            else CommitOne(s, req, hold) == (s, Refused)
  {
    hide Assess, AddCommitted, AddHeld;
  }

  ghost function Counted(r: (State, nat), n: nat): (State, nat) {
    (r.0, r.1 + n)
  }

  lemma CommitAllUnfold(s: State, members: seq<Request>, firstHold: nat)
    requires members != []
    ensures var (s1, out) := CommitOne(s, members[0], Some(firstHold + 1));
            CommitAll(s, members, firstHold) == if out.Refused? then (s1, 0) else Counted(CommitAll(s1, members[1..], firstHold + 1), 1)
  {
    hide CommitOne;
  }

  lemma {:induction false} CountHolds(s: State, members: seq<Request>, now: int)
    ensures var (t, ok) := AcquireAll(s, members, now); s.nextHoldId <= t.nextHoldId && (!ok ==> s.nextHoldId < t.nextHoldId)
    decreases |members|
  {
    hide AcquireHold;
    if members != [] {
      var id := s.nextHoldId + 1;
      var (s1, ok) := AcquireHold(s.(nextHoldId := id), MemberSpec(members[0], id), now);
      MirrorSteps.AcquireKeepsCounter(s.(nextHoldId := id), MemberSpec(members[0], id), now);
      if ok { CountHolds(s1, members[1..], now); }
    }
  }

  lemma {:induction false} CountMembers(s: State, members: seq<Request>, firstHold: nat)
    ensures CommitAll(s, members, firstHold).1 <= |members|
    decreases |members|
  {
    hide CommitOne;
    if members != [] {
      CountMembers(CommitOne(s, members[0], Some(firstHold + 1)).0, members[1..], firstHold + 1);
    }
  }

  lemma ContributeKeepsHistory(s: State, r: Reservation)
    ensures Contribute(s, r).0 == s.(envelopes := Contribute(s, r).0.envelopes)
  {
    hide AddCommitted;
  }

  /** Contributions do not look at the history, so remembering first makes no difference. */
  lemma HistoryFirst(s: State, id: nat, old_: Reservation, n: Reservation)
    ensures var t := s.(history := s.history[id := Remembered(HistoryOf(s, id), old_.(contributes := false), s.config.maxHistory)]);
            var (t1, n1) := Contribute(t, n);
            t1.(currentGen := t1.currentGen[id := n1.generation], reservations := t1.reservations[id := n1]) == Adopt(s, id, old_, n)
  {
    hide AddCommitted, Remembered;
  }

  lemma PublishedIgnoresBoots(s: State, t: State, p: Publication)
    requires t.config == s.config
    ensures PublishedEnvelope(t, p) == PublishedEnvelope(s, p)
  {
  }

  lemma InvalidatedIs(s: State, id: nat, m: map<nat, Reservation>)
    requires id in s.resources && m.Keys == s.reservations.Keys && forall k :: k in m ==> m[k] == Invalidated(s.reservations[k], id)
    ensures Registry.InvalidateResource(s, id) == (s.(resources := s.resources[id := s.resources[id].(available := false)], reservations := m), Done(()))
  {
    hide Invalidated;
    assert Registry.InvalidateResource(s, id).0.reservations == m;
  }

  lemma AdvancedIs(s: State, id: nat, generation: nat, condition: Byte, m: map<nat, Reservation>)
    requires id in s.resources && generation > s.resources[id].generation
    requires m.Keys == s.reservations.Keys && forall k :: k in m ==> m[k] == Flagged(s.reservations[k], id)
    ensures var available := condition != CONDITION_UNAVAILABLE && condition != CONDITION_INVALIDATED;
            Registry.AdvanceGeneration(s, id, generation, condition) ==
            (s.(resources := s.resources[id := s.resources[id].(generation := generation, available := available)], reservations := m), Done(()))
  {
    hide Flagged;
    assert Registry.AdvanceGeneration(s, id, generation, condition).0.reservations == m;
  }

  lemma RevalidatedIs(s: State, id: nat, p: Publication, m: map<nat, Reservation>)
    requires id in s.resources && !BootIsStale(s, p.worker, p.workerBoot)
    requires m.Keys == s.reservations.Keys && forall k :: k in m ==> m[k] == Revalidated(s.reservations[k], id, p.generation)
    ensures Registry.RevalidateResource(s, id, p) ==
            (s.(workerBoots := s.workerBoots[p.worker := p.workerBoot],
                resources := s.resources[id := s.resources[id].(generation := p.generation, owner := p.worker, ownerBoot := p.workerBoot,
                capabilities := p.capabilities, topology := p.topology, available := true)],
                reservations := m), Done(()))
  {
    hide Revalidated;
    assert Registry.RevalidateResource(s, id, p).0.reservations == m;
  }

  lemma FoldNone(s: State, f: (State, nat) -> State)
    ensures Fold(s, [], f) == s
  {
  }

  lemma DropKeeps(s: State, id: nat, state: Byte)
    requires id in s.holds
    ensures DropHold(s, id, state).holds.Keys == s.holds.Keys
  {
  }

  /** The order visits exactly the keys no longer to do, each once. */
  ghost predicate Walked(order: seq<nat>, keys: set<nat>, todo: set<nat>) {
    && (forall k :: k in order <==> k in keys && k !in todo)
    && forall i, j :: 0 <= i < j < |order| ==> order[i] != order[j]
  }

  lemma WalkedNone(keys: set<nat>)
    ensures Walked([], keys, keys)
  {
  }

  lemma WalkOn(order: seq<nat>, keys: set<nat>, todo: set<nat>, id: nat)
    requires Walked(order, keys, todo) && id in todo && todo <= keys
    ensures Walked(order + [id], keys, todo - {id})
  {
    forall k ensures k in order + [id] <==> k in keys && k !in todo - {id} {
      assert k in order + [id] <==> k in order || k == id;
    }
    assert id !in order;
  }

  lemma WalkedAll(order: seq<nat>, keys: set<nat>)
    requires Walked(order, keys, {})
    ensures Visits(order, keys)
  {
  }
}
