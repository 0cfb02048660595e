/** Short runs from an empty registry for each property that does not hold of every run: one
    resource of ten units over the instants 0 and 1, and reservations of it over both. */
module Counterexamples {
  import opened Types
  import opened Levels
  import opened Envelopes
  import opened Registry
  import opened Fencing
  import opened Mirrors
  import opened MirrorSteps
  import opened Exactness
  import opened MirrorRuns
  import opened Bundles
  import opened BundleExactness
  import opened Persistence
  import opened Records
  import opened Codec
  import Fences
  import Flags
  import Int64
  import Lengths
  import Recovery

  const SPAN: Interval := Interval(0, 2)

  function Start(maxHistory: nat): State {
    NewState(maxHistory, 256, 2)
  }

  function Pub(generation: nat): Publication {
    Publication(1, 1, 1, generation, 1, UNIT_COUNT, Quantity(10, UNIT_COUNT), 0, 0, 0, 0, 0, 0, 0, 0, 10000, [])
  }

  /** A hard request; if partial, four units will do. */
  function Ask(id: nat, q: int, partial: bool, w: Interval): Request {
    Request(id, 1, 1, UNIT_COUNT, Quantity(q, UNIT_COUNT), partial, Some(Quantity(4, UNIT_COUNT)), w, None, STRENGTH_HARD,
            1, 1, None, 1, TRANSFER_ALLOWED, 0, None, None, NO_TERMS)
  }

  function Env(hard: int, held: int): Envelope {
    Envelope(UNIT_COUNT, Quantity(10, UNIT_COUNT), 10000, 0, 2, map[0 := Level(hard, 0, held, 10), 1 := Level(hard, 0, held, 10)])
  }

  /** One resource, with these hard and held levels at both instants. */
  ghost predicate On(s: State, hard: int, held: int) {
    && s.resources.Keys == {1} && s.resources[1].resourceClass == 1 && s.resources[1].unit == UNIT_COUNT
    && s.resources[1].owner == 1 && s.resources[1].ownerBoot == 1
    && s.envelopes == map[1 := Env(hard, held)]
  }

  ghost predicate Open(s: State, hard: int, held: int) {
    On(s, hard, held) && s.resources[1].available
  }

  /** Reservation `id` of `q` units over the whole span, contributing or cancelled. */
  ghost predicate Booked(s: State, id: nat, q: int, live: bool) {
    && id in s.reservations
    && var r := s.reservations[id];
       && r.generation == 1 && r.resource == 1 && r.window == SPAN && r.strength == STRENGTH_HARD && r.quantity == Quantity(q, UNIT_COUNT)
       && r.unit == UNIT_COUNT && r.policyGeneration == 1 && r.contributes == live && r.lifecycle == (if live then COMMITTED else CANCELLED)
       && r.transfer == TRANSFER_ALLOWED
  }

  // ---- levels ----

  lemma Adds(hard: int, held: int, q: int)
    ensures AddHard(Env(hard, held), SPAN, q) == Env(hard + q, held) && AddHeld(Env(hard, held), SPAN, q) == Env(hard, held + q)
  {
    assert AddHard(Env(hard, held), SPAN, q).levels == Env(hard + q, held).levels;
    assert AddHeld(Env(hard, held), SPAN, q).levels == Env(hard, held + q).levels;
  }

  lemma Room(hard: int, held: int)
    ensures MinHardHeadroom(Env(hard, held), SPAN) == 10 - hard - held
  {
    var e := Env(hard, held);
    assert IsLeast(10 - hard - held, e.levels, 0, 2, HardSlack) by {
      assert 0 in e.levels && HardSlack(e.levels[0]) == 10 - hard - held;
    }
    assert Meets(e.levels, 0, 2) by { assert 0 in e.levels; }
    LeastIsLeast(e.levels, 0, 2, HardSlack, Int64.MAX, 10 - hard - held);
  }

  lemma FreshEnv(s: State, generation: nat)
    requires s.config.horizon == 2
    ensures PublishedEnvelope(s, Pub(generation)) == Env(0, 0)
  {
    assert FreeProfile(0, 2, 10) == Env(0, 0).levels;
  }

  // ---- the operations used ----

  lemma Opens(maxHistory: nat)
    ensures var s := Step(Start(maxHistory), OpPublish(Pub(1), []));
            && s == Start(maxHistory).(workerBoots := map[1 := 1], resources := map[1 := ResourceOf(Pub(1))], envelopes := map[1 := Env(0, 0)])
            && Open(s, 0, 0) && Consistent(s)
  {
    hide PublishedEnvelope, Consistent;
    var s := Start(maxHistory);
    FreshEnv(s, 1);
    NewStateIsConsistent(maxHistory, 256, 2);
    PublishIff(s, Pub(1), []);
  }

  lemma Assessed(s: State, hard: int, held: int, id: nat, q: int, partial: bool)
    requires Open(s, hard, held) && id != 0 && id !in s.requests && 4 <= q
    ensures Assess(s, Ask(id, q, partial, SPAN)) ==
            if 10 - hard - held >= q then Report(Admissible, 1)
            else if partial && 10 - hard - held >= 4 then Report(AdmissibleWithModification, 1) else Report(Rejected, 0)
  {
    hide Env, MinHardHeadroom;
    Room(hard, held);
    assert Candidates(s, Ask(id, q, partial, SPAN)) == {1};
  }

  lemma CommitsRecord(s: State, req: Request)
    requires Struct(s) && CommitAllowed(s, req, None) && Assess(s, req).resource == 1 && 1 in s.resources && s.nextReservationId + 1 !in s.currentGen
    ensures var t := CommitOne(s, req, None).0;
            var id := s.nextReservationId + 1;
            && t == s.(envelopes := t.envelopes, nextReservationId := id, currentGen := t.currentGen, requests := t.requests, reservations := t.reservations)
            && t.reservations == s.reservations[id := ReservationOf(req, 1, s.resources[1].generation, id, 1).(contributes := true)]
            && t.currentGen == s.currentGen[id := 1]
            && t.requests == (if req.id in s.requests then s.requests else s.requests[req.id := id])
  {
    hide Assess, AddCommitted;
    assert 1 in s.envelopes by { KeysAgree(s); }
  }

  lemma CommitsEnv(s: State, hard: int, held: int, req: Request)
    requires Open(s, hard, held) && CommitAllowed(s, req, None) && Assess(s, req).resource == 1 && req.window == SPAN && req.strength == STRENGTH_HARD
    ensures CommitOne(s, req, None).0.envelopes == map[1 := Env(hard + req.quantity.value, held)]
  {
    hide Assess, Contribute, Env, CommitAllowed;
    var r := NewReservation(s, req);
    var s1 := s.(nextReservationId := r.id, currentGen := s.currentGen[r.id := r.generation]);
    ContributesEnv(s1, hard, held, r);
  }

  lemma ContributesEnv(s: State, hard: int, held: int, r: Reservation)
    requires s.envelopes == map[1 := Env(hard, held)] && r.resource == 1 && r.window == SPAN && r.strength == STRENGTH_HARD && !r.contributes
    ensures Contribute(s, r).0.envelopes == map[1 := Env(hard + r.quantity.value, held)]
  {
    hide Env, AddHard;
    Adds(hard, held, r.quantity.value);
  }

  /** A commit of the whole span, admitted in full or in part. */
  lemma Commits(s: State, hard: int, held: int, id: nat, q: int, partial: bool)
    requires Struct(s) && Open(s, hard, held) && id != 0 && id !in s.requests && s.nextReservationId + 1 !in s.currentGen
    requires 10 - hard - held >= q >= 4 || (partial && 10 - hard - held >= 4 && q >= 4)
    ensures var t := Step(s, OpCommit(Ask(id, q, partial, SPAN), None));
            var n := s.nextReservationId + 1;
            && Open(t, hard + q, held) && Booked(t, n, q, true) && t.reservations == s.reservations[n := t.reservations[n]]
            && t == s.(envelopes := t.envelopes, nextReservationId := n, currentGen := s.currentGen[n := 1], requests := s.requests[id := n],
            reservations := t.reservations)
            && t.reservations[n].boundGeneration == Some(s.resources[1].generation)
            && (Consistent(s) && 10 - hard - held >= q ==> Consistent(t))
  {
    hide Assess, Env, Consistent, Struct, CommitOne, CommitGuard;
    var req := Ask(id, q, partial, SPAN);
    Assessed(s, hard, held, id, q, partial);
    CommitsRecord(s, req);
    CommitsEnv(s, hard, held, req);
    if Consistent(s) && 10 - hard - held >= q {
      OrdinaryCommitIsGuarded(s, req, None);
      CommitIff(s, req, None);
    }
  }

  lemma WithdrawsEnv(s: State, hard: int, held: int, r: Reservation)
    requires s.envelopes == map[1 := Env(hard, held)] && r.resource == 1 && r.window == SPAN && r.strength == STRENGTH_HARD && r.contributes
    ensures Withdraw(s, r) == (s.(envelopes := map[1 := Env(hard - r.quantity.value, held)]), r.(contributes := false))
  {
    hide Env, AddHard;
    Adds(hard, held, -r.quantity.value);
    assert AddCommitted(s.envelopes[1], r.strength, r.window, -r.quantity.value) == Env(hard - r.quantity.value, held);
    assert s.envelopes[1 := Env(hard - r.quantity.value, held)] == map[1 := Env(hard - r.quantity.value, held)];
  }

  lemma Cancels(s: State, hard: int, held: int, id: nat, q: int)
    requires Open(s, hard, held) && Booked(s, id, q, true)
    ensures var t := Step(s, OpCancel(id, 1));
            && Open(t, hard - q, held) && Booked(t, id, q, false)
            && t == s.(envelopes := t.envelopes, reservations := s.reservations[id := t.reservations[id]])
            && t.reservations[id] == s.reservations[id].(contributes := false, lifecycle := CANCELLED)
  {
    hide Env, Withdraw;
    WithdrawsEnv(s, hard, held, s.reservations[id]);
  }

  lemma CancelGuarded(s: State, id: nat)
    ensures Guard(s, OpCancel(id, 1)) && WalksAll(s, OpCancel(id, 1))
  {
  }

  // ---- accepted changes ----

  lemma OffRoom(s: State, hard: int, held: int, id: nat, q: int)
    requires On(s, hard, held) && Booked(s, id, q, true)
    ensures Headroom(Withdraw(s, s.reservations[id]).0, true, SPAN, 1) == 10 - (hard - q) - held
  {
    hide Env, MinHardHeadroom, Withdraw;
    WithdrawsEnv(s, hard, held, s.reservations[id]);
    Room(hard - q, held);
  }

  lemma SpanTouched(s: State, hard: int, held: int)
    requires On(s, hard, held)
    ensures TouchesSpan(s, 1, SPAN)
  {
    assert InSpan(s, 1, 0) && Contains(SPAN, 0);
  }

  function Committed(): seq<Op> {
    [OpPublish(Pub(1), []), OpCommit(Ask(1, 10, false, SPAN), None)]
  }

  lemma RunOne(s: State, ops: seq<Op>, op: Op)
    ensures RunOps(s, ops + [op]) == Step(RunOps(s, ops), op)
  {
    hide Step;
    assert (ops + [op])[..|ops|] == ops;
  }

  lemma RunNone(s: State)
    ensures RunOps(s, []) == s
  {
  }

  lemma AfterCommit(maxHistory: nat)
    ensures var s := RunOps(Start(maxHistory), Committed());
            && Consistent(s) && Open(s, 10, 0) && Booked(s, 2, 10, true) && s.nextReservationId == 2 && s.currentGen == map[2 := 1] && s.requests == map[1 := 2]
            && s.reservations.Keys == {2} && s.holds == map[] && s.history == map[] && s.config == Config(maxHistory, 256, 2) && s.sets == map[]
            && s.resources[1] == ResourceOf(Pub(1)) && s.workerBoots == map[1 := 1]
            && s.reservations[2] == ReservationOf(Ask(1, 10, false, SPAN), 1, 1, 2, 1).(contributes := true)
            && s == Start(maxHistory).(workerBoots := s.workerBoots, resources := s.resources, envelopes := s.envelopes, nextReservationId := 2,
            currentGen := s.currentGen, requests := s.requests, reservations := s.reservations)
  {
    hide Consistent, Step, Env;
    var s0 := Start(maxHistory);
    var a, b := OpPublish(Pub(1), []), OpCommit(Ask(1, 10, false, SPAN), None);
    RunNone(s0);
    RunOne(s0, [], a);
    RunOne(s0, [a], b);
    assert [] + [a] == [a] && [a] + [b] == Committed();
    Opens(maxHistory);
    var s1 := Step(s0, a);
    ConsistentIsStruct(s1);
    Commits(s1, 0, 0, 1, 10, false);
    CommittedRecord(s1);
  }

  lemma CommittedRecord(s: State)
    requires Struct(s) && Open(s, 0, 0) && 1 !in s.requests && s.nextReservationId == 1 && s.currentGen == map[] && s.resources[1].generation == 1
    ensures Step(s, OpCommit(Ask(1, 10, false, SPAN), None)).reservations == s.reservations[2 := ReservationOf(Ask(1, 10, false, SPAN), 1, 1, 2, 1).(contributes := true)]
  {
    hide Assess, Env, Struct, CommitOne;
    Assessed(s, 0, 0, 1, 10, false);
    CommitsRecord(s, Ask(1, 10, false, SPAN));
  }

  /** Ten units committed, resized to five: accepted, and the five are in no envelope. */
  lemma AcceptedResizeBreaksMirror()
    ensures var s := RunOps(Start(64), Committed() + [OpResize(2, 1, Quantity(5, UNIT_COUNT), 1)]);
            Resize(RunOps(Start(64), Committed()), 2, 1, Quantity(5, UNIT_COUNT), 1).1.Done? && !Mirror(s)
  {
    hide Consistent, Step, Env, Mirror, TouchesSpan, RunOps, Headroom, Committed, Withdraw;
    var op := OpResize(2, 1, Quantity(5, UNIT_COUNT), 1);
    var s := RunOps(Start(64), Committed());
    AfterCommit(64);
    RunOne(Start(64), Committed(), op);
    OffRoom(s, 10, 0, 2, 10);
    SpanTouched(s, 10, 0);
    AcceptedChangeIff(s, op);
  }

  /** Ten units committed, renewed over the same window: the same. */
  lemma AcceptedRenewalBreaksMirror()
    ensures var s := RunOps(Start(64), Committed() + [OpRenew(2, 1, SPAN, 1)]);
            Renew(RunOps(Start(64), Committed()), 2, 1, SPAN, 1).1.Done? && !Mirror(s)
  {
    hide Consistent, Step, Env, Mirror, TouchesSpan, RunOps, Headroom, Committed, Withdraw;
    var op := OpRenew(2, 1, SPAN, 1);
    var s := RunOps(Start(64), Committed());
    AfterCommit(64);
    RunOne(Start(64), Committed(), op);
    OffRoom(s, 10, 0, 2, 10);
    SpanTouched(s, 10, 0);
    AcceptedChangeIff(s, op);
  }

  // ---- a refused change of an ended record ----

  function Replacing(): seq<Op> {
    Committed() + [OpCancel(2, 1)] + [OpCommit(Ask(2, 10, false, SPAN), None)]
  }

  lemma AfterReplacing()
    ensures var s := RunOps(Start(64), Replacing());
            && Consistent(s) && Open(s, 10, 0) && Booked(s, 2, 10, false) && Booked(s, 3, 10, true) && s.reservations.Keys == {2, 3}
            && s.nextReservationId == 3 && s.holds == map[] && s.config.horizon == 2
            && s.workerBoots == map[1 := 1] && s.resources[1] == ResourceOf(Pub(1))
            && s.reservations[2].boundGeneration == Some(1) && s.reservations[3].boundGeneration == Some(1)
  {
    hide Consistent, Step, Env, RunOps, Committed;
    AfterCommit(64);
    var s := RunOps(Start(64), Committed());
    RunOne(Start(64), Committed(), OpCancel(2, 1));
    RunOne(Start(64), Committed() + [OpCancel(2, 1)], OpCommit(Ask(2, 10, false, SPAN), None));
    Cancels(s, 10, 0, 2, 10);
    StepKeepsIff(s, OpCancel(2, 1));
    CancelGuarded(s, 2);
    var t := Step(s, OpCancel(2, 1));
    ConsistentIsStruct(t);
    Commits(t, 0, 0, 2, 10, false);
  }

  lemma NoRoom(s: State, hard: int, held: int, q: int)
    requires On(s, hard, held) && 10 - hard - held < q
    ensures !RoomFor(s, STRENGTH_HARD, 1, SPAN, q)
  {
    assert InSpan(s, 1, 0) && Contains(SPAN, 0) && !HasRoom(s, STRENGTH_HARD, 1, 0, q);
  }

  /** A resize of the cancelled ten units is refused for want of room, and puts back ten units that
      were not there. */
  lemma RefusedResizeOvercommits()
    ensures var s := RunOps(Start(64), Replacing() + [OpResize(2, 1, Quantity(5, UNIT_COUNT), 1)]);
            Resize(RunOps(Start(64), Replacing()), 2, 1, Quantity(5, UNIT_COUNT), 1).1.Refused? && Mirror(s) && !NoOvercommit(s)
  {
    hide Step, Env, RunOps, Replacing, Struct, Mirror, NoOvercommit, RoomFor;
    var op := OpResize(2, 1, Quantity(5, UNIT_COUNT), 1);
    var s := RunOps(Start(64), Replacing());
    AfterReplacing();
    RunOne(Start(64), Replacing(), op);
    NothingToWithdraw(s, 2);
    Room(10, 0);
    NoRoom(s, 10, 0, 10);
    RefusedChangeIff(s, op);
    StructStep(s, op);
  }

  lemma NothingToWithdraw(s: State, id: nat)
    requires id in s.reservations && !s.reservations[id].contributes
    ensures Withdraw(s, s.reservations[id]) == (s, s.reservations[id])
  {
  }

  // ---- a commit admitted in part ----

  /** Six units committed, then ten of which four would do: admitted, and all ten are committed. */
  lemma PartialCommitOvercommits()
    ensures var s := RunOps(Start(64), [OpPublish(Pub(1), []), OpCommit(Ask(1, 6, false, SPAN), None), OpCommit(Ask(2, 10, true, SPAN), None)]);
            Mirror(s) && !NoOvercommit(s)
  {
    hide Step, Env, RunOps, Struct, Mirror, NoOvercommit, RoomFor, CommitOne;
    var s0 := Start(64);
    var a, b, c := OpPublish(Pub(1), []), OpCommit(Ask(1, 6, false, SPAN), None), OpCommit(Ask(2, 10, true, SPAN), None);
    RunNone(s0);
    RunOne(s0, [], a);
    RunOne(s0, [a], b);
    RunOne(s0, [a, b], c);
    assert [] + [a] == [a] && [a] + [b] == [a, b] && [a, b] + [c] == [a, b, c];
    Opens(64);
    var s1 := Step(s0, a);
    Commits(s1, 0, 0, 1, 6, false);
    var s2 := Step(s1, b);
    Assessed(s2, 6, 0, 2, 10, true);
    NoRoom(s2, 6, 0, 10);
    CommitKeepsBoundIff(s2, Ask(2, 10, true, SPAN), None);
    StepIsCommit(s2, c);
    StructStep(s2, c);
  }

  lemma StepIsCommit(s: State, op: Op)
    requires op.OpCommit? && op.commitHold.None?
    ensures Step(s, op) == CommitOne(s, op.request, None).0
  {
    hide CommitOne;
  }

  // ---- a hold identity used twice ----

  function Spec(): HoldSpec {
    HoldSpec(5, 1, 1, 1, 1, UNIT_COUNT, Quantity(3, UNIT_COUNT), SPAN, 1, true, [])
  }

  lemma Grants(s: State, spec: HoldSpec, held: int)
    requires Open(s, 0, held) && |s.holds| < s.config.maxHolds && ValidSpec(spec) && spec.resourceClass == 1 && spec.window == SPAN
    requires spec.quantity.value <= 10 - held
    ensures var (t, ok) := AcquireHold(s, spec, 0);
            && ok && Open(t, 0, held + spec.quantity.value) && t.config == s.config
            && t.holds == s.holds[spec.id := Hold(spec, HOLD_ACQUIRED, 1, true, HOLD_LEASE, false)]
  {
    hide Env, MinHardHeadroom, Held, Matches, ValidSpec;
    Room(0, held);
    OneCandidate(s, spec, held);
    HoldsEnv(s.(holds := s.holds[spec.id := Hold(spec, HOLD_ACQUIRED, 1, true, HOLD_LEASE, false)]), held, spec.quantity.value);
  }

  lemma OneCandidate(s: State, spec: HoldSpec, held: int)
    requires Open(s, 0, held) && ValidSpec(spec) && spec.resourceClass == 1
    ensures Candidates(s, Probe(spec)) == {1}
  {
    hide Env;
  }

  lemma HoldsEnv(s: State, held: int, q: int)
    requires s.envelopes == map[1 := Env(0, held)]
    ensures Held(s, 1, SPAN, q) == s.(envelopes := map[1 := Env(0, held + q)])
  {
    hide Env, AddHeld;
    Adds(0, held, q);
  }

  /** Three units held twice under one identity: the first three are held for ever. */
  lemma ReusedHoldBreaksMirror()
    ensures var s := RunOps(Start(64), [OpPublish(Pub(1), []), OpCreateHold(Spec(), 0), OpCreateHold(Spec(), 0)]);
            !Mirror(s)
  {
    hide Step, Env, RunOps, Struct, Mirror, NoOvercommit, AcquireHold, TouchesSpan;
    var s0 := Start(64);
    var a, b := OpPublish(Pub(1), []), OpCreateHold(Spec(), 0);
    RunNone(s0);
    RunOne(s0, [], a);
    RunOne(s0, [a], b);
    RunOne(s0, [a, b], b);
    assert [] + [a] == [a] && [a] + [b] == [a, b] && [a, b] + [b] == [a, b, b];
    Opens(64);
    var s1 := Step(s0, a);
    Grants(s1, Spec(), 0);
    HoldStep(s1);
    ConsistentAcquire(s1, Spec(), 0);
    var s2 := Step(s1, b);
    Grants(s2, Spec(), 3);
    HoldStep(s2);
    SpanTouched(s2, 0, 3);
    ReusedHoldKeepsMirrorIff(s2, Spec(), 0);
  }

  lemma HoldStep(s: State)
    ensures Step(s, OpCreateHold(Spec(), 0)) == AcquireHold(s, Spec(), 0).0
  {
    hide AcquireHold;
  }

  // ---- a bundle over a caller's hold ----

  /** The bundle's first hold takes the next identity after 1. */
  function Clash(): HoldSpec {
    Spec().(id := 2)
  }

  function Member(): Request {
    Ask(1, 4, false, SPAN)
  }

  lemma GrantsAt(s: State, hard: int, held: int, spec: HoldSpec)
    requires Open(s, hard, held) && |s.holds| < s.config.maxHolds && ValidSpec(spec) && spec.window == SPAN && spec.resourceClass == 1
    requires spec.quantity.value <= 10 - hard - held
    ensures IsGrantable(s, spec)
  {
    hide Env, MinHardHeadroom;
    Room(hard, held);
    assert Matches(Probe(spec), 1, s.resources[1]);
    assert 1 in Candidates(s, Probe(spec));
  }

  lemma AfterClash()
    ensures var s := RunOps(Start(64), [OpPublish(Pub(1), []), OpCreateHold(Clash(), 0)]);
            && Consistent(s) && Open(s, 0, 3) && s.nextHoldId == 1 && s.holds == map[2 := Hold(Clash(), HOLD_ACQUIRED, 1, true, HOLD_LEASE, false)]
            && s.config.maxHolds == 256 && s.requests == map[]
  {
    hide Step, Env, RunOps, Consistent, AcquireHold;
    var s0 := Start(64);
    var a, b := OpPublish(Pub(1), []), OpCreateHold(Clash(), 0);
    RunNone(s0);
    RunOne(s0, [], a);
    RunOne(s0, [a], b);
    assert [] + [a] == [a] && [a] + [b] == [a, b];
    Opens(64);
    var s1 := Step(s0, a);
    Grants(s1, Clash(), 0);
    StepIs(s1, b);
    ConsistentAcquire(s1, Clash(), 0);
    AcquireKeepsRest(s1, Clash(), 0);
  }

  lemma AcquireKeepsRest(s: State, spec: HoldSpec, now: int)
    ensures var t := AcquireHold(s, spec, now).0; t == s.(envelopes := t.envelopes, holds := t.holds)
  {
    hide Headroom, Candidates, AddHeld, ValidSpec, Best;
  }

  lemma ClashIsGranted(s: State)
    requires Open(s, 0, 3) && s.nextHoldId == 1 && |s.holds| == 1 && s.config.maxHolds == 256 && s.requests == map[]
    ensures LastHold(s, [Member()], 0) == 2
  {
    hide Env, AcquireHold, Assess, IsGrantable;
    var s0 := s.(nextSetId := s.nextSetId + 1);
    var s1 := s0.(nextHoldId := 2);
    var spec := MemberSpec(Member(), 2);
    Assessed(s0, 0, 3, 1, 4, false);
    assert AllAdmitted(s0, [Member()]);
    GrantsAt(s1, 0, 3, spec);
    GrantableIs(s1, spec, 0);
    AcquireKeepsCounter(s1, spec, 0);
    assert [Member()][1..] == [];
  }

  /** Three units held by a caller under identity 2, then a bundle of one member, whose hold takes
      that identity: the three units are held for ever, although the bundle is refused. */
  lemma BundleTakesHold()
    ensures var s := RunOps(Start(64), [OpPublish(Pub(1), []), OpCreateHold(Clash(), 0)]);
            CommitBundle(s, [Member()], 0).1.Refused?
    ensures !Mirror(RunOps(Start(64), [OpPublish(Pub(1), []), OpCreateHold(Clash(), 0), OpBundle([Member()], 0)]))
  {
    hide Step, Env, RunOps, Struct, NoOvercommit, Mirror, TouchesSpan, CommitBundle, LastHold;
    var ops := [OpPublish(Pub(1), []), OpCreateHold(Clash(), 0)];
    var s := RunOps(Start(64), ops);
    RunOne(Start(64), ops, OpBundle([Member()], 0));
    assert ops + [OpBundle([Member()], 0)] == [OpPublish(Pub(1), []), OpCreateHold(Clash(), 0), OpBundle([Member()], 0)];
    AfterClash();
    ClashIsGranted(s);
    SpanTouched(s, 0, 3);
    BundleMirrorIff(s, [Member()], 0);
    StepIs(s, OpBundle([Member()], 0));
    ClashIsRefused(s);
  }

  /** After phase two seven units are held, the lost three and the member's four: it is not admitted
      again. */
  lemma ClashIsRefused(s: State)
    requires Open(s, 0, 3) && s.nextHoldId == 1 && |s.holds| == 1 && s.config.maxHolds == 256 && s.requests == map[]
    ensures CommitBundle(s, [Member()], 0).1.Refused?
  {
    hide Env, AcquireHold, Assess, CommitOne, ReleaseRange, CancelRange, Headroom;
    var s0 := s.(nextSetId := s.nextSetId + 1);
    var s1 := s0.(nextHoldId := 2);
    var spec := MemberSpec(Member(), 2);
    Grants(s1, spec, 3);
    AcquireKeepsRest(s1, spec, 0);
    var t := AcquireHold(s1, spec, 0).0;
    Assessed(t, 0, 7, 1, 4, false);
    NotAllowed(t, Member(), 2);
    RefusedCommit(t, Member(), Some(2));
    assert [Member()][1..] == [];
  }

  lemma NotAllowed(s: State, req: Request, hold: nat)
    requires Assess(s, req).verdict == Rejected
    ensures !CommitAllowed(s, req, Some(hold))
  {
    hide Assess;
  }

  // ---- a quantity in another unit ----

  /** Ten bytes of a resource counted in units. */
  function Odd(): Request {
    Ask(1, 10, false, SPAN).(quantity := Quantity(10, UNIT_BYTES))
  }

  function Using(): seq<Op> {
    [OpPublish(Pub(1), []), OpCommit(Odd(), None), OpActivate(2, 1, Evidence(1, 1, 1, 0)),
     OpConsume(2, 1, Quantity(10, UNIT_COUNT), Evidence(1, 1, 1, 0))]
  }

  lemma OddAssessed(s: State)
    requires Open(s, 0, 0) && 1 !in s.requests
    ensures Assess(s, Odd()) == Report(Admissible, 1)
  {
    hide Env, MinHardHeadroom;
    Room(0, 0);
    assert Candidates(s, Odd()) == {1};
  }

  /** Reservation 2 holds all of Odd's ten, in the unit of the request, and is live or not yet. */
  ghost predicate OddBooked(s: State, lifecycle: Byte) {
    && Open(s, 10, 0) && s.resources[1].generation == 1 && 2 in s.reservations
    && var r := s.reservations[2];
       && r.generation == 1 && r.resource == 1 && r.window == SPAN && r.quantity == Quantity(10, UNIT_BYTES) && r.unit == UNIT_COUNT
       && r.consumed.value == 0 && r.lifecycle == lifecycle && r.boundGeneration == Some(1)
       && (lifecycle == COMMITTED ==> r.activationGeneration == None) && r.consumptionGeneration == None
  }

  lemma OddCommits(s: State)
    requires Struct(s) && Open(s, 0, 0) && 1 !in s.requests && s.nextReservationId == 1 && s.currentGen == map[] && s.resources[1].generation == 1
    ensures OddBooked(Step(s, OpCommit(Odd(), None)), COMMITTED)
  {
    hide Assess, Env, Struct, CommitOne;
    OddAssessed(s);
    CommitsRecord(s, Odd());
    CommitsEnv(s, 0, 0, Odd());
    StepIsCommit(s, OpCommit(Odd(), None));
  }

  lemma OddActivates(s: State)
    requires OddBooked(s, COMMITTED)
    ensures OddBooked(Step(s, OpActivate(2, 1, Evidence(1, 1, 1, 0))), ACTIVE)
  {
    hide Env;
  }

  lemma OddConsumes(s: State)
    requires OddBooked(s, ACTIVE)
    ensures var t := Step(s, OpConsume(2, 1, Quantity(10, UNIT_COUNT), Evidence(1, 1, 1, 0)));
            2 in t.reservations && t.reservations[2].consumed.value == t.reservations[2].quantity.value && t.reservations[2].lifecycle == PARTIALLY_CONSUMED
  {
    hide Env;
  }

  /** Ten of ten are consumed, and the reservation is still only partly so. */
  lemma UsedUpIsNotConsumed()
    ensures var s := RunOps(Start(64), Using());
            2 in s.reservations && s.reservations[2].consumed.value == s.reservations[2].quantity.value && s.reservations[2].lifecycle == PARTIALLY_CONSUMED
  {
    hide Step, RunOps, OddBooked, Env, Consistent;
    var s0 := Start(64);
    var u := Using();
    RunNone(s0);
    RunOne(s0, [], u[0]);
    RunOne(s0, [u[0]], u[1]);
    RunOne(s0, [u[0], u[1]], u[2]);
    RunOne(s0, [u[0], u[1], u[2]], u[3]);
    assert [] + [u[0]] == [u[0]] && [u[0]] + [u[1]] == [u[0], u[1]] && [u[0], u[1]] + [u[2]] == [u[0], u[1], u[2]] && [u[0], u[1], u[2]] + [u[3]] == u;
    Opens(64);
    ConsistentIsStruct(Step(s0, u[0]));
    OddCommits(Step(s0, u[0]));
    OddActivates(RunOps(s0, [u[0], u[1]]));
    OddConsumes(RunOps(s0, [u[0], u[1], u[2]]));
  }

  // ---- replacements ----

  lemma Replaces(s: State, order: seq<nat>)
    requires 1 in s.resources && s.resources[1].generation == 1 && s.workerBoots == map[1 := 1]
    ensures PublishResource(s, Pub(2), order).1 == Replaced
    ensures Step(s, OpPublish(Pub(2), order)) == PublishResource(s, Pub(2), order).0
  {
    hide Fold, Readmit, PublishedEnvelope;
  }

  lemma NewSpan(s: State)
    requires s.config.horizon == 2
    ensures InSpan(Reinstalled(s, Pub(2)), 1, 0) && LevelOf(Reinstalled(s, Pub(2)), 1, 0).cap == 10
  {
    hide PublishedEnvelope;
    FreshEnv(s, 2);
  }

  /** Ten units committed and flagged, then a new generation: its envelope shows none of them. */
  lemma ReplacementBreaksMirror()
    ensures var s := RunOps(Start(64), Committed() + [OpPublish(Pub(2), [2])]); !Mirror(s)
  {
    hide Step, Env, RunOps, Struct, Mirror, NoOvercommit, Committed, PublishResource, Reinstalled;
    var s := RunOps(Start(64), Committed());
    AfterCommit(64);
    RunOne(Start(64), Committed(), OpPublish(Pub(2), [2]));
    Replaces(s, [2]);
    NewSpan(s);
    assert Burdened(s, 1, 0);
    ReplacementKeepsMirrorIff(s, Pub(2), [2]);
  }

  function Ended(): seq<Op> {
    Replacing() + [OpCancel(3, 1)] + [OpInvalidate(1)] + [OpActivate(2, 1, Evidence(1, 1, 1, 0))] + [OpActivate(3, 1, Evidence(1, 1, 1, 0))]
  }

  lemma Invalidates(s: State)
    requires Consistent(s) && Open(s, 0, 0) && Booked(s, 2, 10, false) && Booked(s, 3, 10, false) && s.reservations.Keys == {2, 3}
    ensures var t := Step(s, OpInvalidate(1));
            && Consistent(t) && On(t, 0, 0) && !t.resources[1].available && t.reservations == s.reservations && t.holds == s.holds && t.config == s.config
            && t.workerBoots == s.workerBoots && t.resources[1].generation == s.resources[1].generation
  {
    hide Consistent, Env;
    StepKeepsIff(s, OpInvalidate(1));
    assert forall k :: k in s.reservations ==> Invalidated(s.reservations[k], 1) == s.reservations[k];
  }

  /** Activating a cancelled record of an unavailable resource sends it to revalidation, which
      counts as holding capacity. */
  lemma Revives(s: State, id: nat)
    requires Consistent(s) && On(s, 0, 0) && !s.resources[1].available && Booked(s, id, 10, false)
    ensures var t := Step(s, OpActivate(id, 1, Evidence(1, 1, 1, 0)));
            Consistent(t) && t == s.(reservations := s.reservations[id := s.reservations[id].(lifecycle := REVALIDATION_REQUIRED)])
  {
    hide Consistent, Env;
    StepKeepsIff(s, OpActivate(id, 1, Evidence(1, 1, 1, 0)));
  }

  /** Two reservations of the whole resource that count as holding capacity and contribute nothing. */
  ghost predicate TwoReturn(s: State) {
    && s.reservations.Keys == {2, 3}
    && forall id :: id in {2, 3} ==>
                      var r := s.reservations[id];
                      && r.resource == 1 && r.window == SPAN && r.strength == STRENGTH_HARD && r.quantity.value == 10
                      && !r.contributes && r.lifecycle == REVALIDATION_REQUIRED
  }

  lemma AfterEnded()
    ensures var s := RunOps(Start(64), Ended());
            && Consistent(s) && On(s, 0, 0) && TwoReturn(s) && s.holds == map[]
            && s.config.horizon == 2 && s.workerBoots == map[1 := 1] && s.resources[1].generation == 1
  {
    hide Consistent, Step, Env, RunOps, Replacing;
    AfterReplacing();
    var ops1 := Replacing() + [OpCancel(3, 1)];
    var ops2 := ops1 + [OpInvalidate(1)];
    var ops3 := ops2 + [OpActivate(2, 1, Evidence(1, 1, 1, 0))];
    RunOne(Start(64), Replacing(), OpCancel(3, 1));
    RunOne(Start(64), ops1, OpInvalidate(1));
    RunOne(Start(64), ops2, OpActivate(2, 1, Evidence(1, 1, 1, 0)));
    RunOne(Start(64), ops3, OpActivate(3, 1, Evidence(1, 1, 1, 0)));
    Cancels(RunOps(Start(64), Replacing()), 10, 0, 3, 10);
    StepKeepsIff(RunOps(Start(64), Replacing()), OpCancel(3, 1));
    CancelGuarded(RunOps(Start(64), Replacing()), 3);
    Invalidates(RunOps(Start(64), ops1));
    Revives(RunOps(Start(64), ops2), 2);
    Revives(RunOps(Start(64), ops3), 3);
  }

  /** Their flags say nothing contributes, their lifecycles that they hold capacity. */
  lemma RevivedFlagsDisagree()
    ensures !FlagsMatch(RunOps(Start(64), Ended()))
  {
    hide RunOps, Ended, Env, Consistent;
    AfterEnded();
    var s := RunOps(Start(64), Ended());
    assert !s.reservations[2].contributes && HoldsCapacity(s.reservations[2].lifecycle);
  }

  lemma TwentyReturn(s: State)
    requires TwoReturn(s)
    ensures HardSum(Returning(s, 1), 1, 0) == 20
  {
    hide HardSum;
    var m := Returning(s, 1);
    var r2, r3 := s.reservations[2].(contributes := true), s.reservations[3].(contributes := true);
    assert m == map[2 := r2, 3 := r3];
    var none: map<nat, Reservation> := map[];
    HardSumPut(none, 2, r2, 1, 0);
    HardSumPut(none[2 := r2], 3, r3, 1, 0);
    EmptySums(1, 0);
    assert none[2 := r2][3 := r3] == m;
  }

  /** A new generation of ten units re-adds both: twenty units are committed. */
  lemma ReplacementOvercommits()
    ensures var s := RunOps(Start(64), Ended() + [OpPublish(Pub(2), [2, 3])]);
            Mirror(s) && !NoOvercommit(s)
  {
    hide Step, Env, RunOps, Struct, Mirror, NoOvercommit, Ended, PublishResource, Reinstalled, HardSum, SoftSum;
    var s := RunOps(Start(64), Ended());
    AfterEnded();
    RunOne(Start(64), Ended(), OpPublish(Pub(2), [2, 3]));
    Replaces(s, [2, 3]);
    NewSpan(s);
    TwentyReturn(s);
    assert !Accommodates(s, Pub(2), 0);
    assert forall x :: !Burdened(s, 1, x);
    ReplacementKeepsMirrorIff(s, Pub(2), [2, 3]);
    ReplacementKeepsIff(s, Pub(2), [2, 3]);
    StructStep(s, OpPublish(Pub(2), [2, 3]));
  }

  // ---- registries of one record ----

  /** One of the generations of the one reservation made for a request. */
  predicate IsOf(r: Reservation, req: Request) {
    && r == ReservationOf(req, 1, 1, 2, 1).(generation := r.generation, contributes := r.contributes, transferGeneration := r.transferGeneration)
    && r.generation <= 101 && (r.transferGeneration == None || r.transferGeneration == Some(1))
  }

  /** The resource, one reservation with at most a hundred generations behind it, nothing else. */
  ghost predicate Sole(s: State, req: Request) {
    && s.epoch == 1 && s.authority == 1 && s.nextReservationId == 2 && s.nextHoldId == 1 && s.nextSetId == 1
    && s.resources == map[1 := ResourceOf(Pub(1))] && s.envelopes.Keys == {1}
    && s.envelopes[1].origin == 0 && s.envelopes[1].horizon == 2 && s.envelopes[1].ratio == 10000
    && s.workerBoots == map[1 := 1] && s.requests == map[1 := 2] && s.currentGen.Keys == {2} && s.currentGen[2] <= 101
    && s.reservations.Keys == {2} && IsOf(s.reservations[2], req)
    && s.history.Keys <= {2} && |HistoryOf(s, 2)| <= 100 && (forall r :: r in HistoryOf(s, 2) ==> IsOf(r, req))
    && s.holds == map[] && s.sets == map[]
  }

  lemma RecordRanged(r: Reservation, q: int, w: Interval)
    requires IsOf(r, Ask(1, q, false, w)) && IsI64(q) && RangedWindow(w)
    ensures ReservationRanged(r) && r.terms.provenance == []
    ensures 0 <= q && ReadableWindow(w) ==> ReservationReadable(r)
  {
  }

  lemma SoleRanged(s: State, q: int, w: Interval)
    requires Sole(s, Ask(1, q, false, w)) && IsI64(q) && RangedWindow(w)
    ensures Ranged(s)
  {
    hide ReservationRanged, IsOf;
    RecordRanged(s.reservations[2], q, w);
    forall k | k in s.history ensures |s.history[k]| < U32_LIMIT && forall r :: r in s.history[k] ==> ReservationRanged(r) {
      assert s.history[k] == HistoryOf(s, 2);
      forall r | r in s.history[k] ensures ReservationRanged(r) { RecordRanged(r, q, w); }
    }
    assert ResourceRanged(Stored(s)[1]);
  }

  lemma {:induction false} NoMoreThan(order: seq<nat>, keys: set<nat>)
    requires forall i :: 0 <= i < |order| ==> order[i] in keys
    requires forall i, j :: 0 <= i < j < |order| ==> order[i] != order[j]
    ensures |order| <= |keys|
    decreases |order|
  {
    if order != [] {
      NoMoreThan(order[..|order| - 1], keys - {order[|order| - 1]});
    }
  }

  lemma OneVisited(order: seq<nat>, keys: set<nat>, k: nat)
    requires Visits(order, keys) && keys <= {k}
    ensures |order| <= 1
  {
    assert forall i :: 0 <= i < |order| ==> order[i] in order;
    NoMoreThan(order, keys);
    assert keys == {} || keys == {k};
  }

  /** At most one entry a map. */
  ghost predicate AtMostOne(w: Walk) {
    && |w.resources| <= 1 && |w.boots| <= 1 && |w.requests| <= 1 && |w.reservations| <= 1
    && |w.generations| <= 1 && |w.history| <= 1 && |w.holds| <= 1 && |w.sets| <= 1
  }

  lemma SoleWalks(s: State, req: Request, w: Walk)
    requires Sole(s, req) && Walks(s, w)
    ensures AtMostOne(w)
  {
    hide IsOf, Visits;
    OneVisited(w.resources, s.resources.Keys, 1);
    OneVisited(w.boots, s.workerBoots.Keys, 1);
    OneVisited(w.requests, s.requests.Keys, 1);
    OneVisited(w.reservations, s.reservations.Keys, 2);
    OneVisited(w.generations, s.currentGen.Keys, 2);
    OneVisited(w.history, s.history.Keys, 2);
    OneVisited(w.holds, s.holds.Keys, 0);
    OneVisited(w.sets, s.sets.Keys, 0);
  }

  lemma SoleIsModest(s: State, q: int, v: Interval, w: Walk)
    requires Sole(s, Ask(1, q, false, v)) && IsI64(q) && RangedWindow(v) && AtMostOne(w)
    ensures Bounded(w) && Countable(w) && Lengths.IsModest(s, w)
  {
    hide ReservationRanged, IsOf;
    RecordRanged(s.reservations[2], q, v);
    forall k | k in s.history ensures Lengths.ModestPast(s.history[k]) {
      assert s.history[k] == HistoryOf(s, 2);
      forall r | r in s.history[k] ensures ReservationRanged(r) && r.terms.provenance == [] { RecordRanged(r, q, v); }
    }
  }

  lemma SoleReadable(s: State, q: int, v: Interval)
    requires Sole(s, Ask(1, q, false, v)) && 0 <= q && IsI64(q) && RangedWindow(v) && ReadableWindow(v)
    ensures Readable(s)
  {
    hide ReservationReadable, IsOf;
    RecordRanged(s.reservations[2], q, v);
    forall k | k in s.history ensures |s.history[k]| <= MAX_COLLECTION && forall r :: r in s.history[k] ==> ReservationReadable(r) {
      assert s.history[k] == HistoryOf(s, 2);
      forall r | r in s.history[k] ensures ReservationReadable(r) { RecordRanged(r, q, v); }
    }
  }

  // ---- what is saved and cannot be loaded ----

  /** One commit of an empty window, which has headroom whatever is committed: a guarded run, and no
      file written at its end, in whatever order the maps are walked, is accepted. */
  lemma EmptyWindowCannotBeLoaded(w: Walk, reservations: seq<nat>, holds: seq<nat>)
    requires Walks(RunOps(Start(64), [OpPublish(Pub(1), []), OpCommit(Ask(1, 4, false, Interval(0, 0)), None)]), w)
    ensures var s := RunOps(Start(64), [OpPublish(Pub(1), []), OpCommit(Ask(1, 4, false, Interval(0, 0)), None)]);
            Consistent(s) && Ranged(s) && Countable(w) && Load(Save(s, w), reservations, holds).None?
  {
    hide Step, Env, RunOps, Struct, Mirror, NoOvercommit, Load, Save, Ranged, Walks, Countable, Bounded, Openable, Sized, Sole, AtMostOne;
    EmptyCommitted();
    var s := RunOps(Start(64), [OpPublish(Pub(1), []), OpCommit(Ask(1, 4, false, Interval(0, 0)), None)]);
    SoleRanged(s, 4, Interval(0, 0));
    SoleWalks(s, Ask(1, 4, false, Interval(0, 0)), w);
    SoleIsModest(s, 4, Interval(0, 0), w);
    assert !ReservationReadable(s.reservations[2]);
    LoadAcceptsIff(s, w, reservations, holds);
  }

  lemma EmptyCommitted()
    ensures var s := RunOps(Start(64), [OpPublish(Pub(1), []), OpCommit(Ask(1, 4, false, Interval(0, 0)), None)]);
            Consistent(s) && 2 in s.reservations && s.reservations[2].window == Interval(0, 0) && Sole(s, Ask(1, 4, false, Interval(0, 0)))
  {
    hide Step, RunOps, Consistent, Struct, CommitOne, Assess, CommitGuard, NewReservation, MovedBy;
    var s0, req := Start(64), Ask(1, 4, false, Interval(0, 0));
    var a, b := OpPublish(Pub(1), []), OpCommit(req, None);
    RunNone(s0);
    RunOne(s0, [], a);
    RunOne(s0, [a], b);
    assert [] + [a] == [a] && [a] + [b] == [a, b];
    Opens(64);
    var s1 := Step(s0, a);
    ConsistentIsStruct(s1);
    EmptyAssessed(s1);
    CommitsRecord(s1, req);
    CommitMoves(s1, req);
    MovedSpans(s1, CommitOne(s1, req, None).0, NewReservation(s1, req), NewReservation(s1, req).(contributes := true));
    OrdinaryCommitIsGuarded(s1, req, None);
    CommitIff(s1, req, None);
    StepIsCommit(s1, b);
    CommitIsOne(s1, req);
  }

  lemma MovedSpans(s: State, t: State, r: Reservation, r': Reservation)
    requires MovedBy(s, t, r, r')
    ensures SameSpans(s, t)
  {
  }

  lemma CommitIsOne(s: State, req: Request)
    ensures Commit(s, req, None) == CommitOne(s, req, None)
  {
    hide CommitOne;
  }

  lemma EmptyAssessed(s: State)
    requires Open(s, 0, 0) && 1 !in s.requests
    ensures Assess(s, Ask(1, 4, false, Interval(0, 0))) == Report(Admissible, 1)
  {
    hide Env;
    assert Candidates(s, Ask(1, 4, false, Interval(0, 0))) == {1};
  }

  // ---- a history the default bound does not admit ----

  function Passing(n: nat): seq<Op> {
    if n == 0 then Committed() else Passing(n - 1) + [OpTransfer(2, n, 1, 1, Evidence(1, 1, 1, 0))]
  }

  /** After `n` transfers the record is at generation n + 1 with n generations behind it. */
  ghost predicate Passed(s: State, n: nat) {
    && Consistent(s) && Open(s, 10, 0) && Sole(s, Ask(1, 10, false, SPAN))
    && s.reservations[2].generation == n + 1 && s.currentGen == map[2 := n + 1] && |HistoryOf(s, 2)| == n && s.config.maxHistory == 100
  }

  lemma TransferPasses(s: State, n: nat)
    requires Passed(s, n) && n < 100
    ensures Passed(Step(s, OpTransfer(2, n + 1, 1, 1, Evidence(1, 1, 1, 0))), n + 1)
  {
    hide Consistent, Env, Guard;
    TransferKeeps(s, OpTransfer(2, n + 1, 1, 1, Evidence(1, 1, 1, 0)));
  }

  lemma TransferKeeps(s: State, op: Op)
    requires Consistent(s) && op.OpTransfer?
    ensures Consistent(Step(s, op))
  {
    hide Consistent, Step;
    StepKeepsIff(s, op);
  }

  lemma CommittedIsPassed()
    ensures Passed(RunOps(Start(100), Committed()), 0)
  {
    hide Consistent, Step, RunOps, Committed;
    AfterCommit(100);
  }

  lemma {:induction false} AfterPassing(n: nat)
    requires n <= 100
    ensures Passed(RunOps(Start(100), Passing(n)), n)
  {
    hide Consistent, Step, Env, RunOps, Committed;
    if n == 0 {
      CommittedIsPassed();
      assert Passing(0) == Committed();
    } else {
      AfterPassing(n - 1);
      RunOne(Start(100), Passing(n - 1), OpTransfer(2, n, 1, 1, Evidence(1, 1, 1, 0)));
      TransferPasses(RunOps(Start(100), Passing(n - 1)), n - 1);
    }
  }

  lemma PassingFiled(n: nat)
    ensures var s := RunOps(Start(100), Passing(n)); Struct(s) ==> Filed(s) && Spanned(s)
  {
    hide Struct, RunOps, Recovery.Kept, Filed, Spanned, Passing;
    Recovery.NewKept(100, 256, 2);
    NewStateIsConsistent(100, 256, 2);
    ConsistentIsStruct(Start(100));
    Recovery.KeptRun(Start(100), Passing(n));
    if Struct(RunOps(Start(100), Passing(n))) { Recovery.KeptIsFiled(RunOps(Start(100), Passing(n))); }
  }

  /** A runtime configured for a hundred generations, sixty-five transfers of one reservation: what
      is loaded afterwards keeps more history than the default bound it runs under. */
  lemma LongHistoryOutlivesItsBound(w: Walk, reservations: seq<nat>, holds: seq<nat>)
    requires var s := RunOps(Start(100), Passing(65));
             Walks(s, w) && Visits(reservations, s.reservations.Keys) && Visits(holds, s.holds.Keys)
    ensures var s := RunOps(Start(100), Passing(65));
            && Consistent(s) && Ranged(s) && Countable(w) && Load(Save(s, w), reservations, holds).Some?
            && !Struct(Load(Save(s, w), reservations, holds).value)
  {
    hide Step, Env, RunOps, Mirror, NoOvercommit, Load, Save, Ranged, Readable, Walks, Countable, Bounded, Openable, Sized, Passing, Visits, Reapply, Raw, SameSpans,
         Filed, Spanned, Struct, Sole, AtMostOne, Lengths.IsModest;
    AfterPassing(65);
    var s := RunOps(Start(100), Passing(65));
    PassingFiled(65);
    SoleRanged(s, 10, SPAN);
    SoleReadable(s, 10, SPAN);
    SoleWalks(s, Ask(1, 10, false, SPAN), w);
    SoleIsModest(s, 10, SPAN, w);
    Lengths.ModestIsSized(s, w);
    SpannedOpens(s);
    LoadOfSave(s, w, reservations, holds);
    ReapplyMirrors(s, reservations, holds);
    SoleHas(s, Ask(1, 10, false, SPAN));
    StillLong(s, Reapply(Raw(s), reservations, holds));
  }

  lemma SoleHas(s: State, req: Request)
    requires Sole(s, req)
    ensures 2 in s.reservations
  {
  }

  lemma StillLong(s: State, t: State)
    requires Struct(s) && 2 in s.reservations && |HistoryOf(s, 2)| == 65 && t == Recovered(s).(envelopes := t.envelopes)
    ensures !Struct(t)
  {
    assert HistoryOf(t, 2) == HistoryOf(s, 2);
    assert 2 in t.reservations && !GenerationsOk(t, 2);
  }
}
