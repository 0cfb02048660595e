/** The runtime down to the index. Each operation's writes, in the order it makes them, lead from
    the envelopes it finds to those it leaves; every envelope in between is in order; so the tree
    behind an envelope, whatever was read in between, shows the envelope's levels and every number
    written on the way fits 64 bits. */
module Machines {
  import opened Types
  import opened Levels
  import opened Envelopes
  import opened Registry
  import opened Fencing
  import opened Mirrors
  import opened MirrorSteps
  import opened Exactness
  import opened Bundles
  import opened BundleExactness
  import opened MirrorRuns
  import opened Edits
  import Int64
  import Fences
  import TreapMachine
  import TreapRun
  import TreapStores

  // ---- levels in order ----

  ghost function EffMax(e: Envelope): int {
    Int64.EffCapacity(e.capacity.value, e.ratio)
  }

  /** Tight: hard commitments and holds together stay within capacity. Otherwise each does. */
  ghost function BoundsOf(e: Envelope, tight: bool): TreapMachine.Bounds {
    TreapMachine.Bounds(e.capacity.value, EffMax(e), if tight then e.capacity.value else 2 * e.capacity.value)
  }

  /** The bounds leave room in 64 bits. */
  ghost predicate Fitting(e: Envelope, tight: bool) {
    0 <= e.ratio && 0 <= e.capacity.value && BoundsOf(e, tight).load + EffMax(e) <= Int64.MAX
  }

  ghost predicate InOrder(es: map<nat, Envelope>, tight: bool) {
    forall k :: k in es && Fitting(es[k], tight) ==> TreapMachine.ProfileOk(es[k].levels, BoundsOf(es[k], tight))
  }

  ghost predicate OrderlyAt(v: Level, e: Envelope, tight: bool) {
    && 0 <= v.hard && 0 <= v.held && 0 <= v.soft <= Max(0, EffOf(e.ratio)(v.cap))
    && v.hard <= v.cap && v.held <= v.cap && 0 <= v.cap <= e.capacity.value
    && (tight ==> v.hard + v.held <= v.cap)
  }

  ghost predicate Orderly(s: State, tight: bool) {
    forall resource, x :: InSpan(s, resource, x) ==> OrderlyAt(LevelOf(s, resource, x), s.envelopes[resource], tight)
  }

  lemma EffWithin(e: Envelope, cap: int)
    requires 0 <= e.ratio && 0 <= cap <= e.capacity.value <= Int64.MAX
    ensures 0 <= EffOf(e.ratio)(cap) <= EffMax(e)
  {
    hide Int64.EffCapacity;
    Int64.EffCapacityIsSaturatingFloor(cap, e.capacity.value, e.ratio);
  }

  lemma FittingFits(e: Envelope, tight: bool)
    requires Fitting(e, tight)
    ensures e.capacity.value <= Int64.MAX && 0 <= EffMax(e)
  {
    hide Int64.EffCapacity;
    Int64.EffCapacityNonNegative(e.capacity.value, e.ratio);
  }

  lemma OrderlyInOrder(s: State, tight: bool)
    requires Orderly(s, tight)
    ensures InOrder(s.envelopes, tight)
  {
    hide Int64.EffCapacity;
    forall k | k in s.envelopes && Fitting(s.envelopes[k], tight)
      ensures TreapMachine.ProfileOk(s.envelopes[k].levels, BoundsOf(s.envelopes[k], tight))
    {
      var e := s.envelopes[k];
      FittingFits(e, tight);
      forall x | x in e.levels ensures TreapMachine.LevelOk(e.levels[x], BoundsOf(e, tight)) {
        assert InSpan(s, k, x) && OrderlyAt(LevelOf(s, k, x), e, tight);
        EffWithin(e, e.levels[x].cap);
      }
    }
  }

  /** Capacity at an instant never exceeds what was published; spans are not empty. */
  ghost predicate Capped(s: State) {
    && s.config.horizon > 0
    && (forall k :: k in s.envelopes ==> s.envelopes[k].horizon > 0)
    && forall resource, x :: InSpan(s, resource, x) ==> 0 <= LevelOf(s, resource, x).cap <= s.envelopes[resource].capacity.value
  }

  ghost predicate Steady(s: State) {
    Consistent(s) && Capped(s)
  }

  lemma SteadyIsOrderly(s: State, tight: bool)
    requires Steady(s)
    ensures Orderly(s, tight)
  {
    hide Struct, EffOf, Max;
    forall resource, x | InSpan(s, resource, x) ensures OrderlyAt(LevelOf(s, resource, x), s.envelopes[resource], tight) {
      LevelsNonNegative(s, resource, x);
      assert FitsAt(s, resource, x);
    }
  }

  // ---- edits that lead from one state to another ----

  /** The edits lead from one set of envelopes to another through envelopes that are in order. */
  ghost predicate Moves(es: map<nat, Envelope>, edits: seq<Edit>, fs: map<nat, Envelope>, tight: bool) {
    && Replay(es, edits) == fs && InstallsFresh(edits)
    && forall i :: 0 <= i <= |edits| ==> InOrder(Replay(es, edits[..i]), tight)
  }

  /** They do, and the state they lead to is steady. */
  ghost predicate Goes(s: State, edits: seq<Edit>, t: State, tight: bool) {
    Moves(s.envelopes, edits, t.envelopes, tight) && Steady(t)
  }

  lemma MovesThen(es: map<nat, Envelope>, a: seq<Edit>, fs: map<nat, Envelope>, b: seq<Edit>, gs: map<nat, Envelope>, tight: bool)
    requires Moves(es, a, fs, tight) && Moves(fs, b, gs, tight)
    ensures Moves(es, a + b, gs, tight)
  {
    hide InOrder, Replay;
    ReplayConcat(es, a, b);
    forall i | 0 <= i <= |a + b| ensures InOrder(Replay(es, (a + b)[..i]), tight) {
      if i <= |a| {
        assert (a + b)[..i] == a[..i];
      } else {
        assert (a + b)[..i] == a + b[..i - |a|];
        ReplayConcat(es, a, b[..i - |a|]);
      }
    }
  }

  lemma GoesThen(s: State, a: seq<Edit>, t: State, b: seq<Edit>, u: State, tight: bool)
    requires Goes(s, a, t, tight) && Goes(t, b, u, tight)
    ensures Goes(s, a + b, u, tight)
  {
    hide Moves, Steady;
    MovesThen(s.envelopes, a, t.envelopes, b, u.envelopes, tight);
  }

  lemma MovesOne(es: map<nat, Envelope>, edit: Edit, tight: bool)
    requires InOrder(es, tight) && InOrder(ReplayOne(es, edit), tight)
    requires edit.Install? ==> edit.envelope.levels == FreeLevels(edit.envelope)
    ensures Moves(es, [edit], ReplayOne(es, edit), tight)
  {
    hide InOrder, ReplayOne, FreeLevels;
    var edits := [edit];
    assert edits[..0] == [] && edits[..1] == edits;
    assert Replay(es, []) == es && Replay(es, edits) == ReplayOne(es, edit);
  }

  lemma MovesNone(es: map<nat, Envelope>, tight: bool)
    requires InOrder(es, tight)
    ensures Moves(es, [], es, tight)
  {
    hide InOrder;
  }

  /** Only levels may differ, and not the capacities among them. */
  ghost predicate Kept(s: State, t: State) {
    && SameSpans(s, t) && t.config == s.config
    && forall resource, x :: InSpan(s, resource, x) ==> LevelOf(t, resource, x).cap == LevelOf(s, resource, x).cap
  }

  lemma KeptCapped(s: State, t: State)
    requires Capped(s) && Kept(s, t)
    ensures Capped(t)
  {
    forall resource, x | InSpan(t, resource, x) ensures 0 <= LevelOf(t, resource, x).cap <= t.envelopes[resource].capacity.value {
      assert InSpan(s, resource, x);
    }
  }

  /** At most one addition leads from one state to the other. */
  ghost predicate OneWrite(s: State, edits: seq<Edit>, t: State) {
    && (edits == [] || (|edits| == 1 && edits[0].Write?))
    && Replay(s.envelopes, edits) == t.envelopes && Kept(s, t)
  }

  lemma OneWriteMoves(s: State, edits: seq<Edit>, t: State, tight: bool)
    requires OneWrite(s, edits, t) && Orderly(s, tight) && Orderly(t, tight)
    ensures Moves(s.envelopes, edits, t.envelopes, tight)
  {
    hide Orderly, ReplayOne, Kept, InOrder;
    OrderlyInOrder(s, tight);
    OrderlyInOrder(t, tight);
    if edits == [] {
      MovesNone(s.envelopes, tight);
    } else {
      assert edits[..0] == [] && edits == [edits[0]];
      assert Replay(s.envelopes, edits) == ReplayOne(Replay(s.envelopes, edits[..0]), edits[0]);
      MovesOne(s.envelopes, edits[0], tight);
    }
  }

  lemma OneWriteGoes(s: State, edits: seq<Edit>, t: State, tight: bool)
    requires Steady(s) && Consistent(t) && OneWrite(s, edits, t)
    ensures Goes(s, edits, t, tight)
  {
    hide Consistent, Capped, Kept, Orderly, Moves;
    KeptCapped(s, t);
    SteadyIsOrderly(s, tight);
    SteadyIsOrderly(t, tight);
    OneWriteMoves(s, edits, t, tight);
  }

  lemma SameWrite(s: State, edits: seq<Edit>, t: State, s': State, t': State)
    requires OneWrite(s, edits, t) && s'.envelopes == s.envelopes && t'.envelopes == t.envelopes && s'.config == s.config && t'.config == t.config
    ensures OneWrite(s', edits, t')
  {
    forall resource, x ensures (InSpan(s', resource, x) <==> InSpan(s, resource, x)) && (InSpan(t', resource, x) <==> InSpan(t, resource, x)) {
    }
  }

  lemma NoWrite(s: State, t: State)
    requires t.envelopes == s.envelopes && t.config == s.config
    ensures OneWrite(s, [], t)
  {
  }

  // ---- the primitives ----

  lemma EditKeeps(e: Envelope, op: TreapRun.Op)
    requires !op.SetCapacity?
    ensures var d := Edited(e, op);
            && d == e.(levels := d.levels) && d.levels.Keys == e.levels.Keys
            && forall x :: x in e.levels ==> d.levels[x].cap == e.levels[x].cap
  {
  }

  lemma WriteIsOne(s: State, k: nat, op: TreapRun.Op)
    requires k in s.envelopes && !op.SetCapacity?
    ensures OneWrite(s, [Write(k, op)], s.(envelopes := s.envelopes[k := Edited(s.envelopes[k], op)]))
  {
    hide Edited;
    EditKeeps(s.envelopes[k], op);
    var edits := [Write(k, op)];
    assert edits[..0] == [];
    assert Replay(s.envelopes, edits[..0]) == s.envelopes;
  }

  lemma ContributeWrites(s: State, r: Reservation)
    ensures OneWrite(s, ContributeEdits(s, r), Contribute(s, r).0)
  {
    hide OneWrite, Levels.Changed;
    if CanContribute(s, r) {
      WriteIsOne(s, r.resource, CommitOp(r.strength, r.window, r.quantity.value));
    } else {
      NoWrite(s, s);
    }
  }

  lemma WithdrawWrites(s: State, r: Reservation)
    ensures OneWrite(s, WithdrawEdits(s, r), Withdraw(s, r).0)
  {
    hide OneWrite, Levels.Changed;
    if CanWithdraw(s, r) {
      WriteIsOne(s, r.resource, CommitOp(r.strength, r.window, -r.quantity.value));
    } else {
      NoWrite(s, s);
    }
  }

  lemma HeldWrites(s: State, resource: nat, w: Interval, q: int)
    ensures OneWrite(s, HeldEdits(s, resource, w, q), Held(s, resource, w, q))
  {
    hide OneWrite, Levels.Changed;
    if resource in s.envelopes {
      WriteIsOne(s, resource, TreapRun.AddHeld(w.start, w.end, q));
    } else {
      NoWrite(s, s);
    }
  }

  lemma DropWrites(s: State, id: nat, state: Byte)
    requires id in s.holds
    ensures OneWrite(s, DropEdits(s, id), DropHold(s, id, state))
  {
    hide OneWrite, Held, HeldEdits;
    var h := s.holds[id];
    if h.applied {
      HeldWrites(s, h.resource, h.spec.window, -h.spec.quantity.value);
      HeldOnly(s, h.resource, h.spec.window, -h.spec.quantity.value);
      SameWrite(s, DropEdits(s, id), Held(s, h.resource, h.spec.window, -h.spec.quantity.value), s, DropHold(s, id, state));
    } else {
      NoWrite(s, DropHold(s, id, state));
    }
  }

  lemma HeldOnly(s: State, resource: nat, w: Interval, q: int)
    ensures Held(s, resource, w, q) == s.(envelopes := Held(s, resource, w, q).envelopes)
  {
    hide AddHeld;
  }

  // ---- operations of at most one write ----

  lemma StandsStill(s: State, t: State, tight: bool)
    requires Steady(s) && Consistent(t) && t.envelopes == s.envelopes && t.config == s.config
    ensures Goes(s, [], t, tight)
  {
    hide Steady, Consistent, OneWrite;
    NoWrite(s, t);
    assert Steady(s);
    OneWriteGoes(s, [], t, tight);
  }

  lemma SteadyIsConsistent(s: State)
    requires Steady(s)
    ensures Consistent(s) && Struct(s)
  {
    hide Capped;
  }

  lemma DropGoes(s: State, id: nat, state: Byte, tight: bool)
    requires Steady(s) && id in s.holds && state != HOLD_ACQUIRED
    ensures Goes(s, DropEdits(s, id), DropHold(s, id, state), tight)
  {
    hide Steady, Consistent, OneWrite, DropHold, DropEdits, Goes, Struct;
    SteadyIsConsistent(s);
    ConsistentDrop(s, id, state);
    DropWrites(s, id, state);
    OneWriteGoes(s, DropEdits(s, id), DropHold(s, id, state), tight);
  }

  lemma ReleaseHoldGoes(s: State, id: nat, generation: nat, tight: bool)
    requires Steady(s)
    ensures Goes(s, ReleaseHoldEdits(s, id, generation), ReleaseHold(s, id, generation).0, tight)
  {
    hide Steady, Consistent, DropHold, DropEdits, Goes, Struct;
    SteadyIsConsistent(s);
    StandsStill(s, s, tight);
    if id in s.holds { DropGoes(s, id, HOLD_RELEASED, tight); }
  }

  lemma ExpireHoldGoes(s: State, now: int, id: nat, tight: bool)
    requires Steady(s)
    ensures Goes(s, ExpireHoldEdits(s, now, id), ExpireHold(s, now, id), tight)
  {
    hide Steady, Consistent, DropHold, DropEdits, Goes, Struct;
    SteadyIsConsistent(s);
    StandsStill(s, s, tight);
    if id in s.holds { DropGoes(s, id, HOLD_EXPIRED, tight); }
  }

  lemma ProvisionalGoes(s: State, id: nat, tight: bool)
    requires Steady(s)
    ensures Goes(s, ProvisionalEdits(s, id), ReleaseProvisional(s, id), tight)
  {
    hide Steady, Consistent, DropHold, DropEdits, Goes, Struct, ReleaseProvisional;
    SteadyIsConsistent(s);
    if id in s.holds {
      ProvisionalIsDrop(s, id);
      DropGoes(s, id, HOLD_RELEASED, tight);
      if s.holds[id].state in {HOLD_RELEASED, HOLD_EXPIRED, HOLD_COMMITTED} { SettledEdits(s, id); }
    } else {
      AbsentHold(s, id);
      StandsStill(s, s, tight);
    }
  }

  lemma SettledEdits(s: State, id: nat)
    requires Struct(s) && id in s.holds && s.holds[id].state != HOLD_ACQUIRED
    ensures DropEdits(s, id) == []
  {
    assert HoldOk(s, id, s.holds[id]);
  }

  /** Withdrawing a record and relabelling it. */
  lemma EndGoes(s: State, id: nat, t: State, tight: bool)
    requires Steady(s) && id in s.reservations && Consistent(t)
    requires t.envelopes == Withdraw(s, s.reservations[id]).0.envelopes && t.config == s.config
    ensures Goes(s, CancelMemberEdits(s, id), t, tight)
  {
    hide Steady, Consistent, OneWrite, Withdraw, WithdrawEdits, Goes;
    var r := s.reservations[id];
    WithdrawWrites(s, r);
    WithdrawOnly(s, r);
    SameWrite(s, WithdrawEdits(s, r), Withdraw(s, r).0, s, t);
    OneWriteGoes(s, WithdrawEdits(s, r), t, tight);
  }

  lemma CancelMemberGoes(s: State, id: nat, tight: bool)
    requires Steady(s)
    ensures Goes(s, CancelMemberEdits(s, id), CancelMember(s, id), tight)
  {
    hide Steady, Consistent, Withdraw, WithdrawEdits, Goes, Struct;
    SteadyIsConsistent(s);
    ConsistentCancelMember(s, id);
    if id in s.reservations {
      WithdrawOnly(s, s.reservations[id]);
      EndGoes(s, id, CancelMember(s, id), tight);
    } else {
      StandsStill(s, s, tight);
    }
  }

  lemma CancelGoes(s: State, id: nat, generation: nat, tight: bool)
    requires Steady(s)
    ensures Goes(s, CancelEdits(s, id, generation), Cancel(s, id, generation).0, tight)
  {
    hide Steady, Consistent, Withdraw, CancelMemberEdits, Goes, Struct, IsEnded;
    SteadyIsConsistent(s);
    StandsStill(s, s, tight);
    CancelMemberGoes(s, id, tight);
  }

  lemma ExpireGoes(s: State, now: int, id: nat, tight: bool)
    requires Steady(s)
    ensures Goes(s, ExpireEdits(s, now, id), ExpireOne(s, now, id), tight)
  {
    hide Steady, Consistent, Withdraw, CancelMemberEdits, Goes, Struct, IsDue;
    SteadyIsConsistent(s);
    if IsDue(s, now, id) {
      DueExists(s, now, id);
      ConsistentExpireOne(s, now, id);
      WithdrawOnly(s, s.reservations[id]);
      EndGoes(s, id, ExpireOne(s, now, id), tight);
    } else {
      StandsStill(s, s, tight);
    }
  }

  lemma ReleaseGoes(s: State, id: nat, generation: nat, e: Evidence, tight: bool)
    requires Steady(s)
    ensures Goes(s, ReleaseEdits(s, id, generation, e), ReleaseReservation(s, id, generation, e).0, tight)
  {
    hide Steady, Consistent, Withdraw, CancelMemberEdits, Goes, Struct, IsEnded, Fresh;
    SteadyIsConsistent(s);
    var (t, out) := ReleaseReservation(s, id, generation, e);
    if out == ReleasedNow {
      ConsistentRelease(s, id, generation, e);
      WithdrawOnly(s, s.reservations[id]);
      EndGoes(s, id, t, tight);
    } else {
      StandsStill(s, s, tight);
    }
  }

  lemma AcquireGoes(s: State, spec: HoldSpec, now: int, tight: bool)
    requires Steady(s) && (IsGrantable(s, spec) ==> !Loses(s, spec.id))
    ensures Goes(s, AcquireEdits(s, spec, now), AcquireHold(s, spec, now).0, tight)
  {
    hide Steady, Consistent, AcquireHold, Held, HeldEdits, Goes, Struct, OneWrite, Loses, IsGrantable;
    SteadyIsConsistent(s);
    GrantableIs(s, spec, now);
    var (t, ok) := AcquireHold(s, spec, now);
    if ok {
      GrantedHold(s, spec, now);
      HoldIff(s, spec, now);
      var h := t.holds[spec.id];
      var s1 := s.(holds := s.holds[spec.id := h]);
      HeldWrites(s1, h.resource, spec.window, spec.quantity.value);
      HeldOnly(s1, h.resource, spec.window, spec.quantity.value);
      SameHeldEdits(s, s1, h.resource, spec.window, spec.quantity.value);
      SameWrite(s1, AcquireEdits(s, spec, now), t, s, t);
      OneWriteGoes(s, AcquireEdits(s, spec, now), t, tight);
    } else {
      RefusedHold(s, spec, now);
      StandsStill(s, s, tight);
    }
  }

  lemma SameHeldEdits(s: State, t: State, resource: nat, w: Interval, q: int)
    requires t.envelopes == s.envelopes
    ensures HeldEdits(t, resource, w, q) == HeldEdits(s, resource, w, q)
  {
  }

  // ---- walks ----

  lemma {:induction false} FoldGoes(s: State, order: seq<nat>, f: (State, nat) -> State, g: (State, nat) -> seq<Edit>, tight: bool)
    requires Steady(s) && forall x: State, id: nat :: Steady(x) ==> Goes(x, g(x, id), f(x, id), tight)
    ensures Goes(s, FoldEdits(s, order, f, g), Fold(s, order, f), tight)
    decreases |order|
  {
    hide Steady, Moves;
    if order == [] {
      NothingGoes(s, tight);
    } else {
      var before, id := order[..|order| - 1], order[|order| - 1];
      FoldGoes(s, before, f, g, tight);
      var x := Fold(s, before, f);
      GoesThen(s, FoldEdits(s, before, f, g), x, g(x, id), f(x, id), tight);
    }
  }

  lemma NothingGoes(s: State, tight: bool)
    requires Steady(s)
    ensures Goes(s, [], s, tight)
  {
    hide Steady, Consistent, Goes;
    SteadyIsConsistent(s);
    StandsStill(s, s, tight);
  }

  lemma ExpireHoldsGoes(s: State, now: int, order: seq<nat>, tight: bool)
    requires Steady(s)
    ensures Goes(s, StepEdits(s, OpExpireHolds(now, order)), ExpireHolds(s, now, order), tight)
  {
    hide Steady, Goes, ExpireHold, ExpireHoldEdits, Fold, FoldEdits;
    forall x: State, id: nat | Steady(x) ensures Goes(x, ExpireHoldEdits(x, now, id), ExpireHold(x, now, id), tight) {
      ExpireHoldGoes(x, now, id, tight);
    }
    FoldGoes(s, order, (x: State, id: nat) => ExpireHold(x, now, id), (x: State, id: nat) => ExpireHoldEdits(x, now, id), tight);
  }

  lemma ExpireDueGoes(s: State, now: int, order: seq<nat>, tight: bool)
    requires Steady(s)
    ensures Goes(s, StepEdits(s, OpExpireDue(now, order)), ExpireDue(s, now, order), tight)
  {
    hide Steady, Goes, ExpireOne, ExpireEdits, Fold, FoldEdits;
    forall x: State, id: nat | Steady(x) ensures Goes(x, ExpireEdits(x, now, id), ExpireOne(x, now, id), tight) {
      ExpireGoes(x, now, id, tight);
    }
    FoldGoes(s, order, (x: State, id: nat) => ExpireOne(x, now, id), (x: State, id: nat) => ExpireEdits(x, now, id), tight);
  }

  // ---- commits ----

  /** Between the two writes of a commit against a hold, each part of a level is that of the state
      before or of the state after. */
  lemma MixedIsOrderly(s: State, u: State, t: State, r: Reservation, r': Reservation, h: Option<Hold>, h': Hold)
    requires MovedBy(s, u, r, r') && MovedByHold(u, t, h, h') && Orderly(s, false) && Orderly(t, false)
    ensures Orderly(u, false)
  {
    hide EffOf, Max, HardWeight, SoftWeight, HeldWeight;
    forall resource, x | InSpan(u, resource, x) ensures OrderlyAt(LevelOf(u, resource, x), u.envelopes[resource], false) {
      assert InSpan(s, resource, x) && InSpan(t, resource, x);
      assert OrderlyAt(LevelOf(s, resource, x), s.envelopes[resource], false);
      assert OrderlyAt(LevelOf(t, resource, x), t.envelopes[resource], false);
    }
  }

  lemma RecordWrites(s: State, req: Request)
    requires Struct(s) && CommitAllowed(s, req, None)
    ensures Assess(s, req).resource in s.resources
    ensures OneWrite(s, ContributeEdits(s, NewReservation(s, req)), CommitOne(s, req, None).0)
  {
    hide Assess, Contribute, OneWrite, ContributeEdits;
    AllowedResource(s, req, None);
    var r := NewReservation(s, req);
    var s1 := s.(nextReservationId := r.id, currentGen := s.currentGen[r.id := r.generation]);
    ContributeWrites(s1, r);
    SameContribute(s, s1, r);
    ContributeShape(s1, r);
    SameWrite(s1, ContributeEdits(s1, r), Contribute(s1, r).0, s, CommitOne(s, req, None).0);
  }

  lemma SameContribute(s: State, t: State, r: Reservation)
    requires t.envelopes.Keys == s.envelopes.Keys
    ensures ContributeEdits(t, r) == ContributeEdits(s, r)
  {
  }

  lemma CommitGoes(s: State, req: Request, hold: Option<nat>, tight: bool)
    requires Steady(s) && (CommitAllowed(s, req, hold) ==> CommitGuard(s, req, hold))
    requires tight && CommitAllowed(s, req, hold) ==> CommitGuard(s, req, None)
    ensures Goes(s, CommitEdits(s, req, hold), CommitOne(s, req, hold).0, tight)
  {
    hide Capped, Consistent, CommitAllowed, CommitGuard, CommitOne, Assess, Goes, OneWrite, ContributeEdits, NewReservation, HeldEdits, Struct;
    SteadyIsConsistent(s);
    var t := CommitOne(s, req, hold).0;
    if !CommitAllowed(s, req, hold) {
      RefusedCommit(s, req, hold);
      NothingGoes(s, tight);
    } else if hold.None? {
      CommitIsConsistent(s, req, hold);
      RecordWrites(s, req);
      OneWriteGoes(s, ContributeEdits(s, NewReservation(s, req)), t, tight);
      assert CommitEdits(s, req, hold) == ContributeEdits(s, NewReservation(s, req));
    } else {
      CommitAgainstGoes(s, req, hold.value, tight);
    }
  }

  lemma CommitIsConsistent(s: State, req: Request, hold: Option<nat>)
    requires Consistent(s) && CommitAllowed(s, req, hold) && CommitGuard(s, req, hold)
    ensures Consistent(CommitOne(s, req, hold).0)
    ensures Assess(s, req).resource in s.resources
  {
    hide Consistent, CommitAllowed, CommitOne, Assess, Off, RoomFor;
    AllowedResource(s, req, hold);
    CommitKeepsBoundIff(s, req, hold);
  }

  lemma CommitAgainstGoes(s: State, req: Request, hold: nat, tight: bool)
    requires Steady(s) && CommitAllowed(s, req, Some(hold)) && CommitGuard(s, req, Some(hold))
    requires tight ==> CommitGuard(s, req, None)
    ensures Goes(s, CommitEdits(s, req, Some(hold)), CommitOne(s, req, Some(hold)).0, tight)
  {
    hide Capped, Consistent, CommitAllowed, CommitGuard, CommitOne, Assess, OneWrite, ContributeEdits, NewReservation, HeldEdits, Struct, DropHold,
         Moves, Orderly, Kept, DropEdits;
    SteadyIsConsistent(s);
    var u, t := CommitOne(s, req, None).0, CommitOne(s, req, Some(hold)).0;
    CommitIsConsistent(s, req, Some(hold));
    CommitThenDrop(s, req, hold);
    AllowedHold(s, req, hold);
    RecordWrites(s, req);
    CommitShape(s, req, None);
    DropWrites(u, hold, HOLD_COMMITTED);
    CommitDropEdits(s, u, hold, req);
    var a, b := ContributeEdits(s, NewReservation(s, req)), DropEdits(u, hold);
    OneWriteKept(s, a, u);
    OneWriteKept(u, b, t);
    KeptCapped(s, u);
    KeptCapped(u, t);
    SteadyIsOrderly(s, tight);
    SteadyIsOrderly(t, tight);
    BetweenIsOrderly(s, req, hold, tight);
    OneWriteMoves(s, a, u, tight);
    OneWriteMoves(u, b, t, tight);
    MovesThen(s.envelopes, a, u.envelopes, b, t.envelopes, tight);
  }

  lemma OneWriteKept(s: State, edits: seq<Edit>, t: State)
    requires OneWrite(s, edits, t)
    ensures Kept(s, t)
  {
  }

  lemma CommitDropEdits(s: State, u: State, hold: nat, req: Request)
    requires Struct(s) && CommitAllowed(s, req, Some(hold)) && hold in s.holds && u.holds == s.holds && u.envelopes.Keys == s.envelopes.Keys
    requires Assess(s, req).resource in s.resources
    ensures CommitEdits(s, req, Some(hold)) == ContributeEdits(s, NewReservation(s, req)) + DropEdits(u, hold)
  {
    hide Assess, NewReservation, ContributeEdits;
    assert HoldOk(s, hold, s.holds[hold]);
  }

  lemma BetweenIsOrderly(s: State, req: Request, hold: nat, tight: bool)
    requires Steady(s) && CommitAllowed(s, req, Some(hold)) && CommitGuard(s, req, Some(hold))
    requires tight ==> CommitGuard(s, req, None)
    requires Steady(CommitOne(s, req, Some(hold)).0)
    ensures Orderly(CommitOne(s, req, None).0, tight)
  {
    hide Capped, Consistent, CommitAllowed, CommitGuard, CommitOne, Assess, Struct, DropHold, Orderly, MovedBy, MovedByHold, OneWrite, Kept, NewReservation,
         Steady;
    SteadyIsConsistent(s);
    var u, t := CommitOne(s, req, None).0, CommitOne(s, req, Some(hold)).0;
    CommitThenDrop(s, req, hold);
    AllowedHold(s, req, hold);
    AllowedResource(s, req, None);
    if tight {
      CommitIsConsistent(s, req, None);
      RecordWrites(s, req);
      OneWriteKept(s, ContributeEdits(s, NewReservation(s, req)), u);
      SteadyThrough(s, u);
      SteadyIsOrderly(u, tight);
    } else {
      CommitMoves(s, req);
      StructCommit(s, req, None);
      HoldHasEnvelope(u, hold);
      DropMoves(u, hold, HOLD_COMMITTED);
      SteadyIsOrderly(s, tight);
      SteadyIsOrderly(t, tight);
      MixedIsOrderly(s, u, t, NewReservation(s, req), NewReservation(s, req).(contributes := true), Some(u.holds[hold]), t.holds[hold]);
    }
  }

  lemma SteadyThrough(s: State, t: State)
    requires Steady(s) && Kept(s, t) && Consistent(t)
    ensures Steady(t)
  {
    hide Consistent, Kept, Capped;
    KeptCapped(s, t);
  }

  // ---- bundles ----

  lemma {:induction false} AcquireTop(s: State, members: seq<Request>, now: int)
    ensures var (t, ok) := AcquireAll(s, members, now);
            s.nextHoldId <= t.nextHoldId && (!ok ==> s.nextHoldId < t.nextHoldId)
    decreases |members|
  {
    hide AcquireHold;
    if members != [] {
      var id := s.nextHoldId + 1;
      var s0 := s.(nextHoldId := id);
      AcquireKeepsCounter(s0, MemberSpec(members[0], id), now);
      AcquireTop(AcquireHold(s0, MemberSpec(members[0], id), now).0, members[1..], now);
    }
  }

  ghost function TopHold(s: State, members: seq<Request>, now: int): int {
    var (t, ok) := AcquireAll(s, members, now);
    if ok then t.nextHoldId else t.nextHoldId - 1
  }

  ghost predicate NothingLost(s: State, top: int) {
    forall id :: s.nextHoldId < id <= top ==> !Loses(s, id)
  }

  lemma LosesAlike(s: State, t: State, id: nat)
    requires SameSpans(s, t) && (id in t.holds <==> id in s.holds) && (id in s.holds ==> t.holds[id] == s.holds[id])
    ensures Loses(t, id) <==> Loses(s, id)
  {
    forall resource, x ensures InSpan(s, resource, x) <==> InSpan(t, resource, x) {
    }
  }

  lemma {:induction false} AcquireAllGoes(s: State, members: seq<Request>, now: int, tight: bool)
    requires Steady(s) && NothingLost(s, TopHold(s, members, now))
    ensures Goes(s, AcquireAllEdits(s, members, now), AcquireAll(s, members, now).0, tight)
    decreases |members|
  {
    hide Steady, Consistent, AcquireHold, AcquireEdits, Goes, Loses, Struct, IsGrantable;
    if members == [] {
      NothingGoes(s, tight);
    } else {
      var id := s.nextHoldId + 1;
      var s0 := s.(nextHoldId := id);
      var spec := MemberSpec(members[0], id);
      var (s1, ok) := AcquireHold(s0, spec, now);
      CountersGo(s, s0, tight);
      AcquireKeepsCounter(s0, spec, now);
      LosesAlike(s, s0, id);
      AcquireTop(s1, members[1..], now);
      GrantableIs(s0, spec, now);
      AcquireGoes(s0, spec, now, tight);
      GoesThen(s, [], s0, AcquireEdits(s0, spec, now), s1, tight);
      assert [] + AcquireEdits(s0, spec, now) == AcquireEdits(s0, spec, now);
      if ok {
        StillNothingLost(s, s0, s1, spec, now, TopHold(s1, members[1..], now));
        GoesSteady(s, AcquireEdits(s0, spec, now), s1, tight);
        AcquireAllGoes(s1, members[1..], now, tight);
        GoesThen(s, AcquireEdits(s0, spec, now), s1, AcquireAllEdits(s1, members[1..], now), AcquireAll(s1, members[1..], now).0, tight);
      } else {
        assert AcquireEdits(s0, spec, now) + [] == AcquireEdits(s0, spec, now);
      }
    }
  }

  lemma GoesSteady(s: State, edits: seq<Edit>, t: State, tight: bool)
    requires Goes(s, edits, t, tight)
    ensures Steady(t)
  {
    hide Steady;
  }

  lemma CountersGo(s: State, t: State, tight: bool)
    requires Steady(s)
    requires t == s.(epoch := t.epoch, authority := t.authority, workerBoots := t.workerBoots, sets := t.sets,
    nextHoldId := t.nextHoldId, nextSetId := t.nextSetId)
    ensures Goes(s, [], t, tight) && Steady(t)
  {
    hide Steady, Consistent, Goes;
    SteadyIsConsistent(s);
    ConsistentCounters(s, t);
    StandsStill(s, t, tight);
    GoesSteady(s, [], t, tight);
  }

  lemma StillNothingLost(s: State, s0: State, s1: State, spec: HoldSpec, now: int, top: int)
    requires Steady(s0) && NothingLost(s, top) && s0 == s.(nextHoldId := spec.id) && spec.id == s.nextHoldId + 1
    requires AcquireHold(s0, spec, now) == (s1, true)
    ensures NothingLost(s1, top)
  {
    hide Steady, Consistent, AcquireHold, Loses, Struct;
    SteadyIsConsistent(s0);
    AcquireMoves(s0, spec, now);
    AcquireKeepsCounter(s0, spec, now);
    forall id | s1.nextHoldId < id <= top ensures !Loses(s1, id) {
      LosesAlike(s, s1, id);
    }
  }

  lemma {:induction false} ReleaseRangeGoes(s: State, from: nat, to: int, tight: bool)
    requires Steady(s)
    ensures Goes(s, ReleaseRangeEdits(s, from, to), ReleaseRange(s, from, to), tight)
    decreases if from < to then to - from else 0
  {
    hide Steady, Goes, ReleaseProvisional, ProvisionalEdits;
    if from < to {
      var t := ReleaseProvisional(s, from + 1);
      ProvisionalGoes(s, from + 1, tight);
      GoesSteady(s, ProvisionalEdits(s, from + 1), t, tight);
      ReleaseRangeGoes(t, from + 1, to, tight);
      GoesThen(s, ProvisionalEdits(s, from + 1), t, ReleaseRangeEdits(t, from + 1, to), ReleaseRange(t, from + 1, to), tight);
    } else {
      NothingGoes(s, tight);
    }
  }

  lemma {:induction false} CancelRangeGoes(s: State, from: nat, to: nat, tight: bool)
    requires Steady(s)
    ensures Goes(s, CancelRangeEdits(s, from, to), CancelRange(s, from, to), tight)
    decreases if from < to then to - from else 0
  {
    hide Steady, Goes, CancelMember, CancelMemberEdits;
    if from < to {
      var t := CancelMember(s, from + 1);
      CancelMemberGoes(s, from + 1, tight);
      GoesSteady(s, CancelMemberEdits(s, from + 1), t, tight);
      CancelRangeGoes(t, from + 1, to, tight);
      GoesThen(s, CancelMemberEdits(s, from + 1), t, CancelRangeEdits(t, from + 1, to), CancelRange(t, from + 1, to), tight);
    } else {
      NothingGoes(s, tight);
    }
  }

  lemma RollBackGoes(s: State, firstReservation: nat, firstHold: nat, n: nat, members: nat, tight: bool)
    requires Steady(s)
    ensures Goes(s, RollBackEdits(s, firstReservation, firstHold, n, members), RollBack(s, firstReservation, firstHold, n, members), tight)
  {
    hide Steady, Goes, CancelRange, CancelRangeEdits, ReleaseRange, ReleaseRangeEdits;
    var t := CancelRange(s, firstReservation, firstReservation + n);
    CancelRangeGoes(s, firstReservation, firstReservation + n, tight);
    GoesSteady(s, CancelRangeEdits(s, firstReservation, firstReservation + n), t, tight);
    ReleaseRangeGoes(t, firstHold + n, firstHold + members, tight);
    GoesThen(s, CancelRangeEdits(s, firstReservation, firstReservation + n), t,
             ReleaseRangeEdits(t, firstHold + n, firstHold + members), ReleaseRange(t, firstHold + n, firstHold + members), tight);
  }

  lemma MemberGuard(s: State, m: Request, hold: nat)
    requires Consistent(s) && CommitAllowed(s, m, Some(hold)) && MemberHold(s, m, hold)
    ensures CommitGuard(s, m, Some(hold))
    ensures IsWholeIfHard(m) ==> CommitGuard(s, m, None)
  {
    hide Consistent, Assess, RoomFor, CommitAllowed, HoldCounts;
    OrdinaryCommitIsGuarded(s, m, Some(hold));
    AllowedIsAdmitted(s, m, hold);
    HoldIsThere(s, m, hold);
    if m.strength != STRENGTH_HARD {
      AppliedHoldCounts(s, hold);
      CountedHoldMakesRoom(s, m, m.quantity.value);
    } else if IsWholeIfHard(m) {
      WholeOrNothing(s, m);
      FullAdmissionHasRoom(s, m, None);
    }
  }

  /** A hard request is taken whole or not at all. */
  predicate IsWholeIfHard(m: Request) {
    m.strength == STRENGTH_HARD ==> !m.partialAllowed
  }

  lemma {:induction false} CommitAllGoes(s: State, members: seq<Request>, firstHold: nat, tight: bool)
    requires Steady(s) && MemberHolds(s, members, firstHold)
    requires tight ==> forall m :: m in members ==> IsWholeIfHard(m)
    ensures Goes(s, CommitAllEdits(s, members, firstHold), CommitAll(s, members, firstHold).0, tight)
    decreases |members|
  {
    hide Steady, Consistent, CommitOne, CommitAllowed, CommitGuard, RoomFor, MemberHold, Assess, Goes, CommitEdits, Struct;
    if members == [] {
      NothingGoes(s, tight);
    } else {
      var m, hold := members[0], firstHold + 1;
      var (s1, out) := CommitOne(s, m, Some(hold));
      SteadyIsConsistent(s);
      assert MemberHold(s, members[0], firstHold + 1 + 0);
      if CommitAllowed(s, m, Some(hold)) {
        MemberGuard(s, m, hold);
        CommitGoes(s, m, Some(hold), tight);
        AllowedIsDone(s, m, Some(hold));
        GoesSteady(s, CommitEdits(s, m, Some(hold)), s1, tight);
        CommitShape(s, m, Some(hold));
        LaterHolds(s, s1, members, firstHold);
        CommitAllGoes(s1, members[1..], hold, tight);
        GoesThen(s, CommitEdits(s, m, Some(hold)), s1, CommitAllEdits(s1, members[1..], hold), CommitAll(s1, members[1..], hold).0, tight);
      } else {
        CommitGoes(s, m, Some(hold), tight);
        RefusedCommit(s, m, Some(hold));
        assert CommitEdits(s, m, Some(hold)) + [] == CommitEdits(s, m, Some(hold));
      }
    }
  }

  lemma BundleGoes(s: State, members: seq<Request>, now: int, tight: bool)
    requires Steady(s) && NoHoldLost(s, LastHold(s, members, now))
    requires tight ==> forall m :: m in members ==> IsWholeIfHard(m)
    ensures Goes(s, BundleEdits(s, members, now), CommitBundle(s, members, now).0, tight)
  {
    hide Steady, Consistent, Goes, AcquireAll, AcquireAllEdits, CommitAll, CommitAllEdits, ReleaseRange, ReleaseRangeEdits, RollBack, RollBackEdits,
         AllAdmitted, MemberHolds, Struct, NothingLost, NoHoldLost, LastHold;
    var s0 := s.(nextSetId := s.nextSetId + 1);
    CountersGo(s, s0, tight);
    if AllAdmitted(s0, members) {
      var (s1, held) := AcquireAll(s0, members, now);
      var a := AcquireAllEdits(s0, members, now);
      GuardLosesNothing(s, s0, members, now);
      AcquireAllGoes(s0, members, now, tight);
      GoesThen(s, [], s0, a, s1, tight);
      assert [] + a == a;
      GoesSteady(s, a, s1, tight);
      if !held {
        ReleaseRangeGoes(s1, s.nextHoldId, s1.nextHoldId - 1, tight);
        GoesThen(s, a, s1, ReleaseRangeEdits(s1, s.nextHoldId, s1.nextHoldId - 1), ReleaseRange(s1, s.nextHoldId, s1.nextHoldId - 1), tight);
      } else {
        HoldsOfAll(s0, members, now);
        HeldBundleGoes(s, a, s1, members, tight, BundleSet(s, members), s.nextReservationId, s.nextHoldId);
      }
    }
  }

  lemma HoldsOfAll(s: State, members: seq<Request>, now: int)
    requires Steady(s) && AcquireAll(s, members, now).1
    ensures MemberHolds(AcquireAll(s, members, now).0, members, s.nextHoldId)
  {
    hide AcquireAll, Capped, MemberHolds, Struct, Mirror, NoOvercommit;
    AcquireAllHolds(s, members, now);
  }

  lemma GuardLosesNothing(s: State, s0: State, members: seq<Request>, now: int)
    requires s0 == s.(nextSetId := s.nextSetId + 1) && AllAdmitted(s0, members) && NoHoldLost(s, LastHold(s, members, now))
    ensures NothingLost(s0, TopHold(s0, members, now))
  {
    hide AcquireAll, AllAdmitted, TouchesSpan;
    AcquireTop(s0, members, now);
    forall id | s0.nextHoldId < id <= TopHold(s0, members, now) ensures !Loses(s0, id) {
      LosesAlike(s, s0, id);
    }
  }

  /** Phase three and its end. */
  lemma HeldBundleGoes(s: State, a: seq<Edit>, s1: State, members: seq<Request>, tight: bool, made: ReservationSet, r1: nat, h1: nat)
    requires Goes(s, a, s1, tight) && MemberHolds(s1, members, h1)
    requires tight ==> forall m :: m in members ==> IsWholeIfHard(m)
    ensures var (s2, n) := CommitAll(s1, members, h1);
            var c := CommitAllEdits(s1, members, h1);
            && (n < |members| ==> Goes(s, a + (c + RollBackEdits(s2, r1, h1, n, |members|)), RollBack(s2, r1, h1, n, |members|), tight))
            && (n >= |members| ==> Goes(s, a + (c + []), s2.(sets := s2.sets[made.id := made]), tight))
  {
    hide Steady, Consistent, Goes, CommitAll, CommitAllEdits, RollBack, RollBackEdits, MemberHolds;
    var (s2, n) := CommitAll(s1, members, h1);
    var c := CommitAllEdits(s1, members, h1);
    GoesSteady(s, a, s1, tight);
    CommitAllGoes(s1, members, h1, tight);
    GoesSteady(s1, c, s2, tight);
    if n < |members| {
      RollBackGoes(s2, r1, h1, n, |members|, tight);
      GoesThen(s1, c, s2, RollBackEdits(s2, r1, h1, n, |members|), RollBack(s2, r1, h1, n, |members|), tight);
      GoesThen(s, a, s1, c + RollBackEdits(s2, r1, h1, n, |members|), RollBack(s2, r1, h1, n, |members|), tight);
    } else {
      CountersGo(s2, s2.(sets := s2.sets[made.id := made]), tight);
      GoesThen(s1, c, s2, [], s2.(sets := s2.sets[made.id := made]), tight);
      GoesThen(s, a, s1, c + [], s2.(sets := s2.sets[made.id := made]), tight);
    }
  }

  // ---- resize and renewal ----

  /** With the contribution off and nothing else changed the state is consistent. */
  lemma ConsistentOff(s: State, id: nat)
    requires Consistent(s) && id in s.reservations
    ensures var (s1, r1) := Withdraw(s, s.reservations[id]); Consistent(Put(s1, id, r1))
  {
    hide Struct, Withdraw, ReservationOk;
    ConsistentIsStruct(s);
    var r := s.reservations[id];
    var (s1, r1) := Withdraw(s, r);
    WithdrawOnly(s, r);
    RecordIsOk(s, id);
    OffIsOk(s, id, r, r1);
    StructPut(s, Put(s1, id, r1), id, r1);
    ConsistentEnd(s, Put(s1, id, r1), id, r1);
  }

  lemma OffIsOk(s: State, id: nat, r: Reservation, r': Reservation)
    requires ReservationOk(s, id, r) && r' == r.(contributes := r'.contributes)
    ensures ReservationOk(s, id, r') && r'.generation == r.generation
  {
  }

  lemma ChangeGoes(s: State, op: Op, tight: bool)
    requires Steady(s) && (op.OpResize? || op.OpRenew?) && (IsOrderly(s, op) ==> ChangeGuard(s, op))
    ensures Goes(s, ChangeEdits(s, op), Step(s, op), tight)
  {
    hide Steady, Consistent, Step, IsAdmitted, ChangeGuard, Goes, Withdraw, Contribute, ContributeEdits, WithdrawEdits, Struct, OneWrite, Adopt, ChangedRecord;
    SteadyIsConsistent(s);
    if IsOrderly(s, op) {
      var r := s.reservations[op.id];
      var (s1, r1) := Withdraw(s, r);
      var off, t := Put(s1, op.id, r1), Step(s, op);
      ChangeIff(s, op);
      ChangeCases(s, op);
      WithdrawOnly(s, r);
      ConsistentOff(s, op.id);
      EndGoes(s, op.id, off, tight);
      GoesSteady(s, WithdrawEdits(s, r), off, tight);
      if IsAdmitted(s, op) {
        ChangedFacts(s, op);
        AdoptedEnvelopes(s1, op.id, r1, ChangedRecord(s, op));
        StandsStill(off, t, tight);
        GoesThen(s, WithdrawEdits(s, r), off, [], t, tight);
      } else {
        RestoredWrites(s1, op.id, r1);
        OneWriteGoes(off, ContributeEdits(s1, r1), t, tight);
        GoesThen(s, WithdrawEdits(s, r), off, ContributeEdits(s1, r1), t, tight);
      }
    } else {
      UnorderlyIsRefused(s, op);
      NothingGoes(s, tight);
    }
  }

  lemma AdoptedEnvelopes(s: State, id: nat, old_: Reservation, n: Reservation)
    requires n.contributes
    ensures Adopt(s, id, old_, n).envelopes == s.envelopes && Adopt(s, id, old_, n).config == s.config
    ensures ContributeEdits(s, n) == []
  {
    hide AddCommitted, Remembered, HistoryOf;
  }

  lemma RestoredWrites(s: State, id: nat, r: Reservation)
    ensures OneWrite(Put(s, id, r), ContributeEdits(s, r), Restore(s, id, r))
  {
    hide Contribute, OneWrite, ContributeEdits;
    ContributeWrites(s, r);
    ContributeShape(s, r);
    SameWrite(s, ContributeEdits(s, r), Contribute(s, r).0, Put(s, id, r), Restore(s, id, r));
  }

  // ---- publications ----

  predicate IdleLevel(v: Level, cap: int) {
    v.hard == 0 && v.soft == 0 && v.held == 0 && (v.cap == cap || v.cap == 0)
  }

  ghost predicate Idle(e: Envelope) {
    0 < e.capacity.value && forall x :: x in e.levels ==> IdleLevel(e.levels[x], e.capacity.value)
  }

  lemma IdleInOrder(es: map<nat, Envelope>, k: nat, e: Envelope, tight: bool)
    requires InOrder(es, tight) && Idle(e)
    ensures InOrder(es[k := e], tight)
  {
    if Fitting(e, tight) { FittingFits(e, tight); }
  }

  lemma {:induction false} UnavailableMoves(es: map<nat, Envelope>, k: nat, e: Envelope, ws: seq<UnavailableWindow>, tight: bool)
    requires InOrder(es, tight) && Idle(e)
    ensures var d := WithUnavailable(e, ws);
            && Idle(d) && d == e.(levels := d.levels)
            && Moves(es[k := e], UnavailableEdits(k, e, ws), es[k := d], tight)
    decreases |ws|
  {
    hide InOrder, Idle, Moves, SetUnavailable;
    if ws == [] {
      IdleInOrder(es, k, e, tight);
      MovesNone(es[k := e], tight);
    } else {
      var before, w := ws[..|ws| - 1], ws[|ws| - 1].interval;
      UnavailableMoves(es, k, e, before, tight);
      var d := WithUnavailable(e, before);
      if !(w.end <= e.origin || e.origin + e.horizon <= w.start) {
        IdleAfter(d, w);
        IdleInOrder(es, k, d, tight);
        IdleInOrder(es, k, SetUnavailable(d, w, 0), tight);
        var edit := Write(k, TreapRun.SetCapacity(w.start, w.end, 0));
        UnavailableIsEdit(es, k, d, w);
        MovesOne(es[k := d], edit, tight);
        MovesThen(es[k := e], UnavailableEdits(k, e, before), es[k := d], [edit], es[k := SetUnavailable(d, w, 0)], tight);
      } else {
        IdleInOrder(es, k, d, tight);
        MovesNone(es[k := d], tight);
        MovesThen(es[k := e], UnavailableEdits(k, e, before), es[k := d], [], es[k := d], tight);
      }
    }
  }

  lemma IdleAfter(d: Envelope, w: Interval)
    requires Idle(d)
    ensures Idle(SetUnavailable(d, w, 0)) && SetUnavailable(d, w, 0) == d.(levels := SetUnavailable(d, w, 0).levels)
  {
  }

  lemma UnavailableIsEdit(es: map<nat, Envelope>, k: nat, d: Envelope, w: Interval)
    ensures ReplayOne(es[k := d], Write(k, TreapRun.SetCapacity(w.start, w.end, 0))) == es[k := SetUnavailable(d, w, 0)]
  {
    hide Levels.Changed;
    assert es[k := d][k := SetUnavailable(d, w, 0)] == es[k := SetUnavailable(d, w, 0)];
  }

  /** The index installed and its unavailable windows set. */
  ghost function InstallEdits(s: State, p: Publication): seq<Edit> {
    [Install(p.id, FreshOf(s, p))] + UnavailableEdits(p.id, FreshOf(s, p), p.unavailable)
  }

  lemma InstallMoves(s: State, p: Publication, tight: bool)
    requires Steady(s) && p.totalCapacity.value > 0
    ensures Moves(s.envelopes, InstallEdits(s, p), s.envelopes[p.id := PublishedEnvelope(s, p)], tight)
    ensures Idle(PublishedEnvelope(s, p)) && PublishedEnvelope(s, p) == FreshOf(s, p).(levels := PublishedEnvelope(s, p).levels)
  {
    hide Steady, Orderly, InOrder, Idle, WithUnavailable, UnavailableEdits, Moves, FreshEnvelope;
    SteadyIsOrderly(s, tight);
    OrderlyInOrder(s, tight);
    var e := FreshOf(s, p);
    FreshIsIdle(s, p);
    IdleInOrder(s.envelopes, p.id, e, tight);
    MovesOne(s.envelopes, Install(p.id, e), tight);
    UnavailableMoves(s.envelopes, p.id, e, p.unavailable, tight);
    MovesThen(s.envelopes, [Install(p.id, e)], s.envelopes[p.id := e], UnavailableEdits(p.id, e, p.unavailable), s.envelopes[p.id := PublishedEnvelope(s, p)], tight);
  }

  lemma FreshIsIdle(s: State, p: Publication)
    requires p.totalCapacity.value > 0
    ensures Idle(FreshOf(s, p)) && FreshOf(s, p).levels == FreeLevels(FreshOf(s, p))
  {
  }

  lemma InstalledCapped(s: State, t: State, p: Publication)
    requires Capped(s) && t.config == s.config && t.envelopes == s.envelopes[p.id := PublishedEnvelope(s, p)]
    requires Idle(PublishedEnvelope(s, p)) && PublishedEnvelope(s, p) == FreshOf(s, p).(levels := PublishedEnvelope(s, p).levels)
    ensures Capped(t)
  {
    hide PublishedEnvelope;
    forall resource, x | InSpan(t, resource, x) ensures 0 <= LevelOf(t, resource, x).cap <= t.envelopes[resource].capacity.value {
      assert resource != p.id ==> InSpan(s, resource, x);
    }
  }

  /** Re-adding only raises hard and soft levels. */
  ghost predicate Grows(s: State, t: State) {
    && Kept(s, t)
    && forall resource, x :: InSpan(s, resource, x) ==>
                               var v, u := LevelOf(s, resource, x), LevelOf(t, resource, x);
                               v.hard <= u.hard && v.soft <= u.soft && v.held == u.held
  }

  lemma GrowsThen(s: State, t: State, u: State)
    requires Grows(s, t) && Grows(t, u)
    ensures Grows(s, u)
  {
    forall resource, x | InSpan(s, resource, x) ensures InSpan(t, resource, x) {
    }
  }

  lemma GrowsSelf(s: State)
    ensures Grows(s, s)
  {
  }

  /** Between a start without negative levels and an end that is orderly. */
  lemma BetweenGrows(s: State, x: State, t: State, tight: bool)
    requires Grows(s, x) && Grows(x, t) && Orderly(t, tight)
    requires forall resource, k :: InSpan(s, resource, k) ==> NotNegative(LevelOf(s, resource, k))
    ensures Orderly(x, tight)
  {
    hide EffOf, Max;
    forall resource, k | InSpan(x, resource, k) ensures OrderlyAt(LevelOf(x, resource, k), x.envelopes[resource], tight) {
      assert InSpan(s, resource, k) && InSpan(t, resource, k);
      assert OrderlyAt(LevelOf(t, resource, k), t.envelopes[resource], tight);
    }
  }

  predicate NotNegative(v: Level) {
    0 <= v.hard && 0 <= v.soft && 0 <= v.held
  }

  ghost predicate PositiveRecords(s: State) {
    forall id :: id in s.reservations ==> 0 < s.reservations[id].quantity.value
  }

  lemma ReadmitWrites(s: State, resource: nat, id: nat)
    requires PositiveRecords(s)
    ensures var t := Readmit(s, resource, id);
            OneWrite(s, ReadmitEdits(s, resource, id), t) && Grows(s, t) && PositiveRecords(t)
  {
    hide Contribute, OneWrite, ContributeEdits, HoldsCapacity, Grows, Demoted;
    if id in s.reservations && s.reservations[id].resource == resource && HoldsCapacity(s.reservations[id].lifecycle) {
      var r := s.reservations[id];
      var (s1, r1) := Contribute(s, r);
      ContributeWrites(s, r);
      ContributeShape(s, r);
      SameWrite(s, ContributeEdits(s, r), s1, s, Readmit(s, resource, id));
      ContributeGrows(s, r, Readmit(s, resource, id), ContributeEdits(s, r));
      DemotedQuantity(s, r);
    } else {
      NoWrite(s, s);
      GrowsSelf(s);
    }
  }

  lemma DemotedQuantity(s: State, r: Reservation)
    ensures Demoted(Contribute(s, r).1).quantity == r.quantity
  {
    hide AddCommitted;
  }

  lemma ContributeGrows(s: State, r: Reservation, t: State, edits: seq<Edit>)
    requires 0 < r.quantity.value && OneWrite(s, edits, t) && t.envelopes == Contribute(s, r).0.envelopes
    ensures Grows(s, t)
  {
    hide AddCommitted, OneWrite;
    OneWriteKept(s, edits, t);
    ContributeMoves(s, r);
    var (s1, r1) := Contribute(s, r);
    forall resource, x | InSpan(s, resource, x)
      ensures var v, u := LevelOf(s, resource, x), LevelOf(t, resource, x); v.hard <= u.hard && v.soft <= u.soft && v.held == u.held
    {
      assert InSpan(s1, resource, x) && LevelOf(s1, resource, x) == LevelOf(t, resource, x);
      FlaggedWeighsMore(r, r1, resource, x);
    }
  }

  lemma FlaggedWeighsMore(r: Reservation, r1: Reservation, resource: nat, x: int)
    requires 0 < r.quantity.value && (r1 == r || r1 == r.(contributes := true))
    ensures HardWeight(r, resource, x) <= HardWeight(r1, resource, x) && SoftWeight(r, resource, x) <= SoftWeight(r1, resource, x)
  {
  }

  lemma {:induction false} ReadmitMoves(s: State, resource: nat, order: seq<nat>, t: State, tight: bool)
    requires PositiveRecords(s) && Orderly(t, tight)
    requires forall resource, k :: InSpan(s, resource, k) ==> NotNegative(LevelOf(s, resource, k))
    requires var f := (x: State, id: nat) => Readmit(x, resource, id); Grows(Fold(s, order, f), t)
    ensures var f, g := (x: State, id: nat) => Readmit(x, resource, id), (x: State, id: nat) => ReadmitEdits(x, resource, id);
            var u := Fold(s, order, f);
            && Moves(s.envelopes, FoldEdits(s, order, f, g), u.envelopes, tight) && Grows(s, u) && PositiveRecords(u) && Orderly(u, tight)
    decreases |order|
  {
    hide Moves, Grows, Orderly, Readmit, ReadmitEdits, OneWrite, NotNegative, PositiveRecords;
    var f, g := (x: State, id: nat) => Readmit(x, resource, id), (x: State, id: nat) => ReadmitEdits(x, resource, id);
    if order == [] {
      GrowsSelf(s);
      BetweenGrows(s, s, t, tight);
      OrderlyInOrder(s, tight);
      MovesNone(s.envelopes, tight);
    } else {
      var before, id := order[..|order| - 1], order[|order| - 1];
      var x := Fold(s, before, f);
      ReadmitGrows(s, resource, before);
      ReadmitWrites(x, resource, id);
      var u := Readmit(x, resource, id);
      GrowsThen(x, u, t);
      ReadmitMoves(s, resource, before, t, tight);
      GrowsThen(s, x, u);
      BetweenGrows(s, u, t, tight);
      OneWriteMoves(x, ReadmitEdits(x, resource, id), u, tight);
      MovesThen(s.envelopes, FoldEdits(s, before, f, g), x.envelopes, ReadmitEdits(x, resource, id), u.envelopes, tight);
    }
  }

  lemma {:induction false} ReadmitGrows(s: State, resource: nat, order: seq<nat>)
    requires PositiveRecords(s)
    ensures PositiveRecords(Fold(s, order, (x: State, id: nat) => Readmit(x, resource, id)))
    decreases |order|
  {
    hide PositiveRecords, Readmit, OneWrite, Grows;
    var f := (x: State, id: nat) => Readmit(x, resource, id);
    if order != [] {
      ReadmitGrows(s, resource, order[..|order| - 1]);
      ReadmitWrites(Fold(s, order[..|order| - 1], f), resource, order[|order| - 1]);
    }
  }

  lemma PublishGoes(s: State, p: Publication, order: seq<nat>, tight: bool)
    requires Steady(s) && (forall id :: id in s.reservations ==> id in order)
    requires IsReplacement(s, p) ==> PublishGuard(s, p)
    ensures Goes(s, PublishEdits(s, p, order), PublishResource(s, p, order).0, tight)
  {
    hide Steady, Consistent, Goes, PublishResource, PublishGuard, InstallEdits, Struct, PublishEdits, IsReplacement;
    ReplacementIs(s, p, order);
    SteadyIsConsistent(s);
    PublishIff(s, p, order);
    var (t, out) := PublishResource(s, p, order);
    PublishCases(s, p, order);
    if out == RegisteredNew {
      NewResourceGoes(s, p, t, tight);
    } else if out == Replaced {
      ReplacementGoes(s, p, order, tight);
    } else {
      StandsStill(s, t, tight);
    }
  }

  lemma PublishCases(s: State, p: Publication, order: seq<nat>)
    ensures var (t, out) := PublishResource(s, p, order);
            && (out == RegisteredNew ==> p.totalCapacity.value > 0 && t.envelopes == Reinstalled(s, p).envelopes && t.config == s.config
                                         && PublishEdits(s, p, order) == InstallEdits(s, p))
            && (out == Replaced ==> p.totalCapacity.value > 0)
            && (out != RegisteredNew && out != Replaced ==> t.envelopes == s.envelopes && t.config == s.config && PublishEdits(s, p, order) == [])
  {
    hide PublishedEnvelope, Fold, Readmit, FoldEdits, UnavailableEdits, FreshOf;
    assert InstallEdits(s, p) + [] == InstallEdits(s, p);
  }

  lemma NewResourceGoes(s: State, p: Publication, t: State, tight: bool)
    requires Steady(s) && p.totalCapacity.value > 0 && Consistent(t) && t.envelopes == Reinstalled(s, p).envelopes && t.config == s.config
    ensures Goes(s, InstallEdits(s, p), t, tight)
  {
    hide Consistent, Moves, InstallEdits, PublishedEnvelope, Idle, Capped;
    InstallMoves(s, p, tight);
    InstalledCapped(s, t, p);
  }

  lemma ReplacementGoes(s: State, p: Publication, order: seq<nat>, tight: bool)
    requires Steady(s) && p.totalCapacity.value > 0 && PublishResource(s, p, order).1 == Replaced && Consistent(PublishResource(s, p, order).0)
    ensures Goes(s, PublishEdits(s, p, order), PublishResource(s, p, order).0, tight)
  {
    hide Consistent, Moves, InstallEdits, PublishedEnvelope, Idle, Capped, PublishResource, Orderly, Grows, PositiveRecords, NotNegative, Fold, FoldEdits,
         PublishEdits, Struct, OneWrite;
    var s2, t := Reinstalled(s, p), PublishResource(s, p, order).0;
    var f, g := (x: State, id: nat) => Readmit(x, p.id, id), (x: State, id: nat) => ReadmitEdits(x, p.id, id);
    SteadyIsConsistent(s);
    InstallMoves(s, p, tight);
    InstalledCapped(s, s2, p);
    ReplacedIsFold(s, p, order);
    StartOfReplacement(s, p);
    ReadmitGrowsTo(s2, p.id, order);
    KeptFrom(s2, t);
    KeptCapped(s2, t);
    SteadyIsOrderly(t, tight);
    GrowsSelf(t);
    ReadmitMoves(s2, p.id, order, t, tight);
    MovesThen(s.envelopes, InstallEdits(s, p), s2.envelopes, FoldEdits(s2, order, f, g), t.envelopes, tight);
    ReplacementEdits(s, p, order);
  }

  lemma ReplacementEdits(s: State, p: Publication, order: seq<nat>)
    requires PublishResource(s, p, order).1 == Replaced
    ensures PublishEdits(s, p, order) ==
            InstallEdits(s, p) + FoldEdits(Reinstalled(s, p), order, (x: State, id: nat) => Readmit(x, p.id, id), (x: State, id: nat) => ReadmitEdits(x, p.id, id))
  {
    hide PublishResource, FoldEdits, UnavailableEdits, FreshOf;
  }

  lemma KeptFrom(s: State, t: State)
    requires Grows(s, t)
    ensures Kept(s, t)
  {
  }

  lemma {:induction false} ReadmitGrowsTo(s: State, resource: nat, order: seq<nat>)
    requires PositiveRecords(s)
    ensures Grows(s, Fold(s, order, (x: State, id: nat) => Readmit(x, resource, id)))
    decreases |order|
  {
    hide PositiveRecords, Readmit, OneWrite, Grows;
    var f := (x: State, id: nat) => Readmit(x, resource, id);
    if order == [] {
      GrowsSelf(s);
    } else {
      var x := Fold(s, order[..|order| - 1], f);
      ReadmitGrowsTo(s, resource, order[..|order| - 1]);
      ReadmitGrows(s, resource, order[..|order| - 1]);
      ReadmitWrites(x, resource, order[|order| - 1]);
      GrowsThen(s, x, Readmit(x, resource, order[|order| - 1]));
    }
  }

  lemma StartOfReplacement(s: State, p: Publication)
    requires Steady(s) && Idle(PublishedEnvelope(s, p))
    ensures PositiveRecords(Reinstalled(s, p))
    ensures forall resource, k :: InSpan(Reinstalled(s, p), resource, k) ==> NotNegative(LevelOf(Reinstalled(s, p), resource, k))
  {
    hide PublishedEnvelope, Capped, Struct, NoOvercommit, Mirror;
    forall id | id in s.reservations ensures 0 < s.reservations[id].quantity.value {
      WeightIsPositive(s, id);
    }
    forall resource, k | InSpan(Reinstalled(s, p), resource, k) ensures NotNegative(LevelOf(Reinstalled(s, p), resource, k)) {
      if resource != p.id {
        assert InSpan(s, resource, k);
        LevelsNonNegative(s, resource, k);
      }
    }
  }

  // ---- steps and runs ----

  /** The guard; for tight levels, room for the whole of a commit even before its hold comes off. */
  ghost predicate IndexGuard(s: State, op: Op, tight: bool) {
    && Guard(s, op) && WalksAll(s, op)
    && (tight && op.OpBundle? ==> forall m :: m in op.members ==> IsWholeIfHard(m))
    && (tight && op.OpCommit? && CommitAllowed(s, op.request, op.commitHold) ==> CommitGuard(s, op.request, None))
  }

  ghost predicate Stays(s: State, t: State) {
    t.envelopes == s.envelopes && t.config == s.config
  }

  lemma PassingStands(s: State, op: Op)
    requires IsPassing(op)
    ensures Stays(s, Step(s, op)) && StepEdits(s, op) == []
  {
    hide Stays, InvalidateResource, AdvanceGeneration, RevalidateResource, SetEpoch, Activate, Consume, Transfer;
    match op
    case OpEpoch(e) => EpochStays(s, e);
    case OpInvalidate(id) => InvalidateStays(s, id);
    case OpAdvance(id, g, c) => AdvanceStays(s, id, g, c);
    case OpRevalidate(id, p) => RevalidateStays(s, id, p);
    case OpActivate(id, g, e) => ActivateRecords(s, id, g, e); RecordsStay(s, Activate(s, id, g, e).0.reservations);
    case OpConsume(id, g, a, e) => ConsumeRecords(s, id, g, a, e); RecordsStay(s, Consume(s, id, g, a, e).0.reservations);
    case OpTransfer(id, g, o, og, e) => TransferStays(s, id, g, o, og, e);
  }

  lemma EpochStays(s: State, e: nat)
    ensures Stays(s, SetEpoch(s, e).0)
  {
  }

  lemma RecordsStay(s: State, m: map<nat, Reservation>)
    ensures Stays(s, s.(reservations := m))
  {
  }

  lemma InvalidateStays(s: State, id: nat)
    ensures Stays(s, InvalidateResource(s, id).0)
  {
    hide Invalidated;
  }

  lemma AdvanceStays(s: State, id: nat, generation: nat, condition: Byte)
    ensures Stays(s, AdvanceGeneration(s, id, generation, condition).0)
  {
    hide Flagged;
  }

  lemma RevalidateStays(s: State, id: nat, p: Publication)
    ensures Stays(s, RevalidateResource(s, id, p).0)
  {
    hide Revalidated;
  }

  lemma ActivateRecords(s: State, id: nat, generation: nat, e: Evidence)
    ensures Activate(s, id, generation, e).0 == s.(reservations := Activate(s, id, generation, e).0.reservations)
  {
    hide Contains, Activate;
    if IsCurrent(s, id, generation) {
      Fences.ActivateCases(s, id, generation, e);
    } else {
      Fences.StaleIsRefused(s, OpActivate(id, generation, e));
      Fences.StepActivate(s, OpActivate(id, generation, e));
    }
  }

  lemma ConsumeRecords(s: State, id: nat, generation: nat, amount: Quantity, e: Evidence)
    ensures Consume(s, id, generation, amount, e).0 == s.(reservations := Consume(s, id, generation, amount, e).0.reservations)
  {
    hide Fresh, IsLive;
  }

  lemma TransferStays(s: State, id: nat, generation: nat, owner: nat, ownerGeneration: nat, e: Evidence)
    ensures Stays(s, Transfer(s, id, generation, owner, ownerGeneration, e).0)
  {
    hide Fresh, Remembered, HistoryOf;
  }

  lemma StepGoes(s: State, op: Op, tight: bool)
    requires Steady(s) && IndexGuard(s, op, tight)
    ensures Goes(s, StepEdits(s, op), Step(s, op), tight)
  {
    hide Steady, Consistent, Goes, Struct, Step, PublishGuard, Loses, CommitGuard, ChangeGuard, NoHoldLost, LastHold, CommitAllowed, IsOrderly, IsReplacement, IsGrantable;
    if IsPassing(op) {
      hide Guard, StepEdits, IsPassing;
      SteadyIsConsistent(s);
      ConsistentPassing(s, op);
      PassingStands(s, op);
      StandsStill(s, Step(s, op), tight);
    } else if IsQuiet(op) {
      hide Guard;
      QuietGoes(s, op, tight);
    } else {
      NotQuiet(op);
      StepIs(s, op);
      hide Commit, CommitBundle, AcquireHold, PublishResource, IsQuiet, PublishEdits, AcquireEdits, CommitEdits, BundleEdits, ChangeEdits;
      match op
      case OpPublish(p, order) => PublishGoes(s, p, order, tight);
      case OpCreateHold(spec, now) => AcquireGoes(s, spec, now, tight);
      case OpCommit(req, hold) => CommitIsOne(s, req, hold); CommitGoes(s, req, hold, tight);
      case OpBundle(ms, now) => BundleGoes(s, ms, now, tight);
      case OpResize(_, _, _, _) => ChangeGoes(s, op, tight);
      case OpRenew(_, _, _, _) => ChangeGoes(s, op, tight);
    }
  }

  lemma CommitIsOne(s: State, req: Request, hold: Option<nat>)
    ensures Commit(s, req, hold).0 == CommitOne(s, req, hold).0
  {
    hide Assess, Contribute, NewReservation;
  }

  lemma QuietGoes(s: State, op: Op, tight: bool)
    requires Steady(s) && IsQuiet(op) && !IsPassing(op)
    ensures Goes(s, StepEdits(s, op), Step(s, op), tight)
  {
    hide Steady, Goes, ReleaseReservation, ReleaseHold, Cancel, ExpireHolds, ExpireDue, ReleaseEdits, CancelEdits, ReleaseHoldEdits, FoldEdits, IsQuiet, IsPassing;
    NotPassing(op);
    match op
    case OpReleaseHold(id, g) => ReleaseHoldGoes(s, id, g, tight);
    case OpExpireHolds(now, order) => ExpireHoldsGoes(s, now, order, tight);
    case OpRelease(id, g, e) => ReleaseGoes(s, id, g, e, tight);
    case OpCancel(id, g) => CancelGoes(s, id, g, tight);
    case OpExpireDue(now, order) => ExpireDueGoes(s, now, order, tight);
  }

  ghost predicate IndexGuarded(s: State, ops: seq<Op>, tight: bool) {
    forall k :: 0 <= k < |ops| ==> IndexGuard(RunOps(s, ops[..k]), ops[k], tight)
  }

  /** The writes of a whole run lead from its first envelopes to its last, in order all along. */
  lemma {:induction false} RunGoes(s: State, ops: seq<Op>, tight: bool)
    requires Steady(s) && IndexGuarded(s, ops, tight)
    ensures Goes(s, RunEdits(s, ops), RunOps(s, ops), tight)
    decreases |ops|
  {
    hide Steady, Goes, Step, StepEdits, IndexGuard;
    if ops == [] {
      NothingGoes(s, tight);
    } else {
      var before, op := ops[..|ops| - 1], ops[|ops| - 1];
      assert forall k :: 0 <= k < |before| ==> before[..k] == ops[..k] && before[k] == ops[k];
      RunGoes(s, before, tight);
      var x := RunOps(s, before);
      GoesSteady(s, RunEdits(s, before), x, tight);
      StepGoes(x, op, tight);
      GoesThen(s, RunEdits(s, before), x, StepEdits(x, op), Step(x, op), tight);
    }
  }

  // ---- the index behind an envelope ----

  /** The index that stands for an envelope after a log of operations. */
  ghost function IndexAfter(e: Envelope, log: seq<TreapRun.Op>): TreapRun.Index
    requires e.horizon > 0
  {
    TreapRun.Run(TreapRun.Initial(e.origin, e.horizon, e.capacity.value, EffOf(e.ratio)), log, EffOf(e.ratio))
  }

  lemma EffIsOk(e: Envelope, tight: bool)
    requires Fitting(e, tight)
    ensures TreapMachine.EffOk(EffOf(e.ratio), BoundsOf(e, tight))
  {
    hide Int64.EffCapacity;
    FittingFits(e, tight);
    forall c | 0 <= c <= e.capacity.value ensures 0 <= EffOf(e.ratio)(c) <= EffMax(e) {
      EffWithin(e, c);
    }
  }

  /** Every prefix of a log with the envelope's own writes shows levels in order. */
  lemma LogInOrder(edits: seq<Edit>, es: map<nat, Envelope>, k: nat, log: seq<TreapRun.Op>, tight: bool)
    requires Moves(map[], edits, es, tight) && k in es && Fitting(es[k], tight) && Writes(log) == LogOf(edits, k)
    ensures TreapRun.ProfileAfter(FreeLevels(es[k]), log) == es[k].levels
    ensures forall i :: 0 <= i <= |log| ==>
              TreapMachine.ProfileOk(TreapRun.ProfileAfter(FreeLevels(es[k]), log[..i]), BoundsOf(es[k], tight))
  {
    hide TreapRun.ProfileAfter, FreeProfile, TreapMachine.ProfileOk, InOrder, InstallsFresh, Replay;
    var e := es[k];
    LogExplains(edits, k, 0);
    ReadsDoNotMatter(FreeLevels(e), log, |log|);
    assert log[..|log|] == log && edits[..|edits|] == edits && LogOf(edits, k)[..|LogOf(edits, k)|] == LogOf(edits, k);
    forall i | 0 <= i <= |log|
      ensures TreapMachine.ProfileOk(TreapRun.ProfileAfter(FreeLevels(e), log[..i]), BoundsOf(e, tight))
    {
      ReadsDoNotMatter(FreeLevels(e), log, i);
      var j := |Writes(log[..i])|;
      LogExplains(edits, k, j);
      var n :| 0 <= n <= |edits| && Reached(edits, k, n, j);
      OneInOrder(Replay(map[], edits[..n]), k, e, tight);
    }
  }

  lemma OneInOrder(es: map<nat, Envelope>, k: nat, e: Envelope, tight: bool)
    requires InOrder(es, tight) && k in es && es[k] == e.(levels := es[k].levels) && Fitting(e, tight)
    ensures TreapMachine.ProfileOk(es[k].levels, BoundsOf(e, tight))
  {
  }

  /** The tree shows the envelope's levels and stores nothing outside 64 bits. */
  ghost predicate Stands(x: TreapRun.Index, e: Envelope) {
    x.tree.Node? && TreapRun.View(x) == e.levels && TreapMachine.Fits(x.tree)
  }

  lemma LogStands(edits: seq<Edit>, es: map<nat, Envelope>, k: nat, log: seq<TreapRun.Op>, tight: bool)
    requires Moves(map[], edits, es, tight) && k in es && es[k].horizon > 0 && Fitting(es[k], tight) && Writes(log) == LogOf(edits, k)
    ensures Stands(IndexAfter(es[k], log), es[k])
    ensures !tight ==> forall j :: 0 <= j < |log| ==> TreapStores.StepStores(IndexAfter(es[k], log[..j]), log[j], EffOf(es[k].ratio))
  {
    hide TreapRun.ProfileAfter, TreapMachine.ProfileOk, Moves, Writes, LogOf, TreapRun.Run, TreapRun.Initial, TreapStores.StepStores,
         TreapMachine.InRange, TreapMachine.Fits, TreapMachine.EffOk;
    var e, m, eff := es[k], BoundsOf(es[k], tight), EffOf(es[k].ratio);
    LogInOrder(edits, es, k, log, tight);
    EffIsOk(e, tight);
    TreapRun.RunRefines(e.origin, e.horizon, e.capacity.value, log, eff);
    TreapMachine.RunStaysInRange(e.origin, e.horizon, e.capacity.value, log, m, eff);
    TreapMachine.InRangeFits(IndexAfter(e, log).tree, m, eff);
    if !tight {
      TreapStores.RunStoresInRange(e.origin, e.horizon, e.capacity.value, log, m, eff);
    }
  }

  lemma NewSteady(maxHistory: nat, maxHolds: nat, horizon: nat)
    ensures Steady(NewState(maxHistory, maxHolds, horizon)) && NewState(maxHistory, maxHolds, horizon).envelopes == map[]
  {
    hide Consistent;
    NewStateIsConsistent(maxHistory, maxHolds, horizon);
  }

  /** From an empty registry, through any guarded run: take any log whose writes are exactly those
      the run made to a resource's index, in order, with any reads in between. Its tree shows the
      envelope's levels and, where twice the capacity plus the effective capacity fits 64 bits,
      nothing any of its operations stores on the way, not even between the four writes of a push,
      leaves 64 bits. */
  lemma NothingOverflows(maxHistory: nat, maxHolds: nat, horizon: nat, ops: seq<Op>, k: nat, log: seq<TreapRun.Op>)
    requires var s := NewState(maxHistory, maxHolds, horizon);
             && Guarded(s, ops) && k in RunOps(s, ops).envelopes && Fitting(RunOps(s, ops).envelopes[k], false)
             && Writes(log) == LogOf(RunEdits(s, ops), k)
    ensures var e := RunOps(NewState(maxHistory, maxHolds, horizon), ops).envelopes[k];
            && e.horizon > 0 && Stands(IndexAfter(e, log), e)
            && forall j :: 0 <= j < |log| ==> TreapStores.StepStores(IndexAfter(e, log[..j]), log[j], EffOf(e.ratio))
  {
    hide Consistent, Guarded, IndexGuarded, RunOps, RunEdits, Fitting, IndexAfter, Stands, TreapStores.StepStores, Moves, Writes, LogOf;
    GuardIsEnough(NewState(maxHistory, maxHolds, horizon), ops);
    RunsDown(maxHistory, maxHolds, horizon, ops, k, false);
    var s := NewState(maxHistory, maxHolds, horizon);
    LogStands(RunEdits(s, ops), RunOps(s, ops).envelopes, k, log, false);
  }

  lemma GuardIsEnough(s: State, ops: seq<Op>)
    requires Guarded(s, ops)
    ensures IndexGuarded(s, ops, false)
  {
    hide Guard, WalksAll, RunOps;
  }

  /** When commits moreover have room before their hold comes off, capacity plus effective capacity is enough for the
      trees between operations. */
  lemma NoTreeOverflows(maxHistory: nat, maxHolds: nat, horizon: nat, ops: seq<Op>, k: nat, log: seq<TreapRun.Op>)
    requires var s := NewState(maxHistory, maxHolds, horizon);
             && IndexGuarded(s, ops, true) && k in RunOps(s, ops).envelopes && Fitting(RunOps(s, ops).envelopes[k], true)
             && Writes(log) == LogOf(RunEdits(s, ops), k)
    ensures var e := RunOps(NewState(maxHistory, maxHolds, horizon), ops).envelopes[k];
            e.horizon > 0 && Stands(IndexAfter(e, log), e)
  {
    hide Consistent, IndexGuarded, RunOps, RunEdits, Fitting, IndexAfter, Stands, Moves, Writes, LogOf;
    RunsDown(maxHistory, maxHolds, horizon, ops, k, true);
    var s := NewState(maxHistory, maxHolds, horizon);
    LogStands(RunEdits(s, ops), RunOps(s, ops).envelopes, k, log, true);
  }

  lemma RunsDown(maxHistory: nat, maxHolds: nat, horizon: nat, ops: seq<Op>, k: nat, tight: bool)
    requires var s := NewState(maxHistory, maxHolds, horizon); IndexGuarded(s, ops, tight) && k in RunOps(s, ops).envelopes
    ensures var s := NewState(maxHistory, maxHolds, horizon);
            Moves(map[], RunEdits(s, ops), RunOps(s, ops).envelopes, tight) && RunOps(s, ops).envelopes[k].horizon > 0
  {
    hide Consistent, IndexGuarded, RunOps, RunEdits, Moves;
    NewSteady(maxHistory, maxHolds, horizon);
    RunGoes(NewState(maxHistory, maxHolds, horizon), ops, tight);
  }
}
