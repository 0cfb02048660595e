/** Recovery at the end of a run: what a load after a save gives back in any state that a guarded
    run reaches. */
module Recovery {
  import opened Types
  import opened Levels
  import opened Envelopes
  import opened Registry
  import opened Fencing
  import opened Mirrors
  import opened MirrorSteps
  import opened MirrorRuns
  import opened Flags
  import opened Persistence
  import opened Records
  import opened Codec
  import Authority
  import Bundles
  import Exactness
  import Fences
  import Machines

  // ---- records stay filed, envelopes stay those of their resources ----

  ghost predicate Kept(s: State) {
    && Spanned(s) && s.config.horizon > 0
    && (forall k :: k in s.resources ==> s.resources[k].id == k)
    && (forall k :: k in s.sets ==> s.sets[k].id == k)
  }

  /** Nothing that `Kept` speaks of differs. */
  ghost predicate Alike(s: State, t: State) {
    && SameSpans(s, t) && t.config == s.config && t.sets == s.sets
    && t.resources.Keys == s.resources.Keys
    && forall k :: k in s.resources ==>
                     t.resources[k].id == s.resources[k].id && t.resources[k].totalCapacity == s.resources[k].totalCapacity && t.resources[k].unit == s.resources[k].unit
  }

  lemma AlikeKept(s: State, t: State)
    requires Kept(s) && Alike(s, t)
    ensures Kept(t)
  {
  }

  lemma AlikeTwice(s: State, t: State, u: State)
    requires Alike(s, t) && Alike(t, u)
    ensures Alike(s, u)
  {
  }

  /** Only records, counters and boots differ. */
  ghost predicate Clerical(s: State, t: State) {
    t.envelopes == s.envelopes && t.config == s.config && t.sets == s.sets && t.resources == s.resources
  }

  lemma ClericalAlike(s: State, t: State, u: State)
    requires Alike(s, t) && Clerical(t, u)
    ensures Alike(s, u)
  {
  }

  lemma SelfAlike(s: State)
    ensures Alike(s, s)
  {
  }

  lemma WithdrawAlike(s: State, r: Reservation)
    ensures Alike(s, Withdraw(s, r).0)
  {
    hide Withdraw;
    WithdrawMoves(s, r);
    WithdrawOnly(s, r);
  }

  lemma ContributeAlike(s: State, r: Reservation)
    ensures Alike(s, Contribute(s, r).0)
  {
    hide Contribute;
    ContributeMoves(s, r);
    Exactness.ContributeShape(s, r);
  }

  lemma DropAlike(s: State, id: nat, state: Byte)
    requires Struct(s) && id in s.holds
    ensures Alike(s, DropHold(s, id, state))
  {
    hide DropHold, Struct;
    HoldHasEnvelope(s, id);
    DropMoves(s, id, state);
    DropOnly(s, id, state);
  }

  lemma DropOnly(s: State, id: nat, state: Byte)
    requires id in s.holds
    ensures var t := DropHold(s, id, state); t == s.(envelopes := t.envelopes, holds := t.holds)
  {
    hide AddHeld;
  }

  lemma AcquireAlike(s: State, spec: HoldSpec, now: int)
    requires Struct(s)
    ensures Alike(s, AcquireHold(s, spec, now).0)
  {
    hide AcquireHold, Struct, Held;
    SelfAlike(s);
    if AcquireHold(s, spec, now).1 {
      AcquireMoves(s, spec, now);
      GrantedHold(s, spec, now);
      Machines.HeldOnly(s.(holds := AcquireHold(s, spec, now).0.holds), AcquireHold(s, spec, now).0.holds[spec.id].resource, spec.window, spec.quantity.value);
    } else {
      RefusedHold(s, spec, now);
    }
  }

  lemma CommitAlike(s: State, req: Request, hold: Option<nat>)
    requires Struct(s)
    ensures Alike(s, CommitOne(s, req, hold).0)
  {
    hide CommitOne, CommitAllowed, Struct, DropHold, Alike;
    SelfAlike(s);
    if CommitAllowed(s, req, hold) {
      if hold.Some? { CommitThenDrop(s, req, hold.value); }
      RecordAlike(s, req);
      if hold.Some? {
        StructCommit(s, req, None);
        Bundles.AllowedHold(s, req, hold.value);
        CommitHolds(s, req);
        DropAlike(CommitOne(s, req, None).0, hold.value, HOLD_COMMITTED);
        AlikeTwice(s, CommitOne(s, req, None).0, CommitOne(s, req, hold).0);
      }
    } else {
      RefusedCommit(s, req, hold);
    }
  }

  lemma CommitHolds(s: State, req: Request)
    requires Struct(s) && CommitAllowed(s, req, None)
    ensures CommitOne(s, req, None).0.holds == s.holds
  {
    hide CommitOne, CommitAllowed, Struct;
    CommitMoves(s, req);
  }

  lemma RecordAlike(s: State, req: Request)
    requires Struct(s) && CommitAllowed(s, req, None)
    ensures Alike(s, CommitOne(s, req, None).0)
  {
    hide CommitOne, CommitAllowed, Struct, NewReservation;
    CommitMoves(s, req);
    CommitShape(s, req, None);
    Bundles.CommitKeepsSets(s, req, None);
  }

  lemma EndAlike(s: State, op: Op)
    requires op.OpRelease? || op.OpCancel?
    ensures Alike(s, Step(s, op))
  {
    hide Withdraw, Fresh, IsEnded, Alike;
    SelfAlike(s);
    if op.id in s.reservations {
      WithdrawAlike(s, s.reservations[op.id]);
      var s1 := Withdraw(s, s.reservations[op.id]).0;
      forall u | Clerical(s1, u) ensures Alike(s, u) { ClericalAlike(s, s1, u); }
    }
  }

  lemma ExpireOneAlike(s: State, now: int, id: nat)
    ensures Alike(s, ExpireOne(s, now, id))
  {
    hide Withdraw, HoldsCapacity, Alike;
    SelfAlike(s);
    if id in s.reservations {
      WithdrawAlike(s, s.reservations[id]);
      var s1 := Withdraw(s, s.reservations[id]).0;
      forall u | Clerical(s1, u) ensures Alike(s, u) { ClericalAlike(s, s1, u); }
    }
  }

  lemma ModifyAlike(s: State, op: Op)
    requires op.OpResize? || op.OpRenew?
    ensures Alike(s, Step(s, op))
  {
    hide Withdraw, Contribute, Headroom, Alike, Resized, Renewed, Remembered, HistoryOf;
    SelfAlike(s);
    if op.id in s.reservations {
      WithdrawAlike(s, s.reservations[op.id]);
      var s1 := Withdraw(s, s.reservations[op.id]).0;
      forall n: Reservation, u | Clerical(Contribute(s1, n).0, u) ensures Alike(s, u) {
        ContributeAlike(s1, n);
        AlikeTwice(s, s1, Contribute(s1, n).0);
        ClericalAlike(s, Contribute(s1, n).0, u);
      }
    }
  }

  lemma ReadmitAlike(s: State, resource: nat, id: nat)
    ensures Alike(s, Readmit(s, resource, id))
  {
    hide Contribute, HoldsCapacity, IsLive, Alike;
    SelfAlike(s);
    if id in s.reservations {
      ContributeAlike(s, s.reservations[id]);
      var s1 := Contribute(s, s.reservations[id]).0;
      forall u | Clerical(s1, u) ensures Alike(s, u) { ClericalAlike(s, s1, u); }
    }
  }

  lemma KeptPublish(s: State, p: Publication, order: seq<nat>)
    requires Kept(s)
    ensures Kept(PublishResource(s, p, order).0)
  {
    hide Fold, Readmit, Alike, Kept, PublishedEnvelope;
    var t := PublishResource(s, p, order).0;
    SelfAlike(s);
    var s1 := s.(workerBoots := s.workerBoots[p.worker := p.workerBoot]);
    ClericalAlike(s, s, s1);
    AlikeKept(s, s1);
    if PublishResource(s, p, order).1 in {RegisteredNew, Replaced} {
      var s2 := s1.(resources := s.resources[p.id := ResourceOf(p)], envelopes := s.envelopes[p.id := PublishedEnvelope(s, p)]);
      KeptInstall(s, s2, p);
      SelfAlike(s2);
      forall x: State, id: nat | Alike(s2, x) ensures Alike(s2, Readmit(x, p.id, id)) {
        ReadmitAlike(x, p.id, id);
        AlikeTwice(s2, x, Readmit(x, p.id, id));
      }
      FoldKeeps(s2, order, (x: State, id: nat) => Readmit(x, p.id, id), x => Alike(s2, x));
      AlikeKept(s2, Fold(s2, order, (x: State, id: nat) => Readmit(x, p.id, id)));
    }
  }

  lemma KeptInstall(s: State, t: State, p: Publication)
    requires Kept(s) && p.totalCapacity.unit == p.unit
    requires t == s.(workerBoots := t.workerBoots, resources := s.resources[p.id := ResourceOf(p)], envelopes := s.envelopes[p.id := PublishedEnvelope(s, p)])
    ensures Kept(t)
  {
    hide WithUnavailable;
    var e := FreshEnvelope(p.unit, p.totalCapacity, p.ratio, p.availableFrom, s.config.horizon);
    UnavailableShape(e, p.unavailable);
    KeysOfPublished(e, p.unavailable);
  }

  lemma BundleKept(s: State, members: seq<Request>, now: int)
    requires Struct(s) && Kept(s)
    ensures Kept(CommitBundle(s, members, now).0)
  {
    hide CommitBundle, Struct, Bundles.Carries, Bundles.RangeWeight;
    var (t, out) := CommitBundle(s, members, now);
    BundleConfig(s, members, now);
    if out.Refused? {
      Bundles.RefusedBundleUndoes(s, members, now);
    } else {
      Bundles.DoneBundleAdds(s, members, now);
    }
  }

  lemma BundleConfig(s: State, members: seq<Request>, now: int)
    ensures CommitBundle(s, members, now).0.config == s.config
  {
    hide AcquireAll, CommitAll, ReleaseRange, CancelRange, AllAdmitted;
    var s0 := s.(nextSetId := s.nextSetId + 1);
    var s1 := AcquireAll(s0, members, now).0;
    AcquireConfig(s0, members, now);
    ReleaseConfig(s1, s.nextHoldId, s1.nextHoldId - 1);
    var (s2, n) := CommitAll(s1, members, s.nextHoldId);
    CommitConfig(s1, members, s.nextHoldId);
    CancelConfig(s2, s.nextReservationId, s.nextReservationId + n);
    ReleaseConfig(CancelRange(s2, s.nextReservationId, s.nextReservationId + n), s.nextHoldId + n, s.nextHoldId + |members|);
  }

  lemma {:induction false} AcquireConfig(s: State, members: seq<Request>, now: int)
    ensures AcquireAll(s, members, now).0.config == s.config
    decreases |members|
  {
    hide AcquireHold;
    if members != [] {
      var s0 := s.(nextHoldId := s.nextHoldId + 1);
      var spec := MemberSpec(members[0], s0.nextHoldId);
      HoldConfig(s0, spec, now);
      AcquireConfig(AcquireHold(s0, spec, now).0, members[1..], now);
    }
  }

  lemma HoldConfig(s: State, spec: HoldSpec, now: int)
    ensures AcquireHold(s, spec, now).0.config == s.config
  {
    hide Headroom, Candidates, AddHeld, ValidSpec;
  }

  lemma {:induction false} CommitConfig(s: State, members: seq<Request>, firstHold: nat)
    ensures CommitAll(s, members, firstHold).0.config == s.config
    decreases |members|
  {
    hide CommitOne;
    if members != [] {
      RecordConfig(s, members[0], Some(firstHold + 1));
      CommitConfig(CommitOne(s, members[0], Some(firstHold + 1)).0, members[1..], firstHold + 1);
    }
  }

  lemma RecordConfig(s: State, req: Request, hold: Option<nat>)
    ensures CommitOne(s, req, hold).0.config == s.config
  {
    hide Assess, AddCommitted, AddHeld, CommitAllowed;
  }

  lemma ProvisionalConfig(s: State, id: nat)
    ensures ReleaseProvisional(s, id).config == s.config
  {
    hide DropHold;
    if id in s.holds { DropOnly(s, id, HOLD_RELEASED); }
  }

  lemma {:induction false} ReleaseConfig(s: State, from: nat, to: int)
    ensures ReleaseRange(s, from, to).config == s.config
    decreases if from < to then to - from else 0
  {
    hide ReleaseProvisional;
    if from < to {
      ProvisionalConfig(s, from + 1);
      ReleaseConfig(ReleaseProvisional(s, from + 1), from + 1, to);
    }
  }

  lemma {:induction false} CancelConfig(s: State, from: nat, to: nat)
    ensures CancelRange(s, from, to).config == s.config
    decreases if from < to then to - from else 0
  {
    hide AddCommitted;
    if from < to { CancelConfig(CancelMember(s, from + 1), from + 1, to); }
  }

  lemma RecordsAlike(s: State, m: map<nat, Reservation>)
    ensures Alike(s, s.(reservations := m))
  {
  }

  /** One resource changes, but not what it is or how much. */
  lemma ResourceAlike(s: State, t: State, id: nat)
    requires t.envelopes == s.envelopes && t.config == s.config && t.sets == s.sets
    requires id in s.resources && id in t.resources && t.resources == s.resources[id := t.resources[id]]
    requires t.resources[id].id == s.resources[id].id && t.resources[id].totalCapacity == s.resources[id].totalCapacity && t.resources[id].unit == s.resources[id].unit
    ensures Alike(s, t)
  {
  }

  lemma InvalidateAlike(s: State, id: nat)
    ensures Alike(s, InvalidateResource(s, id).0)
  {
    hide Invalidated, Alike;
    SelfAlike(s);
    if id in s.resources { ResourceAlike(s, InvalidateResource(s, id).0, id); }
  }

  lemma AdvanceAlike(s: State, id: nat, generation: nat, condition: Byte)
    ensures Alike(s, AdvanceGeneration(s, id, generation, condition).0)
  {
    hide Flagged, Alike;
    SelfAlike(s);
    if id in s.resources && generation > s.resources[id].generation { ResourceAlike(s, AdvanceGeneration(s, id, generation, condition).0, id); }
  }

  lemma RevalidateAlike(s: State, id: nat, p: Publication)
    ensures Alike(s, RevalidateResource(s, id, p).0)
  {
    hide Revalidated, Alike, BootIsStale;
    SelfAlike(s);
    if id in s.resources && !BootIsStale(s, p.worker, p.workerBoot) { ResourceAlike(s, RevalidateResource(s, id, p).0, id); }
  }

  lemma PassingAlike(s: State, op: Op)
    requires IsPassing(op) && Struct(s)
    ensures Alike(s, Step(s, op))
  {
    hide Alike, Struct, Activate, Consume, Transfer, InvalidateResource, AdvanceGeneration, RevalidateResource, SetEpoch;
    match op
    case OpEpoch(e) => EpochAlike(s, e);
    case OpInvalidate(id) => InvalidateAlike(s, id);
    case OpAdvance(id, g, c) => AdvanceAlike(s, id, g, c);
    case OpRevalidate(id, p) => RevalidateAlike(s, id, p);
    case OpActivate(id, g, e) =>
      Machines.ActivateRecords(s, id, g, e);
      RecordsAlike(s, Activate(s, id, g, e).0.reservations);
    case OpConsume(id, g, a, e) =>
      Machines.ConsumeRecords(s, id, g, a, e);
      RecordsAlike(s, Consume(s, id, g, a, e).0.reservations);
    case OpTransfer(id, g, o, og, e) =>
      TransferClerical(s, id, g, o, og, e);
      SelfAlike(s);
      ClericalAlike(s, s, Transfer(s, id, g, o, og, e).0);
    case _ =>
  }

  lemma TransferClerical(s: State, id: nat, generation: nat, owner: nat, ownerGeneration: nat, e: Evidence)
    ensures Clerical(s, Transfer(s, id, generation, owner, ownerGeneration, e).0)
  {
    hide Fresh, Remembered, HistoryOf;
  }

  lemma ExpireHoldKept(s: State, now: int, id: nat)
    requires Struct(s) && Kept(s)
    ensures Struct(ExpireHold(s, now, id)) && Kept(ExpireHold(s, now, id))
  {
    hide Struct, Kept, DropHold, Alike;
    StructExpireHold(s, now, id);
    if id in s.holds {
      DropAlike(s, id, HOLD_EXPIRED);
      AlikeKept(s, DropHold(s, id, HOLD_EXPIRED));
    }
  }

  lemma ExpireHoldsKept(s: State, now: int, order: seq<nat>)
    requires Struct(s) && Kept(s)
    ensures Kept(ExpireHolds(s, now, order))
  {
    hide Struct, Kept, ExpireHold;
    forall x: State, id: nat | Struct(x) && Kept(x) ensures Struct(ExpireHold(x, now, id)) && Kept(ExpireHold(x, now, id)) { ExpireHoldKept(x, now, id); }
    FoldKeeps(s, order, (x: State, id: nat) => ExpireHold(x, now, id), x => Struct(x) && Kept(x));
  }

  lemma ExpireDueKept(s: State, now: int, order: seq<nat>)
    requires Kept(s)
    ensures Kept(ExpireDue(s, now, order))
  {
    hide Kept, ExpireOne, Alike;
    forall x: State, id: nat | Kept(x) ensures Kept(ExpireOne(x, now, id)) {
      ExpireOneAlike(x, now, id);
      AlikeKept(x, ExpireOne(x, now, id));
    }
    FoldKeeps(s, order, (x: State, id: nat) => ExpireOne(x, now, id), x => Kept(x));
  }

  predicate IsWalk(op: Op) {
    op.OpPublish? || op.OpExpireHolds? || op.OpExpireDue? || op.OpBundle?
  }

  lemma EpochAlike(s: State, epoch: nat)
    ensures Alike(s, SetEpoch(s, epoch).0)
  {
    hide Alike, SetEpoch;
    SelfAlike(s);
    EpochClerical(s, epoch);
    ClericalAlike(s, s, SetEpoch(s, epoch).0);
  }

  lemma EpochClerical(s: State, epoch: nat)
    ensures SetEpoch(s, epoch).0 == s.(epoch := SetEpoch(s, epoch).0.epoch, authority := SetEpoch(s, epoch).0.authority)
  {
  }

  lemma ReleaseHoldAlike(s: State, id: nat, generation: nat)
    requires Struct(s)
    ensures Alike(s, ReleaseHold(s, id, generation).0)
  {
    hide Alike, Struct, DropHold;
    SelfAlike(s);
    if id in s.holds { DropAlike(s, id, HOLD_RELEASED); }
  }

  lemma PublicCommitAlike(s: State, req: Request, hold: Option<nat>)
    requires Struct(s)
    ensures Alike(s, Commit(s, req, hold).0)
  {
    hide Alike, Struct, CommitOne;
    SelfAlike(s);
    CommitAlike(s, req, hold);
  }

  lemma AlikeStep(s: State, op: Op)
    requires Struct(s) && !IsWalk(op) && !IsPassing(op)
    ensures Alike(s, Step(s, op))
  {
    hide Alike, Struct, AcquireHold, Commit, ReleaseHold, SetEpoch, ReleaseReservation, Cancel, Resize, Renew;
    match op
    case OpCreateHold(spec, now) => AcquireAlike(s, spec, now);
    case OpReleaseHold(id, g) => ReleaseHoldAlike(s, id, g);
    case OpCommit(req, hold) => PublicCommitAlike(s, req, hold);
    case OpRelease(_, _, _) => EndAlike(s, op);
    case OpCancel(_, _) => EndAlike(s, op);
    case OpResize(_, _, _, _) => ModifyAlike(s, op);
    case OpRenew(_, _, _, _) => ModifyAlike(s, op);
    case _ =>
  }

  /** Every operation whatever keeps the records filed and the envelopes those of their resources. */
  lemma KeptStep(s: State, op: Op)
    requires Struct(s) && Kept(s)
    ensures Kept(Step(s, op))
  {
    hide Kept, Alike, Struct, CommitBundle, PublishResource, ExpireHolds, ExpireDue;
    if op.OpPublish? {
      KeptPublish(s, op.publication, op.order);
    } else if op.OpExpireHolds? {
      ExpireHoldsKept(s, op.now, op.order);
    } else if op.OpExpireDue? {
      ExpireDueKept(s, op.now, op.order);
    } else if op.OpBundle? {
      BundleKept(s, op.members, op.now);
    } else {
      OtherKept(s, op);
    }
  }

  lemma OtherKept(s: State, op: Op)
    requires Struct(s) && Kept(s) && !IsWalk(op)
    ensures Kept(Step(s, op))
  {
    hide Kept, Alike, Struct, Step;
    if IsPassing(op) { PassingAlike(s, op); } else { AlikeStep(s, op); }
    AlikeKept(s, Step(s, op));
  }

  lemma {:induction false} KeptRun(s: State, ops: seq<Op>)
    requires Struct(s) && Kept(s)
    ensures Kept(RunOps(s, ops))
    decreases |ops|
  {
    hide Kept, Struct, Step;
    if ops != [] {
      KeptRun(s, ops[..|ops| - 1]);
      StructRun(s, ops[..|ops| - 1]);
      KeptStep(RunOps(s, ops[..|ops| - 1]), ops[|ops| - 1]);
    }
  }

  lemma KeptIsFiled(s: State)
    requires Struct(s) && Kept(s)
    ensures Filed(s) && Spanned(s)
  {
    forall k | k in s.reservations ensures s.reservations[k].id == k { assert ReservationOk(s, k, s.reservations[k]); }
    forall k | k in s.holds ensures s.holds[k].spec.id == k { assert HoldOk(s, k, s.holds[k]); }
  }

  lemma NewKept(maxHistory: nat, maxHolds: nat, horizon: nat)
    ensures Kept(NewState(maxHistory, maxHolds, horizon))
  {
  }

  /** From an empty registry through any guarded run that revives no ended record: what is saved
      at its end, whatever it holds, is accepted again if and only if no stored window is empty and
      no string, amount or collection out of the reader's bounds. Then loading it, in whatever order
      the maps are walked, changes nothing but live lifecycles, the configuration and empty
      histories; the envelopes come back exactly if and only if none has an unavailable window. */
  lemma RecoveryAfterRun(maxHistory: nat, maxHolds: nat, horizon: nat, ops: seq<Op>, w: Walk, reservations: seq<nat>, holds: seq<nat>)
    requires var s0 := NewState(maxHistory, maxHolds, horizon); Guarded(s0, ops) && NoneRevived(s0, ops)
    requires var s := RunOps(NewState(maxHistory, maxHolds, horizon), ops);
             && Ranged(s) && Walks(s, w) && Countable(w)
             && Visits(reservations, s.reservations.Keys) && Visits(holds, s.holds.Keys)
    ensures var s := RunOps(NewState(maxHistory, maxHolds, horizon), ops);
            var t := Load(Save(s, w), reservations, holds);
            && (t.Some? <==> Readable(s) && Bounded(w) && Sized(Save(s, w)))
            && (t.Some? ==>
                  && t.value == s.(config := DEFAULT_CONFIG, history := NonEmpty(s.history), envelopes := t.value.envelopes,
                  reservations := map k | k in s.reservations :: Demoted(s.reservations[k]))
                  && (t.value.envelopes == s.envelopes <==> Uniform(s)))
  {
    hide RunOps, Guarded, NoneRevived, Kept, Filed, Ranged, Readable, Walks, Bounded, Countable, Save, Load, Visits, FlagsMatch, Struct, Mirror, NoOvercommit,
         Spanned, Uniform, NonEmpty, Demoted, Sized, Openable;
    var s0 := NewState(maxHistory, maxHolds, horizon);
    var s := RunOps(s0, ops);
    NewStateIsConsistent(maxHistory, maxHolds, horizon);
    NewKept(maxHistory, maxHolds, horizon);
    NewFlags(maxHistory, maxHolds, horizon);
    ConsistentRun(s0, ops);
    FlagsRun(s0, ops);
    KeptRun(s0, ops);
    KeptIsFiled(s);
    KeysStorable(s);
    SpannedOpens(s);
    LoadAcceptsIff(s, w, reservations, holds);
    if Load(Save(s, w), reservations, holds).Some? {
      assert Storable(s);
      RecoveryIsExact(s, w, reservations, holds);
    }
  }

  lemma NewFlags(maxHistory: nat, maxHolds: nat, horizon: nat)
    ensures FlagsMatch(NewState(maxHistory, maxHolds, horizon))
  {
  }

  /** Whatever is loaded meets what evidence and metering promise, and the boots do if they did. */
  lemma LoadedIsFenced(s: State, w: Walk, reservations: seq<nat>, holds: seq<nat>)
    requires Struct(s) && Ranged(s) && Walks(s, w) && Countable(w) && Filed(s)
    requires Visits(reservations, s.reservations.Keys) && Visits(holds, s.holds.Keys)
    requires Load(Save(s, w), reservations, holds).Some?
    ensures var t := Load(Save(s, w), reservations, holds).value;
            && Fences.EvidenceHeld(t) && Fences.AllMetered(t) && (Fences.BootsRecorded(s) ==> Fences.BootsRecorded(t))
  {
    hide Load, Save, Ranged, Readable, Walks, Bounded, Countable, Filed, Openable, Visits, Struct, Reapply, Raw, Mirror, SameSpans, NonEmpty, Sized, Reloaded;
    KeysStorable(s);
    LoadOfSave(s, w, reservations, holds);
    ReapplyMirrors(s, reservations, holds);
    var t := Reapply(Raw(s), reservations, holds);
    RecoveredResources(s, t);
    forall k | k in t.reservations ensures !IsLive(t.reservations[k].lifecycle) {
      DemotedOk(s.reservations[k].(contributes := HoldsCapacity(s.reservations[k].lifecycle)));
      ReloadedIsDemoted(s.reservations[k]);
    }
    NoneLive(t);
  }

  lemma RecoveredResources(s: State, t: State)
    requires t == Recovered(s).(envelopes := t.envelopes)
    ensures t.resources == s.resources && t.workerBoots == s.workerBoots && t.reservations.Keys == s.reservations.Keys
    ensures forall k :: k in s.reservations ==> t.reservations[k] == Reloaded(s.reservations[k])
  {
    hide Reloaded, NonEmpty;
  }

  lemma ReloadedIsDemoted(r: Reservation)
    ensures Reloaded(r) == Demoted(r.(contributes := HoldsCapacity(r.lifecycle)))
  {
  }

  lemma NoneLive(t: State)
    requires forall k :: k in t.reservations ==> !IsLive(t.reservations[k].lifecycle)
    ensures Fences.EvidenceHeld(t) && Fences.AllMetered(t)
  {
    assert IsLive(CONSUMED) && IsLive(PARTIALLY_CONSUMED);
  }

  // ---- after recovery ----

  /** No history is longer than the default bound. */
  ghost predicate HistoriesShort(s: State) {
    forall id :: id in s.history ==> |s.history[id]| <= DEFAULT_CONFIG.maxHistory
  }

  /** The recovered state, once the envelopes are known to be the old ones. */
  ghost function Resumed(s: State): State {
    s.(config := DEFAULT_CONFIG, history := NonEmpty(s.history), reservations := map k | k in s.reservations :: Demoted(s.reservations[k]))
  }

  lemma SameHistory(s: State, id: nat)
    ensures HistoryOf(Resumed(s), id) == HistoryOf(s, id)
  {
  }

  lemma DemotedOk(r: Reservation)
    ensures Demoted(r) == r.(lifecycle := Demoted(r).lifecycle) && !IsLive(Demoted(r).lifecycle) && SameWeight(r, Demoted(r))
  {
    assert !IsLive(REVALIDATION_REQUIRED);
  }

  lemma RecordResumes(s: State, k: nat)
    requires Struct(s) && k in s.reservations
    ensures ReservationOk(Resumed(s), k, Resumed(s).reservations[k])
    ensures GenerationsOk(Resumed(s), k) <==> |HistoryOf(s, k)| <= DEFAULT_CONFIG.maxHistory
  {
    hide Demoted, NonEmpty, SameWeight;
    assert ReservationOk(s, k, s.reservations[k]) && GenerationsOk(s, k);
    SameHistory(s, k);
    DemotedOk(s.reservations[k]);
  }

  lemma ResumedStruct(s: State)
    requires Struct(s)
    ensures Struct(Resumed(s)) <==> HistoriesShort(s)
  {
    hide Demoted, NonEmpty, ReservationOk, GenerationsOk, HoldOk;
    var t := Resumed(s);
    forall k | k in t.reservations
      ensures ReservationOk(t, k, t.reservations[k]) && (GenerationsOk(t, k) <==> |HistoryOf(s, k)| <= DEFAULT_CONFIG.maxHistory)
    {
      RecordResumes(s, k);
    }
    forall k | k in t.holds ensures HoldOk(t, k, t.holds[k]) {
      FrameHold(s, t, k);
    }
    NonEmptyKeys(s.history);
    if Struct(t) {
      forall id | id in s.history ensures |s.history[id]| <= DEFAULT_CONFIG.maxHistory {
        assert id in t.reservations && HistoryOf(s, id) == s.history[id];
      }
    }
  }

  lemma NonEmptyKeys(m: map<nat, seq<Reservation>>)
    ensures NonEmpty(m).Keys <= m.Keys
  {
  }

  /** Recovery resumes exactly where the guarantees hold: with no unavailable windows the reloaded
      registry is again consistent, so every run result applies to it, if and only if no history
      is longer than the default bound; and no reservation is live. */
  lemma RecoveryResumes(s: State, w: Walk, reservations: seq<nat>, holds: seq<nat>)
    requires Consistent(s) && Storable(s) && Walks(s, w) && Bounded(w) && Filed(s) && Sized(Save(s, w))
    requires Visits(reservations, s.reservations.Keys) && Visits(holds, s.holds.Keys)
    requires FlagsMatch(s) && Spanned(s) && Uniform(s)
    ensures var t := Load(Save(s, w), reservations, holds);
            && t.Some? && (Consistent(t.value) <==> HistoriesShort(s))
            && forall k :: k in t.value.reservations ==> !IsLive(t.value.reservations[k].lifecycle)
  {
    hide Load, Save, Ranged, Readable, Walks, Filed, Visits, Struct, Mirror, NoOvercommit, Spanned, Uniform, NonEmpty, Demoted, IsLive, HistoriesShort, SameWeight;
    RecoveryIsExact(s, w, reservations, holds);
    ResumedStruct(s);
    var t := Resumed(s);
    forall k | k in s.reservations ensures !IsLive(t.reservations[k].lifecycle) && SameWeight(s.reservations[k], t.reservations[k]) {
      DemotedOk(s.reservations[k]);
    }
    if HistoriesShort(s) { ConsistentRelabel(s, t); }
  }
}
