/** The writes each operation makes to the capacity indexes, in order: what is installed, what is
    added and what capacity is set. Reads are left to the log that is compared with them. */
module Edits {
  import opened Types
  import opened Levels
  import opened Envelopes
  import opened Registry
  import opened Bundles
  import opened Exactness
  import TreapRun

  /** A fresh envelope takes the place of a resource's index, or one operation reaches it. */
  datatype Edit = Install(resource: nat, envelope: Envelope) | Write(resource: nat, op: TreapRun.Op)

  function Edited(e: Envelope, op: TreapRun.Op): Envelope {
    e.(levels := Changed(e.levels, op.l, op.r, TreapRun.ChangeOf(op)))
  }

  function ReplayOne(es: map<nat, Envelope>, edit: Edit): map<nat, Envelope> {
    match edit
    case Install(k, e) => es[k := e]
    case Write(k, op) => if k in es then es[k := Edited(es[k], op)] else es
  }

  function Replay(es: map<nat, Envelope>, edits: seq<Edit>): map<nat, Envelope> {
    if edits == [] then es else ReplayOne(Replay(es, edits[..|edits| - 1]), edits[|edits| - 1])
  }

  lemma {:induction false} ReplayConcat(es: map<nat, Envelope>, a: seq<Edit>, b: seq<Edit>)
    ensures Replay(es, a + b) == Replay(Replay(es, a), b)
    decreases |b|
  {
    hide ReplayOne;
    if b == [] {
      assert a + b == a;
    } else {
      var c := b[..|b| - 1];
      assert (a + b)[..|a + b| - 1] == a + c && (a + b)[|a + b| - 1] == b[|b| - 1];
      ReplayConcat(es, a, c);
    }
  }

  // ---- the primitives ----

  function CommitOp(strength: Byte, w: Interval, q: int): TreapRun.Op {
    if strength == STRENGTH_HARD then TreapRun.AddHard(w.start, w.end, q) else TreapRun.AddSoft(w.start, w.end, q)
  }

  function ContributeEdits(s: State, r: Reservation): seq<Edit> {
    if CanContribute(s, r) then [Write(r.resource, CommitOp(r.strength, r.window, r.quantity.value))] else []
  }

  function WithdrawEdits(s: State, r: Reservation): seq<Edit> {
    if CanWithdraw(s, r) then [Write(r.resource, CommitOp(r.strength, r.window, -r.quantity.value))] else []
  }

  function HeldEdits(s: State, resource: nat, w: Interval, q: int): seq<Edit> {
    if resource in s.envelopes then [Write(resource, TreapRun.AddHeld(w.start, w.end, q))] else []
  }

  function DropEdits(s: State, id: nat): seq<Edit>
    requires id in s.holds
  {
    var h := s.holds[id];
    if h.applied then HeldEdits(s, h.resource, h.spec.window, -h.spec.quantity.value) else []
  }

  // ---- holds ----

  ghost function AcquireEdits(s: State, spec: HoldSpec, now: int): seq<Edit> {
    var (t, ok) := AcquireHold(s, spec, now);
    if ok && spec.id in t.holds then HeldEdits(s, t.holds[spec.id].resource, spec.window, spec.quantity.value) else []
  }

  function ReleaseHoldEdits(s: State, id: nat, generation: nat): seq<Edit> {
    if id !in s.holds || s.holds[id].spec.generation != generation || s.holds[id].state in {HOLD_RELEASED, HOLD_EXPIRED} then []
    else DropEdits(s, id)
  }

  function ProvisionalEdits(s: State, id: nat): seq<Edit> {
    if id !in s.holds || s.holds[id].state in {HOLD_RELEASED, HOLD_EXPIRED, HOLD_COMMITTED} then [] else DropEdits(s, id)
  }

  function ExpireHoldEdits(s: State, now: int, id: nat): seq<Edit> {
    if id in s.holds && s.holds[id].state == HOLD_ACQUIRED && s.holds[id].expiry < now then DropEdits(s, id) else []
  }

  /** Walking an order: the edits of each step in the state the steps before it left. */
  ghost function FoldEdits(s: State, order: seq<nat>, f: (State, nat) -> State, g: (State, nat) -> seq<Edit>): seq<Edit> {
    if order == [] then []
    else FoldEdits(s, order[..|order| - 1], f, g) + g(Fold(s, order[..|order| - 1], f), order[|order| - 1])
  }

  // ---- commits and bundles ----

  /** The contribution first, then the hold it was made against. */
  ghost function CommitEdits(s: State, req: Request, hold: Option<nat>): seq<Edit> {
    if !CommitAllowed(s, req, hold) then []
    else
      ContributeEdits(s, NewReservation(s, req)) +
      (if hold.None? then [] else HeldEdits(s, s.holds[hold.value].resource, s.holds[hold.value].spec.window, -s.holds[hold.value].spec.quantity.value))
  }

  ghost function AcquireAllEdits(s: State, members: seq<Request>, now: int): seq<Edit>
    decreases |members|
  {
    if members == [] then []
    else
      var id := s.nextHoldId + 1;
      var s0 := s.(nextHoldId := id);
      var (s1, ok) := AcquireHold(s0, MemberSpec(members[0], id), now);
      AcquireEdits(s0, MemberSpec(members[0], id), now) + (if ok then AcquireAllEdits(s1, members[1..], now) else [])
  }

  function ReleaseRangeEdits(s: State, from: nat, to: int): seq<Edit>
    decreases if from < to then to - from else 0
  {
    if from >= to then [] else ProvisionalEdits(s, from + 1) + ReleaseRangeEdits(ReleaseProvisional(s, from + 1), from + 1, to)
  }

  ghost function CommitAllEdits(s: State, members: seq<Request>, firstHold: nat): seq<Edit>
    decreases |members|
  {
    if members == [] then []
    else
      var (s1, out) := CommitOne(s, members[0], Some(firstHold + 1));
      CommitEdits(s, members[0], Some(firstHold + 1)) + (if out.Refused? then [] else CommitAllEdits(s1, members[1..], firstHold + 1))
  }

  function CancelMemberEdits(s: State, id: nat): seq<Edit> {
    if id in s.reservations then WithdrawEdits(s, s.reservations[id]) else []
  }

  function CancelRangeEdits(s: State, from: nat, to: nat): seq<Edit>
    decreases if from < to then to - from else 0
  {
    if from >= to then [] else CancelMemberEdits(s, from + 1) + CancelRangeEdits(CancelMember(s, from + 1), from + 1, to)
  }

  function RollBackEdits(s: State, firstReservation: nat, firstHold: nat, n: nat, members: nat): seq<Edit> {
    CancelRangeEdits(s, firstReservation, firstReservation + n) +
    ReleaseRangeEdits(CancelRange(s, firstReservation, firstReservation + n), firstHold + n, firstHold + members)
  }

  ghost function BundleEdits(s: State, members: seq<Request>, now: int): seq<Edit> {
    var s0 := s.(nextSetId := s.nextSetId + 1);
    if !AllAdmitted(s0, members) then []
    else
      var (s1, held) := AcquireAll(s0, members, now);
      AcquireAllEdits(s0, members, now) +
      if !held then ReleaseRangeEdits(s1, s.nextHoldId, s1.nextHoldId - 1)
      else
        var (s2, n) := CommitAll(s1, members, s.nextHoldId);
        CommitAllEdits(s1, members, s.nextHoldId) +
        (if n < |members| then RollBackEdits(s2, s.nextReservationId, s.nextHoldId, n, |members|) else [])
  }

  // ---- lifecycle and modification ----

  function ReleaseEdits(s: State, id: nat, generation: nat, e: Evidence): seq<Edit> {
    if ReleaseReservation(s, id, generation, e).1 == ReleasedNow then CancelMemberEdits(s, id) else []
  }

  function CancelEdits(s: State, id: nat, generation: nat): seq<Edit> {
    if IsCurrent(s, id, generation) && !IsEnded(s.reservations[id].lifecycle) then CancelMemberEdits(s, id) else []
  }

  function ExpireEdits(s: State, now: int, id: nat): seq<Edit> {
    if IsDue(s, now, id) then CancelMemberEdits(s, id) else []
  }

  /** The own contribution comes off before the headroom check; a refused change puts it back, an
      accepted one adds a record already flagged, which adds nothing. */
  function ChangeEdits(s: State, op: Op): seq<Edit>
    requires op.OpResize? || op.OpRenew?
  {
    if !IsOrderly(s, op) then []
    else
      var r := s.reservations[op.id];
      var (s1, r1) := Withdraw(s, r);
      WithdrawEdits(s, r) + ContributeEdits(s1, if IsAdmitted(s, op) then ChangedRecord(s, op) else r1)
  }

  // ---- publications ----

  function UnavailableEdits(resource: nat, e: Envelope, ws: seq<UnavailableWindow>): seq<Edit> {
    if ws == [] then []
    else
      var w := ws[|ws| - 1].interval;
      UnavailableEdits(resource, e, ws[..|ws| - 1]) +
      (if w.end <= e.origin || e.origin + e.horizon <= w.start then [] else [Write(resource, TreapRun.SetCapacity(w.start, w.end, 0))])
  }

  function FreshOf(s: State, p: Publication): Envelope {
    FreshEnvelope(p.unit, p.totalCapacity, p.ratio, p.availableFrom, s.config.horizon)
  }

  function ReadmitEdits(s: State, resource: nat, id: nat): seq<Edit> {
    if id in s.reservations && s.reservations[id].resource == resource && HoldsCapacity(s.reservations[id].lifecycle)
    then ContributeEdits(s, s.reservations[id]) else []
  }

  ghost function PublishEdits(s: State, p: Publication, order: seq<nat>): seq<Edit> {
    var out := PublishResource(s, p, order).1;
    if out != RegisteredNew && out != Replaced then []
    else
      [Install(p.id, FreshOf(s, p))] + UnavailableEdits(p.id, FreshOf(s, p), p.unavailable) +
      (if out == RegisteredNew then []
       else FoldEdits(Reinstalled(s, p), order, (x: State, id: nat) => Readmit(x, p.id, id), (x: State, id: nat) => ReadmitEdits(x, p.id, id)))
  }

  // ---- operations and runs ----

  ghost function StepEdits(s: State, op: Op): seq<Edit> {
    match op
    case OpPublish(p, order) => PublishEdits(s, p, order)
    case OpCreateHold(spec, now) => AcquireEdits(s, spec, now)
    case OpReleaseHold(id, g) => ReleaseHoldEdits(s, id, g)
    case OpExpireHolds(now, order) =>
      FoldEdits(s, order, (x: State, id: nat) => ExpireHold(x, now, id), (x: State, id: nat) => ExpireHoldEdits(x, now, id))
    case OpCommit(req, hold) => CommitEdits(s, req, hold)
    case OpBundle(ms, now) => BundleEdits(s, ms, now)
    case OpRelease(id, g, e) => ReleaseEdits(s, id, g, e)
    case OpCancel(id, g) => CancelEdits(s, id, g)
    case OpExpireDue(now, order) =>
      FoldEdits(s, order, (x: State, id: nat) => ExpireOne(x, now, id), (x: State, id: nat) => ExpireEdits(x, now, id))
    case OpResize(_, _, _, _) => ChangeEdits(s, op)
    case OpRenew(_, _, _, _) => ChangeEdits(s, op)
    case _ => []
  }

  ghost function RunEdits(s: State, ops: seq<Op>): seq<Edit> {
    if ops == [] then []
    else RunEdits(s, ops[..|ops| - 1]) + StepEdits(RunOps(s, ops[..|ops| - 1]), ops[|ops| - 1])
  }

  // ---- the log of one index ----

  /** The writes that reached a resource's index since it was last installed. */
  function LogOf(edits: seq<Edit>, k: nat): seq<TreapRun.Op> {
    if edits == [] then []
    else
      var edit := edits[|edits| - 1];
      if edit.resource != k then LogOf(edits[..|edits| - 1], k)
      else if edit.Install? then []
      else LogOf(edits[..|edits| - 1], k) + [edit.op]
  }

  /** A log without its reads. */
  function Writes(log: seq<TreapRun.Op>): seq<TreapRun.Op> {
    if log == [] then []
    else
      var op := log[|log| - 1];
      Writes(log[..|log| - 1]) + if op.Query? then [] else [op]
  }

  function FreeLevels(e: Envelope): Profile {
    FreeProfile(e.origin, e.horizon, e.capacity.value)
  }

  /** Every index installed is a fresh one. */
  ghost predicate InstallsFresh(edits: seq<Edit>) {
    forall i :: 0 <= i < |edits| && edits[i].Install? ==> edits[i].envelope.levels == FreeLevels(edits[i].envelope)
  }

  /** Prefix `j` of the log is what prefix `i` of the edits has done to the index. */
  ghost predicate Reached(edits: seq<Edit>, k: nat, i: nat, j: nat)
    requires i <= |edits| && j <= |LogOf(edits, k)|
  {
    var es := Replay(map[], edits[..i]);
    && k in es && k in Replay(map[], edits)
    && es[k] == Replay(map[], edits)[k].(levels := TreapRun.ProfileAfter(FreeLevels(es[k]), LogOf(edits, k)[..j]))
  }

  /** From nothing, an index shows what its log does to free levels, and every prefix of the log
      was reached along the way. */
  lemma {:induction false} LogExplains(edits: seq<Edit>, k: nat, j: nat)
    requires InstallsFresh(edits) && k in Replay(map[], edits) && j <= |LogOf(edits, k)|
    ensures exists i :: 0 <= i <= |edits| && Reached(edits, k, i, j)
    ensures Reached(edits, k, |edits|, |LogOf(edits, k)|)
    decreases |edits|
  {
    hide TreapRun.ProfileAfter, Changed, FreeProfile, TreapRun.ChangeOf, InstallsFresh;
    FreshPrefix(edits);
    var n := |edits| - 1;
    var before, edit := edits[..n], edits[n];
    assert edits[..n + 1] == edits;
    if edit.resource == k && edit.Install? {
      FreshLog(edit.envelope);
      assert Reached(edits, k, n + 1, 0);
    } else {
      if j <= |LogOf(before, k)| {
        LogExplains(before, k, j);
        var i :| 0 <= i <= n && Reached(before, k, i, j);
        assert before[..i] == edits[..i];
        PrefixOfMore(LogOf(before, k), j, edit);
        assert Reached(edits, k, i, j);
      } else {
        LogExplains(before, k, j - 1);
      }
      assert before[..n] == before && edits == before + [edit];
      LogGrows(before, edit, k);
    }
  }

  lemma FreshPrefix(edits: seq<Edit>)
    requires InstallsFresh(edits) && edits != []
    ensures InstallsFresh(edits[..|edits| - 1])
    ensures var edit := edits[|edits| - 1]; edit.Install? ==> edit.envelope.levels == FreeLevels(edit.envelope)
  {
    hide FreeLevels;
    var before := edits[..|edits| - 1];
    assert forall i :: 0 <= i < |before| ==> before[i] == edits[i];
  }

  lemma FreshLog(e: Envelope)
    requires e.levels == FreeLevels(e)
    ensures e == e.(levels := TreapRun.ProfileAfter(FreeLevels(e), []))
  {
  }

  lemma PrefixOfMore(log: seq<TreapRun.Op>, j: nat, edit: Edit)
    requires j <= |log|
    ensures edit.Write? ==> (log + [edit.op])[..j] == log[..j]
  {
  }

  lemma LogGrows(before: seq<Edit>, edit: Edit, k: nat)
    requires k in Replay(map[], before) && Reached(before, k, |before|, |LogOf(before, k)|) && !(edit.resource == k && edit.Install?)
    ensures k in Replay(map[], before + [edit]) && Reached(before + [edit], k, |before| + 1, |LogOf(before + [edit], k)|)
  {
    hide Changed, FreeProfile, TreapRun.ChangeOf;
    var edits := before + [edit];
    assert edits[..|before|] == before && edits[..|edits|] == edits && before[..|before|] == before;
    var log := LogOf(before, k);
    assert log[..|log|] == log;
    if edit.resource == k {
      var more := LogOf(edits, k);
      assert more == log + [edit.op] && more[..|more|] == more && more[..|more| - 1] == log;
    }
  }

  // ---- reads among the writes ----

  lemma QueryChangesNothing(p: Profile, l: int, r: int)
    ensures Changed(p, l, r, NO_CHANGE) == p
  {
  }

  /** Reads change no level, so a log shows what its writes do; and each prefix of the log has a
      prefix of the writes. */
  lemma {:induction false} ReadsDoNotMatter(p: Profile, log: seq<TreapRun.Op>, i: nat)
    requires i <= |log|
    ensures |Writes(log[..i])| <= |Writes(log)| && Writes(log[..i]) == Writes(log)[..|Writes(log[..i])|]
    ensures TreapRun.ProfileAfter(p, log[..i]) == TreapRun.ProfileAfter(p, Writes(log)[..|Writes(log[..i])|])
    decreases |log|
  {
    hide Changed;
    if i == |log| {
      assert log[..i] == log;
      SameProfile(p, log);
      assert Writes(log)[..|Writes(log)|] == Writes(log);
    } else {
      var before := log[..|log| - 1];
      ReadsDoNotMatter(p, before, i);
      assert before[..i] == log[..i];
    }
  }

  lemma {:induction false} SameProfile(p: Profile, log: seq<TreapRun.Op>)
    ensures TreapRun.ProfileAfter(p, log) == TreapRun.ProfileAfter(p, Writes(log))
    decreases |log|
  {
    hide Changed, TreapRun.ProfileAfter, Writes;
    if log == [] {
      NoWrites();
    } else {
      var before, op := log[..|log| - 1], log[|log| - 1];
      SameProfile(p, before);
      WritesMore(before, op);
      assert before + [op] == log;
      ProfileMore(p, before, op);
      if op.Query? {
        QueryChangesNothing(TreapRun.ProfileAfter(p, before), op.l, op.r);
      } else {
        ProfileMore(p, Writes(before), op);
      }
    }
  }

  lemma NoWrites()
    ensures Writes([]) == []
  {
  }

  lemma WritesMore(log: seq<TreapRun.Op>, op: TreapRun.Op)
    ensures Writes(log + [op]) == if op.Query? then Writes(log) else Writes(log) + [op]
  {
    assert (log + [op])[..|log + [op]| - 1] == log;
  }

  lemma ProfileMore(p: Profile, log: seq<TreapRun.Op>, op: TreapRun.Op)
    ensures TreapRun.ProfileAfter(p, log + [op]) == Changed(TreapRun.ProfileAfter(p, log), op.l, op.r, TreapRun.ChangeOf(op))
  {
    hide Changed;
    assert (log + [op])[..|log + [op]| - 1] == log;
  }
}
