/** The records of the runtime and of the wire protocol as layouts: which fields are written, in
    which order and how. A record is written in groups; grouping adds no bytes. */
module Records {
  import opened Types
  import opened Codec

  const MAX_COLLECTION: nat := 0x100_0000
  const MAX_COUNT: nat := 0xFFFF_FFFF

  // ---- fields ----

  function Flag(b: bool): Value {
    VNum(if b then 1 else 0)
  }

  function OptionOf(o: Option<int>): Value {
    if o.Some? then VSome(VNum(o.value)) else VNone
  }

  function Sub(v: Value, i: nat): Value {
    if v.VRecord? && i < |v.fields| then v.fields[i] else VNone
  }

  function Int(v: Value): int {
    if v.VNum? then v.num else 0
  }

  function Nat(v: Value): nat {
    if v.VNum? && v.num >= 0 then v.num else 0
  }

  function Code(v: Value): Byte {
    if v.VNum? && 0 <= v.num < 256 then v.num else 0
  }

  predicate IsSet(v: Value) {
    v.VNum? && v.num != 0
  }

  function Text(v: Value): seq<Byte> {
    if v.VText? then v.text else []
  }

  function Amount(v: Value): Quantity {
    if v.VQuantity? then v.quantity else Quantity(0, UNIT_COUNT)
  }

  function Window(v: Value): Interval {
    if v.VWindow? then v.window else Interval(0, 0)
  }

  function OptNat(v: Value): Option<nat> {
    if v.VSome? then Some(Nat(v.value)) else None
  }

  function OptInt(v: Value): Option<int> {
    if v.VSome? then Some(Int(v.value)) else None
  }

  function Items(v: Value): seq<Value> {
    if v.VList? then v.items else []
  }

  predicate U64(n: nat) {
    n < U64_LIMIT
  }

  predicate OptU64(o: Option<nat>) {
    o.Some? ==> U64(o.value)
  }

  predicate OptI64(o: Option<int>) {
    o.Some? ==> IsI64(o.value)
  }

  // The machine range of a field, and what a reader asks of it on top.

  predicate RangedAmount(q: Quantity) {
    IsI64(q.value)
  }

  predicate ReadableAmount(q: Quantity) {
    0 <= q.value && q.unit != UNIT_NONE
  }

  predicate RangedWindow(w: Interval) {
    IsI64(w.start) && IsI64(w.end)
  }

  predicate ReadableWindow(w: Interval) {
    w.start < w.end
  }

  predicate RangedText(s: seq<Byte>) {
    |s| < U32_LIMIT
  }

  predicate ReadableText(s: seq<Byte>) {
    |s| <= MAX_STRING
  }

  predicate Amountable(q: Quantity) {
    RangedAmount(q) && ReadableAmount(q)
  }

  predicate Windowed(w: Interval) {
    RangedWindow(w) && ReadableWindow(w)
  }

  predicate Textual(s: seq<Byte>) {
    RangedText(s) && ReadableText(s)
  }

  lemma {:induction false} FieldsFrom(k: Kind, vs: seq<Value>, i: nat)
    requires k.KRecord? && |vs| == |k.fields| && i <= |vs|
    ensures FieldsFit(k, vs, i) <==> forall j :: i <= j < |vs| ==> Fits(k.fields[j], vs[j])
    ensures FieldsWritable(k, vs, i) <==> forall j :: i <= j < |vs| ==> Writable(k.fields[j], vs[j])
    decreases |vs| - i
  {
    hide Fits, Writable;
    if i < |vs| { FieldsFrom(k, vs, i + 1); }
  }

  /** A record fits, or can be written, exactly when every field does. */
  lemma RecordFits(k: Kind, vs: seq<Value>)
    requires k.KRecord? && |vs| == |k.fields|
    ensures Fits(k, VRecord(vs)) <==> forall j :: 0 <= j < |vs| ==> Fits(k.fields[j], vs[j])
    ensures Writable(k, VRecord(vs)) <==> forall j :: 0 <= j < |vs| ==> Writable(k.fields[j], vs[j])
  {
    FieldsFrom(k, vs, 0);
  }

  lemma RecordOfFits(k: Kind, vs: seq<Value>)
    requires k.KRecord? && |vs| == |k.fields| && forall j :: 0 <= j < |vs| ==> Fits(k.fields[j], vs[j])
    ensures Fits(k, VRecord(vs))
  {
    RecordFits(k, vs);
  }

  lemma ListFits(bound: nat, item: Kind, vs: seq<Value>)
    requires |vs| < U32_LIMIT
    ensures Fits(KList(bound, item), VList(vs)) <==> |vs| <= bound && forall j :: 0 <= j < |vs| ==> Fits(item, vs[j])
    ensures Writable(KList(bound, item), VList(vs)) <==> forall j :: 0 <= j < |vs| ==> Writable(item, vs[j])
  {
    EachFits(item, vs);
  }

  lemma {:induction false} EachFits(item: Kind, vs: seq<Value>)
    ensures ItemsFit(item, vs) <==> forall j :: 0 <= j < |vs| ==> Fits(item, vs[j])
    ensures ItemsWritable(item, vs) <==> forall j :: 0 <= j < |vs| ==> Writable(item, vs[j])
    decreases |vs|
  {
    hide Fits, Writable;
    if vs != [] {
      EachFits(item, vs[1..]);
      assert forall j :: 0 < j < |vs| ==> vs[j] == vs[1..][j - 1];
    }
  }

  // ---- terms shared by requests and reservations ----

  function Parties(strict: bool): Kind {
    KRecord([KOption(strict, KU64), KOption(strict, KU64), KOption(strict, KU64), KOption(strict, KU64)])
  }

  const PLACEMENT: Kind := KRecord([KU32, KBool, KU64, KU64, KByte, KI32, KByte, KBool, KBool])
  const POLICY: Kind := KRecord([KU64, KI32, KBool, KByte, KByte, KByte, KByte, KI32, KBool])

  function PartiesValue(t: Terms): Value {
    VRecord([OptionOf(t.workload), OptionOf(t.workloadGeneration), OptionOf(t.execution), OptionOf(t.executionGeneration)])
  }

  function PlacementValue(t: Terms): Value {
    VRecord([VNum(t.requiredCapabilityId), Flag(t.capacityRequiresCapability), VNum(t.preferredPool), VNum(t.placement), VNum(t.preferredClass),
             VNum(t.localityWeight), VNum(t.topologyDomain), Flag(t.requireLocalPlacement), Flag(t.requireSameDriverGeneration)])
  }

  function PolicyValue(t: Terms, transfer: Byte): Value {
    VRecord([VNum(t.priorityGeneration), VNum(t.priorityClass), Flag(t.preemptible), VNum(t.exclusivity), VNum(t.elasticity), VNum(t.renewal),
             VNum(transfer), VNum(t.fragmentationTolerance), Flag(t.allOrNothing)])
  }

  function TermsFrom(mode: Byte, parties: Value, placement: Value, policy: Value, provenance: seq<Byte>): Terms {
    Terms(mode, OptNat(Sub(parties, 0)), OptNat(Sub(parties, 1)), OptNat(Sub(parties, 2)), OptNat(Sub(parties, 3)),
          Nat(Sub(placement, 0)), IsSet(Sub(placement, 1)), Nat(Sub(placement, 2)), Nat(Sub(placement, 3)), Code(Sub(placement, 4)),
          Int(Sub(placement, 5)), Code(Sub(placement, 6)), IsSet(Sub(placement, 7)), IsSet(Sub(placement, 8)),
          Nat(Sub(policy, 0)), Int(Sub(policy, 1)), IsSet(Sub(policy, 2)), Code(Sub(policy, 3)), Code(Sub(policy, 4)), Code(Sub(policy, 5)),
          Int(Sub(policy, 7)), IsSet(Sub(policy, 8)), provenance)
  }

  predicate TermsRanged(t: Terms) {
    && OptU64(t.workload) && OptU64(t.workloadGeneration) && OptU64(t.execution) && OptU64(t.executionGeneration)
    && t.requiredCapabilityId < U32_LIMIT && U64(t.preferredPool) && U64(t.placement) && IsI32(t.localityWeight)
    && U64(t.priorityGeneration) && IsI32(t.priorityClass) && IsI32(t.fragmentationTolerance) && RangedText(t.provenance)
  }

  predicate TermsOk(t: Terms) {
    TermsRanged(t) && ReadableText(t.provenance)
  }

  lemma PartiesFit(strict: bool, t: Terms)
    requires TermsRanged(t)
    ensures Fits(Parties(strict), PartiesValue(t))
  {
    RecordFits(Parties(strict), PartiesValue(t).fields);
  }

  lemma PlacementFits(t: Terms)
    requires TermsRanged(t)
    ensures Fits(PLACEMENT, PlacementValue(t))
  {
    RecordFits(PLACEMENT, PlacementValue(t).fields);
  }

  lemma PolicyFits(t: Terms, transfer: Byte)
    requires TermsRanged(t)
    ensures Fits(POLICY, PolicyValue(t, transfer))
  {
    RecordFits(POLICY, PolicyValue(t, transfer).fields);
  }

  lemma TermsRead(t: Terms, transfer: Byte)
    ensures TermsFrom(t.activationMode, PartiesValue(t), PlacementValue(t), PolicyValue(t, transfer), t.provenance) == t
    ensures Code(Sub(PolicyValue(t, transfer), 6)) == transfer
  {
  }

  // ---- reservations ----

  const BINDING: Kind := KRecord([KU64, KU64, KU64, KU64, KByte, KByte, KByte, KU64, KOption(true, KU64)])
  const CONTRACT: Kind := KRecord([KQuantity, KQuantity, KQuantity, KWindow, KByte, KByte, KU64, KU64])
  const EVIDENCE: Kind := KRecord([KOption(true, KU64), KOption(true, KU64), KOption(true, KU64), KOption(true, KU64), KOption(true, KU64)])
  const MARKERS: Kind := KRecord([EVIDENCE, KBool, KBool, KOption(true, KI64), KOption(true, KI64)])
  const RESERVATION: Kind := KRecord([BINDING, CONTRACT, Parties(true), PLACEMENT, KU64, POLICY, KText, MARKERS])

  function BindingValue(r: Reservation): Value {
    VRecord([VNum(r.id), VNum(r.generation), VNum(r.setId), VNum(r.groupId), VNum(r.strength), VNum(r.resourceClass), VNum(r.unit),
             VNum(r.resource), OptionOf(r.boundGeneration)])
  }

  function ContractValue(r: Reservation): Value {
    VRecord([VQuantity(r.quantity), VQuantity(r.activated), VQuantity(r.consumed), VWindow(r.window), VNum(r.terms.activationMode),
             VNum(r.lifecycle), VNum(r.owner), VNum(r.ownerGeneration)])
  }

  function EvidenceValue(r: Reservation): Value {
    VRecord([OptionOf(r.activationGeneration), OptionOf(r.consumptionGeneration), OptionOf(r.releaseGeneration), OptionOf(r.transferGeneration),
             OptionOf(r.recoveryGeneration)])
  }

  function MarkersValue(r: Reservation): Value {
    VRecord([EvidenceValue(r), Flag(r.contributes), Flag(r.persisted), OptionOf(r.activatedAt), OptionOf(r.releasedAt)])
  }

  function ReservationValue(r: Reservation): Value {
    VRecord([BindingValue(r), ContractValue(r), PartiesValue(r.terms), PlacementValue(r.terms), VNum(r.policyGeneration),
             PolicyValue(r.terms, r.transfer), VText(r.terms.provenance), MarkersValue(r)])
  }

  function ReservationFrom(v: Value): Reservation {
    var b, c, p, m := Sub(v, 0), Sub(v, 1), Sub(v, 5), Sub(v, 7);
    var e := Sub(m, 0);
    Reservation(
      Nat(Sub(b, 0)), Nat(Sub(b, 1)), Nat(Sub(b, 2)), Nat(Sub(b, 3)), Code(Sub(b, 4)), Code(Sub(b, 5)), Code(Sub(b, 6)), Nat(Sub(b, 7)), OptNat(Sub(b, 8)),
      Amount(Sub(c, 0)), Amount(Sub(c, 1)), Amount(Sub(c, 2)), Window(Sub(c, 3)), Code(Sub(c, 5)), Nat(Sub(c, 6)), Nat(Sub(c, 7)),
      Nat(Sub(v, 4)), Code(Sub(p, 6)), TermsFrom(Code(Sub(c, 4)), Sub(v, 2), Sub(v, 3), p, Text(Sub(v, 6))),
      OptNat(Sub(e, 0)), OptNat(Sub(e, 1)), OptNat(Sub(e, 2)), OptNat(Sub(e, 3)), OptNat(Sub(e, 4)),
      IsSet(Sub(m, 1)), IsSet(Sub(m, 2)), OptInt(Sub(m, 3)), OptInt(Sub(m, 4)))
  }

  predicate ReservationRanged(r: Reservation) {
    && U64(r.id) && U64(r.generation) && U64(r.setId) && U64(r.groupId) && U64(r.resource) && OptU64(r.boundGeneration)
    && RangedAmount(r.quantity) && RangedAmount(r.activated) && RangedAmount(r.consumed) && RangedWindow(r.window)
    && U64(r.owner) && U64(r.ownerGeneration) && U64(r.policyGeneration) && TermsRanged(r.terms)
    && OptU64(r.activationGeneration) && OptU64(r.consumptionGeneration) && OptU64(r.releaseGeneration)
    && OptU64(r.transferGeneration) && OptU64(r.recoveryGeneration) && OptI64(r.activatedAt) && OptI64(r.releasedAt)
  }

  predicate ReservationReadable(r: Reservation) {
    && ReadableAmount(r.quantity) && ReadableAmount(r.activated) && ReadableAmount(r.consumed) && ReadableWindow(r.window)
    && ReadableText(r.terms.provenance)
  }

  predicate ReservationStorable(r: Reservation) {
    ReservationRanged(r) && ReservationReadable(r)
  }

  lemma BindingFits(r: Reservation)
    requires ReservationRanged(r)
    ensures Fits(BINDING, BindingValue(r))
  {
    RecordFits(BINDING, BindingValue(r).fields);
  }

  lemma ContractFitsIff(r: Reservation)
    requires ReservationRanged(r)
    ensures Writable(CONTRACT, ContractValue(r))
    ensures Fits(CONTRACT, ContractValue(r)) <==>
            ReadableAmount(r.quantity) && ReadableAmount(r.activated) && ReadableAmount(r.consumed) && ReadableWindow(r.window)
  {
    var k, vs := CONTRACT, ContractValue(r).fields;
    RecordFits(k, vs);
    if Fits(k, ContractValue(r)) {
      assert Fits(k.fields[0], vs[0]) && Fits(k.fields[1], vs[1]) && Fits(k.fields[2], vs[2]) && Fits(k.fields[3], vs[3]);
    }
  }

  lemma EvidenceFits(r: Reservation)
    requires ReservationRanged(r)
    ensures Fits(EVIDENCE, EvidenceValue(r))
  {
    RecordFits(EVIDENCE, EvidenceValue(r).fields);
  }

  lemma MarkersFit(r: Reservation)
    requires ReservationRanged(r)
    ensures Fits(MARKERS, MarkersValue(r))
  {
    hide EVIDENCE, EvidenceValue;
    EvidenceFits(r);
    RecordFits(MARKERS, MarkersValue(r).fields);
  }

  /** A reservation in its machine ranges can always be written; it can be read back exactly when
      its window is not empty, its amounts are sound and its provenance is within the bound. */
  lemma ReservationFitsIff(r: Reservation)
    requires ReservationRanged(r)
    ensures Writable(RESERVATION, ReservationValue(r))
    ensures Fits(RESERVATION, ReservationValue(r)) <==> ReservationReadable(r)
  {
    hide BINDING, CONTRACT, MARKERS, PLACEMENT, POLICY, Parties, BindingValue, ContractValue, MarkersValue, PartiesValue, PlacementValue, PolicyValue,
         ReadableAmount, ReadableWindow;
    BindingFits(r);
    ContractFitsIff(r);
    PartiesFit(true, r.terms);
    PlacementFits(r.terms);
    PolicyFits(r.terms, r.transfer);
    MarkersFit(r);
    var k, vs := RESERVATION, ReservationValue(r).fields;
    RecordFits(k, vs);
    if Fits(k, ReservationValue(r)) {
      assert Fits(k.fields[1], vs[1]) && Fits(k.fields[6], vs[6]);
    }
  }

  lemma ReservationFits(r: Reservation)
    requires ReservationStorable(r)
    ensures Fits(RESERVATION, ReservationValue(r))
  {
    hide RESERVATION, ReservationValue, ReservationReadable, ReservationRanged;
    ReservationFitsIff(r);
  }

  lemma ReservationReads(r: Reservation)
    ensures ReservationFrom(ReservationValue(r)) == r
  {
    hide TermsFrom;
    TermsRead(r.terms, r.transfer);
  }

  /** A stored reservation reads back as it was, whatever follows it; cut short it is rejected as
      truncated. */
  lemma ReservationRoundTrip(r: Reservation, suffix: seq<Byte>, n: nat)
    requires ReservationStorable(r)
    ensures Fits(RESERVATION, ReservationValue(r))
    ensures var b := Encode(RESERVATION, ReservationValue(r));
            && Decode(RESERVATION, b + suffix) == Parsed(ReservationValue(r), |b|) && ReservationFrom(ReservationValue(r)) == r
            && (n < |b| ==> Decode(RESERVATION, b[..n]) == Failed(Truncated))
  {
    hide Fits, Encode, Decode, RESERVATION, ReservationValue, ReservationFrom, ReservationStorable;
    ReservationFits(r);
    ReservationReads(r);
    RoundTrip(RESERVATION, ReservationValue(r), suffix);
    if n < |Encode(RESERVATION, ReservationValue(r))| { PrefixIsTruncated(RESERVATION, ReservationValue(r), n); }
  }

  // ---- holds ----

  const HOLD_HEAD: Kind := KRecord([KU64, KU64, KU64, KU64, KByte, KByte, KQuantity, KWindow])
  const HOLD: Kind := KRecord([HOLD_HEAD, KU64, KBool, KText, KByte, KU64, KBool, KI64, KBool])

  function HoldSpecValue(h: HoldSpec): Value {
    VRecord([VNum(h.id), VNum(h.generation), VNum(h.owner), VNum(h.ownerGeneration), VNum(h.resourceClass), VNum(h.unit),
             VQuantity(h.quantity), VWindow(h.window)])
  }

  function HoldValue(h: Hold): Value {
    VRecord([HoldSpecValue(h.spec), VNum(h.spec.policyGeneration), Flag(h.spec.commitAuthority), VText(h.spec.provenance),
             VNum(h.state), VNum(h.resource), Flag(h.applied), VNum(h.expiry), Flag(h.persisted)])
  }

  function HoldFrom(v: Value): Hold {
    var s := Sub(v, 0);
    Hold(HoldSpec(Nat(Sub(s, 0)), Nat(Sub(s, 1)), Nat(Sub(s, 2)), Nat(Sub(s, 3)), Code(Sub(s, 4)), Code(Sub(s, 5)), Amount(Sub(s, 6)), Window(Sub(s, 7)),
                  Nat(Sub(v, 1)), IsSet(Sub(v, 2)), Text(Sub(v, 3))),
         Code(Sub(v, 4)), Nat(Sub(v, 5)), IsSet(Sub(v, 6)), Int(Sub(v, 7)), IsSet(Sub(v, 8)))
  }

  predicate HoldRanged(h: Hold) {
    && U64(h.spec.id) && U64(h.spec.generation) && U64(h.spec.owner) && U64(h.spec.ownerGeneration) && RangedAmount(h.spec.quantity)
    && RangedWindow(h.spec.window) && U64(h.spec.policyGeneration) && RangedText(h.spec.provenance) && U64(h.resource) && IsI64(h.expiry)
  }

  predicate HoldReadable(h: Hold) {
    ReadableAmount(h.spec.quantity) && ReadableWindow(h.spec.window) && ReadableText(h.spec.provenance)
  }

  predicate HoldStorable(h: Hold) {
    HoldRanged(h) && HoldReadable(h)
  }

  lemma HoldRoundTrip(h: Hold, suffix: seq<Byte>, n: nat)
    requires HoldStorable(h)
    ensures Fits(HOLD, HoldValue(h))
    ensures var b := Encode(HOLD, HoldValue(h));
            && Decode(HOLD, b + suffix) == Parsed(HoldValue(h), |b|) && HoldFrom(HoldValue(h)) == h
            && (n < |b| ==> Decode(HOLD, b[..n]) == Failed(Truncated))
  {
    hide Encode, Decode;
    HoldFits(h);
    RoundTrip(HOLD, HoldValue(h), suffix);
    if n < |Encode(HOLD, HoldValue(h))| { PrefixIsTruncated(HOLD, HoldValue(h), n); }
  }

  lemma HoldHeadFitsIff(h: Hold)
    requires HoldRanged(h)
    ensures Writable(HOLD_HEAD, HoldSpecValue(h.spec))
    ensures Fits(HOLD_HEAD, HoldSpecValue(h.spec)) <==> ReadableAmount(h.spec.quantity) && ReadableWindow(h.spec.window)
  {
    var k, vs := HOLD_HEAD, HoldSpecValue(h.spec).fields;
    RecordFits(k, vs);
    if Fits(k, HoldSpecValue(h.spec)) {
      assert Fits(k.fields[6], vs[6]) && Fits(k.fields[7], vs[7]);
    }
  }

  lemma HoldFitsIff(h: Hold)
    requires HoldRanged(h)
    ensures Writable(HOLD, HoldValue(h))
    ensures Fits(HOLD, HoldValue(h)) <==> HoldReadable(h)
  {
    hide HOLD_HEAD, HoldSpecValue, ReadableAmount, ReadableWindow;
    HoldHeadFitsIff(h);
    var k, vs := HOLD, HoldValue(h).fields;
    RecordFits(k, vs);
    if Fits(k, HoldValue(h)) {
      assert Fits(k.fields[0], vs[0]) && Fits(k.fields[3], vs[3]);
    }
  }

  lemma HoldFits(h: Hold)
    requires HoldStorable(h)
    ensures Fits(HOLD, HoldValue(h))
  {
    hide HOLD, HoldValue, HoldReadable, HoldRanged;
    HoldFitsIff(h);
  }

  // ---- sets ----

  const SET: Kind := KRecord([KU64, KU64, KU64, KU64, KU64, KBool, KByte, KBool, KBool, KBool, KList(MAX_COLLECTION, KU64)])

  function Numbers(ns: seq<nat>): seq<Value> {
    seq(|ns|, i requires 0 <= i < |ns| => VNum(ns[i]))
  }

  function NatsOf(vs: seq<Value>): seq<nat> {
    seq(|vs|, i requires 0 <= i < |vs| => Nat(vs[i]))
  }

  lemma NumbersFit(bound: nat, ns: seq<nat>)
    requires |ns| < U32_LIMIT && forall n :: n in ns ==> U64(n)
    ensures Writable(KList(bound, KU64), VList(Numbers(ns)))
    ensures Fits(KList(bound, KU64), VList(Numbers(ns))) <==> |ns| <= bound
  {
    forall j | 0 <= j < |ns| ensures Fits(KU64, Numbers(ns)[j]) {
      assert ns[j] in ns;
    }
    ListFits(bound, KU64, Numbers(ns));
  }

  function SetValue(s: ReservationSet): Value {
    VRecord([VNum(s.id), VNum(s.generation), VNum(s.groupId), VNum(s.owner), VNum(s.ownerGeneration), Flag(s.allOrNothing), VNum(s.tx),
             Flag(s.committed), Flag(s.rolledBack), Flag(s.persisted), VList(Numbers(s.members))])
  }

  function SetFrom(v: Value): ReservationSet {
    ReservationSet(Nat(Sub(v, 0)), Nat(Sub(v, 1)), Nat(Sub(v, 2)), Nat(Sub(v, 3)), Nat(Sub(v, 4)), IsSet(Sub(v, 5)), Code(Sub(v, 6)),
                   IsSet(Sub(v, 7)), IsSet(Sub(v, 8)), IsSet(Sub(v, 9)), NatsOf(Items(Sub(v, 10))))
  }

  predicate SetRanged(s: ReservationSet) {
    && U64(s.id) && U64(s.generation) && U64(s.groupId) && U64(s.owner) && U64(s.ownerGeneration)
    && |s.members| < U32_LIMIT && forall m :: m in s.members ==> U64(m)
  }

  predicate SetReadable(s: ReservationSet) {
    |s.members| <= MAX_COLLECTION
  }

  predicate SetStorable(s: ReservationSet) {
    SetRanged(s) && SetReadable(s)
  }

  lemma SetRoundTrip(s: ReservationSet, suffix: seq<Byte>, n: nat)
    requires SetStorable(s)
    ensures Fits(SET, SetValue(s))
    ensures var b := Encode(SET, SetValue(s));
            && Decode(SET, b + suffix) == Parsed(SetValue(s), |b|) && SetFrom(SetValue(s)) == s
            && (n < |b| ==> Decode(SET, b[..n]) == Failed(Truncated))
  {
    hide Encode, Decode;
    SetFits(s);
    SetReads(s);
    RoundTrip(SET, SetValue(s), suffix);
    if n < |Encode(SET, SetValue(s))| { PrefixIsTruncated(SET, SetValue(s), n); }
  }

  lemma SetFitsIff(s: ReservationSet)
    requires SetRanged(s)
    ensures Writable(SET, SetValue(s))
    ensures Fits(SET, SetValue(s)) <==> SetReadable(s)
  {
    hide Numbers;
    NumbersFit(MAX_COLLECTION, s.members);
    RecordFits(SET, SetValue(s).fields);
    if Fits(SET, SetValue(s)) {
      assert Fits(SET.fields[10], SetValue(s).fields[10]);
    }
  }

  lemma SetFits(s: ReservationSet)
    requires SetStorable(s)
    ensures Fits(SET, SetValue(s))
  {
    hide SET, SetValue, SetReadable, SetRanged;
    SetFitsIff(s);
  }

  lemma SetReads(s: ReservationSet)
    ensures SetFrom(SetValue(s)) == s
  {
    assert NatsOf(Numbers(s.members)) == s.members;
  }

  // ---- resources with their envelope's span ----

  datatype StoredResource = StoredResource(resource: Resource, origin: int, horizon: int, ratio: int)

  const RESOURCE_HEAD: Kind := KRecord([KU64, KU64, KByte, KByte, KQuantity, KU64, KU64, KU64])
  const RESOURCE: Kind := KRecord([RESOURCE_HEAD, KU64, KU64, KU64, KU64, KU64, KBool, KI64, KI64, KI64])

  function ResourceHead(r: Resource): Value {
    VRecord([VNum(r.id), VNum(r.generation), VNum(r.resourceClass), VNum(r.unit), VQuantity(r.totalCapacity), VNum(r.pool), VNum(r.poolGeneration),
             VNum(r.owner)])
  }

  function ResourceValue(x: StoredResource): Value {
    var r := x.resource;
    VRecord([ResourceHead(r), VNum(r.ownerBoot), VNum(r.capabilities), VNum(r.topology), VNum(r.contract), VNum(r.contractGeneration), Flag(r.available),
             VNum(x.origin), VNum(x.horizon), VNum(x.ratio)])
  }

  function ResourceFrom(v: Value): StoredResource {
    var h := Sub(v, 0);
    StoredResource(
      Resource(Nat(Sub(h, 0)), Nat(Sub(h, 1)), Code(Sub(h, 2)), Code(Sub(h, 3)), Amount(Sub(h, 4)), Nat(Sub(h, 5)), Nat(Sub(h, 6)), Nat(Sub(h, 7)),
               Nat(Sub(v, 1)), Nat(Sub(v, 2)), Nat(Sub(v, 3)), Nat(Sub(v, 4)), Nat(Sub(v, 5)), IsSet(Sub(v, 6))),
      Int(Sub(v, 7)), Int(Sub(v, 8)), Int(Sub(v, 9)))
  }

  predicate ResourceRanged(x: StoredResource) {
    var r := x.resource;
    && U64(r.id) && U64(r.generation) && RangedAmount(r.totalCapacity) && U64(r.pool) && U64(r.poolGeneration) && U64(r.owner) && U64(r.ownerBoot)
    && U64(r.capabilities) && U64(r.topology) && U64(r.contract) && U64(r.contractGeneration)
    && IsI64(x.origin) && IsI64(x.horizon) && IsI64(x.ratio)
  }

  predicate ResourceStorable(x: StoredResource) {
    ResourceRanged(x) && ReadableAmount(x.resource.totalCapacity)
  }

  lemma ResourceRoundTrip(x: StoredResource, suffix: seq<Byte>, n: nat)
    requires ResourceStorable(x)
    ensures Fits(RESOURCE, ResourceValue(x))
    ensures var b := Encode(RESOURCE, ResourceValue(x));
            && Decode(RESOURCE, b + suffix) == Parsed(ResourceValue(x), |b|) && ResourceFrom(ResourceValue(x)) == x
            && (n < |b| ==> Decode(RESOURCE, b[..n]) == Failed(Truncated))
  {
    hide Encode, Decode;
    ResourceFits(x);
    RoundTrip(RESOURCE, ResourceValue(x), suffix);
    if n < |Encode(RESOURCE, ResourceValue(x))| { PrefixIsTruncated(RESOURCE, ResourceValue(x), n); }
  }

  lemma ResourceHeadFitsIff(x: StoredResource)
    requires ResourceRanged(x)
    ensures Writable(RESOURCE_HEAD, ResourceHead(x.resource))
    ensures Fits(RESOURCE_HEAD, ResourceHead(x.resource)) <==> ReadableAmount(x.resource.totalCapacity)
  {
    var k, vs := RESOURCE_HEAD, ResourceHead(x.resource).fields;
    RecordFits(k, vs);
    if Fits(k, ResourceHead(x.resource)) {
      assert Fits(k.fields[4], vs[4]);
    }
  }

  lemma ResourceFitsIff(x: StoredResource)
    requires ResourceRanged(x)
    ensures Writable(RESOURCE, ResourceValue(x))
    ensures Fits(RESOURCE, ResourceValue(x)) <==> ReadableAmount(x.resource.totalCapacity)
  {
    hide RESOURCE_HEAD, ResourceHead, ReadableAmount;
    ResourceHeadFitsIff(x);
    var k, vs := RESOURCE, ResourceValue(x).fields;
    RecordFits(k, vs);
    if Fits(k, ResourceValue(x)) {
      assert Fits(k.fields[0], vs[0]);
    }
  }

  lemma ResourceFits(x: StoredResource)
    requires ResourceStorable(x)
    ensures Fits(RESOURCE, ResourceValue(x))
  {
    hide RESOURCE, ResourceValue, ReadableAmount, ResourceRanged;
    ResourceFitsIff(x);
  }

  // ---- requests ----

  const ASK: Kind := KRecord([KU64, KU64, KByte, KByte, KQuantity, KBool, KOption(false, KQuantity), KWindow, KByte, KOption(false, KI64)])
  const REQUEST: Kind := KRecord([ASK, KByte, KU64, KU64, Parties(false), PLACEMENT, KOption(false, KU64), KU64, POLICY,
                                  KRecord([KU64, KOption(false, KU64), KOption(false, KU64), KText])])

  function OptAmount(o: Option<Quantity>): Value {
    if o.Some? then VSome(VQuantity(o.value)) else VNone
  }

  function AskValue(r: Request): Value {
    VRecord([VNum(r.id), VNum(r.generation), VNum(r.resourceClass), VNum(r.unit), VQuantity(r.quantity), Flag(r.partialAllowed),
             OptAmount(r.minAcceptable), VWindow(r.window), VNum(r.terms.activationMode), OptionOf(r.durationAfterActivation)])
  }

  function AimValue(r: Request): Value {
    VRecord([VNum(r.poolConstraint), OptionOf(r.group), OptionOf(r.targetResource), VText(r.terms.provenance)])
  }

  function RequestValue(r: Request): Value {
    VRecord([AskValue(r), VNum(r.strength), VNum(r.owner), VNum(r.ownerGeneration), PartiesValue(r.terms), PlacementValue(r.terms),
             OptionOf(r.minResourceGeneration), VNum(r.policyGeneration), PolicyValue(r.terms, r.transfer), AimValue(r)])
  }

  function RequestFrom(v: Value): Request {
    var a, p, m := Sub(v, 0), Sub(v, 8), Sub(v, 9);
    Request(Nat(Sub(a, 0)), Nat(Sub(a, 1)), Code(Sub(a, 2)), Code(Sub(a, 3)), Amount(Sub(a, 4)), IsSet(Sub(a, 5)),
            if Sub(a, 6).VSome? then Some(Amount(Sub(a, 6).value)) else None, Window(Sub(a, 7)), OptInt(Sub(a, 9)),
            Code(Sub(v, 1)), Nat(Sub(v, 2)), Nat(Sub(v, 3)), OptNat(Sub(v, 6)), Nat(Sub(v, 7)), Code(Sub(p, 6)),
            Nat(Sub(m, 0)), OptNat(Sub(m, 1)), OptNat(Sub(m, 2)),
            TermsFrom(Code(Sub(a, 8)), Sub(v, 4), Sub(v, 5), p, Text(Sub(m, 3))))
  }

  predicate RequestStorable(r: Request) {
    && U64(r.id) && U64(r.generation) && Amountable(r.quantity) && (r.minAcceptable.Some? ==> Amountable(r.minAcceptable.value))
    && Windowed(r.window) && OptI64(r.durationAfterActivation) && U64(r.owner) && U64(r.ownerGeneration) && OptU64(r.minResourceGeneration)
    && U64(r.policyGeneration) && U64(r.poolConstraint) && OptU64(r.group) && OptU64(r.targetResource) && TermsOk(r.terms)
  }

  lemma AskFits(r: Request)
    requires RequestStorable(r)
    ensures Fits(ASK, AskValue(r))
  {
    RecordOfFits(ASK, AskValue(r).fields);
  }

  lemma AimFits(r: Request)
    requires RequestStorable(r)
    ensures Fits(REQUEST.fields[9], AimValue(r))
  {
    RecordOfFits(REQUEST.fields[9], AimValue(r).fields);
  }

  lemma RequestFits(r: Request)
    requires RequestStorable(r)
    ensures Fits(REQUEST, RequestValue(r))
  {
    hide ASK, PLACEMENT, POLICY, Parties, AskValue, AimValue, PartiesValue, PlacementValue, PolicyValue;
    AskFits(r);
    AimFits(r);
    PartiesFit(false, r.terms);
    PlacementFits(r.terms);
    PolicyFits(r.terms, r.transfer);
    RecordOfFits(REQUEST, RequestValue(r).fields);
  }

  lemma RequestReads(r: Request)
    ensures RequestFrom(RequestValue(r)) == r
  {
    hide TermsFrom;
    TermsRead(r.terms, r.transfer);
  }

  lemma RequestRoundTrip(r: Request, suffix: seq<Byte>, n: nat)
    requires RequestStorable(r)
    ensures Fits(REQUEST, RequestValue(r))
    ensures var b := Encode(REQUEST, RequestValue(r));
            && Decode(REQUEST, b + suffix) == Parsed(RequestValue(r), |b|) && RequestFrom(RequestValue(r)) == r
            && (n < |b| ==> Decode(REQUEST, b[..n]) == Failed(Truncated))
  {
    hide Fits, Encode, Decode, REQUEST, RequestValue, RequestFrom, RequestStorable;
    RequestFits(r);
    RequestReads(r);
    RoundTrip(REQUEST, RequestValue(r), suffix);
    if n < |Encode(REQUEST, RequestValue(r))| { PrefixIsTruncated(REQUEST, RequestValue(r), n); }
  }

  // ---- publications ----

  const OUTAGE: Kind := KRecord([KWindow, KText])
  const PUBLICATION: Kind := KRecord([KRecord([KU64, KU64, KU64, KU64, KByte, KByte, KQuantity]), KU64, KU64, KU64, KU64, KU64, KU64,
                                      KI64, KI64, KI64, KList(MAX_COUNT, OUTAGE)])

  function OutageValue(u: UnavailableWindow): Value {
    VRecord([VWindow(u.interval), VText(u.reason)])
  }

  function OutageFrom(v: Value): UnavailableWindow {
    UnavailableWindow(Window(Sub(v, 0)), Text(Sub(v, 1)))
  }

  function Outages(us: seq<UnavailableWindow>): seq<Value> {
    seq(|us|, i requires 0 <= i < |us| => OutageValue(us[i]))
  }

  function OutagesFrom(vs: seq<Value>): seq<UnavailableWindow> {
    seq(|vs|, i requires 0 <= i < |vs| => OutageFrom(vs[i]))
  }

  function PublicationHead(p: Publication): Value {
    VRecord([VNum(p.worker), VNum(p.workerBoot), VNum(p.id), VNum(p.generation), VNum(p.resourceClass), VNum(p.unit), VQuantity(p.totalCapacity)])
  }

  function PublicationValue(p: Publication): Value {
    VRecord([PublicationHead(p), VNum(p.pool), VNum(p.poolGeneration), VNum(p.capabilities), VNum(p.topology), VNum(p.contract), VNum(p.contractGeneration),
             VNum(p.availableFrom), VNum(p.lifetime), VNum(p.ratio), VList(Outages(p.unavailable))])
  }

  function PublicationFrom(v: Value): Publication {
    var h := Sub(v, 0);
    Publication(Nat(Sub(h, 0)), Nat(Sub(h, 1)), Nat(Sub(h, 2)), Nat(Sub(h, 3)), Code(Sub(h, 4)), Code(Sub(h, 5)), Amount(Sub(h, 6)),
                Nat(Sub(v, 1)), Nat(Sub(v, 2)), Nat(Sub(v, 3)), Nat(Sub(v, 4)), Nat(Sub(v, 5)), Nat(Sub(v, 6)),
                Int(Sub(v, 7)), Int(Sub(v, 8)), Int(Sub(v, 9)), OutagesFrom(Items(Sub(v, 10))))
  }

  predicate PublicationStorable(p: Publication) {
    && U64(p.worker) && U64(p.workerBoot) && U64(p.id) && U64(p.generation) && Amountable(p.totalCapacity) && U64(p.pool) && U64(p.poolGeneration)
    && U64(p.capabilities) && U64(p.topology) && U64(p.contract) && U64(p.contractGeneration)
    && IsI64(p.availableFrom) && IsI64(p.lifetime) && IsI64(p.ratio)
    && |p.unavailable| <= MAX_COUNT && forall u :: u in p.unavailable ==> Windowed(u.interval) && Textual(u.reason)
  }

  lemma OutageFits(u: UnavailableWindow)
    requires Windowed(u.interval) && Textual(u.reason)
    ensures Fits(OUTAGE, OutageValue(u))
  {
    RecordOfFits(OUTAGE, OutageValue(u).fields);
  }

  lemma OutagesFit(us: seq<UnavailableWindow>)
    requires |us| <= MAX_COUNT && forall u :: u in us ==> Windowed(u.interval) && Textual(u.reason)
    ensures Fits(KList(MAX_COUNT, OUTAGE), VList(Outages(us)))
  {
    hide OUTAGE, OutageValue, Windowed, Textual;
    forall i | 0 <= i < |us| ensures Fits(OUTAGE, Outages(us)[i]) {
      OutageFits(us[i]);
    }
    ListFits(MAX_COUNT, OUTAGE, Outages(us));
  }

  lemma PublicationHeadFits(p: Publication)
    requires PublicationStorable(p)
    ensures Fits(PUBLICATION.fields[0], PublicationHead(p))
  {
    RecordOfFits(PUBLICATION.fields[0], PublicationHead(p).fields);
  }

  lemma PublicationFits(p: Publication)
    requires PublicationStorable(p)
    ensures Fits(PUBLICATION, PublicationValue(p))
  {
    hide OUTAGE, Outages, PublicationHead;
    OutagesFit(p.unavailable);
    PublicationHeadFits(p);
    RecordOfFits(PUBLICATION, PublicationValue(p).fields);
  }

  lemma PublicationReads(p: Publication)
    ensures PublicationFrom(PublicationValue(p)) == p
  {
    var us := p.unavailable;
    assert forall u :: OutageFrom(OutageValue(u)) == u;
    assert OutagesFrom(Outages(us)) == us;
  }

  lemma PublicationRoundTrip(p: Publication, suffix: seq<Byte>, n: nat)
    requires PublicationStorable(p)
    ensures Fits(PUBLICATION, PublicationValue(p))
    ensures var b := Encode(PUBLICATION, PublicationValue(p));
            && Decode(PUBLICATION, b + suffix) == Parsed(PublicationValue(p), |b|) && PublicationFrom(PublicationValue(p)) == p
            && (n < |b| ==> Decode(PUBLICATION, b[..n]) == Failed(Truncated))
  {
    hide Fits, Encode, Decode, PUBLICATION, PublicationValue, PublicationFrom, PublicationStorable;
    PublicationFits(p);
    PublicationReads(p);
    RoundTrip(PUBLICATION, PublicationValue(p), suffix);
    if n < |Encode(PUBLICATION, PublicationValue(p))| { PrefixIsTruncated(PUBLICATION, PublicationValue(p), n); }
  }

  // ---- feasibility reports ----

  /** An interval that was never set is not written. */
  datatype FeasibilityReport = FeasibilityReport(
    outcome: Byte, resourceClass: Byte, unit: Byte, requested: Quantity, admissible: Quantity, requestedInterval: Option<Interval>,
    resource: nat, currentResource: nat, staleResource: nat, policy: nat, stalePolicy: nat, epoch: nat, staleEpoch: nat,
    conflicts: seq<nat>, bottlenecks: seq<nat>, available: Quantity, conflictingInterval: Option<Interval>,
    softOnly: bool, overbook: bool, revalidation: bool, reasons: seq<seq<Byte>>)

  const FINDING: Kind := KRecord([KByte, KByte, KByte, KQuantity, KQuantity, KOption(false, KWindow)])
  const CURRENCY: Kind := KRecord([KU64, KU64, KU64, KU64, KU64, KU64, KU64])
  const OBSTACLES: Kind := KRecord([KList(MAX_COUNT, KU64), KList(MAX_COUNT, KU64), KQuantity, KOption(false, KWindow), KBool, KBool, KBool,
                                    KList(MAX_COUNT, KText)])
  const REPORT: Kind := KRecord([FINDING, CURRENCY, OBSTACLES])

  function OptWindow(o: Option<Interval>): Value {
    if o.Some? then VSome(VWindow(o.value)) else VNone
  }

  function WindowOption(v: Value): Option<Interval> {
    if v.VSome? then Some(Window(v.value)) else None
  }

  function Texts(ts: seq<seq<Byte>>): seq<Value> {
    seq(|ts|, i requires 0 <= i < |ts| => VText(ts[i]))
  }

  function TextsOf(vs: seq<Value>): seq<seq<Byte>> {
    seq(|vs|, i requires 0 <= i < |vs| => Text(vs[i]))
  }

  function FindingValue(r: FeasibilityReport): Value {
    VRecord([VNum(r.outcome), VNum(r.resourceClass), VNum(r.unit), VQuantity(r.requested), VQuantity(r.admissible), OptWindow(r.requestedInterval)])
  }

  function CurrencyValue(r: FeasibilityReport): Value {
    VRecord([VNum(r.resource), VNum(r.currentResource), VNum(r.staleResource), VNum(r.policy), VNum(r.stalePolicy), VNum(r.epoch), VNum(r.staleEpoch)])
  }

  function ObstaclesValue(r: FeasibilityReport): Value {
    VRecord([VList(Numbers(r.conflicts)), VList(Numbers(r.bottlenecks)), VQuantity(r.available), OptWindow(r.conflictingInterval),
             Flag(r.softOnly), Flag(r.overbook), Flag(r.revalidation), VList(Texts(r.reasons))])
  }

  function ReportValue(r: FeasibilityReport): Value {
    VRecord([FindingValue(r), CurrencyValue(r), ObstaclesValue(r)])
  }

  function ReportFrom(v: Value): FeasibilityReport {
    var f, c, o := Sub(v, 0), Sub(v, 1), Sub(v, 2);
    FeasibilityReport(
      Code(Sub(f, 0)), Code(Sub(f, 1)), Code(Sub(f, 2)), Amount(Sub(f, 3)), Amount(Sub(f, 4)), WindowOption(Sub(f, 5)),
      Nat(Sub(c, 0)), Nat(Sub(c, 1)), Nat(Sub(c, 2)), Nat(Sub(c, 3)), Nat(Sub(c, 4)), Nat(Sub(c, 5)), Nat(Sub(c, 6)),
      NatsOf(Items(Sub(o, 0))), NatsOf(Items(Sub(o, 1))), Amount(Sub(o, 2)), WindowOption(Sub(o, 3)),
      IsSet(Sub(o, 4)), IsSet(Sub(o, 5)), IsSet(Sub(o, 6)), TextsOf(Items(Sub(o, 7))))
  }

  predicate ReportStorable(r: FeasibilityReport) {
    && Amountable(r.requested) && Amountable(r.admissible) && Amountable(r.available)
    && (r.requestedInterval.Some? ==> Windowed(r.requestedInterval.value)) && (r.conflictingInterval.Some? ==> Windowed(r.conflictingInterval.value))
    && U64(r.resource) && U64(r.currentResource) && U64(r.staleResource) && U64(r.policy) && U64(r.stalePolicy) && U64(r.epoch) && U64(r.staleEpoch)
    && |r.conflicts| <= MAX_COUNT && |r.bottlenecks| <= MAX_COUNT && |r.reasons| <= MAX_COUNT
    && (forall n :: n in r.conflicts ==> U64(n)) && (forall n :: n in r.bottlenecks ==> U64(n)) && forall t :: t in r.reasons ==> Textual(t)
  }

  lemma FindingFits(r: FeasibilityReport)
    requires ReportStorable(r)
    ensures Fits(FINDING, FindingValue(r))
  {
    RecordOfFits(FINDING, FindingValue(r).fields);
  }

  lemma CurrencyFits(r: FeasibilityReport)
    requires ReportStorable(r)
    ensures Fits(CURRENCY, CurrencyValue(r))
  {
    RecordOfFits(CURRENCY, CurrencyValue(r).fields);
  }

  lemma TextsFit(ts: seq<seq<Byte>>)
    requires |ts| <= MAX_COUNT && forall t :: t in ts ==> Textual(t)
    ensures Fits(KList(MAX_COUNT, KText), VList(Texts(ts)))
  {
    forall j | 0 <= j < |ts| ensures Fits(KText, Texts(ts)[j]) {
      assert ts[j] in ts;
    }
    ListFits(MAX_COUNT, KText, Texts(ts));
  }

  lemma ObstaclesFit(r: FeasibilityReport)
    requires ReportStorable(r)
    ensures Fits(OBSTACLES, ObstaclesValue(r))
  {
    hide Numbers, Texts;
    NumbersFit(MAX_COUNT, r.conflicts);
    NumbersFit(MAX_COUNT, r.bottlenecks);
    TextsFit(r.reasons);
    RecordOfFits(OBSTACLES, ObstaclesValue(r).fields);
  }

  lemma ReportFits(r: FeasibilityReport)
    requires ReportStorable(r)
    ensures Fits(REPORT, ReportValue(r))
  {
    hide FINDING, CURRENCY, OBSTACLES, FindingValue, CurrencyValue, ObstaclesValue;
    FindingFits(r);
    CurrencyFits(r);
    ObstaclesFit(r);
    RecordOfFits(REPORT, ReportValue(r).fields);
  }

  lemma ReportReads(r: FeasibilityReport)
    ensures ReportFrom(ReportValue(r)) == r
  {
    assert NatsOf(Numbers(r.conflicts)) == r.conflicts && NatsOf(Numbers(r.bottlenecks)) == r.bottlenecks;
    assert TextsOf(Texts(r.reasons)) == r.reasons;
  }

  lemma ReportRoundTrip(r: FeasibilityReport, suffix: seq<Byte>, n: nat)
    requires ReportStorable(r)
    ensures Fits(REPORT, ReportValue(r))
    ensures var b := Encode(REPORT, ReportValue(r));
            && Decode(REPORT, b + suffix) == Parsed(ReportValue(r), |b|) && ReportFrom(ReportValue(r)) == r
            && (n < |b| ==> Decode(REPORT, b[..n]) == Failed(Truncated))
  {
    hide Fits, Encode, Decode, REPORT, ReportValue, ReportFrom, ReportStorable;
    ReportFits(r);
    ReportReads(r);
    RoundTrip(REPORT, ReportValue(r), suffix);
    if n < |Encode(REPORT, ReportValue(r))| { PrefixIsTruncated(REPORT, ReportValue(r), n); }
  }
}
