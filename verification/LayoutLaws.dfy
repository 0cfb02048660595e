/** The bytes of every record: one after the other, in the order the writers put them, from byte
    values alone. */
module LayoutLaws {
  import opened Types
  import opened Codec
  import opened Records
  import opened Framing

  /** The bounds of readers and writers: strings and frames of a mebibyte, saved collections of
      2^24 entries, lists in messages of whatever their four bytes can count. */
  lemma Limits()
    ensures MAX_STRING == 1_048_576 && MAX_PAYLOAD == 1_048_576 && MAX_COLLECTION == 16_777_216 && MAX_COUNT == 4_294_967_295
    ensures U32_LIMIT == 4_294_967_296 && U64_LIMIT == U32_LIMIT * U32_LIMIT && MAX_COUNT == U32_LIMIT - 1
  {
  }

  // ---- numbers ----

  /** Four bytes, lowest first. */
  function Four(n: nat): seq<Byte> {
    [n % 256, n / 0x100 % 256, n / 0x1_0000 % 256, n / 0x100_0000 % 256]
  }

  function Flipped(bytes: seq<Byte>): seq<Byte> {
    seq(|bytes|, i requires 0 <= i < |bytes| => 255 - bytes[i])
  }

  /** Eight bytes; a negative number is the one below its opposite with every bit flipped. */
  function Eight(n: int): seq<Byte> {
    var k := if n >= 0 then n else -n - 1;
    var low := Four(k) + Four(k / 0x1_0000_0000);
    if n >= 0 then low else Flipped(low)
  }

  lemma FourIs(n: nat)
    requires n < U32_LIMIT
    ensures LittleEndian(n, 4) == Four(n)
  {
    FourThen(n, 0);
  }

  lemma FourThen(n: nat, w: nat)
    ensures LittleEndian(n, w + 4) == Four(n) + LittleEndian(n / 0x1_0000_0000, w)
  {
    Quarter(n, w + 3);
    Quarter(n / 0x100, w + 2);
    Quarter(n / 0x1_0000, w + 1);
    Quarter(n / 0x100_0000, w);
    assert n / 0x100 / 256 == n / 0x1_0000 && n / 0x1_0000 / 256 == n / 0x100_0000 && n / 0x100_0000 / 256 == n / 0x1_0000_0000;
  }

  lemma Quarter(n: nat, w: nat)
    ensures LittleEndian(n, w + 1) == [n % 256] + LittleEndian(n / 256, w)
  {
  }

  lemma EightIs(n: int)
    requires IsI64(n) || 0 <= n < U64_LIMIT
    ensures LittleEndian(Unsigned64(n), 8) == Eight(n)
  {
    hide LittleEndian, Four;
    PowValues();
    var k := if n >= 0 then n else -n - 1;
    FourThen(k, 4);
    FourThen(k / 0x1_0000_0000, 0);
    NoBytes(k / 0x1_0000_0000 / 0x1_0000_0000);
    if n < 0 { FlippedIs(k, 8); }
  }

  lemma NoBytes(n: nat)
    ensures LittleEndian(n, 0) == []
  {
  }

  lemma {:induction false} FlippedIs(n: nat, w: nat)
    requires n < Pow256(w)
    ensures LittleEndian(Pow256(w) - 1 - n, w) == Flipped(LittleEndian(n, w))
  {
    if w > 0 {
      var p := Pow256(w - 1);
      assert (256 * p - 1 - n) / 256 == p - 1 - n / 256 && (256 * p - 1 - n) % 256 == 255 - n % 256;
      FlippedIs(n / 256, w - 1);
    }
  }

  // ---- fields ----

  lemma {:induction false} JoinedFront(parts: seq<seq<Byte>>)
    requires parts != []
    ensures Joined(parts) == parts[0] + Joined(parts[1..])
    decreases |parts|
  {
    var n := |parts| - 1;
    if n == 0 {
      assert parts[..0] == [] && parts[1..] == [];
    } else {
      JoinedFront(parts[..n]);
      assert parts[..n][1..] == parts[1..][..n - 1] && parts[1..][n - 1] == parts[n];
    }
  }

  function OneOrZero(b: bool): seq<Byte> {
    if b then [1] else [0]
  }

  function Maybe(o: Option<int>): seq<Byte> {
    if o.Some? then [1] + Eight(o.value) else [0]
  }

  function AmountBytes(q: Quantity): seq<Byte> {
    Eight(q.value) + [q.unit]
  }

  function WindowBytes(w: Interval): seq<Byte> {
    Eight(w.start) + Eight(w.end)
  }

  function TextBytes(t: seq<Byte>): seq<Byte> {
    Four(|t|) + t
  }

  /** Each value of the record is written as the part of the same place. */
  ghost predicate Matching(k: Kind, vs: seq<Value>, parts: seq<seq<Byte>>)
    requires k.KRecord? && |vs| == |k.fields|
  {
    |parts| == |vs| && forall j :: 0 <= j < |vs| ==> Writes(k.fields[j], vs[j], parts[j])
  }

  ghost predicate Writes(k: Kind, v: Value, part: seq<Byte>) {
    Writable(k, v) && Encode(k, v) == part
  }

  lemma {:induction false} FieldsWrite(k: Kind, vs: seq<Value>, parts: seq<seq<Byte>>, i: nat)
    requires k.KRecord? && |vs| == |k.fields| && Matching(k, vs, parts) && i <= |vs|
    ensures FieldsWritable(k, vs, i) && EncodeFields(k, vs, i) == Joined(parts[i..])
    decreases |vs| - i
  {
    if i < |vs| {
      FieldsWrite(k, vs, parts, i + 1);
      assert Writes(k.fields[i], vs[i], parts[i]);
      JoinedFront(parts[i..]);
      assert parts[i..][1..] == parts[i + 1..];
    }
  }

  /** A record's bytes are those of its fields in order. */
  lemma RecordWrites(k: Kind, vs: seq<Value>, parts: seq<seq<Byte>>)
    requires k.KRecord? && |vs| == |k.fields| && Matching(k, vs, parts)
    ensures Writes(k, VRecord(vs), Joined(parts))
  {
    FieldsWrite(k, vs, parts, 0);
    assert parts[0..] == parts;
  }

  lemma {:induction false} ItemsWrite(item: Kind, vs: seq<Value>, parts: seq<seq<Byte>>)
    requires |parts| == |vs| && forall j :: 0 <= j < |vs| ==> Writes(item, vs[j], parts[j])
    ensures ItemsWritable(item, vs) && EncodeItems(item, vs) == Joined(parts)
    decreases |vs|
  {
    if vs != [] {
      forall j | 0 <= j < |vs| - 1 ensures Writes(item, vs[1..][j], parts[1..][j]) {
        assert Writes(item, vs[j + 1], parts[j + 1]);
      }
      ItemsWrite(item, vs[1..], parts[1..]);
      JoinedFront(parts);
      assert Writes(item, vs[0], parts[0]);
    }
  }

  /** A list's bytes are its count and those of its items in order. */
  lemma ListWrites(bound: nat, item: Kind, vs: seq<Value>, parts: seq<seq<Byte>>)
    requires |parts| == |vs| < U32_LIMIT && forall j :: 0 <= j < |vs| ==> Writes(item, vs[j], parts[j])
    ensures Writes(KList(bound, item), VList(vs), Four(|vs|) + Joined(parts))
  {
    hide Four, Joined, LittleEndian, EncodeItems, ItemsWritable;
    ItemsWrite(item, vs, parts);
    FourIs(|vs|);
  }

  lemma WriteByte(n: Byte)
    ensures Writes(KByte, VNum(n), [n])
  {
  }

  lemma WriteFlag(b: bool)
    ensures Writes(KBool, Flag(b), OneOrZero(b))
  {
  }

  lemma WriteU32(n: nat)
    requires n < U32_LIMIT
    ensures Writes(KU32, VNum(n), Four(n))
  {
    hide Four;
    FourIs(n);
  }

  lemma WriteU64(n: nat)
    requires U64(n)
    ensures Writes(KU64, VNum(n), Eight(n))
  {
    hide Eight;
    EightIs(n);
  }

  lemma WriteI64(n: int)
    requires IsI64(n)
    ensures Writes(KI64, VNum(n), Eight(n))
  {
    hide Eight;
    EightIs(n);
  }

  lemma WriteI32(n: int)
    requires IsI32(n)
    ensures Writes(KI32, VNum(n), Eight(n))
  {
    hide Eight;
    EightIs(n);
  }

  lemma WriteSome(strict: bool, k: Kind, v: Value, part: seq<Byte>)
    requires Writes(k, v, part)
    ensures Writes(KOption(strict, k), VSome(v), [1] + part)
  {
  }

  lemma WriteNone(strict: bool, k: Kind)
    ensures Writes(KOption(strict, k), VNone, [0])
  {
  }

  lemma WriteMaybe(strict: bool, o: Option<nat>)
    requires OptU64(o)
    ensures Writes(KOption(strict, KU64), OptionOf(o), Maybe(o))
  {
    hide Eight, Writes;
    WriteNone(strict, KU64);
    if o.Some? {
      WriteU64(o.value);
      WriteSome(strict, KU64, VNum(o.value), Eight(o.value));
    }
  }

  lemma WriteMaybeInstant(strict: bool, o: Option<int>)
    requires OptI64(o)
    ensures Writes(KOption(strict, KI64), OptionOf(o), Maybe(o))
  {
    hide Eight, Writes;
    WriteNone(strict, KI64);
    if o.Some? {
      WriteI64(o.value);
      WriteSome(strict, KI64, VNum(o.value), Eight(o.value));
    }
  }

  lemma WriteAmount(q: Quantity)
    requires RangedAmount(q)
    ensures Writes(KQuantity, VQuantity(q), AmountBytes(q))
  {
    hide Eight;
    EightIs(q.value);
  }

  lemma WriteWindow(w: Interval)
    requires RangedWindow(w)
    ensures Writes(KWindow, VWindow(w), WindowBytes(w))
  {
    hide Eight;
    EightIs(w.start);
    EightIs(w.end);
  }

  lemma WriteText(t: seq<Byte>)
    requires RangedText(t)
    ensures Writes(KText, VText(t), TextBytes(t))
  {
    hide Four;
    FourIs(|t|);
  }

  // ---- terms ----

  function PartiesParts(t: Terms): seq<seq<Byte>> {
    [Maybe(t.workload), Maybe(t.workloadGeneration), Maybe(t.execution), Maybe(t.executionGeneration)]
  }

  lemma PartiesWrites(strict: bool, t: Terms)
    requires TermsRanged(t)
    ensures Writes(Parties(strict), PartiesValue(t), Joined(PartiesParts(t)))
  {
    hide Eight, Four, Writes, Joined, Maybe, AmountBytes, WindowBytes, TextBytes, OneOrZero, OptionOf, Flag;
    WriteMaybe(strict, t.workload);
    WriteMaybe(strict, t.workloadGeneration);
    WriteMaybe(strict, t.execution);
    WriteMaybe(strict, t.executionGeneration);
    RecordWrites(Parties(strict), PartiesValue(t).fields, PartiesParts(t));
  }

  function PlacementParts(t: Terms): seq<seq<Byte>> {
    [Four(t.requiredCapabilityId), OneOrZero(t.capacityRequiresCapability), Eight(t.preferredPool), Eight(t.placement),
     [t.preferredClass], Eight(t.localityWeight), [t.topologyDomain], OneOrZero(t.requireLocalPlacement),
     OneOrZero(t.requireSameDriverGeneration)]
  }

  lemma PlacementWrites(t: Terms)
    requires TermsRanged(t)
    ensures Writes(PLACEMENT, PlacementValue(t), Joined(PlacementParts(t)))
  {
    hide Eight, Four, Writes, Joined, Maybe, AmountBytes, WindowBytes, TextBytes, OneOrZero, OptionOf, Flag;
    WriteU32(t.requiredCapabilityId);
    WriteFlag(t.capacityRequiresCapability);
    WriteU64(t.preferredPool);
    WriteU64(t.placement);
    WriteByte(t.preferredClass);
    WriteI32(t.localityWeight);
    WriteByte(t.topologyDomain);
    WriteFlag(t.requireLocalPlacement);
    WriteFlag(t.requireSameDriverGeneration);
    RecordWrites(PLACEMENT, PlacementValue(t).fields, PlacementParts(t));
  }

  function PolicyParts(t: Terms, transfer: Byte): seq<seq<Byte>> {
    [Eight(t.priorityGeneration), Eight(t.priorityClass), OneOrZero(t.preemptible), [t.exclusivity], [t.elasticity], [t.renewal],
     [transfer], Eight(t.fragmentationTolerance), OneOrZero(t.allOrNothing)]
  }

  lemma PolicyWrites(t: Terms, transfer: Byte)
    requires TermsRanged(t)
    ensures Writes(POLICY, PolicyValue(t, transfer), Joined(PolicyParts(t, transfer)))
  {
    hide Eight, Four, Writes, Joined, Maybe, AmountBytes, WindowBytes, TextBytes, OneOrZero, OptionOf, Flag;
    WriteU64(t.priorityGeneration);
    WriteI32(t.priorityClass);
    WriteFlag(t.preemptible);
    WriteByte(t.exclusivity);
    WriteByte(t.elasticity);
    WriteByte(t.renewal);
    WriteByte(transfer);
    WriteI32(t.fragmentationTolerance);
    WriteFlag(t.allOrNothing);
    RecordWrites(POLICY, PolicyValue(t, transfer).fields, PolicyParts(t, transfer));
  }

  // ---- reservations ----

  function BindingParts(r: Reservation): seq<seq<Byte>> {
    [Eight(r.id), Eight(r.generation), Eight(r.setId), Eight(r.groupId), [r.strength], [r.resourceClass], [r.unit],
     Eight(r.resource), Maybe(r.boundGeneration)]
  }

  lemma BindingWrites(r: Reservation)
    requires ReservationRanged(r)
    ensures Writes(BINDING, BindingValue(r), Joined(BindingParts(r)))
  {
    hide Eight, Four, Writes, Joined, Maybe, AmountBytes, WindowBytes, TextBytes, OneOrZero, OptionOf, Flag;
    WriteU64(r.id);
    WriteU64(r.generation);
    WriteU64(r.setId);
    WriteU64(r.groupId);
    WriteByte(r.strength);
    WriteByte(r.resourceClass);
    WriteByte(r.unit);
    WriteU64(r.resource);
    WriteMaybe(true, r.boundGeneration);
    RecordWrites(BINDING, BindingValue(r).fields, BindingParts(r));
  }

  function ContractParts(r: Reservation): seq<seq<Byte>> {
    [AmountBytes(r.quantity), AmountBytes(r.activated), AmountBytes(r.consumed), WindowBytes(r.window), [r.terms.activationMode],
     [r.lifecycle], Eight(r.owner), Eight(r.ownerGeneration)]
  }

  lemma ContractWrites(r: Reservation)
    requires ReservationRanged(r)
    ensures Writes(CONTRACT, ContractValue(r), Joined(ContractParts(r)))
  {
    hide Eight, Four, Writes, Joined, Maybe, AmountBytes, WindowBytes, TextBytes, OneOrZero, OptionOf, Flag;
    WriteAmount(r.quantity);
    WriteAmount(r.activated);
    WriteAmount(r.consumed);
    WriteWindow(r.window);
    WriteByte(r.terms.activationMode);
    WriteByte(r.lifecycle);
    WriteU64(r.owner);
    WriteU64(r.ownerGeneration);
    RecordWrites(CONTRACT, ContractValue(r).fields, ContractParts(r));
  }

  function EvidenceParts(r: Reservation): seq<seq<Byte>> {
    [Maybe(r.activationGeneration), Maybe(r.consumptionGeneration), Maybe(r.releaseGeneration), Maybe(r.transferGeneration),
     Maybe(r.recoveryGeneration)]
  }

  lemma EvidenceWrites(r: Reservation)
    requires ReservationRanged(r)
    ensures Writes(EVIDENCE, EvidenceValue(r), Joined(EvidenceParts(r)))
  {
    hide Eight, Four, Writes, Joined, Maybe, AmountBytes, WindowBytes, TextBytes, OneOrZero, OptionOf, Flag;
    WriteMaybe(true, r.activationGeneration);
    WriteMaybe(true, r.consumptionGeneration);
    WriteMaybe(true, r.releaseGeneration);
    WriteMaybe(true, r.transferGeneration);
    WriteMaybe(true, r.recoveryGeneration);
    RecordWrites(EVIDENCE, EvidenceValue(r).fields, EvidenceParts(r));
  }

  function MarkersParts(r: Reservation): seq<seq<Byte>> {
    [Joined(EvidenceParts(r)), OneOrZero(r.contributes), OneOrZero(r.persisted), Maybe(r.activatedAt), Maybe(r.releasedAt)]
  }

  lemma MarkersWrites(r: Reservation)
    requires ReservationRanged(r)
    ensures Writes(MARKERS, MarkersValue(r), Joined(MarkersParts(r)))
  {
    hide Eight, Four, Writes, Joined, Maybe, AmountBytes, WindowBytes, TextBytes, OneOrZero, OptionOf, Flag, EvidenceParts;
    EvidenceWrites(r);
    WriteFlag(r.contributes);
    WriteFlag(r.persisted);
    WriteMaybeInstant(true, r.activatedAt);
    WriteMaybeInstant(true, r.releasedAt);
    RecordWrites(MARKERS, MarkersValue(r).fields, MarkersParts(r));
  }

  /** A reservation: identity and binding, amounts and window, terms, then evidence and markers. */
  function ReservationParts(r: Reservation): seq<seq<Byte>> {
    [Joined(BindingParts(r)), Joined(ContractParts(r)), Joined(PartiesParts(r.terms)), Joined(PlacementParts(r.terms)),
     Eight(r.policyGeneration), Joined(PolicyParts(r.terms, r.transfer)), TextBytes(r.terms.provenance), Joined(MarkersParts(r))]
  }

  lemma ReservationWrites(r: Reservation)
    requires ReservationRanged(r)
    ensures Writes(RESERVATION, ReservationValue(r), Joined(ReservationParts(r)))
  {
    hide Eight, Four, Writes, Joined, Maybe, AmountBytes, WindowBytes, TextBytes, OneOrZero, OptionOf, Flag, BindingParts, ContractParts, PartiesParts, PlacementParts, PolicyParts, MarkersParts, BINDING, CONTRACT, PLACEMENT, POLICY, MARKERS, Parties;
    BindingWrites(r);
    ContractWrites(r);
    PartiesWrites(true, r.terms);
    PlacementWrites(r.terms);
    WriteU64(r.policyGeneration);
    PolicyWrites(r.terms, r.transfer);
    WriteText(r.terms.provenance);
    MarkersWrites(r);
    RecordWrites(RESERVATION, ReservationValue(r).fields, ReservationParts(r));
  }

  // ---- holds ----

  function HoldHeadParts(h: HoldSpec): seq<seq<Byte>> {
    [Eight(h.id), Eight(h.generation), Eight(h.owner), Eight(h.ownerGeneration), [h.resourceClass], [h.unit],
     AmountBytes(h.quantity), WindowBytes(h.window)]
  }

  lemma HoldHeadWrites(h: HoldSpec)
    requires U64(h.id) && U64(h.generation) && U64(h.owner) && U64(h.ownerGeneration) && RangedAmount(h.quantity) && RangedWindow(h.window)
    ensures Writes(HOLD_HEAD, HoldSpecValue(h), Joined(HoldHeadParts(h)))
  {
    hide Eight, Four, Writes, Joined, Maybe, AmountBytes, WindowBytes, TextBytes, OneOrZero, OptionOf, Flag;
    WriteU64(h.id);
    WriteU64(h.generation);
    WriteU64(h.owner);
    WriteU64(h.ownerGeneration);
    WriteByte(h.resourceClass);
    WriteByte(h.unit);
    WriteAmount(h.quantity);
    WriteWindow(h.window);
    RecordWrites(HOLD_HEAD, HoldSpecValue(h).fields, HoldHeadParts(h));
  }

  function HoldParts(h: Hold): seq<seq<Byte>> {
    [Joined(HoldHeadParts(h.spec)), Eight(h.spec.policyGeneration), OneOrZero(h.spec.commitAuthority),
     TextBytes(h.spec.provenance), [h.state], Eight(h.resource), OneOrZero(h.applied), Eight(h.expiry), OneOrZero(h.persisted)]
  }

  lemma HoldWrites(h: Hold)
    requires HoldRanged(h)
    ensures Writes(HOLD, HoldValue(h), Joined(HoldParts(h)))
  {
    hide Eight, Four, Writes, Joined, Maybe, AmountBytes, WindowBytes, TextBytes, OneOrZero, OptionOf, Flag, HoldHeadParts, HOLD_HEAD;
    HoldHeadWrites(h.spec);
    WriteU64(h.spec.policyGeneration);
    WriteFlag(h.spec.commitAuthority);
    WriteText(h.spec.provenance);
    WriteByte(h.state);
    WriteU64(h.resource);
    WriteFlag(h.applied);
    WriteI64(h.expiry);
    WriteFlag(h.persisted);
    RecordWrites(HOLD, HoldValue(h).fields, HoldParts(h));
  }

  // ---- sets ----

  function IdsBytes(ns: seq<nat>): seq<Byte> {
    Four(|ns|) + Joined(seq(|ns|, i requires 0 <= i < |ns| => Eight(ns[i])))
  }

  lemma IdsWrite(bound: nat, ns: seq<nat>)
    requires |ns| < U32_LIMIT && forall n :: n in ns ==> U64(n)
    ensures Writes(KList(bound, KU64), VList(Numbers(ns)), IdsBytes(ns))
  {
    hide Eight, Four, Writes, Joined;
    var parts := seq(|ns|, i requires 0 <= i < |ns| => Eight(ns[i]));
    forall j | 0 <= j < |ns| ensures Writes(KU64, Numbers(ns)[j], parts[j]) {
      assert ns[j] in ns;
      WriteU64(ns[j]);
    }
    ListWrites(bound, KU64, Numbers(ns), parts);
  }

  function SetParts(s: ReservationSet): seq<seq<Byte>> {
    [Eight(s.id), Eight(s.generation), Eight(s.groupId), Eight(s.owner), Eight(s.ownerGeneration), OneOrZero(s.allOrNothing),
     [s.tx], OneOrZero(s.committed), OneOrZero(s.rolledBack), OneOrZero(s.persisted), IdsBytes(s.members)]
  }

  lemma SetWrites(s: ReservationSet)
    requires SetRanged(s)
    ensures Writes(SET, SetValue(s), Joined(SetParts(s)))
  {
    hide Eight, Four, Writes, Joined, Maybe, AmountBytes, WindowBytes, TextBytes, OneOrZero, OptionOf, Flag, IdsBytes, Numbers;
    WriteU64(s.id);
    WriteU64(s.generation);
    WriteU64(s.groupId);
    WriteU64(s.owner);
    WriteU64(s.ownerGeneration);
    WriteFlag(s.allOrNothing);
    WriteByte(s.tx);
    WriteFlag(s.committed);
    WriteFlag(s.rolledBack);
    WriteFlag(s.persisted);
    IdsWrite(MAX_COLLECTION, s.members);
    RecordWrites(SET, SetValue(s).fields, SetParts(s));
  }

  // ---- resources ----

  function ResourceHeadParts(r: Resource): seq<seq<Byte>> {
    [Eight(r.id), Eight(r.generation), [r.resourceClass], [r.unit], AmountBytes(r.totalCapacity), Eight(r.pool),
     Eight(r.poolGeneration), Eight(r.owner)]
  }

  lemma ResourceHeadWrites(r: Resource)
    requires U64(r.id) && U64(r.generation) && RangedAmount(r.totalCapacity) && U64(r.pool) && U64(r.poolGeneration) && U64(r.owner)
    ensures Writes(RESOURCE_HEAD, ResourceHead(r), Joined(ResourceHeadParts(r)))
  {
    hide Eight, Four, Writes, Joined, Maybe, AmountBytes, WindowBytes, TextBytes, OneOrZero, OptionOf, Flag;
    WriteU64(r.id);
    WriteU64(r.generation);
    WriteByte(r.resourceClass);
    WriteByte(r.unit);
    WriteAmount(r.totalCapacity);
    WriteU64(r.pool);
    WriteU64(r.poolGeneration);
    WriteU64(r.owner);
    RecordWrites(RESOURCE_HEAD, ResourceHead(r).fields, ResourceHeadParts(r));
  }

  function ResourceParts(x: StoredResource): seq<seq<Byte>> {
    [Joined(ResourceHeadParts(x.resource)), Eight(x.resource.ownerBoot), Eight(x.resource.capabilities),
     Eight(x.resource.topology), Eight(x.resource.contract), Eight(x.resource.contractGeneration),
     OneOrZero(x.resource.available), Eight(x.origin), Eight(x.horizon), Eight(x.ratio)]
  }

  lemma ResourceWrites(x: StoredResource)
    requires ResourceRanged(x)
    ensures Writes(RESOURCE, ResourceValue(x), Joined(ResourceParts(x)))
  {
    hide Eight, Four, Writes, Joined, Maybe, AmountBytes, WindowBytes, TextBytes, OneOrZero, OptionOf, Flag, ResourceHeadParts, RESOURCE_HEAD, ResourceHead;
    ResourceHeadWrites(x.resource);
    WriteU64(x.resource.ownerBoot);
    WriteU64(x.resource.capabilities);
    WriteU64(x.resource.topology);
    WriteU64(x.resource.contract);
    WriteU64(x.resource.contractGeneration);
    WriteFlag(x.resource.available);
    WriteI64(x.origin);
    WriteI64(x.horizon);
    WriteI64(x.ratio);
    RecordWrites(RESOURCE, ResourceValue(x).fields, ResourceParts(x));
  }

  // ---- requests ----

  predicate RequestRanged(r: Request) {
    && U64(r.id) && U64(r.generation) && RangedAmount(r.quantity) && (r.minAcceptable.Some? ==> RangedAmount(r.minAcceptable.value))
    && RangedWindow(r.window) && OptI64(r.durationAfterActivation) && U64(r.owner) && U64(r.ownerGeneration) && OptU64(r.minResourceGeneration)
    && U64(r.policyGeneration) && U64(r.poolConstraint) && OptU64(r.group) && OptU64(r.targetResource) && TermsRanged(r.terms)
  }

  function MaybeAmount(o: Option<Quantity>): seq<Byte> {
    if o.Some? then [1] + AmountBytes(o.value) else [0]
  }

  lemma WriteMaybeAmount(o: Option<Quantity>)
    requires o.Some? ==> RangedAmount(o.value)
    ensures Writes(KOption(false, KQuantity), OptAmount(o), MaybeAmount(o))
  {
    hide Writes, AmountBytes;
    WriteNone(false, KQuantity);
    if o.Some? {
      WriteAmount(o.value);
      WriteSome(false, KQuantity, VQuantity(o.value), AmountBytes(o.value));
    }
  }

  function AskParts(r: Request): seq<seq<Byte>> {
    [Eight(r.id), Eight(r.generation), [r.resourceClass], [r.unit], AmountBytes(r.quantity), OneOrZero(r.partialAllowed),
     MaybeAmount(r.minAcceptable), WindowBytes(r.window), [r.terms.activationMode], Maybe(r.durationAfterActivation)]
  }

  lemma AskWrites(r: Request)
    requires RequestRanged(r)
    ensures Writes(ASK, AskValue(r), Joined(AskParts(r)))
  {
    hide Eight, Four, Writes, Joined, Maybe, AmountBytes, WindowBytes, TextBytes, OneOrZero, OptionOf, Flag, MaybeAmount, OptAmount;
    WriteU64(r.id);
    WriteU64(r.generation);
    WriteByte(r.resourceClass);
    WriteByte(r.unit);
    WriteAmount(r.quantity);
    WriteFlag(r.partialAllowed);
    WriteMaybeAmount(r.minAcceptable);
    WriteWindow(r.window);
    WriteByte(r.terms.activationMode);
    WriteMaybeInstant(false, r.durationAfterActivation);
    RecordWrites(ASK, AskValue(r).fields, AskParts(r));
  }

  function AimParts(r: Request): seq<seq<Byte>> {
    [Eight(r.poolConstraint), Maybe(r.group), Maybe(r.targetResource), TextBytes(r.terms.provenance)]
  }

  lemma AimWrites(r: Request)
    requires RequestRanged(r)
    ensures Writes(REQUEST.fields[9], AimValue(r), Joined(AimParts(r)))
  {
    hide Eight, Four, Writes, Joined, Maybe, AmountBytes, WindowBytes, TextBytes, OneOrZero, OptionOf, Flag;
    WriteU64(r.poolConstraint);
    WriteMaybe(false, r.group);
    WriteMaybe(false, r.targetResource);
    WriteText(r.terms.provenance);
    RecordWrites(REQUEST.fields[9], AimValue(r).fields, AimParts(r));
  }

  function RequestParts(r: Request): seq<seq<Byte>> {
    [Joined(AskParts(r)), [r.strength], Eight(r.owner), Eight(r.ownerGeneration), Joined(PartiesParts(r.terms)),
     Joined(PlacementParts(r.terms)), Maybe(r.minResourceGeneration), Eight(r.policyGeneration),
     Joined(PolicyParts(r.terms, r.transfer)), Joined(AimParts(r))]
  }

  lemma RequestWrites(r: Request)
    requires RequestRanged(r)
    ensures Writes(REQUEST, RequestValue(r), Joined(RequestParts(r)))
  {
    hide Eight, Four, Writes, Joined, Maybe, AmountBytes, WindowBytes, TextBytes, OneOrZero, OptionOf, Flag, AskParts, AimParts, PartiesParts, PlacementParts, PolicyParts, ASK, PLACEMENT, POLICY, Parties, AskValue, AimValue, PartiesValue, PlacementValue, PolicyValue;
    AskWrites(r);
    WriteByte(r.strength);
    WriteU64(r.owner);
    WriteU64(r.ownerGeneration);
    PartiesWrites(false, r.terms);
    PlacementWrites(r.terms);
    WriteMaybe(false, r.minResourceGeneration);
    WriteU64(r.policyGeneration);
    PolicyWrites(r.terms, r.transfer);
    AimWrites(r);
    RecordWrites(REQUEST, RequestValue(r).fields, RequestParts(r));
  }

  // ---- publications ----

  predicate PublicationRanged(p: Publication) {
    && U64(p.worker) && U64(p.workerBoot) && U64(p.id) && U64(p.generation) && RangedAmount(p.totalCapacity) && U64(p.pool) && U64(p.poolGeneration)
    && U64(p.capabilities) && U64(p.topology) && U64(p.contract) && U64(p.contractGeneration)
    && IsI64(p.availableFrom) && IsI64(p.lifetime) && IsI64(p.ratio)
    && |p.unavailable| < U32_LIMIT && forall u :: u in p.unavailable ==> RangedWindow(u.interval) && RangedText(u.reason)
  }

  function OutageParts(u: UnavailableWindow): seq<seq<Byte>> {
    [WindowBytes(u.interval), TextBytes(u.reason)]
  }

  lemma OutageWrites(u: UnavailableWindow)
    requires RangedWindow(u.interval) && RangedText(u.reason)
    ensures Writes(OUTAGE, OutageValue(u), Joined(OutageParts(u)))
  {
    hide Writes, Joined, WindowBytes, TextBytes;
    WriteWindow(u.interval);
    WriteText(u.reason);
    RecordWrites(OUTAGE, OutageValue(u).fields, OutageParts(u));
  }

  function OutagesBytes(us: seq<UnavailableWindow>): seq<Byte> {
    Four(|us|) + Joined(seq(|us|, i requires 0 <= i < |us| => Joined(OutageParts(us[i]))))
  }

  lemma OutagesWrite(us: seq<UnavailableWindow>)
    requires |us| < U32_LIMIT && forall u :: u in us ==> RangedWindow(u.interval) && RangedText(u.reason)
    ensures Writes(KList(MAX_COUNT, OUTAGE), VList(Outages(us)), OutagesBytes(us))
  {
    hide Four, Writes, Joined, OutageParts, OutageValue, OUTAGE;
    var parts := seq(|us|, i requires 0 <= i < |us| => Joined(OutageParts(us[i])));
    forall j | 0 <= j < |us| ensures Writes(OUTAGE, Outages(us)[j], parts[j]) {
      assert us[j] in us;
      OutageWrites(us[j]);
    }
    ListWrites(MAX_COUNT, OUTAGE, Outages(us), parts);
  }

  function PublicationHeadParts(p: Publication): seq<seq<Byte>> {
    [Eight(p.worker), Eight(p.workerBoot), Eight(p.id), Eight(p.generation), [p.resourceClass], [p.unit],
     AmountBytes(p.totalCapacity)]
  }

  lemma PublicationHeadWrites(p: Publication)
    requires PublicationRanged(p)
    ensures Writes(PUBLICATION.fields[0], PublicationHead(p), Joined(PublicationHeadParts(p)))
  {
    hide Eight, Four, Writes, Joined, Maybe, AmountBytes, WindowBytes, TextBytes, OneOrZero, OptionOf, Flag;
    WriteU64(p.worker);
    WriteU64(p.workerBoot);
    WriteU64(p.id);
    WriteU64(p.generation);
    WriteByte(p.resourceClass);
    WriteByte(p.unit);
    WriteAmount(p.totalCapacity);
    RecordWrites(PUBLICATION.fields[0], PublicationHead(p).fields, PublicationHeadParts(p));
  }

  function PublicationParts(p: Publication): seq<seq<Byte>> {
    [Joined(PublicationHeadParts(p)), Eight(p.pool), Eight(p.poolGeneration), Eight(p.capabilities), Eight(p.topology),
     Eight(p.contract), Eight(p.contractGeneration), Eight(p.availableFrom), Eight(p.lifetime), Eight(p.ratio),
     OutagesBytes(p.unavailable)]
  }

  lemma PublicationWrites(p: Publication)
    requires PublicationRanged(p)
    ensures Writes(PUBLICATION, PublicationValue(p), Joined(PublicationParts(p)))
  {
    hide Eight, Four, Writes, Joined, Maybe, AmountBytes, WindowBytes, TextBytes, OneOrZero, OptionOf, Flag, PublicationHeadParts, PublicationHead, OutagesBytes, Outages, OUTAGE;
    PublicationHeadWrites(p);
    WriteU64(p.pool);
    WriteU64(p.poolGeneration);
    WriteU64(p.capabilities);
    WriteU64(p.topology);
    WriteU64(p.contract);
    WriteU64(p.contractGeneration);
    WriteI64(p.availableFrom);
    WriteI64(p.lifetime);
    WriteI64(p.ratio);
    OutagesWrite(p.unavailable);
    RecordWrites(PUBLICATION, PublicationValue(p).fields, PublicationParts(p));
  }

  // ---- reports ----

  predicate ReportRanged(r: FeasibilityReport) {
    && RangedAmount(r.requested) && RangedAmount(r.admissible) && RangedAmount(r.available)
    && (r.requestedInterval.Some? ==> RangedWindow(r.requestedInterval.value)) && (r.conflictingInterval.Some? ==> RangedWindow(r.conflictingInterval.value))
    && U64(r.resource) && U64(r.currentResource) && U64(r.staleResource) && U64(r.policy) && U64(r.stalePolicy) && U64(r.epoch) && U64(r.staleEpoch)
    && |r.conflicts| < U32_LIMIT && |r.bottlenecks| < U32_LIMIT && |r.reasons| < U32_LIMIT
    && (forall n :: n in r.conflicts ==> U64(n)) && (forall n :: n in r.bottlenecks ==> U64(n)) && forall t :: t in r.reasons ==> RangedText(t)
  }

  function MaybeWindow(o: Option<Interval>): seq<Byte> {
    if o.Some? then [1] + WindowBytes(o.value) else [0]
  }

  lemma WriteMaybeWindow(o: Option<Interval>)
    requires o.Some? ==> RangedWindow(o.value)
    ensures Writes(KOption(false, KWindow), OptWindow(o), MaybeWindow(o))
  {
    hide Writes, WindowBytes;
    WriteNone(false, KWindow);
    if o.Some? {
      WriteWindow(o.value);
      WriteSome(false, KWindow, VWindow(o.value), WindowBytes(o.value));
    }
  }

  function TextsBytes(ts: seq<seq<Byte>>): seq<Byte> {
    Four(|ts|) + Joined(seq(|ts|, i requires 0 <= i < |ts| => TextBytes(ts[i])))
  }

  lemma TextsWrite(ts: seq<seq<Byte>>)
    requires |ts| < U32_LIMIT && forall t :: t in ts ==> RangedText(t)
    ensures Writes(KList(MAX_COUNT, KText), VList(Texts(ts)), TextsBytes(ts))
  {
    hide Four, Writes, Joined, TextBytes;
    var parts := seq(|ts|, i requires 0 <= i < |ts| => TextBytes(ts[i]));
    forall j | 0 <= j < |ts| ensures Writes(KText, Texts(ts)[j], parts[j]) {
      assert ts[j] in ts;
      WriteText(ts[j]);
    }
    ListWrites(MAX_COUNT, KText, Texts(ts), parts);
  }

  function FindingParts(r: FeasibilityReport): seq<seq<Byte>> {
    [[r.outcome], [r.resourceClass], [r.unit], AmountBytes(r.requested), AmountBytes(r.admissible),
     MaybeWindow(r.requestedInterval)]
  }

  lemma FindingWrites(r: FeasibilityReport)
    requires ReportRanged(r)
    ensures Writes(FINDING, FindingValue(r), Joined(FindingParts(r)))
  {
    hide Eight, Four, Writes, Joined, Maybe, AmountBytes, WindowBytes, TextBytes, OneOrZero, OptionOf, Flag, MaybeWindow, OptWindow;
    WriteByte(r.outcome);
    WriteByte(r.resourceClass);
    WriteByte(r.unit);
    WriteAmount(r.requested);
    WriteAmount(r.admissible);
    WriteMaybeWindow(r.requestedInterval);
    RecordWrites(FINDING, FindingValue(r).fields, FindingParts(r));
  }

  function CurrencyParts(r: FeasibilityReport): seq<seq<Byte>> {
    [Eight(r.resource), Eight(r.currentResource), Eight(r.staleResource), Eight(r.policy), Eight(r.stalePolicy), Eight(r.epoch),
     Eight(r.staleEpoch)]
  }

  lemma CurrencyWrites(r: FeasibilityReport)
    requires ReportRanged(r)
    ensures Writes(CURRENCY, CurrencyValue(r), Joined(CurrencyParts(r)))
  {
    hide Eight, Four, Writes, Joined, Maybe, AmountBytes, WindowBytes, TextBytes, OneOrZero, OptionOf, Flag;
    WriteU64(r.resource);
    WriteU64(r.currentResource);
    WriteU64(r.staleResource);
    WriteU64(r.policy);
    WriteU64(r.stalePolicy);
    WriteU64(r.epoch);
    WriteU64(r.staleEpoch);
    RecordWrites(CURRENCY, CurrencyValue(r).fields, CurrencyParts(r));
  }

  function ObstaclesParts(r: FeasibilityReport): seq<seq<Byte>> {
    [IdsBytes(r.conflicts), IdsBytes(r.bottlenecks), AmountBytes(r.available), MaybeWindow(r.conflictingInterval),
     OneOrZero(r.softOnly), OneOrZero(r.overbook), OneOrZero(r.revalidation), TextsBytes(r.reasons)]
  }

  lemma ObstaclesWrites(r: FeasibilityReport)
    requires ReportRanged(r)
    ensures Writes(OBSTACLES, ObstaclesValue(r), Joined(ObstaclesParts(r)))
  {
    hide Eight, Four, Writes, Joined, Maybe, AmountBytes, WindowBytes, TextBytes, OneOrZero, OptionOf, Flag, MaybeWindow, OptWindow, IdsBytes, Numbers, TextsBytes, Texts;
    IdsWrite(MAX_COUNT, r.conflicts);
    IdsWrite(MAX_COUNT, r.bottlenecks);
    WriteAmount(r.available);
    WriteMaybeWindow(r.conflictingInterval);
    WriteFlag(r.softOnly);
    WriteFlag(r.overbook);
    WriteFlag(r.revalidation);
    TextsWrite(r.reasons);
    RecordWrites(OBSTACLES, ObstaclesValue(r).fields, ObstaclesParts(r));
  }

  function ReportParts(r: FeasibilityReport): seq<seq<Byte>> {
    [Joined(FindingParts(r)), Joined(CurrencyParts(r)), Joined(ObstaclesParts(r))]
  }

  lemma ReportWrites(r: FeasibilityReport)
    requires ReportRanged(r)
    ensures Writes(REPORT, ReportValue(r), Joined(ReportParts(r)))
  {
    hide Eight, Four, Writes, Joined, Maybe, AmountBytes, WindowBytes, TextBytes, OneOrZero, OptionOf, Flag, FindingParts, CurrencyParts, ObstaclesParts, FINDING, CURRENCY, OBSTACLES, FindingValue, CurrencyValue, ObstaclesValue;
    FindingWrites(r);
    CurrencyWrites(r);
    ObstaclesWrites(r);
    RecordWrites(REPORT, ReportValue(r).fields, ReportParts(r));
  }
}
