/** How long encodings get: a registry of modest size always fits the four bytes a file has for its
    length. */
module Lengths {
  import opened Types
  import opened Codec
  import opened Records
  import opened Registry
  import opened Persistence

  // ---- kinds ----

  predicate IsPlain(k: Kind) {
    k.KByte? || k.KBool? || k.KU32? || k.KU64? || k.KI64? || k.KI32? || k.KQuantity? || k.KWindow?
  }

  /** A number, amount or window, or an option of one. */
  predicate IsTiny(k: Kind) {
    IsPlain(k) || (k.KOption? && IsPlain(k.some))
  }

  lemma TinyLength(k: Kind, v: Value)
    requires IsTiny(k) && Writable(k, v)
    ensures |Encode(k, v)| <= 17
  {
    hide LittleEndian, Unsigned64;
    if k.KOption? && v.VSome? { assert |Encode(k.some, v.value)| <= 16; }
  }

  lemma {:induction false} FieldsLength(k: Kind, vs: seq<Value>, i: nat, b: nat)
    requires k.KRecord? && |vs| == |k.fields| && i <= |vs| && FieldsWritable(k, vs, i)
    requires forall j :: i <= j < |vs| ==> Writable(k.fields[j], vs[j]) && |Encode(k.fields[j], vs[j])| <= b
    ensures |EncodeFields(k, vs, i)| <= b * (|vs| - i)
    decreases |vs| - i
  {
    hide Encode, Writable;
    if i < |vs| {
      FieldsLength(k, vs, i + 1, b);
      assert b * (|vs| - i) == b * (|vs| - (i + 1)) + b;
    }
  }

  lemma RecordLength(k: Kind, vs: seq<Value>, b: nat)
    requires k.KRecord? && |vs| == |k.fields|
    requires forall j :: 0 <= j < |vs| ==> Writable(k.fields[j], vs[j]) && |Encode(k.fields[j], vs[j])| <= b
    ensures Writable(k, VRecord(vs)) && |Encode(k, VRecord(vs))| <= b * |vs|
  {
    RecordFits(k, vs);
    FieldsLength(k, vs, 0, b);
  }

  lemma FlatLength(k: Kind, vs: seq<Value>)
    requires k.KRecord? && Writable(k, VRecord(vs)) && forall j :: 0 <= j < |k.fields| ==> IsTiny(k.fields[j])
    ensures |Encode(k, VRecord(vs))| <= 17 * |vs|
  {
    hide IsTiny, Encode;
    RecordFits(k, vs);
    forall j | 0 <= j < |vs| ensures |Encode(k.fields[j], vs[j])| <= 17 {
      TinyLength(k.fields[j], vs[j]);
    }
    RecordLength(k, vs, 17);
  }

  lemma {:induction false} ItemsLength(item: Kind, vs: seq<Value>, b: nat)
    requires ItemsWritable(item, vs)
    requires forall j :: 0 <= j < |vs| ==> Writable(item, vs[j]) && |Encode(item, vs[j])| <= b
    ensures |EncodeItems(item, vs)| <= b * |vs|
    decreases |vs|
  {
    hide Encode, Writable;
    if vs != [] {
      ItemsLength(item, vs[1..], b);
      assert b * |vs| == b * |vs[1..]| + b;
    }
  }

  lemma ListLength(bound: nat, item: Kind, vs: seq<Value>, b: nat)
    requires |vs| < U32_LIMIT
    requires forall j :: 0 <= j < |vs| ==> Writable(item, vs[j]) && |Encode(item, vs[j])| <= b
    ensures Writable(KList(bound, item), VList(vs)) && |Encode(KList(bound, item), VList(vs))| <= 4 + b * |vs|
  {
    hide LittleEndian;
    ListFits(bound, item, vs);
    ItemsLength(item, vs, b);
  }

  // ---- records ----

  const MODEST_TEXT: nat := 400

  lemma PartiesLength(t: Terms)
    requires TermsRanged(t)
    ensures Writable(Parties(true), PartiesValue(t)) && |Encode(Parties(true), PartiesValue(t))| <= 68
  {
    hide Encode;
    PartiesFit(true, t);
    FlatLength(Parties(true), PartiesValue(t).fields);
  }

  lemma PlacementLength(t: Terms)
    requires TermsRanged(t)
    ensures Writable(PLACEMENT, PlacementValue(t)) && |Encode(PLACEMENT, PlacementValue(t))| <= 153
  {
    hide Encode;
    PlacementFits(t);
    FlatLength(PLACEMENT, PlacementValue(t).fields);
  }

  lemma PolicyLength(t: Terms, transfer: Byte)
    requires TermsRanged(t)
    ensures Writable(POLICY, PolicyValue(t, transfer)) && |Encode(POLICY, PolicyValue(t, transfer))| <= 153
  {
    hide Encode;
    PolicyFits(t, transfer);
    FlatLength(POLICY, PolicyValue(t, transfer).fields);
  }

  lemma BindingLength(r: Reservation)
    requires ReservationRanged(r)
    ensures Writable(BINDING, BindingValue(r)) && |Encode(BINDING, BindingValue(r))| <= 153
  {
    hide Encode;
    BindingFits(r);
    FlatLength(BINDING, BindingValue(r).fields);
  }

  lemma ContractLength(r: Reservation)
    requires ReservationRanged(r)
    ensures Writable(CONTRACT, ContractValue(r)) && |Encode(CONTRACT, ContractValue(r))| <= 136
  {
    hide Encode;
    ContractFitsIff(r);
    FlatLength(CONTRACT, ContractValue(r).fields);
  }

  lemma EvidenceLength(r: Reservation)
    requires ReservationRanged(r)
    ensures Writable(EVIDENCE, EvidenceValue(r)) && |Encode(EVIDENCE, EvidenceValue(r))| <= 85
  {
    hide Encode;
    EvidenceFits(r);
    FlatLength(EVIDENCE, EvidenceValue(r).fields);
  }

  lemma MarkersLength(r: Reservation)
    requires ReservationRanged(r)
    ensures Writable(MARKERS, MarkersValue(r)) && |Encode(MARKERS, MarkersValue(r))| <= 425
  {
    hide Encode, EVIDENCE, EvidenceValue;
    EvidenceLength(r);
    var k, vs := MARKERS, MarkersValue(r).fields;
    MarkersFit(r);
    RecordFits(k, vs);
    forall j | 1 <= j < 5 ensures |Encode(k.fields[j], vs[j])| <= 17 {
      TinyLength(k.fields[j], vs[j]);
    }
    RecordLength(k, vs, 85);
  }

  lemma ReservationLength(r: Reservation)
    requires ReservationRanged(r) && |r.terms.provenance| <= MODEST_TEXT
    ensures Writable(RESERVATION, ReservationValue(r)) && |Encode(RESERVATION, ReservationValue(r))| <= 3400
  {
    hide Encode, BINDING, CONTRACT, MARKERS, PLACEMENT, POLICY, Parties, BindingValue, ContractValue, MarkersValue, PartiesValue, PlacementValue, PolicyValue;
    BindingLength(r);
    ContractLength(r);
    PartiesLength(r.terms);
    PlacementLength(r.terms);
    PolicyLength(r.terms, r.transfer);
    MarkersLength(r);
    TextLength(r.terms.provenance);
    TinyLength(KU64, VNum(r.policyGeneration));
    RecordLength(RESERVATION, ReservationValue(r).fields, 425);
  }

  lemma TextLength(t: seq<Byte>)
    requires |t| <= MODEST_TEXT
    ensures Writable(KText, VText(t)) && |Encode(KText, VText(t))| <= 404
  {
    hide LittleEndian;
  }

  lemma HoldLength(h: Hold)
    requires HoldRanged(h) && |h.spec.provenance| <= MODEST_TEXT
    ensures Writable(HOLD, HoldValue(h)) && |Encode(HOLD, HoldValue(h))| <= 3636
  {
    hide Encode, HOLD_HEAD, HoldSpecValue;
    HoldFitsIff(h);
    var k, vs := HOLD, HoldValue(h).fields;
    RecordFits(k, vs);
    HoldHeadLength(h);
    TextLength(h.spec.provenance);
    forall j | 0 <= j < 9 && j != 0 && j != 3 ensures |Encode(k.fields[j], vs[j])| <= 17 {
      TinyLength(k.fields[j], vs[j]);
    }
    RecordLength(k, vs, 404);
  }

  lemma HoldHeadLength(h: Hold)
    requires HoldRanged(h)
    ensures Writable(HOLD_HEAD, HoldSpecValue(h.spec)) && |Encode(HOLD_HEAD, HoldSpecValue(h.spec))| <= 136
  {
    hide Encode;
    HoldHeadFitsIff(h);
    FlatLength(HOLD_HEAD, HoldSpecValue(h.spec).fields);
  }

  // ---- registries ----

  const MODEST: nat := 200

  lemma NumbersLength(ns: seq<nat>)
    requires |ns| <= MODEST && forall n :: n in ns ==> U64(n)
    ensures Writable(KList(MAX_COLLECTION, KU64), VList(Numbers(ns))) && |Encode(KList(MAX_COLLECTION, KU64), VList(Numbers(ns)))| <= 4000
  {
    hide Encode;
    NumbersFit(MAX_COLLECTION, ns);
    var vs := Numbers(ns);
    ListFits(MAX_COLLECTION, KU64, vs);
    forall j | 0 <= j < |vs| ensures Writable(KU64, vs[j]) && |Encode(KU64, vs[j])| <= 17 {
      TinyLength(KU64, vs[j]);
    }
    ListLength(MAX_COLLECTION, KU64, vs, 17);
  }

  lemma SetLength(x: ReservationSet)
    requires SetRanged(x) && |x.members| <= MODEST
    ensures Writable(SET, SetValue(x)) && |Encode(SET, SetValue(x))| <= 44000
  {
    hide Encode, Numbers;
    SetFitsIff(x);
    var k, vs := SET, SetValue(x).fields;
    RecordFits(k, vs);
    NumbersLength(x.members);
    forall j | 0 <= j < 10 ensures |Encode(k.fields[j], vs[j])| <= 17 {
      TinyLength(k.fields[j], vs[j]);
    }
    RecordLength(k, vs, 4000);
  }

  lemma ResourceLength(x: StoredResource)
    requires ResourceRanged(x)
    ensures Writable(RESOURCE, ResourceValue(x)) && |Encode(RESOURCE, ResourceValue(x))| <= 1360
  {
    hide Encode, RESOURCE_HEAD, ResourceHead;
    ResourceFitsIff(x);
    var k, vs := RESOURCE, ResourceValue(x).fields;
    RecordFits(k, vs);
    ResourceHeadLength(x);
    forall j | 1 <= j < 10 ensures |Encode(k.fields[j], vs[j])| <= 17 {
      TinyLength(k.fields[j], vs[j]);
    }
    RecordLength(k, vs, 136);
  }

  lemma ResourceHeadLength(x: StoredResource)
    requires ResourceRanged(x)
    ensures Writable(RESOURCE_HEAD, ResourceHead(x.resource)) && |Encode(RESOURCE_HEAD, ResourceHead(x.resource))| <= 136
  {
    hide Encode;
    ResourceHeadFitsIff(x);
    FlatLength(RESOURCE_HEAD, ResourceHead(x.resource).fields);
  }

  lemma PairLength(k: nat, v: nat)
    requires U64(k) && U64(v)
    ensures Writable(PAIR, PairValue(k, v)) && |Encode(PAIR, PairValue(k, v))| <= 34
  {
    hide Encode;
    PairFits(k, v);
    FlatLength(PAIR, PairValue(k, v).fields);
  }

  ghost predicate ModestPast(h: seq<Reservation>) {
    |h| <= MODEST && forall r :: r in h ==> ReservationRanged(r) && |r.terms.provenance| <= MODEST_TEXT
  }

  lemma PastLength(id: nat, h: seq<Reservation>)
    requires U64(id) && ModestPast(h)
    ensures Writable(PAST, PastValue(id, h)) && |Encode(PAST, PastValue(id, h))| <= 1360008
  {
    hide Encode, RESERVATION, ReservationValue, ReservationRanged, LittleEndian;
    var vs := Reservations(h);
    forall j | 0 <= j < |vs| ensures Writable(RESERVATION, vs[j]) && |Encode(RESERVATION, vs[j])| <= 3400 {
      assert h[j] in h;
      ReservationLength(h[j]);
    }
    ListLength(MAX_COLLECTION, RESERVATION, vs, 3400);
    TinyLength(KU64, VNum(id));
    RecordLength(PAST, PastValue(id, h).fields, 680004);
  }

  lemma EntriesLength<T>(order: seq<nat>, m: map<nat, T>, write: (nat, T) -> Value, item: Kind)
    requires (forall k :: k in order ==> k in m) && |order| <= MODEST
    requires forall k :: k in m ==> Writable(item, write(k, m[k])) && |Encode(item, write(k, m[k]))| <= 1360008
    ensures Writable(KList(MAX_COLLECTION, item), VList(Entries(order, m, write)))
    ensures |Encode(KList(MAX_COLLECTION, item), VList(Entries(order, m, write)))| <= 272001604
  {
    hide Encode, Writable;
    var vs := Entries(order, m, write);
    forall j | 0 <= j < |vs| ensures Writable(item, vs[j]) && |Encode(item, vs[j])| <= 1360008 {
      assert order[j] in order;
    }
    ListLength(MAX_COLLECTION, item, vs, 1360008);
  }

  /** At most two hundred entries a map, generations a history and members a set, and provenance
      of at most four hundred bytes. */
  ghost predicate IsModest(s: State, w: Walk) {
    && |w.resources| <= MODEST && |w.boots| <= MODEST && |w.requests| <= MODEST && |w.reservations| <= MODEST
    && |w.generations| <= MODEST && |w.history| <= MODEST && |w.holds| <= MODEST && |w.sets| <= MODEST
    && (forall k :: k in s.reservations ==> |s.reservations[k].terms.provenance| <= MODEST_TEXT)
    && (forall k :: k in s.history ==> ModestPast(s.history[k]))
    && (forall k :: k in s.holds ==> |s.holds[k].spec.provenance| <= MODEST_TEXT)
    && (forall k :: k in s.sets ==> |s.sets[k].members| <= MODEST)
  }

  lemma RecordListsLength(s: State, w: Walk)
    requires Ranged(s) && Walks(s, w) && IsModest(s, w)
    ensures var f, v := PAYLOAD.fields, SavedValue(s, w).fields;
            && Writable(f[1], v[1]) && |Encode(f[1], v[1])| <= 272001604 && Writable(f[4], v[4]) && |Encode(f[4], v[4])| <= 272001604
            && Writable(f[7], v[7]) && |Encode(f[7], v[7])| <= 272001604 && Writable(f[8], v[8]) && |Encode(f[8], v[8])| <= 272001604
  {
    hide Encode, Writable, RESOURCE, PAIR, RESERVATION, PAST, HOLD, SET, CountersValue, Entries, ResourceRanged, ReservationRanged, HoldRanged, SetRanged,
         ResourceValue, ReservationValue, HoldValue, SetValue, U64, ModestPast;
    forall k | k in s.resources ensures Writable(RESOURCE, WriteResource(k, Stored(s)[k])) && |Encode(RESOURCE, WriteResource(k, Stored(s)[k]))| <= 1360008 {
      ResourceLength(Stored(s)[k]);
    }
    EntriesLength(w.resources, Stored(s), WriteResource, RESOURCE);
    forall k | k in s.reservations
      ensures Writable(RESERVATION, WriteReservation(k, s.reservations[k])) && |Encode(RESERVATION, WriteReservation(k, s.reservations[k]))| <= 1360008
    {
      ReservationLength(s.reservations[k]);
    }
    EntriesLength(w.reservations, s.reservations, WriteReservation, RESERVATION);
    forall k | k in s.holds ensures Writable(HOLD, WriteHold(k, s.holds[k])) && |Encode(HOLD, WriteHold(k, s.holds[k]))| <= 1360008 {
      HoldLength(s.holds[k]);
    }
    EntriesLength(w.holds, s.holds, WriteHold, HOLD);
    forall k | k in s.sets ensures Writable(SET, WriteSet(k, s.sets[k])) && |Encode(SET, WriteSet(k, s.sets[k]))| <= 1360008 {
      SetLength(s.sets[k]);
    }
    EntriesLength(w.sets, s.sets, WriteSet, SET);
  }

  lemma PairsLength(order: seq<nat>, m: map<nat, nat>)
    requires (forall k :: k in order ==> k in m) && |order| <= MODEST && forall k :: k in m ==> U64(k) && U64(m[k])
    ensures Writable(KList(MAX_COLLECTION, PAIR), VList(Entries(order, m, PairValue)))
    ensures |Encode(KList(MAX_COLLECTION, PAIR), VList(Entries(order, m, PairValue)))| <= 272001604
  {
    hide Encode, Writable, PAIR, PairValue;
    forall k | k in m ensures Writable(PAIR, PairValue(k, m[k])) && |Encode(PAIR, PairValue(k, m[k]))| <= 1360008 {
      PairLength(k, m[k]);
    }
    EntriesLength(order, m, PairValue, PAIR);
  }

  lemma PairListsLength(s: State, w: Walk)
    requires Ranged(s) && Walks(s, w) && IsModest(s, w)
    ensures var f, v := PAYLOAD.fields, SavedValue(s, w).fields;
            && Writable(f[2], v[2]) && |Encode(f[2], v[2])| <= 272001604 && Writable(f[3], v[3]) && |Encode(f[3], v[3])| <= 272001604
            && Writable(f[5], v[5]) && |Encode(f[5], v[5])| <= 272001604 && Writable(f[6], v[6]) && |Encode(f[6], v[6])| <= 272001604
  {
    hide Encode, Writable, RESOURCE, PAIR, RESERVATION, PAST, HOLD, SET, CountersValue, Entries, ResourceRanged, ReservationRanged, HoldRanged, SetRanged,
         ResourceValue, ReservationValue, HoldValue, SetValue, PastValue, U64, ModestPast;
    PairsLength(w.boots, s.workerBoots);
    PairsLength(w.requests, s.requests);
    PairsLength(w.generations, s.currentGen);
    forall k | k in s.history ensures Writable(PAST, PastValue(k, s.history[k])) && |Encode(PAST, PastValue(k, s.history[k]))| <= 1360008 {
      PastLength(k, s.history[k]);
    }
    EntriesLength(w.history, s.history, PastValue, PAST);
  }

  lemma CountersLength(s: State)
    requires U64(s.epoch) && U64(s.authority) && U64(s.nextReservationId) && U64(s.nextHoldId) && U64(s.nextSetId)
    ensures Writable(PAYLOAD.fields[0], CountersValue(s)) && |Encode(PAYLOAD.fields[0], CountersValue(s))| <= 85
  {
    hide Encode;
    CountersFit(s);
    FlatLength(PAYLOAD.fields[0], CountersValue(s).fields);
  }

  lemma NineLengths(k: Kind, vs: seq<Value>, b: nat)
    requires k.KRecord? && |k.fields| == |vs| == 9
    requires var f := k.fields;
             && Writable(f[0], vs[0]) && Writable(f[1], vs[1]) && Writable(f[2], vs[2]) && Writable(f[3], vs[3]) && Writable(f[4], vs[4])
             && Writable(f[5], vs[5]) && Writable(f[6], vs[6]) && Writable(f[7], vs[7]) && Writable(f[8], vs[8])
             && |Encode(f[0], vs[0])| <= b && |Encode(f[1], vs[1])| <= b && |Encode(f[2], vs[2])| <= b && |Encode(f[3], vs[3])| <= b
             && |Encode(f[4], vs[4])| <= b && |Encode(f[5], vs[5])| <= b && |Encode(f[6], vs[6])| <= b && |Encode(f[7], vs[7])| <= b
             && |Encode(f[8], vs[8])| <= b
    ensures Writable(k, VRecord(vs)) && |Encode(k, VRecord(vs))| <= b * 9
  {
    hide Encode, Writable;
    RecordLength(k, vs, b);
  }

  /** The file of a modest registry is always of an acceptable length. */
  lemma ModestIsSized(s: State, w: Walk)
    requires Ranged(s) && Walks(s, w) && IsModest(s, w)
    ensures Countable(w) && Sized(Save(s, w))
  {
    hide Encode, Writable, Fits, PAYLOAD, CountersValue, Entries, Ranged, Walks, FileOf;
    KeysStorable(s);
    RangedCounters(s);
    CountersLength(s);
    RecordListsLength(s, w);
    PairListsLength(s, w);
    PayloadFields();
    SavedFitsIff(s, w);
    SavedHead(s, w);
    NineLengths(PAYLOAD, SavedValue(s, w).fields, 272001604);
    FileLength(Encode(PAYLOAD, SavedValue(s, w)));
  }

  lemma SavedHead(s: State, w: Walk)
    requires s.resources.Keys == s.envelopes.Keys && Walks(s, w)
    ensures SavedValue(s, w).VRecord? && |SavedValue(s, w).fields| == 9 && SavedValue(s, w).fields[0] == CountersValue(s)
  {
    hide Entries;
  }
}
