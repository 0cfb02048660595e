/** Saving the registry to bytes and loading it back. Maps are written in any enumeration order;
    after a load every contribution is applied afresh to empty envelopes. */
module Persistence {
  import opened Types
  import opened Levels
  import opened Envelopes
  import opened Codec
  import opened Records
  import opened Registry
  import opened Fencing
  import opened Mirrors
  import opened ByteStreams
  import Crc
  import Framing

  const FILE_MAGIC: nat := 0x5246_4142
  const FILE_VERSION: Byte := 1
  const FILE_HEADER: nat := 13

  const DEFAULT_CONFIG: Config := Config(64, 256, DEFAULT_HORIZON)

  // ---- maps as lists of entries ----

  /** The order visits every key exactly once. */
  ghost predicate Visits(order: seq<nat>, keys: set<nat>) {
    && (forall k :: k in keys <==> k in order)
    && forall i, j :: 0 <= i < j < |order| ==> order[i] != order[j]
  }

  function Entries<T>(order: seq<nat>, m: map<nat, T>, write: (nat, T) -> Value): seq<Value>
    requires forall k :: k in order ==> k in m
  {
    seq(|order|, i requires 0 <= i < |order| => write(order[i], m[order[i]]))
  }

  function FromEntries<T>(vs: seq<Value>, key: Value -> nat, read: Value -> T): map<nat, T> {
    if vs == [] then map[]
    else
      var m := FromEntries(vs[..|vs| - 1], key, read);
      m[key(vs[|vs| - 1]) := read(vs[|vs| - 1])]
  }

  lemma {:induction false} EntriesRead<T>(order: seq<nat>, m: map<nat, T>, write: (nat, T) -> Value, key: Value -> nat, read: Value -> T)
    requires forall k :: k in order ==> k in m
    requires forall k :: k in m ==> key(write(k, m[k])) == k && read(write(k, m[k])) == m[k]
    ensures FromEntries(Entries(order, m, write), key, read) == map k | k in m && k in order :: m[k]
    decreases |order|
  {
    var vs := Entries(order, m, write);
    if order != [] {
      var before, last := order[..|order| - 1], order[|order| - 1];
      EntriesRead(before, m, write, key, read);
      assert vs[..|vs| - 1] == Entries(before, m, write);
      assert order == before + [last];
      var part := map k | k in m && k in before :: m[k];
      assert part[last := m[last]] == map k | k in m && k in order :: m[k];
    }
  }

  /** Whatever the order, the map that is read is the map that was written. */
  lemma EntriesRoundTrip<T>(order: seq<nat>, m: map<nat, T>, write: (nat, T) -> Value, key: Value -> nat, read: Value -> T)
    requires Visits(order, m.Keys)
    requires forall k :: k in m ==> key(write(k, m[k])) == k && read(write(k, m[k])) == m[k]
    ensures forall k :: k in order ==> k in m
    ensures FromEntries(Entries(order, m, write), key, read) == m
  {
    EntriesRead(order, m, write, key, read);
    assert (map k | k in m && k in order :: m[k]) == m;
  }

  // ---- layout ----

  const PAIR: Kind := KRecord([KU64, KU64])
  const PAST: Kind := KRecord([KU64, KList(MAX_COLLECTION, RESERVATION)])
  const PAYLOAD: Kind := KRecord([KRecord([KU64, KU64, KU64, KU64, KU64]),
                                  KList(MAX_COLLECTION, RESOURCE), KList(MAX_COLLECTION, PAIR), KList(MAX_COLLECTION, PAIR),
                                  KList(MAX_COLLECTION, RESERVATION), KList(MAX_COLLECTION, PAIR), KList(MAX_COLLECTION, PAST),
                                  KList(MAX_COLLECTION, HOLD), KList(MAX_COLLECTION, SET)])

  function PairValue(k: nat, v: nat): Value {
    VRecord([VNum(k), VNum(v)])
  }

  function PairKey(v: Value): nat {
    Nat(Sub(v, 0))
  }

  function PairNat(v: Value): nat {
    Nat(Sub(v, 1))
  }

  function WriteResource(k: nat, x: StoredResource): Value {
    ResourceValue(x)
  }

  function WriteReservation(k: nat, r: Reservation): Value {
    ReservationValue(r)
  }

  function WriteHold(k: nat, h: Hold): Value {
    HoldValue(h)
  }

  function WriteSet(k: nat, x: ReservationSet): Value {
    SetValue(x)
  }

  function ResourceKey(v: Value): nat {
    ResourceFrom(v).resource.id
  }

  function ReservationKey(v: Value): nat {
    ReservationFrom(v).id
  }

  function HoldKey(v: Value): nat {
    HoldFrom(v).spec.id
  }

  function SetKey(v: Value): nat {
    SetFrom(v).id
  }

  function Reservations(rs: seq<Reservation>): seq<Value> {
    seq(|rs|, i requires 0 <= i < |rs| => ReservationValue(rs[i]))
  }

  function ReservationsFrom(vs: seq<Value>): seq<Reservation> {
    seq(|vs|, i requires 0 <= i < |vs| => ReservationFrom(vs[i]))
  }

  function PastValue(id: nat, h: seq<Reservation>): Value {
    VRecord([VNum(id), VList(Reservations(h))])
  }

  function PastFrom(v: Value): seq<Reservation> {
    ReservationsFrom(Items(Sub(v, 1)))
  }

  /** Records are appended to the history of their identity, so an empty history leaves none. */
  function HistoriesFrom(vs: seq<Value>): map<nat, seq<Reservation>> {
    if vs == [] then map[]
    else
      var m := HistoriesFrom(vs[..|vs| - 1]);
      var id, past := PairKey(vs[|vs| - 1]), PastFrom(vs[|vs| - 1]);
      if past == [] then m else m[id := (if id in m then m[id] else []) + past]
  }

  function NonEmpty(m: map<nat, seq<Reservation>>): map<nat, seq<Reservation>> {
    map k | k in m && m[k] != [] :: m[k]
  }

  lemma ReservationsRead(rs: seq<Reservation>)
    ensures ReservationsFrom(Reservations(rs)) == rs
  {
    hide ReservationValue, ReservationFrom;
    forall i | 0 <= i < |rs| ensures ReservationFrom(ReservationValue(rs[i])) == rs[i] {
      ReservationReads(rs[i]);
    }
  }

  lemma PastReads(id: nat, h: seq<Reservation>)
    ensures PairKey(PastValue(id, h)) == id && PastFrom(PastValue(id, h)) == h
  {
    hide Reservations, ReservationsFrom;
    ReservationsRead(h);
  }

  lemma {:induction false} HistoriesRead(order: seq<nat>, m: map<nat, seq<Reservation>>)
    requires forall k :: k in order ==> k in m
    requires forall i, j :: 0 <= i < j < |order| ==> order[i] != order[j]
    ensures HistoriesFrom(Entries(order, m, PastValue)) == map k | k in m && k in order && m[k] != [] :: m[k]
    decreases |order|
  {
    hide PastValue, PastFrom, PairKey;
    var vs := Entries(order, m, PastValue);
    if order != [] {
      var before, last := order[..|order| - 1], order[|order| - 1];
      HistoriesRead(before, m);
      PastReads(last, m[last]);
      assert vs[..|vs| - 1] == Entries(before, m, PastValue);
      assert order == before + [last];
      assert last !in before;
      assert [] + m[last] == m[last];
    }
  }

  // ---- saving ----

  /** One enumeration order per map. */
  datatype Walk = Walk(resources: seq<nat>, boots: seq<nat>, requests: seq<nat>, reservations: seq<nat>,
                       generations: seq<nat>, history: seq<nat>, holds: seq<nat>, sets: seq<nat>)

  ghost predicate Walks(s: State, w: Walk) {
    && Visits(w.resources, s.resources.Keys) && Visits(w.boots, s.workerBoots.Keys) && Visits(w.requests, s.requests.Keys)
    && Visits(w.reservations, s.reservations.Keys) && Visits(w.generations, s.currentGen.Keys) && Visits(w.history, s.history.Keys)
    && Visits(w.holds, s.holds.Keys) && Visits(w.sets, s.sets.Keys)
  }

  function Stored(s: State): map<nat, StoredResource>
    requires s.resources.Keys == s.envelopes.Keys
  {
    map k | k in s.resources :: StoredResource(s.resources[k], s.envelopes[k].origin, s.envelopes[k].horizon, s.envelopes[k].ratio)
  }

  function CountersValue(s: State): Value {
    VRecord([VNum(s.epoch), VNum(s.authority), VNum(s.nextReservationId), VNum(s.nextHoldId), VNum(s.nextSetId)])
  }

  function SavedValue(s: State, w: Walk): Value
    requires s.resources.Keys == s.envelopes.Keys && Walks(s, w)
  {
    VRecord([CountersValue(s),
             VList(Entries(w.resources, Stored(s), WriteResource)),
             VList(Entries(w.boots, s.workerBoots, PairValue)),
             VList(Entries(w.requests, s.requests, PairValue)),
             VList(Entries(w.reservations, s.reservations, WriteReservation)),
             VList(Entries(w.generations, s.currentGen, PairValue)),
             VList(Entries(w.history, s.history, PastValue)),
             VList(Entries(w.holds, s.holds, WriteHold)),
             VList(Entries(w.sets, s.sets, WriteSet))])
  }

  /** Machine ranges of everything that is written: what the field types guarantee. */
  ghost predicate Ranged(s: State) {
    && s.resources.Keys == s.envelopes.Keys
    && U64(s.epoch) && U64(s.authority) && U64(s.nextReservationId) && U64(s.nextHoldId) && U64(s.nextSetId)
    && (forall k :: k in s.resources ==> ResourceRanged(Stored(s)[k]))
    && (forall k :: k in s.workerBoots ==> U64(k) && U64(s.workerBoots[k]))
    && (forall k :: k in s.requests ==> U64(k) && U64(s.requests[k]))
    && (forall k :: k in s.reservations ==> ReservationRanged(s.reservations[k]))
    && (forall k :: k in s.currentGen ==> U64(k) && U64(s.currentGen[k]))
    && (forall k :: k in s.history ==> U64(k) && |s.history[k]| < U32_LIMIT && forall r :: r in s.history[k] ==> ReservationRanged(r))
    && (forall k :: k in s.holds ==> HoldRanged(s.holds[k]))
    && (forall k :: k in s.sets ==> SetRanged(s.sets[k]))
  }

  /** What the reader asks on top: no stored window is empty, no string and no collection over its
      bound, no amount negative or without a unit. */
  ghost predicate Readable(s: State) {
    && (forall k :: k in s.resources ==> ReadableAmount(s.resources[k].totalCapacity))
    && (forall k :: k in s.reservations ==> ReservationReadable(s.reservations[k]))
    && (forall k :: k in s.history ==> |s.history[k]| <= MAX_COLLECTION && forall r :: r in s.history[k] ==> ReservationReadable(r))
    && (forall k :: k in s.holds ==> HoldReadable(s.holds[k]))
    && (forall k :: k in s.sets ==> SetReadable(s.sets[k]))
  }

  ghost predicate Storable(s: State) {
    Ranged(s) && Readable(s)
  }

  /** Counts of map entries fit their four bytes. */
  ghost predicate Countable(w: Walk) {
    && |w.resources| < U32_LIMIT && |w.boots| < U32_LIMIT && |w.requests| < U32_LIMIT && |w.reservations| < U32_LIMIT
    && |w.generations| < U32_LIMIT && |w.history| < U32_LIMIT && |w.holds| < U32_LIMIT && |w.sets| < U32_LIMIT
  }

  /** And are within the reader's bound. */
  ghost predicate Bounded(w: Walk) {
    && |w.resources| <= MAX_COLLECTION && |w.boots| <= MAX_COLLECTION && |w.requests| <= MAX_COLLECTION && |w.reservations| <= MAX_COLLECTION
    && |w.generations| <= MAX_COLLECTION && |w.history| <= MAX_COLLECTION && |w.holds| <= MAX_COLLECTION && |w.sets| <= MAX_COLLECTION
  }

  /** Records are filed under their own identities. */
  ghost predicate Filed(s: State) {
    && (forall k :: k in s.resources ==> s.resources[k].id == k)
    && (forall k :: k in s.reservations ==> s.reservations[k].id == k)
    && (forall k :: k in s.holds ==> s.holds[k].spec.id == k)
    && (forall k :: k in s.sets ==> s.sets[k].id == k)
  }

  lemma EntriesFit<T>(order: seq<nat>, m: map<nat, T>, write: (nat, T) -> Value, item: Kind)
    requires (forall k :: k in order ==> k in m) && (forall k :: k in m ==> k in order) && |order| < U32_LIMIT
    ensures Writable(KList(MAX_COLLECTION, item), VList(Entries(order, m, write))) <==> forall k :: k in m ==> Writable(item, write(k, m[k]))
    ensures Fits(KList(MAX_COLLECTION, item), VList(Entries(order, m, write))) <==>
            |order| <= MAX_COLLECTION && forall k :: k in m ==> Fits(item, write(k, m[k]))
  {
    hide Fits, Writable;
    var vs := Entries(order, m, write);
    ListFits(MAX_COLLECTION, item, vs);
    forall k | k in m ensures exists i :: 0 <= i < |vs| && vs[i] == write(k, m[k]) {
      var i :| 0 <= i < |order| && order[i] == k;
      assert vs[i] == write(k, m[k]);
    }
    forall i | 0 <= i < |vs| ensures order[i] in m && vs[i] == write(order[i], m[order[i]]) {
      assert order[i] in order;
    }
  }

  lemma PairFits(k: nat, v: nat)
    requires U64(k) && U64(v)
    ensures Fits(PAIR, PairValue(k, v))
  {
    RecordFits(PAIR, PairValue(k, v).fields);
  }

  lemma CountersFit(s: State)
    requires U64(s.epoch) && U64(s.authority) && U64(s.nextReservationId) && U64(s.nextHoldId) && U64(s.nextSetId)
    ensures Fits(PAYLOAD.fields[0], CountersValue(s))
  {
    RecordFits(PAYLOAD.fields[0], CountersValue(s).fields);
  }

  ghost predicate PastReadable(h: seq<Reservation>) {
    |h| <= MAX_COLLECTION && forall r :: r in h ==> ReservationReadable(r)
  }

  lemma PastFitsIff(id: nat, h: seq<Reservation>)
    requires U64(id) && |h| < U32_LIMIT && forall r :: r in h ==> ReservationRanged(r)
    ensures Writable(PAST, PastValue(id, h))
    ensures Fits(PAST, PastValue(id, h)) <==> PastReadable(h)
  {
    hide RESERVATION, ReservationValue, ReservationRanged, ReservationReadable;
    var vs := Reservations(h);
    forall i | 0 <= i < |h| ensures Writable(RESERVATION, vs[i]) && (Fits(RESERVATION, vs[i]) <==> ReservationReadable(h[i])) {
      assert h[i] in h;
      ReservationFitsIff(h[i]);
    }
    ListFits(MAX_COLLECTION, RESERVATION, vs);
    RecordFits(PAST, PastValue(id, h).fields);
    if Fits(PAST, PastValue(id, h)) {
      assert Fits(PAST.fields[1], PastValue(id, h).fields[1]);
    }
  }

  ghost predicate SameKeys<T>(order: seq<nat>, m: map<nat, T>) {
    (forall k :: k in order ==> k in m) && forall k :: k in m ==> k in order
  }

  lemma PairsFit(order: seq<nat>, m: map<nat, nat>)
    requires SameKeys(order, m) && |order| < U32_LIMIT && forall k :: k in m ==> U64(k) && U64(m[k])
    ensures Writable(KList(MAX_COLLECTION, PAIR), VList(Entries(order, m, PairValue)))
    ensures Fits(KList(MAX_COLLECTION, PAIR), VList(Entries(order, m, PairValue))) <==> |order| <= MAX_COLLECTION
  {
    hide Fits, Writable, PAIR, PairValue;
    forall k | k in m ensures Fits(PAIR, PairValue(k, m[k])) && Writable(PAIR, PairValue(k, m[k])) {
      PairFits(k, m[k]);
    }
    EntriesFit(order, m, PairValue, PAIR);
  }

  lemma ResourcesFit(order: seq<nat>, m: map<nat, StoredResource>)
    requires SameKeys(order, m) && |order| < U32_LIMIT && forall k :: k in m ==> ResourceRanged(m[k])
    ensures Writable(KList(MAX_COLLECTION, RESOURCE), VList(Entries(order, m, WriteResource)))
    ensures Fits(KList(MAX_COLLECTION, RESOURCE), VList(Entries(order, m, WriteResource))) <==>
            |order| <= MAX_COLLECTION && forall k :: k in m ==> ReadableAmount(m[k].resource.totalCapacity)
  {
    hide Fits, Writable, RESOURCE, ResourceValue, ResourceRanged, ReadableAmount;
    forall k | k in m
      ensures Writable(RESOURCE, WriteResource(k, m[k])) && (Fits(RESOURCE, WriteResource(k, m[k])) <==> ReadableAmount(m[k].resource.totalCapacity))
    {
      ResourceFitsIff(m[k]);
    }
    EntriesFit(order, m, WriteResource, RESOURCE);
  }

  lemma AllReservationsFit(order: seq<nat>, m: map<nat, Reservation>)
    requires SameKeys(order, m) && |order| < U32_LIMIT && forall k :: k in m ==> ReservationRanged(m[k])
    ensures Writable(KList(MAX_COLLECTION, RESERVATION), VList(Entries(order, m, WriteReservation)))
    ensures Fits(KList(MAX_COLLECTION, RESERVATION), VList(Entries(order, m, WriteReservation))) <==>
            |order| <= MAX_COLLECTION && forall k :: k in m ==> ReservationReadable(m[k])
  {
    hide Fits, Writable, RESERVATION, ReservationValue, ReservationRanged, ReservationReadable;
    forall k | k in m
      ensures Writable(RESERVATION, WriteReservation(k, m[k])) && (Fits(RESERVATION, WriteReservation(k, m[k])) <==> ReservationReadable(m[k]))
    {
      ReservationFitsIff(m[k]);
    }
    EntriesFit(order, m, WriteReservation, RESERVATION);
  }

  lemma PastsFit(order: seq<nat>, m: map<nat, seq<Reservation>>)
    requires SameKeys(order, m) && |order| < U32_LIMIT
    requires forall k :: k in m ==> U64(k) && |m[k]| < U32_LIMIT && forall r :: r in m[k] ==> ReservationRanged(r)
    ensures Writable(KList(MAX_COLLECTION, PAST), VList(Entries(order, m, PastValue)))
    ensures Fits(KList(MAX_COLLECTION, PAST), VList(Entries(order, m, PastValue))) <==>
            |order| <= MAX_COLLECTION && forall k :: k in m ==> PastReadable(m[k])
  {
    hide Fits, Writable, PAST, PastValue, ReservationRanged, PastReadable;
    forall k | k in m ensures Writable(PAST, PastValue(k, m[k])) && (Fits(PAST, PastValue(k, m[k])) <==> PastReadable(m[k])) {
      PastFitsIff(k, m[k]);
    }
    EntriesFit(order, m, PastValue, PAST);
  }

  lemma HoldsFit(order: seq<nat>, m: map<nat, Hold>)
    requires SameKeys(order, m) && |order| < U32_LIMIT && forall k :: k in m ==> HoldRanged(m[k])
    ensures Writable(KList(MAX_COLLECTION, HOLD), VList(Entries(order, m, WriteHold)))
    ensures Fits(KList(MAX_COLLECTION, HOLD), VList(Entries(order, m, WriteHold))) <==>
            |order| <= MAX_COLLECTION && forall k :: k in m ==> HoldReadable(m[k])
  {
    hide Fits, Writable, HOLD, HoldValue, HoldRanged, HoldReadable;
    forall k | k in m ensures Writable(HOLD, WriteHold(k, m[k])) && (Fits(HOLD, WriteHold(k, m[k])) <==> HoldReadable(m[k])) {
      HoldFitsIff(m[k]);
    }
    EntriesFit(order, m, WriteHold, HOLD);
  }

  lemma SetsFit(order: seq<nat>, m: map<nat, ReservationSet>)
    requires SameKeys(order, m) && |order| < U32_LIMIT && forall k :: k in m ==> SetRanged(m[k])
    ensures Writable(KList(MAX_COLLECTION, SET), VList(Entries(order, m, WriteSet)))
    ensures Fits(KList(MAX_COLLECTION, SET), VList(Entries(order, m, WriteSet))) <==>
            |order| <= MAX_COLLECTION && forall k :: k in m ==> SetReadable(m[k])
  {
    hide Fits, Writable, SET, SetValue, SetRanged, SetReadable;
    forall k | k in m ensures Writable(SET, WriteSet(k, m[k])) && (Fits(SET, WriteSet(k, m[k])) <==> SetReadable(m[k])) {
      SetFitsIff(m[k]);
    }
    EntriesFit(order, m, WriteSet, SET);
  }

  lemma RecordListsFit(s: State, w: Walk)
    requires Ranged(s) && Walks(s, w) && Countable(w)
    ensures var f, v := PAYLOAD.fields, SavedValue(s, w).fields;
            && Writable(f[1], v[1]) && Writable(f[4], v[4])
            && (Fits(f[1], v[1]) <==> |w.resources| <= MAX_COLLECTION && forall k :: k in s.resources ==> ReadableAmount(s.resources[k].totalCapacity))
            && (Fits(f[4], v[4]) <==> |w.reservations| <= MAX_COLLECTION && forall k :: k in s.reservations ==> ReservationReadable(s.reservations[k]))
  {
    hide Fits, Writable, RESOURCE, PAIR, RESERVATION, PAST, HOLD, SET, CountersValue, Entries,
         ResourceRanged, ReservationRanged, HoldRanged, SetRanged, ReservationReadable, HoldReadable, SetReadable, ReadableAmount, U64;
    ResourcesFit(w.resources, Stored(s));
    AllReservationsFit(w.reservations, s.reservations);
    assert forall k :: k in s.resources ==> Stored(s)[k].resource == s.resources[k];
  }

  lemma HoldListsFit(s: State, w: Walk)
    requires Ranged(s) && Walks(s, w) && Countable(w)
    ensures var f, v := PAYLOAD.fields, SavedValue(s, w).fields;
            && Writable(f[7], v[7]) && Writable(f[8], v[8])
            && (Fits(f[7], v[7]) <==> |w.holds| <= MAX_COLLECTION && forall k :: k in s.holds ==> HoldReadable(s.holds[k]))
            && (Fits(f[8], v[8]) <==> |w.sets| <= MAX_COLLECTION && forall k :: k in s.sets ==> SetReadable(s.sets[k]))
  {
    hide Fits, Writable, RESOURCE, PAIR, RESERVATION, PAST, HOLD, SET, CountersValue, Entries,
         ResourceRanged, ReservationRanged, HoldRanged, SetRanged, HoldReadable, SetReadable, U64;
    HoldsFit(w.holds, s.holds);
    SetsFit(w.sets, s.sets);
  }

  lemma PairListsFit(s: State, w: Walk)
    requires Ranged(s) && Walks(s, w) && Countable(w)
    ensures var f, v := PAYLOAD.fields, SavedValue(s, w).fields;
            && Writable(f[2], v[2]) && Writable(f[3], v[3]) && Writable(f[5], v[5]) && Writable(f[6], v[6])
            && (Fits(f[2], v[2]) <==> |w.boots| <= MAX_COLLECTION) && (Fits(f[3], v[3]) <==> |w.requests| <= MAX_COLLECTION)
            && (Fits(f[5], v[5]) <==> |w.generations| <= MAX_COLLECTION)
            && (Fits(f[6], v[6]) <==> |w.history| <= MAX_COLLECTION && forall k :: k in s.history ==> PastReadable(s.history[k]))
  {
    hide Fits, Writable, RESOURCE, PAIR, RESERVATION, PAST, HOLD, SET, CountersValue, Entries,
         ResourceRanged, ReservationRanged, HoldRanged, SetRanged, PastReadable, U64;
    PairsFit(w.boots, s.workerBoots);
    PairsFit(w.requests, s.requests);
    PairsFit(w.generations, s.currentGen);
    PastsFit(w.history, s.history);
  }

  /** A registry in its machine ranges can always be written; what is written can be read exactly
      when the registry is readable and its maps are within the reader's bound. */
  lemma SavedFitsIff(s: State, w: Walk)
    requires Ranged(s) && Walks(s, w) && Countable(w)
    ensures Writable(PAYLOAD, SavedValue(s, w))
    ensures Fits(PAYLOAD, SavedValue(s, w)) <==> Readable(s) && Bounded(w)
  {
    hide Fits, Writable, PAYLOAD, CountersValue, Entries, Ranged, Countable, ReservationReadable, HoldReadable, SetReadable, ReadableAmount, Walks;
    KeysStorable(s);
    RangedCounters(s);
    CountersFit(s);
    RecordListsFit(s, w);
    HoldListsFit(s, w);
    PairListsFit(s, w);
    PayloadFields();
    NineFields(PAYLOAD, SavedValue(s, w).fields);
  }

  lemma NineFields(k: Kind, vs: seq<Value>)
    requires k.KRecord? && |k.fields| == |vs| == 9
    ensures var f := k.fields;
            && (Fits(k, VRecord(vs)) <==> && Fits(f[0], vs[0]) && Fits(f[1], vs[1]) && Fits(f[2], vs[2]) && Fits(f[3], vs[3]) && Fits(f[4], vs[4])
                                          && Fits(f[5], vs[5]) && Fits(f[6], vs[6]) && Fits(f[7], vs[7]) && Fits(f[8], vs[8]))
            && (Writable(k, VRecord(vs)) <==> && Writable(f[0], vs[0]) && Writable(f[1], vs[1]) && Writable(f[2], vs[2]) && Writable(f[3], vs[3])
                                              && Writable(f[4], vs[4]) && Writable(f[5], vs[5]) && Writable(f[6], vs[6]) && Writable(f[7], vs[7])
                                              && Writable(f[8], vs[8]))
  {
    hide Fits, Writable;
    RecordFits(k, vs);
  }

  lemma PayloadFields()
    ensures PAYLOAD.KRecord? && |PAYLOAD.fields| == 9
  {
  }

  lemma RangedCounters(s: State)
    requires Ranged(s)
    ensures U64(s.epoch) && U64(s.authority) && U64(s.nextReservationId) && U64(s.nextHoldId) && U64(s.nextSetId)
  {
  }

  // ---- loading ----

  /** The envelope a stored resource is given: initialized, empty, no unavailable windows. */
  function EmptyEnvelope(x: StoredResource): Envelope {
    FreshEnvelope(x.resource.totalCapacity.unit, x.resource.totalCapacity, x.ratio, x.origin, x.horizon)
  }

  /** Initialization refuses a capacity in another unit than the resource's and an empty span. */
  predicate CanInit(x: StoredResource) {
    (x.resource.totalCapacity.unit == x.resource.unit || x.resource.unit == UNIT_NONE) && x.horizon > 0
  }

  function ListAt(v: Value, i: nat): seq<Value> {
    Items(Sub(v, i))
  }

  function StoredFrom(vs: seq<Value>): map<nat, StoredResource> {
    FromEntries(vs, ResourceKey, ResourceFrom)
  }

  function ResourcesIn(m: map<nat, StoredResource>): map<nat, Resource> {
    map k | k in m :: m[k].resource
  }

  function EnvelopesIn(m: map<nat, StoredResource>): map<nat, Envelope> {
    map k | k in m :: EmptyEnvelope(m[k])
  }

  /** The registry as read, before contributions are applied. */
  function RawState(v: Value): State {
    var c, stored := Sub(v, 0), StoredFrom(ListAt(v, 1));
    State(DEFAULT_CONFIG, Nat(Sub(c, 0)), Nat(Sub(c, 1)),
          ResourcesIn(stored), EnvelopesIn(stored),
          FromEntries(ListAt(v, 2), PairKey, PairNat), FromEntries(ListAt(v, 3), PairKey, PairNat),
          FromEntries(ListAt(v, 4), ReservationKey, ReservationFrom),
          FromEntries(ListAt(v, 5), PairKey, PairNat), HistoriesFrom(ListAt(v, 6)),
          FromEntries(ListAt(v, 8), SetKey, SetFrom),
          FromEntries(ListAt(v, 7), HoldKey, HoldFrom),
          Nat(Sub(c, 2)), Nat(Sub(c, 3)), Nat(Sub(c, 4)))
  }

  /** Applies one loaded reservation to its envelope if its lifecycle holds capacity, whatever its
      stored flag; live ones must be revalidated. */
  function ReapplyReservation(s: State, id: nat): State {
    if id !in s.reservations || s.reservations[id].resource !in s.envelopes then s
    else
      var r := s.reservations[id].(contributes := false);
      var (s1, r1) := if HoldsCapacity(r.lifecycle) then Contribute(s, r) else (s, r);
      Put(s1, id, Demoted(r1))
  }

  function ReapplyHold(s: State, id: nat): State {
    if id !in s.holds || s.holds[id].resource !in s.envelopes || !s.holds[id].applied || s.holds[id].state != HOLD_ACQUIRED then s
    else Held(s, s.holds[id].resource, s.holds[id].spec.window, s.holds[id].spec.quantity.value)
  }

  function Reapply(s: State, reservations: seq<nat>, holds: seq<nat>): State {
    Fold(Fold(s, reservations, (x: State, id: nat) => ReapplyReservation(x, id)), holds, (x: State, id: nat) => ReapplyHold(x, id))
  }

  function FileOf(payload: seq<Byte>): seq<Byte> {
    LittleEndian(FILE_MAGIC, 4) + [FILE_VERSION] + LittleEndian(|payload|, 4) + LittleEndian(Check(payload), 4) + payload
  }

  function Check(payload: seq<Byte>): (n: nat)
    ensures n < U32_LIMIT
  {
    Crc.NumberBound(Crc.CrcFrom(Crc.SEED, payload));
    Crc.Number(Crc.CrcFrom(Crc.SEED, payload))
  }

  /** The payload of a file whose header and checksum are in order. */
  function PayloadOf(file: seq<Byte>): Option<seq<Byte>> {
    if |file| < FILE_HEADER then None
    else if FromLittleEndian(file[..4]) != FILE_MAGIC then None
    else if file[4] != FILE_VERSION then None
    else if FromLittleEndian(file[5..9]) != |file| - FILE_HEADER || |file| - FILE_HEADER < 3 then None
    else if Check(file[FILE_HEADER..]) != FromLittleEndian(file[9..13]) then None
    else Some(file[FILE_HEADER..])
  }

  predicate AllCanInit(vs: seq<Value>) {
    forall i :: 0 <= i < |vs| ==> CanInit(ResourceFrom(vs[i]))
  }

  /** Loads a file; the new maps may be walked in any order. */
  function Load(file: seq<Byte>, reservations: seq<nat>, holds: seq<nat>): Option<State> {
    var p := PayloadOf(file);
    if p.None? then None
    else
      var r := Decode(PAYLOAD, p.value);
      if r.Failed? || r.used != |p.value| || !AllCanInit(ListAt(r.value, 1)) then None
      else Some(Reapply(RawState(r.value), reservations, holds))
  }

  ghost function Save(s: State, w: Walk): seq<Byte>
    requires Ranged(s) && Walks(s, w) && Countable(w)
  {
    SavedFitsIff(s, w);
    FileOf(Encode(PAYLOAD, SavedValue(s, w)))
  }

  // ---- what is read is what was written ----

  /** What the bytes say of a registry. */
  function Raw(s: State): State
    requires s.resources.Keys == s.envelopes.Keys
  {
    s.(config := DEFAULT_CONFIG, history := NonEmpty(s.history), envelopes := EnvelopesIn(Stored(s)))
  }

  lemma StoredReads(order: seq<nat>, m: map<nat, StoredResource>)
    requires Visits(order, m.Keys) && forall k :: k in m ==> m[k].resource.id == k
    ensures forall k :: k in order ==> k in m
    ensures StoredFrom(Entries(order, m, WriteResource)) == m
  {
    hide ResourceFrom, ResourceValue, FromEntries, Entries;
    forall k | k in m ensures ResourceFrom(ResourceValue(m[k])) == m[k] {
      ResourceReads(m[k]);
    }
    EntriesRoundTrip(order, m, WriteResource, ResourceKey, ResourceFrom);
  }

  lemma ResourceReads(x: StoredResource)
    ensures ResourceFrom(ResourceValue(x)) == x
  {
  }

  lemma PairsRead(order: seq<nat>, m: map<nat, nat>)
    requires Visits(order, m.Keys)
    ensures forall k :: k in order ==> k in m
    ensures FromEntries(Entries(order, m, PairValue), PairKey, PairNat) == m
  {
    hide FromEntries, Entries;
    EntriesRoundTrip(order, m, PairValue, PairKey, PairNat);
  }

  lemma AllReservationsRead(order: seq<nat>, m: map<nat, Reservation>)
    requires Visits(order, m.Keys) && forall k :: k in m ==> m[k].id == k
    ensures forall k :: k in order ==> k in m
    ensures FromEntries(Entries(order, m, WriteReservation), ReservationKey, ReservationFrom) == m
  {
    hide ReservationFrom, ReservationValue, FromEntries, Entries;
    forall k | k in m ensures ReservationFrom(ReservationValue(m[k])) == m[k] {
      ReservationReads(m[k]);
    }
    EntriesRoundTrip(order, m, WriteReservation, ReservationKey, ReservationFrom);
  }

  lemma HoldsRead(order: seq<nat>, m: map<nat, Hold>)
    requires Visits(order, m.Keys) && forall k :: k in m ==> m[k].spec.id == k
    ensures forall k :: k in order ==> k in m
    ensures FromEntries(Entries(order, m, WriteHold), HoldKey, HoldFrom) == m
  {
    hide HoldFrom, HoldValue, FromEntries, Entries;
    forall k | k in m ensures HoldFrom(HoldValue(m[k])) == m[k] {
      HoldReads(m[k]);
    }
    EntriesRoundTrip(order, m, WriteHold, HoldKey, HoldFrom);
  }

  lemma HoldReads(h: Hold)
    ensures HoldFrom(HoldValue(h)) == h
  {
  }

  lemma SetsRead(order: seq<nat>, m: map<nat, ReservationSet>)
    requires Visits(order, m.Keys) && forall k :: k in m ==> m[k].id == k
    ensures forall k :: k in order ==> k in m
    ensures FromEntries(Entries(order, m, WriteSet), SetKey, SetFrom) == m
  {
    hide SetFrom, SetValue, FromEntries, Entries;
    forall k | k in m ensures SetFrom(SetValue(m[k])) == m[k] {
      SetReads(m[k]);
    }
    EntriesRoundTrip(order, m, WriteSet, SetKey, SetFrom);
  }

  lemma AllHistoriesRead(order: seq<nat>, m: map<nat, seq<Reservation>>)
    requires Visits(order, m.Keys)
    ensures forall k :: k in order ==> k in m
    ensures HistoriesFrom(Entries(order, m, PastValue)) == NonEmpty(m)
  {
    hide PastValue, HistoriesFrom, Entries;
    HistoriesRead(order, m);
    assert (map k | k in m && k in order && m[k] != [] :: m[k]) == NonEmpty(m);
  }

  /** Every field of every record and every map survives, whatever order the maps were walked in. */
  lemma RawReads(s: State, w: Walk)
    requires s.resources.Keys == s.envelopes.Keys && Walks(s, w) && Filed(s)
    ensures RawState(SavedValue(s, w)) == Raw(s)
  {
    hide StoredFrom, FromEntries, HistoriesFrom, Entries, NonEmpty, EnvelopesIn, Visits;
    assert Stored(s).Keys == s.resources.Keys;
    StoredReads(w.resources, Stored(s));
    PairsRead(w.boots, s.workerBoots);
    PairsRead(w.requests, s.requests);
    AllReservationsRead(w.reservations, s.reservations);
    PairsRead(w.generations, s.currentGen);
    AllHistoriesRead(w.history, s.history);
    HoldsRead(w.holds, s.holds);
    SetsRead(w.sets, s.sets);
    assert ResourcesIn(Stored(s)) == s.resources;
  }

  // ---- recovery ----

  /** The record a load leaves: flagged exactly when its lifecycle holds capacity, and no longer
      live. */
  function Reloaded(r: Reservation): Reservation {
    Demoted(r.(contributes := HoldsCapacity(r.lifecycle)))
  }

  ghost predicate Has(order: seq<nat>, n: nat, k: nat)
    requires n <= |order|
  {
    exists i :: 0 <= i < n && order[i] == k
  }

  /** The reservations among the first `n` of the order, as reloaded. */
  ghost function DoneReservations(s: State, order: seq<nat>, n: nat): map<nat, Reservation>
    requires n <= |order|
  {
    map k | k in s.reservations && Has(order, n, k) :: Reloaded(s.reservations[k])
  }

  ghost function DoneHolds(s: State, order: seq<nat>, n: nat): map<nat, Hold>
    requires n <= |order|
  {
    map k | k in s.holds && Has(order, n, k) :: s.holds[k]
  }

  /** After `n` reservations and `m` holds, the levels are what those weigh. */
  ghost predicate Refilled(s: State, t: State, rs: map<nat, Reservation>, hs: map<nat, Hold>) {
    && SameSpans(s, t)
    && forall resource, x :: InSpan(s, resource, x) ==>
                               var v, u := LevelOf(s, resource, x), LevelOf(t, resource, x);
                               u == Level(HardSum(rs, resource, x), SoftSum(rs, resource, x), HeldSum(hs, resource, x), v.cap)
  }

  ghost predicate Empty(s: State) {
    forall resource, x :: InSpan(s, resource, x) ==> LevelOf(s, resource, x).hard == 0 && LevelOf(s, resource, x).soft == 0 && LevelOf(s, resource, x).held == 0
  }

  /** Every reservation and hold is bound to a resource that has an envelope. */
  ghost predicate Bound(s: State) {
    && (forall k :: k in s.reservations ==> s.reservations[k].resource in s.envelopes)
    && (forall k :: k in s.holds ==> s.holds[k].resource in s.envelopes && (s.holds[k].state == HOLD_ACQUIRED <==> s.holds[k].applied))
  }

  /** The state after the first `n` reservations have been applied again. */
  ghost predicate Halfway(s: State, t: State, order: seq<nat>, n: nat)
    requires n <= |order|
  {
    && t == s.(envelopes := t.envelopes, reservations := t.reservations)
    && t.reservations.Keys == s.reservations.Keys
    && (forall k :: k in s.reservations ==> t.reservations[k] == if Has(order, n, k) then Reloaded(s.reservations[k]) else s.reservations[k])
    && Refilled(s, t, DoneReservations(s, order, n), map[])
  }

  lemma ReapplyMoves(x: State, id: nat)
    requires id in x.reservations && x.reservations[id].resource in x.envelopes
    ensures var y := ReapplyReservation(x, id);
            var r := x.reservations[id];
            && y == x.(envelopes := y.envelopes, reservations := x.reservations[id := Reloaded(r)])
            && MovedBy(x, y, r.(contributes := false), Reloaded(r))
  {
    hide AddCommitted, MovedBy, HoldsCapacity, IsLive;
    var r := x.reservations[id];
    var y := ReapplyReservation(x, id);
    var r0 := r.(contributes := false);
    if HoldsCapacity(r.lifecycle) {
      var (x1, r1) := Contribute(x, r0);
      ContributeMoves(x, r0);
      MovedSameWeight(x, x1, r0, r1, Reloaded(r));
      SameLevelsMove(x, x1, x, y, r0, Reloaded(r));
    } else {
      StillMoves(x, y, r0);
      MovedSameWeight(x, y, r0, r0, Reloaded(r));
    }
  }

  lemma RefilledPut(s: State, x: State, y: State, done: map<nat, Reservation>, id: nat, r: Reservation, r': Reservation)
    requires Refilled(s, x, done, map[]) && MovedBy(x, y, r, r') && !r.contributes && id !in done
    ensures Refilled(s, y, done[id := r'], map[])
  {
    hide HardSum, SoftSum, HeldSum;
    forall resource, t | InSpan(s, resource, t)
      ensures LevelOf(y, resource, t) == Level(HardSum(done[id := r'], resource, t), SoftSum(done[id := r'], resource, t), HeldSum(map[], resource, t),
                                               LevelOf(s, resource, t).cap)
    {
      assert InSpan(x, resource, t);
      HardSumPut(done, id, r', resource, t);
      SoftSumPut(done, id, r', resource, t);
    }
  }

  lemma HasStep(order: seq<nat>, keys: set<nat>, n: nat)
    requires n < |order| && Visits(order, keys)
    ensures order[n] in keys && !Has(order, n, order[n]) && Has(order, n + 1, order[n])
    ensures forall k :: Has(order, n + 1, k) <==> Has(order, n, k) || k == order[n]
  {
    assert order[n] in order;
  }

  lemma DoneStep(s: State, order: seq<nat>, n: nat)
    requires n < |order| && Visits(order, s.reservations.Keys)
    ensures order[n] in s.reservations && order[n] !in DoneReservations(s, order, n)
    ensures DoneReservations(s, order, n + 1) == DoneReservations(s, order, n)[order[n] := Reloaded(s.reservations[order[n]])]
  {
    hide Reloaded, Has;
    HasStep(order, s.reservations.Keys, n);
  }

  lemma HalfwayStep(s: State, x: State, order: seq<nat>, n: nat)
    requires n < |order| && Visits(order, s.reservations.Keys) && Bound(s) && Halfway(s, x, order, n)
    ensures Halfway(s, ReapplyReservation(x, order[n]), order, n + 1)
  {
    hide ReapplyReservation, Reloaded, MovedBy, Refilled, Has, Visits, DoneReservations;
    var id := order[n];
    HasStep(order, s.reservations.Keys, n);
    DoneStep(s, order, n);
    SpansOf(s, x, DoneReservations(s, order, n), map[]);
    ReapplyMoves(x, id);
    RefilledPut(s, x, ReapplyReservation(x, id), DoneReservations(s, order, n), id, s.reservations[id].(contributes := false), Reloaded(s.reservations[id]));
  }

  lemma SpansOf(s: State, t: State, rs: map<nat, Reservation>, hs: map<nat, Hold>)
    requires Refilled(s, t, rs, hs)
    ensures SameSpans(s, t)
  {
  }

  lemma {:induction false} Halves(s: State, order: seq<nat>, n: nat)
    requires n <= |order| && Visits(order, s.reservations.Keys) && Bound(s) && Empty(s)
    ensures Halfway(s, Fold(s, order[..n], (x: State, id: nat) => ReapplyReservation(x, id)), order, n)
  {
    hide ReapplyReservation, Reloaded, HardSum, SoftSum, HeldSum;
    if n == 0 {
      assert DoneReservations(s, order, 0) == map[];
      forall resource, t ensures HardSum(map[], resource, t) == 0 && SoftSum(map[], resource, t) == 0 && HeldSum(map[], resource, t) == 0 {
        EmptySums(resource, t);
      }
    } else {
      Halves(s, order, n - 1);
      assert order[..n][..n - 1] == order[..n - 1];
      HalfwayStep(s, Fold(s, order[..n - 1], (x: State, id: nat) => ReapplyReservation(x, id)), order, n - 1);
    }
  }

  lemma EmptySums(resource: nat, t: int)
    ensures HardSum(map[], resource, t) == 0 && SoftSum(map[], resource, t) == 0 && HeldSum(map[], resource, t) == 0
  {
    assert HardWeights(map[], resource, t) == map[] && SoftWeights(map[], resource, t) == map[] && HeldWeights(map[], resource, t) == map[];
  }

  /** The state after all reservations and the first `n` holds. */
  ghost predicate Nearly(s: State, t: State, rs: map<nat, Reservation>, order: seq<nat>, n: nat)
    requires n <= |order|
  {
    t == s.(envelopes := t.envelopes) && Refilled(s, t, rs, DoneHolds(s, order, n))
  }

  lemma ReapplyHoldMoves(x: State, id: nat)
    requires id in x.holds && x.holds[id].resource in x.envelopes && (x.holds[id].state == HOLD_ACQUIRED <==> x.holds[id].applied)
    ensures var y := ReapplyHold(x, id); y == x.(envelopes := y.envelopes) && MovedByHold(x, y, None, x.holds[id])
  {
  }

  lemma NearlyStep(s: State, x: State, rs: map<nat, Reservation>, order: seq<nat>, n: nat)
    requires n < |order| && Visits(order, s.holds.Keys) && Bound(s) && Nearly(s, x, rs, order, n)
    ensures Nearly(s, ReapplyHold(x, order[n]), rs, order, n + 1)
  {
    hide ReapplyHold, Refilled, MovedByHold, Has, Visits, DoneHolds;
    var id := order[n];
    HasStep(order, s.holds.Keys, n);
    DoneHoldStep(s, order, n);
    SpansOf(s, x, rs, DoneHolds(s, order, n));
    ReapplyHoldMoves(x, id);
    RefilledHold(s, x, ReapplyHold(x, id), rs, DoneHolds(s, order, n), id, s.holds[id]);
  }

  lemma RefilledHold(s: State, x: State, y: State, rs: map<nat, Reservation>, done: map<nat, Hold>, id: nat, h: Hold)
    requires Refilled(s, x, rs, done) && MovedByHold(x, y, None, h) && id !in done
    ensures Refilled(s, y, rs, done[id := h])
  {
    hide HardSum, SoftSum, HeldSum, HeldWeight;
    forall resource, t | InSpan(s, resource, t)
      ensures LevelOf(y, resource, t) == Level(HardSum(rs, resource, t), SoftSum(rs, resource, t), HeldSum(done[id := h], resource, t),
                                               LevelOf(s, resource, t).cap)
    {
      assert InSpan(x, resource, t);
      HeldSumPut(done, id, h, resource, t);
    }
  }

  lemma DoneHoldStep(s: State, order: seq<nat>, n: nat)
    requires n < |order| && Visits(order, s.holds.Keys)
    ensures order[n] in s.holds && order[n] !in DoneHolds(s, order, n)
    ensures DoneHolds(s, order, n + 1) == DoneHolds(s, order, n)[order[n] := s.holds[order[n]]]
  {
    hide Has;
    HasStep(order, s.holds.Keys, n);
  }

  lemma {:induction false} Nears(s: State, x: State, rs: map<nat, Reservation>, order: seq<nat>, n: nat)
    requires n <= |order| && Visits(order, s.holds.Keys) && Bound(s)
    requires x == s.(envelopes := x.envelopes) && Refilled(s, x, rs, map[])
    ensures Nearly(s, Fold(x, order[..n], (x: State, id: nat) => ReapplyHold(x, id)), rs, order, n)
  {
    hide ReapplyHold, HardSum, SoftSum, HeldSum;
    if n == 0 {
      assert DoneHolds(s, order, 0) == map[];
    } else {
      Nears(s, x, rs, order, n - 1);
      assert order[..n][..n - 1] == order[..n - 1];
      NearlyStep(s, Fold(x, order[..n - 1], (x: State, id: nat) => ReapplyHold(x, id)), rs, order, n - 1);
    }
  }

  /** What a load makes of the records. */
  ghost function Recovered(s: State): State {
    s.(config := DEFAULT_CONFIG, history := NonEmpty(s.history), reservations := map k | k in s.reservations :: Reloaded(s.reservations[k]))
  }

  lemma HasAll(order: seq<nat>, keys: set<nat>)
    requires Visits(order, keys)
    ensures forall k :: k in keys ==> Has(order, |order|, k)
  {
    forall k | k in keys ensures Has(order, |order|, k) {
      assert k in order;
    }
  }

  lemma RawIsEmpty(s: State)
    requires Struct(s)
    ensures Empty(Raw(s)) && Bound(Raw(s))
  {
    forall k | k in s.reservations ensures s.reservations[k].resource in s.envelopes {
      assert ReservationOk(s, k, s.reservations[k]);
    }
    forall k | k in s.holds ensures s.holds[k].resource in s.envelopes && (s.holds[k].state == HOLD_ACQUIRED <==> s.holds[k].applied) {
      assert HoldOk(s, k, s.holds[k]);
    }
    var raw := Raw(s);
    assert raw.envelopes.Keys == s.envelopes.Keys;
    forall resource, x | InSpan(raw, resource, x)
      ensures LevelOf(raw, resource, x).hard == 0 && LevelOf(raw, resource, x).soft == 0 && LevelOf(raw, resource, x).held == 0
    {
      assert raw.envelopes[resource] == EmptyEnvelope(Stored(s)[resource]);
    }
  }

  lemma ReservationsApplied(raw: State, order: seq<nat>, rs: map<nat, Reservation>)
    requires Bound(raw) && Empty(raw) && Visits(order, raw.reservations.Keys)
    requires rs == map k | k in raw.reservations :: Reloaded(raw.reservations[k])
    ensures var mid := Fold(raw, order, (x: State, id: nat) => ReapplyReservation(x, id));
            mid == raw.(envelopes := mid.envelopes, reservations := rs) && Refilled(raw, mid, rs, map[])
  {
    hide ReapplyReservation, Reloaded, Refilled, Bound, Empty, Has, Fold, Visits;
    HasAll(order, raw.reservations.Keys);
    assert order[..|order|] == order;
    Halves(raw, order, |order|);
    assert DoneReservations(raw, order, |order|) == rs;
    assert Fold(raw, order, (x: State, id: nat) => ReapplyReservation(x, id)).reservations == rs;
  }

  lemma HoldsApplied(base: State, mid: State, order: seq<nat>, rs: map<nat, Reservation>)
    requires Bound(base) && Visits(order, base.holds.Keys) && mid == base.(envelopes := mid.envelopes) && Refilled(base, mid, rs, map[])
    ensures var t := Fold(mid, order, (x: State, id: nat) => ReapplyHold(x, id));
            t == base.(envelopes := t.envelopes) && Refilled(base, t, rs, base.holds)
  {
    hide ReapplyHold, Refilled, Bound, Has, Fold, Visits;
    HasAll(order, base.holds.Keys);
    assert order[..|order|] == order;
    Nears(base, mid, rs, order, |order|);
    assert DoneHolds(base, order, |order|) == base.holds;
  }

  lemma RefilledMirrors(base: State, t: State)
    requires Refilled(base, t, t.reservations, t.holds)
    ensures Mirror(t) && SameSpans(base, t)
    ensures forall resource, x :: InSpan(t, resource, x) ==> LevelOf(t, resource, x).cap == LevelOf(base, resource, x).cap
  {
    hide HardSum, SoftSum, HeldSum;
    forall resource, x | InSpan(t, resource, x) ensures InSpan(base, resource, x) && MirrorAt(t, resource, x) {
    }
  }

  lemma SpansShift(a: State, b: State, t: State)
    requires a.envelopes == b.envelopes && SameSpans(b, t)
    requires forall resource, x :: InSpan(t, resource, x) ==> LevelOf(t, resource, x).cap == LevelOf(b, resource, x).cap
    ensures SameSpans(a, t)
    ensures forall resource, x :: InSpan(t, resource, x) ==> LevelOf(t, resource, x).cap == LevelOf(a, resource, x).cap
  {
    forall resource, x | InSpan(t, resource, x) ensures InSpan(a, resource, x) && LevelOf(a, resource, x) == LevelOf(b, resource, x) {
      assert InSpan(b, resource, x);
    }
  }

  /** Applying everything again, in any order, makes the envelopes mirror the reloaded registry. */
  lemma ReapplyMirrors(s: State, reservations: seq<nat>, holds: seq<nat>)
    requires Struct(s) && Visits(reservations, s.reservations.Keys) && Visits(holds, s.holds.Keys)
    ensures var t := Reapply(Raw(s), reservations, holds);
            && t == Recovered(s).(envelopes := t.envelopes) && SameSpans(Raw(s), t) && Mirror(t)
            && forall resource, x :: InSpan(t, resource, x) ==> LevelOf(t, resource, x).cap == LevelOf(Raw(s), resource, x).cap
  {
    hide ReapplyReservation, ReapplyHold, Reloaded, Refilled, Visits, Struct, Fold, Bound, Empty, NonEmpty, EnvelopesIn, Mirror, SameSpans;
    KeysAgree(s);
    var raw := Raw(s);
    RawIsEmpty(s);
    var rs := Recovered(s).reservations;
    var base := raw.(reservations := rs);
    ReservationsApplied(raw, reservations, rs);
    var mid := Fold(raw, reservations, (x: State, id: nat) => ReapplyReservation(x, id));
    BoundReloaded(raw, base);
    SameSpansBase(raw, base, mid, rs);
    HoldsApplied(base, mid, holds, rs);
    var t := Reapply(raw, reservations, holds);
    RefilledMirrors(base, t);
    SpansShift(raw, base, t);
  }

  lemma BoundReloaded(s: State, t: State)
    requires Bound(s) && t == s.(reservations := t.reservations) && t.reservations.Keys == s.reservations.Keys
    requires forall k :: k in s.reservations ==> t.reservations[k] == Reloaded(s.reservations[k])
    ensures Bound(t)
  {
    hide HoldsCapacity, IsLive;
  }

  lemma SameSpansBase(s: State, b: State, t: State, rs: map<nat, Reservation>)
    requires b.envelopes == s.envelopes && Refilled(s, t, rs, map[])
    ensures Refilled(b, t, rs, map[])
  {
    hide HardSum, SoftSum, HeldSum;
    forall resource, x | InSpan(b, resource, x) ensures InSpan(s, resource, x) && LevelOf(s, resource, x) == LevelOf(b, resource, x) {
    }
  }

  // ---- the file ----

  lemma FileParts(payload: seq<Byte>, check: nat, body: seq<Byte>)
    requires |payload| < U32_LIMIT && check < U32_LIMIT
    ensures var f := LittleEndian(FILE_MAGIC, 4) + [FILE_VERSION] + LittleEndian(|payload|, 4) + LittleEndian(check, 4) + body;
            && |f| == FILE_HEADER + |body| && FromLittleEndian(f[..4]) == FILE_MAGIC && f[4] == FILE_VERSION
            && FromLittleEndian(f[5..9]) == |payload| && FromLittleEndian(f[9..13]) == check && f[FILE_HEADER..] == body
  {
    hide LittleEndian, FromLittleEndian;
    PowValues();
    NumberRoundTrip(FILE_MAGIC, 4);
    NumberRoundTrip(|payload|, 4);
    NumberRoundTrip(check, 4);
    var f := LittleEndian(FILE_MAGIC, 4) + [FILE_VERSION] + LittleEndian(|payload|, 4) + LittleEndian(check, 4) + body;
    assert f[..4] == LittleEndian(FILE_MAGIC, 4);
    assert f[5..9] == LittleEndian(|payload|, 4);
    assert f[9..13] == LittleEndian(check, 4);
    assert f[FILE_HEADER..] == body;
  }

  /** A file whose body is not the payload it was written for is accepted only if both the length
      and the check value agree. */
  lemma BodyAcceptedIff(payload: seq<Byte>, body: seq<Byte>)
    requires |payload| < U32_LIMIT
    ensures PayloadOf(FileOf(payload)[..FILE_HEADER] + body) ==
            if |body| == |payload| >= 3 && Check(body) == Check(payload) then Some(body) else None
  {
    hide LittleEndian, FromLittleEndian, Check;
    FileParts(payload, Check(payload), body);
    assert FileOf(payload)[..FILE_HEADER] + body ==
           LittleEndian(FILE_MAGIC, 4) + [FILE_VERSION] + LittleEndian(|payload|, 4) + LittleEndian(Check(payload), 4) + body;
  }

  /** A payload whose length does not fit its four bytes is refused. */
  lemma FileReadsIff(payload: seq<Byte>)
    requires 3 <= |payload|
    ensures PayloadOf(FileOf(payload)) == if |payload| < U32_LIMIT then Some(payload) else None
  {
    hide Check;
    if |payload| < U32_LIMIT {
      BodyAcceptedIff(payload, payload);
      assert FileOf(payload)[..FILE_HEADER] + payload == FileOf(payload);
    } else {
      LongPayload(payload);
    }
  }

  lemma LongPayload(payload: seq<Byte>)
    requires |payload| >= U32_LIMIT
    ensures PayloadOf(FileOf(payload)).None?
  {
    hide LittleEndian, FromLittleEndian, Check;
    PowValues();
    NumberBound(FileOf(payload)[5..9]);
  }

  /** A file cut short anywhere, or with anything appended, is refused. */
  lemma WrongLengthIsRejected(payload: seq<Byte>, n: nat, extra: seq<Byte>)
    requires |payload| < U32_LIMIT && n < |FileOf(payload)|
    ensures PayloadOf(FileOf(payload)[..n]).None?
    ensures extra != [] ==> PayloadOf(FileOf(payload) + extra).None?
  {
    hide LittleEndian, FromLittleEndian, Check;
    var f := FileOf(payload);
    if n >= FILE_HEADER {
      BodyAcceptedIff(payload, f[FILE_HEADER..n]);
      assert f[..n] == f[..FILE_HEADER] + f[FILE_HEADER..n];
    }
    BodyAcceptedIff(payload, payload + extra);
    assert f + extra == f[..FILE_HEADER] + (payload + extra);
  }

  /** A file whose payload was altered only within four consecutive bytes is refused. */
  lemma CorruptFileIsRejected(payload: seq<Byte>, body: seq<Byte>, at: nat)
    requires |payload| < U32_LIMIT && Crc.WithinBurst(payload, body, at) && body != payload
    ensures PayloadOf(FileOf(payload)[..FILE_HEADER] + body).None?
  {
    hide PayloadOf, FileOf;
    BodyAcceptedIff(payload, body);
    Crc.BurstDetected(Crc.SEED, payload, body, at);
    CheckDiffers(payload, body);
  }

  lemma CheckDiffers(a: seq<Byte>, b: seq<Byte>)
    requires Crc.CrcFrom(Crc.SEED, a) != Crc.CrcFrom(Crc.SEED, b)
    ensures Check(a) != Check(b)
  {
    hide Crc.CrcFrom, Crc.Number;
    if Check(a) == Check(b) { Crc.NumberInjective(Crc.CrcFrom(Crc.SEED, a), Crc.CrcFrom(Crc.SEED, b)); }
  }

  // ---- load after save ----

  /** Every envelope can be initialized again. */
  ghost predicate Openable(s: State)
    requires s.resources.Keys == s.envelopes.Keys
  {
    forall k :: k in s.resources ==> CanInit(Stored(s)[k])
  }

  lemma SavedCanInit(s: State, w: Walk)
    requires s.resources.Keys == s.envelopes.Keys && Walks(s, w)
    ensures AllCanInit(ListAt(SavedValue(s, w), 1)) <==> Openable(s)
  {
    hide ResourceValue, ResourceFrom, CanInit;
    var vs := ListAt(SavedValue(s, w), 1);
    assert vs == Entries(w.resources, Stored(s), WriteResource);
    forall i | 0 <= i < |vs| ensures w.resources[i] in s.resources && ResourceFrom(vs[i]) == Stored(s)[w.resources[i]] {
      assert w.resources[i] in w.resources;
      ResourceReads(Stored(s)[w.resources[i]]);
    }
    if AllCanInit(vs) {
      forall k | k in s.resources ensures CanInit(Stored(s)[k]) {
        assert k in w.resources;
        var i :| 0 <= i < |w.resources| && w.resources[i] == k;
        assert CanInit(ResourceFrom(vs[i]));
      }
    }
  }

  lemma PayloadIsLong(s: State, w: Walk)
    requires Ranged(s) && Walks(s, w) && Writable(PAYLOAD, SavedValue(s, w))
    ensures |Encode(PAYLOAD, SavedValue(s, w))| >= 3
  {
    var v := SavedValue(s, w);
    var c := PAYLOAD.fields[0];
    CountersFit(s);
    assert |Encode(c, v.fields[0])| >= 8 by {
      assert Encode(c, v.fields[0]) == EncodeFields(c, v.fields[0].fields, 0);
      assert |Encode(KU64, VNum(s.epoch))| == 8;
    }
  }

  /** The length of the payload fits its four bytes. */
  predicate Sized(file: seq<Byte>) {
    |file| < FILE_HEADER + U32_LIMIT
  }

  /** What a load makes of a saved registry in its machine ranges, whatever is in it. */
  lemma LoadOfSave(s: State, w: Walk, reservations: seq<nat>, holds: seq<nat>)
    requires Ranged(s) && Walks(s, w) && Countable(w)
    ensures Load(Save(s, w), reservations, holds).Some? <==> Readable(s) && Bounded(w) && Openable(s) && Sized(Save(s, w))
    ensures Load(Save(s, w), reservations, holds).Some? && Filed(s) ==>
              Load(Save(s, w), reservations, holds) == Some(Reapply(Raw(s), reservations, holds))
  {
    hide Encode, Decode, Fits, Writable, PAYLOAD, SavedValue, RawState, Reapply, Raw, FileOf, PayloadOf, Ranged, Readable, Walks, Bounded, Countable, Filed,
         Openable, ListAt, AllCanInit;
    KeysStorable(s);
    SavedFitsIff(s, w);
    var v := SavedValue(s, w);
    var b := Encode(PAYLOAD, v);
    PayloadIsLong(s, w);
    FileLength(b);
    FileReadsIff(b);
    WriteRead(PAYLOAD, v, []);
    assert b + [] == b;
    SavedCanInit(s, w);
    if Filed(s) { RawReads(s, w); }
  }

  /** A saved file is accepted if and only if no stored window is empty, no amount negative or
      without a unit, no string or collection over its bound, every envelope can be initialized
      again and the payload's length fits 32 bits. The save itself checks none of it. */
  lemma LoadAcceptsIff(s: State, w: Walk, reservations: seq<nat>, holds: seq<nat>)
    requires Ranged(s) && Walks(s, w) && Countable(w)
    ensures Load(Save(s, w), reservations, holds).Some? <==> Readable(s) && Bounded(w) && Openable(s) && Sized(Save(s, w))
  {
    hide Load, Save, Ranged, Readable, Walks, Bounded, Countable, Openable, Raw, Reapply, Filed;
    KeysStorable(s);
    LoadOfSave(s, w, reservations, holds);
  }

  lemma KeysStorable(s: State)
    requires Ranged(s)
    ensures s.resources.Keys == s.envelopes.Keys
  {
  }

  lemma FileLength(b: seq<Byte>)
    ensures |FileOf(b)| == FILE_HEADER + |b|
  {
  }

  /** Loading what was saved, with the maps walked in any order both times, gives back every
      record; the envelopes mirror it whether or not they did before. */
  lemma LoadRestores(s: State, w: Walk, reservations: seq<nat>, holds: seq<nat>)
    requires Struct(s) && Storable(s) && Walks(s, w) && Bounded(w) && Filed(s) && Openable(s) && Sized(Save(s, w))
    requires Visits(reservations, s.reservations.Keys) && Visits(holds, s.holds.Keys)
    ensures var t := Load(Save(s, w), reservations, holds);
            && t.Some? && t.value == Recovered(s).(envelopes := t.value.envelopes) && Mirror(t.value)
            && SameSpans(Raw(s), t.value)
  {
    hide Load, Save, Ranged, Readable, Walks, Filed, Openable, Reapply, Recovered, Raw, Mirror, Visits, SameSpans, Struct;
    KeysStorable(s);
    LoadOfSave(s, w, reservations, holds);
    ReapplyMirrors(s, reservations, holds);
  }

  // ---- when nothing but liveness changes ----

  /** Exactly the reservations whose lifecycle holds capacity are flagged. */
  ghost predicate FlagsMatch(s: State) {
    forall k :: k in s.reservations ==> (s.reservations[k].contributes <==> HoldsCapacity(s.reservations[k].lifecycle))
  }

  /** Each envelope is that of its resource, over its whole span. */
  ghost predicate Spanned(s: State) {
    && s.resources.Keys == s.envelopes.Keys
    && forall k :: k in s.resources ==>
                     var e, r := s.envelopes[k], s.resources[k];
                     && e.capacity == r.totalCapacity && e.unit == r.unit == e.capacity.unit && e.horizon > 0
                     && forall x :: x in e.levels <==> e.origin <= x < e.origin + e.horizon
  }

  /** No window was published as unavailable. */
  ghost predicate Uniform(s: State) {
    forall resource, x :: InSpan(s, resource, x) ==> LevelOf(s, resource, x).cap == s.envelopes[resource].capacity.value
  }

  lemma ReloadedSameWeight(r: Reservation)
    requires r.contributes <==> HoldsCapacity(r.lifecycle)
    ensures Reloaded(r) == Demoted(r) && SameWeight(r, Reloaded(r))
  {
    hide HoldsCapacity, IsLive;
    assert r.(contributes := r.contributes) == r;
  }

  lemma RawSpans(s: State)
    requires Spanned(s)
    ensures SameSpans(s, Raw(s))
    ensures forall resource, x :: InSpan(s, resource, x) ==> LevelOf(Raw(s), resource, x).cap == s.envelopes[resource].capacity.value
  {
    var raw := Raw(s);
    assert raw.envelopes.Keys == s.envelopes.Keys;
    forall k | k in s.envelopes ensures raw.envelopes[k] == s.envelopes[k].(levels := raw.envelopes[k].levels) && raw.envelopes[k].levels.Keys == s.envelopes[k].levels.Keys {
      assert raw.envelopes[k] == EmptyEnvelope(Stored(s)[k]);
    }
  }

  lemma RecoveredLevels(s: State, t: State)
    requires Mirror(s) && FlagsMatch(s) && Spanned(s)
    requires t == Recovered(s).(envelopes := t.envelopes) && Mirror(t) && SameSpans(Raw(s), t)
    requires forall resource, x :: InSpan(t, resource, x) ==> LevelOf(t, resource, x).cap == LevelOf(Raw(s), resource, x).cap
    ensures SameSpans(s, t)
    ensures forall resource, x :: InSpan(s, resource, x) ==> LevelOf(t, resource, x) == LevelOf(s, resource, x).(cap := s.envelopes[resource].capacity.value)
  {
    hide HardSum, SoftSum, HeldSum, Reloaded, SameWeight, NonEmpty, HoldsCapacity, Raw;
    RawSpans(s);
    forall k | k in s.reservations ensures SameWeight(s.reservations[k], t.reservations[k]) {
      ReloadedSameWeight(s.reservations[k]);
    }
    forall resource, x | InSpan(s, resource, x) ensures LevelOf(t, resource, x) == LevelOf(s, resource, x).(cap := s.envelopes[resource].capacity.value) {
      assert InSpan(Raw(s), resource, x) && InSpan(t, resource, x);
      assert MirrorAt(s, resource, x) && MirrorAt(t, resource, x);
      SameSums(s.reservations, t.reservations, resource, x);
    }
  }

  lemma EnvelopesEqualIff(s: State, t: State)
    requires SameSpans(s, t)
    requires forall resource, x :: InSpan(s, resource, x) ==> LevelOf(t, resource, x) == LevelOf(s, resource, x).(cap := s.envelopes[resource].capacity.value)
    ensures t.envelopes == s.envelopes <==> Uniform(s)
  {
    if Uniform(s) {
      forall k | k in s.envelopes ensures t.envelopes[k] == s.envelopes[k] {
        forall x | x in s.envelopes[k].levels ensures t.envelopes[k].levels[x] == s.envelopes[k].levels[x] {
          assert InSpan(s, k, x) && LevelOf(t, k, x) == LevelOf(s, k, x);
        }
        assert t.envelopes[k].levels == s.envelopes[k].levels;
      }
    }
    if t.envelopes == s.envelopes {
      forall resource, x | InSpan(s, resource, x) ensures LevelOf(s, resource, x).cap == s.envelopes[resource].capacity.value {
        assert LevelOf(t, resource, x) == LevelOf(s, resource, x);
      }
    }
  }

  /** Recovery: if the flags match the lifecycles and the envelopes mirrored the registry, load
      after save changes no record but live lifecycles, and gives back the envelopes exactly if
      and only if no unavailable window was published. */
  lemma RecoveryIsExact(s: State, w: Walk, reservations: seq<nat>, holds: seq<nat>)
    requires Struct(s) && Storable(s) && Walks(s, w) && Bounded(w) && Filed(s) && Sized(Save(s, w))
    requires Visits(reservations, s.reservations.Keys) && Visits(holds, s.holds.Keys)
    requires Mirror(s) && FlagsMatch(s) && Spanned(s)
    ensures var t := Load(Save(s, w), reservations, holds);
            && t.Some?
            && t.value == s.(config := DEFAULT_CONFIG, history := NonEmpty(s.history), envelopes := t.value.envelopes,
            reservations := map k | k in s.reservations :: Demoted(s.reservations[k]))
            && (t.value.envelopes == s.envelopes <==> Uniform(s))
  {
    hide Load, Save, Ranged, Readable, Walks, Filed, Openable, Reapply, Raw, Mirror, Visits, SameSpans, Struct, Demoted, Reloaded, Uniform, Spanned, HoldsCapacity, NonEmpty;
    KeysStorable(s);
    SpannedOpens(s);
    LoadOfSave(s, w, reservations, holds);
    ReapplyMirrors(s, reservations, holds);
    var t := Reapply(Raw(s), reservations, holds);
    RecoveredLevels(s, t);
    EnvelopesEqualIff(s, t);
    forall k | k in s.reservations ensures Reloaded(s.reservations[k]) == Demoted(s.reservations[k]) {
      ReloadedSameWeight(s.reservations[k]);
    }
    assert Recovered(s).reservations == map k | k in s.reservations :: Demoted(s.reservations[k]);
  }

  lemma SpannedOpens(s: State)
    requires Spanned(s)
    ensures Openable(s)
  {
  }

  // ---- the file operations ----

  method SaveFile(s: State, w: Walk) returns (file: seq<Byte>)
    requires Ranged(s) && Walks(s, w) && Countable(w)
    ensures file == Save(s, w)
  {
    hide Encode, Fits, Writable, LittleEndian, Crc.CrcFrom, Crc.Number, PAYLOAD, SavedValue;
    SavedFitsIff(s, w);
    var b := new ByteWriter();
    b.Put(PAYLOAD, SavedValue(s, w));
    assert b.buf == Encode(PAYLOAD, SavedValue(s, w));
    file := WriteFile(b.buf);
  }

  method WriteFile(payload: seq<Byte>) returns (file: seq<Byte>)
    ensures file == FileOf(payload)
  {
    hide LittleEndian, Crc.CrcFrom, Crc.Number;
    var crc := Crc.Crc32(payload, Crc.SEED);
    var f := new ByteWriter();
    f.U32(FILE_MAGIC);
    f.U8(FILE_VERSION);
    f.U32(|payload|);
    f.U32(Crc.Number(crc));
    Framing.WriteBytes(f, payload);
    file := f.buf;
  }

  /** What the magic and the version are as bytes. */
  predicate StartsAsOwn(file: seq<Byte>) {
    |file| >= 16 && file[..5] == [0x42, 0x41, 0x46, 0x52, 1]
  }

  lemma MagicIsFirst(file: seq<Byte>)
    requires |file| >= 16 && FromLittleEndian(file[..4]) == FILE_MAGIC && file[4] == FILE_VERSION
    ensures StartsAsOwn(file)
  {
    FourBytes(file[..4]);
    assert file[..5] == file[..4] + [file[4]];
  }

  lemma FourBytes(b: seq<Byte>)
    requires |b| == 4
    ensures FromLittleEndian(b) == b[0] as int + 0x100 * b[1] as int + 0x1_0000 * b[2] as int + 0x100_0000 * b[3] as int
  {
    var c, d, e := b[1..], b[2..], b[3..];
    assert c[1..] == d && d[1..] == e && e[1..] == [];
    assert FromLittleEndian(e) == b[3];
    assert FromLittleEndian(d) == b[2] as int + 0x100 * b[3] as int;
    assert FromLittleEndian(c) == b[1] as int + 0x100 * b[2] as int + 0x1_0000 * b[3] as int;
  }

  method ReadFile(file: seq<Byte>) returns (payload: Option<seq<Byte>>)
    ensures payload == PayloadOf(file)
    ensures payload.Some? ==> StartsAsOwn(file) && payload.value == file[13..]
  {
    hide FromLittleEndian, Crc.CrcFrom, Crc.Number;
    if |file| < FILE_HEADER {
      return None;
    }
    var r := new ByteReader(file);
    var magic := r.Fixed(4);
    var version := r.Fixed(1);
    var size := r.Fixed(4);
    var check := r.Fixed(4);
    FileFields(file);
    if magic.value != FILE_MAGIC {
      return None;
    }
    if version.value != FILE_VERSION {
      return None;
    }
    if size.value != |file| - FILE_HEADER || |file| - FILE_HEADER < 3 {
      return None;
    }
    var body := file[FILE_HEADER..];
    var crc := Crc.Crc32(body, Crc.SEED);
    if Crc.Number(crc) != check.value {
      return None;
    }
    MagicIsFirst(file);
    payload := Some(body);
  }

  /** Where the header reader finds its four fields. */
  lemma FileFields(b: seq<Byte>)
    requires |b| >= FILE_HEADER
    ensures b[0..][..4] == b[..4] && b[4..][..1] == [b[4]] && b[5..][..4] == b[5..9] && b[9..][..4] == b[9..13]
    ensures FromLittleEndian([b[4]]) == b[4]
  {
    assert forall x: Byte :: FromLittleEndian([x]) == x + 256 * FromLittleEndian([x][1..]);
  }

  method LoadFile(file: seq<Byte>, reservations: seq<nat>, holds: seq<nat>) returns (out: Option<State>)
    ensures out == Load(file, reservations, holds)
    ensures out.Some? ==> StartsAsOwn(file)
  {
    hide Decode, PayloadOf, PAYLOAD, RawState, CanInit, ResourceFrom, StartsAsOwn, Reapply, ListAt, FromLittleEndian, Check;
    var payload := ReadFile(file);
    if payload.None? {
      return None;
    }
    var p := new ByteReader(payload.value);
    var v := p.Get(PAYLOAD);
    assert payload.value[0..] == payload.value;
    if v.Failed? {
      return None;
    }
    var rest := p.Empty();
    if !rest {
      return None;
    }
    var stored := ListAt(v.value, 1);
    for i := 0 to |stored|
      invariant forall j :: 0 <= j < i ==> CanInit(ResourceFrom(stored[j]))
    {
      if !CanInit(ResourceFrom(stored[i])) {
        return None;
      }
    }
    var s := ReapplyAll(RawState(v.value), reservations, holds);
    out := Some(s);
  }

  method ReapplyAll(raw: State, reservations: seq<nat>, holds: seq<nat>) returns (s: State)
    ensures s == Reapply(raw, reservations, holds)
  {
    hide ReapplyReservation, ReapplyHold;
    s := raw;
    for i := 0 to |reservations|
      invariant s == Fold(raw, reservations[..i], (x: State, id: nat) => ReapplyReservation(x, id))
    {
      assert reservations[..i + 1][..i] == reservations[..i];
      s := ReapplyReservation(s, reservations[i]);
    }
    assert reservations[..|reservations|] == reservations;
    ghost var mid := s;
    for i := 0 to |holds|
      invariant s == Fold(mid, holds[..i], (x: State, id: nat) => ReapplyHold(x, id))
    {
      assert holds[..i + 1][..i] == holds[..i];
      s := ReapplyHold(s, holds[i]);
    }
    assert holds[..|holds|] == holds;
  }
}
