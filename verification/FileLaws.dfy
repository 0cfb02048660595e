/** Which bytes a saved file and a frame consist of, which bytes are accepted as one, and what a
    load makes of the records. */
module FileLaws {
  import opened Types
  import opened Levels
  import opened Codec
  import opened Records
  import opened Envelopes
  import opened Registry
  import opened Fencing
  import opened Mirrors
  import opened Persistence
  import opened Framing
  import opened EffectLaws
  import opened LayoutLaws
  import Crc

  /** Bytes read as a number are the bytes of that number. */
  lemma {:induction false} BytesOfNumber(b: seq<Byte>)
    ensures LittleEndian(FromLittleEndian(b), |b|) == b
    decreases |b|
  {
    if b != [] {
      var n := FromLittleEndian(b[1..]);
      assert (b[0] + 256 * n) % 256 == b[0] && (b[0] + 256 * n) / 256 == n;
      BytesOfNumber(b[1..]);
    }
  }

  /** Four bytes read as a number below the limit exactly when they are its bytes. */
  lemma FourReadIff(b: seq<Byte>, n: nat)
    requires |b| == 4 && n < U32_LIMIT
    ensures FromLittleEndian(b) == n <==> b == Four(n)
  {
    hide LittleEndian, FromLittleEndian;
    PowValues();
    FourIs(n);
    NumberRoundTrip(n, 4);
    BytesOfNumber(b);
  }

  /** The register run over the bytes from all ones, as a number. */
  function CrcOf(bytes: seq<Byte>): (n: nat)
    ensures n < U32_LIMIT
  {
    Crc.NumberBound(Crc.CrcFrom(0xFFFF_FFFF, bytes));
    Crc.Number(Crc.CrcFrom(0xFFFF_FFFF, bytes))
  }

  // ---- files ----

  /** The thirteen bytes before a payload: the magic, the version, the length and the check value. */
  function Seal(payload: seq<Byte>): seq<Byte> {
    [0x42, 0x41, 0x46, 0x52, 1] + Four(|payload|) + Four(CrcOf(payload))
  }

  lemma MagicBytes()
    ensures Four(FILE_MAGIC) == [0x42, 0x41, 0x46, 0x52] && FILE_MAGIC < U32_LIMIT && FILE_VERSION == 1
    ensures Four(FRAME_MAGIC) == [0x46, 0x42, 0x46, 0x52] && FRAME_MAGIC < U32_LIMIT && FRAME_VERSION == 1
  {
  }

  /** A file is accepted, with a payload, if and only if it is the seal of that payload followed by
      it, and the payload has at least three bytes and a length of four. */
  lemma AcceptedIffSealed(file: seq<Byte>, payload: seq<Byte>)
    ensures PayloadOf(file) == Some(payload) <==> 3 <= |payload| < U32_LIMIT && file == Seal(payload) + payload
  {
    hide FromLittleEndian, Crc.CrcFrom, Crc.Number, Four;
    MagicBytes();
    if |file| >= FILE_HEADER {
      var body := file[FILE_HEADER..];
      FourReadIff(file[..4], FILE_MAGIC);
      PowValues();
      NumberBound(file[5..9]);
      if |body| < U32_LIMIT { FourReadIff(file[5..9], |body|); }
      FourReadIff(file[9..13], CrcOf(body));
      assert file == file[..4] + [file[4]] + file[5..9] + file[9..13] + body;
    }
    FourLong(|payload|);
    FourLong(CrcOf(payload));
    if 3 <= |payload| < U32_LIMIT && file == Seal(payload) + payload {
      SealedParts(file, payload);
    }
  }

  lemma FourLong(n: nat)
    ensures |Four(n)| == 4
  {
  }

  lemma SealedParts(file: seq<Byte>, payload: seq<Byte>)
    requires file == Seal(payload) + payload
    ensures |file| == FILE_HEADER + |payload| && file[FILE_HEADER..] == payload && file[..4] == [0x42, 0x41, 0x46, 0x52] && file[4] == 1
    ensures file[5..9] == Four(|payload|) && file[9..13] == Four(CrcOf(payload))
  {
    hide Crc.CrcFrom, Crc.Number;
  }

  /** Whatever loads is sealed: it starts with the magic and the version, the length it states is
      that of the rest and the check value it states is that of the rest. */
  lemma LoadedIsSealed(file: seq<Byte>, reservations: seq<nat>, holds: seq<nat>)
    requires Load(file, reservations, holds).Some?
    ensures |file| >= 16 && file[..5] == [0x42, 0x41, 0x46, 0x52, 1]
    ensures file[5..9] == Four(|file| - 13) && |file| - 13 < U32_LIMIT && file[9..13] == Four(CrcOf(file[13..]))
  {
    hide PayloadOf, Decode, RawState, Reapply, AllCanInit, Four, CrcOf;
    var p := PayloadOf(file).value;
    AcceptedIffSealed(file, p);
    FourLong(|p|);
    FourLong(CrcOf(p));
    SealedParts(file, p);
    assert file[..5] == file[..4] + [file[4]];
  }

  /** The payload of a file that loads is one value of the layout and nothing after it, and each
      of its resources has a capacity in its own unit, unless it has none, and a span. */
  lemma LoadedIff(file: seq<Byte>, reservations: seq<nat>, holds: seq<nat>)
    ensures Load(file, reservations, holds).Some? <==>
            |file| >= 13 && PayloadOf(file) == Some(file[13..])
            && exists v: Value :: Decode(PAYLOAD, file[13..]) == Parsed(v, |file| - 13) && Usable(ListAt(v, 1))
  {
    hide Decode, PAYLOAD, RawState, Reapply, Crc.CrcFrom, Crc.Number, FromLittleEndian, CanInit, ResourceFrom;
    if PayloadOf(file).Some? {
      var r := Decode(PAYLOAD, file[13..]);
      if r.Parsed? { UsableIff(ListAt(r.value, 1)); }
    }
  }

  predicate Usable(vs: seq<Value>) {
    forall i :: 0 <= i < |vs| ==>
                  var x := ResourceFrom(vs[i]);
                  (x.resource.unit == 0 || x.resource.totalCapacity.unit == x.resource.unit) && x.horizon >= 1
  }

  lemma UsableIff(vs: seq<Value>)
    ensures Usable(vs) <==> AllCanInit(vs)
  {
    hide ResourceFrom;
  }

  /** Under any other thirteen bytes the payload of a saved file is refused. */
  lemma OtherHeadIsRejected(payload: seq<Byte>, head: seq<Byte>, reservations: seq<nat>, holds: seq<nat>)
    requires |head| == 13 && head != FileOf(payload)[..13] && |payload| < U32_LIMIT
    ensures PayloadOf(head + payload).None? && Load(head + payload, reservations, holds).None?
  {
    hide PayloadOf, FileOf, Decode, RawState, Reapply, AllCanInit, Four, CrcOf;
    var file := head + payload;
    SealIsHead(payload);
    if PayloadOf(file).Some? {
      var p := PayloadOf(file).value;
      AcceptedIffSealed(file, p);
      FourLong(|p|);
      FourLong(CrcOf(p));
      SealedParts(file, p);
    }
  }

  /** What is written before a payload is its seal. */
  lemma SealIsHead(payload: seq<Byte>)
    requires |payload| < U32_LIMIT
    ensures FileOf(payload) == Seal(payload) + payload && |Seal(payload)| == 13 && FileOf(payload)[..13] == Seal(payload)
  {
    hide LittleEndian, Four, Crc.CrcFrom, Crc.Number;
    MagicBytes();
    FourIs(FILE_MAGIC);
    FourIs(|payload|);
    FourIs(CrcOf(payload));
    FourLong(|payload|);
    FourLong(CrcOf(payload));
  }

  // ---- frames ----

  /** The bytes of a frame: magic, version, type, length, check value, payload. */
  function FrameBytes(f: Frame): seq<Byte> {
    [0x46, 0x42, 0x46, 0x52, 1, f.kind] + Four(|f.payload|) + Four(CrcOf([f.kind] + f.payload)) + f.payload
  }

  /** What is sent are these bytes. */
  lemma SentBytes(f: Frame)
    requires |f.payload| <= 0x10_0000
    ensures Sendable(f) && EncodeFrame(f) == FrameBytes(f)
  {
    hide LittleEndian, Four, Crc.CrcFrom, Crc.Number;
    MagicBytes();
    FourIs(FRAME_MAGIC);
    FourIs(|f.payload|);
    FourIs(Checksum(f));
  }

  lemma FrameParts(b: seq<Byte>, f: Frame)
    requires FrameBytes(f) <= b
    ensures |FrameBytes(f)| == 14 + |f.payload| && b[..4] == [0x46, 0x42, 0x46, 0x52] && b[4] == 1 && b[5] == f.kind
    ensures b[6..10] == Four(|f.payload|) && b[10..14] == Four(CrcOf([f.kind] + f.payload)) && b[14..14 + |f.payload|] == f.payload
  {
    hide Crc.CrcFrom, Crc.Number, Four;
    FourLong(|f.payload|);
    FourLong(CrcOf([f.kind] + f.payload));
    var c := FrameBytes(f);
    assert b[..|c|] == c;
    assert b[..4] == c[..4] && b[6..10] == c[6..10] && b[10..14] == c[10..14] && b[14..14 + |f.payload|] == c[14..];
  }

  /** The decoder takes a frame off the buffer if and only if the buffer starts with the bytes of
      that frame and its payload is within the bound. */
  lemma FoundIff(b: seq<Byte>, f: Frame, used: nat)
    ensures ScanFrame(b) == Found(f, used) <==> |f.payload| <= 0x10_0000 && used == 14 + |f.payload| && FrameBytes(f) <= b
  {
    hide FromLittleEndian, Crc.CrcFrom, Crc.Number, Four;
    MagicBytes();
    if |f.payload| <= 0x10_0000 && FrameBytes(f) <= b { FrameParts(b, f); }
    if |b| >= 14 {
      PowValues();
      NumberBound(b[6..10]);
      NumberBound(b[10..14]);
      FourReadIff(b[..4], FRAME_MAGIC);
      FourReadIff(b[6..10], FromLittleEndian(b[6..10]));
      FourReadIff(b[10..14], FromLittleEndian(b[10..14]));
      if |f.payload| < U32_LIMIT { FourReadIff(b[6..10], |f.payload|); }
      FourReadIff(b[10..14], CrcOf([f.kind] + f.payload));
      if ScanFrame(b) == Found(f, used) {
        assert FrameBytes(f) == b[..used];
      }
    }
  }

  /** It waits if and only if less than a header has come, or the magic, the version and the length
      are right and the payload has not all come; in every other case the stream is broken. */
  lemma WaitsIff(b: seq<Byte>)
    ensures ScanFrame(b) == NeedMore <==>
            |b| < 14 || (b[..5] == [0x46, 0x42, 0x46, 0x52, 1]
                         && exists size: nat :: size <= 0x10_0000 && b[6..10] == Four(size) && |b| < 14 + size)
  {
    hide FromLittleEndian, Crc.CrcFrom, Crc.Number, Four;
    if |b| >= 14 {
      MagicBytes();
      FourReadIff(b[..4], FRAME_MAGIC);
      assert b[..5] == b[..4] + [b[4]];
      var n := FromLittleEndian(b[6..10]);
      PowValues();
      NumberBound(b[6..10]);
      FourReadIff(b[6..10], n);
      forall size: nat | size <= 0x10_0000 && b[6..10] == Four(size) ensures size == n {
        FourReadIff(b[6..10], size);
      }
    }
  }

  // ---- what is saved ----

  /** A count and what it counts. */
  function Listed(parts: seq<seq<Byte>>): seq<Byte> {
    Four(|parts|) + Joined(parts)
  }

  function PairBytes(k: nat, v: nat): seq<Byte> {
    Joined([Eight(k), Eight(v)])
  }

  function PastBytes(k: nat, h: seq<Reservation>): seq<Byte> {
    Joined([Eight(k), Listed(seq(|h|, i requires 0 <= i < |h| => Joined(ReservationParts(h[i]))))])
  }

  /** The entries of a map in the order they are walked. */
  function Along<T>(order: seq<nat>, m: map<nat, T>, bytes: (nat, T) -> seq<Byte>): seq<seq<Byte>>
    requires forall k :: k in order ==> k in m
  {
    seq(|order|, i requires 0 <= i < |order| => bytes(order[i], m[order[i]]))
  }

  lemma AlongWrites<T>(order: seq<nat>, m: map<nat, T>, write: (nat, T) -> Value, item: Kind, bytes: (nat, T) -> seq<Byte>)
    requires (forall k :: k in order ==> k in m) && |order| < U32_LIMIT
    requires forall k :: k in m ==> Writes(item, write(k, m[k]), bytes(k, m[k]))
    ensures Writes(KList(MAX_COLLECTION, item), VList(Entries(order, m, write)), Listed(Along(order, m, bytes)))
  {
    hide Writes, Four, Joined;
    forall j | 0 <= j < |order| ensures Writes(item, Entries(order, m, write)[j], Along(order, m, bytes)[j]) {
      assert order[j] in order;
    }
    ListWrites(MAX_COLLECTION, item, Entries(order, m, write), Along(order, m, bytes));
  }

  lemma PairWrites(k: nat, v: nat)
    requires U64(k) && U64(v)
    ensures Writes(PAIR, PairValue(k, v), PairBytes(k, v))
  {
    hide Writes, Eight, Joined;
    WriteU64(k);
    WriteU64(v);
    RecordWrites(PAIR, PairValue(k, v).fields, [Eight(k), Eight(v)]);
  }

  lemma PastWrites(k: nat, h: seq<Reservation>)
    requires U64(k) && |h| < U32_LIMIT && forall r :: r in h ==> ReservationRanged(r)
    ensures Writes(PAST, PastValue(k, h), PastBytes(k, h))
  {
    hide Writes, Eight, Four, Joined, ReservationParts, ReservationValue, RESERVATION, ReservationRanged;
    var parts := seq(|h|, i requires 0 <= i < |h| => Joined(ReservationParts(h[i])));
    forall j | 0 <= j < |h| ensures Writes(RESERVATION, Reservations(h)[j], parts[j]) {
      assert h[j] in h;
      ReservationWrites(h[j]);
    }
    WriteU64(k);
    ListWrites(MAX_COLLECTION, RESERVATION, Reservations(h), parts);
    RecordWrites(PAST, PastValue(k, h).fields, [Eight(k), Listed(parts)]);
  }

  function CounterParts(s: State): seq<seq<Byte>> {
    [Eight(s.epoch), Eight(s.authority), Eight(s.nextReservationId), Eight(s.nextHoldId), Eight(s.nextSetId)]
  }

  lemma CountersWrite(s: State)
    requires U64(s.epoch) && U64(s.authority) && U64(s.nextReservationId) && U64(s.nextHoldId) && U64(s.nextSetId)
    ensures Writes(PAYLOAD.fields[0], CountersValue(s), Joined(CounterParts(s)))
  {
    hide Writes, Eight, Joined;
    WriteU64(s.epoch);
    WriteU64(s.authority);
    WriteU64(s.nextReservationId);
    WriteU64(s.nextHoldId);
    WriteU64(s.nextSetId);
    RecordWrites(PAYLOAD.fields[0], CountersValue(s).fields, CounterParts(s));
  }

  /** The registry in bytes: counters, resources with the spans of their envelopes, boots, requests,
      reservations, generations, histories, holds, sets. */
  function RegistryParts(s: State, w: Walk): seq<seq<Byte>>
    requires s.resources.Keys == s.envelopes.Keys && Walks(s, w)
  {
    [Joined(CounterParts(s)),
     Listed(Along(w.resources, Stored(s), (k: nat, x: StoredResource) => Joined(ResourceParts(x)))),
     Listed(Along(w.boots, s.workerBoots, PairBytes)),
     Listed(Along(w.requests, s.requests, PairBytes)),
     Listed(Along(w.reservations, s.reservations, (k: nat, r: Reservation) => Joined(ReservationParts(r)))),
     Listed(Along(w.generations, s.currentGen, PairBytes)),
     Listed(Along(w.history, s.history, PastBytes)),
     Listed(Along(w.holds, s.holds, (k: nat, h: Hold) => Joined(HoldParts(h)))),
     Listed(Along(w.sets, s.sets, (k: nat, x: ReservationSet) => Joined(SetParts(x))))]
  }

  lemma RecordListsWrite(s: State, w: Walk)
    requires Ranged(s) && Walks(s, w) && Countable(w)
    ensures var f, v, p := PAYLOAD.fields, SavedValue(s, w).fields, RegistryParts(s, w);
            Writes(f[1], v[1], p[1]) && Writes(f[4], v[4], p[4])
  {
    hide Writes, Four, Eight, Joined, ResourceParts, ReservationParts, HoldParts, SetParts, CounterParts, PairBytes, PastBytes, Listed, Along, Entries,
         RESOURCE, RESERVATION, HOLD, SET, PAIR, PAST, CountersValue, ResourceRanged, ReservationRanged, HoldRanged, SetRanged, U64;
    forall k | k in s.resources ensures Writes(RESOURCE, WriteResource(k, Stored(s)[k]), Joined(ResourceParts(Stored(s)[k]))) {
      ResourceWrites(Stored(s)[k]);
    }
    AlongWrites(w.resources, Stored(s), WriteResource, RESOURCE, (k: nat, x: StoredResource) => Joined(ResourceParts(x)));
    forall k | k in s.reservations ensures Writes(RESERVATION, WriteReservation(k, s.reservations[k]), Joined(ReservationParts(s.reservations[k]))) {
      ReservationWrites(s.reservations[k]);
    }
    AlongWrites(w.reservations, s.reservations, WriteReservation, RESERVATION, (k: nat, r: Reservation) => Joined(ReservationParts(r)));
  }

  lemma HoldListsWrite(s: State, w: Walk)
    requires Ranged(s) && Walks(s, w) && Countable(w)
    ensures var f, v, p := PAYLOAD.fields, SavedValue(s, w).fields, RegistryParts(s, w);
            Writes(f[6], v[6], p[6]) && Writes(f[7], v[7], p[7]) && Writes(f[8], v[8], p[8])
  {
    hide Writes, Four, Eight, Joined, ResourceParts, ReservationParts, HoldParts, SetParts, CounterParts, PairBytes, PastBytes, Listed, Along, Entries,
         RESOURCE, RESERVATION, HOLD, SET, PAIR, PAST, CountersValue, ResourceRanged, ReservationRanged, HoldRanged, SetRanged;
    forall k | k in s.history ensures Writes(PAST, PastValue(k, s.history[k]), PastBytes(k, s.history[k])) {
      PastWrites(k, s.history[k]);
    }
    AlongWrites(w.history, s.history, PastValue, PAST, PastBytes);
    forall k | k in s.holds ensures Writes(HOLD, WriteHold(k, s.holds[k]), Joined(HoldParts(s.holds[k]))) {
      HoldWrites(s.holds[k]);
    }
    AlongWrites(w.holds, s.holds, WriteHold, HOLD, (k: nat, h: Hold) => Joined(HoldParts(h)));
    forall k | k in s.sets ensures Writes(SET, WriteSet(k, s.sets[k]), Joined(SetParts(s.sets[k]))) {
      SetWrites(s.sets[k]);
    }
    AlongWrites(w.sets, s.sets, WriteSet, SET, (k: nat, x: ReservationSet) => Joined(SetParts(x)));
  }

  lemma PairsWrite(order: seq<nat>, m: map<nat, nat>)
    requires SameKeys(order, m) && |order| < U32_LIMIT && forall k :: k in m ==> U64(k) && U64(m[k])
    ensures Writes(KList(MAX_COLLECTION, PAIR), VList(Entries(order, m, PairValue)), Listed(Along(order, m, PairBytes)))
  {
    hide Writes, PairValue, PairBytes, PAIR, Listed;
    forall k | k in m ensures Writes(PAIR, PairValue(k, m[k]), PairBytes(k, m[k])) {
      PairWrites(k, m[k]);
    }
    AlongWrites(order, m, PairValue, PAIR, PairBytes);
  }

  lemma PairListsWrite(s: State, w: Walk)
    requires Ranged(s) && Walks(s, w) && Countable(w)
    ensures var f, v, p := PAYLOAD.fields, SavedValue(s, w).fields, RegistryParts(s, w);
            Writes(f[0], v[0], p[0]) && Writes(f[2], v[2], p[2]) && Writes(f[3], v[3], p[3]) && Writes(f[5], v[5], p[5])
  {
    hide Writes, Four, Eight, Joined, ResourceParts, ReservationParts, HoldParts, SetParts, CounterParts, PairBytes, PastBytes, Listed, Along, Entries,
         RESOURCE, RESERVATION, HOLD, SET, PAIR, PAST, CountersValue, ResourceRanged, ReservationRanged, HoldRanged, SetRanged, U64;
    CountersWrite(s);
    PairsWrite(w.boots, s.workerBoots);
    PairsWrite(w.requests, s.requests);
    PairsWrite(w.generations, s.currentGen);
  }

  /** A registry is saved as its seal followed by exactly these bytes. */
  lemma SavedBytes(s: State, w: Walk)
    requires Ranged(s) && Walks(s, w) && Countable(w)
    ensures |Joined(RegistryParts(s, w))| < U32_LIMIT ==> Save(s, w) == Seal(Joined(RegistryParts(s, w))) + Joined(RegistryParts(s, w))
    ensures Save(s, w)[13..] == Joined(RegistryParts(s, w))
  {
    hide Ranged, Walks, Countable, RegistryParts, Joined, SavedValue, FileOf, Encode, Writes, Seal;
    KeysStorable(s);
    RegistryWrites(s, w);
    var p := Joined(RegistryParts(s, w));
    WrittenIs(PAYLOAD, SavedValue(s, w), p);
    if |p| < U32_LIMIT { SealIsHead(p); }
    PayloadIsRest(p);
  }

  lemma WrittenIs(k: Kind, v: Value, part: seq<Byte>)
    requires Writes(k, v, part)
    ensures Writable(k, v) && Encode(k, v) == part
  {
  }

  lemma PayloadIsRest(payload: seq<Byte>)
    ensures |FileOf(payload)| >= 13 && FileOf(payload)[13..] == payload
  {
  }

  lemma RegistryWrites(s: State, w: Walk)
    requires Ranged(s) && Walks(s, w) && Countable(w)
    ensures Writes(PAYLOAD, SavedValue(s, w), Joined(RegistryParts(s, w)))
  {
    hide Ranged, Walks, Countable, Writes, Joined, PAYLOAD, CounterParts, Listed, Along, Entries, CountersValue, Stored;
    KeysStorable(s);
    RecordListsWrite(s, w);
    HoldListsWrite(s, w);
    PairListsWrite(s, w);
    PayloadFields();
    RecordWrites(PAYLOAD, SavedValue(s, w).fields, RegistryParts(s, w));
  }

  // ---- what is loaded ----

  /** The envelope of a resource has its capacity and the span and ratio it had, at full capacity
      throughout. */
  ghost predicate Reopened(e: Envelope, old_: Envelope, r: Resource) {
    && e.capacity == r.totalCapacity && e.unit == e.capacity.unit
    && e.origin == old_.origin && e.horizon == old_.horizon && e.ratio == old_.ratio
    && (forall x :: x in e.levels <==> old_.origin <= x < old_.origin + old_.horizon)
    && forall x :: x in e.levels ==> e.levels[x].cap == e.capacity.value
  }

  ghost predicate AllReopened(s: State, t: State)
    requires s.resources.Keys == s.envelopes.Keys
  {
    t.envelopes.Keys == s.resources.Keys && forall k :: k in s.resources ==> Reopened(t.envelopes[k], s.envelopes[k], s.resources[k])
  }

  lemma RawOpens(s: State, t: State)
    requires s.resources.Keys == s.envelopes.Keys && SameSpans(Raw(s), t)
    requires forall resource, x :: InSpan(t, resource, x) ==> LevelOf(t, resource, x).cap == LevelOf(Raw(s), resource, x).cap
    ensures AllReopened(s, t)
  {
    hide Reopened;
    var raw := Raw(s);
    assert raw.envelopes.Keys == s.resources.Keys;
    forall k | k in s.resources ensures Reopened(t.envelopes[k], s.envelopes[k], s.resources[k]) {
      forall x | x in t.envelopes[k].levels ensures x in raw.envelopes[k].levels && t.envelopes[k].levels[x].cap == raw.envelopes[k].levels[x].cap {
        assert InSpan(t, k, x);
      }
      OneReopened(Stored(s)[k], t.envelopes[k], s.envelopes[k]);
    }
  }

  lemma OneReopened(x: StoredResource, e: Envelope, old_: Envelope)
    requires x.origin == old_.origin && x.horizon == old_.horizon && x.ratio == old_.ratio
    requires e == EmptyEnvelope(x).(levels := e.levels) && e.levels.Keys == EmptyEnvelope(x).levels.Keys
    requires forall i :: i in e.levels ==> e.levels[i].cap == EmptyEnvelope(x).levels[i].cap
    ensures Reopened(e, old_, x.resource)
  {
    assert forall i :: i in e.levels.Keys <==> i in EmptyEnvelope(x).levels.Keys;
  }

  /** Every record comes back, with three differences: a reservation is flagged exactly when its
      lifecycle holds capacity, one that was live must be revalidated, and empty histories are gone.
      The configuration is the default one. */
  ghost predicate ComesBackAs(s: State, t: State) {
    && t == s.(config := t.config, envelopes := t.envelopes, history := t.history, reservations := t.reservations)
    && t.config.maxHistory == 64 && t.config.maxHolds == 256 && t.config.horizon == 31_536_000_000_000_000
    && t.reservations.Keys == s.reservations.Keys
    && (forall k :: k in s.reservations ==>
                      var r := s.reservations[k];
                      t.reservations[k] == r.(contributes := Occupies(r.lifecycle),
                      lifecycle := if 9 <= r.lifecycle <= 11 then REVALIDATION_REQUIRED else r.lifecycle))
    && (forall k :: k in t.history <==> k in s.history && |s.history[k]| > 0)
    && forall k :: k in t.history ==> t.history[k] == s.history[k]
  }

  /** A saved registry comes back so, and its levels are what the flagged reservations and applied
      holds weigh. */
  lemma LoadedLaw(s: State, w: Walk, reservations: seq<nat>, holds: seq<nat>)
    requires Struct(s) && Storable(s) && Walks(s, w) && Bounded(w) && Filed(s) && Openable(s) && Sized(Save(s, w))
    requires Visits(reservations, s.reservations.Keys) && Visits(holds, s.holds.Keys)
    ensures var t := Load(Save(s, w), reservations, holds);
            t.Some? && ComesBackAs(s, t.value) && AllReopened(s, t.value) && Mirror(t.value)
  {
    hide Load, Save, Ranged, Readable, Walks, Filed, Openable, Reapply, Recovered, Raw, Mirror, Visits, SameSpans, Struct, AllReopened, ComesBackAs;
    KeysStorable(s);
    LoadOfSave(s, w, reservations, holds);
    ReapplyMirrors(s, reservations, holds);
    var t := Reapply(Raw(s), reservations, holds);
    RawOpens(s, t);
    RecoveredIs(s);
    OtherLevels(s, Recovered(s), t);
  }

  lemma RecoveredIs(s: State)
    ensures ComesBackAs(s, Recovered(s))
  {
    hide HoldsCapacity, Occupies;
    Codes();
  }

  lemma OtherLevels(s: State, t: State, u: State)
    requires ComesBackAs(s, t) && u == t.(envelopes := u.envelopes)
    ensures ComesBackAs(s, u)
  {
    hide Occupies;
  }
}
