/** The binary codec: fixed-width little-endian numbers, length-prefixed strings and lists,
    flagged options. A record's layout is a `Kind`; what it holds is a `Value`. */
module Codec {
  import opened Types

  const MAX_STRING: nat := 0x10_0000
  const U32_LIMIT: nat := 0x1_0000_0000
  const U64_LIMIT: nat := 0x1_0000_0000_0000_0000

  datatype Kind =
    | KByte
    | KBool
    | KU32
    | KU64
    | KI64
    | KI32                                // a 32-bit field written as 64 bits, truncated when read
    | KQuantity                           // value and unit; negative or unitless is corrupt
    | KWindow                             // start and end; an empty interval is corrupt
    | KText
    | KOption(strict: bool, some: Kind)   // strict: flag 1 means present; otherwise any non-zero flag
    | KList(bound: nat, item: Kind)       // a larger count than `bound` is corrupt
    | KRecord(fields: seq<Kind>)

  datatype Value =
    | VNum(num: int)
    | VQuantity(quantity: Quantity)
    | VWindow(window: Interval)
    | VText(text: seq<Byte>)
    | VNone
    | VSome(value: Value)
    | VList(items: seq<Value>)
    | VRecord(fields: seq<Value>)

  datatype Error = Truncated | Corrupt

  datatype Parsed<+T> = Parsed(value: T, used: nat) | Failed(error: Error)

  // ---- numbers ----

  function Pow256(w: nat): nat {
    if w == 0 then 1 else 256 * Pow256(w - 1)
  }

  function LittleEndian(n: nat, w: nat): (b: seq<Byte>)
    ensures |b| == w
  {
    if w == 0 then [] else [n % 256] + LittleEndian(n / 256, w - 1)
  }

  function FromLittleEndian(b: seq<Byte>): nat {
    if b == [] then 0 else b[0] + 256 * FromLittleEndian(b[1..])
  }

  /** Two's complement. */
  function Unsigned64(n: int): nat {
    n % U64_LIMIT
  }

  function Signed64(n: nat): int {
    if n < U64_LIMIT / 2 then n else n - U64_LIMIT
  }

  /** Truncation to a signed 32-bit field. */
  function Truncated32(n: int): int {
    var m := n % U32_LIMIT;
    if m < U32_LIMIT / 2 then m else m - U32_LIMIT
  }

  predicate IsI64(n: int) {
    -0x8000_0000_0000_0000 <= n < 0x8000_0000_0000_0000
  }

  predicate IsI32(n: int) {
    -0x8000_0000 <= n < 0x8000_0000
  }

  lemma {:induction false} PowStep(w: nat)
    ensures Pow256(w) >= 1 && Pow256(w + 1) == 256 * Pow256(w)
  {
    if w > 0 { PowStep(w - 1); }
  }

  lemma PowValues()
    ensures Pow256(4) == U32_LIMIT && Pow256(8) == U64_LIMIT
  {
    assert Pow256(4) == 256 * 256 * 256 * 256;
    assert Pow256(8) == 256 * 256 * 256 * 256 * Pow256(4);
  }

  lemma {:induction false} NumberRoundTrip(n: nat, w: nat)
    requires n < Pow256(w)
    ensures FromLittleEndian(LittleEndian(n, w)) == n
  {
    if w > 0 {
      assert n / 256 < Pow256(w - 1);
      NumberRoundTrip(n / 256, w - 1);
      assert LittleEndian(n, w)[1..] == LittleEndian(n / 256, w - 1);
    }
  }

  lemma {:induction false} NumberBound(b: seq<Byte>)
    ensures FromLittleEndian(b) < Pow256(|b|)
    decreases |b|
  {
    if b != [] { NumberBound(b[1..]); }
  }

  lemma SignedRoundTrip(n: int)
    requires IsI64(n)
    ensures Unsigned64(n) < U64_LIMIT && Signed64(Unsigned64(n)) == n
  {
  }

  // ---- what a layout can be written with, and what it can hold ----

  /** What the field types admit. The writer checks nothing: a window may be empty, a quantity
      negative, a string or list of any countable length. */
  predicate Writable(k: Kind, v: Value)
    decreases k, 1, 0
  {
    match k
    case KByte => v.VNum? && 0 <= v.num < 256
    case KBool => v.VNum? && (v.num == 0 || v.num == 1)
    case KU32 => v.VNum? && 0 <= v.num < U32_LIMIT
    case KU64 => v.VNum? && 0 <= v.num < U64_LIMIT
    case KI64 => v.VNum? && IsI64(v.num)
    case KI32 => v.VNum? && IsI32(v.num)
    case KQuantity => v.VQuantity? && IsI64(v.quantity.value)
    case KWindow => v.VWindow? && IsI64(v.window.start) && IsI64(v.window.end)
    case KText => v.VText? && |v.text| < U32_LIMIT
    case KOption(_, some) => v.VNone? || (v.VSome? && Writable(some, v.value))
    case KList(_, item) => v.VList? && |v.items| < U32_LIMIT && ItemsWritable(item, v.items)
    case KRecord(_) => v.VRecord? && |v.fields| == |k.fields| && FieldsWritable(k, v.fields, 0)
  }

  predicate ItemsWritable(item: Kind, items: seq<Value>)
    decreases item, 2, |items|
  {
    items != [] ==> Writable(item, items[0]) && ItemsWritable(item, items[1..])
  }

  predicate FieldsWritable(k: Kind, vs: seq<Value>, i: nat)
    requires k.KRecord? && |vs| == |k.fields| && i <= |vs|
    decreases k, 0, |vs| - i
  {
    i < |vs| ==> Writable(k.fields[i], vs[i]) && FieldsWritable(k, vs, i + 1)
  }

  /** What a reader accepts. */
  predicate Fits(k: Kind, v: Value): (b: bool)
    ensures b ==> Writable(k, v)
    decreases k, 1, 0
  {
    match k
    case KQuantity => Writable(k, v) && 0 <= v.quantity.value && v.quantity.unit != UNIT_NONE
    case KWindow => Writable(k, v) && v.window.start < v.window.end
    case KText => Writable(k, v) && |v.text| <= MAX_STRING
    case KOption(_, some) => v.VNone? || (v.VSome? && Fits(some, v.value))
    case KList(bound, item) => v.VList? && |v.items| <= bound && |v.items| < U32_LIMIT && ItemsFit(item, v.items)
    case KRecord(_) => v.VRecord? && |v.fields| == |k.fields| && FieldsFit(k, v.fields, 0)
    case _ => Writable(k, v)
  }

  predicate ItemsFit(item: Kind, items: seq<Value>): (b: bool)
    ensures b ==> ItemsWritable(item, items)
    decreases item, 2, |items|
  {
    items != [] ==> Fits(item, items[0]) && ItemsFit(item, items[1..])
  }

  predicate FieldsFit(k: Kind, vs: seq<Value>, i: nat): (b: bool)
    requires k.KRecord? && |vs| == |k.fields| && i <= |vs|
    ensures b ==> FieldsWritable(k, vs, i)
    decreases k, 0, |vs| - i
  {
    i < |vs| ==> Fits(k.fields[i], vs[i]) && FieldsFit(k, vs, i + 1)
  }

  // ---- writing ----

  function Encode(k: Kind, v: Value): seq<Byte>
    requires Writable(k, v)
    decreases k, 1, 0
  {
    match k
    case KByte => [v.num]
    case KBool => [v.num]
    case KU32 => LittleEndian(v.num, 4)
    case KU64 => LittleEndian(v.num, 8)
    case KI64 => LittleEndian(Unsigned64(v.num), 8)
    case KI32 => LittleEndian(Unsigned64(v.num), 8)
    case KQuantity => LittleEndian(Unsigned64(v.quantity.value), 8) + [v.quantity.unit]
    case KWindow => LittleEndian(Unsigned64(v.window.start), 8) + LittleEndian(Unsigned64(v.window.end), 8)
    case KText => LittleEndian(|v.text|, 4) + v.text
    case KOption(_, some) => if v.VNone? then [0] else [1] + Encode(some, v.value)
    case KList(_, item) => LittleEndian(|v.items|, 4) + EncodeItems(item, v.items)
    case KRecord(_) => EncodeFields(k, v.fields, 0)
  }

  function EncodeItems(item: Kind, items: seq<Value>): seq<Byte>
    requires ItemsWritable(item, items)
    decreases item, 2, |items|
  {
    if items == [] then [] else Encode(item, items[0]) + EncodeItems(item, items[1..])
  }

  function EncodeFields(k: Kind, vs: seq<Value>, i: nat): seq<Byte>
    requires k.KRecord? && |vs| == |k.fields| && i <= |vs| && FieldsWritable(k, vs, i)
    decreases k, 0, |vs| - i
  {
    if i == |vs| then [] else Encode(k.fields[i], vs[i]) + EncodeFields(k, vs, i + 1)
  }

  // ---- reading ----

  function Number(b: seq<Byte>, w: nat): (r: Parsed<nat>)
    ensures r.Parsed? ==> r.used == w <= |b| && r.value == FromLittleEndian(b[..w])
  {
    if |b| < w then Failed(Truncated) else Parsed(FromLittleEndian(b[..w]), w)
  }

  function Num(r: Parsed<nat>): Parsed<Value> {
    if r.Failed? then Failed(r.error) else Parsed(VNum(r.value), r.used)
  }

  function Decode(k: Kind, b: seq<Byte>): (r: Parsed<Value>)
    ensures r.Parsed? ==> r.used <= |b|
    decreases k, 1, 0
  {
    match k
    case KByte => Num(Number(b, 1))
    case KBool =>
      var r := Number(b, 1);
      if r.Failed? then Failed(r.error) else Parsed(VNum(if r.value != 0 then 1 else 0), 1)
    case KU32 => Num(Number(b, 4))
    case KU64 => Num(Number(b, 8))
    case KI64 =>
      var r := Number(b, 8);
      if r.Failed? then Failed(r.error) else Parsed(VNum(Signed64(r.value)), 8)
    case KI32 =>
      var r := Number(b, 8);
      if r.Failed? then Failed(r.error) else Parsed(VNum(Truncated32(Signed64(r.value))), 8)
    case KQuantity =>
      if |b| < 9 then Failed(Truncated)
      else
        var value := Signed64(FromLittleEndian(b[..8]));
        if value < 0 || b[8] == UNIT_NONE then Failed(Corrupt) else Parsed(VQuantity(Quantity(value, b[8])), 9)
    case KWindow =>
      if |b| < 16 then Failed(Truncated)
      else
        var w := Interval(Signed64(FromLittleEndian(b[..8])), Signed64(FromLittleEndian(b[8..16])));
        if w.end <= w.start then Failed(Corrupt) else Parsed(VWindow(w), 16)
    case KText =>
      var r := Number(b, 4);
      if r.Failed? then Failed(r.error)
      else if r.value > MAX_STRING then Failed(Corrupt)
      else if |b| < 4 + r.value then Failed(Truncated)
      else Parsed(VText(b[4..4 + r.value]), 4 + r.value)
    case KOption(strict, some) =>
      if |b| < 1 then Failed(Truncated)
      else if (if strict then b[0] == 1 else b[0] != 0) then
        var r := Decode(some, b[1..]);
        if r.Failed? then r else Parsed(VSome(r.value), 1 + r.used)
      else Parsed(VNone, 1)
    case KList(bound, item) =>
      var n := Number(b, 4);
      if n.Failed? then Failed(n.error)
      else if n.value > bound then Failed(Corrupt)
      else
        var r := DecodeItems(item, n.value, b[4..]);
        if r.Failed? then Failed(r.error) else Parsed(VList(r.value), 4 + r.used)
    case KRecord(_) =>
      var r := DecodeFields(k, 0, b);
      if r.Failed? then Failed(r.error) else Parsed(VRecord(r.value), r.used)
  }

  function DecodeItems(item: Kind, n: nat, b: seq<Byte>): (r: Parsed<seq<Value>>)
    ensures r.Parsed? ==> r.used <= |b| && |r.value| == n
    decreases item, 2, n
  {
    if n == 0 then Parsed([], 0)
    else
      var first := Decode(item, b);
      if first.Failed? then Failed(first.error)
      else
        var rest := DecodeItems(item, n - 1, b[first.used..]);
        if rest.Failed? then rest else Parsed([first.value] + rest.value, first.used + rest.used)
  }

  function DecodeFields(k: Kind, i: nat, b: seq<Byte>): (r: Parsed<seq<Value>>)
    requires k.KRecord? && i <= |k.fields|
    ensures r.Parsed? ==> r.used <= |b| && |r.value| == |k.fields| - i
    decreases k, 0, |k.fields| - i
  {
    if i == |k.fields| then Parsed([], 0)
    else
      var first := Decode(k.fields[i], b);
      if first.Failed? then Failed(first.error)
      else
        var rest := DecodeFields(k, i + 1, b[first.used..]);
        if rest.Failed? then rest else Parsed([first.value] + rest.value, first.used + rest.used)
  }

  // ---- round trips ----

  lemma NumberReads(n: nat, w: nat, suffix: seq<Byte>)
    requires n < Pow256(w)
    ensures Number(LittleEndian(n, w) + suffix, w) == Parsed(n, w)
  {
    NumberRoundTrip(n, w);
    assert (LittleEndian(n, w) + suffix)[..w] == LittleEndian(n, w);
  }

  lemma ByteReads(n: Byte, suffix: seq<Byte>)
    ensures Number([n] + suffix, 1) == Parsed(n, 1)
  {
    assert ([n] + suffix)[..1] == [n];
    assert FromLittleEndian([n]) == n + 256 * FromLittleEndian([n][1..]);
  }

  lemma TruncationKeeps(n: int)
    requires IsI32(n)
    ensures IsI64(n) && Truncated32(n) == n
  {
  }

  /** What a value reads back as: itself if it fits, corrupt if it does not. */
  function ReadBack(k: Kind, v: Value): Parsed<Value>
    requires Writable(k, v)
  {
    if Fits(k, v) then Parsed(v, |Encode(k, v)|) else Failed(Corrupt)
  }

  /** Whatever can be written reads back unchanged, with the cursor exactly at its end and whatever
      bytes follow, if and only if it fits; otherwise it is refused as corrupt. */
  lemma {:induction false} WriteRead(k: Kind, v: Value, suffix: seq<Byte>)
    requires Writable(k, v)
    ensures Decode(k, Encode(k, v) + suffix) == ReadBack(k, v)
    decreases k, 1, 0
  {
    hide LittleEndian, FromLittleEndian, Number, Signed64, Unsigned64, Truncated32;
    match k
    case KByte => NumReads(k, v, suffix);
    case KBool => NumReads(k, v, suffix);
    case KU32 => NumReads(k, v, suffix);
    case KU64 => NumReads(k, v, suffix);
    case KI64 => NumReads(k, v, suffix);
    case KI32 => NumReads(k, v, suffix);
    case KQuantity => QuantityReads(v.quantity, suffix);
    case KWindow => WindowAcceptedIff(v.window, suffix);
    case KText => TextAcceptedIff(v.text, suffix);
    case KOption(_, some) =>
      if v.VSome? {
        WriteRead(some, v.value, suffix);
        assert (Encode(k, v) + suffix)[1..] == Encode(some, v.value) + suffix;
      }
    case KList(_, item) =>
      ItemsWriteRead(item, v.items, suffix);
      ListReads(k, v, suffix);
    case KRecord(_) => FieldsWriteRead(k, v.fields, 0, suffix);
  }

  predicate IsNumber(k: Kind) {
    k.KByte? || k.KBool? || k.KU32? || k.KU64? || k.KI64? || k.KI32?
  }

  lemma NumReads(k: Kind, v: Value, suffix: seq<Byte>)
    requires IsNumber(k) && Writable(k, v)
    ensures Decode(k, Encode(k, v) + suffix) == ReadBack(k, v)
  {
    hide LittleEndian, FromLittleEndian, Number, Signed64, Unsigned64, Truncated32;
    PowValues();
    match k
    case KByte => ByteReads(v.num, suffix);
    case KBool => ByteReads(v.num, suffix);
    case KU32 => NumberReads(v.num, 4, suffix);
    case KU64 => NumberReads(v.num, 8, suffix);
    case KI64 =>
      SignedRoundTrip(v.num);
      NumberReads(Unsigned64(v.num), 8, suffix);
    case KI32 =>
      TruncationKeeps(v.num);
      SignedRoundTrip(v.num);
      NumberReads(Unsigned64(v.num), 8, suffix);
    case _ =>
  }

  /** A list reads as its count and then its items. */
  lemma ListReads(k: Kind, v: Value, suffix: seq<Byte>)
    requires k.KList? && Writable(k, v)
    ensures var r := DecodeItems(k.item, |v.items|, EncodeItems(k.item, v.items) + suffix);
            Decode(k, Encode(k, v) + suffix) ==
            if |v.items| > k.bound then Failed(Corrupt) else if r.Failed? then Failed(r.error) else Parsed(VList(r.value), 4 + r.used)
  {
    hide LittleEndian, FromLittleEndian, Number, EncodeItems, DecodeItems;
    PowValues();
    var tail := EncodeItems(k.item, v.items);
    NumberReads(|v.items|, 4, tail + suffix);
    assert Encode(k, v) + suffix == LittleEndian(|v.items|, 4) + (tail + suffix);
    assert (Encode(k, v) + suffix)[4..] == tail + suffix;
  }

  lemma QuantityReads(q: Quantity, suffix: seq<Byte>)
    requires Writable(KQuantity, VQuantity(q))
    ensures Decode(KQuantity, Encode(KQuantity, VQuantity(q)) + suffix) == ReadBack(KQuantity, VQuantity(q))
  {
    hide LittleEndian, FromLittleEndian, Signed64, Unsigned64;
    PowValues();
    SignedRoundTrip(q.value);
    NumberRoundTrip(Unsigned64(q.value), 8);
    var b := Encode(KQuantity, VQuantity(q)) + suffix;
    assert b[..8] == LittleEndian(Unsigned64(q.value), 8) && b[8] == q.unit;
  }

  /** Two written instants read back as a window if and only if the second is later. */
  lemma WindowAcceptedIff(w: Interval, suffix: seq<Byte>)
    requires Writable(KWindow, VWindow(w))
    ensures Decode(KWindow, Encode(KWindow, VWindow(w)) + suffix) == ReadBack(KWindow, VWindow(w))
  {
    hide LittleEndian, FromLittleEndian, Signed64, Unsigned64;
    PowValues();
    SignedRoundTrip(w.start);
    SignedRoundTrip(w.end);
    NumberRoundTrip(Unsigned64(w.start), 8);
    NumberRoundTrip(Unsigned64(w.end), 8);
    var b := Encode(KWindow, VWindow(w)) + suffix;
    assert b[..8] == LittleEndian(Unsigned64(w.start), 8) && b[8..16] == LittleEndian(Unsigned64(w.end), 8);
  }

  /** A written string reads back if and only if it is within the reader's bound. */
  lemma TextAcceptedIff(s: seq<Byte>, suffix: seq<Byte>)
    requires Writable(KText, VText(s))
    ensures Decode(KText, Encode(KText, VText(s)) + suffix) == ReadBack(KText, VText(s))
  {
    hide LittleEndian, FromLittleEndian, Number;
    PowValues();
    NumberReads(|s|, 4, s + suffix);
    var b := Encode(KText, VText(s)) + suffix;
    assert b == LittleEndian(|s|, 4) + (s + suffix);
    assert b[4..4 + |s|] == s;
  }

  lemma HeadTail(head: seq<Byte>, tail: seq<Byte>, suffix: seq<Byte>)
    ensures head + tail + suffix == head + (tail + suffix) && (head + (tail + suffix))[|head|..] == tail + suffix
  {
  }

  lemma {:induction false} ItemsWriteRead(item: Kind, items: seq<Value>, suffix: seq<Byte>)
    requires ItemsWritable(item, items)
    ensures DecodeItems(item, |items|, EncodeItems(item, items) + suffix) ==
            if ItemsFit(item, items) then Parsed(items, |EncodeItems(item, items)|) else Failed(Corrupt)
    decreases item, 2, |items|
  {
    hide Encode, Decode, Fits, Writable;
    if items != [] {
      var head, tail := Encode(item, items[0]), EncodeItems(item, items[1..]);
      WriteRead(item, items[0], tail + suffix);
      HeadTail(head, tail, suffix);
      assert EncodeItems(item, items) + suffix == head + (tail + suffix);
      if Fits(item, items[0]) {
        ItemsWriteRead(item, items[1..], suffix);
        assert items == [items[0]] + items[1..];
      }
    }
  }

  lemma {:induction false} FieldsWriteRead(k: Kind, vs: seq<Value>, i: nat, suffix: seq<Byte>)
    requires k.KRecord? && |vs| == |k.fields| && i <= |vs| && FieldsWritable(k, vs, i)
    ensures DecodeFields(k, i, EncodeFields(k, vs, i) + suffix) ==
            if FieldsFit(k, vs, i) then Parsed(vs[i..], |EncodeFields(k, vs, i)|) else Failed(Corrupt)
    decreases k, 0, |vs| - i
  {
    hide Encode, Decode, Fits, Writable;
    if i < |vs| {
      var head, tail := Encode(k.fields[i], vs[i]), EncodeFields(k, vs, i + 1);
      WriteRead(k.fields[i], vs[i], tail + suffix);
      FieldsWriteRead(k, vs, i + 1, suffix);
      assert vs[i..] == [vs[i]] + vs[i + 1..];
      HeadTail(head, tail, suffix);
    } else {
      assert vs[i..] == [];
    }
  }

  /** Whatever fits reads back unchanged. */
  lemma RoundTrip(k: Kind, v: Value, suffix: seq<Byte>)
    requires Fits(k, v)
    ensures Decode(k, Encode(k, v) + suffix) == Parsed(v, |Encode(k, v)|)
  {
    hide Decode, Encode, Fits, Writable;
    WriteRead(k, v, suffix);
  }

  // ---- truncation ----

  /** Every strict prefix of an encoding is rejected as truncated. */
  lemma {:induction false} PrefixIsTruncated(k: Kind, v: Value, n: nat)
    requires Fits(k, v) && n < |Encode(k, v)|
    ensures Decode(k, Encode(k, v)[..n]) == Failed(Truncated)
    decreases k, 1, 0
  {
    hide LittleEndian, FromLittleEndian, Signed64, Unsigned64, Truncated32;
    match k
    case KText => TextPrefix(v.text, n);
    case KOption(_, some) =>
      if v.VSome? && n > 0 {
        PrefixIsTruncated(some, v.value, n - 1);
        assert Encode(k, v)[..n][1..] == Encode(some, v.value)[..n - 1];
      }
    case KList(_, item) =>
      if n >= 4 {
        var tail := EncodeItems(item, v.items);
        var b := Encode(k, v)[..n];
        PowValues();
        NumberReads(|v.items|, 4, tail[..n - 4]);
        assert b == LittleEndian(|v.items|, 4) + tail[..n - 4];
        assert b[4..] == tail[..n - 4];
        ItemsPrefix(item, v.items, n - 4);
      }
    case KRecord(_) => FieldsPrefix(k, v.fields, 0, n);
    case _ =>
  }

  lemma TextPrefix(s: seq<Byte>, n: nat)
    requires Fits(KText, VText(s)) && n < |Encode(KText, VText(s))|
    ensures Decode(KText, Encode(KText, VText(s))[..n]) == Failed(Truncated)
  {
    hide LittleEndian, FromLittleEndian, Number;
    PowValues();
    var b := Encode(KText, VText(s))[..n];
    if n >= 4 {
      NumberReads(|s|, 4, s[..n - 4]);
      assert b == LittleEndian(|s|, 4) + s[..n - 4];
    } else {
      ShortNumber(b, 4);
    }
  }

  lemma ShortNumber(b: seq<Byte>, w: nat)
    requires |b| < w
    ensures Number(b, w) == Failed(Truncated)
  {
  }

  lemma {:induction false} ItemsPrefix(item: Kind, items: seq<Value>, n: nat)
    requires ItemsFit(item, items) && n < |EncodeItems(item, items)|
    ensures DecodeItems(item, |items|, EncodeItems(item, items)[..n]) == Failed(Truncated)
    decreases item, 2, |items|
  {
    hide Encode, Decode, Fits;
    var head, tail := Encode(item, items[0]), EncodeItems(item, items[1..]);
    var b := EncodeItems(item, items)[..n];
    if n < |head| {
      PrefixIsTruncated(item, items[0], n);
      assert b == head[..n];
    } else {
      RoundTrip(item, items[0], tail[..n - |head|]);
      ItemsPrefix(item, items[1..], n - |head|);
      assert b == head + tail[..n - |head|];
      assert b[|head|..] == tail[..n - |head|];
    }
  }

  lemma {:induction false} FieldsPrefix(k: Kind, vs: seq<Value>, i: nat, n: nat)
    requires k.KRecord? && |vs| == |k.fields| && i <= |vs| && FieldsFit(k, vs, i) && n < |EncodeFields(k, vs, i)|
    ensures DecodeFields(k, i, EncodeFields(k, vs, i)[..n]) == Failed(Truncated)
    decreases k, 0, |vs| - i
  {
    hide Encode, Decode, Fits;
    var head, tail := Encode(k.fields[i], vs[i]), EncodeFields(k, vs, i + 1);
    var b := EncodeFields(k, vs, i)[..n];
    if n < |head| {
      PrefixIsTruncated(k.fields[i], vs[i], n);
      assert b == head[..n];
    } else {
      RoundTrip(k.fields[i], vs[i], tail[..n - |head|]);
      FieldsPrefix(k, vs, i + 1, n - |head|);
      assert b == head + tail[..n - |head|];
      assert b[|head|..] == tail[..n - |head|];
    }
  }

  // ---- what reading accepts ----

  /** Whatever is accepted fits its layout, so it can be written again. */
  lemma {:induction false} AcceptedFits(k: Kind, b: seq<Byte>)
    requires Decode(k, b).Parsed?
    ensures Fits(k, Decode(k, b).value)
    decreases k, 1, 0
  {
    hide LittleEndian, FromLittleEndian;
    PowValues();
    match k
    case KByte => NumberBound(b[..1]); PowOne();
    case KBool =>
    case KU32 => NumberBound(b[..4]);
    case KU64 => NumberBound(b[..8]);
    case KI64 => NumberBound(b[..8]);
    case KI32 =>
    case KQuantity => NumberBound(b[..8]);
    case KWindow => NumberBound(b[..8]); NumberBound(b[8..16]);
    case KText =>
    case KOption(_, some) => if Decode(k, b).value.VSome? { AcceptedFits(some, b[1..]); }
    case KList(_, item) =>
      NumberBound(b[..4]);
      ItemsAcceptedFit(item, FromLittleEndian(b[..4]), b[4..]);
    case KRecord(_) => FieldsAcceptedFit(k, 0, b, DecodeFields(k, 0, b).value);
  }

  lemma PowOne()
    ensures Pow256(1) == 256
  {
  }

  lemma {:induction false} ItemsAcceptedFit(item: Kind, n: nat, b: seq<Byte>)
    requires DecodeItems(item, n, b).Parsed?
    ensures ItemsFit(item, DecodeItems(item, n, b).value)
    decreases item, 2, n
  {
    hide Decode, Fits;
    if n > 0 {
      AcceptedFits(item, b);
      var first := Decode(item, b);
      ItemsAcceptedFit(item, n - 1, b[first.used..]);
      var all := DecodeItems(item, n, b).value;
      assert all[1..] == DecodeItems(item, n - 1, b[first.used..]).value;
    }
  }

  lemma {:induction false} FieldsAcceptedFit(k: Kind, i: nat, b: seq<Byte>, vs: seq<Value>)
    requires k.KRecord? && i <= |k.fields| == |vs| && DecodeFields(k, i, b).Parsed? && vs[i..] == DecodeFields(k, i, b).value
    ensures FieldsFit(k, vs, i)
    decreases k, 0, |k.fields| - i
  {
    hide Decode, Fits;
    if i < |vs| {
      AcceptedFits(k.fields[i], b);
      var first := Decode(k.fields[i], b);
      assert vs[i + 1..] == vs[i..][1..];
      FieldsAcceptedFit(k, i + 1, b[first.used..], vs);
    }
  }

  /** Reading is idempotent: what was accepted, written and read again is the same value. */
  lemma AcceptedIsStable(k: Kind, b: seq<Byte>, suffix: seq<Byte>)
    requires Decode(k, b).Parsed?
    ensures Fits(k, Decode(k, b).value) && Decode(k, Encode(k, Decode(k, b).value) + suffix) == Parsed(Decode(k, b).value, |Encode(k, Decode(k, b).value)|)
  {
    hide Decode, Encode, Fits;
    AcceptedFits(k, b);
    RoundTrip(k, Decode(k, b).value, suffix);
  }
}
