/** The writer that appends and the reader that advances a cursor, proved against the codec. */
module ByteStreams {
  import opened Types
  import opened Codec

  // ---- digits in base 256 ----

  lemma TimesAtLeast(d: int, k: int)
    requires d > 0 && k >= 1
    ensures d * k >= d
  {
  }

  lemma Difference(d: int, a: int, b: int)
    ensures d * a - d * b == d * (a - b)
  {
  }

  lemma QuotientUnique(d: int, q: int, r: int, q': int, r': int)
    requires d > 0 && d * q + r == d * q' + r' && 0 <= r < d && 0 <= r' < d
    ensures q == q'
  {
    Difference(d, q, q');
    Difference(d, q', q);
    if q > q' {
      TimesAtLeast(d, q - q');
    } else if q < q' {
      TimesAtLeast(d, q' - q);
    }
  }

  lemma QuotientIs(x: int, d: int, q: int, r: int)
    requires d > 0 && x == d * q + r && 0 <= r < d
    ensures x / d == q
  {
    QuotientUnique(d, q, r, x / d, x % d);
  }

  lemma DivideTwice(x: nat, p: nat)
    requires p > 0
    ensures x / (256 * p) == (x / 256) / p
  {
    var u, r1 := x / 256, x % 256;
    var q, r2 := u / p, u % p;
    assert x == 256 * (p * q + r2) + r1 == (256 * p) * q + (256 * r2 + r1);
    QuotientIs(x, 256 * p, q, 256 * r2 + r1);
  }

  /** Byte `i` of a number is what a shift by eight times `i` leaves in the low byte. */
  lemma {:induction false} DigitAt(n: nat, w: nat, i: nat)
    requires i < w
    ensures Pow256(i) > 0 && LittleEndian(n, w)[i] == (n / Pow256(i)) % 256
  {
    PowStep(i);
    if i > 0 {
      DigitAt(n / 256, w - 1, i - 1);
      DivideTwice(n, Pow256(i - 1));
    }
  }

  lemma {:induction false} AppendDigit(b: seq<Byte>, x: Byte)
    ensures FromLittleEndian(b + [x]) == FromLittleEndian(b) + x * Pow256(|b|)
    decreases |b|
  {
    if b == [] {
      assert FromLittleEndian([x]) == x + 256 * FromLittleEndian([x][1..]);
    } else {
      AppendDigit(b[1..], x);
      assert (b + [x])[1..] == b[1..] + [x];
      assert x * Pow256(|b|) == 256 * (x * Pow256(|b| - 1));
    }
  }

  // ---- writing ----

  class ByteWriter {
    var buf: seq<Byte>

    constructor ()
      ensures buf == []
    {
      buf := [];
    }

    method U8(v: Byte)
      modifies this
      ensures buf == old(buf) + [v]
    {
      buf := buf + [v];
    }

    method Fixed(v: nat, w: nat)
      modifies this
      ensures buf == old(buf) + LittleEndian(v, w)
    {
      for i := 0 to w
        invariant buf == old(buf) + LittleEndian(v, w)[..i]
      {
        DigitAt(v, w, i);
        U8((v / Pow256(i)) % 256);
      }
    }

    method U32(v: nat)
      modifies this
      ensures buf == old(buf) + LittleEndian(v, 4)
    {
      Fixed(v, 4);
    }

    method U64(v: nat)
      modifies this
      ensures buf == old(buf) + LittleEndian(v, 8)
    {
      Fixed(v, 8);
    }

    method I64(v: int)
      modifies this
      ensures buf == old(buf) + LittleEndian(Unsigned64(v), 8)
    {
      U64(Unsigned64(v));
    }

    method Str(s: seq<Byte>)
      modifies this
      ensures buf == old(buf) + (LittleEndian(|s|, 4) + s)
    {
      U32(|s|);
      buf := buf + s;
    }

    method Quant(q: Quantity)
      modifies this
      ensures buf == old(buf) + (LittleEndian(Unsigned64(q.value), 8) + [q.unit])
    {
      I64(q.value);
      U8(q.unit);
    }

    /** Writes any value of the layout's types, whether or not a reader will accept it. */
    method Put(k: Kind, v: Value)
      requires Writable(k, v)
      modifies this
      ensures buf == old(buf) + Encode(k, v)
      decreases k, 1, 0
    {
      hide LittleEndian, Unsigned64;
      match k {
        case KByte => U8(v.num);
        case KBool => U8(v.num);
        case KU32 => U32(v.num);
        case KU64 => U64(v.num);
        case KI64 => I64(v.num);
        case KI32 => I64(v.num);
        case KQuantity => Quant(v.quantity);
        case KWindow =>
          I64(v.window.start);
          I64(v.window.end);
        case KText => Str(v.text);
        case KOption(_, some) =>
          if v.VNone? {
            U8(0);
          } else {
            U8(1);
            Put(some, v.value);
          }
        case KList(_, item) =>
          U32(|v.items|);
          PutItems(item, v.items);
        case KRecord(_) => PutFields(k, v.fields);
      }
    }

    method PutItems(item: Kind, items: seq<Value>)
      requires ItemsWritable(item, items)
      modifies this
      ensures buf == old(buf) + EncodeItems(item, items)
      decreases item, 2, 0
    {
      hide Encode, Writable;
      for i := 0 to |items|
        invariant ItemsWritable(item, items[i..])
        invariant buf + EncodeItems(item, items[i..]) == old(buf) + EncodeItems(item, items)
      {
        ghost var before := buf;
        assert items[i..][1..] == items[i + 1..];
        Put(item, items[i]);
        assert before + EncodeItems(item, items[i..]) == buf + EncodeItems(item, items[i + 1..]);
      }
    }

    method PutFields(k: Kind, vs: seq<Value>)
      requires k.KRecord? && |vs| == |k.fields| && FieldsWritable(k, vs, 0)
      modifies this
      ensures buf == old(buf) + EncodeFields(k, vs, 0)
      decreases k, 0, 0
    {
      hide Encode, Writable;
      for i := 0 to |vs|
        invariant FieldsWritable(k, vs, i)
        invariant buf + EncodeFields(k, vs, i) == old(buf) + EncodeFields(k, vs, 0)
      {
        ghost var before := buf;
        Put(k.fields[i], vs[i]);
        assert before + EncodeFields(k, vs, i) == buf + EncodeFields(k, vs, i + 1);
      }
    }
  }

  // ---- reading ----

  /** What a list or record reads as when `done` has been read from `used` bytes and `rest` is
      what the remaining bytes read as. */
  function Continued(done: seq<Value>, used: nat, rest: Parsed<seq<Value>>): Parsed<seq<Value>> {
    if rest.Failed? then rest else Parsed(done + rest.value, used + rest.used)
  }

  lemma ContinuedStart(rest: Parsed<seq<Value>>)
    ensures Continued([], 0, rest) == rest
  {
    if rest.Parsed? { assert [] + rest.value == rest.value; }
  }

  lemma ContinuedStep(done: seq<Value>, used: nat, v: Value, n: nat, rest: Parsed<seq<Value>>)
    ensures Continued(done, used, Continued([v], n, rest)) == Continued(done + [v], used + n, rest)
  {
    if rest.Parsed? { assert done + ([v] + rest.value) == done + [v] + rest.value; }
  }

  lemma ContinuedEnd(done: seq<Value>, used: nat, e: Error)
    ensures Continued(done, used, Parsed([], 0)) == Parsed(done, used) && Continued(done, used, Failed(e)) == Failed(e)
  {
    assert done + [] == done;
  }

  lemma ItemsUnfold(item: Kind, n: nat, b: seq<Byte>)
    requires n > 0 && Decode(item, b).Parsed?
    ensures var first := Decode(item, b);
            DecodeItems(item, n, b) == Continued([first.value], first.used, DecodeItems(item, n - 1, b[first.used..]))
  {
    hide Decode;
  }

  lemma FieldsUnfold(k: Kind, i: nat, b: seq<Byte>)
    requires k.KRecord? && i < |k.fields| && Decode(k.fields[i], b).Parsed?
    ensures var first := Decode(k.fields[i], b);
            DecodeFields(k, i, b) == Continued([first.value], first.used, DecodeFields(k, i + 1, b[first.used..]))
  {
    hide Decode;
  }

  class ByteReader {
    const data: seq<Byte>
    var pos: nat

    ghost predicate Valid()
      reads this
    {
      pos <= |data|
    }

    ghost function Rest(): seq<Byte>
      reads this
      requires Valid()
    {
      data[pos..]
    }

    constructor (data: seq<Byte>)
      ensures Valid() && pos == 0 && this.data == data
    {
      this.data, pos := data, 0;
    }

    method Empty() returns (r: bool)
      requires Valid()
      ensures r <==> Rest() == []
    {
      r := pos >= |data|;
    }

    /** An unsigned number of `w` bytes; a short buffer is an error and moves nothing. */
    method Fixed(w: nat) returns (r: Parsed<nat>)
      requires Valid()
      modifies this
      ensures Valid() && r == Number(old(Rest()), w)
      ensures pos == if r.Parsed? then old(pos) + r.used else old(pos)
    {
      if pos + w > |data| {
        return Failed(Truncated);
      }
      var v := 0;
      ghost var start := pos;
      for i := 0 to w
        invariant pos == start + i <= |data|
        invariant v == FromLittleEndian(data[start..pos])
      {
        AppendDigit(data[start..pos], data[pos]);
        assert data[start..pos + 1] == data[start..pos] + [data[pos]];
        v := v + data[pos] * Pow256(i);
        pos := pos + 1;
      }
      assert old(Rest())[..w] == data[start..pos];
      r := Parsed(v, w);
    }

    /** Reads a value under its layout. After an error the reader is of no further use. */
    method Get(k: Kind) returns (r: Parsed<Value>)
      requires Valid()
      modifies this
      ensures Valid() && r == Decode(k, old(Rest()))
      ensures r.Parsed? ==> pos == old(pos) + r.used
      decreases k, 1, 0
    {
      hide FromLittleEndian, Signed64, Truncated32;
      ghost var b := Rest();
      match k {
        case KByte =>
          var n := Fixed(1);
          r := Num(n);
        case KBool =>
          var n := Fixed(1);
          r := if n.Failed? then Failed(n.error) else Parsed(VNum(if n.value != 0 then 1 else 0), 1);
        case KU32 =>
          var n := Fixed(4);
          r := Num(n);
        case KU64 =>
          var n := Fixed(8);
          r := Num(n);
        case KI64 =>
          var n := Fixed(8);
          r := if n.Failed? then Failed(n.error) else Parsed(VNum(Signed64(n.value)), 8);
        case KI32 =>
          var n := Fixed(8);
          r := if n.Failed? then Failed(n.error) else Parsed(VNum(Truncated32(Signed64(n.value))), 8);
        case KQuantity => r := GetQuantity();
        case KWindow => r := GetWindow();
        case KText => r := GetText();
        case KOption(strict, some) =>
          if pos + 1 > |data| {
            return Failed(Truncated);
          }
          var flag := data[pos];
          pos := pos + 1;
          assert b[0] == flag && b[1..] == Rest();
          if if strict then flag == 1 else flag != 0 {
            var v := Get(some);
            r := if v.Failed? then v else Parsed(VSome(v.value), 1 + v.used);
          } else {
            r := Parsed(VNone, 1);
          }
        case KList(bound, item) =>
          var n := Fixed(4);
          if n.Failed? {
            return Failed(n.error);
          }
          if n.value > bound {
            return Failed(Corrupt);
          }
          assert b[4..] == Rest();
          var items := GetItems(item, n.value);
          r := if items.Failed? then Failed(items.error) else Parsed(VList(items.value), 4 + items.used);
        case KRecord(_) =>
          var fields := GetFields(k);
          r := if fields.Failed? then Failed(fields.error) else Parsed(VRecord(fields.value), fields.used);
      }
    }

    method GetQuantity() returns (r: Parsed<Value>)
      requires Valid()
      modifies this
      ensures Valid() && r == Decode(KQuantity, old(Rest()))
      ensures r.Parsed? ==> pos == old(pos) + r.used
    {
      hide FromLittleEndian, Signed64;
      ghost var b := Rest();
      var n := Fixed(8);
      if n.Failed? {
        return Failed(n.error);
      }
      if pos + 1 > |data| {
        return Failed(Truncated);
      }
      var value, unit := Signed64(n.value), data[pos];
      assert b[8] == unit;
      pos := pos + 1;
      if value < 0 || unit == UNIT_NONE {
        return Failed(Corrupt);
      }
      r := Parsed(VQuantity(Quantity(value, unit)), 9);
    }

    method GetWindow() returns (r: Parsed<Value>)
      requires Valid()
      modifies this
      ensures Valid() && r == Decode(KWindow, old(Rest()))
      ensures r.Parsed? ==> pos == old(pos) + r.used
    {
      hide FromLittleEndian, Signed64;
      ghost var b := Rest();
      var s := Fixed(8);
      if s.Failed? {
        return Failed(s.error);
      }
      assert Rest() == b[8..];
      var e := Fixed(8);
      if e.Failed? {
        return Failed(e.error);
      }
      assert b[8..][..8] == b[8..16];
      var w := Interval(Signed64(s.value), Signed64(e.value));
      if w.end <= w.start {
        return Failed(Corrupt);
      }
      r := Parsed(VWindow(w), 16);
    }

    method GetText() returns (r: Parsed<Value>)
      requires Valid()
      modifies this
      ensures Valid() && r == Decode(KText, old(Rest()))
      ensures r.Parsed? ==> pos == old(pos) + r.used
    {
      hide FromLittleEndian;
      ghost var b := Rest();
      var n := Fixed(4);
      if n.Failed? {
        return Failed(n.error);
      }
      if n.value > MAX_STRING {
        return Failed(Corrupt);
      }
      if pos + n.value > |data| {
        return Failed(Truncated);
      }
      var text := data[pos..pos + n.value];
      assert text == b[4..4 + n.value];
      pos := pos + n.value;
      r := Parsed(VText(text), 4 + n.value);
    }

    method GetItems(item: Kind, n: nat) returns (r: Parsed<seq<Value>>)
      requires Valid()
      modifies this
      ensures Valid() && r == DecodeItems(item, n, old(Rest()))
      ensures r.Parsed? ==> pos == old(pos) + r.used
      decreases item, 2, 0
    {
      hide Decode, Continued;
      var items: seq<Value> := [];
      var start := pos;
      ContinuedStart(DecodeItems(item, n, Rest()));
      for i := 0 to n
        invariant Valid() && start <= pos && |items| == i
        invariant DecodeItems(item, n, old(Rest())) == Continued(items, pos - start, DecodeItems(item, n - i, Rest()))
      {
        ghost var b, before := Rest(), pos - start;
        var v := Get(item);
        if v.Failed? {
          ContinuedEnd(items, before, v.error);
          return Failed(v.error);
        }
        assert b[v.used..] == Rest();
        ItemsUnfold(item, n - i, b);
        ContinuedStep(items, before, v.value, v.used, DecodeItems(item, n - i - 1, Rest()));
        items := items + [v.value];
      }
      ContinuedEnd(items, pos - start, Corrupt);
      r := Parsed(items, pos - start);
    }

    method GetFields(k: Kind) returns (r: Parsed<seq<Value>>)
      requires Valid() && k.KRecord?
      modifies this
      ensures Valid() && r == DecodeFields(k, 0, old(Rest()))
      ensures r.Parsed? ==> pos == old(pos) + r.used
      decreases k, 0, 0
    {
      hide Decode, Continued;
      var vs: seq<Value> := [];
      var start := pos;
      ContinuedStart(DecodeFields(k, 0, Rest()));
      for i := 0 to |k.fields|
        invariant Valid() && start <= pos && |vs| == i
        invariant DecodeFields(k, 0, old(Rest())) == Continued(vs, pos - start, DecodeFields(k, i, Rest()))
      {
        ghost var b, before := Rest(), pos - start;
        var v := Get(k.fields[i]);
        if v.Failed? {
          ContinuedEnd(vs, before, v.error);
          return Failed(v.error);
        }
        assert b[v.used..] == Rest();
        FieldsUnfold(k, i, b);
        ContinuedStep(vs, before, v.value, v.used, DecodeFields(k, i + 1, Rest()));
        vs := vs + [v.value];
      }
      ContinuedEnd(vs, pos - start, Corrupt);
      r := Parsed(vs, pos - start);
    }
  }
}
