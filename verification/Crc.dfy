/** The 32-bit cyclic redundancy check: the reflected CRC of section 8 of RFC 1952, seeded by the
    caller and without the final complement. */
module Crc {
  import opened Types

  const POLY: bv32 := 0xEDB8_8320
  const SEED: bv32 := 0xFFFF_FFFF

  // ---- bits of a byte ----

  function Bit(v: int): bv32 {
    if v % 2 == 1 then 1 else 0
  }

  predicate IsBit(b: bv32) {
    b == 0 || b == 1
  }

  function Assemble(b0: bv32, b1: bv32, b2: bv32, b3: bv32, b4: bv32, b5: bv32, b6: bv32, b7: bv32): bv32 {
    b0 | (b1 << 1) | (b2 << 2) | (b3 << 3) | (b4 << 4) | (b5 << 5) | (b6 << 6) | (b7 << 7)
  }

  /** A byte in the low bits of a register. */
  function ByteBits(b: Byte): bv32 {
    Assemble(Bit(b), Bit(b / 2), Bit(b / 4), Bit(b / 8), Bit(b / 16), Bit(b / 32), Bit(b / 64), Bit(b / 128))
  }

  predicate IsByte(x: bv32) {
    x & 0xFFFF_FF00 == 0
  }

  lemma AssembleInjective(a0: bv32, a1: bv32, a2: bv32, a3: bv32, a4: bv32, a5: bv32, a6: bv32, a7: bv32,
                          b0: bv32, b1: bv32, b2: bv32, b3: bv32, b4: bv32, b5: bv32, b6: bv32, b7: bv32)
    requires IsBit(a0) && IsBit(a1) && IsBit(a2) && IsBit(a3) && IsBit(a4) && IsBit(a5) && IsBit(a6) && IsBit(a7)
    requires IsBit(b0) && IsBit(b1) && IsBit(b2) && IsBit(b3) && IsBit(b4) && IsBit(b5) && IsBit(b6) && IsBit(b7)
    requires Assemble(a0, a1, a2, a3, a4, a5, a6, a7) == Assemble(b0, b1, b2, b3, b4, b5, b6, b7)
    ensures a0 == b0 && a1 == b1 && a2 == b2 && a3 == b3 && a4 == b4 && a5 == b5 && a6 == b6 && a7 == b7
  {
  }

  lemma AssembleIsByte(a0: bv32, a1: bv32, a2: bv32, a3: bv32, a4: bv32, a5: bv32, a6: bv32, a7: bv32)
    requires IsBit(a0) && IsBit(a1) && IsBit(a2) && IsBit(a3) && IsBit(a4) && IsBit(a5) && IsBit(a6) && IsBit(a7)
    ensures IsByte(Assemble(a0, a1, a2, a3, a4, a5, a6, a7))
  {
  }

  lemma BitIsBit(v: int)
    ensures IsBit(Bit(v))
  {
  }

  lemma BitEqual(u: int, v: int)
    requires Bit(u) == Bit(v)
    ensures u % 2 == v % 2
  {
  }

  lemma ByteBitsIsByte(b: Byte)
    ensures IsByte(ByteBits(b))
  {
    hide Bit, IsBit, IsByte, Assemble;
    BitIsBit(b); BitIsBit(b / 2); BitIsBit(b / 4); BitIsBit(b / 8); BitIsBit(b / 16); BitIsBit(b / 32); BitIsBit(b / 64); BitIsBit(b / 128);
    AssembleIsByte(Bit(b), Bit(b / 2), Bit(b / 4), Bit(b / 8), Bit(b / 16), Bit(b / 32), Bit(b / 64), Bit(b / 128));
  }

  lemma Halves(u: int, v: int, u2: int, v2: int)
    requires u2 == u / 2 && v2 == v / 2 && u2 == v2 && u % 2 == v % 2
    ensures u == v
  {
  }

  lemma ByteBitsInjective(b: Byte, c: Byte)
    requires ByteBits(b) == ByteBits(c)
    ensures b == c
  {
    hide Bit, IsBit, Assemble;
    BitIsBit(b); BitIsBit(b / 2); BitIsBit(b / 4); BitIsBit(b / 8); BitIsBit(b / 16); BitIsBit(b / 32); BitIsBit(b / 64); BitIsBit(b / 128);
    BitIsBit(c); BitIsBit(c / 2); BitIsBit(c / 4); BitIsBit(c / 8); BitIsBit(c / 16); BitIsBit(c / 32); BitIsBit(c / 64); BitIsBit(c / 128);
    AssembleInjective(Bit(b), Bit(b / 2), Bit(b / 4), Bit(b / 8), Bit(b / 16), Bit(b / 32), Bit(b / 64), Bit(b / 128),
                      Bit(c), Bit(c / 2), Bit(c / 4), Bit(c / 8), Bit(c / 16), Bit(c / 32), Bit(c / 64), Bit(c / 128));
    BitEqual(b / 128, c / 128);
    BitEqual(b / 64, c / 64);
    Halves(b / 64, c / 64, b / 128, c / 128);
    BitEqual(b / 32, c / 32);
    Halves(b / 32, c / 32, b / 64, c / 64);
    BitEqual(b / 16, c / 16);
    Halves(b / 16, c / 16, b / 32, c / 32);
    BitEqual(b / 8, c / 8);
    Halves(b / 8, c / 8, b / 16, c / 16);
    BitEqual(b / 4, c / 4);
    Halves(b / 4, c / 4, b / 8, c / 8);
    BitEqual(b / 2, c / 2);
    Halves(b / 2, c / 2, b / 4, c / 4);
    BitEqual(b, c);
    Halves(b, c, b / 2, c / 2);
  }

  // ---- the register ----

  function Xor(a: bv32, b: bv32): bv32 {
    a ^ b
  }

  function Low(a: bv32): bv32 {
    a & 1
  }

  function Down(a: bv32): bv32 {
    a >> 1
  }

  function Mask(low: bv32): bv32 {
    POLY & (if low == 1 then 0xFFFF_FFFF else 0)
  }

  /** One shift of the register. */
  function Shift(c: bv32): bv32 {
    Xor(Down(c), Mask(Low(c)))
  }

  function Shifts(c: bv32, n: nat): bv32 {
    if n == 0 then c else Shift(Shifts(c, n - 1))
  }

  function Feed(c: bv32, b: Byte): bv32 {
    Shifts(Xor(c, ByteBits(b)), 8)
  }

  function CrcFrom(seed: bv32, data: seq<Byte>): bv32 {
    if data == [] then seed else Feed(CrcFrom(seed, data[..|data| - 1]), data[|data| - 1])
  }

  method Crc32(data: seq<Byte>, seed: bv32) returns (crc: bv32)
    ensures crc == CrcFrom(seed, data)
  {
    hide ByteBits, Shift, Xor;
    crc := seed;
    for i := 0 to |data|
      invariant crc == CrcFrom(seed, data[..i])
    {
      assert data[..i + 1][..i] == data[..i];
      crc := Xor(crc, ByteBits(data[i]));
      ghost var mixed := crc;
      for k := 0 to 8
        invariant crc == Shifts(mixed, k)
      {
        crc := Shift(crc);
      }
    }
    assert data[..|data|] == data;
  }

  // ---- the shift is a bijection ----

  /** Bit 31 of the result tells which way the low bit was. */
  function Unshift(c: bv32): bv32 {
    if c & 0x8000_0000 != 0 then ((c ^ POLY) << 1) | 1 else c << 1
  }

  lemma UnshiftShift(c: bv32)
    ensures Unshift(Shift(c)) == c
  {
  }

  lemma {:induction false} ShiftsInjective(a: bv32, b: bv32, n: nat)
    requires Shifts(a, n) == Shifts(b, n)
    ensures a == b
  {
    hide Shift, Unshift;
    if n > 0 {
      UnshiftShift(Shifts(a, n - 1));
      UnshiftShift(Shifts(b, n - 1));
      ShiftsInjective(a, b, n - 1);
    }
  }

  lemma XorCancels(a: bv32, b: bv32, x: bv32)
    requires Xor(a, x) == Xor(b, x)
    ensures a == b
  {
  }

  /** Feeding equal bytes never merges different registers. */
  lemma FeedInjective(a: bv32, b: bv32, x: Byte)
    requires Feed(a, x) == Feed(b, x)
    ensures a == b
  {
    hide ByteBits, Shifts, Xor;
    ShiftsInjective(Xor(a, ByteBits(x)), Xor(b, ByteBits(x)), 8);
    XorCancels(a, b, ByteBits(x));
  }

  lemma {:induction false} CrcInjectiveInSeed(a: bv32, b: bv32, data: seq<Byte>)
    requires CrcFrom(a, data) == CrcFrom(b, data)
    ensures a == b
    decreases |data|
  {
    hide Feed;
    if data != [] {
      FeedInjective(CrcFrom(a, data[..|data| - 1]), CrcFrom(b, data[..|data| - 1]), data[|data| - 1]);
      CrcInjectiveInSeed(a, b, data[..|data| - 1]);
    }
  }

  lemma {:induction false} CrcConcat(seed: bv32, a: seq<Byte>, b: seq<Byte>)
    ensures CrcFrom(seed, a + b) == CrcFrom(CrcFrom(seed, a), b)
    decreases |b|
  {
    hide Feed;
    if b == [] {
      assert a + b == a;
    } else {
      CrcConcat(seed, a, b[..|b| - 1]);
      assert (a + b)[..|a + b| - 1] == a + b[..|b| - 1];
    }
  }

  // ---- four bytes at a time ----

  function Double(y: bv32): bv32 {
    y << 1
  }

  predicate TopClear(y: bv32) {
    y & 0x8000_0000 == 0
  }

  /** Bits fed in one place too high come out in place. */
  lemma ShiftHigh(a: bv32, y: bv32)
    requires TopClear(y)
    ensures Shift(Xor(a, Double(y))) == Xor(Shift(a), y)
  {
    hide Xor, Double, TopClear, Low, Down, Mask;
    LowBit(a, y);
    HighBits(a, y);
    XorSwap(Down(a), y, Mask(Low(a)));
  }

  lemma LowBit(a: bv32, y: bv32)
    ensures Low(Xor(a, Double(y))) == Low(a)
  {
  }

  lemma HighBits(a: bv32, y: bv32)
    requires TopClear(y)
    ensures Down(Xor(a, Double(y))) == Xor(Down(a), y)
  {
  }

  lemma XorCommutes(a: bv32, b: bv32)
    ensures Xor(a, b) == Xor(b, a)
  {
  }

  lemma XorAssociates(a: bv32, b: bv32, c: bv32)
    ensures Xor(Xor(a, b), c) == Xor(a, Xor(b, c))
  {
  }

  lemma XorSwap(a: bv32, b: bv32, c: bv32)
    ensures Xor(Xor(a, b), c) == Xor(Xor(a, c), b)
  {
    hide Xor;
    XorAssociates(a, b, c);
    XorCommutes(b, c);
    XorAssociates(a, c, b);
  }

  /** Eight places higher. */
  function Raise(y: bv32): bv32 {
    y << 8
  }

  /** The low 24 bits. */
  predicate HasRoom(y: bv32) {
    y & 0xFF00_0000 == 0
  }

  lemma RaiseDoubles(y: bv32)
    requires HasRoom(y)
    ensures var y1 := Double(y); var y2 := Double(y1); var y3 := Double(y2); var y4 := Double(y3);
            var y5 := Double(y4); var y6 := Double(y5); var y7 := Double(y6);
            && TopClear(y) && TopClear(y1) && TopClear(y2) && TopClear(y3)
            && TopClear(y4) && TopClear(y5) && TopClear(y6) && TopClear(y7)
            && Raise(y) == Double(y7)
  {
  }

  lemma OneHigh(x: bv32, a: bv32, y: bv32, k: nat)
    requires Shifts(x, k) == Xor(Shifts(a, k), Double(y)) && TopClear(y)
    ensures Shifts(x, k + 1) == Xor(Shifts(a, k + 1), y)
  {
    hide Shift, Xor, Double, TopClear;
    ShiftHigh(Shifts(a, k), y);
  }

  /** Bits fed in a byte too high are in place after eight shifts. */
  lemma ShiftsHigh(a: bv32, y: bv32)
    requires HasRoom(y)
    ensures Shifts(Xor(a, Raise(y)), 8) == Xor(Shifts(a, 8), y)
  {
    hide Shift, Shifts, Xor, Double, TopClear, HasRoom, Raise;
    RaiseDoubles(y);
    var y1 := Double(y); var y2 := Double(y1); var y3 := Double(y2); var y4 := Double(y3);
    var y5 := Double(y4); var y6 := Double(y5); var y7 := Double(y6);
    var x := Xor(a, Raise(y));
    NoShift(x);
    NoShift(a);
    OneHigh(x, a, y7, 0);
    OneHigh(x, a, y6, 1);
    OneHigh(x, a, y5, 2);
    OneHigh(x, a, y4, 3);
    OneHigh(x, a, y3, 4);
    OneHigh(x, a, y2, 5);
    OneHigh(x, a, y1, 6);
    OneHigh(x, a, y, 7);
  }

  lemma NoShift(a: bv32)
    ensures Shifts(a, 0) == a
  {
  }

  lemma {:induction false} ShiftsAdd(a: bv32, m: nat, n: nat)
    ensures Shifts(Shifts(a, m), n) == Shifts(a, m + n)
  {
    hide Shift;
    if n > 0 {
      ShiftsAdd(a, m, n - 1);
    }
  }

  lemma RaisedRoom(y: bv32)
    requires IsByte(y)
    ensures HasRoom(y) && HasRoom(Raise(y)) && HasRoom(Raise(Raise(y)))
  {
  }

  /** Four feeds are thirty-two shifts of the register mixed with all four bytes at once. */
  lemma FourFeeds(c: bv32, b0: Byte, b1: Byte, b2: Byte, b3: Byte)
    ensures Feed(Feed(Feed(Feed(c, b0), b1), b2), b3) ==
            Shifts(Mixed(c, ByteBits(b0), ByteBits(b1), ByteBits(b2), ByteBits(b3)), 32)
  {
    hide Shifts, Xor, ByteBits, IsByte, Raise, HasRoom;
    var y0, y1, y2, y3 := ByteBits(b0), ByteBits(b1), ByteBits(b2), ByteBits(b3);
    ByteBitsIsByte(b1);
    ByteBitsIsByte(b2);
    ByteBitsIsByte(b3);
    RaisedRoom(y1);
    RaisedRoom(y2);
    RaisedRoom(y3);
    var x0 := Xor(c, y0);
    var x1 := Xor(x0, Raise(y1));
    var x2 := Xor(x1, Raise(Raise(y2)));
    var x3 := Xor(x2, Raise(Raise(Raise(y3))));
    ShiftsHigh(x0, y1);
    ShiftsHigh(x1, Raise(y2));
    ShiftsHigh(Shifts(x1, 8), y2);
    ShiftsHigh(x2, Raise(Raise(y3)));
    ShiftsHigh(Shifts(x2, 8), Raise(y3));
    ShiftsHigh(Shifts(Shifts(x2, 8), 8), y3);
    ShiftsAdd(x3, 8, 8);
    ShiftsAdd(x3, 16, 8);
    ShiftsAdd(x3, 24, 8);
  }

  function Mixed(c: bv32, y0: bv32, y1: bv32, y2: bv32, y3: bv32): bv32 {
    Xor(Xor(Xor(Xor(c, y0), Raise(y1)), Raise(Raise(y2))), Raise(Raise(Raise(y3))))
  }

  lemma MixedInjective(c: bv32, a0: bv32, a1: bv32, a2: bv32, a3: bv32, b0: bv32, b1: bv32, b2: bv32, b3: bv32)
    requires IsByte(a0) && IsByte(a1) && IsByte(a2) && IsByte(a3) && IsByte(b0) && IsByte(b1) && IsByte(b2) && IsByte(b3)
    requires Mixed(c, a0, a1, a2, a3) == Mixed(c, b0, b1, b2, b3)
    ensures a0 == b0 && a1 == b1 && a2 == b2 && a3 == b3
  {
    hide Mixed, Word, IsByte, Xor;
    MixedIsWord(c, a0, a1, a2, a3);
    MixedIsWord(c, b0, b1, b2, b3);
    XorCommutes(c, Word(a0, a1, a2, a3));
    XorCommutes(c, Word(b0, b1, b2, b3));
    XorCancels(Word(a0, a1, a2, a3), Word(b0, b1, b2, b3), c);
    WordInjective(a0, a1, a2, a3, b0, b1, b2, b3);
  }

  /** The four bytes side by side. */
  function Word(y0: bv32, y1: bv32, y2: bv32, y3: bv32): bv32 {
    Xor(Xor(Xor(y0, Raise(y1)), Raise(Raise(y2))), Raise(Raise(Raise(y3))))
  }

  lemma MixedIsWord(c: bv32, y0: bv32, y1: bv32, y2: bv32, y3: bv32)
    ensures Mixed(c, y0, y1, y2, y3) == Xor(c, Word(y0, y1, y2, y3))
  {
    hide Xor, Raise;
    XorAssociates(c, y0, Raise(y1));
    XorAssociates(c, Xor(y0, Raise(y1)), Raise(Raise(y2)));
    XorAssociates(c, Xor(Xor(y0, Raise(y1)), Raise(Raise(y2))), Raise(Raise(Raise(y3))));
  }

  lemma WordInjective(a0: bv32, a1: bv32, a2: bv32, a3: bv32, b0: bv32, b1: bv32, b2: bv32, b3: bv32)
    requires IsByte(a0) && IsByte(a1) && IsByte(a2) && IsByte(a3) && IsByte(b0) && IsByte(b1) && IsByte(b2) && IsByte(b3)
    requires Word(a0, a1, a2, a3) == Word(b0, b1, b2, b3)
    ensures a0 == b0 && a1 == b1 && a2 == b2 && a3 == b3
  {
  }

  /** Different four bytes always give different registers. */
  lemma FourFeedsInjective(c: bv32, a: seq<Byte>, b: seq<Byte>)
    requires |a| == |b| == 4 && CrcFrom(c, a) == CrcFrom(c, b)
    ensures a == b
  {
    hide Feed, ByteBits, IsByte, Mixed, Shifts;
    UnrollFour(c, a);
    UnrollFour(c, b);
    FourFeeds(c, a[0], a[1], a[2], a[3]);
    FourFeeds(c, b[0], b[1], b[2], b[3]);
    var x := Mixed(c, ByteBits(a[0]), ByteBits(a[1]), ByteBits(a[2]), ByteBits(a[3]));
    var y := Mixed(c, ByteBits(b[0]), ByteBits(b[1]), ByteBits(b[2]), ByteBits(b[3]));
    ShiftsInjective(x, y, 32);
    forall i | 0 <= i < 4 ensures IsByte(ByteBits(a[i])) && IsByte(ByteBits(b[i])) {
      ByteBitsIsByte(a[i]);
      ByteBitsIsByte(b[i]);
    }
    MixedInjective(c, ByteBits(a[0]), ByteBits(a[1]), ByteBits(a[2]), ByteBits(a[3]), ByteBits(b[0]), ByteBits(b[1]), ByteBits(b[2]), ByteBits(b[3]));
    forall i | 0 <= i < 4 ensures a[i] == b[i] {
      ByteBitsInjective(a[i], b[i]);
    }
  }

  lemma UnrollFour(c: bv32, a: seq<Byte>)
    requires |a| == 4
    ensures CrcFrom(c, a) == Feed(Feed(Feed(Feed(c, a[0]), a[1]), a[2]), a[3])
  {
    hide Feed;
    assert a[..3][..2] == a[..2] && a[..2][..1] == a[..1] && a[..1][..0] == [];
    assert CrcFrom(c, a[..1]) == Feed(c, a[0]);
    assert CrcFrom(c, a[..2]) == Feed(CrcFrom(c, a[..1]), a[1]);
    assert CrcFrom(c, a[..3]) == Feed(CrcFrom(c, a[..2]), a[2]);
  }

  // ---- bursts ----

  /** Two strings of one length that differ only within four consecutive bytes. */
  ghost predicate WithinBurst(a: seq<Byte>, b: seq<Byte>, at: nat) {
    |a| == |b| && forall i :: 0 <= i < |a| && !(at <= i < at + 4) ==> a[i] == b[i]
  }

  lemma LongBurst(seed: bv32, a: seq<Byte>, b: seq<Byte>, at: nat)
    requires WithinBurst(a, b, at) && at + 4 <= |a| && CrcFrom(seed, a) == CrcFrom(seed, b)
    ensures a == b
  {
    hide Feed, CrcFrom;
    var pre, suf := a[..at], a[at + 4..];
    var x, y := a[at..at + 4], b[at..at + 4];
    assert b[..at] == pre && b[at + 4..] == suf;
    assert a == pre + x + suf && b == pre + y + suf;
    CrcConcat(seed, pre + x, suf);
    CrcConcat(seed, pre + y, suf);
    CrcConcat(seed, pre, x);
    CrcConcat(seed, pre, y);
    CrcInjectiveInSeed(CrcFrom(seed, pre + x), CrcFrom(seed, pre + y), suf);
    FourFeedsInjective(CrcFrom(seed, pre), x, y);
  }

  /** Any change confined to four consecutive bytes changes the check value. */
  lemma BurstDetected(seed: bv32, a: seq<Byte>, b: seq<Byte>, at: nat)
    requires WithinBurst(a, b, at) && a != b
    ensures CrcFrom(seed, a) != CrcFrom(seed, b)
  {
    if CrcFrom(seed, a) == CrcFrom(seed, b) {
      BurstCannotHide(seed, a, b, at);
    }
  }

  lemma BurstCannotHide(seed: bv32, a: seq<Byte>, b: seq<Byte>, at: nat)
    requires WithinBurst(a, b, at) && CrcFrom(seed, a) == CrcFrom(seed, b)
    ensures a == b
  {
    hide Feed, CrcFrom;
    var pad: seq<Byte> := [0, 0, 0, 0];
    CrcConcat(seed, a, pad);
    CrcConcat(seed, b, pad);
    LongBurst(seed, a + pad, b + pad, if at <= |a| then at else |a|);
    assert a == (a + pad)[..|a|] && b == (b + pad)[..|b|];
  }

  // ---- the check value as a number ----

  function Value(c: bv32, n: nat): nat {
    if n == 0 then 0 else (if Low(c) == 1 then 1 else 0) + 2 * Value(Down(c), n - 1)
  }

  function Shr(c: bv32, n: nat): bv32 {
    if n == 0 then c else Shr(Down(c), n - 1)
  }

  lemma SameHalves(a: bv32, b: bv32)
    requires Down(a) == Down(b) && Low(a) == Low(b)
    ensures a == b
  {
  }

  lemma LowIsBit(a: bv32)
    ensures IsBit(Low(a))
  {
  }

  lemma {:induction false} ValueInjectiveAbove(a: bv32, b: bv32, n: nat)
    requires Value(a, n) == Value(b, n) && Shr(a, n) == Shr(b, n)
    ensures a == b
    decreases n
  {
    hide Low, Down;
    if n > 0 {
      ValueInjectiveAbove(Down(a), Down(b), n - 1);
      LowIsBit(a);
      LowIsBit(b);
      SameHalves(a, b);
    }
  }

  lemma {:induction false} ValueBound(c: bv32, n: nat, bound: nat)
    requires n <= 32 && bound == Pow2(n)
    ensures Value(c, n) < bound
  {
    if n > 0 {
      ValueBound(Down(c), n - 1, Pow2(n - 1));
    }
  }

  function Pow2(n: nat): nat {
    if n == 0 then 1 else 2 * Pow2(n - 1)
  }

  lemma ShrAll(c: bv32)
    ensures Shr(c, 32) == 0
  {
    ShrEight(c);
    ShrEight(Shr(c, 8));
    ShrEight(Shr(c, 16));
    ShrEight(Shr(c, 24));
    ShrAdd(c, 8, 8);
    ShrAdd(c, 16, 8);
    ShrAdd(c, 24, 8);
    AllGone(c);
  }

  lemma AllGone(c: bv32)
    ensures (((c >> 8) >> 8) >> 8) >> 8 == 0
  {
  }

  lemma ShrEight(c: bv32)
    ensures Shr(c, 8) == c >> 8
  {
    hide Down;
    DownEight(c);
    var d := Down(Down(Down(Down(c))));
    ShrTwo(c, 6);
    ShrTwo(Down(Down(c)), 4);
    ShrTwo(d, 2);
    ShrTwo(Down(Down(d)), 0);
  }

  lemma ShrTwo(c: bv32, n: nat)
    ensures Shr(c, n + 2) == Shr(Down(Down(c)), n)
  {
    hide Down;
    assert Shr(c, n + 2) == Shr(Down(c), n + 1);
  }

  lemma DownEight(c: bv32)
    ensures Down(Down(Down(Down(Down(Down(Down(Down(c)))))))) == c >> 8
  {
  }

  lemma {:induction false} ShrAdd(c: bv32, m: nat, n: nat)
    ensures Shr(Shr(c, m), n) == Shr(c, m + n)
  {
    if m > 0 {
      ShrAdd(Down(c), m - 1, n);
    }
  }

  /** The unsigned number a register holds. */
  function Number(c: bv32): nat {
    Value(c, 32)
  }

  lemma NumberInjective(a: bv32, b: bv32)
    requires Number(a) == Number(b)
    ensures a == b
  {
    ShrAll(a);
    ShrAll(b);
    ValueInjectiveAbove(a, b, 32);
  }

  lemma NumberBound(c: bv32)
    ensures Number(c) < 0x1_0000_0000
  {
    assert Pow2(32) == 0x1_0000_0000 by {
      assert Pow2(8) == 0x100;
      assert Pow2(16) == 0x1_0000;
      assert Pow2(24) == 0x100_0000;
    }
    ValueBound(c, 32, Pow2(32));
  }

  // ---- the published check value ----

  lemma EightShifts(c: bv32, b: Byte, x0: bv32, x1: bv32, x2: bv32, x3: bv32, x4: bv32, x5: bv32, x6: bv32, x7: bv32, x8: bv32)
    requires Xor(c, ByteBits(b)) == x0
    requires Shift(x0) == x1 && Shift(x1) == x2 && Shift(x2) == x3 && Shift(x3) == x4
    requires Shift(x4) == x5 && Shift(x5) == x6 && Shift(x6) == x7 && Shift(x7) == x8
    ensures Feed(c, b) == x8
  {
    hide Shift, Xor, ByteBits;
    assert Shifts(x0, 1) == x1;
    assert Shifts(x0, 2) == x2;
    assert Shifts(x0, 3) == x3;
    assert Shifts(x0, 4) == x4;
    assert Shifts(x0, 5) == x5;
    assert Shifts(x0, 6) == x6;
    assert Shifts(x0, 7) == x7;
  }

  lemma FeedDigit1()
    ensures Feed(0xFFFF_FFFF, 49) == 0x7C23_1048
  {
    EightShifts(0xFFFF_FFFF, 49, 0xFFFF_FFCE, 0x7FFF_FFE7, 0xD247_7CD3, 0x849B_3D49, 0xAFF5_1D84, 0x57FA_8EC2, 0x2BFD_4761, 0xF846_2090, 0x7C23_1048);
  }

  lemma FeedDigit2()
    ensures Feed(0x7C23_1048, 50) == 0xB0AC_BB32
  {
    EightShifts(0x7C23_1048, 50, 0x7C23_107A, 0x3E11_883D, 0xF2B0_473E, 0x7958_239F, 0xD114_92EF, 0x8532_CA57, 0xAF21_E60B, 0xBA28_7025, 0xB0AC_BB32);
  }

  lemma FeedDigit3()
    ensures Feed(0xB0AC_BB32, 51) == 0x77B7_9C2D
  {
    EightShifts(0xB0AC_BB32, 51, 0xB0AC_BB01, 0xB5EE_DEA0, 0x5AF7_6F50, 0x2D7B_B7A8, 0x16BD_DBD4, 0x0B5E_EDEA, 0x05AF_76F5, 0xEF6F_385A, 0x77B7_9C2D);
  }

  lemma FeedDigit4()
    ensures Feed(0x77B7_9C2D, 52) == 0x641C_1F5C
  {
    EightShifts(0x77B7_9C2D, 52, 0x77B7_9C19, 0xD663_4D2C, 0x6B31_A696, 0x3598_D34B, 0xF774_EA85, 0x9602_F662, 0x4B01_7B31, 0xC838_3EB8, 0x641C_1F5C);
  }

  lemma FeedDigit5()
    ensures Feed(0x641C_1F5C, 53) == 0x340A_C5E3
  {
    EightShifts(0x641C_1F5C, 53, 0x641C_1F69, 0xDFB6_8C94, 0x6FDB_464A, 0x37ED_A325, 0xF64E_52B2, 0x7B27_2959, 0xD02B_178C, 0x6815_8BC6, 0x340A_C5E3);
  }

  lemma FeedDigit6()
    ensures Feed(0x340A_C5E3, 54) == 0xF68D_2C9E
  {
    EightShifts(0x340A_C5E3, 54, 0x340A_C5D5, 0xF7BD_E1CA, 0x7BDE_F0E5, 0xD057_FB52, 0x682B_FDA9, 0xD9AD_7DF4, 0x6CD6_BEFA, 0x366B_5F7D, 0xF68D_2C9E);
  }

  lemma FeedDigit7()
    ensures Feed(0xF68D_2C9E, 55) == 0xAFFC_9660
  {
    EightShifts(0xF68D_2C9E, 55, 0xF68D_2CA9, 0x96FE_1574, 0x4B7F_0ABA, 0x25BF_855D, 0xFF67_418E, 0x7FB3_A0C7, 0xD261_5343, 0x8488_2A81, 0xAFFC_9660);
  }

  lemma FeedDigit8()
    ensures Feed(0xAFFC_9660, 56) == 0x651F_2550
  {
    EightShifts(0xAFFC_9660, 56, 0xAFFC_9658, 0x57FE_4B2C, 0x2BFF_2596, 0x15FF_92CB, 0xE747_4A45, 0x9E1B_2602, 0x4F0D_9301, 0xCA3E_4AA0, 0x651F_2550);
  }

  lemma FeedDigit9()
    ensures Feed(0x651F_2550, 57) == 0x340B_C6D9
  {
    EightShifts(0x651F_2550, 57, 0x651F_2569, 0xDF37_1194, 0x6F9B_88CA, 0x37CD_C465, 0xF65E_6112, 0x7B2F_3089, 0xD02F_1B64, 0x6817_8DB2, 0x340B_C6D9);
  }

  lemma Fed(seed: bv32, data: seq<Byte>, b: Byte)
    ensures CrcFrom(seed, data + [b]) == Feed(CrcFrom(seed, data), b)
  {
    hide Feed;
    assert (data + [b])[..|data|] == data;
  }

  /** The standard's check string, the digits 1 to 9, gives CBF43926, or its complement here. */
  lemma CheckValue()
    ensures CrcFrom(SEED, [49, 50, 51, 52, 53, 54, 55, 56, 57]) == 0x340B_C6D9
    ensures Xor(CrcFrom(SEED, [49, 50, 51, 52, 53, 54, 55, 56, 57]), 0xFFFF_FFFF) == 0xCBF4_3926
  {
    hide Feed, CrcFrom, Xor;
    var a: seq<Byte>, b: seq<Byte>, c: seq<Byte> := [49, 50, 51, 52], [53, 54, 55, 56], [57];
    FourDigits();
    EightDigits(CrcFrom(SEED, a));
    CrcConcat(SEED, a, b);
    FeedDigit9();
    Fed(SEED, a + b, 57);
    assert [49, 50, 51, 52, 53, 54, 55, 56, 57] == a + b + c;
    Complement();
  }

  lemma Complement()
    ensures Xor(0x340B_C6D9, 0xFFFF_FFFF) == 0xCBF4_3926
  {
  }

  lemma FourDigits()
    ensures CrcFrom(SEED, [49, 50, 51, 52]) == 0x641C_1F5C
  {
    hide Feed, CrcFrom;
    UnrollFour(SEED, [49, 50, 51, 52]);
    FeedDigit1();
    FeedDigit2();
    FeedDigit3();
    FeedDigit4();
  }

  lemma EightDigits(c: bv32)
    requires c == 0x641C_1F5C
    ensures CrcFrom(c, [53, 54, 55, 56]) == 0x651F_2550
  {
    hide Feed, CrcFrom;
    UnrollFour(c, [53, 54, 55, 56]);
    FeedDigit5();
    FeedDigit6();
    FeedDigit7();
    FeedDigit8();
  }
}
