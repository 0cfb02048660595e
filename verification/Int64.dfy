/** Signed 64-bit arithmetic as the runtime performs it: range, truncating division, the
    overflow test of the capacity index and the deterministic priority hash. */
module Int64 {

  const MAX: int := 0x7FFF_FFFF_FFFF_FFFF
  const MIN: int := -0x8000_0000_0000_0000

  predicate Fits(x: int) {
    MIN <= x <= MAX
  }

  /** Division truncating toward zero. */
  function TruncDiv(a: int, b: int): int
    requires b != 0
  {
    if a >= 0 then a / b else -((-a) / b)
  }

  /** Dividing a bound by a positive factor decides a product against that bound. */
  lemma QuotientBound(k: int, m: int, bound: int)
    requires m > 0 && bound >= 0
    ensures k > bound / m <==> k * m > bound
  {
    var q := bound / m;
    if k > q {
      assert k * m >= (q + 1) * m;
    } else {
      assert k * m <= q * m;
    }
  }

  /** The overflow test: four sign cases, each a division of a bound. The product is only
      written when it fits. The test is exact for all operands. */
  method MulOverflow(a: int, b: int) returns (overflow: bool, product: int)
    ensures overflow <==> !Fits(a * b)
    ensures !overflow ==> product == a * b
  {
    overflow, product := false, 0;
    if a == 0 || b == 0 {
      return;
    }
    if a > 0 && b > 0 {
      QuotientBound(a, b, MAX);
      assert a * b > 0;
      if a > TruncDiv(MAX, b) { return true, 0; }
    }
    if a < 0 && b < 0 {
      QuotientBound(-a, -b, MAX);
      assert TruncDiv(MAX, b) == -(MAX / -b);
      assert (-a) * (-b) == a * b;
      assert a * b > 0;
      if a < TruncDiv(MAX, b) { return true, 0; }
    }
    if a < 0 && b > 0 {
      QuotientBound(-a, b, -MIN);
      assert (-a) * b == -(a * b);
      assert (-a) * b > 0;
      if a < TruncDiv(MIN, b) { return true, 0; }
    }
    if a > 0 && b < 0 {
      QuotientBound(-b, a, -MIN);
      assert (-b) * a == -(a * b);
      assert (-b) * a > 0;
      if b < TruncDiv(MIN, a) { return true, 0; }
    }
    product := a * b;
  }

  /** Effective capacity under an overbooking ratio in basis points. */
  function EffCapacity(cap: int, ratioBp: int): int {
    if ratioBp == 10000 then cap
    else if !Fits(cap * ratioBp) then MAX
    else TruncDiv(cap * ratioBp, 10000)
  }

  method ComputeEffCapacity(cap: int, ratioBp: int) returns (eff: int)
    ensures eff == EffCapacity(cap, ratioBp)
  {
    if ratioBp == 10000 { return cap; }
    var overflow, product := MulOverflow(cap, ratioBp);
    if overflow { return MAX; }
    return TruncDiv(product, 10000);
  }

  /** For non-negative operands the effective capacity is the floor of the exact product,
      saturated at the largest 64-bit value, and it never decreases with the capacity. */
  lemma EffCapacityIsSaturatingFloor(cap: int, larger: int, ratioBp: int)
    requires 0 <= cap <= larger <= MAX && 0 <= ratioBp
    ensures cap * ratioBp <= MAX ==>
              EffCapacity(cap, ratioBp) * 10000 <= cap * ratioBp < (EffCapacity(cap, ratioBp) + 1) * 10000
    ensures cap * ratioBp > MAX ==> EffCapacity(cap, ratioBp) == if ratioBp == 10000 then cap else MAX
    ensures 0 <= EffCapacity(cap, ratioBp) <= EffCapacity(larger, ratioBp) <= MAX
  {
    assert 0 <= cap * ratioBp <= larger * ratioBp;
  }

  lemma EffCapacityNonNegative(cap: nat, ratioBp: nat)
    ensures 0 <= EffCapacity(cap, ratioBp)
  {
    assert 0 <= cap * ratioBp;
  }

  const TWO64: int := 0x1_0000_0000_0000_0000

  /** The 64-bit mixing hash, cut to 32 bits with the low bit set. */
  function Mix(start: bv64): bv64 {
    var x := start + 0x9e37_79b9_7f4a_7c15;
    var y := (x ^ (x >> 30)) * 0xbf58_476d_1ce4_e5b9;
    var z := (y ^ (y >> 27)) * 0x94d0_49bb_1331_11eb;
    ((z ^ (z >> 31)) & 0xffff_ffff) | 1
  }

  /** The priority of the cell that starts here. */
  function DetPrio(start: int): nat {
    Mix((start % TWO64) as bv64) as nat
  }

  /** The generator's first output, cut to its low half. */
  lemma KnownPriority()
    ensures Mix(0) == 0x7b1d_cdaf
  {
  }
}
