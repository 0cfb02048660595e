/** Sums of integers over finite maps. */
module Sums {

  ghost function SumOf(m: map<nat, int>): int {
    if m == map[] then 0
    else
      var k :| k in m;
      m[k] + SumOf(m - {k})
  }

  /** The order in which the entries are added does not matter. */
  lemma {:induction false} SumPick(m: map<nat, int>, k: nat)
    requires k in m
    ensures SumOf(m) == m[k] + SumOf(m - {k})
    decreases |m|
  {
    var j :| j in m && SumOf(m) == m[j] + SumOf(m - {j});
    if j != k {
      SumPick(m - {j}, k);
      SumPick(m - {k}, j);
      assert (m - {j}) - {k} == (m - {k}) - {j};
    }
  }

  lemma SumUpdate(m: map<nat, int>, k: nat, v: int)
    ensures SumOf(m[k := v]) == SumOf(m) - (if k in m then m[k] else 0) + v
  {
    SumPick(m[k := v], k);
    assert m[k := v] - {k} == m - {k};
    if k in m {
      SumPick(m, k);
    } else {
      assert m - {k} == m;
    }
  }

  lemma {:induction false} SumNonNegative(m: map<nat, int>)
    requires forall k :: k in m ==> 0 <= m[k]
    ensures 0 <= SumOf(m)
    ensures forall k :: k in m ==> m[k] <= SumOf(m)
    decreases |m|
  {
    if m != map[] {
      forall k | k in m ensures m[k] <= SumOf(m) {
        SumPick(m, k);
        SumNonNegative(m - {k});
      }
      var k :| k in m;
      assert m[k] <= SumOf(m);
    }
  }

  /** A sum of non-negative entries vanishes exactly when every entry does. */
  lemma {:induction false} SumZero(m: map<nat, int>)
    requires forall k :: k in m ==> 0 <= m[k]
    ensures SumOf(m) == 0 <==> forall k :: k in m ==> m[k] == 0
    decreases |m|
  {
    SumNonNegative(m);
    if forall k :: k in m ==> m[k] == 0 {
      if m != map[] {
        var k :| k in m;
        SumPick(m, k);
        SumZero(m - {k});
      }
    }
  }

  function At(m: map<nat, int>, k: nat): int {
    if k in m then m[k] else 0
  }

  /** A sum no entry of which exceeds the other's is the same exactly when every entry is. */
  lemma {:induction false} SumBelow(m: map<nat, int>, n: map<nat, int>)
    requires forall k :: k in m ==> At(n, k) <= m[k]
    requires forall k :: k in n && k !in m ==> n[k] == 0
    ensures SumOf(n) <= SumOf(m)
    ensures SumOf(n) == SumOf(m) <==> forall k :: k in m ==> At(n, k) == m[k]
    decreases |m|
  {
    hide SumOf;
    if m == map[] {
      SumZero(n);
      SumZero(m);
    } else {
      var k :| k in m;
      var m', n' := m - {k}, n - {k};
      SumTake(m, k);
      SumTake(n, k);
      forall j | j in m' ensures m'[j] == m[j] && At(n', j) == At(n, j) {
      }
      SumBelow(m', n');
      if SumOf(n) == SumOf(m) {
        assert forall j :: j in m ==> j == k || j in m';
      }
    }
  }

  lemma SumTake(m: map<nat, int>, k: nat)
    ensures SumOf(m) == At(m, k) + SumOf(m - {k})
  {
    if k in m { SumPick(m, k); } else { assert m - {k} == m; }
  }
}
