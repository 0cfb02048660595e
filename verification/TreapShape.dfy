/** The shape of the treap is a function of the set of cell starts: it does not remember the
    order in which operations made the boundaries. */
module TreapShape {
  import opened Levels
  import opened Treap
  import opened TreapCells
  import opened TreapProfile
  import Int64

  function RootPrio(t: Tree): int {
    if t.Leaf? then -1 else t.body.prio
  }

  /** Priorities are the hash of the cell start; a left child may tie with its parent, a right
      child may not. */
  ghost predicate Canonical(t: Tree) {
    t.Node? ==>
      && Canonical(t.left) && Canonical(t.right)
      && RootPrio(t.left) <= t.body.prio && RootPrio(t.right) < t.body.prio
      && t.body.prio == Int64.DetPrio(t.body.cell.start)
  }

  lemma CanonicalPush(t: Tree, eff: int -> int)
    requires t.Node? && Canonical(t)
    ensures var p := Push(t, eff);
            && Canonical(p) && Canonical(p.left) && Canonical(p.right)
            && RootPrio(p.left) == RootPrio(t.left) && RootPrio(p.right) == RootPrio(t.right)
            && p.body.prio == t.body.prio
  {
    assert forall s: Tree, g | Canonical(s) :: Canonical(ShiftRoot(s, g, eff)) && RootPrio(ShiftRoot(s, g, eff)) == RootPrio(s);
  }

  lemma CanonicalPulled(idx: nat, b: Body, left: Tree, right: Tree, eff: int -> int)
    requires Canonical(left) && Canonical(right)
    requires RootPrio(left) <= b.prio && RootPrio(right) < b.prio && b.prio == Int64.DetPrio(b.cell.start)
    ensures Canonical(Pulled(idx, b, left, right, eff)) && RootPrio(Pulled(idx, b, left, right, eff)) == b.prio
  {
    hide Int64.DetPrio;
  }

  lemma {:induction false} CanonicalMerge(a: Tree, b: Tree, eff: int -> int)
    requires Canonical(a) && Canonical(b)
    ensures Canonical(Merge(a, b, eff)) && RootPrio(Merge(a, b, eff)) == Max(RootPrio(a), RootPrio(b))
    decreases Size(a) + Size(b)
  {
    hide Push, Pulled, Int64.DetPrio;
    if a.Leaf? || b.Leaf? {
    } else if a.body.prio > b.body.prio {
      var p := Push(a, eff);
      CanonicalPush(a, eff);
      CanonicalMerge(p.right, b, eff);
      CanonicalPulled(p.idx, p.body, p.left, Merge(p.right, b, eff), eff);
    } else {
      var p := Push(b, eff);
      CanonicalPush(b, eff);
      CanonicalMerge(a, p.left, eff);
      CanonicalPulled(p.idx, p.body, Merge(a, p.left, eff), p.right, eff);
    }
  }

  lemma {:induction false} CanonicalSplit(t: Tree, key: int, eff: int -> int)
    requires Canonical(t)
    ensures var (l, r) := Split(t, key, eff);
            Canonical(l) && Canonical(r) && RootPrio(l) <= RootPrio(t) && RootPrio(r) <= RootPrio(t)
    decreases Size(t)
  {
    hide Push, Pulled, Int64.DetPrio;
    if t.Node? {
      var p := Push(t, eff);
      CanonicalPush(t, eff);
      if p.body.cell.start < key {
        CanonicalSplit(p.right, key, eff);
        CanonicalPulled(p.idx, p.body, p.left, Split(p.right, key, eff).0, eff);
      } else {
        CanonicalSplit(p.left, key, eff);
        CanonicalPulled(p.idx, p.body, Split(p.left, key, eff).1, p.right, eff);
      }
    }
  }

  lemma {:induction false} CanonicalDetachMax(t: Tree, eff: int -> int)
    requires t.Node? && Canonical(t)
    ensures Canonical(DetachMax(t, eff)) && RootPrio(DetachMax(t, eff)) <= RootPrio(t)
    decreases Size(t)
  {
    hide Push, Pulled, Int64.DetPrio;
    var p := Push(t, eff);
    CanonicalPush(t, eff);
    if p.right.Node? {
      CanonicalDetachMax(p.right, eff);
      CanonicalPulled(p.idx, p.body, p.left, DetachMax(p.right, eff), eff);
    }
  }

  lemma CanonicalFresh(idx: nat, start: int, end: int, v: Level)
    ensures Canonical(Fresh(idx, start, end, v))
  {
    hide Int64.DetPrio;
  }

  lemma CanonicalEnsureBoundary(t: Tree, key: int, next: nat, eff: int -> int)
    requires Canonical(t)
    ensures Canonical(EnsureBoundary(t, key, next, eff).0)
  {
    hide Canonical, Split, Merge, DetachMax, Fresh;
    if t.Node? {
      var (a, b) := Split(t, key, eff);
      CanonicalSplit(t, key, eff);
      if a.Node? && key < Rightmost(a).cell.end {
        var cell := Rightmost(a).cell;
        var left := Fresh(next, cell.start, key, cell.level);
        var right := Fresh(next + 1, key, cell.end, cell.level);
        CanonicalDetachMax(a, eff);
        CanonicalFresh(next, cell.start, key, cell.level);
        CanonicalFresh(next + 1, key, cell.end, cell.level);
        CanonicalMerge(DetachMax(a, eff), left, eff);
        CanonicalMerge(Merge(DetachMax(a, eff), left, eff), right, eff);
        CanonicalMerge(Merge(Merge(DetachMax(a, eff), left, eff), right, eff), b, eff);
      } else {
        CanonicalMerge(a, b, eff);
      }
    }
  }

  lemma CanonicalShiftRoot(t: Tree, g: Change, eff: int -> int)
    requires Canonical(t)
    ensures Canonical(ShiftRoot(t, g, eff))
  {
    hide Int64.DetPrio;
  }

  lemma CanonicalRangeOp(t: Tree, l: int, r: int, g: Change, next: nat, eff: int -> int)
    requires Canonical(t)
    ensures Canonical(RangeOp(t, l, r, g, next, eff).0)
  {
    hide Canonical, Split, Merge, EnsureBoundary, ShiftRoot;
    if t.Node? && l < r {
      var (t1, n1) := EnsureBoundary(t, l, next, eff);
      var (t2, n2) := EnsureBoundary(t1, r, n1, eff);
      var (a, b) := Split(t2, r, eff);
      var (c, mid) := Split(a, l, eff);
      CanonicalEnsureBoundary(t, l, next, eff);
      CanonicalEnsureBoundary(t1, r, n1, eff);
      CanonicalSplit(t2, r, eff);
      CanonicalSplit(a, l, eff);
      CanonicalShiftRoot(mid, g, eff);
      CanonicalMerge(c, ShiftRoot(mid, g, eff), eff);
      CanonicalMerge(Merge(c, ShiftRoot(mid, g, eff), eff), b, eff);
    }
  }

  // ---- uniqueness ----

  datatype Shape = Empty | Fork(left: Shape, start: int, right: Shape)

  function ShapeOf(t: Tree): Shape {
    match t
    case Leaf => Empty
    case Node(_, b, l, r) => Fork(ShapeOf(l), b.cell.start, ShapeOf(r))
  }

  /** The keys of the tree in order. */
  function Starts(t: Tree): (s: seq<int>)
    ensures |s| == Size(t)
  {
    match t
    case Leaf => []
    case Node(_, b, l, r) => Starts(l) + [b.cell.start] + Starts(r)
  }

  lemma {:induction false} StartsOfCells(t: Tree)
    ensures forall i :: 0 <= i < Size(t) ==> Starts(t)[i] == Cells(t)[i].start
    decreases t
  {
    if t.Node? {
      StartsOfCells(t.left);
      StartsOfCells(t.right);
    }
  }

  lemma {:induction false} RootIsHighest(t: Tree, i: nat)
    requires Canonical(t) && i < Size(t)
    ensures Int64.DetPrio(Starts(t)[i]) <= RootPrio(t)
    decreases t
  {
    hide Int64.DetPrio;
    if i < Size(t.left) {
      RootIsHighest(t.left, i);
    } else if i > Size(t.left) {
      RootIsHighest(t.right, i - Size(t.left) - 1);
    }
  }

  /** The root sits at the last of the highest priorities. */
  lemma RootPosition(t: Tree, i: nat)
    requires t.Node? && Canonical(t) && i < Size(t)
    ensures i < Size(t.left) ==> Int64.DetPrio(Starts(t)[i]) <= t.body.prio
    ensures i > Size(t.left) ==> Int64.DetPrio(Starts(t)[i]) < t.body.prio
    ensures t.body.prio == Int64.DetPrio(Starts(t)[Size(t.left)])
  {
    hide Int64.DetPrio;
    if i < Size(t.left) {
      RootIsHighest(t.left, i);
    } else if i > Size(t.left) {
      RootIsHighest(t.right, i - Size(t.left) - 1);
    }
  }

  lemma {:induction false} ShapeFromStarts(s: Tree, t: Tree)
    requires Canonical(s) && Canonical(t) && Starts(s) == Starts(t)
    ensures ShapeOf(s) == ShapeOf(t)
    decreases s
  {
    hide Int64.DetPrio;
    if s.Node? {
      assert |Starts(s)| == Size(t);
      var i, j := Size(s.left), Size(t.left);
      RootPosition(s, j);
      RootPosition(t, i);
      assert i == j;
      assert Starts(s.left) == Starts(s)[..i] == Starts(t)[..i] == Starts(t.left);
      assert Starts(s.right) == Starts(s)[i + 1..] == Starts(t)[i + 1..] == Starts(t.right);
      ShapeFromStarts(s.left, t.left);
      ShapeFromStarts(s.right, t.right);
    }
  }

  ghost predicate Rising(s: seq<int>) {
    forall i, j :: 0 <= i < j < |s| ==> s[i] < s[j]
  }

  lemma {:induction false} RisingFromSet(a: seq<int>, b: seq<int>)
    requires Rising(a) && Rising(b) && (forall x :: x in a <==> x in b)
    ensures a == b
    decreases |a|
  {
    if a == [] {
      SomeMember(b);
    } else {
      var x := a[0];
      assert x in b;
      SomeMember(b);
      assert b[0] in a;
      assert a[0] == b[0];
      forall x ensures x in a[1..] <==> x in b[1..] {
        assert x in a[1..] <==> x in a && x != a[0] by { TailMembers(a, x); }
        assert x in b[1..] <==> x in b && x != b[0] by { TailMembers(b, x); }
      }
      RisingFromSet(a[1..], b[1..]);
    }
  }

  lemma SomeMember(s: seq<int>)
    ensures s != [] ==> exists x :: x in s
  {
    if s != [] {
      var x := s[0];
      assert x in s;
    }
  }

  lemma TailMembers(a: seq<int>, x: int)
    requires Rising(a) && a != []
    ensures x in a[1..] <==> x in a && x != a[0]
  {
    if x in a && x != a[0] {
      var i :| 0 <= i < |a| && a[i] == x;
      assert a[1..][i - 1] == x;
    }
  }

  /** Canonical trees over the same set of cell starts have the same shape. */
  lemma ShapeIsCanonical(s: Tree, t: Tree)
    requires Canonical(s) && Canonical(t) && Ordered(Cells(s)) && Ordered(Cells(t))
    requires forall x :: x in Starts(s) <==> x in Starts(t)
    ensures ShapeOf(s) == ShapeOf(t)
  {
    hide Canonical;
    StartsOfCells(s);
    StartsOfCells(t);
    StartsRise(s);
    StartsRise(t);
    RisingFromSet(Starts(s), Starts(t));
    ShapeFromStarts(s, t);
  }

  lemma StartsRise(t: Tree)
    requires Ordered(Cells(t))
    ensures Rising(Starts(t))
  {
    StartsOfCells(t);
    forall i, j | 0 <= i < j < Size(t) ensures Starts(t)[i] < Starts(t)[j] {
      assert Cells(t)[i].start < Cells(t)[i].end <= Cells(t)[j].start;
    }
  }

  // ---- boundaries and pool size ----

  /** `x` starts a cell. */
  predicate IsStart(cs: seq<Cell>, x: int) {
    exists i | 0 <= i < |cs| :: cs[i].start == x
  }

  /** A cut adds its key to the cell starts exactly when the key lies strictly inside the span. */
  lemma {:induction false} CutStarts(cs: seq<Cell>, key: int, x: int)
    requires Tiles(cs)
    ensures IsStart(CutAt(cs, key), x) <==> IsStart(cs, x) || (x == key && Lo(cs) < key < Hi(cs))
    decreases |cs|
  {
    var k := CutAt(cs, key);
    var rest := cs[1..];
    if cs[0].start < key < cs[0].end {
      assert k[0].start == cs[0].start && k[1].start == key;
      assert forall i :: 0 <= i < |rest| ==> k[i + 2] == rest[i] && rest[i] == cs[i + 1];
    } else {
      assert k == [cs[0]] + CutAt(rest, key);
      HeadStart(cs[0], CutAt(rest, key), x);
      HeadStart(cs[0], rest, x);
      assert [cs[0]] + rest == cs;
      if rest != [] {
        CutStarts(rest, key, x);
        if key == cs[0].end { assert rest[0].start == key; assert IsStart(rest, key); }
      }
    }
  }

  lemma HeadStart(c: Cell, rest: seq<Cell>, x: int)
    ensures IsStart([c] + rest, x) <==> x == c.start || IsStart(rest, x)
  {
    var cs := [c] + rest;
    assert cs[0] == c;
    assert forall i :: 0 <= i < |rest| ==> cs[i + 1] == rest[i];
  }

  /** Every new boundary costs two pool slots and one live cell. */
  lemma BoundaryCost(t: Tree, key: int, next: nat, eff: int -> int)
    ensures var (s, n) := EnsureBoundary(t, key, next, eff); n - next == 2 * (Size(s) - Size(t))
  {
    hide Split, Merge, DetachMax, Fresh, Rightmost;
  }

  lemma RangeCost(t: Tree, l: int, r: int, g: Change, next: nat, eff: int -> int)
    ensures var (s, n) := RangeOp(t, l, r, g, next, eff); n - next == 2 * (Size(s) - Size(t))
  {
    hide EnsureBoundary, Split, Merge, ShiftRoot;
    if t.Node? && l < r {
      var (t1, n1) := EnsureBoundary(t, l, next, eff);
      BoundaryCost(t, l, next, eff);
      BoundaryCost(t1, r, n1, eff);
    }
  }
}
