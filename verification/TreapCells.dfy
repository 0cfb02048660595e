/** The cells a treap stands for once every pending tag is applied, and what the structural
    operations do to them. */
module TreapCells {
  import opened Levels
  import opened Treap

  function ShiftCell(c: Cell, g: Change): Cell {
    c.(level := Apply(c.level, g))
  }

  function ShiftCells(cs: seq<Cell>, g: Change): (s: seq<Cell>)
    ensures |s| == |cs|
    ensures forall i :: 0 <= i < |cs| ==> s[i] == ShiftCell(cs[i], g)
  {
    seq(|cs|, i requires 0 <= i < |cs| => ShiftCell(cs[i], g))
  }

  /** In key order, each cell with the tags of all its ancestors applied. */
  function Cells(t: Tree): (cs: seq<Cell>)
    ensures |cs| == Size(t)
  {
    match t
    case Leaf => []
    case Node(_, b, l, r) => ShiftCells(Cells(l), b.tag) + [b.cell] + ShiftCells(Cells(r), b.tag)
  }

  ghost predicate Ordered(cs: seq<Cell>) {
    && (forall i :: 0 <= i < |cs| ==> cs[i].start < cs[i].end)
    && (forall i, j :: 0 <= i < j < |cs| ==> cs[i].end <= cs[j].start)
  }

  ghost predicate AllBefore(cs: seq<Cell>, key: int) {
    forall i :: 0 <= i < |cs| ==> cs[i].start < key
  }

  ghost predicate AllFrom(cs: seq<Cell>, key: int) {
    forall i :: 0 <= i < |cs| ==> key <= cs[i].start
  }

  /** No cell straddles the key. */
  ghost predicate Uncut(cs: seq<Cell>, key: int) {
    forall i :: 0 <= i < |cs| ==> !(cs[i].start < key < cs[i].end)
  }

  lemma OrderedParts(a: seq<Cell>, c: Cell, b: seq<Cell>)
    requires Ordered(a + [c] + b)
    ensures Ordered(a) && Ordered(b) && c.start < c.end
    ensures AllBefore(a, c.start) && AllFrom(b, c.end)
    ensures forall i :: 0 <= i < |a| ==> a[i].end <= c.start
  {
    var cs := a + [c] + b;
    assert cs[|a|] == c;
    assert forall i :: 0 <= i < |a| ==> a[i] == cs[i];
    assert forall i :: 0 <= i < |b| ==> b[i] == cs[|a| + 1 + i];
  }

  // ---- tags ----

  lemma ShiftTwice(cs: seq<Cell>, g: Change, h: Change)
    ensures ShiftCells(ShiftCells(cs, g), h) == ShiftCells(cs, Compose(g, h))
  {
  }

  lemma ShiftConcat(a: seq<Cell>, b: seq<Cell>, g: Change)
    ensures ShiftCells(a + b, g) == ShiftCells(a, g) + ShiftCells(b, g)
  {
  }

  lemma ShiftNull(cs: seq<Cell>, g: Change)
    requires IsNull(g)
    ensures ShiftCells(cs, g) == cs
  {
  }

  /** Tagging a root changes every cell below it. */
  lemma CellsShiftRoot(t: Tree, g: Change, eff: int -> int)
    ensures Cells(ShiftRoot(t, g, eff)) == ShiftCells(Cells(t), g)
  {
    if t.Node? {
      var L, R := Cells(t.left), Cells(t.right);
      ShiftTwice(L, t.body.tag, g);
      ShiftTwice(R, t.body.tag, g);
      ShiftConcat(ShiftCells(L, t.body.tag) + [t.body.cell], ShiftCells(R, t.body.tag), g);
      ShiftConcat(ShiftCells(L, t.body.tag), [t.body.cell], g);
      assert ShiftCells([t.body.cell], g) == [ShiftCell(t.body.cell, g)];
    }
  }

  /** Pushing moves tags down and changes no cell. */
  lemma CellsPush(t: Tree, eff: int -> int)
    requires t.Node?
    ensures var p := Push(t, eff);
            Cells(p) == Cells(t) == Cells(p.left) + [p.body.cell] + Cells(p.right)
  {
    var p := Push(t, eff);
    CellsShiftRoot(t.left, t.body.tag, eff);
    CellsShiftRoot(t.right, t.body.tag, eff);
    ShiftNull(Cells(p.left), p.body.tag);
    ShiftNull(Cells(p.right), p.body.tag);
  }

  lemma CellsPulled(idx: nat, b: Body, left: Tree, right: Tree, eff: int -> int)
    requires IsNull(b.tag)
    ensures Cells(Pulled(idx, b, left, right, eff)) == Cells(left) + [b.cell] + Cells(right)
  {
    ShiftNull(Cells(left), b.tag);
    ShiftNull(Cells(right), b.tag);
  }

  // ---- structure ----

  lemma {:induction false} CellsMerge(a: Tree, b: Tree, eff: int -> int)
    ensures Cells(Merge(a, b, eff)) == Cells(a) + Cells(b)
    decreases Size(a) + Size(b)
  {
    hide Push, Pulled;
    if a.Leaf? || b.Leaf? {
    } else if a.body.prio > b.body.prio {
      var p := Push(a, eff);
      CellsPush(a, eff);
      CellsMerge(p.right, b, eff);
      CellsPulled(p.idx, p.body, p.left, Merge(p.right, b, eff), eff);
    } else {
      var p := Push(b, eff);
      CellsPush(b, eff);
      CellsMerge(a, p.left, eff);
      CellsPulled(p.idx, p.body, Merge(a, p.left, eff), p.right, eff);
    }
  }

  /** Splitting cuts the cell sequence at the key. */
  lemma {:induction false} CellsSplit(t: Tree, key: int, eff: int -> int)
    requires Ordered(Cells(t))
    ensures var (l, r) := Split(t, key, eff);
            Cells(l) + Cells(r) == Cells(t) && AllBefore(Cells(l), key) && AllFrom(Cells(r), key)
    decreases Size(t)
  {
    hide Push, Pulled, Ordered, AllBefore, AllFrom;
    if t.Leaf? {
      SplitLeaf(key);
    } else {
      var p := Push(t, eff);
      CellsPush(t, eff);
      var L, c, R := Cells(p.left), p.body.cell, Cells(p.right);
      OrderedParts(L, c, R);
      if c.start < key {
        CellsSplit(p.right, key, eff);
        var (nr, r) := Split(p.right, key, eff);
        CellsPulled(p.idx, p.body, p.left, nr, eff);
        SplitRight(L, c, Cells(nr), Cells(r), key);
      } else {
        CellsSplit(p.left, key, eff);
        var (l, nl) := Split(p.left, key, eff);
        CellsPulled(p.idx, p.body, nl, p.right, eff);
        SplitLeft(Cells(l), Cells(nl), c, R, key);
      }
    }
  }

  lemma SplitLeaf(key: int)
    ensures AllBefore([], key) && AllFrom([], key)
  {
  }

  lemma SplitRight(a: seq<Cell>, c: Cell, m: seq<Cell>, b: seq<Cell>, key: int)
    requires AllBefore(a, c.start) && c.start < key && AllBefore(m, key)
    ensures a + [c] + (m + b) == (a + [c] + m) + b
    ensures AllBefore(a + [c] + m, key)
  {
  }

  lemma SplitLeft(a: seq<Cell>, m: seq<Cell>, c: Cell, b: seq<Cell>, key: int)
    requires c.start < c.end && AllFrom(b, c.end) && key <= c.start && AllFrom(m, key)
    ensures (a + m) + [c] + b == a + (m + [c] + b)
    ensures AllFrom(m + [c] + b, key)
  {
  }

  lemma {:induction false} CellsDetachMax(t: Tree, eff: int -> int)
    requires t.Node?
    ensures Cells(DetachMax(t, eff)) == Cells(t)[..Size(t) - 1]
    decreases Size(t)
  {
    hide Push, Pulled;
    var p := Push(t, eff);
    CellsPush(t, eff);
    if p.right.Leaf? {
      assert Cells(t) == Cells(p.left) + [p.body.cell];
    } else {
      CellsDetachMax(p.right, eff);
      CellsPulled(p.idx, p.body, p.left, DetachMax(p.right, eff), eff);
    }
  }

  // ---- the unpushed read ----

  /** No tag is pending anywhere on the right spine. */
  ghost predicate SpineClean(t: Tree) {
    t.Node? ==> IsNull(t.body.tag) && SpineClean(t.right)
  }

  /** Splitting visits, and so pushes, the whole right spine of the left part. */
  lemma {:induction false} SplitCleansSpine(t: Tree, key: int, eff: int -> int)
    ensures SpineClean(Split(t, key, eff).0)
    decreases Size(t)
  {
    if t.Node? {
      var p := Push(t, eff);
      if p.body.cell.start < key {
        SplitCleansSpine(p.right, key, eff);
      } else {
        SplitCleansSpine(p.left, key, eff);
      }
    }
  }

  /** Over a clean spine the unpushed read returns the true last cell. */
  lemma {:induction false} RightmostIsLast(t: Tree)
    requires t.Node? && SpineClean(t)
    ensures Rightmost(t).cell == Cells(t)[Size(t) - 1]
    decreases t
  {
    ShiftNull(Cells(t.right), t.body.tag);
    if t.right.Node? {
      RightmostIsLast(t.right);
    }
  }

  // ---- boundaries ----

  /** Cells with the one straddling `key`, if any, cut in two at `key`. */
  function CutAt(cs: seq<Cell>, key: int): seq<Cell> {
    if cs == [] then []
    else if cs[0].start < key < cs[0].end then
      [Cell(cs[0].start, key, cs[0].level), Cell(key, cs[0].end, cs[0].level)] + cs[1..]
    else [cs[0]] + CutAt(cs[1..], key)
  }

  lemma {:induction false} CutConcat(a: seq<Cell>, b: seq<Cell>, key: int)
    requires Uncut(a, key)
    ensures CutAt(a + b, key) == a + CutAt(b, key)
  {
    if a == [] {
      assert a + b == b;
    } else {
      assert (a + b)[1..] == a[1..] + b;
      CutConcat(a[1..], b, key);
    }
  }

  lemma {:induction false} CutNone(cs: seq<Cell>, key: int)
    requires Uncut(cs, key)
    ensures CutAt(cs, key) == cs
  {
    CutConcat(cs, [], key);
    assert cs + [] == cs;
  }

  /** Where the cut falls when the parts before and from `key` are known. */
  lemma CutBetween(a: seq<Cell>, b: seq<Cell>, key: int)
    requires Ordered(a + b) && AllBefore(a, key) && AllFrom(b, key)
    ensures a == [] || a[|a| - 1].end <= key ==> CutAt(a + b, key) == a + b
    ensures a != [] && key < a[|a| - 1].end ==>
              var c := a[|a| - 1];
              CutAt(a + b, key) == a[..|a| - 1] + ([Cell(c.start, key, c.level), Cell(key, c.end, c.level)] + b)
  {
    if a == [] {
      CutNone(a + b, key);
    } else {
      var i, c := a[..|a| - 1], a[|a| - 1];
      assert i + [c] + b == a + b == i + ([c] + b);
      OrderedParts(i, c, b);
      if c.end <= key {
        CutNone(a + b, key);
      } else {
        CutConcat(i, [c] + b, key);
        assert ([c] + b)[1..] == b;
      }
    }
  }

  /** Making `key` a boundary cuts the straddling cell and changes nothing else. The cell is
      read without pushing; the split just before has cleaned the spine it is read through. */
  lemma CellsEnsureBoundary(t: Tree, key: int, next: nat, eff: int -> int)
    requires Ordered(Cells(t))
    ensures Cells(EnsureBoundary(t, key, next, eff).0) == CutAt(Cells(t), key)
  {
    hide Merge, DetachMax, Split, Cells, Ordered, AllBefore, AllFrom, CutAt;
    if t.Leaf? {
      CutNone(Cells(t), key);
    } else {
      var (a, b) := Split(t, key, eff);
      CellsSplit(t, key, eff);
      CellsMerge(a, b, eff);
      CutBetween(Cells(a), Cells(b), key);
      if a.Node? {
        SplitCleansSpine(t, key, eff);
        RightmostIsLast(a);
        CellsReplaceLast(a, b, key, next, eff);
      }
    }
  }

  lemma CellsFresh(idx: nat, start: int, end: int, v: Level)
    ensures Cells(Fresh(idx, start, end, v)) == [Cell(start, end, v)]
  {
  }

  lemma Regroup(a: seq<Cell>, x: Cell, y: Cell, b: seq<Cell>)
    ensures a + [x] + [y] + b == a + ([x, y] + b)
  {
  }

  lemma CellsReplaceLast(a: Tree, b: Tree, key: int, next: nat, eff: int -> int)
    requires a.Node?
    ensures var cell := Rightmost(a).cell;
            var left := Fresh(next, cell.start, key, cell.level);
            var right := Fresh(next + 1, key, cell.end, cell.level);
            Cells(Merge(Merge(Merge(DetachMax(a, eff), left, eff), right, eff), b, eff)) ==
            Cells(a)[..Size(a) - 1]
            + ([Cell(cell.start, key, cell.level), Cell(key, cell.end, cell.level)] + Cells(b))
  {
    hide Merge, DetachMax, Rightmost, Cells, Fresh;
    var cell := Rightmost(a).cell;
    var left := Fresh(next, cell.start, key, cell.level);
    var right := Fresh(next + 1, key, cell.end, cell.level);
    var d := DetachMax(a, eff);
    CellsDetachMax(a, eff);
    CellsMerge(d, left, eff);
    CellsMerge(Merge(d, left, eff), right, eff);
    CellsMerge(Merge(Merge(d, left, eff), right, eff), b, eff);
    CellsFresh(next, cell.start, key, cell.level);
    CellsFresh(next + 1, key, cell.end, cell.level);
    Regroup(Cells(d), Cell(cell.start, key, cell.level), Cell(key, cell.end, cell.level), Cells(b));
  }

  lemma {:induction false} CutOrdered(cs: seq<Cell>, key: int)
    requires Ordered(cs)
    ensures Ordered(CutAt(cs, key))
    ensures cs != [] ==> CutAt(cs, key) != [] && CutAt(cs, key)[0].start == cs[0].start
  {
    if cs == [] || cs[0].start < key < cs[0].end {
    } else {
      CutOrdered(cs[1..], key);
      var rest := CutAt(cs[1..], key);
      if cs[1..] != [] {
        forall j | 0 <= j < |rest| ensures cs[0].end <= rest[j].start {
          if j > 0 { assert rest[0].end <= rest[j].start; }
        }
      }
    }
  }

  /** A cut removes the straddle at its key and introduces none elsewhere. */
  lemma {:induction false} CutUncut(cs: seq<Cell>, key: int, k: int)
    requires Ordered(cs) && (k == key || Uncut(cs, k))
    ensures Uncut(CutAt(cs, key), k)
  {
    if cs == [] {
    } else if cs[0].start < key < cs[0].end {
      assert forall i :: 0 <= i < |cs[1..]| ==> cs[0].end <= cs[1..][i].start;
    } else {
      CutUncut(cs[1..], key, k);
    }
  }
}
