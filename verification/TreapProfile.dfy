/** From cells to instants: a tiling of the span by cells is a profile, and a range operation
    on the treap is the change of exactly the instants of the range that lie in the span. */
module TreapProfile {
  import opened Levels
  import opened Treap
  import opened TreapCells

  /** Non-empty cells in key order, without gap or overlap. */
  ghost predicate Tiles(cs: seq<Cell>) {
    && cs != []
    && Ordered(cs)
    && (forall i :: 0 < i < |cs| ==> cs[i - 1].end == cs[i].start)
  }

  function Lo(cs: seq<Cell>): int
    requires cs != []
  {
    cs[0].start
  }

  function Hi(cs: seq<Cell>): int
    requires cs != []
  {
    cs[|cs| - 1].end
  }

  function LevelAt(cs: seq<Cell>, x: int): Level {
    if cs == [] then Level(0, 0, 0, 0)
    else if cs[0].start <= x < cs[0].end then cs[0].level
    else LevelAt(cs[1..], x)
  }

  function ProfileOf(cs: seq<Cell>): Profile
    requires cs != []
  {
    map x | Lo(cs) <= x < Hi(cs) :: LevelAt(cs, x)
  }

  function ChangedCell(c: Cell, l: int, r: int, g: Change): Cell {
    if l <= c.start < r then ShiftCell(c, g) else c
  }

  function ChangedCells(cs: seq<Cell>, l: int, r: int, g: Change): (s: seq<Cell>)
    ensures |s| == |cs|
    ensures forall i :: 0 <= i < |cs| ==> s[i] == ChangedCell(cs[i], l, r, g)
  {
    seq(|cs|, i requires 0 <= i < |cs| => ChangedCell(cs[i], l, r, g))
  }

  // ---- the three parts ----

  ghost predicate EndsBy(cs: seq<Cell>, key: int) {
    forall i :: 0 <= i < |cs| ==> cs[i].end <= key
  }

  lemma UncutSplit(a: seq<Cell>, b: seq<Cell>, key: int)
    requires Uncut(a + b, key) && AllBefore(a, key)
    ensures EndsBy(a, key)
  {
    forall i | 0 <= i < |a| ensures a[i].end <= key {
      assert (a + b)[i] == a[i];
    }
  }

  lemma OrderedPrefix(a: seq<Cell>, b: seq<Cell>)
    requires Ordered(a + b)
    ensures Ordered(a)
  {
    forall i | 0 <= i < |a| ensures a[i] == (a + b)[i] {
    }
  }

  /** After both boundaries, the splits at `r` then `l` cut exactly at the range ends. */
  lemma CellsIsolate(t: Tree, l: int, r: int, next: nat, eff: int -> int)
    requires Ordered(Cells(t)) && l < r
    ensures var (c, m, b, _) := Isolate(t, l, r, next, eff);
            && Cells(c) + Cells(m) + Cells(b) == CutAt(CutAt(Cells(t), l), r)
            && EndsBy(Cells(c), l) && AllBefore(Cells(c), l)
            && AllFrom(Cells(m), l) && EndsBy(Cells(m), r) && AllBefore(Cells(m), r)
            && AllFrom(Cells(b), r)
  {
    hide Split, EnsureBoundary, Cells, Ordered, AllBefore, AllFrom, Uncut, EndsBy, CutAt;
    var (t1, n1) := EnsureBoundary(t, l, next, eff);
    var (t2, n2) := EnsureBoundary(t1, r, n1, eff);
    var (a, b) := Split(t2, r, eff);
    var (c, mid) := Split(a, l, eff);
    CellsEnsureBoundary(t, l, next, eff);
    CutOrdered(Cells(t), l);
    CellsEnsureBoundary(t1, r, n1, eff);
    CutOrdered(Cells(t1), r);
    CutUncut(Cells(t), l, l);
    CutUncut(Cells(t1), r, l);
    CutUncut(Cells(t1), r, r);
    CellsSplit(t2, r, eff);
    OrderedPrefix(Cells(a), Cells(b));
    CellsSplit(a, l, eff);
    UncutSplit(Cells(a), Cells(b), r);
    assert Cells(c) + Cells(mid) + Cells(b) == Cells(c) + (Cells(mid) + Cells(b));
    UncutSplit(Cells(c), Cells(mid) + Cells(b), l);
    MiddleBounds(Cells(c), Cells(mid), r);
  }

  lemma MiddleBounds(c: seq<Cell>, m: seq<Cell>, r: int)
    requires EndsBy(c + m, r) && AllBefore(c + m, r)
    ensures EndsBy(m, r) && AllBefore(m, r)
  {
    forall i | 0 <= i < |m| ensures m[i] == (c + m)[|c| + i] {
    }
  }

  /** The cells a range operation leaves: both ends cut, the cells inside changed. */
  function RangeCells(cs: seq<Cell>, l: int, r: int, g: Change): seq<Cell> {
    if cs == [] || r <= l then cs else ChangedCells(CutAt(CutAt(cs, l), r), l, r, g)
  }

  lemma ChangedParts(c: seq<Cell>, m: seq<Cell>, b: seq<Cell>, l: int, r: int, g: Change)
    requires AllBefore(c, l) && AllFrom(m, l) && AllBefore(m, r) && AllFrom(b, r) && l < r
    ensures ChangedCells(c + m + b, l, r, g) == c + ShiftCells(m, g) + b
  {
    var s := c + m + b;
    forall i | 0 <= i < |s| ensures ChangedCells(s, l, r, g)[i] == (c + ShiftCells(m, g) + b)[i] {
      if i < |c| {
        assert s[i] == c[i];
      } else if i < |c| + |m| {
        assert s[i] == m[i - |c|];
      } else {
        assert s[i] == b[i - |c| - |m|];
      }
    }
  }

  lemma CellsRangeOp(t: Tree, l: int, r: int, g: Change, next: nat, eff: int -> int)
    requires Ordered(Cells(t))
    ensures Cells(RangeOp(t, l, r, g, next, eff).0) == RangeCells(Cells(t), l, r, g)
  {
    hide Merge, Isolate, Cells, Ordered, AllBefore, AllFrom, EndsBy, CutAt, ChangedCells, ShiftCells, ShiftRoot;
    if t.Node? && l < r {
      var (c, mid, b, _) := Isolate(t, l, r, next, eff);
      CellsIsolate(t, l, r, next, eff);
      var changed := ShiftRoot(mid, g, eff);
      CellsShiftRoot(mid, g, eff);
      CellsMerge(c, changed, eff);
      CellsMerge(Merge(c, changed, eff), b, eff);
      ChangedParts(Cells(c), Cells(mid), Cells(b), l, r, g);
    }
  }

  // ---- instants ----

  lemma {:induction false} LevelAtCell(cs: seq<Cell>, i: nat, x: int)
    requires Ordered(cs) && i < |cs| && cs[i].start <= x < cs[i].end
    ensures LevelAt(cs, x) == cs[i].level
  {
    if i > 0 {
      assert cs[0].end <= cs[i].start;
      LevelAtCell(cs[1..], i - 1, x);
    }
  }

  lemma {:induction false} CutLevelAt(cs: seq<Cell>, key: int, x: int)
    ensures LevelAt(CutAt(cs, key), x) == LevelAt(cs, x)
  {
    if cs != [] && !(cs[0].start < key < cs[0].end) {
      CutLevelAt(cs[1..], key, x);
    }
  }

  lemma TilesTail(cs: seq<Cell>)
    requires |cs| > 1 && Tiles(cs)
    ensures Tiles(cs[1..]) && Lo(cs[1..]) == cs[0].end && Hi(cs[1..]) == Hi(cs)
  {
    var rest := cs[1..];
    assert forall i :: 0 <= i < |rest| ==> rest[i] == cs[i + 1];
  }

  lemma TilesPrepend(c: Cell, rest: seq<Cell>)
    requires Tiles(rest) && Ordered([c] + rest) && c.end == Lo(rest)
    ensures Tiles([c] + rest) && Lo([c] + rest) == c.start && Hi([c] + rest) == Hi(rest)
  {
    var all := [c] + rest;
    assert forall i :: 0 < i < |all| ==> all[i] == rest[i - 1];
  }

  lemma UncutTail(cs: seq<Cell>, key: int)
    requires cs != [] && Uncut(cs, key)
    ensures Uncut(cs[1..], key) && !(cs[0].start < key < cs[0].end)
  {
  }

  lemma {:induction false} ChangedLevelAt(cs: seq<Cell>, l: int, r: int, g: Change, x: int)
    requires cs != [] && Tiles(cs) && Uncut(cs, l) && Uncut(cs, r) && Lo(cs) <= x < Hi(cs)
    ensures LevelAt(ChangedCells(cs, l, r, g), x) ==
            if l <= x < r then Apply(LevelAt(cs, x), g) else LevelAt(cs, x)
    decreases |cs|
  {
    hide Tiles, Uncut, Apply;
    UncutTail(cs, l);
    UncutTail(cs, r);
    if x >= cs[0].end {
      TilesTail(cs);
      assert ChangedCells(cs, l, r, g)[1..] == ChangedCells(cs[1..], l, r, g);
      ChangedLevelAt(cs[1..], l, r, g, x);
    }
  }

  lemma {:induction false} CutTiles(cs: seq<Cell>, key: int)
    requires Tiles(cs)
    ensures Tiles(CutAt(cs, key)) && Lo(CutAt(cs, key)) == Lo(cs) && Hi(CutAt(cs, key)) == Hi(cs)
    decreases |cs|
  {
    hide Tiles;
    TilesFacts(cs);
    CutOrdered(cs, key);
    var c, rest := cs[0], cs[1..];
    if c.start < key < c.end {
      var low, high := Cell(c.start, key, c.level), Cell(key, c.end, c.level);
      HighTiles(cs, high);
      TilesPrepend(low, [high] + rest);
      assert CutAt(cs, key) == [low] + ([high] + rest);
    } else if rest != [] {
      TilesTail(cs);
      CutTiles(rest, key);
      TilesPrepend(c, CutAt(rest, key));
    } else {
      assert CutAt(cs, key) == cs;
    }
  }

  lemma TilesFacts(cs: seq<Cell>)
    requires Tiles(cs)
    ensures cs != [] && Ordered(cs)
  {
  }

  /** A tiling whose first cell starts later. */
  lemma HighTiles(cs: seq<Cell>, high: Cell)
    requires Tiles(cs) && high.end == cs[0].end && high.start < high.end
    ensures Tiles([high] + cs[1..]) && Lo([high] + cs[1..]) == high.start && Hi([high] + cs[1..]) == Hi(cs)
  {
    var all := [high] + cs[1..];
    assert forall i :: 0 < i < |all| ==> all[i] == cs[i];
  }

  /** What the two cuts leave: the same tiling, the same levels, nothing across either end. */
  lemma TwoCuts(cs: seq<Cell>, l: int, r: int)
    requires Tiles(cs)
    ensures var c := CutAt(CutAt(cs, l), r);
            && Tiles(c) && Lo(c) == Lo(cs) && Hi(c) == Hi(cs) && Uncut(c, l) && Uncut(c, r)
            && forall x :: LevelAt(c, x) == LevelAt(cs, x)
  {
    hide CutAt, Uncut;
    var c := CutAt(cs, l);
    CutTiles(cs, l);
    CutTiles(c, r);
    CutUncut(cs, l, l);
    CutUncut(c, r, l);
    CutUncut(c, r, r);
    forall x ensures LevelAt(CutAt(c, r), x) == LevelAt(cs, x) {
      CutLevelAt(cs, l, x);
      CutLevelAt(c, r, x);
    }
  }

  lemma ChangedTiles(cs: seq<Cell>, l: int, r: int, g: Change)
    requires Tiles(cs)
    ensures var k := ChangedCells(cs, l, r, g); Tiles(k) && Lo(k) == Lo(cs) && Hi(k) == Hi(cs)
  {
  }

  /** The central refinement: whatever the shape of the tree and whatever tags are pending, a
      range operation changes exactly the instants of the range inside the span. */
  lemma RangeCellsProfile(cs: seq<Cell>, l: int, r: int, g: Change)
    requires Tiles(cs)
    ensures var k := RangeCells(cs, l, r, g);
            Tiles(k) && Lo(k) == Lo(cs) && Hi(k) == Hi(cs) && ProfileOf(k) == Changed(ProfileOf(cs), l, r, g)
  {
    hide CutAt, Uncut, LevelAt, ChangedCells;
    if l < r {
      var c := CutAt(CutAt(cs, l), r);
      TwoCuts(cs, l, r);
      ChangedTiles(c, l, r, g);
      forall x | Lo(cs) <= x < Hi(cs)
        ensures LevelAt(RangeCells(cs, l, r, g), x) ==
                if l <= x < r then Apply(LevelAt(cs, x), g) else LevelAt(cs, x)
      {
        ChangedLevelAt(c, l, r, g, x);
      }
      assert ProfileOf(RangeCells(cs, l, r, g)) == Changed(ProfileOf(cs), l, r, g);
    } else {
      assert ProfileOf(cs) == Changed(ProfileOf(cs), l, r, g);
    }
  }
}
