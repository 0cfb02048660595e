/** 64-bit safety of the trees of the capacity index: while committed levels stay within their
    bounds, no cell value, aggregate or pending tag of a tree that a whole push, split or merge
    leaves is out of the signed 64-bit range. What single writes store is in `TreapStores`. */
module TreapMachine {
  import opened Levels
  import opened Treap
  import opened TreapCells
  import opened TreapProfile
  import opened TreapExact
  import opened TreapRun
  import Int64

  /** What bounds a level: capacity at an instant, effective capacity, and hard commitments and
      holds together. */
  datatype Bounds = Bounds(cap: int, eff: int, load: int)

  ghost predicate EffOk(eff: int -> int, m: Bounds) {
    && 0 <= m.cap <= m.load && 0 <= m.eff && m.load + m.eff <= Int64.MAX
    && forall c :: 0 <= c <= m.cap ==> 0 <= eff(c) <= m.eff
  }

  ghost predicate LevelOk(v: Level, m: Bounds) {
    && 0 <= v.hard <= m.cap && 0 <= v.held <= m.cap && v.hard + v.held <= m.load
    && 0 <= v.soft <= m.eff
    && 0 <= v.cap <= m.cap
  }

  ghost predicate AllOk(cs: seq<Cell>, m: Bounds) {
    forall i :: 0 <= i < |cs| ==> LevelOk(cs[i].level, m)
  }

  /** A pending tag is the difference of two levels the cell really had: the one it shows and
      the one it showed when its tag was last pushed. */
  ghost predicate TagOk(v: Level, g: Change, m: Bounds) {
    && 0 <= v.hard - g.hard <= m.cap
    && 0 <= v.soft - g.soft <= m.eff
    && 0 <= v.held - g.held <= m.cap
    && 0 <= g.setCap <= m.cap
  }

  ghost predicate AggOk(a: Agg, m: Bounds) {
    var top := m.load + m.eff;
    -top <= a.minHard <= top && -top <= a.minSoft <= top && -top <= a.maxHard <= top && -top <= a.maxSoft <= top
  }

  /** Every node's cells, tag and aggregates are in range. */
  ghost predicate InRange(t: Tree, m: Bounds) {
    t.Node? ==>
      && InRange(t.left, m) && InRange(t.right, m)
      && AllOk(Cells(t), m)
      && TagOk(t.body.cell.level, t.body.tag, m)
      && AggOk(t.body.agg, m)
  }

  lemma {:induction false} AggBounded(cs: seq<Cell>, m: Bounds, eff: int -> int)
    requires cs != [] && AllOk(cs, m) && EffOk(eff, m)
    ensures AggOk(AggOf(cs, eff), m)
    decreases |cs|
  {
    assert LevelOk(cs[0].level, m);
    if |cs| > 1 {
      AggBounded(cs[1..], m, eff);
    }
  }

  lemma AllOkConcat(a: seq<Cell>, c: Cell, b: seq<Cell>, m: Bounds)
    ensures AllOk(a + [c] + b, m) <==>
            AllOk(a, m) && LevelOk(c.level, m) && AllOk(b, m)
  {
    var s := a + [c] + b;
    if AllOk(s, m) {
      assert forall i :: 0 <= i < |a| ==> a[i] == s[i];
      assert s[|a|] == c;
      assert forall i :: 0 <= i < |b| ==> b[i] == s[|a| + 1 + i];
    }
  }

  lemma ShiftAggNull(a: Agg, g: Change, eff: int -> int)
    requires IsNull(g)
    ensures ShiftAgg(a, g, eff) == a
  {
  }

  lemma InRangeShiftRoot(t: Tree, g: Change, keys: set<int>, m: Bounds, eff: int -> int)
    requires EffOk(eff, m) && InRange(t, m) && Sound(t, keys, eff)
    requires AllOk(ShiftCells(Cells(t), g), m) && 0 <= g.setCap <= m.cap
    requires Clear(Cells(t), keys) || IsNull(g)
    ensures InRange(ShiftRoot(t, g, eff), m)
  {
    hide ShiftCells, AllOk;
    if t.Node? {
      CellsShiftRoot(t, g, eff);
      if Clear(Cells(t), keys) {
        AggShift(Cells(t), g, eff);
        AggBounded(ShiftCells(Cells(t), g), m, eff);
      } else {
        ShiftAggNull(t.body.agg, g, eff);
      }
    }
  }

  lemma InRangePush(t: Tree, keys: set<int>, m: Bounds, eff: int -> int)
    requires EffOk(eff, m) && t.Node? && InRange(t, m) && Sound(t, keys, eff)
    ensures var p := Push(t, eff);
            && InRange(p.left, m) && InRange(p.right, m)
            && LevelOk(p.body.cell.level, m) && 0 <= p.body.tag.setCap <= m.cap
  {
    hide ShiftCells, AllOk, Clear, ShiftRoot;
    var L, R, g := Cells(t.left), Cells(t.right), t.body.tag;
    AllOkConcat(ShiftCells(L, g), t.body.cell, ShiftCells(R, g), m);
    ClearConcat(ShiftCells(L, g), t.body.cell, ShiftCells(R, g), keys);
    ClearShift(L, g, keys);
    ClearShift(R, g, keys);
    InRangeShiftRoot(t.left, g, keys, m, eff);
    InRangeShiftRoot(t.right, g, keys, m, eff);
  }

  lemma InRangePulled(idx: nat, b: Body, left: Tree, right: Tree, m: Bounds, eff: int -> int)
    requires EffOk(eff, m) && IsNull(b.tag) && 0 <= b.tag.setCap <= m.cap
    requires LevelOk(b.cell.level, m) && InRange(left, m) && InRange(right, m)
    ensures InRange(Pulled(idx, b, left, right, eff), m)
  {
    hide AllOk, Cells;
    CellsPulled(idx, b, left, right, eff);
    AllOkConcat(Cells(left), b.cell, Cells(right), m);
    if left.Leaf? { EmptyOk(left, m); }
    if right.Leaf? { EmptyOk(right, m); }
  }

  lemma EmptyOk(t: Tree, m: Bounds)
    requires t.Leaf?
    ensures AllOk(Cells(t), m)
  {
  }

  lemma {:induction false} InRangeMerge(a: Tree, b: Tree, keys: set<int>, m: Bounds, eff: int -> int)
    requires EffOk(eff, m) && Sound(a, keys, eff) && Sound(b, keys, eff)
    requires InRange(a, m) && InRange(b, m)
    ensures InRange(Merge(a, b, eff), m)
    decreases Size(a) + Size(b)
  {
    hide Push, Pulled, Sound, InRange, LevelOk, EffOk;
    if a.Leaf? || b.Leaf? {
    } else if a.body.prio > b.body.prio {
      var p := Push(a, eff);
      SoundPush(a, keys, eff);
      InRangePush(a, keys, m, eff);
      InRangeMerge(p.right, b, keys, m, eff);
      InRangePulled(p.idx, p.body, p.left, Merge(p.right, b, eff), m, eff);
    } else {
      var p := Push(b, eff);
      SoundPush(b, keys, eff);
      InRangePush(b, keys, m, eff);
      InRangeMerge(a, p.left, keys, m, eff);
      InRangePulled(p.idx, p.body, Merge(a, p.left, eff), p.right, m, eff);
    }
  }

  lemma {:induction false} InRangeSplit(t: Tree, key: int, keys: set<int>, m: Bounds, eff: int -> int)
    requires EffOk(eff, m) && Sound(t, keys, eff) && InRange(t, m)
    ensures InRange(Split(t, key, eff).0, m) && InRange(Split(t, key, eff).1, m)
    decreases Size(t)
  {
    hide Push, Pulled, Sound, LevelOk, EffOk, TagOk, AggOk, AllOk;
    if t.Node? {
      var p := Push(t, eff);
      SoundPush(t, keys, eff);
      InRangePush(t, keys, m, eff);
      if p.body.cell.start < key {
        InRangeSplit(p.right, key, keys, m, eff);
        InRangePulled(p.idx, p.body, p.left, Split(p.right, key, eff).0, m, eff);
      } else {
        InRangeSplit(p.left, key, keys, m, eff);
        InRangePulled(p.idx, p.body, Split(p.left, key, eff).1, p.right, m, eff);
      }
    }
  }

  lemma {:induction false} InRangeDetachMax(t: Tree, keys: set<int>, m: Bounds, eff: int -> int)
    requires EffOk(eff, m) && t.Node? && Sound(t, keys, eff) && InRange(t, m)
    ensures InRange(DetachMax(t, eff), m)
    decreases Size(t)
  {
    hide Push, Pulled, Sound, InRange, LevelOk, EffOk;
    var p := Push(t, eff);
    SoundPush(t, keys, eff);
    InRangePush(t, keys, m, eff);
    if p.right.Node? {
      InRangeDetachMax(p.right, keys, m, eff);
      InRangePulled(p.idx, p.body, p.left, DetachMax(p.right, eff), m, eff);
    }
  }

  lemma InRangeFresh(idx: nat, start: int, end: int, v: Level, m: Bounds, eff: int -> int)
    requires EffOk(eff, m) && LevelOk(v, m)
    ensures InRange(Fresh(idx, start, end, v), m)
  {
    assert Cells(Fresh(idx, start, end, v)) == [Cell(start, end, v)];
  }

  lemma {:induction false} RightmostOk(t: Tree, m: Bounds)
    requires t.Node? && InRange(t, m) && SpineClean(t)
    ensures LevelOk(Rightmost(t).cell.level, m)
  {
    RightmostIsLast(t);
  }

  lemma InRangeEnsureBoundary(t: Tree, key: int, next: nat, keys: set<int>, m: Bounds, eff: int -> int)
    requires EffOk(eff, m) && Ordered(Cells(t)) && Sound(t, keys, eff) && InRange(t, m)
    ensures InRange(EnsureBoundary(t, key, next, eff).0, m)
  {
    hide Merge, DetachMax, Split, Cells, Ordered, Sound, InRange, LevelOk, EffOk, Rightmost, SpineClean;
    if t.Node? {
      var (a, b) := Split(t, key, eff);
      var keys' := keys + {key};
      SoundSplit(t, key, keys, keys', eff);
      InRangeSplit(t, key, keys, m, eff);
      if a.Node? && key < Rightmost(a).cell.end {
        var cell := Rightmost(a).cell;
        var left := Fresh(next, cell.start, key, cell.level);
        var right := Fresh(next + 1, key, cell.end, cell.level);
        SplitCleansSpine(t, key, eff);
        RightmostOk(a, m);
        SoundDetachMax(a, keys', eff);
        InRangeDetachMax(a, keys', m, eff);
        SoundFresh(next, cell.start, key, cell.level, keys', eff);
        SoundFresh(next + 1, key, cell.end, cell.level, keys', eff);
        InRangeFresh(next, cell.start, key, cell.level, m, eff);
        InRangeFresh(next + 1, key, cell.end, cell.level, m, eff);
        SoundMerge(DetachMax(a, eff), left, keys', eff);
        InRangeMerge(DetachMax(a, eff), left, keys', m, eff);
        SoundMerge(Merge(DetachMax(a, eff), left, eff), right, keys', eff);
        InRangeMerge(Merge(DetachMax(a, eff), left, eff), right, keys', m, eff);
        InRangeMerge(Merge(Merge(DetachMax(a, eff), left, eff), right, eff), b, keys', m, eff);
      } else {
        InRangeMerge(a, b, keys', m, eff);
      }
    }
  }

  /** Every intermediate tree of a range operation is in range, up to the three parts. */
  lemma IsolateInRange(t: Tree, l: int, r: int, next: nat, m: Bounds, eff: int -> int)
    requires EffOk(eff, m) && Ordered(Cells(t)) && Sound(t, {}, eff) && InRange(t, m) && l < r
    ensures var (t1, n1) := EnsureBoundary(t, l, next, eff);
            var (t2, n2) := EnsureBoundary(t1, r, n1, eff);
            var (a, b) := Split(t2, r, eff);
            var (c, mid) := Split(a, l, eff);
            && InRange(t1, m) && InRange(t2, m) && InRange(a, m)
            && InRange(c, m) && InRange(mid, m) && InRange(b, m)
  {
    hide EnsureBoundary, Split, Cells, Ordered, Sound, CutAt, InRange, EffOk;
    var (t1, n1) := EnsureBoundary(t, l, next, eff);
    var (t2, n2) := EnsureBoundary(t1, r, n1, eff);
    var (a, b) := Split(t2, r, eff);
    CellsEnsureBoundary(t, l, next, eff);
    CutOrdered(Cells(t), l);
    CellsEnsureBoundary(t1, r, n1, eff);
    CutOrdered(Cells(t1), r);
    SoundEnsureBoundary(t, l, next, {}, eff);
    InRangeEnsureBoundary(t, l, next, {}, m, eff);
    SoundEnsureBoundary(t1, r, n1, {} + {l}, eff);
    InRangeEnsureBoundary(t1, r, n1, {} + {l}, m, eff);
    SoundSplit(t2, r, {} + {l} + {r}, {} + {l}, eff);
    InRangeSplit(t2, r, {} + {l} + {r}, m, eff);
    InRangeSplit(a, l, {} + {l}, m, eff);
  }

  lemma RangeOpInRange(t: Tree, l: int, r: int, g: Change, next: nat, m: Bounds, eff: int -> int)
    requires EffOk(eff, m) && Ordered(Cells(t)) && Sound(t, {}, eff) && InRange(t, m)
    requires AllOk(RangeCells(Cells(t), l, r, g), m)
    requires g.hasSet || 0 <= g.setCap <= m.cap
    ensures InRange(RangeOp(t, l, r, g, next, eff).0, m)
  {
    hide Merge, Isolate, Cells, Ordered, Sound, ShiftRoot, Clear, InRange, EffOk, CutAt, AllOk,
         ShiftCells, ChangedCells, AllBefore, AllFrom, EndsBy;
    if t.Node? && l < r {
      var (c, mid, b, _) := Isolate(t, l, r, next, eff);
      IsolateIsExact(t, l, r, next, eff);
      IsolateInRange(t, l, r, next, m, eff);
      IsolateParts(t, l, r, next, eff);
      CellsIsolate(t, l, r, next, eff);
      ChangedParts(Cells(c), Cells(mid), Cells(b), l, r, g);
      MiddleOk(Cells(c), ShiftCells(Cells(mid), g), Cells(b), m);
      var changed := ShiftRoot(mid, g, eff);
      ClearOfNothing(Cells(mid));
      if mid.Node? {
        SetCapOk(Cells(mid), g, m);
        InRangeShiftRoot(mid, g, {}, m, eff);
      } else {
        LeafShift(mid, g, eff);
      }
      SoundShiftRoot(mid, g, {}, eff);
      SoundMerge(c, changed, {}, eff);
      InRangeMerge(c, changed, {}, m, eff);
      InRangeMerge(Merge(c, changed, eff), b, {}, m, eff);
    }
  }

  lemma IsolateParts(t: Tree, l: int, r: int, next: nat, eff: int -> int)
    ensures var (t1, n1) := EnsureBoundary(t, l, next, eff);
            var (t2, n2) := EnsureBoundary(t1, r, n1, eff);
            var (a, b) := Split(t2, r, eff);
            var (c, mid) := Split(a, l, eff);
            Isolate(t, l, r, next, eff) == (c, mid, b, n2)
  {
    hide EnsureBoundary, Split;
  }

  lemma LeafShift(t: Tree, g: Change, eff: int -> int)
    requires t.Leaf?
    ensures ShiftRoot(t, g, eff) == t
  {
  }

  lemma SetCapOk(cs: seq<Cell>, g: Change, m: Bounds)
    requires cs != [] && AllOk(ShiftCells(cs, g), m) && (g.hasSet || 0 <= g.setCap <= m.cap)
    ensures 0 <= g.setCap <= m.cap
  {
    var k := ShiftCells(cs, g);
    assert LevelOk(k[0].level, m);
  }

  lemma MiddleOk(a: seq<Cell>, mid: seq<Cell>, b: seq<Cell>, m: Bounds)
    requires AllOk(a + mid + b, m)
    ensures AllOk(mid, m)
  {
    forall i | 0 <= i < |mid| ensures LevelOk(mid[i].level, m) {
      assert mid[i] == (a + mid + b)[|a| + i];
    }
  }

  // ---- whole runs ----

  ghost predicate ProfileOk(p: Profile, m: Bounds) {
    forall x :: x in p ==> LevelOk(p[x], m)
  }

  lemma CellsOfProfile(cs: seq<Cell>, m: Bounds)
    requires Tiles(cs) && ProfileOk(ProfileOf(cs), m)
    ensures AllOk(cs, m)
  {
    hide LevelOk;
    var p := ProfileOf(cs);
    forall i | 0 <= i < |cs| ensures LevelOk(cs[i].level, m) {
      var x := cs[i].start;
      assert Lo(cs) <= x by { if i > 0 { assert cs[0].end <= cs[i].start; } }
      assert x < Hi(cs) by { if i < |cs| - 1 { assert cs[i].end <= cs[|cs| - 1].start; } }
      LevelAtCell(cs, i, x);
      assert p[x] == cs[i].level;
    }
  }

  /** Whole runs: if the represented function satisfied the discipline after each operation, the
      tree that is reached stores nothing out of range. */
  lemma {:induction false} RunStaysInRange(origin: int, horizon: int, cap: int, ops: seq<Op>, m: Bounds, eff: int -> int)
    requires horizon > 0 && EffOk(eff, m) && 0 <= cap <= m.cap
    requires forall k :: 0 <= k <= |ops| ==> ProfileOk(ProfileAfter(FreeProfile(origin, horizon, cap), ops[..k]), m)
    ensures InRange(Run(Initial(origin, horizon, cap, eff), ops, eff).tree, m)
    decreases |ops|
  {
    hide Cells, Initial, RangeOp, RangeCells, Sound, InRange, EffOk, ProfileOk, ProfileOf, Ordered, TreapShape.Canonical;
    if ops == [] {
      InitialInRange(origin, horizon, cap, m, eff);
    } else {
      var before, op := ops[..|ops| - 1], ops[|ops| - 1];
      assert forall k :: 0 <= k <= |before| ==> before[..k] == ops[..k];
      RunStaysInRange(origin, horizon, cap, before, m, eff);
      RunRefines(origin, horizon, cap, before, eff);
      RunRefines(origin, horizon, cap, ops, eff);
      var x := Run(Initial(origin, horizon, cap, eff), before, eff);
      if !Skips(op) {
        assert ops[..|ops|] == ops;
        CellsRangeOp(x.tree, op.l, op.r, ChangeOf(op), x.pool, eff);
        CellsOfProfile(RangeCells(Cells(x.tree), op.l, op.r, ChangeOf(op)), m);
        ChangeSetCap(op, m, eff);
        RangeOpInRange(x.tree, op.l, op.r, ChangeOf(op), x.pool, m, eff);
      }
    }
  }

  lemma ChangeSetCap(op: Op, m: Bounds, eff: int -> int)
    requires EffOk(eff, m)
    ensures ChangeOf(op).hasSet || 0 <= ChangeOf(op).setCap <= m.cap
  {
  }

  lemma InitialInRange(origin: int, horizon: int, cap: int, m: Bounds, eff: int -> int)
    requires horizon > 0 && EffOk(eff, m) && 0 <= cap <= m.cap
    ensures InRange(Initial(origin, horizon, cap, eff).tree, m)
  {
    hide Pulled;
    var b := Body(Cell(origin, origin + horizon, Level(0, 0, 0, cap)), ZERO_AGG, NO_CHANGE, Int64.DetPrio(origin));
    InRangePulled(0, b, Leaf, Leaf, m, eff);
  }

  /** In range means in the 64-bit range, field by field. */
  ghost predicate NodeFits(b: Body) {
    && Int64.Fits(b.cell.level.hard) && Int64.Fits(b.cell.level.soft) && Int64.Fits(b.cell.level.held) && Int64.Fits(b.cell.level.cap)
    && Int64.Fits(b.agg.minHard) && Int64.Fits(b.agg.minSoft) && Int64.Fits(b.agg.maxHard) && Int64.Fits(b.agg.maxSoft)
    && Int64.Fits(b.tag.hard) && Int64.Fits(b.tag.soft) && Int64.Fits(b.tag.held) && Int64.Fits(b.tag.setCap)
  }

  ghost predicate Fits(t: Tree) {
    t.Node? ==> NodeFits(t.body) && Fits(t.left) && Fits(t.right)
  }

  lemma {:induction false} InRangeFits(t: Tree, m: Bounds, eff: int -> int)
    requires EffOk(eff, m) && InRange(t, m)
    ensures Fits(t)
    decreases t
  {
    if t.Node? {
      InRangeFits(t.left, m, eff);
      InRangeFits(t.right, m, eff);
      var cs := Cells(t);
      assert cs[Size(t.left)] == t.body.cell;
      assert LevelOk(cs[Size(t.left)].level, m);
    }
  }
}
