/** What the index stores inside an operation. A push is four writes to each child, one part of the
    tag after the other, and each part leaves a number that no whole tree ever shows. */
module TreapStores {
  import opened Levels
  import opened Treap
  import opened TreapCells
  import opened TreapProfile
  import opened TreapExact
  import opened TreapShape
  import opened TreapRun
  import opened TreapMachine
  import Int64

  /** What a push has applied to a child after its first `i` writes: the capacity, then the hard,
      soft and held parts. */
  function Part(g: Change, i: int): Change {
    Change(if i >= 2 then g.hard else 0, if i >= 3 then g.soft else 0, if i >= 4 then g.held else 0,
           i >= 1 && g.hasSet, if i >= 1 && g.hasSet then g.setCap else 0)
  }

  /** The child as the write leaves it stores 64-bit numbers. */
  ghost predicate ChildStores(c: Tree, g: Change, eff: int -> int) {
    c.Node? ==> NodeFits(ShiftBody(c.body, g, eff))
  }

  /** Every write of a push does. */
  ghost predicate PushStores(t: Tree, eff: int -> int)
    requires t.Node?
  {
    forall i :: 1 <= i <= 4 ==> ChildStores(t.left, Part(t.body.tag, i), eff) && ChildStores(t.right, Part(t.body.tag, i), eff)
  }

  /** Every write of a split: the pushes down the path and the pulls on the way back. */
  ghost predicate SplitStores(t: Tree, key: int, eff: int -> int)
    decreases Size(t)
  {
    t.Node? ==>
      && PushStores(t, eff)
      && var p := Push(t, eff);
         if p.body.cell.start < key then
           SplitStores(p.right, key, eff) && NodeFits(Pulled(p.idx, p.body, p.left, Split(p.right, key, eff).0, eff).body)
         else
           SplitStores(p.left, key, eff) && NodeFits(Pulled(p.idx, p.body, Split(p.left, key, eff).1, p.right, eff).body)
  }

  ghost predicate MergeStores(a: Tree, b: Tree, eff: int -> int)
    decreases Size(a) + Size(b)
  {
    a.Node? && b.Node? ==>
      if a.body.prio > b.body.prio then
        && PushStores(a, eff)
        && var p := Push(a, eff);
           MergeStores(p.right, b, eff) && NodeFits(Pulled(p.idx, p.body, p.left, Merge(p.right, b, eff), eff).body)
      else
        && PushStores(b, eff)
        && var p := Push(b, eff);
           MergeStores(a, p.left, eff) && NodeFits(Pulled(p.idx, p.body, Merge(a, p.left, eff), p.right, eff).body)
  }

  ghost predicate DetachStores(t: Tree, eff: int -> int)
    requires t.Node?
    decreases Size(t)
  {
    && PushStores(t, eff)
    && var p := Push(t, eff);
       p.right.Node? ==> DetachStores(p.right, eff) && NodeFits(Pulled(p.idx, p.body, p.left, DetachMax(p.right, eff), eff).body)
  }

  ghost predicate BoundaryStores(t: Tree, key: int, next: nat, eff: int -> int) {
    t.Node? ==>
      && SplitStores(t, key, eff)
      && var (a, b) := Split(t, key, eff);
         if a.Node? && key < Rightmost(a).cell.end then
           var cell := Rightmost(a).cell;
           var left, right := Fresh(next, cell.start, key, cell.level), Fresh(next + 1, key, cell.end, cell.level);
           && DetachStores(a, eff) && NodeFits(left.body) && NodeFits(right.body)
           && MergeStores(DetachMax(a, eff), left, eff)
           && MergeStores(Merge(DetachMax(a, eff), left, eff), right, eff)
           && MergeStores(Merge(Merge(DetachMax(a, eff), left, eff), right, eff), b, eff)
         else MergeStores(a, b, eff)
  }

  /** Every write of a range operation. */
  ghost predicate RangeStores(t: Tree, l: int, r: int, g: Change, next: nat, eff: int -> int) {
    t.Node? && l < r ==>
      var (t1, n1) := EnsureBoundary(t, l, next, eff);
      var (t2, n2) := EnsureBoundary(t1, r, n1, eff);
      var (a, b) := Split(t2, r, eff);
      var (c, mid) := Split(a, l, eff);
      && BoundaryStores(t, l, next, eff) && BoundaryStores(t1, r, n1, eff)
      && SplitStores(t2, r, eff) && SplitStores(a, l, eff)
      && ChildStores(mid, g, eff)
      && MergeStores(c, ShiftRoot(mid, g, eff), eff) && MergeStores(Merge(c, ShiftRoot(mid, g, eff), eff), b, eff)
  }

  ghost predicate StepStores(x: Index, op: Op, eff: int -> int) {
    !Skips(op) ==> RangeStores(x.tree, op.l, op.r, ChangeOf(op), x.pool, eff)
  }

  // ---- where every write stays in range ----

  /** Hard commitments and holds are each within capacity and nothing is asked of the two
      together: a level whose parts come from two such levels is again such a level. */
  ghost predicate IsBox(m: Bounds) {
    m.load == 2 * m.cap
  }

  lemma PartOk(v: Level, g: Change, i: int, m: Bounds)
    requires IsBox(m) && LevelOk(v, m) && LevelOk(Apply(v, g), m)
    ensures LevelOk(Apply(v, Part(g, i)), m)
  {
  }

  lemma PartsOk(cs: seq<Cell>, g: Change, i: int, m: Bounds)
    requires IsBox(m) && AllOk(cs, m) && AllOk(ShiftCells(cs, g), m)
    ensures AllOk(ShiftCells(cs, Part(g, i)), m)
  {
    hide LevelOk, Part, Apply;
    forall k | 0 <= k < |cs| ensures LevelOk(ShiftCells(cs, Part(g, i))[k].level, m) {
      assert LevelOk(cs[k].level, m) && LevelOk(ShiftCells(cs, g)[k].level, m);
      PartOk(cs[k].level, g, i, m);
    }
  }

  lemma RootFits(t: Tree, m: Bounds, eff: int -> int)
    requires EffOk(eff, m) && t.Node? && InRange(t, m)
    ensures NodeFits(t.body)
  {
    hide NodeFits;
    InRangeFits(t, m, eff);
  }

  lemma ChildOk(c: Tree, g: Change, i: int, keys: set<int>, m: Bounds, eff: int -> int)
    requires EffOk(eff, m) && IsBox(m) && InRange(c, m) && Sound(c, keys, eff)
    requires AllOk(ShiftCells(Cells(c), g), m) && 0 <= g.setCap <= m.cap && (Clear(Cells(c), keys) || IsNull(g))
    ensures ChildStores(c, Part(g, i), eff)
  {
    hide NodeFits, AllOk, ShiftCells, Clear, Sound, EffOk, IsBox;
    if c.Node? {
      CellsAreOk(c, m);
      PartsOk(Cells(c), g, i, m);
      InRangeShiftRoot(c, Part(g, i), keys, m, eff);
      RootFits(ShiftRoot(c, Part(g, i), eff), m, eff);
    }
  }

  lemma CellsAreOk(t: Tree, m: Bounds)
    requires InRange(t, m)
    ensures AllOk(Cells(t), m)
  {
  }

  lemma PushInRange(t: Tree, keys: set<int>, m: Bounds, eff: int -> int)
    requires EffOk(eff, m) && IsBox(m) && t.Node? && InRange(t, m) && Sound(t, keys, eff)
    ensures PushStores(t, eff)
  {
    hide ShiftCells, AllOk, Clear, ChildStores, IsBox, EffOk;
    var L, R, g := Cells(t.left), Cells(t.right), t.body.tag;
    AllOkConcat(ShiftCells(L, g), t.body.cell, ShiftCells(R, g), m);
    ClearConcat(ShiftCells(L, g), t.body.cell, ShiftCells(R, g), keys);
    ClearShift(L, g, keys);
    ClearShift(R, g, keys);
    forall i | 1 <= i <= 4 ensures ChildStores(t.left, Part(g, i), eff) && ChildStores(t.right, Part(g, i), eff) {
      ChildOk(t.left, g, i, keys, m, eff);
      ChildOk(t.right, g, i, keys, m, eff);
    }
  }

  lemma {:induction false} SplitInRange(t: Tree, key: int, keys: set<int>, m: Bounds, eff: int -> int)
    requires EffOk(eff, m) && IsBox(m) && Sound(t, keys, eff) && InRange(t, m)
    ensures SplitStores(t, key, eff)
    decreases Size(t)
  {
    hide Push, Pulled, Sound, LevelOk, EffOk, TagOk, AggOk, AllOk, NodeFits, PushStores, IsBox, InRange;
    if t.Node? {
      var p := Push(t, eff);
      SoundPush(t, keys, eff);
      InRangePush(t, keys, m, eff);
      PushInRange(t, keys, m, eff);
      if p.body.cell.start < key {
        SplitInRange(p.right, key, keys, m, eff);
        InRangeSplit(p.right, key, keys, m, eff);
        PulledFits(p.idx, p.body, p.left, Split(p.right, key, eff).0, m, eff);
      } else {
        SplitInRange(p.left, key, keys, m, eff);
        InRangeSplit(p.left, key, keys, m, eff);
        PulledFits(p.idx, p.body, Split(p.left, key, eff).1, p.right, m, eff);
      }
    }
  }

  lemma PulledFits(idx: nat, b: Body, left: Tree, right: Tree, m: Bounds, eff: int -> int)
    requires EffOk(eff, m) && IsNull(b.tag) && 0 <= b.tag.setCap <= m.cap
    requires LevelOk(b.cell.level, m) && InRange(left, m) && InRange(right, m)
    ensures NodeFits(Pulled(idx, b, left, right, eff).body)
  {
    hide NodeFits, InRange, EffOk, LevelOk, PulledAgg;
    InRangePulled(idx, b, left, right, m, eff);
    RootFits(Pulled(idx, b, left, right, eff), m, eff);
  }

  lemma {:induction false} MergeInRange(a: Tree, b: Tree, keys: set<int>, m: Bounds, eff: int -> int)
    requires EffOk(eff, m) && IsBox(m) && Sound(a, keys, eff) && Sound(b, keys, eff)
    requires InRange(a, m) && InRange(b, m)
    ensures MergeStores(a, b, eff)
    decreases Size(a) + Size(b)
  {
    hide Push, Pulled, Sound, InRange, LevelOk, EffOk, NodeFits, PushStores, IsBox;
    if a.Leaf? || b.Leaf? {
    } else if a.body.prio > b.body.prio {
      var p := Push(a, eff);
      SoundPush(a, keys, eff);
      InRangePush(a, keys, m, eff);
      PushInRange(a, keys, m, eff);
      MergeInRange(p.right, b, keys, m, eff);
      InRangeMerge(p.right, b, keys, m, eff);
      PulledFits(p.idx, p.body, p.left, Merge(p.right, b, eff), m, eff);
    } else {
      var p := Push(b, eff);
      SoundPush(b, keys, eff);
      InRangePush(b, keys, m, eff);
      PushInRange(b, keys, m, eff);
      MergeInRange(a, p.left, keys, m, eff);
      InRangeMerge(a, p.left, keys, m, eff);
      PulledFits(p.idx, p.body, Merge(a, p.left, eff), p.right, m, eff);
    }
  }

  lemma {:induction false} DetachInRange(t: Tree, keys: set<int>, m: Bounds, eff: int -> int)
    requires EffOk(eff, m) && IsBox(m) && t.Node? && Sound(t, keys, eff) && InRange(t, m)
    ensures DetachStores(t, eff)
    decreases Size(t)
  {
    hide Push, Pulled, Sound, InRange, LevelOk, EffOk, NodeFits, PushStores, IsBox;
    var p := Push(t, eff);
    SoundPush(t, keys, eff);
    InRangePush(t, keys, m, eff);
    PushInRange(t, keys, m, eff);
    if p.right.Node? {
      DetachInRange(p.right, keys, m, eff);
      InRangeDetachMax(p.right, keys, m, eff);
      PulledFits(p.idx, p.body, p.left, DetachMax(p.right, eff), m, eff);
    }
  }

  lemma FreshFits(idx: nat, start: int, end: int, v: Level, m: Bounds, eff: int -> int)
    requires EffOk(eff, m) && LevelOk(v, m)
    ensures NodeFits(Fresh(idx, start, end, v).body)
  {
    hide NodeFits, EffOk, LevelOk;
    InRangeFresh(idx, start, end, v, m, eff);
    RootFits(Fresh(idx, start, end, v), m, eff);
  }

  lemma BoundaryInRange(t: Tree, key: int, next: nat, keys: set<int>, m: Bounds, eff: int -> int)
    requires EffOk(eff, m) && IsBox(m) && Ordered(Cells(t)) && Sound(t, keys, eff) && InRange(t, m)
    ensures BoundaryStores(t, key, next, eff)
  {
    hide Merge, DetachMax, Split, Cells, Ordered, Sound, InRange, LevelOk, EffOk, Rightmost, SpineClean, NodeFits, Fresh, IsBox,
         SplitStores, MergeStores, DetachStores;
    if t.Node? {
      var (a, b) := Split(t, key, eff);
      var keys' := keys + {key};
      SoundSplit(t, key, keys, keys', eff);
      SplitInRange(t, key, keys, m, eff);
      InRangeSplit(t, key, keys, m, eff);
      if a.Node? && key < Rightmost(a).cell.end {
        var cell := Rightmost(a).cell;
        var left, right := Fresh(next, cell.start, key, cell.level), Fresh(next + 1, key, cell.end, cell.level);
        SplitCleansSpine(t, key, eff);
        RightmostOk(a, m);
        FreshFits(next, cell.start, key, cell.level, m, eff);
        FreshFits(next + 1, key, cell.end, cell.level, m, eff);
        InRangeFresh(next, cell.start, key, cell.level, m, eff);
        InRangeFresh(next + 1, key, cell.end, cell.level, m, eff);
        SoundFresh(next, cell.start, key, cell.level, keys', eff);
        SoundFresh(next + 1, key, cell.end, cell.level, keys', eff);
        RejoinInRange(a, b, left, right, keys', m, eff);
      } else {
        MergeInRange(a, b, keys', m, eff);
      }
    }
  }

  lemma RejoinInRange(a: Tree, b: Tree, left: Tree, right: Tree, keys: set<int>, m: Bounds, eff: int -> int)
    requires EffOk(eff, m) && IsBox(m) && a.Node?
    requires Sound(a, keys, eff) && Sound(b, keys, eff) && Sound(left, keys, eff) && Sound(right, keys, eff)
    requires InRange(a, m) && InRange(b, m) && InRange(left, m) && InRange(right, m)
    ensures DetachStores(a, eff) && MergeStores(DetachMax(a, eff), left, eff)
    ensures MergeStores(Merge(DetachMax(a, eff), left, eff), right, eff)
    ensures MergeStores(Merge(Merge(DetachMax(a, eff), left, eff), right, eff), b, eff)
  {
    hide Merge, DetachMax, Sound, InRange, EffOk, IsBox, MergeStores, DetachStores;
    var a1 := DetachMax(a, eff);
    DetachInRange(a, keys, m, eff);
    SoundDetachMax(a, keys, eff);
    InRangeDetachMax(a, keys, m, eff);
    MergeInRange(a1, left, keys, m, eff);
    SoundMerge(a1, left, keys, eff);
    InRangeMerge(a1, left, keys, m, eff);
    var a2 := Merge(a1, left, eff);
    MergeInRange(a2, right, keys, m, eff);
    SoundMerge(a2, right, keys, eff);
    InRangeMerge(a2, right, keys, m, eff);
    MergeInRange(Merge(a2, right, eff), b, keys, m, eff);
  }

  /** Every write of a range operation between two trees in order stays in range. */
  lemma RangeInRange(t: Tree, l: int, r: int, g: Change, next: nat, m: Bounds, eff: int -> int)
    requires EffOk(eff, m) && IsBox(m) && Ordered(Cells(t)) && Sound(t, {}, eff) && InRange(t, m)
    requires AllOk(RangeCells(Cells(t), l, r, g), m)
    requires g.hasSet || 0 <= g.setCap <= m.cap
    ensures RangeStores(t, l, r, g, next, eff)
  {
    hide Merge, Isolate, EnsureBoundary, Split, Cells, Ordered, Sound, ShiftRoot, Clear, InRange, EffOk, CutAt, AllOk, IsBox,
         ShiftCells, ChangedCells, AllBefore, AllFrom, EndsBy, BoundaryStores, SplitStores, MergeStores, ChildStores;
    if t.Node? && l < r {
      var (t1, n1) := EnsureBoundary(t, l, next, eff);
      var (t2, n2) := EnsureBoundary(t1, r, n1, eff);
      var (a, b) := Split(t2, r, eff);
      var (c, mid) := Split(a, l, eff);
      CutsInRange(t, l, r, next, m, eff);
      IsolateParts(t, l, r, next, eff);
      IsolateIsExact(t, l, r, next, eff);
      IsolateInRange(t, l, r, next, m, eff);
      CellsIsolate(t, l, r, next, eff);
      ChangedParts(Cells(c), Cells(mid), Cells(b), l, r, g);
      MiddleOk(Cells(c), ShiftCells(Cells(mid), g), Cells(b), m);
      ChangedInRange(c, mid, b, g, m, eff);
    }
  }

  lemma CutsInRange(t: Tree, l: int, r: int, next: nat, m: Bounds, eff: int -> int)
    requires EffOk(eff, m) && IsBox(m) && Ordered(Cells(t)) && Sound(t, {}, eff) && InRange(t, m) && l < r
    ensures var (t1, n1) := EnsureBoundary(t, l, next, eff);
            var (t2, n2) := EnsureBoundary(t1, r, n1, eff);
            var (a, b) := Split(t2, r, eff);
            && BoundaryStores(t, l, next, eff) && BoundaryStores(t1, r, n1, eff)
            && SplitStores(t2, r, eff) && SplitStores(a, l, eff)
  {
    hide EnsureBoundary, Split, Cells, Ordered, Sound, CutAt, InRange, EffOk, IsBox, BoundaryStores, SplitStores;
    var (t1, n1) := EnsureBoundary(t, l, next, eff);
    var (t2, n2) := EnsureBoundary(t1, r, n1, eff);
    var (a, b) := Split(t2, r, eff);
    CellsEnsureBoundary(t, l, next, eff);
    CutOrdered(Cells(t), l);
    CellsEnsureBoundary(t1, r, n1, eff);
    CutOrdered(Cells(t1), r);
    SoundEnsureBoundary(t, l, next, {}, eff);
    IsolateInRange(t, l, r, next, m, eff);
    BoundaryInRange(t, l, next, {}, m, eff);
    SoundEnsureBoundary(t1, r, n1, {} + {l}, eff);
    BoundaryInRange(t1, r, n1, {} + {l}, m, eff);
    SoundSplit(t2, r, {} + {l} + {r}, {} + {l}, eff);
    SplitInRange(t2, r, {} + {l} + {r}, m, eff);
    SplitInRange(a, l, {} + {l}, m, eff);
  }

  lemma ChangedInRange(c: Tree, mid: Tree, b: Tree, g: Change, m: Bounds, eff: int -> int)
    requires EffOk(eff, m) && IsBox(m)
    requires Sound(c, {}, eff) && Sound(mid, {}, eff) && Sound(b, {}, eff) && InRange(c, m) && InRange(mid, m) && InRange(b, m)
    requires AllOk(ShiftCells(Cells(mid), g), m) && (g.hasSet || 0 <= g.setCap <= m.cap)
    ensures ChildStores(mid, g, eff)
    ensures MergeStores(c, ShiftRoot(mid, g, eff), eff) && MergeStores(Merge(c, ShiftRoot(mid, g, eff), eff), b, eff)
  {
    hide Merge, Cells, Sound, ShiftRoot, Clear, InRange, EffOk, AllOk, IsBox, ShiftCells, MergeStores, NodeFits;
    var changed := ShiftRoot(mid, g, eff);
    ClearOfNothing(Cells(mid));
    if mid.Node? {
      SetCapOk(Cells(mid), g, m);
      InRangeShiftRoot(mid, g, {}, m, eff);
      RootFits(changed, m, eff);
      ShiftedBody(mid, g, eff);
    } else {
      LeafShift(mid, g, eff);
    }
    SoundShiftRoot(mid, g, {}, eff);
    SoundMerge(c, changed, {}, eff);
    MergeInRange(c, changed, {}, m, eff);
    InRangeMerge(c, changed, {}, m, eff);
    MergeInRange(Merge(c, changed, eff), b, {}, m, eff);
  }

  lemma ShiftedBody(t: Tree, g: Change, eff: int -> int)
    requires t.Node?
    ensures ShiftRoot(t, g, eff).body == ShiftBody(t.body, g, eff)
  {
  }

  // ---- whole runs ----

  /** If each part of the represented function stayed within its own bound after every operation,
      and twice the capacity plus the effective capacity fits 64 bits, no write of any push, pull
      or tag anywhere in the run leaves the 64-bit range. */
  lemma {:induction false} RunStoresInRange(origin: int, horizon: int, cap: int, ops: seq<Op>, m: Bounds, eff: int -> int)
    requires horizon > 0 && EffOk(eff, m) && IsBox(m) && 0 <= cap <= m.cap
    requires forall k :: 0 <= k <= |ops| ==> ProfileOk(ProfileAfter(FreeProfile(origin, horizon, cap), ops[..k]), m)
    ensures forall k :: 0 <= k < |ops| ==> StepStores(Run(Initial(origin, horizon, cap, eff), ops[..k], eff), ops[k], eff)
    ensures Fits(Run(Initial(origin, horizon, cap, eff), ops, eff).tree)
  {
    hide Initial, RangeStores, EffOk, ProfileOk, InRange, ProfileAfter, Run, Fits, StepStores, IsBox;
    RunStaysInRange(origin, horizon, cap, ops, m, eff);
    InRangeFits(Run(Initial(origin, horizon, cap, eff), ops, eff).tree, m, eff);
    forall k | 0 <= k < |ops| ensures StepStores(Run(Initial(origin, horizon, cap, eff), ops[..k], eff), ops[k], eff) {
      assert forall j :: 0 <= j <= k ==> ops[..k][..j] == ops[..j];
      RunStaysInRange(origin, horizon, cap, ops[..k], m, eff);
      assert ops[..k + 1][..k] == ops[..k] && ops[..k + 1][k] == ops[k];
      LastStepStores(origin, horizon, cap, ops[..k + 1], m, eff);
    }
  }

  lemma LastStepStores(origin: int, horizon: int, cap: int, ops: seq<Op>, m: Bounds, eff: int -> int)
    requires horizon > 0 && EffOk(eff, m) && IsBox(m) && 0 <= cap <= m.cap && ops != []
    requires ProfileOk(ProfileAfter(FreeProfile(origin, horizon, cap), ops), m)
    requires InRange(Run(Initial(origin, horizon, cap, eff), ops[..|ops| - 1], eff).tree, m)
    ensures StepStores(Run(Initial(origin, horizon, cap, eff), ops[..|ops| - 1], eff), ops[|ops| - 1], eff)
  {
    hide Cells, Initial, RangeOp, RangeCells, Sound, InRange, EffOk, ProfileOk, ProfileOf, Ordered, Canonical, RangeStores, IsBox;
    var before, op := ops[..|ops| - 1], ops[|ops| - 1];
    RunRefines(origin, horizon, cap, before, eff);
    RunRefines(origin, horizon, cap, ops, eff);
    var x := Run(Initial(origin, horizon, cap, eff), before, eff);
    if !Skips(op) {
      CellsRangeOp(x.tree, op.l, op.r, ChangeOf(op), x.pool, eff);
      CellsOfProfile(RangeCells(Cells(x.tree), op.l, op.r, ChangeOf(op)), m);
      ChangeSetCap(op, m, eff);
      RangeInRange(x.tree, op.l, op.r, ChangeOf(op), x.pool, m, eff);
    }
  }
}
