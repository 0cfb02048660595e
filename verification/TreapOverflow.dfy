/** What the index needs to store nothing outside 64 bits: twice the capacity plus the effective
    capacity, no less. Capacity and effective capacity together are not enough: at any capacity and
    ratio beyond the bound a run of eight operations, which never overcommits, makes a push store
    exactly that sum. */
module TreapOverflow {
  import opened Levels
  import opened Treap
  import opened TreapCells
  import opened TreapProfile
  import opened TreapExact
  import opened TreapShape
  import opened TreapRun
  import opened TreapMachine
  import opened TreapStores
  import Int64

  /** Read twice, commit softly, hold, read, drop the hold, commit hard, read. */
  function Ops(c: int, r: int): (ops: seq<Op>)
    ensures |ops| == 8
  {
    [Query(7, 11), Query(12, 64), AddSoft(0, 64, EffOf(r)(c)), AddHeld(0, 64, c), Query(7, 11),
     AddHeld(0, 64, -c), AddHard(0, 64, c), Query(7, 11)]
  }

  function After(c: int, r: int, k: nat): Index
    requires k <= |Ops(c, r)|
  {
    Run(Initial(0, 64, c, EffOf(r)), Ops(c, r)[..k], EffOf(r))
  }

  function LevelAfter(c: int, r: int, k: nat): Level
    requires k <= |Ops(c, r)|
  {
    Level(if k >= 7 then c else 0, if k >= 3 then EffOf(r)(c) else 0, if 4 <= k <= 5 then c else 0, c)
  }

  // ---- the levels are in order all along ----

  /** One level all over the span. */
  ghost predicate IsFlat(p: Profile, v: Level) {
    && (forall x :: x in p <==> 0 <= x < 64)
    && forall x :: x in p ==> p[x] == v
  }

  /** Each operation of a run changes the whole span or nothing. */
  predicate IsWhole(op: Op) {
    op.Query? || (op.l == 0 && op.r == 64)
  }

  function LevelOver(c: int, ops: seq<Op>): Level {
    if ops == [] then Level(0, 0, 0, c) else Apply(LevelOver(c, ops[..|ops| - 1]), ChangeOf(ops[|ops| - 1]))
  }

  lemma {:induction false} FlatRun(c: int, ops: seq<Op>)
    requires forall i :: 0 <= i < |ops| ==> IsWhole(ops[i])
    ensures IsFlat(ProfileAfter(FreeProfile(0, 64, c), ops), LevelOver(c, ops))
    decreases |ops|
  {
    hide IsFlat, Changed, FreeProfile, ChangeOf, Apply;
    if ops == [] {
      FlatFree(c);
    } else {
      var before := ops[..|ops| - 1];
      FlatRun(c, before);
      FlatStep(ProfileAfter(FreeProfile(0, 64, c), before), LevelOver(c, before), ops[|ops| - 1]);
    }
  }

  lemma OneMore(c: int, r: int, k: nat)
    requires 0 < k <= |Ops(c, r)|
    ensures LevelOver(c, Ops(c, r)[..k]) == Apply(LevelOver(c, Ops(c, r)[..k - 1]), ChangeOf(Ops(c, r)[k - 1]))
  {
    hide Apply, ChangeOf, LevelOver;
    assert Ops(c, r)[..k][..k - 1] == Ops(c, r)[..k - 1] && Ops(c, r)[..k][k - 1] == Ops(c, r)[k - 1];
    MoreLevel(c, Ops(c, r)[..k]);
  }

  lemma MoreLevel(c: int, ops: seq<Op>)
    requires ops != []
    ensures LevelOver(c, ops) == Apply(LevelOver(c, ops[..|ops| - 1]), ChangeOf(ops[|ops| - 1]))
  {
  }

  lemma {:induction false} LevelsAlong(c: int, r: int, k: nat)
    requires k <= |Ops(c, r)|
    ensures LevelOver(c, Ops(c, r)[..k]) == LevelAfter(c, r, k)
  {
    hide LevelOver, LevelAfter, Apply, ChangeOf;
    if k == 0 {
      NoLevel(c, r);
    } else {
      LevelsAlong(c, r, k - 1);
      OneMore(c, r, k);
      LevelNext(c, r, k);
    }
  }

  lemma OpsAre(c: int, r: int)
    ensures var s := Ops(c, r);
            && s[0] == Query(7, 11) && s[1] == Query(12, 64) && s[2] == AddSoft(0, 64, EffOf(r)(c)) && s[3] == AddHeld(0, 64, c)
            && s[4] == Query(7, 11) && s[5] == AddHeld(0, 64, -c) && s[6] == AddHard(0, 64, c) && s[7] == Query(7, 11)
  {
  }

  lemma LevelNext(c: int, r: int, k: nat)
    requires 0 < k <= |Ops(c, r)|
    ensures LevelAfter(c, r, k) == Apply(LevelAfter(c, r, k - 1), ChangeOf(Ops(c, r)[k - 1]))
  {
    hide Ops;
    OpsAre(c, r);
  }

  lemma NoLevel(c: int, r: int)
    ensures LevelOver(c, Ops(c, r)[..0]) == LevelAfter(c, r, 0)
  {
  }

  lemma ProfileIs(c: int, r: int, k: nat)
    requires k <= |Ops(c, r)|
    ensures IsFlat(ProfileAfter(FreeProfile(0, 64, c), Ops(c, r)[..k]), LevelAfter(c, r, k))
  {
    hide IsFlat, ProfileAfter, FreeProfile, LevelOver, LevelAfter;
    WholeOps(c, r, k);
    FlatRun(c, Ops(c, r)[..k]);
    LevelsAlong(c, r, k);
  }

  lemma WholeOps(c: int, r: int, k: nat)
    requires k <= |Ops(c, r)|
    ensures forall i :: 0 <= i < |Ops(c, r)[..k]| ==> IsWhole(Ops(c, r)[..k][i])
  {
  }

  lemma FlatFree(c: int)
    ensures IsFlat(FreeProfile(0, 64, c), Level(0, 0, 0, c))
  {
  }

  lemma FlatStep(p: Profile, v: Level, op: Op)
    requires IsFlat(p, v) && IsWhole(op)
    ensures IsFlat(Changed(p, op.l, op.r, ChangeOf(op)), Apply(v, ChangeOf(op)))
  {
  }

  lemma AllInOrder(c: int, r: int, k: nat)
    requires k <= |Ops(c, r)| && 0 <= c && 0 <= r
    ensures ProfileOk(ProfileAfter(FreeProfile(0, 64, c), Ops(c, r)[..k]), Bounds(c, EffOf(r)(c), c))
  {
    hide ProfileAfter, FreeProfile, Ops, Int64.EffCapacity;
    ProfileIs(c, r, k);
    Int64.EffCapacityNonNegative(c, r);
  }

  // ---- the shape ----

  lemma Mixes()
    ensures Int64.Mix(0) == 0x7b1d_cdaf && Int64.Mix(7) == 0x5932_0dd7 && Int64.Mix(11) == 0x2380_309d && Int64.Mix(12) == 0x99de_8f03
  {
  }

  lemma PrioIs(start: int, x: bv64, p: bv64, k: nat)
    requires 0 <= start < Int64.TWO64 && start as bv64 == x && Int64.Mix(x) == p && p as nat == k
    ensures Int64.DetPrio(start) == k
  {
    hide Int64.Mix;
  }

  lemma Priorities()
    ensures Int64.DetPrio(11) < Int64.DetPrio(7) < Int64.DetPrio(0) < Int64.DetPrio(12)
  {
    hide Int64.Mix, Int64.DetPrio;
    Mixes();
    PrioIs(0, 0, 0x7b1d_cdaf, 0x7b1d_cdaf);
    PrioIs(7, 7, 0x5932_0dd7, 0x5932_0dd7);
    PrioIs(11, 11, 0x2380_309d, 0x2380_309d);
    PrioIs(12, 12, 0x99de_8f03, 0x99de_8f03);
  }

  /** The four cells hang in a chain: 12, below it 0 to the left, then 7 and 11 to the right. */
  ghost predicate Chain(t: Tree) {
    && t.Node? && t.right.Leaf? && t.body.cell.start == 12 && t.body.cell.end == 64
    && t.left.Node? && t.left.left.Leaf? && t.left.body.cell.start == 0
    && Under(t).Node? && Under(t).left.Leaf? && Under(t).body.cell.start == 7
    && Under(t).right.Node? && Under(t).right.left.Leaf? && Under(t).right.right.Leaf? && Under(t).right.body.cell.start == 11
  }

  /** The subtree at 7. */
  function Under(t: Tree): Tree
    requires t.Node? && t.left.Node?
  {
    t.left.right
  }

  lemma StartsGiveChain(t: Tree)
    requires Canonical(t) && Starts(t) == [0, 7, 11, 12] && Tiles(Cells(t)) && Hi(Cells(t)) == 64
    ensures Chain(t)
  {
    hide Int64.DetPrio, Canonical, Cells, Tiles;
    Priorities();
    RootPosition(t, 3);
    SplitStarts(t, 3, [0, 7, 11, 12]);
    RightEmpty(t, 64);
    RootPosition(t.left, 0);
    SplitStarts(t.left, 0, [0, 7, 11]);
    RootPosition(t.left.right, 0);
    SplitStarts(t.left.right, 0, [7, 11]);
    SplitStarts(t.left.right.right, 0, [11]);
  }

  lemma SplitStarts(t: Tree, i: nat, s: seq<int>)
    requires t.Node? && Canonical(t) && Starts(t) == s && i < |s| && Size(t.left) == i
    ensures Starts(t.left) == s[..i] && t.body.cell.start == s[i] && Starts(t.right) == s[i + 1..]
    ensures Canonical(t.left) && Canonical(t.right)
    ensures i == 0 ==> t.left.Leaf?
    ensures i == |s| - 1 ==> t.right.Leaf?
  {
  }

  lemma RightEmpty(t: Tree, hi: int)
    requires t.Node? && t.right.Leaf? && Tiles(Cells(t)) && Hi(Cells(t)) == hi
    ensures t.body.cell.end == hi
  {
    hide Tiles;
    assert Cells(t)[|Cells(t)| - 1] == t.body.cell;
  }

  lemma BoundariesAre(c: int, r: int, k: nat, x: int)
    requires 2 <= k <= |Ops(c, r)|
    ensures IsBoundary(Ops(c, r)[..k], x, 0, 64) <==> x in {7, 11, 12}
  {
    assert Ops(c, r)[..k][0] == Query(7, 11) && Ops(c, r)[..k][1] == Query(12, 64);
    forall i | 0 <= i < k ensures Ops(c, r)[..k][i].l in {0, 7, 12} && Ops(c, r)[..k][i].r in {11, 64} {
    }
  }

  lemma AfterIsChain(c: int, r: int, k: nat)
    requires 2 <= k <= |Ops(c, r)|
    ensures Chain(After(c, r, k).tree)
  {
    hide Cells, Starts, Canonical, Tiles, Run, Initial, Sound, IsBoundary, ProfileAfter, Chain;
    var t := After(c, r, k).tree;
    RunRefines(0, 64, c, Ops(c, r)[..k], EffOf(r));
    forall x ensures x in Starts(t) <==> x in [0, 7, 11, 12] {
      RunStarts(0, 64, c, Ops(c, r)[..k], EffOf(r), x);
      BoundariesAre(c, r, k, x);
      StartMember(t, x);
    }
    TilesOrdered(Cells(t));
    StartsRise(t);
    RisingFromSet(Starts(t), [0, 7, 11, 12]);
    StartsGiveChain(t);
  }

  lemma TilesOrdered(cs: seq<Cell>)
    requires Tiles(cs)
    ensures Ordered(cs)
  {
  }

  // ---- a read leaves nothing pending ----

  /** Only nodes without children may carry a tag. */
  ghost predicate Clean(t: Tree) {
    t.Node? ==> Clean(t.left) && Clean(t.right) && (IsNull(t.body.tag) || (t.left.Leaf? && t.right.Leaf?))
  }

  lemma CleanPush(t: Tree, eff: int -> int)
    requires t.Node? && Clean(t)
    ensures Clean(Push(t, eff).left) && Clean(Push(t, eff).right)
  {
  }

  lemma {:induction false} CleanMerge(a: Tree, b: Tree, eff: int -> int)
    requires Clean(a) && Clean(b)
    ensures Clean(Merge(a, b, eff))
    decreases Size(a) + Size(b)
  {
    hide Push, PulledAgg;
    if a.Node? && b.Node? {
      if a.body.prio > b.body.prio {
        CleanPush(a, eff);
        CleanMerge(Push(a, eff).right, b, eff);
      } else {
        CleanPush(b, eff);
        CleanMerge(a, Push(b, eff).left, eff);
      }
    }
  }

  lemma {:induction false} CleanSplit(t: Tree, key: int, eff: int -> int)
    requires Clean(t)
    ensures Clean(Split(t, key, eff).0) && Clean(Split(t, key, eff).1)
    decreases Size(t)
  {
    hide Push, PulledAgg;
    if t.Node? {
      CleanPush(t, eff);
      var p := Push(t, eff);
      if p.body.cell.start < key { CleanSplit(p.right, key, eff); } else { CleanSplit(p.left, key, eff); }
    }
  }

  lemma {:induction false} CleanDetachMax(t: Tree, eff: int -> int)
    requires t.Node? && Clean(t)
    ensures Clean(DetachMax(t, eff))
    decreases Size(t)
  {
    hide Push, PulledAgg;
    CleanPush(t, eff);
    if Push(t, eff).right.Node? { CleanDetachMax(Push(t, eff).right, eff); }
  }

  lemma CleanBoundary(t: Tree, key: int, next: nat, eff: int -> int)
    requires Clean(Split(t, key, eff).0) && Clean(Split(t, key, eff).1)
    ensures Clean(EnsureBoundary(t, key, next, eff).0)
  {
    hide Split, Merge, DetachMax;
    if t.Node? {
      var (a, b) := Split(t, key, eff);
      if a.Node? && key < Rightmost(a).cell.end {
        var cell := Rightmost(a).cell;
        var left, right := Fresh(next, cell.start, key, cell.level), Fresh(next + 1, key, cell.end, cell.level);
        CleanDetachMax(a, eff);
        CleanMerge(DetachMax(a, eff), left, eff);
        CleanMerge(Merge(DetachMax(a, eff), left, eff), right, eff);
        CleanMerge(Merge(Merge(DetachMax(a, eff), left, eff), right, eff), b, eff);
      } else {
        CleanMerge(a, b, eff);
      }
    }
  }

  lemma CleanQuery(t: Tree, l: int, r: int, next: nat, eff: int -> int)
    requires t.Node? && l < r && Clean(Split(t, l, eff).0) && Clean(Split(t, l, eff).1)
    ensures Clean(RangeOp(t, l, r, NO_CHANGE, next, eff).0)
  {
    hide Split, Merge, EnsureBoundary;
    var (t1, n1) := EnsureBoundary(t, l, next, eff);
    var (t2, n2) := EnsureBoundary(t1, r, n1, eff);
    var (a, b) := Split(t2, r, eff);
    var (c, mid) := Split(a, l, eff);
    CleanBoundary(t, l, next, eff);
    CleanSplit(t1, r, eff);
    CleanBoundary(t1, r, n1, eff);
    CleanSplit(t2, r, eff);
    CleanSplit(a, l, eff);
    var mid' := ShiftRoot(mid, NO_CHANGE, eff);
    CleanMerge(c, mid', eff);
    CleanMerge(Merge(c, mid', eff), b, eff);
  }

  /** The way to 7 passes every node that has children. */
  lemma ChainSplitsClean(t: Tree, eff: int -> int)
    requires Chain(t)
    ensures Clean(Split(t, 7, eff).0) && Clean(Split(t, 7, eff).1)
  {
    hide PulledAgg, ShiftAgg, Apply, Compose;
    var p := Push(t, eff);
    var q := Push(p.left, eff);
    var u := Push(q.right, eff);
    assert Split(u.left, 7, eff) == (Leaf, Leaf);
    assert Split(q.right, 7, eff) == (Leaf, Pulled(u.idx, u.body, Leaf, u.right, eff));
    assert Split(p.left, 7, eff) == (Pulled(q.idx, q.body, Leaf, Leaf, eff), Pulled(u.idx, u.body, Leaf, u.right, eff));
    assert Clean(u.right);
    assert Clean(Pulled(u.idx, u.body, Leaf, u.right, eff));
  }

  lemma CleanRead(x: Index, eff: int -> int)
    requires Chain(x.tree)
    ensures Clean(Step(x, Query(7, 11), eff).tree)
  {
    hide RangeOp, Chain, Clean;
    ChainSplitsClean(x.tree, eff);
    ChainIsNode(x.tree);
    CleanQuery(x.tree, 7, 11, x.pool, eff);
  }

  lemma CleanAfterFive(c: int, r: int)
    ensures Clean(After(c, r, 5).tree)
  {
    hide After, Chain, Clean, Step;
    AfterIsChain(c, r, 4);
    CleanRead(After(c, r, 4), EffOf(r));
    AfterNext(c, r, 5);
  }

  lemma ChainIsNode(t: Tree)
    requires Chain(t)
    ensures t.Node?
  {
  }

  lemma AfterNext(c: int, r: int, k: nat)
    requires 0 < k <= |Ops(c, r)|
    ensures After(c, r, k) == Step(After(c, r, k - 1), Ops(c, r)[k - 1], EffOf(r))
  {
    hide Step, Initial;
    assert Ops(c, r)[..k][..k - 1] == Ops(c, r)[..k - 1];
  }

  // ---- what an operation on the whole span leaves pending ----

  /** The same additions, and no new capacity. */
  predicate SameParts(g: Change, h: Change) {
    g.hard == h.hard && g.soft == h.soft && g.held == h.held && !g.hasSet && !h.hasSet
  }

  /** `s` is the chain `t` with the tags at 12 and 0 passed on to 7; 11 is as it was. */
  ghost predicate Passed(t: Tree, s: Tree) {
    && Chain(t) && Chain(s) && IsNull(s.body.tag) && IsNull(s.left.body.tag)
    && SameParts(Under(s).body.tag, Compose(Under(t).body.tag, Compose(t.left.body.tag, t.body.tag)))
    && Under(s).right == Under(t).right
  }

  lemma SplitLeft(t: Tree, eff: int -> int)
    requires Chain(t) && !t.body.tag.hasSet && !t.left.body.tag.hasSet && !Under(t).body.tag.hasSet
    ensures Split(t, 0, eff).0 == Leaf && Passed(t, Split(t, 0, eff).1)
  {
    hide PulledAgg, ShiftAgg, Apply;
    var p := Push(t, eff);
    var q := Push(p.left, eff);
    assert Split(q.left, 0, eff) == (Leaf, Leaf);
    assert Split(p.left, 0, eff) == (Leaf, Pulled(q.idx, q.body, Leaf, q.right, eff));
  }

  lemma SplitRight(t: Tree, eff: int -> int)
    requires Chain(t) && IsNull(t.body.tag) && IsNull(t.left.body.tag) && !Under(t).body.tag.hasSet
    ensures Split(t, 64, eff).1 == Leaf && Passed(t, Split(t, 64, eff).0)
  {
    hide PulledAgg, ShiftAgg, Apply;
    var p := Push(t, eff);
    assert Split(p.right, 64, eff) == (Leaf, Leaf);
  }

  lemma PassedTwice(t: Tree, s: Tree, u: Tree)
    requires Passed(t, s) && Passed(s, u)
    ensures Passed(t, u)
  {
  }

  lemma WholeSpan(t: Tree, g: Change, next: nat, eff: int -> int)
    requires Chain(t) && !t.body.tag.hasSet && !t.left.body.tag.hasSet && !Under(t).body.tag.hasSet && !g.hasSet
    ensures var s := RangeOp(t, 0, 64, g, next, eff).0;
            && Chain(s) && SameParts(s.body.tag, g) && IsNull(s.left.body.tag)
            && SameParts(Under(s).body.tag, Compose(Under(t).body.tag, Compose(t.left.body.tag, t.body.tag)))
            && Under(s).right == Under(t).right
  {
    hide Split, Push, PulledAgg, ShiftAgg, Apply;
    SplitLeft(t, eff);
    var t1 := Split(t, 0, eff).1;
    assert EnsureBoundary(t, 0, next, eff) == (t1, next);
    SplitRight(t1, eff);
    var t2 := Split(t1, 64, eff).0;
    assert EnsureBoundary(t1, 64, next, eff) == (t2, next);
    SplitRight(t2, eff);
    var t3 := Split(t2, 64, eff).0;
    SplitLeft(t3, eff);
    var t4 := Split(t3, 0, eff).1;
    PassedTwice(t, t1, t2);
    PassedTwice(t, t2, t3);
    PassedTwice(t, t3, t4);
  }

  // ---- the overflow ----

  /** Over a clean tree with children a cell shows what it stores. */
  lemma LastLevel(c: int, r: int, k: nat)
    requires 2 <= k <= |Ops(c, r)| && Clean(After(c, r, k).tree)
    ensures Chain(After(c, r, k).tree) && Under(After(c, r, k).tree).right.body.cell.level == LevelAfter(c, r, k)
  {
    hide Run, Initial, ProfileAfter, Sound, Canonical, Tiles, ProfileOf;
    AfterIsChain(c, r, k);
    RunRefines(0, 64, c, Ops(c, r)[..k], EffOf(r));
    ProfileIs(c, r, k);
    var t := After(c, r, k).tree;
    var cs := Cells(t);
    CellTwo(t);
    TilesOrdered(cs);
    StartSpan(cs, 2);
    LevelAtCell(cs, 2, 11);
    assert ProfileOf(cs)[11] == LevelAfter(c, r, k);
    InProfile(cs, 11);
  }

  lemma InProfile(cs: seq<Cell>, x: int)
    requires cs != [] && Lo(cs) <= x < Hi(cs)
    ensures x in ProfileOf(cs) && ProfileOf(cs)[x] == LevelAt(cs, x)
  {
  }

  lemma StartSpan(cs: seq<Cell>, i: nat)
    requires Tiles(cs) && i < |cs|
    ensures cs[i].start < cs[i].end && Lo(cs) <= cs[i].start < Hi(cs)
  {
    if i > 0 { assert cs[0].end <= cs[i].start; }
    if i < |cs| - 1 { assert cs[i].end <= cs[|cs| - 1].start; }
  }

  lemma CellTwo(t: Tree)
    requires Chain(t) && Clean(t)
    ensures |Cells(t)| == 4 && Cells(t)[2] == Under(t).right.body.cell
  {
    CleanTags(t);
    var y := Under(t).right;
    assert Cells(y) == [y.body.cell];
    assert Cells(Under(t)) == [Under(t).body.cell] + ShiftCells(Cells(y), Under(t).body.tag);
    ShiftNull(Cells(y), Under(t).body.tag);
    assert Cells(t.left) == [t.left.body.cell] + ShiftCells(Cells(Under(t)), t.left.body.tag);
    ShiftNull(Cells(Under(t)), t.left.body.tag);
    ShiftNull(Cells(t.left), t.body.tag);
    assert Cells(t) == Cells(t.left) + [t.body.cell];
  }

  /** After the hard commitment 7 still owes 11 the drop of the hold, and 12 owes 7 the hard part. */
  lemma BeforeLast(c: int, r: int)
    requires c > 0
    ensures var t := After(c, r, 7).tree;
            && Chain(t) && SameParts(t.body.tag, Change(c, 0, 0, false, 0)) && IsNull(t.left.body.tag)
            && SameParts(Under(t).body.tag, Change(0, 0, -c, false, 0))
            && Under(t).right.body.cell.level == Level(0, EffOf(r)(c), c, c)
  {
    hide Run, Initial, RangeOp;
    CleanAfterFive(c, r);
    LastLevel(c, r, 5);
    var x5 := After(c, r, 5);
    CleanTags(x5.tree);
    WholeSpan(x5.tree, Change(0, 0, -c, false, 0), x5.pool, EffOf(r));
    AfterNext(c, r, 6);
    var x6 := After(c, r, 6);
    WholeSpan(x6.tree, Change(c, 0, 0, false, 0), x6.pool, EffOf(r));
    AfterNext(c, r, 7);
  }

  lemma CleanTags(t: Tree)
    requires Chain(t) && Clean(t)
    ensures IsNull(t.body.tag) && IsNull(t.left.body.tag) && IsNull(Under(t).body.tag)
  {
    assert Clean(t.left) && Clean(Under(t));
  }

  lemma LastAgg(c: int, r: int)
    requires c > 0
    ensures var t := After(c, r, 7).tree; Chain(t) && Under(t).right.body.agg.maxSoft == c + EffOf(r)(c)
  {
    hide Run, Initial, ProfileAfter, Canonical, Tiles, ProfileOf;
    BeforeLast(c, r);
    RunRefines(0, 64, c, Ops(c, r)[..7], EffOf(r));
    SoundLast(After(c, r, 7).tree, EffOf(r));
  }

  lemma SoundLast(t: Tree, eff: int -> int)
    requires Chain(t) && Sound(t, {}, eff)
    ensures Under(t).right.body.agg == AggOfLevel(Under(t).right.body.cell.level, eff)
  {
    var y := Under(t).right;
    assert Sound(t.left, {}, eff) && Sound(Under(t), {}, eff) && Sound(y, {}, eff);
    ClearOfNothing(Cells(y));
    assert Cells(y) == [y.body.cell];
  }

  /** On the way to 7, the second write of the push at 7 stores this in its child. */
  ghost predicate PushStoresAt7(t: Tree, stored: int, eff: int -> int) {
    Chain(t) &&
    var u := Push(Push(t, eff).left, eff).right;
    u.right.Node? && ShiftBody(u.right.body, Part(u.body.tag, 2), eff).agg.maxSoft == stored
  }

  lemma PushStoresSum(t: Tree, c: int, e: int, eff: int -> int)
    requires Chain(t) && SameParts(t.body.tag, Change(c, 0, 0, false, 0)) && IsNull(t.left.body.tag)
    requires SameParts(Under(t).body.tag, Change(0, 0, -c, false, 0)) && Under(t).right.body.agg.maxSoft == c + e
    ensures var u := Push(Push(t, eff).left, eff).right;
            PushStoresAt7(t, 2 * c + e, eff) && u.Node? && (2 * c + e > Int64.MAX ==> !PushStores(u, eff))
  {
    var u := Push(Push(t, eff).left, eff).right;
    if 2 * c + e > Int64.MAX {
      assert !ChildStores(u.right, Part(u.body.tag, 2), eff);
    }
  }

  lemma SplitReaches(t: Tree, eff: int -> int)
    requires Chain(t) && SplitStores(t, 7, eff)
    ensures PushStores(Push(Push(t, eff).left, eff).right, eff)
  {
    hide PushStores, NodeFits, PulledAgg, ShiftAgg, Apply, Compose;
    var p := Push(t, eff);
    var q := Push(p.left, eff);
    assert SplitStores(p.left, 7, eff);
    assert SplitStores(q.right, 7, eff);
  }

  /** At any positive capacity and any ratio, the levels of the run stay within capacity and
      effective capacity all along, and its last operation stores twice the capacity plus the
      effective capacity, whether or not that fits. */
  lemma PushStoresTheSum(c: int, r: int)
    requires c > 0 && 0 <= r
    ensures OrderlyRun(0, 64, c, Ops(c, r), Bounds(c, EffOf(r)(c), c))
    ensures PushStoresAt7(After(c, r, 7).tree, 2 * c + EffOf(r)(c), EffOf(r))
    ensures 2 * c + EffOf(r)(c) > Int64.MAX ==> !StepStores(After(c, r, 7), Ops(c, r)[7], EffOf(r))
  {
    hide Ops, After, ProfileAfter, FreeProfile, ProfileOk, StepStores, PushStoresAt7, EffOf;
    forall k | 0 <= k <= |Ops(c, r)|
      ensures ProfileOk(ProfileAfter(FreeProfile(0, 64, c), Ops(c, r)[..k]), Bounds(c, EffOf(r)(c), c))
    {
      AllInOrder(c, r, k);
    }
    OpsAre(c, r);
    LastStores(c, r);
  }

  lemma LastStores(c: int, r: int)
    requires c > 0
    ensures PushStoresAt7(After(c, r, 7).tree, 2 * c + EffOf(r)(c), EffOf(r))
    ensures 2 * c + EffOf(r)(c) > Int64.MAX ==> !StepStores(After(c, r, 7), Query(7, 11), EffOf(r))
  {
    hide PushStoresAt7, After, SplitStores, PushStores, StepStores, Chain, Under, SameParts, Push, EffOf;
    BeforeLast(c, r);
    LastAgg(c, r);
    var t := After(c, r, 7).tree;
    PushStoresSum(t, c, EffOf(r)(c), EffOf(r));
    ChainIsNode(t);
    if 2 * c + EffOf(r)(c) > Int64.MAX {
      if SplitStores(t, 7, EffOf(r)) { SplitReaches(t, EffOf(r)); }
      QuerySplits(After(c, r, 7), EffOf(r));
    }
  }

  lemma QuerySplits(x: Index, eff: int -> int)
    requires x.tree.Node? && !SplitStores(x.tree, 7, eff)
    ensures !StepStores(x, Query(7, 11), eff)
  {
    hide SplitStores, MergeStores, DetachStores;
  }

  // ---- the exact bound ----

  /** After each operation the represented function is within its bounds. */
  ghost predicate OrderlyRun(origin: int, horizon: int, cap: int, ops: seq<Op>, m: Bounds) {
    forall k :: 0 <= k <= |ops| ==> ProfileOk(ProfileAfter(FreeProfile(origin, horizon, cap), ops[..k]), m)
  }

  /** Nothing that any operation of the run stores leaves 64 bits. */
  ghost predicate RunStores(origin: int, horizon: int, cap: int, ops: seq<Op>, eff: int -> int)
    requires horizon > 0
  {
    forall k :: 0 <= k < |ops| ==> StepStores(Run(Initial(origin, horizon, cap, eff), ops[..k], eff), ops[k], eff)
  }

  /** An index of capacity `c` at ratio `r` stores nothing outside 64 bits in any run, over any span,
      that keeps hard commitments and holds within `c` and soft ones within its effective capacity. */
  ghost predicate AlwaysStores(c: int, r: int) {
    forall origin, horizon, ops | horizon > 0 && OrderlyRun(origin, horizon, c, ops, Bounds(c, EffOf(r)(c), c)) ::
      RunStores(origin, horizon, c, ops, EffOf(r))
  }

  lemma LooserOrder(origin: int, horizon: int, cap: int, ops: seq<Op>, m: Bounds, n: Bounds)
    requires OrderlyRun(origin, horizon, cap, ops, m) && n.cap == m.cap && n.eff == m.eff && m.load <= n.load
    ensures OrderlyRun(origin, horizon, cap, ops, n)
  {
    hide ProfileAfter, FreeProfile;
    forall k | 0 <= k <= |ops| ensures ProfileOk(ProfileAfter(FreeProfile(origin, horizon, cap), ops[..k]), n) {
      assert ProfileOk(ProfileAfter(FreeProfile(origin, horizon, cap), ops[..k]), m);
    }
  }

  lemma BoundIsEnough(c: int, r: int)
    requires 0 <= c && 0 <= r && 2 * c + EffOf(r)(c) <= Int64.MAX
    ensures AlwaysStores(c, r)
  {
    hide Int64.EffCapacity, OrderlyRun, RunStores;
    var e := EffOf(r)(c);
    Int64.EffCapacityNonNegative(c, r);
    forall x | 0 <= x <= c ensures 0 <= EffOf(r)(x) <= e {
      Int64.EffCapacityIsSaturatingFloor(x, c, r);
    }
    forall origin, horizon, ops | horizon > 0 && OrderlyRun(origin, horizon, c, ops, Bounds(c, e, c))
      ensures RunStores(origin, horizon, c, ops, EffOf(r))
    {
      LooserOrder(origin, horizon, c, ops, Bounds(c, e, c), Bounds(c, e, 2 * c));
      OrderlyStores(origin, horizon, c, ops, Bounds(c, e, 2 * c), EffOf(r));
    }
  }

  lemma OrderlyStores(origin: int, horizon: int, cap: int, ops: seq<Op>, m: Bounds, eff: int -> int)
    requires horizon > 0 && OrderlyRun(origin, horizon, cap, ops, m) && EffOk(eff, m) && IsBox(m) && 0 <= cap <= m.cap
    ensures RunStores(origin, horizon, cap, ops, eff)
  {
    hide ProfileAfter, FreeProfile, ProfileOk, StepStores, Run, Initial, EffOk, Fits;
    RunStoresInRange(origin, horizon, cap, ops, m, eff);
  }

  /** The bound is exact: at every capacity and ratio, whatever is stored in whatever orderly run
      fits 64 bits if and only if twice the capacity plus the effective capacity does. */
  lemma NothingOverflowsIff(c: int, r: int)
    requires 0 <= c && 0 <= r
    ensures AlwaysStores(c, r) <==> 2 * c + EffOf(r)(c) <= Int64.MAX
  {
    hide EffOf, AlwaysStores;
    if 2 * c + EffOf(r)(c) <= Int64.MAX {
      BoundIsEnough(c, r);
    } else {
      BoundIsNeeded(c, r);
    }
  }

  lemma BoundIsNeeded(c: int, r: int)
    requires 0 <= c && 0 <= r && 2 * c + EffOf(r)(c) > Int64.MAX
    ensures !AlwaysStores(c, r)
  {
    hide Ops, OrderlyRun, StepStores, Run, Initial, PushStoresAt7;
    PushStoresTheSum(c, r);
    assert !RunStores(0, 64, c, Ops(c, r), EffOf(r));
  }

  /** Capacity and effective capacity of 2^62 - 1 together fit 64 bits; three times that is stored. */
  lemma PushCanOverflow()
    ensures var c := 0x3fff_ffff_ffff_ffff;
            && c + EffOf(10000)(c) <= Int64.MAX && OrderlyRun(0, 64, c, Ops(c, 10000), Bounds(c, c, c))
            && PushStoresAt7(After(c, 10000, 7).tree, 3 * c, EffOf(10000)) && 3 * c > Int64.MAX
            && !StepStores(After(c, 10000, 7), Ops(c, 10000)[7], EffOf(10000))
  {
    hide Ops, OrderlyRun, StepStores, After, PushStoresAt7;
    PushStoresTheSum(0x3fff_ffff_ffff_ffff, 10000);
  }
}
