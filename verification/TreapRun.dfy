/** Whole runs of the capacity index: any sequence of range adds, capacity sets and queries. */
module TreapRun {
  import opened Levels
  import opened Treap
  import opened TreapCells
  import opened TreapProfile
  import opened TreapExact
  import opened TreapShape
  import Int64

  /** The tree and the number of pool slots ever allocated. */
  datatype Index = Index(tree: Tree, pool: nat)

  datatype Op =
    | AddHard(l: int, r: int, delta: int)
    | AddSoft(l: int, r: int, delta: int)
    | AddHeld(l: int, r: int, delta: int)
    | SetCapacity(l: int, r: int, value: int)
    | Query(l: int, r: int)

  function ChangeOf(op: Op): Change {
    match op
    case AddHard(_, _, d) => Change(d, 0, 0, false, 0)
    case AddSoft(_, _, d) => Change(0, d, 0, false, 0)
    case AddHeld(_, _, d) => Change(0, 0, d, false, 0)
    case SetCapacity(_, _, v) => Change(0, 0, 0, true, v)
    case Query(_, _) => NO_CHANGE
  }

  /** A zero delta returns before touching the tree. */
  predicate Skips(op: Op) {
    (op.AddHard? || op.AddSoft? || op.AddHeld?) && op.delta == 0
  }

  function Initial(origin: int, horizon: int, cap: int, eff: int -> int): Index
    requires horizon > 0
  {
    var b := Body(Cell(origin, origin + horizon, Level(0, 0, 0, cap)), ZERO_AGG, NO_CHANGE, Int64.DetPrio(origin));
    Index(Pulled(0, b, Leaf, Leaf, eff), 1)
  }

  function Step(x: Index, op: Op, eff: int -> int): Index {
    if Skips(op) then x
    else
      var (t, n) := RangeOp(x.tree, op.l, op.r, ChangeOf(op), x.pool, eff);
      Index(t, n)
  }

  function Run(x: Index, ops: seq<Op>, eff: int -> int): Index {
    if ops == [] then x else Step(Run(x, ops[..|ops| - 1], eff), ops[|ops| - 1], eff)
  }

  /** What a query returns on a tree, before it puts the parts together again. */
  function MinSlack(x: Index, l: int, r: int, hard: bool, eff: int -> int): int {
    var mid := RangeRead(x.tree, l, r, x.pool, eff);
    if mid.Leaf? then Int64.MAX else if hard then mid.body.agg.minHard else mid.body.agg.minSoft
  }

  function MaxContrib(x: Index, l: int, r: int, hard: bool, eff: int -> int): int {
    var mid := RangeRead(x.tree, l, r, x.pool, eff);
    if mid.Leaf? then 0 else if hard then mid.body.agg.maxHard else mid.body.agg.maxSoft
  }

  /** Exact tiling of the span, exact aggregates, canonical priorities, and a pool of twice the
      live cells less one. */
  ghost predicate Good(x: Index, lo: int, hi: int, eff: int -> int) {
    && Tiles(Cells(x.tree)) && Lo(Cells(x.tree)) == lo && Hi(Cells(x.tree)) == hi
    && Sound(x.tree, {}, eff)
    && Canonical(x.tree)
    && x.pool == 2 * Size(x.tree) - 1
  }

  function View(x: Index): Profile
    requires x.tree.Node?
  {
    ProfileOf(Cells(x.tree))
  }

  lemma InitialGood(origin: int, horizon: int, cap: int, eff: int -> int)
    requires horizon > 0
    ensures var x := Initial(origin, horizon, cap, eff);
            && Good(x, origin, origin + horizon, eff)
            && View(x) == FreeProfile(origin, horizon, cap)
  {
    hide Int64.DetPrio;
    var x := Initial(origin, horizon, cap, eff);
    CellsPulled(0, x.tree.body, Leaf, Leaf, eff);
    SoundPulled(0, x.tree.body.(agg := ZERO_AGG), Leaf, Leaf, {}, eff);
    var cs := Cells(x.tree);
    assert cs == [x.tree.body.cell];
    assert Tiles(cs);
    assert Sound(x.tree, {}, eff);
    assert Canonical(x.tree);
    forall t | origin <= t < origin + horizon ensures LevelAt(cs, t) == FreeLevel(cap, t) {
      LevelAtCell(cs, 0, t);
    }
  }

  /** One operation keeps the tree good and changes exactly the instants it names. */
  lemma StepRefines(x: Index, op: Op, lo: int, hi: int, eff: int -> int)
    requires Good(x, lo, hi, eff)
    ensures var y := Step(x, op, eff);
            Good(y, lo, hi, eff) && View(y) == Changed(View(x), op.l, op.r, ChangeOf(op))
  {
    hide Cells, Sound, Canonical, RangeOp, RangeCells, ProfileOf, LevelAt;
    if Skips(op) {
      NullChange(View(x), op.l, op.r, ChangeOf(op));
    } else {
      CellsRangeOp(x.tree, op.l, op.r, ChangeOf(op), x.pool, eff);
      RangeCellsProfile(Cells(x.tree), op.l, op.r, ChangeOf(op));
      SoundRangeOp(x.tree, op.l, op.r, ChangeOf(op), x.pool, eff);
      CanonicalRangeOp(x.tree, op.l, op.r, ChangeOf(op), x.pool, eff);
      RangeCost(x.tree, op.l, op.r, ChangeOf(op), x.pool, eff);
    }
  }

  lemma NullChange(p: Profile, l: int, r: int, g: Change)
    requires IsNull(g)
    ensures Changed(p, l, r, g) == p
  {
  }

  /** The same operations on a plain function from instants to levels. */
  function ProfileAfter(p: Profile, ops: seq<Op>): Profile {
    if ops == [] then p
    else
      var op := ops[|ops| - 1];
      Changed(ProfileAfter(p, ops[..|ops| - 1]), op.l, op.r, ChangeOf(op))
  }

  /** Refinement over whole runs. Queries are among the operations, so restructuring by
      queries changes no later answer. */
  lemma {:induction false} RunRefines(origin: int, horizon: int, cap: int, ops: seq<Op>, eff: int -> int)
    requires horizon > 0
    ensures var x := Run(Initial(origin, horizon, cap, eff), ops, eff);
            && Good(x, origin, origin + horizon, eff)
            && View(x) == ProfileAfter(FreeProfile(origin, horizon, cap), ops)
    decreases |ops|
  {
    hide Good, Step, Initial, ProfileOf;
    if ops == [] {
      InitialGood(origin, horizon, cap, eff);
    } else {
      RunRefines(origin, horizon, cap, ops[..|ops| - 1], eff);
      var x := Run(Initial(origin, horizon, cap, eff), ops[..|ops| - 1], eff);
      StepRefines(x, ops[|ops| - 1], origin, origin + horizon, eff);
    }
  }

  // ---- queries ----

  lemma {:induction false} AggIsExtreme(cs: seq<Cell>, eff: int -> int)
    requires cs != []
    ensures var a := AggOf(cs, eff);
            && (forall i :: 0 <= i < |cs| ==>
                  a.minHard <= HardSlack(cs[i].level) && a.minSoft <= SoftSlack(cs[i].level, eff)
                  && HardLoad(cs[i].level) <= a.maxHard && SoftLoad(cs[i].level) <= a.maxSoft)
            && (exists i :: 0 <= i < |cs| && a.minHard == HardSlack(cs[i].level))
            && (exists i :: 0 <= i < |cs| && a.minSoft == SoftSlack(cs[i].level, eff))
            && (exists i :: 0 <= i < |cs| && a.maxHard == HardLoad(cs[i].level))
            && (exists i :: 0 <= i < |cs| && a.maxSoft == SoftLoad(cs[i].level))
    decreases |cs|
  {
    if |cs| > 1 {
      var t := cs[1..];
      assert forall i :: 0 < i < |cs| ==> cs[i] == t[i - 1];
      AggIsExtreme(t, eff);
      var a := AggOf(t, eff);
      var i1 :| 0 <= i1 < |t| && a.minHard == HardSlack(t[i1].level);
      var i2 :| 0 <= i2 < |t| && a.minSoft == SoftSlack(t[i2].level, eff);
      var i3 :| 0 <= i3 < |t| && a.maxHard == HardLoad(t[i3].level);
      var i4 :| 0 <= i4 < |t| && a.maxSoft == SoftLoad(t[i4].level);
      assert t[i1] == cs[i1 + 1] && t[i2] == cs[i2 + 1] && t[i3] == cs[i3 + 1] && t[i4] == cs[i4 + 1];
    }
  }

  /** Every instant of the span lies in a cell. */
  lemma {:induction false} CellOf(cs: seq<Cell>, x: int) returns (i: nat)
    requires cs != [] && Tiles(cs) && Lo(cs) <= x < Hi(cs)
    ensures i < |cs| && cs[i].start <= x < cs[i].end
    decreases |cs|
  {
    if x < cs[0].end {
      i := 0;
    } else {
      assert forall j :: 0 <= j < |cs[1..]| ==> cs[1..][j] == cs[j + 1];
      i := CellOf(cs[1..], x);
      i := i + 1;
    }
  }

  /** The cells show exactly the levels of the range in the span. */
  ghost predicate Covers(m: seq<Cell>, p: Profile, l: int, r: int) {
    && (forall i :: 0 <= i < |m| ==> m[i].start in p && l <= m[i].start < r && p[m[i].start] == m[i].level)
    && (forall x :: l <= x < r && x in p ==> exists i :: 0 <= i < |m| && p[x] == m[i].level)
  }

  /** The middle cells are exactly the instants of the range in the span. */
  lemma MiddleIsRange(c: seq<Cell>, m: seq<Cell>, b: seq<Cell>, l: int, r: int)
    requires c + m + b != [] && Tiles(c + m + b) && l < r
    requires EndsBy(c, l) && AllFrom(m, l) && EndsBy(m, r) && AllFrom(b, r)
    ensures Covers(m, ProfileOf(c + m + b), l, r)
  {
    var cs := c + m + b;
    var p := ProfileOf(cs);
    forall i | 0 <= i < |m|
      ensures m[i].start in p && l <= m[i].start < r && p[m[i].start] == m[i].level
    {
      var k := |c| + i;
      assert cs[k] == m[i];
      assert cs[k].start < cs[k].end;
      assert Lo(cs) <= cs[k].start by { if k > 0 { assert cs[0].end <= cs[k].start; } }
      assert cs[k].end <= Hi(cs) by { if k < |cs| - 1 { assert cs[k].end <= cs[|cs| - 1].start; } }
      LevelAtCell(cs, k, m[i].start);
    }
    forall x | l <= x < r && x in p ensures exists i :: 0 <= i < |m| && p[x] == m[i].level {
      var k := CellOf(cs, x);
      LevelAtCell(cs, k, x);
      assert forall i :: 0 <= i < |c| ==> cs[i] == c[i];
      assert forall i :: 0 <= i < |b| ==> cs[|c| + |m| + i] == b[i];
      assert cs[k] == m[k - |c|];
    }
  }

  lemma CoversMeets(m: seq<Cell>, p: Profile, l: int, r: int)
    requires Covers(m, p, l, r)
    ensures Meets(p, l, r) <==> m != []
  {
    if m != [] {
      assert l <= m[0].start < r && m[0].start in p;
    }
  }

  lemma LeastOfMiddle(p: Profile, m: seq<Cell>, l: int, r: int, f: Level -> int, a: int, none: int)
    requires Covers(m, p, l, r)
    requires m != [] ==> (exists i :: 0 <= i < |m| && a == f(m[i].level)) && forall i :: 0 <= i < |m| ==> a <= f(m[i].level)
    ensures Least(p, l, r, f, none) == if m == [] then none else a
  {
    hide Least, Meets;
    LeastIsLeast(p, l, r, f, none, a);
    CoversMeets(m, p, l, r);
    if m != [] {
      assert IsLeast(a, p, l, r, f) by {
        var i :| 0 <= i < |m| && a == f(m[i].level);
        var x := m[i].start;
        assert l <= x < r && x in p && f(p[x]) == a;
      }
    }
  }

  lemma GreatestOfMiddle(p: Profile, m: seq<Cell>, l: int, r: int, f: Level -> int, a: int, none: int)
    requires Covers(m, p, l, r)
    requires m != [] ==> (exists i :: 0 <= i < |m| && a == f(m[i].level)) && forall i :: 0 <= i < |m| ==> f(m[i].level) <= a
    ensures Greatest(p, l, r, f, none) == if m == [] then none else a
  {
    hide Greatest, Meets;
    GreatestIsGreatest(p, l, r, f, none, a);
    CoversMeets(m, p, l, r);
    if m != [] {
      assert IsGreatest(a, p, l, r, f) by {
        var i :| 0 <= i < |m| && a == f(m[i].level);
        var x := m[i].start;
        assert l <= x < r && x in p && f(p[x]) == a;
      }
    }
  }

  /** The four extremes over the range are the aggregates at the root of the middle part. */
  lemma MiddleExtremes(p: Profile, mid: Tree, l: int, r: int, eff: int -> int)
    requires Sound(mid, {}, eff)
    requires Covers(Cells(mid), p, l, r)
    ensures var a := if mid.Node? then mid.body.agg else ZERO_AGG;
            && Least(p, l, r, HardSlack, Int64.MAX) == (if mid.Leaf? then Int64.MAX else a.minHard)
            && Least(p, l, r, SoftSlackBy(eff), Int64.MAX) == (if mid.Leaf? then Int64.MAX else a.minSoft)
            && Greatest(p, l, r, HardLoad, 0) == (if mid.Leaf? then 0 else a.maxHard)
            && Greatest(p, l, r, SoftLoad, 0) == (if mid.Leaf? then 0 else a.maxSoft)
  {
    hide Least, Greatest, AggOf, Cells, Covers;
    var m := Cells(mid);
    if mid.Node? {
      AggIsExtreme(m, eff);
      ClearOfNothing(m);
    }
    var a := if mid.Node? then mid.body.agg else ZERO_AGG;
    LeastOfMiddle(p, m, l, r, HardSlack, a.minHard, Int64.MAX);
    LeastOfMiddle(p, m, l, r, SoftSlackBy(eff), a.minSoft, Int64.MAX);
    GreatestOfMiddle(p, m, l, r, HardLoad, a.maxHard, 0);
    GreatestOfMiddle(p, m, l, r, SoftLoad, a.maxSoft, 0);
  }

  /** Queries answer with the true extremes of the represented function over the range, or the
      neutral value when the range misses the span. */
  lemma QueryIsExact(x: Index, l: int, r: int, lo: int, hi: int, eff: int -> int)
    requires Good(x, lo, hi, eff)
    ensures MinSlack(x, l, r, true, eff) == Least(View(x), l, r, HardSlack, Int64.MAX)
    ensures MinSlack(x, l, r, false, eff) == Least(View(x), l, r, SoftSlackBy(eff), Int64.MAX)
    ensures MaxContrib(x, l, r, true, eff) == Greatest(View(x), l, r, HardLoad, 0)
    ensures MaxContrib(x, l, r, false, eff) == Greatest(View(x), l, r, SoftLoad, 0)
  {
    hide Cells, Canonical, Isolate, CutAt, ProfileOf, Least, Greatest, Ordered, LevelAt, Sound;
    if l < r {
      var (c, mid, b, _) := Isolate(x.tree, l, r, x.pool, eff);
      var cs := Cells(x.tree);
      CellsIsolate(x.tree, l, r, x.pool, eff);
      IsolateIsExact(x.tree, l, r, x.pool, eff);
      TwoCuts(cs, l, r);
      SameProfile(cs, CutAt(CutAt(cs, l), r));
      MiddleIsRange(Cells(c), Cells(mid), Cells(b), l, r);
      MiddleExtremes(View(x), mid, l, r, eff);
    } else {
      EmptyRange(View(x), l, r, eff);
    }
  }

  lemma EmptyRange(p: Profile, l: int, r: int, eff: int -> int)
    requires r <= l
    ensures Least(p, l, r, HardSlack, Int64.MAX) == Int64.MAX == Least(p, l, r, SoftSlackBy(eff), Int64.MAX)
    ensures Greatest(p, l, r, HardLoad, 0) == 0 == Greatest(p, l, r, SoftLoad, 0)
  {
  }

  lemma SameProfile(a: seq<Cell>, b: seq<Cell>)
    requires a != [] && b != [] && Lo(a) == Lo(b) && Hi(a) == Hi(b)
    requires forall x :: LevelAt(a, x) == LevelAt(b, x)
    ensures ProfileOf(a) == ProfileOf(b)
  {
  }

  // ---- canonical shape over histories ----

  /** `x` is an end of an operation that reaches the tree, strictly inside the span. */
  ghost predicate IsBoundary(ops: seq<Op>, x: int, origin: int, horizon: int) {
    origin < x < origin + horizon && exists i :: 0 <= i < |ops| && !Skips(ops[i]) && ops[i].l < ops[i].r && (x == ops[i].l || x == ops[i].r)
  }

  lemma RangeStarts(cs: seq<Cell>, l: int, r: int, g: Change, x: int)
    requires Tiles(cs)
    ensures IsStart(RangeCells(cs, l, r, g), x) <==>
            IsStart(cs, x) || (l < r && Lo(cs) < x < Hi(cs) && (x == l || x == r))
  {
    if l < r {
      var c := CutAt(cs, l);
      CutTiles(cs, l);
      CutStarts(cs, l, x);
      CutStarts(c, r, x);
      var d := CutAt(c, r);
      var k := ChangedCells(d, l, r, g);
      assert forall i :: 0 <= i < |d| ==> k[i].start == d[i].start;
    }
  }

  /** The cell starts after a run are the origin and the boundaries its operations named. */
  lemma {:induction false} RunStarts(origin: int, horizon: int, cap: int, ops: seq<Op>, eff: int -> int, x: int)
    requires horizon > 0
    ensures IsStart(Cells(Run(Initial(origin, horizon, cap, eff), ops, eff).tree), x) <==>
            x == origin || IsBoundary(ops, x, origin, horizon)
    decreases |ops|
  {
    hide Cells, Initial, RangeOp, RangeCells, Canonical, Sound;
    var init := Initial(origin, horizon, cap, eff);
    if ops == [] {
      InitialStart(origin, horizon, cap, eff, x);
    } else {
      var before, op := ops[..|ops| - 1], ops[|ops| - 1];
      RunStarts(origin, horizon, cap, before, eff, x);
      RunRefines(origin, horizon, cap, before, eff);
      var y := Run(init, before, eff);
      assert IsBoundary(ops, x, origin, horizon) <==>
             IsBoundary(before, x, origin, horizon)
             || (origin < x < origin + horizon && !Skips(op) && op.l < op.r && (x == op.l || x == op.r)) by {
        assert forall i :: 0 <= i < |before| ==> before[i] == ops[i];
      }
      if !Skips(op) {
        CellsRangeOp(y.tree, op.l, op.r, ChangeOf(op), y.pool, eff);
        RangeStarts(Cells(y.tree), op.l, op.r, ChangeOf(op), x);
      }
    }
  }

  lemma InitialStart(origin: int, horizon: int, cap: int, eff: int -> int, x: int)
    requires horizon > 0
    ensures IsStart(Cells(Initial(origin, horizon, cap, eff).tree), x) <==> x == origin
  {
    var t := Initial(origin, horizon, cap, eff).tree;
    CellsPulled(0, t.body, Leaf, Leaf, eff);
    assert Cells(t)[0].start == origin;
  }

  /** Shape forgets history: two runs over the same span whose operations name the same
      boundaries end in trees of the same shape and pools of the same size, whatever their
      order, values and interleaved queries. */
  lemma ShapeForgetsHistory(origin: int, horizon: int, cap1: int, cap2: int, ops1: seq<Op>, ops2: seq<Op>, eff: int -> int)
    requires horizon > 0
    requires forall x :: IsBoundary(ops1, x, origin, horizon) <==> IsBoundary(ops2, x, origin, horizon)
    ensures var x1 := Run(Initial(origin, horizon, cap1, eff), ops1, eff);
            var x2 := Run(Initial(origin, horizon, cap2, eff), ops2, eff);
            ShapeOf(x1.tree) == ShapeOf(x2.tree) && x1.pool == x2.pool
  {
    hide Cells, Initial, Run, Canonical, Sound, Starts, ShapeOf, IsBoundary;
    var x1 := Run(Initial(origin, horizon, cap1, eff), ops1, eff);
    var x2 := Run(Initial(origin, horizon, cap2, eff), ops2, eff);
    RunRefines(origin, horizon, cap1, ops1, eff);
    RunRefines(origin, horizon, cap2, ops2, eff);
    forall x ensures x in Starts(x1.tree) <==> x in Starts(x2.tree) {
      RunStarts(origin, horizon, cap1, ops1, eff, x);
      RunStarts(origin, horizon, cap2, ops2, eff, x);
      StartMember(x1.tree, x);
      StartMember(x2.tree, x);
    }
    ShapeIsCanonical(x1.tree, x2.tree);
    SameSize(x1.tree, x2.tree);
  }

  lemma StartMember(t: Tree, x: int)
    ensures x in Starts(t) <==> IsStart(Cells(t), x)
  {
    StartsOfCells(t);
  }

  lemma {:induction false} SameSize(s: Tree, t: Tree)
    requires ShapeOf(s) == ShapeOf(t)
    ensures Size(s) == Size(t)
    decreases s
  {
    if s.Node? {
      SameSize(s.left, t.left);
      SameSize(s.right, t.right);
    }
  }
}
