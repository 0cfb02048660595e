/** The capacity index as the runtime holds it: a growing pool of slots and a root index, all
    links updated in place. Each method is proved against the operation on trees it performs. */
module IntervalAggregators {
  import opened Levels
  import opened Treap
  import opened TreapCells
  import opened TreapProfile
  import opened TreapExact
  import opened TreapShape
  import opened TreapRun
  import opened TreapPool
  import opened TreapStores
  import Int64

  /** One slot with a change applied to its cell, aggregates and tag. */
  ghost function WithShift(pool: seq<Slot>, n: int, g: Change, eff: int -> int): seq<Slot>
    requires n == -1 || 0 <= n < |pool|
  {
    if n == -1 then pool else pool[n := pool[n].(body := ShiftBody(pool[n].body, g, eff))]
  }

  class IntervalAggregator {
    var pool: seq<Slot>
    var root: int
    const ratioBp: int
    ghost var tree: Tree
    ghost var lo: int
    ghost var hi: int

    ghost predicate Valid()
      reads this
    {
      && Repr(pool, root, tree) && Distinct(tree)
      && (tree.Node? ==> Good(Index(tree, |pool|), lo, hi, EffOf(ratioBp)))
    }

    /** The represented function; empty before initialization. */
    ghost function View(): Profile
      reads this
    {
      if tree.Leaf? then map[] else ProfileOf(Cells(tree))
    }

    constructor (ratioBasisPoints: int)
      ensures Valid() && View() == map[] && ratioBp == ratioBasisPoints && tree.Leaf?
    {
      pool, root, ratioBp, tree, lo, hi := [], -1, ratioBasisPoints, Leaf, 0, 0;
    }

    /** Only an empty span is refused. A negative one is accepted and leaves a cell that ends before
        it starts; nothing is promised of the object then. */
    method Initialize(origin: int, horizon: int, capacity: int) returns (ok: bool)
      modifies this
      ensures ok <==> horizon != 0
      ensures horizon >= 0 ==> Valid() && View() == FreeProfile(origin, horizon, capacity)
      ensures horizon > 0 ==> tree == Initial(origin, horizon, capacity, EffOf(ratioBp)).tree && |pool| == 1
    {
      pool, root := [], -1;
      tree := Leaf;
      if horizon == 0 {
        assert View() == FreeProfile(origin, horizon, capacity);
        return false;
      }
      var n := CreateCell(origin, origin + horizon, Level(0, 0, 0, capacity));
      root := n;
      Pull(n, Leaf, Leaf);
      if horizon > 0 {
        ghost var x := Initial(origin, horizon, capacity, EffOf(ratioBp));
        tree, lo, hi := x.tree, origin, origin + horizon;
        InitialGood(origin, horizon, capacity, EffOf(ratioBp));
      }
      return true;
    }

    method Clear()
      modifies this
      ensures Valid() && View() == map[] && pool == []
    {
      pool, root := [], -1;
      tree := Leaf;
    }

    /** The pool never shrinks: two slots were spent on every boundary beyond the first cell. */
    method CellCount() returns (n: nat)
      requires Valid()
      ensures tree.Node? ==> n == 2 * |Cells(tree)| - 1
    {
      n := |pool|;
    }

    // ---- public operations ----

    method AddCommittedHard(l: int, r: int, delta: int)
      requires Valid()
      modifies this
      ensures Valid() && View() == Changed(old(View()), l, r, Change(delta, 0, 0, false, 0))
    {
      if delta != 0 {
        RangeAdd(l, r, delta, 0, 0);
      } else {
        NullChange(View(), l, r, NO_CHANGE);
      }
    }

    method AddCommittedSoft(l: int, r: int, delta: int)
      requires Valid()
      modifies this
      ensures Valid() && View() == Changed(old(View()), l, r, Change(0, delta, 0, false, 0))
    {
      if delta != 0 {
        RangeAdd(l, r, 0, delta, 0);
      } else {
        NullChange(View(), l, r, NO_CHANGE);
      }
    }

    method AddHeld(l: int, r: int, delta: int)
      requires Valid()
      modifies this
      ensures Valid() && View() == Changed(old(View()), l, r, Change(0, 0, delta, false, 0))
    {
      if delta != 0 {
        RangeAdd(l, r, 0, 0, delta);
      } else {
        NullChange(View(), l, r, NO_CHANGE);
      }
    }

    method SetCapacity(l: int, r: int, value: int)
      requires Valid()
      modifies this
      ensures Valid() && View() == Changed(old(View()), l, r, Change(0, 0, 0, true, value))
    {
      RangeSet(l, r, value);
    }

    method MinHard(l: int, r: int) returns (res: int)
      requires Valid()
      modifies this
      ensures Valid() && View() == old(View())
      ensures res == Least(View(), l, r, HardSlack, Int64.MAX)
    {
      res := MinSlack(l, r, true);
    }

    method MinSoft(l: int, r: int) returns (res: int)
      requires Valid()
      modifies this
      ensures Valid() && View() == old(View())
      ensures res == Least(View(), l, r, SoftSlackBy(EffOf(ratioBp)), Int64.MAX)
    {
      res := MinSlack(l, r, false);
    }

    method MaxCombinedHard(l: int, r: int) returns (res: int)
      requires Valid()
      modifies this
      ensures Valid() && View() == old(View())
      ensures res == Greatest(View(), l, r, HardLoad, 0)
    {
      res := MaxContrib(l, r, true);
    }

    method MaxCombinedSoft(l: int, r: int) returns (res: int)
      requires Valid()
      modifies this
      ensures Valid() && View() == old(View())
      ensures res == Greatest(View(), l, r, SoftLoad, 0)
    {
      res := MaxContrib(l, r, false);
    }

    // ---- one node ----

    method ApplyAddH(n: int, d: int)
      requires n == -1 || 0 <= n < |pool|
      modifies `pool
      ensures pool == WithShift(old(pool), n, Change(d, 0, 0, false, 0), EffOf(ratioBp))
    {
      if n == -1 { return; }
      var x := pool[n].body;
      if d == 0 {
        ShiftNothing(x, EffOf(ratioBp));
        return;
      }
      x := x.(cell := x.cell.(level := x.cell.level.(hard := x.cell.level.hard + d)),
      agg := Agg(x.agg.minHard - d, x.agg.minSoft - d, x.agg.maxHard + d, x.agg.maxSoft + d),
      tag := x.tag.(hard := x.tag.hard + d));
      pool := pool[n := pool[n].(body := x)];
    }

    method ApplyAddS(n: int, d: int)
      requires n == -1 || 0 <= n < |pool|
      modifies `pool
      ensures pool == WithShift(old(pool), n, Change(0, d, 0, false, 0), EffOf(ratioBp))
    {
      if n == -1 { return; }
      var x := pool[n].body;
      if d == 0 {
        ShiftNothing(x, EffOf(ratioBp));
        return;
      }
      x := x.(cell := x.cell.(level := x.cell.level.(soft := x.cell.level.soft + d)),
      agg := x.agg.(minSoft := x.agg.minSoft - d, maxSoft := x.agg.maxSoft + d),
      tag := x.tag.(soft := x.tag.soft + d));
      pool := pool[n := pool[n].(body := x)];
    }

    method ApplyAddHeld(n: int, d: int)
      requires n == -1 || 0 <= n < |pool|
      modifies `pool
      ensures pool == WithShift(old(pool), n, Change(0, 0, d, false, 0), EffOf(ratioBp))
    {
      if n == -1 { return; }
      var x := pool[n].body;
      if d == 0 {
        ShiftNothing(x, EffOf(ratioBp));
        return;
      }
      x := x.(cell := x.cell.(level := x.cell.level.(held := x.cell.level.held + d)),
      agg := Agg(x.agg.minHard - d, x.agg.minSoft - d, x.agg.maxHard + d, x.agg.maxSoft + d),
      tag := x.tag.(held := x.tag.held + d));
      pool := pool[n := pool[n].(body := x)];
    }

    method ApplySetCap(n: int, value: int)
      requires n == -1 || 0 <= n < |pool|
      modifies `pool
      ensures pool == WithShift(old(pool), n, Change(0, 0, 0, true, value), EffOf(ratioBp))
    {
      if n == -1 { return; }
      var e := Int64.ComputeEffCapacity(value, ratioBp);
      var x := pool[n].body;
      x := x.(cell := x.cell.(level := x.cell.level.(cap := value)),
      agg := x.agg.(minHard := value - x.agg.maxHard, minSoft := e - x.agg.maxSoft),
      tag := x.tag.(hasSet := true, setCap := value));
      pool := pool[n := pool[n].(body := x)];
    }

    /** One part of a push: both children of `n` get the part, the tag loses it. */
    method PushSet(n: int)
      requires Linked(pool, n)
      modifies `pool
      ensures Linked(pool, n)
      ensures PushedBy(old(pool), pool, n, old(pool[n]).body.tag.(hasSet := false), Part(old(pool[n]).body.tag, 1), EffOf(ratioBp))
    {
      var x := pool[n];
      if x.body.tag.hasSet {
        ApplySetCap(x.left, x.body.tag.setCap);
        ApplySetCap(x.right, x.body.tag.setCap);
        pool := pool[n := pool[n].(body := x.body.(tag := x.body.tag.(hasSet := false)))];
      } else {
        ShiftNothingEverywhere(EffOf(ratioBp));
      }
    }

    method PushH(n: int)
      requires Linked(pool, n)
      modifies `pool
      ensures Linked(pool, n)
      ensures PushedBy(old(pool), pool, n, old(pool[n]).body.tag.(hard := 0), Change(old(pool[n]).body.tag.hard, 0, 0, false, 0), EffOf(ratioBp))
    {
      var x := pool[n];
      if x.body.tag.hard != 0 {
        ApplyAddH(x.left, x.body.tag.hard);
        ApplyAddH(x.right, x.body.tag.hard);
        pool := pool[n := pool[n].(body := x.body.(tag := x.body.tag.(hard := 0)))];
      } else {
        ShiftNothingEverywhere(EffOf(ratioBp));
      }
    }

    method PushS(n: int)
      requires Linked(pool, n)
      modifies `pool
      ensures Linked(pool, n)
      ensures PushedBy(old(pool), pool, n, old(pool[n]).body.tag.(soft := 0), Change(0, old(pool[n]).body.tag.soft, 0, false, 0), EffOf(ratioBp))
    {
      var x := pool[n];
      if x.body.tag.soft != 0 {
        ApplyAddS(x.left, x.body.tag.soft);
        ApplyAddS(x.right, x.body.tag.soft);
        pool := pool[n := pool[n].(body := x.body.(tag := x.body.tag.(soft := 0)))];
      } else {
        ShiftNothingEverywhere(EffOf(ratioBp));
      }
    }

    method PushHeld(n: int)
      requires Linked(pool, n)
      modifies `pool
      ensures Linked(pool, n)
      ensures PushedBy(old(pool), pool, n, old(pool[n]).body.tag.(held := 0), Change(0, 0, old(pool[n]).body.tag.held, false, 0), EffOf(ratioBp))
    {
      var x := pool[n];
      if x.body.tag.held != 0 {
        ApplyAddHeld(x.left, x.body.tag.held);
        ApplyAddHeld(x.right, x.body.tag.held);
        pool := pool[n := pool[n].(body := x.body.(tag := x.body.tag.(held := 0)))];
      } else {
        ShiftNothingEverywhere(EffOf(ratioBp));
      }
    }

    method Push(n: int, ghost t: Tree)
      requires t.Node? && Repr(pool, n, t) && Distinct(t)
      modifies `pool
      ensures Repr(pool, n, Treap.Push(t, EffOf(ratioBp)))
      ensures SameOutside(old(pool), pool, Ids(t))
    {
      hide PushedBy, Repr, Distinct, Treap.Push, ShiftBody, Linked, Ids, Part;
      ghost var eff, g, p0 := EffOf(ratioBp), t.body.tag, pool;
      NodeLinked(pool, n, t);
      PushSet(n);
      ghost var p1 := pool;
      PushedTag(p0, p1, n, g.(hasSet := false), Part(g, 1), eff);
      PushH(n);
      ghost var p2 := pool;
      PushedTwice(p0, p1, p2, n, g.(hasSet := false), g.(hasSet := false, hard := 0), Part(g, 1), Change(g.hard, 0, 0, false, 0), eff);
      PartsInOrder(g);
      assert PushedBy(p0, p2, n, g.(hasSet := false, hard := 0), Part(g, 2), eff);
      PushS(n);
      ghost var p3 := pool;
      PushedTwice(p0, p2, p3, n, g.(hasSet := false, hard := 0), g.(hasSet := false, hard := 0, soft := 0),
                  Part(g, 2), Change(0, g.soft, 0, false, 0), eff);
      assert PushedBy(p0, p3, n, g.(hasSet := false, hard := 0, soft := 0), Part(g, 3), eff);
      PushHeld(n);
      PushedTwice(p0, p3, pool, n, g.(hasSet := false, hard := 0, soft := 0), Cleared(g), Part(g, 3), Change(0, 0, g.held, false, 0), eff);
      PushedRepr(p0, pool, n, t, Part(g, 4), eff);
    }

    method Pull(n: int, ghost left: Tree, ghost right: Tree)
      requires 0 <= n < |pool| && Repr(pool, pool[n].left, left) && Repr(pool, pool[n].right, right)
      modifies `pool
      ensures pool == old(pool)[n := old(pool[n]).(body := old(pool[n]).body.(agg :=
                PulledAgg(old(pool[n]).body.cell.level, left, right, EffOf(ratioBp))))]
    {
      var x := pool[n].body;
      var v := x.cell.level;
      var e := Int64.ComputeEffCapacity(v.cap, ratioBp);
      var mh, ms := v.cap - v.hard - v.held, e - v.hard - v.soft - v.held;
      var mxh, mxs := v.hard + v.held, v.hard + v.soft + v.held;
      if pool[n].left != -1 {
        var l := pool[pool[n].left].body.agg;
        mh, ms, mxh, mxs := Min(mh, l.minHard), Min(ms, l.minSoft), Max(mxh, l.maxHard), Max(mxs, l.maxSoft);
      }
      if pool[n].right != -1 {
        var r := pool[pool[n].right].body.agg;
        mh, ms, mxh, mxs := Min(mh, r.minHard), Min(ms, r.minSoft), Max(mxh, r.maxHard), Max(mxs, r.maxSoft);
      }
      pool := pool[n := pool[n].(body := x.(agg := Agg(mh, ms, mxh, mxs)))];
    }

    method CreateCell(start: int, end: int, v: Level) returns (n: int)
      modifies `pool
      ensures n == |old(pool)| && pool == old(pool) + [Slot(Fresh(n, start, end, v).body, -1, -1)]
    {
      pool := pool + [Slot(Body(Cell(start, end, v), ZERO_AGG, NO_CHANGE, Int64.DetPrio(start)), -1, -1)];
      n := |pool| - 1;
    }

    // ---- structure ----

    method MergeRec(a: int, b: int, ghost ta: Tree, ghost tb: Tree) returns (m: int)
      requires Repr(pool, a, ta) && Repr(pool, b, tb) && Distinct(ta) && Distinct(tb) && Ids(ta) !! Ids(tb)
      modifies `pool
      ensures Repr(pool, m, Merge(ta, tb, EffOf(ratioBp)))
      ensures SameOutside(old(pool), pool, Ids(ta) + Ids(tb))
      decreases Size(ta) + Size(tb)
    {
      hide Treap.Push, PulledAgg;
      ghost var eff := EffOf(ratioBp);
      if a == -1 { return b; }
      if b == -1 { return a; }
      if pool[a].body.prio > pool[b].body.prio {
        ghost var p0 := pool;
        Push(a, ta);
        ghost var p1, p := pool, Treap.Push(ta, eff);
        IdsPush(ta, eff);
        ReprElsewhere(p0, p1, Ids(ta), b, tb);
        var right := MergeRec(pool[a].right, b, p.right, tb);
        IdsMerge(p.right, tb, eff);
        ghost var p2 := pool;
        ReprElsewhere(p1, p2, Ids(p.right) + Ids(tb), p1[a].left, p.left);
        m := Relink(a, pool[a].left, right, p.left, Merge(p.right, tb, eff));
      } else {
        ghost var p0 := pool;
        Push(b, tb);
        ghost var p1, p := pool, Treap.Push(tb, eff);
        IdsPush(tb, eff);
        ReprElsewhere(p0, p1, Ids(tb), a, ta);
        var left := MergeRec(a, pool[b].left, ta, p.left);
        IdsMerge(ta, p.left, eff);
        ghost var p2 := pool;
        ReprElsewhere(p1, p2, Ids(ta) + Ids(p.left), p1[b].right, p.right);
        m := Relink(b, left, pool[b].right, Merge(ta, p.left, eff), p.right);
      }
    }

    /** Sets a node's links and pulls it. */
    method Relink(n: int, left: int, right: int, ghost tl: Tree, ghost tr: Tree) returns (m: int)
      requires 0 <= n < |pool| && n !in Ids(tl) && n !in Ids(tr)
      requires Repr(pool, left, tl) && Repr(pool, right, tr)
      modifies `pool
      ensures m == n && Repr(pool, n, Pulled(n, old(pool[n].body), tl, tr, EffOf(ratioBp)))
      ensures SameOutside(old(pool), pool, {n})
    {
      hide PulledAgg;
      ghost var p0 := pool;
      pool := pool[n := pool[n].(left := left, right := right)];
      ReprFrame(p0, pool, left, tl);
      ReprFrame(p0, pool, right, tr);
      ghost var p1 := pool;
      Pull(n, tl, tr);
      ReprFrame(p1, pool, left, tl);
      ReprFrame(p1, pool, right, tr);
      m := n;
    }

    method Split(n: int, key: int, ghost t: Tree) returns (l: int, r: int)
      requires Repr(pool, n, t) && Distinct(t)
      modifies `pool
      ensures Repr(pool, l, Treap.Split(t, key, EffOf(ratioBp)).0)
      ensures Repr(pool, r, Treap.Split(t, key, EffOf(ratioBp)).1)
      ensures SameOutside(old(pool), pool, Ids(t))
      decreases Size(t)
    {
      hide Treap.Push, PulledAgg;
      ghost var eff := EffOf(ratioBp);
      if n == -1 { return -1, -1; }
      Push(n, t);
      ghost var p1, p := pool, Treap.Push(t, eff);
      IdsPush(t, eff);
      if pool[n].body.cell.start < key {
        var nr;
        nr, r := Split(pool[n].right, key, p.right);
        ghost var (tn, tr) := Treap.Split(p.right, key, eff);
        IdsSplit(p.right, key, eff);
        ghost var p2 := pool;
        ReprElsewhere(p1, p2, Ids(p.right), p1[n].left, p.left);
        l := Relink(n, pool[n].left, nr, p.left, tn);
        ReprElsewhere(p2, pool, {n}, r, tr);
      } else {
        var nl;
        l, nl := Split(pool[n].left, key, p.left);
        ghost var (tl, tn) := Treap.Split(p.left, key, eff);
        IdsSplit(p.left, key, eff);
        ghost var p2 := pool;
        ReprElsewhere(p1, p2, Ids(p.left), p1[n].right, p.right);
        r := Relink(n, nl, pool[n].right, tn, p.right);
        ReprElsewhere(p2, pool, {n}, l, tl);
      }
    }

    /** Detaches the rightmost slot; it stays in the pool, linked to nothing. */
    method DetachMax(n: int, ghost t: Tree) returns (rest: int, outMax: int)
      requires t.Node? && Repr(pool, n, t) && Distinct(t)
      modifies `pool
      ensures Repr(pool, rest, Treap.DetachMax(t, EffOf(ratioBp)))
      ensures SameOutside(old(pool), pool, Ids(t))
      decreases Size(t)
    {
      hide Treap.Push, PulledAgg;
      ghost var eff := EffOf(ratioBp);
      Push(n, t);
      ghost var p1, p := pool, Treap.Push(t, eff);
      IdsPush(t, eff);
      if pool[n].right == -1 {
        outMax := n;
        rest := pool[n].left;
        pool := pool[n := pool[n].(left := -1, right := -1)];
        ReprElsewhere(p1, pool, {n}, rest, p.left);
        return;
      }
      var nr;
      nr, outMax := DetachMax(pool[n].right, p.right);
      IdsDetachMax(p.right, eff);
      ghost var p2 := pool;
      ReprElsewhere(p1, p2, Ids(p.right), p1[n].left, p.left);
      rest := Relink(n, pool[n].left, nr, p.left, Treap.DetachMax(p.right, eff));
    }

    /** Follows right links without pushing. */
    method RightmostNode(n: int, ghost t: Tree) returns (m: int)
      requires Repr(pool, n, t)
      ensures t.Leaf? ==> m == -1
      ensures t.Node? ==> 0 <= m < |pool| && pool[m].body == Rightmost(t)
    {
      m := n;
      ghost var s := t;
      while m != -1 && pool[m].right != -1
        invariant Repr(pool, m, s) && (s.Leaf? <==> t.Leaf?)
        invariant t.Node? ==> Rightmost(s) == Rightmost(t)
        decreases Size(s)
      {
        m := pool[m].right;
        s := s.right;
      }
    }

    method EnsureBoundary(key: int)
      requires Repr(pool, root, tree) && Distinct(tree)
      modifies `pool, `root, `tree
      ensures Repr(pool, root, tree) && Distinct(tree)
      ensures (tree, |pool|) == Treap.EnsureBoundary(old(tree), key, old(|pool|), EffOf(ratioBp))
    {
      hide Treap.Split, Treap.DetachMax, Merge, Rightmost, Fresh, Repr, Distinct, Ids;
      ghost var eff, t := EffOf(ratioBp), tree;
      RootIsLeaf(pool, root, t);
      if root == -1 { return; }
      var a, b := Split(root, key, t);
      ghost var (ta, tb) := Treap.Split(t, key, eff);
      IdsSplit(t, key, eff);
      var rm := RightmostNode(a, ta);
      if rm == -1 {
        root := JoinParts(a, b, ta, tb);
        tree := Merge(ta, tb, eff);
        return;
      }
      var cell := pool[rm].body.cell;
      if cell.end <= key {
        root := JoinParts(a, b, ta, tb);
        tree := Merge(ta, tb, eff);
        return;
      }
      root := CutCell(a, b, key, cell, ta, tb);
      tree := Merge(Merge(Merge(Treap.DetachMax(ta, eff), Fresh(old(|pool|), cell.start, key, cell.level), eff),
                          Fresh(old(|pool|) + 1, key, cell.end, cell.level), eff), tb, eff);
    }

    /** Replaces the last cell of the left part by its two halves and joins the parts. */
    method CutCell(a: int, b: int, key: int, cell: Cell, ghost ta: Tree, ghost tb: Tree) returns (m: int)
      requires ta.Node? && Repr(pool, a, ta) && Repr(pool, b, tb)
      requires Distinct(ta) && Distinct(tb) && Ids(ta) !! Ids(tb)
      modifies `pool
      ensures var eff := EffOf(ratioBp);
              var t := Merge(Merge(Merge(Treap.DetachMax(ta, eff), Fresh(old(|pool|), cell.start, key, cell.level), eff),
                                   Fresh(old(|pool|) + 1, key, cell.end, cell.level), eff), tb, eff);
              Repr(pool, m, t) && Distinct(t)
      ensures |pool| == old(|pool|) + 2
    {
      hide Treap.DetachMax, Merge, Fresh, Repr, Distinct, Ids;
      ghost var eff, p0 := EffOf(ratioBp), pool;
      ReprBound(p0, a, ta);
      ReprBound(p0, b, tb);
      var rest, keep := DetachMax(a, ta);
      ghost var d := Treap.DetachMax(ta, eff);
      IdsDetachMax(ta, eff);
      ReprElsewhere(p0, pool, Ids(ta), b, tb);
      var c1, t1 := CreateLeaf(cell.start, key, cell.level, rest, b, d, tb);
      var c2, t2 := CreateLeaf(key, cell.end, cell.level, rest, b, d, tb);
      ReprFrame(pool[..|pool| - 1], pool, c1, t1);
      ghost var p2 := pool;
      m := JoinParts(rest, c1, d, t1);
      ReprElsewhere(p2, pool, Ids(d) + Ids(t1), c2, t2);
      ReprElsewhere(p2, pool, Ids(d) + Ids(t1), b, tb);
      ghost var p3 := pool;
      m := JoinParts(m, c2, Merge(d, t1, eff), t2);
      ReprElsewhere(p3, pool, Ids(d) + Ids(t1) + Ids(t2), b, tb);
      m := JoinParts(m, b, Merge(Merge(d, t1, eff), t2, eff), tb);
    }

    /** A new slot beside two existing trees. */
    method CreateLeaf(start: int, end: int, v: Level, x: int, y: int, ghost tx: Tree, ghost ty: Tree)
      returns (n: int, ghost t: Tree)
      requires Repr(pool, x, tx) && Repr(pool, y, ty)
      modifies `pool
      ensures n == |old(pool)| && t == Fresh(n, start, end, v) && Ids(t) == {n} && Distinct(t)
      ensures |pool| == |old(pool)| + 1 && pool[..|pool| - 1] == old(pool)
      ensures Repr(pool, n, t) && Repr(pool, x, tx) && Repr(pool, y, ty)
    {
      ghost var p0 := pool;
      n := CreateCell(start, end, v);
      t := Fresh(n, start, end, v);
      IdsFresh(n, start, end, v);
      ReprFrame(p0, pool, x, tx);
      ReprFrame(p0, pool, y, ty);
    }

    /** Merge, remembering what the result occupies. */
    method JoinParts(a: int, b: int, ghost ta: Tree, ghost tb: Tree) returns (m: int)
      requires Repr(pool, a, ta) && Repr(pool, b, tb) && Distinct(ta) && Distinct(tb) && Ids(ta) !! Ids(tb)
      modifies `pool
      ensures var t := Merge(ta, tb, EffOf(ratioBp));
              Repr(pool, m, t) && Distinct(t) && Ids(t) == Ids(ta) + Ids(tb)
      ensures SameOutside(old(pool), pool, Ids(ta) + Ids(tb))
    {
      m := MergeRec(a, b, ta, tb);
      IdsMerge(ta, tb, EffOf(ratioBp));
    }

    /** The common head of every range operation: both boundaries, then the two splits. */
    method Isolate(l: int, r: int) returns (c: int, mid: int, b: int, ghost tc: Tree, ghost tm: Tree, ghost tb: Tree)
      requires Repr(pool, root, tree) && Distinct(tree)
      modifies `pool, `root, `tree
      ensures (tc, tm, tb, |pool|) == Treap.Isolate(old(tree), l, r, old(|pool|), EffOf(ratioBp))
      ensures Repr(pool, c, tc) && Repr(pool, mid, tm) && Repr(pool, b, tb)
      ensures Distinct(tc) && Distinct(tm) && Distinct(tb)
      ensures Ids(tc) !! Ids(tm) && Ids(tc) !! Ids(tb) && Ids(tm) !! Ids(tb)
    {
      hide Treap.Split, Treap.EnsureBoundary;
      ghost var eff := EffOf(ratioBp);
      EnsureBoundary(l);
      EnsureBoundary(r);
      var a;
      a, b := Split(root, r, tree);
      ghost var (ta, tb') := Treap.Split(tree, r, eff);
      IdsSplit(tree, r, eff);
      ghost var p1 := pool;
      c, mid := Split(a, l, ta);
      ghost var (tc', tm') := Treap.Split(ta, l, eff);
      IdsSplit(ta, l, eff);
      ReprElsewhere(p1, pool, Ids(ta), b, tb');
      tc, tm, tb := tc', tm', tb';
    }

    /** The common tail: the three parts become the tree again. */
    method Reassemble(c: int, mid: int, b: int, ghost tc: Tree, ghost tm: Tree, ghost tb: Tree)
      requires Repr(pool, c, tc) && Repr(pool, mid, tm) && Repr(pool, b, tb)
      requires Distinct(tc) && Distinct(tm) && Distinct(tb)
      requires Ids(tc) !! Ids(tm) && Ids(tc) !! Ids(tb) && Ids(tm) !! Ids(tb)
      modifies `pool, `root, `tree
      ensures Repr(pool, root, tree) && Distinct(tree) && |pool| == old(|pool|)
      ensures tree == Merge(Merge(tc, tm, EffOf(ratioBp)), tb, EffOf(ratioBp))
    {
      hide Merge;
      ghost var p0 := pool;
      var cm := JoinParts(c, mid, tc, tm);
      ReprElsewhere(p0, pool, Ids(tc) + Ids(tm), b, tb);
      root := JoinParts(cm, b, Merge(tc, tm, EffOf(ratioBp)), tb);
      tree := Merge(Merge(tc, tm, EffOf(ratioBp)), tb, EffOf(ratioBp));
    }

    // ---- range operations ----

    method RangeAdd(l: int, r: int, dH: int, dS: int, dHeld: int)
      requires Valid()
      modifies this
      ensures Valid() && View() == Changed(old(View()), l, r, Change(dH, dS, dHeld, false, 0))
    {
      hide Treap.Isolate, Merge, Good, Cells;
      ghost var g, eff := Change(dH, dS, dHeld, false, 0), EffOf(ratioBp);
      RangeRefines(tree, l, r, g, |pool|, lo, hi, eff);
      if root == -1 || r <= l { return; }
      var c, mid, b, tc, tm, tb := Isolate(l, r);
      if mid != -1 {
        ghost var p := pool;
        ReprBound(p, mid, tm);
        ApplyAddH(mid, dH);
        ApplyAddS(mid, dS);
        ApplyAddHeld(mid, dHeld);
        AddInParts(p[mid].body, dH, dS, dHeld, eff);
        assert pool == WithShift(p, mid, g, eff);
        ShiftedParts(p, c, mid, b, tc, tm, tb, g, eff);
      }
      Reassemble(c, mid, b, tc, ShiftRoot(tm, g, eff), tb);
    }

    method RangeSet(l: int, r: int, value: int)
      requires Valid()
      modifies this
      ensures Valid() && View() == Changed(old(View()), l, r, Change(0, 0, 0, true, value))
    {
      hide Treap.Isolate, Merge, Good, Cells;
      ghost var g, eff := Change(0, 0, 0, true, value), EffOf(ratioBp);
      RangeRefines(tree, l, r, g, |pool|, lo, hi, eff);
      if root == -1 || r <= l { return; }
      var c, mid, b, tc, tm, tb := Isolate(l, r);
      if mid != -1 {
        ghost var p := pool;
        ReprBound(p, mid, tm);
        ApplySetCap(mid, value);
        ShiftedParts(p, c, mid, b, tc, tm, tb, g, eff);
      }
      Reassemble(c, mid, b, tc, ShiftRoot(tm, g, eff), tb);
    }

    method MinSlack(l: int, r: int, hard: bool) returns (res: int)
      requires Valid()
      modifies this
      ensures Valid() && View() == old(View())
      ensures hard ==> res == Least(View(), l, r, HardSlack, Int64.MAX)
      ensures !hard ==> res == Least(View(), l, r, SoftSlackBy(EffOf(ratioBp)), Int64.MAX)
    {
      hide Treap.Isolate, Merge, Good, Cells, Least;
      ghost var eff := EffOf(ratioBp);
      RangeRefines(tree, l, r, NO_CHANGE, |pool|, lo, hi, eff);
      QueryRefines(tree, l, r, |pool|, lo, hi, eff);
      if root == -1 || r <= l { return Int64.MAX; }
      var c, mid, b, tc, tm, tb := Isolate(l, r);
      res := if mid == -1 then Int64.MAX else if hard then pool[mid].body.agg.minHard else pool[mid].body.agg.minSoft;
      Reassemble(c, mid, b, tc, tm, tb);
    }

    method MaxContrib(l: int, r: int, hard: bool) returns (res: int)
      requires Valid()
      modifies this
      ensures Valid() && View() == old(View())
      ensures hard ==> res == Greatest(View(), l, r, HardLoad, 0)
      ensures !hard ==> res == Greatest(View(), l, r, SoftLoad, 0)
    {
      hide Treap.Isolate, Merge, Good, Cells, Greatest;
      ghost var eff := EffOf(ratioBp);
      RangeRefines(tree, l, r, NO_CHANGE, |pool|, lo, hi, eff);
      QueryRefines(tree, l, r, |pool|, lo, hi, eff);
      if root == -1 || r <= l { return 0; }
      var c, mid, b, tc, tm, tb := Isolate(l, r);
      res := if mid == -1 then 0 else if hard then pool[mid].body.agg.maxHard else pool[mid].body.agg.maxSoft;
      Reassemble(c, mid, b, tc, tm, tb);
    }
  }

  // ---- lemmas about one node ----

  /** Each write of a push adds the next part of the tag to what the children got so far. */
  lemma PartsInOrder(g: Change)
    ensures Compose(Part(g, 1), Change(g.hard, 0, 0, false, 0)) == Part(g, 2)
    ensures Compose(Part(g, 2), Change(0, g.soft, 0, false, 0)) == Part(g, 3)
    ensures Compose(Part(g, 3), Change(0, 0, g.held, false, 0)) == Part(g, 4)
  {
  }

  /** The slot and its two children exist and are three different slots. */
  ghost predicate Linked(p: seq<Slot>, n: int) {
    && 0 <= n < |p|
    && -1 <= p[n].left < |p| && -1 <= p[n].right < |p|
    && p[n].left != n && p[n].right != n && (p[n].left == -1 || p[n].left != p[n].right)
  }

  lemma NodeLinked(p: seq<Slot>, n: int, t: Tree)
    requires t.Node? && Repr(p, n, t) && Distinct(t)
    ensures Linked(p, n) && p[n].body == t.body
  {
    ReprBound(p, n, t);
  }

  /** `q` is `p` with change `g` applied to both children of `n` and a new tag on `n`. */
  ghost predicate PushedBy(p: seq<Slot>, q: seq<Slot>, n: int, tag: Change, g: Change, eff: int -> int) {
    && |p| == |q| && 0 <= n < |p|
    && q[n] == p[n].(body := p[n].body.(tag := tag))
    && forall i :: 0 <= i < |p| && i != n ==>
                     q[i] == if i == p[n].left || i == p[n].right then p[i].(body := ShiftBody(p[i].body, g, eff)) else p[i]
  }

  lemma PushedTag(p: seq<Slot>, q: seq<Slot>, n: int, tag: Change, g: Change, eff: int -> int)
    requires PushedBy(p, q, n, tag, g, eff)
    ensures 0 <= n < |q| && q[n].body.tag == tag
  {
  }

  lemma ShiftTwiceBody(b: Body, g: Change, h: Change, eff: int -> int)
    ensures ShiftBody(ShiftBody(b, g, eff), h, eff) == ShiftBody(b, Compose(g, h), eff)
  {
  }

  lemma PushedTwice(p: seq<Slot>, q: seq<Slot>, r: seq<Slot>, n: int, tag: Change, tag': Change, g: Change, h: Change, eff: int -> int)
    requires PushedBy(p, q, n, tag, g, eff) && PushedBy(q, r, n, tag', h, eff)
    ensures PushedBy(p, r, n, tag', Compose(g, h), eff)
    ensures 0 <= n < |r| && r[n].body.tag == tag'
  {
    hide ShiftBody, Compose;
    forall i | 0 <= i < |p| && i != n
      ensures r[i] == if i == p[n].left || i == p[n].right then p[i].(body := ShiftBody(p[i].body, Compose(g, h), eff)) else p[i]
    {
      ShiftTwiceBody(p[i].body, g, h, eff);
    }
  }

  lemma ShiftNothingEverywhere(eff: int -> int)
    ensures forall b: Body :: ShiftBody(b, NO_CHANGE, eff) == b
  {
  }

  lemma PartsWhole(b: Body, g: Change, eff: int -> int)
    ensures ShiftBody(b, Part(g, 4), eff) == ShiftBody(b, g, eff)
  {
  }

  lemma PushedRepr(p: seq<Slot>, q: seq<Slot>, n: int, t: Tree, g: Change, eff: int -> int)
    requires t.Node? && Repr(p, n, t) && Distinct(t)
    requires PushedBy(p, q, n, Cleared(t.body.tag), g, eff) && g == Part(t.body.tag, 4)
    ensures Repr(q, n, Treap.Push(t, eff)) && SameOutside(p, q, Ids(t))
  {
    hide ShiftBody, Part;
    var left, right := p[n].left, p[n].right;
    ReprBound(p, n, t);
    if t.left.Node? { PartsWhole(t.left.body, t.body.tag, eff); }
    if t.right.Node? { PartsWhole(t.right.body, t.body.tag, eff); }
    ChildShifted(p, q, left, t.left, t.body.tag, eff);
    ChildShifted(p, q, right, t.right, t.body.tag, eff);
  }

  /** A root slot changed and its subtree untouched below. */
  lemma ChildShifted(p: seq<Slot>, q: seq<Slot>, n: int, t: Tree, g: Change, eff: int -> int)
    requires Repr(p, n, t) && Distinct(t) && |p| == |q|
    requires t.Node? ==> q[n] == p[n].(body := ShiftBody(p[n].body, g, eff))
    requires forall i :: 0 <= i < |p| && i in Ids(t) && i != n ==> q[i] == p[i]
    ensures Repr(q, n, ShiftRoot(t, g, eff))
  {
    if t.Node? {
      ReprFrame(p, q, p[n].left, t.left);
      ReprFrame(p, q, p[n].right, t.right);
    }
  }

  lemma AddInParts(b: Body, dH: int, dS: int, dHeld: int, eff: int -> int)
    ensures ShiftBody(ShiftBody(ShiftBody(b, Change(dH, 0, 0, false, 0), eff), Change(0, dS, 0, false, 0), eff), Change(0, 0, dHeld, false, 0), eff)
            == ShiftBody(b, Change(dH, dS, dHeld, false, 0), eff)
  {
  }

  /** Tagging the middle root leaves the other two parts alone. */
  lemma ShiftedParts(p: seq<Slot>, c: int, mid: int, b: int, tc: Tree, tm: Tree, tb: Tree, g: Change, eff: int -> int)
    requires Repr(p, c, tc) && Repr(p, mid, tm) && Repr(p, b, tb) && tm.Node? && Distinct(tm) && 0 <= mid < |p|
    requires Ids(tc) !! Ids(tm) && Ids(tb) !! Ids(tm)
    ensures var q := WithShift(p, mid, g, eff);
            && Repr(q, c, tc) && Repr(q, mid, ShiftRoot(tm, g, eff)) && Repr(q, b, tb)
            && Distinct(ShiftRoot(tm, g, eff)) && Ids(ShiftRoot(tm, g, eff)) == Ids(tm)
  {
    var q := WithShift(p, mid, g, eff);
    ReprFrame(p, q, c, tc);
    ReprFrame(p, q, b, tb);
    ChildShifted(p, q, mid, tm, g, eff);
    IdsShiftRoot(tm, g, eff);
  }

  // ---- what the tree operations mean ----

  lemma RangeRefines(t: Tree, l: int, r: int, g: Change, next: nat, lo: int, hi: int, eff: int -> int)
    requires t.Node? ==> Good(Index(t, next), lo, hi, eff)
    ensures t.Leaf? ==> Changed(map[], l, r, g) == map[]
    ensures t.Node? ==> var (s, n) := RangeOp(t, l, r, g, next, eff);
                        && s.Node? && Good(Index(s, n), lo, hi, eff)
                        && ProfileOf(Cells(s)) == Changed(ProfileOf(Cells(t)), l, r, g)
    ensures t.Node? && IsNull(g) ==> Changed(ProfileOf(Cells(t)), l, r, g) == ProfileOf(Cells(t))
    ensures g == NO_CHANGE ==> forall s: Tree :: ShiftRoot(s, g, eff) == s
  {
    hide Cells, Sound, Canonical, RangeOp, RangeCells, ProfileOf, LevelAt;
    if t.Node? {
      CellsRangeOp(t, l, r, g, next, eff);
      RangeCellsProfile(Cells(t), l, r, g);
      SoundRangeOp(t, l, r, g, next, eff);
      CanonicalRangeOp(t, l, r, g, next, eff);
      RangeCost(t, l, r, g, next, eff);
      if IsNull(g) { NullChange(ProfileOf(Cells(t)), l, r, g); }
    }
  }

  lemma QueryRefines(t: Tree, l: int, r: int, next: nat, lo: int, hi: int, eff: int -> int)
    requires t.Node? ==> Good(Index(t, next), lo, hi, eff)
    ensures var p := if t.Leaf? then map[] else ProfileOf(Cells(t));
            var mid := RangeRead(t, l, r, next, eff);
            && Least(p, l, r, HardSlack, Int64.MAX) == (if mid.Leaf? then Int64.MAX else mid.body.agg.minHard)
            && Least(p, l, r, SoftSlackBy(eff), Int64.MAX) == (if mid.Leaf? then Int64.MAX else mid.body.agg.minSoft)
            && Greatest(p, l, r, HardLoad, 0) == (if mid.Leaf? then 0 else mid.body.agg.maxHard)
            && Greatest(p, l, r, SoftLoad, 0) == (if mid.Leaf? then 0 else mid.body.agg.maxSoft)
  {
    hide Good, Cells, Treap.Isolate, Least, Greatest, ProfileOf, Meets;
    if t.Node? {
      QueryIsExact(Index(t, next), l, r, lo, hi, eff);
    } else {
      EmptyProfile(l, r, HardSlack, SoftSlackBy(eff), HardLoad, SoftLoad);
    }
  }

  lemma EmptyProfile(l: int, r: int, f: Level -> int, g: Level -> int, h: Level -> int, k: Level -> int)
    ensures Least(map[], l, r, f, Int64.MAX) == Int64.MAX == Least(map[], l, r, g, Int64.MAX)
    ensures Greatest(map[], l, r, h, 0) == 0 == Greatest(map[], l, r, k, 0)
  {
    LeastIsLeast(map[], l, r, f, Int64.MAX, 0);
    LeastIsLeast(map[], l, r, g, Int64.MAX, 0);
    GreatestIsGreatest(map[], l, r, h, 0, 0);
    GreatestIsGreatest(map[], l, r, k, 0, 0);
  }
}
