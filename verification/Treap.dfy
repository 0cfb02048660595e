/** The capacity index as a value: a treap of half-open cells keyed by start, with lazy tags,
    subtree aggregates and hash priorities. Every operation here is the one the pool class
    performs on indices; `idx` is the pool slot a node lives in and `eff` the effective
    capacity under the index's ratio. */
module Treap {
  import opened Levels
  import Int64

  datatype Cell = Cell(start: int, end: int, level: Level)

  /** The value fields of a pool node. */
  datatype Body = Body(cell: Cell, agg: Agg, tag: Change, prio: nat)

  datatype Tree = Leaf | Node(idx: nat, body: Body, left: Tree, right: Tree)

  function Size(t: Tree): nat {
    match t
    case Leaf => 0
    case Node(_, _, l, r) => 1 + Size(l) + Size(r)
  }

  // ---- lazy tags ----

  function ShiftBody(b: Body, g: Change, eff: int -> int): Body {
    Body(b.cell.(level := Apply(b.cell.level, g)), ShiftAgg(b.agg, g, eff), Compose(b.tag, g), b.prio)
  }

  function ShiftRoot(t: Tree, g: Change, eff: int -> int): (s: Tree)
    ensures Size(s) == Size(t)
    ensures s.Leaf? <==> t.Leaf?
  {
    match t
    case Leaf => Leaf
    case Node(i, b, l, r) => Node(i, ShiftBody(b, g, eff), l, r)
  }

  /** A pushed tag: nothing is pending, the last capacity value stays behind unread. */
  function Cleared(g: Change): Change {
    Change(0, 0, 0, false, g.setCap)
  }

  function Push(t: Tree, eff: int -> int): (s: Tree)
    requires t.Node?
    ensures s.Node? && Size(s) == Size(t) && Size(s.left) == Size(t.left) && Size(s.right) == Size(t.right)
    ensures IsNull(s.body.tag) && s.body.cell == t.body.cell
  {
    Node(t.idx, t.body.(tag := Cleared(t.body.tag)),
         ShiftRoot(t.left, t.body.tag, eff), ShiftRoot(t.right, t.body.tag, eff))
  }

  function PulledAgg(v: Level, left: Tree, right: Tree, eff: int -> int): Agg {
    var self := AggOfLevel(v, eff);
    var withLeft := if left.Node? then Join(self, left.body.agg) else self;
    if right.Node? then Join(withLeft, right.body.agg) else withLeft
  }

  /** The node rebuilt over its children with its aggregates recomputed from theirs. */
  function Pulled(idx: nat, b: Body, left: Tree, right: Tree, eff: int -> int): Tree {
    Node(idx, b.(agg := PulledAgg(b.cell.level, left, right, eff)), left, right)
  }

  // ---- structure ----

  /** A new cell: its aggregates are left at zero. */
  function Fresh(idx: nat, start: int, end: int, v: Level): (t: Tree)
    ensures Size(t) == 1
  {
    Node(idx, Body(Cell(start, end, v), ZERO_AGG, NO_CHANGE, Int64.DetPrio(start)), Leaf, Leaf)
  }

  function Merge(a: Tree, b: Tree, eff: int -> int): (t: Tree)
    ensures Size(t) == Size(a) + Size(b)
    decreases Size(a) + Size(b)
  {
    if a.Leaf? then b
    else if b.Leaf? then a
    else if a.body.prio > b.body.prio then
      var p := Push(a, eff);
      Pulled(p.idx, p.body, p.left, Merge(p.right, b, eff), eff)
    else
      var p := Push(b, eff);
      Pulled(p.idx, p.body, Merge(a, p.left, eff), p.right, eff)
  }

  function Split(t: Tree, key: int, eff: int -> int): (s: (Tree, Tree))
    ensures Size(s.0) + Size(s.1) == Size(t)
    decreases Size(t)
  {
    if t.Leaf? then (Leaf, Leaf)
    else
      var p := Push(t, eff);
      if p.body.cell.start < key then
        var (nr, r) := Split(p.right, key, eff);
        (Pulled(p.idx, p.body, p.left, nr, eff), r)
      else
        var (l, nl) := Split(p.left, key, eff);
        (l, Pulled(p.idx, p.body, nl, p.right, eff))
  }

  /** Removes the rightmost cell. */
  function DetachMax(t: Tree, eff: int -> int): (s: Tree)
    requires t.Node?
    ensures Size(s) == Size(t) - 1
    decreases Size(t)
  {
    var p := Push(t, eff);
    if p.right.Leaf? then p.left
    else Pulled(p.idx, p.body, p.left, DetachMax(p.right, eff), eff)
  }

  /** The rightmost node read without pushing the tags above it. */
  function Rightmost(t: Tree): Body
    requires t.Node?
  {
    if t.right.Leaf? then t.body else Rightmost(t.right)
  }

  /** The tree after cutting the cell that straddles `key`, and the pool size. */
  function EnsureBoundary(t: Tree, key: int, next: nat, eff: int -> int): (Tree, nat) {
    if t.Leaf? then (t, next)
    else
      var (a, b) := Split(t, key, eff);
      if a.Leaf? then (Merge(a, b, eff), next)
      else
        var cell := Rightmost(a).cell;
        if cell.end <= key then (Merge(a, b, eff), next)
        else
          var left := Fresh(next, cell.start, key, cell.level);
          var right := Fresh(next + 1, key, cell.end, cell.level);
          (Merge(Merge(Merge(DetachMax(a, eff), left, eff), right, eff), b, eff), next + 2)
  }

  /** The three parts before, inside and after a range once both ends are boundaries. */
  function Isolate(t: Tree, l: int, r: int, next: nat, eff: int -> int): (Tree, Tree, Tree, nat) {
    var (t1, n1) := EnsureBoundary(t, l, next, eff);
    var (t2, n2) := EnsureBoundary(t1, r, n1, eff);
    var (a, b) := Split(t2, r, eff);
    var (c, mid) := Split(a, l, eff);
    (c, mid, b, n2)
  }

  /** A range operation: change the part inside the range and put the three parts together.
      With a null change it is exactly the restructuring a query performs. */
  function RangeOp(t: Tree, l: int, r: int, g: Change, next: nat, eff: int -> int): (Tree, nat) {
    if t.Leaf? || r <= l then (t, next)
    else
      var (c, mid, b, n) := Isolate(t, l, r, next, eff);
      (Merge(Merge(c, ShiftRoot(mid, g, eff), eff), b, eff), n)
  }

  /** The aggregates a query reads: those on the root of the middle part. */
  function RangeRead(t: Tree, l: int, r: int, next: nat, eff: int -> int): Tree {
    if t.Leaf? || r <= l then Leaf else Isolate(t, l, r, next, eff).1
  }
}
