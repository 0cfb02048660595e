/** Trees laid out in a pool: slots linked by index, as the capacity index stores them. */
module TreapPool {
  import opened Levels
  import opened Treap

  /** A pool slot; -1 stands for no child. */
  datatype Slot = Slot(body: Body, left: int, right: int)

  /** The slots a tree occupies. */
  ghost function Ids(t: Tree): set<int> {
    match t
    case Leaf => {}
    case Node(i, _, l, r) => {i} + Ids(l) + Ids(r)
  }

  /** No slot is used twice. */
  ghost predicate Distinct(t: Tree) {
    t.Node? ==>
      && t.idx !in Ids(t.left) && t.idx !in Ids(t.right) && Ids(t.left) !! Ids(t.right)
      && Distinct(t.left) && Distinct(t.right)
  }

  /** Slot `n` of the pool is the root of a layout of `t`. */
  ghost predicate Repr(pool: seq<Slot>, n: int, t: Tree)
    decreases t
  {
    match t
    case Leaf => n == -1
    case Node(i, b, l, r) =>
      && n == i && i < |pool| && pool[i].body == b
      && Repr(pool, pool[i].left, l) && Repr(pool, pool[i].right, r)
  }

  ghost predicate SameOutside(p: seq<Slot>, q: seq<Slot>, ids: set<int>) {
    |p| == |q| && forall i :: 0 <= i < |p| && i !in ids ==> q[i] == p[i]
  }

  lemma {:induction false} ReprFrame(p: seq<Slot>, q: seq<Slot>, n: int, t: Tree)
    requires Repr(p, n, t) && |p| <= |q| && forall i :: 0 <= i < |p| && i in Ids(t) ==> q[i] == p[i]
    ensures Repr(q, n, t)
    decreases t
  {
    if t.Node? {
      ReprFrame(p, q, p[n].left, t.left);
      ReprFrame(p, q, p[n].right, t.right);
    }
  }

  /** Changes elsewhere leave a layout alone. */
  lemma ReprElsewhere(p: seq<Slot>, q: seq<Slot>, ids: set<int>, n: int, t: Tree)
    requires Repr(p, n, t) && SameOutside(p, q, ids) && Ids(t) !! ids
    ensures Repr(q, n, t)
  {
    ReprFrame(p, q, n, t);
  }

  lemma {:induction false} ReprBound(pool: seq<Slot>, n: int, t: Tree)
    requires Repr(pool, n, t)
    ensures forall i :: i in Ids(t) ==> 0 <= i < |pool|
    decreases t
  {
    if t.Node? {
      ReprBound(pool, pool[n].left, t.left);
      ReprBound(pool, pool[n].right, t.right);
    }
  }

  lemma RootIsLeaf(pool: seq<Slot>, n: int, t: Tree)
    requires Repr(pool, n, t)
    ensures n == -1 <==> t.Leaf?
  {
  }

  lemma IdsShiftRoot(t: Tree, g: Change, eff: int -> int)
    ensures Ids(ShiftRoot(t, g, eff)) == Ids(t) && (Distinct(ShiftRoot(t, g, eff)) <==> Distinct(t))
  {
  }

  lemma IdsPush(t: Tree, eff: int -> int)
    requires t.Node? && Distinct(t)
    ensures var p := Push(t, eff);
            && Ids(p) == Ids(t) && Distinct(p) && p.idx == t.idx
            && Ids(p.left) == Ids(t.left) && Ids(p.right) == Ids(t.right)
  {
    IdsShiftRoot(t.left, t.body.tag, eff);
    IdsShiftRoot(t.right, t.body.tag, eff);
  }

  lemma {:induction false} IdsMerge(a: Tree, b: Tree, eff: int -> int)
    requires Distinct(a) && Distinct(b) && Ids(a) !! Ids(b)
    ensures Ids(Merge(a, b, eff)) == Ids(a) + Ids(b) && Distinct(Merge(a, b, eff))
    decreases Size(a) + Size(b)
  {
    hide Push, PulledAgg;
    if a.Leaf? || b.Leaf? {
    } else if a.body.prio > b.body.prio {
      IdsPush(a, eff);
      IdsMerge(Push(a, eff).right, b, eff);
    } else {
      IdsPush(b, eff);
      IdsMerge(a, Push(b, eff).left, eff);
    }
  }

  lemma {:induction false} IdsSplit(t: Tree, key: int, eff: int -> int)
    requires Distinct(t)
    ensures var (l, r) := Split(t, key, eff);
            Ids(l) + Ids(r) == Ids(t) && Ids(l) !! Ids(r) && Distinct(l) && Distinct(r)
    decreases Size(t)
  {
    hide Push, PulledAgg;
    if t.Node? {
      IdsPush(t, eff);
      var p := Push(t, eff);
      if p.body.cell.start < key {
        IdsSplit(p.right, key, eff);
      } else {
        IdsSplit(p.left, key, eff);
      }
    }
  }

  lemma {:induction false} IdsDetachMax(t: Tree, eff: int -> int)
    requires t.Node? && Distinct(t)
    ensures Ids(DetachMax(t, eff)) <= Ids(t) && Distinct(DetachMax(t, eff))
    decreases Size(t)
  {
    hide Push, PulledAgg;
    IdsPush(t, eff);
    var p := Push(t, eff);
    if p.right.Node? {
      IdsDetachMax(p.right, eff);
    }
  }

  lemma IdsFresh(idx: nat, start: int, end: int, v: Level)
    ensures Ids(Fresh(idx, start, end, v)) == {idx} && Distinct(Fresh(idx, start, end, v))
  {
  }

  lemma ShiftNothing(b: Body, eff: int -> int)
    ensures ShiftBody(b, NO_CHANGE, eff) == b
  {
  }
}
