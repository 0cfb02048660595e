/** Which stored aggregates can be trusted. A new cell is stored with zero aggregates, so after
    a boundary is made, the nodes above the new cells are wrong; the splits that follow repair
    exactly those before anything reads them. */
module TreapExact {
  import opened Levels
  import opened Treap
  import opened TreapCells
  import opened TreapProfile

  /** The true aggregates of a run of cells. */
  function AggOf(cs: seq<Cell>, eff: int -> int): Agg
    requires cs != []
  {
    if |cs| == 1 then AggOfLevel(cs[0].level, eff)
    else Join(AggOfLevel(cs[0].level, eff), AggOf(cs[1..], eff))
  }

  lemma {:induction false} AggConcat(a: seq<Cell>, b: seq<Cell>, eff: int -> int)
    requires a != [] && b != []
    ensures AggOf(a + b, eff) == Join(AggOf(a, eff), AggOf(b, eff))
    decreases |a|
  {
    assert (a + b)[1..] == a[1..] + b;
    if |a| > 1 {
      AggConcat(a[1..], b, eff);
    }
  }

  lemma {:induction false} AggShift(cs: seq<Cell>, g: Change, eff: int -> int)
    requires cs != []
    ensures AggOf(ShiftCells(cs, g), eff) == ShiftAgg(AggOf(cs, eff), g, eff)
    decreases |cs|
  {
    var k := ShiftCells(cs, g);
    assert k[0].level == Apply(cs[0].level, g);
    if |cs| > 1 {
      assert k[1..] == ShiftCells(cs[1..], g);
      AggShift(cs[1..], g, eff);
    }
  }

  /** No cell starts or ends at one of the keys. */
  ghost predicate Clear(cs: seq<Cell>, keys: set<int>) {
    forall i :: 0 <= i < |cs| ==> cs[i].start !in keys && cs[i].end !in keys
  }

  /** Every node whose cells stay clear of the keys carries its true aggregates; every other
      node has no pending tag, so nothing wrong is ever pushed down. With no keys every
      aggregate in the tree is exact. */
  ghost predicate Sound(t: Tree, keys: set<int>, eff: int -> int) {
    t.Node? ==>
      && Sound(t.left, keys, eff)
      && Sound(t.right, keys, eff)
      && (if Clear(Cells(t), keys) then t.body.agg == AggOf(Cells(t), eff) else IsNull(t.body.tag))
  }

  lemma ClearConcat(a: seq<Cell>, c: Cell, b: seq<Cell>, keys: set<int>)
    ensures Clear(a + [c] + b, keys) <==> Clear(a, keys) && Clear([c], keys) && Clear(b, keys)
  {
    var s := a + [c] + b;
    if Clear(s, keys) {
      assert forall i :: 0 <= i < |a| ==> a[i] == s[i];
      assert s[|a|] == c;
      assert forall i :: 0 <= i < |b| ==> b[i] == s[|a| + 1 + i];
    }
  }

  lemma ClearShift(cs: seq<Cell>, g: Change, keys: set<int>)
    ensures Clear(ShiftCells(cs, g), keys) <==> Clear(cs, keys)
  {
    var k := ShiftCells(cs, g);
    assert forall i :: 0 <= i < |cs| ==> k[i].start == cs[i].start && k[i].end == cs[i].end;
  }

  lemma SoundShiftRoot(t: Tree, g: Change, keys: set<int>, eff: int -> int)
    requires Sound(t, keys, eff)
    requires Clear(Cells(t), keys) || IsNull(g)
    ensures Sound(ShiftRoot(t, g, eff), keys, eff)
  {
    if t.Node? {
      CellsShiftRoot(t, g, eff);
      ClearShift(Cells(t), g, keys);
      if Clear(Cells(t), keys) {
        AggShift(Cells(t), g, eff);
      }
    }
  }

  lemma SoundPush(t: Tree, keys: set<int>, eff: int -> int)
    requires t.Node? && Sound(t, keys, eff)
    ensures var p := Push(t, eff); Sound(p.left, keys, eff) && Sound(p.right, keys, eff)
  {
    hide ShiftCells;
    var L, R := Cells(t.left), Cells(t.right);
    ClearConcat(ShiftCells(L, t.body.tag), t.body.cell, ShiftCells(R, t.body.tag), keys);
    ClearShift(L, t.body.tag, keys);
    ClearShift(R, t.body.tag, keys);
    SoundShiftRoot(t.left, t.body.tag, keys, eff);
    SoundShiftRoot(t.right, t.body.tag, keys, eff);
  }

  lemma AggAround(a: seq<Cell>, c: Cell, b: seq<Cell>, eff: int -> int)
    ensures AggOf(a + [c] + b, eff) ==
            var self := AggOfLevel(c.level, eff);
            var withLeft := if a != [] then Join(self, AggOf(a, eff)) else self;
            if b != [] then Join(withLeft, AggOf(b, eff)) else withLeft
  {
    if a != [] { AggConcat(a, [c], eff); } else { assert a + [c] == [c]; }
    if b != [] { AggConcat(a + [c], b, eff); } else { assert a + [c] + b == a + [c]; }
  }

  /** Recomputing a node from sound children makes it sound. */
  lemma SoundPulled(idx: nat, b: Body, left: Tree, right: Tree, keys: set<int>, eff: int -> int)
    requires IsNull(b.tag) && Sound(left, keys, eff) && Sound(right, keys, eff)
    ensures Sound(Pulled(idx, b, left, right, eff), keys, eff)
  {
    hide AggOf, ShiftCells, Clear;
    CellsPulled(idx, b, left, right, eff);
    ClearConcat(Cells(left), b.cell, Cells(right), keys);
    AggAround(Cells(left), b.cell, Cells(right), eff);
  }

  lemma {:induction false} SoundMerge(a: Tree, b: Tree, keys: set<int>, eff: int -> int)
    requires Sound(a, keys, eff) && Sound(b, keys, eff)
    ensures Sound(Merge(a, b, eff), keys, eff)
    decreases Size(a) + Size(b)
  {
    hide Push, Pulled, Sound, Cells;
    if a.Leaf? || b.Leaf? {
    } else if a.body.prio > b.body.prio {
      var p := Push(a, eff);
      SoundPush(a, keys, eff);
      SoundMerge(p.right, b, keys, eff);
      SoundPulled(p.idx, p.body, p.left, Merge(p.right, b, eff), keys, eff);
    } else {
      var p := Push(b, eff);
      SoundPush(b, keys, eff);
      SoundMerge(a, p.left, keys, eff);
      SoundPulled(p.idx, p.body, Merge(a, p.left, eff), p.right, keys, eff);
    }
  }

  lemma {:induction false} SoundDetachMax(t: Tree, keys: set<int>, eff: int -> int)
    requires t.Node? && Sound(t, keys, eff)
    ensures Sound(DetachMax(t, eff), keys, eff)
    decreases Size(t)
  {
    hide Push, Pulled, Sound, Cells;
    var p := Push(t, eff);
    SoundPush(t, keys, eff);
    if p.right.Node? {
      SoundDetachMax(p.right, keys, eff);
      SoundPulled(p.idx, p.body, p.left, DetachMax(p.right, eff), keys, eff);
    }
  }

  /** A key no cell touches may be added or dropped. */
  lemma {:induction false} SoundElsewhere(t: Tree, keys: set<int>, keys': set<int>, key: int, eff: int -> int)
    requires Sound(t, keys, eff) && keys - {key} == keys' - {key} && Clear(Cells(t), {key})
    ensures Sound(t, keys', eff)
    decreases t
  {
    if t.Node? {
      var L, R := Cells(t.left), Cells(t.right);
      ClearConcat(ShiftCells(L, t.body.tag), t.body.cell, ShiftCells(R, t.body.tag), {key});
      ClearShift(L, t.body.tag, {key});
      ClearShift(R, t.body.tag, {key});
      SoundElsewhere(t.left, keys, keys', key, eff);
      SoundElsewhere(t.right, keys, keys', key, eff);
      ClearSame(Cells(t), keys, keys', key);
    }
  }

  lemma ClearSame(cs: seq<Cell>, keys: set<int>, keys': set<int>, key: int)
    requires keys - {key} == keys' - {key} && Clear(cs, {key})
    ensures Clear(cs, keys) <==> Clear(cs, keys')
  {
    assert forall x | x != key :: x in keys <==> x in keys - {key};
    assert forall x | x != key :: x in keys' <==> x in keys' - {key};
    assert forall i :: 0 <= i < |cs| ==> cs[i].start != key && cs[i].end != key;
  }

  lemma BeforeIsClear(cs: seq<Cell>, c: Cell, key: int)
    requires AllBefore(cs, c.start) && EndsBy(cs, c.start) && c.start < key
    ensures Clear(cs, {key})
  {
  }

  lemma AfterIsClear(cs: seq<Cell>, c: Cell, key: int)
    requires Ordered(cs) && AllFrom(cs, c.end) && key < c.end
    ensures Clear(cs, {key})
  {
  }

  /** A split visits every node whose cells touch the key, so its parts are sound whether or
      not the key was suspect before, and stay so if it is made suspect again. */
  lemma {:induction false} SoundSplit(t: Tree, key: int, keys: set<int>, keys': set<int>, eff: int -> int)
    requires Ordered(Cells(t)) && Sound(t, keys, eff) && keys - {key} == keys' - {key}
    ensures Sound(Split(t, key, eff).0, keys', eff) && Sound(Split(t, key, eff).1, keys', eff)
    decreases Size(t)
  {
    hide Push, Pulled, Cells, Ordered, AllBefore, AllFrom, EndsBy, Clear;
    if t.Node? {
      var p := Push(t, eff);
      SoundPush(t, keys, eff);
      CellsPush(t, eff);
      var L, c, R := Cells(p.left), p.body.cell, Cells(p.right);
      OrderedParts(L, c, R);
      LeftEnds(L, c, R);
      if c.start < key {
        BeforeIsClear(L, c, key);
        SoundElsewhere(p.left, keys, keys', key, eff);
        SoundSplit(p.right, key, keys, keys', eff);
        SoundPulled(p.idx, p.body, p.left, Split(p.right, key, eff).0, keys', eff);
      } else {
        AfterIsClear(R, c, key);
        SoundElsewhere(p.right, keys, keys', key, eff);
        SoundSplit(p.left, key, keys, keys', eff);
        SoundPulled(p.idx, p.body, Split(p.left, key, eff).1, p.right, keys', eff);
      }
    }
  }

  lemma LeftEnds(a: seq<Cell>, c: Cell, b: seq<Cell>)
    requires Ordered(a + [c] + b)
    ensures EndsBy(a, c.start)
  {
    OrderedParts(a, c, b);
  }

  lemma SoundFresh(idx: nat, start: int, end: int, v: Level, keys: set<int>, eff: int -> int)
    requires start in keys || end in keys
    ensures Sound(Fresh(idx, start, end, v), keys, eff)
  {
    var cs := Cells(Fresh(idx, start, end, v));
    assert cs[0].start == start && cs[0].end == end;
  }

  /** A new boundary makes suspect only the nodes above cells that touch it. */
  lemma SoundEnsureBoundary(t: Tree, key: int, next: nat, keys: set<int>, eff: int -> int)
    requires Ordered(Cells(t)) && Sound(t, keys, eff)
    ensures Sound(EnsureBoundary(t, key, next, eff).0, keys + {key}, eff)
  {
    hide Merge, DetachMax, Split, Cells, Ordered, Sound;
    if t.Leaf? {
      SoundLeaf(keys + {key}, eff);
    } else {
      var (a, b) := Split(t, key, eff);
      var keys' := keys + {key};
      SoundSplit(t, key, keys, keys', eff);
      if a.Node? && key < Rightmost(a).cell.end {
        var cell := Rightmost(a).cell;
        var left := Fresh(next, cell.start, key, cell.level);
        var right := Fresh(next + 1, key, cell.end, cell.level);
        SoundDetachMax(a, keys', eff);
        SoundFresh(next, cell.start, key, cell.level, keys', eff);
        SoundFresh(next + 1, key, cell.end, cell.level, keys', eff);
        SoundMerge(DetachMax(a, eff), left, keys', eff);
        SoundMerge(Merge(DetachMax(a, eff), left, eff), right, keys', eff);
        SoundMerge(Merge(Merge(DetachMax(a, eff), left, eff), right, eff), b, keys', eff);
      } else {
        SoundMerge(a, b, keys', eff);
      }
    }
  }

  lemma SoundLeaf(keys: set<int>, eff: int -> int)
    ensures Sound(Leaf, keys, eff)
  {
  }

  lemma PastIsClear(cs: seq<Cell>, l: int, r: int)
    requires Ordered(cs) && AllFrom(cs, r) && l < r
    ensures Clear(cs, {l})
  {
  }

  lemma OrderedSuffix(a: seq<Cell>, b: seq<Cell>)
    requires Ordered(a + b)
    ensures Ordered(b)
  {
    forall i | 0 <= i < |b| ensures b[i] == (a + b)[|a| + i] {
    }
  }

  /** No stale aggregate is ever read: from an exact tree, after both boundaries are made and
      the tree is split at `r` and then `l`, every node of all three parts is exact. */
  lemma IsolateIsExact(t: Tree, l: int, r: int, next: nat, eff: int -> int)
    requires Ordered(Cells(t)) && Sound(t, {}, eff) && l < r
    ensures var (c, mid, b, _) := Isolate(t, l, r, next, eff);
            Sound(c, {}, eff) && Sound(mid, {}, eff) && Sound(b, {}, eff)
  {
    hide EnsureBoundary, Split, Cells, Ordered, Sound, CutAt, AllFrom, AllBefore, Clear;
    var (t1, n1) := EnsureBoundary(t, l, next, eff);
    var (t2, n2) := EnsureBoundary(t1, r, n1, eff);
    var (a, b) := Split(t2, r, eff);
    CellsEnsureBoundary(t, l, next, eff);
    CutOrdered(Cells(t), l);
    CellsEnsureBoundary(t1, r, n1, eff);
    CutOrdered(Cells(t1), r);
    SoundEnsureBoundary(t, l, next, {}, eff);
    assert {} + {l} == {l};
    SoundEnsureBoundary(t1, r, n1, {l}, eff);
    SoundSplit(t2, r, {l} + {r}, {l}, eff);
    CellsSplit(t2, r, eff);
    OrderedPrefix(Cells(a), Cells(b));
    OrderedSuffix(Cells(a), Cells(b));
    SoundSplit(a, l, {l}, {}, eff);
    PastIsClear(Cells(b), l, r);
    SoundElsewhere(b, {l}, {}, l, eff);
  }

  /** Between operations every aggregate of the tree is exact. */
  lemma SoundRangeOp(t: Tree, l: int, r: int, g: Change, next: nat, eff: int -> int)
    requires Ordered(Cells(t)) && Sound(t, {}, eff)
    ensures Sound(RangeOp(t, l, r, g, next, eff).0, {}, eff)
  {
    hide Merge, Isolate, Cells, Ordered, Sound, ShiftRoot, Clear;
    if t.Node? && l < r {
      var (c, mid, b, _) := Isolate(t, l, r, next, eff);
      IsolateIsExact(t, l, r, next, eff);
      var changed := ShiftRoot(mid, g, eff);
      ClearOfNothing(Cells(mid));
      SoundShiftRoot(mid, g, {}, eff);
      SoundMerge(c, changed, {}, eff);
      SoundMerge(Merge(c, changed, eff), b, {}, eff);
    }
  }

  lemma ClearOfNothing(cs: seq<Cell>)
    ensures Clear(cs, {})
  {
  }
}
