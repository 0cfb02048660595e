/** What the capacity index answers about: the level of a resource at an instant, changes to
    a range of levels, and the four aggregates kept over a run of levels. */
module Levels {
  import Int64

  /** Committed-hard, committed-soft, held and available capacity at one instant. */
  datatype Level = Level(hard: int, soft: int, held: int, cap: int)

  /** Three additive parts and an optional new capacity, as one lazy tag carries them. */
  datatype Change = Change(hard: int, soft: int, held: int, hasSet: bool, setCap: int)

  datatype Agg = Agg(minHard: int, minSoft: int, maxHard: int, maxSoft: int)

  const NO_CHANGE := Change(0, 0, 0, false, 0)
  const ZERO_AGG := Agg(0, 0, 0, 0)

  predicate IsNull(g: Change) {
    g.hard == 0 && g.soft == 0 && g.held == 0 && !g.hasSet
  }

  function Apply(v: Level, g: Change): Level {
    Level(v.hard + g.hard, v.soft + g.soft, v.held + g.held, if g.hasSet then g.setCap else v.cap)
  }

  function Compose(first: Change, then_: Change): Change {
    Change(first.hard + then_.hard, first.soft + then_.soft, first.held + then_.held,
           first.hasSet || then_.hasSet, if then_.hasSet then then_.setCap else first.setCap)
  }

  function HardSlack(v: Level): int { v.cap - v.hard - v.held }

  function SoftSlack(v: Level, eff: int -> int): int { eff(v.cap) - v.hard - v.soft - v.held }

  /** Effective capacity as a function of capacity alone. */
  function EffOf(ratioBp: int): int -> int {
    (cap: int) => Int64.EffCapacity(cap, ratioBp)
  }

  /** Soft slack as a function of a level alone. */
  function SoftSlackBy(eff: int -> int): Level -> int {
    (v: Level) => SoftSlack(v, eff)
  }

  function HardLoad(v: Level): int { v.hard + v.held }

  function SoftLoad(v: Level): int { v.hard + v.soft + v.held }

  function Min(a: int, b: int): int { if b < a then b else a }

  function Max(a: int, b: int): int { if a < b then b else a }

  function AggOfLevel(v: Level, eff: int -> int): Agg {
    Agg(HardSlack(v), SoftSlack(v, eff), HardLoad(v), SoftLoad(v))
  }

  function Join(a: Agg, b: Agg): Agg {
    Agg(Min(a.minHard, b.minHard), Min(a.minSoft, b.minSoft), Max(a.maxHard, b.maxHard), Max(a.maxSoft, b.maxSoft))
  }

  /** How a lazy tag moves the aggregates of the subtree it is pending on: a new capacity is
      measured against the loads, then the additive parts shift all four. */
  function ShiftAgg(a: Agg, g: Change, eff: int -> int): Agg {
    var b := if g.hasSet then a.(minHard := g.setCap - a.maxHard, minSoft := eff(g.setCap) - a.maxSoft) else a;
    Agg(b.minHard - g.hard - g.held, b.minSoft - g.hard - g.soft - g.held,
        b.maxHard + g.hard + g.held, b.maxSoft + g.hard + g.soft + g.held)
  }

  /** The represented function: one level for every instant of the span. */
  type Profile = map<int, Level>

  /** The level of a resource nothing has been committed on, the same at every instant. */
  function FreeLevel(cap: int, at: int): Level {
    Level(0, 0, 0, cap)
  }

  function FreeProfile(origin: int, horizon: int, cap: int): Profile {
    map t | origin <= t < origin + horizon :: FreeLevel(cap, t)
  }

  /** Change every instant of the half-open range that lies in the span. */
  function Changed(p: Profile, l: int, r: int, g: Change): Profile {
    map x | x in p :: if l <= x < r then Apply(p[x], g) else p[x]
  }

  // ---- extremes over a range of instants ----

  predicate Meets(p: Profile, l: int, r: int) {
    exists x | l <= x < r :: x in p
  }

  /** The least value of `f` over the instants of the range in the span, `none` if there are
      no such instants. */
  function Least(p: Profile, l: int, r: int, f: Level -> int, none: int): int
    decreases r - l
  {
    if r <= l then none
    else if r - 1 !in p then Least(p, l, r - 1, f, none)
    else if !Meets(p, l, r - 1) then f(p[r - 1])
    else Min(Least(p, l, r - 1, f, none), f(p[r - 1]))
  }

  function Greatest(p: Profile, l: int, r: int, f: Level -> int, none: int): int
    decreases r - l
  {
    if r <= l then none
    else if r - 1 !in p then Greatest(p, l, r - 1, f, none)
    else if !Meets(p, l, r - 1) then f(p[r - 1])
    else Max(Greatest(p, l, r - 1, f, none), f(p[r - 1]))
  }

  /** `m` is attained at an instant of the range in the span and nothing there is less. */
  ghost predicate IsLeast(m: int, p: Profile, l: int, r: int, f: Level -> int) {
    && (exists x :: l <= x < r && x in p && f(p[x]) == m)
    && (forall x :: l <= x < r && x in p ==> m <= f(p[x]))
  }

  ghost predicate IsGreatest(m: int, p: Profile, l: int, r: int, f: Level -> int) {
    && (exists x :: l <= x < r && x in p && f(p[x]) == m)
    && (forall x :: l <= x < r && x in p ==> f(p[x]) <= m)
  }

  /** The computed extreme is the unique one with the defining property. */
  lemma {:induction false} LeastIsLeast(p: Profile, l: int, r: int, f: Level -> int, none: int, m: int)
    ensures Meets(p, l, r) ==> (IsLeast(m, p, l, r, f) <==> m == Least(p, l, r, f, none))
    ensures !Meets(p, l, r) ==> Least(p, l, r, f, none) == none
    decreases r - l
  {
    if l < r {
      var n := Least(p, l, r - 1, f, none);
      LeastIsLeast(p, l, r - 1, f, none, n);
      if Meets(p, l, r) {
        assert IsLeast(Least(p, l, r, f, none), p, l, r, f) by {
          if Meets(p, l, r - 1) {
            assert IsLeast(n, p, l, r - 1, f);
          } else {
            assert r - 1 in p && f(p[r - 1]) == Least(p, l, r, f, none);
          }
        }
      }
    }
  }

  lemma {:induction false} GreatestIsGreatest(p: Profile, l: int, r: int, f: Level -> int, none: int, m: int)
    ensures Meets(p, l, r) ==> (IsGreatest(m, p, l, r, f) <==> m == Greatest(p, l, r, f, none))
    ensures !Meets(p, l, r) ==> Greatest(p, l, r, f, none) == none
    decreases r - l
  {
    if l < r {
      var n := Greatest(p, l, r - 1, f, none);
      GreatestIsGreatest(p, l, r - 1, f, none, n);
      if Meets(p, l, r) {
        assert IsGreatest(Greatest(p, l, r, f, none), p, l, r, f) by {
          if Meets(p, l, r - 1) {
            assert IsGreatest(n, p, l, r - 1, f);
          } else {
            assert r - 1 in p && f(p[r - 1]) == Greatest(p, l, r, f, none);
          }
        }
      }
    }
  }
}
