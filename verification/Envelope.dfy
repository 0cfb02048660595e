/** The capacity envelope of one resource: the contract between the index and the runtime. */
module Envelopes {
  import opened Types
  import opened Levels
  import opened IntervalAggregators
  import Int64

  /** An initialized envelope as the runtime sees it: what it was initialized with and the level
      at every instant of its span. */
  datatype Envelope = Envelope(unit: Byte, capacity: Quantity, ratio: int, origin: int, horizon: int, levels: Profile)

  function FreshEnvelope(unit: Byte, capacity: Quantity, ratio: int, origin: int, horizon: int): Envelope {
    Envelope(unit, capacity, ratio, origin, horizon, FreeProfile(origin, horizon, capacity.value))
  }

  function AddHard(e: Envelope, w: Interval, q: int): Envelope {
    e.(levels := Changed(e.levels, w.start, w.end, Change(q, 0, 0, false, 0)))
  }

  function AddSoft(e: Envelope, w: Interval, q: int): Envelope {
    e.(levels := Changed(e.levels, w.start, w.end, Change(0, q, 0, false, 0)))
  }

  function AddHeld(e: Envelope, w: Interval, q: int): Envelope {
    e.(levels := Changed(e.levels, w.start, w.end, Change(0, 0, q, false, 0)))
  }

  function SetUnavailable(e: Envelope, w: Interval, capacityDuring: int): Envelope {
    e.(levels := Changed(e.levels, w.start, w.end, Change(0, 0, 0, true, capacityDuring)))
  }

  function MinHardHeadroom(e: Envelope, w: Interval): int {
    Least(e.levels, w.start, w.end, HardSlack, Int64.MAX)
  }

  function MinSoftHeadroom(e: Envelope, w: Interval): int {
    Least(e.levels, w.start, w.end, SoftSlackBy(EffOf(e.ratio)), Int64.MAX)
  }

  /** The envelope object: an index behind a validity flag. Until it is initialized, changes are
      ignored and headroom is unlimited. */
  class CapacityEnvelope {
    var unit: Byte
    var capacity: Quantity
    var ratio: int
    var origin: int
    var horizon: int
    var agg: IntervalAggregator
    var valid: bool

    ghost predicate Valid()
      reads this, agg
    {
      agg.Valid() && (valid ==> agg.ratioBp == ratio)
    }

    ghost function State(): Envelope
      reads this, agg
    {
      Envelope(unit, capacity, ratio, origin, horizon, agg.View())
    }

    constructor (unit: Byte, capacity: Quantity, ratio: int)
      ensures Valid() && !valid && this.unit == unit && fresh(agg)
    {
      this.unit, this.capacity, this.ratio := unit, capacity, ratio;
      origin, horizon, valid := 0, 0, false;
      agg := new IntervalAggregator(10000);
    }

    method Init(origin: int, horizon: int, capacity: Quantity, ratio: int) returns (ok: bool)
      requires Valid()
      modifies this
      ensures agg == old(agg) || fresh(agg)
      ensures horizon >= 0 ==> Valid()
      ensures ok <==> (capacity.unit == old(unit) || old(unit) == UNIT_NONE) && horizon != 0
      ensures ok ==> valid
      ensures ok && horizon > 0 ==> State() == FreshEnvelope(capacity.unit, capacity, ratio, origin, horizon)
      ensures !ok && !old(valid) ==> !valid
    {
      hide IntervalAggregator.Valid, FreeProfile;
      if capacity.unit != unit && unit != UNIT_NONE { return false; }
      unit, this.capacity, this.ratio := capacity.unit, capacity, ratio;
      this.origin, this.horizon := origin, horizon;
      agg := new IntervalAggregator(ratio);
      ok := agg.Initialize(origin, horizon, capacity.value);
      if !ok { return; }
      valid := true;
    }

    method AddCommittedHard(w: Interval, q: int)
      requires Valid()
      modifies agg
      ensures Valid() && State() == if valid then AddHard(old(State()), w, q) else old(State())
    {
      if !valid { return; }
      agg.AddCommittedHard(w.start, w.end, q);
    }

    method AddCommittedSoft(w: Interval, q: int)
      requires Valid()
      modifies agg
      ensures Valid() && State() == if valid then AddSoft(old(State()), w, q) else old(State())
    {
      if !valid { return; }
      agg.AddCommittedSoft(w.start, w.end, q);
    }

    method AddHeldQuantity(w: Interval, q: int)
      requires Valid()
      modifies agg
      ensures Valid() && State() == if valid then AddHeld(old(State()), w, q) else old(State())
    {
      if !valid { return; }
      agg.AddHeld(w.start, w.end, q);
    }

    method SetUnavailableDuring(w: Interval, capacityDuring: int)
      requires Valid()
      modifies agg
      ensures Valid() && State() == if valid then SetUnavailable(old(State()), w, capacityDuring) else old(State())
    {
      if !valid { return; }
      agg.SetCapacity(w.start, w.end, capacityDuring);
    }

    /** Queries restructure the index but leave the envelope's state alone. */
    method MinHard(w: Interval) returns (h: int)
      requires Valid()
      modifies agg
      ensures Valid() && State() == old(State())
      ensures h == if valid then MinHardHeadroom(State(), w) else Int64.MAX
    {
      if !valid { return Int64.MAX; }
      h := agg.MinHard(w.start, w.end);
    }

    method MinSoft(w: Interval) returns (h: int)
      requires Valid()
      modifies agg
      ensures Valid() && State() == old(State())
      ensures h == if valid then MinSoftHeadroom(State(), w) else Int64.MAX
    {
      if !valid { return Int64.MAX; }
      h := agg.MinSoft(w.start, w.end);
    }

    method PeakCombinedHard(w: Interval) returns (peak: int)
      requires Valid()
      modifies agg
      ensures Valid() && State() == old(State())
      ensures peak == if valid then Greatest(State().levels, w.start, w.end, HardLoad, 0) else 0
    {
      if !valid { return 0; }
      peak := agg.MaxCombinedHard(w.start, w.end);
    }

    method PeakCombinedSoft(w: Interval) returns (peak: int)
      requires Valid()
      modifies agg
      ensures Valid() && State() == old(State())
      ensures peak == if valid then Greatest(State().levels, w.start, w.end, SoftLoad, 0) else 0
    {
      if !valid { return 0; }
      peak := agg.MaxCombinedSoft(w.start, w.end);
    }
  }
}
