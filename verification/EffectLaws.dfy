/** The vocabulary in which the laws of the operations are stated: how much room a resource has,
    read off its levels, and what an operation may do to the levels. No law names a function that
    specifies an operation. */
module EffectLaws {
  import opened Types
  import opened Levels
  import opened Envelopes
  import opened Registry
  import Int64

  // ---- codes ----

  /** The wire codes of the lifecycles that hold capacity: holding to releasing, recovering, and
      waiting for revalidation. */
  predicate Occupies(lifecycle: Byte) {
    3 <= lifecycle <= 14 || lifecycle == 20 || lifecycle == 21
  }

  /** The numbers behind the names. */
  lemma Codes()
    ensures forall c: Byte :: HoldsCapacity(c) <==> Occupies(c)
    ensures forall c: Byte :: IsLive(c) <==> 9 <= c <= 11
    ensures forall c: Byte :: IsEnded(c) <==> 15 <= c <= 17
    ensures COMMITTED == 6 && PENDING_ACTIVATION == 7 && ACTIVATING == 8 && ACTIVE == 9 && PARTIALLY_CONSUMED == 10 && CONSUMED == 11
    ensures RELEASED == 15 && EXPIRED == 16 && CANCELLED == 17 && REVALIDATION_REQUIRED == 21
    ensures STRENGTH_HARD == 1 && TRANSFER_ALLOWED == 2 && TX_COMMITTED == 5
    ensures HOLD_ACQUIRED == 1 && HOLD_RELEASED == 3 && HOLD_EXPIRED == 4 && HOLD_COMMITTED == 5
    ensures CONDITION_UNAVAILABLE == 2 && CONDITION_INVALIDATED == 3
    ensures UNIT_NONE == 0 && UNIT_COUNT == 1 && UNIT_BYTES == 2 && UNIT_BYTES_PER_SECOND == 3 && UNIT_PERCENT == 6
  {
  }

  /** Memory, residency and capacity classes are counted in bytes, bandwidths in bytes per second,
      everything else in whole numbers. */
  lemma Units(cls: Byte)
    ensures UnitFor(cls) == 2 <==> 2 <= cls <= 8 || cls == 14 || cls == 18 || cls == 19
    ensures UnitFor(cls) == 3 <==> 9 <= cls <= 13
    ensures UnitFor(cls) == 1 || UnitFor(cls) == 2 || UnitFor(cls) == 3
  {
  }

  // ---- room ----

  /** What is left at one level, for a quantity that is hard or not. */
  function Left(e: Envelope, v: Level, hard: bool): int {
    if hard then v.cap - v.hard - v.held else Int64.EffCapacity(v.cap, e.ratio) - v.hard - v.soft - v.held
  }

  /** The quantity fits the resource over the window: it is left at every instant of the window in
      the resource's span. Over no instant at all every 64-bit quantity fits; a resource without an
      envelope has no room. */
  ghost predicate Takes(s: State, id: nat, hard: bool, w: Interval, q: int) {
    if id !in s.envelopes then q <= 0
    else
      var e := s.envelopes[id];
      && (forall x :: x in e.levels && w.start <= x < w.end ==> q <= Left(e, e.levels[x], hard))
      && (q > Int64.MAX ==> exists x :: x in e.levels && w.start <= x < w.end)
  }

  /** The quantity fits the reservation's resource over the window if what the reservation itself
      contributes is not counted. */
  ghost predicate TakesBesides(s: State, r: Reservation, w: Interval, q: int) {
    if r.resource !in s.envelopes then q <= 0
    else
      var e := s.envelopes[r.resource];
      && (forall x :: x in e.levels && w.start <= x < w.end ==>
                        q <= Left(e, e.levels[x], r.strength == STRENGTH_HARD)
                             + if r.contributes && r.window.start <= x < r.window.end then r.quantity.value else 0)
      && (q > Int64.MAX ==> exists x :: x in e.levels && w.start <= x < w.end)
  }

  /** The computed headroom is the largest quantity that fits. */
  lemma TakesIff(s: State, id: nat, hard: bool, w: Interval, q: int)
    ensures Takes(s, id, hard, w, q) <==> q <= Headroom(s, hard, w, id)
  {
    hide Int64.EffCapacity;
    if id in s.envelopes {
      var e, h := s.envelopes[id], Headroom(s, hard, w, id);
      if hard { LeastIsLeast(e.levels, w.start, w.end, HardSlack, Int64.MAX, h); }
      else { LeastIsLeast(e.levels, w.start, w.end, SoftSlackBy(EffOf(e.ratio)), Int64.MAX, h); }
      if Meets(e.levels, w.start, w.end) {
        var x :| w.start <= x < w.end && x in e.levels && Left(e, e.levels[x], hard) == h;
      }
    }
  }

  /** A peak is at most a quantity exactly when every load in the window is; over no instant it is
      zero. */
  lemma PeakIff(p: Profile, w: Interval, q: int)
    ensures Greatest(p, w.start, w.end, HardLoad, 0) <= q <==>
            if exists x :: x in p && w.start <= x < w.end then forall x :: x in p && w.start <= x < w.end ==> p[x].hard + p[x].held <= q else 0 <= q
    ensures Greatest(p, w.start, w.end, SoftLoad, 0) <= q <==>
            if exists x :: x in p && w.start <= x < w.end then forall x :: x in p && w.start <= x < w.end ==> p[x].hard + p[x].soft + p[x].held <= q else 0 <= q
  {
    GreatestIsGreatest(p, w.start, w.end, HardLoad, 0, Greatest(p, w.start, w.end, HardLoad, 0));
    GreatestIsGreatest(p, w.start, w.end, SoftLoad, 0, Greatest(p, w.start, w.end, SoftLoad, 0));
    if Meets(p, w.start, w.end) {
      var x :| w.start <= x < w.end && x in p && HardLoad(p[x]) == Greatest(p, w.start, w.end, HardLoad, 0);
      var y :| w.start <= y < w.end && y in p && SoftLoad(p[y]) == Greatest(p, w.start, w.end, SoftLoad, 0);
    }
  }

  // ---- what happens to the levels ----

  /** Over the window the levels of one resource move by the three amounts; no other level and
      nothing else about any envelope changes. */
  ghost predicate Shifts(before: map<nat, Envelope>, after: map<nat, Envelope>, resource: nat, w: Interval, hard: int, soft: int, held: int) {
    && after.Keys == before.Keys
    && forall k :: k in before ==>
                     && after[k] == before[k].(levels := after[k].levels)
                     && after[k].levels.Keys == before[k].levels.Keys
                     && forall x :: x in before[k].levels ==>
                                      var v := before[k].levels[x];
                                      after[k].levels[x] ==
                                      if k == resource && w.start <= x < w.end then Level(v.hard + hard, v.soft + soft, v.held + held, v.cap) else v
  }

  /** The quantity comes onto the levels of the reservation's own strength. */
  ghost predicate Raises(before: map<nat, Envelope>, after: map<nat, Envelope>, r: Reservation, q: int) {
    if r.strength == STRENGTH_HARD then Shifts(before, after, r.resource, r.window, q, 0, 0)
    else Shifts(before, after, r.resource, r.window, 0, q, 0)
  }

  lemma NoShift(es: map<nat, Envelope>, resource: nat, w: Interval)
    ensures Shifts(es, es, resource, w, 0, 0, 0)
  {
  }

  lemma UnknownShift(es: map<nat, Envelope>, resource: nat, w: Interval, hard: int, soft: int, held: int)
    requires resource !in es
    ensures Shifts(es, es, resource, w, hard, soft, held)
  {
  }

  lemma SameProfile(p: Profile, q: Profile)
    requires q.Keys == p.Keys && forall x :: x in p ==> q[x] == p[x]
    ensures q == p
  {
    assert forall x :: x in p ==> p[x] == q[x];
    assert forall x :: x in q ==> p[x] == q[x];
  }

  lemma SameLevels(a: Envelope, b: Envelope)
    requires b == a.(levels := b.levels) && b.levels.Keys == a.levels.Keys && forall x :: x in a.levels ==> b.levels[x] == a.levels[x]
    ensures b == a
  {
    SameProfile(a.levels, b.levels);
  }

  lemma ShiftsBack(a: map<nat, Envelope>, b: map<nat, Envelope>, c: map<nat, Envelope>, resource: nat, w: Interval, hard: int, soft: int, held: int)
    requires Shifts(a, b, resource, w, hard, soft, held) && Shifts(b, c, resource, w, -hard, -soft, -held)
    ensures c == a
  {
    forall k | k in a ensures c[k] == a[k] {
      SameLevels(a[k], c[k]);
    }
  }

  lemma AddedShifts(e: Envelope, strength: Byte, w: Interval, q: int)
    ensures var d := AddCommitted(e, strength, w, q);
            && d == e.(levels := d.levels) && d.levels.Keys == e.levels.Keys
            && forall x :: x in e.levels ==>
                             var v := e.levels[x];
                             d.levels[x] == if !(w.start <= x < w.end) then v
                                            else if strength == STRENGTH_HARD then Level(v.hard + q, v.soft, v.held, v.cap)
                                            else Level(v.hard, v.soft + q, v.held, v.cap)
  {
  }

  lemma RaisedBy(es: map<nat, Envelope>, r: Reservation, q: int)
    requires r.resource in es
    ensures Raises(es, es[r.resource := AddCommitted(es[r.resource], r.strength, r.window, q)], r, q)
  {
    hide AddCommitted;
    AddedShifts(es[r.resource], r.strength, r.window, q);
  }

  lemma RaisedNot(es: map<nat, Envelope>, r: Reservation, q: int)
    requires q == 0 || r.resource !in es
    ensures Raises(es, es, r, q)
  {
  }

  lemma ContributeLaw(s: State, r: Reservation)
    ensures var (t, r1) := Contribute(s, r);
            && t == s.(envelopes := t.envelopes)
            && r1 == r.(contributes := r.contributes || r.resource in s.envelopes)
            && Raises(s.envelopes, t.envelopes, r, if r.contributes then 0 else r.quantity.value)
  {
    hide AddCommitted, Raises;
    if CanContribute(s, r) { RaisedBy(s.envelopes, r, r.quantity.value); } else { RaisedNot(s.envelopes, r, if r.contributes then 0 else r.quantity.value); }
  }

  lemma WithdrawLaw(s: State, r: Reservation)
    ensures var (t, r1) := Withdraw(s, r);
            && t == s.(envelopes := t.envelopes)
            && r1 == r.(contributes := r.contributes && r.resource !in s.envelopes)
            && Raises(s.envelopes, t.envelopes, r, if r.contributes then -r.quantity.value else 0)
  {
    hide AddCommitted, Raises;
    if CanWithdraw(s, r) { RaisedBy(s.envelopes, r, -r.quantity.value); } else { RaisedNot(s.envelopes, r, if r.contributes then -r.quantity.value else 0); }
  }

  lemma HeldShifts(e: Envelope, w: Interval, q: int)
    ensures var d := AddHeld(e, w, q);
            && d == e.(levels := d.levels) && d.levels.Keys == e.levels.Keys
            && forall x :: x in e.levels ==>
                             var v := e.levels[x];
                             d.levels[x] == if w.start <= x < w.end then Level(v.hard, v.soft, v.held + q, v.cap) else v
  {
  }

  lemma HeldLaw(s: State, resource: nat, w: Interval, q: int)
    ensures var t := Held(s, resource, w, q);
            t == s.(envelopes := t.envelopes) && Shifts(s.envelopes, t.envelopes, resource, w, 0, 0, q)
  {
    hide AddHeld;
    if resource in s.envelopes { HeldShifts(s.envelopes[resource], w, q); }
  }

  /** Taking a contribution off and putting it back restores it; what was off before comes on. */
  lemma RestoreLaw(s: State, id: nat, r: Reservation)
    ensures var (s1, r1) := Withdraw(s, r);
            var t := Restore(s1, id, r1);
            && t == s.(envelopes := t.envelopes, reservations := s.reservations[id := r.(contributes := r.contributes || r.resource in s.envelopes)])
            && Raises(s.envelopes, t.envelopes, r, if r.contributes then 0 else r.quantity.value)
  {
    hide Withdraw, Contribute, Shifts;
    var (s1, r1) := Withdraw(s, r);
    WithdrawLaw(s, r);
    ContributeLaw(s1, r1);
    ShiftKeys(s, s1, r);
    var t := Restore(s1, id, r1);
    if r.contributes {
      if r.resource in s.envelopes {
        RaisesBack(s.envelopes, s1.envelopes, t.envelopes, r, -r.quantity.value);
      } else {
        RaisesNothing(s.envelopes, s1.envelopes, r, -r.quantity.value);
        RaisesNothing(s1.envelopes, t.envelopes, r, 0);
      }
      NoShift(s.envelopes, r.resource, r.window);
    } else {
      RaisesZero(s.envelopes, s1.envelopes, r);
    }
  }

  lemma ShiftKeys(s: State, t: State, r: Reservation)
    requires Raises(s.envelopes, t.envelopes, r, if r.contributes then -r.quantity.value else 0)
    ensures t.envelopes.Keys == s.envelopes.Keys
  {
  }

  lemma RaisesBack(a: map<nat, Envelope>, b: map<nat, Envelope>, c: map<nat, Envelope>, r: Reservation, q: int)
    requires Raises(a, b, r, q) && Raises(b, c, r, -q)
    ensures c == a
  {
    hide Shifts;
    if r.strength == STRENGTH_HARD { ShiftsBack(a, b, c, r.resource, r.window, q, 0, 0); } else { ShiftsBack(a, b, c, r.resource, r.window, 0, q, 0); }
  }

  lemma RaisesZero(a: map<nat, Envelope>, b: map<nat, Envelope>, r: Reservation)
    requires Raises(a, b, r, 0)
    ensures b == a
  {
    forall k | k in a ensures b[k] == a[k] {
      SameLevels(a[k], b[k]);
    }
  }

  lemma RaisesNothing(a: map<nat, Envelope>, b: map<nat, Envelope>, r: Reservation, q: int)
    requires Raises(a, b, r, q) && r.resource !in a
    ensures b == a
  {
    forall k | k in a ensures b[k] == a[k] {
      SameLevels(a[k], b[k]);
    }
  }

  /** Room besides the reservation is room once its contribution is off. */
  lemma TakesBesidesIff(s: State, r: Reservation, w: Interval, q: int)
    ensures TakesBesides(s, r, w, q) <==> q <= Headroom(Withdraw(s, r).0, r.strength == STRENGTH_HARD, w, r.resource)
  {
    hide Withdraw, Headroom, Int64.EffCapacity;
    var t := Withdraw(s, r).0;
    WithdrawLaw(s, r);
    TakesIff(t, r.resource, r.strength == STRENGTH_HARD, w, q);
    if r.resource in s.envelopes {
      assert forall x :: x in s.envelopes[r.resource].levels <==> x in t.envelopes[r.resource].levels;
    }
  }
}
