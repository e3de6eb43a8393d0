// The timing of one measurement cycle: the lag-adjusted close and open
// times and, per gas, the calculation window kept inside them
// (crates/fluxrs-core/src/cycle/cycletiming.rs).
module CycleTimings {
  import opened Wrappers
  import opened Floats
  import opened GasTypes

  /** `GasKey`: a gas measured by one instrument. */
  datatype GasKey = GasKey(gasType: GasType, id: int)

  /** An interval `(start, end)` as the source's `(f64, f64)` pairs. */
  datatype Span = Span(start: real, end: real)

  function Len(s: Span): real
  {
    s.end - s.start
  }

  /** The interval with its ends swapped when they come reversed. */
  function Ordered(start: real, end: real): (r: Span)
    ensures r.start <= r.end && Len(r) == AbsR(end - start)
    ensures r == Span(start, end) || r == Span(end, start)
  {
    if end < start then Span(end, start) else Span(start, end)
  }

  /** `HashMap::get(..).unwrap_or(default)`. */
  function Lookup<K, V>(m: map<K, V>, k: K, default: V): V
  {
    if k in m then m[k] else default
  }

  // ------------------------------------------------------------ clamp_range

  /** `clamp_range` as written: a short interval is lengthened to `min_len`
      but its start is then raised to `min_b` without moving the end, so an
      interval starting below `min_b` comes back shorter than `min_len`. */
  function ClampRangeAsWritten(minB: real, maxB: real, start: real, end: real, minLen: real): Span
  {
    var n := Ordered(start, end);
    var grown := if Len(n) < minLen then
        var e := MinR(n.start + minLen, maxB); Span(MaxR(e - minLen, minB), e)
      else n;
    var right := if grown.start < minB then Span(minB, grown.end + (minB - grown.start)) else grown;
    if right.end > maxB then Span(right.start - (right.end - maxB), maxB) else right
  }

  /** The defect on bounds [0, 100] with a minimum length of 10: the
      interval (-3, 5) comes back as (0, 7). */
  lemma ShortRangeAtLowerBoundStaysShort()
    ensures ClampRangeAsWritten(0.0, 100.0, -3.0, 5.0, 10.0) == Span(0.0, 7.0)
    ensures Len(ClampRange(0.0, 100.0, -3.0, 5.0, 10.0)) == 10.0
  {
  }

  /** An interval that ends more than `min_len` below `min_b` comes back
      reversed: on bounds [0, 100] with a minimum length of 10, (-30, -25)
      becomes (0, -20), whose end lies before its start. */
  lemma ShortRangeFarBelowLowerBoundReverses()
    ensures var r := ClampRangeAsWritten(0.0, 100.0, -30.0, -25.0, 10.0);
      r == Span(0.0, -20.0) && r.end < r.start
    ensures ClampRange(0.0, 100.0, -30.0, -25.0, 10.0) == Span(0.0, 10.0)
  {
  }

  /** `clamp_range` with the lengthened interval's start left for the shift
      into bounds that follows: the interval is ordered, lengthened to
      `min_len`, then moved right above `min_b` and left below `max_b`. */
  function ClampRange(minB: real, maxB: real, start: real, end: real, minLen: real): Span
  {
    var n := Ordered(start, end);
    var grown := if Len(n) < minLen then
        var e := MinR(n.start + minLen, maxB); Span(e - minLen, e)
      else n;
    var right := if grown.start < minB then Span(minB, grown.end + (minB - grown.start)) else grown;
    if right.end > maxB then Span(right.start - (right.end - maxB), maxB) else right
  }

  /** The two agree whenever the interval does not start below `min_b`. */
  lemma {:induction false} ClampRangeAgreesAboveLowerBound(minB: real, maxB: real, start: real, end: real, minLen: real)
    requires Ordered(start, end).start >= minB && minLen <= maxB - minB
    ensures ClampRangeAsWritten(minB, maxB, start, end, minLen) == ClampRange(minB, maxB, start, end, minLen)
  {
  }

  /** The two agree on every interval of at least `min_len`, which neither
      lengthens. */
  lemma {:induction false} ClampRangesAgreeWhenLongEnough(minB: real, maxB: real, start: real, end: real, minLen: real)
    requires minLen <= AbsR(end - start)
    ensures ClampRangeAsWritten(minB, maxB, start, end, minLen) == ClampRange(minB, maxB, start, end, minLen)
  {
  }

  /** An interval of at least `min_len` is only moved: its length is kept,
      and when it fits between the bounds it ends up inside them. */
  lemma {:induction false} ClampRangeKeepsLength(minB: real, maxB: real, start: real, end: real, minLen: real)
    requires minLen <= AbsR(end - start)
    ensures var r := ClampRangeAsWritten(minB, maxB, start, end, minLen);
      Len(r) == AbsR(end - start) &&
      (AbsR(end - start) <= maxB - minB ==> minB <= r.start && r.end <= maxB)
  {
    ClampRangesAgreeWhenLongEnough(minB, maxB, start, end, minLen);
  }

  /** Whenever `min_len` fits between the bounds, the result lies inside
      them and is at least `min_len` long: exactly `max(len, min_len)` when
      that fits too. */
  lemma {:induction false} ClampRangeFits(minB: real, maxB: real, start: real, end: real, minLen: real)
    requires minLen <= maxB - minB && AbsR(end - start) <= maxB - minB
    ensures var r := ClampRange(minB, maxB, start, end, minLen);
      minB <= r.start && r.end <= maxB && Len(r) == MaxR(AbsR(end - start), minLen)
  {
    var n := Ordered(start, end);
    if Len(n) < minLen {
      var e := MinR(n.start + minLen, maxB);
      assert Len(Span(e - minLen, e)) == minLen;
    }
  }

  /** A window of at least `min_len` moved by `dx` keeps its length, and
      lands inside the bounds when it fits between them. */
  lemma {:induction false} DragKeepsLength(minB: real, maxB: real, s0: real, e0: real, dx: real, minLen: real)
    requires minLen <= AbsR(e0 - s0)
    ensures var r := ClampRangeAsWritten(minB, maxB, s0 + dx, e0 + dx, minLen);
      Len(r) == AbsR(e0 - s0) && (AbsR(e0 - s0) <= maxB - minB ==> minB <= r.start && r.end <= maxB)
  {
    assert (e0 + dx) - (s0 + dx) == e0 - s0;
    ClampRangeKeepsLength(minB, maxB, s0 + dx, e0 + dx, minLen);
  }

  /** An ordered interval already inside the bounds and long enough is
      returned as it is. */
  lemma {:induction false} ClampRangeLeavesInside(minB: real, maxB: real, start: real, end: real, minLen: real)
    requires minB <= start <= end <= maxB && end - start >= minLen
    ensures ClampRangeAsWritten(minB, maxB, start, end, minLen) == Span(start, end)
  {
    ClampRangesAgreeWhenLongEnough(minB, maxB, start, end, minLen);
  }

  /** An interval that does not start below `min_b` comes out inside the
      bounds and `max(len, min_len)` long whenever that fits, as the
      corrected clamp does for every interval. */
  lemma {:induction false} ClampRangeAsWrittenFitsAboveLowerBound(minB: real, maxB: real, start: real, end: real, minLen: real)
    requires Ordered(start, end).start >= minB
    requires minLen <= maxB - minB && AbsR(end - start) <= maxB - minB
    ensures var r := ClampRangeAsWritten(minB, maxB, start, end, minLen);
      minB <= r.start && r.end <= maxB && Len(r) == MaxR(AbsR(end - start), minLen)
  {
    ClampRangeAgreesAboveLowerBound(minB, maxB, start, end, minLen);
    ClampRangeFits(minB, maxB, start, end, minLen);
  }

  // --------------------------------------------- adjust_interval_to_bounds

  /** The length `adjust_interval_to_bounds` aims for: the interval's own
      length raised to `min_range`, but no more than the room available. */
  function TargetLength(start: real, end: real, rangeMin: real, rangeMax: real, minRange: real): real
  {
    MinR(MaxR(AbsR(end - start), minRange), MaxR(rangeMax - rangeMin, 0.0))
  }

  /** The shrink step of `adjust_interval_to_bounds`: anchor the interval of
      the available length to the bound it touches, or re-centre it. */
  function Shrunk(b: Span, rangeMin: real, rangeMax: real, available: real): Span
  {
    if b.start <= rangeMin + Epsilon then Span(rangeMin, rangeMin + available)
    else if b.end >= rangeMax - Epsilon then Span(rangeMax - available, rangeMax)
    else
      var half := 0.5 * available;
      var center := ClampR(0.5 * (b.start + b.end), rangeMin + half, rangeMax - half);
      Span(center - half, center + half)
  }

  /** `adjust_interval_to_bounds`. A short interval is widened around its
      centre (or the range's centre when it is empty) to `min_range`, or to
      the available room if that is less; a long one keeps its length,
      clamped to the room, and is shifted inside. The result lies inside
      `[range_min, range_max]` and is exactly `TargetLength` long, unless
      that length is at most `f64::EPSILON`, when it is the empty interval
      at `range_min`. */
  function AdjustIntervalToBounds(start: real, end: real, rangeMin: real, rangeMax: real, minRange: real): (r: Span)
    ensures var t := TargetLength(start, end, rangeMin, rangeMax, minRange);
      (t <= Epsilon ==> r == Span(rangeMin, rangeMin)) &&
      (t > Epsilon ==> rangeMin <= r.start && r.end <= rangeMax && Len(r) == t)
  {
    var n := Ordered(start, end);
    var l := MaxR(Len(n), 0.0);
    var available := MaxR(rangeMax - rangeMin, 0.0);
    if l < minRange then Widened(n, l, rangeMin, rangeMax, MinR(minRange, available))
    else Kept(n, rangeMin, rangeMax, available, MinR(l, available))
  }

  /** Case A of `adjust_interval_to_bounds`: a window shorter than the
      minimum, widened to `target` about its centre. */
  function Widened(n: Span, l: real, rangeMin: real, rangeMax: real, target: real): (r: Span)
    ensures target <= Epsilon ==> r == Span(rangeMin, rangeMin)
    ensures Epsilon < target <= rangeMax - rangeMin ==> rangeMin <= r.start && r.end <= rangeMax && Len(r) == target
  {
    if target <= Epsilon then Span(rangeMin, rangeMin)
    else
      var center0 := if l > Epsilon then 0.5 * (n.start + n.end) else 0.5 * (rangeMin + rangeMax);
      var half := 0.5 * target;
      var center := ClampR(center0, rangeMin + half, rangeMax - half);
      Span(center - half, center + half)
  }

  /** Case B: a window of at least the minimum length, kept `keep` long and
      shifted inside; the shrink step never fires when `keep` is no more than
      the window's own length. */
  function Kept(n: Span, rangeMin: real, rangeMax: real, available: real, keep: real): (r: Span)
    ensures keep <= Epsilon ==> r == Span(rangeMin, rangeMin)
    ensures Epsilon < keep <= rangeMax - rangeMin && keep <= Len(n) ==>
      rangeMin <= r.start && r.end <= rangeMax && Len(r) == keep
  {
    if keep <= Epsilon then Span(rangeMin, rangeMin)
    else
      var a := if n.start < rangeMin then Span(rangeMin, rangeMin + keep) else n;
      var b := if a.end > rangeMax then Span(rangeMax - keep, rangeMax) else a;
      var shrink := Len(b) < keep - Epsilon;
      var keep2 := if shrink then available else keep;
      var c := if shrink then Shrunk(b, rangeMin, rangeMax, available) else b;
      var s := ClampR(c.start, rangeMin, rangeMax - keep2);
      Span(s, s + keep2)
  }

  /** An interval inside the range and long enough is left alone. */
  lemma {:induction false} AdjustIntervalKeepsFitting(start: real, end: real, rangeMin: real, rangeMax: real, minRange: real)
    requires rangeMin <= start <= end <= rangeMax
    requires end - start >= minRange && end - start > Epsilon
    ensures AdjustIntervalToBounds(start, end, rangeMin, rangeMax, minRange) == Span(start, end)
  {
  }

  /** Adjusting twice is adjusting once. */
  lemma {:induction false} AdjustIntervalIdempotent(start: real, end: real, rangeMin: real, rangeMax: real, minRange: real)
    ensures var r := AdjustIntervalToBounds(start, end, rangeMin, rangeMax, minRange);
      AdjustIntervalToBounds(r.start, r.end, rangeMin, rangeMax, minRange) == r
  {
    var r := AdjustIntervalToBounds(start, end, rangeMin, rangeMax, minRange);
    var t := TargetLength(start, end, rangeMin, rangeMax, minRange);
    if t > Epsilon {
      if Len(r) >= minRange {
        AdjustIntervalKeepsFitting(r.start, r.end, rangeMin, rangeMax, minRange);
      } else {
        assert r == Span(rangeMin, rangeMax);
      }
    }
  }

  // ---------------------------------------------------- calc_area_can_move

  /** `calc_area_can_move` on its inputs: the window is stuck only when it
      reaches both bounds and is no longer than the minimum length. */
  function CanMove(start: real, end: real, lower: real, upper: real, minLen: real): bool
  {
    !(start <= lower && end >= upper && minLen >= end - start)
  }

  /** A window inside its bounds that cannot move spans them exactly, and
      the bounds are then at most the minimum length apart. */
  lemma {:induction false} StuckWindowSpansBounds(start: real, end: real, lower: real, upper: real, minLen: real)
    requires lower <= start && end <= upper
    ensures !CanMove(start, end, lower, upper, minLen) <==>
      start == lower && end == upper && upper - lower <= minLen
  {
  }

  // ------------------------------------------------------- per-gas loops

  /** The three per-gas maps of a `CycleTiming`. */
  datatype GasMaps = GasMaps(deadbands: map<GasKey, real>, starts: map<GasKey, real>, ends: map<GasKey, real>)

  /** One gas's deadband, calculation start and end, each when present;
      as the result of a step, the values to insert (None: leave alone). */
  datatype GasEntry = GasEntry(deadband: Option<real>, start: Option<real>, end: Option<real>)

  function Get(m: map<GasKey, real>, k: GasKey): Option<real>
  {
    if k in m then Some(m[k]) else None
  }

  function View(g: GasMaps, k: GasKey): GasEntry
  {
    GasEntry(Get(g.deadbands, k), Get(g.starts, k), Get(g.ends, k))
  }

  function Put(m: map<GasKey, real>, k: GasKey, v: Option<real>): map<GasKey, real>
  {
    if v.Some? then m[k := v.value] else m
  }

  function Apply(g: GasMaps, k: GasKey, u: GasEntry): GasMaps
  {
    GasMaps(Put(g.deadbands, k, u.deadband), Put(g.starts, k, u.start), Put(g.ends, k, u.end))
  }

  /** What a gas's entry becomes when `u` is written over `v`. */
  function Merge(v: GasEntry, u: GasEntry): GasEntry
  {
    GasEntry(if u.deadband.Some? then u.deadband else v.deadband,
             if u.start.Some? then u.start else v.start,
             if u.end.Some? then u.end else v.end)
  }

  /** The body of a `for key in gases` loop: what it writes for one gas,
      computed from that gas's current entry. */
  type Step = GasEntry -> GasEntry

  /** One pass of the loop body: the step's writes for gas `k`. */
  function Visit(g: GasMaps, k: GasKey, step: Step): GasMaps
  {
    Apply(g, k, step(View(g, k)))
  }

  /** The maps after running a step over the gases in order. */
  function Refit(g: GasMaps, keys: seq<GasKey>, step: Step): GasMaps
    decreases |keys|
  {
    if keys == [] then g else Refit(Visit(g, keys[0], step), keys[1..], step)
  }

  /** Running the loop from position `i` is one visit, then the rest. */
  lemma {:induction false} RefitUnroll(g: GasMaps, keys: seq<GasKey>, i: nat, step: Step)
    requires i < |keys|
    ensures Refit(g, keys[i..], step) == Refit(Visit(g, keys[i], step), keys[i + 1..], step)
  {
    assert keys[i..][0] == keys[i] && keys[i..][1..] == keys[i + 1..];
  }

  predicate Distinct(keys: seq<GasKey>)
  {
    forall i, j :: 0 <= i < j < |keys| ==> keys[i] != keys[j]
  }

  lemma {:induction false} ApplyAt(g: GasMaps, k: GasKey, u: GasEntry, j: GasKey)
    ensures View(Apply(g, k, u), j) == if j == k then Merge(View(g, k), u) else View(g, j)
  {
  }

  /** Over distinct gases, each listed gas gets the step applied to its
      entry as it was before the loop, and every other gas is untouched. */
  lemma {:induction false} RefitAt(g: GasMaps, keys: seq<GasKey>, step: Step, k: GasKey)
    requires Distinct(keys)
    ensures View(Refit(g, keys, step), k) ==
      if k in keys then Merge(View(g, k), step(View(g, k))) else View(g, k)
    decreases |keys|
  {
    if keys != [] {
      var g1 := Visit(g, keys[0], step);
      ApplyAt(g, keys[0], step(View(g, keys[0])), k);
      assert Distinct(keys[1..]) by {
        forall i, j | 0 <= i < j < |keys[1..]| ensures keys[1..][i] != keys[1..][j] {
          assert keys[1..][i] == keys[i + 1] && keys[1..][j] == keys[j + 1];
        }
      }
      RefitAt(g1, keys[1..], step, k);
      if k == keys[0] {
        assert k !in keys[1..] by {
          forall i | 0 <= i < |keys[1..]| ensures keys[1..][i] != k {
            assert keys[1..][i] == keys[i + 1];
          }
        }
      } else {
        assert k in keys <==> k in keys[1..] by {
          assert keys == [keys[0]] + keys[1..];
        }
      }
    }
  }

  /** The writes of a step that stores a whole window. */
  function WindowEntry(sp: Span): GasEntry
  {
    GasEntry(None, Some(sp.start), Some(sp.end))
  }

  /** A visit whose step writes a whole window. */
  lemma {:induction false} VisitStoresWindow(g: GasMaps, k: GasKey, step: Step, sp: Span)
    requires step(View(g, k)) == WindowEntry(sp)
    ensures Visit(g, k, step) == g.(starts := g.starts[k := sp.start], ends := g.ends[k := sp.end])
  {
  }

  /** A visit whose step writes all three values. */
  lemma {:induction false} VisitStoresAll(g: GasMaps, k: GasKey, step: Step, d: real, s: real, e: real)
    requires step(View(g, k)) == GasEntry(Some(d), Some(s), Some(e))
    ensures Visit(g, k, step) == GasMaps(g.deadbands[k := d], g.starts[k := s], g.ends[k := e])
  {
  }

  /** `set_calc_start_all`: each start raised to the gas's lower bound. */
  function StartFromBelowStep(close: real, value: real): Step
  {
    (v: GasEntry) => GasEntry(None, Some(MaxR(value, close + v.deadband.UnwrapOr(0.0))), None)
  }

  /** After `set_calc_start_all` every listed gas starts at the value, or
      at its lower bound when the value is below it. */
  lemma {:induction false} StartAllFromBound(g: GasMaps, keys: seq<GasKey>, close: real, value: real, k: GasKey)
    requires Distinct(keys) && k in keys
    ensures var r := Refit(g, keys, StartFromBelowStep(close, value));
      var minB := close + View(g, k).deadband.UnwrapOr(0.0);
      k in r.starts && r.starts[k] >= minB && (value >= minB ==> r.starts[k] == value) &&
      View(r, k).deadband == View(g, k).deadband && View(r, k).end == View(g, k).end
  {
    RefitAt(g, keys, StartFromBelowStep(close, value), k);
  }

  /** `set_calc_end_all` as written: each end raised to the gas's lower
      bound, a copy of the start rule. */
  function EndFromBelowStep(close: real, value: real): Step
  {
    (v: GasEntry) => GasEntry(None, None, Some(MaxR(value, close + v.deadband.UnwrapOr(0.0))))
  }

  /** `set_calc_end_all` with the rule of `set_calc_end`: each end lowered
      to the adjusted open time. */
  function EndFromAboveStep(open: real, value: real): Step
  {
    (v: GasEntry) => GasEntry(None, None, Some(MinR(value, open)))
  }

  /** The as-written rule lets an end past the adjusted open time through:
      with the open time at 10 and the lower bound at 0, an end of 50 is
      stored as 50. */
  lemma EndAllAsWrittenPassesOpen(k: GasKey)
    ensures var g := Refit(GasMaps(map[], map[], map[]), [k], EndFromBelowStep(0.0, 50.0));
      k in g.ends && g.ends[k] == 50.0 && g.ends[k] > 10.0
  {
  }

  /** With the corrected rule every listed gas ends at or before the
      adjusted open time. */
  lemma {:induction false} EndAllBeforeOpen(g: GasMaps, keys: seq<GasKey>, open: real, value: real, k: GasKey)
    requires Distinct(keys) && k in keys
    ensures var r := Refit(g, keys, EndFromAboveStep(open, value));
      k in r.ends && r.ends[k] == MinR(value, open) && r.ends[k] <= open
  {
    RefitAt(g, keys, EndFromAboveStep(open, value), k);
  }

  /** `set_deadband_constant_calc`: the deadband moves by `x` (not below
      zero), and the window with it. */
  function DeadbandShiftStep(x: real): Step
  {
    (v: GasEntry) => GasEntry(Some(MaxR(v.deadband.UnwrapOr(0.0) + x, 0.0)),
                  Some(v.start.UnwrapOr(0.0) + x), Some(v.end.UnwrapOr(0.0) + x))
  }

  /** After `set_deadband_constant_calc` every listed gas's deadband has
      moved by `x` but not below zero, and its window by exactly `x`, so
      the window keeps its length. */
  lemma {:induction false} DeadbandShiftAll(g: GasMaps, keys: seq<GasKey>, x: real, k: GasKey)
    requires Distinct(keys) && k in keys
    ensures var r := Refit(g, keys, DeadbandShiftStep(x));
      var v := View(g, k);
      k in r.deadbands && k in r.starts && k in r.ends &&
      r.deadbands[k] == MaxR(v.deadband.UnwrapOr(0.0) + x, 0.0) &&
      r.starts[k] == v.start.UnwrapOr(0.0) + x && r.ends[k] == v.end.UnwrapOr(0.0) + x &&
      r.ends[k] - r.starts[k] == v.end.UnwrapOr(0.0) - v.start.UnwrapOr(0.0)
  {
    RefitAt(g, keys, DeadbandShiftStep(x), k);
  }

  /** `stick_calc_to_range_start` for one gas: the window, at least the
      minimum length long, moved to start at its lower bound; exactly there
      and of that length whenever the length fits the bounds. */
  function StickSpan(v: GasEntry, close: real, open: real, minLen: real): (r: Span)
    ensures var minB := close + v.deadband.UnwrapOr(0.0);
      var len := MaxR(v.end.UnwrapOr(0.0) - v.start.UnwrapOr(0.0), minLen);
      0.0 <= len <= open - minB ==> r == Span(minB, minB + len)
  {
    var minB := close + v.deadband.UnwrapOr(0.0);
    var curLen := MaxR(v.end.UnwrapOr(0.0) - v.start.UnwrapOr(0.0), minLen);
    StuckAtLowerBound(minB, open, curLen, minLen);
    ClampRangeAsWritten(minB, open, minB, minB + curLen, minLen)
  }

  /** A window of at least the minimum length that starts at the lower
      bound and fits the bounds is left where it is. */
  lemma {:induction false} StuckAtLowerBound(minB: real, maxB: real, len: real, minLen: real)
    requires len >= minLen
    ensures 0.0 <= len <= maxB - minB ==> ClampRangeAsWritten(minB, maxB, minB, minB + len, minLen) == Span(minB, minB + len)
  {
    if 0.0 <= len <= maxB - minB {
      ClampRangeLeavesInside(minB, maxB, minB, minB + len, minLen);
    }
  }

  function StickStep(close: real, open: real, minLen: real): Step
  {
    (v: GasEntry) => WindowEntry(StickSpan(v, close, open, minLen))
  }

  /** After `stick_calc_to_range_start_for_all` every listed gas whose
      window length (raised to the minimum) fits its bounds starts at its
      lower bound and keeps that length. */
  lemma {:induction false} StickAllFromBound(g: GasMaps, keys: seq<GasKey>, close: real, open: real, minLen: real, k: GasKey)
    requires Distinct(keys) && k in keys
    requires var v := View(g, k);
      0.0 <= MaxR(v.end.UnwrapOr(0.0) - v.start.UnwrapOr(0.0), minLen) <= open - (close + v.deadband.UnwrapOr(0.0))
    ensures var r := Refit(g, keys, StickStep(close, open, minLen));
      var v := View(g, k);
      var minB := close + v.deadband.UnwrapOr(0.0);
      k in r.starts && k in r.ends && r.starts[k] == minB &&
      r.ends[k] - r.starts[k] == MaxR(v.end.UnwrapOr(0.0) - v.start.UnwrapOr(0.0), minLen)
  {
    RefitAt(g, keys, StickStep(close, open, minLen), k);
  }

  /** `adjust_calc_range_all` for one gas: the window, or the whole range
      when it has none, adjusted to `[close + deadband, open]`. */
  function AdjustSpan(v: GasEntry, close: real, open: real, minLen: real): (r: Span)
    ensures var rangeMin := close + v.deadband.UnwrapOr(0.0);
      var t := TargetLength(v.start.UnwrapOr(rangeMin), v.end.UnwrapOr(open), rangeMin, open, minLen);
      (t <= Epsilon ==> r == Span(rangeMin, rangeMin)) &&
      (t > Epsilon ==> rangeMin <= r.start && r.end <= open && Len(r) == t)
  {
    var rangeMin := close + v.deadband.UnwrapOr(0.0);
    AdjustIntervalToBounds(v.start.UnwrapOr(rangeMin), v.end.UnwrapOr(open), rangeMin, open, minLen)
  }

  function AdjustStep(close: real, open: real, minLen: real): Step
  {
    (v: GasEntry) => WindowEntry(AdjustSpan(v, close, open, minLen))
  }

  /** `adjust_calc_range_all` sets every listed gas's window to its
      adjusted span. */
  lemma {:induction false} AdjustAllSets(g: GasMaps, keys: seq<GasKey>, close: real, open: real, minLen: real, k: GasKey)
    requires Distinct(keys) && k in keys
    ensures var r := Refit(g, keys, AdjustStep(close, open, minLen));
      var sp := AdjustSpan(View(g, k), close, open, minLen);
      k in r.starts && k in r.ends && r.starts[k] == sp.start && r.ends[k] == sp.end
  {
    var v := View(g, k);
    var step := AdjustStep(close, open, minLen);
    var sp := AdjustSpan(v, close, open, minLen);
    var r := Refit(g, keys, step);
    RefitAt(g, keys, step, k);
    assert step(v) == WindowEntry(sp);
    assert Get(r.starts, k) == Some(sp.start) && Get(r.ends, k) == Some(sp.end);
  }

  /** After `adjust_calc_range_all` every listed gas's window lies inside
      its bounds with the target length, or is empty at the lower bound. */
  lemma {:induction false} AdjustAllFits(g: GasMaps, keys: seq<GasKey>, close: real, open: real, minLen: real, k: GasKey)
    requires Distinct(keys) && k in keys
    ensures var r := Refit(g, keys, AdjustStep(close, open, minLen));
      var v := View(g, k);
      var rangeMin := close + v.deadband.UnwrapOr(0.0);
      var t := TargetLength(v.start.UnwrapOr(rangeMin), v.end.UnwrapOr(open), rangeMin, open, minLen);
      k in r.starts && k in r.ends &&
      (t <= Epsilon ==> r.starts[k] == rangeMin && r.ends[k] == rangeMin) &&
      (t > Epsilon ==> rangeMin <= r.starts[k] && r.ends[k] <= open && r.ends[k] - r.starts[k] == t)
  {
    AdjustAllSets(g, keys, close, open, minLen, k);
    var sp := AdjustSpan(View(g, k), close, open, minLen);
    assert Len(sp) == sp.end - sp.start;
  }

  /** `adjust_calc_range_all_deadband` for one gas: clamp the window into
      `[close + deadband, open]`, shrink the deadband by any shortfall of
      room below the minimum length, and widen a short window. */
  function DeadbandAdjusted(v: GasEntry, close: real, open: real, minRange: real): GasEntry
  {
    var deadband := v.deadband.UnwrapOr(0.0);
    var rangeMin := close + deadband;
    var rangeMax := open;
    var start := MaxR(v.start.UnwrapOr(rangeMin), rangeMin);
    var end := MinR(v.end.UnwrapOr(rangeMax), rangeMax);
    var available := rangeMax - rangeMin;
    var newDeadband := if available < minRange then Some(deadband + (available - minRange)) else None;
    var current := end - start;
    var sp :=
      if current < minRange then
        var half := (minRange - current) / 2.0;
        var newStart := MaxR(start - half, rangeMin);
        var newEnd := MinR(end + half, rangeMax);
        if newEnd - newStart >= minRange then Span(newStart, newEnd)
        else if start + minRange > rangeMax then Span(rangeMax - minRange, rangeMax)
        else Span(start, start + minRange)
      else Span(start, end);
    GasEntry(newDeadband, Some(sp.start), Some(sp.end))
  }

  function DeadbandAdjustStep(close: real, open: real, minRange: real): Step
  {
    (v: GasEntry) => DeadbandAdjusted(v, close, open, minRange)
  }

  /** The window ends by the open time and is at least the minimum length
      long; it starts inside the bounds when the room is enough; and the
      deadband shrinks by exactly the shortfall of room. */
  lemma {:induction false} DeadbandAdjustedBounds(v: GasEntry, close: real, open: real, minRange: real)
    ensures var u := DeadbandAdjusted(v, close, open, minRange);
      var rangeMin := close + v.deadband.UnwrapOr(0.0);
      u.start.Some? && u.end.Some? &&
      u.end.value <= open && u.end.value - u.start.value >= minRange &&
      (open - rangeMin >= minRange ==> rangeMin <= u.start.value && u.deadband.None?) &&
      (open - rangeMin < minRange ==> u.deadband == Some(v.deadband.UnwrapOr(0.0) + (open - rangeMin - minRange)))
  {
  }

  /** `DeadbandAdjustedBounds` for every listed gas after
      `adjust_calc_range_all_deadband`; a deadband the step leaves alone is
      kept. */
  lemma {:induction false} DeadbandAdjustAll(g: GasMaps, keys: seq<GasKey>, close: real, open: real, minRange: real, k: GasKey)
    requires Distinct(keys) && k in keys
    ensures var r := Refit(g, keys, DeadbandAdjustStep(close, open, minRange));
      var v := View(g, k);
      var rangeMin := close + v.deadband.UnwrapOr(0.0);
      k in r.starts && k in r.ends &&
      r.ends[k] <= open && r.ends[k] - r.starts[k] >= minRange &&
      (open - rangeMin >= minRange ==> rangeMin <= r.starts[k] && View(r, k).deadband == v.deadband) &&
      (open - rangeMin < minRange ==> View(r, k).deadband == Some(v.deadband.UnwrapOr(0.0) + (open - rangeMin - minRange)))
  {
    var v := View(g, k);
    RefitAt(g, keys, DeadbandAdjustStep(close, open, minRange), k);
    DeadbandAdjustedBounds(v, close, open, minRange);
  }

  /** The bounds for each of the cycle's fields apart from the maps. */
  datatype Times = Times(startTs: int, closeOffset: int, openOffset: int, endOffset: int,
                         startLag: real, closeLag: real, openLag: real, endLag: real,
                         measurementRangeStart: real, measurementRangeEnd: real, minCalcLen: real)

  /** The time axes a cycle keeps: per instrument, per gas and for the
      measurement. */
  datatype Axes = Axes(dtV: map<int, seq<real>>, calcDtV: map<GasKey, seq<real>>, measurementDtV: seq<real>)

  // ------------------------------------------------ end lag increments

  /** `increment_end_lag` as written: `delta` is added, then added again,
      and only the second addition is undone when the adjusted open time
      would fall after the end. */
  function EndLagIncrementedAsWritten(endLag: real, delta: real, adjustedOpen: real, endBase: real): real
  {
    var once := endLag + delta;
    var twice := once + delta;
    if adjustedOpen > endBase + twice then once else twice
  }

  /** `increment_end_lag` as its rollback intends: `delta` added once and
      undone when the adjusted open time would fall after the end. */
  function EndLagIncremented(endLag: real, delta: real, adjustedOpen: real, endBase: real): (r: real)
    ensures r == endLag || r == endLag + delta
  {
    var once := endLag + delta;
    if adjustedOpen > endBase + once then endLag else once
  }

  /** The as-written increment moves the lag by twice `delta`, and can leave
      the adjusted open time after the end. */
  lemma EndLagIncrementAsWrittenDoubles()
    ensures EndLagIncrementedAsWritten(0.0, 1.0, 0.0, 10.0) == 2.0
    ensures var lag := EndLagIncrementedAsWritten(0.0, -1.0, 9.5, 10.0); 9.5 > 10.0 + lag
  {
  }

  /** The corrected increment applies exactly when the end stays at or
      after the adjusted open time, and keeps that order when it held. */
  lemma {:induction false} EndLagIncrementKeepsOrder(endLag: real, delta: real, adjustedOpen: real, endBase: real)
    ensures var r := EndLagIncremented(endLag, delta, adjustedOpen, endBase);
      (r == endLag + delta <==> adjustedOpen <= endBase + endLag + delta || delta == 0.0) &&
      (adjustedOpen <= endBase + endLag ==> adjustedOpen <= endBase + r)
  {
  }

  // ------------------------------------------------------------ the object

  /** `CycleTiming`. The start time is its Unix timestamp in seconds; the
      lags, ranges and windows are seconds on the same axis. */
  class CycleTiming {
    var startTs: int
    var closeOffset: int
    var openOffset: int
    var endOffset: int
    var startLag: real
    var closeLag: real
    var openLag: real
    var endLag: real
    var measurementRangeStart: real
    var measurementRangeEnd: real
    var minCalcLen: real
    var deadbands: map<GasKey, real>
    var calcRangeStart: map<GasKey, real>
    var calcRangeEnd: map<GasKey, real>
    var dtV: map<int, seq<real>>
    var calcDtV: map<GasKey, seq<real>>
    var measurementDtV: seq<real>

    /** The fields that are not per-gas. */
    function Scalars(): Times
      reads this
    {
      Times(startTs, closeOffset, openOffset, endOffset, startLag, closeLag, openLag, endLag,
            measurementRangeStart, measurementRangeEnd, minCalcLen)
    }

    function TimeAxes(): Axes
      reads this
    {
      Axes(dtV, calcDtV, measurementDtV)
    }

    /** The per-gas deadbands and calculation windows. */
    function Maps(): GasMaps
      reads this
    {
      GasMaps(deadbands, calcRangeStart, calcRangeEnd)
    }

    /** `new_from_fields`: the given timing, with no windows or axes yet. */
    constructor NewFromFields(start: int, close: int, open: int, end: int,
                              startLagS: real, closeLagS: real, openLagS: real, endLagS: real,
                              measStart: real, measEnd: real, deadbandsIn: map<GasKey, real>, minLen: real)
      ensures Scalars() == Times(start, close, open, end, startLagS, closeLagS, openLagS, endLagS, measStart, measEnd, minLen)
      ensures Maps() == GasMaps(deadbandsIn, map[], map[])
      ensures TimeAxes() == Axes(map[], map[], [])
    {
      startTs, closeOffset, openOffset, endOffset := start, close, open, end;
      startLag, closeLag, openLag, endLag := startLagS, closeLagS, openLagS, endLagS;
      measurementRangeStart, measurementRangeEnd := measStart, measEnd;
      deadbands, minCalcLen := deadbandsIn, minLen;
      calcRangeStart, calcRangeEnd := map[], map[];
      dtV, calcDtV, measurementDtV := map[], map[], [];
    }

    /** `new_from_offsets`: the offsets and minimum length, every lag and
        range zero. The default start time the source fills in before
        overwriting it is not modelled. */
    constructor NewFromOffsets(start: int, close: int, open: int, end: int, minLen: real)
      ensures Scalars() == Times(start, close, open, end, 0.0, 0.0, 0.0, 0.0, 0.0, 0.0, minLen)
      ensures Maps() == GasMaps(map[], map[], map[])
      ensures TimeAxes() == Axes(map[], map[], [])
    {
      startTs, closeOffset, openOffset, endOffset := start, close, open, end;
      startLag, closeLag, openLag, endLag := 0.0, 0.0, 0.0, 0.0;
      measurementRangeStart, measurementRangeEnd := 0.0, 0.0;
      deadbands, minCalcLen := map[], minLen;
      calcRangeStart, calcRangeEnd := map[], map[];
      dtV, calcDtV, measurementDtV := map[], map[], [];
    }

    /** `new`: everything zero, starting seven days before `now` (a
        timestamp in seconds). */
    constructor New(now: int)
      ensures Scalars() == Times(now - 604800, 0, 0, 0, 0.0, 0.0, 0.0, 0.0, 0.0, 0.0, 0.0)
      ensures Maps() == GasMaps(map[], map[], map[])
      ensures TimeAxes() == Axes(map[], map[], [])
    {
      startTs, closeOffset, openOffset, endOffset := now - 7 * 86400, 0, 0, 0;
      startLag, closeLag, openLag, endLag := 0.0, 0.0, 0.0, 0.0;
      measurementRangeStart, measurementRangeEnd := 0.0, 0.0;
      deadbands, minCalcLen := map[], 0.0;
      calcRangeStart, calcRangeEnd := map[], map[];
      dtV, calcDtV, measurementDtV := map[], map[], [];
    }

    // ---- getters

    function Start(): real
      reads this
    {
      startTs as real + startLag
    }

    function End(): real
      reads this
    {
      startTs as real + endLag + endOffset as real
    }

    function EndTs(): int
      reads this
    {
      startTs + endOffset
    }

    function Close(): real
      reads this
    {
      startTs as real + closeOffset as real
    }

    function Open(): real
      reads this
    {
      startTs as real + openOffset as real
    }

    /** The chamber's close time moved by the open lag and the close lag. */
    function AdjustedClose(): (r: real)
      reads this
      ensures r == Close() + openLag + closeLag
    {
      startTs as real + closeOffset as real + openLag + closeLag
    }

    /** The chamber's open time moved by the open lag. */
    function AdjustedOpen(): (r: real)
      reads this
      ensures r == Open() + openLag
    {
      startTs as real + openOffset as real + openLag
    }

    /** `get_measurement_start`: the same instant as the adjusted close. */
    function MeasurementStart(): (r: real)
      reads this
      ensures r == AdjustedClose()
    {
      startTs as real + closeOffset as real + openLag + closeLag
    }

    /** `get_measurement_end`: the same instant as the adjusted open. */
    function MeasurementEnd(): (r: real)
      reads this
      ensures r == AdjustedOpen()
    {
      startTs as real + openOffset as real + openLag
    }

    function CalcStart(key: GasKey): real
      reads this
    {
      Lookup(calcRangeStart, key, 0.0)
    }

    function CalcEnd(key: GasKey): real
      reads this
    {
      Lookup(calcRangeEnd, key, 0.0)
    }

    function Deadband(key: GasKey): real
      reads this
    {
      Lookup(deadbands, key, 0.0)
    }

    /** `get_calc_range`: the window's length, negative if reversed. */
    function CalcRange(key: GasKey): real
      reads this
    {
      CalcEnd(key) - CalcStart(key)
    }

    /** `bounds_for`: from the adjusted close plus the gas's deadband to the
        adjusted open. */
    function BoundsFor(key: GasKey): (r: Span)
      reads this
      ensures r.start == AdjustedClose() + Deadband(key) && r.end == AdjustedOpen()
    {
      Span(MeasurementStart() + Deadband(key), MeasurementEnd())
    }

    /** `calc_area_can_move`: false exactly when the window touches both
        bounds and is at most the minimum length long. */
    function CalcAreaCanMove(key: GasKey): (r: bool)
      reads this
      ensures !r <==> CalcStart(key) <= BoundsFor(key).start && CalcEnd(key) >= BoundsFor(key).end &&
                      minCalcLen >= CalcRange(key)
    {
      CanMove(CalcStart(key), CalcEnd(key), AdjustedClose() + Deadband(key), AdjustedOpen(), minCalcLen)
    }

    /** `get_dt_v`: the instrument's time axis, empty when it has none. */
    function GetDtV(key: int): (r: seq<real>)
      reads this
      ensures key in dtV ==> r == dtV[key]
      ensures key !in dtV ==> r == []
    {
      if key in dtV then dtV[key] else []
    }

    // ---- time axes and measurement range

    method SetDtV(key: int, v: seq<real>)
      modifies this
      ensures dtV == old(dtV)[key := v]
      ensures calcDtV == old(calcDtV) && measurementDtV == old(measurementDtV)
      ensures Scalars() == old(Scalars()) && Maps() == old(Maps())
    {
      dtV := dtV[key := v];
    }

    method SetDtVAll(all: map<int, seq<real>>)
      modifies this
      ensures TimeAxes() == old(TimeAxes()).(dtV := all)
      ensures Scalars() == old(Scalars()) && Maps() == old(Maps())
    {
      dtV := all;
    }

    method SetCalcDtV(key: GasKey, v: seq<real>)
      modifies this
      ensures TimeAxes() == old(TimeAxes()).(calcDtV := old(calcDtV)[key := v])
      ensures Scalars() == old(Scalars()) && Maps() == old(Maps())
    {
      calcDtV := calcDtV[key := v];
    }

    method SetMeasurementStart(value: real)
      modifies this
      ensures Scalars() == old(Scalars()).(measurementRangeStart := value)
      ensures Maps() == old(Maps()) && TimeAxes() == old(TimeAxes())
    {
      measurementRangeStart := value;
    }

    method SetMeasurementEnd(value: real)
      modifies this
      ensures Scalars() == old(Scalars()).(measurementRangeEnd := value)
      ensures Maps() == old(Maps()) && TimeAxes() == old(TimeAxes())
    {
      measurementRangeEnd := value;
    }

    // ---- lags

    /** `set_start_lag_s`: the new lag is kept only when the start stays at
        or before the adjusted close; otherwise the old lag is restored. */
    method SetStartLag(newLag: real)
      modifies this
      ensures var accepted := startTs as real + newLag <= AdjustedClose();
        Scalars() == old(Scalars()).(startLag := if accepted then newLag else old(startLag))
      ensures old(Start() <= AdjustedClose()) ==> Start() <= AdjustedClose()
      ensures Maps() == old(Maps()) && TimeAxes() == old(TimeAxes())
    {
      var oldLag := startLag;
      startLag := newLag;
      if Start() > AdjustedClose() {
        startLag := oldLag;
      }
    }

    method SetCloseLag(newLag: real)
      modifies this
      ensures Scalars() == old(Scalars()).(closeLag := newLag)
      ensures Maps() == old(Maps()) && TimeAxes() == old(TimeAxes())
    {
      closeLag := newLag;
    }

    method SetOpenLag(newLag: real)
      modifies this
      ensures Scalars() == old(Scalars()).(openLag := newLag)
      ensures Maps() == old(Maps()) && TimeAxes() == old(TimeAxes())
    {
      openLag := newLag;
    }

    method SetEndLag(newLag: real)
      modifies this
      ensures Scalars() == old(Scalars()).(endLag := newLag)
      ensures Maps() == old(Maps()) && TimeAxes() == old(TimeAxes())
    {
      endLag := newLag;
    }

    method IncrementStartLag(delta: real)
      modifies this
      ensures Scalars() == old(Scalars()).(startLag := old(startLag) + delta)
      ensures Maps() == old(Maps()) && TimeAxes() == old(TimeAxes())
    {
      startLag := startLag + delta;
    }

    method IncrementCloseLag(delta: real)
      modifies this
      ensures Scalars() == old(Scalars()).(closeLag := old(closeLag) + delta)
      ensures Maps() == old(Maps()) && TimeAxes() == old(TimeAxes())
    {
      closeLag := closeLag + delta;
    }

    method IncrementOpenLag(delta: real)
      modifies this
      ensures Scalars() == old(Scalars()).(openLag := old(openLag) + delta)
      ensures Maps() == old(Maps()) && TimeAxes() == old(TimeAxes())
    {
      openLag := openLag + delta;
    }

    /** `increment_end_lag` as written (see `EndLagIncrementedAsWritten`). */
    method IncrementEndLagAsWritten(delta: real)
      modifies this
      ensures Scalars() == old(Scalars()).(endLag :=
        EndLagIncrementedAsWritten(old(endLag), delta, old(AdjustedOpen()), old(EndTs()) as real))
      ensures Maps() == old(Maps()) && TimeAxes() == old(TimeAxes())
    {
      endLag := endLag + delta;
      var oldLag := endLag;
      endLag := endLag + delta;
      if AdjustedOpen() > End() {
        endLag := oldLag;
      }
    }

    /** `increment_end_lag` with a single addition: the end moves by `delta`
        unless that would put it before the adjusted open time, and an end at
        or after the adjusted open time stays there. */
    method IncrementEndLag(delta: real)
      modifies this
      ensures Scalars() == old(Scalars()).(endLag :=
        EndLagIncremented(old(endLag), delta, old(AdjustedOpen()), old(EndTs()) as real))
      ensures old(AdjustedOpen() <= End()) ==> AdjustedOpen() <= End()
      ensures Maps() == old(Maps()) && TimeAxes() == old(TimeAxes())
    {
      var oldLag := endLag;
      endLag := endLag + delta;
      if AdjustedOpen() > End() {
        endLag := oldLag;
      }
      EndLagIncrementKeepsOrder(old(endLag), delta, AdjustedOpen(), EndTs() as real);
    }

    /** `set_end_lag_s`: the new lag is kept only when the end stays at or
        after the adjusted open time; otherwise the old lag is restored. */
    method SetEndLagS(newLag: real)
      modifies this
      ensures var accepted := AdjustedOpen() <= EndTs() as real + newLag;
        Scalars() == old(Scalars()).(endLag := if accepted then newLag else old(endLag))
      ensures old(AdjustedOpen() <= End()) ==> AdjustedOpen() <= End()
      ensures Maps() == old(Maps()) && TimeAxes() == old(TimeAxes())
    {
      var oldLag := endLag;
      endLag := newLag;
      if AdjustedOpen() > End() {
        endLag := oldLag;
      }
    }

    /** `set_end_lag_only`: a synonym of `set_end_lag_s`. */
    method SetEndLagOnly(newLag: real)
      modifies this
      ensures var accepted := AdjustedOpen() <= EndTs() as real + newLag;
        Scalars() == old(Scalars()).(endLag := if accepted then newLag else old(endLag))
      ensures Maps() == old(Maps()) && TimeAxes() == old(TimeAxes())
    {
      SetEndLagS(newLag);
    }

    // ---- deadbands and calculation windows, one gas

    /** `set_calc_start`: the start is stored, raised to the gas's lower
        bound. */
    method SetCalcStart(key: GasKey, value: real)
      modifies this
      ensures Maps() == old(Visit(Maps(), key, StartFromBelowStep(AdjustedClose(), value)))
      ensures CalcStart(key) >= BoundsFor(key).start
      ensures value >= BoundsFor(key).start ==> CalcStart(key) == value
      ensures Scalars() == old(Scalars()) && TimeAxes() == old(TimeAxes())
    {
      var rangeMin := AdjustedClose() + Lookup(deadbands, key, 0.0);
      if rangeMin > value {
        calcRangeStart := calcRangeStart[key := rangeMin];
      } else {
        calcRangeStart := calcRangeStart[key := value];
      }
    }

    /** `set_calc_end`: the end is stored, lowered to the adjusted open
        time. */
    method SetCalcEnd(key: GasKey, value: real)
      modifies this
      ensures Maps() == old(Visit(Maps(), key, EndFromAboveStep(AdjustedOpen(), value)))
      ensures CalcEnd(key) <= AdjustedOpen()
      ensures value <= AdjustedOpen() ==> CalcEnd(key) == value
      ensures Scalars() == old(Scalars()) && TimeAxes() == old(TimeAxes())
    {
      var rangeMax := AdjustedOpen();
      if value > rangeMax {
        calcRangeEnd := calcRangeEnd[key := rangeMax];
      } else {
        calcRangeEnd := calcRangeEnd[key := value];
      }
    }

    /** `set_deadband`: a negative deadband is stored as zero. */
    method SetDeadband(key: GasKey, deadband: real)
      modifies this
      ensures Maps() == old(Maps()).(deadbands := old(deadbands)[key := MaxR(deadband, 0.0)])
      ensures Deadband(key) >= 0.0 && (deadband >= 0.0 ==> Deadband(key) == deadband)
      ensures Scalars() == old(Scalars()) && TimeAxes() == old(TimeAxes())
    {
      deadbands := deadbands[key := MaxR(deadband, 0.0)];
    }

    /** Stores a window for one gas. */
    method StoreWindow(key: GasKey, sp: Span)
      modifies this
      ensures Maps() == Apply(old(Maps()), key, WindowEntry(sp))
      ensures CalcStart(key) == sp.start && CalcEnd(key) == sp.end && deadbands == old(deadbands)
      ensures Scalars() == old(Scalars()) && TimeAxes() == old(TimeAxes())
    {
      calcRangeStart := calcRangeStart[key := sp.start];
      calcRangeEnd := calcRangeEnd[key := sp.end];
    }

    /** Writes the values an entry holds for one gas. */
    method StoreEntry(key: GasKey, u: GasEntry)
      modifies this
      ensures Maps() == Apply(old(Maps()), key, u)
      ensures Scalars() == old(Scalars()) && TimeAxes() == old(TimeAxes())
    {
      deadbands, calcRangeStart, calcRangeEnd :=
        Put(deadbands, key, u.deadband), Put(calcRangeStart, key, u.start), Put(calcRangeEnd, key, u.end);
    }

    /** Stores a deadband and a window for one gas. */
    method StoreAll(key: GasKey, d: real, s: real, e: real)
      modifies this
      ensures Maps() == GasMaps(old(deadbands)[key := d], old(calcRangeStart)[key := s], old(calcRangeEnd)[key := e])
      ensures Scalars() == old(Scalars()) && TimeAxes() == old(TimeAxes())
    {
      deadbands, calcRangeStart, calcRangeEnd := deadbands[key := d], calcRangeStart[key := s], calcRangeEnd[key := e];
    }

    /** `set_calc_length_sticky_start`: a window of the new length from the
        gas's lower bound, clamped into its bounds; exactly that window
        whenever the length is at least the minimum and fits, and otherwise
        inside the bounds and of the minimum length whenever that fits. */
    method SetCalcLengthStickyStart(key: GasKey, newLen: real)
      modifies this
      ensures var b := old(BoundsFor(key));
        Maps() == Apply(old(Maps()), key, WindowEntry(ClampRangeAsWritten(b.start, b.end, b.start, b.start + newLen, old(minCalcLen))))
      ensures var b := old(BoundsFor(key));
        0.0 <= newLen && minCalcLen <= newLen <= b.end - b.start ==>
          CalcStart(key) == b.start && CalcEnd(key) == b.start + newLen
      ensures var b := old(BoundsFor(key));
        0.0 <= newLen <= b.end - b.start && minCalcLen <= b.end - b.start ==>
          b.start <= CalcStart(key) && CalcEnd(key) <= b.end && CalcRange(key) == MaxR(newLen, minCalcLen)
      ensures Scalars() == old(Scalars()) && TimeAxes() == old(TimeAxes())
    {
      var b := BoundsFor(key);
      var sp := ClampRangeAsWritten(b.start, b.end, b.start, b.start + newLen, minCalcLen);
      if 0.0 <= newLen && minCalcLen <= newLen <= b.end - b.start {
        ClampRangeLeavesInside(b.start, b.end, b.start, b.start + newLen, minCalcLen);
      }
      if 0.0 <= newLen <= b.end - b.start && minCalcLen <= b.end - b.start {
        ClampRangeAsWrittenFitsAboveLowerBound(b.start, b.end, b.start, b.start + newLen, minCalcLen);
      }
      StoreWindow(key, sp);
    }

    /** `stick_calc_to_range_start`. */
    method StickCalcToRangeStart(key: GasKey)
      modifies this
      ensures Maps() == old(Visit(Maps(), key, StickStep(AdjustedClose(), AdjustedOpen(), minCalcLen)))
      ensures Scalars() == old(Scalars()) && TimeAxes() == old(TimeAxes())
    {
      var m := Maps();
      var sp := StickSpan(View(m, key), MeasurementStart(), MeasurementEnd(), minCalcLen);
      StoreWindow(key, sp);
      VisitStoresWindow(m, key, StickStep(old(AdjustedClose()), old(AdjustedOpen()), old(minCalcLen)), sp);
    }

    /** `drag_main`: the window moved by `dx`, clamped into the gas's
        bounds; a window of at least the minimum length that fits keeps its
        length and ends up inside. */
    method DragMain(key: GasKey, dx: real)
      modifies this
      ensures var b := old(BoundsFor(key));
        Maps() == Apply(old(Maps()), key, WindowEntry(
          ClampRangeAsWritten(b.start, b.end, old(CalcStart(key)) + dx, old(CalcEnd(key)) + dx, old(minCalcLen))))
      ensures var b := BoundsFor(key); var len := AbsR(old(CalcRange(key)));
        minCalcLen <= len <= b.end - b.start ==>
          b.start <= CalcStart(key) && CalcEnd(key) <= b.end && AbsR(CalcRange(key)) == len
      ensures Scalars() == old(Scalars()) && TimeAxes() == old(TimeAxes())
    {
      var b := BoundsFor(key);
      var s0, e0 := CalcStart(key), CalcEnd(key);
      var sp := ClampRangeAsWritten(b.start, b.end, s0 + dx, e0 + dx, minCalcLen);
      if minCalcLen <= AbsR(e0 - s0) {
        DragKeepsLength(b.start, b.end, s0, e0, dx, minCalcLen);
      }
      StoreWindow(key, sp);
    }

    /** `drag_left_to`: the window from the new start to its end, clamped
        into the gas's bounds. When it fits, a window of at least the
        minimum length keeps its length, and a shorter one that does not
        reach below the lower bound is lengthened to the minimum; both end
        up inside. */
    method DragLeftTo(key: GasKey, newStart: real)
      modifies this
      ensures var b := old(BoundsFor(key));
        Maps() == Apply(old(Maps()), key, WindowEntry(ClampRangeAsWritten(b.start, b.end, newStart, old(CalcEnd(key)), old(minCalcLen))))
      ensures var b := BoundsFor(key); var len := AbsR(old(CalcEnd(key)) - newStart);
        minCalcLen <= len <= b.end - b.start ==>
          b.start <= CalcStart(key) && CalcEnd(key) <= b.end && CalcRange(key) == len
      ensures var b := BoundsFor(key); var len := AbsR(old(CalcEnd(key)) - newStart);
        minCalcLen <= b.end - b.start && len <= b.end - b.start && b.start <= MinR(newStart, old(CalcEnd(key))) ==>
          b.start <= CalcStart(key) && CalcEnd(key) <= b.end && CalcRange(key) == MaxR(len, minCalcLen)
      ensures Scalars() == old(Scalars()) && TimeAxes() == old(TimeAxes())
    {
      var b := BoundsFor(key);
      var e0 := CalcEnd(key);
      var sp := ClampRangeAsWritten(b.start, b.end, newStart, e0, minCalcLen);
      if minCalcLen <= AbsR(e0 - newStart) {
        ClampRangeKeepsLength(b.start, b.end, newStart, e0, minCalcLen);
      }
      if minCalcLen <= b.end - b.start && AbsR(e0 - newStart) <= b.end - b.start && b.start <= MinR(newStart, e0) {
        ClampRangeAsWrittenFitsAboveLowerBound(b.start, b.end, newStart, e0, minCalcLen);
      }
      StoreWindow(key, sp);
    }

    /** `drag_right_to`: the window from its start to the new end, clamped
        into the gas's bounds, with the same guarantees as `drag_left_to`. */
    method DragRightTo(key: GasKey, newEnd: real)
      modifies this
      ensures var b := old(BoundsFor(key));
        Maps() == Apply(old(Maps()), key, WindowEntry(ClampRangeAsWritten(b.start, b.end, old(CalcStart(key)), newEnd, old(minCalcLen))))
      ensures var b := BoundsFor(key); var len := AbsR(newEnd - old(CalcStart(key)));
        minCalcLen <= len <= b.end - b.start ==>
          b.start <= CalcStart(key) && CalcEnd(key) <= b.end && CalcRange(key) == len
      ensures var b := BoundsFor(key); var len := AbsR(newEnd - old(CalcStart(key)));
        minCalcLen <= b.end - b.start && len <= b.end - b.start && b.start <= MinR(old(CalcStart(key)), newEnd) ==>
          b.start <= CalcStart(key) && CalcEnd(key) <= b.end && CalcRange(key) == MaxR(len, minCalcLen)
      ensures Scalars() == old(Scalars()) && TimeAxes() == old(TimeAxes())
    {
      var b := BoundsFor(key);
      var s0 := CalcStart(key);
      var sp := ClampRangeAsWritten(b.start, b.end, s0, newEnd, minCalcLen);
      if minCalcLen <= AbsR(newEnd - s0) {
        ClampRangeKeepsLength(b.start, b.end, s0, newEnd, minCalcLen);
      }
      if minCalcLen <= b.end - b.start && AbsR(newEnd - s0) <= b.end - b.start && b.start <= MinR(s0, newEnd) {
        ClampRangeAsWrittenFitsAboveLowerBound(b.start, b.end, s0, newEnd, minCalcLen);
      }
      StoreWindow(key, sp);
    }

    // ---- loops over the gases, and the body of each for one gas

    /** The body of `set_calc_end_all` as written. */
    method RaiseCalcEnd(key: GasKey, value: real)
      modifies this
      ensures Maps() == old(Visit(Maps(), key, EndFromBelowStep(AdjustedClose(), value)))
      ensures Scalars() == old(Scalars()) && TimeAxes() == old(TimeAxes())
    {
      var rangeMin := AdjustedClose() + Lookup(deadbands, key, 0.0);
      if rangeMin > value {
        calcRangeEnd := calcRangeEnd[key := rangeMin];
      } else {
        calcRangeEnd := calcRangeEnd[key := value];
      }
    }

    /** The body of `set_deadband_constant_calc`. */
    method ShiftDeadband(key: GasKey, x: real)
      modifies this
      ensures Maps() == old(Visit(Maps(), key, DeadbandShiftStep(x)))
      ensures Scalars() == old(Scalars()) && TimeAxes() == old(TimeAxes())
    {
      var m := Maps();
      var v := View(m, key);
      var deadband, s, e := v.deadband.UnwrapOr(0.0), v.start.UnwrapOr(0.0), v.end.UnwrapOr(0.0);
      StoreAll(key, MaxR(deadband + x, 0.0), s + x, e + x);
      VisitStoresAll(m, key, DeadbandShiftStep(x), MaxR(deadband + x, 0.0), s + x, e + x);
    }

    /** The body of `adjust_calc_range_all`. */
    method AdjustCalcRange(key: GasKey)
      modifies this
      ensures Maps() == old(Visit(Maps(), key, AdjustStep(AdjustedClose(), AdjustedOpen(), minCalcLen)))
      ensures Scalars() == old(Scalars()) && TimeAxes() == old(TimeAxes())
    {
      var m := Maps();
      var sp := AdjustSpan(View(m, key), AdjustedClose(), AdjustedOpen(), minCalcLen);
      StoreWindow(key, sp);
      VisitStoresWindow(m, key, AdjustStep(old(AdjustedClose()), old(AdjustedOpen()), old(minCalcLen)), sp);
    }

    /** `set_calc_start_all`. */
    method SetCalcStartAll(gases: seq<GasKey>, value: real)
      modifies this
      ensures Maps() == Refit(old(Maps()), gases, StartFromBelowStep(old(AdjustedClose()), value))
      ensures Scalars() == old(Scalars()) && TimeAxes() == old(TimeAxes())
    {
      ghost var step := StartFromBelowStep(AdjustedClose(), value);
      for i := 0 to |gases|
        invariant Scalars() == old(Scalars()) && TimeAxes() == old(TimeAxes())
        invariant Refit(Maps(), gases[i..], step) == Refit(old(Maps()), gases, step)
      {
        RefitUnroll(Maps(), gases, i, step);
        SetCalcStart(gases[i], value);
      }
      assert gases[|gases|..] == [];
    }

    /** `set_calc_end_all` as written: each end raised to the gas's lower
        bound. */
    method SetCalcEndAllAsWritten(gases: seq<GasKey>, value: real)
      modifies this
      ensures Maps() == Refit(old(Maps()), gases, EndFromBelowStep(old(AdjustedClose()), value))
      ensures Scalars() == old(Scalars()) && TimeAxes() == old(TimeAxes())
    {
      ghost var step := EndFromBelowStep(AdjustedClose(), value);
      for i := 0 to |gases|
        invariant Scalars() == old(Scalars()) && TimeAxes() == old(TimeAxes())
        invariant Refit(Maps(), gases[i..], step) == Refit(old(Maps()), gases, step)
      {
        RefitUnroll(Maps(), gases, i, step);
        RaiseCalcEnd(gases[i], value);
      }
      assert gases[|gases|..] == [];
    }

    /** `set_calc_end_all` with the rule of `set_calc_end`: every listed
        gas's end lowered to the adjusted open time. */
    method SetCalcEndAll(gases: seq<GasKey>, value: real)
      modifies this
      ensures Maps() == Refit(old(Maps()), gases, EndFromAboveStep(old(AdjustedOpen()), value))
      ensures Scalars() == old(Scalars()) && TimeAxes() == old(TimeAxes())
    {
      ghost var step := EndFromAboveStep(AdjustedOpen(), value);
      for i := 0 to |gases|
        invariant Scalars() == old(Scalars()) && TimeAxes() == old(TimeAxes())
        invariant Refit(Maps(), gases[i..], step) == Refit(old(Maps()), gases, step)
      {
        RefitUnroll(Maps(), gases, i, step);
        SetCalcEnd(gases[i], value);
      }
      assert gases[|gases|..] == [];
    }

    /** `set_deadband_constant_calc`. */
    method SetDeadbandConstantCalc(gases: seq<GasKey>, x: real)
      modifies this
      ensures Maps() == Refit(old(Maps()), gases, DeadbandShiftStep(x))
      ensures Scalars() == old(Scalars()) && TimeAxes() == old(TimeAxes())
    {
      ghost var step := DeadbandShiftStep(x);
      for i := 0 to |gases|
        invariant Scalars() == old(Scalars()) && TimeAxes() == old(TimeAxes())
        invariant Refit(Maps(), gases[i..], step) == Refit(old(Maps()), gases, step)
      {
        RefitUnroll(Maps(), gases, i, step);
        ShiftDeadband(gases[i], x);
      }
      assert gases[|gases|..] == [];
    }

    /** `stick_calc_to_range_start_for_all`. */
    method StickCalcToRangeStartForAll(gases: seq<GasKey>)
      modifies this
      ensures Maps() == Refit(old(Maps()), gases, StickStep(old(AdjustedClose()), old(AdjustedOpen()), old(minCalcLen)))
      ensures Scalars() == old(Scalars()) && TimeAxes() == old(TimeAxes())
    {
      ghost var step := StickStep(AdjustedClose(), AdjustedOpen(), minCalcLen);
      for i := 0 to |gases|
        invariant Scalars() == old(Scalars()) && TimeAxes() == old(TimeAxes())
        invariant Refit(Maps(), gases[i..], step) == Refit(old(Maps()), gases, step)
      {
        RefitUnroll(Maps(), gases, i, step);
        StickCalcToRangeStart(gases[i]);
      }
      assert gases[|gases|..] == [];
    }

    /** `adjust_calc_range_all`. */
    method AdjustCalcRangeAll(gases: seq<GasKey>)
      modifies this
      ensures Maps() == Refit(old(Maps()), gases, AdjustStep(old(AdjustedClose()), old(AdjustedOpen()), old(minCalcLen)))
      ensures Scalars() == old(Scalars()) && TimeAxes() == old(TimeAxes())
    {
      ghost var step := AdjustStep(AdjustedClose(), AdjustedOpen(), minCalcLen);
      for i := 0 to |gases|
        invariant Scalars() == old(Scalars()) && TimeAxes() == old(TimeAxes())
        invariant Refit(Maps(), gases[i..], step) == Refit(old(Maps()), gases, step)
      {
        RefitUnroll(Maps(), gases, i, step);
        AdjustCalcRange(gases[i]);
      }
      assert gases[|gases|..] == [];
    }

    /** The body of `adjust_calc_range_all_deadband`. */
    method AdjustCalcRangeDeadband(key: GasKey)
      modifies this
      ensures Maps() == old(Visit(Maps(), key, DeadbandAdjustStep(AdjustedClose(), AdjustedOpen(), minCalcLen)))
      ensures Scalars() == old(Scalars()) && TimeAxes() == old(TimeAxes())
    {
      var m := Maps();
      var u := DeadbandAdjusted(View(m, key), AdjustedClose(), AdjustedOpen(), minCalcLen);
      StoreEntry(key, u);
    }

    /** `adjust_calc_range_all_deadband`. */
    method AdjustCalcRangeAllDeadband(gases: seq<GasKey>)
      modifies this
      ensures Maps() == Refit(old(Maps()), gases, DeadbandAdjustStep(old(AdjustedClose()), old(AdjustedOpen()), old(minCalcLen)))
      ensures Scalars() == old(Scalars()) && TimeAxes() == old(TimeAxes())
    {
      ghost var step := DeadbandAdjustStep(AdjustedClose(), AdjustedOpen(), minCalcLen);
      for i := 0 to |gases|
        invariant Scalars() == old(Scalars()) && TimeAxes() == old(TimeAxes())
        invariant Refit(Maps(), gases[i..], step) == Refit(old(Maps()), gases, step)
      {
        RefitUnroll(Maps(), gases, i, step);
        AdjustCalcRangeDeadband(gases[i]);
      }
      assert gases[|gases|..] == [];
    }
  }
}
