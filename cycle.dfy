// A measurement cycle: its validity flags, the filter of the samples to
// the measurement, and the lag changes that move its windows and pick the
// open lag from the gas peak
// (crates/fluxrs-core/src/cycle/cycle.rs).
module Cycles {
  import opened Wrappers
  import opened Floats
  import opened ErrorCodes
  import opened CycleTimings
  import opened Peaks
  import opened BestFlux
  import opened Validities

  // ------------------------------------------------------------ the cycle

  /** `adjust_calc_range_all` then `stick_calc_to_range_start_for_all`: what
      a change of the open or close lag does to the windows. */
  function Relaid(g: GasMaps, gases: seq<GasKey>, close: real, open: real, minLen: real): GasMaps
  {
    Refit(Refit(g, gases, AdjustStep(close, open, minLen)), gases, StickStep(close, open, minLen))
  }

  /** After relaying, a gas whose adjusted window (raised to the minimum
      length) fits between its lower bound and the open time starts at the
      lower bound with that length. */
  lemma {:induction false} RelaidStartsAtBound(g: GasMaps, gases: seq<GasKey>, close: real, open: real, minLen: real, k: GasKey)
    requires Distinct(gases) && k in gases
    requires var v := View(g, k);
      var rangeMin := close + v.deadband.UnwrapOr(0.0);
      var t := TargetLength(v.start.UnwrapOr(rangeMin), v.end.UnwrapOr(open), rangeMin, open, minLen);
      t > Epsilon && MaxR(t, minLen) <= open - rangeMin
    ensures var r := Relaid(g, gases, close, open, minLen);
      var v := View(g, k);
      var rangeMin := close + v.deadband.UnwrapOr(0.0);
      var t := TargetLength(v.start.UnwrapOr(rangeMin), v.end.UnwrapOr(open), rangeMin, open, minLen);
      k in r.starts && k in r.ends && r.starts[k] == rangeMin && r.ends[k] - r.starts[k] == MaxR(t, minLen)
  {
    var adjust := AdjustStep(close, open, minLen);
    var g1 := Refit(g, gases, adjust);
    RefitAt(g, gases, adjust, k);
    AdjustAllFits(g, gases, close, open, minLen, k);
    assert View(g1, k).deadband == View(g, k).deadband;
    StickAllFromBound(g1, gases, close, open, minLen, k);
  }

  /** The value `get_measurement_data` reports for sample `i`: NaN when it
      is missing or past the end of the series. */
  function SampleAt(gas: seq<Option<F64>>, i: nat): F64
  {
    if i < |gas| && gas[i].Some? then gas[i].value else NaN
  }

  /** The indices of the first `n` times that fall in `[lo, hi)`, in order. */
  function InWindow(dt: seq<real>, lo: real, hi: real, n: nat): (r: seq<nat>)
    requires n <= |dt|
    ensures forall k :: 0 <= k < |r| ==> r[k] < n
  {
    if n == 0 then []
    else InWindow(dt, lo, hi, n - 1) + (if lo <= dt[n - 1] < hi then [n - 1] else [])
  }

  /** The indices are strictly increasing and are exactly those whose time
      lies in the window. */
  lemma {:induction false} InWindowExactly(dt: seq<real>, lo: real, hi: real, n: nat)
    requires n <= |dt|
    ensures var r := InWindow(dt, lo, hi, n);
      (forall a, b :: 0 <= a < b < |r| ==> r[a] < r[b]) &&
      (forall i :: 0 <= i < n ==> (i in r <==> lo <= dt[i] < hi))
  {
    if n > 0 {
      InWindowExactly(dt, lo, hi, n - 1);
    }
  }

  function TimesAt(dt: seq<real>, idx: seq<nat>): (r: seq<real>)
    requires forall k :: 0 <= k < |idx| ==> idx[k] < |dt|
    ensures |r| == |idx| && forall k :: 0 <= k < |idx| ==> r[k] == dt[idx[k]]
  {
    seq(|idx|, k requires 0 <= k < |idx| => dt[idx[k]])
  }

  function SamplesAt(gas: seq<Option<F64>>, idx: seq<nat>): (r: seq<F64>)
    ensures |r| == |idx| && forall k :: 0 <= k < |idx| ==> r[k] == SampleAt(gas, idx[k])
  {
    seq(|idx|, k requires 0 <= k < |idx| => SampleAt(gas, idx[k]))
  }

  /** The peak time `search_open_lag` finds for a gas, if any. */
  function OpenLagPeak(gasV: map<GasKey, seq<Option<F64>>>, key: GasKey, dt: seq<real>): (r: Option<real>)
    ensures r.Some? ==>
      key in gasV && |gasV[key]| >= 120 &&
      var i := OpenLagPeakIndex(gasV[key]).value; i < |dt| && r.value == dt[i]
  {
    if key !in gasV then None
    else
      match OpenLagPeakIndex(gasV[key])
      case None => None
      case Some(i) => if i < |dt| then Some(dt[i]) else None
  }

  /** The peak time `get_peak_near_timestamp` finds for a gas, if any. */
  function PeakNear(gasV: map<GasKey, seq<Option<F64>>>, key: GasKey, dt: seq<real>, target: int): (r: Option<real>)
    ensures r.Some? ==>
      key in gasV && PeakNearIndex(gasV[key], dt, target).Some? &&
      var i := PeakNearIndex(gasV[key], dt, target).value; i < |dt| && r.value == dt[i]
  {
    if key !in gasV then None
    else
      match PeakNearIndex(gasV[key], dt, target)
      case None => None
      case Some(i) => if i < |dt| then Some(dt[i]) else None
  }

  /** `Cycle`: the validity state, the gases with their samples and fitted
      models, and the timing. The samples, the gas list and the models are
      not changed by the operations modelled here. */
  class Cycle {
    const errors: ErrorMask
    var isValid: bool
    var overrideValid: Option<bool>
    var manualValid: bool
    var manualAdjusted: bool
    const gases: seq<GasKey>
    const gasV: map<GasKey, seq<Option<F64>>>
    const fluxes: FluxTable
    const timing: CycleTiming

    function Flags(): Validity
      reads this, errors
    {
      Validity(errors.bits, isValid, overrideValid, manualValid, manualAdjusted)
    }

    /** A valid cycle with no errors and no override over the given data. */
    constructor (gasesIn: seq<GasKey>, gasVIn: map<GasKey, seq<Option<F64>>>, fluxesIn: FluxTable, timingIn: CycleTiming)
      ensures Flags() == Validity(0, true, None, false, false)
      ensures gases == gasesIn && gasV == gasVIn && fluxes == fluxesIn && timing == timingIn
      ensures fresh(errors)
    {
      errors := new ErrorMask.FromU16(0);
      isValid, overrideValid, manualValid, manualAdjusted := true, None, false, false;
      gases, gasV, fluxes, timing := gasesIn, gasVIn, fluxesIn, timingIn;
    }

    /** `has_error`: the code is among the mask's codes. */
    function HasError(e: ErrorCode): (r: bool)
      reads this, errors
      ensures r <==> e in Selected(errors.bits, MaskOrder())
    {
      errors.Contains(e)
    }

    method AddError(e: ErrorCode)
      modifies this, errors
      ensures Flags() == WithError(old(Flags()), e)
    {
      errors.OrCode(e);
      if errors.bits != 0 {
        isValid := false;
      }
    }

    method RemoveError(e: ErrorCode)
      modifies this, errors
      ensures Flags() == WithoutError(old(Flags()), e)
    {
      ghost var f := Validity(errors.bits, isValid, overrideValid, manualValid, manualAdjusted);
      assert f == Flags();
      var m := Cleared(errors.bits, e);
      errors.bits := m;
      if m == 0 {
        isValid := true;
      }
      assert Validity(errors.bits, isValid, overrideValid, manualValid, manualAdjusted) == WithoutError(f, e);
    }

    method ToggleManualValid()
      modifies this, errors
      ensures Flags() == ToggledValidity(old(Flags()))
    {
      var beforeValid, beforeOverride, beforeErrors := isValid, overrideValid, errors.bits;
      overrideValid := if overrideValid.Some? then None else Some(!isValid);
      isValid := !isValid;
      manualValid := overrideValid.Some?;
      if manualValid && overrideValid == Some(false) {
        AddError(ManualInvalid);
      } else {
        RemoveError(ManualInvalid);
      }
      if manualValid && overrideValid == Some(true) {
        errors.bits := 0;
      }
      var afterErrors := errors.bits;
      if isValid != beforeValid || overrideValid != beforeOverride || afterErrors != beforeErrors {
        manualAdjusted := true;
      }
    }

    /** `get_measurement_data`: the times in `[adjusted close, adjusted
        open)` of the gas's instrument, in order, with the gas's value at
        each (NaN where missing); nothing for a gas without samples. */
    method GetMeasurementData(key: GasKey) returns (dts: seq<real>, vals: seq<F64>)
      ensures key !in gasV ==> dts == [] && vals == []
      ensures key in gasV ==>
        var dt := timing.GetDtV(key.id);
        var idx := InWindow(dt, timing.AdjustedClose(), timing.AdjustedOpen(), |dt|);
        dts == TimesAt(dt, idx) && vals == SamplesAt(gasV[key], idx)
    {
      var lo := timing.AdjustedClose();
      var hi := timing.AdjustedOpen();
      var dt := timing.GetDtV(key.id);
      if key !in gasV {
        return [], [];
      }
      var gas := gasV[key];
      dts, vals := [], [];
      for i := 0 to |dt|
        invariant dts == TimesAt(dt, InWindow(dt, lo, hi, i))
        invariant vals == SamplesAt(gas, InWindow(dt, lo, hi, i))
      {
        var t := dt[i];
        if lo <= t < hi {
          dts := dts + [t];
          var value := if i < |gas| && gas[i].Some? then gas[i].value else NaN;
          vals := vals + [value];
        }
      }
    }

    /** `set_open_lag`: the new lag, then every gas's window adjusted to the
        new bounds and moved to its lower bound. */
    method SetOpenLag(newLag: real)
      modifies timing
      ensures timing.Scalars() == old(timing.Scalars()).(openLag := newLag)
      ensures timing.Maps() == Relaid(old(timing.Maps()), gases, timing.AdjustedClose(), timing.AdjustedOpen(), timing.minCalcLen)
      ensures timing.TimeAxes() == old(timing.TimeAxes())
    {
      timing.SetOpenLag(newLag);
      timing.AdjustCalcRangeAll(gases);
      timing.StickCalcToRangeStartForAll(gases);
    }

    /** `increment_open_lag`: applied, with the windows relaid, only when
        both the adjusted open and the adjusted close time stay inside the
        cycle; so a cycle whose measurement lies inside it keeps it there. */
    method IncrementOpenLag(delta: real)
      modifies timing
      ensures var ok := old(timing.AdjustedOpen()) + delta <= old(timing.End()) &&
                        old(timing.AdjustedClose()) + delta >= old(timing.Start());
        if ok then
          timing.Scalars() == old(timing.Scalars()).(openLag := old(timing.openLag) + delta) &&
          timing.Maps() == Relaid(old(timing.Maps()), gases, timing.AdjustedClose(), timing.AdjustedOpen(), timing.minCalcLen) &&
          timing.AdjustedOpen() <= timing.End() && timing.AdjustedClose() >= timing.Start()
        else
          timing.Scalars() == old(timing.Scalars()) && timing.Maps() == old(timing.Maps())
      ensures timing.TimeAxes() == old(timing.TimeAxes())
    {
      if timing.AdjustedOpen() + delta <= timing.End() && timing.AdjustedClose() + delta >= timing.Start() {
        timing.IncrementOpenLag(delta);
        timing.AdjustCalcRangeAll(gases);
        timing.StickCalcToRangeStartForAll(gases);
      }
    }

    /** `increment_close_lag`: applied, with the windows relaid, only when
        the adjusted close time stays at or after the start. */
    method IncrementCloseLag(delta: real)
      modifies timing
      ensures var ok := old(timing.AdjustedClose()) + delta >= old(timing.Start());
        if ok then
          timing.Scalars() == old(timing.Scalars()).(closeLag := old(timing.closeLag) + delta) &&
          timing.Maps() == Relaid(old(timing.Maps()), gases, timing.AdjustedClose(), timing.AdjustedOpen(), timing.minCalcLen) &&
          timing.AdjustedClose() >= timing.Start()
        else
          timing.Scalars() == old(timing.Scalars()) && timing.Maps() == old(timing.Maps())
      ensures timing.TimeAxes() == old(timing.TimeAxes())
    {
      if timing.AdjustedClose() + delta >= timing.Start() {
        timing.IncrementCloseLag(delta);
        timing.AdjustCalcRangeAll(gases);
        timing.StickCalcToRangeStartForAll(gases);
      }
    }

    /** `increment_start_lag`: the timing's increment, nothing else. */
    method IncrementStartLag(delta: real)
      modifies timing
      ensures timing.Scalars() == old(timing.Scalars()).(startLag := old(timing.startLag) + delta)
      ensures timing.Maps() == old(timing.Maps()) && timing.TimeAxes() == old(timing.TimeAxes())
    {
      timing.IncrementStartLag(delta);
    }

    /** `increment_end_lag`: the timing's increment as written, which adds
        `delta` twice and takes back only the second addition when the end
        would fall before the adjusted open time. */
    method IncrementEndLag(delta: real)
      modifies timing
      ensures timing.Scalars() == old(timing.Scalars()).(endLag :=
        EndLagIncrementedAsWritten(old(timing.endLag), delta, old(timing.AdjustedOpen()), old(timing.EndTs()) as real))
      ensures timing.endLag == old(timing.endLag) + delta || timing.endLag == old(timing.endLag) + 2.0 * delta
      ensures timing.Maps() == old(timing.Maps()) && timing.TimeAxes() == old(timing.TimeAxes())
    {
      timing.IncrementEndLagAsWritten(delta);
    }

    /** `search_open_lag`: with the peak of the last quarter of the gas's
        samples found, the open lag is set so that the adjusted open time
        is the peak's time; otherwise nothing changes. */
    method SearchOpenLag(key: GasKey) returns (r: Option<real>)
      modifies timing
      ensures r == OpenLagPeak(gasV, key, old(timing.GetDtV(key.id)))
      ensures r.None? ==> timing.Scalars() == old(timing.Scalars()) && timing.Maps() == old(timing.Maps())
      ensures r.Some? ==>
        timing.Scalars() == old(timing.Scalars()).(openLag := r.value - (old(timing.startTs) + old(timing.openOffset)) as real) &&
        timing.AdjustedOpen() == r.value &&
        timing.Maps() == Relaid(old(timing.Maps()), gases, timing.AdjustedClose(), timing.AdjustedOpen(), timing.minCalcLen)
      ensures timing.TimeAxes() == old(timing.TimeAxes())
    {
      r := OpenLagPeak(gasV, key, timing.GetDtV(key.id));
      if r.Some? {
        SetOpenLag(r.value - (timing.startTs + timing.openOffset) as real);
      }
    }

    /** `get_peak_near_timestamp`: with the peak near the target time
        found, the open lag is set so that the adjusted open time is the
        peak's time; otherwise nothing changes. */
    method GetPeakNearTimestamp(key: GasKey, target: int) returns (r: Option<real>)
      modifies timing
      ensures r == PeakNear(gasV, key, old(timing.GetDtV(key.id)), target)
      ensures r.None? ==> timing.Scalars() == old(timing.Scalars()) && timing.Maps() == old(timing.Maps())
      ensures r.Some? ==>
        timing.Scalars() == old(timing.Scalars()).(openLag := r.value - (old(timing.startTs) + old(timing.openOffset)) as real) &&
        timing.AdjustedOpen() == r.value &&
        timing.Maps() == Relaid(old(timing.Maps()), gases, timing.AdjustedClose(), timing.AdjustedOpen(), timing.minCalcLen)
      ensures timing.TimeAxes() == old(timing.TimeAxes())
    {
      r := PeakNear(gasV, key, timing.GetDtV(key.id), target);
      if r.Some? {
        SetOpenLag(r.value - (timing.startTs + timing.openOffset) as real);
      }
    }
  }
}
