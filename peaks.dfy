// The peak searches of a measurement cycle: the last maximum of the gas
// series that sets the open lag, and the local maximum near a chosen time
// (crates/fluxrs-core/src/cycle/cycle.rs).
module Peaks {
  import opened Wrappers
  import opened Floats

  // ------------------------------------------------ argmax over the peak

  /** `a > b` on `Option<f64>` under `partial_cmp(..).unwrap_or(Equal)`:
      None is below every Some, and NaN compares equal to everything. */
  predicate OptGt(a: Option<F64>, b: Option<F64>)
  {
    a.Some? && (b.None? || Lt(b.value, a.value))
  }

  /** No sample in `s[lo..hi]` is NaN. */
  predicate NoNaNIn(s: seq<Option<F64>>, lo: nat, hi: nat)
    requires lo <= hi <= |s|
  {
    forall i :: lo <= i < hi && s[i].Some? ==> !s[i].value.NaN?
  }

  /** `max_by` over the indices `lo..hi` of `s`: a left fold that moves to
      each later sample unless the one it holds is strictly greater, so the
      last of equal maxima wins. */
  function LastMaxIn(s: seq<Option<F64>>, lo: nat, hi: nat): (r: nat)
    requires lo < hi <= |s|
    ensures lo <= r < hi
    decreases hi - lo
  {
    if hi == lo + 1 then lo
    else
      var acc := LastMaxIn(s, lo, hi - 1);
      if OptGt(s[acc], s[hi - 1]) then acc else hi - 1
  }

  /** Not greater is a total preorder on samples that are not NaN. */
  lemma {:induction false} NotGtTransitive(a: Option<F64>, b: Option<F64>, c: Option<F64>)
    requires a.Some? ==> !a.value.NaN?
    requires b.Some? ==> !b.value.NaN?
    requires c.Some? ==> !c.value.NaN?
    requires !OptGt(a, b) && !OptGt(b, c)
    ensures !OptGt(a, c)
  {
    if a.Some? && b.Some? && c.Some? {
      LeTotal(a.value, b.value);
      LeTotal(b.value, c.value);
      LeTransitive(a.value, b.value, c.value);
      if Le(c.value, a.value) {
        LeAntisymmetric(a.value, c.value);
      }
    }
  }

  /** Without NaN the fold finds a maximum, and the last one: no sample in
      range is greater, and every later sample is smaller. */
  lemma {:induction false} LastMaxIsLastMaximum(s: seq<Option<F64>>, lo: nat, hi: nat)
    requires lo < hi <= |s| && NoNaNIn(s, lo, hi)
    ensures var r := LastMaxIn(s, lo, hi);
      (forall j :: lo <= j < hi ==> !OptGt(s[j], s[r])) &&
      (forall j :: r < j < hi ==> OptGt(s[r], s[j]))
    decreases hi - lo
  {
    if hi > lo + 1 {
      var acc := LastMaxIn(s, lo, hi - 1);
      LastMaxIsLastMaximum(s, lo, hi - 1);
      var y := s[hi - 1];
      if !OptGt(s[acc], y) {
        forall j | lo <= j < hi ensures !OptGt(s[j], y) {
          if j < hi - 1 {
            NotGtTransitive(s[j], s[acc], y);
          }
        }
      }
    }
  }

  /** NaN breaks the fold: with a NaN between 5 and 3 the fold ends on 3. */
  lemma NaNHidesPeak()
    ensures LastMaxIn([Some(Fin(5.0)), Some(NaN), Some(Fin(3.0))], 0, 3) == 2
  {
  }

  // ------------------------------------------------ nearest sample to a time

  const I64Max: int := 0x7fff_ffff_ffff_ffff
  const I64Min: int := -0x8000_0000_0000_0000

  /** `x as i64`: truncation toward zero, saturating at the i64 range. */
  function AsI64(x: real): (r: int)
    ensures I64Min <= r <= I64Max
    ensures I64Min as real <= x <= I64Max as real ==>
      (0.0 <= x ==> r as real <= x < r as real + 1.0) && (x < 0.0 ==> r as real - 1.0 < x <= r as real)
  {
    var t := if x >= 0.0 then x.Floor else -((-x).Floor);
    if t > I64Max then I64Max else if t < I64Min then I64Min else t
  }

  function AbsI(x: int): nat
  {
    if x < 0 then -x else x
  }

  /** The key of `min_by_key` in `get_peak_near_timestamp`. */
  function DistanceKeys(dt: seq<real>, target: int): (k: seq<nat>)
    ensures |k| == |dt| && forall i :: 0 <= i < |dt| ==> k[i] == AbsI(AsI64(dt[i]) - target)
  {
    seq(|dt|, i requires 0 <= i < |dt| => AbsI(AsI64(dt[i]) - target))
  }

  /** `min_by_key` over the first `hi` keys: the fold keeps what it holds
      unless a later key is strictly smaller. */
  function FirstMinIn(k: seq<nat>, hi: nat): (r: nat)
    requires 0 < hi <= |k|
    ensures r < hi
  {
    if hi == 1 then 0
    else
      var acc := FirstMinIn(k, hi - 1);
      if k[acc] > k[hi - 1] then hi - 1 else acc
  }

  /** The fold finds the first minimum. */
  lemma {:induction false} FirstMinIsFirstMinimum(k: seq<nat>, hi: nat)
    requires 0 < hi <= |k|
    ensures var r := FirstMinIn(k, hi);
      (forall j :: 0 <= j < hi ==> k[r] <= k[j]) && (forall j :: 0 <= j < r ==> k[j] > k[r])
  {
    if hi > 1 {
      FirstMinIsFirstMinimum(k, hi - 1);
    }
  }

  /** The samples `get_peak_near_timestamp` searches: five either side of
      the nearest index, the upper end cut at the last gas sample. */
  function PeakRange(nearest: nat, len: nat): (r: (nat, nat))
    requires len >= 1
    ensures r.0 <= nearest && r.1 <= len - 1
    ensures r.0 == (if nearest >= 5 then nearest - 5 else 0)
    ensures r.1 == (if nearest + 5 <= len - 1 then nearest + 5 else len - 1)
  {
    (if nearest >= 5 then nearest - 5 else 0, if nearest + 5 < len - 1 then nearest + 5 else len - 1)
  }

  /** The peak index `get_peak_near_timestamp` settles on, or None when the
      gas series is short, the time axis empty or the search range empty. */
  function PeakNearIndex(gas: seq<Option<F64>>, dt: seq<real>, target: int): (r: Option<nat>)
    ensures r.Some? ==> |gas| >= 120 && |dt| > 0 && r.value < |gas|
  {
    if |gas| < 120 || |dt| == 0 then None
    else
      var nearest := FirstMinIn(DistanceKeys(dt, target), |dt|);
      var range := PeakRange(nearest, |gas|);
      if range.0 > range.1 then None
      else Some(LastMaxIn(gas, range.0, range.1 + 1))
  }

  /** The chosen peak is within five samples of the nearest sample to the
      target, and, without NaN in the range, a last maximum of it. */
  lemma {:induction false} PeakNearIndexIsLocalMaximum(gas: seq<Option<F64>>, dt: seq<real>, target: int)
    requires |gas| >= 120 && |dt| > 0
    requires var rg := PeakRange(FirstMinIn(DistanceKeys(dt, target), |dt|), |gas|);
      rg.0 <= rg.1 ==> NoNaNIn(gas, rg.0, rg.1 + 1)
    ensures var keys := DistanceKeys(dt, target);
      var n := FirstMinIn(keys, |dt|);
      var r := PeakNearIndex(gas, dt, target);
      (forall j :: 0 <= j < |dt| ==> keys[n] <= keys[j]) &&
      (r.Some? ==> (n - 5 <= r.value <= n + 5 &&
        forall j :: PeakRange(n, |gas|).0 <= j <= PeakRange(n, |gas|).1 ==> !OptGt(gas[j], gas[r.value]))) &&
      (r.None? <==> n >= |gas| + 5)
  {
    var keys := DistanceKeys(dt, target);
    var n := FirstMinIn(keys, |dt|);
    FirstMinIsFirstMinimum(keys, |dt|);
    var range := PeakRange(n, |gas|);
    if range.0 <= range.1 {
      LastMaxIsLastMaximum(gas, range.0, range.1 + 1);
    }
  }

  // ------------------------------------------------------- search_open_lag

  /** The peak index `search_open_lag` settles on: the last maximum over the
      last quarter of the gas series, or None for fewer than 120 samples. */
  function OpenLagPeakIndex(gas: seq<Option<F64>>): (r: Option<nat>)
    ensures r.Some? <==> |gas| >= 120
    ensures r.Some? ==> |gas| - |gas| / 4 <= r.value < |gas|
  {
    if |gas| < 120 then None
    else LastMaxLastQuarter(gas)
  }

  function LastMaxLastQuarter(gas: seq<Option<F64>>): (r: Option<nat>)
    requires |gas| >= 120
    ensures r.Some? && |gas| - |gas| / 4 <= r.value < |gas|
  {
    Some(LastMaxIn(gas, |gas| - |gas| / 4, |gas|))
  }

  /** Without NaN in the last quarter, the chosen sample is its last
      maximum. */
  lemma {:induction false} OpenLagPeakIsLastMaximum(gas: seq<Option<F64>>)
    requires |gas| >= 120 && NoNaNIn(gas, |gas| - |gas| / 4, |gas|)
    ensures var i := OpenLagPeakIndex(gas).value;
      (forall j :: |gas| - |gas| / 4 <= j < |gas| ==> !OptGt(gas[j], gas[i])) &&
      (forall j :: i < j < |gas| ==> OptGt(gas[i], gas[j]))
  {
    LastMaxIsLastMaximum(gas, |gas| - |gas| / 4, |gas|);
  }
}
