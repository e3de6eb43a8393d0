// Meteorological samples and the nearest-sample lookup
// (crates/fluxrs-core/src/data_formats/meteodata.rs).
module Meteo {
  import opened Wrappers

  const DefaultTemp: real := 10.0
  const DefaultPressure: real := 980.0
  /** The lookup accepts samples at most this many seconds from the target. */
  const MaxDistance: int := 1800

  /** Where a value came from. */
  datatype MeteoSource = Raw | Default | Missing

  /** `as_int`: a code that `from_int` maps back to the source. */
  function SourceAsInt(s: MeteoSource): (i: int)
    ensures SourceFromInt(i) == Some(s)
  {
    match s
    case Raw => 0
    case Default => 1
    case Missing => 2
  }

  function SourceFromInt(v: int): (r: Option<MeteoSource>)
    ensures r.Some? <==> 0 <= v <= 2
  {
    if v == 0 then Some(Raw)
    else if v == 1 then Some(Default)
    else if v == 2 then Some(Missing)
    else None
  }

  /** `from_int` undoes `as_int`. */
  lemma {:induction false} SourceIntRoundTrip(s: MeteoSource)
    ensures SourceFromInt(SourceAsInt(s)) == Some(s)
  {
  }

  /** A value, its origin and (for looked-up values) the signed distance
      `ts - target` in seconds of the sample it came from. */
  datatype MeteoPoint = MeteoPoint(value: Option<real>, source: MeteoSource, distance: Option<int>)

  /** `MeteoPoint::default()`: no value, and since its source is not
      Missing, `or_default` leaves it without one. */
  function DefaultPoint(): (p: MeteoPoint)
    ensures p.value.None? && p.distance.None?
    ensures forall d :: OrDefault(p, d) == p
  {
    MeteoPoint(None, Default, None)
  }

  /** The point reported for a quantity that has no usable sample. */
  function MissingPoint(): MeteoPoint
  {
    MeteoPoint(None, Missing, None)
  }

  /** `or_default`: a missing point becomes the caller's default. */
  function OrDefault(p: MeteoPoint, default: real): (r: MeteoPoint)
    ensures p.source == Missing ==> r == MeteoPoint(Some(default), Default, None)
    ensures p.source != Missing ==> r == p
  {
    match p.source
    case Missing => MeteoPoint(Some(default), Default, None)
    case _ => p
  }

  /** After `or_default` a point always has a value. */
  lemma {:induction false} OrDefaultHasValue(p: MeteoPoint, default: real)
    requires p.source == Missing || p.value.Some?
    ensures OrDefault(p, default).value.Some?
    ensures OrDefault(OrDefault(p, default), default) == OrDefault(p, default)
  {
  }

  /** Sample columns; the readers push to all three together. */
  datatype MeteoData = MeteoData(datetime: seq<int>, temperature: seq<MeteoPoint>, pressure: seq<MeteoPoint>)

  predicate WellFormed(m: MeteoData)
  {
    |m.temperature| == |m.datetime| && |m.pressure| == |m.datetime|
  }

  function AbsI(x: int): (r: int)
    ensures r >= 0 && (r == x || r == -x)
  {
    if x < 0 then -x else x
  }

  /** Sample `i` of `pts` may be used: within the window and with a value. */
  predicate Candidate(dt: seq<int>, pts: seq<MeteoPoint>, target: int, i: int)
    requires |pts| == |dt|
  {
    0 <= i < |dt| && AbsI(dt[i] - target) <= MaxDistance && pts[i].value.Some?
  }

  /** Among the candidates before `k`, `i` is a nearest one and the first such. */
  predicate NearestBelow(dt: seq<int>, pts: seq<MeteoPoint>, target: int, i: int, k: int)
    requires |pts| == |dt|
  {
    i < k && Candidate(dt, pts, target, i) &&
    (forall j {:trigger Candidate(dt, pts, target, j)} :: 0 <= j < k && Candidate(dt, pts, target, j) ==> AbsI(dt[i] - target) <= AbsI(dt[j] - target)) &&
    (forall j {:trigger Candidate(dt, pts, target, j)} :: 0 <= j < i && Candidate(dt, pts, target, j) ==> AbsI(dt[i] - target) < AbsI(dt[j] - target))
  }

  predicate Nearest(dt: seq<int>, pts: seq<MeteoPoint>, target: int, i: int)
    requires |pts| == |dt|
  {
    NearestBelow(dt, pts, target, i, |dt|)
  }

  ghost predicate HasCandidate(dt: seq<int>, pts: seq<MeteoPoint>, target: int)
    requires |pts| == |dt|
  {
    exists i :: Candidate(dt, pts, target, i)
  }

  /** The nearest sample is unique: ties go to the first index. */
  lemma {:induction false} NearestUnique(dt: seq<int>, pts: seq<MeteoPoint>, target: int, i: int, j: int)
    requires |pts| == |dt|
    requires Nearest(dt, pts, target, i) && Nearest(dt, pts, target, j)
    ensures i == j
  {
  }

  /** What one side of `get_nearest` reports: the nearest candidate with its
      signed distance, or a missing point when there is none. */
  ghost predicate SideResult(dt: seq<int>, pts: seq<MeteoPoint>, target: int, p: MeteoPoint)
    requires |pts| == |dt|
  {
    if HasCandidate(dt, pts, target) then
      exists i {:trigger Nearest(dt, pts, target, i)} :: Nearest(dt, pts, target, i) &&
        p == MeteoPoint(pts[i].value, pts[i].source, Some(dt[i] - target))
    else p == MissingPoint()
  }

  /** The running best of one side after the samples before `k`. */
  predicate BestSoFar(dt: seq<int>, pts: seq<MeteoPoint>, target: int, best: Option<(int, int)>, k: int)
    requires |pts| == |dt|
  {
    match best
    case None => forall j :: 0 <= j < k ==> !Candidate(dt, pts, target, j)
    case Some(b) => NearestBelow(dt, pts, target, b.0, k) && b.1 == dt[b.0] - target
  }

  /** One step of the scan for one side. */
  function Consider(dt: seq<int>, pts: seq<MeteoPoint>, target: int, best: Option<(int, int)>, idx: int): (r: Option<(int, int)>)
    requires |pts| == |dt| && 0 <= idx < |dt|
    requires AbsI(dt[idx] - target) <= MaxDistance
    requires BestSoFar(dt, pts, target, best, idx)
    ensures BestSoFar(dt, pts, target, r, idx + 1)
  {
    var signedDiff := dt[idx] - target;
    if pts[idx].value.None? then best
    else
      match best
      case None => Some((idx, signedDiff))
      case Some(b) => if AbsI(signedDiff) < AbsI(b.1) then Some((idx, signedDiff)) else best
  }

  /** A sample outside the window changes no running best. */
  lemma {:induction false} SkipFar(dt: seq<int>, pts: seq<MeteoPoint>, target: int, best: Option<(int, int)>, idx: int)
    requires |pts| == |dt| && 0 <= idx < |dt|
    requires AbsI(dt[idx] - target) > MaxDistance
    requires BestSoFar(dt, pts, target, best, idx)
    ensures BestSoFar(dt, pts, target, best, idx + 1)
  {
    assert !Candidate(dt, pts, target, idx);
  }

  /** The reported point of a side from its final running best. */
  function PointOf(pts: seq<MeteoPoint>, best: Option<(int, int)>): MeteoPoint
    requires best.Some? ==> 0 <= best.value.0 < |pts|
  {
    match best
    case None => MissingPoint()
    case Some(b) => MeteoPoint(pts[b.0].value, pts[b.0].source, Some(b.1))
  }

  lemma {:induction false} PointOfFinal(dt: seq<int>, pts: seq<MeteoPoint>, target: int, best: Option<(int, int)>)
    requires |pts| == |dt|
    requires BestSoFar(dt, pts, target, best, |dt|)
    ensures best.Some? ==> 0 <= best.value.0 < |pts|
    ensures best.None? <==> !HasCandidate(dt, pts, target)
    ensures best.Some? ==> SideResult(dt, pts, target, PointOf(pts, best))
    ensures best.None? ==> SideResult(dt, pts, target, MissingPoint())
  {
    match best
    case None =>
    case Some(b) =>
      var i := b.0;
      assert HasCandidate(dt, pts, target) by {
        assert Candidate(dt, pts, target, i);
      }
      assert SideResult(dt, pts, target, PointOf(pts, best)) by {
        assert Nearest(dt, pts, target, i) &&
          PointOf(pts, best) == MeteoPoint(pts[i].value, pts[i].source, Some(dt[i] - target));
      }
  }

  /** `get_nearest`: for temperature and pressure independently, the
      sample within 1800 s of the target with a value and the smallest
      distance (the first on ties); None when neither has one. */
  method GetNearest(m: MeteoData, target: int) returns (r: Option<(MeteoPoint, MeteoPoint)>)
    requires WellFormed(m)
    ensures r.None? <==> !HasCandidate(m.datetime, m.temperature, target) && !HasCandidate(m.datetime, m.pressure, target)
    ensures r.Some? ==> SideResult(m.datetime, m.temperature, target, r.value.0)
    ensures r.Some? ==> SideResult(m.datetime, m.pressure, target, r.value.1)
  {
    var dt := m.datetime;
    if |dt| == 0 {
      return None;
    }
    var bestTemp: Option<(int, int)> := None;
    var bestPress: Option<(int, int)> := None;
    var idx := 0;
    while idx < |dt|
      invariant 0 <= idx <= |dt|
      invariant BestSoFar(dt, m.temperature, target, bestTemp, idx)
      invariant BestSoFar(dt, m.pressure, target, bestPress, idx)
    {
      var signedDiff := dt[idx] - target;
      if AbsI(signedDiff) > MaxDistance {
        SkipFar(dt, m.temperature, target, bestTemp, idx);
        SkipFar(dt, m.pressure, target, bestPress, idx);
      } else {
        bestTemp := Consider(dt, m.temperature, target, bestTemp, idx);
        bestPress := Consider(dt, m.pressure, target, bestPress, idx);
      }
      idx := idx + 1;
    }
    PointOfFinal(dt, m.temperature, target, bestTemp);
    PointOfFinal(dt, m.pressure, target, bestPress);
    if bestTemp.None? && bestPress.None? {
      return None;
    }
    return Some((PointOf(m.temperature, bestTemp), PointOf(m.pressure, bestPress)));
  }
}
