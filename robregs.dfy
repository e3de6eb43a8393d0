// Huber-weighted robust line fit, `crates/fluxrs-core/src/stats/robreg.rs`.
// Arithmetic on finite samples is exact; the NaN coefficients that a
// negative threshold or a zero weight sum produce are tracked as a state.
module RobRegs {
  import opened Wrappers
  import opened Floats
  import opened Sums
  import opened Sorting
  import opened LinRegs
  import opened Stats

  datatype RobReg = RobReg(intercept: F64, slope: F64)

  /** `RobReg::new()`. */
  function New(): (r: RobReg)
    ensures forall x: F64 :: x.Fin? ==> Calculate(r, x) == Fin(0.0)
  {
    RobReg(Fin(0.0), Fin(0.0))
  }

  /** `intercept + slope * x`. */
  function Calculate(m: RobReg, x: F64): (r: F64)
    ensures m.intercept.Fin? && m.slope.Fin? && x.Fin? ==>
              r == Fin(m.intercept.v + m.slope.v * x.v)
    ensures m.intercept.NaN? || m.slope.NaN? ==> r.NaN?
  {
    Add(m.intercept, Mul(m.slope, x))
  }

  /** The closeness threshold of the least-squares passes. */
  const Tiny: real := 0.000000000001

  /** The fraction of points `train` trims from each end. */
  const TrimFraction: real := 0.1

  datatype Coeffs = Coeffs(slope: real, intercept: real)

  /** The least-squares pass of `trimmed_ols` (and of the unused `ols`):
      None when x is (nearly) constant. */
  function Ols(x: seq<real>, y: seq<real>): (r: Option<Coeffs>)
    requires |x| == |y|
    ensures r.Some? <==> |x| > 0 && SumSqDev(x, Mean(x)) >= Tiny
  {
    if |x| == 0 then None
    else
      var xMean, yMean := Mean(x), Mean(y);
      var sxx := SumSqDev(x, xMean);
      var sxy := SumProdDev(x, xMean, y, yMean);
      assert sxx >= 0.0 by {
        SumSqDevNonNegative(x, xMean);
      }
      if AbsR(sxx) < Tiny then None
      else
        var slope := sxy / sxx;
        Some(Coeffs(slope, yMean - Prod(slope, xMean)))
  }

  /** The fit solves the normal equations: the slope times the spread of
      x is the cross deviation, and the line passes through the means. */
  lemma {:induction false} OlsNormalEquations(x: seq<real>, y: seq<real>)
    requires |x| == |y| && Ols(x, y).Some?
    ensures var c, mx, my := Ols(x, y).value, Mean(x), Mean(y);
      Prod(c.slope, SumSqDev(x, mx)) == SumProdDev(x, mx, y, my) && c.intercept + Prod(c.slope, mx) == my
  {
    var mx, my := Mean(x), Mean(y);
    var sxx, sxy := SumSqDev(x, mx), SumProdDev(x, mx, y, my);
    QuotientTimes(sxy, sxx);
  }

  /** Points exactly on a line give back that line, unless x is too
      nearly constant. */
  lemma {:induction false} OlsOnLine(x: seq<real>, y: seq<real>, a: real, b: real)
    requires OnLine(x, y, a, b)
    ensures Ols(x, y) == if |x| == 0 || SumSqDev(x, Mean(x)) < Tiny then None else Some(Coeffs(b, a))
  {
    if |x| > 0 && SumSqDev(x, Mean(x)) >= Tiny {
      var mx, my := Mean(x), Mean(y);
      var ssXX, ssXY := SumSqDev(x, mx), SumProdDev(x, mx, y, my);
      assert my == a + Prod(b, mx) by {
        MeanOfLine(x, y, a, b);
      }
      assert ssXY / ssXX == b by {
        SlopeOnLine(x, y, a, b);
      }
      assert Ols(x, y) == Some(Coeffs(ssXY / ssXX, my - Prod(ssXY / ssXX, mx)));
    }
  }

  /** A sample with the absolute residual of the first pass. */
  datatype Point = Point(x: real, y: real, res: real)

  function Points(x: seq<real>, y: seq<real>, c: Coeffs): (r: seq<Point>)
    requires |x| == |y|
    ensures |r| == |x|
    ensures forall i :: 0 <= i < |x| ==>
              r[i] == Point(x[i], y[i], AbsR(Residual(c, x[i], y[i])))
  {
    seq(|x|, i requires 0 <= i < |x| => Point(x[i], y[i], AbsR(Residual(c, x[i], y[i]))))
  }

  function Residual(c: Coeffs, x: real, y: real): real
  {
    y - (c.intercept + c.slope * x)
  }

  function Xs(p: seq<Point>): (r: seq<real>)
    ensures |r| == |p| && forall i :: 0 <= i < |p| ==> r[i] == p[i].x
  {
    seq(|p|, i requires 0 <= i < |p| => p[i].x)
  }

  function Ys(p: seq<Point>): (r: seq<real>)
    ensures |r| == |p| && forall i :: 0 <= i < |p| ==> r[i] == p[i].y
  {
    seq(|p|, i requires 0 <= i < |p| => p[i].y)
  }

  /** `total_cmp` on the residuals, which are finite and not negative. */
  predicate ResLe(p: Point, q: Point)
  {
    p.res <= q.res
  }

  lemma {:induction false} ResLeTotalPreorder()
    ensures TotalPreorder(ResLe)
  {
  }

  /** `floor(n · trim_frac)`. */
  function TrimCount(n: nat, trimFrac: real): (t: nat)
    requires 0.0 <= trimFrac < 0.5
    ensures t as real <= Prod(n as real, trimFrac) < t as real + 1.0
    ensures n > 0 ==> 2 * t < n
  {
    TrimmedShare(n as real, trimFrac);
    Prod(n as real, trimFrac).Floor
  }

  lemma {:induction false} TrimmedShare(n: real, f: real)
    requires n >= 0.0 && 0.0 <= f < 0.5
    ensures 0.0 <= Prod(n, f) && (n > 0.0 ==> 2.0 * Prod(n, f) < n)
  {
    NonNegativeProduct(n, f);
    if n > 0.0 {
      NonNegativeProduct(n, 0.5 - f);
      assert Prod(n, 0.5 - f) == 0.5 * n - Prod(n, f);
      PositiveProduct(n, 0.5 - f);
    }
  }

  /** `trimmed_ols`: a least-squares fit, then a second one on the points
      left after dropping the `floor(n · trim_frac)` smallest and largest
      absolute residuals. */
  function TrimmedOls(x: seq<F64>, y: seq<F64>, trimFrac: real): (r: Option<Coeffs>)
    ensures r.Some? ==> |x| == |y| && |x| >= 3 && AllFinite(x) && AllFinite(y)
    ensures r.Some? ==> 0.0 <= trimFrac < 0.5
  {
    if |x| != |y| || |x| < 3 then None
    else if !(0.0 <= trimFrac < 0.5) then None
    else if !AllFinite(x) || !AllFinite(y) then None
    else
      var xv, yv := Values(x), Values(y);
      match Ols(xv, yv)
      case None => None
      case Some(first) => SecondPass(xv, yv, first, TrimCount(|x|, trimFrac))
  }

  /** The trimmed fit needs the spread of x that the first pass checks. */
  lemma {:induction false} TrimmedNeedsSpread(x: seq<F64>, y: seq<F64>, trimFrac: real)
    requires TrimmedOls(x, y, trimFrac).Some?
    ensures AllFinite(x) && SumSqDev(Values(x), Mean(Values(x))) >= Tiny
  {
  }

  /** The second least-squares pass of `trimmed_ols`, over the points left
      after sorting by absolute residual against the first fit and dropping
      `trimN` from each end. */
  function SecondPass(xv: seq<real>, yv: seq<real>, first: Coeffs, trimN: nat): (r: Option<Coeffs>)
    requires |xv| == |yv|
    ensures r.Some? ==> |xv| - 2 * trimN >= 2
  {
    var n := |xv|;
    var sorted := Sort(Points(xv, yv, first), ResLe);
    if trimN * 2 >= n then None
    else
      var trimmed := sorted[trimN..n - trimN];
      if |trimmed| < 2 then None
      else Ols(Xs(trimmed), Ys(trimmed))
  }

  /** The points the second pass keeps have absolute residuals no smaller
      than those trimmed from the bottom and no larger than those trimmed
      from the top. */
  lemma {:induction false} TrimmedKeepsMiddle(xv: seq<real>, yv: seq<real>, c: Coeffs, t: nat)
    requires |xv| == |yv| && 2 * t < |xv|
    ensures var s := Sort(Points(xv, yv, c), ResLe);
      forall i, j :: 0 <= i < t <= j < |s| - t ==> s[i].res <= s[j].res
    ensures var s := Sort(Points(xv, yv, c), ResLe);
      forall i, j :: t <= i < |s| - t <= j < |s| ==> s[i].res <= s[j].res
    ensures multiset(Sort(Points(xv, yv, c), ResLe)) == multiset(Points(xv, yv, c))
  {
    ResLeTotalPreorder();
    SortSorted(Points(xv, yv, c), ResLe);
    SortPermutes(Points(xv, yv, c), ResLe);
  }

  /** On a line only the spread of x decides: the first pass needs all
      of x, the second the middle points, which sorting ties leave in
      input order. */
  lemma {:induction false} TrimmedOlsOnLine(x: seq<F64>, y: seq<F64>, trimFrac: real, a: real, b: real)
    requires |x| == |y| >= 3 && AllFinite(x) && AllFinite(y) && 0.0 <= trimFrac < 0.5
    requires OnLine(Values(x), Values(y), a, b)
    ensures var t := TrimCount(|x|, trimFrac);
      var xm := Values(x)[t..|x| - t];
      TrimmedOls(x, y, trimFrac) ==
        if SumSqDev(Values(x), Mean(Values(x))) < Tiny || |xm| < 2 || SumSqDev(xm, Mean(xm)) < Tiny
        then None else Some(Coeffs(b, a))
  {
    var xv, yv := Values(x), Values(y);
    OlsOnLine(xv, yv, a, b);
    if SumSqDev(xv, Mean(xv)) >= Tiny {
      SecondPassOnLine(xv, yv, TrimCount(|x|, trimFrac), a, b);
    }
  }

  /** Against the exact line every residual is 0, so sorting by residual
      leaves the points in input order. */
  lemma {:induction false} SortedOnLine(xv: seq<real>, yv: seq<real>, a: real, b: real)
    requires OnLine(xv, yv, a, b)
    ensures Sort(Points(xv, yv, Coeffs(b, a)), ResLe) == Points(xv, yv, Coeffs(b, a))
  {
    var pts := Points(xv, yv, Coeffs(b, a));
    assert forall i :: 0 <= i < |pts| ==> pts[i].res == 0.0 by {
      ZeroResiduals(xv, yv, a, b);
    }
    SortAllTied(pts, ResLe);
  }

  lemma {:induction false} ZeroResiduals(xv: seq<real>, yv: seq<real>, a: real, b: real)
    requires OnLine(xv, yv, a, b)
    ensures forall i :: 0 <= i < |xv| ==> Points(xv, yv, Coeffs(b, a))[i].res == 0.0
  {
    forall i | 0 <= i < |xv|
      ensures Points(xv, yv, Coeffs(b, a))[i].res == 0.0
    {
      OnLineAt(xv, yv, a, b, i);
    }
  }

  /** A run of points carries the same run of the samples. */
  lemma {:induction false} PointsSlice(xv: seq<real>, yv: seq<real>, c: Coeffs, lo: nat, hi: nat)
    requires |xv| == |yv| && lo <= hi <= |xv|
    ensures Xs(Points(xv, yv, c)[lo..hi]) == xv[lo..hi]
    ensures Ys(Points(xv, yv, c)[lo..hi]) == yv[lo..hi]
  {
  }

  /** On an exact line the second pass fits the middle of x. */
  lemma {:induction false} SecondPassOnLine(xv: seq<real>, yv: seq<real>, t: nat, a: real, b: real)
    requires OnLine(xv, yv, a, b)
    ensures 2 * t >= |xv| ==> SecondPass(xv, yv, Coeffs(b, a), t) == None
    ensures 2 * t < |xv| ==> var xm := xv[t..|xv| - t];
      SecondPass(xv, yv, Coeffs(b, a), t) ==
        if |xm| < 2 || SumSqDev(xm, Mean(xm)) < Tiny then None else Some(Coeffs(b, a))
  {
    var n := |xv|;
    var pts := Points(xv, yv, Coeffs(b, a));
    if 2 * t < n {
      var xm, ym := xv[t..n - t], yv[t..n - t];
      assert Ols(xm, ym) == if |xm| == 0 || SumSqDev(xm, Mean(xm)) < Tiny then None else Some(Coeffs(b, a)) by {
        OnLineSlice(xv, yv, a, b, t, n - t);
        OlsOnLine(xm, ym, a, b);
      }
      assert Xs(pts[t..n - t]) == xm && Ys(pts[t..n - t]) == ym by {
        PointsSlice(xv, yv, Coeffs(b, a), t, n - t);
      }
    }
    SortedOnLine(xv, yv, a, b);
  }

  // ---------------------------------------------------------------- reweighting

  /** The coefficients between iterations: finite, or NaN once a weight
      or the weight sum makes the weighted means NaN. NaN then stays. */
  datatype State = Line(slope: real, intercept: real) | NaNLine

  /** `y[i] - (intercept + slope·x[i])`. */
  function Residuals(x: seq<real>, y: seq<real>, slope: real, intercept: real): (r: seq<real>)
    requires |x| == |y|
    ensures |r| == |x| && forall i :: 0 <= i < |x| ==> r[i] == y[i] - (intercept + Prod(slope, x[i]))
  {
    seq(|x|, i requires 0 <= i < |x| => y[i] - (intercept + Prod(slope, x[i])))
  }

  /** `weight_huber(r / scale, k)` for every residual. */
  function Weights(res: seq<real>, scale: real, k: real): (w: seq<F64>)
    requires scale != 0.0
    ensures |w| == |res| && forall i :: 0 <= i < |res| ==> w[i] == WeightHuber(res[i] / scale, k)
  {
    seq(|res|, i requires 0 <= i < |res| => WeightHuber(res[i] / scale, k))
  }

  /** Σ x[i]·w[i]. */
  function WSum(w: seq<real>, x: seq<real>): real
    requires |w| == |x|
  {
    if w == [] then 0.0 else Prod(x[0], w[0]) + WSum(w[1..], x[1..])
  }

  /** Σ w[i]·(x[i] - c)². */
  function WSqDev(w: seq<real>, x: seq<real>, c: real): real
    requires |w| == |x|
  {
    if w == [] then 0.0 else Prod(w[0], Sq(x[0] - c)) + WSqDev(w[1..], x[1..], c)
  }

  /** Σ w[i]·(x[i] - cx)·(y[i] - cy). */
  function WProdDev(w: seq<real>, x: seq<real>, cx: real, y: seq<real>, cy: real): real
    requires |w| == |x| == |y|
  {
    if w == [] then 0.0 else Prod(w[0], Prod(x[0] - cx, y[0] - cy)) + WProdDev(w[1..], x[1..], cx, y[1..], cy)
  }

  /** With every weight 1 the weighted sums are the plain ones. */
  lemma {:induction false} UnitWeights(w: seq<real>, x: seq<real>, cx: real, y: seq<real>, cy: real)
    requires |w| == |x| == |y|
    requires forall i :: 0 <= i < |w| ==> w[i] == 1.0
    ensures Sum(w) == |w| as real
    ensures WSum(w, x) == Sum(x) && WSum(w, y) == Sum(y)
    ensures WSqDev(w, x, cx) == SumSqDev(x, cx)
    ensures WProdDev(w, x, cx, y, cy) == SumProdDev(x, cx, y, cy)
  {
    if w != [] {
      UnitWeights(w[1..], x[1..], cx, y[1..], cy);
    }
  }

  /** One pass of the loop of `train`. None is the early return for a
      weighted spread of x below the threshold. */
  function Reweight(x: seq<real>, y: seq<real>, k: real, s: State): (r: Option<State>)
    requires |x| == |y| && |x| > 0
    ensures s.NaNLine? ==> r == Some(NaNLine)
  {
    match s
    case NaNLine => Some(NaNLine)
    case Line(slope, intercept) =>
      var res := Residuals(x, y, slope, intercept);
      var scale := MadOf(Fins(res));
      MadFinite(Fins(res));
      MadAtLeastFloor(Fins(res));
      WeightedFit(x, y, Weights(res, scale.v, k))
  }

  /** The weighted least-squares step of a pass. A non-finite weight or a
      zero weight sum makes the weighted means NaN. */
  function WeightedFit(x: seq<real>, y: seq<real>, w: seq<F64>): (r: Option<State>)
    requires |x| == |y| == |w|
    ensures !AllFinite(w) ==> r == Some(NaNLine)
  {
    if !AllFinite(w) then Some(NaNLine)
    else
      var wv := Values(w);
      var wSum := Sum(wv);
      if wSum == 0.0 then Some(NaNLine)
      else
        var xwMean := WSum(wv, x) / wSum;
        var ywMean := WSum(wv, y) / wSum;
        var sxxW := WSqDev(wv, x, xwMean);
        var sxyW := WProdDev(wv, x, xwMean, y, ywMean);
        if AbsR(sxxW) < Tiny then None
        else
          var newSlope := sxyW / sxxW;
          Some(Line(newSlope, ywMean - Prod(newSlope, xwMean)))
  }

  /** With unit weights the weighted step is the plain least-squares fit. */
  lemma {:induction false} WeightedFitUnit(x: seq<real>, y: seq<real>, w: seq<F64>)
    requires |x| == |y| == |w| > 0
    requires forall i :: 0 <= i < |w| ==> w[i] == Fin(1.0)
    ensures WeightedFit(x, y, w) == match Ols(x, y)
      case None => None
      case Some(c) => Some(Line(c.slope, c.intercept))
  {
    var wv := Values(w);
    assert forall i :: 0 <= i < |wv| ==> wv[i] == 1.0;
    var mx, my := Mean(x), Mean(y);
    assert Sum(wv) == |x| as real && WSum(wv, x) == Sum(x) && WSum(wv, y) == Sum(y) by {
      UnitWeights(wv, x, mx, y, my);
    }
    assert WSum(wv, x) / Sum(wv) == mx && WSum(wv, y) / Sum(wv) == my;
    assert WSqDev(wv, x, mx) == SumSqDev(x, mx) && WProdDev(wv, x, mx, y, my) == SumProdDev(x, mx, y, my) by {
      UnitWeights(wv, x, mx, y, my);
    }
  }

  /** `n` passes of `step`, stopping at the first that returns None. */
  function Loop(step: State -> Option<State>, s: State, n: nat): Option<State>
    decreases n
  {
    if n == 0 then Some(s)
    else
      match step(s)
      case None => None
      case Some(s') => Loop(step, s', n - 1)
  }

  /** The pass over fixed samples and threshold, as a step function. */
  function Pass(x: seq<real>, y: seq<real>, k: real): State -> Option<State>
  {
    s => if |x| == |y| && |x| > 0 then Reweight(x, y, k, s) else None
  }

  /** A state that a pass keeps is kept by every number of passes. */
  lemma {:induction false} LoopFixed(step: State -> Option<State>, s: State, n: nat)
    requires step(s) == Some(s)
    ensures Loop(step, s, n) == Some(s)
    decreases n
  {
    if n > 0 {
      LoopFixed(step, s, n - 1);
    }
  }

  /** A pass into a state that passes keep: every later pass keeps it. */
  lemma {:induction false} LoopAbsorbed(step: State -> Option<State>, s: State, t: State, n: nat)
    requires n > 0 && step(s) == Some(t) && step(t) == Some(t)
    ensures Loop(step, s, n) == Some(t)
  {
    LoopFixed(step, t, n - 1);
  }

  /** `x[i] - x[0]`. */
  function Normalized(x: seq<F64>): (r: seq<F64>)
    requires |x| > 0
    ensures |r| == |x| && forall i :: 0 <= i < |x| ==> r[i] == Sub(x[i], x[0])
  {
    seq(|x|, i requires 0 <= i < |x| => Sub(x[i], x[0]))
  }

  /** Shifting by the first sample keeps exactly the finite samples finite
      (shifting by a non-finite first sample makes it NaN). */
  lemma {:induction false} NormalizedFinite(x: seq<F64>)
    requires |x| > 0
    ensures AllFinite(Normalized(x)) <==> AllFinite(x)
    ensures AllFinite(x) ==> Values(Normalized(x)) == Shifted(Values(x), x[0].v)
  {
    var r := Normalized(x);
    if AllFinite(r) {
      assert r[0].Fin?;
      forall i | 0 <= i < |x| ensures x[i].Fin? {
        assert r[i].Fin?;
      }
    }
  }

  function Output(s: State): RobReg
  {
    match s
    case Line(slope, intercept) => RobReg(Fin(intercept), Fin(slope))
    case NaNLine => RobReg(NaN, NaN)
  }

  /** What `RobReg::train` returns. */
  function TrainOf(x: seq<F64>, y: seq<F64>, k: real, maxIter: nat): (r: Option<RobReg>)
    ensures r.Some? ==> |x| == |y| && |x| >= 3 && AllFinite(x) && AllFinite(y)
  {
    if |x| != |y| || |x| < 2 then None
    else
      var xNorm := Normalized(x);
      match TrimmedOls(xNorm, y, TrimFraction)
      case None => None
      case Some(c) =>
        NormalizedFinite(x);
        match Loop(Pass(Values(xNorm), Values(y), k), Line(c.slope, c.intercept), maxIter)
        case None => None
        case Some(s) => Some(Output(s))
  }

  /** `RobReg::train`. */
  method Train(x: seq<F64>, y: seq<F64>, k: real, maxIter: nat) returns (r: Option<RobReg>)
    ensures r == TrainOf(x, y, k, maxIter)
  {
    if |x| != |y| || |x| < 2 {
      return None;
    }
    var xNorm := Normalized(x);
    var start := TrimmedOls(xNorm, y, TrimFraction);
    if start.None? {
      return None;
    }
    NormalizedFinite(x);
    var xv, yv := Values(xNorm), Values(y);
    var s := Refine(Pass(xv, yv, k), Line(start.value.slope, start.value.intercept), maxIter);
    if s.None? {
      return None;
    }
    r := Some(Output(s.value));
  }

  /** The reweighting loop of `RobReg::train`: up to `maxIter` passes of
      `step` from `start`, returning early when a pass does. */
  method Refine(step: State -> Option<State>, start: State, maxIter: nat) returns (r: Option<State>)
    ensures r == Loop(step, start, maxIter)
  {
    var s := start;
    var left := maxIter;
    while left > 0
      invariant Loop(step, s, left) == Loop(step, start, maxIter)
    {
      var next := step(s);
      if next.None? {
        return None;
      }
      s := next.value;
      left := left - 1;
    }
    return Some(s);
  }

  // ---------------------------------------------------------------- properties

  /** `train` needs two points and `trimmed_ols` three. */
  lemma {:induction false} TrainNeedsThreePoints(x: seq<F64>, y: seq<F64>, k: real, maxIter: nat)
    requires |x| != |y| || |x| < 3
    ensures TrainOf(x, y, k, maxIter) == None
  {
  }

  /** A non-finite sample rejects the data. */
  lemma {:induction false} TrainRejectsNonFinite(x: seq<F64>, y: seq<F64>, k: real, maxIter: nat)
    requires !AllFinite(x) || !AllFinite(y)
    ensures TrainOf(x, y, k, maxIter) == None
  {
  }

  /** On an exact line with a non-negative threshold a pass keeps the line:
      the residuals vanish, every weight is 1 and the weighted fit is the
      plain one. */
  lemma {:induction false} ReweightOnLine(x: seq<real>, y: seq<real>, k: real, a: real, b: real)
    requires |x| > 0 && OnLine(x, y, a, b) && k >= 0.0
    ensures Reweight(x, y, k, Line(b, a)) == if SumSqDev(x, Mean(x)) < Tiny then None else Some(Line(b, a))
  {
    var res := Residuals(x, y, b, a);
    assert MadOf(Fins(res)) == Fin(MadFloor) by {
      ZeroResidualsOnLine(x, y, a, b);
      MadOfConstant(Fins(res), 0.0);
    }
    var w := Weights(res, MadFloor, k);
    assert forall i :: 0 <= i < |w| ==> w[i] == Fin(1.0) by {
      ZeroResidualsOnLine(x, y, a, b);
    }
    assert Reweight(x, y, k, Line(b, a)) == WeightedFit(x, y, w);
    WeightedFitUnit(x, y, w);
    OlsOnLine(x, y, a, b);
  }

  /** Against the exact line every residual is 0. */
  lemma {:induction false} ZeroResidualsOnLine(x: seq<real>, y: seq<real>, a: real, b: real)
    requires OnLine(x, y, a, b)
    ensures forall i :: 0 <= i < |x| ==> Residuals(x, y, b, a)[i] == 0.0
    ensures forall i :: 0 <= i < |x| ==> Fins(Residuals(x, y, b, a))[i] == Fin(0.0)
  {
    forall i | 0 <= i < |x|
      ensures Residuals(x, y, b, a)[i] == 0.0
    {
      OnLineAt(x, y, a, b, i);
    }
  }

  /** Every pass keeps the exact line. */
  lemma {:induction false} IterateOnLine(x: seq<real>, y: seq<real>, k: real, a: real, b: real, n: nat)
    requires |x| > 0 && OnLine(x, y, a, b) && k >= 0.0 && SumSqDev(x, Mean(x)) >= Tiny
    ensures Loop(Pass(x, y, k), Line(b, a), n) == Some(Line(b, a))
  {
    assert Pass(x, y, k)(Line(b, a)) == Some(Line(b, a)) by {
      ReweightOnLine(x, y, k, a, b);
    }
    LoopFixed(Pass(x, y, k), Line(b, a), n);
  }

  /** Once NaN, always NaN. */
  lemma {:induction false} IterateNaN(x: seq<real>, y: seq<real>, k: real, n: nat)
    requires |x| == |y| && |x| > 0
    ensures Loop(Pass(x, y, k), NaNLine, n) == Some(NaNLine)
  {
    assert Pass(x, y, k)(NaNLine) == Some(NaNLine);
    LoopFixed(Pass(x, y, k), NaNLine, n);
  }

  /** Samples on `y = a + b·x` give back the line in the shifted
      coordinates: slope b and, at the first x, the intercept a + b·x[0].
      The only failures are the spread checks of the least-squares passes. */
  lemma {:induction false} TrainOnLine(x: seq<F64>, y: seq<F64>, k: real, maxIter: nat, a: real, b: real)
    requires |x| == |y| >= 3 && AllFinite(x) && AllFinite(y) && k >= 0.0
    requires OnLine(Values(x), Values(y), a, b)
    requires TrimmedOls(Normalized(x), y, TrimFraction).Some?
    ensures TrainOf(x, y, k, maxIter) == Some(RobReg(Fin(a + Prod(b, x[0].v)), Fin(b)))
  {
    StartOnLine(x, y, a, b);
    TrainOnShiftedLine(x, y, k, maxIter, a + Prod(b, x[0].v), b);
  }

  /** The passes after a starting fit that already is the exact line of the
      shifted samples. */
  lemma {:induction false} TrainOnShiftedLine(x: seq<F64>, y: seq<F64>, k: real, maxIter: nat, a: real, b: real)
    requires |x| == |y| >= 3 && AllFinite(x) && AllFinite(y) && k >= 0.0
    requires AllFinite(Normalized(x)) && OnLine(Values(Normalized(x)), Values(y), a, b)
    requires TrimmedOls(Normalized(x), y, TrimFraction) == Some(Coeffs(b, a))
    ensures TrainOf(x, y, k, maxIter) == Some(RobReg(Fin(a), Fin(b)))
  {
    var xv, yv := Values(Normalized(x)), Values(y);
    TrimmedNeedsSpread(Normalized(x), y, TrimFraction);
    IterateOnLine(xv, yv, k, a, b, maxIter);
    TrainOfParts(x, y, k, maxIter, Coeffs(b, a), Line(b, a));
  }

  /** `train` fails when the trimmed starting fit fails. */
  lemma {:induction false} TrainNeedsStart(x: seq<F64>, y: seq<F64>, k: real, maxIter: nat)
    requires |x| > 0 && TrimmedOls(Normalized(x), y, TrimFraction).None?
    ensures TrainOf(x, y, k, maxIter) == None
  {
  }

  /** The starting fit for samples on `y = a + b·x`: slope b and intercept
      a + b·x[0] in the shifted coordinates, on which the samples again lie
      on a line. */
  lemma {:induction false} StartOnLine(x: seq<F64>, y: seq<F64>, a: real, b: real)
    requires |x| == |y| >= 3 && AllFinite(x) && AllFinite(y)
    requires OnLine(Values(x), Values(y), a, b)
    ensures AllFinite(Normalized(x))
    ensures OnLine(Values(Normalized(x)), Values(y), a + Prod(b, x[0].v), b)
    ensures TrimmedOls(Normalized(x), y, TrimFraction).Some? ==>
              TrimmedOls(Normalized(x), y, TrimFraction).value == Coeffs(b, a + Prod(b, x[0].v))
  {
    var xNorm := Normalized(x);
    NormalizedFinite(x);
    OnLineShifted(Values(x), Values(y), a, b, x[0].v);
    TrimmedOlsOnLine(xNorm, y, TrimFraction, a + Prod(b, x[0].v), b);
  }

  /** `train` is the trimmed fit followed by the passes. */
  lemma {:induction false} TrainOfParts(x: seq<F64>, y: seq<F64>, k: real, maxIter: nat, c: Coeffs, s: State)
    requires |x| == |y| >= 3 && AllFinite(x) && AllFinite(y)
    requires TrimmedOls(Normalized(x), y, TrimFraction) == Some(c)
    requires AllFinite(Normalized(x)) && Loop(Pass(Values(Normalized(x)), Values(y), k), Line(c.slope, c.intercept), maxIter) == Some(s)
    ensures TrainOf(x, y, k, maxIter) == Some(Output(s))
  {
  }

  /** A negative threshold weighs a zero residual by k/0 = -∞, so a pass
      over an exact line gives NaN coefficients rather than an error. */
  lemma {:induction false} ReweightOnLineNegative(x: seq<real>, y: seq<real>, k: real, a: real, b: real)
    requires |x| > 0 && OnLine(x, y, a, b) && k < 0.0
    ensures Reweight(x, y, k, Line(b, a)) == Some(NaNLine)
  {
    var res := Residuals(x, y, b, a);
    assert MadOf(Fins(res)) == Fin(MadFloor) by {
      ZeroResidualsOnLine(x, y, a, b);
      MadOfConstant(Fins(res), 0.0);
    }
    var w := Weights(res, MadFloor, k);
    assert !w[0].Fin? by {
      ZeroResidualsOnLine(x, y, a, b);
    }
    assert Reweight(x, y, k, Line(b, a)) == WeightedFit(x, y, w);
  }

  /** The NaN of the first pass survives every later one. */
  lemma {:induction false} IterateOnLineNegative(x: seq<real>, y: seq<real>, k: real, a: real, b: real, n: nat)
    requires |x| > 0 && OnLine(x, y, a, b) && k < 0.0 && n > 0
    ensures Loop(Pass(x, y, k), Line(b, a), n) == Some(NaNLine)
  {
    assert Pass(x, y, k)(Line(b, a)) == Some(NaNLine) by {
      ReweightOnLineNegative(x, y, k, a, b);
    }
    assert Pass(x, y, k)(NaNLine) == Some(NaNLine);
    LoopAbsorbed(Pass(x, y, k), Line(b, a), NaNLine, n);
  }

  /** With a negative threshold, an exact line ends in NaN coefficients
      whenever the trimmed fit succeeds. */
  lemma {:induction false} TrainOnLineNegativeThreshold(x: seq<F64>, y: seq<F64>, k: real, maxIter: nat, a: real, b: real)
    requires |x| == |y| >= 3 && AllFinite(x) && AllFinite(y) && k < 0.0 && maxIter > 0
    requires OnLine(Values(x), Values(y), a, b)
    requires TrimmedOls(Normalized(x), y, TrimFraction).Some?
    ensures TrainOf(x, y, k, maxIter) == Some(RobReg(NaN, NaN))
  {
    var a' := a + Prod(b, x[0].v);
    var xv, yv := Values(Normalized(x)), Values(y);
    assert TrainOf(x, y, k, maxIter) == Some(Output(NaNLine)) by {
      assert TrimmedOls(Normalized(x), y, TrimFraction) == Some(Coeffs(b, a')) by {
        StartOnLine(x, y, a, b);
      }
      assert AllFinite(Normalized(x)) && Loop(Pass(xv, yv, k), Line(b, a'), maxIter) == Some(NaNLine) by {
        StartOnLine(x, y, a, b);
        IterateOnLineNegative(xv, yv, k, a', b, maxIter);
      }
      TrainOfParts(x, y, k, maxIter, Coeffs(b, a'), NaNLine);
    }
  }
}
