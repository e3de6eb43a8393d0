// The linear flux model: a least-squares line on time since the first
// sample, its fit statistics and the flux of its slope
// (crates/fluxrs-core/src/flux/linflux.rs).
module LinFlux {
  import opened Wrappers
  import opened Floats
  import opened Sums
  import opened LinRegs
  import opened Stats
  import opened Chambers
  import opened FluxFits
  import opened Flux

  datatype LinearFlux = LinearFlux(
    fitId: string, channel: GasChannel, flux: F64, r2: real, adjustedR2: real,
    model: LinReg, pValue: real, sigma: real, aic: F64, rmse: real, cv: F64,
    rangeStart: real, rangeEnd: real)

  /** `model.calculate(x)` for every sample. */
  function Predictions(model: LinReg, x: seq<real>): (r: seq<real>)
    ensures |r| == |x| && forall i :: 0 <= i < |x| ==> r[i] == Calculate(model, x[i])
  {
    seq(|x|, i requires 0 <= i < |x| => Calculate(model, x[i]))
  }

  /** Times relative to the first sample. */
  function Normalize(x: seq<real>): (r: seq<real>)
    requires |x| > 0
    ensures |r| == |x| && r[0] == 0.0
  {
    Shifted(x, x[0])
  }

  /** The spread of the normalised times, `ss_xx`. */
  function SpreadX(x: seq<real>): (r: real)
    requires |x| > 0
    ensures r >= 0.0
  {
    SumSqDevNonNegative(Normalize(x), Mean(Normalize(x)));
    SumSqDev(Normalize(x), Mean(Normalize(x)))
  }

  /** `LinearFlux::from_data`. The guards run in the source's order; for
      finite samples `sigma` and the t statistic are always finite, so
      only the standard-error guard can reject a fit with spread. */
  function FromData(m: Libm, fitId: string, ch: GasChannel, x: seq<real>, y: seq<real>,
                    start: real, end: real, tC: real, pHpa: real, c: ChamberShape): (r: Result<LinearFlux, FluxFitError>)
    ensures |x| != |y| ==> r == Err(LengthMismatch(|x|, |y|))
    ensures |x| == |y| && |x| < MinPoints ==> r == Err(NotEnoughPoints(|x|, MinPoints))
    ensures |x| == |y| >= MinPoints ==> (r == Err(DegenerateX) <==> SpreadX(x) <= Epsilon)
    ensures r.Ok? ==> |x| == |y| >= MinPoints && SpreadX(x) > Epsilon
  {
    if |x| != |y| then Err(LengthMismatch(|x|, |y|))
    else if |x| < MinPoints then Err(NotEnoughPoints(|x|, MinPoints))
    else if SpreadX(x) <= Epsilon then Err(DegenerateX)
    else Fit(m, fitId, ch, x, y, start, end, tC, pHpa, c)
  }

  /** The model of a fit with spread: `train` on the normalised times. */
  function ModelOf(x: seq<real>, y: seq<real>): (model: LinReg)
    requires |x| == |y| >= MinPoints && SpreadX(x) > Epsilon
    ensures Calculate(model, Mean(Normalize(x))) == Mean(y)
    ensures Train(Normalize(x), y) == Fitted(model)
  {
    TrainPassesThroughMeans(Normalize(x), y);
    Train(Normalize(x), y).line
  }

  /** The residual sum of squares of the fitted line. */
  function Rss(x: seq<real>, y: seq<real>): real
    requires |x| == |y| >= MinPoints && SpreadX(x) > Epsilon
  {
    SumSqDiff(y, Predictions(ModelOf(x, y), Normalize(x)))
  }

  /** `sigma / sqrt(ss_xx)`, the standard error of the slope. */
  function SlopeError(m: Libm, x: seq<real>, y: seq<real>): F64
    requires |x| == |y| >= MinPoints && SpreadX(x) > Epsilon
  {
    DivR(m.sqrt(Rss(x, y) / (|x| as real - 2.0)), m.sqrt(SpreadX(x)))
  }

  /** The part of `from_data` after the spread guard. */
  function Fit(m: Libm, fitId: string, ch: GasChannel, x: seq<real>, y: seq<real>,
               start: real, end: real, tC: real, pHpa: real, c: ChamberShape): (r: Result<LinearFlux, FluxFitError>)
    requires |x| == |y| >= MinPoints && SpreadX(x) > Epsilon
    ensures r.Err? ==> r.error == NonFiniteSE
    ensures r.Err? <==> !SlopeError(m, x, y).Fin? || SlopeError(m, x, y).v <= 0.0
    ensures r.Ok? ==> r.value.model == ModelOf(x, y) && r.value.rangeStart == start && r.value.rangeEnd == end
    ensures r.Ok? ==> r.value.sigma == m.sqrt(Rss(x, y) / (|x| as real - 2.0))
    ensures r.Ok? ==> r.value.aic == AicFromRss(m, Rss(x, y), |x|, 2)
    ensures r.Ok? ==> r.value.r2 == R2FromPredictions(y, Predictions(ModelOf(x, y), Normalize(x))).UnwrapOr(0.0)
    ensures r.Ok? ==> r.value.adjustedR2 == AdjustedR2(r.value.r2, |x|, 1)
    ensures r.Ok? ==> r.value.flux == FluxUmolCore(ch, ModelOf(x, y).slope, tC, pHpa, c)
    ensures r.Ok? ==> r.value.rmse == Rmse(m, y, Predictions(ModelOf(x, y), Normalize(x))).UnwrapOr(0.0)
    ensures r.Ok? ==> r.value.cv == DivR(r.value.rmse, Mean(y))
    ensures r.Ok? ==> var se := SlopeError(m, x, y);
      se.Fin? && DivR(ModelOf(x, y).slope, se.v).Fin? &&
      r.value.pValue == 2.0 * (1.0 - m.tCdf(|x| as real - 2.0, AbsR(DivR(ModelOf(x, y).slope, se.v).v)))
  {
    var n := |x| as real;
    var xNorm := Normalize(x);
    var model := ModelOf(x, y);
    var yHat := Predictions(model, xNorm);
    var rss := Rss(x, y);
    var rmseVal := Rmse(m, y, yHat).UnwrapOr(0.0);
    var cv := DivR(rmseVal, Mean(y));
    var sigma := m.sqrt(rss / (n - 2.0));
    var se := SlopeError(m, x, y);
    if !se.Fin? || se.v <= 0.0 then Err(NonFiniteSE)
    else
      var tStat := DivR(model.slope, se.v);
      if !tStat.Fin? then Err(NonFiniteTStat)
      else
        var pValue := 2.0 * (1.0 - m.tCdf(n - 2.0, AbsR(tStat.v)));
        var aic := AicFromRss(m, rss, |x|, 2);
        var r2 := R2FromPredictions(y, yHat).UnwrapOr(0.0);
        Ok(LinearFlux(fitId, ch, FluxUmolCore(ch, model.slope, tC, pHpa, c), r2, AdjustedR2(r2, |x|, 1),
                      model, pValue, sigma, aic, rmseVal, cv, start, end))
  }

  /** `predict`: the model at the time since the stored range start. */
  function Predict(f: LinearFlux, x: real): (r: real)
    ensures r == f.model.intercept + Prod(f.model.slope, x - f.rangeStart)
  {
    Calculate(f.model, x - f.rangeStart)
  }

  /** When the range starts at the first sample, `predict` gives back the
      fitted values. */
  lemma {:induction false} PredictMatchesFit(m: Libm, fitId: string, ch: GasChannel, x: seq<real>, y: seq<real>,
                                             end: real, tC: real, pHpa: real, c: ChamberShape, i: nat)
    requires |x| > 0 && i < |x|
    requires FromData(m, fitId, ch, x, y, x[0], end, tC, pHpa, c).Ok?
    ensures Predict(FromData(m, fitId, ch, x, y, x[0], end, tC, pHpa, c).value, x[i]) ==
            Predictions(ModelOf(x, y), Normalize(x))[i]
  {
  }

  /** A perfect fit is rejected: samples exactly on a line with spread in
      time leave no residual, so sigma and the slope's standard error are
      zero and `from_data` reports NonFiniteSE instead of a model. */
  lemma {:induction false} PerfectFitRejected(m: Libm, fitId: string, ch: GasChannel, x: seq<real>, y: seq<real>,
                                              start: real, end: real, tC: real, pHpa: real, c: ChamberShape, a: real, b: real)
    requires SqrtFacts(m)
    requires |x| == |y| >= MinPoints && SpreadX(x) > Epsilon
    requires OnLine(Normalize(x), y, a, b)
    ensures FromData(m, fitId, ch, x, y, start, end, tC, pHpa, c) == Err(NonFiniteSE)
  {
    ExactFitHasNoError(m, x, y, a, b);
    var r := Fit(m, fitId, ch, x, y, start, end, tC, pHpa, c);
    assert r.Err? && r.error == NonFiniteSE;
  }

  /** Samples exactly on a line give a zero standard error of the slope. */
  lemma {:induction false} ExactFitHasNoError(m: Libm, x: seq<real>, y: seq<real>, a: real, b: real)
    requires SqrtFacts(m)
    requires |x| == |y| >= MinPoints && SpreadX(x) > Epsilon
    requires OnLine(Normalize(x), y, a, b)
    ensures SlopeError(m, x, y) == Fin(0.0)
  {
    assert Rss(x, y) == 0.0 by {
      ExactFitHasNoResidual(x, y, a, b);
    }
    assert RootOfSquare(m, 0.0);
    ZeroOver(Rss(x, y), |x| as real - 2.0);
    assert m.sqrt(SpreadX(x)) > 0.0;
  }

  lemma {:induction false} ZeroOver(p: real, q: real)
    requires p == 0.0 && q != 0.0
    ensures p / q == 0.0
  {
  }

  /** On an exact line the fitted values are the samples themselves. */
  lemma {:induction false} ExactFitHasNoResidual(x: seq<real>, y: seq<real>, a: real, b: real)
    requires |x| == |y| >= MinPoints && SpreadX(x) > Epsilon
    requires OnLine(Normalize(x), y, a, b)
    ensures Rss(x, y) == 0.0
  {
    var xNorm := Normalize(x);
    TrainOnLine(xNorm, y, a, b);
    var yHat := Predictions(ModelOf(x, y), xNorm);
    forall i | 0 <= i < |y| ensures yHat[i] == y[i] {
      OnLineAt(xNorm, y, a, b, i);
    }
    assert yHat == y;
    SumSqDiffZero(y, yHat);
  }

  /** A positive standard error of the slope needs a positive sigma, so a
      non-zero residual sum. */
  lemma {:induction false} PositiveErrorHasResidual(m: Libm, x: seq<real>, y: seq<real>)
    requires SqrtFacts(m)
    requires |x| == |y| >= MinPoints && SpreadX(x) > Epsilon
    requires SlopeError(m, x, y).Fin? && SlopeError(m, x, y).v > 0.0
    ensures m.sqrt(Rss(x, y) / (|x| as real - 2.0)) > 0.0 && Rss(x, y) > 0.0
  {
    var q := Rss(x, y) / (|x| as real - 2.0);
    assert m.sqrt(SpreadX(x)) > 0.0;
    assert m.sqrt(q) > 0.0;
    SumSqDiffNonNegative(y, Predictions(ModelOf(x, y), Normalize(x)));
    assert RootOfSquare(m, 0.0);
    if Rss(x, y) == 0.0 {
      ZeroOver(Rss(x, y), |x| as real - 2.0);
    }
  }

  /** A model that is returned has a positive sigma (so a non-zero residual
      sum and a finite AIC), an R² of at most 1 and an adjusted R² no
      larger than it. */
  lemma {:induction false} FitQuality(m: Libm, fitId: string, ch: GasChannel, x: seq<real>, y: seq<real>,
                                      start: real, end: real, tC: real, pHpa: real, c: ChamberShape)
    requires SqrtFacts(m)
    requires FromData(m, fitId, ch, x, y, start, end, tC, pHpa, c).Ok?
    ensures var f := FromData(m, fitId, ch, x, y, start, end, tC, pHpa, c).value;
      f.sigma > 0.0 && f.aic.Fin? && f.r2 <= 1.0 && f.adjustedR2 <= f.r2
  {
    assert |x| == |y| >= MinPoints && SpreadX(x) > Epsilon;
    var r := Fit(m, fitId, ch, x, y, start, end, tC, pHpa, c);
    assert FromData(m, fitId, ch, x, y, start, end, tC, pHpa, c) == r;
    assert r.Ok?;
    PositiveErrorHasResidual(m, x, y);
    var yHat := Predictions(ModelOf(x, y), Normalize(x));
    if R2FromPredictions(y, yHat).Some? {
      R2AtMostOne(y, yHat);
    }
    AdjustedR2AtMostR2(r.value.r2, |x|, 1);
  }
}
