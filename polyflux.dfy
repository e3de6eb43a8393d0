// The quadratic flux model: a second-order polynomial on time since the
// first sample, its fit statistics and the flux of its slope at the start
// of the range (crates/fluxrs-core/src/flux/polyflux.rs).
module PolyFlux {
  import opened Wrappers
  import opened Floats
  import opened Sums
  import opened Stats
  import opened Chambers
  import opened FluxFits
  import opened Flux
  import LinFlux

  /** `PolyReg`: the quadratic a0 + a1·x + a2·x². */
  datatype PolyReg = PolyReg(a0: real, a1: real, a2: real)

  function Calculate(p: PolyReg, x: real): real
  {
    p.a0 + Prod(p.a1, x) + Prod(p.a2, Prod(x, x))
  }

  /** `PolyReg::train`, a least-squares solve the model takes as given:
      None when the solve fails. */
  type Trainer = (seq<real>, seq<real>) -> Option<PolyReg>

  /** The message of the StatError for a failed solve. */
  const TrainFailed: string := "PolyReg::train returned None"

  /** The number of fitted parameters: intercept, slope and curvature. */
  const Parameters: nat := 3

  datatype PolyFluxFit = PolyFluxFit(
    fitId: string, channel: GasChannel, flux: F64, r2: real, adjustedR2: real,
    model: PolyReg, xOffset: real, sigma: real, aic: F64, rmse: real, cv: F64,
    rangeStart: real, rangeEnd: real)

  /** `model.calculate(x)` for every sample. */
  function Predictions(p: PolyReg, x: seq<real>): (r: seq<real>)
    ensures |r| == |x| && forall i :: 0 <= i < |x| ==> r[i] == Calculate(p, x[i])
  {
    seq(|x|, i requires 0 <= i < |x| => Calculate(p, x[i]))
  }

  /** The derivative a1 + 2·a2·t of the quadratic at `t`: the central
      difference over [t - 1, t + 1] is exact for a quadratic. */
  function SlopeAt(p: PolyReg, t: real): (r: real)
    ensures Calculate(p, t + 1.0) - Calculate(p, t - 1.0) == 2.0 * r
  {
    p.a1 + Prod(2.0 * p.a2, t)
  }

  /** `(rss / (n - 3)).sqrt()` in double arithmetic. */
  function Sigma(m: Libm, rss: real, n: nat): F64
  {
    Sqrt(m, DivR(rss, n as real - Parameters as real))
  }

  /** `PolyFlux::from_data` with the solver as a parameter. */
  function FromData(m: Libm, train: Trainer, fitId: string, ch: GasChannel, x: seq<real>, y: seq<real>,
                    start: real, end: real, tC: real, pHpa: real, c: ChamberShape): (r: Result<PolyFluxFit, FluxFitError>)
    ensures |x| != |y| ==> r == Err(LengthMismatch(|x|, |y|))
    ensures |x| == |y| && |x| < MinPoints ==> r == Err(NotEnoughPoints(|x|, MinPoints))
    ensures |x| == |y| >= MinPoints ==>
      (r == Err(StatError(TrainFailed)) <==> train(LinFlux.Normalize(x), y).None?)
    ensures r.Ok? ==> |x| == |y| > Parameters && train(LinFlux.Normalize(x), y).Some?
    ensures r.Ok? ==> var p := train(LinFlux.Normalize(x), y).value;
      var rss := SumSqDiff(y, Predictions(p, LinFlux.Normalize(x)));
      && r.value.model == p && r.value.xOffset == x[0]
      && r.value.rangeStart == start && r.value.rangeEnd == end
      && r.value.sigma == m.sqrt(rss / (|x| as real - 3.0))
      && r.value.aic == AicFromRss(m, rss, |x|, Parameters)
      && r.value.r2 == R2FromPredictions(y, Predictions(p, LinFlux.Normalize(x))).UnwrapOr(0.0)
      && r.value.adjustedR2 == AdjustedR2(r.value.r2, |x|, Parameters - 1)
      && r.value.flux == FluxUmolCore(ch, SlopeAt(p, start - x[0]), tC, pHpa, c)
      && r.value.cv == DivR(r.value.rmse, Mean(y))
  {
    if |x| != |y| then Err(LengthMismatch(|x|, |y|))
    else if |x| < MinPoints then Err(NotEnoughPoints(|x|, MinPoints))
    else
      var xNorm := LinFlux.Normalize(x);
      match train(xNorm, y)
      case None => Err(StatError(TrainFailed))
      case Some(model) =>
        var yHat := Predictions(model, xNorm);
        var r2 := R2FromPredictions(y, yHat).UnwrapOr(0.0);
        var rmseVal := Rmse(m, y, yHat).UnwrapOr(0.0);
        var cv := DivR(rmseVal, Mean(y));
        var adjusted := AdjustedR2(r2, |x|, Parameters - 1);
        var rss := SumSqDiff(y, yHat);
        var aic := AicFromRss(m, rss, |x|, Parameters);
        var sigma := Sigma(m, rss, |x|);
        if !sigma.Fin? then Err(NonFiniteSigma)
        else
          var flux := FluxUmolCore(ch, SlopeAt(model, start - x[0]), tC, pHpa, c);
          Ok(PolyFluxFit(fitId, ch, flux, r2, adjusted, model, x[0], sigma.v, aic, rmseVal, cv, start, end))
  }

  /** `predict`: the model at the time since the first sample. */
  function Predict(f: PolyFluxFit, x: real): (r: real)
    ensures r == f.model.a0 + Prod(f.model.a1, x - f.xOffset) + Prod(f.model.a2, Prod(x - f.xOffset, x - f.xOffset))
  {
    Calculate(f.model, x - f.xOffset)
  }

  /** `slope()`: the derivative of the model at the first sample. */
  function Slope(f: PolyFluxFit): (r: real)
    ensures r == SlopeAt(f.model, 0.0)
  {
    f.model.a1
  }

  /** A fit needs more samples than parameters: with exactly three the
      residual degrees of freedom are zero and sigma is never finite, and
      with more every successful solve gives a model. */
  lemma {:induction false} FitsIffMorePointsThanParameters(m: Libm, train: Trainer, fitId: string, ch: GasChannel,
                                                          x: seq<real>, y: seq<real>, start: real, end: real,
                                                          tC: real, pHpa: real, c: ChamberShape)
    requires |x| == |y| >= MinPoints && train(LinFlux.Normalize(x), y).Some?
    ensures FromData(m, train, fitId, ch, x, y, start, end, tC, pHpa, c).Ok? <==> |x| > Parameters
    ensures |x| == Parameters ==> FromData(m, train, fitId, ch, x, y, start, end, tC, pHpa, c) == Err(NonFiniteSigma)
  {
    var p := train(LinFlux.Normalize(x), y).value;
    var rss := SumSqDiff(y, Predictions(p, LinFlux.Normalize(x)));
    SumSqDiffNonNegative(y, Predictions(p, LinFlux.Normalize(x)));
    assert Sigma(m, rss, |x|).Fin? <==> |x| > Parameters;
  }

  /** The model's predictions at the samples are the fitted values. */
  lemma {:induction false} PredictMatchesFit(m: Libm, train: Trainer, fitId: string, ch: GasChannel,
                                             x: seq<real>, y: seq<real>, start: real, end: real,
                                             tC: real, pHpa: real, c: ChamberShape, i: nat)
    requires i < |x|
    requires FromData(m, train, fitId, ch, x, y, start, end, tC, pHpa, c).Ok?
    ensures Predict(FromData(m, train, fitId, ch, x, y, start, end, tC, pHpa, c).value, x[i]) ==
            Predictions(train(LinFlux.Normalize(x), y).value, LinFlux.Normalize(x))[i]
  {
  }

  /** The flux is that of the model's derivative at the range start, which
      is `slope()` when the range starts at the first sample. */
  lemma {:induction false} FluxAtRangeStart(m: Libm, train: Trainer, fitId: string, ch: GasChannel,
                                            x: seq<real>, y: seq<real>, end: real,
                                            tC: real, pHpa: real, c: ChamberShape)
    requires |x| > 0
    requires FromData(m, train, fitId, ch, x, y, x[0], end, tC, pHpa, c).Ok?
    ensures var f := FromData(m, train, fitId, ch, x, y, x[0], end, tC, pHpa, c).value;
      f.flux == FluxUmolCore(ch, Slope(f), tC, pHpa, c)
  {
  }

  /** `SlopeAt` is the derivative: the quadratic moves by `h·SlopeAt(t)`
      plus the curvature term `a2·h²`. */
  lemma {:induction false} SlopeIsDerivative(p: PolyReg, t: real, h: real)
    ensures Calculate(p, t + h) == Calculate(p, t) + Prod(h, SlopeAt(p, t)) + Prod(p.a2, Prod(h, h))
  {
    assert Prod(t + h, t + h) == Prod(t, t) + 2.0 * Prod(t, h) + Prod(h, h);
    assert Prod(p.a2, Prod(t + h, t + h)) == Prod(p.a2, Prod(t, t)) + 2.0 * Prod(p.a2, Prod(t, h)) + Prod(p.a2, Prod(h, h));
  }

  /** A returned model has an R² of at most 1, an adjusted R² no larger,
      and a finite AIC exactly when the fit leaves a residual. */
  lemma {:induction false} FitQuality(m: Libm, train: Trainer, fitId: string, ch: GasChannel,
                                      x: seq<real>, y: seq<real>, start: real, end: real,
                                      tC: real, pHpa: real, c: ChamberShape)
    requires FromData(m, train, fitId, ch, x, y, start, end, tC, pHpa, c).Ok?
    ensures var f := FromData(m, train, fitId, ch, x, y, start, end, tC, pHpa, c).value;
      f.r2 <= 1.0 && f.adjustedR2 <= f.r2 &&
      (f.aic.Fin? <==> SumSqDiff(y, Predictions(f.model, LinFlux.Normalize(x))) > 0.0)
  {
    var p := train(LinFlux.Normalize(x), y).value;
    var yHat := Predictions(p, LinFlux.Normalize(x));
    if R2FromPredictions(y, yHat).Some? {
      R2AtMostOne(y, yHat);
    }
    AdjustedR2AtMostR2(R2FromPredictions(y, yHat).UnwrapOr(0.0), |x|, Parameters - 1);
  }
}
