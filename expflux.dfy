// The exponential flux model y = a·exp(b·t) on time since the first
// sample, fitted in log space, and the flux of its initial slope a·b
// (crates/fluxrs-core/src/flux/expflux.rs, crates/fluxrs-core/src/stats/expreg.rs).
module ExpFlux {
  import opened Wrappers
  import opened Floats
  import opened Sums
  import opened LinRegs
  import opened Stats
  import opened Chambers
  import opened FluxFits
  import opened Flux
  import LinFlux

  /** `ExpReg`: y = a·exp(b·x). */
  datatype ExpReg = ExpReg(a: real, b: real)

  /** What `ExpReg::train` gives: a model, or NaN coefficients when the
      log-linear regression has no spread in x. */
  datatype ExpTrained = ExpFitted(model: ExpReg) | NaNModel

  function ExpCalculate(m: Libm, e: ExpReg, x: real): real
  {
    Prod(e.a, m.exp(Prod(e.b, x)))
  }

  /** `derivative`: a·b·exp(b·x), which is b times the model's value. */
  function Derivative(m: Libm, e: ExpReg, x: real): (r: real)
    ensures r == Prod(e.b, ExpCalculate(m, e, x))
  {
    Prod(Prod(e.a, e.b), m.exp(Prod(e.b, x)))
  }

  predicate AllPositive(y: seq<real>)
  {
    forall i :: 0 <= i < |y| ==> y[i] > 0.0
  }

  /** `ln` of every sample. */
  function LnAll(m: Libm, y: seq<real>): (r: seq<real>)
    ensures |r| == |y| && forall i :: 0 <= i < |y| ==> r[i] == m.ln(y[i])
  {
    seq(|y|, i requires 0 <= i < |y| => m.ln(y[i]))
  }

  /** `ExpReg::train`: a line through (x, ln y), then a = exp(intercept)
      and b = slope. The source asserts equal lengths and positive y. */
  function ExpTrain(m: Libm, x: seq<real>, y: seq<real>): (r: ExpTrained)
    requires |x| == |y| && AllPositive(y)
    ensures r.ExpFitted? <==> Train(x, LnAll(m, y)).Fitted?
  {
    match Train(x, LnAll(m, y))
    case Fitted(line) => ExpFitted(ExpReg(m.exp(line.intercept), line.slope))
    case NaNCoefficients => NaNModel
  }

  /** Samples whose logarithms lie exactly on a line with spread in x give
      back that line's parameters: b its slope and a the exponential of its
      intercept. */
  lemma {:induction false} ExpTrainRecovers(m: Libm, x: seq<real>, y: seq<real>, alpha: real, beta: real)
    requires |x| == |y| > 0 && AllPositive(y) && SumSqDev(x, Mean(x)) != 0.0
    requires OnLine(x, LnAll(m, y), alpha, beta)
    ensures ExpTrain(m, x, y) == ExpFitted(ExpReg(m.exp(alpha), beta))
  {
    TrainOnLine(x, LnAll(m, y), alpha, beta);
  }

  /** `model.calculate(x)` for every sample. */
  function ExpPredictions(m: Libm, e: ExpReg, x: seq<real>): (r: seq<real>)
    ensures |r| == |x| && forall i :: 0 <= i < |x| ==> r[i] == ExpCalculate(m, e, x[i])
  {
    seq(|x|, i requires 0 <= i < |x| => ExpCalculate(m, e, x[i]))
  }

  datatype ExponentialFlux = ExponentialFlux(
    channel: GasChannel, flux: F64, r2: real, adjustedR2: real, model: ExpTrained,
    pValue: real, sigma: real, aic: F64, rmse: real, cv: F64,
    rangeStart: real, rangeEnd: real)

  /** `slope()`: the initial derivative a·b. */
  function Slope(f: ExponentialFlux): (r: F64)
    ensures r.Fin? <==> f.model.ExpFitted?
    ensures r.Fin? ==> r.v == Prod(f.model.model.a, f.model.model.b)
  {
    match f.model
    case ExpFitted(e) => Fin(Prod(e.a, e.b))
    case NaNModel => NaN
  }

  /** `intercept()`: a, the value at the first sample. */
  function Intercept(f: ExponentialFlux): (r: F64)
    ensures r.Fin? <==> f.model.ExpFitted?
    ensures r.Fin? ==> r.v == f.model.model.a
  {
    match f.model
    case ExpFitted(e) => Fin(e.a)
    case NaNModel => NaN
  }

  /** `predict`: the model at the time since the range start. */
  function Predict(m: Libm, f: ExponentialFlux, x: real): (r: F64)
    ensures r.Fin? <==> f.model.ExpFitted?
    ensures r.Fin? ==> r.v == Prod(f.model.model.a, m.exp(Prod(f.model.model.b, x - f.rangeStart)))
  {
    match f.model
    case ExpFitted(e) => Fin(ExpCalculate(m, e, x - f.rangeStart))
    case NaNModel => NaN
  }

  /** Where exp(0) = 1, `intercept()` and `slope()` are the model's value
      and derivative at the first sample. */
  lemma {:induction false} InitialValueAndSlope(m: Libm, e: ExpReg)
    requires m.exp(0.0) == 1.0
    ensures ExpCalculate(m, e, 0.0) == e.a
    ensures Derivative(m, e, 0.0) == Prod(e.a, e.b)
  {
  }

  /** `ExponentialFlux::from_data`. */
  function FromData(m: Libm, data: GasChannelData, range: TimeRange, meteo: MeteoConditions, c: ChamberShape): (r: Result<ExponentialFlux, FluxFitError>)
    requires HasValues(meteo)
    ensures !data.EqualLen() ==> r == Err(LengthMismatch(data.XLen(), data.YLen()))
    ensures data.EqualLen() && data.XLen() < MinPoints ==> r == Err(NotEnoughPoints(data.XLen(), MinPoints))
    ensures data.EqualLen() && data.XLen() >= MinPoints ==>
      (r == Err(NonPositiveY) <==> !AllPositive(data.data.y))
    ensures r.Ok? ==> data.EqualLen() && data.XLen() >= MinPoints && AllPositive(data.data.y)
    ensures data.EqualLen() && data.XLen() >= MinPoints && AllPositive(data.data.y) ==>
      r == Fit(m, data, range, meteo, c)
  {
    if !data.EqualLen() then Err(LengthMismatch(data.XLen(), data.YLen()))
    else if data.XLen() < MinPoints then Err(NotEnoughPoints(data.XLen(), MinPoints))
    else if !AllPositive(data.data.y) then Err(NonPositiveY)
    else Fit(m, data, range, meteo, c)
  }

  /** The part of `from_data` after the input guards: the log-linear fit
      and its guards, then the exponential model and its statistics. */
  function Fit(m: Libm, data: GasChannelData, range: TimeRange, meteo: MeteoConditions, c: ChamberShape): (r: Result<ExponentialFlux, FluxFitError>)
    requires HasValues(meteo)
    requires data.EqualLen() && data.XLen() >= MinPoints && AllPositive(data.data.y)
    ensures r == Err(NonFiniteSigma) <==> LinFlux.SpreadX(data.data.x) == 0.0
    ensures r == Err(DegenerateX) <==> 0.0 < LinFlux.SpreadX(data.data.x) <= Epsilon
    ensures r.Ok? ==> var x, y := data.data.x, data.data.y;
      && LinFlux.SpreadX(x) > Epsilon
      && LinFlux.SlopeError(m, x, LnAll(m, y)).Fin? && LinFlux.SlopeError(m, x, LnAll(m, y)).v > 0.0
      && r.value.model == ExpTrain(m, LinFlux.Normalize(x), y) && r.value.model.ExpFitted?
      && r.value.channel == data.channel
      && r.value.rangeStart == range.start && r.value.rangeEnd == range.end
      && r.value.aic == AicFromRss(m, SumSqDiff(y, ExpPredictions(m, r.value.model.model, LinFlux.Normalize(x))), |x|, 2)
      && r.value.r2 == R2FromPredictions(y, ExpPredictions(m, r.value.model.model, LinFlux.Normalize(x))).UnwrapOr(0.0)
      && r.value.adjustedR2 == AdjustedR2(r.value.r2, |x|, 2)
      && r.value.flux == FluxUmol(data.channel, Slope(r.value).v, meteo.temperature, meteo.pressure, c)
  {
    var x, y := data.data.x, data.data.y;
    var xNorm := LinFlux.Normalize(x);
    var lnY := LnAll(m, y);
    match Train(xNorm, lnY)
    case NaNCoefficients => Err(NonFiniteSigma)
    case Fitted(lnModel) =>
      if LinFlux.SpreadX(x) <= Epsilon then Err(DegenerateX)
      else
        var se := LinFlux.SlopeError(m, x, lnY);
        if !se.Fin? || se.v <= 0.0 then Err(NonFiniteSE)
        else
          var tStat := DivR(lnModel.slope, se.v);
          if !tStat.Fin? then Err(NonFiniteTStat)
          else
            var n := |x| as real;
            var model := ExpReg(m.exp(lnModel.intercept), lnModel.slope);
            var yHat := ExpPredictions(m, model, xNorm);
            var rss := SumSqDiff(y, yHat);
            var sigma := m.sqrt(rss / (n - 2.0));
            var rmseVal := Rmse(m, y, yHat).UnwrapOr(0.0);
            var cv := DivR(rmseVal, Mean(y));
            var r2 := R2FromPredictions(y, yHat).UnwrapOr(0.0);
            var pValue := 2.0 * (1.0 - m.tCdf(n - 2.0, AbsR(tStat.v)));
            var flux := FluxUmol(data.channel, Prod(model.a, model.b), meteo.temperature, meteo.pressure, c);
            Ok(ExponentialFlux(data.channel, flux, r2, AdjustedR2(r2, |x|, 2), ExpFitted(model), pValue, sigma,
                               AicFromRss(m, rss, |x|, 2), rmseVal, cv, range.start, range.end))
  }

  /** Samples that are an exact exponential (their logarithms on a line)
      with spread in time are rejected like a perfect linear fit: the
      standard error of b is zero. */
  lemma {:induction false} PerfectExponentialRejected(m: Libm, data: GasChannelData, range: TimeRange,
                                                      meteo: MeteoConditions, c: ChamberShape, alpha: real, beta: real)
    requires SqrtFacts(m) && HasValues(meteo)
    requires data.EqualLen() && data.XLen() >= MinPoints && AllPositive(data.data.y)
    requires LinFlux.SpreadX(data.data.x) > Epsilon
    requires OnLine(LinFlux.Normalize(data.data.x), LnAll(m, data.data.y), alpha, beta)
    ensures FromData(m, data, range, meteo, c) == Err(NonFiniteSE)
  {
    LinFlux.ExactFitHasNoError(m, data.data.x, LnAll(m, data.data.y), alpha, beta);
  }

  /** When the range starts at the first sample, `predict` gives back the
      fitted values, and `slope()` is the slope the flux is computed from. */
  lemma {:induction false} PredictMatchesFit(m: Libm, data: GasChannelData, end: real, meteo: MeteoConditions,
                                             c: ChamberShape, i: nat)
    requires HasValues(meteo) && i < |data.data.x|
    requires FromData(m, data, TimeRange(data.data.x[0], end), meteo, c).Ok?
    ensures var f := FromData(m, data, TimeRange(data.data.x[0], end), meteo, c).value;
      Predict(m, f, data.data.x[i]) == Fin(ExpPredictions(m, f.model.model, LinFlux.Normalize(data.data.x))[i])
  {
  }

  /** A returned model has an R² of at most 1 and an adjusted R² no larger. */
  lemma {:induction false} FitQuality(m: Libm, data: GasChannelData, range: TimeRange, meteo: MeteoConditions,
                                      c: ChamberShape)
    requires HasValues(meteo)
    requires FromData(m, data, range, meteo, c).Ok?
    ensures var f := FromData(m, data, range, meteo, c).value;
      f.r2 <= 1.0 && f.adjustedR2 <= f.r2
  {
    var f := FromData(m, data, range, meteo, c).value;
    var yHat := ExpPredictions(m, f.model.model, LinFlux.Normalize(data.data.x));
    assert f.r2 == R2FromPredictions(data.data.y, yHat).UnwrapOr(0.0);
    if R2FromPredictions(data.data.y, yHat).Some? {
      R2AtMostOne(data.data.y, yHat);
    }
    AdjustedR2AtMostR2(f.r2, |data.data.x|, 2);
  }

  /** The guards of `flux_from_vec` as written: one condition covers
      unequal lengths, fewer than two points and a non-positive sample and
      reports all three as LengthMismatch, so the separate guards after it
      (those of `FromVecGuard`) always pass. */
  function FromVecGuardAsWritten(x: seq<real>, y: seq<real>): (r: Option<FluxFitError>)
    ensures r.None? <==> |x| == |y| && |x| >= 2 && AllPositive(y)
  {
    if |x| != |y| || |x| < 2 || !AllPositive(y) then Some(LengthMismatch(|x|, |y|))
    else FromVecGuard(x, y)
  }

  /** As written, every rejection is a LengthMismatch, even of two
      equal-length series. */
  lemma {:induction false} FromVecGuardMislabels()
    ensures FromVecGuardAsWritten([0.0, 1.0, 2.0], [1.0, -1.0, 1.0]) == Some(LengthMismatch(3, 3))
    ensures FromVecGuardAsWritten([0.0], [1.0]) == Some(LengthMismatch(1, 1))
    ensures forall x: seq<real>, y: seq<real> :: FromVecGuardAsWritten(x, y).Some? ==>
      FromVecGuardAsWritten(x, y) == Some(LengthMismatch(|x|, |y|))
  {
    assert !AllPositive([1.0, -1.0, 1.0]) by {
      assert [1.0, -1.0, 1.0][1] <= 0.0;
    }
  }

  /** The guards of `flux_from_vec` as evidently intended: each cause
      reported by its own variant, in the order the source lists them. */
  function FromVecGuard(x: seq<real>, y: seq<real>): (r: Option<FluxFitError>)
    ensures r.None? <==> |x| == |y| && |x| >= 2 && AllPositive(y)
    ensures r == Some(LengthMismatch(|x|, |y|)) <==> |x| != |y|
    ensures r == Some(NotEnoughPoints(|x|, 2)) <==> |x| == |y| && |x| < 2
    ensures r == Some(NonPositiveY) <==> |x| == |y| && |x| >= 2 && !AllPositive(y)
  {
    if |x| != |y| then Some(LengthMismatch(|x|, |y|))
    else if |x| < 2 then Some(NotEnoughPoints(|x|, 2))
    else if !AllPositive(y) then Some(NonPositiveY)
    else None
  }

  /** Both versions accept the same series; only the reported cause differs. */
  lemma {:induction false} FromVecGuardsAgree(x: seq<real>, y: seq<real>)
    ensures FromVecGuard(x, y).None? <==> FromVecGuardAsWritten(x, y).None?
    ensures FromVecGuard(x, y).Some? && |x| == |y| ==> FromVecGuard(x, y) != FromVecGuardAsWritten(x, y)
  {
  }

  /** An exponential flux whose model and flux `flux_from_vec` refits in place. */
  class ExponentialFluxCell {
    var fit: ExponentialFlux

    constructor (f: ExponentialFlux)
      ensures fit == f
    {
      fit := f;
    }

    /** `flux_from_vec`: refit the model on the series and recompute the
        flux from its initial slope; every other field is kept. Its guard is
        the one as written, so every rejection is a LengthMismatch, and on
        an error nothing changes. */
    method FluxFromVec(m: Libm, data: GasChannelData, meteo: MeteoConditions, c: ChamberShape)
      returns (r: Result<(), FluxFitError>)
      requires HasValues(meteo)
      modifies this
      ensures r.Err? ==> fit == old(fit) && FromVecGuardAsWritten(data.data.x, data.data.y) == Some(r.error)
      ensures r.Err? ==> r.error == LengthMismatch(|data.data.x|, |data.data.y|)
      ensures r.Ok? <==> |data.data.x| == |data.data.y| && |data.data.x| >= 2 && AllPositive(data.data.y)
      ensures r.Ok? ==> var model := ExpTrain(m, LinFlux.Normalize(data.data.x), data.data.y);
        fit == old(fit).(model := model, flux := RefitFlux(m, old(fit).channel, model, meteo, c))
    {
      var x, y := data.data.x, data.data.y;
      var guard := FromVecGuardAsWritten(x, y);
      if guard.Some? {
        FromVecGuardMislabels();
        return Err(guard.value);
      }
      var model := ExpTrain(m, LinFlux.Normalize(x), y);
      fit := fit.(model := model, flux := RefitFlux(m, fit.channel, model, meteo, c));
      return Ok(());
    }
  }

  /** The flux of a refitted model: from `a·b`, or NaN when the
      coefficients are NaN. */
  function RefitFlux(m: Libm, ch: GasChannel, model: ExpTrained, meteo: MeteoConditions, c: ChamberShape): (r: F64)
    requires HasValues(meteo)
    ensures model.NaNModel? ==> r.NaN?
    ensures model.ExpFitted? ==> r == FluxUmol(ch, Prod(model.model.a, model.model.b), meteo.temperature, meteo.pressure, c)
  {
    match model
    case ExpFitted(e) => FluxUmol(ch, Prod(e.a, e.b), meteo.temperature, meteo.pressure, c)
    case NaNModel => NaN
  }
}
