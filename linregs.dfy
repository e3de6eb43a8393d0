// Ordinary least squares on one predictor, `crates/fluxrs-core/src/stats/linreg.rs`.
module LinRegs {
  import opened Sums

  datatype LinReg = LinReg(intercept: real, slope: real)

  /** `LinReg::new()`. */
  function Zero(): (r: LinReg)
    ensures forall x :: Calculate(r, x) == 0.0
  {
    LinReg(0.0, 0.0)
  }

  function Calculate(m: LinReg, x: real): real
  {
    m.intercept + Prod(m.slope, x)
  }

  /** The slope is the change of the prediction per unit of x, and the
      intercept is the prediction at 0. */
  lemma {:induction false} CalculateLine(m: LinReg, x1: real, x2: real)
    ensures Calculate(m, x2) - Calculate(m, x1) == m.slope * (x2 - x1)
    ensures Calculate(m, 0.0) == m.intercept
  {
  }

  /** What `train` produces. The division by `ss_xx` yields NaN coefficients
      when x is empty (its mean is 0/0) or constant (`ss_xy` is then 0 too). */
  datatype Trained = Fitted(line: LinReg) | NaNCoefficients

  function Train(x: seq<real>, y: seq<real>): (r: Trained)
    requires |x| == |y|
    ensures r.Fitted? <==> |x| > 0 && SumSqDev(x, Mean(x)) != 0.0
    ensures r.Fitted? ==> Prod(r.line.slope, SumSqDev(x, Mean(x))) == SumProdDev(x, Mean(x), y, Mean(y))
  {
    if |x| == 0 then NaNCoefficients
    else
      var avgX := Mean(x);
      var ssXX := SumSqDev(x, avgX);
      var avgY := Mean(y);
      var ssXY := SumProdDev(x, avgX, y, avgY);
      if ssXX == 0.0 then NaNCoefficients
      else
        var slope := ssXY / ssXX;
        QuotientTimes(ssXY, ssXX);
        Fitted(LinReg(avgY - Prod(slope, avgX), slope))
  }

  /** `y[i] - calculate(x[i])` for every sample. */
  function Residuals(m: LinReg, x: seq<real>, y: seq<real>): (r: seq<real>)
    requires |x| == |y|
    ensures |r| == |x| && forall i :: 0 <= i < |x| ==> r[i] == y[i] - Calculate(m, x[i])
  {
    seq(|x|, i requires 0 <= i < |x| => y[i] - Calculate(m, x[i]))
  }

  ghost predicate Constant(x: seq<real>)
  {
    forall i, j :: 0 <= i < |x| && 0 <= j < |x| ==> x[i] == x[j]
  }

  /** The mean of samples that are all equal to `c` is `c`. */
  lemma {:induction false} MeanOfConstant(x: seq<real>, c: real)
    requires |x| > 0 && forall i :: 0 <= i < |x| ==> x[i] == c
    ensures Mean(x) == c
  {
    var ones := seq(|x|, i => 0.0);
    OnLineIff(ones, x, c, 0.0);
    SumOnLine(ones, x, c, 0.0);
  }

  /** A line is fitted exactly when there are samples and x is not constant. */
  lemma {:induction false} TrainFitsIffNonConstant(x: seq<real>, y: seq<real>)
    requires |x| == |y|
    ensures Train(x, y).Fitted? <==> |x| > 0 && !Constant(x)
  {
    if |x| > 0 {
      SumSqDevZero(x, Mean(x));
      if Constant(x) {
        MeanOfConstant(x, x[0]);
      } else {
        var i, j :| 0 <= i < |x| && 0 <= j < |x| && x[i] != x[j];
        assert x[i] != Mean(x) || x[j] != Mean(x);
      }
    }
  }

  /** The fitted line passes through (mean x, mean y). */
  lemma {:induction false} TrainPassesThroughMeans(x: seq<real>, y: seq<real>)
    requires |x| == |y|
    requires Train(x, y).Fitted?
    ensures Calculate(Train(x, y).line, Mean(x)) == Mean(y)
  {
  }

  /** The residuals of the fitted line sum to zero. */
  lemma {:induction false} ResidualsSumToZero(x: seq<real>, y: seq<real>)
    requires |x| == |y|
    requires Train(x, y).Fitted?
    ensures Sum(Residuals(Train(x, y).line, x, y)) == 0.0
  {
    var m := Train(x, y).line;
    var mx, my := Mean(x), Mean(y);
    assert m.intercept == my - Prod(m.slope, mx);
    SumOfResiduals(x, y, m.intercept, m.slope, Residuals(m, x, y));
    SumIsCountTimesMean(x);
    SumIsCountTimesMean(y);
    CentredIntercept(|x| as real, mx, my, m.slope);
  }

  /** n·ȳ - n·(ȳ - b·x̄) - b·(n·x̄) = 0. */
  lemma {:induction false} CentredIntercept(n: real, mx: real, my: real, b: real)
    ensures Prod(n, my) - Prod(n, my - Prod(b, mx)) - Prod(b, Prod(n, mx)) == 0.0
  {
    assert n * (my - b * mx) == n * my - n * (b * mx);
    assert n * (b * mx) == b * (n * mx);
  }

  lemma {:induction false} MeanOnLine(n: real, sx: real, sy: real, a: real, b: real)
    requires n > 0.0 && sy == Prod(n, a) + Prod(b, sx)
    ensures sy / n == a + Prod(b, sx / n)
  {
  }

  lemma {:induction false} MeanOfLine(x: seq<real>, y: seq<real>, a: real, b: real)
    requires |x| > 0 && OnLine(x, y, a, b)
    ensures Mean(y) == a + Prod(b, Mean(x))
  {
    var n, sx, sy := |x| as real, Sum(x), Sum(y);
    assert sy == Prod(n, a) + Prod(b, sx) by {
      SumOnLine(x, y, a, b);
    }
    MeanOnLine(n, sx, sy, a, b);
  }

  lemma {:induction false} QuotientOfMultiple(p: real, q: real, b: real)
    requires q != 0.0 && p == Prod(b, q)
    ensures p / q == b
  {
  }

  /** On a line the cross deviation about the means is the slope times
      the spread of x. */
  lemma {:induction false} CrossDevOnLine(x: seq<real>, y: seq<real>, a: real, b: real)
    requires |x| > 0 && OnLine(x, y, a, b)
    ensures SumProdDev(x, Mean(x), y, Mean(y)) == Prod(b, SumSqDev(x, Mean(x)))
  {
    var mx, my := Mean(x), Mean(y);
    assert my == a + Prod(b, mx) by {
      MeanOfLine(x, y, a, b);
    }
    SumProdDevOnLineAt(x, mx, y, a, b, my);
  }

  /** On an exact line, the cross deviation over the spread of x is the slope. */
  lemma {:induction false} SlopeOnLine(x: seq<real>, y: seq<real>, a: real, b: real)
    requires |x| > 0 && OnLine(x, y, a, b) && SumSqDev(x, Mean(x)) != 0.0
    ensures SumProdDev(x, Mean(x), y, Mean(y)) / SumSqDev(x, Mean(x)) == b
  {
    CrossDevOnLine(x, y, a, b);
    QuotientOfMultiple(SumProdDev(x, Mean(x), y, Mean(y)), SumSqDev(x, Mean(x)), b);
  }

  /** Samples lying exactly on a line with non-constant x give back that line. */
  lemma {:induction false} TrainRecoversLine(x: seq<real>, y: seq<real>, a: real, b: real)
    requires |x| > 0 && !Constant(x) && OnLine(x, y, a, b)
    ensures Train(x, y) == Fitted(LinReg(a, b))
  {
    TrainFitsIffNonConstant(x, y);
    TrainOnLine(x, y, a, b);
  }

  lemma {:induction false} TrainOnLine(x: seq<real>, y: seq<real>, a: real, b: real)
    requires |x| > 0 && OnLine(x, y, a, b) && SumSqDev(x, Mean(x)) != 0.0
    ensures Train(x, y) == Fitted(LinReg(a, b))
  {
    LineThroughMeans(x, y, a, b);
    TrainFitted(x, y);
  }

  /** On an exact line, the slope `ss_xy / ss_xx` and the intercept through
      the means are the line's own. */
  lemma {:induction false} LineThroughMeans(x: seq<real>, y: seq<real>, a: real, b: real)
    requires |x| > 0 && OnLine(x, y, a, b) && SumSqDev(x, Mean(x)) != 0.0
    ensures var q := SumProdDev(x, Mean(x), y, Mean(y)) / SumSqDev(x, Mean(x));
      LinReg(Mean(y) - Prod(q, Mean(x)), q) == LinReg(a, b)
  {
    CrossDevOnLine(x, y, a, b);
    MeanOfLine(x, y, a, b);
    LineFromSums(SumProdDev(x, Mean(x), y, Mean(y)), SumSqDev(x, Mean(x)), Mean(x), Mean(y), a, b);
  }

  lemma {:induction false} LineFromSums(sxy: real, sxx: real, mx: real, my: real, a: real, b: real)
    requires sxx != 0.0 && sxy == Prod(b, sxx) && my == a + Prod(b, mx)
    ensures LinReg(my - Prod(sxy / sxx, mx), sxy / sxx) == LinReg(a, b)
  {
    QuotientOfMultiple(sxy, sxx, b);
  }

  /** A fit through the means with slope `ss_xy / ss_xx`. */
  lemma {:induction false} TrainFitted(x: seq<real>, y: seq<real>)
    requires |x| == |y| && |x| > 0 && SumSqDev(x, Mean(x)) != 0.0
    ensures Train(x, y) == Fitted(LinReg(Mean(y) - Prod(SumProdDev(x, Mean(x), y, Mean(y)) / SumSqDev(x, Mean(x)), Mean(x)),
                                         SumProdDev(x, Mean(x), y, Mean(y)) / SumSqDev(x, Mean(x))))
  {
  }

}
