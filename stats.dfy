// Fit statistics, `crates/fluxrs-core/src/stats/stats.rs`.
module Stats {
  import opened Wrappers
  import opened Floats
  import opened Sums
  import opened Sorting
  import LinRegs

  // ---------------------------------------------------------------- Pearson

  /** |r| of finite samples: None when the denominator is zero. */
  function PearsonOfValues(m: Libm, x: seq<real>, y: seq<real>): (r: Option<real>)
    requires |x| == |y| && |x| > 0
    ensures r.Some? ==> r.value >= 0.0
  {
    var meanX, meanY := Mean(x), Mean(y);
    var numerator := SumProdDev(x, meanX, y, meanY);
    var denominator := m.sqrt(Prod(SumSqDev(x, meanX), SumSqDev(y, meanY)));
    if denominator == 0.0 then None else Some(AbsR(numerator / denominator))
  }

  /** `pearson_correlation`: None for fewer than 5 points in either input,
      for unequal lengths and for a non-finite sample; otherwise the
      correlation of the samples' values. */
  function PearsonCorrelation(m: Libm, x: seq<F64>, y: seq<F64>): (r: Option<real>)
    ensures r.Some? ==> |x| >= 5 && |x| == |y| && AllFinite(x) && AllFinite(y)
    ensures |x| >= 5 && |x| == |y| && AllFinite(x) && AllFinite(y) ==>
      r == PearsonOfValues(m, Values(x), Values(y))
    ensures r.Some? ==> r.value >= 0.0
  {
    if |x| < 5 then None
    else if |y| < 5 then None
    else if |x| != |y| then None
    else if !AllFinite(x) || !AllFinite(y) then None
    else PearsonOfValues(m, Values(x), Values(y))
  }

  /** The denominator is zero, and the result None, exactly when one of
      the series is constant. */
  lemma {:induction false} PearsonOfValuesNoneIffFlat(m: Libm, x: seq<real>, y: seq<real>)
    requires SqrtFacts(m)
    requires |x| == |y| && |x| > 0
    ensures PearsonOfValues(m, x, y).None? <==>
      SumSqDev(x, Mean(x)) == 0.0 || SumSqDev(y, Mean(y)) == 0.0
  {
    var sx, sy := SumSqDev(x, Mean(x)), SumSqDev(y, Mean(y));
    SumSqDevNonNegative(x, Mean(x));
    SumSqDevNonNegative(y, Mean(y));
    if sx == 0.0 || sy == 0.0 {
      assert Prod(sx, sy) == 0.0 * 0.0;
      assert RootOfSquare(m, 0.0);
    } else {
      PositiveProduct(sx, sy);
    }
  }

  /** Every way `pearson_correlation` can give None: too few points, unequal
      lengths, a non-finite sample or a constant series. */
  lemma {:induction false} PearsonNoneIff(m: Libm, x: seq<F64>, y: seq<F64>)
    requires SqrtFacts(m)
    ensures PearsonCorrelation(m, x, y).None? <==>
      |x| < 5 || |x| != |y| || !AllFinite(x) || !AllFinite(y) ||
      SumSqDev(Values(x), Mean(Values(x))) == 0.0 || SumSqDev(Values(y), Mean(Values(y))) == 0.0
  {
    if |x| >= 5 && |x| == |y| && AllFinite(x) && AllFinite(y) {
      PearsonOfValuesNoneIffFlat(m, Values(x), Values(y));
    }
  }

  /** Samples on a line `y = a + b·x` correlate perfectly whatever the sign
      of the slope, since the absolute value is returned; a flat line or a
      constant x gives None. */
  lemma {:induction false} PearsonOnLine(m: Libm, x: seq<F64>, y: seq<F64>, a: real, b: real)
    requires SqrtFacts(m)
    requires |x| >= 5 && AllFinite(x) && AllFinite(y) && OnLine(Values(x), Values(y), a, b)
    ensures PearsonCorrelation(m, x, y) ==
      if b != 0.0 && SumSqDev(Values(x), Mean(Values(x))) != 0.0 then Some(1.0) else None
  {
    var vx, vy := Values(x), Values(y);
    var mx, my := Mean(vx), Mean(vy);
    var sxx := SumSqDev(vx, mx);
    SumSqDevNonNegative(vx, mx);
    assert my == a + Prod(b, mx) by {
      LinRegs.MeanOfLine(vx, vy, a, b);
    }
    SumProdDevOnLineAt(vx, mx, vy, a, b, my);
    SumSqDevOnLineAt(vx, mx, vy, a, b, my);
    var k := AbsR(b) * sxx;
    assert Prod(sxx, Prod(Sq(b), sxx)) == k * k;
    assert RootOfSquare(m, k);
    if b != 0.0 && sxx != 0.0 {
      assert k > 0.0;
      assert Prod(b, sxx) / k == (if b > 0.0 then 1.0 else -1.0);
    } else {
      assert k == 0.0;
    }
  }

  /** The anti-correlated series of the source's test gives 1, not -1. */
  lemma PearsonOfReversed(m: Libm)
    requires SqrtFacts(m)
    ensures PearsonCorrelation(m, [Fin(1.0), Fin(2.0), Fin(3.0), Fin(4.0), Fin(5.0)],
                                  [Fin(5.0), Fin(4.0), Fin(3.0), Fin(2.0), Fin(1.0)]) == Some(1.0)
  {
    var x := [Fin(1.0), Fin(2.0), Fin(3.0), Fin(4.0), Fin(5.0)];
    var y := [Fin(5.0), Fin(4.0), Fin(3.0), Fin(2.0), Fin(1.0)];
    var vx := Values(x);
    assert vx == [1.0, 2.0, 3.0, 4.0, 5.0];
    OnLineFromPoints(vx, Values(y), 6.0, -1.0);
    var s1, s2, s3, s4 := [2.0, 3.0, 4.0, 5.0], [3.0, 4.0, 5.0], [4.0, 5.0], [5.0];
    assert vx[1..] == s1 && s1[1..] == s2 && s2[1..] == s3 && s3[1..] == s4 && s4[1..] == [];
    assert Sum(s4) == 5.0 && Sum(s3) == 9.0 && Sum(s2) == 12.0 && Sum(s1) == 14.0 && Sum(vx) == 15.0;
    assert SumSqDev(s4, 3.0) == 4.0 && SumSqDev(s3, 3.0) == 5.0 && SumSqDev(s2, 3.0) == 5.0;
    assert SumSqDev(s1, 3.0) == 6.0 && SumSqDev(vx, 3.0) == 10.0;
    PearsonOnLine(m, x, y, 6.0, -1.0);
  }

  lemma {:induction false} SumProdDevSymmetric(x: seq<real>, cx: real, y: seq<real>, cy: real)
    requires |x| == |y|
    ensures SumProdDev(x, cx, y, cy) == SumProdDev(y, cy, x, cx)
  {
    if x != [] {
      SumProdDevSymmetric(x[1..], cx, y[1..], cy);
    }
  }

  lemma {:induction false} SumProdDevSelf(x: seq<real>, c: real)
    ensures SumProdDev(x, c, x, c) == SumSqDev(x, c)
  {
    if x != [] {
      SumProdDevSelf(x[1..], c);
    }
  }

  /** The correlation does not depend on which series is x. */
  lemma {:induction false} PearsonSymmetric(m: Libm, x: seq<F64>, y: seq<F64>)
    ensures PearsonCorrelation(m, x, y) == PearsonCorrelation(m, y, x)
  {
    if |x| >= 5 && |y| >= 5 && |x| == |y| && AllFinite(x) && AllFinite(y) {
      var vx, vy := Values(x), Values(y);
      SumProdDevSymmetric(vx, Mean(vx), vy, Mean(vy));
      assert Prod(SumSqDev(vx, Mean(vx)), SumSqDev(vy, Mean(vy))) == Prod(SumSqDev(vy, Mean(vy)), SumSqDev(vx, Mean(vx)));
    }
  }

  /** A series correlates perfectly with itself, as long as it is not
      constant (the denominator is then zero). */
  lemma {:induction false} PearsonOfSelf(m: Libm, x: seq<F64>)
    requires SqrtFacts(m)
    requires |x| >= 5 && AllFinite(x)
    ensures PearsonCorrelation(m, x, x).Some? <==> exists i :: 0 <= i < |x| && x[i].v != Mean(Values(x))
    ensures PearsonCorrelation(m, x, x).Some? ==> PearsonCorrelation(m, x, x).value == 1.0
  {
    var v := Values(x);
    var c := Mean(v);
    var s := SumSqDev(v, c);
    SumProdDevSelf(v, c);
    SumSqDevNonNegative(v, c);
    SumSqDevZero(v, c);
    assert RootOfSquare(m, s);
    if s == 0.0 {
      assert s * s == 0.0;
    } else {
      assert s / s == 1.0;
    }
  }

  /** `fast_pearson`: the same statistic in one accumulating pass. Its
      inputs are taken to be finite. */
  method FastPearson(m: Libm, x: seq<real>, y: seq<real>) returns (r: Option<real>)
    ensures r == PearsonCorrelation(m, Fins(x), Fins(y))
  {
    if |x| < 5 || |x| != |y| {
      assert |Fins(x)| == |x| && |Fins(y)| == |y|;
      return None;
    }
    var n := |x| as real;
    var meanX := Sum(x) / n;
    var meanY := Sum(y) / n;
    var num, denomX, denomY := 0.0, 0.0, 0.0;
    var i := 0;
    while i < |x|
      invariant 0 <= i <= |x|
      invariant num + SumProdDev(x[i..], meanX, y[i..], meanY) == SumProdDev(x, meanX, y, meanY)
      invariant denomX + SumSqDev(x[i..], meanX) == SumSqDev(x, meanX)
      invariant denomY + SumSqDev(y[i..], meanY) == SumSqDev(y, meanY)
    {
      var dx := x[i] - meanX;
      var dy := y[i] - meanY;
      SumProdDevAt(x, meanX, y, meanY, i);
      SumSqDevAt(x, meanX, i);
      SumSqDevAt(y, meanY, i);
      num := num + Prod(dx, dy);
      denomX := denomX + Sq(dx);
      denomY := denomY + Sq(dy);
      i := i + 1;
    }
    assert x[|x|..] == [] && y[|y|..] == [];
    var denom := m.sqrt(Prod(denomX, denomY));
    if denom == 0.0 {
      r := None;
    } else {
      r := Some(AbsR(num / denom));
    }
    assert meanX == Mean(x) && meanY == Mean(y);
    assert num == SumProdDev(x, meanX, y, meanY);
    assert denomX == SumSqDev(x, meanX) && denomY == SumSqDev(y, meanY);
    assert r == PearsonOfValues(m, x, y);
    assert PearsonCorrelation(m, Fins(x), Fins(y)) == PearsonOfValues(m, x, y) by {
      assert Values(Fins(x)) == x && Values(Fins(y)) == y;
    }
  }

  // ---------------------------------------------------------------- Huber

  /** `weight_huber`: 1 inside the threshold, k/|r| outside. A zero residual
      outside a negative threshold divides by zero. */
  function WeightHuber(r: real, k: real): (w: F64)
    ensures w.Fin? <==> !(k < 0.0 && r == 0.0)
    ensures AbsR(r) <= k ==> w == Fin(1.0)
    ensures AbsR(r) > k && r != 0.0 ==> w == Fin(k / AbsR(r))
  {
    var absR := AbsR(r);
    if absR <= k then Fin(1.0) else DivR(k, absR)
  }

  /** For a positive threshold the weight lies in (0, 1], and a weighted
      residual never exceeds the threshold: w·|r| = min(|r|, k). */
  lemma {:induction false} WeightHuberBounds(r: real, k: real)
    requires k > 0.0
    ensures WeightHuber(r, k).Fin?
    ensures 0.0 < WeightHuber(r, k).v <= 1.0
    ensures WeightHuber(r, k).v * AbsR(r) == if AbsR(r) <= k then AbsR(r) else k
  {
    var a := AbsR(r);
    if a > k {
      assert WeightHuber(r, k).v == k / a;
      QuotientBelowOne(k, a);
    }
  }

  lemma {:induction false} NonNegativeProduct(a: real, b: real)
    requires a >= 0.0 && b >= 0.0
    ensures a * b >= 0.0
  {
  }

  lemma {:induction false} QuotientBelowOne(k: real, a: real)
    requires 0.0 < k < a
    ensures 0.0 < k / a < 1.0 && k / a * a == k
  {
    var q := k / a;
    assert q * a == k;
    assert q > 0.0;
    if q >= 1.0 {
      NonNegativeProduct(q - 1.0, a);
      assert false;
    }
  }

  // ---------------------------------------------------------------- fit quality

  /** `rmse`: the root of the mean squared difference; None for unequal
      or empty inputs. */
  function Rmse(m: Libm, y: seq<real>, yHat: seq<real>): (r: Option<real>)
    ensures r.Some? <==> |y| == |yHat| && |y| > 0
  {
    if |y| != |yHat| || |y| == 0 then None
    else Some(m.sqrt(SumSqDiff(y, yHat) / |y| as real))
  }

  /** A perfect prediction has zero error. */
  lemma {:induction false} RmseOfPerfectFit(m: Libm, y: seq<real>)
    requires SqrtFacts(m) && |y| > 0
    ensures Rmse(m, y, y) == Some(0.0)
  {
    SumSqDiffZero(y, y);
    assert RootOfSquare(m, 0.0);
  }

  /** `aic_from_rss`: +∞ for a non-positive residual sum or no samples. */
  function AicFromRss(m: Libm, rss: real, n: nat, k: nat): (r: F64)
    ensures r.PosInf? <==> rss <= 0.0 || n == 0
    ensures !r.PosInf? ==> r.Fin?
  {
    if rss <= 0.0 || n == 0 then PosInf
    else Fin(n as real * m.ln(rss / n as real) + 2.0 * k as real)
  }

  /** Each extra parameter costs exactly 2. */
  lemma {:induction false} AicParameterPenalty(m: Libm, rss: real, n: nat, k: nat)
    requires rss > 0.0 && n > 0
    ensures AicFromRss(m, rss, n, k + 1).v == AicFromRss(m, rss, n, k).v + 2.0
  {
  }

  /** `r2_from_predictions`: None for unequal lengths, fewer than 2 points
      or constant y. */
  function R2FromPredictions(y: seq<real>, yHat: seq<real>): (r: Option<real>)
    ensures r.Some? ==> |y| == |yHat| && |y| >= 2 && SumSqDev(y, Mean(y)) != 0.0
    ensures |y| == |yHat| && |y| >= 2 && SumSqDev(y, Mean(y)) != 0.0 ==> r.Some?
  {
    if |y| != |yHat| || |y| < 2 then None
    else
      var ssRes := SumSqDiff(y, yHat);
      var ssTot := SumSqDev(y, Mean(y));
      if ssTot == 0.0 then None else Some(1.0 - ssRes / ssTot)
  }

  /** R² never exceeds 1, and reaches it exactly for a perfect prediction. */
  lemma {:induction false} R2AtMostOne(y: seq<real>, yHat: seq<real>)
    requires R2FromPredictions(y, yHat).Some?
    ensures R2FromPredictions(y, yHat).value <= 1.0
    ensures R2FromPredictions(y, yHat).value == 1.0 <==> y == yHat
  {
    var ssRes, ssTot := SumSqDiff(y, yHat), SumSqDev(y, Mean(y));
    SumSqDiffNonNegative(y, yHat);
    SumSqDiffZero(y, yHat);
    SumSqDevNonNegative(y, Mean(y));
    assert ssTot > 0.0;
    assert ssRes / ssTot >= 0.0;
    assert ssRes / ssTot == 0.0 <==> ssRes == 0.0;
  }

  /** `adjusted_r2`: unchanged when there are too few points to adjust. */
  function AdjustedR2(r2: real, n: nat, k: nat): (r: real)
    ensures n <= k + 1 ==> r == r2
  {
    if n <= k + 1 then r2
    else 1.0 - Prod(1.0 - r2, n as real - 1.0) / (n as real - k as real - 1.0)
  }

  /** Adjusting never raises an R² that is at most 1, and leaves a perfect
      R² or a model without predictors alone. */
  lemma {:induction false} AdjustedR2AtMostR2(r2: real, n: nat, k: nat)
    requires r2 <= 1.0
    ensures AdjustedR2(r2, n, k) <= r2
    ensures r2 == 1.0 || k == 0 ==> AdjustedR2(r2, n, k) == r2
  {
    if n > k + 1 {
      ScaledLoss(1.0 - r2, n as real - 1.0, n as real - k as real - 1.0);
    }
  }

  /** A non-negative loss scaled by a ratio of at least 1 does not shrink,
      and stays as it is when the ratio is 1 or the loss is 0. */
  lemma {:induction false} ScaledLoss(d: real, a: real, b: real)
    requires d >= 0.0 && 0.0 < b <= a
    ensures Prod(d, a) / b >= d
    ensures a == b || d == 0.0 ==> Prod(d, a) / b == d
  {
    var q := a / b;
    assert q >= 1.0;
    assert Prod(d, a) / b == d * q;
    assert d * q - d == d * (q - 1.0);
    assert d * (q - 1.0) >= 0.0 by {
      NonNegativeProduct(d, q - 1.0);
    }
  }

  // ---------------------------------------------------------------- median and MAD

  /** A double that is not NaN: the values `median` sorts. */
  type Num = x: F64 | !x.NaN? witness Fin(0.0)

  /** The comparison `partial_cmp` gives once NaN is filtered out. */
  predicate NumLe(a: Num, b: Num)
  {
    Le(a, b)
  }

  lemma {:induction false} NumLeTotalPreorder()
    ensures TotalPreorder(NumLe)
  {
    forall a: Num, b: Num ensures NumLe(a, b) || NumLe(b, a) {
      LeTotal(a, b);
    }
    forall a: Num, b: Num, c: Num | NumLe(a, b) && NumLe(b, c) ensures NumLe(a, c) {
      LeTransitive(a, b, c);
    }
  }

  /** The samples that are not NaN, in order. */
  function NonNaN(s: seq<F64>): (r: seq<Num>)
    ensures |r| <= |s|
  {
    if s == [] then []
    else if s[0].NaN? then NonNaN(s[1..])
    else [s[0]] + NonNaN(s[1..])
  }

  /** Dropping the NaN samples keeps every other sample, and keeps all of
      them when there is no NaN. */
  lemma {:induction false} NonNaNMembers(s: seq<F64>)
    ensures forall x :: x in NonNaN(s) <==> x in s && !x.NaN?
    ensures (forall i :: 0 <= i < |s| ==> !s[i].NaN?) ==> NonNaN(s) == s
  {
    if s != [] {
      NonNaNMembers(s[1..]);
      assert s == [s[0]] + s[1..];
      if forall i :: 0 <= i < |s| ==> !s[i].NaN? {
        assert forall i :: 0 <= i < |s[1..]| ==> !s[1..][i].NaN? by {
          forall i | 0 <= i < |s[1..]| ensures !s[1..][i].NaN? {
            assert s[1..][i] == s[i + 1];
          }
        }
      }
    }
  }

  /** `median`: NaN samples are ignored; nothing left gives NaN; an even
      count gives the mean of the two middle values. */
  function Median(data: seq<F64>): (r: F64)
    ensures NonNaN(data) == [] ==> r.NaN?
  {
    var sorted := Sort(NonNaN(data), NumLe);
    var len := |sorted|;
    if len == 0 then NaN
    else
      var mid := len / 2;
      if len % 2 == 0 then Div(Add(sorted[mid - 1], sorted[mid]), Fin(2.0))
      else sorted[mid]
  }

  /** The mean of two ordered doubles, when it is not NaN, lies between them. */
  lemma {:induction false} MidpointBetween(a: Num, b: Num)
    requires Le(a, b)
    ensures var c := Div(Add(a, b), Fin(2.0)); !c.NaN? ==> Le(a, c) && Le(c, b)
  {
  }

  function Below(r: F64): Num -> bool
  {
    (x: Num) => Lt(x, r)
  }

  function Above(r: F64): Num -> bool
  {
    (x: Num) => Lt(r, x)
  }

  /** In a sorted sequence, only the elements before one that is at
      least `r` can lie below `r`. */
  lemma {:induction false} BelowBound(s: seq<Num>, r: Num, k: nat)
    requires k < |s| && Sorted(s, NumLe) && Le(r, s[k])
    ensures Count(s, Below(r)) <= k
  {
    forall i | k <= i < |s| ensures !Below(r)(s[i]) {
      if i > k {
        assert NumLe(s[k], s[i]);
        LeTransitive(r, s[k], s[i]);
      }
      if Lt(s[i], r) {
        LeAntisymmetric(s[i], r);
      }
    }
    CountPrefixBound(s, k, Below(r));
  }

  /** In a sorted sequence, only the elements after one that is at most
      `r` can lie above `r`. */
  lemma {:induction false} AboveBound(s: seq<Num>, r: Num, k: nat)
    requires k < |s| && Sorted(s, NumLe) && Le(s[k], r)
    ensures Count(s, Above(r)) <= |s| - k - 1
  {
    forall i | 0 <= i < k + 1 ensures !Above(r)(s[i]) {
      if i < k {
        assert NumLe(s[i], s[k]);
        LeTransitive(s[i], s[k], r);
      }
      if Lt(r, s[i]) {
        LeAntisymmetric(s[i], r);
      }
    }
    CountSuffixBound(s, k + 1, Above(r));
  }

  /** The median splits the samples: at most half of those that are not
      NaN lie strictly below it and at most half strictly above it. An odd
      count gives one of the samples. */
  lemma {:induction false} MedianSplits(data: seq<F64>)
    requires !Median(data).NaN?
    ensures 2 * Count(NonNaN(data), Below(Median(data))) <= |NonNaN(data)|
    ensures 2 * Count(NonNaN(data), Above(Median(data))) <= |NonNaN(data)|
    ensures |NonNaN(data)| % 2 == 1 ==> Median(data) in data
  {
    var t := NonNaN(data);
    var s := Sort(t, NumLe);
    var r: Num := Median(data);
    NonNaNMembers(data);
    SortSorted(t, NumLe);
    CountSort(t, NumLe, Below(r));
    CountSort(t, NumLe, Above(r));
    SortedSplits(s, r);
    if |s| % 2 == 1 {
      SortPermutes(t, NumLe);
      assert s[|s| / 2] in multiset(t);
    }
  }

  /** The median of a sorted, NaN-free sequence has at most half of it
      below and at most half above. */
  lemma {:induction false} SortedSplits(s: seq<Num>, r: Num)
    requires Sorted(s, NumLe) && |s| > 0
    requires r == (if |s| % 2 == 0 then Div(Add(s[|s| / 2 - 1], s[|s| / 2]), Fin(2.0)) else s[|s| / 2])
    ensures 2 * Count(s, Below(r)) <= |s| && 2 * Count(s, Above(r)) <= |s|
  {
    var mid := |s| / 2;
    NumLeTotalPreorder();
    if |s| % 2 == 0 {
      assert NumLe(s[mid - 1], s[mid]);
      MidpointBetween(s[mid - 1], s[mid]);
      BelowBound(s, r, mid);
      AboveBound(s, r, mid - 1);
    } else {
      BelowBound(s, r, mid);
      AboveBound(s, r, mid);
    }
  }

  /** Without NaN samples, sorting keeps every sample and only those: a
      property of all the samples holds of each sorted one. */
  lemma {:induction false} SortedKeeps(data: seq<F64>, p: F64 -> bool, j: nat)
    requires j < |data| && forall i :: 0 <= i < |data| ==> !data[i].NaN? && p(data[i])
    ensures |Sort(NonNaN(data), NumLe)| == |data| && p(Sort(NonNaN(data), NumLe)[j])
  {
    NonNaNMembers(data);
    var s := Sort(NonNaN(data), NumLe);
    SortPermutes(NonNaN(data), NumLe);
    assert s[j] in multiset(s);
    assert s[j] in data;
  }

  /** All samples finite and at least one: the median is finite. */
  lemma {:induction false} MedianFinite(data: seq<F64>)
    requires |data| > 0 && AllFinite(data)
    ensures Median(data).Fin?
  {
    var mid := |data| / 2;
    var fin := (x: F64) => x.Fin?;
    var s := Sort(NonNaN(data), NumLe);
    assert |s| == |data| && s[mid].Fin? by {
      SortedKeeps(data, fin, mid);
    }
    if |data| % 2 == 0 {
      assert s[mid - 1].Fin? by {
        SortedKeeps(data, fin, mid - 1);
      }
    }
  }

  /** The median of equal samples is that sample. */
  lemma {:induction false} MedianOfConstant(data: seq<F64>, c: Num)
    requires |data| > 0
    requires forall i :: 0 <= i < |data| ==> data[i] == c
    ensures Median(data) == c
  {
    var mid := |data| / 2;
    var same := (x: F64) => x == c;
    var s := Sort(NonNaN(data), NumLe);
    assert |s| == |data| && s[mid] == c by {
      SortedKeeps(data, same, mid);
    }
    if |data| % 2 == 0 {
      assert s[mid - 1] == c by {
        SortedKeeps(data, same, mid - 1);
      }
      MidpointOfSame(c);
    }
  }

  /** The mean of a double with itself is that double. */
  lemma {:induction false} MidpointOfSame(c: Num)
    ensures Div(Add(c, c), Fin(2.0)) == c
  {
  }

  /** The lower clamp of the scale estimate. */
  const MadFloor: real := 0.000000000001

  /** The consistency constant `mad` divides by. */
  const MadDivisor: real := 0.6745

  /** |s[i] - c| for every sample. */
  function AbsDevs(s: seq<F64>, c: F64): (r: seq<F64>)
    ensures |r| == |s| && forall i :: 0 <= i < |s| ==> r[i] == Abs(Sub(s[i], c))
  {
    seq(|s|, i requires 0 <= i < |s| => Abs(Sub(s[i], c)))
  }

  /** The scale estimate `mad` computes: the median absolute deviation
      from the median over 0.6745, raised to at least 10^-12. */
  function MadOf(residuals: seq<F64>): F64
  {
    var mad := Div(Median(AbsDevs(residuals, Median(residuals))), Fin(MadDivisor));
    if Lt(mad, Fin(MadFloor)) then Fin(MadFloor) else mad
  }

  /** `mad`: overwrites a copy of the residuals with their absolute
      deviations from the median, then takes their median. */
  method Mad(residuals: seq<F64>) returns (r: F64)
    ensures r == MadOf(residuals)
  {
    var res := new F64[|residuals|](i requires 0 <= i < |residuals| => residuals[i]);
    assert res[..] == residuals;
    var med := Median(res[..]);
    var i := 0;
    while i < res.Length
      invariant 0 <= i <= res.Length
      invariant forall j :: 0 <= j < i ==> res[j] == Abs(Sub(residuals[j], med))
      invariant forall j :: i <= j < res.Length ==> res[j] == residuals[j]
    {
      res[i] := Abs(Sub(res[i], med));
      i := i + 1;
    }
    assert res[..] == AbsDevs(residuals, med);
    var mad := Div(Median(res[..]), Fin(MadDivisor));
    if Lt(mad, Fin(MadFloor)) {
      r := Fin(MadFloor);
    } else {
      r := mad;
    }
  }

  /** A finite scale is never below the floor. */
  lemma {:induction false} MadAtLeastFloor(residuals: seq<F64>)
    ensures MadOf(residuals).Fin? ==> MadOf(residuals).v >= MadFloor
  {
  }

  /** Finite residuals give a finite scale. */
  lemma {:induction false} MadFinite(residuals: seq<F64>)
    requires |residuals| > 0 && AllFinite(residuals)
    ensures MadOf(residuals).Fin?
  {
    MedianFinite(residuals);
    var devs := AbsDevs(residuals, Median(residuals));
    assert AllFinite(devs);
    MedianFinite(devs);
  }

  /** Deviations from NaN are all NaN. */
  lemma {:induction false} AbsDevsFromNaN(s: seq<F64>)
    ensures NonNaN(AbsDevs(s, NaN)) == []
  {
    if s != [] {
      assert AbsDevs(s, NaN)[1..] == AbsDevs(s[1..], NaN);
      AbsDevsFromNaN(s[1..]);
    }
  }

  /** No residual that is not NaN: the scale is NaN, which the clamp lets through. */
  lemma {:induction false} MadOfNaN(residuals: seq<F64>)
    requires NonNaN(residuals) == []
    ensures MadOf(residuals).NaN?
  {
    AbsDevsFromNaN(residuals);
  }

  /** Residuals that all agree give the floor scale. */
  lemma {:induction false} MadOfConstant(residuals: seq<F64>, c: real)
    requires |residuals| > 0
    requires forall i :: 0 <= i < |residuals| ==> residuals[i] == Fin(c)
    ensures MadOf(residuals) == Fin(MadFloor)
  {
    assert Median(residuals) == Fin(c) by {
      MedianOfConstant(residuals, Fin(c));
    }
    var devs := AbsDevs(residuals, Fin(c));
    assert Median(devs) == Fin(0.0) by {
      MedianOfConstant(devs, Fin(0.0));
    }
  }
}
