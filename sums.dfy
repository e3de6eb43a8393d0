// Sums over samples, the building blocks of the regression statistics.
// Rust folds `iter().sum()` from the left; in exact arithmetic the order
// does not matter.
module Sums {

  function Sum(s: seq<real>): real
  {
    if s == [] then 0.0 else s[0] + Sum(s[1..])
  }

  function Mean(s: seq<real>): real
    requires |s| > 0
  {
    Sum(s) / |s| as real
  }

  /** The sum is the count times the mean. */
  lemma {:induction false} SumIsCountTimesMean(s: seq<real>)
    requires |s| > 0
    ensures Sum(s) == Prod(|s| as real, Mean(s))
  {
  }

  /** `s.iter().map(|v| v - c)`. */
  function Shifted(s: seq<real>, c: real): (r: seq<real>)
    ensures |r| == |s| && forall i :: 0 <= i < |s| ==> r[i] == s[i] - c
  {
    seq(|s|, i requires 0 <= i < |s| => s[i] - c)
  }

  /** Σ (s[i] - c)². */
  function SumSqDev(s: seq<real>, c: real): real
  {
    if s == [] then 0.0 else Sq(s[0] - c) + SumSqDev(s[1..], c)
  }

  /** Σ (x[i] - cx)(y[i] - cy). */
  function SumProdDev(x: seq<real>, cx: real, y: seq<real>, cy: real): real
    requires |x| == |y|
  {
    if x == [] then 0.0 else Prod(x[0] - cx, y[0] - cy) + SumProdDev(x[1..], cx, y[1..], cy)
  }

  /** Σ (y[i] - f[i])², the residual sum of squares of predictions `f`. */
  function SumSqDiff(y: seq<real>, f: seq<real>): real
    requires |y| == |f|
  {
    if y == [] then 0.0 else Sq(y[0] - f[0]) + SumSqDiff(y[1..], f[1..])
  }

  function Sq(d: real): real
  {
    d * d
  }

  function Prod(a: real, b: real): real
  {
    a * b
  }

  /** A quotient times its divisor is the dividend. */
  lemma {:induction false} QuotientTimes(p: real, q: real)
    requires q != 0.0
    ensures Prod(p / q, q) == p
  {
  }

  /** The identity, used only by `SqPositive`. For a negative `d` the solver
      does not get from `(-d) * (-d) > 0` to `d * d > 0` when both factors are
      spelled `d`; spelling the second one `Same(d)` keeps the product from being
      rewritten as a square until the last step, and the proof goes through. */
  function Same(x: real): real
  {
    x
  }

  lemma {:induction false} PositiveProduct(a: real, b: real)
    requires a > 0.0 && b > 0.0
    ensures a * b > 0.0
  {
  }

  lemma {:induction false} SqPositive(d: real)
    ensures Sq(d) >= 0.0
    ensures d != 0.0 ==> Sq(d) > 0.0
  {
    if d > 0.0 {
      PositiveProduct(d, Same(d));
    } else if d < 0.0 {
      PositiveProduct(-d, -Same(d));
      assert Sq(d) == (-d) * (-Same(d));
    }
  }

  lemma {:induction false} SumSqDevNonNegative(s: seq<real>, c: real)
    ensures SumSqDev(s, c) >= 0.0
  {
    if s != [] {
      SumSqDevNonNegative(s[1..], c);
      SqPositive(s[0] - c);
    }
  }

  lemma {:induction false} SumSqDiffNonNegative(y: seq<real>, f: seq<real>)
    requires |y| == |f|
    ensures SumSqDiff(y, f) >= 0.0
  {
    if y != [] {
      SumSqDiffNonNegative(y[1..], f[1..]);
      SqPositive(y[0] - f[0]);
    }
  }

  /** A sum of squared deviations is zero exactly when every sample equals `c`. */
  lemma {:induction false} SumSqDevZero(s: seq<real>, c: real)
    ensures SumSqDev(s, c) == 0.0 <==> forall i :: 0 <= i < |s| ==> s[i] == c
  {
    if s != [] {
      SumSqDevZero(s[1..], c);
      SumSqDevNonNegative(s[1..], c);
      SqPositive(s[0] - c);
      if SumSqDev(s, c) == 0.0 {
        forall i | 0 <= i < |s| ensures s[i] == c {
          if i > 0 { assert s[i] == s[1..][i - 1]; }
        }
      }
    }
  }

  /** A sum of squared differences is zero exactly when the sequences agree. */
  lemma {:induction false} SumSqDiffZero(y: seq<real>, f: seq<real>)
    requires |y| == |f|
    ensures SumSqDiff(y, f) == 0.0 <==> y == f
  {
    if y != [] {
      SumSqDiffZero(y[1..], f[1..]);
      SumSqDiffNonNegative(y[1..], f[1..]);
      SqPositive(y[0] - f[0]);
      if SumSqDiff(y, f) == 0.0 {
        assert y == [y[0]] + y[1..] && f == [f[0]] + f[1..];
      }
    }
  }

  lemma {:induction false} SumShifted(s: seq<real>, c: real)
    ensures Sum(Shifted(s, c)) == Sum(s) - |s| as real * c
  {
    if s != [] {
      SumShifted(s[1..], c);
      assert Shifted(s, c)[1..] == Shifted(s[1..], c);
    }
  }

  /** Deviations are unchanged when every sample and the centre move together. */
  lemma {:induction false} SumSqDevShifted(s: seq<real>, c: real, d: real)
    ensures SumSqDev(Shifted(s, d), c - d) == SumSqDev(s, c)
  {
    if s != [] {
      SumSqDevShifted(s[1..], c, d);
      assert Shifted(s, d)[1..] == Shifted(s[1..], d);
    }
  }

  lemma {:induction false} SumProdDevShifted(x: seq<real>, cx: real, y: seq<real>, cy: real, d: real)
    requires |x| == |y|
    ensures SumProdDev(Shifted(x, d), cx - d, y, cy) == SumProdDev(x, cx, y, cy)
  {
    if x != [] {
      SumProdDevShifted(x[1..], cx, y[1..], cy, d);
      assert Shifted(x, d)[1..] == Shifted(x[1..], d);
    }
  }

  /** The mean of shifted samples is the shifted mean. */
  lemma {:induction false} MeanShifted(s: seq<real>, c: real)
    requires |s| > 0
    ensures Mean(Shifted(s, c)) == Mean(s) - c
  {
    SumShifted(s, c);
    var n := |s| as real;
    calc {
      Mean(Shifted(s, c));
      (Sum(s) - n * c) / n;
      Sum(s) / n - c;
    }
  }

  /** Every `y[i]` is `a + b·x[i]`, stated one sample at a time. */
  predicate OnLine(x: seq<real>, y: seq<real>, a: real, b: real)
  {
    |x| == |y| && (x == [] || (y[0] == a + Prod(b, x[0]) && OnLine(x[1..], y[1..], a, b)))
  }

  lemma {:induction false} OnLineAt(x: seq<real>, y: seq<real>, a: real, b: real, i: nat)
    requires OnLine(x, y, a, b) && i < |x|
    ensures y[i] == a + Prod(b, x[i])
  {
    if i > 0 {
      OnLineAt(x[1..], y[1..], a, b, i - 1);
      assert x[1..][i - 1] == x[i] && y[1..][i - 1] == y[i];
    }
  }

  lemma {:induction false} OnLineFromPoints(x: seq<real>, y: seq<real>, a: real, b: real)
    requires |x| == |y| && forall i :: 0 <= i < |x| ==> y[i] == a + Prod(b, x[i])
    ensures OnLine(x, y, a, b)
  {
    if x != [] {
      assert forall i :: 0 <= i < |x[1..]| ==> y[1..][i] == a + Prod(b, x[1..][i]) by {
        forall i | 0 <= i < |x[1..]| ensures y[1..][i] == a + Prod(b, x[1..][i]) {
          assert y[1..][i] == y[i + 1] && x[1..][i] == x[i + 1];
        }
      }
      OnLineFromPoints(x[1..], y[1..], a, b);
    }
  }

  lemma {:induction false} OnLineIff(x: seq<real>, y: seq<real>, a: real, b: real)
    ensures OnLine(x, y, a, b) <==> |x| == |y| && forall i :: 0 <= i < |x| ==> y[i] == a + Prod(b, x[i])
  {
    if OnLine(x, y, a, b) {
      forall i | 0 <= i < |x| ensures y[i] == a + Prod(b, x[i]) {
        OnLineAt(x, y, a, b, i);
      }
    }
    if |x| == |y| && forall i :: 0 <= i < |x| ==> y[i] == a + Prod(b, x[i]) {
      OnLineFromPoints(x, y, a, b);
    }
  }

  /** The points of the line `a + b·x` above every `x[i]`. */
  function LineValues(x: seq<real>, a: real, b: real): (z: seq<real>)
    ensures OnLine(x, z, a, b)
  {
    if x == [] then [] else
      var z := [a + Prod(b, x[0])] + LineValues(x[1..], a, b);
      assert z[1..] == LineValues(x[1..], a, b);
      z
  }

  /** A stretch of samples on a line is on the line. */
  lemma {:induction false} OnLineSlice(x: seq<real>, y: seq<real>, a: real, b: real, lo: nat, hi: nat)
    requires OnLine(x, y, a, b) && lo <= hi <= |x|
    ensures OnLine(x[lo..hi], y[lo..hi], a, b)
  {
    OnLineIff(x, y, a, b);
    OnLineIff(x[lo..hi], y[lo..hi], a, b);
    assert forall i :: 0 <= i < hi - lo ==> x[lo..hi][i] == x[lo + i] && y[lo..hi][i] == y[lo + i];
  }

  /** Shifting x by `c` moves the intercept to `a + b·c`. */
  lemma {:induction false} OnLineShifted(x: seq<real>, y: seq<real>, a: real, b: real, c: real)
    requires OnLine(x, y, a, b)
    ensures OnLine(Shifted(x, c), y, a + Prod(b, c), b)
  {
    if x != [] {
      OnLineShifted(x[1..], y[1..], a, b, c);
      assert Shifted(x, c)[1..] == Shifted(x[1..], c);
      ShiftedPoint(x[0], c, a, b);
    }
  }

  lemma {:induction false} ShiftedPoint(v: real, c: real, a: real, b: real)
    ensures a + Prod(b, v) == (a + Prod(b, c)) + Prod(b, v - c)
  {
  }

  /** Samples on a line `y = a + b·x` sum to `n·a + b·Σx`. */
  lemma {:induction false} SumOnLine(x: seq<real>, y: seq<real>, a: real, b: real)
    requires OnLine(x, y, a, b)
    ensures Sum(y) == Prod(|x| as real, a) + Prod(b, Sum(x))
  {
    if x != [] {
      SumOnLine(x[1..], y[1..], a, b);
    }
  }

  /** On a line, the cross deviation about a point of the line is the
      slope times the squared deviation of x. */
  lemma {:induction false} SumProdDevOnLineAt(x: seq<real>, cx: real, y: seq<real>, a: real, b: real, cy: real)
    requires OnLine(x, y, a, b) && cy == a + Prod(b, cx)
    ensures SumProdDev(x, cx, y, cy) == Prod(b, SumSqDev(x, cx))
  {
    if x != [] {
      var t, u := Prod(x[0] - cx, y[0] - cy), SumProdDev(x[1..], cx, y[1..], cy);
      var p, q := Sq(x[0] - cx), SumSqDev(x[1..], cx);
      assert u == Prod(b, q) by {
        SumProdDevOnLineAt(x[1..], cx, y[1..], a, b, cy);
      }
      assert t == Prod(b, p) by {
        OnLineTerm(x[0], cx, y[0], a, b, cy);
      }
      Distribute(t, u, p, q, b);
    }
  }

  lemma {:induction false} Distribute(t: real, u: real, p: real, q: real, b: real)
    requires t == Prod(b, p) && u == Prod(b, q)
    ensures t + u == Prod(b, p + q)
  {
  }

  lemma {:induction false} OnLineTerm(x: real, cx: real, y: real, a: real, b: real, cy: real)
    requires y == a + Prod(b, x) && cy == a + Prod(b, cx)
    ensures Prod(x - cx, y - cy) == Prod(b, Sq(x - cx))
  {
    var d := x - cx;
    assert y - cy == b * d;
    assert d * (b * d) == b * (d * d);
  }

  /** On a line, the squared deviation of y about a point of the line is
      the slope squared times the squared deviation of x. */
  lemma {:induction false} SumSqDevOnLineAt(x: seq<real>, cx: real, y: seq<real>, a: real, b: real, cy: real)
    requires OnLine(x, y, a, b) && cy == a + Prod(b, cx)
    ensures SumSqDev(y, cy) == Prod(Sq(b), SumSqDev(x, cx))
  {
    if x != [] {
      SumSqDevOnLineAt(x[1..], cx, y[1..], a, b, cy);
      OnLineSqTerm(x[0], cx, y[0], a, b, cy);
      Distribute(Sq(y[0] - cy), SumSqDev(y[1..], cy), Sq(x[0] - cx), SumSqDev(x[1..], cx), Sq(b));
    }
  }

  lemma {:induction false} OnLineSqTerm(x: real, cx: real, y: real, a: real, b: real, cy: real)
    requires y == a + Prod(b, x) && cy == a + Prod(b, cx)
    ensures Sq(y - cy) == Prod(Sq(b), Sq(x - cx))
  {
    var d := x - cx;
    assert y - cy == b * d;
    assert (b * d) * (b * d) == (b * b) * (d * d);
  }

  /** Σ (y[i] - a - b·x[i]) = Σy - n·a - b·Σx. */
  lemma {:induction false} SumOfResiduals(x: seq<real>, y: seq<real>, a: real, b: real, r: seq<real>)
    requires |x| == |y| == |r|
    requires forall i :: 0 <= i < |x| ==> r[i] == y[i] - (a + Prod(b, x[i]))
    ensures Sum(r) == Sum(y) - Prod(|x| as real, a) - Prod(b, Sum(x))
  {
    var z := LineValues(x, a, b);
    SumOnLine(x, z, a, b);
    forall i | 0 <= i < |x| ensures r[i] == y[i] - z[i] {
      OnLineAt(x, z, a, b, i);
    }
    SumOfDifference(y, z, r);
  }

  lemma {:induction false} SumOfDifference(y: seq<real>, z: seq<real>, r: seq<real>)
    requires |y| == |z| == |r|
    requires forall i :: 0 <= i < |y| ==> r[i] == y[i] - z[i]
    ensures Sum(r) == Sum(y) - Sum(z)
  {
    if y != [] {
      assert forall i :: 0 <= i < |y[1..]| ==> r[1..][i] == y[1..][i] - z[1..][i] by {
        forall i | 0 <= i < |y[1..]| ensures r[1..][i] == y[1..][i] - z[1..][i] {
          assert r[1..][i] == r[i + 1] && y[1..][i] == y[i + 1] && z[1..][i] == z[i + 1];
        }
      }
      SumOfDifference(y[1..], z[1..], r[1..]);
    }
  }

  /** One step of a left-to-right pass over a sum of squared deviations. */
  lemma {:induction false} SumSqDevAt(s: seq<real>, c: real, i: nat)
    requires i < |s|
    ensures SumSqDev(s[i..], c) == Sq(s[i] - c) + SumSqDev(s[i + 1..], c)
  {
    assert s[i..][1..] == s[i + 1..];
  }

  /** One step of a left-to-right pass over a cross deviation sum. */
  lemma {:induction false} SumProdDevAt(x: seq<real>, cx: real, y: seq<real>, cy: real, i: nat)
    requires |x| == |y| && i < |x|
    ensures SumProdDev(x[i..], cx, y[i..], cy) == Prod(x[i] - cx, y[i] - cy) + SumProdDev(x[i + 1..], cx, y[i + 1..], cy)
  {
    assert x[i..][1..] == x[i + 1..] && y[i..][1..] == y[i + 1..];
  }
}
