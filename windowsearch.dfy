// The search for the gap-free window whose samples correlate best with
// time (crates/fluxrs-core/src/cycle/cycle.rs).
module WindowSearch {
  import opened Wrappers
  import opened Floats
  import opened Stats
  import opened Arith

  /** `(lo..=hi).step_by(step)`. */
  function Stepped(lo: nat, hi: nat, step: nat): (r: seq<nat>)
    requires step >= 1
    ensures forall x :: x in r ==> lo <= x <= hi
    decreases if lo <= hi then hi - lo + 1 else 0
  {
    if lo > hi then [] else [lo] + Stepped(lo + step, hi, step)
  }

  /** The range holds exactly the values from `lo` to `hi` a whole number
      of steps above `lo`. */
  lemma {:induction false} SteppedMember(lo: nat, hi: nat, step: nat, x: int)
    requires step >= 1
    ensures x in Stepped(lo, hi, step) <==> lo <= x <= hi && (x - lo) % step == 0
    decreases if lo <= hi then hi - lo + 1 else 0
  {
    if lo <= hi {
      var rest := Stepped(lo + step, hi, step);
      assert Stepped(lo, hi, step) == [lo] + rest;
      assert x in [lo] + rest <==> x == lo || x in rest;
      SteppedMember(lo + step, hi, step, x);
      if x >= lo + step {
        ModShift(x - (lo + step), step);
      } else if lo < x {
        ModUnique(x - lo, step, 0, x - lo);
      } else if x == lo {
        ModUnique(0, step, 0, 0);
      }
    }
  }

  /** The window starts at `start` and is `win` samples long, as the two
      nested `step_by` ranges produce it. */
  predicate Enumerated(minWindow: nat, maxLen: nat, step: nat, start: nat, win: nat)
    requires step >= 1
  {
    win in Stepped(minWindow, maxLen, step) && start in Stepped(0, SatSub(maxLen, win), step)
  }

  /** In numbers: the size runs from `minWindow` to the series length in
      whole steps, and the start from 0 in whole steps while the window
      fits the series. */
  lemma {:induction false} EnumeratedArithmetic(minWindow: nat, maxLen: nat, step: nat, start: nat, win: nat)
    requires step >= 1
    ensures Enumerated(minWindow, maxLen, step, start, win) <==>
      minWindow <= win <= maxLen && (win - minWindow) % step == 0 && start + win <= maxLen && start % step == 0
  {
    SteppedMember(minWindow, maxLen, step, win);
    SteppedMember(0, SatSub(maxLen, win), step, start);
  }

  /** The `(start, win_size)` pairs of one window size. */
  function StartsOf(win: nat, starts: seq<nat>): (r: seq<(nat, nat)>)
    ensures forall p :: p in r <==> p.1 == win && p.0 in starts
  {
    if starts == [] then [] else [(starts[0], win)] + StartsOf(win, starts[1..])
  }

  /** The `flat_map` over the window sizes. */
  function WindowsOf(sizes: seq<nat>, maxLen: nat, step: nat): (r: seq<(nat, nat)>)
    requires step >= 1
    ensures forall p :: p in r <==> p.1 in sizes && p.0 in Stepped(0, SatSub(maxLen, p.1), step)
  {
    if sizes == [] then []
    else StartsOf(sizes[0], Stepped(0, SatSub(maxLen, sizes[0]), step)) + WindowsOf(sizes[1..], maxLen, step)
  }

  /** Every window the search generates for a series of `maxLen`. */
  function Windows(minWindow: nat, maxLen: nat, step: nat): (r: seq<(nat, nat)>)
    requires step >= 1
    ensures forall p :: p in r ==> p.0 + p.1 <= maxLen
  {
    WindowsOf(Stepped(minWindow, maxLen, step), maxLen, step)
  }

  /** The enumeration holds exactly the windows of the stepped sizes at
      the stepped starts that fit the series. */
  lemma {:induction false} WindowsExactly(minWindow: nat, maxLen: nat, step: nat, start: nat, win: nat)
    requires step >= 1
    ensures (start, win) in Windows(minWindow, maxLen, step) <==> Enumerated(minWindow, maxLen, step, start, win)
  {
  }

  /** `gaps.get(start..end - 1)` exists and holds no gap: the window passes
      the filter. */
  predicate GapFree(gaps: seq<bool>, start: nat, win: nat)
  {
    var hi := SatSub(start + win, 1);
    start <= hi <= |gaps| && forall i :: start <= i < hi ==> !gaps[i]
  }

  /** `fast_pearson` of the window, 0 when it has none. */
  function WindowScore(m: Libm, dt: seq<real>, gas: seq<real>, start: nat, end: nat): real
    requires start <= end <= |gas| && end <= |dt|
  {
    PearsonCorrelation(m, Fins(dt[start..end]), Fins(gas[start..end])).UnwrapOr(0.0)
  }

  /** The `filter_map`: the gap-free windows with their scores, each as
      `(start, win, r)`; the end `start + win` is added when the best one
      is returned. */
  function Scored(m: Libm, dt: seq<real>, gas: seq<real>, gaps: seq<bool>, ws: seq<(nat, nat)>): (c: seq<(nat, nat, real)>)
    requires forall p :: p in ws ==> p.0 + p.1 <= |gas|
    requires |gas| <= |dt|
  {
    if ws == [] then []
    else
      var rest := Scored(m, dt, gas, gaps, ws[1..]);
      var p := ws[0];
      if GapFree(gaps, p.0, p.1) then [(p.0, p.1, WindowScore(m, dt, gas, p.0, p.0 + p.1))] + rest
      else rest
  }

  /** `reduce_with(|a, b| if a.2 > b.2 { a } else { b })` over the first `hi`
      candidates, taken in order. */
  function BestScoreIn(c: seq<(nat, nat, real)>, hi: nat): (r: nat)
    requires 0 < hi <= |c|
    ensures r < hi
  {
    if hi == 1 then 0
    else
      var acc := BestScoreIn(c, hi - 1);
      if c[acc].2 > c[hi - 1].2 then acc else hi - 1
  }

  /** The reduction keeps a highest score. */
  lemma {:induction false} BestScoreIsMaximum(c: seq<(nat, nat, real)>, hi: nat)
    requires 0 < hi <= |c|
    ensures forall x :: x in c[..hi] ==> x.2 <= c[BestScoreIn(c, hi)].2
  {
    if hi > 1 {
      BestScoreIsMaximum(c, hi - 1);
      assert c[..hi] == c[..hi - 1] + [c[hi - 1]];
    }
  }

  /** `find_best_window_for_gas_par`: the `(start, end, r)` of a gap-free
      window with the highest correlation, or None when every window has a
      gap. */
  function FindBestWindowForGasPar(m: Libm, dt: seq<real>, gas: seq<real>, gaps: seq<bool>, minWindow: nat, step: nat): (r: Option<(nat, nat, real)>)
    requires step >= 1 && |gas| <= |dt|
  {
    var c := Scored(m, dt, gas, gaps, Windows(minWindow, |gas|, step));
    if c == [] then None
    else
      var b := c[BestScoreIn(c, |c|)];
      Some((b.0, b.0 + b.1, b.2))
  }

  /** A candidate is a gap-free window of the enumeration with its score. */
  lemma {:induction false} ScoredMember(m: Libm, dt: seq<real>, gas: seq<real>, gaps: seq<bool>, ws: seq<(nat, nat)>, x: (nat, nat, real))
    requires forall p :: p in ws ==> p.0 + p.1 <= |gas|
    requires |gas| <= |dt|
    requires x in Scored(m, dt, gas, gaps, ws)
    ensures (x.0, x.1) in ws && GapFree(gaps, x.0, x.1) && x.2 == WindowScore(m, dt, gas, x.0, x.0 + x.1)
  {
    var p := ws[0];
    if !(GapFree(gaps, p.0, p.1) && x == (p.0, p.1, WindowScore(m, dt, gas, p.0, p.0 + p.1))) {
      ScoredMember(m, dt, gas, gaps, ws[1..], x);
    }
  }

  /** Every gap-free window of the enumeration is a candidate, with its
      score. */
  lemma {:induction false} ScoredKeeps(m: Libm, dt: seq<real>, gas: seq<real>, gaps: seq<bool>, ws: seq<(nat, nat)>, s: nat, w: nat)
    requires forall p :: p in ws ==> p.0 + p.1 <= |gas|
    requires |gas| <= |dt|
    requires (s, w) in ws && GapFree(gaps, s, w)
    ensures (s, w, WindowScore(m, dt, gas, s, s + w)) in Scored(m, dt, gas, gaps, ws)
  {
    if ws[0] != (s, w) {
      ScoredKeeps(m, dt, gas, gaps, ws[1..], s, w);
    }
  }

  /** The search's candidates are exactly its gap-free generated windows. */
  lemma {:induction false} ScoredExactly(m: Libm, dt: seq<real>, gas: seq<real>, gaps: seq<bool>, minWindow: nat, step: nat)
    requires step >= 1 && |gas| <= |dt|
    ensures var c := Scored(m, dt, gas, gaps, Windows(minWindow, |gas|, step));
      (forall x :: x in c ==>
        Enumerated(minWindow, |gas|, step, x.0, x.1) && GapFree(gaps, x.0, x.1) &&
        x.2 == WindowScore(m, dt, gas, x.0, x.0 + x.1)) &&
      (forall s: nat, w: nat :: Enumerated(minWindow, |gas|, step, s, w) && GapFree(gaps, s, w) ==>
        (s, w, WindowScore(m, dt, gas, s, s + w)) in c)
  {
    var ws := Windows(minWindow, |gas|, step);
    var c := Scored(m, dt, gas, gaps, ws);
    forall x | x in c
      ensures Enumerated(minWindow, |gas|, step, x.0, x.1) && GapFree(gaps, x.0, x.1) &&
        x.2 == WindowScore(m, dt, gas, x.0, x.0 + x.1)
    {
      ScoredMember(m, dt, gas, gaps, ws, x);
      WindowsExactly(minWindow, |gas|, step, x.0, x.1);
    }
    forall s: nat, w: nat | Enumerated(minWindow, |gas|, step, s, w) && GapFree(gaps, s, w)
      ensures (s, w, WindowScore(m, dt, gas, s, s + w)) in c
    {
      WindowsExactly(minWindow, |gas|, step, s, w);
      ScoredKeeps(m, dt, gas, gaps, ws, s, w);
    }
  }

  /** None means that every generated window has a gap. */
  lemma {:induction false} BestWindowNoneIff(m: Libm, dt: seq<real>, gas: seq<real>, gaps: seq<bool>, minWindow: nat, step: nat)
    requires step >= 1 && |gas| <= |dt|
    ensures FindBestWindowForGasPar(m, dt, gas, gaps, minWindow, step).None? <==>
      forall s: nat, w: nat :: Enumerated(minWindow, |gas|, step, s, w) ==> !GapFree(gaps, s, w)
  {
    ScoredExactly(m, dt, gas, gaps, minWindow, step);
    var c := Scored(m, dt, gas, gaps, Windows(minWindow, |gas|, step));
    if c != [] {
      var x := c[0];
      assert x in c;
    }
  }

  /** A candidate of the search is a gap-free generated window, at least
      `minWindow` long and inside the series, with its score. */
  lemma {:induction false} CandidateValid(m: Libm, dt: seq<real>, gas: seq<real>, gaps: seq<bool>, minWindow: nat, step: nat, x: (nat, nat, real))
    requires step >= 1 && |gas| <= |dt|
    requires x in Scored(m, dt, gas, gaps, Windows(minWindow, |gas|, step))
    ensures x.0 + x.1 <= |gas| && x.1 >= minWindow && Enumerated(minWindow, |gas|, step, x.0, x.1) &&
      GapFree(gaps, x.0, x.1) && x.2 == WindowScore(m, dt, gas, x.0, x.0 + x.1)
  {
    ScoredMember(m, dt, gas, gaps, Windows(minWindow, |gas|, step), x);
    WindowsExactly(minWindow, |gas|, step, x.0, x.1);
  }

  /** The window found is generated by the search, at least `minWindow`
      long, inside the series and gap-free, and its correlation is the one
      reported. */
  lemma {:induction false} BestWindowIsCandidate(m: Libm, dt: seq<real>, gas: seq<real>, gaps: seq<bool>, minWindow: nat, step: nat)
    requires step >= 1 && |gas| <= |dt|
    requires FindBestWindowForGasPar(m, dt, gas, gaps, minWindow, step).Some?
    ensures var b := FindBestWindowForGasPar(m, dt, gas, gaps, minWindow, step).value;
      b.0 <= b.1 <= |gas| && b.1 - b.0 >= minWindow && Enumerated(minWindow, |gas|, step, b.0, b.1 - b.0) &&
      GapFree(gaps, b.0, b.1 - b.0) && b.2 == WindowScore(m, dt, gas, b.0, b.1)
  {
    var c := Scored(m, dt, gas, gaps, Windows(minWindow, |gas|, step));
    var x := c[BestScoreIn(c, |c|)];
    CandidateValid(m, dt, gas, gaps, minWindow, step, x);
    var b := FindBestWindowForGasPar(m, dt, gas, gaps, minWindow, step).value;
    assert b.0 == x.0 && b.1 - b.0 == x.1;
  }

  /** No gap-free generated window correlates better than the one found. */
  lemma {:induction false} BestWindowIsBest(m: Libm, dt: seq<real>, gas: seq<real>, gaps: seq<bool>, minWindow: nat, step: nat)
    requires step >= 1 && |gas| <= |dt|
    requires FindBestWindowForGasPar(m, dt, gas, gaps, minWindow, step).Some?
    ensures var b := FindBestWindowForGasPar(m, dt, gas, gaps, minWindow, step).value;
      forall s: nat, w: nat :: Enumerated(minWindow, |gas|, step, s, w) && GapFree(gaps, s, w) ==>
        WindowScore(m, dt, gas, s, s + w) <= b.2
  {
    var ws := Windows(minWindow, |gas|, step);
    var c := Scored(m, dt, gas, gaps, ws);
    BestScoreIsMaximum(c, |c|);
    assert c[..|c|] == c;
    forall s: nat, w: nat | Enumerated(minWindow, |gas|, step, s, w) && GapFree(gaps, s, w)
      ensures WindowScore(m, dt, gas, s, s + w) <= c[BestScoreIn(c, |c|)].2
    {
      WindowsExactly(minWindow, |gas|, step, s, w);
      ScoredKeeps(m, dt, gas, gaps, ws, s, w);
    }
  }
}
