// The helpers of the plot view that keep dragged windows inside their
// bounds, round lag steps away from zero, size the drag handles and toggle
// a chamber's trace (crates/fluxrs-gui/src/ui/plotting_ui.rs).
module PlottingUi {
  import opened Floats
  import opened CycleFilters

  /** `f64::ceil` on a finite value. */
  function Ceil(v: real): int
  {
    -((-v).Floor)
  }

  /** `to_round`: up for a positive value, down otherwise. */
  function ToRound(v: real): (r: real)
  {
    if v > 0.0 then Ceil(v) as real else v.Floor as real
  }

  /** The result is a whole number on the same side of zero, at most one
      away, and never smaller in size: rounding goes away from zero. */
  lemma {:induction false} ToRoundAwayFromZero(v: real)
    ensures ToRound(v) == ToRound(v).Floor as real
    ensures v > 0.0 ==> v <= ToRound(v) < v + 1.0
    ensures v <= 0.0 ==> v - 1.0 < ToRound(v) <= v
    ensures AbsR(ToRound(v)) >= AbsR(v)
    ensures v == v.Floor as real ==> ToRound(v) == v
  {
    if v > 0.0 {
      assert (-v).Floor as real <= -v < (-v).Floor as real + 1.0;
    } else {
      assert v.Floor as real <= v < v.Floor as real + 1.0;
    }
  }

  /** `clamp_translate`: the window is shifted right above `min_b`, then
      left below `max_b`, without changing its length. */
  function ClampTranslate(bounds: (real, real), s: real, e: real): (r: (real, real))
  {
    var (minB, maxB) := bounds;
    var (s1, e1) := if s < minB then (s + (minB - s), e + (minB - s)) else (s, e);
    if e1 > maxB then (s1 - (e1 - maxB), e1 - (e1 - maxB)) else (s1, e1)
  }

  /** The length is kept; a window no longer than the bounds ends up inside
      them; one already inside is not moved. */
  lemma {:induction false} ClampTranslateKeepsLength(bounds: (real, real), s: real, e: real)
    ensures var r := ClampTranslate(bounds, s, e);
      r.1 - r.0 == e - s &&
      (e - s <= bounds.1 - bounds.0 ==> bounds.0 <= r.0 && r.1 <= bounds.1) &&
      (bounds.0 <= s && e <= bounds.1 ==> r == (s, e))
  {
  }

  /** `clamp_resize_left`: the end stays; the new start is raised to
      `min_b`, then lowered to leave at least `min_len` before the end. */
  function ClampResizeLeft(bounds: (real, real), newStart: real, end: real, minLen: real): (r: (real, real))
  {
    var s := MaxR(newStart, bounds.0);
    (MinR(s, end - minLen), end)
  }

  /** The end is kept and at least `min_len` follows the start; the start
      stays above `min_b` whenever the bounds leave room, and a wanted start
      that already fits is taken as it is. */
  lemma {:induction false} ClampResizeLeftBounds(bounds: (real, real), newStart: real, end: real, minLen: real)
    ensures var r := ClampResizeLeft(bounds, newStart, end, minLen);
      r.1 == end && r.0 <= end - minLen &&
      (bounds.0 <= end - minLen ==> bounds.0 <= r.0) &&
      (bounds.0 <= newStart <= end - minLen ==> r.0 == newStart)
  {
  }

  /** `clamp_resize_right`: the start stays; the new end is lowered to
      `max_b`, then raised to leave at least `min_len` after the start. */
  function ClampResizeRight(bounds: (real, real), start: real, newEnd: real, minLen: real): (r: (real, real))
  {
    var e := MinR(newEnd, bounds.1);
    (start, MaxR(e, start + minLen))
  }

  /** The start is kept and the window is at least `min_len` long; the end
      stays below `max_b` whenever the bounds leave room, and a wanted end
      that already fits is taken as it is. */
  lemma {:induction false} ClampResizeRightBounds(bounds: (real, real), start: real, newEnd: real, minLen: real)
    ensures var r := ClampResizeRight(bounds, start, newEnd, minLen);
      r.0 == start && r.1 >= start + minLen &&
      (start + minLen <= bounds.1 ==> r.1 <= bounds.1) &&
      (start + minLen <= newEnd <= bounds.1 ==> r.1 == newEnd)
  {
  }

  /** `get_dragger_width`: 30 % of the current cycle's calculation window
      (0 when there is no current cycle), at most 40 seconds. */
  function DraggerWidth(calcRange: real): (r: real)
    ensures r <= 40.0 && r <= calcRange * 0.3
    ensures r == 40.0 || r == calcRange * 0.3
    ensures calcRange >= 0.0 ==> r >= 0.0
  {
    MinR(calcRange * 0.3, 40.0)
  }

  /** The part of the validation view whose chamber toggles are modelled. */
  class ValidationApp {
    var visibleTraces: map<string, bool>

    constructor (traces: map<string, bool>)
      ensures visibleTraces == traces
    {
      visibleTraces := traces;
    }

    /** `toggle_visibility`: the same rule as the review filter's, so the
        last visible trace is never hidden. */
    method ToggleVisibility(id: string)
      modifies this
      ensures visibleTraces == ToggledTraces(old(visibleTraces), id)
      ensures old(VisibleCount(visibleTraces)) >= 1 ==> VisibleCount(visibleTraces) >= 1
    {
      ghost var before := visibleTraces;
      if VisibleCount(before) >= 1 {
        ToggleKeepsOneVisible(before, id);
      }
      var visibleCount := VisibleCount(visibleTraces);
      var isVisible := if id in visibleTraces then visibleTraces[id] else true;
      if isVisible && visibleCount == 1 {
        return;
      }
      visibleTraces := visibleTraces[id := !isVisible];
    }
  }
}
