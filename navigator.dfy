// Moving through the cycles that pass the review filters: the list of
// visible cycle indices, the position within it, and the search for the
// visible cycle nearest in time (crates/fluxrs-core/src/cycle_navigator.rs).
module Navigator {
  import opened Wrappers
  import opened Arith

  // ------------------------------------------------------------ visibility

  /** What the filters read from a cycle: its start time, its chamber, the
      verdict of `is_valid_by_threshold` for its main gas and best model,
      its error mask, and whether that mask holds `FailedMeasurement`. */
  datatype CycleView = CycleView(startTs: int, chamberId: string, thresholdValid: bool,
                                 errorCode: bv16, failedMeasurement: bool)

  /** A mask holding `FailedMeasurement` is not empty. */
  predicate Consistent(c: CycleView)
  {
    c.failedMeasurement ==> c.errorCode != 0
  }

  /** Valid by the thresholds and free of errors; so never a failed measurement. */
  predicate IsValid(c: CycleView)
    ensures Consistent(c) && c.failedMeasurement ==> !IsValid(c)
  {
    c.thresholdValid && c.errorCode == 0
  }

  /** `visible_traces.get(id).copied().unwrap_or(true)`: a chamber nobody
      has hidden is shown. */
  function TraceShown(traces: map<string, bool>, id: string): (r: bool)
    ensures id !in traces ==> r
    ensures id in traces ==> r == traces[id]
  {
    if id in traces then traces[id] else true
  }

  /** `is_cycle_visible`: a cycle is visible only if its chamber is shown. */
  predicate IsCycleVisible(c: CycleView, traces: map<string, bool>, showValids: bool, showInvalids: bool, showBad: bool)
    ensures IsCycleVisible(c, traces, showValids, showInvalids, showBad) ==> TraceShown(traces, c.chamberId)
    ensures !showValids && !showInvalids ==> !IsCycleVisible(c, traces, showValids, showInvalids, showBad)
  {
    var valid := IsValid(c);
    TraceShown(traces, c.chamberId) && (showValids || !valid) && (showInvalids || valid) &&
    (showBad || !c.failedMeasurement)
  }

  /** A visible cycle's chamber is shown, a valid one needs `show_valids`,
      an invalid one `show_invalids`, and a failed one `show_bad`; with
      every flag set, exactly the cycles of the shown chambers are
      visible. */
  lemma {:induction false} VisibilityFlags(c: CycleView, traces: map<string, bool>, showValids: bool, showInvalids: bool, showBad: bool)
    ensures IsCycleVisible(c, traces, showValids, showInvalids, showBad) ==>
      TraceShown(traces, c.chamberId) &&
      (IsValid(c) ==> showValids) && (!IsValid(c) ==> showInvalids) && (c.failedMeasurement ==> showBad)
    ensures showValids && showInvalids && showBad ==>
      (IsCycleVisible(c, traces, showValids, showInvalids, showBad) <==> TraceShown(traces, c.chamberId))
  {
  }

  /** A failed measurement is never valid, so it is shown only when both
      invalid and bad cycles are. */
  lemma {:induction false} FailedNeedsInvalidsAndBad(c: CycleView, traces: map<string, bool>, showValids: bool, showInvalids: bool, showBad: bool)
    requires Consistent(c) && c.failedMeasurement
    ensures IsCycleVisible(c, traces, showValids, showInvalids, showBad) <==>
      TraceShown(traces, c.chamberId) && showInvalids && showBad
  {
  }

  /** With neither valid nor invalid cycles shown, nothing is visible. */
  lemma {:induction false} NothingWithoutValidsOrInvalids(c: CycleView, traces: map<string, bool>, showBad: bool)
    ensures !IsCycleVisible(c, traces, false, false, showBad)
  {
  }

  /** Strictly increasing. */
  predicate Increasing(s: seq<nat>)
  {
    forall i, j :: 0 <= i < j < |s| ==> s[i] < s[j]
  }

  /** The indices below `n` of the visible cycles, in order. */
  function VisibleBelow(cycles: seq<CycleView>, traces: map<string, bool>, showValids: bool, showInvalids: bool, showBad: bool, n: nat): (r: seq<nat>)
    requires n <= |cycles|
    ensures Increasing(r)
    ensures forall k :: 0 <= k < |r| ==> r[k] < n
    ensures forall i: nat :: i in r <==> i < n && IsCycleVisible(cycles[i], traces, showValids, showInvalids, showBad)
  {
    if n == 0 then []
    else
      var r := VisibleBelow(cycles, traces, showValids, showInvalids, showBad, n - 1);
      if IsCycleVisible(cycles[n - 1], traces, showValids, showInvalids, showBad) then r + [n - 1] else r
  }

  /** `compute_visible_indexes`: the indices of the visible cycles, strictly
      increasing, holding exactly the cycles that pass the filters. */
  function ComputeVisibleIndexes(cycles: seq<CycleView>, traces: map<string, bool>, showValids: bool, showInvalids: bool, showBad: bool): (r: seq<nat>)
    ensures Increasing(r)
    ensures forall k :: 0 <= k < |r| ==> r[k] < |cycles|
    ensures forall i: nat :: i in r <==> i < |cycles| && IsCycleVisible(cycles[i], traces, showValids, showInvalids, showBad)
  {
    VisibleBelow(cycles, traces, showValids, showInvalids, showBad, |cycles|)
  }

  // ------------------------------------------------------- cyclic stepping

  /** The position after `step_forward` in a list of `len`. */
  function Forward(pos: nat, len: nat): nat
  {
    if len == 0 then pos else (pos + 1) % len
  }

  /** The position after `step_back` in a list of `len`. */
  function Back(pos: nat, len: nat): nat
  {
    if len == 0 then pos else (pos + len - 1) % len
  }

  /** Inside a non-empty list, a step forward moves to the next position
      and wraps from the last to the first, and a step back moves to the
      previous position and wraps from the first to the last. */
  lemma {:induction false} StepsWrap(pos: nat, len: nat)
    requires pos < len
    ensures Forward(pos, len) == (if pos + 1 < len then pos + 1 else 0)
    ensures Back(pos, len) == (if pos > 0 then pos - 1 else len - 1)
  {
    if pos + 1 < len {
      ModUnique(pos + 1, len, 0, pos + 1);
    } else {
      ModUnique(pos + 1, len, 1, 0);
    }
    if pos > 0 {
      ModUnique(pos + len - 1, len, 1, pos - 1);
    } else {
      ModUnique(pos + len - 1, len, 0, len - 1);
    }
  }

  /** A step back undoes a step forward, and the other way round, for
      every position inside the list. */
  lemma {:induction false} BackUndoesForward(pos: nat, len: nat)
    requires pos < len
    ensures Back(Forward(pos, len), len) == pos
    ensures Forward(Back(pos, len), len) == pos
  {
    StepsWrap(pos, len);
    StepsWrap(Forward(pos, len), len);
    StepsWrap(Back(pos, len), len);
  }

  // ------------------------------------------------------- nearest in time

  /** The first position whose key is not below the target: where
      `binary_search` reports the target or would insert it. */
  function LowerBound(keys: seq<int>, target: int): (r: nat)
    ensures r <= |keys|
  {
    if keys == [] then 0
    else if keys[0] >= target then 0
    else 1 + LowerBound(keys[1..], target)
  }

  predicate Sorted(keys: seq<int>)
  {
    forall i, j :: 0 <= i < j < |keys| ==> keys[i] <= keys[j]
  }

  /** On sorted keys the lower bound splits them into the keys below the
      target and the rest. */
  lemma {:induction false} LowerBoundSplits(keys: seq<int>, target: int)
    requires Sorted(keys)
    ensures forall i :: 0 <= i < LowerBound(keys, target) ==> keys[i] < target
    ensures forall i :: LowerBound(keys, target) <= i < |keys| ==> keys[i] >= target
  {
    if keys != [] && keys[0] < target {
      LowerBoundSplits(keys[1..], target);
    }
  }

  function Distance(a: int, b: int): nat
  {
    if a >= b then a - b else b - a
  }

  /** The choice `find_closest_visible_cycle` makes from the visible start
      times: the exact match, else the nearer neighbour of the insertion
      point, the earlier one on a tie; None for no visible cycle. */
  function ClosestPosition(keys: seq<int>, target: int): (r: Option<nat>)
    ensures r.Some? ==> r.value < |keys|
  {
    if keys == [] then None
    else
      var at := LowerBound(keys, target);
      if at < |keys| && keys[at] == target then Some(at)
      else if at == 0 then Some(at)
      else if at == |keys| then Some(at - 1)
      else if Distance(keys[at - 1], target) <= Distance(keys[at], target) then Some(at - 1)
      else Some(at)
  }

  /** With sorted start times the position found is one of the nearest in
      time, and no equally near position starts earlier; it is None exactly
      when nothing is visible, and an exact match is found when there is
      one. */
  lemma {:induction false} ClosestIsNearest(keys: seq<int>, target: int)
    requires Sorted(keys)
    ensures ClosestPosition(keys, target).None? <==> keys == []
    ensures ClosestPosition(keys, target).Some? ==>
      var p := ClosestPosition(keys, target).value;
      (forall j :: 0 <= j < |keys| ==> Distance(keys[p], target) <= Distance(keys[j], target)) &&
      (forall j :: 0 <= j < |keys| && Distance(keys[j], target) == Distance(keys[p], target) ==> keys[p] <= keys[j]) &&
      (target in keys ==> keys[p] == target)
  {
    LowerBoundSplits(keys, target);
  }

  /** On strictly increasing keys the exact match is the position of the
      target. */
  lemma {:induction false} ClosestFindsExact(keys: seq<int>, target: int, p: nat)
    requires forall i, j :: 0 <= i < j < |keys| ==> keys[i] < keys[j]
    requires p < |keys| && keys[p] == target
    ensures ClosestPosition(keys, target) == Some(p)
  {
    assert Sorted(keys);
    LowerBoundSplits(keys, target);
  }

  /** The start times of the visible cycles, in list order. */
  function StartTimes(cycles: seq<CycleView>, visible: seq<nat>): (r: seq<int>)
    requires forall k :: 0 <= k < |visible| ==> visible[k] < |cycles|
    ensures |r| == |visible|
    ensures forall k :: 0 <= k < |visible| ==> r[k] == cycles[visible[k]].startTs
  {
    seq(|visible|, k requires 0 <= k < |visible| => cycles[visible[k]].startTs)
  }

  /** The first position of `index` (`iter().position`). */
  function FirstPosition(s: seq<nat>, index: nat): (r: Option<nat>)
    ensures r.None? <==> index !in s
    ensures r.Some? ==>
      r.value < |s| && s[r.value] == index && forall k :: 0 <= k < r.value ==> s[k] != index
  {
    if s == [] then None
    else if s[0] == index then Some(0)
    else
      match FirstPosition(s[1..], index)
      case None => None
      case Some(k) => Some(k + 1)
  }

  // ------------------------------------------------------------ the state

  /** `Index`: a position held in a `Cell`, changed through a shared
      reference. */
  class Index {
    var value: nat

    constructor ()
      ensures value == 0
    {
      value := 0;
    }

    method Set(v: nat)
      modifies this
      ensures value == v
    {
      value := v;
    }

    method Increment()
      modifies this
      ensures value == old(value) + 1
    {
      value := value + 1;
    }

    /** Saturates at zero. */
    method Decrement()
      modifies this
      ensures value == SatSub(old(value), 1)
      ensures old(value) == 0 ==> value == 0
    {
      value := SatSub(value, 1);
    }

    method Reset()
      modifies this
      ensures value == 0
    {
      Set(0);
    }
  }

  class CycleNavigator {
    var visibleCycles: seq<nat>
    const cyclePos: Index

    constructor ()
      ensures visibleCycles == [] && cyclePos.value == 0 && fresh(cyclePos)
    {
      visibleCycles := [];
      cyclePos := new Index();
    }

    /** `current_index`: the cycle at the position, None once the position
        has run past the list. */
    function CurrentIndex(): (r: Option<nat>)
      reads this, cyclePos
      ensures r.Some? <==> cyclePos.value < |visibleCycles|
      ensures r.Some? ==> r.value == visibleCycles[cyclePos.value] && r.value in visibleCycles
    {
      if cyclePos.value < |visibleCycles| then Some(visibleCycles[cyclePos.value]) else None
    }

    /** `visible_count`. */
    function VisibleCount(): (r: nat)
      reads this
      ensures r == |visibleCycles|
    {
      |visibleCycles|
    }

    /** `current_cycle`: the current cycle when its index is inside `cycles`. */
    function CurrentCycle(cycles: seq<CycleView>): (r: Option<CycleView>)
      reads this, cyclePos
      ensures r.Some? <==> CurrentIndex().Some? && CurrentIndex().value < |cycles|
      ensures r.Some? ==> r.value == cycles[CurrentIndex().value]
    {
      match CurrentIndex()
      case None => None
      case Some(i) => if i < |cycles| then Some(cycles[i]) else None
    }

    /** `step_forward`: the next position, cyclically; no change on an
        empty list. */
    method StepForward()
      modifies cyclePos
      ensures cyclePos.value == Forward(old(cyclePos.value), |visibleCycles|)
      ensures visibleCycles == [] ==> cyclePos.value == old(cyclePos.value)
      ensures visibleCycles != [] ==> cyclePos.value < |visibleCycles|
    {
      var len := |visibleCycles|;
      if len == 0 {
        return;
      }
      var next := (cyclePos.value + 1) % len;
      cyclePos.Set(next);
    }

    /** `step_back`: the previous position, cyclically; no change on an
        empty list. */
    method StepBack()
      modifies cyclePos
      ensures cyclePos.value == Back(old(cyclePos.value), |visibleCycles|)
      ensures visibleCycles == [] ==> cyclePos.value == old(cyclePos.value)
      ensures visibleCycles != [] ==> cyclePos.value < |visibleCycles|
    {
      var len := |visibleCycles|;
      if len == 0 {
        return;
      }
      var prev := (cyclePos.value + len - 1) % len;
      cyclePos.Set(prev);
    }

    /** `jump_to_visible_index`: to the first position holding the cycle
        index, which becomes the current one; no change when it is not
        visible. */
    method JumpToVisibleIndex(index: nat)
      modifies cyclePos
      ensures FirstPosition(visibleCycles, index).Some? ==> cyclePos.value == FirstPosition(visibleCycles, index).value
      ensures index in visibleCycles ==> CurrentIndex() == Some(index)
      ensures index !in visibleCycles ==> cyclePos.value == old(cyclePos.value)
    {
      var pos := FirstPosition(visibleCycles, index);
      if pos.Some? {
        cyclePos.Set(pos.value);
      }
    }

    /** `find_closest_visible_cycle`: the position, within the visible
        list, of the cycle whose start time is nearest the target. */
    function FindClosestVisibleCycle(cycles: seq<CycleView>, target: int): (r: Option<nat>)
      reads this
      requires forall k :: 0 <= k < |visibleCycles| ==> visibleCycles[k] < |cycles|
      ensures r.None? <==> visibleCycles == []
      ensures r.Some? ==> r.value < |visibleCycles|
    {
      ClosestPosition(StartTimes(cycles, visibleCycles), target)
    }

    /** `recompute_visible_indexes`: the visible list is rebuilt from the
        filters, and the position moves to the visible cycle nearest in
        time to the one that was current, or to 0 when there was none or
        nothing is visible. */
    method RecomputeVisibleIndexes(cycles: seq<CycleView>, traces: map<string, bool>,
                                   showValids: bool, showInvalids: bool, showBad: bool)
      modifies this, cyclePos
      ensures visibleCycles == ComputeVisibleIndexes(cycles, traces, showValids, showInvalids, showBad)
      ensures var prev := old(CurrentIndex());
        cyclePos.value == (if prev.Some? && prev.value < |cycles| && visibleCycles != []
          then FindClosestVisibleCycle(cycles, cycles[prev.value].startTs).value else 0)
      ensures visibleCycles == [] || old(CurrentIndex()).None? ==> cyclePos.value == 0
      ensures visibleCycles != [] ==> CurrentIndex().Some?
    {
      var previous: Option<int> := None;
      var idx := CurrentIndex();
      if idx.Some? && idx.value < |cycles| {
        previous := Some(cycles[idx.value].startTs);
      }
      visibleCycles := [];
      for i := 0 to |cycles|
        invariant visibleCycles == VisibleBelow(cycles, traces, showValids, showInvalids, showBad, i)
      {
        if IsCycleVisible(cycles[i], traces, showValids, showInvalids, showBad) {
          visibleCycles := visibleCycles + [i];
        }
      }
      match previous
      case Some(t) =>
        var found := FindClosestVisibleCycle(cycles, t);
        if found.Some? {
          cyclePos.Set(found.value);
        } else {
          cyclePos.Reset();
        }
      case None =>
        cyclePos.Reset();
    }
  }

  /** When start times increase with the cycle index and the current cycle
      stays visible, recomputing keeps it current. */
  lemma {:induction false} RecomputeKeepsVisibleCurrent(cycles: seq<CycleView>, traces: map<string, bool>,
                                                        showValids: bool, showInvalids: bool, showBad: bool, i: nat)
    requires forall a, b :: 0 <= a < b < |cycles| ==> cycles[a].startTs < cycles[b].startTs
    requires i < |cycles| && IsCycleVisible(cycles[i], traces, showValids, showInvalids, showBad)
    ensures var vs := ComputeVisibleIndexes(cycles, traces, showValids, showInvalids, showBad);
      var p := ClosestPosition(StartTimes(cycles, vs), cycles[i].startTs);
      p.Some? && p.value < |vs| && vs[p.value] == i
  {
    var vs := ComputeVisibleIndexes(cycles, traces, showValids, showInvalids, showBad);
    var keys := StartTimes(cycles, vs);
    var p := FirstPosition(vs, i).value;
    forall a, b | 0 <= a < b < |keys|
      ensures keys[a] < keys[b]
    {
      assert vs[a] < vs[b];
    }
    ClosestFindsExact(keys, cycles[i].startTs, p);
  }
}
