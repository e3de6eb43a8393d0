// The review filters: which chambers' traces are shown, the show flags
// for valid, invalid and failed cycles, and the order in which the
// chambers are listed (crates/fluxrs-gui/src/ui/validation_app/toggle_traces.rs).
module CycleFilters {
  import opened Wrappers
  import opened Floats
  import opened Sorting
  import opened Navigator

  // ------------------------------------------------------ the visible map

  /** The chambers whose trace is marked visible. */
  function VisibleNames(m: map<string, bool>): (r: set<string>)
    ensures forall k :: k in r <==> k in m && m[k]
  {
    set k | k in m && m[k]
  }

  /** `visible_traces.values().filter(|&&v| v).count()`: 0 exactly when
      no entry is true. */
  function VisibleCount(m: map<string, bool>): (n: nat)
    ensures n == 0 <==> forall k :: k in m ==> !m[k]
  {
    |VisibleNames(m)|
  }

  /** The map after `toggle_visibility(id)`: the chamber's visibility is
      flipped, an absent chamber counting as visible, unless it is the one
      visible trace left. */
  function ToggledTraces(m: map<string, bool>, id: string): map<string, bool>
  {
    var visible := TraceShown(m, id);
    if visible && VisibleCount(m) == 1 then m else m[id := !visible]
  }

  /** A toggle flips the chamber's visibility and leaves every other
      chamber's, except that the last visible trace stays visible. */
  lemma {:induction false} ToggleFlips(m: map<string, bool>, id: string)
    ensures forall k :: k != id ==> TraceShown(ToggledTraces(m, id), k) == TraceShown(m, k)
    ensures TraceShown(m, id) && VisibleCount(m) == 1 ==> ToggledTraces(m, id) == m
    ensures !(TraceShown(m, id) && VisibleCount(m) == 1) ==>
      id in ToggledTraces(m, id) && ToggledTraces(m, id)[id] == !TraceShown(m, id)
    ensures ToggledTraces(m, id).Keys == m.Keys + {id} || ToggledTraces(m, id) == m
  {
  }

  /** A toggle never hides the last visible trace. */
  lemma {:induction false} ToggleKeepsOneVisible(m: map<string, bool>, id: string)
    requires VisibleCount(m) >= 1
    ensures VisibleCount(ToggledTraces(m, id)) >= 1
  {
    var r := ToggledTraces(m, id);
    var visible := TraceShown(m, id);
    if !(visible && VisibleCount(m) == 1) {
      if !visible {
        assert id in VisibleNames(r);
      } else if id in m {
        assert VisibleNames(r) == VisibleNames(m) - {id};
        assert id in VisibleNames(m);
      } else {
        assert VisibleNames(r) == VisibleNames(m);
      }
    }
  }

  /** The cases the toggle's tests check: one of two visible traces is
      hidden, the only visible trace stays, and a chamber not yet in the
      map is added as hidden. */
  lemma ToggleExamples()
    ensures ToggledTraces(map["A" := true, "B" := true], "A") == map["A" := false, "B" := true]
    ensures ToggledTraces(map["only" := true], "only") == map["only" := true]
    ensures ToggledTraces(map[], "new_trace") == map["new_trace" := false]
  {
    assert VisibleNames(map["A" := true, "B" := true]) == {"A", "B"};
    assert VisibleNames(map["only" := true]) == {"only"};
    assert VisibleNames(map[]) == {};
  }

  // ----------------------------------------------------- the listed order

  /** `a.cmp(b) != Greater` on strings: lexicographic by character. */
  predicate StrLe(a: string, b: string)
  {
    if a == [] then true
    else if b == [] then false
    else if a[0] != b[0] then a[0] < b[0]
    else StrLe(a[1..], b[1..])
  }

  lemma {:induction false} StrLeTotal(a: string, b: string)
    ensures StrLe(a, b) || StrLe(b, a)
  {
    if a != [] && b != [] && a[0] == b[0] {
      StrLeTotal(a[1..], b[1..]);
    }
  }

  lemma {:induction false} StrLeTransitive(a: string, b: string, c: string)
    requires StrLe(a, b) && StrLe(b, c)
    ensures StrLe(a, c)
  {
    if a != [] && b != [] && c != [] && a[0] == b[0] && b[0] == c[0] {
      StrLeTransitive(a[1..], b[1..], c[1..]);
    }
  }

  /** The comparator of `get_sorted_traces` answering "not Greater": names
      that parse as numbers come first, in numeric order (NaN comparing
      equal to everything), and the others follow in string order. */
  predicate TraceNotAfter(num: string -> Option<F64>, a: string, b: string)
  {
    match (num(a), num(b))
    case (Some(x), Some(y)) => !Lt(y, x)
    case (Some(_), None) => true
    case (None, Some(_)) => false
    case (None, None) => StrLe(a, b)
  }

  function TraceLe(num: string -> Option<F64>): (string, string) -> bool
  {
    (a: string, b: string) => TraceNotAfter(num, a, b)
  }

  /** No name reads as NaN. */
  ghost predicate NaNFree(num: string -> Option<F64>)
  {
    forall s :: num(s).Some? ==> !num(s).value.NaN?
  }

  /** On two values that are not NaN, "not Greater" is `<=`. */
  lemma {:induction false} NotLtIsLe(x: F64, y: F64)
    requires !x.NaN? && !y.NaN?
    ensures !Lt(y, x) <==> Le(x, y)
  {
    LeTotal(x, y);
    if Le(x, y) && Le(y, x) {
      LeAntisymmetric(x, y);
    }
  }

  /** Without NaN the comparator is a total preorder, so the sort orders
      the names. */
  lemma {:induction false} TraceLePreorder(num: string -> Option<F64>)
    requires NaNFree(num)
    ensures TotalPreorder(TraceLe(num))
  {
    var le := TraceLe(num);
    forall a, b ensures le(a, b) || le(b, a) {
      if num(a).Some? && num(b).Some? {
        NotLtIsLe(num(a).value, num(b).value);
        NotLtIsLe(num(b).value, num(a).value);
        LeTotal(num(a).value, num(b).value);
      } else {
        StrLeTotal(a, b);
      }
    }
    forall a, b, c | le(a, b) && le(b, c) ensures le(a, c) {
      if num(a).Some? && num(b).Some? && num(c).Some? {
        NotLtIsLe(num(a).value, num(b).value);
        NotLtIsLe(num(b).value, num(c).value);
        NotLtIsLe(num(a).value, num(c).value);
        LeTransitive(num(a).value, num(b).value, num(c).value);
      } else if num(a).None? && num(b).None? && num(c).None? {
        StrLeTransitive(a, b, c);
      }
    }
  }

  /** `get_sorted_traces` on the names in the order the set yields them. */
  function SortedTraces(order: seq<string>, num: string -> Option<F64>): (r: seq<string>)
    ensures multiset(r) == multiset(order)
  {
    SortPermutes(order, TraceLe(num));
    Sort(order, TraceLe(num))
  }

  /** The listing holds the names, each once, with the numeric names first
      in increasing value and the others after them in string order. */
  lemma {:induction false} SortedTracesOrder(order: seq<string>, num: string -> Option<F64>)
    requires NaNFree(num)
    ensures var r := SortedTraces(order, num);
      (forall s :: s in r <==> s in order) && (Distinct(order) ==> Distinct(r)) &&
      (forall i, j :: 0 <= i < j < |r| && num(r[j]).Some? ==> num(r[i]).Some?) &&
      (forall i, j :: 0 <= i < j < |r| && num(r[i]).Some? && num(r[j]).Some? ==>
        Le(num(r[i]).value, num(r[j]).value)) &&
      (forall i, j :: 0 <= i < j < |r| && num(r[i]).None? && num(r[j]).None? ==> StrLe(r[i], r[j]))
  {
    var r := SortedTraces(order, num);
    TraceLePreorder(num);
    SortSorted(order, TraceLe(num));
    forall s ensures s in r <==> s in order {
      assert s in r <==> s in multiset(r);
    }
    if Distinct(order) {
      PermutationKeepsDistinct(order, r);
    }
    forall i, j | 0 <= i < j < |r| && num(r[i]).Some? && num(r[j]).Some?
      ensures Le(num(r[i]).value, num(r[j]).value)
    {
      assert TraceLe(num)(r[i], r[j]);
      NotLtIsLe(num(r[i]).value, num(r[j]).value);
    }
    forall i, j | 0 <= i < j < |r| && num(r[j]).Some?
      ensures num(r[i]).Some?
    {
      assert TraceLe(num)(r[i], r[j]);
    }
    forall i, j | 0 <= i < j < |r| && num(r[i]).None? && num(r[j]).None?
      ensures StrLe(r[i], r[j])
    {
      assert TraceLe(num)(r[i], r[j]);
    }
  }

  // ---------------------------------------------------------- the filter

  class CycleFilter {
    var visibleTraces: map<string, bool>
    var allTraces: set<string>
    var showValids: bool
    var showInvalids: bool
    var showBad: bool

    /** `new`: no chamber hidden, valid and invalid cycles shown, failed
        ones not. */
    constructor ()
      ensures visibleTraces == map[] && allTraces == {}
      ensures showValids && showInvalids && !showBad
    {
      visibleTraces := map[];
      allTraces := {};
      showValids := true;
      showInvalids := true;
      showBad := false;
    }

    /** `hide_all_traces`: every chamber in the map becomes hidden; no
        chamber is added or removed. */
    method HideAllTraces()
      modifies this
      ensures visibleTraces.Keys == old(visibleTraces.Keys)
      ensures forall k :: k in visibleTraces ==> !visibleTraces[k]
      ensures VisibleCount(visibleTraces) == 0
      ensures allTraces == old(allTraces) && showValids == old(showValids) &&
        showInvalids == old(showInvalids) && showBad == old(showBad)
    {
      var rest := visibleTraces.Keys;
      while rest != {}
        invariant rest <= visibleTraces.Keys
        invariant visibleTraces.Keys == old(visibleTraces.Keys)
        invariant forall k :: k in visibleTraces && k !in rest ==> !visibleTraces[k]
        invariant allTraces == old(allTraces) && showValids == old(showValids) &&
          showInvalids == old(showInvalids) && showBad == old(showBad)
        decreases |rest|
      {
        var k :| k in rest;
        visibleTraces := visibleTraces[k := false];
        rest := rest - {k};
      }
      assert VisibleNames(visibleTraces) == {};
    }

    /** `set_trace_visible`. */
    method SetTraceVisible(name: string, visible: bool)
      modifies this
      ensures visibleTraces == old(visibleTraces)[name := visible]
      ensures GetVisibleTrace(name) == visible
      ensures forall k :: k != name ==> GetVisibleTrace(k) == old(GetVisibleTrace(k))
      ensures allTraces == old(allTraces) && showValids == old(showValids) &&
        showInvalids == old(showInvalids) && showBad == old(showBad)
    {
      visibleTraces := visibleTraces[name := visible];
    }

    /** `get_visible_trace` (and the private `is_visible`): true for a
        chamber not in the map. */
    function GetVisibleTrace(name: string): (r: bool)
      reads this
      ensures name !in visibleTraces ==> r
      ensures name in visibleTraces ==> r == visibleTraces[name]
    {
      if name in visibleTraces then visibleTraces[name] else true
    }

    /** `set_all_traces`. */
    method SetAllTraces(traces: set<string>)
      modifies this
      ensures allTraces == traces
      ensures visibleTraces == old(visibleTraces) && showValids == old(showValids) &&
        showInvalids == old(showInvalids) && showBad == old(showBad)
    {
      allTraces := traces;
    }

    /** `set_visible_traces`. */
    method SetVisibleTraces(traces: map<string, bool>)
      modifies this
      ensures visibleTraces == traces
      ensures allTraces == old(allTraces) && showValids == old(showValids) &&
        showInvalids == old(showInvalids) && showBad == old(showBad)
    {
      visibleTraces := traces;
    }

    /** `toggle_visibility`: flips the chamber unless it is the last visible
        trace; a filter with a visible trace keeps one. */
    method ToggleVisibility(id: string)
      modifies this
      ensures visibleTraces == ToggledTraces(old(visibleTraces), id)
      ensures old(VisibleCount(visibleTraces)) >= 1 ==> VisibleCount(visibleTraces) >= 1
      ensures allTraces == old(allTraces) && showValids == old(showValids) &&
        showInvalids == old(showInvalids) && showBad == old(showBad)
    {
      ghost var before := visibleTraces;
      if VisibleCount(before) >= 1 {
        ToggleKeepsOneVisible(before, id);
      }
      var count := VisibleCount(visibleTraces);
      var visible := GetVisibleTrace(id);
      if visible && count == 1 {
        return;
      }
      visibleTraces := visibleTraces[id := !visible];
    }

    /** `get_sorted_traces`, given the order in which the set of chambers
        yields its names. */
    function GetSortedTraces(order: seq<string>, num: string -> Option<F64>): (r: seq<string>)
      reads this
      requires forall s :: s in order <==> s in allTraces
      requires Distinct(order)
      ensures forall s :: s in r <==> s in allTraces
      ensures Distinct(r) && |r| == |allTraces|
    {
      var r := SortedTraces(order, num);
      assert forall s :: s in r <==> s in multiset(order);
      PermutationKeepsDistinct(order, r);
      DistinctCard(r, allTraces);
      r
    }

    /** `is_cycle_visible`: the navigator's test over the filter's own map
        and flags. */
    function IsCycleVisible(c: CycleView): (r: bool)
      reads this
      ensures r == Navigator.IsCycleVisible(c, visibleTraces, showValids, showInvalids, showBad)
    {
      var valid := c.thresholdValid && c.errorCode == 0;
      var traceVisible := if c.chamberId in visibleTraces then visibleTraces[c.chamberId] else true;
      var badOk := showBad || !c.failedMeasurement;
      var validOk := showValids || !valid;
      var invalidOk := showInvalids || valid;
      traceVisible && validOk && invalidOk && badOk
    }
  }

  // ------------------------------------------------------------- example

  /** A name of decimal digits read as its value: the names of the test
      below are read this way by `str::parse::<f64>`. */
  function DigitsValue(s: string): (r: Option<F64>)
    ensures r.Some? ==> r.value.Fin? && r.value.v >= 0.0
  {
    if s == [] then None
    else if forall i :: 0 <= i < |s| ==> '0' <= s[i] <= '9' then Some(Fin(Decimal(s) as real))
    else None
  }

  function Decimal(s: string): nat
  {
    if s == [] then 0
    else
      var d := s[|s| - 1] as int - '0' as int;
      Decimal(s[..|s| - 1]) * 10 + (if 0 <= d <= 9 then d else 0)
  }

  /** How the comparator orders the names of the sorting test. */
  lemma SortedTracesExampleComparisons()
    ensures var le := TraceLe(DigitsValue);
      !le("foo", "bar") && le("1", "bar") && !le("2", "1") && le("2", "bar") &&
      !le("10", "1") && !le("10", "2") && le("10", "bar")
  {
    SortedTracesExampleReadings();
    assert StrLe("bar", "foo") && !StrLe("foo", "bar");
  }

  /** How the names of the sorting test read as numbers. */
  lemma SortedTracesExampleReadings()
    ensures DigitsValue("10") == Some(Fin(10.0)) && DigitsValue("2") == Some(Fin(2.0)) &&
      DigitsValue("1") == Some(Fin(1.0)) && DigitsValue("foo") == None && DigitsValue("bar") == None
  {
    assert Decimal("1") == 1;
    assert "10"[..1] == "1";
    assert !('0' <= "foo"[0] <= '9');
    assert !('0' <= "bar"[0] <= '9');
  }

  /** The insertions the sort makes on the names of the sorting test. */
  lemma SortedTracesExampleInserts()
    ensures var le := TraceLe(DigitsValue);
      Insert("foo", ["bar"], le) == ["bar", "foo"] &&
      Insert("1", ["bar", "foo"], le) == ["1", "bar", "foo"] &&
      Insert("2", ["1", "bar", "foo"], le) == ["1", "2", "bar", "foo"] &&
      Insert("10", ["1", "2", "bar", "foo"], le) == ["1", "2", "10", "bar", "foo"]
  {
    var le := TraceLe(DigitsValue);
    SortedTracesExampleComparisons();
    assert ["bar", "foo"][1..] == ["foo"];
    assert ["1", "bar", "foo"][1..] == ["bar", "foo"];
    assert ["1", "2", "bar", "foo"][1..] == ["2", "bar", "foo"];
    assert ["2", "bar", "foo"][1..] == ["bar", "foo"];
  }

  /** The order the sorting test checks: the numeric names in numeric
      order, then the others in string order. */
  lemma SortedTracesExample()
    ensures SortedTraces(["10", "2", "1", "foo", "bar"], DigitsValue) == ["1", "2", "10", "bar", "foo"]
  {
    var le := TraceLe(DigitsValue);
    SortedTracesExampleInserts();
    var s := ["10", "2", "1", "foo", "bar"];
    assert s[1..] == ["2", "1", "foo", "bar"];
    assert s[1..][1..] == ["1", "foo", "bar"];
    assert s[1..][1..][1..] == ["foo", "bar"];
    assert s[1..][1..][1..][1..] == ["bar"];
    assert Sort(["bar"], le) == ["bar"];
    assert Sort(["foo", "bar"], le) == ["bar", "foo"];
    assert Sort(["1", "foo", "bar"], le) == ["1", "bar", "foo"];
    assert Sort(["2", "1", "foo", "bar"], le) == ["1", "2", "bar", "foo"];
  }
}
