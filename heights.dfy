// Chamber height records and the lookup of the latest height at or
// before a time (crates/fluxrs-core/src/data_formats/heightdata.rs).
module Heights {
  import opened Wrappers

  /** The largest i64, the scan's initial smallest difference. */
  const I64Max: int := 0x7fff_ffff_ffff_ffff

  /** Height records as columns. */
  datatype HeightData = HeightData(datetime: seq<int>, chamberId: seq<string>, height: seq<real>)

  /** The records the scan visits: the source zips the time and chamber
      columns, so it stops at the shorter one. */
  function Zipped(h: HeightData): (n: nat)
    ensures n <= |h.datetime| && n <= |h.chamberId|
    ensures n == |h.datetime| || n == |h.chamberId|
  {
    if |h.datetime| <= |h.chamberId| then |h.datetime| else |h.chamberId|
  }

  /** Record `i` is of the chamber, not after the target, and closer than
      the scan's sentinel. */
  predicate Candidate(h: HeightData, target: int, chamber: string, i: int)
  {
    0 <= i < Zipped(h) && h.chamberId[i] == chamber && h.datetime[i] <= target &&
    target - h.datetime[i] < I64Max
  }

  /** Among the candidates before `k`, `i` is a latest one and the first such. */
  predicate LatestBelow(h: HeightData, target: int, chamber: string, i: int, k: int)
  {
    i < k && Candidate(h, target, chamber, i) &&
    (forall j {:trigger Candidate(h, target, chamber, j)} :: 0 <= j < k && Candidate(h, target, chamber, j) ==>
      h.datetime[j] <= h.datetime[i]) &&
    (forall j {:trigger Candidate(h, target, chamber, j)} :: 0 <= j < i && Candidate(h, target, chamber, j) ==>
      h.datetime[j] < h.datetime[i])
  }

  predicate Latest(h: HeightData, target: int, chamber: string, i: int)
  {
    LatestBelow(h, target, chamber, i, Zipped(h))
  }

  ghost predicate HasCandidate(h: HeightData, target: int, chamber: string)
  {
    exists i :: Candidate(h, target, chamber, i)
  }

  /** There is at most one latest record: ties go to the first. */
  lemma {:induction false} LatestUnique(h: HeightData, target: int, chamber: string, i: int, j: int)
    requires Latest(h, target, chamber, i) && Latest(h, target, chamber, j)
    ensures i == j
  {
  }

  /** Two record sets that agree on every record of the chamber. */
  predicate AgreeOn(h1: HeightData, h2: HeightData, chamber: string)
  {
    Zipped(h1) == Zipped(h2) &&
    forall i :: 0 <= i < Zipped(h1) && (h1.chamberId[i] == chamber || h2.chamberId[i] == chamber) ==>
      h1.chamberId[i] == h2.chamberId[i] && h1.datetime[i] == h2.datetime[i]
  }

  /** Records of other chambers never change which record is chosen. */
  lemma {:induction false} OtherChambersIrrelevant(h1: HeightData, h2: HeightData, target: int, chamber: string, i: int)
    requires AgreeOn(h1, h2, chamber)
    ensures Latest(h1, target, chamber, i) <==> Latest(h2, target, chamber, i)
  {
    forall j ensures Candidate(h1, target, chamber, j) <==> Candidate(h2, target, chamber, j) {
      if 0 <= j < Zipped(h1) && (h1.chamberId[j] == chamber || h2.chamberId[j] == chamber) {
        assert h1.chamberId[j] == h2.chamberId[j] && h1.datetime[j] == h2.datetime[j];
      }
    }
  }

  /** The running state of the scan after the records before `k`. */
  predicate ScanState(h: HeightData, target: int, chamber: string, nearest: Option<nat>, smallest: int, k: int)
  {
    match nearest
    case None => smallest == I64Max && forall j :: 0 <= j < k ==> !Candidate(h, target, chamber, j)
    case Some(i) => LatestBelow(h, target, chamber, i, k) && smallest == target - h.datetime[i]
  }

  /** `get_nearest_previous_height`: the height of the chamber's latest
      record at or before the target (the first on ties), or None when it
      has none. */
  method GetNearestPreviousHeight(h: HeightData, target: int, chamber: string) returns (r: Option<real>)
    requires |h.height| >= Zipped(h)
    ensures r.None? <==> !HasCandidate(h, target, chamber)
    ensures r.Some? ==> exists i :: Latest(h, target, chamber, i) && r.value == h.height[i]
  {
    var nearest: Option<nat> := None;
    var smallest := I64Max;
    var n := Zipped(h);
    for i := 0 to n
      invariant ScanState(h, target, chamber, nearest, smallest, i)
    {
      if h.chamberId[i] == chamber && h.datetime[i] <= target {
        var diff := target - h.datetime[i];
        if diff < smallest {
          smallest := diff;
          nearest := Some(i);
        }
      }
    }
    match nearest
    case None =>
      r := None;
    case Some(i) =>
      assert Latest(h, target, chamber, i);
      r := Some(h.height[i]);
  }
}
