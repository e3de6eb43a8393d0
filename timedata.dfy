// Measurement cycle times as columns: splitting into chunks, row
// iteration, the length check and the Oulanka offset rule
// (crates/fluxrs-core/src/data_formats/timedata.rs).
module TimeDatas {

  /** `TimeData`: one column per field, one row per measurement cycle. */
  datatype TimeData = TimeData(
    chamberId: seq<string>, startTime: seq<int>, closeOffset: seq<int>, openOffset: seq<int>,
    endOffset: seq<int>, snowDepth: seq<real>, id: seq<int>, projectId: seq<int>, instrumentId: seq<int>)

  /** Every column is at least as long as `start_time`, which sets the
      number of rows `chunk` cuts. */
  predicate Covers(t: TimeData)
  {
    var n := |t.startTime|;
    |t.chamberId| >= n && |t.closeOffset| >= n && |t.openOffset| >= n && |t.endOffset| >= n &&
    |t.snowDepth| >= n && |t.id| >= n && |t.projectId| >= n && |t.instrumentId| >= n
  }

  /** Rows `i` to `j` of every column. */
  function Slice(t: TimeData, i: nat, j: nat): TimeData
    requires Covers(t) && i <= j <= |t.startTime|
  {
    TimeData(t.chamberId[i..j], t.startTime[i..j], t.closeOffset[i..j], t.openOffset[i..j],
             t.endOffset[i..j], t.snowDepth[i..j], t.id[i..j], t.projectId[i..j], t.instrumentId[i..j])
  }

  /** `max(1, len / 100)`: about a hundred chunks, never an empty one. */
  function ChunkSize(len: nat): (r: nat)
    ensures r >= 1 && r >= len / 100 && (r == 1 || r == len / 100)
  {
    if len / 100 > 1 then len / 100 else 1
  }

  function Min(a: nat, b: nat): nat
  {
    if a <= b then a else b
  }

  /** The chunks `(i..len).step_by(size)` cuts, each of the rows from its
      start to `min(start + size, len)`. */
  function ChunksFrom(t: TimeData, i: nat, size: nat): seq<TimeData>
    requires Covers(t) && size >= 1
    decreases |t.startTime| - i
  {
    var len := |t.startTime|;
    if i >= len then [] else [Slice(t, i, Min(i + size, len))] + ChunksFrom(t, i + size, size)
  }

  /** `chunk`: the rows cut into consecutive pieces of `ChunkSize` rows.
      The source slices every column by the row count of `start_time` and
      panics on a shorter column. */
  method Chunk(t: TimeData) returns (chunks: seq<TimeData>)
    requires Covers(t)
    ensures chunks == ChunksFrom(t, 0, ChunkSize(|t.startTime|))
  {
    var len := |t.startTime|;
    var size := ChunkSize(len);
    ghost var all := ChunksFrom(t, 0, size);
    chunks := [];
    var i: nat := 0;
    while i < len
      invariant size >= 1 && ChunkedTo(t, chunks, i, size, all)
      decreases len - i
    {
      var piece := Slice(t, i, Min(i + size, len));
      ChunkLoopStep(t, chunks, piece, i, size, all);
      chunks := chunks + [piece];
      i := i + size;
    }
    ChunkLoopEnd(t, chunks, i, size, all);
  }

  lemma {:induction false} ChunksFromStep(t: TimeData, i: nat, size: nat)
    requires Covers(t) && size >= 1 && i < |t.startTime|
    ensures ChunksFrom(t, i, size) == [Slice(t, i, Min(i + size, |t.startTime|))] + ChunksFrom(t, i + size, size)
  {
  }

  /** The loop's state: the chunks cut so far followed by those still to
      cut from row `i` are all the chunks. */
  predicate ChunkedTo(t: TimeData, chunks: seq<TimeData>, i: nat, size: nat, all: seq<TimeData>)
    requires Covers(t) && size >= 1
  {
    chunks + ChunksFrom(t, i, size) == all
  }

  lemma {:induction false} ChunkLoopEnd(t: TimeData, chunks: seq<TimeData>, i: nat, size: nat, all: seq<TimeData>)
    requires Covers(t) && size >= 1 && i >= |t.startTime|
    requires ChunkedTo(t, chunks, i, size, all)
    ensures chunks == all
  {
    assert ChunksFrom(t, i, size) == [];
    assert chunks + [] == chunks;
  }

  lemma {:induction false} ChunkLoopStep(t: TimeData, chunks: seq<TimeData>, piece: TimeData, i: nat, size: nat, all: seq<TimeData>)
    requires Covers(t) && size >= 1 && i < |t.startTime|
    requires piece == Slice(t, i, Min(i + size, |t.startTime|))
    requires ChunkedTo(t, chunks, i, size, all)
    ensures ChunkedTo(t, chunks + [piece], i + size, size, all)
  {
    ChunksFromStep(t, i, size);
    assert (chunks + [piece]) + ChunksFrom(t, i + size, size) == chunks + ([piece] + ChunksFrom(t, i + size, size));
  }

  /** The number of rows of a chunk. */
  function RowsOf(c: TimeData): nat
  {
    |c.startTime|
  }

  /** The chunks from row `i` are none exactly when no row is left; all but
      the last have `size` rows, and the last has between 1 and `size`. */
  lemma {:induction false} ChunksFromShape(t: TimeData, i: nat, size: nat)
    requires Covers(t) && size >= 1
    ensures var cs := ChunksFrom(t, i, size);
      && (cs == [] <==> i >= |t.startTime|)
      && (forall k :: 0 <= k < |cs| - 1 ==> RowsOf(cs[k]) == size)
      && (cs != [] ==> 0 < RowsOf(cs[|cs| - 1]) <= size)
    decreases |t.startTime| - i
  {
    var len := |t.startTime|;
    if i < len {
      ChunksFromShape(t, i + size, size);
      var cs, rest := ChunksFrom(t, i, size), ChunksFrom(t, i + size, size);
      assert cs == [Slice(t, i, Min(i + size, len))] + rest;
      assert RowsOf(cs[0]) == Min(i + size, len) - i;
      forall k | 0 <= k < |cs| - 1 ensures RowsOf(cs[k]) == size {
        if k > 0 {
          assert cs[k] == rest[k - 1];
        }
      }
    }
  }

  /** `chunk`'s pieces have `ChunkSize` rows each but the last, which has
      between one and that many, and an empty `TimeData` has none. */
  lemma {:induction false} ChunkShape(t: TimeData)
    requires Covers(t)
    ensures var cs := ChunksFrom(t, 0, ChunkSize(|t.startTime|));
      && (cs == [] <==> |t.startTime| == 0)
      && (forall k :: 0 <= k < |cs| - 1 ==> RowsOf(cs[k]) == ChunkSize(|t.startTime|))
      && (cs != [] ==> 0 < RowsOf(cs[|cs| - 1]) <= ChunkSize(|t.startTime|))
  {
    ChunksFromShape(t, 0, ChunkSize(|t.startTime|));
  }

  /** The integer columns of `TimeData`. */
  datatype IntColumn = StartTime | CloseOffset | OpenOffset | EndOffset | Id | ProjectId | InstrumentId

  function IntCol(t: TimeData, c: IntColumn): (r: seq<int>)
    ensures Covers(t) ==> |r| >= |t.startTime|
  {
    match c
    case StartTime => t.startTime
    case CloseOffset => t.closeOffset
    case OpenOffset => t.openOffset
    case EndOffset => t.endOffset
    case Id => t.id
    case ProjectId => t.projectId
    case InstrumentId => t.instrumentId
  }

  lemma {:induction false} IntColSlice(t: TimeData, i: nat, j: nat, c: IntColumn)
    requires Covers(t) && i <= j <= |t.startTime|
    ensures IntCol(Slice(t, i, j), c) == IntCol(t, c)[i..j]
  {
  }

  /** A column of a list of chunks, concatenated. */
  function JoinInt(cs: seq<TimeData>, c: IntColumn): seq<int>
  {
    if cs == [] then [] else IntCol(cs[0], c) + JoinInt(cs[1..], c)
  }

  function JoinChamber(cs: seq<TimeData>): seq<string>
  {
    if cs == [] then [] else cs[0].chamberId + JoinChamber(cs[1..])
  }

  function JoinSnow(cs: seq<TimeData>): seq<real>
  {
    if cs == [] then [] else cs[0].snowDepth + JoinSnow(cs[1..])
  }

  /** Joining an integer column of the chunks from row `i` gives back rows
      `i..len` of it. */
  lemma {:induction false} JoinIntFrom(t: TimeData, i: nat, size: nat, c: IntColumn)
    requires Covers(t) && size >= 1 && i <= |t.startTime|
    ensures JoinInt(ChunksFrom(t, i, size), c) == IntCol(t, c)[i..|t.startTime|]
    decreases |t.startTime| - i
  {
    var len, col := |t.startTime|, IntCol(t, c);
    if i < len {
      var end := Min(i + size, len);
      var rest := JoinInt(ChunksFrom(t, i + size, size), c);
      assert JoinInt(ChunksFrom(t, i, size), c) == col[i..end] + rest by {
        ChunksFromStep(t, i, size);
        IntColSlice(t, i, end, c);
      }
      if i + size < len {
        JoinIntFrom(t, i + size, size, c);
      }
      JoinSlices(col, i, end, len, rest);
    }
  }

  /** Rows `i..end` followed by rows `end..len` are rows `i..len`. */
  lemma {:induction false} JoinSlices<T>(s: seq<T>, i: nat, end: nat, len: nat, rest: seq<T>)
    requires i <= end <= len <= |s| && rest == s[end..len]
    ensures s[i..end] + rest == s[i..len]
  {
  }

  lemma {:induction false} JoinChamberFrom(t: TimeData, i: nat, size: nat)
    requires Covers(t) && size >= 1 && i <= |t.startTime|
    ensures JoinChamber(ChunksFrom(t, i, size)) == t.chamberId[i..|t.startTime|]
    decreases |t.startTime| - i
  {
    var len := |t.startTime|;
    if i < len {
      var end := Min(i + size, len);
      var rest := JoinChamber(ChunksFrom(t, i + size, size));
      assert JoinChamber(ChunksFrom(t, i, size)) == t.chamberId[i..end] + rest by {
        ChunksFromStep(t, i, size);
      }
      if i + size < len {
        JoinChamberFrom(t, i + size, size);
      }
      JoinSlices(t.chamberId, i, end, len, rest);
    }
  }

  lemma {:induction false} JoinSnowFrom(t: TimeData, i: nat, size: nat)
    requires Covers(t) && size >= 1 && i <= |t.startTime|
    ensures JoinSnow(ChunksFrom(t, i, size)) == t.snowDepth[i..|t.startTime|]
    decreases |t.startTime| - i
  {
    var len := |t.startTime|;
    if i < len {
      var end := Min(i + size, len);
      var rest := JoinSnow(ChunksFrom(t, i + size, size));
      assert JoinSnow(ChunksFrom(t, i, size)) == t.snowDepth[i..end] + rest by {
        ChunksFromStep(t, i, size);
      }
      if i + size < len {
        JoinSnowFrom(t, i + size, size);
      }
      JoinSlices(t.snowDepth, i, end, len, rest);
    }
  }

  /** `chunk` loses and repeats nothing: joining any column of the chunks
      gives that column's first len rows, the whole of `start_time`. */
  lemma {:induction false} ChunkConcat(t: TimeData)
    requires Covers(t)
    ensures var len, cs := |t.startTime|, ChunksFrom(t, 0, ChunkSize(|t.startTime|));
      && (forall c :: JoinInt(cs, c) == IntCol(t, c)[..len])
      && JoinInt(cs, StartTime) == t.startTime
      && JoinChamber(cs) == t.chamberId[..len]
      && JoinSnow(cs) == t.snowDepth[..len]
  {
    var size := ChunkSize(|t.startTime|);
    forall c ensures JoinInt(ChunksFrom(t, 0, size), c) == IntCol(t, c)[..|t.startTime|] {
      JoinIntFrom(t, 0, size, c);
    }
    assert t.startTime[..|t.startTime|] == t.startTime;
    JoinChamberFrom(t, 0, size);
    JoinSnowFrom(t, 0, size);
  }

  /** One item of `iter`. The source's tuple lists the instrument id
      before the project id, the reverse of the column order. */
  datatype Row = Row(chamber: string, start: int, close: int, open: int, end: int, snowDepth: real,
                     id: int, instrumentId: int, projectId: int)

  /** The length of the zip of all nine columns. */
  function Rows(t: TimeData): (n: nat)
    ensures n <= |t.chamberId| && n <= |t.startTime| && n <= |t.closeOffset| && n <= |t.openOffset|
    ensures n <= |t.endOffset| && n <= |t.snowDepth| && n <= |t.id| && n <= |t.projectId| && n <= |t.instrumentId|
    ensures n == |t.chamberId| || n == |t.startTime| || n == |t.closeOffset| || n == |t.openOffset| ||
            n == |t.endOffset| || n == |t.snowDepth| || n == |t.id| || n == |t.projectId| || n == |t.instrumentId|
  {
    Min(Min(Min(Min(|t.chamberId|, |t.startTime|), Min(|t.closeOffset|, |t.openOffset|)),
            Min(Min(|t.endOffset|, |t.snowDepth|), Min(|t.id|, |t.projectId|))), |t.instrumentId|)
  }

  /** `iter`: row `k` of every column, as far as the shortest column. */
  function Iter(t: TimeData): (r: seq<Row>)
    ensures |r| == Rows(t)
    ensures forall k :: 0 <= k < |r| ==> r[k].instrumentId == t.instrumentId[k] && r[k].projectId == t.projectId[k]
    ensures forall k :: 0 <= k < |r| ==> r[k].chamber == t.chamberId[k] && r[k].start == t.startTime[k]
    ensures forall k :: 0 <= k < |r| ==>
              r[k].close == t.closeOffset[k] && r[k].open == t.openOffset[k] &&
              r[k].end == t.endOffset[k] && r[k].snowDepth == t.snowDepth[k] && r[k].id == t.id[k]
  {
    seq(Rows(t), k requires 0 <= k < Rows(t) =>
      Row(t.chamberId[k], t.startTime[k], t.closeOffset[k], t.openOffset[k], t.endOffset[k],
          t.snowDepth[k], t.id[k], t.instrumentId[k], t.projectId[k]))
  }

  /** The six lengths `validate_lengths` collects. */
  function Lengths(t: TimeData): (r: seq<nat>)
    ensures |r| == 6
  {
    [|t.chamberId|, |t.startTime|, |t.closeOffset|, |t.openOffset|, |t.endOffset|, |t.snowDepth|]
  }

  predicate EqualLengths(t: TimeData)
  {
    forall k :: 0 <= k < |Lengths(t)| ==> Lengths(t)[k] == Lengths(t)[0]
  }

  /** `validate_lengths` as written: each length is compared with itself,
      so the check never fails. */
  method ValidateLengthsAsWritten(t: TimeData) returns (check: bool)
    ensures check
  {
    var lengths := Lengths(t);
    check := true;
    var k := 0;
    while k < |lengths|
      invariant 0 <= k <= |lengths| && check
    {
      var len := lengths[k];
      if lengths[k] != len {
        check := false;
        break;
      }
      k := k + 1;
    }
  }

  /** Columns of different lengths, which the check as written accepts. */
  lemma {:induction false} UnequalColumnsAccepted()
    ensures !EqualLengths(TimeData(["a"], [], [], [], [], [], [], [], []))
  {
    assert Lengths(TimeData(["a"], [], [], [], [], [], [], [], []))[1] == 0;
  }

  /** `validate_lengths` as evidently intended: every length equal to the
      first. */
  method ValidateLengths(t: TimeData) returns (check: bool)
    ensures check <==> EqualLengths(t)
  {
    var lengths := Lengths(t);
    check := true;
    var k := 0;
    while k < |lengths|
      invariant 0 <= k <= |lengths|
      invariant check <==> forall j :: 0 <= j < k ==> lengths[j] == lengths[0]
    {
      if lengths[k] != lengths[0] {
        check := false;
        break;
      }
      k := k + 1;
    }
  }

  /** The offsets the Oulanka manual format gives a row: the cycle starts
      60 s before the row's time, the chamber closes 60 s into it, opens
      after the measurement time and the cycle ends 60 s after that. */
  datatype CycleTimes = CycleTimes(start: int, close: int, open: int, end: int)

  const OulankaLead: int := 60

  function OulankaTimes(utc: int, measurementTime: int): (r: CycleTimes)
    ensures r.start + r.close == utc
    ensures r.open - r.close == measurementTime && r.end - r.open == OulankaLead
    ensures r.close == OulankaLead
  {
    CycleTimes(utc - OulankaLead, OulankaLead, measurementTime + OulankaLead, measurementTime + 2 * OulankaLead)
  }
}
