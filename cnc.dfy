/** The correction loop of src-tauri/src/cnc.rs: gauge samples are batched
    per machine; a full batch is drained and, unless a write for that machine
    is still running, handed to `WriteOffset`, which reduces each tool's
    values to a trimmed mean and writes `round((master - mean) * 1000)` as
    the tool's offset.

    Values are `real`: the model idealises the source's `f64` arithmetic. */
module Cnc {
  import opened RustTypes
  import opened Fwlib

  /** One gauge sample as the correction loop uses it: the machine it
      belongs to and one value per target tool position. */
  datatype GaugeSample = GaugeSample(machineId: U16, points: seq<real>)

  type Batch = seq<GaugeSample>

  /** The tools whose offsets are corrected, by tool position. */
  const TargetTools: seq<int> := [11, 12]

  /** Master offsets: per machine, per tool number. */
  type MasterOffsets = map<U16, map<int, real>>

  /** Offsets are written in thousandths. */
  const OffsetScale: real := 1000.0

  // ---------------------------------------------------------------------
  // Sums, sorting and the trimmed mean

  function Sum(s: seq<real>): real
  {
    if s == [] then 0.0 else s[0] + Sum(s[1..])
  }

  lemma {:induction false} SumAppend(s: seq<real>, x: real)
    ensures Sum(s + [x]) == Sum(s) + x
  {
    if s != [] {
      assert (s + [x])[1..] == s[1..] + [x];
      SumAppend(s[1..], x);
    }
  }

  /** The sum of a sequence of at least two values is its first value, plus
      the sum of its middle, plus its last value. */
  lemma SumEnds(s: seq<real>)
    requires |s| >= 2
    ensures Sum(s) == s[0] + Sum(s[1..|s| - 1]) + s[|s| - 1]
  {
    var middle, last := s[1..|s| - 1], s[|s| - 1];
    assert s[1..] == middle + [last];
    SumAppend(middle, last);
    assert Sum(s) == s[0] + Sum(s[1..]);
  }

  lemma {:induction false} SumBounds(s: seq<real>, lo: real, hi: real)
    requires forall k :: 0 <= k < |s| ==> lo <= s[k] <= hi
    ensures |s| as real * lo <= Sum(s) <= |s| as real * hi
  {
    if s != [] {
      SumBounds(s[1..], lo, hi);
    }
  }

  predicate Sorted(s: seq<real>)
  {
    forall i, j :: 0 <= i < j < |s| ==> s[i] <= s[j]
  }

  /** Inserts `x` before the first element not below it. */
  function Insert(x: real, s: seq<real>): (r: seq<real>)
    ensures |r| == |s| + 1
  {
    if s == [] || x <= s[0] then [x] + s else [s[0]] + Insert(x, s[1..])
  }

  /** The ascending sort that `sort_by(partial_cmp)` performs. */
  function Sort(s: seq<real>): (r: seq<real>)
    ensures |r| == |s|
  {
    if s == [] then [] else Insert(s[0], Sort(s[1..]))
  }

  lemma {:induction false} InsertKeepsLowerBound(x: real, s: seq<real>, lo: real)
    requires lo <= x && forall k :: 0 <= k < |s| ==> lo <= s[k]
    ensures forall k :: 0 <= k < |s| + 1 ==> lo <= Insert(x, s)[k]
  {
    if s != [] && !(x <= s[0]) {
      InsertKeepsLowerBound(x, s[1..], lo);
    }
  }

  lemma {:induction false} InsertSorted(x: real, s: seq<real>)
    requires Sorted(s)
    ensures Sorted(Insert(x, s))
  {
    if s != [] && !(x <= s[0]) {
      var t := Insert(x, s[1..]);
      InsertSorted(x, s[1..]);
      InsertKeepsLowerBound(x, s[1..], s[0]);
      assert Insert(x, s) == [s[0]] + t;
    }
  }

  lemma {:induction false} InsertPermutes(x: real, s: seq<real>)
    ensures multiset(Insert(x, s)) == multiset(s) + multiset{x}
    ensures Sum(Insert(x, s)) == x + Sum(s)
  {
    if s != [] && !(x <= s[0]) {
      InsertPermutes(x, s[1..]);
      assert s == [s[0]] + s[1..];
    }
  }

  /** The sort orders the values, keeps each one as often as it occurs, and
      so keeps their sum. */
  lemma {:induction false} SortSortsAndPermutes(s: seq<real>)
    ensures Sorted(Sort(s))
    ensures multiset(Sort(s)) == multiset(s)
    ensures Sum(Sort(s)) == Sum(s)
  {
    if s != [] {
      SortSortsAndPermutes(s[1..]);
      InsertSorted(s[0], Sort(s[1..]));
      InsertPermutes(s[0], Sort(s[1..]));
      assert s == [s[0]] + s[1..];
    }
  }

  function Min(s: seq<real>): (m: real)
    requires |s| > 0
    ensures m in s && forall k :: 0 <= k < |s| ==> m <= s[k]
  {
    if |s| == 1 then s[0] else var t := Min(s[1..]); if s[0] <= t then s[0] else t
  }

  function Max(s: seq<real>): (m: real)
    requires |s| > 0
    ensures m in s && forall k :: 0 <= k < |s| ==> s[k] <= m
  {
    if |s| == 1 then s[0] else var t := Max(s[1..]); if s[0] >= t then s[0] else t
  }

  function Average(total: real, count: nat): real
    requires count > 0
  {
    total / count as real
  }

  /** The average `write_offset` takes of one tool's values: with more than
      two values, sort them and average all but the first and the last;
      otherwise the plain mean. */
  function TrimmedMean(points: seq<real>): real
    requires |points| > 0
  {
    if |points| > 2 then
      var sorted := Sort(points);
      Average(Sum(sorted[1..|sorted| - 1]), |sorted| - 2)
    else
      Average(Sum(points), |points|)
  }

  /** The first and last of the sorted values are the minimum and maximum. */
  lemma SortedEnds(points: seq<real>)
    requires |points| > 0
    ensures Sort(points)[0] == Min(points) && Sort(points)[|points| - 1] == Max(points)
  {
    SortSortsAndPermutes(points);
    SortedPermutationEnds(Sort(points), points);
  }

  lemma SortedPermutationEnds(sorted: seq<real>, points: seq<real>)
    requires |points| > 0 && |sorted| == |points| && Sorted(sorted) && multiset(sorted) == multiset(points)
    ensures sorted[0] == Min(points) && sorted[|points| - 1] == Max(points)
  {
    SameMembers(sorted, points);
    SortedFirstIsMin(sorted, points);
    SortedLastIsMax(sorted, points);
  }

  lemma SameMembers(a: seq<real>, b: seq<real>)
    requires multiset(a) == multiset(b)
    ensures forall x :: x in a <==> x in b
  {
    forall x
      ensures x in a <==> x in b
    {
      assert x in a <==> x in multiset(a);
      assert x in b <==> x in multiset(b);
    }
  }

  lemma SortedFirstIsMin(sorted: seq<real>, points: seq<real>)
    requires |points| > 0 && |sorted| == |points| && Sorted(sorted)
    requires forall x :: x in sorted <==> x in points
    ensures sorted[0] == Min(points)
  {
    assert Min(points) in sorted && sorted[0] in points;
    var i :| 0 <= i < |sorted| && sorted[i] == Min(points);
    var k :| 0 <= k < |points| && points[k] == sorted[0];
    assert sorted[0] <= sorted[i] && Min(points) <= points[k];
  }

  lemma SortedLastIsMax(sorted: seq<real>, points: seq<real>)
    requires |points| > 0 && |sorted| == |points| && Sorted(sorted)
    requires forall x :: x in sorted <==> x in points
    ensures sorted[|points| - 1] == Max(points)
  {
    var n := |points|;
    assert Max(points) in sorted && sorted[n - 1] in points;
    var j :| 0 <= j < n && sorted[j] == Max(points);
    var k :| 0 <= k < n && points[k] == sorted[n - 1];
    assert sorted[j] <= sorted[n - 1] && points[k] <= Max(points);
  }

  /** Exactly one minimum and one maximum are dropped, whatever the ties:
      the trimmed mean is the sum less the two extremes, over n - 2. */
  lemma TrimmedMeanDropsExtremes(points: seq<real>)
    requires |points| > 2
    ensures TrimmedMean(points) == Average(Sum(points) - Min(points) - Max(points), |points| - 2)
  {
    var sorted := Sort(points);
    var middle := sorted[1..|sorted| - 1];
    SortSortsAndPermutes(points);
    SortedEnds(points);
    SumEnds(sorted);
    assert Sum(middle) == Sum(points) - Min(points) - Max(points);
  }

  /** The average of values within bounds is within the same bounds. */
  lemma AverageBetween(s: seq<real>, lo: real, hi: real)
    requires |s| > 0 && forall k :: 0 <= k < |s| ==> lo <= s[k] <= hi
    ensures lo <= Average(Sum(s), |s|) <= hi
  {
    SumBounds(s, lo, hi);
    QuotientBetween(Sum(s), |s| as real, lo, hi);
  }

  lemma QuotientBetween(total: real, n: real, lo: real, hi: real)
    requires n > 0.0 && n * lo <= total <= n * hi
    ensures lo <= total / n <= hi
  {
    assert total / n * n == total;
  }

  /** The trimmed mean lies between the smallest and the largest value. */
  lemma TrimmedMeanWithinRange(points: seq<real>)
    requires |points| > 0
    ensures Min(points) <= TrimmedMean(points) <= Max(points)
  {
    if |points| > 2 {
      TrimmedMiddleWithinRange(points);
    } else {
      AverageBetween(points, Min(points), Max(points));
    }
  }

  lemma TrimmedMiddleWithinRange(points: seq<real>)
    requires |points| > 2
    ensures var sorted := Sort(points);
      Min(points) <= Average(Sum(sorted[1..|sorted| - 1]), |sorted| - 2) <= Max(points)
  {
    var sorted := Sort(points);
    SortSortsAndPermutes(points);
    SortedEnds(points);
    var middle := sorted[1..|sorted| - 1];
    MiddleWithinEnds(sorted, middle);
    AverageBetween(middle, sorted[0], sorted[|sorted| - 1]);
  }

  lemma MiddleWithinEnds(sorted: seq<real>, middle: seq<real>)
    requires |sorted| > 2 && Sorted(sorted) && middle == sorted[1..|sorted| - 1]
    ensures forall k :: 0 <= k < |middle| ==> sorted[0] <= middle[k] <= sorted[|sorted| - 1]
  {
    forall k | 0 <= k < |middle|
      ensures sorted[0] <= middle[k] <= sorted[|sorted| - 1]
    {
      assert middle[k] == sorted[k + 1];
    }
  }

  /** Samples 1, 5, 5, 5, 9: one 5 is not dropped as a tie; the mean is 5. */
  lemma TrimmedMeanExample()
    ensures TrimmedMean([1.0, 5.0, 5.0, 5.0, 9.0]) == 5.0
  {
    var s := [1.0, 5.0, 5.0, 5.0, 9.0];
    TrimmedMeanDropsExtremes(s);
    assert Min(s) == 1.0 by {
      assert 1.0 in s;
    }
    assert Max(s) == 9.0 by {
      assert 9.0 in s;
    }
    assert Sum(s) == 25.0;
  }

  // ---------------------------------------------------------------------
  // Rounding and the written value

  /** `f64::round`: to the nearest integer, halves away from zero. */
  function RoundHalfAwayFromZero(x: real): (r: int)
    ensures x >= 0.0 ==> x - 0.5 < r as real <= x + 0.5
    ensures x < 0.0 ==> x - 0.5 <= r as real < x + 0.5
  {
    if x >= 0.0 then (x + 0.5).Floor else -((-x + 0.5).Floor)
  }

  /** Rounding is symmetric about zero, and a half rounds away from it. */
  lemma RoundingIsSymmetric(x: real, k: nat)
    ensures RoundHalfAwayFromZero(-x) == -RoundHalfAwayFromZero(x)
    ensures RoundHalfAwayFromZero(k as real + 0.5) == k + 1
    ensures RoundHalfAwayFromZero(-(k as real) - 0.5) == -(k + 1)
  {
  }

  /** The value written for a tool: the correction in thousandths, rounded,
      then cast to `i32` (which saturates). */
  function CncData(masterOffset: real, avg: real): (d: int)
    ensures InI32(d)
    ensures var rounded := RoundHalfAwayFromZero((masterOffset - avg) * OffsetScale);
      && (InI32(rounded) ==> d == rounded)
      && (rounded > I32Max ==> d == I32Max)
      && (rounded < I32Min ==> d == I32Min)
    ensures var scaled := (masterOffset - avg) * OffsetScale;
      InI32(RoundHalfAwayFromZero(scaled)) ==> -0.5 <= d as real - scaled <= 0.5
  {
    SaturateI32(RoundHalfAwayFromZero((masterOffset - avg) * OffsetScale))
  }

  /** Master 48.0, measured 47.995: the tool is corrected by +5 thousandths. */
  lemma CncDataExample()
    ensures CncData(48.0, 47.995) == 5
  {
    assert (48.0 - 47.995) * OffsetScale == 5.0;
  }

  // ---------------------------------------------------------------------
  // What `write_offset` writes

  /** Tool position `i`'s values, one per sample that has one, in order. */
  function ToolPoints(gauges: Batch, i: nat): (pts: seq<real>)
    ensures |pts| <= |gauges|
    ensures (forall k :: 0 <= k < |gauges| ==> i < |gauges[k].points|) ==>
      |pts| == |gauges| && forall k :: 0 <= k < |gauges| ==> pts[k] == gauges[k].points[i]
  {
    if gauges == [] then []
    else (if i < |gauges[0].points| then [gauges[0].points[i]] else []) + ToolPoints(gauges[1..], i)
  }

  /** Values keep the order in which their samples arrived: a later sample
      adds its value at the end, and a sample without position `i` adds
      nothing. */
  lemma {:induction false} ToolPointsAppend(gauges: Batch, g: GaugeSample, i: nat)
    ensures ToolPoints(gauges + [g], i)
         == ToolPoints(gauges, i) + (if i < |g.points| then [g.points[i]] else [])
  {
    if gauges != [] {
      assert (gauges + [g])[1..] == gauges[1..] + [g];
      ToolPointsAppend(gauges[1..], g, i);
    } else {
      assert [] + [g] == [g];
    }
  }

  /** Every value collected is position `i` of some sample of the batch. */
  lemma {:induction false} ToolPointsComeFromSamples(gauges: Batch, i: nat)
    ensures forall j :: 0 <= j < |ToolPoints(gauges, i)| ==>
      exists k :: 0 <= k < |gauges| && i < |gauges[k].points| && ToolPoints(gauges, i)[j] == gauges[k].points[i]
  {
    if gauges != [] {
      ToolPointsComeFromSamples(gauges[1..], i);
      var pts := ToolPoints(gauges, i);
      var tail := ToolPoints(gauges[1..], i);
      var d := if i < |gauges[0].points| then 1 else 0;
      assert pts == (if i < |gauges[0].points| then [gauges[0].points[i]] else []) + tail;
      forall j | 0 <= j < |ToolPoints(gauges, i)|
        ensures exists k :: 0 <= k < |gauges| && i < |gauges[k].points| && ToolPoints(gauges, i)[j] == gauges[k].points[i]
      {
        if j < d {
          assert pts[j] == gauges[0].points[i];
        } else {
          assert 0 <= j - d < |tail| && pts[j] == tail[j - d];
          var k :| 0 <= k < |gauges[1..]| && i < |gauges[1..][k].points| && tail[j - d] == gauges[1..][k].points[i];
          assert gauges[1..][k] == gauges[k + 1];
          assert 0 <= k + 1 < |gauges| && i < |gauges[k + 1].points| && pts[j] == gauges[k + 1].points[i];
        }
      }
    } else {
      assert ToolPoints(gauges, i) == [];
    }
  }

  datatype ToolWrite = ToolWrite(tool: int, data: int)

  /** The write for tool position `i`: none when the tool has no values or
      no master offset. */
  function ToolCorrection(gauges: Batch, offsets: map<int, real>, i: nat): Option<ToolWrite>
    requires i < |TargetTools|
  {
    var points := ToolPoints(gauges, i);
    var tool := TargetTools[i];
    if points == [] || tool !in offsets then None
    else Some(ToolWrite(tool, CncData(offsets[tool], TrimmedMean(points))))
  }

  /** The writes for the first `n` tool positions, in tool order. */
  function PlannedWrites(gauges: Batch, offsets: map<int, real>, n: nat): (ws: seq<ToolWrite>)
    requires n <= |TargetTools|
    ensures |ws| <= n
    ensures forall k :: 0 <= k < |ws| ==> ws[k].tool in TargetTools[..n] && InI32(ws[k].data)
    ensures forall a, b :: 0 <= a < b < |ws| ==> ws[a].tool < ws[b].tool
  {
    if n == 0 then []
    else
      var c := ToolCorrection(gauges, offsets, n - 1);
      PlannedWrites(gauges, offsets, n - 1) + (if c.Some? then [c.value] else [])
  }

  /** Planning one more tool position adds that position's write, if any. */
  lemma PlannedWritesStep(gauges: Batch, offsets: map<int, real>, i: nat)
    requires i < |TargetTools|
    ensures var c := ToolCorrection(gauges, offsets, i);
      PlannedWrites(gauges, offsets, i + 1) == PlannedWrites(gauges, offsets, i) + if c.Some? then [c.value] else []
  {
  }

  /** The writes planned for fewer tool positions come first. */
  lemma {:induction false} PlannedWritesPrefix(gauges: Batch, offsets: map<int, real>, m: nat, n: nat)
    requires m <= n <= |TargetTools|
    ensures PlannedWrites(gauges, offsets, m) <= PlannedWrites(gauges, offsets, n)
  {
    if m < n {
      PlannedWritesPrefix(gauges, offsets, m, n - 1);
    }
  }

  /** A tool without values or without a master offset is skipped alone:
      the other tool's write is still planned. */
  lemma SkippedToolDoesNotStopOthers(gauges: Batch, offsets: map<int, real>)
    requires ToolCorrection(gauges, offsets, 0).None?
    ensures PlannedWrites(gauges, offsets, |TargetTools|)
         == (var c := ToolCorrection(gauges, offsets, 1); if c.Some? then [c.value] else [])
  {
  }

  /** What the dummy client's table holds after the writes `ws`, in order. */
  function StoreWrites(d: DummyState, ws: seq<ToolWrite>): DummyState
    decreases ws
  {
    if ws == [] then d
    else StoreWrites(StoreOffset(d, ws[0].tool, ws[0].data), ws[1..])
  }

  lemma StoreWritesAppend(d: DummyState, ws: seq<ToolWrite>, w: ToolWrite)
    ensures StoreWrites(d, ws + [w]) == StoreOffset(StoreWrites(d, ws), w.tool, w.data)
    decreases ws
  {
    if ws != [] {
      assert (ws + [w])[1..] == ws[1..] + [w];
      StoreWritesAppend(StoreOffset(d, ws[0].tool, ws[0].data), ws[1..], w);
    }
  }

  /** Writes to distinct tools each read back as written, and every other
      offset keeps its value. */
  lemma {:induction false} StoreWritesReadsBack(d: DummyState, ws: seq<ToolWrite>)
    requires forall a, b :: 0 <= a < b < |ws| ==> ws[a].tool < ws[b].tool
    ensures forall k :: 0 <= k < |ws| ==> StoredOffset(StoreWrites(d, ws), ws[k].tool) == ws[k].data
    ensures forall n :: (forall k :: 0 <= k < |ws| ==> ws[k].tool != n) ==>
      StoredOffset(StoreWrites(d, ws), n) == StoredOffset(d, n)
    decreases ws
  {
    if ws != [] {
      var first := StoreOffset(d, ws[0].tool, ws[0].data);
      var rest := ws[1..];
      StoreWritesReadsBack(first, rest);
      forall k | 0 <= k < |rest|
        ensures rest[k] == ws[k + 1] && rest[k].tool != ws[0].tool
      {
      }
    }
  }

  datatype WriteOffsetError = NoGaugeData | NoMasterOffsets | NoCncHandle

  /** How `write_offset` ends: it returns, or it is still inside a client
      write that keeps reconnecting. */
  datatype WriteOffsetOutcome = Returned(result: Result<(), WriteOffsetError>) | Stuck

  /** Whether `c` is the client `write_offset` writes through. */
  predicate WrittenClient(gauges: Batch, handleTable: map<U16, FocasClient>, c: FocasClient)
  {
    gauges != [] && gauges[0].machineId in handleTable && c == handleTable[gauges[0].machineId]
  }

  /** The native results for the `k`-th write. */
  function ScriptFor(native: seq<seq<NativeReturn>>, k: nat): seq<NativeReturn>
  {
    if k < |native| then native[k] else []
  }

  /** What a client shows of itself to `write_offset`: its busy flag, its
      handle and, for the dummy client, its offset table. */
  datatype ClientState = ClientState(busy: bool, handle: U16, dummy: Option<DummyState>)

  function StateOf(c: FocasClient): ClientState
    reads c
  {
    ClientState(c.busy, c.handle, c.dummy)
  }

  datatype ClientStep = ClientStep(state: ClientState, outcome: WriteOutcome)

  /** One `wrtofs` of `w` on a client in state `s`, the native calls
      returning `script`: refused when busy or not connected, stored by the
      dummy client, otherwise the retry loop; the client ends not busy. */
  function AfterWrite(s: ClientState, w: ToolWrite, script: seq<NativeReturn>): (r: ClientStep)
    ensures r.state.busy == s.busy
    ensures r.outcome == WriteErr(Busy) <==> s.busy || (s.dummy.None? && s.handle == 0)
    ensures s.dummy.None? ==> r.state.dummy.None?
  {
    if s.busy || (s.dummy.None? && s.handle == 0) then ClientStep(s, WriteErr(Busy))
    else if s.dummy.Some? then
      ClientStep(ClientState(false, s.handle, Some(StoreOffset(s.dummy.value, w.tool, w.data))), WriteOk)
    else
      var e := Retry(Writing, s.handle, script);
      ClientStep(ClientState(false, e.handle, None), if e.written then WriteOk else StillRetrying)
  }

  datatype ClientRun = ClientRun(state: ClientState, outcomes: seq<WriteOutcome>)

  /** The writes `ws` made one after another from state `s`, after `from`
      earlier writes: the `k`-th write of the run has its native calls
      return `ScriptFor(native, k)`. */
  function ClientWrites(s: ClientState, native: seq<seq<NativeReturn>>, ws: seq<ToolWrite>, from: nat): (run: ClientRun)
    ensures |run.outcomes| == |ws|
    decreases ws
  {
    if ws == [] then ClientRun(s, [])
    else
      var step := AfterWrite(s, ws[0], ScriptFor(native, from));
      var rest := ClientWrites(step.state, native, ws[1..], from + 1);
      ClientRun(rest.state, [step.outcome] + rest.outcomes)
  }

  lemma ClientWritesAppend(s: ClientState, native: seq<seq<NativeReturn>>, ws: seq<ToolWrite>, w: ToolWrite, from: nat)
    ensures var before := ClientWrites(s, native, ws, from);
      var step := AfterWrite(before.state, w, ScriptFor(native, from + |ws|));
      ClientWrites(s, native, ws + [w], from) == ClientRun(step.state, before.outcomes + [step.outcome])
    decreases ws
  {
    if ws != [] {
      assert (ws + [w])[1..] == ws[1..] + [w];
      var step := AfterWrite(s, ws[0], ScriptFor(native, from));
      ClientWritesAppend(step.state, native, ws[1..], w, from + 1);
    }
  }

  /** Writing never changes the busy flag (a free client ends free, a busy
      one refuses), and a real client stays real. */
  lemma {:induction false} ClientWritesKeepBusyFlag(s: ClientState, native: seq<seq<NativeReturn>>, ws: seq<ToolWrite>, from: nat)
    ensures ClientWrites(s, native, ws, from).state.busy == s.busy
    ensures s.dummy.None? ==> ClientWrites(s, native, ws, from).state.dummy.None?
    decreases ws
  {
    if ws != [] {
      ClientWritesKeepBusyFlag(AfterWrite(s, ws[0], ScriptFor(native, from)).state, native, ws[1..], from + 1);
    }
  }

  /** A busy client refuses every write and keeps its state. */
  lemma {:induction false} ClientWritesWhileBusy(s: ClientState, native: seq<seq<NativeReturn>>, ws: seq<ToolWrite>, from: nat)
    requires s.busy
    ensures var run := ClientWrites(s, native, ws, from);
      run.state == s && forall k :: 0 <= k < |ws| ==> run.outcomes[k] == WriteErr(Busy)
    decreases ws
  {
    if ws != [] {
      ClientWritesWhileBusy(s, native, ws[1..], from + 1);
    }
  }

  /** A free dummy client accepts every write and ends holding them all, in
      order. */
  lemma {:induction false} ClientWritesToDummy(s: ClientState, native: seq<seq<NativeReturn>>, ws: seq<ToolWrite>, from: nat)
    requires s.dummy.Some? && !s.busy
    ensures var run := ClientWrites(s, native, ws, from);
      && run.state == ClientState(false, s.handle, Some(StoreWrites(s.dummy.value, ws)))
      && forall k :: 0 <= k < |ws| ==> run.outcomes[k] == WriteOk
    decreases ws
  {
    if ws != [] {
      ClientWritesToDummy(AfterWrite(s, ws[0], ScriptFor(native, from)).state, native, ws[1..], from + 1);
    }
  }

  predicate SomeCallSucceeded(script: seq<NativeReturn>)
  {
    exists j :: 0 <= j < |script| && script[j].code == EwOk
  }

  /** On a real client a write succeeds only if some native call of its
      script returned 0. */
  lemma {:induction false} ClientWritesNeedNativeSuccess(s: ClientState, native: seq<seq<NativeReturn>>, ws: seq<ToolWrite>, from: nat)
    requires s.dummy.None?
    ensures forall k :: 0 <= k < |ws| && ClientWrites(s, native, ws, from).outcomes[k] == WriteOk ==>
      SomeCallSucceeded(ScriptFor(native, from + k))
    decreases ws
  {
    if ws != [] {
      var step := AfterWrite(s, ws[0], ScriptFor(native, from));
      ClientWritesNeedNativeSuccess(step.state, native, ws[1..], from + 1);
      if !(s.busy || s.handle == 0) {
        var e := Retry(Writing, s.handle, ScriptFor(native, from));
        if e.written {
          assert ScriptFor(native, from)[e.used - 1].code == EwOk;
        }
      }
    }
  }

  /** `write_offset`: fails on an empty batch, a machine without master
      offsets, or a machine without a client; otherwise writes each planned
      tool offset in tool order, ignoring write failures, and returns Ok.
      `attempted` and `outcomes` are the writes made and what each returned. */
  method WriteOffset(gauges: Batch, handleTable: map<U16, FocasClient>, master: MasterOffsets,
                     native: seq<seq<NativeReturn>>)
    returns (r: WriteOffsetOutcome, attempted: seq<ToolWrite>, outcomes: seq<WriteOutcome>)
    modifies handleTable.Values
    ensures gauges == [] ==> r == Returned(Err(NoGaugeData))
    ensures gauges != [] && gauges[0].machineId !in master ==> r == Returned(Err(NoMasterOffsets))
    ensures gauges != [] && gauges[0].machineId in master && gauges[0].machineId !in handleTable ==>
      r == Returned(Err(NoCncHandle))
    ensures r.Returned? && r.result.Err? ==> attempted == [] && unchanged(handleTable.Values)
    ensures gauges != [] && gauges[0].machineId in master && gauges[0].machineId in handleTable ==>
      r == Returned(Ok(())) || r.Stuck?
    ensures r == Returned(Ok(())) ==>
      attempted == PlannedWrites(gauges, master[gauges[0].machineId], |TargetTools|)
    ensures r.Stuck? ==> |attempted| > 0 && attempted <= PlannedWrites(gauges, master[gauges[0].machineId], |TargetTools|)
    ensures |outcomes| == |attempted|
    ensures forall k :: 0 <= k < |outcomes| ==> (outcomes[k].StillRetrying? <==> r.Stuck? && k == |outcomes| - 1)
    ensures gauges != [] && gauges[0].machineId in master && gauges[0].machineId in handleTable ==>
      var client := handleTable[gauges[0].machineId];
      var run := ClientWrites(old(StateOf(client)), native, attempted, 0);
      && StateOf(client) == run.state && outcomes == run.outcomes
      && client.busy == old(client.busy)
      && (old(client.busy) ==> StateOf(client) == old(StateOf(client)) && forall k :: 0 <= k < |outcomes| ==> outcomes[k] == WriteErr(Busy))
      && (old(client.dummy).Some? && !old(client.busy) ==>
            && r == Returned(Ok(()))
            && (forall k :: 0 <= k < |outcomes| ==> outcomes[k] == WriteOk)
            && client.dummy == Some(StoreWrites(old(client.dummy).value, attempted)))
      && (old(client.dummy).None? ==> client.dummy.None?)
    ensures forall c :: c in handleTable.Values && !WrittenClient(gauges, handleTable, c) ==> unchanged(c)
  {
    if gauges == [] {
      return Returned(Err(NoGaugeData)), [], [];
    }
    var machineId := gauges[0].machineId;
    if machineId !in master {
      return Returned(Err(NoMasterOffsets)), [], [];
    }
    var masterOffsets := master[machineId];
    if machineId !in handleTable {
      return Returned(Err(NoCncHandle)), [], [];
    }
    var handle := handleTable[machineId];
    ghost var before := StateOf(handle);
    var stuck;
    stuck, attempted, outcomes := WriteTools(gauges, masterOffsets, handle, native);
    r := if stuck then Stuck else Returned(Ok(()));
    ClientWritesKeepBusyFlag(before, native, attempted, 0);
    if before.busy {
      ClientWritesWhileBusy(before, native, attempted, 0);
    }
    if before.dummy.Some? && !before.busy {
      ClientWritesToDummy(before, native, attempted, 0);
    }
  }

  /** The tool loop of `write_offset` on one client: for each target tool
      with values and a master offset, compute the value and write it; a
      failed write moves on to the next tool, and only a write still
      reconnecting stops the loop. */
  method WriteTools(gauges: Batch, masterOffsets: map<int, real>, handle: FocasClient,
                    native: seq<seq<NativeReturn>>)
    returns (stuck: bool, attempted: seq<ToolWrite>, outcomes: seq<WriteOutcome>)
    modifies handle
    ensures !stuck ==> attempted == PlannedWrites(gauges, masterOffsets, |TargetTools|)
    ensures stuck ==> |attempted| > 0 && attempted <= PlannedWrites(gauges, masterOffsets, |TargetTools|)
    ensures |outcomes| == |attempted|
    ensures forall k :: 0 <= k < |outcomes| ==> (outcomes[k].StillRetrying? <==> stuck && k == |outcomes| - 1)
    ensures var run := ClientWrites(old(StateOf(handle)), native, attempted, 0);
      StateOf(handle) == run.state && outcomes == run.outcomes
    ensures old(handle.dummy).Some? && !old(handle.busy) ==> !stuck
  {
    ghost var start := StateOf(handle);
    attempted, outcomes := [], [];
    for i := 0 to |TargetTools|
      invariant attempted == PlannedWrites(gauges, masterOffsets, i)
      invariant forall k :: 0 <= k < |outcomes| ==> !outcomes[k].StillRetrying?
      invariant ClientRun(StateOf(handle), outcomes) == ClientWrites(start, native, attempted, 0)
      invariant start.dummy.Some? && !start.busy ==> StateOf(handle).dummy.Some? && !handle.busy
    {
      stuck, attempted, outcomes := WriteToolStep(gauges, masterOffsets, handle, i, native, attempted, outcomes, start);
      if stuck {
        PlannedWritesPrefix(gauges, masterOffsets, i + 1, |TargetTools|);
        return;
      }
    }
    stuck := false;
  }

  /** One turn of the tool loop on the writes made so far: the planned
      writes grow by tool position `i`'s write, or the loop stops inside a
      write still reconnecting. */
  method WriteToolStep(gauges: Batch, masterOffsets: map<int, real>, handle: FocasClient, i: nat,
                       native: seq<seq<NativeReturn>>, attempted: seq<ToolWrite>, outcomes: seq<WriteOutcome>,
                       ghost start: ClientState)
    returns (stuck: bool, attempted': seq<ToolWrite>, outcomes': seq<WriteOutcome>)
    requires i < |TargetTools|
    requires attempted == PlannedWrites(gauges, masterOffsets, i)
    requires forall k :: 0 <= k < |outcomes| ==> !outcomes[k].StillRetrying?
    requires ClientRun(StateOf(handle), outcomes) == ClientWrites(start, native, attempted, 0)
    modifies handle
    ensures attempted' == PlannedWrites(gauges, masterOffsets, i + 1)
    ensures stuck ==> |attempted'| > 0
    ensures forall k :: 0 <= k < |outcomes'| ==> (outcomes'[k].StillRetrying? <==> stuck && k == |outcomes'| - 1)
    ensures ClientRun(StateOf(handle), outcomes') == ClientWrites(start, native, attempted', 0)
    ensures old(handle.dummy).Some? && !old(handle.busy) ==> !stuck && handle.dummy.Some? && !handle.busy
  {
    ghost var before := StateOf(handle);
    var write, outcome := WriteTool(gauges, masterOffsets, handle, i, ScriptFor(native, |attempted|));
    PlannedWritesStep(gauges, masterOffsets, i);
    if write.None? {
      return false, attempted, outcomes;
    }
    ToolStepAdvances(gauges, masterOffsets, i, native, attempted, outcomes, start, before, write.value, outcome, StateOf(handle));
    stuck := outcome.StillRetrying?;
    attempted', outcomes' := attempted + [write.value], outcomes + [outcome];
  }

  /** A write made at tool position `i` extends the planned writes and the
      client run by one, and only a write still reconnecting can be stuck. */
  lemma ToolStepAdvances(gauges: Batch, masterOffsets: map<int, real>, i: nat, native: seq<seq<NativeReturn>>,
                         attempted: seq<ToolWrite>, outcomes: seq<WriteOutcome>, start: ClientState,
                         s: ClientState, w: ToolWrite, outcome: WriteOutcome, s': ClientState)
    requires i < |TargetTools|
    requires attempted == PlannedWrites(gauges, masterOffsets, i)
    requires forall k :: 0 <= k < |outcomes| ==> !outcomes[k].StillRetrying?
    requires ClientRun(s, outcomes) == ClientWrites(start, native, attempted, 0)
    requires Some(w) == ToolCorrection(gauges, masterOffsets, i)
    requires ClientStep(s', outcome) == AfterWrite(s, w, ScriptFor(native, |attempted|))
    ensures attempted + [w] == PlannedWrites(gauges, masterOffsets, i + 1)
    ensures forall k :: 0 <= k < |outcomes| + 1 ==>
      ((outcomes + [outcome])[k].StillRetrying? <==> outcome.StillRetrying? && k == |outcomes|)
    ensures ClientRun(s', outcomes + [outcome]) == ClientWrites(start, native, attempted + [w], 0)
    ensures s.dummy.Some? && !s.busy ==> !outcome.StillRetrying? && s'.dummy.Some? && !s'.busy
  {
    PlannedWritesStep(gauges, masterOffsets, i);
    ClientWritesAppend(start, native, attempted, w, 0);
    assert forall k :: 0 <= k < |outcomes| ==> (outcomes + [outcome])[k] == outcomes[k];
  }

  /** One turn of the tool loop: collect tool position `i`'s values, skip
      the tool when there are none or it has no master offset, otherwise
      compute the value and write it.  `outcome` is what the write returned
      (WriteOk when nothing was written). */
  method WriteTool(gauges: Batch, masterOffsets: map<int, real>, handle: FocasClient, i: nat,
                   script: seq<NativeReturn>)
    returns (write: Option<ToolWrite>, outcome: WriteOutcome)
    requires i < |TargetTools|
    modifies handle
    ensures write == ToolCorrection(gauges, masterOffsets, i)
    ensures write.None? ==> outcome == WriteOk && unchanged(handle)
    ensures write.Some? ==> ClientStep(StateOf(handle), outcome) == AfterWrite(old(StateOf(handle)), write.value, script)
  {
    var toolNum := TargetTools[i];
    var points := ToolPoints(gauges, i);
    if points == [] {
      return None, WriteOk;
    }
    var avgPoint := TrimmedMean(points);
    if toolNum !in masterOffsets {
      return None, WriteOk;
    }
    var cncData := CncData(masterOffsets[toolNum], avgPoint);
    var writeHandles, freed;
    outcome, writeHandles, freed := handle.Wrtofs(toolNum, 0, cncData, script);
    write := Some(ToolWrite(toolNum, cncData));
  }

  // ---------------------------------------------------------------------
  // The batching step of `spawn_cnc_loop`

  /** A machine's batch; a machine not yet seen has an empty one. */
  function BatchOf(batches: map<U16, Batch>, m: U16): Batch
  {
    if m in batches then batches[m] else []
  }

  /** No batch holds a full batch's worth of samples at rest. */
  predicate BatchesBelowThreshold(batches: map<U16, Batch>, batchSize: nat)
  {
    forall m :: m in batches ==> |batches[m]| == 0 || |batches[m]| < batchSize
  }

  datatype LoopState = LoopState(batches: map<U16, Batch>, busy: set<U16>)

  datatype StepResult = StepResult(state: LoopState, dispatched: Option<Batch>)

  /** One received sample: append it to its machine's batch; once the batch
      holds `batchSize` samples drain it, and start a write with it unless
      the machine is busy, in which case the drained batch is dropped. */
  function ReceiveStep(s: LoopState, batchSize: nat, g: GaugeSample): StepResult
  {
    var m := g.machineId;
    var batch := BatchOf(s.batches, m) + [g];
    if |batch| < batchSize then StepResult(LoopState(s.batches[m := batch], s.busy), None)
    else if m in s.busy then StepResult(LoopState(s.batches[m := []], s.busy), None)
    else StepResult(LoopState(s.batches[m := []], s.busy + {m}), Some(batch))
  }

  /** Other machines' batches and the busy set are untouched, except that a
      started write marks its machine busy. */
  lemma ReceiveTouchesOnlyItsMachine(s: LoopState, batchSize: nat, g: GaugeSample, m: U16)
    requires m != g.machineId
    ensures var r := ReceiveStep(s, batchSize, g);
      && (m in r.state.batches <==> m in s.batches)
      && BatchOf(r.state.batches, m) == BatchOf(s.batches, m)
      && (m in r.state.busy <==> m in s.busy)
  {
  }

  /** A step keeps every batch below the threshold, and a dispatched batch
      is the machine's whole batch in arrival order, its machine now busy. */
  lemma ReceiveDrainsFullBatch(s: LoopState, batchSize: nat, g: GaugeSample)
    requires BatchesBelowThreshold(s.batches, batchSize)
    ensures var r := ReceiveStep(s, batchSize, g);
      && BatchesBelowThreshold(r.state.batches, batchSize)
      && (r.dispatched.Some? ==>
            r.dispatched.value == BatchOf(s.batches, g.machineId) + [g]
            && |r.dispatched.value| >= batchSize
            && g.machineId !in s.busy && r.state.busy == s.busy + {g.machineId})
      && (r.dispatched.None? ==> r.state.busy == s.busy)
      && BatchOf(r.state.batches, g.machineId)
         == (if |BatchOf(s.batches, g.machineId)| + 1 >= batchSize then [] else BatchOf(s.batches, g.machineId) + [g])
  {
  }

  /** A full batch for a busy machine is thrown away, not kept for later. */
  lemma BusyMachineBatchIsDropped(s: LoopState, batchSize: nat, g: GaugeSample)
    requires g.machineId in s.busy && |BatchOf(s.batches, g.machineId)| + 1 >= batchSize
    ensures ReceiveStep(s, batchSize, g) == StepResult(LoopState(s.batches[g.machineId := []], s.busy), None)
  {
  }

  /** What the loop reacts to: a sample from the gauge, or the end of a
      write task it spawned. */
  datatype LoopEvent = Received(sample: GaugeSample) | WriteFinished(machineId: U16)

  datatype RunResult = RunResult(state: LoopState, dispatched: seq<Batch>)

  function EventStep(s: LoopState, batchSize: nat, e: LoopEvent): StepResult
  {
    match e
    case Received(g) => ReceiveStep(s, batchSize, g)
    case WriteFinished(m) => StepResult(LoopState(s.batches, s.busy - {m}), None)
  }

  /** The loop over a sequence of events, collecting the batches it hands
      to write tasks. */
  function RunEvents(s: LoopState, batchSize: nat, events: seq<LoopEvent>): RunResult
  {
    if events == [] then RunResult(s, [])
    else
      var before := RunEvents(s, batchSize, events[..|events| - 1]);
      var step := EventStep(before.state, batchSize, events[|events| - 1]);
      RunResult(step.state, before.dispatched + (if step.dispatched.Some? then [step.dispatched.value] else []))
  }

  /** The threshold bound holds after any sequence of events. */
  lemma {:induction false} RunKeepsBatchesBelowThreshold(s: LoopState, batchSize: nat, events: seq<LoopEvent>)
    requires BatchesBelowThreshold(s.batches, batchSize)
    ensures BatchesBelowThreshold(RunEvents(s, batchSize, events).state.batches, batchSize)
  {
    if events != [] {
      var before := RunEvents(s, batchSize, events[..|events| - 1]);
      RunKeepsBatchesBelowThreshold(s, batchSize, events[..|events| - 1]);
      match events[|events| - 1]
      case Received(g) => ReceiveDrainsFullBatch(before.state, batchSize, g);
      case WriteFinished(m) =>
    }
  }

  /** Fewer samples than a batch's worth are only buffered: nothing is
      dispatched and they wait in the batch in arrival order. */
  lemma {:induction false} NoDispatchBelowThreshold(s: LoopState, batchSize: nat, m: U16, samples: seq<GaugeSample>)
    requires forall k :: 0 <= k < |samples| ==> samples[k].machineId == m
    requires |BatchOf(s.batches, m)| + |samples| < batchSize
    ensures var r := RunEvents(s, batchSize, seq(|samples|, k requires 0 <= k < |samples| => Received(samples[k])));
      && r.dispatched == []
      && BatchOf(r.state.batches, m) == BatchOf(s.batches, m) + samples
      && r.state.busy == s.busy
  {
    var events := seq(|samples|, k requires 0 <= k < |samples| => Received(samples[k]));
    if samples != [] {
      var init := samples[..|samples| - 1];
      var initEvents := seq(|init|, k requires 0 <= k < |init| => Received(init[k]));
      assert events[..|events| - 1] == initEvents;
      NoDispatchBelowThreshold(s, batchSize, m, init);
      var before := RunEvents(s, batchSize, initEvents);
      var last := samples[|samples| - 1];
      assert events[|events| - 1] == Received(last);
      var step := ReceiveStep(before.state, batchSize, last);
      assert BatchOf(step.state.batches, m) == BatchOf(before.state.batches, m) + [last];
      assert init + [last] == samples;
    }
  }

  /** Once a write for a machine finishes, its next full batch is written
      again (the busy mark does not outlive the write). */
  lemma FinishedWriteUnblocksMachine(s: LoopState, batchSize: nat, g: GaugeSample)
    requires |BatchOf(s.batches, g.machineId)| + 1 >= batchSize
    ensures var after := EventStep(s, batchSize, WriteFinished(g.machineId)).state;
      ReceiveStep(after, batchSize, g).dispatched == Some(BatchOf(s.batches, g.machineId) + [g])
  {
  }

  // ---------------------------------------------------------------------
  // The loop's state, updated in place

  class CncLoop {
    const batchSize: nat
    var gaugeBatches: map<U16, Batch>
    var busyMachines: set<U16>

    ghost predicate Valid()
      reads this
    {
      BatchesBelowThreshold(gaugeBatches, batchSize)
    }

    function State(): LoopState
      reads this
    {
      LoopState(gaugeBatches, busyMachines)
    }

    constructor (batchSize: nat)
      ensures Valid() && this.batchSize == batchSize
      ensures gaugeBatches == map[] && busyMachines == {}
    {
      this.batchSize := batchSize;
      gaugeBatches := map[];
      busyMachines := {};
    }

    /** One turn of the receive loop: push, and when the batch is full drain
        it; skip the write if the machine is busy, else mark it busy and
        return the batch to write. */
    method Receive(g: GaugeSample) returns (dispatched: Option<Batch>)
      requires Valid()
      modifies this
      ensures Valid()
      ensures StepResult(State(), dispatched) == ReceiveStep(old(State()), batchSize, g)
    {
      var machineId := g.machineId;
      var batch := if machineId in gaugeBatches then gaugeBatches[machineId] else [];
      batch := batch + [g];
      gaugeBatches := gaugeBatches[machineId := batch];
      if |batch| >= batchSize {
        var gaugesToProcess := batch;
        gaugeBatches := gaugeBatches[machineId := []];
        if machineId in busyMachines {
          return None;
        }
        busyMachines := busyMachines + {machineId};
        return Some(gaugesToProcess);
      }
      dispatched := None;
    }

    /** The end of a write task: its machine is no longer busy. */
    method FinishWrite(machineId: U16)
      modifies this`busyMachines
      ensures busyMachines == old(busyMachines) - {machineId}
    {
      busyMachines := busyMachines - {machineId};
    }

    /** The receive loop over a sequence of events. */
    method Run(events: seq<LoopEvent>) returns (dispatched: seq<Batch>)
      requires Valid()
      modifies this
      ensures Valid()
      ensures RunResult(State(), dispatched) == RunEvents(old(State()), batchSize, events)
    {
      dispatched := [];
      var i := 0;
      while i < |events|
        invariant 0 <= i <= |events| && Valid()
        invariant RunResult(State(), dispatched) == RunEvents(old(State()), batchSize, events[..i])
      {
        assert events[..i + 1][..i] == events[..i];
        match events[i] {
          case Received(g) =>
            var d := Receive(g);
            if d.Some? {
              dispatched := dispatched + [d.value];
            }
          case WriteFinished(m) =>
            FinishWrite(m);
        }
        i := i + 1;
      }
      assert events[..i] == events;
    }
  }

  /** The spawned write task: run `write_offset`, then clear the machine's
      busy mark whether the write succeeded or failed.  A write stuck
      reconnecting never gets there, and the machine stays busy. */
  method WriteTask(loop: CncLoop, machineId: U16, batch: Batch, handleTable: map<U16, FocasClient>,
                   master: MasterOffsets, native: seq<seq<NativeReturn>>)
    returns (r: WriteOffsetOutcome)
    modifies loop`busyMachines, handleTable.Values
    ensures r.Returned? ==> loop.busyMachines == old(loop.busyMachines) - {machineId}
    ensures r.Stuck? ==> loop.busyMachines == old(loop.busyMachines)
  {
    var attempted, outcomes;
    r, attempted, outcomes := WriteOffset(batch, handleTable, master, native);
    if r.Returned? {
      loop.FinishWrite(machineId);
    }
  }
}
