/**
 Inclusive block intervals, the set of blocks they cover, and the two coverage
 scans of the source proved against a block-by-block reference.
 */
module BlockRanges {
  import opened Wrappers
  import opened Sorting

  datatype BlockRange = BlockRange(start: int, end: int) {
    /** What the range constructors of the source enforce. */
    predicate Valid() { 0 <= start <= end }

    predicate Contains(b: int) { start <= b <= end }

    function Size(): int { end - start + 1 }
  }

  /** Ranges are sorted by (start, end). */
  predicate RangeLe(a: BlockRange, b: BlockRange) {
    a.start < b.start || (a.start == b.start && a.end <= b.end)
  }

  ghost predicate Covered(rs: seq<BlockRange>, b: int) {
    exists r :: r in rs && r.Contains(b)
  }

  function MaxEnd(rs: seq<BlockRange>): (m: int)
    ensures forall r :: r in rs ==> r.end <= m
  {
    if rs == [] then -1
    else var rest := MaxEnd(rs[1..]); if rs[0].end > rest then rs[0].end else rest
  }

  /** Reference reading of contiguous coverage: walk block by block from `from`. */
  ghost function ContiguousEnd(from: int, rs: seq<BlockRange>): (e: int)
    ensures from - 1 <= e
    decreases MaxEnd(rs) + 1 - from
  {
    if Covered(rs, from) then ContiguousEnd(from + 1, rs) else from - 1
  }

  /** The contiguous end is the greatest block through which nothing is missing. */
  lemma {:induction false} ContiguousEndIsGreatest(from: int, rs: seq<BlockRange>)
    ensures forall b :: from <= b <= ContiguousEnd(from, rs) ==> Covered(rs, b)
    ensures !Covered(rs, ContiguousEnd(from, rs) + 1)
    decreases MaxEnd(rs) + 1 - from
  {
    if Covered(rs, from) {
      ContiguousEndIsGreatest(from + 1, rs);
    }
  }

  /** Any value with both halves of that description is the contiguous end. */
  lemma {:induction false} ContiguousEndUnique(from: int, rs: seq<BlockRange>, e: int)
    requires from - 1 <= e
    requires forall b :: from <= b <= e ==> Covered(rs, b)
    requires !Covered(rs, e + 1)
    ensures e == ContiguousEnd(from, rs)
  {
    ContiguousEndIsGreatest(from, rs);
  }

  /** More evidence never lowers the contiguous end, whatever its order. */
  lemma {:induction false} ContiguousEndMonotone(from: int, rs: seq<BlockRange>, more: seq<BlockRange>)
    requires forall b :: Covered(rs, b) ==> Covered(more, b)
    ensures ContiguousEnd(from, rs) <= ContiguousEnd(from, more)
  {
    ContiguousEndIsGreatest(from, rs);
    ContiguousEndIsGreatest(from, more);
  }

  /** Evidence that starts no later than the gap and reaches `hi` closes it through `hi`. */
  lemma {:induction false} CoverageExtends(from: int, rs: seq<BlockRange>, lo: int, hi: int)
    requires from <= lo <= ContiguousEnd(from, rs) + 1
    requires forall b :: lo <= b <= hi ==> Covered(rs, b)
    ensures hi <= ContiguousEnd(from, rs)
  {
    ContiguousEndIsGreatest(from, rs);
  }

  lemma CoveredConcat(a: seq<BlockRange>, b: seq<BlockRange>)
    ensures forall x :: Covered(a + b, x) <==> Covered(a, x) || Covered(b, x)
  {
    assert forall r :: r in a + b <==> r in a || r in b;
  }

  /** Consecutive non-empty ranges from `lo` through `hi`, in order and without gap. */
  ghost predicate Tiles(rs: seq<BlockRange>, lo: int, hi: int) {
    if rs == [] then lo == hi + 1
    else
      && rs[0].start == lo
      && rs[|rs| - 1].end == hi
      && (forall i :: 0 <= i < |rs| ==> rs[i].start <= rs[i].end)
      && (forall i :: 0 < i < |rs| ==> rs[i].start == rs[i - 1].end + 1)
  }

  /** A tiling covers exactly its interval, and its ranges stay inside it. */
  lemma {:induction false} TilesCover(rs: seq<BlockRange>, lo: int, hi: int)
    requires Tiles(rs, lo, hi)
    ensures lo <= hi + 1
    ensures forall b :: lo <= b <= hi <==> Covered(rs, b)
    ensures forall r :: r in rs ==> lo <= r.start && r.end <= hi
    decreases |rs|
  {
    if rs != [] {
      var front, last := rs[..|rs| - 1], rs[|rs| - 1];
      assert rs == front + [last];
      FrontTiles(rs, lo, hi);
      TilesCover(front, lo, last.start - 1);
      forall b ensures lo <= b <= hi <==> Covered(rs, b) { CoveredByLast(front, last, b); }
    }
  }

  lemma FrontTiles(rs: seq<BlockRange>, lo: int, hi: int)
    requires Tiles(rs, lo, hi) && rs != []
    ensures Tiles(rs[..|rs| - 1], lo, rs[|rs| - 1].start - 1) && rs[|rs| - 1].start <= rs[|rs| - 1].end == hi
  {
  }

  lemma CoveredByLast(front: seq<BlockRange>, last: BlockRange, b: int)
    ensures Covered(front + [last], b) <==> Covered(front, b) || last.Contains(b)
  {
    CoveredConcat(front, [last]);
    assert last in [last];
  }

  lemma TilesConcat(a: seq<BlockRange>, b: seq<BlockRange>, lo: int, mid: int, hi: int)
    requires Tiles(a, lo, mid) && Tiles(b, mid + 1, hi)
    ensures Tiles(a + b, lo, hi)
  {
    if a != [] && b != [] {
      var c := a + b;
      forall i | 0 < i < |c| ensures c[i].start == c[i - 1].end + 1 {
      }
      assert c[|c| - 1] == b[|b| - 1];
    } else if a == [] {
      assert a + b == b;
    } else {
      assert a + b == a;
    }
  }

  /** Tilings are ordered by (start, end), so sorting one changes nothing. */
  lemma {:induction false} TilesAreSorted(rs: seq<BlockRange>, lo: int, hi: int)
    requires Tiles(rs, lo, hi)
    ensures Sort(rs, RangeLe) == rs
    ensures forall i, j :: 0 <= i < j < |rs| ==> rs[i].end < rs[j].start
  {
    forall i, j | 0 <= i < j < |rs| ensures rs[i].end < rs[j].start {
      TilesStep(rs, lo, hi, i, j);
    }
    SortOfSorted(rs, RangeLe);
  }

  lemma {:induction false} TilesStep(rs: seq<BlockRange>, lo: int, hi: int, i: nat, j: nat)
    requires Tiles(rs, lo, hi) && i < j < |rs|
    ensures rs[i].end < rs[j].start
    decreases j
  {
    if i + 1 < j { TilesStep(rs, lo, hi, i, j - 1); }
  }

  /** After the first `i` sorted ranges everything from the start through `reached` is covered, and they end by then. */
  ghost predicate Reached(rs: seq<BlockRange>, sorted: seq<BlockRange>, from: int, i: nat, reached: int) {
    && i <= |sorted| && from - 1 <= reached
    && (forall b :: from <= b <= reached ==> Covered(rs, b))
    && (forall k :: 0 <= k < i ==> sorted[k].end <= reached)
  }

  ghost predicate Rearranged(sorted: seq<BlockRange>, rs: seq<BlockRange>) {
    SortedBy(sorted, RangeLe) && forall x :: x in sorted <==> x in rs
  }

  lemma ReachedExtends(rs: seq<BlockRange>, sorted: seq<BlockRange>, from: int, i: nat, reached: int)
    requires Rearranged(sorted, rs) && i < |sorted| && Reached(rs, sorted, from, i, reached)
    requires sorted[i].start <= reached + 1 || sorted[i].end < from
    ensures Reached(rs, sorted, from, i + 1, if reached < sorted[i].end then sorted[i].end else reached)
  {
    CoveredBy(rs, sorted[i]);
  }

  /** At the first range beyond the next block, or at the end, nothing covers the next block. */
  lemma {:induction false} ReachedStops(rs: seq<BlockRange>, sorted: seq<BlockRange>, from: int, i: nat, reached: int)
    requires Rearranged(sorted, rs) && Reached(rs, sorted, from, i, reached)
    requires i == |sorted| || sorted[i].start > reached + 1
    ensures reached == ContiguousEnd(from, rs)
  {
    forall x | x in rs ensures !x.Contains(reached + 1) {
      var k :| 0 <= k < |sorted| && sorted[k] == x;
      if i < k { assert RangeLe(sorted[i], sorted[k]); }
    }
    ContiguousEndUnique(from, rs, reached);
  }

  /**
   orchestration/aave_forward.py, `highest_contiguous_block`: one pass over the
   sorted evidence with an early exit finds the block-by-block answer.
   */
  method HighestContiguousBlock(projectStart: int, completed: seq<BlockRange>)
    returns (r: Result<int, string>)
    ensures r.Failure? <==> projectStart < 0
    ensures r.Success? ==> r.value == ContiguousEnd(projectStart, completed)
  {
    if projectStart < 0 {
      return Failure("project_start_block must not be negative");
    }
    var contiguousEnd := projectStart - 1;
    var sorted := Sort(completed, RangeLe);
    SortOrdersAndPermutes(completed, RangeLe);
    var i := 0;
    while i < |sorted|
      invariant Reached(completed, sorted, projectStart, i, contiguousEnd)
    {
      var range := sorted[i];
      if range.end < projectStart {
        ReachedExtends(completed, sorted, projectStart, i, contiguousEnd);
        i := i + 1;
        continue;
      }
      if range.start > contiguousEnd + 1 {
        break;
      }
      ReachedExtends(completed, sorted, projectStart, i, contiguousEnd);
      if contiguousEnd < range.end {
        contiguousEnd := range.end;
      }
      i := i + 1;
    }
    ReachedStops(completed, sorted, projectStart, i, contiguousEnd);
    return Success(contiguousEnd);
  }

  lemma CoveredBy(rs: seq<BlockRange>, range: BlockRange)
    requires range in rs
    ensures forall b :: range.start <= b <= range.end ==> Covered(rs, b)
  {
    forall b | range.start <= b <= range.end ensures Covered(rs, b) { assert range.Contains(b); }
  }

  datatype Coverage = Coverage(
    physicalRows: nat,
    logicalRanges: nat,
    duplicateGroups: nat,
    highestContiguousBlock: int,
    gaps: seq<BlockRange>)

  /** How many ledger rows record exactly this interval. */
  function CountOf(rs: seq<BlockRange>, key: BlockRange): nat {
    multiset(rs)[key]
  }

  /** The intervals recorded more than once. */
  function Duplicated(rs: seq<BlockRange>): set<BlockRange> {
    set r | r in rs && CountOf(rs, r) > 1
  }

  /** `gap` is uncovered, inside [from, top], and cannot be widened. */
  ghost predicate MaximalGap(gap: BlockRange, from: int, top: int, rs: seq<BlockRange>) {
    && from <= gap.start <= gap.end < top
    && (forall b :: gap.start <= b <= gap.end ==> !Covered(rs, b))
    && (gap.start == from || Covered(rs, gap.start - 1))
    && Covered(rs, gap.end + 1)
  }

  /** All maximal gaps below `top`, ascending, no two touching. */
  ghost predicate ExactGaps(gaps: seq<BlockRange>, from: int, top: int, rs: seq<BlockRange>) {
    && (forall i :: 0 <= i < |gaps| ==> MaximalGap(gaps[i], from, top, rs))
    && (forall i, j :: 0 <= i < j < |gaps| ==> gaps[i].end + 1 < gaps[j].start)
    && (forall b :: from <= b <= top && !Covered(rs, b) ==> Covered(gaps, b))
  }

  /** Highest covered block at or after `from`, or `from - 1`. */
  ghost function HighestCovered(from: int, rs: seq<BlockRange>): int {
    if MaxEnd(rs) >= from then MaxEnd(rs) else from - 1
  }

  /** What the coverage scan knows after the first `i` sorted intervals. */
  ghost predicate Scanned(rs: seq<BlockRange>, intervals: seq<BlockRange>, from: int,
                          i: nat, contiguousEnd: int, mergedEnd: int, gaps: seq<BlockRange>)
  {
    && i <= |intervals|
    && from - 1 <= mergedEnd
    && (forall k :: 0 <= k < i ==> intervals[k].end <= mergedEnd)
    && (mergedEnd >= from ==> exists k :: 0 <= k < i && intervals[k].end == mergedEnd)
    && ExactGaps(gaps, from, mergedEnd, rs)
    && (forall g, k :: 0 <= g < |gaps| && i <= k < |intervals| ==> gaps[g].end < intervals[k].start)
    && contiguousEnd == if gaps == [] then mergedEnd else gaps[0].start - 1
  }

  ghost predicate SortedKeysOf(intervals: seq<BlockRange>, rs: seq<BlockRange>) {
    && SortedBy(intervals, RangeLe)
    && (forall x :: x in intervals <==> x in rs)
    && (forall x :: x in rs ==> x.Valid())
  }

  /** An interval that starts no later than the merged end only extends it. */
  lemma ScanJoins(rs: seq<BlockRange>, intervals: seq<BlockRange>, from: int,
                  i: nat, contiguousEnd: int, mergedEnd: int, gaps: seq<BlockRange>)
    requires i < |intervals| && SortedKeysOf(intervals, rs)
    requires Scanned(rs, intervals, from, i, contiguousEnd, mergedEnd, gaps)
    requires intervals[i].start <= mergedEnd + 1 || intervals[i].start <= from
    ensures
      var range := intervals[i];
      var merged' := if mergedEnd < range.end then range.end else mergedEnd;
      && Scanned(rs, intervals, from, i + 1, if gaps == [] then merged' else contiguousEnd, merged', gaps)
      && (gaps != [] ==> contiguousEnd + 1 < range.start && from < range.start)
  {
    var range := intervals[i];
    assert range in rs;
    var merged' := if mergedEnd < range.end then range.end else mergedEnd;
    if gaps != [] { assert MaximalGap(gaps[0], from, mergedEnd, rs); }
    forall g | 0 <= g < |gaps| ensures MaximalGap(gaps[g], from, merged', rs) {
      assert MaximalGap(gaps[g], from, mergedEnd, rs);
    }
    forall b | mergedEnd < b <= range.end && from <= b ensures Covered(rs, b) {
      assert range.Contains(b);
    }
  }

  /** Adding a maximal gap that starts right after the merged end keeps the list exact. */
  lemma ExactGapsExtend(rs: seq<BlockRange>, from: int, mergedEnd: int, top: int,
                        gaps: seq<BlockRange>, gap: BlockRange)
    requires ExactGaps(gaps, from, mergedEnd, rs)
    requires gap.start == mergedEnd + 1 && gap.end < top && MaximalGap(gap, from, top, rs)
    requires forall b :: gap.end < b <= top ==> Covered(rs, b)
    ensures ExactGaps(gaps + [gap], from, top, rs)
  {
    var all := gaps + [gap];
    CoveredConcat(gaps, [gap]);
    forall i | 0 <= i < |all| ensures MaximalGap(all[i], from, top, rs) {
      if i < |gaps| { assert MaximalGap(gaps[i], from, mergedEnd, rs); }
    }
    forall i, j | 0 <= i < j < |all| ensures all[i].end + 1 < all[j].start {
      assert MaximalGap(gaps[i], from, mergedEnd, rs);
    }
    forall b | from <= b <= top && !Covered(rs, b) ensures Covered(all, b) {
      if b > mergedEnd { assert gap in [gap] && gap.Contains(b); }
    }
  }

  /** An interval that starts beyond the merged end opens exactly one new maximal gap. */
  lemma ScanOpensGap(rs: seq<BlockRange>, intervals: seq<BlockRange>, from: int,
                     i: nat, contiguousEnd: int, mergedEnd: int, gaps: seq<BlockRange>)
    requires i < |intervals| && SortedKeysOf(intervals, rs)
    requires Scanned(rs, intervals, from, i, contiguousEnd, mergedEnd, gaps)
    requires from < intervals[i].start && mergedEnd + 1 < intervals[i].start
    ensures
      var gap := BlockRange(mergedEnd + 1, intervals[i].start - 1);
      && Scanned(rs, intervals, from, i + 1, contiguousEnd, intervals[i].end, gaps + [gap])
      && contiguousEnd + 1 < intervals[i].start
      && mergedEnd < intervals[i].end
  {
    var range := intervals[i];
    var gap := BlockRange(mergedEnd + 1, range.start - 1);
    assert range in rs;
    GapIsMaximal(gap, from, mergedEnd, rs, intervals, i);
    forall b | gap.end < b <= range.end ensures Covered(rs, b) {
      assert range.Contains(b);
    }
    ExactGapsExtend(rs, from, mergedEnd, range.end, gaps, gap);
    forall k | i < k < |intervals| ensures gap.end < intervals[k].start {
      assert RangeLe(intervals[i], intervals[k]);
    }
    if gaps != [] { assert MaximalGap(gaps[0], from, mergedEnd, rs); }
  }

  /** An interval below the project start changes nothing. */
  lemma ScanSkips(rs: seq<BlockRange>, intervals: seq<BlockRange>, from: int,
                  i: nat, contiguousEnd: int, mergedEnd: int, gaps: seq<BlockRange>)
    requires i < |intervals| && SortedKeysOf(intervals, rs)
    requires Scanned(rs, intervals, from, i, contiguousEnd, mergedEnd, gaps)
    requires intervals[i].end < from
    ensures Scanned(rs, intervals, from, i + 1, contiguousEnd, mergedEnd, gaps)
  {
  }

  /** At the end of the scan both coverage figures are the reference ones. */
  lemma {:induction false} ScanFinishes(rs: seq<BlockRange>, intervals: seq<BlockRange>, from: int,
                     contiguousEnd: int, mergedEnd: int, gaps: seq<BlockRange>)
    requires from >= 0 && SortedKeysOf(intervals, rs)
    requires Scanned(rs, intervals, from, |intervals|, contiguousEnd, mergedEnd, gaps)
    ensures mergedEnd == HighestCovered(from, rs)
    ensures contiguousEnd == ContiguousEnd(from, rs)
  {
    forall x | x in rs ensures x.end <= mergedEnd {
      assert x in intervals;
    }
    MaxEndIsAttained(rs);
    if mergedEnd >= from {
      var k :| 0 <= k < |intervals| && intervals[k].end == mergedEnd;
      assert intervals[k] in rs;
    }
    if gaps != [] {
      forall b | from <= b < gaps[0].start ensures Covered(rs, b) {
        assert !Covered(gaps, b);
      }
      assert MaximalGap(gaps[0], from, mergedEnd, rs);
    }
    ContiguousEndUnique(from, rs, contiguousEnd);
  }

  /** What one interval does to the scan's variables, whether it opens a gap or joins. */
  lemma ScanOpened(rs: seq<BlockRange>, intervals: seq<BlockRange>, from: int, i: nat, contiguousEnd: int, mergedEnd: int, gaps: seq<BlockRange>,
                   contiguousEnd': int, mergedEnd': int)
    requires i < |intervals| && SortedKeysOf(intervals, rs)
    requires Scanned(rs, intervals, from, i, contiguousEnd, mergedEnd, gaps)
    requires from < intervals[i].start && mergedEnd + 1 < intervals[i].start
    requires mergedEnd' == if mergedEnd < intervals[i].end then intervals[i].end else mergedEnd
    requires contiguousEnd' == if intervals[i].start <= contiguousEnd + 1
                               then (if contiguousEnd < intervals[i].end then intervals[i].end else contiguousEnd) else contiguousEnd
    ensures Scanned(rs, intervals, from, i + 1, contiguousEnd', mergedEnd', gaps + [BlockRange(mergedEnd + 1, intervals[i].start - 1)])
  {
    ScanOpensGap(rs, intervals, from, i, contiguousEnd, mergedEnd, gaps);
  }

  lemma ScanJoined(rs: seq<BlockRange>, intervals: seq<BlockRange>, from: int, i: nat, contiguousEnd: int, mergedEnd: int, gaps: seq<BlockRange>,
                   contiguousEnd': int, mergedEnd': int)
    requires i < |intervals| && SortedKeysOf(intervals, rs)
    requires Scanned(rs, intervals, from, i, contiguousEnd, mergedEnd, gaps)
    requires intervals[i].start <= mergedEnd + 1 || intervals[i].start <= from
    requires mergedEnd' == if mergedEnd < intervals[i].end then intervals[i].end else mergedEnd
    requires contiguousEnd' == if (if intervals[i].start < from then from else intervals[i].start) <= contiguousEnd + 1
                               then (if contiguousEnd < intervals[i].end then intervals[i].end else contiguousEnd) else contiguousEnd
    ensures Scanned(rs, intervals, from, i + 1, contiguousEnd', mergedEnd', gaps)
  {
    ScanJoins(rs, intervals, from, i, contiguousEnd, mergedEnd, gaps);
  }

  /** The body of the coverage loop for one sorted interval. */
  method ScanInterval(ghost rs: seq<BlockRange>, intervals: seq<BlockRange>, projectStart: int,
                      i: nat, contiguousEnd: int, mergedEnd: int, gaps: seq<BlockRange>)
    returns (contiguousEnd': int, mergedEnd': int, gaps': seq<BlockRange>)
    requires i < |intervals| && SortedKeysOf(intervals, rs)
    requires Scanned(rs, intervals, projectStart, i, contiguousEnd, mergedEnd, gaps)
    ensures Scanned(rs, intervals, projectStart, i + 1, contiguousEnd', mergedEnd', gaps')
  {
    var range := intervals[i];
    contiguousEnd', mergedEnd', gaps' := contiguousEnd, mergedEnd, gaps;
    if range.end < projectStart {
      ScanSkips(rs, intervals, projectStart, i, contiguousEnd, mergedEnd, gaps);
      return;
    }
    var effectiveStart := if range.start < projectStart then projectStart else range.start;
    var opens := effectiveStart > mergedEnd + 1;
    if opens {
      gaps' := gaps + [BlockRange(mergedEnd + 1, effectiveStart - 1)];
    }
    mergedEnd' := if mergedEnd < range.end then range.end else mergedEnd;
    if effectiveStart <= contiguousEnd + 1 {
      contiguousEnd' := if contiguousEnd < range.end then range.end else contiguousEnd;
    }
    if opens {
      assert effectiveStart == range.start;
      ScanOpened(rs, intervals, projectStart, i, contiguousEnd, mergedEnd, gaps, contiguousEnd', mergedEnd');
    } else {
      ScanJoined(rs, intervals, projectStart, i, contiguousEnd, mergedEnd, gaps, contiguousEnd', mergedEnd');
    }
  }

  /**
   warehouse/completed_ranges.py, `summarize_completed_range_coverage`: one pass
   without the early exit finds the same contiguous end, and its gaps are exactly
   the maximal uncovered intervals below the highest covered block.
   */
  method SummarizeCompletedRangeCoverage(projectStart: int, completed: seq<BlockRange>)
    returns (r: Result<Coverage, string>)
    requires forall x :: x in completed ==> x.Valid()
    ensures r.Failure? <==> projectStart < 0
    ensures r.Success? ==>
              && r.value.physicalRows == |completed|
              && r.value.logicalRanges == |set x | x in completed|
              && r.value.duplicateGroups == |Duplicated(completed)|
              && r.value.highestContiguousBlock == ContiguousEnd(projectStart, completed)
              && ExactGaps(r.value.gaps, projectStart, HighestCovered(projectStart, completed), completed)
  {
    if projectStart < 0 {
      return Failure("project_start_block must not be negative");
    }
    var keys, counts := CountIntervals(completed);
    var duplicates := CountDuplicates(completed, keys, counts);
    var intervals := Sort(keys, RangeLe);
    SortOrdersAndPermutes(keys, RangeLe);
    var contiguousEnd, mergedEnd := projectStart - 1, projectStart - 1;
    var gaps: seq<BlockRange> := [];
    var i := 0;
    assert Scanned(completed, intervals, projectStart, 0, contiguousEnd, mergedEnd, gaps);
    while i < |intervals|
      invariant 0 <= i <= |intervals|
      invariant Scanned(completed, intervals, projectStart, i, contiguousEnd, mergedEnd, gaps)
    {
      contiguousEnd, mergedEnd, gaps :=
        ScanInterval(completed, intervals, projectStart, i, contiguousEnd, mergedEnd, gaps);
      i := i + 1;
    }
    ScanFinishes(completed, intervals, projectStart, contiguousEnd, mergedEnd, gaps);
    return Success(Coverage(|completed|, |keys|, duplicates, contiguousEnd, gaps));
  }

  ghost predicate CountsOf(completed: seq<BlockRange>, keys: seq<BlockRange>, counts: map<BlockRange, nat>) {
    && (forall x :: x in keys <==> x in completed)
    && |keys| == |set x | x in keys|
    && counts.Keys == (set x | x in keys)
    && (forall x :: x in counts ==> counts[x] == CountOf(completed, x))
  }

  /** The interval counts, with the distinct intervals in order of first appearance. */
  method CountIntervals(completed: seq<BlockRange>)
    returns (keys: seq<BlockRange>, counts: map<BlockRange, nat>)
    ensures CountsOf(completed, keys, counts)
    ensures |keys| == |set x | x in completed|
  {
    counts := map[];
    keys := [];
    var i := 0;
    while i < |completed|
      invariant 0 <= i <= |completed|
      invariant CountsOf(completed[..i], keys, counts)
    {
      var key := completed[i];
      CountsExtend(completed, i, keys, counts);
      if key !in counts {
        keys := keys + [key];
        counts := counts[key := 1];
      } else {
        counts := counts[key := counts[key] + 1];
      }
      i := i + 1;
    }
    assert completed[..i] == completed;
    CountsDistinct(completed, keys, counts);
  }

  lemma CountsExtend(completed: seq<BlockRange>, i: nat, keys: seq<BlockRange>, counts: map<BlockRange, nat>)
    requires i < |completed| && CountsOf(completed[..i], keys, counts)
    ensures var key := completed[i];
      && (key !in counts ==> CountsOf(completed[..i + 1], keys + [key], counts[key := 1]))
      && (key in counts ==> CountsOf(completed[..i + 1], keys, counts[key := counts[key] + 1]))
  {
    var done, key := completed[..i], completed[i];
    assert completed[..i + 1] == done + [key];
    if key !in counts {
      assert (set x | x in keys + [key]) == (set x | x in keys) + {key};
      assert key !in multiset(done);
    }
  }

  lemma CountsDistinct(completed: seq<BlockRange>, keys: seq<BlockRange>, counts: map<BlockRange, nat>)
    requires CountsOf(completed, keys, counts)
    ensures |keys| == |set x | x in completed|
  {
    assert (set x | x in keys) == (set x | x in completed);
  }

  method CountDuplicates(completed: seq<BlockRange>, keys: seq<BlockRange>, counts: map<BlockRange, nat>)
    returns (duplicates: nat)
    requires CountsOf(completed, keys, counts)
    ensures duplicates == |Duplicated(completed)|
  {
    duplicates := 0;
    ghost var seen: set<BlockRange> := {};
    var i := 0;
    while i < |keys|
      invariant 0 <= i <= |keys|
      invariant forall x :: x in seen <==> x in keys[..i] && CountOf(completed, x) > 1
      invariant duplicates == |seen|
    {
      assert keys[..i + 1] == keys[..i] + [keys[i]];
      if counts[keys[i]] > 1 {
        DistinctPrefix(keys, i);
        seen := seen + {keys[i]};
        duplicates := duplicates + 1;
      }
      i := i + 1;
    }
    assert keys[..i] == keys;
    assert seen == Duplicated(completed);
  }

  /** A sequence as long as its set of elements has no element twice. */
  lemma {:induction false} DistinctPrefix<T>(s: seq<T>, i: nat)
    requires |s| == |set x | x in s| && i < |s|
    ensures s[i] !in s[..i]
  {
    if s[i] in s[..i] {
      var t := s[..i] + s[i + 1..];
      assert (set x | x in t) == (set x | x in s) by {
        forall x | x in s ensures x in t {
          var k :| 0 <= k < |s| && s[k] == x;
          if k < i { assert t[k] == x; } else if k > i { assert t[k - 1] == x; }
        }
      }
      SetNoLarger(t);
      assert false;
    }
  }

  lemma {:induction false} SetNoLarger<T>(s: seq<T>)
    ensures |set x | x in s| <= |s|
  {
    if s != [] {
      SetNoLarger(s[1..]);
      assert (set x | x in s) == {s[0]} + (set x | x in s[1..]);
    }
  }

  lemma GapIsMaximal(gap: BlockRange, from: int, mergedEnd: int, rs: seq<BlockRange>,
                     intervals: seq<BlockRange>, i: nat)
    requires SortedBy(intervals, RangeLe) && i < |intervals|
    requires forall x :: x in intervals <==> x in rs
    requires forall x :: x in rs ==> x.Valid()
    requires forall k :: 0 <= k < i ==> intervals[k].end <= mergedEnd
    requires mergedEnd >= from ==> exists k :: 0 <= k < i && intervals[k].end == mergedEnd
    requires from - 1 <= mergedEnd && mergedEnd + 1 < intervals[i].start
    requires gap == BlockRange(mergedEnd + 1, intervals[i].start - 1)
    ensures MaximalGap(gap, from, intervals[i].start, rs)
  {
    forall b, x | gap.start <= b <= gap.end && x in rs ensures !x.Contains(b) {
      var k :| 0 <= k < |intervals| && intervals[k] == x;
      if k > i { assert RangeLe(intervals[i], intervals[k]); }
    }
    if gap.start != from {
      var k :| 0 <= k < i && intervals[k].end == mergedEnd;
      assert intervals[k] in rs && intervals[k].Contains(gap.start - 1);
    }
    assert intervals[i] in rs && intervals[i].Contains(gap.end + 1);
  }

  lemma {:induction false} MaxEndIsAttained(rs: seq<BlockRange>)
    ensures MaxEnd(rs) == -1 || exists r :: r in rs && r.end == MaxEnd(rs)
  {
    if rs != [] {
      MaxEndIsAttained(rs[1..]);
      if MaxEnd(rs) == rs[0].end {
        assert rs[0] in rs;
      } else if MaxEnd(rs) != -1 {
        var r :| r in rs[1..] && r.end == MaxEnd(rs);
        assert r in rs;
      }
    }
  }
}
