/** Gap-first planning over the ledger. */
module Bootstrap {
  // Forward and bootstrap planning (orchestration/aave_forward.py).

  import opened Wrappers
  import opened Control
  import opened BlockRanges
  import opened CompletedRanges

  /** A planned forward interval, absent when the safe head has not moved. */
  datatype ForwardPlan = ForwardPlan(committedBlock: int, safeHead: int, interval: Option<BlockRange>)

  /** `plan_forward_increment` and `plan_recovery_increment` compute the same interval. */
  function PlanForwardIncrement(committedBlock: int, safeHead: int, maxBlocks: int): (r: Result<ForwardPlan, string>)
    ensures r.Failure? <==> committedBlock < 0 || safeHead < 0 || maxBlocks <= 0
    ensures r.Success? ==> r.value.committedBlock == committedBlock && r.value.safeHead == safeHead
    ensures r.Success? ==> (r.value.interval.None? <==> safeHead <= committedBlock)
    ensures r.Success? && r.value.interval.Some? ==>
              var i := r.value.interval.value;
              && i.start == committedBlock + 1 <= i.end <= safeHead && i.end <= committedBlock + maxBlocks
              && (i.end == safeHead || i.end == committedBlock + maxBlocks)
  {
    if committedBlock < 0 || safeHead < 0 then Failure("Block values must not be negative")
    else if maxBlocks <= 0 then Failure("max_blocks must be greater than zero")
    else if safeHead <= committedBlock then Success(ForwardPlan(committedBlock, safeHead, None))
    else
      var start := committedBlock + 1;
      Success(ForwardPlan(committedBlock, safeHead, Some(BlockRange(start, Min(safeHead, start + maxBlocks - 1)))))
  }

  datatype BootstrapPlan = BootstrapPlan(nextRange: Option<BlockRange>, highestContiguousBlock: int)

  ghost function PlanOf(projectStart: int, safeEnd: int, chunkSize: int, rs: seq<BlockRange>): BootstrapPlan {
    var e := ContiguousEnd(projectStart, rs);
    BootstrapPlan(
      if e >= safeEnd then None else Some(BlockRange(e + 1, Min(safeEnd, e + chunkSize))), e)
  }

  method PlanNextBootstrapChunk(projectStart: int, safeEnd: int, chunkSize: int, completed: seq<BlockRange>)
    returns (r: Result<BootstrapPlan, string>)
    ensures r.Failure? <==> safeEnd < projectStart || chunkSize <= 0 || projectStart < 0
    ensures r.Success? ==> r.value == PlanOf(projectStart, safeEnd, chunkSize, completed)
  {
    if safeEnd < projectStart {
      return Failure("safe_end_block precedes project_start_block");
    }
    if chunkSize <= 0 {
      return Failure("chunk_size must be greater than zero");
    }
    var contiguous := HighestContiguousBlock(projectStart, completed);
    if contiguous.Failure? {
      return Failure(contiguous.error);
    }
    var e := contiguous.value;
    if e >= safeEnd {
      return Success(BootstrapPlan(None, e));
    }
    var nextStart := e + 1;
    return Success(BootstrapPlan(Some(BlockRange(nextStart, Min(safeEnd, nextStart + chunkSize - 1))), e));
  }

  /** The safe end, but only when everything through it is recorded without a gap. */
  method EligibleBootstrapWatermark(projectStart: int, safeEnd: int, completed: seq<BlockRange>)
    returns (r: Result<Option<int>, string>)
    ensures r.Failure? <==> projectStart < 0
    ensures r.Success? ==> r.value == Eligible(projectStart, safeEnd, completed)
  {
    var contiguous := HighestContiguousBlock(projectStart, completed);
    match contiguous
    case Failure(e) => r := Failure(e);
    case Success(e) => r := Success(if e >= safeEnd then Some(safeEnd) else None);
  }

  ghost function Eligible(projectStart: int, safeEnd: int, rs: seq<BlockRange>): Option<int> {
    if ContiguousEnd(projectStart, rs) >= safeEnd then Some(safeEnd) else None
  }

  /** A value is eligible exactly when no block through the safe end is missing. */
  lemma EligibleIffGapFree(projectStart: int, safeEnd: int, rs: seq<BlockRange>)
    requires projectStart <= safeEnd
    ensures Eligible(projectStart, safeEnd, rs) == Some(safeEnd) <==>
            forall b :: projectStart <= b <= safeEnd ==> Covered(rs, b)
  {
    ContiguousEndIsGreatest(projectStart, rs);
  }

  datatype Stamp = Aware(at: Instant) | Naive(at: Instant)

  datatype BootstrapError = Invalid(reason: string) | ProcessorFailed | Died | Rejected(record: RecordError)

  /** Persists the source output of a chunk, or raises. */
  class ChunkProcessor {
    const fails: BlockRange -> bool
    var processed: seq<BlockRange>

    constructor (failing: BlockRange -> bool)
      ensures fails == failing && processed == []
    {
      fails, processed := failing, [];
    }

    method Process(chunk: BlockRange) returns (ok: bool)
      modifies this
      ensures ok == !fails(chunk)
      ensures processed == if ok then old(processed) + [chunk] else old(processed)
    {
      ok := !fails(chunk);
      if ok { processed := processed + [chunk]; }
    }
  }

  /** A chunk without matching evidence is recorded as one more row, unless the run id is blank. */
  lemma {:induction false} OneRangeIsRecorded(rows: seq<Evidence>, legacy: WatermarkIdentity, next: BlockRange, runId: string, at: Instant)
    requires Matching(rows, legacy, next) == []
    ensures var offered, after := [OfferedRange(next, runId, Some(at))], rows + [Evidence(legacy, next, runId, at)];
      && RangesOf(after, legacy) == RangesOf(rows, legacy) + [next]
      && (Strip(runId) != [] ==>
            Acceptable(offered[0]) && RecordAll(rows, legacy, Accepted(offered)) == Success(after))
      && (Strip(runId) == [] ==> !Acceptable(offered[0]))
  {
    var offered := [OfferedRange(next, runId, Some(at))];
    var accepted := [CompletedRange(next, runId, at)];
    assert accepted[..0] == [];
    assert RecordAll(rows, legacy, accepted) == Success(rows + [Evidence(legacy, next, runId, at)]);
    RangesOfAppend(rows, Evidence(legacy, next, runId, at));
    if Strip(runId) != [] { assert Accepted(offered) == accepted; }
  }

  /** Every recorded range has its output persisted. */
  ghost predicate AllProcessed(rows: seq<Evidence>, legacy: WatermarkIdentity, processed: seq<BlockRange>) {
    forall range :: range in RangesOf(rows, legacy) ==> range in processed
  }

  /**
   `process_next_bootstrap_chunk`: the source output is persisted first; only then is its
   interval appended. Wherever the call ends, also when the process dies in between, every
   recorded range has its output, and a failure leaves the ledger as it was.
   */
  method ProcessNextBootstrapChunk(store: CompletedRangeStore, processor: ChunkProcessor, legacy: WatermarkIdentity, dies: bool,
                                   projectStart: int, safeEnd: int, chunkSize: int, runId: string, completedAt: Stamp)
    returns (r: Result<BootstrapPlan, BootstrapError>)
    modifies store, processor
    ensures r.Failure? ==> store.rows == old(store.rows)
    ensures AllProcessed(old(store.rows), legacy, old(processor.processed)) ==> AllProcessed(store.rows, legacy, processor.processed)
    ensures var next := PlanOf(projectStart, safeEnd, chunkSize, old(RangesOf(store.rows, legacy))).nextRange;
      && (store.rows != old(store.rows) ==> next.Some? && processor.processed == old(processor.processed) + [next.value])
      && (processor.processed != old(processor.processed) ==>
            next.Some? && processor.processed == old(processor.processed) + [next.value] && completedAt.Aware? && !processor.fails(next.value))
    ensures r.Success? ==>
              var before := old(RangesOf(store.rows, legacy));
              var plan := PlanOf(projectStart, safeEnd, chunkSize, before);
              && (plan.nextRange.None? ==> store.rows == old(store.rows))
              && (plan.nextRange.Some? ==>
                    store.rows == old(store.rows) + [Evidence(legacy, plan.nextRange.value, runId, completedAt.at)])
              && RangesOf(store.rows, legacy) == StepRanges(projectStart, safeEnd, chunkSize, before)
              && r.value == PlanOf(projectStart, safeEnd, chunkSize, RangesOf(store.rows, legacy))
    ensures r.Failure? <==>
              || safeEnd < projectStart || chunkSize <= 0 || projectStart < 0
              || (var next := PlanOf(projectStart, safeEnd, chunkSize, old(RangesOf(store.rows, legacy))).nextRange;
                  next.Some? && (completedAt.Naive? || processor.fails(next.value) || dies || Strip(runId) == []))
  {
    var planned := PlanFromLedger(store, legacy, projectStart, safeEnd, chunkSize);
    if planned.Failure? { return Failure(Invalid(planned.error)); }
    if planned.value.nextRange.None? { return Success(planned.value); }
    if completedAt.Naive? { return Failure(Invalid("completed_at must be timezone-aware")); }
    var next := planned.value.nextRange.value;
    var ok := processor.Process(next);
    if !ok { return Failure(ProcessorFailed); }
    if dies { return Failure(Died); }
    NextChunkIsNew(projectStart, safeEnd, chunkSize, store.rows, legacy);
    OneRangeIsRecorded(store.rows, legacy, next, runId, completedAt.at);
    var recorded := store.RecordRanges(legacy, [OfferedRange(next, runId, Some(completedAt.at))]);
    if recorded.Failure? { return Failure(Rejected(recorded.error)); }
    planned := PlanFromLedger(store, legacy, projectStart, safeEnd, chunkSize);
    return Success(planned.value);
  }

  /** Plan from the listed evidence; its order does not matter. */
  method PlanFromLedger(store: CompletedRangeStore, legacy: WatermarkIdentity, projectStart: int, safeEnd: int, chunkSize: int)
    returns (r: Result<BootstrapPlan, string>)
    ensures r.Failure? <==> safeEnd < projectStart || chunkSize <= 0 || projectStart < 0
    ensures r.Success? ==> r.value == PlanOf(projectStart, safeEnd, chunkSize, RangesOf(store.rows, legacy))
  {
    var listed := store.ListRanges(legacy);
    var ranges := seq(|listed|, i requires 0 <= i < |listed| => listed[i].range);
    SameRangesSameEnd(projectStart, ranges, RangesOf(store.rows, legacy)) by {
      forall x ensures x in ranges <==> x in RangesOf(store.rows, legacy) {
        if x in ranges { var i :| 0 <= i < |ranges| && ranges[i] == x; assert listed[i] in listed; }
        if x in RangesOf(store.rows, legacy) {
          var e :| e in store.rows && e.identity == legacy && e.range == x;
          var i :| 0 <= i < |listed| && listed[i] == e;
          assert ranges[i] == x;
        }
      }
    }
    r := PlanNextBootstrapChunk(projectStart, safeEnd, chunkSize, ranges);
  }

  lemma {:induction false} SameRangesSameEnd(from: int, a: seq<BlockRange>, b: seq<BlockRange>)
    requires forall x :: x in a <==> x in b
    ensures ContiguousEnd(from, a) == ContiguousEnd(from, b)
  {
    ContiguousEndMonotone(from, a, b);
    ContiguousEndMonotone(from, b, a);
  }

  lemma {:induction false} RangesOfAppend(rows: seq<Evidence>, e: Evidence)
    ensures RangesOf(rows + [e], e.identity) == RangesOf(rows, e.identity) + [e.range]
  {
    if rows != [] {
      assert (rows + [e])[1..] == rows[1..] + [e];
      RangesOfAppend(rows[1..], e);
    }
  }

  /** The planned interval has no evidence row yet, so recording it can never conflict. */
  lemma {:induction false} NextChunkIsNew(projectStart: int, safeEnd: int, chunkSize: int, rows: seq<Evidence>, legacy: WatermarkIdentity)
    requires chunkSize > 0
    requires PlanOf(projectStart, safeEnd, chunkSize, RangesOf(rows, legacy)).nextRange.Some?
    ensures var plan := PlanOf(projectStart, safeEnd, chunkSize, RangesOf(rows, legacy));
      Matching(rows, legacy, plan.nextRange.value) == []
  {
    var rs := RangesOf(rows, legacy);
    var next := PlanOf(projectStart, safeEnd, chunkSize, rs).nextRange.value;
    ContiguousEndIsGreatest(projectStart, rs);
    if Matching(rows, legacy, next) != [] { RecordedIsCovered(rows, legacy, next, next.start); }
  }

  lemma RecordedIsCovered(rows: seq<Evidence>, legacy: WatermarkIdentity, r: BlockRange, b: int)
    requires Matching(rows, legacy, r) != [] && r.Contains(b)
    ensures Covered(RangesOf(rows, legacy), b)
  {
    var m := Matching(rows, legacy, r);
    assert m[0] in m;
    assert r in RangesOf(rows, legacy);
  }

  /** The interval list after one successful bootstrap step. */
  ghost function StepRanges(projectStart: int, safeEnd: int, chunkSize: int, rs: seq<BlockRange>): seq<BlockRange> {
    match PlanOf(projectStart, safeEnd, chunkSize, rs).nextRange
    case None => rs
    case Some(next) => rs + [next]
  }

  ghost function RunSteps(projectStart: int, safeEnd: int, chunkSize: int, rs: seq<BlockRange>, n: nat): seq<BlockRange> {
    if n == 0 then rs
    else StepRanges(projectStart, safeEnd, chunkSize, RunSteps(projectStart, safeEnd, chunkSize, rs, n - 1))
  }

  /** A step starts at the first uncovered block, never plans past it, and raises the end. */
  lemma {:induction false} StepRaisesEnd(projectStart: int, safeEnd: int, chunkSize: int, rs: seq<BlockRange>)
    requires chunkSize > 0
    requires ContiguousEnd(projectStart, rs) < safeEnd
    ensures var e := ContiguousEnd(projectStart, rs);
      && PlanOf(projectStart, safeEnd, chunkSize, rs).nextRange.Some?
      && !Covered(rs, PlanOf(projectStart, safeEnd, chunkSize, rs).nextRange.value.start)
      && ContiguousEnd(projectStart, StepRanges(projectStart, safeEnd, chunkSize, rs)) >= Min(safeEnd, e + chunkSize) > e
  {
    var e := ContiguousEnd(projectStart, rs);
    var next := BlockRange(e + 1, Min(safeEnd, e + chunkSize));
    ContiguousEndIsGreatest(projectStart, rs);
    CoveredConcat(rs, [next]);
    ContiguousEndMonotone(projectStart, rs, rs + [next]);
    assert next in [next];
    assert forall b :: next.start <= b <= next.end ==> next.Contains(b);
    CoverageExtends(projectStart, rs + [next], next.start, next.end);
  }

  /** Every step gains a whole chunk, whatever gaps and overlaps the ledger started with. */
  lemma {:induction false} StepsGainChunks(projectStart: int, safeEnd: int, chunkSize: int, rs: seq<BlockRange>, n: nat)
    requires chunkSize > 0
    ensures ContiguousEnd(projectStart, RunSteps(projectStart, safeEnd, chunkSize, rs, n))
         >= Min(safeEnd, ContiguousEnd(projectStart, rs) + n * chunkSize)
  {
    if n > 0 {
      StepsGainChunks(projectStart, safeEnd, chunkSize, rs, n - 1);
      var before := RunSteps(projectStart, safeEnd, chunkSize, rs, n - 1);
      assert n * chunkSize == (n - 1) * chunkSize + chunkSize;
      if ContiguousEnd(projectStart, before) < safeEnd {
        StepRaisesEnd(projectStart, safeEnd, chunkSize, before);
      }
    }
  }

  /**
   The bootstrap finishes within ceil(remaining / chunk) steps, and its watermark is
   eligible at completion and not before.
   */
  lemma {:induction false} BootstrapCompletes(projectStart: int, safeEnd: int, chunkSize: int, rs: seq<BlockRange>, n: nat)
    requires chunkSize > 0 && projectStart <= safeEnd
    requires n * chunkSize >= safeEnd - ContiguousEnd(projectStart, rs)
    ensures PlanOf(projectStart, safeEnd, chunkSize, RunSteps(projectStart, safeEnd, chunkSize, rs, n)).nextRange.None?
    ensures Eligible(projectStart, safeEnd, RunSteps(projectStart, safeEnd, chunkSize, rs, n)) == Some(safeEnd)
    ensures forall k: nat :: Eligible(projectStart, safeEnd, RunSteps(projectStart, safeEnd, chunkSize, rs, k)).Some? <==>
              PlanOf(projectStart, safeEnd, chunkSize, RunSteps(projectStart, safeEnd, chunkSize, rs, k)).nextRange.None?
  {
    StepsGainChunks(projectStart, safeEnd, chunkSize, rs, n);
  }
}
