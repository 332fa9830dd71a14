/** The chunk loop of one forward capture. */
module AaveCapture {
  // The chunk loop of one forward capture (`_fetch_increment` in
  // backfill/run_aave_incremental.py): its result does not depend on chunk size, splits or
  // which provider calls failed.

  import opened Wrappers
  import opened BlockRanges
  import opened AdaptiveFetch
  import opened Decode
  import opened Merge
  import opened Timestamps

  /** Every log the provider files under a block parses that block, or no block at all. */
  ghost predicate WellFormedChain(chain: Chain<Log>) {
    forall b: int, i :: 0 <= i < |chain(b)| && chain(b)[i].block.Some? ==> chain(b)[i].block.value == b
  }

  lemma {:induction false} ChainBlocksWithin(chain: Chain<Log>, lo: int, hi: int)
    requires WellFormedChain(chain)
    ensures BlocksWithin(LogsIn(chain, lo, hi), lo, hi)
    decreases hi - lo
  {
    if lo <= hi {
      ChainBlocksWithin(chain, lo, hi - 1);
    }
  }

  datatype CaptureError = ChunkTooLarge | FetchFailed(error: FetchError) | Conflict(key: EventKey)

  datatype Capture = Capture(
    leaves: seq<BlockRange>, events: seq<Event>, issues: seq<Issue>,
    logicalRanges: nat, attempts: nat, splits: nat)

  /** Decoding the whole interval from one unsplit fetch: the reference result. */
  ghost function Reference(d: Decoder, chain: Chain<Log>, start: int, end: int): State {
    DecodeAll(StepOf(d), LogsIn(chain, start, end), start, end)
  }

  /** What the loop holds after every block before `next`. */
  ghost predicate Captured(d: Decoder, chain: Chain<Log>, start: int, next: int, c: Capture) {
    var reference := Reference(d, chain, start, next - 1);
    && Tiles(c.leaves, start, next - 1)
    && Consistent(reference.events)
    && IsCanonical(c.events, reference.events)
    && c.issues == reference.issues
    && c.attempts == 2 * c.splits + c.logicalRanges
  }

  /** One more chunk extends the reference by exactly that chunk's own decoding. */
  lemma ReferenceExtends(d: Decoder, chain: Chain<Log>, start: int, next: int, chunkEnd: int)
    requires WellFormedChain(chain) && WellBuilt(d) && start <= next <= chunkEnd + 1
    ensures var r, r1, r2 := Reference(d, chain, start, chunkEnd), Reference(d, chain, start, next - 1), Reference(d, chain, next, chunkEnd);
      r.events == r1.events + r2.events && r.issues == r1.issues + r2.issues
  {
    DecoderSteps(d);
    ChainBlocksWithin(chain, start, next - 1);
    ChainBlocksWithin(chain, next, chunkEnd);
    LogsSplit(chain, start, next - 1, chunkEnd);
    DecodeSplits(StepOf(d), LogsIn(chain, start, next - 1), LogsIn(chain, next, chunkEnd), start, next - 1, chunkEnd);
  }

  /** Conflicts inside a part are conflicts of the whole. */
  lemma PartConflicts(a: seq<Event>, b: seq<Event>)
    requires Consistent(a + b)
    ensures Consistent(a) && Consistent(b)
  {
    var c := a + b;
    forall i, j | 0 <= i < |a| && 0 <= j < |a| && a[i].key == a[j].key ensures SameEvent(a[i], a[j]) {
      assert c[i] == a[i] && c[j] == a[j];
    }
    forall i, j | 0 <= i < |b| && 0 <= j < |b| && b[i].key == b[j].key ensures SameEvent(b[i], b[j]) {
      assert c[i + |a|] == b[i] && c[j + |a|] == b[j];
    }
  }

  /** `decode_fetched_logs`: decode one fetched chunk and merge it with nothing. */
  method DecodeFetchedLogs(d: Decoder, logs: seq<Log>, lo: int, hi: int)
    returns (r: Result<(seq<Event>, seq<Issue>), EventKey>)
    ensures var s := DecodeAll(StepOf(d), logs, lo, hi);
      && (r.Success? <==> Consistent(s.events))
      && (r.Success? ==> IsCanonical(r.value.0, s.events) && r.value.1 == s.issues)
  {
    var events, issues := DecodeLogs(d, logs, lo, hi);
    var merged := MergeEvents([], events);
    assert [] + events == events;
    match merged
    case Failure(key) => r := Failure(key);
    case Success(c) => r := Success((c, issues));
  }

  /**
   For any chunk size and any failure pattern, a capture that is not stopped by the
   provider returns the leaves, events and issues of one unsplit fetch, and it reports a
   conflict exactly when the unsplit events conflict.
   */
  method FetchIncrement(d: Decoder, chain: Chain<Log>, fails: BlockRange -> (nat, BlockRange) -> bool,
                        start: int, end: int, chunkSize: int, policy: Policy)
    returns (r: Result<Capture, CaptureError>)
    requires 0 < policy.minimumRangeSize <= policy.maximumRangeSize && 0 < policy.maxRangeAttempts && chunkSize > 0 && 0 <= start <= end
    requires WellFormedChain(chain) && WellBuilt(d)
    ensures r.Success? ==> Captured(d, chain, start, end + 1, r.value) && !Conflicting(Reference(d, chain, start, end).events)
    ensures r.Failure? && r.error.Conflict? ==> Conflicting(Reference(d, chain, start, end).events)
    ensures r == Failure(ChunkTooLarge) <==> chunkSize > policy.maximumRangeSize
    ensures r.Failure? && r.error.FetchFailed? ==> StoppedByProvider(r.error.error, fails, start, end, chunkSize, policy)
  {
    if chunkSize > policy.maximumRangeSize {
      return Failure(ChunkTooLarge);
    }
    ConflictingIff(Reference(d, chain, start, end).events);
    var c := Capture([], [], [], 0, 0, 0);
    var nextBlock := start;
    while nextBlock <= end
      invariant start <= nextBlock <= end + 1
      invariant Captured(d, chain, start, nextBlock, c)
    {
      var parentEnd := ParentEnd(nextBlock, end, chunkSize);
      var step := CaptureWithin(d, chain, fails, start, end, chunkSize, BlockRange(nextBlock, parentEnd), policy, c);
      if step.Failure? {
        return Failure(step.error);
      }
      c := step.value;
      nextBlock := parentEnd + 1;
    }
    return Success(c);
  }

  function ParentEnd(nextBlock: int, end: int, chunkSize: int): (e: int)
    requires nextBlock <= end && chunkSize > 0
    ensures nextBlock <= e <= end && (e == end || e == nextBlock + chunkSize - 1) && e - nextBlock + 1 <= chunkSize
  {
    if end < nextBlock + chunkSize - 1 then end else nextBlock + chunkSize - 1
  }

  /** One chunk of the interval, with its failure explained in terms of the whole interval. */
  method CaptureWithin(d: Decoder, chain: Chain<Log>, fails: BlockRange -> (nat, BlockRange) -> bool, start: int, end: int,
                       chunkSize: int, chunk: BlockRange, policy: Policy, c: Capture)
    returns (r: Result<Capture, CaptureError>)
    requires policy.Valid() && 0 <= start <= chunk.start <= chunk.end <= end
    requires chunk.Size() <= chunkSize <= policy.maximumRangeSize
    requires WellFormedChain(chain) && WellBuilt(d) && Captured(d, chain, start, chunk.start, c)
    ensures r.Success? ==> Captured(d, chain, start, chunk.end + 1, r.value)
    ensures r.Failure? ==> r.error.FetchFailed? || r.error.Conflict?
    ensures r.Failure? && r.error.Conflict? ==> !Consistent(Reference(d, chain, start, end).events)
    ensures r.Failure? && r.error.FetchFailed? ==> StoppedByProvider(r.error.error, fails, start, end, chunkSize, policy)
  {
    r := CaptureChunk(d, chain, fails(chunk), start, chunk.start, chunk.end, policy, c);
    if r.Failure? {
      if r.error.Conflict? {
        ConflictSpreads(d, chain, start, chunk.end, end);
      } else {
        assert ChunkGaveUp(chunk, r.error.error, fails, start, end, chunkSize, policy);
      }
    }
  }

  ghost predicate ChunkGaveUp(chunk: BlockRange, error: FetchError, fails: BlockRange -> (nat, BlockRange) -> bool,
                              start: int, end: int, chunkSize: int, policy: Policy)
  {
    && start <= chunk.start <= chunk.end <= end && chunk.Size() <= chunkSize
    && GaveUp(error, fails(chunk), chunk.start, chunk.end, policy)
  }

  /** Some chunk of the interval could not be fetched within its limits. */
  ghost predicate StoppedByProvider(error: FetchError, fails: BlockRange -> (nat, BlockRange) -> bool,
                                    start: int, end: int, chunkSize: int, policy: Policy)
  {
    exists chunk :: ChunkGaveUp(chunk, error, fails, start, end, chunkSize, policy)
  }

  /** A conflict found after some chunk is a conflict of the whole interval. */
  lemma ConflictSpreads(d: Decoder, chain: Chain<Log>, start: int, mid: int, end: int)
    requires WellFormedChain(chain) && WellBuilt(d) && start <= mid + 1 <= end + 1
    requires !Consistent(Reference(d, chain, start, mid).events)
    ensures !Consistent(Reference(d, chain, start, end).events)
  {
    ReferenceExtends(d, chain, start, mid + 1, end);
    if Consistent(Reference(d, chain, start, end).events) {
      PartConflicts(Reference(d, chain, start, mid).events, Reference(d, chain, mid + 1, end).events);
    }
  }

  /** The body of the chunk loop: fetch, decode, merge. */
  method CaptureChunk(d: Decoder, chain: Chain<Log>, fails: (nat, BlockRange) -> bool, ghost start: int,
                      nextBlock: int, parentEnd: int, policy: Policy, c: Capture)
    returns (r: Result<Capture, CaptureError>)
    requires policy.Valid() && 0 <= start <= nextBlock <= parentEnd
    requires parentEnd - nextBlock + 1 <= policy.maximumRangeSize
    requires WellFormedChain(chain) && WellBuilt(d) && Captured(d, chain, start, nextBlock, c)
    ensures r.Success? ==> Captured(d, chain, start, parentEnd + 1, r.value)
    ensures r.Failure? ==> r.error.FetchFailed? || r.error.Conflict?
    ensures r.Failure? && r.error.Conflict? ==> !Consistent(Reference(d, chain, start, parentEnd).events)
    ensures r.Failure? && r.error.FetchFailed? ==> GaveUp(r.error.error, fails, nextBlock, parentEnd, policy)
  {
    var fetched := FetchEventLogsAdaptive(chain, fails, nextBlock, parentEnd, policy);
    if fetched.Failure? {
      return Failure(FetchFailed(fetched.error));
    }
    var done, chunk := Reference(d, chain, start, nextBlock - 1), Reference(d, chain, nextBlock, parentEnd);
    ReferenceExtends(d, chain, start, nextBlock, parentEnd);
    var decoded := DecodeFetchedLogs(d, fetched.value.logs, nextBlock, parentEnd);
    if decoded.Failure? {
      if Consistent(done.events + chunk.events) { PartConflicts(done.events, chunk.events); }
      return Failure(Conflict(decoded.error));
    }
    PremergeKeepsConflicts(done.events, chunk.events, c.events, decoded.value.0);
    var merged := MergeEvents(c.events, decoded.value.0);
    if merged.Failure? {
      return Failure(Conflict(merged.error));
    }
    PremergeKeepsCanonical(done.events, chunk.events, c.events, decoded.value.0, merged.value);
    TilesConcat(c.leaves, fetched.value.completedRanges, start, nextBlock - 1, parentEnd);
    return Success(Capture(
      c.leaves + fetched.value.completedRanges, merged.value, c.issues + decoded.value.1,
      c.logicalRanges + 1, c.attempts + fetched.value.rangeAttempts, c.splits + fetched.value.splitCount));
  }

  lemma {:induction false} SameChainSameLogs(a: Chain<Log>, c: Chain<Log>, lo: int, hi: int)
    requires SameChain(a, c)
    ensures BareAll(LogsIn(a, lo, hi)) == BareAll(LogsIn(c, lo, hi))
    decreases hi - lo
  {
    if lo <= hi {
      SameChainSameLogs(a, c, lo, hi - 1);
      BareConcat(LogsIn(a, lo, hi - 1), a(hi));
      BareConcat(LogsIn(c, lo, hi - 1), c(hi));
    }
  }

  lemma BareConcat(a: seq<Log>, c: seq<Log>)
    ensures BareAll(a + c) == BareAll(a) + BareAll(c)
  {
  }

  /** With one log per identity a capture's events are those that were decoded. */
  lemma {:induction false} CapturedMembers(d: Decoder, chain: Chain<Log>, start: int, end: int, c: Capture)
    requires Lawful(d) && Identified(d, LogsIn(chain, start, end), start, end) && Captured(d, chain, start, end + 1, c)
    ensures forall e :: e in c.events <==> e in Reference(d, chain, start, end).events
  {
    IdentifiedIsOneCopy(d, LogsIn(chain, start, end), start, end);
    forall e ensures e in c.events <==> e in Reference(d, chain, start, end).events {
      OneCopyIsFirst(Reference(d, chain, start, end).events, e);
    }
  }

  /** The same logs with alike lookups decode to the same lists. */
  lemma {:induction false} AlikeLookupsSameReference(d: Decoder, a: Chain<Log>, c: Chain<Log>, start: int, end: int)
    requires Comparable(d, LogsIn(a, start, end), LogsIn(c, start, end), start, end)
    requires BareAll(LogsIn(a, start, end)) == BareAll(LogsIn(c, start, end))
    requires TimesAlike(d, LogsIn(a, start, end), LogsIn(c, start, end), start, end)
    ensures Reference(d, a, start, end).events == Reference(d, c, start, end).events
    ensures Reference(d, a, start, end).issues == Reference(d, c, start, end).issues
  {
    var x, y := LogsIn(a, start, end), LogsIn(c, start, end);
    DecodeIsGiven(d, x, start, end);
    DecodeIsGiven(d, y, start, end);
    AlikeStepsAgree(d, x, y, start, end);
    GivenIsBare(d, y, x, start, end);
    GivenIsBare(d, y, y, start, end);
  }

  /**
   Two captures of one interval under any chunk sizes, splits and failures, each with its
   own block lookups, return the same events and issues exactly when every lookup that had
   to be made was answered alike.
   */
  lemma {:induction false} ScheduleIndependence(d: Decoder, chainA: Chain<Log>, chainB: Chain<Log>, start: int, end: int, a: Capture, b: Capture)
    requires Captured(d, chainA, start, end + 1, a) && Captured(d, chainB, start, end + 1, b) && SameChain(chainA, chainB)
    requires Lawful(d) && Identified(d, LogsIn(chainA, start, end), start, end) && Identified(d, LogsIn(chainB, start, end), start, end)
    ensures |LogsIn(chainA, start, end)| == |LogsIn(chainB, start, end)|
    ensures a.events == b.events && a.issues == b.issues
       <==> LookupsAlike(d, LogsIn(chainA, start, end), LogsIn(chainB, start, end), start, end)
  {
    var x, y := LogsIn(chainA, start, end), LogsIn(chainB, start, end);
    SameChainSameLogs(chainA, chainB, start, end);
    LookupsDecide(d, x, y, start, end);
    if TimesAlike(d, x, y, start, end) {
      AlikeLookupsSameReference(d, chainA, chainB, start, end);
      CanonicalUnique(a.events, b.events, Reference(d, chainA, start, end).events);
    }
    if a.events == b.events && a.issues == b.issues {
      CapturedMembers(d, chainA, start, end, a);
      CapturedMembers(d, chainB, start, end, b);
      AgreementMeansAlike(d, x, y, start, end);
    }
  }

  /** With the same answers no hypothesis about decoder or logs is needed: the schedule alone never matters. */
  lemma SameLookupsSameResult(d: Decoder, chain: Chain<Log>, start: int, end: int, a: Capture, b: Capture)
    requires Captured(d, chain, start, end + 1, a) && Captured(d, chain, start, end + 1, b)
    ensures a.events == b.events && a.issues == b.issues
  {
    CanonicalUnique(a.events, b.events, Reference(d, chain, start, end).events);
  }
}
