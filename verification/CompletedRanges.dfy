/** The ledger of captured intervals. */
module CompletedRanges {
  // Append-only evidence of what was captured (warehouse/completed_ranges.py).

  import opened Wrappers
  import opened Sorting
  import opened Control
  import opened BlockRanges

  /** One physical evidence row. */
  datatype Evidence = Evidence(
    identity: WatermarkIdentity, range: BlockRange, runId: string, completedAt: Instant)

  /** A validated interval to record. */
  datatype CompletedRange = CompletedRange(
    range: BlockRange, runId: string, completedAt: Instant)

  /** An interval as offered by a caller, whose completion time may be missing. */
  datatype OfferedRange = OfferedRange(
    range: BlockRange, runId: string, completedAt: Option<Instant>)

  datatype RecordError =
    | BlankRunId
    | MissingCompletedAt
    | DuplicateEvidence(range: BlockRange)
    | ConflictingEvidence(range: BlockRange)

  function Matching(rows: seq<Evidence>, identity: WatermarkIdentity, range: BlockRange): (m: seq<Evidence>)
    ensures forall e :: e in m <==> e in rows && e.identity == identity && e.range == range
  {
    if rows == [] then []
    else
      var rest := Matching(rows[1..], identity, range);
      if rows[0].identity == identity && rows[0].range == range then [rows[0]] + rest else rest
  }

  /** The intervals recorded for one pipeline. */
  function RangesOf(rows: seq<Evidence>, identity: WatermarkIdentity): (rs: seq<BlockRange>)
    ensures forall r :: r in rs <==> exists e :: e in rows && e.identity == identity && e.range == r
  {
    if rows == [] then []
    else
      var rest := RangesOf(rows[1..], identity);
      if rows[0].identity == identity then [rows[0].range] + rest else rest
  }

  predicate SameMetadata(e: Evidence, c: CompletedRange) {
    e.runId == c.runId && e.completedAt == c.completedAt
  }

  predicate Acceptable(o: OfferedRange) {
    Strip(o.runId) != [] && o.completedAt.Some?
  }

  ghost predicate AllComplete(offered: seq<OfferedRange>) {
    forall i :: 0 <= i < |offered| ==> Strip(offered[i].runId) != [] && offered[i].completedAt.Some?
  }

  /** The completed ranges are the offered ones, each with its own run id and time. */
  ghost predicate Offers(offered: seq<OfferedRange>, cs: seq<CompletedRange>) {
    && |cs| == |offered|
    && forall i :: 0 <= i < |cs| ==> offered[i] == OfferedRange(cs[i].range, cs[i].runId, Some(cs[i].completedAt))
  }

  function Accepted(offered: seq<OfferedRange>): (cs: seq<CompletedRange>)
    requires forall i :: 0 <= i < |offered| ==> Acceptable(offered[i])
  {
    seq(|offered|, i requires 0 <= i < |offered| && Acceptable(offered[i]) =>
      CompletedRange(offered[i].range, offered[i].runId, offered[i].completedAt.value))
  }

  lemma OffersDetermine(offered: seq<OfferedRange>)
    requires forall i :: 0 <= i < |offered| ==> Acceptable(offered[i])
    ensures AllComplete(offered) && Offers(offered, Accepted(offered))
    ensures forall cs :: Offers(offered, cs) ==> cs == Accepted(offered)
  {
    forall cs: seq<CompletedRange> | Offers(offered, cs) ensures cs == Accepted(offered) {
      forall i | 0 <= i < |offered| ensures cs[i] == Accepted(offered)[i] {
        assert offered[i] == OfferedRange(cs[i].range, cs[i].runId, Some(cs[i].completedAt));
      }
    }
  }

  /** Meaning of one select-then-insert inside the recording transaction. */
  function RecordOne(rows: seq<Evidence>, identity: WatermarkIdentity, c: CompletedRange)
    : Result<seq<Evidence>, RecordError>
  {
    var existing := Matching(rows, identity, c.range);
    if |existing| > 1 then Failure(DuplicateEvidence(c.range))
    else if |existing| == 1 then
      if SameMetadata(existing[0], c) then Success(rows) else Failure(ConflictingEvidence(c.range))
    else Success(rows + [Evidence(identity, c.range, c.runId, c.completedAt)])
  }

  /** Meaning of the whole batch: the first failure rolls everything back. */
  function RecordAll(rows: seq<Evidence>, identity: WatermarkIdentity, cs: seq<CompletedRange>)
    : Result<seq<Evidence>, RecordError>
    decreases |cs|
  {
    if cs == [] then Success(rows)
    else
      match RecordAll(rows, identity, cs[..|cs| - 1])
      case Failure(e) => Failure(e)
      case Success(done) => RecordOne(done, identity, cs[|cs| - 1])
  }

  function RangesIn(cs: seq<CompletedRange>): seq<BlockRange> {
    seq(|cs|, i requires 0 <= i < |cs| => cs[i].range)
  }

  /** No interval of any pipeline has two physical rows. */
  ghost predicate UniqueEvidence(rows: seq<Evidence>) {
    forall i, j :: 0 <= i < j < |rows| ==>
      rows[i].identity != rows[j].identity || rows[i].range != rows[j].range
  }

  lemma {:induction false} MatchingOfAppend(rows: seq<Evidence>, e: Evidence, identity: WatermarkIdentity, range: BlockRange)
    ensures Matching(rows + [e], identity, range)
         == Matching(rows, identity, range) + (if e.identity == identity && e.range == range then [e] else [])
  {
    if rows == [] {
    } else {
      assert (rows + [e])[1..] == rows[1..] + [e];
      MatchingOfAppend(rows[1..], e, identity, range);
    }
  }

  /** Every row of an accepted batch is old or recorded for an interval of the batch. */
  lemma {:induction false} RecordAllAppends(rows: seq<Evidence>, identity: WatermarkIdentity, cs: seq<CompletedRange>)
    requires RecordAll(rows, identity, cs).Success?
    ensures var after := RecordAll(rows, identity, cs).value;
      && rows <= after
      && (forall i :: |rows| <= i < |after| ==> after[i].identity == identity && after[i].range in RangesIn(cs))
      && (forall c :: c in cs ==> Matching(after, identity, c.range) != [])
    decreases |cs|
  {
    if cs != [] {
      var front, c := cs[..|cs| - 1], cs[|cs| - 1];
      assert cs == front + [c];
      assert RangesIn(cs) == RangesIn(front) + [c.range];
      RecordAllAppends(rows, identity, front);
      var done := RecordAll(rows, identity, front).value;
      if Matching(done, identity, c.range) == [] {
        var e := Evidence(identity, c.range, c.runId, c.completedAt);
        forall d | d in cs ensures Matching(done + [e], identity, d.range) != [] {
          MatchingOfAppend(done, e, identity, d.range);
        }
      }
    }
  }

  /** The ledger never gains a second row for an interval. */
  lemma {:induction false} RecordAllKeepsUnique(rows: seq<Evidence>, identity: WatermarkIdentity, cs: seq<CompletedRange>)
    requires RecordAll(rows, identity, cs).Success? && UniqueEvidence(rows)
    ensures UniqueEvidence(RecordAll(rows, identity, cs).value)
    decreases |cs|
  {
    if cs != [] {
      var front, c := cs[..|cs| - 1], cs[|cs| - 1];
      RecordAllKeepsUnique(rows, identity, front);
      var done := RecordAll(rows, identity, front).value;
      forall i | 0 <= i < |done| && done[i].identity == identity && done[i].range == c.range
        ensures Matching(done, identity, c.range) != []
      {
        assert done[i] in Matching(done, identity, c.range);
      }
    }
  }

  /** Coverage after a batch is the old coverage and the batch, nothing else. */
  lemma {:induction false} RecordedCoverage(rows: seq<Evidence>, identity: WatermarkIdentity, cs: seq<CompletedRange>)
    requires RecordAll(rows, identity, cs).Success?
    ensures var after := RecordAll(rows, identity, cs).value;
      forall b :: Covered(RangesOf(after, identity), b) <==>
        Covered(RangesOf(rows, identity), b) || Covered(RangesIn(cs), b)
  {
    RecordAllAppends(rows, identity, cs);
    var after := RecordAll(rows, identity, cs).value;
    forall r ensures r in RangesOf(after, identity) <==> r in RangesOf(rows, identity) || r in RangesIn(cs) {
      if r in RangesOf(after, identity) {
        var e :| e in after && e.identity == identity && e.range == r;
        var i :| 0 <= i < |after| && after[i] == e;
        if i < |rows| { assert rows[i] == e && e in rows; }
      }
      if r in RangesOf(rows, identity) {
        var e :| e in rows && e.identity == identity && e.range == r;
        assert e in after;
      }
      if r in RangesIn(cs) {
        var i :| 0 <= i < |cs| && RangesIn(cs)[i] == r;
        assert cs[i] in cs;
        var m := Matching(after, identity, r);
        assert m[0] in m;
      }
    }
  }

  /** Recording for one pipeline leaves the evidence of every other pipeline alone. */
  lemma {:induction false} OtherPipelinesUntouched(rows: seq<Evidence>, identity: WatermarkIdentity, cs: seq<CompletedRange>, other: WatermarkIdentity)
    requires RecordAll(rows, identity, cs).Success? && other != identity
    ensures forall e: Evidence :: e.identity == other ==> (e in RecordAll(rows, identity, cs).value <==> e in rows)
  {
    RecordAllAppends(rows, identity, cs);
  }

  /** Interval `i` of the batch agrees with the ledger and with the batch before it. */
  ghost predicate Compatible(rows: seq<Evidence>, identity: WatermarkIdentity, cs: seq<CompletedRange>, i: nat) {
    i < |cs| &&
    var m := Matching(rows, identity, cs[i].range);
    && |m| <= 1
    && (|m| == 1 ==> m[0].runId == cs[i].runId && m[0].completedAt == cs[i].completedAt)
    && (forall k :: 0 <= k < i && cs[k].range == cs[i].range ==> cs[k] == cs[i])
  }

  ghost predicate AllCompatible(rows: seq<Evidence>, identity: WatermarkIdentity, cs: seq<CompletedRange>) {
    forall i :: 0 <= i < |cs| ==> Compatible(rows, identity, cs, i)
  }

  /** A batch is accepted exactly when no interval already has two rows or other metadata. */
  lemma {:induction false} RecordAllSucceedsIff(rows: seq<Evidence>, identity: WatermarkIdentity, cs: seq<CompletedRange>)
    ensures RecordAll(rows, identity, cs).Success? <==> AllCompatible(rows, identity, cs)
    decreases |cs|
  {
    if cs != [] {
      var n := |cs| - 1;
      var front := cs[..n];
      RecordAllSucceedsIff(rows, identity, front);
      forall i | 0 <= i < n ensures Compatible(rows, identity, cs, i) <==> Compatible(rows, identity, front, i) {
      }
      if RecordAll(rows, identity, front).Success? {
        LastIsCompatible(rows, identity, cs);
      }
    }
  }

  lemma {:induction false} LastIsCompatible(rows: seq<Evidence>, identity: WatermarkIdentity, cs: seq<CompletedRange>)
    requires cs != [] && RecordAll(rows, identity, cs[..|cs| - 1]).Success?
    ensures RecordAll(rows, identity, cs).Success? <==> Compatible(rows, identity, cs, |cs| - 1)
  {
    var front, c := cs[..|cs| - 1], cs[|cs| - 1];
    MatchingAfterBatch(rows, identity, front, c.range);
    if exists k :: 0 <= k < |front| && front[k].range == c.range {
      var k :| 0 <= k < |front| && front[k].range == c.range;
      assert front[k] in front && cs[k] == front[k];
    }
  }

  /** A batch adds at most one row for an interval, carrying that batch's metadata. */
  lemma {:induction false} MatchingAfterBatch(rows: seq<Evidence>, identity: WatermarkIdentity, cs: seq<CompletedRange>, range: BlockRange)
    requires RecordAll(rows, identity, cs).Success?
    ensures var m, n := Matching(rows, identity, range), Matching(RecordAll(rows, identity, cs).value, identity, range);
      && m <= n
      && (if exists c :: c in cs && c.range == range
          then |n| == 1 && (forall c :: c in cs && c.range == range ==> SameMetadata(n[0], c))
          else n == m)
    decreases |cs|
  {
    if cs != [] {
      var front, c := cs[..|cs| - 1], cs[|cs| - 1];
      assert cs == front + [c];
      MatchingAfterBatch(rows, identity, front, range);
      var done := RecordAll(rows, identity, front).value;
      if Matching(done, identity, c.range) == [] {
        MatchingOfAppend(done, Evidence(identity, c.range, c.runId, c.completedAt), identity, range);
      } else {
        assert Matching(done, identity, c.range)[0] in Matching(done, identity, c.range);
      }
    }
  }

  /** Repeating an accepted batch exactly is accepted again and changes nothing. */
  lemma {:induction false} ExactRetryIsNoOp(rows: seq<Evidence>, identity: WatermarkIdentity, cs: seq<CompletedRange>)
    requires RecordAll(rows, identity, cs).Success?
    ensures var after := RecordAll(rows, identity, cs).value;
      RecordAll(after, identity, cs) == Success(after)
  {
    var after := RecordAll(rows, identity, cs).value;
    forall c | c in cs ensures RecordOne(after, identity, c) == Success(after) {
      MatchingAfterBatch(rows, identity, cs, c.range);
    }
    NoOpBatch(after, identity, cs);
  }

  lemma {:induction false} NoOpBatch(rows: seq<Evidence>, identity: WatermarkIdentity, cs: seq<CompletedRange>)
    requires forall c :: c in cs ==> RecordOne(rows, identity, c) == Success(rows)
    ensures RecordAll(rows, identity, cs) == Success(rows)
    decreases |cs|
  {
    if cs != [] { NoOpBatch(rows, identity, cs[..|cs| - 1]); }
  }

  /**
   A run that recorded an interval and crashed before its commit cannot be resumed by a
   run that captures the same interval at another instant: the ledger rejects it.
   */
  lemma {:induction false} FreshTimestampIsRejected(rows: seq<Evidence>, identity: WatermarkIdentity,
                                 first: seq<CompletedRange>, second: seq<CompletedRange>, i: nat, j: nat)
    requires RecordAll(rows, identity, first).Success?
    requires i < |first| && j < |second| && first[i].range == second[j].range
    requires first[i].completedAt != second[j].completedAt
    ensures RecordAll(RecordAll(rows, identity, first).value, identity, second).Failure?
  {
    var after := RecordAll(rows, identity, first).value;
    MatchingAfterBatch(rows, identity, first, first[i].range);
    assert first[i] in first;
    RecordAllSucceedsIff(after, identity, second);
    assert !Compatible(after, identity, second, j);
  }

  /** Evidence is listed by (start, end, completion time). */
  predicate EvidenceLe(a: Evidence, b: Evidence) {
    if a.range == b.range then a.completedAt <= b.completedAt else RangeLe(a.range, b.range)
  }

  /** By start, then end, then completion time. */
  ghost predicate NotAfter(a: Evidence, b: Evidence) {
    if a.range.start != b.range.start then a.range.start < b.range.start
    else if a.range.end != b.range.end then a.range.end < b.range.end
    else a.completedAt <= b.completedAt
  }

  lemma EvidenceOrder()
    ensures forall a, b :: EvidenceLe(a, b) <==> NotAfter(a, b)
    ensures TotalPreorder(EvidenceLe)
  {
  }

  class CompletedRangeStore {
    var rows: seq<Evidence>

    constructor ()
      ensures rows == []
    {
      rows := [];
    }

    method ListRanges(identity: WatermarkIdentity) returns (listed: seq<Evidence>)
      ensures forall i, j :: 0 <= i < j < |listed| ==> NotAfter(listed[i], listed[j])
      ensures forall e :: e in listed <==> e in rows && e.identity == identity
    {
      var matching: seq<Evidence> := [];
      for i := 0 to |rows|
        invariant forall e :: e in matching <==> e in rows[..i] && e.identity == identity
      {
        if rows[i].identity == identity {
          matching := matching + [rows[i]];
        }
      }
      assert rows[..|rows|] == rows;
      EvidenceOrder();
      SortOrdersAndPermutes(matching, EvidenceLe);
      listed := Sort(matching, EvidenceLe);
    }

    /** One transaction: every interval is recorded, or the table is left as it was. */
    method RecordRanges(identity: WatermarkIdentity, offered: seq<OfferedRange>)
      returns (r: Result<seq<OfferedRange>, RecordError>)
      modifies this
      ensures (forall i :: 0 <= i < |offered| ==> Acceptable(offered[i])) ==>
                match RecordAll(old(rows), identity, Accepted(offered))
                case Success(after) => r == Success(offered) && rows == after
                case Failure(e) => r == Failure(e) && rows == old(rows)
      ensures AllComplete(offered) ==> (r.Success? <==> exists cs :: Offers(offered, cs) && AllCompatible(old(rows), identity, cs))
      ensures r.Success? ==> AllComplete(offered) && r.value == offered
                             && exists cs :: Offers(offered, cs) && RecordAll(old(rows), identity, cs) == Success(rows)
      ensures r.Failure? ==> rows == old(rows)
    {
      for i := 0 to |offered|
        invariant forall k :: 0 <= k < i ==> Acceptable(offered[k])
      {
        if Strip(offered[i].runId) == [] { assert !Acceptable(offered[i]); return Failure(BlankRunId); }
        if offered[i].completedAt.None? { assert !Acceptable(offered[i]); return Failure(MissingCompletedAt); }
      }
      OffersDetermine(offered);
      RecordAllSucceedsIff(rows, identity, Accepted(offered));
      var done := Transact(identity, Accepted(offered));
      match done
      case Success(_) => r := Success(offered);
      case Failure(e) => r := Failure(e);
    }

    /** Select, compare and insert interval by interval; any failure rolls back. */
    method Transact(identity: WatermarkIdentity, cs: seq<CompletedRange>)
      returns (r: Result<seq<Evidence>, RecordError>)
      modifies this
      ensures r == RecordAll(old(rows), identity, cs)
      ensures rows == if r.Success? then r.value else old(rows)
    {
      var begin := rows;
      var i := 0;
      while i < |cs|
        invariant 0 <= i <= |cs|
        invariant RecordAll(begin, identity, cs[..i]) == Success(rows)
      {
        assert cs[..i + 1][..i] == cs[..i];
        var existing := Matching(rows, identity, cs[i].range);
        if |existing| > 1 {
          BatchFails(begin, identity, cs, i + 1);
          rows := begin;
          return Failure(DuplicateEvidence(cs[i].range));
        }
        if |existing| == 0 {
          rows := rows + [Evidence(identity, cs[i].range, cs[i].runId, cs[i].completedAt)];
        } else if !SameMetadata(existing[0], cs[i]) {
          BatchFails(begin, identity, cs, i + 1);
          rows := begin;
          return Failure(ConflictingEvidence(cs[i].range));
        }
        i := i + 1;
      }
      assert cs[..i] == cs;
      return Success(rows);
    }
  }

  /** Once a prefix of a batch fails, the batch fails the same way. */
  lemma {:induction false} BatchFails(rows: seq<Evidence>, identity: WatermarkIdentity, cs: seq<CompletedRange>, n: nat)
    requires n <= |cs| && RecordAll(rows, identity, cs[..n]).Failure?
    ensures RecordAll(rows, identity, cs) == RecordAll(rows, identity, cs[..n])
    decreases |cs| - n
  {
    if n < |cs| {
      assert cs[..n + 1][..n] == cs[..n];
      BatchFails(rows, identity, cs, n + 1);
    } else {
      assert cs[..n] == cs;
    }
  }
}
