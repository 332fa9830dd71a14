/** One forward capture of planned rounds. */
module ForwardCapture {
  // The capture between a forward plan and the cursor commit: load what committed batches
  // hold, plan the missing batches, publish them one by one while counting, and compare the
  // count with the plan (backfill/run_chainlink_incremental.py). All feeds are of the one
  // configured chain, so an observation is identified by feed and round.

  import opened Wrappers
  import opened ChainlinkRounds
  import opened MissingBatches
  import opened BatchStore

  /** The directories of every batch that was ever attempted. */
  type Lake = map<RoundRange, Dirs>

  const BATCH_SIZE: nat := 500

  function DirsOf(lake: Lake, b: RoundRange): Dirs {
    if b in lake then lake[b] else Dirs(None, None, false, false)
  }

  ghost predicate AllExact(lake: Lake) {
    forall b :: b in lake ==> Published(b, lake[b])
  }

  /** A committed batch covers the round. */
  ghost predicate Stored(lake: Lake, id: ObservationId) {
    exists b :: b in lake && lake[b].marker && HasId(b, id)
  }

  /** A listing of the marked batches, in any order. */
  ghost predicate Lists(entries: seq<Entry>, lake: Lake) {
    && (forall i :: 0 <= i < |entries| ==> ListedFrom(lake, entries[i]))
    && (forall b :: b in lake && lake[b].marker ==> Entry(b, lake[b]) in entries)
  }

  ghost predicate ListedFrom(lake: Lake, e: Entry) {
    e.batch in lake && e.dirs == lake[e.batch] && e.dirs.marker
  }

  /** Rows as the coverage calculation sees them. */
  function PersistedOf(rows: seq<Row>): (out: seq<PersistedRow>)
    ensures |out| == |rows|
    ensures forall i :: 0 <= i < |rows| ==> out[i] == PersistedRow((rows[i].id.feed, rows[i].id.round), rows[i].feed)
  {
    seq(|rows|, i requires 0 <= i < |rows| => PersistedRow((rows[i].id.feed, rows[i].id.round), rows[i].feed))
  }

  /** What a load returns comes from committed batches. */
  lemma {:induction false} LoadedIsStored(lake: Lake, entries: seq<Entry>, id: ObservationId)
    requires AllExact(lake) && Lists(entries, lake) && Observed(PersistedOf(Visible(entries)), id)
    ensures Stored(lake, id)
  {
    var rows := Visible(entries);
    var i :| 0 <= i < |rows| && PersistedOf(rows)[i] == PersistedRow(id, id.0);
    ListedAreExact(lake, entries);
    assert rows[i] in rows;
    VisibleRounds(entries, id.0, id.1);
    var k :| 0 <= k < |entries| && entries[k].dirs.marker && entries[k].batch.feed == id.0
             && entries[k].batch.start <= id.1 <= entries[k].batch.end;
    assert ListedFrom(lake, entries[k]) && HasId(entries[k].batch, id);
  }

  lemma ListedAreExact(lake: Lake, entries: seq<Entry>)
    requires AllExact(lake) && Lists(entries, lake)
    ensures AllPublished(entries)
  {
    forall i | 0 <= i < |entries| ensures Published(entries[i].batch, entries[i].dirs) {
      assert ListedFrom(lake, entries[i]);
    }
  }

  /** Whoever lists the lake finds every stored round. */
  lemma {:induction false} StoredIsReadable(lake: Lake, entries: seq<Entry>, id: ObservationId)
    requires AllExact(lake) && Lists(entries, lake) && Stored(lake, id)
    ensures exists row :: row in Visible(entries) && row.id.feed == id.0 && row.id.round == id.1
  {
    ListedAreExact(lake, entries);
    var b :| b in lake && lake[b].marker && HasId(b, id);
    var k :| 0 <= k < |entries| && entries[k] == Entry(b, lake[b]);
    assert entries[k].dirs.marker && entries[k].batch.feed == id.0;
    VisibleRounds(entries, id.0, id.1);
  }

  /** One call of `write_and_validate` on the lake; `ok` when it returned. */
  ghost predicate Wrote(b: RoundRange, rows: seq<Row>, env: Environment, before: Lake, after: Lake, ok: bool) {
    && after == before[b := DirsOf(after, b)]
    && Attempt(b, rows, env, DirsOf(before, b), DirsOf(after, b))
    && (ok ==> Acceptable(b, rows) && DirsOf(after, b).marker)
  }

  lemma WroteKeepsExact(b: RoundRange, rows: seq<Row>, env: Environment, before: Lake, after: Lake, ok: bool)
    requires AllExact(before) && Wrote(b, rows, env, before, after, ok)
    ensures AllExact(after)
  {
    assert Published(b, DirsOf(before, b));
  }

  lemma WroteKeepsStored(b: RoundRange, rows: seq<Row>, env: Environment, before: Lake, after: Lake, ok: bool, id: ObservationId)
    requires Wrote(b, rows, env, before, after, ok)
    ensures Stored(before, id) ==> Stored(after, id)
    ensures ok && HasId(b, id) ==> Stored(after, id)
  {
    if Stored(before, id) {
      var x :| x in before && before[x].marker && HasId(x, id);
      assert x in after && after[x].marker;
    }
    if ok && HasId(b, id) { assert b in after && after[b].marker; }
  }

  /** A forward plan has one range for each feed phase, so its batches are always the fewest. */
  lemma {:induction false} ForwardBatchesAreFewest(oracle: FeedOracle, targets: seq<FeedTarget>, cursors: map<string, int>, rows: seq<PersistedRow>,
                                cover: seq<RoundRange>)
    requires AllPlannable(oracle, targets, cursors) && DistinctTargets(targets)
    requires CoversUnstored(cover, AllRanges(oracle, targets, cursors), rows, BATCH_SIZE)
    ensures |MissingPlan(AllRanges(oracle, targets, cursors), rows, BATCH_SIZE)| <= |cover|
  {
    AllRangesAreSound(oracle, targets, cursors);
    AllRangesOnePerPhase(oracle, targets, cursors);
    GreedyIsFewest(AllRanges(oracle, targets, cursors), rows, BATCH_SIZE, cover);
  }

  // ----- The counters -----

  /** `sum(counts.values())`, the keys listed once in `feeds`. */
  function Total(counts: map<string, int>, feeds: seq<string>): int
    requires forall i :: 0 <= i < |feeds| ==> feeds[i] in counts
  {
    if feeds == [] then 0 else Total(counts, feeds[..|feeds| - 1]) + counts[feeds[|feeds| - 1]]
  }

  ghost predicate Counting(counts: map<string, int>, feeds: seq<string>) {
    Distinct(feeds) && counts.Keys == set i | 0 <= i < |feeds| :: feeds[i]
  }

  lemma {:induction false} TotalAfterSet(counts: map<string, int>, feeds: seq<string>, feed: string, v: int)
    requires Distinct(feeds) && feed in counts && forall i :: 0 <= i < |feeds| ==> feeds[i] in counts
    ensures Total(counts[feed := v], feeds) == Total(counts, feeds) + if feed in feeds then v - counts[feed] else 0
    decreases |feeds|
  {
    if feeds != [] {
      TotalAfterSet(counts, feeds[..|feeds| - 1], feed, v);
      assert feeds == feeds[..|feeds| - 1] + [feeds[|feeds| - 1]];
    }
  }

  lemma {:induction false} TotalOfZeros(counts: map<string, int>, feeds: seq<string>)
    requires forall i :: 0 <= i < |feeds| ==> feeds[i] in counts && counts[feeds[i]] == 0
    ensures Total(counts, feeds) == 0
    decreases |feeds|
  {
    if feeds != [] { TotalOfZeros(counts, feeds[..|feeds| - 1]); }
  }

  function Zeros(feeds: seq<string>): map<string, int> {
    map feed | feed in feeds :: 0
  }

  /** The counters after coverage was loaded: what is already stored of each feed. */
  function Loaded(feeds: seq<string>, cs: seq<FeedCoverage>): map<string, int> {
    if cs == [] then Zeros(feeds)
    else Loaded(feeds, cs[..|cs| - 1])[cs[|cs| - 1].feed := |cs[|cs| - 1].persisted|]
  }

  ghost predicate FeedsWithin(rs: seq<RoundRange>, feeds: seq<string>) {
    forall i :: 0 <= i < |rs| ==> rs[i].feed in feeds
  }

  /** Feeds with coverage are configured, and each is listed once. */
  lemma {:induction false} CoveredFeeds(rs: seq<RoundRange>, feeds: seq<string>)
    requires FeedsWithin(rs, feeds)
    ensures forall i :: 0 <= i < |FeedsOf(rs)| ==> FeedsOf(rs)[i] in feeds
  {
    if rs != [] { CoveredFeeds(rs[..|rs| - 1], feeds); }
  }

  /** The loaded counters add up to the stored rounds of the covered feeds. */
  ghost predicate CountsStored(rs: seq<RoundRange>, rows: seq<PersistedRow>, feeds: seq<string>, covered: seq<string>, counts: map<string, int>) {
    && Counting(counts, feeds)
    && (forall feed :: feed in feeds && feed !in covered ==> counts[feed] == 0)
    && Total(counts, feeds) == |Required(Grouped(rs, covered)) * StoredIds(rows)|
  }

  lemma {:induction false} LoadedUnfolds(rs: seq<RoundRange>, rows: seq<PersistedRow>, feeds: seq<string>, front: seq<string>, feed: string)
    ensures Loaded(feeds, CoverageOfAll(rs, rows, front + [feed]))
         == Loaded(feeds, CoverageOfAll(rs, rows, front))[feed := |CoverageOf(rs, rows, feed).persisted|]
  {
    CoverageAppends(rs, rows, front, feed);
  }

  lemma CountingStays(counts: map<string, int>, feeds: seq<string>, feed: string, v: int)
    requires Counting(counts, feeds) && feed in feeds
    ensures Counting(counts[feed := v], feeds)
    ensures Total(counts[feed := v], feeds) == Total(counts, feeds) + v - counts[feed]
  {
    TotalAfterSet(counts, feeds, feed, v);
  }

  lemma CountsStoredStep(rs: seq<RoundRange>, rows: seq<PersistedRow>, feeds: seq<string>, front: seq<string>, feed: string, counts: map<string, int>)
    requires AllValid(rs) && CountsStored(rs, rows, feeds, front, counts) && feed in feeds && feed !in front
    ensures CountsStored(rs, rows, feeds, front + [feed], counts[feed := |CoverageOf(rs, rows, feed).persisted|])
  {
    var stored := |CoverageOf(rs, rows, feed).persisted|;
    CountingStays(counts, feeds, feed, stored);
    assert |Required(Grouped(rs, front + [feed])) * StoredIds(rows)| == |Required(Grouped(rs, front)) * StoredIds(rows)| + stored by {
      GroupedStored(rs, rows, front, feed);
      CoverageAppends(rs, rows, front, feed);
    }
  }

  lemma NothingLoaded(rs: seq<RoundRange>, rows: seq<PersistedRow>, feeds: seq<string>)
    requires Distinct(feeds)
    ensures CountsStored(rs, rows, feeds, [], Zeros(feeds))
  {
    TotalOfZeros(Zeros(feeds), feeds);
    assert Required(Grouped(rs, [])) * StoredIds(rows) == {};
  }

  lemma LastIsFresh(s: seq<string>)
    requires Distinct(s) && s != []
    ensures s == s[..|s| - 1] + [s[|s| - 1]] && s[|s| - 1] !in s[..|s| - 1] && Distinct(s[..|s| - 1])
  {
  }

  lemma {:induction false} LoadedCounts(rs: seq<RoundRange>, rows: seq<PersistedRow>, feeds: seq<string>, covered: seq<string>)
    requires AllValid(rs) && Distinct(feeds) && Distinct(covered)
    requires forall i :: 0 <= i < |covered| ==> covered[i] in feeds
    ensures CountsStored(rs, rows, feeds, covered, Loaded(feeds, CoverageOfAll(rs, rows, covered)))
    decreases |covered|
  {
    if covered == [] {
      NothingLoaded(rs, rows, feeds);
    } else {
      var n := |covered| - 1;
      var front, feed := covered[..n], covered[n];
      LastIsFresh(covered);
      LoadedCounts(rs, rows, feeds, front);
      CountsStoredStep(rs, rows, feeds, front, feed, Loaded(feeds, CoverageOfAll(rs, rows, front)));
      LoadedUnfolds(rs, rows, feeds, front, feed);
    }
  }

  lemma {:induction false} CoverageAppends(rs: seq<RoundRange>, rows: seq<PersistedRow>, front: seq<string>, feed: string)
    ensures CoverageOfAll(rs, rows, front + [feed]) == CoverageOfAll(rs, rows, front) + [CoverageOf(rs, rows, feed)]
    ensures Grouped(rs, front + [feed]) == Grouped(rs, front) + RangesFor(rs, feed)
  {
    assert (front + [feed])[..|front|] == front;
  }

  /** The stored rounds of one more feed are new ones, and its coverage counts exactly them. */
  lemma {:induction false} GroupedStored(rs: seq<RoundRange>, rows: seq<PersistedRow>, front: seq<string>, feed: string)
    requires AllValid(rs) && feed !in front
    ensures |Required(Grouped(rs, front) + RangesFor(rs, feed)) * StoredIds(rows)|
         == |Required(Grouped(rs, front)) * StoredIds(rows)| + |CoverageOf(rs, rows, feed).persisted|
  {
    var mine, before := RangesFor(rs, feed), Grouped(rs, front);
    var a, b := Required(before) * StoredIds(rows), CoverageOf(rs, rows, feed).persisted;
    forall id
      ensures id in Required(before + mine) * StoredIds(rows) <==> id in a || id in b
      ensures !(id in a && id in b)
    {
      HoldsConcat(before, mine, id);
      GroupedHold(rs, front, id);
      RangesForHold(rs, feed, id);
      StoredIdsAreObserved(rows, id);
    }
    assert Required(before + mine) * StoredIds(rows) == a + b && a !! b;
  }

  // ----- The invariant shared by the loop and the protocol -----

  /** After `done` of the planned batches: what is planned is stored or still to come, and counted. */
  ghost predicate Progress(feeds: seq<string>, lake: Lake, ranges: seq<RoundRange>, batches: seq<RoundRange>, done: nat, counts: map<string, int>) {
    && done <= |batches| && Counting(counts, feeds) && FeedsWithin(batches, feeds)
    && (forall id :: Holds(ranges, id) ==> Stored(lake, id) || Holds(batches[done..], id))
    && Total(counts, feeds) + RoundCount(batches) - RoundCount(batches[..done]) == RoundCount(ranges)
  }

  lemma {:induction false} PlanFeedsWithin(rs: seq<RoundRange>, missing: set<ObservationId>, feeds: seq<string>, k: nat)
    requires k > 0 && FeedsWithin(rs, feeds)
    ensures FeedsWithin(PlanRanges(rs, missing, k), feeds)
    decreases |rs|
  {
    if rs != [] { PlanFeedsWithin(rs[..|rs| - 1], missing, feeds, k); }
  }

  lemma MissingIsTheRest(ranges: seq<RoundRange>, rows: seq<PersistedRow>)
    requires AllValid(ranges)
    ensures Required(MissingPlan(ranges, rows, BATCH_SIZE)) == Required(ranges) - StoredIds(rows)
  {
    PlanIsExactlyTheMissing(ranges, rows, BATCH_SIZE);
    forall id ensures id in Required(MissingPlan(ranges, rows, BATCH_SIZE)) <==> id in Required(ranges) - StoredIds(rows) {
      StoredIdsAreObserved(rows, id);
    }
  }

  lemma SplitCount<T>(a: set<T>, b: set<T>)
    ensures |a * b| + |a - b| == |a|
  {
    assert a == a * b + (a - b);
  }

  /** The counters and the planned batches together are the whole plan. */
  lemma {:induction false} LoadedPlusMissing(feeds: seq<string>, ranges: seq<RoundRange>, rows: seq<PersistedRow>)
    requires AllValid(ranges) && Disjoint(ranges) && Distinct(feeds) && FeedsWithin(ranges, feeds)
    ensures var counts := Loaded(feeds, CoverageOfAll(ranges, rows, FeedsOf(ranges)));
      Counting(counts, feeds) && Total(counts, feeds) + RoundCount(MissingPlan(ranges, rows, BATCH_SIZE)) == RoundCount(ranges)
  {
    var plan, all := MissingPlan(ranges, rows, BATCH_SIZE), Grouped(ranges, FeedsOf(ranges));
    CoveredFeeds(ranges, feeds);
    FeedsAreDistinct(ranges);
    LoadedCounts(ranges, rows, feeds, FeedsOf(ranges));
    PlanIsGlobal(ranges, rows, BATCH_SIZE);
    PlanIsExactlyTheMissing(ranges, rows, BATCH_SIZE);
    RequiredCount(ranges);
    RequiredCount(plan);
    assert Required(all) == Required(ranges);
    MissingIsTheRest(ranges, rows);
    SplitCount(Required(ranges), StoredIds(rows));
  }

  lemma MissingFeedsWithin(feeds: seq<string>, ranges: seq<RoundRange>, rows: seq<PersistedRow>)
    requires AllValid(ranges) && FeedsWithin(ranges, feeds)
    ensures FeedsWithin(MissingPlan(ranges, rows, BATCH_SIZE), feeds)
  {
    PlanIsGlobal(ranges, rows, BATCH_SIZE);
    GroupedFeedsWithin(ranges, FeedsOf(ranges), feeds);
    PlanFeedsWithin(Grouped(ranges, FeedsOf(ranges)), Required(ranges) - StoredIds(rows), feeds, BATCH_SIZE);
  }

  lemma {:induction false} GroupedFeedsWithin(rs: seq<RoundRange>, covered: seq<string>, feeds: seq<string>)
    requires AllValid(rs) && FeedsWithin(rs, feeds)
    ensures FeedsWithin(Grouped(rs, covered), feeds)
    decreases |covered|
  {
    if covered != [] {
      GroupedFeedsWithin(rs, covered[..|covered| - 1], feeds);
      RangesForAre(rs, covered[|covered| - 1]);
    }
  }

  /** Loading and planning establish the invariant. */
  lemma {:induction false} ProgressStarts(feeds: seq<string>, lake: Lake, entries: seq<Entry>, ranges: seq<RoundRange>)
    requires AllExact(lake) && Lists(entries, lake)
    requires AllValid(ranges) && Disjoint(ranges) && Distinct(feeds) && FeedsWithin(ranges, feeds)
    ensures var rows := PersistedOf(Visible(entries));
      Progress(feeds, lake, ranges, MissingPlan(ranges, rows, BATCH_SIZE), 0, Loaded(feeds, CoverageOfAll(ranges, rows, FeedsOf(ranges))))
  {
    var rows := PersistedOf(Visible(entries));
    var plan := MissingPlan(ranges, rows, BATCH_SIZE);
    LoadedPlusMissing(feeds, ranges, rows);
    MissingFeedsWithin(feeds, ranges, rows);
    PlanIsExactlyTheMissing(ranges, rows, BATCH_SIZE);
    assert plan[0..] == plan;
    forall id | Holds(ranges, id) ensures Stored(lake, id) || Holds(plan[0..], id) {
      if Observed(rows, id) { LoadedIsStored(lake, entries, id); }
    }
  }

  /** The rows of an accepted batch are as many as its rounds. */
  lemma BatchRowCount(b: RoundRange, rows: seq<Row>)
    requires Acceptable(b, rows)
    ensures |rows| == b.end - b.start + 1
  {
    OnePerRoundIff(b, rows);
    DistinctIdCount(rows);
    BatchIdCount(rows[0].id.chain, b);
  }

  lemma {:induction false} DistinctIdCount(rows: seq<Row>)
    requires DistinctIds(rows)
    ensures |IdSet(rows)| == |rows|
  {
    if rows != [] {
      var n := |rows| - 1;
      DistinctIdCount(rows[..n]);
      assert IdSet(rows) == IdSet(rows[..n]) + {rows[n].id};
    }
  }

  lemma {:induction false} BatchIdCount(chain: string, b: RoundRange)
    requires b.start <= b.end + 1
    ensures |BatchIds(chain, b)| == b.end - b.start + 1
    decreases b.end - b.start + 1
  {
    if b.start <= b.end {
      BatchIdCount(chain, b.(end := b.end - 1));
      assert BatchIds(chain, b) == BatchIds(chain, b.(end := b.end - 1)) + {RowId(chain, b.feed, b.end)};
    } else {
      assert BatchIds(chain, b) == {};
    }
  }

  lemma PrefixCount(rs: seq<RoundRange>, n: nat)
    requires n < |rs|
    ensures RoundCount(rs[..n + 1]) == RoundCount(rs[..n]) + rs[n].end - rs[n].start + 1
  {
    assert rs[..n + 1][..n] == rs[..n];
  }

  /** Publishing the next batch and counting its rows keeps the invariant. */
  lemma ProgressSteps(feeds: seq<string>, lake: Lake, after: Lake, ranges: seq<RoundRange>, batches: seq<RoundRange>, done: nat,
                      counts: map<string, int>, rows: seq<Row>, env: Environment)
    requires done < |batches| && Progress(feeds, lake, ranges, batches, done, counts)
    requires Wrote(batches[done], rows, env, lake, after, true)
    ensures batches[done].feed in counts
    ensures Progress(feeds, after, ranges, batches, done + 1, counts[batches[done].feed := counts[batches[done].feed] + |rows|])
  {
    var b := batches[done];
    BatchRowCount(b, rows);
    PrefixCount(batches, done);
    TotalAfterSet(counts, feeds, b.feed, counts[b.feed] + |rows|);
    forall id | Holds(ranges, id) ensures Stored(after, id) || Holds(batches[done + 1..], id) {
      WroteKeepsStored(b, rows, env, lake, after, true, id);
      if !Stored(lake, id) { NextOrLater(batches, done, id); }
    }
  }

  lemma NextOrLater(batches: seq<RoundRange>, done: nat, id: ObservationId)
    requires done < |batches| && Holds(batches[done..], id)
    ensures HasId(batches[done], id) || Holds(batches[done + 1..], id)
  {
    assert batches[done..] == [batches[done]] + batches[done + 1..];
    HoldsConcat([batches[done]], batches[done + 1..], id);
  }

  /** When every planned batch is published, the plan is stored and the counters add up to it. */
  lemma {:induction false} ProgressEnds(feeds: seq<string>, lake: Lake, ranges: seq<RoundRange>, batches: seq<RoundRange>, counts: map<string, int>)
    requires Progress(feeds, lake, ranges, batches, |batches|, counts)
    ensures Total(counts, feeds) == RoundCount(ranges)
    ensures forall id :: Holds(ranges, id) ==> Stored(lake, id)
  {
    assert batches[..|batches|] == batches && batches[|batches|..] == [];
  }

  // ----- The capture itself -----

  /** One extraction of a batch: its requests, and its rows unless it was incomplete or left issues. */
  datatype Extraction = Extraction(requests: nat, rows: Option<seq<Row>>)

  datatype CaptureError = UnreadableStore | Unplannable | Incomplete(batch: RoundRange) | NotPublished(batch: RoundRange, error: StoreError) | CountMismatch

  datatype Captured = Captured(counts: map<string, int>, requests: nat, batches: seq<BatchResult>)

  function Requests(fetch: RoundRange -> Extraction, batches: seq<RoundRange>): nat {
    if batches == [] then 0 else Requests(fetch, batches[..|batches| - 1]) + fetch(batches[|batches| - 1]).requests
  }

  /** Nothing disturbs the batch: it is extracted completely, accepted, and every action works. */
  ghost predicate Undisturbed(lake: Lake, fetch: RoundRange -> Extraction, envs: RoundRange -> Environment, b: RoundRange) {
    fetch(b).rows.Some? && Acceptable(b, fetch(b).rows.value) && AllWork(envs(b)) && !DirsOf(lake, b).marker
  }

  /** Only the batches published so far were touched. */
  ghost predicate TouchedOnly(before: Lake, after: Lake, batches: seq<RoundRange>) {
    forall b :: b !in batches ==> DirsOf(after, b) == DirsOf(before, b)
  }

  class ForwardStore {
    var lake: Lake

    constructor (initial: Lake)
      ensures lake == initial
    {
      lake := initial;
    }

    /** `write_and_validate` on the directories of one batch. */
    method Publish(b: RoundRange, rows: seq<Row>, env: Environment) returns (r: Result<BatchResult, StoreError>)
      modifies this
      ensures Wrote(b, rows, env, old(lake), lake, r.Success?)
      ensures r.Success? ==> r.value.batch == b
      ensures AllWork(env) && Acceptable(b, rows) && !DirsOf(old(lake), b).marker ==> r.Success?
    {
      var directory := new BatchDirectory(DirsOf(lake, b));
      r := directory.WriteAndValidate(b, rows, env);
      lake := lake[b := directory.dirs];
    }

    /** `write_issues`: diagnostics outside the batches readers see. */
    method Quarantine(b: RoundRange)
      modifies this
      ensures lake == old(lake)[b := DirsOf(old(lake), b).(quarantined := true)]
    {
      lake := lake[b := DirsOf(lake, b).(quarantined := true)];
    }

    /**
     The capture of a plan: it returns only with every planned round stored, and its final
     count check refuses nothing that got that far.
     */
    method Capture(feeds: seq<string>, ranges: seq<RoundRange>, listing: seq<Entry>,
                   fetch: RoundRange -> Extraction, envs: RoundRange -> Environment)
      returns (r: Result<Captured, CaptureError>)
      requires AllExact(lake) && Lists(listing, lake)
      requires AllValid(ranges) && Disjoint(ranges) && Distinct(feeds) && FeedsWithin(ranges, feeds)
      modifies this
      ensures AllExact(lake) && forall id :: Stored(old(lake), id) ==> Stored(lake, id)
      ensures r.Success? ==> forall id :: Holds(ranges, id) ==> Stored(lake, id)
      ensures r.Success? ==> Counting(r.value.counts, feeds) && Total(r.value.counts, feeds) == RoundCount(ranges)
      ensures r != Failure(CountMismatch)
      ensures r == Failure(UnreadableStore) <==> ranges != [] && !DistinctIds(Visible(listing))
      ensures var plan := MissingPlan(ranges, PersistedOf(Visible(listing)), BATCH_SIZE);
        && (r.Success? && ranges != [] ==>
              r.value.requests == Requests(fetch, plan) && |r.value.batches| == |plan|
              && forall i :: 0 <= i < |plan| ==> r.value.batches[i].batch == plan[i])
        && (r == Failure(Unplannable) <==> ranges != [] && DistinctIds(Visible(listing)) && !AllEncodable(ranges))
        && (r.Failure? && r.error != UnreadableStore && r.error != Unplannable ==> exists b :: b in plan && !Undisturbed(old(lake), fetch, envs, b))
    {
      var counts := Zeros(feeds);
      if ranges == [] {
        TotalOfZeros(counts, feeds);
        return Success(Captured(counts, 0, []));
      }
      if !DistinctIds(Visible(listing)) { return Failure(UnreadableStore); }
      var rows := PersistedOf(Visible(listing));
      var coverage := CalculateFeedCoverage(ranges, rows);
      if coverage.Failure? { return Failure(Unplannable); }
      CoverageIsSound(ranges, rows, FeedsOf(ranges));
      var planned := PlanMissingBatches(coverage.value, BATCH_SIZE);
      var plan := planned.value;
      counts := Loaded(feeds, coverage.value);
      ProgressStarts(feeds, lake, listing, ranges);
      PlanIsExactlyTheMissing(ranges, rows, BATCH_SIZE);
      DisjointAreDistinct(plan);
      r := PublishAll(feeds, ranges, plan, counts, fetch, envs);
    }

    /** One turn of the batch loop: extract, publish, count. */
    method PublishNext(feeds: seq<string>, ranges: seq<RoundRange>, plan: seq<RoundRange>, i: nat, counts: map<string, int>,
                       extraction: Extraction, env: Environment)
      returns (r: Result<(BatchResult, map<string, int>), CaptureError>)
      requires i < |plan| && AllExact(lake) && Progress(feeds, lake, ranges, plan, i, counts)
      modifies this
      ensures AllExact(lake) && forall id :: Stored(old(lake), id) ==> Stored(lake, id)
      ensures TouchedOnly(old(lake), lake, [plan[i]])
      ensures r.Success? ==> r.value.0.batch == plan[i] && Progress(feeds, lake, ranges, plan, i + 1, r.value.1)
      ensures r.Failure? ==> r.error.Incomplete? || r.error.NotPublished?
      ensures r.Failure? ==> !(extraction.rows.Some? && Acceptable(plan[i], extraction.rows.value) && AllWork(env)
                               && !DirsOf(old(lake), plan[i]).marker)
    {
      var b := plan[i];
      if extraction.rows.None? {
        QuarantineIsInvisible(lake, b);
        Quarantine(b);
        return Failure(Incomplete(b));
      }
      var rows := extraction.rows.value;
      ghost var before := lake;
      var written := Publish(b, rows, env);
      WroteKeepsExact(b, rows, env, before, lake, written.Success?);
      forall id | Stored(before, id) ensures Stored(lake, id) {
        WroteKeepsStored(b, rows, env, before, lake, written.Success?, id);
      }
      if written.Failure? { return Failure(NotPublished(b, written.error)); }
      ProgressSteps(feeds, before, lake, ranges, plan, i, counts, rows, env);
      return Success((written.value, counts[b.feed := counts[b.feed] + |rows|]));
    }

    /** The batch loop and the count check after it. */
    method PublishAll(feeds: seq<string>, ranges: seq<RoundRange>, plan: seq<RoundRange>, loaded: map<string, int>,
                      fetch: RoundRange -> Extraction, envs: RoundRange -> Environment)
      returns (r: Result<Captured, CaptureError>)
      requires AllExact(lake) && Progress(feeds, lake, ranges, plan, 0, loaded) && Distinct(plan)
      modifies this
      ensures AllExact(lake) && forall id :: Stored(old(lake), id) ==> Stored(lake, id)
      ensures r.Success? ==> forall id :: Holds(ranges, id) ==> Stored(lake, id)
      ensures r.Success? ==> Counting(r.value.counts, feeds) && Total(r.value.counts, feeds) == RoundCount(ranges)
      ensures r.Success? ==>
                r.value.requests == Requests(fetch, plan) && |r.value.batches| == |plan|
                && forall i :: 0 <= i < |plan| ==> r.value.batches[i].batch == plan[i]
      ensures r.Failure? ==>
                (r.error.Incomplete? || r.error.NotPublished?)
                && exists b :: b in plan && !Undisturbed(old(lake), fetch, envs, b)
    {
      var counts, requests := loaded, 0;
      var batches: seq<BatchResult> := [];
      for i := 0 to |plan|
        invariant AllExact(lake) && (forall id :: Stored(old(lake), id) ==> Stored(lake, id))
        invariant TouchedOnly(old(lake), lake, plan[..i])
        invariant Progress(feeds, lake, ranges, plan, i, counts)
        invariant requests == Requests(fetch, plan[..i])
        invariant |batches| == i && forall j :: 0 <= j < i ==> batches[j].batch == plan[j]
      {
        var b := plan[i];
        assert b in plan && b !in plan[..i];
        assert plan[..i + 1] == plan[..i] + [b];
        var extraction := fetch(b);
        var published := PublishNext(feeds, ranges, plan, i, counts, extraction, envs(b));
        if published.Failure? { return Failure(published.error); }
        RequestsGrow(fetch, plan, i);
        requests := requests + extraction.requests;
        batches := batches + [published.value.0];
        counts := published.value.1;
      }
      assert plan[..|plan|] == plan;
      ProgressEnds(feeds, lake, ranges, plan, counts);
      if Total(counts, feeds) != RoundCount(ranges) { return Failure(CountMismatch); }
      return Success(Captured(counts, requests, batches));
    }
  }

  lemma RequestsGrow(fetch: RoundRange -> Extraction, batches: seq<RoundRange>, i: nat)
    requires i < |batches|
    ensures Requests(fetch, batches[..i + 1]) == Requests(fetch, batches[..i]) + fetch(batches[i]).requests
  {
    assert batches[..i + 1][..i] == batches[..i];
  }

  lemma QuarantineIsInvisible(lake: Lake, b: RoundRange)
    ensures var after := lake[b := DirsOf(lake, b).(quarantined := true)];
      && (AllExact(lake) ==> AllExact(after))
      && forall id :: Stored(after, id) <==> Stored(lake, id)
  {
    var after := lake[b := DirsOf(lake, b).(quarantined := true)];
    forall id ensures Stored(after, id) <==> Stored(lake, id) {
      if Stored(lake, id) {
        var x :| x in lake && lake[x].marker && HasId(x, id);
        assert x in after && after[x].marker;
      }
      if Stored(after, id) {
        var x :| x in after && after[x].marker && HasId(x, id);
        assert x in lake && lake[x].marker;
      }
    }
  }

  /** Coverage lists ranges of the plan, so they are legal and encode when the plan's do. */
  lemma {:induction false} CoverageIsSound(rs: seq<RoundRange>, rows: seq<PersistedRow>, covered: seq<string>)
    requires AllValid(rs)
    ensures var cs := CoverageOfAll(rs, rows, covered);
      forall i :: 0 <= i < |cs| ==> AllValid(cs[i].ranges) && (AllEncodable(rs) ==> AllEncodable(cs[i].ranges))
  {
    var cs := CoverageOfAll(rs, rows, covered);
    forall i | 0 <= i < |cs| ensures AllValid(cs[i].ranges) && (AllEncodable(rs) ==> AllEncodable(cs[i].ranges)) {
      RangesForEncode(rs, covered[i]);
    }
  }

  /** Disjoint legal batches are distinct. */
  lemma DisjointAreDistinct(rs: seq<RoundRange>)
    requires Disjoint(rs) && AllValid(rs)
    ensures Distinct(rs)
  {
    forall i, j | 0 <= i < j < |rs| ensures rs[i] != rs[j] {
      assert ApartFrom(rs[i], rs[j]) && rs[i].Valid();
    }
  }
}
