/** How many batches a plan takes. */
module BatchCounts {
  // The length of a plan, the fewest batches any plan could take, and when the two agree
  // (orchestration/chainlink_bootstrap.py).

  import opened ChainlinkRounds
  import opened MissingBatches
  import opened Wrappers

  /** How many batches of at most `k` rounds it takes to hold `n` consecutive rounds. */
  function CeilDiv(n: nat, k: nat): nat
    requires k > 0
  {
    if n == 0 then 0 else 1 + CeilDiv(if n <= k then 0 else n - k, k)
  }

  lemma {:induction false} CeilDivBounds(n: nat, k: nat)
    requires k > 0
    ensures n <= CeilDiv(n, k) * k < n + k
  {
    if n > 0 {
      var rest := if n <= k then 0 else n - k;
      CeilDivBounds(rest, k);
      assert (1 + CeilDiv(rest, k)) * k == k + CeilDiv(rest, k) * k;
    }
  }

  /** That is `n` over `k`, rounded up. */
  lemma {:induction false} CeilDivRoundsUp(n: nat, k: nat)
    requires k > 0
    ensures CeilDiv(n, k) == (n + k - 1) / k
  {
    CeilDivBounds(n, k);
    QuotientIs(n + k - 1, k, CeilDiv(n, k));
  }

  lemma QuotientIs(n: nat, k: nat, q: nat)
    requires k > 0 && q * k <= n < q * k + k
    ensures n / k == q
  {
    var x := n / k;
    assert n == x * k + n % k;
    if x < q { TimesIsMonotone(x + 1, q, k); }
    if q < x { TimesIsMonotone(q + 1, x, k); }
  }

  lemma TimesIsMonotone(a: int, b: int, k: nat)
    requires a <= b
    ensures a * k <= b * k
  {
  }

  lemma {:induction false} CeilDivIsMonotone(a: nat, b: nat, k: nat)
    requires k > 0 && a <= b
    ensures CeilDiv(a, k) <= CeilDiv(b, k)
  {
    if a > k { CeilDivIsMonotone(a - k, b - k, k); }
  }

  lemma {:induction false} CeilDivJoins(a: nat, b: nat, k: nat)
    requires k > 0
    ensures CeilDiv(a + b, k) <= CeilDiv(a, k) + CeilDiv(b, k)
  {
    if a > k {
      CeilDivJoins(a - k, b, k);
    } else if a + b > k {
      CeilDivIsMonotone(a + b - k, b, k);
    }
  }

  // ----- Runs of consecutive rounds -----

  /** How many rounds the run at the head of the list has. */
  function Lead(ms: seq<int>): (n: nat)
    requires ms != []
    ensures 0 < n <= |ms|
  {
    RunFrom(ms, |ms|, 1)
  }

  /** The maximal runs of consecutive rounds in an ascending list. */
  function Runs(ms: seq<int>): seq<Interval>
    decreases |ms|
  {
    if ms == [] then [] else [Interval(ms[0], ms[Lead(ms) - 1])] + Runs(ms[Lead(ms)..])
  }

  function Length(b: Interval): nat { if b.first <= b.last then b.last - b.first + 1 else 0 }

  /** What the runs take when each is batched for itself. */
  function BatchesFor(runs: seq<Interval>, k: nat): nat
    requires k > 0
  {
    if runs == [] then 0 else CeilDiv(Length(runs[0]), k) + BatchesFor(runs[1..], k)
  }

  lemma {:induction false} BatchesForStep(b: Interval, rest: seq<Interval>, k: nat)
    requires k > 0
    ensures BatchesFor([b] + rest, k) == CeilDiv(Length(b), k) + BatchesFor(rest, k)
  {
    assert ([b] + rest)[1..] == rest;
  }

  /** The first batch is the whole leading run or, of a longer one, its first `k` rounds. */
  lemma FirstBatchOfRun(ms: seq<int>, k: nat)
    requires k > 0 && ms != []
    ensures AfterFirst(ms, k) == ms[if Lead(ms) <= k then Lead(ms) else k..]
  {
  }

  lemma RestLead(ms: seq<int>, k: nat)
    requires ms != [] && k < Lead(ms)
    ensures Lead(ms[k..]) == Lead(ms) - k
  {
    var rest := ms[k..];
    assert forall j :: 0 <= j < |rest| ==> rest[j] == ms[k + j];
    assert forall j :: 0 <= j < Lead(rest) ==> rest[j] == rest[0] + j;
    assert forall j :: 0 <= j < Lead(ms) ==> ms[j] == ms[0] + j;
  }

  lemma LeadRun(ms: seq<int>)
    requires ms != []
    ensures Length(Interval(ms[0], ms[Lead(ms) - 1])) == Lead(ms)
  {
  }

  lemma {:induction false} RunsCount(ms: seq<int>, k: nat)
    requires k > 0 && ms != []
    ensures BatchesFor(Runs(ms), k) == CeilDiv(Lead(ms), k) + BatchesFor(Runs(ms[Lead(ms)..]), k)
  {
    var b, rest := Interval(ms[0], ms[Lead(ms) - 1]), Runs(ms[Lead(ms)..]);
    assert Runs(ms) == [b] + rest;
    LeadRun(ms);
    BatchesForStep(b, rest, k);
  }

  lemma {:induction false} RestCounts(ms: seq<int>, k: nat, rest: seq<int>, tail: seq<int>)
    requires 0 < k && ms != [] && k < Lead(ms) && rest == ms[k..] && tail == ms[Lead(ms)..]
    ensures BatchesFor(Runs(rest), k) == CeilDiv(Lead(ms) - k, k) + BatchesFor(Runs(tail), k)
  {
    RestLead(ms, k);
    assert rest[Lead(rest)..] == tail;
    RunsCount(rest, k);
  }

  lemma {:induction false} FirstBatchCounts(ms: seq<int>, k: nat)
    requires k > 0 && ms != []
    ensures BatchesFor(Runs(ms), k) == 1 + BatchesFor(Runs(AfterFirst(ms, k)), k)
  {
    RunsCount(ms, k);
    FirstBatchOfRun(ms, k);
    if k < Lead(ms) { RestCounts(ms, k, ms[k..], ms[Lead(ms)..]); }
  }

  /** The greedy batches of a list number the ceilings of its run lengths over the size, added up. */
  lemma {:induction false} BatchCount(ms: seq<int>, k: nat)
    requires k > 0
    ensures |Batches(ms, k)| == BatchesFor(Runs(ms), k)
    decreases |ms|
  {
    if ms != [] {
      FirstBatchCounts(ms, k);
      BatchCount(AfterFirst(ms, k), k);
    }
  }

  /** A run inside the list that neither neighbour extends. */
  ghost predicate MaximalIn(b: Interval, ms: seq<int>) {
    && b.first <= b.last
    && (forall x :: b.Has(x) ==> x in ms)
    && b.first - 1 !in ms && b.last + 1 !in ms
  }

  lemma HeadRunIsMaximal(ms: seq<int>)
    requires Ascends(ms) && ms != []
    ensures MaximalIn(FirstBatch(ms, |ms|), ms)
  {
    FirstBatchSplits(ms, |ms|);
    FirstBatchIsFull(ms, |ms|);
  }

  /** A later run is maximal in the whole list: the leading run ends before it. */
  lemma LaterRunIsMaximal(ms: seq<int>, b: Interval)
    requires Ascends(ms) && ms != [] && MaximalIn(b, AfterFirst(ms, |ms|))
    ensures MaximalIn(b, ms)
  {
    var head := FirstBatch(ms, |ms|);
    FirstBatchSplits(ms, |ms|);
    HeadRunIsMaximal(ms);
    assert b.Has(b.first) && b.Has(b.last);
    assert head.last < b.first;
    assert b.first - 1 in ms ==> head.Has(b.first - 1);
    assert !head.Has(head.last + 1);
  }

  /** The runs hold the whole list, and each is maximal in it. */
  lemma {:induction false} RunsAreMaximal(ms: seq<int>)
    requires Ascends(ms)
    ensures forall b :: b in Runs(ms) ==> MaximalIn(b, ms)
    ensures forall x :: InIntervals(Runs(ms), x) <==> x in ms
    decreases |ms|
  {
    if ms != [] {
      var head, rest := FirstBatch(ms, |ms|), AfterFirst(ms, |ms|);
      FirstBatchSplits(ms, |ms|);
      HeadRunIsMaximal(ms);
      RunsAreMaximal(rest);
      assert Runs(ms) == [head] + Runs(rest);
      forall b | b in Runs(rest) ensures MaximalIn(b, ms) {
        LaterRunIsMaximal(ms, b);
      }
      forall x ensures InIntervals(Runs(ms), x) <==> x in ms {
        IntervalsPrepend(head, Runs(rest), x);
      }
    }
  }

  // ----- The length of a plan -----

  /** Over the ranges in turn, what the runs of each range's missing rounds take. */
  function PieceTotal(rs: seq<RoundRange>, missing: set<ObservationId>, k: nat): nat
    requires k > 0
  {
    if rs == [] then 0
    else PieceTotal(rs[..|rs| - 1], missing, k) + BatchesFor(Runs(AllMissing(rs[|rs| - 1], missing)), k)
  }

  lemma {:induction false} PlanRangesCount(rs: seq<RoundRange>, missing: set<ObservationId>, k: nat)
    requires k > 0
    ensures |PlanRanges(rs, missing, k)| == PieceTotal(rs, missing, k)
    decreases |rs|
  {
    if rs != [] {
      PlanRangesCount(rs[..|rs| - 1], missing, k);
      BatchCount(AllMissing(rs[|rs| - 1], missing), k);
    }
  }

  /** The same over the ranges of some feeds. */
  function PieceTotalOf(rs: seq<RoundRange>, feeds: seq<string>, missing: set<ObservationId>, k: nat): nat
    requires k > 0
  {
    if rs == [] then 0
    else
      var front, last := PieceTotalOf(rs[..|rs| - 1], feeds, missing, k), rs[|rs| - 1];
      front + if last.feed in feeds then BatchesFor(Runs(AllMissing(last, missing)), k) else 0
  }

  lemma {:induction false} PieceTotalConcat(a: seq<RoundRange>, b: seq<RoundRange>, missing: set<ObservationId>, k: nat)
    requires k > 0
    ensures PieceTotal(a + b, missing, k) == PieceTotal(a, missing, k) + PieceTotal(b, missing, k)
    decreases |b|
  {
    if b == [] {
      assert a + b == a;
    } else {
      assert (a + b)[..|a + b| - 1] == a + b[..|b| - 1];
      PieceTotalConcat(a, b[..|b| - 1], missing, k);
    }
  }

  lemma {:induction false} OneMoreFeed(rs: seq<RoundRange>, feeds: seq<string>, feed: string, missing: set<ObservationId>, k: nat)
    requires k > 0 && feed !in feeds
    ensures PieceTotalOf(rs, feeds + [feed], missing, k)
         == PieceTotalOf(rs, feeds, missing, k) + PieceTotal(RangesFor(rs, feed), missing, k)
    decreases |rs|
  {
    if rs != [] {
      var front, last := rs[..|rs| - 1], rs[|rs| - 1];
      OneMoreFeed(front, feeds, feed, missing, k);
      assert (RangesFor(front, feed) + [last])[..|RangesFor(front, feed)|] == RangesFor(front, feed);
    }
  }

  lemma {:induction false} NoFeeds(rs: seq<RoundRange>, missing: set<ObservationId>, k: nat)
    requires k > 0
    ensures PieceTotalOf(rs, [], missing, k) == 0
    decreases |rs|
  {
    if rs != [] { NoFeeds(rs[..|rs| - 1], missing, k); }
  }

  lemma {:induction false} AllFeeds(rs: seq<RoundRange>, feeds: seq<string>, missing: set<ObservationId>, k: nat)
    requires k > 0 && forall i :: 0 <= i < |rs| ==> rs[i].feed in feeds
    ensures PieceTotalOf(rs, feeds, missing, k) == PieceTotal(rs, missing, k)
    decreases |rs|
  {
    if rs != [] { AllFeeds(rs[..|rs| - 1], feeds, missing, k); }
  }

  lemma {:induction false} GroupedCount(rs: seq<RoundRange>, feeds: seq<string>, missing: set<ObservationId>, k: nat)
    requires k > 0 && Distinct(feeds)
    ensures PieceTotal(Grouped(rs, feeds), missing, k) == PieceTotalOf(rs, feeds, missing, k)
    decreases |feeds|
  {
    if feeds == [] {
      NoFeeds(rs, missing, k);
    } else {
      var front, last := feeds[..|feeds| - 1], feeds[|feeds| - 1];
      GroupedCount(rs, front, missing, k);
      PieceTotalConcat(Grouped(rs, front), RangesFor(rs, last), missing, k);
      OneMoreFeed(rs, front, last, missing, k);
      LastSplits(feeds);
    }
  }

  /** The required rounds no stored row carries. */
  function Unstored(rs: seq<RoundRange>, rows: seq<PersistedRow>): set<ObservationId> {
    Required(rs) - StoredIds(rows)
  }

  /**
   The plan takes, range by range and run by run of the range's missing rounds, the ceiling
   of the run's length over the batch size.
   */
  lemma {:induction false} PlanLength(rs: seq<RoundRange>, rows: seq<PersistedRow>, k: nat)
    requires k > 0 && AllValid(rs)
    ensures |MissingPlan(rs, rows, k)| == PieceTotal(rs, Unstored(rs, rows), k)
  {
    var feeds, missing := FeedsOf(rs), Unstored(rs, rows);
    PlanIsGlobal(rs, rows, k);
    FeedsAreDistinct(rs);
    PlanRangesCount(Grouped(rs, feeds), missing, k);
    GroupedCount(rs, feeds, missing, k);
    AllFeeds(rs, feeds, missing, k);
  }

  // ----- The runs of a feed phase, whatever the ranges -----

  function WholePhase(feed: string, phase: int): RoundRange {
    RoundRange(feed, phase, if phase == 0 then 1 else phase * PHASE, phase * PHASE + PHASE - 1)
  }

  /** The feed phases the ranges touch, each once. */
  function PhasesOf(rs: seq<RoundRange>): seq<RoundRange> {
    if rs == [] then []
    else
      var front, whole := PhasesOf(rs[..|rs| - 1]), WholePhase(rs[|rs| - 1].feed, rs[|rs| - 1].phase);
      if whole in front then front else front + [whole]
  }

  /** The missing rounds of whole feed phases, joined into runs across range ends. */
  function RunsOver(phases: seq<RoundRange>, missing: set<ObservationId>): seq<RoundRange> {
    if phases == [] then []
    else
      var last := phases[|phases| - 1];
      RunsOver(phases[..|phases| - 1], missing) + EncodedAll(last, Runs(AllMissing(last, missing)))
  }

  function JoinedRuns(rs: seq<RoundRange>, rows: seq<PersistedRow>): seq<RoundRange> {
    RunsOver(PhasesOf(rs), Unstored(rs, rows))
  }

  /** Rounds of one feed phase that are all missing while the next on either side is not. */
  ghost predicate MaximalRun(run: RoundRange, missing: set<ObservationId>) {
    && run.Valid()
    && (forall id :: HasId(run, id) ==> id in missing)
    && (run.start % PHASE == 0 || (run.feed, run.start - 1) !in missing)
    && (run.end % PHASE == ROUND_MASK || (run.feed, run.end + 1) !in missing)
  }

  ghost predicate IsWhole(w: RoundRange) {
    w.Valid() && w == WholePhase(w.feed, w.phase)
  }

  ghost predicate ValidIds(missing: set<ObservationId>) {
    forall id :: id in missing ==> id.1 > 0
  }

  lemma RoundOfPhase(phase: int, v: int)
    ensures 0 <= v < PHASE ==> (phase * PHASE + v) / PHASE == phase && (phase * PHASE + v) % PHASE == v
  {
  }

  /** What the list of a whole phase's missing rounds holds. */
  lemma PhaseMembers(w: RoundRange, missing: set<ObservationId>, v: int)
    requires IsWhole(w) && ValidIds(missing)
    ensures v in AllMissing(w, missing) <==> 0 <= v < PHASE && (w.feed, w.phase * PHASE + v) in missing
  {
    MissingMembers(w, missing, v);
  }

  lemma MaximalRunOf(w: RoundRange, missing: set<ObservationId>, b: Interval)
    requires IsWhole(w) && ValidIds(missing) && MaximalIn(b, AllMissing(w, missing))
    ensures MaximalRun(Encoded(w, b), missing)
  {
    var run := Encoded(w, b);
    assert b.Has(b.first) && b.Has(b.last);
    PhaseMembers(w, missing, b.first);
    PhaseMembers(w, missing, b.last);
    PhaseMembers(w, missing, b.first - 1);
    PhaseMembers(w, missing, b.last + 1);
    RoundOfPhase(w.phase, b.first);
    RoundOfPhase(w.phase, b.last);
    forall id | HasId(run, id) ensures id in missing {
      assert b.Has(id.1 - w.phase * PHASE);
      PhaseMembers(w, missing, id.1 - w.phase * PHASE);
    }
  }

  /** Two maximal runs that share a round are the same run. */
  lemma SharedRoundSameRun(a: RoundRange, b: RoundRange, missing: set<ObservationId>, id: ObservationId)
    requires MaximalRun(a, missing) && MaximalRun(b, missing) && HasId(a, id) && HasId(b, id)
    ensures a == b
  {
    OnePhase(a, id);
    OnePhase(b, id);
    assert HasId(a, (a.feed, b.start - 1)) || b.start <= a.start;
    assert HasId(b, (b.feed, a.start - 1)) || a.start <= b.start;
    assert HasId(a, (a.feed, b.end + 1)) || b.end >= a.end;
    assert HasId(b, (b.feed, a.end + 1)) || a.end >= b.end;
  }

  lemma JoinedRunIsMaximal(w: RoundRange, missing: set<ObservationId>, run: RoundRange)
    requires IsWhole(w) && ValidIds(missing) && run in EncodedAll(w, Runs(AllMissing(w, missing)))
    ensures MaximalRun(run, missing)
  {
    var ms := AllMissing(w, missing);
    RunsAreMaximal(ms);
    var i :| 0 <= i < |Runs(ms)| && run == Encoded(w, Runs(ms)[i]);
    assert Runs(ms)[i] in Runs(ms);
    MaximalRunOf(w, missing, Runs(ms)[i]);
  }

  lemma MaximalRunIsJoined(w: RoundRange, missing: set<ObservationId>, run: RoundRange)
    requires IsWhole(w) && ValidIds(missing) && MaximalRun(run, missing) && run.feed == w.feed && run.phase == w.phase
    ensures run in EncodedAll(w, Runs(AllMissing(w, missing)))
  {
    var ms, v, id := AllMissing(w, missing), run.start % PHASE, (run.feed, run.start);
    assert HasId(run, id) && id in missing;
    assert run.start == w.phase * PHASE + v;
    PhaseMembers(w, missing, v);
    RunsAreMaximal(ms);
    var i :| 0 <= i < |Runs(ms)| && Runs(ms)[i].Has(v);
    var other := EncodedAll(w, Runs(ms))[i];
    JoinedRunIsMaximal(w, missing, other);
    assert HasId(other, id);
    SharedRoundSameRun(run, other, missing, id);
  }

  ghost predicate AllWhole(phases: seq<RoundRange>) {
    forall i :: 0 <= i < |phases| ==> IsWhole(phases[i])
  }

  /** The joined runs are the maximal runs of the phases. */
  lemma {:induction false} RunsOverAreMaximal(phases: seq<RoundRange>, missing: set<ObservationId>, run: RoundRange)
    requires AllWhole(phases) && ValidIds(missing)
    ensures run in RunsOver(phases, missing) <==> MaximalRun(run, missing) && WholePhase(run.feed, run.phase) in phases
    decreases |phases|
  {
    if phases != [] {
      var front, last := phases[..|phases| - 1], phases[|phases| - 1];
      var runs := EncodedAll(last, Runs(AllMissing(last, missing)));
      RunsOverAreMaximal(front, missing, run);
      LastSplits(phases);
      if run in runs { JoinedRunIsMaximal(last, missing, run); }
      if MaximalRun(run, missing) && WholePhase(run.feed, run.phase) == last { MaximalRunIsJoined(last, missing, run); }
    }
  }

  lemma WholeIsValid(r: RoundRange)
    requires r.Valid()
    ensures IsWhole(WholePhase(r.feed, r.phase))
  {
  }

  lemma {:induction false} PhasesAreWhole(rs: seq<RoundRange>)
    requires AllValid(rs)
    ensures AllWhole(PhasesOf(rs)) && Distinct(PhasesOf(rs)) && AllValid(PhasesOf(rs))
    ensures forall r :: r in rs ==> WholePhase(r.feed, r.phase) in PhasesOf(rs)
    decreases |rs|
  {
    if rs != [] {
      PhasesAreWhole(rs[..|rs| - 1]);
      WholeIsValid(rs[|rs| - 1]);
      LastSplits(rs);
    }
  }

  // ----- Runs cut by ranges -----

  /** How many rounds a range and a run have in common. */
  function Shared(r: RoundRange, run: RoundRange): nat {
    var first := if r.start < run.start then run.start else r.start;
    var last := if r.end < run.end then r.end else run.end;
    if r.feed == run.feed && r.phase == run.phase && first <= last then last - first + 1 else 0
  }

  function Size(run: RoundRange): nat { if run.start <= run.end then run.end - run.start + 1 else 0 }

  /** What a run takes when each range batches its own piece of it. */
  function CutCost(rs: seq<RoundRange>, run: RoundRange, k: nat): nat
    requires k > 0
  {
    if rs == [] then 0 else CutCost(rs[..|rs| - 1], run, k) + CeilDiv(Shared(rs[|rs| - 1], run), k)
  }

  /** What the runs take when none is cut. */
  function RunTotal(runs: seq<RoundRange>, k: nat): nat
    requires k > 0
  {
    if runs == [] then 0 else CeilDiv(Size(runs[0]), k) + RunTotal(runs[1..], k)
  }

  function CutTotal(runs: seq<RoundRange>, rs: seq<RoundRange>, k: nat): nat
    requires k > 0
  {
    if runs == [] then 0 else CutCost(rs, runs[0], k) + CutTotal(runs[1..], rs, k)
  }

  /** What one range spends on its pieces of the runs. */
  function SharedTotal(runs: seq<RoundRange>, r: RoundRange, k: nat): nat
    requires k > 0
  {
    if runs == [] then 0 else CeilDiv(Shared(r, runs[0]), k) + SharedTotal(runs[1..], r, k)
  }

  lemma {:induction false} RunTotalConcat(a: seq<RoundRange>, b: seq<RoundRange>, k: nat)
    requires k > 0
    ensures RunTotal(a + b, k) == RunTotal(a, k) + RunTotal(b, k)
    decreases |a|
  {
    if a == [] {
      assert a + b == b;
    } else {
      assert (a + b)[1..] == a[1..] + b;
      RunTotalConcat(a[1..], b, k);
    }
  }

  lemma {:induction false} SharedTotalConcat(a: seq<RoundRange>, b: seq<RoundRange>, r: RoundRange, k: nat)
    requires k > 0
    ensures SharedTotal(a + b, r, k) == SharedTotal(a, r, k) + SharedTotal(b, r, k)
    decreases |a|
  {
    if a == [] {
      assert a + b == b;
    } else {
      assert (a + b)[1..] == a[1..] + b;
      SharedTotalConcat(a[1..], b, r, k);
    }
  }

  lemma {:induction false} OneMoreRange(runs: seq<RoundRange>, rs: seq<RoundRange>, k: nat)
    requires k > 0 && rs != []
    ensures CutTotal(runs, rs, k) == CutTotal(runs, rs[..|rs| - 1], k) + SharedTotal(runs, rs[|rs| - 1], k)
    decreases |runs|
  {
    if runs != [] { OneMoreRange(runs[1..], rs, k); }
  }

  lemma {:induction false} NothingCut(runs: seq<RoundRange>, k: nat)
    requires k > 0
    ensures CutTotal(runs, [], k) == 0
    decreases |runs|
  {
    if runs != [] { NothingCut(runs[1..], k); }
  }

  function LeadingRun(ms: seq<int>): Interval
    requires ms != []
  {
    Interval(ms[0], ms[Lead(ms) - 1])
  }

  /** How many rounds of an interval lie from `lo` to `hi`. */
  function Between(b: Interval, lo: int, hi: int): nat {
    var first := if lo < b.first then b.first else lo;
    var last := if hi < b.last then hi else b.last;
    if first <= last then last - first + 1 else 0
  }

  /** `sub` is the part of `ms` from `lo` to `hi`. */
  ghost predicate PartOf(sub: seq<int>, ms: seq<int>, lo: int, hi: int) {
    Ascends(sub) && forall x :: x in sub <==> x in ms && lo <= x <= hi
  }

  lemma LeadSplits(ms: seq<int>)
    requires Ascends(ms) && ms != []
    ensures Ascends(ms[Lead(ms)..])
    ensures MaximalIn(Interval(ms[0], ms[Lead(ms) - 1]), ms)
    ensures forall x :: x in ms <==> ms[0] <= x <= ms[Lead(ms) - 1] || x in ms[Lead(ms)..]
    ensures forall x :: x in ms[Lead(ms)..] ==> ms[Lead(ms) - 1] < x
  {
    FirstBatchSplits(ms, |ms|);
    HeadRunIsMaximal(ms);
    assert forall x :: FirstBatch(ms, |ms|).Has(x) <==> ms[0] <= x <= ms[Lead(ms) - 1];
  }

  /** A part that misses the leading run is a part of the rest. */
  lemma LeadOutside(ms: seq<int>, sub: seq<int>, lo: int, hi: int)
    requires Ascends(ms) && ms != [] && PartOf(sub, ms, lo, hi)
    requires ms[Lead(ms) - 1] < lo || hi < ms[0]
    ensures PartOf(sub, ms[Lead(ms)..], lo, hi)
  {
    LeadSplits(ms);
  }

  /** Otherwise its leading run is its piece of that run. */
  lemma LeadPiece(ms: seq<int>, sub: seq<int>, lo: int, hi: int, p: int, q: int)
    requires Ascends(ms) && ms != [] && PartOf(sub, ms, lo, hi)
    requires p == (if ms[0] < lo then lo else ms[0]) && q == (if hi < ms[Lead(ms) - 1] then hi else ms[Lead(ms) - 1]) && p <= q
    ensures sub != [] && Lead(sub) == q - p + 1 && PartOf(sub[Lead(sub)..], ms[Lead(ms)..], lo, hi)
  {
    LeadSplits(ms);
    assert p in sub && q in sub;
    LeadSplits(sub);
    LeadRun(sub);
    assert sub[0] in sub && sub[0] == p;
    var l := sub[Lead(sub) - 1];
    assert forall x :: p <= x <= q ==> x in sub;
    assert l + 1 !in sub && q + 1 !in sub;
    assert l == q;
  }

  /** The part begins with its share of the leading run, if it has one; the remainder is a part of the rest. */
  lemma AfterLead(ms: seq<int>, sub: seq<int>, lo: int, hi: int) returns (left: seq<int>)
    requires Ascends(ms) && ms != [] && lo <= hi && PartOf(sub, ms, lo, hi)
    ensures PartOf(left, ms[Lead(ms)..], lo, hi)
    ensures var share := Between(LeadingRun(ms), lo, hi);
      if share == 0 then left == sub else sub != [] && Lead(sub) == share && left == sub[share..]
  {
    var b := LeadingRun(ms);
    LeadRun(ms);
    if b.last < lo || hi < b.first {
      LeadOutside(ms, sub, lo, hi);
      left := sub;
    } else {
      LeadPiece(ms, sub, lo, hi, if b.first < lo then lo else b.first, if hi < b.last then hi else b.last);
      left := sub[Lead(sub)..];
    }
  }

  lemma LeadShare(ms: seq<int>, sub: seq<int>, lo: int, hi: int, k: nat) returns (left: seq<int>)
    requires k > 0 && Ascends(ms) && ms != [] && lo <= hi && PartOf(sub, ms, lo, hi)
    ensures PartOf(left, ms[Lead(ms)..], lo, hi)
    ensures BatchesFor(Runs(sub), k) == CeilDiv(Between(LeadingRun(ms), lo, hi), k) + BatchesFor(Runs(left), k)
  {
    left := AfterLead(ms, sub, lo, hi);
    if Between(LeadingRun(ms), lo, hi) > 0 { RunsCount(sub, k); }
  }

  /** The runs of a range's missing rounds are its pieces of the runs of its whole phase. */
  lemma {:induction false} PiecesOfRuns(r: RoundRange, ms: seq<int>, sub: seq<int>, k: nat)
    requires k > 0 && r.Valid() && Ascends(ms) && PartOf(sub, ms, r.start % PHASE, r.end % PHASE)
    ensures BatchesFor(Runs(sub), k) == SharedTotal(EncodedAll(r, Runs(ms)), r, k)
    decreases |ms|
  {
    if ms == [] {
      assert sub == [] by { HeadIsIn(sub); }
    } else {
      var rest := ms[Lead(ms)..];
      var left := LeadShare(ms, sub, r.start % PHASE, r.end % PHASE, k);
      LeadSplits(ms);
      LeadRun(ms);
      PiecesOfRuns(r, rest, left, k);
      SharedTotalStep(r, LeadingRun(ms), Runs(rest), k);
      SharedWithRun(r, LeadingRun(ms));
    }
  }

  lemma {:induction false} SharedTotalStep(r: RoundRange, b: Interval, rest: seq<Interval>, k: nat)
    requires k > 0
    ensures SharedTotal(EncodedAll(r, [b] + rest), r, k)
         == CeilDiv(Shared(r, Encoded(r, b)), k) + SharedTotal(EncodedAll(r, rest), r, k)
  {
    assert EncodedAll(r, [b] + rest)[1..] == EncodedAll(r, rest);
  }

  lemma SharedWithRun(r: RoundRange, b: Interval)
    requires r.Valid()
    ensures Shared(r, Encoded(r, b)) == Between(b, r.start % PHASE, r.end % PHASE)
  {
    assert r.start == r.phase * PHASE + r.start % PHASE && r.end == r.phase * PHASE + r.end % PHASE;
  }

  /** A run of another feed phase shares nothing with the range. */
  lemma {:induction false} OtherPhaseSharesNothing(w: RoundRange, bs: seq<Interval>, r: RoundRange, k: nat)
    requires k > 0 && (w.feed != r.feed || w.phase != r.phase)
    ensures SharedTotal(EncodedAll(w, bs), r, k) == 0
    decreases |bs|
  {
    if bs != [] {
      OtherPhaseSharesNothing(w, bs[1..], r, k);
      assert EncodedAll(w, bs)[1..] == EncodedAll(w, bs[1..]);
    }
  }

  lemma RangeMembers(w: RoundRange, r: RoundRange, missing: set<ObservationId>, v: int)
    requires r.Valid() && IsWhole(w) && ValidIds(missing) && w.feed == r.feed && w.phase == r.phase
    ensures v in AllMissing(r, missing) <==> v in AllMissing(w, missing) && r.start % PHASE <= v <= r.end % PHASE
  {
    PhaseMembers(w, missing, v);
  }

  lemma RangeIsPart(w: RoundRange, r: RoundRange, missing: set<ObservationId>)
    requires r.Valid() && IsWhole(w) && ValidIds(missing) && w.feed == r.feed && w.phase == r.phase
    ensures PartOf(AllMissing(r, missing), AllMissing(w, missing), r.start % PHASE, r.end % PHASE)
  {
    forall x ensures x in AllMissing(r, missing) <==> x in AllMissing(w, missing) && r.start % PHASE <= x <= r.end % PHASE {
      RangeMembers(w, r, missing, x);
    }
  }

  lemma SameEncoding(w: RoundRange, r: RoundRange, bs: seq<Interval>)
    requires w.feed == r.feed && w.phase == r.phase
    ensures EncodedAll(w, bs) == EncodedAll(r, bs)
  {
  }

  lemma {:induction false} OwnPhaseShares(w: RoundRange, r: RoundRange, missing: set<ObservationId>, k: nat)
    requires k > 0 && r.Valid() && IsWhole(w) && ValidIds(missing) && w.feed == r.feed && w.phase == r.phase
    ensures SharedTotal(EncodedAll(w, Runs(AllMissing(w, missing))), r, k) == BatchesFor(Runs(AllMissing(r, missing)), k)
  {
    RangeIsPart(w, r, missing);
    PiecesOfRuns(r, AllMissing(w, missing), AllMissing(r, missing), k);
    SameEncoding(w, r, Runs(AllMissing(w, missing)));
  }

  /** A range's missing rounds take what its pieces of the joined runs take. */
  lemma {:induction false} PiecesOfPhases(phases: seq<RoundRange>, r: RoundRange, missing: set<ObservationId>, k: nat)
    requires k > 0 && r.Valid() && AllWhole(phases) && Distinct(phases) && ValidIds(missing)
    ensures SharedTotal(RunsOver(phases, missing), r, k)
         == if WholePhase(r.feed, r.phase) in phases then BatchesFor(Runs(AllMissing(r, missing)), k) else 0
    decreases |phases|
  {
    if phases != [] {
      var front, last := phases[..|phases| - 1], phases[|phases| - 1];
      var runs := EncodedAll(last, Runs(AllMissing(last, missing)));
      PiecesOfPhases(front, r, missing, k);
      SharedTotalConcat(RunsOver(front, missing), runs, r, k);
      LastSplits(phases);
      if last == WholePhase(r.feed, r.phase) {
        OwnPhaseShares(last, r, missing, k);
      } else {
        OtherPhaseSharesNothing(last, Runs(AllMissing(last, missing)), r, k);
      }
    }
  }

  lemma {:induction false} PiecesOfRanges(phases: seq<RoundRange>, rs: seq<RoundRange>, missing: set<ObservationId>, k: nat)
    requires k > 0 && AllValid(rs) && AllWhole(phases) && Distinct(phases) && ValidIds(missing)
    requires forall r :: r in rs ==> WholePhase(r.feed, r.phase) in phases
    ensures PieceTotal(rs, missing, k) == CutTotal(RunsOver(phases, missing), rs, k)
    decreases |rs|
  {
    var runs := RunsOver(phases, missing);
    if rs == [] {
      NothingCut(runs, k);
    } else {
      PiecesOfRanges(phases, rs[..|rs| - 1], missing, k);
      PiecesOfPhases(phases, rs[|rs| - 1], missing, k);
      OneMoreRange(runs, rs, k);
    }
  }

  /** The whole phases take what their runs take uncut. */
  lemma {:induction false} PhasesTakeRuns(phases: seq<RoundRange>, missing: set<ObservationId>, k: nat)
    requires k > 0
    ensures PieceTotal(phases, missing, k) == RunTotal(RunsOver(phases, missing), k)
    decreases |phases|
  {
    if phases != [] {
      var front, last := phases[..|phases| - 1], phases[|phases| - 1];
      PhasesTakeRuns(front, missing, k);
      RunTotalConcat(RunsOver(front, missing), EncodedAll(last, Runs(AllMissing(last, missing))), k);
      EncodedTake(last, Runs(AllMissing(last, missing)), k);
    }
  }

  lemma {:induction false} EncodedTake(r: RoundRange, bs: seq<Interval>, k: nat)
    requires k > 0
    ensures RunTotal(EncodedAll(r, bs), k) == BatchesFor(bs, k)
    decreases |bs|
  {
    if bs != [] {
      EncodedTake(r, bs[1..], k);
      assert EncodedAll(r, bs)[1..] == EncodedAll(r, bs[1..]);
    }
  }

  // ----- Cutting never saves a batch -----

  lemma SharedCount(r: RoundRange, run: RoundRange)
    requires r.Valid() && run.Valid()
    ensures |Required([run]) * Required([r])| == Shared(r, run)
  {
    var first := if r.start < run.start then run.start else r.start;
    var last := if r.end < run.end then r.end else run.end;
    var both, common := Required([run]) * Required([r]), RoundRange(r.feed, r.phase, first, last);
    forall id ensures id in both <==> HasId(r, id) && HasId(run, id) {
      assert [r][0] == r && [run][0] == run;
    }
    if Shared(r, run) > 0 {
      RangeIdCount(common, both);
    } else {
      forall id | HasId(r, id) ensures !HasId(run, id) {
        OnePhase(r, id);
        OnePhase(run, id);
      }
      assert both == {};
    }
  }

  lemma HeldSplits(rs: seq<RoundRange>, mine: set<ObservationId>)
    requires rs != []
    ensures mine * Required(rs) == mine * Required(rs[..|rs| - 1]) + mine * Required([rs[|rs| - 1]])
  {
    LastSplits(rs);
    forall id ensures id in Required(rs) <==> id in Required(rs[..|rs| - 1]) || id in Required([rs[|rs| - 1]]) {
      HoldsConcat(rs[..|rs| - 1], [rs[|rs| - 1]], id);
    }
  }

  lemma {:induction false} CeilDivOfUnion<T>(a: set<T>, b: set<T>, k: nat)
    requires k > 0
    ensures CeilDiv(|a + b|, k) <= CeilDiv(|a|, k) + CeilDiv(|b|, k)
  {
    CeilDivIsMonotone(|a + b|, |a| + |b|, k);
    CeilDivJoins(|a|, |b|, k);
  }

  /** The pieces of a run take at least what the rounds they hold take together. */
  lemma {:induction false} CutsAddUp(rs: seq<RoundRange>, run: RoundRange, k: nat)
    requires k > 0 && AllValid(rs) && run.Valid()
    ensures CeilDiv(|Required([run]) * Required(rs)|, k) <= CutCost(rs, run, k)
    decreases |rs|
  {
    var mine := Required([run]);
    if rs == [] {
      assert mine * Required(rs) == {};
    } else {
      var front, last := rs[..|rs| - 1], rs[|rs| - 1];
      CutsAddUp(front, run, k);
      SharedCount(last, run);
      HeldSplits(rs, mine);
      CeilDivOfUnion(mine * Required(front), mine * Required([last]), k);
    }
  }

  lemma RunIdCount(run: RoundRange)
    requires run.Valid()
    ensures |Required([run])| == Size(run)
  {
    forall id ensures id in Required([run]) <==> HasId(run, id) {
      assert [run][0] == run;
    }
    assert run.start <= run.end;
    RangeIdCount(run, Required([run]));
  }

  lemma RunIsRequired(rs: seq<RoundRange>, run: RoundRange, missing: set<ObservationId>)
    requires MaximalRun(run, missing) && missing <= Required(rs)
    ensures Required([run]) * Required(rs) == Required([run])
  {
    forall id | id in Required([run]) ensures id in Required(rs) {
      assert HasId(run, id) && id in missing;
    }
  }

  lemma {:induction false} RunIsHeld(rs: seq<RoundRange>, run: RoundRange, missing: set<ObservationId>, k: nat)
    requires k > 0 && AllValid(rs) && MaximalRun(run, missing) && missing <= Required(rs)
    ensures CeilDiv(Size(run), k) <= CutCost(rs, run, k)
  {
    RunIdCount(run);
    RunIsRequired(rs, run, missing);
    CutsAddUp(rs, run, k);
  }

  /** Cut runs take at least what whole ones take, and just as many only if no run takes more. */
  lemma {:induction false} CutTotalIsMore(runs: seq<RoundRange>, rs: seq<RoundRange>, missing: set<ObservationId>, k: nat)
    requires k > 0 && AllValid(rs) && missing <= Required(rs) && forall run :: run in runs ==> MaximalRun(run, missing)
    ensures RunTotal(runs, k) <= CutTotal(runs, rs, k)
    ensures RunTotal(runs, k) == CutTotal(runs, rs, k)
       <==> forall run :: run in runs ==> CutCost(rs, run, k) == CeilDiv(Size(run), k)
    decreases |runs|
  {
    if runs != [] {
      assert runs == [runs[0]] + runs[1..];
      RunIsHeld(rs, runs[0], missing, k);
      CutTotalIsMore(runs[1..], rs, missing, k);
    }
  }

  // ----- The fewest batches -----

  ghost predicate FewestFor(n: nat, rs: seq<RoundRange>, rows: seq<PersistedRow>, k: nat) {
    forall cover :: CoversUnstored(cover, rs, rows, k) ==> n <= |cover|
  }

  lemma PhasesNeverTouch(phases: seq<RoundRange>)
    requires AllWhole(phases) && Distinct(phases)
    ensures NeverTouching(phases)
  {
  }

  lemma UnstoredIs(rs: seq<RoundRange>, rows: seq<PersistedRow>, id: ObservationId)
    ensures id in Unstored(rs, rows) <==> Holds(rs, id) && !Observed(rows, id)
  {
    StoredIdsAreObserved(rows, id);
  }

  lemma UnstoredAreValid(rs: seq<RoundRange>, rows: seq<PersistedRow>)
    requires AllValid(rs)
    ensures ValidIds(Unstored(rs, rows)) && Unstored(rs, rows) <= Required(rs)
  {
  }

  lemma {:induction false} PhasesHoldUnstored(rs: seq<RoundRange>, rows: seq<PersistedRow>, id: ObservationId)
    requires AllValid(rs) && id in Unstored(rs, rows)
    ensures Holds(PhasesOf(rs), id)
  {
    var i :| 0 <= i < |rs| && HasId(rs[i], id);
    var whole := WholePhase(rs[i].feed, rs[i].phase);
    PhasesAreWhole(rs);
    OnePhase(rs[i], id);
    assert whole in PhasesOf(rs);
    InListHolds(PhasesOf(rs), whole, id);
  }

  lemma DistinctPrepend<T>(head: T, tail: seq<T>)
    requires Distinct(tail) && head !in tail
    ensures Distinct([head] + tail)
  {
  }

  lemma {:induction false} RunsAreDistinct(ms: seq<int>)
    requires Ascends(ms)
    ensures Distinct(Runs(ms))
    decreases |ms|
  {
    if ms != [] {
      var head, rest := Interval(ms[0], ms[Lead(ms) - 1]), ms[Lead(ms)..];
      LeadSplits(ms);
      RunsAreDistinct(rest);
      RunsAreMaximal(rest);
      forall b | b in Runs(rest) ensures b.first in rest {
        assert MaximalIn(b, rest) && b.Has(b.first);
      }
      DistinctPrepend(head, Runs(rest));
    }
  }

  lemma {:induction false} RunsOverAreDistinct(phases: seq<RoundRange>, missing: set<ObservationId>)
    requires AllWhole(phases) && Distinct(phases)
    ensures Distinct(RunsOver(phases, missing))
    ensures forall run :: run in RunsOver(phases, missing) ==> WholePhase(run.feed, run.phase) in phases
    decreases |phases|
  {
    if phases != [] {
      var front, last := phases[..|phases| - 1], phases[|phases| - 1];
      RunsOverAreDistinct(front, missing);
      RunsAreDistinct(AllMissing(last, missing));
      EncodedDistinct(last, Runs(AllMissing(last, missing)));
      LastSplits(phases);
    }
  }

  lemma EncodedDistinct(r: RoundRange, bs: seq<Interval>)
    requires Distinct(bs)
    ensures Distinct(EncodedAll(r, bs))
  {
    forall i, j | 0 <= i < j < |bs| ensures EncodedAll(r, bs)[i] != EncodedAll(r, bs)[j] {
      assert bs[i] != bs[j];
    }
  }

  /** The joined runs are the maximal runs of missing rounds, each once. */
  lemma JoinedRunsAreMaximal(rs: seq<RoundRange>, rows: seq<PersistedRow>)
    requires AllValid(rs)
    ensures Distinct(JoinedRuns(rs, rows))
    ensures forall run :: run in JoinedRuns(rs, rows) <==> MaximalRun(run, Unstored(rs, rows))
  {
    PhasesAreWhole(rs);
    UnstoredAreValid(rs, rows);
    RunsOverAreDistinct(PhasesOf(rs), Unstored(rs, rows));
    forall run ensures run in JoinedRuns(rs, rows) <==> MaximalRun(run, Unstored(rs, rows)) {
      RunsOverAreMaximal(PhasesOf(rs), Unstored(rs, rows), run);
      if MaximalRun(run, Unstored(rs, rows)) { RunLiesInPhase(rs, rows, run); }
    }
  }

  lemma {:induction false} RunLiesInPhase(rs: seq<RoundRange>, rows: seq<PersistedRow>, run: RoundRange)
    requires AllValid(rs) && MaximalRun(run, Unstored(rs, rows))
    ensures WholePhase(run.feed, run.phase) in PhasesOf(rs)
  {
    var id := (run.feed, run.start);
    assert HasId(run, id) && id in Unstored(rs, rows);
    OnePhase(run, id);
    PhasesAreWhole(rs);
    var i :| 0 <= i < |rs| && HasId(rs[i], id);
    OnePhase(rs[i], id);
    assert rs[i] in rs;
  }

  /** Batching the joined runs covers what is missing, in legal batches. */
  lemma {:induction false} PhasePlanCovers(rs: seq<RoundRange>, rows: seq<PersistedRow>, k: nat)
    requires k > 0 && AllValid(rs)
    ensures CoversUnstored(PlanRanges(PhasesOf(rs), Unstored(rs, rows), k), rs, rows, k)
  {
    var phases, missing := PhasesOf(rs), Unstored(rs, rows);
    PhasesAreWhole(rs);
    PhasesNeverTouch(phases);
    NeverTouchingIsDisjoint(phases);
    PlanIsDisjoint(phases, missing, k);
    forall id ensures Holds(PlanRanges(phases, missing, k), id) <==> Holds(rs, id) && !Observed(rows, id) {
      PlanHoldsTheMissing(phases, missing, k, id);
      UnstoredIs(rs, rows, id);
      if id in missing { PhasesHoldUnstored(rs, rows, id); }
    }
  }

  lemma {:induction false} CoverIsPhaseCover(rs: seq<RoundRange>, rows: seq<PersistedRow>, k: nat, cover: seq<RoundRange>)
    requires k > 0 && AllValid(rs) && CoversUnstored(cover, rs, rows, k)
    ensures |PlanRanges(PhasesOf(rs), Unstored(rs, rows), k)| <= |cover|
  {
    var phases, missing := PhasesOf(rs), Unstored(rs, rows);
    PhasesAreWhole(rs);
    PhasesNeverTouch(phases);
    forall id ensures Holds(cover, id) <==> Holds(phases, id) && id in missing {
      UnstoredIs(rs, rows, id);
      if id in missing { PhasesHoldUnstored(rs, rows, id); }
    }
    PlanRangesAreFewest(phases, missing, k, cover);
  }

  /**
   The fewest legal batches of at most `k` rounds that hold exactly the missing rounds: over
   their maximal runs, the ceilings of the run lengths over `k`, added up.
   */
  lemma {:induction false} FewestIsRunTotal(rs: seq<RoundRange>, rows: seq<PersistedRow>, k: nat, n: nat)
    requires k > 0 && AllValid(rs)
    ensures FewestFor(n, rs, rows, k) <==> n <= RunTotal(JoinedRuns(rs, rows), k)
  {
    var phases, missing := PhasesOf(rs), Unstored(rs, rows);
    PlanRangesCount(phases, missing, k);
    PhasesTakeRuns(phases, missing, k);
    PhasePlanCovers(rs, rows, k);
    forall cover | CoversUnstored(cover, rs, rows, k) ensures |PlanRanges(phases, missing, k)| <= |cover| {
      CoverIsPhaseCover(rs, rows, k, cover);
    }
  }

  /** No maximal run of missing rounds takes more batches for being cut where ranges end. */
  ghost predicate CutsCostNothing(rs: seq<RoundRange>, missing: set<ObservationId>, k: nat)
    requires k > 0
  {
    forall run :: MaximalRun(run, missing) ==> CutCost(rs, run, k) == CeilDiv(Size(run), k)
  }

  /**
   The plan is a shortest one exactly when, for every maximal run of missing rounds of a feed
   phase, the ceilings over `k` of the lengths of the pieces the ranges cut it into add up to
   the ceiling over `k` of its whole length.
   */
  lemma PlanIsFewestIff(rs: seq<RoundRange>, rows: seq<PersistedRow>, k: nat)
    requires k > 0 && AllValid(rs)
    ensures FewestFor(|MissingPlan(rs, rows, k)|, rs, rows, k) <==> CutsCostNothing(rs, Unstored(rs, rows), k)
  {
    var runs, missing := JoinedRuns(rs, rows), Unstored(rs, rows);
    PlanLength(rs, rows, k);
    PhasesAreWhole(rs);
    UnstoredAreValid(rs, rows);
    PiecesOfRanges(PhasesOf(rs), rs, missing, k);
    FewestIsRunTotal(rs, rows, k, |MissingPlan(rs, rows, k)|);
    JoinedRunsAreMaximal(rs, rows);
    CutTotalIsMore(runs, rs, missing, k);
  }
}
