/** Proxy round ids and phase-aware planning. */
module ChainlinkRounds {
  // Composite proxy round ids and phase-aware forward planning
  // (backfill/chainlink.py, orchestration/chainlink_forward.py). The shift-and-or encoding is
  // written as multiplication and addition, which agree because the low part fits 64 bits.

  import opened Wrappers

  const PHASE: int := 0x1_0000_0000_0000_0000
  const ROUND_MASK: int := 0xFFFF_FFFF_FFFF_FFFF
  const PHASE_LIMIT: int := 0x1_0000

  datatype RoundError = BadPhase | BadRound | BadRoundId | Regressed | RpcFailed | TooManyRounds | BadStates

  function Encode(phase: int, round: int): Result<int, RoundError> {
    if !(0 < phase < PHASE_LIMIT) then Failure(BadPhase)
    else if !(0 < round <= ROUND_MASK) then Failure(BadRound)
    else Success(phase * PHASE + round)
  }

  function Split(id: int): Result<(int, int), RoundError> {
    if id <= 0 then Failure(BadRoundId) else Success((id / PHASE, id % PHASE))
  }

  /** Splitting undoes encoding. */
  lemma SplitOfEncode(phase: int, round: int)
    requires Encode(phase, round).Success?
    ensures Split(Encode(phase, round).value) == Success((phase, round))
  {
    var id := phase * PHASE + round;
    assert id / PHASE == phase && id % PHASE == round;
  }

  /** Encoding undoes splitting exactly for ids with a 16-bit phase and a positive round. */
  lemma EncodeOfSplit(id: int)
    requires Split(id).Success?
    ensures var (p, r) := Split(id).value;
      Encode(p, r) == Success(id) <==> 0 < p < PHASE_LIMIT && 0 < r
  {
    assert id == id / PHASE * PHASE + id % PHASE;
  }

  /** Ids are ordered as (phase, round) pairs, so a cursor never mixes phases up. */
  lemma EncodeIsMonotone(p1: int, r1: int, p2: int, r2: int)
    requires Encode(p1, r1).Success? && Encode(p2, r2).Success?
    ensures Encode(p1, r1).value < Encode(p2, r2).value <==> p1 < p2 || (p1 == p2 && r1 < r2)
  {
  }

  /** A contiguous range inside one phase of one feed. */
  datatype RoundRange = RoundRange(feed: string, phase: int, start: int, end: int) {
    /** What the constructor enforces. */
    predicate Valid() {
      && Split(start).Success? && Split(end).Success?
      && Split(start).value.0 == phase && Split(end).value.0 == phase
      && Split(start).value.1 <= Split(end).value.1
    }
  }

  /** The constructor takes the ordered pairs of positive ids that lie in the given phase. */
  lemma ValidIff(r: RoundRange)
    ensures r.Valid() <==> 0 < r.start <= r.end && r.phase * PHASE <= r.start && r.end < (r.phase + 1) * PHASE
  {
    assert r.start == r.start / PHASE * PHASE + r.start % PHASE && r.end == r.end / PHASE * PHASE + r.end % PHASE;
  }

  /** An observation is identified by its feed, which stands for chain and lower-cased address, and round id. */
  type ObservationId = (string, int)

  predicate AllValid(rs: seq<RoundRange>) {
    forall i :: 0 <= i < |rs| ==> rs[i].Valid()
  }

  predicate HasId(r: RoundRange, id: ObservationId) {
    r.feed == id.0 && r.start <= id.1 <= r.end
  }

  ghost predicate Holds(rs: seq<RoundRange>, id: ObservationId) {
    exists i :: 0 <= i < |rs| && HasId(rs[i], id)
  }

  predicate ApartFrom(a: RoundRange, b: RoundRange) {
    a.feed != b.feed || a.end < b.start || b.end < a.start
  }

  ghost predicate Disjoint(rs: seq<RoundRange>) {
    forall i, j :: 0 <= i < j < |rs| ==> ApartFrom(rs[i], rs[j])
  }

  lemma HoldsConcat(a: seq<RoundRange>, b: seq<RoundRange>, id: ObservationId)
    ensures Holds(a + b, id) <==> Holds(a, id) || Holds(b, id)
  {
    if Holds(a, id) {
      var i :| 0 <= i < |a| && HasId(a[i], id);
      assert (a + b)[i] == a[i];
    }
    if Holds(b, id) {
      var i :| 0 <= i < |b| && HasId(b[i], id);
      assert (a + b)[|a| + i] == b[i];
    }
  }

  ghost predicate InRanges(rs: seq<RoundRange>, id: int) {
    exists i :: 0 <= i < |rs| && rs[i].start <= id <= rs[i].end
  }

  /** Latest round of each phase; a call may fail. */
  type PhaseOracle = int -> Option<int>

  /** The rounds of one phase that lie after the cursor and not after the target. */
  function PhaseBounds(cursor: (int, int), target: (int, int), latest: PhaseOracle, phase: int): Option<(int, int)> {
    var first := if phase == cursor.0 then cursor.1 + 1 else 1;
    if phase == target.0 then Some((first, target.1))
    else match latest(phase) case None => None case Some(last) => Some((first, last))
  }

  /** A phase can be planned: its bounds are known and, unless empty, encode. */
  predicate PhaseOk(cursor: (int, int), target: (int, int), latest: PhaseOracle, phase: int) {
    match PhaseBounds(cursor, target, latest, phase)
    case None => false
    case Some((first, last)) => first <= last ==> Encode(phase, first).Success? && Encode(phase, last).Success?
  }

  ghost predicate PhasesOk(cursor: (int, int), target: (int, int), latest: PhaseOracle, nextPhase: int) {
    forall p :: cursor.0 <= p < nextPhase ==> PhaseOk(cursor, target, latest, p)
  }

  /** The ranges of the phases from the cursor's up to `nextPhase`, empty phases skipped. */
  function PlannedRanges(feed: string, cursor: (int, int), target: (int, int), latest: PhaseOracle, nextPhase: int): seq<RoundRange>
    decreases nextPhase - cursor.0
  {
    if nextPhase <= cursor.0 then []
    else
      var p := nextPhase - 1;
      var rest := PlannedRanges(feed, cursor, target, latest, p);
      match PhaseBounds(cursor, target, latest, p)
      case None => rest
      case Some((first, last)) =>
        if first <= last then rest + [RoundRange(feed, p, p * PHASE + first, p * PHASE + last)] else rest
  }

  /** The phase after the last one a plan has to look at. */
  function EndPhase(targetId: int, cursorId: int): int {
    if targetId == cursorId then cursorId / PHASE else targetId / PHASE + 1
  }

  /**
   Nothing stops the planning of one phase: its latest round is known, unless it is the target's,
   and when it has rounds after the cursor, the first and last of them fit a proxy id.
   */
  ghost predicate PhaseFits(cursorId: int, targetId: int, latest: PhaseOracle, p: int) {
    var known := if p == targetId / PHASE then Some(targetId % PHASE) else latest(p);
    known.Some?
    && ((if p == cursorId / PHASE then cursorId % PHASE < known.value else 0 < known.value) ==>
          0 < p < 0x1_0000 && known.value < 0x1_0000_0000_0000_0000)
  }

  ghost predicate AllPhasesFit(cursorId: int, targetId: int, latest: PhaseOracle) {
    forall p :: cursorId / PHASE <= p <= targetId / PHASE ==> PhaseFits(cursorId, targetId, latest, p)
  }

  lemma PhaseOkIff(cursorId: int, targetId: int, latest: PhaseOracle, p: int)
    requires 0 < cursorId && 0 < targetId
    ensures PhaseOk((cursorId / PHASE, cursorId % PHASE), (targetId / PHASE, targetId % PHASE), latest, p)
       <==> PhaseFits(cursorId, targetId, latest, p)
  {
  }

  lemma PlannableIff(cursorId: int, targetId: int, latest: PhaseOracle)
    requires 0 < cursorId < targetId
    ensures PhasesOk((cursorId / PHASE, cursorId % PHASE), (targetId / PHASE, targetId % PHASE), latest, EndPhase(targetId, cursorId))
       <==> AllPhasesFit(cursorId, targetId, latest)
  {
    forall p ensures PhaseOk((cursorId / PHASE, cursorId % PHASE), (targetId / PHASE, targetId % PHASE), latest, p)
                <==> PhaseFits(cursorId, targetId, latest, p) {
      PhaseOkIff(cursorId, targetId, latest, p);
    }
  }

  /** `_ranges_after_cursor`: one range per phase from the cursor's to the target's. */
  method RangesAfterCursor(feed: string, targetId: int, cursorId: int, latest: PhaseOracle)
    returns (r: Result<seq<RoundRange>, RoundError>)
    ensures r.Success? <==>
              && 0 < cursorId <= targetId
              && var cursor, target := (cursorId / PHASE, cursorId % PHASE), (targetId / PHASE, targetId % PHASE);
                 PhasesOk(cursor, target, latest, EndPhase(targetId, cursorId))
    ensures r.Success? ==>
              var cursor, target := (cursorId / PHASE, cursorId % PHASE), (targetId / PHASE, targetId % PHASE);
              r.value == PlannedRanges(feed, cursor, target, latest, EndPhase(targetId, cursorId))
    ensures 0 < targetId < cursorId ==> r == Failure(Regressed)
    ensures r.Success? <==> 0 < cursorId <= targetId && (cursorId < targetId ==> AllPhasesFit(cursorId, targetId, latest))
  {
    if 0 < cursorId < targetId { PlannableIff(cursorId, targetId, latest); }
    var split := Split(cursorId);
    if split.Failure? { return Failure(split.error); }
    var cursor := split.value;
    split := Split(targetId);
    if split.Failure? { return Failure(split.error); }
    var target := split.value;
    if target.0 < cursor.0 || (target.0 == cursor.0 && target.1 < cursor.1) {
      return Failure(Regressed);
    }
    if targetId == cursorId {
      return Success([]);
    }
    var ranges: seq<RoundRange> := [];
    for phase := cursor.0 to target.0 + 1
      invariant ranges == PlannedRanges(feed, cursor, target, latest, phase)
      invariant PhasesOk(cursor, target, latest, phase)
    {
      var bounds := PhaseBounds(cursor, target, latest, phase);
      if bounds.None? { assert !PhaseOk(cursor, target, latest, phase); return Failure(RpcFailed); }
      var (first, last) := bounds.value;
      if first <= last {
        var start, end := Encode(phase, first), Encode(phase, last);
        if start.Failure? { assert !PhaseOk(cursor, target, latest, phase); return Failure(start.error); }
        if end.Failure? { assert !PhaseOk(cursor, target, latest, phase); return Failure(end.error); }
        ranges := ranges + [RoundRange(feed, phase, start.value, end.value)];
      }
    }
    return Success(ranges);
  }

  ghost predicate InBounds(cursor: (int, int), target: (int, int), latest: PhaseOracle, nextPhase: int, p: int, r: int) {
    && cursor.0 <= p < nextPhase
    && PhaseBounds(cursor, target, latest, p).Some?
    && var (first, last) := PhaseBounds(cursor, target, latest, p).value; first <= r <= last
  }

  lemma InRangesAppend(rs: seq<RoundRange>, x: RoundRange, id: int)
    ensures InRanges(rs + [x], id) <==> InRanges(rs, id) || x.start <= id <= x.end
  {
    var rs' := rs + [x];
    assert rs'[|rs|] == x;
    if InRanges(rs, id) {
      var i :| 0 <= i < |rs| && rs[i].start <= id <= rs[i].end;
      assert rs'[i] == rs[i];
    }
  }

  /** Membership of an id in the plan is membership of its round in its phase's bounds. */
  lemma {:induction false} InPlanned(feed: string, cursor: (int, int), target: (int, int), latest: PhaseOracle, nextPhase: int, id: int)
    requires PhasesOk(cursor, target, latest, nextPhase)
    ensures InRanges(PlannedRanges(feed, cursor, target, latest, nextPhase), id)
       <==> InBounds(cursor, target, latest, nextPhase, id / PHASE, id % PHASE)
    decreases nextPhase - cursor.0
  {
    if nextPhase > cursor.0 {
      var p := nextPhase - 1;
      InPlanned(feed, cursor, target, latest, p, id);
      assert PhaseOk(cursor, target, latest, p);
      var (first, last) := PhaseBounds(cursor, target, latest, p).value;
      if first <= last {
        var x := RoundRange(feed, p, p * PHASE + first, p * PHASE + last);
        InRangesAppend(PlannedRanges(feed, cursor, target, latest, p), x, id);
        assert x.start <= id <= x.end <==> id / PHASE == p && first <= id % PHASE <= last;
      }
    }
  }

  /** Ranges accepted by the constructor, in ascending phases before `nextPhase`. */
  ghost predicate Ascending(rs: seq<RoundRange>, feed: string, nextPhase: int) {
    && (forall i :: 0 <= i < |rs| ==> rs[i].Valid() && rs[i].feed == feed)
    && (forall i :: 0 <= i < |rs| ==> rs[i].end < nextPhase * PHASE)
    && (forall i, j :: 0 <= i < j < |rs| ==> rs[i].end < rs[j].start)
  }

  /** Planned ranges satisfy the range constructor and ascend without overlap. */
  lemma {:induction false} PlannedAreValid(feed: string, cursor: (int, int), target: (int, int), latest: PhaseOracle, nextPhase: int)
    requires PhasesOk(cursor, target, latest, nextPhase)
    ensures Ascending(PlannedRanges(feed, cursor, target, latest, nextPhase), feed, nextPhase)
    decreases nextPhase - cursor.0
  {
    if nextPhase > cursor.0 {
      var p := nextPhase - 1;
      PlannedAreValid(feed, cursor, target, latest, p);
      assert PhaseOk(cursor, target, latest, p);
      var (first, last) := PhaseBounds(cursor, target, latest, p).value;
      if first <= last {
        SplitOfEncode(p, first);
        SplitOfEncode(p, last);
      }
    }
  }

  /** `final(p)` is the last round phase `p` will ever hold; phases without rounds hold 0. */
  type FinalRounds = int -> nat

  /** A round that exists once every phase has closed. */
  ghost predicate RoundExists(final: FinalRounds, id: int) {
    id > 0 && 0 < id / PHASE < PHASE_LIMIT && 1 <= id % PHASE <= final(id / PHASE)
  }

  /** Closed phases do not grow, and the target itself is an existing round. */
  ghost predicate ClosedPhasesFixed(final: FinalRounds, latest: PhaseOracle, cursorId: int, targetId: int) {
    && RoundExists(final, targetId)
    && forall p :: cursorId / PHASE <= p < targetId / PHASE && latest(p).Some? ==> latest(p).value == final(p)
  }

  /** A plan from one cursor to the next holds exactly the existing rounds between them. */
  lemma {:induction false} PlanHoldsExactlyTheGap(feed: string, cursorId: int, targetId: int, latest: PhaseOracle, final: FinalRounds, id: int)
    requires 0 < cursorId <= targetId && ClosedPhasesFixed(final, latest, cursorId, targetId)
    requires var cursor, target := (cursorId / PHASE, cursorId % PHASE), (targetId / PHASE, targetId % PHASE);
             PhasesOk(cursor, target, latest, EndPhase(targetId, cursorId))
    requires id > 0
    ensures var cursor, target := (cursorId / PHASE, cursorId % PHASE), (targetId / PHASE, targetId % PHASE);
      InRanges(PlannedRanges(feed, cursor, target, latest, EndPhase(targetId, cursorId)), id)
      <==> RoundExists(final, id) && cursorId < id <= targetId
  {
    var cursor, target := (cursorId / PHASE, cursorId % PHASE), (targetId / PHASE, targetId % PHASE);
    var nextPhase := EndPhase(targetId, cursorId);
    InPlanned(feed, cursor, target, latest, nextPhase, id);
    var p := id / PHASE;
    if cursor.0 <= p < nextPhase {
      assert PhaseOk(cursor, target, latest, p);
    }
  }

  /** A plan holds exactly the existing rounds of `feed` after one cursor and through the next. */
  ghost predicate PlansBetween(final: FinalRounds, feed: string, cursorId: int, targetId: int, rs: seq<RoundRange>) {
    && 0 < cursorId <= targetId
    && forall id :: id > 0 ==> (Holds(rs, (feed, id)) <==> RoundExists(final, id) && cursorId < id <= targetId)
  }

  /** Successive plans, each from the cursor the one before it reached. */
  ghost predicate PlansChain(final: FinalRounds, feed: string, cursors: seq<int>, plans: seq<seq<RoundRange>>) {
    && |cursors| == |plans| + 1
    && forall k :: 0 <= k < |plans| ==> PlansBetween(final, feed, cursors[k], cursors[k + 1], plans[k])
  }

  /**
   Over any chain of plans, every existing round after the first cursor and up to the last
   is planned exactly once, across phase changes and empty phases.
   */
  lemma {:induction false} PlansPartition(final: FinalRounds, feed: string, cursors: seq<int>, plans: seq<seq<RoundRange>>, id: int)
    returns (i: nat)
    requires PlansChain(final, feed, cursors, plans)
    requires cursors[0] > 0 && RoundExists(final, id) && cursors[0] < id <= cursors[|plans|]
    ensures i < |plans| && Holds(plans[i], (feed, id))
    ensures forall k :: 0 <= k < |plans| && Holds(plans[k], (feed, id)) ==> k == i
    decreases |plans|
  {
    var n := |plans| - 1;
    assert PlansBetween(final, feed, cursors[n], cursors[n + 1], plans[n]);
    if cursors[n] < id {
      i := n;
      forall k | 0 <= k < n ensures !Holds(plans[k], (feed, id)) {
        CursorsRise(final, feed, cursors, plans, k + 1, n);
        assert PlansBetween(final, feed, cursors[k], cursors[k + 1], plans[k]);
      }
    } else {
      i := PlansPartition(final, feed, cursors[..n + 1], plans[..n], id);
    }
  }

  lemma {:induction false} CursorsRise(final: FinalRounds, feed: string, cursors: seq<int>, plans: seq<seq<RoundRange>>, a: nat, b: nat)
    requires PlansChain(final, feed, cursors, plans) && a <= b <= |plans|
    ensures cursors[a] <= cursors[b]
    decreases b
  {
    if a < b {
      CursorsRise(final, feed, cursors, plans, a, b - 1);
      assert PlansBetween(final, feed, cursors[b - 1], cursors[b - 1 + 1], plans[b - 1]);
    }
  }

  /** Rounds outside the span of the chain are never planned. */
  lemma NothingPlannedOutside(final: FinalRounds, feed: string, cursors: seq<int>, plans: seq<seq<RoundRange>>, id: int, k: nat)
    requires PlansChain(final, feed, cursors, plans) && k < |plans| && id > 0
    requires Holds(plans[k], (feed, id))
    ensures cursors[0] < id <= cursors[|plans|] && RoundExists(final, id)
  {
    assert PlansBetween(final, feed, cursors[k], cursors[k + 1], plans[k]);
    CursorsRise(final, feed, cursors, plans, 0, k);
    CursorsRise(final, feed, cursors, plans, k + 1, |plans|);
  }

  /** The rounds of one range, in order. */
  function RoundsOf(x: RoundRange): (ids: seq<int>)
    requires x.start <= x.end
    ensures |ids| == x.end - x.start + 1
    ensures forall i :: 0 <= i < |ids| ==> ids[i] == x.start + i
  {
    seq(x.end - x.start + 1, k => x.start + k)
  }

  lemma RoundsOfMembers(x: RoundRange, id: int)
    requires x.start <= x.end
    ensures id in RoundsOf(x) <==> x.start <= id <= x.end
  {
    if x.start <= id <= x.end { assert RoundsOf(x)[id - x.start] == id; }
  }

  /** `expected_observation_ids` without its text prefix: the round ids in order. */
  function ExpectedIds(rs: seq<RoundRange>): seq<int>
    requires Proper(rs)
  {
    if rs == [] then []
    else ExpectedIds(rs[..|rs| - 1]) + RoundsOf(rs[|rs| - 1])
  }

  /** The plan's `round_count`. */
  function RoundCount(rs: seq<RoundRange>): int {
    if rs == [] then 0 else RoundCount(rs[..|rs| - 1]) + rs[|rs| - 1].end - rs[|rs| - 1].start + 1
  }

  ghost predicate Proper(rs: seq<RoundRange>) {
    forall i :: 0 <= i < |rs| ==> rs[i].start <= rs[i].end
  }

  /** The enumeration holds exactly the planned rounds. */
  lemma {:induction false} ExpectedIdsMembers(rs: seq<RoundRange>, id: int)
    requires Proper(rs)
    ensures id in ExpectedIds(rs) <==> InRanges(rs, id)
    decreases |rs|
  {
    if rs != [] {
      var front, last := rs[..|rs| - 1], rs[|rs| - 1];
      ExpectedIdsMembers(front, id);
      RoundsOfMembers(last, id);
      assert rs == front + [last];
      InRangesAppend(front, last, id);
    }
  }

  /** Enumerations of ascending ranges ascend. */
  lemma {:induction false} ExpectedIdsAscend(rs: seq<RoundRange>)
    requires Proper(rs) && forall i, j :: 0 <= i < j < |rs| ==> rs[i].end < rs[j].start
    ensures forall i, j :: 0 <= i < j < |ExpectedIds(rs)| ==> ExpectedIds(rs)[i] < ExpectedIds(rs)[j]
    decreases |rs|
  {
    if rs != [] {
      var front, last := rs[..|rs| - 1], rs[|rs| - 1];
      var before := ExpectedIds(front);
      ExpectedIdsAscend(front);
      forall i | 0 <= i < |before| ensures before[i] < last.start {
        ExpectedIdsMembers(front, before[i]);
        var k :| 0 <= k < |front| && front[k].start <= before[i] <= front[k].end;
        assert rs[k] == front[k];
      }
    }
  }

  /** The enumeration lists every planned round once, so the count is the number of rounds. */
  lemma {:induction false} ExpectedIdsEnumerate(rs: seq<RoundRange>)
    requires Proper(rs) && forall i, j :: 0 <= i < j < |rs| ==> rs[i].end < rs[j].start
    ensures |ExpectedIds(rs)| == RoundCount(rs)
    ensures forall id :: id in ExpectedIds(rs) <==> InRanges(rs, id)
    ensures forall i, j :: 0 <= i < j < |ExpectedIds(rs)| ==> ExpectedIds(rs)[i] < ExpectedIds(rs)[j]
    decreases |rs|
  {
    ExpectedIdsAscend(rs);
    forall id ensures id in ExpectedIds(rs) <==> InRanges(rs, id) { ExpectedIdsMembers(rs, id); }
    if rs != [] { ExpectedIdsEnumerate(rs[..|rs| - 1]); }
  }

  /** Latest rounds of every feed; a call may fail. */
  type FeedOracle = (string, int) -> Option<int>

  datatype FeedTarget = FeedTarget(feed: string, roundId: int)

  function LatestOf(oracle: FeedOracle, feed: string): PhaseOracle { phase => oracle(feed, phase) }

  /** Every feed's cursor can be planned to its target. */
  ghost predicate FeedPlannable(oracle: FeedOracle, target: FeedTarget, cursorId: int) {
    && 0 < cursorId <= target.roundId
    && PhasesOk((cursorId / PHASE, cursorId % PHASE), (target.roundId / PHASE, target.roundId % PHASE),
         LatestOf(oracle, target.feed), EndPhase(target.roundId, cursorId))
  }

  /** The ranges of one feed's plan. */
  ghost function FeedRanges(oracle: FeedOracle, target: FeedTarget, cursorId: int): seq<RoundRange>
    requires cursorId > 0
  {
    PlannedRanges(target.feed, (cursorId / PHASE, cursorId % PHASE), (target.roundId / PHASE, target.roundId % PHASE),
      LatestOf(oracle, target.feed), EndPhase(target.roundId, cursorId))
  }

  ghost predicate AllPlannable(oracle: FeedOracle, targets: seq<FeedTarget>, cursors: map<string, int>) {
    forall i :: 0 <= i < |targets| ==> targets[i].feed in cursors && FeedPlannable(oracle, targets[i], cursors[targets[i].feed])
  }

  ghost function AllRanges(oracle: FeedOracle, targets: seq<FeedTarget>, cursors: map<string, int>): seq<RoundRange>
    requires AllPlannable(oracle, targets, cursors)
  {
    if targets == [] then []
    else
      AllRanges(oracle, targets[..|targets| - 1], cursors)
      + FeedRanges(oracle, targets[|targets| - 1], cursors[targets[|targets| - 1].feed])
  }

  ghost predicate DistinctTargets(targets: seq<FeedTarget>) {
    forall i, j :: 0 <= i < j < |targets| ==> targets[i].feed != targets[j].feed
  }

  /** The ranges of one feed are legal and ascend; they hold its rounds alone. */
  lemma FeedRangesAreSound(oracle: FeedOracle, target: FeedTarget, cursorId: int)
    requires FeedPlannable(oracle, target, cursorId)
    ensures var rs := FeedRanges(oracle, target, cursorId);
      && AllValid(rs) && Disjoint(rs)
      && (forall i :: 0 <= i < |rs| ==> rs[i].feed == target.feed)
      && (forall id :: Holds(rs, (target.feed, id)) <==> InRanges(rs, id))
  {
    var rs := FeedRanges(oracle, target, cursorId);
    PlannedAreValid(target.feed, (cursorId / PHASE, cursorId % PHASE), (target.roundId / PHASE, target.roundId % PHASE),
      LatestOf(oracle, target.feed), EndPhase(target.roundId, cursorId));
    forall id ensures Holds(rs, (target.feed, id)) <==> InRanges(rs, id) {
      if InRanges(rs, id) {
        var i :| 0 <= i < |rs| && rs[i].start <= id <= rs[i].end;
        assert HasId(rs[i], (target.feed, id));
      }
    }
  }

  /** Over distinct feeds the ranges of the whole plan are legal and disjoint. */
  lemma {:induction false} AllRangesAreSound(oracle: FeedOracle, targets: seq<FeedTarget>, cursors: map<string, int>)
    requires AllPlannable(oracle, targets, cursors) && DistinctTargets(targets)
    ensures var rs := AllRanges(oracle, targets, cursors);
      && AllValid(rs) && Disjoint(rs)
      && forall k :: 0 <= k < |rs| ==> TargetsFeed(targets, rs[k].feed)
    decreases |targets|
  {
    if targets != [] {
      var n := |targets| - 1;
      var front := AllRanges(oracle, targets[..n], cursors);
      AllRangesAreSound(oracle, targets[..n], cursors);
      FeedRangesAreSound(oracle, targets[n], cursors[targets[n].feed]);
      forall k | 0 <= k < |front| ensures TargetsFeed(targets, front[k].feed) && front[k].feed != targets[n].feed {
        assert TargetsFeed(targets[..n], front[k].feed);
        var i :| 0 <= i < n && targets[..n][i].feed == front[k].feed;
        assert targets[i].feed == front[k].feed;
      }
    }
  }

  ghost predicate PhasesRise(rs: seq<RoundRange>, nextPhase: int) {
    && (forall i :: 0 <= i < |rs| ==> rs[i].phase < nextPhase)
    && (forall i, j :: 0 <= i < j < |rs| ==> rs[i].phase < rs[j].phase)
  }

  lemma {:induction false} PhasesAscend(feed: string, cursor: (int, int), target: (int, int), latest: PhaseOracle, nextPhase: int)
    ensures PhasesRise(PlannedRanges(feed, cursor, target, latest, nextPhase), nextPhase)
    decreases nextPhase - cursor.0
  {
    if nextPhase > cursor.0 { PhasesAscend(feed, cursor, target, latest, nextPhase - 1); }
  }

  /** A plan has at most one range for each feed phase. */
  ghost predicate OnePerPhase(rs: seq<RoundRange>) {
    forall i, j :: 0 <= i < j < |rs| ==> rs[i].feed != rs[j].feed || rs[i].phase != rs[j].phase
  }

  lemma {:induction false} AllRangesOnePerPhase(oracle: FeedOracle, targets: seq<FeedTarget>, cursors: map<string, int>)
    requires AllPlannable(oracle, targets, cursors) && DistinctTargets(targets)
    ensures OnePerPhase(AllRanges(oracle, targets, cursors))
    decreases |targets|
  {
    if targets != [] {
      var n := |targets| - 1;
      var target, cursorId := targets[n], cursors[targets[n].feed];
      var front := AllRanges(oracle, targets[..n], cursors);
      AllRangesOnePerPhase(oracle, targets[..n], cursors);
      AllRangesAreSound(oracle, targets[..n], cursors);
      FeedRangesAreSound(oracle, target, cursorId);
      PhasesAscend(target.feed, (cursorId / PHASE, cursorId % PHASE), (target.roundId / PHASE, target.roundId % PHASE),
        LatestOf(oracle, target.feed), EndPhase(target.roundId, cursorId));
      forall k | 0 <= k < |front| ensures front[k].feed != target.feed {
        assert TargetsFeed(targets[..n], front[k].feed);
        var i :| 0 <= i < n && targets[..n][i].feed == front[k].feed;
        assert targets[i].feed == front[k].feed;
      }
      var last, all := FeedRanges(oracle, target, cursorId), AllRanges(oracle, targets, cursors);
      forall i, j | 0 <= i < j < |all| ensures all[i].feed != all[j].feed || all[i].phase != all[j].phase {
        assert all[i] == if i < |front| then front[i] else last[i - |front|];
        assert all[j] == if j < |front| then front[j] else last[j - |front|];
      }
    }
  }

  predicate TargetsFeed(targets: seq<FeedTarget>, feed: string) {
    exists i :: 0 <= i < |targets| && targets[i].feed == feed
  }

  lemma {:induction false} UntargetedIsNotHeld(oracle: FeedOracle, targets: seq<FeedTarget>, cursors: map<string, int>, feed: string, id: int)
    requires AllPlannable(oracle, targets, cursors) && DistinctTargets(targets) && !TargetsFeed(targets, feed)
    ensures !Holds(AllRanges(oracle, targets, cursors), (feed, id))
  {
    AllRangesAreSound(oracle, targets, cursors);
  }

  lemma OtherFeedIsNotHeld(oracle: FeedOracle, target: FeedTarget, cursorId: int, feed: string, id: int)
    requires FeedPlannable(oracle, target, cursorId) && target.feed != feed
    ensures !Holds(FeedRanges(oracle, target, cursorId), (feed, id))
  {
    FeedRangesAreSound(oracle, target, cursorId);
  }

  /** A feed's rounds in the whole plan are those of its own ranges. */
  lemma {:induction false} AllRangesHold(oracle: FeedOracle, targets: seq<FeedTarget>, cursors: map<string, int>, i: nat, id: int)
    requires AllPlannable(oracle, targets, cursors) && DistinctTargets(targets) && i < |targets|
    ensures Holds(AllRanges(oracle, targets, cursors), (targets[i].feed, id))
       <==> Holds(FeedRanges(oracle, targets[i], cursors[targets[i].feed]), (targets[i].feed, id))
    decreases |targets|
  {
    var n := |targets| - 1;
    var front, last := AllRanges(oracle, targets[..n], cursors), FeedRanges(oracle, targets[n], cursors[targets[n].feed]);
    HoldsConcat(front, last, (targets[i].feed, id));
    if i < n {
      AllRangesHold(oracle, targets[..n], cursors, i, id);
      OtherFeedIsNotHeld(oracle, targets[n], cursors[targets[n].feed], targets[i].feed, id);
    } else {
      assert !TargetsFeed(targets[..n], targets[n].feed);
      UntargetedIsNotHeld(oracle, targets[..n], cursors, targets[n].feed, id);
    }
  }

  /** The provider's answers fit the chain: closed phases do not grow, and targets exist. */
  ghost predicate Truthful(final: string -> FinalRounds, oracle: FeedOracle, targets: seq<FeedTarget>, cursors: map<string, int>) {
    forall i :: 0 <= i < |targets| ==> (
      && targets[i].feed in cursors
      && ClosedPhasesFixed(final(targets[i].feed), LatestOf(oracle, targets[i].feed), cursors[targets[i].feed], targets[i].roundId))
  }

  /** The whole plan holds, feed by feed, exactly the existing rounds from its cursor to its target. */
  lemma {:induction false} PlanIsExactPerFeed(final: string -> FinalRounds, oracle: FeedOracle, targets: seq<FeedTarget>, cursors: map<string, int>, i: nat)
    requires AllPlannable(oracle, targets, cursors) && DistinctTargets(targets) && i < |targets|
    requires Truthful(final, oracle, targets, cursors)
    ensures PlansBetween(final(targets[i].feed), targets[i].feed, cursors[targets[i].feed], targets[i].roundId,
                         AllRanges(oracle, targets, cursors))
  {
    var feed, cursorId, targetId := targets[i].feed, cursors[targets[i].feed], targets[i].roundId;
    assert FeedPlannable(oracle, targets[i], cursorId);
    forall id | id > 0
      ensures Holds(AllRanges(oracle, targets, cursors), (feed, id)) <==> RoundExists(final(feed), id) && cursorId < id <= targetId
    {
      AllRangesHold(oracle, targets, cursors, i, id);
      FeedRangesAreSound(oracle, targets[i], cursorId);
      PlanHoldsExactlyTheGap(feed, cursorId, targetId, LatestOf(oracle, feed), final(feed), id);
    }
  }

  /** What the planner demands of its inputs and of the provider's answers. */
  ghost predicate Plannable(oracle: FeedOracle, committedBlock: int, block: int, targets: seq<FeedTarget>,
                            cursors: map<string, int>, maxRounds: int) {
    && maxRounds > 0 && committedBlock <= block
    && cursors.Keys == (set i | 0 <= i < |targets| :: targets[i].feed)
    && AllPlannable(oracle, targets, cursors)
    && RoundCount(AllRanges(oracle, targets, cursors)) <= maxRounds
  }

  datatype ForwardRoundPlan = ForwardRoundPlan(committedBlock: int, block: int, ranges: seq<RoundRange>)

  /** One feed's turn of the planning comprehension. */
  method PlanFeed(oracle: FeedOracle, target: FeedTarget, cursorId: int) returns (r: Result<seq<RoundRange>, RoundError>)
    ensures r.Success? <==> FeedPlannable(oracle, target, cursorId)
    ensures r.Success? ==> r.value == FeedRanges(oracle, target, cursorId)
  {
    r := RangesAfterCursor(target.feed, target.roundId, cursorId, LatestOf(oracle, target.feed));
  }

  lemma {:induction false} AllRangesUnfold(oracle: FeedOracle, targets: seq<FeedTarget>, cursors: map<string, int>, i: nat)
    requires i < |targets| && AllPlannable(oracle, targets[..i], cursors)
    requires targets[i].feed in cursors && FeedPlannable(oracle, targets[i], cursors[targets[i].feed])
    ensures AllPlannable(oracle, targets[..i + 1], cursors)
    ensures AllRanges(oracle, targets[..i + 1], cursors)
         == AllRanges(oracle, targets[..i], cursors) + FeedRanges(oracle, targets[i], cursors[targets[i].feed])
  {
    assert targets[..i + 1][..i] == targets[..i];
  }

  /**
   `plan_chainlink_forward`: every feed is planned from its own cursor, or nothing is. The
   cursors must be those of exactly the targeted feeds and the block must not precede
   committed coverage.
   */
  method PlanChainlinkForward(oracle: FeedOracle, committedBlock: int, block: int, targets: seq<FeedTarget>,
                              cursors: map<string, int>, maxRounds: int)
    returns (r: Result<ForwardRoundPlan, RoundError>)
    ensures r.Success? <==> Plannable(oracle, committedBlock, block, targets, cursors, maxRounds)
    ensures r.Success? ==> r.value == ForwardRoundPlan(committedBlock, block, AllRanges(oracle, targets, cursors))
  {
    if maxRounds <= 0 { return Failure(TooManyRounds); }
    if cursors.Keys != set i | 0 <= i < |targets| :: targets[i].feed { return Failure(BadStates); }
    if block < committedBlock { return Failure(Regressed); }
    var ranges: seq<RoundRange> := [];
    for i := 0 to |targets|
      invariant AllPlannable(oracle, targets[..i], cursors)
      invariant ranges == AllRanges(oracle, targets[..i], cursors)
    {
      assert targets[i].feed in cursors.Keys;
      var step := PlanFeed(oracle, targets[i], cursors[targets[i].feed]);
      if step.Failure? {
        return Failure(step.error);
      }
      AllRangesUnfold(oracle, targets, cursors, i);
      ranges := ranges + step.value;
    }
    assert targets[..|targets|] == targets;
    if RoundCount(ranges) > maxRounds { return Failure(TooManyRounds); }
    return Success(ForwardRoundPlan(committedBlock, block, ranges));
  }
}
