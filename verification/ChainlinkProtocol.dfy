/** The Chainlink vector-commit protocol. */
module ChainlinkProtocol {
  // The Chainlink forward protocol with any number of interleaved, crashing workers: cursors
  // are read one by one, a plan is made from them, missing batches are published behind
  // markers, the count is checked, and all cursors commit in one transaction
  // (backfill/run_chainlink_incremental.py, orchestration/chainlink_forward.py). Of the chain
  // it is only assumed that closed phases do not grow and that targets are existing rounds.

  import opened Wrappers
  import opened Control
  import opened Watermarks
  import opened ChainlinkRounds
  import opened BatchStore
  import opened ForwardCapture
  import MissingBatches

  type Vector = map<WatermarkIdentity, int>

  const GLOBAL: WatermarkIdentity := WatermarkIdentity("chainlink_forward", "chainlink_feeds", 42161, "block_number")

  /** The round cursor of a feed, whose address is already normalized. */
  function CursorOf(feed: string): WatermarkIdentity {
    WatermarkIdentity("chainlink_forward", feed, 42161, "round_id")
  }

  /** The configured feeds, every round each of them will ever have, and the initial cursors. */
  datatype Config = Config(feeds: seq<string>, final: string -> FinalRounds, initial: Vector)

  ghost function Ids(c: Config): set<WatermarkIdentity> { {GLOBAL} + set feed | feed in c.feeds :: CursorOf(feed) }

  /** A plan as it is carried to the commit: the ranges to capture and the candidate vector. */
  datatype Plan = Plan(ranges: seq<RoundRange>, candidates: Vector)

  datatype Stage =
    | Reading(seen: map<WatermarkIdentity, WatermarkRow>)
    | Planned(states: map<WatermarkIdentity, WatermarkRow>, plan: Plan)
    | Capturing(states: map<WatermarkIdentity, WatermarkRow>, plan: Plan, batches: seq<RoundRange>, done: nat, counts: map<string, int>)
    | Persisted(states: map<WatermarkIdentity, WatermarkRow>, plan: Plan)

  /** `commits` is the history of committed plans. */
  datatype System = System(table: Table, lake: Lake, workers: map<nat, Stage>, commits: seq<Plan>)

  datatype Action =
    | ReadOne(w: nat, id: WatermarkIdentity)
    | MakePlan(w: nat, oracle: FeedOracle, block: int, targets: seq<FeedTarget>, maxRounds: int)
    | Load(w: nat, listing: seq<Entry>)
    | Publish(w: nat, rows: seq<Row>, env: Environment, after: Lake, ok: bool)
    | Reject(w: nat)
    | CheckCount(w: nat)
    | Commit(w: nat, runId: string, now: Instant)
    | Crash(w: nat)

  function StageOf(s: System, w: nat): Stage {
    if w in s.workers then s.workers[w] else Reading(map[])
  }

  function StatesOf(rows: map<WatermarkIdentity, WatermarkRow>): map<WatermarkIdentity, WatermarkState> {
    map id | id in rows :: WatermarkState(id, rows[id])
  }

  /** The feed cursors a worker has read. */
  function CursorsOf(c: Config, seen: map<WatermarkIdentity, WatermarkRow>): map<string, int> {
    map feed | feed in c.feeds && CursorOf(feed) in seen :: seen[CursorOf(feed)].value
  }

  ghost predicate TargetsAreFeeds(c: Config, targets: seq<FeedTarget>) {
    |targets| == |c.feeds| && forall i :: 0 <= i < |targets| ==> targets[i].feed == c.feeds[i]
  }

  /** What `plan_chainlink_forward` accepts from the cursors read, when the safe block is new. */
  ghost predicate CanPlan(c: Config, seen: map<WatermarkIdentity, WatermarkRow>, oracle: FeedOracle, block: int,
                          targets: seq<FeedTarget>, maxRounds: int) {
    && seen.Keys == Ids(c) && TargetsAreFeeds(c, targets)
    && Plannable(oracle, seen[GLOBAL].value, block, targets, CursorsOf(c, seen), maxRounds)
    && seen[GLOBAL].value < block
    && Truthful(c.final, oracle, targets, CursorsOf(c, seen))
  }

  /** The plan's `candidates`: every target's round and the safe block. */
  function Candidates(block: int, targets: seq<FeedTarget>): Vector {
    if targets == [] then map[GLOBAL := block]
    else Candidates(block, targets[..|targets| - 1])[CursorOf(targets[|targets| - 1].feed) := targets[|targets| - 1].roundId]
  }

  /** The worker's stage after planning; with nothing to capture it goes straight to the commit. */
  ghost function AfterPlan(c: Config, seen: map<WatermarkIdentity, WatermarkRow>, oracle: FeedOracle, block: int,
                           targets: seq<FeedTarget>): Stage
    requires AllPlannable(oracle, targets, CursorsOf(c, seen))
  {
    var plan := Plan(AllRanges(oracle, targets, CursorsOf(c, seen)), Candidates(block, targets));
    if plan.ranges == [] then Persisted(seen, plan) else Planned(seen, plan)
  }

  /** The stage after loading the store, as `ForwardStore.Capture` starts its loop. */
  function AfterLoad(c: Config, states: map<WatermarkIdentity, WatermarkRow>, plan: Plan, listing: seq<Entry>): Stage {
    var rows := PersistedOf(Visible(listing));
    Capturing(states, plan, MissingBatches.MissingPlan(plan.ranges, rows, BATCH_SIZE), 0,
      Loaded(c.feeds, MissingBatches.CoverageOfAll(plan.ranges, rows, MissingBatches.FeedsOf(plan.ranges))))
  }

  function At(s: System, w: nat, stage: Stage): System { s.(workers := s.workers[w := stage]) }

  /** `None` where the worker cannot take the step; a failure of the program returns it to `Reading`. */
  ghost function Step(c: Config, s: System, a: Action): Option<System> {
    match a
    case ReadOne(w, id) =>
      var stage, rows := StageOf(s, w), RowsOf(s.table, id);
      if stage.Reading? && id in Ids(c) && |rows| == 1 then Some(At(s, w, Reading(stage.seen[id := rows[0]]))) else None
    case MakePlan(w, oracle, block, targets, maxRounds) =>
      var stage := StageOf(s, w);
      if stage.Reading? && CanPlan(c, stage.seen, oracle, block, targets, maxRounds)
      then Some(At(s, w, AfterPlan(c, stage.seen, oracle, block, targets)))
      else None
    case Load(w, listing) =>
      var stage := StageOf(s, w);
      if stage.Planned? && Lists(listing, s.lake) && DistinctIds(Visible(listing))
      then Some(At(s, w, AfterLoad(c, stage.states, stage.plan, listing)))
      else None
    case Publish(w, rows, env, after, ok) => PublishStep(s, w, rows, env, after, ok)
    case Reject(w) => RejectStep(s, w)
    case CheckCount(w) => CheckCountStep(c, s, w)
    case Commit(w, runId, now) => CommitStep(s, w, runId, now)
    case Crash(w) => Some(At(s, w, Reading(map[])))
  }

  /** The capture after its next batch was written: its rows are added to their feed's count. */
  function Counted(stage: Stage, rows: nat): Stage
    requires stage.Capturing? && stage.done < |stage.batches| && stage.batches[stage.done].feed in stage.counts
  {
    var feed := stage.batches[stage.done].feed;
    stage.(done := stage.done + 1, counts := stage.counts[feed := stage.counts[feed] + rows])
  }

  /** One `write_and_validate` of the next batch, complete or cut short anywhere. */
  ghost function PublishStep(s: System, w: nat, rows: seq<Row>, env: Environment, after: Lake, ok: bool): Option<System> {
    var stage := StageOf(s, w);
    if stage.Capturing? && stage.done < |stage.batches| && stage.batches[stage.done].feed in stage.counts
       && Wrote(stage.batches[stage.done], rows, env, s.lake, after, ok)
    then
      Some(At(s, w, if ok then Counted(stage, |rows|) else Reading(map[])).(lake := after))
    else None
  }

  /** An incomplete extraction: its issues are written and the run ends. */
  ghost function RejectStep(s: System, w: nat): Option<System> {
    var stage := StageOf(s, w);
    if stage.Capturing? && stage.done < |stage.batches| then
      var b := stage.batches[stage.done];
      Some(At(s, w, Reading(map[])).(lake := s.lake[b := DirsOf(s.lake, b).(quarantined := true)]))
    else None
  }

  /** The check after the batch loop: the counters must add up to the plan's round count. */
  ghost function CheckCountStep(c: Config, s: System, w: nat): Option<System> {
    var stage := StageOf(s, w);
    if stage.Capturing? && stage.done == |stage.batches| && CountsAgree(c, stage)
    then Some(At(s, w, Persisted(stage.states, stage.plan)))
    else None
  }

  ghost predicate CountsAgree(c: Config, stage: Stage) {
    && stage.Capturing? && Counting(stage.counts, c.feeds)
    && Total(stage.counts, c.feeds) == RoundCount(stage.plan.ranges)
  }

  /** One call of `commit_watermarks_atomically`: refused without a change, or all cursors move. */
  ghost function CommitStep(s: System, w: nat, runId: string, now: Instant): Option<System> {
    var stage := StageOf(s, w);
    if !stage.Persisted? then None
    else
      var idle := At(s, w, Reading(map[]));
      var states, candidates := StatesOf(stage.states), stage.plan.candidates;
      if CommitReady(states, candidates, runId) && CanAdvanceAll(s.table, ExpectedOf(states), candidates)
      then Some(idle.(table := AdvancedAll(s.table, ExpectedOf(states), candidates, Strip(runId), now),
                      commits := s.commits + [stage.plan]))
      else Some(idle)
  }

  ghost predicate Init(c: Config, s: System) {
    && Distinct(c.feeds) && c.initial.Keys == Ids(c)
    && TableHolds(c, s.table, c.initial)
    && AllExact(s.lake) && s.workers == map[] && s.commits == []
  }

  // ----- The invariant -----

  /** The committed vector of the system: initial, or that of the last commit. */
  ghost function Current(c: Config, s: System): Vector { VectorAt(c, s.commits, |s.commits|) }

  /** The vector after the first `n` commits. */
  ghost function VectorAt(c: Config, commits: seq<Plan>, n: nat): Vector
    requires n <= |commits|
  {
    if n == 0 then c.initial else commits[n - 1].candidates
  }

  ghost predicate AtMost(c: Config, a: Vector, b: Vector) {
    a.Keys == Ids(c) == b.Keys && forall id :: id in Ids(c) ==> a[id] <= b[id]
  }

  /** The plan holds, feed by feed, exactly the existing rounds after `from`'s cursors and through its own. */
  ghost predicate PlanExact(c: Config, from: Vector, plan: Plan) {
    && from.Keys == Ids(c) == plan.candidates.Keys
    && from[GLOBAL] < plan.candidates[GLOBAL]
    && forall feed :: feed in c.feeds ==>
         PlansBetween(c.final(feed), feed, from[CursorOf(feed)], plan.candidates[CursorOf(feed)], plan.ranges)
  }

  /** Legal disjoint ranges of configured feeds. */
  ghost predicate PlanSound(c: Config, plan: Plan) {
    AllValid(plan.ranges) && Disjoint(plan.ranges) && FeedsWithin(plan.ranges, c.feeds)
  }

  ghost predicate RangesStored(lake: Lake, plan: Plan) {
    forall id :: Holds(plan.ranges, id) ==> Stored(lake, id)
  }

  function ValuesOf(states: map<WatermarkIdentity, WatermarkRow>): Vector {
    map id | id in states :: states[id].value
  }

  ghost predicate StageOk(c: Config, lake: Lake, stage: Stage) {
    stage.Reading? ||
    (&& PlanExact(c, ValuesOf(stage.states), stage.plan) && PlanSound(c, stage.plan)
     && (stage.Capturing? ==> Progress(c.feeds, lake, stage.plan.ranges, stage.batches, stage.done, stage.counts))
     && (stage.Persisted? ==> RangesStored(lake, stage.plan)))
  }

  /** Commit `i` continues the vector before it, and what it planned is stored. */
  ghost predicate CommitOk(c: Config, lake: Lake, commits: seq<Plan>, i: nat) {
    i < |commits| && PlanExact(c, VectorAt(c, commits, i), commits[i]) && RangesStored(lake, commits[i])
  }

  /** The table holds one row per cursor, at the values of `v`. */
  ghost predicate TableHolds(c: Config, table: Table, v: Vector) {
    v.Keys == Ids(c) && forall id :: id in Ids(c) ==> |RowsOf(table, id)| == 1 && RowsOf(table, id)[0].value == v[id]
  }

  ghost predicate WorkersOk(c: Config, lake: Lake, workers: map<nat, Stage>) {
    forall w :: w in workers ==> StageOk(c, lake, workers[w])
  }

  ghost predicate HistoryOk(c: Config, lake: Lake, commits: seq<Plan>) {
    forall i :: 0 <= i < |commits| ==> CommitOk(c, lake, commits, i)
  }

  ghost predicate Inv(c: Config, s: System) {
    && Distinct(c.feeds) && c.initial.Keys == Ids(c)
    && TableHolds(c, s.table, Current(c, s))
    && AllExact(s.lake)
    && WorkersOk(c, s.lake, s.workers)
    && HistoryOk(c, s.lake, s.commits)
  }

  lemma WorkerSet(c: Config, s: System, w: nat, stage: Stage)
    requires Inv(c, s) && StageOk(c, s.lake, stage)
    ensures Inv(c, At(s, w, stage))
  {
    assert Current(c, At(s, w, stage)) == Current(c, s);
  }

  // ----- Planning -----

  lemma {:induction false} CandidateOfTarget(block: int, targets: seq<FeedTarget>, i: nat)
    requires DistinctTargets(targets) && i < |targets|
    ensures CursorOf(targets[i].feed) in Candidates(block, targets)
    ensures Candidates(block, targets)[CursorOf(targets[i].feed)] == targets[i].roundId
    decreases |targets|
  {
    var n := |targets| - 1;
    if i < n { CandidateOfTarget(block, targets[..n], i); }
  }

  lemma {:induction false} CandidateIds(c: Config, block: int, targets: seq<FeedTarget>)
    requires forall i :: 0 <= i < |targets| ==> targets[i].feed in c.feeds
    ensures GLOBAL in Candidates(block, targets) && Candidates(block, targets)[GLOBAL] == block
    ensures Candidates(block, targets).Keys <= Ids(c)
    decreases |targets|
  {
    if targets != [] { CandidateIds(c, block, targets[..|targets| - 1]); }
  }

  /** With one target per feed the candidates name exactly the cursors. */
  lemma {:induction false} CandidatesAreIds(c: Config, block: int, targets: seq<FeedTarget>)
    requires TargetsAreFeeds(c, targets) && DistinctTargets(targets)
    ensures Candidates(block, targets).Keys == Ids(c) && Candidates(block, targets)[GLOBAL] == block
  {
    CandidateIds(c, block, targets);
    forall feed | feed in c.feeds ensures CursorOf(feed) in Candidates(block, targets) {
      var i :| 0 <= i < |c.feeds| && c.feeds[i] == feed;
      CandidateOfTarget(block, targets, i);
    }
  }

  lemma TargetsDistinct(c: Config, targets: seq<FeedTarget>)
    requires Distinct(c.feeds) && TargetsAreFeeds(c, targets)
    ensures DistinctTargets(targets)
  {
  }

  /** One feed's share of the plan runs from the cursor read to the candidate. */
  lemma {:induction false} FeedPlannedExactly(c: Config, seen: map<WatermarkIdentity, WatermarkRow>, oracle: FeedOracle, block: int,
                           targets: seq<FeedTarget>, maxRounds: int, i: nat)
    requires Distinct(c.feeds) && CanPlan(c, seen, oracle, block, targets, maxRounds) && i < |c.feeds|
    ensures CursorOf(c.feeds[i]) in seen && CursorOf(c.feeds[i]) in Candidates(block, targets)
    ensures PlansBetween(c.final(c.feeds[i]), c.feeds[i], seen[CursorOf(c.feeds[i])].value,
                         Candidates(block, targets)[CursorOf(c.feeds[i])], AllRanges(oracle, targets, CursorsOf(c, seen)))
  {
    TargetsDistinct(c, targets);
    CandidateOfTarget(block, targets, i);
    PlanIsExactPerFeed(c.final, oracle, targets, CursorsOf(c, seen), i);
  }

  lemma {:induction false} PlannedIsSound(c: Config, oracle: FeedOracle, targets: seq<FeedTarget>, cursors: map<string, int>, candidates: Vector)
    requires Distinct(c.feeds) && TargetsAreFeeds(c, targets) && AllPlannable(oracle, targets, cursors)
    ensures PlanSound(c, Plan(AllRanges(oracle, targets, cursors), candidates))
  {
    TargetsDistinct(c, targets);
    AllRangesAreSound(oracle, targets, cursors);
    var ranges := AllRanges(oracle, targets, cursors);
    forall k | 0 <= k < |ranges| ensures ranges[k].feed in c.feeds {
      assert TargetsFeed(targets, ranges[k].feed);
    }
  }

  /** The planner's output is exact and sound, whatever the cursors were read as. */
  lemma {:induction false} PlannedIsExact(c: Config, seen: map<WatermarkIdentity, WatermarkRow>, oracle: FeedOracle, block: int,
                       targets: seq<FeedTarget>, maxRounds: int)
    requires Distinct(c.feeds) && CanPlan(c, seen, oracle, block, targets, maxRounds)
    ensures var plan := Plan(AllRanges(oracle, targets, CursorsOf(c, seen)), Candidates(block, targets));
      PlanExact(c, ValuesOf(seen), plan) && PlanSound(c, plan)
  {
    var plan := Plan(AllRanges(oracle, targets, CursorsOf(c, seen)), Candidates(block, targets));
    TargetsDistinct(c, targets);
    CandidatesAreIds(c, block, targets);
    PlannedIsSound(c, oracle, targets, CursorsOf(c, seen), plan.candidates);
    forall feed | feed in c.feeds
      ensures PlansBetween(c.final(feed), feed, seen[CursorOf(feed)].value, plan.candidates[CursorOf(feed)], plan.ranges)
    {
      var i :| 0 <= i < |c.feeds| && c.feeds[i] == feed;
      FeedPlannedExactly(c, seen, oracle, block, targets, maxRounds, i);
    }
  }

  lemma AfterPlanIsOk(c: Config, lake: Lake, seen: map<WatermarkIdentity, WatermarkRow>, oracle: FeedOracle, block: int,
                      targets: seq<FeedTarget>, maxRounds: int)
    requires Distinct(c.feeds) && CanPlan(c, seen, oracle, block, targets, maxRounds)
    ensures StageOk(c, lake, AfterPlan(c, seen, oracle, block, targets))
  {
    PlannedIsExact(c, seen, oracle, block, targets, maxRounds);
  }

  lemma PlanKeepsInv(c: Config, s: System, w: nat, oracle: FeedOracle, block: int, targets: seq<FeedTarget>, maxRounds: int)
    requires Inv(c, s) && StageOf(s, w).Reading? && CanPlan(c, StageOf(s, w).seen, oracle, block, targets, maxRounds)
    ensures Inv(c, At(s, w, AfterPlan(c, StageOf(s, w).seen, oracle, block, targets)))
  {
    AfterPlanIsOk(c, s.lake, StageOf(s, w).seen, oracle, block, targets, maxRounds);
    WorkerSet(c, s, w, AfterPlan(c, StageOf(s, w).seen, oracle, block, targets));
  }

  // ----- Capturing -----

  lemma LoadKeepsInv(c: Config, s: System, w: nat, listing: seq<Entry>)
    requires Inv(c, s) && w in s.workers && s.workers[w].Planned? && Lists(listing, s.lake)
    ensures Inv(c, At(s, w, AfterLoad(c, s.workers[w].states, s.workers[w].plan, listing)))
  {
    var stage := s.workers[w];
    assert StageOk(c, s.lake, stage);
    ProgressStarts(c.feeds, s.lake, listing, stage.plan.ranges);
    WorkerSet(c, s, w, AfterLoad(c, stage.states, stage.plan, listing));
  }

  /** More in the lake harms nobody. */
  lemma StageSurvives(c: Config, lake: Lake, after: Lake, stage: Stage)
    requires StageOk(c, lake, stage) && forall id :: Stored(lake, id) ==> Stored(after, id)
    ensures StageOk(c, after, stage)
  {
  }

  lemma LakeGrows(c: Config, s: System, after: Lake)
    requires Inv(c, s) && AllExact(after) && forall id :: Stored(s.lake, id) ==> Stored(after, id)
    ensures Inv(c, s.(lake := after))
  {
    var s' := s.(lake := after);
    assert Current(c, s') == Current(c, s);
    forall w | w in s.workers ensures StageOk(c, after, s.workers[w]) {
      StageSurvives(c, s.lake, after, s.workers[w]);
    }
    forall i | 0 <= i < |s.commits| ensures CommitOk(c, after, s.commits, i) {
      assert CommitOk(c, s.lake, s.commits, i);
    }
  }

  lemma WriteKeepsInv(c: Config, s: System, b: RoundRange, rows: seq<Row>, env: Environment, after: Lake, ok: bool)
    requires Inv(c, s) && Wrote(b, rows, env, s.lake, after, ok)
    ensures Inv(c, s.(lake := after))
  {
    WroteKeepsExact(b, rows, env, s.lake, after, ok);
    forall id | Stored(s.lake, id) ensures Stored(after, id) { WroteKeepsStored(b, rows, env, s.lake, after, ok, id); }
    LakeGrows(c, s, after);
  }

  lemma CountedIsOk(c: Config, lake: Lake, stage: Stage, rows: seq<Row>, env: Environment, after: Lake)
    requires StageOk(c, lake, stage) && stage.Capturing? && stage.done < |stage.batches|
    requires Wrote(stage.batches[stage.done], rows, env, lake, after, true)
    ensures stage.batches[stage.done].feed in stage.counts && StageOk(c, after, Counted(stage, |rows|))
  {
    var Capturing(states, plan, batches, done, counts) := stage;
    var b := batches[done];
    ProgressSteps(c.feeds, lake, after, plan.ranges, batches, done, counts, rows, env);
    assert Counted(stage, |rows|) == Capturing(states, plan, batches, done + 1, counts[b.feed := counts[b.feed] + |rows|]);
  }

  lemma PublishKeepsInv(c: Config, s: System, w: nat, rows: seq<Row>, env: Environment, after: Lake, ok: bool)
    requires Inv(c, s) && PublishStep(s, w, rows, env, after, ok).Some?
    ensures Inv(c, PublishStep(s, w, rows, env, after, ok).value)
  {
    var stage := StageOf(s, w);
    assert w in s.workers && StageOk(c, s.lake, stage);
    WriteKeepsInv(c, s, stage.batches[stage.done], rows, env, after, ok);
    if ok { CountedIsOk(c, s.lake, stage, rows, env, after); }
    WorkerSet(c, s.(lake := after), w, if ok then Counted(stage, |rows|) else Reading(map[]));
  }

  lemma RejectKeepsInv(c: Config, s: System, w: nat)
    requires Inv(c, s) && RejectStep(s, w).Some?
    ensures Inv(c, RejectStep(s, w).value)
  {
    var stage := StageOf(s, w);
    var b := stage.batches[stage.done];
    var after := s.lake[b := DirsOf(s.lake, b).(quarantined := true)];
    QuarantineIsInvisible(s.lake, b);
    LakeGrows(c, s, after);
    WorkerSet(c, s.(lake := after), w, Reading(map[]));
  }

  lemma FinishedIsPersisted(c: Config, lake: Lake, stage: Stage)
    requires StageOk(c, lake, stage) && stage.Capturing? && stage.done == |stage.batches|
    ensures StageOk(c, lake, Persisted(stage.states, stage.plan))
  {
    ProgressEnds(c.feeds, lake, stage.plan.ranges, stage.batches, stage.counts);
  }

  lemma CheckCountKeepsInv(c: Config, s: System, w: nat)
    requires Inv(c, s) && CheckCountStep(c, s, w).Some?
    ensures Inv(c, CheckCountStep(c, s, w).value)
  {
    var stage := StageOf(s, w);
    assert w in s.workers && StageOk(c, s.lake, stage);
    FinishedIsPersisted(c, s.lake, stage);
    WorkerSet(c, s, w, Persisted(stage.states, stage.plan));
  }

  // ----- Committing -----

  /** A successful commit found every cursor at the value it was read with, however torn the reads. */
  lemma CommitFoundReadValues(c: Config, table: Table, v: Vector, states: map<WatermarkIdentity, WatermarkRow>, candidates: Vector)
    requires TableHolds(c, table, v) && states.Keys == Ids(c) == candidates.Keys
    requires CanAdvanceAll(table, ExpectedOf(StatesOf(states)), candidates)
    ensures v == ValuesOf(states)
  {
    var expected := ExpectedOf(StatesOf(states));
    forall id | id in Ids(c) ensures v[id] == states[id].value {
      assert id in expected && CanAdvance(table, id, expected[id], candidates[id]);
    }
  }

  /** ... so the table then holds exactly the committed snapshot. */
  lemma CommitInstallsCandidates(c: Config, table: Table, v: Vector, states: map<WatermarkIdentity, WatermarkRow>, candidates: Vector,
                                 runId: string, now: Instant)
    requires TableHolds(c, table, v) && states.Keys == Ids(c) == candidates.Keys
    requires CanAdvanceAll(table, ExpectedOf(StatesOf(states)), candidates)
    ensures TableHolds(c, AdvancedAll(table, ExpectedOf(StatesOf(states)), candidates, runId, now), candidates)
  {
    CommitFoundReadValues(c, table, v, states, candidates);
    var expected := ExpectedOf(StatesOf(states));
    var after := AdvancedAll(table, expected, candidates, runId, now);
    forall id | id in Ids(c) ensures |RowsOf(after, id)| == 1 && RowsOf(after, id)[0].value == candidates[id] {
      assert id in expected && id in table && expected[id] == states[id].value;
    }
  }

  lemma CommitKeepsInv(c: Config, s: System, w: nat, runId: string, now: Instant)
    requires Inv(c, s) && w in s.workers && s.workers[w].Persisted?
    ensures CommitStep(s, w, runId, now).Some? && Inv(c, CommitStep(s, w, runId, now).value)
  {
    var stage := StageOf(s, w);
    assert w in s.workers && StageOk(c, s.lake, stage);
    WorkerSet(c, s, w, Reading(map[]));
    var states, candidates := StatesOf(stage.states), stage.plan.candidates;
    if CommitReady(states, candidates, runId) && CanAdvanceAll(s.table, ExpectedOf(states), candidates) {
      AdvanceKeepsInv(c, At(s, w, Reading(map[])), stage, Strip(runId), now);
    }
  }

  lemma StageKeys(c: Config, lake: Lake, stage: Stage)
    requires StageOk(c, lake, stage) && stage.Persisted?
    ensures stage.states.Keys == Ids(c) == stage.plan.candidates.Keys
    ensures PlanExact(c, ValuesOf(stage.states), stage.plan) && RangesStored(lake, stage.plan)
  {
    assert ValuesOf(stage.states).Keys == stage.states.Keys;
  }

  lemma AdvanceKeepsInv(c: Config, s: System, stage: Stage, runId: string, now: Instant)
    requires Inv(c, s) && stage.Persisted? && StageOk(c, s.lake, stage)
    requires CanAdvanceAll(s.table, ExpectedOf(StatesOf(stage.states)), stage.plan.candidates)
    ensures Inv(c, s.(table := AdvancedAll(s.table, ExpectedOf(StatesOf(stage.states)), stage.plan.candidates, runId, now),
                      commits := s.commits + [stage.plan]))
  {
    StageKeys(c, s.lake, stage);
    ReadValuesAdvance(c, s, stage.states, stage.plan, runId, now);
  }

  /** What `AdvanceKeepsInv` needs of the stage: its cursors, its plan, and that the plan is stored. */
  lemma ReadValuesAdvance(c: Config, s: System, states: map<WatermarkIdentity, WatermarkRow>, plan: Plan, runId: string, now: Instant)
    requires Inv(c, s) && states.Keys == Ids(c) == plan.candidates.Keys
    requires PlanExact(c, ValuesOf(states), plan) && RangesStored(s.lake, plan)
    requires CanAdvanceAll(s.table, ExpectedOf(StatesOf(states)), plan.candidates)
    ensures Inv(c, s.(table := AdvancedAll(s.table, ExpectedOf(StatesOf(states)), plan.candidates, runId, now), commits := s.commits + [plan]))
  {
    var table := AdvancedAll(s.table, ExpectedOf(StatesOf(states)), plan.candidates, runId, now);
    assert TableHolds(c, table, plan.candidates) && Current(c, s) == ValuesOf(states) by {
      CommitFoundReadValues(c, s.table, Current(c, s), states, plan.candidates);
      CommitInstallsCandidates(c, s.table, Current(c, s), states, plan.candidates, runId, now);
    }
    assert HistoryOk(c, s.lake, s.commits + [plan]) by { HistoryExtends(c, s.lake, s.commits, plan); }
    MovedKeepsInv(c, s, table, plan);
  }

  lemma MovedKeepsInv(c: Config, s: System, table: Table, plan: Plan)
    requires Inv(c, s) && TableHolds(c, table, plan.candidates) && HistoryOk(c, s.lake, s.commits + [plan])
    ensures Inv(c, s.(table := table, commits := s.commits + [plan]))
  {
    assert Current(c, s.(table := table, commits := s.commits + [plan])) == plan.candidates;
  }

  lemma HistoryExtends(c: Config, lake: Lake, commits: seq<Plan>, plan: Plan)
    requires HistoryOk(c, lake, commits) && PlanExact(c, VectorAt(c, commits, |commits|), plan) && RangesStored(lake, plan)
    ensures HistoryOk(c, lake, commits + [plan])
  {
    forall i | 0 <= i < |commits + [plan]| ensures CommitOk(c, lake, commits + [plan], i) {
      assert VectorAt(c, commits + [plan], i) == VectorAt(c, commits, i);
      if i < |commits| { assert CommitOk(c, lake, commits, i); }
    }
  }

  lemma ReadKeepsInv(c: Config, s: System, w: nat, id: WatermarkIdentity)
    requires Inv(c, s) && Step(c, s, ReadOne(w, id)).Some?
    ensures Inv(c, Step(c, s, ReadOne(w, id)).value)
  {
    WorkerSet(c, s, w, Reading(StageOf(s, w).seen[id := RowsOf(s.table, id)[0]]));
  }

  /** Every enabled action of any worker keeps the invariant. */
  lemma StepKeepsInv(c: Config, s: System, a: Action)
    requires Inv(c, s)
    ensures Step(c, s, a).Some? ==> Inv(c, Step(c, s, a).value)
  {
    if Step(c, s, a).None? { return; }
    match a
    case ReadOne(w, id) => ReadKeepsInv(c, s, w, id);
    case MakePlan(w, oracle, block, targets, maxRounds) => PlanKeepsInv(c, s, w, oracle, block, targets, maxRounds);
    case Load(w, listing) => LoadKeepsInv(c, s, w, listing);
    case Publish(w, rows, env, after, ok) => PublishKeepsInv(c, s, w, rows, env, after, ok);
    case Reject(w) => RejectKeepsInv(c, s, w);
    case CheckCount(w) => CheckCountKeepsInv(c, s, w);
    case Commit(w, runId, now) => CommitKeepsInv(c, s, w, runId, now);
    case Crash(w) => WorkerSet(c, s, w, Reading(map[]));
  }

  ghost predicate IsRun(c: Config, states: seq<System>, actions: seq<Action>) {
    && |states| == |actions| + 1
    && Init(c, states[0])
    && forall i :: 0 <= i < |actions| ==> StepAt(c, states, actions, i)
  }

  ghost predicate StepAt(c: Config, states: seq<System>, actions: seq<Action>, i: nat) {
    |states| == |actions| + 1 && i < |actions| && Step(c, states[i], actions[i]) == Some(states[i + 1])
  }

  lemma {:induction false} RunKeepsInv(c: Config, states: seq<System>, actions: seq<Action>, n: nat)
    requires IsRun(c, states, actions) && n < |states|
    ensures Inv(c, states[n])
  {
    if n > 0 {
      RunKeepsInv(c, states, actions, n - 1);
      assert StepAt(c, states, actions, n - 1);
      StepKeepsInv(c, states[n - 1], actions[n - 1]);
    }
  }

  // ----- What holds in every run -----

  /**
   In every reachable state the global block and all feed cursors together are the
   candidates of one committed plan, or the initial vector; never a mixture.
   */
  lemma CursorsAreOneSnapshot(c: Config, states: seq<System>, actions: seq<Action>, n: nat)
    requires IsRun(c, states, actions) && n < |states|
    ensures var v, commits := Current(c, states[n]), states[n].commits;
      && v.Keys == Ids(c)
      && (v == c.initial || exists plan :: plan in commits && v == plan.candidates)
      && forall id :: id in Ids(c) ==> |RowsOf(states[n].table, id)| == 1 && RowsOf(states[n].table, id)[0].value == v[id]
  {
    RunKeepsInv(c, states, actions, n);
    var commits := states[n].commits;
    if commits != [] { assert commits[|commits| - 1] in commits; }
  }

  /** Committed vectors never go down in any component, and the block always rises. */
  lemma VectorsNeverRegress(c: Config, states: seq<System>, actions: seq<Action>, n: nat, i: nat, j: nat)
    requires IsRun(c, states, actions) && n < |states| && i <= j <= |states[n].commits|
    ensures AtMost(c, VectorAt(c, states[n].commits, i), VectorAt(c, states[n].commits, j))
    ensures i < j ==> VectorAt(c, states[n].commits, i)[GLOBAL] < VectorAt(c, states[n].commits, j)[GLOBAL]
  {
    RunKeepsInv(c, states, actions, n);
    HistoryRises(c, states[n].lake, states[n].commits, i, j);
  }

  lemma AtMostTransitive(c: Config, x: Vector, y: Vector, z: Vector)
    requires AtMost(c, x, y) && AtMost(c, y, z)
    ensures AtMost(c, x, z)
  {
  }

  /** An exact plan never lowers a cursor and raises the block. */
  lemma ExactRises(c: Config, from: Vector, plan: Plan)
    requires PlanExact(c, from, plan)
    ensures AtMost(c, from, plan.candidates) && from[GLOBAL] < plan.candidates[GLOBAL]
  {
  }

  /** The vector never falls from one commit to the next, and its block rises. */
  lemma NextVectorRises(c: Config, lake: Lake, commits: seq<Plan>, j: nat)
    requires HistoryOk(c, lake, commits) && 0 < j <= |commits|
    ensures AtMost(c, VectorAt(c, commits, j - 1), VectorAt(c, commits, j))
    ensures VectorAt(c, commits, j - 1)[GLOBAL] < VectorAt(c, commits, j)[GLOBAL]
  {
    assert CommitOk(c, lake, commits, j - 1);
    ExactRises(c, VectorAt(c, commits, j - 1), commits[j - 1]);
  }

  lemma {:induction false} HistoryRises(c: Config, lake: Lake, commits: seq<Plan>, i: nat, j: nat)
    requires HistoryOk(c, lake, commits) && c.initial.Keys == Ids(c) && i <= j <= |commits|
    ensures AtMost(c, VectorAt(c, commits, i), VectorAt(c, commits, j))
    ensures i < j ==> VectorAt(c, commits, i)[GLOBAL] < VectorAt(c, commits, j)[GLOBAL]
    decreases j
  {
    if j > 0 { NextVectorRises(c, lake, commits, j); }
    if i < j {
      HistoryRises(c, lake, commits, i, j - 1);
      AtMostTransitive(c, VectorAt(c, commits, i), VectorAt(c, commits, j - 1), VectorAt(c, commits, j));
    }
  }

  /** The feed's cursor after each commit, and what each commit planned. */
  ghost function CursorTrail(c: Config, commits: seq<Plan>, feed: string): seq<int>
    requires c.initial.Keys == Ids(c) && feed in c.feeds
    requires forall i :: 0 <= i < |commits| ==> commits[i].candidates.Keys == Ids(c)
  {
    seq(|commits| + 1, i requires 0 <= i <= |commits| => VectorAt(c, commits, i)[CursorOf(feed)])
  }

  ghost function PlanTrail(commits: seq<Plan>): seq<seq<RoundRange>> {
    seq(|commits|, i requires 0 <= i < |commits| => commits[i].ranges)
  }

  lemma CommitKeys(c: Config, lake: Lake, commits: seq<Plan>)
    requires HistoryOk(c, lake, commits)
    ensures forall i :: 0 <= i < |commits| ==> commits[i].candidates.Keys == Ids(c)
  {
    forall i | 0 <= i < |commits| ensures commits[i].candidates.Keys == Ids(c) {
      assert CommitOk(c, lake, commits, i);
    }
  }

  /** Commit `k` planned exactly the feed's rounds between its cursors. */
  lemma CommitPlanned(c: Config, lake: Lake, commits: seq<Plan>, feed: string, k: nat)
    requires HistoryOk(c, lake, commits) && feed in c.feeds && k < |commits|
    ensures CursorOf(feed) in VectorAt(c, commits, k) && CursorOf(feed) in commits[k].candidates
    ensures PlansBetween(c.final(feed), feed, VectorAt(c, commits, k)[CursorOf(feed)], commits[k].candidates[CursorOf(feed)], commits[k].ranges)
  {
    assert CommitOk(c, lake, commits, k);
    assert CursorOf(feed) in Ids(c);
  }

  lemma HistoryChains(c: Config, lake: Lake, commits: seq<Plan>, feed: string)
    requires HistoryOk(c, lake, commits) && c.initial.Keys == Ids(c) && feed in c.feeds
    ensures forall i :: 0 <= i < |commits| ==> commits[i].candidates.Keys == Ids(c)
    ensures PlansChain(c.final(feed), feed, CursorTrail(c, commits, feed), PlanTrail(commits))
    ensures commits != [] ==> c.initial[CursorOf(feed)] > 0
  {
    CommitKeys(c, lake, commits);
    var cursors, plans := CursorTrail(c, commits, feed), PlanTrail(commits);
    forall k | 0 <= k < |plans| ensures PlansBetween(c.final(feed), feed, cursors[k], cursors[k + 1], plans[k]) {
      CommitPlanned(c, lake, commits, feed, k);
    }
    if commits != [] { CommitPlanned(c, lake, commits, feed, 0); }
  }

  /**
   Over the commits of any run, each existing round after the initial cursor and up to the
   current one was planned by exactly one commit, across phase changes and empty phases.
   */
  lemma CommittedPlansPartition(c: Config, states: seq<System>, actions: seq<Action>, n: nat, feed: string, id: int)
    returns (i: nat)
    requires IsRun(c, states, actions) && n < |states|
    requires feed in c.feeds && RoundExists(c.final(feed), id) && CursorOf(feed) in c.initial
    requires CursorOf(feed) in Current(c, states[n]) && c.initial[CursorOf(feed)] < id <= Current(c, states[n])[CursorOf(feed)]
    ensures i < |states[n].commits| && Holds(states[n].commits[i].ranges, (feed, id))
    ensures forall k :: 0 <= k < |states[n].commits| && Holds(states[n].commits[k].ranges, (feed, id)) ==> k == i
  {
    RunKeepsInv(c, states, actions, n);
    var commits := states[n].commits;
    HistoryChains(c, states[n].lake, commits, feed);
    i := PlansPartition(c.final(feed), feed, CursorTrail(c, commits, feed), PlanTrail(commits), id);
    forall k | 0 <= k < |commits| && Holds(commits[k].ranges, (feed, id)) ensures k == i {
      assert PlanTrail(commits)[k] == commits[k].ranges;
    }
  }

  /** No commit plans a round outside the span of the cursors, or one that does not exist. */
  lemma NothingCommittedOutside(c: Config, states: seq<System>, actions: seq<Action>, n: nat, k: nat, feed: string, id: int)
    requires IsRun(c, states, actions) && n < |states| && k < |states[n].commits|
    requires feed in c.feeds && id > 0 && Holds(states[n].commits[k].ranges, (feed, id))
    ensures CursorOf(feed) in c.initial && CursorOf(feed) in Current(c, states[n])
    ensures c.initial[CursorOf(feed)] < id <= Current(c, states[n])[CursorOf(feed)] && RoundExists(c.final(feed), id)
  {
    RunKeepsInv(c, states, actions, n);
    var commits := states[n].commits;
    HistoryChains(c, states[n].lake, commits, feed);
    NothingPlannedOutside(c.final(feed), feed, CursorTrail(c, commits, feed), PlanTrail(commits), id, k);
  }

  /** No committed cursor ever passes a round that a reader of the committed batches would not find. */
  lemma {:induction false} NoRoundIsSkipped(c: Config, states: seq<System>, actions: seq<Action>, n: nat, feed: string, id: int, listing: seq<Entry>)
    requires IsRun(c, states, actions) && n < |states| && Lists(listing, states[n].lake)
    requires feed in c.feeds && RoundExists(c.final(feed), id) && CursorOf(feed) in c.initial
    requires CursorOf(feed) in Current(c, states[n]) && c.initial[CursorOf(feed)] < id <= Current(c, states[n])[CursorOf(feed)]
    ensures exists row :: row in Visible(listing) && row.id.feed == feed && row.id.round == id
  {
    var i := CommittedPlansPartition(c, states, actions, n, feed, id);
    RunKeepsInv(c, states, actions, n);
    assert CommitOk(c, states[n].lake, states[n].commits, i);
    StoredIsReadable(states[n].lake, listing, (feed, id));
  }

  lemma WorkerStageOk(c: Config, states: seq<System>, actions: seq<Action>, n: nat, w: nat)
    requires IsRun(c, states, actions) && n < |states|
    ensures StageOk(c, states[n].lake, StageOf(states[n], w))
  {
    RunKeepsInv(c, states, actions, n);
  }

  lemma FinishedCountsAgree(c: Config, lake: Lake, stage: Stage)
    requires StageOk(c, lake, stage) && stage.Capturing? && stage.done == |stage.batches|
    ensures CountsAgree(c, stage)
  {
    ProgressEnds(c.feeds, lake, stage.plan.ranges, stage.batches, stage.counts);
  }

  /** The count check never refuses a worker that published its whole plan. */
  lemma CountCheckNeverRefuses(c: Config, states: seq<System>, actions: seq<Action>, n: nat, w: nat)
    requires IsRun(c, states, actions) && n < |states|
    requires StageOf(states[n], w).Capturing? && StageOf(states[n], w).done == |StageOf(states[n], w).batches|
    ensures CheckCountStep(c, states[n], w).Some?
  {
    WorkerStageOk(c, states, actions, n, w);
    FinishedCountsAgree(c, states[n].lake, StageOf(states[n], w));
  }
}
