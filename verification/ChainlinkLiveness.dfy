/** A Chainlink forward run that nothing disturbs commits its whole vector. */
module ChainlinkLiveness {
  // The steps of ChainlinkProtocol taken one after the other by a single worker
  // (backfill/run_chainlink_incremental.py, orchestration/chainlink_forward.py).

  import opened Wrappers
  import opened Control
  import opened Watermarks
  import opened ChainlinkRounds
  import opened BatchStore
  import opened ForwardCapture
  import opened ChainlinkProtocol
  import MissingBatches

  /** The state after the given actions, when each of them is enabled. */
  ghost function Perform(c: Config, s: System, actions: seq<Action>): Option<System>
    decreases |actions|
  {
    if actions == [] then Some(s)
    else match Step(c, s, actions[0]) case None => None case Some(next) => Perform(c, next, actions[1..])
  }

  lemma {:induction false} PerformThen(c: Config, s: System, first: seq<Action>, mid: System, rest: seq<Action>)
    requires Perform(c, s, first) == Some(mid)
    ensures Perform(c, s, first + rest) == Perform(c, mid, rest)
    decreases |first|
  {
    if first == [] {
      assert first + rest == rest;
    } else {
      PerformThen(c, Step(c, s, first[0]).value, first[1..], mid, rest);
      assert (first + rest)[1..] == first[1..] + rest;
    }
  }

  lemma {:induction false} PerformOne(c: Config, s: System, a: Action, next: System)
    requires Step(c, s, a) == Some(next)
    ensures Perform(c, s, [a]) == Some(next)
  {
    assert [a][1..] == [];
  }

  /** A worker that goes on alone reaches `s'`. */
  ghost predicate Leads(c: Config, s: System, s': System) {
    exists actions :: Perform(c, s, actions) == Some(s')
  }

  lemma LeadsOn(c: Config, s: System, mid: System, s': System)
    requires Leads(c, s, mid) && Leads(c, mid, s')
    ensures Leads(c, s, s')
  {
    var first :| Perform(c, s, first) == Some(mid);
    var rest :| Perform(c, mid, rest) == Some(s');
    PerformThen(c, s, first, mid, rest);
  }

  lemma StepLeads(c: Config, s: System, a: Action, next: System)
    requires Step(c, s, a) == Some(next)
    ensures Leads(c, s, next)
  {
    PerformOne(c, s, a, next);
  }

  lemma AtAgain(s: System, w: nat, first: Stage, second: Stage)
    ensures At(At(s, w, first), w, second) == At(s, w, second)
  {
  }

  lemma Goes(c: Config, s: System, a: Action, next: System)
    requires Inv(c, s) && Step(c, s, a) == Some(next)
    ensures Leads(c, s, next) && Inv(c, next)
  {
    StepLeads(c, s, a, next);
    StepKeepsInv(c, s, a);
  }

  // ----- Reading the cursors -----

  /** The rows a worker reads when it reads the cursors of `order` one by one. */
  ghost function RowsRead(table: Table, order: seq<WatermarkIdentity>): map<WatermarkIdentity, WatermarkRow>
    requires forall i :: 0 <= i < |order| ==> |RowsOf(table, order[i])| == 1
  {
    map id | id in order :: RowsOf(table, id)[0]
  }

  lemma {:induction false} ReadsCursors(c: Config, s: System, w: nat, order: seq<WatermarkIdentity>)
    requires forall i :: 0 <= i < |order| ==> order[i] in Ids(c) && |RowsOf(s.table, order[i])| == 1
    requires w in s.workers && s.workers[w] == Reading(map[])
    ensures Leads(c, s, At(s, w, Reading(RowsRead(s.table, order))))
  {
    if order == [] {
      assert At(s, w, Reading(map[])) == s && RowsRead(s.table, order) == map[];
      assert Perform(c, s, []) == Some(s);
    } else {
      var n := |order| - 1;
      var front, id := order[..n], order[n];
      assert forall i :: 0 <= i < |front| ==> front[i] == order[i];
      ReadsCursors(c, s, w, front);
      var mid, next := At(s, w, Reading(RowsRead(s.table, front))), At(s, w, Reading(RowsRead(s.table, order)));
      assert order == front + [id];
      assert RowsRead(s.table, order) == RowsRead(s.table, front)[id := RowsOf(s.table, id)[0]];
      AtAgain(s, w, Reading(RowsRead(s.table, front)), Reading(RowsRead(s.table, order)));
      assert Step(c, mid, ReadOne(w, id)) == Some(next);
      StepLeads(c, mid, ReadOne(w, id), next);
      LeadsOn(c, s, mid, next);
    }
  }

  // ----- Publishing the batches -----

  /** What a write leaves when every filesystem action works. */
  ghost function Published1(lake: Lake, b: RoundRange, rows: seq<Row>): Lake {
    lake[b := Dirs(None, Some(rows), true, false)]
  }

  ghost function NoFailures(): Environment { (k: nat) => Works }

  lemma WriteWorks(lake: Lake, b: RoundRange, rows: seq<Row>)
    requires Acceptable(b, rows) && !DirsOf(lake, b).marker
    ensures Wrote(b, rows, NoFailures(), lake, Published1(lake, b, rows), true)
  {
    OnePerRoundIff(b, rows);
  }

  /** The batches from `done` on are not committed yet, and acceptable rows are fetched for each. */
  ghost predicate Ready(lake: Lake, batches: seq<RoundRange>, done: nat, fetch: RoundRange -> seq<Row>) {
    && Distinct(batches)
    && forall i :: done <= i < |batches| ==> Acceptable(batches[i], fetch(batches[i])) && !DirsOf(lake, batches[i]).marker
  }

  lemma ReadyShrinks(lake: Lake, batches: seq<RoundRange>, done: nat, fetch: RoundRange -> seq<Row>)
    requires Ready(lake, batches, done, fetch) && done < |batches|
    ensures Ready(Published1(lake, batches[done], fetch(batches[done])), batches, done + 1, fetch)
  {
  }

  /** The publishing step of the next batch is enabled. */
  lemma PublishEnabled(c: Config, s: System, w: nat, stage: Stage, rows: seq<Row>)
    requires w in s.workers && s.workers[w] == stage && stage.Capturing? && stage.done < |stage.batches|
    requires StageOk(c, s.lake, stage) && Acceptable(stage.batches[stage.done], rows) && !DirsOf(s.lake, stage.batches[stage.done]).marker
    ensures stage.batches[stage.done].feed in stage.counts
    ensures var after := Published1(s.lake, stage.batches[stage.done], rows);
      Step(c, s, Publish(w, rows, NoFailures(), after, true)) == Some(At(s, w, Counted(stage, |rows|)).(lake := after))
  {
    var b := stage.batches[stage.done];
    WriteWorks(s.lake, b, rows);
    CountedIsOk(c, s.lake, stage, rows, NoFailures(), Published1(s.lake, b, rows));
  }

  lemma StageIsOk(c: Config, s: System, w: nat)
    requires Inv(c, s) && w in s.workers
    ensures StageOk(c, s.lake, s.workers[w])
  {
  }

  lemma PublishesOne(c: Config, s: System, w: nat, stage: Stage, fetch: RoundRange -> seq<Row>) returns (next: System)
    requires Inv(c, s) && w in s.workers && s.workers[w] == stage && stage.Capturing? && stage.done < |stage.batches|
    requires Ready(s.lake, stage.batches, stage.done, fetch)
    ensures Leads(c, s, next) && Inv(c, next) && stage.batches[stage.done].feed in stage.counts
    ensures var b := stage.batches[stage.done];
      next == At(s, w, Counted(stage, |fetch(b)|)).(lake := Published1(s.lake, b, fetch(b)))
  {
    var b := stage.batches[stage.done];
    StageIsOk(c, s, w);
    PublishEnabled(c, s, w, stage, fetch(b));
    var publish := Publish(w, fetch(b), NoFailures(), Published1(s.lake, b, fetch(b)), true);
    next := At(s, w, Counted(stage, |fetch(b)|)).(lake := Published1(s.lake, b, fetch(b)));
    Goes(c, s, publish, next);
  }

  lemma CountChecked(c: Config, s: System, w: nat, stage: Stage)
    requires w in s.workers && s.workers[w] == stage && stage.Capturing? && stage.done == |stage.batches| && StageOk(c, s.lake, stage)
    ensures Step(c, s, CheckCount(w)) == Some(At(s, w, Persisted(stage.states, stage.plan)))
  {
    FinishedCountsAgree(c, s.lake, stage);
  }

  /** The count check passes once every batch is published. */
  lemma ChecksCount(c: Config, s: System, w: nat, stage: Stage) returns (s': System)
    requires Inv(c, s) && w in s.workers && s.workers[w] == stage && stage.Capturing? && stage.done == |stage.batches|
    ensures Leads(c, s, s') && Inv(c, s') && s' == At(s, w, Persisted(stage.states, stage.plan))
  {
    StageIsOk(c, s, w);
    CountChecked(c, s, w, stage);
    s' := At(s, w, Persisted(stage.states, stage.plan));
    Goes(c, s, CheckCount(w), s');
  }

  /** Cursors and history are as they were, and the worker has persisted its plan. */
  ghost predicate PlanPersisted(s: System, w: nat, states: map<WatermarkIdentity, WatermarkRow>, plan: Plan, s': System) {
    s'.table == s.table && s'.commits == s.commits && w in s'.workers && s'.workers[w] == Persisted(states, plan)
  }

  lemma PublishesRest(c: Config, s: System, w: nat, stage: Stage, fetch: RoundRange -> seq<Row>) returns (s': System)
    requires Inv(c, s) && w in s.workers && s.workers[w] == stage && stage.Capturing? && stage.done <= |stage.batches|
    requires Ready(s.lake, stage.batches, stage.done, fetch)
    ensures Leads(c, s, s') && Inv(c, s') && PlanPersisted(s, w, stage.states, stage.plan, s')
    decreases |stage.batches| - stage.done
  {
    if stage.done == |stage.batches| {
      s' := ChecksCount(c, s, w, stage);
    } else {
      var next := PublishesOne(c, s, w, stage, fetch);
      ReadyShrinks(s.lake, stage.batches, stage.done, fetch);
      s' := PublishesRest(c, next, w, next.workers[w], fetch);
      LeadsOn(c, s, next, s');
    }
  }

  // ----- Committing the vector -----

  /** Nobody moved a cursor since the worker read it, and the run id and the values are valid. */
  ghost predicate CommitSound(c: Config, table: Table, states: map<WatermarkIdentity, WatermarkRow>, plan: Plan, runId: string) {
    && Strip(runId) != [] && states.Keys == Ids(c) == plan.candidates.Keys
    && (forall id :: id in Ids(c) ==> RowsOf(table, id) == [states[id]])
    && (forall id :: id in Ids(c) ==> 0 <= states[id].value <= plan.candidates[id] <= MAX_WATERMARK_VALUE)
  }

  /** Every cursor row holds its candidate; those that moved carry the run's id and clock. */
  ghost predicate VectorMoved(c: Config, table: Table, plan: Plan, runId: string, now: Instant, after: Table) {
    && plan.candidates.Keys == Ids(c)
    && forall id :: id in Ids(c) ==>
         |RowsOf(table, id)| == 1
         && RowsOf(after, id) == if RowsOf(table, id)[0].value == plan.candidates[id] then RowsOf(table, id)
                                 else [WatermarkRow(plan.candidates[id], runId, now)]
  }

  lemma CommitEnabled(c: Config, table: Table, states: map<WatermarkIdentity, WatermarkRow>, plan: Plan, runId: string)
    requires CommitSound(c, table, states, plan, runId)
    ensures CommitReady(StatesOf(states), plan.candidates, runId)
    ensures CanAdvanceAll(table, ExpectedOf(StatesOf(states)), plan.candidates)
  {
    assert GLOBAL in StatesOf(states);
    forall id | id in Ids(c) ensures CanAdvance(table, id, ExpectedOf(StatesOf(states))[id], plan.candidates[id]) {
      assert RowsOf(table, id) == [states[id]];
    }
  }

  lemma VectorAdvances(c: Config, table: Table, states: map<WatermarkIdentity, WatermarkRow>, plan: Plan, runId: string, now: Instant)
    requires CommitSound(c, table, states, plan, runId)
    ensures VectorMoved(c, table, plan, Strip(runId), now, AdvancedAll(table, ExpectedOf(StatesOf(states)), plan.candidates, Strip(runId), now))
  {
    forall id | id in Ids(c) ensures id in table && ExpectedOf(StatesOf(states))[id] == RowsOf(table, id)[0].value {
      assert RowsOf(table, id) == [states[id]];
    }
  }

  lemma CommitTaken(c: Config, s: System, w: nat, states: map<WatermarkIdentity, WatermarkRow>, plan: Plan, runId: string, now: Instant, after: Table)
    requires w in s.workers && s.workers[w] == Persisted(states, plan)
    requires CommitReady(StatesOf(states), plan.candidates, runId) && CanAdvanceAll(s.table, ExpectedOf(StatesOf(states)), plan.candidates)
    requires after == AdvancedAll(s.table, ExpectedOf(StatesOf(states)), plan.candidates, Strip(runId), now)
    ensures Step(c, s, Commit(w, runId, now)) == Some(At(s, w, Reading(map[])).(table := after, commits := s.commits + [plan]))
  {
  }

  lemma CommitsVector(c: Config, s: System, w: nat, states: map<WatermarkIdentity, WatermarkRow>, plan: Plan, runId: string, now: Instant)
    returns (s': System)
    requires StageOk(c, s.lake, Persisted(states, plan)) && w in s.workers && s.workers[w] == Persisted(states, plan)
    requires CommitSound(c, s.table, states, plan, runId)
    ensures Leads(c, s, s') && VectorMoved(c, s.table, plan, Strip(runId), now, s'.table)
    ensures s'.commits == s.commits + [plan] && RangesStored(s'.lake, plan)
  {
    CommitEnabled(c, s.table, states, plan, runId);
    VectorAdvances(c, s.table, states, plan, runId, now);
    var after := AdvancedAll(s.table, ExpectedOf(StatesOf(states)), plan.candidates, Strip(runId), now);
    CommitTaken(c, s, w, states, plan, runId, now, after);
    s' := At(s, w, Reading(map[])).(table := after, commits := s.commits + [plan]);
    StepLeads(c, s, Commit(w, runId, now), s');
  }

  // ----- A whole run -----

  /** What the run brings along: the order of its reads, its view of the chain, its extractions, its run id and clock. */
  datatype Inputs = Inputs(order: seq<WatermarkIdentity>, oracle: FeedOracle, block: int, targets: seq<FeedTarget>, maxRounds: int,
                           listing: seq<Entry>, fetch: RoundRange -> seq<Row>, runId: string, now: Instant)

  /** The plan the run makes from the rows it reads. */
  ghost function PlanOf(c: Config, states: map<WatermarkIdentity, WatermarkRow>, x: Inputs): Plan
    requires AllPlannable(x.oracle, x.targets, CursorsOf(c, states))
  {
    Plan(AllRanges(x.oracle, x.targets, CursorsOf(c, states)), Candidates(x.block, x.targets))
  }

  ghost function BatchesOf(plan: Plan, x: Inputs): seq<RoundRange> {
    MissingBatches.MissingPlan(plan.ranges, PersistedOf(Visible(x.listing)), BATCH_SIZE)
  }

  /** Every missing batch is extracted acceptably and has no committed directory. */
  ghost predicate Fetchable(lake: Lake, plan: Plan, x: Inputs) {
    && Lists(x.listing, lake) && DistinctIds(Visible(x.listing))
    && forall b :: b in BatchesOf(plan, x) ==> Acceptable(b, x.fetch(b)) && !DirsOf(lake, b).marker
  }

  lemma BatchesAreReady(c: Config, lake: Lake, plan: Plan, x: Inputs)
    requires PlanSound(c, plan) && Fetchable(lake, plan, x)
    ensures Ready(lake, BatchesOf(plan, x), 0, x.fetch)
  {
    MissingBatches.PlanIsExactlyTheMissing(plan.ranges, PersistedOf(Visible(x.listing)), BATCH_SIZE);
    DisjointAreDistinct(BatchesOf(plan, x));
  }

  lemma LoadEnabled(c: Config, s: System, w: nat, states: map<WatermarkIdentity, WatermarkRow>, plan: Plan, x: Inputs, next: System)
    requires w in s.workers && s.workers[w] == Planned(states, plan)
    requires Lists(x.listing, s.lake) && DistinctIds(Visible(x.listing)) && next == At(s, w, AfterLoad(c, states, plan, x.listing))
    ensures Step(c, s, Load(w, x.listing)) == Some(next)
  {
  }

  lemma LoadsPlan(c: Config, s: System, w: nat, states: map<WatermarkIdentity, WatermarkRow>, plan: Plan, x: Inputs) returns (next: System)
    requires Inv(c, s) && w in s.workers && s.workers[w] == Planned(states, plan)
    requires Lists(x.listing, s.lake) && DistinctIds(Visible(x.listing))
    ensures Leads(c, s, next) && Inv(c, next) && next == At(s, w, AfterLoad(c, states, plan, x.listing))
  {
    next := At(s, w, AfterLoad(c, states, plan, x.listing));
    LoadEnabled(c, s, w, states, plan, x, next);
    Goes(c, s, Load(w, x.listing), next);
  }

  /** From the plan to its persisted rounds. */
  lemma CapturesPlan(c: Config, s: System, w: nat, states: map<WatermarkIdentity, WatermarkRow>, plan: Plan, x: Inputs) returns (s': System)
    requires Inv(c, s) && w in s.workers && s.workers[w] == Planned(states, plan) && Fetchable(s.lake, plan, x)
    ensures Leads(c, s, s') && Inv(c, s') && PlanPersisted(s, w, states, plan, s')
  {
    StageIsOk(c, s, w);
    BatchesAreReady(c, s.lake, plan, x);
    var next := LoadsPlan(c, s, w, states, plan, x);
    s' := PublishesRest(c, next, w, next.workers[w], x.fetch);
    LeadsOn(c, s, next, s');
  }

  lemma ReadsAll(c: Config, s: System, w: nat, order: seq<WatermarkIdentity>) returns (next: System)
    requires Inv(c, s) && w in s.workers && s.workers[w] == Reading(map[])
    requires forall id :: id in order <==> id in Ids(c)
    ensures forall i :: 0 <= i < |order| ==> |RowsOf(s.table, order[i])| == 1
    ensures Leads(c, s, next) && Inv(c, next) && next == At(s, w, Reading(RowsRead(s.table, order)))
  {
    forall i | 0 <= i < |order| ensures order[i] in Ids(c) && |RowsOf(s.table, order[i])| == 1 { assert order[i] in order; }
    ReadsCursors(c, s, w, order);
    next := At(s, w, Reading(RowsRead(s.table, order)));
    WorkerSet(c, s, w, Reading(RowsRead(s.table, order)));
  }

  lemma PlanEnabled(c: Config, s: System, w: nat, states: map<WatermarkIdentity, WatermarkRow>, plan: Plan, x: Inputs, next: System)
    requires w in s.workers && s.workers[w] == Reading(states)
    requires CanPlan(c, states, x.oracle, x.block, x.targets, x.maxRounds) && plan == PlanOf(c, states, x)
    requires next == At(s, w, if plan.ranges == [] then Persisted(states, plan) else Planned(states, plan))
    ensures Step(c, s, MakePlan(w, x.oracle, x.block, x.targets, x.maxRounds)) == Some(next)
  {
  }

  lemma MakesPlan(c: Config, s: System, w: nat, states: map<WatermarkIdentity, WatermarkRow>, plan: Plan, x: Inputs) returns (next: System)
    requires Inv(c, s) && w in s.workers && s.workers[w] == Reading(states)
    requires CanPlan(c, states, x.oracle, x.block, x.targets, x.maxRounds) && plan == PlanOf(c, states, x)
    ensures Leads(c, s, next) && Inv(c, next)
    ensures next == At(s, w, if plan.ranges == [] then Persisted(states, plan) else Planned(states, plan))
  {
    var make := MakePlan(w, x.oracle, x.block, x.targets, x.maxRounds);
    next := At(s, w, if plan.ranges == [] then Persisted(states, plan) else Planned(states, plan));
    PlanEnabled(c, s, w, states, plan, x, next);
    Goes(c, s, make, next);
  }

  /** From the cursors read to the plan persisted. */
  lemma PlansAndCaptures(c: Config, s: System, w: nat, states: map<WatermarkIdentity, WatermarkRow>, plan: Plan, x: Inputs) returns (s': System)
    requires Inv(c, s) && w in s.workers && s.workers[w] == Reading(states)
    requires CanPlan(c, states, x.oracle, x.block, x.targets, x.maxRounds) && plan == PlanOf(c, states, x)
    requires plan.ranges != [] ==> Fetchable(s.lake, plan, x)
    ensures Leads(c, s, s') && Inv(c, s') && PlanPersisted(s, w, states, plan, s')
  {
    var next := MakesPlan(c, s, w, states, plan, x);
    if plan.ranges == [] {
      s' := next;
    } else {
      s' := CapturesPlan(c, next, w, states, plan, x);
      LeadsOn(c, s, next, s');
    }
  }

  /** The candidates are within the table's numeric range. */
  ghost predicate Storable(plan: Plan, states: map<WatermarkIdentity, WatermarkRow>) {
    && (forall id :: id in plan.candidates ==> plan.candidates[id] <= MAX_WATERMARK_VALUE)
    && forall id :: id in states ==> 0 <= states[id].value
  }

  lemma ReadIsSound(c: Config, s: System, order: seq<WatermarkIdentity>, plan: Plan, runId: string)
    requires forall i :: 0 <= i < |order| ==> |RowsOf(s.table, order[i])| == 1
    requires (forall id :: id in order <==> id in Ids(c)) && Strip(runId) != []
    requires PlanExact(c, ValuesOf(RowsRead(s.table, order)), plan) && Storable(plan, RowsRead(s.table, order))
    ensures CommitSound(c, s.table, RowsRead(s.table, order), plan, runId)
  {
    var states := RowsRead(s.table, order);
    assert states.Keys == Ids(c);
    ExactRises(c, ValuesOf(states), plan);
    forall id | id in Ids(c) ensures RowsOf(s.table, id) == [states[id]] && states[id].value <= plan.candidates[id] {
      var i :| 0 <= i < |order| && order[i] == id;
      assert ValuesOf(states)[id] == states[id].value;
    }
  }

  /** The global cursor holds the safe block and every feed's cursor its target round. */
  ghost predicate AtTargets(table: Table, x: Inputs) {
    && RowsOf(table, GLOBAL) != [] && RowsOf(table, GLOBAL)[0].value == x.block
    && forall i :: 0 <= i < |x.targets| ==> RowAt(table, x.targets[i])
  }

  ghost predicate RowAt(table: Table, target: FeedTarget) {
    RowsOf(table, CursorOf(target.feed)) != [] && RowsOf(table, CursorOf(target.feed))[0].value == target.roundId
  }

  lemma MovedToTargets(c: Config, table: Table, plan: Plan, runId: string, now: Instant, after: Table, x: Inputs)
    requires Distinct(c.feeds) && TargetsAreFeeds(c, x.targets) && plan.candidates == Candidates(x.block, x.targets)
    requires VectorMoved(c, table, plan, runId, now, after)
    ensures AtTargets(after, x)
  {
    TargetsDistinct(c, x.targets);
    CandidatesAreIds(c, x.block, x.targets);
    forall i | 0 <= i < |x.targets| ensures RowAt(after, x.targets[i]) {
      CandidateOfTarget(x.block, x.targets, i);
      assert CursorOf(x.targets[i].feed) in Ids(c);
    }
  }

  /** What the run reads and plans, and that nothing it brings along is refused. */
  ghost predicate Sound(c: Config, s: System, states: map<WatermarkIdentity, WatermarkRow>, plan: Plan, x: Inputs) {
    && (forall id :: id in x.order <==> id in Ids(c)) && Strip(x.runId) != []
    && (forall i :: 0 <= i < |x.order| ==> |RowsOf(s.table, x.order[i])| == 1)
    && states == RowsRead(s.table, x.order)
    && CanPlan(c, states, x.oracle, x.block, x.targets, x.maxRounds) && plan == PlanOf(c, states, x)
    && Storable(plan, states) && (plan.ranges != [] ==> Fetchable(s.lake, plan, x))
  }

  lemma PersistsPlan(c: Config, s: System, w: nat, states: map<WatermarkIdentity, WatermarkRow>, plan: Plan, x: Inputs) returns (s': System)
    requires Inv(c, s) && w in s.workers && s.workers[w] == Reading(map[]) && Sound(c, s, states, plan, x)
    ensures Leads(c, s, s') && Inv(c, s') && PlanPersisted(s, w, states, plan, s')
  {
    var next := ReadsAll(c, s, w, x.order);
    s' := PlansAndCaptures(c, next, w, states, plan, x);
    LeadsOn(c, s, next, s');
  }

  /**
   From every reachable state, a worker that is left alone reads the cursors, plans, publishes
   every missing batch, and commits: the global cursor then holds the safe block, every feed's
   cursor its target round, and every planned round is stored.
   */
  lemma UndisturbedRunCommits(c: Config, s: System, w: nat, states: map<WatermarkIdentity, WatermarkRow>, plan: Plan, x: Inputs) returns (s': System)
    requires Inv(c, s) && w in s.workers && s.workers[w] == Reading(map[]) && Sound(c, s, states, plan, x)
    ensures Leads(c, s, s') && s'.commits == s.commits + [plan] && AtTargets(s'.table, x)
    ensures forall id :: Holds(plan.ranges, id) ==> Stored(s'.lake, id)
  {
    var persisted := PersistsPlan(c, s, w, states, plan, x);
    PlannedIsExact(c, states, x.oracle, x.block, x.targets, x.maxRounds);
    ReadIsSound(c, s, x.order, plan, x.runId);
    StageIsOk(c, persisted, w);
    s' := CommitsVector(c, persisted, w, states, plan, x.runId, x.now);
    LeadsOn(c, s, persisted, s');
    MovedToTargets(c, s.table, plan, Strip(x.runId), x.now, s'.table, x);
  }
}
