/** The commit-last forward protocol. */
module ForwardProtocol {
  // The commit-last forward protocol run by any number of interleaved, crashing workers:
  // lease, read, plan, capture, write, record, re-read, compare-and-set
  // (backfill/run_aave_incremental.py, orchestration/run_aave_forward.py,
  // backfill/run_uniswap_incremental.py, orchestration/run_uniswap_recovery.py).

  import opened Wrappers
  import opened Control
  import opened BlockRanges
  import opened CompletedRanges
  import opened Bootstrap
  import opened Watermarks
  import opened Leases
  import opened SourceContract
  import opened Decode

  datatype Pipeline = AaveForward | UniswapForward

  /**
   `legacy` is immutable bootstrap evidence counted before the pipeline's own ledger;
   `expectedOnly` holds for entry points that always commit from the planned value.
   `canonical` says which events a capture of an interval may return.
   */
  datatype Config = Config(
    pipeline: Pipeline,
    expectedOnly: bool,
    identity: WatermarkIdentity,
    projectStart: int,
    maxBlocks: int,
    legacy: seq<BlockRange>,
    initialValue: int,
    contract: string,
    canonical: (BlockRange, seq<Event>) -> bool)

  /** The interval one run planned and the value it was planned on. */
  datatype Job = Job(committed: int, interval: BlockRange, contract: string)

  datatype Stage =
    | Idle
    | Planned(job: Job)
    | Captured(job: Job, leaves: seq<BlockRange>, events: seq<Event>)
    | Writing(job: Job, leaves: seq<BlockRange>, events: seq<Event>)
    | Written(job: Job, leaves: seq<BlockRange>)
    | Persisted(job: Job, leaves: seq<BlockRange>)
    | Recorded(job: Job)
    | Committing(job: Job, expected: int)

  datatype Worker = Worker(lease: Option<LeaseHandle>, stage: Stage)

  /** One committed advance: from and to values, the value it was planned on, the stored run id. */
  datatype Commit = Commit(from: int, to: int, plannedOn: int, runId: string)

  /**
   What an interval's dataset holds on object storage, where overwriting removes the old
   files before the new ones are complete: one complete write, a write that `writer` began
   and has not finished, or anything else, such as leftovers or files of several writers.
   */
  datatype Content = Unfinished(writer: nat) | Broken | Whole(events: seq<Event>)

  /** A dataset; Uniswap batches carry the contract they were committed for. */
  datatype Dataset = Dataset(content: Content, marker: Option<string>)

  /** `stored` is one dataset per interval, named by the interval's bounds alone. */
  datatype System = System(
    lease: LeaseRow,
    table: Table,
    ledger: seq<Evidence>,
    stored: map<BlockRange, Dataset>,
    workers: map<nat, Worker>,
    commits: seq<Commit>)

  /** `FromExpected` compares with the planned value, `FromCurrent` with the value read now. */
  datatype CommitForm = FromExpected | FromCurrent

  datatype Action =
    | LeaseAction(op: LeaseOp)
    | TakeLease(w: nat, op: LeaseOp)
    | ReadAndPlan(w: nat, safeHead: int, contract: string)
    | Capture(w: nat, leaves: seq<BlockRange>, events: seq<Event>)
    | StartWrite(w: nat)
    | Land(w: nat)
    | FinishWrite(w: nat, passes: bool)
    | Mark(w: nat)
    | Record(w: nat, runId: string, processedAt: Instant)
    | CommitRead(w: nat, form: CommitForm)
    | CommitWrite(w: nat, runId: string, now: Instant)
    | DropLease(w: nat)
    | Crash(w: nat)

  function WorkerOf(s: System, w: nat): Worker {
    if w in s.workers then s.workers[w] else Worker(None, Idle)
  }

  function SetStage(s: System, w: nat, stage: Stage): System {
    s.(workers := s.workers[w := WorkerOf(s, w).(stage := stage)])
  }

  function Evidences(leaves: seq<BlockRange>, runId: string, at: Instant): seq<CompletedRange> {
    seq(|leaves|, i requires 0 <= i < |leaves| => CompletedRange(leaves[i], runId, at))
  }

  /** The run id a worker stores: Uniswap runs carry their contract, and blanks are refused. */
  function StoredRunId(c: Config, runId: string, contract: string): Option<string> {
    if c.pipeline.UniswapForward? then
      match SourceContractRunId(runId, contract)
      case Failure(_) => None
      case Success(tagged) => if Strip(tagged) == [] then None else Some(Strip(tagged))
    else if Strip(runId) == [] then None
    else Some(Strip(runId))
  }

  predicate ContractAccepted(c: Config, row: WatermarkRow, contract: string) {
    c.pipeline.UniswapForward? ==> Matches(row.runId, contract)
  }

  /** One atomic step; `None` when the action is not enabled. */
  ghost function Step(c: Config, s: System, a: Action): Option<System> {
    match a
    case LeaseAction(op) => Some(s.(lease := Apply(s.lease, op)))
    case TakeLease(w, op) =>
      if c.pipeline.UniswapForward? && op.Acquire? && Accepts(s.lease, op) && WorkerOf(s, w) == Worker(None, Idle)
      then Some(s.(lease := Apply(s.lease, op), workers := s.workers[w := Worker(IssuedHandle(s.lease, op), Idle)]))
      else None
    case ReadAndPlan(w, safeHead, contract) => PlanStep(c, s, w, safeHead, contract)
    case Capture(w, leaves, events) =>
      var stage := WorkerOf(s, w).stage;
      if stage.Planned? && Tiles(leaves, stage.job.interval.start, stage.job.interval.end) && c.canonical(stage.job.interval, events)
      then Some(SetStage(s, w, Captured(stage.job, leaves, events)))
      else None
    case StartWrite(w) => StartStep(c, s, w)
    case Land(w) => LandStep(s, w)
    case FinishWrite(w, passes) => FinishStep(c, s, w, passes)
    case Mark(w) => MarkStep(s, w)
    case Record(w, runId, processedAt) => RecordStep(c, s, w, runId, processedAt)
    case CommitRead(w, form) => CommitReadStep(c, s, w, form)
    case CommitWrite(w, runId, now) => CommitWriteStep(c, s, w, runId, now)
    case DropLease(w) =>
      var worker := WorkerOf(s, w);
      if worker.stage.Idle? && worker.lease.Some?
      then Some(s.(lease := Apply(s.lease, Release(worker.lease.value)), workers := s.workers[w := Worker(None, Idle)]))
      else None
    case Crash(w) => Some(s.(workers := s.workers[w := Worker(None, Idle)]))
  }

  function PlanStep(c: Config, s: System, w: nat, safeHead: int, contract: string): Option<System> {
    var worker, rows := WorkerOf(s, w), RowsOf(s.table, c.identity);
    if worker.stage.Idle? && (c.pipeline.UniswapForward? ==> worker.lease.Some?) && |rows| == 1
       && ContractAccepted(c, rows[0], contract) then
      match PlanForwardIncrement(rows[0].value, safeHead, c.maxBlocks)
      case Failure(_) => None
      case Success(plan) =>
        if plan.interval.None? then Some(s)
        else Some(SetStage(s, w, Planned(Job(rows[0].value, plan.interval.value, contract))))
    else None
  }

  /** A committed Uniswap batch is kept and only its contract compared. */
  predicate IsCommitted(c: Config, stored: map<BlockRange, Dataset>, interval: BlockRange) {
    c.pipeline.UniswapForward? && interval in stored && stored[interval].marker.Some?
  }

  /** Otherwise writing begins by removing whatever the interval's dataset held. */
  function StartStep(c: Config, s: System, w: nat): Option<System> {
    var stage := WorkerOf(s, w).stage;
    if !stage.Captured? then None
    else
      var r := stage.job.interval;
      if IsCommitted(c, s.stored, r) then
        Some(SetStage(s, w, if s.stored[r].marker == Some(stage.job.contract) then Persisted(stage.job, stage.leaves) else Idle))
      else
        Some(SetStage(s.(stored := s.stored[r := Dataset(Unfinished(w), None)]), w, Writing(stage.job, stage.leaves, stage.events)))
  }

  /** Files of a writer become visible; in a dataset that is not its own any more they only add to the confusion. */
  function Landed(dataset: Dataset, w: nat): Dataset {
    if dataset.content == Unfinished(w) then dataset else dataset.(content := Broken)
  }

  function LandStep(s: System, w: nat): Option<System> {
    var stage := WorkerOf(s, w).stage;
    if stage.Writing? && stage.job.interval in s.stored
    then Some(s.(stored := s.stored[stage.job.interval := Landed(s.stored[stage.job.interval], w)]))
    else None
  }

  /**
   The last files land and the dataset is read back. Alone, a writer has written its events;
   over a dataset of several writers the checks of counts and bounds may pass or fail.
   */
  function FinishStep(c: Config, s: System, w: nat, passes: bool): Option<System> {
    var stage := WorkerOf(s, w).stage;
    if !stage.Writing? || stage.job.interval !in s.stored then None
    else
      var r := stage.job.interval;
      var done := if c.pipeline.UniswapForward? then Written(stage.job, stage.leaves) else Persisted(stage.job, stage.leaves);
      if s.stored[r].content == Unfinished(w)
      then Some(SetStage(s.(stored := s.stored[r := s.stored[r].(content := Whole(stage.events))]), w, done))
      else Some(SetStage(s.(stored := s.stored[r := s.stored[r].(content := Broken)]), w, if passes then done else Idle))
  }

  /** Only Uniswap batches are marked. */
  function MarkStep(s: System, w: nat): Option<System> {
    var stage := WorkerOf(s, w).stage;
    if stage.Written? && stage.job.interval in s.stored
    then Some(SetStage(s.(stored := s.stored[stage.job.interval := s.stored[stage.job.interval].(marker := Some(stage.job.contract))]),
                       w, Persisted(stage.job, stage.leaves)))
    else None
  }

  /** A rejected recording transaction raises: the run ends and the ledger keeps its rows. */
  function RecordStep(c: Config, s: System, w: nat, runId: string, processedAt: Instant): Option<System> {
    var stage := WorkerOf(s, w).stage;
    if stage.Persisted? then
      match RecordAll(s.ledger, c.identity, Evidences(stage.leaves, runId, processedAt))
      case Failure(_) => Some(SetStage(s, w, Idle))
      case Success(after) => Some(SetStage(s.(ledger := after), w, Recorded(stage.job)))
    else None
  }

  /** The read inside both commit functions; every refusal ends the run. */
  function CommitReadStep(c: Config, s: System, w: nat, form: CommitForm): Option<System> {
    var stage, rows := WorkerOf(s, w).stage, RowsOf(s.table, c.identity);
    if stage.Recorded? && (c.expectedOnly ==> form.FromExpected?) then
      if |rows| != 1 || !ContractAccepted(c, rows[0], stage.job.contract) then Some(SetStage(s, w, Idle))
      else if form.FromExpected? && rows[0].value != stage.job.committed then Some(SetStage(s, w, Idle))
      else if ValidateCandidate(rows[0].value, stage.job.interval.end) == Success(true)
      then Some(SetStage(s, w, Committing(stage.job, rows[0].value)))
      else Some(SetStage(s, w, Idle))
    else None
  }

  /** The compare-and-set; losing the race ends the run without a change. */
  function CommitWriteStep(c: Config, s: System, w: nat, runId: string, now: Instant): Option<System> {
    var stage := WorkerOf(s, w).stage;
    if stage.Committing? && StoredRunId(c, runId, stage.job.contract).Some? then
      var stored, to := StoredRunId(c, runId, stage.job.contract).value, stage.job.interval.end;
      match AdvanceTx(s.table, c.identity, stage.expected, to, stored, now)
      case Failure(_) => Some(SetStage(s, w, Idle))
      case Success(after) =>
        var commit := Commit(stage.expected, to, stage.job.committed, stored);
        Some(SetStage(s.(table := after, commits := s.commits + [commit]), w, Idle))
    else None
  }

  /** Combined immutable and forward evidence (`combined_aave_coverage`). */
  function CoverageOf(c: Config, s: System): seq<BlockRange> {
    c.legacy + RangesOf(s.ledger, c.identity)
  }

  /** The watermark starts at a value that passed the eligibility check. */
  ghost predicate Init(c: Config, s: System) {
    && OneRowEach(s.table)
    && |RowsOf(s.table, c.identity)| == 1
    && RowsOf(s.table, c.identity)[0].value == c.initialValue
    && Eligible(c.projectStart, c.initialValue, CoverageOf(c, s)) == Some(c.initialValue)
    && c.projectStart <= c.initialValue
    && ContractAccepted(c, RowsOf(s.table, c.identity)[0], c.contract)
    && s.workers == map[] && s.commits == []
  }

  /** A job reaches from a committed value to its end with nothing missing in between. */
  ghost predicate JobCovered(job: Job, cover: seq<BlockRange>) {
    forall b :: job.interval.Contains(b) ==> Covered(cover, b)
  }

  ghost predicate StageOk(c: Config, stage: Stage, v: int, cover: seq<BlockRange>) {
    stage.Idle? ||
    (&& stage.job.committed <= v
     && stage.job.interval.start == stage.job.committed + 1
     && c.projectStart <= stage.job.committed
     && (c.pipeline.UniswapForward? ==>
           ValidFingerprint(Normalized(stage.job.contract)) && Normalized(stage.job.contract) == Normalized(c.contract))
     && (stage.Captured? || stage.Writing? || stage.Written? || stage.Persisted? ==> Tiles(stage.leaves, stage.job.interval.start, stage.job.interval.end))
     && (stage.Recorded? || stage.Committing? ==> JobCovered(stage.job, cover))
     && (stage.Committing? ==>
           && stage.job.committed <= stage.expected < stage.job.interval.end
           && (c.expectedOnly ==> stage.expected == stage.job.committed)))
  }

  /** An advance starts at its predecessor's end and goes up. */
  ghost predicate Linked(c: Config, commits: seq<Commit>, i: nat) {
    && i < |commits|
    && commits[i].plannedOn <= commits[i].from < commits[i].to
    && commits[i].from == (if i == 0 then c.initialValue else commits[i - 1].to)
  }

  /** The advances so far lead from the initial value to the current one without a jump. */
  ghost predicate ChainOk(c: Config, commits: seq<Commit>, v: int) {
    && v == (if commits == [] then c.initialValue else commits[|commits| - 1].to)
    && (forall i :: 0 <= i < |commits| ==> Linked(c, commits, i))
    && (c.expectedOnly ==> forall i :: 0 <= i < |commits| ==> commits[i].plannedOn == commits[i].from)
    && (c.pipeline.UniswapForward? ==> forall i :: 0 <= i < |commits| ==> Matches(commits[i].runId, c.contract))
  }

  ghost predicate Inv(c: Config, s: System) {
    && OneRowEach(s.table)
    && |RowsOf(s.table, c.identity)| == 1
    && var row := RowsOf(s.table, c.identity)[0];
       var cover := CoverageOf(c, s);
       && c.projectStart <= c.initialValue <= row.value <= ContiguousEnd(c.projectStart, cover)
       && ContractAccepted(c, row, c.contract)
       && (forall w :: w in s.workers ==> StageOk(c, s.workers[w].stage, row.value, cover))
       && ChainOk(c, s.commits, row.value)
  }

  lemma StageOkMonotone(c: Config, stage: Stage, v: int, v': int, cover: seq<BlockRange>, cover': seq<BlockRange>)
    requires StageOk(c, stage, v, cover) && v <= v'
    requires forall b :: Covered(cover, b) ==> Covered(cover', b)
    ensures StageOk(c, stage, v', cover')
  {
  }

  lemma InitInv(c: Config, s: System)
    requires Init(c, s)
    ensures Inv(c, s)
  {
  }

  lemma PlanKeepsInv(c: Config, s: System, w: nat, safeHead: int, contract: string)
    requires Inv(c, s) && PlanStep(c, s, w, safeHead, contract).Some?
    ensures Inv(c, PlanStep(c, s, w, safeHead, contract).value)
  {
    var row := RowsOf(s.table, c.identity)[0];
    if c.pipeline.UniswapForward? {
      MatchesOneContract(row.runId, contract, c.contract);
    }
  }

  lemma RecordKeepsInv(c: Config, s: System, w: nat, runId: string, processedAt: Instant)
    requires Inv(c, s) && RecordStep(c, s, w, runId, processedAt).Some?
    ensures Inv(c, RecordStep(c, s, w, runId, processedAt).value)
  {
    var stage := WorkerOf(s, w).stage;
    var cs := Evidences(stage.leaves, runId, processedAt);
    var s' := RecordStep(c, s, w, runId, processedAt).value;
    var row := RowsOf(s.table, c.identity)[0];
    var cover, cover' := CoverageOf(c, s), CoverageOf(c, s');
    assert w in s.workers;
    if RecordAll(s.ledger, c.identity, cs).Success? {
      RecordedCoverage(s.ledger, c.identity, cs);
      CoveredConcat(c.legacy, RangesOf(s.ledger, c.identity));
      CoveredConcat(c.legacy, RangesOf(s'.ledger, c.identity));
      assert RangesIn(cs) == stage.leaves;
      TilesCover(stage.leaves, stage.job.interval.start, stage.job.interval.end);
      assert JobCovered(stage.job, cover');
      ContiguousEndMonotone(c.projectStart, cover, cover');
      forall x | x in s'.workers ensures StageOk(c, s'.workers[x].stage, row.value, cover') {
        StageOkMonotone(c, s.workers[x].stage, row.value, row.value, cover, cover');
      }
    } else {
      assert cover' == cover;
    }
  }

  lemma StageKeepsInv(c: Config, s: System, stored: map<BlockRange, Dataset>, w: nat, stage: Stage)
    requires Inv(c, s) && StageOk(c, stage, RowsOf(s.table, c.identity)[0].value, CoverageOf(c, s))
    ensures Inv(c, SetStage(s.(stored := stored), w, stage))
  {
    var s' := SetStage(s.(stored := stored), w, stage);
    assert CoverageOf(c, s') == CoverageOf(c, s);
  }

  /** Writing a dataset changes neither evidence nor watermark. */
  lemma WriteKeepsInv(c: Config, s: System, a: Action)
    requires Inv(c, s) && Step(c, s, a).Some? && (a.StartWrite? || a.FinishWrite? || a.Mark?)
    ensures Inv(c, Step(c, s, a).value)
  {
    var s' := Step(c, s, a).value;
    assert a.w in s.workers && s' == SetStage(s.(stored := s'.stored), a.w, WorkerOf(s', a.w).stage);
    StageKeepsInv(c, s, s'.stored, a.w, WorkerOf(s', a.w).stage);
  }

  lemma CommitReadKeepsInv(c: Config, s: System, w: nat, form: CommitForm)
    requires Inv(c, s) && CommitReadStep(c, s, w, form).Some?
    ensures Inv(c, CommitReadStep(c, s, w, form).value)
  {
    assert w in s.workers;
  }

  /** A commit from the current value continues the chain. */
  lemma ChainExtends(c: Config, commits: seq<Commit>, v: int, commit: Commit)
    requires ChainOk(c, commits, v) && commit.from == v < commit.to && commit.plannedOn <= v
    requires c.expectedOnly ==> commit.plannedOn == commit.from
    requires c.pipeline.UniswapForward? ==> Matches(commit.runId, c.contract)
    ensures ChainOk(c, commits + [commit], commit.to)
  {
    forall i | 0 <= i < |commits + [commit]| ensures Linked(c, commits + [commit], i) {
      if i < |commits| { assert Linked(c, commits, i); }
    }
  }

  /** A stage that is about to write stores a run id of the accepted contract. */
  lemma StoredRunIdMatches(c: Config, stage: Stage, v: int, cover: seq<BlockRange>, runId: string)
    requires stage.Committing? && StageOk(c, stage, v, cover) && StoredRunId(c, runId, stage.job.contract).Some?
    ensures c.pipeline.UniswapForward? ==> Matches(StoredRunId(c, runId, stage.job.contract).value, c.contract)
  {
    if c.pipeline.UniswapForward? { TaggedRunIdIsStoredWhole(runId, stage.job.contract); }
  }

  lemma IdleKeepsInv(c: Config, s: System, w: nat)
    requires Inv(c, s)
    ensures Inv(c, SetStage(s, w, Idle))
  {
    assert CoverageOf(c, SetStage(s, w, Idle)) == CoverageOf(c, s);
  }

  /** Moving the row and the history up together keeps the invariant while the evidence reaches there. */
  lemma AdvanceKeepsInv(c: Config, s: System, row: WatermarkRow, commit: Commit)
    requires Inv(c, s) && row.value == commit.to && RowsOf(s.table, c.identity)[0].value <= row.value
    requires row.value <= ContiguousEnd(c.projectStart, CoverageOf(c, s)) && ContractAccepted(c, row, c.contract)
    requires ChainOk(c, s.commits + [commit], row.value)
    ensures Inv(c, s.(table := s.table[c.identity := [row]], commits := s.commits + [commit]))
  {
    var s' := s.(table := s.table[c.identity := [row]], commits := s.commits + [commit]);
    var cover := CoverageOf(c, s);
    assert CoverageOf(c, s') == cover;
    forall w | w in s.workers ensures StageOk(c, s.workers[w].stage, row.value, cover) {
      StageOkMonotone(c, s.workers[w].stage, RowsOf(s.table, c.identity)[0].value, row.value, cover, cover);
    }
  }

  /**
   The heart of the protocol: a job planned on any earlier value covers from no later than
   the current one, so a successful compare-and-set never commits past a gap.
   */
  lemma CommitWriteKeepsInv(c: Config, s: System, w: nat, runId: string, now: Instant)
    requires Inv(c, s) && CommitWriteStep(c, s, w, runId, now).Some?
    ensures Inv(c, CommitWriteStep(c, s, w, runId, now).value)
  {
    assert w in s.workers;
    var stage, row, cover := s.workers[w].stage, RowsOf(s.table, c.identity)[0], CoverageOf(c, s);
    var stored, to := StoredRunId(c, runId, stage.job.contract).value, stage.job.interval.end;
    AdvanceIsCompareAndSet(s.table, c.identity, stage.expected, to, stored, now);
    if AdvanceTx(s.table, c.identity, stage.expected, to, stored, now).Success? {
      var commit := Commit(stage.expected, to, stage.job.committed, stored);
      CoverageExtends(c.projectStart, cover, stage.job.interval.start, to);
      StoredRunIdMatches(c, stage, row.value, cover, runId);
      ChainExtends(c, s.commits, row.value, commit);
      AdvanceKeepsInv(c, s, WatermarkRow(to, stored, now), commit);
      IdleKeepsInv(c, s.(table := s.table[c.identity := [WatermarkRow(to, stored, now)]], commits := s.commits + [commit]), w);
    } else {
      IdleKeepsInv(c, s, w);
    }
  }

  lemma StepKeepsInv(c: Config, s: System, a: Action)
    requires Inv(c, s) && Step(c, s, a).Some?
    ensures Inv(c, Step(c, s, a).value)
  {
    match a
    case ReadAndPlan(w, safeHead, contract) => PlanKeepsInv(c, s, w, safeHead, contract);
    case Record(w, runId, processedAt) => RecordKeepsInv(c, s, w, runId, processedAt);
    case CommitRead(w, form) => CommitReadKeepsInv(c, s, w, form);
    case CommitWrite(w, runId, now) => CommitWriteKeepsInv(c, s, w, runId, now);
    case Capture(w, _, _) => assert w in s.workers;
    case StartWrite(_) => WriteKeepsInv(c, s, a);
    case Land(_) => assert CoverageOf(c, Step(c, s, a).value) == CoverageOf(c, s);
    case FinishWrite(_, _) => WriteKeepsInv(c, s, a);
    case Mark(_) => WriteKeepsInv(c, s, a);
    case _ =>
  }

  /** A run: any interleaving of enabled steps from an initialized system. */
  ghost predicate IsRun(c: Config, states: seq<System>, actions: seq<Action>) {
    && |states| == |actions| + 1
    && Init(c, states[0])
    && forall i :: 0 <= i < |actions| ==> StepAt(c, states, actions, i)
  }

  ghost predicate StepAt(c: Config, states: seq<System>, actions: seq<Action>, i: nat) {
    |states| == |actions| + 1 && i < |actions| && Step(c, states[i], actions[i]) == Some(states[i + 1])
  }

  lemma {:induction false} RunKeepsInv(c: Config, states: seq<System>, actions: seq<Action>, n: nat)
    requires IsRun(c, states, actions) && n < |states|
    ensures Inv(c, states[n])
  {
    if n == 0 {
      InitInv(c, states[0]);
    } else {
      RunKeepsInv(c, states, actions, n - 1);
      assert StepAt(c, states, actions, n - 1);
      StepKeepsInv(c, states[n - 1], actions[n - 1]);
    }
  }

  function WatermarkOf(c: Config, s: System): int
    requires RowsOf(s.table, c.identity) != []
  {
    RowsOf(s.table, c.identity)[0].value
  }

  /**
   In every reachable state, with crashes, lease takeovers and both commit forms mixed,
   every block from the project start through the watermark has recorded evidence.
   */
  lemma CommittedBlocksAreRecorded(c: Config, states: seq<System>, actions: seq<Action>, n: nat)
    requires IsRun(c, states, actions) && n < |states|
    ensures RowsOf(states[n].table, c.identity) != []
    ensures ContiguousEnd(c.projectStart, CoverageOf(c, states[n])) >= WatermarkOf(c, states[n])
    ensures forall b :: c.projectStart <= b <= WatermarkOf(c, states[n]) ==> Covered(CoverageOf(c, states[n]), b)
  {
    RunKeepsInv(c, states, actions, n);
    ContiguousEndIsGreatest(c.projectStart, CoverageOf(c, states[n]));
  }

  /** A step keeps the history as a prefix and never lowers the watermark. */
  lemma StepGrows(c: Config, s: System, a: Action)
    requires Inv(c, s) && Step(c, s, a).Some?
    ensures var s' := Step(c, s, a).value;
      && s.commits <= s'.commits
      && RowsOf(s'.table, c.identity) != []
      && WatermarkOf(c, s) <= WatermarkOf(c, s')
  {
    if a.CommitWrite? {
      var stage := WorkerOf(s, a.w).stage;
      AdvanceIsCompareAndSet(s.table, c.identity, stage.expected, stage.job.interval.end,
        StoredRunId(c, a.runId, stage.job.contract).value, a.now);
    }
  }

  lemma AdjacentStatesGrow(c: Config, states: seq<System>, actions: seq<Action>, n: nat)
    requires IsRun(c, states, actions) && n < |actions|
    ensures states[n].commits <= states[n + 1].commits
    ensures RowsOf(states[n].table, c.identity) != [] && RowsOf(states[n + 1].table, c.identity) != []
    ensures WatermarkOf(c, states[n]) <= WatermarkOf(c, states[n + 1])
  {
    RunKeepsInv(c, states, actions, n);
    assert StepAt(c, states, actions, n);
    StepGrows(c, states[n], actions[n]);
  }

  /** The watermark and the commit history only grow along a run. */
  lemma {:induction false} HistoryGrows(c: Config, states: seq<System>, actions: seq<Action>, m: nat, n: nat)
    requires IsRun(c, states, actions) && m < n < |states|
    ensures states[m].commits <= states[n].commits
    ensures RowsOf(states[m].table, c.identity) != [] && RowsOf(states[n].table, c.identity) != []
    ensures WatermarkOf(c, states[m]) <= WatermarkOf(c, states[n])
    decreases n
  {
    AdjacentStatesGrow(c, states, actions, n - 1);
    if m < n - 1 { HistoryGrows(c, states, actions, m, n - 1); }
  }

  /**
   Commits form one strictly increasing chain: each starts where the previous ended, and no
   two ever start from the same value, whoever believes to hold the lease.
   */
  lemma CommitsFormOneChain(c: Config, states: seq<System>, actions: seq<Action>, n: nat, i: nat, j: nat)
    requires IsRun(c, states, actions) && n < |states|
    requires i < j < |states[n].commits|
    ensures var h := states[n].commits;
      && h[i].from < h[i].to <= h[j].from < h[j].to
      && h[0].from == c.initialValue
      && h[i + 1].from == h[i].to
      && (c.expectedOnly ==> h[j].plannedOn == h[j].from)
    ensures RowsOf(states[n].table, c.identity) != []
    ensures WatermarkOf(c, states[n]) == states[n].commits[|states[n].commits| - 1].to
  {
    RunKeepsInv(c, states, actions, n);
    var h := states[n].commits;
    assert Linked(c, h, 0) && Linked(c, h, i) && Linked(c, h, i + 1) && Linked(c, h, j);
    ChainIsOrdered(c, states[n].commits, WatermarkOf(c, states[n]), i, j);
  }

  lemma {:induction false} ChainIsOrdered(c: Config, h: seq<Commit>, v: int, i: nat, j: nat)
    requires ChainOk(c, h, v) && i < j < |h|
    ensures h[i].to <= h[j].from
    decreases j
  {
    assert Linked(c, h, j);
    if i + 1 < j {
      ChainIsOrdered(c, h, v, i, j - 1);
      assert Linked(c, h, j - 1);
    }
  }

  /** Every Uniswap run id ever committed, and the current one, keeps the accepted contract. */
  lemma UniswapChainKeepsContract(c: Config, states: seq<System>, actions: seq<Action>, n: nat, i: nat)
    requires IsRun(c, states, actions) && n < |states| && c.pipeline.UniswapForward?
    requires i < |states[n].commits|
    ensures EndsWith(states[n].commits[i].runId, Suffix(c.contract))
    ensures RowsOf(states[n].table, c.identity) != [] && EndsWith(RowsOf(states[n].table, c.identity)[0].runId, Suffix(c.contract))
  {
    RunKeepsInv(c, states, actions, n);
  }

  // ----- What a commit writes -----

  /** The interval a run planned from the value it read and the safe head it saw. */
  ghost predicate PlannedFrom(c: Config, committed: int, safeHead: int, interval: BlockRange) {
    && interval.start == committed + 1 <= interval.end <= safeHead
    && interval.end <= committed + c.maxBlocks
    && (interval.end == safeHead || interval.end == committed + c.maxBlocks)
  }

  /** Action `k` read the watermark `committed` and the safe head and planned the interval. */
  ghost predicate PlannedAt(c: Config, states: seq<System>, actions: seq<Action>, k: nat, committed: int, interval: BlockRange) {
    && k < |actions| < |states| && actions[k].ReadAndPlan?
    && RowsOf(states[k].table, c.identity) != [] && WatermarkOf(c, states[k]) == committed
    && PlannedFrom(c, committed, actions[k].safeHead, interval)
  }

  ghost predicate PlannedBefore(c: Config, states: seq<System>, actions: seq<Action>, n: nat, committed: int, interval: BlockRange) {
    exists k: nat :: k < n && PlannedAt(c, states, actions, k, committed, interval)
  }

  /** Every job at work was planned earlier in the run. */
  ghost predicate JobsPlanned(c: Config, states: seq<System>, actions: seq<Action>, n: nat) {
    n < |states| && forall w :: w in states[n].workers && !states[n].workers[w].stage.Idle? ==>
      PlannedBefore(c, states, actions, n, states[n].workers[w].stage.job.committed, states[n].workers[w].stage.job.interval)
  }

  /** A worker is at work on the job it had, or on one it plans now. */
  lemma JobsStay(c: Config, s: System, a: Action, w: nat)
    requires Step(c, s, a).Some? && w in Step(c, s, a).value.workers && !Step(c, s, a).value.workers[w].stage.Idle?
    ensures var job := Step(c, s, a).value.workers[w].stage.job;
      || (w in s.workers && !s.workers[w].stage.Idle? && s.workers[w].stage.job == job)
      || (a.ReadAndPlan? && a.w == w && RowsOf(s.table, c.identity) != [] && WatermarkOf(c, s) == job.committed
          && PlannedFrom(c, job.committed, a.safeHead, job.interval))
  {
  }

  lemma PlannedStays(c: Config, states: seq<System>, actions: seq<Action>, n: nat, committed: int, interval: BlockRange)
    requires PlannedBefore(c, states, actions, n, committed, interval)
    ensures PlannedBefore(c, states, actions, n + 1, committed, interval)
  {
    var k: nat :| k < n && PlannedAt(c, states, actions, k, committed, interval);
  }

  lemma {:induction false} RunPlansJobs(c: Config, states: seq<System>, actions: seq<Action>, n: nat)
    requires IsRun(c, states, actions) && n < |states|
    ensures JobsPlanned(c, states, actions, n)
  {
    if n > 0 {
      var k := n - 1;
      RunPlansJobs(c, states, actions, k);
      assert StepAt(c, states, actions, k);
      forall w | w in states[n].workers && !states[n].workers[w].stage.Idle?
        ensures PlannedBefore(c, states, actions, n, states[n].workers[w].stage.job.committed, states[n].workers[w].stage.job.interval)
      {
        var job := states[n].workers[w].stage.job;
        JobsStay(c, states[k], actions[k], w);
        if w in states[k].workers && !states[k].workers[w].stage.Idle? && states[k].workers[w].stage.job == job {
          PlannedStays(c, states, actions, k, job.committed, job.interval);
        } else {
          assert PlannedAt(c, states, actions, k, job.committed, job.interval);
        }
      }
    }
  }

  /** A step commits the whole interval of a job at work, or nothing. */
  lemma CommitsWholeJob(c: Config, s: System, a: Action)
    requires Inv(c, s) && Step(c, s, a).Some? && Step(c, s, a).value.commits != s.commits
    ensures var s' := Step(c, s, a).value;
      && a.CommitWrite? && a.w in s.workers && s.workers[a.w].stage.Committing?
      && |s'.commits| == |s.commits| + 1 && s.commits == s'.commits[..|s.commits|]
      && var commit, job := s'.commits[|s.commits|], s.workers[a.w].stage.job;
         commit.to == job.interval.end && commit.plannedOn == job.committed
  {
    assert (s.commits + [Step(c, s, a).value.commits[|s.commits|]])[..|s.commits|] == s.commits;
  }

  /**
   Every commit of a run moves the watermark to the end of an interval that the run planned:
   as far as the safe head it saw and the block limit allow from the value it read.
   */
  lemma {:induction false} CommitsReachPlannedEnds(c: Config, states: seq<System>, actions: seq<Action>, n: nat, i: nat)
    returns (k: nat, safeHead: int)
    requires IsRun(c, states, actions) && n < |states| && i < |states[n].commits|
    ensures var commit := states[n].commits[i];
      && k < n && actions[k].ReadAndPlan? && actions[k].safeHead == safeHead
      && RowsOf(states[k].table, c.identity) != [] && WatermarkOf(c, states[k]) == commit.plannedOn
      && commit.plannedOn < commit.to <= safeHead && commit.to <= commit.plannedOn + c.maxBlocks
      && (commit.to == safeHead || commit.to == commit.plannedOn + c.maxBlocks)
  {
    var m := n - 1;
    RunKeepsInv(c, states, actions, m);
    assert StepAt(c, states, actions, m);
    if states[n].commits != states[m].commits { CommitsWholeJob(c, states[m], actions[m]); }
    if i < |states[m].commits| {
      assert states[m].commits[i] == states[n].commits[i];
      k, safeHead := CommitsReachPlannedEnds(c, states, actions, m, i);
    } else {
      RunPlansJobs(c, states, actions, m);
      var job := states[m].workers[actions[m].w].stage.job;
      k :| k < m && PlannedAt(c, states, actions, k, job.committed, job.interval);
      safeHead := actions[k].safeHead;
    }
  }

  /**
   A worker about to commit leaves the row at the end of its interval when the row still
   holds the value it read, and leaves the row alone when it does not.
   */
  lemma CommitLands(c: Config, s: System, w: nat, runId: string, now: Instant)
    requires Inv(c, s) && WorkerOf(s, w).stage.Committing? && Step(c, s, CommitWrite(w, runId, now)).Some?
    ensures var s', stage := Step(c, s, CommitWrite(w, runId, now)).value, WorkerOf(s, w).stage;
      && RowsOf(s'.table, c.identity) != []
      && WatermarkOf(c, s') == (if WatermarkOf(c, s) == stage.expected then stage.job.interval.end else WatermarkOf(c, s))
      && (s'.table == s.table <==> WatermarkOf(c, s) != stage.expected)
  {
    assert w in s.workers;
    var stage := WorkerOf(s, w).stage;
    AdvanceIsCompareAndSet(s.table, c.identity, stage.expected, stage.job.interval.end,
      StoredRunId(c, runId, stage.job.contract).value, now);
  }
}
