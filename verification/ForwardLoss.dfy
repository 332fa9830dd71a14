/** A run that loses recorded events. */
module ForwardLoss {
  // Two Aave runs on one interval, the second of which dies while it overwrites what the
  // first has stored and recorded (backfill/run_aave_incremental.py, spark/parquet.py).

  import opened Wrappers
  import opened Control
  import opened BlockRanges
  import opened CompletedRanges
  import opened Bootstrap
  import opened Watermarks
  import opened Leases
  import opened Decode
  import opened ForwardProtocol
  import opened ForwardStorage

  function Id(): WatermarkIdentity { WatermarkIdentity("aave", "forward", 1, "block") }

  function Interval(): BlockRange { BlockRange(1, 1) }

  function TheEvent(): Event { Event(EventKey("chain", "tx", 0), 1, "borrow", "") }

  /** The project starts at block 0, which is recorded and committed; one block per run. */
  function TheConfig(): Config {
    Config(AaveForward, true, Id(), 0, 1, [BlockRange(0, 0)], 0, "", (r, es) => es == [TheEvent()])
  }

  function TheJob(): Job { Job(0, Interval(), "") }

  function InStage(stage: Stage): Worker { Worker(None, stage) }

  function Leaves(): seq<BlockRange> { [Interval()] }

  function Stored(): Dataset { Dataset(Whole([TheEvent()]), None) }

  function Row(runId: string): seq<Evidence> { [Evidence(Id(), Interval(), runId, 1)] }

  function TableAt(value: int, runId: string, at: Instant): Table { map[Id() := [WatermarkRow(value, runId, at)]] }

  /** The states of the run, one for each number of steps taken. */
  function StateAt(n: nat, lease: LeaseRow, runId: string): System
    requires n <= 11
  {
    var first := if n == 0 then map[]
      else map[0 := InStage(
        if n == 1 then Planned(TheJob())
        else if n == 2 then Captured(TheJob(), Leaves(), [TheEvent()])
        else if n == 3 then Writing(TheJob(), Leaves(), [TheEvent()])
        else if n == 4 then Persisted(TheJob(), Leaves())
        else if n <= 9 then Recorded(TheJob())
        else if n == 10 then Committing(TheJob(), 0)
        else Idle)];
    var second := if n < 6 then map[]
      else map[1 := InStage(
        if n == 6 then Planned(TheJob())
        else if n == 7 then Captured(TheJob(), Leaves(), [TheEvent()])
        else if n == 8 then Writing(TheJob(), Leaves(), [TheEvent()])
        else Idle)];
    System(lease,
      if n < 11 then TableAt(0, runId, 0) else TableAt(1, Strip(runId), 2),
      if n < 5 then [] else Row(runId),
      if n < 3 then map[]
      else map[Interval() := if n == 3 then Dataset(Unfinished(0), None) else if n < 8 then Stored() else Dataset(Unfinished(1), None)],
      first + second,
      if n < 11 then [] else [Commit(0, 1, 0, Strip(runId))])
  }

  function ActionAt(n: nat, runId: string): Action
    requires n < 11
  {
    match n
    case 0 => ReadAndPlan(0, 1, "")
    case 1 => Capture(0, Leaves(), [TheEvent()])
    case 2 => StartWrite(0)
    case 3 => FinishWrite(0, true)
    case 4 => Record(0, runId, 1)
    case 5 => ReadAndPlan(1, 1, "")
    case 6 => Capture(1, Leaves(), [TheEvent()])
    case 7 => StartWrite(1)
    case 8 => Crash(1)
    case 9 => CommitRead(0, FromExpected)
    case _ => CommitWrite(0, runId, 2)
  }

  lemma StartIsInitial(lease: LeaseRow, runId: string)
    ensures Init(TheConfig(), StateAt(0, lease, runId)) && StoreInit(TheConfig(), StateAt(0, lease, runId).stored)
    ensures !Covered(CoverageOf(TheConfig(), StateAt(0, lease, runId)), 1)
  {
    var c, s := TheConfig(), StateAt(0, lease, runId);
    assert RangesOf([], Id()) == [] && CoverageOf(c, s) == [BlockRange(0, 0)];
    assert BlockRange(0, 0) in CoverageOf(c, s) && BlockRange(0, 0).Contains(0);
    EligibleIffGapFree(0, 0, CoverageOf(c, s));
  }

  ghost predicate StepOk(n: nat, lease: LeaseRow, runId: string)
    requires n < 11
  {
    Step(TheConfig(), StateAt(n, lease, runId), ActionAt(n, runId)) == Some(StateAt(n + 1, lease, runId))
  }

  /** A step is taken when it is enabled and its result agrees with the next state field by field. */
  lemma SameFields(n: nat, lease: LeaseRow, runId: string)
    requires n < 11 && Step(TheConfig(), StateAt(n, lease, runId), ActionAt(n, runId)).Some?
    requires var next, t := Step(TheConfig(), StateAt(n, lease, runId), ActionAt(n, runId)).value, StateAt(n + 1, lease, runId);
      && next.lease == t.lease && next.table == t.table && next.ledger == t.ledger
      && next.stored == t.stored && next.workers == t.workers && next.commits == t.commits
    ensures StepOk(n, lease, runId)
  {
  }

  /** The first run plans, captures, writes. */
  lemma FirstRunSteps(n: nat, lease: LeaseRow, runId: string)
    requires n < 4
    ensures StepOk(n, lease, runId)
  {
    var s := StateAt(n, lease, runId);
    if n == 0 { assert WorkerOf(s, 0) == InStage(Idle) && RowsOf(s.table, Id()) == [WatermarkRow(0, runId, 0)]; }
    if n == 1 { assert WorkerOf(s, 0) == InStage(Planned(TheJob())); }
    if n == 2 { assert WorkerOf(s, 0) == InStage(Captured(TheJob(), Leaves(), [TheEvent()])); }
    if n == 3 { assert WorkerOf(s, 0) == InStage(Writing(TheJob(), Leaves(), [TheEvent()])); }
    SameFields(n, lease, runId);
  }

  lemma RecordSteps(lease: LeaseRow, runId: string)
    ensures StepOk(4, lease, runId)
  {
    var s, cs := StateAt(4, lease, runId), Evidences(Leaves(), runId, 1);
    assert WorkerOf(s, 0) == InStage(Persisted(TheJob(), Leaves()));
    assert cs == [CompletedRange(Interval(), runId, 1)] && cs[..0] == [];
    assert RecordAll([], Id(), cs) == RecordOne([], Id(), cs[0]);
    assert [] + Row(runId) == Row(runId);
    SameFields(4, lease, runId);
  }

  /** The second run plans the same interval and captures it. */
  lemma SecondRunPlans(n: nat, lease: LeaseRow, runId: string)
    requires n == 5
    ensures StepOk(n, lease, runId)
  {
    var s := StateAt(n, lease, runId);
    assert WorkerOf(s, 1) == InStage(Idle) && RowsOf(s.table, Id()) == [WatermarkRow(0, runId, 0)];
    SameFields(n, lease, runId);
  }

  lemma SecondRunCaptures(n: nat, lease: LeaseRow, runId: string)
    requires n == 6
    ensures StepOk(n, lease, runId)
  {
    assert WorkerOf(StateAt(n, lease, runId), 1) == InStage(Planned(TheJob()));
    SameFields(n, lease, runId);
  }

  /** It begins to overwrite the dataset and dies. */
  lemma SecondRunOverwrites(n: nat, lease: LeaseRow, runId: string)
    requires n == 7
    ensures StepOk(n, lease, runId)
  {
    assert WorkerOf(StateAt(n, lease, runId), 1) == InStage(Captured(TheJob(), Leaves(), [TheEvent()]));
    SameFields(n, lease, runId);
  }

  lemma SecondRunDies(n: nat, lease: LeaseRow, runId: string)
    requires n == 8
    ensures StepOk(n, lease, runId)
  {
    SameFields(n, lease, runId);
  }

  /** The first run, which has recorded the interval, commits. */
  lemma CommitReads(n: nat, lease: LeaseRow, runId: string)
    requires n == 9
    ensures StepOk(n, lease, runId)
  {
    var s := StateAt(n, lease, runId);
    assert WorkerOf(s, 0) == InStage(Recorded(TheJob())) && RowsOf(s.table, Id()) == [WatermarkRow(0, runId, 0)];
    SameFields(n, lease, runId);
  }

  lemma CommitWrites(n: nat, lease: LeaseRow, runId: string)
    requires n == 10 && Strip(runId) != []
    ensures StepOk(n, lease, runId)
  {
    AdvanceIsCompareAndSet(TableAt(0, runId, 0), Id(), 0, 1, Strip(runId), 2);
    assert WorkerOf(StateAt(n, lease, runId), 0) == InStage(Committing(TheJob(), 0));
    SameFields(n, lease, runId);
  }

  lemma EachStep(n: nat, lease: LeaseRow, runId: string)
    requires n < 11 && Strip(runId) != []
    ensures StepOk(n, lease, runId)
  {
    if n < 4 { FirstRunSteps(n, lease, runId); }
    else if n == 4 { RecordSteps(lease, runId); }
    else if n == 5 { SecondRunPlans(n, lease, runId); }
    else if n == 6 { SecondRunCaptures(n, lease, runId); }
    else if n == 7 { SecondRunOverwrites(n, lease, runId); }
    else if n == 8 { SecondRunDies(n, lease, runId); }
    else if n == 9 { CommitReads(n, lease, runId); }
    else { CommitWrites(n, lease, runId); }
  }

  /** Only one worker at a time is between writing and recording. */
  lemma OneAtATime(n: nat, lease: LeaseRow, runId: string)
    requires n <= 11
    ensures OneOwnerIn(StateAt(n, lease, runId))
  {
  }

  lemma EndIsLost(n: nat, lease: LeaseRow, runId: string)
    requires n == 11
    ensures var last := StateAt(n, lease, runId);
      && RowsOf(last.table, Id()) != [] && WatermarkOf(TheConfig(), last) == 1
      && Covered(CoverageOf(TheConfig(), last), 1) && !HeldBy(last.stored, 1)
  {
    var last := StateAt(n, lease, runId);
    assert RangesOf(Row(runId), Id()) == [Interval()];
    assert Interval() in CoverageOf(TheConfig(), last) && Interval().Contains(1);
    assert forall r :: !IsWhole(last.stored, r);
  }

  /**
   Block 1 ends up recorded and committed while no dataset holds its event, although only
   one worker at a time was between writing the interval and recording it.
   */
  lemma RewriteCanLose(lease: LeaseRow, runId: string) returns (states: seq<System>, actions: seq<Action>)
    requires Strip(runId) != []
    ensures var c := TheConfig();
      && IsRun(c, states, actions) && StoreInit(c, states[0].stored) && OneOwner(states) && |states| == 12
      && RecordedSince(c, states, 11, 1) && !HeldBy(states[11].stored, 1)
      && RowsOf(states[11].table, c.identity) != [] && WatermarkOf(c, states[11]) == 1
  {
    states := seq(12, n requires 0 <= n < 12 => StateAt(n, lease, runId));
    actions := seq(11, n requires 0 <= n < 11 => ActionAt(n, runId));
    StartIsInitial(lease, runId);
    EndIsLost(11, lease, runId);
    forall i | 0 <= i < |actions| ensures StepAt(TheConfig(), states, actions, i) {
      EachStep(i, lease, runId);
    }
    forall n | 0 <= n < |states| ensures OneOwnerIn(states[n]) {
      OneAtATime(n, lease, runId);
    }
  }
}
