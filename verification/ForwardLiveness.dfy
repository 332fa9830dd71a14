/** A forward run that nothing disturbs commits the interval it planned. */
module ForwardLiveness {
  // The steps of ForwardProtocol taken one after the other by a single worker
  // (orchestration/run_aave_forward.py, orchestration/run_uniswap_recovery.py).

  import opened Wrappers
  import opened Control
  import opened BlockRanges
  import opened CompletedRanges
  import opened Watermarks
  import opened Leases
  import opened Decode
  import SourceContract
  import opened ForwardProtocol

  /** The state after the given actions, when each of them is enabled. */
  ghost function Perform(c: Config, s: System, actions: seq<Action>): Option<System>
    decreases |actions|
  {
    if actions == [] then Some(s)
    else match Step(c, s, actions[0]) case None => None case Some(next) => Perform(c, next, actions[1..])
  }

  lemma {:induction false} PerformFirst(c: Config, s: System, a: Action, next: System, rest: seq<Action>)
    requires Step(c, s, a) == Some(next)
    ensures Perform(c, s, [a] + rest) == Perform(c, next, rest)
  {
    assert ([a] + rest)[1..] == rest;
  }

  /** One row holds the value `v` and accepts the contract of the pipeline. */
  ghost predicate Holding(c: Config, t: Table, v: int) {
    && OneRowEach(t) && |RowsOf(t, c.identity)| == 1 && RowsOf(t, c.identity)[0].value == v
    && ContractAccepted(c, RowsOf(t, c.identity)[0], c.contract)
  }

  /** What a run brings along: the leaves and events it captures, its run id, its clock and its way to commit. */
  datatype Inputs = Inputs(leaves: seq<BlockRange>, events: seq<Event>, runId: string, at: Instant, form: CommitForm)

  /** The ledger takes the leaves. */
  ghost predicate Recordable(c: Config, s: System, x: Inputs) {
    RecordAll(s.ledger, c.identity, Evidences(x.leaves, x.runId, x.at)).Success?
  }

  /** The watermark table and the pipeline refuse nothing that the run brings along. */
  ghost predicate Sound(c: Config, s: System, job: Job, x: Inputs) {
    && Holding(c, s.table, job.committed) && job.contract == c.contract
    && 0 <= job.committed < job.interval.end <= MAX_WATERMARK_VALUE
    && Strip(x.runId) != [] && (c.expectedOnly ==> x.form == FromExpected)
  }

  /** The run id a commit stores: trimmed, and tagged with the contract by the Uniswap pipeline. */
  ghost function Tagged(c: Config, runId: string): string {
    if c.pipeline == UniswapForward then Strip(runId) + SourceContract.CONTRACT_TAG + SourceContract.Normalized(c.contract)
    else Strip(runId)
  }

  /** What a run leaves alone until it commits. */
  datatype Base = Base(table: Table, commits: seq<Commit>, lease: LeaseRow, handle: Option<LeaseHandle>)

  ghost function BaseOf(s: System, w: nat): Base
    requires w in s.workers
  {
    Base(s.table, s.commits, s.lease, s.workers[w].lease)
  }

  /** The row moved to the job's end, one commit says so, and the worker is idle again, with the lease it had. */
  ghost predicate Committed(c: Config, base: Base, w: nat, job: Job, x: Inputs, s': System) {
    && Holding(c, s'.table, job.interval.end)
    && s'.table == base.table[c.identity := [WatermarkRow(job.interval.end, Tagged(c, x.runId), x.at)]]
    && s'.commits == base.commits + [Commit(job.committed, job.interval.end, job.committed, Tagged(c, x.runId))]
    && w in s'.workers && s'.workers[w] == Worker(base.handle, Idle) && s'.lease == base.lease
  }

  /** The ledger holds the run's evidence of every leaf. */
  ghost predicate Logged(c: Config, s': System, x: Inputs) {
    forall r :: r in x.leaves ==> Evidence(c.identity, r, x.runId, x.at) in s'.ledger
  }

  lemma {:induction false} LeavesAreLogged(rows: seq<Evidence>, identity: WatermarkIdentity, leaves: seq<BlockRange>, runId: string, at: Instant)
    requires RecordAll(rows, identity, Evidences(leaves, runId, at)).Success?
    ensures forall r :: r in leaves ==> Evidence(identity, r, runId, at) in RecordAll(rows, identity, Evidences(leaves, runId, at)).value
  {
    var cs := Evidences(leaves, runId, at);
    var after := RecordAll(rows, identity, cs).value;
    forall r | r in leaves ensures Evidence(identity, r, runId, at) in after {
      var i :| 0 <= i < |leaves| && leaves[i] == r;
      assert cs[i] == CompletedRange(r, runId, at) && cs[i] in cs;
      MatchingAfterBatch(rows, identity, cs, r);
      var m := Matching(after, identity, r);
      assert m[0] in m;
    }
  }

  lemma RunIdIsTagged(c: Config, t: Table, v: int, runId: string)
    requires Holding(c, t, v) && Strip(runId) != []
    ensures StoredRunId(c, runId, c.contract) == Some(Tagged(c, runId))
    ensures c.pipeline == UniswapForward ==> SourceContract.Matches(Tagged(c, runId), c.contract)
  {
    if c.pipeline == UniswapForward {
      SourceContract.TaggedRunIdIsStoredWhole(runId, c.contract);
      assert SourceContract.SourceContractRunId(runId, c.contract).value == Tagged(c, runId);
    }
  }

  ghost predicate At(s: System, w: nat, stage: Stage) { w in s.workers && s.workers[w].stage == stage }

  lemma CommitWrites(c: Config, s: System, w: nat, job: Job, x: Inputs) returns (s': System)
    requires Sound(c, s, job, x) && At(s, w, Committing(job, job.committed))
    ensures Step(c, s, CommitWrite(w, x.runId, x.at)) == Some(s') && Committed(c, BaseOf(s, w), w, job, x, s') && s'.stored == s.stored && s'.ledger == s.ledger
  {
    RunIdIsTagged(c, s.table, job.committed, x.runId);
    AdvanceIsCompareAndSet(s.table, c.identity, job.committed, job.interval.end, Tagged(c, x.runId), x.at);
    s' := Step(c, s, CommitWrite(w, x.runId, x.at)).value;
  }

  ghost function Commits(w: nat, x: Inputs): seq<Action> { [CommitRead(w, x.form)] + [CommitWrite(w, x.runId, x.at)] }

  lemma FromRecorded(c: Config, s: System, w: nat, job: Job, x: Inputs) returns (s': System)
    requires Sound(c, s, job, x) && At(s, w, Recorded(job))
    ensures Perform(c, s, Commits(w, x)) == Some(s') && Committed(c, BaseOf(s, w), w, job, x, s') && s'.stored == s.stored && s'.ledger == s.ledger
  {
    var next := SetStage(s, w, Committing(job, job.committed));
    assert Step(c, s, CommitRead(w, x.form)) == Some(next);
    s' := CommitWrites(c, next, w, job, x);
    PerformFirst(c, s, CommitRead(w, x.form), next, [CommitWrite(w, x.runId, x.at)]);
    PerformFirst(c, next, CommitWrite(w, x.runId, x.at), s', []);
    assert [CommitWrite(w, x.runId, x.at)] + [] == [CommitWrite(w, x.runId, x.at)];
  }

  ghost function Records(w: nat, x: Inputs): seq<Action> { [Record(w, x.runId, x.at)] + Commits(w, x) }

  lemma FromPersisted(c: Config, s: System, w: nat, job: Job, x: Inputs) returns (s': System)
    requires Sound(c, s, job, x) && Recordable(c, s, x) && At(s, w, Persisted(job, x.leaves))
    ensures Perform(c, s, Records(w, x)) == Some(s') && Committed(c, BaseOf(s, w), w, job, x, s') && Logged(c, s', x) && s'.stored == s.stored
  {
    var after := RecordAll(s.ledger, c.identity, Evidences(x.leaves, x.runId, x.at)).value;
    var next := SetStage(s.(ledger := after), w, Recorded(job));
    assert Step(c, s, Record(w, x.runId, x.at)) == Some(next);
    LeavesAreLogged(s.ledger, c.identity, x.leaves, x.runId, x.at);
    s' := FromRecorded(c, next, w, job, x);
    PerformFirst(c, s, Record(w, x.runId, x.at), next, Commits(w, x));
  }

  /** The dataset of the interval that the run leaves. */
  ghost function WrittenDataset(c: Config, x: Inputs): Dataset {
    Dataset(Whole(x.events), if c.pipeline == UniswapForward then Some(c.contract) else None)
  }

  ghost function Marks(c: Config, w: nat, x: Inputs): seq<Action> {
    if c.pipeline == UniswapForward then [Mark(w)] + Records(w, x) else Records(w, x)
  }

  /** A worker whose write is complete marks it, when the pipeline marks, and goes on. */
  lemma FromComplete(c: Config, s: System, w: nat, job: Job, x: Inputs) returns (s': System)
    requires Sound(c, s, job, x) && Recordable(c, s, x)
    requires At(s, w, if c.pipeline == UniswapForward then Written(job, x.leaves) else Persisted(job, x.leaves))
    requires job.interval in s.stored && s.stored[job.interval] == Dataset(Whole(x.events), None)
    ensures Perform(c, s, Marks(c, w, x)) == Some(s') && Committed(c, BaseOf(s, w), w, job, x, s') && Logged(c, s', x)
    ensures s'.stored == s.stored[job.interval := WrittenDataset(c, x)]
  {
    if c.pipeline == UniswapForward {
      var next := SetStage(s.(stored := s.stored[job.interval := WrittenDataset(c, x)]), w, Persisted(job, x.leaves));
      assert Step(c, s, Mark(w)) == Some(next);
      s' := FromPersisted(c, next, w, job, x);
      PerformFirst(c, s, Mark(w), next, Records(w, x));
    } else {
      s' := FromPersisted(c, s, w, job, x);
    }
  }

  ghost function Finishes(c: Config, w: nat, x: Inputs): seq<Action> { [FinishWrite(w, true)] + Marks(c, w, x) }

  lemma FromWriting(c: Config, s: System, w: nat, job: Job, x: Inputs) returns (s': System)
    requires Sound(c, s, job, x) && Recordable(c, s, x) && At(s, w, Writing(job, x.leaves, x.events))
    requires job.interval in s.stored && s.stored[job.interval] == Dataset(Unfinished(w), None)
    ensures Perform(c, s, Finishes(c, w, x)) == Some(s') && Committed(c, BaseOf(s, w), w, job, x, s') && Logged(c, s', x)
    ensures s'.stored == s.stored[job.interval := WrittenDataset(c, x)]
  {
    var done := if c.pipeline == UniswapForward then Written(job, x.leaves) else Persisted(job, x.leaves);
    var next := SetStage(s.(stored := s.stored[job.interval := Dataset(Whole(x.events), None)]), w, done);
    assert Step(c, s, FinishWrite(w, true)) == Some(next);
    s' := FromComplete(c, next, w, job, x);
    PerformFirst(c, s, FinishWrite(w, true), next, Marks(c, w, x));
  }

  /** The batch of an interval was committed before, for the accepted contract. */
  ghost predicate Kept(c: Config, stored: map<BlockRange, Dataset>, r: BlockRange) {
    c.pipeline == UniswapForward && r in stored && stored[r].marker == Some(c.contract)
  }

  /** No batch committed for another contract is in the way. */
  ghost predicate Free(c: Config, stored: map<BlockRange, Dataset>, r: BlockRange) {
    c.pipeline == UniswapForward && r in stored ==> stored[r].marker == None
  }

  ghost function Writes(c: Config, s: System, w: nat, job: Job, x: Inputs): seq<Action> {
    [StartWrite(w)] + if Kept(c, s.stored, job.interval) then Records(w, x) else Finishes(c, w, x)
  }

  ghost predicate Stores(c: Config, s: System, job: Job, x: Inputs, s': System) {
    s'.stored == if Kept(c, s.stored, job.interval) then s.stored else s.stored[job.interval := WrittenDataset(c, x)]
  }

  lemma FromCaptured(c: Config, s: System, w: nat, job: Job, x: Inputs) returns (s': System)
    requires Sound(c, s, job, x) && Recordable(c, s, x) && At(s, w, Captured(job, x.leaves, x.events))
    requires Kept(c, s.stored, job.interval) || Free(c, s.stored, job.interval)
    ensures Perform(c, s, Writes(c, s, w, job, x)) == Some(s') && Committed(c, BaseOf(s, w), w, job, x, s') && Logged(c, s', x) && Stores(c, s, job, x, s')
  {
    var r := job.interval;
    if Kept(c, s.stored, r) {
      var next := SetStage(s, w, Persisted(job, x.leaves));
      assert Step(c, s, StartWrite(w)) == Some(next);
      s' := FromPersisted(c, next, w, job, x);
      PerformFirst(c, s, StartWrite(w), next, Records(w, x));
    } else {
      var next := SetStage(s.(stored := s.stored[r := Dataset(Unfinished(w), None)]), w, Writing(job, x.leaves, x.events));
      assert Step(c, s, StartWrite(w)) == Some(next);
      s' := FromWriting(c, next, w, job, x);
      PerformFirst(c, s, StartWrite(w), next, Finishes(c, w, x));
    }
  }

  ghost function Captures(c: Config, s: System, w: nat, job: Job, x: Inputs): seq<Action> {
    [Capture(w, x.leaves, x.events)] + Writes(c, s, w, job, x)
  }

  lemma FromPlanned(c: Config, s: System, w: nat, job: Job, x: Inputs) returns (s': System)
    requires Sound(c, s, job, x) && Recordable(c, s, x) && At(s, w, Planned(job))
    requires Tiles(x.leaves, job.interval.start, job.interval.end) && c.canonical(job.interval, x.events)
    requires Kept(c, s.stored, job.interval) || Free(c, s.stored, job.interval)
    ensures Perform(c, s, Captures(c, s, w, job, x)) == Some(s') && Committed(c, BaseOf(s, w), w, job, x, s') && Logged(c, s', x) && Stores(c, s, job, x, s')
  {
    var next := SetStage(s, w, Captured(job, x.leaves, x.events));
    assert Step(c, s, Capture(w, x.leaves, x.events)) == Some(next);
    s' := FromCaptured(c, next, w, job, x);
    PerformFirst(c, s, Capture(w, x.leaves, x.events), next, Writes(c, s, w, job, x));
  }

  /** The job of a run that reads `v` under a safe head above it. */
  ghost function NextJob(c: Config, v: int, safeHead: int): Job {
    Job(v, BlockRange(v + 1, if safeHead < v + c.maxBlocks then safeHead else v + c.maxBlocks), c.contract)
  }

  lemma PlansNextJob(c: Config, s: System, w: nat, safeHead: int)
    requires Inv(c, s) && At(s, w, Idle) && (c.pipeline == UniswapForward ==> s.workers[w].lease.Some?)
    requires 0 <= WatermarkOf(c, s) < safeHead && c.maxBlocks > 0
    ensures Step(c, s, ReadAndPlan(w, safeHead, c.contract)) == Some(SetStage(s, w, Planned(NextJob(c, WatermarkOf(c, s), safeHead))))
  {
  }

  /**
   From every reachable state, a worker that is left alone takes all its steps and commits the
   interval from the watermark to the safe head, or as far as the block limit allows, when
   nothing it brings along is refused.
   */
  lemma UndisturbedRunCommits(c: Config, s: System, w: nat, safeHead: int, job: Job, x: Inputs) returns (actions: seq<Action>, s': System)
    requires Inv(c, s) && At(s, w, Idle) && (c.pipeline == UniswapForward ==> s.workers[w].lease.Some?)
    requires 0 <= WatermarkOf(c, s) < safeHead && c.maxBlocks > 0 && job == NextJob(c, WatermarkOf(c, s), safeHead)
    requires Sound(c, s, job, x) && Recordable(c, s, x)
    requires Tiles(x.leaves, job.interval.start, job.interval.end) && c.canonical(job.interval, x.events)
    requires Kept(c, s.stored, job.interval) || Free(c, s.stored, job.interval)
    ensures Perform(c, s, actions) == Some(s') && Committed(c, BaseOf(s, w), w, job, x, s') && Logged(c, s', x) && Stores(c, s, job, x, s')
  {
    var next := SetStage(s, w, Planned(job));
    PlansNextJob(c, s, w, safeHead);
    s' := FromPlanned(c, next, w, job, x);
    actions := [ReadAndPlan(w, safeHead, c.contract)] + Captures(c, s, w, job, x);
    PerformFirst(c, s, ReadAndPlan(w, safeHead, c.contract), next, Captures(c, s, w, job, x));
  }

  /** A batch committed for another contract ends the run and changes nothing else. */
  lemma OtherContractEndsRun(c: Config, s: System, w: nat, job: Job, leaves: seq<BlockRange>, events: seq<Event>, other: string)
    requires c.pipeline == UniswapForward && At(s, w, Captured(job, leaves, events)) && other != job.contract
    requires job.interval in s.stored && s.stored[job.interval].marker == Some(other)
    ensures Step(c, s, StartWrite(w)) == Some(s.(workers := s.workers[w := Worker(s.workers[w].lease, Idle)]))
  {
  }

  /** A writer whose dataset another one has taken over spoils it; its own checks may still pass. */
  lemma OvertakenWriterSpoils(c: Config, s: System, w: nat, job: Job, leaves: seq<BlockRange>, events: seq<Event>, passes: bool)
    requires At(s, w, Writing(job, leaves, events)) && job.interval in s.stored && s.stored[job.interval].content != Unfinished(w)
    ensures var spoilt := s.stored[job.interval := Dataset(Broken, s.stored[job.interval].marker)];
      && Step(c, s, Land(w)) == Some(s.(stored := spoilt))
      && Step(c, s, FinishWrite(w, passes))
         == Some(SetStage(s.(stored := spoilt), w,
              if !passes then Idle else if c.pipeline == UniswapForward then Written(job, leaves) else Persisted(job, leaves)))
  {
  }

  /** A blank run id commits nothing. */
  lemma BlankRunIdCommitsNothing(c: Config, s: System, w: nat, runId: string, now: Instant)
    requires Strip(runId) == []
    ensures Step(c, s, CommitWrite(w, runId, now)) == None
  {
  }

  // ----- The Uniswap run takes the lease first and gives it back last -----

  lemma {:induction false} PerformThen(c: Config, s: System, first: seq<Action>, mid: System, rest: seq<Action>)
    requires Perform(c, s, first) == Some(mid)
    ensures Perform(c, s, first + rest) == Perform(c, mid, rest)
    decreases |first|
  {
    if first == [] {
      assert first + rest == rest;
    } else {
      var next := Step(c, s, first[0]).value;
      PerformThen(c, next, first[1..], mid, rest);
      assert first + rest == [first[0]] + (first[1..] + rest);
      PerformFirst(c, s, first[0], next, first[1..] + rest);
    }
  }

  /** A free or expired lease is taken at the version that was read. */
  lemma LeaseIsTaken(c: Config, s: System, w: nat, owner: string, now: Instant, ttl: int)
    requires c.pipeline == UniswapForward && w in s.workers && s.workers[w] == Worker(None, Idle)
    requires Strip(owner) != [] && ttl > 0 && FreeOrExpired(s.lease, now)
    ensures var v, holder := s.lease.version + 1, Strip(owner);
      Step(c, s, TakeLease(w, Acquire(s.lease.version, owner, now, ttl)))
      == Some(s.(lease := LeaseRow(Some(holder), Some(now), Some(now + ttl), v),
                 workers := s.workers[w := Worker(Some(LeaseHandle(holder, now, now + ttl, v)), Idle)]))
  {
  }

  lemma LeaseIsDropped(c: Config, s: System, w: nat, h: LeaseHandle)
    requires w in s.workers && s.workers[w] == Worker(Some(h), Idle) && s.lease.owner == Some(h.owner) && s.lease.version == h.version
    ensures Step(c, s, DropLease(w)) == Some(s.(lease := LeaseRow(None, None, None, h.version + 1), workers := s.workers[w := Worker(None, Idle)]))
  {
  }

  /** A whole Uniswap run: the lease is free again afterwards, two versions on. */
  lemma WholeUniswapRun(c: Config, s: System, w: nat, owner: string, now: Instant, ttl: int, safeHead: int, job: Job, x: Inputs)
    returns (actions: seq<Action>, s': System)
    requires Inv(c, s) && c.pipeline == UniswapForward && w in s.workers && s.workers[w] == Worker(None, Idle)
    requires Strip(owner) != [] && ttl > 0 && FreeOrExpired(s.lease, now)
    requires 0 <= WatermarkOf(c, s) < safeHead && c.maxBlocks > 0 && job == NextJob(c, WatermarkOf(c, s), safeHead)
    requires Sound(c, s, job, x) && Recordable(c, s, x)
    requires Tiles(x.leaves, job.interval.start, job.interval.end) && c.canonical(job.interval, x.events)
    requires Kept(c, s.stored, job.interval) || Free(c, s.stored, job.interval)
    ensures Perform(c, s, actions) == Some(s') && WorkerOf(s', w) == Worker(None, Idle)
    ensures s'.lease == LeaseRow(None, None, None, s.lease.version + 2)
    ensures Holding(c, s'.table, job.interval.end) && Logged(c, s', x) && Stores(c, s, job, x, s')
  {
    var take, v := TakeLease(w, Acquire(s.lease.version, owner, now, ttl)), s.lease.version + 1;
    LeaseIsTaken(c, s, w, owner, now, ttl);
    StepKeepsInv(c, s, take);
    var held := Step(c, s, take).value;
    var run, done := UndisturbedRunCommits(c, held, w, safeHead, job, x);
    LeaseIsDropped(c, done, w, LeaseHandle(Strip(owner), now, now + ttl, v));
    s' := Step(c, done, DropLease(w)).value;
    actions := [take] + (run + [DropLease(w)]);
    PerformFirst(c, s, take, held, run + [DropLease(w)]);
    PerformThen(c, held, run, done, [DropLease(w)] + []);
    PerformFirst(c, done, DropLease(w), s', []);
    assert [DropLease(w)] + [] == [DropLease(w)];
  }
}
