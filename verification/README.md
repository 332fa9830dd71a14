# Verification of the resumable ingestion control plane

A Dafny model of the part of the repository that decides what is read, when it may be
committed, and what a reader can see afterwards. Every module models one component and
proves the properties its code is written for; `dafny verify dfyconfig.toml` checks all of it.

- **Ledger, watermark, lease** (`BlockRanges`, `CompletedRanges`, `Bootstrap`, `Watermarks`,
  `Leases`, `SourceContract`, `ForwardProtocol`, `ForwardLiveness`, `ForwardStorage`, `ForwardLoss`). Any number of
  workers interleave lease steps, reading, planning, capturing, writing, recording, re-reading
  and compare-and-set, and may die anywhere, also while they overwrite a dataset. In every
  reachable state the recorded ranges cover every block through the committed watermark, and
  commits form one increasing chain, each to the end of an interval planned in the run; and a
  worker left alone commits what it planned. A block's events are stored exactly when the last write of
  some interval around it ran alone to its end; Uniswap batches, once marked, stay.
- **Adaptive fetch and canonical merge** (`AdaptiveFetch`, `Decode`, `Timestamps`, `Merge`,
  `AaveCapture`, `UniswapCapture`, `UniswapBatches`). A log query either fails or returns
  exactly its range's logs; the result of the stack walk, the decoder with its timestamp cache
  and the merge does not depend on chunk sizes, splits and failed log queries. Block lookups
  are made anew by every capture and may fail in one and not in another; captures agree exactly
  when the lookups they had to make were answered alike.
- **Chainlink rounds** (`ChainlinkRounds`, `MissingBatches`, `BatchCounts`, `BatchStore`,
  `ForwardCapture`, `ChainlinkProtocol`, `ChainlinkLiveness`, `HistoricalRounds`, `HistoricalProgress`). Phase-aware planning, greedy batching of missing
  rounds, crash-safe publication behind markers, the counting capture loop, and one-transaction
  vector commits over torn reads, composed into one protocol that assumes of the chain only
  that closed phases do not grow and that targets are existing rounds; and the historical job,
  whose checkpoints never pass a round worth retrying and which completes, undisturbed, exactly
  when its request budgets add up to its rounds.
- **Alerts** (`Alerts`). One linear, well-formed history per alert under concurrent evaluators.
- **Data semantics** (`Landing`, `Decimals`, `AsOf`). The incremental MERGE equals a full
  recomputation, text scaling is exact, and the as-of choice is a maximum that ignores
  physical order.

`Wrappers`, `Sorting` and `Control` hold shared values, Python's stable sort and string order,
and identities. A failing operation returns a failure value where the program raises. Instants
are integers on one UTC axis. I/O, clocks and providers are parameters: a provider is a function
that says which calls fail and what blocks hold, a filesystem action is an effect chosen by the
environment, and concurrent evaluators are the commits they make between a read and an update.

## Results that limit the program

Seven properties one might expect do not hold of the code without a condition; each has a lemma
with a concrete input or state, and the exact condition under which the code does meet it.

- The historical Chainlink job can skip a round silently when it dies between writing its
  checkpoints and writing its issues (`HistoricalRounds.TornRunCanSkip`). Such a run is harmless
  exactly when every round it rejected for good was known before or lies above a round of its
  phase still worth retrying (`HistoricalRounds.TornRunSkipsNothingIff`); over whole histories
  nothing is skipped exactly as long as no torn run is of the other kind
  (`HistoricalRounds.RunsNeverSkipSilently`).
- A block recorded by an Aave run need not stay stored. On object storage overwriting a dataset
  removes it first, its name is the interval alone, and a run that starts again from the same
  watermark overwrites what an earlier run has recorded; when it dies there, the block is
  recorded, and may be committed, while its events are gone (`ForwardLoss.RewriteCanLose`). With
  one writer of an interval at a time, every recorded interval is stored exactly when no rewrite
  of one was cut short or left unfinished (`ForwardStorage.RecordedIsStoredIff`); with any writers
  `ForwardStorage.BlockIsStoredIff` gives the condition. Before it writes, a worker can tell: a
  write that dies at once loses nothing exactly when another complete dataset holds each recorded
  block of its interval (`ForwardStorage.DyingWriterLosesIff`), and runs that write only intervals
  the ledger does not meet never lose one (`ForwardStorage.FreshWritesKeepRecords`). Uniswap
  batches carry a marker and are kept (`ForwardStorage.MarkedBatchesKeepRecords`).
- A block lookup that fails does not raise: it turns its log into an issue
  (`Timestamps.FailedLookupMatters`), so two captures of one interval can differ. They agree
  exactly when every lookup that had to be made was answered alike, two times of a block that
  yields no event aside (`AaveCapture.ScheduleIndependence`, `UniswapBatches.ScheduleIndependence`).
- A Uniswap recovery can give events another timestamp under another address batch size when a
  provider contradicts itself about one block's time (`UniswapBatches.BatchSizeCanMatter`).
  Captures under two batch sizes agree exactly when every block has the same logs refused before
  its first readable time and, if it yields an event, the same such time
  (`UniswapBatches.BatchSizeIndependence`).
- Over ranges that touch within a feed phase, greedy batches need not be the fewest
  (`MissingBatches.TouchingRangesCanWaste`). The fewest possible number is, over the maximal runs
  of missing rounds of a feed phase, the sum of the ceilings of their lengths over the batch size
  (`BatchCounts.FewestIsRunTotal`); the plan takes that sum over the pieces its ranges cut these
  runs into (`BatchCounts.PlanLength`). It is a shortest plan exactly when for every such run the
  ceilings of the piece lengths add up to the ceiling of the whole length
  (`BatchCounts.PlanIsFewestIff`). Forward plans never touch
  (`ForwardCapture.ForwardBatchesAreFewest`).
- Capturing an interval again after a crash between the ledger write and the watermark commit
  is rejected, because the new completion time differs
  (`CompletedRanges.FreshTimestampIsRejected`); an exact repetition is accepted and changes
  nothing (`CompletedRanges.ExactRetryIsNoOp`), and `CompletedRanges.RecordAllSucceedsIff`
  gives the exact condition.
- Renewing a lease does not require it to be unexpired (`Leases.ExpiredLeaseCanRenew`); an
  accepted renewal finds it active exactly when the clock is before the handle's own expiry
  (`Leases.RenewalFindsActiveIff`).

## Model

| member | source | states |
|---|---|---|
| `BlockRanges.HighestContiguousBlock` | orchestration/aave_forward.py:145-162 | the sorted scan with early exit returns the last block before the first missing one, defined block by block, for any order, overlap or duplication of ranges |
| `BlockRanges.ContiguousEndIsGreatest` | orchestration/aave_forward.py:145-162 | everything from the start through the contiguous end is covered and the next block is not |
| `BlockRanges.ContiguousEndMonotone` | orchestration/aave_forward.py:145-162 | more evidence never lowers the contiguous end |
| `BlockRanges.CoverageExtends` | orchestration/aave_forward.py:145-162 | evidence that starts no later than the first gap raises the end through its own end |
| `BlockRanges.SummarizeCompletedRangeCoverage` | warehouse/completed_ranges.py:95-125 | the single pass without early exit counts rows, logical ranges and duplicated groups, finds the same contiguous end, and its gaps are exactly the maximal uncovered intervals below the highest covered block |
| `BlockRanges.GapIsMaximal` | warehouse/completed_ranges.py:104-118 | an interval the scan opens is uncovered and cannot be widened on either side |
| `CompletedRanges.CompletedRangeStore.RecordRanges` | warehouse/completed_ranges.py:183-223 | blank run ids and missing times are refused before the transaction; otherwise a batch is recorded, each interval with its own run id and time, exactly when every interval is compatible with the ledger and the batch, and the ledger is as it was when refused |
| `CompletedRanges.CompletedRangeStore.Transact` | warehouse/completed_ranges.py:196-223 | the select-then-insert loop applies the whole batch or rolls everything back with the first failure |
| `CompletedRanges.RecordAllSucceedsIff` | warehouse/completed_ranges.py:183-223 | a batch is accepted exactly when every interval has at most one row, with the same run id and completion time, also within the batch |
| `CompletedRanges.RecordedCoverage` | warehouse/completed_ranges.py:183-223 | coverage after a batch is the old coverage and the batch, nothing else |
| `CompletedRanges.RecordAllKeepsUnique` | warehouse/completed_ranges.py:183-223 | no interval ever gains a second row |
| `CompletedRanges.OtherPipelinesUntouched` | warehouse/completed_ranges.py:262-288 | evidence of other pipelines is neither added nor lost |
| `CompletedRanges.ExactRetryIsNoOp` | warehouse/completed_ranges.py:290-302 | repeating an accepted batch exactly is accepted and changes nothing |
| `CompletedRanges.FreshTimestampIsRejected` | warehouse/completed_ranges.py:290-302 | the same interval with another completion time is rejected |
| `Bootstrap.PlanForwardIncrement` | orchestration/aave_forward.py:115-134 | the next interval starts one past the committed block and ends at the safe head, or at the block limit when that is lower; none when the head has not moved |
| `Bootstrap.EligibleIffGapFree` | orchestration/aave_forward.py:241-252 | a watermark is eligible exactly when no block through the safe end is missing |
| `Bootstrap.EligibleBootstrapWatermark` | orchestration/aave_forward.py:241-252 | returns the eligible watermark, refusing only a negative start |
| `Bootstrap.ProcessNextBootstrapChunk` | orchestration/aave_forward.py:197-238 | the ledger changes only by the planned chunk, whose output was persisted by the processor; wherever the call ends, also by death in between, every recorded range has its output, and every failure leaves the ledger as it was |
| `Bootstrap.NextChunkIsNew` | orchestration/aave_forward.py:165-194 | the planned chunk never has an evidence row yet |
| `Bootstrap.StepRaisesEnd` | orchestration/aave_forward.py:165-238 | a step starts at the first uncovered block and raises the contiguous end by a whole chunk or to the safe end |
| `Bootstrap.BootstrapCompletes` | orchestration/aave_forward.py:197-252 | from any ledger the bootstrap finishes within ceil(remaining / chunk) steps, and its watermark is eligible at completion and never before |
| `Watermarks.ValidateCandidate` | orchestration/watermark.py:189-198 | an advance is needed exactly for a higher candidate, both values between 0 and the limit; a lower candidate is regressive, any other refusal an invalid value |
| `Watermarks.AdvanceIsCompareAndSet` | warehouse/watermarks.py:174-221 | on a healthy table a commit succeeds exactly from the expected value and strictly upwards, and replaces that row alone |
| `Watermarks.WatermarkStore.Advance` | warehouse/watermarks.py:174-221 | the row loop with its row count is that atomic step; a conflict changes nothing |
| `Watermarks.WatermarkStore.AdvanceMany` | warehouse/watermarks.py:276-356 | all-or-nothing: it succeeds exactly when every identity holds its expected value and none regresses; equal rows keep their metadata, others are untouched, any conflict leaves the table unchanged |
| `Watermarks.WatermarkStore.InitializeMany` | warehouse/watermarks.py:223-274 | all first rows are inserted, or none |
| `Watermarks.WatermarkStore.Initialize` | warehouse/watermarks.py:130-172 | a first row is inserted only when there is none |
| `Watermarks.WatermarkStore.Get` | warehouse/watermarks.py:103-128 | one row, none, or a duplicate-state error |
| `Watermarks.InitializeWatermark` | orchestration/watermark.py:173-186 | an explicit first state is accepted exactly for a valid value, a non-blank run id and an absent row |
| `Watermarks.CommitWatermark` | orchestration/watermark.py:201-237 | exactly when the advance from the value read now succeeds; success leaves the candidate committed, failure changes nothing |
| `Watermarks.CommitWatermarkFromExpected` | orchestration/watermark.py:240-272 | succeeds exactly when the row still holds the value the work was planned on |
| `Watermarks.CommitWatermarksAtomically` | orchestration/watermark.py:294-330 | a related vector moves as a whole exactly when every identity still holds the value it was read with, each moved row carrying its candidate and the trimmed run id; an unmoved vector is accepted without a change |
| `Leases.LeaseStore.AcquireLease` | warehouse/leases.py:162-215 | acquired exactly for a non-blank owner and a positive time to live when nobody holds the row or its expiry has come; the row and the handle then name that owner, now, now plus the time to live, and the next version; held exactly while the expiry is ahead |
| `Leases.LeaseStore.RenewLease` | warehouse/leases.py:217-262 | renewed exactly for the owner and version of the handle and a positive time to live; the row keeps its acquisition and gets the new expiry and the next version |
| `Leases.LeaseStore.ReleaseLease` | warehouse/leases.py:264-295 | released exactly for the owner and version of the handle, leaving an empty row at the next version |
| `Leases.NullTogetherAlways` | warehouse/leases.py:327-345 | owner, acquisition and expiry are null together in every reachable row |
| `Leases.VersionRises` | warehouse/leases.py:162-295 | the version rises at each accepted mutation and only there |
| `Leases.SupersededHandleRejected` | warehouse/leases.py:229-285 | a handle superseded by any later mutation can never again renew or release, even for the same owner |
| `Leases.OneContenderWins` | warehouse/leases.py:177-215 | of contenders that read the same version only the first to write acquires; the others match no row |
| `Leases.TakeoverOnlyAfterExpiry` | warehouse/leases.py:312-325 | a holder displaced without release had expired when its successor acquired |
| `Leases.LaterHoldersStartAfterExpiry` | warehouse/leases.py:312-325 | with one clock, all later holders start after the displaced one expired |
| `Leases.RenewalFindsActiveIff` | warehouse/leases.py:229-255 | over any run, an accepted renewal finds the lease active exactly when the clock is before the expiry of the handle |
| `Leases.ExpiredLeaseCanRenew` | warehouse/leases.py:229-255 | a lease past its expiry that nobody displaced is renewed: a concrete run |
| `SourceContract.SourceContractRunId` | orchestration/uniswap_recovery.py:34-52 | tagging succeeds exactly for a 64-digit hexadecimal fingerprint and a non-blank run id, and the result ends with the contract tag |
| `SourceContract.FingerprintIff` | orchestration/uniswap_recovery.py:41-46 | a fingerprint is accepted exactly when it is 64 hexadecimal digits in either case, and is kept in lower case |
| `SourceContract.TagSpelled` | orchestration/uniswap_recovery.py:34-52 | the tagged run id is the trimmed run id, the fixed tag and the fingerprint |
| `SourceContract.MatchesOneContract` | orchestration/uniswap_recovery.py:55-71 | a committed run id accepts one contract only |
| `SourceContract.TaggedRunIdIsStoredWhole` | orchestration/uniswap_recovery.py:34-71 | trimming the stored run id keeps its tag, so the next run accepts it |
| `ForwardProtocol.StepKeepsInv` | backfill/run_aave_incremental.py:174-238 | every step of every worker keeps the protocol invariant: coverage through the watermark, covered recorded jobs, a linked commit history |
| `ForwardProtocol.CommittedBlocksAreRecorded` | orchestration/run_aave_forward.py:59-142 | in every reachable state every block from the project start through the watermark is covered by recorded ranges, for both commit forms and any lease takeover |
| `ForwardProtocol.CommitsReachPlannedEnds` | orchestration/run_aave_forward.py:112-124 | every commit of every run moves the watermark to the end of an interval that a step of the run planned from the value it read: the safe head it saw, or the block limit past that value when that is lower |
| `ForwardProtocol.CommitLands` | orchestration/run_uniswap_recovery.py:142-158 | a worker about to commit leaves the row at the end of its interval when the row still holds the value it read, and unchanged otherwise |
| `ForwardLiveness.UndisturbedRunCommits` | backfill/run_aave_incremental.py:147-238 | from every reachable state, for both pipelines, a worker left alone can take all its steps; they leave the row at the planned end with its run id and clock, one more commit, evidence of every leaf, and the complete dataset of the interval |
| `ForwardLiveness.WholeUniswapRun` | orchestration/run_uniswap_recovery.py:182-226 | so does a Uniswap run that takes a free or expired lease first; the lease is free again afterwards, two versions on |
| `ForwardLiveness.OtherContractEndsRun` | backfill/storage.py:383-389 | a batch committed for another contract ends the run and changes nothing else |
| `ForwardLiveness.OvertakenWriterSpoils` | spark/parquet.py:81-92 | a writer whose dataset another one has taken over leaves it spoilt, whether its own read-back passes or not |
| `ForwardLiveness.BlankRunIdCommitsNothing` | orchestration/watermark.py:240-272 | a blank run id commits nothing |
| `ForwardStorage.BlockIsStoredIff` | backfill/storage.py:293-353 | in every reachable state, with any writers overtaking each other and dying anywhere, a block is stored exactly when the last write of some interval around it ran alone from its beginning to its end, or an earlier complete dataset was never written again; complete datasets are canonical |
| `ForwardStorage.RecordedIsStoredIff` | backfill/run_aave_incremental.py:216-238 | with one writer of an interval at a time, in every reachable state every recorded Aave interval is stored exactly when no rewrite of a recorded interval was cut short or left unfinished, and then every block recorded since the start is stored |
| `ForwardStorage.BlockIsStoredIffSound` | spark/parquet.py:81-92 | so block by block for both pipelines: stored exactly when some interval around it has a complete write and no later one that was cut short |
| `ForwardStorage.DyingWriterLosesIff` | spark/parquet.py:87-92 | beginning to overwrite an interval and dying leaves all recorded blocks stored exactly when another complete dataset holds each recorded block of the interval |
| `ForwardStorage.FreshWritesKeepRecords` | backfill/run_aave_incremental.py:216-238 | runs that begin to write only intervals the ledger does not meet, one worker at a time from writing to recording, keep every block recorded since the start stored in every reachable state |
| `ForwardStorage.MarkedBatchesKeepRecords` | backfill/storage.py:383-389 | with one writer of an interval at a time every block a Uniswap run recorded since the start is stored in every reachable state, however often its interval is run again |
| `ForwardStorage.MarkedForever` | backfill/storage.py:383-389 | a marked Uniswap batch is complete and the same in all later states |
| `ForwardLoss.RewriteCanLose` | spark/parquet.py:87-92 | two Aave runs of one interval, the second dying while it overwrites what the first recorded and then commits: a block is recorded and committed and its event is in no dataset |
| `ForwardStorage.AaveCaptureSteps` | backfill/run_aave_incremental.py:202-226 | whatever the Aave chunk loop returns for the planned interval passes the guard of the capture step |
| `ForwardStorage.UniswapCaptureSteps` | backfill/run_uniswap_incremental.py:119-174 | so does whatever the Uniswap chunk loop returns |
| `ForwardProtocol.HistoryGrows` | orchestration/watermark.py:201-272 | along a run the watermark never falls and the commit history is only extended |
| `ForwardProtocol.CommitsFormOneChain` | orchestration/watermark.py:240-272 | successful commits form one strictly increasing chain, each starting where the previous ended; at most one worker commits from a value, whoever holds the lease |
| `ForwardProtocol.UniswapChainKeepsContract` | orchestration/run_uniswap_recovery.py:142-158 | every committed Uniswap run id keeps the contract suffix of the initial state |
| `AdaptiveFetch.FetchEventLogsAdaptive` | backfill/aave_v3.py:156-205 | success returns an ascending gap-free tiling with exactly the logs of the request, leaves = splits + 1 and attempts = 2 * splits + 1; it gives up only on a refused range of minimum size or a budget below the sufficient one |
| `AdaptiveFetch.WalkSplit` | backfill/aave_v3.py:185-194 | pushing the halves keeps leaves and stack a tiling in order, keeps every piece above half the minimum and lowers the sum of 2 * size - 1 |
| `AdaptiveFetch.WalkLeaf` | backfill/aave_v3.py:195-196 | popping a completed range extends the tiling and lowers the measure |
| `AdaptiveFetch.BudgetSuffices` | backfill/aave_v3.py:174-194 | while anything is pending fewer than max(1, 2 * (N / ((min + 1) / 2)) - 1) attempts were made |
| `BlockRanges.TilesAreSorted` | backfill/aave_v3.py:198 | a tiling is already in (start, end) order, so the final sort changes nothing |
| `Decode.DecodeLogs` | backfill/aave_v3.py:208-261 | the decoding loop with its timestamp cache, where every log makes its own block lookup when it needs one, is the log-by-log meaning of decoding |
| `Decode.DecodeSplits` | backfill/aave_v3.py:208-261 | decoding two adjacent intervals with separate caches gives the events and issues of decoding them together |
| `Decode.DecodeIsPerBlock` | backfill/uniswap_v3.py:254-306 | what a block decodes to depends on the logs of that block alone, in their order |
| `Timestamps.DecodeByTimes` | backfill/aave_v3.py:224-260 | decoding is a log-by-log function of the first readable time of each block and of the logs refused before it |
| `Timestamps.DecodingsAgreeIff` | backfill/aave_v3.py:224-260 | decodings of the same logs in any order and with any lookups hold the same events and issues exactly when the refused logs and the times shown by events are the same |
| `Timestamps.LookupsDecide` | backfill/aave_v3.py:231-236 | over the same logs in the same order this is so exactly when every lookup that had to be made was answered alike |
| `Timestamps.FailedLookupMatters` | backfill/aave_v3.py:231-260 | one lookup that fails turns its event into an issue: a concrete log, under a decoder that meets every assumption of the equivalences, for every time |
| `Merge.MergeEvents` | backfill/aave_v3.py:349-390 | the first copy of each key, in key order, whatever the input order of distinct keys; it succeeds exactly when no two events of one key differ in block or compared data |
| `Merge.CanonicalIsOrdered` | backfill/aave_v3.py:362-388 | a canonical list is ordered by chain, then transaction hash, both by code points, then log index, with one event per key |
| `Merge.PremergeKeepsCanonical` | backfill/aave_v3.py:349-390 | merging merged parts gives the canonical list of all their events |
| `Merge.PremergeKeepsConflicts` | backfill/aave_v3.py:349-390 | and meets a conflict exactly when the parts together have one |
| `Merge.CanonicalUnique` | backfill/aave_v3.py:349-390 | a list of events has one canonical form |
| `AaveCapture.FetchIncrement` | backfill/run_aave_incremental.py:88-144 | for any chunk size, failed log queries and lookups the loop returns the leaves, events and issues of one unsplit fetch, decode and merge; a conflict only when the unsplit events conflict, and otherwise it fails only where the provider stopped a chunk |
| `AaveCapture.ScheduleIndependence` | backfill/run_aave_incremental.py:119-144 | two captures of one interval under any schedules, each with its own lookups, return the same events and issues exactly when every lookup that had to be made was answered alike |
| `AaveCapture.SameLookupsSameResult` | backfill/run_aave_incremental.py:119-144 | with the same answers the schedule alone never matters, whatever the handlers do |
| `AaveCapture.ConflictSpreads` | backfill/run_aave_incremental.py:119-144 | a conflict met after some chunk is a conflict of the whole interval |
| `UniswapCapture.EveryPairAskedOnce` | backfill/uniswap_v3.py:85-99 | every pool and topic pair is asked for by exactly one query group |
| `UniswapCapture.FetchCompleteRangeAdaptive` | backfill/uniswap_v3.py:134-200 | a leaf contributes logs only when all its groups answered, so success holds exactly the answers of every group leaf by leaf, and with them every block's logs, those without a readable block included; it gives up only on a range of the request a group refused at minimum size, or when every attempt of a budget below the sufficient one is spent, each split on a refused range |
| `UniswapCapture.CaptureInterval` | backfill/run_uniswap_incremental.py:119-157 | success holds the canonical events and the issues of every block; a conflict is reported only when every complete decoding conflicts, and an incomplete capture only when some chunk could not be fetched within its limits |
| `UniswapCapture.SameBlocksSameResult` | backfill/uniswap_v3.py:219-251 | the merged result depends only on what each block decoded to |
| `UniswapCapture.SameLookupsSameResult` | backfill/run_uniswap_incremental.py:127-157 | with the same lookups, any chunk size, splits and failures return the same events and the same issues up to order |
| `UniswapCapture.ConflictsAreScheduleIndependent` | backfill/run_uniswap_incremental.py:127-157 | no schedule completes where another reports a conflict |
| `UniswapBatches.BatchesHoldTheBlock` | backfill/uniswap_v3.py:85-99 | every address batch size asks for the same logs of a block, each once |
| `UniswapBatches.CapturesAgreeIff` | backfill/uniswap_v3.py:254-306 | two captures of the same logs, whatever asked for them and in which order, agree exactly when every block has the same refused logs and the same time, as far as an event shows it |
| `UniswapBatches.ScheduleIndependence` | backfill/run_uniswap_incremental.py:127-157 | with the same batches, captures under any chunks, splits and failures agree exactly when every lookup that had to be made was answered alike |
| `UniswapBatches.BatchSizeIndependence` | backfill/uniswap_v3.py:85-99 | captures with different batch sizes and lookups agree exactly when, block by block, the first readable time and the logs refused before it are the same in both group orders |
| `UniswapBatches.ConflictsIgnoreBatchSize` | backfill/uniswap_v3.py:219-251 | with one time per block, conflicts do not depend on the batch size |
| `UniswapBatches.BatchSizeCanMatter` | backfill/uniswap_v3.py:281-291 | without one time per block the batch size decides which time every event gets, under a decoder that meets the same assumptions |
| `ChainlinkRounds.SplitOfEncode` | backfill/chainlink.py:63-76 | splitting undoes encoding |
| `ChainlinkRounds.EncodeOfSplit` | backfill/chainlink.py:63-76 | encoding undoes splitting exactly for a 16-bit positive phase and a positive round |
| `ChainlinkRounds.EncodeIsMonotone` | backfill/chainlink.py:63-69 | encoded ids are ordered as (phase, round) pairs |
| `ChainlinkRounds.RangesAfterCursor` | orchestration/chainlink_forward.py:143-175 | succeeds exactly when the target does not precede the cursor and every phase between them is known and encodes, and returns one range per non-empty phase |
| `ChainlinkRounds.PlannedAreValid` | orchestration/chainlink_forward.py:143-175 | planned ranges satisfy the range constructor and ascend without overlap |
| `ChainlinkRounds.PlanHoldsExactlyTheGap` | orchestration/chainlink_forward.py:143-175 | when closed phases do not grow, a plan holds exactly the existing rounds after the cursor through the target, across phase changes and empty phases |
| `ChainlinkRounds.PlanIsExactPerFeed` | orchestration/chainlink_forward.py:178-228 | the plan over all feeds holds, feed by feed, exactly the existing rounds from its cursor to its target, when the answers fit the chain |
| `ChainlinkRounds.PlansPartition` | orchestration/chainlink_forward.py:143-228 | over any chain of exact plans every existing round after the first cursor through the last is planned exactly once |
| `ChainlinkRounds.NothingPlannedOutside` | orchestration/chainlink_forward.py:143-228 | rounds outside the span of such a chain are never planned |
| `ChainlinkRounds.ExpectedIdsEnumerate` | orchestration/chainlink_forward.py:83-88 | the enumerated ids are exactly the planned rounds, each once and ascending, as many as the round count |
| `ChainlinkRounds.PlanChainlinkForward` | orchestration/chainlink_forward.py:178-212 | every feed is planned from its own cursor, or nothing is: exactly when block, cursors, phases and the round limit allow it |
| `ForwardCapture.ForwardStore.Capture` | backfill/run_chainlink_incremental.py:127-196 | the capture loop with its counters returns only with every planned round in a committed batch and the counters adding up to the plan; the count check refuses nothing that got that far, and each other failure names a disturbed batch |
| `ForwardCapture.LoadedPlusMissing` | backfill/run_chainlink_incremental.py:141-150 | the counters loaded from coverage and the rounds of the missing batches add up to the plan |
| `ForwardCapture.ProgressSteps` | backfill/run_chainlink_incremental.py:151-192 | publishing the next batch and counting its rows keeps every planned round stored or still to come, and the count right |
| `ForwardCapture.StoredIsReadable` | backfill/chainlink_storage.py:478-503 | whoever lists the committed batches finds every stored round |
| `ForwardCapture.ForwardBatchesAreFewest` | backfill/run_chainlink_incremental.py:141-147 | a forward plan has one range per feed phase, so no list of legal batches for its missing rounds is shorter |
| `ChainlinkProtocol.PlannedIsExact` | orchestration/chainlink_forward.py:178-212 | whatever cursors were read, the plan and its candidates hold exactly the existing rounds in between |
| `ChainlinkProtocol.StepKeepsInv` | backfill/run_chainlink_incremental.py:88-211 | every step of interleaved workers - reading cursors one by one, planning, loading, publishing, counting, committing, crashing - keeps the vector invariant |
| `ChainlinkProtocol.CursorsAreOneSnapshot` | orchestration/chainlink_forward.py:91-97 | the global block and all cursors are always the candidates of one committed plan, or the initial vector |
| `ChainlinkProtocol.VectorsNeverRegress` | warehouse/watermarks.py:276-356 | committed vectors never go down in any component, and the block rises |
| `ChainlinkProtocol.CommittedPlansPartition` | orchestration/chainlink_forward.py:178-228 | over the commits of any run each existing round between the initial and the current cursor was planned by exactly one commit |
| `ChainlinkProtocol.NothingCommittedOutside` | orchestration/chainlink_forward.py:178-228 | no commit plans a round outside that span, or one that does not exist |
| `ChainlinkProtocol.CountCheckNeverRefuses` | backfill/run_chainlink_incremental.py:193-196 | in every run, a worker that published its whole plan passes the count check |
| `ChainlinkLiveness.UndisturbedRunCommits` | orchestration/run_chainlink_forward.py:67-165 | from every reachable state a worker left alone reads the cursors, plans, publishes every missing batch and commits: the global cursor then holds the safe block, every feed cursor its target round, and every planned round is stored |
| `ChainlinkProtocol.NoRoundIsSkipped` | orchestration/chainlink_forward.py:255-279 | no committed cursor ever passes an existing round that a reader of the committed batches would not find |
| `MissingBatches.CalculateFeedCoverage` | orchestration/chainlink_bootstrap.py:98-128 | one entry per feed, with required ids, those a stored row of the feed carries, and how many rows repeat a required id; nothing exactly when some range holds a round that does not encode |
| `MissingBatches.FeedsByAppearance` | orchestration/chainlink_bootstrap.py:108-112 | coverage lists the feeds in the order of their first ranges |
| `MissingBatches.RangesForConcat` | orchestration/chainlink_bootstrap.py:110-112 | and the ranges of a feed in the order of the list |
| `MissingBatches.PlanMissingBatches` | orchestration/chainlink_bootstrap.py:131-176 | the nested greedy loops compute the batch specification, exactly when the size is positive and every round encodes |
| `MissingBatches.PlanIsExactlyTheMissing` | orchestration/chainlink_bootstrap.py:98-176 | batches hold exactly the required rounds no stored row carries; over disjoint ranges they are disjoint, legal and of at most the batch size |
| `MissingBatches.GreedyIsFewest` | orchestration/chainlink_bootstrap.py:131-176 | over ranges that do not touch within a feed phase, no list of legal batches of at most the batch size that holds exactly the missing rounds is shorter than the plan |
| `MissingBatches.TouchingRangesCanWaste` | orchestration/chainlink_bootstrap.py:154-176 | two touching ranges take two batches where one would do |
| `BatchCounts.BatchCount` | orchestration/chainlink_bootstrap.py:154-176 | the greedy batches of a list of missing rounds number, over its runs of consecutive rounds, the ceilings of the run lengths over the batch size, added up |
| `BatchCounts.RunsAreMaximal` | orchestration/chainlink_bootstrap.py:154-176 | the runs hold exactly the list, and no run can be extended on either side |
| `BatchCounts.PlanLength` | orchestration/chainlink_bootstrap.py:131-176 | the whole plan takes, range by range, that sum over the runs of the range's missing rounds |
| `BatchCounts.JoinedRunsAreMaximal` | orchestration/chainlink_bootstrap.py:131-176 | the missing rounds of whole feed phases, read off ranges and stored rows, form exactly the runs that no missing neighbour extends, each once |
| `BatchCounts.FewestIsRunTotal` | orchestration/chainlink_bootstrap.py:131-176 | over any ranges, no number of legal batches below the sum of ceilings over these joined runs holds exactly the missing rounds, and that number is reached |
| `BatchCounts.PlanIsFewestIff` | orchestration/chainlink_bootstrap.py:131-176 | over any ranges the plan is a shortest one exactly when, for every maximal missing run of a feed phase, the ceilings of the lengths of the pieces the ranges cut it into add up to the ceiling of its whole length |
| `MissingBatches.RestartContinuesThePlan` | orchestration/chainlink_bootstrap.py:131-176 | after any leading batches are stored, planning again gives exactly the remaining batches |
| `MissingBatches.CommittedBatchesNeverOverlap` | backfill/run_chainlink_incremental.py:152-192 | batches committed by different runs never share a round, even when ranges and batch sizes change |
| `MissingBatches.FullRunLeavesNothingMissing` | backfill/run_chainlink_incremental.py:152-196 | a run that commits its whole plan leaves nothing of its ranges to plan |
| `HistoricalRounds.BuildTargets` | backfill/chainlink.py:394-405 | every range gives consecutive rounds from its resume point, or its start when that is later or there is none, to its end or as far as the budget left by the ranges before it reaches |
| `HistoricalRounds.FetchTargets` | backfill/chainlink.py:434-487 | the batch loop returns the outcomes of successive greedy batches, one per target in order |
| `HistoricalRounds.OutcomeAnswersTarget` | backfill/chainlink.py:434-487 | every target gets the answer for its own round from exactly the one batch that asked for it, or the failure of that batch; an answer of the wrong length rejects the batch for good; a batch stays inside one feed phase and the batch size |
| `HistoricalRounds.AdvanceCheckpoints` | backfill/chainlink.py:494-510 | the checkpoint of a phase becomes the least attempted round that failed retryably and is not stored, or one past the greatest attempted round, and stays when nothing of it was attempted |
| `HistoricalRounds.CheckpointStopsAtRetry` | backfill/chainlink.py:502-510 | a checkpoint never passes a round that failed retryably and is not stored |
| `HistoricalRounds.AttemptedAreConsecutive` | backfill/chainlink.py:395-405 | the rounds attempted of a range are exactly the consecutive ones from its resume point, as many as are left or as the budget still allows |
| `HistoricalProgress.RunSpendsItsBudget` | backfill/chainlink.py:393-405 | a complete run without overlap, with nothing to retry and every round read, attempts as many open rounds as its budget allows, and its checkpoints pass exactly those |
| `HistoricalProgress.JobCompletesIff` | backfill/chainlink.py:393-516 | from an empty store, such runs of one job are all accepted and never conflict, and after n of them it is complete exactly when n times the budget reaches the number of rounds; every round is then stored |
| `HistoricalRounds.MergeObservations` | backfill/chainlink.py:331-370 | observations merge in order, a conflict raises |
| `HistoricalRounds.MergeKeepsAndAdds` | backfill/chainlink.py:331-370 | a merge keeps every stored observation as it was and adds every round that was read, and nothing else |
| `HistoricalRounds.MergeConflictsIff` | backfill/chainlink.py:331-370 | a merge is refused exactly when a round read differs, in answer or update time, from its stored copy or an earlier read of it |
| `HistoricalRounds.LeastRetryable` | backfill/run_chainlink.py:127-142 | the least round still to retry, or the checkpoint when there is none |
| `HistoricalRounds.ResumeNext` | backfill/run_chainlink.py:126-144 | every phase resumes at its checkpoint less the overlap or at its least retryable round, never before its start |
| `HistoricalRounds.CollectIssues` | backfill/run_chainlink.py:187-200 | prior issues are overridden by new ones and dropped once their round is stored |
| `HistoricalRounds.HistoricalStore.Run` | backfill/run_chainlink.py:69-200 | one run takes the store to the specified state for wherever it stops; it is refused exactly when a limit is not positive, the window moved or shrank, a phase is listed twice, or a known phase changed or vanished, and conflicts exactly when a round read differs from an earlier copy |
| `HistoricalRounds.CompleteRunSkipsNothing` | backfill/run_chainlink.py:126-200 | a complete run keeps every round below a checkpoint stored or recorded as rejected for good |
| `HistoricalRounds.EarlyDeathSkipsNothing` | backfill/run_chainlink.py:164-186 | so does a run that raises or dies before its checkpoints are written |
| `HistoricalRounds.TornRunSkipsNothingIff` | backfill/run_chainlink.py:186-200 | a run that dies between checkpoints and issues keeps it exactly when no target was newly rejected for good with every retry of its phase above it |
| `HistoricalRounds.TornRunCanSkip` | backfill/run_chainlink.py:186-200 | such a run can skip a round: a concrete slice |
| `HistoricalRounds.RunsNeverSkipSilently` | backfill/run_chainlink.py:69-200 | over any runs, overlaps, budgets, batch sizes, failures and crashes, no round below a checkpoint is ever skipped silently exactly as long as no torn run loses such a rejection |
| `HistoricalRounds.FinishedPhaseIsAccounted` | backfill/run_chainlink.py:211-217 | then a finished feed phase has every round stored or recorded as rejected for good |
| `BatchStore.BatchDirectory.WriteAndValidate` | backfill/chainlink_storage.py:548-632 | whatever an action does and wherever the process dies, a new marker stands on exactly the batch ids and visible data is unchanged after each action; rows are taken exactly for a range inside one phase, one row per round, all of the feed, and an undisturbed attempt then commits them |
| `BatchStore.InputErrorIff` | backfill/chainlink_storage.py:566-578 | rows are refused exactly when the range leaves its phase, there are none, they are not one per round, or one is of another feed, and the error names the first of these |
| `BatchStore.BatchDirectory.StageAndPromote` | backfill/chainlink_storage.py:595-616 | nothing is marked before staged and promoted data both have the expected ids; debris of earlier attempts does not matter |
| `BatchStore.MarkerImpliesExact` | backfill/chainlink_storage.py:396-412 | between attempts and between their filesystem actions a marker implies exactly the ids of the batch, each once |
| `BatchStore.CommittedForever` | backfill/chainlink_storage.py:580-599 | a committed batch is never deleted or changed, at no moment; its quarantine is not cleared by replays either |
| `BatchStore.RetryCommits` | backfill/chainlink_storage.py:595-632 | one undisturbed attempt with acceptable rows commits from whatever earlier failures left |
| `BatchStore.LoadObservations` | backfill/chainlink_storage.py:493-503 | readers get the rows of marked batches, and an error exactly on duplicates |
| `BatchStore.VisibleRounds` | backfill/chainlink_storage.py:478-503 | a round is visible exactly when a marked batch covers it; staging and unmarked data never are |
| `BatchStore.DisjointBatchesLoad` | backfill/chainlink_storage.py:493-503 | while committed batches are disjoint readers never meet a duplicate |
| `Alerts.LegalMoves` | orchestration/alerts.py:276-366 | a committed transition closes, opens or continues an incident: a stale reading makes it critical and nothing lowers it, opening starts a new generation, the event repeats the record and the reading, and an escalation is announced exactly when the severity rises |
| `Alerts.HistoryDeterminesRecord` | orchestration/alerts.py:276-366 | version and generation count the history; severity is critical exactly when some observation of the latest incident was stale and warning exactly when all were warnings; occurrences, reading and times are those of that incident; ESCALATED comes exactly at its first stale reading after warnings only, and every event spells severity, reading, times and generation |
| `Alerts.EventsSpellIncidents` | orchestration/alerts.py:276-366 | events spell openings, at most one escalation of a warning opening, and resolutions, in that order |
| `Alerts.ReadableIsIncidents` | orchestration/alerts.py:297-366 | the step-by-step reading accepts only such words |
| `Alerts.IncidentsAreReadable` | orchestration/alerts.py:297-366 | and all such words |
| `Alerts.ReachableDecides` | orchestration/alerts.py:286-296 | in a reachable record a transition is refused exactly for a foreign or mismatched condition, and changes nothing exactly for a fresh reading of a resolved alert |
| `Alerts.StepKeepsInv` | warehouse/alert_state.py:111-153 | with reading and committing as separate steps, every step keeps each history linear |
| `Alerts.FreshDecisionLands` | warehouse/alert_state.py:111-153 | an evaluator that nobody overtook commits: the row becomes the decided record and the history gets that decision last |
| `Alerts.StaleDecisionIsDropped` | warehouse/alert_state.py:111-153 | an evaluator that was overtaken changes nothing |
| `Alerts.AlertHistoriesAreLinear` | orchestration/alerts.py:376-411 | with any interleaving and crashes each record is decided from the one just before it, agrees with its history, and its events spell incidents |
| `Alerts.AlertStore.CompareAndSet` | warehouse/alert_state.py:111-153 | updates exactly the row that still has the version that was read |
| `Alerts.AlertStore.Get` | warehouse/alert_state.py:72-109 | the one row of a key, or a missing-row error |
| `Alerts.AlertStore.EvaluateOne` | orchestration/alerts.py:386-410 | a decision is either an unchanged healthy alert or a new history entry; the contest is lost only when in every attempt another evaluator committed to the same alert first |
| `Alerts.AlertStore.Evaluate` | orchestration/alerts.py:376-411 | every condition gets its settled decision in order while other evaluators commit; it fails only for an alert that others committed to during every attempt, or one unknown or described otherwise |
| `Landing.SelectSource` | warehouse/snowflake.py:459-473 | one unmerged row per key that no other comes after by load time, file and row number |
| `Landing.MergeInto` | warehouse/snowflake.py:458-481 | matched rows are replaced unless loaded later, every other key gets one new row, keys stay unique |
| `Landing.MergeKeepsRecomputed` | warehouse/snowflake.py:456-487 | after each merge every canonical row has key, load time, file, row number and payload of the landed row of its key greatest by load time, batch, file and row number |
| `Landing.Warehouse.Merge` | warehouse/snowflake.py:456-487 | the transaction keeps that, marks every row, changes nothing when it fails or finds nothing unmerged |
| `Landing.Warehouse.Copy` | warehouse/snowflake.py:438-454 | COPY only appends unmerged rows and leaves the canonical table valid |
| `Landing.NothingToMerge` | warehouse/snowflake.py:456-487 | running again with nothing unmerged changes nothing |
| `Landing.BatchingLeavesNoTrace` | warehouse/snowflake.py:438-487 | with distinct load times per key, how rows were grouped into COPYs and merges leaves no trace |
| `Decimals.ScaledTextShape` | spark/build_market_data_silver.py:173-217 | the text has a non-empty integer part and exactly d fraction digits, and its digits are the number |
| `Decimals.TextIsExactPrice` | spark/build_market_data_silver.py:173-217 | the padded and split text casts to the exact quotient |
| `Decimals.ScalingIsExact` | spark/build_market_data_silver.py:173-217 | for 0 to 18 decimals the cast times 10^d is the number, and it is null exactly from magnitude 10^20 on |
| `Decimals.SignedScalingIsExact` | spark/price_enrichment.py:259-322 | the same for trimmed, optionally negative amounts; decimals outside 0 to 18 give null |
| `Decimals.TrimDropsBlanks` | spark/price_enrichment.py:259-322 | trimming drops the blanks around a text and nothing else |
| `Decimals.StrippedOrderIsNumeric` | spark/price_enrichment.py:422-430 | comparing zero-stripped digit strings by length and then as text is numeric comparison |
| `Decimals.DecimalsAreDetermined` | spark/price_enrichment.py:504-510 | one number with one positive price at two scales has one scale |
| `AsOf.LatestIsMaximum` | spark/price_enrichment.py:413-440 | the chosen row is eligible, no eligible row ranks above it, and none is chosen only when none is eligible |
| `AsOf.RankIsNumeric` | spark/price_enrichment.py:422-436 | the text ranking is the ranking by numeric round |
| `AsOf.ChosenIsLatestPrior` | spark/price_enrichment.py:413-440 | no eligible row is later than the chosen one or, at its time and block, of a greater round |
| `AsOf.TiesEmitAlike` | spark/price_enrichment.py:497-527 | rows that tie in the ranking agree on every emitted column |
| `AsOf.OrderDoesNotMatter` | spark/price_enrichment.py:426-527 | emitted columns do not depend on the physical order of the price rows |
| `AsOf.JoinIsLastPriorPrice` | spark/price_enrichment.py:413-527 | the join emits the columns of the last row, by time, block, numeric round and the remaining columns, among those of the market of the event that are not later than the event and have a positive price, and nothing exactly when there is none; age and price time add up to the event time |

## Left out

- All real I/O: web3 clients, Snowflake SQL text and connections, Spark and Hadoop calls, Kafka, subprocess and dbt calls, Airflow DAGs; each is a parameter, an atomic step or an environment choice.
- ABI decoding, event handlers, hashing and timestamps as text: kept abstract; a provider that does not fail returns exactly the logs of its range.
- Configuration loading, dashboards, lessons, Gold aggregates, metric translation, freshness policy: no hard property.
- Operator command-line changes of a watermark (`orchestration/run_watermark.py`) are not steps of the protocols.
- The bitwise shift and or of round ids are written as multiplication and addition, and observation id texts as (feed, round) pairs of the one configured chain.
- The order in which `advance_many` and `initialize_many` visit identities, and of the tuples they return: maps here.
- Lease rows: one row per identity is provisioned, so the duplicate and missing row errors of reads are not modelled beyond a missing identity.
- Alert observation times are aware, so the naive-time error is not modelled.
- The thread-pool path of `extract_historical_rounds` for clients without `get_rounds`; the order of the returned observation tuple; texts of issues.
- Concurrent writers of one batch directory, and COPY during MERGE: assumed serial, as the DAG pools arrange.
- Which of two rows with equal load time, file and row number the window picks: `Landing` allows any greatest row.
- Scientific notation and a leading plus sign in amounts, null columns in the as-of ranking, the asset mapping join and the enrichment status texts.
- The backward Aave search and its checkpoint, and the Uniswap pool universe merge: they hold weaker guarantees that the modelled pipelines do not use.
- UniswapCapture.SameLookupsSameResult: issues up to order, because with several query groups the order inside a chunk depends on its leaves.
- ForwardStorage.BlockIsStoredIff: whether files of several writers happen to be one writer's events again is not looked into; such a dataset counts as broken. The quarantine dataset beside each batch, the Uniswap store's dropping of events that streaming Bronze already holds, and the pool and topic counts in its contract marker are not modelled.
- ForwardStorage.RecordedIsStoredIff: one writer of an interval at a time is assumed of the scheduler, here and in `FreshWritesKeepRecords` and `MarkedBatchesKeepRecords`; `BlockIsStoredIff` assumes nothing. Looking for the marker and removing an unmarked batch is one step.
- HistoricalRounds.HistoricalStore.Run: the job stops only between its three writes, so each write is atomic, as the local writer makes it (spark/parquet.py:94-116); on object storage an overwrite that is cut short can lose the old dataset, which is not modelled there.
- AaveCapture.ScheduleIndependence: assumes handlers that key an event by its log, show its time and refuse a log whatever its time, and one contract log per transaction hash and log index; the shared envelope builder (producer/protocols/evm.py:70-90) does the former, and chains keep the latter.
- UniswapBatches.CapturesAgreeIff: under the same assumptions.
- ChainlinkLiveness.UndisturbedRunCommits: no missing batch has a committed directory; one whose rows carry another feed than their ids would be missing and committed at once.
- HistoricalProgress.JobCompletesIff: ranges and window stay the same from run to run; a window that grows adds rounds.
- Alerts.AlertStore.Get: a table with at most one row per key, so the duplicate-key error is not modelled.
- Freezing the snapshot (`freeze_chainlink_snapshot`) is a choice of block and targets; the Silver, Snowflake and dbt stages between capture and commit are left out, because they only delay the commit.
- Leases.LaterHoldersStartAfterExpiry: assumes one non-decreasing clock, which the database does not promise across sessions.
