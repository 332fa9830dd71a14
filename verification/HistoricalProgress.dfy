/** Progress of the resumable historical Chainlink job. */
module HistoricalProgress {
  // How far undisturbed runs of the job get (backfill/chainlink.py, backfill/run_chainlink.py).

  import opened Wrappers
  import opened ChainlinkRounds
  import opened HistoricalRounds

  /** The round a range goes on from: its recorded checkpoint, or its start. */
  ghost function At(r: RoundRange, states: map<Key, FeedState>): int {
    if (r.feed, r.phase) in states && states[(r.feed, r.phase)].next > r.start then states[(r.feed, r.phase)].next else r.start
  }

  /** The rounds of a range that its checkpoint has not passed. */
  ghost function Open(r: RoundRange, states: map<Key, FeedState>): nat {
    if At(r, states) <= r.end then r.end + 1 - At(r, states) else 0
  }

  ghost function Remaining(ranges: seq<RoundRange>, states: map<Key, FeedState>): nat {
    if ranges == [] then 0 else Remaining(ranges[..|ranges| - 1], states) + Open(ranges[|ranges| - 1], states)
  }

  ghost predicate AllRead(f: Fetched) {
    forall i :: 0 <= i < |f.outcomes| ==> f.outcomes[i].Read?
  }

  /** A run that fetched its slice without overlap and with nothing to retry. */
  ghost predicate Straight(s: Store, job: Job, f: Fetched) {
    && FetchedBy(s, job, f) && AllValid(job.ranges) && job.overlap == 0
    && forall id :: id in s.issues ==> !s.issues[id]
  }

  /** It also read every round and wrote its checkpoints. */
  ghost predicate Smooth(s: Store, job: Job, f: Fetched) {
    Straight(s, job, f) && WroteStates(s, job, f) && AllRead(f)
  }

  /** How many targets the first `i` ranges took. */
  ghost function Used(job: Job, f: Fetched, i: nat): nat
    requires i <= |job.ranges| && job.budget >= 0
  {
    |TargetsOf(job.ranges[..i], f.resume, job.budget)|
  }

  /** Without overlap and retries a run resumes where the last one stopped. */
  lemma ResumesAtCheckpoint(s: Store, job: Job, f: Fetched, j: nat)
    requires Straight(s, job, f) && j < |job.ranges|
    ensures FirstOpen(job.ranges[j], f.resume) == At(job.ranges[j], s.states)
    ensures KeyOf(job.ranges[j]) in f.resume ==> f.resume[KeyOf(job.ranges[j])] >= job.ranges[j].start
  {
    var r := job.ranges[j];
    if KeyOf(r) in s.states {
      var st := s.states[KeyOf(r)];
      assert ResumesAt(st, s.issues, KeyOf(r), job.overlap, f.resume[KeyOf(r)]);
      assert forall id :: !RetryOf(s.issues, KeyOf(r), id);
      var i :| 0 <= i < |job.ranges| && ContinuedBy(KeyOf(r), st, job.ranges[i]);
      assert i == j;
    }
  }

  lemma {:induction false} NothingToRetry(f: Fetched, existing: set<RoundKey>, key: Key)
    requires |f.targets| == |f.outcomes| && AllRead(f)
    ensures RetryableFor(f.targets, f.outcomes, existing, key) == []
  {
    var retryable := RetryableFor(f.targets, f.outcomes, existing, key);
    if retryable != [] {
      var i := RetryableAreTargets(f.targets, f.outcomes, existing, key, retryable[0]);
      assert false;
    }
  }

  lemma GreatestOfConsecutive(first: int, n: nat)
    requires n > 0
    ensures Greatest(Consecutive(first, n)) == first + n - 1
  {
    assert Consecutive(first, n)[n - 1] == first + n - 1;
  }

  /** The checkpoint of a range moves by the rounds its slice took. */
  lemma RangeAdvances(s: Store, job: Job, f: Fetched, j: nat) returns (n: nat)
    requires Smooth(s, job, f) && j < |job.ranges|
    ensures FillsBudget(job.ranges[j], f.resume, job.budget, Used(job, f, j), n)
    ensures Used(job, f, j + 1) == Used(job, f, j) + n
    ensures AttemptedFor(f.targets, KeyOf(job.ranges[j])) == Consecutive(At(job.ranges[j], s.states), n)
    ensures At(job.ranges[j], StoreAfter(s, job, f, NoCrash).states) == At(job.ranges[j], s.states) + n
  {
    var key := KeyOf(job.ranges[j]);
    n := AttemptedAreConsecutive(job.ranges, f.resume, job.budget, j);
    ResumesAtCheckpoint(s, job, f, j);
    CheckpointOfRange(s, job, f, NoCrash, j);
    NothingToRetry(f, s.observations.Keys, key);
    if n > 0 { GreatestOfConsecutive(At(job.ranges[j], s.states), n); }
  }

  /** A range takes its open rounds as far as the budget lasts. */
  lemma OpenFalls(s: Store, job: Job, f: Fetched, after: map<Key, FeedState>, j: nat) returns (n: nat)
    requires Smooth(s, job, f) && j < |job.ranges| && after == StoreAfter(s, job, f, NoCrash).states
    ensures Used(job, f, j) <= job.budget
    ensures var open, left := Open(job.ranges[j], s.states), job.budget - Used(job, f, j); n == if open < left then open else left
    ensures Open(job.ranges[j], after) == Open(job.ranges[j], s.states) - n
    ensures Used(job, f, j + 1) == Used(job, f, j) + n
  {
    n := RangeAdvances(s, job, f, j);
    ResumesAtCheckpoint(s, job, f, j);
  }

  lemma {:induction false} RemainingStep(ranges: seq<RoundRange>, states: map<Key, FeedState>, i: nat)
    requires i < |ranges|
    ensures Remaining(ranges[..i + 1], states) == Remaining(ranges[..i], states) + Open(ranges[i], states)
  {
    assert ranges[..i + 1][..i] == ranges[..i];
  }

  /** What the slices of the first `i` ranges took is what they no longer have open. */
  ghost predicate SpentAt(states: map<Key, FeedState>, job: Job, f: Fetched, after: map<Key, FeedState>, i: nat) {
    && i <= |job.ranges| && job.budget >= 0
    && Remaining(job.ranges[..i], after) == Remaining(job.ranges[..i], states) - Used(job, f, i)
    && Used(job, f, i) == if Remaining(job.ranges[..i], states) < job.budget then Remaining(job.ranges[..i], states) else job.budget
  }

  lemma {:induction false} SpentOnRanges(s: Store, job: Job, f: Fetched, after: map<Key, FeedState>, i: nat)
    requires Smooth(s, job, f) && i <= |job.ranges| && after == StoreAfter(s, job, f, NoCrash).states
    ensures SpentAt(s.states, job, f, after, i)
  {
    if i > 0 {
      var k := i - 1;
      SpentOnRanges(s, job, f, after, k);
      var n := OpenFalls(s, job, f, after, k);
      RemainingStep(job.ranges, s.states, k);
      RemainingStep(job.ranges, after, k);
    }
  }

  /** A complete run of reads attempts as many open rounds as its budget allows, and its checkpoints pass them all. */
  lemma RunSpendsItsBudget(s: Store, job: Job, f: Fetched)
    requires Smooth(s, job, f)
    ensures var before := Remaining(job.ranges, s.states);
      && |f.targets| == (if before < job.budget then before else job.budget)
      && Remaining(job.ranges, StoreAfter(s, job, f, NoCrash).states) == before - |f.targets|
  {
    SpentOnRanges(s, job, f, StoreAfter(s, job, f, NoCrash).states, |job.ranges|);
    assert SpentAt(s.states, job, f, StoreAfter(s, job, f, NoCrash).states, |job.ranges|) && job.ranges[..|job.ranges|] == job.ranges;
  }

  // ----- Runs of one job, from nothing to the end -----

  /** Every stored round lies in a range, below its checkpoint; there is no issue. */
  ghost predicate Clean(s: Store, ranges: seq<RoundRange>) {
    s.issues == map[] && forall id :: id in s.observations ==> Passed(s, ranges, id)
  }

  ghost predicate Passed(s: Store, ranges: seq<RoundRange>, id: RoundKey) {
    exists j :: 0 <= j < |ranges| && HasId(ranges[j], id) && id.1 < At(ranges[j], s.states)
  }

  /** The same ranges and window every time, no overlap, no crash, and every round asked for is read. */
  ghost predicate Undisturbed(run: JobRun, ranges: seq<RoundRange>, fromBlock: int, toBlock: int, budget: int) {
    var job := run.job;
    && LimitsOk(job) && job.overlap == 0 && job.budget == budget && job.ranges == ranges
    && job.fromBlock == fromBlock && job.toBlock == toBlock
    && run.crash == NoCrash && AllRead(run.fetched)
  }

  lemma {:induction false} ReadsLeaveIssues(prior: map<RoundKey, bool>, f: Fetched, n: nat)
    requires |f.targets| == |f.outcomes| && AllRead(f) && n <= |f.targets|
    ensures IssuesWith(prior, f.targets[..n], f.outcomes[..n]) == prior
  {
    if n > 0 {
      ReadsLeaveIssues(prior, f, n - 1);
      assert f.targets[..n][..n - 1] == f.targets[..n - 1] && f.outcomes[..n][..n - 1] == f.outcomes[..n - 1];
      assert f.outcomes[..n][n - 1] == f.outcomes[n - 1];
    }
  }

  /** Valid ranges of different phases share no round. */
  lemma HolderIsUnique(ranges: seq<RoundRange>, j: nat, k: nat, id: RoundKey)
    requires AllValid(ranges) && DistinctKeys(ranges) && j < |ranges| && k < |ranges|
    requires HasId(ranges[j], id) && HasId(ranges[k], id)
    ensures j == k
  {
    HolderPhase(ranges[j], id);
    HolderPhase(ranges[k], id);
  }

  /** A target lies in its range, at or above the checkpoint. */
  lemma TargetIsOpen(s: Store, job: Job, f: Fetched, i: nat) returns (j: nat)
    requires Straight(s, job, f) && i < |f.targets|
    ensures j < |job.ranges| && job.ranges[j] == f.targets[i].range && HasId(job.ranges[j], IdOf(f.targets[i]))
    ensures At(job.ranges[j], s.states) <= f.targets[i].round
  {
    var t := f.targets[i];
    TargetsInRange(job.ranges, f.resume, job.budget, i);
    j :| 0 <= j < |job.ranges| && job.ranges[j] == t.range;
    var n := AttemptedAreConsecutive(job.ranges, f.resume, job.budget, j);
    AttemptedMembers(f.targets, KeyOf(t.range), t.round);
    ConsecutiveHolds(FirstOpen(t.range, f.resume), n, t.round);
    ResumesAtCheckpoint(s, job, f, j);
  }

  /** A targeted round was not stored before. */
  lemma TargetsAreNew(s: Store, job: Job, f: Fetched, i: nat)
    requires Straight(s, job, f) && Clean(s, job.ranges) && i < |f.targets|
    ensures IdOf(f.targets[i]) !in s.observations
  {
    var id := IdOf(f.targets[i]);
    var j := TargetIsOpen(s, job, f, i);
    if id in s.observations {
      assert Passed(s, job.ranges, id);
      var k: nat :| k < |job.ranges| && HasId(job.ranges[k], id) && id.1 < At(job.ranges[k], s.states);
      HolderIsUnique(job.ranges, j, k, id);
      assert false;
    }
  }

  /** Nor is it among the rounds merged before it. */
  lemma NotMergedBefore(s: Store, job: Job, f: Fetched, k: nat, merged: map<RoundKey, Observation>)
    requires Straight(s, job, f) && Clean(s, job.ranges) && k < |f.targets| == |f.outcomes|
    requires MergedWith(s.observations, f.targets[..k], f.outcomes[..k]) == Some(merged)
    ensures IdOf(f.targets[k]) !in merged
  {
    var id := IdOf(f.targets[k]);
    MergeKeepsAndAdds(s.observations, f.targets[..k], f.outcomes[..k]);
    TargetsAreNew(s, job, f, k);
    if id in merged {
      var i: nat :| i < k && IdOf(f.targets[..k][i]) == id;
      TargetsAreDistinct(job.ranges, f.resume, job.budget, i, k);
      assert false;
    }
  }

  lemma {:induction false} MergeStep(existing: map<RoundKey, Observation>, f: Fetched, k: nat)
    requires k < |f.targets| == |f.outcomes| && MergedWith(existing, f.targets[..k], f.outcomes[..k]).Some?
    requires IdOf(f.targets[k]) !in MergedWith(existing, f.targets[..k], f.outcomes[..k]).value
    ensures MergedWith(existing, f.targets[..k + 1], f.outcomes[..k + 1]).Some?
  {
    assert f.targets[..k + 1][..k] == f.targets[..k] && f.outcomes[..k + 1][..k] == f.outcomes[..k];
  }

  lemma MergeGoesOn(s: Store, job: Job, f: Fetched, k: nat)
    requires Straight(s, job, f) && Clean(s, job.ranges) && k < |f.targets| == |f.outcomes|
    requires MergedWith(s.observations, f.targets[..k], f.outcomes[..k]).Some?
    ensures MergedWith(s.observations, f.targets[..k + 1], f.outcomes[..k + 1]).Some?
  {
    NotMergedBefore(s, job, f, k, MergedWith(s.observations, f.targets[..k], f.outcomes[..k]).value);
    MergeStep(s.observations, f, k);
  }

  /** Reads of new, distinct rounds never conflict. */
  lemma {:induction false} NoConflict(s: Store, job: Job, f: Fetched, n: nat)
    requires Straight(s, job, f) && Clean(s, job.ranges) && n <= |f.targets| == |f.outcomes|
    ensures MergedWith(s.observations, f.targets[..n], f.outcomes[..n]).Some?
  {
    if n > 0 {
      NoConflict(s, job, f, n - 1);
      MergeGoesOn(s, job, f, n - 1);
    }
  }

  /** A complete run leaves a clean store that the next one resumes from. */
  lemma StaysClean(s: Store, job: Job, f: Fetched)
    requires Smooth(s, job, f) && Clean(s, job.ranges)
    ensures Clean(StoreAfter(s, job, f, NoCrash), job.ranges)
  {
    var s' := StoreAfter(s, job, f, NoCrash);
    ReadsLeaveIssues(s.issues, f, |f.targets|);
    assert f.targets[..|f.targets|] == f.targets && f.outcomes[..|f.targets|] == f.outcomes;
    MergeKeepsAndAdds(s.observations, f.targets, f.outcomes);
    forall id | id in s'.observations ensures Passed(s', job.ranges, id) {
      if id in s.observations {
        PassedStays(s, job, f, id);
      } else {
        var i: nat :| i < |f.targets| && IdOf(f.targets[i]) == id;
        TargetIsPassed(s, job, f, i);
      }
    }
  }

  lemma PassedStays(s: Store, job: Job, f: Fetched, id: RoundKey)
    requires Smooth(s, job, f) && Passed(s, job.ranges, id)
    ensures Passed(StoreAfter(s, job, f, NoCrash), job.ranges, id)
  {
    var j: nat :| j < |job.ranges| && HasId(job.ranges[j], id) && id.1 < At(job.ranges[j], s.states);
    var n := RangeAdvances(s, job, f, j);
    assert HasId(job.ranges[j], id) && id.1 < At(job.ranges[j], StoreAfter(s, job, f, NoCrash).states);
  }

  lemma TargetIsPassed(s: Store, job: Job, f: Fetched, i: nat)
    requires Smooth(s, job, f) && i < |f.targets|
    ensures Passed(StoreAfter(s, job, f, NoCrash), job.ranges, IdOf(f.targets[i]))
  {
    var t := f.targets[i];
    var j := TargetIsOpen(s, job, f, i);
    var n := RangeAdvances(s, job, f, j);
    AttemptedMembers(f.targets, KeyOf(t.range), t.round);
    ConsecutiveHolds(At(job.ranges[j], s.states), n, t.round);
    assert HasId(job.ranges[j], IdOf(t)) && t.round < At(job.ranges[j], StoreAfter(s, job, f, NoCrash).states);
  }

  /** What a run over the window recorded is accepted by the next one. */
  lemma ContinuesAfter(s: Store, job: Job, f: Fetched)
    requires WroteStates(s, job, f)
    ensures Continues(StoreAfter(s, job, f, NoCrash).states, job.ranges) && WindowKept(StoreAfter(s, job, f, NoCrash).states, job)
  {
    var states := StoreAfter(s, job, f, NoCrash).states;
    forall key | key in states
      ensures states[key].fromBlock == job.fromBlock && states[key].toBlock <= job.toBlock
      ensures exists i :: 0 <= i < |job.ranges| && ContinuedBy(key, states[key], job.ranges[i])
    {
      var j := StateKeysAreRanges(job, f, s.observations.Keys, job.ranges, key);
      StateOfRange(job, f, s.observations.Keys, job.ranges, j);
      assert ContinuedBy(key, states[key], job.ranges[j]);
    }
  }

  /** The first `n` runs were undisturbed runs of one job. */
  ghost predicate UndisturbedTo(runs: seq<JobRun>, ranges: seq<RoundRange>, fromBlock: int, toBlock: int, budget: int, n: nat) {
    n <= |runs| && forall i :: 0 <= i < n ==> Undisturbed(runs[i], ranges, fromBlock, toBlock, budget)
  }

  /** What undisturbed runs leave: a clean store that the same job goes on from. */
  ghost predicate Going(s: Store, ranges: seq<RoundRange>, fromBlock: int, toBlock: int) {
    && Clean(s, ranges) && Continues(s.states, ranges)
    && forall key :: key in s.states ==> s.states[key].fromBlock == fromBlock && s.states[key].toBlock <= toBlock
  }

  lemma RunGoesOn(s: Store, run: JobRun, s': Store, ranges: seq<RoundRange>, fromBlock: int, toBlock: int, budget: int)
    requires AllValid(ranges) && DistinctKeys(ranges) && Going(s, ranges, fromBlock, toBlock)
    requires Undisturbed(run, ranges, fromBlock, toBlock, budget) && RunsBy(s, run.job, NoCrash, run.fetched, s')
    ensures Smooth(s, run.job, run.fetched) && s' == StoreAfter(s, run.job, run.fetched, NoCrash)
    ensures Going(s', ranges, fromBlock, toBlock)
  {
    var f := run.fetched;
    assert Accepted(s, run.job);
    NoConflict(s, run.job, f, |f.targets|);
    assert f.targets[..|f.targets|] == f.targets && f.outcomes[..|f.targets|] == f.outcomes;
    StaysClean(s, run.job, f);
    ContinuesAfter(s, run.job, f);
  }

  lemma {:induction false} NothingPassed(ranges: seq<RoundRange>, states: map<Key, FeedState>)
    requires Proper(ranges) && states == map[]
    ensures Remaining(ranges, states) == RoundCount(ranges)
  {
    if ranges != [] { NothingPassed(ranges[..|ranges| - 1], states); }
  }

  ghost predicate SmoothStep(s: Store, run: JobRun, s': Store) {
    && Smooth(s, run.job, run.fetched) && s' == StoreAfter(s, run.job, run.fetched, NoCrash)
  }

  lemma StepGoesOn(stores: seq<Store>, runs: seq<JobRun>, ranges: seq<RoundRange>,
                   fromBlock: int, toBlock: int, budget: int, k: nat)
    requires AllValid(ranges) && DistinctKeys(ranges) && k < |runs| && |stores| == |runs| + 1
    requires HistoryStep(stores, runs, k) && Undisturbed(runs[k], ranges, fromBlock, toBlock, budget)
    requires Going(stores[k], ranges, fromBlock, toBlock)
    ensures SmoothStep(stores[k], runs[k], stores[k + 1]) && Going(stores[k + 1], ranges, fromBlock, toBlock)
  {
    RunGoesOn(stores[k], runs[k], stores[k + 1], ranges, fromBlock, toBlock, budget);
  }

  lemma {:induction false} HistoryGoesOn(stores: seq<Store>, runs: seq<JobRun>, ranges: seq<RoundRange>,
                                         fromBlock: int, toBlock: int, budget: int, n: nat)
    requires IsHistory(stores, runs) && UndisturbedTo(runs, ranges, fromBlock, toBlock, budget, n)
    requires AllValid(ranges) && DistinctKeys(ranges)
    ensures Going(stores[n], ranges, fromBlock, toBlock)
    ensures n > 0 ==> SmoothStep(stores[n - 1], runs[n - 1], stores[n])
  {
    if n > 0 {
      var k := n - 1;
      HistoryGoesOn(stores, runs, ranges, fromBlock, toBlock, budget, k);
      assert HistoryStep(stores, runs, k) && Undisturbed(runs[k], ranges, fromBlock, toBlock, budget);
      StepGoesOn(stores, runs, ranges, fromBlock, toBlock, budget, k);
    }
  }

  /** Every run passes a budget of rounds until none are left. */
  lemma {:induction false} RunsPassTheirBudgets(stores: seq<Store>, runs: seq<JobRun>, ranges: seq<RoundRange>,
                                                fromBlock: int, toBlock: int, budget: int, n: nat)
    requires IsHistory(stores, runs) && UndisturbedTo(runs, ranges, fromBlock, toBlock, budget, n)
    requires AllValid(ranges) && DistinctKeys(ranges)
    ensures Remaining(ranges, stores[n].states)
         == if n * budget < RoundCount(ranges) then RoundCount(ranges) - n * budget else 0
  {
    if n == 0 {
      ValidAreProper(ranges);
      NothingPassed(ranges, stores[0].states);
    } else {
      RunsPassTheirBudgets(stores, runs, ranges, fromBlock, toBlock, budget, n - 1);
      HistoryGoesOn(stores, runs, ranges, fromBlock, toBlock, budget, n);
      RunSpendsItsBudget(stores[n - 1], runs[n - 1].job, runs[n - 1].fetched);
      assert n * budget == (n - 1) * budget + budget;
    }
  }

  lemma ValidAreProper(ranges: seq<RoundRange>)
    requires AllValid(ranges)
    ensures Proper(ranges)
  {
    forall i | 0 <= i < |ranges| ensures ranges[i].start <= ranges[i].end { ValidIff(ranges[i]); }
  }

  /** Every range's checkpoint has passed its end: what the job reports as complete. */
  ghost predicate Complete(s: Store, ranges: seq<RoundRange>) {
    forall j :: 0 <= j < |ranges| ==> At(ranges[j], s.states) > ranges[j].end
  }

  lemma {:induction false} CompleteIff(s: Store, ranges: seq<RoundRange>)
    ensures Complete(s, ranges) <==> Remaining(ranges, s.states) == 0
  {
    if ranges != [] {
      var n := |ranges| - 1;
      CompleteIff(s, ranges[..n]);
      assert Complete(s, ranges) <==> Complete(s, ranges[..n]) && At(ranges[n], s.states) > ranges[n].end;
    }
  }

  lemma UndisturbedLosesNothing(stores: seq<Store>, runs: seq<JobRun>, ranges: seq<RoundRange>,
                                fromBlock: int, toBlock: int, budget: int, n: nat)
    requires |stores| == |runs| + 1 && UndisturbedTo(runs, ranges, fromBlock, toBlock, budget, n)
    ensures NothingLost(stores, runs, n)
  {
    forall i | 0 <= i < n ensures !LosesRejection(stores[i], runs[i].job, runs[i].crash, runs[i].fetched) {
      assert Undisturbed(runs[i], ranges, fromBlock, toBlock, budget);
    }
  }

  /** With no issue left, every round below a checkpoint is stored. */
  lemma PassedIsStored(s: Store, ranges: seq<RoundRange>, id: RoundKey)
    requires AllValid(ranges) && DistinctKeys(ranges) && Passed(s, ranges, id)
    requires NoSilentSkip(s) && Clean(s, ranges) && Continues(s.states, ranges)
    ensures id in s.observations
  {
    var j: nat :| j < |ranges| && HasId(ranges[j], id) && id.1 < At(ranges[j], s.states);
    HolderPhase(ranges[j], id);
    var key := KeyOf(ranges[j]);
    var i :| 0 <= i < |ranges| && ContinuedBy(key, s.states[key], ranges[i]);
    assert i == j && BelowNext(s, key, id.1);
  }

  lemma HolderPhase(r: RoundRange, id: RoundKey)
    requires r.Valid() && HasId(r, id)
    ensures KeyOf(r) == (id.0, id.1 / PHASE)
  {
  }

  /** Undisturbed runs of a job complete it exactly when their budgets add up to its rounds, which are then all stored. */
  lemma {:induction false} JobCompletesIff(stores: seq<Store>, runs: seq<JobRun>, ranges: seq<RoundRange>,
                        fromBlock: int, toBlock: int, budget: int, n: nat)
    requires IsHistory(stores, runs) && UndisturbedTo(runs, ranges, fromBlock, toBlock, budget, n)
    requires AllValid(ranges) && DistinctKeys(ranges)
    ensures Complete(stores[n], ranges) <==> n * budget >= RoundCount(ranges)
    ensures Complete(stores[n], ranges) ==> forall id :: Holds(ranges, id) ==> id in stores[n].observations
  {
    RunsPassTheirBudgets(stores, runs, ranges, fromBlock, toBlock, budget, n);
    CompleteIff(stores[n], ranges);
    HistoryGoesOn(stores, runs, ranges, fromBlock, toBlock, budget, n);
    UndisturbedLosesNothing(stores, runs, ranges, fromBlock, toBlock, budget, n);
    RunsNeverSkipSilently(stores, runs, n);
    if Complete(stores[n], ranges) {
      forall id | Holds(ranges, id) ensures id in stores[n].observations {
        assert Passed(stores[n], ranges, id);
        PassedIsStored(stores[n], ranges, id);
      }
    }
  }
}
