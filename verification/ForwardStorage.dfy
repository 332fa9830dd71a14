/** Recorded blocks and stored events. */
module ForwardStorage {
  // What the ledger of the forward protocol says about the event store: a run writes the
  // dataset of its interval before it records its ranges, but on object storage overwriting a
  // dataset first removes it (backfill/run_aave_incremental.py, backfill/storage.py,
  // spark/parquet.py).

  import opened BlockRanges
  import opened CompletedRanges
  import opened Control
  import opened Watermarks
  import opened Decode
  import opened Merge
  import opened Wrappers
  import opened Bootstrap
  import opened ForwardProtocol
  import Timestamps
  import AaveCapture
  import UniswapCapture

  /** The interval's dataset is one complete write. */
  predicate IsWhole(stored: map<BlockRange, Dataset>, r: BlockRange) {
    r in stored && stored[r].content.Whole?
  }

  /** Some complete dataset holds the block. */
  ghost predicate HeldBy(stored: map<BlockRange, Dataset>, b: int) {
    exists r: BlockRange :: r.Contains(b) && IsWhole(stored, r)
  }

  ghost predicate CanonicalStore(c: Config, stored: map<BlockRange, Dataset>) {
    forall r :: IsWhole(stored, r) ==> c.canonical(r, stored[r].content.events)
  }

  /** Nobody is writing at the start, complete datasets are canonical and marked ones complete. */
  ghost predicate StoreInit(c: Config, stored: map<BlockRange, Dataset>) {
    && CanonicalStore(c, stored)
    && forall r :: r in stored ==> !stored[r].content.Unfinished? && (stored[r].marker.Some? ==> IsWhole(stored, r))
  }

  // ----- Complete datasets are canonical -----

  ghost predicate CanonicalInv(c: Config, s: System) {
    && CanonicalStore(c, s.stored)
    && forall w :: w in s.workers ==> CanonicalStage(c, s.workers[w].stage)
  }

  ghost predicate CanonicalStage(c: Config, stage: Stage) {
    stage.Captured? || stage.Writing? ==> c.canonical(stage.job.interval, stage.events)
  }

  lemma StepKeepsStages(c: Config, s: System, a: Action)
    requires CanonicalInv(c, s) && Step(c, s, a).Some?
    ensures var s' := Step(c, s, a).value; forall w :: w in s'.workers ==> CanonicalStage(c, s'.workers[w].stage)
  {
  }

  lemma StepKeepsCanonical(c: Config, s: System, a: Action)
    requires CanonicalInv(c, s) && Step(c, s, a).Some?
    ensures CanonicalInv(c, Step(c, s, a).value)
  {
    StepKeepsStages(c, s, a);
    if a.StartWrite? || a.Land? || a.FinishWrite? || a.Mark? {
      assert CanonicalStage(c, WorkerOf(s, a.w).stage);
    } else {
      assert Step(c, s, a).value.stored == s.stored;
    }
  }

  lemma {:induction false} RunKeepsCanonical(c: Config, states: seq<System>, actions: seq<Action>, n: nat)
    requires IsRun(c, states, actions) && n < |states| && CanonicalStore(c, states[0].stored)
    ensures CanonicalInv(c, states[n])
  {
    if n > 0 {
      RunKeepsCanonical(c, states, actions, n - 1);
      assert StepAt(c, states, actions, n - 1);
      StepKeepsCanonical(c, states[n - 1], actions[n - 1]);
    }
  }

  // ----- The writes of a run -----

  /** Worker `w` removes what the dataset of `r` held and begins to write it. */
  predicate Begins(c: Config, s: System, a: Action, w: nat, r: BlockRange) {
    var stage := WorkerOf(s, w).stage;
    a == StartWrite(w) && stage.Captured? && stage.job.interval == r && !IsCommitted(c, s.stored, r)
  }

  /** Worker `w` finishes its write of `r`. */
  predicate Ends(s: System, a: Action, w: nat, r: BlockRange) {
    var stage := WorkerOf(s, w).stage;
    a.FinishWrite? && a.w == w && stage.Writing? && stage.job.interval == r
  }

  predicate Lands(s: System, a: Action, w: nat, r: BlockRange) {
    var stage := WorkerOf(s, w).stage;
    a == Land(w) && stage.Writing? && stage.job.interval == r
  }

  function Actor(a: Action): nat {
    if a.LeaseAction? then 0 else a.w
  }

  /** The action changes the files of `r`. */
  predicate Writes(c: Config, s: System, a: Action, r: BlockRange) {
    Begins(c, s, a, Actor(a), r) || Lands(s, a, Actor(a), r) || Ends(s, a, Actor(a), r)
  }

  lemma OthersKeepContent(c: Config, s: System, a: Action, r: BlockRange)
    requires Step(c, s, a).Some? && !Writes(c, s, a, r)
    ensures var s' := Step(c, s, a).value;
      (r in s'.stored <==> r in s.stored) && (r in s.stored ==> s'.stored[r].content == s.stored[r].content)
  {
  }

  lemma WritesSetContent(c: Config, s: System, a: Action, r: BlockRange)
    requires Step(c, s, a).Some? && Writes(c, s, a, r)
    ensures var s', w := Step(c, s, a).value, Actor(a);
      && r in s'.stored
      && (Begins(c, s, a, w, r) ==> s'.stored[r].content == Unfinished(w))
      && (!Begins(c, s, a, w, r) ==> r in s.stored)
      && (Lands(s, a, w, r) ==> s'.stored[r].content == (if s.stored[r].content == Unfinished(w) then Unfinished(w) else Broken))
      && (Ends(s, a, w, r) && s.stored[r].content == Unfinished(w) ==> s'.stored[r].content == Whole(WorkerOf(s, w).stage.events))
      && (Ends(s, a, w, r) && s.stored[r].content != Unfinished(w) ==> s'.stored[r].content == Broken)
  {
  }

  ghost predicate WritesAt(c: Config, states: seq<System>, actions: seq<Action>, k: nat, r: BlockRange) {
    k < |actions| < |states| && Writes(c, states[k], actions[k], r)
  }

  ghost predicate BeginsAt(c: Config, states: seq<System>, actions: seq<Action>, k: nat, w: nat, r: BlockRange) {
    k < |actions| < |states| && Begins(c, states[k], actions[k], w, r)
  }

  ghost predicate EndsAt(states: seq<System>, actions: seq<Action>, k: nat, w: nat, r: BlockRange) {
    k < |actions| < |states| && Ends(states[k], actions[k], w, r)
  }

  /** Since action `i` nothing but worker `w` has written `r`, and `w` has not finished. */
  ghost predicate AloneSince(c: Config, states: seq<System>, actions: seq<Action>, i: nat, n: nat, w: nat, r: BlockRange) {
    forall k: nat :: i < k < n && WritesAt(c, states, actions, k, r) ==> actions[k] == Land(w)
  }

  /** The last write of `r` was begun by `w`, is undisturbed and goes on, or ended with the death of `w`. */
  ghost predicate Pending(c: Config, states: seq<System>, actions: seq<Action>, n: nat, w: nat, r: BlockRange) {
    exists i: nat :: i < n && BeginsAt(c, states, actions, i, w, r) && AloneSince(c, states, actions, i, n, w, r)
  }

  ghost predicate QuietSince(c: Config, states: seq<System>, actions: seq<Action>, i: nat, n: nat, r: BlockRange) {
    forall k: nat :: i <= k < n ==> !WritesAt(c, states, actions, k, r)
  }

  /** The last write of `r` ran from its beginning to its end without another writer. */
  ghost predicate RanAlone(c: Config, states: seq<System>, actions: seq<Action>, n: nat, r: BlockRange) {
    exists j: nat, w: nat :: j < n && EndsAt(states, actions, j, w, r) && Pending(c, states, actions, j, w, r)
      && QuietSince(c, states, actions, j + 1, n, r)
  }

  /** So it was, or the dataset was complete at the start and nobody has written it since. */
  ghost predicate Intact(c: Config, states: seq<System>, actions: seq<Action>, n: nat, r: BlockRange) {
    RanAlone(c, states, actions, n, r)
    || (states != [] && IsWhole(states[0].stored, r) && QuietSince(c, states, actions, 0, n, r))
  }

  lemma QuietStepKeepsPending(c: Config, states: seq<System>, actions: seq<Action>, n: nat, w: nat, r: BlockRange)
    requires n < |actions| < |states| && !WritesAt(c, states, actions, n, r)
    ensures Pending(c, states, actions, n + 1, w, r) <==> Pending(c, states, actions, n, w, r)
  {
    if Pending(c, states, actions, n + 1, w, r) {
      var i: nat :| i < n + 1 && BeginsAt(c, states, actions, i, w, r) && AloneSince(c, states, actions, i, n + 1, w, r);
      assert AloneSince(c, states, actions, i, n, w, r);
    }
    if Pending(c, states, actions, n, w, r) {
      var i: nat :| i < n && BeginsAt(c, states, actions, i, w, r) && AloneSince(c, states, actions, i, n, w, r);
      assert AloneSince(c, states, actions, i, n + 1, w, r);
    }
  }

  lemma AloneBeforeQuiet(c: Config, states: seq<System>, actions: seq<Action>, n: nat, r: BlockRange)
    requires n < |actions| < |states| && !WritesAt(c, states, actions, n, r) && RanAlone(c, states, actions, n + 1, r)
    ensures RanAlone(c, states, actions, n, r)
  {
    var j: nat, w: nat :| j < n + 1 && EndsAt(states, actions, j, w, r) && Pending(c, states, actions, j, w, r)
      && QuietSince(c, states, actions, j + 1, n + 1, r);
    assert WritesAt(c, states, actions, j, r);
    assert QuietSince(c, states, actions, j + 1, n, r);
  }

  lemma AloneAfterQuiet(c: Config, states: seq<System>, actions: seq<Action>, n: nat, r: BlockRange)
    requires n < |actions| < |states| && !WritesAt(c, states, actions, n, r) && RanAlone(c, states, actions, n, r)
    ensures RanAlone(c, states, actions, n + 1, r)
  {
    var j: nat, w: nat :| j < n && EndsAt(states, actions, j, w, r) && Pending(c, states, actions, j, w, r)
      && QuietSince(c, states, actions, j + 1, n, r);
    assert QuietSince(c, states, actions, j + 1, n + 1, r);
  }

  lemma QuietStepKeepsIntact(c: Config, states: seq<System>, actions: seq<Action>, n: nat, r: BlockRange)
    requires n < |actions| < |states| && !WritesAt(c, states, actions, n, r)
    ensures Intact(c, states, actions, n + 1, r) <==> Intact(c, states, actions, n, r)
  {
    if RanAlone(c, states, actions, n + 1, r) { AloneBeforeQuiet(c, states, actions, n, r); }
    if RanAlone(c, states, actions, n, r) { AloneAfterQuiet(c, states, actions, n, r); }
    assert QuietSince(c, states, actions, 0, n + 1, r) <==> QuietSince(c, states, actions, 0, n, r);
  }

  /** After a write of `r`, only that write counts. */
  lemma WriteDecidesPending(c: Config, states: seq<System>, actions: seq<Action>, n: nat, x: nat, r: BlockRange)
    requires n < |actions| < |states| && WritesAt(c, states, actions, n, r)
    ensures var w := Actor(actions[n]);
      Pending(c, states, actions, n + 1, x, r) <==>
        x == w && (BeginsAt(c, states, actions, n, w, r) || (actions[n] == Land(w) && Pending(c, states, actions, n, w, r)))
  {
    var w := Actor(actions[n]);
    if Pending(c, states, actions, n + 1, x, r) {
      var i: nat :| i < n + 1 && BeginsAt(c, states, actions, i, x, r) && AloneSince(c, states, actions, i, n + 1, x, r);
      if i < n {
        assert actions[n] == Land(x);
        assert AloneSince(c, states, actions, i, n, x, r);
      }
    }
    if BeginsAt(c, states, actions, n, w, r) {
      assert AloneSince(c, states, actions, n, n + 1, w, r);
    }
    if actions[n] == Land(w) && Pending(c, states, actions, n, w, r) {
      var i: nat :| i < n && BeginsAt(c, states, actions, i, w, r) && AloneSince(c, states, actions, i, n, w, r);
      assert AloneSince(c, states, actions, i, n + 1, w, r);
    }
  }

  lemma WriteDecidesIntact(c: Config, states: seq<System>, actions: seq<Action>, n: nat, r: BlockRange)
    requires n < |actions| < |states| && WritesAt(c, states, actions, n, r)
    ensures var w := Actor(actions[n]);
      Intact(c, states, actions, n + 1, r) <==> EndsAt(states, actions, n, w, r) && Pending(c, states, actions, n, w, r)
  {
    var w := Actor(actions[n]);
    if RanAlone(c, states, actions, n + 1, r) {
      var j: nat, x: nat :| j < n + 1 && EndsAt(states, actions, j, x, r) && Pending(c, states, actions, j, x, r)
        && QuietSince(c, states, actions, j + 1, n + 1, r);
      assert j == n;
    }
    if EndsAt(states, actions, n, w, r) && Pending(c, states, actions, n, w, r) {
      assert QuietSince(c, states, actions, n + 1, n + 1, r);
    }
  }

  lemma {:induction false} UnfinishedIsPending(c: Config, states: seq<System>, actions: seq<Action>, n: nat, w: nat, r: BlockRange)
    requires IsRun(c, states, actions) && n < |states| && StoreInit(c, states[0].stored)
    ensures (r in states[n].stored && states[n].stored[r].content == Unfinished(w)) <==> Pending(c, states, actions, n, w, r)
  {
    if n > 0 {
      UnfinishedIsPending(c, states, actions, n - 1, w, r);
      assert StepAt(c, states, actions, n - 1);
      if WritesAt(c, states, actions, n - 1, r) {
        WritesSetContent(c, states[n - 1], actions[n - 1], r);
        WriteDecidesPending(c, states, actions, n - 1, w, r);
      } else {
        OthersKeepContent(c, states[n - 1], actions[n - 1], r);
        QuietStepKeepsPending(c, states, actions, n - 1, w, r);
      }
    }
  }

  lemma {:induction false} WholeIsIntact(c: Config, states: seq<System>, actions: seq<Action>, n: nat, r: BlockRange)
    requires IsRun(c, states, actions) && n < |states| && StoreInit(c, states[0].stored)
    ensures IsWhole(states[n].stored, r) <==> Intact(c, states, actions, n, r)
  {
    if n > 0 {
      assert StepAt(c, states, actions, n - 1);
      if WritesAt(c, states, actions, n - 1, r) {
        UnfinishedIsPending(c, states, actions, n - 1, Actor(actions[n - 1]), r);
        WritesSetContent(c, states[n - 1], actions[n - 1], r);
        WriteDecidesIntact(c, states, actions, n - 1, r);
      } else {
        WholeIsIntact(c, states, actions, n - 1, r);
        OthersKeepContent(c, states[n - 1], actions[n - 1], r);
        QuietStepKeepsIntact(c, states, actions, n - 1, r);
      }
    }
  }

  /**
   In every reachable state, with any number of writers at work, dying or overtaking each
   other, a block's events are stored exactly when the last write of some interval that holds
   it ran alone to its end; and what is stored then is canonical.
   */
  lemma BlockIsStoredIff(c: Config, states: seq<System>, actions: seq<Action>, n: nat, b: int)
    requires IsRun(c, states, actions) && n < |states| && StoreInit(c, states[0].stored)
    ensures HeldBy(states[n].stored, b) <==> exists r: BlockRange :: r.Contains(b) && Intact(c, states, actions, n, r)
    ensures CanonicalStore(c, states[n].stored)
  {
    RunKeepsCanonical(c, states, actions, n);
    forall r: BlockRange ensures IsWhole(states[n].stored, r) <==> Intact(c, states, actions, n, r) {
      WholeIsIntact(c, states, actions, n, r);
    }
  }

  // ----- One writer of an interval at a time -----

  /** The worker is writing, or has yet to mark, the dataset of `r`. */
  predicate Claims(stage: Stage, r: BlockRange) {
    (stage.Writing? || stage.Written?) && stage.job.interval == r
  }

  ghost predicate OneWriterIn(s: System) {
    forall w, x, r :: w in s.workers && x in s.workers && Claims(s.workers[w].stage, r) && Claims(s.workers[x].stage, r) ==> w == x
  }

  ghost predicate OneWriter(states: seq<System>) {
    forall n :: 0 <= n < |states| ==> OneWriterIn(states[n])
  }

  ghost predicate WriterOk(stored: map<BlockRange, Dataset>, w: nat, stage: Stage) {
    && (stage.Writing? ==> stage.job.interval in stored && stored[stage.job.interval].content == Unfinished(w))
    && (stage.Written? ==> IsWhole(stored, stage.job.interval))
  }

  /** What a worker writes is its own, and what it has written complete. */
  ghost predicate WriterInv(s: System) {
    forall w :: w in s.workers ==> WriterOk(s.stored, w, s.workers[w].stage)
  }

  lemma WriteKeepsWriters(c: Config, s: System, a: Action, x: nat)
    requires WriterInv(s) && OneWriterIn(s) && Step(c, s, a).Some? && OneWriterIn(Step(c, s, a).value)
    requires (a.StartWrite? || a.Land? || a.FinishWrite? || a.Mark?) && x in Step(c, s, a).value.workers
    ensures var s' := Step(c, s, a).value; WriterOk(s'.stored, x, s'.workers[x].stage)
  {
    var s', r := Step(c, s, a).value, WorkerOf(s, a.w).stage.job.interval;
    assert a.w in s.workers && a.w in s'.workers;
    if x != a.w {
      assert x in s.workers && s'.workers[x] == s.workers[x];
      assert Claims(s.workers[a.w].stage, r) || Claims(s'.workers[a.w].stage, r) || s'.stored == s.stored;
      assert Claims(s.workers[x].stage, r) ==> s'.stored == s.stored;
    }
  }

  lemma StepKeepsWriters(c: Config, s: System, a: Action)
    requires WriterInv(s) && OneWriterIn(s) && Step(c, s, a).Some? && OneWriterIn(Step(c, s, a).value)
    ensures WriterInv(Step(c, s, a).value)
  {
    if a.StartWrite? || a.Land? || a.FinishWrite? || a.Mark? {
      var s' := Step(c, s, a).value;
      forall x | x in s'.workers ensures WriterOk(s'.stored, x, s'.workers[x].stage) {
        WriteKeepsWriters(c, s, a, x);
      }
    }
  }

  lemma {:induction false} RunKeepsWriters(c: Config, states: seq<System>, actions: seq<Action>, n: nat)
    requires IsRun(c, states, actions) && n < |states| && OneWriter(states)
    ensures WriterInv(states[n])
  {
    if n > 0 {
      RunKeepsWriters(c, states, actions, n - 1);
      assert StepAt(c, states, actions, n - 1);
      StepKeepsWriters(c, states[n - 1], actions[n - 1]);
    }
  }

  ghost predicate NoEndSince(states: seq<System>, actions: seq<Action>, i: nat, n: nat, r: BlockRange) {
    forall k: nat, x: nat :: i < k < n ==> !EndsAt(states, actions, k, x, r)
  }

  /** A write of `r` was begun after which none has ended: it was cut short or goes on. */
  ghost predicate CutShort(c: Config, states: seq<System>, actions: seq<Action>, n: nat, r: BlockRange) {
    exists i: nat, w: nat :: i < n && BeginsAt(c, states, actions, i, w, r) && NoEndSince(states, actions, i, n, r)
  }

  ghost predicate EverEnded(states: seq<System>, actions: seq<Action>, n: nat, r: BlockRange) {
    exists j: nat, w: nat :: j < n && EndsAt(states, actions, j, w, r)
  }

  lemma CutShortByBegin(c: Config, states: seq<System>, actions: seq<Action>, n: nat, w: nat, r: BlockRange)
    requires BeginsAt(c, states, actions, n, w, r)
    ensures CutShort(c, states, actions, n + 1, r)
  {
    assert NoEndSince(states, actions, n, n + 1, r);
  }

  lemma WholeAfterEnd(c: Config, states: seq<System>, actions: seq<Action>, n: nat, w: nat, r: BlockRange)
    requires EndsAt(states, actions, n, w, r)
    ensures !CutShort(c, states, actions, n + 1, r)
  {
    forall i: nat, x: nat | i < n + 1 && BeginsAt(c, states, actions, i, x, r) ensures !NoEndSince(states, actions, i, n + 1, r) {
      assert i != n;
    }
  }

  lemma CutShortStays(c: Config, states: seq<System>, actions: seq<Action>, n: nat, r: BlockRange)
    requires n < |actions| < |states|
    requires !BeginsAt(c, states, actions, n, Actor(actions[n]), r) && !EndsAt(states, actions, n, Actor(actions[n]), r)
    ensures CutShort(c, states, actions, n + 1, r) <==> CutShort(c, states, actions, n, r)
  {
    if CutShort(c, states, actions, n + 1, r) {
      var i: nat, x: nat :| i < n + 1 && BeginsAt(c, states, actions, i, x, r) && NoEndSince(states, actions, i, n + 1, r);
      assert NoEndSince(states, actions, i, n, r);
    }
    if CutShort(c, states, actions, n, r) {
      var i: nat, x: nat :| i < n && BeginsAt(c, states, actions, i, x, r) && NoEndSince(states, actions, i, n, r);
      assert NoEndSince(states, actions, i, n + 1, r);
    }
  }

  lemma CutShortStep(c: Config, states: seq<System>, actions: seq<Action>, n: nat, r: BlockRange)
    requires n < |actions| < |states|
    ensures var w := Actor(actions[n]);
      CutShort(c, states, actions, n + 1, r) <==>
        BeginsAt(c, states, actions, n, w, r) || (!EndsAt(states, actions, n, w, r) && CutShort(c, states, actions, n, r))
  {
    var w := Actor(actions[n]);
    if BeginsAt(c, states, actions, n, w, r) {
      CutShortByBegin(c, states, actions, n, w, r);
    } else if EndsAt(states, actions, n, w, r) {
      WholeAfterEnd(c, states, actions, n, w, r);
    } else {
      CutShortStays(c, states, actions, n, r);
    }
  }

  lemma EverEndedStep(states: seq<System>, actions: seq<Action>, n: nat, r: BlockRange)
    requires n < |actions| < |states|
    ensures EverEnded(states, actions, n + 1, r) <==> EverEnded(states, actions, n, r) || EndsAt(states, actions, n, Actor(actions[n]), r)
  {
  }

  /** Some write of the interval has ended, or its dataset was complete before, and no later write was cut short. */
  ghost predicate Sound(c: Config, states: seq<System>, actions: seq<Action>, n: nat, r: BlockRange) {
    && (EverEnded(states, actions, n, r) || (states != [] && IsWhole(states[0].stored, r)))
    && !CutShort(c, states, actions, n, r)
  }

  /** With one writer of an interval at a time, its dataset is complete exactly when it is sound. */
  lemma {:induction false} WholeIsSound(c: Config, states: seq<System>, actions: seq<Action>, n: nat, r: BlockRange)
    requires IsRun(c, states, actions) && n < |states| && StoreInit(c, states[0].stored) && OneWriter(states)
    ensures IsWhole(states[n].stored, r) <==> Sound(c, states, actions, n, r)
  {
    if n > 0 {
      var k := n - 1;
      WholeIsSound(c, states, actions, k, r);
      assert StepAt(c, states, actions, k);
      RunKeepsWriters(c, states, actions, k);
      CutShortStep(c, states, actions, k, r);
      EverEndedStep(states, actions, k, r);
      if WritesAt(c, states, actions, k, r) {
        WritesSetContent(c, states[k], actions[k], r);
      } else {
        OthersKeepContent(c, states[k], actions[k], r);
      }
    }
  }

  // ----- Recorded intervals -----

  /** Action `k` recorded the leaves of a job for interval `r`. */
  ghost predicate RecordsAt(states: seq<System>, actions: seq<Action>, k: nat, r: BlockRange) {
    k < |actions| < |states| && actions[k].Record?
    && var stage := WorkerOf(states[k], actions[k].w).stage;
       stage.Persisted? && stage.job.interval == r && WorkerOf(states[k + 1], actions[k].w).stage.Recorded?
  }

  ghost predicate RecordedIn(states: seq<System>, actions: seq<Action>, n: nat, r: BlockRange) {
    exists k: nat :: k < n && RecordsAt(states, actions, k, r)
  }

  /** The block has evidence now and had none at the start. */
  ghost predicate RecordedSince(c: Config, states: seq<System>, n: nat, b: int) {
    n < |states| && Covered(CoverageOf(c, states[n]), b) && !Covered(CoverageOf(c, states[0]), b)
  }

  /** New evidence lies in the interval it was recorded for, and nothing else adds any. */
  lemma StepCovers(c: Config, s: System, a: Action, b: int)
    requires Inv(c, s) && Step(c, s, a).Some?
    ensures var s' := Step(c, s, a).value;
      && (Covered(CoverageOf(c, s), b) ==> Covered(CoverageOf(c, s'), b))
      && (Covered(CoverageOf(c, s'), b) && !Covered(CoverageOf(c, s), b) ==>
            a.Record? && WorkerOf(s, a.w).stage.Persisted? && WorkerOf(s, a.w).stage.job.interval.Contains(b)
            && WorkerOf(s', a.w).stage.Recorded?)
  {
    var s' := Step(c, s, a).value;
    if a.Record? {
      RecordCovers(c, s, a.w, a.runId, a.processedAt, b);
    } else {
      assert CoverageOf(c, s') == CoverageOf(c, s);
    }
  }

  lemma RecordCovers(c: Config, s: System, w: nat, runId: string, processedAt: Instant, b: int)
    requires Inv(c, s) && RecordStep(c, s, w, runId, processedAt).Some?
    ensures var s', stage := RecordStep(c, s, w, runId, processedAt).value, WorkerOf(s, w).stage;
      && stage.Persisted?
      && (Covered(CoverageOf(c, s), b) ==> Covered(CoverageOf(c, s'), b))
      && (Covered(CoverageOf(c, s'), b) ==>
            Covered(CoverageOf(c, s), b) || (stage.job.interval.Contains(b) && WorkerOf(s', w).stage.Recorded?))
  {
    var stage, s' := WorkerOf(s, w).stage, RecordStep(c, s, w, runId, processedAt).value;
    var cs := Evidences(stage.leaves, runId, processedAt);
    assert w in s.workers;
    if RecordAll(s.ledger, c.identity, cs).Success? {
      RecordedCoverage(s.ledger, c.identity, cs);
      CoveredConcat(c.legacy, RangesOf(s.ledger, c.identity));
      CoveredConcat(c.legacy, RangesOf(s'.ledger, c.identity));
      assert RangesIn(cs) == stage.leaves;
      TilesCover(stage.leaves, stage.job.interval.start, stage.job.interval.end);
    } else {
      assert CoverageOf(c, s') == CoverageOf(c, s);
    }
  }

  lemma {:induction false} RecordedBlockHasInterval(c: Config, states: seq<System>, actions: seq<Action>, n: nat, b: int)
    requires IsRun(c, states, actions) && n < |states| && RecordedSince(c, states, n, b)
    ensures exists r: BlockRange :: r.Contains(b) && RecordedIn(states, actions, n, r)
  {
    var k := n - 1;
    RunKeepsInv(c, states, actions, k);
    assert StepAt(c, states, actions, k);
    StepCovers(c, states[k], actions[k], b);
    if RecordedSince(c, states, k, b) {
      RecordedBlockHasInterval(c, states, actions, k, b);
      var r: BlockRange :| r.Contains(b) && RecordedIn(states, actions, k, r);
      assert RecordedIn(states, actions, n, r);
    } else {
      var r := WorkerOf(states[k], actions[k].w).stage.job.interval;
      assert RecordsAt(states, actions, k, r);
    }
  }

  predicate HasWritten(stage: Stage, r: BlockRange) {
    (stage.Persisted? || stage.Written?) && stage.job.interval == r
  }

  /** An Aave worker gets there only by ending a write. */
  lemma WrittenByEnding(c: Config, s: System, a: Action, w: nat, r: BlockRange)
    requires c.pipeline.AaveForward? && Step(c, s, a).Some? && HasWritten(WorkerOf(Step(c, s, a).value, w).stage, r)
    ensures HasWritten(WorkerOf(s, w).stage, r) || (Actor(a) == w && Ends(s, a, w, r))
  {
  }

  lemma {:induction false} PersistedHasEnded(c: Config, states: seq<System>, actions: seq<Action>, n: nat, w: nat, r: BlockRange)
    requires IsRun(c, states, actions) && n < |states| && c.pipeline.AaveForward? && HasWritten(WorkerOf(states[n], w).stage, r)
    ensures EverEnded(states, actions, n, r)
  {
    if n > 0 {
      assert StepAt(c, states, actions, n - 1);
      EverEndedStep(states, actions, n - 1, r);
      WrittenByEnding(c, states[n - 1], actions[n - 1], w, r);
      if HasWritten(WorkerOf(states[n - 1], w).stage, r) { PersistedHasEnded(c, states, actions, n - 1, w, r); }
    }
  }

  lemma RecordedHasEnded(c: Config, states: seq<System>, actions: seq<Action>, n: nat, r: BlockRange)
    requires IsRun(c, states, actions) && n < |states| && c.pipeline.AaveForward? && RecordedIn(states, actions, n, r)
    ensures EverEnded(states, actions, n, r)
  {
    var k: nat :| k < n && RecordsAt(states, actions, k, r);
    PersistedHasEnded(c, states, actions, k, actions[k].w, r);
    var j: nat, w: nat :| j < k && EndsAt(states, actions, j, w, r);
  }

  /**
   With one writer of an interval at a time, in every reachable state every interval that
   Aave recorded is stored exactly when no rewrite of such an interval was cut short or left
   unfinished; then every block recorded since the start is stored.
   */
  lemma RecordedIsStoredIff(c: Config, states: seq<System>, actions: seq<Action>, n: nat)
    requires IsRun(c, states, actions) && n < |states| && StoreInit(c, states[0].stored) && OneWriter(states)
    requires c.pipeline.AaveForward?
    ensures (forall r :: RecordedIn(states, actions, n, r) ==> IsWhole(states[n].stored, r))
       <==> (forall r :: RecordedIn(states, actions, n, r) ==> !CutShort(c, states, actions, n, r))
    ensures (forall r :: RecordedIn(states, actions, n, r) ==> !CutShort(c, states, actions, n, r)) ==>
              forall b :: RecordedSince(c, states, n, b) ==> HeldBy(states[n].stored, b)
  {
    forall r | RecordedIn(states, actions, n, r)
      ensures IsWhole(states[n].stored, r) <==> !CutShort(c, states, actions, n, r)
    {
      RecordedHasEnded(c, states, actions, n, r);
      WholeIsSound(c, states, actions, n, r);
    }
    forall b | RecordedSince(c, states, n, b) ensures exists r: BlockRange :: r.Contains(b) && RecordedIn(states, actions, n, r) {
      RecordedBlockHasInterval(c, states, actions, n, b);
    }
  }

  /** Block by block, for both pipelines: stored means in the dataset of a sound interval. */
  lemma BlockIsStoredIffSound(c: Config, states: seq<System>, actions: seq<Action>, n: nat, b: int)
    requires IsRun(c, states, actions) && n < |states| && StoreInit(c, states[0].stored) && OneWriter(states)
    ensures HeldBy(states[n].stored, b) <==> exists r: BlockRange :: r.Contains(b) && Sound(c, states, actions, n, r)
  {
    forall r: BlockRange ensures IsWhole(states[n].stored, r) <==> Sound(c, states, actions, n, r) {
      WholeIsSound(c, states, actions, n, r);
    }
  }

  // ----- What a worker can check before it writes -----

  /** No evidence of the pipeline's own ledger meets the interval. */
  ghost predicate Fresh(c: Config, s: System, r: BlockRange) {
    forall b :: r.Contains(b) ==> !Covered(RangesOf(s.ledger, c.identity), b)
  }

  ghost predicate FreshWrites(c: Config, states: seq<System>, actions: seq<Action>) {
    forall k: nat, w: nat, r :: BeginsAt(c, states, actions, k, w, r) ==> Fresh(c, states[k], r)
  }

  /** The worker is at work on `r` between beginning to write it and recording it. */
  predicate Owns(stage: Stage, r: BlockRange) {
    Claims(stage, r) || (stage.Persisted? && stage.job.interval == r)
  }

  ghost predicate OneOwnerIn(s: System) {
    forall w, x, r :: w in s.workers && x in s.workers && Owns(s.workers[w].stage, r) && Owns(s.workers[x].stage, r) ==> w == x
  }

  ghost predicate OneOwner(states: seq<System>) {
    forall n :: 0 <= n < |states| ==> OneOwnerIn(states[n])
  }

  lemma OwnersWriteAlone(states: seq<System>)
    requires OneOwner(states)
    ensures OneWriter(states)
  {
    forall n | 0 <= n < |states| ensures OneWriterIn(states[n]) {
      var s := states[n];
      forall w, x, r | w in s.workers && x in s.workers && Claims(s.workers[w].stage, r) && Claims(s.workers[x].stage, r) ensures w == x {
        assert Owns(s.workers[w].stage, r) && Owns(s.workers[x].stage, r);
      }
    }
  }

  /** Persisted intervals are complete, and so is one around every block recorded since `first`. */
  ghost predicate FreshInv(c: Config, first: seq<BlockRange>, s: System) {
    && (forall w :: w in s.workers && s.workers[w].stage.Persisted? ==> IsWhole(s.stored, s.workers[w].stage.job.interval))
    && (forall b :: Covered(CoverageOf(c, s), b) && !Covered(first, b) ==> HeldBy(s.stored, b))
  }

  /** While the first files are removed nobody relies on them. */
  lemma BeginKeepsFresh(c: Config, first: seq<BlockRange>, s: System, w: nat, r: BlockRange)
    requires FreshInv(c, first, s) && (forall b :: Covered(c.legacy, b) ==> Covered(first, b))
    requires Begins(c, s, StartWrite(w), w, r) && Fresh(c, s, r) && OneOwnerIn(StartStep(c, s, w).value)
    ensures FreshInv(c, first, StartStep(c, s, w).value)
  {
    var s' := StartStep(c, s, w).value;
    assert CoverageOf(c, s') == CoverageOf(c, s);
    CoveredConcat(c.legacy, RangesOf(s.ledger, c.identity));
    assert w in s'.workers && Owns(s'.workers[w].stage, r);
    forall x | x in s'.workers && s'.workers[x].stage.Persisted? ensures IsWhole(s'.stored, s'.workers[x].stage.job.interval) {
      assert x in s.workers && s'.workers[x] == s.workers[x];
      assert Owns(s'.workers[x].stage, s'.workers[x].stage.job.interval);
    }
    forall b | Covered(CoverageOf(c, s'), b) && !Covered(first, b) ensures HeldBy(s'.stored, b) {
      var q: BlockRange :| q.Contains(b) && IsWhole(s.stored, q);
      assert q != r;
      assert IsWhole(s'.stored, q);
    }
  }

  /** Landing, ending and marking a write of one's own lose no complete dataset. */
  lemma WriteLosesNothing(c: Config, s: System, a: Action, q: BlockRange)
    requires WriterInv(s) && Step(c, s, a).Some? && (a.Land? || a.FinishWrite? || a.Mark?) && IsWhole(s.stored, q)
    ensures IsWhole(Step(c, s, a).value.stored, q)
  {
    assert a.w in s.workers && WriterOk(s.stored, a.w, s.workers[a.w].stage);
  }

  lemma WriteKeepsFresh(c: Config, first: seq<BlockRange>, s: System, a: Action)
    requires FreshInv(c, first, s) && WriterInv(s) && Step(c, s, a).Some? && (a.Land? || a.FinishWrite? || a.Mark?)
    ensures FreshInv(c, first, Step(c, s, a).value)
  {
    var s' := Step(c, s, a).value;
    assert CoverageOf(c, s') == CoverageOf(c, s);
    forall x | x in s'.workers && s'.workers[x].stage.Persisted? ensures IsWhole(s'.stored, s'.workers[x].stage.job.interval) {
      assert x in s.workers && WriterOk(s.stored, x, s.workers[x].stage);
      if s.workers[x].stage.Persisted? || s.workers[x].stage.Written? { WriteLosesNothing(c, s, a, s.workers[x].stage.job.interval); }
    }
    forall b | HeldBy(s.stored, b) ensures HeldBy(s'.stored, b) {
      var q: BlockRange :| q.Contains(b) && IsWhole(s.stored, q);
      WriteLosesNothing(c, s, a, q);
    }
  }

  lemma RecordKeepsFresh(c: Config, first: seq<BlockRange>, s: System, a: Action)
    requires Inv(c, s) && FreshInv(c, first, s) && Step(c, s, a).Some? && a.Record?
    ensures FreshInv(c, first, Step(c, s, a).value)
  {
    var s' := Step(c, s, a).value;
    assert a.w in s.workers;
    forall b | Covered(CoverageOf(c, s'), b) && !Covered(first, b) ensures HeldBy(s'.stored, b) {
      StepCovers(c, s, a, b);
    }
  }

  lemma QuietKeepsFresh(c: Config, first: seq<BlockRange>, s: System, a: Action)
    requires FreshInv(c, first, s) && Step(c, s, a).Some? && c.pipeline.AaveForward?
    requires !a.StartWrite? && !a.Land? && !a.FinishWrite? && !a.Mark? && !a.Record?
    ensures FreshInv(c, first, Step(c, s, a).value)
  {
    assert CoverageOf(c, Step(c, s, a).value) == CoverageOf(c, s);
  }

  lemma StepKeepsFresh(c: Config, first: seq<BlockRange>, s: System, a: Action)
    requires Inv(c, s) && FreshInv(c, first, s) && WriterInv(s) && Step(c, s, a).Some? && c.pipeline.AaveForward?
    requires forall b :: Covered(c.legacy, b) ==> Covered(first, b)
    requires forall r :: Begins(c, s, a, Actor(a), r) ==> Fresh(c, s, r)
    requires OneOwnerIn(Step(c, s, a).value)
    ensures FreshInv(c, first, Step(c, s, a).value)
  {
    match a
    case StartWrite(w) =>
      assert Begins(c, s, a, w, WorkerOf(s, w).stage.job.interval);
      BeginKeepsFresh(c, first, s, w, WorkerOf(s, w).stage.job.interval);
    case Land(_) => WriteKeepsFresh(c, first, s, a);
    case FinishWrite(_, _) => WriteKeepsFresh(c, first, s, a);
    case Mark(_) => WriteKeepsFresh(c, first, s, a);
    case Record(_, _, _) => RecordKeepsFresh(c, first, s, a);
    case _ => QuietKeepsFresh(c, first, s, a);
  }

  lemma {:induction false} RunKeepsFresh(c: Config, states: seq<System>, actions: seq<Action>, n: nat)
    requires IsRun(c, states, actions) && n < |states| && c.pipeline.AaveForward?
    requires OneOwner(states) && FreshWrites(c, states, actions)
    ensures FreshInv(c, CoverageOf(c, states[0]), states[n])
  {
    if n > 0 {
      var k := n - 1;
      RunKeepsFresh(c, states, actions, k);
      RunKeepsInv(c, states, actions, k);
      OwnersWriteAlone(states);
      RunKeepsWriters(c, states, actions, k);
      assert StepAt(c, states, actions, k);
      CoveredConcat(c.legacy, RangesOf(states[0].ledger, c.identity));
      forall r | Begins(c, states[k], actions[k], Actor(actions[k]), r) ensures Fresh(c, states[k], r) {
        assert BeginsAt(c, states, actions, k, Actor(actions[k]), r);
      }
      StepKeepsFresh(c, CoverageOf(c, states[0]), states[k], actions[k]);
    }
  }

  /**
   A run that looks at the ledger before it writes, and writes only intervals without
   evidence, loses nothing: with one worker at a time between writing an interval and
   recording it, every block recorded since the start is stored in every reachable state.
   */
  lemma FreshWritesKeepRecords(c: Config, states: seq<System>, actions: seq<Action>, n: nat, b: int)
    requires IsRun(c, states, actions) && n < |states| && c.pipeline.AaveForward?
    requires OneOwner(states) && FreshWrites(c, states, actions) && RecordedSince(c, states, n, b)
    ensures HeldBy(states[n].stored, b)
  {
    RunKeepsFresh(c, states, actions, n);
  }

  /** Every block with evidence beyond `first` is stored. */
  ghost predicate RecordsStored(c: Config, first: seq<BlockRange>, s: System) {
    forall b :: Covered(CoverageOf(c, s), b) && !Covered(first, b) ==> HeldBy(s.stored, b)
  }

  /** Another complete dataset holds the block. */
  ghost predicate HeldElsewhere(stored: map<BlockRange, Dataset>, r: BlockRange, b: int) {
    exists q: BlockRange :: q != r && q.Contains(b) && IsWhole(stored, q)
  }

  /** What a worker leaves that begins to write and dies. */
  ghost function DeadWriter(c: Config, s: System, w: nat): System
    requires Step(c, s, StartWrite(w)).Some?
  {
    Step(c, Step(c, s, StartWrite(w)).value, Crash(w)).value
  }

  /**
   Beginning to write an interval and dying leaves every recorded block stored exactly when
   another complete dataset holds each of them, which is so for every block outside the
   interval that was stored before.
   */
  lemma DyingWriterLosesIff(c: Config, first: seq<BlockRange>, s: System, w: nat, r: BlockRange)
    requires Begins(c, s, StartWrite(w), w, r) && RecordsStored(c, first, s)
    ensures RecordsStored(c, first, DeadWriter(c, s, w)) <==>
              forall b :: r.Contains(b) && Covered(CoverageOf(c, s), b) && !Covered(first, b) ==> HeldElsewhere(s.stored, r, b)
  {
    var dead := DeadWriter(c, s, w);
    assert CoverageOf(c, dead) == CoverageOf(c, s);
    forall b ensures HeldBy(dead.stored, b) <==> HeldElsewhere(s.stored, r, b) {
      if HeldBy(dead.stored, b) {
        var q: BlockRange :| q.Contains(b) && IsWhole(dead.stored, q);
        assert q != r && IsWhole(s.stored, q);
      }
      if HeldElsewhere(s.stored, r, b) {
        var q: BlockRange :| q != r && q.Contains(b) && IsWhole(s.stored, q);
        assert IsWhole(dead.stored, q);
      }
    }
  }

  // ----- Uniswap: committed batches are kept -----

  predicate IsMarked(stored: map<BlockRange, Dataset>, r: BlockRange) {
    r in stored && stored[r].marker.Some?
  }

  ghost predicate MarkedStage(stored: map<BlockRange, Dataset>, stage: Stage) {
    && (stage.Writing? || stage.Written? ==> !IsMarked(stored, stage.job.interval))
    && (stage.Persisted? ==> IsMarked(stored, stage.job.interval))
  }

  ghost predicate MarkedAround(stored: map<BlockRange, Dataset>, b: int) {
    exists r: BlockRange :: r.Contains(b) && IsMarked(stored, r)
  }

  /** Marked batches are complete, and one holds every block recorded since `first`. */
  ghost predicate MarkedInv(c: Config, first: seq<BlockRange>, s: System) {
    && (forall r :: IsMarked(s.stored, r) ==> IsWhole(s.stored, r))
    && (forall w :: w in s.workers ==> MarkedStage(s.stored, s.workers[w].stage))
    && (forall b :: Covered(CoverageOf(c, s), b) && !Covered(first, b) ==> MarkedAround(s.stored, b))
  }

  /** No step of any worker touches a marked batch. */
  lemma MarkedIsKept(c: Config, first: seq<BlockRange>, s: System, a: Action, r: BlockRange)
    requires c.pipeline.UniswapForward? && MarkedInv(c, first, s) && Step(c, s, a).Some? && IsMarked(s.stored, r)
    ensures var s' := Step(c, s, a).value; r in s'.stored && s'.stored[r] == s.stored[r]
  {
    if a.StartWrite? || a.Land? || a.FinishWrite? || a.Mark? { assert a.w in s.workers; }
  }

  lemma StepKeepsMarkedWhole(c: Config, first: seq<BlockRange>, s: System, a: Action, r: BlockRange)
    requires c.pipeline.UniswapForward? && MarkedInv(c, first, s) && WriterInv(s) && Step(c, s, a).Some?
    ensures var s' := Step(c, s, a).value; IsMarked(s'.stored, r) ==> IsWhole(s'.stored, r)
  {
    if IsMarked(s.stored, r) { MarkedIsKept(c, first, s, a, r); }
    if a.StartWrite? || a.Land? || a.FinishWrite? || a.Mark? {
      assert a.w in s.workers && WriterOk(s.stored, a.w, s.workers[a.w].stage);
    }
  }

  lemma OwnStageMarked(c: Config, first: seq<BlockRange>, s: System, a: Action)
    requires c.pipeline.UniswapForward? && MarkedInv(c, first, s) && Step(c, s, a).Some?
    requires a.StartWrite? || a.Land? || a.FinishWrite? || a.Mark?
    ensures var s' := Step(c, s, a).value; MarkedStage(s'.stored, WorkerOf(s', a.w).stage)
  {
    assert a.w in s.workers;
  }

  lemma OtherStageMarked(c: Config, first: seq<BlockRange>, s: System, a: Action, x: nat)
    requires c.pipeline.UniswapForward? && MarkedInv(c, first, s) && Step(c, s, a).Some? && x in s.workers && OneWriterIn(s)
    requires (a.StartWrite? || a.Land? || a.FinishWrite? || a.Mark?) && x != a.w
    ensures MarkedStage(Step(c, s, a).value.stored, s.workers[x].stage)
  {
    var r := WorkerOf(s, a.w).stage.job.interval;
    assert a.w in s.workers;
    assert a.Mark? ==> Claims(s.workers[a.w].stage, r);
    assert a.Mark? ==> !Claims(s.workers[x].stage, r);
    if s.workers[x].stage.Persisted? { MarkedIsKept(c, first, s, a, s.workers[x].stage.job.interval); }
  }

  lemma QuietStageMarked(c: Config, first: seq<BlockRange>, s: System, a: Action, x: nat)
    requires MarkedInv(c, first, s) && Step(c, s, a).Some? && x in Step(c, s, a).value.workers
    requires !a.StartWrite? && !a.Land? && !a.FinishWrite? && !a.Mark?
    ensures var s' := Step(c, s, a).value; MarkedStage(s'.stored, s'.workers[x].stage)
  {
  }

  lemma StepKeepsMarkedStage(c: Config, first: seq<BlockRange>, s: System, a: Action, x: nat)
    requires c.pipeline.UniswapForward? && MarkedInv(c, first, s) && Step(c, s, a).Some? && x in Step(c, s, a).value.workers
    requires OneWriterIn(s)
    ensures var s' := Step(c, s, a).value; MarkedStage(s'.stored, s'.workers[x].stage)
  {
    if a.StartWrite? || a.Land? || a.FinishWrite? || a.Mark? {
      if x == a.w { OwnStageMarked(c, first, s, a); } else { OtherStageMarked(c, first, s, a, x); }
    } else {
      QuietStageMarked(c, first, s, a, x);
    }
  }

  lemma StepKeepsMarked(c: Config, first: seq<BlockRange>, s: System, a: Action)
    requires c.pipeline.UniswapForward? && Inv(c, s) && MarkedInv(c, first, s) && WriterInv(s) && Step(c, s, a).Some?
    requires OneWriterIn(s)
    ensures MarkedInv(c, first, Step(c, s, a).value)
  {
    var s' := Step(c, s, a).value;
    forall r ensures IsMarked(s'.stored, r) ==> IsWhole(s'.stored, r) {
      StepKeepsMarkedWhole(c, first, s, a, r);
    }
    forall x | x in s'.workers ensures MarkedStage(s'.stored, s'.workers[x].stage) {
      StepKeepsMarkedStage(c, first, s, a, x);
    }
    forall b | Covered(CoverageOf(c, s'), b) && !Covered(first, b) ensures MarkedAround(s'.stored, b) {
      RecordedStaysMarked(c, first, s, a, b);
    }
  }

  lemma RecordedStaysMarked(c: Config, first: seq<BlockRange>, s: System, a: Action, b: int)
    requires c.pipeline.UniswapForward? && Inv(c, s) && MarkedInv(c, first, s) && Step(c, s, a).Some?
    requires Covered(CoverageOf(c, Step(c, s, a).value), b) && !Covered(first, b)
    ensures MarkedAround(Step(c, s, a).value.stored, b)
  {
    StepCovers(c, s, a, b);
    var r: BlockRange;
    if Covered(CoverageOf(c, s), b) {
      r :| r.Contains(b) && IsMarked(s.stored, r);
    } else {
      assert a.w in s.workers;
      r := WorkerOf(s, a.w).stage.job.interval;
    }
    MarkedIsKept(c, first, s, a, r);
    assert IsMarked(Step(c, s, a).value.stored, r);
  }

  lemma {:induction false} RunKeepsMarked(c: Config, states: seq<System>, actions: seq<Action>, n: nat)
    requires IsRun(c, states, actions) && n < |states| && c.pipeline.UniswapForward?
    requires StoreInit(c, states[0].stored) && OneWriter(states)
    ensures MarkedInv(c, CoverageOf(c, states[0]), states[n])
  {
    if n > 0 {
      RunKeepsMarked(c, states, actions, n - 1);
      RunKeepsInv(c, states, actions, n - 1);
      RunKeepsWriters(c, states, actions, n - 1);
      assert StepAt(c, states, actions, n - 1);
      StepKeepsMarked(c, CoverageOf(c, states[0]), states[n - 1], actions[n - 1]);
    }
  }

  /**
   With one writer of an interval at a time, every block a Uniswap run recorded since the
   start is stored in every reachable state, however often its interval is run again.
   */
  lemma MarkedBatchesKeepRecords(c: Config, states: seq<System>, actions: seq<Action>, n: nat, b: int)
    requires IsRun(c, states, actions) && n < |states| && c.pipeline.UniswapForward?
    requires StoreInit(c, states[0].stored) && OneWriter(states) && RecordedSince(c, states, n, b)
    ensures HeldBy(states[n].stored, b) && CanonicalStore(c, states[n].stored)
  {
    RunKeepsMarked(c, states, actions, n);
    RunKeepsCanonical(c, states, actions, n);
    var r: BlockRange :| r.Contains(b) && IsMarked(states[n].stored, r);
    assert IsWhole(states[n].stored, r);
  }

  /** A marked batch is the same in all later states. */
  lemma {:induction false} MarkedForever(c: Config, states: seq<System>, actions: seq<Action>, m: nat, n: nat, r: BlockRange)
    requires IsRun(c, states, actions) && m <= n < |states| && c.pipeline.UniswapForward?
    requires StoreInit(c, states[0].stored) && OneWriter(states) && IsMarked(states[m].stored, r)
    ensures r in states[n].stored && states[n].stored[r] == states[m].stored[r] && IsWhole(states[n].stored, r)
    decreases n
  {
    RunKeepsMarked(c, states, actions, m);
    if m < n {
      MarkedForever(c, states, actions, m, n - 1, r);
      RunKeepsMarked(c, states, actions, n - 1);
      assert StepAt(c, states, actions, n - 1);
      MarkedIsKept(c, CoverageOf(c, states[0]), states[n - 1], actions[n - 1], r);
    }
  }

  // ----- The captures are canonical -----

  /** The canonical events of the interval, under some lookups of block times. */
  ghost predicate AaveCanonical(d: Decoder, chain: int -> seq<Log>, r: BlockRange, es: seq<Event>) {
    exists own :: Timestamps.SameChain(own, chain) && IsCanonical(es, AaveCapture.Reference(d, own, r.start, r.end).events)
  }

  /** Whatever the chunk loop returns for the planned interval can be captured. */
  lemma AaveCaptureSteps(c: Config, s: System, w: nat, d: Decoder, chain: int -> seq<Log>, own: int -> seq<Log>, capture: AaveCapture.Capture)
    requires forall r, es :: AaveCanonical(d, chain, r, es) ==> c.canonical(r, es)
    requires WorkerOf(s, w).stage.Planned? && Timestamps.SameChain(own, chain)
    requires var i := WorkerOf(s, w).stage.job.interval; AaveCapture.Captured(d, own, i.start, i.end + 1, capture)
    ensures Step(c, s, Capture(w, capture.leaves, capture.events)).Some?
  {
    var i := WorkerOf(s, w).stage.job.interval;
    assert AaveCanonical(d, chain, i, capture.events);
  }

  ghost predicate SameProvider(a: UniswapCapture.Provider, p: UniswapCapture.Provider) {
    forall g: UniswapCapture.QueryGroup :: Timestamps.SameChain(a(g), p(g))
  }

  ghost predicate UniswapCanonical(d: Decoder, p: UniswapCapture.Provider, groups: seq<UniswapCapture.QueryGroup>, r: BlockRange, es: seq<Event>) {
    exists own, raw, issues :: SameProvider(own, p)
      && UniswapCapture.DecodedBlocks(StepOf(d), own, groups, r.start, r.end, raw, issues) && IsCanonical(es, raw)
  }

  lemma UniswapCaptureSteps(c: Config, s: System, w: nat, d: Decoder, p: UniswapCapture.Provider, own: UniswapCapture.Provider,
                            groups: seq<UniswapCapture.QueryGroup>, raw: seq<Event>, capture: UniswapCapture.GroupCapture)
    requires forall r, es :: UniswapCanonical(d, p, groups, r, es) ==> c.canonical(r, es)
    requires WorkerOf(s, w).stage.Planned? && SameProvider(own, p)
    requires var i := WorkerOf(s, w).stage.job.interval; UniswapCapture.CapturedGroups(d, own, groups, i.start, i.end + 1, raw, capture)
    ensures Step(c, s, Capture(w, capture.leaves, capture.events)).Some?
  {
    var i := WorkerOf(s, w).stage.job.interval;
    assert UniswapCanonical(d, p, groups, i, capture.events);
  }
}
