/** The resumable historical Chainlink job. */
module HistoricalRounds {
  // The resumable historical Chainlink job: a bounded slice of rounds is fetched in batches,
  // checkpoints never pass a round worth retrying, and observations, state and issues are
  // written in that order (backfill/chainlink.py, backfill/run_chainlink.py). An observation
  // is identified by its feed and proxy round id.

  import opened Wrappers
  import opened ChainlinkRounds

  type Key = (string, int)
  type RoundKey = ObservationId

  /** The compared fields of an observation, `answer` standing for its decimals too, and its provenance, which is not compared. */
  datatype Observation = Observation(answer: int, updatedAt: int, provenance: int)

  predicate SameData(a: Observation, b: Observation) { a.answer == b.answer && a.updatedAt == b.updatedAt }

  datatype Outcome = Read(observation: Observation) | Rejected(retryable: bool)

  datatype Target = Target(range: RoundRange, round: int)

  datatype JobError = BadLimits | WindowChanged | DuplicateRanges | RangeChanged | Conflict

  /** The batch call made at a target offset: one observation per id, or an error that may be worth retrying. */
  type BatchReader = (nat, string, seq<int>) -> Result<seq<Observation>, bool>

  function KeyOf(r: RoundRange): Key { (r.feed, r.phase) }

  function IdOf(t: Target): RoundKey { (t.range.feed, t.round) }

  function Max(a: int, b: int): int { if a > b then a else b }

  // ----- Targets: a slice of every range, within one request budget -----

  function StartOf(r: RoundRange, next: map<Key, int>): int {
    Max(r.start, if KeyOf(r) in next then next[KeyOf(r)] else r.start)
  }

  /** How many rounds of a range fit the remaining budget. */
  function SliceSize(r: RoundRange, next: map<Key, int>, left: int): nat {
    Max(0, Min(left, r.end - StartOf(r, next) + 1))
  }

  function Slice(r: RoundRange, first: int, n: nat): (ts: seq<Target>)
    ensures |ts| == n && forall i :: 0 <= i < n ==> ts[i] == Target(r, first + i)
  {
    seq(n, i => Target(r, first + i))
  }

  function TargetsOf(ranges: seq<RoundRange>, next: map<Key, int>, budget: nat): (ts: seq<Target>)
    ensures |ts| <= budget
  {
    if ranges == [] then []
    else
      var before, r := TargetsOf(ranges[..|ranges| - 1], next, budget), ranges[|ranges| - 1];
      before + Slice(r, StartOf(r, next), SliceSize(r, next, budget - |before|))
  }

  lemma {:induction false} FullBudgetTakesNoMore(ranges: seq<RoundRange>, next: map<Key, int>, budget: nat, i: nat)
    requires i <= |ranges| && |TargetsOf(ranges[..i], next, budget)| == budget
    ensures TargetsOf(ranges, next, budget) == TargetsOf(ranges[..i], next, budget)
    decreases |ranges|
  {
    if i == |ranges| {
      assert ranges[..i] == ranges;
    } else {
      var front := ranges[..|ranges| - 1];
      assert front[..i] == ranges[..i];
      FullBudgetTakesNoMore(front, next, budget, i);
    }
  }

  /** The inner loop: one range's rounds while the budget lasts. */
  method AppendSlice(before: seq<Target>, r: RoundRange, next: map<Key, int>, budget: nat) returns (targets: seq<Target>)
    requires |before| <= budget
    ensures targets == before + Slice(r, StartOf(r, next), SliceSize(r, next, budget - |before|))
  {
    targets := before;
    var current := StartOf(r, next);
    ghost var first := current;
    while current <= r.end && |targets| < budget
      invariant first <= current <= Max(first, r.end + 1)
      invariant targets == before + Slice(r, first, current - first)
      invariant |targets| <= budget
    {
      targets := targets + [Target(r, current)];
      current := current + 1;
    }
  }

  lemma {:induction false} TargetsStep(ranges: seq<RoundRange>, next: map<Key, int>, budget: nat, i: nat)
    requires i < |ranges|
    ensures var before := TargetsOf(ranges[..i], next, budget);
      TargetsOf(ranges[..i + 1], next, budget)
      == before + Slice(ranges[i], StartOf(ranges[i], next), SliceSize(ranges[i], next, budget - |before|))
  {
    assert ranges[..i + 1][..i] == ranges[..i];
  }

  /** From `at` on, `n` targets are rounds of `r` from `first` on. */
  ghost predicate IsSlice(targets: seq<Target>, at: int, n: int, r: RoundRange, first: int) {
    0 <= at <= at + n <= |targets| && forall k :: at <= k < at + n ==> targets[k] == Target(r, first + k - at)
  }

  /** A range goes on from its recorded resume point, or from its start. */
  ghost function FirstOpen(r: RoundRange, next: map<Key, int>): int {
    if (r.feed, r.phase) in next && next[(r.feed, r.phase)] > r.start then next[(r.feed, r.phase)] else r.start
  }

  /** How many rounds of a range are left from its resume point to its end. */
  ghost function RoundsLeft(r: RoundRange, next: map<Key, int>): nat {
    if FirstOpen(r, next) <= r.end then r.end + 1 - FirstOpen(r, next) else 0
  }

  /** `n` rounds: all that are left, or as many as the budget still allows after `used` targets. */
  ghost predicate FillsBudget(r: RoundRange, next: map<Key, int>, budget: int, used: int, n: int) {
    used <= budget && n == if RoundsLeft(r, next) < budget - used then RoundsLeft(r, next) else budget - used
  }

  /** A range with `used` targets before it takes `n`: from its resume point on, while range and budget last. */
  ghost predicate TakesSlice(targets: seq<Target>, r: RoundRange, next: map<Key, int>, budget: int, used: int, n: int) {
    FillsBudget(r, next, budget, used, n) && IsSlice(targets, used, n, r, FirstOpen(r, next))
  }

  ghost predicate SlicedAt(ranges: seq<RoundRange>, next: map<Key, int>, budget: int, targets: seq<Target>, cuts: seq<int>, i: nat) {
    i < |ranges| && |cuts| == |ranges| + 1 && TakesSlice(targets, ranges[i], next, budget, cuts[i], cuts[i + 1] - cuts[i])
  }

  /** `cuts` says where each range's slice begins and the last one ends. */
  ghost predicate Sliced(ranges: seq<RoundRange>, next: map<Key, int>, budget: int, targets: seq<Target>, cuts: seq<int>) {
    && |cuts| == |ranges| + 1 && cuts[0] == 0 && cuts[|ranges|] == |targets|
    && forall i :: 0 <= i < |ranges| ==> SlicedAt(ranges, next, budget, targets, cuts, i)
  }

  /** Where the slices of the ranges end. */
  function CutsOf(ranges: seq<RoundRange>, next: map<Key, int>, budget: nat): (cuts: seq<int>)
    ensures |cuts| == |ranges| + 1
    ensures forall i :: 0 <= i <= |ranges| ==> cuts[i] == |TargetsOf(ranges[..i], next, budget)|
  {
    seq(|ranges| + 1, i requires 0 <= i <= |ranges| => |TargetsOf(ranges[..i], next, budget)|)
  }

  lemma {:induction false} TargetsPrefix(ranges: seq<RoundRange>, next: map<Key, int>, budget: nat, i: nat)
    requires i <= |ranges|
    ensures TargetsOf(ranges[..i], next, budget) <= TargetsOf(ranges, next, budget)
    decreases |ranges|
  {
    if i == |ranges| {
      assert ranges[..i] == ranges;
    } else {
      var front := ranges[..|ranges| - 1];
      assert front[..i] == ranges[..i];
      TargetsPrefix(front, next, budget, i);
    }
  }

  lemma {:induction false} SliceOfRange(ranges: seq<RoundRange>, next: map<Key, int>, budget: nat, i: nat, before: seq<Target>, upTo: seq<Target>)
    requires i < |ranges| && before == TargetsOf(ranges[..i], next, budget) && upTo == TargetsOf(ranges[..i + 1], next, budget)
    ensures TakesSlice(TargetsOf(ranges, next, budget), ranges[i], next, budget, |before|, |upTo| - |before|)
  {
    TargetsStep(ranges, next, budget, i);
    TargetsPrefix(ranges, next, budget, i + 1);
    SliceIsTaken(before, TargetsOf(ranges, next, budget), ranges[i], next, budget);
  }

  lemma PrefixIsSliced(before: seq<Target>, all: seq<Target>, r: RoundRange, first: int, n: nat)
    requires before + Slice(r, first, n) <= all
    ensures IsSlice(all, |before|, n, r, first)
  {
    forall k | |before| <= k < |before| + n ensures all[k] == Target(r, first + k - |before|) {
      assert (before + Slice(r, first, n))[k] == Slice(r, first, n)[k - |before|];
    }
  }

  lemma SliceIsTaken(before: seq<Target>, all: seq<Target>, r: RoundRange, next: map<Key, int>, budget: nat)
    requires |before| <= budget && before + Slice(r, StartOf(r, next), SliceSize(r, next, budget - |before|)) <= all
    ensures TakesSlice(all, r, next, budget, |before|, SliceSize(r, next, budget - |before|))
  {
    PrefixIsSliced(before, all, r, StartOf(r, next), SliceSize(r, next, budget - |before|));
  }

  lemma {:induction false} TargetsAreSliced(ranges: seq<RoundRange>, next: map<Key, int>, budget: nat)
    ensures Sliced(ranges, next, budget, TargetsOf(ranges, next, budget), CutsOf(ranges, next, budget))
  {
    assert ranges[..0] == [] && ranges[..|ranges|] == ranges;
    forall i | 0 <= i < |ranges| ensures SlicedAt(ranges, next, budget, TargetsOf(ranges, next, budget), CutsOf(ranges, next, budget), i) {
      SliceOfRange(ranges, next, budget, i, TargetsOf(ranges[..i], next, budget), TargetsOf(ranges[..i + 1], next, budget));
      assert CutsOf(ranges, next, budget)[i] == |TargetsOf(ranges[..i], next, budget)|;
      assert CutsOf(ranges, next, budget)[i + 1] == |TargetsOf(ranges[..i + 1], next, budget)|;
    }
  }

  method BuildTargets(ranges: seq<RoundRange>, next: map<Key, int>, budget: nat) returns (targets: seq<Target>)
    requires budget > 0
    ensures targets == TargetsOf(ranges, next, budget)
    ensures exists cuts :: Sliced(ranges, next, budget, targets, cuts)
  {
    TargetsAreSliced(ranges, next, budget);
    targets := [];
    for i := 0 to |ranges|
      invariant targets == TargetsOf(ranges[..i], next, budget)
    {
      targets := AppendSlice(targets, ranges[i], next, budget);
      TargetsStep(ranges, next, budget, i);
      if |targets| >= budget {
        FullBudgetTakesNoMore(ranges, next, budget, i + 1);
        return;
      }
    }
    assert ranges[..|ranges|] == ranges;
  }

  // ----- Batched fetching -----

  /** How many targets from the first on share its feed phase, up to the batch size. */
  function BatchLength(ts: seq<Target>, size: nat, n: nat): (r: nat)
    requires 0 < n <= |ts| && n <= size
    requires forall j :: 0 <= j < n ==> KeyOf(ts[j].range) == KeyOf(ts[0].range)
    ensures n <= r <= |ts| && r <= size
    ensures forall j :: 0 <= j < r ==> KeyOf(ts[j].range) == KeyOf(ts[0].range)
    decreases |ts| - n
  {
    if n < |ts| && n < size && KeyOf(ts[n].range) == KeyOf(ts[0].range) then BatchLength(ts, size, n + 1) else n
  }

  function TargetRounds(ts: seq<Target>): (ids: seq<int>)
    ensures |ids| == |ts| && forall i :: 0 <= i < |ts| ==> ids[i] == ts[i].round
  {
    seq(|ts|, i requires 0 <= i < |ts| => ts[i].round)
  }

  /** The client refuses an answer of the wrong length as an error not worth retrying. */
  function OutcomeAt(answer: Result<seq<Observation>, bool>, n: nat, i: nat): Outcome
    requires i < n
  {
    if answer.Failure? then Rejected(answer.error)
    else if |answer.value| == n then Read(answer.value[i])
    else Rejected(false)
  }

  /** A batch either answers every round in order or rejects all of them alike. */
  function BatchOutcomes(offset: nat, ts: seq<Target>, reader: BatchReader): (out: seq<Outcome>)
    requires ts != []
    ensures |out| == |ts|
  {
    var answer := reader(offset, ts[0].range.feed, TargetRounds(ts));
    seq(|ts|, i requires 0 <= i < |ts| => OutcomeAt(answer, |ts|, i))
  }

  function OutcomesFrom(targets: seq<Target>, offset: nat, size: nat, reader: BatchReader): (out: seq<Outcome>)
    requires size > 0 && offset <= |targets|
    ensures |out| == |targets| - offset
    decreases |targets| - offset
  {
    if offset == |targets| then []
    else
      var n := BatchLength(targets[offset..], size, 1);
      BatchOutcomes(offset, targets[offset..offset + n], reader) + OutcomesFrom(targets, offset + n, size, reader)
  }

  method CollectBatch(targets: seq<Target>, begin: nat, size: nat) returns (offset: nat, batch: seq<Target>)
    requires begin < |targets| && size > 0
    ensures offset == begin + BatchLength(targets[begin..], size, 1) && batch == targets[begin..offset]
  {
    var first := targets[begin].range;
    offset, batch := begin + 1, [targets[begin]];
    ghost var rest := targets[begin..];
    while offset < |targets| && |batch| < size && KeyOf(targets[offset].range) == KeyOf(first)
      invariant begin < offset <= |targets| && batch == targets[begin..offset] && |batch| <= size
      invariant forall j :: 0 <= j < offset - begin ==> KeyOf(rest[j].range) == KeyOf(rest[0].range)
      invariant BatchLength(rest, size, 1) == BatchLength(rest, size, offset - begin)
    {
      batch := batch + [targets[offset]];
      offset := offset + 1;
    }
  }

  lemma {:induction false} OutcomesStep(targets: seq<Target>, begin: nat, size: nat, reader: BatchReader, offset: nat)
    requires begin < |targets| && size > 0 && offset == begin + BatchLength(targets[begin..], size, 1)
    ensures OutcomesFrom(targets, begin, size, reader)
         == BatchOutcomes(begin, targets[begin..offset], reader) + OutcomesFrom(targets, offset, size, reader)
  {
    var n := BatchLength(targets[begin..], size, 1);
    assert begin + n == offset;
  }

  method FetchTargets(targets: seq<Target>, size: nat, reader: BatchReader) returns (collected: seq<Outcome>)
    requires size > 0
    ensures collected == OutcomesFrom(targets, 0, size, reader)
  {
    collected := [];
    var offset := 0;
    while offset < |targets|
      invariant 0 <= offset <= |targets|
      invariant collected + OutcomesFrom(targets, offset, size, reader) == OutcomesFrom(targets, 0, size, reader)
    {
      var begin := offset;
      var batch;
      offset, batch := CollectBatch(targets, begin, size);
      OutcomesStep(targets, begin, size, reader, offset);
      collected := collected + BatchOutcomes(begin, batch, reader);
    }
  }

  /** Targets `begin` to `end` form one batch: one feed phase, at most `size` rounds. */
  predicate IsBatch(targets: seq<Target>, size: nat, begin: nat, end: nat) {
    && begin < end <= |targets| && end - begin <= size
    && forall j :: begin <= j < end ==> KeyOf(targets[j].range) == KeyOf(targets[begin].range)
  }

  lemma {:induction false} FirstBatch(targets: seq<Target>, begin: nat, size: nat, end: nat)
    requires begin < |targets| && size > 0 && end == begin + BatchLength(targets[begin..], size, 1)
    ensures IsBatch(targets, size, begin, end)
  {
    var rest := targets[begin..];
    forall j | begin <= j < end ensures KeyOf(targets[j].range) == KeyOf(targets[begin].range) {
      assert rest[j - begin] == targets[j] && rest[0] == targets[begin];
    }
  }

  /** The answer of a batch gives its `i`-th target this outcome. */
  ghost predicate Answers(answer: Result<seq<Observation>, bool>, size: nat, i: nat, outcome: Outcome) {
    match answer
    case Failure(retryable) => outcome == Rejected(retryable)
    case Success(observations) =>
      if |observations| != size then outcome == Rejected(false) else i < size && outcome == Read(observations[i])
  }

  /** What the batch of targets `begin` to `end` was answered. */
  function AnswerOf(targets: seq<Target>, begin: nat, end: nat, reader: BatchReader): Result<seq<Observation>, bool>
    requires begin < end <= |targets|
  {
    reader(begin, targets[begin].range.feed, TargetRounds(targets[begin..end]))
  }

  /** Every target gets its own round's answer from the one batch that asked for it. */
  lemma {:induction false} OutcomeAnswersTarget(targets: seq<Target>, offset: nat, size: nat, reader: BatchReader, i: nat)
    returns (begin: nat, end: nat)
    requires size > 0 && offset <= i < |targets|
    ensures offset <= begin <= i < end && IsBatch(targets, size, begin, end)
    ensures Answers(AnswerOf(targets, begin, end, reader), end - begin, i - begin, OutcomesFrom(targets, offset, size, reader)[i - offset])
    decreases |targets| - offset
  {
    var next := offset + BatchLength(targets[offset..], size, 1);
    FirstBatch(targets, offset, size, next);
    OutcomesStep(targets, offset, size, reader, next);
    var first, rest := BatchOutcomes(offset, targets[offset..next], reader), OutcomesFrom(targets, next, size, reader);
    if i < next {
      begin, end := offset, next;
      assert (first + rest)[i - offset] == first[i - offset];
    } else {
      begin, end := OutcomeAnswersTarget(targets, next, size, reader, i);
      assert (first + rest)[i - offset] == rest[i - next];
    }
  }

  // ----- Checkpoints -----

  function AttemptedFor(targets: seq<Target>, key: Key): seq<int> {
    if targets == [] then []
    else
      var before, t := AttemptedFor(targets[..|targets| - 1], key), targets[|targets| - 1];
      if KeyOf(t.range) == key then before + [t.round] else before
  }

  predicate WorthRetrying(t: Target, o: Outcome, existing: set<RoundKey>) {
    o == Rejected(true) && IdOf(t) !in existing
  }

  function RetryableFor(targets: seq<Target>, outcomes: seq<Outcome>, existing: set<RoundKey>, key: Key): seq<int>
    requires |targets| == |outcomes|
  {
    if targets == [] then []
    else
      var n := |targets| - 1;
      var before := RetryableFor(targets[..n], outcomes[..n], existing, key);
      if KeyOf(targets[n].range) == key && WorthRetrying(targets[n], outcomes[n], existing)
      then before + [targets[n].round] else before
  }

  function Least(s: seq<int>): (m: int)
    requires s != []
    ensures m in s && forall i :: 0 <= i < |s| ==> m <= s[i]
  {
    if |s| == 1 then s[0] else Min(Least(s[..|s| - 1]), s[|s| - 1])
  }

  function Greatest(s: seq<int>): (m: int)
    requires s != []
    ensures m in s && forall i :: 0 <= i < |s| ==> s[i] <= m
  {
    if |s| == 1 then s[0] else Max(Greatest(s[..|s| - 1]), s[|s| - 1])
  }

  /** The checkpoint of an attempted feed phase. */
  function CheckpointOf(attempted: seq<int>, retryable: seq<int>): int
    requires attempted != []
  {
    if retryable != [] then Least(retryable) else Greatest(attempted) + 1
  }

  function AttemptedKeys(targets: seq<Target>): set<Key> {
    set i | 0 <= i < |targets| :: KeyOf(targets[i].range)
  }

  lemma {:induction false} AttemptedWhenListed(targets: seq<Target>, key: Key)
    ensures key in AttemptedKeys(targets) <==> AttemptedFor(targets, key) != []
  {
    if targets != [] {
      var n := |targets| - 1;
      AttemptedWhenListed(targets[..n], key);
      if key in AttemptedKeys(targets[..n]) {
        var i :| 0 <= i < n && KeyOf(targets[..n][i].range) == key;
        assert KeyOf(targets[i].range) == key;
      }
    }
  }

  /** The checkpoint of a feed phase after the slice, when it has one. */
  function NextOf(targets: seq<Target>, outcomes: seq<Outcome>, existing: set<RoundKey>, next: map<Key, int>, key: Key): Option<int>
    requires |targets| == |outcomes|
  {
    var attempted := AttemptedFor(targets, key);
    if attempted != [] then Some(CheckpointOf(attempted, RetryableFor(targets, outcomes, existing, key)))
    else if key in next then Some(next[key]) else None
  }

  function Listed(m: map<Key, seq<int>>, key: Key): seq<int> {
    if key in m then m[key] else []
  }

  /** The two grouping dictionaries of the source. */
  method GroupByRange(targets: seq<Target>, outcomes: seq<Outcome>, existing: set<RoundKey>)
    returns (attempted: map<Key, seq<int>>, retryable: map<Key, seq<int>>)
    requires |targets| == |outcomes|
    ensures forall key :: Listed(attempted, key) == AttemptedFor(targets, key)
    ensures forall key :: Listed(retryable, key) == RetryableFor(targets, outcomes, existing, key)
    ensures forall key :: key in attempted ==> attempted[key] != []
  {
    attempted, retryable := map[], map[];
    for i := 0 to |targets|
      invariant forall key :: Listed(attempted, key) == AttemptedFor(targets[..i], key)
      invariant forall key :: Listed(retryable, key) == RetryableFor(targets[..i], outcomes[..i], existing, key)
      invariant forall key :: key in attempted ==> attempted[key] != []
    {
      var key := KeyOf(targets[i].range);
      assert targets[..i + 1][..i] == targets[..i] && outcomes[..i + 1][..i] == outcomes[..i];
      attempted := attempted[key := Listed(attempted, key) + [targets[i].round]];
      if WorthRetrying(targets[i], outcomes[i], existing) {
        retryable := retryable[key := Listed(retryable, key) + [targets[i].round]];
      }
    }
    assert targets[..|targets|] == targets && outcomes[..|outcomes|] == outcomes;
  }

  ghost predicate AttemptedAt(targets: seq<Target>, key: Key, k: nat) {
    k < |targets| && targets[k].range.feed == key.0 && targets[k].range.phase == key.1
  }

  /** Target `k` of the phase failed in a way that is worth retrying, and its round was not stored before. */
  ghost predicate RetryAt(targets: seq<Target>, outcomes: seq<Outcome>, existing: set<RoundKey>, key: Key, k: nat) {
    AttemptedAt(targets, key, k) && k < |outcomes| && outcomes[k] == Rejected(true) && (targets[k].range.feed, targets[k].round) !in existing
  }

  /**
   The checkpoint of a phase: the least attempted round worth retrying, or one past the
   greatest attempted round, or what it was when nothing of the phase was attempted.
   */
  ghost predicate CheckpointIs(targets: seq<Target>, outcomes: seq<Outcome>, existing: set<RoundKey>, next: map<Key, int>, key: Key, at: Option<int>) {
    if exists k: nat :: RetryAt(targets, outcomes, existing, key, k) then
      && at.Some? && (exists k: nat :: RetryAt(targets, outcomes, existing, key, k) && targets[k].round == at.value)
      && forall k: nat :: RetryAt(targets, outcomes, existing, key, k) ==> at.value <= targets[k].round
    else if exists k: nat :: AttemptedAt(targets, key, k) then
      && at.Some? && (exists k: nat :: AttemptedAt(targets, key, k) && targets[k].round + 1 == at.value)
      && forall k: nat :: AttemptedAt(targets, key, k) ==> targets[k].round < at.value
    else at == if key in next then Some(next[key]) else None
  }

  lemma {:induction false} LeastRetryIsCheckpoint(targets: seq<Target>, outcomes: seq<Outcome>, existing: set<RoundKey>, key: Key, retryable: seq<int>)
    requires |targets| == |outcomes| && retryable == RetryableFor(targets, outcomes, existing, key)
    ensures retryable != [] <==> exists k: nat :: RetryAt(targets, outcomes, existing, key, k)
    ensures retryable != [] ==> exists k: nat :: RetryAt(targets, outcomes, existing, key, k) && targets[k].round == Least(retryable)
    ensures forall k: nat :: RetryAt(targets, outcomes, existing, key, k) ==> retryable != [] && Least(retryable) <= targets[k].round
  {
    if retryable != [] {
      var i := RetryableAreTargets(targets, outcomes, existing, key, Least(retryable));
      assert RetryAt(targets, outcomes, existing, key, i);
    }
    forall k: nat | RetryAt(targets, outcomes, existing, key, k) ensures targets[k].round in retryable {
      RetryableMembers(targets, outcomes, existing, key, k);
    }
  }

  lemma {:induction false} GreatestAttemptIsCheckpoint(targets: seq<Target>, key: Key, attempted: seq<int>)
    requires attempted == AttemptedFor(targets, key)
    ensures attempted != [] <==> exists k: nat :: AttemptedAt(targets, key, k)
    ensures attempted != [] ==> exists k: nat :: AttemptedAt(targets, key, k) && targets[k].round == Greatest(attempted)
    ensures forall k: nat :: AttemptedAt(targets, key, k) ==> attempted != [] && targets[k].round <= Greatest(attempted)
  {
    if attempted != [] {
      AttemptedMembers(targets, key, Greatest(attempted));
      var i: nat :| i < |targets| && KeyOf(targets[i].range) == key && targets[i].round == Greatest(attempted);
      assert AttemptedAt(targets, key, i);
    }
    forall k: nat | AttemptedAt(targets, key, k) ensures targets[k].round in attempted {
      AttemptedMembers(targets, key, targets[k].round);
    }
  }

  lemma NextOfIsCheckpoint(targets: seq<Target>, outcomes: seq<Outcome>, existing: set<RoundKey>, next: map<Key, int>, key: Key)
    requires |targets| == |outcomes|
    ensures CheckpointIs(targets, outcomes, existing, next, key, NextOf(targets, outcomes, existing, next, key))
  {
    LeastRetryIsCheckpoint(targets, outcomes, existing, key, RetryableFor(targets, outcomes, existing, key));
    GreatestAttemptIsCheckpoint(targets, key, AttemptedFor(targets, key));
  }

  method AdvanceCheckpoints(targets: seq<Target>, outcomes: seq<Outcome>, existing: set<RoundKey>, next: map<Key, int>)
    returns (checkpoints: map<Key, int>)
    requires |targets| == |outcomes|
    ensures forall key :: (if key in checkpoints then Some(checkpoints[key]) else None) == NextOf(targets, outcomes, existing, next, key)
    ensures forall key :: CheckpointIs(targets, outcomes, existing, next, key, if key in checkpoints then Some(checkpoints[key]) else None)
  {
    forall key ensures CheckpointIs(targets, outcomes, existing, next, key, NextOf(targets, outcomes, existing, next, key)) {
      NextOfIsCheckpoint(targets, outcomes, existing, next, key);
    }
    var attempted, retryable := GroupByRange(targets, outcomes, existing);
    checkpoints := next;
    var remaining := attempted.Keys;
    while remaining != {}
      invariant remaining <= attempted.Keys
      invariant checkpoints.Keys == next.Keys + (attempted.Keys - remaining)
      invariant forall key :: key in attempted.Keys - remaining ==> checkpoints[key] == CheckpointOf(attempted[key], Listed(retryable, key))
      invariant forall key :: key in next && key !in attempted.Keys - remaining ==> checkpoints[key] == next[key]
      decreases |remaining|
    {
      var key :| key in remaining;
      remaining := remaining - {key};
      checkpoints := checkpoints[key := CheckpointOf(attempted[key], Listed(retryable, key))];
    }
    forall key ensures (if key in checkpoints then Some(checkpoints[key]) else None) == NextOf(targets, outcomes, existing, next, key) {
      assert Listed(attempted, key) == AttemptedFor(targets, key);
      assert Listed(retryable, key) == RetryableFor(targets, outcomes, existing, key);
    }
  }

  // ----- Canonical merge and issue bookkeeping -----

  /** Observations merged in order: the first stays, a different later one is a conflict. */
  function MergedWith(existing: map<RoundKey, Observation>, targets: seq<Target>, outcomes: seq<Outcome>): Option<map<RoundKey, Observation>>
    requires |targets| == |outcomes|
  {
    if targets == [] then Some(existing)
    else
      var n := |targets| - 1;
      match MergedWith(existing, targets[..n], outcomes[..n])
      case None => None
      case Some(m) =>
        if outcomes[n].Rejected? then Some(m)
        else if IdOf(targets[n]) !in m then Some(m[IdOf(targets[n]) := outcomes[n].observation])
        else if SameData(outcomes[n].observation, m[IdOf(targets[n])]) then Some(m) else None
  }

  method MergeObservations(existing: map<RoundKey, Observation>, targets: seq<Target>, outcomes: seq<Outcome>)
    returns (r: Option<map<RoundKey, Observation>>)
    requires |targets| == |outcomes|
    ensures r == MergedWith(existing, targets, outcomes)
  {
    var merged := existing;
    for i := 0 to |targets|
      invariant MergedWith(existing, targets[..i], outcomes[..i]) == Some(merged)
    {
      assert targets[..i + 1][..i] == targets[..i] && outcomes[..i + 1][..i] == outcomes[..i];
      if outcomes[i].Read? {
        var id, observation := IdOf(targets[i]), outcomes[i].observation;
        if id in merged {
          if !SameData(observation, merged[id]) {
            ConflictStays(existing, targets, outcomes, i + 1);
            return None;
          }
        } else {
          merged := merged[id := observation];
        }
      }
    }
    assert targets[..|targets|] == targets && outcomes[..|outcomes|] == outcomes;
    return Some(merged);
  }

  lemma {:induction false} ConflictStays(existing: map<RoundKey, Observation>, targets: seq<Target>, outcomes: seq<Outcome>, i: nat)
    requires |targets| == |outcomes| && i <= |targets|
    requires MergedWith(existing, targets[..i], outcomes[..i]).None?
    ensures MergedWith(existing, targets, outcomes).None?
    decreases |targets|
  {
    var n := |targets| - 1;
    if i == |targets| {
      assert targets[..i] == targets && outcomes[..i] == outcomes;
    } else {
      assert targets[..n][..i] == targets[..i] && outcomes[..n][..i] == outcomes[..i];
      ConflictStays(existing, targets[..n], outcomes[..n], i);
    }
  }

  /** A merge keeps every stored observation as it was and adds every round that was read. */
  lemma {:induction false} MergeKeepsAndAdds(existing: map<RoundKey, Observation>, targets: seq<Target>, outcomes: seq<Outcome>)
    requires |targets| == |outcomes| && MergedWith(existing, targets, outcomes).Some?
    ensures var m := MergedWith(existing, targets, outcomes).value;
      && (forall id :: id in existing ==> id in m && m[id] == existing[id])
      && (forall i :: 0 <= i < |targets| && outcomes[i].Read? ==>
            IdOf(targets[i]) in m && SameData(outcomes[i].observation, m[IdOf(targets[i])]))
      && (forall id :: id in m && id !in existing ==> exists i :: 0 <= i < |targets| && IdOf(targets[i]) == id && outcomes[i] == Read(m[id]))
    decreases |targets|
  {
    if targets != [] {
      var n := |targets| - 1;
      MergeKeepsAndAdds(existing, targets[..n], outcomes[..n]);
      var before, m := MergedWith(existing, targets[..n], outcomes[..n]).value, MergedWith(existing, targets, outcomes).value;
      forall id | id in m && id !in existing ensures exists i :: 0 <= i < |targets| && IdOf(targets[i]) == id && outcomes[i] == Read(m[id]) {
        if id in before {
          var i :| 0 <= i < n && IdOf(targets[..n][i]) == id && outcomes[..n][i] == Read(before[id]);
          assert IdOf(targets[i]) == id && outcomes[i] == Read(m[id]);
        } else {
          assert IdOf(targets[n]) == id && outcomes[n] == Read(m[id]);
        }
      }
    }
  }

  ghost predicate Differ(a: Observation, b: Observation) { a.answer != b.answer || a.updatedAt != b.updatedAt }

  /** What target `i` read differs from what is stored of its round or was read of it before. */
  ghost predicate ConflictsAt(existing: map<RoundKey, Observation>, targets: seq<Target>, outcomes: seq<Outcome>, i: nat) {
    && |targets| == |outcomes| && i < |targets| && outcomes[i].Read?
    && (|| (IdOf(targets[i]) in existing && Differ(outcomes[i].observation, existing[IdOf(targets[i])]))
        || exists k :: 0 <= k < i && outcomes[k].Read? && IdOf(targets[k]) == IdOf(targets[i])
                    && Differ(outcomes[k].observation, outcomes[i].observation))
  }

  lemma {:induction false} LastConflicts(existing: map<RoundKey, Observation>, targets: seq<Target>, outcomes: seq<Outcome>, n: nat)
    requires |targets| == |outcomes| == n + 1 && MergedWith(existing, targets[..n], outcomes[..n]).Some?
    ensures MergedWith(existing, targets, outcomes).None? <==> ConflictsAt(existing, targets, outcomes, n)
  {
    var id, m := IdOf(targets[n]), MergedWith(existing, targets[..n], outcomes[..n]).value;
    MergeKeepsAndAdds(existing, targets[..n], outcomes[..n]);
    if MergedWith(existing, targets, outcomes).None? && id !in existing {
      var k :| 0 <= k < n && IdOf(targets[..n][k]) == id && outcomes[..n][k] == Read(m[id]);
      assert outcomes[k].Read? && IdOf(targets[k]) == id;
    }
    if k :| 0 <= k < n && outcomes[k].Read? && IdOf(targets[k]) == id && outcomes[n].Read? && Differ(outcomes[k].observation, outcomes[n].observation) {
      assert outcomes[..n][k].Read? && IdOf(targets[..n][k]) == id;
    }
  }

  /** A merge is refused exactly when some round read differs, in answer or update time, from an earlier copy. */
  lemma {:induction false} MergeConflictsIff(existing: map<RoundKey, Observation>, targets: seq<Target>, outcomes: seq<Outcome>)
    requires |targets| == |outcomes|
    ensures MergedWith(existing, targets, outcomes).None? <==> exists i: nat :: ConflictsAt(existing, targets, outcomes, i)
    decreases |targets|
  {
    if targets != [] {
      var n := |targets| - 1;
      MergeConflictsIff(existing, targets[..n], outcomes[..n]);
      if MergedWith(existing, targets[..n], outcomes[..n]).Some? {
        LastConflicts(existing, targets, outcomes, n);
        forall i: nat | i < n ensures !ConflictsAt(existing, targets, outcomes, i) {
          SameConflictInPrefix(existing, targets, outcomes, n, i);
        }
      } else {
        var i: nat :| ConflictsAt(existing, targets[..n], outcomes[..n], i);
        SameConflictInPrefix(existing, targets, outcomes, n, i);
      }
    }
  }

  lemma SameConflictInPrefix(existing: map<RoundKey, Observation>, targets: seq<Target>, outcomes: seq<Outcome>, n: nat, i: nat)
    requires i < n <= |targets| == |outcomes|
    ensures ConflictsAt(existing, targets, outcomes, i) <==> ConflictsAt(existing, targets[..n], outcomes[..n], i)
  {
    forall k | 0 <= k < n ensures targets[..n][k] == targets[k] && outcomes[..n][k] == outcomes[k] {}
  }

  /** Prior issues overridden by this run's, before resolved rounds are dropped. */
  function IssuesWith(prior: map<RoundKey, bool>, targets: seq<Target>, outcomes: seq<Outcome>): map<RoundKey, bool>
    requires |targets| == |outcomes|
  {
    if targets == [] then prior
    else
      var n := |targets| - 1;
      var before := IssuesWith(prior, targets[..n], outcomes[..n]);
      if outcomes[n].Rejected? then before[IdOf(targets[n]) := outcomes[n].retryable] else before
  }

  method CollectIssues(prior: map<RoundKey, bool>, targets: seq<Target>, outcomes: seq<Outcome>, resolved: set<RoundKey>)
    returns (issues: map<RoundKey, bool>)
    requires |targets| == |outcomes|
    ensures issues == IssuesWith(prior, targets, outcomes) - resolved
  {
    issues := prior;
    for i := 0 to |targets|
      invariant issues == IssuesWith(prior, targets[..i], outcomes[..i])
    {
      assert targets[..i + 1][..i] == targets[..i] && outcomes[..i + 1][..i] == outcomes[..i];
      if outcomes[i].Rejected? {
        issues := issues[IdOf(targets[i]) := outcomes[i].retryable];
      }
    }
    assert targets[..|targets|] == targets && outcomes[..|outcomes|] == outcomes;
    issues := issues - resolved;
  }

  // ----- The job -----

  datatype FeedState = FeedState(start: int, end: int, next: int, fromBlock: int, toBlock: int)

  datatype Store = Store(observations: map<RoundKey, Observation>, states: map<Key, FeedState>, issues: map<RoundKey, bool>)

  datatype Job = Job(ranges: seq<RoundRange>, fromBlock: int, toBlock: int, budget: int, batchSize: int, overlap: int, reader: BatchReader)

  /** Where the process stops: it may die between any two of the three writes. */
  datatype Crash = NoCrash | BeforeWrites | AfterObservations | AfterState

  predicate LimitsOk(job: Job) {
    0 <= job.fromBlock <= job.toBlock && job.budget > 0 && job.batchSize > 0 && job.overlap >= 0
  }

  predicate DistinctKeys(ranges: seq<RoundRange>) {
    forall i, j :: 0 <= i < j < |ranges| ==> KeyOf(ranges[i]) != KeyOf(ranges[j])
  }

  predicate WindowKept(states: map<Key, FeedState>, job: Job) {
    forall key :: key in states ==> states[key].fromBlock == job.fromBlock && states[key].toBlock <= job.toBlock
  }

  predicate ContinuedBy(key: Key, st: FeedState, r: RoundRange) {
    KeyOf(r) == key && r.start == st.start && st.end <= r.end
  }

  /** Every recorded phase is still discovered, from the same start and not shorter. */
  predicate Continues(states: map<Key, FeedState>, ranges: seq<RoundRange>) {
    forall key :: key in states ==> exists i :: 0 <= i < |ranges| && ContinuedBy(key, states[key], ranges[i])
  }

  /** The limits are positive, the window starts where it did and is not shorter, and no known phase changed or vanished. */
  ghost predicate Continuable(s: Store, job: Job) {
    && 0 <= job.fromBlock <= job.toBlock && job.budget >= 1 && job.batchSize >= 1 && job.overlap >= 0
    && (forall i, j :: 0 <= i < j < |job.ranges| ==> job.ranges[i].feed != job.ranges[j].feed || job.ranges[i].phase != job.ranges[j].phase)
    && (forall key :: key in s.states ==> s.states[key].fromBlock == job.fromBlock && !(job.toBlock < s.states[key].toBlock))
    && forall key :: key in s.states ==> Rediscovered(s.states[key], key, job.ranges)
  }

  ghost predicate Rediscovered(st: FeedState, key: Key, ranges: seq<RoundRange>) {
    exists i :: 0 <= i < |ranges| && ranges[i].feed == key.0 && ranges[i].phase == key.1 && ranges[i].start == st.start && ranges[i].end >= st.end
  }

  lemma AcceptedIff(s: Store, job: Job)
    ensures Accepted(s, job) <==> Continuable(s, job)
  {
    forall key | key in s.states
      ensures (exists i :: 0 <= i < |job.ranges| && ContinuedBy(key, s.states[key], job.ranges[i])) <==> Rediscovered(s.states[key], key, job.ranges)
    {
      if i :| 0 <= i < |job.ranges| && ContinuedBy(key, s.states[key], job.ranges[i]) { assert job.ranges[i].feed == key.0; }
      if i :| 0 <= i < |job.ranges| && job.ranges[i].feed == key.0 && job.ranges[i].phase == key.1
              && job.ranges[i].start == s.states[key].start && job.ranges[i].end >= s.states[key].end {
        assert ContinuedBy(key, s.states[key], job.ranges[i]);
      }
    }
    if DistinctKeys(job.ranges) {
      forall i, j | 0 <= i < j < |job.ranges| ensures job.ranges[i].feed != job.ranges[j].feed || job.ranges[i].phase != job.ranges[j].phase {
        assert KeyOf(job.ranges[i]) != KeyOf(job.ranges[j]);
      }
    }
  }

  predicate Accepted(s: Store, job: Job) {
    LimitsOk(job) && WindowKept(s.states, job) && DistinctKeys(job.ranges) && Continues(s.states, job.ranges)
  }

  predicate RetryOf(issues: map<RoundKey, bool>, key: Key, id: RoundKey) {
    id in issues && issues[id] && (id.0, id.1 / PHASE) == key
  }

  ghost function Lower(a: int, b: int): int { if a <= b then a else b }

  /** The earliest of `next` less the overlap and of the rounds still to retry. */
  ghost predicate ResumesAt(st: FeedState, issues: map<RoundKey, bool>, key: Key, overlap: int, at: int) {
    exists least :: LeastRetry(issues, key, st.next, least)
      && at >= st.start && at >= Lower(st.next - overlap, least) && (at == st.start || at == Lower(st.next - overlap, least))
  }

  /** The least round of `key` to retry, or `next` when there is none. */
  ghost predicate LeastRetry(issues: map<RoundKey, bool>, key: Key, next: int, least: int) {
    if exists id :: RetryOf(issues, key, id)
    then (exists id :: RetryOf(issues, key, id) && id.1 == least) && forall id :: RetryOf(issues, key, id) ==> least <= id.1
    else least == next
  }

  method LeastRetryable(issues: map<RoundKey, bool>, key: Key, next: int) returns (least: int)
    ensures LeastRetry(issues, key, next, least)
  {
    var remaining, found := issues.Keys, false;
    least := next;
    while remaining != {}
      invariant remaining <= issues.Keys
      invariant found <==> exists id :: RetryOf(issues, key, id) && id !in remaining
      invariant found ==> exists id :: RetryOf(issues, key, id) && id.1 == least
      invariant found ==> forall id :: RetryOf(issues, key, id) && id !in remaining ==> least <= id.1
      invariant !found ==> least == next
      decreases |remaining|
    {
      var id :| id in remaining;
      remaining := remaining - {id};
      if issues[id] && (id.0, id.1 / PHASE) == key {
        assert RetryOf(issues, key, id);
        if !found || id.1 < least { least := id.1; }
        found := true;
      }
    }
  }

  ghost predicate ResumePoints(s: Store, overlap: int, next: map<Key, int>) {
    next.Keys == s.states.Keys
    && forall key :: key in s.states ==> ResumesAt(s.states[key], s.issues, key, overlap, next[key])
  }

  method ResumeNext(s: Store, overlap: int) returns (next: map<Key, int>)
    ensures ResumePoints(s, overlap, next)
  {
    next := map[];
    var remaining := s.states.Keys;
    while remaining != {}
      invariant remaining <= s.states.Keys && next.Keys == s.states.Keys - remaining
      invariant forall key :: key in next ==> ResumesAt(s.states[key], s.issues, key, overlap, next[key])
      decreases |remaining|
    {
      var key :| key in remaining;
      remaining := remaining - {key};
      var st := s.states[key];
      var least := LeastRetryable(s.issues, key, st.next);
      next := next[key := Max(st.start, Min(st.next - overlap, least))];
    }
  }

  /** The slice one run fetched: its targets, their outcomes and the resume points they came from. */
  datatype Fetched = Fetched(targets: seq<Target>, outcomes: seq<Outcome>, resume: map<Key, int>)

  ghost predicate FetchedBy(s: Store, job: Job, f: Fetched) {
    && Accepted(s, job)
    && ResumePoints(s, job.overlap, f.resume)
    && f.targets == TargetsOf(job.ranges, f.resume, job.budget)
    && f.outcomes == OutcomesFrom(f.targets, 0, job.batchSize, job.reader)
  }

  function StatesAfter(job: Job, f: Fetched, existing: set<RoundKey>, ranges: seq<RoundRange>): map<Key, FeedState>
    requires |f.targets| == |f.outcomes|
  {
    if ranges == [] then map[]
    else
      var r := ranges[|ranges| - 1];
      var next := match NextOf(f.targets, f.outcomes, existing, f.resume, KeyOf(r)) case Some(v) => v case None => r.start;
      StatesAfter(job, f, existing, ranges[..|ranges| - 1])[KeyOf(r) := FeedState(r.start, r.end, next, job.fromBlock, job.toBlock)]
  }

  /** What a run leaves on disk, given where it stopped; nothing when it raised. */
  function StoreAfter(s: Store, job: Job, f: Fetched, crash: Crash): Store
    requires |f.targets| == |f.outcomes|
  {
    match MergedWith(s.observations, f.targets, f.outcomes)
    case None => s
    case Some(merged) =>
      var states := StatesAfter(job, f, s.observations.Keys, job.ranges);
      match crash
      case BeforeWrites => s
      case AfterObservations => s.(observations := merged)
      case AfterState => s.(observations := merged, states := states)
      case NoCrash => Store(merged, states, IssuesWith(s.issues, f.targets, f.outcomes) - merged.Keys)
  }

  /** One run of the job from store to store, by the slice it fetched unless it was refused. */
  ghost predicate RunsBy(s: Store, job: Job, crash: Crash, f: Fetched, s': Store) {
    if !Accepted(s, job) then s' == s else FetchedBy(s, job, f) && s' == StoreAfter(s, job, f, crash)
  }

  lemma {:induction false} StatesStep(job: Job, f: Fetched, existing: set<RoundKey>, i: nat)
    requires |f.targets| == |f.outcomes| && i < |job.ranges|
    ensures var r := job.ranges[i];
      var next := match NextOf(f.targets, f.outcomes, existing, f.resume, KeyOf(r)) case Some(v) => v case None => r.start;
      StatesAfter(job, f, existing, job.ranges[..i + 1])
      == StatesAfter(job, f, existing, job.ranges[..i])[KeyOf(r) := FeedState(r.start, r.end, next, job.fromBlock, job.toBlock)]
  {
    assert job.ranges[..i + 1][..i] == job.ranges[..i];
  }

  /** The new state of every range. */
  method BuildStates(job: Job, ghost f: Fetched, ghost existing: set<RoundKey>, checkpoints: map<Key, int>) returns (after: map<Key, FeedState>)
    requires |f.targets| == |f.outcomes|
    requires forall key :: (if key in checkpoints then Some(checkpoints[key]) else None) == NextOf(f.targets, f.outcomes, existing, f.resume, key)
    ensures after == StatesAfter(job, f, existing, job.ranges)
  {
    after := map[];
    for i := 0 to |job.ranges|
      invariant after == StatesAfter(job, f, existing, job.ranges[..i])
    {
      StatesStep(job, f, existing, i);
      var r := job.ranges[i];
      var next := if KeyOf(r) in checkpoints then checkpoints[KeyOf(r)] else r.start;
      after := after[KeyOf(r) := FeedState(r.start, r.end, next, job.fromBlock, job.toBlock)];
    }
    assert job.ranges[..|job.ranges|] == job.ranges;
  }

  class HistoricalStore {
    var observations: map<RoundKey, Observation>
    var states: map<Key, FeedState>
    var issues: map<RoundKey, bool>

    constructor ()
      ensures Value() == Store(map[], map[], map[])
    {
      observations, states, issues := map[], map[], map[];
    }

    function Value(): Store
      reads this
    {
      Store(observations, states, issues)
    }

    /** The checks made before anything is fetched. */
    method Refusal(job: Job) returns (error: Option<JobError>)
      ensures error.None? <==> Accepted(Value(), job)
      ensures error.None? <==> Continuable(Value(), job)
      ensures error.Some? ==> error.value != Conflict
    {
      AcceptedIff(Value(), job);
      if !LimitsOk(job) { return Some(BadLimits); }
      if !WindowKept(states, job) { return Some(WindowChanged); }
      if !DistinctKeys(job.ranges) { return Some(DuplicateRanges); }
      if !Continues(states, job.ranges) { return Some(RangeChanged); }
      return None;
    }

    /** `main`: validate, resume, fetch one slice, then write observations, state and issues in order. */
    method Run(job: Job, crash: Crash) returns (error: Option<JobError>, ghost f: Fetched)
      modifies this
      ensures RunsBy(old(Value()), job, crash, f, Value())
      ensures error.None? || error == Some(Conflict) <==> Continuable(old(Value()), job)
      ensures Continuable(old(Value()), job) ==> |f.targets| == |f.outcomes|
      ensures Continuable(old(Value()), job) ==>
                (error == Some(Conflict) <==> exists i: nat :: ConflictsAt(old(observations), f.targets, f.outcomes, i))
    {
      f := Fetched([], [], map[]);
      error := Refusal(job);
      if error.Some? { return; }
      var resume := ResumeNext(Value(), job.overlap);
      var targets := BuildTargets(job.ranges, resume, job.budget);
      var outcomes := FetchTargets(targets, job.batchSize, job.reader);
      f := Fetched(targets, outcomes, resume);
      assert FetchedBy(Value(), job, f);
      var merged := MergeObservations(observations, targets, outcomes);
      MergeConflictsIff(observations, targets, outcomes);
      if merged.None? {
        error := Some(Conflict);
        return;
      }
      Persist(job, crash, targets, outcomes, resume, merged.value);
    }

    method Persist(job: Job, crash: Crash, targets: seq<Target>, outcomes: seq<Outcome>, resume: map<Key, int>, merged: map<RoundKey, Observation>)
      requires |targets| == |outcomes| && MergedWith(observations, targets, outcomes) == Some(merged)
      modifies this
      ensures Value() == StoreAfter(old(Value()), job, Fetched(targets, outcomes, resume), crash)
    {
      var checkpoints := AdvanceCheckpoints(targets, outcomes, observations.Keys, resume);
      var after := BuildStates(job, Fetched(targets, outcomes, resume), observations.Keys, checkpoints);
      if crash == BeforeWrites { return; }
      if merged != observations { observations := merged; }
      if crash == AfterObservations { return; }
      states := after;
      if crash == AfterState { return; }
      issues := CollectIssues(issues, targets, outcomes, merged.Keys);
    }
  }

  // ----- No round is skipped silently -----

  /** A round is stored, or recorded as rejected for good. */
  predicate Accounted(s: Store, id: RoundKey) {
    id in s.observations || (id in s.issues && !s.issues[id])
  }

  /** Below every checkpoint, every round is accounted for. */
  ghost predicate NoSilentSkip(s: Store) {
    forall key, round :: key in s.states && s.states[key].start <= round < s.states[key].next && round / PHASE == key.1
      ==> Accounted(s, (key.0, round))
  }

  function Consecutive(first: int, n: nat): (s: seq<int>)
    ensures |s| == n && forall i :: 0 <= i < n ==> s[i] == first + i
  {
    seq(n, i => first + i)
  }

  lemma ConsecutiveHolds(first: int, n: nat, x: int)
    ensures x in Consecutive(first, n) <==> first <= x < first + n
  {
    if first <= x < first + n { assert Consecutive(first, n)[x - first] == x; }
  }

  /** What the last range adds to the rounds attempted of a key. */
  lemma AttemptedOfLast(ranges: seq<RoundRange>, next: map<Key, int>, budget: nat, key: Key)
    requires ranges != []
    ensures var last, front := ranges[|ranges| - 1], TargetsOf(ranges[..|ranges| - 1], next, budget);
      AttemptedFor(TargetsOf(ranges, next, budget), key)
      == AttemptedFor(front, key)
         + (if KeyOf(last) == key then Consecutive(StartOf(last, next), SliceSize(last, next, budget - |front|)) else [])
  {
    var last, front := ranges[|ranges| - 1], TargetsOf(ranges[..|ranges| - 1], next, budget);
    AttemptedOfSlice(front, last, StartOf(last, next), SliceSize(last, next, budget - |front|), key);
  }

  /** The slices of later ranges add nothing to what was attempted of a range. */
  lemma {:induction false} LaterSlicesAddNothing(ranges: seq<RoundRange>, next: map<Key, int>, budget: nat, j: nat, key: Key)
    requires DistinctKeys(ranges) && j < |ranges| && key == KeyOf(ranges[j])
    ensures AttemptedFor(TargetsOf(ranges, next, budget), key) == AttemptedFor(TargetsOf(ranges[..j + 1], next, budget), key)
  {
    var k := |ranges| - 1;
    if j == k {
      assert ranges[..k + 1] == ranges;
    } else {
      var front := ranges[..k];
      AttemptedOfLast(ranges, next, budget, key);
      assert front[..j + 1] == ranges[..j + 1] && front[j] == ranges[j] && DistinctKeys(front);
      LaterSlicesAddNothing(front, next, budget, j, key);
    }
  }

  lemma {:induction false} AttemptedIsSlice(ranges: seq<RoundRange>, next: map<Key, int>, budget: nat, j: nat, used: nat)
    requires DistinctKeys(ranges) && j < |ranges| && used == |TargetsOf(ranges[..j], next, budget)|
    ensures AttemptedFor(TargetsOf(ranges, next, budget), KeyOf(ranges[j]))
         == Consecutive(StartOf(ranges[j], next), SliceSize(ranges[j], next, budget - used))
  {
    var upTo, key := ranges[..j + 1], KeyOf(ranges[j]);
    LaterSlicesAddNothing(ranges, next, budget, j, key);
    assert upTo[..|upTo| - 1] == ranges[..j];
    AttemptedOfLast(upTo, next, budget, key);
    NeverAttempted(ranges[..j], next, budget, key);
  }

  /**
   The rounds a slice attempted of a range are consecutive from its resume point, to its end
   or as far as the budget left by the ranges before it reaches.
   */
  lemma AttemptedAreConsecutive(ranges: seq<RoundRange>, next: map<Key, int>, budget: nat, j: nat)
    returns (n: nat)
    requires DistinctKeys(ranges) && j < |ranges|
    ensures AttemptedFor(TargetsOf(ranges, next, budget), KeyOf(ranges[j])) == Consecutive(FirstOpen(ranges[j], next), n)
    ensures FillsBudget(ranges[j], next, budget, |TargetsOf(ranges[..j], next, budget)|, n)
    ensures |TargetsOf(ranges[..j + 1], next, budget)| == |TargetsOf(ranges[..j], next, budget)| + n
  {
    var used := |TargetsOf(ranges[..j], next, budget)|;
    n := SliceSize(ranges[j], next, budget - used);
    AttemptedIsSlice(ranges, next, budget, j, used);
    TargetsStep(ranges, next, budget, j);
  }

  lemma {:induction false} AttemptedAppend(before: seq<Target>, t: Target, key: Key)
    ensures AttemptedFor(before + [t], key) == AttemptedFor(before, key) + (if KeyOf(t.range) == key then [t.round] else [])
  {
    assert (before + [t])[..|before|] == before;
  }

  lemma SliceGrows(before: seq<Target>, r: RoundRange, first: int, n: nat)
    requires n > 0
    ensures before + Slice(r, first, n) == before + Slice(r, first, n - 1) + [Target(r, first + n - 1)]
    ensures Consecutive(first, n) == Consecutive(first, n - 1) + [first + n - 1]
  {
  }

  lemma {:induction false} AttemptedOfSlice(before: seq<Target>, r: RoundRange, first: int, n: nat, key: Key)
    ensures AttemptedFor(before + Slice(r, first, n), key)
         == AttemptedFor(before, key) + (if KeyOf(r) == key then Consecutive(first, n) else [])
  {
    if n == 0 {
      assert before + Slice(r, first, n) == before;
    } else {
      SliceGrows(before, r, first, n);
      AttemptedOfSlice(before, r, first, n - 1, key);
      AttemptedAppend(before + Slice(r, first, n - 1), Target(r, first + n - 1), key);
    }
  }

  lemma {:induction false} NeverAttempted(ranges: seq<RoundRange>, next: map<Key, int>, budget: nat, key: Key)
    requires forall i :: 0 <= i < |ranges| ==> KeyOf(ranges[i]) != key
    ensures AttemptedFor(TargetsOf(ranges, next, budget), key) == []
  {
    if ranges != [] {
      var k := |ranges| - 1;
      var front := TargetsOf(ranges[..k], next, budget);
      NeverAttempted(ranges[..k], next, budget, key);
      AttemptedOfSlice(front, ranges[k], StartOf(ranges[k], next), SliceSize(ranges[k], next, budget - |front|), key);
    }
  }

  /** Membership in the grouped lists, back and forth. */
  lemma {:induction false} AttemptedMembers(targets: seq<Target>, key: Key, round: int)
    ensures round in AttemptedFor(targets, key) <==> exists i :: 0 <= i < |targets| && KeyOf(targets[i].range) == key && targets[i].round == round
  {
    if targets != [] {
      var n := |targets| - 1;
      AttemptedMembers(targets[..n], key, round);
      if round in AttemptedFor(targets[..n], key) {
        var i :| 0 <= i < n && KeyOf(targets[..n][i].range) == key && targets[..n][i].round == round;
        assert KeyOf(targets[i].range) == key && targets[i].round == round;
      }
    }
  }

  lemma {:induction false} RetryableMembers(targets: seq<Target>, outcomes: seq<Outcome>, existing: set<RoundKey>, key: Key, i: nat)
    requires |targets| == |outcomes| && i < |targets|
    requires KeyOf(targets[i].range) == key && WorthRetrying(targets[i], outcomes[i], existing)
    ensures targets[i].round in RetryableFor(targets, outcomes, existing, key)
    decreases |targets|
  {
    var n := |targets| - 1;
    if i < n { RetryableMembers(targets[..n], outcomes[..n], existing, key, i); }
  }

  /** Every round of a slice lies in its range, so its phase names its key. */
  lemma {:induction false} TargetsInRange(ranges: seq<RoundRange>, next: map<Key, int>, budget: nat, i: nat)
    requires AllValid(ranges) && i < |TargetsOf(ranges, next, budget)|
    ensures var t := TargetsOf(ranges, next, budget)[i];
      t.range in ranges && t.range.start <= t.round <= t.range.end && t.round / PHASE == t.range.phase
  {
    var k := |ranges| - 1;
    var front := TargetsOf(ranges[..k], next, budget);
    if i < |front| {
      TargetsInRange(ranges[..k], next, budget, i);
    }
  }

  lemma {:induction false} RetryableAreAttempted(targets: seq<Target>, outcomes: seq<Outcome>, existing: set<RoundKey>, key: Key)
    requires |targets| == |outcomes|
    ensures forall x :: x in RetryableFor(targets, outcomes, existing, key) ==> x in AttemptedFor(targets, key)
  {
    if targets != [] {
      RetryableAreAttempted(targets[..|targets| - 1], outcomes[..|targets| - 1], existing, key);
    }
  }

  /** The new state of a range. */
  lemma {:induction false} StateOfRange(job: Job, f: Fetched, existing: set<RoundKey>, ranges: seq<RoundRange>, j: nat)
    requires |f.targets| == |f.outcomes| && DistinctKeys(ranges) && j < |ranges|
    ensures var r := ranges[j];
      var next := match NextOf(f.targets, f.outcomes, existing, f.resume, KeyOf(r)) case Some(v) => v case None => r.start;
      && KeyOf(r) in StatesAfter(job, f, existing, ranges)
      && StatesAfter(job, f, existing, ranges)[KeyOf(r)] == FeedState(r.start, r.end, next, job.fromBlock, job.toBlock)
  {
    if j < |ranges| - 1 { StateOfRange(job, f, existing, ranges[..|ranges| - 1], j); }
  }

  lemma {:induction false} StateKeysAreRanges(job: Job, f: Fetched, existing: set<RoundKey>, ranges: seq<RoundRange>, key: Key)
    returns (j: nat)
    requires |f.targets| == |f.outcomes| && key in StatesAfter(job, f, existing, ranges)
    ensures j < |ranges| && KeyOf(ranges[j]) == key
  {
    if KeyOf(ranges[|ranges| - 1]) == key {
      j := |ranges| - 1;
    } else {
      j := StateKeysAreRanges(job, f, existing, ranges[..|ranges| - 1], key);
    }
  }

  ghost predicate Targeted(f: Fetched, id: RoundKey) {
    exists i :: 0 <= i < |f.targets| && IdOf(f.targets[i]) == id
  }

  /** A targeted round of a phase was attempted under that phase's key. */
  lemma {:induction false} TargetedIsAttempted(s: Store, job: Job, f: Fetched, key: Key, i: nat)
    requires AllValid(job.ranges) && FetchedBy(s, job, f) && i < |f.targets|
    requires IdOf(f.targets[i]).0 == key.0 && f.targets[i].round / PHASE == key.1
    ensures KeyOf(f.targets[i].range) == key && f.targets[i].round in AttemptedFor(f.targets, key)
  {
    TargetsInRange(job.ranges, f.resume, job.budget, i);
    AttemptedMembers(f.targets, key, f.targets[i].round);
  }

  /** A checkpoint never passes a round that failed retryably and is not stored. */
  lemma CheckpointStopsAtRetry(s: Store, job: Job, f: Fetched, key: Key, i: nat)
    requires AllValid(job.ranges) && FetchedBy(s, job, f) && i < |f.targets|
    requires KeyOf(f.targets[i].range) == key && WorthRetrying(f.targets[i], f.outcomes[i], s.observations.Keys)
    ensures NextOf(f.targets, f.outcomes, s.observations.Keys, f.resume, key).Some?
    ensures NextOf(f.targets, f.outcomes, s.observations.Keys, f.resume, key).value <= f.targets[i].round
  {
    var existing := s.observations.Keys;
    RetryableMembers(f.targets, f.outcomes, existing, key, i);
    RetryableAreAttempted(f.targets, f.outcomes, existing, key);
    assert AttemptedFor(f.targets, key) != [];
  }

  /** A round below the new checkpoint that this run did not attempt lies below the resume point. */
  lemma UnattemptedIsBelowResume(s: Store, job: Job, f: Fetched, j: nat, round: int)
    requires FetchedBy(s, job, f) && j < |job.ranges|
    requires round !in AttemptedFor(f.targets, KeyOf(job.ranges[j])) && job.ranges[j].start <= round
    requires round < match NextOf(f.targets, f.outcomes, s.observations.Keys, f.resume, KeyOf(job.ranges[j])) case Some(v) => v case None => job.ranges[j].start
    ensures KeyOf(job.ranges[j]) in f.resume && round < f.resume[KeyOf(job.ranges[j])]
  {
    var key, first := KeyOf(job.ranges[j]), StartOf(job.ranges[j], f.resume);
    var n := AttemptedAreConsecutive(job.ranges, f.resume, job.budget, j);
    if n > 0 {
      RetryableAreAttempted(f.targets, f.outcomes, s.observations.Keys, key);
      assert NextOf(f.targets, f.outcomes, s.observations.Keys, f.resume, key).value <= first + n;
      ConsecutiveHolds(first, n, round);
    }
  }

  /** Resuming never moves past the recorded checkpoint. */
  lemma ResumeIsAtMostNext(s: Store, job: Job, f: Fetched, j: nat, round: int)
    requires FetchedBy(s, job, f) && j < |job.ranges| && job.ranges[j].start <= round
    requires KeyOf(job.ranges[j]) in f.resume && round < f.resume[KeyOf(job.ranges[j])]
    ensures var key := KeyOf(job.ranges[j]); key in s.states && s.states[key].start <= round < s.states[key].next
  {
    var key := KeyOf(job.ranges[j]);
    assert ResumesAt(s.states[key], s.issues, key, job.overlap, f.resume[key]);
    var i :| 0 <= i < |job.ranges| && ContinuedBy(key, s.states[key], job.ranges[i]);
    assert i == j;
  }

  /** A round whose only outcomes were final rejections ends up recorded as such. */
  lemma {:induction false} RejectionIsRecorded(prior: map<RoundKey, bool>, targets: seq<Target>, outcomes: seq<Outcome>, id: RoundKey)
    requires |targets| == |outcomes|
    requires forall i :: 0 <= i < |targets| && IdOf(targets[i]) == id ==> outcomes[i] == Rejected(false)
    requires (exists i :: 0 <= i < |targets| && IdOf(targets[i]) == id) || (id in prior && !prior[id])
    ensures var after := IssuesWith(prior, targets, outcomes); id in after && !after[id]
    decreases |targets|
  {
    if targets != [] {
      var n := |targets| - 1;
      if IdOf(targets[n]) != id {
        if i :| 0 <= i < |targets| && IdOf(targets[i]) == id {
          assert IdOf(targets[..n][i]) == id;
        }
        RejectionIsRecorded(prior, targets[..n], outcomes[..n], id);
      }
    }
  }

  /** The step of a run that wrote its checkpoints. */
  ghost predicate WroteStates(s: Store, job: Job, f: Fetched) {
    && AllValid(job.ranges) && FetchedBy(s, job, f)
    && MergedWith(s.observations, f.targets, f.outcomes).Some?
  }

  ghost predicate BelowNext(s: Store, key: Key, round: int) {
    key in s.states && s.states[key].start <= round < s.states[key].next && round / PHASE == key.1
  }

  /** Every target of a round below a new checkpoint was read, stored before, or rejected for good. */
  lemma TargetsBelowNext(s: Store, job: Job, f: Fetched, crash: Crash, key: Key, round: int, i: nat)
    requires WroteStates(s, job, f) && crash in {AfterState, NoCrash}
    requires BelowNext(StoreAfter(s, job, f, crash), key, round)
    requires i < |f.targets| && IdOf(f.targets[i]) == (key.0, round)
    ensures (key.0, round) in StoreAfter(s, job, f, crash).observations || f.outcomes[i] == Rejected(false)
  {
    var existing := s.observations.Keys;
    var j := StateKeysAreRanges(job, f, existing, job.ranges, key);
    StateOfRange(job, f, existing, job.ranges, j);
    TargetedIsAttempted(s, job, f, key, i);
    MergeKeepsAndAdds(s.observations, f.targets, f.outcomes);
    if WorthRetrying(f.targets[i], f.outcomes[i], existing) {
      CheckpointStopsAtRetry(s, job, f, key, i);
    }
  }

  /** A round below a new checkpoint that was not targeted was below the old one. */
  lemma UntargetedBelowNext(s: Store, job: Job, f: Fetched, crash: Crash, key: Key, round: int)
    requires WroteStates(s, job, f) && crash in {AfterState, NoCrash}
    requires BelowNext(StoreAfter(s, job, f, crash), key, round) && !Targeted(f, (key.0, round))
    ensures BelowNext(s, key, round)
  {
    var existing := s.observations.Keys;
    var j := StateKeysAreRanges(job, f, existing, job.ranges, key);
    StateOfRange(job, f, existing, job.ranges, j);
    AttemptedMembers(f.targets, key, round);
    UnattemptedIsBelowResume(s, job, f, j, round);
    ResumeIsAtMostNext(s, job, f, j, round);
  }

  /** A complete run keeps the promise. */
  lemma CompleteRunSkipsNothing(s: Store, job: Job, f: Fetched)
    requires WroteStates(s, job, f) && NoSilentSkip(s)
    ensures NoSilentSkip(StoreAfter(s, job, f, NoCrash))
  {
    var s' := StoreAfter(s, job, f, NoCrash);
    MergeKeepsAndAdds(s.observations, f.targets, f.outcomes);
    forall key, round | BelowNext(s', key, round) ensures Accounted(s', (key.0, round)) {
      var id := (key.0, round);
      if id !in s'.observations {
        forall i | 0 <= i < |f.targets| && IdOf(f.targets[i]) == id ensures f.outcomes[i] == Rejected(false) {
          TargetsBelowNext(s, job, f, NoCrash, key, round, i);
        }
        if !Targeted(f, id) {
          UntargetedBelowNext(s, job, f, NoCrash, key, round);
          assert Accounted(s, id);
        }
        RejectionIsRecorded(s.issues, f.targets, f.outcomes, id);
      }
    }
  }

  /** No two targets of a slice name the same round. */
  lemma {:induction false} TargetsAreDistinct(ranges: seq<RoundRange>, next: map<Key, int>, budget: nat, i: nat, j: nat)
    requires AllValid(ranges) && DistinctKeys(ranges) && i < j < |TargetsOf(ranges, next, budget)|
    ensures IdOf(TargetsOf(ranges, next, budget)[i]) != IdOf(TargetsOf(ranges, next, budget)[j])
  {
    var k := |ranges| - 1;
    var front := TargetsOf(ranges[..k], next, budget);
    if j < |front| {
      TargetsAreDistinct(ranges[..k], next, budget, i, j);
    } else if i < |front| {
      TargetsInRange(ranges[..k], next, budget, i);
      TargetsInRange(ranges, next, budget, j);
      var m :| 0 <= m < k && ranges[..k][m] == front[i].range;
      assert KeyOf(ranges[m]) != KeyOf(ranges[k]);
    }
  }

  lemma {:induction false} RetryableAreTargets(targets: seq<Target>, outcomes: seq<Outcome>, existing: set<RoundKey>, key: Key, round: int)
    returns (i: nat)
    requires |targets| == |outcomes| && round in RetryableFor(targets, outcomes, existing, key)
    ensures i < |targets| && targets[i].round == round && KeyOf(targets[i].range) == key
    ensures WorthRetrying(targets[i], outcomes[i], existing)
  {
    var n := |targets| - 1;
    if round in RetryableFor(targets[..n], outcomes[..n], existing, key) {
      i := RetryableAreTargets(targets[..n], outcomes[..n], existing, key, round);
    } else {
      i := n;
    }
  }

  /** Target `k` failed, is worth retrying, and keeps the checkpoint of `key` at or below it. */
  ghost predicate HoldsBack(s: Store, f: Fetched, k: nat, key: Key) {
    |f.targets| == |f.outcomes| && k < |f.targets|
    && KeyOf(f.targets[k].range) == key && WorthRetrying(f.targets[k], f.outcomes[k], s.observations.Keys)
  }

  /** Every round of the target's phase that is worth retrying lies above it. */
  ghost predicate RetriesAbove(s: Store, f: Fetched, i: nat) {
    |f.targets| == |f.outcomes| && i < |f.targets| &&
    forall k :: 0 <= k < |f.targets| && HoldsBack(s, f, k, KeyOf(f.targets[i].range)) ==> f.targets[i].round < f.targets[k].round
  }

  /** Target `i` was rejected for good, the old stores do not know it, and nothing below it holds the checkpoint back. */
  ghost predicate NewRejection(s: Store, f: Fetched, i: nat) {
    |f.targets| == |f.outcomes| && i < |f.targets|
    && f.outcomes[i] == Rejected(false) && !Accounted(s, IdOf(f.targets[i])) && RetriesAbove(s, f, i)
  }

  /** The slice holds no such rejection: dying before the issue write loses nothing. */
  ghost predicate Harmless(s: Store, f: Fetched) {
    forall i :: 0 <= i < |f.targets| ==> !NewRejection(s, f, i)
  }

  /** What a run that wrote its checkpoints recorded for a range. */
  lemma CheckpointOfRange(s: Store, job: Job, f: Fetched, crash: Crash, j: nat)
    requires WroteStates(s, job, f) && crash in {AfterState, NoCrash} && j < |job.ranges|
    ensures var r, states := job.ranges[j], StoreAfter(s, job, f, crash).states;
      && KeyOf(r) in states && states[KeyOf(r)].start == r.start
      && states[KeyOf(r)].next == match NextOf(f.targets, f.outcomes, s.observations.Keys, f.resume, KeyOf(r)) case Some(v) => v case None => r.start
  {
    StateOfRange(job, f, s.observations.Keys, job.ranges, j);
  }

  /** With only retries above it, a target lies below the new checkpoint of its phase. */
  lemma RetriesAboveIsBelowNext(s: Store, job: Job, f: Fetched, i: nat)
    requires WroteStates(s, job, f) && i < |f.targets| && RetriesAbove(s, f, i)
    ensures BelowNext(StoreAfter(s, job, f, AfterState), KeyOf(f.targets[i].range), f.targets[i].round)
  {
    TargetsInRange(job.ranges, f.resume, job.budget, i);
    var j :| 0 <= j < |job.ranges| && job.ranges[j] == f.targets[i].range;
    CheckpointOfRange(s, job, f, AfterState, j);
    RetriesAboveIsBelowCheckpoint(s, f, i);
  }

  lemma RetriesAboveIsBelowCheckpoint(s: Store, f: Fetched, i: nat)
    requires RetriesAbove(s, f, i)
    ensures var next := NextOf(f.targets, f.outcomes, s.observations.Keys, f.resume, KeyOf(f.targets[i].range));
      next.Some? && f.targets[i].round < next.value
  {
    var existing, key := s.observations.Keys, KeyOf(f.targets[i].range);
    AttemptedMembers(f.targets, key, f.targets[i].round);
    var retryable := RetryableFor(f.targets, f.outcomes, existing, key);
    if retryable != [] {
      var k := RetryableAreTargets(f.targets, f.outcomes, existing, key, Least(retryable));
      assert HoldsBack(s, f, k, key);
    }
  }

  /** A rejected round that was not stored before is not stored by the run either. */
  lemma RejectedStaysUnstored(s: Store, job: Job, f: Fetched, i: nat)
    requires WroteStates(s, job, f) && i < |f.targets| && f.outcomes[i].Rejected? && IdOf(f.targets[i]) !in s.observations
    ensures IdOf(f.targets[i]) !in MergedWith(s.observations, f.targets, f.outcomes).value
  {
    var id, merged := IdOf(f.targets[i]), MergedWith(s.observations, f.targets, f.outcomes).value;
    MergeKeepsAndAdds(s.observations, f.targets, f.outcomes);
    if id in merged {
      var k :| 0 <= k < |f.targets| && IdOf(f.targets[k]) == id && f.outcomes[k] == Read(merged[id]);
      if k < i { TargetsAreDistinct(job.ranges, f.resume, job.budget, k, i); }
      if i < k { TargetsAreDistinct(job.ranges, f.resume, job.budget, i, k); }
    }
  }

  /**
   A run that dies between writing its checkpoints and writing its issues keeps the promise
   exactly when every round it rejected for good was known before, or lies at or above a
   round of its phase that is still worth retrying.
   */
  lemma TornRunSkipsNothingIff(s: Store, job: Job, f: Fetched)
    requires WroteStates(s, job, f) && NoSilentSkip(s)
    ensures NoSilentSkip(StoreAfter(s, job, f, AfterState)) <==> Harmless(s, f)
  {
    var s' := StoreAfter(s, job, f, AfterState);
    if i :| 0 <= i < |f.targets| && NewRejection(s, f, i) {
      var t := f.targets[i];
      RetriesAboveIsBelowNext(s, job, f, i);
      RejectedStaysUnstored(s, job, f, i);
      assert BelowNext(s', KeyOf(t.range), t.round) && !Accounted(s', IdOf(t));
    } else {
      forall key, round | BelowNext(s', key, round) ensures Accounted(s', (key.0, round)) {
        HarmlessIsAccounted(s, job, f, key, round);
      }
    }
  }

  /** Below a new checkpoint every retry of the phase is still ahead. */
  lemma BelowNextHasRetriesAbove(s: Store, job: Job, f: Fetched, key: Key, i: nat)
    requires WroteStates(s, job, f) && i < |f.targets| && KeyOf(f.targets[i].range) == key
    requires BelowNext(StoreAfter(s, job, f, AfterState), key, f.targets[i].round)
    ensures RetriesAbove(s, f, i)
  {
    var existing := s.observations.Keys;
    var j := StateKeysAreRanges(job, f, existing, job.ranges, key);
    StateOfRange(job, f, existing, job.ranges, j);
    forall k | 0 <= k < |f.targets| && HoldsBack(s, f, k, key)
      ensures f.targets[i].round < f.targets[k].round
    {
      CheckpointStopsAtRetry(s, job, f, key, k);
    }
  }

  lemma HarmlessTargetIsAccounted(s: Store, job: Job, f: Fetched, key: Key, i: nat)
    requires WroteStates(s, job, f) && Harmless(s, f) && i < |f.targets| && IdOf(f.targets[i]).0 == key.0
    requires BelowNext(StoreAfter(s, job, f, AfterState), key, f.targets[i].round)
    ensures IdOf(f.targets[i]) in StoreAfter(s, job, f, AfterState).observations || Accounted(s, IdOf(f.targets[i]))
  {
    TargetsBelowNext(s, job, f, AfterState, key, f.targets[i].round, i);
    TargetedIsAttempted(s, job, f, key, i);
    BelowNextHasRetriesAbove(s, job, f, key, i);
    assert !NewRejection(s, f, i);
  }

  lemma HarmlessIsAccounted(s: Store, job: Job, f: Fetched, key: Key, round: int)
    requires WroteStates(s, job, f) && NoSilentSkip(s) && Harmless(s, f)
    requires BelowNext(StoreAfter(s, job, f, AfterState), key, round)
    ensures Accounted(StoreAfter(s, job, f, AfterState), (key.0, round))
  {
    var id := (key.0, round);
    MergeKeepsAndAdds(s.observations, f.targets, f.outcomes);
    if Targeted(f, id) {
      var i :| 0 <= i < |f.targets| && IdOf(f.targets[i]) == id;
      HarmlessTargetIsAccounted(s, job, f, key, i);
    } else {
      UntargetedBelowNext(s, job, f, AfterState, key, round);
      assert Accounted(s, id);
    }
  }

  /** One feed phase of one round, and a provider that rejects it for good. */
  function OneRound(): RoundRange { RoundRange("feed", 1, PHASE + 1, PHASE + 1) }

  function RejectingJob(): Job { Job([OneRound()], 0, 0, 1, 1, 0, (offset, feed, ids) => Failure(false)) }

  function RejectedSlice(): Fetched { Fetched([Target(OneRound(), PHASE + 1)], [Rejected(false)], map[]) }

  function EmptyStore(): Store { Store(map[], map[], map[]) }

  lemma RejectingJobFetches()
    ensures WroteStates(EmptyStore(), RejectingJob(), RejectedSlice())
    ensures MergedWith(map[], RejectedSlice().targets, RejectedSlice().outcomes) == Some(map[])
  {
    var job, f := RejectingJob(), RejectedSlice();
    assert job.ranges[..0] == [] && f.targets[..0] == [] && f.outcomes[..0] == [];
    assert TargetsOf([], map[], 1) == [];
    assert TargetsOf(job.ranges, map[], 1) == f.targets;
    assert OutcomesFrom(f.targets, 0, 1, job.reader) == f.outcomes by {
      assert f.targets[0..1] == f.targets && f.targets[0..] == f.targets;
      assert OutcomesFrom(f.targets, 1, 1, job.reader) == [];
    }
  }

  lemma RejectedCheckpointMoves(existing: set<RoundKey>)
    requires existing == {}
    ensures NextOf(RejectedSlice().targets, RejectedSlice().outcomes, existing, map[], KeyOf(OneRound())) == Some(PHASE + 2)
  {
    var f, key := RejectedSlice(), KeyOf(OneRound());
    assert f.targets[..0] == [] && f.outcomes[..0] == [];
    assert AttemptedFor([], key) == [];
    assert AttemptedFor(f.targets, key) == [PHASE + 1];
    assert RetryableFor(f.targets, f.outcomes, existing, key) == [];
  }

  /** It does happen: one round rejected for good, one crash, and the round is below the checkpoint unrecorded. */
  lemma TornRunCanSkip()
    ensures NoSilentSkip(EmptyStore()) && WroteStates(EmptyStore(), RejectingJob(), RejectedSlice())
    ensures NoSilentSkip(StoreAfter(EmptyStore(), RejectingJob(), RejectedSlice(), NoCrash))
    ensures !NoSilentSkip(StoreAfter(EmptyStore(), RejectingJob(), RejectedSlice(), AfterState))
  {
    var s, job, f := EmptyStore(), RejectingJob(), RejectedSlice();
    RejectingJobFetches();
    CompleteRunSkipsNothing(s, job, f);
    StateOfRange(job, f, s.observations.Keys, job.ranges, 0);
    RejectedCheckpointMoves(s.observations.Keys);
    var torn := StoreAfter(s, job, f, AfterState);
    assert BelowNext(torn, ("feed", 1), PHASE + 1);
    assert !Accounted(torn, ("feed", PHASE + 1));
  }

  /** A run that raises, or dies before its checkpoints are written, keeps the promise. */
  lemma EarlyDeathSkipsNothing(s: Store, job: Job, f: Fetched, crash: Crash)
    requires FetchedBy(s, job, f) && NoSilentSkip(s)
    requires crash in {BeforeWrites, AfterObservations} || MergedWith(s.observations, f.targets, f.outcomes).None?
    ensures NoSilentSkip(StoreAfter(s, job, f, crash))
  {
    var s' := StoreAfter(s, job, f, crash);
    if MergedWith(s.observations, f.targets, f.outcomes).Some? { MergeKeepsAndAdds(s.observations, f.targets, f.outcomes); }
    forall key, round | BelowNext(s', key, round) ensures Accounted(s', (key.0, round)) {
      assert BelowNext(s, key, round) && Accounted(s, (key.0, round));
    }
  }

  /** A run tore between its checkpoints and its issues and lost a rejection. */
  ghost predicate LosesRejection(s: Store, job: Job, crash: Crash, f: Fetched) {
    && crash == AfterState && Accepted(s, job) && |f.targets| == |f.outcomes|
    && MergedWith(s.observations, f.targets, f.outcomes).Some? && !Harmless(s, f)
  }

  /** One run keeps the promise exactly when it does not lose a rejection. */
  lemma RunSkipsNothingIff(s: Store, job: Job, crash: Crash, f: Fetched, s': Store)
    requires AllValid(job.ranges) && RunsBy(s, job, crash, f, s') && NoSilentSkip(s)
    ensures NoSilentSkip(s') <==> !LosesRejection(s, job, crash, f)
  {
    if Accepted(s, job) {
      if MergedWith(s.observations, f.targets, f.outcomes).None? || crash in {BeforeWrites, AfterObservations} {
        EarlyDeathSkipsNothing(s, job, f, crash);
      } else if crash == NoCrash {
        CompleteRunSkipsNothing(s, job, f);
      } else {
        TornRunSkipsNothingIff(s, job, f);
      }
    }
  }

  /** Successive runs from an empty store: what each was asked, where it stopped and what it fetched. */
  datatype JobRun = JobRun(job: Job, crash: Crash, fetched: Fetched)

  ghost predicate HistoryStep(stores: seq<Store>, runs: seq<JobRun>, i: nat) {
    && |stores| == |runs| + 1 && i < |runs|
    && AllValid(runs[i].job.ranges) && RunsBy(stores[i], runs[i].job, runs[i].crash, runs[i].fetched, stores[i + 1])
  }

  ghost predicate IsHistory(stores: seq<Store>, runs: seq<JobRun>) {
    && |stores| == |runs| + 1
    && stores[0] == Store(map[], map[], map[])
    && forall i :: 0 <= i < |runs| ==> HistoryStep(stores, runs, i)
  }

  /** No run of the first `n` lost a rejection. */
  ghost predicate NothingLost(stores: seq<Store>, runs: seq<JobRun>, n: nat) {
    n <= |runs| && n < |stores| && forall i :: 0 <= i < n ==> !LosesRejection(stores[i], runs[i].job, runs[i].crash, runs[i].fetched)
  }

  /**
   Over any runs of the job, with any overlap, budget, batch size, failures and crashes,
   every round below a checkpoint stays stored or recorded as rejected for good, at every
   moment, exactly as long as no torn run loses a rejection.
   */
  lemma {:induction false} RunsNeverSkipSilently(stores: seq<Store>, runs: seq<JobRun>, n: nat)
    requires IsHistory(stores, runs) && n < |stores|
    ensures (forall k :: 0 <= k <= n ==> NoSilentSkip(stores[k])) <==> NothingLost(stores, runs, n)
  {
    if n > 0 {
      RunsNeverSkipSilently(stores, runs, n - 1);
      assert HistoryStep(stores, runs, n - 1);
      if NoSilentSkip(stores[n - 1]) {
        RunSkipsNothingIff(stores[n - 1], runs[n - 1].job, runs[n - 1].crash, runs[n - 1].fetched, stores[n - 1 + 1]);
      }
    }
  }

  /** A finished feed phase has no silently skipped round. */
  lemma FinishedPhaseIsAccounted(stores: seq<Store>, runs: seq<JobRun>, n: nat, key: Key, round: int)
    requires IsHistory(stores, runs) && n < |stores| && NothingLost(stores, runs, n)
    requires key in stores[n].states && stores[n].states[key].next > stores[n].states[key].end
    requires stores[n].states[key].start <= round <= stores[n].states[key].end && round / PHASE == key.1
    ensures Accounted(stores[n], (key.0, round))
  {
    RunsNeverSkipSilently(stores, runs, n);
  }
}
