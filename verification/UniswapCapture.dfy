/** Complete-or-split fetching over address groups. */
module UniswapCapture {
  // Complete-or-split fetching over address groups and its chunk loop
  // (backfill/uniswap_v3.py, backfill/run_uniswap_incremental.py).

  import opened Wrappers
  import opened Sorting
  import opened BlockRanges
  import opened AdaptiveFetch
  import opened Decode
  import opened Merge
  import opened Timestamps

  datatype QueryGroup = QueryGroup(addresses: seq<string>, topics: seq<string>)

  /** `query_groups`: consecutive address batches, each with every topic. */
  function QueryGroups(pools: seq<string>, topics: seq<string>, batchSize: nat): (groups: seq<QueryGroup>)
    requires batchSize > 0
    decreases |pools|
  {
    if pools == [] then []
    else if |pools| <= batchSize then [QueryGroup(pools, topics)]
    else [QueryGroup(pools[..batchSize], topics)] + QueryGroups(pools[batchSize..], topics, batchSize)
  }

  ghost predicate AsksFor(g: QueryGroup, pool: string, topic: string) {
    pool in g.addresses && topic in g.topics
  }

  lemma {:induction false} GroupedPools(pools: seq<string>, topics: seq<string>, batchSize: nat)
    requires batchSize > 0
    ensures forall g :: g in QueryGroups(pools, topics, batchSize) ==> 0 < |g.addresses| <= batchSize && g.topics == topics
    ensures forall g, p :: g in QueryGroups(pools, topics, batchSize) && p in g.addresses ==> p in pools
    decreases |pools|
  {
    if |pools| > batchSize {
      var tail := pools[batchSize..];
      GroupedPools(tail, topics, batchSize);
      assert pools == pools[..batchSize] + tail;
      forall g, p | g in QueryGroups(tail, topics, batchSize) && p in g.addresses ensures p in pools {
        assert p in tail;
      }
    }
  }

  /** Every pool and topic pair of the contract is asked for by exactly one group. */
  lemma {:induction false} EveryPairAskedOnce(pools: seq<string>, topics: seq<string>, batchSize: nat, pool: string, topic: string)
    returns (i: nat)
    requires batchSize > 0 && Distinct(pools) && pool in pools && topic in topics
    ensures var groups := QueryGroups(pools, topics, batchSize);
      && i < |groups| && AsksFor(groups[i], pool, topic)
      && forall k :: 0 <= k < |groups| && AsksFor(groups[k], pool, topic) ==> k == i
    decreases |pools|
  {
    var groups := QueryGroups(pools, topics, batchSize);
    if |pools| <= batchSize {
      i := 0;
    } else {
      var head, tail := pools[..batchSize], pools[batchSize..];
      var rest := QueryGroups(tail, topics, batchSize);
      assert groups == [QueryGroup(head, topics)] + rest && pools == head + tail;
      GroupedPools(tail, topics, batchSize);
      if pool in head {
        i := 0;
        HeadNotInTail(pools, batchSize, pool);
        forall k | 0 < k < |groups| ensures !AsksFor(groups[k], pool, topic) {
          assert groups[k] == rest[k - 1] && rest[k - 1] in rest;
        }
      } else {
        var j := EveryPairAskedOnce(tail, topics, batchSize, pool, topic);
        i := j + 1;
        forall k | 0 <= k < |groups| && AsksFor(groups[k], pool, topic) ensures k == i {
          if k > 0 { assert groups[k] == rest[k - 1]; }
        }
      }
    }
  }

  lemma HeadNotInTail(pools: seq<string>, n: nat, pool: string)
    requires Distinct(pools) && n <= |pools| && pool in pools[..n]
    ensures pool !in pools[n..]
  {
    forall k | n <= k < |pools| ensures pools[k] != pool {
    }
  }

  /** The logs a provider holds for a group and block, in block order. */
  type Provider = QueryGroup -> int -> seq<Log>

  /** Every log a provider lists for a block parses that block, or no block at all. */
  ghost predicate WellFormedProvider(p: Provider) {
    forall g: QueryGroup, b: int :: WellListed(p(g)(b), b)
  }

  ghost predicate WellListed(logs: seq<Log>, b: int) {
    forall i :: 0 <= i < |logs| && logs[i].block.Some? ==> logs[i].block.value == b
  }

  /** One range asked group by group. */
  ghost function GroupLogs(p: Provider, groups: seq<QueryGroup>, lo: int, hi: int): seq<Log> {
    if groups == [] then []
    else GroupLogs(p, groups[..|groups| - 1], lo, hi) + LogsIn(p(groups[|groups| - 1]), lo, hi)
  }

  /** The logs of one block, group by group: the same whatever range the block was read in. */
  ghost function BlockLogs(p: Provider, groups: seq<QueryGroup>, b: int): seq<Log> {
    if groups == [] then []
    else BlockLogs(p, groups[..|groups| - 1], b) + p(groups[|groups| - 1])(b)
  }

  lemma {:induction false} LogsAtConcat(a: seq<Log>, c: seq<Log>, b: int)
    ensures LogsAt(a + c, b) == LogsAt(a, b) + LogsAt(c, b)
    decreases |c|
  {
    if c == [] {
      assert a + c == a;
    } else {
      assert (a + c)[..|a + c| - 1] == a + c[..|c| - 1];
      LogsAtConcat(a, c[..|c| - 1], b);
    }
  }

  lemma {:induction false} LogsAtOfBlock(logs: seq<Log>, x: int, b: int)
    requires WellListed(logs, x) && x != b
    ensures LogsAt(logs, b) == []
    decreases |logs|
  {
    if logs != [] { LogsAtOfBlock(logs[..|logs| - 1], x, b); }
  }

  /** Every log is filed under its own block, if it parses one. */
  ghost predicate WellFiled(chain: int -> seq<Log>) {
    forall b: int :: WellListed(chain(b), b)
  }

  /** The last block's logs are the only ones of that block, and of no other. */
  lemma LogsInStep(chain: int -> seq<Log>, lo: int, hi: int, b: int)
    requires WellFiled(chain) && lo <= hi
    ensures LogsAt(LogsIn(chain, lo, hi), b) == LogsAt(LogsIn(chain, lo, hi - 1), b) + if b == hi then LogsAt(chain(b), b) else []
  {
    LogsAtConcat(LogsIn(chain, lo, hi - 1), chain(hi), b);
    if b != hi { LogsAtOfBlock(chain(hi), hi, b); }
  }

  lemma {:induction false} LogsInAt(chain: int -> seq<Log>, lo: int, hi: int, b: int)
    requires WellFiled(chain)
    ensures LogsAt(LogsIn(chain, lo, hi), b) == if lo <= b <= hi then LogsAt(chain(b), b) else []
    decreases hi - lo
  {
    if lo <= hi {
      LogsInAt(chain, lo, hi - 1, b);
      LogsInStep(chain, lo, hi, b);
    }
  }

  lemma {:induction false} LogsInWithin(chain: int -> seq<Log>, lo: int, hi: int)
    requires WellFiled(chain)
    ensures BlocksWithin(LogsIn(chain, lo, hi), lo, hi)
    decreases hi - lo
  {
    if lo <= hi {
      LogsInWithin(chain, lo, hi - 1);
      assert WellListed(chain(hi), hi);
    }
  }

  lemma {:induction false} GroupLogsAt(p: Provider, groups: seq<QueryGroup>, lo: int, hi: int, b: int)
    requires WellFormedProvider(p)
    ensures LogsAt(GroupLogs(p, groups, lo, hi), b) == if lo <= b <= hi then LogsAt(BlockLogs(p, groups, b), b) else []
    ensures BlocksWithin(GroupLogs(p, groups, lo, hi), lo, hi)
    decreases |groups|
  {
    if groups != [] {
      var front, g := groups[..|groups| - 1], groups[|groups| - 1];
      GroupLogsAt(p, front, lo, hi, b);
      assert WellFiled(p(g));
      LogsInAt(p(g), lo, hi, b);
      LogsInWithin(p(g), lo, hi);
      LogsAtConcat(GroupLogs(p, front, lo, hi), LogsIn(p(g), lo, hi), b);
      LogsAtConcat(BlockLogs(p, front, b), p(g)(b), b);
    }
  }

  // ----- Logs without a readable block -----

  /** The logs that parse no block; each becomes an issue wherever it is read. */
  function Blockless(logs: seq<Log>): seq<Log> {
    if logs == [] then []
    else Blockless(logs[..|logs| - 1]) + (if logs[|logs| - 1].block.None? then [logs[|logs| - 1]] else [])
  }

  lemma {:induction false} BlocklessConcat(a: seq<Log>, c: seq<Log>)
    ensures Blockless(a + c) == Blockless(a) + Blockless(c)
    decreases |c|
  {
    if c == [] {
      assert a + c == a;
    } else {
      assert (a + c)[..|a + c| - 1] == a + c[..|c| - 1];
      BlocklessConcat(a, c[..|c| - 1]);
    }
  }

  /** The blockless logs listed for the blocks of an interval, block by block. */
  ghost function StrayLogs(p: Provider, groups: seq<QueryGroup>, lo: int, hi: int): seq<Log>
    decreases hi - lo
  {
    if hi < lo then [] else StrayLogs(p, groups, lo, hi - 1) + Blockless(BlockLogs(p, groups, hi))
  }

  lemma {:induction false} StraysSplit(p: Provider, groups: seq<QueryGroup>, lo: int, mid: int, hi: int)
    requires lo <= mid + 1 <= hi + 1
    ensures StrayLogs(p, groups, lo, hi) == StrayLogs(p, groups, lo, mid) + StrayLogs(p, groups, mid + 1, hi)
    decreases hi - mid
  {
    if mid < hi { StraysSplit(p, groups, lo, mid, hi - 1); }
  }

  /** One more group adds the blockless logs it lists. */
  lemma {:induction false} StraysOfGroup(p: Provider, groups: seq<QueryGroup>, lo: int, hi: int)
    requires groups != []
    ensures var front, g := groups[..|groups| - 1], groups[|groups| - 1];
      multiset(StrayLogs(p, groups, lo, hi)) == multiset(StrayLogs(p, front, lo, hi)) + multiset(Blockless(LogsIn(p(g), lo, hi)))
    decreases hi - lo
  {
    if lo <= hi {
      var front, g := groups[..|groups| - 1], groups[|groups| - 1];
      StraysOfGroup(p, groups, lo, hi - 1);
      BlocklessConcat(LogsIn(p(g), lo, hi - 1), p(g)(hi));
      BlocklessConcat(BlockLogs(p, front, hi), p(g)(hi));
    }
  }

  lemma {:induction false} NoGroupsNoStrays(p: Provider, lo: int, hi: int)
    ensures StrayLogs(p, [], lo, hi) == []
    decreases hi - lo
  {
    if lo <= hi { NoGroupsNoStrays(p, lo, hi - 1); }
  }

  lemma {:induction false} GroupStrays(p: Provider, groups: seq<QueryGroup>, lo: int, hi: int)
    ensures multiset(Blockless(GroupLogs(p, groups, lo, hi))) == multiset(StrayLogs(p, groups, lo, hi))
    decreases |groups|
  {
    if groups == [] {
      NoGroupsNoStrays(p, lo, hi);
    } else {
      var front, g := groups[..|groups| - 1], groups[|groups| - 1];
      GroupStrays(p, front, lo, hi);
      StraysOfGroup(p, groups, lo, hi);
      BlocklessConcat(GroupLogs(p, front, lo, hi), LogsIn(p(g), lo, hi));
    }
  }

  /** Asking an interval at once or in two parts lists the same logs without a block. */
  lemma GroupStraysSplit(p: Provider, groups: seq<QueryGroup>, lo: int, mid: int, hi: int)
    requires lo <= mid + 1 <= hi + 1
    ensures multiset(Blockless(GroupLogs(p, groups, lo, hi)))
         == multiset(Blockless(GroupLogs(p, groups, lo, mid)) + Blockless(GroupLogs(p, groups, mid + 1, hi)))
  {
    GroupStrays(p, groups, lo, hi);
    GroupStrays(p, groups, lo, mid);
    GroupStrays(p, groups, mid + 1, hi);
    StraysSplit(p, groups, lo, mid, hi);
  }

  /** `logs` holds, block by block, exactly what every group has for [lo, hi], and the same logs without a block. */
  ghost predicate HoldsBlocks(logs: seq<Log>, p: Provider, groups: seq<QueryGroup>, lo: int, hi: int) {
    && BlocksWithin(logs, lo, hi)
    && (forall b :: lo <= b <= hi ==> LogsAt(logs, b) == LogsAt(BlockLogs(p, groups, b), b))
    && multiset(Blockless(logs)) == multiset(Blockless(GroupLogs(p, groups, lo, hi)))
  }

  lemma {:induction false} NoLogsOutside(logs: seq<Log>, lo: int, hi: int, b: int)
    requires BlocksWithin(logs, lo, hi) && !(lo <= b <= hi)
    ensures LogsAt(logs, b) == []
    decreases |logs|
  {
    if logs != [] { NoLogsOutside(logs[..|logs| - 1], lo, hi, b); }
  }

  lemma HoldsBlocksConcat(a: seq<Log>, c: seq<Log>, p: Provider, groups: seq<QueryGroup>, lo: int, mid: int, hi: int)
    requires HoldsBlocks(a, p, groups, lo, mid) && HoldsBlocks(c, p, groups, mid + 1, hi) && lo <= mid + 1 <= hi + 1
    ensures HoldsBlocks(a + c, p, groups, lo, hi)
  {
    forall b | lo <= b <= hi ensures LogsAt(a + c, b) == LogsAt(BlockLogs(p, groups, b), b) {
      LogsAtConcat(a, c, b);
      if b <= mid { NoLogsOutside(c, mid + 1, hi, b); } else { NoLogsOutside(a, lo, mid, b); }
    }
    BlocklessConcat(a, c);
    GroupStraysSplit(p, groups, lo, mid, hi);
  }

  lemma {:induction false} GroupLogsHoldBlocks(p: Provider, groups: seq<QueryGroup>, lo: int, hi: int)
    requires WellFormedProvider(p)
    ensures HoldsBlocks(GroupLogs(p, groups, lo, hi), p, groups, lo, hi)
  {
    GroupLogsAt(p, groups, lo, hi, lo);
    forall b | lo <= b <= hi ensures LogsAt(GroupLogs(p, groups, lo, hi), b) == LogsAt(BlockLogs(p, groups, b), b) {
      GroupLogsAt(p, groups, lo, hi, b);
    }
  }

  /** The answers of all groups, leaf by leaf. */
  ghost function LeafLogs(p: Provider, groups: seq<QueryGroup>, leaves: seq<BlockRange>): seq<Log> {
    if leaves == [] then []
    else LeafLogs(p, groups, leaves[..|leaves| - 1]) + GroupLogs(p, groups, leaves[|leaves| - 1].start, leaves[|leaves| - 1].end)
  }

  lemma {:induction false} LeafExtends(p: Provider, groups: seq<QueryGroup>, logs: seq<Log>, lo: int, leaf: BlockRange)
    requires WellFormedProvider(p) && lo <= leaf.start <= leaf.end && HoldsBlocks(logs, p, groups, lo, leaf.start - 1)
    ensures HoldsBlocks(logs + GroupLogs(p, groups, leaf.start, leaf.end), p, groups, lo, leaf.end)
  {
    GroupLogsHoldBlocks(p, groups, leaf.start, leaf.end);
    HoldsBlocksConcat(logs, GroupLogs(p, groups, leaf.start, leaf.end), p, groups, lo, leaf.start - 1, leaf.end);
  }

  lemma TilesFront(leaves: seq<BlockRange>, lo: int, hi: int)
    requires Tiles(leaves, lo, hi) && leaves != []
    ensures var last := leaves[|leaves| - 1]; Tiles(leaves[..|leaves| - 1], lo, last.start - 1) && lo <= last.start <= last.end == hi
  {
    TilesCover(leaves[..|leaves| - 1], lo, leaves[|leaves| - 1].start - 1);
  }

  lemma {:induction false} NoBlocksNoLogs(p: Provider, groups: seq<QueryGroup>, lo: int, hi: int)
    requires hi < lo
    ensures GroupLogs(p, groups, lo, hi) == []
    decreases |groups|
  {
    if groups != [] { NoBlocksNoLogs(p, groups[..|groups| - 1], lo, hi); }
  }

  lemma NothingHeld(p: Provider, groups: seq<QueryGroup>, lo: int)
    ensures HoldsBlocks([], p, groups, lo, lo - 1)
  {
    NoBlocksNoLogs(p, groups, lo, lo - 1);
  }

  /** Leaves that tile an interval hold every block of it, when the provider lists logs under their own blocks. */
  lemma {:induction false} LeavesHoldBlocks(p: Provider, groups: seq<QueryGroup>, leaves: seq<BlockRange>, lo: int, hi: int)
    requires WellFormedProvider(p) && Tiles(leaves, lo, hi)
    ensures HoldsBlocks(LeafLogs(p, groups, leaves), p, groups, lo, hi)
    decreases |leaves|
  {
    if leaves == [] {
      NothingHeld(p, groups, lo);
    } else {
      var front, last := leaves[..|leaves| - 1], leaves[|leaves| - 1];
      TilesFront(leaves, lo, hi);
      LeavesHoldBlocks(p, groups, front, lo, last.start - 1);
      LeafExtends(p, groups, LeafLogs(p, groups, front), lo, last);
    }
  }

  datatype CompleteFetch = CompleteFetch(
    completedRanges: seq<BlockRange>, logs: seq<Log>, rangeAttempts: nat, queryRequests: nat, splitCount: nat)

  datatype CompleteError = InvalidLimits | InvalidRequest | Exhausted(range: BlockRange) | FailedAtMinimum(range: BlockRange)

  /** Query every group of one range; the first failing group fails the whole range. */
  method QueryAllGroups(p: Provider, fails: QueryFailures, groups: seq<QueryGroup>, range: BlockRange, asked: nat)
    returns (logs: Option<seq<Log>>, requests: nat)
    requires range.start <= range.end
    ensures logs.Some? ==> logs.value == GroupLogs(p, groups, range.start, range.end) && requests == asked + |groups|
    ensures logs.Some? ==> forall i :: 0 <= i < |groups| ==> !fails(asked + i + 1, groups[i], range)
    ensures logs.None? ==> asked < requests <= asked + |groups| && fails(requests, groups[requests - asked - 1], range)
  {
    var current: seq<Log> := [];
    requests := asked;
    for i := 0 to |groups|
      invariant requests == asked + i && current == GroupLogs(p, groups[..i], range.start, range.end)
      invariant forall k :: 0 <= k < i ==> !fails(asked + k + 1, groups[k], range)
    {
      assert groups[..i + 1][..i] == groups[..i];
      requests := requests + 1;
      if fails(requests, groups[i], range) {
        return None, requests;
      }
      var answer := Answer(p(groups[i]), range);
      current := current + answer;
    }
    assert groups[..|groups|] == groups;
    return Some(current), requests;
  }

  ghost predicate Finished(p: Provider, groups: seq<QueryGroup>, start: int, end: int, maxAttempts: int, f: CompleteFetch) {
    && Tiles(f.completedRanges, start, end)
    && f.logs == LeafLogs(p, groups, f.completedRanges)
    && |f.completedRanges| == f.splitCount + 1
    && f.rangeAttempts == 2 * f.splitCount + 1 <= maxAttempts
  }

  type QueryFailures = (nat, QueryGroup, BlockRange) -> bool

  /** Some group's query failed on the range. */
  ghost predicate RefusedOn(fails: QueryFailures, groups: seq<QueryGroup>, range: BlockRange) {
    exists n: nat, i :: 0 <= i < |groups| && fails(n, groups[i], range)
  }

  ghost predicate Inside(range: BlockRange, request: BlockRange) {
    request.start <= range.start <= range.end <= request.end
  }

  /** A loop state that used up the budget: each of its splits was a refused range, and `range` was still to come. */
  ghost predicate SpentOn(range: BlockRange, fails: QueryFailures, groups: seq<QueryGroup>, request: BlockRange, minimum: int,
                          maxAttempts: int, next: int, l: GroupLoop, refused: seq<BlockRange>) {
    && Walk(request.start, request.end, next, minimum, l.pending, l.completed, l.attempts, l.splits)
    && l.attempts == maxAttempts && l.pending != [] && range == l.pending[|l.pending| - 1]
    && SplitsRefused(fails, groups, request, minimum, l, refused)
  }

  ghost predicate SplitsRefused(fails: QueryFailures, groups: seq<QueryGroup>, request: BlockRange, minimum: int, l: GroupLoop, refused: seq<BlockRange>) {
    |refused| == l.splits && forall i :: 0 <= i < |refused| ==> SplitRefused(fails, groups, request, minimum, refused[i])
  }

  ghost predicate SplitRefused(fails: QueryFailures, groups: seq<QueryGroup>, request: BlockRange, minimum: int, range: BlockRange) {
    RefusedOn(fails, groups, range) && Inside(range, request) && range.end - range.start >= minimum
  }

  lemma RefusedGrows(fails: QueryFailures, groups: seq<QueryGroup>, request: BlockRange, minimum: int, l: GroupLoop,
                     refused: seq<BlockRange>, range: BlockRange)
    requires SplitsRefused(fails, groups, request, minimum, l, refused) && SplitRefused(fails, groups, request, minimum, range)
    ensures forall l': GroupLoop :: l'.splits == l.splits + 1 ==> SplitsRefused(fails, groups, request, minimum, l', refused + [range])
  {
  }

  /**
   A fetch gives up on a range of the request that a group refused at minimum size, or when
   every attempt of a budget that was too small is spent.
   */
  ghost predicate GaveUpOn(e: CompleteError, fails: QueryFailures, groups: seq<QueryGroup>, request: BlockRange, minimum: int, maxAttempts: int) {
    match e
    case Exhausted(range) =>
      && Inside(range, request) && maxAttempts < SufficientBudget(request.Size(), minimum)
      && exists next, l, refused :: SpentOn(range, fails, groups, request, minimum, maxAttempts, next, l, refused)
    case FailedAtMinimum(range) => Inside(range, request) && range.end - range.start + 1 <= minimum && RefusedOn(fails, groups, range)
    case _ => false
  }

  /**
   `fetch_complete_range_adaptive`: a leaf contributes its logs only when every group
   answered, so success holds exactly the contract's logs of every block, those without a
   readable block included.
   */
  method FetchCompleteRangeAdaptive(p: Provider, fails: QueryFailures, groups: seq<QueryGroup>,
                                    start: int, end: int, minimumRangeSize: int, maxRangeAttempts: int)
    returns (r: Result<CompleteFetch, CompleteError>)
    ensures !(0 <= start <= end) ==> r == Failure(InvalidRequest)
    ensures 0 <= start <= end && (minimumRangeSize <= 0 || maxRangeAttempts <= 0) ==> r == Failure(InvalidLimits)
    ensures 0 <= start <= end && minimumRangeSize > 0 && maxRangeAttempts > 0 ==>
              match r
              case Success(f) => Finished(p, groups, start, end, maxRangeAttempts, f)
              case Failure(e) => GaveUpOn(e, fails, groups, BlockRange(start, end), minimumRangeSize, maxRangeAttempts)
    ensures r.Success? && WellFormedProvider(p) ==> HoldsBlocks(r.value.logs, p, groups, start, end)
  {
    var requested := BlockRange(start, end);
    if !requested.Valid() {
      return Failure(InvalidRequest);
    }
    if minimumRangeSize <= 0 || maxRangeAttempts <= 0 {
      return Failure(InvalidLimits);
    }
    r := FetchGroups(p, fails, groups, requested, minimumRangeSize, maxRangeAttempts);
    if r.Success? && WellFormedProvider(p) { LeavesHoldBlocks(p, groups, r.value.completedRanges, start, end); }
  }

  datatype GroupLoop = GroupLoop(
    pending: seq<BlockRange>, completed: seq<BlockRange>, logs: seq<Log>, attempts: nat, requests: nat, splits: nat)

  ghost predicate GroupProgress(p: Provider, groups: seq<QueryGroup>, range: BlockRange, next: int, minimum: int, l: GroupLoop) {
    && Walk(range.start, range.end, next, minimum, l.pending, l.completed, l.attempts, l.splits)
    && l.logs == LeafLogs(p, groups, l.completed)
  }

  /** An empty stack means every block's groups answered and the leaves tile the request in order. */
  lemma EmptyStackFinishes(p: Provider, groups: seq<QueryGroup>, range: BlockRange, next: int, minimum: int, maxAttempts: int, l: GroupLoop)
    requires GroupProgress(p, groups, range, next, minimum, l) && l.pending == [] && l.attempts <= maxAttempts
    ensures Finished(p, groups, range.start, range.end, maxAttempts,
              CompleteFetch(Sort(l.completed, RangeLe), l.logs, l.attempts, l.requests, l.splits))
  {
    TilesAreSorted(l.completed, range.start, range.end);
  }

  /** Running out of attempts means the budget was too small for the range. */
  lemma ExhaustedGivesUp(p: Provider, fails: QueryFailures, groups: seq<QueryGroup>, range: BlockRange,
                         next: int, minimum: int, maxAttempts: int, l: GroupLoop, refused: seq<BlockRange>)
    requires minimum > 0 && GroupProgress(p, groups, range, next, minimum, l) && l.pending != [] && l.attempts == maxAttempts
    requires SplitsRefused(fails, groups, range, minimum, l, refused)
    ensures GaveUpOn(Exhausted(l.pending[|l.pending| - 1]), fails, groups, range, minimum, maxAttempts)
  {
    BudgetSuffices(range.start, range.end, next, minimum, l.pending, l.completed, l.attempts, l.splits);
    StackTop(l.pending, next, range.end);
    assert SpentOn(l.pending[|l.pending| - 1], fails, groups, range, minimum, maxAttempts, next, l, refused);
  }

  method FetchGroups(p: Provider, fails: QueryFailures, groups: seq<QueryGroup>,
                     requested: BlockRange, minimum: int, maxAttempts: int)
    returns (r: Result<CompleteFetch, CompleteError>)
    requires requested.Valid() && minimum > 0 && maxAttempts > 0
    ensures match r
            case Success(f) => Finished(p, groups, requested.start, requested.end, maxAttempts, f)
            case Failure(e) => GaveUpOn(e, fails, groups, requested, minimum, maxAttempts)
  {
    var l := GroupLoop([requested], [], [], 0, 0, 0);
    ghost var next, refused: seq<BlockRange> := requested.start, [];
    while l.pending != []
      invariant GroupProgress(p, groups, requested, next, minimum, l) && l.attempts <= maxAttempts
      invariant SplitsRefused(fails, groups, requested, minimum, l, refused)
      decreases Work(l.pending)
    {
      var current := l.pending[|l.pending| - 1];
      if l.attempts >= maxAttempts {
        ExhaustedGivesUp(p, fails, groups, requested, next, minimum, maxAttempts, l, refused);
        return Failure(Exhausted(current));
      }
      StackTop(l.pending, next, requested.end);
      var currentLogs, requests := QueryAllGroups(p, fails, groups, current, l.requests);
      if currentLogs.None? {
        assert RefusedOn(fails, groups, current);
        if current.Size() <= minimum {
          return Failure(FailedAtMinimum(current));
        }
        RefusedGrows(fails, groups, requested, minimum, l, refused, current);
        l := SplitRange(p, groups, requested, next, minimum, l, requests);
        refused := refused + [current];
      } else {
        l, next := KeepLeaf(p, groups, requested, next, minimum, l, currentLogs.value, requests);
      }
    }
    EmptyStackFinishes(p, groups, requested, next, minimum, maxAttempts, l);
    return Success(CompleteFetch(Sort(l.completed, RangeLe), l.logs, l.attempts, l.requests, l.splits));
  }

  method SplitRange(ghost p: Provider, ghost groups: seq<QueryGroup>, ghost range: BlockRange, ghost next: int, minimum: int,
                    l: GroupLoop, requests: nat)
    returns (l': GroupLoop)
    requires minimum > 0 && l.pending != [] && l.pending[|l.pending| - 1].Size() > minimum
    requires GroupProgress(p, groups, range, next, minimum, l)
    ensures GroupProgress(p, groups, range, next, minimum, l')
    ensures 0 <= Work(l'.pending) < Work(l.pending) && l'.attempts == l.attempts + 1 && l'.splits == l.splits + 1
  {
    WalkSplit(range.start, range.end, next, minimum, l.pending, l.completed, l.attempts, l.splits);
    l' := GroupLoop(l.pending[..|l.pending| - 1] + Halves(l.pending[|l.pending| - 1]),
      l.completed, l.logs, l.attempts + 1, requests, l.splits + 1);
  }

  /** The loop after its top range was answered. */
  function Kept(l: GroupLoop, currentLogs: seq<Log>, requests: nat): GroupLoop
    requires l.pending != []
  {
    GroupLoop(l.pending[..|l.pending| - 1], l.completed + [l.pending[|l.pending| - 1]], l.logs + currentLogs, l.attempts + 1, requests, l.splits)
  }

  lemma LeafLogsAppend(p: Provider, groups: seq<QueryGroup>, leaves: seq<BlockRange>, leaf: BlockRange)
    ensures LeafLogs(p, groups, leaves + [leaf]) == LeafLogs(p, groups, leaves) + GroupLogs(p, groups, leaf.start, leaf.end)
  {
    assert (leaves + [leaf])[..|leaves|] == leaves;
  }

  lemma {:induction false} KeptProgress(p: Provider, groups: seq<QueryGroup>, range: BlockRange, next: int, minimum: int,
                                        l: GroupLoop, current: BlockRange, requests: nat)
    requires l.pending != [] && current == l.pending[|l.pending| - 1] && GroupProgress(p, groups, range, next, minimum, l)
    ensures GroupProgress(p, groups, range, current.end + 1, minimum, Kept(l, GroupLogs(p, groups, current.start, current.end), requests))
    ensures 0 <= Work(l.pending[..|l.pending| - 1]) < Work(l.pending)
  {
    WalkLeaf(range.start, range.end, next, minimum, l.pending, l.completed, l.attempts, l.splits);
    LeafLogsAppend(p, groups, l.completed, current);
  }

  method KeepLeaf(ghost p: Provider, ghost groups: seq<QueryGroup>, ghost range: BlockRange, ghost next: int, ghost minimum: int,
                  l: GroupLoop, currentLogs: seq<Log>, requests: nat)
    returns (l': GroupLoop, ghost next': int)
    requires l.pending != [] && GroupProgress(p, groups, range, next, minimum, l)
    requires var current := l.pending[|l.pending| - 1]; currentLogs == GroupLogs(p, groups, current.start, current.end)
    ensures GroupProgress(p, groups, range, next', minimum, l')
    ensures 0 <= Work(l'.pending) < Work(l.pending) && l'.attempts == l.attempts + 1 && l'.splits == l.splits
  {
    KeptProgress(p, groups, range, next, minimum, l, l.pending[|l.pending| - 1], requests);
    l', next' := Kept(l, currentLogs, requests), l.pending[|l.pending| - 1].end + 1;
  }

  /** The issues of logs without a readable block, which are in range of nothing. */
  function StrayIssues(f: LogStep, strays: seq<Log>): seq<Issue> {
    if strays == [] then [] else StrayIssues(f, strays[..|strays| - 1]) + f(strays[|strays| - 1], false, None).issues
  }

  function BlocklessIssues(issues: seq<Issue>): seq<Issue> {
    if issues == [] then []
    else BlocklessIssues(issues[..|issues| - 1]) + (if issues[|issues| - 1].block.None? then [issues[|issues| - 1]] else [])
  }

  /** Events and issues that, block by block, are what that block's logs decode to. */
  ghost predicate DecodedBlocks(f: LogStep, p: Provider, groups: seq<QueryGroup>, lo: int, hi: int,
                                events: seq<Event>, issues: seq<Issue>) {
    && (forall e :: e in events ==> lo <= e.block <= hi)
    && (forall i :: i in issues && i.block.Some? ==> lo <= i.block.value <= hi)
    && (forall b :: lo <= b <= hi ==> DecodedBlock(f, BlockLogs(p, groups, b), b, events, issues))
    && StraysDecoded(f, Blockless(GroupLogs(p, groups, lo, hi)), issues)
  }

  /** How often an issue occurs. */
  function Count(issues: seq<Issue>, x: Issue): nat {
    if issues == [] then 0 else Count(issues[..|issues| - 1], x) + if issues[|issues| - 1] == x then 1 else 0
  }

  lemma {:induction false} CountIsMultiplicity(issues: seq<Issue>, x: Issue)
    ensures Count(issues, x) == multiset(issues)[x]
    decreases |issues|
  {
    if issues != [] {
      CountIsMultiplicity(issues[..|issues| - 1], x);
      assert issues == issues[..|issues| - 1] + [issues[|issues| - 1]];
    }
  }

  /** The issues without a block are those of the logs without one, as often. */
  ghost predicate StraysDecoded(f: LogStep, strays: seq<Log>, issues: seq<Issue>) {
    forall x: Issue :: x.block.None? ==> Count(issues, x) == Count(StrayIssues(f, strays), x)
  }

  ghost predicate DecodedBlock(f: LogStep, logs: seq<Log>, b: int, events: seq<Event>, issues: seq<Issue>) {
    var s := DecodeAll(f, logs, b, b);
    EventsAt(events, b) == EventsAt(s.events, b) && IssuesAt(issues, b) == IssuesAt(s.issues, b)
  }

  lemma {:induction false} DecodedWithin(f: LogStep, logs: seq<Log>, lo: int, hi: int)
    requires StaysInBlock(f) && BlocksWithin(logs, lo, hi)
    ensures forall e :: e in DecodeAll(f, logs, lo, hi).events ==> lo <= e.block <= hi
    ensures forall i :: i in DecodeAll(f, logs, lo, hi).issues && i.block.Some? ==> lo <= i.block.value <= hi
    decreases |logs|
  {
    if logs != [] {
      DecodedWithin(f, logs[..|logs| - 1], lo, hi);
      var log, s := logs[|logs| - 1], DecodeAll(f, logs[..|logs| - 1], lo, hi);
      var e := f(log, InRange(log, lo, hi), Cached(s.times, log.block));
      assert InBlockOf(log, e);
    }
  }

  lemma {:induction false} BlocklessIssuesAdd(issues: seq<Issue>, more: seq<Issue>)
    requires |more| <= 1
    ensures BlocklessIssues(issues + more) == BlocklessIssues(issues) + BlocklessIssues(more)
  {
    if more == [] {
      assert issues + more == issues;
    } else {
      assert (issues + more)[..|issues|] == issues && more[..0] == [];
    }
  }

  /** An effect's issues have a block exactly when its log has. */
  lemma EffectBlockless(f: LogStep, log: Log, inRange: bool, cached: Option<int>)
    requires StaysInBlock(f)
    ensures var e := f(log, inRange, cached);
      |e.issues| <= 1 && BlocklessIssues(e.issues) == if log.block.None? then e.issues else []
  {
    var e := f(log, inRange, cached);
    assert InBlockOf(log, e);
    if e.issues != [] { assert e.issues[..0] == [] && e.issues[0] in e.issues; }
  }

  lemma StrayDecodes(f: LogStep, s: State, strays: seq<Log>, log: Log, lo: int, hi: int)
    requires StaysInBlock(f) && BlocklessIssues(s.issues) == StrayIssues(f, strays)
    ensures BlocklessIssues(DecodeOne(f, s, log, lo, hi).issues)
         == StrayIssues(f, if log.block.None? then strays + [log] else strays)
  {
    var e := f(log, InRange(log, lo, hi), Cached(s.times, log.block));
    EffectBlockless(f, log, InRange(log, lo, hi), Cached(s.times, log.block));
    BlocklessIssuesAdd(s.issues, e.issues);
    StrayAppends(f, strays, log);
  }

  /** The issues without a block are those of the logs without one. */
  lemma {:induction false} DecodeStrays(f: LogStep, logs: seq<Log>, lo: int, hi: int)
    requires StaysInBlock(f)
    ensures BlocklessIssues(DecodeAll(f, logs, lo, hi).issues) == StrayIssues(f, Blockless(logs))
    decreases |logs|
  {
    if logs != [] {
      var front, log := logs[..|logs| - 1], logs[|logs| - 1];
      DecodeStrays(f, front, lo, hi);
      StrayDecodes(f, DecodeAll(f, front, lo, hi), Blockless(front), log, lo, hi);
      assert Blockless(logs) == if log.block.None? then Blockless(front) + [log] else Blockless(front);
    }
  }

  lemma {:induction false} StrayAppends(f: LogStep, strays: seq<Log>, log: Log)
    ensures StrayIssues(f, strays + [log]) == StrayIssues(f, strays) + f(log, false, None).issues
  {
    assert (strays + [log])[..|strays|] == strays;
  }

  lemma {:induction false} StrayIssuesConcat(f: LogStep, a: seq<Log>, c: seq<Log>)
    ensures StrayIssues(f, a + c) == StrayIssues(f, a) + StrayIssues(f, c)
    decreases |c|
  {
    if c == [] {
      assert a + c == a;
    } else {
      assert (a + c)[..|a + c| - 1] == a + c[..|c| - 1];
      StrayIssuesConcat(f, a, c[..|c| - 1]);
    }
  }

  lemma {:induction false} StrayIssuesByStep(f: LogStep, g: LogStep, strays: seq<Log>)
    requires forall log: Log :: g(log, true, None) == f(log, false, None)
    ensures StrayIssues(f, strays) == IssuesOf(g, strays)
    decreases |strays|
  {
    if strays != [] { StrayIssuesByStep(f, g, strays[..|strays| - 1]); }
  }

  lemma {:induction false} StrayOrderIsForgotten(f: LogStep, a: seq<Log>, c: seq<Log>)
    requires multiset(a) == multiset(c)
    ensures multiset(StrayIssues(f, a)) == multiset(StrayIssues(f, c))
  {
    var g: LogStep := (log: Log, inRange: bool, cached: Option<int>) => f(log, false, None);
    StrayIssuesByStep(f, g, a);
    StrayIssuesByStep(f, g, c);
    OrderIsForgotten(g, a, c);
  }

  lemma {:induction false} DecodedStrays(f: LogStep, logs: seq<Log>, lo: int, hi: int, strays: seq<Log>)
    requires StaysInBlock(f) && multiset(Blockless(logs)) == multiset(strays)
    ensures StraysDecoded(f, strays, DecodeAll(f, logs, lo, hi).issues)
  {
    var issues := DecodeAll(f, logs, lo, hi).issues;
    DecodeStrays(f, logs, lo, hi);
    StrayOrderIsForgotten(f, Blockless(logs), strays);
    forall x: Issue | x.block.None? ensures Count(issues, x) == Count(StrayIssues(f, strays), x) {
      BlocklessCount(issues, x);
      CountIsMultiplicity(issues, x);
      CountIsMultiplicity(StrayIssues(f, strays), x);
    }
  }

  lemma {:induction false} NothingElsewhere(events: seq<Event>, issues: seq<Issue>, b: int)
    requires forall e :: e in events ==> e.block != b
    requires forall i :: i in issues ==> i.block != Some(b)
    ensures EventsAt(events, b) == [] && IssuesAt(issues, b) == []
    decreases |events| + |issues|
  {
    if events != [] {
      assert events[|events| - 1] in events;
      NothingElsewhere(events[..|events| - 1], issues, b);
    } else if issues != [] {
      assert issues[|issues| - 1] in issues;
      NothingElsewhere(events, issues[..|issues| - 1], b);
    }
  }

  lemma {:induction false} HeldBlockDecodes(f: LogStep, logs: seq<Log>, own: seq<Log>, lo: int, hi: int, b: int)
    requires StaysInBlock(f) && lo <= b <= hi && LogsAt(logs, b) == LogsAt(own, b)
    ensures var s := DecodeAll(f, logs, lo, hi); DecodedBlock(f, own, b, s.events, s.issues)
  {
    DecodeIsPerBlock(f, logs, lo, hi, b);
    DecodeIsPerBlock(f, own, b, b, b);
  }

  /** Decoding a complete fetch decodes every block as if it were read alone. */
  lemma {:induction false} DecodeHeldBlocks(f: LogStep, p: Provider, groups: seq<QueryGroup>, logs: seq<Log>, lo: int, hi: int)
    requires StaysInBlock(f) && HoldsBlocks(logs, p, groups, lo, hi)
    ensures var s := DecodeAll(f, logs, lo, hi); DecodedBlocks(f, p, groups, lo, hi, s.events, s.issues)
  {
    var s := DecodeAll(f, logs, lo, hi);
    DecodedWithin(f, logs, lo, hi);
    DecodedStrays(f, logs, lo, hi, Blockless(GroupLogs(p, groups, lo, hi)));
    forall b | lo <= b <= hi ensures DecodedBlock(f, BlockLogs(p, groups, b), b, s.events, s.issues) {
      HeldBlockDecodes(f, logs, BlockLogs(p, groups, b), lo, hi, b);
    }
  }

  lemma {:induction false} EventsAtConcat(a: seq<Event>, c: seq<Event>, b: int)
    ensures EventsAt(a + c, b) == EventsAt(a, b) + EventsAt(c, b)
    decreases |c|
  {
    if c == [] {
      assert a + c == a;
    } else {
      assert (a + c)[..|a + c| - 1] == a + c[..|c| - 1];
      EventsAtConcat(a, c[..|c| - 1], b);
    }
  }

  lemma {:induction false} IssuesAtConcat(a: seq<Issue>, c: seq<Issue>, b: int)
    ensures IssuesAt(a + c, b) == IssuesAt(a, b) + IssuesAt(c, b)
    decreases |c|
  {
    if c == [] {
      assert a + c == a;
    } else {
      assert (a + c)[..|a + c| - 1] == a + c[..|c| - 1];
      IssuesAtConcat(a, c[..|c| - 1], b);
    }
  }

  lemma {:induction false} CountConcat(a: seq<Issue>, c: seq<Issue>, x: Issue)
    ensures Count(a + c, x) == Count(a, x) + Count(c, x)
  {
    CountIsMultiplicity(a, x);
    CountIsMultiplicity(c, x);
    CountIsMultiplicity(a + c, x);
  }

  lemma StraysDecodedConcat(f: LogStep, s1: seq<Log>, i1: seq<Issue>, s2: seq<Log>, i2: seq<Issue>)
    requires StraysDecoded(f, s1, i1) && StraysDecoded(f, s2, i2)
    ensures StraysDecoded(f, s1 + s2, i1 + i2)
  {
    StrayIssuesConcat(f, s1, s2);
    forall x: Issue | x.block.None? ensures Count(i1 + i2, x) == Count(StrayIssues(f, s1 + s2), x) {
      CountConcat(i1, i2, x);
      CountConcat(StrayIssues(f, s1), StrayIssues(f, s2), x);
    }
  }

  lemma StraysReordered(f: LogStep, a: seq<Log>, c: seq<Log>, issues: seq<Issue>)
    requires StraysDecoded(f, a, issues) && multiset(a) == multiset(c)
    ensures StraysDecoded(f, c, issues)
  {
    StrayOrderIsForgotten(f, a, c);
    forall x: Issue | x.block.None? ensures Count(issues, x) == Count(StrayIssues(f, c), x) {
      CountIsMultiplicity(StrayIssues(f, a), x);
      CountIsMultiplicity(StrayIssues(f, c), x);
    }
  }

  /** What a complete decoding holds of one block. */
  lemma {:induction false} BlockOfDecoding(f: LogStep, p: Provider, groups: seq<QueryGroup>, lo: int, hi: int, events: seq<Event>, issues: seq<Issue>, b: int)
    requires DecodedBlocks(f, p, groups, lo, hi, events, issues)
    ensures lo <= b <= hi ==> DecodedBlock(f, BlockLogs(p, groups, b), b, events, issues)
    ensures !(lo <= b <= hi) ==> EventsAt(events, b) == [] && IssuesAt(issues, b) == []
  {
    if !(lo <= b <= hi) { NothingElsewhere(events, issues, b); }
  }

  lemma {:induction false} BlockConcat(f: LogStep, p: Provider, groups: seq<QueryGroup>, lo: int, mid: int, hi: int,
                    e1: seq<Event>, i1: seq<Issue>, e2: seq<Event>, i2: seq<Issue>, b: int)
    requires DecodedBlocks(f, p, groups, lo, mid, e1, i1) && DecodedBlocks(f, p, groups, mid + 1, hi, e2, i2) && lo <= b <= hi
    ensures DecodedBlock(f, BlockLogs(p, groups, b), b, e1 + e2, i1 + i2)
  {
    EventsAtConcat(e1, e2, b);
    IssuesAtConcat(i1, i2, b);
    BlockOfDecoding(f, p, groups, lo, mid, e1, i1, b);
    BlockOfDecoding(f, p, groups, mid + 1, hi, e2, i2, b);
  }

  lemma DecodedBlocksConcat(f: LogStep, p: Provider, groups: seq<QueryGroup>, lo: int, mid: int, hi: int,
                            e1: seq<Event>, i1: seq<Issue>, e2: seq<Event>, i2: seq<Issue>)
    requires DecodedBlocks(f, p, groups, lo, mid, e1, i1) && DecodedBlocks(f, p, groups, mid + 1, hi, e2, i2)
    requires lo <= mid + 1 <= hi + 1
    ensures DecodedBlocks(f, p, groups, lo, hi, e1 + e2, i1 + i2)
  {
    forall b | lo <= b <= hi ensures DecodedBlock(f, BlockLogs(p, groups, b), b, e1 + e2, i1 + i2) {
      BlockConcat(f, p, groups, lo, mid, hi, e1, i1, e2, i2, b);
    }
    var s1, s2 := Blockless(GroupLogs(p, groups, lo, mid)), Blockless(GroupLogs(p, groups, mid + 1, hi));
    GroupStraysSplit(p, groups, lo, mid, hi);
    StraysDecodedConcat(f, s1, i1, s2, i2);
    StraysReordered(f, s1 + s2, Blockless(GroupLogs(p, groups, lo, hi)), i1 + i2);
  }

  /** Two event lists with the same events in every block, in the same order within it. */
  ghost predicate SameBlocks(a: seq<Event>, c: seq<Event>) {
    forall b :: EventsAt(a, b) == EventsAt(c, b)
  }

  lemma {:induction false} InBlock(events: seq<Event>, e: Event, b: int)
    ensures e in EventsAt(events, b) <==> e in events && e.block == b
    decreases |events|
  {
    if events != [] {
      assert events == events[..|events| - 1] + [events[|events| - 1]];
      InBlock(events[..|events| - 1], e, b);
    }
  }

  lemma ConsistentByMembers(a: seq<Event>, c: seq<Event>)
    requires Consistent(a) && forall e :: e in c ==> e in a
    ensures Consistent(c)
  {
    forall i, j | 0 <= i < |c| && 0 <= j < |c| && c[i].key == c[j].key ensures SameEvent(c[i], c[j]) {
      assert c[i] in c && c[j] in c;
      var k :| 0 <= k < |a| && a[k] == c[i];
      var m :| 0 <= m < |a| && a[m] == c[j];
    }
  }

  /** Without conflicts, copies of a key share a block, so its first copy is first in the block. */
  lemma {:induction false} FirstIsFirstInBlock(events: seq<Event>, e: Event)
    requires Consistent(events)
    ensures IsFirst(events, e) <==> IsFirst(EventsAt(events, e.block), e)
    decreases |events|
  {
    if events != [] {
      var front, x := events[..|events| - 1], events[|events| - 1];
      assert events == front + [x];
      ConsistentByMembers(events, front);
      FirstIsFirstInBlock(front, e);
      FirstAfterAppend(front, x);
      if x.block != e.block {
        assert EventsAt(events, e.block) == EventsAt(front, e.block);
      } else {
        assert EventsAt(events, e.block) == EventsAt(front, e.block) + [x];
        FirstAfterAppend(EventsAt(front, e.block), x);
        forall y | y in front && y.key == x.key ensures y in EventsAt(front, x.block) {
          var k :| 0 <= k < |front| && front[k] == y;
          assert events[k] == y && SameEvent(events[k], events[|front|]);
          InBlock(front, y, x.block);
        }
        forall y | y in EventsAt(front, x.block) ensures y in front {
          InBlock(front, y, x.block);
        }
      }
    }
  }

  /** The merged result depends only on what each block decoded to. */
  lemma SameBlocksSameResult(a: seq<Event>, c: seq<Event>)
    requires SameBlocks(a, c)
    ensures Consistent(a) <==> Consistent(c)
    ensures Consistent(a) ==> forall r :: IsCanonical(r, a) <==> IsCanonical(r, c)
  {
    forall e ensures e in a <==> e in c {
      InBlock(a, e, e.block);
      InBlock(c, e, e.block);
    }
    if Consistent(a) { ConsistentByMembers(a, c); }
    if Consistent(c) { ConsistentByMembers(c, a); }
    if Consistent(a) {
      forall e ensures IsFirst(a, e) <==> IsFirst(c, e) {
        FirstIsFirstInBlock(a, e);
        FirstIsFirstInBlock(c, e);
      }
    }
  }

  lemma {:induction false} IssueCount(issues: seq<Issue>, i: Issue, b: int)
    requires i.block == Some(b)
    ensures multiset(issues)[i] == multiset(IssuesAt(issues, b))[i]
    decreases |issues|
  {
    if issues != [] {
      var front, x := issues[..|issues| - 1], issues[|issues| - 1];
      assert issues == front + [x];
      IssueCount(front, i, b);
    }
  }

  lemma {:induction false} BlocklessCount(issues: seq<Issue>, i: Issue)
    ensures multiset(BlocklessIssues(issues))[i] == if i.block.None? then multiset(issues)[i] else 0
    decreases |issues|
  {
    if issues != [] {
      var front, x := issues[..|issues| - 1], issues[|issues| - 1];
      assert issues == front + [x];
      BlocklessCount(front, i);
    }
  }

  datatype GroupCapture = GroupCapture(
    leaves: seq<BlockRange>, events: seq<Event>, issues: seq<Issue>, logicalRanges: nat, queryRequests: nat, splits: nat)

  /** The loop state of a capture: `raw` is every event decoded so far, before merging. */
  ghost predicate CapturedGroups(d: Decoder, p: Provider, groups: seq<QueryGroup>, start: int, next: int,
                                 raw: seq<Event>, c: GroupCapture) {
    && Tiles(c.leaves, start, next - 1)
    && DecodedBlocks(StepOf(d), p, groups, start, next - 1, raw, c.issues)
    && Consistent(raw)
    && IsCanonical(c.events, raw)
  }

  lemma CapturedIsConsistent(d: Decoder, p: Provider, groups: seq<QueryGroup>, start: int, next: int, raw: seq<Event>, c: GroupCapture)
    requires CapturedGroups(d, p, groups, start, next, raw, c)
    ensures !Conflicting(raw)
  {
    ConflictingIff(raw);
  }

  lemma NothingCaptured(d: Decoder, p: Provider, groups: seq<QueryGroup>, start: int, next: int, raw: seq<Event>, c: GroupCapture)
    requires next == start && raw == [] && c == GroupCapture([], [], [], 0, 0, 0)
    ensures CapturedGroups(d, p, groups, start, next, raw, c)
  {
    assert forall e :: !IsFirst(raw, e);
    NoBlocksNoLogs(p, groups, start, next - 1);
  }

  /** A decoded chunk extends what was decoded before it. */
  lemma {:induction false} ChunkExtends(d: Decoder, p: Provider, groups: seq<QueryGroup>, start: int, next: int, end: int,
                     raw: seq<Event>, c: GroupCapture, logs: seq<Log>)
    requires WellBuilt(d) && start <= next <= end && CapturedGroups(d, p, groups, start, next, raw, c)
    requires HoldsBlocks(logs, p, groups, next, end)
    ensures var s := DecodeAll(StepOf(d), logs, next, end);
      DecodedBlocks(StepOf(d), p, groups, start, end, raw + s.events, c.issues + s.issues)
  {
    var s := DecodeAll(StepOf(d), logs, next, end);
    DecoderSteps(d);
    DecodeHeldBlocks(StepOf(d), p, groups, logs, next, end);
    DecodedBlocksConcat(StepOf(d), p, groups, start, next - 1, end, raw, c.issues, s.events, s.issues);
  }

  datatype RecoveryError = Incomplete(error: CompleteError) | Conflict(key: EventKey)

  /** Every complete decoding of the interval, under any schedule, has two copies of a key that differ. */
  ghost predicate ConflictsEverywhere(d: Decoder, p: Provider, groups: seq<QueryGroup>, start: int, end: int) {
    forall raw, issues :: DecodedBlocks(StepOf(d), p, groups, start, end, raw, issues) ==> Conflicting(raw)
  }

  ghost predicate ChunkGaveUp(chunk: BlockRange, error: CompleteError, fails: BlockRange -> QueryFailures, groups: seq<QueryGroup>,
                              request: BlockRange, chunkSize: int, minimum: int, maxAttempts: int) {
    Inside(chunk, request) && chunk.Size() <= chunkSize && GaveUpOn(error, fails(chunk), groups, chunk, minimum, maxAttempts)
  }

  /** The limits are unusable, or some chunk of the interval could not be fetched within them. */
  ghost predicate StoppedByProvider(error: CompleteError, fails: BlockRange -> QueryFailures, groups: seq<QueryGroup>,
                                    request: BlockRange, chunkSize: int, minimum: int, maxAttempts: int) {
    if minimum <= 0 || maxAttempts <= 0 then error == InvalidLimits
    else exists chunk :: ChunkGaveUp(chunk, error, fails, groups, request, chunkSize, minimum, maxAttempts)
  }

  /** Why a capture stops: every schedule finds the conflict, or the provider or the limits stopped it. */
  ghost predicate StopsFor(e: RecoveryError, d: Decoder, p: Provider, fails: BlockRange -> QueryFailures, groups: seq<QueryGroup>,
                           request: BlockRange, chunkSize: int, minimum: int, maxAttempts: int) {
    match e
    case Conflict(_) => ConflictsEverywhere(d, p, groups, request.start, request.end)
    case Incomplete(error) => StoppedByProvider(error, fails, groups, request, chunkSize, minimum, maxAttempts)
  }

  /** The chunk loop of `run_forward_capture` for Uniswap recovery. */
  method CaptureInterval(d: Decoder, p: Provider, fails: BlockRange -> QueryFailures, groups: seq<QueryGroup>,
                         start: int, end: int, chunkSize: int, minimumRangeSize: int, maxRangeAttempts: int)
    returns (r: Result<GroupCapture, RecoveryError>, ghost raw: seq<Event>)
    requires WellFormedProvider(p) && WellBuilt(d) && chunkSize > 0 && 0 <= start <= end
    ensures r.Success? ==> CapturedGroups(d, p, groups, start, end + 1, raw, r.value) && !Conflicting(raw)
    ensures r.Failure? ==> StopsFor(r.error, d, p, fails, groups, BlockRange(start, end), chunkSize, minimumRangeSize, maxRangeAttempts)
  {
    var c := GroupCapture([], [], [], 0, 0, 0);
    raw := [];
    var nextBlock := start;
    NothingCaptured(d, p, groups, start, nextBlock, raw, c);
    while nextBlock <= end
      invariant start <= nextBlock <= end + 1
      invariant CapturedGroups(d, p, groups, start, nextBlock, raw, c)
    {
      var failure;
      failure, c, nextBlock, raw := CaptureNext(d, p, fails, groups, start, end, nextBlock, chunkSize, minimumRangeSize, maxRangeAttempts, raw, c);
      if failure.Some? { return Failure(failure.value), raw; }
    }
    CapturedIsConsistent(d, p, groups, start, nextBlock, raw, c);
    assert nextBlock == end + 1;
    return Success(c), raw;
  }

  /** The next chunk of the interval, its failure explained in terms of the whole interval. */
  method CaptureNext(d: Decoder, p: Provider, fails: BlockRange -> QueryFailures, groups: seq<QueryGroup>, start: int, end: int,
                     nextBlock: int, chunkSize: int, minimumRangeSize: int, maxRangeAttempts: int, ghost raw: seq<Event>, c: GroupCapture)
    returns (failure: Option<RecoveryError>, c': GroupCapture, next: int, ghost raw': seq<Event>)
    requires WellFormedProvider(p) && WellBuilt(d) && chunkSize > 0 && 0 <= start <= nextBlock <= end
    requires CapturedGroups(d, p, groups, start, nextBlock, raw, c)
    ensures nextBlock < next <= end + 1
    ensures failure.None? ==> CapturedGroups(d, p, groups, start, next, raw', c')
    ensures failure.Some? ==> StopsFor(failure.value, d, p, fails, groups, BlockRange(start, end), chunkSize, minimumRangeSize, maxRangeAttempts)
  {
    var parentEnd := if end < nextBlock + chunkSize - 1 then end else nextBlock + chunkSize - 1;
    next := parentEnd + 1;
    var r;
    r, raw' := CaptureChunk(d, p, fails(BlockRange(nextBlock, parentEnd)), groups, start, nextBlock, parentEnd,
      minimumRangeSize, maxRangeAttempts, raw, c);
    if r.Success? { return None, r.value, next, raw'; }
    if r.error.Conflict? {
      ConflictSpreads(d, p, groups, start, parentEnd, end, raw');
    } else if minimumRangeSize > 0 && maxRangeAttempts > 0 {
      assert ChunkGaveUp(BlockRange(nextBlock, parentEnd), r.error.error, fails, groups, BlockRange(start, end),
          chunkSize, minimumRangeSize, maxRangeAttempts);
    }
    return Some(r.error), c, next, raw';
  }

  /** A decoded chunk is merged for itself and then into what was merged before. */
  method MergeChunk(events: seq<Event>, ghost raw: seq<Event>, merged: seq<Event>) returns (r: Result<seq<Event>, EventKey>)
    requires Consistent(raw) && IsCanonical(merged, raw)
    ensures r.Success? <==> Consistent(raw + events)
    ensures r.Success? ==> IsCanonical(r.value, raw + events)
  {
    var decoded := MergeEvents([], events);
    assert [] + events == events;
    if decoded.Failure? {
      if Consistent(raw + events) { ConsistentByMembers(raw + events, events); }
      return decoded;
    }
    PremergeKeepsConflicts(raw, events, merged, decoded.value);
    r := MergeEvents(merged, decoded.value);
    if r.Success? { PremergeKeepsCanonical(raw, events, merged, decoded.value, r.value); }
  }

  method CaptureChunk(d: Decoder, p: Provider, fails: QueryFailures, groups: seq<QueryGroup>, ghost start: int,
                      nextBlock: int, parentEnd: int, minimumRangeSize: int, maxRangeAttempts: int, ghost raw: seq<Event>, c: GroupCapture)
    returns (r: Result<GroupCapture, RecoveryError>, ghost raw': seq<Event>)
    requires WellFormedProvider(p) && WellBuilt(d) && 0 <= start <= nextBlock <= parentEnd
    requires CapturedGroups(d, p, groups, start, nextBlock, raw, c)
    ensures r.Success? ==> CapturedGroups(d, p, groups, start, parentEnd + 1, raw', r.value)
    ensures r.Failure? && r.error.Conflict? ==>
              !Consistent(raw') && exists issues :: DecodedBlocks(StepOf(d), p, groups, start, parentEnd, raw', issues)
    ensures r.Failure? && r.error.Incomplete? ==>
              if minimumRangeSize <= 0 || maxRangeAttempts <= 0 then r.error.error == InvalidLimits
              else GaveUpOn(r.error.error, fails, groups, BlockRange(nextBlock, parentEnd), minimumRangeSize, maxRangeAttempts)
  {
    raw' := raw;
    var fetched := FetchCompleteRangeAdaptive(p, fails, groups, nextBlock, parentEnd, minimumRangeSize, maxRangeAttempts);
    if fetched.Failure? {
      return Failure(Incomplete(fetched.error)), raw;
    }
    var events, issues := DecodeLogs(d, fetched.value.logs, nextBlock, parentEnd);
    ChunkExtends(d, p, groups, start, nextBlock, parentEnd, raw, c, fetched.value.logs);
    raw' := raw + events;
    var merged := MergeChunk(events, raw, c.events);
    if merged.Failure? {
      return Failure(Conflict(merged.error)), raw';
    }
    TilesConcat(c.leaves, fetched.value.completedRanges, start, nextBlock - 1, parentEnd);
    return Success(GroupCapture(c.leaves + fetched.value.completedRanges, merged.value, c.issues + issues,
      c.logicalRanges + 1, c.queryRequests + fetched.value.queryRequests, c.splits + fetched.value.splitCount)), raw';
  }

  lemma {:induction false} SameBlock(f: LogStep, p: Provider, groups: seq<QueryGroup>, start: int, end: int,
                  a: seq<Event>, i: seq<Issue>, c: seq<Event>, j: seq<Issue>, b: int)
    requires DecodedBlocks(f, p, groups, start, end, a, i) && DecodedBlocks(f, p, groups, start, end, c, j)
    ensures EventsAt(a, b) == EventsAt(c, b) && IssuesAt(i, b) == IssuesAt(j, b)
  {
    BlockOfDecoding(f, p, groups, start, end, a, i, b);
    BlockOfDecoding(f, p, groups, start, end, c, j, b);
  }

  lemma SameIssueCount(f: LogStep, p: Provider, groups: seq<QueryGroup>, start: int, end: int,
                       a: seq<Event>, i: seq<Issue>, c: seq<Event>, j: seq<Issue>, x: Issue)
    requires DecodedBlocks(f, p, groups, start, end, a, i) && DecodedBlocks(f, p, groups, start, end, c, j)
    ensures multiset(i)[x] == multiset(j)[x]
  {
    if x.block.Some? {
      SameBlock(f, p, groups, start, end, a, i, c, j, x.block.value);
      IssueCount(i, x, x.block.value);
      IssueCount(j, x, x.block.value);
    } else {
      CountIsMultiplicity(i, x);
      CountIsMultiplicity(j, x);
    }
  }

  /** Complete decodings agree block by block, so they conflict together. */
  lemma SameInterval(d: Decoder, p: Provider, groups: seq<QueryGroup>, start: int, end: int,
                     a: seq<Event>, i: seq<Issue>, c: seq<Event>, j: seq<Issue>)
    requires DecodedBlocks(StepOf(d), p, groups, start, end, a, i) && DecodedBlocks(StepOf(d), p, groups, start, end, c, j)
    ensures SameBlocks(a, c) && multiset(i) == multiset(j)
  {
    forall b ensures EventsAt(a, b) == EventsAt(c, b) { SameBlock(StepOf(d), p, groups, start, end, a, i, c, j, b); }
    forall x ensures multiset(i)[x] == multiset(j)[x] { SameIssueCount(StepOf(d), p, groups, start, end, a, i, c, j, x); }
  }

  /** A conflict in a decoded prefix of the interval appears under every schedule. */
  lemma ConflictSpreads(d: Decoder, p: Provider, groups: seq<QueryGroup>, start: int, mid: int, end: int, raw: seq<Event>)
    requires WellBuilt(d) && start <= mid <= end && !Consistent(raw)
    requires exists issues :: DecodedBlocks(StepOf(d), p, groups, start, mid, raw, issues)
    ensures ConflictsEverywhere(d, p, groups, start, end)
  {
    var f := StepOf(d);
    var issues :| DecodedBlocks(f, p, groups, start, mid, raw, issues);
    forall all, i | DecodedBlocks(f, p, groups, start, end, all, i) ensures Conflicting(all) {
      ConflictingIff(all);
      if Consistent(all) {
        forall e | e in raw ensures e in all {
          BlockOfDecoding(f, p, groups, start, mid, raw, issues, e.block);
          BlockOfDecoding(f, p, groups, start, end, all, i, e.block);
          InBlock(raw, e, e.block);
          InBlock(all, e, e.block);
        }
        ConsistentByMembers(all, raw);
      }
    }
  }

  /**
   With the same lookups, the chunk sizes, splits and failures never matter: two captures
   return the same canonical events and the same issues up to order.
   */
  lemma SameLookupsSameResult(d: Decoder, p: Provider, groups: seq<QueryGroup>, start: int, end: int,
                             rawA: seq<Event>, a: GroupCapture, rawB: seq<Event>, b: GroupCapture)
    requires CapturedGroups(d, p, groups, start, end + 1, rawA, a)
    requires CapturedGroups(d, p, groups, start, end + 1, rawB, b)
    ensures a.events == b.events && multiset(a.issues) == multiset(b.issues)
  {
    SameInterval(d, p, groups, start, end, rawA, a.issues, rawB, b.issues);
    SameBlocksSameResult(rawA, rawB);
    CanonicalUnique(a.events, b.events, rawA);
  }

  /** A schedule that completes and one that reports a conflict cannot both exist. */
  lemma ConflictsAreScheduleIndependent(d: Decoder, p: Provider, groups: seq<QueryGroup>, start: int, end: int,
                                        raw: seq<Event>, c: GroupCapture)
    requires CapturedGroups(d, p, groups, start, end + 1, raw, c)
    ensures !ConflictsEverywhere(d, p, groups, start, end)
  {
    assert DecodedBlocks(StepOf(d), p, groups, start, end, raw, c.issues);
    ConflictingIff(raw);
  }
}
