/** The bisecting fetch over an explicit stack. */
module AdaptiveFetch {
  // Bisecting range fetch (backfill/aave_v3.py, `fetch_event_logs_adaptive`). The provider
  // either fails or returns exactly the logs of the range in block order.

  import opened Wrappers
  import opened Sorting
  import opened BlockRanges

  /** The logs a provider holds for each block, in block order. */
  type Chain<T> = int -> seq<T>

  ghost function LogsIn<T>(chain: Chain<T>, lo: int, hi: int): seq<T>
    decreases hi - lo
  {
    if lo > hi then [] else LogsIn(chain, lo, hi - 1) + chain(hi)
  }

  lemma {:induction false} LogsSplit<T>(chain: Chain<T>, lo: int, mid: int, hi: int)
    requires lo <= mid + 1 <= hi + 1
    ensures LogsIn(chain, lo, mid) + LogsIn(chain, mid + 1, hi) == LogsIn(chain, lo, hi)
    decreases hi - mid
  {
    if mid == hi {
      assert LogsIn(chain, lo, mid) + [] == LogsIn(chain, lo, mid);
    } else {
      LogsSplit(chain, lo, mid, hi - 1);
      assert LogsIn(chain, lo, mid) + (LogsIn(chain, mid + 1, hi - 1) + chain(hi))
          == (LogsIn(chain, lo, mid) + LogsIn(chain, mid + 1, hi - 1)) + chain(hi);
    }
  }

  /** `AdaptiveRangePolicy`; its constructor enforces `Valid`. */
  datatype Policy = Policy(minimumRangeSize: int, maximumRangeSize: int, maxRangeAttempts: int) {
    predicate Valid() { 0 < minimumRangeSize <= maximumRangeSize && 0 < maxRangeAttempts }
  }

  datatype FetchError =
    | InvalidRange
    | ExceedsMaximum
    | BudgetExhausted(range: BlockRange, attempts: nat)
    | MinimumFailed(range: BlockRange, attempts: nat)

  datatype Fetched<T> = Fetched(
    completedRanges: seq<BlockRange>, logs: seq<T>, rangeAttempts: nat, splitCount: nat)

  /** The pending stack read from its top: consecutive ranges from `lo` through `hi`. */
  ghost predicate StackTiles(pending: seq<BlockRange>, lo: int, hi: int) {
    if pending == [] then lo == hi + 1
    else
      && pending[|pending| - 1].start == lo
      && pending[0].end == hi
      && (forall i :: 0 <= i < |pending| ==> pending[i].start <= pending[i].end)
      && (forall i :: 0 < i < |pending| ==> pending[i].end + 1 == pending[i - 1].start)
  }

  /** Popping the top of the stack leaves the rest tiling what follows it. */
  lemma StackPop(pending: seq<BlockRange>, lo: int, hi: int)
    requires pending != [] && StackTiles(pending, lo, hi)
    ensures var top := pending[|pending| - 1];
      top.start == lo <= top.end <= hi && StackTiles(pending[..|pending| - 1], top.end + 1, hi)
  {
    StackTop(pending, lo, hi);
  }

  lemma {:induction false} StackTop(pending: seq<BlockRange>, lo: int, hi: int)
    requires pending != [] && StackTiles(pending, lo, hi)
    ensures pending[|pending| - 1].end <= hi
    decreases |pending|
  {
    if |pending| > 1 {
      var rest := pending[..|pending| - 1];
      assert StackTiles(rest, rest[|rest| - 1].start, hi);
      StackTop(rest, rest[|rest| - 1].start, hi);
    }
  }

  /** Termination measure: one attempt per leaf and split of every pending range at worst. */
  ghost function Work(pending: seq<BlockRange>): int {
    if pending == [] then 0
    else 2 * pending[|pending| - 1].Size() - 1 + Work(pending[..|pending| - 1])
  }

  lemma {:induction false} WorkIsNatural(pending: seq<BlockRange>)
    requires forall i :: 0 <= i < |pending| ==> pending[i].start <= pending[i].end
    ensures Work(pending) >= |pending|
  {
    if pending != [] { WorkIsNatural(pending[..|pending| - 1]); }
  }

  /** No split produces a piece smaller than half the minimum range size, rounded up. */
  function PieceSize(minimumRangeSize: int): int { (minimumRangeSize + 1) / 2 }

  /** An attempt budget that no failure pattern can exhaust. */
  function SufficientBudget(size: int, minimumRangeSize: int): int {
    var most := if minimumRangeSize > 0 then size / PieceSize(minimumRangeSize) else 0;
    if 2 * most - 1 > 1 then 2 * most - 1 else 1
  }

  /** `n` disjoint pieces of size at least `q` need `n * q` blocks. */
  lemma {:induction false} TilesNeedRoom(rs: seq<BlockRange>, lo: int, hi: int, q: int)
    requires Tiles(rs, lo, hi)
    requires forall i :: 0 <= i < |rs| ==> rs[i].Size() >= q
    ensures |rs| * q <= hi - lo + 1
    decreases |rs|
  {
    if rs != [] {
      var front, last := rs[..|rs| - 1], rs[|rs| - 1];
      TilesNeedRoom(front, lo, last.start - 1, q);
      assert |rs| * q == |front| * q + q;
    }
  }

  lemma {:induction false} StackNeedsRoom(pending: seq<BlockRange>, lo: int, hi: int, q: int)
    requires StackTiles(pending, lo, hi)
    requires forall i :: 0 <= i < |pending| ==> pending[i].Size() >= q
    ensures |pending| * q <= hi - lo + 1
    decreases |pending|
  {
    if pending != [] {
      var rest, top := pending[..|pending| - 1], pending[|pending| - 1];
      StackPop(pending, lo, hi);
      StackNeedsRoom(rest, top.end + 1, hi, q);
      assert |pending| * q == |rest| * q + q;
    }
  }

  lemma QuotientBound(pieces: int, q: int, size: int)
    requires q > 0 && pieces * q <= size
    ensures pieces <= size / q
  {
    var d := size / q;
    assert size == d * q + size % q;
    assert (d + 1) * q == d * q + q;
  }

  /** Counters and pieces of the loop: leaves and pending ranges tile the request. */
  ghost predicate Walk(start: int, end: int, next: int, minimum: int,
                       pending: seq<BlockRange>, completed: seq<BlockRange>, attempts: nat, splits: nat) {
    && start <= next
    && Tiles(completed, start, next - 1)
    && StackTiles(pending, next, end)
    && attempts == |completed| + splits
    && |completed| + |pending| == splits + 1
    && (splits > 0 ==>
          && (forall i :: 0 <= i < |pending| ==> pending[i].Size() >= PieceSize(minimum))
          && (forall i :: 0 <= i < |completed| ==> completed[i].Size() >= PieceSize(minimum)))
  }

  /** While anything is pending, fewer attempts than the sufficient budget were made. */
  lemma BudgetSuffices(start: int, end: int, next: int, minimum: int,
                       pending: seq<BlockRange>, completed: seq<BlockRange>, attempts: nat, splits: nat)
    requires minimum > 0 && pending != []
    requires Walk(start, end, next, minimum, pending, completed, attempts, splits)
    ensures attempts < SufficientBudget(end - start + 1, minimum)
  {
    if splits > 0 {
      var q := PieceSize(minimum);
      TilesNeedRoom(completed, start, next - 1, q);
      StackNeedsRoom(pending, next, end, q);
      assert (|completed| + |pending|) * q == |completed| * q + |pending| * q;
      QuotientBound(splits + 1, q, end - start + 1);
    }
  }

  /** A finished pop appends the range as the next leaf. */
  lemma WalkLeaf(start: int, end: int, next: int, minimum: int,
                 pending: seq<BlockRange>, completed: seq<BlockRange>, attempts: nat, splits: nat)
    requires pending != [] && Walk(start, end, next, minimum, pending, completed, attempts, splits)
    ensures var rest, top := pending[..|pending| - 1], pending[|pending| - 1];
      && Walk(start, end, top.end + 1, minimum, rest, completed + [top], attempts + 1, splits)
      && 0 <= Work(rest) < Work(pending)
      && top.start == next <= top.end <= end
  {
    var rest, top := pending[..|pending| - 1], pending[|pending| - 1];
    StackPop(pending, next, end);
    TilesConcat(completed, [top], start, next - 1, top.end);
    WorkIsNatural(rest);
  }

  /** The two halves of a range, in the order they are pushed. */
  function Halves(range: BlockRange): seq<BlockRange> {
    var midpoint := (range.start + range.end) / 2;
    [BlockRange(midpoint + 1, range.end), BlockRange(range.start, midpoint)]
  }

  lemma {:induction false} WorkOfHalves(rest: seq<BlockRange>, top: BlockRange)
    requires forall i :: 0 <= i < |rest| ==> rest[i].start <= rest[i].end
    requires top.Size() > 1
    ensures 0 <= Work(rest + Halves(top)) < Work(rest + [top])
  {
    var right, left := Halves(top)[0], Halves(top)[1];
    assert rest + Halves(top) == (rest + [right]) + [left];
    WorkIsNatural(rest);
  }

  /** Bisecting the popped range pushes its halves back without losing a block. */
  lemma WalkSplit(start: int, end: int, next: int, minimum: int,
                  pending: seq<BlockRange>, completed: seq<BlockRange>, attempts: nat, splits: nat)
    requires pending != [] && Walk(start, end, next, minimum, pending, completed, attempts, splits)
    requires pending[|pending| - 1].Size() > minimum > 0
    ensures var pushed := pending[..|pending| - 1] + Halves(pending[|pending| - 1]);
      && Walk(start, end, next, minimum, pushed, completed, attempts + 1, splits + 1)
      && 0 <= Work(pushed) < Work(pending)
  {
    var rest, top := pending[..|pending| - 1], pending[|pending| - 1];
    var pushed := rest + Halves(top);
    assert pending == rest + [top];
    WorkOfHalves(rest, top);
    forall i | 0 <= i < |pushed| ensures pushed[i].Size() >= PieceSize(minimum) {
      if i < |rest| {
        assert pushed[i] == pending[i];
        assert splits > 0;
      } else {
        assert pushed[i] == Halves(top)[i - |rest|];
      }
    }
  }

  /** The variables of the fetch loop. */
  datatype Loop<T> = Loop(
    pending: seq<BlockRange>, completed: seq<BlockRange>, logs: seq<T>, attempts: nat, splits: nat)

  ghost predicate Progress<T(!new)>(chain: Chain<T>, start: int, end: int, next: int, policy: Policy, loop: Loop<T>) {
    && Walk(start, end, next, policy.minimumRangeSize, loop.pending, loop.completed, loop.attempts, loop.splits)
    && loop.logs == LogsIn(chain, start, next - 1)
    && loop.attempts <= policy.maxRangeAttempts
  }

  /** A complete fetch: an ascending tiling of the request with exactly its logs. */
  ghost predicate Complete<T(!new)>(chain: Chain<T>, start: int, end: int, policy: Policy, f: Fetched<T>) {
    && Tiles(f.completedRanges, start, end)
    && f.logs == LogsIn(chain, start, end)
    && |f.completedRanges| == f.splitCount + 1
    && f.rangeAttempts == 2 * f.splitCount + 1 <= policy.maxRangeAttempts
  }

  /**
   A fetch gives up only on a range the provider refused at minimum size, or when the
   attempt budget ends, which cannot happen with a sufficient budget.
   */
  ghost predicate GaveUp(error: FetchError, fails: (nat, BlockRange) -> bool, start: int, end: int, policy: Policy) {
    match error
    case MinimumFailed(range, attempts) =>
      && start <= range.start <= range.end <= end
      && range.end - range.start + 1 <= policy.minimumRangeSize
      && fails(attempts, range)
    case BudgetExhausted(range, attempts) =>
      attempts == policy.maxRangeAttempts < SufficientBudget(end - start + 1, policy.minimumRangeSize)
    case _ => false
  }

  method FetchEventLogsAdaptive<T(!new)>(chain: Chain<T>, fails: (nat, BlockRange) -> bool, start: int, end: int, policy: Policy)
    returns (r: Result<Fetched<T>, FetchError>)
    requires 0 < policy.minimumRangeSize <= policy.maximumRangeSize && 0 < policy.maxRangeAttempts
    ensures !(0 <= start <= end) ==> r == Failure(InvalidRange)
    ensures 0 <= start <= end && end - start + 1 > policy.maximumRangeSize ==>
              r == Failure(ExceedsMaximum)
    ensures 0 <= start <= end && end - start + 1 <= policy.maximumRangeSize ==>
              match r
              case Success(f) => Complete(chain, start, end, policy, f)
              case Failure(e) => GaveUp(e, fails, start, end, policy)
  {
    var requested := BlockRange(start, end);
    if !requested.Valid() {
      return Failure(InvalidRange);
    }
    if requested.Size() > policy.maximumRangeSize {
      return Failure(ExceedsMaximum);
    }
    r := FetchValidRange(chain, fails, requested, policy);
  }

  /** An empty stack means the leaves tile the request in order: the final sort changes nothing. */
  lemma EmptyStackCompletes<T(!new)>(chain: Chain<T>, start: int, end: int, next: int, policy: Policy, loop: Loop<T>)
    requires Progress(chain, start, end, next, policy, loop) && loop.pending == []
    ensures Complete(chain, start, end, policy, Fetched(Sort(loop.completed, RangeLe), loop.logs, loop.attempts, loop.splits))
  {
    TilesAreSorted(loop.completed, start, end);
  }

  /** The two branches that raise. */
  lemma RaisingGivesUp<T(!new)>(chain: Chain<T>, fails: (nat, BlockRange) -> bool, start: int, end: int, next: int, policy: Policy, loop: Loop<T>)
    requires policy.Valid() && loop.pending != [] && Progress(chain, start, end, next, policy, loop)
    ensures var current := loop.pending[|loop.pending| - 1];
      && (loop.attempts >= policy.maxRangeAttempts ==> GaveUp(BudgetExhausted(current, loop.attempts), fails, start, end, policy))
      && (fails(loop.attempts + 1, current) && current.end - current.start + 1 <= policy.minimumRangeSize ==>
            GaveUp(MinimumFailed(current, loop.attempts + 1), fails, start, end, policy))
  {
    StackTop(loop.pending, next, end);
    if loop.attempts >= policy.maxRangeAttempts {
      BudgetSuffices(start, end, next, policy.minimumRangeSize, loop.pending, loop.completed, loop.attempts, loop.splits);
    }
  }

  method FetchValidRange<T(!new)>(chain: Chain<T>, fails: (nat, BlockRange) -> bool, requested: BlockRange, policy: Policy)
    returns (r: Result<Fetched<T>, FetchError>)
    requires policy.Valid() && requested.Valid()
    ensures match r
            case Success(f) => Complete(chain, requested.start, requested.end, policy, f)
            case Failure(e) => GaveUp(e, fails, requested.start, requested.end, policy)
  {
    var loop := Loop([requested], [], [], 0, 0);
    ghost var next := requested.start;
    while loop.pending != []
      invariant Progress(chain, requested.start, requested.end, next, policy, loop)
      decreases Work(loop.pending)
    {
      var current := loop.pending[|loop.pending| - 1];
      RaisingGivesUp(chain, fails, requested.start, requested.end, next, policy, loop);
      if loop.attempts >= policy.maxRangeAttempts {
        return Failure(BudgetExhausted(current, loop.attempts));
      }
      if fails(loop.attempts + 1, current) {
        if current.Size() <= policy.minimumRangeSize {
          return Failure(MinimumFailed(current, loop.attempts + 1));
        }
        loop := SplitTop(chain, requested.start, requested.end, next, policy, loop);
      } else {
        loop, next := KeepTop(chain, requested.start, requested.end, next, policy, loop);
      }
    }
    EmptyStackCompletes(chain, requested.start, requested.end, next, policy, loop);
    return Success(Fetched(Sort(loop.completed, RangeLe), loop.logs, loop.attempts, loop.splits));
  }

  /** The exception branch: push the halves, lower one on top. */
  method SplitTop<T(!new)>(ghost chain: Chain<T>, ghost start: int, ghost end: int, ghost next: int, policy: Policy, loop: Loop<T>)
    returns (after: Loop<T>)
    requires policy.Valid() && loop.pending != [] && loop.attempts < policy.maxRangeAttempts
    requires Progress(chain, start, end, next, policy, loop)
    requires loop.pending[|loop.pending| - 1].Size() > policy.minimumRangeSize
    ensures Progress(chain, start, end, next, policy, after) && 0 <= Work(after.pending) < Work(loop.pending)
  {
    var Loop(pending, completed, logs, attempts, splits) := loop;
    WalkSplit(start, end, next, policy.minimumRangeSize, pending, completed, attempts, splits);
    after := Loop(pending[..|pending| - 1] + Halves(pending[|pending| - 1]), completed, logs, attempts + 1, splits + 1);
  }

  /** The success branch: the popped range becomes a leaf and its logs are appended. */
  method KeepTop<T(!new)>(chain: Chain<T>, ghost start: int, ghost end: int, ghost next: int, policy: Policy, loop: Loop<T>)
    returns (after: Loop<T>, ghost next': int)
    requires policy.Valid() && loop.pending != [] && loop.attempts < policy.maxRangeAttempts
    requires Progress(chain, start, end, next, policy, loop)
    ensures Progress(chain, start, end, next', policy, after) && 0 <= Work(after.pending) < Work(loop.pending)
  {
    var Loop(pending, completed, logs, attempts, splits) := loop;
    var current := pending[|pending| - 1];
    WalkLeaf(start, end, next, policy.minimumRangeSize, pending, completed, attempts, splits);
    var answer := Answer(chain, current);
    LogsSplit(chain, start, next - 1, current.end);
    after, next' := Loop(pending[..|pending| - 1], completed + [current], logs + answer, attempts + 1, splits), current.end + 1;
  }

  /** A successful provider call: the logs of every block of the range, in block order. */
  method Answer<T>(chain: Chain<T>, range: BlockRange) returns (logs: seq<T>)
    requires range.start <= range.end
    ensures logs == LogsIn(chain, range.start, range.end)
  {
    logs := [];
    for b := range.start to range.end + 1
      invariant logs == LogsIn(chain, range.start, b - 1)
    {
      logs := logs + chain(b);
    }
  }
}
