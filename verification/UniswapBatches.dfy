/** Uniswap recovery under other address batches. */
module UniswapBatches {
  // Other address batches ask for the same logs in another order, and other captures look
  // block times up anew (backfill/uniswap_v3.py). The timestamp cache makes either matter
  // exactly where blocks end up with other times, or other logs without one.

  import opened Wrappers
  import opened Decode
  import opened Merge
  import opened UniswapCapture
  import opened Timestamps

  /** The logs of a block that match the contract's topics, whatever their address. */
  type Chain = int -> seq<Log>

  function Select(logs: seq<Log>, addresses: seq<string>): seq<Log> {
    if logs == [] then []
    else
      var front, log := Select(logs[..|logs| - 1], addresses), logs[|logs| - 1];
      if log.address in addresses then front + [log] else front
  }

  /** A provider answers a group with the block's logs at the group's addresses. */
  ghost predicate AnswersFrom(p: Provider, chain: Chain) {
    forall g: QueryGroup, b: int :: p(g)(b) == Select(chain(b), g.addresses)
  }

  lemma {:induction false} SelectSplits(logs: seq<Log>, a: seq<string>, c: seq<string>)
    requires forall x :: x in a ==> x !in c
    ensures multiset(Select(logs, a + c)) == multiset(Select(logs, a)) + multiset(Select(logs, c))
  {
    if logs != [] { SelectSplits(logs[..|logs| - 1], a, c); }
  }

  lemma {:induction false} BlockLogsPrepend(p: Provider, g: QueryGroup, rest: seq<QueryGroup>, b: int)
    ensures BlockLogs(p, [g] + rest, b) == p(g)(b) + BlockLogs(p, rest, b)
    decreases |rest|
  {
    var all := [g] + rest;
    if rest == [] {
      assert all[..0] == [];
    } else {
      assert all[..|all| - 1] == [g] + rest[..|rest| - 1];
      BlockLogsPrepend(p, g, rest[..|rest| - 1], b);
    }
  }

  /** Every batch size asks for the same logs of a block, each exactly once. */
  lemma {:induction false} BatchesHoldTheBlock(p: Provider, chain: Chain, pools: seq<string>, topics: seq<string>, size: nat, b: int)
    requires AnswersFrom(p, chain) && Distinct(pools) && size > 0
    ensures multiset(BlockLogs(p, QueryGroups(pools, topics, size), b)) == multiset(Select(chain(b), pools))
    decreases |pools|
  {
    if pools == [] {
      NothingSelected(chain(b));
    } else if |pools| <= size {
      BlockLogsPrepend(p, QueryGroup(pools, topics), [], b);
      assert [QueryGroup(pools, topics)] + [] == [QueryGroup(pools, topics)];
    } else {
      var head, tail := pools[..size], pools[size..];
      BatchesHoldTheBlock(p, chain, tail, topics, size, b);
      BlockLogsPrepend(p, QueryGroup(head, topics), QueryGroups(tail, topics, size), b);
      forall x | x in head ensures x !in tail { HeadNotInTail(pools, size, x); }
      SelectSplits(chain(b), head, tail);
      assert pools == head + tail;
    }
  }

  lemma {:induction false} NothingSelected(logs: seq<Log>)
    ensures Select(logs, []) == []
  {
    if logs != [] { NothingSelected(logs[..|logs| - 1]); }
  }

  /** Every log of a block decodes alike whether the block's time `t` is cached or not. */
  ghost predicate SteadyTime(f: LogStep, logs: seq<Log>, b: int, t: int) {
    forall i :: 0 <= i < |logs| ==> SteadyLog(f, logs[i], b, t)
  }

  /** A log without a readable block decodes alike inside and outside the range. */
  ghost predicate SteadyLog(f: LogStep, log: Log, b: int, t: int) {
    var e, c := f(log, true, None), f(log, true, Some(t));
    if log.block.None? then f(log, false, None) == e
    else
      && log.block == Some(b)
      && e.events == c.events && e.issues == c.issues
      && e.time in {None, Some(t)} && c.time in {None, Some(t)}
  }

  lemma {:induction false} SteadyDecode(f: LogStep, logs: seq<Log>, b: int, t: int)
    requires SteadyTime(f, logs, b, t)
    ensures var s := DecodeAll(f, logs, b, b);
      s.events == EventsOf(f, logs) && s.issues == IssuesOf(f, logs) && Cached(s.times, Some(b)) in {None, Some(t)}
    decreases |logs|
  {
    if logs != [] {
      var n := |logs| - 1;
      SteadyDecode(f, logs[..n], b, t);
      assert SteadyLog(f, logs[n], b, t);
    }
  }

  ghost predicate HasSteadyTime(f: LogStep, logs: seq<Log>, b: int) {
    exists t :: SteadyTime(f, logs, b, t)
  }

  /** Each block of the interval has one time, whichever pool is asked. */
  ghost predicate SteadyBlocks(f: LogStep, chain: Chain, pools: seq<string>, lo: int, hi: int) {
    forall b :: lo <= b <= hi ==> HasSteadyTime(f, Select(chain(b), pools), b)
  }

  lemma SteadyReordered(f: LogStep, a: seq<Log>, c: seq<Log>, b: int, t: int)
    requires multiset(a) == multiset(c) && SteadyTime(f, a, b, t)
    ensures SteadyTime(f, c, b, t)
  {
    forall i | 0 <= i < |c| ensures SteadyLog(f, c[i], b, t) {
      assert c[i] in multiset(c) && c[i] in a;
      var j :| 0 <= j < |a| && a[j] == c[i];
      assert SteadyLog(f, a[j], b, t);
    }
  }

  /** With steady times, a block decodes to the same events and issues under any batch size. */
  lemma {:induction false} BlockDecodesAlike(f: LogStep, p: Provider, chain: Chain, pools: seq<string>, topics: seq<string>, m: nat, n: nat, b: int)
    requires AnswersFrom(p, chain) && Distinct(pools) && m > 0 && n > 0
    requires HasSteadyTime(f, Select(chain(b), pools), b)
    ensures var s, r := DecodeAll(f, BlockLogs(p, QueryGroups(pools, topics, m), b), b, b),
                        DecodeAll(f, BlockLogs(p, QueryGroups(pools, topics, n), b), b, b);
      multiset(s.events) == multiset(r.events) && multiset(s.issues) == multiset(r.issues)
  {
    var logs := Select(chain(b), pools);
    var t :| SteadyTime(f, logs, b, t);
    var a, c := BlockLogs(p, QueryGroups(pools, topics, m), b), BlockLogs(p, QueryGroups(pools, topics, n), b);
    BatchesHoldTheBlock(p, chain, pools, topics, m, b);
    BatchesHoldTheBlock(p, chain, pools, topics, n, b);
    SteadyReordered(f, logs, a, b, t);
    SteadyReordered(f, logs, c, b, t);
    SteadyDecode(f, a, b, t);
    SteadyDecode(f, c, b, t);
    OrderIsForgotten(f, a, c);
  }

  /** Every block decodes to the same events and issues, in whatever order its logs came. */
  ghost predicate BlocksDecodeAlike(f: LogStep, pA: Provider, a: seq<QueryGroup>, pB: Provider, b: seq<QueryGroup>, lo: int, hi: int) {
    forall x :: lo <= x <= hi ==>
      var s, r := DecodeAll(f, BlockLogs(pA, a, x), x, x), DecodeAll(f, BlockLogs(pB, b, x), x, x);
      multiset(s.events) == multiset(r.events) && multiset(s.issues) == multiset(r.issues)
  }

  /** Then the logs without a readable block give the same issues too. */
  lemma {:induction false} StraysAlike(f: LogStep, pA: Provider, a: seq<QueryGroup>, pB: Provider, b: seq<QueryGroup>, lo: int, hi: int)
    requires StaysInBlock(f) && BlocksDecodeAlike(f, pA, a, pB, b, lo, hi)
    ensures multiset(StrayIssues(f, StrayLogs(pA, a, lo, hi))) == multiset(StrayIssues(f, StrayLogs(pB, b, lo, hi)))
    decreases hi - lo
  {
    if lo <= hi {
      StraysAlike(f, pA, a, pB, b, lo, hi - 1);
      BlockStraysAlike(f, BlockLogs(pA, a, hi), BlockLogs(pB, b, hi), hi);
      StrayIssuesConcat(f, StrayLogs(pA, a, lo, hi - 1), Blockless(BlockLogs(pA, a, hi)));
      StrayIssuesConcat(f, StrayLogs(pB, b, lo, hi - 1), Blockless(BlockLogs(pB, b, hi)));
    }
  }

  lemma {:induction false} BlockStraysAlike(f: LogStep, a: seq<Log>, c: seq<Log>, x: int)
    requires StaysInBlock(f) && multiset(DecodeAll(f, a, x, x).issues) == multiset(DecodeAll(f, c, x, x).issues)
    ensures multiset(StrayIssues(f, Blockless(a))) == multiset(StrayIssues(f, Blockless(c)))
  {
    var i, j := DecodeAll(f, a, x, x).issues, DecodeAll(f, c, x, x).issues;
    DecodeStrays(f, a, x, x);
    DecodeStrays(f, c, x, x);
    forall y ensures multiset(BlocklessIssues(i))[y] == multiset(BlocklessIssues(j))[y] {
      BlocklessCount(i, y);
      BlocklessCount(j, y);
    }
  }

  /** An event of a complete decoding is one of its block's, and an issue with a block is counted there. */
  lemma {:induction false} EventInBlock(f: LogStep, p: Provider, groups: seq<QueryGroup>, lo: int, hi: int, raw: seq<Event>, issues: seq<Issue>, e: Event)
    requires DecodedBlocks(f, p, groups, lo, hi, raw, issues)
    ensures e in raw <==> lo <= e.block <= hi && e in DecodeAll(f, BlockLogs(p, groups, e.block), e.block, e.block).events
  {
    BlockOfDecoding(f, p, groups, lo, hi, raw, issues, e.block);
    InBlock(raw, e, e.block);
    InBlock(DecodeAll(f, BlockLogs(p, groups, e.block), e.block, e.block).events, e, e.block);
  }

  lemma {:induction false} IssuesCounted(f: LogStep, p: Provider, groups: seq<QueryGroup>, lo: int, hi: int, raw: seq<Event>, issues: seq<Issue>, x: Issue, b: int)
    requires DecodedBlocks(f, p, groups, lo, hi, raw, issues) && x.block == Some(b)
    ensures multiset(issues)[x] == if lo <= b <= hi then multiset(DecodeAll(f, BlockLogs(p, groups, b), b, b).issues)[x] else 0
  {
    BlockOfDecoding(f, p, groups, lo, hi, raw, issues, b);
    IssueCount(issues, x, b);
    IssueCount(DecodeAll(f, BlockLogs(p, groups, b), b, b).issues, x, b);
  }

  /** Decodings that agree block by block hold the same events and issues. */
  lemma DecodingsAgree(f: LogStep, pA: Provider, a: seq<QueryGroup>, pB: Provider, b: seq<QueryGroup>, lo: int, hi: int,
                       rawA: seq<Event>, issuesA: seq<Issue>, rawB: seq<Event>, issuesB: seq<Issue>)
    requires StaysInBlock(f) && BlocksDecodeAlike(f, pA, a, pB, b, lo, hi)
    requires DecodedBlocks(f, pA, a, lo, hi, rawA, issuesA) && DecodedBlocks(f, pB, b, lo, hi, rawB, issuesB)
    ensures forall e :: e in rawA <==> e in rawB
    ensures multiset(issuesA) == multiset(issuesB)
  {
    forall e ensures e in rawA <==> e in rawB {
      EventInBlock(f, pA, a, lo, hi, rawA, issuesA, e);
      EventInBlock(f, pB, b, lo, hi, rawB, issuesB, e);
      if lo <= e.block <= hi { BlockEventsAlike(f, pA, a, pB, b, lo, hi, e.block, e); }
    }
    forall x ensures multiset(issuesA)[x] == multiset(issuesB)[x] {
      IssueCountsAgree(f, pA, a, pB, b, lo, hi, rawA, issuesA, rawB, issuesB, x);
    }
  }

  lemma {:induction false} BlockEventsAlike(f: LogStep, pA: Provider, a: seq<QueryGroup>, pB: Provider, b: seq<QueryGroup>, lo: int, hi: int, x: int, e: Event)
    requires BlocksDecodeAlike(f, pA, a, pB, b, lo, hi) && lo <= x <= hi
    ensures e in DecodeAll(f, BlockLogs(pA, a, x), x, x).events <==> e in DecodeAll(f, BlockLogs(pB, b, x), x, x).events
  {
    var s, r := DecodeAll(f, BlockLogs(pA, a, x), x, x), DecodeAll(f, BlockLogs(pB, b, x), x, x);
    assert multiset(s.events) == multiset(r.events);
    assert (e in s.events <==> e in multiset(s.events)) && (e in r.events <==> e in multiset(r.events));
  }

  lemma {:induction false} BlockIssuesAlike(f: LogStep, pA: Provider, a: seq<QueryGroup>, pB: Provider, b: seq<QueryGroup>, lo: int, hi: int, x: int)
    requires BlocksDecodeAlike(f, pA, a, pB, b, lo, hi) && lo <= x <= hi
    ensures multiset(DecodeAll(f, BlockLogs(pA, a, x), x, x).issues) == multiset(DecodeAll(f, BlockLogs(pB, b, x), x, x).issues)
  {
  }

  lemma {:induction false} StraysCounted(f: LogStep, p: Provider, groups: seq<QueryGroup>, lo: int, hi: int, raw: seq<Event>, issues: seq<Issue>, x: Issue)
    requires DecodedBlocks(f, p, groups, lo, hi, raw, issues) && x.block.None?
    ensures multiset(issues)[x] == multiset(StrayIssues(f, StrayLogs(p, groups, lo, hi)))[x]
  {
    var strays := Blockless(GroupLogs(p, groups, lo, hi));
    GroupStrays(p, groups, lo, hi);
    StrayOrderIsForgotten(f, strays, StrayLogs(p, groups, lo, hi));
    CountIsMultiplicity(issues, x);
    CountIsMultiplicity(StrayIssues(f, strays), x);
  }

  lemma IssueCountsAgree(f: LogStep, pA: Provider, a: seq<QueryGroup>, pB: Provider, b: seq<QueryGroup>, lo: int, hi: int,
                         rawA: seq<Event>, issuesA: seq<Issue>, rawB: seq<Event>, issuesB: seq<Issue>, x: Issue)
    requires StaysInBlock(f) && BlocksDecodeAlike(f, pA, a, pB, b, lo, hi)
    requires DecodedBlocks(f, pA, a, lo, hi, rawA, issuesA) && DecodedBlocks(f, pB, b, lo, hi, rawB, issuesB)
    ensures multiset(issuesA)[x] == multiset(issuesB)[x]
  {
    if x.block.Some? {
      var y := x.block.value;
      IssuesCounted(f, pA, a, lo, hi, rawA, issuesA, x, y);
      IssuesCounted(f, pB, b, lo, hi, rawB, issuesB, x, y);
      if lo <= y <= hi { BlockIssuesAlike(f, pA, a, pB, b, lo, hi, y); }
    } else {
      StraysAlike(f, pA, a, pB, b, lo, hi);
      StraysCounted(f, pA, a, lo, hi, rawA, issuesA, x);
      StraysCounted(f, pB, b, lo, hi, rawB, issuesB, x);
    }
  }

  /** With steady times, batch sizes conflict together. */
  lemma {:induction false} ConflictsIgnoreBatchSize(d: Decoder, p: Provider, chain: Chain, pools: seq<string>, topics: seq<string>, m: nat, n: nat,
                                 start: int, end: int, rawA: seq<Event>, a: GroupCapture)
    requires AnswersFrom(p, chain) && Distinct(pools) && m > 0 && n > 0 && SteadyBlocks(StepOf(d), chain, pools, start, end)
    requires CapturedGroups(d, p, QueryGroups(pools, topics, m), start, end + 1, rawA, a)
    ensures forall raw, issues :: DecodedBlocks(StepOf(d), p, QueryGroups(pools, topics, n), start, end, raw, issues) ==> Consistent(raw)
  {
    forall b | start <= b <= end
      ensures var s, r := DecodeAll(StepOf(d), BlockLogs(p, QueryGroups(pools, topics, m), b), b, b),
                          DecodeAll(StepOf(d), BlockLogs(p, QueryGroups(pools, topics, n), b), b, b);
        multiset(s.events) == multiset(r.events) && multiset(s.issues) == multiset(r.issues)
    {
      BlockDecodesAlike(StepOf(d), p, chain, pools, topics, m, n, b);
    }
    forall raw, issues | DecodedBlocks(StepOf(d), p, QueryGroups(pools, topics, n), start, end, raw, issues) ensures Consistent(raw) {
      forall e | e in raw ensures e in rawA {
        EventInBlock(StepOf(d), p, QueryGroups(pools, topics, m), start, end, rawA, a.issues, e);
        EventInBlock(StepOf(d), p, QueryGroups(pools, topics, n), start, end, raw, issues, e);
        BlockEventsAlike(StepOf(d), p, QueryGroups(pools, topics, m), p, QueryGroups(pools, topics, n), start, end, e.block, e);
      }
      ConsistentByMembers(rawA, raw);
    }
  }

  // ----- The exact condition for two captures to agree -----

  ghost predicate IsContractLog(d: Decoder, logs: seq<Log>, i: nat, b: int) {
    i < |logs| && Contracted(d, logs[i], b, b)
  }

  /** In the whole interval no two contract logs share transaction hash and log index. */
  ghost predicate OneLogPerIdentity(d: Decoder, blocks: int -> seq<Log>, lo: int, hi: int) {
    && (forall b :: lo <= b <= hi ==> Identified(d, blocks(b), b, b))
    && (forall b, c, i: nat, j: nat :: lo <= b < c <= hi && IsContractLog(d, blocks(b), i, b) && IsContractLog(d, blocks(c), j, c)
          ==> !SameIdentity(blocks(b)[i], blocks(c)[j]))
  }

  ghost function BlocksOf(p: Provider, groups: seq<QueryGroup>): int -> seq<Log> { b => BlockLogs(p, groups, b) }

  /** Then every decoding of the interval holds one event per key. */
  lemma DecodedIsOneCopy(d: Decoder, p: Provider, groups: seq<QueryGroup>, lo: int, hi: int, raw: seq<Event>, issues: seq<Issue>)
    requires Lawful(d) && OneLogPerIdentity(d, BlocksOf(p, groups), lo, hi)
    requires DecodedBlocks(StepOf(d), p, groups, lo, hi, raw, issues)
    ensures OneCopy(raw)
  {
    forall e, x | e in raw && x in raw && e.key == x.key ensures e == x {
      var i := EventLogInBlock(d, p, groups, lo, hi, raw, issues, e);
      var j := EventLogInBlock(d, p, groups, lo, hi, raw, issues, x);
      var blocks := BlocksOf(p, groups);
      assert IsContractLog(d, blocks(e.block), i, e.block) && IsContractLog(d, blocks(x.block), j, x.block);
      assert SameIdentity(blocks(e.block)[i], blocks(x.block)[j]);
      if e.block == x.block {
        EventInBlock(StepOf(d), p, groups, lo, hi, raw, issues, e);
        EventInBlock(StepOf(d), p, groups, lo, hi, raw, issues, x);
        IdentifiedIsOneCopy(d, blocks(e.block), e.block, e.block);
      }
    }
  }

  lemma EventLogInBlock(d: Decoder, p: Provider, groups: seq<QueryGroup>, lo: int, hi: int, raw: seq<Event>, issues: seq<Issue>, e: Event)
    returns (i: nat)
    requires Lawful(d) && OneLogPerIdentity(d, BlocksOf(p, groups), lo, hi) && e in raw
    requires DecodedBlocks(StepOf(d), p, groups, lo, hi, raw, issues)
    ensures lo <= e.block <= hi
    ensures var logs := BlockLogs(p, groups, e.block);
      && IsContractLog(d, logs, i, e.block)
      && logs[i].txHash == Some(e.key.txHash) && logs[i].logIndex == Some(e.key.logIndex)
  {
    var b := e.block;
    EventInBlock(StepOf(d), p, groups, lo, hi, raw, issues, e);
    assert Identified(d, BlocksOf(p, groups)(b), b, b);
    DecodeIsGiven(d, BlockLogs(p, groups, b), b, b);
    i := EventsLog(d, BlockLogs(p, groups, b), b, b, e);
  }

  lemma GivenIssueBlock(d: Decoder, times: seq<Log>, log: Log, b: int, x: Issue)
    requires x in Given(d, times, log, b, b).issues
    ensures x.block == log.block
  {
  }

  /** An issue outside the block does not depend on the times read. */
  lemma {:induction false} OutsideIssueStays(d: Decoder, a: seq<Log>, c: seq<Log>, b: int, x: Issue)
    requires Comparable(d, a, c, b, b) && x.block != Some(b) && x in DecodeAll(StepOf(d), a, b, b).issues
    ensures x in DecodeAll(StepOf(d), c, b, b).issues
  {
    IssuedFrom(d, a, b, b, x);
    var i :| 0 <= i < |a| && x in Given(d, a, a[i], b, b).issues;
    GivenIssueBlock(d, a, a[i], b, x);
    var j := SameLogsMember(a, c, i);
    OutsideIsGivenAlike(d, a, c, a[i], c[j], b);
    IssuedFrom(d, c, b, b, x);
  }

  lemma OutsideIsGivenAlike(d: Decoder, a: seq<Log>, c: seq<Log>, x: Log, y: Log, b: int)
    requires Bare(x) == Bare(y) && x.block != Some(b)
    ensures Given(d, a, x, b, b) == Given(d, c, y, b, b)
  {
    assert x.block == Bare(x).block && x.txHash == Bare(x).txHash && x.logIndex == Bare(x).logIndex;
    assert y.block == Bare(y).block && y.txHash == Bare(y).txHash && y.logIndex == Bare(y).logIndex;
  }

  lemma {:induction false} IssueInBlock(d: Decoder, p: Provider, groups: seq<QueryGroup>, lo: int, hi: int, raw: seq<Event>, issues: seq<Issue>, x: Issue, b: int)
    requires DecodedBlocks(StepOf(d), p, groups, lo, hi, raw, issues) && lo <= b <= hi && x.block == Some(b)
    ensures x in DecodeAll(StepOf(d), BlockLogs(p, groups, b), b, b).issues <==> x in issues
  {
    var own := DecodeAll(StepOf(d), BlockLogs(p, groups, b), b, b).issues;
    IssuesCounted(StepOf(d), p, groups, lo, hi, raw, issues, x, b);
    assert (x in own <==> x in multiset(own)) && (x in issues <==> x in multiset(issues));
  }

  /** Events of one block's decoding carry its number. */
  lemma {:induction false} EventKnowsBlock(d: Decoder, logs: seq<Log>, b: int, e: Event)
    requires Lawful(d) && Identified(d, logs, b, b) && e in DecodeAll(StepOf(d), logs, b, b).events
    ensures e.block == b
  {
    DecodeIsGiven(d, logs, b, b);
    var i := EventsLog(d, logs, b, b, e);
  }

  /** What one capture holds of a block, another with the same members holds too. */
  lemma {:induction false} BlockMembersStay(d: Decoder, pA: Provider, a: seq<QueryGroup>, pB: Provider, b: seq<QueryGroup>, lo: int, hi: int,
                         rawA: seq<Event>, issuesA: seq<Issue>, rawB: seq<Event>, issuesB: seq<Issue>, x: int)
    requires DecodedBlocks(StepOf(d), pA, a, lo, hi, rawA, issuesA) && DecodedBlocks(StepOf(d), pB, b, lo, hi, rawB, issuesB)
    requires lo <= x <= hi && Comparable(d, BlockLogs(pA, a, x), BlockLogs(pB, b, x), x, x)
    requires (forall e :: e in rawA ==> e in rawB) && (forall i :: i in issuesA ==> i in issuesB)
    ensures forall e :: e in DecodeAll(StepOf(d), BlockLogs(pA, a, x), x, x).events ==> e in DecodeAll(StepOf(d), BlockLogs(pB, b, x), x, x).events
    ensures forall i :: i in DecodeAll(StepOf(d), BlockLogs(pA, a, x), x, x).issues ==> i in DecodeAll(StepOf(d), BlockLogs(pB, b, x), x, x).issues
  {
    forall e | e in DecodeAll(StepOf(d), BlockLogs(pA, a, x), x, x).events
      ensures e in DecodeAll(StepOf(d), BlockLogs(pB, b, x), x, x).events
    {
      EventKnowsBlock(d, BlockLogs(pA, a, x), x, e);
      EventInBlock(StepOf(d), pA, a, lo, hi, rawA, issuesA, e);
      EventInBlock(StepOf(d), pB, b, lo, hi, rawB, issuesB, e);
    }
    forall i | i in DecodeAll(StepOf(d), BlockLogs(pA, a, x), x, x).issues
      ensures i in DecodeAll(StepOf(d), BlockLogs(pB, b, x), x, x).issues
    {
      if i.block == Some(x) {
        IssueInBlock(d, pA, a, lo, hi, rawA, issuesA, i, x);
        IssueInBlock(d, pB, b, lo, hi, rawB, issuesB, i, x);
      } else {
        OutsideIssueStays(d, BlockLogs(pA, a, x), BlockLogs(pB, b, x), x, i);
      }
    }
  }

  /** Decodings with the same members have, in each block, the same members. */
  lemma {:induction false} BlockMembers(d: Decoder, pA: Provider, a: seq<QueryGroup>, pB: Provider, b: seq<QueryGroup>, lo: int, hi: int,
                     rawA: seq<Event>, issuesA: seq<Issue>, rawB: seq<Event>, issuesB: seq<Issue>, x: int)
    requires DecodedBlocks(StepOf(d), pA, a, lo, hi, rawA, issuesA) && DecodedBlocks(StepOf(d), pB, b, lo, hi, rawB, issuesB)
    requires lo <= x <= hi && Comparable(d, BlockLogs(pA, a, x), BlockLogs(pB, b, x), x, x)
    requires (forall e :: e in rawA <==> e in rawB) && (forall i :: i in issuesA <==> i in issuesB)
    ensures SameMembers(DecodeAll(StepOf(d), BlockLogs(pA, a, x), x, x), DecodeAll(StepOf(d), BlockLogs(pB, b, x), x, x))
  {
    BlockMembersStay(d, pA, a, pB, b, lo, hi, rawA, issuesA, rawB, issuesB, x);
    BlockMembersStay(d, pB, b, pA, a, lo, hi, rawB, issuesB, rawA, issuesA, x);
  }

  /** Two complete captures of the same logs of one interval, whatever asked for them and in which order. */
  ghost predicate CapturedTwice(d: Decoder, pA: Provider, a: seq<QueryGroup>, pB: Provider, b: seq<QueryGroup>, start: int, end: int,
                                rawA: seq<Event>, ca: GroupCapture, rawB: seq<Event>, cb: GroupCapture) {
    && CapturedGroups(d, pA, a, start, end + 1, rawA, ca)
    && CapturedGroups(d, pB, b, start, end + 1, rawB, cb)
  }

  ghost predicate BlocksComparable(d: Decoder, pA: Provider, a: seq<QueryGroup>, pB: Provider, b: seq<QueryGroup>, lo: int, hi: int) {
    && Lawful(d)
    && OneLogPerIdentity(d, BlocksOf(pA, a), lo, hi) && OneLogPerIdentity(d, BlocksOf(pB, b), lo, hi)
    && forall x :: lo <= x <= hi ==> SameLogs(BlockLogs(pA, a, x), BlockLogs(pB, b, x))
  }

  /** In every block the first readable time, and the logs refused before it, are the same. */
  ghost predicate BlockTimesAlike(d: Decoder, pA: Provider, a: seq<QueryGroup>, pB: Provider, b: seq<QueryGroup>, lo: int, hi: int) {
    forall x :: lo <= x <= hi ==> TimesAlike(d, BlockLogs(pA, a, x), BlockLogs(pB, b, x), x, x)
  }

  lemma {:induction false} BlockComparable(d: Decoder, pA: Provider, a: seq<QueryGroup>, pB: Provider, b: seq<QueryGroup>, lo: int, hi: int, x: int)
    requires BlocksComparable(d, pA, a, pB, b, lo, hi) && lo <= x <= hi
    ensures Comparable(d, BlockLogs(pA, a, x), BlockLogs(pB, b, x), x, x)
  {
    assert Identified(d, BlocksOf(pA, a)(x), x, x) && Identified(d, BlocksOf(pB, b)(x), x, x);
  }

  lemma AlikeBlocksDecodeAlike(d: Decoder, pA: Provider, a: seq<QueryGroup>, pB: Provider, b: seq<QueryGroup>, lo: int, hi: int)
    requires BlocksComparable(d, pA, a, pB, b, lo, hi) && BlockTimesAlike(d, pA, a, pB, b, lo, hi)
    ensures BlocksDecodeAlike(StepOf(d), pA, a, pB, b, lo, hi)
  {
    forall x | lo <= x <= hi
      ensures var s, r := DecodeAll(StepOf(d), BlockLogs(pA, a, x), x, x), DecodeAll(StepOf(d), BlockLogs(pB, b, x), x, x);
        multiset(s.events) == multiset(r.events) && multiset(s.issues) == multiset(r.issues)
    {
      BlockComparable(d, pA, a, pB, b, lo, hi, x);
      AlikeDecodesAlike(d, BlockLogs(pA, a, x), BlockLogs(pB, b, x), x, x);
    }
  }

  /** A capture's canonical events are the decoded ones when keys are unique. */
  lemma CapturedEvents(d: Decoder, p: Provider, groups: seq<QueryGroup>, start: int, end: int, raw: seq<Event>, c: GroupCapture)
    requires Lawful(d) && OneLogPerIdentity(d, BlocksOf(p, groups), start, end)
    requires CapturedGroups(d, p, groups, start, end + 1, raw, c)
    ensures OneCopy(raw) && forall e :: e in c.events <==> e in raw
  {
    DecodedIsOneCopy(d, p, groups, start, end, raw, c.issues);
    forall e ensures e in c.events <==> e in raw { OneCopyIsFirst(raw, e); }
  }

  lemma AgreementMeansTimesAlike(d: Decoder, pA: Provider, a: seq<QueryGroup>, pB: Provider, b: seq<QueryGroup>, start: int, end: int,
                                 rawA: seq<Event>, ca: GroupCapture, rawB: seq<Event>, cb: GroupCapture)
    requires BlocksComparable(d, pA, a, pB, b, start, end) && CapturedTwice(d, pA, a, pB, b, start, end, rawA, ca, rawB, cb)
    requires ca.events == cb.events && multiset(ca.issues) == multiset(cb.issues)
    ensures BlockTimesAlike(d, pA, a, pB, b, start, end)
  {
    CapturedEvents(d, pA, a, start, end, rawA, ca);
    CapturedEvents(d, pB, b, start, end, rawB, cb);
    forall i ensures i in ca.issues <==> i in cb.issues {
      assert i in multiset(ca.issues) <==> i in multiset(cb.issues);
    }
    forall x | start <= x <= end ensures TimesAlike(d, BlockLogs(pA, a, x), BlockLogs(pB, b, x), x, x) {
      BlockComparable(d, pA, a, pB, b, start, end, x);
      BlockMembers(d, pA, a, pB, b, start, end, rawA, ca.issues, rawB, cb.issues, x);
      AgreementMeansAlike(d, BlockLogs(pA, a, x), BlockLogs(pB, b, x), x, x);
    }
  }

  lemma TimesAlikeMeansAgreement(d: Decoder, pA: Provider, a: seq<QueryGroup>, pB: Provider, b: seq<QueryGroup>, start: int, end: int,
                                 rawA: seq<Event>, ca: GroupCapture, rawB: seq<Event>, cb: GroupCapture)
    requires BlocksComparable(d, pA, a, pB, b, start, end) && CapturedTwice(d, pA, a, pB, b, start, end, rawA, ca, rawB, cb)
    requires BlockTimesAlike(d, pA, a, pB, b, start, end)
    ensures ca.events == cb.events && multiset(ca.issues) == multiset(cb.issues)
  {
    AlikeBlocksDecodeAlike(d, pA, a, pB, b, start, end);
    DecoderSteps(d);
    DecodingsAgree(StepOf(d), pA, a, pB, b, start, end, rawA, ca.issues, rawB, cb.issues);
    CapturedEvents(d, pA, a, start, end, rawA, ca);
    CapturedEvents(d, pB, b, start, end, rawB, cb);
    SortedListUnique(ca.events, cb.events);
  }

  /**
   Two captures of the same logs, under any groups, chunks, splits, failures and lookups,
   return the same events and issues exactly when in every block the first readable time,
   as far as an event shows it, and the logs refused before it are the same.
   */
  lemma CapturesAgreeIff(d: Decoder, pA: Provider, a: seq<QueryGroup>, pB: Provider, b: seq<QueryGroup>, start: int, end: int,
                         rawA: seq<Event>, ca: GroupCapture, rawB: seq<Event>, cb: GroupCapture)
    requires BlocksComparable(d, pA, a, pB, b, start, end) && CapturedTwice(d, pA, a, pB, b, start, end, rawA, ca, rawB, cb)
    ensures ca.events == cb.events && multiset(ca.issues) == multiset(cb.issues) <==> BlockTimesAlike(d, pA, a, pB, b, start, end)
  {
    if BlockTimesAlike(d, pA, a, pB, b, start, end) {
      TimesAlikeMeansAgreement(d, pA, a, pB, b, start, end, rawA, ca, rawB, cb);
    }
    if ca.events == cb.events && multiset(ca.issues) == multiset(cb.issues) {
      AgreementMeansTimesAlike(d, pA, a, pB, b, start, end, rawA, ca, rawB, cb);
    }
  }

  // ----- Other batches ask for the same logs -----

  /** The contract's logs of a block, as one query for all pools would list them. */
  ghost function PoolLogs(chain: Chain, pools: seq<string>): int -> seq<Log> { b => Select(chain(b), pools) }

  lemma {:induction false} SelectIsBare(a: seq<Log>, c: seq<Log>, addresses: seq<string>)
    requires BareAll(a) == BareAll(c)
    ensures BareAll(Select(a, addresses)) == BareAll(Select(c, addresses))
    decreases |a|
  {
    if a != [] {
      var n := |a| - 1;
      assert BareAll(a)[n] == BareAll(c)[n];
      assert BareAll(a[..n]) == BareAll(a)[..n] == BareAll(c)[..n] == BareAll(c[..n]);
      SelectIsBare(a[..n], c[..n], addresses);
    }
  }

  lemma BareWithOne(before: seq<Log>, x: Log, after: seq<Log>)
    ensures multiset(BareAll(before + [x] + after)) == multiset(BareAll(before + after)) + multiset{Bare(x)}
  {
    assert BareAll(before + [x] + after) == BareAll(before) + [Bare(x)] + BareAll(after);
    assert BareAll(before + after) == BareAll(before) + BareAll(after);
  }

  lemma {:induction false} SameMultisetSameLogs(a: seq<Log>, c: seq<Log>)
    requires multiset(a) == multiset(c)
    ensures SameLogs(a, c)
    decreases |a|
  {
    if a == [] {
      assert |multiset(c)| == 0;
      assert c == [];
    } else {
      var front, x := a[..|a| - 1], a[|a| - 1];
      assert a == front + [x] && x in multiset(a) && x in c;
      var i :| 0 <= i < |c| && c[i] == x;
      var before, after := c[..i], c[i + 1..];
      assert c == before + [x] + after;
      RemoveOne(front, x, before, after);
      SameMultisetSameLogs(front, before + after);
      BareWithOne(before, x, after);
      BareWithOne(front, x, []);
      assert front + [] == front && front + [x] + [] == a;
    }
  }

  lemma CountedTwice(s: seq<Log>, i: nat, j: nat)
    requires i < j < |s| && s[i] == s[j]
    ensures multiset(s)[s[i]] >= 2
  {
    assert s == s[..j] + [s[j]] + s[j + 1..];
    assert s[..j][i] == s[i] && s[i] in multiset(s[..j]);
  }

  lemma FoundTwice(s: seq<Log>, v: Log) returns (i: nat, j: nat)
    requires multiset(s)[v] >= 2
    ensures i < j < |s| && s[i] == v == s[j]
  {
    assert v in multiset(s);
    i :| 0 <= i < |s| && s[i] == v;
    var rest := s[..i] + s[i + 1..];
    assert s == s[..i] + [v] + s[i + 1..];
    assert multiset(rest)[v] >= 1;
    assert v in rest;
    var k :| 0 <= k < |rest| && rest[k] == v;
    if k < i { i, j := k, i; } else { j := k + 1; }
  }

  /** Whether identities are unique does not depend on order or lookups. */
  lemma IdentifiedPermutes(d: Decoder, a: seq<Log>, c: seq<Log>, lo: int, hi: int)
    requires SameLogs(a, c) && Identified(d, a, lo, hi)
    ensures Identified(d, c, lo, hi)
  {
    forall i, j | 0 <= i < j < |c| && Contracted(d, c[i], lo, hi) && Contracted(d, c[j], lo, hi) ensures !SameIdentity(c[i], c[j]) {
      if SameIdentity(c[i], c[j]) {
        if Bare(c[i]) == Bare(c[j]) {
          CountedTwice(BareAll(c), i, j);
          var k, l := FoundTwice(BareAll(a), Bare(c[i]));
          assert Bare(a[k]) == Bare(c[i]) && Bare(a[l]) == Bare(c[i]);
          assert SameIdentity(a[k], a[l]);
        } else {
          var k := SameLogsMember(c, a, i);
          var l := SameLogsMember(c, a, j);
          assert SameIdentity(a[k], a[l]) && k != l;
        }
      }
    }
  }

  lemma OneLogPermutes(d: Decoder, x: int -> seq<Log>, y: int -> seq<Log>, lo: int, hi: int)
    requires OneLogPerIdentity(d, x, lo, hi) && forall b :: lo <= b <= hi ==> SameLogs(x(b), y(b))
    ensures OneLogPerIdentity(d, y, lo, hi)
  {
    forall b | lo <= b <= hi ensures Identified(d, y(b), b, b) { IdentifiedPermutes(d, x(b), y(b), b, b); }
    forall b, c, i: nat, j: nat | lo <= b < c <= hi && IsContractLog(d, y(b), i, b) && IsContractLog(d, y(c), j, c)
      ensures !SameIdentity(y(b)[i], y(c)[j])
    {
      assert SameLogs(y(b), x(b)) && SameLogs(y(c), x(c));
      var k := SameLogsMember(y(b), x(b), i);
      var l := SameLogsMember(y(c), x(c), j);
      assert IsContractLog(d, x(b), k, b) && IsContractLog(d, x(c), l, c);
    }
  }

  /** Under any batch size a block's logs are those of the contract. */
  lemma {:induction false} BatchesAskTheSame(p: Provider, own: Chain, chain: Chain, pools: seq<string>, topics: seq<string>, size: nat, b: int)
    requires AnswersFrom(p, own) && SameChain(own, chain) && Distinct(pools) && size > 0
    ensures SameLogs(PoolLogs(chain, pools)(b), BlockLogs(p, QueryGroups(pools, topics, size), b))
  {
    BatchesHoldTheBlock(p, own, pools, topics, size, b);
    SameMultisetSameLogs(Select(own(b), pools), BlockLogs(p, QueryGroups(pools, topics, size), b));
    SelectIsBare(own(b), chain(b), pools);
  }

  lemma {:induction false} BatchesComparable(d: Decoder, pA: Provider, ownA: Chain, pB: Provider, ownB: Chain, chain: Chain, pools: seq<string>,
                          topics: seq<string>, m: nat, n: nat, lo: int, hi: int)
    requires AnswersFrom(pA, ownA) && AnswersFrom(pB, ownB) && SameChain(ownA, chain) && SameChain(ownB, chain)
    requires Distinct(pools) && m > 0 && n > 0 && Lawful(d) && OneLogPerIdentity(d, PoolLogs(chain, pools), lo, hi)
    ensures BlocksComparable(d, pA, QueryGroups(pools, topics, m), pB, QueryGroups(pools, topics, n), lo, hi)
  {
    var a, b := QueryGroups(pools, topics, m), QueryGroups(pools, topics, n);
    forall x | lo <= x <= hi
      ensures SameLogs(PoolLogs(chain, pools)(x), BlocksOf(pA, a)(x)) && SameLogs(PoolLogs(chain, pools)(x), BlocksOf(pB, b)(x))
    {
      BatchesAskTheSame(pA, ownA, chain, pools, topics, m, x);
      BatchesAskTheSame(pB, ownB, chain, pools, topics, n, x);
    }
    OneLogPermutes(d, PoolLogs(chain, pools), BlocksOf(pA, a), lo, hi);
    OneLogPermutes(d, PoolLogs(chain, pools), BlocksOf(pB, b), lo, hi);
    forall x | lo <= x <= hi ensures SameLogs(BlockLogs(pA, a, x), BlockLogs(pB, b, x)) {
      assert SameLogs(PoolLogs(chain, pools)(x), BlocksOf(pA, a)(x)) && SameLogs(PoolLogs(chain, pools)(x), BlocksOf(pB, b)(x));
    }
  }

  /**
   Captures with address batches of `m` and of `n`, each with its own lookups, agree exactly
   when every block has the same first readable time and the same logs refused before it in
   both group orders.
   */
  lemma {:induction false} BatchSizeIndependence(d: Decoder, pA: Provider, ownA: Chain, pB: Provider, ownB: Chain, chain: Chain, pools: seq<string>,
                              topics: seq<string>, m: nat, n: nat, start: int, end: int,
                              rawA: seq<Event>, a: GroupCapture, rawB: seq<Event>, b: GroupCapture)
    requires AnswersFrom(pA, ownA) && AnswersFrom(pB, ownB) && SameChain(ownA, chain) && SameChain(ownB, chain)
    requires Distinct(pools) && m > 0 && n > 0 && Lawful(d) && OneLogPerIdentity(d, PoolLogs(chain, pools), start, end)
    requires CapturedGroups(d, pA, QueryGroups(pools, topics, m), start, end + 1, rawA, a)
    requires CapturedGroups(d, pB, QueryGroups(pools, topics, n), start, end + 1, rawB, b)
    ensures a.events == b.events && multiset(a.issues) == multiset(b.issues)
       <==> BlockTimesAlike(d, pA, QueryGroups(pools, topics, m), pB, QueryGroups(pools, topics, n), start, end)
  {
    BatchesComparable(d, pA, ownA, pB, ownB, chain, pools, topics, m, n, start, end);
    CapturesAgreeIff(d, pA, QueryGroups(pools, topics, m), pB, QueryGroups(pools, topics, n), start, end, rawA, a, rawB, b);
  }

  /** The lookups made for one block are answered alike in both captures. */
  ghost predicate BlockLookupsAlike(d: Decoder, pA: Provider, pB: Provider, groups: seq<QueryGroup>, x: int) {
    var a, b := BlockLogs(pA, groups, x), BlockLogs(pB, groups, x);
    BareAll(a) == BareAll(b) && |a| == |b| && LookupsAlike(d, a, b, x, x)
  }

  lemma {:induction false} LookupsDecideBlock(d: Decoder, pA: Provider, pB: Provider, groups: seq<QueryGroup>, start: int, end: int, x: int)
    requires BlocksComparable(d, pA, groups, pB, groups, start, end) && start <= x <= end
    requires BareAll(BlockLogs(pA, groups, x)) == BareAll(BlockLogs(pB, groups, x))
    ensures TimesAlike(d, BlockLogs(pA, groups, x), BlockLogs(pB, groups, x), x, x) <==> BlockLookupsAlike(d, pA, pB, groups, x)
  {
    BlockComparable(d, pA, groups, pB, groups, start, end, x);
    assert |BareAll(BlockLogs(pA, groups, x))| == |BareAll(BlockLogs(pB, groups, x))|;
    LookupsDecide(d, BlockLogs(pA, groups, x), BlockLogs(pB, groups, x), x, x);
  }

  /**
   With the same batches, two captures under any chunks, splits and failures agree exactly
   when every lookup that had to be made was answered alike.
   */
  lemma {:induction false} ScheduleIndependence(d: Decoder, pA: Provider, pB: Provider, groups: seq<QueryGroup>, start: int, end: int,
                             rawA: seq<Event>, a: GroupCapture, rawB: seq<Event>, b: GroupCapture)
    requires BlocksComparable(d, pA, groups, pB, groups, start, end)
    requires CapturedTwice(d, pA, groups, pB, groups, start, end, rawA, a, rawB, b)
    requires forall x :: start <= x <= end ==> BareAll(BlockLogs(pA, groups, x)) == BareAll(BlockLogs(pB, groups, x))
    ensures a.events == b.events && multiset(a.issues) == multiset(b.issues)
       <==> forall x :: start <= x <= end ==> BlockLookupsAlike(d, pA, pB, groups, x)
  {
    CapturesAgreeIff(d, pA, groups, pB, groups, start, end, rawA, a, rawB, b);
    forall x | start <= x <= end
      ensures TimesAlike(d, BlockLogs(pA, groups, x), BlockLogs(pB, groups, x), x, x) <==> BlockLookupsAlike(d, pA, pB, groups, x)
    {
      LookupsDecideBlock(d, pA, pB, groups, start, end, x);
    }
  }

  // ----- A provider that contradicts itself about a block's time -----

  function StampedLog(address: string, time: int): Log {
    Log(Some(0), Some(address), Some(0), Stamped(time), address, "", None)
  }

  function StampedEvent(address: string, time: int): Event {
    Event(EventKey("chain", address, 0), 0, Spelled(time), "")
  }

  /** A decoder whose events show the timestamp they were given. */
  function StampingDecoder(): Decoder {
    Decoder(log => None, log => None,
      (log: Log, t: int) =>
        if log.block == Some(0) && log.txHash == Some(log.address) && log.logIndex == Some(0)
        then Success(StampedEvent(log.address, t)) else Failure("unknown log"))
  }

  lemma StampingIsLawful()
    ensures Lawful(StampingDecoder())
  {
    var d := StampingDecoder();
    forall x: Log, s: int, y: Log, t: int | d.build(x, s).Success? && d.build(x, s) == d.build(y, t) ensures s == t {
      assert d.build(x, s) == Success(StampedEvent(x.address, s)) && d.build(y, t) == Success(StampedEvent(y.address, t));
      assert Spelled(s) == StampedEvent(x.address, s).body == StampedEvent(y.address, t).body == Spelled(t);
      SpelledApart(s, t);
    }
    assert "unknown log"[0] != "block lookup failed"[0];
  }

  lemma StampedPair(x: string, s: int, y: string, t: int)
    ensures DecodeAll(StepOf(StampingDecoder()), [StampedLog(x, s), StampedLog(y, t)], 0, 0).events
         == [StampedEvent(x, s), StampedEvent(y, s)]
  {
    var f, logs := StepOf(StampingDecoder()), [StampedLog(x, s), StampedLog(y, t)];
    assert logs[..1] == [StampedLog(x, s)] && [StampedLog(x, s)][..0] == [];
    assert DecodeAll(f, [], 0, 0) == State(map[], [], []);
    assert f(StampedLog(x, s), true, None) == Effect(Some(s), [StampedEvent(x, s)], []);
    assert DecodeAll(f, [StampedLog(x, s)], 0, 0) == State(map[0 := s], [StampedEvent(x, s)], []);
    assert f(StampedLog(y, t), true, Some(s)) == Effect(Some(s), [StampedEvent(y, s)], []);
  }

  lemma {:induction false} SelectPair(x: Log, y: Log, addresses: seq<string>)
    ensures Select([x, y], addresses) == (if x.address in addresses then [x] else []) + (if y.address in addresses then [y] else [])
  {
    assert [x, y][..1] == [x] && [x][..0] == [];
    assert Select([], addresses) == [];
    assert Select([x], addresses) == if x.address in addresses then [x] else [];
  }

  function TwoTimes(b: int): seq<Log> {
    if b == 0 then [StampedLog("b", 1), StampedLog("a", 2)] else []
  }

  /** The logs of block 0 that a provider of `TwoTimes` lists for a group. */
  lemma TwoTimesAnswer(p: Provider, addresses: seq<string>)
    requires AnswersFrom(p, TwoTimes)
    ensures p(QueryGroup(addresses, []))(0)
         == (if "b" in addresses then [StampedLog("b", 1)] else []) + (if "a" in addresses then [StampedLog("a", 2)] else [])
  {
    SelectPair(StampedLog("b", 1), StampedLog("a", 2), addresses);
    assert TwoTimes(0) == [StampedLog("b", 1), StampedLog("a", 2)];
    var g := QueryGroup(addresses, []);
    assert p(g)(0) == Select(TwoTimes(0), g.addresses);
  }

  lemma {:induction false} OneByOne(p: Provider, pools: seq<string>)
    requires AnswersFrom(p, TwoTimes) && pools == ["a", "b"]
    ensures BlockLogs(p, QueryGroups(pools, [], 1), 0) == [StampedLog("a", 2), StampedLog("b", 1)]
  {
    var a, b := QueryGroup(["a"], []), QueryGroup(["b"], []);
    assert "a" != "b" by { assert "a"[0] != "b"[0]; }
    assert pools[..1] == ["a"] && pools[1..] == ["b"];
    assert QueryGroups(["b"], [], 1) == [b] && QueryGroups(pools, [], 1) == [a] + [b];
    TwoTimesAnswer(p, ["a"]);
    TwoTimesAnswer(p, ["b"]);
    BlockLogsPrepend(p, a, [b], 0);
    BlockLogsPrepend(p, b, [], 0);
    assert [b] == [b] + [];
  }

  lemma {:induction false} BothAtOnce(p: Provider, pools: seq<string>)
    requires AnswersFrom(p, TwoTimes) && pools == ["a", "b"]
    ensures BlockLogs(p, QueryGroups(pools, [], 2), 0) == [StampedLog("b", 1), StampedLog("a", 2)]
  {
    var both := QueryGroup(pools, []);
    TwoTimesAnswer(p, pools);
    BlockLogsPrepend(p, both, [], 0);
    assert QueryGroups(pools, [], 2) == [both] + [];
  }

  /** Two pools, one block, two times: the batch size decides which time every event gets. */
  lemma {:induction false} BatchSizeCanMatter(p: Provider, pools: seq<string>)
    requires AnswersFrom(p, TwoTimes) && pools == ["a", "b"]
    ensures Lawful(StampingDecoder())
    ensures DecodeAll(StepOf(StampingDecoder()), BlockLogs(p, QueryGroups(pools, [], 1), 0), 0, 0).events
         == [StampedEvent("a", 2), StampedEvent("b", 2)]
    ensures DecodeAll(StepOf(StampingDecoder()), BlockLogs(p, QueryGroups(pools, [], 2), 0), 0, 0).events
         == [StampedEvent("b", 1), StampedEvent("a", 1)]
    ensures StampedEvent("a", 1) != StampedEvent("a", 2)
  {
    StampingIsLawful();
    if Spelled(1) == Spelled(2) { SpelledApart(1, 2); }
    OneByOne(p, pools);
    BothAtOnce(p, pools);
    StampedPair("a", 2, "b", 1);
    StampedPair("b", 1, "a", 2);
  }
}
