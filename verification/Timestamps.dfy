/** When decodings agree on block times. */
module Timestamps {
  // Two decodings of the same logs can differ only through block times: a lookup that fails
  // turns its log into an issue, the next log of the block asks again, and the first time read
  // serves the rest of the block (backfill/aave_v3.py, backfill/uniswap_v3.py). This module
  // says exactly when the times read make no difference.

  import opened Wrappers
  import opened Decode
  import opened Merge

  /** The log passes every check that comes before its block's time is needed. */
  predicate Contracted(d: Decoder, log: Log, lo: int, hi: int) {
    d.checkLog(Bare(log)).None? && InRange(log, lo, hi) && d.checkContract(Bare(log)).None?
  }

  /** The first readable time of block `b` among `logs`. */
  function FirstTime(d: Decoder, logs: seq<Log>, lo: int, hi: int, b: int): Option<int> {
    if logs == [] then None
    else
      var before, log := FirstTime(d, logs[..|logs| - 1], lo, hi, b), logs[|logs| - 1];
      if before.Some? then before
      else if Contracted(d, log, lo, hi) && log.block == Some(b) then ReadTime(log) else None
  }

  /** The logs refused because their block had no readable time yet. */
  function Untimed(d: Decoder, logs: seq<Log>, lo: int, hi: int): set<Log> {
    if logs == [] then {}
    else
      var before, log := Untimed(d, logs[..|logs| - 1], lo, hi), logs[|logs| - 1];
      if IsUntimed(d, logs, |logs| - 1, lo, hi) then before + {Bare(log)} else before
  }

  predicate IsUntimed(d: Decoder, logs: seq<Log>, i: nat, lo: int, hi: int)
    requires i < |logs|
  {
    && Contracted(d, logs[i], lo, hi) && ReadTime(logs[i]).None?
    && FirstTime(d, logs[..i], lo, hi, logs[i].block.value).None?
  }

  // ----- What the source's decoders and providers have in common -----

  /** An event's key is the identity of its log. */
  ghost predicate KeyedByLog(d: Decoder) {
    forall log: Log, t: int :: d.build(log, t).Success? ==>
      log.txHash == Some(d.build(log, t).value.key.txHash) && log.logIndex == Some(d.build(log, t).value.key.logIndex)
  }

  /** An event shows its time, so equal events mean equal times. */
  ghost predicate ShowsTime(d: Decoder) {
    forall x: Log, s: int, y: Log, t: int :: d.build(x, s).Success? && d.build(x, s) == d.build(y, t) ==> s == t
  }

  /** Whether and why a handler refuses a log does not depend on the time. */
  ghost predicate RefusesRegardless(d: Decoder) {
    forall x: Log, s: int, t: int :: d.build(x, s).Failure? ==> d.build(x, t) == d.build(x, s)
  }

  predicate BlamesTime(reason: string) {
    reason == "block timestamp is unreadable" || reason == "block lookup failed"
  }

  /** Only a missing time is reported as one. */
  ghost predicate NamesReasons(d: Decoder) {
    && (forall x: Log :: d.checkLog(x).Some? ==> !BlamesTime(d.checkLog(x).value))
    && (forall x: Log :: d.checkContract(x).Some? ==> !BlamesTime(d.checkContract(x).value))
    && (forall x: Log, t: int :: d.build(x, t).Failure? ==> !BlamesTime(d.build(x, t).error))
  }

  ghost predicate Lawful(d: Decoder) {
    WellBuilt(d) && KeyedByLog(d) && ShowsTime(d) && RefusesRegardless(d) && NamesReasons(d)
  }

  predicate SameIdentity(x: Log, y: Log) {
    x.txHash == y.txHash && x.logIndex == y.logIndex
  }

  /** No two contract logs share transaction hash and log index. */
  ghost predicate Identified(d: Decoder, logs: seq<Log>, lo: int, hi: int) {
    forall i, j :: 0 <= i < j < |logs| && Contracted(d, logs[i], lo, hi) && Contracted(d, logs[j], lo, hi)
      ==> !SameIdentity(logs[i], logs[j])
  }

  // ----- Decoding log by log, once the times are known -----

  /** What a log becomes when the times are those that `times` read. */
  function Given(d: Decoder, times: seq<Log>, log: Log, lo: int, hi: int): Effect {
    if d.checkLog(Bare(log)).Some? then Rejected(log, d.checkLog(Bare(log)).value, None)
    else if !InRange(log, lo, hi) then Rejected(log, "log block is outside the requested range", None)
    else if d.checkContract(Bare(log)).Some? then Rejected(log, d.checkContract(Bare(log)).value, None)
    else if Bare(log) in Untimed(d, times, lo, hi) then Rejected(log, TimeRefusal(log), None)
    else
      match FirstTime(d, times, lo, hi, log.block.value)
      case None => Rejected(log, TimeRefusal(log), None)
      case Some(t) =>
        match d.build(Bare(log), t)
        case Failure(reason) => Rejected(log, reason, None)
        case Success(e) => Effect(None, [e], [])
  }

  function GivenStep(d: Decoder, times: seq<Log>, lo: int, hi: int): LogStep {
    (log: Log, inRange: bool, cached: Option<int>) => Given(d, times, log, lo, hi)
  }

  /** Events and issues log by log, each on its own. */
  function EventsOf(f: LogStep, logs: seq<Log>): seq<Event> {
    if logs == [] then [] else EventsOf(f, logs[..|logs| - 1]) + f(logs[|logs| - 1], true, None).events
  }

  function IssuesOf(f: LogStep, logs: seq<Log>): seq<Issue> {
    if logs == [] then [] else IssuesOf(f, logs[..|logs| - 1]) + f(logs[|logs| - 1], true, None).issues
  }

  /** A time once read stays, and untimed logs stay untimed. */
  lemma {:induction false} TimesStay(d: Decoder, logs: seq<Log>, lo: int, hi: int, n: nat, b: int)
    requires n <= |logs|
    ensures FirstTime(d, logs[..n], lo, hi, b).Some? ==> FirstTime(d, logs, lo, hi, b) == FirstTime(d, logs[..n], lo, hi, b)
    ensures Untimed(d, logs[..n], lo, hi) <= Untimed(d, logs, lo, hi)
    decreases |logs|
  {
    if n == |logs| {
      assert logs[..n] == logs;
    } else {
      assert logs[..|logs| - 1][..n] == logs[..n];
      TimesStay(d, logs[..|logs| - 1], lo, hi, n, b);
    }
  }

  /** A log is in the untimed set because some position put it there. */
  lemma {:induction false} UntimedPosition(d: Decoder, logs: seq<Log>, lo: int, hi: int, x: Log) returns (i: nat)
    requires x in Untimed(d, logs, lo, hi)
    ensures i < |logs| && Bare(logs[i]) == x && IsUntimed(d, logs, i, lo, hi)
    decreases |logs|
  {
    var n := |logs| - 1;
    if IsUntimed(d, logs, n, lo, hi) && Bare(logs[n]) == x {
      i := n;
    } else {
      i := UntimedPosition(d, logs[..n], lo, hi, x);
      assert logs[..n][..i] == logs[..i];
    }
  }

  lemma {:induction false} UntimedEnters(d: Decoder, logs: seq<Log>, lo: int, hi: int, i: nat)
    requires i < |logs| && IsUntimed(d, logs, i, lo, hi)
    ensures Bare(logs[i]) in Untimed(d, logs, lo, hi)
  {
    var prefix := logs[..i + 1];
    assert prefix[..i] == logs[..i] && prefix[i] == logs[i];
    assert IsUntimed(d, prefix, i, lo, hi);
    TimesStay(d, logs, lo, hi, i + 1, 0);
  }

  /** With one log per identity, a position decides alone whether its log is untimed. */
  lemma {:induction false} UntimedIff(d: Decoder, logs: seq<Log>, lo: int, hi: int, i: nat)
    requires i < |logs| && Identified(d, logs, lo, hi) && Contracted(d, logs[i], lo, hi)
    ensures Bare(logs[i]) in Untimed(d, logs, lo, hi) <==> IsUntimed(d, logs, i, lo, hi)
  {
    if IsUntimed(d, logs, i, lo, hi) { UntimedEnters(d, logs, lo, hi, i); }
    if Bare(logs[i]) in Untimed(d, logs, lo, hi) {
      var j := UntimedPosition(d, logs, lo, hi, Bare(logs[i]));
      assert SameIdentity(logs[i], logs[j]);
    }
  }

  /** One more log caches a time exactly when it is the first readable one of its block. */
  lemma CacheStep(d: Decoder, s: State, log: Log, lo: int, hi: int, b: int)
    ensures Cached(DecodeOne(StepOf(d), s, log, lo, hi).times, Some(b))
         == if Cached(s.times, Some(b)).Some? then Cached(s.times, Some(b))
            else if Contracted(d, log, lo, hi) && log.block == Some(b) then ReadTime(log) else None
  {
  }

  /** The cache holds exactly the first readable times. */
  lemma {:induction false} CacheIsFirstTime(d: Decoder, logs: seq<Log>, lo: int, hi: int, b: int)
    ensures Cached(DecodeAll(StepOf(d), logs, lo, hi).times, Some(b)) == FirstTime(d, logs, lo, hi, b)
    decreases |logs|
  {
    if logs != [] {
      var n := |logs| - 1;
      CacheIsFirstTime(d, logs[..n], lo, hi, b);
      CacheStep(d, DecodeAll(StepOf(d), logs[..n], lo, hi), logs[n], lo, hi, b);
    }
  }

  /** The effect of the log at `i` in the decode loop is the one the final times give it. */
  lemma {:induction false} EffectIsGiven(d: Decoder, logs: seq<Log>, lo: int, hi: int, i: nat)
    requires i < |logs| && Identified(d, logs, lo, hi)
    ensures var log := logs[i];
      var e := EffectOf(d, log, InRange(log, lo, hi), Cached(DecodeAll(StepOf(d), logs[..i], lo, hi).times, log.block));
      e.events == Given(d, logs, log, lo, hi).events && e.issues == Given(d, logs, log, lo, hi).issues
  {
    var log := logs[i];
    if Contracted(d, log, lo, hi) {
      var b := log.block.value;
      CacheIsFirstTime(d, logs[..i], lo, hi, b);
      UntimedIff(d, logs, lo, hi, i);
      var next := logs[..i + 1];
      assert next[..i] == logs[..i] && next[i] == log;
      assert !IsUntimed(d, logs, i, lo, hi) ==> FirstTime(d, next, lo, hi, b).Some?;
      TimesStay(d, logs, lo, hi, i + 1, b);
    }
  }

  /** Decoding is a log-by-log function of the times read. */
  lemma {:induction false} DecodeByTimes(d: Decoder, logs: seq<Log>, lo: int, hi: int, n: nat)
    requires n <= |logs| && Identified(d, logs, lo, hi)
    ensures var s := DecodeAll(StepOf(d), logs[..n], lo, hi);
      s.events == EventsOf(GivenStep(d, logs, lo, hi), logs[..n]) && s.issues == IssuesOf(GivenStep(d, logs, lo, hi), logs[..n])
  {
    if n > 0 {
      DecodeByTimes(d, logs, lo, hi, n - 1);
      EffectIsGiven(d, logs, lo, hi, n - 1);
      assert logs[..n][..n - 1] == logs[..n - 1];
    }
  }

  // ----- The exact condition -----

  /** Some contract log of the block is given a time and turned into an event. */
  ghost predicate BuildsIn(d: Decoder, logs: seq<Log>, lo: int, hi: int, b: int) {
    exists i :: 0 <= i < |logs| && logs[i].block == Some(b) && Given(d, logs, logs[i], lo, hi).events != []
  }

  /** The same logs were refused for want of a time, and every block that yields an event had the same time. */
  ghost predicate TimesAlike(d: Decoder, a: seq<Log>, c: seq<Log>, lo: int, hi: int) {
    && Untimed(d, a, lo, hi) == Untimed(d, c, lo, hi)
    && forall b :: FirstTime(d, a, lo, hi, b) == FirstTime(d, c, lo, hi, b) || !BuildsIn(d, a, lo, hi, b)
  }

  /** The same logs, in any order and with any lookups. */
  function BareAll(logs: seq<Log>): (bare: seq<Log>)
    ensures |bare| == |logs| && forall i :: 0 <= i < |logs| ==> bare[i] == Bare(logs[i])
  {
    seq(|logs|, i requires 0 <= i < |logs| => Bare(logs[i]))
  }

  /** The same logs in every block, whatever lookups were made for them. */
  ghost predicate SameChain(a: int -> seq<Log>, c: int -> seq<Log>) {
    forall b: int :: BareAll(a(b)) == BareAll(c(b))
  }

  ghost predicate SameLogs(a: seq<Log>, c: seq<Log>) {
    multiset(BareAll(a)) == multiset(BareAll(c))
  }

  lemma SameLogsMember(a: seq<Log>, c: seq<Log>, i: nat) returns (j: nat)
    requires SameLogs(a, c) && i < |a|
    ensures j < |c| && Bare(c[j]) == Bare(a[i])
  {
    assert BareAll(a)[i] in multiset(BareAll(a));
    assert BareAll(a)[i] in BareAll(c);
    j :| 0 <= j < |c| && BareAll(c)[j] == BareAll(a)[i];
  }

  /** Alike times give every log the same outcome. */
  lemma AlikeGivesSame(d: Decoder, a: seq<Log>, c: seq<Log>, lo: int, hi: int, i: nat)
    requires Lawful(d) && TimesAlike(d, a, c, lo, hi) && i < |a| && Identified(d, a, lo, hi)
    requires FirstTimesExist(d, a, c, lo, hi)
    ensures Given(d, a, a[i], lo, hi) == Given(d, c, a[i], lo, hi)
  {
    var log := a[i];
    if Contracted(d, log, lo, hi) && Bare(log) !in Untimed(d, a, lo, hi) {
      var b := log.block.value;
      UntimedIff(d, a, lo, hi, i);
      TimedIsRead(d, a, lo, hi, i);
      var s := FirstTime(d, a, lo, hi, b).value;
      if FirstTime(d, c, lo, hi, b) != Some(s) {
        assert !BuildsIn(d, a, lo, hi, b);
        assert Given(d, a, a[i], lo, hi).events == [];
      }
    }
  }

  /** Every contract log that is not untimed has a time in both. */
  ghost predicate FirstTimesExist(d: Decoder, a: seq<Log>, c: seq<Log>, lo: int, hi: int) {
    forall i :: 0 <= i < |a| && Contracted(d, a[i], lo, hi) && Bare(a[i]) !in Untimed(d, c, lo, hi)
      ==> FirstTime(d, c, lo, hi, a[i].block.value).Some?
  }

  lemma {:induction false} TimedIsRead(d: Decoder, logs: seq<Log>, lo: int, hi: int, i: nat)
    requires i < |logs| && Contracted(d, logs[i], lo, hi) && !IsUntimed(d, logs, i, lo, hi)
    ensures FirstTime(d, logs, lo, hi, logs[i].block.value).Some?
  {
    var next := logs[..i + 1];
    assert next[..i] == logs[..i] && next[i] == logs[i];
    assert FirstTime(d, next, lo, hi, logs[i].block.value).Some?;
    TimesStay(d, logs, lo, hi, i + 1, logs[i].block.value);
  }

  lemma SameLogsHaveTimes(d: Decoder, a: seq<Log>, c: seq<Log>, lo: int, hi: int)
    requires SameLogs(a, c) && Identified(d, c, lo, hi)
    ensures FirstTimesExist(d, a, c, lo, hi)
  {
    forall i | 0 <= i < |a| && Contracted(d, a[i], lo, hi) && Bare(a[i]) !in Untimed(d, c, lo, hi)
      ensures FirstTime(d, c, lo, hi, a[i].block.value).Some?
    {
      var j := SameLogsMember(a, c, i);
      UntimedIff(d, c, lo, hi, j);
      TimedIsRead(d, c, lo, hi, j);
    }
  }

  // ----- Alike times decode alike -----

  lemma {:induction false} EventsOfConcat(f: LogStep, a: seq<Log>, c: seq<Log>)
    ensures EventsOf(f, a + c) == EventsOf(f, a) + EventsOf(f, c)
    ensures IssuesOf(f, a + c) == IssuesOf(f, a) + IssuesOf(f, c)
    decreases |c|
  {
    if c == [] {
      assert a + c == a;
    } else {
      assert (a + c)[..|a + c| - 1] == a + c[..|c| - 1];
      EventsOfConcat(f, a, c[..|c| - 1]);
    }
  }

  lemma RemoveOne(front: seq<Log>, x: Log, before: seq<Log>, after: seq<Log>)
    requires multiset(front + [x]) == multiset(before + [x] + after)
    ensures multiset(front) == multiset(before + after)
  {
    assert multiset(front) == multiset(front + [x]) - multiset{x};
    assert multiset(before + after) == multiset(before + [x] + after) - multiset{x};
  }

  lemma {:induction false} EventsWithOne(f: LogStep, before: seq<Log>, x: Log, after: seq<Log>)
    ensures multiset(EventsOf(f, before + [x] + after)) == multiset(EventsOf(f, before + after)) + multiset(f(x, true, None).events)
    ensures multiset(IssuesOf(f, before + [x] + after)) == multiset(IssuesOf(f, before + after)) + multiset(f(x, true, None).issues)
  {
    EventsOfConcat(f, before, [x]);
    EventsOfConcat(f, before + [x], after);
    EventsOfConcat(f, before, after);
    assert [x][..0] == [];
  }

  /** Decoding log by log forgets the order of the logs. */
  lemma {:induction false} OrderIsForgotten(f: LogStep, a: seq<Log>, c: seq<Log>)
    requires multiset(a) == multiset(c)
    ensures multiset(EventsOf(f, a)) == multiset(EventsOf(f, c)) && multiset(IssuesOf(f, a)) == multiset(IssuesOf(f, c))
    decreases |a|
  {
    if a == [] {
      assert |multiset(c)| == 0;
      assert c == [];
    } else {
      var front, x := a[..|a| - 1], a[|a| - 1];
      assert a == front + [x] == front + [x] + [] && x in multiset(a) && x in c;
      var i :| 0 <= i < |c| && c[i] == x;
      var before, after := c[..i], c[i + 1..];
      assert c == before + [x] + after;
      RemoveOne(front, x, before, after);
      OrderIsForgotten(f, front, before + after);
      EventsWithOne(f, before, x, after);
      EventsWithOne(f, front, x, []);
      assert front + [] == front;
    }
  }

  lemma {:induction false} DecodeIsGiven(d: Decoder, logs: seq<Log>, lo: int, hi: int)
    requires Identified(d, logs, lo, hi)
    ensures var s := DecodeAll(StepOf(d), logs, lo, hi);
      s.events == EventsOf(GivenStep(d, logs, lo, hi), logs) && s.issues == IssuesOf(GivenStep(d, logs, lo, hi), logs)
  {
    DecodeByTimes(d, logs, lo, hi, |logs|);
    assert logs[..|logs|] == logs;
  }

  /** Steps that treat corresponding bare logs alike build the same lists. */
  lemma {:induction false} StepsAgree(f: LogStep, g: LogStep, a: seq<Log>, c: seq<Log>)
    requires |a| == |c|
    requires forall i :: 0 <= i < |a| ==> f(a[i], true, None) == g(c[i], true, None)
    ensures EventsOf(f, a) == EventsOf(g, c) && IssuesOf(f, a) == IssuesOf(g, c)
    decreases |a|
  {
    if a != [] { StepsAgree(f, g, a[..|a| - 1], c[..|c| - 1]); }
  }

  /** Outcomes do not depend on a log's own lookup once the times are given. */
  lemma {:induction false} GivenIsBare(d: Decoder, times: seq<Log>, logs: seq<Log>, lo: int, hi: int)
    ensures EventsOf(GivenStep(d, times, lo, hi), logs) == EventsOf(GivenStep(d, times, lo, hi), BareAll(logs))
    ensures IssuesOf(GivenStep(d, times, lo, hi), logs) == IssuesOf(GivenStep(d, times, lo, hi), BareAll(logs))
  {
    var f := GivenStep(d, times, lo, hi);
    forall i | 0 <= i < |logs| ensures f(logs[i], true, None) == f(BareAll(logs)[i], true, None) {
      assert BareAll(logs)[i] == Bare(logs[i]);
    }
    StepsAgree(f, f, logs, BareAll(logs));
  }

  /** Two lists that can be compared: lawful decoder, the same logs, one log per identity. */
  ghost predicate Comparable(d: Decoder, a: seq<Log>, c: seq<Log>, lo: int, hi: int) {
    Lawful(d) && SameLogs(a, c) && Identified(d, a, lo, hi) && Identified(d, c, lo, hi)
  }

  lemma {:induction false} AlikeStepsAgree(d: Decoder, a: seq<Log>, c: seq<Log>, lo: int, hi: int)
    requires Comparable(d, a, c, lo, hi) && TimesAlike(d, a, c, lo, hi)
    ensures EventsOf(GivenStep(d, a, lo, hi), a) == EventsOf(GivenStep(d, c, lo, hi), a)
    ensures IssuesOf(GivenStep(d, a, lo, hi), a) == IssuesOf(GivenStep(d, c, lo, hi), a)
  {
    SameLogsHaveTimes(d, a, c, lo, hi);
    forall i | 0 <= i < |a| ensures Given(d, a, a[i], lo, hi) == Given(d, c, a[i], lo, hi) {
      AlikeGivesSame(d, a, c, lo, hi, i);
    }
    StepsAgree(GivenStep(d, a, lo, hi), GivenStep(d, c, lo, hi), a, a);
  }

  /** Alike times decode to the same events and issues, up to order. */
  lemma {:induction false} AlikeDecodesAlike(d: Decoder, a: seq<Log>, c: seq<Log>, lo: int, hi: int)
    requires Comparable(d, a, c, lo, hi) && TimesAlike(d, a, c, lo, hi)
    ensures var s, r := DecodeAll(StepOf(d), a, lo, hi), DecodeAll(StepOf(d), c, lo, hi);
      multiset(s.events) == multiset(r.events) && multiset(s.issues) == multiset(r.issues)
  {
    DecodeIsGiven(d, a, lo, hi);
    DecodeIsGiven(d, c, lo, hi);
    AlikeStepsAgree(d, a, c, lo, hi);
    GivenIsBare(d, c, a, lo, hi);
    GivenIsBare(d, c, c, lo, hi);
    OrderIsForgotten(GivenStep(d, c, lo, hi), BareAll(a), BareAll(c));
  }

  lemma {:induction false} EventOrigin(f: LogStep, logs: seq<Log>, e: Event)
    ensures e in EventsOf(f, logs) <==> exists i :: 0 <= i < |logs| && e in f(logs[i], true, None).events
  {
    if logs != [] {
      var n := |logs| - 1;
      EventOrigin(f, logs[..n], e);
      if i :| 0 <= i < n && e in f(logs[..n][i], true, None).events { assert e in f(logs[i], true, None).events; }
    }
  }

  lemma {:induction false} IssueOrigin(f: LogStep, logs: seq<Log>, x: Issue)
    ensures x in IssuesOf(f, logs) <==> exists i :: 0 <= i < |logs| && x in f(logs[i], true, None).issues
  {
    if logs != [] {
      var n := |logs| - 1;
      IssueOrigin(f, logs[..n], x);
      if i :| 0 <= i < n && x in f(logs[..n][i], true, None).issues { assert x in f(logs[i], true, None).issues; }
    }
  }

  // ----- ... and only alike times do -----

  ghost predicate SameMembers(a: State, c: State) {
    (forall e :: e in a.events <==> e in c.events) && (forall x :: x in a.issues <==> x in c.issues)
  }

  lemma RangeReasonIsNoTime()
    ensures !BlamesTime("log block is outside the requested range")
  {
    var r := "log block is outside the requested range";
    assert r[0] == 'l' && "block lookup failed"[0] == 'b' && "block timestamp is unreadable"[0] == 'b';
  }

  /** An issue that blames the time comes from an untimed contract log. */
  lemma {:induction false} BlamedIsUntimed(d: Decoder, logs: seq<Log>, lo: int, hi: int, j: nat, x: Issue)
    requires Lawful(d) && Identified(d, logs, lo, hi) && j < |logs|
    requires x in Given(d, logs, logs[j], lo, hi).issues && BlamesTime(x.reason)
    ensures Contracted(d, logs[j], lo, hi) && Bare(logs[j]) in Untimed(d, logs, lo, hi)
    ensures x.txHash == logs[j].txHash && x.logIndex == logs[j].logIndex
  {
    RangeReasonIsNoTime();
    if Contracted(d, logs[j], lo, hi) {
      UntimedIff(d, logs, lo, hi, j);
      if !IsUntimed(d, logs, j, lo, hi) { TimedIsRead(d, logs, lo, hi, j); }
    }
  }

  lemma {:induction false} IssuedFrom(d: Decoder, logs: seq<Log>, lo: int, hi: int, x: Issue)
    requires Identified(d, logs, lo, hi)
    ensures x in DecodeAll(StepOf(d), logs, lo, hi).issues <==> exists i :: 0 <= i < |logs| && x in Given(d, logs, logs[i], lo, hi).issues
  {
    DecodeIsGiven(d, logs, lo, hi);
    IssueOrigin(GivenStep(d, logs, lo, hi), logs, x);
    if i :| 0 <= i < |logs| && x in Given(d, logs, logs[i], lo, hi).issues {
      assert x in GivenStep(d, logs, lo, hi)(logs[i], true, None).issues;
    }
  }

  /** An untimed log is reported as one. */
  lemma UntimedIsIssued(d: Decoder, logs: seq<Log>, lo: int, hi: int, x: Log) returns (i: nat, issue: Issue)
    requires Identified(d, logs, lo, hi) && x in Untimed(d, logs, lo, hi)
    ensures i < |logs| && Bare(logs[i]) == x && Contracted(d, logs[i], lo, hi)
    ensures BlamesTime(issue.reason) && issue.txHash == x.txHash && issue.logIndex == x.logIndex
    ensures issue in DecodeAll(StepOf(d), logs, lo, hi).issues
  {
    i := UntimedPosition(d, logs, lo, hi, x);
    issue := IssueOf(logs[i], TimeRefusal(logs[i]));
    assert issue in Given(d, logs, logs[i], lo, hi).issues;
    IssuedFrom(d, logs, lo, hi, issue);
  }

  /** An issue that blames the time names an untimed log. */
  lemma IssuedIsUntimed(d: Decoder, logs: seq<Log>, lo: int, hi: int, issue: Issue) returns (j: nat)
    requires Lawful(d) && Identified(d, logs, lo, hi)
    requires issue in DecodeAll(StepOf(d), logs, lo, hi).issues && BlamesTime(issue.reason)
    ensures j < |logs| && Contracted(d, logs[j], lo, hi) && Bare(logs[j]) in Untimed(d, logs, lo, hi)
    ensures issue.txHash == logs[j].txHash && issue.logIndex == logs[j].logIndex
  {
    IssuedFrom(d, logs, lo, hi, issue);
    j :| 0 <= j < |logs| && issue in Given(d, logs, logs[j], lo, hi).issues;
    BlamedIsUntimed(d, logs, lo, hi, j, issue);
  }

  lemma {:induction false} AgreementKeepsUntimed(d: Decoder, a: seq<Log>, c: seq<Log>, lo: int, hi: int, x: Log)
    requires Comparable(d, a, c, lo, hi) && x in Untimed(d, a, lo, hi)
    requires forall i :: i in DecodeAll(StepOf(d), a, lo, hi).issues ==> i in DecodeAll(StepOf(d), c, lo, hi).issues
    ensures x in Untimed(d, c, lo, hi)
  {
    var i, issue := UntimedIsIssued(d, a, lo, hi, x);
    var j := IssuedIsUntimed(d, c, lo, hi, issue);
    var k := SameLogsMember(c, a, j);
    assert SameIdentity(a[k], a[i]);
  }

  /** An event was built at its block's first readable time. */
  lemma {:induction false} EventShowsTime(d: Decoder, logs: seq<Log>, lo: int, hi: int, log: Log, e: Event)
    requires Lawful(d) && e in Given(d, logs, log, lo, hi).events
    ensures log.block == Some(e.block) && FirstTime(d, logs, lo, hi, e.block).Some?
    ensures d.build(Bare(log), FirstTime(d, logs, lo, hi, e.block).value) == Success(e)
  {
    assert d.build(Bare(log), FirstTime(d, logs, lo, hi, log.block.value).value) == Success(e);
    assert Bare(log).block == Some(e.block);
  }

  lemma {:induction false} DecodedFrom(d: Decoder, logs: seq<Log>, lo: int, hi: int, e: Event)
    requires Identified(d, logs, lo, hi)
    ensures e in DecodeAll(StepOf(d), logs, lo, hi).events <==> exists i :: 0 <= i < |logs| && e in Given(d, logs, logs[i], lo, hi).events
  {
    DecodeIsGiven(d, logs, lo, hi);
    EventOrigin(GivenStep(d, logs, lo, hi), logs, e);
    if i :| 0 <= i < |logs| && e in Given(d, logs, logs[i], lo, hi).events {
      assert e in GivenStep(d, logs, lo, hi)(logs[i], true, None).events;
    }
  }

  lemma OneTimePerEvent(d: Decoder, x: Log, s: int, y: Log, t: int, e: Event)
    requires ShowsTime(d) && d.build(x, s) == Success(e) == d.build(y, t)
    ensures s == t
  {
  }

  /** An event found in both decodings was built at the same time in both. */
  lemma {:induction false} SharedEventSharesTime(d: Decoder, a: seq<Log>, c: seq<Log>, lo: int, hi: int, i: nat, j: nat, e: Event)
    requires Lawful(d) && i < |a| && j < |c|
    requires e in Given(d, a, a[i], lo, hi).events && e in Given(d, c, c[j], lo, hi).events
    ensures FirstTime(d, a, lo, hi, e.block) == FirstTime(d, c, lo, hi, e.block) && a[i].block == Some(e.block)
  {
    EventShowsTime(d, a, lo, hi, a[i], e);
    EventShowsTime(d, c, lo, hi, c[j], e);
    OneTimePerEvent(d, Bare(a[i]), FirstTime(d, a, lo, hi, e.block).value, Bare(c[j]), FirstTime(d, c, lo, hi, e.block).value, e);
  }

  lemma {:induction false} AgreementKeepsTimes(d: Decoder, a: seq<Log>, c: seq<Log>, lo: int, hi: int, b: int)
    requires Comparable(d, a, c, lo, hi) && BuildsIn(d, a, lo, hi, b)
    requires forall e :: e in DecodeAll(StepOf(d), a, lo, hi).events ==> e in DecodeAll(StepOf(d), c, lo, hi).events
    ensures FirstTime(d, a, lo, hi, b) == FirstTime(d, c, lo, hi, b)
  {
    var i :| 0 <= i < |a| && a[i].block == Some(b) && Given(d, a, a[i], lo, hi).events != [];
    var e := Given(d, a, a[i], lo, hi).events[0];
    DecodedFrom(d, a, lo, hi, e);
    DecodedFrom(d, c, lo, hi, e);
    var j :| 0 <= j < |c| && e in Given(d, c, c[j], lo, hi).events;
    SharedEventSharesTime(d, a, c, lo, hi, i, j, e);
  }

  /** Decodings of the same logs hold the same events and issues exactly when their times are alike. */
  lemma {:induction false} DecodingsAgreeIff(d: Decoder, a: seq<Log>, c: seq<Log>, lo: int, hi: int)
    requires Comparable(d, a, c, lo, hi)
    ensures SameMembers(DecodeAll(StepOf(d), a, lo, hi), DecodeAll(StepOf(d), c, lo, hi)) <==> TimesAlike(d, a, c, lo, hi)
  {
    if TimesAlike(d, a, c, lo, hi) {
      AlikeDecodesAlike(d, a, c, lo, hi);
      SameMultisets(DecodeAll(StepOf(d), a, lo, hi), DecodeAll(StepOf(d), c, lo, hi));
    }
    if SameMembers(DecodeAll(StepOf(d), a, lo, hi), DecodeAll(StepOf(d), c, lo, hi)) { AgreementMeansAlike(d, a, c, lo, hi); }
  }

  lemma SameMultisets(s: State, r: State)
    requires multiset(s.events) == multiset(r.events) && multiset(s.issues) == multiset(r.issues)
    ensures SameMembers(s, r)
  {
    forall e ensures e in s.events <==> e in r.events { assert e in multiset(s.events) <==> e in multiset(r.events); }
    forall x ensures x in s.issues <==> x in r.issues { assert x in multiset(s.issues) <==> x in multiset(r.issues); }
  }

  lemma {:induction false} AgreementMeansAlike(d: Decoder, a: seq<Log>, c: seq<Log>, lo: int, hi: int)
    requires Comparable(d, a, c, lo, hi) && SameMembers(DecodeAll(StepOf(d), a, lo, hi), DecodeAll(StepOf(d), c, lo, hi))
    ensures TimesAlike(d, a, c, lo, hi)
  {
    forall x ensures x in Untimed(d, a, lo, hi) <==> x in Untimed(d, c, lo, hi) {
      if x in Untimed(d, a, lo, hi) { AgreementKeepsUntimed(d, a, c, lo, hi, x); }
      if x in Untimed(d, c, lo, hi) { AgreementKeepsUntimed(d, c, a, lo, hi, x); }
    }
    forall b | BuildsIn(d, a, lo, hi, b) ensures FirstTime(d, a, lo, hi, b) == FirstTime(d, c, lo, hi, b) {
      AgreementKeepsTimes(d, a, c, lo, hi, b);
    }
  }

  // ----- One event per key -----

  /** The same event carries the same everything wherever its key occurs. */
  ghost predicate OneCopy(events: seq<Event>) {
    forall e, x :: e in events && x in events && e.key == x.key ==> e == x
  }

  lemma OneCopyIsFirst(events: seq<Event>, e: Event)
    requires OneCopy(events)
    ensures IsFirst(events, e) <==> e in events
  {
    if e in events {
      var i :| 0 <= i < |events| && events[i] == e;
      var first := FirstExists(events, i);
      assert first in events;
    }
  }

  lemma {:induction false} SameKeySameEvent(d: Decoder, logs: seq<Log>, lo: int, hi: int, e: Event, x: Event)
    requires Lawful(d) && Identified(d, logs, lo, hi) && e.key == x.key
    requires e in EventsOf(GivenStep(d, logs, lo, hi), logs) && x in EventsOf(GivenStep(d, logs, lo, hi), logs)
    ensures e == x
  {
    var i := EventsLog(d, logs, lo, hi, e);
    var j := EventsLog(d, logs, lo, hi, x);
    assert SameIdentity(logs[i], logs[j]);
  }

  /** Events of logs with distinct identities have distinct keys. */
  lemma {:induction false} IdentifiedIsOneCopy(d: Decoder, logs: seq<Log>, lo: int, hi: int)
    requires Lawful(d) && Identified(d, logs, lo, hi)
    ensures OneCopy(DecodeAll(StepOf(d), logs, lo, hi).events)
  {
    DecodeIsGiven(d, logs, lo, hi);
    var events := EventsOf(GivenStep(d, logs, lo, hi), logs);
    forall e, x | e in events && x in events && e.key == x.key ensures e == x {
      SameKeySameEvent(d, logs, lo, hi, e, x);
    }
  }

  lemma EventsLog(d: Decoder, logs: seq<Log>, lo: int, hi: int, e: Event) returns (i: nat)
    requires Lawful(d) && e in EventsOf(GivenStep(d, logs, lo, hi), logs)
    ensures i < |logs| && Contracted(d, logs[i], lo, hi) && logs[i].block == Some(e.block)
    ensures logs[i].txHash == Some(e.key.txHash) && logs[i].logIndex == Some(e.key.logIndex)
    ensures Given(d, logs, logs[i], lo, hi).events == [e]
  {
    EventOrigin(GivenStep(d, logs, lo, hi), logs, e);
    i :| 0 <= i < |logs| && e in GivenStep(d, logs, lo, hi)(logs[i], true, None).events;
    var t := FirstTime(d, logs, lo, hi, logs[i].block.value).value;
    assert d.build(Bare(logs[i]), t) == Success(e);
  }

  // ----- In terms of the lookups made -----

  /** Log `i` asks the provider for its block's time. */
  predicate Asks(d: Decoder, logs: seq<Log>, i: nat, lo: int, hi: int)
    requires i < |logs|
  {
    Contracted(d, logs[i], lo, hi) && logs[i].rawTime.Absent? && FirstTime(d, logs[..i], lo, hi, logs[i].block.value).None?
  }

  /** Two answers that make no difference: equal, or two times of a block that yields no event. */
  ghost predicate AnswersAlike(d: Decoder, a: seq<Log>, c: seq<Log>, i: nat, lo: int, hi: int)
    requires i < |a| == |c| && a[i].block.Some?
  {
    || a[i].lookup == c[i].lookup
    || (a[i].lookup.Some? && c[i].lookup.Some? && !BuildsIn(d, a, lo, hi, a[i].block.value))
  }

  /** Every lookup the decoding had to make is answered alike. */
  ghost predicate LookupsAlike(d: Decoder, a: seq<Log>, c: seq<Log>, lo: int, hi: int)
    requires |a| == |c|
  {
    forall i :: 0 <= i < |a| && Asks(d, a, i, lo, hi) ==> AnswersAlike(d, a, c, i, lo, hi)
  }

  ghost predicate TimesAlikeSoFar(d: Decoder, a: seq<Log>, c: seq<Log>, lo: int, hi: int, n: nat)
    requires n <= |a| == |c|
  {
    && Untimed(d, a[..n], lo, hi) == Untimed(d, c[..n], lo, hi)
    && forall b ::
         var s, t := FirstTime(d, a[..n], lo, hi, b), FirstTime(d, c[..n], lo, hi, b);
         s == t || (s.Some? && t.Some? && !BuildsIn(d, a, lo, hi, b))
  }

  lemma {:induction false} AnswersKeepTimes(d: Decoder, a: seq<Log>, c: seq<Log>, lo: int, hi: int, n: nat)
    requires BareAll(a) == BareAll(c) && n <= |a| && LookupsAlike(d, a, c, lo, hi)
    ensures TimesAlikeSoFar(d, a, c, lo, hi, n)
  {
    if n > 0 {
      var i := n - 1;
      AnswersKeepTimes(d, a, c, lo, hi, i);
      assert BareAll(a)[i] == BareAll(c)[i];
      assert a[..n][..i] == a[..i] && c[..n][..i] == c[..i];
      if Asks(d, a, i, lo, hi) { assert AnswersAlike(d, a, c, i, lo, hi); }
    }
  }

  /** While nothing was read in one decoding, nothing was read in an alike one. */
  lemma {:induction false} UnreadTogether(d: Decoder, a: seq<Log>, c: seq<Log>, lo: int, hi: int, n: nat, b: int)
    requires BareAll(a) == BareAll(c) && n <= |a| && Identified(d, a, lo, hi) && Identified(d, c, lo, hi)
    requires Untimed(d, a, lo, hi) == Untimed(d, c, lo, hi) && FirstTime(d, a[..n], lo, hi, b).None?
    ensures FirstTime(d, c[..n], lo, hi, b).None?
  {
    if n > 0 {
      var i := n - 1;
      assert a[..n][..i] == a[..i] && c[..n][..i] == c[..i] && BareAll(a)[i] == BareAll(c)[i];
      UnreadTogether(d, a, c, lo, hi, i, b);
      if Contracted(d, a[i], lo, hi) && a[i].block == Some(b) {
        UntimedIff(d, a, lo, hi, i);
        UntimedIff(d, c, lo, hi, i);
      }
    }
  }

  /** The first log of a block with a readable time sets the block's time. */
  lemma {:induction false} FirstReadSets(d: Decoder, logs: seq<Log>, lo: int, hi: int, i: nat)
    requires i < |logs| && Contracted(d, logs[i], lo, hi) && ReadTime(logs[i]).Some?
    requires FirstTime(d, logs[..i], lo, hi, logs[i].block.value).None?
    ensures FirstTime(d, logs, lo, hi, logs[i].block.value) == ReadTime(logs[i])
  {
    assert logs[..i + 1][..i] == logs[..i];
    TimesStay(d, logs, lo, hi, i + 1, logs[i].block.value);
  }

  lemma AlikeMeansAnswersAlike(d: Decoder, a: seq<Log>, c: seq<Log>, lo: int, hi: int, i: nat)
    requires BareAll(a) == BareAll(c) && Identified(d, a, lo, hi) && Identified(d, c, lo, hi)
    requires TimesAlike(d, a, c, lo, hi) && i < |a| && Asks(d, a, i, lo, hi)
    ensures AnswersAlike(d, a, c, i, lo, hi)
  {
    assert BareAll(a)[i] == BareAll(c)[i];
    UnreadTogether(d, a, c, lo, hi, i, a[i].block.value);
    UntimedIff(d, a, lo, hi, i);
    UntimedIff(d, c, lo, hi, i);
    if a[i].lookup.Some? {
      FirstReadSets(d, a, lo, hi, i);
      FirstReadSets(d, c, lo, hi, i);
    }
  }

  /** Over the same logs in the same order, the times are alike exactly when every lookup made is answered alike. */
  lemma LookupsDecide(d: Decoder, a: seq<Log>, c: seq<Log>, lo: int, hi: int)
    requires BareAll(a) == BareAll(c) && Identified(d, a, lo, hi) && Identified(d, c, lo, hi)
    ensures TimesAlike(d, a, c, lo, hi) <==> LookupsAlike(d, a, c, lo, hi)
  {
    if LookupsAlike(d, a, c, lo, hi) {
      AnswersKeepTimes(d, a, c, lo, hi, |a|);
      assert a[..|a|] == a && c[..|c|] == c;
    }
    if TimesAlike(d, a, c, lo, hi) {
      forall i | 0 <= i < |a| && Asks(d, a, i, lo, hi) ensures AnswersAlike(d, a, c, i, lo, hi) {
        AlikeMeansAnswersAlike(d, a, c, lo, hi, i);
      }
    }
  }

  // ----- A lookup that fails in one of two captures -----

  function AskingLog(lookup: Option<int>): Log { Log(Some(0), Some("tx"), Some(0), Absent, "pool", "", lookup) }

  /** A time spelled out, so that different times read differently. */
  function Spelled(t: int): string {
    if t >= 0 then seq(t, i => '1') else "-" + seq(-t, i => '1')
  }

  lemma SpelledApart(s: int, t: int)
    requires Spelled(s) == Spelled(t)
    ensures s == t
  {
    assert s > 0 ==> Spelled(s)[0] == '1';
    assert t > 0 ==> Spelled(t)[0] == '1';
    assert s < 0 ==> Spelled(s)[0] == '-';
    assert t < 0 ==> Spelled(t)[0] == '-';
    assert |Spelled(s)| == |Spelled(t)|;
  }

  function AskedEvent(t: int): Event { Event(EventKey("chain", "tx", 0), 0, "", Spelled(t)) }

  function AskingDecoder(): Decoder {
    Decoder(log => None, log => None,
      (log: Log, t: int) =>
        if log.block == Some(0) && log.txHash == Some("tx") && log.logIndex == Some(0) then Success(AskedEvent(t)) else Failure("unknown log"))
  }

  lemma AskingIsLawful()
    ensures Lawful(AskingDecoder())
  {
    var d := AskingDecoder();
    forall x: Log, s: int, y: Log, t: int | d.build(x, s).Success? && d.build(x, s) == d.build(y, t) ensures s == t {
      assert d.build(x, s) == Success(AskedEvent(s)) && d.build(y, t) == Success(AskedEvent(t));
      assert Spelled(s) == AskedEvent(s).extra == AskedEvent(t).extra == Spelled(t);
      SpelledApart(s, t);
    }
    assert "unknown log"[0] != "block lookup failed"[0];
  }

  /** One failed lookup turns the event into an issue, under every assumption made above. */
  lemma FailedLookupMatters(t: int)
    ensures Lawful(AskingDecoder()) && Identified(AskingDecoder(), [AskingLog(Some(t))], 0, 0)
    ensures BareAll([AskingLog(Some(t))]) == BareAll([AskingLog(None)])
    ensures DecodeAll(StepOf(AskingDecoder()), [AskingLog(Some(t))], 0, 0).events == [AskedEvent(t)]
    ensures DecodeAll(StepOf(AskingDecoder()), [AskingLog(None)], 0, 0).events == []
  {
    AskingIsLawful();
    assert [AskingLog(Some(t))][..0] == [] && [AskingLog(None)][..0] == [];
    assert DecodeAll(StepOf(AskingDecoder()), [], 0, 0) == State(map[], [], []);
  }
}
