/**
 Decoding provider logs into events and issues, with the per-call timestamp cache of
 `decode_fetched_logs` (backfill/aave_v3.py) and `decode_recovery_logs` (backfill/uniswap_v3.py).
 */
module Decode {
  import opened Wrappers

  datatype RawTime = Absent | Unreadable | Stamped(at: int)

  /**
   A provider log; identity parts that do not parse are absent. A capture decodes each log
   once, so `lookup` can hold what the provider's block lookup answers when this log has to
   ask for its block's time; another capture's lookups may answer otherwise.
   */
  datatype Log = Log(
    block: Option<int>, txHash: Option<string>, logIndex: Option<int>,
    rawTime: RawTime, address: string, data: string, lookup: Option<int>)

  /** The log itself, without the lookup made for it. */
  function Bare(log: Log): Log { log.(lookup := None) }

  datatype EventKey = EventKey(chain: string, txHash: string, logIndex: int)

  /** `body` is every field conflict detection compares; `extra` is the rest. */
  datatype Event = Event(key: EventKey, block: int, body: string, extra: string)

  datatype Issue = Issue(block: Option<int>, txHash: Option<string>, logIndex: Option<int>, reason: string)

  /**
   Source checks and handlers, kept abstract: `checkLog` runs before the range check,
   `checkContract` between it and the timestamp, `build` last. They see the bare log.
   */
  datatype Decoder = Decoder(
    checkLog: Log -> Option<string>,
    checkContract: Log -> Option<string>,
    build: (Log, int) -> Result<Event, string>)

  /** A handler takes the event's block from its log. */
  ghost predicate WellBuilt(d: Decoder) {
    forall log: Log, t: int :: d.build(log, t).Success? ==> log.block == Some(d.build(log, t).value.block)
  }

  datatype State = State(times: map<int, int>, events: seq<Event>, issues: seq<Issue>)

  function IssueOf(log: Log, reason: string): Issue {
    Issue(log.block, log.txHash, log.logIndex, reason)
  }

  /** The log's own timestamp when the provider sent one, else the block lookup. */
  function ReadTime(log: Log): Option<int> {
    match log.rawTime
    case Stamped(t) => Some(t)
    case Unreadable => None
    case Absent => log.lookup
  }

  /** Why a log has no time: its own does not parse, or the lookup raised. */
  function TimeRefusal(log: Log): string {
    if log.rawTime.Unreadable? then "block timestamp is unreadable" else "block lookup failed"
  }

  /** What one log adds: at most one cached time, and one event or one issue. */
  datatype Effect = Effect(time: Option<int>, events: seq<Event>, issues: seq<Issue>)

  function Rejected(log: Log, reason: string, time: Option<int>): Effect {
    Effect(time, [], [IssueOf(log, reason)])
  }

  /** Meaning of one iteration of the decode loop, given the cached time of the log's block. */
  function EffectOf(d: Decoder, log: Log, inRange: bool, cached: Option<int>): Effect {
    if d.checkLog(Bare(log)).Some? then Rejected(log, d.checkLog(Bare(log)).value, None)
    else if log.block.None? || !inRange then Rejected(log, "log block is outside the requested range", None)
    else if d.checkContract(Bare(log)).Some? then Rejected(log, d.checkContract(Bare(log)).value, None)
    else
      match if cached.Some? then cached else ReadTime(log)
      case None => Rejected(log, TimeRefusal(log), None)
      case Some(t) =>
        match d.build(Bare(log), t)
        case Failure(reason) => Rejected(log, reason, Some(t))
        case Success(e) => Effect(Some(t), [e], [])
  }

  function Cached(times: map<int, int>, block: Option<int>): Option<int> {
    if block.Some? && block.value in times then Some(times[block.value]) else None
  }

  predicate InRange(log: Log, lo: int, hi: int) {
    log.block.Some? && lo <= log.block.value <= hi
  }

  function AddEffect(s: State, log: Log, e: Effect): State {
    State(
      if e.time.Some? && log.block.Some? then s.times[log.block.value := e.time.value] else s.times,
      s.events + e.events,
      s.issues + e.issues)
  }

  /** The effect of a log given whether its block is in range and its block's cached time. */
  type LogStep = (Log, bool, Option<int>) -> Effect

  function StepOf(d: Decoder): LogStep {
    (log: Log, inRange: bool, cached: Option<int>) => EffectOf(d, log, inRange, cached)
  }

  function DecodeOne(f: LogStep, s: State, log: Log, lo: int, hi: int): State {
    AddEffect(s, log, f(log, InRange(log, lo, hi), Cached(s.times, log.block)))
  }

  function DecodeAll(f: LogStep, logs: seq<Log>, lo: int, hi: int): State {
    if logs == [] then State(map[], [], [])
    else DecodeOne(f, DecodeAll(f, logs[..|logs| - 1], lo, hi), logs[|logs| - 1], lo, hi)
  }

  /** The log's time: the one known for its block, else its own, else the lookup's when it carries none. */
  ghost predicate Dated(log: Log, times: map<int, int>, t: int) {
    if log.block.Some? && log.block.value in times then t == times[log.block.value]
    else log.rawTime == Stamped(t) || (log.rawTime == Absent && log.lookup == Some(t))
  }

  /** The log passes every check and lies in the range. */
  ghost predicate Passes(d: Decoder, log: Log, lo: int, hi: int) {
    && d.checkLog(log.(lookup := None)) == None && d.checkContract(log.(lookup := None)) == None
    && log.block.Some? && lo <= log.block.value <= hi
  }

  /** Why a log that passes no event on is refused. */
  ghost predicate RefusedFor(d: Decoder, log: Log, lo: int, hi: int, times: map<int, int>, reason: string) {
    var bare := log.(lookup := None);
    if d.checkLog(bare).Some? then reason == d.checkLog(bare).value
    else if !(log.block.Some? && lo <= log.block.value <= hi) then reason == "log block is outside the requested range"
    else if d.checkContract(bare).Some? then reason == d.checkContract(bare).value
    else if exists t :: Dated(log, times, t) then exists t :: Dated(log, times, t) && d.build(bare, t) == Failure(reason)
    else reason == if log.rawTime == Unreadable then "block timestamp is unreadable" else "block lookup failed"
  }

  /** One turn of the decode loop. */
  method DecodeLog(d: Decoder, log: Log, lo: int, hi: int, times: map<int, int>) returns (times': map<int, int>, e: Option<Event>, i: Option<Issue>)
    ensures e.Some? <==> i.None?
    ensures e.Some? ==> Passes(d, log, lo, hi) && exists t :: Dated(log, times, t) && d.build(log.(lookup := None), t) == Success(e.value)
    ensures i.Some? ==> i.value.block == log.block && i.value.txHash == log.txHash && i.value.logIndex == log.logIndex
    ensures i.Some? ==> RefusedFor(d, log, lo, hi, times, i.value.reason)
    ensures forall b :: b in times ==> b in times' && times'[b] == times[b]
    ensures var effect := EffectOf(d, log, InRange(log, lo, hi), Cached(times, log.block));
      && effect.events == (if e.Some? then [e.value] else []) && effect.issues == (if i.Some? then [i.value] else [])
      && times' == if effect.time.Some? && log.block.Some? then times[log.block.value := effect.time.value] else times
  {
    times', e, i := times, None, None;
    var refused := d.checkLog(Bare(log));
    if refused.Some? { return times, None, Some(IssueOf(log, refused.value)); }
    if log.block.None? || !(lo <= log.block.value <= hi) {
      return times, None, Some(IssueOf(log, "log block is outside the requested range"));
    }
    var outside := d.checkContract(Bare(log));
    if outside.Some? { return times, None, Some(IssueOf(log, outside.value)); }
    var block := log.block.value;
    if block !in times {
      var read := ReadTime(log);
      if read.None? {
        assert forall t :: !Dated(log, times, t);
        return times, None, Some(IssueOf(log, TimeRefusal(log)));
      }
      times' := times[block := read.value];
    }
    assert Dated(log, times, times'[block]) && times' == times'[block := times'[block]];
    var built := d.build(Bare(log), times'[block]);
    if built.Success? { e := Some(built.value); } else { i := Some(IssueOf(log, built.error)); }
  }

  method DecodeLogs(d: Decoder, logs: seq<Log>, lo: int, hi: int) returns (events: seq<Event>, issues: seq<Issue>)
    ensures events == DecodeAll(StepOf(d), logs, lo, hi).events
    ensures issues == DecodeAll(StepOf(d), logs, lo, hi).issues
  {
    var times: map<int, int> := map[];
    events, issues := [], [];
    for i := 0 to |logs|
      invariant DecodeAll(StepOf(d), logs[..i], lo, hi) == State(times, events, issues)
    {
      assert logs[..i + 1][..i] == logs[..i];
      var event, issue;
      times, event, issue := DecodeLog(d, logs[i], lo, hi, times);
      events := events + if event.Some? then [event.value] else [];
      issues := issues + if issue.Some? then [issue.value] else [];
    }
    assert logs[..|logs|] == logs;
  }

  /** Every log that parses a block parses one of this interval. */
  ghost predicate BlocksWithin(logs: seq<Log>, lo: int, hi: int) {
    forall i :: 0 <= i < |logs| && logs[i].block.Some? ==> lo <= logs[i].block.value <= hi
  }

  /** Two caches agree on one block. */
  ghost predicate SameTime(s: State, t: State, b: int) {
    Cached(s.times, Some(b)) == Cached(t.times, Some(b))
  }

  /** The requested bounds do not matter for logs inside them. */
  lemma {:induction false} DecodeIgnoresWiderBounds(f: LogStep, logs: seq<Log>, lo: int, hi: int, lo': int, hi': int)
    requires BlocksWithin(logs, lo, hi) && lo' <= lo && hi <= hi'
    ensures DecodeAll(f, logs, lo', hi') == DecodeAll(f, logs, lo, hi)
  {
    if logs != [] {
      DecodeIgnoresWiderBounds(f, logs[..|logs| - 1], lo, hi, lo', hi');
    }
  }

  /** A log outside the range is never cached. */
  ghost predicate OnlyCachesInRange(f: LogStep) {
    forall log: Log, cached :: f(log, false, cached).time.None?
  }

  /** At most one event and one issue, both of the log's own block. */
  ghost predicate InBlockOf(log: Log, e: Effect) {
    && |e.events| <= 1 && |e.issues| <= 1
    && (forall x :: x in e.events ==> log.block == Some(x.block))
    && (forall x :: x in e.issues ==> log.block == x.block)
  }

  /** Every event or issue of a log belongs to the log's block. */
  ghost predicate StaysInBlock(f: LogStep) {
    forall log: Log, inRange, cached :: InBlockOf(log, f(log, inRange, cached))
  }

  lemma EffectInBlock(d: Decoder, log: Log, inRange: bool, cached: Option<int>)
    requires WellBuilt(d)
    ensures InBlockOf(log, EffectOf(d, log, inRange, cached))
  {
  }

  /** The decoders of the source have both properties. */
  lemma DecoderSteps(d: Decoder)
    requires WellBuilt(d)
    ensures OnlyCachesInRange(StepOf(d)) && StaysInBlock(StepOf(d))
  {
    forall log: Log, inRange, cached ensures InBlockOf(log, StepOf(d)(log, inRange, cached)) {
      EffectInBlock(d, log, inRange, cached);
    }
  }

  /** The cache only holds blocks that were decoded. */
  lemma {:induction false} TimesWithin(f: LogStep, logs: seq<Log>, lo: int, hi: int)
    requires OnlyCachesInRange(f)
    ensures forall b :: b in DecodeAll(f, logs, lo, hi).times ==> lo <= b <= hi
  {
    if logs != [] { TimesWithin(f, logs[..|logs| - 1], lo, hi); }
  }

  /** The states of a whole and of its two parts, read one after the other. */
  ghost predicate InStep(s: State, s1: State, s2: State, mid: int) {
    && s.events == s1.events + s2.events
    && s.issues == s1.issues + s2.issues
    && forall x :: x > mid ==> SameTime(s, s2, x)
  }

  /** One more log of the second part keeps whole and parts in step. */
  lemma SplitStep(f: LogStep, s: State, s1: State, s2: State, log: Log, lo: int, mid: int, hi: int)
    requires InStep(s, s1, s2, mid) && lo <= mid + 1 && (log.block.Some? ==> mid + 1 <= log.block.value <= hi)
    ensures InStep(DecodeOne(f, s, log, lo, hi), s1, DecodeOne(f, s2, log, mid + 1, hi), mid)
  {
    if log.block.Some? { assert SameTime(s, s2, log.block.value); }
    AddBoth(s, s2, log, f(log, InRange(log, lo, hi), Cached(s.times, log.block)));
  }

  /**
   Decoding two adjacent intervals separately, each with its own timestamp cache, gives
   exactly the events and issues of decoding them together.
   */
  lemma {:induction false} DecodeSplits(f: LogStep, a: seq<Log>, b: seq<Log>, lo: int, mid: int, hi: int)
    requires OnlyCachesInRange(f)
    requires BlocksWithin(a, lo, mid) && BlocksWithin(b, mid + 1, hi) && lo <= mid + 1 <= hi + 1
    ensures InStep(DecodeAll(f, a + b, lo, hi), DecodeAll(f, a, lo, mid), DecodeAll(f, b, mid + 1, hi), mid)
    decreases |b|
  {
    if b == [] {
      assert a + b == a;
      DecodeIgnoresWiderBounds(f, a, lo, mid, lo, hi);
      TimesWithin(f, a, lo, mid);
    } else {
      var front, log := b[..|b| - 1], b[|b| - 1];
      assert (a + b)[..|a + b| - 1] == a + front;
      DecodeSplits(f, a, front, lo, mid, hi);
      SplitStep(f, DecodeAll(f, a + front, lo, hi), DecodeAll(f, a, lo, mid), DecodeAll(f, front, mid + 1, hi), log, lo, mid, hi);
    }
  }

  /** Adding one effect to two states keeps what they agree on. */
  lemma AddBoth(s: State, t: State, log: Log, e: Effect)
    ensures forall x :: SameTime(s, t, x) ==> SameTime(AddEffect(s, log, e), AddEffect(t, log, e), x)
    ensures forall x :: log.block != Some(x) ==> SameTime(s, AddEffect(s, log, e), x)
  {
  }

  /** The part of a sequence that belongs to one block. */
  function LogsAt(logs: seq<Log>, b: int): seq<Log> {
    if logs == [] then []
    else LogsAt(logs[..|logs| - 1], b) + (if logs[|logs| - 1].block == Some(b) then [logs[|logs| - 1]] else [])
  }

  function EventsAt(events: seq<Event>, b: int): seq<Event> {
    if events == [] then []
    else EventsAt(events[..|events| - 1], b) + (if events[|events| - 1].block == b then [events[|events| - 1]] else [])
  }

  function IssuesAt(issues: seq<Issue>, b: int): seq<Issue> {
    if issues == [] then []
    else IssuesAt(issues[..|issues| - 1], b) + (if issues[|issues| - 1].block == Some(b) then [issues[|issues| - 1]] else [])
  }

  lemma {:induction false} EventsAtAdd(events: seq<Event>, more: seq<Event>, b: int)
    requires |more| <= 1
    ensures EventsAt(events + more, b) == EventsAt(events, b) + EventsAt(more, b)
  {
    if more == [] {
      assert events + more == events;
    } else {
      assert (events + more)[..|events|] == events && more[..0] == [];
    }
  }

  lemma {:induction false} IssuesAtAdd(issues: seq<Issue>, more: seq<Issue>, b: int)
    requires |more| <= 1
    ensures IssuesAt(issues + more, b) == IssuesAt(issues, b) + IssuesAt(more, b)
  {
    if more == [] {
      assert issues + more == issues;
    } else {
      assert (issues + more)[..|issues|] == issues && more[..0] == [];
    }
  }

  /** An effect belongs entirely to the block of its log. */
  lemma {:induction false} EffectAt(f: LogStep, log: Log, inRange: bool, cached: Option<int>, b: int)
    requires StaysInBlock(f)
    ensures var e := f(log, inRange, cached);
      && |e.events| <= 1 && |e.issues| <= 1
      && EventsAt(e.events, b) == (if log.block == Some(b) then e.events else [])
      && IssuesAt(e.issues, b) == (if log.block == Some(b) then e.issues else [])
  {
    var e := f(log, inRange, cached);
    if e.events != [] { assert e.events[..0] == [] && e.events[0] in e.events; }
    if e.issues != [] { assert e.issues[..0] == [] && e.issues[0] in e.issues; }
  }

  /** `t` is what `s` holds of block `b`. */
  ghost predicate InBlockStep(s: State, t: State, b: int) {
    EventsAt(s.events, b) == t.events && IssuesAt(s.issues, b) == t.issues && SameTime(s, t, b)
  }

  /** States `s` of all logs and `t` of block `b`'s logs stay in step when one log is added. */
  lemma {:induction false} PerBlockStep(s: State, t: State, log: Log, e: Effect, b: int)
    requires |e.events| <= 1 && |e.issues| <= 1
    requires EventsAt(e.events, b) == (if log.block == Some(b) then e.events else [])
    requires IssuesAt(e.issues, b) == (if log.block == Some(b) then e.issues else [])
    requires InBlockStep(s, t, b)
    ensures InBlockStep(AddEffect(s, log, e), if log.block == Some(b) then AddEffect(t, log, e) else t, b)
  {
    EventsAtAdd(s.events, e.events, b);
    IssuesAtAdd(s.issues, e.issues, b);
    AddBoth(s, t, log, e);
  }

  /** What a block decodes to depends on that block's logs alone, in their order. */
  lemma {:induction false} DecodeIsPerBlock(f: LogStep, logs: seq<Log>, lo: int, hi: int, b: int)
    requires StaysInBlock(f) && lo <= b <= hi
    ensures InBlockStep(DecodeAll(f, logs, lo, hi), DecodeAll(f, LogsAt(logs, b), b, b), b)
    decreases |logs|
  {
    if logs != [] {
      var front, log := logs[..|logs| - 1], logs[|logs| - 1];
      DecodeIsPerBlock(f, front, lo, hi, b);
      var s, t := DecodeAll(f, front, lo, hi), DecodeAll(f, LogsAt(front, b), b, b);
      var e := f(log, InRange(log, lo, hi), Cached(s.times, log.block));
      EffectAt(f, log, InRange(log, lo, hi), Cached(s.times, log.block), b);
      PerBlockStep(s, t, log, e, b);
      LogsAtLast(logs, b);
      assert log.block == Some(b) ==> e == f(log, InRange(log, b, b), Cached(t.times, log.block));
    }
  }

  lemma {:induction false} LogsAtLast(logs: seq<Log>, b: int)
    requires logs != []
    ensures var front, log := logs[..|logs| - 1], logs[|logs| - 1];
      if log.block == Some(b)
      then LogsAt(logs, b) == LogsAt(front, b) + [log] && LogsAt(logs, b)[..|LogsAt(logs, b)| - 1] == LogsAt(front, b)
      else LogsAt(logs, b) == LogsAt(front, b)
  {
  }
}
