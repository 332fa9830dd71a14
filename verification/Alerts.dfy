/** The durable alert lifecycle. */
module Alerts {
  // The durable alert lifecycle: a pure transition policy, committed by compare-and-set on a
  // state version while other evaluators run (orchestration/alerts.py, warehouse/alert_state.py).

  import opened Wrappers
  import opened Control

  datatype Freshness = Fresh | Warning | Stale

  datatype Severity = WarningSeverity | CriticalSeverity

  datatype AlertState = Open | Resolved

  datatype EventType = Opened | Escalated | ResolvedEvent

  /** Check name, pipeline name and reason code, seeded once and never changed. */
  datatype Metadata = Metadata(checkName: string, pipelineName: string, reasonCode: string)

  datatype Reading = Reading(value: int, warning: int, stale: int)

  datatype HealthCondition = HealthCondition(alertKey: string, metadata: Metadata, state: Freshness, reading: Reading)

  datatype AlertRecord = AlertRecord(
    alertKey: string, metadata: Metadata, state: AlertState, severity: Option<Severity>,
    openedAt: Option<Instant>, lastObservedAt: Option<Instant>, resolvedAt: Option<Instant>,
    generation: int, occurrences: int, reading: Option<Reading>, version: int)

  datatype Event = Event(kind: EventType, alertKey: string, severity: Severity, reading: Reading,
                         openedAt: Instant, resolvedAt: Option<Instant>, observedAt: Instant, generation: int)

  datatype Decision = Decision(record: AlertRecord, event: Option<Event>, changed: bool)

  datatype AlertError = WrongIdentity | WrongMetadata | Incomplete | MissingRow | Contended | BadAttempts

  function SeverityOf(state: Freshness): Severity
    requires state != Fresh
  {
    if state == Warning then WarningSeverity else CriticalSeverity
  }

  /** Building an event fails on a record that lacks what every open alert has. */
  function EventFor(kind: EventType, r: AlertRecord, now: Instant): Option<Event> {
    if r.severity.Some? && r.openedAt.Some? && r.reading.Some?
    then Some(Event(kind, r.alertKey, r.severity.value, r.reading.value, r.openedAt.value, r.resolvedAt, now, r.generation))
    else None
  }

  function Announce(record: AlertRecord, kind: EventType, now: Instant): Result<Decision, AlertError> {
    match EventFor(kind, record, now)
    case None => Failure(Incomplete)
    case Some(event) => Success(Decision(record, Some(event), true))
  }

  /** `decide_alert_transition`. */
  function Decide(current: AlertRecord, c: HealthCondition, now: Instant): Result<Decision, AlertError> {
    if current.alertKey != c.alertKey then Failure(WrongIdentity)
    else if current.metadata != c.metadata then Failure(WrongMetadata)
    else if c.state == Fresh then
      if current.state == Resolved then Success(Decision(current, None, false))
      else
        Announce(current.(state := Resolved, lastObservedAt := Some(now), resolvedAt := Some(now),
                          reading := Some(c.reading), version := current.version + 1), ResolvedEvent, now)
    else if current.state == Resolved then
      Announce(AlertRecord(current.alertKey, c.metadata, Open, Some(SeverityOf(c.state)), Some(now), Some(now), None,
                           current.generation + 1, 1, Some(c.reading), current.version + 1), Opened, now)
    else
      var escalated := current.severity == Some(WarningSeverity) && SeverityOf(c.state) == CriticalSeverity;
      var severity := if current.severity == Some(CriticalSeverity) || escalated then CriticalSeverity else WarningSeverity;
      var candidate := current.(severity := Some(severity), lastObservedAt := Some(now), occurrences := current.occurrences + 1,
                                reading := Some(c.reading), version := current.version + 1);
      if escalated then Announce(candidate, Escalated, now) else Success(Decision(candidate, None, true))
  }

  /** The row every alert starts from. */
  predicate Seed(r: AlertRecord) {
    && r.state == Resolved && r.severity == None && r.openedAt == None && r.resolvedAt == None
    && r.generation == 0 && r.occurrences == 0 && r.version == 0
  }

  /** One committed transition. */
  datatype Entry = Entry(before: AlertRecord, condition: HealthCondition, now: Instant, decision: Decision)

  predicate Legal(e: Entry) {
    Decide(e.before, e.condition, e.now) == Success(e.decision) && e.decision.changed
  }

  function RecordAfter(seed: AlertRecord, log: seq<Entry>): AlertRecord {
    if log == [] then seed else log[|log| - 1].decision.record
  }

  /** Each entry was decided from the record the entry before it left. */
  ghost predicate LinkedAt(seed: AlertRecord, log: seq<Entry>, i: nat) {
    i < |log| && Legal(log[i]) && log[i].before == RecordAfter(seed, log[..i])
  }

  ghost predicate Linear(seed: AlertRecord, log: seq<Entry>, current: AlertRecord) {
    && (forall i :: 0 <= i < |log| ==> LinkedAt(seed, log, i))
    && current == RecordAfter(seed, log)
  }

  lemma LinearPrefix(seed: AlertRecord, log: seq<Entry>, n: nat)
    requires n <= |log| && Linear(seed, log, RecordAfter(seed, log))
    ensures Linear(seed, log[..n], RecordAfter(seed, log[..n]))
  {
    forall i | 0 <= i < n ensures LinkedAt(seed, log[..n], i) {
      assert LinkedAt(seed, log, i);
      assert log[..n][..i] == log[..i];
    }
  }

  lemma LinearExtends(seed: AlertRecord, log: seq<Entry>, e: Entry)
    requires Linear(seed, log, e.before) && Legal(e)
    ensures Linear(seed, log + [e], e.decision.record)
  {
    var more := log + [e];
    forall i | 0 <= i < |more| ensures LinkedAt(seed, more, i) {
      if i < |log| {
        assert LinkedAt(seed, log, i);
        assert more[..i] == log[..i];
      } else {
        assert more[..i] == log;
      }
    }
  }

  // ----- The language of event histories -----

  /** An event as a letter: openings carry their severity. */
  datatype Letter = O(severity: Severity) | E | R

  function LetterOf(e: Event): Letter {
    match e.kind case Opened => O(e.severity) case Escalated => E case ResolvedEvent => R
  }

  /** The letters of the committed events, in order. */
  function Word(log: seq<Entry>): seq<Letter> {
    if log == [] then []
    else
      var before, event := Word(log[..|log| - 1]), log[|log| - 1].decision.event;
      if event.Some? then before + [LetterOf(event.value)] else before
  }

  /** Complete incidents, then at most one unfinished: prefixes of (OPENED ESCALATED? RESOLVED)*. */
  predicate IncidentWord(w: seq<Letter>) {
    if w == [] then true
    else if !w[0].O? then false
    else if |w| == 1 then true
    else if w[1].R? then IncidentWord(w[2..])
    else if w[1].E? && w[0].severity == WarningSeverity then
      |w| == 2 || (w[2].R? && IncidentWord(w[3..]))
    else false
  }

  datatype Phase = Closed | OpenedAt(severity: Severity) | AfterEscalation

  function NextPhase(phase: Option<Phase>, letter: Letter): Option<Phase> {
    match (phase, letter)
    case (Some(Closed), O(s)) => Some(OpenedAt(s))
    case (Some(OpenedAt(s)), E) => if s == WarningSeverity then Some(AfterEscalation) else None
    case (Some(OpenedAt(_)), R) => Some(Closed)
    case (Some(AfterEscalation), R) => Some(Closed)
    case _ => None
  }

  /** Reading a word letter by letter. */
  function PhaseAfter(w: seq<Letter>): Option<Phase> {
    if w == [] then Some(Closed) else NextPhase(PhaseAfter(w[..|w| - 1]), w[|w| - 1])
  }

  lemma {:induction false} PhaseAfterIncident(incident: seq<Letter>, rest: seq<Letter>)
    requires PhaseAfter(incident) == Some(Closed)
    ensures PhaseAfter(incident + rest) == PhaseAfter(rest)
    decreases |rest|
  {
    if rest == [] {
      assert incident + rest == incident;
    } else {
      var w := incident + rest;
      assert w[..|w| - 1] == incident + rest[..|rest| - 1];
      PhaseAfterIncident(incident, rest[..|rest| - 1]);
    }
  }

  /** A word that can be read to its end is a sequence of incidents. */
  lemma {:induction false} ReadableIsIncidents(w: seq<Letter>)
    requires PhaseAfter(w).Some?
    ensures IncidentWord(w)
    decreases |w|
  {
    if |w| > 0 {
      PrefixReads(w, 1);
      assert w[..1] == [w[0]] && [w[0]][..0] == [];
      if |w| > 1 {
        PrefixReads(w, 2);
        assert w[..2][..1] == w[..1];
        if w[1].R? {
          assert w == w[..2] + w[2..];
          PhaseAfterIncident(w[..2], w[2..]);
          ReadableIsIncidents(w[2..]);
        } else if |w| > 2 {
          PrefixReads(w, 3);
          assert w[..3][..2] == w[..2];
          assert w == w[..3] + w[3..];
          PhaseAfterIncident(w[..3], w[3..]);
          ReadableIsIncidents(w[3..]);
        }
      }
    }
  }

  /** Reading one letter more. */
  lemma ReadsOn(w: seq<Letter>, n: nat)
    requires n < |w|
    ensures PhaseAfter(w[..n + 1]) == NextPhase(PhaseAfter(w[..n]), w[n])
    ensures PhaseAfter(w[..0]) == Some(Closed)
  {
    assert w[..n + 1][..n] == w[..n];
  }

  /** And a sequence of incidents can be read to its end. */
  lemma {:induction false} IncidentsAreReadable(w: seq<Letter>)
    requires IncidentWord(w)
    ensures PhaseAfter(w).Some?
    decreases |w|
  {
    assert w[..|w|] == w;
    if |w| > 0 { ReadsOn(w, 0); }
    if |w| > 1 { ReadsOn(w, 1); }
    if |w| > 1 && w[1].R? {
      assert w == w[..2] + w[2..];
      PhaseAfterIncident(w[..2], w[2..]);
      IncidentsAreReadable(w[2..]);
    } else if |w| > 2 {
      ReadsOn(w, 2);
      assert w == w[..3] + w[3..];
      PhaseAfterIncident(w[..3], w[3..]);
      IncidentsAreReadable(w[3..]);
    }
  }

  lemma {:induction false} PrefixReads(w: seq<Letter>, n: nat)
    requires PhaseAfter(w).Some? && n <= |w|
    ensures PhaseAfter(w[..n]).Some?
    decreases |w|
  {
    if n == |w| {
      assert w[..n] == w;
    } else {
      assert w[..|w| - 1][..n] == w[..n];
      PrefixReads(w[..|w| - 1], n);
    }
  }

  // ----- What a history determines about the current record -----

  /** The latest incident: entry `s` found the alert resolved, and every later one found it open. */
  ghost predicate Spans(log: seq<Entry>, s: nat) {
    s < |log| && log[s].before.state == Resolved && forall i :: s < i < |log| ==> log[i].before.state == Open
  }

  /** Some observation from entry `s` on was stale. */
  ghost predicate SawStale(log: seq<Entry>, s: nat) {
    exists i :: s <= i < |log| && log[i].condition.state == Stale
  }

  /** Every observation from entry `s` on was a warning. */
  ghost predicate OnlyWarnings(log: seq<Entry>, s: nat) {
    forall i :: s <= i < |log| ==> log[i].condition.state == Warning
  }

  /** How many entries found the alert resolved. */
  function Openings(log: seq<Entry>): nat {
    if log == [] then 0 else Openings(log[..|log| - 1]) + if log[|log| - 1].before.state == Resolved then 1 else 0
  }

  /** Severity, observations, reading and times of the record are those of its latest incident. */
  ghost predicate IncidentRecord(log: seq<Entry>, s: nat, r: AlertRecord)
    requires s < |log|
  {
    var n := |log| - 1;
    var last := log[n];
    && (last.condition.state == Fresh ==> s < n && OnlyStaleOrWarning(log, s, n))
    && (last.condition.state != Fresh ==> OnlyStaleOrWarning(log, s, n + 1))
    && r.state == (if last.condition.state == Fresh then Resolved else Open)
    && r.occurrences == (if last.condition.state == Fresh then n - s else n + 1 - s)
    && (r.severity == Some(CriticalSeverity) <==> SawStale(log, s))
    && (r.severity == Some(WarningSeverity) <==> OnlyWarnings(if last.condition.state == Fresh then log[..n] else log, s))
    && r.reading == Some(last.condition.reading)
    && r.openedAt == Some(log[s].now) && r.lastObservedAt == Some(last.now)
    && r.resolvedAt == (if last.condition.state == Fresh then Some(last.now) else None)
  }

  ghost predicate OnlyStaleOrWarning(log: seq<Entry>, s: nat, n: nat) {
    n <= |log| && forall i :: s <= i < n ==> log[i].condition.state != Fresh
  }

  /** When the last entry of an incident announces something, and what. */
  ghost predicate Announces(log: seq<Entry>, s: nat)
    requires s < |log|
  {
    var n := |log| - 1;
    var last, event := log[n], log[n].decision.event;
    && (event.Some? <==> s == n || last.condition.state == Fresh || (last.condition.state == Stale && OnlyWarnings(log[..n], s)))
    && (event.Some? ==>
          && event.value.kind == (if s == n then Opened else if last.condition.state == Fresh then ResolvedEvent else Escalated)
          && event.value.alertKey == last.condition.alertKey
          && event.value.severity == (if SawStale(log, s) then CriticalSeverity else WarningSeverity)
          && event.value.reading == last.condition.reading
          && event.value.openedAt == log[s].now && event.value.observedAt == last.now
          && event.value.resolvedAt == (if last.condition.state == Fresh then Some(last.now) else None)
          && event.value.generation == Openings(log))
  }

  /** What the history says of its latest incident. */
  ghost predicate IncidentAgrees(log: seq<Entry>, r: AlertRecord, s: nat) {
    Spans(log, s) ==> IncidentRecord(log, s, r) && Announces(log, s)
  }

  ghost predicate CountsAgree(log: seq<Entry>, r: AlertRecord) {
    r.version == |log| && r.generation == Openings(log)
  }

  ghost predicate IncidentsAgree(log: seq<Entry>, r: AlertRecord) {
    && (log == [] ==> r.state == Resolved)
    && (log != [] ==> exists s: nat :: Spans(log, s))
    && forall s: nat :: IncidentAgrees(log, r, s)
  }

  ghost predicate PhaseAgrees(log: seq<Entry>, r: AlertRecord) {
    var phase := PhaseAfter(Word(log));
    && (r.state == Resolved ==> phase == Some(Closed))
    && (r.state == Open && r.severity == Some(WarningSeverity) ==> phase == Some(OpenedAt(WarningSeverity)))
    && (r.state == Open && r.severity == Some(CriticalSeverity) ==> phase in {Some(OpenedAt(CriticalSeverity)), Some(AfterEscalation)})
    && (r.state == Open ==> r.severity.Some? && r.openedAt.Some?)
    && phase.Some?
  }

  ghost predicate Agrees(seed: AlertRecord, log: seq<Entry>, r: AlertRecord) {
    && CountsAgree(log, r) && IncidentsAgree(log, r) && PhaseAgrees(log, r)
    && r.alertKey == seed.alertKey && r.metadata == seed.metadata
  }

  /** An emitted event repeats the new record and the reading it was decided on. */
  ghost predicate EventRepeats(e: Entry, kind: EventType) {
    var r := e.decision.record;
    && r.severity.Some? && r.openedAt.Some?
    && e.decision.event == Some(Event(kind, r.alertKey, r.severity.value, e.condition.reading, r.openedAt.value,
                                      r.resolvedAt, e.now, r.generation))
  }

  ghost predicate Closes(e: Entry) {
    var b, a := e.before, e.decision.record;
    && b.state == Open && a.state == Resolved
    && a.severity == b.severity && a.generation == b.generation && a.occurrences == b.occurrences
    && a.openedAt == b.openedAt && a.resolvedAt == Some(e.now)
    && EventRepeats(e, ResolvedEvent)
  }

  ghost predicate Opens(e: Entry, observed: Severity) {
    var b, a := e.before, e.decision.record;
    && b.state == Resolved && a.state == Open
    && a.severity == Some(observed) && a.generation == b.generation + 1 && a.occurrences == 1
    && a.openedAt == Some(e.now) && a.resolvedAt == None
    && EventRepeats(e, Opened)
  }

  ghost predicate Continues(e: Entry, observed: Severity) {
    var b, a := e.before, e.decision.record;
    && b.state == Open && a.state == Open
    && a.severity == (if observed == CriticalSeverity then Some(CriticalSeverity) else b.severity)
    && a.generation == b.generation && a.occurrences == b.occurrences + 1
    && a.openedAt == b.openedAt && a.resolvedAt == b.resolvedAt
    && if a.severity == b.severity then e.decision.event.None? else EventRepeats(e, Escalated)
  }

  /** A committed transition closes, opens or continues an incident, as the observation demands. */
  ghost predicate Moves(e: Entry) {
    var observed := if e.condition.state == Stale then CriticalSeverity else WarningSeverity;
    && e.decision.record.version == e.before.version + 1 && e.decision.record.reading == Some(e.condition.reading)
    && e.decision.record.alertKey == e.before.alertKey == e.condition.alertKey
    && e.decision.record.metadata == e.before.metadata == e.condition.metadata
    && e.decision.record.lastObservedAt == Some(e.now)
    && if e.condition.state == Fresh then Closes(e) else if e.before.state == Resolved then Opens(e, observed) else Continues(e, observed)
  }

  lemma LegalMoves(e: Entry)
    requires Legal(e) && (e.before.state == Open ==> e.before.severity.Some? && e.before.openedAt.Some?)
    ensures Moves(e)
  {
    if e.before.severity.Some? {
      assert e.before.severity.value == WarningSeverity || e.before.severity.value == CriticalSeverity;
    }
  }

  lemma {:induction false} WordGrows(log: seq<Entry>, e: Entry)
    ensures var phase := PhaseAfter(Word(log));
      PhaseAfter(Word(log + [e]))
      == if e.decision.event.Some? then NextPhase(phase, LetterOf(e.decision.event.value)) else phase
  {
    var w := Word(log);
    assert (log + [e])[..|log|] == log;
    if e.decision.event.Some? {
      assert (w + [LetterOf(e.decision.event.value)])[..|w|] == w;
    }
  }

  lemma PhaseStep(log: seq<Entry>, e: Entry)
    requires PhaseAgrees(log, e.before) && Moves(e)
    ensures PhaseAgrees(log + [e], e.decision.record)
  {
    WordGrows(log, e);
    if e.before.severity.Some? {
      assert e.before.severity.value == WarningSeverity || e.before.severity.value == CriticalSeverity;
    }
  }

  lemma {:induction false} OpeningsGrow(log: seq<Entry>, e: Entry)
    ensures Openings(log + [e]) == Openings(log) + if e.before.state == Resolved then 1 else 0
  {
    assert (log + [e])[..|log|] == log;
  }

  /** A transition from a resolved alert is an incident of its own. */
  lemma OpeningAgrees(log: seq<Entry>, e: Entry)
    requires CountsAgree(log, e.before) && Moves(e) && e.before.state == Resolved
    ensures IncidentsAgree(log + [e], e.decision.record)
  {
    var more, n := log + [e], |log|;
    OpeningsGrow(log, e);
    assert more[n] == e;
    assert Spans(more, n);
    assert SawStale(more, n) <==> e.condition.state == Stale;
    forall s: nat ensures IncidentAgrees(more, e.decision.record, s) {
      if Spans(more, s) { assert s == n; }
    }
  }

  /** What a transition from an open alert adds to its incident. */
  lemma IncidentGoesOn(log: seq<Entry>, e: Entry, s: nat)
    requires Spans(log, s) && e.before.state == Open
    ensures Spans(log + [e], s)
    ensures SawStale(log + [e], s) <==> SawStale(log, s) || e.condition.state == Stale
    ensures OnlyWarnings(log + [e], s) <==> OnlyWarnings(log, s) && e.condition.state == Warning
    ensures forall n: nat :: n <= |log| ==> (OnlyStaleOrWarning(log + [e], s, n) <==> OnlyStaleOrWarning(log, s, n))
    ensures OnlyStaleOrWarning(log + [e], s, |log| + 1) <==> OnlyStaleOrWarning(log, s, |log|) && e.condition.state != Fresh
  {
    var more := log + [e];
    assert more[|log|] == e;
    if SawStale(log, s) {
      var i :| s <= i < |log| && log[i].condition.state == Stale;
      assert more[i] == log[i];
    }
    if OnlyWarnings(more, s) {
      forall i | s <= i < |log| ensures log[i].condition.state == Warning { assert more[i] == log[i]; }
    }
    forall n: nat | n <= |log| ensures OnlyStaleOrWarning(more, s, n) <==> OnlyStaleOrWarning(log, s, n) {
      assert forall i :: s <= i < n ==> more[i] == log[i];
    }
  }

  lemma ContinuingAgreesAt(log: seq<Entry>, e: Entry, s: nat)
    requires CountsAgree(log, e.before) && Moves(e) && e.before.state == Open
    requires Spans(log, s) && IncidentRecord(log, s, e.before)
    ensures IncidentAgrees(log + [e], e.decision.record, s)
  {
    OpeningsGrow(log, e);
    IncidentGoesOn(log, e, s);
    assert (log + [e])[..|log|] == log;
  }

  lemma ContinuingAgrees(log: seq<Entry>, e: Entry)
    requires CountsAgree(log, e.before) && IncidentsAgree(log, e.before) && Moves(e) && e.before.state == Open
    ensures IncidentsAgree(log + [e], e.decision.record)
  {
    var more := log + [e];
    var start: nat :| Spans(log, start);
    IncidentGoesOn(log, e, start);
    forall s: nat ensures IncidentAgrees(more, e.decision.record, s) {
      if Spans(more, s) {
        assert more[|log|] == e && s < |log|;
        assert forall i :: s <= i < |log| ==> more[i] == log[i];
        assert IncidentAgrees(log, e.before, s);
        ContinuingAgreesAt(log, e, s);
      }
    }
  }

  /** Everything the record says is determined by its committed history. */
  lemma {:induction false} HistoryDeterminesRecord(seed: AlertRecord, log: seq<Entry>, r: AlertRecord)
    requires Seed(seed) && Linear(seed, log, r)
    ensures Agrees(seed, log, r)
    decreases |log|
  {
    if log != [] {
      var n := |log| - 1;
      LinearPrefix(seed, log, n);
      HistoryDeterminesRecord(seed, log[..n], RecordAfter(seed, log[..n]));
      assert LinkedAt(seed, log, n) && log == log[..n] + [log[n]];
      LegalMoves(log[n]);
      OpeningsGrow(log[..n], log[n]);
      if log[n].before.state == Resolved { OpeningAgrees(log[..n], log[n]); } else { ContinuingAgrees(log[..n], log[n]); }
      PhaseStep(log[..n], log[n]);
    }
  }

  /** The events of one alert spell incidents: openings, at most one escalation of a warning, resolutions. */
  lemma {:induction false} EventsSpellIncidents(seed: AlertRecord, log: seq<Entry>, r: AlertRecord)
    requires Seed(seed) && Linear(seed, log, r)
    ensures IncidentWord(Word(log))
  {
    HistoryDeterminesRecord(seed, log, r);
    ReadableIsIncidents(Word(log));
  }

  /** In a reachable record, a transition is refused only for a foreign or mismatched condition. */
  lemma ReachableDecides(seed: AlertRecord, log: seq<Entry>, r: AlertRecord, c: HealthCondition, now: Instant)
    requires Seed(seed) && Linear(seed, log, r)
    ensures Decide(r, c, now).Success? <==> r.alertKey == c.alertKey && r.metadata == c.metadata
    ensures Decide(r, c, now).Success? ==> (Decide(r, c, now).value.changed <==> c.state != Fresh || r.state == Open)
    ensures Decide(r, c, now).Success? && !Decide(r, c, now).value.changed ==> Decide(r, c, now).value == Decision(r, None, false)
    ensures r.alertKey != c.alertKey ==> Decide(r, c, now) == Failure(WrongIdentity)
    ensures r.alertKey == c.alertKey && r.metadata != c.metadata ==> Decide(r, c, now) == Failure(WrongMetadata)
  {
    HistoryDeterminesRecord(seed, log, r);
  }

  // ----- Concurrent evaluators: reading and committing are separate steps -----

  datatype Pending = Pending(current: AlertRecord, condition: HealthCondition, now: Instant)

  datatype System = System(rows: map<string, AlertRecord>, logs: map<string, seq<Entry>>, workers: map<nat, Pending>)

  datatype Action = Get(w: nat, condition: HealthCondition, now: Instant) | CompareAndSet(w: nat) | Crash(w: nat)

  function Step(s: System, a: Action): Option<System> {
    match a
    case Get(w, c, now) =>
      if c.alertKey in s.rows then Some(s.(workers := s.workers[w := Pending(s.rows[c.alertKey], c, now)])) else None
    case CompareAndSet(w) => if w in s.workers then Some(CommitStep(s, w)) else None
    case Crash(w) => Some(s.(workers := s.workers - {w}))
  }

  /** The update matches a row only at the version that was read. */
  function CommitStep(s: System, w: nat): System
    requires w in s.workers
  {
    var p, idle := s.workers[w], s.(workers := s.workers - {w});
    var decided := Decide(p.current, p.condition, p.now);
    if decided.Failure? then idle
    else
      var d := decided.value;
      if d.changed && d.record.alertKey in s.rows && d.record.alertKey in s.logs
         && s.rows[d.record.alertKey].version == p.current.version
      then Committed(idle, Entry(p.current, p.condition, p.now, d))
      else idle
  }

  function Committed(s: System, e: Entry): System
    requires e.decision.record.alertKey in s.logs
  {
    var key := e.decision.record.alertKey;
    s.(rows := s.rows[key := e.decision.record], logs := s.logs[key := s.logs[key] + [e]])
  }

  ghost predicate Init(seeds: map<string, AlertRecord>, s: System) {
    && (forall key :: key in seeds ==> Seed(seeds[key]) && seeds[key].alertKey == key)
    && s == System(seeds, map key | key in seeds :: [], map[])
  }

  /** A read record is no newer than the row, and at the same version it is the row. */
  ghost predicate ReadOk(s: System, p: Pending) {
    && p.current.alertKey in s.rows
    && var row := s.rows[p.current.alertKey];
       p.current.version <= row.version && (p.current.version == row.version ==> p.current == row)
  }

  ghost predicate RowOk(seeds: map<string, AlertRecord>, s: System, key: string) {
    && key in seeds && key in s.rows && key in s.logs
    && Linear(seeds[key], s.logs[key], s.rows[key]) && s.rows[key].alertKey == key && Seed(seeds[key])
  }

  ghost predicate Inv(seeds: map<string, AlertRecord>, s: System) {
    && s.rows.Keys == s.logs.Keys == seeds.Keys
    && (forall key :: key in seeds ==> RowOk(seeds, s, key))
    && forall w :: w in s.workers ==> ReadOk(s, s.workers[w])
  }

  /** The committed row is what its extended history leaves. */
  lemma CommittedRowOk(seeds: map<string, AlertRecord>, s: System, e: Entry)
    requires Inv(seeds, s) && Legal(e) && e.before.alertKey in s.rows && e.before == s.rows[e.before.alertKey]
    ensures e.decision.record.alertKey == e.before.alertKey
    ensures e.before.alertKey in seeds && RowOk(seeds, Committed(s, e), e.before.alertKey)
    ensures e.decision.record.version == e.before.version + 1
  {
    var key := e.before.alertKey;
    assert RowOk(seeds, s, key);
    HistoryDeterminesRecord(seeds[key], s.logs[key], s.rows[key]);
    LegalMoves(e);
    LinearExtends(seeds[key], s.logs[key], e);
  }

  lemma CommitKeepsInv(seeds: map<string, AlertRecord>, s: System, e: Entry)
    requires Inv(seeds, s) && Legal(e)
    requires e.before.alertKey in s.rows && e.before == s.rows[e.before.alertKey]
    ensures e.decision.record.alertKey == e.before.alertKey && Inv(seeds, Committed(s, e))
  {
    var s' := Committed(s, e);
    CommittedRowOk(seeds, s, e);
    forall k | k in seeds ensures RowOk(seeds, s', k) {
      if k != e.before.alertKey { assert RowOk(seeds, s, k); }
    }
    forall w | w in s'.workers ensures ReadOk(s', s'.workers[w]) { assert ReadOk(s, s.workers[w]); }
  }

  lemma CompareAndSetKeepsInv(seeds: map<string, AlertRecord>, s: System, w: nat)
    requires Inv(seeds, s) && Step(s, CompareAndSet(w)).Some?
    ensures Inv(seeds, Step(s, CompareAndSet(w)).value)
  {
    var p, idle := s.workers[w], s.(workers := s.workers - {w});
    assert ReadOk(s, p);
    KeepsRows(seeds, s, idle);
    if Step(s, CompareAndSet(w)).value != idle {
      CommitKeepsInv(seeds, idle, Entry(p.current, p.condition, p.now, Decide(p.current, p.condition, p.now).value));
    }
  }

  lemma StepKeepsInv(seeds: map<string, AlertRecord>, s: System, a: Action)
    requires Inv(seeds, s) && Step(s, a).Some?
    ensures Inv(seeds, Step(s, a).value)
  {
    match a
    case Get(w, c, now) =>
      assert RowOk(seeds, s, c.alertKey);
      KeepsRows(seeds, s, Step(s, a).value);
    case CompareAndSet(w) => CompareAndSetKeepsInv(seeds, s, w);
    case Crash(w) => KeepsRows(seeds, s, Step(s, a).value);
  }

  lemma KeepsRows(seeds: map<string, AlertRecord>, s: System, s': System)
    requires Inv(seeds, s) && s'.rows == s.rows && s'.logs == s.logs
    requires forall w :: w in s'.workers ==> ReadOk(s, s'.workers[w])
    ensures Inv(seeds, s')
  {
    forall key | key in seeds ensures RowOk(seeds, s', key) { assert RowOk(seeds, s, key); }
  }

  /** An evaluator that nobody overtook commits its decision: the row is the decided record, and the history has it last. */
  lemma FreshDecisionLands(seeds: map<string, AlertRecord>, s: System, w: nat, c: HealthCondition, now: Instant)
    requires Inv(seeds, s) && c.alertKey in seeds && seeds[c.alertKey].metadata == c.metadata
    requires w in s.workers && s.workers[w] == Pending(s.rows[c.alertKey], c, now)
    requires c.state != Fresh || s.rows[c.alertKey].state == Open
    ensures Decide(s.rows[c.alertKey], c, now).Success? && Step(s, CompareAndSet(w)).Some?
    ensures var s', d := Step(s, CompareAndSet(w)).value, Decide(s.rows[c.alertKey], c, now).value;
      && s'.rows == s.rows[c.alertKey := d.record] && w !in s'.workers
      && s'.logs == s.logs[c.alertKey := s.logs[c.alertKey] + [Entry(s.rows[c.alertKey], c, now, d)]]
  {
    assert RowOk(seeds, s, c.alertKey);
    HistoryDeterminesRecord(seeds[c.alertKey], s.logs[c.alertKey], s.rows[c.alertKey]);
    ReachableDecides(seeds[c.alertKey], s.logs[c.alertKey], s.rows[c.alertKey], c, now);
    LegalMoves(Entry(s.rows[c.alertKey], c, now, Decide(s.rows[c.alertKey], c, now).value));
  }

  /** An evaluator that was overtaken changes nothing. */
  lemma StaleDecisionIsDropped(seeds: map<string, AlertRecord>, s: System, w: nat)
    requires Inv(seeds, s) && w in s.workers && s.workers[w].current.version != s.rows[s.workers[w].current.alertKey].version
    ensures Step(s, CompareAndSet(w)) == Some(s.(workers := s.workers - {w}))
  {
    var p := s.workers[w];
    assert ReadOk(s, p);
    if Decide(p.current, p.condition, p.now).Success? && Decide(p.current, p.condition, p.now).value.changed {
      assert Decide(p.current, p.condition, p.now).value.record.alertKey == p.current.alertKey;
    }
  }

  ghost predicate IsRun(seeds: map<string, AlertRecord>, states: seq<System>, actions: seq<Action>) {
    && |states| == |actions| + 1 && Init(seeds, states[0])
    && forall i :: 0 <= i < |actions| ==> StepAt(states, actions, i)
  }

  ghost predicate StepAt(states: seq<System>, actions: seq<Action>, i: nat) {
    |states| == |actions| + 1 && i < |actions| && Step(states[i], actions[i]) == Some(states[i + 1])
  }

  lemma {:induction false} RunKeepsInv(seeds: map<string, AlertRecord>, states: seq<System>, actions: seq<Action>, n: nat)
    requires IsRun(seeds, states, actions) && n < |states|
    ensures Inv(seeds, states[n])
  {
    if n > 0 {
      RunKeepsInv(seeds, states, actions, n - 1);
      assert StepAt(states, actions, n - 1);
      StepKeepsInv(seeds, states[n - 1], actions[n - 1]);
    }
  }

  /**
   With any number of evaluators interleaved between reading and committing, and crashing
   anywhere, every alert's history is one line of decisions, each taken from the record
   just before it; the record's counters, severity and times are those of that history and
   its events spell incidents.
   */
  lemma AlertHistoriesAreLinear(seeds: map<string, AlertRecord>, states: seq<System>, actions: seq<Action>, n: nat, key: string)
    requires IsRun(seeds, states, actions) && n < |states| && key in seeds
    ensures key in states[n].rows && key in states[n].logs
    ensures Linear(seeds[key], states[n].logs[key], states[n].rows[key])
    ensures Agrees(seeds[key], states[n].logs[key], states[n].rows[key])
    ensures IncidentWord(Word(states[n].logs[key]))
  {
    RunKeepsInv(seeds, states, actions, n);
    assert RowOk(seeds, states[n], key);
    HistoryDeterminesRecord(seeds[key], states[n].logs[key], states[n].rows[key]);
    EventsSpellIncidents(seeds[key], states[n].logs[key], states[n].rows[key]);
  }

  // ----- The evaluation loop against a shared store -----

  /** Commits other evaluators make while this one is between its read and its update. */
  type Rivals = nat -> seq<(HealthCondition, Instant)>

  ghost predicate LogsGrew(before: map<string, seq<Entry>>, after: map<string, seq<Entry>>) {
    before.Keys == after.Keys && forall key :: key in before ==> before[key] <= after[key]
  }

  /** The history holds an entry, added since `before`, with this decision for this condition. */
  ghost predicate Recorded(before: map<string, seq<Entry>>, after: map<string, seq<Entry>>, c: HealthCondition, now: Instant, d: Decision) {
    c.alertKey in before && c.alertKey in after
    && exists i :: |before[c.alertKey]| <= i < |after[c.alertKey]| && EntryFor(after[c.alertKey][i], c, now, d)
  }

  /** At least `n` decisions were committed to the alert's history in between. */
  ghost predicate LostRaces(before: map<string, seq<Entry>>, after: map<string, seq<Entry>>, key: string, n: int) {
    key in before && key in after && |after[key]| >= |before[key]| + n
  }

  predicate EntryFor(e: Entry, c: HealthCondition, now: Instant, d: Decision) {
    e.condition == c && e.now == now && e.decision == d
  }

  /** A decision either changed nothing, for a healthy resolved alert, or was committed. */
  ghost predicate Settled(before: map<string, seq<Entry>>, after: map<string, seq<Entry>>, c: HealthCondition, now: Instant, d: Decision) {
    if d.changed then Recorded(before, after, c, now, d) else c.state == Fresh && d.record.state == Resolved && d.event.None?
  }

  /** A row's version is the length of its history. */
  lemma VersionIsLength(seeds: map<string, AlertRecord>, s: System, key: string)
    requires Inv(seeds, s) && key in seeds
    ensures s.rows[key].version == |s.logs[key]| && s.rows[key] == RecordAfter(seeds[key], s.logs[key])
    ensures s.rows[key].alertKey == key
  {
    assert RowOk(seeds, s, key);
    HistoryDeterminesRecord(seeds[key], s.logs[key], s.rows[key]);
  }

  /** A record read earlier is still no newer than the row, and equal to it at equal versions. */
  lemma ReadStaysOk(seeds: map<string, AlertRecord>, before: System, after: System, p: Pending)
    requires Inv(seeds, before) && Inv(seeds, after) && LogsGrew(before.logs, after.logs)
    requires p.current.alertKey in before.rows && p.current == before.rows[p.current.alertKey]
    ensures ReadOk(after, p)
  {
    var key := p.current.alertKey;
    VersionIsLength(seeds, before, key);
    VersionIsLength(seeds, after, key);
    assert before.logs[key] <= after.logs[key];
  }

  /** An update is refused only when others have committed to the alert since it was read. */
  lemma RaceLost(seeds: map<string, AlertRecord>, before: System, after: System, key: string)
    requires Inv(seeds, before) && Inv(seeds, after) && LogsGrew(before.logs, after.logs)
    requires key in seeds && before.rows[key].version != after.rows[key].version
    ensures LostRaces(before.logs, after.logs, key, 1)
  {
    VersionIsLength(seeds, before, key);
    VersionIsLength(seeds, after, key);
    assert before.logs[key] <= after.logs[key];
  }

  class AlertStore {
    ghost const seeds: map<string, AlertRecord>
    var rows: map<string, AlertRecord>
    ghost var logs: map<string, seq<Entry>>

    constructor (initial: map<string, AlertRecord>)
      requires forall key :: key in initial ==> Seed(initial[key]) && initial[key].alertKey == key
      ensures seeds == initial && rows == initial && Valid()
      ensures logs == map key | key in initial :: []
    {
      seeds, rows := initial, initial;
      logs := map key | key in initial :: [];
    }

    /** Every row is what its linear history leaves. */
    ghost predicate Valid()
      reads this
    {
      Inv(seeds, System(rows, logs, map[]))
    }

    method Get(key: string) returns (r: Result<AlertRecord, AlertError>)
      ensures r == if key in rows then Success(rows[key]) else Failure(MissingRow)
    {
      if key !in rows { return Failure(MissingRow); }
      return Success(rows[key]);
    }

    /** Updates the one row that still has the version that was read. */
    method CompareAndSet(current: AlertRecord, c: HealthCondition, now: Instant, d: Decision) returns (ok: bool)
      requires Valid() && Legal(Entry(current, c, now, d))
      requires ReadOk(System(rows, logs, map[]), Pending(current, c, now))
      modifies this`rows, this`logs
      ensures Valid() && LogsGrew(old(logs), logs)
      ensures ok <==> old(rows)[current.alertKey].version == current.version
      ensures ok ==> Recorded(old(logs), logs, c, now, d)
      ensures !ok ==> rows == old(rows) && logs == old(logs)
    {
      var key := d.record.alertKey;
      ghost var e, s := Entry(current, c, now, d), System(rows, logs, map[]);
      ok := rows[key].version == current.version;
      if ok {
        CommitKeepsInv(seeds, s, e);
        rows := rows[key := d.record];
        logs := logs[key := logs[key] + [e]];
        assert EntryFor(logs[key][|old(logs)[key]|], c, now, d);
      }
    }

    /** Other evaluators commit their own decisions. */
    method Interfere(rivals: seq<(HealthCondition, Instant)>)
      requires Valid()
      modifies this`rows, this`logs
      ensures Valid() && LogsGrew(old(logs), logs)
      ensures rivals == [] ==> rows == old(rows) && logs == old(logs)
    {
      for i := 0 to |rivals|
        invariant Valid() && LogsGrew(old(logs), logs)
        invariant i == 0 ==> rows == old(rows) && logs == old(logs)
      {
        var (c, now) := rivals[i];
        var current := Get(c.alertKey);
        if current.Success? {
          var decided := Decide(current.value, c, now);
          if decided.Success? && decided.value.changed {
            assert RowOk(seeds, System(rows, logs, map[]), c.alertKey);
            var _ := CompareAndSet(current.value, c, now, decided.value);
          }
        }
      }
    }

    /** Read, decide and commit once; losing a race is `Contended`. */
    method AttemptOnce(c: HealthCondition, now: Instant, rivals: seq<(HealthCondition, Instant)>) returns (r: Result<Decision, AlertError>)
      requires Valid()
      modifies this`rows, this`logs
      ensures Valid() && LogsGrew(old(logs), logs)
      ensures r.Success? ==> Settled(old(logs), logs, c, now, r.value)
      ensures c.alertKey in seeds && seeds[c.alertKey].metadata == c.metadata ==> r.Success? || r == Failure(Contended)
      ensures r == Failure(Contended) ==> rivals != [] && LostRaces(old(logs), logs, c.alertKey, 1)
    {
      var current := Get(c.alertKey);
      if current.Failure? { return Failure(current.error); }
      var decided := Decide(current.value, c, now);
      KnownKeyDecides(c, now);
      if decided.Failure? { return Failure(decided.error); }
      if !decided.value.changed { return Success(decided.value); }
      ghost var before := System(rows, logs, map[]);
      Interfere(rivals);
      ReadStaysOk(seeds, before, System(rows, logs, map[]), Pending(current.value, c, now));
      ghost var a := logs;
      var ok := CompareAndSet(current.value, c, now, decided.value);
      if !ok {
        RaceLost(seeds, before, System(rows, logs, map[]), c.alertKey);
        return Failure(Contended);
      }
      SettledSince(before.logs, a, logs, c, now, decided.value);
      return Success(decided.value);
    }

    /** One condition, retried from fresh state after each lost race. */
    method EvaluateOne(c: HealthCondition, now: Instant, maxAttempts: nat, rivals: Rivals) returns (r: Result<Decision, AlertError>)
      requires Valid() && maxAttempts > 0
      modifies this`rows, this`logs
      ensures Valid() && LogsGrew(old(logs), logs)
      ensures r.Success? ==> Settled(old(logs), logs, c, now, r.value)
      ensures c.alertKey in seeds && seeds[c.alertKey].metadata == c.metadata ==> r.Success? || r == Failure(Contended)
      ensures r == Failure(Contended) ==> AlwaysContested(rivals, maxAttempts) && LostRaces(old(logs), logs, c.alertKey, maxAttempts)
    {
      for attempt := 0 to maxAttempts
        invariant Valid() && LogsGrew(old(logs), logs)
        invariant AlwaysContested(rivals, attempt) && (attempt > 0 ==> LostRaces(old(logs), logs, c.alertKey, attempt))
      {
        ghost var before := logs;
        r := AttemptOnce(c, now, rivals(attempt));
        GrewThrough(old(logs), before, logs, c, now, r);
        if r != Failure(Contended) { return r; }
        OneMoreLost(old(logs), before, logs, c.alertKey, attempt);
      }
      return Failure(Contended);
    }

    lemma KnownKeyDecides(c: HealthCondition, now: Instant)
      requires Valid() && c.alertKey in rows
      ensures Decide(rows[c.alertKey], c, now).Success? <==> seeds[c.alertKey].metadata == c.metadata
      ensures c.alertKey in seeds
      ensures Decide(rows[c.alertKey], c, now).Failure? ==> Decide(rows[c.alertKey], c, now) != Failure(Contended)
    {
      assert RowOk(seeds, System(rows, logs, map[]), c.alertKey);
      HistoryDeterminesRecord(seeds[c.alertKey], logs[c.alertKey], rows[c.alertKey]);
      ReachableDecides(seeds[c.alertKey], logs[c.alertKey], rows[c.alertKey], c, now);
    }

    /** `evaluate_alerts`. */
    method Evaluate(conditions: seq<HealthCondition>, now: Instant, maxAttempts: int, rivals: nat -> Rivals)
      returns (r: Result<seq<Decision>, AlertError>)
      requires Valid()
      modifies this`rows, this`logs
      ensures Valid() && LogsGrew(old(logs), logs)
      ensures maxAttempts < 1 ==> r == Failure(BadAttempts) && logs == old(logs)
      ensures r.Success? ==> AllSettled(old(logs), logs, conditions, now, r.value)
      ensures r.Failure? && maxAttempts >= 1 ==> exists i :: 0 <= i < |conditions| && FailsOn(seeds, old(logs), logs, conditions[i], maxAttempts, rivals(i), r.error)
    {
      if maxAttempts < 1 { return Failure(BadAttempts); }
      var decisions: seq<Decision> := [];
      for i := 0 to |conditions|
        invariant Valid() && LogsGrew(old(logs), logs)
        invariant AllSettled(old(logs), logs, conditions[..i], now, decisions)
      {
        ghost var before := logs;
        var decision := EvaluateOne(conditions[i], now, maxAttempts, rivals(i));
        if decision.Failure? {
          assert conditions[i].alertKey in before ==> old(logs)[conditions[i].alertKey] <= before[conditions[i].alertKey];
          assert FailsOn(seeds, old(logs), logs, conditions[i], maxAttempts, rivals(i), decision.error);
          return Failure(decision.error);
        }
        AllSettledGrows(old(logs), before, logs, conditions, i, now, decisions, decision.value);
        decisions := decisions + [decision.value];
      }
      assert conditions[..|conditions|] == conditions;
      return Success(decisions);
    }
  }

  /** Growth composes, and what an attempt settled is settled since the beginning. */
  lemma GrewThrough(first: map<string, seq<Entry>>, before: map<string, seq<Entry>>, after: map<string, seq<Entry>>,
                    c: HealthCondition, now: Instant, r: Result<Decision, AlertError>)
    requires LogsGrew(first, before) && LogsGrew(before, after)
    requires r.Success? ==> Settled(before, after, c, now, r.value)
    ensures LogsGrew(first, after) && (r.Success? ==> Settled(first, after, c, now, r.value))
  {
    if r.Success? { SettledSince(first, before, after, c, now, r.value); }
  }

  lemma OneMoreLost(first: map<string, seq<Entry>>, before: map<string, seq<Entry>>, after: map<string, seq<Entry>>, key: string, n: nat)
    requires LogsGrew(first, before) && LostRaces(before, after, key, 1) && (n > 0 ==> LostRaces(first, before, key, n))
    ensures LostRaces(first, after, key, n + 1)
  {
    assert first[key] <= before[key];
  }

  /** In each of the first `n` attempts other evaluators came between the read and the update. */
  ghost predicate AlwaysContested(rivals: Rivals, n: int) {
    forall attempt: nat :: attempt < n ==> rivals(attempt) != []
  }

  /**
   Why one condition fails: in every attempt a rival committed to the same alert first, or
   the alert is unknown or described otherwise.
   */
  ghost predicate FailsOn(seeds: map<string, AlertRecord>, before: map<string, seq<Entry>>, after: map<string, seq<Entry>>,
                          c: HealthCondition, maxAttempts: int, rivals: Rivals, error: AlertError) {
    if error == Contended then AlwaysContested(rivals, maxAttempts) && LostRaces(before, after, c.alertKey, maxAttempts)
    else !(c.alertKey in seeds && seeds[c.alertKey].metadata == c.metadata)
  }

  /** Every condition has its settled decision, in order. */
  ghost predicate AllSettled(before: map<string, seq<Entry>>, after: map<string, seq<Entry>>,
                             conditions: seq<HealthCondition>, now: Instant, decisions: seq<Decision>)
  {
    |decisions| == |conditions|
    && forall i :: 0 <= i < |conditions| ==> Settled(before, after, conditions[i], now, decisions[i])
  }

  lemma AllSettledGrows(before: map<string, seq<Entry>>, a: map<string, seq<Entry>>, b: map<string, seq<Entry>>,
                        conditions: seq<HealthCondition>, n: nat, now: Instant, decisions: seq<Decision>, next: Decision)
    requires n < |conditions| && LogsGrew(before, a) && LogsGrew(a, b)
    requires AllSettled(before, a, conditions[..n], now, decisions) && Settled(a, b, conditions[n], now, next)
    ensures AllSettled(before, b, conditions[..n + 1], now, decisions + [next])
  {
    SettledSince(before, a, b, conditions[n], now, next);
    forall i | 0 <= i < n ensures Settled(before, b, conditions[i], now, decisions[i]) {
      assert conditions[..n][i] == conditions[i];
    }
  }

  lemma SettledSince(before: map<string, seq<Entry>>, a: map<string, seq<Entry>>, b: map<string, seq<Entry>>,
                     c: HealthCondition, now: Instant, d: Decision)
    requires Settled(a, b, c, now, d) && LogsGrew(before, a)
    ensures Settled(before, b, c, now, d)
  {
    if d.changed {
      var i :| |a[c.alertKey]| <= i < |b[c.alertKey]| && EntryFor(b[c.alertKey][i], c, now, d);
      assert |before[c.alertKey]| <= i;
    }
  }
}
