/** Crash-safe publication of immutable batches. */
module BatchStore {
  // Crash-safe publication of immutable Chainlink batches behind commit markers
  // (backfill/chainlink_storage.py). Every filesystem action may do its work, report success
  // while leaving anything behind in the directories it touches, or end the process there.

  import opened Wrappers
  import opened ChainlinkRounds

  datatype RowId = RowId(chain: string, feed: string, round: int)

  datatype Row = Row(id: RowId, feed: string, payload: int)

  /** A directory is absent or holds some rows, complete or not. */
  type Directory = Option<seq<Row>>

  /** The three directories of one batch; `marker` is the commit marker inside the final one. */
  datatype Dirs = Dirs(staging: Directory, final: Directory, marker: bool, quarantined: bool)

  /** What one filesystem action does: as asked, something else reported as success, or death part way. */
  datatype Effect =
    | Works
    | Garbles(staging: Directory, final: Directory)
    | Dies(staging: Directory, final: Directory, reached: bool)

  datatype StoreError = BadRange | EmptyBatch | RangeMismatch | OtherFeed | CommittedConflict
                      | Unreadable | StagedInvalid | NotPromoted | PromotedInvalid | Died

  datatype BatchResult = BatchResult(batch: RoundRange, count: nat, replayed: bool)

  function IdSet(rows: seq<Row>): set<RowId> { set i | 0 <= i < |rows| :: rows[i].id }

  predicate DistinctIds(rows: seq<Row>) {
    forall i, j :: 0 <= i < j < |rows| ==> rows[i].id != rows[j].id
  }

  function BatchIds(chain: string, b: RoundRange): set<RowId> {
    set round | b.start <= round <= b.end :: RowId(chain, b.feed, round)
  }

  /** The checks made on a batch before anything is touched. */
  function InputError(b: RoundRange, rows: seq<Row>): Option<StoreError> {
    if !b.Valid() then Some(BadRange)
    else if rows == [] then Some(EmptyBatch)
    else if !DistinctIds(rows) || IdSet(rows) != BatchIds(rows[0].id.chain, b) then Some(RangeMismatch)
    else if exists i :: 0 <= i < |rows| && rows[i].feed != b.feed then Some(OtherFeed)
    else None
  }

  /** Some row is the observation of that round. */
  ghost predicate HasRound(rows: seq<Row>, round: int) {
    exists i :: 0 <= i < |rows| && rows[i].id.round == round
  }

  /** One row for each round of the batch, all of one chain and of the batch's feed. */
  ghost predicate OnePerRound(b: RoundRange, rows: seq<Row>) {
    && rows != []
    && (forall i, j :: 0 <= i < j < |rows| ==> rows[i].id != rows[j].id)
    && (forall i :: 0 <= i < |rows| ==> rows[i].id.chain == rows[0].id.chain && rows[i].id.feed == b.feed)
    && (forall i :: 0 <= i < |rows| ==> b.start <= rows[i].id.round <= b.end)
    && forall round :: b.start <= round <= b.end ==> HasRound(rows, round)
  }

  ghost predicate AllOfFeed(feed: string, rows: seq<Row>) {
    forall i :: 0 <= i < |rows| ==> rows[i].feed == feed
  }

  /** What the store takes: a range inside one phase, one row per round, all of its feed. */
  ghost predicate Acceptable(b: RoundRange, rows: seq<Row>) {
    && 0 < b.start <= b.end && b.phase * PHASE <= b.start && b.end < (b.phase + 1) * PHASE
    && OnePerRound(b, rows) && AllOfFeed(b.feed, rows)
  }

  lemma OnePerRoundIff(b: RoundRange, rows: seq<Row>)
    requires b.start <= b.end
    ensures OnePerRound(b, rows) <==> Exact(b, rows)
  {
    if Exact(b, rows) {
      forall i | 0 <= i < |rows| ensures rows[i].id in BatchIds(rows[0].id.chain, b) { assert rows[i].id in IdSet(rows); }
      forall round | b.start <= round <= b.end ensures HasRound(rows, round) {
        assert RowId(rows[0].id.chain, b.feed, round) in IdSet(rows);
      }
    }
    if OnePerRound(b, rows) {
      forall id | id in BatchIds(rows[0].id.chain, b) ensures id in IdSet(rows) {
        assert HasRound(rows, id.round);
        var i :| 0 <= i < |rows| && rows[i].id.round == id.round;
        assert rows[i].id == id;
      }
    }
  }

  /** Rows are taken exactly when acceptable, and each refusal names the first condition that fails. */
  lemma InputErrorIff(b: RoundRange, rows: seq<Row>)
    ensures InputError(b, rows).None? <==> Acceptable(b, rows)
    ensures InputError(b, rows) == Some(BadRange)
       <==> !(0 < b.start <= b.end && b.phase * PHASE <= b.start && b.end < (b.phase + 1) * PHASE)
    ensures InputError(b, rows) == Some(EmptyBatch) <==> InputError(b, rows) != Some(BadRange) && rows == []
    ensures InputError(b, rows) == Some(OtherFeed)
       <==> InputError(b, rows) != Some(BadRange) && OnePerRound(b, rows) && !AllOfFeed(b.feed, rows)
    ensures InputError(b, rows).Some? ==> InputError(b, rows).value in {BadRange, EmptyBatch, RangeMismatch, OtherFeed}
  {
    ValidIff(b);
    if b.start <= b.end { OnePerRoundIff(b, rows); }
  }

  /** The rows are one observation for each round of the batch. */
  ghost predicate Exact(b: RoundRange, rows: seq<Row>) {
    rows != [] && DistinctIds(rows) && IdSet(rows) == BatchIds(rows[0].id.chain, b)
  }

  /** A marker is only ever found on an exact batch. */
  ghost predicate Published(b: RoundRange, d: Dirs) {
    d.marker ==> d.final.Some? && Exact(b, d.final.value)
  }

  /** Nothing visible to readers changed. */
  ghost predicate SameVisible(before: Dirs, after: Dirs) {
    before.marker ==> after.marker && after.final == before.final
  }

  /** What a reader may find during an attempt, and what readers of `before` keep finding. */
  ghost predicate MomentOk(b: RoundRange, before: Dirs, d: Dirs) {
    (Published(b, before) ==> Published(b, d)) && SameVisible(before, d)
  }

  ghost predicate Moments(b: RoundRange, before: Dirs, moments: seq<Dirs>) {
    forall i :: 0 <= i < |moments| ==> MomentOk(b, before, moments[i])
  }

  type Environment = nat -> Effect

  ghost predicate AllWork(env: Environment) { forall k :: env(k) == Works }

  /**
   One batch's directories as a single writer sees them; `clock` counts its actions and
   `seen` collects what a reader could find after each of them.
   */
  class BatchDirectory {
    var dirs: Dirs
    var clock: nat
    ghost var seen: seq<Dirs>

    constructor (initial: Dirs)
      ensures dirs == initial && clock == 0 && seen == []
    {
      dirs, clock, seen := initial, 0, [];
    }

    method DeleteStaging(env: Environment) returns (alive: bool)
      modifies this
      ensures clock == old(clock) + 1 && seen == old(seen) + [dirs]
      ensures dirs == old(dirs).(staging := dirs.staging)
      ensures env(old(clock)) == Works ==> alive && dirs.staging == None
    {
      var effect := env(clock);
      clock := clock + 1;
      dirs := dirs.(staging := if effect.Works? then None else effect.staging);
      alive := !effect.Dies?;
      seen := seen + [dirs];
    }

    /** Only ever called on a directory without a marker. */
    method DeleteFinal(env: Environment) returns (alive: bool)
      requires !dirs.marker
      modifies this
      ensures clock == old(clock) + 1 && seen == old(seen) + [dirs]
      ensures dirs == old(dirs).(final := dirs.final)
      ensures env(old(clock)) == Works ==> alive && dirs.final == None
    {
      var effect := env(clock);
      clock := clock + 1;
      dirs := dirs.(final := if effect.Works? then None else effect.final);
      alive := !effect.Dies?;
      seen := seen + [dirs];
    }

    /** The overwriting staging write. */
    method WriteStaging(rows: seq<Row>, env: Environment) returns (alive: bool)
      modifies this
      ensures clock == old(clock) + 1 && seen == old(seen) + [dirs]
      ensures dirs == old(dirs).(staging := dirs.staging)
      ensures env(old(clock)) == Works ==> alive && dirs.staging == Some(rows)
    {
      var effect := env(clock);
      clock := clock + 1;
      dirs := dirs.(staging := if effect.Works? then Some(rows) else effect.staging);
      alive := !effect.Dies?;
      seen := seen + [dirs];
    }

    /** The rename, which is not atomic; it refuses to run onto an existing directory. */
    method Promote(env: Environment) returns (alive: bool, renamed: bool)
      requires !dirs.marker
      modifies this
      ensures clock == old(clock) + 1 && seen == old(seen) + [dirs]
      ensures dirs == old(dirs).(staging := dirs.staging, final := dirs.final)
      ensures env(old(clock)) == Works ==> alive && (renamed <==> old(dirs.final.None? && dirs.staging.Some?))
      ensures env(old(clock)) == Works && renamed ==> dirs.final == old(dirs.staging)
    {
      var effect := env(clock);
      clock := clock + 1;
      alive := !effect.Dies?;
      if effect.Works? {
        renamed := dirs.final.None? && dirs.staging.Some?;
        if renamed { dirs := dirs.(staging := None, final := dirs.staging); }
      } else {
        renamed := true;
        dirs := dirs.(staging := effect.staging, final := effect.final);
      }
      seen := seen + [dirs];
    }

    /** Creating the marker file happens or not; it changes no data. */
    method MarkCommitted(env: Environment) returns (alive: bool)
      modifies this
      ensures clock == old(clock) + 1 && seen == old(seen) + [dirs]
      ensures dirs == old(dirs).(marker := dirs.marker) && (old(dirs.marker) ==> dirs.marker)
      ensures alive ==> dirs.marker
      ensures env(old(clock)) == Works ==> alive
    {
      var effect := env(clock);
      clock := clock + 1;
      alive := !effect.Dies?;
      dirs := dirs.(marker := dirs.marker || alive || effect.reached);
      seen := seen + [dirs];
    }

    method ClearIssues(env: Environment) returns (alive: bool)
      modifies this
      ensures clock == old(clock) + 1 && seen == old(seen) + [dirs]
      ensures dirs == old(dirs).(quarantined := dirs.quarantined)
      ensures alive ==> !dirs.quarantined
      ensures env(old(clock)) == Works ==> alive
    {
      var effect := env(clock);
      clock := clock + 1;
      alive := !effect.Dies?;
      dirs := dirs.(quarantined := dirs.quarantined && effect.Dies? && !effect.reached);
      seen := seen + [dirs];
    }

    /** `_read_batch`: refuses an absent directory and duplicate identities. */
    method ReadBatch(directory: Directory) returns (r: Result<seq<Row>, StoreError>)
      ensures r == if directory.Some? && DistinctIds(directory.value) then Success(directory.value) else Failure(Unreadable)
    {
      if directory.None? || !DistinctIds(directory.value) { return Failure(Unreadable); }
      return Success(directory.value);
    }

    /** Stage, verify, promote and verify again; nothing is marked here. */
    method StageAndPromote(rows: seq<Row>, expected: set<RowId>, env: Environment) returns (r: Result<seq<Row>, StoreError>)
      requires !dirs.marker && rows != [] && DistinctIds(rows) && IdSet(rows) == expected
      modifies this
      ensures dirs == old(dirs).(staging := dirs.staging, final := dirs.final)
      ensures r.Success? ==> dirs.final == Some(r.value) && DistinctIds(r.value) && IdSet(r.value) == expected
      ensures AllWork(env) ==> r == Success(rows)
      ensures old(seen) <= seen && forall i :: |old(seen)| <= i < |seen| ==> !seen[i].marker
    {
      var alive := DeleteStaging(env);
      if !alive { return Failure(Died); }
      if dirs.final.Some? {
        alive := DeleteFinal(env);
        if !alive { return Failure(Died); }
      }
      alive := WriteStaging(rows, env);
      if !alive { return Failure(Died); }
      var staged := ReadBatch(dirs.staging);
      if staged.Failure? { return staged; }
      if IdSet(staged.value) != expected { return Failure(StagedInvalid); }
      var renamed;
      alive, renamed := Promote(env);
      if !alive { return Failure(Died); }
      if !renamed { return Failure(NotPromoted); }
      var stored := ReadBatch(dirs.final);
      if stored.Failure? { return stored; }
      if IdSet(stored.value) != expected { return Failure(PromotedInvalid); }
      return stored;
    }

    /** `write_and_validate`. */
    method WriteAndValidate(b: RoundRange, rows: seq<Row>, env: Environment) returns (r: Result<BatchResult, StoreError>)
      modifies this
      ensures Attempt(b, rows, env, old(dirs), dirs)
      ensures old(seen) <= seen && Moments(b, old(dirs), seen[|old(seen)|..])
      ensures r.Success? ==>
                Acceptable(b, rows) && dirs.marker && dirs.final.Some? && IdSet(dirs.final.value) == IdSet(rows)
      ensures r.Success? ==> r.value == BatchResult(b, |dirs.final.value|, old(dirs.marker))
      ensures r.Success? && !r.value.replayed ==> !dirs.quarantined
      ensures !Acceptable(b, rows) ==> r.Failure? && InputError(b, rows) == Some(r.error) && dirs == old(dirs)
      ensures AllWork(env) && Acceptable(b, rows) && !old(dirs.marker) ==> r.Success?
    {
      InputErrorIff(b, rows);
      var invalid := InputError(b, rows);
      if invalid.Some? { return Failure(invalid.value); }
      var expected := BatchIds(rows[0].id.chain, b);
      if dirs.marker {
        var committed := ReadBatch(dirs.final);
        if committed.Failure? { return Failure(committed.error); }
        if IdSet(committed.value) != expected { return Failure(CommittedConflict); }
        var alive := DeleteStaging(env);
        if !alive { return Failure(Died); }
        return Success(BatchResult(b, |committed.value|, true));
      }
      var stored := StageAndPromote(rows, expected, env);
      if stored.Failure? { return Failure(stored.error); }
      ExactFromIds(b, rows[0].id.chain, stored.value);
      var alive := MarkCommitted(env);
      if !alive { return Failure(Died); }
      alive := ClearIssues(env);
      if !alive { return Failure(Died); }
      return Success(BatchResult(b, |stored.value|, false));
    }
  }

  /** What any attempt, complete or cut short anywhere, guarantees. */
  ghost predicate Attempt(b: RoundRange, rows: seq<Row>, env: Environment, before: Dirs, after: Dirs) {
    && (Published(b, before) ==> Published(b, after))
    && SameVisible(before, after)
    && (after.marker && !before.marker ==>
          Acceptable(b, rows) && after.final.Some? && Exact(b, after.final.value) && IdSet(after.final.value) == IdSet(rows))
    && (before.marker ==> after.quarantined == before.quarantined)
    && (AllWork(env) && Acceptable(b, rows) && !before.marker ==>
          after.marker && after.final == Some(rows) && !after.quarantined)
  }

  /** Stored rows with exactly the expected ids form an exact batch. */
  lemma ExactFromIds(b: RoundRange, chain: string, rows: seq<Row>)
    requires b.Valid() && DistinctIds(rows) && IdSet(rows) == BatchIds(chain, b)
    ensures Exact(b, rows)
  {
    assert RowId(chain, b.feed, b.start) in IdSet(rows);
    assert rows[0].id in IdSet(rows);
  }

  /**
   One attempt of a history: its input, its failures, what readers could find between its
   filesystem actions, and what it left.
   */
  datatype Trial = Trial(rows: seq<Row>, env: Environment, moments: seq<Dirs>, after: Dirs)

  ghost function StateAfter(initial: Dirs, trials: seq<Trial>, n: nat): Dirs
    requires n <= |trials|
  {
    if n == 0 then initial else trials[n - 1].after
  }

  ghost predicate TrialAt(b: RoundRange, initial: Dirs, trials: seq<Trial>, i: nat) {
    && i < |trials|
    && Attempt(b, trials[i].rows, trials[i].env, StateAfter(initial, trials, i), trials[i].after)
    && Moments(b, StateAfter(initial, trials, i), trials[i].moments)
  }

  ghost predicate Trials(b: RoundRange, initial: Dirs, trials: seq<Trial>) {
    forall i :: 0 <= i < |trials| ==> TrialAt(b, initial, trials, i)
  }

  /** Whatever fails and wherever, a marker implies an exact batch, between attempts and between their actions. */
  lemma {:induction false} MarkerImpliesExact(b: RoundRange, initial: Dirs, trials: seq<Trial>, n: nat)
    requires Trials(b, initial, trials) && Published(b, initial) && n <= |trials|
    ensures Published(b, StateAfter(initial, trials, n))
    ensures n < |trials| ==> forall k :: 0 <= k < |trials[n].moments| ==> Published(b, trials[n].moments[k])
  {
    if n > 0 {
      MarkerImpliesExact(b, initial, trials, n - 1);
      assert TrialAt(b, initial, trials, n - 1);
    }
    if n < |trials| {
      assert TrialAt(b, initial, trials, n);
      forall k | 0 <= k < |trials[n].moments| ensures Published(b, trials[n].moments[k]) {
        assert MomentOk(b, StateAfter(initial, trials, n), trials[n].moments[k]);
      }
    }
  }

  /** A committed batch is never deleted or changed, at no moment, and neither is the quarantine it left. */
  lemma {:induction false} CommittedForever(b: RoundRange, initial: Dirs, trials: seq<Trial>, i: nat, j: nat)
    requires Trials(b, initial, trials) && i <= j <= |trials| && StateAfter(initial, trials, i).marker
    ensures var earlier, now := StateAfter(initial, trials, i), StateAfter(initial, trials, j);
      now.marker && now.final == earlier.final && now.quarantined == earlier.quarantined
    ensures j < |trials| ==> forall k :: 0 <= k < |trials[j].moments| ==>
              trials[j].moments[k].marker && trials[j].moments[k].final == StateAfter(initial, trials, i).final
    decreases j
  {
    if i < j {
      CommittedForever(b, initial, trials, i, j - 1);
      assert TrialAt(b, initial, trials, j - 1);
    }
    if j < |trials| {
      assert TrialAt(b, initial, trials, j);
      forall k | 0 <= k < |trials[j].moments|
        ensures trials[j].moments[k].marker && trials[j].moments[k].final == StateAfter(initial, trials, i).final
      {
        assert MomentOk(b, StateAfter(initial, trials, j), trials[j].moments[k]);
      }
    }
  }

  /** From whatever earlier failures left behind, one undisturbed attempt commits the batch for good. */
  lemma RetryCommits(b: RoundRange, initial: Dirs, trials: seq<Trial>, i: nat, n: nat)
    requires Trials(b, initial, trials) && i < n <= |trials|
    requires AllWork(trials[i].env) && Acceptable(b, trials[i].rows)
    ensures StateAfter(initial, trials, n).marker
    ensures !StateAfter(initial, trials, i).marker ==> StateAfter(initial, trials, n).final == Some(trials[i].rows)
  {
    assert TrialAt(b, initial, trials, i);
    CommittedForever(b, initial, trials, i + 1, n);
  }

  datatype Entry = Entry(batch: RoundRange, dirs: Dirs)

  /** What readers see: the rows of the marked batches. */
  function Visible(entries: seq<Entry>): seq<Row> {
    if entries == [] then []
    else
      var before, e := Visible(entries[..|entries| - 1]), entries[|entries| - 1];
      if e.dirs.marker && e.dirs.final.Some? then before + e.dirs.final.value else before
  }

  ghost predicate AllPublished(entries: seq<Entry>) {
    forall i :: 0 <= i < |entries| ==> Published(entries[i].batch, entries[i].dirs)
  }

  ghost predicate NoRepeats(rows: seq<Row>) {
    forall i, j :: 0 <= i < |rows| && 0 <= j < |rows| && rows[i].id == rows[j].id ==> i == j
  }

  /** `load_observations`: duplicates inside or across committed batches are refused. */
  method LoadObservations(entries: seq<Entry>) returns (r: Result<seq<Row>, StoreError>)
    ensures r.Success? ==> r.value == Visible(entries) && NoRepeats(r.value)
    ensures AllPublished(entries) ==> (r.Success? <==> NoRepeats(Visible(entries)))
    ensures r.Failure? ==> r.error == Unreadable
  {
    var observations: seq<Row> := [];
    for i := 0 to |entries|
      invariant observations == Visible(entries[..i])
    {
      assert entries[..i + 1][..i] == entries[..i];
      if entries[i].dirs.marker {
        if entries[i].dirs.final.None? || !DistinctIds(entries[i].dirs.final.value) { return Failure(Unreadable); }
        observations := observations + entries[i].dirs.final.value;
      }
    }
    assert entries[..|entries|] == entries;
    if !DistinctIds(observations) { return Failure(Unreadable); }
    return Success(observations);
  }

  /** A row is visible exactly when a marked batch holds it; staging and unmarked data never are. */
  lemma {:induction false} VisibleRows(entries: seq<Entry>, row: Row)
    requires AllPublished(entries)
    ensures row in Visible(entries) <==> exists i :: 0 <= i < |entries| && entries[i].dirs.marker && row in entries[i].dirs.final.value
  {
    if entries != [] {
      var n := |entries| - 1;
      VisibleRows(entries[..n], row);
      if row in Visible(entries[..n]) {
        var i :| 0 <= i < n && entries[..n][i].dirs.marker && row in entries[..n][i].dirs.final.value;
        assert entries[i].dirs.marker && row in entries[i].dirs.final.value;
      }
    }
  }

  /** A round is visible exactly when a committed batch covers it. */
  lemma {:induction false} VisibleRounds(entries: seq<Entry>, feed: string, round: int)
    requires AllPublished(entries)
    ensures (exists row :: row in Visible(entries) && row.id.feed == feed && row.id.round == round)
       <==> exists i :: 0 <= i < |entries| && entries[i].dirs.marker && entries[i].batch.feed == feed
                     && entries[i].batch.start <= round <= entries[i].batch.end
  {
    if row :| row in Visible(entries) && row.id.feed == feed && row.id.round == round {
      VisibleRows(entries, row);
      var i :| 0 <= i < |entries| && entries[i].dirs.marker && row in entries[i].dirs.final.value;
      RowLiesInBatch(entries[i].batch, entries[i].dirs.final.value, row);
    }
    if i :| 0 <= i < |entries| && entries[i].dirs.marker && entries[i].batch.feed == feed
            && entries[i].batch.start <= round <= entries[i].batch.end {
      var row := RowOfRound(entries[i].batch, entries[i].dirs.final.value, round);
      VisibleRows(entries, row);
    }
  }

  lemma RowLiesInBatch(b: RoundRange, rows: seq<Row>, row: Row)
    requires Exact(b, rows) && row in rows
    ensures row.id.feed == b.feed && b.start <= row.id.round <= b.end
  {
    assert row.id in IdSet(rows);
  }

  lemma RowOfRound(b: RoundRange, rows: seq<Row>, round: int) returns (row: Row)
    requires Exact(b, rows) && b.start <= round <= b.end
    ensures row in rows && row.id.feed == b.feed && row.id.round == round
  {
    assert RowId(rows[0].id.chain, b.feed, round) in IdSet(rows);
    var i :| 0 <= i < |rows| && rows[i].id == RowId(rows[0].id.chain, b.feed, round);
    row := rows[i];
  }

  ghost predicate BatchesApart(entries: seq<Entry>) {
    forall i, j :: 0 <= i < j < |entries| && entries[i].dirs.marker && entries[j].dirs.marker ==>
      entries[i].batch.feed != entries[j].batch.feed
      || entries[i].batch.end < entries[j].batch.start || entries[j].batch.end < entries[i].batch.start
  }

  /** While committed batches cover disjoint rounds, readers never meet a duplicate. */
  lemma {:induction false} DisjointBatchesLoad(entries: seq<Entry>)
    requires AllPublished(entries) && BatchesApart(entries)
    ensures DistinctIds(Visible(entries))
  {
    if entries != [] {
      var n := |entries| - 1;
      var before, e := Visible(entries[..n]), entries[n];
      DisjointBatchesLoad(entries[..n]);
      if e.dirs.marker {
        forall i, j | 0 <= i < |before| && 0 <= j < |e.dirs.final.value| ensures before[i].id != e.dirs.final.value[j].id {
          VisibleRows(entries[..n], before[i]);
          var k :| 0 <= k < n && entries[..n][k].dirs.marker && before[i] in entries[..n][k].dirs.final.value;
          RowLiesInBatch(entries[k].batch, entries[k].dirs.final.value, before[i]);
          RowLiesInBatch(e.batch, e.dirs.final.value, e.dirs.final.value[j]);
        }
      }
    }
  }
}
