/** The watermark table and its commits. */
module Watermarks {
  // Compare-and-set commits of one row and of related rows (warehouse/watermarks.py,
  // orchestration/watermark.py).

  import opened Wrappers
  import opened Control

  /** One physical row; the identity is the table key. */
  datatype WatermarkRow = WatermarkRow(value: int, runId: string, updatedAt: Instant)

  /** Physical rows per identity. Healthy state has at most one. */
  type Table = map<WatermarkIdentity, seq<WatermarkRow>>

  datatype WatermarkError =
    | Missing
    | AlreadyInitialized
    | Regressive
    | CommitConflict
    | UnsafeCommit
    | DuplicateState
    | InvalidValue
    | BlankRunId
    | IdentityMismatch

  datatype ProcessingMode = Forward | Backfill

  function RowsOf(t: Table, id: WatermarkIdentity): seq<WatermarkRow> {
    if id in t then t[id] else []
  }

  ghost predicate OneRowEach(t: Table) {
    forall id :: id in t ==> |t[id]| <= 1
  }

  predicate ValidValue(v: int) { 0 <= v <= MAX_WATERMARK_VALUE }

  /** `validate_candidate`: whether an advance is needed, or why the candidate is refused. */
  function ValidateCandidate(current: int, candidate: int): (r: Result<bool, WatermarkError>)
    ensures r == Success(true) <==> 0 <= current < candidate <= MAX_WATERMARK_VALUE
    ensures r == Success(false) <==> 0 <= current == candidate <= MAX_WATERMARK_VALUE
    ensures r == Failure(Regressive) <==> 0 <= candidate < current <= MAX_WATERMARK_VALUE
    ensures r.Failure? && r != Failure(Regressive) ==> r == Failure(InvalidValue)
  {
    if !ValidValue(current) || !ValidValue(candidate) then Failure(InvalidValue)
    else if candidate < current then Failure(Regressive)
    else Success(candidate > current)
  }

  /** The single-row update of `advance`: equality with the expected value and strict progress. */
  predicate AdvanceMatches(row: WatermarkRow, expected: int, candidate: int) {
    row.value == expected && row.value < candidate
  }

  function CountMatches(rows: seq<WatermarkRow>, expected: int, candidate: int): nat {
    if rows == [] then 0
    else (if AdvanceMatches(rows[0], expected, candidate) then 1 else 0) + CountMatches(rows[1..], expected, candidate)
  }

  function UpdateMatches(rows: seq<WatermarkRow>, expected: int, candidate: int, newRow: WatermarkRow): (r: seq<WatermarkRow>)
    ensures |r| == |rows|
  {
    seq(|rows|, i requires 0 <= i < |rows| => if AdvanceMatches(rows[i], expected, candidate) then newRow else rows[i])
  }

  /** Meaning of the `advance` transaction as one atomic step on the table. */
  function AdvanceTx(t: Table, id: WatermarkIdentity, expected: int, candidate: int, runId: string, now: Instant)
    : Result<Table, WatermarkError>
  {
    if CountMatches(RowsOf(t, id), expected, candidate) == 1 then
      Success(t[id := UpdateMatches(RowsOf(t, id), expected, candidate, WatermarkRow(candidate, runId, now))])
    else Failure(CommitConflict)
  }

  /** On a healthy table a commit happens exactly from the expected value, strictly upwards. */
  lemma AdvanceIsCompareAndSet(t: Table, id: WatermarkIdentity, expected: int, candidate: int, runId: string, now: Instant)
    requires OneRowEach(t)
    ensures AdvanceTx(t, id, expected, candidate, runId, now).Success? <==>
            RowsOf(t, id) != [] && RowsOf(t, id)[0].value == expected < candidate
    ensures AdvanceTx(t, id, expected, candidate, runId, now).Success? ==>
            AdvanceTx(t, id, expected, candidate, runId, now).value == t[id := [WatermarkRow(candidate, runId, now)]]
  {
    var rows := RowsOf(t, id);
    if rows != [] {
      assert rows[1..] == [];
      assert CountMatches(rows, expected, candidate) == if AdvanceMatches(rows[0], expected, candidate) then 1 else 0;
      var newRow := WatermarkRow(candidate, runId, now);
      if AdvanceMatches(rows[0], expected, candidate) {
        assert UpdateMatches(rows, expected, candidate, newRow) == [newRow];
      }
    }
  }

  /** Every identity of a related set is at its expected value and moves forward or stays. */
  ghost predicate CanAdvanceAll(t: Table, expected: map<WatermarkIdentity, int>, candidates: map<WatermarkIdentity, int>) {
    && expected.Keys == candidates.Keys
    && forall id :: id in expected ==> CanAdvance(t, id, expected[id], candidates[id])
  }

  predicate CanAdvance(t: Table, id: WatermarkIdentity, expected: int, candidate: int) {
    |RowsOf(t, id)| == 1 && RowsOf(t, id)[0].value == expected <= candidate
  }

  /** The table after a related commit: candidates in place, equal rows untouched. */
  ghost function AdvancedAll(t: Table, expected: map<WatermarkIdentity, int>, candidates: map<WatermarkIdentity, int>,
                             runId: string, now: Instant): Table
    requires expected.Keys == candidates.Keys
  {
    map id | id in t ::
      if id in expected && candidates[id] != expected[id] then [WatermarkRow(candidates[id], runId, now)] else t[id]
  }

  class WatermarkStore {
    var table: Table

    constructor ()
      ensures table == map[]
    {
      table := map[];
    }

    method Get(id: WatermarkIdentity) returns (r: Result<Option<WatermarkRow>, WatermarkError>)
      ensures r == if RowsOf(table, id) == [] then Success(None)
                   else if |RowsOf(table, id)| == 1 then Success(Some(RowsOf(table, id)[0]))
                   else Failure(DuplicateState)
    {
      var rows := RowsOf(table, id);
      if rows == [] {
        return Success(None);
      }
      if |rows| != 1 {
        return Failure(DuplicateState);
      }
      return Success(Some(rows[0]));
    }

    /** Insert the first row; a concurrent first row makes the insert a conflict. */
    method Initialize(id: WatermarkIdentity, value: int, runId: string, now: Instant)
      returns (r: Result<WatermarkRow, WatermarkError>)
      modifies this
      ensures old(RowsOf(table, id)) == [] ==>
                r == Success(WatermarkRow(value, runId, now)) && table == old(table)[id := [WatermarkRow(value, runId, now)]]
      ensures old(RowsOf(table, id)) != [] ==> r == Failure(CommitConflict) && table == old(table)
    {
      if RowsOf(table, id) != [] {
        return Failure(CommitConflict);
      }
      var row := WatermarkRow(value, runId, now);
      table := table[id := [row]];
      return Success(row);
    }

    /** All first rows or none. */
    method InitializeMany(values: map<WatermarkIdentity, int>, runId: string, now: Instant)
      returns (r: Result<map<WatermarkIdentity, WatermarkRow>, WatermarkError>)
      modifies this
      ensures r.Success? <==> forall id :: id in values ==> RowsOf(old(table), id) == []
      ensures r.Success? ==>
                && r.value == (map id | id in values :: WatermarkRow(values[id], runId, now))
                && (forall id :: id in values ==> RowsOf(table, id) == [WatermarkRow(values[id], runId, now)])
                && (forall id :: id !in values ==> RowsOf(table, id) == RowsOf(old(table), id))
      ensures r.Failure? ==> r.error == CommitConflict && table == old(table)
    {
      var begin := table;
      var todo := values.Keys;
      while todo != {}
        invariant todo <= values.Keys
        invariant forall id :: id in values && id !in todo ==>
                    RowsOf(begin, id) == [] && RowsOf(table, id) == [WatermarkRow(values[id], runId, now)]
        invariant forall id :: id !in values || id in todo ==> RowsOf(table, id) == RowsOf(begin, id)
        decreases todo
      {
        var id :| id in todo;
        if RowsOf(table, id) != [] {
          table := begin;
          return Failure(CommitConflict);
        }
        table := table[id := [WatermarkRow(values[id], runId, now)]];
        todo := todo - {id};
      }
      return Success(map id | id in values :: WatermarkRow(values[id], runId, now));
    }

    method Advance(id: WatermarkIdentity, expected: int, candidate: int, runId: string, now: Instant)
      returns (r: Result<WatermarkRow, WatermarkError>)
      modifies this
      ensures match AdvanceTx(old(table), id, expected, candidate, runId, now)
              case Success(after) => r == Success(WatermarkRow(candidate, runId, now)) && table == after
              case Failure(e) => r == Failure(e) && table == old(table)
    {
      var rows := RowsOf(table, id);
      var updated: seq<WatermarkRow> := [];
      var rowcount := 0;
      for i := 0 to |rows|
        invariant |updated| == i
        invariant forall k :: 0 <= k < i ==>
                    updated[k] == if AdvanceMatches(rows[k], expected, candidate) then WatermarkRow(candidate, runId, now) else rows[k]
        invariant rowcount + CountMatches(rows[i..], expected, candidate) == CountMatches(rows, expected, candidate)
      {
        assert rows[i..][1..] == rows[i + 1..];
        if AdvanceMatches(rows[i], expected, candidate) {
          updated := updated + [WatermarkRow(candidate, runId, now)];
          rowcount := rowcount + 1;
        } else {
          updated := updated + [rows[i]];
        }
      }
      if rowcount != 1 {
        return Failure(CommitConflict);
      }
      assert updated == UpdateMatches(rows, expected, candidate, WatermarkRow(candidate, runId, now));
      table := table[id := updated];
      return Success(WatermarkRow(candidate, runId, now));
    }

    /** `advance_many`: read and compare every identity, then update, in one transaction. */
    method AdvanceMany(expected: map<WatermarkIdentity, int>, candidates: map<WatermarkIdentity, int>, runId: string, now: Instant)
      returns (r: Result<map<WatermarkIdentity, WatermarkRow>, WatermarkError>)
      modifies this
      ensures r.Success? <==> expected.Keys == candidates.Keys && CanAdvanceAll(old(table), expected, candidates)
      ensures r.Failure? ==> table == old(table)
      ensures r.Failure? ==> r.error == if expected.Keys == candidates.Keys then CommitConflict else IdentityMismatch
      ensures r.Success? ==>
                && table == AdvancedAll(old(table), expected, candidates, runId, now)
                && r.value.Keys == expected.Keys
                && (forall id :: id in expected ==> [r.value[id]] == RowsOf(table, id))
    {
      if expected.Keys != candidates.Keys {
        return Failure(IdentityMismatch);
      }
      var begin := table;
      var prior := ReadExpected(expected);
      if prior.None? {
        return Failure(CommitConflict);
      }
      var updated := UpdateChanged(expected, candidates, runId, now);
      if !updated {
        table := begin;
        return Failure(CommitConflict);
      }
      assert forall id :: id in expected ==> RowsOf(begin, id) == [prior.value[id]];
      return Success(map id | id in expected ::
        if candidates[id] != expected[id] then WatermarkRow(candidates[id], runId, now) else prior.value[id]);
    }

    /** The select loop: every identity must have one row holding its expected value. */
    method ReadExpected(expected: map<WatermarkIdentity, int>) returns (r: Option<map<WatermarkIdentity, WatermarkRow>>)
      ensures r.Some? <==> forall id :: id in expected ==> |RowsOf(table, id)| == 1 && RowsOf(table, id)[0].value == expected[id]
      ensures r.Some? ==> r.value.Keys == expected.Keys && forall id :: id in expected ==> RowsOf(table, id) == [r.value[id]]
    {
      var prior: map<WatermarkIdentity, WatermarkRow> := map[];
      var todo := expected.Keys;
      while todo != {}
        invariant todo <= expected.Keys && prior.Keys == expected.Keys - todo
        invariant forall id :: id in prior ==> RowsOf(table, id) == [prior[id]] && prior[id].value == expected[id]
        decreases todo
      {
        var id :| id in todo;
        var rows := RowsOf(table, id);
        if |rows| != 1 || rows[0].value != expected[id] {
          return None;
        }
        prior := prior[id := rows[0]];
        todo := todo - {id};
      }
      return Some(prior);
    }

    /** The update loop: equal candidates are skipped, a lower one matches no row. */
    method UpdateChanged(expected: map<WatermarkIdentity, int>, candidates: map<WatermarkIdentity, int>, runId: string, now: Instant)
      returns (updated: bool)
      requires expected.Keys == candidates.Keys
      requires forall id :: id in expected ==> |RowsOf(table, id)| == 1 && RowsOf(table, id)[0].value == expected[id]
      modifies this
      ensures updated <==> forall id :: id in expected ==> expected[id] <= candidates[id]
      ensures updated ==> table == AdvancedAll(old(table), expected, candidates, runId, now)
    {
      var todo := expected.Keys;
      while todo != {}
        invariant todo <= expected.Keys
        invariant forall id :: id in expected && id !in todo ==> expected[id] <= candidates[id]
        invariant table.Keys == old(table).Keys
        invariant forall id :: id in table ==>
                    table[id] == if id in expected && id !in todo && candidates[id] != expected[id]
                                 then [WatermarkRow(candidates[id], runId, now)] else old(table)[id]
        decreases todo
      {
        var id :| id in todo;
        if candidates[id] != expected[id] {
          var row := RowsOf(table, id)[0];
          if !(row.value == expected[id] && row.value <= candidates[id]) {
            return false;
          }
          table := table[id := [WatermarkRow(candidates[id], runId, now)]];
        }
        todo := todo - {id};
      }
      return true;
    }
  }

  /** `initialize_watermark`: explicit first state, refused when any row exists. */
  method InitializeWatermark(store: WatermarkStore, id: WatermarkIdentity, value: int, runId: string, now: Instant)
    returns (r: Result<WatermarkRow, WatermarkError>)
    modifies store
    ensures r.Success? <==> 0 <= value <= MAX_WATERMARK_VALUE && Strip(runId) != [] && old(RowsOf(store.table, id)) == []
    ensures r.Success? ==> store.table == old(store.table)[id := [WatermarkRow(value, Strip(runId), now)]]
    ensures r.Success? ==> r.value == WatermarkRow(value, Strip(runId), now)
    ensures r.Failure? ==> store.table == old(store.table)
  {
    if !ValidValue(value) { return Failure(InvalidValue); }
    if Strip(runId) == [] { return Failure(BlankRunId); }
    var current := store.Get(id);
    if current.Failure? { return Failure(current.error); }
    if current.value.Some? { return Failure(AlreadyInitialized); }
    r := store.Initialize(id, value, Strip(runId), now);
  }

  /** `commit_watermark`: advance from whatever value is read now. */
  method CommitWatermark(store: WatermarkStore, id: WatermarkIdentity, candidate: int, runId: string,
                         processingSucceeded: bool, mode: ProcessingMode, now: Instant)
    returns (r: Result<WatermarkRow, WatermarkError>)
    modifies store
    ensures mode != Forward || !processingSucceeded ==> r == Failure(UnsafeCommit)
    ensures r.Failure? ==> store.table == old(store.table)
    ensures r.Success? ==>
              && |old(RowsOf(store.table, id))| == 1
              && old(RowsOf(store.table, id))[0].value <= candidate
              && RowsOf(store.table, id) == [r.value] && r.value.value == candidate
              && (old(RowsOf(store.table, id))[0].value == candidate ==> store.table == old(store.table))
              && (old(RowsOf(store.table, id))[0].value < candidate ==>
                    store.table == old(store.table)[id := [WatermarkRow(candidate, Strip(runId), now)]])
    ensures r.Success? <==>
              && mode == Forward && processingSucceeded && Strip(runId) != []
              && |old(RowsOf(store.table, id))| == 1
              && ValidateCandidate(old(RowsOf(store.table, id))[0].value, candidate).Success?
  {
    if mode != Forward { return Failure(UnsafeCommit); }
    if !processingSucceeded { return Failure(UnsafeCommit); }
    var current := store.Get(id);
    if current.Failure? { return Failure(current.error); }
    if current.value.None? { return Failure(Missing); }
    var row := current.value.value;
    if Strip(runId) == [] { return Failure(BlankRunId); }
    var shouldAdvance := ValidateCandidate(row.value, candidate);
    if shouldAdvance.Failure? { return Failure(shouldAdvance.error); }
    if !shouldAdvance.value { return Success(row); }
    SingleRowAdvance(store.table, id, row.value, candidate, Strip(runId), now);
    r := store.Advance(id, row.value, candidate, Strip(runId), now);
  }

  /** `commit_watermark_from_expected`: advance only from the value the work was planned on. */
  method CommitWatermarkFromExpected(store: WatermarkStore, id: WatermarkIdentity, expected: int, candidate: int,
                                     runId: string, processingSucceeded: bool, now: Instant)
    returns (r: Result<WatermarkRow, WatermarkError>)
    modifies store
    ensures r.Failure? ==> store.table == old(store.table)
    ensures r.Success? <==>
              && processingSucceeded && Strip(runId) != []
              && |old(RowsOf(store.table, id))| == 1 && old(RowsOf(store.table, id))[0].value == expected
              && ValidateCandidate(expected, candidate).Success?
    ensures r.Success? && expected == candidate ==> store.table == old(store.table)
    ensures r.Success? && expected < candidate ==>
              store.table == old(store.table)[id := [WatermarkRow(candidate, Strip(runId), now)]]
  {
    if !processingSucceeded { return Failure(UnsafeCommit); }
    var current := store.Get(id);
    if current.Failure? { return Failure(current.error); }
    if current.value.None? { return Failure(Missing); }
    if current.value.value.value != expected { return Failure(CommitConflict); }
    if Strip(runId) == [] { return Failure(BlankRunId); }
    var shouldAdvance := ValidateCandidate(expected, candidate);
    if shouldAdvance.Failure? { return Failure(shouldAdvance.error); }
    if !shouldAdvance.value { return Success(current.value.value); }
    SingleRowAdvance(store.table, id, expected, candidate, Strip(runId), now);
    r := store.Advance(id, expected, candidate, Strip(runId), now);
  }

  lemma SingleRowAdvance(t: Table, id: WatermarkIdentity, expected: int, candidate: int, runId: string, now: Instant)
    requires |RowsOf(t, id)| == 1 && RowsOf(t, id)[0].value == expected < candidate
    ensures AdvanceTx(t, id, expected, candidate, runId, now) == Success(t[id := [WatermarkRow(candidate, runId, now)]])
  {
    var rows := RowsOf(t, id);
    assert rows[1..] == [];
    assert CountMatches(rows, expected, candidate) == 1;
    var newRow := WatermarkRow(candidate, runId, now);
    assert UpdateMatches(rows, expected, candidate, newRow) == [newRow];
  }

  /** A state as read earlier, which carries its own identity. */
  datatype WatermarkState = WatermarkState(identity: WatermarkIdentity, row: WatermarkRow)

  /** The values the related work was planned on. */
  function ExpectedOf(states: map<WatermarkIdentity, WatermarkState>): map<WatermarkIdentity, int> {
    map id | id in states :: states[id].row.value
  }

  ghost predicate Moves(states: map<WatermarkIdentity, WatermarkState>, candidates: map<WatermarkIdentity, int>) {
    states.Keys == candidates.Keys && exists id :: id in states && candidates[id] != states[id].row.value
  }

  /** What the caller must supply before the store is asked to commit. */
  ghost predicate CommitReady(states: map<WatermarkIdentity, WatermarkState>, candidates: map<WatermarkIdentity, int>, runId: string) {
    Strip(runId) != [] && states != map[] && states.Keys == candidates.Keys && StatesFit(states, candidates)
  }

  /** Every state belongs to its key, and its candidate is valid and not lower. */
  ghost predicate StatesFit(states: map<WatermarkIdentity, WatermarkState>, candidates: map<WatermarkIdentity, int>)
    requires states.Keys == candidates.Keys
  {
    && (forall id :: id in states ==> states[id].identity == id)
    && (forall id :: id in states ==> 0 <= states[id].row.value <= candidates[id] <= MAX_WATERMARK_VALUE)
  }

  /** The one row of every identity holds the value it was read with. */
  ghost predicate Unmoved(t: Table, states: map<WatermarkIdentity, WatermarkState>) {
    forall id :: id in states ==> id in t && |t[id]| == 1 && t[id][0].value == states[id].row.value
  }

  /** Rows with a new candidate hold it, all others are as they were. */
  ghost predicate MovedTo(t: Table, states: map<WatermarkIdentity, WatermarkState>, candidates: map<WatermarkIdentity, int>,
                          runId: string, now: Instant, t': Table)
  {
    && t'.Keys == t.Keys
    && forall id :: id in t ==>
         t'[id] == if id in states && id in candidates && candidates[id] != states[id].row.value
                   then [WatermarkRow(candidates[id], runId, now)] else t[id]
  }

  /** The validation loop over the states that were read. */
  method CheckStates(states: map<WatermarkIdentity, WatermarkState>, candidates: map<WatermarkIdentity, int>)
    returns (r: Result<(map<WatermarkIdentity, int>, bool), WatermarkError>)
    requires states.Keys == candidates.Keys
    ensures r.Success? <==> StatesFit(states, candidates)
    ensures r.Success? ==> r.value.0 == ExpectedOf(states) && (r.value.1 <==> Moves(states, candidates))
  {
    var expected: map<WatermarkIdentity, int> := map[];
    var moves := false;
    var todo := states.Keys;
    while todo != {}
      invariant todo <= states.Keys && expected.Keys == states.Keys - todo
      invariant forall id :: id in expected ==>
                  && expected[id] == states[id].row.value && states[id].identity == id
                  && 0 <= states[id].row.value <= candidates[id] <= MAX_WATERMARK_VALUE
      invariant moves <==> exists id :: id in expected && candidates[id] != expected[id]
      decreases todo
    {
      var id :| id in todo;
      if states[id].identity != id { return Failure(IdentityMismatch); }
      var valid := ValidateCandidate(states[id].row.value, candidates[id]);
      if valid.Failure? { return Failure(valid.error); }
      expected := expected[id := states[id].row.value];
      moves := moves || candidates[id] != states[id].row.value;
      todo := todo - {id};
    }
    assert expected == ExpectedOf(states);
    return Success((expected, moves));
  }

  /** The transaction's conditions and result, in terms of the states that were read. */
  lemma AdvanceAllMoves(t: Table, states: map<WatermarkIdentity, WatermarkState>, candidates: map<WatermarkIdentity, int>, runId: string, now: Instant)
    requires states.Keys == candidates.Keys && forall id :: id in states ==> states[id].row.value <= candidates[id]
    ensures CanAdvanceAll(t, ExpectedOf(states), candidates) <==> Unmoved(t, states)
    ensures MovedTo(t, states, candidates, runId, now, AdvancedAll(t, ExpectedOf(states), candidates, runId, now))
  {
    if Unmoved(t, states) {
      forall id | id in states ensures CanAdvance(t, id, ExpectedOf(states)[id], candidates[id]) {}
    }
    if CanAdvanceAll(t, ExpectedOf(states), candidates) {
      forall id | id in states ensures id in t && |t[id]| == 1 && t[id][0].value == states[id].row.value {
        assert CanAdvance(t, id, ExpectedOf(states)[id], candidates[id]);
      }
    }
  }

  /**
   `commit_watermarks_atomically`: nothing changes unless every identity is still at the
   value it was read with; a vector that does not move is accepted without a transaction.
   */
  method CommitWatermarksAtomically(store: WatermarkStore, states: map<WatermarkIdentity, WatermarkState>,
                                    candidates: map<WatermarkIdentity, int>, runId: string,
                                    processingSucceeded: bool, mode: ProcessingMode, now: Instant)
    returns (r: Result<map<WatermarkIdentity, WatermarkRow>, WatermarkError>)
    modifies store
    ensures r.Success? <==>
              && mode == Forward && processingSucceeded && CommitReady(states, candidates, runId)
              && (Moves(states, candidates) ==> Unmoved(old(store.table), states))
    ensures r.Failure? ==> store.table == old(store.table)
    ensures r.Success? && Moves(states, candidates) ==> MovedTo(old(store.table), states, candidates, Strip(runId), now, store.table)
    ensures r.Success? && !Moves(states, candidates) ==> store.table == old(store.table)
  {
    if mode != Forward { return Failure(UnsafeCommit); }
    if !processingSucceeded { return Failure(UnsafeCommit); }
    if states == map[] || states.Keys != candidates.Keys { return Failure(IdentityMismatch); }
    if Strip(runId) == [] { return Failure(BlankRunId); }
    var checked := CheckStates(states, candidates);
    if checked.Failure? { return Failure(checked.error); }
    var (expected, moves) := checked.value;
    if !moves {
      return Success(map id | id in states :: states[id].row);
    }
    AdvanceAllMoves(store.table, states, candidates, Strip(runId), now);
    r := store.AdvanceMany(expected, candidates, Strip(runId), now);
  }
}
