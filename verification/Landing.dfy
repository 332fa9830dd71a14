/** Incremental landing and canonical merge. */
module Landing {
  // Incremental landing: COPY appends rows, and one transaction merges the rows not merged yet
  // into the canonical table by natural key (the program `generate_dataset_load_sql` builds in
  // warehouse/snowflake.py).

  import opened Wrappers
  import opened Sorting

  type NaturalKey = seq<string>

  /** `batch` stands for `merged_at`: the number of the merge that took the row, none while unmerged. */
  datatype LandingRow = LandingRow(key: Option<NaturalKey>, loadedAt: int, file: string, row: int, payload: string, batch: Option<nat>)

  datatype RawRow = RawRow(key: NaturalKey, loadedAt: int, file: string, row: int, payload: string)

  predicate Unmerged(r: LandingRow) { r.batch.None? && r.key.Some? }

  function ToRaw(r: LandingRow): RawRow
    requires r.key.Some?
  {
    RawRow(r.key.value, r.loadedAt, r.file, r.row, r.payload)
  }

  /** The window order of the MERGE source, inside one batch. */
  predicate FileRowLe(a: LandingRow, b: LandingRow) {
    if a.file == b.file then a.row <= b.row else StringLe(a.file, b.file)
  }

  predicate SourceLe(a: LandingRow, b: LandingRow) {
    a.loadedAt < b.loadedAt || (a.loadedAt == b.loadedAt && FileRowLe(a, b))
  }

  /** The order the canonical row is greatest in: load time, then batch, then file and row number. */
  ghost predicate HistoryLe(a: LandingRow, b: LandingRow) {
    && a.batch.Some? && b.batch.Some?
    && (|| a.loadedAt < b.loadedAt
        || (a.loadedAt == b.loadedAt && a.batch.value < b.batch.value)
        || (a.loadedAt == b.loadedAt && a.batch == b.batch && Before(a.file, b.file))
        || (a.loadedAt == b.loadedAt && a.batch == b.batch && a.file == b.file && a.row <= b.row))
  }

  lemma FileRowLeIff(a: LandingRow, b: LandingRow)
    ensures FileRowLe(a, b) <==> Before(a.file, b.file) || (a.file == b.file && a.row <= b.row)
  {
    StringLeIff(a.file, b.file);
    BeforeIsStrict(a.file, b.file);
  }

  /** The canonical row has the landed row's key, load time, place and payload. */
  ghost predicate Carries(l: LandingRow, r: RawRow) {
    l.key == Some(r.key) && l.loadedAt == r.loadedAt && l.file == r.file && l.row == r.row && l.payload == r.payload
  }

  lemma SourceLeTotal(a: LandingRow, b: LandingRow, c: LandingRow)
    ensures SourceLe(a, b) || SourceLe(b, a)
    ensures SourceLe(a, b) && SourceLe(b, c) ==> SourceLe(a, c)
  {
    StringLeTotal(a.file, b.file);
    StringLeTotal(a.file, c.file);
    StringLeTotal(b.file, c.file);
    if StringLe(a.file, b.file) && StringLe(b.file, c.file) { StringLeTransitive(a.file, b.file, c.file); }
  }

  /** `best` holds, for every key that has an unmerged row, one that no other comes after. */
  ghost predicate IsSource(landing: seq<LandingRow>, best: map<NaturalKey, LandingRow>) {
    && (forall i :: 0 <= i < |landing| && Unmerged(landing[i]) ==>
          landing[i].key.value in best && SourceLe(landing[i], best[landing[i].key.value]))
    && (forall key :: key in best ==> best[key].key == Some(key) && best[key] in landing && Unmerged(best[key]))
  }

  /** One landing row per key: the last in load time, file and row number. */
  method SelectSource(landing: seq<LandingRow>) returns (best: map<NaturalKey, LandingRow>)
    ensures IsSource(landing, best)
  {
    best := map[];
    for i := 0 to |landing|
      invariant IsSource(landing[..i], best)
    {
      var r := landing[i];
      if Unmerged(r) {
        ghost var before := best;
        if r.key.value !in best || SourceLe(best[r.key.value], r) {
          best := best[r.key.value := r];
        }
        forall j | 0 <= j <= i && Unmerged(landing[j])
          ensures landing[j].key.value in best && SourceLe(landing[j], best[landing[j].key.value])
        {
          if j < i {
            assert landing[..i][j] == landing[j];
            SourceLeTotal(landing[j], before[landing[j].key.value], r);
          } else {
            SourceLeTotal(r, best[r.key.value], r);
          }
        }
      }
      assert landing[..i + 1] == landing[..i] + [r];
    }
    assert landing[..|landing|] == landing;
  }

  function KeysOf(raw: seq<RawRow>): set<NaturalKey> { set i | 0 <= i < |raw| :: raw[i].key }

  ghost predicate UniqueKeys(raw: seq<RawRow>) {
    forall i, j :: 0 <= i < j < |raw| ==> raw[i].key != raw[j].key
  }

  /** WHEN MATCHED: a source row replaces the target unless it was loaded earlier. */
  function Updated(r: RawRow, best: map<NaturalKey, LandingRow>): RawRow
    requires forall key :: key in best ==> best[key].key.Some?
  {
    if r.key in best && best[r.key].loadedAt >= r.loadedAt then ToRaw(best[r.key]) else r
  }

  ghost predicate Keyed(best: map<NaturalKey, LandingRow>) {
    forall key :: key in best ==> best[key].key == Some(key)
  }

  /** The MERGE part way: matched rows in place, a new row for every other key but `remaining`. */
  ghost predicate MergedBut(raw: seq<RawRow>, best: map<NaturalKey, LandingRow>, remaining: set<NaturalKey>, after: seq<RawRow>) {
    && Keyed(best)
    && |raw| <= |after|
    && (forall i :: 0 <= i < |raw| ==> after[i] == Updated(raw[i], best))
    && (forall i :: |raw| <= i < |after| ==> after[i].key in best && after[i].key !in KeysOf(raw) && after[i] == ToRaw(best[after[i].key]))
    && KeysOf(after) == KeysOf(raw) + (best.Keys - KeysOf(raw) - remaining)
    && (UniqueKeys(raw) ==> UniqueKeys(after))
  }

  /** The table after the MERGE. */
  ghost predicate MergedInto(raw: seq<RawRow>, best: map<NaturalKey, LandingRow>, after: seq<RawRow>) {
    Keyed(best) && MergedBut(raw, best, {}, after)
  }

  method UpdateMatched(raw: seq<RawRow>, best: map<NaturalKey, LandingRow>) returns (after: seq<RawRow>)
    requires Keyed(best)
    ensures |after| == |raw| && forall i :: 0 <= i < |raw| ==> after[i] == Updated(raw[i], best)
  {
    after := raw;
    for i := 0 to |raw|
      invariant |after| == |raw|
      invariant forall j :: 0 <= j < i ==> after[j] == Updated(raw[j], best)
      invariant forall j :: i <= j < |raw| ==> after[j] == raw[j]
    {
      var r := after[i];
      if r.key in best && best[r.key].loadedAt >= r.loadedAt {
        after := after[i := ToRaw(best[r.key])];
      }
    }
  }

  lemma UpdatedInPlace(raw: seq<RawRow>, best: map<NaturalKey, LandingRow>, after: seq<RawRow>)
    requires Keyed(best) && |after| == |raw| && forall i :: 0 <= i < |raw| ==> after[i] == Updated(raw[i], best)
    ensures MergedBut(raw, best, best.Keys - KeysOf(raw), after)
  {
    assert forall i :: 0 <= i < |raw| ==> after[i].key == raw[i].key;
    forall key | key in KeysOf(raw) ensures key in KeysOf(after) {
      var i :| 0 <= i < |raw| && raw[i].key == key;
      assert after[i].key == key;
    }
  }

  lemma InsertOne(raw: seq<RawRow>, best: map<NaturalKey, LandingRow>, remaining: set<NaturalKey>, after: seq<RawRow>, key: NaturalKey)
    requires Keyed(best) && MergedBut(raw, best, remaining, after)
    requires key in remaining && remaining <= best.Keys - KeysOf(raw)
    ensures MergedBut(raw, best, remaining - {key}, after + [ToRaw(best[key])])
  {
    KeysAppend(after, ToRaw(best[key]));
  }

  method MergeInto(raw: seq<RawRow>, best: map<NaturalKey, LandingRow>) returns (after: seq<RawRow>)
    requires Keyed(best)
    ensures MergedInto(raw, best, after)
  {
    after := UpdateMatched(raw, best);
    UpdatedInPlace(raw, best, after);
    var remaining := best.Keys - KeysOf(raw);
    while remaining != {}
      invariant remaining <= best.Keys - KeysOf(raw) && MergedBut(raw, best, remaining, after)
      decreases |remaining|
    {
      var key :| key in remaining;
      InsertOne(raw, best, remaining, after, key);
      after := after + [ToRaw(best[key])];
      remaining := remaining - {key};
    }
  }

  lemma KeysAppend(raw: seq<RawRow>, r: RawRow)
    ensures KeysOf(raw + [r]) == KeysOf(raw) + {r.key}
    ensures UniqueKeys(raw) && r.key !in KeysOf(raw) ==> UniqueKeys(raw + [r])
  {
    var more := raw + [r];
    assert more[|raw|] == r;
    forall key | key in KeysOf(raw) ensures key in KeysOf(more) {
      var i :| 0 <= i < |raw| && raw[i].key == key;
      assert more[i].key == key;
    }
  }

  function Marked(r: LandingRow, n: nat): LandingRow {
    if r.batch.None? then r.(batch := Some(n)) else r
  }

  /** The closing UPDATE marks every unmerged row, keyed or not. */
  function MarkAll(landing: seq<LandingRow>, n: nat): (after: seq<LandingRow>)
    ensures |after| == |landing| && forall i :: 0 <= i < |landing| ==> after[i] == Marked(landing[i], n)
  {
    seq(|landing|, i requires 0 <= i < |landing| => Marked(landing[i], n))
  }

  /** Landing row `i` is merged and no merged row of its key comes after it. */
  ghost predicate IsLatest(landing: seq<LandingRow>, i: nat) {
    && i < |landing|
    && landing[i].batch.Some? && landing[i].key.Some?
    && forall j :: 0 <= j < |landing| && landing[j].batch.Some? && landing[j].key == landing[i].key ==> HistoryLe(landing[j], landing[i])
  }

  /** A canonical row carries the latest merged landing row of its key. */
  ghost predicate CarriesLatest(landing: seq<LandingRow>, r: RawRow) {
    exists i :: 0 <= i < |landing| && IsLatest(landing, i) && Carries(landing[i], r)
  }

  /** The canonical table is what recomputing it from all merged rows would give. */
  ghost predicate Recomputed(landing: seq<LandingRow>, raw: seq<RawRow>) {
    && UniqueKeys(raw)
    && (forall i :: 0 <= i < |raw| ==> CarriesLatest(landing, raw[i]))
    && (forall i :: 0 <= i < |landing| && landing[i].batch.Some? && landing[i].key.Some? ==> landing[i].key.value in KeysOf(raw))
  }

  ghost predicate BatchesBelow(landing: seq<LandingRow>, n: nat) {
    forall i :: 0 <= i < |landing| && landing[i].batch.Some? ==> landing[i].batch.value < n
  }

  /** The last unmerged row of a key, loaded no earlier than its merged rows, becomes the latest. */
  lemma SourceBecomesLatest(landing: seq<LandingRow>, n: nat, best: map<NaturalKey, LandingRow>, key: NaturalKey)
    requires IsSource(landing, best) && BatchesBelow(landing, n) && key in best
    requires forall j :: 0 <= j < |landing| && landing[j].batch.Some? && landing[j].key == Some(key) ==> landing[j].loadedAt <= best[key].loadedAt
    ensures CarriesLatest(MarkAll(landing, n), ToRaw(best[key]))
  {
    var marked := MarkAll(landing, n);
    var m :| 0 <= m < |landing| && landing[m] == best[key];
    forall j | 0 <= j < |marked| && marked[j].batch.Some? && marked[j].key == marked[m].key ensures HistoryLe(marked[j], marked[m]) {
      if landing[j].batch.None? {
        assert Unmerged(landing[j]);
        FileRowLeIff(landing[j], best[key]);
      }
    }
    assert IsLatest(marked, m);
  }

  /** A row loaded after every unmerged row of its key stays the latest. */
  lemma LatestStays(landing: seq<LandingRow>, n: nat, best: map<NaturalKey, LandingRow>, r: RawRow)
    requires IsSource(landing, best) && CarriesLatest(landing, r)
    requires r.key in best ==> best[r.key].loadedAt < r.loadedAt
    ensures CarriesLatest(MarkAll(landing, n), r)
  {
    var marked := MarkAll(landing, n);
    var i :| 0 <= i < |landing| && IsLatest(landing, i) && Carries(landing[i], r);
    forall j | 0 <= j < |marked| && marked[j].batch.Some? && marked[j].key == marked[i].key ensures HistoryLe(marked[j], marked[i]) {
      if landing[j].batch.None? { assert Unmerged(landing[j]); }
    }
    assert IsLatest(marked, i);
  }

  /** The row MERGE leaves for a key carries the latest row once the batch is marked. */
  lemma UpdatedCarriesLatest(landing: seq<LandingRow>, raw: seq<RawRow>, n: nat, best: map<NaturalKey, LandingRow>, k: nat)
    requires Recomputed(landing, raw) && IsSource(landing, best) && BatchesBelow(landing, n) && k < |raw|
    ensures CarriesLatest(MarkAll(landing, n), Updated(raw[k], best))
  {
    assert CarriesLatest(landing, raw[k]);
    var key := raw[k].key;
    if key in best && best[key].loadedAt >= raw[k].loadedAt {
      var i :| 0 <= i < |landing| && IsLatest(landing, i) && Carries(landing[i], raw[k]);
      forall j | 0 <= j < |landing| && landing[j].batch.Some? && landing[j].key == Some(key) ensures landing[j].loadedAt <= best[key].loadedAt {
        assert HistoryLe(landing[j], landing[i]);
      }
      SourceBecomesLatest(landing, n, best, key);
    } else {
      LatestStays(landing, n, best, raw[k]);
    }
  }

  lemma InsertedCarriesLatest(landing: seq<LandingRow>, raw: seq<RawRow>, n: nat, best: map<NaturalKey, LandingRow>, key: NaturalKey)
    requires Recomputed(landing, raw) && IsSource(landing, best) && BatchesBelow(landing, n)
    requires key in best && key !in KeysOf(raw)
    ensures CarriesLatest(MarkAll(landing, n), ToRaw(best[key]))
  {
    SourceBecomesLatest(landing, n, best, key);
  }

  /** One merge transaction keeps the canonical table equal to a full recomputation. */
  lemma MergeKeepsRecomputed(landing: seq<LandingRow>, raw: seq<RawRow>, n: nat, best: map<NaturalKey, LandingRow>, after: seq<RawRow>)
    requires Recomputed(landing, raw) && IsSource(landing, best) && BatchesBelow(landing, n)
    requires MergedInto(raw, best, after)
    ensures Recomputed(MarkAll(landing, n), after) && BatchesBelow(MarkAll(landing, n), n + 1)
    ensures forall i :: 0 <= i < |landing| ==> MarkAll(landing, n)[i].batch.Some?
  {
    forall k | 0 <= k < |after| ensures CarriesLatest(MarkAll(landing, n), after[k]) {
      if k < |raw| { UpdatedCarriesLatest(landing, raw, n, best, k); } else { InsertedCarriesLatest(landing, raw, n, best, after[k].key); }
    }
    forall i | 0 <= i < |landing| && landing[i].key.Some? ensures landing[i].key.value in KeysOf(after) {
      if landing[i].batch.None? { assert Unmerged(landing[i]); }
    }
  }

  class Warehouse {
    var landing: seq<LandingRow>
    var raw: seq<RawRow>
    var merges: nat

    constructor ()
      ensures Valid() && landing == [] && raw == []
    {
      landing, raw, merges := [], [], 0;
    }

    ghost predicate Valid()
      reads this
    {
      Recomputed(landing, raw) && BatchesBelow(landing, merges)
    }

    /** COPY commits on its own: it appends unmerged rows, also when the merge after it never runs. */
    method Copy(rows: seq<LandingRow>)
      requires Valid() && forall i :: 0 <= i < |rows| ==> rows[i].batch.None?
      modifies this
      ensures Valid() && landing == old(landing) + rows && raw == old(raw)
    {
      landing := landing + rows;
      ghost var before := old(landing);
      forall k | 0 <= k < |raw| ensures CarriesLatest(landing, raw[k]) {
        assert CarriesLatest(before, raw[k]);
        var i :| 0 <= i < |before| && IsLatest(before, i) && Carries(before[i], raw[k]);
        assert landing[i] == before[i];
        assert IsLatest(landing, i);
      }
    }

    /** The transaction: merge the unmerged rows, then mark them; or roll back. */
    method Merge(fails: bool)
      requires Valid()
      modifies this
      ensures Valid()
      ensures fails ==> landing == old(landing) && raw == old(raw)
      ensures !fails ==> landing == MarkAll(old(landing), old(merges)) && forall i :: 0 <= i < |landing| ==> landing[i].batch.Some?
      ensures (forall i :: 0 <= i < |old(landing)| ==> old(landing)[i].batch.Some?) ==> landing == old(landing) && raw == old(raw)
    {
      var best := SelectSource(landing);
      var after := MergeInto(raw, best);
      if fails { return; }
      MergeKeepsRecomputed(landing, raw, merges, best, after);
      if forall i :: 0 <= i < |landing| ==> landing[i].batch.Some? { NothingToMerge(landing, raw, merges, best, after); }
      raw := after;
      landing := MarkAll(landing, merges);
      merges := merges + 1;
    }
  }

  lemma InsertsComeFromSource(raw: seq<RawRow>, best: map<NaturalKey, LandingRow>, after: seq<RawRow>)
    requires Keyed(best) && MergedInto(raw, best, after)
    ensures |raw| < |after| ==> best.Keys != {}
  {
    if |raw| < |after| { assert after[|raw|].key in best; }
  }

  /** Re-running with nothing unmerged changes nothing. */
  lemma NothingToMerge(landing: seq<LandingRow>, raw: seq<RawRow>, n: nat, best: map<NaturalKey, LandingRow>, after: seq<RawRow>)
    requires IsSource(landing, best) && MergedInto(raw, best, after)
    requires forall i :: 0 <= i < |landing| ==> landing[i].batch.Some?
    ensures after == raw && MarkAll(landing, n) == landing
  {
    assert best.Keys == {};
    InsertsComeFromSource(raw, best, after);
  }

  /** The two landing tables hold the same loaded rows, however they were batched. */
  ghost predicate SameLoads(a: seq<LandingRow>, b: seq<LandingRow>) {
    |a| == |b| && forall i :: 0 <= i < |a| ==> a[i].(batch := None) == b[i].(batch := None)
  }

  /** No two rows of one key were loaded at the same time. */
  ghost predicate DistinctLoads(a: seq<LandingRow>) {
    forall i, j :: 0 <= i < j < |a| && a[i].key == a[j].key && a[i].key.Some? ==> a[i].loadedAt != a[j].loadedAt
  }

  /** With distinct load times, how rows were grouped into COPYs and merges leaves no trace. */
  lemma BatchingLeavesNoTrace(a: seq<LandingRow>, rawA: seq<RawRow>, b: seq<LandingRow>, rawB: seq<RawRow>, r: RawRow)
    requires Recomputed(a, rawA) && Recomputed(b, rawB) && SameLoads(a, b) && DistinctLoads(a)
    requires forall i :: 0 <= i < |a| ==> a[i].batch.Some? && b[i].batch.Some?
    requires r in rawA
    ensures r in rawB
  {
    var k :| 0 <= k < |rawA| && rawA[k] == r;
    assert CarriesLatest(a, rawA[k]);
    var i :| 0 <= i < |a| && IsLatest(a, i) && Carries(a[i], r);
    assert b[i].key.Some? && b[i].key.value in KeysOf(rawB);
    var m :| 0 <= m < |rawB| && rawB[m].key == r.key;
    assert CarriesLatest(b, rawB[m]);
    var j :| 0 <= j < |b| && IsLatest(b, j) && Carries(b[j], rawB[m]);
    assert HistoryLe(b[i], b[j]) && HistoryLe(a[j], a[i]);
    assert i == j;
  }
}
