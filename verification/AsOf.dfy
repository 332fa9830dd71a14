/** The as-of price join. */
module AsOf {
  // The latest eligible price of an event, chosen by one window ranking
  // (spark/price_enrichment.py). Every ranked column is non-null here.

  import opened Wrappers
  import opened Sorting
  import opened Decimals

  /** A Silver price row; `price` is in units of 10^-18. */
  datatype PriceRow = PriceRow(
    market: (string, string, string), timestamp: int, block: int, roundId: string, processedAt: int,
    observationId: string, feedAddress: string, price: int, answerRaw: string, decimals: nat)

  /** An event leg, its market already resolved by the asset mapping. */
  datatype EventLeg = EventLeg(market: (string, string, string), timestamp: int)

  /** What Silver validation guarantees: digit texts, and the exact price its text expression computes. */
  predicate Silver(r: PriceRow) {
    && AllDigits(r.roundId) && AllDigits(r.answerRaw) && r.answerRaw != [] && r.decimals <= SCALE
    && ExactPrice(Value(r.answerRaw), r.decimals) == Some(r.price)
  }

  predicate Eligible(e: EventLeg, r: PriceRow) {
    r.market == e.market && r.timestamp <= e.timestamp && r.price > 0
  }

  // ----- Ranking keys -----

  datatype Field = Num(n: int) | Text(s: string)

  predicate FieldLe(a: Field, b: Field) {
    match (a, b)
    case (Num(m), Num(n)) => m <= n
    case (Text(s), Text(t)) => StringLe(s, t)
    case (Num(_), Text(_)) => true
    case (Text(_), Num(_)) => false
  }

  /** Lexicographic comparison. */
  predicate KeyLe(a: seq<Field>, b: seq<Field>) {
    if a == [] then true
    else if b == [] then false
    else if a[0] == b[0] then KeyLe(a[1..], b[1..])
    else FieldLe(a[0], b[0])
  }

  lemma FieldOrder(a: Field, b: Field, c: Field)
    ensures FieldLe(a, b) || FieldLe(b, a)
    ensures FieldLe(a, b) && FieldLe(b, a) ==> a == b
    ensures FieldLe(a, b) && FieldLe(b, c) ==> FieldLe(a, c)
  {
    if a.Text? && b.Text? {
      StringLeTotal(a.s, b.s);
      if c.Text? && StringLe(a.s, b.s) && StringLe(b.s, c.s) { StringLeTransitive(a.s, b.s, c.s); }
    }
  }

  lemma {:induction false} KeyTotal(a: seq<Field>, b: seq<Field>)
    ensures KeyLe(a, b) || KeyLe(b, a)
    ensures KeyLe(a, b) && KeyLe(b, a) ==> a == b
    decreases |a|
  {
    if a != [] && b != [] {
      FieldOrder(a[0], b[0], a[0]);
      if a[0] == b[0] {
        KeyTotal(a[1..], b[1..]);
        assert a == [a[0]] + a[1..] && b == [b[0]] + b[1..];
      }
    }
  }

  lemma {:induction false} KeyTransitive(a: seq<Field>, b: seq<Field>, c: seq<Field>)
    requires KeyLe(a, b) && KeyLe(b, c)
    ensures KeyLe(a, c)
    decreases |a|
  {
    if a != [] {
      FieldOrder(a[0], b[0], c[0]);
      FieldOrder(b[0], c[0], a[0]);
      if a[0] == b[0] == c[0] { KeyTransitive(a[1..], b[1..], c[1..]); }
    }
  }

  /** The window's key: round ids by the length and text of their zero-stripped form. */
  function RankKey(r: PriceRow): seq<Field> {
    [Num(r.timestamp), Num(r.block), Num(|Normalized(r.roundId)|), Text(Normalized(r.roundId)), Num(r.processedAt),
     Text(r.observationId), Text(r.feedAddress), Num(r.price), Text(r.answerRaw)]
  }

  /** What the key means: round ids compared as numbers. */
  function NumericKey(r: PriceRow): seq<Field>
    requires AllDigits(r.roundId)
  {
    [Num(r.timestamp), Num(r.block), Num(Value(r.roundId)), Num(r.processedAt),
     Text(r.observationId), Text(r.feedAddress), Num(r.price), Text(r.answerRaw)]
  }

  /** Keys with a common tail behind the round columns. */
  function Tail(r: PriceRow): seq<Field> {
    [Num(r.processedAt), Text(r.observationId), Text(r.feedAddress), Num(r.price), Text(r.answerRaw)]
  }

  /** The round columns order rows as the numbers they denote. */
  lemma RoundColumnsAreNumeric(a: PriceRow, b: PriceRow)
    requires AllDigits(a.roundId) && AllDigits(b.roundId)
    ensures KeyLe([Num(|Normalized(a.roundId)|)] + ([Text(Normalized(a.roundId))] + Tail(a)),
                  [Num(|Normalized(b.roundId)|)] + ([Text(Normalized(b.roundId))] + Tail(b)))
       <==> KeyLe([Num(Value(a.roundId))] + Tail(a), [Num(Value(b.roundId))] + Tail(b))
  {
    StrippedOrderIsNumeric(a.roundId, b.roundId);
  }

  lemma {:induction false} SharedHead(x: Field, a: seq<Field>, b: seq<Field>)
    ensures KeyLe([x] + a, [x] + b) <==> KeyLe(a, b)
  {
    assert ([x] + a)[1..] == a && ([x] + b)[1..] == b;
  }

  lemma {:induction false} OtherHead(x: Field, y: Field, a: seq<Field>, b: seq<Field>, c: seq<Field>, d: seq<Field>)
    requires x != y
    ensures KeyLe([x] + a, [y] + b) <==> KeyLe([x] + c, [y] + d)
  {
  }

  /** Prefixing both keys with one column keeps whether they order rows alike. */
  lemma {:induction false} SamePrefix(x: Field, y: Field, a: seq<Field>, b: seq<Field>, c: seq<Field>, d: seq<Field>)
    requires KeyLe(a, b) <==> KeyLe(c, d)
    ensures KeyLe([x] + a, [y] + b) <==> KeyLe([x] + c, [y] + d)
  {
    if x == y {
      SharedHead(x, a, b);
      SharedHead(x, c, d);
    } else {
      OtherHead(x, y, a, b, c, d);
    }
  }

  function TextRounds(r: PriceRow): seq<Field> { [Num(|Normalized(r.roundId)|)] + ([Text(Normalized(r.roundId))] + Tail(r)) }

  function NumberRounds(r: PriceRow): seq<Field>
    requires AllDigits(r.roundId)
  {
    [Num(Value(r.roundId))] + Tail(r)
  }

  lemma KeysByColumn(r: PriceRow)
    requires AllDigits(r.roundId)
    ensures RankKey(r) == [Num(r.timestamp)] + ([Num(r.block)] + TextRounds(r))
    ensures NumericKey(r) == [Num(r.timestamp)] + ([Num(r.block)] + NumberRounds(r))
  {
  }

  /** The text ranking is the numeric one. */
  lemma RankIsNumeric(a: PriceRow, b: PriceRow)
    requires AllDigits(a.roundId) && AllDigits(b.roundId)
    ensures KeyLe(RankKey(a), RankKey(b)) <==> KeyLe(NumericKey(a), NumericKey(b))
  {
    RoundColumnsAreNumeric(a, b);
    SamePrefix(Num(a.block), Num(b.block), TextRounds(a), TextRounds(b), NumberRounds(a), NumberRounds(b));
    SamePrefix(Num(a.timestamp), Num(b.timestamp), [Num(a.block)] + TextRounds(a), [Num(b.block)] + TextRounds(b),
      [Num(a.block)] + NumberRounds(a), [Num(b.block)] + NumberRounds(b));
    KeysByColumn(a);
    KeysByColumn(b);
  }

  // ----- Selection -----

  /** Rank 1 of the window: among equal keys the physically first row. */
  function Latest(e: EventLeg, rows: seq<PriceRow>): Option<PriceRow> {
    if rows == [] then None
    else
      var best, r := Latest(e, rows[..|rows| - 1]), rows[|rows| - 1];
      if !Eligible(e, r) then best
      else if best.Some? && KeyLe(RankKey(r), RankKey(best.value)) then best
      else Some(r)
  }

  /** The chosen row is eligible and no eligible row ranks above it; none is chosen only when none is eligible. */
  lemma {:induction false} LatestIsMaximum(e: EventLeg, rows: seq<PriceRow>)
    ensures Latest(e, rows).Some? <==> exists i :: 0 <= i < |rows| && Eligible(e, rows[i])
    ensures Latest(e, rows).Some? ==> Latest(e, rows).value in rows && Eligible(e, Latest(e, rows).value)
    ensures Latest(e, rows).Some? ==>
              forall i :: 0 <= i < |rows| && Eligible(e, rows[i]) ==> KeyLe(RankKey(rows[i]), RankKey(Latest(e, rows).value))
  {
    if rows != [] {
      var n := |rows| - 1;
      var front, r, best := rows[..n], rows[n], Latest(e, rows[..n]);
      LatestIsMaximum(e, front);
      assert rows == front + [r];
      if Eligible(e, r) {
        KeyTotal(RankKey(r), RankKey(r));
        if best.Some? && !KeyLe(RankKey(r), RankKey(best.value)) {
          KeyTotal(RankKey(r), RankKey(best.value));
          forall i | 0 <= i < n && Eligible(e, rows[i]) ensures KeyLe(RankKey(rows[i]), RankKey(r)) {
            assert front[i] == rows[i];
            KeyTransitive(RankKey(rows[i]), RankKey(best.value), RankKey(r));
          }
        }
      }
    }
  }

  /** The columns an enriched event shows of its price. */
  datatype Emitted = Emitted(answerRaw: string, decimals: nat, price: int, observationId: string, feedAddress: string,
                             timestamp: int, block: int, age: int)

  function Emit(e: EventLeg, r: PriceRow): Emitted {
    Emitted(r.answerRaw, r.decimals, r.price, r.observationId, r.feedAddress, r.timestamp, r.block, e.timestamp - r.timestamp)
  }

  /** Ranking ties agree on every emitted column. */
  lemma TiesEmitAlike(e: EventLeg, a: PriceRow, b: PriceRow)
    requires Silver(a) && Silver(b) && Eligible(e, a) && Eligible(e, b) && RankKey(a) == RankKey(b)
    ensures Emit(e, a) == Emit(e, b)
  {
    assert RankKey(a)[0] == RankKey(b)[0] && RankKey(a)[1] == RankKey(b)[1] && RankKey(a)[5] == RankKey(b)[5];
    assert RankKey(a)[6] == RankKey(b)[6] && RankKey(a)[7] == RankKey(b)[7] && RankKey(a)[8] == RankKey(b)[8];
    DecimalsAreDetermined(Value(a.answerRaw), a.decimals, b.decimals);
  }

  /** The emitted columns do not depend on the physical order, or on duplicates, of the price rows. */
  lemma {:induction false} OrderDoesNotMatter(e: EventLeg, rows: seq<PriceRow>, other: seq<PriceRow>)
    requires forall r :: r in rows <==> r in other
    requires forall i :: 0 <= i < |rows| ==> Silver(rows[i])
    ensures Latest(e, rows).Some? <==> Latest(e, other).Some?
    ensures Latest(e, rows).Some? ==> Emit(e, Latest(e, rows).value) == Emit(e, Latest(e, other).value)
  {
    LatestIsMaximum(e, rows);
    LatestIsMaximum(e, other);
    EligibleInBoth(e, rows, other);
    EligibleInBoth(e, other, rows);
    if Latest(e, rows).Some? {
      var a, b := Latest(e, rows).value, Latest(e, other).value;
      var i :| 0 <= i < |other| && other[i] == a;
      var j :| 0 <= j < |rows| && rows[j] == b;
      KeyTotal(RankKey(a), RankKey(b));
      TiesEmitAlike(e, a, b);
    }
  }

  lemma EligibleInBoth(e: EventLeg, rows: seq<PriceRow>, other: seq<PriceRow>)
    requires forall r :: r in rows <==> r in other
    ensures (exists i :: 0 <= i < |rows| && Eligible(e, rows[i])) ==> exists i :: 0 <= i < |other| && Eligible(e, other[i])
  {
    if i :| 0 <= i < |rows| && Eligible(e, rows[i]) {
      assert rows[i] in other;
      var j :| 0 <= j < |other| && other[j] == rows[i];
      assert Eligible(e, other[j]);
    }
  }

  /** No eligible row is later than the chosen one or, at its time and block, of a numerically greater round. */
  lemma {:induction false} ChosenIsLatestPrior(e: EventLeg, rows: seq<PriceRow>, chosen: PriceRow, i: nat)
    requires Latest(e, rows) == Some(chosen) && i < |rows| && Eligible(e, rows[i])
    requires AllDigits(rows[i].roundId) && AllDigits(chosen.roundId)
    ensures KeyLe(NumericKey(rows[i]), NumericKey(chosen))
    ensures rows[i].timestamp <= chosen.timestamp <= e.timestamp
  {
    LatestIsMaximum(e, rows);
    RankIsNumeric(rows[i], chosen);
  }

  // ----- The choice by its columns -----

  /** The row is of the event's market, not later than the event, and has a price. */
  ghost predicate PriorPrice(e: EventLeg, r: PriceRow) {
    && r.market.0 == e.market.0 && r.market.1 == e.market.1 && r.market.2 == e.market.2
    && !(e.timestamp < r.timestamp) && r.price >= 1
  }

  /** `a` is not after `b`: by time, block, round number, processing time, and the remaining columns. */
  ghost predicate NotAfter(a: PriceRow, b: PriceRow)
    requires AllDigits(a.roundId) && AllDigits(b.roundId)
  {
    if a.timestamp != b.timestamp then a.timestamp < b.timestamp
    else if a.block != b.block then a.block < b.block
    else if Value(a.roundId) != Value(b.roundId) then Value(a.roundId) < Value(b.roundId)
    else if a.processedAt != b.processedAt then a.processedAt < b.processedAt
    else if a.observationId != b.observationId then Before(a.observationId, b.observationId)
    else if a.feedAddress != b.feedAddress then Before(a.feedAddress, b.feedAddress)
    else if a.price != b.price then a.price < b.price
    else a.answerRaw == b.answerRaw || Before(a.answerRaw, b.answerRaw)
  }

  lemma {:induction false} ByFirst(x: Field, y: Field, a: seq<Field>, b: seq<Field>)
    ensures KeyLe([x] + a, [y] + b) <==> if x == y then KeyLe(a, b) else FieldLe(x, y)
  {
    if x == y { SharedHead(x, a, b); }
  }

  lemma LastColumns(a: PriceRow, b: PriceRow)
    ensures KeyLe([Num(a.price), Text(a.answerRaw)], [Num(b.price), Text(b.answerRaw)])
       <==> if a.price != b.price then a.price < b.price else a.answerRaw == b.answerRaw || Before(a.answerRaw, b.answerRaw)
  {
    assert [Num(a.price), Text(a.answerRaw)] == [Num(a.price)] + ([Text(a.answerRaw)] + []);
    assert [Num(b.price), Text(b.answerRaw)] == [Num(b.price)] + ([Text(b.answerRaw)] + []);
    ByFirst(Num(a.price), Num(b.price), [Text(a.answerRaw)] + [], [Text(b.answerRaw)] + []);
    ByFirst(Text(a.answerRaw), Text(b.answerRaw), [], []);
    StringLeIff(a.answerRaw, b.answerRaw);
  }

  ghost predicate TailNotAfter(a: PriceRow, b: PriceRow) {
    if a.processedAt != b.processedAt then a.processedAt < b.processedAt
    else if a.observationId != b.observationId then Before(a.observationId, b.observationId)
    else if a.feedAddress != b.feedAddress then Before(a.feedAddress, b.feedAddress)
    else if a.price != b.price then a.price < b.price
    else a.answerRaw == b.answerRaw || Before(a.answerRaw, b.answerRaw)
  }

  lemma TailByColumn(a: PriceRow, b: PriceRow)
    ensures KeyLe(Tail(a), Tail(b)) <==> TailNotAfter(a, b)
  {
    var a2, b2 := [Num(a.price), Text(a.answerRaw)], [Num(b.price), Text(b.answerRaw)];
    assert Tail(a) == [Num(a.processedAt)] + ([Text(a.observationId)] + ([Text(a.feedAddress)] + a2));
    assert Tail(b) == [Num(b.processedAt)] + ([Text(b.observationId)] + ([Text(b.feedAddress)] + b2));
    ByFirst(Num(a.processedAt), Num(b.processedAt), [Text(a.observationId)] + ([Text(a.feedAddress)] + a2), [Text(b.observationId)] + ([Text(b.feedAddress)] + b2));
    ByFirst(Text(a.observationId), Text(b.observationId), [Text(a.feedAddress)] + a2, [Text(b.feedAddress)] + b2);
    ByFirst(Text(a.feedAddress), Text(b.feedAddress), a2, b2);
    LastColumns(a, b);
    StringLeIff(a.observationId, b.observationId);
    StringLeIff(a.feedAddress, b.feedAddress);
  }

  /** The numeric key compares column by column. */
  lemma KeyByColumns(a: PriceRow, b: PriceRow)
    requires AllDigits(a.roundId) && AllDigits(b.roundId)
    ensures KeyLe(NumericKey(a), NumericKey(b)) <==> NotAfter(a, b)
  {
    KeysByColumn(a);
    KeysByColumn(b);
    ByFirst(Num(a.timestamp), Num(b.timestamp), [Num(a.block)] + NumberRounds(a), [Num(b.block)] + NumberRounds(b));
    ByFirst(Num(a.block), Num(b.block), NumberRounds(a), NumberRounds(b));
    ByFirst(Num(Value(a.roundId)), Num(Value(b.roundId)), Tail(a), Tail(b));
    TailByColumn(a, b);
  }

  /** The join emits the price columns of the last prior price of the event's market, and nothing when there is none. */
  lemma {:induction false} JoinIsLastPriorPrice(e: EventLeg, rows: seq<PriceRow>)
    requires forall i :: 0 <= i < |rows| ==> AllDigits(rows[i].roundId)
    ensures Latest(e, rows).None? <==> forall i :: 0 <= i < |rows| ==> !PriorPrice(e, rows[i])
    ensures Latest(e, rows).Some? ==>
              var r := Latest(e, rows).value;
              && r in rows && PriorPrice(e, r) && AllDigits(r.roundId)
              && (forall i :: 0 <= i < |rows| && PriorPrice(e, rows[i]) ==> NotAfter(rows[i], r))
              && Emit(e, r).price == r.price && Emit(e, r).answerRaw == r.answerRaw && Emit(e, r).decimals == r.decimals
              && Emit(e, r).observationId == r.observationId && Emit(e, r).feedAddress == r.feedAddress
              && Emit(e, r).timestamp == r.timestamp && Emit(e, r).block == r.block
              && Emit(e, r).age >= 0 && r.timestamp + Emit(e, r).age == e.timestamp
  {
    LatestIsMaximum(e, rows);
    assert forall i :: 0 <= i < |rows| ==> (Eligible(e, rows[i]) <==> PriorPrice(e, rows[i]));
    if Latest(e, rows).Some? {
      var r := Latest(e, rows).value;
      var k :| 0 <= k < |rows| && rows[k] == r;
      forall i | 0 <= i < |rows| && PriorPrice(e, rows[i]) ensures NotAfter(rows[i], r) {
        RankIsNumeric(rows[i], r);
        KeyByColumns(rows[i], r);
      }
    }
  }
}
