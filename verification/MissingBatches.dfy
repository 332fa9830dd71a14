/**
 Coverage of required Chainlink rounds, recomputed from what is stored, and the greedy
 batching of the missing ones (orchestration/chainlink_bootstrap.py).
 */
module MissingBatches {
  import opened Wrappers
  import opened ChainlinkRounds

  predicate Ascends(ms: seq<int>) {
    forall i, j :: 0 <= i < j < |ms| ==> ms[i] < ms[j]
  }

  datatype Interval = Interval(first: int, last: int) {
    predicate Has(x: int) { first <= x <= last }
  }

  /** How many leading values form one batch: consecutive, and at most `k`. */
  function RunFrom(ms: seq<int>, k: nat, n: nat): (r: nat)
    requires 0 < n <= |ms| && n <= k
    requires forall j :: 0 <= j < n ==> ms[j] == ms[0] + j
    ensures n <= r <= |ms| && r <= k
    ensures forall j :: 0 <= j < r ==> ms[j] == ms[0] + j
    ensures r == |ms| || r == k || ms[r] != ms[0] + r
    decreases |ms| - n
  {
    if n < |ms| && n < k && ms[n] == ms[0] + n then RunFrom(ms, k, n + 1) else n
  }

  function FirstBatch(ms: seq<int>, k: nat): Interval
    requires k > 0 && ms != []
  {
    Interval(ms[0], ms[RunFrom(ms, k, 1) - 1])
  }

  function AfterFirst(ms: seq<int>, k: nat): (rest: seq<int>)
    requires k > 0 && ms != []
    ensures |rest| < |ms|
  {
    ms[RunFrom(ms, k, 1)..]
  }

  /** The greedy batches of a list of missing rounds. */
  function Batches(ms: seq<int>, k: nat): seq<Interval>
    requires k > 0
    decreases |ms|
  {
    if ms == [] then [] else [FirstBatch(ms, k)] + Batches(AfterFirst(ms, k), k)
  }

  ghost predicate InIntervals(bs: seq<Interval>, x: int) {
    exists i :: 0 <= i < |bs| && bs[i].Has(x)
  }

  /** The first batch splits the missing rounds: it holds the smallest, the rest lie above it. */
  lemma FirstBatchSplits(ms: seq<int>, k: nat)
    requires k > 0 && Ascends(ms) && ms != []
    ensures Ascends(AfterFirst(ms, k))
    ensures ms[0] == FirstBatch(ms, k).first <= FirstBatch(ms, k).last < ms[0] + k
    ensures forall x :: x in ms <==> FirstBatch(ms, k).Has(x) || x in AfterFirst(ms, k)
    ensures forall x :: x in AfterFirst(ms, k) ==> FirstBatch(ms, k).last < x
  {
    var n := RunFrom(ms, k, 1);
    forall x | FirstBatch(ms, k).Has(x) ensures x in ms {
      assert ms[x - ms[0]] == x;
    }
    assert ms == ms[..n] + ms[n..];
  }

  /** The first batch stops at a gap or at the size limit. */
  lemma FirstBatchIsFull(ms: seq<int>, k: nat)
    requires k > 0 && Ascends(ms) && ms != []
    ensures var b := FirstBatch(ms, k); b.last == b.first + k - 1 || b.last + 1 !in ms
  {
    var n := RunFrom(ms, k, 1);
    if n < k && n < |ms| {
      assert ms[n - 1] < ms[n];
    }
  }

  ghost predicate AtMostWide(bs: seq<Interval>, k: nat) {
    forall i :: 0 <= i < |bs| ==> bs[i].last - bs[i].first < k
  }

  ghost predicate OrderedApart(bs: seq<Interval>) {
    && (forall i :: 0 <= i < |bs| ==> bs[i].first <= bs[i].last)
    && (forall i, j :: 0 <= i < j < |bs| ==> bs[i].last < bs[j].first)
  }

  lemma IntervalsPrepend(head: Interval, tail: seq<Interval>, x: int)
    ensures InIntervals([head] + tail, x) <==> head.Has(x) || InIntervals(tail, x)
  {
    var bs := [head] + tail;
    assert bs[0] == head;
    if InIntervals(tail, x) {
      var i :| 0 <= i < |tail| && tail[i].Has(x);
      assert bs[i + 1] == tail[i];
    }
  }

  /** The batches hold exactly the missing rounds. */
  lemma {:induction false} BatchesHoldTheMissing(ms: seq<int>, k: nat, x: int)
    requires k > 0 && Ascends(ms)
    ensures InIntervals(Batches(ms, k), x) <==> x in ms
    decreases |ms|
  {
    if ms != [] {
      FirstBatchSplits(ms, k);
      BatchesHoldTheMissing(AfterFirst(ms, k), k, x);
      IntervalsPrepend(FirstBatch(ms, k), Batches(AfterFirst(ms, k), k), x);
    }
  }

  /** They come in order without overlap, each of 1 to `k` rounds. */
  lemma {:induction false} BatchesAreOrdered(ms: seq<int>, k: nat)
    requires k > 0 && Ascends(ms)
    ensures OrderedApart(Batches(ms, k)) && AtMostWide(Batches(ms, k), k)
    decreases |ms|
  {
    if ms != [] {
      var rest := Batches(AfterFirst(ms, k), k);
      FirstBatchSplits(ms, k);
      BatchesAreOrdered(AfterFirst(ms, k), k);
      forall i | 0 <= i < |rest| ensures FirstBatch(ms, k).last < rest[i].first {
        assert rest[i].Has(rest[i].first);
        BatchesHoldTheMissing(AfterFirst(ms, k), k, rest[i].first);
      }
    }
  }

  /** `cover` reaches every missing round and, from the first one on, nothing else. */
  ghost predicate Covers(cover: seq<Interval>, ms: seq<int>) {
    && (forall x :: x in ms ==> InIntervals(cover, x))
    && (ms != [] ==> forall x :: x >= ms[0] && InIntervals(cover, x) ==> x in ms)
  }

  /** No list of intervals of at most `k` missing rounds is shorter than the greedy one. */
  lemma {:induction false} GreedyListIsFewest(ms: seq<int>, k: nat, cover: seq<Interval>)
    requires k > 0 && Ascends(ms) && Covers(cover, ms) && AtMostWide(cover, k)
    ensures |Batches(ms, k)| <= |cover|
    decreases |ms|
  {
    if ms != [] {
      assert ms[0] in ms;
      var i :| 0 <= i < |cover| && cover[i].Has(ms[0]);
      FirstBatchSplits(ms, k);
      OthersCoverTheRest(ms, k, cover, i);
      GreedyListIsFewest(AfterFirst(ms, k), k, cover[..i] + cover[i + 1..]);
    }
  }

  lemma OthersCoverTheRest(ms: seq<int>, k: nat, cover: seq<Interval>, i: nat)
    requires k > 0 && Ascends(ms) && Covers(cover, ms) && AtMostWide(cover, k) && ms != []
    requires i < |cover| && cover[i].Has(ms[0])
    ensures Covers(cover[..i] + cover[i + 1..], AfterFirst(ms, k))
  {
    var others, rest := cover[..i] + cover[i + 1..], AfterFirst(ms, k);
    FirstBatchSplits(ms, k);
    FirstBatchAbsorbs(ms, k, cover, i);
    forall x | x in rest ensures InIntervals(others, x) {
      var j :| 0 <= j < |cover| && cover[j].Has(x);
      assert others[if j < i then j else j - 1] == cover[j];
    }
    forall x | rest != [] && x >= rest[0] && InIntervals(others, x) ensures x in rest {
      var j :| 0 <= j < |others| && others[j].Has(x);
      assert others[j] == cover[if j < i then j else j + 1];
      assert rest[0] in rest && InIntervals(cover, x);
    }
  }

  /** An interval that holds the first missing round ends within the greedy batch. */
  lemma FirstBatchAbsorbs(ms: seq<int>, k: nat, cover: seq<Interval>, i: nat)
    requires k > 0 && Ascends(ms) && Covers(cover, ms) && AtMostWide(cover, k) && ms != []
    requires i < |cover| && cover[i].Has(ms[0])
    ensures cover[i].last <= FirstBatch(ms, k).last
  {
    FirstBatchSplits(ms, k);
    FirstBatchIsFull(ms, k);
    var next := FirstBatch(ms, k).last + 1;
    if next !in ms { assert !InIntervals(cover, next) && !cover[i].Has(next); }
  }

  /** `left` is the part of `ms` outside the batches `done`. */
  ghost predicate LeftAfter(ms: seq<int>, done: seq<Interval>, left: seq<int>) {
    Ascends(left) && forall x :: x in left <==> x in ms && !InIntervals(done, x)
  }

  lemma LeftAfterFirst(ms: seq<int>, k: nat, done: seq<Interval>, left: seq<int>)
    requires k > 0 && Ascends(ms) && ms != [] && LeftAfter(ms, [FirstBatch(ms, k)] + done, left)
    ensures LeftAfter(AfterFirst(ms, k), done, left)
  {
    FirstBatchSplits(ms, k);
    forall x ensures x in left <==> x in AfterFirst(ms, k) && !InIntervals(done, x) {
      IntervalsPrepend(FirstBatch(ms, k), done, x);
    }
  }

  /** What the greedy loop has still to look at after `j` batches. */
  function AfterBatches(ms: seq<int>, k: nat, j: nat): seq<int>
    requires k > 0 && j <= |Batches(ms, k)|
    decreases j
  {
    if j == 0 then ms else AfterBatches(AfterFirst(ms, k), k, j - 1)
  }

  lemma {:induction false} BatchesOfTheRest(ms: seq<int>, k: nat, j: nat)
    requires k > 0 && j <= |Batches(ms, k)|
    ensures Batches(AfterBatches(ms, k, j), k) == Batches(ms, k)[j..]
    decreases j
  {
    if j > 0 { BatchesOfTheRest(AfterFirst(ms, k), k, j - 1); }
  }

  lemma {:induction false} LeftIsTheRest(ms: seq<int>, k: nat, j: nat, done: seq<Interval>, left: seq<int>)
    requires k > 0 && Ascends(ms) && j <= |Batches(ms, k)| && done == Batches(ms, k)[..j] && LeftAfter(ms, done, left)
    ensures left == AfterBatches(ms, k, j)
    decreases j
  {
    if j == 0 {
      SameElements(left, ms);
    } else {
      var tail := Batches(AfterFirst(ms, k), k);
      assert done == [FirstBatch(ms, k)] + tail[..j - 1];
      LeftAfterFirst(ms, k, tail[..j - 1], left);
      FirstBatchSplits(ms, k);
      LeftIsTheRest(AfterFirst(ms, k), k, j - 1, tail[..j - 1], left);
    }
  }

  /** What is left after the first `j` batches is planned as the remaining batches. */
  lemma {:induction false} ReplanIsSuffix(ms: seq<int>, k: nat, j: nat, left: seq<int>)
    requires k > 0 && Ascends(ms) && j <= |Batches(ms, k)| && LeftAfter(ms, Batches(ms, k)[..j], left)
    ensures Batches(left, k) == Batches(ms, k)[j..]
  {
    LeftIsTheRest(ms, k, j, Batches(ms, k)[..j], left);
    BatchesOfTheRest(ms, k, j);
  }

  /** An ascending list is determined by its elements. */
  lemma {:induction false} SameElements(a: seq<int>, b: seq<int>)
    requires Ascends(a) && Ascends(b) && forall x :: x in a <==> x in b
    ensures a == b
    decreases |a|
  {
    HeadIsIn(a);
    HeadIsIn(b);
    if a != [] {
      assert a[0] in b && (b == [] || b[0] in a);
      forall x ensures x in a[1..] <==> x in b[1..] {
        assert x in a[1..] <==> x in a && x != a[0] by { TailElements(a, x); }
        assert x in b[1..] <==> x in b && x != b[0] by { TailElements(b, x); }
      }
      SameElements(a[1..], b[1..]);
      assert a == [a[0]] + a[1..] && b == [b[0]] + b[1..];
    }
  }

  lemma HeadIsIn(a: seq<int>)
    ensures a != [] ==> a[0] in a
  {
  }

  lemma TailElements(a: seq<int>, x: int)
    requires Ascends(a) && a != []
    ensures x in a[1..] <==> x in a && x != a[0]
  {
    assert a == [a[0]] + a[1..];
    if x in a[1..] {
      var m :| 0 <= m < |a[1..]| && a[1..][m] == x;
      assert a[m + 1] == x;
    }
  }

  /** One observation row: its canonical id and the feed it was read from. */
  datatype PersistedRow = PersistedRow(id: ObservationId, feed: string)

  /** The missing rounds of a range below `limit`, in order. */
  function MissingRounds(r: RoundRange, missing: set<ObservationId>, limit: int): (ms: seq<int>)
    ensures Ascends(ms)
    ensures forall v :: v in ms <==> r.start % PHASE <= v < limit && (r.feed, r.phase * PHASE + v) in missing
    decreases limit - r.start % PHASE
  {
    if limit <= r.start % PHASE then []
    else
      var before := MissingRounds(r, missing, limit - 1);
      assert forall i :: 0 <= i < |before| ==> before[i] in before;
      if (r.feed, r.phase * PHASE + limit - 1) in missing then before + [limit - 1] else before
  }

  function Encoded(r: RoundRange, b: Interval): RoundRange {
    RoundRange(r.feed, r.phase, r.phase * PHASE + b.first, r.phase * PHASE + b.last)
  }

  function EncodedAll(r: RoundRange, bs: seq<Interval>): (out: seq<RoundRange>)
    ensures |out| == |bs| && forall i :: 0 <= i < |bs| ==> out[i] == Encoded(r, bs[i])
  {
    seq(|bs|, i requires 0 <= i < |bs| => Encoded(r, bs[i]))
  }

  function AllMissing(r: RoundRange, missing: set<ObservationId>): seq<int> {
    MissingRounds(r, missing, r.end % PHASE + 1)
  }

  /** The batches of one range. */
  function PlanRange(r: RoundRange, missing: set<ObservationId>, k: nat): seq<RoundRange>
    requires k > 0
  {
    EncodedAll(r, Batches(AllMissing(r, missing), k))
  }

  function PlanRanges(rs: seq<RoundRange>, missing: set<ObservationId>, k: nat): seq<RoundRange>
    requires k > 0
  {
    if rs == [] then [] else PlanRanges(rs[..|rs| - 1], missing, k) + PlanRange(rs[|rs| - 1], missing, k)
  }

  /** Every planned batch is a legal range of at most `k` rounds. */
  ghost predicate SizedWithin(rs: seq<RoundRange>, k: nat) {
    forall i :: 0 <= i < |rs| ==> rs[i].Valid() && rs[i].end - rs[i].start < k
  }

  lemma RangePlanHolds(r: RoundRange, missing: set<ObservationId>, k: nat, id: ObservationId)
    requires k > 0 && r.Valid()
    ensures Holds(PlanRange(r, missing, k), id) <==> HasId(r, id) && id in missing
  {
    var ms, v := AllMissing(r, missing), id.1 - r.phase * PHASE;
    var bs := Batches(ms, k);
    BatchesHoldTheMissing(ms, k, v);
    if Holds(PlanRange(r, missing, k), id) {
      var i :| 0 <= i < |bs| && HasId(PlanRange(r, missing, k)[i], id);
      assert bs[i].Has(v);
    } else if id.0 == r.feed {
      forall i | 0 <= i < |bs| ensures !bs[i].Has(v) {
        assert !HasId(PlanRange(r, missing, k)[i], id);
      }
    }
  }

  lemma RangePlanIsOrdered(r: RoundRange, missing: set<ObservationId>, k: nat)
    requires k > 0 && r.Valid()
    ensures SizedWithin(PlanRange(r, missing, k), k) && Disjoint(PlanRange(r, missing, k))
  {
    var ms := AllMissing(r, missing);
    var bs := Batches(ms, k);
    BatchesAreOrdered(ms, k);
    forall i | 0 <= i < |bs| ensures Encoded(r, bs[i]).Valid() {
      assert bs[i].Has(bs[i].first) && bs[i].Has(bs[i].last);
      BatchesHoldTheMissing(ms, k, bs[i].first);
      BatchesHoldTheMissing(ms, k, bs[i].last);
    }
  }

  /** Lists that never hold a common id stay disjoint when joined. */
  lemma DisjointConcat(a: seq<RoundRange>, b: seq<RoundRange>)
    requires Disjoint(a) && Disjoint(b) && AllValid(a) && AllValid(b)
    requires forall id :: !(Holds(a, id) && Holds(b, id))
    ensures Disjoint(a + b)
  {
    forall i, j | 0 <= i < |a| && 0 <= j < |b| ensures ApartFrom(a[i], b[j]) {
      var later := if a[i].start <= b[j].start then b[j].start else a[i].start;
      var id := (a[i].feed, later);
      assert HasId(a[i], id) && HasId(b[j], id) ==> Holds(a, id) && Holds(b, id);
    }
  }

  /** Planning keeps exactly the missing rounds, whatever ranges it is given. */
  lemma {:induction false} PlanHoldsTheMissing(rs: seq<RoundRange>, missing: set<ObservationId>, k: nat, id: ObservationId)
    requires k > 0 && AllValid(rs)
    ensures Holds(PlanRanges(rs, missing, k), id) <==> Holds(rs, id) && id in missing
    decreases |rs|
  {
    if rs != [] {
      var front, last := rs[..|rs| - 1], rs[|rs| - 1];
      PlanHoldsTheMissing(front, missing, k, id);
      RangePlanHolds(last, missing, k, id);
      HoldsConcat(PlanRanges(front, missing, k), PlanRange(last, missing, k), id);
      assert rs == front + [last] && [last][0] == last;
      HoldsConcat(front, [last], id);
    }
  }

  /** Disjoint ranges give disjoint batches, each legal and at most `k` rounds long. */
  lemma {:induction false} PlanIsDisjoint(rs: seq<RoundRange>, missing: set<ObservationId>, k: nat)
    requires k > 0 && AllValid(rs) && Disjoint(rs)
    ensures SizedWithin(PlanRanges(rs, missing, k), k) && Disjoint(PlanRanges(rs, missing, k))
    decreases |rs|
  {
    if rs != [] {
      var front, last := rs[..|rs| - 1], rs[|rs| - 1];
      PlanIsDisjoint(front, missing, k);
      RangePlanIsOrdered(last, missing, k);
      forall id ensures !(Holds(PlanRanges(front, missing, k), id) && Holds(PlanRange(last, missing, k), id)) {
        PlanHoldsTheMissing(front, missing, k, id);
        RangePlanHolds(last, missing, k, id);
      }
      DisjointConcat(PlanRanges(front, missing, k), PlanRange(last, missing, k));
    }
  }

  /** Only the missing rounds of a range matter for its batches. */
  lemma RangePlanDependsOn(r: RoundRange, m1: set<ObservationId>, m2: set<ObservationId>, k: nat)
    requires k > 0 && r.Valid()
    requires forall id :: HasId(r, id) ==> (id in m1 <==> id in m2)
    ensures PlanRange(r, m1, k) == PlanRange(r, m2, k)
  {
    forall v ensures v in AllMissing(r, m1) <==> v in AllMissing(r, m2) {
      assert r.start % PHASE <= v <= r.end % PHASE ==> HasId(r, (r.feed, r.phase * PHASE + v));
    }
    SameElements(AllMissing(r, m1), AllMissing(r, m2));
  }

  lemma {:induction false} PlanDependsOn(rs: seq<RoundRange>, m1: set<ObservationId>, m2: set<ObservationId>, k: nat)
    requires k > 0 && AllValid(rs)
    requires forall id :: Holds(rs, id) ==> (id in m1 <==> id in m2)
    ensures PlanRanges(rs, m1, k) == PlanRanges(rs, m2, k)
    decreases |rs|
  {
    if rs != [] {
      var front, last := rs[..|rs| - 1], rs[|rs| - 1];
      assert rs == front + [last] && [last][0] == last;
      forall id ensures Holds(rs, id) <==> Holds(front, id) || HasId(last, id) {
        HoldsConcat(front, [last], id);
      }
      PlanDependsOn(front, m1, m2, k);
      RangePlanDependsOn(last, m1, m2, k);
    }
  }

  /** What is still missing once the batches `done` are stored. */
  ghost predicate MissingAfter(rs: seq<RoundRange>, missing: set<ObservationId>, done: seq<RoundRange>, left: set<ObservationId>) {
    forall id :: Holds(rs, id) ==> (id in left <==> id in missing && !Holds(done, id))
  }

  lemma RangeReplan(r: RoundRange, missing: set<ObservationId>, k: nat, j: nat, left: set<ObservationId>)
    requires k > 0 && r.Valid() && j <= |PlanRange(r, missing, k)|
    requires MissingAfter([r], missing, PlanRange(r, missing, k)[..j], left)
    ensures PlanRange(r, left, k) == PlanRange(r, missing, k)[j..]
  {
    var ms := AllMissing(r, missing);
    var bs, done := Batches(ms, k), PlanRange(r, missing, k)[..j];
    forall v ensures v in AllMissing(r, left) <==> v in ms && !InIntervals(bs[..j], v) {
      var id := (r.feed, r.phase * PHASE + v);
      assert HasId([r][0], id) <==> r.start % PHASE <= v <= r.end % PHASE;
      assert forall i :: 0 <= i < j ==> (HasId(done[i], id) <==> bs[i].Has(v));
      assert Holds(done, id) <==> InIntervals(bs[..j], v) by {
        if InIntervals(bs[..j], v) { var i :| 0 <= i < j && bs[..j][i].Has(v); assert HasId(done[i], id); }
      }
    }
    ReplanIsSuffix(ms, k, j, AllMissing(r, left));
  }

  lemma HoldsPrefix(a: seq<RoundRange>, n: nat, id: ObservationId)
    requires n <= |a| && Holds(a[..n], id)
    ensures Holds(a, id)
  {
    var i :| 0 <= i < n && HasId(a[..n][i], id);
    assert HasId(a[i], id);
  }

  lemma LastIsApart(rs: seq<RoundRange>, id: ObservationId)
    requires Disjoint(rs) && rs != []
    ensures !(Holds(rs[..|rs| - 1], id) && HasId(rs[|rs| - 1], id))
    ensures Holds(rs, id) <==> Holds(rs[..|rs| - 1], id) || HasId(rs[|rs| - 1], id)
  {
    var front, last := rs[..|rs| - 1], rs[|rs| - 1];
    assert rs == front + [last] && [last][0] == last;
    HoldsConcat(front, [last], id);
    if Holds(front, id) {
      var i :| 0 <= i < |front| && HasId(front[i], id);
      assert ApartFrom(rs[i], rs[|rs| - 1]);
    }
  }

  ghost predicate Within(bs: seq<RoundRange>, rs: seq<RoundRange>) {
    forall id :: Holds(bs, id) ==> Holds(rs, id)
  }

  lemma {:induction false} PlanStaysWithin(rs: seq<RoundRange>, missing: set<ObservationId>, k: nat, j: nat)
    requires k > 0 && AllValid(rs) && j <= |PlanRanges(rs, missing, k)|
    ensures Within(PlanRanges(rs, missing, k)[..j], rs)
  {
    forall id | Holds(PlanRanges(rs, missing, k)[..j], id) ensures Holds(rs, id) {
      HoldsPrefix(PlanRanges(rs, missing, k), j, id);
      PlanHoldsTheMissing(rs, missing, k, id);
    }
  }

  lemma RangePlanStaysWithin(r: RoundRange, missing: set<ObservationId>, k: nat, j: nat)
    requires k > 0 && r.Valid() && j <= |PlanRange(r, missing, k)|
    ensures Within(PlanRange(r, missing, k)[..j], [r])
  {
    forall id | Holds(PlanRange(r, missing, k)[..j], id) ensures Holds([r], id) {
      HoldsPrefix(PlanRange(r, missing, k), j, id);
      RangePlanHolds(r, missing, k, id);
      assert HasId([r][0], id);
    }
  }

  /** What is left can be read off for the earlier ranges and the last one separately. */
  lemma MissingSplits(rs: seq<RoundRange>, missing: set<ObservationId>, d1: seq<RoundRange>, d2: seq<RoundRange>, left: set<ObservationId>)
    requires rs != [] && Disjoint(rs) && MissingAfter(rs, missing, d1 + d2, left)
    requires Within(d1, rs[..|rs| - 1]) && Within(d2, [rs[|rs| - 1]])
    ensures MissingAfter(rs[..|rs| - 1], missing, d1, left) && MissingAfter([rs[|rs| - 1]], missing, d2, left)
  {
    var front, last := rs[..|rs| - 1], rs[|rs| - 1];
    forall id | Holds(front, id) || Holds([last], id)
      ensures Holds(front, id) ==> (id in left <==> id in missing && !Holds(d1, id))
      ensures Holds([last], id) ==> (id in left <==> id in missing && !Holds(d2, id))
    {
      LastIsApart(rs, id);
      HoldsConcat(d1, d2, id);
    }
  }

  lemma ConcatSlices<T>(a: seq<T>, b: seq<T>, j: nat) returns (j1: nat)
    requires j <= |a| + |b|
    ensures j1 <= |a| && 0 <= j - j1 <= |b|
    ensures (a + b)[..j] == a[..j1] + b[..j - j1] && (a + b)[j..] == a[j1..] + b[j - j1..]
  {
    if j <= |a| {
      j1 := j;
      assert b[..0] == [] && b[0..] == b;
    } else {
      j1 := |a|;
      assert a[..|a|] == a && a[|a|..] == [];
    }
  }

  lemma PartsStayWithin(rs: seq<RoundRange>, missing: set<ObservationId>, k: nat, j1: nat, j2: nat)
    requires k > 0 && AllValid(rs) && rs != []
    requires j1 <= |PlanRanges(rs[..|rs| - 1], missing, k)| && j2 <= |PlanRange(rs[|rs| - 1], missing, k)|
    ensures Within(PlanRanges(rs[..|rs| - 1], missing, k)[..j1], rs[..|rs| - 1])
    ensures Within(PlanRange(rs[|rs| - 1], missing, k)[..j2], [rs[|rs| - 1]])
  {
    PlanStaysWithin(rs[..|rs| - 1], missing, k, j1);
    RangePlanStaysWithin(rs[|rs| - 1], missing, k, j2);
  }

  /** The batches stored so far, split between the earlier ranges and the last one. */
  lemma DoneSplits(rs: seq<RoundRange>, missing: set<ObservationId>, k: nat, j: nat, done: seq<RoundRange>, left: set<ObservationId>)
    returns (j1: nat)
    requires k > 0 && AllValid(rs) && Disjoint(rs) && rs != [] && j <= |PlanRanges(rs, missing, k)|
    requires done == PlanRanges(rs, missing, k)[..j] && MissingAfter(rs, missing, done, left)
    ensures var front, last := rs[..|rs| - 1], rs[|rs| - 1];
      var p1, p2 := PlanRanges(front, missing, k), PlanRange(last, missing, k);
      && j1 <= |p1| && 0 <= j - j1 <= |p2|
      && PlanRanges(rs, missing, k)[j..] == p1[j1..] + p2[j - j1..]
      && MissingAfter(front, missing, p1[..j1], left) && MissingAfter([last], missing, p2[..j - j1], left)
  {
    var front, last := rs[..|rs| - 1], rs[|rs| - 1];
    var p1, p2 := PlanRanges(front, missing, k), PlanRange(last, missing, k);
    j1 := ConcatSlices(p1, p2, j);
    PartsStayWithin(rs, missing, k, j1, j - j1);
    MissingSplits(rs, missing, p1[..j1], p2[..j - j1], left);
  }

  lemma FrontStaysSound(rs: seq<RoundRange>)
    requires AllValid(rs) && Disjoint(rs) && rs != []
    ensures AllValid(rs[..|rs| - 1]) && Disjoint(rs[..|rs| - 1]) && rs[|rs| - 1].Valid()
  {
  }

  /** The earlier ranges and the last one replan to what remains of each, so together to what remains. */
  lemma {:induction false} ReplanJoins(rs: seq<RoundRange>, missing: set<ObservationId>, k: nat, j: nat, j1: nat, left: set<ObservationId>)
    requires k > 0 && rs != [] && j <= |PlanRanges(rs, missing, k)|
    requires var p1, p2 := PlanRanges(rs[..|rs| - 1], missing, k), PlanRange(rs[|rs| - 1], missing, k);
      && j1 <= |p1| && 0 <= j - j1 <= |p2| && PlanRanges(rs, missing, k)[j..] == p1[j1..] + p2[j - j1..]
      && PlanRanges(rs[..|rs| - 1], left, k) == p1[j1..] && PlanRange(rs[|rs| - 1], left, k) == p2[j - j1..]
    ensures PlanRanges(rs, left, k) == PlanRanges(rs, missing, k)[j..]
  {
  }

  /** After the first `j` batches are stored, planning again gives exactly the remaining batches. */
  lemma {:induction false} PlanReplan(rs: seq<RoundRange>, missing: set<ObservationId>, k: nat, j: nat,
                                      done: seq<RoundRange>, left: set<ObservationId>)
    requires k > 0 && AllValid(rs) && Disjoint(rs) && j <= |PlanRanges(rs, missing, k)|
    requires done == PlanRanges(rs, missing, k)[..j] && MissingAfter(rs, missing, done, left)
    ensures PlanRanges(rs, left, k) == PlanRanges(rs, missing, k)[j..]
    decreases |rs|
  {
    if rs != [] {
      var front, last := rs[..|rs| - 1], rs[|rs| - 1];
      var j1 := DoneSplits(rs, missing, k, j, done, left);
      FrontStaysSound(rs);
      assert PlanRanges(front, left, k) == PlanRanges(front, missing, k)[j1..] by {
        PlanReplan(front, missing, k, j1, PlanRanges(front, missing, k)[..j1], left);
      }
      assert PlanRange(last, left, k) == PlanRange(last, missing, k)[j - j1..] by {
        RangeReplan(last, missing, k, j - j1, left);
      }
      ReplanJoins(rs, missing, k, j, j1, left);
    }
  }

  /** The ids a list of ranges requires. */
  function Required(rs: seq<RoundRange>): (ids: set<ObservationId>)
    ensures forall id :: id in ids <==> Holds(rs, id)
  {
    var ids := set i, v | 0 <= i < |rs| && rs[i].start <= v <= rs[i].end :: (rs[i].feed, v);
    assert forall id :: Holds(rs, id) ==> id in ids by {
      forall id | Holds(rs, id) ensures id in ids {
        var i :| 0 <= i < |rs| && HasId(rs[i], id);
        assert (rs[i].feed, id.1) in ids;
      }
    }
    assert forall id :: id in ids ==> Holds(rs, id) by {
      forall id | id in ids ensures Holds(rs, id) {
        var i, v :| 0 <= i < |rs| && rs[i].start <= v <= rs[i].end && id == (rs[i].feed, v);
        assert HasId(rs[i], id);
      }
    }
    ids
  }

  /** An id counts as stored when a row of the same feed carries it. */
  ghost predicate Observed(rows: seq<PersistedRow>, id: ObservationId) {
    exists i :: 0 <= i < |rows| && rows[i] == PersistedRow(id, id.0)
  }

  function PersistedIds(rows: seq<PersistedRow>, feed: string): set<ObservationId> {
    set i | 0 <= i < |rows| && rows[i].feed == feed :: rows[i].id
  }

  function RangesFor(rs: seq<RoundRange>, feed: string): seq<RoundRange> {
    if rs == [] then []
    else
      var front, last := RangesFor(rs[..|rs| - 1], feed), rs[|rs| - 1];
      if last.feed == feed then front + [last] else front
  }

  /** Feed addresses in order of first appearance. */
  function FeedsOf(rs: seq<RoundRange>): seq<string> {
    if rs == [] then []
    else
      var front, last := FeedsOf(rs[..|rs| - 1]), rs[|rs| - 1];
      if last.feed in front then front else front + [last.feed]
  }

  /** One feed comes before another exactly when it appears first. */
  lemma {:induction false} FeedsByAppearance(rs: seq<RoundRange>, a: nat, b: nat)
    requires a < b < |FeedsOf(rs)|
    ensures exists i :: 0 <= i < |rs| && rs[i].feed == FeedsOf(rs)[a] && forall j :: 0 <= j <= i ==> rs[j].feed != FeedsOf(rs)[b]
  {
    var n := |rs| - 1;
    var front := FeedsOf(rs[..n]);
    if b < |front| {
      FeedsByAppearance(rs[..n], a, b);
      var i :| 0 <= i < n && rs[..n][i].feed == front[a] && forall j :: 0 <= j <= i ==> rs[..n][j].feed != front[b];
      assert forall j :: 0 <= j <= i ==> rs[j] == rs[..n][j];
    } else {
      var i := FeedAppears(rs[..n], a);
      assert forall j :: 0 <= j < n ==> rs[..n][j] == rs[j];
      FeedsAreDistinct(rs[..n]);
      forall j | 0 <= j <= i ensures rs[j].feed != FeedsOf(rs)[b] { assert rs[..n][j] in rs[..n]; }
    }
  }

  lemma {:induction false} FeedAppears(rs: seq<RoundRange>, a: nat) returns (i: nat)
    requires a < |FeedsOf(rs)|
    ensures i < |rs| && rs[i].feed == FeedsOf(rs)[a]
  {
    var n := |rs| - 1;
    if a < |FeedsOf(rs[..n])| { i := FeedAppears(rs[..n], a); } else { i := n; }
  }

  /** The ranges of a feed keep the order of the list. */
  lemma {:induction false} RangesForConcat(a: seq<RoundRange>, b: seq<RoundRange>, feed: string)
    ensures RangesFor(a + b, feed) == RangesFor(a, feed) + RangesFor(b, feed)
    decreases |b|
  {
    if b == [] {
      assert a + b == a;
    } else {
      var n := |b| - 1;
      assert (a + b)[..|a + b| - 1] == a + b[..n];
      RangesForConcat(a, b[..n], feed);
    }
  }

  function Occurrences(rows: seq<PersistedRow>, id: ObservationId): nat {
    if rows == [] then 0
    else Occurrences(rows[..|rows| - 1], id) + if rows[|rows| - 1].id == id then 1 else 0
  }

  /** Rows that carry one of the ids, counted with repetition. */
  function RowsWithin(rows: seq<PersistedRow>, ids: set<ObservationId>): nat {
    if rows == [] then 0
    else RowsWithin(rows[..|rows| - 1], ids) + if rows[|rows| - 1].id in ids then 1 else 0
  }

  function IdsOf(rows: seq<PersistedRow>): set<ObservationId> {
    set i | 0 <= i < |rows| :: rows[i].id
  }

  /** How many rows repeat a required id. */
  function Repeats(rows: seq<PersistedRow>, ids: set<ObservationId>): int {
    RowsWithin(rows, ids) - |IdsOf(rows) * ids|
  }

  lemma {:induction false} OneMoreId(rows: seq<PersistedRow>, ids: set<ObservationId>, id: ObservationId)
    requires id !in ids
    ensures RowsWithin(rows, ids + {id}) == RowsWithin(rows, ids) + Occurrences(rows, id)
    ensures Occurrences(rows, id) > 0 <==> id in IdsOf(rows)
  {
    if rows != [] {
      OneMoreId(rows[..|rows| - 1], ids, id);
      assert rows == rows[..|rows| - 1] + [rows[|rows| - 1]];
    }
  }

  lemma {:induction false} RepeatsGrow(rows: seq<PersistedRow>, ids: set<ObservationId>, id: ObservationId)
    requires id !in ids
    ensures Repeats(rows, ids + {id}) == Repeats(rows, ids) + if Occurrences(rows, id) > 1 then Occurrences(rows, id) - 1 else 0
  {
    OneMoreId(rows, ids, id);
    var present := IdsOf(rows);
    assert present * (ids + {id}) == present * ids + if id in present then {id} else {};
  }

  lemma {:induction false} RepeatsStep(rows: seq<PersistedRow>, all: set<ObservationId>, todo: set<ObservationId>, id: ObservationId)
    requires todo <= all && id in todo
    ensures Repeats(rows, all - (todo - {id}))
         == Repeats(rows, all - todo) + if Occurrences(rows, id) > 1 then Occurrences(rows, id) - 1 else 0
  {
    assert all - (todo - {id}) == all - todo + {id};
    RepeatsGrow(rows, all - todo, id);
  }

  lemma {:induction false} NothingRepeatsInNoIds(rows: seq<PersistedRow>)
    ensures Repeats(rows, {}) == 0
  {
    if rows != [] { NothingRepeatsInNoIds(rows[..|rows| - 1]); }
    assert IdsOf(rows) * {} == {};
  }

  datatype FeedCoverage = FeedCoverage(feed: string, ranges: seq<RoundRange>, required: set<ObservationId>,
                                       persisted: set<ObservationId>, duplicates: int) {
    function Missing(): set<ObservationId> { required - persisted }
  }

  function CoverageOf(rs: seq<RoundRange>, rows: seq<PersistedRow>, feed: string): FeedCoverage {
    var mine := RangesFor(rs, feed);
    FeedCoverage(feed, mine, Required(mine), PersistedIds(rows, feed) * Required(mine), Repeats(rows, Required(mine)))
  }

  function CoverageOfAll(rs: seq<RoundRange>, rows: seq<PersistedRow>, feeds: seq<string>): (cs: seq<FeedCoverage>)
    ensures |cs| == |feeds| && forall i :: 0 <= i < |feeds| ==> cs[i] == CoverageOf(rs, rows, feeds[i])
  {
    if feeds == [] then []
    else CoverageOfAll(rs, rows, feeds[..|feeds| - 1]) + [CoverageOf(rs, rows, feeds[|feeds| - 1])]
  }

  function PlanCoverage(cs: seq<FeedCoverage>, k: nat): seq<RoundRange>
    requires k > 0
  {
    if cs == [] then []
    else PlanCoverage(cs[..|cs| - 1], k) + PlanRanges(cs[|cs| - 1].ranges, cs[|cs| - 1].Missing(), k)
  }

  /** Planning recomputed from the persisted rows alone. */
  function MissingPlan(rs: seq<RoundRange>, rows: seq<PersistedRow>, k: nat): seq<RoundRange>
    requires k > 0
  {
    PlanCoverage(CoverageOfAll(rs, rows, FeedsOf(rs)), k)
  }

  function Grouped(rs: seq<RoundRange>, feeds: seq<string>): seq<RoundRange> {
    if feeds == [] then [] else Grouped(rs, feeds[..|feeds| - 1]) + RangesFor(rs, feeds[|feeds| - 1])
  }

  function StoredIds(rows: seq<PersistedRow>): set<ObservationId> {
    set i | 0 <= i < |rows| && rows[i].feed == rows[i].id.0 :: rows[i].id
  }

  lemma StoredIdsAreObserved(rows: seq<PersistedRow>, id: ObservationId)
    ensures id in StoredIds(rows) <==> Observed(rows, id)
    ensures id in PersistedIds(rows, id.0) <==> Observed(rows, id)
  {
  }

  lemma {:induction false} RangesForAre(rs: seq<RoundRange>, feed: string)
    requires AllValid(rs)
    ensures AllValid(RangesFor(rs, feed))
    ensures forall i :: 0 <= i < |RangesFor(rs, feed)| ==> RangesFor(rs, feed)[i].feed == feed && RangesFor(rs, feed)[i] in rs
    ensures forall r :: r in rs && r.feed == feed ==> r in RangesFor(rs, feed)
  {
    if rs != [] {
      RangesForAre(rs[..|rs| - 1], feed);
      assert rs == rs[..|rs| - 1] + [rs[|rs| - 1]];
    }
  }

  lemma {:induction false} RangesForHold(rs: seq<RoundRange>, feed: string, id: ObservationId)
    requires AllValid(rs)
    ensures Holds(RangesFor(rs, feed), id) <==> id.0 == feed && Holds(rs, id)
  {
    RangesForAre(rs, feed);
    var mine := RangesFor(rs, feed);
    if Holds(mine, id) {
      var i :| 0 <= i < |mine| && HasId(mine[i], id);
      assert mine[i] in rs;
    }
    if id.0 == feed && Holds(rs, id) {
      var i :| 0 <= i < |rs| && HasId(rs[i], id);
      assert rs[i] in mine;
    }
  }

  lemma {:induction false} RangesForStayDisjoint(rs: seq<RoundRange>, feed: string)
    requires AllValid(rs) && Disjoint(rs)
    ensures Disjoint(RangesFor(rs, feed))
  {
    if rs != [] {
      var front, last := rs[..|rs| - 1], rs[|rs| - 1];
      RangesForStayDisjoint(front, feed);
      RangesForAre(front, feed);
      forall r | r in RangesFor(front, feed) ensures ApartFrom(r, last) {
        var i :| 0 <= i < |front| && front[i] == r;
        assert ApartFrom(rs[i], rs[|rs| - 1]);
      }
    }
  }

  /** Grouping by feed keeps the ranges, reordered. */
  lemma {:induction false} GroupedHold(rs: seq<RoundRange>, feeds: seq<string>, id: ObservationId)
    requires AllValid(rs)
    ensures AllValid(Grouped(rs, feeds))
    ensures Holds(Grouped(rs, feeds), id) <==> id.0 in feeds && Holds(rs, id)
    decreases |feeds|
  {
    if feeds != [] {
      var front, last := feeds[..|feeds| - 1], feeds[|feeds| - 1];
      GroupedHold(rs, front, id);
      RangesForHold(rs, last, id);
      RangesForAre(rs, last);
      HoldsConcat(Grouped(rs, front), RangesFor(rs, last), id);
      assert feeds == front + [last];
    }
  }

  lemma {:induction false} GroupedStayDisjoint(rs: seq<RoundRange>, feeds: seq<string>)
    requires AllValid(rs) && Disjoint(rs) && Distinct(feeds)
    ensures AllValid(Grouped(rs, feeds)) && Disjoint(Grouped(rs, feeds))
    decreases |feeds|
  {
    if feeds != [] {
      var front, last := feeds[..|feeds| - 1], feeds[|feeds| - 1];
      GroupedStayDisjoint(rs, front);
      RangesForAre(rs, last);
      RangesForStayDisjoint(rs, last);
      forall id ensures !(Holds(Grouped(rs, front), id) && Holds(RangesFor(rs, last), id)) {
        GroupedHold(rs, front, id);
        RangesForHold(rs, last, id);
      }
      DisjointConcat(Grouped(rs, front), RangesFor(rs, last));
    }
  }

  lemma {:induction false} FeedsAreDistinct(rs: seq<RoundRange>)
    ensures Distinct(FeedsOf(rs))
    ensures forall r :: r in rs ==> r.feed in FeedsOf(rs)
  {
    if rs != [] {
      FeedsAreDistinct(rs[..|rs| - 1]);
      assert rs == rs[..|rs| - 1] + [rs[|rs| - 1]];
    }
  }

  lemma {:induction false} PlanAppend(rs: seq<RoundRange>, r: RoundRange, missing: set<ObservationId>, k: nat)
    requires k > 0
    ensures PlanRanges(rs + [r], missing, k) == PlanRanges(rs, missing, k) + PlanRange(r, missing, k)
  {
    assert (rs + [r])[..|rs|] == rs;
  }

  lemma ConcatAssociates<T>(a: seq<T>, b: seq<T>, c: seq<T>)
    ensures (a + b) + c == a + (b + c)
  {
  }

  lemma LastSplits<T>(b: seq<T>)
    requires b != []
    ensures b == b[..|b| - 1] + [b[|b| - 1]]
  {
  }

  lemma {:induction false} PlanConcatStep(a: seq<RoundRange>, front: seq<RoundRange>, last: RoundRange, missing: set<ObservationId>, k: nat)
    requires k > 0 && PlanRanges(a + front, missing, k) == PlanRanges(a, missing, k) + PlanRanges(front, missing, k)
    ensures PlanRanges(a + (front + [last]), missing, k) == PlanRanges(a, missing, k) + PlanRanges(front + [last], missing, k)
  {
    ConcatAssociates(a, front, [last]);
    PlanAppend(a + front, last, missing, k);
    PlanAppend(front, last, missing, k);
    ConcatAssociates(PlanRanges(a, missing, k), PlanRanges(front, missing, k), PlanRange(last, missing, k));
  }

  lemma {:induction false} PlanConcat(a: seq<RoundRange>, b: seq<RoundRange>, missing: set<ObservationId>, k: nat)
    requires k > 0
    ensures PlanRanges(a + b, missing, k) == PlanRanges(a, missing, k) + PlanRanges(b, missing, k)
    decreases |b|
  {
    if b == [] {
      assert a + b == a;
    } else {
      PlanConcat(a, b[..|b| - 1], missing, k);
      PlanConcatStep(a, b[..|b| - 1], b[|b| - 1], missing, k);
      LastSplits(b);
    }
  }

  /** Per-feed coverage plans what one pass over all ranges and all stored ids would. */
  lemma {:induction false} CoveragePlansGlobally(rs: seq<RoundRange>, rows: seq<PersistedRow>, feeds: seq<string>, k: nat)
    requires k > 0 && AllValid(rs)
    ensures PlanCoverage(CoverageOfAll(rs, rows, feeds), k) == PlanRanges(Grouped(rs, feeds), Required(rs) - StoredIds(rows), k)
    decreases |feeds|
  {
    if feeds != [] {
      var front, last := feeds[..|feeds| - 1], feeds[|feeds| - 1];
      var missing, c := Required(rs) - StoredIds(rows), CoverageOf(rs, rows, last);
      CoveragePlansGlobally(rs, rows, front, k);
      RangesForAre(rs, last);
      forall id | Holds(c.ranges, id) ensures id in c.Missing() <==> id in missing {
        RangesForHold(rs, last, id);
        StoredIdsAreObserved(rows, id);
      }
      PlanDependsOn(c.ranges, c.Missing(), missing, k);
      PlanConcat(Grouped(rs, front), RangesFor(rs, last), missing, k);
    }
  }

  lemma {:induction false} PlanIsGlobal(rs: seq<RoundRange>, rows: seq<PersistedRow>, k: nat)
    requires k > 0 && AllValid(rs)
    ensures MissingPlan(rs, rows, k) == PlanRanges(Grouped(rs, FeedsOf(rs)), Required(rs) - StoredIds(rows), k)
    ensures AllValid(Grouped(rs, FeedsOf(rs)))
    ensures forall id :: Holds(Grouped(rs, FeedsOf(rs)), id) <==> Holds(rs, id)
    ensures Disjoint(rs) ==> Disjoint(Grouped(rs, FeedsOf(rs)))
  {
    CoveragePlansGlobally(rs, rows, FeedsOf(rs), k);
    FeedsAreDistinct(rs);
    GroupedHold(rs, FeedsOf(rs), ("", 0));
    if Disjoint(rs) { GroupedStayDisjoint(rs, FeedsOf(rs)); }
    forall id ensures Holds(Grouped(rs, FeedsOf(rs)), id) <==> Holds(rs, id) {
      GroupedHold(rs, FeedsOf(rs), id);
      if Holds(rs, id) {
        var i :| 0 <= i < |rs| && HasId(rs[i], id);
        assert rs[i] in rs;
      }
    }
  }

  /**
   The planned batches hold exactly the required rounds that no stored row carries; over
   disjoint ranges they are disjoint, legal, and of at most `k` rounds each.
   */
  lemma PlanIsExactlyTheMissing(rs: seq<RoundRange>, rows: seq<PersistedRow>, k: nat)
    requires k > 0 && AllValid(rs)
    ensures forall id :: Holds(MissingPlan(rs, rows, k), id) <==> Holds(rs, id) && !Observed(rows, id)
    ensures Disjoint(rs) ==> Disjoint(MissingPlan(rs, rows, k)) && SizedWithin(MissingPlan(rs, rows, k), k)
  {
    PlanIsGlobal(rs, rows, k);
    var all, missing := Grouped(rs, FeedsOf(rs)), Required(rs) - StoredIds(rows);
    forall id ensures Holds(MissingPlan(rs, rows, k), id) <==> Holds(rs, id) && !Observed(rows, id) {
      PlanHoldsTheMissing(all, missing, k, id);
      StoredIdsAreObserved(rows, id);
    }
    if Disjoint(rs) { PlanIsDisjoint(all, missing, k); }
  }

  // ----- The fewest batches -----

  /** Legal batches of at most `k` rounds that hold exactly the missing rounds of the ranges. */
  ghost predicate CoversMissing(cover: seq<RoundRange>, rs: seq<RoundRange>, missing: set<ObservationId>, k: nat) {
    SizedWithin(cover, k) && forall id :: Holds(cover, id) <==> Holds(rs, id) && id in missing
  }

  /** Ranges of one feed phase leave a gap between them. */
  ghost predicate NeverTouching(rs: seq<RoundRange>) {
    forall i, j :: 0 <= i < j < |rs| ==> Separate(rs[i], rs[j])
  }

  predicate Separate(a: RoundRange, b: RoundRange) {
    a.feed != b.feed || a.phase != b.phase || a.end + 1 < b.start || b.end + 1 < a.start
  }

  /** The batches that start in the range, and the others. */
  function StartingIn(cover: seq<RoundRange>, r: RoundRange): seq<RoundRange> {
    if cover == [] then []
    else
      var front, b := StartingIn(cover[..|cover| - 1], r), cover[|cover| - 1];
      if HasId(r, (b.feed, b.start)) then front + [b] else front
  }

  function StartingElsewhere(cover: seq<RoundRange>, r: RoundRange): seq<RoundRange> {
    if cover == [] then []
    else
      var front, b := StartingElsewhere(cover[..|cover| - 1], r), cover[|cover| - 1];
      if HasId(r, (b.feed, b.start)) then front else front + [b]
  }

  lemma {:induction false} StartsSplit(cover: seq<RoundRange>, r: RoundRange)
    ensures |StartingIn(cover, r)| + |StartingElsewhere(cover, r)| == |cover|
    ensures forall b :: b in StartingIn(cover, r) <==> b in cover && HasId(r, (b.feed, b.start))
    ensures forall b :: b in StartingElsewhere(cover, r) <==> b in cover && !HasId(r, (b.feed, b.start))
  {
    if cover != [] {
      StartsSplit(cover[..|cover| - 1], r);
      assert cover == cover[..|cover| - 1] + [cover[|cover| - 1]];
    }
  }

  lemma RangesAreSeparate(rs: seq<RoundRange>, i: nat, j: nat)
    requires NeverTouching(rs) && i < |rs| && j < |rs| && i != j
    ensures Separate(rs[i], rs[j])
  {
    assert Separate(rs[if i < j then i else j], rs[if i < j then j else i]);
  }

  /** The round after a range belongs to no range. */
  lemma NextRoundIsFree(rs: seq<RoundRange>, i: nat, id: ObservationId)
    requires AllValid(rs) && NeverTouching(rs) && i < |rs|
    requires id == (rs[i].feed, rs[i].end + 1) && id.1 / PHASE == rs[i].phase
    ensures !Holds(rs, id)
  {
    forall j | 0 <= j < |rs| ensures !HasId(rs[j], id) {
      if j != i {
        RangesAreSeparate(rs, i, j);
        OnePhase(rs[j], id);
      }
    }
  }

  lemma OnePhase(r: RoundRange, id: ObservationId)
    requires r.Valid()
    ensures HasId(r, id) ==> id.1 / PHASE == r.phase
  {
  }

  /** A contiguous batch of required rounds cannot leave a range that touches no other. */
  lemma BatchStaysInRange(rs: seq<RoundRange>, b: RoundRange, i: nat)
    requires AllValid(rs) && NeverTouching(rs) && b.Valid() && i < |rs| && HasId(rs[i], (b.feed, b.start))
    requires forall id :: HasId(b, id) ==> Holds(rs, id)
    ensures b.end <= rs[i].end && b.phase == rs[i].phase
  {
    OnePhase(rs[i], (b.feed, b.start));
    if b.end > rs[i].end {
      var id := (b.feed, rs[i].end + 1);
      OnePhase(b, id);
      assert Holds(rs, id);
      NextRoundIsFree(rs, i, id);
    }
  }

  function RoundInterval(r: RoundRange, b: RoundRange): Interval {
    Interval(b.start - r.phase * PHASE, b.end - r.phase * PHASE)
  }

  function RoundIntervals(r: RoundRange, bs: seq<RoundRange>): (out: seq<Interval>)
    ensures |out| == |bs| && forall i :: 0 <= i < |bs| ==> out[i] == RoundInterval(r, bs[i])
  {
    seq(|bs|, i requires 0 <= i < |bs| => RoundInterval(r, bs[i]))
  }

  /** Batches that stay inside one range and hold exactly its missing rounds. */
  ghost predicate CoversRange(mine: seq<RoundRange>, r: RoundRange, missing: set<ObservationId>, k: nat) {
    && (forall i :: 0 <= i < |mine| ==> mine[i].feed == r.feed && mine[i].end - mine[i].start < k)
    && forall id :: Holds(mine, id) <==> HasId(r, id) && id in missing
  }

  lemma MissingMembers(r: RoundRange, missing: set<ObservationId>, v: int)
    requires r.Valid()
    ensures v in AllMissing(r, missing) <==> HasId(r, (r.feed, r.phase * PHASE + v)) && (r.feed, r.phase * PHASE + v) in missing
  {
    assert r.start == r.phase * PHASE + r.start % PHASE && r.end == r.phase * PHASE + r.end % PHASE;
  }

  lemma IntervalsHold(r: RoundRange, mine: seq<RoundRange>, v: int)
    requires forall i :: 0 <= i < |mine| ==> mine[i].feed == r.feed
    ensures InIntervals(RoundIntervals(r, mine), v) <==> Holds(mine, (r.feed, r.phase * PHASE + v))
  {
    var cover, id := RoundIntervals(r, mine), (r.feed, r.phase * PHASE + v);
    assert forall i :: 0 <= i < |mine| ==> (cover[i].Has(v) <==> HasId(mine[i], id));
  }

  lemma RangePlanIsFewest(r: RoundRange, missing: set<ObservationId>, k: nat, mine: seq<RoundRange>)
    requires k > 0 && r.Valid() && CoversRange(mine, r, missing, k)
    ensures |PlanRange(r, missing, k)| <= |mine|
  {
    var ms, cover := AllMissing(r, missing), RoundIntervals(r, mine);
    forall v ensures InIntervals(cover, v) <==> v in ms {
      IntervalsHold(r, mine, v);
      MissingMembers(r, missing, v);
    }
    GreedyListIsFewest(ms, k, cover);
  }

  lemma {:induction false} PartsAreSized(cover: seq<RoundRange>, r: RoundRange, k: nat)
    requires SizedWithin(cover, k)
    ensures SizedWithin(StartingIn(cover, r), k) && SizedWithin(StartingElsewhere(cover, r), k)
    ensures forall b :: b in StartingIn(cover, r) ==> b.feed == r.feed
  {
    StartsSplit(cover, r);
    forall b | b in StartingIn(cover, r) || b in StartingElsewhere(cover, r) ensures b.Valid() && b.end - b.start < k {
      assert b in cover;
    }
  }

  /** The batches starting in the last range are a cover of it, the others one of the earlier ranges. */
  lemma {:induction false} CoverSplits(rs: seq<RoundRange>, missing: set<ObservationId>, k: nat, cover: seq<RoundRange>)
    requires rs != [] && AllValid(rs) && NeverTouching(rs) && CoversMissing(cover, rs, missing, k)
    ensures CoversRange(StartingIn(cover, rs[|rs| - 1]), rs[|rs| - 1], missing, k)
    ensures CoversMissing(StartingElsewhere(cover, rs[|rs| - 1]), rs[..|rs| - 1], missing, k)
  {
    PartsAreSized(cover, rs[|rs| - 1], k);
    forall id ensures Holds(StartingIn(cover, rs[|rs| - 1]), id) <==> HasId(rs[|rs| - 1], id) && id in missing {
      CoverPart(rs, missing, k, cover, id);
    }
    forall id ensures Holds(StartingElsewhere(cover, rs[|rs| - 1]), id) <==> Holds(rs[..|rs| - 1], id) && id in missing {
      CoverPart(rs, missing, k, cover, id);
    }
  }

  lemma {:induction false} CoverPart(rs: seq<RoundRange>, missing: set<ObservationId>, k: nat, cover: seq<RoundRange>, id: ObservationId)
    requires rs != [] && AllValid(rs) && NeverTouching(rs) && CoversMissing(cover, rs, missing, k)
    ensures Holds(StartingIn(cover, rs[|rs| - 1]), id) <==> HasId(rs[|rs| - 1], id) && id in missing
    ensures Holds(StartingElsewhere(cover, rs[|rs| - 1]), id) <==> Holds(rs[..|rs| - 1], id) && id in missing
  {
    NeverTouchingIsDisjoint(rs);
    LastIsApart(rs, id);
    CoverMembers(rs, missing, k, cover, id);
  }

  lemma NeverTouchingIsDisjoint(rs: seq<RoundRange>)
    requires AllValid(rs) && NeverTouching(rs)
    ensures Disjoint(rs)
  {
    forall i, j | 0 <= i < j < |rs| ensures ApartFrom(rs[i], rs[j]) {
      assert Separate(rs[i], rs[j]) && rs[i].Valid() && rs[j].Valid();
    }
  }

  /** Where a missing round's batch starts decides where the round lies. */
  lemma CoverMembers(rs: seq<RoundRange>, missing: set<ObservationId>, k: nat, cover: seq<RoundRange>, id: ObservationId)
    requires rs != [] && AllValid(rs) && NeverTouching(rs) && CoversMissing(cover, rs, missing, k)
    ensures Holds(StartingIn(cover, rs[|rs| - 1]), id) <==> Holds(cover, id) && HasId(rs[|rs| - 1], id)
    ensures Holds(StartingElsewhere(cover, rs[|rs| - 1]), id) <==> Holds(cover, id) && !HasId(rs[|rs| - 1], id)
  {
    var n := |rs| - 1;
    var mine, others := StartingIn(cover, rs[n]), StartingElsewhere(cover, rs[n]);
    StartsSplit(cover, rs[n]);
    if Holds(mine, id) {
      var i :| 0 <= i < |mine| && HasId(mine[i], id);
      BatchInCover(rs, missing, k, cover, mine[i]);
      BatchStaysInRange(rs, mine[i], n);
    }
    if Holds(others, id) {
      var i :| 0 <= i < |others| && HasId(others[i], id);
      BatchInCover(rs, missing, k, cover, others[i]);
      StartLiesInOneRange(rs, others[i], n, id);
    }
    if Holds(cover, id) {
      var i :| 0 <= i < |cover| && HasId(cover[i], id);
      assert cover[i] in mine || cover[i] in others;
      if cover[i] in mine { InListHolds(mine, cover[i], id); } else { InListHolds(others, cover[i], id); }
    }
  }

  lemma InListHolds(list: seq<RoundRange>, b: RoundRange, id: ObservationId)
    requires b in list && HasId(b, id)
    ensures Holds(list, id)
  {
    var i :| 0 <= i < |list| && list[i] == b;
    assert HasId(list[i], id);
  }

  lemma BatchInCover(rs: seq<RoundRange>, missing: set<ObservationId>, k: nat, cover: seq<RoundRange>, b: RoundRange)
    requires CoversMissing(cover, rs, missing, k) && b in cover
    ensures b.Valid() && forall id :: HasId(b, id) ==> Holds(cover, id) && Holds(rs, id)
  {
    forall id | HasId(b, id) ensures Holds(cover, id) { InListHolds(cover, b, id); }
  }

  /** A batch that starts outside range `n` never reaches into it. */
  lemma StartLiesInOneRange(rs: seq<RoundRange>, b: RoundRange, n: nat, id: ObservationId)
    requires AllValid(rs) && NeverTouching(rs) && b.Valid() && n < |rs| && !HasId(rs[n], (b.feed, b.start))
    requires HasId(b, id) && forall x :: HasId(b, x) ==> Holds(rs, x)
    ensures !HasId(rs[n], id)
  {
    assert HasId(b, (b.feed, b.start));
    var j :| 0 <= j < |rs| && HasId(rs[j], (b.feed, b.start));
    BatchStaysInRange(rs, b, j);
    RangesAreSeparate(rs, n, j);
    OnePhase(b, id);
  }

  lemma {:induction false} PlanRangesAreFewest(rs: seq<RoundRange>, missing: set<ObservationId>, k: nat, cover: seq<RoundRange>)
    requires k > 0 && AllValid(rs) && NeverTouching(rs) && CoversMissing(cover, rs, missing, k)
    ensures |PlanRanges(rs, missing, k)| <= |cover|
    decreases |rs|
  {
    if rs != [] {
      var front, last := rs[..|rs| - 1], rs[|rs| - 1];
      CoverSplits(rs, missing, k, cover);
      StartsSplit(cover, last);
      RangePlanIsFewest(last, missing, k, StartingIn(cover, last));
      PlanRangesAreFewest(front, missing, k, StartingElsewhere(cover, last));
    }
  }

  lemma {:induction false} RangesForNeverTouch(rs: seq<RoundRange>, feed: string)
    requires AllValid(rs) && NeverTouching(rs)
    ensures NeverTouching(RangesFor(rs, feed))
  {
    if rs != [] {
      var front, last := rs[..|rs| - 1], rs[|rs| - 1];
      RangesForNeverTouch(front, feed);
      RangesForAre(front, feed);
      forall r | r in RangesFor(front, feed) ensures Separate(r, last) {
        var i :| 0 <= i < |front| && front[i] == r;
        assert Separate(rs[i], rs[|rs| - 1]);
      }
    }
  }

  lemma {:induction false} GroupedNeverTouch(rs: seq<RoundRange>, feeds: seq<string>)
    requires AllValid(rs) && NeverTouching(rs) && Distinct(feeds)
    ensures NeverTouching(Grouped(rs, feeds))
    ensures forall i :: 0 <= i < |Grouped(rs, feeds)| ==> Grouped(rs, feeds)[i].feed in feeds
    decreases |feeds|
  {
    if feeds != [] {
      var front, last := feeds[..|feeds| - 1], feeds[|feeds| - 1];
      GroupedNeverTouch(rs, front);
      RangesForNeverTouch(rs, last);
      RangesForAre(rs, last);
    }
  }

  /** What the stored rows leave missing of the ranges. */
  ghost predicate CoversUnstored(cover: seq<RoundRange>, rs: seq<RoundRange>, rows: seq<PersistedRow>, k: nat) {
    SizedWithin(cover, k) && forall id :: Holds(cover, id) <==> Holds(rs, id) && !Observed(rows, id)
  }

  /**
   Over ranges that do not touch within a feed phase, no list of legal batches of at most
   `k` rounds that holds exactly the missing rounds is shorter than the plan.
   */
  lemma GreedyIsFewest(rs: seq<RoundRange>, rows: seq<PersistedRow>, k: nat, cover: seq<RoundRange>)
    requires k > 0 && AllValid(rs) && NeverTouching(rs) && CoversUnstored(cover, rs, rows, k)
    ensures |MissingPlan(rs, rows, k)| <= |cover|
  {
    PlanIsGlobal(rs, rows, k);
    FeedsAreDistinct(rs);
    GroupedNeverTouch(rs, FeedsOf(rs));
    var all, missing := Grouped(rs, FeedsOf(rs)), Required(rs) - StoredIds(rows);
    forall id ensures Holds(cover, id) <==> Holds(all, id) && id in missing {
      StoredIdsAreObserved(rows, id);
    }
    PlanRangesAreFewest(all, missing, k, cover);
  }

  function Rounds(first: int, last: int): RoundRange { RoundRange("feed", 1, PHASE + first, PHASE + last) }

  /** Rounds 1 to 3 and 4 to 6 of one phase take two batches where one of six would do. */
  lemma TouchingRangesCanWaste(rs: seq<RoundRange>, cover: seq<RoundRange>, rows: seq<PersistedRow>, k: nat)
    requires rs == [Rounds(1, 3), Rounds(4, 6)] && cover == [Rounds(1, 6)] && rows == [] && k == 6
    ensures AllValid(rs) && Disjoint(rs) && CoversUnstored(cover, rs, rows, k) && |cover| < |MissingPlan(rs, rows, k)|
  {
    TouchingRanges(rs, cover);
    SplitRoundsCovered(rs, cover);
    PlanOfTwo(rs, rs[0], rs[1], rows, k);
  }

  lemma TouchingRanges(rs: seq<RoundRange>, cover: seq<RoundRange>)
    requires rs == [Rounds(1, 3), Rounds(4, 6)] && cover == [Rounds(1, 6)]
    ensures AllValid(rs) && Disjoint(rs) && SizedWithin(cover, 6)
  {
  }

  lemma PlanOfTwo(rs: seq<RoundRange>, a: RoundRange, b: RoundRange, rows: seq<PersistedRow>, k: nat)
    requires rs == [a, b] && a.Valid() && b.Valid() && a.feed == b.feed && k > 0
    requires !Observed(rows, (a.feed, a.start)) && !Observed(rows, (b.feed, b.start))
    ensures |MissingPlan(rs, rows, k)| >= 2
  {
    PlanIsGlobal(rs, rows, k);
    OneFeedGroups(rs, a, b);
    assert HasId(rs[0], (a.feed, a.start)) && HasId(rs[1], (b.feed, b.start));
    StoredIdsAreObserved(rows, (a.feed, a.start));
    StoredIdsAreObserved(rows, (b.feed, b.start));
    TwoRangesTwoBatches(rs, a, b, Required(rs) - StoredIds(rows), k);
  }

  lemma SplitRoundsCovered(rs: seq<RoundRange>, cover: seq<RoundRange>)
    requires rs == [Rounds(1, 3), Rounds(4, 6)] && cover == [Rounds(1, 6)]
    ensures forall id :: Holds(cover, id) <==> Holds(rs, id)
  {
    forall id ensures Holds(cover, id) <==> Holds(rs, id) {
      assert Holds(cover, id) <==> HasId(cover[0], id);
      assert Holds(rs, id) <==> HasId(rs[0], id) || HasId(rs[1], id);
    }
  }

  lemma {:induction false} OneFeedGroups(rs: seq<RoundRange>, a: RoundRange, b: RoundRange)
    requires rs == [a, b] && a.feed == b.feed
    ensures FeedsOf(rs) == [a.feed] && Grouped(rs, [a.feed]) == rs
  {
    assert rs[..1] == [a] && [a][..0] == [];
    assert FeedsOf([a]) == [a.feed];
    assert RangesFor([a], a.feed) == [a] && RangesFor(rs, a.feed) == rs;
    assert [a.feed][..0] == [] && Grouped(rs, []) == [];
  }

  /** Two ranges with something missing take at least a batch each. */
  lemma {:induction false} TwoRangesTwoBatches(rs: seq<RoundRange>, a: RoundRange, b: RoundRange, missing: set<ObservationId>, k: nat)
    requires rs == [a, b] && a.Valid() && b.Valid() && (a.feed, a.start) in missing && (b.feed, b.start) in missing && k > 0
    ensures |PlanRanges(rs, missing, k)| >= 2
  {
    assert rs[..1] == [a] && [a][..0] == [];
    assert PlanRanges([a], missing, k) == PlanRange(a, missing, k);
    RangePlanHolds(a, missing, k, (a.feed, a.start));
    RangePlanHolds(b, missing, k, (b.feed, b.start));
  }

  /** `later` stores what `rows` stored and, of the rounds in `rs`, the batches `done`. */
  ghost predicate StoresBatches(rs: seq<RoundRange>, rows: seq<PersistedRow>, done: seq<RoundRange>, later: seq<PersistedRow>) {
    forall id :: Holds(rs, id) ==> (Observed(later, id) <==> Observed(rows, id) || Holds(done, id))
  }

  /** A restart after any number of leading batches plans exactly the batches that remain. */
  lemma RestartContinuesThePlan(rs: seq<RoundRange>, rows: seq<PersistedRow>, k: nat, j: nat, later: seq<PersistedRow>)
    requires k > 0 && AllValid(rs) && Disjoint(rs) && j <= |MissingPlan(rs, rows, k)|
    requires StoresBatches(rs, rows, MissingPlan(rs, rows, k)[..j], later)
    ensures MissingPlan(rs, later, k) == MissingPlan(rs, rows, k)[j..]
  {
    PlanIsGlobal(rs, rows, k);
    PlanIsGlobal(rs, later, k);
    var all, done := Grouped(rs, FeedsOf(rs)), MissingPlan(rs, rows, k)[..j];
    var missing, left := Required(rs) - StoredIds(rows), Required(rs) - StoredIds(later);
    forall id | Holds(all, id) ensures id in left <==> id in missing && !Holds(done, id) {
      StoredIdsAreObserved(rows, id);
      StoredIdsAreObserved(later, id);
    }
    PlanReplan(all, missing, k, j, done, left);
  }

  lemma {:induction false} RangeIdCount(r: RoundRange, ids: set<ObservationId>)
    requires r.start <= r.end + 1 && forall id :: id in ids <==> HasId(r, id)
    ensures |ids| == r.end - r.start + 1
    decreases r.end - r.start + 1
  {
    if r.start <= r.end {
      var last := (r.feed, r.end);
      assert HasId(r, last);
      RangeIdCount(r.(end := r.end - 1), ids - {last});
    } else {
      assert ids == {};
    }
  }

  /** Disjoint ranges require as many ids as their round count. */
  lemma {:induction false} RequiredCount(rs: seq<RoundRange>)
    requires AllValid(rs) && Disjoint(rs)
    ensures |Required(rs)| == RoundCount(rs)
    decreases |rs|
  {
    if rs != [] {
      var front, last := rs[..|rs| - 1], rs[|rs| - 1];
      var mine := Required([last]);
      RequiredCount(front);
      forall id ensures id in mine <==> HasId(last, id) {
        assert [last][0] == last;
      }
      RangeIdCount(last, mine);
      forall id ensures (id in Required(rs) <==> id in Required(front) || id in mine) && !(id in Required(front) && id in mine) {
        LastIsApart(rs, id);
      }
      assert Required(rs) == Required(front) + mine && Required(front) !! mine;
    }
  }

  /** One run: its ranges, its batch size, and how many planned batches it committed before it ended. */
  datatype CaptureRun = CaptureRun(ranges: seq<RoundRange>, batchSize: nat, committed: nat)

  ghost predicate RunOk(run: CaptureRun, rows: seq<PersistedRow>) {
    && run.batchSize > 0 && AllValid(run.ranges) && Disjoint(run.ranges)
    && run.committed <= |MissingPlan(run.ranges, rows, run.batchSize)|
  }

  ghost function Committed(run: CaptureRun, rows: seq<PersistedRow>): seq<RoundRange>
  {
    if RunOk(run, rows) then MissingPlan(run.ranges, rows, run.batchSize)[..run.committed] else []
  }

  /** The run's committed batches are stored after it, and nothing stored is lost. */
  ghost predicate RunStep(run: CaptureRun, before: seq<PersistedRow>, after: seq<PersistedRow>) {
    RunOk(run, before) && forall id :: Observed(before, id) || Holds(Committed(run, before), id) ==> Observed(after, id)
  }

  ghost predicate IsHistory(runs: seq<CaptureRun>, rows: seq<seq<PersistedRow>>) {
    |rows| == |runs| + 1 && forall i :: 0 <= i < |runs| ==> RunStep(runs[i], rows[i], rows[i + 1])
  }

  lemma {:induction false} StoredStaysStored(runs: seq<CaptureRun>, rows: seq<seq<PersistedRow>>, i: nat, j: nat, id: ObservationId)
    requires IsHistory(runs, rows) && i <= j < |rows| && Observed(rows[i], id)
    ensures Observed(rows[j], id)
    decreases j
  {
    if i < j {
      StoredStaysStored(runs, rows, i, j - 1, id);
      assert RunStep(runs[j - 1], rows[j - 1], rows[j - 1 + 1]);
    }
  }

  /**
   Batches committed by different runs never share a round, even when ranges and batch
   sizes change from run to run; a batch committed once is never committed again.
   */
  lemma CommittedBatchesNeverOverlap(runs: seq<CaptureRun>, rows: seq<seq<PersistedRow>>, i: nat, j: nat, id: ObservationId)
    requires IsHistory(runs, rows) && i < j < |runs|
    requires Holds(Committed(runs[i], rows[i]), id)
    ensures !Observed(rows[i], id) && !Holds(Committed(runs[j], rows[j]), id)
  {
    assert RunStep(runs[i], rows[i], rows[i + 1]) && RunStep(runs[j], rows[j], rows[j + 1]);
    HoldsPrefix(MissingPlan(runs[i].ranges, rows[i], runs[i].batchSize), runs[i].committed, id);
    PlanIsExactlyTheMissing(runs[i].ranges, rows[i], runs[i].batchSize);
    StoredStaysStored(runs, rows, i + 1, j, id);
    PlanIsExactlyTheMissing(runs[j].ranges, rows[j], runs[j].batchSize);
    if Holds(Committed(runs[j], rows[j]), id) {
      HoldsPrefix(MissingPlan(runs[j].ranges, rows[j], runs[j].batchSize), runs[j].committed, id);
    }
  }

  lemma NothingHeldIsEmpty(rs: seq<RoundRange>, k: nat)
    requires SizedWithin(rs, k) && forall id :: !Holds(rs, id)
    ensures rs == []
  {
    if rs != [] {
      assert rs[0].Valid() && HasId(rs[0], (rs[0].feed, rs[0].start));
      assert Holds(rs, (rs[0].feed, rs[0].start));
    }
  }

  /** A run that commits its whole plan leaves none of its rounds missing. */
  lemma FullRunLeavesNothingMissing(run: CaptureRun, before: seq<PersistedRow>, after: seq<PersistedRow>, k: nat)
    requires RunStep(run, before, after) && run.committed == |MissingPlan(run.ranges, before, run.batchSize)| && k > 0
    ensures MissingPlan(run.ranges, after, k) == []
  {
    var plan := MissingPlan(run.ranges, before, run.batchSize);
    assert Committed(run, before) == plan;
    PlanIsExactlyTheMissing(run.ranges, after, k);
    forall id ensures !Holds(MissingPlan(run.ranges, after, k), id) {
      PlanIsExactlyTheMissing(run.ranges, before, run.batchSize);
    }
    NothingHeldIsEmpty(MissingPlan(run.ranges, after, k), k);
  }

  /** How often each id occurs among the rows. */
  method CountIds(rows: seq<PersistedRow>) returns (counts: map<ObservationId, nat>)
    ensures forall id :: (if id in counts then counts[id] else 0) == Occurrences(rows, id)
  {
    counts := map[];
    for i := 0 to |rows|
      invariant forall id :: (if id in counts then counts[id] else 0) == Occurrences(rows[..i], id)
    {
      assert rows[..i + 1][..i] == rows[..i];
      counts := counts[rows[i].id := (if rows[i].id in counts then counts[rows[i].id] else 0) + 1];
    }
    assert rows[..|rows|] == rows;
  }

  method CountRepeats(rows: seq<PersistedRow>, counts: map<ObservationId, nat>, required: set<ObservationId>) returns (n: int)
    requires forall id :: (if id in counts then counts[id] else 0) == Occurrences(rows, id)
    ensures n == Repeats(rows, required)
  {
    n := 0;
    var todo := required;
    NothingRepeatsInNoIds(rows);
    assert required - todo == {};
    while todo != {}
      invariant todo <= required
      invariant n == Repeats(rows, required - todo)
      decreases |todo|
    {
      var id :| id in todo;
      RepeatsStep(rows, required, todo, id);
      assert Occurrences(rows, id) == if id in counts then counts[id] else 0;
      todo := todo - {id};
      n := n + if id in counts && counts[id] > 1 then counts[id] - 1 else 0;
    }
    assert required - {} == required;
  }

  /** Every round of the range encodes; otherwise the source raises while naming it. */
  predicate Encodable(r: RoundRange) {
    Encode(r.phase, r.start % PHASE).Success?
  }

  ghost predicate AllEncodable(rs: seq<RoundRange>) {
    forall i :: 0 <= i < |rs| ==> Encodable(rs[i])
  }

  /** The ids of one range, named round by round. */
  method RangeIds(r: RoundRange) returns (out: Result<set<ObservationId>, RoundError>)
    requires r.Valid()
    ensures out.Success? <==> Encodable(r)
    ensures out.Success? ==> forall id :: id in out.value <==> HasId(r, id)
  {
    var first, last := r.start % PHASE, r.end % PHASE;
    var ids: set<ObservationId> := {};
    for v := first to last + 1
      invariant v > first ==> Encodable(r)
      invariant forall id :: id in ids <==> id.0 == r.feed && r.start <= id.1 < r.phase * PHASE + v
    {
      var id := Encode(r.phase, v);
      if id.Failure? { return Failure(id.error); }
      ids := ids + {(r.feed, id.value)};
    }
    return Success(ids);
  }

  /** `expected_observation_ids`: every round of every range, unless one does not encode. */
  method ExpectedObservationIds(rs: seq<RoundRange>) returns (out: Result<set<ObservationId>, RoundError>)
    requires AllValid(rs)
    ensures out.Success? <==> AllEncodable(rs)
    ensures out.Success? ==> out.value == Required(rs)
  {
    var ids: set<ObservationId> := {};
    for i := 0 to |rs|
      invariant AllEncodable(rs[..i])
      invariant ids == Required(rs[..i])
    {
      var mine := RangeIds(rs[i]);
      if mine.Failure? { return Failure(mine.error); }
      assert rs[..i + 1] == rs[..i] + [rs[i]] && [rs[i]][0] == rs[i];
      forall id ensures Holds(rs[..i + 1], id) <==> Holds(rs[..i], id) || HasId(rs[i], id) {
        HoldsConcat(rs[..i], [rs[i]], id);
      }
      ids := ids + mine.value;
    }
    assert rs[..|rs|] == rs;
    return Success(ids);
  }

  lemma {:induction false} RangesForEncode(rs: seq<RoundRange>, feed: string)
    requires AllValid(rs)
    ensures AllValid(RangesFor(rs, feed)) && (AllEncodable(rs) ==> AllEncodable(RangesFor(rs, feed)))
  {
    RangesForAre(rs, feed);
    var mine := RangesFor(rs, feed);
    forall i | 0 <= i < |mine| ensures AllEncodable(rs) ==> Encodable(mine[i]) {
      assert mine[i] in rs;
    }
  }

  ghost predicate FeedEncodes(rs: seq<RoundRange>, feed: string) {
    AllEncodable(RangesFor(rs, feed))
  }

  ghost predicate FeedsEncode(rs: seq<RoundRange>, feeds: seq<string>) {
    forall feed :: feed in feeds ==> FeedEncodes(rs, feed)
  }

  /** When the ranges of every feed encode, all ranges do. */
  lemma {:induction false} FeedRangesEncode(rs: seq<RoundRange>)
    requires AllValid(rs) && FeedsEncode(rs, FeedsOf(rs))
    ensures AllEncodable(rs)
  {
    FeedsAreDistinct(rs);
    forall i | 0 <= i < |rs| ensures Encodable(rs[i]) {
      var feed := rs[i].feed;
      RangesForAre(rs, feed);
      assert rs[i] in rs && FeedEncodes(rs, feed) && rs[i] in RangesFor(rs, feed);
    }
  }

  /** One feed's turn of the coverage loop. */
  method CoverFeed(rs: seq<RoundRange>, rows: seq<PersistedRow>, counts: map<ObservationId, nat>, feed: string)
    returns (out: Result<FeedCoverage, RoundError>)
    requires AllValid(rs) && forall id :: (if id in counts then counts[id] else 0) == Occurrences(rows, id)
    ensures out.Success? <==> FeedEncodes(rs, feed)
    ensures out.Success? ==> out.value == CoverageOf(rs, rows, feed)
  {
    var mine := RangesFor(rs, feed);
    RangesForEncode(rs, feed);
    var expected := ExpectedObservationIds(mine);
    if expected.Failure? { return Failure(expected.error); }
    var required := expected.value;
    var duplicates := CountRepeats(rows, counts, required);
    return Success(FeedCoverage(feed, mine, required, PersistedIds(rows, feed) * required, duplicates));
  }

  lemma {:induction false} CoverageUnfolds(rs: seq<RoundRange>, rows: seq<PersistedRow>, feeds: seq<string>, i: nat)
    requires i < |feeds|
    ensures CoverageOfAll(rs, rows, feeds[..i + 1]) == CoverageOfAll(rs, rows, feeds[..i]) + [CoverageOf(rs, rows, feeds[i])]
  {
    assert feeds[..i + 1][..i] == feeds[..i];
  }

  /** `calculate_feed_coverage`: one entry per feed, recomputed from the stored rows; nothing unless every round encodes. */
  method CalculateFeedCoverage(rs: seq<RoundRange>, rows: seq<PersistedRow>) returns (out: Result<seq<FeedCoverage>, RoundError>)
    requires AllValid(rs)
    ensures out.Success? <==> AllEncodable(rs)
    ensures out.Success? ==> out.value == CoverageOfAll(rs, rows, FeedsOf(rs))
  {
    var result: seq<FeedCoverage> := [];
    var counts := CountIds(rows);
    var feeds := FeedsOf(rs);
    for i := 0 to |feeds|
      invariant result == CoverageOfAll(rs, rows, feeds[..i])
      invariant FeedsEncode(rs, feeds[..i])
    {
      var covered := CoverFeed(rs, rows, counts, feeds[i]);
      if covered.Failure? {
        RangesForEncode(rs, feeds[i]);
        return Failure(covered.error);
      }
      CoverageUnfolds(rs, rows, feeds, i);
      result := result + [covered.value];
    }
    assert feeds[..|feeds|] == feeds;
    FeedRangesEncode(rs);
    return Success(result);
  }

  method MissingAggregators(r: RoundRange, missing: set<ObservationId>) returns (out: Result<seq<int>, RoundError>)
    requires r.Valid()
    ensures out.Success? <==> Encodable(r)
    ensures out.Success? ==> out.value == AllMissing(r, missing)
  {
    var first, last := r.start % PHASE, r.end % PHASE;
    var ms: seq<int> := [];
    for v := first to last + 1
      invariant v > first ==> Encodable(r)
      invariant ms == MissingRounds(r, missing, v)
    {
      var id := Encode(r.phase, v);
      if id.Failure? { return Failure(id.error); }
      if (r.feed, id.value) in missing { ms := ms + [v]; }
    }
    return Success(ms);
  }

  /** The inner loop: extends a run of consecutive rounds up to the batch size. */
  method ExtendRun(ms: seq<int>, begin: nat, k: nat) returns (offset: nat, runEnd: int)
    requires begin < |ms| && k > 0
    ensures offset == begin + RunFrom(ms[begin..], k, 1) && runEnd == ms[offset - 1]
  {
    var runStart := ms[begin];
    runEnd := runStart;
    offset := begin + 1;
    ghost var rest := ms[begin..];
    while offset < |ms| && ms[offset] == runEnd + 1 && ms[offset] - runStart < k
      invariant begin < offset <= |ms| && runEnd == ms[offset - 1] == runStart + (offset - begin) - 1
      invariant offset - begin <= k
      invariant forall j :: 0 <= j < offset - begin ==> rest[j] == rest[0] + j
      invariant RunFrom(rest, k, 1) == RunFrom(rest, k, offset - begin)
    {
      runEnd := ms[offset];
      offset := offset + 1;
    }
  }

  lemma {:induction false} RestAfterRun(ms: seq<int>, begin: nat, k: nat)
    requires begin < |ms| && k > 0
    ensures var next := begin + RunFrom(ms[begin..], k, 1);
      && FirstBatch(ms[begin..], k) == Interval(ms[begin], ms[next - 1])
      && AfterFirst(ms[begin..], k) == ms[next..]
  {
    var rest := ms[begin..];
    var n := RunFrom(rest, k, 1);
    assert rest[n - 1] == ms[begin + n - 1];
    assert rest[n..] == ms[begin + n..];
  }

  lemma {:induction false} GreedyStep(ms: seq<int>, begin: nat, k: nat, next: nat)
    requires begin < |ms| && k > 0 && next == begin + RunFrom(ms[begin..], k, 1)
    ensures Batches(ms[begin..], k) == [Interval(ms[begin], ms[next - 1])] + Batches(ms[next..], k)
  {
    RestAfterRun(ms, begin, k);
  }

  /** The greedy loop over one range's missing rounds. */
  method GreedyBatches(r: RoundRange, missing: set<ObservationId>, k: nat) returns (out: Result<seq<RoundRange>, RoundError>)
    requires r.Valid() && k > 0
    ensures out.Success? <==> Encodable(r)
    ensures out.Success? ==> out.value == PlanRange(r, missing, k)
  {
    var listed := MissingAggregators(r, missing);
    if listed.Failure? { return Failure(listed.error); }
    var ms := listed.value;
    var batches: seq<Interval> := [];
    var offset := 0;
    while offset < |ms|
      invariant 0 <= offset <= |ms|
      invariant batches + Batches(ms[offset..], k) == Batches(ms, k)
    {
      var begin := offset;
      var runEnd;
      offset, runEnd := ExtendRun(ms, begin, k);
      GreedyStep(ms, begin, k, offset);
      ConcatAssociates(batches, [Interval(ms[begin], runEnd)], Batches(ms[offset..], k));
      batches := batches + [Interval(ms[begin], runEnd)];
    }
    return Success(EncodedAll(r, batches));
  }

  method PlanFeedBatches(c: FeedCoverage, k: nat) returns (out: Result<seq<RoundRange>, RoundError>)
    requires AllValid(c.ranges) && k > 0
    ensures out.Success? <==> AllEncodable(c.ranges)
    ensures out.Success? ==> out.value == PlanRanges(c.ranges, c.Missing(), k)
  {
    var batches: seq<RoundRange> := [];
    for i := 0 to |c.ranges|
      invariant AllEncodable(c.ranges[..i])
      invariant batches == PlanRanges(c.ranges[..i], c.Missing(), k)
    {
      var step := GreedyBatches(c.ranges[i], c.Missing(), k);
      if step.Failure? { return Failure(step.error); }
      batches := batches + step.value;
      assert c.ranges[..i + 1][..i] == c.ranges[..i];
    }
    assert c.ranges[..|c.ranges|] == c.ranges;
    return Success(batches);
  }

  /** `plan_missing_batches`: nothing is planned unless the size is positive and every round encodes. */
  method PlanMissingBatches(coverage: seq<FeedCoverage>, batchSize: int) returns (out: Result<seq<RoundRange>, RoundError>)
    requires forall i :: 0 <= i < |coverage| ==> AllValid(coverage[i].ranges)
    ensures out.Success? <==> batchSize > 0 && forall i :: 0 <= i < |coverage| ==> AllEncodable(coverage[i].ranges)
    ensures out.Success? ==> out.value == PlanCoverage(coverage, batchSize)
  {
    if batchSize <= 0 { return Failure(TooManyRounds); }
    var batches: seq<RoundRange> := [];
    for i := 0 to |coverage|
      invariant forall j :: 0 <= j < i ==> AllEncodable(coverage[j].ranges)
      invariant batches == PlanCoverage(coverage[..i], batchSize)
    {
      var step := PlanFeedBatches(coverage[i], batchSize);
      if step.Failure? { return Failure(step.error); }
      batches := batches + step.value;
      assert coverage[..i + 1][..i] == coverage[..i];
    }
    assert coverage[..|coverage|] == coverage;
    return Success(batches);
  }
}
