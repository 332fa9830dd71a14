/**
 Canonical merging of events (`merge_events` in backfill/aave_v3.py and
 backfill/uniswap_v3.py): first copy of each key wins, conflicting copies are refused,
 and the result is sorted by key.
 */
module Merge {
  import opened Wrappers
  import opened Sorting
  import opened Decode

  /** Tuple order of (chain, transaction hash, log index). */
  predicate KeyLe(a: EventKey, b: EventKey) {
    if a.chain != b.chain then StringLe(a.chain, b.chain)
    else if a.txHash != b.txHash then StringLe(a.txHash, b.txHash)
    else a.logIndex <= b.logIndex
  }

  lemma KeyOrder()
    ensures TotalPreorder(KeyLe)
    ensures forall a, b :: KeyLe(a, b) && KeyLe(b, a) ==> a == b
  {
    forall a: EventKey, b: EventKey ensures (KeyLe(a, b) || KeyLe(b, a)) && (KeyLe(a, b) && KeyLe(b, a) ==> a == b) {
      StringLeTotal(a.chain, b.chain);
      StringLeTotal(a.txHash, b.txHash);
    }
    forall a: EventKey, b: EventKey, c: EventKey | KeyLe(a, b) && KeyLe(b, c) ensures KeyLe(a, c) {
      KeyLeTransitive(a, b, c);
    }
  }

  lemma KeyLeTransitive(a: EventKey, b: EventKey, c: EventKey)
    requires KeyLe(a, b) && KeyLe(b, c)
    ensures KeyLe(a, c)
  {
    if a.chain == b.chain && b.chain == c.chain {
      if a.txHash != b.txHash && b.txHash != c.txHash {
        StringLeTransitive(a.txHash, b.txHash, c.txHash);
        StringLeTotal(a.txHash, b.txHash);
      }
    } else if a.chain != b.chain && b.chain != c.chain {
      StringLeTransitive(a.chain, b.chain, c.chain);
      StringLeTotal(a.chain, b.chain);
    }
  }

  /** The fields conflict detection compares. */
  predicate SameEvent(a: Event, b: Event) { a.block == b.block && a.body == b.body }

  ghost predicate Consistent(es: seq<Event>) {
    forall i, j :: 0 <= i < |es| && 0 <= j < |es| && es[i].key == es[j].key ==> SameEvent(es[i], es[j])
  }

  /** Two copies of one key differ in block or compared data; where they were found may differ. */
  ghost predicate Conflicting(es: seq<Event>) {
    exists i, j :: 0 <= i < |es| && 0 <= j < |es| && es[i].key == es[j].key && (es[i].block != es[j].block || es[i].body != es[j].body)
  }

  lemma ConflictingIff(es: seq<Event>)
    ensures Conflicting(es) <==> !Consistent(es)
  {
    if !Consistent(es) {
      var i, j :| 0 <= i < |es| && 0 <= j < |es| && es[i].key == es[j].key && !SameEvent(es[i], es[j]);
    }
  }

  /** `e` is the first event of `es` with its key. */
  ghost predicate IsFirst(es: seq<Event>, e: Event) {
    exists k :: 0 <= k < |es| && es[k] == e && forall m :: 0 <= m < k ==> es[m].key != e.key
  }

  ghost predicate StrictlySorted(c: seq<Event>) {
    forall i, j :: 0 <= i < j < |c| ==> KeyLe(c[i].key, c[j].key) && c[i].key != c[j].key
  }

  /** `c` holds exactly the first event of every key, in key order. */
  ghost predicate IsCanonical(c: seq<Event>, es: seq<Event>) {
    StrictlySorted(c) && forall e :: e in c <==> IsFirst(es, e)
  }

  lemma HeadIsLeast(c: seq<Event>, e: Event)
    requires StrictlySorted(c) && e in c
    ensures KeyLe(c[0].key, e.key) && (e.key == c[0].key ==> e == c[0])
  {
    KeyOrder();
    var i :| 0 <= i < |c| && c[i] == e;
  }

  /** Strictly sorted lists of the same events are the same list. */
  lemma {:induction false} SortedListUnique(a: seq<Event>, b: seq<Event>)
    requires StrictlySorted(a) && StrictlySorted(b)
    requires forall e :: e in a <==> e in b
    ensures a == b
  {
    assert b != [] ==> b[0] in b;
    if a != [] {
      assert a[0] in a && b != [];
      assert b[0] in b;
      HeadIsLeast(a, b[0]);
      HeadIsLeast(b, a[0]);
      KeyOrder();
      var a', b' := a[1..], b[1..];
      forall e ensures e in a' <==> e in b' {
        if e in a' {
          var k :| 0 <= k < |a'| && a'[k] == e;
          assert a[k + 1] == e && e in a && e in b;
          var m :| 0 <= m < |b| && b[m] == e;
          if m > 0 { assert b'[m - 1] == e; }
        }
        if e in b' {
          var k :| 0 <= k < |b'| && b'[k] == e;
          assert b[k + 1] == e && e in b && e in a;
          var m :| 0 <= m < |a| && a[m] == e;
          if m > 0 { assert a'[m - 1] == e; }
        }
      }
      SortedListUnique(a', b');
      assert a == [a[0]] + a' && b == [b[0]] + b';
    }
  }

  /** Chain, then transaction hash, by code points, then log index. */
  ghost predicate Precedes(a: EventKey, b: EventKey) {
    || Before(a.chain, b.chain)
    || (a.chain == b.chain && Before(a.txHash, b.txHash))
    || (a.chain == b.chain && a.txHash == b.txHash && a.logIndex < b.logIndex)
  }

  /** A canonical list is in the order of its keys' fields, so it has one event per key. */
  lemma CanonicalIsOrdered(c: seq<Event>, es: seq<Event>, i: nat, j: nat)
    requires IsCanonical(c, es) && i < j < |c|
    ensures Precedes(c[i].key, c[j].key) && !Precedes(c[j].key, c[i].key)
  {
    var a, b := c[i].key, c[j].key;
    assert KeyLe(a, b) && a != b;
    StringLeIff(a.chain, b.chain);
    StringLeIff(a.txHash, b.txHash);
    BeforeIsStrict(a.chain, b.chain);
    BeforeIsStrict(b.chain, a.chain);
    BeforeIsStrict(a.txHash, b.txHash);
    BeforeIsStrict(b.txHash, a.txHash);
  }

  lemma CanonicalUnique(a: seq<Event>, b: seq<Event>, es: seq<Event>)
    requires IsCanonical(a, es) && IsCanonical(b, es)
    ensures a == b
  {
    SortedListUnique(a, b);
  }

  /** Every key that occurs has a first event. */
  lemma {:induction false} FirstExists(es: seq<Event>, i: nat) returns (e: Event)
    requires i < |es|
    ensures IsFirst(es, e) && e.key == es[i].key
    decreases i
  {
    if m :| 0 <= m < i && es[m].key == es[i].key {
      e := FirstExists(es, m);
    } else {
      e := es[i];
    }
  }

  /** `e` stands at `k`, before any other copy of its key. */
  ghost predicate FirstAt(es: seq<Event>, e: Event, k: nat) {
    k < |es| && es[k] == e && forall m :: 0 <= m < k ==> es[m].key != e.key
  }

  lemma FirstPosition(es: seq<Event>, e: Event) returns (k: nat)
    requires IsFirst(es, e)
    ensures FirstAt(es, e, k)
  {
    k :| 0 <= k < |es| && es[k] == e && forall m :: 0 <= m < k ==> es[m].key != e.key;
  }

  /** A position in a concatenation, seen from the left part and from the right one. */
  lemma FirstAtConcat(a: seq<Event>, b: seq<Event>, e: Event, k: nat)
    ensures k < |a| ==> (FirstAt(a + b, e, k) <==> FirstAt(a, e, k))
    ensures k >= |a| ==> (FirstAt(a + b, e, k) <==> FirstAt(b, e, k - |a|) && forall x :: x in a ==> x.key != e.key)
  {
    var c := a + b;
    assert forall m :: 0 <= m < |a| ==> c[m] == a[m];
    assert forall m :: 0 <= m < |b| ==> c[m + |a|] == b[m];
    if k >= |a| && FirstAt(c, e, k) {
      forall x | x in a ensures x.key != e.key {
        var i :| 0 <= i < |a| && a[i] == x;
        assert c[i] == x;
      }
      forall m | 0 <= m < k - |a| ensures b[m].key != e.key { assert c[m + |a|] == b[m]; }
    }
    if k >= |a| && FirstAt(b, e, k - |a|) && forall x :: x in a ==> x.key != e.key {
      forall m | 0 <= m < k ensures c[m].key != e.key {
        if m < |a| { assert a[m] in a; } else { assert c[m] == b[m - |a|]; }
      }
    }
  }

  /** First events of a concatenation: those of the left part, then new keys of the right. */
  lemma FirstOfConcat(a: seq<Event>, b: seq<Event>, e: Event)
    ensures IsFirst(a + b, e) <==> IsFirst(a, e) || (IsFirst(b, e) && forall x :: x in a ==> x.key != e.key)
  {
    if IsFirst(a + b, e) {
      var k := FirstPosition(a + b, e);
      FirstAtConcat(a, b, e, k);
      if k < |a| { assert FirstAt(a, e, k); } else { assert FirstAt(b, e, k - |a|); }
    }
    if IsFirst(a, e) {
      var k := FirstPosition(a, e);
      FirstAtConcat(a, b, e, k);
      assert FirstAt(a + b, e, k);
    }
    if IsFirst(b, e) && forall x :: x in a ==> x.key != e.key {
      var k := FirstPosition(b, e);
      FirstAtConcat(a, b, e, k + |a|);
      assert FirstAt(a + b, e, k + |a|);
    }
  }

  /** The keys of a canonical list are the keys of its source. */
  lemma CanonicalKeys(c: seq<Event>, es: seq<Event>, k: EventKey)
    requires IsCanonical(c, es)
    ensures (exists x :: x in c && x.key == k) <==> (exists x :: x in es && x.key == k)
  {
    if x :| x in c && x.key == k {
      assert IsFirst(es, x);
      assert x in es;
    }
    if x :| x in es && x.key == k {
      var i :| 0 <= i < |es| && es[i] == x;
      var e := FirstExists(es, i);
      assert e in c;
    }
  }

  /** A canonical list is its own list of first events. */
  lemma CanonicalFirst(c: seq<Event>, e: Event)
    requires StrictlySorted(c)
    ensures IsFirst(c, e) <==> e in c
  {
    if e in c {
      var k :| 0 <= k < |c| && c[k] == e;
      assert forall m :: 0 <= m < k ==> c[m].key != e.key;
    }
  }

  /** Merging canonical parts has the same first events as merging the parts themselves. */
  lemma PremergeKeepsFirst(a: seq<Event>, b: seq<Event>, ca: seq<Event>, cb: seq<Event>, e: Event)
    requires IsCanonical(ca, a) && IsCanonical(cb, b)
    ensures IsFirst(ca + cb, e) <==> IsFirst(a + b, e)
  {
    FirstOfConcat(ca, cb, e);
    FirstOfConcat(a, b, e);
    CanonicalFirst(ca, e);
    CanonicalFirst(cb, e);
    CanonicalKeys(ca, a, e.key);
  }

  lemma PremergeKeepsCanonical(a: seq<Event>, b: seq<Event>, ca: seq<Event>, cb: seq<Event>, c: seq<Event>)
    requires IsCanonical(ca, a) && IsCanonical(cb, b) && IsCanonical(c, ca + cb)
    ensures IsCanonical(c, a + b)
  {
    forall e ensures e in c <==> IsFirst(a + b, e) {
      PremergeKeepsFirst(a, b, ca, cb, e);
    }
  }

  /** Merging canonical parts conflicts exactly when merging the parts themselves does. */
  lemma PremergeKeepsConflicts(a: seq<Event>, b: seq<Event>, ca: seq<Event>, cb: seq<Event>)
    requires IsCanonical(ca, a) && IsCanonical(cb, b) && Consistent(a) && Consistent(b)
    ensures Consistent(ca + cb) <==> Consistent(a + b)
  {
    if Consistent(a + b) {
      forall i, j | 0 <= i < |ca + cb| && 0 <= j < |ca + cb| && (ca + cb)[i].key == (ca + cb)[j].key
        ensures SameEvent((ca + cb)[i], (ca + cb)[j])
      {
        InSource(a, b, ca, cb, (ca + cb)[i]);
        InSource(a, b, ca, cb, (ca + cb)[j]);
      }
    }
    if Consistent(ca + cb) {
      forall i, j | 0 <= i < |a + b| && 0 <= j < |a + b| && (a + b)[i].key == (a + b)[j].key
        ensures SameEvent((a + b)[i], (a + b)[j])
      {
        var x := Representative(a, b, ca, cb, i);
        var y := Representative(a, b, ca, cb, j);
        var k :| 0 <= k < |ca + cb| && (ca + cb)[k] == x;
        var m :| 0 <= m < |ca + cb| && (ca + cb)[m] == y;
      }
    }
  }

  lemma InSource(a: seq<Event>, b: seq<Event>, ca: seq<Event>, cb: seq<Event>, x: Event)
    requires IsCanonical(ca, a) && IsCanonical(cb, b) && x in ca + cb
    ensures x in a + b
  {
    if x in ca { assert IsFirst(a, x); } else { assert IsFirst(b, x); }
  }

  /** Every event of the parts has an equal representative in the canonical parts. */
  lemma Representative(a: seq<Event>, b: seq<Event>, ca: seq<Event>, cb: seq<Event>, i: nat) returns (x: Event)
    requires IsCanonical(ca, a) && IsCanonical(cb, b) && Consistent(a) && Consistent(b)
    requires i < |a + b|
    ensures x in ca + cb && x.key == (a + b)[i].key && SameEvent(x, (a + b)[i])
  {
    if i < |a| {
      x := FirstExists(a, i);
      assert x in ca;
      var k :| 0 <= k < |a| && a[k] == x;
    } else {
      x := FirstExists(b, i - |a|);
      assert x in cb;
      var k :| 0 <= k < |b| && b[k] == x;
    }
  }

  /** The dictionary of the merge loop after the events `es`. */
  ghost predicate MergedSoFar(merged: map<EventKey, Event>, keys: seq<EventKey>, es: seq<Event>) {
    && (forall k :: k in merged <==> k in keys)
    && (forall k :: k in merged ==> merged[k].key == k)
    && (forall m, n :: 0 <= m < n < |keys| ==> keys[m] != keys[n])
    && (forall e :: IsFirst(es, e) <==> e.key in merged && merged[e.key] == e)
    && (forall x :: x in es ==> x.key in merged && SameEvent(x, merged[x.key]))
  }

  lemma MergeNewKey(merged: map<EventKey, Event>, keys: seq<EventKey>, es: seq<Event>, x: Event)
    requires MergedSoFar(merged, keys, es) && x.key !in merged
    ensures MergedSoFar(merged[x.key := x], keys + [x.key], es + [x])
  {
    FirstAfterAppend(es, x);
  }

  lemma MergeKnownKey(merged: map<EventKey, Event>, keys: seq<EventKey>, es: seq<Event>, x: Event)
    requires MergedSoFar(merged, keys, es) && x.key in merged
    ensures SameEvent(x, merged[x.key]) ==> MergedSoFar(merged, keys, es + [x])
    ensures merged[x.key] in es
  {
    FirstAfterAppend(es, x);
    assert IsFirst(es, merged[x.key]);
  }

  lemma MergedIsConsistent(merged: map<EventKey, Event>, keys: seq<EventKey>, es: seq<Event>)
    requires MergedSoFar(merged, keys, es)
    ensures Consistent(es)
  {
    forall i, j | 0 <= i < |es| && 0 <= j < |es| && es[i].key == es[j].key ensures SameEvent(es[i], es[j]) {
      assert es[i] in es && es[j] in es;
    }
  }

  /** Refused when two copies of a key differ, else the canonical list of all events given. */
  method MergeEvents(existing: seq<Event>, discovered: seq<Event>) returns (r: Result<seq<Event>, EventKey>)
    ensures r.Success? <==> Consistent(existing + discovered)
    ensures r.Success? <==> !Conflicting(existing + discovered)
    ensures r.Success? ==> IsCanonical(r.value, existing + discovered)
  {
    ConflictingIff(existing + discovered);
    var all := existing + discovered;
    var merged: map<EventKey, Event> := map[];
    var keys: seq<EventKey> := [];
    for i := 0 to |all|
      invariant MergedSoFar(merged, keys, all[..i])
    {
      var event := all[i];
      assert all[..i + 1] == all[..i] + [event];
      if event.key in merged {
        MergeKnownKey(merged, keys, all[..i], event);
        if !SameEvent(event, merged[event.key]) {
          var m :| 0 <= m < i && all[m] == merged[event.key];
          assert !SameEvent(all[i], all[m]);
          return Failure(event.key);
        }
      } else {
        MergeNewKey(merged, keys, all[..i], event);
        merged := merged[event.key := event];
        keys := keys + [event.key];
      }
    }
    assert all[..|all|] == all;
    MergedIsConsistent(merged, keys, all);
    r := Success(InKeyOrder(merged, keys));
    Arranged(merged, keys, all);
  }

  lemma FirstAfterAppend(es: seq<Event>, x: Event)
    ensures forall e :: IsFirst(es + [x], e) <==> IsFirst(es, e) || (e == x && forall y :: y in es ==> y.key != x.key)
  {
    forall e ensures IsFirst(es + [x], e) <==> IsFirst(es, e) || (e == x && forall y :: y in es ==> y.key != x.key) {
      FirstOfConcat(es, [x], e);
      if IsFirst([x], e) {
        var k :| 0 <= k < 1 && [x][k] == e;
      }
      assert [x][0] == x && IsFirst([x], x);
    }
  }

  /** `tuple(merged[key] for key in sorted(merged))`. */
  function InKeyOrder(merged: map<EventKey, Event>, keys: seq<EventKey>): seq<Event>
    requires forall k :: k in merged <==> k in keys
  {
    KeyOrder();
    SortOrdersAndPermutes(keys, KeyLe);
    var sorted := Sort(keys, KeyLe);
    seq(|sorted|, i requires 0 <= i < |sorted| && sorted[i] in merged => merged[sorted[i]])
  }

  lemma Arranged(merged: map<EventKey, Event>, keys: seq<EventKey>, all: seq<Event>)
    requires forall k :: k in merged <==> k in keys
    requires forall k :: k in merged ==> merged[k].key == k
    requires forall e :: IsFirst(all, e) <==> e.key in merged && merged[e.key] == e
    requires forall m, n :: 0 <= m < n < |keys| ==> keys[m] != keys[n]
    ensures IsCanonical(InKeyOrder(merged, keys), all)
  {
    KeyOrder();
    SortOrdersAndPermutes(keys, KeyLe);
    var sorted, c := Sort(keys, KeyLe), InKeyOrder(merged, keys);
    forall i, j | 0 <= i < j < |c| ensures KeyLe(c[i].key, c[j].key) && c[i].key != c[j].key {
      DistinctAfterSort(keys, sorted, i, j);
    }
    forall e ensures e in c <==> IsFirst(all, e) {
      if IsFirst(all, e) {
        assert e.key in sorted;
        var i :| 0 <= i < |sorted| && sorted[i] == e.key;
        assert c[i] == e;
      }
      if e in c {
        var i :| 0 <= i < |c| && c[i] == e;
        assert sorted[i] in keys;
      }
    }
  }

  /** A permutation of distinct keys has distinct keys. */
  lemma DistinctAfterSort(keys: seq<EventKey>, sorted: seq<EventKey>, i: nat, j: nat)
    requires multiset(keys) == multiset(sorted)
    requires forall m, n :: 0 <= m < n < |keys| ==> keys[m] != keys[n]
    requires i < j < |sorted|
    ensures sorted[i] != sorted[j]
  {
    if sorted[i] == sorted[j] {
      var k := sorted[i];
      assert sorted == sorted[..i] + [k] + sorted[i + 1..j] + [k] + sorted[j + 1..];
      assert multiset(sorted)[k] >= 2;
      OccursOnce(keys, k);
      assert false;
    }
  }

  lemma {:induction false} OccursOnce(keys: seq<EventKey>, k: EventKey)
    requires forall m, n :: 0 <= m < n < |keys| ==> keys[m] != keys[n]
    ensures multiset(keys)[k] <= 1
  {
    if keys != [] {
      assert keys == [keys[0]] + keys[1..];
      OccursOnce(keys[1..], k);
      if keys[0] == k { assert k !in keys[1..]; }
    }
  }
}
