/** Versioned leases with expiry. */
module Leases {
  // Single-writer leases; every mutation bumps the version (warehouse/leases.py).

  import opened Wrappers
  import opened Control

  datatype LeaseIdentity = LeaseIdentity(pipelineName: string, sourceName: string, chainId: int)

  datatype LeaseRow = LeaseRow(
    owner: Option<string>, acquiredAt: Option<Instant>, expiresAt: Option<Instant>, version: int)

  datatype LeaseHandle = LeaseHandle(owner: string, acquiredAt: Instant, expiresAt: Instant, version: int)

  datatype LeaseError = InvalidArgument | Held | Conflict | NotOwner | BadState

  predicate IsActive(row: LeaseRow, now: Instant) {
    row.owner.Some? && row.expiresAt.Some? && row.expiresAt.value > now
  }

  /** The acquire update's predicate; a null expiry of an owned row never compares true. */
  predicate AcquireMatches(row: LeaseRow, observedVersion: int, now: Instant) {
    && row.version == observedVersion
    && (row.owner.None? || (row.expiresAt.Some? && row.expiresAt.value <= now))
  }

  /** Nobody holds the lease, or its expiry has come. */
  ghost predicate FreeOrExpired(row: LeaseRow, now: Instant) {
    row.owner == None || exists expiry :: row.expiresAt == Some(expiry) && expiry <= now
  }

  ghost predicate ExpiresAfter(row: LeaseRow, now: Instant) {
    exists expiry :: row.expiresAt == Some(expiry) && now < expiry
  }

  /** Renewal and release match on the owner and version of the handle alone. */
  predicate HandleMatches(row: LeaseRow, h: LeaseHandle) {
    row.owner == Some(h.owner) && row.version == h.version
  }

  /** One lease mutation; `observed` is the version a contender read before its update. */
  datatype LeaseOp =
    | Acquire(observed: int, owner: string, now: Instant, ttl: int)
    | Renew(handle: LeaseHandle, now: Instant, ttl: int)
    | Release(handle: LeaseHandle)

  predicate Accepts(row: LeaseRow, op: LeaseOp) {
    match op
    case Acquire(observed, owner, now, ttl) => Strip(owner) != [] && ttl > 0 && AcquireMatches(row, observed, now)
    case Renew(h, now, ttl) => ttl > 0 && HandleMatches(row, h)
    case Release(h) => HandleMatches(row, h)
  }

  function Apply(row: LeaseRow, op: LeaseOp): LeaseRow {
    if !Accepts(row, op) then row
    else
      match op
      case Acquire(observed, owner, now, ttl) => LeaseRow(Some(Strip(owner)), Some(now), Some(now + ttl), row.version + 1)
      case Renew(h, now, ttl) => row.(expiresAt := Some(now + ttl), version := h.version + 1)
      case Release(h) => LeaseRow(None, None, None, h.version + 1)
  }

  /** The token an accepted mutation hands back. */
  function IssuedHandle(row: LeaseRow, op: LeaseOp): Option<LeaseHandle> {
    if !Accepts(row, op) then None
    else
      match op
      case Acquire(observed, owner, now, ttl) => Some(LeaseHandle(Strip(owner), now, now + ttl, row.version + 1))
      case Renew(h, now, ttl) => Some(LeaseHandle(h.owner, h.acquiredAt, now + ttl, h.version + 1))
      case Release(h) => None
  }

  /** One pre-provisioned row per identity. */
  class LeaseStore {
    var rows: map<LeaseIdentity, LeaseRow>

    constructor (provisioned: map<LeaseIdentity, LeaseRow>)
      ensures rows == provisioned
    {
      rows := provisioned;
    }

    /** Take a free or expired lease; success is exactly acceptance of the version just read. */
    method AcquireLease(id: LeaseIdentity, owner: string, ttl: int, now: Instant)
      returns (r: Result<LeaseHandle, LeaseError>)
      modifies this
      ensures r.Success? <==> id in old(rows) && Accepts(old(rows)[id], Acquire(old(rows)[id].version, owner, now, ttl))
      ensures r.Failure? ==> rows == old(rows)
      ensures r.Success? ==>
                var op := Acquire(old(rows)[id].version, owner, now, ttl);
                Some(r.value) == IssuedHandle(old(rows)[id], op) && rows == old(rows)[id := Apply(old(rows)[id], op)]
      ensures r.Success? <==> Strip(owner) != [] && ttl > 0 && id in old(rows) && FreeOrExpired(old(rows)[id], now)
      ensures r.Success? ==>
                var version := old(rows)[id].version + 1;
                && r.value == LeaseHandle(Strip(owner), now, now + ttl, version)
                && rows == old(rows)[id := LeaseRow(Some(Strip(owner)), Some(now), Some(now + ttl), version)]
      ensures r == Failure(Held) <==> Strip(owner) != [] && ttl > 0 && id in old(rows)
                                      && old(rows)[id].owner.Some? && ExpiresAfter(old(rows)[id], now)
    {
      if Strip(owner) == [] || ttl <= 0 {
        return Failure(InvalidArgument);
      }
      if id !in rows {
        return Failure(BadState);
      }
      var state := rows[id];
      if IsActive(state, now) {
        return Failure(Held);
      }
      var newVersion := state.version + 1;
      if !AcquireMatches(rows[id], state.version, now) {
        return Failure(Conflict);
      }
      rows := rows[id := LeaseRow(Some(Strip(owner)), Some(now), Some(now + ttl), newVersion)];
      return Success(LeaseHandle(Strip(owner), now, now + ttl, newVersion));
    }

    method RenewLease(id: LeaseIdentity, h: LeaseHandle, ttl: int, now: Instant)
      returns (r: Result<LeaseHandle, LeaseError>)
      modifies this
      ensures r.Success? <==> id in old(rows) && Accepts(old(rows)[id], Renew(h, now, ttl))
      ensures r.Failure? ==> rows == old(rows)
      ensures r.Success? ==>
                && Some(r.value) == IssuedHandle(old(rows)[id], Renew(h, now, ttl))
                && rows == old(rows)[id := Apply(old(rows)[id], Renew(h, now, ttl))]
      ensures r.Success? <==> ttl > 0 && id in old(rows) && old(rows)[id].owner == Some(h.owner) && old(rows)[id].version == h.version
      ensures r.Success? ==>
                && r.value == LeaseHandle(h.owner, h.acquiredAt, now + ttl, h.version + 1)
                && rows == old(rows)[id := LeaseRow(Some(h.owner), old(rows)[id].acquiredAt, Some(now + ttl), h.version + 1)]
    {
      if ttl <= 0 {
        return Failure(InvalidArgument);
      }
      if id !in rows || !HandleMatches(rows[id], h) {
        return Failure(NotOwner);
      }
      rows := rows[id := rows[id].(expiresAt := Some(now + ttl), version := h.version + 1)];
      return Success(LeaseHandle(h.owner, h.acquiredAt, now + ttl, h.version + 1));
    }

    method ReleaseLease(id: LeaseIdentity, h: LeaseHandle)
      returns (r: Result<LeaseRow, LeaseError>)
      modifies this
      ensures r.Success? <==> id in old(rows) && Accepts(old(rows)[id], Release(h))
      ensures r.Failure? ==> rows == old(rows)
      ensures r.Success? ==>
                r.value == Apply(old(rows)[id], Release(h)) && rows == old(rows)[id := r.value]
      ensures r.Success? <==> id in old(rows) && old(rows)[id].owner == Some(h.owner) && old(rows)[id].version == h.version
      ensures r.Success? ==> r.value == LeaseRow(None, None, None, h.version + 1)
    {
      if id !in rows || !HandleMatches(rows[id], h) {
        return Failure(NotOwner);
      }
      var released := LeaseRow(None, None, None, h.version + 1);
      rows := rows[id := released];
      return Success(released);
    }
  }

  /** The row after the first `n` attempted mutations, by any number of runs in any order. */
  ghost function RowAfter(row: LeaseRow, ops: seq<LeaseOp>, n: nat): LeaseRow
    requires n <= |ops|
  {
    if n == 0 then row else Apply(RowAfter(row, ops, n - 1), ops[n - 1])
  }

  ghost predicate AcceptedAt(row: LeaseRow, ops: seq<LeaseOp>, i: nat) {
    i < |ops| && Accepts(RowAfter(row, ops, i), ops[i])
  }

  ghost function HandleAt(row: LeaseRow, ops: seq<LeaseOp>, i: nat): Option<LeaseHandle>
    requires i < |ops|
  {
    IssuedHandle(RowAfter(row, ops, i), ops[i])
  }

  ghost predicate NullTogether(row: LeaseRow) {
    && (row.owner.None? <==> row.expiresAt.None?)
    && (row.owner.None? <==> row.acquiredAt.None?)
  }

  /** Owner, acquisition and expiry are null together in every reachable state. */
  lemma {:induction false} NullTogetherAlways(row: LeaseRow, ops: seq<LeaseOp>, n: nat)
    requires n <= |ops| && NullTogether(row)
    ensures var after := RowAfter(row, ops, n);
      (after.owner == None <==> after.expiresAt == None) && (after.owner == None <==> after.acquiredAt == None)
  {
    if n > 0 { NullTogetherAlways(row, ops, n - 1); }
  }

  /** The version never falls, and rises by one at each accepted mutation and only there. */
  lemma {:induction false} VersionRises(row: LeaseRow, ops: seq<LeaseOp>, i: nat, n: nat)
    requires i <= n <= |ops|
    ensures RowAfter(row, ops, i).version <= RowAfter(row, ops, n).version
    ensures RowAfter(row, ops, i).version == RowAfter(row, ops, n).version <==>
            forall k :: i <= k < n ==> !AcceptedAt(row, ops, k)
    ensures (forall k :: i <= k < n ==> !AcceptedAt(row, ops, k)) ==> RowAfter(row, ops, i) == RowAfter(row, ops, n)
    decreases n
  {
    if i < n {
      VersionRises(row, ops, i, n - 1);
      if AcceptedAt(row, ops, n - 1) {
        assert RowAfter(row, ops, n).version == RowAfter(row, ops, n - 1).version + 1;
        assert !(forall k :: i <= k < n ==> !AcceptedAt(row, ops, k));
      }
    }
  }

  /**
   A handle that any later mutation superseded (a takeover, its own renewal, its release)
   can never again renew or release, even when its owner holds the lease again.
   */
  lemma {:induction false} SupersededHandleRejected(row: LeaseRow, ops: seq<LeaseOp>, i: nat, k: nat, n: nat, now: Instant, ttl: int)
    requires i < k < n <= |ops|
    requires HandleAt(row, ops, i).Some? && AcceptedAt(row, ops, k)
    ensures !Accepts(RowAfter(row, ops, n), Renew(HandleAt(row, ops, i).value, now, ttl))
    ensures !Accepts(RowAfter(row, ops, n), Release(HandleAt(row, ops, i).value))
  {
    VersionRises(row, ops, i + 1, k);
    VersionRises(row, ops, k + 1, n);
  }

  /** Of the contenders that read one version, only the first to write acquires: later ones match no row. */
  lemma {:induction false} OneContenderWins(row: LeaseRow, ops: seq<LeaseOp>, i: nat, k: nat, n: nat, owner: string, now: Instant, ttl: int)
    requires i <= k < n <= |ops| && AcceptedAt(row, ops, k)
    ensures !Accepts(RowAfter(row, ops, n), Acquire(RowAfter(row, ops, i).version, owner, now, ttl))
  {
    VersionRises(row, ops, i, k);
    VersionRises(row, ops, k + 1, n);
  }

  /** No accepted mutation lies strictly between `i` and `k`. */
  ghost predicate NextAccepted(row: LeaseRow, ops: seq<LeaseOp>, i: nat, k: nat) {
    && i < k < |ops| && AcceptedAt(row, ops, i) && AcceptedAt(row, ops, k)
    && forall m :: i < m < k ==> !AcceptedAt(row, ops, m)
  }

  /** A holder displaced without release had expired by the successor's acquisition time. */
  lemma TakeoverOnlyAfterExpiry(row: LeaseRow, ops: seq<LeaseOp>, i: nat, k: nat)
    requires NextAccepted(row, ops, i, k) && !ops[i].Release? && ops[k].Acquire?
    ensures HandleAt(row, ops, i).value.expiresAt <= HandleAt(row, ops, k).value.acquiredAt
  {
    VersionRises(row, ops, i + 1, k);
  }

  ghost function TimeOf(op: LeaseOp): Option<Instant> {
    match op
    case Acquire(_, _, now, _) => Some(now)
    case Renew(_, now, _) => Some(now)
    case Release(_) => None
  }

  /** With one non-decreasing clock, every later holder starts after the displaced one expired. */
  lemma LaterHoldersStartAfterExpiry(row: LeaseRow, ops: seq<LeaseOp>, i: nat, k: nat, m: nat)
    requires NextAccepted(row, ops, i, k) && !ops[i].Release? && ops[k].Acquire?
    requires k <= m < |ops| && ops[m].Acquire? && AcceptedAt(row, ops, m)
    requires forall a, b :: 0 <= a <= b < |ops| && TimeOf(ops[a]).Some? && TimeOf(ops[b]).Some? ==>
               TimeOf(ops[a]).value <= TimeOf(ops[b]).value
    ensures HandleAt(row, ops, i).value.expiresAt <= HandleAt(row, ops, m).value.acquiredAt
  {
    TakeoverOnlyAfterExpiry(row, ops, i, k);
    assert TimeOf(ops[k]).value <= TimeOf(ops[m]).value;
  }

  /**
   Renewal compares owner and version only. Over any run, a renewal that is accepted finds
   the lease still active exactly when the clock is before the handle's own expiry, which
   its holder can check beforehand.
   */
  lemma {:induction false} RenewalFindsActiveIff(row: LeaseRow, ops: seq<LeaseOp>, i: nat, n: nat, now: Instant, ttl: int)
    requires i < n <= |ops| && HandleAt(row, ops, i).Some?
    requires Accepts(RowAfter(row, ops, n), Renew(HandleAt(row, ops, i).value, now, ttl))
    ensures IsActive(RowAfter(row, ops, n), now) <==> now < HandleAt(row, ops, i).value.expiresAt
    ensures forall k :: i < k < n ==> !AcceptedAt(row, ops, k)
  {
    VersionRises(row, ops, i + 1, n);
  }

  /** A lease taken at 0 for 5 ticks is renewed at 10. */
  lemma ExpiredLeaseCanRenew()
    ensures var free, taken := LeaseRow(None, None, None, 0), [Acquire(0, "run", 0, 5)];
      && HandleAt(free, taken, 0).Some?
      && !IsActive(RowAfter(free, taken, 1), 10)
      && Accepts(RowAfter(free, taken, 1), Renew(HandleAt(free, taken, 0).value, 10, 1))
  {
    var free, taken := LeaseRow(None, None, None, 0), [Acquire(0, "run", 0, 5)];
    assert Strip("run") == "run" by {
      assert StripLeft("run") == "run" && StripRight("run") == "run";
    }
    assert RowAfter(free, taken, 0) == free;
    assert RowAfter(free, taken, 1) == Apply(RowAfter(free, taken, 0), taken[0]);
  }
}
