/**
 * The keyed lock kept in one database table: a row per key with its holder and its expiry, every
 * operation one statement evaluated against the database's clock.
 */
module KeyedLocks {

  datatype Lock = Lock(holder: string, acquiredAt: int, expiresAt: int)

  type Table = map<string, Lock>

  const NANOS_PER_MILLI: int := 1_000_000
  const DEFAULT_TTL_NANOS: int := 300_000 * NANOS_PER_MILLI

  /** Non-positive ttls mean five minutes; the rest is cut down to whole milliseconds. */
  function TtlMillis(ttlNanos: int): int {
    (if ttlNanos <= 0 then DEFAULT_TTL_NANOS else ttlNanos) / NANOS_PER_MILLI
  }

  /** A ttl lasts to the last whole millisecond it covers; no ttl at all lasts five minutes. */
  predicate Lasts(ttlNanos: int, millis: int) {
    if ttlNanos <= 0 then millis == 5 * 60 * 1000 else millis * 1_000_000 <= ttlNanos < (millis + 1) * 1_000_000
  }

  lemma TtlsLast(ttlNanos: int)
    ensures Lasts(ttlNanos, TtlMillis(ttlNanos))
  {
    if ttlNanos > 0 {
      assert ttlNanos == ttlNanos / NANOS_PER_MILLI * NANOS_PER_MILLI + ttlNanos % NANOS_PER_MILLI;
    }
  }

  predicate IsLive(t: Table, key: string, now: int) {
    key in t && t[key].expiresAt > now
  }

  predicate HoldsLive(t: Table, holder: string, now: int) {
    exists key :: key in t && t[key].holder == holder && t[key].expiresAt > now
  }

  datatype Acquisition = Acquired | AlreadyHeld | StatementFailed

  // ----- what each statement does to the table -----

  function AcquireRow(t: Table, key: string, holder: string, ttlNanos: int, now: int): Table {
    if IsLive(t, key, now) then t else t[key := Lock(holder, now, now + TtlMillis(ttlNanos))]
  }

  function ReleaseRows(t: Table, holder: string): Table {
    map key | key in t && t[key].holder != holder :: t[key]
  }

  function RefreshRows(t: Table, holder: string, ttlNanos: int, now: int): Table {
    map key | key in t ::
      if t[key].holder == holder then t[key].(expiresAt := now + TtlMillis(ttlNanos)) else t[key]
  }

  function ReapRows(t: Table, now: int): Table {
    map key | key in t && t[key].expiresAt > now :: t[key]
  }

  class KeyedLockStore {
    var rows: Table

    constructor ()
      ensures rows == map[]
    {
      rows := map[];
    }

    /** Inserts the row, or takes over one that has expired; a live row blocks the caller. */
    method Acquire(key: string, holder: string, ttlNanos: int, now: int) returns (r: Acquisition)
      modifies this
      ensures r.StatementFailed? ==> rows == old(rows)
      ensures !r.StatementFailed? ==> rows == AcquireRow(old(rows), key, holder, ttlNanos, now)
      ensures !r.StatementFailed? ==> (r.AlreadyHeld? <==> IsLive(old(rows), key, now))
      ensures r.Acquired? ==> key in rows && rows[key].holder == holder && rows[key].acquiredAt == now
      ensures r.Acquired? ==> Lasts(ttlNanos, rows[key].expiresAt - now)
    {
      TtlsLast(ttlNanos);
      if * {
        return StatementFailed;
      }
      var ttl := ttlNanos;
      if ttl <= 0 {
        ttl := DEFAULT_TTL_NANOS;
      }
      if key !in rows || rows[key].expiresAt <= now {
        rows := rows[key := Lock(holder, now, now + ttl / NANOS_PER_MILLI)];
        return Acquired;
      }
      return AlreadyHeld;
    }

    /** Deletes every row of the holder, expired ones included, and no other. */
    method Release(holder: string) returns (ok: bool, deleted: int)
      modifies this
      ensures !ok ==> rows == old(rows)
      ensures ok ==> rows == ReleaseRows(old(rows), holder) && deleted == |old(rows)| - |rows|
    {
      if * {
        return false, 0;
      }
      var before := |rows|;
      rows := map key | key in rows && rows[key].holder != holder :: rows[key];
      return true, before - |rows|;
    }

    /** Moves the expiry of every row of the holder, expired ones included, and says how many there are. */
    method Refresh(holder: string, ttlNanos: int, now: int) returns (ok: bool, refreshed: int)
      modifies this
      ensures !ok ==> rows == old(rows)
      ensures ok ==> rows == RefreshRows(old(rows), holder, ttlNanos, now)
      ensures ok ==> refreshed == |set key | key in old(rows) && old(rows)[key].holder == holder|
      ensures ok ==> rows.Keys == old(rows).Keys
      ensures ok ==> forall key :: key in rows && rows[key].holder == holder ==>
        Lasts(ttlNanos, rows[key].expiresAt - now) && rows[key].acquiredAt == old(rows)[key].acquiredAt
    {
      TtlsLast(ttlNanos);
      if * {
        return false, 0;
      }
      var ttl := ttlNanos;
      if ttl <= 0 {
        ttl := DEFAULT_TTL_NANOS;
      }
      refreshed := |set key | key in rows && rows[key].holder == holder|;
      rows := map key | key in rows ::
        if rows[key].holder == holder then rows[key].(expiresAt := now + ttl / NANOS_PER_MILLI) else rows[key];
      ok := true;
    }

    method IsHeldBy(holder: string, now: int) returns (ok: bool, held: bool)
      ensures ok ==> held == HoldsLive(rows, holder, now)
    {
      if * {
        return false, false;
      }
      return true, exists key :: key in rows && rows[key].holder == holder && rows[key].expiresAt > now;
    }

    /** Deletes the expired rows and no other. */
    method ReapExpired(now: int) returns (ok: bool, deleted: int)
      modifies this
      ensures !ok ==> rows == old(rows)
      ensures ok ==> rows == ReapRows(old(rows), now) && deleted == |old(rows)| - |rows|
    {
      if * {
        return false, 0;
      }
      var before := |rows|;
      rows := map key | key in rows && rows[key].expiresAt > now :: rows[key];
      return true, before - |rows|;
    }
  }

  /** A lock is alive right after it was acquired unless the ttl was positive but below a millisecond. */
  lemma AcquiredLocksAreLive(t: Table, key: string, holder: string, ttlNanos: int, now: int)
    requires !IsLive(t, key, now)
    ensures IsLive(AcquireRow(t, key, holder, ttlNanos, now), key, now) <==>
      ttlNanos <= 0 || ttlNanos >= NANOS_PER_MILLI
  {
  }

  // ----- runs -----

  datatype Op =
    | Acquire(key: string, holder: string, ttlNanos: int, now: int)
    | Release(holder: string, now: int)
    | Refresh(holder: string, ttlNanos: int, now: int)
    | IsHeldBy(holder: string, now: int)
    | ReapExpired(now: int)

  function Perform(t: Table, op: Op): Table {
    match op
    case Acquire(key, holder, ttl, now) => AcquireRow(t, key, holder, ttl, now)
    case Release(holder, _) => ReleaseRows(t, holder)
    case Refresh(holder, ttl, now) => RefreshRows(t, holder, ttl, now)
    case IsHeldBy(_, _) => t
    case ReapExpired(now) => ReapRows(t, now)
  }

  function PerformAll(t: Table, ops: seq<Op>): Table
    decreases |ops|
  {
    if ops == [] then t else PerformAll(Perform(t, ops[0]), ops[1..])
  }

  /** The database's clock never goes back. */
  predicate Monotone(ops: seq<Op>, from: int) {
    ops == [] || (ops[0].now >= from && Monotone(ops[1..], ops[0].now))
  }

  predicate Succeeds(t: Table, op: Op)
    requires op.Acquire?
  {
    !IsLive(t, op.key, op.now)
  }

  // ----- exclusivity -----

  /** Nobody takes the key over and the holder does not release it. */
  predicate LeavesAlone(t: Table, ops: seq<Op>, key: string, holder: string)
    decreases |ops|
  {
    ops == [] ||
    (&& !(ops[0].Acquire? && ops[0].key == key && Succeeds(t, ops[0]))
     && !(ops[0].Release? && ops[0].holder == holder)
     && LeavesAlone(Perform(t, ops[0]), ops[1..], key, holder))
  }

  /** When the holder's lock on the key runs out: its expiry, as moved by refreshes while the row existed. */
  function Deadline(t: Table, ops: seq<Op>, key: string, holder: string, expiry: int): int
    decreases |ops|
  {
    if ops == [] then expiry
    else
      var refreshed := ops[0].Refresh? && ops[0].holder == holder && key in t;
      Deadline(Perform(t, ops[0]), ops[1..], key, holder,
               if refreshed then ops[0].now + TtlMillis(ops[0].ttlNanos) else expiry)
  }

  function LastTime(ops: seq<Op>, from: int): int {
    if ops == [] then from else LastTime(ops[1..], ops[0].now)
  }

  /** The holder's row with that expiry, or no row because it expired and was deleted. */
  predicate HeldUntil(t: Table, key: string, holder: string, expiry: int, now: int) {
    if key in t then t[key].holder == holder && t[key].expiresAt == expiry else expiry <= now
  }

  lemma {:induction false} HeldUntilTheDeadline(t: Table, ops: seq<Op>, key: string, holder: string, expiry: int,
      now: int)
    requires HeldUntil(t, key, holder, expiry, now) && Monotone(ops, now) && LeavesAlone(t, ops, key, holder)
    ensures HeldUntil(PerformAll(t, ops), key, holder, Deadline(t, ops, key, holder, expiry), LastTime(ops, now))
    ensures LastTime(ops, now) >= now
    decreases |ops|
  {
    if ops != [] {
      var refreshed := ops[0].Refresh? && ops[0].holder == holder && key in t;
      HeldUntilTheDeadline(Perform(t, ops[0]), ops[1..], key, holder,
                           if refreshed then ops[0].now + TtlMillis(ops[0].ttlNanos) else expiry, ops[0].now);
    }
  }

  /**
   * Once a holder has acquired a key and has not released it, the next attempt by anybody to take
   * the key succeeds if and only if the holder's deadline has passed.
   */
  lemma ExclusiveUntilTheDeadline(t: Table, first: Op, ops: seq<Op>, second: Op)
    requires first.Acquire? && second.Acquire? && second.key == first.key
    requires Succeeds(t, first) && Monotone(ops, first.now) && second.now >= LastTime(ops, first.now)
    requires LeavesAlone(Perform(t, first), ops, first.key, first.holder)
    ensures var t1 := Perform(t, first);
      Succeeds(PerformAll(t1, ops), second)
      <==> Deadline(t1, ops, first.key, first.holder, first.now + TtlMillis(first.ttlNanos)) <= second.now
  {
    HeldUntilTheDeadline(Perform(t, first), ops, first.key, first.holder, first.now + TtlMillis(first.ttlNanos),
        first.now);
  }

  // ----- reaping -----

  /** small came out of big by deleting rows that had expired by now. */
  predicate Reaped(big: Table, small: Table, now: int) {
    && (forall key :: key in small ==> key in big && big[key] == small[key])
    && (forall key :: key in big && big[key].expiresAt > now ==> key in small)
  }

  /** No row of the holder has expired. */
  predicate InTime(t: Table, holder: string, now: int) {
    forall key :: key in t && t[key].holder == holder ==> t[key].expiresAt > now
  }

  /** What the caller of an operation learns from it about who holds what. */
  function Answer(t: Table, op: Op): bool {
    match op
    case Acquire(key, _, _, now) => !IsLive(t, key, now)
    case IsHeldBy(holder, now) => HoldsLive(t, holder, now)
    case _ => true
  }

  lemma ReapingIsInvisibleNow(big: Table, small: Table, op: Op, from: int)
    requires Reaped(big, small, from) && op.now >= from && !op.ReapExpired?
    requires op.Refresh? ==> InTime(big, op.holder, op.now)
    ensures Answer(big, op) == Answer(small, op)
    ensures Reaped(Perform(big, op), Perform(small, op), op.now)
  {
  }

  lemma ReapingMore(big: Table, small: Table, now: int, from: int)
    requires Reaped(big, small, from) && now >= from
    ensures Reaped(big, ReapRows(small, now), now)
  {
  }

  function WithoutReaping(ops: seq<Op>): seq<Op> {
    if ops == [] then []
    else (if ops[0].ReapExpired? then [] else [ops[0]]) + WithoutReaping(ops[1..])
  }

  function Answers(t: Table, ops: seq<Op>): seq<bool>
    decreases |ops|
  {
    if ops == [] then []
    else (if ops[0].ReapExpired? then [] else [Answer(t, ops[0])]) + Answers(Perform(t, ops[0]), ops[1..])
  }

  /** Every refresh comes before any lock of its holder has expired, in the run that never reaps. */
  predicate RefreshesInTime(t: Table, ops: seq<Op>)
    decreases |ops|
  {
    ops == [] ||
    (&& (ops[0].Refresh? ==> InTime(t, ops[0].holder, ops[0].now))
     && RefreshesInTime(if ops[0].ReapExpired? then t else Perform(t, ops[0]), ops[1..]))
  }

  lemma {:induction false} ReapingIsInvisible(big: Table, small: Table, ops: seq<Op>, from: int)
    requires Reaped(big, small, from) && Monotone(ops, from) && RefreshesInTime(big, ops)
    ensures Answers(small, ops) == Answers(big, WithoutReaping(ops))
    decreases |ops|
  {
    if ops != [] {
      if ops[0].ReapExpired? {
        ReapingMore(big, small, ops[0].now, from);
        ReapingIsInvisible(big, Perform(small, ops[0]), ops[1..], ops[0].now);
        assert [] + WithoutReaping(ops[1..]) == WithoutReaping(ops[1..]);
        assert [] + Answers(Perform(small, ops[0]), ops[1..]) == Answers(Perform(small, ops[0]), ops[1..]);
      } else {
        ReapingIsInvisibleNow(big, small, ops[0], from);
        ReapingIsInvisible(Perform(big, ops[0]), Perform(small, ops[0]), ops[1..], ops[0].now);
        var rest := WithoutReaping(ops[1..]);
        assert ([ops[0]] + rest)[0] == ops[0] && ([ops[0]] + rest)[1..] == rest;
      }
    }
  }

  /** Reaping at any points of a run changes no answer, as long as nobody refreshes an expired lock. */
  lemma ReapAtWill(t: Table, ops: seq<Op>, from: int)
    requires Monotone(ops, from) && RefreshesInTime(t, ops)
    ensures Answers(t, ops) == Answers(t, WithoutReaping(ops))
  {
    ReapingIsInvisible(t, t, ops, from);
  }

  /**
   * The proviso is needed: a refresh brings the live locks to the same state with and without a reap
   * before it if and only if none of the holder's rows has expired (or the refresh grants no time).
   */
  lemma RefreshRevivesExpiredRows(t: Table, holder: string, ttlNanos: int, now: int)
    ensures ReapRows(RefreshRows(t, holder, ttlNanos, now), now)
         == ReapRows(RefreshRows(ReapRows(t, now), holder, ttlNanos, now), now)
      <==> InTime(t, holder, now) || TtlMillis(ttlNanos) == 0
  {
    var with := ReapRows(RefreshRows(ReapRows(t, now), holder, ttlNanos, now), now);
    var without := ReapRows(RefreshRows(t, holder, ttlNanos, now), now);
    if TtlMillis(ttlNanos) != 0 && !InTime(t, holder, now) {
      var key :| key in t && t[key].holder == holder && t[key].expiresAt <= now;
      assert TtlMillis(ttlNanos) > 0;
      assert key in without && key !in with;
    }
  }
}
