/** Expired locks: what the once-per-tick sweep does to the rows, and the full reading of an index. */
module Expiry {
  import opened Common
  import opened Bytes
  import opened HtlcKeys
  import opened ChainEvents
  import opened Replay

  function Expire(r: Htlc, h: u64): Htlc { r.(state := LockedExpired, lastIndexed := h) }

  /** The sweep at height `h` over a list of rows. */
  function SweepRows(db: Db, rows: seq<Htlc>, h: u64): Db {
    if rows == [] then db
    else
      var before := SweepRows(db, rows[..|rows|-1], h);
      var r := rows[|rows|-1];
      if h > r.params.timeout then before[Key(r) := Expire(r, h)] else before
  }

  predicate OwnKeys(db: Db) { forall k :: k in db ==> Key(db[k]) == k }

  ghost predicate LockedRows(rows: seq<Htlc>, db: Db) {
    forall r :: r in rows ==> r.state == Locked && Key(r) in db && db[Key(r)] == r
  }

  /** The locks the sweep is after. */
  predicate Overdue(r: Htlc, h: u64) { r.state == Locked && h > r.params.timeout }

  lemma {:induction false} SweepRowsAre(db: Db, rows: seq<Htlc>, h: u64)
    requires OwnKeys(db) && LockedRows(rows, db)
    ensures SweepRows(db, rows, h).Keys == db.Keys
    ensures forall k :: k in db ==>
              SweepRows(db, rows, h)[k] == if db[k] in rows && Overdue(db[k], h) then Expire(db[k], h) else db[k]
  {
    hide Key;
    if rows != [] {
      var rest := rows[..|rows|-1];
      assert rows == rest + [rows[|rows|-1]];
      SweepRowsAre(db, rest, h);
    }
  }

  /** No lock is marked expired before its timeout has passed. */
  ghost predicate NoEarlyExpiry(db: Db, h: nat) {
    forall k :: k in db && db[k].state == LockedExpired ==> db[k].params.timeout < h
  }

  ghost predicate EventInTime(e: Event, h: nat) {
    e.Lock? && e.rec.state == LockedExpired ==> e.rec.params.timeout < h
  }

  lemma ApplyInTime(db: Db, e: Event, h: nat)
    requires NoEarlyExpiry(db, h) && EventInTime(e, h)
    ensures NoEarlyExpiry(Apply(db, e), h)
  {
    hide Key, EventKey;
  }

  lemma {:induction false} ApplyAllInTime(db: Db, es: seq<Event>, h: nat)
    requires NoEarlyExpiry(db, h) && forall i :: 0 <= i < |es| ==> EventInTime(es[i], h)
    ensures NoEarlyExpiry(ApplyAll(db, es), h)
  {
    hide NoEarlyExpiry, EventInTime, Apply;
    if es != [] {
      ApplyAllInTime(db, es[..|es|-1], h);
      ApplyInTime(ApplyAll(db, es[..|es|-1]), es[|es|-1], h);
    }
  }

  lemma SweepInTime(db: Db, rows: seq<Htlc>, h: u64)
    requires OwnKeys(db) && LockedRows(rows, db) && NoEarlyExpiry(db, h)
    ensures NoEarlyExpiry(SweepRows(db, rows, h), h)
  {
    hide Key;
    SweepRowsAre(db, rows, h);
  }

  /** Progress does not look at the expiry flag. */
  lemma SweepProgress(db: Db, rows: seq<Htlc>, h: u64, g: seq<Event>, base: nat, pos: nat, high: nat)
    requires Progress(db, g, base, pos, high) && LockedRows(rows, db)
    ensures OwnKeys(db) && Progress(SweepRows(db, rows, h), g, base, pos, high)
  {
    hide Want;
    var swept := SweepRows(db, rows, h);
    assert OwnKeys(db);
    SweepRowsAre(db, rows, h);
    forall k | k in db ensures Core(swept[k]) == Core(db[k]) && Key(swept[k]) == k {}
    hide Key, Core;
    forall i, n | 0 <= i < n <= |g| && g[i].Lock? && RowReads(db, g, i, n) ensures RowReads(swept, g, i, n) {}
  }

  // ----- the full reading -----

  /** The record of a lock whose first spend is `s`, at height `h`. */
  function Reading(r: Htlc, s: Option<Spend>, h: nat): Htlc {
    match s
    case None => r.(state := if h > r.params.timeout then LockedExpired else Locked)
    case Some(Claim(c)) => r.(state := Claimed, claim := Some(c))
    case Some(Reclaim(c)) => r.(state := Reclaimed, reclaim := Some(c))
  }

  /** Up to the height it was last touched. */
  predicate SameRecord(a: Htlc, b: Htlc) { a.(lastIndexed := 0) == b.(lastIndexed := 0) }

  /** The index holds exactly the owned HTLCs locked by the first `n` events, each Claimed or Reclaimed by
      its first parseable spend, else LockedExpired iff `h` is past its timeout, else Locked. */
  ghost predicate Reads(db: Db, g: seq<Event>, n: nat, h: nat)
    requires n <= |g|
  {
    && (forall k :: k in db <==> exists i :: i < n && IsLockOf(g, i, k))
    && (forall i :: 0 <= i < n && g[i].Lock? ==> RowIs(db, g, i, n, h))
  }

  ghost predicate RowIs(db: Db, g: seq<Event>, i: nat, n: nat, h: nat)
    requires i < n <= |g| && g[i].Lock?
  {
    Key(g[i].rec) in db && SameRecord(db[Key(g[i].rec)], Reading(g[i].rec, FirstSpend(g, Key(g[i].rec), i + 1, n), h))
  }

  /** A row that reads right up to expiry reads right iff its expiry flag does. */
  lemma RowIsWhen(db: Db, g: seq<Event>, i: nat, n: nat, h: nat)
    requires WellFormed(g) && i < n <= |g| && g[i].Lock? && RowReads(db, g, i, n)
    requires NoEarlyExpiry(db, h)
    ensures RowIs(db, g, i, n, h) <==> !(db[Key(g[i].rec)].state == Locked && h > db[Key(g[i].rec)].params.timeout)
  {
    hide Key, FirstSpend;
  }

  lemma KeysAreLocks(db: Db, g: seq<Event>, n: nat)
    requires n <= |g| && RowsAreLocks(db, g, n) && ReadAs(db, g, 0, n, n)
    ensures forall k :: k in db <==> exists i :: i < n && IsLockOf(g, i, k)
  {
    hide Key, Want, Core;
    forall k | exists i :: i < n && IsLockOf(g, i, k) ensures k in db {
      var i :| i < n && IsLockOf(g, i, k);
      assert RowReads(db, g, i, n);
    }
  }

  /** When the walk stands at `n` finished events, the index reads right iff no row is overdue. */
  lemma ReadsWhen(db: Db, g: seq<Event>, n: nat, h: nat)
    requires WellFormed(g) && Progress(db, g, n, 0, 0) && NoEarlyExpiry(db, h)
    ensures Reads(db, g, n, h) <==> forall k :: k in db ==> !(db[k].state == Locked && h > db[k].params.timeout)
  {
    hide WellFormed, Key, Want, Core, NoEarlyExpiry, RowIs, RowReads;
    assert ReadAs(db, g, 0, n, n) && RowsAreLocks(db, g, n);
    KeysAreLocks(db, g, n);
    forall i | 0 <= i < n && g[i].Lock?
      ensures Key(g[i].rec) in db
              && (RowIs(db, g, i, n, h) <==> !(db[Key(g[i].rec)].state == Locked && h > db[Key(g[i].rec)].params.timeout))
    {
      assert IsLockOf(g, i, Key(g[i].rec));
      RowIsWhen(db, g, i, n, h);
    }
    if Reads(db, g, n, h) {
      forall k | k in db ensures !(db[k].state == Locked && h > db[k].params.timeout) {
        var i :| i < n && IsLockOf(g, i, k);
        assert RowIs(db, g, i, n, h);
      }
    }
  }

  /** After a sweep of a list of Locked rows, the index reads right iff the list had every overdue row. */
  lemma SweptReads(db: Db, rows: seq<Htlc>, g: seq<Event>, n: nat, h: u64)
    requires WellFormed(g) && Progress(db, g, n, 0, 0) && NoEarlyExpiry(db, h) && LockedRows(rows, db)
    ensures Reads(SweepRows(db, rows, h), g, n, h) <==> forall k :: k in db && Overdue(db[k], h) ==> db[k] in rows
  {
    hide Progress, WellFormed, NoEarlyExpiry, Reads, Key, OwnKeys, LockedRows;
    SweepProgress(db, rows, h, g, n, 0, 0);
    SweepInTime(db, rows, h);
    SweepRowsAre(db, rows, h);
    ReadsWhen(SweepRows(db, rows, h), g, n, h);
  }
}
