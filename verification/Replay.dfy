/**
 The index against a declarative reading of the chain.

 `Reads` says what a tracked HTLC must look like after the first `n` events of a chain: settled by its
 first parseable spend after its lock, otherwise unspent.  `Progress` is the invariant of an
 incremental walk that may be cut short anywhere inside a block and start that block again.
 */
module Replay {
  import opened Common
  import opened Bytes
  import opened HtlcKeys
  import opened ChainEvents

  type Db = map<Str, Htlc>

  predicate IsLockOf(g: seq<Event>, i: int, k: Str) { 0 <= i < |g| && g[i].Lock? && Key(g[i].rec) == k }

  /** Transaction ids are unique, so an outpoint is created once; a lock record starts out unspent. */
  ghost predicate WellFormed(g: seq<Event>) {
    && (forall i, j, k :: IsLockOf(g, i, k) && IsLockOf(g, j, k) ==> i == j)
    && (forall i :: 0 <= i < |g| && g[i].Lock? ==>
          g[i].rec.state in {Locked, LockedExpired} && g[i].rec.claim.None? && g[i].rec.reclaim.None?)
  }

  /** The first parseable spend of `k` among events i..n. */
  function FirstSpend(g: seq<Event>, k: Str, i: nat, n: nat): Option<Spend>
    requires n <= |g|
    decreases n - i
  {
    if i >= n then None
    else if g[i].Spent? && EventKey(g[i]) == k && g[i].spend.Some? then g[i].spend
    else FirstSpend(g, k, i + 1, n)
  }

  /** A record up to when it was last touched and whether its expiry has been noticed. */
  function Core(r: Htlc): Htlc {
    r.(lastIndexed := 0, state := if r.state == LockedExpired then Locked else r.state)
  }

  function Settled(r: Htlc, s: Option<Spend>): Htlc {
    match s
    case None => r
    case Some(Claim(c)) => r.(state := Claimed, claim := Some(c))
    case Some(Reclaim(c)) => r.(state := Reclaimed, reclaim := Some(c))
  }

  /** What the lock at event `i` reads as after `n` events. */
  function Want(g: seq<Event>, i: nat, n: nat): Htlc
    requires i < n <= |g| && g[i].Lock?
  {
    Core(Settled(g[i].rec, FirstSpend(g, Key(g[i].rec), i + 1, n)))
  }

  lemma {:induction false} FirstSpendGrows(g: seq<Event>, k: Str, i: nat, n: nat)
    requires n < |g| && i <= n
    ensures FirstSpend(g, k, i, n + 1) ==
            (if FirstSpend(g, k, i, n).Some? then FirstSpend(g, k, i, n)
             else if g[n].Spent? && EventKey(g[n]) == k then g[n].spend else None)
    decreases n - i
  {
    if i < n { FirstSpendGrows(g, k, i + 1, n); }
    else { assert FirstSpend(g, k, n + 1, n + 1) == None; }
  }

  /** Among events i..n an unspent reading means no event there is a parseable spend of `k`. */
  lemma {:induction false} NoSpendMeans(g: seq<Event>, k: Str, i: nat, n: nat, m: nat)
    requires i <= m < n <= |g| && FirstSpend(g, k, i, n).None?
    ensures !(g[m].Spent? && EventKey(g[m]) == k && g[m].spend.Some?)
    decreases n - i
  {
    if i < m { NoSpendMeans(g, k, i + 1, n, m); }
  }

  // ----- the walk -----

  /** Every row is for a lock among the first `n` events. */
  ghost predicate RowsAreLocks(db: Db, g: seq<Event>, n: nat) {
    forall k :: k in db ==> Key(db[k]) == k && exists i :: i < n && IsLockOf(g, i, k)
  }

  /** The locks among events from..to have rows, which read as after `n` events. */
  ghost predicate ReadAs(db: Db, g: seq<Event>, from: nat, to: nat, n: nat)
    requires to <= n <= |g|
  {
    forall i :: from <= i < to && g[i].Lock? ==> RowReads(db, g, i, n)
  }

  ghost predicate RowReads(db: Db, g: seq<Event>, i: nat, n: nat)
    requires i < n <= |g| && g[i].Lock?
  {
    Key(g[i].rec) in db && Core(db[Key(g[i].rec)]) == Want(g, i, n)
  }

  /** Events before `base` belong to finished blocks.  Of the block in progress, `pos` events have
      been applied in this attempt and `high` in some attempt. */
  ghost predicate Progress(db: Db, g: seq<Event>, base: nat, pos: nat, high: nat) {
    && pos <= high && base + high <= |g|
    && RowsAreLocks(db, g, base + high)
    && ReadAs(db, g, 0, base, base + high)
    && ReadAs(db, g, base, base + pos, base + pos)
  }

  lemma WantGrows(g: seq<Event>, i: nat, n: nat)
    requires i < n < |g| && g[i].Lock? && WellFormed(g)
    ensures Want(g, i, n).state in {Locked, Claimed, Reclaimed}
    ensures Want(g, i, n).state == Locked <==> FirstSpend(g, Key(g[i].rec), i + 1, n).None?
    ensures var e := g[n];
            Want(g, i, n + 1) ==
              if Want(g, i, n).state == Locked && e.Spent? && EventKey(e) == Key(g[i].rec) && e.spend.Some?
              then Core(Settle(Want(g, i, n), e.spend.value, 0)) else Want(g, i, n)
  {
    FirstSpendGrows(g, Key(g[i].rec), i + 1, n);
  }

  /** Applying one event to a row. */
  lemma RowStep(r: Htlc, s: Spend, h: u64)
    requires r.state !in {Claimed, Reclaimed}
    ensures Core(Settle(r, s, h)) == Core(Settle(Core(r), s, 0))
  {
  }

  /** Replaying an event that an earlier attempt already applied changes nothing it should not; a new
      event moves the reading forward. */
  lemma EventKeeps(db: Db, g: seq<Event>, base: nat, pos: nat, high: nat)
    requires WellFormed(g) && Progress(db, g, base, pos, high) && base + pos < |g|
    ensures Progress(Apply(db, g[base + pos]), g, base, pos + 1, Max(high, pos + 1))
  {
    hide ReadAs, WellFormed, Apply, RowsAreLocks, Key;
    KeysKept(db, g, base, pos, high);
    RowsKept(db, g, base, pos, high, 0, base, base + Max(high, pos + 1));
    RowsKept(db, g, base, pos, high, base, base + pos + 1, base + pos + 1);
  }

  lemma RowsKept(db: Db, g: seq<Event>, base: nat, pos: nat, high: nat, from: nat, to: nat, n: nat)
    requires WellFormed(g) && Progress(db, g, base, pos, high) && base + pos < |g|
    requires (to == base && n == base + Max(high, pos + 1)) || (from == base && to == n == base + pos + 1)
    ensures to <= n <= |g| && ReadAs(Apply(db, g[base + pos]), g, from, to, n)
  {
    hide RowReads, WellFormed, Apply, Progress, Key, Want, Core, RowsAreLocks;
    Bounds(db, g, base, pos, high);
    forall i | from <= i < to && g[i].Lock? ensures RowReads(Apply(db, g[base + pos]), g, i, n) {
      OneRow(db, g, base, pos, high, i);
    }
  }

  lemma Bounds(db: Db, g: seq<Event>, base: nat, pos: nat, high: nat)
    requires Progress(db, g, base, pos, high)
    ensures pos <= high && base + high <= |g|
  {
  }

  lemma KeysKept(db: Db, g: seq<Event>, base: nat, pos: nat, high: nat)
    requires Progress(db, g, base, pos, high) && base + pos < |g|
    ensures RowsAreLocks(Apply(db, g[base + pos]), g, base + Max(high, pos + 1))
  {
    hide ReadAs;
    var e := g[base + pos];
    var db' := Apply(db, e);
    forall k | k in db' ensures Key(db'[k]) == k && exists i :: i < base + Max(high, pos + 1) && IsLockOf(g, i, k) {
      if e.Lock? && k == Key(e.rec) {
        assert IsLockOf(g, base + pos, k);
      } else {
        var i :| i < base + high && IsLockOf(g, i, k);
      }
    }
  }

  /** What one event does to one row. */
  lemma ApplyRow(db: Db, e: Event, k: Str)
    requires k in db
    ensures k in Apply(db, e)
    ensures Apply(db, e)[k] ==
            if e.Lock? then (if Key(e.rec) == k then e.rec else db[k])
            else if EventKey(e) == k && db[k].state !in {Claimed, Reclaimed} && e.spend.Some?
            then Settle(db[k], e.spend.value, e.height) else db[k]
  {
  }

  lemma OneRow(db: Db, g: seq<Event>, base: nat, pos: nat, high: nat, i: nat)
    requires WellFormed(g) && Progress(db, g, base, pos, high) && base + pos < |g|
    requires i < base + pos + 1 && g[i].Lock?
    ensures RowReads(Apply(db, g[base + pos]), g, i, if i < base then base + Max(high, pos + 1) else base + pos + 1)
  {
    var n := base + pos;
    hide *;
    hide Progress, WellFormed, Apply, RowReads;
    if i == n {
      NewRow(db, g, i);
      assert base <= i;
    } else {
      RowFacts(db, g, base, pos, high, i);
      OtherLock(g, i, n);
      MaxIs(high, pos + 1);
      if i < base && pos < high {
        OldRow(db, g, base, pos, high, i);
      } else {
        NewEventRow(db, g, i, n);
      }
    }
  }

  lemma MaxIs(a: int, b: int)
    ensures Max(a, b) == if a <= b then b else a
  {
  }

  lemma NewRow(db: Db, g: seq<Event>, i: nat)
    requires WellFormed(g) && i < |g| && g[i].Lock?
    ensures RowReads(Apply(db, g[i]), g, i, i + 1)
  {
    assert FirstSpend(g, Key(g[i].rec), i + 1, i + 1) == None;
  }

  lemma RowFacts(db: Db, g: seq<Event>, base: nat, pos: nat, high: nat, i: nat)
    requires Progress(db, g, base, pos, high) && i < base + pos && g[i].Lock?
    ensures base + pos <= |g| && pos <= high && base + high <= |g|
    ensures RowReads(db, g, i, if i < base then base + high else base + pos)
    ensures Key(g[i].rec) in db && Key(db[Key(g[i].rec)]) == Key(g[i].rec)
  {
  }

  lemma OtherLock(g: seq<Event>, i: nat, n: nat)
    requires WellFormed(g) && i < n < |g| && g[i].Lock?
    ensures g[n].Lock? ==> Key(g[n].rec) != Key(g[i].rec)
  {
    assert IsLockOf(g, i, Key(g[i].rec));
    if g[n].Lock? { assert IsLockOf(g, n, Key(g[n].rec)); }
  }

  /** The block is being walked again and the row is from an earlier block: it already reflects the
      event, so the event is a no-op. */
  lemma OldRow(db: Db, g: seq<Event>, base: nat, pos: nat, high: nat, i: nat)
    requires WellFormed(g) && Progress(db, g, base, pos, high) && pos < high && i < base && g[i].Lock?
    ensures RowReads(Apply(db, g[base + pos]), g, i, base + high)
  {
    hide Progress, WellFormed, Key, Apply, EventKey, FirstSpend, Want, Core;
    Bounds(db, g, base, pos, high);
    var k := Key(g[i].rec);
    RowFacts(db, g, base, pos, high, i);
    OtherLock(g, i, base + pos);
    SettledRow(db[k], g, i, base + high);
    ApplyRow(db, g[base + pos], k);
    if FirstSpend(g, k, i + 1, base + high).None? { NoSpendMeans(g, k, i + 1, base + high, base + pos); }
  }

  lemma SettledRow(r: Htlc, g: seq<Event>, i: nat, n: nat)
    requires WellFormed(g) && i < n <= |g| && g[i].Lock? && Core(r) == Want(g, i, n)
    ensures r.state in {Claimed, Reclaimed} <==> FirstSpend(g, Key(g[i].rec), i + 1, n).Some?
  {
    hide Key, FirstSpend;
  }

  /** The event is new to the row. */
  lemma NewEventRow(db: Db, g: seq<Event>, i: nat, n: nat)
    requires WellFormed(g) && i < n < |g| && g[i].Lock? && RowReads(db, g, i, n)
    ensures RowReads(Apply(db, g[n]), g, i, n + 1)
  {
    var k, e := Key(g[i].rec), g[n];
    OtherLock(g, i, n);
    hide WellFormed, Apply, Key;
    ApplyRow(db, e, k);
    WantGrows(g, i, n);
    hide Want;
    if db[k].state !in {Claimed, Reclaimed} && e.Spent? && e.spend.Some? { RowStep(db[k], e.spend.value, e.height); }
  }

  /** A crash, or an error that ends the tick, inside the block. */
  lemma CrashKeeps(db: Db, g: seq<Event>, base: nat, pos: nat, high: nat)
    requires Progress(db, g, base, pos, high)
    ensures Progress(db, g, base, 0, high)
  {
  }

  /** The whole block has been applied and its checkpoint saved. */
  lemma SaveKeeps(db: Db, g: seq<Event>, base: nat, len: nat)
    requires Progress(db, g, base, len, len)
    ensures Progress(db, g, base + len, 0, 0)
  {
  }

  /** Any number of events of the block, after any earlier attempt at it. */
  lemma {:induction false} EventsKeep(db: Db, g: seq<Event>, base: nat, high: nat, n: nat)
    requires WellFormed(g) && Progress(db, g, base, 0, high) && base + n <= |g|
    ensures Progress(ApplyAll(db, g[base..base + n]), g, base, n, Max(high, n))
  {
    hide Progress, WellFormed, Apply;
    if n == 0 {
      CrashKeeps(db, g, base, 0, high);
      assert g[base..base + 0] == [];
    } else {
      EventsKeep(db, g, base, high, n - 1);
      assert g[base..base + n] == g[base..base + n - 1] + [g[base + n - 1]];
      ApplyOne(db, g[base..base + n - 1], g[base + n - 1]);
      EventKeeps(ApplyAll(db, g[base..base + n - 1]), g, base, n - 1, Max(high, n - 1));
    }
  }

  /** Re-running a block after any prefix of it equals running it once, up to last_indexed_height and
      the expiry flag. */
  lemma RerunEqualsOnce(db: Db, g: seq<Event>, base: nat, prefix: nat, len: nat)
    requires WellFormed(g) && Progress(db, g, base, 0, 0) && prefix <= len && base + len <= |g|
    ensures var once := ApplyAll(db, g[base..base + len]);
            var again := ApplyAll(ApplyAll(db, g[base..base + prefix]), g[base..base + len]);
            once.Keys == again.Keys && forall k :: k in once ==> Core(once[k]) == Core(again[k])
  {
    hide Progress, WellFormed, Core;
    EventsKeep(db, g, base, 0, len);
    EventsKeep(db, g, base, 0, prefix);
    CrashKeeps(ApplyAll(db, g[base..base + prefix]), g, base, prefix, prefix);
    EventsKeep(ApplyAll(db, g[base..base + prefix]), g, base, prefix, len);
    SameReading(ApplyAll(db, g[base..base + len]),
                ApplyAll(ApplyAll(db, g[base..base + prefix]), g[base..base + len]), g, base, len);
  }

  lemma SameReading(a: Db, b: Db, g: seq<Event>, base: nat, len: nat)
    requires Progress(a, g, base, len, len) && Progress(b, g, base, len, len)
    ensures a.Keys == b.Keys && forall k :: k in a ==> Core(a[k]) == Core(b[k])
  {
    forall k | k in a ensures k in b && Core(a[k]) == Core(b[k]) {
      var i :| i < base + len && IsLockOf(g, i, k);
    }
    forall k | k in b ensures k in a {
      var i :| i < base + len && IsLockOf(g, i, k);
    }
  }
}
