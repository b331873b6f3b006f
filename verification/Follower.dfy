/**
 The block follower (src/follower.rs) over the index class.

 `calls` is the number of index calls that still succeed: at zero the next one fails, or the process
 dies.  Every crash point and every index error in a tick is some value of it.
 */
module BlockFollower {
  import opened Common
  import opened Bytes
  import opened HtlcKeys
  import opened ChainEvents
  import opened Replay
  import opened Expiry
  import opened Walk
  import opened Paging
  import opened HtlcStore

  const SWEEP_LIMIT: nat := 1024

  function LockedFilter(): Filter { Filter(None, [Locked], None, None) }

  /** `after` is `before` with the first `n` of these events absorbed, all of them if `ok`. */
  ghost predicate Ran(before: Db, after: Db, es: seq<Event>, n: nat, ok: bool) {
    n <= |es| && after == ApplyAll(before, es[..n]) && (ok ==> n == |es|)
  }

  lemma RanNone(db: Db)
    ensures Ran(db, db, [], 0, true)
  {
  }

  lemma RanThen(a: Db, b: Db, c: Db, es: seq<Event>, more: seq<Event>, n: nat, ok: bool)
    requires Ran(a, b, es, |es|, true) && Ran(b, c, more, n, ok)
    ensures Ran(a, c, es + more, |es| + n, ok)
  {
    hide Apply;
    assert es[..|es|] == es && (es + more)[..|es| + n] == es + more[..n];
    ApplyAppend(a, es, more[..n]);
  }

  lemma RanOne(a: Db, b: Db, es: seq<Event>, e: Event)
    requires Ran(a, b, es, |es|, true)
    ensures Ran(a, Apply(b, e), es + [e], |es| + 1, true)
  {
    hide Apply;
    assert es[..|es|] == es && (es + [e])[..|es| + 1] == es + [e];
    ApplyOne(a, es, e);
  }

  lemma RanPart(a: Db, b: Db, es: seq<Event>, all: seq<Event>, n: nat, ok: bool)
    requires Ran(a, b, es, n, ok) && es <= all
    ensures Ran(a, b, all, n, false)
  {
    assert es[..n] == all[..n];
  }

  lemma {:induction false} OutputsPrefix(owned: Owned, tx: Tx, h: u64, m: nat, n: nat)
    requires m <= n <= |tx.outputs|
    ensures OutputEvents(owned, tx, h, m) <= OutputEvents(owned, tx, h, n)
  {
    hide LockRecord;
    if m < n { OutputsPrefix(owned, tx, h, m, n - 1); }
  }

  lemma {:induction false} InputsPrefix(tx: Tx, h: u64, m: nat, n: nat)
    requires m <= n <= |tx.inputs|
    ensures InputEvents(tx, h, m) <= InputEvents(tx, h, n)
  {
    hide ParseSpend;
    if m < n { InputsPrefix(tx, h, m, n - 1); }
  }

  lemma {:induction false} BlockPrefix(owned: Owned, b: Block, h: u64, m: nat, n: nat)
    requires m <= n <= |b.txs|
    ensures BlockEvents(owned, b, h, m) <= BlockEvents(owned, b, h, n)
  {
    hide TxEvents;
    if m < n { BlockPrefix(owned, b, h, m, n - 1); }
  }

  /** The state a follower may be found in when `n` blocks are recorded as indexed: block `n` may have
      been started any number of times. */
  ghost predicate Held(db: Db, owned: Owned, chain: Chain, n: nat) {
    n <= |chain| && NoEarlyExpiry(db, n) && exists high :: HeldUpTo(db, owned, chain, n, high)
  }

  ghost predicate HeldUpTo(db: Db, owned: Owned, chain: Chain, n: nat, high: nat)
    requires n <= |chain|
  {
    && Start(owned, chain, n) + high <= (if n < |chain| then Start(owned, chain, n + 1) else Start(owned, chain, n))
    && Progress(db, AllEvents(owned, chain), Start(owned, chain, n), 0, high)
  }

  /** The full reading of blocks 0..tip at height `tip`. */
  ghost predicate ReadsChain(db: Db, owned: Owned, chain: Chain, tip: nat) {
    && tip < |chain|
    && Start(owned, chain, tip + 1) <= |AllEvents(owned, chain)|
    && Reads(db, AllEvents(owned, chain), Start(owned, chain, tip + 1), tip)
  }

  lemma BlockTime(db: Db, db': Db, owned: Owned, chain: Chain, n: nat, done: nat, ok: bool)
    requires GoodChain(chain) && n < |chain| && NoEarlyExpiry(db, n) && Ran(db, db', EventsOf(owned, chain, n), done, ok)
    ensures NoEarlyExpiry(db', n)
  {
    hide WellFormed, LocksFrom, NoEarlyExpiry, GoodChain, EventsOf, Apply, EventInTime;
    BlockInTime(owned, chain, n);
    ApplyAllInTime(db, EventsOf(owned, chain, n)[..done], n);
  }

  /** Cut short inside block `n`. */
  lemma PartOfBlock(db: Db, db': Db, owned: Owned, chain: Chain, n: nat, done: nat)
    requires GoodChain(chain) && n < |chain| && Held(db, owned, chain, n)
    requires Ran(db, db', EventsOf(owned, chain, n), done, false)
    ensures Held(db', owned, chain, n)
  {
    hide Progress, WellFormed, LocksFrom, NoEarlyExpiry, GoodChain, EventsOf, EventsTo, ApplyAll;
    var high: nat :| HeldUpTo(db, owned, chain, n, high);
    var g, base, es := AllEvents(owned, chain), Start(owned, chain, n), EventsOf(owned, chain, n);
    BlockSlice(owned, chain, n);
    ChainGood(owned, chain, |chain|);
    SliceOfSlice(g, base, |es|, done);
    EventsKeep(db, g, base, high, done);
    CrashKeeps(db', g, base, done, Max(high, done));
    assert HeldUpTo(db', owned, chain, n, Max(high, done));
    BlockTime(db, db', owned, chain, n, done, false);
  }

  /** All of block `n`, with its checkpoint saved. */
  lemma WholeBlock(db: Db, db': Db, owned: Owned, chain: Chain, n: nat)
    requires GoodChain(chain) && n < |chain| && Held(db, owned, chain, n)
    requires Ran(db, db', EventsOf(owned, chain, n), |EventsOf(owned, chain, n)|, true)
    ensures Held(db', owned, chain, n + 1) && NoEarlyExpiry(db', n)
    ensures Progress(db', AllEvents(owned, chain), Start(owned, chain, n + 1), 0, 0)
  {
    hide Progress, WellFormed, LocksFrom, NoEarlyExpiry, GoodChain, EventsOf, EventsTo, ApplyAll;
    var high: nat :| HeldUpTo(db, owned, chain, n, high);
    var g, base, es := AllEvents(owned, chain), Start(owned, chain, n), EventsOf(owned, chain, n);
    BlockSlice(owned, chain, n);
    ChainGood(owned, chain, |chain|);
    assert es[..|es|] == es;
    EventsKeep(db, g, base, high, |es|);
    SaveKeeps(db', g, base, |es|);
    BlockTime(db, db', owned, chain, n, |es|, true);
    LaterIsFine(db', n);
    if n + 1 < |chain| { BlockSlice(owned, chain, n + 1); }
    assert HeldUpTo(db', owned, chain, n + 1, 0);
  }

  lemma LaterIsFine(db: Db, h: nat)
    requires NoEarlyExpiry(db, h)
    ensures NoEarlyExpiry(db, h + 1)
  {
  }

  /** A fresh index before the first block. */
  lemma NothingHeld(owned: Owned, chain: Chain)
    ensures Held(map[], owned, chain, 0)
  {
    if chain != [] { BlockSlice(owned, chain, 0); }
    assert HeldUpTo(map[], owned, chain, 0, 0);
  }

  /** A sweep at height `h`, whole or cut short, after `h + 1` finished blocks. */
  lemma SweepHeld(db: Db, rows: seq<Htlc>, owned: Owned, chain: Chain, h: u64)
    requires h < |chain| && Held(db, owned, chain, h + 1) && NoEarlyExpiry(db, h) && LockedRows(rows, db)
    ensures Held(SweepRows(db, rows, h), owned, chain, h + 1)
  {
    hide Progress, EventsTo, Key;
    var high: nat :| HeldUpTo(db, owned, chain, h + 1, high);
    SweepProgress(db, rows, h, AllEvents(owned, chain), Start(owned, chain, h + 1), 0, high);
    SweepInTime(db, rows, h);
    assert HeldUpTo(SweepRows(db, rows, h), owned, chain, h + 1, high);
  }

  class Follower {
    const owned: Owned
    const index: Index
    var lastHeight: u64
    var lastId: Hash32
    var fullScan: bool
    var calls: nat

    constructor (owned: Owned, calls: nat)
      ensures fresh(index) && this.owned == owned && this.calls == calls
      ensures forall chain :: Inv(chain) && Done() == 0
    {
      this.owned, this.calls := owned, calls;
      index := new Index();
      lastHeight, lastId, fullScan := 0, Zero(), false;
      new;
      hide Held, Consistent, Zero;
      forall chain: Chain ensures Held(map[], owned, chain, 0) { NothingHeld(owned, chain); }
    }

    /** The number of blocks recorded as indexed. */
    function Done(): nat
      reads this
    {
      if lastId == Zero() && lastHeight == 0 then 0 else lastHeight + 1
    }

    ghost predicate Inv(chain: Chain)
      reads this, index
    {
      && index.Valid()
      && Held(index.tracked, owned, chain, Done())
      && (Done() > 0 ==> lastId == chain[lastHeight].id)
    }

    /** One index call: it succeeds unless the budget is spent. */
    method Call() returns (ok: bool)
      modifies this`calls
      ensures ok == (old(calls) > 0) && calls == if ok then old(calls) - 1 else 0
    {
      ok := calls > 0;
      if ok { calls := calls - 1; }
    }

    method SaveMeta(height: u64, id: Hash32, full: bool) returns (ok: bool)
      modifies this
      ensures ok ==> lastHeight == height && lastId == id && fullScan == full
      ensures !ok ==> lastHeight == old(lastHeight) && lastId == old(lastId) && fullScan == old(fullScan)
    {
      ok := Call();
      if ok { lastHeight, lastId, fullScan := height, id, full; }
    }

    method ProcessOutputs(tx: Tx, h: u64) returns (ok: bool, ghost n: nat)
      requires index.Valid()
      modifies this`calls, index
      ensures index.Valid() && Ran(old(index.tracked), index.tracked, OutputEvents(owned, tx, h, |tx.outputs|), n, ok)
    {
      hide Apply, Ran, Consistent, Key, LockRecord, Upsert;
      ghost var before := index.tracked;
      RanNone(before);
      n := 0;
      for i := 0 to |tx.outputs|
        invariant index.Valid() && Ran(before, index.tracked, OutputEvents(owned, tx, h, i), n, true)
      {
        ghost var es := OutputEvents(owned, tx, h, i);
        match LockRecord(owned, tx, i, h) {
          case None =>
            assert OutputEvents(owned, tx, h, i + 1) == es + [];
            assert es + [] == es;
          case Some(record) =>
            var up := Call();
            if !up {
              OutputsPrefix(owned, tx, h, i, |tx.outputs|);
              RanPart(before, index.tracked, es, OutputEvents(owned, tx, h, |tx.outputs|), n, true);
              return false, n;
            }
            AllRan(before, index.tracked, es, n);
            RanOne(before, index.tracked, es, Lock(record));
            ApplyLock(index.tracked, record);
            index.UpsertHtlc(record, ListedUnder(record.params));
            n := n + 1;
        }
      }
      ok := true;
    }

    /** owned_addr_for: the sender's address first, else the receiver's, else zeros. */
    function ListedUnder(p: Params): Hash32 {
      if p.sender in owned then owned[p.sender]
      else if p.receiver in owned then owned[p.receiver]
      else Zero()
    }

    method ProcessInputs(tx: Tx, h: u64) returns (ok: bool, ghost n: nat)
      requires index.Valid()
      modifies this`calls, index
      ensures index.Valid() && Ran(old(index.tracked), index.tracked, InputEvents(tx, h, |tx.inputs|), n, ok)
    {
      hide Apply, Ran, Consistent, Key, ParseSpend, Upsert, PrimaryKey;
      ghost var before := index.tracked;
      RanNone(before);
      n := 0;
      for i := 0 to |tx.inputs|
        invariant index.Valid() && Ran(before, index.tracked, InputEvents(tx, h, i), n, true)
      {
        ghost var es, all := InputEvents(tx, h, i), InputEvents(tx, h, |tx.inputs|);
        var prevTx, prevVout := tx.inputs[i].prevTx, tx.inputs[i].prevVout;
        ghost var e := Spent(prevTx, prevVout, ParseSpend(tx, i, h), h);
        assert InputEvents(tx, h, i + 1) == es + [e];
        AllRan(before, index.tracked, es, n);
        InputsPrefix(tx, h, i, |tx.inputs|);
        RanPart(before, index.tracked, es, all, n, true);
        RanOne(before, index.tracked, es, e);
        ApplySpent(index.View(), prevTx, prevVout, ParseSpend(tx, i, h), h);
        var read := Call();
        if !read { return false, n; }
        var existing := index.GetHtlc(prevTx, prevVout);
        if existing.Some? && existing.value.state !in {Claimed, Reclaimed} {
          var spend := ParseSpend(tx, i, h);
          if spend.Some? {
            var up := Call();
            if !up { return false, n; }
            index.UpsertHtlc(Settle(existing.value, spend.value, h), ListedUnder(existing.value.params));
          }
        }
        n := n + 1;
      }
      ok := true;
    }

    /** process_fetched: outputs before inputs in each transaction, transactions in block order. */
    method ProcessFetched(b: Block, h: u64) returns (ok: bool, ghost n: nat)
      requires index.Valid()
      modifies this`calls, index
      ensures index.Valid() && Ran(old(index.tracked), index.tracked, BlockEvents(owned, b, h, |b.txs|), n, ok)
    {
      hide Apply, Ran, Consistent, OutputEvents, InputEvents;
      ghost var before := index.tracked;
      RanNone(before);
      n := 0;
      for i := 0 to |b.txs|
        invariant index.Valid() && Ran(before, index.tracked, BlockEvents(owned, b, h, i), n, true)
      {
        ghost var es, tx, mid := BlockEvents(owned, b, h, i), b.txs[i], index.tracked;
        ghost var outs, ins := OutputEvents(owned, tx, h, |tx.outputs|), InputEvents(tx, h, |tx.inputs|);
        AllRan(before, mid, es, n);
        BlockPrefix(owned, b, h, i + 1, |b.txs|);
        assert BlockEvents(owned, b, h, i + 1) == es + (outs + ins) == es + outs + ins;
        ghost var m;
        ok, m := ProcessOutputs(b.txs[i], h);
        RanThen(before, mid, index.tracked, es, outs, m, ok);
        if !ok {
          RanPart(before, index.tracked, es + outs, BlockEvents(owned, b, h, |b.txs|), n + m, ok);
          return false, n + m;
        }
        AllRan(before, index.tracked, es + outs, n + m);
        mid, n := index.tracked, n + m;
        ok, m := ProcessInputs(b.txs[i], h);
        RanThen(before, mid, index.tracked, es + outs, ins, m, ok);
        if !ok {
          RanPart(before, index.tracked, es + outs + ins, BlockEvents(owned, b, h, |b.txs|), n + m, ok);
          return false, n + m;
        }
        n := n + m;
      }
      ok := true;
    }

    /** sweep_expired: one page of Locked rows; those past their timeout are marked.  The owner it passes
        is a zero sentinel. */
    method SweepExpired(h: u64) returns (ok: bool, ghost swept: seq<Htlc>)
      requires index.Valid()
      modifies this`calls, index
      ensures index.Valid() && LockedRows(swept, old(index.tracked))
      ensures index.tracked == SweepRows(old(index.tracked), swept, h)
      ensures ok ==> FirstPage(swept, old(index.tracked))
    {
      hide Consistent, IsListing, PageOf, Key, Upsert, LockedRows, FirstPage;
      ghost var before := index.tracked;
      NoRows(before);
      swept := [];
      ok := Call();
      if !ok { return; }
      var rows, next := index.ListHtlcs(LockedFilter(), SWEEP_LIMIT, None);
      PageRows(Page(rows, next), before);
      for i := 0 to |rows|
        invariant index.Valid() && index.tracked == SweepRows(before, rows[..i], h)
      {
        SweepOne(before, rows, i, h);
        var rec := rows[i];
        if h > rec.params.timeout {
          var up := Call();
          if !up { return false, rows[..i]; }
          ExpiredKey(rec, h);
          index.UpsertHtlc(Expire(rec, h), Zero());
        }
      }
      assert rows[..|rows|] == rows;
      ok, swept := true, rows;
    }

    /** The forward walk to `tip`, one checkpoint a block; the node serves `left` blocks. */
    method WalkBlocks(chain: Chain, tip: u64, left: nat) returns (ok: bool)
      requires GoodChain(chain) && tip < |chain| && Inv(chain) && Done() <= tip
      modifies this, index
      ensures Inv(chain) && Done() >= old(Done())
      ensures ok ==> Done() == tip + 1 && NoEarlyExpiry(index.tracked, tip)
                     && Progress(index.tracked, AllEvents(owned, chain), Start(owned, chain, tip + 1), 0, 0)
    {
      hide Held, Ran, Consistent, GoodChain, EventsTo, EventsOf, NoEarlyExpiry, Progress;
      var start, served := Done(), 0;
      for h := start to tip + 1
        invariant Inv(chain) && Done() == h
        invariant h > start ==> NoEarlyExpiry(index.tracked, h - 1)
                                && Progress(index.tracked, AllEvents(owned, chain), Start(owned, chain, h), 0, 0)
      {
        if served == left { return false; }
        served := served + 1;
        ghost var before := index.tracked;
        ghost var n;
        ok, n := ProcessFetched(chain[h], h);
        EventsOfIs(owned, chain, h);
        BlockDone(before, index.tracked, owned, chain, h, n, ok);
        if !ok { return; }
        ok := SaveMeta(h, chain[h].id, fullScan);
        if !ok { return; }
        GenesisId(chain);
      }
      ok := true;
    }

    /** tick, with full backfill, on a node that answers truthfully about one chain and whose answers stop
        after `served` blocks.  Whatever the crash point, the index stays a partial walk of the chain; a tick
        that completes after indexing a block leaves the full reading of the chain at `tip`, exactly when the
        sweep's one page held every overdue lock, so always when at most 1024 rows were Locked. */
    method Tick(chain: Chain, tip: u64, served: nat) returns (ok: bool, ghost atSweep: Db)
      requires GoodChain(chain) && tip < |chain| && Inv(chain)
      modifies this, index
      ensures Inv(chain) && Done() >= old(Done())
      ensures ok ==> fullScan && Done() == Max(old(Done()), tip + 1)
      ensures ok && old(Done()) > tip ==> index.View() == old(index.View())
      ensures ok && old(Done()) <= tip ==> SweptFrom(atSweep, index.tracked, tip)
      ensures ok && old(Done()) <= tip ==>
                (ReadsChain(index.tracked, owned, chain, tip)
                 <==> forall rows, k :: FirstPage(rows, atSweep) && k in atSweep && Overdue(atSweep[k], tip) ==> atSweep[k] in rows)
      ensures ok && old(Done()) <= tip && |LockedKeys(atSweep)| <= SWEEP_LIMIT ==>
                ReadsChain(index.tracked, owned, chain, tip)
    {
      hide Held, Ran, Consistent, GoodChain, EventsTo, EventsOf, ReadsChain, FirstPage, SweptFrom, NoEarlyExpiry, Progress, LockedRows;
      HeldBound(index.tracked, owned, chain, Done());
      atSweep := index.tracked;
      ok := Call();
      if !ok { return; }
      var left := served;
      if lastHeight > 0 {
        if left == 0 { return false, atSweep; }
        left := left - 1;
        // No reorg: the node still has the block the follower stopped at, and nothing is wiped.
        assert chain[lastHeight].id == lastId;
      }
      var start := Done();
      if start > tip {
        if !fullScan { ok := SaveMeta(lastHeight, lastId, true); }
        return;
      }
      ok := WalkBlocks(chain, tip, left);
      if !ok { return; }
      atSweep := index.tracked;
      ghost var swept;
      ok, swept := SweepExpired(tip);
      SweepHeld(atSweep, swept, owned, chain, tip);
      if !ok { return; }
      SweepReads(atSweep, swept, owned, chain, tip);
      ok := SaveMeta(lastHeight, lastId, true);
    }

    /** The run loop: ticks with any tips, node outages and crashes between and inside them. */
    method Run(chain: Chain, ticks: seq<TickEnv>) returns (ok: bool, indexed: bool, ghost atSweep: Db)
      requires GoodChain(chain) && Inv(chain) && ticks != [] && forall i :: 0 <= i < |ticks| ==> ticks[i].tip < |chain|
      modifies this, index
      ensures Inv(chain) && Done() >= old(Done())
      ensures ok && indexed && |LockedKeys(atSweep)| <= SWEEP_LIMIT ==>
                Done() == ticks[|ticks|-1].tip + 1
                && ReadsChain(index.tracked, owned, chain, Done() - 1)
    {
      hide Held, Consistent, GoodChain, EventsTo, ReadsChain, FirstPage, SweptFrom;
      ok, indexed, atSweep := false, false, map[];
      for i := 0 to |ticks|
        invariant Inv(chain) && Done() >= old(Done()) && (i == 0 ==> !ok)
        invariant i > 0 && ok && indexed && |LockedKeys(atSweep)| <= SWEEP_LIMIT ==>
                    Done() == ticks[i-1].tip + 1
                    && ReadsChain(index.tracked, owned, chain, Done() - 1)
      {
        calls := ticks[i].calls;
        indexed := Done() <= ticks[i].tip;
        ok, atSweep := Tick(chain, ticks[i].tip, ticks[i].served);
      }
    }
  }

  /** The node's tip, how many blocks it serves, and how many index calls succeed before a crash. */
  datatype TickEnv = TickEnv(tip: u64, served: nat, calls: nat)

  /** What one sweep at most looks at: the first page of the Locked listing. */
  ghost predicate FirstPage(rows: seq<Htlc>, db: Db) {
    exists l :: IsListing(l, db, LockedFilter()) && rows == l[..Min(|l|, SWEEP_LIMIT)]
  }

  ghost predicate SweptFrom(before: Db, after: Db, h: u64) {
    exists rows :: FirstPage(rows, before) && after == SweepRows(before, rows, h)
  }

  function LockedKeys(db: Db): set<Str> { set k | k in db && db[k].state == Locked }

  lemma NoRows(db: Db)
    ensures LockedRows([], db)
  {
  }

  lemma ExpiredKey(r: Htlc, h: u64)
    ensures Key(Expire(r, h)) == Key(r)
  {
  }

  lemma SweepOne(db: Db, rows: seq<Htlc>, i: nat, h: u64)
    requires i < |rows| && LockedRows(rows, db)
    ensures LockedRows(rows[..i], db)
    ensures SweepRows(db, rows[..i+1], h) ==
            if h > rows[i].params.timeout then SweepRows(db, rows[..i], h)[Key(rows[i]) := Expire(rows[i], h)]
            else SweepRows(db, rows[..i], h)
  {
    hide Key;
    assert rows[..i+1][..i] == rows[..i];
  }

  lemma PageRows(p: Page, db: Db)
    requires exists l :: IsListing(l, db, LockedFilter())
    requires forall l :: IsListing(l, db, LockedFilter()) ==> p == PageOf(l, SWEEP_LIMIT, None)
    ensures FirstPage(p.rows, db) && LockedRows(p.rows, db)
  {
    hide IsListing;
    var l :| IsListing(l, db, LockedFilter());
    assert p.rows == l[..Min(|l|, SWEEP_LIMIT)];
    ListingRows(l, db);
  }

  lemma ListingRows(l: seq<Htlc>, db: Db)
    requires IsListing(l, db, LockedFilter())
    ensures LockedRows(l, db)
    ensures forall k :: k in db && db[k].state == Locked && Key(db[k]) == k ==> db[k] in l
  {
    hide Key;
  }

  function KeysOf(l: seq<Htlc>): set<Str> { if l == [] then {} else KeysOf(l[..|l|-1]) + {Key(l[|l|-1])} }

  lemma {:induction false} KeyInList(l: seq<Htlc>, k: Str)
    ensures k in KeysOf(l) <==> exists r :: r in l && Key(r) == k
  {
    hide Key;
    if l != [] {
      KeyInList(l[..|l|-1], k);
      assert l == l[..|l|-1] + [l[|l|-1]];
    }
  }

  /** Rows of one table at ascending positions have different keys. */
  lemma {:induction false} ListSize(l: seq<Htlc>, db: Db)
    requires Ascending(l) && LockedRows(l, db)
    ensures |KeysOf(l)| == |l| && KeysOf(l) <= LockedKeys(db)
  {
    hide Key;
    if l != [] {
      var rest, r := l[..|l|-1], l[|l|-1];
      ListSize(rest, db);
      KeyInList(rest, Key(r));
      if Key(r) in KeysOf(rest) {
        var x :| x in rest && Key(x) == Key(r);
        var j :| 0 <= j < |rest| && rest[j] == x;
        PosTotal(Pos(l[j]), Pos(r));
      }
    }
  }

  /** With at most 1024 Locked rows the first page is all of them. */
  lemma PageHasAll(rows: seq<Htlc>, db: Db)
    requires FirstPage(rows, db) && |LockedKeys(db)| <= SWEEP_LIMIT
    ensures forall k :: k in db && db[k].state == Locked && Key(db[k]) == k ==> db[k] in rows
  {
    hide IsListing;
    var l :| IsListing(l, db, LockedFilter()) && rows == l[..Min(|l|, SWEEP_LIMIT)];
    ListingRows(l, db);
    ListSize(l, db) by { ListingAscends(l, db); }
    SubsetSize(KeysOf(l), LockedKeys(db));
  }

  lemma ListingAscends(l: seq<Htlc>, db: Db)
    requires IsListing(l, db, LockedFilter())
    ensures Ascending(l)
  {
  }

  lemma OnePage(a: seq<Htlc>, b: seq<Htlc>, db: Db)
    requires FirstPage(a, db) && FirstPage(b, db)
    ensures a == b
  {
    hide IsListing;
    var l :| IsListing(l, db, LockedFilter()) && a == l[..Min(|l|, SWEEP_LIMIT)];
    var m :| IsListing(m, db, LockedFilter()) && b == m[..Min(|m|, SWEEP_LIMIT)];
    OnlyListing(l, db, LockedFilter());
  }

  /** Processing block `n`, all of it or part. */
  lemma BlockDone(db: Db, db': Db, owned: Owned, chain: Chain, n: nat, done: nat, ok: bool)
    requires GoodChain(chain) && n < |chain| && Held(db, owned, chain, n)
    requires Ran(db, db', EventsOf(owned, chain, n), done, ok)
    ensures Held(db', owned, chain, n)
    ensures ok ==> Held(db', owned, chain, n + 1) && NoEarlyExpiry(db', n)
                   && Progress(db', AllEvents(owned, chain), Start(owned, chain, n + 1), 0, 0)
  {
    hide Held, GoodChain, EventsOf, EventsTo, NoEarlyExpiry, Progress;
    PartOfBlock(db, db', owned, chain, n, done);
    if ok { WholeBlock(db, db', owned, chain, n); }
  }

  lemma HeldBound(db: Db, owned: Owned, chain: Chain, n: nat)
    requires Held(db, owned, chain, n)
    ensures n <= |chain|
  {
  }

  lemma EventsOfIs(owned: Owned, chain: Chain, h: nat)
    requires h < |chain|
    ensures EventsOf(owned, chain, h) == BlockEvents(owned, chain[h], h, |chain[h].txs|)
  {
  }

  lemma GenesisId(chain: Chain)
    requires GoodChain(chain) && chain != []
    ensures chain[0].id != Zero()
  {
  }

  lemma SweepReads(db: Db, rows: seq<Htlc>, owned: Owned, chain: Chain, h: u64)
    requires GoodChain(chain) && h < |chain| && FirstPage(rows, db) && LockedRows(rows, db) && NoEarlyExpiry(db, h)
    requires Progress(db, AllEvents(owned, chain), Start(owned, chain, h + 1), 0, 0)
    ensures var db' := SweepRows(db, rows, h);
            && SweptFrom(db, db', h)
            && (ReadsChain(db', owned, chain, h)
                <==> forall rows, k :: FirstPage(rows, db) && k in db && Overdue(db[k], h) ==> db[k] in rows)
            && (|LockedKeys(db)| <= SWEEP_LIMIT ==> ReadsChain(db', owned, chain, h))
  {
    hide WellFormed, GoodChain, EventsTo, NoEarlyExpiry, Progress, FirstPage, LockedRows, Reads, Key;
    ChainGood(owned, chain, |chain|);
    PrefixTo(owned, chain, h + 1, |chain|);
    SweptReads(db, rows, AllEvents(owned, chain), Start(owned, chain, h + 1), h);
    SweepProgress(db, rows, h, AllEvents(owned, chain), Start(owned, chain, h + 1), 0, 0);
    forall other | FirstPage(other, db) ensures other == rows { OnePage(other, rows, db); }
    if |LockedKeys(db)| <= SWEEP_LIMIT { PageHasAll(rows, db); }
  }

  lemma AllRan(a: Db, b: Db, es: seq<Event>, n: nat)
    requires Ran(a, b, es, n, true)
    ensures n == |es|
  {
  }

  lemma ApplyLock(db: Db, r: Htlc)
    ensures Apply(db, Lock(r)) == db[Key(r) := r]
  {
  }

  lemma ApplySpent(t: Tables, tx: Hash32, vout: u32, spend: Option<Spend>, h: u64)
    requires Consistent(t)
    ensures var k := PrimaryKey(tx, vout);
            Apply(t.tracked, Spent(tx, vout, spend, h)) ==
              if k in t.tracked && t.tracked[k].state !in {Claimed, Reclaimed} && spend.Some?
              then t.tracked[Key(Settle(t.tracked[k], spend.value, h)) := Settle(t.tracked[k], spend.value, h)]
              else t.tracked
  {
    hide Consistent, Images, PrimaryKey, Key;
    KeysAreOwn(t);
    var k := PrimaryKey(tx, vout);
    if k in t.tracked && spend.Some? { SettledKey(t.tracked[k], spend.value, h); }
  }

  lemma SettledKey(r: Htlc, s: Spend, h: u64)
    ensures Key(Settle(r, s, h)) == Key(r)
  {
  }
}
