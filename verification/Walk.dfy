/** A chain as one list of events, block after block. */
module Walk {
  import opened Common
  import opened Bytes
  import opened HtlcKeys
  import opened ChainEvents
  import opened Replay
  import opened Expiry

  type Chain = c: seq<Block> | |c| < 0x1_0000_0000_0000_0000

  function Zero(): Hash32 { Be(0, 32) }

  function IdAt(chain: Chain, h: int, i: int): Option<Hash32> {
    if 0 <= h < |chain| && 0 <= i < |chain[h].txs| then Some(chain[h].txs[i].id) else None
  }

  /** Transaction ids occur once on the chain, and the genesis id is not the all-zero marker. */
  ghost predicate GoodChain(chain: Chain) {
    && (forall a, i, b, j :: IdAt(chain, a, i).Some? && IdAt(chain, a, i) == IdAt(chain, b, j) ==> a == b && i == j)
    && (chain != [] ==> chain[0].id != Zero())
  }

  /** The events of the first `n` blocks. */
  function EventsTo(owned: Owned, chain: Chain, n: nat): seq<Event>
    requires n <= |chain|
  {
    if n == 0 then [] else EventsTo(owned, chain, n - 1) + EventsOf(owned, chain, n - 1)
  }

  function EventsOf(owned: Owned, chain: Chain, h: nat): seq<Event>
    requires h < |chain|
  {
    BlockEvents(owned, chain[h], h, |chain[h].txs|)
  }

  function AllEvents(owned: Owned, chain: Chain): seq<Event> { EventsTo(owned, chain, |chain|) }

  /** Where block `n` starts in the list. */
  function Start(owned: Owned, chain: Chain, n: nat): nat
    requires n <= |chain|
  {
    |EventsTo(owned, chain, n)|
  }

  lemma {:induction false} PrefixTo(owned: Owned, chain: Chain, m: nat, n: nat)
    requires m <= n <= |chain|
    ensures Start(owned, chain, m) <= Start(owned, chain, n)
    ensures EventsTo(owned, chain, n)[..Start(owned, chain, m)] == EventsTo(owned, chain, m)
  {
    if m < n { PrefixTo(owned, chain, m, n - 1); }
  }

  /** Block `h` occupies its own slice. */
  lemma BlockSlice(owned: Owned, chain: Chain, h: nat)
    requires h < |chain|
    ensures Start(owned, chain, h) + |EventsOf(owned, chain, h)| == Start(owned, chain, h + 1) <= |AllEvents(owned, chain)|
    ensures AllEvents(owned, chain)[Start(owned, chain, h)..Start(owned, chain, h + 1)] == EventsOf(owned, chain, h)
  {
    PrefixTo(owned, chain, h + 1, |chain|);
    var all := AllEvents(owned, chain);
    assert all[Start(owned, chain, h)..Start(owned, chain, h + 1)]
        == all[..Start(owned, chain, h + 1)][Start(owned, chain, h)..];
  }

  // ----- unique transaction ids make lock outpoints unique -----

  ghost predicate LocksWithin(es: seq<Event>, tx: Hash32, vouts: nat) {
    forall i :: 0 <= i < |es| && es[i].Lock? ==> es[i].rec.lockTx == tx && es[i].rec.vout < vouts
  }

  ghost predicate LocksFrom(es: seq<Event>, ids: set<Hash32>) {
    forall i :: 0 <= i < |es| && es[i].Lock? ==> es[i].rec.lockTx in ids
  }

  lemma KeysDiffer(a: Htlc, b: Htlc)
    ensures Key(a) == Key(b) <==> a.lockTx == b.lockTx && a.vout == b.vout
  {
    if Key(a) == Key(b) { PrimaryKeyInjective(a.lockTx, a.vout, b.lockTx, b.vout); }
  }

  /** Two well-formed lists with no lock outpoint in common. */
  lemma Joined(a: seq<Event>, b: seq<Event>)
    requires WellFormed(a) && WellFormed(b)
    requires forall i, j :: 0 <= i < |a| && 0 <= j < |b| && a[i].Lock? && b[j].Lock? ==> Key(a[i].rec) != Key(b[j].rec)
    ensures WellFormed(a + b)
  {
    hide Key;
    var ab := a + b;
    forall i, j, k | IsLockOf(ab, i, k) && IsLockOf(ab, j, k) ensures i == j {
      if i < |a| { assert IsLockOf(a, i, k); } else { assert IsLockOf(b, i - |a|, k); }
      if j < |a| { assert IsLockOf(a, j, k); } else { assert IsLockOf(b, j - |a|, k); }
    }
  }

  lemma {:induction false} OutputsGood(owned: Owned, tx: Tx, h: u64, n: nat)
    requires n <= |tx.outputs|
    ensures WellFormed(OutputEvents(owned, tx, h, n)) && LocksWithin(OutputEvents(owned, tx, h, n), tx.id, n)
    ensures forall e :: e in OutputEvents(owned, tx, h, n) ==> EventInTime(e, h)
  {
    hide Key;
    if n > 0 {
      OutputsGood(owned, tx, h, n - 1);
      var before := OutputEvents(owned, tx, h, n - 1);
      match LockRecord(owned, tx, n - 1, h)
      case None => assert before + [] == before;
      case Some(r) =>
        forall i | 0 <= i < |before| && before[i].Lock? ensures Key(before[i].rec) != Key(r) { KeysDiffer(before[i].rec, r); }
        Joined(before, [Lock(r)]);
    }
  }

  lemma {:induction false} InputsGood(tx: Tx, h: u64, n: nat)
    requires n <= |tx.inputs|
    ensures WellFormed(InputEvents(tx, h, n)) && forall i :: 0 <= i < |InputEvents(tx, h, n)| ==> InputEvents(tx, h, n)[i].Spent?
  {
    if n > 0 { InputsGood(tx, h, n - 1); }
  }

  lemma TxGood(owned: Owned, tx: Tx, h: u64)
    ensures WellFormed(TxEvents(owned, tx, h)) && LocksFrom(TxEvents(owned, tx, h), {tx.id})
    ensures forall e :: e in TxEvents(owned, tx, h) ==> EventInTime(e, h)
  {
    hide Key;
    OutputsGood(owned, tx, h, |tx.outputs|);
    InputsGood(tx, h, |tx.inputs|);
    Joined(OutputEvents(owned, tx, h, |tx.outputs|), InputEvents(tx, h, |tx.inputs|));
  }

  function TxIds(b: Block, n: nat): set<Hash32>
    requires n <= |b.txs|
  {
    if n == 0 then {} else TxIds(b, n - 1) + {b.txs[n-1].id}
  }

  ghost predicate DistinctIds(b: Block) {
    forall i, j :: 0 <= i < |b.txs| && 0 <= j < |b.txs| && b.txs[i].id == b.txs[j].id ==> i == j
  }

  lemma {:induction false} IdInBlock(b: Block, n: nat, id: Hash32) returns (i: nat)
    requires n <= |b.txs| && id in TxIds(b, n)
    ensures i < n && b.txs[i].id == id
  {
    if id == b.txs[n-1].id { i := n - 1; } else { i := IdInBlock(b, n - 1, id); }
  }

  lemma JoinedById(a: seq<Event>, b: seq<Event>, idsA: set<Hash32>, idsB: set<Hash32>)
    requires WellFormed(a) && WellFormed(b) && LocksFrom(a, idsA) && LocksFrom(b, idsB) && idsA !! idsB
    ensures WellFormed(a + b) && LocksFrom(a + b, idsA + idsB)
  {
    hide Key, WellFormed;
    forall i, j | 0 <= i < |a| && 0 <= j < |b| && a[i].Lock? && b[j].Lock? ensures Key(a[i].rec) != Key(b[j].rec) {
      KeysDiffer(a[i].rec, b[j].rec);
    }
    Joined(a, b);
  }

  lemma {:induction false} BlockGood(owned: Owned, b: Block, h: u64, n: nat)
    requires n <= |b.txs| && DistinctIds(b)
    ensures WellFormed(BlockEvents(owned, b, h, n)) && LocksFrom(BlockEvents(owned, b, h, n), TxIds(b, n))
    ensures forall e :: e in BlockEvents(owned, b, h, n) ==> EventInTime(e, h)
  {
    hide Key, WellFormed;
    if n == 0 {
      EmptyWellFormed();
    } else {
      BlockGood(owned, b, h, n - 1);
      TxGood(owned, b.txs[n-1], h);
      if b.txs[n-1].id in TxIds(b, n - 1) { var i := IdInBlock(b, n - 1, b.txs[n-1].id); }
      JoinedById(BlockEvents(owned, b, h, n - 1), TxEvents(owned, b.txs[n-1], h), TxIds(b, n - 1), {b.txs[n-1].id});
    }
  }

  lemma EmptyWellFormed()
    ensures WellFormed([])
  {
  }

  function ChainIds(chain: Chain, n: nat): set<Hash32>
    requires n <= |chain|
  {
    if n == 0 then {} else ChainIds(chain, n - 1) + TxIds(chain[n-1], |chain[n-1].txs|)
  }

  lemma {:induction false} IdIsSomewhere(chain: Chain, n: nat, id: Hash32) returns (h: nat, i: nat)
    requires n <= |chain| && id in ChainIds(chain, n)
    ensures h < n && IdAt(chain, h, i) == Some(id)
  {
    if id in TxIds(chain[n-1], |chain[n-1].txs|) {
      h := n - 1;
      i := IdPlace(chain, h, id);
    } else {
      h, i := IdIsSomewhere(chain, n - 1, id);
    }
  }

  lemma IdPlace(chain: Chain, h: nat, id: Hash32) returns (i: nat)
    requires h < |chain| && id in TxIds(chain[h], |chain[h].txs|)
    ensures IdAt(chain, h, i) == Some(id)
  {
    i := IdInBlock(chain[h], |chain[h].txs|, id);
  }

  lemma NotInLater(chain: Chain, h: nat, id: Hash32, a: nat, i: nat)
    requires GoodChain(chain) && a < h < |chain| && IdAt(chain, a, i) == Some(id)
    ensures id !in TxIds(chain[h], |chain[h].txs|)
  {
    if id in TxIds(chain[h], |chain[h].txs|) { var j := IdPlace(chain, h, id); }
  }

  lemma {:induction false} ChainGood(owned: Owned, chain: Chain, n: nat)
    requires GoodChain(chain) && n <= |chain|
    ensures WellFormed(EventsTo(owned, chain, n)) && LocksFrom(EventsTo(owned, chain, n), ChainIds(chain, n))
  {
    hide Key, WellFormed, LocksFrom;
    if n == 0 {
      EmptyWellFormed();
      assert LocksFrom([], {}) by { NoLocks(); }
    } else {
      ChainGood(owned, chain, n - 1);
      BlockInTime(owned, chain, n - 1);
      var ids := TxIds(chain[n-1], |chain[n-1].txs|);
      forall id | id in ChainIds(chain, n - 1) ensures id !in ids {
        var a, i := IdIsSomewhere(chain, n - 1, id);
        NotInLater(chain, n - 1, id, a, i);
      }
      JoinedById(EventsTo(owned, chain, n - 1), EventsOf(owned, chain, n - 1), ChainIds(chain, n - 1), ids);
    }
  }

  lemma NoLocks()
    ensures LocksFrom([], {})
  {
  }

  lemma BlockInTime(owned: Owned, chain: Chain, h: nat)
    requires GoodChain(chain) && h < |chain|
    ensures WellFormed(EventsOf(owned, chain, h)) && LocksFrom(EventsOf(owned, chain, h), TxIds(chain[h], |chain[h].txs|))
    ensures forall e :: e in EventsOf(owned, chain, h) ==> EventInTime(e, h)
  {
    forall i, j | 0 <= i < |chain[h].txs| && 0 <= j < |chain[h].txs| && chain[h].txs[i].id == chain[h].txs[j].id ensures i == j {
      assert IdAt(chain, h, i) == IdAt(chain, h, j);
    }
    BlockGood(owned, chain[h], h, |chain[h].txs|);
  }
}
