/** The chain-driven recovery passes (src/swap.rs:2591-2967): stranded EXFER locks, stranded BNB locks found by
    getLogs, and stranded BNB locks named by the pool. */
module Sweep {
  import opened Common
  import opened Bytes
  import opened Ascii
  import SwapModel
  import opened JournalStore
  import LogScan

  type Outpoint = (Hash32, u32)

  // ----- one indexer row -----

  datatype RowParams = RowParams(sender: Str, timeout: Option<u64>, receiver: Option<Str>, hashLock: Option<Str>)

  /** A JSON row of the indexer; `None` is a field that is missing or has the wrong type.  An absent sender
      reads as the empty string. */
  datatype Row = Row(
    params: Option<RowParams>, claimed: bool, reclaimed: bool, lockTx: Option<Str>, outputIndex: Option<u64>)

  datatype ReclaimableLock = ReclaimableLock(
    lockTx: Hash32, outputIndex: u32, receiver: Hash32, hashlock: Hash32, timeout: u64, hashlock0x: Str)

  /** trim_start_matches("0x"). */
  function Strip0x(s: Str): Str {
    if |s| >= 2 && s[0] == 48 && s[1] == 120 then Strip0x(s[2..]) else s
  }

  function Hash256FromHex(s: Str): Option<Hash32> {
    match HexBytes(Strip0x(s))
    case Some(b) => if |b| == 32 then Some(b) else None
    case None => None
  }

  function HashField(s: Option<Str>): Option<Hash32> {
    match s
    case Some(t) => Hash256FromHex(t)
    case None => None
  }

  const PREFIX_0X: Str := [48, 120]

  function DecodeReclaimableLock(mine: Str, tip: u64, h: Row): Option<ReclaimableLock> {
    if h.params.None? then None
    else
      var p := h.params.value;
      if ToLower(p.sender) != ToLower(mine) then None
      else if h.claimed || h.reclaimed then None
      else if p.timeout.None? || tip <= p.timeout.value then None
      else if h.lockTx.None? || h.outputIndex.None? || h.outputIndex.value >= 0x1_0000_0000 then None
      else if HashField(h.lockTx).None? || HashField(p.receiver).None? || HashField(p.hashLock).None? then None
      else
        Some(ReclaimableLock(HashField(h.lockTx).value, h.outputIndex.value, HashField(p.receiver).value,
                             HashField(p.hashLock).value, p.timeout.value, PREFIX_0X + Strip0x(p.hashLock.value)))
  }

  /** Unspent, sent by us, strictly past the timeout, and every field readable. */
  predicate Reclaimable(mine: Str, tip: u64, h: Row) {
    && !h.claimed && !h.reclaimed
    && h.params.Some? && ToLower(h.params.value.sender) == ToLower(mine)
    && h.params.value.timeout.Some? && tip > h.params.value.timeout.value
    && HashField(h.lockTx).Some? && HashField(h.params.value.receiver).Some? && HashField(h.params.value.hashLock).Some?
    && h.outputIndex.Some? && h.outputIndex.value < 0x1_0000_0000
  }

  lemma ReclaimableIff(mine: Str, tip: u64, h: Row)
    ensures DecodeReclaimableLock(mine, tip, h).Some? <==> Reclaimable(mine, tip, h)
    ensures Reclaimable(mine, tip, h) ==>
              var lock := DecodeReclaimableLock(mine, tip, h).value;
              tip > lock.timeout && Hash256FromHex(lock.hashlock0x) == Some(lock.hashlock)
  {
    hide ToLower;
    if Reclaimable(mine, tip, h) { StripAgain(h.params.value.hashLock.value); }
  }

  lemma {:induction false} StripIdempotent(s: Str)
    ensures Strip0x(Strip0x(s)) == Strip0x(s)
  {
    if |s| >= 2 && s[0] == 48 && s[1] == 120 { StripIdempotent(s[2..]); }
  }

  lemma StripAgain(s: Str)
    ensures Strip0x(PREFIX_0X + Strip0x(s)) == Strip0x(s)
  {
    StripIdempotent(s);
    assert (PREFIX_0X + Strip0x(s))[2..] == Strip0x(s);
  }

  // ----- what the passes do -----

  /** Reclaim broadcasts of a session, with what each was based on. */
  datatype Attempt =
    | ExferTry(tip: u64, row: RowView)
    | BnbTry(now: u64, lock: BnbView)

  /** The two dedup sets and the attempts made. */
  datatype Book = Book(locks: set<Outpoint>, bnb: set<Str>, log: seq<Attempt>)

  /** An indexer row for one of our keys, and whether a reclaim of it would be accepted. */
  datatype RowView = RowView(mine: Str, row: Row, accepts: bool)

  /** A lock, named by contract and hashlock string, what getSwap answers there (whether Locked, and the timeout;
      `None` is a failed read), and whether a refund sent there would be accepted. */
  datatype BnbView = BnbView(contract: Address, hashlock: Str, read: Option<(bool, u64)>, accepts: bool)

  type Address = SwapModel.Address

  function OutpointOf(l: ReclaimableLock): Outpoint { (l.lockTx, l.outputIndex) }

  function TryExfer(b: Book, tip: u64, v: RowView): Book {
    match DecodeReclaimableLock(v.mine, tip, v.row)
    case None => b
    case Some(lock) =>
      if OutpointOf(lock) in b.locks then b
      else Book(if v.accepts then b.locks + {OutpointOf(lock)} else b.locks, b.bnb, b.log + [ExferTry(tip, v)])
  }

  predicate Refundable(v: BnbView, now: u64) { v.read.Some? && v.read.value.0 && now >= v.read.value.1 }

  /** The set knows a hashlock, whichever contract it was refunded on. */
  function TryBnb(b: Book, now: u64, v: BnbView): Book {
    if !Refundable(v, now) || ToLower(v.hashlock) in b.bnb then b
    else Book(b.locks, if v.accepts then b.bnb + {ToLower(v.hashlock)} else b.bnb, b.log + [BnbTry(now, v)])
  }

  function ExferPass(b: Book, tip: u64, views: seq<RowView>): Book {
    if views == [] then b else TryExfer(ExferPass(b, tip, views[..|views|-1]), tip, views[|views|-1])
  }

  function BnbPass(b: Book, now: u64, views: seq<BnbView>): Book {
    if views == [] then b else TryBnb(BnbPass(b, now, views[..|views|-1]), now, views[|views|-1])
  }

  const BSC_SWEEP_REORG_MARGIN: nat := 50

  /** The first block the getLogs scan asks for. */
  function ScanFrom(cursor: nat, deploy: nat): nat {
    if cursor == 0 then deploy else Max(Max(cursor - BSC_SWEEP_REORG_MARGIN, 0), deploy)
  }

  /** The hashlock a recovery is mirrored under. */
  function Recovered(log: seq<Attempt>): seq<Str> {
    if log == [] then []
    else
      Recovered(log[..|log|-1]) +
      match log[|log|-1]
      case ExferTry(tip, v) =>
        var d := DecodeReclaimableLock(v.mine, tip, v.row);
        if v.accepts && d.Some? then [d.value.hashlock0x] else []
      case BnbTry(_, v) => if v.accepts then [v.hashlock] else []
  }

  /** hashlock_from_log: how the scan spells what it finds. */
  function To0x(h: Hash32): Str { PREFIX_0X + HexOf(h) }

  /** The hashlocks a scan yields, with what getSwap answers about each on the scanned contract and whether a
      refund would be accepted. */
  function ViewsOf(home: Address, hs: seq<Hash32>, answers: Hash32 -> Option<(bool, u64)>, accepts: Hash32 -> bool): (vs: seq<BnbView>)
    ensures |vs| == |hs|
    ensures forall i :: 0 <= i < |hs| ==> vs[i] == BnbView(home, To0x(hs[i]), answers(hs[i]), accepts(hs[i]))
  {
    if hs == [] then []
    else
      var h := hs[|hs|-1];
      ViewsOf(home, hs[..|hs|-1], answers, accepts) + [BnbView(home, To0x(h), answers(h), accepts(h))]
  }

  /** The log only grows, and the journal mirrors what was recovered since. */
  ghost predicate MirrorsLog(before: map<Key, Entry>, after: map<Key, Entry>, log0: seq<Attempt>, log: seq<Attempt>, wall: nat) {
    log0 <= log && MirroredAll(before, after, Recovered(log[|log0|..]), wall)
  }

  lemma MirrorsNothing(records: map<Key, Entry>, log: seq<Attempt>, wall: nat)
    ensures MirrorsLog(records, records, log, log, wall)
  {
  }

  lemma MirrorsOne(before: map<Key, Entry>, mid: map<Key, Entry>, after: map<Key, Entry>, log0: seq<Attempt>, log: seq<Attempt>, a: Attempt, wall: nat)
    requires MirrorsLog(before, mid, log0, log, wall)
    requires Recovered([a]) == [] ==> after == mid
    requires Recovered([a]) != [] ==> Mirrored(mid, after, Recovered([a])[0], wall)
    ensures MirrorsLog(before, after, log0, log + [a], wall)
  {
    hide Mirrored, MirroredAll, DecodeReclaimableLock;
    var since := log[|log0|..];
    assert (log + [a])[|log0|..] == since + [a] && (since + [a])[..|since|] == since && [a][..0] == [];
    assert Recovered([a]) == Recovered([a][..0]) + Recovered([a]);
    assert Recovered(since + [a]) == Recovered(since) + Recovered([a]);
    if Recovered([a]) == [] { assert Recovered(since) + [] == Recovered(since); }
    if Recovered([a]) != [] { MirroredOn(before, mid, after, Recovered(since), Recovered([a])[0], wall); }
  }

  /** `home` is the chain's fixed contract and `deploy` its first block.  `wall` is the daemon's clock, which stamps
      the journal; `now` is the chain's. */
  class Sweeper {
    const journal: Journal
    const home: Address
    const deploy: nat
    var sweptLocks: set<Outpoint>
    var sweptBnb: set<Str>
    var cursor: nat
    ghost var log: seq<Attempt>

    ghost function View(): Book
      reads this
    {
      Book(sweptLocks, sweptBnb, log)
    }

    constructor (journal: Journal, home: Address, deploy: nat)
      ensures View() == Book({}, {}, []) && cursor == 0
      ensures this.journal == journal && this.home == home && this.deploy == deploy
    {
      this.journal, this.home, this.deploy := journal, home, deploy;
      sweptLocks, sweptBnb, cursor, log := {}, {}, 0, [];
    }

    /** Show a recovered swap as refunded, if the journal still has it. */
    method MirrorRefund(hashlock: Str, wall: nat, io: bool)
      requires journal.Valid()
      modifies journal
      ensures journal.Valid() && Mirrored(old(journal.records), journal.records, hashlock, wall)
      ensures journal.file == if io && journal.records != old(journal.records) then journal.records else old(journal.file)
    {
      hide ToLower, SwapModel.Terminal;
      var found := journal.FindLive(hashlock);
      if found.Some? {
        ghost var before := journal.records;
        assert IsLive(before[found.value], hashlock);
        var ok := journal.Update(found.value, wall, (e: Entry) => e.(status := SwapModel.Status.Refunded), io);
        assert journal.records == Marked(before, found.value, wall);
        MarkedDiffers(before, found.value, hashlock, wall);
      }
    }

    /** sweep_stranded_locks, over the rows of every key in turn. */
    method SweepStrandedLocks(tip: u64, views: seq<RowView>, wall: nat, io: bool)
      requires journal.Valid()
      modifies this, journal
      ensures View() == ExferPass(old(View()), tip, views) && cursor == old(cursor) && journal.Valid()
      ensures MirrorsLog(old(journal.records), journal.records, old(log), log, wall)
    {
      hide DecodeReclaimableLock, IsLive, MirrorsLog, Mirrored;
      MirrorsNothing(journal.records, log, wall);
      for i := 0 to |views|
        invariant View() == ExferPass(old(View()), tip, views[..i]) && cursor == old(cursor) && journal.Valid()
        invariant MirrorsLog(old(journal.records), journal.records, old(log), log, wall)
      {
        assert views[..i + 1][..i] == views[..i];
        SweepOneRow(tip, views[i], wall, io, old(journal.records), old(log));
      }
      assert views[..|views|] == views;
    }

    method SweepOneRow(tip: u64, v: RowView, wall: nat, io: bool, ghost before: map<Key, Entry>, ghost log0: seq<Attempt>)
      requires journal.Valid() && MirrorsLog(before, journal.records, log0, log, wall)
      modifies this, journal
      ensures View() == TryExfer(old(View()), tip, v) && cursor == old(cursor) && journal.Valid()
      ensures MirrorsLog(before, journal.records, log0, log, wall)
    {
      hide DecodeReclaimableLock, IsLive, MirrorsLog, Mirrored;
      match DecodeReclaimableLock(v.mine, tip, v.row) {
        case None =>
        case Some(lock) =>
          var outpoint := OutpointOf(lock);
          if outpoint in sweptLocks { return; }
          ghost var a, mid, logged := ExferTry(tip, v), journal.records, log;
          assert Recovered([a]) == if v.accepts then [lock.hashlock0x] else [] by { RecoveredOne(a); }
          sweptLocks := sweptLocks + {outpoint};
          log := log + [a];
          if v.accepts {
            MirrorRefund(lock.hashlock0x, wall, io);
          } else {
            sweptLocks := sweptLocks - {outpoint};
            assert sweptLocks == old(sweptLocks);
          }
          MirrorsOne(before, mid, journal.records, log0, logged, a, wall);
      }
    }

    method SweepOneBnb(v: BnbView, now: u64, mirror: bool, wall: nat, io: bool)
      requires journal.Valid()
      modifies this, journal
      ensures View() == TryBnb(old(View()), now, v) && cursor == old(cursor) && journal.Valid()
      ensures log == old(log) || log == old(log) + [BnbTry(now, v)]
      ensures if mirror && log != old(log) && v.accepts then Mirrored(old(journal.records), journal.records, v.hashlock, wall)
              else journal.records == old(journal.records)
      ensures !mirror ==> journal.file == old(journal.file)
    {
      hide ToLower, IsLive, Mirrored;
      if v.read.None? || !v.read.value.0 || now < v.read.value.1 { return; }
      var key := ToLower(v.hashlock);
      if key in sweptBnb { return; }
      sweptBnb := sweptBnb + {key};
      log := log + [BnbTry(now, v)];
      assert |log| > |old(log)|;
      if v.accepts {
        if mirror { MirrorRefund(v.hashlock, wall, io); }
      } else {
        sweptBnb := sweptBnb - {key};
        assert sweptBnb == old(sweptBnb);
      }
    }

    /** The blocks the next getLogs pass up to `tip` scans; `None` when there is nothing new. */
    method NextScan(tip: nat) returns (from: Option<nat>)
      ensures from == if ScanFrom(cursor, deploy) > tip then None else Some(ScanFrom(cursor, deploy))
    {
      var start := if cursor == 0 then deploy else Max(Max(cursor - BSC_SWEEP_REORG_MARGIN, 0), deploy);
      if start > tip { return None; }
      return Some(start);
    }

    /** sweep_stranded_bnb_locks: scan from the cursor, then try each hashlock found.  However the scan went,
        the cursor ends past the tip. */
    method SweepStrandedBnbLocks(rpc: LogScan.Rpc, tip: u64, now: u64, answers: Hash32 -> Option<(bool, u64)>, accepts: Hash32 -> bool, wall: nat, io: bool)
      returns (ghost spans: seq<LogScan.Span>, ghost stop: nat, ghost calls: nat)
      requires journal.Valid() && tip <= U64_MAX - LogScan.WINDOW
      modifies this, journal
      ensures journal.Valid() && MirrorsLog(old(journal.records), journal.records, old(log), log, wall)
      ensures ScanFrom(old(cursor), deploy) > tip ==> View() == old(View()) && cursor == old(cursor)
      ensures ScanFrom(old(cursor), deploy) <= tip ==>
                && cursor == tip + 1
                && LogScan.ScanOf(rpc, ScanFrom(old(cursor), deploy), tip, spans, stop, calls)
                && View() == BnbPass(old(View()), now, ViewsOf(home, LogScan.Dedup(LogScan.Found(spans)), answers, accepts))
    {
      hide MirrorsLog, Mirrored, ToLower, LogScan.ScanOf, LogScan.Dedup, LogScan.Found, To0x;
      MirrorsNothing(journal.records, log, wall);
      spans, stop, calls := [], 0, 0;
      var from := NextScan(tip);
      if from.None? { return; }
      var found, made;
      found, made, spans, stop := LogScan.LockedHashlocksBySender(rpc, from.value, tip);
      calls := made;
      LogScan.IsScan(rpc, from.value, tip, spans, stop, calls);
      var views := ViewsOf(home, found, answers, accepts);
      for i := 0 to |views|
        invariant View() == BnbPass(old(View()), now, views[..i]) && journal.Valid()
        invariant MirrorsLog(old(journal.records), journal.records, old(log), log, wall)
      {
        assert views[..i + 1][..i] == views[..i];
        ghost var mid, logged := journal.records, log;
        SweepOneBnb(views[i], now, true, wall, io);
        if log != logged {
          RecoveredOne(BnbTry(now, views[i]));
          MirrorsOne(old(journal.records), mid, journal.records, old(log), logged, BnbTry(now, views[i]), wall);
        }
      }
      assert views[..|views|] == views;
      cursor := tip + 1;
    }

    /** recover_stranded_bnb_via_pool: the same set, contracts as the pool names them and hashlock strings as it
        spells them.  The journal is left alone. */
    method RecoverStrandedBnbViaPool(now: u64, views: seq<BnbView>)
      requires journal.Valid()
      modifies this, journal
      ensures View() == BnbPass(old(View()), now, views) && cursor == old(cursor)
      ensures journal.Valid() && journal.records == old(journal.records) && journal.file == old(journal.file)
    {
      for i := 0 to |views|
        invariant View() == BnbPass(old(View()), now, views[..i]) && cursor == old(cursor)
        invariant journal.Valid() && journal.records == old(journal.records) && journal.file == old(journal.file)
      {
        assert views[..i + 1][..i] == views[..i];
        SweepOneBnb(views[i], now, false, 0, true);
      }
      assert views[..|views|] == views;
    }
  }

  lemma MarkedDiffers(records: map<Key, Entry>, k: Key, hashlock: Str, now: nat)
    requires k in records && IsLive(records[k], hashlock)
    ensures Marked(records, k, now) != records
  {
    assert Marked(records, k, now)[k].status != records[k].status;
  }

  lemma RecoveredOne(a: Attempt)
    ensures Recovered([a]) == match a
      case ExferTry(tip, v) =>
        (if v.accepts && DecodeReclaimableLock(v.mine, tip, v.row).Some? then [DecodeReclaimableLock(v.mine, tip, v.row).value.hashlock0x] else [])
      case BnbTry(_, v) => if v.accepts then [v.hashlock] else []
  {
    hide DecodeReclaimableLock;
    assert [a][..0] == [] && Recovered([a][..0]) == [];
  }

  // ----- sessions -----

  datatype Pass = Exfer(tip: u64, rows: seq<RowView>) | Bnb(now: u64, locks: seq<BnbView>)

  /** Passes in any order since start-up. */
  function Session(passes: seq<Pass>): Book {
    if passes == [] then Book({}, {}, [])
    else
      var b := Session(passes[..|passes|-1]);
      match passes[|passes|-1]
      case Exfer(tip, rows) => ExferPass(b, tip, rows)
      case Bnb(now, locks) => BnbPass(b, now, locks)
  }

  predicate ReclaimedAt(log: seq<Attempt>, i: int, op: Outpoint) {
    && 0 <= i < |log| && log[i].ExferTry? && log[i].row.accepts
    && DecodeReclaimableLock(log[i].row.mine, log[i].tip, log[i].row.row).Some?
    && OutpointOf(DecodeReclaimableLock(log[i].row.mine, log[i].tip, log[i].row.row).value) == op
  }

  predicate Refunded(log: seq<Attempt>, i: int) { 0 <= i < |log| && log[i].BnbTry? && log[i].lock.accepts }

  predicate RefundedAt(log: seq<Attempt>, i: int, key: Str) {
    Refunded(log, i) && ToLower(log[i].lock.hashlock) == key
  }

  /** Each attempt was for a lock then seen unsettled and past its timeout (EXFER: and sent by us). */
  predicate Due(a: Attempt) {
    match a
    case ExferTry(tip, v) => Reclaimable(v.mine, tip, v.row)
    case BnbTry(now, v) => Refundable(v, now)
  }

  /** The sets hold exactly what has been recovered, each of it once. */
  ghost predicate Balanced(b: Book) {
    && (forall op :: op in b.locks <==> exists i :: ReclaimedAt(b.log, i, op))
    && (forall i, j, op :: ReclaimedAt(b.log, i, op) && ReclaimedAt(b.log, j, op) ==> i == j)
    && (forall key :: key in b.bnb <==> exists i :: RefundedAt(b.log, i, key))
    && (forall i, j, key :: RefundedAt(b.log, i, key) && RefundedAt(b.log, j, key) ==> i == j)
    && (forall i :: 0 <= i < |b.log| ==> Due(b.log[i]))
  }

  lemma Appended(log: seq<Attempt>, a: Attempt)
    ensures forall i, op :: ReclaimedAt(log + [a], i, op) <==> ReclaimedAt(log, i, op) || (i == |log| && ReclaimedAt([a], 0, op))
    ensures forall i, key :: RefundedAt(log + [a], i, key) <==> RefundedAt(log, i, key) || (i == |log| && RefundedAt([a], 0, key))
  {
  }

  lemma TryExferBalanced(b: Book, tip: u64, v: RowView)
    requires Balanced(b)
    ensures Balanced(TryExfer(b, tip, v))
  {
    hide DecodeReclaimableLock, Reclaimable, ToLower;
    ReclaimableIff(v.mine, tip, v.row);
    var d := DecodeReclaimableLock(v.mine, tip, v.row);
    if d.Some? && OutpointOf(d.value) !in b.locks {
      var a, b' := ExferTry(tip, v), TryExfer(b, tip, v);
      Appended(b.log, a);
      forall op | op in b'.locks ensures exists i :: ReclaimedAt(b'.log, i, op) {
        if op in b.locks {
          var i :| ReclaimedAt(b.log, i, op);
          assert ReclaimedAt(b'.log, i, op);
        } else {
          assert ReclaimedAt(b'.log, |b.log|, op);
        }
      }
      forall key | key in b'.bnb ensures exists i :: RefundedAt(b'.log, i, key) {
        var i :| RefundedAt(b.log, i, key);
        assert RefundedAt(b'.log, i, key);
      }
    }
  }

  lemma TryBnbBalanced(b: Book, now: u64, v: BnbView)
    requires Balanced(b)
    ensures Balanced(TryBnb(b, now, v))
  {
    hide DecodeReclaimableLock, Reclaimable, ToLower;
    if Refundable(v, now) && ToLower(v.hashlock) !in b.bnb {
      var a, b' := BnbTry(now, v), TryBnb(b, now, v);
      Appended(b.log, a);
      forall op | op in b'.locks ensures exists i :: ReclaimedAt(b'.log, i, op) {
        var i :| ReclaimedAt(b.log, i, op);
        assert ReclaimedAt(b'.log, i, op);
      }
      forall key | key in b'.bnb ensures exists i :: RefundedAt(b'.log, i, key) {
        if key in b.bnb {
          var i :| RefundedAt(b.log, i, key);
          assert RefundedAt(b'.log, i, key);
        } else {
          assert RefundedAt(b'.log, |b.log|, key);
        }
      }
    }
  }

  lemma {:induction false} ExferPassBalanced(b: Book, tip: u64, views: seq<RowView>)
    requires Balanced(b)
    ensures Balanced(ExferPass(b, tip, views))
  {
    hide Balanced, TryExfer;
    if views != [] {
      ExferPassBalanced(b, tip, views[..|views|-1]);
      TryExferBalanced(ExferPass(b, tip, views[..|views|-1]), tip, views[|views|-1]);
    }
  }

  lemma {:induction false} BnbPassBalanced(b: Book, now: u64, views: seq<BnbView>)
    requires Balanced(b)
    ensures Balanced(BnbPass(b, now, views))
  {
    hide Balanced, TryBnb;
    if views != [] {
      BnbPassBalanced(b, now, views[..|views|-1]);
      TryBnbBalanced(BnbPass(b, now, views[..|views|-1]), now, views[|views|-1]);
    }
  }

  lemma {:induction false} SessionBalanced(passes: seq<Pass>)
    ensures Balanced(Session(passes))
  {
    if passes != [] {
      SessionBalanced(passes[..|passes|-1]);
      var b := Session(passes[..|passes|-1]);
      hide Balanced;
      match passes[|passes|-1]
      case Exfer(tip, rows) => ExferPassBalanced(b, tip, rows);
      case Bnb(now, locks) => BnbPassBalanced(b, now, locks);
    }
  }

  // ----- at most once -----

  /** The prefixes in front of the digits. */
  lemma {:induction false} StripShape(s: Str) returns (n: nat)
    ensures s == Prefixes0x(n) + Strip0x(s) && ToLower(Prefixes0x(n)) == Prefixes0x(n)
    ensures |s| == 2 * n + |Strip0x(s)|
  {
    if |s| >= 2 && s[0] == 48 && s[1] == 120 {
      n := StripShape(s[2..]);
      n := n + 1;
      assert s == PREFIX_0X + s[2..];
      assert PREFIX_0X + (Prefixes0x(n - 1) + Strip0x(s)) == Prefixes0x(n) + Strip0x(s);
      LowerJoined(PREFIX_0X, Prefixes0x(n - 1));
      assert ToLower(PREFIX_0X) == PREFIX_0X;
    } else {
      n := 0;
      assert Prefixes0x(0) + s == s;
    }
  }

  function Prefixes0x(n: nat): (s: Str)
    ensures |s| == 2 * n
  {
    if n == 0 then [] else PREFIX_0X + Prefixes0x(n - 1)
  }

  lemma LowerJoined(a: Str, b: Str)
    ensures ToLower(a + b) == ToLower(a) + ToLower(b)
  {
  }

  /** Two spellings of one hashlock have one key in the dedup set exactly when they have equally many 0x. */
  lemma OneKeyIff(a: Str, b: Str)
    requires Hash256FromHex(a).Some? && Hash256FromHex(a) == Hash256FromHex(b)
    ensures ToLower(a) == ToLower(b) <==> |a| == |b|
  {
    var m := StripShape(a);
    var n := StripShape(b);
    hide ToLower;
    assert |ToLower(a)| == |a| && |ToLower(b)| == |b| by { LowerLength(a); LowerLength(b); }
    HexBytesLength(Strip0x(a));
    HexBytesLength(Strip0x(b));
    SameBytesSameLower(Strip0x(a), Strip0x(b));
    LowerJoined(Prefixes0x(m), Strip0x(a));
    LowerJoined(Prefixes0x(n), Strip0x(b));
  }

  lemma LowerLength(s: Str)
    ensures |ToLower(s)| == |s|
  {
  }

  /** No session recovers one contract's lock under both spellings. */
  ghost predicate NeverBoth(a: Str, b: Str) {
    forall passes: seq<Pass>, i: int, j: int :: i != j ==> !RecoversBoth(Session(passes).log, i, j, a, b)
  }

  predicate RecoversBoth(log: seq<Attempt>, i: int, j: int, a: Str, b: Str) {
    && Refunded(log, i) && Refunded(log, j) && log[i].lock.contract == log[j].lock.contract
    && log[i].lock.hashlock == a && log[j].lock.hashlock == b
  }

  /** Per session, each EXFER outpoint is successfully reclaimed at most once, and so is each BNB key, whichever
      pass found it. */
  lemma AtMostOneReclaim(passes: seq<Pass>, i: nat, j: nat)
    requires i < j < |Session(passes).log|
    ensures forall op :: !(ReclaimedAt(Session(passes).log, i, op) && ReclaimedAt(Session(passes).log, j, op))
    ensures forall key :: !(RefundedAt(Session(passes).log, i, key) && RefundedAt(Session(passes).log, j, key))
  {
    SessionBalanced(passes);
  }

  /** Two spellings of one on-chain hashlock, any two: no session refunds it under both exactly when they carry
      equally many 0x prefixes.  Otherwise one pass that is shown both refunds it twice. */
  lemma RefundedOnceIff(a: Str, b: Str)
    requires Hash256FromHex(a).Some? && Hash256FromHex(a) == Hash256FromHex(b)
    ensures NeverBoth(a, b) <==> |a| == |b|
  {
    OneKeyIff(a, b);
    if |a| == |b| {
      forall passes: seq<Pass>, i: int, j: int | i != j ensures !RecoversBoth(Session(passes).log, i, j, a, b) {
        NotBoth(passes, i, j, a, b);
      }
    } else {
      TwoRefunds(0, a, b, 0);
      assert RecoversBoth(Session([BothShown(0, a, b, 0)]).log, 0, 1, a, b);
    }
  }

  lemma NotBoth(passes: seq<Pass>, i: int, j: int, a: Str, b: Str)
    requires i != j && ToLower(a) == ToLower(b)
    ensures !RecoversBoth(Session(passes).log, i, j, a, b)
  {
    hide Session, ToLower;
    SessionBalanced(passes);
    var log := Session(passes).log;
    assert RefundedAt(log, i, ToLower(a)) && RefundedAt(log, j, ToLower(a)) ==> i == j;
  }

  /** A pass that is shown a locked, refundable swap under two spellings. */
  function BothShown(c: Address, a: Str, b: Str, now: u64): Pass {
    Bnb(now, [BnbView(c, a, Some((true, 0)), true), BnbView(c, b, Some((true, 0)), true)])
  }

  lemma TwoRefunds(c: Address, a: Str, b: Str, now: u64)
    ensures |Session([BothShown(c, a, b, now)]).log| == 2 <==> ToLower(a) != ToLower(b)
    ensures ToLower(a) != ToLower(b) ==> RecoversBoth(Session([BothShown(c, a, b, now)]).log, 0, 1, a, b)
  {
    hide ToLower;
    var p := BothShown(c, a, b, now);
    var views, b0 := p.locks, Book({}, {}, []);
    assert [p][..0] == [] && views[..1] == [views[0]] && views[..1][..0] == [];
    assert Session([p]) == BnbPass(b0, now, views);
    assert BnbPass(b0, now, views[..1]) == TryBnb(b0, now, views[0]);
  }

  /** A pool that spells a hashlock without its 0x slips past the shared set. */
  lemma BareSpellingSweptTwice(bare: Str)
    requires Hash256FromHex(PREFIX_0X + bare).Some? && Strip0x(bare) == bare
    ensures !NeverBoth(PREFIX_0X + bare, bare) && Hash256FromHex(PREFIX_0X + bare) == Hash256FromHex(bare)
  {
    StripAgain(bare);
    RefundedOnceIff(PREFIX_0X + bare, bare);
  }

  // ----- tried exactly when shown -----

  /** One view a session was shown, and the chain's clock then. */
  datatype Sight = Sight(now: u64, view: BnbView)

  function Sights(now: u64, views: seq<BnbView>): seq<Sight> {
    if views == [] then [] else Sights(now, views[..|views|-1]) + [Sight(now, views[|views|-1])]
  }

  /** All the BNB locks a session was shown, in order. */
  function Shown(passes: seq<Pass>): seq<Sight> {
    if passes == [] then []
    else
      Shown(passes[..|passes|-1]) +
      match passes[|passes|-1]
      case Exfer(_, _) => []
      case Bnb(now, locks) => Sights(now, locks)
  }

  /** The lock of contract `c` under this key, seen refundable. */
  predicate DueOn(s: Sight, c: Address, key: Str) {
    s.view.contract == c && ToLower(s.view.hashlock) == key && Refundable(s.view, s.now)
  }

  /** A refund under the same key on another contract, which would be accepted. */
  predicate Elsewhere(s: Sight, c: Address, key: Str) {
    s.view.contract != c && ToLower(s.view.hashlock) == key && Refundable(s.view, s.now) && s.view.accepts
  }

  ghost predicate Diverted(seen: seq<Sight>, c: Address, key: Str) { exists i :: 0 <= i < |seen| && Elsewhere(seen[i], c, key) }

  /** The lock was seen refundable when no refund elsewhere had taken its key. */
  ghost predicate FoundDue(seen: seq<Sight>, c: Address, key: Str) {
    exists n :: 0 <= n < |seen| && DueOn(seen[n], c, key) && !Diverted(seen[..n], c, key)
  }

  /** And its refund would be accepted then. */
  ghost predicate FoundWilling(seen: seq<Sight>, c: Address, key: Str) {
    exists n :: 0 <= n < |seen| && DueOn(seen[n], c, key) && seen[n].view.accepts && !Diverted(seen[..n], c, key)
  }

  /** An attempt for this lock. */
  predicate TriedAt(log: seq<Attempt>, i: int, c: Address, key: Str) {
    0 <= i < |log| && log[i].BnbTry? && log[i].lock.contract == c && ToLower(log[i].lock.hashlock) == key
  }

  ghost predicate HasTried(log: seq<Attempt>, c: Address, key: Str) { exists i :: TriedAt(log, i, c, key) }

  ghost predicate HasRefunded(log: seq<Attempt>, c: Address, key: Str) { exists i :: TriedAt(log, i, c, key) && log[i].lock.accepts }

  /** What was shown decides the set, the attempts and the recoveries. */
  ghost predicate Decided(b: Book, seen: seq<Sight>, c: Address, key: Str) {
    && (HasTried(b.log, c, key) <==> FoundDue(seen, c, key))
    && (HasRefunded(b.log, c, key) <==> FoundWilling(seen, c, key))
    && (key in b.bnb <==> FoundWilling(seen, c, key) || Diverted(seen, c, key))
  }

  lemma HasAppended(log: seq<Attempt>, a: Attempt, c: Address, key: Str)
    ensures HasTried(log + [a], c, key) <==> HasTried(log, c, key) || TriedAt([a], 0, c, key)
    ensures HasRefunded(log + [a], c, key) <==> HasRefunded(log, c, key) || (TriedAt([a], 0, c, key) && a.lock.accepts)
  {
    hide ToLower;
    var l := log + [a];
    if HasTried(log, c, key) { var i :| TriedAt(log, i, c, key); assert TriedAt(l, i, c, key); }
    if HasRefunded(log, c, key) { var i :| TriedAt(log, i, c, key) && log[i].lock.accepts; assert TriedAt(l, i, c, key); }
    if TriedAt([a], 0, c, key) { assert TriedAt(l, |log|, c, key); }
    if HasTried(l, c, key) { var i :| TriedAt(l, i, c, key); assert i < |log| ==> TriedAt(log, i, c, key); }
    if HasRefunded(l, c, key) { var i :| TriedAt(l, i, c, key) && l[i].lock.accepts; assert i < |log| ==> TriedAt(log, i, c, key); }
  }

  lemma DivertedJoined(a: seq<Sight>, b: seq<Sight>, c: Address, key: Str)
    ensures Diverted(a + b, c, key) <==> Diverted(a, c, key) || Diverted(b, c, key)
  {
    hide Elsewhere;
    if Diverted(a, c, key) { var i :| 0 <= i < |a| && Elsewhere(a[i], c, key); assert (a + b)[i] == a[i]; }
    if Diverted(b, c, key) { var i :| 0 <= i < |b| && Elsewhere(b[i], c, key); assert (a + b)[|a| + i] == b[i]; }
  }

  /** What is shown later counts only if the key was not taken elsewhere before. */
  lemma FoundJoined(a: seq<Sight>, b: seq<Sight>, c: Address, key: Str)
    ensures FoundDue(a + b, c, key) <==> FoundDue(a, c, key) || (FoundDue(b, c, key) && !Diverted(a, c, key))
    ensures FoundWilling(a + b, c, key) <==> FoundWilling(a, c, key) || (FoundWilling(b, c, key) && !Diverted(a, c, key))
  {
    hide DueOn, Diverted;
    var s := a + b;
    forall n | 0 <= n < |s|
      ensures n < |a| ==> s[n] == a[n] && s[..n] == a[..n]
      ensures n >= |a| ==> s[n] == b[n-|a|] && (Diverted(s[..n], c, key) <==> Diverted(a, c, key) || Diverted(b[..n-|a|], c, key))
    {
      if n >= |a| { assert s[..n] == a + b[..n-|a|]; DivertedJoined(a, b[..n-|a|], c, key); } else { assert s[..n] == a[..n]; }
    }
    if n :| 0 <= n < |a| && DueOn(a[n], c, key) && !Diverted(a[..n], c, key) { assert s[n] == a[n]; }
    if n :| 0 <= n < |a| && DueOn(a[n], c, key) && a[n].view.accepts && !Diverted(a[..n], c, key) { assert s[n] == a[n]; }
    if n :| 0 <= n < |b| && DueOn(b[n], c, key) && !Diverted(b[..n], c, key) { assert s[|a|+n] == b[n]; }
    if n :| 0 <= n < |b| && DueOn(b[n], c, key) && b[n].view.accepts && !Diverted(b[..n], c, key) { assert s[|a|+n] == b[n]; }
  }

  lemma FoundOne(s: Sight, c: Address, key: Str)
    ensures FoundDue([s], c, key) <==> DueOn(s, c, key)
    ensures FoundWilling([s], c, key) <==> DueOn(s, c, key) && s.view.accepts
    ensures Diverted([s], c, key) <==> Elsewhere(s, c, key)
  {
    hide DueOn, Elsewhere;
    assert [s][..0] == [] && [s][0] == s;
  }

  lemma TryBnbDecided(b: Book, now: u64, v: BnbView, seen: seq<Sight>, c: Address, key: Str)
    requires Decided(b, seen, c, key)
    ensures Decided(TryBnb(b, now, v), seen + [Sight(now, v)], c, key)
  {
    hide ToLower, HasTried, HasRefunded, FoundDue, FoundWilling, Diverted;
    var s := Sight(now, v);
    FoundOne(s, c, key);
    FoundJoined(seen, [s], c, key);
    DivertedJoined(seen, [s], c, key);
    WillingDue(seen, c, key);
    HasAppended(b.log, BnbTry(now, v), c, key);
  }

  lemma WillingDue(seen: seq<Sight>, c: Address, key: Str)
    ensures FoundWilling(seen, c, key) ==> FoundDue(seen, c, key)
  {
  }

  lemma {:induction false} BnbPassDecided(b: Book, now: u64, views: seq<BnbView>, seen: seq<Sight>, c: Address, key: Str)
    requires Decided(b, seen, c, key)
    ensures Decided(BnbPass(b, now, views), seen + Sights(now, views), c, key)
  {
    hide Decided, TryBnb;
    if views == [] {
      assert seen + [] == seen;
    } else {
      var rest, v := views[..|views|-1], views[|views|-1];
      BnbPassDecided(b, now, rest, seen, c, key);
      TryBnbDecided(BnbPass(b, now, rest), now, v, seen + Sights(now, rest), c, key);
      assert seen + (Sights(now, rest) + [Sight(now, v)]) == seen + Sights(now, rest) + [Sight(now, v)];
    }
  }

  lemma {:induction false} ExferPassDecided(b: Book, tip: u64, views: seq<RowView>, seen: seq<Sight>, c: Address, key: Str)
    requires Decided(b, seen, c, key)
    ensures Decided(ExferPass(b, tip, views), seen, c, key)
  {
    hide DecodeReclaimableLock, HasTried, HasRefunded, FoundDue, FoundWilling, Diverted;
    if views != [] {
      ExferPassDecided(b, tip, views[..|views|-1], seen, c, key);
      HasAppended(ExferPass(b, tip, views[..|views|-1]).log, ExferTry(tip, views[|views|-1]), c, key);
    }
  }

  lemma {:induction false} SessionDecided(passes: seq<Pass>, c: Address, key: Str)
    ensures Decided(Session(passes), Shown(passes), c, key)
  {
    if passes != [] {
      var rest := passes[..|passes|-1];
      SessionDecided(rest, c, key);
      hide Decided;
      match passes[|passes|-1]
      case Exfer(tip, rows) =>
        ExferPassDecided(Session(rest), tip, rows, Shown(rest), c, key);
        assert Shown(rest) + [] == Shown(rest);
      case Bnb(now, locks) => BnbPassDecided(Session(rest), now, locks, Shown(rest), c, key);
    }
  }

  /** In every session a lock, of whatever contract, is tried exactly when it is shown refundable at a time when no
      accepted refund under its key had been shown on another contract, and it is recovered exactly when its own
      refund would be accepted at one such time. */
  lemma TriedIff(passes: seq<Pass>, c: Address, key: Str)
    ensures HasTried(Session(passes).log, c, key) <==> FoundDue(Shown(passes), c, key)
    ensures HasRefunded(Session(passes).log, c, key) <==> FoundWilling(Shown(passes), c, key)
  {
    hide Session, HasTried, HasRefunded, FoundDue, FoundWilling;
    SessionDecided(passes, c, key);
  }

  lemma Undiverted(seen: seq<Sight>, home: Address, key: Str)
    requires forall i :: 0 <= i < |seen| ==> seen[i].view.contract == home
    ensures !Diverted(seen, home, key)
  {
  }

  /** Every attempt of a session was due. */
  lemma EveryAttemptDue(passes: seq<Pass>, i: nat)
    requires i < |Session(passes).log|
    ensures Due(Session(passes).log[i])
  {
    SessionBalanced(passes);
  }

  /** Until a reclaim of an outpoint has succeeded, the next pass that shows it reclaimable tries again; after
      that, none does. */
  lemma FailedStaysRetryable(passes: seq<Pass>, tip: u64, v: RowView)
    requires Reclaimable(v.mine, tip, v.row)
    ensures var b := Session(passes);
            var op := OutpointOf(DecodeReclaimableLock(v.mine, tip, v.row).value);
            TryExfer(b, tip, v).log == b.log + [ExferTry(tip, v)]
            <==> forall i :: !ReclaimedAt(b.log, i, op)
  {
    hide Reclaimable, Session;
    ReclaimableIff(v.mine, tip, v.row);
    SessionBalanced(passes);
    var b := Session(passes);
    var op := OutpointOf(DecodeReclaimableLock(v.mine, tip, v.row).value);
    assert op in b.locks <==> exists i :: ReclaimedAt(b.log, i, op);
    assert |b.log + [ExferTry(tip, v)]| == |b.log| + 1;
  }

  /** The same for a hashlock, as spelt: after a refund under its key on any contract, none follows. */
  lemma FailedRefundRetryable(passes: seq<Pass>, now: u64, v: BnbView)
    requires Refundable(v, now)
    ensures var b := Session(passes);
            TryBnb(b, now, v).log == b.log + [BnbTry(now, v)]
            <==> forall i :: !RefundedAt(b.log, i, ToLower(v.hashlock))
  {
    hide Session;
    SessionBalanced(passes);
    var b := Session(passes);
    assert ToLower(v.hashlock) in b.bnb <==> exists i :: RefundedAt(b.log, i, ToLower(v.hashlock));
    assert |b.log + [BnbTry(now, v)]| == |b.log| + 1;
  }
}
