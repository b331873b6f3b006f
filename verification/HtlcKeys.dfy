/** HTLC records, the byte keys they are stored under, and the pagination cursor (src/index.rs). */
module HtlcKeys {
  import opened Common
  import opened Bytes

  datatype HtlcState = Locked | LockedExpired | Claimed | Reclaimed | Unknown
  datatype Role = Sender | Receiver | Both | Observer

  datatype Params = Params(sender: Hash32, receiver: Hash32, hashLock: Hash32, timeout: u64)
  datatype ClaimRecord = ClaimRecord(txId: Hash32, preimage: Str, height: u64, inputIndex: u32)
  datatype ReclaimRecord = ReclaimRecord(txId: Hash32, height: u64, inputIndex: u32)

  datatype Htlc = Htlc(
    lockTx: Hash32, vout: u32, params: Params, amount: u64, lockHeight: Option<u64>,
    state: HtlcState, claim: Option<ClaimRecord>, reclaim: Option<ReclaimRecord>,
    role: Role, lastIndexed: u64)

  function StateByte(s: HtlcState): byte {
    match s
    case Locked => 0
    case LockedExpired => 1
    case Claimed => 2
    case Reclaimed => 3
    case Unknown => 4
  }

  function RoleByte(r: Role): byte {
    match r
    case Sender => 0
    case Receiver => 1
    case Both => 2
    case Observer => 3
  }

  /** A mempool-only record (no block height) sorts last. */
  function HeightOf(r: Htlc): u64 {
    match r.lockHeight
    case Some(h) => h
    case None => U64_MAX
  }

  // ----- keys -----

  function PrimaryKey(tx: Hash32, vout: u32): Str { tx + Be(vout, 4) }

  function StateKey(s: HtlcState, h: u64, tx: Hash32, vout: u32): Str { [StateByte(s)] + Be(h, 8) + tx + Be(vout, 4) }

  function RoleKey(r: Role, h: u64, tx: Hash32, vout: u32): Str { [RoleByte(r)] + Be(h, 8) + tx + Be(vout, 4) }

  function HashKey(hashLock: Hash32, tx: Hash32, vout: u32): Str { hashLock + tx + Be(vout, 4) }

  function OwnedKey(owner: Hash32, h: u64, tx: Hash32, vout: u32): Str { owner + Be(h, 8) + tx + Be(vout, 4) }

  function Key(r: Htlc): Str { PrimaryKey(r.lockTx, r.vout) }

  // ----- positions in a listing -----

  datatype Cursor = Cursor(height: u64, tx: Hash32, vout: u32)

  function Pos(r: Htlc): Cursor { Cursor(HeightOf(r), r.lockTx, r.vout) }

  /** The tuple order (height, tx id, output index). */
  predicate PosLt(a: Cursor, b: Cursor) {
    || a.height < b.height
    || (a.height == b.height && (LexLt(a.tx, b.tx) || (a.tx == b.tx && a.vout < b.vout)))
  }

  function CursorBytes(c: Cursor): (s: Str)
    ensures |s| == 44
  {
    Be(c.height, 8) + c.tx + Be(c.vout, 4)
  }

  /** The 44 cursor bytes order, byte by byte, like the tuples. */
  lemma CursorOrder(a: Cursor, b: Cursor)
    ensures LexLt(CursorBytes(a), CursorBytes(b)) <==> PosLt(a, b)
  {
    Widths();
    BeOrder(a.height, b.height, 8);
    BeInjective(a.height, b.height, 8);
    BeOrder(a.vout, b.vout, 4);
    LexConcat(Be(a.height, 8), a.tx + Be(a.vout, 4), Be(b.height, 8), b.tx + Be(b.vout, 4));
    LexConcat(a.tx, Be(a.vout, 4), b.tx, Be(b.vout, 4));
    assert CursorBytes(a) == Be(a.height, 8) + (a.tx + Be(a.vout, 4));
    assert CursorBytes(b) == Be(b.height, 8) + (b.tx + Be(b.vout, 4));
  }

  function CursorOf(s: Str): (c: Cursor)
    requires |s| == 44
  {
    Widths();
    Cursor(FromBe(s[..8]), s[8..40], FromBe(s[40..]))
  }

  lemma CursorRoundTrip(c: Cursor)
    ensures CursorOf(CursorBytes(c)) == c
  {
    Widths();
    var s := CursorBytes(c);
    assert s[..8] == Be(c.height, 8) && s[8..40] == c.tx && s[40..] == Be(c.vout, 4);
    FromBeBe(c.height, 8);
    FromBeBe(c.vout, 4);
  }

  /** A prefix byte, a height and an outpoint: the shape of the state and role keys.  The byte order of
      two such keys is the order of the tuples. */
  lemma PrefixedOrder(p: byte, a: Cursor, p': byte, b: Cursor)
    ensures LexLt([p] + CursorBytes(a), [p'] + CursorBytes(b)) <==> p < p' || (p == p' && PosLt(a, b))
  {
    LexConcat([p], CursorBytes(a), [p'], CursorBytes(b));
    CursorOrder(a, b);
    assert LexLt([p], [p']) <==> p < p';
  }

  lemma StateKeyOrder(s: HtlcState, a: Cursor, s': HtlcState, b: Cursor)
    ensures LexLt(StateKey(s, a.height, a.tx, a.vout), StateKey(s', b.height, b.tx, b.vout))
            <==> StateByte(s) < StateByte(s') || (s == s' && PosLt(a, b))
  {
    PrefixedOrder(StateByte(s), a, StateByte(s'), b);
    assert StateKey(s, a.height, a.tx, a.vout) == [StateByte(s)] + CursorBytes(a);
    assert StateKey(s', b.height, b.tx, b.vout) == [StateByte(s')] + CursorBytes(b);
  }

  lemma RoleKeyOrder(r: Role, a: Cursor, r': Role, b: Cursor)
    ensures LexLt(RoleKey(r, a.height, a.tx, a.vout), RoleKey(r', b.height, b.tx, b.vout))
            <==> RoleByte(r) < RoleByte(r') || (r == r' && PosLt(a, b))
  {
    PrefixedOrder(RoleByte(r), a, RoleByte(r'), b);
    assert RoleKey(r, a.height, a.tx, a.vout) == [RoleByte(r)] + CursorBytes(a);
    assert RoleKey(r', b.height, b.tx, b.vout) == [RoleByte(r')] + CursorBytes(b);
  }

  lemma OwnedKeyOrder(o: Hash32, a: Cursor, o': Hash32, b: Cursor)
    ensures LexLt(OwnedKey(o, a.height, a.tx, a.vout), OwnedKey(o', b.height, b.tx, b.vout))
            <==> LexLt(o, o') || (o == o' && PosLt(a, b))
  {
    LexConcat(o, CursorBytes(a), o', CursorBytes(b));
    CursorOrder(a, b);
    assert OwnedKey(o, a.height, a.tx, a.vout) == o + CursorBytes(a);
    assert OwnedKey(o', b.height, b.tx, b.vout) == o' + CursorBytes(b);
  }

  lemma PosTotal(a: Cursor, b: Cursor)
    ensures PosLt(a, b) || a == b || PosLt(b, a)
    ensures !(PosLt(a, b) && PosLt(b, a)) && !PosLt(a, a)
  {
    LexTotal(a.tx, b.tx);
    LexIrreflexive(a.tx);
    if LexLt(a.tx, b.tx) && LexLt(b.tx, a.tx) { LexTransitive(a.tx, b.tx, a.tx); }
  }

  lemma PosTransitive(a: Cursor, b: Cursor, c: Cursor)
    requires PosLt(a, b) && PosLt(b, c)
    ensures PosLt(a, c)
  {
    if LexLt(a.tx, b.tx) && LexLt(b.tx, c.tx) { LexTransitive(a.tx, b.tx, c.tx); }
  }

  // ----- every secondary key ends in the primary key -----

  lemma KeySuffixes(s: HtlcState, r: Role, o: Hash32, hl: Hash32, h: u64, tx: Hash32, vout: u32)
    ensures StateKey(s, h, tx, vout)[9..] == PrimaryKey(tx, vout)
    ensures RoleKey(r, h, tx, vout)[9..] == PrimaryKey(tx, vout)
    ensures OwnedKey(o, h, tx, vout)[40..] == PrimaryKey(tx, vout)
    ensures HashKey(hl, tx, vout)[32..] == PrimaryKey(tx, vout) && HashKey(hl, tx, vout)[..32] == hl
    ensures |PrimaryKey(tx, vout)| == 36 && |HashKey(hl, tx, vout)| == 68
  {
  }

  lemma PrimaryKeyInjective(tx: Hash32, vout: u32, tx': Hash32, vout': u32)
    requires PrimaryKey(tx, vout) == PrimaryKey(tx', vout')
    ensures tx == tx' && vout == vout'
  {
    Widths();
    assert PrimaryKey(tx, vout)[..32] == tx && PrimaryKey(tx', vout')[..32] == tx';
    assert PrimaryKey(tx, vout)[32..] == Be(vout, 4) && PrimaryKey(tx', vout')[32..] == Be(vout', 4);
    BeInjective(vout, vout', 4);
  }
}
