/** What the follower reads off the chain: lock and spend events, and how the index absorbs them. */
module ChainEvents {
  import opened Common
  import opened Bytes
  import opened HtlcKeys

  // ----- the chain as fetched -----

  /** An output with its script length and what the covenant parser makes of the script. */
  datatype Output = Output(scriptLen: nat, parsed: Option<Params>, value: u64)
  datatype Input = Input(prevTx: Hash32, prevVout: u32)
  datatype TxBody = TxBody(id: Hash32, outputs: seq<Output>, inputs: seq<Input>, witnesses: seq<Str>)
  type Tx = t: TxBody | |t.outputs| < 0x1_0000_0000 && |t.inputs| < 0x1_0000_0000
    witness TxBody(seq(32, i => 0), [], [], [])
  datatype Block = Block(id: Hash32, txs: seq<Tx>)

  /** Public keys we own, each with the wallet address it is listed under. */
  type Owned = map<Hash32, Hash32>

  const MIN_HTLC_SCRIPT_BYTES: nat := 100
  const VALUE_TAG_LEFT: byte := 0x01
  const VALUE_TAG_RIGHT: byte := 0x02
  const VALUE_TAG_BYTES: byte := 0x05
  const VALUE_TAG_UNIT: byte := 0x00

  function FromLe(s: Str): nat {
    if s == [] then 0 else s[0] + 256 * FromLe(s[1..])
  }

  /** extract_claim_preimage: the preimage of a hash-arm witness, of any length. */
  function ExtractClaimPreimage(w: Str): (r: Option<Str>) {
    if |w| < 7 || w[0] != VALUE_TAG_LEFT || w[1] != VALUE_TAG_UNIT || w[2] != VALUE_TAG_BYTES then None
    else if |w| < 7 + FromLe(w[3..7]) then None
    else Some(w[7..7 + FromLe(w[3..7])])
  }

  /** The `k` low bytes of `n`, least significant first. */
  function Le(n: nat, k: nat): (s: Str)
    ensures |s| == k
  {
    if k == 0 then [] else [n % 256] + Le(n / 256, k - 1)
  }

  function Le32(n: nat): (s: Str)
    ensures |s| == 4
  {
    Le(n, 4)
  }

  /** The witness htlc_claim builds. */
  function ClaimWitness(preimage: Str, sig: Str): Str {
    [VALUE_TAG_LEFT, VALUE_TAG_UNIT, VALUE_TAG_BYTES] + Le32(|preimage|) + preimage + ([VALUE_TAG_BYTES] + Le32(|sig|) + sig)
  }

  /** Whatever preimage a claim carries, the follower records that preimage. */
  lemma PreimageRoundTrip(preimage: Str, sig: Str)
    requires |preimage| < 0x1_0000_0000
    ensures ExtractClaimPreimage(ClaimWitness(preimage, sig)) == Some(preimage)
  {
    hide FromLe, Le;
    var head, n := [VALUE_TAG_LEFT, VALUE_TAG_UNIT, VALUE_TAG_BYTES], |preimage|;
    var tail := [VALUE_TAG_BYTES] + Le32(|sig|) + sig;
    Widths();
    FromLeLe(n, 4);
    assert Le32(n) == Le(n, 4);
    Middle(head, Le32(n), preimage + tail);
    Middle(head + Le32(n), preimage, tail);
    assert ClaimWitness(preimage, sig) == head + Le32(n) + (preimage + tail);
  }

  lemma Middle(a: Str, b: Str, c: Str)
    ensures (a + b + c)[|a|..|a| + |b|] == b && |a + b + c| == |a| + |b| + |c|
    ensures forall i :: 0 <= i < |a| ==> (a + b + c)[i] == a[i]
  {
  }

  lemma {:induction false} FromLeLe(n: nat, k: nat)
    requires n < Pow256(k)
    ensures FromLe(Le(n, k)) == n
  {
    if k > 0 {
      FromLeLe(n / 256, k - 1);
      assert Le(n, k)[1..] == Le(n / 256, k - 1);
    }
  }

  // ----- events -----

  datatype Spend = Claim(c: ClaimRecord) | Reclaim(r: ReclaimRecord)

  datatype Event = Lock(rec: Htlc) | Spent(prevTx: Hash32, prevVout: u32, spend: Option<Spend>, height: u64)

  function EventKey(e: Event): Str {
    match e
    case Lock(rec) => Key(rec)
    case Spent(tx, vout, _, _) => PrimaryKey(tx, vout)
  }

  /** The record process_outputs writes for one output, if it is an HTLC of ours. */
  function LockRecord(owned: Owned, tx: Tx, vout: nat, h: u64): Option<Htlc>
    requires vout < |tx.outputs|
  {
    var o := tx.outputs[vout];
    if o.scriptLen < MIN_HTLC_SCRIPT_BYTES || o.parsed.None? then None
    else
      var p := o.parsed.value;
      if p.sender !in owned && p.receiver !in owned then None
      else
        var role := if p.sender in owned then (if p.receiver in owned then Both else Sender) else Receiver;
        var state := if h > p.timeout then LockedExpired else Locked;
        Some(Htlc(tx.id, vout, p, o.value, Some(h), state, None, None, role, h))
  }

  /** How process_inputs classifies one input. */
  function ParseSpend(tx: Tx, vin: nat, h: u64): Option<Spend>
    requires vin < |tx.inputs|
  {
    if vin >= |tx.witnesses| || tx.witnesses[vin] == [] then None
    else if tx.witnesses[vin][0] == VALUE_TAG_LEFT then
      match ExtractClaimPreimage(tx.witnesses[vin])
      case Some(preimage) => Some(Claim(ClaimRecord(tx.id, preimage, h, vin)))
      case None => None
    else if tx.witnesses[vin][0] == VALUE_TAG_RIGHT then Some(Reclaim(ReclaimRecord(tx.id, h, vin)))
    else None
  }

  /** The first `n` outputs, inputs, transactions of a block as events, in processing order. */
  function OutputEvents(owned: Owned, tx: Tx, h: u64, n: nat): seq<Event>
    requires n <= |tx.outputs|
  {
    if n == 0 then []
    else
      OutputEvents(owned, tx, h, n - 1)
      + (match LockRecord(owned, tx, n - 1, h) case Some(r) => [Lock(r)] case None => [])
  }

  function InputEvents(tx: Tx, h: u64, n: nat): seq<Event>
    requires n <= |tx.inputs|
  {
    if n == 0 then []
    else InputEvents(tx, h, n - 1) + [Spent(tx.inputs[n-1].prevTx, tx.inputs[n-1].prevVout, ParseSpend(tx, n - 1, h), h)]
  }

  function TxEvents(owned: Owned, tx: Tx, h: u64): seq<Event> {
    OutputEvents(owned, tx, h, |tx.outputs|) + InputEvents(tx, h, |tx.inputs|)
  }

  function BlockEvents(owned: Owned, b: Block, h: u64, n: nat): seq<Event>
    requires n <= |b.txs|
  {
    if n == 0 then [] else BlockEvents(owned, b, h, n - 1) + TxEvents(owned, b.txs[n-1], h)
  }

  // ----- absorbing events -----

  function Settle(r: Htlc, s: Spend, h: u64): Htlc {
    match s
    case Claim(c) => r.(state := Claimed, claim := Some(c), lastIndexed := h)
    case Reclaim(c) => r.(state := Reclaimed, reclaim := Some(c), lastIndexed := h)
  }

  function Apply(db: map<Str, Htlc>, e: Event): map<Str, Htlc> {
    match e
    case Lock(rec) => db[Key(rec) := rec]
    case Spent(tx, vout, spend, h) =>
      var k := PrimaryKey(tx, vout);
      if k in db && db[k].state !in {Claimed, Reclaimed} && spend.Some? then db[k := Settle(db[k], spend.value, h)] else db
  }

  function ApplyAll(db: map<Str, Htlc>, es: seq<Event>): map<Str, Htlc> {
    if es == [] then db else Apply(ApplyAll(db, es[..|es|-1]), es[|es|-1])
  }

  lemma {:induction false} ApplyAppend(db: map<Str, Htlc>, a: seq<Event>, b: seq<Event>)
    ensures ApplyAll(db, a + b) == ApplyAll(ApplyAll(db, a), b)
  {
    if b == [] {
      assert a + b == a;
    } else {
      ApplyAppend(db, a, b[..|b|-1]);
      assert (a + b)[..|a + b|-1] == a + b[..|b|-1];
    }
  }

  lemma ApplyOne(db: map<Str, Htlc>, a: seq<Event>, e: Event)
    ensures ApplyAll(db, a + [e]) == Apply(ApplyAll(db, a), e)
  {
    assert (a + [e])[..|a|] == a;
  }
}
