/**
 The swap engine of src/swap.rs as a state machine over its steps, running against an arbitrary pool.

 A `Task` is one call in flight (execute, a v2 drive, advance, refund, a reconcile pass, a prune);
 its constructor is the program counter and its fields are the locals, among them the journal
 snapshot the call works on.  Every chain call and every `journal.update` is a step of its own, and
 any other task or any move of the outside world may come between two steps.

 SHA-256 is symbolic: `Sha256(p)` is injective and the pool knows `p` only when it made `p` itself
 or when the engine revealed it.
 */
module SwapModel {
  import opened Common

  // ----- constants (src/swap.rs:90, 96-107) -----

  const CLAIM_MARGIN_SECS: nat := 1800
  const MIN_EXFER_LOCK_BLOCKS: nat := 360
  const MIN_BSC_LOCK_SECS: nat := 7200
  const CLAIM_REBROADCAST_SECS: nat := 60

  // ----- data -----

  // names of swaps, EXFER transactions, BSC contracts and running calls
  type Id = nat
  type TxId = nat
  type Address = nat
  type TaskId = nat

  datatype Preimage = Ours(n: nat) | Theirs(n: nat)
  datatype Hashlock = Sha256(pre: Preimage)
  datatype Party = Us | Them(n: nat)

  datatype Direction = ExferToBnb | BnbToExfer
  datatype Flow = V1 | V2
  datatype Status =
    | Quoted | Committing | UserLocked | PoolLocked | Claiming
    | Completed | Refunding | Refunded | Expired | Failed

  /** The part of a swap record that is fixed by the quote.  An amount is `None` when the string the
      pool sent does not parse. */
  datatype Quote = Quote(
    dir: Direction, flow: Flow, hash: Hashlock,
    amountIn: Option<nat>, amountOut: Option<nat>,
    poolExfer: Option<Party>, poolBsc: Option<Party>, contract: Option<Address>,
    exferTimeout: Option<nat>, bscTimeout: Option<nat>, expiresAt: nat)

  datatype Rec = Rec(q: Quote, status: Status, userLock: Option<TxId>, updatedAt: nat)

  /** What one `journal.update` closure assigns. */
  datatype Update = Update(status: Status, lock: Option<TxId>)

  datatype HtlcState = NoSwap | Locked | Claimed | Refunded

  datatype ExferLock = ExferLock(
    hash: Hashlock, sender: Party, receiver: Party, amount: nat, timeout: nat, state: HtlcState)

  datatype BscLock = BscLock(
    sender: Party, recipient: Party, amount: nat, timeoutSec: nat, state: HtlcState)

  datatype Place = OnExfer(tx: TxId) | OnBsc(contract: Address, hash: Hashlock)

  /** A pool lock that passed a funds gate, with the tip (EXFER) or the clock (BSC) it was read at. */
  datatype Vetting = Vetting(place: Place, at: nat)

  /** One broadcast of a user first-leg lock.  `checkedAt` is the tip or clock its timeout was
      checked against; `vetting` is the pool lock a v2 drive had verified just before. */
  datatype Leg = Leg(id: Id, place: Place, checkedAt: nat, vetting: Option<Vetting>)

  /** One sending of a v1 preimage.  For a buy `claim` is the pool lock whose claim carries it, `read` the tip its
      gate was measured at and `sent` the tip when it left; for a sell, the clock when the call read the swap and
      the clock when it left. */
  datatype Showing = Showing(id: Id, claim: Option<TxId>, read: nat, sent: nat)

  /** The two chains, the clocks and what has left the daemon.  `bsc` holds the entries of the genuine HTLC
      contracts.  A quote may name any other address: what that contract answers is whatever `rogue` says, and
      the pool rewrites `rogue` at will. */
  datatype World = World(
    exfer: map<TxId, ExferLock>,
    bsc: map<(Address, Hashlock), BscLock>,
    genuine: set<Address>,
    rogue: map<(Address, Hashlock), BscLock>,
    tip: nat, clock: nat,
    revealed: map<nat, Id>,      // our preimages the outside has seen, with the swap that showed them
    shown: seq<Showing>,         // every time one of them was sent, first or again
    signed: map<TxId, Id>,       // EXFER locks we signed a claim of, with the swap that signed
    vetted: map<Id, Vetting>,    // the last pool lock that passed a gate for a swap
    reclaims: set<Place>,        // locks we broadcast a reclaim of
    legs: seq<Leg>)

  /** Where a call stands, with the locals it has gathered. */
  datatype Pc =
    | ExecRead
    | ExecChecked(at: nat)
    | DriveRead
    | SellClear
    | SellVetted(v: Vetting)
    | SellChecked(v: Vetting, at: nat)
    | BuyMargin(at: nat)
    | BuyClear(at: nat)
    | BuyVetted(at: nat, v: Vetting)
    | Handing(v: Vetting)
    | AdvRead
    | AdvSend(at: nat)
    | AdvRelayed(at: nat)
    | AdvRow(tx: TxId)
    | AdvGated(tx: TxId, at: nat)
    | ScanRead
    | RefundRead
    | PruneRead
    | Writing(up: Update, held: bool)

  datatype Task = Task(id: Id, rec: Rec, pc: Pc)

  datatype State = State(
    w: World,
    journal: map<Id, Rec>,
    quotes: map<Id, Quote>,      // every quote ever stored, by swap id
    nextPre: nat,
    tasks: map<TaskId, Task>,
    locks: map<Id, TaskId>)      // the per-swap mutexes that are held

  // ----- small readers -----

  predicate Terminal(st: Status) { st in {Completed, Status.Refunded, Expired, Failed} }

  /** Whether the pool can produce this preimage. */
  predicate Known(w: World, p: Preimage) { p.Theirs? || p.n in w.revealed }

  function Apply(rec: Rec, up: Update, now: nat): Rec {
    rec.(status := up.status, userLock := if up.lock.Some? then up.lock else rec.userLock, updatedAt := now)
  }

  /** A call at this point holds the per-swap mutex. */
  predicate Holds(pc: Pc) {
    match pc
    case ExecRead | ExecChecked(_) | DriveRead | SellClear | SellVetted(_) | SellChecked(_, _)
    | BuyMargin(_) | BuyClear(_) | BuyVetted(_, _) | Handing(_) | RefundRead => true
    case Writing(_, held) => held
    case _ => false
  }

  // ----- the gates -----

  /** The reveal gate of the sell direction, as the source's pure predicate. */
  predicate PoolLockSafeToClaim(oc: BscLock, our: Party, wantOut: nat, now: nat) {
    && oc.state == Locked
    && oc.recipient == our
    && oc.amount >= wantOut
    && now + CLAIM_MARGIN_SECS < oc.timeoutSec
  }

  /** What a contract answers about a hashlock. */
  function BscAt(w: World, k: (Address, Hashlock)): Option<BscLock> {
    var entries := if k.0 in w.genuine then w.bsc else w.rogue;
    if k in entries then Some(entries[k]) else None
  }

  predicate VerifyPoolBscLock(w: World, q: Quote) {
    && q.contract.Some? && q.amountOut.Some?
    && BscAt(w, (q.contract.value, q.hash)).Some?
    && PoolLockSafeToClaim(BscAt(w, (q.contract.value, q.hash)).value, Us, q.amountOut.value, w.clock)
  }

  /** The pool's EXFER lock carries our hashlock and pays us. */
  predicate PaysUs(w: World, q: Quote, tx: TxId) {
    tx in w.exfer && w.exfer[tx].hash == q.hash && w.exfer[tx].receiver == Us
  }

  /** Cover the quote and leave the reclaim margin (the buy direction's gate). */
  predicate ExferGate(w: World, q: Quote, tx: TxId)
    requires tx in w.exfer
  {
    && q.amountOut.Some? && w.exfer[tx].amount >= q.amountOut.value
    && w.exfer[tx].timeout >= w.tip + MIN_EXFER_LOCK_BLOCKS
  }

  /** verify_pool_exfer_lock_via_node: parameters only, it never looks at whether the output is spent. */
  predicate NodeAccepts(w: World, q: Quote, tx: TxId) { PaysUs(w, q, tx) && ExferGate(w, q, tx) }

  /** The indexer half of verify_pool_exfer_lock: the row must also be in state "locked". */
  predicate IndexerAccepts(w: World, q: Quote, tx: TxId) {
    PaysUs(w, q, tx) && w.exfer[tx].state == Locked && ExferGate(w, q, tx)
  }

  // ----- our broadcasts -----

  predicate SellReady(q: Quote, tip: nat) {
    && q.poolExfer.Some? && q.amountIn.Some? && q.exferTimeout.Some?
    && q.exferTimeout.value >= tip + MIN_EXFER_LOCK_BLOCKS
  }

  predicate BuyReady(q: Quote, now: nat) {
    && q.contract.Some? && q.poolBsc.Some? && q.amountIn.Some? && q.bscTimeout.Some?
    && q.bscTimeout.value >= now + MIN_BSC_LOCK_SECS
  }

  function SendSell(w: World, id: Id, q: Quote, at: nat, v: Option<Vetting>, tx: TxId): World
    requires SellReady(q, at)
  {
    w.(exfer := w.exfer[tx := ExferLock(q.hash, Us, q.poolExfer.value, q.amountIn.value, q.exferTimeout.value, Locked)],
       legs := w.legs + [Leg(id, OnExfer(tx), at, v)])
  }

  function SendBuy(w: World, id: Id, q: Quote, at: nat, v: Option<Vetting>): World
    requires BuyReady(q, at)
  {
    var k, lock := (q.contract.value, q.hash), BscLock(Us, q.poolBsc.value, q.amountIn.value, q.bscTimeout.value, Locked);
    w.(bsc := if k.0 in w.genuine then w.bsc[k := lock] else w.bsc,
       rogue := if k.0 in w.genuine then w.rogue else w.rogue[k := lock],
       legs := w.legs + [Leg(id, OnBsc(q.contract.value, q.hash), at, v)])
  }

  /** A genuine contract refuses a second lock under one hashlock. */
  predicate Lockable(w: World, k: (Address, Hashlock)) { k.0 in w.genuine ==> k !in w.bsc }

  function Vet(w: World, id: Id, v: Vetting): World { w.(vetted := w.vetted[id := v]) }

  function Show(w: World, id: Id, q: Quote, claim: Option<TxId>, read: nat): World
    requires q.hash.pre.Ours?
  {
    w.(revealed := w.revealed[q.hash.pre.n := id],
       shown := w.shown + [Showing(id, claim, read, if q.dir == ExferToBnb then w.clock else w.tip)])
  }

  function Sign(w: World, id: Id, tx: TxId): World { w.(signed := w.signed[tx := id]) }

  function Reclaim(w: World, p: Place): World { w.(reclaims := w.reclaims + {p}) }

  function Write(st: Status, held: bool): Pc { Writing(Update(st, None), held) }

  // ----- one move of one task -----

  /** execute, after the Quoted guard (src/swap.rs:1249-1354, 1365-1380). */
  predicate ExecMoves(a: Task, w: World, pc: Pc, w': World)
    requires a.pc.ExecRead? || a.pc.ExecChecked?
  {
    var id, q := a.id, a.rec.q;
    match a.pc
    case ExecRead =>
      && w' == w
      && (match q.flow
          case V2 => pc == Write(Committing, true)
          case V1 =>
            match q.dir
            case ExferToBnb => SellReady(q, w.tip) && pc == ExecChecked(w.tip)
            case BnbToExfer => BuyReady(q, w.clock) && pc == ExecChecked(w.clock))
    case ExecChecked(at) =>
      && pc.Writing? && pc.up.lock.Some? && pc == Writing(Update(UserLocked, pc.up.lock), true)
      && (match q.dir
          case ExferToBnb =>
            pc.up.lock.value !in w.exfer && SellReady(q, at) && w' == SendSell(w, id, q, at, None, pc.up.lock.value)
          case BnbToExfer =>
            BuyReady(q, at) && Lockable(w, (q.contract.value, q.hash)) && w' == SendBuy(w, id, q, at, None))
  }

  /** drive_v2_sell_lock (src/swap.rs:1391-1515). */
  predicate DriveSellMoves(a: Task, w: World, pc: Pc, w': World)
    requires a.pc.DriveRead? || a.pc.SellClear? || a.pc.SellVetted? || a.pc.SellChecked?
  {
    var id, q := a.id, a.rec.q;
    match a.pc
    case DriveRead =>
      w' == w && (pc == Write(Failed, true) || pc == Write(Status.Refunded, true) || pc == SellClear)
    case SellClear =>
      || (&& w' == w && pc == Write(UserLocked, true)
          && exists tx :: tx in w.exfer && w.exfer[tx].hash == q.hash && w.exfer[tx].sender == Us)
      || (&& VerifyPoolBscLock(w, q)
          && var v := Vetting(OnBsc(q.contract.value, q.hash), w.clock);
          pc == SellVetted(v) && w' == Vet(w, id, v))
    case SellVetted(v) =>
      && w' == w
      && (|| (SellReady(q, w.tip) && pc == SellChecked(v, w.tip))
          || (&& q.poolExfer.Some? && q.exferTimeout.Some? && q.exferTimeout.value < w.tip + MIN_EXFER_LOCK_BLOCKS
              && pc == Write(Failed, true)))
    case SellChecked(v, at) =>
      && pc.Writing? && pc.up.lock.Some? && pc == Writing(Update(UserLocked, pc.up.lock), true)
      && pc.up.lock.value !in w.exfer && SellReady(q, at)
      && w' == SendSell(w, id, q, at, Some(v), pc.up.lock.value)
  }

  /** drive_v2_buy_lock (src/swap.rs:1533-1685). */
  predicate DriveBuyMoves(a: Task, w: World, pc: Pc, w': World)
    requires a.pc.DriveRead? || a.pc.BuyMargin? || a.pc.BuyClear? || a.pc.BuyVetted? || a.pc.Handing?
  {
    var id, q := a.id, a.rec.q;
    match a.pc
    case DriveRead =>
      && w' == w
      && (// our BNB lock is already there; a failed read falls through to the margin check
          || (BscState(w, q) != NoSwap && pc == Write(UserLocked, true))
          || (q.bscTimeout.Some? && q.bscTimeout.value < w.clock + MIN_BSC_LOCK_SECS && pc == Write(Failed, true))
          || (q.bscTimeout.Some? && q.bscTimeout.value >= w.clock + MIN_BSC_LOCK_SECS && pc == BuyMargin(w.clock)))
    case BuyMargin(at) =>
      w' == w && (pc == Write(Failed, true) || pc == Write(Status.Refunded, true) || pc == BuyClear(at))
    case BuyClear(at) =>
      && pc.BuyVetted? && pc.v.place.OnExfer?
      && pc == BuyVetted(at, Vetting(pc.v.place, w.tip)) && w' == Vet(w, id, pc.v)
      && (NodeAccepts(w, q, pc.v.place.tx) || IndexerAccepts(w, q, pc.v.place.tx))
    case BuyVetted(at, v) =>
      || (w' == w && pc == Write(Failed, true))                      // not enough BNB
      || (&& BuyReady(q, at) && Lockable(w, (q.contract.value, q.hash))
          && pc == Handing(v) && w' == SendBuy(w, id, q, at, Some(v)))
    case Handing(v) =>
      && pc.Writing? && pc.up.lock.Some? && pc == Writing(Update(UserLocked, pc.up.lock), true)
      && (w' == w || (v.place.OnExfer? && w' == Sign(w, id, v.place.tx)))  // posting the pre-signed claim may fail
  }

  /** advance for v1 records (src/swap.rs:2020-2346) and advance_v2 (src/swap.rs:1938-2018). */
  predicate AdvanceMoves(a: Task, w: World, pc: Pc, w': World)
    requires a.pc.AdvRead? || a.pc.AdvSend? || a.pc.AdvRelayed? || a.pc.AdvRow? || a.pc.AdvGated?
  {
    var id, q := a.id, a.rec.q;
    match a.pc
    case AdvRead => if q.flow == V2 then w' == w && AdvanceV2(a.rec, pc) else AdvanceV1(a, w, pc, w')
    case AdvSend(at) =>
      // relay_claim sends the preimage whether or not the pool answers
      q.hash.pre.Ours? && pc == AdvRelayed(at) && w' == Show(w, id, q, None, at)
    case AdvRelayed(at) =>
      // no answer: the claim is sent once more, by ourselves
      q.hash.pre.Ours? && pc == Write(Claiming, false) && (w' == w || w' == Show(w, id, q, None, at))
    case AdvRow(tx) =>
      && tx in w.exfer && ExferGate(w, q, tx) && pc == AdvGated(tx, w.tip)
      && w' == Vet(w, id, Vetting(OnExfer(tx), w.tip))
    case AdvGated(tx, at) =>
      q.hash.pre.Ours? && pc == Write(Claiming, false) && w' == Show(Sign(w, id, tx), id, q, Some(tx), at)
  }

  predicate AdvanceV2(rec: Rec, pc: Pc) {
    var reclaimable := rec.q.dir == BnbToExfer && rec.userLock.Some?;
    && rec.status != Committing
    && (|| pc == Write(Completed, false)
        || pc == Write(if reclaimable then Refunding else Status.Refunded, false)
        || pc == Write(if reclaimable then Refunding else Failed, false))
  }

  predicate AdvanceV1(a: Task, w: World, pc: Pc, w': World) {
    var q := a.rec.q;
    match (a.rec.status, q.dir)
    case (UserLocked, ExferToBnb) =>
      && VerifyPoolBscLock(w, q) && pc == Write(PoolLocked, false)
      && w' == Vet(w, a.id, Vetting(OnBsc(q.contract.value, q.hash), w.clock))
    case (UserLocked, BnbToExfer) => w' == w && pc == Write(PoolLocked, false)
    case (PoolLocked, ExferToBnb) => w' == w && SellSettle(a.rec, w, pc)
    case (Claiming, ExferToBnb) => w' == w && SellSettle(a.rec, w, pc)
    case (PoolLocked, BnbToExfer) => w' == w && BuySettle(a.rec, w, pc)
    case (Claiming, BnbToExfer) => w' == w && BuySettle(a.rec, w, pc)
    case _ => false
  }

  /** Completion off the BSC state; otherwise (re)claim, throttled.  A failed read also claims. */
  predicate SellSettle(rec: Rec, w: World, pc: Pc) {
    var q := rec.q;
    || (BscState(w, q) == Claimed && pc == Write(Completed, false))
    || (BscState(w, q) == HtlcState.Refunded && pc == Write(Refunding, false))
    || ((rec.status == PoolLocked || w.clock >= rec.updatedAt + CLAIM_REBROADCAST_SECS) && pc == AdvSend(w.clock))
  }

  /** The indexer row is any lock under our hashlock paying us: its order of rows is not ours. */
  predicate BuySettle(rec: Rec, w: World, pc: Pc) {
    exists tx :: tx in w.exfer && BuyRow(rec.q, w, tx, pc)
  }

  predicate BuyRow(q: Quote, w: World, tx: TxId, pc: Pc) {
    && PaysUs(w, q, tx)
    && (match w.exfer[tx].state
        case Claimed => pc == Write(Completed, false)
        case Refunded => pc == Write(Refunding, false)
        case _ => pc == AdvRow(tx))
  }

  /** What reading the swap's entry of its BSC contract returns. */
  function BscState(w: World, q: Quote): HtlcState {
    if q.contract.Some? && BscAt(w, (q.contract.value, q.hash)).Some? then BscAt(w, (q.contract.value, q.hash)).value.state else NoSwap
  }

  /** reconcile_completed, reconcile_failed_v2 and repair_stranded_bnb_refunds
      (src/swap.rs:2358-2459, 2862-2896). */
  predicate ScanMoves(rec: Rec, w: World, pc: Pc) {
    var q := rec.q;
    var reclaimable := q.dir == BnbToExfer && rec.userLock.Some?;
    || (rec.status == Completed && ClaimNotConfirmed(w, q) && pc == Write(PoolLocked, false))
    || (q.flow == V2 && rec.status == Failed
        && (|| pc == Write(Completed, false)
            || pc == Write(if reclaimable then Refunding else Status.Refunded, false)
            || pc == Write(UserLocked, false)))
    || (reclaimable && rec.status in {Status.Refunded, Failed} && BscState(w, q) == Locked
        && w.clock >= BscAt(w, (q.contract.value, q.hash)).value.timeoutSec && pc == Write(Refunding, false))
  }

  /** claim_is_confirmed returning Some(false). */
  predicate ClaimNotConfirmed(w: World, q: Quote) {
    match q.dir
    case BnbToExfer => exists tx :: tx in w.exfer && PaysUs(w, q, tx) && w.exfer[tx].state != Claimed
    case ExferToBnb => BscState(w, q) in {Locked, HtlcState.Refunded}
  }

  /** refund (src/swap.rs:2475-2567). */
  predicate RefundMoves(rec: Rec, w: World, pc: Pc, w': World) {
    var q := rec.q;
    match q.dir
    case ExferToBnb =>
      && rec.userLock.Some? && q.exferTimeout.Some? && w.tip > q.exferTimeout.value
      && w' == Reclaim(w, OnExfer(rec.userLock.value)) && pc == Write(Status.Refunded, true)
    case BnbToExfer =>
      && q.contract.Some?
      && (match BscState(w, q)
          case Refunded | NoSwap => w' == w && pc == Write(Status.Refunded, true)
          case Claimed => w' == w && pc == Write(UserLocked, true)
          case Locked =>
            pc == Write(Refunding, true) && (w' == w || w' == Reclaim(w, OnBsc(q.contract.value, q.hash))))
  }

  predicate Moves(a: Task, w: World, pc: Pc, w': World) {
    match a.pc
    case ExecRead | ExecChecked(_) => ExecMoves(a, w, pc, w')
    case DriveRead => if a.rec.q.dir == ExferToBnb then DriveSellMoves(a, w, pc, w') else DriveBuyMoves(a, w, pc, w')
    case SellClear | SellVetted(_) | SellChecked(_, _) => DriveSellMoves(a, w, pc, w')
    case BuyMargin(_) | BuyClear(_) | BuyVetted(_, _) | Handing(_) => DriveBuyMoves(a, w, pc, w')
    case AdvRead | AdvSend(_) | AdvRelayed(_) | AdvRow(_) | AdvGated(_, _) => AdvanceMoves(a, w, pc, w')
    case ScanRead => w' == w && ScanMoves(a.rec, w, pc)
    case RefundRead => RefundMoves(a.rec, w, pc, w')
    case PruneRead => false
    case Writing(_, _) => false
  }

  // ----- starting a task -----

  predicate ReclaimSent(w: World, hash: Hashlock) {
    exists p :: p in w.reclaims &&
      match p
      case OnExfer(tx) => tx in w.exfer && w.exfer[tx].hash == hash
      case OnBsc(_, h) => h == hash
  }

  predicate Free(s: State, id: Id) { id !in s.locks }

  /** The first thing each entry point does: take the mutex where the source takes it, read the
      record, return early where the source returns early. */
  predicate Starts(s: State, b: Task) {
    && b.id in s.journal && b.rec == s.journal[b.id]
    && (match b.pc
        case ExecRead => Free(s, b.id) && b.rec.status == Quoted && s.w.clock < b.rec.q.expiresAt
        case DriveRead => Free(s, b.id) && b.rec.status == Committing && b.rec.q.flow == V2
        case AdvRead => true
        case ScanRead => true
        case RefundRead => Free(s, b.id) && !Terminal(b.rec.status) && b.rec.userLock.Some?
        case PruneRead => b.rec.status == Quoted
        case Writing(up, held) =>
          // execute on an expired quote, or a sweep mirroring its reclaim into the journal
          || (held && Free(s, b.id) && b.rec.status == Quoted && s.w.clock >= b.rec.q.expiresAt && up == Update(Failed, None))
          || (!held && up == Update(Status.Refunded, None) && !Terminal(b.rec.status) && ReclaimSent(s.w, b.rec.q.hash))
        case _ => false)
  }

  // ----- the outside world -----

  /** Anyone may lock, mine, refund after the timeout, and claim with a preimage they know.  Claiming
      an EXFER lock that pays us also takes our signature; refunding our lock takes our reclaim.  A contract
      that is not genuine answers what its author likes from one read to the next. */
  datatype EnvMove =
    | NewExfer(tx: TxId, lock: ExferLock)
    | NewBsc(key: (Address, Hashlock), bl: BscLock)
    | Rewrite(key: (Address, Hashlock), entry: Option<BscLock>)
    | ClaimExfer(tx: TxId)
    | ClaimBsc(key: (Address, Hashlock))
    | RefundExfer(tx: TxId)
    | RefundBsc(key: (Address, Hashlock))
    | Tick(tip: nat, clock: nat)

  predicate EnvOk(w: World, m: EnvMove) {
    match m
    case NewExfer(tx, lock) => tx !in w.exfer && lock.sender != Us && lock.state == Locked
    case NewBsc(key, bl) => key.0 in w.genuine && key !in w.bsc && bl.sender != Us && bl.state == Locked
    case Rewrite(key, _) => key.0 !in w.genuine
    case ClaimExfer(tx) =>
      && tx in w.exfer && w.exfer[tx].state == Locked && Known(w, w.exfer[tx].hash.pre)
      && (w.exfer[tx].receiver == Us ==> tx in w.signed)
    case ClaimBsc(key) => key in w.bsc && w.bsc[key].state == Locked && Known(w, key.1.pre)
    case RefundExfer(tx) =>
      && tx in w.exfer && w.exfer[tx].state == Locked && w.tip > w.exfer[tx].timeout
      && (w.exfer[tx].sender == Us ==> OnExfer(tx) in w.reclaims)
    case RefundBsc(key) =>
      && key in w.bsc && w.bsc[key].state == Locked && w.clock >= w.bsc[key].timeoutSec
      && (w.bsc[key].sender == Us ==> OnBsc(key.0, key.1) in w.reclaims)
    case Tick(tip, clock) => tip >= w.tip && clock >= w.clock
  }

  function EnvStep(w: World, m: EnvMove): World
    requires EnvOk(w, m)
  {
    match m
    case NewExfer(tx, lock) => w.(exfer := w.exfer[tx := lock])
    case NewBsc(key, bl) => w.(bsc := w.bsc[key := bl])
    case Rewrite(key, entry) => w.(rogue := if entry.Some? then w.rogue[key := entry.value] else w.rogue - {key})
    case ClaimExfer(tx) => w.(exfer := w.exfer[tx := w.exfer[tx].(state := Claimed)])
    case ClaimBsc(key) => w.(bsc := w.bsc[key := w.bsc[key].(state := Claimed)])
    case RefundExfer(tx) => w.(exfer := w.exfer[tx := w.exfer[tx].(state := HtlcState.Refunded)])
    case RefundBsc(key) => w.(bsc := w.bsc[key := w.bsc[key].(state := HtlcState.Refunded)])
    case Tick(tip, clock) => w.(tip := tip, clock := clock)
  }

  /** A lock of ours that a sweep may reclaim: unsettled and past its timeout. */
  predicate Sweepable(w: World, p: Place) {
    match p
    case OnExfer(tx) => tx in w.exfer && w.exfer[tx].sender == Us && w.exfer[tx].state == Locked && w.tip > w.exfer[tx].timeout
    case OnBsc(c, h) => BscAt(w, (c, h)).Some? && BscAt(w, (c, h)).value.state == Locked && w.clock >= BscAt(w, (c, h)).value.timeoutSec
  }

  // ----- the machine -----

  datatype Step =
    | NewQuote(id: Id, q: Quote)
    | Start(t: TaskId, b: Task)
    | Move(t: TaskId, pc: Pc, w': World)
    | Commit(t: TaskId)
    | Prune(t: TaskId)
    | Drop(t: TaskId)
    | Sweep(p: Place)
    | Env(m: EnvMove)

  /** The task ends; its mutex, if it held one, is free again. */
  function End(s: State, t: TaskId): State
    requires t in s.tasks
  {
    s.(tasks := s.tasks - {t}, locks := if Holds(s.tasks[t].pc) then s.locks - {s.tasks[t].id} else s.locks)
  }

  /** v1 draws a fresh preimage; v2 adopts whatever hashlock the pool returned. */
  predicate QuoteOk(s: State, q: Quote) { q.flow == V1 ==> q.hash == Sha256(Ours(s.nextPre)) }

  /** A lock broadcast, once done, always reaches its journal write; any earlier point may fail out. */
  predicate Droppable(pc: Pc) { !pc.Writing? && !pc.Handing? }

  predicate Enabled(s: State, step: Step) {
    match step
    case NewQuote(id, q) => id !in s.quotes && QuoteOk(s, q)
    case Start(t, b) => t !in s.tasks && Starts(s, b)
    case Move(t, pc, w') => t in s.tasks && Moves(s.tasks[t], s.w, pc, w')
    case Commit(t) => t in s.tasks && s.tasks[t].pc.Writing?
    case Prune(t) =>
      t in s.tasks && s.tasks[t].pc.PruneRead? && s.w.clock >= s.tasks[t].rec.q.expiresAt
    case Drop(t) => t in s.tasks && Droppable(s.tasks[t].pc)
    case Sweep(p) => Sweepable(s.w, p)
    case Env(m) => EnvOk(s.w, m)
  }

  function Next(s: State, step: Step): State
    requires Enabled(s, step)
  {
    match step
    case NewQuote(id, q) =>
      s.(journal := s.journal[id := Rec(q, Quoted, None, s.w.clock)], quotes := s.quotes[id := q],
         nextPre := if q.flow == V1 then s.nextPre + 1 else s.nextPre)
    case Start(t, b) =>
      s.(tasks := s.tasks[t := b], locks := if Holds(b.pc) then s.locks[b.id := t] else s.locks)
    case Move(t, pc, w') => s.(tasks := s.tasks[t := s.tasks[t].(pc := pc)], w := w')
    case Commit(t) =>
      // journal.update: an error (and no change) when the record has been pruned meanwhile
      var id := s.tasks[t].id;
      var journal := if id in s.journal then s.journal[id := Apply(s.journal[id], s.tasks[t].pc.up, s.w.clock)] else s.journal;
      End(s, t).(journal := journal)
    case Prune(t) => End(s, t).(journal := s.journal - {s.tasks[t].id})
    case Drop(t) => End(s, t)
    case Sweep(p) => s.(w := Reclaim(s.w, p))
    case Env(m) => s.(w := EnvStep(s.w, m))
  }

  /** A daemon start: nothing quoted, no task; the chains may already hold other people's locks. */
  ghost predicate Init(s: State) {
    && s.journal == map[] && s.quotes == map[] && s.tasks == map[] && s.locks == map[]
    && s.w.revealed == map[] && s.w.shown == [] && s.w.signed == map[] && s.w.vetted == map[] && s.w.legs == []
    && (forall tx :: tx in s.w.exfer ==> s.w.exfer[tx].sender != Us && s.w.exfer[tx].state == Locked)
    && (forall k :: k in s.w.bsc ==> k.0 in s.w.genuine && s.w.bsc[k].sender != Us && s.w.bsc[k].state == Locked)
  }

  /** A run: states and the steps between them. */
  ghost predicate IsRun(run: seq<State>, steps: seq<Step>) {
    && |run| == |steps| + 1 && Init(run[0])
    && forall i :: 0 <= i < |steps| ==> Enabled(run[i], steps[i]) && run[i+1] == Next(run[i], steps[i])
  }
}
