/** The invariant of the swap engine and its preservation by every step. */
module SwapInvariant {
  import opened Common
  import opened SwapModel

  // ----- facts about the world -----

  /** The lock at `p` carries the quote's hashlock and pays us at least the quoted output, on the
      chain the direction asks for.  Of a contract that is not genuine nothing is known. */
  predicate PoolPays(w: World, q: Quote, p: Place) {
    && q.amountOut.Some?
    && (match p
        case OnExfer(tx) => q.dir == BnbToExfer && PaysUs(w, q, tx) && w.exfer[tx].amount >= q.amountOut.value
        case OnBsc(c, h) =>
          && q.dir == ExferToBnb && q.contract == Some(c) && h == q.hash
          && (c in w.genuine ==> (c, h) in w.bsc && w.bsc[(c, h)].recipient == Us && w.bsc[(c, h)].amount >= q.amountOut.value))
  }

  /** The pool lock pays the quote and, when it was read, left the margin before its timeout. */
  predicate VettingOk(w: World, q: Quote, v: Vetting) {
    && PoolPays(w, q, v.place)
    && (match v.place
        case OnExfer(tx) => v.at <= w.tip && v.at + MIN_EXFER_LOCK_BLOCKS <= w.exfer[tx].timeout
        case OnBsc(c, h) => c in w.genuine ==> v.at <= w.clock && v.at + CLAIM_MARGIN_SECS < w.bsc[(c, h)].timeoutSec)
  }

  predicate NoLeg(w: World, id: Id) { forall i :: 0 <= i < |w.legs| ==> w.legs[i].id != id }

  /** A claim of `tx` signed for swap `id` was gated on that swap's own quote. */
  predicate SignedOk(w: World, quotes: map<Id, Quote>, tx: TxId, id: Id) {
    && id in quotes && PoolPays(w, quotes[id], OnExfer(tx))
    && (quotes[id].flow == V2 ==> !NoLeg(w, id))
  }

  predicate RevealedOk(w: World, quotes: map<Id, Quote>, n: nat, id: Id) {
    id in quotes && quotes[id].flow == V1 && quotes[id].hash == Sha256(Ours(n)) && id in w.vetted && HasShown(w, id)
  }

  predicate HasShown(w: World, id: Id) { exists j :: 0 <= j < |w.shown| && w.shown[j].id == id }

  /** A preimage was sent for an executed v1 swap with a vetted pool lock; for a buy, in a claim of the very lock that the
      sending call had gated at `read`. */
  predicate ShownOk(w: World, quotes: map<Id, Quote>, sh: Showing) {
    && sh.id in quotes && sh.id in w.vetted && !NoLeg(w, sh.id) && sh.read <= sh.sent
    && (var q := quotes[sh.id];
        && q.flow == V1 && q.hash.pre.Ours? && q.hash.pre.n in w.revealed
        && (match q.dir
            case ExferToBnb => sh.claim.None? && sh.sent <= w.clock
            case BnbToExfer =>
              && sh.claim.Some? && sh.sent <= w.tip && sh.claim.value in w.signed
              && VettingOk(w, q, Vetting(OnExfer(sh.claim.value), sh.read))))
  }

  /** One broadcast first leg: ours, of an executable quote, under its hashlock, with a reclaim window at the
      check; in v2, after the pool's own lock was verified. */
  predicate LegOk(w: World, quotes: map<Id, Quote>, leg: Leg) {
    && leg.id in quotes
    && (var q := quotes[leg.id];
        && q.expiresAt > 0
        && (match leg.place
            case OnExfer(tx) =>
              && q.dir == ExferToBnb && SellReady(q, leg.checkedAt) && tx in w.exfer && w.exfer[tx].sender == Us
              && w.exfer[tx].hash == q.hash && w.exfer[tx].timeout == q.exferTimeout.value
            case OnBsc(c, h) =>
              && q.dir == BnbToExfer && BuyReady(q, leg.checkedAt) && q.contract == Some(c) && h == q.hash
              && (c in w.genuine ==>
                    (c, h) in w.bsc && w.bsc[(c, h)].sender == Us && w.bsc[(c, h)].timeoutSec == q.bscTimeout.value))
        && (q.flow == V2 ==> leg.vetting.Some? && VettingOk(w, q, leg.vetting.value)))
  }

  /** A genuine contract holds one lock a hashlock, so two legs are never at one place there. */
  predicate Apart(w: World, a: Leg, b: Leg) {
    a.id != b.id && !(a.place == b.place && a.place.OnBsc? && a.place.contract in w.genuine)
  }

  predicate ChainOk(w: World) {
    && (forall tx :: tx in w.exfer ==>
          var l := w.exfer[tx];
          && l.state != NoSwap
          && (l.state == Claimed ==> Known(w, l.hash.pre) && (l.receiver == Us ==> tx in w.signed))
          && (l.state == HtlcState.Refunded ==> w.tip > l.timeout))
    && (forall k :: k in w.bsc ==>
          && (w.bsc[k].state == Claimed ==> Known(w, k.1.pre))
          && (w.bsc[k].state == HtlcState.Refunded ==> w.clock >= w.bsc[k].timeoutSec))
  }

  predicate WorldOk(w: World, quotes: map<Id, Quote>) {
    && ChainOk(w)
    && (forall id :: id in w.vetted ==> id in quotes && VettingOk(w, quotes[id], w.vetted[id]))
    && (forall n :: n in w.revealed ==> RevealedOk(w, quotes, n, w.revealed[n]))
    && (forall j :: 0 <= j < |w.shown| ==> ShownOk(w, quotes, w.shown[j]))
    && (forall tx :: tx in w.signed ==> SignedOk(w, quotes, tx, w.signed[tx]))
    && (forall i :: 0 <= i < |w.legs| ==> LegOk(w, quotes, w.legs[i]))
    && (forall i, j :: 0 <= i < j < |w.legs| ==> Apart(w, w.legs[i], w.legs[j]))
  }

  // ----- facts about a status -----

  /** What a status vouches for: an executable quote, and in v1 much more. */
  predicate StatusOk(w: World, id: Id, q: Quote, st: Status) {
    && (st == Committing ==> q.expiresAt > 0)
    && (q.flow == V1 ==> StatusV1Ok(w, id, q, st))
  }

  predicate StatusV1Ok(w: World, id: Id, q: Quote, st: Status) {
    && (st in {UserLocked, PoolLocked, Claiming, Completed} ==> !NoLeg(w, id))
    && (q.dir == ExferToBnb && st in {PoolLocked, Claiming, Completed} ==> id in w.vetted)
    && (q.dir == ExferToBnb && st == Completed ==> SellPaid(w, q))
    && (q.dir == BnbToExfer && st == Completed ==> BuyPaid(w, q))
  }

  predicate SellPaid(w: World, q: Quote) {
    && q.contract.Some?
    && (q.contract.value in w.genuine ==>
          (q.contract.value, q.hash) in w.bsc && w.bsc[(q.contract.value, q.hash)].state == Claimed)
  }

  predicate BuyPaidBy(w: World, q: Quote, tx: TxId) { PaysUs(w, q, tx) && w.exfer[tx].state == Claimed }

  predicate BuyPaid(w: World, q: Quote) { exists tx :: tx in w.exfer && BuyPaidBy(w, q, tx) }

  // ----- facts about a task -----

  /** Inside execute or a drive, before the broadcast. */
  predicate PreSend(pc: Pc) {
    || pc.ExecRead? || pc.ExecChecked? || pc.DriveRead? || pc.SellClear? || pc.SellVetted? || pc.SellChecked?
    || pc.BuyMargin? || pc.BuyClear? || pc.BuyVetted?
    || (pc.Writing? && pc.up.status == Committing)
  }

  /** The broadcast is done and its journal write comes next. */
  predicate Finishing(pc: Pc) { pc.Handing? || (pc.Writing? && pc.held && pc.up.status != Committing) }

  /** What a call knows at a program point. */
  predicate PcOk(w: World, q: Quote, id: Id, pc: Pc) {
    match pc
    case ExecChecked(at) => q.flow == V1 && (if q.dir == ExferToBnb then SellReady(q, at) else BuyReady(q, at))
    case DriveRead => q.flow == V2
    case SellClear => q.flow == V2 && q.dir == ExferToBnb
    case SellVetted(v) => q.flow == V2 && q.dir == ExferToBnb && VettingOk(w, q, v)
    case SellChecked(v, at) => q.flow == V2 && q.dir == ExferToBnb && VettingOk(w, q, v) && SellReady(q, at)
    case BuyMargin(at) => q.flow == V2 && q.dir == BnbToExfer
    case BuyClear(at) => q.flow == V2 && q.dir == BnbToExfer
    case BuyVetted(at, v) => q.flow == V2 && q.dir == BnbToExfer && VettingOk(w, q, v)
    case Handing(v) => q.flow == V2 && q.dir == BnbToExfer && VettingOk(w, q, v) && !NoLeg(w, id)
    case AdvSend(at) => q.flow == V1 && q.dir == ExferToBnb && at <= w.clock && id in w.vetted && !NoLeg(w, id)
    case AdvRelayed(at) => q.flow == V1 && q.dir == ExferToBnb && at <= w.clock && id in w.vetted && !NoLeg(w, id)
    case RefundRead => !NoLeg(w, id)
    case AdvRow(tx) => q.flow == V1 && q.dir == BnbToExfer && PaysUs(w, q, tx) && !NoLeg(w, id)
    case AdvGated(tx, at) =>
      q.flow == V1 && q.dir == BnbToExfer && id in w.vetted && VettingOk(w, q, Vetting(OnExfer(tx), at)) && !NoLeg(w, id)
    case Writing(up, held) => StatusOk(w, id, q, up.status) && up.status != Quoted && (!held ==> up.status != Committing) && (up.lock.Some? ==> !NoLeg(w, id))
    case _ => true
  }

  predicate TaskOk(w: World, quotes: map<Id, Quote>, t: Task) {
    && t.id in quotes && t.rec.q == quotes[t.id]
    && StatusOk(w, t.id, t.rec.q, t.rec.status)
    && PcOk(w, t.rec.q, t.id, t.pc)
    && (PreSend(t.pc) ==> NoLeg(w, t.id) && t.rec.q.expiresAt > 0)
    && (t.rec.userLock.Some? ==> !NoLeg(w, t.id))
  }

  // ----- the invariant -----

  predicate LocksOk(s: State) {
    && (forall t :: t in s.tasks && Holds(s.tasks[t].pc) ==> s.tasks[t].id in s.locks && s.locks[s.tasks[t].id] == t)
    && (forall id :: id in s.locks ==>
          s.locks[id] in s.tasks && Holds(s.tasks[s.locks[id]].pc) && s.tasks[s.locks[id]].id == id)
  }

  /** While the journal still says Quoted or Committing, no first leg is out, unless the task that
      sent it still holds the mutex and is about to write. */
  predicate Unsent(s: State, id: Id) {
    NoLeg(s.w, id) || (id in s.locks && s.locks[id] in s.tasks && Finishing(s.tasks[s.locks[id]].pc))
  }

  predicate JournalOk(s: State) {
    forall id :: id in s.journal ==>
      && id in s.quotes && s.journal[id].q == s.quotes[id]
      && StatusOk(s.w, id, s.quotes[id], s.journal[id].status)
      && (s.journal[id].status in {Quoted, Committing} ==> Unsent(s, id))
      && (s.journal[id].userLock.Some? ==> !NoLeg(s.w, id))
  }

  predicate SameV1(q: Quote, q': Quote) { q.flow == V1 && q'.flow == V1 && q.hash == q'.hash }

  /** v1 preimages are drawn fresh, so v1 hashlocks never collide. */
  predicate QuotesOk(quotes: map<Id, Quote>, nextPre: nat) {
    && (forall id :: id in quotes && quotes[id].flow == V1 ==> quotes[id].hash.pre.Ours? && quotes[id].hash.pre.n < nextPre)
    && (forall id, id' :: id in quotes && id' in quotes && SameV1(quotes[id], quotes[id']) ==> id == id')
  }

  predicate Inv(s: State) {
    && WorldOk(s.w, s.quotes) && LocksOk(s) && JournalOk(s) && QuotesOk(s.quotes, s.nextPre)
    && (forall t :: t in s.tasks ==> TaskOk(s.w, s.quotes, s.tasks[t]))
  }

  // ----- the world only moves forward -----

  predicate ExferLe(l: ExferLock, l': ExferLock) {
    l' == l.(state := l'.state) && (l.state in {Claimed, HtlcState.Refunded} ==> l'.state == l.state)
  }

  predicate BscLe(l: BscLock, l': BscLock) {
    l' == l.(state := l'.state) && (l.state in {Claimed, HtlcState.Refunded} ==> l'.state == l.state)
  }

  /** Lock fields never change, settled locks stay settled, clocks and histories only grow.  Nothing is said
      of contracts that are not genuine. */
  predicate WorldLe(w: World, w': World) {
    && (forall tx :: tx in w.exfer ==> tx in w'.exfer && ExferLe(w.exfer[tx], w'.exfer[tx]))
    && (forall k :: k in w.bsc ==> k in w'.bsc && BscLe(w.bsc[k], w'.bsc[k]))
    && w'.genuine == w.genuine && w.tip <= w'.tip && w.clock <= w'.clock
    && w.revealed.Keys <= w'.revealed.Keys && w.signed.Keys <= w'.signed.Keys && w.vetted.Keys <= w'.vetted.Keys
    && w.legs <= w'.legs && w.shown <= w'.shown
  }

  lemma VettingStable(w: World, w': World, q: Quote, v: Vetting)
    requires WorldLe(w, w') && VettingOk(w, q, v)
    ensures VettingOk(w', q, v)
  {
    match v.place
    case OnExfer(tx) => assert ExferLe(w.exfer[tx], w'.exfer[tx]);
    case OnBsc(c, h) => if c in w.genuine { assert BscLe(w.bsc[(c, h)], w'.bsc[(c, h)]); }
  }

  lemma HasLegStable(w: World, w': World, id: Id)
    requires WorldLe(w, w') && !NoLeg(w, id)
    ensures !NoLeg(w', id)
  {
    var i :| 0 <= i < |w.legs| && w.legs[i].id == id;
    assert w'.legs[i] == w.legs[i];
  }

  lemma StatusStable(w: World, w': World, id: Id, q: Quote, st: Status)
    requires WorldLe(w, w') && StatusOk(w, id, q, st)
    ensures StatusOk(w', id, q, st)
  {
    if !NoLeg(w, id) { HasLegStable(w, w', id); }
    if q.flow == V1 && st == Completed {
      if q.dir == ExferToBnb {
        if q.contract.value in w.genuine { assert BscLe(w.bsc[(q.contract.value, q.hash)], w'.bsc[(q.contract.value, q.hash)]); }
      } else {
        var tx :| tx in w.exfer && BuyPaidBy(w, q, tx);
        assert ExferLe(w.exfer[tx], w'.exfer[tx]);
        assert tx in w'.exfer && BuyPaidBy(w', q, tx);
      }
    }
  }

  lemma PcStable(w: World, w': World, q: Quote, id: Id, pc: Pc)
    requires WorldLe(w, w') && PcOk(w, q, id, pc)
    ensures PcOk(w', q, id, pc)
  {
    if !NoLeg(w, id) { HasLegStable(w, w', id); }
    match pc
    case SellVetted(v) => VettingStable(w, w', q, v);
    case SellChecked(v, _) => VettingStable(w, w', q, v);
    case BuyVetted(_, v) => VettingStable(w, w', q, v);
    case Handing(v) =>
      VettingStable(w, w', q, v);
    case AdvRow(tx) => assert ExferLe(w.exfer[tx], w'.exfer[tx]);
    case AdvGated(tx, at) => VettingStable(w, w', q, Vetting(OnExfer(tx), at));
    case Writing(up, _) => StatusStable(w, w', id, q, up.status);
    case _ =>
  }

  /** A task's facts survive any world step that does not broadcast a leg of the same swap. */
  lemma TaskStable(w: World, w': World, quotes: map<Id, Quote>, t: Task)
    requires WorldLe(w, w') && TaskOk(w, quotes, t)
    requires PreSend(t.pc) ==> NoLeg(w', t.id)
    ensures TaskOk(w', quotes, t)
  {
    hide NoLeg, WorldLe, PcOk, StatusOk;
    if !NoLeg(w, t.id) { HasLegStable(w, w', t.id); }
    StatusStable(w, w', t.id, t.rec.q, t.rec.status);
    PcStable(w, w', t.rec.q, t.id, t.pc);
  }

  lemma PreSendHolds(w: World, quotes: map<Id, Quote>, t: Task)
    requires TaskOk(w, quotes, t) && PreSend(t.pc)
    ensures Holds(t.pc) && NoLeg(w, t.id)
  {
  }
}
