/** What holds in every run of the swap engine, whatever the pool does. */
module SwapSafety {
  import opened Common
  import opened SwapModel
  import opened SwapInvariant
  import opened SwapPreserve

  lemma {:induction false} RunInv(run: seq<State>, steps: seq<Step>, i: nat)
    requires IsRun(run, steps) && i < |run|
    ensures Inv(run[i])
  {
    if i == 0 {
      InitInv(run[0]);
    } else {
      RunInv(run, steps, i - 1);
      StepKeeps(run[i-1], steps[i-1]);
    }
  }

  // ----- what a reader of the chains would say -----

  /** Whether a broadcast first-leg lock has been claimed. */
  predicate LegClaimed(w: World, leg: Leg) { HasState(w, leg.place, Claimed) }

  /** The chain gave the lock at `p` back to its sender. */
  predicate GivenBack(w: World, p: Place) { HasState(w, p, HtlcState.Refunded) }

  predicate HasState(w: World, p: Place, st: HtlcState) {
    match p
    case OnExfer(tx) => tx in w.exfer && w.exfer[tx].state == st
    case OnBsc(c, h) => BscAt(w, (c, h)).Some? && BscAt(w, (c, h)).value.state == st
  }

  predicate PastDeadline(w: World, p: Place) {
    match p
    case OnExfer(tx) => tx in w.exfer && w.tip > w.exfer[tx].timeout
    case OnBsc(c, h) => BscAt(w, (c, h)).Some? && w.clock >= BscAt(w, (c, h)).value.timeoutSec
  }

  /** The chain shows a lock there under the quote's hashlock that pays us at least the quoted output. */
  predicate Pays(w: World, q: Quote, p: Place) {
    && q.amountOut.Some?
    && (match p
        case OnExfer(tx) => PaysUs(w, q, tx) && w.exfer[tx].amount >= q.amountOut.value
        case OnBsc(c, h) =>
          && h == q.hash && BscAt(w, (c, h)).Some? && BscAt(w, (c, h)).value.recipient == Us
          && BscAt(w, (c, h)).value.amount >= q.amountOut.value)
  }

  /** At this tip or clock the lock there still had the safety margin before its deadline. */
  predicate MarginAt(w: World, p: Place, at: nat) {
    match p
    case OnExfer(tx) => tx in w.exfer && at + MIN_EXFER_LOCK_BLOCKS <= w.exfer[tx].timeout
    case OnBsc(c, h) => BscAt(w, (c, h)).Some? && at + CLAIM_MARGIN_SECS < BscAt(w, (c, h)).value.timeoutSec
  }

  /** Such a lock, with the margin left when it was read. */
  predicate Backed(w: World, q: Quote, v: Vetting) { Pays(w, q, v.place) && MarginAt(w, v.place, v.at) }

  /** The contract the quote names, if any, is a genuine one: a caller can look it up before executing. */
  predicate Trusted(q: Quote, genuine: set<Address>) { q.contract.Some? ==> q.contract.value in genuine }

  lemma VettingBacked(w: World, q: Quote, v: Vetting)
    requires VettingOk(w, q, v) && (q.dir == ExferToBnb ==> Trusted(q, w.genuine))
    ensures Backed(w, q, v)
  {
  }

  /** At most one user first-leg lock is ever broadcast for a swap id, v1 or v2. */
  lemma AtMostOneFirstLeg(run: seq<State>, steps: seq<Step>, i: nat, j: nat, k: nat)
    requires IsRun(run, steps) && i < |run|
    requires j < |run[i].w.legs| && k < |run[i].w.legs| && run[i].w.legs[j].id == run[i].w.legs[k].id
    ensures j == k
  {
    RunInv(run, steps, i);
  }

  /** Every first leg sits on the right chain under the swap's hashlock, and its timeout left the
      minimum reclaim window at the tip or clock it was checked against. */
  lemma FirstLegKeepsReclaimWindow(run: seq<State>, steps: seq<Step>, i: nat, k: nat)
    requires IsRun(run, steps) && i < |run| && k < |run[i].w.legs|
    ensures run[i].w.legs[k].id in run[i].quotes
    ensures var w, leg := run[i].w, run[i].w.legs[k];
            var q := run[i].quotes[leg.id];
            match leg.place
            case OnExfer(tx) =>
              && q.dir == ExferToBnb && tx in w.exfer && w.exfer[tx].hash == q.hash
              && w.exfer[tx].timeout >= leg.checkedAt + MIN_EXFER_LOCK_BLOCKS
            case OnBsc(c, h) =>
              && q.dir == BnbToExfer && q.contract == Some(c) && h == q.hash
              && q.bscTimeout.Some? && q.bscTimeout.value >= leg.checkedAt + MIN_BSC_LOCK_SECS
              && (c in w.genuine ==> (c, h) in w.bsc && w.bsc[(c, h)].timeoutSec == q.bscTimeout.value)
  {
    RunInv(run, steps, i);
    assert LegOk(run[i].w, run[i].quotes, run[i].w.legs[k]);
  }

  /** v2: the user's lock goes out only after the pool's own lock was read on the other chain, paying
      the user at least the quote, with the margin left before its timeout.  For a sell the pool's lock
      is the one on the contract the quote names. */
  lemma V2LockAfterPoolLock(run: seq<State>, steps: seq<Step>, i: nat, k: nat)
    requires IsRun(run, steps) && i < |run| && k < |run[i].w.legs|
    requires run[i].w.legs[k].id in run[i].quotes && run[i].quotes[run[i].w.legs[k].id].flow == V2
    requires var q := run[i].quotes[run[i].w.legs[k].id]; q.dir == ExferToBnb ==> Trusted(q, run[i].w.genuine)
    ensures var leg := run[i].w.legs[k];
            leg.vetting.Some? && Backed(run[i].w, run[i].quotes[leg.id], leg.vetting.value)
  {
    RunInv(run, steps, i);
    var leg := run[i].w.legs[k];
    assert LegOk(run[i].w, run[i].quotes, leg);
    VettingBacked(run[i].w, run[i].quotes[leg.id], leg.vetting.value);
  }

  // ----- every sending of a preimage -----

  /** The step is a move of a v1 call whose swap already had a vetted pool lock, and it sends the swap's preimage.
      For a buy it goes out in a claim, signed in this step, of a lock that pays at least the quote, and the tip the
      call carries from its gate left the margin before that lock's timeout. */
  predicate GatedSend(s: State, step: Step) {
    && step.Move? && step.t in s.tasks
    && (var a, w' := s.tasks[step.t], step.w';
        && a.id in s.quotes && a.rec.q == s.quotes[a.id] && a.id in s.w.vetted
        && VettingOk(s.w, a.rec.q, s.w.vetted[a.id])
        && (var q := a.rec.q;
            && q.flow == V1 && q.hash.pre.Ours?
            && (match q.dir
                case ExferToBnb => (a.pc.AdvSend? || a.pc.AdvRelayed?) && w' == Show(s.w, a.id, q, None, a.pc.at)
                case BnbToExfer =>
                  && a.pc.AdvGated? && Backed(s.w, q, Vetting(OnExfer(a.pc.tx), a.pc.at))
                  && w' == Show(Sign(s.w, a.id, a.pc.tx), a.id, q, Some(a.pc.tx), a.pc.at))))
  }

  /** Every sending of a preimage, the first or a repeated one, is such a step, and no preimage gets out in any
      other way. */
  lemma RevealAfterVetting(run: seq<State>, steps: seq<Step>, i: nat)
    requires IsRun(run, steps) && i + 1 < |run|
    ensures run[i+1].w.shown != run[i].w.shown ==> GatedSend(run[i], steps[i])
    ensures run[i+1].w.revealed != run[i].w.revealed ==> GatedSend(run[i], steps[i])
  {
    hide GatedSend;
    RunInv(run, steps, i);
    RevealingStep(run[i], steps[i]);
  }

  lemma RevealingStep(s: State, step: Step)
    requires Inv(s) && Enabled(s, step)
    ensures Next(s, step).w.shown != s.w.shown ==> GatedSend(s, step)
    ensures Next(s, step).w.shown == s.w.shown ==> Next(s, step).w.revealed == s.w.revealed
  {
    hide Moves, WorldLe, PcOk, StatusOk, JournalOk, LocksOk, QuotesOk, PoolPays, ChainOk, LegOk;
    OnlyMovesReveal(s, step);
    if step.Move? {
      assert TaskOk(s.w, s.quotes, s.tasks[step.t]);
      SendingMove(s, step.t, step.pc, step.w');
    }
  }

  lemma SendingMove(s: State, t: TaskId, pc: Pc, w': World)
    requires WorldOk(s.w, s.quotes) && t in s.tasks && TaskOk(s.w, s.quotes, s.tasks[t]) && Moves(s.tasks[t], s.w, pc, w')
    ensures w'.shown != s.w.shown ==> GatedSend(s, Move(t, pc, w'))
    ensures w'.shown == s.w.shown ==> w'.revealed == s.w.revealed
  {
    hide Moves, WorldLe, PcOk, StatusOk, NoLeg, ChainOk, LegOk, SignedOk, ShownOk, RevealedOk;
    MovesGood(s.w, s.quotes, s.tasks[t], pc, w');
  }

  /** The gate of a buy send was passed by the same call, on the same lock, at the tip it carries, and the call has
      done nothing in between. */
  lemma {:induction false} SendFollowsGate(run: seq<State>, steps: seq<Step>, i: nat, t: TaskId) returns (g: nat)
    requires IsRun(run, steps) && i < |run| && t in run[i].tasks && run[i].tasks[t].pc.AdvGated?
    ensures g < i && steps[g].Move? && steps[g].t == t && t in run[g].tasks
    ensures var a, b := run[g].tasks[t], run[i].tasks[t];
            && a == b.(pc := AdvRow(b.pc.tx)) && b.pc.tx in run[g].w.exfer
            && ExferGate(run[g].w, b.rec.q, b.pc.tx) && b.pc.at == run[g].w.tip
    ensures forall k :: g < k <= i ==> t in run[k].tasks && run[k].tasks[t] == run[i].tasks[t]
  {
    hide ExferGate, Enabled, Next;
    assert i > 0;
    if t in run[i-1].tasks && run[i-1].tasks[t] == run[i].tasks[t] {
      g := SendFollowsGate(run, steps, i - 1, t);
    } else {
      g := i - 1;
      GateMove(run[g], steps[g], t);
    }
  }

  /** A call gets to its send only through its gate. */
  lemma GateMove(s: State, step: Step, t: TaskId)
    requires Enabled(s, step) && t in Next(s, step).tasks && Next(s, step).tasks[t].pc.AdvGated?
    requires !(t in s.tasks && s.tasks[t] == Next(s, step).tasks[t])
    ensures step.Move? && step.t == t && t in s.tasks
    ensures var a, b := s.tasks[t], Next(s, step).tasks[t];
            && a == b.(pc := AdvRow(b.pc.tx)) && b.pc.tx in s.w.exfer
            && ExferGate(s.w, b.rec.q, b.pc.tx) && b.pc.at == s.w.tip
  {
    hide ExferGate, PaysUs, VerifyPoolBscLock, EnvOk, EnvStep, Sweepable;
  }

  lemma OnlyMovesReveal(s: State, step: Step)
    requires Enabled(s, step)
    ensures step.Move? || (Next(s, step).w.revealed == s.w.revealed && Next(s, step).w.shown == s.w.shown)
  {
    hide Moves, Starts, EnvOk, EnvStep, Sweepable, QuoteOk, Holds, Apply, Terminal;
    if step.Env? { EnvShowsNothing(s.w, step.m); }
  }

  lemma EnvShowsNothing(w: World, m: EnvMove)
    requires EnvOk(w, m)
    ensures EnvStep(w, m).revealed == w.revealed && EnvStep(w, m).shown == w.shown
  {
  }

  /** When the buy gate passes, the pool has not taken its EXFER lock back. */
  lemma GatedLockNotReclaimed(run: seq<State>, steps: seq<Step>, i: nat, q: Quote, tx: TxId)
    requires IsRun(run, steps) && i < |run|
    requires NodeAccepts(run[i].w, q, tx)
    ensures run[i].w.exfer[tx].state in {Locked, Claimed}
  {
    RunInv(run, steps, i);
  }

  // ----- atomic safety -----

  /** The pool lock that a sending of the preimage relies on. */
  function Relied(q: Quote, sh: Showing): Option<Place> {
    match q.dir
    case BnbToExfer => if sh.claim.Some? then Some(OnExfer(sh.claim.value)) else None
    case ExferToBnb => if q.contract.Some? then Some(OnBsc(q.contract.value, q.hash)) else None
  }

  /** The call read its chain with the margin left; the preimage left with the margin left. */
  predicate ReadInTime(w: World, q: Quote, sh: Showing) { Relied(q, sh).Some? && MarginAt(w, Relied(q, sh).value, sh.read) }

  predicate SentInTime(w: World, q: Quote, sh: Showing) { Relied(q, sh).Some? && MarginAt(w, Relied(q, sh).value, sh.sent) }

  /** The pool has that lock back. */
  predicate Lost(w: World, q: Quote, sh: Showing) { Relied(q, sh).Some? && GivenBack(w, Relied(q, sh).value) }

  /** More than the safety margin has gone by since. */
  predicate MarginPassed(w: World, q: Quote, since: nat) {
    if q.dir == BnbToExfer then w.tip > since + MIN_EXFER_LOCK_BLOCKS else w.clock > since + CLAIM_MARGIN_SECS
  }

  /** The `j`-th sending is the first of this swap's preimage. */
  predicate IsFirst(w: World, id: Id, j: nat) {
    j < |w.shown| && w.shown[j].id == id && forall i :: 0 <= i < j ==> w.shown[i].id != id
  }

  /** A sending relied on a pool lock that pays us; a buy was gated on that lock with the margin left; and if the
      preimage left in time, the pool got the lock back only when more than the margin had gone by since. */
  predicate SendSound(w: World, q: Quote, sh: Showing) {
    && Relied(q, sh).Some? && Pays(w, q, Relied(q, sh).value)
    && (q.dir == BnbToExfer ==> ReadInTime(w, q, sh))
    && (Lost(w, q, sh) && SentInTime(w, q, sh) ==> MarginPassed(w, q, sh.sent))
    && (Lost(w, q, sh) && ReadInTime(w, q, sh) ==> MarginPassed(w, q, sh.read))
  }

  /** Our preimage was out, a pool lock on the other chain had been vetted for this very swap, it pays us at least
      the quoted output, the pool could not have it back before the deadline the gate measured, and the first sending
      was sound. */
  predicate Atomic(w: World, q: Quote, id: Id) {
    && q.hash.pre.Ours? && q.hash.pre.n in w.revealed
    && id in w.vetted && Backed(w, q, w.vetted[id])
    && (GivenBack(w, w.vetted[id].place) ==> PastDeadline(w, w.vetted[id].place))
    && (exists j :: 0 <= j < |w.shown| && IsFirst(w, id, j) && SendSound(w, q, w.shown[j]))
  }

  /** Every sending, in every state of every run, of a swap whose quote names a genuine contract. */
  lemma EverySendSound(run: seq<State>, steps: seq<Step>, i: nat, j: nat)
    requires IsRun(run, steps) && i < |run| && j < |run[i].w.shown|
    ensures run[i].w.shown[j].id in run[i].quotes
    ensures var q := run[i].quotes[run[i].w.shown[j].id];
            && q.flow == V1 && q.hash.pre.Ours? && q.hash.pre.n in run[i].w.revealed
            && (q.dir == BnbToExfer || Trusted(q, run[i].w.genuine) ==> SendSound(run[i].w, q, run[i].w.shown[j]))
  {
    RunInv(run, steps, i);
    ShownSound(run[i], j);
  }

  lemma ShownSound(s: State, j: nat)
    requires Inv(s) && j < |s.w.shown|
    ensures ShownOk(s.w, s.quotes, s.w.shown[j])
    ensures var q := s.quotes[s.w.shown[j].id];
            q.dir == BnbToExfer || Trusted(q, s.w.genuine) ==> SendSound(s.w, q, s.w.shown[j])
  {
    hide LocksOk, JournalOk, QuotesOk, LegOk, SignedOk, RevealedOk, Apart, TaskOk;
    var sh := s.w.shown[j];
    assert ShownOk(s.w, s.quotes, sh);
    assert VettingOk(s.w, s.quotes[sh.id], s.w.vetted[sh.id]);
  }

  lemma FirstSending(w: World, id: Id) returns (j: nat)
    requires HasShown(w, id)
    ensures IsFirst(w, id, j)
  {
    j := 0;
    while w.shown[j].id != id
      invariant j < |w.shown| && forall i :: 0 <= i < j ==> w.shown[i].id != id
      decreases |w.shown| - j
    {
      j := j + 1;
    }
  }

  /** v1 atomic safety, for quotes that name a genuine contract: once the user's first leg has been claimed,
      the swap was atomic. */
  lemma V1AtomicSafety(run: seq<State>, steps: seq<Step>, i: nat, k: nat)
    requires IsRun(run, steps) && i < |run| && k < |run[i].w.legs|
    requires run[i].w.legs[k].id in run[i].quotes && run[i].quotes[run[i].w.legs[k].id].flow == V1
    requires Trusted(run[i].quotes[run[i].w.legs[k].id], run[i].w.genuine)
    requires LegClaimed(run[i].w, run[i].w.legs[k])
    ensures Atomic(run[i].w, run[i].quotes[run[i].w.legs[k].id], run[i].w.legs[k].id)
  {
    RunInv(run, steps, i);
    ClaimedShown(run[i], k);
    ClaimedAtomic(run[i], run[i].w.legs[k].id);
  }

  lemma ClaimedAtomic(s: State, id: Id)
    requires Inv(s) && id in s.quotes && Trusted(s.quotes[id], s.w.genuine) && HasShown(s.w, id)
    ensures Atomic(s.w, s.quotes[id], id)
  {
    hide SendSound, LocksOk, JournalOk, QuotesOk, LegOk, SignedOk, RevealedOk, Apart, TaskOk;
    var j := FirstSending(s.w, id);
    ShownSound(s, j);
    VettingBacked(s.w, s.quotes[id], s.w.vetted[id]);
    VettingHeld(s, id);
  }

  /** What was vetted on a chain that works as it should goes back past its deadline only. */
  lemma VettingHeld(s: State, id: Id)
    requires Inv(s) && id in s.w.vetted
    requires s.w.vetted[id].place.OnBsc? ==> s.w.vetted[id].place.contract in s.w.genuine
    ensures GivenBack(s.w, s.w.vetted[id].place) ==> PastDeadline(s.w, s.w.vetted[id].place)
  {
  }

  /** A claimed v1 leg on a chain or contract that works as it should: the preimage is out. */
  lemma ClaimedShown(s: State, k: nat)
    requires Inv(s) && k < |s.w.legs| && s.w.legs[k].id in s.quotes && s.quotes[s.w.legs[k].id].flow == V1
    requires s.w.legs[k].place.OnExfer? || s.w.legs[k].place.contract in s.w.genuine
    requires LegClaimed(s.w, s.w.legs[k])
    ensures var id := s.w.legs[k].id;
            var q := s.quotes[id];
            && q.hash.pre.Ours? && q.hash.pre.n in s.w.revealed && id in s.w.vetted && VettingOk(s.w, q, s.w.vetted[id])
            && HasShown(s.w, id)
  {
    hide LocksOk, JournalOk, SignedOk, ShownOk, Apart, TaskOk;
    var leg := s.w.legs[k];
    assert LegOk(s.w, s.quotes, leg);
    var n := s.quotes[leg.id].hash.pre.n;
    assert n in s.w.revealed;
    assert RevealedOk(s.w, s.quotes, n, s.w.revealed[n]);
    assert SameV1(s.quotes[s.w.revealed[n]], s.quotes[leg.id]);
  }

  /** The BNB lock under the quote's hashlock, paying us at least the quoted output, is claimed on chain. */
  predicate SellPaidInFull(w: World, q: Quote) {
    && q.contract.Some? && q.amountOut.Some? && BscAt(w, (q.contract.value, q.hash)).Some?
    && (var l := BscAt(w, (q.contract.value, q.hash)).value;
        l.state == Claimed && l.recipient == Us && l.amount >= q.amountOut.value)
  }

  /** A v1 sell that names a genuine contract and is marked Completed has been paid in full. */
  lemma SellCompletedTruthful(run: seq<State>, steps: seq<Step>, i: nat, id: Id)
    requires IsRun(run, steps) && i < |run| && id in run[i].journal
    requires run[i].journal[id].status == Completed
    requires run[i].journal[id].q.flow == V1 && run[i].journal[id].q.dir == ExferToBnb
    requires Trusted(run[i].journal[id].q, run[i].w.genuine)
    ensures SellPaidInFull(run[i].w, run[i].journal[id].q)
  {
    RunInv(run, steps, i);
    assert VettingOk(run[i].w, run[i].quotes[id], run[i].w.vetted[id]);
  }

  /** A buy marked Completed: some EXFER lock under the hashlock, paying us, is claimed, and the claim
      was signed for a swap with that hashlock whose quote the lock covers. */
  lemma BuyCompletedClaim(run: seq<State>, steps: seq<Step>, i: nat, id: Id) returns (tx: TxId, signer: Id)
    requires IsRun(run, steps) && i < |run| && id in run[i].journal
    requires run[i].journal[id].status == Completed
    requires run[i].journal[id].q.flow == V1 && run[i].journal[id].q.dir == BnbToExfer
    ensures PaysUs(run[i].w, run[i].journal[id].q, tx) && run[i].w.exfer[tx].state == Claimed
    ensures signer in run[i].quotes && run[i].quotes[signer].hash == run[i].journal[id].q.hash
    ensures run[i].quotes[signer].amountOut.Some? && run[i].w.exfer[tx].amount >= run[i].quotes[signer].amountOut.value
    ensures SignedOk(run[i].w, run[i].quotes, tx, signer)
  {
    hide LegOk, ShownOk, RevealedOk, VettingOk, LocksOk, QuotesOk, Apart, TaskOk, NoLeg;
    RunInv(run, steps, i);
    var s := run[i];
    tx :| tx in s.w.exfer && BuyPaidBy(s.w, s.quotes[id], tx);
    signer := s.w.signed[tx];
    assert SignedOk(s.w, s.quotes, tx, signer);
  }

  /** Some lock under the hashlock that pays us, and covers the quote, is claimed. */
  ghost predicate Covered(w: World, q: Quote) {
    exists tx :: tx in w.exfer && PaysUs(w, q, tx) && w.exfer[tx].state == Claimed
                 && (q.amountOut.Some? ==> w.exfer[tx].amount >= q.amountOut.value)
  }

  /** Swap `j` is an executed v2 buy for less under the hashlock of `q`, on a contract that could take both
      first legs. */
  predicate Undercuts(s: State, j: Id, q: Quote) {
    && j in s.quotes && !NoLeg(s.w, j)
    && (var p := s.quotes[j];
        && p.flow == V2 && p.dir == BnbToExfer && p.hash == q.hash
        && p.amountOut.Some? && q.amountOut.Some? && p.amountOut.value < q.amountOut.value
        && (p.contract != q.contract || !Trusted(q, s.w.genuine)))
  }

  /** A Completed buy was paid at least its own quote, unless it was undercut. */
  lemma BuyCompletedTruthful(run: seq<State>, steps: seq<Step>, i: nat, id: Id)
    requires IsRun(run, steps) && i < |run| && id in run[i].journal
    requires run[i].journal[id].status == Completed
    requires run[i].journal[id].q.flow == V1 && run[i].journal[id].q.dir == BnbToExfer
    requires forall j :: !Undercuts(run[i], j, run[i].journal[id].q)
    ensures Covered(run[i].w, run[i].journal[id].q)
  {
    RunInv(run, steps, i);
    var tx, signer := BuyCompletedClaim(run, steps, i, id);
    SignerUndercuts(run[i], id, tx, signer);
  }

  /** Whoever signed the claim of a Completed buy's row is the buy itself or an executed v2 buy elsewhere. */
  lemma SignerUndercuts(s: State, id: Id, tx: TxId, signer: Id)
    requires Inv(s) && id in s.journal && s.journal[id].status == Completed
    requires s.journal[id].q.flow == V1 && s.journal[id].q.dir == BnbToExfer
    requires SignedOk(s.w, s.quotes, tx, signer) && s.quotes[signer].hash == s.journal[id].q.hash
    ensures var q, p := s.journal[id].q, s.quotes[signer];
            p.amountOut.Some? && q.amountOut.Some? && p.amountOut.value < q.amountOut.value ==> Undercuts(s, signer, q)
  {
    var q, p := s.journal[id].q, s.quotes[signer];
    if p.flow == V1 {
      assert SameV1(p, q);
    } else if p.contract == q.contract && Trusted(q, s.w.genuine) {
      var i := LegIndex(s, id);
      var j := LegIndex(s, signer);
      assert s.w.legs[i].place == s.w.legs[j].place;
      LegsApart(s, i, j);
    }
  }

  lemma LegIndex(s: State, id: Id) returns (i: nat)
    requires Inv(s) && !NoLeg(s.w, id) && id in s.quotes && s.quotes[id].dir == BnbToExfer
    ensures i < |s.w.legs| && s.w.legs[i].id == id && s.quotes[id].contract.Some?
    ensures s.w.legs[i].place == OnBsc(s.quotes[id].contract.value, s.quotes[id].hash)
    ensures BuyReady(s.quotes[id], s.w.legs[i].checkedAt) && s.quotes[id].expiresAt > 0
  {
    i :| 0 <= i < |s.w.legs| && s.w.legs[i].id == id;
    assert LegOk(s.w, s.quotes, s.w.legs[i]);
  }

  lemma LegsApart(s: State, i: nat, j: nat)
    requires Inv(s) && i < |s.w.legs| && j < |s.w.legs|
    requires s.w.legs[i].place == s.w.legs[j].place && s.w.legs[i].place.OnBsc? && s.w.legs[i].place.contract in s.w.genuine
    ensures i == j
  {
  }

  /** The node path of the v2 buy check never looks at the lock's state, yet what it accepts the
      indexer path rejects only when the lock is already claimed. */
  lemma NodePathExact(run: seq<State>, steps: seq<Step>, i: nat, q: Quote, tx: TxId)
    requires IsRun(run, steps) && i < |run|
    requires NodeAccepts(run[i].w, q, tx)
    ensures IndexerAccepts(run[i].w, q, tx) <==> run[i].w.exfer[tx].state != Claimed
  {
    RunInv(run, steps, i);
  }

  /** And inside a drive whose hashlock no other quote carries, the two paths agree. */
  lemma NodePathAgrees(run: seq<State>, steps: seq<Step>, i: nat, t: TaskId, tx: TxId)
    requires IsRun(run, steps) && i < |run| && t in run[i].tasks && run[i].tasks[t].pc.BuyClear?
    requires forall id :: id in run[i].quotes && run[i].quotes[id].hash == run[i].tasks[t].rec.q.hash ==> id == run[i].tasks[t].id
    ensures NodeAccepts(run[i].w, run[i].tasks[t].rec.q, tx) <==> IndexerAccepts(run[i].w, run[i].tasks[t].rec.q, tx)
  {
    RunInv(run, steps, i);
    var s := run[i];
    var a := s.tasks[t];
    assert TaskOk(s.w, s.quotes, a);
    if NodeAccepts(s.w, a.rec.q, tx) { NodePathExact(run, steps, i, a.rec.q, tx); }
    assert tx in s.w.signed ==> SignedOk(s.w, s.quotes, tx, s.w.signed[tx]);
  }

  /** Why the engine relies on fresh swap ids: storing a quote over an executed swap re-opens
      `execute` for it, and the invariant is gone. */
  lemma ReusedIdReopensExecute(run: seq<State>, steps: seq<Step>, i: nat, k: nat, q: Quote)
    requires IsRun(run, steps) && i < |run| && k < |run[i].w.legs|
    requires Free(run[i], run[i].w.legs[k].id) && run[i].w.clock < q.expiresAt
    ensures var s, id := run[i], run[i].w.legs[k].id;
            var rec := Rec(q, Quoted, None, s.w.clock);
            var s' := s.(journal := s.journal[id := rec], quotes := s.quotes[id := q]);
            Starts(s', Task(id, rec, ExecRead)) && !Inv(s')
  {
    RunInv(run, steps, i);
    var s, id := run[i], run[i].w.legs[k].id;
    var s' := s.(journal := s.journal[id := Rec(q, Quoted, None, s.w.clock)], quotes := s.quotes[id := q]);
    assert !Unsent(s', id);
  }
}
