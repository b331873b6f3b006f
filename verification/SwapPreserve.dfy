/** Every step of the swap engine keeps the invariant. */
module SwapPreserve {
  import opened Common
  import opened SwapModel
  import opened SwapInvariant

  // ----- the world part -----

  lemma LeRefl(w: World)
    ensures WorldLe(w, w)
  {
  }

  lemma SignedStable(w: World, w': World, quotes: map<Id, Quote>, tx: TxId, id: Id)
    requires WorldLe(w, w') && SignedOk(w, quotes, tx, id)
    ensures SignedOk(w', quotes, tx, id)
  {
    assert ExferLe(w.exfer[tx], w'.exfer[tx]);
    if quotes[id].flow == V2 { HasLegStable(w, w', id); }
  }

  lemma RevealedStable(w: World, w': World, quotes: map<Id, Quote>, n: nat, id: Id)
    requires WorldLe(w, w') && RevealedOk(w, quotes, n, id)
    ensures RevealedOk(w', quotes, n, id)
  {
    var j :| 0 <= j < |w.shown| && w.shown[j].id == id;
    assert w'.shown[j] == w.shown[j];
  }

  lemma ShownStable(w: World, w': World, quotes: map<Id, Quote>, sh: Showing)
    requires WorldLe(w, w') && ShownOk(w, quotes, sh)
    ensures ShownOk(w', quotes, sh)
  {
    hide VettingOk, NoLeg;
    HasLegStable(w, w', sh.id);
    if quotes[sh.id].dir == BnbToExfer { VettingStable(w, w', quotes[sh.id], Vetting(OnExfer(sh.claim.value), sh.read)); }
  }

  lemma LegStable(w: World, w': World, quotes: map<Id, Quote>, leg: Leg)
    requires WorldLe(w, w') && LegOk(w, quotes, leg)
    ensures LegOk(w', quotes, leg)
  {
    match leg.place {
      case OnExfer(tx) => assert ExferLe(w.exfer[tx], w'.exfer[tx]);
      case OnBsc(c, h) => if c in w.genuine { assert BscLe(w.bsc[(c, h)], w'.bsc[(c, h)]); }
    }
    if quotes[leg.id].flow == V2 { VettingStable(w, w', quotes[leg.id], leg.vetting.value); }
  }

  predicate AppendsAtMost(w: World, w': World, quotes: map<Id, Quote>) {
    || w'.legs == w.legs
    || (&& |w'.legs| == |w.legs| + 1 && w.legs <= w'.legs
        && LegOk(w', quotes, w'.legs[|w.legs|]) && NoLeg(w, w'.legs[|w.legs|].id) && FreshPlace(w, w'.legs[|w.legs|].place))
  }

  /** A genuine contract had no entry there. */
  predicate FreshPlace(w: World, p: Place) { p.OnBsc? ==> Lockable(w, (p.contract, p.hash)) }

  /** So the new leg stands apart from the old ones. */
  lemma NewApart(w: World, quotes: map<Id, Quote>, i: nat, leg: Leg)
    requires i < |w.legs| && LegOk(w, quotes, w.legs[i]) && NoLeg(w, leg.id) && FreshPlace(w, leg.place)
    ensures Apart(w, w.legs[i], leg)
  {
  }

  /** What was shown stays accounted for. */
  lemma HistoryFrame(w: World, w': World, quotes: map<Id, Quote>)
    requires WorldOk(w, quotes) && WorldLe(w, w')
    requires forall n :: n in w'.revealed ==>
               (n in w.revealed && w'.revealed[n] == w.revealed[n]) || RevealedOk(w', quotes, n, w'.revealed[n])
    requires forall j :: |w.shown| <= j < |w'.shown| ==> ShownOk(w', quotes, w'.shown[j])
    ensures forall n :: n in w'.revealed ==> RevealedOk(w', quotes, n, w'.revealed[n])
    ensures forall j :: 0 <= j < |w'.shown| ==> ShownOk(w', quotes, w'.shown[j])
  {
    hide VettingOk, RevealedOk, ShownOk, SignedOk, LegOk, Apart, ChainOk;
    forall n | n in w'.revealed ensures RevealedOk(w', quotes, n, w'.revealed[n]) {
      if n in w.revealed && w'.revealed[n] == w.revealed[n] { RevealedStable(w, w', quotes, n, w.revealed[n]); }
    }
    forall j | 0 <= j < |w'.shown| ensures ShownOk(w', quotes, w'.shown[j]) {
      if j < |w.shown| {
        assert w'.shown[j] == w.shown[j];
        ShownStable(w, w', quotes, w.shown[j]);
      }
    }
  }

  /** It is enough to justify what a step adds. */
  lemma WorldFrame(w: World, w': World, quotes: map<Id, Quote>)
    requires WorldOk(w, quotes) && WorldLe(w, w') && ChainOk(w')
    requires forall id :: id in w'.vetted ==>
               (id in w.vetted && w'.vetted[id] == w.vetted[id]) || (id in quotes && VettingOk(w', quotes[id], w'.vetted[id]))
    requires forall n :: n in w'.revealed ==>
               (n in w.revealed && w'.revealed[n] == w.revealed[n]) || RevealedOk(w', quotes, n, w'.revealed[n])
    requires forall j :: |w.shown| <= j < |w'.shown| ==> ShownOk(w', quotes, w'.shown[j])
    requires forall tx :: tx in w'.signed ==>
               (tx in w.signed && w'.signed[tx] == w.signed[tx]) || SignedOk(w', quotes, tx, w'.signed[tx])
    requires AppendsAtMost(w, w', quotes)
    ensures WorldOk(w', quotes)
  {
    hide VettingOk, RevealedOk, ShownOk, SignedOk, LegOk, NoLeg, FreshPlace, ChainOk;
    HistoryFrame(w, w', quotes);
    forall id | id in w'.vetted ensures id in quotes && VettingOk(w', quotes[id], w'.vetted[id]) {
      if id in w.vetted && w'.vetted[id] == w.vetted[id] { VettingStable(w, w', quotes[id], w.vetted[id]); }
    }
    forall tx | tx in w'.signed ensures SignedOk(w', quotes, tx, w'.signed[tx]) {
      if tx in w.signed && w'.signed[tx] == w.signed[tx] { SignedStable(w, w', quotes, tx, w.signed[tx]); }
    }
    forall i | 0 <= i < |w'.legs| ensures LegOk(w', quotes, w'.legs[i]) {
      if i < |w.legs| {
        assert w'.legs[i] == w.legs[i];
        LegStable(w, w', quotes, w.legs[i]);
      }
    }
    forall i, j | 0 <= i < j < |w'.legs| ensures Apart(w', w'.legs[i], w'.legs[j]) {
      assert w'.legs[i] == w.legs[i];
      if j < |w.legs| { assert w'.legs[j] == w.legs[j]; } else { NewApart(w, quotes, i, w'.legs[j]); }
    }
  }

  /** The outside only touches the chains and the clocks. */
  predicate SameHistory(w: World, w': World) {
    && w'.vetted == w.vetted && w'.revealed == w.revealed && w'.shown == w.shown && w'.signed == w.signed
    && w'.legs == w.legs
  }

  lemma EnvExferChain(w: World, m: EnvMove)
    requires ChainOk(w) && EnvOk(w, m) && (m.NewExfer? || m.ClaimExfer? || m.RefundExfer?)
    ensures ChainOk(EnvStep(w, m)) && WorldLe(w, EnvStep(w, m)) && SameHistory(w, EnvStep(w, m))
  {
  }

  lemma EnvBscChain(w: World, m: EnvMove)
    requires ChainOk(w) && EnvOk(w, m) && (m.NewBsc? || m.Rewrite? || m.ClaimBsc? || m.RefundBsc? || m.Tick?)
    ensures ChainOk(EnvStep(w, m)) && WorldLe(w, EnvStep(w, m)) && SameHistory(w, EnvStep(w, m))
  {
  }

  lemma EnvOkay(w: World, quotes: map<Id, Quote>, m: EnvMove)
    requires WorldOk(w, quotes) && EnvOk(w, m)
    ensures WorldLe(w, EnvStep(w, m)) && WorldOk(EnvStep(w, m), quotes) && EnvStep(w, m).legs == w.legs
  {
    hide VettingOk, LegOk, SignedOk, RevealedOk, ChainOk, WorldLe, EnvOk, EnvStep, Apart;
    if m.NewExfer? || m.ClaimExfer? || m.RefundExfer? { EnvExferChain(w, m); } else { EnvBscChain(w, m); }
    WorldFrame(w, EnvStep(w, m), quotes);
  }

  lemma VetOkay(w: World, quotes: map<Id, Quote>, id: Id, v: Vetting)
    requires WorldOk(w, quotes) && id in quotes && VettingOk(w, quotes[id], v)
    ensures WorldLe(w, Vet(w, id, v)) && WorldOk(Vet(w, id, v), quotes) && VettingOk(Vet(w, id, v), quotes[id], v)
  {
    VettingStable(w, Vet(w, id, v), quotes[id], v);
    WorldFrame(w, Vet(w, id, v), quotes);
  }

  lemma ShowOkay(w: World, quotes: map<Id, Quote>, id: Id, claim: Option<TxId>, read: nat)
    requires WorldOk(w, quotes) && id in quotes && quotes[id].flow == V1 && quotes[id].hash.pre.Ours? && id in w.vetted && !NoLeg(w, id)
    requires match quotes[id].dir
             case ExferToBnb => claim.None? && read <= w.clock
             case BnbToExfer =>
               claim.Some? && claim.value in w.signed && VettingOk(w, quotes[id], Vetting(OnExfer(claim.value), read))
    ensures WorldLe(w, Show(w, id, quotes[id], claim, read)) && WorldOk(Show(w, id, quotes[id], claim, read), quotes)
  {
    hide SignedOk, LegOk, Apart, PoolPays;
    var w' := Show(w, id, quotes[id], claim, read);
    HasLegStable(w, w', id);
    assert w'.shown[|w.shown|].id == id;
    if quotes[id].dir == BnbToExfer { VettingStable(w, w', quotes[id], Vetting(OnExfer(claim.value), read)); }
    assert ShownOk(w', quotes, w'.shown[|w.shown|]);
    WorldFrame(w, w', quotes);
  }

  lemma SignOkay(w: World, quotes: map<Id, Quote>, id: Id, tx: TxId)
    requires WorldOk(w, quotes) && SignedOk(w, quotes, tx, id)
    ensures WorldLe(w, Sign(w, id, tx)) && WorldOk(Sign(w, id, tx), quotes)
  {
    SignedStable(w, Sign(w, id, tx), quotes, tx, id);
    WorldFrame(w, Sign(w, id, tx), quotes);
  }

  lemma ReclaimOkay(w: World, quotes: map<Id, Quote>, p: Place)
    requires WorldOk(w, quotes)
    ensures WorldLe(w, Reclaim(w, p)) && WorldOk(Reclaim(w, p), quotes)
  {
    WorldFrame(w, Reclaim(w, p), quotes);
  }

  lemma SendSellOkay(w: World, quotes: map<Id, Quote>, id: Id, at: nat, v: Option<Vetting>, tx: TxId)
    requires WorldOk(w, quotes) && id in quotes && quotes[id].dir == ExferToBnb && SellReady(quotes[id], at)
    requires tx !in w.exfer && NoLeg(w, id) && quotes[id].expiresAt > 0
    requires quotes[id].flow == V2 ==> v.Some? && VettingOk(w, quotes[id], v.value)
    ensures var w' := SendSell(w, id, quotes[id], at, v, tx); WorldLe(w, w') && WorldOk(w', quotes) && !NoLeg(w', id)
  {
    hide SignedOk, ShownOk, RevealedOk, Apart;
    var w' := SendSell(w, id, quotes[id], at, v, tx);
    if quotes[id].flow == V2 { VettingStable(w, w', quotes[id], v.value); }
    assert w'.legs[|w.legs|] == Leg(id, OnExfer(tx), at, v);
    assert LegOk(w', quotes, w'.legs[|w.legs|]);
    WorldFrame(w, w', quotes);
  }

  lemma SendBuyOkay(w: World, quotes: map<Id, Quote>, id: Id, at: nat, v: Option<Vetting>)
    requires WorldOk(w, quotes) && id in quotes && quotes[id].dir == BnbToExfer && BuyReady(quotes[id], at)
    requires Lockable(w, (quotes[id].contract.value, quotes[id].hash)) && NoLeg(w, id) && quotes[id].expiresAt > 0
    requires quotes[id].flow == V2 ==> v.Some? && VettingOk(w, quotes[id], v.value)
    ensures var w' := SendBuy(w, id, quotes[id], at, v); WorldLe(w, w') && WorldOk(w', quotes) && !NoLeg(w', id)
  {
    hide SignedOk, ShownOk, RevealedOk, Apart;
    var w' := SendBuy(w, id, quotes[id], at, v);
    if quotes[id].flow == V2 { VettingStable(w, w', quotes[id], v.value); }
    assert w'.legs[|w.legs|] == Leg(id, OnBsc(quotes[id].contract.value, quotes[id].hash), at, v);
    assert LegOk(w', quotes, w'.legs[|w.legs|]);
    WorldFrame(w, w', quotes);
  }

  // ----- one move of one task -----

  /** What a move owes the rest of the engine. */
  predicate MoveGood(w: World, q: Quote, quotes: map<Id, Quote>, id: Id, a: Pc, b: Pc, w': World) {
    && Holds(b) == Holds(a)
    && WorldLe(w, w') && WorldOk(w', quotes) && PcOk(w', q, id, b)
    && (PreSend(b) ==> PreSend(a) && w'.legs == w.legs)
    && (w'.legs == w.legs
        || (Holds(a) && Finishing(b) && |w'.legs| == |w.legs| + 1 && w'.legs[|w.legs|].id == id))
    && (Finishing(a) ==> Finishing(b))
    && (w'.shown != w.shown ==> ShowsGated(w, q, id, a, w'))
    && (w'.shown == w.shown ==> w'.revealed == w.revealed)
  }

  /** A preimage leaves in this step, for a v1 swap that already had a vetted pool lock; for a buy, in a claim,
      signed in the same step, of the lock that this very call had gated at `at`. */
  predicate ShowsGated(w: World, q: Quote, id: Id, a: Pc, w': World) {
    && id in w.vetted && q.flow == V1 && q.hash.pre.Ours?
    && (match q.dir
        case ExferToBnb => (a.AdvSend? || a.AdvRelayed?) && w' == Show(w, id, q, None, a.at)
        case BnbToExfer =>
          && a.AdvGated? && VettingOk(w, q, Vetting(OnExfer(a.tx), a.at))
          && w' == Show(Sign(w, id, a.tx), id, q, Some(a.tx), a.at))
  }

  lemma ExecGood(w: World, quotes: map<Id, Quote>, a: Task, b: Pc, w': World)
    requires WorldOk(w, quotes) && TaskOk(w, quotes, a)
    requires (a.pc.ExecRead? || a.pc.ExecChecked?) && ExecMoves(a, w, b, w')
    ensures MoveGood(w, a.rec.q, quotes, a.id, a.pc, b, w')
  {
    hide ShowsGated, WorldOk, WorldLe, NoLeg, VettingOk, PoolPays, SellPaid, BuyPaid;
    if a.pc.ExecChecked? { ExecSends(w, quotes, a, b, w'); } else { LeRefl(w); }
  }

  lemma ExecSends(w: World, quotes: map<Id, Quote>, a: Task, b: Pc, w': World)
    requires WorldOk(w, quotes) && TaskOk(w, quotes, a)
    requires a.pc.ExecChecked? && ExecMoves(a, w, b, w')
    ensures MoveGood(w, a.rec.q, quotes, a.id, a.pc, b, w')
  {
    hide ShowsGated, WorldOk, WorldLe, NoLeg, StatusOk, SellReady, BuyReady;
    if a.rec.q.dir == ExferToBnb {
      SendSellOkay(w, quotes, a.id, a.pc.at, None, b.up.lock.value);
    } else {
      SendBuyOkay(w, quotes, a.id, a.pc.at, None);
    }
    Sent(w', a.id, a.rec.q, b.up.status);
  }

  lemma DriveSellCheck(w: World, quotes: map<Id, Quote>, a: Task, b: Pc, w': World)
    requires WorldOk(w, quotes) && TaskOk(w, quotes, a)
    requires (a.pc.DriveRead? && a.rec.q.dir == ExferToBnb) || a.pc.SellClear? || a.pc.SellVetted?
    requires DriveSellMoves(a, w, b, w')
    ensures MoveGood(w, a.rec.q, quotes, a.id, a.pc, b, w')
  {
    hide ShowsGated, WorldOk, WorldLe, NoLeg, SellPaid, BuyPaid;
    LeRefl(w);
    if a.pc.SellClear? && b.SellVetted? { VetOkay(w, quotes, a.id, b.v); }
  }

  lemma DriveSellSend(w: World, quotes: map<Id, Quote>, a: Task, b: Pc, w': World)
    requires WorldOk(w, quotes) && TaskOk(w, quotes, a) && a.pc.SellChecked?
    requires DriveSellMoves(a, w, b, w')
    ensures MoveGood(w, a.rec.q, quotes, a.id, a.pc, b, w')
  {
    hide ShowsGated, WorldOk, WorldLe, NoLeg, SellPaid, BuyPaid, VettingOk, PoolPays;
    SendSellOkay(w, quotes, a.id, a.pc.at, Some(a.pc.v), b.up.lock.value);
  }

  lemma DriveSellGood(w: World, quotes: map<Id, Quote>, a: Task, b: Pc, w': World)
    requires WorldOk(w, quotes) && TaskOk(w, quotes, a)
    requires (a.pc.DriveRead? && a.rec.q.dir == ExferToBnb) || a.pc.SellClear? || a.pc.SellVetted? || a.pc.SellChecked?
    requires DriveSellMoves(a, w, b, w')
    ensures MoveGood(w, a.rec.q, quotes, a.id, a.pc, b, w')
  {
    hide WorldOk, TaskOk, MoveGood, DriveSellMoves;
    if a.pc.SellChecked? { DriveSellSend(w, quotes, a, b, w'); } else { DriveSellCheck(w, quotes, a, b, w'); }
  }

  lemma DriveBuyCheck(w: World, quotes: map<Id, Quote>, a: Task, b: Pc, w': World)
    requires WorldOk(w, quotes) && TaskOk(w, quotes, a)
    requires (a.pc.DriveRead? && a.rec.q.dir == BnbToExfer) || a.pc.BuyMargin? || a.pc.BuyClear?
    requires DriveBuyMoves(a, w, b, w')
    ensures MoveGood(w, a.rec.q, quotes, a.id, a.pc, b, w')
  {
    hide ShowsGated, WorldOk, WorldLe;
    LeRefl(w);
    if a.pc.BuyClear? { VetOkay(w, quotes, a.id, b.v); }
  }

  lemma DriveBuySend(w: World, quotes: map<Id, Quote>, a: Task, b: Pc, w': World)
    requires WorldOk(w, quotes) && TaskOk(w, quotes, a) && (a.pc.BuyVetted? || a.pc.Handing?)
    requires DriveBuyMoves(a, w, b, w')
    ensures MoveGood(w, a.rec.q, quotes, a.id, a.pc, b, w')
  {
    hide ShowsGated, WorldOk, WorldLe;
    LeRefl(w);
    if a.pc.BuyVetted? && b.Handing? {
      SendBuyOkay(w, quotes, a.id, a.pc.at, Some(a.pc.v));
      VettingStable(w, w', a.rec.q, a.pc.v);
      assert w'.legs[|w.legs|].id == a.id;
    } else if a.pc.Handing? && w' != w {
      SignOkay(w, quotes, a.id, a.pc.v.place.tx);
    }
  }

  lemma DriveBuyGood(w: World, quotes: map<Id, Quote>, a: Task, b: Pc, w': World)
    requires WorldOk(w, quotes) && TaskOk(w, quotes, a)
    requires (a.pc.DriveRead? && a.rec.q.dir == BnbToExfer) || a.pc.BuyMargin? || a.pc.BuyClear? || a.pc.BuyVetted? || a.pc.Handing?
    requires DriveBuyMoves(a, w, b, w')
    ensures MoveGood(w, a.rec.q, quotes, a.id, a.pc, b, w')
  {
    hide WorldOk, TaskOk, MoveGood, DriveBuyMoves;
    if a.pc.BuyVetted? || a.pc.Handing? { DriveBuySend(w, quotes, a, b, w'); } else { DriveBuyCheck(w, quotes, a, b, w'); }
  }

  lemma AdvanceV1Sell(w: World, quotes: map<Id, Quote>, a: Task, b: Pc, w': World)
    requires WorldOk(w, quotes) && TaskOk(w, quotes, a) && a.rec.q.dir == ExferToBnb
    requires a.pc.AdvRead? && a.rec.q.flow == V1 && AdvanceV1(a, w, b, w')
    ensures MoveGood(w, a.rec.q, quotes, a.id, a.pc, b, w')
  {
    hide ShowsGated, WorldOk, WorldLe;
    LeRefl(w);
    var q := a.rec.q;
    if a.rec.status == UserLocked { VetOkay(w, quotes, a.id, Vetting(OnBsc(q.contract.value, q.hash), w.clock)); }
  }

  lemma AdvanceV1Buy(w: World, quotes: map<Id, Quote>, a: Task, b: Pc, w': World)
    requires WorldOk(w, quotes) && TaskOk(w, quotes, a) && a.rec.q.dir == BnbToExfer
    requires a.pc.AdvRead? && a.rec.q.flow == V1 && AdvanceV1(a, w, b, w')
    ensures MoveGood(w, a.rec.q, quotes, a.id, a.pc, b, w')
  {
    hide ShowsGated, WorldOk, WorldLe, PoolLockSafeToClaim, NoLeg, VettingOk;
    LeRefl(w);
    var q := a.rec.q;
    if a.rec.status != UserLocked {
      var tx :| tx in w.exfer && BuyRow(q, w, tx, b);
      if w.exfer[tx].state == Claimed { assert BuyPaidBy(w, q, tx); }
    }
  }

  /** The claim that shows the preimage of a v1 buy. */
  lemma AdvanceGated(w: World, quotes: map<Id, Quote>, a: Task, b: Pc, w': World)
    requires WorldOk(w, quotes) && TaskOk(w, quotes, a) && a.pc.AdvGated?
    requires AdvanceMoves(a, w, b, w')
    ensures MoveGood(w, a.rec.q, quotes, a.id, a.pc, b, w')
  {
    hide WorldOk, WorldLe, NoLeg, VettingOk, SellPaid, BuyPaid;
    var tx, v := a.pc.tx, Vetting(OnExfer(a.pc.tx), a.pc.at);
    assert SignedOk(w, quotes, tx, a.id) by { VettingPays(w, a.rec.q, v); }
    SignOkay(w, quotes, a.id, tx);
    var signed := Sign(w, a.id, tx);
    VettingStable(w, signed, a.rec.q, v);
    HasLegStable(w, signed, a.id);
    ShowOkay(signed, quotes, a.id, Some(tx), a.pc.at);
    LeTrans(w, signed, w');
    HasLegStable(w, w', a.id);
  }

  lemma VettingPays(w: World, q: Quote, v: Vetting)
    requires VettingOk(w, q, v)
    ensures PoolPays(w, q, v.place)
  {
  }

  lemma AdvanceSends(w: World, quotes: map<Id, Quote>, a: Task, b: Pc, w': World)
    requires WorldOk(w, quotes) && TaskOk(w, quotes, a) && (a.pc.AdvSend? || a.pc.AdvRelayed?)
    requires AdvanceMoves(a, w, b, w')
    ensures MoveGood(w, a.rec.q, quotes, a.id, a.pc, b, w')
  {
    hide WorldOk, WorldLe, NoLeg, SellPaid, BuyPaid;
    LeRefl(w);
    if w' != w {
      ShowOkay(w, quotes, a.id, None, a.pc.at);
      HasLegStable(w, w', a.id);
    }
  }

  lemma AdvanceRow(w: World, quotes: map<Id, Quote>, a: Task, b: Pc, w': World)
    requires WorldOk(w, quotes) && TaskOk(w, quotes, a) && a.pc.AdvRow?
    requires AdvanceMoves(a, w, b, w')
    ensures MoveGood(w, a.rec.q, quotes, a.id, a.pc, b, w')
  {
    hide ShowsGated, WorldOk, WorldLe, NoLeg, SellPaid, BuyPaid;
    VetOkay(w, quotes, a.id, Vetting(OnExfer(a.pc.tx), w.tip));
    HasLegStable(w, w', a.id);
  }

  lemma AdvanceReads(w: World, quotes: map<Id, Quote>, a: Task, b: Pc, w': World)
    requires WorldOk(w, quotes) && TaskOk(w, quotes, a) && a.pc.AdvRead?
    requires AdvanceMoves(a, w, b, w')
    ensures MoveGood(w, a.rec.q, quotes, a.id, a.pc, b, w')
  {
    if a.rec.q.flow == V1 {
      hide WorldOk, WorldLe, AdvanceV1, MoveGood, TaskOk;
      if a.rec.q.dir == ExferToBnb { AdvanceV1Sell(w, quotes, a, b, w'); } else { AdvanceV1Buy(w, quotes, a, b, w'); }
    } else {
      hide WorldOk, WorldLe, AdvanceV1, NoLeg;
      LeRefl(w);
    }
  }

  lemma AdvanceGood(w: World, quotes: map<Id, Quote>, a: Task, b: Pc, w': World)
    requires WorldOk(w, quotes) && TaskOk(w, quotes, a)
    requires (a.pc.AdvRead? || a.pc.AdvSend? || a.pc.AdvRelayed? || a.pc.AdvRow? || a.pc.AdvGated?)
    requires AdvanceMoves(a, w, b, w')
    ensures MoveGood(w, a.rec.q, quotes, a.id, a.pc, b, w')
  {
    hide WorldOk, TaskOk, MoveGood, AdvanceMoves;
    match a.pc
    case AdvRead => AdvanceReads(w, quotes, a, b, w');
    case AdvSend(_) | AdvRelayed(_) => AdvanceSends(w, quotes, a, b, w');
    case AdvRow(_) => AdvanceRow(w, quotes, a, b, w');
    case AdvGated(_, _) => AdvanceGated(w, quotes, a, b, w');
  }

  lemma LeTrans(w: World, w': World, w'': World)
    requires WorldLe(w, w') && WorldLe(w', w'')
    ensures WorldLe(w, w'')
  {
    forall tx | tx in w.exfer ensures tx in w''.exfer && ExferLe(w.exfer[tx], w''.exfer[tx]) {
      assert ExferLe(w.exfer[tx], w'.exfer[tx]) && ExferLe(w'.exfer[tx], w''.exfer[tx]);
    }
    forall k | k in w.bsc ensures k in w''.bsc && BscLe(w.bsc[k], w''.bsc[k]) {
      assert BscLe(w.bsc[k], w'.bsc[k]) && BscLe(w'.bsc[k], w''.bsc[k]);
    }
  }

  lemma RefundGood(w: World, quotes: map<Id, Quote>, a: Task, b: Pc, w': World)
    requires WorldOk(w, quotes) && TaskOk(w, quotes, a)
    requires a.pc.RefundRead? && RefundMoves(a.rec, w, b, w')
    ensures MoveGood(w, a.rec.q, quotes, a.id, a.pc, b, w')
  {
    hide ShowsGated, WorldOk, WorldLe, NoLeg, StatusOk, VettingOk, BscState;
    LeRefl(w);
    if w' != w {
      var p := if a.rec.q.dir == ExferToBnb then OnExfer(a.rec.userLock.value) else OnBsc(a.rec.q.contract.value, a.rec.q.hash);
      ReclaimOkay(w, quotes, p);
      HasLegStable(w, w', a.id);
    }
    Sent(w', a.id, a.rec.q, b.up.status);
  }

  /** All that these statuses vouch for is a leg. */
  lemma Sent(w: World, id: Id, q: Quote, st: Status)
    requires st in {UserLocked, Refunding, Status.Refunded} && !NoLeg(w, id)
    ensures StatusOk(w, id, q, st)
  {
  }

  lemma ScanGood(w: World, quotes: map<Id, Quote>, a: Task, b: Pc)
    requires WorldOk(w, quotes) && TaskOk(w, quotes, a)
    requires a.pc.ScanRead? && ScanMoves(a.rec, w, b)
    ensures MoveGood(w, a.rec.q, quotes, a.id, a.pc, b, w)
  {
    hide ShowsGated, WorldOk, WorldLe;
    LeRefl(w);
  }

  lemma MovesGood(w: World, quotes: map<Id, Quote>, a: Task, b: Pc, w': World)
    requires WorldOk(w, quotes) && TaskOk(w, quotes, a) && Moves(a, w, b, w')
    ensures MoveGood(w, a.rec.q, quotes, a.id, a.pc, b, w')
  {
    hide WorldOk, TaskOk, MoveGood, ExecMoves, DriveSellMoves, DriveBuyMoves, AdvanceMoves, RefundMoves, ScanMoves;
    match a.pc
    case ExecRead | ExecChecked(_) => ExecGood(w, quotes, a, b, w');
    case DriveRead =>
      if a.rec.q.dir == ExferToBnb { DriveSellGood(w, quotes, a, b, w'); } else { DriveBuyGood(w, quotes, a, b, w'); }
    case SellClear | SellVetted(_) | SellChecked(_, _) => DriveSellGood(w, quotes, a, b, w');
    case BuyMargin(_) | BuyClear(_) | BuyVetted(_, _) | Handing(_) => DriveBuyGood(w, quotes, a, b, w');
    case AdvRead | AdvSend(_) | AdvRelayed(_) | AdvRow(_) | AdvGated(_, _) => AdvanceGood(w, quotes, a, b, w');
    case ScanRead => ScanGood(w, quotes, a, b);
    case RefundRead => RefundGood(w, quotes, a, b, w');
    case _ =>
  }

  // ----- the engine steps -----

  lemma StatusesStable(s: State, w': World)
    requires Inv(s) && WorldLe(s.w, w')
    ensures forall id :: id in s.journal ==> StatusOk(w', id, s.quotes[id], s.journal[id].status)
  {
    forall id | id in s.journal ensures StatusOk(w', id, s.quotes[id], s.journal[id].status) {
      StatusStable(s.w, w', id, s.quotes[id], s.journal[id].status);
    }
  }

  lemma LegsStay(s: State, w': World)
    requires JournalOk(s) && WorldLe(s.w, w')
    ensures forall id :: id in s.journal && s.journal[id].userLock.Some? ==> !NoLeg(w', id)
  {
    hide WorldLe, StatusOk, NoLeg;
    forall id | id in s.journal && s.journal[id].userLock.Some? ensures !NoLeg(w', id) {
      HasLegStable(s.w, w', id);
    }
  }

  /** The calls that did not move keep their facts: a leg of their swap can only come from the one
      call that holds its mutex. */
  lemma OthersStable(s: State, t: TaskId, b: Pc, w': World)
    requires Inv(s) && t in s.tasks
    requires MoveGood(s.w, s.tasks[t].rec.q, s.quotes, s.tasks[t].id, s.tasks[t].pc, b, w')
    ensures forall u :: u in s.tasks && u != t ==> TaskOk(w', s.quotes, s.tasks[u])
  {
    hide WorldOk, WorldLe, PcOk, StatusOk, JournalOk, QuotesOk;
    forall u | u in s.tasks && u != t ensures TaskOk(w', s.quotes, s.tasks[u]) {
      if PreSend(s.tasks[u].pc) { PreSendHolds(s.w, s.quotes, s.tasks[u]); NewLeg(s.w, w', s.tasks[u].id); }
      TaskStable(s.w, w', s.quotes, s.tasks[u]);
    }
  }

  lemma NewLeg(w: World, w': World, id: Id)
    requires WorldLe(w, w') && NoLeg(w, id)
    requires w'.legs == w.legs || (|w'.legs| == |w.legs| + 1 && w'.legs[|w.legs|].id != id)
    ensures NoLeg(w', id)
  {
    forall i | 0 <= i < |w'.legs| ensures w'.legs[i].id != id {
      if i < |w.legs| { assert w'.legs[i] == w.legs[i]; }
    }
  }

  lemma MoveKeeps(s: State, t: TaskId, b: Pc, w': World)
    requires Inv(s) && Enabled(s, Move(t, b, w'))
    ensures Inv(Next(s, Move(t, b, w')))
  {
    hide WorldOk, WorldLe, PcOk, StatusOk, QuotesOk, Moves, JournalOk, Unsent, LocksOk;
    var a := s.tasks[t];
    MovesGood(s.w, s.quotes, a, b, w');
    OthersStable(s, t, b, w');
    StatusStable(s.w, w', a.id, a.rec.q, a.rec.status);
    assert TaskOk(w', s.quotes, Next(s, Move(t, b, w')).tasks[t]);
    JournalMoved(s, t, b, w');
    LocksMoved(s, t, b, w');
  }

  lemma LocksMoved(s: State, t: TaskId, b: Pc, w': World)
    requires LocksOk(s) && t in s.tasks && Holds(b) == Holds(s.tasks[t].pc)
    ensures LocksOk(s.(tasks := s.tasks[t := s.tasks[t].(pc := b)], w := w'))
  {
    hide Holds;
  }

  lemma JournalMoved(s: State, t: TaskId, b: Pc, w': World)
    requires Inv(s) && t in s.tasks
    requires MoveGood(s.w, s.tasks[t].rec.q, s.quotes, s.tasks[t].id, s.tasks[t].pc, b, w')
    ensures JournalOk(s.(tasks := s.tasks[t := s.tasks[t].(pc := b)], w := w'))
  {
    hide WorldOk, WorldLe, PcOk, TaskOk, StatusOk, QuotesOk, Holds, Finishing;
    var s' := s.(tasks := s.tasks[t := s.tasks[t].(pc := b)], w := w');
    StatusesStable(s, w');
    LegsStay(s, w');
    hide NoLeg;
    forall id | id in s'.journal && s'.journal[id].status in {Quoted, Committing} ensures Unsent(s', id) {
      assert Unsent(s, id);
      if NoLeg(s.w, id) && (id != s.tasks[t].id || w'.legs == s.w.legs) { NewLeg(s.w, w', id); }
    }
  }

  /** Ending a task that is not between its broadcast and its journal write. */
  lemma EndKeeps(s: State, t: TaskId)
    requires Inv(s) && t in s.tasks && !Finishing(s.tasks[t].pc)
    ensures Inv(End(s, t))
  {
    hide WorldOk, TaskOk, StatusOk, QuotesOk;
    var s' := End(s, t);
    forall id | id in s'.journal && s'.journal[id].status in {Quoted, Committing} ensures Unsent(s', id) {
      assert Unsent(s, id);
    }
  }

  lemma CommitStatus(w: World, quotes: map<Id, Quote>, a: Task)
    requires TaskOk(w, quotes, a) && a.pc.Writing?
    ensures a.id in quotes && StatusOk(w, a.id, quotes[a.id], a.pc.up.status)
    ensures a.pc.up.status != Quoted && (a.pc.up.status == Committing ==> a.pc.held && NoLeg(w, a.id))
    ensures a.pc.up.lock.Some? ==> !NoLeg(w, a.id)
  {
    hide StatusOk, NoLeg;
  }

  lemma CommitKeeps(s: State, t: TaskId)
    requires Inv(s) && Enabled(s, Commit(t))
    ensures Inv(Next(s, Commit(t)))
  {
    hide WorldOk, StatusOk, QuotesOk, TaskOk, PcOk, Holds, NoLeg;
    var s' := Next(s, Commit(t));
    var a := s.tasks[t];
    CommitStatus(s.w, s.quotes, a);
    forall id | id in s'.journal
      ensures id in s'.quotes && s'.journal[id].q == s'.quotes[id]
      ensures StatusOk(s'.w, id, s'.quotes[id], s'.journal[id].status)
      ensures s'.journal[id].status in {Quoted, Committing} ==> Unsent(s', id)
      ensures s'.journal[id].userLock.Some? ==> !NoLeg(s'.w, id)
    {
      if id != a.id && s'.journal[id].status in {Quoted, Committing} { assert Unsent(s, id); }
    }
  }

  lemma PruneKeeps(s: State, t: TaskId)
    requires Inv(s) && Enabled(s, Prune(t))
    ensures Inv(Next(s, Prune(t)))
  {
    hide WorldOk, TaskOk, StatusOk, QuotesOk;
    EndKeeps(s, t);
    var s' := Next(s, Prune(t));
    forall id | id in s'.journal && s'.journal[id].status in {Quoted, Committing} ensures Unsent(s', id) {
      assert Unsent(End(s, t), id);
    }
  }

  lemma StartTask(s: State, b: Task)
    requires Inv(s) && Starts(s, b)
    ensures TaskOk(s.w, s.quotes, b)
    ensures Holds(b.pc) ==> Free(s, b.id)
  {
    hide WorldOk, StatusOk, QuotesOk, LocksOk, NoLeg, ReclaimSent;
    assert StatusOk(s.w, b.id, b.rec.q, Failed) && StatusOk(s.w, b.id, b.rec.q, Status.Refunded) by { Harmless(s.w, b.id, b.rec.q); }
    assert Unsent(s, b.id) || b.rec.status !in {Quoted, Committing};
    assert b.rec.status == Committing ==> b.rec.q.expiresAt > 0 by { Executable(s.w, b.id, b.rec.q, b.rec.status); }
  }

  lemma StartKeeps(s: State, t: TaskId, b: Task)
    requires Inv(s) && Enabled(s, Start(t, b))
    ensures Inv(Next(s, Start(t, b)))
  {
    hide WorldOk, StatusOk, QuotesOk, TaskOk, Starts, NoLeg, Holds;
    var s' := Next(s, Start(t, b));
    StartTask(s, b);
    forall id | id in s'.journal && s'.journal[id].status in {Quoted, Committing} ensures Unsent(s', id) {
      assert Unsent(s, id);
    }
  }

  lemma Executable(w: World, id: Id, q: Quote, st: Status)
    requires StatusOk(w, id, q, st)
    ensures st == Committing ==> q.expiresAt > 0
  {
  }

  lemma Harmless(w: World, id: Id, q: Quote)
    ensures StatusOk(w, id, q, Failed) && StatusOk(w, id, q, Status.Refunded) && StatusOk(w, id, q, Quoted)
  {
  }

  lemma QuoteWorld(w: World, quotes: map<Id, Quote>, id: Id, q: Quote)
    requires WorldOk(w, quotes) && id !in quotes
    ensures WorldOk(w, quotes[id := q]) && NoLeg(w, id)
  {
    forall i | 0 <= i < |w.legs| ensures w.legs[i].id != id && LegOk(w, quotes[id := q], w.legs[i]) {
      assert LegOk(w, quotes, w.legs[i]);
    }
    forall tx | tx in w.signed ensures SignedOk(w, quotes[id := q], tx, w.signed[tx]) {
      assert SignedOk(w, quotes, tx, w.signed[tx]);
    }
    forall j | 0 <= j < |w.shown| ensures ShownOk(w, quotes[id := q], w.shown[j]) {
      assert ShownOk(w, quotes, w.shown[j]);
    }
    forall n | n in w.revealed ensures RevealedOk(w, quotes[id := q], n, w.revealed[n]) {
      assert RevealedOk(w, quotes, n, w.revealed[n]);
    }
  }

  lemma QuoteFresh(s: State, id: Id, q: Quote)
    requires QuotesOk(s.quotes, s.nextPre) && Enabled(s, NewQuote(id, q))
    ensures var s' := Next(s, NewQuote(id, q)); QuotesOk(s'.quotes, s'.nextPre)
  {
  }

  lemma QuoteTasks(s: State, id: Id, q: Quote)
    requires Inv(s) && id !in s.quotes
    ensures forall t :: t in s.tasks ==> TaskOk(s.w, s.quotes[id := q], s.tasks[t])
  {
    forall t | t in s.tasks ensures TaskOk(s.w, s.quotes[id := q], s.tasks[t]) {
      assert TaskOk(s.w, s.quotes, s.tasks[t]);
    }
  }

  lemma QuoteKeeps(s: State, id: Id, q: Quote)
    requires Inv(s) && Enabled(s, NewQuote(id, q))
    ensures Inv(Next(s, NewQuote(id, q)))
  {
    hide WorldOk, StatusOk, TaskOk, QuotesOk;
    var s' := Next(s, NewQuote(id, q));
    QuoteWorld(s.w, s.quotes, id, q);
    Harmless(s.w, id, q);
    QuoteFresh(s, id, q);
    QuoteTasks(s, id, q);
    forall id' | id' in s'.journal && s'.journal[id'].status in {Quoted, Committing} ensures Unsent(s', id') {
      if id' != id { assert Unsent(s, id'); }
    }
  }

  lemma WorldStepKeeps(s: State, w': World)
    requires Inv(s) && WorldLe(s.w, w') && WorldOk(w', s.quotes) && w'.legs == s.w.legs
    ensures Inv(s.(w := w'))
  {
    hide WorldOk, WorldLe, PcOk, StatusOk, QuotesOk;
    var s' := s.(w := w');
    forall t | t in s.tasks ensures TaskOk(w', s.quotes, s.tasks[t]) {
      TaskStable(s.w, w', s.quotes, s.tasks[t]);
    }
    StatusesStable(s, w');
    LegsStay(s, w');
    forall id | id in s'.journal && s'.journal[id].status in {Quoted, Committing} ensures Unsent(s', id) {
      assert Unsent(s, id);
    }
  }

  lemma InitInv(s: State)
    requires Init(s)
    ensures Inv(s)
  {
  }

  /** Every step keeps the invariant. */
  lemma StepKeeps(s: State, step: Step)
    requires Inv(s) && Enabled(s, step)
    ensures Inv(Next(s, step))
  {
    hide Inv;
    match step
    case NewQuote(id, q) => QuoteKeeps(s, id, q);
    case Start(t, b) => StartKeeps(s, t, b);
    case Move(t, b, w') => MoveKeeps(s, t, b, w');
    case Commit(t) => CommitKeeps(s, t);
    case Prune(t) => PruneKeeps(s, t);
    case Drop(t) => EndKeeps(s, t);
    case Sweep(p) => SweepKeeps(s, p);
    case Env(m) => EnvKeeps(s, m);
  }

  lemma SweepKeeps(s: State, p: Place)
    requires Inv(s)
    ensures Inv(s.(w := Reclaim(s.w, p)))
  {
    ReclaimOkay(s.w, s.quotes, p);
    WorldStepKeeps(s, Reclaim(s.w, p));
  }

  lemma EnvKeeps(s: State, m: EnvMove)
    requires Inv(s) && EnvOk(s.w, m)
    ensures Inv(s.(w := EnvStep(s.w, m)))
  {
    hide WorldOk, WorldLe, EnvOk, EnvStep, LocksOk, JournalOk, QuotesOk, TaskOk;
    EnvOkay(s.w, s.quotes, m);
    WorldStepKeeps(s, EnvStep(s.w, m));
  }
}
