/**
 What the engine's promises owe to the contract a quote names.

 The pool chooses that address and the engine never looks it up.  If it is a genuine HTLC contract the
 promises below hold in every run (`SwapSafety`; what lateness still costs is in `SwapTiming`); if it is not, each has a
 run that breaks it: a BNB leg sent there is taken with no preimage out, and a read of the pool's lock there says
 whatever the pool likes.
 */
module SwapRogue {
  import opened Common
  import opened SwapModel
  import opened SwapInvariant
  import opened SwapSafety
  import opened SwapRuns
  import opened SwapReuse

  /** The pool can get this sell executed, with its own lock on the contract the quote names. */
  predicate CanSell(q: Quote) { q.expiresAt > 0 && SellReady(q, 0) && q.contract.Some? && q.amountOut.Some? }

  predicate CanExecute(q: Quote) { q.hash.pre.Ours? && (if q.dir == BnbToExfer then CanBuy(q) else CanSell(q)) }

  // ----- the promises, over every run -----

  /** A claimed v1 first leg of `q` belongs to a swap that was atomic. */
  ghost predicate AlwaysAtomic(q: Quote, genuine: set<Address>) {
    forall s: State, k: nat :: Reachable(s) && LegOf(s, k, q, genuine) && LegClaimed(s.w, s.w.legs[k]) ==> Atomic(s.w, q, s.w.legs[k].id)
  }

  /** A Completed v1 sell of `q` was paid in full. */
  ghost predicate AlwaysPaid(q: Quote, genuine: set<Address>) {
    forall s: State, id: Id :: Reachable(s) && CompletedAs(s, id, q, genuine) ==> SellPaidInFull(s.w, q)
  }

  /** Each v2 first leg of `q` went out after a pool lock that backs it. */
  ghost predicate AlwaysBacked(q: Quote, genuine: set<Address>) {
    forall s: State, k: nat :: Reachable(s) && LegOf(s, k, q, genuine) ==>
      s.w.legs[k].vetting.Some? && Backed(s.w, q, s.w.legs[k].vetting.value)
  }

  predicate LegOf(s: State, k: nat, q: Quote, genuine: set<Address>) {
    s.w.genuine == genuine && k < |s.w.legs| && s.w.legs[k].id in s.quotes && s.quotes[s.w.legs[k].id] == q
  }

  predicate CompletedAs(s: State, id: Id, q: Quote, genuine: set<Address>) {
    s.w.genuine == genuine && id in s.journal && s.journal[id].q == q && s.journal[id].status == Completed
  }

  // ----- exactly when they hold -----

  /** v1 atomic safety holds in every run exactly when the quote is not executable or names a genuine contract. */
  lemma AtomicIff(q: Quote, genuine: set<Address>)
    requires q.flow == V1
    ensures AlwaysAtomic(q, genuine) <==> !(CanExecute(q) && q.contract.value !in genuine)
  {
    if CanExecute(q) && q.contract.value !in genuine {
      var s: State;
      if q.dir == BnbToExfer { s := BuyTaken(q, genuine); } else { s := SellTaken(q, genuine); }
      assert LegOf(s, 0, q, genuine) && !Atomic(s.w, q, 1);
    } else {
      forall s: State, k: nat | Reachable(s) && LegOf(s, k, q, genuine) && LegClaimed(s.w, s.w.legs[k])
        ensures Atomic(s.w, q, s.w.legs[k].id)
      {
        TrustedLeg(s, k, q, genuine);
        var run, steps := RunTo(s);
        V1AtomicSafety(run, steps, |run| - 1, k);
      }
    }
  }

  /** A broadcast leg, if claimed, shows that its quote was executable. */
  lemma TrustedLeg(s: State, k: nat, q: Quote, genuine: set<Address>)
    requires Reachable(s) && LegOf(s, k, q, genuine) && q.flow == V1 && LegClaimed(s.w, s.w.legs[k])
    requires !(CanExecute(q) && q.contract.value !in genuine)
    ensures Trusted(q, genuine)
  {
    ReachableInv(s);
    assert LegOk(s.w, s.quotes, s.w.legs[k]);
    if s.w.legs[k].place.OnExfer? { ClaimedShown(s, k); }
  }

  /** A Completed v1 sell is paid in full in every run exactly when the quote is not executable or names a
      genuine contract. */
  lemma PaidIff(q: Quote, genuine: set<Address>)
    requires q.flow == V1 && q.dir == ExferToBnb
    ensures AlwaysPaid(q, genuine) <==> !(CanExecute(q) && q.contract.value !in genuine)
  {
    if CanExecute(q) && q.contract.value !in genuine {
      var s := SellFaked(q, genuine);
      assert CompletedAs(s, 1, q, genuine) && !SellPaidInFull(s.w, q);
    } else {
      forall s: State, id: Id | Reachable(s) && CompletedAs(s, id, q, genuine) ensures SellPaidInFull(s.w, q) {
        CompletedExecuted(s, id);
        var run, steps := RunTo(s);
        SellCompletedTruthful(run, steps, |run| - 1, id);
      }
    }
  }

  lemma CompletedExecuted(s: State, id: Id)
    requires Reachable(s) && id in s.journal && s.journal[id].status == Completed
    requires s.journal[id].q.flow == V1 && s.journal[id].q.dir == ExferToBnb
    ensures CanExecute(s.journal[id].q)
  {
    ReachableInv(s);
    OwnPreimage(s, id);
    var i :| 0 <= i < |s.w.legs| && s.w.legs[i].id == id;
    assert LegOk(s.w, s.quotes, s.w.legs[i]);
    assert VettingOk(s.w, s.quotes[id], s.w.vetted[id]);
  }

  /** Every v2 first leg is backed in every run exactly when the quote is a buy, not executable, or names a
      genuine contract. */
  lemma BackedIff(q: Quote, genuine: set<Address>)
    requires q.flow == V2
    ensures AlwaysBacked(q, genuine) <==> !(q.dir == ExferToBnb && CanSell(q) && q.contract.value !in genuine)
  {
    if q.dir == ExferToBnb && CanSell(q) && q.contract.value !in genuine {
      var s := SellUnbacked(q, genuine);
      assert LegOf(s, 0, q, genuine) && !Backed(s.w, q, s.w.legs[0].vetting.value);
    } else {
      forall s: State, k: nat | Reachable(s) && LegOf(s, k, q, genuine)
        ensures s.w.legs[k].vetting.Some? && Backed(s.w, q, s.w.legs[k].vetting.value)
      {
        ReachableInv(s);
        assert LegOk(s.w, s.quotes, s.w.legs[k]);
        var run, steps := RunTo(s);
        V2LockAfterPoolLock(run, steps, |run| - 1, k);
      }
    }
  }

  // ----- the runs that break them -----

  /** Between calls, one quote stored. */
  predicate Alone(s: State, q: Quote, genuine: set<Address>, st: Status) {
    && s.w.genuine == genuine && s.w.tip == 0 && s.w.clock == 0 && s.tasks == map[] && s.locks == map[]
    && s.quotes == map[1 := q] && 1 in s.journal && s.journal[1].q == q && s.journal[1].status == st
  }

  lemma OneQuoted(q: Quote, genuine: set<Address>) returns (s: State)
    requires q.flow == V1 ==> q.hash.pre.Ours?
    ensures Reachable(s) && Alone(s, q, genuine, Quoted)
    ensures s.w.exfer == map[] && s.w.bsc == map[] && s.w.vetted == map[] && s.w.revealed == map[] && s.w.shown == [] && s.w.legs == []
  {
    var s0 := Empty(genuine, if q.hash.pre.Ours? then q.hash.pre.n else 0);
    EmptyReachable(genuine, s0.nextPre);
    hide Leads, Init;
    LeadsOn(s0, s0, NewQuote(1, q));
    s := Next(s0, NewQuote(1, q));
  }

  /** A buy: the contract keeps the BNB, and no preimage is out. */
  lemma BuyTaken(q: Quote, genuine: set<Address>) returns (s: State)
    requires q.flow == V1 && q.dir == BnbToExfer && CanExecute(q) && q.contract.value !in genuine
    ensures Reachable(s) && LegOf(s, 0, q, genuine) && s.w.legs[0].id == 1 && LegClaimed(s.w, s.w.legs[0]) && s.w.revealed == map[]
  {
    var s0 := OneQuoted(q, genuine);
    LeadsNowhere(s0);
    ExecuteBuy(s0, s0, 1, 10);
    hide Leads, Reachable;
    var s1 := Done(s0, 1, SendBuy(s0.w, 1, q, 0, None), Update(UserLocked, Some(0)));
    var m := Rewrite((q.contract.value, q.hash), Some(BscLock(Us, Them(0), 0, 0, Claimed)));
    Outside(s0, s1, m);
    s := s1.(w := EnvStep(s1.w, m));
    LeadsReaches(s0, s);
  }

  /** What the rogue contract shows while it wants to be believed. */
  function Fake(q: Quote, st: HtlcState): BscLock
    requires q.amountOut.Some?
  {
    BscLock(Them(0), Us, q.amountOut.value, CLAIM_MARGIN_SECS + 1, st)
  }

  lemma Shows(s0: State, s: State, q: Quote, genuine: set<Address>, st: Status, entry: Option<BscLock>) returns (s': State)
    requires Leads(s0, s) && Alone(s, q, genuine, st) && q.contract.Some? && q.contract.value !in genuine
    ensures Leads(s0, s') && Alone(s', q, genuine, st) && BscAt(s'.w, (q.contract.value, q.hash)) == entry
    ensures s' == s.(w := s.w.(rogue := s'.w.rogue))
  {
    hide Leads;
    var m := Rewrite((q.contract.value, q.hash), entry);
    Outside(s0, s, m);
    s' := s.(w := EnvStep(s.w, m));
  }

  function OurExfer(q: Quote): ExferLock
    requires SellReady(q, 0)
  {
    ExferLock(q.hash, Us, q.poolExfer.value, q.amountIn.value, q.exferTimeout.value, Locked)
  }

  /** A sell executed, with its gate passed on a lock that is not there. */
  lemma SellVettedOnFake(q: Quote, genuine: set<Address>) returns (s0: State, s: State)
    requires q.flow == V1 && q.dir == ExferToBnb && CanExecute(q) && q.contract.value !in genuine
    ensures Reachable(s0) && Leads(s0, s) && Alone(s, q, genuine, PoolLocked)
    ensures s.w.vetted == map[1 := Vetting(OnBsc(q.contract.value, q.hash), 0)] && s.w.bsc == map[]
    ensures s.w.legs == [Leg(1, OnExfer(5), 0, None)] && s.w.exfer == map[5 := OurExfer(q)] && s.w.shown == []
  {
    s0 := OneQuoted(q, genuine);
    LeadsNowhere(s0);
    ExecuteSell(s0, s0, 1, 10, 5);
    hide Leads, Reachable;
    var s1 := Done(s0, 1, SendSell(s0.w, 1, q, 0, None, 5), Update(UserLocked, Some(5)));
    var s2 := Shows(s0, s1, q, genuine, UserLocked, Some(Fake(q, Locked)));
    AdvanceVets(s0, s2, 1, 10);
    s := Done(s2, 1, Vet(s2.w, 1, Vetting(OnBsc(q.contract.value, q.hash), 0)), Update(PoolLocked, None));
  }

  /** It then turns Completed on a claim that is not there either. */
  lemma SellFaked(q: Quote, genuine: set<Address>) returns (s: State)
    requires q.flow == V1 && q.dir == ExferToBnb && CanExecute(q) && q.contract.value !in genuine
    ensures Reachable(s) && CompletedAs(s, 1, q, genuine) && !SellPaidInFull(s.w, q)
  {
    var s0, s1 := SellVettedOnFake(q, genuine);
    hide Leads, Reachable;
    var s2 := Shows(s0, s1, q, genuine, PoolLocked, Some(Fake(q, Claimed)));
    AdvanceCompletesSell(s0, s2, 1, 10);
    var s3 := Done(s2, 1, s2.w, Update(Completed, None));
    s := Shows(s0, s3, q, genuine, Completed, None);
    LeadsReaches(s0, s);
  }

  /** Or it shows its preimage, and the contract turns out empty. */
  lemma SellShownOnFake(q: Quote, genuine: set<Address>) returns (s0: State, s: State)
    requires q.flow == V1 && q.dir == ExferToBnb && CanExecute(q) && q.contract.value !in genuine
    ensures Reachable(s0) && Leads(s0, s) && Alone(s, q, genuine, Claiming) && s.w.bsc == map[] && q.hash.pre.n in s.w.revealed
    ensures s.w.vetted == map[1 := Vetting(OnBsc(q.contract.value, q.hash), 0)] && BscAt(s.w, (q.contract.value, q.hash)) == None
    ensures s.w.legs == [Leg(1, OnExfer(5), 0, None)] && s.w.exfer == map[5 := OurExfer(q)] && s.w.shown == [Showing(1, None, 0, 0)]
  {
    var s1: State;
    s0, s1 := SellVettedOnFake(q, genuine);
    hide Leads, Reachable, CanSell, BscAt;
    AdvanceReveals(s0, s1, 1, 10, 0, 0);
    var s2 := Done(s1, 1, Show(Later(s1.w, 0, 0), 1, q, None, 0), Update(Claiming, None));
    s := Shows(s0, s2, q, genuine, Claiming, None);
  }

  /** Then the pool takes the EXFER. */
  lemma SellTaken(q: Quote, genuine: set<Address>) returns (s: State)
    requires q.flow == V1 && q.dir == ExferToBnb && CanExecute(q) && q.contract.value !in genuine
    ensures Reachable(s) && LegOf(s, 0, q, genuine) && s.w.legs[0].id == 1 && LegClaimed(s.w, s.w.legs[0])
    ensures 1 in s.w.vetted && !Backed(s.w, q, s.w.vetted[1])
  {
    var s0, s1 := SellShownOnFake(q, genuine);
    hide Leads, Reachable, CanSell;
    var s2 := s1;
    if q.poolExfer == Some(Us) { s2 := SignedBack(s0, s1, q, genuine, Claiming); }
    Outside(s0, s2, ClaimExfer(5));
    s := s2.(w := EnvStep(s2.w, ClaimExfer(5)));
    LeadsReaches(s0, s);
  }

  /** If the quote names our own key as the pool's, the claim takes our signature too: a v2 buy under the same
      hashlock that accepts our own lock as the pool's gives it. */
  lemma SignedBack(s0: State, s: State, q: Quote, genuine: set<Address>, st: Status) returns (s': State)
    requires Leads(s0, s) && Alone(s, q, genuine, st) && CanSell(q) && q.poolExfer == Some(Us)
    requires s.w.exfer == map[5 := OurExfer(q)] && |s.w.legs| > 0 && s.w.legs[0].id == 1
    requires forall k :: k in s.w.bsc ==> k.0 == q.contract.value
    ensures Leads(s0, s') && 5 in s'.w.signed && s.w.legs <= s'.w.legs && Untouched(s, s', q)
  {
    hide Leads;
    var p := BackQuote(q);
    LeadsOn(s0, s, NewQuote(2, p));
    var s1 := Next(s, NewQuote(2, p));
    ExecuteV2(s0, s1, 2, 20);
    var s2 := Done(s1, 2, s1.w, Update(Committing, None));
    s' := SignsBack(s0, s2, q);
  }

  /** On any address but the quote's own, so that what that one shows stays as it is. */
  function BackQuote(q: Quote): Quote
    requires q.contract.Some?
  {
    Quote(BnbToExfer, V2, q.hash, Some(0), Some(0), None, Some(Them(0)), Some(q.contract.value + 1), None, Some(MIN_BSC_LOCK_SECS), 1)
  }

  lemma SignsBack(s0: State, s: State, q: Quote) returns (s': State)
    requires CanSell(q) && q.poolExfer == Some(Us) && Leads(s0, s) && Idle(s, 2, 20) && s.w.tip == 0 && s.w.clock == 0
    requires s.journal[2].q == BackQuote(q) && s.journal[2].status == Committing && s.w.exfer == map[5 := OurExfer(q)]
    requires forall k :: k in s.w.bsc ==> k.0 == q.contract.value
    ensures Leads(s0, s') && 5 in s'.w.signed && s.w.legs <= s'.w.legs && Untouched(s, s', q)
  {
    hide Leads;
    DriveBuy(s0, s, 2, 20, 5);
    var w, v := s.w, Vetting(OnExfer(5), 0);
    s' := Done(s, 2, Sign(SendBuy(Vet(w, 2, v), 2, BackQuote(q), 0, Some(v)), 2, 5), Update(UserLocked, Some(0)));
  }

  /** All that concerns swap 1 and its contract is as it was. */
  predicate Untouched(s: State, s': State, q: Quote)
    requires q.contract.Some?
  {
    && s'.w.genuine == s.w.genuine && s'.w.tip == s.w.tip && s'.w.clock == s.w.clock && s'.w.exfer == s.w.exfer
    && s'.w.revealed == s.w.revealed && s'.w.shown == s.w.shown && s'.tasks == s.tasks && s'.locks == s.locks
    && (1 in s.quotes ==> 1 in s'.quotes && s'.quotes[1] == s.quotes[1])
    && (1 in s.journal ==> 1 in s'.journal && s'.journal[1] == s.journal[1])
    && (1 in s.w.vetted ==> 1 in s'.w.vetted && s'.w.vetted[1] == s.w.vetted[1])
    && BscAt(s'.w, (q.contract.value, q.hash)) == BscAt(s.w, (q.contract.value, q.hash))
  }

  /** A v2 sell sends our EXFER behind a pool lock that is not there. */
  lemma SellUnbacked(q: Quote, genuine: set<Address>) returns (s: State)
    requires q.flow == V2 && q.dir == ExferToBnb && CanSell(q) && q.contract.value !in genuine
    ensures Reachable(s) && LegOf(s, 0, q, genuine) && s.w.legs[0].vetting.Some? && !Backed(s.w, q, s.w.legs[0].vetting.value)
  {
    var s0 := OneQuoted(q, genuine);
    LeadsNowhere(s0);
    hide Leads, Reachable;
    ExecuteV2(s0, s0, 1, 10);
    var s1 := Done(s0, 1, s0.w, Update(Committing, None));
    var s2 := Shows(s0, s1, q, genuine, Committing, Some(Fake(q, Locked)));
    DriveSell(s0, s2, 1, 10, 5);
    var v := Vetting(OnBsc(q.contract.value, q.hash), 0);
    var s3 := Done(s2, 1, SendSell(Vet(s2.w, 1, v), 1, q, 0, Some(v), 5), Update(UserLocked, Some(5)));
    s := Shows(s0, s3, q, genuine, UserLocked, None);
    LeadsReaches(s0, s);
  }
}
