/**
 Exactly when the status Completed of a v1 buy can be trusted, and why swap ids must be fresh.

 A pool that hands out a v1 swap's hashlock again, in a v2 quote for less, waits until the v1 swap has shown
 the preimage, locks the smaller amount under the same hashlock, and gets a claim of it signed for the v2
 swap.  The v1 record then turns Completed on that row, while the claim of the lock that covers its own quote
 is still on its way.
 */
module SwapReuse {
  import opened Common
  import opened SwapModel
  import opened SwapInvariant
  import opened SwapSafety
  import opened SwapRuns

  /** The pool can get this v1 buy executed. */
  predicate CanBuy(q: Quote) { q.hash.pre.Ours? && q.expiresAt > 0 && BuyReady(q, 0) }

  /** An executable v2 buy for less under the same hashlock, on a contract that can take both first legs. */
  predicate Cheaper(p: Quote, q: Quote, genuine: set<Address>) {
    && p.flow == V2 && p.dir == BnbToExfer && p.hash == q.hash && p.expiresAt > 0 && BuyReady(p, 0)
    && p.amountOut.Some? && q.amountOut.Some? && p.amountOut.value < q.amountOut.value
    && (p.contract != q.contract || !Trusted(q, genuine))
  }

  /** In every run whose quotes are `q` and some of `others`, a Completed record of `q` was paid in full. */
  ghost predicate AlwaysCovered(q: Quote, others: set<Quote>, genuine: set<Address>) {
    forall s: State, id: Id :: Reachable(s) && CompletedAmong(s, id, q, others, genuine) ==> Covered(s.w, q)
  }

  predicate CompletedAmong(s: State, id: Id, q: Quote, others: set<Quote>, genuine: set<Address>) {
    && s.w.genuine == genuine && id in s.journal && s.journal[id].q == q && s.journal[id].status == Completed
    && forall j :: j in s.quotes ==> s.quotes[j] == q || s.quotes[j] in others
  }

  /** A v1 buy's Completed is truthful in every run exactly when no cheaper executable v2 buy quote carries its
      hashlock on another contract. */
  lemma CompletedBuyIff(q: Quote, others: set<Quote>, genuine: set<Address>)
    requires q.flow == V1 && q.dir == BnbToExfer
    ensures AlwaysCovered(q, others, genuine) <==> !(CanBuy(q) && exists p :: p in others && Cheaper(p, q, genuine))
  {
    if CanBuy(q) && exists p :: p in others && Cheaper(p, q, genuine) {
      var p :| p in others && Cheaper(p, q, genuine);
      var s := ShortRun(q, p, genuine);
      assert Reachable(s) && CompletedAmong(s, 1, q, others, genuine) && !Covered(s.w, q);
    } else {
      forall s: State, id: Id | Reachable(s) && CompletedAmong(s, id, q, others, genuine) ensures Covered(s.w, q) {
        NoCheaperCovered(s, id, q, others, genuine);
      }
    }
  }

  lemma NoCheaperCovered(s: State, id: Id, q: Quote, others: set<Quote>, genuine: set<Address>)
    requires Reachable(s) && CompletedAmong(s, id, q, others, genuine) && q.flow == V1 && q.dir == BnbToExfer
    requires !(CanBuy(q) && exists p :: p in others && Cheaper(p, q, genuine))
    ensures Covered(s.w, q)
  {
    hide Reachable, Covered, Undercuts, Cheaper;
    forall j ensures !Undercuts(s, j, q) {
      if Undercuts(s, j, q) { UndercutCheaper(s, id, j); }
    }
    var run, steps := RunTo(s);
    BuyCompletedTruthful(run, steps, |run| - 1, id);
  }

  /** Whoever undercuts a Completed buy is an executable cheaper quote, and the buy was executable too. */
  lemma UndercutCheaper(s: State, id: Id, j: Id)
    requires Reachable(s) && id in s.journal && s.journal[id].status == Completed && Undercuts(s, j, s.journal[id].q)
    requires s.journal[id].q.flow == V1 && s.journal[id].q.dir == BnbToExfer
    ensures j in s.quotes && s.quotes[j].flow == V2
    ensures CanBuy(s.journal[id].q) && Cheaper(s.quotes[j], s.journal[id].q, s.w.genuine)
  {
    hide Reachable, WorldOk, LocksOk, TaskOk;
    ReachableInv(s);
    StatusHas(s, id);
    OwnPreimage(s, id);
    var i := LegIndex(s, id);
    var k := LegIndex(s, j);
  }

  lemma StatusHas(s: State, id: Id)
    requires Inv(s) && id in s.journal
    ensures id in s.quotes && s.quotes[id] == s.journal[id].q && StatusOk(s.w, id, s.quotes[id], s.journal[id].status)
  {
  }

  lemma OwnPreimage(s: State, id: Id)
    requires Inv(s) && id in s.journal && s.journal[id].q.flow == V1
    ensures s.journal[id].q.hash.pre.Ours?
  {
  }

  // ----- the run that falls short -----

  /** Between calls, with both quotes stored. */
  predicate Stage(s: State, q: Quote, p: Quote, genuine: set<Address>, st1: Status, st2: Status) {
    && s.w.genuine == genuine && s.w.tip == 0 && s.w.clock == 0 && s.tasks == map[] && s.locks == map[]
    && s.quotes == map[1 := q, 2 := p] && 1 in s.journal && 2 in s.journal
    && s.journal[1].q == q && s.journal[2].q == p && s.journal[1].status == st1 && s.journal[2].status == st2
  }

  function PoolLock(q: Quote): ExferLock
    requires q.amountOut.Some?
  {
    ExferLock(q.hash, Them(0), Us, q.amountOut.value, MIN_EXFER_LOCK_BLOCKS, Locked)
  }

  function Empty(genuine: set<Address>, nextPre: nat): State {
    State(World(map[], map[], genuine, map[], 0, 0, map[], [], map[], map[], {}, []), map[], map[], nextPre, map[], map[])
  }

  lemma EmptyReachable(genuine: set<Address>, nextPre: nat)
    ensures Leads(Empty(genuine, nextPre), Empty(genuine, nextPre)) && Init(Empty(genuine, nextPre))
  {
    LeadsNowhere(Empty(genuine, nextPre));
  }

  /** Two quotes with one hashlock, and a pool lock that covers the v1 quote. */
  lemma BothQuoted(q: Quote, p: Quote, genuine: set<Address>) returns (s: State)
    requires CanBuy(q) && q.flow == V1 && q.dir == BnbToExfer && Cheaper(p, q, genuine)
    ensures Reachable(s) && Stage(s, q, p, genuine, Quoted, Quoted) && s.w.bsc == map[] && s.w.exfer == map[2 := PoolLock(q)]
  {
    var s0 := Empty(genuine, q.hash.pre.n);
    EmptyReachable(genuine, q.hash.pre.n);
    hide Leads, Init, BuyReady;
    LeadsOn(s0, s0, NewQuote(1, q));
    var s1 := Next(s0, NewQuote(1, q));
    LeadsOn(s0, s1, NewQuote(2, p));
    var s2 := Next(s1, NewQuote(2, p));
    LeadsOn(s0, s2, Env(NewExfer(2, PoolLock(q))));
    s := Next(s2, Env(NewExfer(2, PoolLock(q))));
  }

  /** The v1 swap goes first, up to the claim that shows its preimage. */
  lemma FirstShown(q: Quote, p: Quote, genuine: set<Address>) returns (s: State)
    requires CanBuy(q) && q.flow == V1 && q.dir == BnbToExfer && Cheaper(p, q, genuine)
    ensures Reachable(s) && Stage(s, q, p, genuine, Claiming, Quoted) && s.w.exfer == map[2 := PoolLock(q)]
    ensures q.hash.pre.n in s.w.revealed && Lockable(s.w, (p.contract.value, p.hash))
  {
    var s0 := BothQuoted(q, p, genuine);
    LeadsNowhere(s0);
    ExecuteBuy(s0, s0, 1, 10);
    var s1 := Done(s0, 1, SendBuy(s0.w, 1, q, 0, None), Update(UserLocked, Some(0)));
    assert Stage(s1, q, p, genuine, UserLocked, Quoted) && Lockable(s1.w, (p.contract.value, p.hash));
    hide Leads, Reachable, SendBuy, BuyReady, CanBuy, Cheaper;
    AdvanceToPoolLocked(s0, s1, 1, 10);
    var s2 := Done(s1, 1, s1.w, Update(PoolLocked, None));
    AdvanceClaims(s0, s2, 1, 10, 2, 0, 0);
    var w := s2.w;
    var w1 := Later(Vet(w, 1, Vetting(OnExfer(2), 0)), 0, 0);
    s := Done(s2, 1, Show(Sign(w1, 1, 2), 1, q, Some(2), 0), Update(Claiming, None));
    LeadsReaches(s0, s);
  }

  /** Then the v2 swap, against a smaller lock created only now. */
  lemma SecondSigned(q: Quote, p: Quote, genuine: set<Address>) returns (s: State)
    requires CanBuy(q) && q.flow == V1 && q.dir == BnbToExfer && Cheaper(p, q, genuine)
    ensures Reachable(s) && Stage(s, q, p, genuine, Claiming, UserLocked)
    ensures s.w.exfer == map[1 := PoolLock(p), 2 := PoolLock(q)] && q.hash.pre.n in s.w.revealed && 1 in s.w.signed
  {
    var s0 := FirstShown(q, p, genuine);
    LeadsNowhere(s0);
    hide Leads, Reachable, BuyReady;
    var m := NewExfer(1, PoolLock(p));
    Outside(s0, s0, m);
    var s1 := s0.(w := EnvStep(s0.w, m));
    ExecuteV2(s0, s1, 2, 20);
    var s2 := Done(s1, 2, s1.w, Update(Committing, None));
    assert Stage(s2, q, p, genuine, Claiming, Committing);
    DriveBuy(s0, s2, 2, 20, 1);
    var w, v := s2.w, Vetting(OnExfer(1), 0);
    s := Done(s2, 2, Sign(SendBuy(Vet(w, 2, v), 2, p, 0, Some(v)), 2, 1), Update(UserLocked, Some(0)));
    LeadsReaches(s0, s);
  }

  /** The pool has the smaller lock claimed, and the v1 record completes on that row. */
  lemma ShortRun(q: Quote, p: Quote, genuine: set<Address>) returns (s: State)
    requires CanBuy(q) && q.flow == V1 && q.dir == BnbToExfer && Cheaper(p, q, genuine)
    ensures Reachable(s) && Stage(s, q, p, genuine, Completed, UserLocked) && !Covered(s.w, q)
  {
    var s0 := SecondSigned(q, p, genuine);
    LeadsNowhere(s0);
    hide Leads, Reachable, BuyReady;
    Outside(s0, s0, ClaimExfer(1));
    var s1 := s0.(w := EnvStep(s0.w, ClaimExfer(1)));
    AdvanceCompletesBuy(s0, s1, 1, 30, 1);
    s := Done(s1, 1, s1.w, Update(Completed, None));
    LeadsReaches(s0, s);
  }

  // ----- why ids must be fresh -----

  /** `s` with a quote stored over an id already in use. */
  function StoredOver(s: State, id: Id, q: Quote): State {
    s.(journal := s.journal[id := Rec(q, Quoted, None, s.w.clock)], quotes := s.quotes[id := q])
  }

  /** Any two executable v1 buys, the second drawn right after the first: store the second under
      the first one's id once that is executed, and the engine sends a second first leg for the id. */
  lemma ReusedIdSendsTwice(q: Quote, q': Quote, genuine: set<Address>) returns (s: State, s': State)
    requires CanBuy(q) && q.flow == V1 && q.dir == BnbToExfer
    requires CanBuy(q') && q'.flow == V1 && q'.dir == BnbToExfer && q'.hash.pre.n == q.hash.pre.n + 1
    ensures Reachable(s) && 1 in s.quotes && s.quotes[1] == q && QuoteOk(s, q')
    ensures Leads(StoredOver(s, 1, q'), s')
    ensures |s'.w.legs| == 2 && s'.w.legs[0].id == 1 && s'.w.legs[1].id == 1
  {
    var s0 := Empty(genuine, q.hash.pre.n);
    EmptyReachable(genuine, q.hash.pre.n);
    LeadsOn(s0, s0, NewQuote(1, q));
    var s1 := Next(s0, NewQuote(1, q));
    ExecuteBuy(s0, s1, 1, 10);
    s := Done(s1, 1, SendBuy(s1.w, 1, q, 0, None), Update(UserLocked, Some(0)));
    assert Reachable(s);
    hide Leads, Reachable;
    var t := StoredOver(s, 1, q');
    LeadsNowhere(t);
    ExecuteBuy(t, t, 1, 10);
    s' := Done(t, 1, SendBuy(t.w, 1, q', 0, None), Update(UserLocked, Some(0)));
  }
}
