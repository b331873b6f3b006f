/**
 When a preimage leaves in time, and what that is worth.

 The gate of a sell is read once, when the record turns PoolLocked, and never again: a sell that waits from then
 until the pool's deadline still sends its preimage.  A buy reads its gate before every send, but the send itself
 may be slow.  In time, a sending costs the pool more than the safety margin before it can hold both legs; late, it
 costs nothing at all.
 */
module SwapTiming {
  import opened Common
  import opened SwapModel
  import opened SwapInvariant
  import opened SwapPreserve
  import opened SwapSafety
  import opened SwapRuns
  import opened SwapReuse
  import opened SwapRogue

  // ----- the promises, over every run -----

  /** Atomic, and the lock that the first sending relied on went back only when more than the margin had gone by
      since that call read its chain. */
  predicate KeepsMargin(w: World, q: Quote, id: Id) {
    && Atomic(w, q, id)
    && forall j :: 0 <= j < |w.shown| && IsFirst(w, id, j) && Lost(w, q, w.shown[j]) ==> MarginPassed(w, q, w.shown[j].read)
  }

  ghost predicate AlwaysKeepsMargin(q: Quote, genuine: set<Address>) {
    forall s: State, k: nat :: Reachable(s) && LegOf(s, k, q, genuine) && LegClaimed(s.w, s.w.legs[k]) ==> KeepsMargin(s.w, q, s.w.legs[k].id)
  }

  predicate ShownOf(s: State, j: nat, q: Quote, genuine: set<Address>) {
    s.w.genuine == genuine && j < |s.w.shown| && s.w.shown[j].id in s.quotes && s.quotes[s.w.shown[j].id] == q
  }

  /** Each sending for `q` was decided with the margin left. */
  ghost predicate AlwaysReadInTime(q: Quote, genuine: set<Address>) {
    forall s: State, j: nat :: Reachable(s) && ShownOf(s, j, q, genuine) ==> ReadInTime(s.w, q, s.w.shown[j])
  }

  /** Each sending for `q` left with the margin left. */
  ghost predicate AlwaysSentInTime(q: Quote, genuine: set<Address>) {
    forall s: State, j: nat :: Reachable(s) && ShownOf(s, j, q, genuine) ==> SentInTime(s.w, q, s.w.shown[j])
  }

  /** The pool can get the preimage of this quote sent. */
  predicate CanShow(q: Quote) { CanExecute(q) && q.amountOut.Some? }

  // ----- exactly when they hold -----

  /** Once its first leg is claimed, a v1 swap was atomic and kept the margin, in every run, exactly when the quote is
      not executable or is a buy on a genuine contract. */
  lemma MarginIff(q: Quote, genuine: set<Address>)
    requires q.flow == V1
    ensures AlwaysKeepsMargin(q, genuine) <==> !(CanExecute(q) && (q.dir == ExferToBnb || q.contract.value !in genuine))
  {
    hide KeepsMargin, Reachable;
    if CanExecute(q) && (q.dir == ExferToBnb || q.contract.value !in genuine) {
      var s := MarginLost(q, genuine);
      assert LegOf(s, 0, q, genuine) && !KeepsMargin(s.w, q, s.w.legs[0].id);
    } else {
      forall s: State, k: nat | Reachable(s) && LegOf(s, k, q, genuine) && LegClaimed(s.w, s.w.legs[k])
        ensures KeepsMargin(s.w, q, s.w.legs[k].id)
      {
        ClaimedExecutable(s, k);
        BuyKeepsMargin(s, k);
      }
    }
  }

  lemma MarginLost(q: Quote, genuine: set<Address>) returns (s: State)
    requires q.flow == V1 && CanExecute(q) && (q.dir == ExferToBnb || q.contract.value !in genuine)
    ensures Reachable(s) && LegOf(s, 0, q, genuine) && LegClaimed(s.w, s.w.legs[0]) && !KeepsMargin(s.w, q, s.w.legs[0].id)
  {
    hide Reachable;
    if q.contract.value in genuine {
      s := SellLate(q, genuine);
      assert IsFirst(s.w, 1, 0);
    } else if q.dir == BnbToExfer {
      s := BuyTaken(q, genuine);
    } else {
      s := SellTaken(q, genuine);
    }
  }

  /** A claimed v1 leg shows that its quote was executable. */
  lemma ClaimedExecutable(s: State, k: nat)
    requires Reachable(s) && k < |s.w.legs| && s.w.legs[k].id in s.quotes && s.quotes[s.w.legs[k].id].flow == V1
    requires LegClaimed(s.w, s.w.legs[k])
    ensures CanExecute(s.quotes[s.w.legs[k].id])
  {
    hide Reachable, WorldOk, LocksOk, JournalOk, TaskOk, LegClaimed, HasShown;
    ReachableInv(s);
    LegIs(s, k);
    if s.w.legs[k].place.OnExfer? { ClaimedShown(s, k); }
  }

  lemma LegIs(s: State, k: nat)
    requires Inv(s) && k < |s.w.legs|
    ensures LegOk(s.w, s.quotes, s.w.legs[k])
  {
  }

  lemma BuyKeepsMargin(s: State, k: nat)
    requires Reachable(s) && k < |s.w.legs| && s.w.legs[k].id in s.quotes && LegClaimed(s.w, s.w.legs[k])
    requires var q := s.quotes[s.w.legs[k].id];
             q.flow == V1 && q.dir == BnbToExfer && Trusted(q, s.w.genuine)
    ensures KeepsMargin(s.w, s.quotes[s.w.legs[k].id], s.w.legs[k].id)
  {
    hide Reachable, Inv, Atomic, SendSound, ShownOk, LegClaimed, Pays;
    var id := s.w.legs[k].id;
    var q := s.quotes[id];
    var run, steps := RunTo(s);
    V1AtomicSafety(run, steps, |run| - 1, k);
    ReachableInv(s);
    forall j | 0 <= j < |s.w.shown| && IsFirst(s.w, id, j) && Lost(s.w, q, s.w.shown[j])
      ensures MarginPassed(s.w, q, s.w.shown[j].read)
    {
      ShownSound(s, j);
      SoundBuy(s.w, q, s.w.shown[j]);
    }
  }

  lemma SoundBuy(w: World, q: Quote, sh: Showing)
    requires SendSound(w, q, sh) && q.dir == BnbToExfer
    ensures ReadInTime(w, q, sh) && (Lost(w, q, sh) ==> MarginPassed(w, q, sh.read))
  {
  }

  /** Every sending was decided in time, in every run, exactly when the quote is a buy or not executable: the sell
      direction does not read its gate again. */
  lemma ReadIff(q: Quote, genuine: set<Address>)
    requires q.flow == V1
    ensures AlwaysReadInTime(q, genuine) <==> !(CanExecute(q) && q.dir == ExferToBnb)
  {
    hide Reachable, CanSell, CanBuy, ReadInTime;
    if CanExecute(q) && q.dir == ExferToBnb {
      var s := SellReadLate(q, genuine);
      assert ShownOf(s, 0, q, genuine) && !ReadInTime(s.w, q, s.w.shown[0]);
    } else {
      forall s: State, j: nat | Reachable(s) && ShownOf(s, j, q, genuine) ensures ReadInTime(s.w, q, s.w.shown[j]) {
        ShownExecutable(s, j);
        ReachableInv(s);
        ShownSound(s, j);
        SoundBuy(s.w, q, s.w.shown[j]);
      }
    }
  }

  /** Every preimage left in time, in every run, exactly when the pool cannot get one sent at all. */
  lemma SentIff(q: Quote, genuine: set<Address>)
    requires q.flow == V1
    ensures AlwaysSentInTime(q, genuine) <==> !CanShow(q)
  {
    hide Reachable, CanSell, CanBuy, SentInTime;
    if CanShow(q) {
      var s: State;
      if q.dir == BnbToExfer { s := BuySentLate(q, genuine); } else { s := SellReadLate(q, genuine); }
      assert ShownOf(s, 0, q, genuine) && !SentInTime(s.w, q, s.w.shown[0]);
    } else {
      forall s: State, j: nat | Reachable(s) ensures !ShownOf(s, j, q, genuine) {
        if ShownOf(s, j, q, genuine) { ShownExecutable(s, j); }
      }
    }
  }

  lemma ShownExecutable(s: State, j: nat)
    requires Reachable(s) && j < |s.w.shown|
    ensures s.w.shown[j].id in s.quotes && CanShow(s.quotes[s.w.shown[j].id])
  {
    hide Reachable, LocksOk, JournalOk, SignedOk, RevealedOk, Apart, TaskOk;
    ReachableInv(s);
    var sh := s.w.shown[j];
    assert ShownOk(s.w, s.quotes, sh);
    var i :| 0 <= i < |s.w.legs| && s.w.legs[i].id == sh.id;
    assert LegOk(s.w, s.quotes, s.w.legs[i]);
    assert VettingOk(s.w, s.quotes[sh.id], s.w.vetted[sh.id]);
  }

  // ----- the runs that are late -----

  /** A sell whose gate was passed on a genuine lock that has just the margin left. */
  lemma SellVetted(q: Quote, genuine: set<Address>) returns (s0: State, s: State)
    requires q.flow == V1 && q.dir == ExferToBnb && CanExecute(q) && q.contract.value in genuine
    ensures Reachable(s0) && Leads(s0, s) && Alone(s, q, genuine, PoolLocked) && s.w.shown == []
    ensures s.w.bsc == map[(q.contract.value, q.hash) := Fake(q, Locked)] && 1 in s.w.vetted
    ensures s.w.legs == [Leg(1, OnExfer(5), 0, None)] && s.w.exfer == map[5 := OurExfer(q)]
  {
    s0 := OneQuoted(q, genuine);
    LeadsNowhere(s0);
    ExecuteSell(s0, s0, 1, 10, 5);
    hide Leads, Reachable;
    var s1 := Done(s0, 1, SendSell(s0.w, 1, q, 0, None, 5), Update(UserLocked, Some(5)));
    var m := NewBsc((q.contract.value, q.hash), Fake(q, Locked));
    Outside(s0, s1, m);
    var s2 := s1.(w := EnvStep(s1.w, m));
    AdvanceVets(s0, s2, 1, 10);
    s := Done(s2, 1, Vet(s2.w, 1, Vetting(OnBsc(q.contract.value, q.hash), 0)), Update(PoolLocked, None));
  }

  /** Nothing happens until the pool's deadline; then the preimage goes out all the same. */
  lemma SellShown(q: Quote, genuine: set<Address>) returns (s0: State, s: State)
    requires q.flow == V1 && q.dir == ExferToBnb && CanExecute(q) && q.contract.value in genuine
    ensures Reachable(s0) && Leads(s0, s) && s.w.genuine == genuine && 1 in s.quotes && s.quotes[1] == q
    ensures s.w.clock == CLAIM_MARGIN_SECS + 1 && s.w.shown == [Showing(1, None, s.w.clock, s.w.clock)]
    ensures q.hash.pre.n in s.w.revealed && s.w.exfer == map[5 := OurExfer(q)] && (q.poolExfer == Some(Us) ==> 5 in s.w.signed)
    ensures BscAt(s.w, (q.contract.value, q.hash)) == Some(Fake(q, Locked))
    ensures |s.w.legs| > 0 && s.w.legs[0] == Leg(1, OnExfer(5), 0, None)
  {
    var s1: State;
    s0, s1 := SellVetted(q, genuine);
    hide Leads, Reachable, CanSell;
    var s2 := s1;
    if q.poolExfer == Some(Us) { s2 := SignedBack(s0, s1, q, genuine, PoolLocked); }
    var late := CLAIM_MARGIN_SECS + 1;
    Outside(s0, s2, Tick(0, late));
    var s3 := s2.(w := EnvStep(s2.w, Tick(0, late)));
    AdvanceReveals(s0, s3, 1, 10, 0, late);
    s := Done(s3, 1, Show(Later(s3.w, 0, late), 1, q, None, late), Update(Claiming, None));
  }

  /** The pool takes its BNB lock back, and then our EXFER: both legs are lost the moment the preimage is out. */
  lemma SellLate(q: Quote, genuine: set<Address>) returns (s: State)
    requires q.flow == V1 && q.dir == ExferToBnb && CanExecute(q) && q.contract.value in genuine
    ensures Reachable(s) && LegOf(s, 0, q, genuine) && s.w.legs[0].id == 1 && LegClaimed(s.w, s.w.legs[0])
    ensures s.w.shown == [Showing(1, None, s.w.clock, s.w.clock)] && Lost(s.w, q, s.w.shown[0])
    ensures !ReadInTime(s.w, q, s.w.shown[0])
  {
    var s0, s1 := SellShown(q, genuine);
    hide Leads, Reachable, CanSell;
    var key := (q.contract.value, q.hash);
    Outside(s0, s1, RefundBsc(key));
    var s2 := s1.(w := EnvStep(s1.w, RefundBsc(key)));
    Outside(s0, s2, ClaimExfer(5));
    s := s2.(w := EnvStep(s2.w, ClaimExfer(5)));
    LeadsReaches(s0, s);
  }

  /** On any contract. */
  lemma SellReadLate(q: Quote, genuine: set<Address>) returns (s: State)
    requires q.flow == V1 && q.dir == ExferToBnb && CanExecute(q)
    ensures Reachable(s) && ShownOf(s, 0, q, genuine)
    ensures !ReadInTime(s.w, q, s.w.shown[0]) && !SentInTime(s.w, q, s.w.shown[0])
  {
    if q.contract.value in genuine {
      s := SellLate(q, genuine);
    } else {
      var s0;
      s0, s := SellShownOnFake(q, genuine);
      LeadsReaches(s0, s);
    }
  }

  /** A buy that passes its gate with just the margin left, and is slow to send. */
  lemma BuySentLate(q: Quote, genuine: set<Address>) returns (s: State)
    requires q.flow == V1 && q.dir == BnbToExfer && CanShow(q)
    ensures Reachable(s) && ShownOf(s, 0, q, genuine) && !SentInTime(s.w, q, s.w.shown[0])
    ensures s.w.tip == MIN_EXFER_LOCK_BLOCKS + 1 && s.w.shown == [Showing(1, Some(2), 0, s.w.tip)]
    ensures q.hash.pre.n in s.w.revealed && s.w.exfer == map[2 := PoolLock(q)]
    ensures s.w.legs == [Leg(1, OnBsc(q.contract.value, q.hash), 0, None)] && 1 in s.quotes && s.quotes[1] == q
    ensures q.contract.value in genuine ==>
              (q.contract.value, q.hash) in s.w.bsc && s.w.bsc[(q.contract.value, q.hash)].state == Locked
  {
    var s0 := OneQuoted(q, genuine);
    LeadsNowhere(s0);
    ExecuteBuy(s0, s0, 1, 10);
    hide Leads, Reachable, CanBuy;
    var s1 := Done(s0, 1, SendBuy(s0.w, 1, q, 0, None), Update(UserLocked, Some(0)));
    AdvanceToPoolLocked(s0, s1, 1, 10);
    var s2 := Done(s1, 1, s1.w, Update(PoolLocked, None));
    Outside(s0, s2, NewExfer(2, PoolLock(q)));
    var s3 := s2.(w := EnvStep(s2.w, NewExfer(2, PoolLock(q))));
    var late := MIN_EXFER_LOCK_BLOCKS + 1;
    AdvanceClaims(s0, s3, 1, 10, 2, late, 0);
    var w1 := Later(Vet(s3.w, 1, Vetting(OnExfer(2), 0)), late, 0);
    s := Done(s3, 1, Show(Sign(w1, 1, 2), 1, q, Some(2), 0), Update(Claiming, None));
    LeadsReaches(s0, s);
  }

  /** So slow that both legs are lost with it. */
  lemma BuyLate(q: Quote, genuine: set<Address>) returns (s: State)
    requires q.flow == V1 && q.dir == BnbToExfer && CanShow(q) && q.contract.value in genuine
    ensures Reachable(s) && LegOf(s, 0, q, genuine) && s.w.legs[0].id == 1 && LegClaimed(s.w, s.w.legs[0])
    ensures s.w.shown == [Showing(1, Some(2), 0, s.w.tip)] && Lost(s.w, q, s.w.shown[0])
  {
    var s1 := BuySentLate(q, genuine);
    LeadsNowhere(s1);
    hide Leads, Reachable, CanBuy;
    Outside(s1, s1, RefundExfer(2));
    var s2 := s1.(w := EnvStep(s1.w, RefundExfer(2)));
    var key := (q.contract.value, q.hash);
    Outside(s1, s2, ClaimBsc(key));
    s := s2.(w := EnvStep(s2.w, ClaimBsc(key)));
    LeadsReaches(s1, s);
  }

  // ----- what a caller can check -----

  /** The instant a call compares with the pool's deadline. */
  function Now(w: World, q: Quote): nat { if q.dir == BnbToExfer then w.tip else w.clock }

  /** In whatever follows, each sending by a call that reads its chain now, on this lock, and sends within `d`, is
      in time. */
  ghost predicate CallsInTime(s: State, id: Id, p: Place, d: nat)
    requires id in s.quotes
  {
    forall s': State, j: nat :: Leads(s, s') && FromCall(s, s', j, id, p, d) ==> SentInTime(s'.w, s.quotes[id], s'.w.shown[j])
  }

  predicate FromCall(s: State, s': State, j: nat, id: Id, p: Place, d: nat)
    requires id in s.quotes
  {
    && |s.w.shown| <= j < |s'.w.shown| && s'.w.shown[j].id == id
    && Relied(s.quotes[id], s'.w.shown[j]) == Some(p)
    && s'.w.shown[j].read == Now(s.w, s.quotes[id]) && s'.w.shown[j].sent <= Now(s.w, s.quotes[id]) + d
  }

  /** A v1 swap about to send, and the pool lock it would rely on; a buy needs its gate to pass on it. */
  predicate AboutToSend(s: State, id: Id, p: Place) {
    && id in s.journal && s.journal[id].status == PoolLocked && s.journal[id].q.flow == V1
    && (var q := s.journal[id].q;
        match q.dir
        case ExferToBnb => q.contract.Some? && q.contract.value in s.w.genuine && p == OnBsc(q.contract.value, q.hash)
        case BnbToExfer => p.OnExfer? && NodeAccepts(s.w, q, p.tx) && s.w.exfer[p.tx].state == Locked)
  }

  /** An advance call that starts now and sends within `d` leaves the margin in every continuation exactly when the
      lock still has the margin `d` from now. */
  lemma CallIff(s: State, id: Id, t: TaskId, p: Place, d: nat)
    requires Reachable(s) && Idle(s, id, t) && AboutToSend(s, id, p)
    ensures id in s.quotes && s.quotes[id] == s.journal[id].q
    ensures CallsInTime(s, id, p, d) <==> MarginAt(s.w, p, Now(s.w, s.quotes[id]) + d)
  {
    ReachableInv(s);
    ToSend(s, id, p);
    hide Reachable, Leads, Inv, AboutToSend, Idle, SentInTime, FromCall, MarginAt;
    if MarginAt(s.w, p, Now(s.w, s.quotes[id]) + d) {
      forall s': State, j: nat | Leads(s, s') && FromCall(s, s', j, id, p, d)
        ensures SentInTime(s'.w, s.quotes[id], s'.w.shown[j])
      {
        LeadsLe(s, s');
        CallInTime(s, s', j, id, p, d);
      }
    } else {
      var s' := SlowCall(s, id, t, p, d);
      assert FromCall(s, s', |s.w.shown|, id, p, d);
    }
  }

  lemma ToSend(s: State, id: Id, p: Place)
    requires Inv(s) && AboutToSend(s, id, p)
    ensures id in s.quotes && s.quotes[id] == s.journal[id].q && s.quotes[id].hash.pre.Ours?
    ensures p.OnBsc? ==> p.contract in s.w.genuine
  {
  }

  lemma CallInTime(s: State, s': State, j: nat, id: Id, p: Place, d: nat)
    requires WorldLe(s.w, s'.w) && id in s.quotes && (p.OnBsc? ==> p.contract in s.w.genuine)
    requires FromCall(s, s', j, id, p, d) && MarginAt(s.w, p, Now(s.w, s.quotes[id]) + d)
    ensures SentInTime(s'.w, s.quotes[id], s'.w.shown[j])
  {
    hide WorldLe, MarginAt;
    MarginStable(s.w, s'.w, p, Now(s.w, s.quotes[id]) + d);
  }

  lemma SlowCall(s: State, id: Id, t: TaskId, p: Place, d: nat) returns (s': State)
    requires Inv(s) && Idle(s, id, t) && AboutToSend(s, id, p) && !MarginAt(s.w, p, Now(s.w, s.journal[id].q) + d)
    ensures Leads(s, s') && id in s.quotes && FromCall(s, s', |s.w.shown|, id, p, d)
    ensures !SentInTime(s'.w, s.quotes[id], s'.w.shown[|s.w.shown|])
  {
    ToSend(s, id, p);
    hide Leads, Inv, Idle, FromCall, SentInTime, MarginAt;
    if s.journal[id].q.dir == ExferToBnb { s' := SlowSell(s, id, t, p, d); } else { s' := SlowBuy(s, id, t, p, d); }
  }

  lemma SlowSell(s: State, id: Id, t: TaskId, p: Place, d: nat) returns (s': State)
    requires Idle(s, id, t) && AboutToSend(s, id, p) && !MarginAt(s.w, p, Now(s.w, s.journal[id].q) + d)
    requires s.journal[id].q.dir == ExferToBnb && s.journal[id].q.hash.pre.Ours? && id in s.quotes && s.quotes[id] == s.journal[id].q
    ensures Leads(s, s') && FromCall(s, s', |s.w.shown|, id, p, d)
    ensures !SentInTime(s'.w, s.quotes[id], s'.w.shown[|s.w.shown|])
  {
    LeadsNowhere(s);
    hide Leads, NodeAccepts;
    var q, w := s.journal[id].q, s.w;
    AdvanceReveals(s, s, id, t, w.tip, w.clock + d);
    s' := Done(s, id, Show(Later(w, w.tip, w.clock + d), id, q, None, w.clock), Update(Claiming, None));
  }

  lemma SlowBuy(s: State, id: Id, t: TaskId, p: Place, d: nat) returns (s': State)
    requires Idle(s, id, t) && AboutToSend(s, id, p) && !MarginAt(s.w, p, Now(s.w, s.journal[id].q) + d)
    requires s.journal[id].q.dir == BnbToExfer && s.journal[id].q.hash.pre.Ours? && id in s.quotes && s.quotes[id] == s.journal[id].q
    ensures Leads(s, s') && FromCall(s, s', |s.w.shown|, id, p, d)
    ensures !SentInTime(s'.w, s.quotes[id], s'.w.shown[|s.w.shown|])
  {
    LeadsNowhere(s);
    hide Leads, BscAt;
    var q, w := s.journal[id].q, s.w;
    AdvanceClaims(s, s, id, t, p.tx, w.tip + d, w.clock);
    var w1 := Later(Vet(w, id, Vetting(p, w.tip)), w.tip + d, w.clock);
    s' := Done(s, id, Show(Sign(w1, id, p.tx), id, q, Some(p.tx), w.tip), Update(Claiming, None));
  }

  lemma MarginStable(w: World, w': World, p: Place, at: nat)
    requires WorldLe(w, w') && MarginAt(w, p, at)
    requires p.OnBsc? ==> p.contract in w.genuine
    ensures forall earlier: nat :: earlier <= at ==> MarginAt(w', p, earlier)
  {
    match p
    case OnExfer(tx) => assert ExferLe(w.exfer[tx], w'.exfer[tx]);
    case OnBsc(c, h) => assert BscLe(w.bsc[(c, h)], w'.bsc[(c, h)]);
  }

  lemma StepLe(s: State, step: Step)
    requires Inv(s) && Enabled(s, step)
    ensures WorldLe(s.w, Next(s, step).w)
  {
    hide WorldLe, WorldOk, Moves, EnvOk, EnvStep, LocksOk, JournalOk, QuotesOk, Starts, Sweepable, QuoteOk;
    LeRefl(s.w);
    if step.Move? { MovesGood(s.w, s.quotes, s.tasks[step.t], step.pc, step.w'); }
    if step.Env? { EnvOkay(s.w, s.quotes, step.m); }
    if step.Sweep? { ReclaimOkay(s.w, s.quotes, step.p); }
  }

  lemma {:induction false} PathLe(run: seq<State>, steps: seq<Step>, s: State, i: nat)
    requires |run| == |steps| + 1 && run[0] == s && Inv(s) && i < |run|
    requires forall i :: 0 <= i < |steps| ==> Enabled(run[i], steps[i]) && run[i+1] == Next(run[i], steps[i])
    ensures Inv(run[i]) && WorldLe(s.w, run[i].w)
  {
    hide Inv, Enabled, Next, WorldLe;
    if i == 0 {
      LeRefl(s.w);
    } else {
      PathLe(run, steps, s, i - 1);
      StepLe(run[i-1], steps[i-1]);
      StepKeeps(run[i-1], steps[i-1]);
      LeTrans(s.w, run[i-1].w, run[i].w);
    }
  }

  lemma LeadsLe(s: State, s': State)
    requires Inv(s) && Leads(s, s')
    ensures Inv(s') && WorldLe(s.w, s'.w)
  {
    hide Inv, Enabled, Next, WorldLe;
    var run: seq<State>, steps: seq<Step> :| IsPath(run, steps, s, s');
    PathLe(run, steps, s, |run| - 1);
  }
}
