/** Runs put together from whole calls: each segment takes any state to the state one call leaves behind. */
module SwapRuns {
  import opened Common
  import opened SwapModel
  import opened SwapInvariant
  import opened SwapSafety

  ghost predicate IsPath(run: seq<State>, steps: seq<Step>, s: State, s': State) {
    && |run| == |steps| + 1 && run[0] == s && run[|run|-1] == s'
    && forall i :: 0 <= i < |steps| ==> Enabled(run[i], steps[i]) && run[i+1] == Next(run[i], steps[i])
  }

  ghost predicate Leads(s: State, s': State) { exists run, steps :: IsPath(run, steps, s, s') }

  /** A state of some run. */
  ghost predicate Reachable(s: State) { exists s0 :: Init(s0) && Leads(s0, s) }

  lemma LeadsNowhere(s: State)
    ensures Leads(s, s)
  {
    assert IsPath([s], [], s, s);
  }

  lemma LeadsOn(s: State, s': State, step: Step)
    requires Leads(s, s') && Enabled(s', step)
    ensures Leads(s, Next(s', step))
  {
    hide Enabled, Next;
    var run: seq<State>, steps: seq<Step> :| IsPath(run, steps, s, s');
    assert IsPath(run + [Next(s', step)], steps + [step], s, Next(s', step));
  }

  lemma LeadsReaches(s: State, s': State)
    requires Reachable(s) && Leads(s, s')
    ensures Reachable(s')
  {
    hide Init, Enabled, Next;
    var s0 :| Init(s0) && Leads(s0, s);
    var r1: seq<State>, p1: seq<Step> :| IsPath(r1, p1, s0, s);
    var r2: seq<State>, p2: seq<Step> :| IsPath(r2, p2, s, s');
    assert IsPath(r1 + r2[1..], p1 + p2, s0, s');
  }

  lemma RunTo(s: State) returns (run: seq<State>, steps: seq<Step>)
    requires Reachable(s)
    ensures IsRun(run, steps) && run[|run|-1] == s
  {
    hide Init, Enabled, Next;
    var s0 :| Init(s0) && Leads(s0, s);
    run, steps :| IsPath(run, steps, s0, s);
  }

  ghost predicate SomeRunPasses(s: State) { exists run: seq<State>, steps: seq<Step>, i: nat :: Passes(run, steps, i, s) }

  ghost predicate Passes(run: seq<State>, steps: seq<Step>, i: nat, s: State) { IsRun(run, steps) && i < |run| && run[i] == s }

  /** The reachable states are exactly the states of runs. */
  lemma ReachableIff(s: State)
    ensures Reachable(s) <==> SomeRunPasses(s)
  {
    hide Init, Enabled, Next;
    if Reachable(s) {
      var run, steps := RunTo(s);
      assert Passes(run, steps, |run| - 1, s);
    }
    if SomeRunPasses(s) {
      var run: seq<State>, steps: seq<Step>, i: nat :| Passes(run, steps, i, s);
      assert IsPath(run[..i+1], steps[..i], run[0], run[i]);
      assert Leads(run[0], run[i]);
    }
  }

  lemma ReachableInv(s: State)
    requires Reachable(s)
    ensures Inv(s)
  {
    var run, steps := RunTo(s);
    RunInv(run, steps, |run| - 1);
  }

  // ----- one call, from its start to its journal write -----

  /** `s` while call `t` stands at `a` and the world is `w`. */
  function During(s: State, t: TaskId, a: Task, w: World): State {
    s.(w := w, tasks := s.tasks[t := a], locks := if Holds(a.pc) then s.locks[a.id := t] else s.locks)
  }

  /** `s` once the call is over. */
  function Done(s: State, id: Id, w: World, up: Update): State
    requires id in s.journal
  {
    s.(w := w, journal := s.journal[id := Apply(s.journal[id], up, w.clock)])
  }

  lemma Begin(s0: State, s: State, t: TaskId, b: Task)
    requires Leads(s0, s) && t !in s.tasks && Starts(s, b)
    ensures Leads(s0, During(s, t, b, s.w))
  {
    hide Leads, Starts, Holds;
    LeadsOn(s0, s, Start(t, b));
  }

  lemma Go(s0: State, s: State, t: TaskId, a: Task, w: World, pc: Pc, w': World)
    requires Leads(s0, During(s, t, a, w)) && Moves(a, w, pc, w') && Holds(pc) == Holds(a.pc)
    ensures Leads(s0, During(s, t, a.(pc := pc), w'))
  {
    hide Leads, Moves, Holds;
    LeadsOn(s0, During(s, t, a, w), Move(t, pc, w'));
    assert s.tasks[t := a][t := a.(pc := pc)] == s.tasks[t := a.(pc := pc)];
  }

  lemma Finish(s0: State, s: State, t: TaskId, a: Task, w: World)
    requires Leads(s0, During(s, t, a, w)) && a.pc.Writing? && a.id in s.journal && t !in s.tasks && a.id !in s.locks
    ensures Leads(s0, Done(s, a.id, w, a.pc.up))
  {
    hide Leads, Holds, Apply;
    LeadsOn(s0, During(s, t, a, w), Commit(t));
    assert s.tasks[t := a] - {t} == s.tasks && s.locks[a.id := t] - {a.id} == s.locks;
  }

  lemma Outside(s0: State, s: State, m: EnvMove)
    requires Leads(s0, s) && EnvOk(s.w, m)
    ensures Leads(s0, s.(w := EnvStep(s.w, m)))
  {
    hide Leads, EnvOk, EnvStep;
    LeadsOn(s0, s, Env(m));
  }

  /** Nothing of this swap is under way. */
  predicate Idle(s: State, id: Id, t: TaskId) { id in s.journal && id !in s.locks && t !in s.tasks }

  // ----- the calls -----

  /** execute of a v1 buy. */
  lemma ExecuteBuy(s0: State, s: State, id: Id, t: TaskId)
    requires Leads(s0, s) && Idle(s, id, t)
    requires var rec := s.journal[id];
             && rec.status == Quoted && rec.q.flow == V1 && rec.q.dir == BnbToExfer && s.w.clock < rec.q.expiresAt
             && BuyReady(rec.q, s.w.clock) && Lockable(s.w, (rec.q.contract.value, rec.q.hash))
    ensures Leads(s0, Done(s, id, SendBuy(s.w, id, s.journal[id].q, s.w.clock, None), Update(UserLocked, Some(0))))
  {
    hide Leads, During, Done, SendBuy, BuyReady;
    var w, a := s.w, Task(id, s.journal[id], ExecRead);
    Begin(s0, s, t, a);
    Go(s0, s, t, a, w, ExecChecked(w.clock), w);
    var w' := SendBuy(w, id, a.rec.q, w.clock, None);
    Go(s0, s, t, a.(pc := ExecChecked(w.clock)), w, Writing(Update(UserLocked, Some(0)), true), w');
    Finish(s0, s, t, a.(pc := Writing(Update(UserLocked, Some(0)), true)), w');
  }

  /** execute of a v1 sell. */
  lemma ExecuteSell(s0: State, s: State, id: Id, t: TaskId, tx: TxId)
    requires Leads(s0, s) && Idle(s, id, t) && tx !in s.w.exfer
    requires var rec := s.journal[id];
             && rec.status == Quoted && rec.q.flow == V1 && rec.q.dir == ExferToBnb && s.w.clock < rec.q.expiresAt
             && SellReady(rec.q, s.w.tip)
    ensures Leads(s0, Done(s, id, SendSell(s.w, id, s.journal[id].q, s.w.tip, None, tx), Update(UserLocked, Some(tx))))
  {
    hide Leads, During, Done, SendSell, SellReady;
    var w, a := s.w, Task(id, s.journal[id], ExecRead);
    Begin(s0, s, t, a);
    Go(s0, s, t, a, w, ExecChecked(w.tip), w);
    var w' := SendSell(w, id, a.rec.q, w.tip, None, tx);
    Go(s0, s, t, a.(pc := ExecChecked(w.tip)), w, Writing(Update(UserLocked, Some(tx)), true), w');
    Finish(s0, s, t, a.(pc := Writing(Update(UserLocked, Some(tx)), true)), w');
  }

  /** execute of a v2 swap only commits. */
  lemma ExecuteV2(s0: State, s: State, id: Id, t: TaskId)
    requires Leads(s0, s) && Idle(s, id, t)
    requires s.journal[id].status == Quoted && s.journal[id].q.flow == V2 && s.w.clock < s.journal[id].q.expiresAt
    ensures Leads(s0, Done(s, id, s.w, Update(Committing, None)))
  {
    hide Leads, During, Done;
    var a := Task(id, s.journal[id], ExecRead);
    Begin(s0, s, t, a);
    Go(s0, s, t, a, s.w, Write(Committing, true), s.w);
    Finish(s0, s, t, a.(pc := Write(Committing, true)), s.w);
  }

  /** A v2 buy drive that finds the pool's lock good, locks our BNB and hands over a signed claim. */
  lemma DriveBuy(s0: State, s: State, id: Id, t: TaskId, tx: TxId)
    requires Leads(s0, s) && Idle(s, id, t)
    requires var rec := s.journal[id];
             && rec.status == Committing && rec.q.flow == V2 && rec.q.dir == BnbToExfer
             && BuyReady(rec.q, s.w.clock) && Lockable(s.w, (rec.q.contract.value, rec.q.hash)) && NodeAccepts(s.w, rec.q, tx)
    ensures var w, q, v := s.w, s.journal[id].q, Vetting(OnExfer(tx), s.w.tip);
            Leads(s0, Done(s, id, Sign(SendBuy(Vet(w, id, v), id, q, w.clock, Some(v)), id, tx), Update(UserLocked, Some(0))))
  {
    hide Leads, During, Done, SendBuy, NodeAccepts;
    var w, a, v := s.w, Task(id, s.journal[id], DriveRead), Vetting(OnExfer(tx), s.w.tip);
    Begin(s0, s, t, a);
    Go(s0, s, t, a, w, BuyMargin(w.clock), w);
    Go(s0, s, t, a.(pc := BuyMargin(w.clock)), w, BuyClear(w.clock), w);
    var w1 := Vet(w, id, v);
    Go(s0, s, t, a.(pc := BuyClear(w.clock)), w, BuyVetted(w.clock, v), w1);
    DriveBuyEnd(s0, s, t, a, w1, v, tx);
  }

  lemma DriveBuyEnd(s0: State, s: State, t: TaskId, a: Task, w: World, v: Vetting, tx: TxId)
    requires Idle(s, a.id, t) && v == Vetting(OnExfer(tx), w.tip) && Leads(s0, During(s, t, a.(pc := BuyVetted(w.clock, v)), w))
    requires a.rec.q.dir == BnbToExfer && BuyReady(a.rec.q, w.clock) && Lockable(w, (a.rec.q.contract.value, a.rec.q.hash))
    ensures Leads(s0, Done(s, a.id, Sign(SendBuy(w, a.id, a.rec.q, w.clock, Some(v)), a.id, tx), Update(UserLocked, Some(0))))
  {
    hide Leads, During, Done, SendBuy;
    var w2 := SendBuy(w, a.id, a.rec.q, w.clock, Some(v));
    Go(s0, s, t, a.(pc := BuyVetted(w.clock, v)), w, Handing(v), w2);
    var w3, end := Sign(w2, a.id, tx), Writing(Update(UserLocked, Some(0)), true);
    Go(s0, s, t, a.(pc := Handing(v)), w2, end, w3);
    Finish(s0, s, t, a.(pc := end), w3);
  }

  /** A v2 sell drive that finds the pool's lock good and locks our EXFER. */
  lemma DriveSell(s0: State, s: State, id: Id, t: TaskId, tx: TxId)
    requires Leads(s0, s) && Idle(s, id, t) && tx !in s.w.exfer
    requires var rec := s.journal[id];
             && rec.status == Committing && rec.q.flow == V2 && rec.q.dir == ExferToBnb
             && SellReady(rec.q, s.w.tip) && VerifyPoolBscLock(s.w, rec.q)
    ensures var w, q := s.w, s.journal[id].q;
            var v := Vetting(OnBsc(q.contract.value, q.hash), w.clock);
            Leads(s0, Done(s, id, SendSell(Vet(w, id, v), id, q, w.tip, Some(v), tx), Update(UserLocked, Some(tx))))
  {
    hide Leads, During, Done, SendSell, PoolLockSafeToClaim;
    var w, a := s.w, Task(id, s.journal[id], DriveRead);
    var v := Vetting(OnBsc(a.rec.q.contract.value, a.rec.q.hash), w.clock);
    Begin(s0, s, t, a);
    Go(s0, s, t, a, w, SellClear, w);
    var w1 := Vet(w, id, v);
    Go(s0, s, t, a.(pc := SellClear), w, SellVetted(v), w1);
    DriveSellEnd(s0, s, t, a, w1, v, tx);
  }

  lemma DriveSellEnd(s0: State, s: State, t: TaskId, a: Task, w: World, v: Vetting, tx: TxId)
    requires Idle(s, a.id, t) && tx !in w.exfer && Leads(s0, During(s, t, a.(pc := SellVetted(v)), w)) && SellReady(a.rec.q, w.tip)
    ensures Leads(s0, Done(s, a.id, SendSell(w, a.id, a.rec.q, w.tip, Some(v), tx), Update(UserLocked, Some(tx))))
  {
    hide Leads, During, Done, SendSell;
    Go(s0, s, t, a.(pc := SellVetted(v)), w, SellChecked(v, w.tip), w);
    var w2, end := SendSell(w, a.id, a.rec.q, w.tip, Some(v), tx), Writing(Update(UserLocked, Some(tx)), true);
    Go(s0, s, t, a.(pc := SellChecked(v, w.tip)), w, end, w2);
    Finish(s0, s, t, a.(pc := end), w2);
  }

  /** advance of a v1 buy that is told the pool has locked. */
  lemma AdvanceToPoolLocked(s0: State, s: State, id: Id, t: TaskId)
    requires Leads(s0, s) && Idle(s, id, t)
    requires s.journal[id].status == UserLocked && s.journal[id].q.flow == V1 && s.journal[id].q.dir == BnbToExfer
    ensures Leads(s0, Done(s, id, s.w, Update(PoolLocked, None)))
  {
    hide Leads, During, Done;
    var a := Task(id, s.journal[id], AdvRead);
    Begin(s0, s, t, a);
    Go(s0, s, t, a, s.w, Write(PoolLocked, false), s.w);
    Finish(s0, s, t, a.(pc := Write(PoolLocked, false)), s.w);
  }

  /** `w` with its tip and clock moved on. */
  function Later(w: World, tip: nat, clock: nat): World { w.(tip := tip, clock := clock) }

  lemma Wait(s0: State, s: State, t: TaskId, a: Task, w: World, tip: nat, clock: nat)
    requires Leads(s0, During(s, t, a, w)) && w.tip <= tip && w.clock <= clock
    ensures Leads(s0, During(s, t, a, Later(w, tip, clock)))
  {
    hide Leads, Holds;
    Outside(s0, During(s, t, a, w), Tick(tip, clock));
  }

  /** advance of a v1 buy whose gate passes on the row of `tx`, and which sends when the world stands at `tip` and
      `clock`. */
  lemma AdvanceClaims(s0: State, s: State, id: Id, t: TaskId, tx: TxId, tip: nat, clock: nat)
    requires Leads(s0, s) && Idle(s, id, t) && s.w.tip <= tip && s.w.clock <= clock
    requires var rec := s.journal[id];
             && rec.status == PoolLocked && rec.q.flow == V1 && rec.q.dir == BnbToExfer && rec.q.hash.pre.Ours?
             && PaysUs(s.w, rec.q, tx) && ExferGate(s.w, rec.q, tx) && s.w.exfer[tx].state == Locked
    ensures var w, q := s.w, s.journal[id].q;
            var w1 := Later(Vet(w, id, Vetting(OnExfer(tx), w.tip)), tip, clock);
            Leads(s0, Done(s, id, Show(Sign(w1, id, tx), id, q, Some(tx), w.tip), Update(Claiming, None)))
  {
    hide Leads, During, Done;
    var w, a := s.w, Task(id, s.journal[id], AdvRead);
    Begin(s0, s, t, a);
    assert BuyRow(a.rec.q, w, tx, AdvRow(tx));
    Go(s0, s, t, a, w, AdvRow(tx), w);
    var w1 := Vet(w, id, Vetting(OnExfer(tx), w.tip));
    var gated := a.(pc := AdvGated(tx, w.tip));
    Go(s0, s, t, a.(pc := AdvRow(tx)), w, gated.pc, w1);
    Wait(s0, s, t, gated, w1, tip, clock);
    var w2 := Show(Sign(Later(w1, tip, clock), id, tx), id, a.rec.q, Some(tx), w.tip);
    Go(s0, s, t, gated, Later(w1, tip, clock), Write(Claiming, false), w2);
    Finish(s0, s, t, a.(pc := Write(Claiming, false)), w2);
  }

  /** advance of a v1 buy whose row is claimed. */
  lemma AdvanceCompletesBuy(s0: State, s: State, id: Id, t: TaskId, tx: TxId)
    requires Leads(s0, s) && Idle(s, id, t)
    requires var rec := s.journal[id];
             && rec.status == Claiming && rec.q.flow == V1 && rec.q.dir == BnbToExfer
             && PaysUs(s.w, rec.q, tx) && s.w.exfer[tx].state == Claimed
    ensures Leads(s0, Done(s, id, s.w, Update(Completed, None)))
  {
    hide Leads, During, Done;
    var a := Task(id, s.journal[id], AdvRead);
    Begin(s0, s, t, a);
    assert BuyRow(a.rec.q, s.w, tx, Write(Completed, false));
    Go(s0, s, t, a, s.w, Write(Completed, false), s.w);
    Finish(s0, s, t, a.(pc := Write(Completed, false)), s.w);
  }

  /** advance of a v1 sell whose gate passes. */
  lemma AdvanceVets(s0: State, s: State, id: Id, t: TaskId)
    requires Leads(s0, s) && Idle(s, id, t)
    requires var rec := s.journal[id];
             rec.status == UserLocked && rec.q.flow == V1 && rec.q.dir == ExferToBnb && VerifyPoolBscLock(s.w, rec.q)
    ensures var w, q := s.w, s.journal[id].q;
            Leads(s0, Done(s, id, Vet(w, id, Vetting(OnBsc(q.contract.value, q.hash), w.clock)), Update(PoolLocked, None)))
  {
    hide Leads, During, Done, PoolLockSafeToClaim;
    var w, a := s.w, Task(id, s.journal[id], AdvRead);
    var w1 := Vet(w, id, Vetting(OnBsc(a.rec.q.contract.value, a.rec.q.hash), w.clock));
    Begin(s0, s, t, a);
    Go(s0, s, t, a, w, Write(PoolLocked, false), w1);
    Finish(s0, s, t, a.(pc := Write(PoolLocked, false)), w1);
  }

  /** advance of a v1 sell that sends its preimage when the world stands at `tip` and `clock`. */
  lemma AdvanceReveals(s0: State, s: State, id: Id, t: TaskId, tip: nat, clock: nat)
    requires Leads(s0, s) && Idle(s, id, t) && s.w.tip <= tip && s.w.clock <= clock
    requires var rec := s.journal[id];
             && rec.status == PoolLocked && rec.q.flow == V1 && rec.q.dir == ExferToBnb && rec.q.hash.pre.Ours?
    ensures var w1 := Later(s.w, tip, clock);
            Leads(s0, Done(s, id, Show(w1, id, s.journal[id].q, None, s.w.clock), Update(Claiming, None)))
  {
    hide Leads, During, Done;
    var w, a := s.w, Task(id, s.journal[id], AdvRead);
    Begin(s0, s, t, a);
    var sending := a.(pc := AdvSend(w.clock));
    Go(s0, s, t, a, w, sending.pc, w);
    Wait(s0, s, t, sending, w, tip, clock);
    var w1 := Show(Later(w, tip, clock), id, a.rec.q, None, w.clock);
    Go(s0, s, t, sending, Later(w, tip, clock), AdvRelayed(w.clock), w1);
    Go(s0, s, t, a.(pc := AdvRelayed(w.clock)), w1, Write(Claiming, false), w1);
    Finish(s0, s, t, a.(pc := Write(Claiming, false)), w1);
  }

  /** advance of a v1 sell that reads its contract as claimed. */
  lemma AdvanceCompletesSell(s0: State, s: State, id: Id, t: TaskId)
    requires Leads(s0, s) && Idle(s, id, t)
    requires var rec := s.journal[id];
             rec.status == PoolLocked && rec.q.flow == V1 && rec.q.dir == ExferToBnb && BscState(s.w, rec.q) == Claimed
    ensures Leads(s0, Done(s, id, s.w, Update(Completed, None)))
  {
    hide Leads, During, Done;
    var a := Task(id, s.journal[id], AdvRead);
    Begin(s0, s, t, a);
    Go(s0, s, t, a, s.w, Write(Completed, false), s.w);
    Finish(s0, s, t, a.(pc := Write(Completed, false)), s.w);
  }
}
