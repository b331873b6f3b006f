/**
 The spend path of the API (src/api/mod.rs:813-914, 1014-1038): transfers under a client token run
 reserve, broadcast and refund inside the idempotency unit; plain transfers and HTLC locks run them
 bare.  All share one ledger and one cache.
 */
module SpendPath {
  import opened Common
  import opened Bytes
  import Allowance
  import Idempotency

  /** `req[c]` is the ledger request of caller `c`. */
  datatype State = State(cache: Idempotency.World, ledger: Allowance.World, req: seq<nat>)

  datatype Step =
    | Call(token: Idempotency.Token, fp: nat, amount: u64, at: u64)
    | Plain(s: Allowance.Step)
    | Pass(secs: nat)
    | Enter(who: nat, expired: seq<Idempotency.Token>)
    | Work(who: nat, s: Allowance.Step)
    | Leave(who: nat, result: Option<Idempotency.Receipt>, victim: Option<Idempotency.Token>)

  predicate OnRequest(s: Allowance.Step, id: nat) {
    match s
    case Arrive(_, _) => false
    case TryReserve(i, _, _) => i == id
    case BroadcastOk(i) => i == id
    case BroadcastFails(i, _) => i == id
  }

  predicate Running(s: State, c: nat) {
    c < |s.cache.callers| && c < |s.req| && s.req[c] < |s.ledger.reqs| && s.cache.callers[c].phase == Idempotency.Running
  }

  function PhaseOf(s: State, c: nat): Allowance.Phase
    requires c < |s.req| && s.req[c] < |s.ledger.reqs|
  {
    s.ledger.reqs[s.req[c]].phase
  }

  ghost predicate Enabled(s: State, step: Step) {
    match step
    case Call(_, _, _, _) => true
    case Pass(_) => true
    case Plain(l) => Allowance.Enabled(s.ledger, l) && forall c :: 0 <= c < |s.req| ==> !OnRequest(l, s.req[c])
    case Enter(who, expired) => Idempotency.Enabled(s.cache, Idempotency.DoEnter(who, expired))
    case Work(who, l) => Running(s, who) && Allowance.Enabled(s.ledger, l) && OnRequest(l, s.req[who])
    case Leave(who, result, victim) =>
      && Running(s, who) && Idempotency.Enabled(s.cache, Idempotency.DoLeave(who, result, victim))
      && (if result.Some? then PhaseOf(s, who) == Allowance.Sent
          else PhaseOf(s, who) in {Allowance.Refused, Allowance.GaveBack, Allowance.RefundLost})
  }

  ghost function Next(caps: Allowance.Caps, s: State, step: Step): State
    requires Enabled(s, step)
  {
    match step
    case Call(token, fp, amount, at) =>
      State(Idempotency.Next(s.cache, Idempotency.Call(token, fp)),
            Allowance.Next(caps, s.ledger, Allowance.Arrive(amount, at)), s.req + [|s.ledger.reqs|])
    case Plain(l) => s.(ledger := Allowance.Next(caps, s.ledger, l))
    case Pass(secs) => s.(cache := Idempotency.Next(s.cache, Idempotency.Pass(secs)))
    case Enter(who, expired) => s.(cache := Idempotency.Next(s.cache, Idempotency.DoEnter(who, expired)))
    case Work(who, l) => s.(ledger := Allowance.Next(caps, s.ledger, l))
    case Leave(who, result, victim) => s.(cache := Idempotency.Next(s.cache, Idempotency.DoLeave(who, result, victim)))
  }

  ghost predicate IsRun(caps: Allowance.Caps, run: seq<State>, steps: seq<Step>) {
    && |run| == |steps| + 1 && run[0] == State(Idempotency.World(map[], [], 0, []), Allowance.EMPTY, [])
    && forall i :: 0 <= i < |steps| ==> Enabled(run[i], steps[i]) && run[i + 1] == Next(caps, run[i], steps[i])
  }

  // ----- the invariant -----

  ghost predicate Shape(s: State) {
    && |s.req| == |s.cache.callers|
    && (forall c :: 0 <= c < |s.req| ==> s.req[c] < |s.ledger.reqs|)
    && (forall c, d :: 0 <= c < |s.req| && 0 <= d < |s.req| && s.req[c] == s.req[d] ==> c == d)
  }

  ghost predicate HasStarted(log: seq<Idempotency.Event>, t: Idempotency.Token, c: nat) {
    exists i :: 0 <= i < |log| && log[i] == Idempotency.Started(t, c)
  }

  ghost predicate HasFailed(log: seq<Idempotency.Event>, c: nat) {
    exists i :: 0 <= i < |log| && log[i].FailedRun? && log[i].who == c
  }

  /** A request is touched only by a caller that started a run, and a run that failed holds no live charge. */
  ghost predicate Charges(s: State)
    requires Shape(s)
  {
    && (forall c :: 0 <= c < |s.req| && PhaseOf(s, c) != Allowance.Pending ==> HasStarted(s.cache.log, s.cache.callers[c].token, c))
    && (forall c: nat :: HasFailed(s.cache.log, c) ==> c < |s.cache.callers| && s.cache.callers[c].phase == Idempotency.Failed)
    && (forall c :: 0 <= c < |s.req| && s.cache.callers[c].phase == Idempotency.Failed ==> !Allowance.Live(PhaseOf(s, c)))
  }

  ghost predicate Inv(caps: Allowance.Caps, s: State) {
    Idempotency.Inv(s.cache) && Allowance.Exact(caps, s.ledger) && Shape(s) && Charges(s)
  }

  /** Callers keep their tokens, the log only grows, and only `who` changes phase. */
  ghost predicate CacheStep(w: Idempotency.World, w': Idempotency.World, who: nat) {
    && |w'.callers| == |w.callers| && w.log <= w'.log
    && (forall c :: 0 <= c < |w.callers| ==> w'.callers[c].token == w.callers[c].token)
    && (forall c :: 0 <= c < |w.callers| && c != who ==> w'.callers[c] == w.callers[c])
  }

  lemma HasGrows(log: seq<Idempotency.Event>, log': seq<Idempotency.Event>, t: Idempotency.Token, c: nat)
    requires log <= log'
    ensures HasStarted(log, t, c) ==> HasStarted(log', t, c)
    ensures HasFailed(log, c) ==> HasFailed(log', c)
  {
    if HasStarted(log, t, c) {
      var i :| 0 <= i < |log| && log[i] == Idempotency.Started(t, c);
      assert log'[i] == log[i];
    }
    if HasFailed(log, c) {
      var i :| 0 <= i < |log| && log[i].FailedRun? && log[i].who == c;
      assert log'[i] == log[i];
    }
  }

  lemma {:induction false} ExpiriesOnly(ts: seq<Idempotency.Token>, now: nat)
    ensures forall i :: 0 <= i < |Idempotency.Expiries(ts, now)| ==> Idempotency.Expiries(ts, now)[i].Expired?
  {
    if ts != [] { ExpiriesOnly(ts[..|ts|-1], now); }
  }

  lemma EnterShape(w: Idempotency.World, who: nat, expired: seq<Idempotency.Token>)
    requires Idempotency.Enabled(w, Idempotency.DoEnter(who, expired))
    ensures var w' := Idempotency.Next(w, Idempotency.DoEnter(who, expired));
            && CacheStep(w, w', who) && w'.callers[who].phase != Idempotency.Failed
            && (forall c: nat :: HasFailed(w'.log, c) ==> HasFailed(w.log, c))
  {
    hide Idempotency.Entered, Idempotency.Lists;
    ExpiriesOnly(expired, w.now);
    var w' := Idempotency.Next(w, Idempotency.DoEnter(who, expired));
    forall c: nat | HasFailed(w'.log, c) ensures HasFailed(w.log, c) {
      var i :| 0 <= i < |w'.log| && w'.log[i].FailedRun? && w'.log[i].who == c;
      assert i < |w.log| ==> w.log[i] == w'.log[i];
    }
  }

  lemma LeaveShape(w: Idempotency.World, who: nat, result: Option<Idempotency.Receipt>, victim: Option<Idempotency.Token>)
    requires Idempotency.Enabled(w, Idempotency.DoLeave(who, result, victim))
    ensures var w' := Idempotency.Next(w, Idempotency.DoLeave(who, result, victim));
            && CacheStep(w, w', who) && (w'.callers[who].phase == Idempotency.Failed <==> result.None?)
            && (forall c: nat :: HasFailed(w'.log, c) ==> HasFailed(w.log, c) || (c == who && result.None?))
  {
    hide Idempotency.Left, Idempotency.Evicts;
    var w' := Idempotency.Next(w, Idempotency.DoLeave(who, result, victim));
    forall c: nat | HasFailed(w'.log, c) ensures HasFailed(w.log, c) || (c == who && result.None?) {
      var i :| 0 <= i < |w'.log| && w'.log[i].FailedRun? && w'.log[i].who == c;
      assert i < |w.log| ==> w.log[i] == w'.log[i];
    }
  }

  lemma LedgerShape(caps: Allowance.Caps, w: Allowance.World, l: Allowance.Step, id: nat)
    requires Allowance.Enabled(w, l)
    ensures |Allowance.Next(caps, w, l).reqs| >= |w.reqs|
    ensures id < |w.reqs| && !OnRequest(l, id) ==> Allowance.Next(caps, w, l).reqs[id] == w.reqs[id]
  {
  }

  lemma {:induction false} BusyStarted(log: seq<Idempotency.Event>, t: Idempotency.Token, c: nat)
    requires Idempotency.StandingOf(log, t) == Idempotency.Busy(c)
    ensures HasStarted(log, t, c)
  {
    var e := log[|log|-1];
    if e == Idempotency.Started(t, c) {
    } else {
      BusyStarted(log[..|log|-1], t, c);
      HasGrows(log[..|log|-1], log, t, c);
    }
  }

  lemma CacheKeeps(caps: Allowance.Caps, s: State, w': Idempotency.World, who: nat)
    requires Shape(s) && Charges(s) && CacheStep(s.cache, w', who) && who < |s.req|
    requires w'.callers[who].phase == Idempotency.Failed ==> !Allowance.Live(PhaseOf(s, who))
    requires s.cache.callers[who].phase != Idempotency.Failed
    requires forall c: nat :: HasFailed(w'.log, c) ==> HasFailed(s.cache.log, c) || (c == who && w'.callers[who].phase == Idempotency.Failed)
    ensures Shape(s.(cache := w')) && Charges(s.(cache := w'))
  {
    hide HasStarted, HasFailed;
    forall c | 0 <= c < |s.req| ensures HasStarted(s.cache.log, s.cache.callers[c].token, c) ==> HasStarted(w'.log, w'.callers[c].token, c) {
      HasGrows(s.cache.log, w'.log, s.cache.callers[c].token, c);
    }
  }

  lemma WorkKeeps(caps: Allowance.Caps, s: State, l: Allowance.Step, who: nat)
    requires Shape(s) && Charges(s) && Running(s, who) && Allowance.Enabled(s.ledger, l) && OnRequest(l, s.req[who])
    requires HasStarted(s.cache.log, s.cache.callers[who].token, who)
    ensures Shape(s.(ledger := Allowance.Next(caps, s.ledger, l))) && Charges(s.(ledger := Allowance.Next(caps, s.ledger, l)))
  {
    hide HasStarted, HasFailed;
    var s' := s.(ledger := Allowance.Next(caps, s.ledger, l));
    forall c | 0 <= c < |s.req| ensures s'.req[c] < |s'.ledger.reqs| && (c != who ==> PhaseOf(s', c) == PhaseOf(s, c)) {
      LedgerShape(caps, s.ledger, l, s.req[c]);
    }
    hide Allowance.Next;
  }

  lemma PlainKeeps(caps: Allowance.Caps, s: State, l: Allowance.Step)
    requires Shape(s) && Charges(s) && Enabled(s, Plain(l))
    ensures Shape(s.(ledger := Allowance.Next(caps, s.ledger, l))) && Charges(s.(ledger := Allowance.Next(caps, s.ledger, l)))
  {
    hide HasStarted, HasFailed, Allowance.Next;
    var s' := s.(ledger := Allowance.Next(caps, s.ledger, l));
    forall c | 0 <= c < |s.req| ensures s'.req[c] < |s'.ledger.reqs| && PhaseOf(s', c) == PhaseOf(s, c) {
      LedgerShape(caps, s.ledger, l, s.req[c]);
    }
  }

  lemma StepKeeps(caps: Allowance.Caps, s: State, step: Step)
    requires Inv(caps, s) && Enabled(s, step) && (caps.perPeriod.Some? ==> caps.perPeriod.value < U64_MAX)
    ensures Inv(caps, Next(caps, s, step))
  {
    hide Idempotency.Inv, Allowance.Exact, HasStarted, HasFailed, Idempotency.Lists, Idempotency.Evicts, Charges;
    match step
    case Call(token, fp, amount, at) =>
      CallKeeps(caps, s, token, fp, amount, at);
    case Plain(l) =>
      Allowance.StepExact(caps, s.ledger, l);
      PlainKeeps(caps, s, l);
    case Pass(secs) =>
      PassKeeps(s, secs);
    case Enter(who, expired) =>
      Idempotency.EnterKeeps(s.cache, who, expired);
      EnterShape(s.cache, who, expired);
      CacheKeeps(caps, s, Idempotency.Next(s.cache, Idempotency.DoEnter(who, expired)), who);
    case Work(who, l) =>
      Allowance.StepExact(caps, s.ledger, l);
      RunnerStarted(s, who);
      WorkKeeps(caps, s, l, who);
    case Leave(who, result, victim) =>
      Idempotency.LeaveKeeps(s.cache, who, result, victim);
      LeaveShape(s.cache, who, result, victim);
      CacheKeeps(caps, s, Idempotency.Next(s.cache, Idempotency.DoLeave(who, result, victim)), who);
  }

  lemma RunnerStarted(s: State, who: nat)
    requires Idempotency.Inv(s.cache) && Running(s, who)
    ensures HasStarted(s.cache.log, s.cache.callers[who].token, who)
  {
    BusyStarted(s.cache.log, s.cache.callers[who].token, who);
  }

  lemma PassKeeps(s: State, secs: nat)
    requires Idempotency.Inv(s.cache) && Shape(s) && Charges(s)
    ensures var s' := s.(cache := Idempotency.Next(s.cache, Idempotency.Pass(secs)));
            Idempotency.Inv(s'.cache) && Shape(s') && Charges(s')
  {
  }

  lemma CallKeeps(caps: Allowance.Caps, s: State, token: Idempotency.Token, fp: nat, amount: u64, at: u64)
    requires Inv(caps, s) && (caps.perPeriod.Some? ==> caps.perPeriod.value < U64_MAX)
    ensures Inv(caps, Next(caps, s, Call(token, fp, amount, at)))
  {
    hide Allowance.Exact, HasStarted, HasFailed;
    Allowance.StepExact(caps, s.ledger, Allowance.Arrive(amount, at));
    var s' := Next(caps, s, Call(token, fp, amount, at));
    assert Idempotency.Inv(s'.cache);
    forall c | 0 <= c < |s.req| ensures PhaseOf(s', c) == PhaseOf(s, c) && s'.cache.callers[c] == s.cache.callers[c] {}
  }

  lemma {:induction false} RunInv(caps: Allowance.Caps, run: seq<State>, steps: seq<Step>, n: nat)
    requires IsRun(caps, run, steps) && n < |run| && (caps.perPeriod.Some? ==> caps.perPeriod.value < U64_MAX)
    ensures Inv(caps, run[n])
    decreases n
  {
    if n > 0 {
      RunInv(caps, run, steps, n - 1);
      StepKeeps(caps, run[n-1], steps[n-1]);
    }
  }

  // ----- at most one live charge for a token -----

  predicate Forgets(e: Idempotency.Event, t: Idempotency.Token) { e.token == t && (e.Expired? || e.Evicted?) }

  lemma {:induction false} LeavesKept(log: seq<Idempotency.Event>, i: nat, j: nat, t: Idempotency.Token) returns (k: nat)
    requires Idempotency.GoodLog(log) && i <= j <= |log|
    requires Idempotency.StandingOf(log[..i], t).Kept? && Idempotency.StandingOf(log[..j], t) == Idempotency.Empty
    ensures i <= k < j && Forgets(log[k], t)
    decreases j - i
  {
    Idempotency.EventAllowed(log, i);
    if Idempotency.StandingOf(log[..i+1], t).Kept? { k := LeavesKept(log, i + 1, j, t); } else { k := i; }
  }

  /** A run that was not a failure and a later run for the same token: the receipt of the first was
      forgotten in between. */
  lemma ForgottenBetween(log: seq<Idempotency.Event>, i: nat, j: nat) returns (k: nat)
    requires Idempotency.GoodLog(log) && i < j < |log| && log[i].Started? && log[j].Started? && log[i].token == log[j].token
    requires !HasFailed(log, log[i].who)
    ensures i < k < j && Forgets(log[k], log[i].token)
  {
    Idempotency.EventAllowed(log, i);
    Idempotency.EventAllowed(log, j);
    var m := Idempotency.LeavesBusy(log, i + 1, j, log[i].token, log[i].who);
    assert log[m].Succeeded?;
    Idempotency.EventAllowed(log, m);
    k := LeavesKept(log, m + 1, j, log[i].token);
  }

  /** The runs of `c` and `d` for token `t` both started, and between the two starts the receipt was forgotten. */
  ghost predicate Separated(log: seq<Idempotency.Event>, t: Idempotency.Token, c: nat, d: nat) {
    exists i, j, k :: Apart(log, t, c, d, i, j, k)
  }

  predicate Apart(log: seq<Idempotency.Event>, t: Idempotency.Token, c: nat, d: nat, i: int, j: int, k: int) {
    && 0 <= Min(i, j) < k < Max(i, j) < |log|
    && log[i] == Idempotency.Started(t, c) && log[j] == Idempotency.Started(t, d) && Forgets(log[k], t)
  }

  lemma StartsSeparated(log: seq<Idempotency.Event>, t: Idempotency.Token, c: nat, d: nat)
    requires Idempotency.GoodLog(log) && c != d
    requires HasStarted(log, t, c) && HasStarted(log, t, d) && !HasFailed(log, c) && !HasFailed(log, d)
    ensures Separated(log, t, c, d)
  {
    hide HasFailed, Idempotency.GoodLog;
    var i: nat :| i < |log| && log[i] == Idempotency.Started(t, c);
    var j: nat :| j < |log| && log[j] == Idempotency.Started(t, d);
    var k: nat;
    if i < j { k := ForgottenBetween(log, i, j); } else { k := ForgottenBetween(log, j, i); }
    assert Apart(log, t, c, d, i, j, k);
  }

  /** In every interleaving, two callers of one token are both charged (reserved or sent, and not given
      back) only if between the starts of their runs the first receipt expired or was evicted.  A retry
      that is answered from the cache is never charged. */
  lemma TwoChargesMeanForgotten(caps: Allowance.Caps, run: seq<State>, steps: seq<Step>, n: nat, c: nat, d: nat)
    requires IsRun(caps, run, steps) && n < |run| && (caps.perPeriod.Some? ==> caps.perPeriod.value < U64_MAX)
    requires Shape(run[n]) && c < |run[n].req| && d < |run[n].req| && c != d
    requires run[n].cache.callers[c].token == run[n].cache.callers[d].token
    requires Allowance.Live(PhaseOf(run[n], c)) && Allowance.Live(PhaseOf(run[n], d))
    ensures Separated(run[n].cache.log, run[n].cache.callers[c].token, c, d)
  {
    RunInv(caps, run, steps, n);
    ChargedOnce(run[n], c);
    ChargedOnce(run[n], d);
    hide Allowance.Exact, Charges, HasStarted, HasFailed, Separated;
    assert Idempotency.GoodLog(run[n].cache.log);
    StartsSeparated(run[n].cache.log, run[n].cache.callers[c].token, c, d);
  }

  lemma ChargedOnce(s: State, c: nat)
    requires Shape(s) && Charges(s) && c < |s.req| && Allowance.Live(PhaseOf(s, c))
    ensures HasStarted(s.cache.log, s.cache.callers[c].token, c) && !HasFailed(s.cache.log, c)
  {
    hide HasStarted, HasFailed;
  }

  /** The spend cap holds over all of it: by arrival always, by reservation when those follow within a second. */
  lemma SharedCap(caps: Allowance.Caps, run: seq<State>, steps: seq<Step>, n: nat, b: u64, start: u64)
    requires IsRun(caps, run, steps) && n < |run| && caps.perPeriod.Some? && caps.perPeriod.value < U64_MAX
    ensures Allowance.Total(run[n].ledger.reqs, Allowance.InBucket(caps, b), true)
            <= Allowance.Spent(run[n].ledger.counters, b) <= caps.perPeriod.value
    ensures Allowance.Total(run[n].ledger.reqs, Allowance.Arrived(caps, start), true) <= 2 * caps.perPeriod.value
    ensures Allowance.Prompt(run[n].ledger.reqs, 1) ==>
              Allowance.Total(run[n].ledger.reqs, Allowance.Tried(caps, start), true) <= 2 * caps.perPeriod.value
  {
    RunInv(caps, run, steps, n);
    Allowance.CounterMatches(caps, run[n].ledger, b);
    Allowance.LiveAtMostHeld(run[n].ledger.reqs, Allowance.InBucket(caps, b));
    Allowance.WindowCap(caps, run[n].ledger, start);
    if Allowance.Prompt(run[n].ledger.reqs, 1) { Allowance.TriedCap(caps, run[n].ledger, start, 1); }
  }
}
