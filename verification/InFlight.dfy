/** In-flight outpoint claims (src/inflight.rs). */
module InFlight {
  import opened Common
  import opened Bytes

  datatype OutPoint = OutPoint(tx: Hash32, vout: u32)

  /** Claimed outpoints with the instant each claim lapses. */
  type Claims = map<OutPoint, nat>

  const TTL: nat := 600

  function Unexpired(c: Claims, now: nat): Claims { map o | o in c && now < c[o] :: c[o] }

  function SetOf(ops: seq<OutPoint>): set<OutPoint> { set o | o in ops }

  function WithClaims(c: Claims, ops: set<OutPoint>, exp: nat): Claims {
    map o | o in c.Keys + ops :: if o in ops then exp else c[o]
  }

  /** Whether `htlc_lock` is held off at an instant. */
  predicate HeldAt(readyAt: Option<nat>, now: nat) { readyAt.Some? && now < readyAt.value }

  class InFlightUtxos {
    var pending: Claims
    var readyAt: Option<nat>

    constructor ()
      ensures pending == map[] && readyAt == None
    {
      pending, readyAt := map[], None;
    }

    method Pending(now: nat) returns (live: set<OutPoint>)
      modifies this`pending
      ensures pending == Unexpired(old(pending), now) && live == pending.Keys
    {
      pending := Unexpired(pending, now);
      live := pending.Keys;
    }

    method Insert(ops: seq<OutPoint>, exp: nat)
      modifies this`pending
      ensures pending == WithClaims(old(pending), SetOf(ops), exp)
    {
      for i := 0 to |ops|
        invariant pending == WithClaims(old(pending), SetOf(ops[..i]), exp)
      {
        assert ops[..i+1] == ops[..i] + [ops[i]];
        pending := pending[ops[i] := exp];
      }
      assert ops[..|ops|] == ops;
    }

    /** Claiming again moves the expiry. */
    method Claim(ops: seq<OutPoint>, now: nat)
      modifies this`pending
      ensures pending == WithClaims(old(pending), SetOf(ops), now + TTL)
    {
      if ops == [] { return; }
      Insert(ops, now + TTL);
    }

    method Release(ops: seq<OutPoint>)
      modifies this`pending
      ensures pending == old(pending) - SetOf(ops)
    {
      if ops == [] { return; }
      for i := 0 to |ops|
        invariant pending == old(pending) - SetOf(ops[..i])
      {
        assert ops[..i+1] == ops[..i] + [ops[i]];
        pending := pending - {ops[i]};
      }
      assert ops[..|ops|] == ops;
    }

    /** From now until `t`, and not from `t` on. */
    method HoldLocksUntil(t: nat)
      modifies this`readyAt
      ensures forall now: nat :: now < t ==> HeldAt(readyAt, now)
      ensures forall now: nat :: t <= now ==> !HeldAt(readyAt, now)
    {
      readyAt := Some(t);
    }

    /** A hold is one stretch of time: held now, it was at every earlier instant; free now, it stays free until
        another hold is set. */
    method LocksHeld(now: nat) returns (held: bool)
      ensures held ==> forall earlier: nat :: earlier <= now ==> HeldAt(readyAt, earlier)
      ensures !held ==> forall later: nat :: now <= later ==> !HeldAt(readyAt, later)
    {
      match readyAt
      case Some(t) => held := now < t;
      case None => held := false;
    }

    /** Snapshot, selection and claim under one lock.  A failing selector claims nothing. */
    method SelectAndClaim<T, E>(select: set<OutPoint> -> Result<(seq<OutPoint>, T), E>, now: nat)
      returns (r: Result<(ClaimGuard, T), E>)
      modifies this`pending
      ensures var live := Unexpired(old(pending), now);
              match select(live.Keys)
              case Err(e) => r == Err(e) && pending == live
              case Ok(choice) =>
                && r.Ok? && r.value.1 == choice.1 && fresh(r.value.0)
                && r.value.0.inflight == this && r.value.0.outpoints == choice.0 && !r.value.0.committed
                && pending == WithClaims(live, SetOf(choice.0), now + TTL)
    {
      pending := Unexpired(pending, now);
      var snapshot := pending.Keys;
      match select(snapshot)
      case Err(e) => return Err(e);
      case Ok(choice) =>
        Insert(choice.0, now + TTL);
        var guard := new ClaimGuard(this, choice.0);
        return Ok((guard, choice.1));
    }
  }

  class ClaimGuard {
    const inflight: InFlightUtxos
    const outpoints: seq<OutPoint>
    var committed: bool

    constructor (inflight: InFlightUtxos, outpoints: seq<OutPoint>)
      ensures this.inflight == inflight && this.outpoints == outpoints && !committed
    {
      this.inflight, this.outpoints, committed := inflight, outpoints, false;
    }

    /** Kept until the TTL evicts it. */
    method Commit()
      modifies this, inflight`pending
      ensures committed && inflight.pending == old(inflight.pending)
    {
      committed := true;
      Drop();
    }

    method Drop()
      modifies inflight`pending
      ensures inflight.pending == if committed then old(inflight.pending) else old(inflight.pending) - SetOf(outpoints)
    {
      if !committed { inflight.Release(outpoints); }
    }
  }

  // ----- the protocol -----

  datatype Phase = Open | Committed | Dropped

  datatype Guard = Guard(ops: set<OutPoint>, exp: nat, phase: Phase)

  datatype World = World(pending: Claims, guards: seq<Guard>, now: nat)

  datatype Step = Pass(secs: nat) | Select(ops: set<OutPoint>) | Commit(id: nat) | Drop(id: nat)

  predicate IsOpen(w: World, id: nat) { id < |w.guards| && w.guards[id].phase == Open }

  /** Selectors pick outside the snapshot they are shown; no guard is dropped after its claims lapsed. */
  predicate Enabled(w: World, s: Step) {
    match s
    case Pass(_) => true
    case Select(ops) => ops !! Unexpired(w.pending, w.now).Keys
    case Commit(id) => IsOpen(w, id)
    case Drop(id) => IsOpen(w, id) && w.now < w.guards[id].exp
  }

  function Moved(w: World, id: nat, p: Phase): seq<Guard>
    requires id < |w.guards|
  {
    w.guards[id := w.guards[id].(phase := p)]
  }

  function Dropping(w: World, id: nat): World
    requires IsOpen(w, id)
  {
    World(w.pending - w.guards[id].ops, Moved(w, id, Dropped), w.now)
  }

  function Next(w: World, s: Step): World
    requires Enabled(w, s)
  {
    match s
    case Pass(secs) => w.(now := w.now + secs)
    case Select(ops) =>
      World(WithClaims(Unexpired(w.pending, w.now), ops, w.now + TTL), w.guards + [Guard(ops, w.now + TTL, Open)], w.now)
    case Commit(id) => w.(guards := Moved(w, id, Committed))
    case Drop(id) => Dropping(w, id)
  }

  /** The mempool seeding at start claims before any guard exists. */
  predicate Init(w: World) {
    && w.pending == WithClaims(map[], w.pending.Keys, w.now + TTL)
    && w.guards == [Guard(w.pending.Keys, w.now + TTL, Committed)]
  }

  predicate IsRun(run: seq<World>, steps: seq<Step>) {
    && |run| == |steps| + 1 && Init(run[0])
    && forall i :: 0 <= i < |steps| ==> Enabled(run[i], steps[i]) && run[i + 1] == Next(run[i], steps[i])
  }

  /** Open or committed, and not lapsed. */
  predicate Holds(w: World, id: int) { 0 <= id < |w.guards| && w.guards[id].phase != Dropped && w.now < w.guards[id].exp }

  predicate HoldsOp(w: World, id: int, o: OutPoint) { Holds(w, id) && o in w.guards[id].ops }

  ghost predicate Disjoint(w: World) {
    forall i, j, o :: HoldsOp(w, i, o) && HoldsOp(w, j, o) ==> i == j
  }

  /** The unexpired claims are exactly those of the guards that hold. */
  ghost predicate Backed(w: World) {
    && (forall i, o :: HoldsOp(w, i, o) ==> o in w.pending && w.pending[o] == w.guards[i].exp)
    && (forall o :: o in w.pending && w.now < w.pending[o] ==> exists i :: HoldsOp(w, i, o))
  }

  ghost predicate Inv(w: World) { Disjoint(w) && Backed(w) }

  lemma SelectKeeps(w: World, ops: set<OutPoint>)
    requires Inv(w) && Enabled(w, Select(ops))
    ensures Inv(Next(w, Select(ops)))
  {
    var w' := Next(w, Select(ops));
    forall i, o ensures HoldsOp(w', i, o) <==> HoldsOp(w, i, o) || (i == |w.guards| && o in ops) {}
    forall i, o | HoldsOp(w, i, o) ensures o in Unexpired(w.pending, w.now) && o !in ops {}
    forall o | o in w'.pending && w'.now < w'.pending[o] ensures exists i :: HoldsOp(w', i, o) {
      if o in ops {
        assert HoldsOp(w', |w.guards|, o);
      } else {
        var i :| HoldsOp(w, i, o);
        assert HoldsOp(w', i, o);
      }
    }
  }

  /** Dropping an open guard keeps claims disjoint and backed exactly when no other guard that holds has
      one of its outpoints. */
  lemma DropKeepsWhen(w: World, id: nat)
    requires Inv(w) && IsOpen(w, id)
    ensures Inv(Dropping(w, id)) <==> forall j, o :: j != id && HoldsOp(w, j, o) ==> o !in w.guards[id].ops
  {
    var w' := Dropping(w, id);
    var mine := w.guards[id].ops;
    forall i, o ensures HoldsOp(w', i, o) <==> HoldsOp(w, i, o) && i != id {}
    if forall j, o :: j != id && HoldsOp(w, j, o) ==> o !in mine {
      forall o | o in w'.pending && w'.now < w'.pending[o] ensures exists i :: HoldsOp(w', i, o) {
        var i :| HoldsOp(w, i, o);
        assert HoldsOp(w', i, o);
      }
      assert forall i, o :: HoldsOp(w', i, o) ==> HoldsOp(w, i, o) && o in w'.pending;
    } else {
      var j, o :| j != id && HoldsOp(w, j, o) && o in mine;
      assert HoldsOp(w', j, o) && o !in w'.pending;
    }
  }

  /** Before its TTL a guard's outpoints are no one else's: dropping it restores exactly its own, and every
      other claim stays as it was. */
  lemma DropOnTime(w: World, id: nat)
    requires Inv(w) && Enabled(w, Drop(id))
    ensures Inv(Next(w, Drop(id)))
    ensures Unexpired(Next(w, Drop(id)).pending, w.now) == Unexpired(w.pending, w.now) - w.guards[id].ops
    ensures w.guards[id].ops <= Unexpired(w.pending, w.now).Keys
    ensures forall j, o :: j != id && HoldsOp(w, j, o) ==> HoldsOp(Next(w, Drop(id)), j, o) && o in Next(w, Drop(id)).pending
  {
    forall o | o in w.guards[id].ops ensures o in Unexpired(w.pending, w.now) && forall j :: HoldsOp(w, j, o) ==> j == id {
      assert HoldsOp(w, id, o);
    }
    DropKeepsWhen(w, id);
    forall j, o | j != id && HoldsOp(w, j, o) ensures HoldsOp(Next(w, Drop(id)), j, o) {}
  }

  lemma StepKeeps(w: World, s: Step)
    requires Inv(w) && Enabled(w, s)
    ensures Inv(Next(w, s))
  {
    var w' := Next(w, s);
    match s
    case Pass(secs) =>
      forall i, o | HoldsOp(w', i, o) ensures HoldsOp(w, i, o) {}
      forall o | o in w'.pending && w'.now < w'.pending[o] ensures exists i :: HoldsOp(w', i, o) {
        var i :| HoldsOp(w, i, o);
        assert HoldsOp(w', i, o);
      }
    case Select(ops) => SelectKeeps(w, ops);
    case Commit(id) =>
      forall i, o ensures HoldsOp(w', i, o) <==> HoldsOp(w, i, o) {}
    case Drop(id) => DropOnTime(w, id);
  }

  lemma {:induction false} RunInv(run: seq<World>, steps: seq<Step>, n: nat)
    requires IsRun(run, steps) && n < |run|
    ensures Inv(run[n])
    decreases n
  {
    if n == 0 {
      var w := run[0];
      forall o | o in w.pending ensures HoldsOp(w, 0, o) {}
    } else {
      RunInv(run, steps, n - 1);
      StepKeeps(run[n-1], steps[n-1]);
    }
  }

  /** In every run no outpoint is claimed by two guards that hold. */
  lemma NoDoubleClaim(run: seq<World>, steps: seq<Step>, n: nat, i: nat, j: nat)
    requires IsRun(run, steps) && n < |run| && i != j && Holds(run[n], i) && Holds(run[n], j)
    ensures run[n].guards[i].ops !! run[n].guards[j].ops
  {
    RunInv(run, steps, n);
    assert forall o :: o in run[n].guards[i].ops ==> HoldsOp(run[n], i, o);
    assert forall o :: o in run[n].guards[j].ops ==> HoldsOp(run[n], j, o);
  }

  // ----- guards that outlive their TTL -----

  /** Any open guard may be dropped, however late. */
  predicate LooseEnabled(w: World, s: Step) {
    match s
    case Drop(id) => IsOpen(w, id)
    case _ => Enabled(w, s)
  }

  function LooseNext(w: World, s: Step): World
    requires LooseEnabled(w, s)
  {
    match s
    case Drop(id) => Dropping(w, id)
    case _ => Next(w, s)
  }

  ghost predicate IsLooseRun(run: seq<World>, steps: seq<Step>) {
    && |run| == |steps| + 1 && Init(run[0])
    && forall i :: 0 <= i < |steps| ==> LooseEnabled(run[i], steps[i]) && run[i + 1] == LooseNext(run[i], steps[i])
  }

  /** A guard that outlives its TTL frees an outpoint someone else has claimed since, and a third selector
      then gets the same one: a run from start-up for any outpoint. */
  lemma LateDropDoubleClaims(o: OutPoint) returns (run: seq<World>, steps: seq<Step>)
    ensures IsLooseRun(run, steps) && steps == [Select({o}), Pass(TTL), Select({o}), Drop(1), Select({o})]
    ensures HoldsOp(run[5], 2, o) && HoldsOp(run[5], 3, o)
  {
    var none: Claims := map[];
    var w0 := World(none, [Guard({}, TTL, Committed)], 0);
    var w1 := LooseNext(w0, Select({o}));
    assert w1 == World(map[o := TTL], w0.guards + [Guard({o}, TTL, Open)], 0);
    var w2 := LooseNext(w1, Pass(TTL));
    assert w2 == World(map[o := TTL], w1.guards, TTL);
    var w3, w4, w5 := LateEnd(w2, o);
    assert none.Keys == {} && WithClaims(none, {}, TTL) == none;
    steps := [Select({o}), Pass(TTL), Select({o}), Drop(1), Select({o})];
    run := [w0, w1, w2, w3, w4, w5];
  }

  /** Guard 1 has lapsed: another selector claims its outpoint, it is dropped, and a third selector comes. */
  lemma LateEnd(w2: World, o: OutPoint) returns (w3: World, w4: World, w5: World)
    requires w2 == World(map[o := TTL], [Guard({}, TTL, Committed), Guard({o}, TTL, Open)], TTL)
    ensures LooseEnabled(w2, Select({o})) && w3 == LooseNext(w2, Select({o}))
    ensures LooseEnabled(w3, Drop(1)) && w4 == LooseNext(w3, Drop(1))
    ensures LooseEnabled(w4, Select({o})) && w5 == LooseNext(w4, Select({o}))
    ensures HoldsOp(w5, 2, o) && HoldsOp(w5, 3, o)
  {
    var none: Claims := map[];
    assert Unexpired(w2.pending, TTL) == none;
    w3 := LooseNext(w2, Select({o}));
    assert w3 == World(map[o := TTL + TTL], w2.guards + [Guard({o}, TTL + TTL, Open)], TTL);
    w4 := LooseNext(w3, Drop(1));
    assert w4.pending == none;
    w5 := LooseNext(w4, Select({o}));
  }

  /** Up to the first drop that is not on time, no outpoint is claimed twice. */
  lemma {:induction false} OnTimeSoFar(run: seq<World>, steps: seq<Step>, n: nat)
    requires IsLooseRun(run, steps) && n < |run|
    requires forall i :: 0 <= i < n && steps[i].Drop? ==> run[i].now < run[i].guards[steps[i].id].exp
    ensures Inv(run[n])
    decreases n
  {
    if n == 0 {
      var w := run[0];
      forall o | o in w.pending ensures HoldsOp(w, 0, o) {}
    } else {
      OnTimeSoFar(run, steps, n - 1);
      assert LooseEnabled(run[n-1], steps[n-1]) && run[n] == LooseNext(run[n-1], steps[n-1]);
      StepKeeps(run[n-1], steps[n-1]);
    }
  }
}
