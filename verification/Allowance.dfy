/** The spend-allowance ledger (src/allowance.rs) under concurrent transfers and HTLC locks. */
module Allowance {
  import opened Common
  import opened Bytes

  datatype Caps = Caps(perTx: Option<u64>, perPeriod: Option<u64>, periodSecs: u64)

  datatype Exceeded = PerTx(limit: u64, requested: u64) | PerPeriod(limit: u64, spent: u64, requested: u64)

  datatype Failure = AllowanceExceeded(what: Exceeded) | Storage

  type Counters = map<u64, u64>

  datatype Status = Status(spent: u64, remaining: Option<u64>, resetsAt: Option<u64>)

  function SaturatingAdd(a: u64, b: u64): u64 { Min(a + b, U64_MAX) }
  function SaturatingSub(a: u64, b: u64): u64 { Max(a - b, 0) }

  /** The tumbling window a time falls in; a zero window means one bucket. */
  function Bucket(caps: Caps, now: u64): u64 { if caps.periodSecs == 0 then 0 else now / caps.periodSecs }

  function Spent(c: Counters, bucket: u64): u64 { if bucket in c then c[bucket] else 0 }

  predicate OverTx(caps: Caps, amount: u64) { caps.perTx.Some? && amount > caps.perTx.value }

  predicate OverPeriod(caps: Caps, c: Counters, amount: u64, now: u64) {
    caps.perPeriod.Some? && SaturatingAdd(Spent(c, Bucket(caps, now)), amount) > caps.perPeriod.value
  }

  predicate Admits(caps: Caps, c: Counters, amount: u64, now: u64) { !OverTx(caps, amount) && !OverPeriod(caps, c, amount, now) }

  function Charged(caps: Caps, c: Counters, amount: u64, now: u64): Counters {
    if caps.perPeriod.None? then c
    else c[Bucket(caps, now) := SaturatingAdd(Spent(c, Bucket(caps, now)), amount)]
  }

  function Refunded(caps: Caps, c: Counters, amount: u64, now: u64): Counters {
    if caps.perPeriod.None? then c
    else c[Bucket(caps, now) := SaturatingSub(Spent(c, Bucket(caps, now)), amount)]
  }

  /** `io` says whether the write transaction goes through. */
  class Ledger {
    const caps: Caps
    var counters: Counters

    constructor (caps: Caps)
      ensures this.caps == caps && counters == map[]
    {
      this.caps, counters := caps, map[];
    }

    method CheckPerTx(amount: u64) returns (r: Result<(), Failure>)
      ensures r.Err? <==> caps.perTx.Some? && amount > caps.perTx.value
    {
      if caps.perTx.Some? && amount > caps.perTx.value {
        return Err(AllowanceExceeded(PerTx(caps.perTx.value, amount)));
      }
      return Ok(());
    }

    method Reserve(amount: u64, now: u64, io: bool) returns (r: Result<(), Failure>)
      modifies this
      ensures r == Ok(()) ==> Admits(caps, old(counters), amount, now) && counters == Charged(caps, old(counters), amount, now)
      ensures r != Ok(()) ==> counters == old(counters)
      ensures io ==> (r == Ok(()) <==> Admits(caps, old(counters), amount, now))
      ensures OverTx(caps, amount) ==> r == Err(AllowanceExceeded(PerTx(caps.perTx.value, amount)))
      ensures io && !OverTx(caps, amount) && OverPeriod(caps, old(counters), amount, now) ==>
                r == Err(AllowanceExceeded(PerPeriod(caps.perPeriod.value, Spent(old(counters), Bucket(caps, now)), amount)))
    {
      if caps.perTx.Some? && amount > caps.perTx.value {
        return Err(AllowanceExceeded(PerTx(caps.perTx.value, amount)));
      }
      if caps.perPeriod.None? { return Ok(()); }
      if !io { return Err(Storage); }
      var limit, bucket := caps.perPeriod.value, Bucket(caps, now);
      var spent := if bucket in counters then counters[bucket] else 0;
      if SaturatingAdd(spent, amount) > limit {
        return Err(AllowanceExceeded(PerPeriod(limit, spent, amount)));
      }
      counters := counters[bucket := SaturatingAdd(spent, amount)];
      return Ok(());
    }

    method Refund(amount: u64, now: u64, io: bool)
      modifies this
      ensures counters == if io then Refunded(caps, old(counters), amount, now) else old(counters)
    {
      if caps.perPeriod.None? || !io { return; }
      var bucket := Bucket(caps, now);
      var spent := if bucket in counters then counters[bucket] else 0;
      counters := counters[bucket := SaturatingSub(spent, amount)];
    }

    /** The remaining figure is the largest single amount the window still admits. */
    method GetStatus(now: u64) returns (s: Status)
      ensures caps.perPeriod.Some? ==>
                s.remaining.Some? && (Spent(counters, Bucket(caps, now)) <= caps.perPeriod.value < U64_MAX ==>
                  forall a: u64 :: a <= s.remaining.value <==> !OverPeriod(caps, counters, a, now))
      ensures caps.perPeriod.Some? && 0 < caps.periodSecs && now < U64_MAX - caps.periodSecs ==>
                s.resetsAt.Some? && now < s.resetsAt.value <= now + caps.periodSecs
                && Bucket(caps, s.resetsAt.value) == Bucket(caps, now) + 1
    {
      if caps.perPeriod.Some? {
        var bucket := Bucket(caps, now);
        var spent := Spent(counters, bucket);
        var resets := Min(SaturatingAdd(bucket, 1) * caps.periodSecs, U64_MAX);
        s := Status(spent, Some(SaturatingSub(caps.perPeriod.value, spent)), Some(resets));
        if 0 < caps.periodSecs && now < U64_MAX - caps.periodSecs { NextBucket(now, caps.periodSecs); }
      } else {
        s := Status(0, None, None);
      }
    }
  }

  lemma NextBucket(now: nat, period: nat)
    requires period > 0
    ensures now < (now / period + 1) * period <= now + period
    ensures (now / period + 1) * period / period == now / period + 1
  {
    MultipleDivides(now / period + 1, period);
  }

  lemma MultipleDivides(k: nat, period: nat)
    requires period > 0
    ensures k * period / period == k
  {
    QuotientBetween(k * period, period, k, k);
  }

  lemma Monotone(a: nat, b: nat, period: nat)
    requires a <= b
    ensures a * period <= b * period
  {
  }

  lemma QuotientBetween(t: nat, period: nat, low: nat, high: nat)
    requires period > 0 && low * period <= t < (high + 1) * period
    ensures low <= t / period <= high
  {
    var d := t / period;
    assert d * period <= t < (d + 1) * period;
    if d < low { Monotone(d + 1, low, period); }
    if d > high { Monotone(high + 1, d, period); }
  }

  // ----- requests -----

  /** A spend request reserves, broadcasts, and refunds when the broadcast fails.  `at` is read once, when the
      request arrives, and names the bucket both for the reservation and for the refund; `tried` is when the
      reservation was made, which may be later. */
  datatype Phase = Pending | Reserved | Sent | Refused | GaveBack | RefundLost

  datatype Request = Request(amount: u64, at: u64, phase: Phase, tried: u64)

  datatype World = World(counters: Counters, reqs: seq<Request>)

  datatype Step =
    | Arrive(amount: u64, at: u64)
    | TryReserve(id: nat, io: bool, now: u64)
    | BroadcastOk(id: nat)
    | BroadcastFails(id: nat, io: bool)

  predicate Enabled(w: World, s: Step) {
    match s
    case Arrive(_, _) => true
    case TryReserve(id, _, now) => id < |w.reqs| && w.reqs[id].phase == Pending && w.reqs[id].at <= now
    case BroadcastOk(id) => id < |w.reqs| && w.reqs[id].phase == Reserved
    case BroadcastFails(id, _) => id < |w.reqs| && w.reqs[id].phase == Reserved
  }

  function To(w: World, id: nat, p: Phase): seq<Request>
    requires id < |w.reqs|
  {
    w.reqs[id := w.reqs[id].(phase := p)]
  }

  function Next(caps: Caps, w: World, s: Step): World
    requires Enabled(w, s)
  {
    match s
    case Arrive(amount, at) => w.(reqs := w.reqs + [Request(amount, at, Pending, at)])
    case TryReserve(id, io, now) =>
      var r := w.reqs[id];
      if Admits(caps, w.counters, r.amount, r.at) && (io || caps.perPeriod.None?)
      then World(Charged(caps, w.counters, r.amount, r.at), w.reqs[id := r.(phase := Reserved, tried := now)])
      else w.(reqs := To(w, id, Refused))
    case BroadcastOk(id) => w.(reqs := To(w, id, Sent))
    case BroadcastFails(id, io) =>
      if io || caps.perPeriod.None?
      then World(Refunded(caps, w.counters, w.reqs[id].amount, w.reqs[id].at), To(w, id, GaveBack))
      else w.(reqs := To(w, id, RefundLost))
  }

  const EMPTY: World := World(map[], [])

  predicate IsRun(caps: Caps, run: seq<World>, steps: seq<Step>) {
    && |run| == |steps| + 1 && run[0] == EMPTY
    && forall i :: 0 <= i < |steps| ==> Enabled(run[i], steps[i]) && run[i + 1] == Next(caps, run[i], steps[i])
  }

  /** Reserved and not given back: live spends. */
  predicate Live(p: Phase) { p in {Reserved, Sent} }

  /** Also what a failed refund left behind. */
  predicate Held(p: Phase) { Live(p) || p == RefundLost }

  type Window = Request -> bool

  /** The sum of the amounts of held (or only live) requests of a window. */
  function Total(reqs: seq<Request>, window: Window, onlyLive: bool): nat {
    if reqs == [] then 0
    else Total(reqs[..|reqs|-1], window, onlyLive) + Share(reqs[|reqs|-1], window, onlyLive)
  }

  function Share(r: Request, window: Window, onlyLive: bool): nat {
    if window(r) && (if onlyLive then Live(r.phase) else Held(r.phase)) then r.amount else 0
  }

  lemma {:induction false} TotalUpdate(reqs: seq<Request>, id: nat, r: Request, window: Window, onlyLive: bool)
    requires id < |reqs|
    ensures Total(reqs[id := r], window, onlyLive) + Share(reqs[id], window, onlyLive)
         == Total(reqs, window, onlyLive) + Share(r, window, onlyLive)
    ensures Total(reqs, window, onlyLive) >= Share(reqs[id], window, onlyLive)
  {
    var n := |reqs| - 1;
    if id < n {
      TotalUpdate(reqs[..n], id, r, window, onlyLive);
      assert reqs[id := r][..n] == reqs[..n][id := r];
      assert reqs[id := r][n] == reqs[n] && reqs[..n][id] == reqs[id];
    } else {
      assert reqs[id := r][..n] == reqs[..n];
    }
  }

  lemma {:induction false} LiveAtMostHeld(reqs: seq<Request>, window: Window)
    ensures Total(reqs, window, true) <= Total(reqs, window, false)
    ensures (forall i :: 0 <= i < |reqs| ==> reqs[i].phase != RefundLost) ==> Total(reqs, window, true) == Total(reqs, window, false)
  {
    if reqs != [] { LiveAtMostHeld(reqs[..|reqs|-1], window); }
  }

  lemma {:induction false} TotalCovers(reqs: seq<Request>, w: Window, a: Window, b: Window)
    requires forall i :: 0 <= i < |reqs| && Live(reqs[i].phase) && w(reqs[i]) ==> a(reqs[i]) || b(reqs[i])
    ensures Total(reqs, w, true) <= Total(reqs, a, true) + Total(reqs, b, true)
  {
    if reqs != [] {
      var n := |reqs| - 1;
      assert forall i :: 0 <= i < n ==> reqs[..n][i] == reqs[i];
      TotalCovers(reqs[..n], w, a, b);
      assert Live(reqs[n].phase) && w(reqs[n]) ==> a(reqs[n]) || b(reqs[n]);
    }
  }

  function InBucket(caps: Caps, bucket: nat): Window { (r: Request) => Bucket(caps, r.at) == bucket }

  /** Arrived, or reserved, in the window's length from `start`. */
  function Arrived(caps: Caps, start: nat): Window { (r: Request) => start <= r.at < start + caps.periodSecs }

  function Tried(caps: Caps, start: nat): Window { (r: Request) => start <= r.tried < start + caps.periodSecs }

  /** The counter of each bucket is exactly what its requests hold, and within the cap. */
  ghost predicate Exact(caps: Caps, w: World) {
    caps.perPeriod.Some? ==>
      forall b: u64 :: Spent(w.counters, b) == Total(w.reqs, InBucket(caps, b), false) <= caps.perPeriod.value
  }

  lemma StepExact(caps: Caps, w: World, s: Step)
    requires Enabled(w, s) && Exact(caps, w) && (caps.perPeriod.Some? ==> caps.perPeriod.value < U64_MAX)
    ensures Exact(caps, Next(caps, w, s))
  {
    hide Exact;
    if caps.perPeriod.Some? {
      forall b: u64 ensures BucketExact(caps, Next(caps, w, s), b) { StepBucket(caps, w, s, b); }
      hide Next, Total;
      ExactWhen(caps, Next(caps, w, s));
    } else {
      ExactWhen(caps, Next(caps, w, s));
    }
  }

  predicate BucketExact(caps: Caps, w: World, b: u64)
    requires caps.perPeriod.Some?
  {
    Spent(w.counters, b) == Total(w.reqs, InBucket(caps, b), false) <= caps.perPeriod.value
  }

  lemma ExactWhen(caps: Caps, w: World)
    requires caps.perPeriod.Some? ==> forall b: u64 :: BucketExact(caps, w, b)
    ensures Exact(caps, w)
  {
    if caps.perPeriod.Some? {
      forall b: u64 ensures Spent(w.counters, b) == Total(w.reqs, InBucket(caps, b), false) <= caps.perPeriod.value {
        assert BucketExact(caps, w, b);
      }
    }
  }

  lemma StepBucket(caps: Caps, w: World, s: Step, b: u64)
    requires Enabled(w, s) && Exact(caps, w) && caps.perPeriod.Some? && caps.perPeriod.value < U64_MAX
    ensures BucketExact(caps, Next(caps, w, s), b)
  {
    hide Bucket, Total, Exact;
    var w' := Next(caps, w, s);
    CounterMatches(caps, w, b);
    match s
    case Arrive(amount, at) => TotalAppend(w.reqs, Request(amount, at, Pending, at), InBucket(caps, b));
    case TryReserve(id, io, _) => TotalUpdate(w.reqs, id, w'.reqs[id], InBucket(caps, b), false);
    case BroadcastOk(id) => TotalUpdate(w.reqs, id, w'.reqs[id], InBucket(caps, b), false);
    case BroadcastFails(id, io) => TotalUpdate(w.reqs, id, w'.reqs[id], InBucket(caps, b), false);
  }

  lemma CounterMatches(caps: Caps, w: World, b: u64)
    requires Exact(caps, w) && caps.perPeriod.Some?
    ensures Spent(w.counters, b) == Total(w.reqs, InBucket(caps, b), false) <= caps.perPeriod.value
  {
  }

  lemma TotalAppend(reqs: seq<Request>, r: Request, window: Window)
    ensures Total(reqs + [r], window, false) == Total(reqs, window, false) + Share(r, window, false)
  {
    assert (reqs + [r])[..|reqs|] == reqs;
  }

  lemma {:induction false} RunExact(caps: Caps, run: seq<World>, steps: seq<Step>, n: nat)
    requires IsRun(caps, run, steps) && n < |run| && (caps.perPeriod.Some? ==> caps.perPeriod.value < U64_MAX)
    ensures Exact(caps, run[n])
    decreases n
  {
    if n > 0 {
      RunExact(caps, run, steps, n - 1);
      StepExact(caps, run[n-1], steps[n-1]);
    }
  }

  /** Over every interleaving: per bucket the counter is what is reserved and not refunded plus what failed
      refunds left behind, never above the cap; the live spends that arrived in any period_secs consecutive seconds
      make at most twice the cap. */
  lemma SpendCap(caps: Caps, run: seq<World>, steps: seq<Step>, n: nat, b: u64, start: u64)
    requires IsRun(caps, run, steps) && n < |run| && caps.perPeriod.Some? && caps.perPeriod.value < U64_MAX
    ensures Total(run[n].reqs, InBucket(caps, b), true) <= Spent(run[n].counters, b) <= caps.perPeriod.value
    ensures (forall i :: 0 <= i < |run[n].reqs| ==> run[n].reqs[i].phase != RefundLost)
            ==> Spent(run[n].counters, b) == Total(run[n].reqs, InBucket(caps, b), true)
    ensures Total(run[n].reqs, Arrived(caps, start), true) <= 2 * caps.perPeriod.value
  {
    RunExact(caps, run, steps, n);
    var reqs := run[n].reqs;
    CounterMatches(caps, run[n], b);
    LiveAtMostHeld(reqs, InBucket(caps, b));
    WindowCap(caps, run[n], start);
  }

  lemma WindowCap(caps: Caps, w: World, start: u64)
    requires Exact(caps, w) && caps.perPeriod.Some?
    ensures Total(w.reqs, Arrived(caps, start), true) <= 2 * caps.perPeriod.value
  {
    hide Exact, Total;
    forall i | 0 <= i < |w.reqs| && Arrived(caps, start)(w.reqs[i])
      ensures InBucket(caps, Bucket(caps, start))(w.reqs[i]) || InBucket(caps, Bucket(caps, start) + 1)(w.reqs[i])
    {
      TwoBuckets(start, w.reqs[i].at, caps.periodSecs);
    }
    TwoBucketsCap(caps, w, Arrived(caps, start), Bucket(caps, start));
  }

  /** Two neighbouring buckets hold at most twice the cap. */
  lemma TwoBucketsCap(caps: Caps, w: World, window: Window, first: u64)
    requires Exact(caps, w) && caps.perPeriod.Some?
    requires forall i :: 0 <= i < |w.reqs| && Live(w.reqs[i].phase) && window(w.reqs[i]) ==>
               InBucket(caps, first)(w.reqs[i]) || InBucket(caps, first + 1)(w.reqs[i])
    ensures Total(w.reqs, window, true) <= 2 * caps.perPeriod.value
  {
    hide Bucket;
    TotalCovers(w.reqs, window, InBucket(caps, first), InBucket(caps, first + 1));
    LiveAtMostHeld(w.reqs, InBucket(caps, first));
    CounterMatches(caps, w, first);
    LiveAtMostHeld(w.reqs, InBucket(caps, first + 1));
    if first < U64_MAX { CounterMatches(caps, w, first + 1); }
    else { NoSuchBucket(caps, w.reqs, first + 1); }
  }

  lemma {:induction false} NoSuchBucket(caps: Caps, reqs: seq<Request>, b: nat)
    requires b > U64_MAX
    ensures Total(reqs, InBucket(caps, b), true) == 0
  {
    if reqs != [] { NoSuchBucket(caps, reqs[..|reqs|-1], b); }
  }

  lemma TwoBuckets(start: nat, t: nat, period: nat)
    requires start <= t <= start + period && period > 0
    ensures t / period == start / period || t / period == start / period + 1
  {
    var q := start / period;
    assert q * period <= start < (q + 1) * period;
    assert q * period <= t < (q + 2) * period by { assert (q + 2) * period == (q + 1) * period + period; }
    QuotientBetween(t, period, q, q + 1);
  }

  /** In every run of these caps the live spend of a bucket stays within its counter. */
  ghost predicate CounterCovers(caps: Caps) {
    forall run: seq<World>, steps: seq<Step>, n: nat, b: u64 :: IsRun(caps, run, steps) && n < |run| ==>
      Total(run[n].reqs, InBucket(caps, b), true) <= Spent(run[n].counters, b)
  }

  /** With a period cap, that holds exactly for caps below u64::MAX, or when a per-transaction cap of zero admits
      nothing: at u64::MAX the saturated sum never exceeds the cap, and the counter stops short of what was
      reserved. */
  lemma CoversIff(caps: Caps)
    requires caps.perPeriod.Some?
    ensures CounterCovers(caps) <==> caps.perPeriod.value < U64_MAX || caps.perTx == Some(0)
  {
    if caps.perPeriod.value < U64_MAX {
      forall run: seq<World>, steps: seq<Step>, n: nat, b: u64 | IsRun(caps, run, steps) && n < |run|
        ensures Total(run[n].reqs, InBucket(caps, b), true) <= Spent(run[n].counters, b)
      {
        SpendCap(caps, run, steps, n, b, 0);
      }
    } else if caps.perTx == Some(0) {
      forall run: seq<World>, steps: seq<Step>, n: nat, b: u64 | IsRun(caps, run, steps) && n < |run|
        ensures Total(run[n].reqs, InBucket(caps, b), true) <= Spent(run[n].counters, b)
      {
        NothingLive(caps, run, steps, n);
        NothingTotal(run[n].reqs, InBucket(caps, b));
      }
    } else {
      var run, steps := ManyReserved(caps, U64_MAX + 1);
      var n := |run| - 1;
      assert Total(run[n].reqs, InBucket(caps, Bucket(caps, 0)), true) > Spent(run[n].counters, Bucket(caps, 0));
    }
  }

  /** With a per-transaction cap of zero only zero amounts are ever live. */
  ghost predicate OnlyZeroLive(reqs: seq<Request>) { forall i :: 0 <= i < |reqs| && Live(reqs[i].phase) ==> reqs[i].amount == 0 }

  lemma {:induction false} NothingLive(caps: Caps, run: seq<World>, steps: seq<Step>, n: nat)
    requires IsRun(caps, run, steps) && n < |run| && caps.perTx == Some(0)
    ensures OnlyZeroLive(run[n].reqs)
    decreases n
  {
    if n > 0 {
      NothingLive(caps, run, steps, n - 1);
      hide Charged, Refunded, OverPeriod;
      assert run[n] == Next(caps, run[n-1], steps[n-1]);
    }
  }

  lemma {:induction false} NothingTotal(reqs: seq<Request>, window: Window)
    requires OnlyZeroLive(reqs)
    ensures Total(reqs, window, true) == 0
  {
    if reqs != [] { NothingTotal(reqs[..|reqs|-1], window); }
  }

  /** Any number of reservations of one unit, all admitted at time 0. */
  lemma {:induction false} ManyReserved(caps: Caps, k: nat) returns (run: seq<World>, steps: seq<Step>)
    requires caps.perPeriod == Some(U64_MAX) && caps.perTx != Some(0)
    ensures IsRun(caps, run, steps)
    ensures var w, b := run[|run|-1], Bucket(caps, 0); |w.reqs| == k && Total(w.reqs, InBucket(caps, b), true) == k && Spent(w.counters, b) == Min(k, U64_MAX)
  {
    if k == 0 {
      run, steps := [EMPTY], [];
    } else {
      run, steps := ManyReserved(caps, k - 1);
      var w, b := run[|run|-1], Bucket(caps, 0);
      var w1 := Next(caps, w, Arrive(1, 0));
      var w2 := Next(caps, w1, TryReserve(k - 1, true, 0));
      OneReserved(caps, w, k - 1);
      hide Next, Enabled, Total;
      run, steps := run + [w1, w2], steps + [Arrive(1, 0), TryReserve(k - 1, true, 0)];
    }
  }

  lemma OneReserved(caps: Caps, w: World, k: nat)
    requires caps.perPeriod == Some(U64_MAX) && caps.perTx != Some(0)
    requires |w.reqs| == k && Total(w.reqs, InBucket(caps, Bucket(caps, 0)), true) == k && Spent(w.counters, Bucket(caps, 0)) == Min(k, U64_MAX)
    ensures var w1 := Next(caps, w, Arrive(1, 0));
            && Enabled(w, Arrive(1, 0)) && Enabled(w1, TryReserve(k, true, 0))
            && (var w2, b := Next(caps, w1, TryReserve(k, true, 0)), Bucket(caps, 0);
                && |w2.reqs| == k + 1 && Total(w2.reqs, InBucket(caps, b), true) == k + 1
                && Spent(w2.counters, b) == Min(k + 1, U64_MAX))
  {
    hide Bucket, InBucket;
    var w1 := Next(caps, w, Arrive(1, 0));
    var w2 := Next(caps, w1, TryReserve(k, true, 0));
    assert w2.reqs == w.reqs + [Request(1, 0, Reserved, 0)];
    assert w2.reqs[..k] == w.reqs;
    assert InBucket(caps, Bucket(caps, 0))(Request(1, 0, Reserved, 0)) by { InOwnBucket(caps, Request(1, 0, Reserved, 0)); }
  }

  lemma InOwnBucket(caps: Caps, r: Request)
    ensures InBucket(caps, Bucket(caps, r.at))(r)
  {
  }

  /** Two reservations of everything, both admitted. */
  lemma FullCapOverflows(caps: Caps)
    requires caps.perPeriod == Some(U64_MAX) && caps.perTx.None?
    ensures exists run: seq<World>, steps: seq<Step> :: IsRun(caps, run, steps) && |run| == 5
              && Total(run[4].reqs, InBucket(caps, Bucket(caps, 0)), true) == 2 * U64_MAX
              && Spent(run[4].counters, Bucket(caps, 0)) == U64_MAX
  {
    var s0 := Arrive(U64_MAX, 0);
    var w1 := Next(caps, EMPTY, s0);
    var w2 := Next(caps, w1, TryReserve(0, true, 0));
    var w3 := Next(caps, w2, s0);
    var w4 := Next(caps, w3, TryReserve(1, true, 0));
    var run, steps := [EMPTY, w1, w2, w3, w4], [s0, TryReserve(0, true, 0), s0, TryReserve(1, true, 0)];
    assert w4.reqs == [Request(U64_MAX, 0, Reserved, 0), Request(U64_MAX, 0, Reserved, 0)];
    assert Total(w4.reqs[..1], InBucket(caps, Bucket(caps, 0)), true) == U64_MAX;
    assert IsRun(caps, run, steps);
  }

  // ----- counted by when they reserve -----

  /** Every reservation came at most `delay` seconds after its request. */
  predicate Prompt(reqs: seq<Request>, delay: nat) {
    forall i :: 0 <= i < |reqs| && Live(reqs[i].phase) ==> reqs[i].at <= reqs[i].tried <= reqs[i].at + delay
  }

  /** The clock of a run never goes back. */
  predicate InOrder(steps: seq<Step>) {
    steps == [] || (InOrder(steps[..|steps|-1]) && Clock(steps[..|steps|-1]) <= Clock(steps))
  }

  function Clock(steps: seq<Step>): nat {
    if steps == [] then 0
    else
      match steps[|steps|-1]
      case Arrive(_, at) => at
      case TryReserve(_, _, now) => now
      case _ => Clock(steps[..|steps|-1])
  }

  /** In every run the live spends that reserved in any period_secs consecutive seconds make at most twice the cap. */
  ghost predicate TwiceCap(caps: Caps, delay: nat)
    requires caps.perPeriod.Some?
  {
    forall run: seq<World>, steps: seq<Step>, n: nat, start: u64 ::
      IsRun(caps, run, steps) && InOrder(steps) && n < |run| && Prompt(run[n].reqs, delay) ==>
        Total(run[n].reqs, Tried(caps, start), true) <= 2 * caps.perPeriod.value
  }

  /** That holds exactly when reservations follow their requests within a second, or nothing can be reserved, or the
      clock has no third window: two seconds late is enough for three windows to meet in one stretch. */
  lemma TwiceCapIff(caps: Caps, delay: nat)
    requires caps.perPeriod.Some? && caps.perPeriod.value < U64_MAX
    ensures TwiceCap(caps, delay) <==>
              delay <= 1 || caps.perPeriod == Some(0) || caps.perTx == Some(0) || caps.periodSecs == 0 || 2 * caps.periodSecs > U64_MAX
  {
    if delay <= 1 || caps.perPeriod == Some(0) || caps.perTx == Some(0) || caps.periodSecs == 0 || 2 * caps.periodSecs > U64_MAX {
      forall run: seq<World>, steps: seq<Step>, n: nat, start: u64 |
        IsRun(caps, run, steps) && InOrder(steps) && n < |run| && Prompt(run[n].reqs, delay)
        ensures Total(run[n].reqs, Tried(caps, start), true) <= 2 * caps.perPeriod.value
      {
        hide Exact, Prompt, Total, InOrder;
        RunExact(caps, run, steps, n);
        if caps.perTx == Some(0) { NothingLive(caps, run, steps, n); NothingTotal(run[n].reqs, Tried(caps, start)); }
        else { TriedCap(caps, run[n], start, delay); }
      }
    } else {
      var run, steps, n := ThreeWindows(caps);
      assert Prompt(run[n].reqs, delay);
      var start: u64 := caps.periodSecs + 1;
      assert Total(run[n].reqs, Tried(caps, start), true) > 2 * caps.perPeriod.value;
    }
  }

  lemma TriedCap(caps: Caps, w: World, start: u64, delay: nat)
    requires Exact(caps, w) && caps.perPeriod.Some? && Prompt(w.reqs, delay)
    requires delay <= 1 || caps.perPeriod == Some(0) || caps.periodSecs == 0 || 2 * caps.periodSecs > U64_MAX
    ensures Total(w.reqs, Tried(caps, start), true) <= 2 * caps.perPeriod.value
  {
    hide Exact, Total;
    if caps.perPeriod == Some(0) {
      ZeroCap(caps, w);
      NothingTotal(w.reqs, Tried(caps, start));
    } else if caps.periodSecs == 0 {
      TwoBucketsCap(caps, w, Tried(caps, start), 0);
    } else if delay <= 1 {
      var from := if start == 0 then 0 else start - 1;
      forall i | 0 <= i < |w.reqs| && Live(w.reqs[i].phase) && Tried(caps, start)(w.reqs[i])
        ensures InBucket(caps, Bucket(caps, from))(w.reqs[i]) || InBucket(caps, Bucket(caps, from) + 1)(w.reqs[i])
      {
        TwoBuckets(from, w.reqs[i].at, caps.periodSecs);
      }
      TwoBucketsCap(caps, w, Tried(caps, start), Bucket(caps, from));
    } else {
      forall i | 0 <= i < |w.reqs| ensures InBucket(caps, 0)(w.reqs[i]) || InBucket(caps, 1)(w.reqs[i]) {
        QuotientBetween(w.reqs[i].at, caps.periodSecs, 0, 1);
      }
      TwoBucketsCap(caps, w, Tried(caps, start), 0);
    }
  }

  lemma ZeroCap(caps: Caps, w: World)
    requires Exact(caps, w) && caps.perPeriod == Some(0)
    ensures OnlyZeroLive(w.reqs)
  {
    hide Exact, Bucket;
    forall i | 0 <= i < |w.reqs| && Live(w.reqs[i].phase) ensures w.reqs[i].amount == 0 {
      var r := w.reqs[i];
      CounterMatches(caps, w, Bucket(caps, r.at));
      TotalUpdate(w.reqs, i, r, InBucket(caps, Bucket(caps, r.at)), false);
      InOwnBucket(caps, r);
    }
  }

  // ----- three windows in one stretch -----

  function Many(k: nat, r: Request): (s: seq<Request>)
    ensures |s| == k && forall i :: 0 <= i < k ==> s[i] == r
  {
    if k == 0 then [] else Many(k - 1, r) + [r]
  }

  lemma {:induction false} TotalMany(front: seq<Request>, k: nat, r: Request, window: Window)
    requires r.amount == 1 && Live(r.phase) && window(r)
    ensures Total(front + Many(k, r), window, true) == Total(front, window, true) + k
  {
    if k == 0 {
      assert front + [] == front;
    } else {
      TotalMany(front, k - 1, r, window);
      var all := front + Many(k, r);
      assert all[..|all|-1] == front + Many(k - 1, r);
    }
  }

  function Waiting(at: u64): Request { Request(1, at, Pending, at) }

  function Charge(at: u64, now: u64): Request { Request(1, at, Reserved, now) }

  /** A run so far, in the order of its clock, and the world it stands at. */
  predicate StandsAt(caps: Caps, run: seq<World>, steps: seq<Step>, w: World, clock: nat) {
    IsRun(caps, run, steps) && InOrder(steps) && Clock(steps) <= clock && run[|run|-1] == w
  }

  lemma Goes(caps: Caps, run: seq<World>, steps: seq<Step>, w: World, clock: nat, step: Step) returns (run': seq<World>, steps': seq<Step>)
    requires StandsAt(caps, run, steps, w, clock) && Enabled(w, step) && Clock([step]) >= clock && !step.BroadcastOk? && !step.BroadcastFails?
    ensures StandsAt(caps, run', steps', Next(caps, w, step), Clock([step]))
  {
    hide Enabled, Next;
    run', steps' := run + [Next(caps, w, step)], steps + [step];
    assert steps'[..|steps|] == steps;
  }

  /** `k` requests of one unit arrive at `at`. */
  lemma {:induction false} Arrivals(caps: Caps, run: seq<World>, steps: seq<Step>, w: World, clock: nat, k: nat, at: u64)
    returns (run': seq<World>, steps': seq<Step>)
    requires StandsAt(caps, run, steps, w, clock) && clock <= at
    ensures StandsAt(caps, run', steps', w.(reqs := w.reqs + Many(k, Waiting(at))), at)
  {
    hide StandsAt;
    if k == 0 {
      run', steps' := run, steps;
      assert w.reqs + [] == w.reqs;
      assert StandsAt(caps, run, steps, w, at) by { Waits(caps, run, steps, w, clock, at); }
    } else {
      run', steps' := Arrivals(caps, run, steps, w, clock, k - 1, at);
      var r := Waiting(at);
      var mid := w.(reqs := w.reqs + Many(k - 1, r));
      run', steps' := Goes(caps, run', steps', mid, at, Arrive(1, at));
      assert mid.reqs + [r] == w.reqs + Many(k, r);
    }
  }

  lemma Waits(caps: Caps, run: seq<World>, steps: seq<Step>, w: World, clock: nat, later: nat)
    requires StandsAt(caps, run, steps, w, clock) && clock <= later
    ensures StandsAt(caps, run, steps, w, later)
  {
  }

  /** They all reserve at `now`. */
  lemma {:induction false} Reservations(
      caps: Caps, run: seq<World>, steps: seq<Step>, c: Counters, front: seq<Request>, k: nat, back: seq<Request>, at: u64, now: u64)
    returns (run': seq<World>, steps': seq<Step>, c': Counters)
    requires StandsAt(caps, run, steps, World(c, front + Many(k, Waiting(at)) + back), now) && at <= now
    requires caps.perPeriod.Some? && Spent(c, Bucket(caps, at)) + k <= caps.perPeriod.value < U64_MAX && caps.perTx != Some(0)
    ensures StandsAt(caps, run', steps', World(c', front + Many(k, Charge(at, now)) + back), now)
    ensures forall b: u64 :: b != Bucket(caps, at) ==> Spent(c', b) == Spent(c, b)
    decreases k
  {
    hide StandsAt, Bucket;
    if k == 0 {
      run', steps', c' := run, steps, c;
    } else {
      var p, r := Waiting(at), Charge(at, now);
      var w, id := World(c, front + Many(k, p) + back), |front| + k - 1;
      assert w.reqs[id] == p;
      run', steps' := Goes(caps, run, steps, w, now, TryReserve(id, true, now));
      var c1 := Charged(caps, c, 1, at);
      assert w.reqs[id := r] == front + Many(k - 1, p) + ([r] + back);
      run', steps', c' := Reservations(caps, run', steps', c1, front, k - 1, [r] + back, at, now);
      assert front + Many(k - 1, r) + ([r] + back) == front + Many(k, r) + back;
    }
  }

  /** Two windows' worth of requests, a second apart, reserve together. */
  lemma TwoWindows(caps: Caps, k: nat, p: u64) returns (run: seq<World>, steps: seq<Step>, c: Counters)
    requires caps.perPeriod == Some(k) && k < U64_MAX && caps.perTx != Some(0) && 0 < p < U64_MAX
    requires Bucket(caps, p - 1) == 0 && Bucket(caps, p) == 1
    ensures StandsAt(caps, run, steps, World(c, [] + Many(k, Charge(p - 1, p + 1)) + Many(k, Charge(p, p + 1))), p + 1)
    ensures forall b: u64 :: b > 1 ==> Spent(c, b) == 0
  {
    assert StandsAt(caps, [EMPTY], [], EMPTY, 0);
    hide StandsAt, Bucket;
    run, steps := Arrivals(caps, [EMPTY], [], EMPTY, 0, k, p - 1);
    var one := [] + Many(k, Waiting(p - 1));
    run, steps := Arrivals(caps, run, steps, World(map[], one), p - 1, k, p);
    Waits(caps, run, steps, World(map[], one + Many(k, Waiting(p))), p, p + 1);
    c := map[];
    run, steps, c := Reservations(caps, run, steps, c, [], k, Many(k, Waiting(p)), p - 1, p + 1);
    var front := [] + Many(k, Charge(p - 1, p + 1));
    assert front + Many(k, Waiting(p)) + [] == front + Many(k, Waiting(p));
    run, steps, c := Reservations(caps, run, steps, c, front, k, [], p, p + 1);
    assert front + Many(k, Charge(p, p + 1)) + [] == front + Many(k, Charge(p, p + 1));
  }

  /** And a third, at the start of the window after those, at once. */
  lemma ThirdWindow(caps: Caps, k: nat, p: u64) returns (run: seq<World>, steps: seq<Step>, c: Counters)
    requires caps.perPeriod == Some(k) && k < U64_MAX && caps.perTx != Some(0) && 0 < p && 2 * p <= U64_MAX
    requires Bucket(caps, p - 1) == 0 && Bucket(caps, p) == 1 && Bucket(caps, 2 * p) == 2
    ensures StandsAt(caps, run, steps, World(c, LateReserves(k, p)), 2 * p)
  {
    hide StandsAt, Bucket;
    run, steps, c := TwoWindows(caps, k, p);
    var front := [] + Many(k, Charge(p - 1, p + 1)) + Many(k, Charge(p, p + 1));
    run, steps := Arrivals(caps, run, steps, World(c, front), p + 1, k, 2 * p);
    assert front + Many(k, Waiting(2 * p)) + [] == front + Many(k, Waiting(2 * p));
    run, steps, c := Reservations(caps, run, steps, c, front, k, [], 2 * p, 2 * p);
    assert front + Many(k, Charge(2 * p, 2 * p)) + [] == front + Many(k, Charge(2 * p, 2 * p));
  }

  function LateReserves(k: nat, p: u64): seq<Request>
    requires 0 < p && 2 * p <= U64_MAX
  {
    [] + Many(k, Charge(p - 1, p + 1)) + Many(k, Charge(p, p + 1)) + Many(k, Charge(2 * p, 2 * p))
  }

  /** Three windows' worth, reserved within one window's length and at most two seconds late. */
  lemma ThreeWindows(caps: Caps) returns (run: seq<World>, steps: seq<Step>, n: nat)
    requires caps.perPeriod.Some? && 0 < caps.perPeriod.value < U64_MAX && caps.perTx != Some(0)
    requires 0 < caps.periodSecs && 2 * caps.periodSecs <= U64_MAX
    ensures IsRun(caps, run, steps) && InOrder(steps) && n < |run| && Prompt(run[n].reqs, 2)
    ensures Total(run[n].reqs, Tried(caps, caps.periodSecs + 1), true) == 3 * caps.perPeriod.value
  {
    var k, p := caps.perPeriod.value, caps.periodSecs;
    QuotientBetween(p - 1, p, 0, 0);
    QuotientBetween(p, p, 1, 1);
    QuotientBetween(2 * p, p, 2, 2);
    var c;
    run, steps, c := ThirdWindow(caps, k, p);
    Stands(caps, run, steps, World(c, LateReserves(k, p)), 2 * p);
    n := |run| - 1;
    LateTotal(caps, k, p);
  }

  lemma LateTotal(caps: Caps, k: nat, p: u64)
    requires caps.periodSecs == p && 0 < p && 2 * p <= U64_MAX
    ensures Prompt(LateReserves(k, p), 2) && Total(LateReserves(k, p), Tried(caps, p + 1), true) == 3 * k
  {
    var window := Tried(caps, p + 1);
    var one := [] + Many(k, Charge(p - 1, p + 1));
    TotalMany([], k, Charge(p - 1, p + 1), window);
    TotalMany(one, k, Charge(p, p + 1), window);
    TotalMany(one + Many(k, Charge(p, p + 1)), k, Charge(2 * p, 2 * p), window);
  }

  lemma Stands(caps: Caps, run: seq<World>, steps: seq<Step>, w: World, clock: nat)
    requires StandsAt(caps, run, steps, w, clock)
    ensures IsRun(caps, run, steps) && InOrder(steps) && run[|run|-1] == w
  {
  }
}
