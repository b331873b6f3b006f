/** The idempotency cache (src/idempotency.rs) under concurrent callers. */
module Idempotency {
  import opened Common

  type Token = nat
  type Receipt = nat

  datatype Slot = InFlight | Done(storedAt: nat, fingerprint: nat, receipt: Receipt)

  type Slots = map<Token, Slot>

  datatype Action = Return(r: Receipt) | Conflict | Wait | Compute

  const TTL: nat := 3600
  const MAX_DONE_ENTRIES: nat := 10_000

  predicate Fresh(s: Slot, now: nat) { s.InFlight? || now < s.storedAt + TTL }

  function Gc(slots: Slots, now: nat): Slots { map k | k in slots && Fresh(slots[k], now) :: slots[k] }

  // ----- the two critical sections of get_or_run -----

  function EnterAction(slots: Slots, token: Token, fp: nat): Action {
    if token !in slots then Compute
    else match slots[token]
      case InFlight => Wait
      case Done(_, f, r) => if f == fp then Return(r) else Conflict
  }

  function Entered(slots: Slots, token: Token, fp: nat, now: nat): Slots {
    var live := Gc(slots, now);
    if token in live then live else live[token := InFlight]
  }

  predicate IsOldestDone(slots: Slots, k: Token) {
    && k in slots && slots[k].Done?
    && forall j :: j in slots && slots[j].Done? ==> slots[k].storedAt <= slots[j].storedAt
  }

  /** Which slot drop_oldest_done removes; ties are broken by map order, so any oldest one will do. */
  predicate Evicts(slots: Slots, victim: Option<Token>) {
    match victim
    case Some(k) => |slots| >= MAX_DONE_ENTRIES && IsOldestDone(slots, k)
    case None => |slots| < MAX_DONE_ENTRIES || forall k :: k in slots ==> slots[k].InFlight?
  }

  function Without(slots: Slots, victim: Option<Token>): Slots {
    match victim
    case Some(k) => slots - {k}
    case None => slots
  }

  /** After the computation: a receipt is stored, a failure leaves no trace. */
  function Left(slots: Slots, token: Token, fp: nat, result: Option<Receipt>, now: nat, victim: Option<Token>): Slots {
    match result
    case Some(r) => Without(slots, victim)[token := Done(now, fp, r)]
    case None => slots - {token}
  }

  class Cache {
    var slots: Slots

    constructor ()
      ensures slots == map[]
    {
      slots := map[];
    }

    method Enter(token: Token, fp: nat, now: nat) returns (a: Action)
      modifies this
      ensures a == EnterAction(Gc(old(slots), now), token, fp) && slots == Entered(old(slots), token, fp, now)
    {
      slots := Gc(slots, now);
      if token in slots {
        match slots[token]
        case Done(_, stored, receipt) =>
          if stored == fp { return Return(receipt); } else { return Conflict; }
        case InFlight => return Wait;
      } else {
        slots := slots[token := InFlight];
        return Compute;
      }
    }

    method Leave(token: Token, fp: nat, result: Option<Receipt>, now: nat) returns (ghost victim: Option<Token>)
      modifies this
      ensures result.Some? ==> Evicts(old(slots), victim)
      ensures slots == Left(old(slots), token, fp, result, now, victim)
    {
      victim := None;
      match result
      case Some(r) =>
        if |slots| >= MAX_DONE_ENTRIES { victim := DropOldestDone(); }
        slots := slots[token := Done(now, fp, r)];
      case None =>
        slots := slots - {token};
    }

    method DropOldestDone() returns (ghost victim: Option<Token>)
      modifies this
      ensures slots == Without(old(slots), victim)
      ensures match victim
              case Some(k) => IsOldestDone(old(slots), k)
              case None => forall k :: k in old(slots) ==> old(slots)[k].InFlight?
    {
      var oldest: Option<Token> := None;
      var todo := slots.Keys;
      while todo != {}
        invariant todo <= slots.Keys && slots == old(slots)
        invariant oldest.None? ==> forall k :: k in slots && k !in todo ==> slots[k].InFlight?
        invariant oldest.Some? ==> oldest.value in slots && slots[oldest.value].Done?
        invariant forall k :: oldest.Some? && k in slots && k !in todo && slots[k].Done? ==>
                    slots[oldest.value].storedAt <= slots[k].storedAt
        decreases todo
      {
        var k :| k in todo;
        if slots[k].Done? && (oldest.None? || slots[k].storedAt < slots[oldest.value].storedAt) { oldest := Some(k); }
        todo := todo - {k};
      }
      if oldest.Some? { slots := slots - {oldest.value}; }
      victim := oldest;
    }
  }

  // ----- callers -----

  datatype CallerPhase = Waiting | Running | Served(r: Receipt) | Conflicted | Failed

  datatype Caller = Caller(token: Token, fp: nat, phase: CallerPhase)

  /** What happened to the slot of a token. */
  datatype Event =
    | Started(token: Token, who: nat)
    | Succeeded(token: Token, who: nat, fp: nat, receipt: Receipt, at: nat)
    | FailedRun(token: Token, who: nat)
    | Expired(token: Token, at: nat)
    | Evicted(token: Token)
    | Answered(token: Token, who: nat, fp: nat, receipt: Receipt)

  datatype World = World(slots: Slots, callers: seq<Caller>, now: nat, log: seq<Event>)

  /** Each critical section is one step; `expired` lists, in some order, the slots its gc removes. */
  datatype Step =
    | Call(token: Token, fp: nat)
    | Pass(secs: nat)
    | DoEnter(who: nat, expired: seq<Token>)
    | DoLeave(who: nat, result: Option<Receipt>, victim: Option<Token>)

  ghost predicate Lists(ts: seq<Token>, s: set<Token>) {
    && (forall t :: t in ts <==> t in s)
    && (forall i, j :: 0 <= i < j < |ts| ==> ts[i] != ts[j])
  }

  ghost predicate Enabled(w: World, s: Step) {
    match s
    case Call(_, _) => true
    case Pass(_) => true
    case DoEnter(who, expired) =>
      who < |w.callers| && w.callers[who].phase == Waiting && Lists(expired, w.slots.Keys - Gc(w.slots, w.now).Keys)
    case DoLeave(who, result, victim) =>
      who < |w.callers| && w.callers[who].phase == Running && (if result.Some? then Evicts(w.slots, victim) else victim == None)
  }

  function Expiries(ts: seq<Token>, now: nat): seq<Event> {
    if ts == [] then [] else Expiries(ts[..|ts|-1], now) + [Expired(ts[|ts|-1], now)]
  }

  ghost function Next(w: World, s: Step): World
    requires Enabled(w, s)
  {
    match s
    case Call(token, fp) => w.(callers := w.callers + [Caller(token, fp, Waiting)])
    case Pass(secs) => w.(now := w.now + secs)
    case DoEnter(who, expired) =>
      var c := w.callers[who];
      var slots := Entered(w.slots, c.token, c.fp, w.now);
      var log := w.log + Expiries(expired, w.now);
      (match EnterAction(Gc(w.slots, w.now), c.token, c.fp)
       case Compute => World(slots, w.callers[who := c.(phase := Running)], w.now, log + [Started(c.token, who)])
       case Return(r) =>
         World(slots, w.callers[who := c.(phase := Served(r))], w.now, log + [Answered(c.token, who, c.fp, r)])
       case Conflict => World(slots, w.callers[who := c.(phase := Conflicted)], w.now, log)
       case Wait => World(slots, w.callers, w.now, log))
    case DoLeave(who, result, victim) =>
      var c := w.callers[who];
      var slots := Left(w.slots, c.token, c.fp, result, w.now, victim);
      var log := w.log + (if victim.Some? then [Evicted(victim.value)] else []);
      match result
      case Some(r) =>
        World(slots, w.callers[who := c.(phase := Served(r))], w.now,
              log + [Succeeded(c.token, who, c.fp, r, w.now), Answered(c.token, who, c.fp, r)])
      case None => World(slots, w.callers[who := c.(phase := Failed)], w.now, log + [FailedRun(c.token, who)])
  }

  ghost predicate IsRun(run: seq<World>, steps: seq<Step>) {
    && |run| == |steps| + 1 && run[0] == World(map[], [], 0, [])
    && forall i :: 0 <= i < |steps| ==> Enabled(run[i], steps[i]) && run[i + 1] == Next(run[i], steps[i])
  }

  // ----- what the log says about a token -----

  datatype Standing = Empty | Busy(who: nat) | Kept(at: nat, fp: nat, receipt: Receipt)

  function StandingAfter(before: Standing, e: Event): Standing {
    match e
    case Started(_, who) => Busy(who)
    case Succeeded(_, _, fp, r, at) => Kept(at, fp, r)
    case FailedRun(_, _) => Empty
    case Expired(_, _) => Empty
    case Evicted(_) => Empty
    case Answered(_, _, _, _) => before
  }

  function StandingOf(log: seq<Event>, t: Token): Standing {
    if log == [] then Empty
    else
      var before, e := StandingOf(log[..|log|-1], t), log[|log|-1];
      if e.token == t then StandingAfter(before, e) else before
  }

  /** A run starts only on an empty slot and ends once; only a kept receipt expires (after its TTL), is evicted
      or is handed out. */
  predicate Allowed(s: Standing, e: Event) {
    match e
    case Started(_, _) => s == Empty
    case Succeeded(_, who, _, _, _) => s == Busy(who)
    case FailedRun(_, who) => s == Busy(who)
    case Expired(_, at) => s.Kept? && at >= s.at + TTL
    case Evicted(_) => s.Kept?
    case Answered(_, _, fp, r) => s.Kept? && s.fp == fp && s.receipt == r
  }

  ghost predicate GoodLog(log: seq<Event>) {
    log != [] ==>
      GoodLog(log[..|log|-1]) && Allowed(StandingOf(log[..|log|-1], log[|log|-1].token), log[|log|-1])
  }

  predicate Matches(slots: Slots, t: Token, s: Standing) {
    match s
    case Empty => t !in slots
    case Busy(_) => t in slots && slots[t].InFlight?
    case Kept(at, fp, r) => t in slots && slots[t] == Done(at, fp, r)
  }

  ghost predicate Inv(w: World) {
    GoodLog(w.log) && SlotsMatch(w.slots, w.log) && RunsMatch(w.callers, w.log)
  }

  lemma LogGrows(log: seq<Event>, e: Event)
    ensures GoodLog(log + [e]) <==> GoodLog(log) && Allowed(StandingOf(log, e.token), e)
    ensures forall t :: StandingOf(log + [e], t) == if e.token == t then StandingAfter(StandingOf(log, t), e) else StandingOf(log, t)
  {
    assert (log + [e])[..|log|] == log;
  }

  /** The expiries a gc appends empty exactly the listed slots. */
  lemma {:induction false} ExpiriesLogged(log: seq<Event>, ts: seq<Token>, now: nat)
    requires GoodLog(log) && (forall i, j :: 0 <= i < j < |ts| ==> ts[i] != ts[j])
    requires forall t :: t in ts ==> StandingOf(log, t).Kept? && now >= StandingOf(log, t).at + TTL
    ensures GoodLog(log + Expiries(ts, now))
    ensures forall t :: StandingOf(log + Expiries(ts, now), t) == if t in ts then Empty else StandingOf(log, t)
  {
    if ts == [] {
      assert log + Expiries(ts, now) == log;
    } else {
      var rest, last := ts[..|ts|-1], ts[|ts|-1];
      assert ts == rest + [last];
      ExpiriesLogged(log, rest, now);
      LogGrows(log + Expiries(rest, now), Expired(last, now));
      assert log + Expiries(ts, now) == log + Expiries(rest, now) + [Expired(last, now)];
    }
  }

  // ----- every step keeps it -----

  ghost predicate SlotsMatch(slots: Slots, log: seq<Event>) { forall t :: Matches(slots, t, StandingOf(log, t)) }

  /** The runs under way, by caller. */
  ghost predicate RunsMatch(callers: seq<Caller>, log: seq<Event>) {
    && (forall c :: 0 <= c < |callers| && callers[c].phase == Running ==> StandingOf(log, callers[c].token) == Busy(c))
    && (forall t :: StandingOf(log, t).Busy? ==> IsRunning(callers, StandingOf(log, t).who, t))
  }

  predicate IsRunning(callers: seq<Caller>, c: nat, t: Token) {
    c < |callers| && callers[c].phase == Running && callers[c].token == t
  }

  /** The gc of a critical section. */
  lemma GcLogged(w: World, expired: seq<Token>)
    requires Inv(w) && Lists(expired, w.slots.Keys - Gc(w.slots, w.now).Keys)
    ensures var log := w.log + Expiries(expired, w.now);
            GoodLog(log) && SlotsMatch(Gc(w.slots, w.now), log) && RunsMatch(w.callers, log)
  {
    forall t | t in expired ensures StandingOf(w.log, t).Kept? && w.now >= StandingOf(w.log, t).at + TTL {
      assert Matches(w.slots, t, StandingOf(w.log, t));
    }
    ExpiriesLogged(w.log, expired, w.now);
    forall t ensures Matches(Gc(w.slots, w.now), t, StandingOf(w.log + Expiries(expired, w.now), t)) {
      assert Matches(w.slots, t, StandingOf(w.log, t));
    }
  }

  lemma EnterKeeps(w: World, who: nat, expired: seq<Token>)
    requires Inv(w) && Enabled(w, DoEnter(who, expired))
    ensures Inv(Next(w, DoEnter(who, expired)))
  {
    hide Gc, GoodLog;
    GcLogged(w, expired);
    var c, log := w.callers[who], w.log + Expiries(expired, w.now);
    assert Matches(Gc(w.slots, w.now), c.token, StandingOf(log, c.token));
    match EnterAction(Gc(w.slots, w.now), c.token, c.fp)
    case Compute => LogGrows(log, Started(c.token, who));
    case Return(r) => LogGrows(log, Answered(c.token, who, c.fp, r));
    case Conflict =>
    case Wait =>
  }

  /** Making room before a receipt is stored. */
  lemma EvictLogged(w: World, who: nat, victim: Option<Token>)
    requires Inv(w) && who < |w.callers| && w.callers[who].phase == Running && (victim.Some? ==> Evicts(w.slots, victim))
    ensures var log := w.log + (if victim.Some? then [Evicted(victim.value)] else []);
            GoodLog(log) && SlotsMatch(Without(w.slots, victim), log) && RunsMatch(w.callers, log)
            && StandingOf(log, w.callers[who].token) == Busy(who)
  {
    hide GoodLog;
    assert StandingOf(w.log, w.callers[who].token) == Busy(who) && Matches(w.slots, w.callers[who].token, Busy(who));
    match victim
    case Some(k) =>
      assert Matches(w.slots, k, StandingOf(w.log, k));
      LogGrows(w.log, Evicted(k));
    case None => assert w.log + [] == w.log;
  }

  lemma LeaveKeeps(w: World, who: nat, result: Option<Receipt>, victim: Option<Token>)
    requires Inv(w) && Enabled(w, DoLeave(who, result, victim))
    ensures Inv(Next(w, DoLeave(who, result, victim)))
  {
    EvictLogged(w, who, victim);
    hide GoodLog, Evicts;
    var c := w.callers[who];
    var log := w.log + (if victim.Some? then [Evicted(victim.value)] else []);
    match result
    case Some(r) =>
      var done := Succeeded(c.token, who, c.fp, r, w.now);
      LogGrows(log, done);
      LogGrows(log + [done], Answered(c.token, who, c.fp, r));
      assert log + [done, Answered(c.token, who, c.fp, r)] == log + [done] + [Answered(c.token, who, c.fp, r)];
    case None => LogGrows(log, FailedRun(c.token, who));
  }

  lemma {:induction false} RunInv(run: seq<World>, steps: seq<Step>, n: nat)
    requires IsRun(run, steps) && n < |run|
    ensures Inv(run[n])
    decreases n
  {
    if n > 0 {
      RunInv(run, steps, n - 1);
      var w := run[n-1];
      match steps[n-1]
      case DoEnter(who, expired) => EnterKeeps(w, who, expired);
      case DoLeave(who, result, victim) => LeaveKeeps(w, who, result, victim);
      case Call(_, _) =>
      case Pass(_) =>
    }
  }

  // ----- what the log of every run satisfies -----

  lemma {:induction false} PrefixGood(log: seq<Event>, n: nat)
    requires GoodLog(log) && n <= |log|
    ensures GoodLog(log[..n])
    decreases |log|
  {
    if n < |log| {
      PrefixGood(log[..|log|-1], n);
      assert log[..|log|-1][..n] == log[..n];
    } else {
      assert log[..n] == log;
    }
  }

  lemma EventAllowed(log: seq<Event>, n: nat)
    requires GoodLog(log) && n < |log|
    ensures Allowed(StandingOf(log[..n], log[n].token), log[n])
    ensures forall t :: StandingOf(log[..n+1], t) == if log[n].token == t then StandingAfter(StandingOf(log[..n], t), log[n]) else StandingOf(log[..n], t)
  {
    PrefixGood(log, n + 1);
    assert log[..n+1][..n] == log[..n];
  }

  predicate Ends(e: Event, t: Token, who: nat) { e.token == t && (e.FailedRun? || e.Succeeded?) && e.who == who }

  predicate Clears(e: Event, t: Token) { e.token == t && (e.FailedRun? || e.Expired? || e.Evicted?) }

  /** Between two starts for one token the first run has ended, and the slot has since been emptied by a
      failure, an expiry or an eviction. */
  lemma RunsNeverOverlap(log: seq<Event>, i: nat, j: nat)
    requires GoodLog(log) && i < j < |log| && log[i].Started? && log[j].Started? && log[i].token == log[j].token
    ensures exists k :: i < k < j && Ends(log[k], log[i].token, log[i].who)
    ensures exists k :: i < k < j && Clears(log[k], log[i].token)
  {
    EventAllowed(log, i);
    EventAllowed(log, j);
    var k := LeavesBusy(log, i + 1, j, log[i].token, log[i].who);
    var m := LeavesFull(log, i + 1, j, log[i].token);
  }

  lemma {:induction false} LeavesBusy(log: seq<Event>, i: nat, j: nat, t: Token, who: nat) returns (k: nat)
    requires GoodLog(log) && i <= j <= |log| && StandingOf(log[..i], t) == Busy(who) && StandingOf(log[..j], t) != Busy(who)
    ensures i <= k < j && Ends(log[k], t, who)
    decreases j - i
  {
    EventAllowed(log, i);
    if StandingOf(log[..i+1], t) == Busy(who) { k := LeavesBusy(log, i + 1, j, t, who); } else { k := i; }
  }

  lemma {:induction false} LeavesFull(log: seq<Event>, i: nat, j: nat, t: Token) returns (k: nat)
    requires GoodLog(log) && i <= j <= |log| && StandingOf(log[..i], t) != Empty && StandingOf(log[..j], t) == Empty
    ensures i <= k < j && Clears(log[k], t)
    decreases j - i
  {
    EventAllowed(log, i);
    if StandingOf(log[..i+1], t) != Empty { k := LeavesFull(log, i + 1, j, t); } else { k := i; }
  }

  /** An expiry comes no sooner than the TTL after the success it clears. */
  lemma ExpiryAfterTtl(log: seq<Event>, j: nat)
    requires GoodLog(log) && j < |log| && log[j].Expired?
    ensures exists i :: 0 <= i < j && log[i].Succeeded? && log[i].token == log[j].token && log[j].at >= log[i].at + TTL
  {
    EventAllowed(log, j);
    var i := KeptSince(log, j, log[j].token);
  }

  /** The success that a kept receipt comes from; nothing has emptied the slot since. */
  lemma {:induction false} KeptSince(log: seq<Event>, j: nat, t: Token) returns (i: nat)
    requires GoodLog(log) && j <= |log| && StandingOf(log[..j], t).Kept?
    ensures i < j && log[i].Succeeded? && log[i].token == t
    ensures StandingOf(log[..j], t) == Kept(log[i].at, log[i].fp, log[i].receipt)
    ensures forall k :: i < k < j && log[k].token == t ==> log[k].Answered?
  {
    EventAllowed(log, j - 1);
    if log[j-1].Succeeded? && log[j-1].token == t { i := j - 1; } else { i := KeptSince(log, j - 1, t); }
  }

  /** Everyone a slot answers gets the receipt of the one run that filled it, and asked for the same thing. */
  lemma OneReceiptPerSlot(log: seq<Event>, i: nat, j: nat)
    requires GoodLog(log) && i < j < |log| && log[i].Answered? && log[j].Answered? && log[i].token == log[j].token
    requires forall k :: i < k < j ==> !(log[k].Started? && log[k].token == log[i].token)
    ensures log[i].fp == log[j].fp && log[i].receipt == log[j].receipt
  {
    EventAllowed(log, i);
    EventAllowed(log, j);
    StaysKept(log, i + 1, j, log[i].token);
  }

  lemma {:induction false} StaysKept(log: seq<Event>, i: nat, j: nat, t: Token)
    requires GoodLog(log) && i <= j <= |log| && StandingOf(log[..j], t).Kept?
    requires forall k :: i <= k < j ==> !(log[k].Started? && log[k].token == t)
    requires !StandingOf(log[..i], t).Busy?
    ensures StandingOf(log[..i], t) == StandingOf(log[..j], t)
    decreases j - i
  {
    if i < j {
      EventAllowed(log, i);
      StaysKept(log, i + 1, j, t);
    }
  }

  // ----- the size of the cache -----

  function DoneKeys(slots: Slots): set<Token> { set k | k in slots && slots[k].Done? }

  /** Storing a receipt never takes the cache past 9999 of them. */
  lemma LeaveSize(slots: Slots, token: Token, fp: nat, r: Receipt, now: nat, victim: Option<Token>)
    requires token in slots && slots[token].InFlight? && Evicts(slots, victim) && |DoneKeys(slots)| < MAX_DONE_ENTRIES
    ensures |DoneKeys(Left(slots, token, fp, Some(r), now, victim))| < MAX_DONE_ENTRIES
  {
    var after := DoneKeys(Left(slots, token, fp, Some(r), now, victim));
    match victim
    case Some(k) =>
      assert after == DoneKeys(slots) - {k} + {token};
    case None =>
      assert after == DoneKeys(slots) + {token};
      if |slots| < MAX_DONE_ENTRIES {
        assert after <= slots.Keys;
        SubsetSize(DoneKeys(slots), slots.Keys - {token});
      } else {
        assert DoneKeys(slots) == {};
      }
  }

  lemma {:induction false} RunSize(run: seq<World>, steps: seq<Step>, n: nat)
    requires IsRun(run, steps) && n < |run|
    ensures |DoneKeys(run[n].slots)| < MAX_DONE_ENTRIES
    decreases n
  {
    if n > 0 {
      RunSize(run, steps, n - 1);
      RunInv(run, steps, n - 1);
      var w := run[n-1];
      match steps[n-1]
      case DoEnter(who, expired) => SubsetSize(DoneKeys(run[n].slots), DoneKeys(w.slots));
      case DoLeave(who, result, victim) =>
        var c := w.callers[who];
        assert Matches(w.slots, c.token, Busy(who));
        if result.Some? { LeaveSize(w.slots, c.token, c.fp, result.value, w.now, victim); }
        else { SubsetSize(DoneKeys(run[n].slots), DoneKeys(w.slots)); }
      case Call(_, _) =>
      case Pass(_) =>
    }
  }
}
