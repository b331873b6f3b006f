/**
 Which stranded BNB locks a session gets to: the getLogs scan and the sweep behind it.

 A scan may give up or skip spans, and a refund may be refused, but the cursor moves past the tip all the
 same.  So a lock gets another look in the session only if its block is within the reorg margin of the tip
 of the pass before, or if the pool names it.
 */
module SweepScan {
  import opened Common
  import opened Bytes
  import opened Ascii
  import opened Sweep
  import opened LogScan

  /** One getLogs pass: the blocks it asked for, what came of them, and what it then read and sent. */
  datatype Scan = Scan(
    from: nat, tip: u64, spans: seq<Span>, stop: nat, now: u64,
    answers: Hash32 -> Option<(bool, u64)>, accepts: Hash32 -> bool)

  datatype Visit = ByLogs(scan: Scan) | ByPool(now: u64, views: seq<BnbView>) | ByRows(tip: u64, rows: seq<RowView>)

  /** The pass SweepStrandedBnbLocks runs for a scan of the fixed contract `home`. */
  function PassOf(v: Visit, home: Address): Pass {
    match v
    case ByLogs(s) => Pass.Bnb(s.now, ViewsOf(home, Dedup(Found(s.spans)), s.answers, s.accepts))
    case ByPool(now, views) => Pass.Bnb(now, views)
    case ByRows(tip, rows) => Pass.Exfer(tip, rows)
  }

  function Passes(visits: seq<Visit>, home: Address): (ps: seq<Pass>)
    ensures |ps| == |visits| && forall k :: 0 <= k < |visits| ==> ps[k] == PassOf(visits[k], home)
  {
    if visits == [] then [] else Passes(visits[..|visits|-1], home) + [PassOf(visits[|visits|-1], home)]
  }

  /** Only getLogs passes move the cursor. */
  function CursorAfter(visits: seq<Visit>): nat {
    if visits == [] then 0
    else
      match visits[|visits|-1]
      case ByLogs(s) => s.tip + 1
      case _ => CursorAfter(visits[..|visits|-1])
  }

  /** A scan of the node of a chain on which `locks(n)` are the hashlocks locked in block n: its spans lie one
      after the other from where it began, and each page holds what its blocks hold. */
  ghost predicate TrueScan(s: Scan, locks: u64 -> set<Hash32>) {
    && s.from <= s.tip && s.stop <= s.tip + 1 && Partition(s.spans, s.from, s.stop)
    && forall i, h :: 0 <= i < |s.spans| && s.spans[i].Page? ==> (h in s.spans[i].found <==> InBlocks(locks, s.spans[i].from, s.spans[i].to, h))
  }

  ghost predicate TrueSession(visits: seq<Visit>, deploy: nat, locks: u64 -> set<Hash32>) {
    forall k :: 0 <= k < |visits| && visits[k].ByLogs? ==>
      TrueScan(visits[k].scan, locks) && visits[k].scan.from == ScanFrom(CursorAfter(visits[..k]), deploy)
  }

  /** What the pass method promises is such a scan. */
  lemma MethodScans(rpc: Rpc, locks: u64 -> set<Hash32>, s: Scan, calls: nat)
    requires Truthful(rpc, locks) && ScanOf(rpc, s.from, s.tip, s.spans, s.stop, calls) && s.from <= s.tip
    ensures TrueScan(s, locks)
  {
    hide Truthful, InBlocks;
    forall i, h | 0 <= i < |s.spans| && s.spans[i].Page?
      ensures h in s.spans[i].found <==> InBlocks(locks, s.spans[i].from, s.spans[i].to, h)
    {
      assert SpanHonest(s.spans[i], rpc, calls, s.tip);
      PageTrue(rpc, locks, s.spans[i], calls, h);
    }
  }

  lemma PageTrue(rpc: Rpc, locks: u64 -> set<Hash32>, p: Span, calls: nat, h: Hash32)
    requires Truthful(rpc, locks) && p.Page? && exists t: nat :: t < calls && rpc(t, p.from, p.to) == Some(p.found)
    ensures h in p.found <==> InBlocks(locks, p.from, p.to, h)
  {
  }

  // ----- which locks a pass looks at -----

  /** Some page of the scan covers a block in which `h` is locked. */
  ghost predicate Covers(s: Scan, locks: u64 -> set<Hash32>, h: Hash32) {
    exists i :: 0 <= i < |s.spans| && s.spans[i].Page? && InBlocks(locks, s.spans[i].from, s.spans[i].to, h)
  }

  lemma {:induction false} FoundOnPages(spans: seq<Span>, h: Hash32)
    ensures h in Found(spans) <==> exists i :: 0 <= i < |spans| && spans[i].Page? && h in spans[i].found
  {
    if spans != [] {
      var rest := spans[..|spans|-1];
      FoundOnPages(rest, h);
      if exists i :: 0 <= i < |rest| && rest[i].Page? && h in rest[i].found {
        var i :| 0 <= i < |rest| && rest[i].Page? && h in rest[i].found;
        assert spans[i] == rest[i];
      }
      if i :| 0 <= i < |spans| && spans[i].Page? && h in spans[i].found {
        if i < |rest| { assert rest[i] == spans[i]; }
      }
    }
  }

  lemma FoundCovers(s: Scan, locks: u64 -> set<Hash32>, h: Hash32)
    requires TrueScan(s, locks)
    ensures h in Found(s.spans) <==> Covers(s, locks, h)
  {
    hide InBlocks, Partition, Found;
    FoundOnPages(s.spans, h);
  }

  lemma Spelling(g: Hash32, h: Hash32)
    ensures ToLower(To0x(g)) == To0x(g) && (To0x(g) == To0x(h) <==> g == h)
    ensures Hash256FromHex(To0x(h)) == Some(h)
  {
    HexOfBytes(g);
    HexOfBytes(h);
    LowerJoined(PREFIX_0X, HexOf(g));
    assert ToLower(PREFIX_0X) == PREFIX_0X;
    assert To0x(g)[2..] == HexOf(g) && To0x(h)[2..] == HexOf(h);
    NoPrefix(h);
  }

  /** The digits of a hash never start with another 0x. */
  lemma NoPrefix(h: Hash32)
    ensures Strip0x(To0x(h)) == HexOf(h)
  {
    var t := HexOf(h);
    assert To0x(h)[2..] == t && t[1] == HexDigit(h[0] % 16);
  }

  /** Whether this pass meets the lock of `h` on the fixed contract while it is refundable, and no refund it sends
      before takes the key elsewhere; whether the lock's own refund would then be accepted; and whether the pass
      itself sends an accepted refund under the key elsewhere. */
  ghost predicate Tries(v: Visit, locks: u64 -> set<Hash32>, home: Address, h: Hash32) {
    match v
    case ByLogs(s) => Covers(s, locks, h) && Refundable(BnbView(home, To0x(h), s.answers(h), s.accepts(h)), s.now)
    case ByPool(now, views) => FoundDue(Sights(now, views), home, To0x(h))
    case ByRows(_, _) => false
  }

  ghost predicate Succeeds(v: Visit, locks: u64 -> set<Hash32>, home: Address, h: Hash32) {
    match v
    case ByLogs(s) => Covers(s, locks, h) && Refundable(BnbView(home, To0x(h), s.answers(h), s.accepts(h)), s.now) && s.accepts(h)
    case ByPool(now, views) => FoundWilling(Sights(now, views), home, To0x(h))
    case ByRows(_, _) => false
  }

  ghost predicate Diverts(v: Visit, home: Address, h: Hash32) {
    v.ByPool? && Diverted(Sights(v.now, v.views), home, To0x(h))
  }

  /** What the pass is shown. */
  function SightsOf(v: Visit, home: Address): seq<Sight> {
    match PassOf(v, home)
    case Exfer(_, _) => []
    case Bnb(now, views) => Sights(now, views)
  }

  lemma {:induction false} SightsAre(now: u64, views: seq<BnbView>)
    ensures |Sights(now, views)| == |views|
    ensures forall i :: 0 <= i < |views| ==> Sights(now, views)[i] == Sight(now, views[i])
  {
    if views != [] { SightsAre(now, views[..|views|-1]); }
  }

  lemma VisitShows(v: Visit, locks: u64 -> set<Hash32>, home: Address, h: Hash32)
    requires v.ByLogs? ==> TrueScan(v.scan, locks)
    ensures FoundDue(SightsOf(v, home), home, To0x(h)) <==> Tries(v, locks, home, h)
    ensures FoundWilling(SightsOf(v, home), home, To0x(h)) <==> Succeeds(v, locks, home, h)
    ensures Diverted(SightsOf(v, home), home, To0x(h)) <==> Diverts(v, home, h)
  {
    if v.ByLogs? { LogsShow(v.scan, locks, home, h); }
  }

  lemma LogsShow(s: Scan, locks: u64 -> set<Hash32>, home: Address, h: Hash32)
    requires TrueScan(s, locks)
    ensures FoundDue(SightsOf(ByLogs(s), home), home, To0x(h)) <==> Tries(ByLogs(s), locks, home, h)
    ensures FoundWilling(SightsOf(ByLogs(s), home), home, To0x(h)) <==> Succeeds(ByLogs(s), locks, home, h)
    ensures !Diverted(SightsOf(ByLogs(s), home), home, To0x(h))
  {
    hide TrueScan, Covers, Found, Dedup, To0x, ToLower, Refundable;
    var hs := Dedup(Found(s.spans));
    var seen := SightsOf(ByLogs(s), home);
    FoundCovers(s, locks, h);
    LogsSights(s, home, h);
    forall i | 0 <= i < |seen| ensures !Diverted(seen[..i], home, To0x(h)) {
      Undiverted(seen[..i], home, To0x(h));
    }
    Undiverted(seen, home, To0x(h));
    if h in hs {
      var i :| 0 <= i < |hs| && hs[i] == h;
      assert DueOn(seen[i], home, To0x(h)) == Refundable(seen[i].view, s.now);
    }
  }

  /** A scan shows the fixed contract's locks only, each under its one spelling. */
  lemma LogsSights(s: Scan, home: Address, h: Hash32)
    ensures var hs, seen := Dedup(Found(s.spans)), SightsOf(ByLogs(s), home);
            && |seen| == |hs|
            && (forall i :: 0 <= i < |seen| ==>
                  && seen[i] == Sight(s.now, BnbView(home, To0x(hs[i]), s.answers(hs[i]), s.accepts(hs[i])))
                  && (ToLower(seen[i].view.hashlock) == To0x(h) <==> hs[i] == h))
  {
    hide Found, Dedup, To0x, ToLower;
    var hs := Dedup(Found(s.spans));
    SightsAre(s.now, ViewsOf(home, hs, s.answers, s.accepts));
    forall i | 0 <= i < |hs| ensures ToLower(To0x(hs[i])) == To0x(h) <==> hs[i] == h { Spelling(hs[i], h); }
  }

  /** The passes, one after the other. */
  ghost predicate TriedIn(visits: seq<Visit>, k: int, locks: u64 -> set<Hash32>, home: Address, h: Hash32) {
    0 <= k < |visits| && Tries(visits[k], locks, home, h) && forall j :: 0 <= j < k ==> !Diverts(visits[j], home, h)
  }

  ghost predicate SucceedsIn(visits: seq<Visit>, k: int, locks: u64 -> set<Hash32>, home: Address, h: Hash32) {
    0 <= k < |visits| && Succeeds(visits[k], locks, home, h) && forall j :: 0 <= j < k ==> !Diverts(visits[j], home, h)
  }

  lemma {:induction false} VisitsShow(visits: seq<Visit>, locks: u64 -> set<Hash32>, home: Address, h: Hash32)
    requires forall k :: 0 <= k < |visits| && visits[k].ByLogs? ==> TrueScan(visits[k].scan, locks)
    ensures FoundDue(Shown(Passes(visits, home)), home, To0x(h)) <==> exists k :: TriedIn(visits, k, locks, home, h)
    ensures FoundWilling(Shown(Passes(visits, home)), home, To0x(h)) <==> exists k :: SucceedsIn(visits, k, locks, home, h)
    ensures Diverted(Shown(Passes(visits, home)), home, To0x(h)) <==> exists k :: 0 <= k < |visits| && Diverts(visits[k], home, h)
  {
    hide FoundDue, FoundWilling, Diverted, Tries, Succeeds, Diverts, TrueScan, To0x;
    if visits == [] {
      NothingFound(home, To0x(h));
    } else {
      var rest, v := visits[..|visits|-1], visits[|visits|-1];
      VisitsShow(rest, locks, home, h);
      VisitShows(v, locks, home, h);
      ShownJoined(rest, v, home);
      FoundJoined(Shown(Passes(rest, home)), SightsOf(v, home), home, To0x(h));
      DivertedJoined(Shown(Passes(rest, home)), SightsOf(v, home), home, To0x(h));
      LastVisit(visits, locks, home, h);
    }
  }

  lemma NothingFound(c: Address, key: Str)
    ensures !FoundDue([], c, key) && !FoundWilling([], c, key) && !Diverted([], c, key)
  {
  }

  lemma ShownJoined(rest: seq<Visit>, v: Visit, home: Address)
    ensures Shown(Passes(rest + [v], home)) == Shown(Passes(rest, home)) + SightsOf(v, home)
  {
    hide PassOf;
    assert (rest + [v])[..|rest|] == rest;
    var ps := Passes(rest + [v], home);
    assert ps[..|rest|] == Passes(rest, home);
  }

  lemma LastVisit(visits: seq<Visit>, locks: u64 -> set<Hash32>, home: Address, h: Hash32)
    requires visits != []
    ensures var rest, v := visits[..|visits|-1], visits[|visits|-1];
            var clear := !exists k :: 0 <= k < |rest| && Diverts(rest[k], home, h);
            && rest + [v] == visits
            && ((exists k :: TriedIn(visits, k, locks, home, h)) <==>
                (exists k :: TriedIn(rest, k, locks, home, h)) || (Tries(v, locks, home, h) && clear))
            && ((exists k :: SucceedsIn(visits, k, locks, home, h)) <==>
                (exists k :: SucceedsIn(rest, k, locks, home, h)) || (Succeeds(v, locks, home, h) && clear))
            && ((exists k :: 0 <= k < |visits| && Diverts(visits[k], home, h)) <==> Diverts(v, home, h) || !clear)
  {
    hide Tries, Succeeds, Diverts;
    var n := |visits| - 1;
    var rest := visits[..n];
    forall k | 0 <= k < n ensures rest[k] == visits[k] {}
    forall k: int | 0 <= k < n
      ensures TriedIn(rest, k, locks, home, h) <==> TriedIn(visits, k, locks, home, h)
      ensures SucceedsIn(rest, k, locks, home, h) <==> SucceedsIn(visits, k, locks, home, h)
    {
    }
    assert TriedIn(visits, n, locks, home, h) <==>
           Tries(visits[n], locks, home, h) && !exists k :: 0 <= k < n && Diverts(rest[k], home, h);
    assert SucceedsIn(visits, n, locks, home, h) <==>
           Succeeds(visits[n], locks, home, h) && !exists k :: 0 <= k < n && Diverts(rest[k], home, h);
  }

  /** In every session over a truthful node, a stranded lock of the fixed contract is tried exactly when some pass
      meets it while refundable, on a page that covers it or in the pool's list, and no accepted refund under its key
      had been shown on another contract before; and it is recovered exactly when its refund would be accepted at
      one such time. */
  lemma TriedWhenCovered(visits: seq<Visit>, deploy: nat, locks: u64 -> set<Hash32>, home: Address, h: Hash32)
    requires TrueSession(visits, deploy, locks)
    ensures HasTried(Session(Passes(visits, home)).log, home, To0x(h)) <==> exists k :: TriedIn(visits, k, locks, home, h)
    ensures HasRefunded(Session(Passes(visits, home)).log, home, To0x(h)) <==> exists k :: SucceedsIn(visits, k, locks, home, h)
  {
    hide Session, HasTried, HasRefunded, FoundDue, FoundWilling, TriedIn, SucceedsIn, TrueScan, To0x, PassOf;
    TriedIff(Passes(visits, home), home, To0x(h));
    VisitsShow(visits, locks, home, h);
  }

  // ----- which blocks a pass looks at -----

  lemma {:induction false} SpansWithin(spans: seq<Span>, from: nat, stop: nat, i: nat)
    requires Partition(spans, from, stop) && i < |spans|
    ensures from <= spans[i].from <= spans[i].to < stop
    decreases |spans|
  {
    var rest, last := spans[..|spans|-1], spans[|spans|-1];
    if i < |rest| {
      SpansWithin(rest, from, last.from, i);
      assert rest[i] == spans[i];
    } else {
      PartitionForward(rest, from, last.from);
    }
  }

  lemma {:induction false} PartitionForward(spans: seq<Span>, from: nat, stop: nat)
    requires Partition(spans, from, stop)
    ensures from <= stop
  {
    if spans != [] { PartitionForward(spans[..|spans|-1], from, spans[|spans|-1].from); }
  }

  lemma {:induction false} SpanOf(spans: seq<Span>, from: nat, stop: nat, b: nat) returns (i: nat)
    requires Partition(spans, from, stop) && from <= b < stop
    ensures i < |spans| && spans[i].from <= b <= spans[i].to
  {
    var last := spans[|spans|-1];
    if b >= last.from { i := |spans| - 1; } else { i := SpanOf(spans[..|spans|-1], from, last.from, b); }
  }

  /** The one block a hashlock is locked in. */
  ghost predicate LockedAt(locks: u64 -> set<Hash32>, h: Hash32, b: u64) { forall n: u64 :: h in locks(n) <==> n == b }

  /** The block was in a span the scan dropped, or past where it gave up. */
  ghost predicate Missed(s: Scan, b: nat) { b >= s.stop || exists i :: 0 <= i < |s.spans| && s.spans[i].Skipped? && s.spans[i].from <= b <= s.spans[i].to }

  /** A scan covers a lock exactly when the lock's block is from its first block on, not past its tip, and not
      missed. */
  lemma CoversIff(s: Scan, locks: u64 -> set<Hash32>, h: Hash32, b: u64)
    requires TrueScan(s, locks) && LockedAt(locks, h, b)
    ensures Covers(s, locks, h) <==> s.from <= b <= s.tip && !Missed(s, b)
  {
    if Covers(s, locks, h) {
      var i :| 0 <= i < |s.spans| && s.spans[i].Page? && InBlocks(locks, s.spans[i].from, s.spans[i].to, h);
      SpansWithin(s.spans, s.from, s.stop, i);
      assert s.spans[i].from <= b <= s.spans[i].to;
      if j :| 0 <= j < |s.spans| && s.spans[j].Skipped? && s.spans[j].from <= b <= s.spans[j].to {
        SpansApart(s.spans, s.from, s.stop, i, j, b);
      }
    }
    if s.from <= b && !Missed(s, b) {
      var i := SpanOf(s.spans, s.from, s.stop, b);
      assert h in locks(b);
      assert InBlocks(locks, s.spans[i].from, s.spans[i].to, h);
    }
  }

  lemma {:induction false} SpansApart(spans: seq<Span>, from: nat, stop: nat, i: nat, j: nat, b: nat)
    requires Partition(spans, from, stop) && i < |spans| && j < |spans|
    requires spans[i].from <= b <= spans[i].to && spans[j].from <= b <= spans[j].to
    ensures i == j
    decreases |spans|
  {
    var rest, last := spans[..|spans|-1], spans[|spans|-1];
    if i < |rest| { SpansWithin(rest, from, last.from, i); assert rest[i] == spans[i]; }
    if j < |rest| { SpansWithin(rest, from, last.from, j); assert rest[j] == spans[j]; }
    if i < |rest| && j < |rest| { SpansApart(rest, from, last.from, i, j, b); }
  }

  /** In a session, getLogs pass `k` covers a lock exactly when its block is not below the deploy block, not past
      the tip, not missed, and within the reorg margin of the last tip scanned before, if there was one. */
  lemma LookedAtIff(visits: seq<Visit>, k: nat, deploy: nat, locks: u64 -> set<Hash32>, h: Hash32, b: u64)
    requires TrueSession(visits, deploy, locks) && LockedAt(locks, h, b) && k < |visits| && visits[k].ByLogs?
    ensures Covers(visits[k].scan, locks, h) <==>
              && deploy <= b <= visits[k].scan.tip && !Missed(visits[k].scan, b)
              && (CursorAfter(visits[..k]) == 0 || b + BSC_SWEEP_REORG_MARGIN >= CursorAfter(visits[..k]))
  {
    hide TrueScan, Covers, Missed, LockedAt;
    CoversIff(visits[k].scan, locks, h, b);
  }

  // ----- two ways to lose a lock for the session -----

  /** The chain's one lock, in block `b`. */
  function OneLock(h: Hash32, b: u64): u64 -> set<Hash32> { n => if n == b then {h} else {} }

  lemma OnlyThere(h: Hash32, b: u64, from: nat, to: int)
    ensures forall x :: InBlocks(OneLock(h, b), from, to, x) <==> x == h && from <= b <= to
  {
    if from <= b <= to { assert h in OneLock(h, b)(b); }
  }

  /** A node that refuses every getLogs call. */
  function Refusing(): Rpc { (t, a, b) => None }

  /** Four narrow spans skipped, then the scan gives up. */
  function GivenUp(from: u64): seq<Span>
    requires from <= U64_MAX - 10_000
  {
    [Skipped(from, from + 1_999), Skipped(from + 2_000, from + 3_999), Skipped(from + 4_000, from + 5_999), Skipped(from + 6_000, from + 7_999)]
  }

  lemma OneMoreSkip(spans: seq<Span>, s: Span, from: nat)
    requires s.Skipped? && s.from <= s.to && Partition(spans, from, s.from)
    ensures Partition(spans + [s], from, s.to + 1) && SkippedRun(spans + [s]) == 1 + SkippedRun(spans)
  {
    assert (spans + [s])[..|spans|] == spans;
  }

  lemma GivesUp(from: u64, tip: u64)
    requires from + 8_000 <= tip <= U64_MAX - WINDOW
    ensures ScanOf(Refusing(), from, tip, GivenUp(from), from + 8_000, 10)
  {
    var spans := GivenUp(from);
    OneMoreSkip([], spans[0], from);
    OneMoreSkip([] + [spans[0]], spans[1], from);
    OneMoreSkip([] + [spans[0]] + [spans[1]], spans[2], from);
    OneMoreSkip([] + [spans[0]] + [spans[1]] + [spans[2]], spans[3], from);
    assert [] + [spans[0]] + [spans[1]] + [spans[2]] + [spans[3]] == spans;
    assert Refusing()(0, from + 8_000, MinEnd(from + 8_000, tip)) == None;
    forall i | 0 <= i < |spans| ensures SpanHonest(spans[i], Refusing(), 10, tip) {
      assert Refusing()(0, spans[i].from, spans[i].to) == None;
    }
  }

  /** A first pass that gives up, with every lock refundable and every refund welcome. */
  function Aborted(deploy: u64, tip: u64): Scan
    requires deploy + 8_000 <= tip <= U64_MAX - WINDOW
  {
    Scan(deploy, tip, GivenUp(deploy), deploy + 8_000, 0, _ => Some((true, 0)), _ => true)
  }

  /** A first pass that finds the lock, and whose refund is refused. */
  function Refused(h: Hash32, deploy: u64, tip: u64): Scan
    requires deploy <= tip
  {
    Scan(deploy, tip, [Page(deploy, tip, [h])], tip + 1, 0, _ => Some((true, 0)), _ => false)
  }

  /** A perfect next pass. */
  function Perfect(deploy: u64, tip: u64, later: u64): Scan
    requires tip <= later && deploy <= later
  {
    Scan(ScanFrom(tip + 1, deploy), later, [Page(ScanFrom(tip + 1, deploy), later, [])], later + 1, 0, _ => Some((true, 0)), _ => true)
  }

  lemma AbortedScan(h: Hash32, b: u64, deploy: u64, tip: u64)
    requires deploy + 8_000 <= tip <= U64_MAX - WINDOW
    ensures TrueScan(Aborted(deploy, tip), OneLock(h, b)) && !Covers(Aborted(deploy, tip), OneLock(h, b), h)
  {
    GivesUp(deploy, tip);
  }

  lemma RefusedScan(h: Hash32, b: u64, deploy: u64, tip: u64)
    requires deploy <= b <= tip
    ensures TrueScan(Refused(h, deploy, tip), OneLock(h, b)) && Covers(Refused(h, deploy, tip), OneLock(h, b), h)
  {
    OnlyThere(h, b, deploy, tip);
    var s := Refused(h, deploy, tip);
    assert s.spans[..0] == [] && InBlocks(OneLock(h, b), s.spans[0].from, s.spans[0].to, h);
  }

  lemma PerfectScan(h: Hash32, b: u64, deploy: u64, tip: u64, later: u64)
    requires deploy <= b && b + BSC_SWEEP_REORG_MARGIN <= tip <= later
    ensures TrueScan(Perfect(deploy, tip, later), OneLock(h, b)) && !Covers(Perfect(deploy, tip, later), OneLock(h, b), h)
  {
    var s := Perfect(deploy, tip, later);
    OnlyThere(h, b, s.from, later);
    assert s.spans[..0] == [];
  }

  lemma TwoScans(first: Scan, second: Scan, deploy: nat, locks: u64 -> set<Hash32>)
    requires TrueScan(first, locks) && TrueScan(second, locks) && first.from == deploy && second.from == ScanFrom(first.tip + 1, deploy)
    ensures TrueSession([ByLogs(first), ByLogs(second)], deploy, locks)
  {
    var visits := [ByLogs(first), ByLogs(second)];
    assert visits[..0] == [] && visits[..1] == [visits[0]];
  }

  lemma TwoVisits(a: Visit, b: Visit, deploy: nat, locks: u64 -> set<Hash32>, home: Address, h: Hash32)
    requires TrueSession([a, b], deploy, locks)
    ensures HasTried(Session(Passes([a, b], home)).log, home, To0x(h)) <==> Tries(a, locks, home, h) || (Tries(b, locks, home, h) && !Diverts(a, home, h))
    ensures HasRefunded(Session(Passes([a, b], home)).log, home, To0x(h)) <==> Succeeds(a, locks, home, h) || (Succeeds(b, locks, home, h) && !Diverts(a, home, h))
  {
    hide TrueSession, Session, Passes, HasTried, HasRefunded, To0x, Tries, Succeeds, Diverts;
    var visits := [a, b];
    TriedWhenCovered(visits, deploy, locks, home, h);
    assert TriedIn(visits, 0, locks, home, h) <==> Tries(a, locks, home, h);
    assert TriedIn(visits, 1, locks, home, h) <==> Tries(b, locks, home, h) && !Diverts(a, home, h);
    assert SucceedsIn(visits, 0, locks, home, h) <==> Succeeds(a, locks, home, h);
    assert SucceedsIn(visits, 1, locks, home, h) <==> Succeeds(b, locks, home, h) && !Diverts(a, home, h);
  }

  /** A scan that gives up, then a perfect one: a refundable lock more than the margin behind is never tried. */
  lemma AbortLoses(home: Address, h: Hash32, b: u64, deploy: u64, tip: u64, later: u64)
    requires deploy <= b && b + BSC_SWEEP_REORG_MARGIN <= tip <= later && deploy + 8_000 <= tip && later <= U64_MAX - WINDOW
    ensures ScanOf(Refusing(), deploy, tip, Aborted(deploy, tip).spans, deploy + 8_000, 10)
    ensures var visits := [ByLogs(Aborted(deploy, tip)), ByLogs(Perfect(deploy, tip, later))];
            TrueSession(visits, deploy, OneLock(h, b)) && !HasTried(Session(Passes(visits, home)).log, home, To0x(h))
  {
    hide TrueScan, TrueSession, Covers, Session, Passes, HasTried, HasRefunded, To0x, OneLock, ScanOf, GivenUp;
    GivesUp(deploy, tip);
    AbortedScan(h, b, deploy, tip);
    PerfectScan(h, b, deploy, tip, later);
    TwoScans(Aborted(deploy, tip), Perfect(deploy, tip, later), deploy, OneLock(h, b));
    TwoVisits(ByLogs(Aborted(deploy, tip)), ByLogs(Perfect(deploy, tip, later)), deploy, OneLock(h, b), home, h);
  }

  /** A refund that is refused once, then a perfect pass in which it would be accepted: the lock is tried once
      and never recovered. */
  lemma RefusalLoses(home: Address, h: Hash32, b: u64, deploy: u64, tip: u64, later: u64)
    requires deploy <= b && b + BSC_SWEEP_REORG_MARGIN <= tip <= later
    ensures var visits := [ByLogs(Refused(h, deploy, tip)), ByLogs(Perfect(deploy, tip, later))];
            && TrueSession(visits, deploy, OneLock(h, b))
            && HasTried(Session(Passes(visits, home)).log, home, To0x(h)) && !HasRefunded(Session(Passes(visits, home)).log, home, To0x(h))
  {
    hide TrueScan, TrueSession, Covers, Session, HasTried, HasRefunded, To0x, OneLock, ScanFrom;
    RefusedScan(h, b, deploy, tip);
    PerfectScan(h, b, deploy, tip, later);
    TwoScans(Refused(h, deploy, tip), Perfect(deploy, tip, later), deploy, OneLock(h, b));
    TwoVisits(ByLogs(Refused(h, deploy, tip)), ByLogs(Perfect(deploy, tip, later)), deploy, OneLock(h, b), home, h);
  }

  /** The pool names the hashlock on a contract of its own; a perfect first scan then shows the lock refundable and
      willing, and it is not even tried. */
  lemma PoolLoses(home: Address, c: Address, h: Hash32, b: u64, deploy: u64, tip: u64)
    requires c != home && deploy <= b <= tip
    ensures var visits := [ByPool(0, [BnbView(c, To0x(h), Some((true, 0)), true)]), ByLogs(Welcome(h, deploy, tip))];
            && TrueSession(visits, deploy, OneLock(h, b)) && Succeeds(visits[1], OneLock(h, b), home, h)
            && !HasTried(Session(Passes(visits, home)).log, home, To0x(h))
  {
    hide TrueScan, Covers, Session, Passes, HasTried, HasRefunded, OneLock, To0x, ToLower;
    var view := BnbView(c, To0x(h), Some((true, 0)), true);
    var visits := [ByPool(0, [view]), ByLogs(Welcome(h, deploy, tip))];
    WelcomeScan(h, b, deploy, tip);
    assert visits[..1] == [visits[0]] && [visits[0]][..0] == [];
    assert CursorAfter(visits[..1]) == 0;
    assert TrueSession(visits, deploy, OneLock(h, b));
    assert visits == [visits[0], visits[1]];
    Spelling(h, h);
    assert Sights(0, [view]) == [Sight(0, view)] by { assert [view][..0] == []; }
    FoundOne(Sight(0, view), home, To0x(h));
    TwoVisits(visits[0], visits[1], deploy, OneLock(h, b), home, h);
  }

  /** A first pass that finds the lock, and whose refund is accepted. */
  function Welcome(h: Hash32, deploy: u64, tip: u64): Scan
    requires deploy <= tip
  {
    Refused(h, deploy, tip).(accepts := _ => true)
  }

  lemma WelcomeScan(h: Hash32, b: u64, deploy: u64, tip: u64)
    requires deploy <= b <= tip
    ensures TrueScan(Welcome(h, deploy, tip), OneLock(h, b)) && Covers(Welcome(h, deploy, tip), OneLock(h, b), h)
  {
    RefusedScan(h, b, deploy, tip);
  }

  /** The pool names locks of these contracts only. */
  predicate PoolNames(visits: seq<Visit>, others: set<Address>) {
    forall k, v :: 0 <= k < |visits| && visits[k].ByPool? && v in visits[k].views ==> v.contract in others
  }

  /** In every session over a truthful node, whenever a pass meets the lock refundable and willing, the session
      recovers it. */
  ghost predicate NeverLost(home: Address, h: Hash32, deploy: nat, others: set<Address>) {
    forall visits: seq<Visit>, locks: u64 -> set<Hash32>, k: nat ::
      TrueSession(visits, deploy, locks) && PoolNames(visits, others) && k < |visits| && Succeeds(visits[k], locks, home, h) ==>
        HasRefunded(Session(Passes(visits, home)).log, home, To0x(h))
  }

  /** No session loses a lock it meets exactly when the pool names no other contract than the fixed one: what a
      caller could compare with the table of fixed contracts before the call. */
  lemma NeverLostIff(home: Address, h: Hash32, deploy: u64, others: set<Address>)
    ensures NeverLost(home, h, deploy, others) <==> others <= {home}
  {
    hide TrueSession, Succeeds, Session, Passes, HasTried, HasRefunded, To0x, Diverts, OneLock, Welcome;
    if others <= {home} {
      forall visits: seq<Visit>, locks: u64 -> set<Hash32>, k: nat |
        TrueSession(visits, deploy, locks) && PoolNames(visits, others) && k < |visits| && Succeeds(visits[k], locks, home, h)
        ensures HasRefunded(Session(Passes(visits, home)).log, home, To0x(h))
      {
        forall j | 0 <= j < k ensures !Diverts(visits[j], home, h) { HomeOnly(visits[j], home, h); }
        TriedWhenCovered(visits, deploy, locks, home, h);
        assert SucceedsIn(visits, k, locks, home, h);
      }
    } else {
      var c :| c in others && c != home;
      var visits := [ByPool(0, [BnbView(c, To0x(h), Some((true, 0)), true)]), ByLogs(Welcome(h, deploy, deploy))];
      PoolLoses(home, c, h, deploy, deploy, deploy);
      NeverTried(visits, home, h);
      assert PoolNames(visits, others);
    }
  }

  lemma HomeOnly(v: Visit, home: Address, h: Hash32)
    requires v.ByPool? ==> forall x :: x in v.views ==> x.contract == home
    ensures !Diverts(v, home, h)
  {
    if v.ByPool? { SightsAre(v.now, v.views); }
  }

  lemma NeverTried(visits: seq<Visit>, home: Address, h: Hash32)
    requires !HasTried(Session(Passes(visits, home)).log, home, To0x(h))
    ensures !HasRefunded(Session(Passes(visits, home)).log, home, To0x(h))
  {
    hide Session, Passes, To0x, TriedAt;
  }
}
