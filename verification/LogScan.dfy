/** The adaptive eth_getLogs scan (src/evm.rs:139-147, 281-334). */
module LogScan {
  import opened Common
  import opened Bytes

  const WINDOW: u64 := 50_000
  const WINDOW_MIN: u64 := 2_000
  const MAX_CONSEC_FAIL: nat := 5

  /** What the node answers to call number `t` for blocks from..to: the hashlocks, or an error. */
  type Rpc = (nat, u64, u64) -> Option<seq<Hash32>>

  /** A stretch of blocks the scan is done with. */
  datatype Span = Page(from: u64, to: u64, found: seq<Hash32>) | Skipped(from: u64, to: u64)

  /** The spans follow one another, with no gap and no overlap, from `from` up to but excluding `stop`. */
  predicate Partition(spans: seq<Span>, from: nat, stop: nat) {
    if spans == [] then stop == from
    else
      var last := spans[|spans|-1];
      last.from <= last.to && last.to + 1 == stop && Partition(spans[..|spans|-1], from, last.from)
  }

  function Found(spans: seq<Span>): seq<Hash32> {
    if spans == [] then []
    else
      var last := spans[|spans|-1];
      Found(spans[..|spans|-1]) + if last.Page? then last.found else []
  }

  /** First occurrences, in order. */
  function Dedup(s: seq<Hash32>): (d: seq<Hash32>)
    ensures forall h :: h in d <==> h in s
    ensures forall i, j :: 0 <= i < j < |d| ==> d[i] != d[j]
  {
    if s == [] then []
    else
      assert s == s[..|s|-1] + [s[|s|-1]];
      var d := Dedup(s[..|s|-1]);
      if s[|s|-1] in d then d else d + [s[|s|-1]]
  }

  lemma DedupStep(s: seq<Hash32>, h: Hash32)
    ensures Dedup(s + [h]) == if h in Dedup(s) then Dedup(s) else Dedup(s) + [h]
  {
    assert (s + [h])[..|s|] == s;
  }

  /** How many halvings lead from this window to the minimum. */
  function Level(window: nat): nat {
    if window <= WINDOW_MIN then 0 else 1 + Level(Max(window / 2, WINDOW_MIN))
  }

  lemma LevelOfHalf(window: nat)
    requires window > WINDOW_MIN
    ensures Level(window) == 1 + Level(Max(window / 2, WINDOW_MIN))
  {
  }

  lemma {:induction false} LevelGrows(a: nat, b: nat)
    requires a <= b
    ensures Level(a) <= Level(b)
    decreases b
  {
    if a > WINDOW_MIN { LevelGrows(Max(a / 2, WINDOW_MIN), Max(b / 2, WINDOW_MIN)); }
  }

  /** A success gives back at most one halving. */
  lemma LevelOfDouble(window: nat)
    requires WINDOW_MIN <= window < WINDOW
    ensures Level(Min(window * 2, WINDOW)) <= Level(window) + 1
  {
    LevelGrows(Min(window * 2, WINDOW), window * 2);
    assert Max(window * 2 / 2, WINDOW_MIN) == window;
  }

  lemma FullLevel()
    ensures Level(WINDOW) == 5
  {
    assert Level(25_000) == 4 by { assert Level(12_500) == 3 by { assert Level(6_250) == 2 by { assert Level(3_125) == 1; } } }
  }

  function CeilDiv(n: nat): nat { (n + WINDOW_MIN - 1) / WINDOW_MIN }

  lemma CeilCovers(n: nat, total: nat)
    requires WINDOW_MIN * n < total
    ensures n < CeilDiv(total)
  {
  }

  /** The last block of the narrowest call that starts at `start`. */
  function MinEnd(start: u64, to: u64): u64
    requires to <= U64_MAX - WINDOW
  {
    Min(start + WINDOW_MIN - 1, to)
  }

  /** A page is an answer the node gave; a span is skipped only after its narrowest call failed. */
  ghost predicate Honest(spans: seq<Span>, rpc: Rpc, calls: nat, to: u64)
    requires to <= U64_MAX - WINDOW
  {
    forall i :: 0 <= i < |spans| ==> SpanHonest(spans[i], rpc, calls, to)
  }

  ghost predicate SpanHonest(s: Span, rpc: Rpc, calls: nat, to: u64)
    requires to <= U64_MAX - WINDOW
  {
    match s
    case Page(a, b, found) => b < a + WINDOW && exists t: nat :: t < calls && rpc(t, a, b) == Some(found)
    case Skipped(a, b) => a <= to && b == MinEnd(a, to) && exists t: nat :: t < calls && rpc(t, a, b) == None
  }

  /** The number of skipped spans at the end. */
  function SkippedRun(spans: seq<Span>): nat {
    if spans == [] || spans[|spans|-1].Page? then 0 else 1 + SkippedRun(spans[..|spans|-1])
  }

  lemma SpanAdded(spans: seq<Span>, s: Span, rpc: Rpc, calls: nat, from: nat, to: u64)
    requires to <= U64_MAX - WINDOW && Honest(spans, rpc, calls, to) && SpanHonest(s, rpc, calls + 1, to)
    requires s.from <= s.to && Partition(spans, from, s.from)
    ensures Honest(spans + [s], rpc, calls + 1, to) && Partition(spans + [s], from, s.to + 1)
    ensures Found(spans + [s]) == Found(spans) + (if s.Page? then s.found else [])
    ensures SkippedRun(spans + [s]) == if s.Page? then 0 else 1 + SkippedRun(spans)
  {
    assert (spans + [s])[..|spans|] == spans;
    CallsGrow(spans, rpc, calls, to);
  }

  lemma CallsGrow(spans: seq<Span>, rpc: Rpc, calls: nat, to: u64)
    requires to <= U64_MAX - WINDOW && Honest(spans, rpc, calls, to)
    ensures Honest(spans, rpc, calls + 1, to)
  {
    forall i | 0 <= i < |spans| ensures SpanHonest(spans[i], rpc, calls + 1, to) {
      assert SpanHonest(spans[i], rpc, calls, to);
    }
  }

  /** Ends on every pattern of answers.  `stop` is the first block not dealt with. */
  method LockedHashlocksBySender(rpc: Rpc, from: u64, to: u64)
    returns (out: seq<Hash32>, calls: nat, ghost spans: seq<Span>, ghost stop: nat)
    requires to <= U64_MAX - WINDOW
    ensures Partition(spans, from, stop) && Honest(spans, rpc, calls, to) && stop <= Max(from, to + 1)
    ensures out == Dedup(Found(spans))
    ensures stop < to + 1 ==> from <= stop && SkippedRun(spans) == MAX_CONSEC_FAIL - 1
                              && exists t: nat :: t < calls && rpc(t, stop, MinEnd(stop, to)) == None
    ensures calls <= 2 * CeilDiv(Max(0, to + 1 - from)) + 5
  {
    hide Partition, Found, Dedup, Level, Honest, SpanHonest, SkippedRun, CeilDiv;
    FullLevel();
    NothingYet(rpc, from, to);
    var seen: set<Hash32> := {};
    var start, window, consecutiveFail := from, WINDOW, 0;
    out, calls, spans := [], 0, [];
    ghost var pages, halvings := 0, 0;
    while start <= to
      invariant from <= start <= Max(from, to + 1) && WINDOW_MIN <= window <= WINDOW
      invariant Partition(spans, from, start) && Honest(spans, rpc, calls, to) && out == Dedup(Found(spans))
      invariant forall h :: h in seen <==> h in out
      invariant consecutiveFail == SkippedRun(spans) < MAX_CONSEC_FAIL
      invariant calls == |spans| + halvings && halvings + Level(window) <= 5 + pages && pages <= |spans|
      invariant if start <= to then WINDOW_MIN * |spans| <= start - from
                else |spans| <= CeilDiv(Max(0, to + 1 - from))
      decreases Max(0, to + 1 - start), window
    {
      var end := Min(start + window - 1, to);
      CeilCovers(|spans|, to + 1 - from);
      var reply := rpc(calls, start, end);
      if reply.Some? {
        consecutiveFail := 0;
        ghost var before := out;
        out, seen := AddNew(reply.value, out, seen, Found(spans));
        SpanIsPage(start, end, reply.value, rpc, calls, to);
        SpanAdded(spans, Page(start, end, reply.value), rpc, calls, from, to);
        spans, pages := spans + [Page(start, end, reply.value)], pages + 1;
        start := end + 1;
        if window < WINDOW {
          LevelOfDouble(window);
          window := Min(window * 2, WINDOW);
        }
      } else if window > WINDOW_MIN {
        LevelOfHalf(window);
        CallsGrow(spans, rpc, calls, to);
        window := Max(window / 2, WINDOW_MIN);
        halvings := halvings + 1;
      } else {
        consecutiveFail := consecutiveFail + 1;
        if consecutiveFail >= MAX_CONSEC_FAIL {
          CallsGrow(spans, rpc, calls, to);
          assert end == MinEnd(start, to) && rpc(calls, start, end) == None;
          stop, calls := start, calls + 1;
          return;
        }
        SpanIsSkipped(start, end, rpc, calls, to);
        SpanAdded(spans, Skipped(start, end), rpc, calls, from, to);
        spans := spans + [Skipped(start, end)];
        start := end + 1;
        NoNewFinds(Found(spans[..|spans|-1]));
      }
      calls := calls + 1;
    }
    stop := start;
  }

  lemma NoNewFinds(s: seq<Hash32>)
    ensures s + [] == s
  {
  }

  lemma NothingYet(rpc: Rpc, from: u64, to: u64)
    requires to <= U64_MAX - WINDOW
    ensures Partition([], from, from) && Honest([], rpc, 0, to) && Dedup(Found([])) == [] && SkippedRun([]) == 0
  {
  }

  lemma SpanIsPage(a: u64, b: u64, found: seq<Hash32>, rpc: Rpc, calls: nat, to: u64)
    requires to <= U64_MAX - WINDOW && b < a + WINDOW && rpc(calls, a, b) == Some(found)
    ensures SpanHonest(Page(a, b, found), rpc, calls + 1, to)
  {
  }

  lemma SpanIsSkipped(a: u64, b: u64, rpc: Rpc, calls: nat, to: u64)
    requires to <= U64_MAX - WINDOW && a <= to && b == MinEnd(a, to) && rpc(calls, a, b) == None
    ensures SpanHonest(Skipped(a, b), rpc, calls + 1, to)
  {
  }

  /** Append the hashlocks not seen before. */
  method AddNew(found: seq<Hash32>, out: seq<Hash32>, seen: set<Hash32>, ghost all: seq<Hash32>)
    returns (out': seq<Hash32>, seen': set<Hash32>)
    requires out == Dedup(all) && forall h :: h in seen <==> h in out
    ensures out' == Dedup(all + found) && forall h :: h in seen' <==> h in out'
  {
    hide Dedup;
    out', seen' := out, seen;
    NoNewFinds(all);
    for i := 0 to |found|
      invariant out' == Dedup(all + found[..i]) && forall h :: h in seen' <==> h in out'
    {
      assert all + found[..i+1] == all + found[..i] + [found[i]];
      DedupStep(all + found[..i], found[i]);
      if found[i] !in seen' {
        seen' := seen' + {found[i]};
        out' := out' + [found[i]];
      }
    }
    assert found[..|found|] == found;
  }

  /** What a scan promises, as one predicate. */
  ghost predicate ScanOf(rpc: Rpc, from: nat, to: u64, spans: seq<Span>, stop: nat, calls: nat) {
    && to <= U64_MAX - WINDOW
    && Partition(spans, from, stop) && Honest(spans, rpc, calls, to) && stop <= Max(from, to + 1)
    && (stop < to + 1 ==> SkippedRun(spans) == MAX_CONSEC_FAIL - 1
                          && exists t: nat :: t < calls && rpc(t, stop, MinEnd(stop, to)) == None)
  }

  lemma IsScan(rpc: Rpc, from: nat, to: u64, spans: seq<Span>, stop: nat, calls: nat)
    requires to <= U64_MAX - WINDOW
    requires Partition(spans, from, stop) && Honest(spans, rpc, calls, to) && stop <= Max(from, to + 1)
    requires stop < to + 1 ==> SkippedRun(spans) == MAX_CONSEC_FAIL - 1
                               && exists t: nat :: t < calls && rpc(t, stop, MinEnd(stop, to)) == None
    ensures ScanOf(rpc, from, to, spans, stop, calls)
  {
  }

  // ----- completeness -----

  /** Every answer holds exactly the hashlocks locked in its blocks. */
  ghost predicate Truthful(rpc: Rpc, locks: u64 -> set<Hash32>) {
    forall t: nat, a: u64, b: u64, found, h :: rpc(t, a, b) == Some(found) ==> (h in found <==> InBlocks(locks, a, b, h))
  }

  ghost predicate InBlocks(locks: u64 -> set<Hash32>, a: nat, b: int, h: Hash32) {
    exists n: u64 :: a <= n <= b && h in locks(n)
  }

  lemma {:induction false} FoundInRange(spans: seq<Span>, from: nat, stop: nat, rpc: Rpc, locks: u64 -> set<Hash32>, calls: nat, to: u64, h: Hash32)
    requires to <= U64_MAX - WINDOW && Partition(spans, from, stop) && Honest(spans, rpc, calls, to) && Truthful(rpc, locks)
    ensures from <= stop
    ensures h in Found(spans) ==> InBlocks(locks, from, stop - 1, h)
    ensures (forall i :: 0 <= i < |spans| ==> spans[i].Page?) && InBlocks(locks, from, stop - 1, h) ==> h in Found(spans)
  {
    if spans != [] {
      var rest, last := spans[..|spans|-1], spans[|spans|-1];
      assert SpanHonest(last, rpc, calls, to);
      FoundInRange(rest, from, last.from, rpc, locks, calls, to, h);
      if InBlocks(locks, from, stop - 1, h) {
        var n: u64 :| from <= n <= stop - 1 && h in locks(n);
        assert if n < last.from then InBlocks(locks, from, last.from - 1, h) else InBlocks(locks, last.from, last.to, h);
      }
    }
  }

  /** Unless a call no wider than the minimum window failed, the scan returns exactly the hashlocks of the
      range; and in any case only hashlocks of the range, each once. */
  method ScanComplete(rpc: Rpc, locks: u64 -> set<Hash32>, from: u64, to: u64) returns (out: seq<Hash32>, calls: nat)
    requires to <= U64_MAX - WINDOW && Truthful(rpc, locks)
    ensures forall h :: h in out ==> InBlocks(locks, from, to, h)
    ensures forall i, j :: 0 <= i < j < |out| ==> out[i] != out[j]
    ensures (forall t: nat, a: u64 :: t < calls && a <= to ==> rpc(t, a, MinEnd(a, to)) != None)
            ==> forall h :: InBlocks(locks, from, to, h) ==> h in out
  {
    hide Found, Partition, Truthful, InBlocks, MinEnd;
    ghost var spans;
    ghost var stop: int;
    out, calls, spans, stop := LockedHashlocksBySender(rpc, from, to);
    forall h ensures h in out ==> InBlocks(locks, from, to, h) {
      FoundInRange(spans, from, stop, rpc, locks, calls, to, h);
      if InBlocks(locks, from, stop - 1, h) { MoreBlocks(locks, from, stop - 1, to, h); }
    }
    if forall t: nat, a: u64 :: t < calls && a <= to ==> rpc(t, a, MinEnd(a, to)) != None {
      forall i | 0 <= i < |spans| ensures spans[i].Page? { assert SpanHonest(spans[i], rpc, calls, to); }
      forall h | InBlocks(locks, from, to, h) ensures h in out {
        FoundInRange(spans, from, stop, rpc, locks, calls, to, h);
        MoreBlocks(locks, from, to, stop - 1, h);
      }
    }
  }

  lemma MoreBlocks(locks: u64 -> set<Hash32>, a: nat, b: int, c: int, h: Hash32)
    requires InBlocks(locks, a, b, h) && (b <= c || b < a)
    ensures InBlocks(locks, a, c, h)
  {
  }
}
