/** Cursor pagination over one sorted listing (src/index.rs:632-727). */
module Paging {
  import opened Common
  import opened Bytes
  import opened HtlcKeys

  datatype Filter = Filter(role: Option<Role>, states: seq<HtlcState>, owned: Option<Hash32>, since: Option<u64>)

  /** The owned-address field is never consulted. */
  predicate FilterMatches(r: Htlc, f: Filter) {
    && (f.role.Some? ==> r.role == f.role.value)
    && (f.states == [] || r.state in f.states)
    && (f.since.Some? ==> HeightOf(r) >= f.since.value)
  }

  /** Strictly ascending by (height, tx id, output index). */
  predicate Ascending(l: seq<Htlc>) { forall i, j :: 0 <= i < j < |l| ==> PosLt(Pos(l[i]), Pos(l[j])) }

  predicate DistinctPos(l: seq<Htlc>) { forall i, j :: 0 <= i < j < |l| ==> Pos(l[i]) != Pos(l[j]) }

  // ----- sorting -----

  function Insert(r: Htlc, l: seq<Htlc>): (s: seq<Htlc>)
    ensures |s| == |l| + 1 && forall x :: x in s <==> x == r || x in l
  {
    if l == [] then [r]
    else if PosLt(Pos(r), Pos(l[0])) then [r] + l
    else [l[0]] + Insert(r, l[1..])
  }

  /** sort_by on the position: any input order gives the same ascending list. */
  function Sort(l: seq<Htlc>): (s: seq<Htlc>)
    ensures |s| == |l| && forall x :: x in s <==> x in l
  {
    if l == [] then [] else Insert(l[0], Sort(l[1..]))
  }

  lemma {:induction false} InsertAscending(r: Htlc, l: seq<Htlc>)
    requires Ascending(l) && forall x :: x in l ==> Pos(x) != Pos(r)
    ensures Ascending(Insert(r, l))
  {
    if l != [] {
      PosTotal(Pos(r), Pos(l[0]));
      if PosLt(Pos(r), Pos(l[0])) {
        forall j | 0 < j < |l| ensures PosLt(Pos(r), Pos(l[j])) { PosTransitive(Pos(r), Pos(l[0]), Pos(l[j])); }
      } else {
        InsertAscending(r, l[1..]);
        forall x | x in Insert(r, l[1..]) ensures PosLt(Pos(l[0]), Pos(x)) {
          if x in l[1..] { var k :| 0 <= k < |l[1..]| && l[1..][k] == x; }
        }
      }
    }
  }

  lemma {:induction false} SortAscending(l: seq<Htlc>)
    requires DistinctPos(l)
    ensures Ascending(Sort(l))
  {
    if l != [] {
      SortAscending(l[1..]);
      forall x | x in Sort(l[1..]) ensures Pos(x) != Pos(l[0]) {
        var k :| 0 <= k < |l[1..]| && l[1..][k] == x;
        assert l[1..][k] == l[k+1];
      }
      InsertAscending(l[0], Sort(l[1..]));
    }
  }

  /** An ascending list is determined by its elements. */
  lemma {:induction false} AscendingUnique(a: seq<Htlc>, b: seq<Htlc>)
    requires Ascending(a) && Ascending(b) && forall x :: x in a <==> x in b
    ensures a == b
  {
    if a == [] {
      if b != [] { HasElement(b); }
    } else {
      assert a[0] in b;
      HeadsMeet(a, b);
      forall x ensures x in a[1..] <==> x in b[1..] { TailElements(a, x); TailElements(b, x); }
      AscendingUnique(a[1..], b[1..]);
      assert a == [a[0]] + a[1..] && b == [b[0]] + b[1..];
    }
  }

  lemma HasElement(l: seq<Htlc>)
    requires l != []
    ensures exists r :: r in l
  {
    assert l[0] in l;
  }

  lemma HeadsMeet(a: seq<Htlc>, b: seq<Htlc>)
    requires Ascending(a) && Ascending(b) && a != [] && b != [] && a[0] in b && forall x :: x in b ==> x in a
    ensures a[0] == b[0]
  {
    var i :| 0 <= i < |b| && b[i] == a[0];
    assert b[0] in b;
    var j :| 0 <= j < |a| && a[j] == b[0];
    PosTotal(Pos(a[0]), Pos(b[0]));
  }

  lemma TailElements(a: seq<Htlc>, x: Htlc)
    requires Ascending(a) && a != []
    ensures x in a[1..] <==> x in a && x != a[0]
  {
    if x in a && x != a[0] {
      var i :| 0 <= i < |a| && a[i] == x;
      assert a[1..][i-1] == x;
    }
    if x in a[1..] {
      var i :| 0 <= i < |a[1..]| && a[1..][i] == x;
      assert a[i+1] == x;
      PosTotal(Pos(a[0]), Pos(a[i+1]));
    }
  }

  // ----- pages -----

  /** The part of an ascending list strictly past the cursor. */
  function After(l: seq<Htlc>, c: Option<Cursor>): (s: seq<Htlc>)
    ensures |s| <= |l|
  {
    if c.None? || l == [] then l
    else if PosLt(c.value, Pos(l[0])) then l
    else After(l[1..], c)
  }

  lemma {:induction false} AfterIsFilter(l: seq<Htlc>, c: Option<Cursor>)
    requires Ascending(l)
    ensures Ascending(After(l, c))
    ensures forall x :: x in After(l, c) <==> x in l && (c.Some? ==> PosLt(c.value, Pos(x)))
  {
    if c.Some? && l != [] {
      if PosLt(c.value, Pos(l[0])) {
        forall x | x in l ensures PosLt(c.value, Pos(x)) {
          var i :| 0 <= i < |l| && l[i] == x;
          if i > 0 { PosTransitive(c.value, Pos(l[0]), Pos(x)); }
        }
      } else {
        AfterIsFilter(l[1..], c);
      }
    }
  }

  /** Past the position of element `i` lies exactly what follows it. */
  lemma {:induction false} AfterElement(l: seq<Htlc>, i: nat)
    requires Ascending(l) && i < |l|
    ensures After(l, Some(Pos(l[i]))) == l[i+1..]
  {
    PosTotal(Pos(l[0]), Pos(l[i]));
    if i > 0 {
      AfterElement(l[1..], i - 1);
      assert l[1..][i-1] == l[i] && l[1..][i..] == l[i+1..];
    } else if |l| > 1 {
      assert After(l[1..], Some(Pos(l[0]))) == l[1..];
    }
  }

  datatype Page = Page(rows: seq<Htlc>, next: Option<Cursor>)

  function PageOf(l: seq<Htlc>, limit: nat, c: Option<Cursor>): Page
    requires limit >= 1
  {
    var tail := After(l, c);
    if |tail| > limit then Page(tail[..limit], Some(Pos(tail[limit-1]))) else Page(tail, None)
  }

  lemma {:induction false} AfterSuffix(l: seq<Htlc>, c: Option<Cursor>) returns (k: nat)
    ensures k <= |l| && After(l, c) == l[k..]
  {
    if c.None? || l == [] || PosLt(c.value, Pos(l[0])) {
      k := 0;
    } else {
      k := AfterSuffix(l[1..], c);
      k := k + 1;
    }
  }

  /** The page after a page is the rest of the list. */
  lemma NextPageContinues(l: seq<Htlc>, limit: nat, c: Option<Cursor>)
    requires Ascending(l) && limit >= 1 && PageOf(l, limit, c).next.Some?
    ensures After(l, PageOf(l, limit, c).next) == After(l, c)[limit..]
  {
    var k := AfterSuffix(l, c);
    AfterElement(l, k + limit - 1);
    assert After(l, c)[limit-1] == l[k+limit-1];
  }

  /** Follow next_cursor until it runs out. */
  function Follow(l: seq<Htlc>, limit: nat, c: Option<Cursor>): (pages: seq<seq<Htlc>>)
    requires Ascending(l) && limit >= 1
    decreases |After(l, c)|
  {
    var p := PageOf(l, limit, c);
    if p.next.None? then [p.rows]
    else
      (NextPageContinues(l, limit, c);
       [p.rows] + Follow(l, limit, p.next))
  }

  function Flatten(pages: seq<seq<Htlc>>): seq<Htlc> {
    if pages == [] then [] else pages[0] + Flatten(pages[1..])
  }

  /** The pages concatenate to exactly the rows past the cursor: no gap, no duplicate. */
  lemma {:induction false} FollowCovers(l: seq<Htlc>, limit: nat, c: Option<Cursor>)
    requires Ascending(l) && limit >= 1
    ensures Flatten(Follow(l, limit, c)) == After(l, c)
    decreases |After(l, c)|
  {
    var p := PageOf(l, limit, c);
    if p.next.None? {
      assert Flatten([p.rows]) == p.rows + Flatten([]);
    } else {
      NextPageContinues(l, limit, c);
      FollowCovers(l, limit, p.next);
      assert Follow(l, limit, c)[1..] == Follow(l, limit, p.next);
    }
  }
}
