/** The HTLC index: one primary table and four secondary key tables (src/index.rs). */
module HtlcStore {
  import opened Common
  import opened Bytes
  import opened HtlcKeys
  import opened Paging

  /** The five tables.  Rows are held decoded: bincode is not part of this model. */
  datatype Tables = Tables(
    tracked: map<Str, Htlc>, byState: set<Str>, byRole: set<Str>, byHash: set<Str>, byOwned: set<Str>)

  function StateKeyOf(r: Htlc): Str { StateKey(r.state, HeightOf(r), r.lockTx, r.vout) }
  function RoleKeyOf(r: Htlc): Str { RoleKey(r.role, HeightOf(r), r.lockTx, r.vout) }
  function HashKeyOf(r: Htlc): Str { HashKey(r.params.hashLock, r.lockTx, r.vout) }
  function OwnedKeyOf(o: Hash32, r: Htlc): Str { OwnedKey(o, HeightOf(r), r.lockTx, r.vout) }

  // ----- what the source does to the tables -----

  /** upsert_htlc: drop the prior row's keys, write the row, write its keys. */
  function Upsert(t: Tables, r: Htlc, owned: Hash32): Tables {
    var k := Key(r);
    var t0 := if k in t.tracked then DropKeys(t, t.tracked[k], owned) else t;
    Tables(t0.tracked[k := r], t0.byState + {StateKeyOf(r)}, t0.byRole + {RoleKeyOf(r)},
           t0.byHash + {HashKeyOf(r)}, t0.byOwned + {OwnedKeyOf(owned, r)})
  }

  function DropKeys(t: Tables, prev: Htlc, owned: Hash32): Tables {
    t.(byState := t.byState - {StateKeyOf(prev)}, byRole := t.byRole - {RoleKeyOf(prev)},
       byHash := t.byHash - {HashKeyOf(prev)}, byOwned := t.byOwned - {OwnedKeyOf(owned, prev)})
  }

  /** forget_htlc. */
  function Forget(t: Tables, tx: Hash32, vout: u32, owned: Hash32): Tables {
    var k := PrimaryKey(tx, vout);
    if k in t.tracked then DropKeys(t, t.tracked[k], owned).(tracked := t.tracked - {k}) else t
  }

  // ----- consistency -----

  /** A secondary table holds exactly the key images of the primary rows.  A secondary key ends in the
      primary key of its row, `skip` bytes in. */
  ghost predicate Images(keys: set<Str>, tracked: map<Str, Htlc>, skip: nat, f: Htlc -> Str) {
    && (forall k :: k in tracked ==> f(tracked[k]) in keys)
    && (forall x :: x in keys ==> |x| >= skip && x[skip..] in tracked && f(tracked[x[skip..]]) == x)
  }

  ghost predicate Consistent(t: Tables) {
    && (forall k :: k in t.tracked ==> k == Key(t.tracked[k]))
    && Images(t.byState, t.tracked, 9, StateKeyOf)
    && Images(t.byRole, t.tracked, 9, RoleKeyOf)
    && Images(t.byHash, t.tracked, 32, HashKeyOf)
  }

  /** The same for by_owned, when each row has one owner. */
  ghost predicate OwnedImages(keys: set<Str>, tracked: map<Str, Htlc>, owner: map<Str, Hash32>) {
    && owner.Keys == tracked.Keys
    && (forall k :: k in tracked ==> OwnedKeyOf(owner[k], tracked[k]) in keys)
    && (forall x :: x in keys ==> |x| >= 40 && x[40..] in tracked && OwnedKeyOf(owner[x[40..]], tracked[x[40..]]) == x)
  }

  ghost predicate EndsInKey(skip: nat, f: Htlc -> Str) { forall r :: |f(r)| >= skip && f(r)[skip..] == Key(r) }

  lemma AllEndInKey()
    ensures EndsInKey(9, StateKeyOf) && EndsInKey(9, RoleKeyOf) && EndsInKey(32, HashKeyOf)
    ensures forall o: Hash32, r :: |OwnedKeyOf(o, r)| >= 40 && OwnedKeyOf(o, r)[40..] == Key(r)
  {
    forall r, o: Hash32 ensures StateKeyOf(r)[9..] == Key(r) && RoleKeyOf(r)[9..] == Key(r)
                        && HashKeyOf(r)[32..] == Key(r) && OwnedKeyOf(o, r)[40..] == Key(r) {
      KeySuffixes(r.state, r.role, o, r.params.hashLock, HeightOf(r), r.lockTx, r.vout);
    }
  }

  lemma ImagesUpsert(keys: set<Str>, tracked: map<Str, Htlc>, skip: nat, f: Htlc -> Str, r: Htlc)
    requires EndsInKey(skip, f) && Images(keys, tracked, skip, f)
    requires forall k :: k in tracked ==> k == Key(tracked[k])
    ensures Images((if Key(r) in tracked then keys - {f(tracked[Key(r)])} else keys) + {f(r)}, tracked[Key(r) := r], skip, f)
  {
    forall k | k in tracked && k != Key(r) && Key(r) in tracked ensures f(tracked[k]) != f(tracked[Key(r)]) {
      assert f(tracked[k])[skip..] == k && f(tracked[Key(r)])[skip..] == Key(r);
    }
  }

  lemma ImagesForget(keys: set<Str>, tracked: map<Str, Htlc>, skip: nat, f: Htlc -> Str, key: Str)
    requires EndsInKey(skip, f) && Images(keys, tracked, skip, f) && key in tracked
    requires forall k :: k in tracked ==> k == Key(tracked[k])
    ensures Images(keys - {f(tracked[key])}, tracked - {key}, skip, f)
  {
    forall k | k in tracked && k != key ensures f(tracked[k]) != f(tracked[key]) {
      assert f(tracked[k])[skip..] == k && f(tracked[key])[skip..] == key;
    }
  }

  /** Writing a row under any owner keeps state, role and hashlock tables exact. */
  lemma UpsertConsistent(t: Tables, r: Htlc, owned: Hash32)
    requires Consistent(t)
    ensures Consistent(Upsert(t, r, owned)) && Upsert(t, r, owned).tracked == t.tracked[Key(r) := r]
  {
    hide Images, EndsInKey, StateKeyOf, RoleKeyOf, HashKeyOf, OwnedKeyOf, Key;
    AllEndInKey();
    ImagesUpsert(t.byState, t.tracked, 9, StateKeyOf, r);
    ImagesUpsert(t.byRole, t.tracked, 9, RoleKeyOf, r);
    ImagesUpsert(t.byHash, t.tracked, 32, HashKeyOf, r);
  }

  lemma ForgetConsistent(t: Tables, tx: Hash32, vout: u32, owned: Hash32)
    requires Consistent(t)
    ensures Consistent(Forget(t, tx, vout, owned))
    ensures Forget(t, tx, vout, owned).tracked == t.tracked - {PrimaryKey(tx, vout)}
  {
    hide Images, EndsInKey, StateKeyOf, RoleKeyOf, HashKeyOf, OwnedKeyOf;
    var key := PrimaryKey(tx, vout);
    if key in t.tracked {
      AllEndInKey();
      ImagesForget(t.byState, t.tracked, 9, StateKeyOf, key);
      ImagesForget(t.byRole, t.tracked, 9, RoleKeyOf, key);
      ImagesForget(t.byHash, t.tracked, 32, HashKeyOf, key);
    }
  }

  lemma OwnedImagesUpsert(keys: set<Str>, tracked: map<Str, Htlc>, owner: map<Str, Hash32>, r: Htlc, o: Hash32)
    requires OwnedImages(keys, tracked, owner) && (Key(r) in owner ==> owner[Key(r)] == o)
    requires forall k :: k in tracked ==> k == Key(tracked[k])
    requires forall o: Hash32, r :: |OwnedKeyOf(o, r)| >= 40 && OwnedKeyOf(o, r)[40..] == Key(r)
    ensures OwnedImages((if Key(r) in tracked then keys - {OwnedKeyOf(o, tracked[Key(r)])} else keys) + {OwnedKeyOf(o, r)},
                        tracked[Key(r) := r], owner[Key(r) := o])
  {
    hide OwnedKeyOf, Key;
    forall k | k in tracked && k != Key(r) && Key(r) in tracked
      ensures OwnedKeyOf(owner[k], tracked[k]) != OwnedKeyOf(o, tracked[Key(r)])
    {
      assert OwnedKeyOf(owner[k], tracked[k])[40..] == k;
    }
  }

  /** by_owned stays exact when the row is new or written again under the owner it had. */
  lemma UpsertOwned(t: Tables, owner: map<Str, Hash32>, r: Htlc, owned: Hash32)
    requires Consistent(t) && OwnedImages(t.byOwned, t.tracked, owner)
    requires Key(r) in owner ==> owner[Key(r)] == owned
    ensures OwnedImages(Upsert(t, r, owned).byOwned, Upsert(t, r, owned).tracked, owner[Key(r) := owned])
  {
    hide OwnedImages, OwnedKeyOf, StateKeyOf, RoleKeyOf, HashKeyOf, Images, EndsInKey, Key;
    AllEndInKey();
    OwnedImagesUpsert(t.byOwned, t.tracked, owner, r, owned);
  }

  /** One table operation; a session is a list of them. */
  datatype Op = Put(r: Htlc, owned: Hash32) | Remove(tx: Hash32, vout: u32, owned: Hash32)

  function Do(t: Tables, op: Op): Tables {
    match op
    case Put(r, owned) => Upsert(t, r, owned)
    case Remove(tx, vout, owned) => Forget(t, tx, vout, owned)
  }

  function DoAll(t: Tables, ops: seq<Op>): Tables
    decreases |ops|
  {
    if ops == [] then t else Do(DoAll(t, ops[..|ops|-1]), ops[|ops|-1])
  }

  const EMPTY: Tables := Tables(map[], {}, {}, {}, {})

  lemma {:induction false} SessionConsistent(ops: seq<Op>)
    ensures Consistent(DoAll(EMPTY, ops))
    decreases |ops|
  {
    if ops != [] {
      SessionConsistent(ops[..|ops|-1]);
      var t := DoAll(EMPTY, ops[..|ops|-1]);
      match ops[|ops|-1]
      case Put(r, owned) => UpsertConsistent(t, r, owned);
      case Remove(tx, vout, owned) => ForgetConsistent(t, tx, vout, owned);
    }
  }

  // ----- the hashlock range -----

  function Fill(b: byte, n: nat): (s: Str)
    ensures |s| == n && forall i :: 0 <= i < n ==> s[i] == b
  {
    seq(n, i => b)
  }

  lemma {:induction false} FillBounds(s: Str)
    ensures LexLe(Fill(0, |s|), s) && LexLe(s, Fill(255, |s|))
  {
    if s != [] {
      FillBounds(s[1..]);
      assert Fill(0, |s|)[1..] == Fill(0, |s| - 1) && Fill(255, |s|)[1..] == Fill(255, |s| - 1);
      assert s == [s[0]] + s[1..];
    }
  }

  /** The inclusive byte range [h 00..00, h FF..FF] holds exactly the 68-byte keys that start with h. */
  lemma HashRange(h: Hash32, x: Str)
    requires |x| == 68
    ensures LexLe(h + Fill(0, 36), x) && LexLe(x, h + Fill(255, 36)) <==> x[..32] == h
  {
    FillBounds(x[32..]);
    assert x == x[..32] + x[32..];
    LexConcat(h, Fill(0, 36), x[..32], x[32..]);
    LexConcat(x[..32], x[32..], h, Fill(255, 36));
    if x[..32] != h && LexLt(h, x[..32]) && LexLt(x[..32], h) {
      LexTransitive(h, x[..32], h);
      LexIrreflexive(h);
    }
  }

  function RangeScan(keys: set<Str>, lo: Str, hi: Str): set<Str> { set x | x in keys && LexLe(lo, x) && LexLe(x, hi) }

  ghost predicate InHashRange(t: Tables, h: Hash32, keys: seq<Str>) {
    forall k :: k in keys <==> k in t.byHash && LexLe(h + Fill(0, 36), k) && LexLe(k, h + Fill(255, 36))
  }

  /** What a hashlock key in the range says about its row. */
  predicate RowOfKey(t: Tables, h: Hash32, k: Str) {
    && |k| == 68 && k[32..] in t.tracked && k == HashKeyOf(t.tracked[k[32..]]) && k[..32] == h
    && t.tracked[k[32..]].params.hashLock == h && Key(t.tracked[k[32..]]) == k[32..]
  }

  lemma RangeRow(t: Tables, h: Hash32, k: Str)
    requires Consistent(t) && k in t.byHash && LexLe(h + Fill(0, 36), k) && LexLe(k, h + Fill(255, 36))
    ensures RowOfKey(t, h, k)
  {
    hide LexLe, LexLt, StateKeyOf, RoleKeyOf;
    AllEndInKey();
    HashRange(h, k);
  }

  lemma RowInRange(t: Tables, h: Hash32, r: Htlc)
    requires Consistent(t) && Key(r) in t.tracked && t.tracked[Key(r)] == r && r.params.hashLock == h
    ensures HashKeyOf(r) in t.byHash && LexLe(h + Fill(0, 36), HashKeyOf(r)) && LexLe(HashKeyOf(r), h + Fill(255, 36))
    ensures HashKeyOf(r)[32..] == Key(r)
  {
    hide LexLe, LexLt, StateKeyOf, RoleKeyOf;
    AllEndInKey();
    assert HashKeyOf(r)[..32] == h;
    HashRange(h, HashKeyOf(r));
  }

  /** The keys the range scan yields are the hashlock keys of the matching rows. */
  lemma RangeRows(t: Tables, h: Hash32, keys: seq<Str>)
    requires Consistent(t) && InHashRange(t, h, keys)
    ensures forall i :: 0 <= i < |keys| ==> RowOfKey(t, h, keys[i])
    ensures forall r :: Key(r) in t.tracked && t.tracked[Key(r)] == r && r.params.hashLock == h ==>
              HashKeyOf(r) in keys && HashKeyOf(r)[32..] == Key(r)
  {
    hide LexLe, LexLt, Consistent, RowOfKey, Key;
    forall i | 0 <= i < |keys| ensures RowOfKey(t, h, keys[i]) {
      assert keys[i] in keys;
      RangeRow(t, h, keys[i]);
    }
    forall r | Key(r) in t.tracked && t.tracked[Key(r)] == r && r.params.hashLock == h
      ensures HashKeyOf(r) in keys && HashKeyOf(r)[32..] == Key(r)
    {
      RowInRange(t, h, r);
    }
  }

  lemma SuffixOrder(h: Hash32, x: Str, y: Str)
    requires |x| == |y| == 68 && x[..32] == h && y[..32] == h && LexLt(x, y)
    ensures LexLt(x[32..], y[32..])
  {
    assert x == h + x[32..] && y == h + y[32..];
    LexConcat(h, x[32..], h, y[32..]);
    LexIrreflexive(h);
  }

  // ----- listing -----

  ghost predicate IsMatch(tracked: map<Str, Htlc>, f: Filter, r: Htlc) {
    Key(r) in tracked && tracked[Key(r)] == r && FilterMatches(r, f)
  }

  /** The filtered table in ascending order. */
  ghost predicate IsListing(l: seq<Htlc>, tracked: map<Str, Htlc>, f: Filter) {
    Ascending(l) && forall r :: r in l <==> IsMatch(tracked, f, r)
  }

  /** Ascending order of a set of keys, which is how redb iterates a table. */
  method InKeyOrder(keys: set<Str>) returns (out: seq<Str>)
    ensures forall k :: k in out <==> k in keys
    ensures forall i, j :: 0 <= i < j < |out| ==> LexLt(out[i], out[j])
  {
    out := [];
    var todo := keys;
    while todo != {}
      invariant forall k :: k in keys <==> k in out || k in todo
      invariant forall i, j :: 0 <= i < j < |out| ==> LexLt(out[i], out[j])
      invariant forall i, k :: 0 <= i < |out| && k in todo ==> LexLt(out[i], k)
      decreases |todo|
    {
      var least := Least(todo);
      out := out + [least];
      todo := todo - {least};
    }
  }

  method Least(keys: set<Str>) returns (least: Str)
    requires keys != {}
    ensures least in keys && forall k :: k in keys && k != least ==> LexLt(least, k)
  {
    least :| least in keys;
    var rest := keys - {least};
    while rest != {}
      invariant rest <= keys && least in keys && least !in rest
      invariant forall k :: k in keys && k !in rest && k != least ==> LexLt(least, k)
      decreases |rest|
    {
      var k :| k in rest;
      rest := rest - {k};
      LexTotal(least, k);
      if LexLt(k, least) {
        forall j | j in keys && j !in rest && j != k ensures LexLt(k, j) {
          if j != least { LexTransitive(k, least, j); }
        }
        least := k;
      }
    }
  }

  class Index {
    var tracked: map<Str, Htlc>
    var byState: set<Str>
    var byRole: set<Str>
    var byHash: set<Str>
    var byOwned: set<Str>

    ghost function View(): Tables
      reads this
    {
      Tables(tracked, byState, byRole, byHash, byOwned)
    }

    ghost predicate Valid()
      reads this
    {
      Consistent(View())
    }

    constructor ()
      ensures View() == EMPTY && Valid()
    {
      tracked, byState, byRole, byHash, byOwned := map[], {}, {}, {}, {};
    }

    method UpsertHtlc(r: Htlc, owned: Hash32)
      requires Valid()
      modifies this
      ensures Valid() && View() == Upsert(old(View()), r, owned)
      ensures tracked == old(tracked)[Key(r) := r]
    {
      hide Consistent, StateKeyOf, RoleKeyOf, HashKeyOf, OwnedKeyOf, Key;
      UpsertConsistent(View(), r, owned);
      var k := Key(r);
      if k in tracked {
        var prev := tracked[k];
        byState := byState - {StateKeyOf(prev)};
        byRole := byRole - {RoleKeyOf(prev)};
        byHash := byHash - {HashKeyOf(prev)};
        byOwned := byOwned - {OwnedKeyOf(owned, prev)};
      }
      tracked := tracked[k := r];
      byState := byState + {StateKeyOf(r)};
      byRole := byRole + {RoleKeyOf(r)};
      byHash := byHash + {HashKeyOf(r)};
      byOwned := byOwned + {OwnedKeyOf(owned, r)};
    }

    method GetHtlc(tx: Hash32, vout: u32) returns (r: Option<Htlc>)
      ensures r == if PrimaryKey(tx, vout) in tracked then Some(tracked[PrimaryKey(tx, vout)]) else None
    {
      var k := PrimaryKey(tx, vout);
      if k in tracked { r := Some(tracked[k]); } else { r := None; }
    }

    method ForgetHtlc(tx: Hash32, vout: u32, owned: Hash32) returns (removed: bool)
      requires Valid()
      modifies this
      ensures Valid() && View() == Forget(old(View()), tx, vout, owned)
      ensures removed == (PrimaryKey(tx, vout) in old(tracked)) && tracked == old(tracked) - {PrimaryKey(tx, vout)}
    {
      hide Consistent, StateKeyOf, RoleKeyOf, HashKeyOf, OwnedKeyOf, PrimaryKey;
      ForgetConsistent(View(), tx, vout, owned);
      var k := PrimaryKey(tx, vout);
      removed := k in tracked;
      if removed {
        var rec := tracked[k];
        tracked := tracked - {k};
        byState := byState - {StateKeyOf(rec)};
        byRole := byRole - {RoleKeyOf(rec)};
        byHash := byHash - {HashKeyOf(rec)};
        byOwned := byOwned - {OwnedKeyOf(owned, rec)};
      }
    }

    /** Exactly the tracked records with this hashlock, once each, in outpoint order. */
    method LookupByHashlock(h: Hash32) returns (out: seq<Htlc>)
      requires Valid()
      ensures forall r :: r in out <==> Key(r) in tracked && tracked[Key(r)] == r && r.params.hashLock == h
      ensures forall i, j :: 0 <= i < j < |out| ==> LexLt(Key(out[i]), Key(out[j]))
    {
      hide Consistent, LexLe, LexLt, Key, HashKeyOf;
      var keys := InKeyOrder(RangeScan(byHash, h + Fill(0, 36), h + Fill(255, 36)));
      RangeRows(View(), h, keys);
      out := [];
      for i := 0 to |keys|
        invariant |out| == i
        invariant forall j :: 0 <= j < i ==> out[j] == tracked[keys[j][32..]]
      {
        out := out + [tracked[keys[i][32..]]];
      }
      forall i, j | 0 <= i < j < |out| ensures LexLt(Key(out[i]), Key(out[j])) { SuffixOrder(h, keys[i], keys[j]); }
      forall r | Key(r) in tracked && tracked[Key(r)] == r && r.params.hashLock == h ensures r in out {
        var i :| 0 <= i < |keys| && keys[i] == HashKeyOf(r);
        assert out[i] == r;
      }
    }

    /** The scan half of list_htlcs: every row once, filtered, then past the cursor. */
    method ScanTable(f: Filter, cursor: Option<Cursor>) returns (matches: seq<Htlc>, ghost all: seq<Htlc>)
      requires Valid()
      ensures PastCursor(matches, all, cursor) && IsListing(Sort(all), tracked, f)
    {
      KeysAreOwn(View());
      hide Consistent, LexLe, LexLt, Key, FilterMatches, PosLt, IsMatch, Gathered, PastCursor, IsListing, Sort, Pos;
      var keys := InKeyOrder(tracked.Keys);
      matches, all := [], [];
      StartEmpty(tracked, f, cursor);
      for i := 0 to |keys|
        invariant Gathered(all, tracked, f, keys[..i]) && PastCursor(matches, all, cursor)
      {
        var record := tracked[keys[i]];
        ScanStep(matches, all, tracked, f, cursor, keys, i);
        if FilterMatches(record, f) {
          all := all + [record];
          if cursor.None? || !AtOrBefore(Pos(record), cursor.value) {
            matches := matches + [record];
          }
        }
      }
      GatheredAll(all, tracked, f, keys);
    }

    /** list_htlcs: scan, sort, truncate.  The result is the page of the one ascending listing. */
    method ListHtlcs(f: Filter, limit: nat, cursor: Option<Cursor>) returns (rows: seq<Htlc>, next: Option<Cursor>)
      requires Valid() && limit >= 1
      ensures forall l :: IsListing(l, tracked, f) ==> Page(rows, next) == PageOf(l, limit, cursor)
      ensures exists l :: IsListing(l, tracked, f)
    {
      hide Consistent, LexLe, LexLt, PosLt, IsListing, PastCursor, Sort, After;
      ghost var all;
      rows, all := ScanTable(f, cursor);
      SortedPast(rows, all, cursor, tracked, f);
      OnlyListing(Sort(all), tracked, f);
      rows := Sort(rows);
      if |rows| > limit {
        next := Some(Pos(rows[limit-1]));
        rows := rows[..limit];
      } else {
        next := None;
      }
    }
  }

  lemma OnlyListing(a: seq<Htlc>, tracked: map<Str, Htlc>, f: Filter)
    requires IsListing(a, tracked, f)
    ensures forall l :: IsListing(l, tracked, f) <==> l == a
  {
    forall l | IsListing(l, tracked, f) ensures l == a { AscendingUnique(l, a); }
  }

  /** The gathered rows strictly past the cursor. */
  ghost predicate PastCursor(matches: seq<Htlc>, all: seq<Htlc>, cursor: Option<Cursor>) {
    && DistinctPos(matches)
    && (forall r :: r in matches <==> r in all && (cursor.Some? ==> PosLt(cursor.value, Pos(r))))
  }

  lemma StartEmpty(tracked: map<Str, Htlc>, f: Filter, cursor: Option<Cursor>)
    ensures Gathered([], tracked, f, []) && PastCursor([], [], cursor)
  {
  }

  lemma PastStep(matches: seq<Htlc>, all: seq<Htlc>, cursor: Option<Cursor>, r: Htlc)
    requires PastCursor(matches, all, cursor) && forall x :: x in all ==> Pos(x) != Pos(r)
    ensures PastCursor(if cursor.None? || !AtOrBefore(Pos(r), cursor.value) then matches + [r] else matches, all + [r], cursor)
  {
    if cursor.Some? { PosTotal(Pos(r), cursor.value); }
  }

  lemma ScanStep(matches: seq<Htlc>, all: seq<Htlc>, tracked: map<Str, Htlc>, f: Filter, cursor: Option<Cursor>, keys: seq<Str>, i: nat)
    requires i < |keys| && forall i, j :: 0 <= i < j < |keys| ==> LexLt(keys[i], keys[j])
    requires keys[i] in tracked && Key(tracked[keys[i]]) == keys[i]
    requires Gathered(all, tracked, f, keys[..i]) && PastCursor(matches, all, cursor)
    ensures var r := tracked[keys[i]];
            var hit := FilterMatches(r, f);
            && Gathered(if hit then all + [r] else all, tracked, f, keys[..i+1])
            && PastCursor(if hit && (cursor.None? || !AtOrBefore(Pos(r), cursor.value)) then matches + [r] else matches,
                          if hit then all + [r] else all, cursor)
  {
    hide Gathered, PastCursor, FilterMatches, LexLt;
    assert keys[..i+1] == keys[..i] + [keys[i]];
    NotSeenBefore(keys, i);
    GatherStep(all, tracked, f, keys[..i], keys[i]);
    if FilterMatches(tracked[keys[i]], f) { PastStep(matches, all, cursor, tracked[keys[i]]); }
  }

  lemma SortedPast(matches: seq<Htlc>, all: seq<Htlc>, cursor: Option<Cursor>, tracked: map<Str, Htlc>, f: Filter)
    requires PastCursor(matches, all, cursor) && IsListing(Sort(all), tracked, f)
    ensures Sort(matches) == After(Sort(all), cursor)
  {
    AfterIsFilter(Sort(all), cursor);
    SortAscending(matches);
    AscendingUnique(Sort(matches), After(Sort(all), cursor));
  }

  lemma KeysAreOwn(t: Tables)
    requires Consistent(t)
    ensures forall k :: k in t.tracked ==> Key(t.tracked[k]) == k
  {
  }

  /** The matching rows among the keys scanned so far, each once. */
  ghost predicate Gathered(all: seq<Htlc>, tracked: map<Str, Htlc>, f: Filter, scanned: seq<Str>) {
    && DistinctPos(all)
    && (forall r :: r in all <==> IsMatch(tracked, f, r) && Key(r) in scanned)
  }

  lemma GatherStep(all: seq<Htlc>, tracked: map<Str, Htlc>, f: Filter, scanned: seq<Str>, k: Str)
    requires Gathered(all, tracked, f, scanned) && k in tracked && k !in scanned && Key(tracked[k]) == k
    ensures if FilterMatches(tracked[k], f)
            then Gathered(all + [tracked[k]], tracked, f, scanned + [k]) && forall r :: r in all ==> Pos(r) != Pos(tracked[k])
            else Gathered(all, tracked, f, scanned + [k])
  {
    forall r | r in all ensures Pos(r) != Pos(tracked[k]) {
      assert Key(r) in scanned;
    }
  }

  lemma GatheredAll(all: seq<Htlc>, tracked: map<Str, Htlc>, f: Filter, keys: seq<Str>)
    requires Gathered(all, tracked, f, keys[..|keys|]) && forall k :: k in tracked ==> k in keys
    ensures IsListing(Sort(all), tracked, f)
  {
    SortAscending(all);
  }

  predicate AtOrBefore(a: Cursor, b: Cursor) { a == b || PosLt(a, b) }

  lemma NotSeenBefore(keys: seq<Str>, i: nat)
    requires i < |keys| && forall i, j :: 0 <= i < j < |keys| ==> LexLt(keys[i], keys[j])
    ensures keys[i] !in keys[..i]
  {
    if keys[i] in keys[..i] {
      var j :| 0 <= j < i && keys[..i][j] == keys[i];
      LexIrreflexive(keys[i]);
    }
  }

  /** Pagination: following next_cursor from None over an unchanged table visits the filtered table in
      order, each row once. */
  lemma PagesCoverListing(l: seq<Htlc>, tracked: map<Str, Htlc>, f: Filter, limit: nat)
    requires IsListing(l, tracked, f) && limit >= 1
    ensures Flatten(Follow(l, limit, None)) == l
  {
    FollowCovers(l, limit, None);
  }
}
