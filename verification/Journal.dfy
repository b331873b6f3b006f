/** The swap journal (src/swap.rs:252-361): a map in memory and a sealed file rewritten on each change. */
module JournalStore {
  import opened Common
  import opened Bytes
  import opened Ascii
  import SwapModel

  type Key = nat

  datatype Entry = Entry(id: Key, status: SwapModel.Status, hashlock: Str, createdAt: nat, updatedAt: nat)

  predicate IsLive(e: Entry, hashlock: Str) { ToLower(e.hashlock) == ToLower(hashlock) && !SwapModel.Terminal(e.status) }

  /** The newest non-terminal record under a hashlock; of several created at once, any. */
  predicate IsNewestLive(records: map<Key, Entry>, hashlock: Str, k: Key) {
    && k in records && IsLive(records[k], hashlock)
    && forall j :: j in records && IsLive(records[j], hashlock) ==> records[j].createdAt <= records[k].createdAt
  }

  function Marked(records: map<Key, Entry>, k: Key, now: nat): map<Key, Entry>
    requires k in records
  {
    records[k := records[k].(status := SwapModel.Status.Refunded, updatedAt := now)]
  }

  /** A recovered lock is mirrored: the newest live record under its hashlock becomes Refunded, and nothing else
      changes; without one, nothing changes at all. */
  ghost predicate Mirrored(before: map<Key, Entry>, after: map<Key, Entry>, hashlock: Str, now: nat) {
    || (after == before && forall k :: k in before ==> !IsLive(before[k], hashlock))
    || (exists k :: IsNewestLive(before, hashlock, k) && after == Marked(before, k, now))
  }

  /** Several recoveries, one after the other. */
  ghost predicate MirroredAll(before: map<Key, Entry>, after: map<Key, Entry>, hashlocks: seq<Str>, now: nat)
    decreases |hashlocks|
  {
    if hashlocks == [] then after == before
    else
      var rest, last := hashlocks[..|hashlocks|-1], hashlocks[|hashlocks|-1];
      exists mid :: MirroredAll(before, mid, rest, now) && Mirrored(mid, after, last, now)
  }

  lemma MirroredOn(before: map<Key, Entry>, mid: map<Key, Entry>, after: map<Key, Entry>, hashlocks: seq<Str>, h: Str, now: nat)
    requires MirroredAll(before, mid, hashlocks, now) && Mirrored(mid, after, h, now)
    ensures MirroredAll(before, after, hashlocks + [h], now)
  {
    hide Mirrored;
    var all := hashlocks + [h];
    assert all[..|all|-1] == hashlocks && all[|all|-1] == h;
  }

  class Journal {
    var records: map<Key, Entry>
    var file: map<Key, Entry>

    ghost predicate Valid()
      reads this
    {
      && (forall k :: k in records ==> records[k].id == k)
      && (forall k :: k in file ==> file[k].id == k)
    }

    /** Opening reads the file back. */
    constructor (file: map<Key, Entry>)
      requires forall k :: k in file ==> file[k].id == k
      ensures Valid() && records == file && this.file == file
    {
      this.records, this.file := file, file;
    }

    /** `io` says whether the tmp-and-rename write goes through. */
    method Persist(io: bool) returns (ok: bool)
      modifies this`file
      ensures ok == io && file == if io then records else old(file)
    {
      if io { file := records; }
      ok := io;
    }

    method Put(e: Entry, io: bool) returns (ok: bool)
      requires Valid()
      modifies this
      ensures Valid() && ok == io && records == old(records)[e.id := e]
      ensures file == if io then records else old(file)
    {
      records := records[e.id := e];
      ok := Persist(io);
    }

    /** Unknown ids are refused; a failed write leaves the change in memory. */
    method Update(id: Key, now: nat, f: Entry -> Entry, io: bool) returns (ok: bool)
      requires Valid() && forall e :: f(e).id == e.id
      modifies this
      ensures Valid() && (ok <==> id in old(records) && io)
      ensures id !in old(records) ==> records == old(records) && file == old(file)
      ensures id in old(records) ==>
                records == old(records)[id := f(old(records)[id]).(updatedAt := now)] && file == if io then records else old(file)
    {
      if id !in records { return false; }
      records := records[id := f(records[id]).(updatedAt := now)];
      ok := Persist(io);
    }

    method Remove(id: Key, io: bool) returns (ok: bool)
      requires Valid()
      modifies this
      ensures Valid() && records == old(records) - {id} && (!ok ==> id in old(records) && !io)
      ensures file == if id in old(records) && io then records else old(file)
    {
      ok := true;
      if id in records {
        records := records - {id};
        ok := Persist(io);
      }
    }

    /** The records the monitor still advances: exactly the non-terminal ones, once each. */
    method Pending() returns (out: seq<Entry>)
      requires Valid()
      ensures forall e :: e in out <==> e.id in records && records[e.id] == e && !SwapModel.Terminal(e.status)
      ensures forall i, j :: 0 <= i < j < |out| ==> out[i].id != out[j].id
    {
      out := [];
      var todo := records.Keys;
      while todo != {}
        invariant todo <= records.Keys
        invariant forall e :: e in out <==> e.id in records && e.id !in todo && records[e.id] == e && !SwapModel.Terminal(e.status)
        invariant forall i, j :: 0 <= i < j < |out| ==> out[i].id != out[j].id
        decreases todo
      {
        var k :| k in todo;
        if !SwapModel.Terminal(records[k].status) { out := out + [records[k]]; }
        todo := todo - {k};
      }
    }

    /** The newest non-terminal record under this hashlock, ignoring case. */
    method FindLive(hashlock: Str) returns (found: Option<Key>)
      requires Valid()
      ensures found.None? <==> forall k :: k in records ==> !IsLive(records[k], hashlock)
      ensures found.Some? ==> IsNewestLive(records, hashlock, found.value)
    {
      hide ToLower;
      found := None;
      var todo := records.Keys;
      while todo != {}
        invariant todo <= records.Keys
        invariant found.None? ==> forall k :: k in records && k !in todo ==> !IsLive(records[k], hashlock)
        invariant found.Some? ==> found.value in records && IsLive(records[found.value], hashlock)
        invariant forall k :: found.Some? && k in records && k !in todo && IsLive(records[k], hashlock) ==>
                    records[k].createdAt <= records[found.value].createdAt
        decreases todo
      {
        var k :| k in todo;
        if IsLive(records[k], hashlock) && (found.None? || records[k].createdAt > records[found.value].createdAt) { found := Some(k); }
        todo := todo - {k};
      }
    }
  }
}
