/**
 The byte-bounded tensor caches of a worker (one for outputs it wrote, one for
 inputs it fetched): a dictionary, an insertion-order list and a byte counter.
 */
module WorkerCache {
  import opened Common
  import opened Pipeline

  datatype Cache = Cache(limit: nat, entries: map<Uri, Value>, order: seq<Uri>, bytes: int)

  function Empty(limit: nat): Cache { Cache(limit, map[], [], 0) }

  // ------------------------------------------------------------------------
  // What one insertion does
  // ------------------------------------------------------------------------

  function RemoveFirst(order: seq<Uri>, u: Uri): seq<Uri>
  {
    if |order| == 0 then [] else if order[0] == u then order[1..] else [order[0]] + RemoveFirst(order[1..], u)
  }

  function Drop(c: Cache, u: Uri, size: Value -> nat): Cache
  {
    if u in c.entries then
      c.(entries := c.entries - {u}, order := RemoveFirst(c.order, u), bytes := c.bytes - size(c.entries[u]))
    else c
  }

  /** Pop the oldest entry. */
  function PopOldest(c: Cache, size: Value -> nat): Cache
    requires |c.order| > 0
  {
    var u := c.order[0];
    Cache(c.limit, c.entries - {u}, c.order[1..], if u in c.entries then c.bytes - size(c.entries[u]) else c.bytes)
  }

  function MakeRoom(c: Cache, need: nat, size: Value -> nat): Cache
    decreases |c.order|
  {
    if c.bytes + need > c.limit && |c.order| > 0 then MakeRoom(PopOldest(c, size), need, size) else c
  }

  function Insert(c: Cache, u: Uri, v: Value, size: Value -> nat): Cache
  {
    if size(v) > c.limit / 2 then c
    else
      var roomy := MakeRoom(Drop(c, u, size), size(v), size);
      roomy.(entries := roomy.entries[u := v], order := roomy.order + [u], bytes := roomy.bytes + size(v))
  }

  function InsertAll(c: Cache, puts: seq<(Uri, Value)>, size: Value -> nat): Cache
  {
    if |puts| == 0 then c
    else Insert(InsertAll(c, puts[..|puts| - 1], size), puts[|puts| - 1].0, puts[|puts| - 1].1, size)
  }

  // ------------------------------------------------------------------------
  // Invariant
  // ------------------------------------------------------------------------

  ghost function Total(entries: map<Uri, Value>, order: seq<Uri>, size: Value -> nat): nat
    requires forall u :: u in order ==> u in entries
  {
    if |order| == 0 then 0 else size(entries[order[0]]) + Total(entries, order[1..], size)
  }

  /** Duplicate-free order with exactly the cached keys; the counter is the sum of the sizes, within the limit. */
  ghost predicate Valid(c: Cache, size: Value -> nat)
  {
    && Distinct(c.order)
    && (forall u :: u in c.order <==> u in c.entries)
    && c.bytes == Total(c.entries, c.order, size)
    && c.bytes <= c.limit
  }

  lemma {:induction false} TotalAgrees(a: map<Uri, Value>, b: map<Uri, Value>, order: seq<Uri>, size: Value -> nat)
    requires forall u :: u in order ==> u in a && u in b && a[u] == b[u]
    ensures Total(a, order, size) == Total(b, order, size)
  {
    if |order| > 0 {
      assert order[0] in order;
      assert forall u :: u in order[1..] ==> u in order;
      TotalAgrees(a, b, order[1..], size);
    }
  }

  lemma {:induction false} TotalAppend(entries: map<Uri, Value>, order: seq<Uri>, u: Uri, size: Value -> nat)
    requires u in entries && forall x :: x in order ==> x in entries
    ensures Total(entries, order + [u], size) == Total(entries, order, size) + size(entries[u])
  {
    if |order| == 0 {
      assert order + [u] == [u];
    } else {
      assert (order + [u])[1..] == order[1..] + [u];
      TotalAppend(entries, order[1..], u, size);
    }
  }

  lemma {:induction false} RemoveFirstMembers(order: seq<Uri>, u: Uri)
    requires Distinct(order)
    ensures Distinct(RemoveFirst(order, u))
    ensures forall x :: x in RemoveFirst(order, u) <==> x in order && x != u
  {
    if |order| > 0 {
      var rest := order[1..];
      assert forall x :: x in order <==> x == order[0] || x in rest;
      assert Distinct(rest);
      assert order[0] !in rest;
      if order[0] != u {
        RemoveFirstMembers(rest, u);
      }
    }
  }

  lemma {:induction false} TotalRemove(entries: map<Uri, Value>, order: seq<Uri>, u: Uri, size: Value -> nat)
    requires Distinct(order) && u in order && forall x :: x in order ==> x in entries
    ensures forall x :: x in RemoveFirst(order, u) ==> x in entries
    ensures Total(entries, RemoveFirst(order, u), size) == Total(entries, order, size) - size(entries[u])
  {
    RemoveFirstMembers(order, u);
    if order[0] != u {
      assert u in order[1..];
      TotalRemove(entries, order[1..], u, size);
      assert RemoveFirst(order, u)[1..] == RemoveFirst(order[1..], u);
    }
  }

  lemma DropValid(c: Cache, u: Uri, size: Value -> nat)
    requires Valid(c, size)
    ensures Valid(Drop(c, u, size), size) && u !in Drop(c, u, size).entries
  {
    if u in c.entries {
      var d := Drop(c, u, size);
      RemoveFirstMembers(c.order, u);
      TotalRemove(c.entries, c.order, u, size);
      TotalAgrees(c.entries, d.entries, d.order, size);
    }
  }

  lemma PopValid(c: Cache, size: Value -> nat)
    requires Valid(c, size) && |c.order| > 0
    ensures Valid(PopOldest(c, size), size)
  {
    var u, d := c.order[0], PopOldest(c, size);
    assert u in c.order;
    assert forall x :: x in c.order <==> x == u || x in c.order[1..];
    assert u !in c.order[1..];
    TotalAgrees(c.entries, d.entries, d.order, size);
  }

  /** Making room keeps the shortest possible prefix out: one entry fewer would not have fitted. */
  lemma {:induction false} MakeRoomPrefix(c: Cache, need: nat, size: Value -> nat) returns (k: nat)
    requires Valid(c, size) && need <= c.limit
    ensures Valid(MakeRoom(c, need, size), size) && MakeRoom(c, need, size).limit == c.limit
    ensures MakeRoom(c, need, size).bytes + need <= c.limit
    ensures k <= |c.order| && MakeRoom(c, need, size).order == c.order[k..]
    ensures forall u :: u in MakeRoom(c, need, size).entries ==>
            u in c.entries && MakeRoom(c, need, size).entries[u] == c.entries[u]
    ensures forall j :: 0 <= j < k ==> Total(c.entries, c.order[j..], size) + need > c.limit
    decreases |c.order|
  {
    assert forall j, u :: 0 <= j <= |c.order| && u in c.order[j..] ==> u in c.order;
    if c.bytes + need > c.limit && |c.order| > 0 {
      PopValid(c, size);
      var d := PopOldest(c, size);
      var m := MakeRoomPrefix(d, need, size);
      k := m + 1;
      forall j | 0 <= j < k ensures Total(c.entries, c.order[j..], size) + need > c.limit {
        if j == 0 {
          assert c.order[0..] == c.order;
        } else {
          assert c.order[j..] == d.order[j - 1..];
          assert forall x :: x in d.order[j - 1..] ==> x in d.order;
          TotalAgrees(c.entries, d.entries, c.order[j..], size);
        }
      }
    } else {
      k := 0;
      assert c.order[0..] == c.order;
    }
  }

  /** Appending a fresh entry that fits. */
  lemma AppendValid(c: Cache, u: Uri, v: Value, size: Value -> nat)
    requires Valid(c, size) && u !in c.entries && c.bytes + size(v) <= c.limit
    ensures Valid(c.(entries := c.entries[u := v], order := c.order + [u], bytes := c.bytes + size(v)), size)
  {
    var entries := c.entries[u := v];
    assert u !in c.order;
    TotalAgrees(c.entries, entries, c.order, size);
    TotalAppend(entries, c.order, u, size);
  }

  /** Every insertion keeps the invariant and the limit, and introduces no binding but its own. */
  lemma InsertValid(c: Cache, u: Uri, v: Value, size: Value -> nat)
    requires Valid(c, size)
    ensures Valid(Insert(c, u, v, size), size) && Insert(c, u, v, size).limit == c.limit
    ensures forall x :: x in Insert(c, u, v, size).entries ==>
              (x == u && Insert(c, u, v, size).entries[x] == v) ||
                (x in c.entries && Insert(c, u, v, size).entries[x] == c.entries[x])
  {
    if size(v) <= c.limit / 2 {
      DropValid(c, u, size);
      var k := MakeRoomPrefix(Drop(c, u, size), size(v), size);
      AppendValid(MakeRoom(Drop(c, u, size), size(v), size), u, v, size);
    }
  }

  /**
   An insertion that is not refused for size drops the old entry of its URI, evicts the
   shortest oldest-first prefix that makes room, and appends the URI.
   */
  lemma InsertEvictsLeast(c: Cache, u: Uri, v: Value, size: Value -> nat) returns (k: nat)
    requires Valid(c, size) && size(v) <= c.limit / 2
    ensures k <= |Drop(c, u, size).order| && Insert(c, u, v, size).order == Drop(c, u, size).order[k..] + [u]
    ensures u in Insert(c, u, v, size).entries && Insert(c, u, v, size).entries[u] == v
    ensures forall x :: x in Drop(c, u, size).order ==> x in Drop(c, u, size).entries
    ensures forall j :: 0 <= j < k ==>
            Total(Drop(c, u, size).entries, Drop(c, u, size).order[j..], size) + size(v) > c.limit
  {
    DropValid(c, u, size);
    k := MakeRoomPrefix(Drop(c, u, size), size(v), size);
  }

  /** After any sequence of cache calls the invariant holds, and every entry is one that was put. */
  lemma {:induction false} InsertAllValid(c: Cache, puts: seq<(Uri, Value)>, size: Value -> nat)
    requires Valid(c, size)
    ensures Valid(InsertAll(c, puts, size), size) && InsertAll(c, puts, size).limit == c.limit
    ensures forall x :: x in InsertAll(c, puts, size).entries ==>
              (x, InsertAll(c, puts, size).entries[x]) in puts ||
                (x in c.entries && InsertAll(c, puts, size).entries[x] == c.entries[x])
  {
    if |puts| > 0 {
      var before := puts[..|puts| - 1];
      InsertAllValid(c, before, size);
      InsertValid(InsertAll(c, before, size), puts[|puts| - 1].0, puts[|puts| - 1].1, size);
      assert forall p :: p in before ==> p in puts;
      assert puts[|puts| - 1] in puts;
    }
  }

  // ------------------------------------------------------------------------
  // The cache as the worker holds it
  // ------------------------------------------------------------------------

  class TensorCache {
    const limit: nat
    const size: Value -> nat
    var entries: map<Uri, Value>
    var order: seq<Uri>
    var bytes: int

    ghost function View(): Cache
      reads this
    {
      Cache(limit, entries, order, bytes)
    }

    constructor (limit: nat, size: Value -> nat)
      ensures View() == Empty(limit) && this.size == size && this.limit == limit
      ensures Valid(View(), size)
    {
      this.limit := limit;
      this.size := size;
      entries := map[];
      order := [];
      bytes := 0;
    }

    /** Forgets the entry of a URI, if there is one. */
    method Forget(u: Uri)
      modifies this
      ensures View() == Drop(old(View()), u, size)
    {
      if u in entries {
        bytes := bytes - size(entries[u]);
        entries := entries - {u};
        order := RemoveFirst(order, u);
      }
    }

    /** Drops the oldest entries until `need` bytes fit. */
    method Evict(need: nat)
      modifies this
      ensures View() == MakeRoom(old(View()), need, size)
    {
      while bytes + need > limit && |order| > 0
        invariant MakeRoom(View(), need, size) == MakeRoom(old(View()), need, size)
        decreases |order|
      {
        var oldest := order[0];
        order := order[1..];
        if oldest in entries {
          bytes := bytes - size(entries[oldest]);
        }
        entries := entries - {oldest};
      }
    }

    method Put(u: Uri, v: Value)
      requires Valid(View(), size)
      modifies this
      ensures View() == Insert(old(View()), u, v, size)
      ensures Valid(View(), size)
    {
      InsertValid(View(), u, v, size);
      if size(v) > limit / 2 {
        return;
      }
      Forget(u);
      Evict(size(v));
      entries := entries[u := v];
      order := order + [u];
      bytes := bytes + size(v);
    }
  }
}
