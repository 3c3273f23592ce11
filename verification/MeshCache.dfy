// The mesh cache: meshes by key, bounded in number and in triangles, evicted in insertion order.

module MeshCache {
  import opened Basics

  datatype Mesh = Mesh(key: string, triangles: nat, empty: bool, content: string)

  type Entries = map<string, Mesh>

  function TrianglesOf(entries: Entries, key: string): nat {
    if key in entries then entries[key].triangles else 0
  }

  // Triangles of the listed keys.
  function Size(order: seq<string>, entries: Entries): nat {
    if order == [] then 0 else TrianglesOf(entries, order[0]) + Size(order[1..], entries)
  }

  ghost function Names(order: seq<string>): set<string> { set k | k in order }

  ghost predicate Distinct(order: seq<string>) {
    forall i, j :: 0 <= i < j < |order| ==> order[i] != order[j]
  }

  predicate Fits(order: seq<string>, entries: Entries, maxEntries: nat, maxTriangles: nat) {
    |order| <= maxEntries && Size(order, entries) <= maxTriangles
  }

  // How many of the oldest keys must go: the shortest prefix after which the rest fits.
  function Excess(order: seq<string>, entries: Entries, maxEntries: nat, maxTriangles: nat): (n: nat)
    ensures n <= |order| && Fits(order[n..], entries, maxEntries, maxTriangles)
    ensures forall m :: 0 <= m < n ==> !Fits(order[m..], entries, maxEntries, maxTriangles)
  {
    if Fits(order, entries, maxEntries, maxTriangles) then assert order[0..] == order; 0
    else if order == [] then 0
    else
      var n := Excess(order[1..], entries, maxEntries, maxTriangles);
      assert order[1..][n..] == order[n + 1..];
      assert forall m :: 1 <= m <= n ==> order[m..] == order[1..][m - 1..];
      assert order[0..] == order;
      n + 1
  }

  lemma {:induction false} SizeSame(order: seq<string>, entries: Entries, other: Entries)
    requires forall k :: k in order ==> TrianglesOf(entries, k) == TrianglesOf(other, k)
    ensures Size(order, entries) == Size(order, other)
    decreases |order|
  {
    if order != [] {
      assert order[0] in order;
      SizeSame(order[1..], entries, other);
    }
  }

  lemma {:induction false} SizeAppend(p: seq<string>, q: seq<string>, entries: Entries)
    ensures Size(p + q, entries) == Size(p, entries) + Size(q, entries)
    decreases |p|
  {
    if p == [] {
      assert p + q == q;
    } else {
      assert (p + q)[1..] == p[1..] + q;
      SizeAppend(p[1..], q, entries);
    }
  }

  function Sizes(entries: Entries): map<string, int> { map k | k in entries :: entries[k].triangles }

  // The order lists each key once, so the listed sum is the sum over the entries.
  lemma {:induction false} SizeIsSum(order: seq<string>, entries: Entries)
    requires Distinct(order) && Names(order) == entries.Keys
    ensures Size(order, entries) == Sum(Sizes(entries))
    decreases |order|
  {
    if order == [] {
      assert Sizes(entries) == map[];
    } else {
      var k, rest := order[0], order[1..];
      var others := entries - {k};
      assert Names(rest) == others.Keys by {
        assert Names(order) == {k} + Names(rest);
        assert k !in rest;
      }
      SizeIsSum(rest, others);
      SizeSame(rest, entries, others);
      SumMinus(Sizes(entries), k);
      assert Sizes(entries) - {k} == Sizes(others);
    }
  }

  // ---------- what a put does ----------

  predicate Storable(mesh: Mesh, maxTriangles: nat) {
    mesh.key != "" && !mesh.empty && 0 < mesh.triangles <= maxTriangles
  }

  function Listed(order: seq<string>, entries: Entries, key: string): seq<string> {
    if key in entries then order else order + [key]
  }

  function Kept(order: seq<string>, entries: Entries, maxEntries: nat, maxTriangles: nat): seq<string> {
    order[Excess(order, entries, maxEntries, maxTriangles)..]
  }

  // A storable mesh under a new key always stays: it is the newest, and fits alone.
  lemma NewStays(order: seq<string>, entries: Entries, mesh: Mesh, maxEntries: nat, maxTriangles: nat)
    requires Storable(mesh, maxTriangles) && mesh.key !in entries && maxEntries >= 1
    ensures mesh.key in Kept(Listed(order, entries, mesh.key), entries[mesh.key := mesh], maxEntries, maxTriangles)
  {
    var all, after := order + [mesh.key], entries[mesh.key := mesh];
    var last := all[|order|..];
    assert last == [mesh.key];
    assert Size(last, after) == mesh.triangles by {
      assert last[1..] == [];
    }
    assert Fits(last, after, maxEntries, maxTriangles);
    var n := Excess(all, after, maxEntries, maxTriangles);
    assert n <= |order|;
    assert all[n..][|order| - n] == mesh.key;
  }

  // A new mesh of exactly the most triangles allowed is kept, and nothing beside it.
  lemma LargestAlone(order: seq<string>, entries: Entries, mesh: Mesh, maxEntries: nat, maxTriangles: nat)
    requires mesh.key != "" && !mesh.empty && mesh.triangles == maxTriangles && maxTriangles > 0 && maxEntries >= 1
    requires mesh.key !in entries && (forall k :: k in order ==> k != mesh.key && TrianglesOf(entries, k) > 0)
    ensures Kept(Listed(order, entries, mesh.key), entries[mesh.key := mesh], maxEntries, maxTriangles) == [mesh.key]
  {
    var all, after := order + [mesh.key], entries[mesh.key := mesh];
    NewStays(order, entries, mesh, maxEntries, maxTriangles);
    var n := Excess(all, after, maxEntries, maxTriangles);
    NoRoomBeside(order, after, mesh.key, n);
    assert all[|order|..] == [mesh.key];
  }

  lemma NoRoomBeside(order: seq<string>, after: Entries, key: string, n: nat)
    requires n <= |order| && forall k :: k in order ==> TrianglesOf(after, k) > 0
    ensures n < |order| ==> Size((order + [key])[n..], after) > TrianglesOf(after, key)
  {
    if n < |order| {
      var all := order + [key];
      assert all[n..][1..] == all[n + 1..|order|] + [key];
      SizeAppend(all[n + 1..|order|], [key], after);
      assert order[n] in order;
    }
  }

  lemma {:induction false} SizeSuffix(order: seq<string>, entries: Entries, i: nat, j: nat)
    requires i <= j <= |order|
    ensures Size(order[j..], entries) <= Size(order[i..], entries)
  {
    assert order[i..] == order[i..j] + order[j..];
    SizeAppend(order[i..j], order[j..], entries);
  }

  // Replacing keeps the key's place: the new mesh stays exactly when it and all newer ones fit.
  lemma ReplacedStays(order: seq<string>, entries: Entries, mesh: Mesh, at: nat, maxEntries: nat, maxTriangles: nat)
    requires Distinct(order) && at < |order| && order[at] == mesh.key && mesh.key in entries && |order| <= maxEntries
    ensures mesh.key in Kept(order, entries[mesh.key := mesh], maxEntries, maxTriangles) <==>
      Size(order[at..], entries[mesh.key := mesh]) <= maxTriangles
  {
    var after := entries[mesh.key := mesh];
    var n := Excess(order, after, maxEntries, maxTriangles);
    if n <= at {
      SizeSuffix(order, after, n, at);
      assert order[n..][at - n] == mesh.key;
    } else {
      assert !Fits(order[at..], after, maxEntries, maxTriangles);
    }
  }

  // ---------- the cache ----------

  class GenesisMeshCache {
    const maxEntries: nat
    const maxTriangles: nat
    var entries: Entries
    var order: seq<string>
    var triangles: nat
    var hits: nat
    var misses: nat
    var evictions: nat

    ghost predicate Consistent()
      reads this
    {
      && maxEntries >= 1 && maxTriangles >= 12
      && Distinct(order) && Names(order) == entries.Keys && triangles == Size(order, entries)
      && forall k :: k in entries ==> entries[k].key == k && Storable(entries[k], maxTriangles)
    }

    ghost predicate Valid()
      reads this
    {
      Consistent() && |order| <= maxEntries && triangles <= maxTriangles
    }

    constructor (maxEntries: nat, maxTriangles: nat)
      ensures Valid() && entries == map[] && order == []
      ensures this.maxEntries == if maxEntries < 1 then 1 else maxEntries
      ensures this.maxTriangles == if maxTriangles < 12 then 12 else maxTriangles
    {
      this.maxEntries := if maxEntries < 1 then 1 else maxEntries;
      this.maxTriangles := if maxTriangles < 12 then 12 else maxTriangles;
      entries, order, triangles, hits, misses, evictions := map[], [], 0, 0, 0, 0;
    }

    method Get(key: string) returns (mesh: Option<Mesh>)
      requires Valid()
      modifies this`hits, this`misses
      ensures Valid() && mesh == if key in entries then Some(entries[key]) else None
      ensures hits == old(hits) + (if key in entries then 1 else 0) && misses + hits == old(misses) + old(hits) + 1
    {
      if key !in entries {
        misses := misses + 1;
        return None;
      }
      hits := hits + 1;
      mesh := Some(entries[key]);
    }

    method Put(mesh: Mesh) returns (stored: bool)
      requires Valid()
      modifies this
      ensures Valid() && (stored ==> mesh.key in entries && entries[mesh.key] == mesh)
      ensures mesh.key == "" || mesh.empty || mesh.triangles == 0 || mesh.triangles > maxTriangles ==>
        !stored && order == old(order) && entries == old(entries)
      ensures Storable(mesh, maxTriangles) ==>
        && order == Kept(Listed(old(order), old(entries), mesh.key), old(entries)[mesh.key := mesh], maxEntries, maxTriangles)
        && stored == (mesh.key in order)
        && forall k :: k in entries ==> entries[k] == old(entries)[mesh.key := mesh][k]
      ensures mesh.key != "" && !mesh.empty && 1 <= mesh.triangles <= maxTriangles && mesh.key !in old(entries) ==> stored
    {
      if !Storable(mesh, maxTriangles) {
        return false;
      }
      PutMeans(order, entries, mesh);
      if mesh.key !in entries {
        NewStays(order, entries, mesh, maxEntries, maxTriangles);
        order := order + [mesh.key];
        triangles := triangles + mesh.triangles;
      } else {
        triangles := triangles - entries[mesh.key].triangles + mesh.triangles;
      }
      entries := entries[mesh.key := mesh];
      Evict();
      stored := mesh.key in entries;
      assert stored <==> mesh.key in Names(order);
    }

    method Evict()
      requires Consistent()
      modifies this
      ensures Valid() && order == Kept(old(order), old(entries), maxEntries, maxTriangles)
      ensures forall k :: k in entries ==> k in old(entries) && entries[k] == old(entries)[k]
      ensures evictions == old(evictions) + |old(order)| - |order|
    {
      ghost var n: nat := 0;
      while |order| > maxEntries || triangles > maxTriangles
        invariant Consistent() && n <= |old(order)| && order == old(order)[n..]
        invariant forall k :: k in entries ==> k in old(entries) && entries[k] == old(entries)[k]
        invariant Excess(old(order), old(entries), maxEntries, maxTriangles) ==
          n + Excess(order, entries, maxEntries, maxTriangles)
        invariant evictions == old(evictions) + n
        decreases |order|
      {
        assert order[1..] == old(order)[n + 1..];
        EvictOldest();
        n := n + 1;
      }
    }

    method EvictOldest()
      requires Consistent() && !Fits(order, entries, maxEntries, maxTriangles)
      modifies this
      ensures Consistent() && old(order) != [] && order == old(order)[1..] && entries == old(entries) - {old(order)[0]}
      ensures evictions == old(evictions) + 1
      ensures Excess(old(order), old(entries), maxEntries, maxTriangles) ==
        1 + Excess(order, entries, maxEntries, maxTriangles)
    {
      var key := order[0];
      DropFirst(order, entries);
      ExcessSame(order[1..], entries, entries - {key}, maxEntries, maxTriangles);
      assert key in Names(order);
      triangles := triangles - entries[key].triangles;
      order := order[1..];
      entries := entries - {key};
      evictions := evictions + 1;
    }

    method Clear()
      requires Valid()
      modifies this
      ensures Valid() && entries == map[] && order == []
    {
      entries, order, triangles := map[], [], 0;
    }
  }

  lemma DropFirst(order: seq<string>, entries: Entries)
    requires order != [] && Distinct(order) && Names(order) == entries.Keys
    ensures var rest, others := order[1..], entries - {order[0]};
      Distinct(rest) && Names(rest) == others.Keys && Size(order, entries) == entries[order[0]].triangles + Size(rest, others)
  {
    var rest, others := order[1..], entries - {order[0]};
    assert order[0] in Names(order);
    assert Names(order) == {order[0]} + Names(rest);
    assert order[0] !in rest;
    SizeSame(rest, entries, others);
  }

  lemma {:induction false} ExcessSame(
    order: seq<string>, entries: Entries, other: Entries, maxEntries: nat, maxTriangles: nat)
    requires forall k :: k in order ==> TrianglesOf(entries, k) == TrianglesOf(other, k)
    ensures Excess(order, entries, maxEntries, maxTriangles) == Excess(order, other, maxEntries, maxTriangles)
    decreases |order|
  {
    SizeSame(order, entries, other);
    if order != [] {
      ExcessSame(order[1..], entries, other, maxEntries, maxTriangles);
    }
  }

  // Listing and sizing after a put, before eviction.
  lemma PutMeans(order: seq<string>, entries: Entries, mesh: Mesh)
    requires Distinct(order) && Names(order) == entries.Keys
    ensures var all, after := Listed(order, entries, mesh.key), entries[mesh.key := mesh];
      && Distinct(all) && Names(all) == after.Keys
      && Size(all, after) == Size(order, entries) + mesh.triangles - TrianglesOf(entries, mesh.key)
  {
    var all, after := Listed(order, entries, mesh.key), entries[mesh.key := mesh];
    if mesh.key in entries {
      assert Names(order) == after.Keys;
    } else {
      assert mesh.key !in Names(order);
      assert Names(all) == Names(order) + {mesh.key};
    }
    SizeIsSum(order, entries);
    SizeIsSum(all, after);
    SumUpdate(Sizes(entries), mesh.key, mesh.triangles);
    assert Sizes(after) == Sizes(entries)[mesh.key := mesh.triangles];
  }
}
