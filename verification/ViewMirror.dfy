/**
 `ViewMirror` of go/router/mirror.go: the nested maps updated in place, proved to hold the flat view of module
 `Views`, and the prefix lookup that reads them.
 */
module ViewMirrors {
  import opened Base
  import opened Views

  type Nested = map<Namespace, map<Bytes, Entry>>

  /** The nested maps hold exactly the flat view, and no pool is empty. */
  ghost predicate Holds(n: Nested, v: View) {
    && (forall k :: k in n ==> n[k] != map[])
    && (forall id :: id in v ==> id.ns in n && id.hash in n[id.ns] && n[id.ns][id.hash] == v[id])
    && (forall k, h :: k in n && h in n[k] ==> BlockId(k, h) in v)
  }

  /** The nested form is canonical: without empty pools a view has only one representation. */
  lemma NestedUnique(a: Nested, b: Nested, v: View)
    requires Holds(a, v) && Holds(b, v)
    ensures a == b
  {
    NestedWithin(a, b, v);
    NestedWithin(b, a, v);
    forall k | k in a ensures a[k] == b[k] {
      forall h | h in a[k] ensures h in b[k] && a[k][h] == b[k][h] { assert BlockId(k, h) in v; }
      forall h | h in b[k] ensures h in a[k] { assert BlockId(k, h) in v; }
    }
  }

  lemma NestedWithin(a: Nested, b: Nested, v: View)
    requires Holds(a, v) && Holds(b, v)
    ensures a.Keys <= b.Keys
  {
    forall k | k in a ensures k in b {
      var h :| h in a[k];
      assert BlockId(k, h) in v;
    }
  }

  function PoolOf(n: Nested, k: Namespace): map<Bytes, Entry> {
    if k in n then n[k] else map[]
  }

  lemma PoolMembers(n: Nested, v: View, id: BlockId)
    requires Holds(n, v)
    ensures id.hash in PoolOf(n, id.ns) <==> id in v
    ensures id in v ==> PoolOf(n, id.ns)[id.hash] == v[id]
  { }

  lemma PutHolds(n: Nested, v: View, id: BlockId, e: Entry)
    requires Holds(n, v)
    ensures Holds(n[id.ns := PoolOf(n, id.ns)[id.hash := e]], v[id := e])
  {
    var pool := PoolOf(n, id.ns)[id.hash := e];
    assert id.hash in pool;
    var n1, v1 := n[id.ns := pool], v[id := e];
    forall k, h | k in n1 && h in n1[k] ensures BlockId(k, h) in v1 {
      if k != id.ns || h != id.hash { assert k in n && h in n[k]; }
    }
    forall i | i in v1 ensures i.ns in n1 && i.hash in n1[i.ns] && n1[i.ns][i.hash] == v1[i] {
      if i != id { assert i.hash in n[i.ns]; }
    }
  }

  /** Drop a hash from its pool, and the pool with its last hash. */
  function Removed(n: Nested, id: BlockId): Nested {
    var pool := PoolOf(n, id.ns) - {id.hash};
    if id.ns !in n then n else if pool == map[] then n - {id.ns} else n[id.ns := pool]
  }

  lemma RemovedKeeps(n: Nested, v: View, id: BlockId, i: BlockId)
    requires Holds(n, v) && i in v && i != id
    ensures i.ns in Removed(n, id) && i.hash in Removed(n, id)[i.ns] && Removed(n, id)[i.ns][i.hash] == v[i]
  {
    PoolMembers(n, v, i);
    if i.ns == id.ns { assert i.hash in n[id.ns] - {id.hash}; }
  }

  lemma RemovedWithin(n: Nested, v: View, id: BlockId, k: Namespace, h: Bytes)
    requires Holds(n, v) && k in Removed(n, id) && h in Removed(n, id)[k]
    ensures BlockId(k, h) in v && BlockId(k, h) != id
  {
    assert k in n && h in n[k];
  }

  lemma RemoveHolds(n: Nested, v: View, id: BlockId)
    requires Holds(n, v)
    ensures Holds(Removed(n, id), v - {id})
  {
    var n1 := Removed(n, id);
    forall i | i in v - {id} ensures i.ns in n1 && i.hash in n1[i.ns] && n1[i.ns][i.hash] == v[i] {
      RemovedKeeps(n, v, id, i);
    }
    forall k, h | k in n1 && h in n1[k] ensures BlockId(k, h) in v - {id} {
      RemovedWithin(n, v, id, k, h);
    }
    assert forall k :: k in n1 ==> n1[k] != map[];
  }

  predicate HasL0On(locs: seq<Location>, node: string) {
    exists i :: 0 <= i < |locs| && locs[i].tier == L0 && locs[i].nodeId == node
  }

  datatype MirrorBlock = MirrorBlock(locations: seq<Location>, l3Present: bool, blockKind: int, localHit: bool)

  function BlockOf(e: Entry, node: string): MirrorBlock {
    MirrorBlock(e.locations, e.l3Present, e.blockKind, HasL0On(e.locations, node))
  }

  /** Number of leading hashes that the view knows in a namespace. */
  function HitLength(v: View, ns: Namespace, hashes: seq<Bytes>): (n: nat)
    ensures n <= |hashes|
    ensures forall i :: 0 <= i < n ==> BlockId(ns, hashes[i]) in v
    ensures n < |hashes| ==> BlockId(ns, hashes[n]) !in v
  {
    if hashes == [] || BlockId(ns, hashes[0]) !in v then 0 else 1 + HitLength(v, ns, hashes[1..])
  }

  lemma HitLengthIs(v: View, ns: Namespace, hashes: seq<Bytes>, n: nat)
    requires n <= |hashes|
    requires forall i :: 0 <= i < n ==> BlockId(ns, hashes[i]) in v
    requires n < |hashes| ==> BlockId(ns, hashes[n]) !in v
    ensures HitLength(v, ns, hashes) == n
  { }

  class ViewMirror {
    var lastSeq: nat
    var blocks: Nested
    ghost var view: View

    ghost predicate Valid()
      reads this
    {
      Holds(blocks, view)
    }

    ghost function Value(): Mirror
      reads this
    {
      Mirror(lastSeq, view)
    }

    constructor ()
      ensures Valid() && Value() == Mirror(0, map[])
    {
      lastSeq, blocks, view := 0, map[], map[];
    }

    method UpsertLocked(ev: Event)
      requires Valid()
      modifies this`blocks, this`view
      ensures Valid() && view == Upsert(old(view), ev)
    {
      if ev.id.None? {
        return;
      }
      var id := ev.id.value;
      PoolMembers(blocks, view, id);
      var pool: map<Bytes, Entry> := if id.ns in blocks then blocks[id.ns] else map[];
      var e := Upserted(if id.hash in pool then Some(pool[id.hash]) else None, ev);
      PutHolds(blocks, view, id, e);
      blocks := blocks[id.ns := pool[id.hash := e]];
      view := view[id := e];
    }

    method DeleteLocked(id: Option<BlockId>)
      requires Valid()
      modifies this`blocks, this`view
      ensures Valid() && view == if id.None? then old(view) else old(view) - {id.value}
    {
      if id.None? {
        return;
      }
      RemoveHolds(blocks, view, id.value);
      var k, h := id.value.ns, id.value.hash;
      if k in blocks {
        var pool := blocks[k] - {h};
        if pool == map[] {
          blocks := blocks - {k};
        } else {
          blocks := blocks[k := pool];
        }
      }
      view := view - {id.value};
    }

    method Apply(u: Update) returns (err: Outcome)
      requires Valid()
      modifies this
      ensures Valid() && Value() == Views.Apply(old(Value()), u)
      ensures err == Verdict(old(Value()), u)
      ensures err.Gap? ==> lastSeq == old(lastSeq) && blocks == old(blocks)
    {
      if u.number == 0 {
        blocks, view := map[], map[];
        lastSeq := 0;
        var i := 0;
        while i < |u.events|
          invariant 0 <= i <= |u.events| && Valid() && lastSeq == 0
          invariant view == UpsertAll(map[], u.events[..i])
        {
          UpsertLocked(u.events[i]);
          assert u.events[..i + 1][..i] == u.events[..i];
          i := i + 1;
        }
        assert u.events[..i] == u.events;
        return Ok;
      }
      if |u.events| == 0 {
        if u.number > lastSeq {
          lastSeq := u.number;
        }
        return Ok;
      }
      if u.number <= lastSeq {
        return Ok;
      }
      if u.number != lastSeq + 1 {
        return Gap(lastSeq + 1, u.number);
      }
      lastSeq := u.number;
      var i := 0;
      while i < |u.events|
        invariant 0 <= i <= |u.events| && Valid() && lastSeq == u.number
        invariant view == ApplyEvents(old(view), u.events[..i])
      {
        if u.events[i].kind.Invalidated? {
          DeleteLocked(u.events[i].id);
        } else {
          UpsertLocked(u.events[i]);
        }
        assert u.events[..i + 1][..i] == u.events[..i];
        i := i + 1;
      }
      assert u.events[..i] == u.events;
      return Ok;
    }

    /** Consecutive hits along a hash chain, without an RPC. */
    method PrefixLookup(ns: Namespace, hashes: seq<Bytes>, node: string)
      returns (found: seq<MirrorBlock>, hitLength: nat, allLocal: bool)
      requires Valid()
      ensures hitLength == HitLength(view, ns, hashes) == |found|
      ensures forall i :: 0 <= i < hitLength ==> found[i] == BlockOf(view[BlockId(ns, hashes[i])], node)
      ensures forall i :: 0 <= i < hitLength ==>
        found[i].localHit ==
          exists l :: l in view[BlockId(ns, hashes[i])].locations && l.tier == 1 && l.nodeId == node
      ensures allLocal <==> 0 < hitLength == |hashes| && forall i :: 0 <= i < hitLength ==> found[i].localHit
    {
      var pool: map<Bytes, Entry> := if ns in blocks then blocks[ns] else map[];
      found, hitLength, allLocal := [], 0, true;
      var i := 0;
      while i < |hashes|
        invariant 0 <= i <= |hashes| && hitLength == |found| == i
        invariant forall k :: 0 <= k < i ==> BlockId(ns, hashes[k]) in view
        invariant forall k :: 0 <= k < i ==> found[k] == BlockOf(view[BlockId(ns, hashes[k])], node)
        invariant allLocal <==> forall k :: 0 <= k < i ==> found[k].localHit
      {
        assert hashes[i] in pool <==> BlockId(ns, hashes[i]) in view;
        if hashes[i] !in pool {
          allLocal := false;
          break;
        }
        var block := BlockOf(pool[hashes[i]], node);
        found := found + [block];
        hitLength := hitLength + 1;
        allLocal := allLocal && block.localHit;
        i := i + 1;
      }
      HitLengthIs(view, ns, hashes, hitLength);
      if hitLength == 0 {
        allLocal := false;
      }
    }
  }
}
