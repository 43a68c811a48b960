/**
 The position view that the router mirrors from the control plane: block id to entry, and how the events of
 proto/lake.proto change it. The authority and the mirror share these definitions.
 */
module Views {
  import opened Base

  datatype Location = Location(tier: int, nodeId: string)
  datatype Namespace = Namespace(modelId: string, revision: string, poolKind: int)
  datatype BlockId = BlockId(ns: Namespace, hash: Bytes)
  datatype Entry = Entry(locations: seq<Location>, l3Present: bool, blockKind: int)
  datatype Kind = Registered | Invalidated | Moved
  datatype Event = Event(kind: Kind, id: Option<BlockId>, locations: seq<Location>, l3Present: bool, blockKind: int)

  /** A `ViewUpdate`: sequence number 0 is a snapshot, an empty update with a positive number is an anchor. */
  datatype Update = Update(number: nat, events: seq<Event>)

  type View = map<BlockId, Entry>

  const L0 := 1

  /** MOVED keeps the block kind that REGISTERED announced; an unknown block starts with kind 0. */
  function Upserted(prior: Option<Entry>, ev: Event): Entry {
    Entry(ev.locations, ev.l3Present,
          if ev.kind.Registered? then ev.blockKind else if prior.Some? then prior.value.blockKind else 0)
  }

  function Find(v: View, id: BlockId): Option<Entry> {
    if id in v then Some(v[id]) else None
  }

  function Upsert(v: View, ev: Event): View {
    if ev.id.None? then v else v[ev.id.value := Upserted(Find(v, ev.id.value), ev)]
  }

  function Delete(v: View, id: Option<BlockId>): View {
    if id.None? then v else v - {id.value}
  }

  function ApplyEvent(v: View, ev: Event): View {
    if ev.kind.Invalidated? then Delete(v, ev.id) else Upsert(v, ev)
  }

  function ApplyEvents(v: View, evs: seq<Event>): View {
    if evs == [] then v else ApplyEvent(ApplyEvents(v, evs[..|evs| - 1]), evs[|evs| - 1])
  }

  /** A snapshot is rebuilt by upserts alone, whatever the event kinds say. */
  function UpsertAll(v: View, evs: seq<Event>): View {
    if evs == [] then v else Upsert(UpsertAll(v, evs[..|evs| - 1]), evs[|evs| - 1])
  }

  // ---------------------------------------------------------------- what events say about one block

  predicate Names(ev: Event, id: BlockId) { ev.id == Some(id) }

  /** The last event about a block. */
  function LastEvent(evs: seq<Event>, id: BlockId): Option<Event> {
    if evs == [] then None
    else if Names(evs[|evs| - 1], id) then Some(evs[|evs| - 1])
    else LastEvent(evs[..|evs| - 1], id)
  }

  /** The kind that was announced last, as far back as `forgets` allows; `before` if there is none. */
  function LastKind(evs: seq<Event>, id: BlockId, before: int, forgets: bool): int {
    if evs == [] then before else
      var ev, front := evs[|evs| - 1], evs[..|evs| - 1];
      if Names(ev, id) && ev.kind.Registered? then ev.blockKind
      else if Names(ev, id) && ev.kind.Invalidated? && forgets then 0
      else LastKind(front, id, before, forgets)
  }

  function KindBefore(v: View, id: BlockId): int { if id in v then v[id].blockKind else 0 }

  /**
   An increment, told block by block. A block is there afterwards exactly when the last event about it is no
   invalidation, or there is none and it was there; it has the locations of that event and the kind of the last
   registration since the last invalidation.
   */
  lemma {:induction false} IncrementExactly(v: View, evs: seq<Event>, id: BlockId)
    ensures var r, last := ApplyEvents(v, evs), LastEvent(evs, id);
      && (id in r <==> if last.Some? then !last.value.kind.Invalidated? else id in v)
      && (id in r && last.Some? ==>
            r[id] == Entry(last.value.locations, last.value.l3Present, LastKind(evs, id, KindBefore(v, id), true)))
      && (id in r && last.None? ==> r[id] == v[id])
      && (id in r ==> r[id].blockKind == LastKind(evs, id, KindBefore(v, id), true))
      && (id !in r ==> LastKind(evs, id, KindBefore(v, id), true) == 0)
  {
    if evs != [] {
      IncrementExactly(v, evs[..|evs| - 1], id);
    }
  }

  /** A snapshot, told block by block: exactly the blocks it names, with the last locations and the last kind. */
  lemma {:induction false} SnapshotExactly(evs: seq<Event>, id: BlockId)
    ensures var r, last := UpsertAll(map[], evs), LastEvent(evs, id);
      && (id in r <==> last.Some?)
      && (id in r ==>
            r[id] == Entry(last.value.locations, last.value.l3Present, LastKind(evs, id, 0, false)))
      && (id !in r ==> LastKind(evs, id, 0, false) == 0)
  {
    if evs != [] {
      SnapshotExactly(evs[..|evs| - 1], id);
    }
  }

  // ---------------------------------------------------------------- snapshots

  /** What `view_snapshot` sends for one entry. */
  function Announce(id: BlockId, e: Entry): Event {
    Event(Registered, Some(id), e.locations, e.l3Present, e.blockKind)
  }

  /** `evs` announces every entry of `v` once and nothing else. */
  ghost predicate IsSnapshot(v: View, evs: seq<Event>) {
    && (forall i :: 0 <= i < |evs| ==>
          evs[i].id.Some? && evs[i].id.value in v && evs[i] == Announce(evs[i].id.value, v[evs[i].id.value]))
    && (forall id :: id in v ==> Announce(id, v[id]) in evs)
  }

  lemma {:induction false} UpsertAnnouncements(v: View, evs: seq<Event>, n: nat)
    requires n <= |evs|
    requires forall i :: 0 <= i < |evs| ==>
      evs[i].id.Some? && evs[i].id.value in v && evs[i] == Announce(evs[i].id.value, v[evs[i].id.value])
    ensures var r := UpsertAll(map[], evs[..n]);
      && (forall id :: id in r ==> id in v && r[id] == v[id])
      && (forall i :: 0 <= i < n ==> evs[i].id.value in r)
  {
    if n > 0 {
      UpsertAnnouncements(v, evs, n - 1);
      assert evs[..n][..n - 1] == evs[..n - 1];
    }
  }

  /** A snapshot applied to nothing rebuilds the view exactly, in whatever order it lists the entries. */
  lemma SnapshotRebuilds(v: View, evs: seq<Event>)
    requires IsSnapshot(v, evs)
    ensures UpsertAll(map[], evs) == v
  {
    UpsertAnnouncements(v, evs, |evs|);
    assert evs[..|evs|] == evs;
    var r := UpsertAll(map[], evs);
    forall id | id in v ensures id in r {
      var i :| 0 <= i < |evs| && evs[i] == Announce(id, v[id]);
    }
  }

  /** Every view has a snapshot. */
  lemma {:induction false} SnapshotExists(v: View)
    ensures exists evs :: IsSnapshot(v, evs)
    decreases |v|
  {
    if v == map[] {
      assert IsSnapshot(v, []);
    } else {
      var id :| id in v;
      var rest := v - {id};
      SnapshotExists(rest);
      var evs :| IsSnapshot(rest, evs);
      var all := evs + [Announce(id, v[id])];
      forall k | k in v ensures Announce(k, v[k]) in all {
        if k != id { assert k in rest; }
      }
      assert IsSnapshot(v, all);
    }
  }

  // ---------------------------------------------------------------- applying one update

  /** The value of a `ViewMirror`. */
  datatype Mirror = Mirror(lastSeq: nat, view: View)

  datatype Outcome = Ok | Gap(want: nat, got: nat)

  function Apply(m: Mirror, u: Update): Mirror {
    if u.number == 0 then Mirror(0, UpsertAll(map[], u.events))
    else if u.events == [] then if u.number > m.lastSeq then m.(lastSeq := u.number) else m
    else if u.number == m.lastSeq + 1 then Mirror(u.number, ApplyEvents(m.view, u.events))
    else m
  }

  function Verdict(m: Mirror, u: Update): Outcome {
    if u.number > m.lastSeq + 1 && u.events != [] then Gap(m.lastSeq + 1, u.number) else Ok
  }

  /**
   One update, told block by block. A snapshot replaces everything and starts the numbers anew; an anchor only moves
   the number forward; an increment counts only with the next number. An increment from the future is a gap, and then,
   as with one from the past, nothing changes.
   */
  lemma UpdateExactly(m: Mirror, u: Update, id: BlockId)
    ensures var r, last := Apply(m, u), LastEvent(u.events, id);
      && (Verdict(m, u) == if u.number > m.lastSeq + 1 && u.events != [] then Gap(m.lastSeq + 1, u.number) else Ok)
      && (u.number == 0 ==> r.lastSeq == 0 && (id in r.view <==> last.Some?))
      && (u.number > 0 && u.events == [] ==>
            r.view == m.view && r.lastSeq == if u.number > m.lastSeq then u.number else m.lastSeq)
      && (u.number == m.lastSeq + 1 && u.events != [] ==>
            && r.lastSeq == u.number
            && (id in r.view <==> if last.Some? then !last.value.kind.Invalidated? else id in m.view))
      && (u.number > 0 && u.number != m.lastSeq + 1 && u.events != [] ==> r == m)
      && ((u.number == 0 || u.number == m.lastSeq + 1) && last.Some? && id in r.view ==>
            && r.view[id].locations == last.value.locations && r.view[id].l3Present == last.value.l3Present
            && r.view[id].blockKind == if u.number == 0 then LastKind(u.events, id, 0, false)
                                       else LastKind(u.events, id, KindBefore(m.view, id), true))
      && (u.number > 0 && last.None? ==> Find(r.view, id) == Find(m.view, id))
  {
    IncrementExactly(m.view, u.events, id);
    SnapshotExactly(u.events, id);
  }
}
