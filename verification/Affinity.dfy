/**
 Request routing of go/router/affinity.go: nodes that already hold the request's leading blocks are preferred while
 they are below a load guard; otherwise rendezvous hashing over the nodes below the guard.
 */
module Affinity {
  import opened Base
  import opened Views
  import opened ViewMirrors
  import PrefixHash

  // ---------------------------------------------------------------- ordering of node ids

  /** Byte-wise order of strings. */
  predicate Less(a: string, b: string) {
    b != [] && (a == [] || a[0] < b[0] || (a[0] == b[0] && Less(a[1..], b[1..])))
  }

  lemma {:induction false} LessTotal(a: string, b: string)
    ensures Less(a, b) || Less(b, a) || a == b
    ensures !(Less(a, b) && Less(b, a)) && (Less(a, b) ==> a != b)
  {
    if a != [] && b != [] {
      LessTotal(a[1..], b[1..]);
      assert a == [a[0]] + a[1..] && b == [b[0]] + b[1..];
    }
  }

  lemma {:induction false} LessTransitive(a: string, b: string, c: string)
    requires Less(a, b) && Less(b, c)
    ensures Less(a, c)
  {
    if a != [] && a[0] == b[0] == c[0] {
      LessTransitive(a[1..], b[1..], c[1..]);
    }
  }

  /** The order of dictionaries: at the first place where two ids differ the smaller has the smaller byte, or ends. */
  lemma {:induction false} LessExactly(a: string, b: string, i: nat)
    requires i <= |a| && i <= |b| && a[..i] == b[..i]
    requires i == |a| || i == |b| || a[i] != b[i]
    ensures Less(a, b) <==> i < |b| && (i == |a| || a[i] < b[i])
  {
    if i > 0 {
      assert a[0] == a[..i][0] == b[..i][0] == b[0];
      assert a[1..][..i - 1] == a[..i][1..] && b[1..][..i - 1] == b[..i][1..];
      LessExactly(a[1..], b[1..], i - 1);
    }
  }

  /** Greater rank first, then the smaller id. */
  predicate Ahead(rank: string -> int, a: string, b: string) {
    rank(a) > rank(b) || (rank(a) == rank(b) && Less(a, b))
  }

  lemma AheadTotal(rank: string -> int, a: string, b: string)
    ensures Ahead(rank, a, b) || Ahead(rank, b, a) || a == b
    ensures !(Ahead(rank, a, b) && Ahead(rank, b, a)) && (Ahead(rank, a, b) ==> a != b)
  {
    LessTotal(a, b);
  }

  lemma AheadTransitive(rank: string -> int, a: string, b: string, c: string)
    requires Ahead(rank, a, b) && Ahead(rank, b, c)
    ensures Ahead(rank, a, c)
  {
    if rank(a) == rank(b) == rank(c) {
      LessTransitive(a, b, c);
    }
  }

  lemma StaysBehind(rank: string -> int, x: string, y: string, z: string)
    requires Ahead(rank, x, y) && !Ahead(rank, z, y)
    ensures !Ahead(rank, z, x)
  {
    if Ahead(rank, z, x) {
      AheadTransitive(rank, z, x, y);
    }
  }

  /** `x` is the one member of `s` that is ahead of all others. */
  ghost predicate Best(rank: string -> int, s: set<string>, x: string) {
    x in s && forall y :: y in s && y != x ==> Ahead(rank, x, y)
  }

  lemma BestUnique(rank: string -> int, s: set<string>, x: string, y: string)
    requires Best(rank, s, x) && Best(rank, s, y)
    ensures x == y
  {
    AheadTotal(rank, x, y);
  }

  /** A larger set keeps its best member or takes the newcomer. */
  lemma BestGrows(rank: string -> int, s: set<string>, n: string, x: string, y: string)
    requires Best(rank, s, x) && Best(rank, s + {n}, y)
    ensures y == x || y == n
  {
    AheadTotal(rank, x, y);
  }

  // ---------------------------------------------------------------- local prefix score

  /** Number of leading hashes that the view places in the first tier of `node`. */
  function LocalScore(v: View, ns: Namespace, hashes: seq<Bytes>, node: string): (n: nat)
    ensures n <= |hashes|
    ensures forall i :: 0 <= i < n ==> IsLocal(v, ns, hashes[i], node)
    ensures n < |hashes| ==> !IsLocal(v, ns, hashes[n], node)
  {
    if hashes == [] || !IsLocal(v, ns, hashes[0], node) then 0 else 1 + LocalScore(v, ns, hashes[1..], node)
  }

  predicate IsLocal(v: View, ns: Namespace, hash: Bytes, node: string) {
    BlockId(ns, hash) in v && HasL0On(v[BlockId(ns, hash)].locations, node)
  }

  lemma LocalScoreIs(v: View, ns: Namespace, hashes: seq<Bytes>, node: string, n: nat)
    requires n <= |hashes| && (forall i :: 0 <= i < n ==> IsLocal(v, ns, hashes[i], node))
    requires n < |hashes| ==> !IsLocal(v, ns, hashes[n], node)
    ensures LocalScore(v, ns, hashes, node) == n
  { }

  /** What the score counts: leading blocks with a location in the first tier of the very node. */
  lemma ScoreExactly(v: View, ns: Namespace, hashes: seq<Bytes>, node: string)
    ensures var n := LocalScore(v, ns, hashes, node);
      && n <= |hashes|
      && (forall i :: 0 <= i < n ==>
            BlockId(ns, hashes[i]) in v &&
            exists l :: l in v[BlockId(ns, hashes[i])].locations && l.tier == 1 && l.nodeId == node)
      && (n < |hashes| && BlockId(ns, hashes[n]) in v ==>
            forall l :: l in v[BlockId(ns, hashes[n])].locations && l.tier == 1 ==> l.nodeId != node)
  {
    var n := LocalScore(v, ns, hashes, node);
    forall i | 0 <= i < n ensures BlockId(ns, hashes[i]) in v &&
      exists l :: l in v[BlockId(ns, hashes[i])].locations && l.tier == 1 && l.nodeId == node
    {
      assert IsLocal(v, ns, hashes[i], node);
      var locs := v[BlockId(ns, hashes[i])].locations;
      var j :| 0 <= j < |locs| && locs[j].tier == L0 && locs[j].nodeId == node;
      assert locs[j] in locs;
    }
  }

  /** The leading local hits among the blocks that a prefix lookup returns. */
  method ScoreNode(mirror: ViewMirror, ns: Namespace, hashes: seq<Bytes>, node: string) returns (score: nat)
    requires mirror.Valid()
    ensures score == LocalScore(mirror.view, ns, hashes, node)
  {
    var blocks, hits, all := mirror.PrefixLookup(ns, hashes, node);
    score := 0;
    while score < |blocks| && blocks[score].localHit
      invariant 0 <= score <= |blocks|
      invariant forall i :: 0 <= i < score ==> IsLocal(mirror.view, ns, hashes[i], node)
    {
      score := score + 1;
    }
    LocalScoreIs(mirror.view, ns, hashes, node, score);
  }

  // ---------------------------------------------------------------- what the router should choose

  /**
   Everything a choice depends on besides the ready nodes. The loads are counters that move while the choice is made:
   `load` is what the pass over the warm nodes reads and `reload` what the pass before rendezvous hashing reads.
   */
  datatype Request = Request(
    local: string -> int, hrw: string -> int, load: string -> int, reload: string -> int, guard: int)

  const DEFAULT_GUARD := 8

  function Guard(setting: int): int { if setting <= 0 then DEFAULT_GUARD else setting }

  ghost function Warm(q: Request, ready: set<string>): set<string> {
    set id | id in ready && q.local(id) > 0 && q.load(id) < q.guard
  }

  ghost function Below(load: string -> int, guard: int, ready: set<string>): set<string> {
    set id | id in ready && load(id) < guard
  }

  /** The nodes that the second pass finds below the guard. */
  ghost function Free(q: Request, ready: set<string>): set<string> { Below(q.reload, q.guard, ready) }

  /** The nodes that rendezvous hashing may choose from: those below the guard, or all when none is. */
  ghost function Eligible(q: Request, ready: set<string>): set<string> {
    if Free(q, ready) == {} then ready else Free(q, ready)
  }

  /** The specified choice, over the set of ready ids. */
  ghost predicate Chosen(q: Request, ready: set<string>, id: string) {
    if ready == {} then id == "worker-0"
    else if |ready| == 1 then id in ready
    else if Warm(q, ready) != {} then Best(q.local, Warm(q, ready), id)
    else Best(q.hrw, Eligible(q, ready), id)
  }

  lemma OneMember(s: set<string>, a: string, b: string)
    requires |s| == 1 && a in s && b in s
    ensures a == b
  {
    assert |s - {a}| == 0;
  }

  /** The choice depends only on the set of ready ids, the scores and the loads. */
  lemma ChoiceUnique(q: Request, ready: set<string>, a: string, b: string)
    requires Chosen(q, ready, a) && Chosen(q, ready, b)
    ensures a == b
  {
    if ready != {} {
      if |ready| == 1 {
        OneMember(ready, a, b);
      } else if Warm(q, ready) != {} {
        BestUnique(q.local, Warm(q, ready), a, b);
      } else {
        BestUnique(q.hrw, Eligible(q, ready), a, b);
      }
    }
  }

  /** Nobody else in `s` has a greater rank, and none with the same rank a smaller id. */
  ghost predicate Wins(rank: string -> int, s: set<string>, id: string) {
    id in s && forall y :: y in s && y != id ==> rank(id) >= rank(y) && (rank(id) == rank(y) ==> Less(id, y))
  }

  /**
   The choice in numbers. With two or more ready nodes: if some node holds leading blocks and is below the guard, the
   one of these that holds most; otherwise the one with the greatest hash among those below the guard, or among all
   when every node has reached it. Ties go to the smaller id.
   */
  lemma ChosenExactly(q: Request, ready: set<string>, id: string)
    requires Chosen(q, ready, id) && |ready| > 1
    ensures var warm := set x | x in ready && q.local(x) > 0 && q.load(x) < q.guard;
      var free := set x | x in ready && q.reload(x) < q.guard;
      if warm != {} then Wins(q.local, warm, id)
      else if free != {} then Wins(q.hrw, free, id)
      else Wins(q.hrw, ready, id)
  {
    assert Warm(q, ready) == set x | x in ready && q.local(x) > 0 && q.load(x) < q.guard;
    assert Free(q, ready) == set x | x in ready && q.reload(x) < q.guard;
  }

  /** Without warm nodes, the choice leaves the rendezvous home exactly when the home is loaded and another is not. */
  lemma LeavesHomeOnlyUnderLoad(q: Request, ready: set<string>, id: string, home: string)
    requires |ready| > 1 && Warm(q, ready) == {}
    requires Chosen(q, ready, id) && Best(q.hrw, ready, home)
    ensures id != home <==> q.reload(home) >= q.guard && Free(q, ready) != {}
    ensures id != home ==> q.reload(id) < q.guard
  {
    if Free(q, ready) == {} || home in Free(q, ready) {
      BestUnique(q.hrw, Eligible(q, ready), id, home);
    }
  }

  lemma WarmGrows(q: Request, ready: set<string>, n: string)
    ensures Warm(q, ready + {n}) == Warm(q, ready) || Warm(q, ready + {n}) == Warm(q, ready) + {n}
  {
    if n in Warm(q, ready + {n}) {
      assert Warm(q, ready + {n}) == Warm(q, ready) + {n};
    } else {
      assert Warm(q, ready + {n}) == Warm(q, ready);
    }
  }

  lemma EligibleGrows(q: Request, ready: set<string>, n: string)
    ensures var e := Eligible(q, ready + {n});
      e == Eligible(q, ready) || e == Eligible(q, ready) + {n} || e == {n}
  {
    if q.reload(n) < q.guard {
      assert Free(q, ready + {n}) == Free(q, ready) + {n};
    } else {
      assert Free(q, ready + {n}) == Free(q, ready);
    }
  }

  /** Adding a ready node, with the other loads fixed, moves a key only onto the new node. */
  lemma AddingMovesOnlyOntoNew(q: Request, ready: set<string>, n: string, was: string, now: string)
    requires ready != {} && n !in ready
    requires Chosen(q, ready, was) && Chosen(q, ready + {n}, now)
    ensures now == was || now == n
  {
    var more := ready + {n};
    assert |more| == |ready| + 1;
    if |ready| == 1 {
      if now != n { OneMember(ready, was, now); }
    } else {
      WarmGrows(q, ready, n);
      EligibleGrows(q, ready, n);
      if Warm(q, ready) != {} {
        GrowsEither(q.local, Warm(q, ready), Warm(q, more), n, was, now);
      } else if Warm(q, more) == {} && now != n {
        GrowsEither(q.hrw, Eligible(q, ready), Eligible(q, more), n, was, now);
      }
    }
  }

  lemma GrowsEither(rank: string -> int, s: set<string>, t: set<string>, n: string, x: string, y: string)
    requires Best(rank, s, x) && Best(rank, t, y) && (t == s || t == s + {n} || t == {n})
    ensures y == x || y == n
  {
    if t == s {
      BestUnique(rank, s, x, y);
    } else if t == s + {n} {
      BestGrows(rank, s, n, x, y);
    }
  }

  /** Removing a node moves only the keys that were on it. */
  lemma RemovingMovesOnlyItsOwn(q: Request, ready: set<string>, n: string, was: string, now: string)
    requires ready - {n} != {} && n in ready && was != n
    requires Chosen(q, ready, was) && Chosen(q, ready - {n}, now)
    ensures now == was
  {
    assert (ready - {n}) + {n} == ready;
    AddingMovesOnlyOntoNew(q, ready - {n}, n, now, was);
  }

  // ---------------------------------------------------------------- sorting

  ghost predicate Ordered(rank: string -> int, s: seq<string>) {
    forall i, j :: 0 <= i < j < |s| ==> !Ahead(rank, s[j], s[i])
  }

  ghost predicate SameMembers(a: seq<string>, b: seq<string>) {
    |a| == |b| && forall x :: x in a <==> x in b
  }

  /** Insertion of `x` into an ordered sequence, behind those it is not ahead of. */
  method Place(rank: string -> int, s: seq<string>, x: string) returns (r: seq<string>)
    requires Ordered(rank, s)
    ensures Ordered(rank, r) && SameMembers(r, s + [x])
  {
    var i := 0;
    while i < |s| && !Ahead(rank, x, s[i])
      invariant 0 <= i <= |s|
      invariant forall k :: 0 <= k < i ==> !Ahead(rank, x, s[k])
    {
      i := i + 1;
    }
    r := s[..i] + [x] + s[i..];
    assert forall y :: y in s <==> y in s[..i] || y in s[i..];
    forall k | i <= k < |s| ensures !Ahead(rank, s[k], x) {
      AheadTotal(rank, s[i], s[i]);
      StaysBehind(rank, x, s[i], s[k]);
    }
    PlacedOrdered(rank, s, i, x);
  }

  lemma PlacedOrdered(rank: string -> int, s: seq<string>, i: nat, x: string)
    requires Ordered(rank, s) && i <= |s|
    requires forall k :: 0 <= k < i ==> !Ahead(rank, x, s[k])
    requires forall k :: i <= k < |s| ==> !Ahead(rank, s[k], x)
    ensures Ordered(rank, s[..i] + [x] + s[i..])
  {
    var r := s[..i] + [x] + s[i..];
    forall a, b | 0 <= a < b < |r| ensures !Ahead(rank, r[b], r[a]) {
      assert a != i ==> r[a] == s[if a < i then a else a - 1];
      assert b != i ==> r[b] == s[if b < i then b else b - 1];
    }
  }

  method Sort(rank: string -> int, s: seq<string>) returns (r: seq<string>)
    ensures Ordered(rank, r) && SameMembers(r, s)
  {
    r := [];
    for i := 0 to |s|
      invariant Ordered(rank, r) && SameMembers(r, s[..i])
    {
      r := Place(rank, r, s[i]);
      assert s[..i + 1] == s[..i] + [s[i]];
    }
    assert s[..|s|] == s;
  }

  // ---------------------------------------------------------------- the router's choice

  ghost function Members(s: seq<string>): set<string> { set x | x in s }

  predicate Distinct(s: seq<string>) { forall i, j :: 0 <= i < j < |s| ==> s[i] != s[j] }

  lemma {:induction false} MembersSize(s: seq<string>)
    requires Distinct(s)
    ensures |Members(s)| == |s|
  {
    if s != [] {
      var n := |s| - 1;
      MembersSize(s[..n]);
      assert Members(s) == Members(s[..n]) + {s[n]};
    }
  }

  /** Among the candidates in order, the first one below the guard is the best of those below the guard. */
  method FirstBelow(q: Request, cands: seq<string>) returns (id: Option<string>)
    requires Ordered(q.local, cands)
    ensures id.Some? ==> Best(q.local, Below(q.load, q.guard, Members(cands)), id.value)
    ensures id.None? ==> Below(q.load, q.guard, Members(cands)) == {}
  {
    for i := 0 to |cands|
      invariant forall k :: 0 <= k < i ==> q.load(cands[k]) >= q.guard
    {
      if q.load(cands[i]) < q.guard {
        forall y | y in Below(q.load, q.guard, Members(cands)) && y != cands[i] ensures Ahead(q.local, cands[i], y) {
          var k :| 0 <= k < |cands| && cands[k] == y;
          AheadTotal(q.local, cands[i], y);
        }
        return Some(cands[i]);
      }
    }
    return None;
  }

  /** The argmax loop of rendezvous hashing. */
  method RendezvousBest(hrw: string -> int, ids: seq<string>) returns (best: string)
    requires ids != []
    ensures Best(hrw, Members(ids), best)
  {
    best := ids[0];
    var bestScore := hrw(best);
    for i := 1 to |ids|
      invariant best in ids && bestScore == hrw(best)
      invariant forall k :: 0 <= k < i && ids[k] != best ==> Ahead(hrw, best, ids[k])
    {
      var score := hrw(ids[i]);
      if score > bestScore || (score == bestScore && Less(ids[i], best)) {
        forall k | 0 <= k < i && ids[k] != ids[i] ensures Ahead(hrw, ids[i], ids[k]) {
          if ids[k] != best { AheadTransitive(hrw, ids[i], best, ids[k]); }
        }
        best, bestScore := ids[i], score;
      } else {
        AheadTotal(hrw, best, ids[i]);
      }
    }
  }

  /** The ids that pass a test, in order. */
  method Keep(ids: seq<string>, test: string -> bool) returns (r: seq<string>)
    ensures forall x :: x in r <==> x in ids && test(x)
  {
    r := [];
    for i := 0 to |ids|
      invariant forall x :: x in r <==> x in ids[..i] && test(x)
    {
      if test(ids[i]) {
        r := r + [ids[i]];
      }
    }
  }

  /** Two-stage choice of a node among the ready ones. */
  method PickNodeForRequest(q: Request, ready: seq<string>) returns (id: string)
    requires Distinct(ready)
    ensures Chosen(q, Members(ready), id)
  {
    MembersSize(ready);
    var ids := Sort(_ => 0, ready);
    assert Members(ids) == Members(ready);
    if |ids| == 0 {
      return "worker-0";
    }
    if |ids| == 1 {
      return ids[0];
    }
    assert Members(ready) != {};
    var warm := Keep(ids, x => q.local(x) > 0);
    var cands := Sort(q.local, warm);
    var hot := FirstBelow(q, cands);
    assert Below(q.load, q.guard, Members(cands)) == Warm(q, Members(ready));
    if hot.Some? {
      return hot.value;
    }
    var eligible := Keep(ids, x => q.reload(x) < q.guard);
    assert Members(eligible) == Free(q, Members(ready));
    if |eligible| == 0 {
      eligible := ids;
    } else {
      assert eligible[0] in Members(eligible);
    }
    id := RendezvousBest(q.hrw, eligible);
  }

  ghost function LocalRank(v: View, ns: Namespace, hashes: seq<Bytes>): string -> int {
    id => LocalScore(v, ns, hashes, id)
  }

  lemma ChosenAgrees(q: Request, r: Request, ready: set<string>, id: string)
    requires Chosen(q, ready, id) && r == q.(local := r.local)
    requires forall x :: x in ready ==> q.local(x) == r.local(x)
    ensures Chosen(r, ready, id)
  {
    assert Warm(q, ready) == Warm(r, ready);
    assert Eligible(q, ready) == Eligible(r, ready);
    if Warm(q, ready) != {} && Best(q.local, Warm(q, ready), id) {
      assert forall y :: y in Warm(r, ready) && y != id && Ahead(q.local, id, y) ==> Ahead(r.local, id, y);
    }
  }

  /** The whole choice: local scores come from the mirror, loads and the guard setting from the server. */
  method PickNode(
    mirror: ViewMirror, ns: Namespace, hashes: seq<Bytes>, hrw: string -> int, load: string -> int,
    reload: string -> int, setting: int, ready: seq<string>) returns (id: string)
    requires mirror.Valid() && Distinct(ready)
    ensures var guard := if setting <= 0 then 8 else setting;
      Chosen(Request(LocalRank(mirror.view, ns, hashes), hrw, load, reload, guard), Members(ready), id)
  {
    var scores: map<string, int> := map[];
    for i := 0 to |ready|
      invariant forall k :: 0 <= k < i ==> ready[k] in scores
      invariant forall x :: x in scores ==> scores[x] == LocalScore(mirror.view, ns, hashes, x)
    {
      var score := ScoreNode(mirror, ns, hashes, ready[i]);
      scores := scores[ready[i] := score];
    }
    var q := Request(x => if x in scores then scores[x] else 0, hrw, load, reload, Guard(setting));
    id := PickNodeForRequest(q, ready);
    ChosenAgrees(q, q.(local := LocalRank(mirror.view, ns, hashes)), Members(ready), id);
  }

  // ---------------------------------------------------------------- the routing key

  const ANCHOR_DEPTH := 8

  /** The hash at a bounded depth of the chain; nothing for an empty chain. */
  function PrefixAnchor(hashes: seq<Bytes>): Bytes {
    if hashes == [] then [] else hashes[(if |hashes| > ANCHOR_DEPTH then ANCHOR_DEPTH else |hashes|) - 1]
  }

  function AnchorLength(blocks: nat): nat { if blocks > 8 then 8 else blocks }

  lemma AnchorPlace(hashes: seq<Bytes>)
    requires hashes != []
    ensures PrefixAnchor(hashes) == hashes[AnchorLength(|hashes|) - 1]
  { }

  lemma AnchorIs(sha: PrefixHash.Sha, a: seq<PrefixHash.Block>)
    requires a != []
    ensures PrefixAnchor(PrefixHash.Chain(sha, a)) == PrefixHash.Digest(sha, a, AnchorLength(|a|) - 1)
  {
    PrefixHash.ChainAt(sha, a, AnchorLength(|a|) - 1);
    AnchorPlace(PrefixHash.Chain(sha, a));
  }

  lemma SamePrefixSameDigest(
    sha: PrefixHash.Sha, a: seq<PrefixHash.Block>, b: seq<PrefixHash.Block>, m: nat, n: nat)
    requires 0 < m <= |a| && 0 < n <= |b| && a[..m] == b[..n]
    ensures PrefixHash.Digest(sha, a, m - 1) == PrefixHash.Digest(sha, b, n - 1)
  {
    assert m == |a[..m]| == |b[..n]| == n;
    PrefixHash.DigestOfPrefix(sha, a, b, m - 1);
  }

  /** Two prompts have the same routing key exactly when they agree on their blocks up to the anchor depth. */
  lemma AnchorIdentifiesPrefix(
    sha: PrefixHash.Sha, a: seq<PrefixHash.Block>, b: seq<PrefixHash.Block>, size: nat, xs: set<Bytes>)
    requires PrefixHash.IsSha(sha) && 4 * size <= PrefixHash.DIGEST_SIZE
    requires PrefixHash.Sized(a, size) && PrefixHash.Sized(b, size) && a != [] && b != []
    requires PrefixHash.Inputs(sha, a) <= xs && PrefixHash.Inputs(sha, b) <= xs && PrefixHash.NoCollision(sha, xs)
    ensures PrefixAnchor(PrefixHash.Chain(sha, a)) == PrefixAnchor(PrefixHash.Chain(sha, b)) <==>
      a[..AnchorLength(|a|)] == b[..AnchorLength(|b|)]
  {
    var m, n := AnchorLength(|a|), AnchorLength(|b|);
    AnchorIs(sha, a);
    AnchorIs(sha, b);
    if a[..m] == b[..n] {
      SamePrefixSameDigest(sha, a, b, m, n);
    } else if PrefixHash.Digest(sha, a, m - 1) == PrefixHash.Digest(sha, b, n - 1) {
      PrefixHash.EqualHashesEqualPrefixes(sha, a, b, size, xs, m - 1, n - 1);
    }
  }
}
