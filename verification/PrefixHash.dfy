/**
 The hash chain of go/router/prefixhash.go and what it is for: looking a prompt's hashes up in a flat index agrees
 with longest-prefix match on the prompts' blocks. SHA-256 (section 6.2 of FIPS 180-4) is any function to 32 bytes.
 */
module PrefixHash {
  import opened Base
  import opened Views
  import opened ViewMirrors

  type Token = t: int | 0 <= t < 0x1_0000_0000
  type Sha = Bytes -> Bytes
  type Block = seq<Token>

  const DEFAULT_BLOCK_SIZE := 8
  const DIGEST_SIZE := 32

  ghost predicate IsSha(sha: Sha) { forall x :: |sha(x)| == DIGEST_SIZE }

  // ---------------------------------------------------------------- encoding

  /** Four bytes, least significant first. */
  function Le4(t: Token): Bytes {
    var high := t / 256;
    var higher := high / 256;
    [t % 256, high % 256, higher % 256, higher / 256]
  }

  lemma Le4Injective(s: Token, t: Token)
    requires Le4(s) == Le4(t)
    ensures s == t
  {
    assert Le4(s)[0] == s % 256 && Le4(s)[1] == s / 256 % 256;
    assert Le4(s)[2] == s / 256 / 256 % 256 && Le4(s)[3] == s / 256 / 256 / 256;
  }

  function Encode(ts: seq<Token>): (r: Bytes)
    ensures |r| == 4 * |ts|
  {
    if ts == [] then [] else Le4(ts[0]) + Encode(ts[1..])
  }

  lemma {:induction false} EncodeInjective(a: seq<Token>, b: seq<Token>)
    requires Encode(a) == Encode(b)
    ensures a == b
  {
    assert |a| == |b|;
    if a != [] {
      assert Le4(a[0]) == Encode(a)[..4] == Encode(b)[..4] == Le4(b[0]);
      assert Encode(a[1..]) == Encode(a)[4..] == Encode(b)[4..] == Encode(b[1..]);
      Le4Injective(a[0], b[0]);
      EncodeInjective(a[1..], b[1..]);
    }
  }

  // ---------------------------------------------------------------- the chain

  /** The prompt cut every `size` tokens; the last block may be shorter. */
  function Blocks(ts: seq<Token>, size: nat): seq<Block>
    requires size > 0
  {
    if |ts| <= size then (if ts == [] then [] else [ts]) else [ts[..size]] + Blocks(ts[size..], size)
  }

  function Join(bs: seq<Block>): seq<Token> {
    if bs == [] then [] else bs[0] + Join(bs[1..])
  }

  ghost predicate Sized(bs: seq<Block>, size: nat) {
    forall i :: 0 <= i < |bs| ==> 0 < |bs[i]| <= size
  }

  /** Cutting loses nothing: the blocks join back to the prompt, and all but possibly the last are full. */
  lemma {:induction false} BlocksJoin(ts: seq<Token>, size: nat)
    requires size > 0
    ensures Join(Blocks(ts, size)) == ts && Sized(Blocks(ts, size), size)
    ensures forall i :: 0 <= i < |Blocks(ts, size)| - 1 ==> |Blocks(ts, size)[i]| == size
    decreases |ts|
  {
    if |ts| <= size {
      if ts != [] { assert [ts][1..] == [] && ts + [] == ts; }
    } else {
      var rest := Blocks(ts[size..], size);
      BlocksJoin(ts[size..], size);
      assert ([ts[..size]] + rest)[1..] == rest;
      assert ts[..size] + ts[size..] == ts;
      assert forall i :: 1 <= i < |Blocks(ts, size)| ==> Blocks(ts, size)[i] == rest[i - 1];
    }
  }

  /** The bytes hashed for block `i`: the digest of the previous block, then the encoded tokens. */
  function Input(sha: Sha, bs: seq<Block>, i: nat): Bytes
    requires i < |bs|
    decreases i, 0
  {
    (if i == 0 then [] else Digest(sha, bs, i - 1)) + Encode(bs[i])
  }

  function Digest(sha: Sha, bs: seq<Block>, i: nat): Bytes
    requires i < |bs|
    decreases i, 1
  {
    sha(Input(sha, bs, i))
  }

  lemma {:induction false} DigestOfPrefix(sha: Sha, a: seq<Block>, b: seq<Block>, i: nat)
    requires i < |a| && i < |b| && a[..i + 1] == b[..i + 1]
    ensures Digest(sha, a, i) == Digest(sha, b, i)
    decreases i
  {
    assert a[i] == a[..i + 1][i] == b[i];
    if i > 0 {
      assert a[..i] == a[..i + 1][..i] == b[..i];
      DigestOfPrefix(sha, a, b, i - 1);
    }
  }

  function Chain(sha: Sha, bs: seq<Block>): seq<Bytes> {
    seq(|bs|, i requires 0 <= i < |bs| => Digest(sha, bs, i))
  }

  lemma ChainAt(sha: Sha, bs: seq<Block>, i: nat)
    requires i < |bs|
    ensures |Chain(sha, bs)| == |bs| && Chain(sha, bs)[i] == Digest(sha, bs, i)
  { }

  /** The digests of the first blocks, and the last of them. */
  ghost predicate ChainedSoFar(sha: Sha, bs: seq<Block>, hashes: seq<Bytes>, parent: Bytes) {
    && |hashes| <= |bs|
    && (forall k :: 0 <= k < |hashes| ==> hashes[k] == Digest(sha, bs, k))
    && parent == if hashes == [] then [] else hashes[|hashes| - 1]
  }

  lemma ChainOn(sha: Sha, bs: seq<Block>, hashes: seq<Bytes>, parent: Bytes)
    requires ChainedSoFar(sha, bs, hashes, parent) && |hashes| < |bs|
    ensures var digest := sha(parent + Encode(bs[|hashes|])); ChainedSoFar(sha, bs, hashes + [digest], digest)
  {
    assert Digest(sha, bs, |hashes|) == sha(parent + Encode(bs[|hashes|]));
  }

  lemma ChainDone(sha: Sha, bs: seq<Block>, hashes: seq<Bytes>, parent: Bytes)
    requires ChainedSoFar(sha, bs, hashes, parent) && |hashes| == |bs|
    ensures hashes == Chain(sha, bs)
  { }

  /** `ChainBlockHashes`: one pass over the prompt, carrying the parent digest. */
  method ChainBlockHashes(sha: Sha, tokens: seq<Token>, blockSize: int) returns (hashes: seq<Bytes>)
    ensures hashes == Chain(sha, Blocks(tokens, if blockSize <= 0 then DEFAULT_BLOCK_SIZE else blockSize))
  {
    var size := if blockSize <= 0 then DEFAULT_BLOCK_SIZE else blockSize;
    ghost var bs := Blocks(tokens, size);
    ghost var rest := bs;
    hashes := [];
    var parent: Bytes := [];
    var i := 0;
    while i < |tokens|
      invariant 0 <= i && |hashes| + |rest| == |bs| && rest == bs[|hashes|..]
      invariant Blocks(tokens[if i < |tokens| then i else |tokens|..], size) == rest
      invariant ChainedSoFar(sha, bs, hashes, parent)
      decreases |tokens| - i
    {
      var end := if i + size > |tokens| then |tokens| else i + size;
      var block := tokens[i..end];
      NextBlock(tokens, size, i, end, rest);
      assert block == bs[|hashes|];
      ChainOn(sha, bs, hashes, parent);
      var digest := sha(parent + Encode(block));
      hashes := hashes + [digest];
      parent := digest;
      rest := rest[1..];
      i := i + size;
    }
    assert tokens[|tokens|..] == [];
    ChainDone(sha, bs, hashes, parent);
  }

  lemma NextBlock(ts: seq<Token>, size: nat, i: nat, end: nat, bs: seq<Block>)
    requires size > 0 && i < |ts| && end == (if i + size > |ts| then |ts| else i + size)
    requires Blocks(ts[i..], size) == bs
    ensures bs != [] && bs[0] == ts[i..end] && Blocks(ts[end..], size) == bs[1..]
  {
    FirstBlock(ts[i..], size);
    assert ts[i..][..end - i] == ts[i..end] && ts[i..][end - i..] == ts[end..];
  }

  lemma FirstBlock(ts: seq<Token>, size: nat)
    requires size > 0 && ts != []
    ensures var n := if |ts| <= size then |ts| else size; Blocks(ts, size) == [ts[..n]] + Blocks(ts[n..], size)
  {
    assert ts[..|ts|] == ts && ts[|ts|..] == [];
  }

  // ---------------------------------------------------------------- separation

  /** The hash function does not collide on the given inputs. */
  ghost predicate NoCollision(sha: Sha, xs: set<Bytes>) {
    forall x, y :: x in xs && y in xs && sha(x) == sha(y) ==> x == y
  }

  function Inputs(sha: Sha, bs: seq<Block>): set<Bytes> {
    set i | 0 <= i < |bs| :: Input(sha, bs, i)
  }

  lemma InputLength(sha: Sha, bs: seq<Block>, i: nat)
    requires IsSha(sha) && i < |bs|
    ensures |Input(sha, bs, i)| == (if i == 0 then 0 else DIGEST_SIZE) + 4 * |bs[i]|
  { }

  /** Equal inputs of small blocks sit at the start of both chains or of neither. */
  lemma EqualInputs(sha: Sha, a: seq<Block>, b: seq<Block>, size: nat, i: nat, j: nat)
    requires IsSha(sha) && 4 * size <= DIGEST_SIZE && Sized(a, size) && Sized(b, size)
    requires i < |a| && j < |b| && Input(sha, a, i) == Input(sha, b, j)
    ensures a[i] == b[j] && (i == 0 <==> j == 0)
    ensures i > 0 && j > 0 ==> Digest(sha, a, i - 1) == Digest(sha, b, j - 1)
  {
    var x, y := Input(sha, a, i), Input(sha, b, j);
    InputLength(sha, a, i);
    InputLength(sha, b, j);
    var skip := if i == 0 then 0 else DIGEST_SIZE;
    assert x[skip..] == Encode(a[i]) && y[skip..] == Encode(b[j]);
    EncodeInjective(a[i], b[j]);
    if i > 0 {
      assert x[..DIGEST_SIZE] == Digest(sha, a, i - 1) && y[..DIGEST_SIZE] == Digest(sha, b, j - 1);
    }
  }

  /**
   With blocks of at most eight tokens, equal hashes mean equal positions and equal tokens up to there: a first
   input has at most 32 bytes and a later one at least 36, so positions cannot be confused.
   */
  lemma EqualHashesEqualPrefixes(
    sha: Sha, a: seq<Block>, b: seq<Block>, size: nat, xs: set<Bytes>, i: nat, j: nat)
    requires IsSha(sha) && 4 * size <= DIGEST_SIZE && Sized(a, size) && Sized(b, size)
    requires Inputs(sha, a) <= xs && Inputs(sha, b) <= xs && NoCollision(sha, xs)
    requires i < |a| && j < |b| && Digest(sha, a, i) == Digest(sha, b, j)
    ensures i == j && a[..i + 1] == b[..j + 1]
  {
    InputsHashed(sha, a, xs);
    InputsHashed(sha, b, xs);
    SameDigestSameChain(sha, a, b, size, xs, i, j);
  }

  /** Every input of the chain is among the given ones. */
  ghost predicate Hashed(sha: Sha, bs: seq<Block>, xs: set<Bytes>) {
    forall i :: 0 <= i < |bs| ==> Input(sha, bs, i) in xs
  }

  lemma InputsHashed(sha: Sha, bs: seq<Block>, xs: set<Bytes>)
    requires Inputs(sha, bs) <= xs
    ensures Hashed(sha, bs, xs)
  {
    forall i | 0 <= i < |bs| ensures Input(sha, bs, i) in xs {
      assert Input(sha, bs, i) in Inputs(sha, bs);
    }
  }

  lemma {:induction false} SameDigestSameChain(
    sha: Sha, a: seq<Block>, b: seq<Block>, size: nat, xs: set<Bytes>, i: nat, j: nat)
    requires IsSha(sha) && 4 * size <= DIGEST_SIZE && Sized(a, size) && Sized(b, size)
    requires Hashed(sha, a, xs) && Hashed(sha, b, xs) && NoCollision(sha, xs)
    requires i < |a| && j < |b| && Digest(sha, a, i) == Digest(sha, b, j)
    ensures i == j && a[..i + 1] == b[..j + 1]
    decreases i
  {
    EqualDigestsEqualInputs(sha, a, b, xs, i, j);
    EqualInputs(sha, a, b, size, i, j);
    if i > 0 {
      SameDigestSameChain(sha, a, b, size, xs, i - 1, j - 1);
    }
    LongerPrefix(a, b, i, j);
  }

  lemma EqualDigestsEqualInputs(sha: Sha, a: seq<Block>, b: seq<Block>, xs: set<Bytes>, i: nat, j: nat)
    requires Hashed(sha, a, xs) && Hashed(sha, b, xs) && NoCollision(sha, xs)
    requires i < |a| && j < |b| && Digest(sha, a, i) == Digest(sha, b, j)
    ensures Input(sha, a, i) == Input(sha, b, j)
  { }

  lemma LongerPrefix(a: seq<Block>, b: seq<Block>, i: nat, j: nat)
    requires i < |a| && j < |b| && a[i] == b[j] && a[..i] == b[..j]
    ensures a[..i + 1] == b[..j + 1]
  {
    assert a[..i + 1] == a[..i] + [a[i]] && b[..j + 1] == b[..j] + [b[j]];
  }

  // ---------------------------------------------------------------- longest-prefix match

  /** Number of leading blocks that two prompts share. */
  function Common(a: seq<Block>, b: seq<Block>): (n: nat)
    ensures n <= |a| && n <= |b| && a[..n] == b[..n]
    ensures n < |a| && n < |b| ==> a[n] != b[n]
  {
    if a == [] || b == [] || a[0] != b[0] then 0 else
      var n := 1 + Common(a[1..], b[1..]);
      assert a[..n] == [a[0]] + a[1..][..n - 1] && b[..n] == [b[0]] + b[1..][..n - 1];
      n
  }

  lemma CommonAtLeast(a: seq<Block>, b: seq<Block>, n: nat)
    requires n <= |a| && n <= |b| && a[..n] == b[..n]
    ensures Common(a, b) >= n
  {
    assert forall k :: 0 <= k < n ==> a[k] == a[..n][k] && b[k] == b[..n][k];
  }

  /** The index holds, in one namespace, the hashes of the registered prompts and no others. */
  ghost predicate Indexes(sha: Sha, v: View, ns: Namespace, prompts: set<seq<Block>>) {
    && (forall p, i :: p in prompts && 0 <= i < |p| ==> BlockId(ns, Digest(sha, p, i)) in v)
    && (forall h :: BlockId(ns, h) in v ==> exists p, i :: p in prompts && 0 <= i < |p| && h == Digest(sha, p, i))
  }

  ghost predicate Collides(sha: Sha, prompts: set<seq<Block>>, q: seq<Block>) {
    !NoCollision(sha, Inputs(sha, q) + set p, i | p in prompts && 0 <= i < |p| :: Input(sha, p, i))
  }

  /** A registered prompt yields at least the blocks it shares with the query. */
  lemma SharedBlocksHit(sha: Sha, v: View, ns: Namespace, prompts: set<seq<Block>>, q: seq<Block>, p: seq<Block>)
    requires Indexes(sha, v, ns, prompts) && p in prompts
    ensures Common(p, q) <= HitLength(v, ns, Chain(sha, q))
  {
    var n := HitLength(v, ns, Chain(sha, q));
    if n < Common(p, q) {
      assert p[..n + 1] == p[..Common(p, q)][..n + 1] == q[..Common(p, q)][..n + 1] == q[..n + 1];
      DigestOfPrefix(sha, p, q, n);
    }
  }

  /** A hit of n blocks is shared with one registered prompt. */
  lemma HitsAreShared(
    sha: Sha, v: View, ns: Namespace, prompts: set<seq<Block>>, q: seq<Block>, size: nat) returns (p: seq<Block>)
    requires IsSha(sha) && 4 * size <= DIGEST_SIZE && Sized(q, size)
    requires forall r :: r in prompts ==> Sized(r, size)
    requires Indexes(sha, v, ns, prompts) && !Collides(sha, prompts, q)
    requires HitLength(v, ns, Chain(sha, q)) > 0
    ensures p in prompts && Common(p, q) >= HitLength(v, ns, Chain(sha, q))
  {
    var n := HitLength(v, ns, Chain(sha, q));
    var h := Digest(sha, q, n - 1);
    assert Chain(sha, q)[n - 1] == h && BlockId(ns, h) in v;
    var i;
    p, i :| p in prompts && 0 <= i < |p| && h == Digest(sha, p, i);
    var all := set r, k | r in prompts && 0 <= k < |r| :: Input(sha, r, k);
    assert Inputs(sha, p) <= all;
    EqualHashesEqualPrefixes(sha, p, q, size, Inputs(sha, q) + all, i, n - 1);
    CommonAtLeast(p, q, n);
  }

  /** The hit length is the most blocks that the query shares with a registered prompt. */
  ghost predicate IsLongestMatch(sha: Sha, v: View, ns: Namespace, prompts: set<seq<Block>>, q: seq<Block>) {
    var n := HitLength(v, ns, Chain(sha, q));
    && (forall p :: p in prompts ==> Common(p, q) <= n)
    && (n > 0 ==> exists p :: p in prompts && Common(p, q) == n)
  }

  /**
   Longest-prefix match. Over an index of any set of registered prompts, the hit length of a query's hash chain is
   the largest number of leading blocks it shares with one of them.
   */
  lemma LookupIsLongestPrefixMatch(
    sha: Sha, v: View, ns: Namespace, prompts: set<seq<Block>>, q: seq<Block>, size: nat)
    requires IsSha(sha) && 4 * size <= DIGEST_SIZE && Sized(q, size)
    requires forall r :: r in prompts ==> Sized(r, size)
    requires Indexes(sha, v, ns, prompts) && !Collides(sha, prompts, q)
    ensures IsLongestMatch(sha, v, ns, prompts, q)
  {
    var n := HitLength(v, ns, Chain(sha, q));
    forall p | p in prompts ensures Common(p, q) <= n { SharedBlocksHit(sha, v, ns, prompts, q, p); }
    if n > 0 {
      var p := HitsAreShared(sha, v, ns, prompts, q, size);
      assert p in prompts && Common(p, q) == n;
    }
  }

  // ---------------------------------------------------------------- larger blocks

  /** The token whose four bytes are given. */
  function Unpack(bs: Bytes): Token
    requires |bs| == 4
  {
    bs[0] as int + 256 * (bs[1] as int + 256 * (bs[2] as int + 256 * bs[3] as int))
  }

  lemma UnpackLe4(bs: Bytes)
    requires |bs| == 4
    ensures Le4(Unpack(bs)) == bs
  {
    var t := Unpack(bs);
    DivMod(bs[1] as int + 256 * (bs[2] as int + 256 * bs[3] as int), bs[0]);
    DivMod(bs[2] as int + 256 * bs[3] as int, bs[1]);
    DivMod(bs[3], bs[2]);
  }

  lemma DivMod(q: nat, r: Byte)
    ensures (r as int + 256 * q) / 256 == q && (r as int + 256 * q) % 256 == r
  { }

  function Decode(bs: Bytes): seq<Token>
    requires |bs| % 4 == 0
  {
    if bs == [] then [] else [Unpack(bs[..4])] + Decode(bs[4..])
  }

  lemma {:induction false} EncodeDecode(bs: Bytes)
    requires |bs| % 4 == 0
    ensures Encode(Decode(bs)) == bs && 4 * |Decode(bs)| == |bs|
    decreases |bs|
  {
    if bs != [] {
      UnpackLe4(bs[..4]);
      EncodeDecode(bs[4..]);
      var ts := Decode(bs);
      assert ts[1..] == Decode(bs[4..]);
      assert bs == bs[..4] + bs[4..];
    }
  }

  /** A two-block prompt, and the one-block prompt whose tokens spell the bytes hashed for its second block. */
  function Long(size: nat): seq<Block> {
    [seq(size, _ => 0), [1]]
  }

  function Spelled(sha: Sha, size: nat): seq<Block>
    requires |Input(sha, Long(size), 1)| % 4 == 0
  {
    [Decode(Input(sha, Long(size), 1))]
  }

  /**
   From nine tokens per block on, the law fails for every hash function that tells `Long`'s two inputs apart, and
   without any collision: registering `Long` makes the lookup report a block for `Spelled`, with which it shares none.
   */
  lemma LargeBlocksConfusePositions(sha: Sha, size: nat, v: View, ns: Namespace)
    requires IsSha(sha) && size >= 9 && Indexes(sha, v, ns, {Long(size)})
    ensures |Input(sha, Long(size), 1)| % 4 == 0
    ensures var q := Spelled(sha, size);
      && Sized(q, size) && Sized(Long(size), size)
      && Input(sha, q, 0) == Input(sha, Long(size), 1)
      && Common(Long(size), q) == 0 && HitLength(v, ns, Chain(sha, q)) == 1
      && (NoCollision(sha, Inputs(sha, Long(size))) ==> !Collides(sha, {Long(size)}, q))
  {
    SpelledFits(sha, size);
    SpelledAddsNoInput(sha, size);
    SpelledIsHit(sha, size, v, ns);
    SpelledSharesNothing(sha, size);
  }

  lemma SpelledFits(sha: Sha, size: nat)
    requires IsSha(sha) && size >= 9
    ensures |Input(sha, Long(size), 1)| % 4 == 0
    ensures var q := Spelled(sha, size);
      Sized(q, size) && Sized(Long(size), size) && Input(sha, q, 0) == Input(sha, Long(size), 1)
  {
    InputLength(sha, Long(size), 1);
    EncodeDecode(Input(sha, Long(size), 1));
  }

  lemma SpelledIsHit(sha: Sha, size: nat, v: View, ns: Namespace)
    requires IsSha(sha) && Indexes(sha, v, ns, {Long(size)}) && |Input(sha, Long(size), 1)| % 4 == 0
    requires Input(sha, Spelled(sha, size), 0) == Input(sha, Long(size), 1)
    ensures HitLength(v, ns, Chain(sha, Spelled(sha, size))) == 1
  {
    assert BlockId(ns, Digest(sha, Long(size), 1)) in v;
    HitLengthIs(v, ns, Chain(sha, Spelled(sha, size)), 1);
  }

  lemma SpelledSharesNothing(sha: Sha, size: nat)
    requires IsSha(sha) && size >= 9 && |Input(sha, Long(size), 1)| % 4 == 0
    ensures Common(Long(size), Spelled(sha, size)) == 0
  {
    SpelledNinth(sha, size);
    assert Long(size)[0][8] == 0;
  }

  lemma SpelledAddsNoInput(sha: Sha, size: nat)
    requires IsSha(sha) && |Input(sha, Long(size), 1)| % 4 == 0
    ensures Collides(sha, {Long(size)}, Spelled(sha, size)) ==> !NoCollision(sha, Inputs(sha, Long(size)))
  {
    var p, q := Long(size), Spelled(sha, size);
    EncodeDecode(Input(sha, p, 1));
    assert Input(sha, q, 0) == Input(sha, p, 1) && Input(sha, p, 1) in Inputs(sha, p);
    NoMoreInputs(sha, p, q);
  }

  lemma NoMoreInputs(sha: Sha, p: seq<Block>, q: seq<Block>)
    requires |q| == 1 && Input(sha, q, 0) in Inputs(sha, p)
    ensures Collides(sha, {p}, q) ==> !NoCollision(sha, Inputs(sha, p))
  {
    var all := Inputs(sha, q) + set r, i | r in {p} && 0 <= i < |r| :: Input(sha, r, i);
    assert all <= Inputs(sha, p);
  }

  /** The law for one block size: it holds for every index and every query without a collision. */
  ghost predicate Law(sha: Sha, size: nat) {
    forall v, ns, prompts, q ::
      && Sized(q, size) && (forall r :: r in prompts ==> Sized(r, size))
      && Indexes(sha, v, ns, prompts) && !Collides(sha, prompts, q) ==>
      IsLongestMatch(sha, v, ns, prompts, q)
  }

  /** An index of one two-block prompt. */
  ghost function IndexOf(sha: Sha, ns: Namespace, p: seq<Block>): View
    requires |p| == 2
  {
    map[BlockId(ns, Digest(sha, p, 0)) := Entry([], false, 0), BlockId(ns, Digest(sha, p, 1)) := Entry([], false, 0)]
  }

  lemma IndexOfIndexes(sha: Sha, ns: Namespace, p: seq<Block>)
    requires |p| == 2
    ensures Indexes(sha, IndexOf(sha, ns, p), ns, {p})
  {
    var v := IndexOf(sha, ns, p);
    forall h | BlockId(ns, h) in v ensures exists r, i :: r in {p} && 0 <= i < |r| && h == Digest(sha, r, i) {
      assert p in {p};
      assert h == Digest(sha, p, 0) || h == Digest(sha, p, 1);
    }
    forall r, i | r in {p} && 0 <= i < |r| ensures BlockId(ns, Digest(sha, r, i)) in v { }
  }

  lemma LawWhenSmall(sha: Sha, size: nat)
    requires IsSha(sha) && size <= 8
    ensures Law(sha, size)
  {
    forall v, ns, prompts, q | Sized(q, size) && (forall r :: r in prompts ==> Sized(r, size))
      && Indexes(sha, v, ns, prompts) && !Collides(sha, prompts, q)
      ensures IsLongestMatch(sha, v, ns, prompts, q)
    {
      LookupIsLongestPrefixMatch(sha, v, ns, prompts, q, size);
    }
  }

  /** The lookup is a longest-prefix match exactly for block sizes of up to eight tokens. */
  lemma LawExactly(sha: Sha, size: nat)
    requires IsSha(sha) && NoCollision(sha, Inputs(sha, Long(size)))
    ensures Law(sha, size) <==> size <= 8
  {
    if size <= 8 {
      LawWhenSmall(sha, size);
    } else {
      var p, ns := Long(size), Namespace("", "", 0);
      IndexOfIndexes(sha, ns, p);
      var v := IndexOf(sha, ns, p);
      LargeBlocksConfusePositions(sha, size, v, ns);
      assert !IsLongestMatch(sha, v, ns, {p}, Spelled(sha, size));
    }
  }

  /** The law holds at the size that the chain falls back to and the server passes. */
  lemma LawAtDefault(sha: Sha)
    requires IsSha(sha)
    ensures Law(sha, DEFAULT_BLOCK_SIZE)
  {
    LawWhenSmall(sha, DEFAULT_BLOCK_SIZE);
  }

  /** The ninth token of `Spelled` is the 1 of `Long`'s second block. */
  lemma SpelledNinth(sha: Sha, size: nat)
    requires IsSha(sha) && size >= 9 && |Input(sha, Long(size), 1)| == 36
    ensures var q := Spelled(sha, size)[0]; |q| == 9 && q[8] == 1
  {
    var x := Input(sha, Long(size), 1);
    EncodeDecode(x);
    var q := Decode(x);
    EncodeLast(q, 8);
    assert [1][1..] == [] && Encode([1]) == Le4(1) + [];
    assert x[32..36] == Encode([1]);
    Le4Injective(q[8], 1);
  }

  lemma {:induction false} EncodeLast(ts: seq<Token>, k: nat)
    requires k < |ts|
    ensures Encode(ts)[4 * k..4 * k + 4] == Le4(ts[k])
    decreases k
  {
    if k > 0 {
      EncodeLast(ts[1..], k - 1);
      assert Encode(ts)[4..] == Encode(ts[1..]);
      assert Encode(ts)[4 * k..4 * k + 4] == Encode(ts)[4..][4 * k - 4..4 * k];
    }
  }
}
