/**
 Reference causal attention of python/lake/kernels/attn_ref.py over the reals. The exponential is any function with
 positive values and the scale any function of the head size, so the results do not rest on their particular values.
 */
module Attention {
  import opened Base

  type Row = seq<real>
  type Exp = real -> real

  ghost predicate Positive(exp: Exp) { forall x :: exp(x) > 0.0 }

  /** Every row is long enough to be read at `d` places. */
  ghost predicate Wide(rows: seq<Row>, d: nat) { forall i :: 0 <= i < |rows| ==> |rows[i]| >= d }

  // ---------------------------------------------------------------- one row

  function Dot(a: Row, b: Row, d: nat): real
    requires d <= |a| && d <= |b|
  {
    if d == 0 then 0.0 else Dot(a, b, d - 1) + a[d - 1] * b[d - 1]
  }

  function Total(s: seq<real>): real {
    if s == [] then 0.0 else Total(s[..|s| - 1]) + s[|s| - 1]
  }

  /** Number of keys that a query at `pos` may see. */
  function Visible(pos: int, keys: nat): nat {
    if pos < 0 then 0 else if pos + 1 < keys then pos + 1 else keys
  }

  function Score(scale: real, q: Row, key: Row, d: nat): real
    requires d <= |q| && d <= |key|
  {
    Dot(q, key, d) * scale
  }

  /** Scaled scores of the first `n` keys. */
  ghost function Scores(scale: real, q: Row, k: seq<Row>, d: nat, n: nat): (s: seq<real>)
    requires n <= |k| && d <= |q| && Wide(k, d)
    ensures |s| == n
  {
    if n == 0 then [] else Scores(scale, q, k, d, n - 1) + [Score(scale, q, k[n - 1], d)]
  }

  /** The largest element, and 0 for none. */
  function Top(s: seq<real>): (m: real)
    ensures s != [] ==> m in s && forall i :: 0 <= i < |s| ==> s[i] <= m
    ensures s == [] ==> m == 0.0
  {
    if |s| <= 1 then (if s == [] then 0.0 else s[0])
    else
      var m := Top(s[..|s| - 1]);
      if m < s[|s| - 1] then s[|s| - 1] else m
  }

  function Exps(exp: Exp, s: seq<real>, m: real): (e: seq<real>)
    ensures |e| == |s|
  {
    seq(|s|, i requires 0 <= i < |s| => exp(s[i] - m))
  }

  function OrOne(z: real): (r: real)
    ensures r != 0.0
  {
    if z == 0.0 then 1.0 else z
  }

  function Divided(e: seq<real>, z: real): (w: seq<real>)
    requires z != 0.0
    ensures |w| == |e|
  {
    seq(|e|, i requires 0 <= i < |e| => e[i] / z)
  }

  ghost function Weights(exp: Exp, scale: real, q: Row, k: seq<Row>, d: nat, n: nat): (w: seq<real>)
    requires n <= |k| && d <= |q| && Wide(k, d)
    ensures |w| == n
  {
    var s := Scores(scale, q, k, d, n);
    var e := Exps(exp, s, Top(s));
    Divided(e, OrOne(Total(e)))
  }

  /** Column `u` of the weighted sum of the first rows of `v`. */
  function Blend(w: seq<real>, v: seq<Row>, u: nat): real
    requires |w| <= |v| && forall i :: 0 <= i < |w| ==> |v[i]| > u
    decreases |w|
  {
    if w == [] then 0.0 else Blend(w[..|w| - 1], v, u) + w[|w| - 1] * v[|w| - 1][u]
  }

  /** The output for one query. */
  ghost function Attend(exp: Exp, scale: real, q: Row, k: seq<Row>, v: seq<Row>, d: nat, pos: int): (r: Row)
    requires d <= |q| && Wide(k, d) && |k| <= |v| && Wide(v, d)
    ensures |r| == d
  {
    var w := Weights(exp, scale, q, k, d, Visible(pos, |k|));
    seq(d, u requires 0 <= u < d => Blend(w, v, u))
  }

  // ---------------------------------------------------------------- the loops

  lemma {:induction false} ZerosAdd(s: seq<real>, zs: seq<real>)
    requires forall i :: 0 <= i < |zs| ==> zs[i] == 0.0
    ensures Total(s + zs) == Total(s)
    decreases |zs|
  {
    if zs == [] {
      assert s + zs == s;
    } else {
      ZerosAdd(s, zs[..|zs| - 1]);
      assert (s + zs)[..|s + zs| - 1] == s + zs[..|zs| - 1];
    }
  }

  lemma {:induction false} ZerosBlend(w: seq<real>, zs: seq<real>, v: seq<Row>, u: nat)
    requires |w| + |zs| <= |v| && forall i :: 0 <= i < |w| + |zs| ==> |v[i]| > u
    requires forall i :: 0 <= i < |zs| ==> zs[i] == 0.0
    ensures Blend(w + zs, v, u) == Blend(w, v, u)
    decreases |zs|
  {
    if zs == [] {
      assert w + zs == w;
    } else {
      ZerosBlend(w, zs[..|zs| - 1], v, u);
      assert (w + zs)[..|w + zs| - 1] == w + zs[..|zs| - 1];
    }
  }

  function Zeros(n: nat): (z: seq<real>)
    ensures |z| == n && forall i :: 0 <= i < n ==> z[i] == 0.0
  {
    seq(n, _ => 0.0)
  }

  /** The scores of one query, `None` standing for minus infinity. */
  method ScoreKeys(scale: real, qrow: Row, k: seq<Row>, d: nat, pos: int)
    returns (scores: seq<Option<real>>, finite: seq<real>)
    requires d <= |qrow| && Wide(k, d)
    ensures |scores| == |k| && finite == Scores(scale, qrow, k, d, Visible(pos, |k|))
    ensures forall j :: 0 <= j < |k| ==> scores[j] == if j < |finite| then Some(finite[j]) else None
  {
    scores, finite := [], [];
    for j := 0 to |k|
      invariant |scores| == j && finite == Scores(scale, qrow, k, d, Visible(pos, j))
      invariant forall i :: 0 <= i < j ==> scores[i] == if i < |finite| then Some(finite[i]) else None
    {
      if j > pos {
        scores := scores + [None];
      } else {
        var s := 0.0;
        for u := 0 to d
          invariant s == Dot(qrow, k[j], u)
        {
          s := s + qrow[u] * k[j][u];
        }
        assert Visible(pos, j) == j && Visible(pos, j + 1) == j + 1;
        var score := s * scale;
        assert score == Score(scale, qrow, k[j], d);
        assert Scores(scale, qrow, k, d, j + 1) == Scores(scale, qrow, k, d, j) + [score];
        scores, finite := scores + [Some(score)], finite + [score];
      }
    }
  }

  /** The normalised weights of all keys, zero for the masked ones. */
  method Softmax(exp: Exp, scores: seq<Option<real>>, finite: seq<real>) returns (weights: seq<real>)
    requires |finite| <= |scores|
    requires forall j :: 0 <= j < |scores| ==> scores[j] == if j < |finite| then Some(finite[j]) else None
    ensures var e := Exps(exp, finite, Top(finite));
      weights == Divided(e, OrOne(Total(e))) + Zeros(|scores| - |finite|)
  {
    var m := Top(finite);
    var exps: seq<real> := [];
    ghost var e := Exps(exp, finite, m);
    for j := 0 to |scores|
      invariant |exps| == j
      invariant j <= |finite| ==> exps == Exps(exp, finite[..j], m)
      invariant j > |finite| ==> exps == e + Zeros(j - |finite|)
    {
      if j < |finite| {
        assert finite[..j + 1][..j] == finite[..j];
      } else {
        assert finite[..|finite|] == finite;
        assert Zeros(j - |finite|) + [0.0] == Zeros(j + 1 - |finite|);
        assert e + Zeros(0) == e;
      }
      exps := exps + [if scores[j].Some? then exp(scores[j].value - m) else 0.0];
    }
    ghost var zs := Zeros(|scores| - |finite|);
    assert finite[..|finite|] == finite && e + Zeros(0) == e;
    assert exps == e + zs;
    ZerosAdd(e, zs);
    var z := OrOne(Total(exps));
    weights := Divided(exps, z);
    DividedZeros(e, zs, z);
  }

  lemma DividedZeros(e: seq<real>, zs: seq<real>, z: real)
    requires z != 0.0 && forall i :: 0 <= i < |zs| ==> zs[i] == 0.0
    ensures Divided(e + zs, z) == Divided(e, z) + zs
  {
    assert 0.0 / z == 0.0;
  }

  /** The weighted sum of the value rows, accumulated key by key. */
  method Accumulate(weights: seq<real>, v: seq<Row>, d: nat) returns (row: Row)
    requires |weights| <= |v| && Wide(v, d)
    ensures |row| == d && forall u :: 0 <= u < d ==> row[u] == Blend(weights, v, u)
  {
    row := Zeros(d);
    for j := 0 to |weights|
      invariant |row| == d && forall u :: 0 <= u < d ==> row[u] == Blend(weights[..j], v, u)
    {
      var w := weights[j];
      ghost var was := row;
      for u := 0 to d
        invariant |row| == d
        invariant forall i :: 0 <= i < d ==> row[i] == if i < u then was[i] + w * v[j][i] else was[i]
      {
        row := row[u := row[u] + w * v[j][u]];
      }
      assert weights[..j + 1][..j] == weights[..j];
    }
    assert weights[..|weights|] == weights;
  }

  /** `scale` is a function of the head size, taken from the first query, or from the first key without queries. */
  method CausalAttnQueries(exp: Exp, scale: nat -> real, q: seq<Row>, k: seq<Row>, v: seq<Row>, start: int)
    returns (out: seq<Row>)
    requires Fits(q, k, v)
    ensures out == Outputs(exp, scale, q, k, v, start)
  {
    var d := if q != [] then |q[0]| else if k != [] then |k[0]| else 0;
    out := [];
    for qi := 0 to |q|
      invariant q != [] ==> out == Rows(Against(exp, scale(d), k, v, d), q[..qi], start)
      invariant q == [] ==> out == []
    {
      var pos := start + qi;
      var scores, finite := ScoreKeys(scale(d), q[qi], k, d, pos);
      var weights := Softmax(exp, scores, finite);
      var row := Accumulate(weights, v, d);
      RowIsAttend(exp, scale(d), q[qi], k, v, d, pos, weights, row);
      out := out + [row];
      assert q[..qi + 1][..qi] == q[..qi];
    }
    assert q[..|q|] == q;
  }

  lemma RowIsAttend(
    exp: Exp, scale: real, q: Row, k: seq<Row>, v: seq<Row>, d: nat, pos: int, weights: seq<real>, row: Row)
    requires d <= |q| && Wide(k, d) && |k| <= |v| && Wide(v, d) && |row| == d && |weights| == |k|
    requires var n := Visible(pos, |k|); weights == Weights(exp, scale, q, k, d, n) + Zeros(|k| - n)
    requires forall u :: 0 <= u < d ==> row[u] == Blend(weights, v, u)
    ensures row == Attend(exp, scale, q, k, v, d, pos)
  {
    var w, zs := Weights(exp, scale, q, k, d, Visible(pos, |k|)), Zeros(|k| - Visible(pos, |k|));
    forall u | 0 <= u < d ensures row[u] == Blend(w, v, u) {
      ZerosBlend(w, zs, v, u);
    }
  }

  // ---------------------------------------------------------------- whole outputs

  /** What the source needs to index without failing: rectangular inputs and a value row for every key. */
  ghost predicate Fits(q: seq<Row>, k: seq<Row>, v: seq<Row>) {
    && (q != [] ==> Wide(q, |q[0]|) && Wide(k, |q[0]|) && Wide(v, |q[0]|))
    && |k| <= |v|
  }

  /** The output row for a query row at a position. */
  type RowFn = (Row, int) -> Row

  /** Row by row output for queries at positions from `start` on. */
  function Rows(f: RowFn, q: seq<Row>, start: int): (out: seq<Row>)
    ensures |out| == |q|
  {
    if q == [] then [] else Rows(f, q[..|q| - 1], start) + [f(q[|q| - 1], start + |q| - 1)]
  }

  /** Attention against fixed keys and values, defined for rows that are wide enough. */
  ghost function Against(exp: Exp, scale: real, k: seq<Row>, v: seq<Row>, d: nat): RowFn
    requires Wide(k, d) && Wide(v, d) && |k| <= |v|
  {
    (r: Row, pos: int) => if d <= |r| then Attend(exp, scale, r, k, v, d, pos) else []
  }

  ghost function Outputs(exp: Exp, scale: nat -> real, q: seq<Row>, k: seq<Row>, v: seq<Row>, start: int): seq<Row>
    requires Fits(q, k, v)
  {
    if q == [] then [] else Rows(Against(exp, scale(|q[0]|), k, v, |q[0]|), q, start)
  }

  lemma {:induction false} ScoresLocal(scale: real, q: Row, k: seq<Row>, k': seq<Row>, d: nat, n: nat)
    requires n <= |k| && n <= |k'| && d <= |q| && Wide(k, d) && Wide(k', d) && k[..n] == k'[..n]
    ensures Scores(scale, q, k, d, n) == Scores(scale, q, k', d, n)
  {
    if n > 0 {
      assert k[..n - 1] == k[..n][..n - 1] && k'[..n - 1] == k'[..n][..n - 1];
      ScoresLocal(scale, q, k, k', d, n - 1);
      assert k[n - 1] == k[..n][n - 1] == k'[..n][n - 1] == k'[n - 1];
      assert Score(scale, q, k[n - 1], d) == Score(scale, q, k'[n - 1], d);
    }
  }

  lemma {:induction false} BlendLocal(w: seq<real>, v: seq<Row>, v': seq<Row>, u: nat)
    requires |w| <= |v| && |w| <= |v'| && v[..|w|] == v'[..|w|]
    requires forall i :: 0 <= i < |w| ==> |v[i]| > u && |v'[i]| > u
    ensures Blend(w, v, u) == Blend(w, v', u)
    decreases |w|
  {
    if w != [] {
      var n := |w| - 1;
      assert v[..n] == v[..|w|][..n] && v'[..n] == v'[..|w|][..n];
      BlendLocal(w[..n], v, v', u);
      assert v[n] == v[..|w|][n] && v'[n] == v'[..|w|][n];
    }
  }

  /** Causality: a row does not depend on keys and values that its query cannot see. */
  lemma Causal(
    exp: Exp, scale: real, q: Row, k: seq<Row>, v: seq<Row>, k': seq<Row>, v': seq<Row>, d: nat, pos: int)
    requires d <= |q| && Wide(k, d) && |k| <= |v| && Wide(v, d) && Wide(k', d) && |k'| <= |v'| && Wide(v', d)
    requires Visible(pos, |k|) == Visible(pos, |k'|)
    requires var n := Visible(pos, |k|); k[..n] == k'[..n] && v[..n] == v'[..n]
    ensures Attend(exp, scale, q, k, v, d, pos) == Attend(exp, scale, q, k', v', d, pos)
  {
    var n := Visible(pos, |k|);
    ScoresLocal(scale, q, k, k', d, n);
    var w := Weights(exp, scale, q, k, d, n);
    var a, b := Attend(exp, scale, q, k, v, d, pos), Attend(exp, scale, q, k', v', d, pos);
    forall u | 0 <= u < d ensures a[u] == b[u] {
      BlendLocal(w, v, v', u);
    }
  }

  /** The first `hi` rows, or all when there are fewer. */
  function Prefix(rows: seq<Row>, hi: nat): seq<Row> {
    if hi <= |rows| then rows[..hi] else rows
  }

  /** Keys and values past the query's own position can be cut off. */
  lemma Truncated(exp: Exp, scale: real, q: Row, k: seq<Row>, v: seq<Row>, d: nat, pos: nat, hi: nat)
    requires d <= |q| && Wide(k, d) && |k| <= |v| && Wide(v, d) && pos < hi
    ensures Attend(exp, scale, q, Prefix(k, hi), Prefix(v, hi), d, pos) == Attend(exp, scale, q, k, v, d, pos)
  {
    var n := Visible(pos, |k|);
    assert Prefix(k, hi)[..n] == k[..n] && Prefix(v, hi)[..n] == v[..n];
    Causal(exp, scale, q, Prefix(k, hi), Prefix(v, hi), k, v, d, pos);
  }

  // ---------------------------------------------------------------- chunks

  /** The cut points of a split of `n` queries, ending with `n`. */
  ghost predicate IsSplit(cuts: seq<nat>, from: nat, n: nat) {
    if cuts == [] then from == n else from <= cuts[0] <= n && IsSplit(cuts[1..], cuts[0], n)
  }

  /** The rows of the chunks one after the other; a chunk that ends at `hi` is computed by `f(hi)`. */
  ghost function Chunks(f: nat -> RowFn, q: seq<Row>, cuts: seq<nat>, from: nat): seq<Row>
    requires IsSplit(cuts, from, |q|)
    decreases |cuts|
  {
    if cuts == [] then [] else
      Rows(f(cuts[0]), q[from..cuts[0]], from) + Chunks(f, q, cuts[1..], cuts[0])
  }

  lemma {:induction false} RowsAppend(f: RowFn, a: seq<Row>, b: seq<Row>, start: int)
    ensures Rows(f, a + b, start) == Rows(f, a, start) + Rows(f, b, start + |a|)
    decreases |b|
  {
    if b == [] {
      assert a + b == a;
    } else {
      var n := |b| - 1;
      assert (a + b)[..|a| + n] == a + b[..n];
      RowsAppend(f, a, b[..n], start);
    }
  }

  /** Up to position `hi`, the two give the same rows. */
  ghost predicate Agree(f: RowFn, g: RowFn, hi: int) {
    forall r, pos :: 0 <= pos < hi ==> f(r, pos) == g(r, pos)
  }

  lemma {:induction false} RowsAgree(f: RowFn, g: RowFn, q: seq<Row>, start: nat, hi: nat)
    requires Agree(f, g, hi) && start + |q| <= hi
    ensures Rows(f, q, start) == Rows(g, q, start)
    decreases |q|
  {
    if q != [] {
      RowsAgree(f, g, q[..|q| - 1], start, hi);
    }
  }

  lemma OneChunk(f: RowFn, g: RowFn, q: seq<Row>, lo: nat, hi: nat)
    requires Agree(f, g, hi) && lo <= hi <= |q|
    ensures Rows(g, q[..lo], 0) + Rows(f, q[lo..hi], lo) == Rows(g, q[..hi], 0)
  {
    RowsAgree(f, g, q[lo..hi], lo, hi);
    RowsAppend(g, q[..lo], q[lo..hi], 0);
    assert q[..lo] + q[lo..hi] == q[..hi];
  }

  lemma Regroup(a: seq<Row>, b: seq<Row>, c: seq<Row>, ab: seq<Row>)
    requires a + b == ab
    ensures a + (b + c) == ab + c
  { }

  lemma {:induction false} ChunksContinue(f: nat -> RowFn, g: RowFn, q: seq<Row>, cuts: seq<nat>, from: nat)
    requires IsSplit(cuts, from, |q|) && from <= |q|
    requires forall hi: nat :: hi <= |q| ==> Agree(f(hi), g, hi)
    ensures Rows(g, q[..from], 0) + Chunks(f, q, cuts, from) == Rows(g, q, 0)
    decreases |cuts|
  {
    if cuts == [] {
      assert q[..from] == q;
    } else {
      OneChunk(f(cuts[0]), g, q, from, cuts[0]);
      ChunksContinue(f, g, q, cuts[1..], cuts[0]);
      Regroup(Rows(g, q[..from], 0), Rows(f(cuts[0]), q[from..cuts[0]], from), Chunks(f, q, cuts[1..], cuts[0]),
              Rows(g, q[..cuts[0]], 0));
    }
  }

  /** Attention against the keys and values up to `hi` only. */
  ghost function Cut(exp: Exp, scale: real, k: seq<Row>, v: seq<Row>, d: nat, hi: nat): RowFn
    requires Wide(k, d) && Wide(v, d) && |k| <= |v|
  {
    Against(exp, scale, Prefix(k, hi), Prefix(v, hi), d)
  }

  ghost function UpTo(exp: Exp, scale: real, k: seq<Row>, v: seq<Row>, d: nat): nat -> RowFn
    requires Wide(k, d) && Wide(v, d) && |k| <= |v|
  {
    (hi: nat) => Cut(exp, scale, k, v, d, hi)
  }

  lemma PrefixAgrees(exp: Exp, scale: real, k: seq<Row>, v: seq<Row>, d: nat, hi: nat)
    requires Wide(k, d) && Wide(v, d) && |k| <= |v|
    ensures Agree(UpTo(exp, scale, k, v, d)(hi), Against(exp, scale, k, v, d), hi)
  {
    forall r: Row, pos: int | 0 <= pos < hi
      ensures UpTo(exp, scale, k, v, d)(hi)(r, pos) == Against(exp, scale, k, v, d)(r, pos)
    {
      if d <= |r| {
        Truncated(exp, scale, r, k, v, d, pos, hi);
      }
    }
  }

  /** All queries have the width of the first. */
  ghost predicate Even(q: seq<Row>) { forall j :: 0 <= j < |q| ==> |q[j]| == |q[0]| }

  /**
   The outputs of the chunks of a split, one after the other, each computed from its own queries and from the keys and
   values up to its own end.
   */
  ghost function Chunked(
    exp: Exp, scale: nat -> real, q: seq<Row>, k: seq<Row>, v: seq<Row>, cuts: seq<nat>, from: nat): seq<Row>
    requires Fits(q, k, v) && Even(q) && IsSplit(cuts, from, |q|)
    decreases |cuts|
  {
    if cuts == [] then [] else
      ChunkFits(q, k, v, from, cuts[0]);
      Outputs(exp, scale, q[from..cuts[0]], Prefix(k, cuts[0]), Prefix(v, cuts[0]), from)
      + Chunked(exp, scale, q, k, v, cuts[1..], cuts[0])
  }

  lemma ChunkFits(q: seq<Row>, k: seq<Row>, v: seq<Row>, lo: nat, hi: nat)
    requires Fits(q, k, v) && Even(q) && lo <= hi <= |q|
    ensures Fits(q[lo..hi], Prefix(k, hi), Prefix(v, hi))
  {
    if lo < hi {
      assert q[lo..hi][0] == q[lo];
    }
  }

  lemma ChunkIsOutput(exp: Exp, scale: nat -> real, q: seq<Row>, k: seq<Row>, v: seq<Row>, lo: nat, hi: nat)
    requires Fits(q, k, v) && Even(q) && lo <= hi <= |q| && q != []
    ensures Fits(q[lo..hi], Prefix(k, hi), Prefix(v, hi))
    ensures var d := |q[0]|;
      Rows(UpTo(exp, scale(d), k, v, d)(hi), q[lo..hi], lo) ==
      Outputs(exp, scale, q[lo..hi], Prefix(k, hi), Prefix(v, hi), lo)
  {
    ChunkFits(q, k, v, lo, hi);
    if lo < hi {
      assert q[lo..hi][0] == q[lo];
    }
  }

  lemma {:induction false} ChunkedIsChunks(
    exp: Exp, scale: nat -> real, q: seq<Row>, k: seq<Row>, v: seq<Row>, cuts: seq<nat>, from: nat)
    requires Fits(q, k, v) && Even(q) && IsSplit(cuts, from, |q|) && q != []
    ensures var d := |q[0]|;
      Chunked(exp, scale, q, k, v, cuts, from) == Chunks(UpTo(exp, scale(d), k, v, d), q, cuts, from)
    decreases |cuts|
  {
    if cuts != [] {
      ChunkIsOutput(exp, scale, q, k, v, from, cuts[0]);
      ChunkedIsChunks(exp, scale, q, k, v, cuts[1..], cuts[0]);
    }
  }

  lemma {:induction false} NothingChunked(
    exp: Exp, scale: nat -> real, q: seq<Row>, k: seq<Row>, v: seq<Row>, cuts: seq<nat>)
    requires Fits(q, k, v) && q == [] && IsSplit(cuts, 0, 0)
    ensures Chunked(exp, scale, q, k, v, cuts, 0) == []
    decreases |cuts|
  {
    if cuts != [] {
      NothingChunked(exp, scale, q, k, v, cuts[1..]);
    }
  }

  lemma ChunksAreAll(exp: Exp, scale: real, q: seq<Row>, k: seq<Row>, v: seq<Row>, d: nat, cuts: seq<nat>)
    requires Wide(k, d) && Wide(v, d) && |k| <= |v| && IsSplit(cuts, 0, |q|)
    ensures Chunks(UpTo(exp, scale, k, v, d), q, cuts, 0) == Rows(Against(exp, scale, k, v, d), q, 0)
  {
    forall hi: nat | hi <= |q| ensures Agree(UpTo(exp, scale, k, v, d)(hi), Against(exp, scale, k, v, d), hi) {
      PrefixAgrees(exp, scale, k, v, d, hi);
    }
    ChunksContinue(UpTo(exp, scale, k, v, d), Against(exp, scale, k, v, d), q, cuts, 0);
  }

  /** Chunked prefill equals full attention, for every split of the queries. */
  lemma ChunkedPrefill(exp: Exp, scale: nat -> real, q: seq<Row>, k: seq<Row>, v: seq<Row>, cuts: seq<nat>)
    requires Fits(q, k, v) && Even(q) && IsSplit(cuts, 0, |q|)
    ensures Chunked(exp, scale, q, k, v, cuts, 0) == Outputs(exp, scale, q, k, v, 0)
  {
    if q == [] {
      NothingChunked(exp, scale, q, k, v, cuts);
    } else {
      ChunkedIsChunks(exp, scale, q, k, v, cuts, 0);
      ChunksAreAll(exp, scale(|q[0]|), q, k, v, |q[0]|, cuts);
    }
  }

  // ---------------------------------------------------------------- convexity

  lemma {:induction false} ExpsPositive(exp: Exp, s: seq<real>, m: real)
    requires Positive(exp)
    ensures forall i :: 0 <= i < |s| ==> Exps(exp, s, m)[i] > 0.0
    ensures s != [] ==> Total(Exps(exp, s, m)) > 0.0
    ensures Total(Exps(exp, s, m)) >= 0.0
    decreases |s|
  {
    if s != [] {
      var n := |s| - 1;
      ExpsPositive(exp, s[..n], m);
      var e := Exps(exp, s, m);
      assert e[..n] == Exps(exp, s[..n], m);
      assert exp(s[n] - m) > 0.0;
    }
  }

  lemma DivideSum(x: real, y: real, z: real)
    requires z > 0.0
    ensures (x + y) / z == x / z + y / z
  { }

  lemma DividePositive(x: real, z: real)
    requires x > 0.0 && z > 0.0
    ensures x / z > 0.0
  { }

  lemma {:induction false} DividedTotal(e: seq<real>, z: real)
    requires z > 0.0 && forall i :: 0 <= i < |e| ==> e[i] > 0.0
    ensures Total(Divided(e, z)) == Total(e) / z
    ensures forall i :: 0 <= i < |e| ==> Divided(e, z)[i] > 0.0
    decreases |e|
  {
    if e != [] {
      var n := |e| - 1;
      DividedTotal(e[..n], z);
      assert Divided(e, z)[..n] == Divided(e[..n], z);
      DivideSum(Total(e[..n]), e[n], z);
      DividePositive(e[n], z);
    }
  }

  lemma NormalisedToOne(e: seq<real>)
    requires Total(e) > 0.0 && forall i :: 0 <= i < |e| ==> e[i] > 0.0
    ensures Total(Divided(e, OrOne(Total(e)))) == 1.0
    ensures forall i :: 0 <= i < |e| ==> Divided(e, OrOne(Total(e)))[i] > 0.0
  {
    DividedTotal(e, Total(e));
    SelfRatio(Total(e));
  }

  lemma SelfRatio(z: real)
    requires z > 0.0
    ensures z / z == 1.0
  { }

  /** Each row with a visible key is a convex combination of the visible value rows. */
  lemma ConvexCombination(exp: Exp, scale: real, q: Row, k: seq<Row>, v: seq<Row>, d: nat, pos: int)
    requires Positive(exp) && d <= |q| && Wide(k, d) && |k| <= |v| && Wide(v, d) && Visible(pos, |k|) > 0
    ensures var w := Weights(exp, scale, q, k, d, Visible(pos, |k|));
      && (forall j :: 0 <= j < |w| ==> w[j] > 0.0)
      && Total(w) == 1.0
      && forall u :: 0 <= u < d ==> Attend(exp, scale, q, k, v, d, pos)[u] == Blend(w, v, u)
  {
    var s := Scores(scale, q, k, d, Visible(pos, |k|));
    ExpsPositive(exp, s, Top(s));
    NormalisedToOne(Exps(exp, s, Top(s)));
  }

  lemma {:induction false} BlendBetween(w: seq<real>, v: seq<Row>, u: nat, lo: real, hi: real)
    requires |w| <= |v| && forall i :: 0 <= i < |w| ==> |v[i]| > u
    requires forall i :: 0 <= i < |w| ==> w[i] > 0.0 && lo <= v[i][u] <= hi
    ensures lo * Total(w) <= Blend(w, v, u) <= hi * Total(w)
    decreases |w|
  {
    if w != [] {
      var n := |w| - 1;
      BlendBetween(w[..n], v, u, lo, hi);
      OneMoreBetween(Total(w[..n]), Blend(w[..n], v, u), w[n], v[n][u], lo, hi, Total(w), Blend(w, v, u));
    }
  }

  lemma OneMoreBetween(
    total: real, blend: real, w: real, x: real, lo: real, hi: real, more: real, mixed: real)
    requires w > 0.0 && lo <= x <= hi && lo * total <= blend <= hi * total
    requires more == total + w && mixed == blend + w * x
    ensures lo * more <= mixed <= hi * more
  {
    Scaled(w, lo, x);
    Scaled(w, x, hi);
    Distribute(total, w, lo);
    Distribute(total, w, hi);
  }

  lemma Scaled(w: real, a: real, b: real)
    requires w > 0.0 && a <= b
    ensures w * a <= w * b
  { }

  /** No output leaves the range of the visible values in its column. */
  lemma OutputInRange(
    exp: Exp, scale: real, q: Row, k: seq<Row>, v: seq<Row>, d: nat, pos: int, u: nat, lo: real, hi: real)
    requires Positive(exp) && d <= |q| && Wide(k, d) && |k| <= |v| && Wide(v, d) && Visible(pos, |k|) > 0 && u < d
    requires forall j :: 0 <= j < Visible(pos, |k|) ==> lo <= v[j][u] <= hi
    ensures lo <= Attend(exp, scale, q, k, v, d, pos)[u] <= hi
  {
    ConvexCombination(exp, scale, q, k, v, d, pos);
    BlendBetween(Weights(exp, scale, q, k, d, Visible(pos, |k|)), v, u, lo, hi);
  }

  /** A query that sees no key gets a row of zeros. */
  lemma NoKeyNoOutput(exp: Exp, scale: real, q: Row, k: seq<Row>, v: seq<Row>, d: nat, pos: int)
    requires d <= |q| && Wide(k, d) && |k| <= |v| && Wide(v, d) && Visible(pos, |k|) == 0
    ensures Attend(exp, scale, q, k, v, d, pos) == Zeros(d)
  { }

  // ---------------------------------------------------------------- shifting by the maximum

  predicate SumLaw(exp: Exp, x: real, y: real) { exp(x + y) == exp(x) * exp(y) }

  ghost predicate Exponential(exp: Exp) { Positive(exp) && forall x, y :: SumLaw(exp, x, y) }

  lemma ShiftedExps(exp: Exp, s: seq<real>, m: real)
    requires Exponential(exp)
    ensures forall i :: 0 <= i < |s| ==> Exps(exp, s, 0.0)[i] == Exps(exp, s, m)[i] * exp(m)
  {
    forall i | 0 <= i < |s| ensures Exps(exp, s, 0.0)[i] == Exps(exp, s, m)[i] * exp(m) {
      assert SumLaw(exp, s[i] - m, m);
      assert (s[i] - m) + m == s[i] - 0.0;
    }
  }

  lemma {:induction false} ProportionalTotals(b: seq<real>, e: seq<real>, f: real)
    requires |b| == |e| && forall i :: 0 <= i < |b| ==> e[i] == b[i] * f
    ensures Total(e) == Total(b) * f
    decreases |b|
  {
    if b != [] {
      var n := |b| - 1;
      ProportionalTotals(b[..n], e[..n], f);
      Distribute(Total(b[..n]), b[n], f);
    }
  }

  lemma Distribute(x: real, y: real, f: real)
    ensures (x + y) * f == x * f + y * f
  { }

  lemma CancelFactor(a: real, z: real, f: real)
    requires z > 0.0 && f > 0.0
    ensures (a * f) / (z * f) == a / z
  {
    var x := a / z;
    assert a == x * z;
    assert a * f == x * (z * f);
  }

  lemma ProportionalWeights(b: seq<real>, e: seq<real>, y: real, z: real, f: real)
    requires |b| == |e| && f > 0.0 && y > 0.0 && z > 0.0 && z == y * f
    requires forall i :: 0 <= i < |b| ==> e[i] == b[i] * f
    ensures Divided(b, y) == Divided(e, z)
  {
    forall i | 0 <= i < |b| ensures b[i] / y == e[i] / z {
      CancelFactor(b[i], y, f);
    }
  }

  lemma ProductPositive(x: real, y: real)
    requires x > 0.0 && y > 0.0
    ensures x * y > 0.0
  { }

  lemma ProportionalSoftmax(b: seq<real>, e: seq<real>, f: real)
    requires |b| == |e| && f > 0.0 && Total(b) > 0.0
    requires forall i :: 0 <= i < |b| ==> e[i] == b[i] * f
    ensures Total(e) > 0.0 && Divided(b, Total(b)) == Divided(e, Total(e))
  {
    ProportionalTotals(b, e, f);
    ProductPositive(Total(b), f);
    ProportionalWeights(b, e, Total(b), Total(e), f);
  }

  lemma ShiftedSoftmax(exp: Exp, s: seq<real>, m: real)
    requires Exponential(exp) && s != []
    ensures Total(Exps(exp, s, m)) > 0.0 && Total(Exps(exp, s, 0.0)) > 0.0
    ensures Divided(Exps(exp, s, m), Total(Exps(exp, s, m))) == Divided(Exps(exp, s, 0.0), Total(Exps(exp, s, 0.0)))
  {
    ExpsPositive(exp, s, m);
    ShiftedExps(exp, s, m);
    ProportionalSoftmax(Exps(exp, s, m), Exps(exp, s, 0.0), exp(m));
  }

  /** Subtracting the largest score changes nothing: the weights are those of the unshifted softmax. */
  lemma ShiftInvariant(exp: Exp, scale: real, q: Row, k: seq<Row>, d: nat, n: nat)
    requires Exponential(exp) && 0 < n <= |k| && d <= |q| && Wide(k, d)
    ensures var e := Exps(exp, Scores(scale, q, k, d, n), 0.0);
      Total(e) > 0.0 && Weights(exp, scale, q, k, d, n) == Divided(e, Total(e))
  {
    var s := Scores(scale, q, k, d, n);
    ShiftedSoftmax(exp, s, Top(s));
  }

  // ---------------------------------------------------------------- the textbook formula

  /** The products of the coordinates from `i` on, added up. */
  function Inner(q: Row, key: Row, i: nat, d: nat): real
    requires i <= d <= |q| && d <= |key|
    decreases d - i
  {
    if i == d then 0.0 else q[i] * key[i] + Inner(q, key, i + 1, d)
  }

  function Logit(scale: real, q: Row, key: Row, d: nat): real
    requires d <= |q| && d <= |key|
  {
    scale * Inner(q, key, 0, d)
  }

  /** The unnormalised weight of a key: the exponential of the scaled inner product. */
  function Affinity(exp: Exp, scale: real, q: Row, key: Row, d: nat): real
    requires d <= |q| && d <= |key|
  {
    exp(Logit(scale, q, key, d))
  }

  /** The weights of the keys from `j` up to `n`, added up. */
  ghost function Mass(exp: Exp, scale: real, q: Row, k: seq<Row>, d: nat, j: nat, n: nat): real
    requires j <= n <= |k| && d <= |q| && Wide(k, d)
    decreases n - j
  {
    if j == n then 0.0 else Affinity(exp, scale, q, k[j], d) + Mass(exp, scale, q, k, d, j + 1, n)
  }

  /** A key's share of the whole weight. */
  function Share(exp: Exp, scale: real, q: Row, key: Row, d: nat, mass: real): real
    requires d <= |q| && d <= |key| && mass != 0.0
  {
    Affinity(exp, scale, q, key, d) / mass
  }

  /** Column `u` of the value rows from `j` up to `n`, each with its key's share, added up. */
  ghost function Mean(
    exp: Exp, scale: real, q: Row, k: seq<Row>, v: seq<Row>, d: nat, mass: real, u: nat, j: nat, n: nat): real
    requires j <= n <= |k| <= |v| && u < d <= |q| && Wide(k, d) && Wide(v, d) && mass != 0.0
    decreases n - j
  {
    if j == n then 0.0 else
      Share(exp, scale, q, k[j], d, mass) * v[j][u] + Mean(exp, scale, q, k, v, d, mass, u, j + 1, n)
  }

  lemma {:induction false} InnerIsDot(q: Row, key: Row, i: nat, d: nat)
    requires i <= d <= |q| && d <= |key|
    ensures Dot(q, key, i) + Inner(q, key, i, d) == Dot(q, key, d)
    decreases d - i
  {
    if i < d {
      InnerIsDot(q, key, i + 1, d);
    }
  }

  lemma {:induction false} ScoreAt(scale: real, q: Row, k: seq<Row>, d: nat, n: nat, j: nat)
    requires j < n <= |k| && d <= |q| && Wide(k, d)
    ensures Scores(scale, q, k, d, n)[j] == Logit(scale, q, k[j], d)
  {
    if j == n - 1 {
      InnerIsDot(q, k[j], 0, d);
    } else {
      ScoreAt(scale, q, k, d, n - 1, j);
    }
  }

  ghost predicate AreAffinities(e: seq<real>, exp: Exp, scale: real, q: Row, k: seq<Row>, d: nat)
    requires |e| <= |k| && d <= |q| && Wide(k, d)
  {
    forall i :: 0 <= i < |e| ==> e[i] == Affinity(exp, scale, q, k[i], d)
  }

  lemma {:induction false} TotalFrom(e: seq<real>, j: nat, exp: Exp, scale: real, q: Row, k: seq<Row>, d: nat)
    requires j <= |e| <= |k| && d <= |q| && Wide(k, d)
    requires AreAffinities(e, exp, scale, q, k, d)
    ensures Total(e[..j]) + Mass(exp, scale, q, k, d, j, |e|) == Total(e)
    decreases |e| - j
  {
    if j == |e| {
      assert e[..j] == e;
    } else {
      TotalFrom(e, j + 1, exp, scale, q, k, d);
      assert e[..j + 1][..j] == e[..j];
    }
  }

  ghost predicate AreShares(w: seq<real>, exp: Exp, scale: real, q: Row, k: seq<Row>, d: nat, mass: real)
    requires |w| <= |k| && d <= |q| && Wide(k, d) && mass != 0.0
  {
    forall i :: 0 <= i < |w| ==> w[i] == Share(exp, scale, q, k[i], d, mass)
  }

  lemma {:induction false} BlendFrom(
    w: seq<real>, j: nat, exp: Exp, scale: real, q: Row, k: seq<Row>, v: seq<Row>, d: nat, mass: real, u: nat)
    requires j <= |w| <= |k| <= |v| && u < d <= |q| && Wide(k, d) && Wide(v, d) && mass != 0.0
    requires AreShares(w, exp, scale, q, k, d, mass)
    ensures Blend(w[..j], v, u) + Mean(exp, scale, q, k, v, d, mass, u, j, |w|) == Blend(w, v, u)
    decreases |w| - j
  {
    if j == |w| {
      assert w[..j] == w;
    } else {
      BlendFrom(w, j + 1, exp, scale, q, k, v, d, mass, u);
      assert w[..j + 1][..j] == w[..j];
    }
  }

  lemma {:induction false} RowsAt(f: RowFn, q: seq<Row>, start: int, i: nat)
    requires i < |q|
    ensures Rows(f, q, start)[i] == f(q[i], start + i)
    decreases |q|
  {
    if i < |q| - 1 {
      RowsAt(f, q[..|q| - 1], start, i);
    }
  }

  lemma ExpAt(exp: Exp, s: seq<real>, i: nat)
    requires i < |s|
    ensures Exps(exp, s, 0.0)[i] == exp(s[i])
  {
    assert s[i] - 0.0 == s[i];
  }

  /** Without the shift by the largest score. */
  lemma UnshiftedAffinities(exp: Exp, scale: real, q: Row, k: seq<Row>, d: nat, n: nat)
    requires n <= |k| && d <= |q| && Wide(k, d)
    ensures AreAffinities(Exps(exp, Scores(scale, q, k, d, n), 0.0), exp, scale, q, k, d)
  {
    var s := Scores(scale, q, k, d, n);
    forall i | 0 <= i < n ensures Exps(exp, s, 0.0)[i] == Affinity(exp, scale, q, k[i], d) {
      ScoreAt(scale, q, k, d, n, i);
      ExpAt(exp, s, i);
    }
  }

  /** The weights are the shares, and together they are the whole. */
  lemma WeightsAreShares(exp: Exp, scale: real, q: Row, k: seq<Row>, d: nat, n: nat)
    requires Exponential(exp) && d <= |q| && Wide(k, d) && 0 < n <= |k|
    ensures Mass(exp, scale, q, k, d, 0, n) > 0.0
    ensures AreShares(Weights(exp, scale, q, k, d, n), exp, scale, q, k, d, Mass(exp, scale, q, k, d, 0, n))
  {
    var e := Exps(exp, Scores(scale, q, k, d, n), 0.0);
    ShiftInvariant(exp, scale, q, k, d, n);
    UnshiftedAffinities(exp, scale, q, k, d, n);
    TotalFrom(e, 0, exp, scale, q, k, d);
  }

  lemma AttendAt(exp: Exp, scale: real, q: Row, k: seq<Row>, v: seq<Row>, d: nat, pos: int, n: nat, u: nat)
    requires u < d <= |q| && Wide(k, d) && |k| <= |v| && Wide(v, d) && n <= |k|
    requires n == (if pos < 0 then 0 else if pos + 1 < |k| then pos + 1 else |k|)
    ensures Attend(exp, scale, q, k, v, d, pos)[u] == Blend(Weights(exp, scale, q, k, d, n), v, u)
  { }

  lemma BlendIsMean(exp: Exp, scale: real, q: Row, k: seq<Row>, v: seq<Row>, d: nat, n: nat, u: nat)
    requires Exponential(exp) && u < d <= |q| && Wide(k, d) && 0 < n <= |k| <= |v| && Wide(v, d)
    ensures var mass := Mass(exp, scale, q, k, d, 0, n);
      && mass > 0.0
      && Blend(Weights(exp, scale, q, k, d, n), v, u) == Mean(exp, scale, q, k, v, d, mass, u, 0, n)
  {
    WeightsAreShares(exp, scale, q, k, d, n);
    BlendFrom(Weights(exp, scale, q, k, d, n), 0, exp, scale, q, k, v, d, Mass(exp, scale, q, k, d, 0, n), u);
  }

  lemma OutputAt(exp: Exp, scale: nat -> real, q: seq<Row>, k: seq<Row>, v: seq<Row>, start: int, i: nat)
    requires Fits(q, k, v) && i < |q|
    ensures |Outputs(exp, scale, q, k, v, start)| == |q|
    ensures Outputs(exp, scale, q, k, v, start)[i] == Attend(exp, scale(|q[0]|), q[i], k, v, |q[0]|, start + i)
  {
    RowsAt(Against(exp, scale(|q[0]|), k, v, |q[0]|), q, start, i);
  }

  /**
   The output is softmax attention: row `i`, at position `start` + `i`, is the mean of the value rows up to and
   including that position, weighted with the exponentials of the scaled inner products of query and keys; it is zero
   where there is no such row.
   */
  lemma SoftmaxAttention(
    exp: Exp, scale: nat -> real, q: seq<Row>, k: seq<Row>, v: seq<Row>, start: int, i: nat, n: nat, u: nat)
    requires Exponential(exp) && Fits(q, k, v) && i < |q| && u < |q[0]|
    requires n == (if start + i < 0 then 0 else if start + i + 1 < |k| then start + i + 1 else |k|)
    ensures |Outputs(exp, scale, q, k, v, start)| == |q| && |Outputs(exp, scale, q, k, v, start)[i]| == |q[0]|
    ensures var d, x := |q[0]|, Outputs(exp, scale, q, k, v, start)[i][u];
      if n == 0 then x == 0.0
      else
        var mass := Mass(exp, scale(d), q[i], k, d, 0, n);
        mass > 0.0 && x == Mean(exp, scale(d), q[i], k, v, d, mass, u, 0, n)
  {
    var d := |q[0]|;
    OutputAt(exp, scale, q, k, v, start, i);
    AttendAt(exp, scale(d), q[i], k, v, d, start + i, n, u);
    if n > 0 {
      BlendIsMean(exp, scale(d), q[i], k, v, d, n, u);
    }
  }
}
