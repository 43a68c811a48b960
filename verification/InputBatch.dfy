/**
 Ragged batch preparation: `ModelRunner.prepare_inputs` (python/lake/engine/model_runner.py) builds one row per
 scheduled request, and `InputBuffers.materialize` (python/lake/engine/input_batch.py) lays the rows out in fixed-size
 buffers with a prefix-sum index.
 */
module InputBatch {
  // ---------------------------------------------------------------- prepare_inputs

  datatype Req = Req(prompt: seq<int>, all: seq<int>, computed: int)

  /** The scheduler's output; `scheduled` lists the entries of its dictionary in order. */
  datatype Plan = Plan(
    scheduled: seq<(string, int)>, computedAt: map<string, int>, queryStart: map<string, int>,
    queryEnd: map<string, int>, drafts: map<string, seq<int>>)

  /** One request's entries in the batch dictionaries. */
  datatype Row = Row(
    id: string, scheduled: int, computed: int, tokens: seq<int>, start: int, end: int, promptPhase: bool)

  /** The slice `s[:e]` of the source language, where a negative bound counts from the end. */
  function Take(s: seq<int>, e: int): seq<int> {
    if e >= |s| then s else if e >= 0 then s[..e] else if |s| + e >= 0 then s[..|s| + e] else []
  }

  function Get(m: map<string, int>, id: string, otherwise: int): int {
    if id in m then m[id] else otherwise
  }

  function Min(a: int, b: int): int { if a < b then a else b }

  function Max(a: int, b: int): int { if a < b then b else a }

  /** `s` extended to length `n` with its last element, or with 0 when it has none. */
  function Padded(s: seq<int>, n: int): seq<int> {
    if |s| < n then s + seq(n - |s|, _ => if s == [] then 0 else s[|s| - 1]) else s
  }

  /** The context a request's forward pass can see before padding: the context and at most n - 1 draft tokens. */
  function Context(p: Plan, req: Req, id: string, n: int): seq<int> {
    req.all + if id in p.drafts then Take(p.drafts[id], Max(0, n - 1)) else []
  }

  function RowOf(p: Plan, req: Req, id: string, n: int): Row {
    var computed := Get(p.computedAt, id, req.computed);
    if computed < |req.prompt| then
      var end := Min(|req.prompt|, Get(p.queryEnd, id, computed + n));
      Row(id, n, computed, Take(req.prompt, end), Get(p.queryStart, id, computed), end, true)
    else
      var start := Get(p.queryStart, id, Max(0, |req.all| - 1));
      var end := Get(p.queryEnd, id, Max(start, start + n));
      Row(id, n, computed, Take(Padded(Context(p, req, id, n), end), end), start, end, false)
  }

  function Runs(reqs: map<string, Req>, item: (string, int)): bool { item.1 > 0 && item.0 in reqs }

  /** The batch: one row for each scheduled request that is known and has work, in the scheduler's order. */
  function Prepared(p: Plan, reqs: map<string, Req>, n: nat): seq<Row>
    requires n <= |p.scheduled|
  {
    if n == 0 then []
    else
      var (id, count) := p.scheduled[n - 1];
      Prepared(p, reqs, n - 1) + if Runs(reqs, (id, count)) then [RowOf(p, reqs[id], id, count)] else []
  }

  method PadTo(s: seq<int>, n: int) returns (tokens: seq<int>)
    ensures tokens == Padded(s, n)
  {
    tokens := s;
    if |tokens| < n {
      var pad := if tokens == [] then 0 else tokens[|tokens| - 1];
      tokens := tokens + seq(n - |tokens|, _ => pad);
    }
  }

  method PrepareRow(p: Plan, req: Req, id: string, n: int) returns (row: Row)
    ensures row == RowOf(p, req, id, n)
  {
    var computed := if id in p.computedAt then p.computedAt[id] else req.computed;
    if computed < |req.prompt| {
      var start := if id in p.queryStart then p.queryStart[id] else computed;
      var end := Min(|req.prompt|, if id in p.queryEnd then p.queryEnd[id] else computed + n);
      return Row(id, n, computed, Take(req.prompt, end), start, end, true);
    }
    var draft := if id in p.drafts then Take(p.drafts[id], Max(0, n - 1)) else [];
    var start := if id in p.queryStart then p.queryStart[id] else Max(0, |req.all| - 1);
    var end := if id in p.queryEnd then p.queryEnd[id] else Max(start, start + n);
    var tokens := PadTo(req.all + draft, end);
    return Row(id, n, computed, Take(tokens, end), start, end, false);
  }

  method PrepareInputs(p: Plan, reqs: map<string, Req>) returns (batch: seq<Row>)
    ensures batch == Prepared(p, reqs, |p.scheduled|)
  {
    batch := [];
    for i := 0 to |p.scheduled|
      invariant batch == Prepared(p, reqs, i)
    {
      var (id, n) := p.scheduled[i];
      if n <= 0 || id !in reqs {
        continue;
      }
      var row := PrepareRow(p, reqs[id], id, n);
      batch := batch + [row];
    }
  }

  /** The end of the query is not negative, as the scheduler's output and the request say before the call. */
  predicate EndFits(p: Plan, req: Req, id: string, n: int) {
    if id in p.queryEnd then p.queryEnd[id] >= 0
    else if Get(p.computedAt, id, req.computed) < |req.prompt| then Get(p.computedAt, id, req.computed) + n >= 0
    else id in p.queryStart ==> p.queryStart[id] + n >= 0
  }

  predicate StartFits(p: Plan, req: Req, id: string) {
    if id in p.queryStart then p.queryStart[id] >= 0
    else Get(p.computedAt, id, req.computed) < |req.prompt| ==> Get(p.computedAt, id, req.computed) >= 0
  }

  /** A row has a token for every position before its query end exactly when the inputs put that end at 0 or later. */
  lemma RowLength(p: Plan, req: Req, id: string, n: int)
    requires n > 0
    ensures |RowOf(p, req, id, n).tokens| == RowOf(p, req, id, n).end <==> EndFits(p, req, id, n)
    ensures RowOf(p, req, id, n).start >= 0 <==> StartFits(p, req, id)
    ensures RowOf(p, req, id, n).end >= 0 <==> EndFits(p, req, id, n)
  { }

  /** An end before the start of the prompt cuts tokens off its tail: the list is longer than the end. */
  lemma NegativeEndMisses(id: string, first: int, second: int)
    ensures var p := Plan([(id, 1)], map[], map[], map[id := -1], map[]);
      var r := RowOf(p, Req([first, second], [first, second], 0), id, 1);
      r.end == -1 && r.tokens == [first]
  { }

  /** A row as the scheduler means it: tokens for every position up to the end. */
  predicate Shaped(r: Row) { 0 <= r.start && |r.tokens| == r.end }

  /** No position or count in the scheduler's output or the requests is negative. */
  ghost predicate NonNegative(p: Plan, reqs: map<string, Req>) {
    && (forall id :: id in reqs ==> reqs[id].computed >= 0)
    && (forall id :: id in p.computedAt ==> p.computedAt[id] >= 0)
    && (forall id :: id in p.queryStart ==> p.queryStart[id] >= 0)
    && (forall id :: id in p.queryEnd ==> p.queryEnd[id] >= 0)
  }

  /** Every prepared row is shaped. */
  lemma {:induction false} PreparedIsShaped(p: Plan, reqs: map<string, Req>, n: nat)
    requires n <= |p.scheduled| && NonNegative(p, reqs)
    ensures forall i :: 0 <= i < |Prepared(p, reqs, n)| ==> Shaped(Prepared(p, reqs, n)[i])
  {
    if n > 0 {
      PreparedIsShaped(p, reqs, n - 1);
      var (id, count) := p.scheduled[n - 1];
      if Runs(reqs, (id, count)) {
        RowLength(p, reqs[id], id, count);
      }
    }
  }

  /** The phase and the query of a row: the scheduler's numbers where it gives them, and the defaults otherwise. */
  lemma RowQuery(p: Plan, req: Req, id: string, n: int)
    requires n > 0
    ensures var r := RowOf(p, req, id, n);
      var computed := if id in p.computedAt then p.computedAt[id] else req.computed;
      && r.id == id && r.scheduled == n && r.computed == computed
      && (r.promptPhase <==> computed < |req.prompt|)
      && (id in p.queryStart ==> r.start == p.queryStart[id])
      && (id !in p.queryStart ==>
            r.start == if computed < |req.prompt| then computed else if req.all == [] then 0 else |req.all| - 1)
      && (computed >= |req.prompt| ==> r.end == if id in p.queryEnd then p.queryEnd[id] else r.start + n)
      && (computed < |req.prompt| ==> r.end <= |req.prompt|)
      && (computed < |req.prompt| && r.end < |req.prompt| ==>
            r.end == if id in p.queryEnd then p.queryEnd[id] else computed + n)
      && (computed < |req.prompt| && r.end == |req.prompt| ==>
            |req.prompt| <= if id in p.queryEnd then p.queryEnd[id] else computed + n)
  { }

  /**
   Which token stands at each position of a row: of the prompt in the prompt phase; afterwards of the request's own
   tokens, then of the draft up to one token short of what is scheduled, then the last of these repeated.
   */
  lemma RowTokens(p: Plan, req: Req, id: string, n: int, i: nat)
    requires n > 0 && i < RowOf(p, req, id, n).end
    ensures |RowOf(p, req, id, n).tokens| == RowOf(p, req, id, n).end
    ensures var r := RowOf(p, req, id, n);
      var draft := if id in p.drafts then p.drafts[id] else [];
      var all, used := |req.all|, if |draft| < n - 1 then |draft| else n - 1;
      && (r.promptPhase ==> i < |req.prompt| && r.tokens[i] == req.prompt[i])
      && (!r.promptPhase && i < all ==> r.tokens[i] == req.all[i])
      && (!r.promptPhase && all <= i < all + used ==> r.tokens[i] == draft[i - all])
      && (!r.promptPhase && i >= all + used ==>
            r.tokens[i] == if used > 0 then draft[used - 1] else if all > 0 then req.all[all - 1] else 0)
  {
    RowLength(p, req, id, n);
  }

  // ---------------------------------------------------------------- the layout

  type Slots = map<string, seq<int>>

  function QueryLength(r: Row): nat { Max(0, r.end - r.start) }

  /** A slice bound of the source language, counted from the end when negative and kept inside the list. */
  function Bound(x: int, n: nat): nat { if x < 0 then Max(0, n + x) else Min(x, n) }

  /** The tokens that this step feeds for one request: the slice of its list from start to end. */
  function Fed(r: Row): seq<int> {
    var lo, hi := Bound(r.start, |r.tokens|), Bound(r.end, |r.tokens|);
    if lo < hi then r.tokens[lo..hi] else []
  }

  /** The slice is as long as the query says. */
  predicate Whole(r: Row) { |Fed(r)| == QueryLength(r) }

  lemma ShapedIsWhole(r: Row)
    requires Shaped(r)
    ensures Whole(r) && Fed(r) == if r.start <= r.end then r.tokens[r.start..r.end] else []
  { }

  function Positions(r: Row): (s: seq<int>)
    ensures |s| == |Fed(r)|
  {
    seq(|Fed(r)|, j => r.start + j)
  }

  predicate SlotsFit(slots: Slots, r: Row) { r.id in slots ==> |slots[r.id]| == QueryLength(r) }

  /** The slots given for a row's tokens, or their positions when none are given. */
  function SlotRow(slots: Slots, r: Row): (s: seq<int>)
    ensures |s| == |Fed(r)|
  {
    if r.id in slots && |slots[r.id]| >= |Fed(r)| then slots[r.id][..|Fed(r)|] else Positions(r)
  }

  /** Prefix sums: where row `n` begins. */
  function StartOf(rows: seq<Row>, n: nat): nat
    requires n <= |rows|
  {
    if n == 0 then 0 else StartOf(rows, n - 1) + QueryLength(rows[n - 1])
  }

  function Fill<T>(x: T, n: nat): seq<T> {
    seq(n, _ => x)
  }

  /** The first `n` parts end to end. */
  function Flat<T>(parts: seq<seq<T>>, n: nat): seq<T>
    requires n <= |parts|
  {
    if n == 0 then [] else Flat(parts, n - 1) + parts[n - 1]
  }

  ghost predicate AllWhole(rows: seq<Row>) { forall i :: 0 <= i < |rows| ==> Whole(rows[i]) }

  ghost predicate AllFit(slots: Slots, rows: seq<Row>) { forall i :: 0 <= i < |rows| ==> SlotsFit(slots, rows[i]) }

  /** One part for each row, as long as the row's query. */
  ghost predicate Lines<T>(rows: seq<Row>, parts: seq<seq<T>>) {
    |parts| == |rows| && forall i :: 0 <= i < |rows| ==> |parts[i]| == QueryLength(rows[i])
  }

  ghost function TokenLines(rows: seq<Row>): seq<seq<int>> {
    seq(|rows|, i requires 0 <= i < |rows| => Fed(rows[i]))
  }

  ghost function PositionLines(rows: seq<Row>): seq<seq<int>> {
    seq(|rows|, i requires 0 <= i < |rows| => Positions(rows[i]))
  }

  ghost function SlotLines(slots: Slots, rows: seq<Row>): seq<seq<int>> {
    seq(|rows|, i requires 0 <= i < |rows| => SlotRow(slots, rows[i]))
  }

  ghost function FlagLines(rows: seq<Row>): seq<seq<bool>> {
    seq(|rows|, i requires 0 <= i < |rows| => Fill(false, |Fed(rows[i])|))
  }

  lemma AreLines(slots: Slots, rows: seq<Row>)
    requires AllWhole(rows)
    ensures Lines(rows, TokenLines(rows)) && Lines(rows, PositionLines(rows))
    ensures Lines(rows, SlotLines(slots, rows)) && Lines(rows, FlagLines(rows))
  { }

  lemma {:induction false} FlatLength<T>(rows: seq<Row>, parts: seq<seq<T>>, n: nat)
    requires Lines(rows, parts) && n <= |rows|
    ensures |Flat(parts, n)| == StartOf(rows, n)
  {
    if n > 0 {
      FlatLength(rows, parts, n - 1);
    }
  }

  /** Read-back: each part is found again between its own prefix sum and the next one. */
  lemma {:induction false} ReadBack<T>(rows: seq<Row>, parts: seq<seq<T>>, n: nat, r: nat)
    requires Lines(rows, parts) && r < n <= |rows|
    ensures StartOf(rows, r) <= StartOf(rows, r + 1) <= |Flat(parts, n)|
    ensures Flat(parts, n)[StartOf(rows, r)..StartOf(rows, r + 1)] == parts[r]
    decreases n
  {
    FlatLength(rows, parts, n - 1);
    if r < n - 1 {
      ReadBack(rows, parts, n - 1, r);
    }
  }
}
