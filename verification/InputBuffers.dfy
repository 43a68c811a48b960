/**
 `InputBuffers` of python/lake/engine/input_batch.py: fixed-size arrays overwritten in place at every step, proved to
 hold the layout of module `InputBatch` whatever they held before.
 */
module InputBuffers {
  import opened Base
  import opened InputBatch

  /** `BadIndex` is a slice that does not match its query and runs out of a buffer or of its slots. */
  datatype Outcome =
    | Done | TooManyReqs | TooManyTokens(row: nat) | SlotMismatch(row: nat) | BadIndex(row: nat)

  /** The row's slice runs past the buffers or past its slots. */
  predicate Overruns(maxTokens: nat, slots: Slots, start: nat, r: Row) {
    start + |Fed(r)| > maxTokens || (r.id in slots && |Fed(r)| > |slots[r.id]|)
  }

  function RowVerdict(maxTokens: nat, slots: Slots, rows: seq<Row>, i: nat): Outcome
    requires i < |rows|
  {
    if StartOf(rows, i) + QueryLength(rows[i]) > maxTokens then TooManyTokens(i)
    else if !SlotsFit(slots, rows[i]) then SlotMismatch(i)
    else if Overruns(maxTokens, slots, StartOf(rows, i), rows[i]) then BadIndex(i)
    else Done
  }

  /** The first row that does not fit, if any. */
  function FirstBad(maxTokens: nat, slots: Slots, rows: seq<Row>, i: nat): Outcome
    requires i <= |rows|
    decreases |rows| - i
  {
    if i == |rows| then Done
    else
      var verdict := RowVerdict(maxTokens, slots, rows, i);
      if verdict.Done? then FirstBad(maxTokens, slots, rows, i + 1) else verdict
  }

  function Verdict(maxReqs: nat, maxTokens: nat, slots: Slots, rows: seq<Row>): Outcome {
    if |rows| > maxReqs then TooManyReqs else FirstBad(maxTokens, slots, rows, 0)
  }

  ghost predicate NoOverrun(maxTokens: nat, slots: Slots, rows: seq<Row>) {
    forall j :: 0 <= j < |rows| ==> !Overruns(maxTokens, slots, StartOf(rows, j), rows[j])
  }

  ghost predicate AllDone(maxTokens: nat, slots: Slots, rows: seq<Row>, i: nat) {
    forall j :: i <= j < |rows| ==> RowVerdict(maxTokens, slots, rows, j).Done?
  }

  lemma {:induction false} FirstBadMeans(maxTokens: nat, slots: Slots, rows: seq<Row>, i: nat)
    requires i <= |rows|
    ensures FirstBad(maxTokens, slots, rows, i).Done? <==> AllDone(maxTokens, slots, rows, i)
    decreases |rows| - i
  {
    if i < |rows| {
      FirstBadMeans(maxTokens, slots, rows, i + 1);
      AllDoneFrom(maxTokens, slots, rows, i);
    }
  }

  lemma AllDoneFrom(maxTokens: nat, slots: Slots, rows: seq<Row>, i: nat)
    requires i < |rows|
    ensures AllDone(maxTokens, slots, rows, i) <==>
      RowVerdict(maxTokens, slots, rows, i).Done? && AllDone(maxTokens, slots, rows, i + 1)
  { }

  lemma AllDoneMeans(maxTokens: nat, slots: Slots, rows: seq<Row>)
    ensures AllDone(maxTokens, slots, rows, 0) <==>
      StartOf(rows, |rows|) <= maxTokens && AllFit(slots, rows) && NoOverrun(maxTokens, slots, rows)
  {
    if AllDone(maxTokens, slots, rows, 0) && rows != [] {
      assert RowVerdict(maxTokens, slots, rows, |rows| - 1).Done?;
    }
    assert forall j :: 0 <= j < |rows| && RowVerdict(maxTokens, slots, rows, j).Done? ==>
      SlotsFit(slots, rows[j]) && !Overruns(maxTokens, slots, StartOf(rows, j), rows[j]);
    forall j | 0 <= j < |rows| ensures StartOf(rows, j) + QueryLength(rows[j]) <= StartOf(rows, |rows|) {
      EndsWithin(rows, j);
    }
  }

  lemma {:induction false} StartsGrow(rows: seq<Row>, a: nat, b: nat)
    requires a <= b <= |rows|
    ensures StartOf(rows, a) <= StartOf(rows, b)
    decreases b
  {
    if a < b {
      StartsGrow(rows, a, b - 1);
    }
  }

  /** A batch is accepted exactly when it fits: rows, tokens in all, slots, and slices inside the buffers. */
  lemma AcceptedExactly(maxReqs: nat, maxTokens: nat, slots: Slots, rows: seq<Row>)
    ensures Verdict(maxReqs, maxTokens, slots, rows).Done? <==>
      && |rows| <= maxReqs && StartOf(rows, |rows|) <= maxTokens && AllFit(slots, rows)
      && NoOverrun(maxTokens, slots, rows)
  {
    FirstBadMeans(maxTokens, slots, rows, 0);
    AllDoneMeans(maxTokens, slots, rows);
  }

  /** Row `i` fits: its tokens, the length of its slots if they are given, and its slice. */
  predicate RowFitsAt(maxTokens: nat, slots: Slots, rows: seq<Row>, i: nat)
    requires i < |rows|
  {
    var r, start := rows[i], StartOf(rows, i);
    && start + QueryLength(r) <= maxTokens
    && (r.id in slots ==> |slots[r.id]| == QueryLength(r) >= |Fed(r)|)
    && start + |Fed(r)| <= maxTokens
  }

  lemma RowFitsIsDone(maxTokens: nat, slots: Slots, rows: seq<Row>, i: nat)
    requires i < |rows|
    ensures RowFitsAt(maxTokens, slots, rows, i) <==> RowVerdict(maxTokens, slots, rows, i).Done?
  { }

  function Verdicts(maxTokens: nat, slots: Slots, rows: seq<Row>): seq<Outcome> {
    seq(|rows|, i requires 0 <= i < |rows| => RowVerdict(maxTokens, slots, rows, i))
  }

  /** The first of the verdicts from `i` on that is not `Done`. */
  function FirstOf(verdicts: seq<Outcome>, i: nat): Outcome
    requires i <= |verdicts|
    decreases |verdicts| - i
  {
    if i == |verdicts| then Done else if verdicts[i].Done? then FirstOf(verdicts, i + 1) else verdicts[i]
  }

  lemma {:induction false} FirstBadIsFirst(maxTokens: nat, slots: Slots, rows: seq<Row>, i: nat)
    requires i <= |rows|
    ensures FirstBad(maxTokens, slots, rows, i) == FirstOf(Verdicts(maxTokens, slots, rows), i)
    decreases |rows| - i
  {
    if i < |rows| {
      FirstBadIsFirst(maxTokens, slots, rows, i + 1);
    }
  }

  lemma {:induction false} FirstOfIs(verdicts: seq<Outcome>, from: nat, i: nat)
    requires from <= i < |verdicts| && !verdicts[i].Done? && forall k :: from <= k < i ==> verdicts[k].Done?
    ensures FirstOf(verdicts, from) == verdicts[i]
    decreases i - from
  {
    if from < i {
      FirstOfIs(verdicts, from + 1, i);
    }
  }

  lemma EarlierAreDone(maxTokens: nat, slots: Slots, rows: seq<Row>, i: nat)
    requires i < |rows| && forall k :: 0 <= k < i ==> RowFitsAt(maxTokens, slots, rows, k)
    ensures forall k :: 0 <= k < i ==> Verdicts(maxTokens, slots, rows)[k].Done?
  {
    forall k | 0 <= k < i ensures Verdicts(maxTokens, slots, rows)[k].Done? {
      RowFitsIsDone(maxTokens, slots, rows, k);
    }
  }

  lemma FirstBadAt(maxTokens: nat, slots: Slots, rows: seq<Row>, i: nat)
    requires i < |rows| && !RowFitsAt(maxTokens, slots, rows, i)
    requires forall k :: 0 <= k < i ==> RowFitsAt(maxTokens, slots, rows, k)
    ensures FirstBad(maxTokens, slots, rows, 0) == RowVerdict(maxTokens, slots, rows, i)
    ensures !RowVerdict(maxTokens, slots, rows, i).Done?
  {
    EarlierAreDone(maxTokens, slots, rows, i);
    RowFitsIsDone(maxTokens, slots, rows, i);
    FirstVerdict(maxTokens, slots, rows, i, Verdicts(maxTokens, slots, rows));
  }

  lemma FirstVerdict(maxTokens: nat, slots: Slots, rows: seq<Row>, i: nat, verdicts: seq<Outcome>)
    requires verdicts == Verdicts(maxTokens, slots, rows) && i < |verdicts| && !verdicts[i].Done?
    requires forall k :: 0 <= k < i ==> verdicts[k].Done?
    ensures FirstBad(maxTokens, slots, rows, 0) == verdicts[i]
  {
    FirstBadIsFirst(maxTokens, slots, rows, 0);
    FirstOfIs(verdicts, 0, i);
  }

  /** Which refusal a batch gets: that of its first row that does not fit, for tokens before slots before the slice. */
  lemma RefusedExactly(maxReqs: nat, maxTokens: nat, slots: Slots, rows: seq<Row>, i: nat)
    requires i < |rows| && !RowFitsAt(maxTokens, slots, rows, i)
    requires forall k :: 0 <= k < i ==> RowFitsAt(maxTokens, slots, rows, k)
    ensures var r := rows[i]; var length := if r.end > r.start then r.end - r.start else 0;
      Verdict(maxReqs, maxTokens, slots, rows) ==
        if |rows| > maxReqs then TooManyReqs
        else if StartOf(rows, i) + length > maxTokens then TooManyTokens(i)
        else if r.id in slots && |slots[r.id]| != length then SlotMismatch(i)
        else BadIndex(i)
  {
    FirstBadAt(maxTokens, slots, rows, i);
  }

  /** With whole rows the last condition is never the one that fails. */
  lemma WholeNeverOverruns(maxTokens: nat, slots: Slots, rows: seq<Row>)
    requires AllWhole(rows) && AllFit(slots, rows) && StartOf(rows, |rows|) <= maxTokens
    ensures NoOverrun(maxTokens, slots, rows)
  {
    forall j | 0 <= j < |rows| ensures !Overruns(maxTokens, slots, StartOf(rows, j), rows[j]) {
      RowFits(maxTokens, slots, rows, j);
    }
  }

  lemma RowFits(maxTokens: nat, slots: Slots, rows: seq<Row>, j: nat)
    requires j < |rows| && Whole(rows[j]) && SlotsFit(slots, rows[j]) && StartOf(rows, |rows|) <= maxTokens
    ensures !Overruns(maxTokens, slots, StartOf(rows, j), rows[j])
  {
    EndsWithin(rows, j);
    WholeFits(maxTokens, slots, StartOf(rows, j), rows[j]);
  }

  lemma EndsWithin(rows: seq<Row>, j: nat)
    requires j < |rows|
    ensures StartOf(rows, j) + QueryLength(rows[j]) <= StartOf(rows, |rows|)
  {
    StartsGrow(rows, j + 1, |rows|);
  }

  lemma WholeFits(maxTokens: nat, slots: Slots, start: nat, r: Row)
    requires Whole(r) && SlotsFit(slots, r) && start + QueryLength(r) <= maxTokens
    ensures !Overruns(maxTokens, slots, start, r)
  { }

  /** `s` with `part` written over it from `at` on. */
  function Spliced<T>(s: seq<T>, at: nat, part: seq<T>): seq<T>
    requires at + |part| <= |s|
  {
    s[..at] + part + s[at + |part|..]
  }

  lemma SpliceFill<T>(head: seq<T>, part: seq<T>, x: T, room: nat)
    requires |part| <= room
    ensures Spliced(head + Fill(x, room), |head|, part) == head + part + Fill(x, room - |part|)
  { }

  /** What the four per-token buffers hold. */
  datatype PerToken = PerToken(ids: seq<int>, positions: seq<int>, slots: seq<int>, padding: seq<bool>)

  predicate Sized(t: PerToken, n: nat) { |t.ids| == |t.positions| == |t.slots| == |t.padding| == n }

  /** `s` with `part` written over it from `at` on, if there is room. */
  function WrittenAt<T>(s: seq<T>, at: nat, part: seq<T>): (r: seq<T>)
    ensures |r| == |s|
  {
    if at + |part| <= |s| then Spliced(s, at, part) else s
  }

  /** A row's cells written over the buffers. */
  function Overwritten(t: PerToken, at: nat, row: PerToken): (r: PerToken)
    ensures Sized(t, |t.ids|) ==> Sized(r, |t.ids|)
  {
    PerToken(WrittenAt(t.ids, at, row.ids), WrittenAt(t.positions, at, row.positions),
             WrittenAt(t.slots, at, row.slots), WrittenAt(t.padding, at, row.padding))
  }

  function Line(slots: Slots, r: Row): PerToken {
    PerToken(Fed(r), Positions(r), SlotRow(slots, r), Fill(false, |Fed(r)|))
  }

  function Cleared(maxTokens: nat): PerToken {
    PerToken(Fill(0, maxTokens), Fill(0, maxTokens), Fill(-1, maxTokens), Fill(true, maxTokens))
  }

  /** The first `n` rows end to end and filler behind them. */
  ghost function Layout(slots: Slots, rows: seq<Row>, n: nat, maxTokens: nat): PerToken
    requires n <= |rows| && StartOf(rows, n) <= maxTokens
  {
    var used, left := StartOf(rows, n), maxTokens - StartOf(rows, n);
    PerToken(
      Flat(TokenLines(rows), n) + Fill(0, left),
      Flat(PositionLines(rows), n) + Fill(0, left),
      Flat(SlotLines(slots, rows), n) + Fill(-1, left),
      Fill(false, used) + Fill(true, left))
  }

  /** One buffer: the first `n` parts, each written where its row's prefix sum says, where there is room. */
  ghost function Written<T>(blank: seq<T>, rows: seq<Row>, parts: seq<seq<T>>, n: nat): (s: seq<T>)
    requires n <= |rows| == |parts|
    ensures |s| == |blank|
  {
    if n == 0 then blank else WrittenAt(Written(blank, rows, parts, n - 1), StartOf(rows, n - 1), parts[n - 1])
  }

  lemma WrittenNext<T>(blank: seq<T>, rows: seq<Row>, parts: seq<seq<T>>, n: nat, part: seq<T>)
    requires n < |rows| == |parts| && part == parts[n]
    ensures Written(blank, rows, parts, n + 1) == WrittenAt(Written(blank, rows, parts, n), StartOf(rows, n), part)
  { }

  /** The first `n` rows, each written where its prefix sum says, over cleared buffers. */
  ghost function Folded(slots: Slots, rows: seq<Row>, n: nat, maxTokens: nat): (t: PerToken)
    requires n <= |rows|
    ensures Sized(t, maxTokens)
  {
    PerToken(
      Written(Fill(0, maxTokens), rows, TokenLines(rows), n),
      Written(Fill(0, maxTokens), rows, PositionLines(rows), n),
      Written(Fill(-1, maxTokens), rows, SlotLines(slots, rows), n),
      Written(Fill(true, maxTokens), rows, FlagLines(rows), n))
  }

  /** Writing one more row writes its line over all four buffers. */
  lemma FoldedNext(slots: Slots, rows: seq<Row>, n: nat, maxTokens: nat)
    requires n < |rows|
    ensures Folded(slots, rows, n + 1, maxTokens) ==
      Overwritten(Folded(slots, rows, n, maxTokens), StartOf(rows, n), Line(slots, rows[n]))
  {
    WrittenNext(Fill(0, maxTokens), rows, TokenLines(rows), n, Fed(rows[n]));
    WrittenNext(Fill(0, maxTokens), rows, PositionLines(rows), n, Positions(rows[n]));
    WrittenNext(Fill(-1, maxTokens), rows, SlotLines(slots, rows), n, SlotRow(slots, rows[n]));
    WrittenNext(Fill(true, maxTokens), rows, FlagLines(rows), n, Fill(false, |Fed(rows[n])|));
  }

  /** The next line, written where the first `n` lines end. */
  lemma LineAppend<T>(rows: seq<Row>, parts: seq<seq<T>>, n: nat, x: T, maxTokens: nat)
    requires Lines(rows, parts) && n < |rows| && StartOf(rows, n + 1) <= maxTokens
    ensures var s := Flat(parts, n) + Fill(x, maxTokens - StartOf(rows, n));
      && |s| == maxTokens
      && Spliced(s, StartOf(rows, n), parts[n]) == Flat(parts, n + 1) + Fill(x, maxTokens - StartOf(rows, n + 1))
  {
    FlatLength(rows, parts, n);
    SpliceFill(Flat(parts, n), parts[n], x, maxTokens - StartOf(rows, n));
  }

  /** One buffer of whole rows: writing the lines one after the other gives their concatenation. */
  lemma {:induction false} WrittenIsFlat<T>(rows: seq<Row>, parts: seq<seq<T>>, n: nat, x: T, maxTokens: nat)
    requires Lines(rows, parts) && n <= |rows| && StartOf(rows, n) <= maxTokens
    ensures Written(Fill(x, maxTokens), rows, parts, n) == Flat(parts, n) + Fill(x, maxTokens - StartOf(rows, n))
  {
    if n > 0 {
      WrittenIsFlat(rows, parts, n - 1, x, maxTokens);
      LineAppend(rows, parts, n - 1, x, maxTokens);
    }
  }

  predicate AllAre(s: seq<bool>, x: bool) { forall j :: 0 <= j < |s| ==> s[j] == x }

  lemma {:induction false} FlatAllAre(parts: seq<seq<bool>>, x: bool, n: nat)
    requires n <= |parts| && forall i :: 0 <= i < |parts| ==> AllAre(parts[i], x)
    ensures AllAre(Flat(parts, n), x)
  {
    if n > 0 {
      FlatAllAre(parts, x, n - 1);
    }
  }

  lemma AllAreFill(s: seq<bool>, x: bool, n: nat)
    requires AllAre(s, x) && |s| == n
    ensures s == Fill(x, n)
  { }

  lemma FlagsFlat(rows: seq<Row>, n: nat)
    requires Lines(rows, FlagLines(rows)) && n <= |rows|
    ensures Flat(FlagLines(rows), n) == Fill(false, StartOf(rows, n))
  {
    FlatAllAre(FlagLines(rows), false, n);
    FlatLength(rows, FlagLines(rows), n);
    AllAreFill(Flat(FlagLines(rows), n), false, StartOf(rows, n));
  }

  lemma IdsLaid(slots: Slots, rows: seq<Row>, n: nat, maxTokens: nat)
    requires n <= |rows| && AllWhole(rows) && StartOf(rows, n) <= maxTokens
    ensures Folded(slots, rows, n, maxTokens).ids == Layout(slots, rows, n, maxTokens).ids
  {
    AreLines(slots, rows);
    WrittenIsFlat(rows, TokenLines(rows), n, 0, maxTokens);
  }

  lemma PositionsLaid(slots: Slots, rows: seq<Row>, n: nat, maxTokens: nat)
    requires n <= |rows| && AllWhole(rows) && StartOf(rows, n) <= maxTokens
    ensures Folded(slots, rows, n, maxTokens).positions == Layout(slots, rows, n, maxTokens).positions
  {
    AreLines(slots, rows);
    WrittenIsFlat(rows, PositionLines(rows), n, 0, maxTokens);
  }

  lemma SlotsLaid(slots: Slots, rows: seq<Row>, n: nat, maxTokens: nat)
    requires n <= |rows| && AllWhole(rows) && StartOf(rows, n) <= maxTokens
    ensures Folded(slots, rows, n, maxTokens).slots == Layout(slots, rows, n, maxTokens).slots
  {
    AreLines(slots, rows);
    WrittenIsFlat(rows, SlotLines(slots, rows), n, -1, maxTokens);
  }

  lemma FlagsLaid(slots: Slots, rows: seq<Row>, n: nat, maxTokens: nat)
    requires n <= |rows| && AllWhole(rows) && StartOf(rows, n) <= maxTokens
    ensures Folded(slots, rows, n, maxTokens).padding == Layout(slots, rows, n, maxTokens).padding
  {
    AreLines(slots, rows);
    WrittenIsFlat(rows, FlagLines(rows), n, true, maxTokens);
    FlagsFlat(rows, n);
  }

  /** Whole rows end to end: writing them one after the other gives their concatenation, in each of the buffers. */
  lemma FoldedIsLayout(slots: Slots, rows: seq<Row>, n: nat, maxTokens: nat)
    requires n <= |rows| && AllWhole(rows) && StartOf(rows, n) <= maxTokens
    ensures Folded(slots, rows, n, maxTokens) == Layout(slots, rows, n, maxTokens)
  {
    IdsLaid(slots, rows, n, maxTokens);
    PositionsLaid(slots, rows, n, maxTokens);
    SlotsLaid(slots, rows, n, maxTokens);
    FlagsLaid(slots, rows, n, maxTokens);
  }

  lemma IsSpliced<T>(before: seq<T>, after: seq<T>, at: nat, part: seq<T>)
    requires |before| == |after| && at + |part| <= |before|
    requires forall i :: 0 <= i < |before| ==>
      after[i] == if at <= i < at + |part| then part[i - at] else before[i]
    ensures after == Spliced(before, at, part)
  { }

  /** The same contents before place `n`. */
  predicate AgreeBefore(t: PerToken, u: PerToken, n: nat) {
    && n <= |t.ids| && Sized(t, |t.ids|) && Sized(u, |t.ids|)
    && forall i :: 0 <= i < n ==>
         && t.ids[i] == u.ids[i] && t.positions[i] == u.positions[i]
         && t.slots[i] == u.slots[i] && t.padding[i] == u.padding[i]
  }

  /** The prefix-sum index: a start for every row, then the number of tokens. */
  ghost function Index(rows: seq<Row>, maxReqs: nat): seq<int> {
    seq(maxReqs + 1, i requires 0 <= i => StartOf(rows, if i < |rows| then i else |rows|))
  }

  /** The starts of the first `n` rows, then zeros. */
  ghost function Starts(rows: seq<Row>, n: nat, maxReqs: nat): seq<int>
    requires n <= |rows|
  {
    seq(maxReqs + 1, i requires 0 <= i => if i < n then StartOf(rows, i) else 0)
  }

  lemma IndexIs(before: seq<int>, after: seq<int>, rows: seq<Row>, maxReqs: nat, end: nat)
    requires before == Starts(rows, |rows|, maxReqs) && |after| == maxReqs + 1 && end == StartOf(rows, |rows|)
    requires |rows| <= maxReqs && forall j :: 0 <= j < |rows| ==> after[j] == before[j]
    requires forall j :: |rows| <= j < |after| ==> after[j] == end
    ensures after == Index(rows, maxReqs)
  {
    var index := Index(rows, maxReqs);
    forall j | 0 <= j < |after| ensures after[j] == index[j] { }
  }

  /** The visible lengths of the first `n` rows, then zeros. */
  ghost function Ends(rows: seq<Row>, n: nat, maxReqs: nat): seq<int>
    requires n <= |rows|
  {
    seq(maxReqs, i requires 0 <= i => if i < n then rows[i].end else 0)
  }

  function Ids(rows: seq<Row>): seq<string> {
    seq(|rows|, i requires 0 <= i < |rows| => rows[i].id)
  }

  class InputBuffers {
    const maxReqs: nat
    const maxTokens: nat
    const inputIds: array<int>
    const positions: array<int>
    const slotMapping: array<int>
    const isPadding: array<bool>
    const queryStartLoc: array<int>
    const seqLens: array<int>
    var reqIds: seq<string>
    var numReqs: nat
    var numTokens: nat

    ghost predicate Valid() {
      && inputIds.Length == positions.Length == slotMapping.Length == isPadding.Length == maxTokens
      && queryStartLoc.Length == maxReqs + 1 && seqLens.Length == maxReqs
      && inputIds != positions && inputIds != slotMapping && inputIds != queryStartLoc && inputIds != seqLens
      && positions != slotMapping && positions != queryStartLoc && positions != seqLens
      && slotMapping != queryStartLoc && slotMapping != seqLens && queryStartLoc != seqLens
    }

    ghost function Held(): PerToken
      reads inputIds, positions, slotMapping, isPadding
    {
      PerToken(inputIds[..], positions[..], slotMapping[..], isPadding[..])
    }

    constructor (maxReqs: nat, maxTokens: nat)
      requires maxReqs > 0 && maxTokens > 0
      ensures Valid() && this.maxReqs == maxReqs && this.maxTokens == maxTokens
      ensures Held() == Cleared(maxTokens) && numReqs == 0 && numTokens == 0
      ensures queryStartLoc[..] == Fill(0, maxReqs + 1) && seqLens[..] == Fill(0, maxReqs)
    {
      this.maxReqs, this.maxTokens := maxReqs, maxTokens;
      inputIds := new int[maxTokens](_ => 0);
      positions := new int[maxTokens](_ => 0);
      slotMapping := new int[maxTokens](_ => -1);
      isPadding := new bool[maxTokens](_ => true);
      queryStartLoc := new int[maxReqs + 1](_ => 0);
      seqLens := new int[maxReqs](_ => 0);
      reqIds, numReqs, numTokens := [], 0, 0;
      new;
      assert inputIds[..] == Fill(0, maxTokens) && positions[..] == Fill(0, maxTokens);
      assert slotMapping[..] == Fill(-1, maxTokens) && isPadding[..] == Fill(true, maxTokens);
    }

    method Clear()
      requires Valid()
      modifies this, inputIds, positions, slotMapping, isPadding, queryStartLoc, seqLens
      ensures reqIds == [] && numReqs == 0 && numTokens == 0
      ensures Held() == Cleared(maxTokens)
      ensures queryStartLoc[..] == Fill(0, maxReqs + 1) && seqLens[..] == Fill(0, maxReqs)
    {
      reqIds, numReqs, numTokens := [], 0, 0;
      for i := 0 to maxReqs + 1
        invariant forall j :: 0 <= j < i ==> queryStartLoc[j] == 0
        invariant reqIds == [] && numReqs == 0 && numTokens == 0
      {
        queryStartLoc[i] := 0;
      }
      for i := 0 to maxReqs
        invariant forall j :: 0 <= j < maxReqs + 1 ==> queryStartLoc[j] == 0
        invariant forall j :: 0 <= j < i ==> seqLens[j] == 0
        invariant reqIds == [] && numReqs == 0 && numTokens == 0
      {
        seqLens[i] := 0;
      }
      for i := 0 to maxTokens
        invariant forall j :: 0 <= j < maxReqs + 1 ==> queryStartLoc[j] == 0
        invariant forall j :: 0 <= j < maxReqs ==> seqLens[j] == 0
        invariant forall j :: 0 <= j < i ==>
          inputIds[j] == 0 && positions[j] == 0 && isPadding[j] && slotMapping[j] == -1
        invariant reqIds == [] && numReqs == 0 && numTokens == 0
      {
        inputIds[i] := 0;
        positions[i] := 0;
        isPadding[i] := true;
        slotMapping[i] := -1;
      }
    }

    /** One row's cells, written from `cursor` on, as far as the buffers and the slots reach. */
    method WriteCells(cursor: nat, tokens: seq<int>, start: int, slots: Option<seq<int>>) returns (ok: bool)
      requires Valid()
      modifies inputIds, positions, slotMapping, isPadding
      ensures ok <==> tokens == [] || (cursor + |tokens| <= maxTokens && (slots.Some? ==> |tokens| <= |slots.value|))
      ensures ok ==> forall i :: 0 <= i < maxTokens ==>
        inputIds[i] == if cursor <= i < cursor + |tokens| then tokens[i - cursor] else old(inputIds[i])
      ensures ok ==> forall i :: 0 <= i < maxTokens ==>
        positions[i] == if cursor <= i < cursor + |tokens| then start + i - cursor else old(positions[i])
      ensures ok ==> forall i :: 0 <= i < maxTokens ==>
        slotMapping[i] ==
          if cursor <= i < cursor + |tokens| then (if slots.Some? then slots.value[i - cursor] else start + i - cursor)
          else old(slotMapping[i])
      ensures ok ==> forall i :: 0 <= i < maxTokens ==>
        isPadding[i] == (!(cursor <= i < cursor + |tokens|) && old(isPadding[i]))
      ensures !ok ==> forall i :: 0 <= i < cursor && i < maxTokens ==>
        && inputIds[i] == old(inputIds[i]) && positions[i] == old(positions[i])
        && slotMapping[i] == old(slotMapping[i]) && isPadding[i] == old(isPadding[i])
    {
      for j := 0 to |tokens|
        invariant j > 0 ==> cursor + j <= maxTokens && (slots.Some? ==> j <= |slots.value|)
        invariant forall i :: 0 <= i < maxTokens ==>
          inputIds[i] == if cursor <= i < cursor + j then tokens[i - cursor] else old(inputIds[i])
        invariant forall i :: 0 <= i < maxTokens ==>
          positions[i] == if cursor <= i < cursor + j then start + i - cursor else old(positions[i])
        invariant forall i :: 0 <= i < maxTokens ==>
          slotMapping[i] ==
            if cursor <= i < cursor + j then (if slots.Some? then slots.value[i - cursor] else start + i - cursor)
            else old(slotMapping[i])
        invariant forall i :: 0 <= i < maxTokens ==>
          isPadding[i] == (!(cursor <= i < cursor + j) && old(isPadding[i]))
      {
        var idx := cursor + j;
        if idx >= maxTokens {
          return false;
        }
        inputIds[idx] := tokens[j];
        positions[idx] := start + j;
        isPadding[idx] := false;
        if slots.Some? && j >= |slots.value| {
          return false;
        }
        slotMapping[idx] := if slots.Some? then slots.value[j] else start + j;
      }
      return true;
    }

    /** One row's tokens, positions and slots, written from `cursor` on; an overrun spoils nothing before `cursor`. */
    method WriteRow(cursor: nat, r: Row, slots: Slots) returns (ok: bool)
      requires Valid() && cursor <= maxTokens
      modifies inputIds, positions, slotMapping, isPadding
      ensures ok <==> !Overruns(maxTokens, slots, cursor, r)
      ensures ok ==> Held() == Overwritten(old(Held()), cursor, Line(slots, r))
      ensures !ok ==> AgreeBefore(Held(), old(Held()), cursor)
    {
      var tokens := Fed(r);
      ok := WriteCells(cursor, tokens, r.start, if r.id in slots then Some(slots[r.id]) else None);
      if ok {
        IsSpliced(old(inputIds[..]), inputIds[..], cursor, Fed(r));
        IsSpliced(old(positions[..]), positions[..], cursor, Positions(r));
        IsSpliced(old(slotMapping[..]), slotMapping[..], cursor, SlotRow(slots, r));
        IsSpliced(old(isPadding[..]), isPadding[..], cursor, Fill(false, |tokens|));
      }
    }

    method NoteRow(rows: seq<Row>, n: nat, cursor: nat)
      requires Valid() && n < |rows| <= maxReqs && cursor == StartOf(rows, n) && Noted(rows, n)
      modifies queryStartLoc, seqLens
      ensures Noted(rows, n + 1)
    {
      queryStartLoc[n] := cursor;
      seqLens[n] := rows[n].end;
      assert queryStartLoc[..] == Starts(rows, n, maxReqs)[n := cursor];
      assert seqLens[..] == Ends(rows, n, maxReqs)[n := rows[n].end];
    }

    /** The first `n` rows are in place in all buffers. */
    ghost predicate Laid(slots: Slots, rows: seq<Row>, n: nat)
      requires Valid() && |rows| <= maxReqs
      reads inputIds, positions, slotMapping, isPadding
    {
      n <= |rows| && StartOf(rows, n) <= maxTokens && Held() == Folded(slots, rows, n, maxTokens)
    }

    /** The first `n` rows are in place, and the places after them may be spoiled. */
    ghost predicate LaidBefore(slots: Slots, rows: seq<Row>, n: nat)
      requires Valid() && |rows| <= maxReqs
      reads inputIds, positions, slotMapping, isPadding
    {
      n <= |rows| && AgreeBefore(Held(), Folded(slots, rows, n, maxTokens), StartOf(rows, n))
    }

    /** The index and the lengths of the first `n` rows are in place. */
    ghost predicate Noted(rows: seq<Row>, n: nat)
      requires Valid() && |rows| <= maxReqs
      reads queryStartLoc, seqLens
    {
      n <= |rows| && queryStartLoc[..] == Starts(rows, n, maxReqs) && seqLens[..] == Ends(rows, n, maxReqs)
    }

    /** Where the row loop stands: `out` is `Done` while all rows so far fit. */
    ghost predicate Progress(slots: Slots, rows: seq<Row>, row: nat, cursor: nat, out: Outcome)
      requires Valid() && |rows| <= maxReqs
      reads inputIds, positions, slotMapping, isPadding, queryStartLoc, seqLens
    {
      && row <= |rows|
      && match out
         case Done =>
           && Laid(slots, rows, row) && Noted(rows, row) && cursor == StartOf(rows, row)
           && FirstBad(maxTokens, slots, rows, 0) == FirstBad(maxTokens, slots, rows, row)
         case TooManyReqs => false
         case BadIndex(at) =>
           at == row < |rows| && LaidBefore(slots, rows, row) && out == FirstBad(maxTokens, slots, rows, 0)
         case _ => out.row == row < |rows| && Laid(slots, rows, row) && out == FirstBad(maxTokens, slots, rows, 0)
    }

    /** Puts one row in its place; `Done` when it fits. */
    method PlaceRow(rows: seq<Row>, slots: Slots, n: nat, cursor: nat) returns (out: Outcome)
      requires Valid() && n < |rows| <= maxReqs && Progress(slots, rows, n, cursor, Done)
      modifies inputIds, positions, slotMapping, isPadding, queryStartLoc, seqLens
      ensures out.Done? ==> Progress(slots, rows, n + 1, cursor + QueryLength(rows[n]), out)
      ensures !out.Done? ==> Progress(slots, rows, n, cursor, out)
    {
      var r := rows[n];
      if cursor + QueryLength(r) > maxTokens {
        return TooManyTokens(n);
      }
      FoldedNext(slots, rows, n, maxTokens);
      NoteRow(rows, n, cursor);
      if r.id in slots && |slots[r.id]| != QueryLength(r) {
        return SlotMismatch(n);
      }
      var ok := WriteRow(cursor, r, slots);
      return if ok then Done else BadIndex(n);
    }

    /** One round of the row loop: on to the next row and its start, or no further. */
    method TryRow(rows: seq<Row>, slots: Slots, n: nat, cursor: nat) returns (out: Outcome, row: nat, next: nat)
      requires Valid() && n < |rows| <= maxReqs && Progress(slots, rows, n, cursor, Done)
      modifies inputIds, positions, slotMapping, isPadding, queryStartLoc, seqLens
      ensures row == if out.Done? then n + 1 else n
      ensures Progress(slots, rows, row, next, out)
    {
      out := PlaceRow(rows, slots, n, cursor);
      if out.Done? {
        return out, n + 1, cursor + QueryLength(rows[n]);
      }
      return out, n, cursor;
    }

    /** The row loop: it stops at the first row that does not fit. */
    method FillRows(rows: seq<Row>, slots: Slots) returns (out: Outcome, row: nat, cursor: nat)
      requires Valid() && |rows| <= maxReqs && Progress(slots, rows, 0, 0, Done)
      modifies inputIds, positions, slotMapping, isPadding, queryStartLoc, seqLens
      ensures Progress(slots, rows, row, cursor, out) && (out.Done? ==> row == |rows|)
    {
      out, row, cursor := Done, 0, 0;
      while row < |rows| && out.Done?
        invariant row <= |rows| && Progress(slots, rows, row, cursor, out)
        decreases out.Done?, |rows| - row
      {
        out, row, cursor := TryRow(rows, slots, row, cursor);
      }
    }

    /** Lays out a batch. The final contents are a function of the batch and the slots alone. */
    method Materialize(rows: seq<Row>, slots: Slots) returns (out: Outcome)
      requires Valid()
      modifies this, inputIds, positions, slotMapping, isPadding, queryStartLoc, seqLens
      ensures out == Verdict(maxReqs, maxTokens, slots, rows)
      ensures out.TooManyReqs? ==>
        && Held() == old(Held()) && queryStartLoc[..] == old(queryStartLoc[..]) && seqLens[..] == old(seqLens[..])
        && reqIds == old(reqIds) && numReqs == old(numReqs) && numTokens == old(numTokens)
      ensures out.Done? ==>
        && numReqs == |rows| <= maxReqs && numTokens == StartOf(rows, |rows|) <= maxTokens && reqIds == Ids(rows)
        && Held() == Folded(slots, rows, |rows|, maxTokens)
        && queryStartLoc[..] == Index(rows, maxReqs) && seqLens[..] == Ends(rows, |rows|, maxReqs)
        && (forall i :: 0 <= i < |rows| ==> reqIds[i] == rows[i].id && seqLens[i] == rows[i].end)
      ensures out.TooManyTokens? || out.SlotMismatch? ==>
        out.row < |rows| && numTokens == 0 && Held() == Folded(slots, rows, out.row, maxTokens)
      ensures out.BadIndex? ==>
        && out.row < |rows| && numTokens == 0
        && AgreeBefore(Held(), Folded(slots, rows, out.row, maxTokens), StartOf(rows, out.row))
    {
      if |rows| > maxReqs {
        return TooManyReqs;
      }
      Clear();
      reqIds, numReqs := Ids(rows), |rows|;
      var row, cursor;
      out, row, cursor := FillRows(rows, slots);
      if out.Done? {
        numTokens := cursor;
        CloseIndex(rows, cursor);
      }
    }

    /** The rest of the index repeats the number of tokens. */
    method CloseIndex(rows: seq<Row>, cursor: nat)
      requires Valid() && |rows| <= maxReqs && cursor == StartOf(rows, |rows|)
      requires queryStartLoc[..] == Starts(rows, |rows|, maxReqs)
      modifies queryStartLoc
      ensures queryStartLoc[..] == Index(rows, maxReqs)
    {
      queryStartLoc[|rows|] := cursor;
      for i := |rows| + 1 to maxReqs + 1
        invariant forall j :: 0 <= j < |rows| ==> queryStartLoc[j] == old(queryStartLoc[j])
        invariant forall j :: |rows| <= j < i ==> queryStartLoc[j] == cursor
      {
        queryStartLoc[i] := cursor;
      }
      IndexIs(old(queryStartLoc[..]), queryStartLoc[..], rows, maxReqs, cursor);
    }
  }

  /** A line is found again in a buffer that starts with all lines. */
  lemma LineReadBack(rows: seq<Row>, parts: seq<seq<int>>, r: nat, filler: seq<int>)
    requires Lines(rows, parts) && r < |rows|
    ensures StartOf(rows, r) <= StartOf(rows, r + 1) <= StartOf(rows, |rows|) == |Flat(parts, |rows|)|
    ensures (Flat(parts, |rows|) + filler)[StartOf(rows, r)..StartOf(rows, r + 1)] == parts[r]
  {
    FlatLength(rows, parts, |rows|);
    ReadBack(rows, parts, |rows|, r);
    var head, from, to := Flat(parts, |rows|), StartOf(rows, r), StartOf(rows, r + 1);
    assert (head + filler)[from..to] == head[from..to];
  }

  /** The row's tokens, positions and slots stand in the buffers between its prefix sum and the next. */
  ghost predicate ReadsBack(t: PerToken, slots: Slots, rows: seq<Row>, r: nat)
    requires r < |rows|
  {
    var from, to := StartOf(rows, r), StartOf(rows, r + 1);
    && from <= to <= |t.ids| == |t.positions| == |t.slots|
    && t.ids[from..to] == Fed(rows[r])
    && t.positions[from..to] == Positions(rows[r])
    && t.slots[from..to] == SlotRow(slots, rows[r])
  }

  /**
   Lossless materialization: for every accepted batch of whole rows, each request's query tokens, positions and slots
   read back from the buffers between its prefix sum and the next, which are its two entries of the index.
   */
  lemma Lossless(slots: Slots, rows: seq<Row>, maxReqs: nat, maxTokens: nat, r: nat)
    requires AllWhole(rows) && Verdict(maxReqs, maxTokens, slots, rows).Done? && r < |rows|
    ensures ReadsBack(Folded(slots, rows, |rows|, maxTokens), slots, rows, r)
    ensures rows[r].id in slots ==> SlotRow(slots, rows[r]) == slots[rows[r].id]
  {
    AcceptedExactly(maxReqs, maxTokens, slots, rows);
    FoldedIsLayout(slots, rows, |rows|, maxTokens);
    AreLines(slots, rows);
    var left := maxTokens - StartOf(rows, |rows|);
    LineReadBack(rows, TokenLines(rows), r, Fill(0, left));
    LineReadBack(rows, PositionLines(rows), r, Fill(0, left));
    LineReadBack(rows, SlotLines(slots, rows), r, Fill(-1, left));
  }

  lemma IndexIsPrefixSums(rows: seq<Row>, maxReqs: nat, r: nat)
    requires r < |rows| <= maxReqs
    ensures Index(rows, maxReqs)[r] == StartOf(rows, r) && Index(rows, maxReqs)[r + 1] == StartOf(rows, r + 1)
    ensures Index(rows, maxReqs)[0] == 0
    ensures Index(rows, maxReqs)[r + 1] - Index(rows, maxReqs)[r] ==
      if rows[r].end > rows[r].start then rows[r].end - rows[r].start else 0
  {
    assert StartOf(rows, 0) == 0;
  }

  /** Exactly the places past the last token are flagged as padding. */
  ghost predicate FlagsExact(slots: Slots, rows: seq<Row>, maxTokens: nat) {
    forall i :: 0 <= i < maxTokens ==>
      (Folded(slots, rows, |rows|, maxTokens).padding[i] <==> i >= StartOf(rows, |rows|))
  }

  /** The padding flags of whole rows are exact. */
  lemma PaddingExact(slots: Slots, rows: seq<Row>, maxTokens: nat)
    requires AllWhole(rows) && StartOf(rows, |rows|) <= maxTokens
    ensures FlagsExact(slots, rows, maxTokens)
  {
    FoldedIsLayout(slots, rows, |rows|, maxTokens);
  }

  /** And only of those: for a batch of one row they are exact if and only if the row is whole. */
  lemma PaddingExactOnlyIfWhole(slots: Slots, r: Row, maxTokens: nat)
    requires FirstBad(maxTokens, slots, [r], 0).Done?
    ensures FlagsExact(slots, [r], maxTokens) <==> Whole(r)
  {
    var t, n := Folded(slots, [r], 1, maxTokens), |Fed(r)|;
    assert StartOf([r], 1) == QueryLength(r) && StartOf([r], 0) == 0;
    assert Folded(slots, [r], 0, maxTokens) == Cleared(maxTokens);
    FoldedNext(slots, [r], 0, maxTokens);
    assert t == Overwritten(Cleared(maxTokens), 0, Line(slots, r));
    assert forall i :: 0 <= i < maxTokens ==> (t.padding[i] <==> i >= n);
    if n < QueryLength(r) {
      assert t.padding[n];
    } else if n > QueryLength(r) {
      assert !t.padding[QueryLength(r)];
    }
  }

  lemma PreparedIsWhole(p: Plan, reqs: map<string, Req>)
    requires NonNegative(p, reqs)
    ensures AllWhole(Prepared(p, reqs, |p.scheduled|))
  {
    var rows := Prepared(p, reqs, |p.scheduled|);
    PreparedIsShaped(p, reqs, |p.scheduled|);
    forall i | 0 <= i < |rows| ensures Whole(rows[i]) {
      ShapedIsWhole(rows[i]);
    }
  }

  /**
   From the scheduler's output to the buffers: what `prepare_inputs` builds out of a plan without negative numbers is
   accepted exactly when it fits the buffers and every given slot list has its query's length.
   */
  lemma PreparedAcceptedExactly(p: Plan, reqs: map<string, Req>, slots: Slots, maxReqs: nat, maxTokens: nat)
    requires NonNegative(p, reqs)
    ensures var rows := Prepared(p, reqs, |p.scheduled|);
      Verdict(maxReqs, maxTokens, slots, rows).Done? <==>
        |rows| <= maxReqs && StartOf(rows, |rows|) <= maxTokens && AllFit(slots, rows)
  {
    var rows := Prepared(p, reqs, |p.scheduled|);
    PreparedIsWhole(p, reqs);
    AcceptedExactly(maxReqs, maxTokens, slots, rows);
    if StartOf(rows, |rows|) <= maxTokens && AllFit(slots, rows) {
      WholeNeverOverruns(maxTokens, slots, rows);
    }
  }

  /**
   And then nothing is lost on the way: the padding flags are exact, and for every request the tokens between its
   query's start and end, their positions and its slots are found again at its two entries of the index.
   */
  lemma PreparedReadsBack(
      p: Plan, reqs: map<string, Req>, slots: Slots, maxReqs: nat, maxTokens: nat, r: nat)
    requires NonNegative(p, reqs) && r < |Prepared(p, reqs, |p.scheduled|)|
    requires Verdict(maxReqs, maxTokens, slots, Prepared(p, reqs, |p.scheduled|)).Done?
    ensures var rows := Prepared(p, reqs, |p.scheduled|); var row := rows[r];
      && FlagsExact(slots, rows, maxTokens)
      && ReadsBack(Folded(slots, rows, |rows|, maxTokens), slots, rows, r)
      && 0 <= row.start && |row.tokens| == row.end
      && Fed(row) == (if row.start <= row.end then row.tokens[row.start..row.end] else [])
      && (forall j :: 0 <= j < row.end - row.start ==> Positions(row)[j] == row.start + j)
      && (row.id in slots ==> SlotRow(slots, row) == slots[row.id])
      && (row.id !in slots ==> SlotRow(slots, row) == Positions(row))
  {
    var rows := Prepared(p, reqs, |p.scheduled|);
    PreparedIsWhole(p, reqs);
    PreparedIsShaped(p, reqs, |p.scheduled|);
    ShapedIsWhole(rows[r]);
    AcceptedExactly(maxReqs, maxTokens, slots, rows);
    PaddingExact(slots, rows, maxTokens);
    Lossless(slots, rows, maxReqs, maxTokens, r);
  }
}
