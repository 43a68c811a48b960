/**
 The decision half of the autoscaler (go/router/autoscale.go): two streak counters, the time of the last action and a
 cooldown. `Evaluated` is one call; the theorems are about whole evaluation traces.
 */
module Autoscale {
  import opened Base

  datatype Decision = Stay | ScaleOut | ScaleIn

  datatype Metrics = Metrics(queueLen: int, inFlight: int)

  /** Thresholds; `cooldown` is in nanoseconds. */
  datatype Config = Config(minNodes: int, maxNodes: int, outQueue: int, inQueue: int, sustain: int, cooldown: int)

  /** Unset and negative settings fall back, everything else is kept; the lower queue threshold has no default. */
  function WithDefaults(c: Config): (r: Config)
    ensures Usable(r) && (Usable(c) ==> r == c)
  {
    Config(
      if c.minNodes <= 0 then 1 else c.minNodes,
      if c.maxNodes <= 0 then 8 else c.maxNodes,
      if c.outQueue <= 0 then 4 else c.outQueue,
      c.inQueue,
      if c.sustain <= 0 then 3 else c.sustain,
      if c.cooldown <= 0 then 10_000_000_000 else c.cooldown)
  }

  /** Each setting falls back by itself. */
  lemma SettingsFallBack(c: Config)
    ensures var r := WithDefaults(c);
      && (c.minNodes > 0 ==> r.minNodes == c.minNodes) && (c.minNodes <= 0 ==> r.minNodes == 1)
      && (c.maxNodes > 0 ==> r.maxNodes == c.maxNodes) && (c.maxNodes <= 0 ==> r.maxNodes == 8)
      && (c.outQueue > 0 ==> r.outQueue == c.outQueue) && (c.outQueue <= 0 ==> r.outQueue == 4)
      && (c.sustain > 0 ==> r.sustain == c.sustain) && (c.sustain <= 0 ==> r.sustain == 3)
      && (c.cooldown > 0 ==> r.cooldown == c.cooldown) && (c.cooldown <= 0 ==> r.cooldown == 10 * 1_000_000_000)
      && r.inQueue == c.inQueue
  { }

  predicate Usable(c: Config) {
    c.minNodes > 0 && c.maxNodes > 0 && c.outQueue > 0 && c.sustain > 0 && c.cooldown > 0
  }

  predicate Over(c: Config, m: Metrics) { m.queueLen >= c.outQueue }

  /** A reading over the upper threshold is never also under the lower one. */
  predicate Under(c: Config, m: Metrics) { !Over(c, m) && m.queueLen <= c.inQueue && m.inFlight <= 1 }

  /** The counters; `last` is the time of the last action, if there was one. */
  datatype Scaler = Scaler(over: nat, under: nat, last: Option<int>)

  predicate Cooled(c: Config, last: Option<int>, now: int) { last.None? || now - last.value >= c.cooldown }

  /** The counters with one more reading taken in. */
  function Counted(c: Config, s: Scaler, m: Metrics): Scaler {
    if Over(c, m) then Scaler(s.over + 1, 0, s.last)
    else if Under(c, m) then Scaler(0, s.under + 1, s.last)
    else Scaler(0, 0, s.last)
  }

  function Evaluated(c: Config, s: Scaler, now: int, m: Metrics, nodes: int): (Scaler, Decision) {
    var t := Counted(c, s, m);
    if !Cooled(c, t.last, now) then (t, Stay)
    else if t.over >= c.sustain && nodes < c.maxNodes then (Scaler(0, t.under, Some(now)), ScaleOut)
    else if t.under >= c.sustain && nodes > c.minNodes then (Scaler(t.over, 0, Some(now)), ScaleIn)
    else (t, Stay)
  }

  class Autoscaler {
    const cfg: Config
    var overStreak: nat
    var underStreak: nat
    var lastAction: Option<int>

    constructor (c: Config)
      ensures cfg == WithDefaults(c) && View() == Scaler(0, 0, None)
    {
      cfg, overStreak, underStreak, lastAction := WithDefaults(c), 0, 0, None;
    }

    function View(): Scaler
      reads this
    {
      Scaler(overStreak, underStreak, lastAction)
    }

    method Evaluate(now: int, m: Metrics, nodeCount: int) returns (d: Decision)
      modifies this
      ensures (View(), d) == Evaluated(cfg, old(View()), now, m, nodeCount)
    {
      var over := m.queueLen >= cfg.outQueue;
      var under := m.queueLen <= cfg.inQueue && m.inFlight <= 1;
      if over {
        overStreak, underStreak := overStreak + 1, 0;
      } else if under {
        underStreak, overStreak := underStreak + 1, 0;
      } else {
        overStreak, underStreak := 0, 0;
      }
      if lastAction.Some? && now - lastAction.value < cfg.cooldown {
        return Stay;
      }
      if overStreak >= cfg.sustain && nodeCount < cfg.maxNodes {
        overStreak, lastAction := 0, Some(now);
        return ScaleOut;
      }
      if underStreak >= cfg.sustain && nodeCount > cfg.minNodes {
        underStreak, lastAction := 0, Some(now);
        return ScaleIn;
      }
      return Stay;
    }
  }

  // ---------------------------------------------------------------- evaluation traces

  datatype Sample = Sample(now: int, m: Metrics, nodes: int)

  /** The counters after the first `n` evaluations of a trace. */
  function After(c: Config, trace: seq<Sample>, n: nat): Scaler
    requires n <= |trace|
  {
    if n == 0 then Scaler(0, 0, None)
    else
      var x := trace[n - 1];
      Evaluated(c, After(c, trace, n - 1), x.now, x.m, x.nodes).0
  }

  function DecisionAt(c: Config, trace: seq<Sample>, i: nat): Decision
    requires i < |trace|
  {
    var x := trace[i];
    Evaluated(c, After(c, trace, i), x.now, x.m, x.nodes).1
  }

  /** The two streaks are never positive together. */
  lemma {:induction false} StreaksExclude(c: Config, trace: seq<Sample>, n: nat)
    requires Usable(c) && n <= |trace|
    ensures After(c, trace, n).over == 0 || After(c, trace, n).under == 0
  {
    if n > 0 {
      StreaksExclude(c, trace, n - 1);
    }
  }

  /** The reading at `i` was over the threshold and did not itself cause a scale-out. */
  predicate Pressing(c: Config, trace: seq<Sample>, i: nat)
    requires i < |trace|
  {
    trace[i].m.queueLen >= c.outQueue && DecisionAt(c, trace, i) != ScaleOut
  }

  /** The queue is short and at most one request runs. */
  predicate IdleReading(c: Config, m: Metrics) {
    m.queueLen < c.outQueue && m.queueLen <= c.inQueue && m.inFlight <= 1
  }

  predicate Idling(c: Config, trace: seq<Sample>, i: nat)
    requires i < |trace|
  {
    IdleReading(c, trace[i].m) && DecisionAt(c, trace, i) != ScaleIn
  }

  /** What the counters count: the unbroken run of readings since the last break or action. */
  lemma {:induction false} StreaksMean(c: Config, trace: seq<Sample>, n: nat, k: nat)
    requires Usable(c) && n <= |trace|
    ensures After(c, trace, n).over >= k <==> k <= n && forall i: nat :: n - k <= i < n ==> Pressing(c, trace, i)
    ensures After(c, trace, n).under >= k <==> k <= n && forall i: nat :: n - k <= i < n ==> Idling(c, trace, i)
  {
    if n > 0 && k > 0 {
      StreaksMean(c, trace, n - 1, k - 1);
      var _ := Pressing(c, trace, n - 1);
      var _ := Idling(c, trace, n - 1);
    }
  }

  /** One evaluation moves `last` exactly when it decides something. */
  lemma LastMoves(c: Config, trace: seq<Sample>, n: nat)
    requires n < |trace|
    ensures After(c, trace, n + 1).last ==
      if DecisionAt(c, trace, n) != Stay then Some(trace[n].now) else After(c, trace, n).last
    ensures DecisionAt(c, trace, n) != Stay ==> Cooled(c, After(c, trace, n).last, trace[n].now)
  { }

  /** `last` is the time of an earlier decision. */
  lemma {:induction false} LastFound(c: Config, trace: seq<Sample>, n: nat) returns (i: nat)
    requires n <= |trace| && After(c, trace, n).last.Some?
    ensures i < n && DecisionAt(c, trace, i) != Stay && trace[i].now == After(c, trace, n).last.value
  {
    LastMoves(c, trace, n - 1);
    if DecisionAt(c, trace, n - 1) != Stay {
      i := n - 1;
    } else {
      i := LastFound(c, trace, n - 1);
    }
  }

  /** No decision is later than `last`. */
  lemma {:induction false} LastIsLatest(c: Config, trace: seq<Sample>, n: nat, i: nat)
    requires Usable(c) && i < n <= |trace| && DecisionAt(c, trace, i) != Stay
    ensures After(c, trace, n).last.Some? && trace[i].now <= After(c, trace, n).last.value
  {
    LastMoves(c, trace, n - 1);
    if i < n - 1 {
      LastIsLatest(c, trace, n - 1, i);
    }
  }

  /** Every earlier decision is at least a cooldown before evaluation `i`. */
  predicate Rested(c: Config, trace: seq<Sample>, i: nat)
    requires i < |trace|
  {
    forall j: nat :: j < i && DecisionAt(c, trace, j) != Stay ==> trace[i].now - trace[j].now >= c.cooldown
  }

  lemma RestedIsCooled(c: Config, trace: seq<Sample>, i: nat)
    requires Usable(c) && i < |trace|
    ensures Rested(c, trace, i) <==> Cooled(c, After(c, trace, i).last, trace[i].now)
  {
    if After(c, trace, i).last.Some? {
      var j := LastFound(c, trace, i);
    }
    forall j: nat | j < i && DecisionAt(c, trace, j) != Stay
      ensures After(c, trace, i).last.Some? && trace[j].now <= After(c, trace, i).last.value
    {
      LastIsLatest(c, trace, i, j);
    }
  }

  /** The last `sustain` readings up to `i` were all over, and the earlier ones among them caused no scale-out. */
  predicate OverWindow(c: Config, trace: seq<Sample>, i: nat)
    requires i < |trace|
  {
    && c.sustain <= i + 1
    && trace[i].m.queueLen >= c.outQueue
    && forall j: nat :: i + 1 - c.sustain <= j < i ==> Pressing(c, trace, j)
  }

  predicate UnderWindow(c: Config, trace: seq<Sample>, i: nat)
    requires i < |trace|
  {
    && c.sustain <= i + 1
    && IdleReading(c, trace[i].m)
    && forall j: nat :: i + 1 - c.sustain <= j < i ==> Idling(c, trace, j)
  }

  /** Exactly when a trace decides to scale out: a full window, room above, and no decision within the cooldown. */
  lemma ScaleOutExactly(c: Config, trace: seq<Sample>, i: nat)
    requires Usable(c) && i < |trace|
    ensures DecisionAt(c, trace, i) == ScaleOut <==>
      OverWindow(c, trace, i) && trace[i].nodes < c.maxNodes && Rested(c, trace, i)
  {
    StreaksMean(c, trace, i, c.sustain - 1);
    RestedIsCooled(c, trace, i);
  }

  lemma ScaleInExactly(c: Config, trace: seq<Sample>, i: nat)
    requires Usable(c) && i < |trace|
    ensures DecisionAt(c, trace, i) == ScaleIn <==>
      UnderWindow(c, trace, i) && trace[i].nodes > c.minNodes && Rested(c, trace, i)
  {
    StreaksMean(c, trace, i, c.sustain - 1);
    RestedIsCooled(c, trace, i);
  }

  /** Debounce and cooldown over every trace. */
  lemma Debounce(c: Config, trace: seq<Sample>, i: nat)
    requires Usable(c) && i < |trace|
    ensures DecisionAt(c, trace, i) == ScaleOut ==>
      c.sustain <= i + 1 && forall j: nat :: i + 1 - c.sustain <= j <= i ==> trace[j].m.queueLen >= c.outQueue
    ensures DecisionAt(c, trace, i) == ScaleIn ==>
      c.sustain <= i + 1 && forall j: nat :: i + 1 - c.sustain <= j <= i ==> IdleReading(c, trace[j].m)
    ensures DecisionAt(c, trace, i) != Stay ==>
      forall j: nat :: j < i && DecisionAt(c, trace, j) != Stay ==> trace[i].now - trace[j].now >= c.cooldown
  {
    ScaleOutExactly(c, trace, i);
    ScaleInExactly(c, trace, i);
    if DecisionAt(c, trace, i) == ScaleOut {
      forall j: nat | i + 1 - c.sustain <= j <= i ensures trace[j].m.queueLen >= c.outQueue {
        assert j == i || Pressing(c, trace, j);
      }
    }
    if DecisionAt(c, trace, i) == ScaleIn {
      forall j: nat | i + 1 - c.sustain <= j <= i ensures IdleReading(c, trace[j].m) {
        assert j == i || Idling(c, trace, j);
      }
    }
  }
}
