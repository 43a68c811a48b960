/**
 The acting half of the autoscaler (go/router/autoscale.go): the registry of routed nodes, scale-out and scale-in
 against a control plane that may refuse any call, and the scheduler capacity that follows the ready count.
 */
module Fleet {
  import opened Base
  import opened Autoscale

  // ---------------------------------------------------------------- node names

  function Digit(n: nat): char
    requires n < 10
  {
    (48 + n) as char
  }

  function Decimal(n: nat): (s: string)
    ensures s != []
  {
    if n < 10 then [Digit(n)] else Decimal(n / 10) + [Digit(n % 10)]
  }

  function Name(n: nat): string { "worker-" + Decimal(n) }

  predicate IsDigit(c: char) { '0' <= c <= '9' }

  function LeadingDigits(s: string): string {
    if s == [] || !IsDigit(s[0]) then [] else [s[0]] + LeadingDigits(s[1..])
  }

  function SkipBlanks(s: string): string {
    if s != [] && s[0] in {' ', '\t'} then SkipBlanks(s[1..]) else s
  }

  function ValueOf(ds: string): int {
    if ds == [] then 0 else 10 * ValueOf(ds[..|ds| - 1]) + (ds[|ds| - 1] as int - 48)
  }

  /** The number that a scan of `worker-%d` reads: blanks, a sign and digits, whatever comes after them. */
  function Scan(id: string): Option<int> {
    if !("worker-" <= id) then None else
      var rest := SkipBlanks(id[7..]);
      var signed := rest != [] && rest[0] in {'+', '-'};
      var ds := LeadingDigits(if signed then rest[1..] else rest);
      if ds == [] then None else Some(if signed && rest[0] == '-' then -ValueOf(ds) else ValueOf(ds))
  }

  lemma {:induction false} DecimalReads(n: nat)
    ensures ValueOf(Decimal(n)) == n
    ensures forall i :: 0 <= i < |Decimal(n)| ==> IsDigit(Decimal(n)[i])
  {
    if n >= 10 {
      DecimalReads(n / 10);
      var s := Decimal(n);
      assert s[..|s| - 1] == Decimal(n / 10);
    }
  }

  lemma {:induction false} AllLeading(s: string)
    requires forall i :: 0 <= i < |s| ==> IsDigit(s[i])
    ensures LeadingDigits(s) == s
  {
    if s != [] {
      AllLeading(s[1..]);
    }
  }

  /** A scan reads back the number of every generated name. */
  lemma ScanReadsBack(n: nat)
    ensures Scan(Name(n)) == Some(n)
  {
    var s := Decimal(n);
    DecimalReads(n);
    AllLeading(s);
    assert IsDigit(s[0]);
    assert Name(n)[7..] == s && SkipBlanks(s) == s;
  }

  lemma NameInjective(a: nat, b: nat)
    requires Name(a) == Name(b)
    ensures a == b
  {
    ScanReadsBack(a);
    ScanReadsBack(b);
  }

  /** No name that will be given out when the highest number is `top` equals `id`. */
  ghost predicate Old(id: string, top: nat) { forall n: nat :: Name(n) == id ==> n <= top }

  lemma ScannedIsOld(id: string, top: nat)
    requires Scan(id).Some? ==> Scan(id).value <= top
    ensures Old(id, top)
  {
    forall n: nat | Name(n) == id ensures n <= top {
      ScanReadsBack(n);
    }
  }

  lemma HigherIsNew(id: string, top: nat, k: nat)
    requires Old(id, top) && k > top
    ensures id != Name(k)
  { }

  lemma NextNameIsNew(top: nat)
    ensures !Old(Name(top + 1), top) && Old(Name(top + 1), top + 1)
  {
    assert !Old(Name(top + 1), top) by {
      assert Name(top + 1) == Name(top + 1);
    }
    forall n: nat | Name(n) == Name(top + 1) ensures n <= top + 1 {
      NameInjective(n, top + 1);
    }
  }

  lemma OldStays(id: string, top: nat)
    requires Old(id, top)
    ensures Old(id, top + 1) && id != Name(top + 1)
  { }

  // ---------------------------------------------------------------- the fleet as a value

  /** Routed nodes oldest first, nodes being drained, the highest number issued, and the scheduler's limit. */
  datatype Fleet = Fleet(ready: seq<string>, draining: set<string>, top: nat, capacity: int)

  /** One evaluation period: the clock, the load, and how the control plane answers each call it may get. */
  datatype Tick = Tick(now: int, m: Metrics, joinOk: bool, drainOk: bool, reaped: set<string>, reapedAfter: set<string>)

  datatype Sys = Sys(fleet: Fleet, scaler: Scaler)

  function Limit(base: int, ready: nat): int {
    var b := if base <= 0 then 1 else base;
    if b * ready <= 0 then 1 else b * ready
  }

  function Synced(base: int, f: Fleet): Fleet { f.(capacity := Limit(base, |f.ready|)) }

  /** `remove` for every draining node whose removal was acknowledged. */
  function Reaped(f: Fleet, acked: set<string>): Fleet { f.(draining := f.draining - acked) }

  function Without(ready: seq<string>, id: string): seq<string>
    requires id in ready
  {
    if ready[0] == id then ready[1..] else [ready[0]] + Without(ready[1..], id)
  }

  function GrownFleet(base: int, f: Fleet, joinOk: bool): Fleet {
    var id := Name(f.top + 1);
    var g := f.(top := f.top + 1);
    if joinOk then Synced(base, g.(draining := g.draining - {id}, ready := g.ready + [id])) else g
  }

  function ShrunkFleet(base: int, f: Fleet, drainOk: bool, acked: set<string>): Fleet {
    if f.ready == [] then f else
      var victim := f.ready[|f.ready| - 1];
      var out := f.(ready := Without(f.ready, victim), draining := f.draining + {victim});
      if drainOk then Reaped(Synced(base, out), acked)
      else Synced(base, out.(ready := out.ready + [victim], draining := out.draining - {victim}))
  }

  function Ticked(c: Config, base: int, enabled: bool, s: Sys, t: Tick): Sys {
    var f := Reaped(s.fleet, t.reaped);
    if !enabled then Sys(f, s.scaler) else
      var (scaler, d) := Evaluated(c, s.scaler, t.now, t.m, |f.ready|);
      match d
      case Stay => Sys(f, scaler)
      case ScaleOut => Sys(GrownFleet(base, f, t.joinOk), scaler)
      case ScaleIn => Sys(ShrunkFleet(base, f, t.drainOk, t.reapedAfter), scaler)
  }

  // ---------------------------------------------------------------- the classes

  class NodeRegistry {
    var ready: seq<string>
    var draining: set<string>
    var top: nat

    /** The initial ids in order; `top` is the highest number scanned from them, or 0. */
    constructor (initial: seq<string>)
      ensures ready == initial && draining == {}
      ensures forall i :: 0 <= i < |initial| && Scan(initial[i]).Some? ==> Scan(initial[i]).value <= top
      ensures top == 0 || exists i :: 0 <= i < |initial| && Scan(initial[i]) == Some(top)
      ensures forall i :: 0 <= i < |initial| ==> Old(initial[i], top)
    {
      ready, draining, top := [], {}, 0;
      new;
      for i := 0 to |initial|
        invariant ready == initial[..i] && draining == {}
        invariant forall j :: 0 <= j < i && Scan(initial[j]).Some? ==> Scan(initial[j]).value <= top
        invariant top == 0 || exists j :: 0 <= j < i && Scan(initial[j]) == Some(top)
      {
        ready := ready + [initial[i]];
        var n := Scan(initial[i]);
        if n.Some? && n.value > top {
          top := n.value;
        }
      }
      assert initial[..|initial|] == initial;
      forall i | 0 <= i < |initial| ensures Old(initial[i], top) {
        ScannedIsOld(initial[i], top);
      }
    }

    method NextID() returns (id: string)
      modifies this`top
      ensures top == old(top) + 1 && id == Name(top)
    {
      top := top + 1;
      id := Name(top);
    }

    method Add(id: string)
      modifies this`ready, this`draining
      ensures ready == old(ready) + [id] && draining == old(draining) - {id}
    {
      draining := draining - {id};
      ready := ready + [id];
    }

    /** The first occurrence leaves the route table. */
    method MarkDraining(id: string) returns (found: bool)
      modifies this`ready, this`draining
      ensures found <==> id in old(ready)
      ensures found ==> ready == Without(old(ready), id) && draining == old(draining) + {id}
      ensures !found ==> ready == old(ready) && draining == old(draining)
    {
      var i := 0;
      while i < |ready|
        invariant 0 <= i <= |ready| && ready == old(ready) && draining == old(draining)
        invariant id !in ready[..i]
      {
        if ready[i] == id {
          WithoutAt(ready, id, i);
          ready := ready[..i] + ready[i + 1..];
          draining := draining + {id};
          return true;
        }
        i := i + 1;
      }
      return false;
    }

    method Remove(id: string)
      modifies this`draining
      ensures draining == old(draining) - {id}
    {
      draining := draining - {id};
    }

    method UnmarkDraining(id: string)
      modifies this`ready, this`draining
      ensures id in old(draining) ==> ready == old(ready) + [id] && draining == old(draining) - {id}
      ensures id !in old(draining) ==> ready == old(ready) && draining == old(draining)
    {
      if id in draining {
        draining := draining - {id};
        ready := ready + [id];
      }
    }

    method LastReady() returns (id: string, ok: bool)
      ensures ok <==> ready != []
      ensures ok ==> id == ready[|ready| - 1]
    {
      if ready == [] {
        return "", false;
      }
      return ready[|ready| - 1], true;
    }
  }

  lemma {:induction false} WithoutAt(s: seq<string>, id: string, i: nat)
    requires i < |s| && s[i] == id && id !in s[..i]
    ensures Without(s, id) == s[..i] + s[i + 1..]
    decreases i
  {
    if i > 0 {
      assert s[0] in s[..i];
      assert s[1..][..i - 1] == s[..i][1..];
      WithoutAt(s[1..], id, i - 1);
      assert s[1..][i..] == s[i + 1..];
    }
  }

  class Server {
    const nodes: NodeRegistry
    const scaler: Autoscaler
    const base: int
    const enabled: bool
    var maxInFlight: int

    constructor (c: Config, base: int, enabled: bool, nodes: NodeRegistry)
      ensures this.nodes == nodes && this.base == base && this.enabled == enabled
      ensures fresh(scaler) && scaler.cfg == WithDefaults(c) && scaler.View() == Scaler(0, 0, None)
      ensures maxInFlight == Limit(base, 1)
    {
      this.nodes, this.base, this.enabled := nodes, base, enabled;
      scaler := new Autoscaler(c);
      maxInFlight := if base <= 0 then 1 else base;
    }

    function FleetNow(): Fleet
      reads this, nodes
    {
      Fleet(nodes.ready, nodes.draining, nodes.top, maxInFlight)
    }

    method SyncCapacity()
      modifies this
      ensures FleetNow() == Synced(base, old(FleetNow()))
    {
      var b := if base <= 0 then 1 else base;
      var n := b * |nodes.ready|;
      maxInFlight := if n <= 0 then 1 else n;
    }

    /** The map is walked in any order; the outcome does not depend on it. */
    method ReapDraining(acked: set<string>)
      modifies nodes`draining
      ensures FleetNow() == Reaped(old(FleetNow()), acked)
    {
      var left := nodes.draining;
      while left != {}
        invariant left <= nodes.draining <= old(nodes.draining)
        invariant nodes.draining - left == old(nodes.draining) - left - acked
        invariant old(nodes.draining) - acked <= nodes.draining
        decreases left
      {
        var id :| id in left;
        if id in acked {
          nodes.Remove(id);
        }
        left := left - {id};
      }
      assert nodes.draining == old(nodes.draining) - acked;
    }

    method Grow(joinOk: bool)
      modifies this, nodes
      ensures FleetNow() == GrownFleet(base, old(FleetNow()), joinOk)
    {
      var id := nodes.NextID();
      if joinOk {
        nodes.Add(id);
        SyncCapacity();
      }
    }

    method Shrink(drainOk: bool, acked: set<string>)
      modifies this, nodes
      ensures FleetNow() == ShrunkFleet(base, old(FleetNow()), drainOk, acked)
    {
      var victim, ok := nodes.LastReady();
      if !ok {
        return;
      }
      var marked := nodes.MarkDraining(victim);
      if !marked {
        return;
      }
      if !drainOk {
        nodes.UnmarkDraining(victim);
        SyncCapacity();
        return;
      }
      SyncCapacity();
      ReapDraining(acked);
    }

    method AutoscaleTick(t: Tick)
      modifies this, nodes, scaler
      ensures Sys(FleetNow(), scaler.View()) ==
        Ticked(scaler.cfg, base, enabled, old(Sys(FleetNow(), scaler.View())), t)
    {
      ReapDraining(t.reaped);
      if !enabled {
        return;
      }
      var d := scaler.Evaluate(t.now, t.m, |nodes.ready|);
      match d {
        case Stay =>
        case ScaleOut => Grow(t.joinOk);
        case ScaleIn => Shrink(t.drainOk, t.reapedAfter);
      }
    }
  }

  // ---------------------------------------------------------------- whole runs

  predicate Distinct(s: seq<string>) { forall i, j :: 0 <= i < j < |s| ==> s[i] != s[j] }

  /** What every tick keeps: `first` stays first, names are distinct and known, capacity follows the ready count. */
  ghost predicate Good(f: Fleet, first: string, base: int) {
    && f.ready != [] && f.ready[0] == first
    && Distinct(f.ready)
    && (forall i :: 0 <= i < |f.ready| ==> f.ready[i] !in f.draining && Old(f.ready[i], f.top))
    && (forall id :: id in f.draining ==> Old(id, f.top))
    && f.capacity == Limit(base, |f.ready|)
  }

  lemma {:induction false} WithoutLast(s: seq<string>)
    requires s != [] && Distinct(s)
    ensures Without(s, s[|s| - 1]) == s[..|s| - 1]
  {
    WithoutAt(s, s[|s| - 1], |s| - 1);
  }

  /** A drain that fails puts the fleet back exactly; one that succeeds takes out the newest node only. */
  lemma FailedDrainRestores(base: int, f: Fleet, acked: set<string>)
    requires Distinct(f.ready) && (f.ready != [] ==> f.ready[|f.ready| - 1] !in f.draining)
    ensures ShrunkFleet(base, f, false, acked).ready == f.ready
    ensures ShrunkFleet(base, f, false, acked).draining == f.draining
    ensures f.ready != [] ==> ShrunkFleet(base, f, true, acked).ready == f.ready[..|f.ready| - 1]
    ensures f.ready != [] ==>
      ShrunkFleet(base, f, true, acked).draining == f.draining + {f.ready[|f.ready| - 1]} - acked
  {
    if f.ready != [] {
      WithoutLast(f.ready);
    }
  }

  lemma GrowKeepsGood(f: Fleet, first: string, base: int, joinOk: bool)
    requires Good(f, first, base)
    ensures Good(GrownFleet(base, f, joinOk), first, base)
  {
    var id := Name(f.top + 1);
    NextNameIsNew(f.top);
    forall i | 0 <= i < |f.ready| ensures f.ready[i] != id && Old(f.ready[i], f.top + 1) {
      OldStays(f.ready[i], f.top);
    }
    forall x | x in f.draining ensures x != id && Old(x, f.top + 1) {
      OldStays(x, f.top);
    }
  }

  lemma ShrinkKeepsGood(f: Fleet, first: string, base: int, drainOk: bool, acked: set<string>)
    requires Good(f, first, base) && |f.ready| > 1
    ensures Good(ShrunkFleet(base, f, drainOk, acked), first, base)
  {
    FailedDrainRestores(base, f, acked);
  }

  lemma TickKeepsGood(c: Config, base: int, enabled: bool, s: Sys, t: Tick, first: string)
    requires Usable(c) && Good(s.fleet, first, base)
    ensures Good(Ticked(c, base, enabled, s, t).fleet, first, base)
  {
    var f := Reaped(s.fleet, t.reaped);
    GrowKeepsGood(f, first, base, t.joinOk);
    if |f.ready| > 1 {
      ShrinkKeepsGood(f, first, base, t.drainOk, t.reapedAfter);
    }
  }

  /** A tick moves the ready count by at most one, up only below the maximum and down only above the minimum. */
  lemma TickMoves(c: Config, base: int, enabled: bool, s: Sys, t: Tick, first: string)
    requires Usable(c) && Good(s.fleet, first, base)
    ensures var n, k := |s.fleet.ready|, |Ticked(c, base, enabled, s, t).fleet.ready|;
      k == n || (k == n + 1 && n < c.maxNodes) || (k == n - 1 && n > c.minNodes)
  {
    FailedDrainRestores(base, Reaped(s.fleet, t.reaped), t.reapedAfter);
  }

  /** What a tick decides to do, from the load and the number of routed nodes. */
  function Decides(c: Config, enabled: bool, s: Sys, t: Tick): Decision {
    if enabled then Evaluated(c, s.scaler, t.now, t.m, |s.fleet.ready|).1 else Stay
  }

  function PerNode(base: int): int { if base <= 0 then 1 else base }

  /** An accepted join routes to the next number's name and adds one node's limit; a refused one only uses it up. */
  lemma GrowsExactly(base: int, f: Fleet, first: string, joinOk: bool)
    requires Good(f, first, base)
    ensures var g := GrownFleet(base, f, joinOk);
      && g.top == f.top + 1 && g.draining == f.draining
      && g.ready == (if joinOk then f.ready + [Name(f.top + 1)] else f.ready)
      && g.capacity == f.capacity + if joinOk then PerNode(base) else 0
  {
    GrowKeepsGood(f, first, base, joinOk);
    CapacityIsProportional(f, first, base);
    CapacityIsProportional(GrownFleet(base, f, joinOk), first, base);
    forall x | x in f.draining ensures x != Name(f.top + 1) {
      OldStays(x, f.top);
    }
  }

  lemma ShrinksExactly(base: int, f: Fleet, first: string, drainOk: bool, acked: set<string>)
    requires Good(f, first, base) && |f.ready| > 1
    ensures var g, last := ShrunkFleet(base, f, drainOk, acked), |f.ready| - 1;
      && g.top == f.top
      && g.ready == (if drainOk then f.ready[..last] else f.ready)
      && g.draining == (if drainOk then f.draining + {f.ready[last]} - acked else f.draining)
      && g.capacity == f.capacity - if drainOk then PerNode(base) else 0
  {
    ShrinkKeepsGood(f, first, base, drainOk, acked);
    FailedDrainRestores(base, f, acked);
    CapacityIsProportional(f, first, base);
    CapacityIsProportional(ShrunkFleet(base, f, drainOk, acked), first, base);
  }

  /**
   What one tick does to the fleet. An accepted join adds the next node at the end, an accepted drain moves the newest
   one out of the route table, and the capacity follows by one node's limit. Otherwise only acknowledged nodes leave.
   */
  lemma TickExactly(c: Config, base: int, enabled: bool, s: Sys, t: Tick, first: string)
    requires Usable(c) && Good(s.fleet, first, base)
    ensures var f, g, d := s.fleet, Ticked(c, base, enabled, s, t).fleet, Decides(c, enabled, s, t);
      var left := f.draining - t.reaped;
      match d
      case Stay => g == f.(draining := left)
      case ScaleOut =>
        && g.top == f.top + 1 && g.draining == left
        && g.ready == (if t.joinOk then f.ready + [Name(f.top + 1)] else f.ready)
        && g.capacity == f.capacity + if t.joinOk then PerNode(base) else 0
      case ScaleIn =>
        && g.top == f.top && |f.ready| > 1
        && g.ready == (if t.drainOk then f.ready[..|f.ready| - 1] else f.ready)
        && g.draining == (if t.drainOk then left + {f.ready[|f.ready| - 1]} - t.reapedAfter else left)
        && g.capacity == f.capacity - if t.drainOk then PerNode(base) else 0
  {
    var f := Reaped(s.fleet, t.reaped);
    GrowsExactly(base, f, first, t.joinOk);
    if |f.ready| > 1 {
      ShrinksExactly(base, f, first, t.drainOk, t.reapedAfter);
    }
  }

  /** The nodes that a run adds and takes out. */
  ghost function Joins(c: Config, base: int, enabled: bool, s: Sys, ticks: seq<Tick>): nat
    decreases |ticks|
  {
    if ticks == [] then 0 else
      (if Decides(c, enabled, s, ticks[0]).ScaleOut? && ticks[0].joinOk then 1 else 0)
      + Joins(c, base, enabled, Ticked(c, base, enabled, s, ticks[0]), ticks[1..])
  }

  ghost function Drains(c: Config, base: int, enabled: bool, s: Sys, ticks: seq<Tick>): nat
    decreases |ticks|
  {
    if ticks == [] then 0 else
      (if Decides(c, enabled, s, ticks[0]).ScaleIn? && ticks[0].drainOk then 1 else 0)
      + Drains(c, base, enabled, Ticked(c, base, enabled, s, ticks[0]), ticks[1..])
  }

  /** Over a run the fleet grows by the accepted joins and shrinks by the accepted drains, and so does the capacity. */
  lemma {:induction false} FleetBalance(c: Config, base: int, enabled: bool, s: Sys, ticks: seq<Tick>, first: string)
    requires Usable(c) && Good(s.fleet, first, base)
    ensures var f := Run(c, base, enabled, s, ticks).fleet;
      var gained := Joins(c, base, enabled, s, ticks) - Drains(c, base, enabled, s, ticks);
      |f.ready| == |s.fleet.ready| + gained && f.capacity == PerNode(base) * |f.ready|
    decreases |ticks|
  {
    if ticks == [] {
      CapacityIsProportional(s.fleet, first, base);
    } else {
      TickExactly(c, base, enabled, s, ticks[0], first);
      TickKeepsGood(c, base, enabled, s, ticks[0], first);
      FleetBalance(c, base, enabled, Ticked(c, base, enabled, s, ticks[0]), ticks[1..], first);
    }
  }

  ghost function Run(c: Config, base: int, enabled: bool, s: Sys, ticks: seq<Tick>): Sys
    decreases |ticks|
  {
    if ticks == [] then s else Run(c, base, enabled, Ticked(c, base, enabled, s, ticks[0]), ticks[1..])
  }

  function Min(a: int, b: int): int { if a < b then a else b }

  function Max(a: int, b: int): int { if a < b then b else a }

  /**
   Autoscale safety over whole runs, whatever the control plane answers. The ready count stays between the minimum and
   the maximum once it is there, and never drifts further out when it starts outside.
   */
  lemma {:induction false} AutoscaleSafety(c: Config, base: int, enabled: bool, s: Sys, ticks: seq<Tick>, first: string)
    requires Usable(c) && Good(s.fleet, first, base)
    ensures var f := Run(c, base, enabled, s, ticks).fleet;
      && Good(f, first, base)
      && Min(|s.fleet.ready|, c.minNodes) <= |f.ready| <= Max(|s.fleet.ready|, c.maxNodes)
    decreases |ticks|
  {
    if ticks != [] {
      TickKeepsGood(c, base, enabled, s, ticks[0], first);
      TickMoves(c, base, enabled, s, ticks[0], first);
      AutoscaleSafety(c, base, enabled, Ticked(c, base, enabled, s, ticks[0]), ticks[1..], first);
    }
  }

  /** In a good fleet the scheduler's limit is the per-node limit times the ready count. */
  lemma CapacityIsProportional(f: Fleet, first: string, base: int)
    requires Good(f, first, base)
    ensures f.capacity == (if base <= 0 then 1 else base) * |f.ready|
  {
    var b := if base <= 0 then 1 else base;
    assert b * |f.ready| >= b * 1;
  }

  /** The server's own start, one node `worker-0`, is good. */
  lemma ServerStartIsGood(base: int)
    ensures Good(Fleet([Name(0)], {}, 0, Limit(base, 1)), "worker-0", base)
  {
    assert Name(0) == "worker-0" by {
      assert Decimal(0) == "0";
    }
    ScanReadsBack(0);
    ScannedIsOld(Name(0), 0);
  }

  /** The ids a run asks the control plane to join, in order. */
  ghost function Issued(c: Config, base: int, enabled: bool, s: Sys, ticks: seq<Tick>): seq<string>
    decreases |ticks|
  {
    if ticks == [] then [] else
      var next := Ticked(c, base, enabled, s, ticks[0]);
      (if next.fleet.top > s.fleet.top then [Name(next.fleet.top)] else []) + Issued(c, base, enabled, next, ticks[1..])
  }

  predicate Consecutive(ids: seq<string>, top: nat) {
    forall i :: 0 <= i < |ids| ==> ids[i] == Name(top + 1 + i)
  }

  lemma ConsecutiveMore(rest: seq<string>, top: nat)
    requires Consecutive(rest, top + 1)
    ensures Consecutive([Name(top + 1)] + rest, top)
  {
    var ids := [Name(top + 1)] + rest;
    forall i | 0 <= i < |ids| ensures ids[i] == Name(top + 1 + i) {
      assert i > 0 ==> ids[i] == rest[i - 1];
    }
  }

  lemma {:induction false} IssuedInOrder(c: Config, base: int, enabled: bool, s: Sys, ticks: seq<Tick>)
    ensures Consecutive(Issued(c, base, enabled, s, ticks), s.fleet.top)
    decreases |ticks|
  {
    if ticks != [] {
      var next := Ticked(c, base, enabled, s, ticks[0]);
      assert next.fleet.top == s.fleet.top || next.fleet.top == s.fleet.top + 1;
      IssuedInOrder(c, base, enabled, next, ticks[1..]);
      var rest := Issued(c, base, enabled, next, ticks[1..]);
      if next.fleet.top > s.fleet.top {
        ConsecutiveMore(rest, s.fleet.top);
      } else {
        assert [] + rest == rest;
      }
    }
  }

  lemma ConsecutiveAreNew(ids: seq<string>, top: nat)
    requires Consecutive(ids, top)
    ensures Distinct(ids)
    ensures forall id :: Old(id, top) ==> id !in ids
  {
    forall i, j | 0 <= i < j < |ids| ensures ids[i] != ids[j] {
      if ids[i] == ids[j] {
        NameInjective(top + 1 + i, top + 1 + j);
      }
    }
    forall id | Old(id, top) ensures id !in ids {
      forall i | 0 <= i < |ids| ensures ids[i] != id {
        HigherIsNew(id, top, top + 1 + i);
      }
    }
  }

  /** No id is issued twice, and none that was ever ready or draining before the run is issued again. */
  lemma NeverReissued(c: Config, base: int, enabled: bool, s: Sys, ticks: seq<Tick>, first: string)
    requires Good(s.fleet, first, base)
    ensures Distinct(Issued(c, base, enabled, s, ticks))
    ensures forall id :: id in s.fleet.ready || id in s.fleet.draining ==> id !in Issued(c, base, enabled, s, ticks)
  {
    IssuedInOrder(c, base, enabled, s, ticks);
    ConsecutiveAreNew(Issued(c, base, enabled, s, ticks), s.fleet.top);
  }

  /** The only node a tick can add to the route table is a newly named one. */
  lemma TickAddsOnlyNew(c: Config, base: int, enabled: bool, s: Sys, t: Tick, first: string, id: string)
    requires Usable(c) && Good(s.fleet, first, base)
    requires Old(id, s.fleet.top) && id !in s.fleet.ready
    ensures var f := Ticked(c, base, enabled, s, t).fleet;
      id !in f.ready && Old(id, f.top)
  {
    var f := Reaped(s.fleet, t.reaped);
    OldStays(id, f.top);
    FailedDrainRestores(base, f, t.reapedAfter);
    assert id !in GrownFleet(base, f, t.joinOk).ready;
  }

  /** A node that has left the route table is never routed to again. */
  lemma {:induction false} DrainedNeverReturns(
    c: Config, base: int, enabled: bool, s: Sys, ticks: seq<Tick>, first: string, id: string)
    requires Usable(c) && Good(s.fleet, first, base)
    requires Old(id, s.fleet.top) && id !in s.fleet.ready
    ensures id !in Run(c, base, enabled, s, ticks).fleet.ready
    decreases |ticks|
  {
    if ticks != [] {
      TickKeepsGood(c, base, enabled, s, ticks[0], first);
      TickAddsOnlyNew(c, base, enabled, s, ticks[0], first, id);
      DrainedNeverReturns(c, base, enabled, Ticked(c, base, enabled, s, ticks[0]), ticks[1..], first, id);
    }
  }
}
