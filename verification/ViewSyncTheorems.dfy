/** Replication safety and convergence of the view protocol over whole runs, and exactly when a resume is unsafe. */
module ViewSyncTheorems {
  import opened Views
  import opened ViewSync

  // ---------------------------------------------------------------- the invariant

  ghost predicate AllGenuine(epochs: seq<Epoch>, msgs: seq<Msg>) {
    forall i :: 0 <= i < |msgs| ==> Genuine(epochs, msgs[i])
  }

  /** Within one process each life begins where the previous one ended. */
  ghost predicate Lives(s: Sys) {
    && s.process < |s.epochs| && s.cap >= 1
    && (forall i :: s.process <= i < |s.epochs| - 1 ==> EndSeq(s.epochs[i]) == s.epochs[i + 1].baseSeq)
    && s.epochs[Current(s)].baseSeq < s.floor <= LastSeq(s) + 1
    && (forall k :: 0 <= k < |s.epochs[Current(s)].log| ==> s.epochs[Current(s)].log[k] != [])
  }

  /** A broadcast position inside the running process. */
  ghost predicate OnAir(epochs: seq<Epoch>, process: nat, pos: Pos) {
    && process <= pos.epoch < |epochs|
    && InRange(epochs[pos.epoch], pos.at)
    && (pos.half ==> pos.at == epochs[pos.epoch].baseSeq)
  }

  /** What may follow a position in the broadcast stream. */
  predicate Succeeds(pos: Pos, m: Msg) {
    match m
    case Anchor(e, at) => pos == Pos(e, at, true)
    case Inc(e, at, _) => !pos.half && pos.epoch == e && pos.at + 1 == at
    case Snap(e, at, _) => !pos.half && pos.epoch + 1 == e && pos.at == at
  }

  function Present(epochs: seq<Epoch>): Pos
    requires epochs != []
  {
    Pos(|epochs| - 1, EndSeq(epochs[|epochs| - 1]), false)
  }

  /** The queue holds exactly the broadcasts from `pos` to the present. */
  ghost predicate Chain(epochs: seq<Epoch>, process: nat, pos: Pos, rx: seq<Msg>)
    requires epochs != []
    decreases |rx|
  {
    && OnAir(epochs, process, pos)
    && if rx == [] then pos == Present(epochs)
       else Succeeds(pos, rx[0]) && Genuine(epochs, rx[0]) && Chain(epochs, process, Advance(pos, rx[0]), rx[1..])
  }

  /** The watermark (e, last) is at or after `pos` on the broadcast path. */
  ghost predicate Ahead(epochs: seq<Epoch>, pos: Pos, e: nat, last: nat) {
    && pos.epoch < |epochs| && pos.epoch <= e
    && if pos.epoch == e then pos.at <= last else EndSeq(epochs[pos.epoch]) <= last
  }

  /** What the real server sends: allowed, and never more than one ahead. */
  predicate AllSteady(c: Cursor, msgs: seq<Msg>)
    decreases |msgs|
  {
    msgs == [] ||
    (Allowed(c, msgs[0]) && (msgs[0].Inc? ==> msgs[0].at <= c.at + 1) && AllSteady(Flow(c, msgs[0]), msgs[1..]))
  }

  lemma {:induction false} SteadyAppend(c: Cursor, a: seq<Msg>, b: seq<Msg>)
    requires AllSteady(c, a) && AllSteady(FlowAll(c, a), b)
    ensures AllSteady(c, a + b)
    decreases |a|
  {
    if a == [] {
      assert a + b == b;
    } else {
      assert (a + b)[1..] == a[1..] + b;
      SteadyAppend(Flow(c, a[0]), a[1..], b);
    }
  }

  ghost predicate OpenOk(s: Sys)
    requires s.epochs != [] && s.conn.Open?
  {
    var end := FlowAll(s.cursor, s.conn.pipe);
    && Chain(s.epochs, s.process, s.conn.pos, s.conn.rx)
    && AllGenuine(s.epochs, s.conn.pipe)
    && AllSteady(s.cursor, s.conn.pipe)
    && match end
       case Unsynced => false
       case Loaded(e, n) => s.conn.last == 0 && s.conn.pos == Pos(e, n, true)
       case Synced(e, n) => s.process <= e < |s.epochs| && n == s.conn.last && Ahead(s.epochs, s.conn.pos, e, n)
  }

  ghost predicate ConnOk(s: Sys)
    requires s.epochs != []
  {
    match s.conn
    case Closed => true
    case Opening(resume, rx, pos) => resume == s.mirror.lastSeq && Chain(s.epochs, s.process, pos, rx)
    case Open(_, _, _, _) => OpenOk(s)
    case Broken(pipe) => AllGenuine(s.epochs, pipe) && AllSteady(s.cursor, pipe)
  }

  ghost predicate Inv(s: Sys) {
    Lives(s) && Tracks(s.epochs, s.mirror, s.cursor) && ConnOk(s)
  }

  /** A resume is answered safely when it comes from the present life or falls back to a snapshot. */
  ghost predicate SafeResume(s: Sys, step: Step)
    requires s.epochs != []
  {
    step.Begin? && s.conn.Opening? && Replays(s, s.conn.resume) ==> s.cursor == Synced(Current(s), s.conn.resume)
  }

  // ---------------------------------------------------------------- the log only grows

  /** `s1` knows everything about the log that `s` knew. */
  ghost predicate Grows(a: seq<Epoch>, b: seq<Epoch>) {
    && |a| <= |b|
    && forall i :: 0 <= i < |a| ==> b[i].base == a[i].base && b[i].baseSeq == a[i].baseSeq && a[i].log <= b[i].log
  }

  lemma ViewGrows(a: Epoch, b: Epoch, n: nat)
    requires b.base == a.base && b.baseSeq == a.baseSeq && a.log <= b.log && InRange(a, n)
    ensures InRange(b, n) && ViewAt(b, n) == ViewAt(a, n)
  {
    assert b.log[..n - b.baseSeq] == a.log[..n - a.baseSeq];
  }

  lemma GenuineGrows(a: seq<Epoch>, b: seq<Epoch>, m: Msg)
    requires Grows(a, b) && Genuine(a, m)
    ensures Genuine(b, m)
  {
    ViewGrows(a[m.epoch], b[m.epoch], m.at);
  }

  lemma AllGenuineGrows(a: seq<Epoch>, b: seq<Epoch>, msgs: seq<Msg>)
    requires Grows(a, b) && AllGenuine(a, msgs)
    ensures AllGenuine(b, msgs)
  {
    forall i | 0 <= i < |msgs| ensures Genuine(b, msgs[i]) { GenuineGrows(a, b, msgs[i]); }
  }

  lemma TracksGrows(a: seq<Epoch>, b: seq<Epoch>, m: Mirror, c: Cursor)
    requires Grows(a, b) && Tracks(a, m, c)
    ensures Tracks(b, m, c)
  {
    if !c.Unsynced? { ViewGrows(a[c.epoch], b[c.epoch], c.at); }
  }

  // ---------------------------------------------------------------- the broadcast path

  lemma {:induction false} EndsMonotone(s: Sys, i: nat, j: nat)
    requires Lives(s) && s.process <= i <= j < |s.epochs|
    ensures EndSeq(s.epochs[i]) <= EndSeq(s.epochs[j])
    decreases j - i
  {
    if i < j { EndsMonotone(s, i + 1, j); }
  }

  lemma PresentIsAhead(s: Sys, pos: Pos)
    requires Lives(s) && OnAir(s.epochs, s.process, pos)
    ensures Ahead(s.epochs, pos, Current(s), LastSeq(s))
  {
    EndsMonotone(s, pos.epoch, Current(s));
  }

  lemma {:induction false} ChainSuffix(s: Sys, pos: Pos, rx: seq<Msg>, k: nat)
    requires s.epochs != [] && Chain(s.epochs, s.process, pos, rx) && k <= |rx|
    ensures Chain(s.epochs, s.process, AdvanceAll(pos, rx[..k]), rx[k..])
    decreases k
  {
    if k > 0 {
      ChainSuffix(s, Advance(pos, rx[0]), rx[1..], k - 1);
      assert rx[..k][0] == rx[0] && rx[..k][1..] == rx[1..][..k - 1] && rx[1..][k - 1..] == rx[k..];
    } else {
      assert rx[0..] == rx;
    }
  }

  /** One more broadcast extends every queue's chain to the new present. */
  lemma {:induction false} ChainExtends(s: Sys, s1: Sys, pos: Pos, rx: seq<Msg>, more: seq<Msg>)
    requires s.epochs != [] && s1.epochs != [] && Chain(s.epochs, s.process, pos, rx)
    requires Grows(s.epochs, s1.epochs) && s1.process == s.process
    requires Chain(s1.epochs, s1.process, Present(s.epochs), more)
    ensures Chain(s1.epochs, s1.process, pos, rx + more)
    decreases |rx|
  {
    if rx == [] {
      assert rx + more == more;
    } else {
      GenuineGrows(s.epochs, s1.epochs, rx[0]);
      ChainExtends(s, s1, Advance(pos, rx[0]), rx[1..], more);
      assert (rx + more)[1..] == rx[1..] + more;
    }
  }

  lemma CommitChain(s: Sys, batch: seq<Event>)
    requires Lives(s) && batch != []
    ensures var s1 := CommitOne(s, batch);
      && Grows(s.epochs, s1.epochs) && Lives(s1)
      && Chain(s1.epochs, s1.process, Present(s.epochs), [Inc(Current(s), LastSeq(s) + 1, batch)])
  {
    var s1 := CommitOne(s, batch);
    var m := Inc(Current(s), LastSeq(s) + 1, batch);
    assert Genuine(s1.epochs, m);
    assert Chain(s1.epochs, s1.process, Advance(Present(s.epochs), m), [m][1..]);
  }

  lemma RestoreChain(s: Sys, base: View, events: seq<Event>)
    requires Lives(s) && IsSnapshot(base, events)
    ensures var s1 := RestoreOne(s, base, events);
      && Grows(s.epochs, s1.epochs) && Lives(s1)
      && Chain(s1.epochs, s1.process, Present(s.epochs), WithAnchor(|s.epochs|, LastSeq(s), events))
  {
    var s1 := RestoreOne(s, base, events);
    var n := LastSeq(s);
    var m := Snap(|s.epochs|, n, events);
    assert ViewAt(s1.epochs[|s.epochs|], n) == base;
    assert Genuine(s1.epochs, m);
    if n > 0 {
      var a := Anchor(|s.epochs|, n);
      assert Genuine(s1.epochs, a);
      assert Chain(s1.epochs, s1.process, Pos(|s.epochs|, n, false), []);
      assert [m, a][1..] == [a] && [a][1..] == [];
      assert Chain(s1.epochs, s1.process, Pos(|s.epochs|, n, true), [a]);
    } else {
      assert [m][1..] == [];
      assert Chain(s1.epochs, s1.process, Pos(|s.epochs|, n, false), []);
    }
  }

  // ---------------------------------------------------------------- steps

  /** Commit and Restore: the log grows and every open queue gets the news. */
  lemma BroadcastKeepsConn(s: Sys, s1: Sys, more: seq<Msg>)
    requires Inv(s) && Lives(s1) && Grows(s.epochs, s1.epochs) && s1.process == s.process
    requires s1.mirror == s.mirror && s1.cursor == s.cursor && s1.conn == Broadcast(s.conn, more)
    requires Chain(s1.epochs, s1.process, Present(s.epochs), more)
    requires forall i :: 0 <= i < Current(s) ==> s1.epochs[i] == s.epochs[i]
    ensures ConnOk(s1)
  {
    match s.conn {
      case Closed =>
      case Opening(_, rx, pos) => ChainExtends(s, s1, pos, rx, more);
      case Broken(pipe) => AllGenuineGrows(s.epochs, s1.epochs, pipe);
      case Open(rx, pos, _, pipe) =>
        ChainExtends(s, s1, pos, rx, more);
        AllGenuineGrows(s.epochs, s1.epochs, pipe);
    }
  }

  lemma CommitShape(s: Sys, batch: seq<Event>)
    requires s.epochs != []
    ensures var s1 := CommitOne(s, batch);
      && s1.process == s.process && s1.mirror == s.mirror && s1.cursor == s.cursor
      && s1.conn == Broadcast(s.conn, [Inc(Current(s), LastSeq(s) + 1, batch)])
      && forall i :: 0 <= i < Current(s) ==> s1.epochs[i] == s.epochs[i]
  { }

  lemma CommitKeepsInv(s: Sys, batch: seq<Event>)
    requires Inv(s) && batch != []
    ensures Inv(CommitOne(s, batch))
  {
    var s1 := CommitOne(s, batch);
    CommitChain(s, batch);
    CommitShape(s, batch);
    TracksGrows(s.epochs, s1.epochs, s.mirror, s.cursor);
    BroadcastKeepsConn(s, s1, [Inc(Current(s), LastSeq(s) + 1, batch)]);
  }

  lemma RestoreKeepsInv(s: Sys, base: View, events: seq<Event>)
    requires Inv(s) && IsSnapshot(base, events)
    ensures Inv(RestoreOne(s, base, events))
  {
    var s1 := RestoreOne(s, base, events);
    RestoreChain(s, base, events);
    TracksGrows(s.epochs, s1.epochs, s.mirror, s.cursor);
    BroadcastKeepsConn(s, s1, WithAnchor(|s.epochs|, LastSeq(s), events));
  }

  lemma RestartKeepsInv(s: Sys)
    requires Inv(s)
    ensures Inv(RestartOne(s))
  {
    var s1 := RestartOne(s);
    assert Grows(s.epochs, s1.epochs);
    TracksGrows(s.epochs, s1.epochs, s.mirror, s.cursor);
    if s.conn.Open? || s.conn.Broken? { AllGenuineGrows(s.epochs, s1.epochs, s.conn.pipe); }
  }

  lemma FlowSingle(c: Cursor, m: Msg)
    ensures FlowAll(c, [m]) == Flow(c, m)
    ensures AllSteady(c, [m]) <==> Allowed(c, m) && (m.Inc? ==> m.at <= c.at + 1)
  {
    assert [m][1..] == [];
  }

  lemma SnapshotFlow(s: Sys, c: Cursor, events: seq<Event>)
    requires Lives(s) && IsSnapshot(ViewAt(s.epochs[Current(s)], LastSeq(s)), events)
    ensures var msgs := WithAnchor(Current(s), LastSeq(s), events);
      AllGenuine(s.epochs, msgs) && AllSteady(c, msgs) && FlowAll(c, msgs) == Synced(Current(s), LastSeq(s))
  {
    var i, n := Current(s), LastSeq(s);
    var m, a := Snap(i, n, events), Anchor(i, n);
    FlowSingle(c, m);
    if n > 0 {
      FlowSingle(Loaded(i, n), a);
      FlowAppend(c, [m], [a]);
      SteadyAppend(c, [m], [a]);
      assert [m, a] == [m] + [a];
    }
  }

  lemma {:induction false} ReplayFlow(epochs: seq<Epoch>, i: nat, from: nat)
    requires i < |epochs| && InRange(epochs[i], from)
    requires forall k :: 0 <= k < |epochs[i].log| ==> epochs[i].log[k] != []
    ensures var msgs := Replay(i, epochs[i], from);
      AllGenuine(epochs, msgs) && AllSteady(Synced(i, from), msgs) &&
      FlowAll(Synced(i, from), msgs) == Synced(i, EndSeq(epochs[i]))
    decreases EndSeq(epochs[i]) - from
  {
    if from < EndSeq(epochs[i]) {
      ReplayFlow(epochs, i, from + 1);
      var m, rest := Inc(i, from + 1, epochs[i].log[from - epochs[i].baseSeq]), Replay(i, epochs[i], from + 1);
      assert ([m] + rest)[1..] == rest;
      assert Genuine(epochs, m);
    }
  }

  lemma BeginKeepsInv(s: Sys, events: seq<Event>)
    requires Inv(s) && Enabled(s, Begin(events)) && SafeResume(s, Begin(events))
    ensures Inv(BeginOne(s, events))
  {
    var i := Current(s);
    PresentIsAhead(s, s.conn.pos);
    if Replays(s, s.conn.resume) {
      ReplayFlow(s.epochs, i, s.conn.resume);
    } else {
      SnapshotFlow(s, s.cursor, events);
    }
  }

  lemma LagPipe(s: Sys, events: seq<Event>)
    requires Lives(s) && s.conn.Open? && AllGenuine(s.epochs, s.conn.pipe) && AllSteady(s.cursor, s.conn.pipe)
    requires IsSnapshot(ViewAt(s.epochs[Current(s)], LastSeq(s)), events)
    ensures var pipe := s.conn.pipe + WithAnchor(Current(s), LastSeq(s), events);
      && AllGenuine(s.epochs, pipe) && AllSteady(s.cursor, pipe)
      && FlowAll(s.cursor, pipe) == Synced(Current(s), LastSeq(s))
  {
    var msgs := WithAnchor(Current(s), LastSeq(s), events);
    SnapshotFlow(s, FlowAll(s.cursor, s.conn.pipe), events);
    FlowAppend(s.cursor, s.conn.pipe, msgs);
    SteadyAppend(s.cursor, s.conn.pipe, msgs);
  }

  lemma LagKeepsInv(s: Sys, dropped: nat, events: seq<Event>)
    requires Inv(s) && Enabled(s, Lag(dropped, events))
    ensures Inv(LagOne(s, dropped, events))
  {
    var rx, pos := s.conn.rx[dropped..], AdvanceAll(s.conn.pos, s.conn.rx[..dropped]);
    ChainSuffix(s, s.conn.pos, s.conn.rx, dropped);
    PresentIsAhead(s, pos);
    LagPipe(s, events);
    SyncedIsOk(s, Open(rx, pos, LastSeq(s), s.conn.pipe + WithAnchor(Current(s), LastSeq(s), events)));
  }

  /** A connection whose stream leads to the present keeps the invariant. */
  lemma SyncedIsOk(s: Sys, c: Conn)
    requires Lives(s) && Tracks(s.epochs, s.mirror, s.cursor) && c.Open? && c.last == LastSeq(s)
    requires Chain(s.epochs, s.process, c.pos, c.rx) && Ahead(s.epochs, c.pos, Current(s), c.last)
    requires AllGenuine(s.epochs, c.pipe) && AllSteady(s.cursor, c.pipe)
    requires FlowAll(s.cursor, c.pipe) == Synced(Current(s), LastSeq(s))
    ensures Inv(s.(conn := c))
  { }

  /** The watermark test of the subscription task: what it lets through always continues the stream. */
  lemma ForwardMessage(s: Sys)
    requires Inv(s) && s.conn.Open? && s.conn.rx != []
    ensures var m, end := s.conn.rx[0], FlowAll(s.cursor, s.conn.pipe);
      var sent := m.Snap? || m.at > s.conn.last;
      && (sent ==> Allowed(end, m))
      && (sent && m.Inc? ==> end.Synced? && m.at == end.at + 1)
      && (!sent ==> end.Synced? && Ahead(s.epochs, Advance(s.conn.pos, m), end.epoch, end.at))
  {
    var end := FlowAll(s.cursor, s.conn.pipe);
    if end.Synced? {
      if s.conn.pos.epoch < end.epoch { assert s.conn.pos.at <= EndSeq(s.epochs[s.conn.pos.epoch]) <= end.at; }
    }
  }

  lemma ForwardFlow(s: Sys)
    requires Inv(s) && s.conn.Open? && s.conn.rx != []
    ensures var c := ForwardOne(s.conn);
      && AllGenuine(s.epochs, c.pipe) && AllSteady(s.cursor, c.pipe)
      && FlowAll(s.cursor, c.pipe) ==
         (if c.pipe == s.conn.pipe then FlowAll(s.cursor, s.conn.pipe)
          else Flow(FlowAll(s.cursor, s.conn.pipe), s.conn.rx[0]))
  {
    var m := s.conn.rx[0];
    ForwardMessage(s);
    FlowAppend(s.cursor, s.conn.pipe, [m]);
    FlowSingle(FlowAll(s.cursor, s.conn.pipe), m);
    if m.Snap? || m.at > s.conn.last { SteadyAppend(s.cursor, s.conn.pipe, [m]); }
  }

  lemma ForwardKeepsInv(s: Sys)
    requires Inv(s) && s.conn.Open? && s.conn.rx != []
    ensures Inv(s.(conn := ForwardOne(s.conn)))
  {
    ForwardMessage(s);
    ForwardFlow(s);
    var c := ForwardOne(s.conn);
    assert Chain(s.epochs, s.process, c.pos, c.rx);
  }

  /** The server never makes the mirror report a gap, and the mirror follows the cursor. */
  lemma DeliverFollows(s: Sys)
    requires Inv(s) && Enabled(s, Deliver)
    ensures var m := s.conn.pipe[0];
      && Genuine(s.epochs, m) && Allowed(s.cursor, m) && Verdict(s.mirror, Wire(m)).Ok?
      && Tracks(s.epochs, Apply(s.mirror, Wire(m)), Flow(s.cursor, m))
      && AllGenuine(s.epochs, s.conn.pipe[1..]) && AllSteady(Flow(s.cursor, m), s.conn.pipe[1..])
      && FlowAll(s.cursor, s.conn.pipe) == FlowAll(Flow(s.cursor, m), s.conn.pipe[1..])
  {
    assert Genuine(s.epochs, s.conn.pipe[0]);
    ApplyFollows(s.epochs, s.mirror, s.cursor, s.conn.pipe[0]);
  }

  lemma DeliverKeepsInv(s: Sys)
    requires Inv(s) && Enabled(s, Deliver)
    ensures Inv(DeliverOne(s))
  {
    DeliverFollows(s);
  }

  lemma ConnectKeepsInv(s: Sys)
    requires Inv(s) && Enabled(s, Connect)
    ensures Inv(Next(s, Connect))
  { }

  /** Every step keeps the invariant, provided resumes are answered safely. */
  lemma StepKeepsInv(s: Sys, step: Step)
    requires Inv(s) && Enabled(s, step) && SafeResume(s, step)
    ensures Inv(Next(s, step))
  {
    match step {
      case Commit(batch) => CommitKeepsInv(s, batch);
      case Restart => RestartKeepsInv(s);
      case Restore(base, events) => RestoreKeepsInv(s, base, events);
      case Connect => ConnectKeepsInv(s);
      case Begin(events) => BeginKeepsInv(s, events);
      case Forward => ForwardKeepsInv(s);
      case Lag(dropped, events) => LagKeepsInv(s, dropped, events);
      case Deliver => DeliverKeepsInv(s);
      case Drop =>
    }
  }

  // ---------------------------------------------------------------- runs

  /** A fresh control plane with a replay buffer of `cap` batches and a fresh, unconnected mirror. */
  function Init(cap: nat): Sys
    requires cap >= 1
  {
    Sys([Epoch(map[], 0, [])], 0, 1, cap, Mirror(0, map[]), Unsynced, Closed)
  }

  ghost predicate Valid(s: Sys, steps: seq<Step>)
    decreases |steps|
  {
    steps == [] || (Enabled(s, steps[0]) && Valid(Next(s, steps[0]), steps[1..]))
  }

  ghost function Final(s: Sys, steps: seq<Step>): Sys
    requires Valid(s, steps)
    decreases |steps|
  {
    if steps == [] then s else Final(Next(s, steps[0]), steps[1..])
  }

  /** Every resume of the run is answered safely. */
  ghost predicate Safe(s: Sys, steps: seq<Step>)
    requires Valid(s, steps)
    decreases |steps|
  {
    steps == [] || (SafeResume(s, steps[0]) && Safe(Next(s, steps[0]), steps[1..]))
  }

  lemma {:induction false} RunKeepsInv(s: Sys, steps: seq<Step>)
    requires Inv(s) && Valid(s, steps) && Safe(s, steps)
    ensures Inv(Final(s, steps))
    decreases |steps|
  {
    if steps != [] {
      StepKeepsInv(s, steps[0]);
      RunKeepsInv(Next(s, steps[0]), steps[1..]);
    }
  }

  /**
   Replication safety. In every run of commits, checkpoint restores, restarts, lagging subscribers, dropped
   connections and reconnects, the mirror is either unsynced (number 0) or equal to the authority's view at its
   number, in the life named by the cursor.
   */
  lemma ReplicationSafety(cap: nat, steps: seq<Step>)
    requires cap >= 1 && Valid(Init(cap), steps) && Safe(Init(cap), steps)
    ensures var s := Final(Init(cap), steps);
      s.mirror.lastSeq == 0 ||
      (s.cursor.Synced? && s.cursor.epoch < |s.epochs| && InRange(s.epochs[s.cursor.epoch], s.mirror.lastSeq) &&
       s.mirror.view == ViewAt(s.epochs[s.cursor.epoch], s.mirror.lastSeq))
  {
    RunKeepsInv(Init(cap), steps);
  }

  /** Convergence: with a connection open and nothing in flight, the mirror is the authority's present view. */
  lemma Convergence(s: Sys)
    requires Inv(s) && s.conn.Open? && s.conn.rx == [] && s.conn.pipe == []
    ensures s.mirror == Mirror(LastSeq(s), ViewAt(s.epochs[Current(s)], LastSeq(s)))
  {
    assert s.cursor.Synced?;
  }

  lemma Prepend(s: Sys, step: Step, rest: seq<Step>)
    requires Enabled(s, step) && Valid(Next(s, step), rest)
    ensures Valid(s, [step] + rest) && Final(s, [step] + rest) == Final(Next(s, step), rest)
  {
    assert ([step] + rest)[1..] == rest;
  }

  /** What the steps of a connection move: the next broadcast into the pipe unless it is old, the next message out. */
  lemma StreamMoves(s: Sys)
    requires Inv(s) && s.conn.Open?
    ensures s.conn.rx != [] ==>
      var c, m := Next(s, Forward).conn, s.conn.rx[0];
      && c.Open? && c.rx == s.conn.rx[1..]
      && c.pipe == s.conn.pipe + if m.Snap? || m.at > s.conn.last then [m] else []
    ensures s.conn.pipe != [] ==>
      var s1 := Next(s, Deliver);
      && s1.conn == s.conn.(pipe := s.conn.pipe[1..]) && s1.mirror == Apply(s.mirror, Wire(s.conn.pipe[0]))
  {
    if s.conn.pipe != [] { DeliverFollows(s); }
  }

  lemma ForwardStep(s: Sys)
    requires Inv(s) && s.conn.Open? && s.conn.rx != []
    ensures Enabled(s, Forward)
    ensures var s1 := Next(s, Forward);
      Inv(s1) && s1.conn.Open? && s1.epochs == s.epochs && |s1.conn.rx| < |s.conn.rx|
  {
    StreamMoves(s);
    ForwardKeepsInv(s);
  }

  lemma DeliverStep(s: Sys)
    requires Inv(s) && s.conn.Open? && s.conn.pipe != []
    ensures Enabled(s, Deliver)
    ensures var s1 := Next(s, Deliver);
      Inv(s1) && s1.conn.Open? && s1.epochs == s.epochs && s1.conn.rx == s.conn.rx && |s1.conn.pipe| < |s.conn.pipe|
  {
    StreamMoves(s);
    DeliverKeepsInv(s);
  }

  /** Forwarding and delivering alone, the steps bring the mirror to the authority's present view. */
  ghost predicate BringsUp(s: Sys, steps: seq<Step>)
    requires s.epochs != [] && InRange(s.epochs[Current(s)], LastSeq(s))
  {
    && (forall i :: 0 <= i < |steps| ==> steps[i] == Forward || steps[i] == Deliver)
    && Valid(s, steps) && Final(s, steps).epochs == s.epochs
    && Final(s, steps).mirror == Mirror(LastSeq(s), ViewAt(s.epochs[Current(s)], LastSeq(s)))
  }

  lemma BringsUpFrom(s: Sys, step: Step, rest: seq<Step>)
    requires Enabled(s, step) && (step == Forward || step == Deliver) && Next(s, step).epochs == s.epochs
    requires BringsUp(Next(s, step), rest)
    ensures BringsUp(s, [step] + rest)
  {
    Prepend(s, step, rest);
  }

  /** Catching up: an open connection that is left alone brings the mirror to the authority's present view. */
  lemma {:induction false} CatchesUp(s: Sys) returns (steps: seq<Step>)
    requires Inv(s) && s.conn.Open?
    ensures BringsUp(s, steps)
    decreases |s.conn.rx|, |s.conn.pipe|
  {
    if s.conn.rx != [] {
      ForwardStep(s);
      var rest := CatchesUp(Next(s, Forward));
      BringsUpFrom(s, Forward, rest);
      steps := [Forward] + rest;
    } else if s.conn.pipe != [] {
      DeliverStep(s);
      var rest := CatchesUp(Next(s, Deliver));
      BringsUpFrom(s, Deliver, rest);
      steps := [Deliver] + rest;
    } else {
      Convergence(s);
      steps := [];
    }
  }

  // ---------------------------------------------------------------- the replay buffer

  function Max(a: int, b: int): int { if a < b then b else a }

  /** The buffer reaches back to the beginning of the present life, and over `cap` batches at most. */
  ghost predicate Buffered(s: Sys) {
    s.epochs != [] && s.cap >= 1 &&
    s.floor == Max(s.epochs[Current(s)].baseSeq + 1, LastSeq(s) + 1 - s.cap)
  }

  lemma StepKeepsBuffer(s: Sys, step: Step)
    requires Buffered(s) && Enabled(s, step)
    ensures Buffered(Next(s, step)) && Next(s, step).cap == s.cap
  { }

  lemma {:induction false} RunKeepsBuffer(s: Sys, steps: seq<Step>)
    requires Buffered(s) && Valid(s, steps)
    ensures Buffered(Final(s, steps)) && Final(s, steps).cap == s.cap
    decreases |steps|
  {
    if steps != [] {
      StepKeepsBuffer(s, steps[0]);
      RunKeepsBuffer(Next(s, steps[0]), steps[1..]);
    }
  }

  /**
   When a resume is answered by a replay, in every run: when the number is one of the present life, after its beginning
   and not after its end, and at most `cap` batches follow it. Otherwise the answer is a snapshot.
   */
  lemma ReplaysExactly(cap: nat, steps: seq<Step>, events: seq<Event>)
    requires cap >= 1 && Valid(Init(cap), steps) && Enabled(Final(Init(cap), steps), Begin(events))
    ensures var s := Final(Init(cap), steps);
      var r, e, last := s.conn.resume, s.epochs[Current(s)], LastSeq(s);
      var pipe := Next(s, Begin(events)).conn.pipe;
      if 0 < r <= last && r >= e.baseSeq && last - r <= cap then
        |pipe| == last - r && forall i :: 0 <= i < |pipe| ==>
          r - e.baseSeq + i < |e.log| && Wire(pipe[i]) == Update(r + 1 + i, e.log[r - e.baseSeq + i])
      else pipe != [] && Wire(pipe[0]) == Update(0, events) && |pipe| == if last > 0 then 2 else 1
  {
    RunKeepsBuffer(Init(cap), steps);
    var s := Final(Init(cap), steps);
    if Replays(s, s.conn.resume) {
      ReplayList(Current(s), s.epochs[Current(s)], s.conn.resume);
    }
  }

  lemma {:induction false} ReplayList(i: nat, e: Epoch, from: nat)
    requires InRange(e, from)
    ensures var msgs := Replay(i, e, from);
      |msgs| == EndSeq(e) - from && forall k :: 0 <= k < |msgs| ==>
        from - e.baseSeq + k < |e.log| && msgs[k] == Inc(i, from + 1 + k, e.log[from - e.baseSeq + k])
    decreases EndSeq(e) - from
  {
    if from < EndSeq(e) {
      ReplayList(i, e, from + 1);
      var rest, msgs := Replay(i, e, from + 1), Replay(i, e, from);
      forall k | 0 <= k < |msgs|
        ensures from - e.baseSeq + k < |e.log| && msgs[k] == Inc(i, from + 1 + k, e.log[from - e.baseSeq + k])
      {
        if k > 0 { assert msgs[k] == rest[k - 1]; }
      }
    }
  }

  // ---------------------------------------------------------------- exactly when a resume is unsafe

  /** What the mirror holds after consuming the whole opening sequence of a subscription. */
  function AfterBegin(s: Sys, events: seq<Event>): Mirror
    requires s.epochs != [] && s.conn.Opening?
    requires Replays(s, s.conn.resume) ==> InRange(s.epochs[Current(s)], s.conn.resume)
  {
    Consume(s.mirror, Wires(BeginOne(s, events).conn.pipe)).0
  }

  lemma {:induction false} SteadyConsumes(epochs: seq<Epoch>, m: Mirror, c: Cursor, msgs: seq<Msg>)
    requires Tracks(epochs, m, c) && AllSteady(c, msgs) && AllGenuine(epochs, msgs)
    ensures Consume(m, Wires(msgs)).1.Ok? && Tracks(epochs, Consume(m, Wires(msgs)).0, FlowAll(c, msgs))
    decreases |msgs|
  {
    if msgs != [] {
      ApplyFollows(epochs, m, c, msgs[0]);
      assert Wires(msgs)[1..] == Wires(msgs[1..]);
      SteadyConsumes(epochs, Apply(m, Wire(msgs[0])), Flow(c, msgs[0]), msgs[1..]);
    }
  }

  /** If the resume point falls back to a snapshot, the mirror comes out right whatever it held before. */
  lemma FallbackIsSafe(s: Sys, events: seq<Event>)
    requires Inv(s) && Enabled(s, Begin(events)) && !Replays(s, s.conn.resume)
    ensures AfterBegin(s, events) == Mirror(LastSeq(s), ViewAt(s.epochs[Current(s)], LastSeq(s)))
  {
    SnapshotFlow(s, s.cursor, events);
    SteadyConsumes(s.epochs, s.mirror, s.cursor, WithAnchor(Current(s), LastSeq(s), events));
  }

  const NS := Namespace("m", "", 1)
  const BLOCK_A := BlockId(NS, [0])
  const BLOCK_B := BlockId(NS, [1])
  const NOWHERE := Entry([], false, 0)

  /** A life that begins empty at number `b` and announces the same block `n` times. */
  function Announcing(id: BlockId, b: nat, n: nat): Epoch {
    Epoch(map[], b, seq(n, _ => [Announce(id, NOWHERE)]))
  }

  lemma {:induction false} AnnouncingView(id: BlockId, b: nat, n: nat, k: nat)
    requires k <= n
    ensures ViewAt(Announcing(id, b, n), b + k) == if k == 0 then map[] else map[id := NOWHERE]
  {
    var e := Announcing(id, b, n);
    if k > 0 {
      AnnouncingView(id, b, n, k - 1);
      FoldStep(e, b + k - 1);
      var ev, v := Announce(id, NOWHERE), ViewAt(e, b + k - 1);
      assert e.log[k - 1] == [ev] && [ev][..0] == [];
      assert ApplyEvents(v, [ev]) == ApplyEvent(ApplyEvents(v, []), ev);
    }
  }

  /**
   A mirror at number `r` of one process asks another one, which reached `b`, had its authority rebuilt there by a
   checkpoint, and committed up to `n` since. With `b == 0` this is a plain restart.
   */
  function Stale(r: nat, b: nat, n: nat, floor: nat): Sys
    requires b <= n
  {
    Sys([Announcing(BLOCK_A, 0, r), Announcing(BLOCK_B, 0, b), Announcing(BLOCK_B, b, n - b)], 1, floor, n + 1,
        Mirror(r, map[BLOCK_A := NOWHERE]), Synced(0, r), Opening(r, [], Pos(2, n, false)))
  }

  lemma {:induction false} ReplayKeepsStranger(i: nat, e: Epoch, from: nat, m: Mirror, id: BlockId)
    requires InRange(e, from) && m.lastSeq == from && BLOCK_A in m.view && id != BLOCK_A
    requires forall k :: 0 <= k < |e.log| ==> e.log[k] == [Announce(id, NOWHERE)]
    ensures var r := Consume(m, Wires(Replay(i, e, from))); BLOCK_A in r.0.view && r.0.lastSeq == EndSeq(e)
    decreases EndSeq(e) - from
  {
    if from < EndSeq(e) {
      var ev := Announce(id, NOWHERE);
      var u := Update(from + 1, [ev]);
      var msgs := Replay(i, e, from);
      assert msgs[1..] == Replay(i, e, from + 1);
      assert Wires(msgs)[1..] == Wires(msgs[1..]);
      assert [ev][..0] == [] && ApplyEvents(m.view, [ev]) == ApplyEvent(ApplyEvents(m.view, []), ev);
      ReplayKeepsStranger(i, e, from + 1, Apply(m, u), id);
    }
  }

  /** The mirror comes out of the opening sequence of its subscription equal to the authority. */
  ghost predicate ComesOutRight(s: Sys, events: seq<Event>)
    requires Enabled(s, Begin(events))
  {
    AfterBegin(s, events) == Mirror(LastSeq(s), ViewAt(s.epochs[Current(s)], LastSeq(s)))
  }

  /** A subscription whose mirror stands for another life than the present one, with the numbers the server sees. */
  ghost predicate Resumes(s: Sys, r: nat, b: nat, n: nat, floor: nat) {
    && Inv(s) && s.conn.Opening? && s.conn.resume == r
    && s.epochs[Current(s)].baseSeq == b && LastSeq(s) == n && s.floor == floor
    && s.cursor.Synced? && s.cursor.epoch != Current(s)
  }

  lemma StaleResumes(r: nat, b: nat, n: nat, floor: nat)
    requires 1 <= r && b < floor <= n + 1
    ensures Resumes(Stale(r, b, n, floor), r, b, n, floor)
    ensures BLOCK_A !in ViewAt(Stale(r, b, n, floor).epochs[2], n)
  {
    AnnouncingView(BLOCK_A, 0, r, r);
    AnnouncingView(BLOCK_B, b, n - b, n - b);
  }

  /** When the numbers let the server replay, the mirror keeps a block that the authority does not have. */
  lemma StaleResumeDiverges(r: nat, b: nat, n: nat, floor: nat, events: seq<Event>)
    requires 1 <= r && b < floor <= n + 1 && r <= n && r + 1 >= floor && Enabled(Stale(r, b, n, floor), Begin(events))
    ensures var s := Stale(r, b, n, floor);
      && AfterBegin(s, events).lastSeq == LastSeq(s)
      && BLOCK_A in AfterBegin(s, events).view && BLOCK_A !in ViewAt(s.epochs[Current(s)], LastSeq(s))
  {
    var s := Stale(r, b, n, floor);
    StaleResumes(r, b, n, floor);
    ReplayKeepsStranger(2, s.epochs[2], r, s.mirror, BLOCK_B);
  }

  /**
   Exactly when a resume from another life is safe. For the numbers that the server decides by, every mirror of
   another life comes out right, whatever it holds and whatever the authority holds, if and only if the server falls
   back to a snapshot: the resume point is past the last number or its successor is below the floor of the buffer.
   */
  lemma ResumeSafeExactly(r: nat, b: nat, n: nat, floor: nat)
    requires 1 <= r && b < floor <= n + 1
    ensures (forall s, events :: Resumes(s, r, b, n, floor) && Enabled(s, Begin(events)) ==> ComesOutRight(s, events))
      <==> r > n || r + 1 < floor
  {
    if r > n || r + 1 < floor {
      forall s, events | Resumes(s, r, b, n, floor) && Enabled(s, Begin(events)) ensures ComesOutRight(s, events) {
        FallbackIsSafe(s, events);
      }
    } else {
      var s := Stale(r, b, n, floor);
      StaleResumes(r, b, n, floor);
      SnapshotExists(ViewAt(s.epochs[2], n));
      var events :| IsSnapshot(ViewAt(s.epochs[2], n), events);
      assert Enabled(s, Begin(events));
      StaleResumeDiverges(r, b, n, floor, events);
      assert !ComesOutRight(s, events);
    }
  }

  const EVENT_A := Announce(BLOCK_A, NOWHERE)
  const SYNC_STEPS := [Commit([EVENT_A]), Connect, Begin([EVENT_A]), Deliver, Deliver]
  const EVENT_B := Announce(BLOCK_B, NOWHERE)
  const RESTART_STEPS := [Restart, Drop, Commit([EVENT_B]), Connect]
  const RESTORE_STEPS := [Drop, Restore(map[], []), Commit([EVENT_B]), Connect]

  /** One batch committed; the mirror may hold its block. */
  function OneBatch(m: Mirror, c: Cursor, conn: Conn): Sys {
    Sys([Announcing(BLOCK_A, 0, 1)], 0, 1, 2, m, c, conn)
  }

  const HELD_A: View := map[BLOCK_A := NOWHERE]
  const HERE := Pos(0, 1, false)

  lemma SyncDeliveries(rest: seq<Step>)
    requires Valid(OneBatch(Mirror(1, HELD_A), Synced(0, 1), Open([], HERE, 1, [])), rest)
    ensures var s := OneBatch(Mirror(0, map[]), Unsynced, Open([], HERE, 1, [Snap(0, 1, [EVENT_A]), Anchor(0, 1)]));
      Valid(s, [Deliver] + ([Deliver] + rest)) &&
      Final(s, [Deliver] + ([Deliver] + rest)) ==
      Final(OneBatch(Mirror(1, HELD_A), Synced(0, 1), Open([], HERE, 1, [])), rest)
  {
    var snap, anchor := Snap(0, 1, [EVENT_A]), Anchor(0, 1);
    var s3 := OneBatch(Mirror(0, map[]), Unsynced, Open([], HERE, 1, [snap, anchor]));
    var s4 := OneBatch(Mirror(0, HELD_A), Loaded(0, 1), Open([], HERE, 1, [anchor]));
    var s5 := OneBatch(Mirror(1, HELD_A), Synced(0, 1), Open([], HERE, 1, []));
    assert IsSnapshot(HELD_A, [EVENT_A]);
    SnapshotRebuilds(HELD_A, [EVENT_A]);
    assert [snap, anchor][1..] == [anchor] && [anchor][1..] == [];
    assert DeliverOne(s3) == s4;
    assert DeliverOne(s4) == s5;
    Prepend(s4, Deliver, rest);
    Prepend(s3, Deliver, [Deliver] + rest);
  }

  lemma SyncRun(rest: seq<Step>)
    requires Valid(OneBatch(Mirror(1, HELD_A), Synced(0, 1), Open([], HERE, 1, [])), rest)
    ensures Valid(Init(2), SYNC_STEPS + rest)
    ensures Final(Init(2), SYNC_STEPS + rest) ==
      Final(OneBatch(Mirror(1, HELD_A), Synced(0, 1), Open([], HERE, 1, [])), rest)
  {
    var s1 := OneBatch(Mirror(0, map[]), Unsynced, Closed);
    var s2 := s1.(conn := Opening(0, [], HERE));
    var s3 := s1.(conn := Open([], HERE, 1, [Snap(0, 1, [EVENT_A]), Anchor(0, 1)]));
    AnnouncingView(BLOCK_A, 0, 1, 1);
    assert IsSnapshot(HELD_A, [EVENT_A]);
    assert CommitOne(Init(2), [EVENT_A]).epochs[0] == Announcing(BLOCK_A, 0, 1);
    assert Next(Init(2), Commit([EVENT_A])) == s1;
    assert BeginOne(s2, [EVENT_A]) == s3;
    SyncDeliveries(rest);
    var tail := [Deliver] + ([Deliver] + rest);
    Prepend(s2, Begin([EVENT_A]), tail);
    Prepend(s1, Connect, [Begin([EVENT_A])] + tail);
    Prepend(Init(2), Commit([EVENT_A]), [Connect] + ([Begin([EVENT_A])] + tail));
    assert SYNC_STEPS + rest == [Commit([EVENT_A])] + ([Connect] + ([Begin([EVENT_A])] + tail));
  }

  /** A mirror synced in the first life asks a server whose present life is `life`, announcing only the other block. */
  function Waiting(process: nat, life: Epoch, floor: nat, conn: Conn): Sys {
    Sys([Announcing(BLOCK_A, 0, 1), life], process, floor, 2, Mirror(1, HELD_A), Synced(0, 1), conn)
  }

  /** Reached by a restart: nine steps after which the resume is replayed and goes wrong. */
  lemma RestartIsReached()
    ensures Valid(Init(2), SYNC_STEPS + RESTART_STEPS)
    ensures Final(Init(2), SYNC_STEPS + RESTART_STEPS) ==
      Waiting(1, Announcing(BLOCK_B, 0, 1), 1, Opening(1, [], Pos(1, 1, false)))
  {
    var b := Commit([EVENT_B]);
    var s0 := OneBatch(Mirror(1, HELD_A), Synced(0, 1), Open([], HERE, 1, []));
    var s1 := Waiting(1, Epoch(map[], 0, []), 1, Broken([]));
    var s2 := s1.(conn := Closed);
    var s3 := Waiting(1, Announcing(BLOCK_B, 0, 1), 1, Closed);
    assert RestartOne(s0) == s1;
    assert CommitOne(s2, [EVENT_B]).epochs[1] == Announcing(BLOCK_B, 0, 1);
    assert Next(s2, b) == s3;
    Prepend(s3, Connect, []);
    Prepend(s2, b, [Connect] + []);
    Prepend(s1, Drop, [b] + ([Connect] + []));
    Prepend(s0, Restart, [Drop] + ([b] + ([Connect] + [])));
    assert RESTART_STEPS == [Restart] + ([Drop] + ([b] + ([Connect] + [])));
    SyncRun(RESTART_STEPS);
  }

  /** Reached by a checkpoint restore while the mirror is away, with one more batch committed since. */
  lemma RestoreIsReached()
    ensures Valid(Init(2), SYNC_STEPS + RESTORE_STEPS)
    ensures Final(Init(2), SYNC_STEPS + RESTORE_STEPS) ==
      Waiting(0, Announcing(BLOCK_B, 1, 1), 2, Opening(1, [], Pos(1, 2, false)))
  {
    var b, r := Commit([EVENT_B]), Restore(map[], []);
    var s0 := OneBatch(Mirror(1, HELD_A), Synced(0, 1), Open([], HERE, 1, []));
    var s1 := s0.(conn := Closed);
    var s2 := Waiting(0, Epoch(map[], 1, []), 2, Closed);
    var s3 := Waiting(0, Announcing(BLOCK_B, 1, 1), 2, Closed);
    assert RestoreOne(s1, map[], []) == s2;
    assert CommitOne(s2, [EVENT_B]).epochs[1] == Announcing(BLOCK_B, 1, 1);
    assert Next(s2, b) == s3;
    Prepend(s3, Connect, []);
    Prepend(s2, b, [Connect] + []);
    Prepend(s1, r, [b] + ([Connect] + []));
    Prepend(s0, Drop, [r] + ([b] + ([Connect] + [])));
    assert RESTORE_STEPS == [Drop] + ([r] + ([b] + ([Connect] + [])));
    SyncRun(RESTORE_STEPS);
  }

  /** Both reached situations are replayed and end at the present number with a block the authority does not have. */
  lemma ReachedDiverge(byRestart: bool, events: seq<Event>)
    requires Enabled(ReachedState(byRestart), Begin(events))
    ensures var s := ReachedState(byRestart);
      && Replays(s, s.conn.resume) && AfterBegin(s, events).lastSeq == LastSeq(s)
      && BLOCK_A in AfterBegin(s, events).view && BLOCK_A !in ViewAt(s.epochs[Current(s)], LastSeq(s))
  {
    var s := ReachedState(byRestart);
    AnnouncingView(BLOCK_B, if byRestart then 0 else 1, 1, 1);
    ReplayKeepsStranger(1, s.epochs[1], 1, s.mirror, BLOCK_B);
  }

  function ReachedState(byRestart: bool): Sys {
    if byRestart then Waiting(1, Announcing(BLOCK_B, 0, 1), 1, Opening(1, [], Pos(1, 1, false)))
    else Waiting(0, Announcing(BLOCK_B, 1, 1), 2, Opening(1, [], Pos(1, 2, false)))
  }

  // ---------------------------------------------------------------- runs without a rebuilt authority

  /** No step of the run rebuilds the authority. */
  predicate OneLife(steps: seq<Step>) {
    forall i :: 0 <= i < |steps| ==> !steps[i].Restart? && !steps[i].Restore?
  }

  lemma {:induction false} OneLifeIsSafe(s: Sys, steps: seq<Step>)
    requires Inv(s) && |s.epochs| == 1 && Valid(s, steps) && OneLife(steps)
    ensures Safe(s, steps)
    decreases |steps|
  {
    if steps != [] {
      assert SafeResume(s, steps[0]);
      StepKeepsInv(s, steps[0]);
      OneLifeIsSafe(Next(s, steps[0]), steps[1..]);
    }
  }

  /** As long as the authority is not rebuilt, replication is safe in every run without any further condition. */
  lemma OneLifeReplication(cap: nat, steps: seq<Step>)
    requires cap >= 1 && Valid(Init(cap), steps) && OneLife(steps)
    ensures var s := Final(Init(cap), steps);
      s.mirror.lastSeq == 0 ||
      (s.cursor.Synced? && s.cursor.epoch < |s.epochs| && InRange(s.epochs[s.cursor.epoch], s.mirror.lastSeq) &&
       s.mirror.view == ViewAt(s.epochs[s.cursor.epoch], s.mirror.lastSeq))
  {
    OneLifeIsSafe(Init(cap), steps);
    ReplicationSafety(cap, steps);
  }
}
