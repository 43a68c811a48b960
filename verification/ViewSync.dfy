/**
 The view protocol between the control plane and a mirror: the authority's log and replay buffer
 (rust/controlplane/src/view.rs), the subscription task (rust/controlplane/src/lib.rs), and the consuming side
 (go/router/viewsync.go). Messages carry a label saying which life of the authority produced them; the label is
 for the proofs only and never reaches the wire.
 */
module ViewSync {
  import opened Views

  // ---------------------------------------------------------------- the authority

  /**
   One life of the authority's state: a base view at `baseSeq` and the batches committed since. A process restart
   begins a life at 0; restoring a checkpoint begins one at the current number.
   */
  datatype Epoch = Epoch(base: View, baseSeq: nat, log: seq<seq<Event>>)

  function EndSeq(e: Epoch): nat { e.baseSeq + |e.log| }

  function Fold(v: View, log: seq<seq<Event>>): View {
    if log == [] then v else ApplyEvents(Fold(v, log[..|log| - 1]), log[|log| - 1])
  }

  ghost predicate InRange(e: Epoch, n: nat) { e.baseSeq <= n <= EndSeq(e) }

  /** The authority's view after the batch numbered `n`. */
  function ViewAt(e: Epoch, n: nat): View
    requires InRange(e, n)
  {
    Fold(e.base, e.log[..n - e.baseSeq])
  }

  // ---------------------------------------------------------------- messages

  datatype Msg =
    | Snap(epoch: nat, at: nat, events: seq<Event>)
    | Anchor(epoch: nat, at: nat)
    | Inc(epoch: nat, at: nat, events: seq<Event>)

  function Wire(m: Msg): Update {
    match m
    case Snap(_, _, events) => Update(0, events)
    case Anchor(_, at) => Update(at, [])
    case Inc(_, at, events) => Update(at, events)
  }

  /** The message says what the labelled life of the authority really contains. */
  ghost predicate Genuine(epochs: seq<Epoch>, m: Msg) {
    && m.epoch < |epochs|
    && InRange(epochs[m.epoch], m.at)
    && match m
       case Snap(e, at, events) => IsSnapshot(ViewAt(epochs[e], at), events)
       case Anchor(_, at) => at > 0
       case Inc(e, at, events) =>
         at > epochs[e].baseSeq && events == epochs[e].log[at - 1 - epochs[e].baseSeq] && events != []
  }

  // ---------------------------------------------------------------- what a mirror stands for

  /** `Loaded` is a snapshot whose anchor has not arrived: the content is right but the number is still 0. */
  datatype Cursor = Unsynced | Loaded(epoch: nat, at: nat) | Synced(epoch: nat, at: nat)

  ghost predicate Tracks(epochs: seq<Epoch>, m: Mirror, c: Cursor) {
    match c
    case Unsynced => m.lastSeq == 0
    case Loaded(e, n) =>
      m.lastSeq == 0 && n > 0 && e < |epochs| && InRange(epochs[e], n) && m.view == ViewAt(epochs[e], n)
    case Synced(e, n) =>
      m.lastSeq == n && e < |epochs| && InRange(epochs[e], n) && m.view == ViewAt(epochs[e], n)
  }

  /**
   The stream contract, message by message: increments only from the mirrored life, an anchor only right after its
   snapshot or when it is not news. Duplicates and gaps are allowed.
   */
  predicate Allowed(c: Cursor, m: Msg) {
    match m
    case Snap(_, _, _) => true
    case Anchor(e, n) => c == Loaded(e, n) || (c.Synced? && n <= c.at)
    case Inc(e, _, _) => c.Synced? && c.epoch == e
  }

  function Flow(c: Cursor, m: Msg): Cursor {
    match m
    case Snap(e, n, _) => if n == 0 then Synced(e, 0) else Loaded(e, n)
    case Anchor(e, n) => if c.Loaded? then Synced(e, n) else c
    case Inc(e, k, _) => if c.Synced? && k == c.at + 1 then Synced(e, k) else c
  }

  lemma FoldStep(e: Epoch, n: nat)
    requires InRange(e, n) && InRange(e, n + 1)
    ensures ViewAt(e, n + 1) == ApplyEvents(ViewAt(e, n), e.log[n - e.baseSeq])
  {
    var log := e.log[..n + 1 - e.baseSeq];
    assert log[..|log| - 1] == e.log[..n - e.baseSeq];
  }

  /** One allowed, genuine message moves the mirror exactly as the cursor says; a gap changes nothing. */
  lemma ApplyFollows(epochs: seq<Epoch>, m: Mirror, c: Cursor, msg: Msg)
    requires Tracks(epochs, m, c) && Genuine(epochs, msg) && Allowed(c, msg)
    ensures Tracks(epochs, Apply(m, Wire(msg)), Flow(c, msg))
    ensures Verdict(m, Wire(msg)).Gap? <==> msg.Inc? && msg.at > c.at + 1
    ensures Verdict(m, Wire(msg)).Gap? ==> Apply(m, Wire(msg)) == m
  {
    match msg
    case Snap(e, n, events) => SnapshotRebuilds(ViewAt(epochs[e], n), events);
    case Anchor(_, _) =>
    case Inc(e, k, _) => if k == c.at + 1 { FoldStep(epochs[e], c.at); }
  }

  // ---------------------------------------------------------------- sequences of messages

  predicate AllAllowed(c: Cursor, msgs: seq<Msg>)
    decreases |msgs|
  {
    msgs == [] || (Allowed(c, msgs[0]) && AllAllowed(Flow(c, msgs[0]), msgs[1..]))
  }

  function FlowAll(c: Cursor, msgs: seq<Msg>): Cursor
    decreases |msgs|
  {
    if msgs == [] then c else FlowAll(Flow(c, msgs[0]), msgs[1..])
  }

  lemma {:induction false} FlowAppend(c: Cursor, a: seq<Msg>, b: seq<Msg>)
    ensures FlowAll(c, a + b) == FlowAll(FlowAll(c, a), b)
    ensures AllAllowed(c, a + b) <==> AllAllowed(c, a) && AllAllowed(FlowAll(c, a), b)
    decreases |a|
  {
    if a == [] {
      assert a + b == b;
    } else {
      assert (a + b)[1..] == a[1..] + b;
      FlowAppend(Flow(c, a[0]), a[1..], b);
    }
  }

  // ---------------------------------------------------------------- the consuming side

  function Wires(msgs: seq<Msg>): seq<Update> {
    if msgs == [] then [] else [Wire(msgs[0])] + Wires(msgs[1..])
  }

  /** `viewSyncOnce`: apply updates until the stream ends or a gap shows. */
  function Consume(m: Mirror, us: seq<Update>): (Mirror, Outcome)
    decreases |us|
  {
    if us == [] then (m, Ok)
    else if Verdict(m, us[0]).Gap? then (m, Verdict(m, us[0]))
    else Consume(Apply(m, us[0]), us[1..])
  }

  /**
   A whole session against any server that keeps the stream contract, with duplicates, gaps and an end at any
   point: afterwards the mirror stands for some position of some life of the authority.
   */
  lemma {:induction false} SessionTracks(epochs: seq<Epoch>, m: Mirror, c: Cursor, msgs: seq<Msg>) returns (c1: Cursor)
    requires Tracks(epochs, m, c) && AllAllowed(c, msgs)
    requires forall i :: 0 <= i < |msgs| ==> Genuine(epochs, msgs[i])
    ensures Tracks(epochs, Consume(m, Wires(msgs)).0, c1)
    ensures Consume(m, Wires(msgs)).1.Ok? ==> c1 == FlowAll(c, msgs)
    decreases |msgs|
  {
    if msgs == [] {
      c1 := c;
    } else {
      ApplyFollows(epochs, m, c, msgs[0]);
      assert Wires(msgs)[1..] == Wires(msgs[1..]);
      if Verdict(m, Wire(msgs[0])).Gap? {
        c1 := c;
      } else {
        c1 := SessionTracks(epochs, Apply(m, Wire(msgs[0])), Flow(c, msgs[0]), msgs[1..]);
      }
    }
  }

  // ---------------------------------------------------------------- the subscription task

  /** Where in the broadcast stream a queue starts; `half` means the anchor of a restore snapshot is next. */
  datatype Pos = Pos(epoch: nat, at: nat, half: bool)

  datatype Conn =
    | Closed
    | Opening(resume: nat, rx: seq<Msg>, pos: Pos)
    | Open(rx: seq<Msg>, pos: Pos, last: nat, pipe: seq<Msg>)
    | Broken(pipe: seq<Msg>)

  /** `process` is the index of the first life in the running process. */
  datatype Sys = Sys(
    epochs: seq<Epoch>, process: nat, floor: nat, cap: nat, mirror: Mirror, cursor: Cursor, conn: Conn)

  datatype Step =
    | Commit(batch: seq<Event>)
    | Restart
    | Restore(base: View, events: seq<Event>)
    | Connect
    | Begin(events: seq<Event>)
    | Forward
    | Lag(dropped: nat, events: seq<Event>)
    | Deliver
    | Drop

  function Current(s: Sys): nat
    requires s.epochs != []
  {
    |s.epochs| - 1
  }

  function LastSeq(s: Sys): nat
    requires s.epochs != []
  {
    EndSeq(s.epochs[Current(s)])
  }

  function Broadcast(conn: Conn, msgs: seq<Msg>): Conn {
    match conn
    case Opening(resume, rx, pos) => Opening(resume, rx + msgs, pos)
    case Open(rx, pos, last, pipe) => Open(rx + msgs, pos, last, pipe)
    case _ => conn
  }

  /** The decision of `replay_after`: replay, or fall back to a snapshot. */
  predicate Replays(s: Sys, resume: nat)
    requires s.epochs != []
  {
    resume != 0 && resume <= LastSeq(s) && resume + 1 >= s.floor
  }

  function WithAnchor(e: nat, at: nat, events: seq<Event>): seq<Msg> {
    if at > 0 then [Snap(e, at, events), Anchor(e, at)] else [Snap(e, at, events)]
  }

  function Replay(i: nat, e: Epoch, from: nat): seq<Msg>
    requires InRange(e, from)
    decreases EndSeq(e) - from
  {
    if from == EndSeq(e) then [] else [Inc(i, from + 1, e.log[from - e.baseSeq])] + Replay(i, e, from + 1)
  }

  /** The broadcast position after one more message. */
  function Advance(pos: Pos, m: Msg): Pos {
    match m
    case Snap(e, at, _) => Pos(e, at, at > 0)
    case Anchor(e, at) => Pos(e, at, false)
    case Inc(e, at, _) => Pos(e, at, false)
  }

  function AdvanceAll(pos: Pos, msgs: seq<Msg>): Pos
    decreases |msgs|
  {
    if msgs == [] then pos else AdvanceAll(Advance(pos, msgs[0]), msgs[1..])
  }

  /** Watermark handling of the subscription task for one broadcast message. */
  function ForwardOne(c: Conn): Conn
    requires c.Open? && c.rx != []
  {
    var m, rest, pos := c.rx[0], c.rx[1..], Advance(c.pos, c.rx[0]);
    if m.Snap? then Open(rest, pos, 0, c.pipe + [m])
    else if m.at <= c.last then Open(rest, pos, c.last, c.pipe)
    else Open(rest, pos, m.at, c.pipe + [m])
  }

  ghost predicate Enabled(s: Sys, step: Step) {
    && s.epochs != []
    && InRange(s.epochs[Current(s)], LastSeq(s))
    && match step
       case Commit(batch) => batch != []
       case Restart => true
       case Restore(base, events) => IsSnapshot(base, events)
       case Connect => s.conn.Closed?
       case Begin(events) =>
         && s.conn.Opening?
         && IsSnapshot(ViewAt(s.epochs[Current(s)], LastSeq(s)), events)
         && (Replays(s, s.conn.resume) ==> InRange(s.epochs[Current(s)], s.conn.resume))
       case Forward => s.conn.Open? && s.conn.rx != []
       case Lag(dropped, events) =>
         && s.conn.Open? && 0 < dropped <= |s.conn.rx|
         && IsSnapshot(ViewAt(s.epochs[Current(s)], LastSeq(s)), events)
       case Deliver => (s.conn.Open? || s.conn.Broken?) && s.conn.pipe != []
       case Drop => true
  }

  function CommitOne(s: Sys, batch: seq<Event>): Sys
    requires s.epochs != []
  {
    var i := Current(s);
    var e := s.epochs[i].(log := s.epochs[i].log + [batch]);
    s.(epochs := s.epochs[i := e],
       floor := if EndSeq(e) + 1 - s.floor > s.cap then s.floor + 1 else s.floor,
       conn := Broadcast(s.conn, [Inc(i, EndSeq(e), batch)]))
  }

  function RestartOne(s: Sys): Sys {
    s.(epochs := s.epochs + [Epoch(map[], 0, [])], process := |s.epochs|, floor := 1,
       conn := match s.conn
               case Open(_, _, _, pipe) => Broken(pipe)
               case Opening(_, _, _) => Closed
               case _ => s.conn)
  }

  function RestoreOne(s: Sys, base: View, events: seq<Event>): Sys
    requires s.epochs != []
  {
    var n := LastSeq(s);
    s.(epochs := s.epochs + [Epoch(base, n, [])], floor := n + 1,
       conn := Broadcast(s.conn, WithAnchor(|s.epochs|, n, events)))
  }

  function BeginOne(s: Sys, events: seq<Event>): Sys
    requires s.epochs != [] && s.conn.Opening?
    requires Replays(s, s.conn.resume) ==> InRange(s.epochs[Current(s)], s.conn.resume)
  {
    var i := Current(s);
    var initial := if Replays(s, s.conn.resume) then Replay(i, s.epochs[i], s.conn.resume)
                   else WithAnchor(i, LastSeq(s), events);
    s.(conn := Open(s.conn.rx, s.conn.pos, LastSeq(s), initial))
  }

  function LagOne(s: Sys, dropped: nat, events: seq<Event>): Sys
    requires s.epochs != [] && s.conn.Open? && dropped <= |s.conn.rx|
  {
    s.(conn := Open(s.conn.rx[dropped..], AdvanceAll(s.conn.pos, s.conn.rx[..dropped]), LastSeq(s),
                    s.conn.pipe + WithAnchor(Current(s), LastSeq(s), events)))
  }

  /** The client takes one message; a gap makes it leave the stream. */
  function DeliverOne(s: Sys): Sys
    requires (s.conn.Open? || s.conn.Broken?) && s.conn.pipe != []
  {
    var m := s.conn.pipe[0];
    if Verdict(s.mirror, Wire(m)).Gap? then s.(conn := Closed)
    else s.(mirror := Apply(s.mirror, Wire(m)), cursor := Flow(s.cursor, m), conn := s.conn.(pipe := s.conn.pipe[1..]))
  }

  function Next(s: Sys, step: Step): Sys
    requires Enabled(s, step)
  {
    match step
    case Commit(batch) => CommitOne(s, batch)
    case Restart => RestartOne(s)
    case Restore(base, events) => RestoreOne(s, base, events)
    case Connect => s.(conn := Opening(s.mirror.lastSeq, [], Pos(Current(s), LastSeq(s), false)))
    case Begin(events) => BeginOne(s, events)
    case Forward => s.(conn := ForwardOne(s.conn))
    case Lag(dropped, events) => LagOne(s, dropped, events)
    case Deliver => DeliverOne(s)
    case Drop => s.(conn := Closed)
  }
}
