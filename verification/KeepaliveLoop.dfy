/**
 The keepalive table of `Ledger` (kvcm/kvcm/ledger.py) and `KeepaliveLoop.sweep_once` (kvcm/kvcm/loops.py) in their
 imperative form. Every await of the sweep lets any client calls run first; the sweep is proved to be a run of the
 machine in module `Keepalive`.
 */
module KeepaliveLoops {
  import opened Base
  import opened Keepalive

  /** What other tasks may do while the sweep waits. */
  datatype Client = Elapses(span: nat) | Registers(key: Key) | Unregisters(key: Key) | Restores(key: Key, at: int)

  class Ledger {
    var now: int
    var table: map<Key, int>
    var blank: set<Key>

    constructor (now: int)
      ensures this.now == now && table == map[] && blank == {}
    {
      this.now, table, blank := now, map[], {};
    }

    /** A row that is already there keeps its registration time and gets its tokens anew. */
    method RegisterKeepalive(key: Key)
      modifies this`table, this`blank
      ensures table == Inserted(old(table), key, now) && blank == old(blank) - {key}
    {
      if key !in table {
        table := table[key := now];
      }
      blank := blank - {key};
    }

    method UnregisterKeepalive(key: Key)
      modifies this`table
      ensures table == old(table) - {key}
    {
      table := table - {key};
    }

    method RestoreKeepalive(key: Key, at: int)
      modifies this`table, this`blank
      ensures table == Inserted(old(table), key, at)
      ensures blank == if key in old(table) then old(blank) else old(blank) - {key}
    {
      if key !in table {
        table := table[key := at];
        blank := blank - {key};
      }
    }

    method HasKeepalive(key: Key) returns (b: bool)
      ensures b <==> key in table
    {
      return key in table;
    }

    /** Rows without tokens cannot be told and are passed over. */
    method ListKeepaliveRecords() returns (records: seq<Rec>)
      ensures Lists(records, table - blank)
    {
      records := [];
      var left := table.Keys;
      ghost var rows := table - blank;
      while left != {}
        invariant left <= table.Keys
        invariant forall i :: 0 <= i < |records| ==>
          records[i].key in rows && records[i].at == rows[records[i].key] && records[i].key !in left
        invariant forall i, j :: 0 <= i < j < |records| ==> records[i].key != records[j].key
        invariant forall k :: k in rows && k !in left ==> Rec(k, rows[k]) in records
        decreases left
      {
        var k :| k in left;
        left := left - {k};
        if k in blank {
          continue;
        }
        records := records + [Rec(k, table[k])];
      }
    }
  }

  /** The run so far ends in a state with the ledger's clock and table. */
  ghost predicate Follows(s0: State, steps: seq<Step>, ledger: Ledger)
    reads ledger
  {
    var t := After(s0, steps);
    t.Some? && t.value.now == ledger.now && t.value.table == ledger.table && t.value.blank == ledger.blank &&
    t.value.window == s0.window
  }

  /** Client calls do not move the sweep, apart from its note of deletions. */
  ghost predicate SamePlace(a: Sweep, b: Sweep) {
    match a
    case Idle => b.Idle?
    case Begun(start) => b == a
    case Running(start, todo, _) => b.Running? && b.start == start && b.todo == todo
    case Renewing(start, rec, todo, _) => b.Renewing? && b.start == start && b.rec == rec && b.todo == todo
    case Dropping(start, rec, todo, _) => b.Dropping? && b.start == start && b.rec == rec && b.todo == todo
  }

  method RunClient(ledger: Ledger, c: Client, ghost s0: State, steps: seq<Step>) returns (more: seq<Step>)
    requires Follows(s0, steps, ledger)
    modifies ledger
    ensures Follows(s0, more, ledger) && SamePlace(After(s0, steps).value.sweep, After(s0, more).value.sweep)
  {
    var step;
    match c {
      case Elapses(span) =>
        ledger.now := ledger.now + span;
        step := Elapse(ledger.now);
      case Registers(key) =>
        ledger.RegisterKeepalive(key);
        step := Register(key);
      case Unregisters(key) =>
        ledger.UnregisterKeepalive(key);
        step := Unregister(key);
      case Restores(key, at) =>
        ledger.RestoreKeepalive(key, at);
        step := Restore(key, at);
    }
    Extend(s0, steps, step);
    more := steps + [step];
  }

  /** An await: the calls of the other tasks run to completion before the sweep goes on. */
  method Await(ledger: Ledger, clients: seq<Client>, ghost s0: State, steps: seq<Step>) returns (more: seq<Step>)
    requires Follows(s0, steps, ledger)
    modifies ledger
    ensures Follows(s0, more, ledger) && SamePlace(After(s0, steps).value.sweep, After(s0, more).value.sweep)
  {
    more := steps;
    for i := 0 to |clients|
      invariant Follows(s0, more, ledger) && SamePlace(After(s0, steps).value.sweep, After(s0, more).value.sweep)
    {
      more := RunClient(ledger, clients[i], s0, more);
    }
  }

  /** At which await of a record the loop is stopped, if at any. */
  datatype StopAt = Never | AtFirst | AtRenew | AtDrop

  /** What happens around one record: the calls during each of its awaits, the pool's answer, and a stop. */
  datatype Turn = Turn(before: seq<Client>, during: seq<Client>, after: seq<Client>, answer: Answer, stop: StopAt)

  /** How the first part of a record ended. */
  datatype Part = WasStopped | Handled | ToRenew

  /** The sweep is at `rec`, with `rest` to follow. */
  ghost predicate AtRecord(s0: State, steps: seq<Step>, start: int, rec: Rec, rest: seq<Rec>)
    requires After(s0, steps).Some?
  {
    var w := After(s0, steps).value.sweep;
    w.Running? && w.start == start && w.todo == [rec] + rest
  }

  ghost predicate PastRecord(s0: State, steps: seq<Step>, start: int, rest: seq<Rec>)
    requires After(s0, steps).Some?
  {
    var w := After(s0, steps).value.sweep;
    w.Running? && w.start == start && w.todo == rest
  }

  ghost predicate StoppedHere(s0: State, steps: seq<Step>)
    requires After(s0, steps).Some?
  {
    After(s0, steps).value.sweep.Idle? && steps != [] && steps[|steps| - 1] == Stop
  }

  /** Stop the sweep where it is. */
  method StopSweep(ledger: Ledger, ghost s0: State, steps: seq<Step>) returns (more: seq<Step>)
    requires Follows(s0, steps, ledger) && !After(s0, steps).value.sweep.Idle?
    ensures Follows(s0, more, ledger) && StoppedHere(s0, more)
  {
    Extend(s0, steps, Stop);
    more := steps + [Stop];
  }

  /** The window and the row are checked. */
  method CheckRecord(ledger: Ledger, rec: Rec, start: int, window: int, turn: Turn, ghost rest: seq<Rec>,
                     ghost s0: State, steps: seq<Step>) returns (more: seq<Step>, part: Part)
    requires Follows(s0, steps, ledger) && s0.window == window && AtRecord(s0, steps, start, rec, rest)
    modifies ledger
    ensures Follows(s0, more, ledger)
    ensures part.WasStopped? <==> turn.stop.AtFirst?
    ensures part.WasStopped? ==> StoppedHere(s0, more)
    ensures part.Handled? ==> PastRecord(s0, more, start, rest)
    ensures part.ToRenew? ==>
      var w := After(s0, more).value.sweep; w.Renewing? && w.start == start && w.rec == rec && w.todo == rest
  {
    more := Await(ledger, turn.before, s0, steps);
    if turn.stop.AtFirst? {
      more := StopSweep(ledger, s0, more);
      return more, WasStopped;
    }
    if start - rec.at >= window {
      Extend(s0, more, Expire);
      ledger.UnregisterKeepalive(rec.key);
      return more + [Expire], Handled;
    }
    var has := ledger.HasKeepalive(rec.key);
    if !has {
      Extend(s0, more, Skip);
      return more + [Skip], Handled;
    }
    Extend(s0, more, Check);
    return more + [Check], ToRenew;
  }

  /** One record of the sweep. */
  method SweepRecord(ledger: Ledger, rec: Rec, start: int, window: int, turn: Turn, ghost rest: seq<Rec>,
                     ghost s0: State, steps: seq<Step>) returns (more: seq<Step>, stopped: bool)
    requires Follows(s0, steps, ledger) && s0.window == window && AtRecord(s0, steps, start, rec, rest)
    modifies ledger
    ensures Follows(s0, more, ledger)
    ensures stopped ==> StoppedHere(s0, more) && !turn.stop.Never?
    ensures !stopped ==> PastRecord(s0, more, start, rest)
  {
    var part;
    more, part := CheckRecord(ledger, rec, start, window, turn, rest, s0, steps);
    if !part.ToRenew? {
      return more, part.WasStopped?;
    }
    more := Await(ledger, turn.during, s0, more);
    if turn.stop.AtRenew? {
      more := StopSweep(ledger, s0, more);
      return more, true;
    }
    Extend(s0, more, Renew(turn.answer));
    more := more + [Renew(turn.answer)];
    stopped := false;
    if turn.answer.Absent? {
      more, stopped := DropRecord(ledger, rec, start, turn, rest, s0, more);
    }
  }

  /** The copy is gone: the row goes too, unless the loop is stopped first. */
  method DropRecord(ledger: Ledger, rec: Rec, start: int, turn: Turn, ghost rest: seq<Rec>, ghost s0: State,
                    steps: seq<Step>) returns (more: seq<Step>, stopped: bool)
    requires Follows(s0, steps, ledger)
    requires var w := After(s0, steps).value.sweep; w.Dropping? && w.start == start && w.rec == rec && w.todo == rest
    modifies ledger
    ensures Follows(s0, more, ledger)
    ensures stopped <==> turn.stop.AtDrop?
    ensures if stopped then StoppedHere(s0, more) else PastRecord(s0, more, start, rest)
  {
    more := Await(ledger, turn.after, s0, steps);
    if turn.stop.AtDrop? {
      more := StopSweep(ledger, s0, more);
      return more, true;
    }
    Extend(s0, more, Drop);
    ledger.UnregisterKeepalive(rec.key);
    return more + [Drop], false;
  }

  /** The clock is read and the snapshot taken. */
  method TakeSnapshot(ledger: Ledger, wait: seq<Client>, ghost s0: State, steps: seq<Step>)
    returns (more: seq<Step>, records: seq<Rec>)
    requires Follows(s0, steps, ledger) && After(s0, steps).value.sweep.Begun?
    modifies ledger
    ensures Follows(s0, more, ledger) && PastRecord(s0, more, After(s0, steps).value.sweep.start, records)
  {
    more := Await(ledger, wait, s0, steps);
    records := ledger.ListKeepaliveRecords();
    Extend(s0, more, Snapshot(records));
    more := more + [Snapshot(records)];
  }

  /**
   A whole sweep, with arbitrary client calls at each await and a stop at any of them, is a run of the machine from
   `Idle` to `Idle`. Unless it is stopped, it works off its whole snapshot.
   */
  method SweepOnce(ledger: Ledger, window: int, snapshotWait: seq<Client>, stopEarly: bool, turns: nat -> Turn)
    returns (steps: seq<Step>, stopped: bool, at: nat)
    modifies ledger
    ensures After(old(State(ledger.now, window, ledger.table, ledger.blank, Idle)), steps) ==
      Some(State(ledger.now, window, ledger.table, ledger.blank, Idle))
    ensures steps != [] && steps[|steps| - 1] == if stopped then Stop else End
    ensures stopped ==> stopEarly || !turns(at).stop.Never?
  {
    ghost var s0 := State(ledger.now, window, ledger.table, ledger.blank, Idle);
    var start := ledger.now;
    stopped, at := false, 0;
    Extend(s0, [], Begin);
    steps := [] + [Begin];
    if stopEarly {
      steps := Await(ledger, snapshotWait, s0, steps);
      steps := StopSweep(ledger, s0, steps);
      return steps, true, 0;
    }
    var records;
    steps, records := TakeSnapshot(ledger, snapshotWait, s0, steps);
    while at < |records|
      invariant at <= |records| && Follows(s0, steps, ledger) && PastRecord(s0, steps, start, records[at..])
    {
      assert records[at..] == [records[at]] + records[at + 1..];
      steps, stopped := SweepRecord(ledger, records[at], start, window, turns(at), records[at + 1..], s0, steps);
      if stopped {
        return;
      }
      at := at + 1;
    }
    Extend(s0, steps, End);
    steps := steps + [End];
  }
}
