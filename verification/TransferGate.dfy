/**
 The transfer gate of `TaskEngine._wait_then_run` (kvcm/kvcm/task_engine.py): a semaphore around "submit until
 terminal", taken after the target segment was seen to have room and given back on every way out.

 `Move` is the path of one prefix. `WaitThenRun` is the loop of the source, proved to follow that path; the machine
 below it runs any number of prefixes against one semaphore and one clock.
 */
module TransferGate {
  import opened Base

  // ---------------------------------------------------------------- the path of one prefix

  /** Waiting outside the gate, queued for a permit, past the gate, between submit and terminal, or finished. */
  datatype Pc = Outside | Queued | Holding | Submitted | Finished

  /** A permit is taken by `Pass` and given back by `Refuse`, `Recheck` and `Leave`. */
  datatype Act = Room | Pass | GiveUp | Submit | Refuse | Recheck | Leave

  /** Where `act` leads at time `now`, if it is possible there. */
  function Move(pc: Pc, act: Act, now: int, deadline: int): Option<Pc> {
    match (pc, act)
    case (Outside, Room) => if now < deadline then Some(Queued) else None
    case (Outside, GiveUp) => Some(Finished)
    case (Queued, Pass) => Some(Holding)
    case (Queued, GiveUp) => Some(Finished)
    case (Holding, Submit) => if now < deadline then Some(Submitted) else None
    case (Holding, Refuse) => if now < deadline then None else Some(Finished)
    case (Submitted, Recheck) => Some(Outside)
    case (Submitted, Leave) => Some(Finished)
    case _ => None
  }

  /** The state after a timed path, if every act was possible in its turn. */
  function Walk(pc: Pc, acts: seq<(Act, int)>, deadline: int): Option<Pc>
    decreases |acts|
  {
    if acts == [] then Some(pc) else
      var before := Walk(pc, acts[..|acts| - 1], deadline);
      var (act, now) := acts[|acts| - 1];
      if before.None? then None else Move(before.value, act, now, deadline)
  }

  // ---------------------------------------------------------------- the loop of one prefix

  datatype RoomCheck = Fits | Wait | Missing | QueryFailed | RoomCancelled
  datatype Acquire = Got | AcquireTimeout | AcquireCancelled
  datatype FlowEnd = FlowDone | FlowWait | FlowMissing | FlowRaised

  /** One round of the loop: what each await came to, the clock after it, and the permits others then hold. */
  datatype Round = Round(
    room: RoomCheck, roomAt: int, sleepCancelled: bool, acquire: Acquire, acquiredAt: int, flow: FlowEnd, endAt: int,
    othersBefore: nat, othersAfter: nat)

  /** A permit is there when the round takes one, and stays with it. */
  predicate Feasible(r: Round, max: nat) {
    r.othersBefore <= max && r.othersAfter <= max && (r.acquire.Got? ==> r.othersBefore < max && r.othersAfter < max)
  }

  /** `Looping` when the script ends before the loop does. */
  datatype Outcome = Done | Stopped | SegmentMissing | Raised | Cancelled | Looping

  /** The semaphore with what this prefix and all others hold of it, and the segment budgets that are open. */
  class Gate {
    const max: nat
    var free: nat
    var held: nat
    var others: nat
    var budgets: nat

    ghost predicate Valid()
      reads this
    {
      free + held + others == max
    }

    constructor (maxConcurrent: nat)
      ensures Valid() && max == maxConcurrent && free == max && held == 0 && budgets == 0
    {
      max, free, held, others, budgets := maxConcurrent, maxConcurrent, 0, 0, 0;
    }

    /** Other prefixes take and return permits while this one waits. */
    method Interfere(now: nat)
      requires Valid() && now + held <= max
      modifies this`free, this`others
      ensures Valid() && others == now
    {
      free, others := max - held - now, now;
    }

    method Acquire()
      requires Valid() && free > 0
      modifies this`free, this`held
      ensures Valid() && free == old(free) - 1 && held == old(held) + 1
    {
      free, held := free - 1, held + 1;
    }

    method Release()
      requires Valid() && held > 0
      modifies this`free, this`held
      ensures Valid() && free == old(free) + 1 && held == old(held) - 1
    {
      free, held := free + 1, held - 1;
    }
  }

  /** The round in which the loop ends with `out`, entered at `now`. */
  predicate Ends(r: Round, now: int, deadline: int, out: Outcome) {
    var late := now >= deadline;
    var roomLate := r.roomAt >= deadline;
    match out
    case Looping => !late && ((r.room.Wait? && !roomLate && !r.sleepCancelled)
      || (r.room.Fits? && !roomLate && r.acquire.Got? && r.acquiredAt < deadline && r.flow.FlowWait?))
    case Stopped => late || (roomLate && (r.room.QueryFailed? || r.room.Wait? || r.room.Fits?))
      || (r.room.Fits? && (r.acquire.AcquireTimeout? || (r.acquire.Got? && r.acquiredAt >= deadline)))
    case Cancelled => !late && (r.room.RoomCancelled? || (!roomLate && r.room.Wait? && r.sleepCancelled)
      || (!roomLate && r.room.Fits? && r.acquire.AcquireCancelled?))
    case SegmentMissing => !late && (r.room.Missing?
      || (!roomLate && r.room.Fits? && r.acquire.Got? && r.acquiredAt < deadline && r.flow.FlowMissing?))
    case Raised => !late && !roomLate && (r.room.QueryFailed?
      || (r.room.Fits? && r.acquire.Got? && r.acquiredAt < deadline && r.flow.FlowRaised?))
    case Done => !late && !roomLate && r.room.Fits? && r.acquire.Got? && r.acquiredAt < deadline && r.flow.FlowDone?
  }

  /** The clock on entry to round `i`. */
  function EnteredAt(start: int, rounds: seq<Round>, i: nat): int
    requires i <= |rounds|
  {
    if i == 0 then start else rounds[i - 1].endAt
  }

  /**
   The loop for one prefix while others use the semaphore. Its timed acts are a path of `Move` from `Outside` to
   `Finished`, its permit is back and the segment budget closed on every way out, and the way out is the one the last
   round calls for.
   */
  method WaitThenRun(gate: Gate, start: int, timeout: int, rounds: seq<Round>)
    returns (out: Outcome, acts: seq<(Act, int)>, used: nat, ghost held: seq<nat>)
    requires gate.Valid() && gate.held == 0 && forall i :: 0 <= i < |rounds| ==> Feasible(rounds[i], gate.max)
    modifies gate
    ensures gate.Valid() && gate.held == 0
    ensures gate.budgets == old(gate.budgets) + if out.Looping? then 1 else 0
    ensures Walk(Outside, acts, start + timeout) == Some(if out.Looping? then Outside else Finished)
    ensures used <= |rounds| && (out.Looping? ==> used == |rounds|) && (!out.Looping? ==> used > 0)
    ensures forall i :: 0 <= i < used ==>
      Ends(rounds[i], EnteredAt(start, rounds, i), start + timeout, if i == used - 1 then out else Looping)
    ensures PermitsMatch(acts, held)
  {
    var deadline := start + timeout;
    gate.budgets := gate.budgets + 1;
    out, acts, used, held := Looping, [], 0, [];
    while used < |rounds| && out.Looping?
      invariant used <= |rounds| && gate.Valid() && gate.held == 0 && gate.budgets == old(gate.budgets) + 1
      invariant !out.Looping? ==> used > 0
      invariant Walk(Outside, acts, deadline) == Some(if out.Looping? then Outside else Finished)
      invariant forall i :: 0 <= i < used ==>
        Ends(rounds[i], EnteredAt(start, rounds, i), deadline, if i == used - 1 then out else Looping)
      invariant PermitsMatch(acts, held)
    {
      var r, now := rounds[used], EnteredAt(start, rounds, used);
      var path;
      ghost var during;
      out, path, during := OneRound(gate, now, deadline, r);
      WalkAppend(Outside, acts, path, deadline);
      acts, used, held := acts + path, used + 1, held + during;
    }
    if !out.Looping? {
      gate.budgets := gate.budgets - 1;
    }
  }

  /** What this prefix holds of the semaphore at each act: a permit from the pass on, and none outside. */
  predicate PermitsMatch(path: seq<(Act, int)>, held: seq<nat>) {
    |held| == |path| && forall i :: 0 <= i < |path| ==> held[i] == if path[i].0 in {Room, GiveUp} then 0 else 1
  }

  /** One round of the loop; `held` is what the prefix holds of the semaphore at each act. */
  method OneRound(gate: Gate, now: int, deadline: int, r: Round)
    returns (out: Outcome, path: seq<(Act, int)>, ghost held: seq<nat>)
    requires gate.Valid() && gate.held == 0 && Feasible(r, gate.max)
    modifies gate`free, gate`held, gate`others
    ensures gate.Valid() && gate.held == 0
    ensures Ends(r, now, deadline, out)
    ensures Walk(Outside, path, deadline) == Some(if out.Looping? then Outside else Finished)
    ensures PermitsMatch(path, held)
  {
    path, held := [], [];
    gate.Interfere(r.othersBefore);
    if now >= deadline {
      return Stopped, [(GiveUp, now)], [gate.held];
    }
    match r.room {
      case RoomCancelled => return Cancelled, [(GiveUp, r.roomAt)], [gate.held];
      case Missing => return SegmentMissing, [(GiveUp, r.roomAt)], [gate.held];
      case QueryFailed =>
        out := if r.roomAt >= deadline then Stopped else Raised;
        return out, [(GiveUp, r.roomAt)], [gate.held];
      case Wait =>
        if r.roomAt >= deadline {
          return Stopped, [(GiveUp, r.roomAt)], [gate.held];
        }
        if r.sleepCancelled {
          return Cancelled, [(GiveUp, r.roomAt)], [gate.held];
        }
        return Looping, [], [];
      case Fits =>
    }
    if r.roomAt >= deadline {
      return Stopped, [(GiveUp, r.roomAt)], [gate.held];
    }
    path, held := [(Room, r.roomAt)], [gate.held];
    WalkOn(path, if r.acquire.Got? then Pass else GiveUp, r.acquiredAt, deadline);
    if r.acquire.AcquireTimeout? {
      return Stopped, path + [(GiveUp, r.acquiredAt)], held + [gate.held];
    }
    if r.acquire.AcquireCancelled? {
      return Cancelled, path + [(GiveUp, r.acquiredAt)], held + [gate.held];
    }
    gate.Acquire();
    path, held := path + [(Pass, r.acquiredAt)], held + [gate.held];
    WalkOn(path, if r.acquiredAt >= deadline then Refuse else Submit, r.acquiredAt, deadline);
    if r.acquiredAt >= deadline {
      out, path, held := Stopped, path + [(Refuse, r.acquiredAt)], held + [gate.held];
    } else {
      path, held := path + [(Submit, r.acquiredAt)], held + [gate.held];
      WalkOn(path, if r.flow.FlowWait? then Recheck else Leave, r.endAt, deadline);
      gate.Interfere(r.othersAfter);
      held := held + [gate.held];
      match r.flow {
        case FlowWait => out, path := Looping, path + [(Recheck, r.endAt)];
        case FlowDone => out, path := Done, path + [(Leave, r.endAt)];
        case FlowMissing => out, path := SegmentMissing, path + [(Leave, r.endAt)];
        case FlowRaised => out, path := Raised, path + [(Leave, r.endAt)];
      }
    }
    gate.Release();
  }

  /** One more act at the end of a path. */
  lemma WalkOn(path: seq<(Act, int)>, act: Act, now: int, deadline: int)
    requires Walk(Outside, path, deadline).Some?
    ensures Walk(Outside, path + [(act, now)], deadline) ==
      Move(Walk(Outside, path, deadline).value, act, now, deadline)
  {
    assert (path + [(act, now)])[..|path|] == path;
  }

  lemma {:induction false} WalkAppend(pc: Pc, a: seq<(Act, int)>, b: seq<(Act, int)>, deadline: int)
    requires Walk(pc, a, deadline).Some?
    ensures Walk(pc, a + b, deadline) == Walk(Walk(pc, a, deadline).value, b, deadline)
    decreases |b|
  {
    if b == [] {
      assert a + b == a;
    } else {
      assert (a + b)[..|a + b| - 1] == a + b[..|b| - 1];
      WalkAppend(pc, a, b[..|b| - 1], deadline);
    }
  }

  // ---------------------------------------------------------------- all prefixes

  datatype Task = Task(pc: Pc, deadline: int, submittedAt: Option<int>)

  datatype State = State(max: nat, free: nat, now: int, tasks: map<nat, Task>)

  datatype Step = Enter(newId: nat, timeout: int) | Elapse(to: int) | Do(id: nat, act: Act)

  predicate Enabled(s: State, step: Step) {
    match step
    case Enter(id, _) => id !in s.tasks
    case Elapse(to) => to >= s.now
    case Do(id, act) =>
      && id in s.tasks
      && Move(s.tasks[id].pc, act, s.now, s.tasks[id].deadline).Some?
      && (act.Pass? ==> s.free > 0)
  }

  function Next(s: State, step: Step): State
    requires Enabled(s, step)
  {
    match step
    case Enter(id, timeout) => s.(tasks := s.tasks[id := Task(Outside, s.now + timeout, None)])
    case Elapse(to) => s.(now := to)
    case Do(id, act) =>
      var t := s.tasks[id];
      var pc := Move(t.pc, act, s.now, t.deadline).value;
      var gives := act.Refuse? || act.Recheck? || act.Leave?;
      var free := if act.Pass? then s.free - 1 else if gives then s.free + 1 else s.free;
      s.(free := free, tasks := s.tasks[id := Task(pc, t.deadline, if act.Submit? then Some(s.now) else t.submittedAt)])
  }

  predicate Holds(t: Task) { t.pc.Holding? || t.pc.Submitted? }

  function Holders(tasks: map<nat, Task>): set<nat> {
    set id | id in tasks && Holds(tasks[id])
  }

  /** The tasks between submit and terminal. */
  function InFlight(tasks: map<nat, Task>): set<nat> {
    set id | id in tasks && tasks[id].pc.Submitted?
  }

  ghost predicate Inv(s: State) {
    && s.free + |Holders(s.tasks)| == s.max
    && forall id :: id in s.tasks && s.tasks[id].submittedAt.Some? ==>
         s.tasks[id].submittedAt.value < s.tasks[id].deadline
  }

  lemma HoldersUpdate(tasks: map<nat, Task>, id: nat, t: Task)
    ensures Holders(tasks[id := t]) == if Holds(t) then Holders(tasks) + {id} else Holders(tasks) - {id}
    ensures id in Holders(tasks) <==> id in tasks && Holds(tasks[id])
  { }

  lemma StepKeepsPermits(s: State, step: Step)
    requires s.free + |Holders(s.tasks)| == s.max && Enabled(s, step)
    ensures Next(s, step).free + |Holders(Next(s, step).tasks)| == s.max && Next(s, step).max == s.max
  {
    match step
    case Elapse(_) =>
    case Enter(id, _) => HoldersUpdate(s.tasks, id, Next(s, step).tasks[id]);
    case Do(id, _) => HoldersUpdate(s.tasks, id, Next(s, step).tasks[id]);
  }

  lemma StepKeepsInv(s: State, step: Step)
    requires Inv(s) && Enabled(s, step)
    ensures Inv(Next(s, step)) && Next(s, step).max == s.max
  {
    StepKeepsPermits(s, step);
  }

  ghost predicate Valid(s: State, steps: seq<Step>)
    decreases |steps|
  {
    steps == [] || (Enabled(s, steps[0]) && Valid(Next(s, steps[0]), steps[1..]))
  }

  ghost function Final(s: State, steps: seq<Step>): State
    requires Valid(s, steps)
    decreases |steps|
  {
    if steps == [] then s else Final(Next(s, steps[0]), steps[1..])
  }

  lemma {:induction false} RunKeepsInv(s: State, steps: seq<Step>)
    requires Inv(s) && Valid(s, steps)
    ensures Inv(Final(s, steps)) && Final(s, steps).max == s.max
    decreases |steps|
  {
    if steps != [] {
      StepKeepsInv(s, steps[0]);
      RunKeepsInv(Next(s, steps[0]), steps[1..]);
    }
  }

  lemma {:induction false} SubsetSize(a: set<nat>, b: set<nat>)
    requires a <= b
    ensures |a| <= |b|
    decreases a
  {
    if a != {} {
      var x :| x in a;
      SubsetSize(a - {x}, b - {x});
    }
  }

  /**
   Gate conservation. In every interleaving of any number of prefixes, no permit is lost or invented, at most
   `max_concurrent` prefixes are between submit and terminal, and every submission began before its own deadline.
   */
  lemma GateConservation(max: nat, now: int, steps: seq<Step>)
    requires Valid(State(max, max, now, map[]), steps)
    ensures var s := Final(State(max, max, now, map[]), steps);
      && s.free + |Holders(s.tasks)| == max
      && |InFlight(s.tasks)| <= max
      && forall id :: id in s.tasks && s.tasks[id].submittedAt.Some? ==>
           s.tasks[id].submittedAt.value < s.tasks[id].deadline
  {
    var s0 := State(max, max, now, map[]);
    assert Holders(s0.tasks) == {};
    RunKeepsInv(s0, steps);
    var s := Final(s0, steps);
    SubsetSize(InFlight(s.tasks), Holders(s.tasks));
  }

  /** When every prefix has finished, the semaphore is as full as it was made. */
  lemma PermitsReturn(max: nat, now: int, steps: seq<Step>)
    requires Valid(State(max, max, now, map[]), steps)
    requires var s := Final(State(max, max, now, map[]), steps);
      forall id :: id in s.tasks ==> s.tasks[id].pc.Finished?
    ensures Final(State(max, max, now, map[]), steps).free == max
  {
    GateConservation(max, now, steps);
    assert Holders(Final(State(max, max, now, map[]), steps).tasks) == {};
  }

  /** Past its deadline a prefix never submits again. */
  lemma {:induction false} NoLateSubmit(s: State, steps: seq<Step>, id: nat)
    requires Valid(s, steps) && id in s.tasks && s.now >= s.tasks[id].deadline
    ensures Do(id, Submit) !in steps
    decreases |steps|
  {
    if steps != [] {
      NoLateSubmit(Next(s, steps[0]), steps[1..], id);
    }
  }
}
