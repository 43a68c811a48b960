/**
 The intent engine of kvcm/kvcm/task_engine.py as a state machine. gRPC threads and the event loop interleave at
 every dictionary operation; the event loop runs its own callbacks one at a time, so `_finish` and the draining of
 the queue are chains of small loop steps between which threads may run.
 */
module Engine {
  import opened Base

  type Key = string
  type Rid = nat

  datatype Status = Pending | Ready | Failed

  /** Where a record is; for the proofs only, except that `queued` is the record's own flag. */
  datatype Place = Inserted(thread: nat) | Posted | Queued | Held(consumer: nat) | Ending | Over

  datatype Rec = Rec(key: Key, status: Status, queued: bool, place: Place)

  /** A terminal receipt; `rid` names the generation it speaks of. */
  datatype Receipt = Receipt(key: Key, status: Status, rid: Rid)

  datatype Worker = Waiting | Running(rid: Rid) | Settling | Dead

  /** How an execution ended; only a shutdown cancels a consumer. */
  datatype Outcome = Succeeded | FailedIntent | ProgError | WasCancelled

  /** A submitting thread: past the accepting check, or past the insertion of its own record. */
  datatype Thread = Checked(key: Key) | Owner(rid: Rid)

  datatype Stage = Checking | Marking | Writing | Evicting | Removing

  /** What the event loop does after a `_finish`. */
  datatype After =
    | Back | Settle(consumer: nat, outcome: Outcome) | DrainMore(dying: Option<nat>) | SweepMore(todo: seq<Rid>)

  datatype Loop =
    | Idle
    | Creating(key: Key)
    | Fin(rid: Rid, status: Status, stage: Stage, after: After)
    | Draining(dying: Option<nat>)
    | Sweeping(todo: seq<Rid>)

  datatype Phase = Up | Stopping | Down

  datatype State = State(
    records: map<Key, Rid>, recs: map<Rid, Rec>, nextRid: Rid,
    finished: seq<Receipt>, finishedMax: nat, evicted: set<Key>,
    queue: seq<Rid>, queueSize: nat, accepting: bool, errors: nat,
    workers: map<nat, Worker>, cleared: bool, phase: Phase,
    threads: map<nat, Thread>, posted: seq<Key>, loop: Loop)

  datatype Step =
    | Check(thread: nat, key: Key)
    | Insert(thread: nat)
    | Schedule(thread: nat)
    | Admit
    | Get(consumer: nat)
    | Return(consumer: nat, outcome: Outcome)
    | CancelIdle(consumer: nat)
    | BeginShutdown
    | JoinShutdown
    | BeginSweep(todo: seq<Rid>)
    | Tick

  // ---------------------------------------------------------------- the receipt ring

  function Without(f: seq<Receipt>, k: Key): seq<Receipt> {
    if f == [] then [] else (if f[0].key == k then [] else [f[0]]) + Without(f[1..], k)
  }

  /** Overwrite or append, then move to the end. */
  function Put(f: seq<Receipt>, r: Receipt): seq<Receipt> {
    Without(f, r.key) + [r]
  }

  ghost predicate HasReceipt(f: seq<Receipt>, k: Key) {
    exists i :: 0 <= i < |f| && f[i].key == k
  }

  // ---------------------------------------------------------------- helpers

  predicate Owns(s: State, r: Rid)
    requires r in s.recs
  {
    s.recs[r].key in s.records && s.records[s.recs[r].key] == r
  }

  function Move(s: State, r: Rid, p: Place): State
    requires r in s.recs
  {
    s.(recs := s.recs[r := s.recs[r].(place := p)])
  }

  /** A new record in an empty slot. */
  function Create(s: State, k: Key, p: Place): State {
    s.(records := s.records[k := s.nextRid], recs := s.recs[s.nextRid := Rec(k, Pending, false, p)],
       nextRid := s.nextRid + 1)
  }

  /** Start `_finish(r, status)`. */
  function StartFinish(s: State, r: Rid, status: Status, after: After): State
    requires r in s.recs
  {
    Move(s, r, Ending).(loop := Fin(r, status, Checking, after))
  }

  predicate QueueFull(s: State) { s.queueSize > 0 && |s.queue| >= s.queueSize }

  predicate OthersDone(s: State, c: nat) {
    s.cleared || forall d :: d in s.workers && d != c ==> s.workers[d].Dead?
  }

  function StatusOf(o: Outcome): Status { if o.Succeeded? then Ready else Failed }

  // ---------------------------------------------------------------- steps of threads

  function InsertOne(s: State, t: nat): State
    requires t in s.threads && s.threads[t].Checked?
  {
    var k := s.threads[t].key;
    if k in s.records then s.(threads := s.threads - {t})
    else Create(s, k, Inserted(t)).(threads := s.threads[t := Owner(s.nextRid)])
  }

  function ScheduleOne(s: State, t: nat): State
    requires t in s.threads && s.threads[t].Owner? && s.threads[t].rid in s.recs
  {
    var r := s.threads[t].rid;
    var s1 := if s.recs[r].place == Inserted(t) then Move(s, r, Posted) else s;
    s1.(threads := s.threads - {t}, posted := s.posted + [s.recs[r].key])
  }

  // ---------------------------------------------------------------- steps of the event loop

  /** `_admit` on a record that is in the slot. */
  function AdmitRecord(s: State, r: Rid): State
    requires r in s.recs
  {
    if s.recs[r].queued || !s.recs[r].status.Pending? then s
    else if !s.accepting then StartFinish(s, r, Failed, Back)
    else
      var s1 := s.(recs := s.recs[r := s.recs[r].(queued := true)]);
      if QueueFull(s) then StartFinish(s1, r, Failed, Back)
      else Move(s1, r, Queued).(queue := s.queue + [r])
  }

  function AdmitOne(s: State): State
    requires s.posted != []
    requires s.posted[0] in s.records ==> s.records[s.posted[0]] in s.recs
  {
    var k := s.posted[0];
    var s1 := s.(posted := s.posted[1..]);
    if k in s.records then AdmitRecord(s1, s.records[k]) else s1.(loop := Creating(k))
  }

  /** `_admit` creates the missing record unless a thread has just taken the slot. */
  function CreateOne(s: State, k: Key): State {
    if k in s.records then s.(loop := Idle)
    else AdmitRecord(Create(s, k, Posted).(loop := Idle), s.nextRid)
  }

  function SettleOne(s: State, c: nat, o: Outcome): State {
    match o
    case Succeeded => s.(errors := 0, workers := s.workers[c := Waiting], loop := Idle)
    case FailedIntent => s.(errors := 0, workers := s.workers[c := Waiting], loop := Idle)
    case WasCancelled => s.(workers := s.workers[c := Dead], loop := Idle)
    case ProgError =>
      var s1 := s.(errors := s.errors + 1);
      if s1.errors >= 3 || OthersDone(s, c) then s1.(accepting := false, loop := Draining(Some(c)))
      else s1.(workers := s.workers[c := Dead], loop := Idle)
  }

  function Continue(s: State, after: After): State {
    match after
    case Back => s.(loop := Idle)
    case Settle(c, o) => SettleOne(s, c, o)
    case DrainMore(dying) => s.(loop := Draining(dying))
    case SweepMore(todo) => s.(loop := Sweeping(todo))
  }

  /** One small step of `_finish`. */
  function FinishTick(s: State): State
    requires s.loop.Fin? && s.loop.rid in s.recs
  {
    var r, st := s.loop.rid, s.loop.status;
    var rec := s.recs[r];
    match s.loop.stage
    case Checking =>
      if Owns(s, r) && rec.status.Pending? then s.(loop := s.loop.(stage := Marking))
      else Continue(Move(s, r, Over), s.loop.after)
    case Marking => s.(recs := s.recs[r := rec.(status := st)], loop := s.loop.(stage := Writing))
    case Writing =>
      s.(finished := Put(s.finished, Receipt(rec.key, st, r)), evicted := s.evicted - {rec.key},
         loop := s.loop.(stage := Evicting))
    case Evicting =>
      if |s.finished| > s.finishedMax && s.finished != [] then
        s.(finished := s.finished[1..], evicted := s.evicted + {s.finished[0].key})
      else s.(loop := s.loop.(stage := Removing))
    case Removing => Continue(Move(s, r, Over).(records := s.records - {rec.key}), s.loop.after)
  }

  function DrainTick(s: State, dying: Option<nat>): State
    requires s.queue != [] ==> s.queue[0] in s.recs
  {
    if s.queue != [] then StartFinish(s.(queue := s.queue[1..]), s.queue[0], Failed, DrainMore(dying))
    else if dying.Some? then s.(workers := s.workers[dying.value := Dead], loop := Idle)
    else s
  }

  function SweepTick(s: State, todo: seq<Rid>): State
    requires todo != [] ==> todo[0] in s.recs
  {
    if todo == [] then s.(phase := Down, loop := Idle)
    else if s.recs[todo[0]].status.Pending? && !s.recs[todo[0]].queued then
      StartFinish(s, todo[0], Failed, SweepMore(todo[1..]))
    else s.(loop := Sweeping(todo[1..]))
  }

  // ---------------------------------------------------------------- the machine

  ghost predicate Enabled(s: State, step: Step) {
    match step
    case Check(t, _) => t !in s.threads && s.accepting
    case Insert(t) => t in s.threads && s.threads[t].Checked?
    case Schedule(t) => t in s.threads && s.threads[t].Owner? && s.threads[t].rid in s.recs
    case Admit =>
      s.loop.Idle? && s.posted != [] && (s.posted[0] in s.records ==> s.records[s.posted[0]] in s.recs)
    case Get(c) =>
      s.loop.Idle? && c in s.workers && s.workers[c].Waiting? && s.queue != [] && s.queue[0] in s.recs
    case Return(c, o) =>
      && s.loop.Idle? && c in s.workers && s.workers[c].Running? && s.workers[c].rid in s.recs
      && (o.WasCancelled? ==> !s.phase.Up?)
    case CancelIdle(c) => s.loop.Idle? && c in s.workers && s.workers[c].Waiting? && !s.phase.Up?
    case BeginShutdown => s.loop.Idle? && s.phase.Up?
    case JoinShutdown => s.loop.Idle? && s.phase.Stopping? && !s.cleared
    case BeginSweep(todo) =>
      && s.loop == Draining(None) && s.queue == []
      && forall r :: r in todo <==> r in s.records.Values
    case Tick =>
      match s.loop
      case Idle => false
      case Creating(_) => true
      case Fin(r, _, _, _) => r in s.recs
      case Draining(d) => (s.queue != [] ==> s.queue[0] in s.recs) && (s.queue == [] ==> d.Some?)
      case Sweeping(todo) => todo != [] ==> todo[0] in s.recs
  }

  function Next(s: State, step: Step): State
    requires Enabled(s, step)
  {
    match step
    case Check(t, k) => s.(threads := s.threads[t := Checked(k)])
    case Insert(t) => InsertOne(s, t)
    case Schedule(t) => ScheduleOne(s, t)
    case Admit => AdmitOne(s)
    case Get(c) =>
      Move(s, s.queue[0], Held(c)).(queue := s.queue[1..], workers := s.workers[c := Running(s.queue[0])])
    case Return(c, o) =>
      StartFinish(s.(workers := s.workers[c := Settling]), s.workers[c].rid, StatusOf(o), Settle(c, o))
    case CancelIdle(c) => s.(workers := s.workers[c := Dead])
    case BeginShutdown => s.(accepting := false, phase := Stopping)
    case JoinShutdown => s.(cleared := true, loop := Draining(None))
    case BeginSweep(todo) => s.(loop := Sweeping(todo))
    case Tick =>
      match s.loop
      case Idle => s
      case Creating(k) => CreateOne(s, k)
      case Fin(_, _, _, _) => FinishTick(s)
      case Draining(d) => DrainTick(s, d)
      case Sweeping(todo) => SweepTick(s, todo)
  }
}
