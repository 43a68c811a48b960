/** What every interleaving of the scheduler's steps keeps, and what whole runs can and cannot do. */
module SchedulerRuns {
  import opened Base
  import opened Scheduler

  // ---------------------------------------------------------------- runs

  function Init(maxInFlight: int): State {
    State(if maxInFlight <= 0 then 1 else maxInFlight, [], [], {}, map[], map[], false, map[], {}, {})
  }

  ghost predicate Valid(s: State, steps: seq<Step>)
    decreases |steps|
  {
    steps == [] || (Enabled(s, steps[0]) && Valid(Apply(s, steps[0]), steps[1..]))
  }

  ghost function Final(s: State, steps: seq<Step>): State
    requires Valid(s, steps)
    decreases |steps|
  {
    if steps == [] then s else Final(Apply(s, steps[0]), steps[1..])
  }

  // ---------------------------------------------------------------- places

  function One(b: bool): nat { if b then 1 else 0 }

  /** Everything the state says about one request. */
  datatype Look = Look(
    cell: Cell, waiting: bool, flying: bool, transit: Option<bool>, withdrawn: bool, dropped: bool)

  function LookAt(s: State, j: Job): Look
    requires j in s.cells
  {
    Look(s.cells[j], j in s.queue, j in s.inFlight,
         if j in s.transit then Some(s.transit[j]) else None, j in s.withdrawn, j in s.dropped)
  }

  /** In how many of the six places a request is. */
  function Places(v: Look): nat {
    One(v.waiting) + One(v.flying) + One(v.transit.Some?) +
    One(v.cell.sent != []) + One(v.withdrawn) + One(v.dropped)
  }

  /** The facts about one request that every step keeps. */
  predicate Good(v: Look) {
    var c := v.cell;
    && Places(v) == 1
    && |c.sent| <= 1
    && (v.flying || v.transit.Some? || c.sent != [] || v.dropped ==> c.started)
    && (c.result.Some? ==> c.cause.Some? && c.started)
    && (v.transit.Some? || c.sent != [] ==> c.result.Some?)
    && (v.transit == Some(true) ==> c.abandoned)
    && (c.abandoned ==> c.client.Cancelled? && c.started)
    && (c.client.Cancelled? ==> v.withdrawn || c.abandoned)
    && (v.withdrawn || v.dropped ==> c.client.Cancelled?)
    && (c.client.Received? ==> c.sent == [c.client.result])
    && (c.sent != [] ==> c.result == Some(c.sent[0]))
    && (v.waiting && c.result.Some? ==> c.result.value.Failed?)
  }

  ghost predicate Known(s: State) {
    && (forall j :: j in s.queue ==> j in s.cells)
    && s.inFlight <= s.cells.Keys
    && s.transit.Keys <= s.cells.Keys
    && s.withdrawn <= s.cells.Keys
    && s.dropped <= s.cells.Keys
  }

  ghost predicate Tickets(s: State) {
    forall a :: a in s.cells ==> 1 <= a.ticket <= |s.issued| && s.issued[a.ticket - 1] == a
  }

  ghost predicate AllGood(s: State) {
    forall j :: j in s.cells ==> Good(LookAt(s, j))
  }

  ghost predicate Inv(s: State) {
    s.maxInFlight >= 1 && Sorted(s.queue) && Known(s) && Tickets(s) && AllGood(s)
  }

  /** A step that changes what is known of one request only has to be checked on that request. */
  lemma OnlyOneChanged(s: State, s1: State, job: Job)
    requires AllGood(s) && s1.cells.Keys == s.cells.Keys + {job}
    requires forall j :: j in s.cells && j != job ==> LookAt(s1, j) == LookAt(s, j)
    requires Good(LookAt(s1, job))
    ensures AllGood(s1)
  {
    forall j | j in s1.cells ensures Good(LookAt(s1, j)) {
      if j != job { assert LookAt(s1, j) == LookAt(s, j); }
    }
  }

  // ---------------------------------------------------------------- one request

  function LookStart(v: Look, cause: Option<Cause>): Look {
    v.(waiting := false, flying := true, cell := v.cell.(started := true, result := None, cause := cause))
  }

  lemma GoodStart(v: Look, cause: Option<Cause>)
    requires Good(v) && v.waiting
    ensures Good(LookStart(v, cause))
  { }

  function LookReturn(v: Look, result: ExecResult): Look {
    v.(cell := FirstCause(v.cell, Returned(result)).(result := Some(result)))
  }

  lemma GoodReturn(v: Look, result: ExecResult)
    requires Good(v) && v.flying
    ensures Good(LookReturn(v, result))
  { }

  function LookFirst(v: Look): Look {
    v.(flying := false, transit := Some(v.cell.abandoned))
  }

  lemma GoodFirst(v: Look)
    requires Good(v) && v.flying && v.cell.result.Some?
    ensures Good(LookFirst(v))
  { }

  lemma GoodDrop(v: Look)
    requires Good(v) && v.transit == Some(true)
    ensures Good(v.(transit := None, dropped := true))
  { }

  lemma GoodRequeue(v: Look)
    requires Good(v) && v.transit.Some? && v.cell.result.value.Failed?
    ensures Good(v.(transit := None, waiting := true))
  { }

  function LookDeliver(v: Look): Look
    requires v.cell.result.Some?
  {
    v.(transit := None, cell := v.cell.(sent := v.cell.sent + [v.cell.result.value]))
  }

  lemma GoodDeliver(v: Look)
    requires Good(v) && v.transit.Some?
    ensures Good(LookDeliver(v))
  { }

  lemma GoodWithdraw(v: Look)
    requires Good(v) && v.waiting
    ensures Good(v.(waiting := false, withdrawn := true, cell := v.cell.(client := Cancelled)))
  { }

  function LookAbandon(v: Look): Look {
    v.(cell := FirstCause(v.cell.(client := Cancelled, abandoned := true), Abandoned))
  }

  lemma GoodAbandon(v: Look)
    requires Good(v) && v.cell.client.Selecting? && !v.waiting
    ensures v.cell.started && Good(LookAbandon(v))
  { }

  lemma GoodCause(v: Look, cause: Cause)
    requires Good(v) && v.flying
    ensures Good(v.(cell := FirstCause(v.cell, cause)))
  { }

  lemma GoodClient(v: Look, client: Client)
    requires Good(v) && v.cell.client in {Entering, Selecting}
    requires client == Selecting || (v.cell.sent != [] && client == Received(v.cell.sent[0]))
    ensures Good(v.(cell := v.cell.(client := client)))
  { }

  // ---------------------------------------------------------------- one step

  lemma InsertedQueue(s: State, job: Job)
    requires Sorted(s.queue) && (forall y :: y in s.queue ==> y.ticket != job.ticket)
    ensures Sorted(Insert(s.queue, job))
    ensures forall y :: y in Insert(s.queue, job) <==> y in s.queue || y == job
  {
    InsertKeepsSorted(s.queue, job);
    InsertMembers(s.queue, job);
  }

  lemma SubmitAllGood(s: State, priority: int, model: string)
    requires AllGood(s) && Known(s) && Tickets(s) && Sorted(s.queue)
    ensures AllGood(ApplySubmit(s, priority, model))
  {
    var job := Job(priority, |s.issued| + 1, model);
    assert job !in s.cells;
    var s1 := ApplySubmit(s, priority, model);
    forall j | j in s.cells ensures LookAt(s1, j) == LookAt(s, j) {
      InsertMembers(s.queue, job);
    }
    NewLook(s, job);
    OnlyOneChanged(s, s1, job);
  }

  lemma NewLook(s: State, job: Job)
    requires Known(s) && job !in s.cells && job == Job(job.priority, |s.issued| + 1, job.model)
    ensures Good(LookAt(ApplySubmit(s, job.priority, job.model), job))
  {
    InsertMembers(s.queue, job);
  }

  lemma SubmitKeepsInv(s: State, priority: int, model: string)
    requires Inv(s)
    ensures Inv(ApplySubmit(s, priority, model))
  {
    var job := Job(priority, |s.issued| + 1, model);
    assert job !in s.cells;
    InsertedQueue(s, job);
    var s1 := ApplySubmit(s, priority, model);
    assert Known(s1);
    assert Tickets(s1);
    SubmitAllGood(s, priority, model);
  }

  lemma StartOneAllGood(s: State, i: nat)
    requires AllGood(s) && Sorted(s.queue) && i < |s.queue| && s.queue[i] in s.cells
    ensures AllGood(StartOne(s, i))
  {
    var job, s1 := s.queue[i], StartOne(s, i);
    WithoutMembers(s.queue, i);
    GoodStart(LookAt(s, job), s1.cells[job].cause);
    assert LookAt(s1, job) == LookStart(LookAt(s, job), s1.cells[job].cause);
    OnlyOneChanged(s, s1, job);
  }

  lemma StartOneKeepsInv(s: State, i: nat)
    requires Inv(s) && i < |s.queue|
    ensures s.queue[i] in s.cells && Inv(StartOne(s, i))
  {
    var job := s.queue[i];
    assert job in s.queue;
    WithoutMembers(s.queue, i);
    var s1 := StartOne(s, i);
    assert Known(s1) && Tickets(s1);
    StartOneAllGood(s, i);
  }

  lemma {:induction false} StartKeepsInv(s: State, now: int)
    requires Inv(s)
    ensures QueueKnown(s) && Inv(StartEligible(s, now))
    decreases |s.queue|
  {
    var i := FirstEligible(s.queue, s.bp, now);
    if |s.inFlight| < s.maxInFlight && i < |s.queue| {
      StartOneKeepsInv(s, i);
      StartKeepsInv(StartOne(s, i), now);
    }
  }

  lemma CellChangedAllGood(s: State, job: Job, c: Cell)
    requires AllGood(s) && job in s.cells && Good(LookAt(s, job).(cell := c))
    ensures AllGood(s.(cells := s.cells[job := c]))
  {
    var s1 := s.(cells := s.cells[job := c]);
    assert LookAt(s1, job) == LookAt(s, job).(cell := c);
    OnlyOneChanged(s, s1, job);
  }

  /** A step that only rewrites the cell of one request. */
  lemma CellChanged(s: State, job: Job, c: Cell)
    requires Inv(s) && job in s.cells && Good(LookAt(s, job).(cell := c))
    ensures Inv(s.(cells := s.cells[job := c]))
  {
    var s1 := s.(cells := s.cells[job := c]);
    assert Known(s1) && Tickets(s1);
    CellChangedAllGood(s, job, c);
  }

  lemma FinishFirstAllGood(s: State, job: Job)
    requires AllGood(s) && Enabled(s, FinishFirst(job))
    ensures AllGood(ApplyFinishFirst(s, job))
  {
    var s1 := ApplyFinishFirst(s, job);
    GoodFirst(LookAt(s, job));
    assert LookAt(s1, job) == LookFirst(LookAt(s, job));
    OnlyOneChanged(s, s1, job);
  }

  lemma FinishFirstKeepsInv(s: State, job: Job)
    requires Inv(s) && Enabled(s, FinishFirst(job))
    ensures Inv(ApplyFinishFirst(s, job))
  {
    var s1 := ApplyFinishFirst(s, job);
    assert Known(s1) && Tickets(s1);
    FinishFirstAllGood(s, job);
  }

  lemma DropAllGood(s: State, job: Job)
    requires AllGood(s) && Enabled(s, FinishSecond(job)) && s.transit[job]
    ensures AllGood(ApplyFinishSecond(s, job))
  {
    var s1 := ApplyFinishSecond(s, job);
    GoodDrop(LookAt(s, job));
    assert LookAt(s1, job) == LookAt(s, job).(transit := None, dropped := true);
    OnlyOneChanged(s, s1, job);
  }

  lemma DropKeepsInv(s: State, job: Job)
    requires Inv(s) && Enabled(s, FinishSecond(job)) && s.transit[job]
    ensures Inv(ApplyFinishSecond(s, job))
  {
    var s1 := ApplyFinishSecond(s, job);
    assert Known(s1) && Tickets(s1);
    DropAllGood(s, job);
  }

  lemma RequeuedQueue(s: State, job: Job)
    requires Inv(s) && job in s.transit
    ensures Sorted(Insert(s.queue, job))
    ensures forall y :: y in Insert(s.queue, job) <==> y in s.queue || y == job
  {
    assert Good(LookAt(s, job));
    assert forall y :: y in s.queue ==> y.ticket != job.ticket;
    InsertedQueue(s, job);
  }

  lemma RequeueAllGood(s: State, job: Job)
    requires AllGood(s) && Enabled(s, FinishSecond(job)) && !s.transit[job] && WantsRequeue(s.cells[job])
    requires forall y :: y in Insert(s.queue, job) <==> y in s.queue || y == job
    ensures AllGood(ApplyFinishSecond(s, job))
  {
    var s1 := ApplyFinishSecond(s, job);
    GoodRequeue(LookAt(s, job));
    assert LookAt(s1, job) == LookAt(s, job).(transit := None, waiting := true);
    OnlyOneChanged(s, s1, job);
  }

  lemma RequeueKeepsInv(s: State, job: Job)
    requires Inv(s) && Enabled(s, FinishSecond(job)) && !s.transit[job] && WantsRequeue(s.cells[job])
    ensures Inv(ApplyFinishSecond(s, job))
  {
    var s1 := ApplyFinishSecond(s, job);
    RequeuedQueue(s, job);
    assert Known(s1) && Tickets(s1);
    RequeueAllGood(s, job);
  }

  lemma DeliverAllGood(s: State, job: Job)
    requires AllGood(s) && Enabled(s, FinishSecond(job)) && !s.transit[job] && !WantsRequeue(s.cells[job])
    ensures AllGood(ApplyFinishSecond(s, job))
  {
    var s1 := ApplyFinishSecond(s, job);
    GoodDeliver(LookAt(s, job));
    assert LookAt(s1, job) == LookDeliver(LookAt(s, job));
    OnlyOneChanged(s, s1, job);
  }

  lemma DeliverKeepsInv(s: State, job: Job)
    requires Inv(s) && Enabled(s, FinishSecond(job)) && !s.transit[job] && !WantsRequeue(s.cells[job])
    ensures Inv(ApplyFinishSecond(s, job))
  {
    var s1 := ApplyFinishSecond(s, job);
    assert Known(s1) && Tickets(s1);
    DeliverAllGood(s, job);
  }

  lemma FinishSecondKeepsInv(s: State, job: Job)
    requires Inv(s) && Enabled(s, FinishSecond(job))
    ensures Inv(ApplyFinishSecond(s, job))
  {
    if s.transit[job] {
      DropKeepsInv(s, job);
    } else if WantsRequeue(s.cells[job]) {
      RequeueKeepsInv(s, job);
    } else {
      DeliverKeepsInv(s, job);
    }
  }

  lemma WithdrawAllGood(s: State, job: Job)
    requires AllGood(s) && Sorted(s.queue) && Enabled(s, Cancel(job)) && job in s.queue
    ensures AllGood(ApplyCancel(s, job))
  {
    var s1 := ApplyCancel(s, job);
    WithoutMembers(s.queue, IndexOf(s.queue, job));
    GoodWithdraw(LookAt(s, job));
    assert LookAt(s1, job) ==
      LookAt(s, job).(waiting := false, withdrawn := true, cell := s.cells[job].(client := Cancelled));
    OnlyOneChanged(s, s1, job);
  }

  lemma WithdrawKeepsInv(s: State, job: Job)
    requires Inv(s) && Enabled(s, Cancel(job)) && job in s.queue
    ensures Inv(ApplyCancel(s, job))
  {
    var s1 := ApplyCancel(s, job);
    WithoutMembers(s.queue, IndexOf(s.queue, job));
    assert Known(s1) && Tickets(s1);
    WithdrawAllGood(s, job);
  }

  lemma CancelKeepsInv(s: State, job: Job)
    requires Inv(s) && Enabled(s, Cancel(job))
    ensures Inv(ApplyCancel(s, job))
  {
    if job in s.queue {
      WithdrawKeepsInv(s, job);
    } else {
      GoodAbandon(LookAt(s, job));
      assert Good(LookAt(s, job).(cell := LookAbandon(LookAt(s, job)).cell));
      CellChanged(s, job, LookAbandon(LookAt(s, job)).cell);
    }
  }

  lemma PreemptKeepsInv(s: State, job: Job, victim: Option<Job>)
    requires Inv(s) && job in s.cells && s.cells[job].client.Entering?
    requires victim.Some? ==> victim.value in s.inFlight
    ensures Inv(ApplyPreempt(s, job, victim))
  {
    GoodClient(LookAt(s, job), Selecting);
    CellChanged(s, job, s.cells[job].(client := Selecting));
    if victim.Some? {
      var s0 := ApplyPreempt(s, job, None);
      GoodCause(LookAt(s0, victim.value), Preempted);
      CellChanged(s0, victim.value, FirstCause(s0.cells[victim.value], Preempted));
    }
  }

  lemma ParentCancelKeepsInv(s: State)
    requires Inv(s)
    ensures Inv(Apply(s, ParentCancel))
  {
    var s1 := Apply(s, ParentCancel);
    assert AllGood(s1) by {
      forall j | j in s1.cells ensures Good(LookAt(s1, j)) {
        if j in s.inFlight {
          GoodCause(LookAt(s, j), ParentDone);
          assert LookAt(s1, j) == LookAt(s, j).(cell := FirstCause(s.cells[j], ParentDone));
        } else {
          assert LookAt(s1, j) == LookAt(s, j);
        }
      }
    }
    assert Known(s1) && Tickets(s1);
  }

  lemma SettingKeepsInv(s: State, step: Step)
    requires Inv(s) && (step.SetMax? || step.SetBackpressure?)
    ensures Inv(Apply(s, step))
  {
    var s1 := Apply(s, step);
    assert AllGood(s1) by {
      forall j | j in s1.cells ensures Good(LookAt(s1, j)) { assert LookAt(s1, j) == LookAt(s, j); }
    }
  }

  lemma ClientStepKeepsInv(s: State, step: Step)
    requires Inv(s) && Enabled(s, step) && (step.ExecReturn? || step.Receive?)
    ensures Inv(Apply(s, step))
  {
    var v := LookAt(s, step.job);
    if step.ExecReturn? {
      GoodReturn(v, step.result);
      assert Good(v.(cell := LookReturn(v, step.result).cell));
      CellChanged(s, step.job, LookReturn(v, step.result).cell);
    } else {
      GoodClient(v, Received(v.cell.sent[0]));
      CellChanged(s, step.job, v.cell.(client := Received(v.cell.sent[0])));
    }
  }

  /** Every step keeps the invariant. */
  lemma StepKeepsInv(s: State, step: Step)
    requires Inv(s) && Enabled(s, step)
    ensures Inv(Apply(s, step))
  {
    match step {
      case Submit(priority, model) => SubmitKeepsInv(s, priority, model);
      case Preempt(job, now, victim) => PreemptKeepsInv(s, job, victim);
      case Start(now) => StartKeepsInv(s, now);
      case FinishFirst(job) => FinishFirstKeepsInv(s, job);
      case FinishSecond(job) => FinishSecondKeepsInv(s, job);
      case Cancel(job) => CancelKeepsInv(s, job);
      case ParentCancel => ParentCancelKeepsInv(s);
      case SetMax(_) => SettingKeepsInv(s, step);
      case SetBackpressure(_, _) => SettingKeepsInv(s, step);
      case ExecReturn(_, _) => ClientStepKeepsInv(s, step);
      case Receive(_) => ClientStepKeepsInv(s, step);
    }
  }

  lemma {:induction false} RunKeepsInv(s: State, steps: seq<Step>)
    requires Inv(s) && Valid(s, steps)
    ensures Inv(Final(s, steps))
    decreases |steps|
  {
    if steps != [] {
      StepKeepsInv(s, steps[0]);
      RunKeepsInv(Apply(s, steps[0]), steps[1..]);
    }
  }

  // ---------------------------------------------------------------- how one request evolves

  lemma StartOneFrame(s: State, i: nat, j: Job)
    requires Inv(s) && j in s.cells && i < |s.queue|
    ensures s.queue[i] in s.cells
    ensures LookAt(StartOne(s, i), j) ==
      if j == s.queue[i] then LookStart(LookAt(s, j), if s.ctxDone then Some(ParentDone) else None) else LookAt(s, j)
    ensures j == s.queue[i] ==> !LookAt(StartOne(s, i), j).waiting
  {
    assert s.queue[i] in s.queue;
    WithoutMembers(s.queue, i);
  }

  /** `StartEligible` either leaves a request alone or starts it from the queue. */
  lemma {:induction false} StartFrame(s: State, now: int, j: Job)
    requires Inv(s) && j in s.cells
    ensures QueueKnown(s)
    ensures var r := StartEligible(s, now);
      j in r.cells && (LookAt(r, j) == LookAt(s, j) ||
                       (j in s.queue && LookAt(r, j) == LookStart(LookAt(s, j), r.cells[j].cause)))
    decreases |s.queue|
  {
    var i := FirstEligible(s.queue, s.bp, now);
    if |s.inFlight| < s.maxInFlight && i < |s.queue| {
      StartOneKeepsInv(s, i);
      StartOneFrame(s, i, j);
      StartFrame(StartOne(s, i), now, j);
    }
  }

  /** All that one step can do to one request. */
  predicate Evolves(v: Look, v1: Look, step: Step, j: Job) {
    match step
    case Start(_) => v1 == v || (v.waiting && v1 == LookStart(v, v1.cell.cause))
    case ExecReturn(job, r) => if job == j then v.flying && v.cell.result.None? && v1 == LookReturn(v, r) else v1 == v
    case FinishFirst(job) => if job == j then v.flying && v.cell.result.Some? && v1 == LookFirst(v) else v1 == v
    case FinishSecond(job) =>
      if job != j then v1 == v
      else v.transit.Some? && v.cell.result.Some? && v.cell.cause.Some? && v1 == LookSecond(v)
    case Cancel(job) =>
      if job != j then v1 == v
      else if v.waiting then v1 == v.(waiting := false, withdrawn := true, cell := v.cell.(client := Cancelled))
      else v1 == LookAbandon(v)
    case Receive(job) =>
      v1 == v || (v.cell.sent != [] && v1 == v.(cell := v.cell.(client := Received(v.cell.sent[0]))))
    case Preempt(_, _, _) =>
      v1 == v.(cell := v.cell.(cause := v1.cell.cause, client := v1.cell.client)) &&
      (v1.cell.client == v.cell.client || (v.cell.client.Entering? && v1.cell.client.Selecting?))
    case ParentCancel => v1 == v.(cell := v.cell.(cause := v1.cell.cause))
    case _ => v1 == v
  }

  function LookSecond(v: Look): Look
    requires v.transit.Some? && v.cell.result.Some? && v.cell.cause.Some?
  {
    if v.transit.value then v.(transit := None, dropped := true)
    else if WantsRequeue(v.cell) then v.(transit := None, waiting := true)
    else LookDeliver(v)
  }

  lemma SubmitEvolves(s: State, priority: int, model: string, j: Job)
    requires Inv(s) && j in s.cells
    ensures j in ApplySubmit(s, priority, model).cells
    ensures LookAt(ApplySubmit(s, priority, model), j) == LookAt(s, j)
  {
    var job := Job(priority, |s.issued| + 1, model);
    assert job !in s.cells;
    InsertMembers(s.queue, job);
  }

  lemma FinishSecondEvolves(s: State, job: Job, j: Job)
    requires Inv(s) && Enabled(s, FinishSecond(job)) && j in s.cells
    ensures j in ApplyFinishSecond(s, job).cells
    ensures LookAt(ApplyFinishSecond(s, job), j) == if job == j then LookSecond(LookAt(s, j)) else LookAt(s, j)
  {
    assert Good(LookAt(s, j));
    if s.transit[job] {
      DropLooks(s, job, j);
    } else if WantsRequeue(s.cells[job]) {
      RequeueLooks(s, job, j);
    } else {
      DeliverLooks(s, job, j);
    }
  }

  lemma DropLooks(s: State, job: Job, j: Job)
    requires Enabled(s, FinishSecond(job)) && j in s.cells && s.transit[job]
    ensures LookAt(ApplyFinishSecond(s, job), j) == if job == j then LookSecond(LookAt(s, j)) else LookAt(s, j)
  { }

  lemma RequeueLooks(s: State, job: Job, j: Job)
    requires Enabled(s, FinishSecond(job)) && j in s.cells && !s.transit[job] && WantsRequeue(s.cells[job])
    ensures LookAt(ApplyFinishSecond(s, job), j) == if job == j then LookSecond(LookAt(s, j)) else LookAt(s, j)
  {
    InsertMembers(s.queue, job);
  }

  lemma DeliverLooks(s: State, job: Job, j: Job)
    requires Enabled(s, FinishSecond(job)) && j in s.cells && !s.transit[job] && !WantsRequeue(s.cells[job])
    ensures j in ApplyFinishSecond(s, job).cells
    ensures LookAt(ApplyFinishSecond(s, job), j) == if job == j then LookSecond(LookAt(s, j)) else LookAt(s, j)
  { }

  lemma CancelEvolves(s: State, job: Job, j: Job)
    requires Inv(s) && Enabled(s, Cancel(job)) && j in s.cells
    ensures Evolves(LookAt(s, j), LookAt(ApplyCancel(s, job), j), Cancel(job), j)
  {
    if job in s.queue {
      WithdrawEvolves(s, job, j);
    } else {
      AbandonEvolves(s, job, j);
    }
  }

  lemma WithdrawEvolves(s: State, job: Job, j: Job)
    requires Inv(s) && Enabled(s, Cancel(job)) && j in s.cells && job in s.queue
    ensures j in ApplyCancel(s, job).cells
    ensures Evolves(LookAt(s, j), LookAt(ApplyCancel(s, job), j), Cancel(job), j)
  {
    WithoutMembers(s.queue, IndexOf(s.queue, job));
  }

  lemma AbandonEvolves(s: State, job: Job, j: Job)
    requires Inv(s) && Enabled(s, Cancel(job)) && j in s.cells && job !in s.queue
    ensures j in ApplyCancel(s, job).cells
    ensures Evolves(LookAt(s, j), LookAt(ApplyCancel(s, job), j), Cancel(job), j)
  {
    if job == j { GoodAbandon(LookAt(s, j)); }
  }

  lemma PreemptEvolves(s: State, job: Job, victim: Option<Job>, j: Job)
    requires job in s.cells && j in s.cells && s.cells[job].client.Entering?
    requires victim.Some? ==> victim.value in s.cells
    ensures forall now :: Evolves(LookAt(s, j), LookAt(ApplyPreempt(s, job, victim), j), Preempt(job, now, victim), j)
  { }

  lemma FlightEvolves(s: State, step: Step, j: Job)
    requires Enabled(s, step) && j in s.cells && (step.ExecReturn? || step.FinishFirst? || step.Receive?)
    ensures j in Apply(s, step).cells
    ensures Evolves(LookAt(s, j), LookAt(Apply(s, step), j), step, j)
  { }

  lemma SettingEvolves(s: State, step: Step, j: Job)
    requires Enabled(s, step) && j in s.cells && (step.SetMax? || step.SetBackpressure? || step.ParentCancel?)
    ensures j in Apply(s, step).cells
    ensures Evolves(LookAt(s, j), LookAt(Apply(s, step), j), step, j)
  { }

  lemma QueueEvolves(s: State, step: Step, j: Job)
    requires Inv(s) && Enabled(s, step) && j in s.cells && (step.Submit? || step.Start? || step.Preempt?)
    ensures j in Apply(s, step).cells
    ensures Evolves(LookAt(s, j), LookAt(Apply(s, step), j), step, j)
  {
    match step {
      case Submit(priority, model) => SubmitEvolves(s, priority, model, j);
      case Preempt(job, now, victim) => PreemptEvolves(s, job, victim, j);
      case Start(now) => StartFrame(s, now, j);
      case _ =>
    }
  }

  lemma LeaveEvolves(s: State, step: Step, j: Job)
    requires Inv(s) && Enabled(s, step) && j in s.cells && (step.FinishSecond? || step.Cancel?)
    ensures j in Apply(s, step).cells
    ensures Evolves(LookAt(s, j), LookAt(Apply(s, step), j), step, j)
  {
    if step.Cancel? {
      CancelEvolves(s, step.job, j);
    } else {
      FinishSecondEvolves(s, step.job, j);
    }
  }

  /** Every step moves every known request along `Evolves`. */
  lemma StepEvolves(s: State, step: Step, j: Job)
    requires Inv(s) && Enabled(s, step) && j in s.cells
    ensures j in Apply(s, step).cells
    ensures Evolves(LookAt(s, j), LookAt(Apply(s, step), j), step, j)
  {
    if step.Submit? || step.Start? || step.Preempt? {
      QueueEvolves(s, step, j);
    } else if step.FinishSecond? || step.Cancel? {
      LeaveEvolves(s, step, j);
    } else if step.ExecReturn? || step.FinishFirst? || step.Receive? {
      FlightEvolves(s, step, j);
    } else {
      SettingEvolves(s, step, j);
    }
  }
}
