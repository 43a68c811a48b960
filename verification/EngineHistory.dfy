/**
 What the engine reports and when it stops, told from the steps of the run: how each intent was executed, in which
 order intents left the queue, and how many executions crashed in a row.
 */
module EngineHistory {
  import opened Base
  import opened Engine
  import opened EngineRuns
  import opened EngineTheorems

  lemma {:induction false} SplitLast(s: State, steps: seq<Step>)
    requires Valid(s, steps) && steps != []
    ensures var n := |steps| - 1;
      && Valid(s, steps[..n]) && Enabled(Final(s, steps[..n]), steps[n])
      && Final(s, steps) == Next(Final(s, steps[..n]), steps[n])
    decreases |steps|
  {
    var n := |steps| - 1;
    if n > 0 {
      SplitLast(Next(s, steps[0]), steps[1..]);
      assert steps[1..][..n - 1] == steps[..n][1..] && steps[1..][n - 1] == steps[n];
    } else {
      assert steps[1..] == [] && steps[..0] == [];
    }
  }

  // ---------------------------------------------------------------- what is reported

  /** The step ends the execution of record `r`. */
  predicate EndsRun(s: State, step: Step, r: Rid) {
    step.Return? && step.consumer in s.workers && s.workers[step.consumer] == Running(r)
  }

  /** How the execution of record `r` ended, if it was executed to an end. */
  ghost function EndedAs(s: State, steps: seq<Step>, r: Rid): Option<Outcome>
    requires Valid(s, steps)
    decreases |steps|
  {
    if steps == [] then None else
      SplitLast(s, steps);
      var front, step := steps[..|steps| - 1], steps[|steps| - 1];
      if EndsRun(Final(s, front), step, r) then Some(step.outcome) else EndedAs(s, front, r)
  }

  /** Status, and the status that the loop is about to give, agree with how the execution ended. */
  ghost predicate Agrees(s: State, r: Rid, ended: Option<Outcome>) {
    if r !in s.recs then ended == None else
      var status, ending := s.recs[r].status, s.loop.Fin? && s.loop.rid == r;
      && (!status.Pending? ==> (status.Ready? <==> ended == Some(Succeeded)))
      && (ending ==> (s.loop.status.Ready? <==> ended == Some(Succeeded)))
      && (status.Pending? && ended.Some? ==> ending)
  }

  /** What one section of `_finish` does to statuses. */
  lemma FinishMarks(s: State, r: Rid)
    requires Heap(s) && s.loop.Fin? && (r in s.recs || r in FinishTick(s).recs)
    ensures var s1 := FinishTick(s);
      && r in s1.recs && r in s.recs
      && (r != s.loop.rid ==> s1.recs[r].status == s.recs[r].status)
      && (s1.recs[r].status == s.recs[r].status || (r == s.loop.rid && s1.recs[r].status == s.loop.status))
      && (if s1.loop.Fin? then s1.loop.rid == s.loop.rid && s1.loop.status == s.loop.status
          else r == s.loop.rid ==> s1.recs[r].status == s.loop.status)
  {
    assert RecOk(s, s.loop.rid);
    match s.loop.stage {
      case Checking => CheckingTick(s);
      case Marking => MarkingTick(s);
      case Writing => WritingTick(s);
      case Evicting => EvictingTick(s);
      case Removing => RemovalEnds(s);
    }
  }

  lemma RemovalEnds(s: State)
    requires s.loop.Fin? && s.loop.rid in s.recs && s.loop.stage.Removing?
    ensures FinishTick(s).recs == Move(s, s.loop.rid, Over).recs && !FinishTick(s).loop.Fin?
  {
    ContinueFrame(Move(s, s.loop.rid, Over).(records := s.records - {s.recs[s.loop.rid].key}), s.loop.after);
  }

  lemma FinishAgrees(s: State, r: Rid, ended: Option<Outcome>)
    requires Inv(s) && s.loop.Fin? && Agrees(s, r, ended)
    ensures Agrees(FinishTick(s), r, ended)
  {
    assert RecOk(s, s.loop.rid);
    FinishMarks(s, s.loop.rid);
    if r in s.recs || r in FinishTick(s).recs {
      FinishMarks(s, r);
    }
  }

  /** How a `_finish` begins: with what an execution came to, or with a failure of a record that was not executed. */
  ghost predicate BeginsFinish(s: State, step: Step, s1: State) {
    s1.loop.Fin? ==>
      if step.Return? then
        && step.consumer in s.workers && s.workers[step.consumer] == Running(s1.loop.rid)
        && (s1.loop.status.Ready? <==> step.outcome.Succeeded?)
      else s1.loop.status.Failed? && (s1.loop.rid in s.recs ==> s.recs[s1.loop.rid].status.Pending?)
  }

  lemma LoopBegins(s: State, step: Step)
    requires Heap(s) && Enabled(s, step) && s.loop.Idle? && !step.Tick?
    ensures BeginsFinish(s, step, Next(s, step))
  { }

  lemma CreateBegins(s: State, k: Key)
    requires Heap(s)
    ensures BeginsFinish(s, Tick, CreateOne(s, k))
  {
    assert s.nextRid !in s.recs;
  }

  lemma TickBegins(s: State)
    requires Heap(s) && Enabled(s, Tick) && !s.loop.Fin?
    ensures BeginsFinish(s, Tick, Next(s, Tick))
  {
    if s.loop.Creating? {
      CreateBegins(s, s.loop.key);
    } else if s.loop.Draining? && s.queue != [] {
      assert s.queue[0] in s.queue && RecOk(s, s.queue[0]);
    }
  }

  lemma AdmitNothingNew(s: State, r: Rid, q: Rid)
    requires r in s.recs && q in AdmitRecord(s, r).recs
    ensures q in s.recs && AdmitRecord(s, r).recs[q].status == s.recs[q].status
  { }

  lemma CreateNew(s: State, k: Key, r: Rid)
    requires r !in s.recs && r in CreateOne(s, k).recs
    ensures CreateOne(s, k).recs[r].status.Pending?
  {
    if k !in s.records {
      AdmitNothingNew(Create(s, k, Posted).(loop := Idle), s.nextRid, r);
    }
  }

  lemma DrainNothingNew(s: State, r: Rid)
    requires Enabled(s, Tick) && (s.loop.Draining? || s.loop.Sweeping?) && r in Next(s, Tick).recs
    ensures r in s.recs
  { }

  lemma LoopNothingNew(s: State, step: Step, r: Rid)
    requires Enabled(s, step) && !step.Tick? && !step.Insert? && r in Next(s, step).recs
    ensures r in s.recs
  {
    if step.Admit? && s.posted[0] in s.records {
      AdmitNothingNew(s.(posted := s.posted[1..]), s.records[s.posted[0]], r);
    }
  }

  /** A new record is pending. */
  lemma NewIsPending(s: State, step: Step, r: Rid)
    requires Heap(s) && Enabled(s, step) && r !in s.recs && r in Next(s, step).recs
    ensures Next(s, step).recs[r].status.Pending?
  {
    if step.Insert? {
    } else if !step.Tick? {
      LoopNothingNew(s, step, r);
    } else {
      match s.loop {
        case Creating(k) => CreateNew(s, k, r);
        case Fin(_, _, _, _) => FinishMarks(s, r);
        case _ => DrainNothingNew(s, r);
      }
    }
  }

  /** A step outside `_finish`. */
  lemma QuietAgrees(s: State, s1: State, step: Step, r: Rid, ended: Option<Outcome>)
    requires Frame(s, s1) && Agrees(s, r, ended) && BeginsFinish(s, step, s1) && !s.loop.Fin?
    requires r !in s.recs && r in s1.recs ==> s1.recs[r].status.Pending?
    requires EndsRun(s, step, r) ==> r in s.recs && s.recs[r].status.Pending? && s1.loop.Fin? && s1.loop.rid == r
    ensures Agrees(s1, r, if EndsRun(s, step, r) then Some(step.outcome) else ended)
  { }

  lemma ReturnAgrees(s: State, step: Step, r: Rid, ended: Option<Outcome>)
    requires Inv(s) && Enabled(s, step) && Agrees(s, r, ended) && !s.loop.Fin?
    requires !step.Check? && !step.Insert? && !step.Schedule?
    ensures Agrees(Next(s, step), r, if EndsRun(s, step, r) then Some(step.outcome) else ended)
  {
    var s1 := Next(s, step);
    if step.Tick? {
      QuietTickFrame(s);
      TickBegins(s);
    } else {
      LoopFrame(s, step);
      if s.loop.Idle? { LoopBegins(s, step); }
    }
    if r !in s.recs && r in s1.recs { NewIsPending(s, step, r); }
    if EndsRun(s, step, r) { assert RecOk(s, r); }
    QuietAgrees(s, s1, step, r, ended);
  }

  lemma StepAgrees(s: State, step: Step, r: Rid, ended: Option<Outcome>)
    requires Inv(s) && Enabled(s, step) && Agrees(s, r, ended)
    ensures Agrees(Next(s, step), r, if EndsRun(s, step, r) then Some(step.outcome) else ended)
  {
    if step.Check? || step.Insert? || step.Schedule? {
      ThreadFrame(s, step);
      if r !in s.recs && r in Next(s, step).recs { NewIsPending(s, step, r); }
    } else if s.loop.Fin? {
      FinishAgrees(s, r, ended);
    } else {
      ReturnAgrees(s, step, r, ended);
    }
  }

  lemma {:induction false} RunAgrees(n: nat, queueSize: nat, finishedMax: nat, steps: seq<Step>, r: Rid)
    requires n > 0 && Valid(Init(n, queueSize, finishedMax), steps)
    ensures var s0 := Init(n, queueSize, finishedMax);
      Inv(Final(s0, steps)) && Agrees(Final(s0, steps), r, EndedAs(s0, steps, r))
    decreases |steps|
  {
    var s0 := Init(n, queueSize, finishedMax);
    InitInv(n, queueSize, finishedMax);
    RunKeepsInv(s0, steps);
    if steps != [] {
      var k := |steps| - 1;
      SplitLast(s0, steps);
      RunAgrees(n, queueSize, finishedMax, steps[..k], r);
      StepAgrees(Final(s0, steps[..k]), steps[k], r, EndedAs(s0, steps[..k], r));
    }
  }

  /**
   What is reported, for every run. An intent is reported ready exactly when its execution succeeded, and failed when
   it raised, crashed or was cancelled and when it was never executed: refused, drained or swept. The receipts say the
   same, and an intent whose execution is over is terminal or being finished.
   */
  lemma ReportedExactly(n: nat, queueSize: nat, finishedMax: nat, steps: seq<Step>)
    requires n > 0 && Valid(Init(n, queueSize, finishedMax), steps)
    ensures var s0 := Init(n, queueSize, finishedMax); var s := Final(s0, steps);
      && (forall r :: r in s.recs && !s.recs[r].status.Pending? ==>
            s.recs[r].status == if EndedAs(s0, steps, r) == Some(Succeeded) then Ready else Failed)
      && (forall r :: r in s.recs && s.recs[r].status.Pending? && EndedAs(s0, steps, r).Some? ==>
            s.loop.Fin? && s.loop.rid == r)
      && (forall i :: 0 <= i < |s.finished| ==>
            s.finished[i].status == if EndedAs(s0, steps, s.finished[i].rid) == Some(Succeeded) then Ready else Failed)
  {
    var s0 := Init(n, queueSize, finishedMax);
    var s := Final(s0, steps);
    InitInv(n, queueSize, finishedMax);
    RunKeepsInv(s0, steps);
    forall r ensures Agrees(s, r, EndedAs(s0, steps, r)) {
      RunAgrees(n, queueSize, finishedMax, steps, r);
    }
  }

  // ---------------------------------------------------------------- the queue

  /** The record that a step takes from the queue, to run it or to fail it. */
  ghost function TakenBy(s: State, step: Step): Option<Rid>
    requires Enabled(s, step)
  {
    var s1 := Next(s, step);
    if step.Get? && step.consumer in s1.workers && s1.workers[step.consumer].Running? then
      Some(s1.workers[step.consumer].rid)
    else if step.Tick? && s.loop.Draining? && s1.loop.Fin? then Some(s1.loop.rid)
    else None
  }

  /** What one step does to the queue: it takes the first record, or adds one where there is room. */
  ghost predicate QueueMoves(s: State, step: Step, s1: State)
    requires Enabled(s, step)
  {
    && s1.queueSize == s.queueSize
    && (TakenBy(s, step).Some? ==> s.queue == [TakenBy(s, step).value] + s1.queue)
    && (TakenBy(s, step).None? ==> s1.queue == s.queue || (s.queue < s1.queue && |s1.queue| == |s.queue| + 1))
    && (|s1.queue| > |s.queue| ==> s.accepting && (s.queueSize > 0 ==> |s.queue| < s.queueSize))
  }

  lemma AdmitQueue(s: State, r: Rid)
    requires r in s.recs && s.loop.Idle?
    ensures var s1 := AdmitRecord(s, r);
      && s1.queueSize == s.queueSize
      && (s1.queue == s.queue ||
          (s.accepting && (s.queueSize > 0 ==> |s.queue| < s.queueSize) && s1.queue == s.queue + [r]))
  { }

  lemma LoopMovesQueue(s: State, step: Step)
    requires Enabled(s, step) && !step.Tick?
    ensures QueueMoves(s, step, Next(s, step))
  {
    if step.Admit? && s.posted[0] in s.records {
      AdmitQueue(s.(posted := s.posted[1..]), s.records[s.posted[0]]);
    }
  }

  lemma SettleQueue(s: State, c: nat, o: Outcome)
    ensures SettleOne(s, c, o).queue == s.queue && SettleOne(s, c, o).queueSize == s.queueSize
  { }

  lemma ContinueQueue(s: State, after: After)
    ensures Continue(s, after).queue == s.queue && Continue(s, after).queueSize == s.queueSize
  {
    if after.Settle? { SettleQueue(s, after.consumer, after.outcome); }
  }

  lemma FinishQueue(s: State)
    requires Heap(s) && s.loop.Fin?
    ensures FinishTick(s).queue == s.queue && FinishTick(s).queueSize == s.queueSize
  {
    assert RecOk(s, s.loop.rid);
    match s.loop.stage {
      case Checking => CheckingTick(s);
      case Marking => MarkingTick(s);
      case Writing => WritingTick(s);
      case Evicting => EvictingTick(s);
      case Removing =>
        ContinueQueue(Move(s, s.loop.rid, Over).(records := s.records - {s.recs[s.loop.rid].key}), s.loop.after);
    }
  }

  lemma CreateQueue(s: State, k: Key)
    ensures var s1 := CreateOne(s, k);
      && s1.queueSize == s.queueSize
      && (s1.queue == s.queue ||
          (s.accepting && (s.queueSize > 0 ==> |s.queue| < s.queueSize) && s1.queue == s.queue + [s.nextRid]))
  {
    if k !in s.records {
      AdmitQueue(Create(s, k, Posted).(loop := Idle), s.nextRid);
    }
  }

  lemma DrainMovesQueue(s: State)
    requires Enabled(s, Tick) && s.loop.Draining?
    ensures QueueMoves(s, Tick, DrainTick(s, s.loop.dying))
  { }

  lemma SweepMovesQueue(s: State)
    requires Enabled(s, Tick) && s.loop.Sweeping?
    ensures QueueMoves(s, Tick, SweepTick(s, s.loop.todo))
  { }

  lemma FinishMovesQueue(s: State)
    requires Heap(s) && Enabled(s, Tick) && s.loop.Fin?
    ensures QueueMoves(s, Tick, FinishTick(s))
  {
    FinishQueue(s);
  }

  lemma CreateMovesQueue(s: State)
    requires Enabled(s, Tick) && s.loop.Creating?
    ensures QueueMoves(s, Tick, CreateOne(s, s.loop.key))
  {
    CreateQueue(s, s.loop.key);
  }

  lemma StepMovesQueue(s: State, step: Step)
    requires Heap(s) && Enabled(s, step)
    ensures QueueMoves(s, step, Next(s, step))
  {
    if !step.Tick? {
      LoopMovesQueue(s, step);
    } else {
      match s.loop {
        case Creating(_) => CreateMovesQueue(s);
        case Fin(_, _, _, _) => FinishMovesQueue(s);
        case Draining(_) => DrainMovesQueue(s);
        case Sweeping(_) => SweepMovesQueue(s);
      }
    }
  }

  /** The records that a run adds to the queue, in order. */
  ghost function Joined(s: State, steps: seq<Step>): seq<Rid>
    requires Valid(s, steps)
    decreases |steps|
  {
    if steps == [] then [] else
      var s1 := Next(s, steps[0]);
      (if |s1.queue| > |s.queue| then [s1.queue[|s1.queue| - 1]] else []) + Joined(s1, steps[1..])
  }

  /** The records that a run takes from the queue, in order. */
  ghost function Taken(s: State, steps: seq<Step>): seq<Rid>
    requires Valid(s, steps)
    decreases |steps|
  {
    if steps == [] then [] else
      var taken := TakenBy(s, steps[0]);
      (if taken.Some? then [taken.value] else []) + Taken(Next(s, steps[0]), steps[1..])
  }

  /** A bounded queue stays within its bound. */
  lemma {:induction false} QueueBounded(s: State, steps: seq<Step>)
    requires Inv(s) && Valid(s, steps) && 0 < s.queueSize && |s.queue| <= s.queueSize
    ensures |Final(s, steps).queue| <= s.queueSize
    decreases |steps|
  {
    if steps != [] {
      StepMovesQueue(s, steps[0]);
      StepKeepsInv(s, steps[0]);
      QueueBounded(Next(s, steps[0]), steps[1..]);
    }
  }

  /** First in, first out: what a run takes, in order, is what was waiting and what joined. */
  lemma {:induction false} FirstInFirstOut(s: State, steps: seq<Step>)
    requires Inv(s) && Valid(s, steps)
    ensures s.queue + Joined(s, steps) == Taken(s, steps) + Final(s, steps).queue
    decreases |steps|
  {
    if steps != [] {
      var s1 := Next(s, steps[0]);
      StepMovesQueue(s, steps[0]);
      StepKeepsInv(s, steps[0]);
      FirstInFirstOut(s1, steps[1..]);
      QueueShifts(s.queue, s1.queue, TakenBy(s, steps[0]), Joined(s1, steps[1..]), Taken(s1, steps[1..]),
                  Final(s1, steps[1..]).queue);
    }
  }

  lemma QueueShifts(q: seq<Rid>, q1: seq<Rid>, taken: Option<Rid>, joined: seq<Rid>, rest: seq<Rid>, last: seq<Rid>)
    requires q1 + joined == rest + last
    requires if taken.Some? then q == [taken.value] + q1 else q1 == q || (q < q1 && |q1| == |q| + 1)
    ensures q + ((if |q1| > |q| then [q1[|q1| - 1]] else []) + joined) ==
      (if taken.Some? then [taken.value] else []) + rest + last
  {
    var none: seq<Rid> := [];
    assert none + joined == joined && none + rest == rest;
    if taken.Some? {
      assert q + joined == [taken.value] + (q1 + joined);
      assert [taken.value] + rest + last == [taken.value] + (rest + last);
    } else if q1 != q {
      assert q1 == q + [q1[|q1| - 1]];
      assert q + ([q1[|q1| - 1]] + joined) == q1 + joined;
    }
  }

  /**
   What a submission comes to. The thread that finds the slot free gets a new pending record of its own and posts one
   callback for it; a thread that finds it taken leaves without a trace.
   */
  lemma SubmittedExactly(s: State, t: nat)
    requires Inv(s) && Enabled(s, Insert(t))
    ensures var s1, k, r := Next(s, Insert(t)), s.threads[t].key, s.nextRid;
      if k in s.records then s1 == s.(threads := s.threads - {t})
      else
        && r !in s.recs && s1.records == s.records[k := r] && r in s1.recs && s1.recs[r].status.Pending?
        && s1.recs[r].key == k && !s1.recs[r].queued
        && Enabled(s1, Schedule(t)) && Next(s1, Schedule(t)).posted == s.posted + [k]
        && t !in Next(s1, Schedule(t)).threads
  { }

  /**
   What an admission comes to. A record that is owed one joins the queue exactly when intents are accepted and there
   is room, and is failed otherwise; nothing happens to one that has been admitted or is terminal.
   */
  lemma AdmittedExactly(s: State)
    requires Inv(s) && Enabled(s, Admit) && s.posted[0] in s.records
    ensures var s1, r := Next(s, Admit), s.records[s.posted[0]];
      && r in s1.recs
      && (!s.recs[r].queued && s.recs[r].status.Pending? ==>
            if s.accepting && (s.queueSize == 0 || |s.queue| < s.queueSize) then
              s1.queue == s.queue + [r] && s1.recs[r].queued && s1.loop.Idle?
            else s1.queue == s.queue && s1.loop.Fin? && s1.loop.rid == r && s1.loop.status.Failed?)
      && (s.recs[r].queued || !s.recs[r].status.Pending? ==> s1 == s.(posted := s.posted[1..]))
  { }

  // ---------------------------------------------------------------- the sweep of a shutdown

  /** The records that the shutdown's sweep listed. */
  function SweepList(steps: seq<Step>): seq<Rid> {
    if steps == [] then []
    else if steps[|steps| - 1].BeginSweep? then steps[|steps| - 1].todo
    else SweepList(steps[..|steps| - 1])
  }

  /** During the sweep a listed record is still to be done, being finished, or settled unless a consumer has it. */
  ghost predicate SweptOff(s: State, r: Rid) {
    InSweep(s.loop) ==>
      || r in Todo(s.loop) || (s.loop.Fin? && s.loop.rid == r)
      || (r in s.recs && (!s.recs[r].status.Pending? || s.recs[r].queued))
  }

  lemma ThreadKeepsQueued(s: State, step: Step, r: Rid)
    requires Heap(s) && Enabled(s, step) && (step.Check? || step.Insert? || step.Schedule?) && r in s.recs
    ensures r in Next(s, step).recs && Next(s, step).recs[r].queued == s.recs[r].queued
    ensures Next(s, step).recs[r].status == s.recs[r].status && Next(s, step).loop == s.loop
  {
    ThreadFrame(s, step);
  }

  lemma FinishKeepsQueued(s: State, r: Rid)
    requires Heap(s) && s.loop.Fin? && r in s.recs
    ensures r in FinishTick(s).recs && FinishTick(s).recs[r].queued == s.recs[r].queued
  {
    assert RecOk(s, s.loop.rid);
    match s.loop.stage {
      case Checking => CheckingTick(s);
      case Marking => MarkingTick(s);
      case Writing => WritingTick(s);
      case Evicting => EvictingTick(s);
      case Removing => RemovalEnds(s);
    }
  }

  /** Where the loop is after a section of `_finish`. */
  lemma FinishLoop(s: State)
    requires Heap(s) && s.loop.Fin?
    ensures var l := FinishTick(s).loop;
      if l.Fin? then l == s.loop.(stage := l.stage)
      else
        match s.loop.after
        case SweepMore(todo) => l == Sweeping(todo)
        case _ => !l.Sweeping?
  {
    assert RecOk(s, s.loop.rid);
    match s.loop.stage {
      case Checking => CheckingTick(s);
      case Marking => MarkingTick(s);
      case Writing => WritingTick(s);
      case Evicting => EvictingTick(s);
      case Removing =>
        ContinueLoop(Move(s, s.loop.rid, Over).(records := s.records - {s.recs[s.loop.rid].key}), s.loop.after);
    }
  }

  lemma SettleLoop(s: State, c: nat, o: Outcome)
    ensures !SettleOne(s, c, o).loop.Fin? && !SettleOne(s, c, o).loop.Sweeping?
  { }

  lemma ContinueLoop(s: State, after: After)
    ensures !Continue(s, after).loop.Fin?
    ensures after.SweepMore? ==> Continue(s, after).loop == Sweeping(after.todo)
    ensures !after.SweepMore? ==> !Continue(s, after).loop.Sweeping?
  {
    if after.Settle? { SettleLoop(s, after.consumer, after.outcome); }
  }

  lemma FinishSweepsOff(s: State, r: Rid)
    requires Inv(s) && s.loop.Fin? && s.loop.after.SweepMore? && SweptOff(s, r)
    ensures SweptOff(FinishTick(s), r)
  {
    FinishLoop(s);
    FinishMarks(s, s.loop.rid);
    if r in s.recs {
      FinishMarks(s, r);
      FinishKeepsQueued(s, r);
    }
  }

  lemma SweepTickOff(s: State, r: Rid)
    requires Inv(s) && s.loop.Sweeping? && Enabled(s, Tick) && SweptOff(s, r)
    ensures SweptOff(SweepTick(s, s.loop.todo), r)
  {
    var todo := s.loop.todo;
    if todo != [] {
      HeadSwept(s, todo[0], todo[1..], r);
      assert todo == [todo[0]] + todo[1..];
    }
  }

  lemma HeadSwept(s: State, head: Rid, rest: seq<Rid>, r: Rid)
    requires s.loop == Sweeping([head] + rest) && head in s.recs && SweptOff(s, r)
    ensures SweptOff(SweepTick(s, [head] + rest), r)
  {
    assert ([head] + rest)[1..] == rest;
  }

  lemma StepSweepsOff(s: State, step: Step, r: Rid)
    requires Inv(s) && Enabled(s, step) && !step.BeginSweep? && SweptOff(s, r) && InSweep(s.loop)
    ensures SweptOff(Next(s, step), r)
  {
    if step.Check? || step.Insert? || step.Schedule? {
      ThreadFrame(s, step);
      if r in s.recs { ThreadKeepsQueued(s, step, r); }
    } else if s.loop.Fin? {
      FinishSweepsOff(s, r);
    } else {
      SweepTickOff(s, r);
    }
  }

  lemma AdmitLoop(s: State, r: Rid)
    requires r in s.recs && s.loop.Idle?
    ensures !InSweep(AdmitRecord(s, r).loop)
  { }

  lemma LoopNoSweep(s: State, step: Step)
    requires Enabled(s, step) && !step.Tick? && !step.BeginSweep? && !InSweep(s.loop)
    ensures !InSweep(Next(s, step).loop)
  {
    if step.Admit? && s.posted[0] in s.records {
      AdmitLoop(s.(posted := s.posted[1..]), s.records[s.posted[0]]);
    }
  }

  lemma TickNoSweep(s: State)
    requires Heap(s) && Enabled(s, Tick) && !InSweep(s.loop)
    ensures !InSweep(Next(s, Tick).loop)
  {
    if s.loop.Fin? {
      FinishLoop(s);
    } else if s.loop.Creating? && s.loop.key !in s.records {
      AdmitLoop(Create(s, s.loop.key, Posted).(loop := Idle), s.nextRid);
    }
  }

  lemma {:induction false} RunSweepsOff(n: nat, queueSize: nat, finishedMax: nat, steps: seq<Step>, r: Rid)
    requires n > 0 && Valid(Init(n, queueSize, finishedMax), steps) && r in SweepList(steps)
    ensures SweptOff(Final(Init(n, queueSize, finishedMax), steps), r)
    decreases |steps|
  {
    var s0, k := Init(n, queueSize, finishedMax), |steps| - 1;
    SplitLast(s0, steps);
    if !steps[k].BeginSweep? {
      var s := Final(s0, steps[..k]);
      RunSweepsOff(n, queueSize, finishedMax, steps[..k], r);
      InitInv(n, queueSize, finishedMax);
      RunKeepsInv(s0, steps[..k]);
      if InSweep(s.loop) {
        StepSweepsOff(s, steps[k], r);
      } else if steps[k].Tick? {
        TickNoSweep(s);
      } else {
        LoopNoSweep(s, steps[k]);
      }
    }
  }

  /** When the shutdown's sweep is through, an intent that it listed is settled, unless a consumer still runs it. */
  lemma SweepSettles(n: nat, queueSize: nat, finishedMax: nat, steps: seq<Step>, r: Rid)
    requires n > 0 && Valid(Init(n, queueSize, finishedMax), steps) && r in SweepList(steps)
    requires Final(Init(n, queueSize, finishedMax), steps).loop == Sweeping([])
    ensures var s := Final(Init(n, queueSize, finishedMax), steps);
      r in s.recs && (s.recs[r].status.Pending? ==> exists w :: w in s.workers && s.workers[w] == Running(r))
  {
    var s := Final(Init(n, queueSize, finishedMax), steps);
    RunSweepsOff(n, queueSize, finishedMax, steps, r);
    InitInv(n, queueSize, finishedMax);
    RunKeepsInv(Init(n, queueSize, finishedMax), steps);
    assert RecOk(s, r);
  }

  // ---------------------------------------------------------------- when the engine stops accepting

  /** How many executions crashed in a row, a cancelled one not counted. */
  function CrashStreak(steps: seq<Step>): nat {
    if steps == [] then 0 else
      var front, step := CrashStreak(steps[..|steps| - 1]), steps[|steps| - 1];
      if !step.Return? || step.outcome.WasCancelled? then front
      else if step.outcome.ProgError? then front + 1 else 0
  }

  /** The counter, once the end that the loop is settling is counted. */
  function CountOf(s: State): nat {
    if !s.loop.Fin? || !s.loop.after.Settle? then s.errors else
      match s.loop.after.outcome
      case ProgError => s.errors + 1
      case WasCancelled => s.errors
      case _ => 0
  }

  /** The step settles a crash of consumer `c`. */
  ghost predicate SettlesCrash(s: State, step: Step, c: nat)
    requires Enabled(s, step)
  {
    step.Tick? && s.loop.Fin? && s.loop.after == Settle(c, ProgError) && !Next(s, step).loop.Fin?
  }

  predicate NoOther(s: State, c: nat) {
    s.cleared || forall d :: d in s.workers && d != c ==> s.workers[d].Dead?
  }

  /** What one step does to the counter and to the acceptance. */
  ghost predicate Counts(s: State, step: Step, s1: State)
    requires Enabled(s, step)
  {
    && (if step.Return? && step.outcome.ProgError? then CountOf(s1) == CountOf(s) + 1
        else if step.Return? && !step.outcome.WasCancelled? then CountOf(s1) == 0
        else CountOf(s1) == CountOf(s))
    && (s1.accepting <==>
          s.accepting && !step.BeginShutdown?
          && !exists c :: SettlesCrash(s, step, c) && (CountOf(s) >= 3 || NoOther(s, c)))
  }

  lemma AdmitCounts(s: State, r: Rid)
    requires r in s.recs && s.loop.Idle?
    ensures AdmitRecord(s, r).errors == s.errors && AdmitRecord(s, r).accepting == s.accepting
    ensures CountOf(AdmitRecord(s, r)) == CountOf(s)
  { }

  lemma ReturnCounts(s: State, c: nat, o: Outcome)
    requires Enabled(s, Return(c, o))
    ensures Counts(s, Return(c, o), Next(s, Return(c, o)))
  { }

  lemma AdmitStepCounts(s: State)
    requires Enabled(s, Admit)
    ensures Counts(s, Admit, AdmitOne(s))
  {
    if s.posted[0] in s.records {
      AdmitCounts(s.(posted := s.posted[1..]), s.records[s.posted[0]]);
    }
  }

  lemma ThreadCounts(s: State, step: Step)
    requires Enabled(s, step) && (step.Check? || step.Insert? || step.Schedule?)
    ensures Counts(s, step, Next(s, step))
  { }

  lemma PhaseCounts(s: State, step: Step)
    requires Enabled(s, step)
    requires step.Get? || step.CancelIdle? || step.BeginShutdown? || step.JoinShutdown? || step.BeginSweep?
    ensures Counts(s, step, Next(s, step))
  { }

  lemma LoopCounts(s: State, step: Step)
    requires Heap(s) && Enabled(s, step) && !step.Tick?
    ensures Counts(s, step, Next(s, step))
  {
    match step {
      case Return(c, o) => ReturnCounts(s, c, o);
      case Admit => AdmitStepCounts(s);
      case Check(_, _) => ThreadCounts(s, step);
      case Insert(_) => ThreadCounts(s, step);
      case Schedule(_) => ThreadCounts(s, step);
      case _ => PhaseCounts(s, step);
    }
  }

  lemma CreateCounts(s: State, k: Key)
    requires s.loop == Creating(k)
    ensures CountOf(CreateOne(s, k)) == CountOf(s) && CreateOne(s, k).accepting == s.accepting
  {
    if k !in s.records {
      AdmitCounts(Create(s, k, Posted).(loop := Idle), s.nextRid);
    }
  }

  lemma QuietTickCounts(s: State)
    requires Enabled(s, Tick) && !s.loop.Fin?
    ensures Counts(s, Tick, Next(s, Tick))
  {
    if s.loop.Creating? {
      CreateCounts(s, s.loop.key);
    }
  }

  lemma SettleCounts(s: State, c: nat, o: Outcome)
    ensures var s1 := SettleOne(s, c, o);
      && s1.errors == (match o case ProgError => s.errors + 1 case WasCancelled => s.errors case _ => 0)
      && (s1.accepting <==> s.accepting && !(o.ProgError? && (s.errors + 1 >= 3 || NoOther(s, c))))
  { }

  lemma ContinueCounts(s: State, after: After)
    requires s.loop.Fin? && s.loop.after == after
    ensures var s1 := Continue(s, after);
      && CountOf(s1) == CountOf(s)
      && (s1.accepting <==>
            s.accepting
            && !(after.Settle? && after.outcome.ProgError? && (CountOf(s) >= 3 || NoOther(s, after.consumer))))
  {
    ContinueFrame(s, after);
    if after.Settle? { SettleCounts(s, after.consumer, after.outcome); }
  }

  lemma LastSectionCounts(s: State)
    requires s.loop.Fin? && s.loop.rid in s.recs && s.loop.stage.Removing?
    ensures Counts(s, Tick, FinishTick(s))
  {
    var s1 := Move(s, s.loop.rid, Over).(records := s.records - {s.recs[s.loop.rid].key});
    ContinueCounts(s1, s.loop.after);
    ContinueFrame(s1, s.loop.after);
    if s.loop.after.Settle? && s.loop.after.outcome.ProgError? {
      assert SettlesCrash(s, Tick, s.loop.after.consumer);
    }
  }

  /** The earlier sections only move the stage on. */
  lemma EarlierCounts(s: State)
    requires Heap(s) && s.loop.Fin? && !s.loop.stage.Removing?
    ensures var s1 := FinishTick(s);
      s1.errors == s.errors && s1.accepting == s.accepting && s1.loop.Fin? && s1.loop.after == s.loop.after
  {
    assert RecOk(s, s.loop.rid);
    match s.loop.stage {
      case Checking => CheckingTick(s);
      case Marking => MarkingTick(s);
      case Writing => WritingTick(s);
      case Evicting => EvictingTick(s);
      case Removing =>
    }
  }

  lemma FinishCounts(s: State)
    requires Heap(s) && s.loop.Fin?
    ensures Counts(s, Tick, FinishTick(s))
  {
    if s.loop.stage.Removing? { LastSectionCounts(s); } else { EarlierCounts(s); }
  }

  lemma StepCounts(s: State, step: Step)
    requires Heap(s) && Enabled(s, step)
    ensures Counts(s, step, Next(s, step))
  {
    if !step.Tick? {
      LoopCounts(s, step);
    } else if s.loop.Fin? {
      FinishCounts(s);
    } else {
      QuietTickCounts(s);
    }
  }

  /** No shutdown has begun, and no crash was the third in a row or that of the last consumer. */
  ghost predicate Undisturbed(s: State, steps: seq<Step>)
    requires Valid(s, steps)
    decreases |steps|
  {
    steps == [] ||
    (SplitLast(s, steps);
     var front, step := steps[..|steps| - 1], steps[|steps| - 1];
     && Undisturbed(s, front) && !step.BeginShutdown?
     && !exists c :: SettlesCrash(Final(s, front), step, c) && (CrashStreak(front) >= 3 || NoOther(Final(s, front), c)))
  }

  /**
   When the engine stops accepting, for every run: exactly when a shutdown has begun, or a crash was settled that was
   the third in a row or left no other consumer. Successes and failed intents in between start the count anew.
   */
  lemma {:induction false} AcceptsExactly(n: nat, queueSize: nat, finishedMax: nat, steps: seq<Step>)
    requires n > 0 && Valid(Init(n, queueSize, finishedMax), steps)
    ensures var s0 := Init(n, queueSize, finishedMax);
      && CountOf(Final(s0, steps)) == CrashStreak(steps)
      && (Final(s0, steps).accepting <==> Undisturbed(s0, steps))
    decreases |steps|
  {
    var s0 := Init(n, queueSize, finishedMax);
    if steps != [] {
      var k := |steps| - 1;
      SplitLast(s0, steps);
      InitInv(n, queueSize, finishedMax);
      RunKeepsInv(s0, steps[..k]);
      AcceptsExactly(n, queueSize, finishedMax, steps[..k]);
      StepCounts(Final(s0, steps[..k]), steps[k]);
    }
  }

  // ---------------------------------------------------------------- no deadlock

  /**
   The engine is never stuck: a callback in progress can go on, a posted one can run as soon as the loop is free, a
   free consumer can take what waits, and an execution can end in every way except by a cancellation without shutdown.
   */
  lemma NeverStuck(s: State, c: nat, o: Outcome)
    requires Inv(s)
    ensures !s.loop.Idle? ==> Enabled(s, Tick) || exists todo :: Enabled(s, BeginSweep(todo))
    ensures s.loop.Idle? && s.posted != [] ==> Enabled(s, Admit)
    ensures s.loop.Idle? && s.queue != [] && c in s.workers && s.workers[c].Waiting? ==> Enabled(s, Get(c))
    ensures s.loop.Idle? && c in s.workers && s.workers[c].Running? && (o.WasCancelled? ==> !s.phase.Up?) ==>
      Enabled(s, Return(c, o))
    ensures forall t :: t in s.threads ==> Enabled(s, Insert(t)) || Enabled(s, Schedule(t))
  {
    if s.queue != [] { assert s.queue[0] in s.queue; }
    if s.loop == Draining(None) && s.queue == [] {
      var todo := Listing(s.records.Values);
      assert Enabled(s, BeginSweep(todo));
    }
    if s.loop.Sweeping? && s.loop.todo != [] {
      assert s.loop.todo[0] in Todo(s.loop);
    }
  }

  /** Some order of the members of a set. */
  lemma {:induction false} Listing(rs: set<Rid>) returns (q: seq<Rid>)
    ensures forall r :: r in q <==> r in rs
    decreases |rs|
  {
    if rs == {} {
      q := [];
    } else {
      var r :| r in rs;
      var rest := Listing(rs - {r});
      q := [r] + rest;
    }
  }
}
