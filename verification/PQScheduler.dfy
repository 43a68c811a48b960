/**
 `PQScheduler` of go/router/pq.go as a class. Each method is one mutex section; its postcondition says that it
 performs exactly the corresponding step of the state machine in `Scheduler`, so by `StepKeepsInv` it keeps
 `Inv(View())` and the run theorems apply to it.
 */
module PQSchedulers {
  import opened Base
  import opened Scheduler
  import opened SchedulerRuns
  import opened SchedulerTheorems

  class PQScheduler {
    const bpTTL: int
    var maxInFlight: int
    var seqNo: nat
    var queue: seq<Job>
    var inFlight: set<Job>
    var bp: map<string, int>
    var cells: map<Job, Cell>
    var ctxDone: bool
    ghost var issued: seq<Job>
    ghost var transit: map<Job, bool>
    ghost var withdrawn: set<Job>
    ghost var dropped: set<Job>

    ghost function View(): State
      reads this
    {
      State(maxInFlight, issued, queue, inFlight, bp, cells, ctxDone, transit, withdrawn, dropped)
    }

    constructor (limit: int, bpTTL: int)
      ensures View() == Init(limit) && seqNo == |issued| && this.bpTTL == bpTTL
    {
      this.bpTTL := bpTTL;
      maxInFlight := if limit <= 0 then 1 else limit;
      seqNo, queue, inFlight, bp, cells, ctxDone := 0, [], {}, map[], map[], false;
      issued, transit, withdrawn, dropped := [], map[], {}, {};
    }

    /** Append and sort the whole slice; only the position of the new request changes. */
    method InsertLocked(job: Job)
      requires Sorted(queue)
      modifies this`queue
      ensures queue == Insert(old(queue), job)
    {
      AppendAndSort(queue, job);
      queue := SortStable(queue + [job]);
    }

    method SubmitInsert(priority: int, model: string) returns (job: Job)
      requires Sorted(queue) && seqNo == |issued|
      modifies this
      ensures View() == ApplySubmit(old(View()), priority, model)
      ensures seqNo == |issued| && job == issued[seqNo - 1]
    {
      seqNo := seqNo + 1;
      job := Job(priority, seqNo, model);
      cells := cells[job := Cell(false, None, None, false, [], Entering)];
      issued := issued + [job];
      InsertLocked(job);
    }

    /** The scan over the in-flight map, in whatever order Go visits it. */
    method FindVictim() returns (victim: Option<Job>)
      requires DistinctTickets(inFlight)
      ensures if inFlight == {} then victim == None else victim.Some? && IsLeast(inFlight, victim.value)
    {
      victim := None;
      var rest := inFlight;
      while rest != {}
        invariant rest <= inFlight
        invariant if victim.None? then rest == inFlight else IsLeast(inFlight - rest, victim.value)
        decreases rest
      {
        var r :| r in rest;
        assert inFlight - (rest - {r}) == inFlight - rest + {r};
        if victim.Some? { LeastExtends(inFlight - rest, victim.value, r); }
        if victim.None? || r.priority < victim.value.priority
           || (r.priority == victim.value.priority && r.ticket > victim.value.ticket) {
          victim := Some(r);
        }
        rest := rest - {r};
      }
      assert inFlight - rest == inFlight;
    }

    method MaybePreempt(job: Job, now: int) returns (ghost chosen: Option<Job>)
      requires DistinctTickets(inFlight) && inFlight <= cells.Keys
      requires job in cells && cells[job].client.Entering?
      modifies this`cells
      ensures old(Enabled(View(), Preempt(job, now, chosen)))
      ensures View() == Apply(old(View()), Preempt(job, now, chosen))
    {
      ghost var before := View();
      chosen := None;
      var full := |inFlight| >= maxInFlight;
      var victim := None;
      if full && !Blocked(bp, job.model, now) {
        var v := FindVictim();
        if v.Some? && job.priority > v.value.priority && cells[v.value].started { victim := v; }
        chosen := victim;
      }
      assert PreemptTarget(before, job, now, chosen);
      cells := cells[job := cells[job].(client := Selecting)];
      if victim.Some? {
        cells := cells[victim.value := FirstCause(cells[victim.value], Preempted)];
      }
    }

    /** The inner scan of `startEligible`: the first waiter that is not under backpressure, or -1. */
    method FindEligible(now: int) returns (idx: int)
      ensures idx == if FirstEligible(queue, bp, now) < |queue| then FirstEligible(queue, bp, now) else -1
    {
      idx := -1;
      var i := 0;
      while i < |queue|
        invariant 0 <= i <= |queue|
        invariant forall k :: 0 <= k < i ==> Blocked(bp, queue[k].model, now)
      {
        if !Blocked(bp, queue[i].model, now) {
          return i;
        }
        i := i + 1;
      }
    }

    /** One start: out of the queue, into flight, with a fresh execution context. */
    method StartAt(idx: nat)
      requires idx < |queue| && queue[idx] in cells
      modifies this`queue, this`inFlight, this`cells
      ensures View() == StartOne(old(View()), idx)
    {
      var req := queue[idx];
      queue := queue[..idx] + queue[idx + 1..];
      inFlight := inFlight + {req};
      cells := cells[req := cells[req].(
        started := true, result := None, cause := if ctxDone then Some(ParentDone) else None)];
    }

    method StartEligible(now: int)
      requires QueueKnown(View())
      modifies this`queue, this`inFlight, this`cells
      ensures View() == Scheduler.StartEligible(old(View()), now)
    {
      while |inFlight| < maxInFlight
        invariant QueueKnown(View())
        invariant Scheduler.StartEligible(View(), now) == Scheduler.StartEligible(old(View()), now)
        decreases |queue|
      {
        var idx := FindEligible(now);
        if idx < 0 {
          return;
        }
        assert queue[idx] in queue;
        StartOneKnown(View(), idx);
        StartAt(idx);
      }
    }

    /** The execution goroutine stores its result and cancels its own context. */
    method ExecReturned(job: Job, result: ExecResult)
      requires Enabled(View(), ExecReturn(job, result))
      modifies this`cells
      ensures View() == ApplyExecReturn(old(View()), job, result)
    {
      cells := cells[job := FirstCause(cells[job], Returned(result)).(result := Some(result))];
    }

    /** First section of `finishOne`. */
    method FinishOneFirst(job: Job) returns (abandoned: bool)
      requires Enabled(View(), FinishFirst(job))
      modifies this`inFlight, this`transit
      ensures View() == ApplyFinishFirst(old(View()), job) && abandoned == transit[job]
    {
      inFlight := inFlight - {job};
      abandoned := cells[job].abandoned;
      transit := transit[job := abandoned];
    }

    /** The rest of `finishOne`, with the local copy of the flag taken by the first section. */
    method FinishOneSecond(job: Job, abandoned: bool)
      requires Sorted(queue) && Enabled(View(), FinishSecond(job)) && transit[job] == abandoned
      modifies this
      ensures View() == ApplyFinishSecond(old(View()), job) && seqNo == old(seqNo)
    {
      transit := transit - {job};
      if abandoned {
        dropped := dropped + {job};
        return;
      }
      if WantsRequeue(cells[job]) {
        InsertLocked(job);
        return;
      }
      cells := cells[job := cells[job].(sent := cells[job].sent + [cells[job].result.value])];
    }

    method RemoveWaitingLocked(job: Job) returns (removed: bool)
      modifies this`queue
      ensures removed <==> job in old(queue)
      ensures queue == if removed then Without(old(queue), IndexOf(old(queue), job)) else old(queue)
    {
      var i := 0;
      while i < |queue|
        invariant 0 <= i <= |queue| && queue == old(queue)
        invariant job !in queue[..i]
      {
        if queue[i] == job {
          FirstIndex(queue, job, i);
          queue := queue[..i] + queue[i + 1..];
          return true;
        }
        i := i + 1;
      }
      return false;
    }

    /** The `ctx.Done()` branch of `Submit`. */
    method ClientCancel(job: Job)
      requires Enabled(View(), Cancel(job))
      modifies this
      ensures View() == ApplyCancel(old(View()), job) && seqNo == old(seqNo)
    {
      var waiting := RemoveWaitingLocked(job);
      var c := cells[job].(client := Cancelled);
      if waiting {
        withdrawn := withdrawn + {job};
      } else if c.started {
        c := FirstCause(c.(abandoned := true), Abandoned);
      }
      cells := cells[job := c];
    }

    method SetMaxInFlight(n: int)
      modifies this`maxInFlight
      ensures View() == Apply(old(View()), SetMax(n)) && maxInFlight >= 1
    {
      maxInFlight := if n <= 0 then 1 else n;
    }

    /** The model is blocked for the time to live and free again by itself; other models are as before. */
    method MarkBackpressure(model: string, now: int)
      modifies this`bp
      ensures View() == Apply(old(View()), SetBackpressure(model, now + bpTTL))
      ensures forall m, t :: Blocked(bp, m, t) <==> if m == model then t < now + bpTTL else Blocked(old(bp), m, t)
    {
      bp := bp[model := now + bpTTL];
    }
  }

  lemma StartOneKnown(s: State, i: nat)
    requires QueueKnown(s) && i < |s.queue| && s.queue[i] in s.cells
    ensures QueueKnown(StartOne(s, i))
  {
    forall j | j in StartOne(s, i).queue ensures j in s.cells { assert j in s.queue; }
  }

  lemma LeastExtends(js: set<Job>, v: Job, r: Job)
    requires IsLeast(js, v) && r !in js && DistinctTickets(js + {r})
    ensures IsLeast(js + {r}, if Worse(r, v) then r else v)
  { }

  lemma {:induction false} FirstIndex(q: seq<Job>, job: Job, i: nat)
    requires i < |q| && q[i] == job && job !in q[..i]
    ensures IndexOf(q, job) == i
  {
    if i > 0 {
      assert q[0] in q[..i];
      assert q[1..][..i - 1] == q[..i][1..];
      FirstIndex(q[1..], job, i - 1);
    }
  }
}
