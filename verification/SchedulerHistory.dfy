/**
 What the scheduler does, told from the steps of the run alone: who was submitted, what the settings are, how an
 execution ended, and what becomes of its request.
 */
module SchedulerHistory {
  import opened Base
  import opened Scheduler
  import opened SchedulerRuns
  import opened SchedulerTheorems

  // ---------------------------------------------------------------- the settings

  /** The requests of a run: the n-th submission gets ticket n. */
  function Submitted(steps: seq<Step>): seq<Job> {
    if steps == [] then [] else
      var front, step := Submitted(steps[..|steps| - 1]), steps[|steps| - 1];
      if step.Submit? then front + [Job(step.priority, |front| + 1, step.model)] else front
  }

  /** The limit that was set last, at least one. */
  function LimitSet(limit: int, steps: seq<Step>): int {
    if steps != [] && !steps[|steps| - 1].SetMax? then LimitSet(limit, steps[..|steps| - 1])
    else
      var n := if steps == [] then limit else steps[|steps| - 1].n;
      if n <= 0 then 1 else n
  }

  /** Until when a model was last put under backpressure. */
  function MarkedUntil(steps: seq<Step>, model: string): Option<int> {
    if steps == [] then None
    else if steps[|steps| - 1].SetBackpressure? && steps[|steps| - 1].model == model then Some(steps[|steps| - 1].until)
    else MarkedUntil(steps[..|steps| - 1], model)
  }

  /** The model is free to start at `now`. */
  predicate Free(steps: seq<Step>, model: string, now: int) {
    MarkedUntil(steps, model).Some? ==> now >= MarkedUntil(steps, model).value
  }

  function Mark(bp: map<string, int>, model: string): Option<int> {
    if model in bp then Some(bp[model]) else None
  }

  lemma {:induction false} SplitLast(s: State, steps: seq<Step>)
    requires Valid(s, steps) && steps != []
    ensures var n := |steps| - 1;
      && Valid(s, steps[..n]) && Enabled(Final(s, steps[..n]), steps[n])
      && Final(s, steps) == Apply(Final(s, steps[..n]), steps[n])
    decreases |steps|
  {
    var n := |steps| - 1;
    if n > 0 {
      SplitLast(Apply(s, steps[0]), steps[1..]);
      assert steps[1..][..n - 1] == steps[..n][1..] && steps[1..][n - 1] == steps[n];
    } else {
      assert steps[1..] == [] && steps[..0] == [];
    }
  }

  lemma {:induction false} StartKeepsSettings(s: State, now: int)
    requires Inv(s)
    ensures QueueKnown(s)
    ensures var r := StartEligible(s, now);
      r.issued == s.issued && r.maxInFlight == s.maxInFlight && r.bp == s.bp && r.ctxDone == s.ctxDone
    decreases |s.queue|
  {
    var i := FirstEligible(s.queue, s.bp, now);
    if |s.inFlight| < s.maxInFlight && i < |s.queue| {
      StartOneKeepsInv(s, i);
      StartKeepsSettings(StartOne(s, i), now);
    }
  }

  /** What a step does to requests and settings. */
  ghost predicate Sets(s: State, step: Step, s1: State) {
    && s1.issued == (if step.Submit? then s.issued + [Job(step.priority, |s.issued| + 1, step.model)] else s.issued)
    && s1.maxInFlight == (if !step.SetMax? then s.maxInFlight else if step.n <= 0 then 1 else step.n)
    && s1.bp == (if step.SetBackpressure? then s.bp[step.model := step.until] else s.bp)
    && (s1.ctxDone <==> s.ctxDone || step.ParentCancel?)
  }

  lemma PreemptSets(s: State, step: Step)
    requires Enabled(s, step) && step.Preempt?
    ensures Sets(s, step, Apply(s, step))
  { }

  lemma FinishSets(s: State, step: Step)
    requires Enabled(s, step) && (step.FinishFirst? || step.FinishSecond?)
    ensures Sets(s, step, Apply(s, step))
  { }

  lemma ClientSets(s: State, step: Step)
    requires Enabled(s, step) && (step.Submit? || step.Cancel? || step.Receive? || step.ExecReturn?)
    ensures Sets(s, step, Apply(s, step))
  { }

  lemma SettingSets(s: State, step: Step)
    requires Enabled(s, step) && (step.SetMax? || step.SetBackpressure? || step.ParentCancel?)
    ensures Sets(s, step, Apply(s, step))
  { }

  lemma StepSets(s: State, step: Step)
    requires Inv(s) && Enabled(s, step)
    ensures Sets(s, step, Apply(s, step))
  {
    if step.Start? { StartKeepsSettings(s, step.now); }
    else if step.Preempt? { PreemptSets(s, step); }
    else if step.FinishFirst? || step.FinishSecond? { FinishSets(s, step); }
    else if step.SetMax? || step.SetBackpressure? || step.ParentCancel? { SettingSets(s, step); }
    else { ClientSets(s, step); }
  }

  /** What the last step of a run sets. */
  lemma LastSets(limit: int, steps: seq<Step>)
    requires Valid(Init(limit), steps) && steps != []
    ensures Valid(Init(limit), steps[..|steps| - 1])
    ensures Sets(Final(Init(limit), steps[..|steps| - 1]), steps[|steps| - 1], Final(Init(limit), steps))
  {
    SplitLast(Init(limit), steps);
    RunKeepsInv(Init(limit), steps[..|steps| - 1]);
    StepSets(Final(Init(limit), steps[..|steps| - 1]), steps[|steps| - 1]);
  }

  lemma {:induction false} RequestsAreSubmitted(limit: int, steps: seq<Step>)
    requires Valid(Init(limit), steps)
    ensures Final(Init(limit), steps).issued == Submitted(steps)
    decreases |steps|
  {
    if steps != [] {
      LastSets(limit, steps);
      RequestsAreSubmitted(limit, steps[..|steps| - 1]);
    }
  }

  lemma {:induction false} LimitIsTheLast(limit: int, steps: seq<Step>)
    requires Valid(Init(limit), steps)
    ensures Final(Init(limit), steps).maxInFlight == LimitSet(limit, steps)
    decreases |steps|
  {
    if steps != [] {
      LastSets(limit, steps);
      LimitIsTheLast(limit, steps[..|steps| - 1]);
    }
  }

  lemma {:induction false} ParentIsGone(limit: int, steps: seq<Step>)
    requires Valid(Init(limit), steps)
    ensures Final(Init(limit), steps).ctxDone <==> ParentCancel in steps
    decreases |steps|
  {
    if steps != [] {
      LastSets(limit, steps);
      ParentIsGone(limit, steps[..|steps| - 1]);
      assert steps == steps[..|steps| - 1] + [steps[|steps| - 1]];
    }
  }

  lemma {:induction false} MarkIsTheLast(limit: int, steps: seq<Step>, model: string)
    requires Valid(Init(limit), steps)
    ensures Mark(Final(Init(limit), steps).bp, model) == MarkedUntil(steps, model)
    decreases |steps|
  {
    if steps != [] {
      LastSets(limit, steps);
      MarkIsTheLast(limit, steps[..|steps| - 1], model);
    }
  }

  ghost predicate MarksAgree(bp: map<string, int>, steps: seq<Step>) {
    forall model :: Mark(bp, model) == MarkedUntil(steps, model)
  }

  /** In every run: the requests are those submitted, in order, and the settings the last ones made. */
  lemma SettingsAreTheLast(limit: int, steps: seq<Step>)
    requires Valid(Init(limit), steps)
    ensures var s := Final(Init(limit), steps);
      && s.issued == Submitted(steps) && s.maxInFlight == LimitSet(limit, steps)
      && MarksAgree(s.bp, steps) && (s.ctxDone <==> ParentCancel in steps)
  {
    RequestsAreSubmitted(limit, steps);
    LimitIsTheLast(limit, steps);
    ParentIsGone(limit, steps);
    forall model ensures Mark(Final(Init(limit), steps).bp, model) == MarkedUntil(steps, model) {
      MarkIsTheLast(limit, steps, model);
    }
  }

  // ---------------------------------------------------------------- starts

  /** `a` goes before `b`: a higher priority, or the same and submitted earlier. */
  predicate Outranks(a: Job, b: Job) {
    if a.priority == b.priority then a.ticket < b.ticket else a.priority > b.priority
  }

  /** The pass from `s` to `r` starts nobody who is not free, and nobody ahead of a free waiter that outranks it. */
  ghost predicate FairStart(s: State, r: State, steps: seq<Step>, now: int) {
    && s.inFlight <= r.inFlight
    && (forall b :: b in r.inFlight && b !in s.inFlight ==> b in s.queue && Free(steps, b.model, now))
    && (forall a, b :: b in r.inFlight && b !in s.inFlight && Outranks(a, b) ==>
          (a in s.queue && Free(steps, a.model, now) ==> a in r.inFlight))
  }

  /**
   What a pass of `startEligible` does after any run: it starts in order, and it ends at the limit or with no free
   waiter left, never above the limit.
   */
  lemma StartExactly(limit: int, steps: seq<Step>, now: int)
    requires Valid(Init(limit), steps) && Enabled(Final(Init(limit), steps), Start(now))
    ensures var s := Final(Init(limit), steps); var r := Apply(s, Start(now));
      && FairStart(s, r, steps, now)
      && (|r.inFlight| <= LimitSet(limit, steps) || r.inFlight == s.inFlight)
      && (|r.inFlight| >= LimitSet(limit, steps) || forall a :: a in r.queue ==> !Free(steps, a.model, now))
  {
    var s := Final(Init(limit), steps);
    RunKeepsInv(Init(limit), steps);
    SettingsAreTheLast(limit, steps);
    StartWithinLimit(s, now);
    StartExhausts(s, now);
    FreeIsUnblocked(s, steps, now);
    StartIsFair(s, steps, now);
  }

  lemma StartIsFair(s: State, steps: seq<Step>, now: int)
    requires Inv(s) && QueueKnown(s) && MarksAgree(s.bp, steps)
    ensures FairStart(s, StartEligible(s, now), steps, now)
  {
    var r := StartEligible(s, now);
    StartGrows(s, now);
    FreeIsUnblocked(s, steps, now);
    forall b | b in r.inFlight && b !in s.inFlight ensures b in s.queue && Free(steps, b.model, now) {
      StartInOrder(s, now, b, b);
    }
    forall a, b | b in r.inFlight && b !in s.inFlight && a in s.queue && Outranks(a, b) && Free(steps, a.model, now)
      ensures a in r.inFlight
    {
      StartInOrder(s, now, a, b);
    }
  }

  lemma FreeIsUnblocked(s: State, steps: seq<Step>, now: int)
    requires MarksAgree(s.bp, steps)
    ensures forall model :: Free(steps, model, now) <==> !Blocked(s.bp, model, now)
  {
    forall model ensures Free(steps, model, now) <==> !Blocked(s.bp, model, now) {
      assert Mark(s.bp, model) == MarkedUntil(steps, model);
    }
  }

  /**
   Whom a newcomer preempts after any run: somebody exactly when the limit is reached, its model is free and it has a
   higher priority than some request in flight; and then the one of lowest priority, the latest of equals.
   */
  lemma PreemptExactly(limit: int, steps: seq<Step>, job: Job, now: int, victim: Option<Job>)
    requires Valid(Init(limit), steps) && Enabled(Final(Init(limit), steps), Preempt(job, now, victim))
    ensures var s, v := Final(Init(limit), steps), victim;
      && (v.Some? <==>
            |s.inFlight| >= LimitSet(limit, steps) && Free(steps, job.model, now) &&
            exists r :: r in s.inFlight && r.priority < job.priority)
      && (v.Some? ==> v.value in s.inFlight && forall r :: r in s.inFlight ==>
            v.value.priority <= r.priority && (v.value.priority == r.priority ==> r.ticket <= v.value.ticket))
  {
    var s := Final(Init(limit), steps);
    RunKeepsInv(Init(limit), steps);
    SettingsAreTheLast(limit, steps);
    FreeIsUnblocked(s, steps, now);
    if victim.Some? {
      VictimIsLowest(s, job, now, victim.value);
    }
    forall r | r in s.inFlight && r.priority < job.priority && |s.inFlight| >= s.maxInFlight
        && Free(steps, job.model, now)
      ensures victim.Some?
    {
      PreemptionHappens(s, job, now, r);
    }
  }

  // ---------------------------------------------------------------- how an execution ended

  /** The step cancels the context of an execution of `j`. */
  predicate Cancels(step: Step, j: Job) {
    || (step.Preempt? && step.victim == Some(j))
    || step == Cancel(j) || step == ParentCancel || (step.ExecReturn? && step.job == j)
  }

  /** The first cancel of the latest execution after one more step; `gone` says that the parent was cancelled. */
  ghost function NextCancel(s: State, step: Step, j: Job, gone: bool, cancel: Option<Step>): Option<Step>
    requires Enabled(s, step)
  {
    if Starts(s, step, j) then (if gone then Some(ParentCancel) else None)
    else if cancel.None? && j in s.inFlight && Cancels(step, j) then Some(step)
    else cancel
  }

  ghost function NextReturn(s: State, step: Step, j: Job, returned: Option<ExecResult>): Option<ExecResult>
    requires Enabled(s, step)
  {
    if Starts(s, step, j) then None
    else if step.ExecReturn? && step.job == j then Some(step.result)
    else returned
  }

  /** The first step that cancelled the latest execution of `j`; a parent that is gone cancels it from the start. */
  ghost function FirstCancel(limit: int, steps: seq<Step>, j: Job): Option<Step>
    requires Valid(Init(limit), steps)
    decreases |steps|
  {
    if steps == [] then None else
      SplitLast(Init(limit), steps);
      var front := steps[..|steps| - 1];
      NextCancel(Final(Init(limit), front), steps[|steps| - 1], j, ParentCancel in front, FirstCancel(limit, front, j))
  }

  /** What the latest execution of `j` returned, if it has. */
  ghost function LastReturn(limit: int, steps: seq<Step>, j: Job): Option<ExecResult>
    requires Valid(Init(limit), steps)
    decreases |steps|
  {
    if steps == [] then None else
      SplitLast(Init(limit), steps);
      var front := steps[..|steps| - 1];
      NextReturn(Final(Init(limit), front), steps[|steps| - 1], j, LastReturn(limit, front, j))
  }

  /** The cause that a first cancel leaves in the context. */
  predicate Matches(cause: Option<Cause>, cancel: Option<Step>) {
    match cancel
    case None => cause == None
    case Some(Preempt(_, _, _)) => cause == Some(Preempted)
    case Some(Cancel(_)) => cause == Some(Abandoned)
    case Some(ParentCancel) => cause == Some(ParentDone)
    case Some(ExecReturn(_, result)) => cause == Some(Returned(result))
    case _ => false
  }

  /** Cause and result of a request after one more step; `gone` says that the parent context is done. */
  predicate Follows(
    c: Cell, flying: bool, c1: Cell, flying1: bool, step: Step, j: Job, gone: bool, cancel: Option<Step>)
  {
    if !flying && flying1 then c1.result == None && Matches(c1.cause, if gone then Some(ParentCancel) else None)
    else
      && Matches(c1.cause, if cancel.None? && flying && Cancels(step, j) then Some(step) else cancel)
      && c1.result == if step.ExecReturn? && step.job == j then Some(step.result) else c.result
  }

  /** The same for a step of the machine. */
  ghost predicate StepTells(s: State, s1: State, step: Step, j: Job, cancel: Option<Step>) {
    && j in s.cells && j in s1.cells
    && Follows(s.cells[j], j in s.inFlight, s1.cells[j], j in s1.inFlight, step, j, s.ctxDone, cancel)
  }

  lemma EvolvesFollows(v: Look, v1: Look, step: Step, j: Job, gone: bool, cancel: Option<Step>)
    requires Good(v) && Evolves(v, v1, step, j) && Matches(v.cell.cause, cancel)
    requires !step.Start? && !step.Preempt? && !step.ParentCancel?
    requires step == Cancel(j) ==> v.cell.client.Selecting?
    ensures Follows(v.cell, v.flying, v1.cell, v1.flying, step, j, gone, cancel)
  { }

  lemma StartOneFollows(s: State, i: nat, j: Job)
    requires i < |s.queue| && s.queue[i] in s.cells && j in s.cells
    ensures var s1 := StartOne(s, i);
      && j in s1.cells && s1.ctxDone == s.ctxDone && (j in s1.inFlight <==> j in s.inFlight || j == s.queue[i])
      && (j != s.queue[i] ==> s1.cells[j] == s.cells[j])
      && (j == s.queue[i] ==> s1.cells[j].result == None)
      && (j == s.queue[i] ==> s1.cells[j].cause == if s.ctxDone then Some(ParentDone) else None)
  { }

  lemma {:induction false} StartFollows(s: State, now: int, j: Job)
    requires Inv(s) && j in s.cells
    ensures QueueKnown(s) && j in StartEligible(s, now).cells
    ensures var r := StartEligible(s, now);
      if j !in s.inFlight && j in r.inFlight then
        r.cells[j].result == None && r.cells[j].cause == if s.ctxDone then Some(ParentDone) else None
      else r.cells[j] == s.cells[j]
    decreases |s.queue|
  {
    var i := FirstEligible(s.queue, s.bp, now);
    if |s.inFlight| < s.maxInFlight && i < |s.queue| {
      assert Good(LookAt(s, j));
      assert j == s.queue[i] ==> j in s.queue;
      StartOneKeepsInv(s, i);
      StartOneFollows(s, i, j);
      StartGrows(StartOne(s, i), now);
      StartFollows(StartOne(s, i), now, j);
    }
  }

  lemma ParentFollows(s: State, j: Job)
    requires j in s.cells
    ensures var s1 := Apply(s, ParentCancel);
      && j in s1.cells && s1.inFlight == s.inFlight && s1.cells[j].result == s.cells[j].result
      && s1.cells[j].cause ==
           if s.cells[j].cause.None? && j in s.inFlight then Some(ParentDone) else s.cells[j].cause
  { }

  lemma VictimFollows(s: State, job: Job, victim: Option<Job>, j: Job)
    requires j in s.cells && job in s.cells && (victim.Some? ==> victim.value in s.cells && victim.value in s.inFlight)
    ensures var s1 := ApplyPreempt(s, job, victim);
      && j in s1.cells && s1.inFlight == s.inFlight && s1.cells[j].result == s.cells[j].result
      && s1.cells[j].cause ==
           if victim == Some(j) && s.cells[j].cause.None? && j in s.inFlight then Some(Preempted) else s.cells[j].cause
  { }

  /** A cancel from outside: only the cause can change, and only that of an execution. */
  lemma OuterCancel(c: Cell, c1: Cell, flying: bool, step: Step, j: Job, gone: bool, cancel: Option<Step>, cause: Cause)
    requires c1.result == c.result && Matches(c.cause, cancel)
    requires c1.cause == if c.cause.None? && flying && Cancels(step, j) then Some(cause) else c.cause
    requires !step.ExecReturn? && (Cancels(step, j) ==> Matches(Some(cause), Some(step)))
    ensures Follows(c, flying, c1, flying, step, j, gone, cancel)
  { }

  lemma ParentTells(s: State, j: Job, cancel: Option<Step>)
    requires j in s.cells && Matches(s.cells[j].cause, cancel)
    ensures StepTells(s, Apply(s, ParentCancel), ParentCancel, j, cancel)
  {
    ParentFollows(s, j);
    var c, c1 := s.cells[j], Apply(s, ParentCancel).cells[j];
    OuterCancel(c, c1, j in s.inFlight, ParentCancel, j, s.ctxDone, cancel, ParentDone);
  }

  lemma PreemptTells(s: State, step: Step, j: Job, cancel: Option<Step>)
    requires Inv(s) && Enabled(s, step) && j in s.cells && Matches(s.cells[j].cause, cancel) && step.Preempt?
    ensures StepTells(s, ApplyPreempt(s, step.job, step.victim), step, j, cancel)
  {
    if step.victim.Some? { VictimIsLowest(s, step.job, step.now, step.victim.value); }
    VictimFollows(s, step.job, step.victim, j);
    var c, c1 := s.cells[j], ApplyPreempt(s, step.job, step.victim).cells[j];
    OuterCancel(c, c1, j in s.inFlight, step, j, s.ctxDone, cancel, Preempted);
  }

  lemma StartTells(s: State, now: int, j: Job, cancel: Option<Step>)
    requires Inv(s) && QueueKnown(s) && j in s.cells && Matches(s.cells[j].cause, cancel)
    ensures StepTells(s, StartEligible(s, now), Start(now), j, cancel)
  {
    StartFollows(s, now, j);
    StartGrows(s, now);
  }

  lemma StepFollows(s: State, step: Step, j: Job, cancel: Option<Step>)
    requires Inv(s) && Enabled(s, step) && j in s.cells && Matches(s.cells[j].cause, cancel)
    ensures StepTells(s, Apply(s, step), step, j, cancel)
  {
    if step.Start? {
      StartTells(s, step.now, j, cancel);
    } else if step.Preempt? {
      PreemptTells(s, step, j, cancel);
    } else if step.ParentCancel? {
      ParentTells(s, j, cancel);
    } else {
      StepEvolves(s, step, j);
      assert Good(LookAt(s, j));
      EvolvesFollows(LookAt(s, j), LookAt(Apply(s, step), j), step, j, s.ctxDone, cancel);
    }
  }

  /** A request that is not there is not started and nothing is told of it. */
  lemma StepNew(s: State, step: Step, j: Job)
    requires Inv(s) && Enabled(s, step) && j !in s.cells
    ensures !Starts(s, step, j) && j !in s.inFlight && !(step.ExecReturn? && step.job == j)
    ensures j in Apply(s, step).cells ==>
      Apply(s, step).cells[j].cause == None && Apply(s, step).cells[j].result == None
  {
    StepKeepsInv(s, step);
    StepIssues(s, step);
    if j in Apply(s, step).cells {
      SubmittedWaits(s, step, j);
    }
  }

  /** Cause and result of `j` are as told. */
  ghost predicate Told(s: State, j: Job, cancel: Option<Step>, returned: Option<ExecResult>) {
    if j in s.cells then Matches(s.cells[j].cause, cancel) && s.cells[j].result == returned
    else cancel == None && returned == None
  }

  lemma ToldNext(s: State, step: Step, j: Job, cancel: Option<Step>, returned: Option<ExecResult>)
    requires Inv(s) && Enabled(s, step) && Told(s, j, cancel, returned)
    ensures Told(Apply(s, step), j, NextCancel(s, step, j, s.ctxDone, cancel), NextReturn(s, step, j, returned))
  {
    if j in s.cells {
      StepFollows(s, step, j, cancel);
    } else {
      StepNew(s, step, j);
    }
  }

  /** The context's cause is the first cancel of the run's last execution, the result is what that one returned. */
  lemma {:induction false} CauseIsFirstCancel(limit: int, steps: seq<Step>, j: Job)
    requires Valid(Init(limit), steps)
    ensures Told(Final(Init(limit), steps), j, FirstCancel(limit, steps, j), LastReturn(limit, steps, j))
    decreases |steps|
  {
    if steps != [] {
      var n := |steps| - 1;
      SplitLast(Init(limit), steps);
      CauseIsFirstCancel(limit, steps[..n], j);
      RunKeepsInv(Init(limit), steps[..n]);
      ParentIsGone(limit, steps[..n]);
      ToldNext(Final(Init(limit), steps[..n]), steps[n], j, FirstCancel(limit, steps[..n], j),
               LastReturn(limit, steps[..n], j));
    }
  }

  // ---------------------------------------------------------------- what becomes of the request

  /** The latest execution of `j` failed, and what cancelled it first was a preemption or an error that wraps one. */
  ghost predicate LostToPreemption(limit: int, steps: seq<Step>, j: Job)
    requires Valid(Init(limit), steps)
  {
    var returned, cancel := LastReturn(limit, steps, j), FirstCancel(limit, steps, j);
    && returned.Some? && returned.value.Failed? && cancel.Some?
    && (cancel.value.Preempt? ||
        (cancel.value.ExecReturn? && cancel.value.result.Failed? && cancel.value.result.wrapsPreempted))
  }

  /** The client of `j` cancelled before the last first section of `finishOne`. */
  ghost predicate GoneBefore(steps: seq<Step>, j: Job) { Cancel(j) in steps && !CancelBetween(steps, j) }

  lemma {:induction false} CancelIsCancelled(s: State, steps: seq<Step>, j: Job)
    requires Inv(s) && Valid(s, steps)
    requires Cancel(j) in steps || (j in s.cells && s.cells[j].client.Cancelled?)
    ensures j in Final(s, steps).cells && Final(s, steps).cells[j].client.Cancelled?
    decreases |steps|
  {
    if steps != [] {
      var s1 := Apply(s, steps[0]);
      StepKeepsInv(s, steps[0]);
      if j in s.cells && (s.cells[j].client.Cancelled? || steps[0] == Cancel(j)) {
        StepEvolves(s, steps[0], j);
        assert Good(LookAt(s, j)) && Good(LookAt(s1, j));
        StaysCancelled(LookAt(s, j), LookAt(s1, j), steps[0], j);
      } else {
        assert Cancel(j) in steps[1..];
      }
      CancelIsCancelled(s1, steps[1..], j);
    }
  }

  lemma StaysCancelled(v: Look, v1: Look, step: Step, j: Job)
    requires Good(v) && Good(v1) && Evolves(v, v1, step, j) && (v.cell.client.Cancelled? || step == Cancel(j))
    ensures v1.cell.client.Cancelled?
  { }

  /** The flag copied by the first section: whether the client was gone by then. */
  lemma FlagIsGone(limit: int, steps: seq<Step>, j: Job)
    requires Valid(Init(limit), steps) && j in Final(Init(limit), steps).transit
    ensures Final(Init(limit), steps).transit[j] <==> GoneBefore(steps, j)
  {
    var s := Final(Init(limit), steps);
    RunKeepsInv(Init(limit), steps);
    LateFromNothing(Init(limit), steps, j);
    assert Good(LookAt(s, j));
    if Cancel(j) in steps {
      CancelIsCancelled(Init(limit), steps, j);
    } else if s.cells[j].client.Cancelled? {
      CancelledByCancel(Init(limit), steps, j);
    }
  }

  /** The same for one request: what its look is after the second section. */
  lemma LookExactly(v: Look, gone: bool, returned: ExecResult, cancel: Option<Step>)
    requires Good(v) && v.transit == Some(gone) && v.cell.result == Some(returned) && Matches(v.cell.cause, cancel)
    ensures var v1 := LookSecond(v);
      var lost := returned.Failed? && cancel.Some? && (cancel.value.Preempt? ||
        (cancel.value.ExecReturn? && cancel.value.result.Failed? && cancel.value.result.wrapsPreempted));
      && v1.transit.None? && !v1.flying && (v1.dropped <==> gone) && (v1.waiting <==> !gone && lost)
      && v1.cell.sent == if gone || lost then [] else [returned]
  { }

  /**
   What the end of an execution comes to, for every run. The request is dropped exactly when its client was gone before
   the first section, queued again exactly when it was lost to a preemption, and otherwise what the execution returned
   is delivered, once.
   */
  lemma FinishExactly(limit: int, steps: seq<Step>, j: Job)
    requires Valid(Init(limit), steps) && Enabled(Final(Init(limit), steps), FinishSecond(j))
    ensures LastReturn(limit, steps, j).Some?
    ensures var s1 := Apply(Final(Init(limit), steps), FinishSecond(j));
      && j in s1.cells && j !in s1.transit && j !in s1.inFlight
      && (j in s1.dropped <==> GoneBefore(steps, j))
      && (j in s1.queue <==> !GoneBefore(steps, j) && LostToPreemption(limit, steps, j))
      && s1.cells[j].sent ==
           if GoneBefore(steps, j) || LostToPreemption(limit, steps, j) then [] else [LastReturn(limit, steps, j).value]
  {
    var s := Final(Init(limit), steps);
    RunKeepsInv(Init(limit), steps);
    FlagIsGone(limit, steps, j);
    CauseIsFirstCancel(limit, steps, j);
    assert Good(LookAt(s, j));
    LookExactly(LookAt(s, j), GoneBefore(steps, j), LastReturn(limit, steps, j).value, FirstCancel(limit, steps, j));
    FinishSecondEvolves(s, j, j);
  }

  /**
   "A request whose client is gone is never requeued" fails in a run exactly when the client's cancel falls between the
   two sections of `finishOne` of an execution that was lost to a preemption.
   */
  lemma ZombieExact(limit: int, steps: seq<Step>, j: Job)
    requires Valid(Init(limit), steps) && Enabled(Final(Init(limit), steps), FinishSecond(j))
    ensures var s := Final(Init(limit), steps);
      j in Apply(s, FinishSecond(j)).queue && s.cells[j].client.Cancelled? <==>
      CancelBetween(steps, j) && LostToPreemption(limit, steps, j)
  {
    RunKeepsInv(Init(limit), steps);
    LateFromNothing(Init(limit), steps, j);
    FinishExactly(limit, steps, j);
    assert Good(LookAt(Final(Init(limit), steps), j));
    if Cancel(j) in steps {
      CancelIsCancelled(Init(limit), steps, j);
    } else if Final(Init(limit), steps).cells[j].client.Cancelled? {
      CancelledByCancel(Init(limit), steps, j);
    }
  }

  /**
   No request is stuck: a waiting one that is free starts in the next pass or the limit is reached, an execution can
   return anything, and each of the two sections of `finishOne` can follow.
   */
  lemma NeverStuck(s: State, j: Job, now: int, result: ExecResult)
    requires Inv(s) && j in s.cells
    ensures Enabled(s, Start(now))
    ensures j in s.queue && (j.model in s.bp ==> now >= s.bp[j.model]) ==>
      j in Apply(s, Start(now)).inFlight || |Apply(s, Start(now)).inFlight| >= s.maxInFlight
    ensures j in s.inFlight ==>
      if s.cells[j].result.None? then Enabled(s, ExecReturn(j, result)) else Enabled(s, FinishFirst(j))
    ensures j in s.transit ==> Enabled(s, FinishSecond(j))
    ensures s.cells[j].client.Selecting? ==> Enabled(s, Cancel(j))
    ensures s.cells[j].client.Selecting? && s.cells[j].sent != [] ==> Enabled(s, Receive(j))
  {
    assert Good(LookAt(s, j));
    StartExhausts(s, now);
    StartFrame(s, now, j);
  }
}
