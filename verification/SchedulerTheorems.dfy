/** The scheduler's promises, for every run of every length. */
module SchedulerTheorems {
  import opened Base
  import opened Scheduler
  import opened SchedulerRuns

  // ---------------------------------------------------------------- conservation

  function Count(steps: seq<Step>, p: Step -> bool): nat {
    if steps == [] then 0 else One(p(steps[0])) + Count(steps[1..], p)
  }

  /** One round of the start loop. */
  lemma StartStep(s: State, now: int, i: nat)
    requires Inv(s) && i == FirstEligible(s.queue, s.bp, now) && |s.inFlight| < s.maxInFlight && i < |s.queue|
    ensures QueueKnown(s) && s.queue[i] in s.cells
    ensures var s1 := StartOne(s, i);
      && Inv(s1) && QueueKnown(s1) && |s1.queue| < |s.queue| && StartEligible(s, now) == StartEligible(s1, now)
      && s1.issued == s.issued && s1.cells.Keys == s.cells.Keys
      && s1.maxInFlight == s.maxInFlight && |s1.inFlight| <= s.maxInFlight
  {
    StartOneKeepsInv(s, i);
    StartOneShape(s, i);
  }

  lemma StartOneShape(s: State, i: nat)
    requires i < |s.queue| && s.queue[i] in s.cells
    ensures var s1 := StartOne(s, i);
      && |s1.queue| < |s.queue| && s1.issued == s.issued && s1.cells.Keys == s.cells.Keys
      && s1.maxInFlight == s.maxInFlight && |s1.inFlight| <= |s.inFlight| + 1
  { }

  lemma {:induction false} StartKeepsIssued(s: State, now: int)
    requires Inv(s)
    ensures QueueKnown(s) && StartEligible(s, now).issued == s.issued
    ensures StartEligible(s, now).cells.Keys == s.cells.Keys
    decreases |s.queue|
  {
    var i := FirstEligible(s.queue, s.bp, now);
    if |s.inFlight| < s.maxInFlight && i < |s.queue| {
      StartStep(s, now, i);
      StartKeepsIssued(StartOne(s, i), now);
    }
  }

  /** A step adds a request exactly when it is a Submit, and never loses one. */
  ghost predicate Issues(s: State, step: Step, s1: State) {
    if step.Submit? then |s1.issued| == |s.issued| + 1 && s1.cells.Keys == s.cells.Keys + {s1.issued[|s.issued|]}
    else s1.cells.Keys == s.cells.Keys && s1.issued == s.issued
  }

  lemma PreemptIssues(s: State, step: Step)
    requires Enabled(s, step) && step.Preempt?
    ensures Issues(s, step, Apply(s, step))
  { }

  lemma FinishIssues(s: State, step: Step)
    requires Enabled(s, step) && (step.FinishFirst? || step.FinishSecond?)
    ensures Issues(s, step, Apply(s, step))
  { }

  lemma ClientIssues(s: State, step: Step)
    requires Enabled(s, step) && (step.Submit? || step.Cancel? || step.Receive? || step.ExecReturn?)
    ensures Issues(s, step, Apply(s, step))
  { }

  lemma SettingIssues(s: State, step: Step)
    requires Enabled(s, step) && (step.SetMax? || step.SetBackpressure? || step.ParentCancel?)
    ensures Issues(s, step, Apply(s, step))
  { }

  lemma StepIssues(s: State, step: Step)
    requires Inv(s) && Enabled(s, step)
    ensures Issues(s, step, Apply(s, step))
  {
    if step.Start? { StartKeepsIssued(s, step.now); }
    else if step.Preempt? { PreemptIssues(s, step); }
    else if step.FinishFirst? || step.FinishSecond? { FinishIssues(s, step); }
    else if step.SetMax? || step.SetBackpressure? || step.ParentCancel? { SettingIssues(s, step); }
    else { ClientIssues(s, step); }
  }

  lemma StepCounts(s: State, step: Step)
    requires Inv(s) && Enabled(s, step) && |s.cells.Keys| == |s.issued|
    ensures var s1 := Apply(s, step);
      |s1.cells.Keys| == |s1.issued| == |s.issued| + if step.Submit? then 1 else 0
  {
    StepIssues(s, step);
    if step.Submit? {
      assert Apply(s, step).issued[|s.issued|] !in s.cells;
    }
  }

  lemma {:induction false} RunIssues(s: State, steps: seq<Step>)
    requires Inv(s) && Valid(s, steps) && |s.cells.Keys| == |s.issued|
    ensures var r := Final(s, steps);
      |r.cells.Keys| == |r.issued| == |s.issued| + Count(steps, (t: Step) => t.Submit?)
    decreases |steps|
  {
    if steps != [] {
      StepCounts(s, steps[0]);
      StepKeepsInv(s, steps[0]);
      RunIssues(Apply(s, steps[0]), steps[1..]);
    }
  }

  lemma EvolvesToCancelled(v: Look, v1: Look, step: Step, j: Job)
    requires Evolves(v, v1, step, j) && v1.cell.client.Cancelled?
    ensures v.cell.client.Cancelled? || step == Cancel(j)
  { }

  lemma StepToCancelled(s: State, step: Step, j: Job)
    requires Inv(s) && Enabled(s, step) && j in Apply(s, step).cells && Apply(s, step).cells[j].client.Cancelled?
    ensures (j in s.cells && s.cells[j].client.Cancelled?) || step == Cancel(j)
  {
    if j in s.cells {
      StepEvolves(s, step, j);
      EvolvesToCancelled(LookAt(s, j), LookAt(Apply(s, step), j), step, j);
    } else {
      StepIssues(s, step);
    }
  }

  lemma {:induction false} CancelledByCancel(s: State, steps: seq<Step>, j: Job)
    requires Inv(s) && Valid(s, steps) && j in Final(s, steps).cells && Final(s, steps).cells[j].client.Cancelled?
    ensures (j in s.cells && s.cells[j].client.Cancelled?) || Cancel(j) in steps
    decreases |steps|
  {
    if steps != [] {
      var s1 := Apply(s, steps[0]);
      StepKeepsInv(s, steps[0]);
      CancelledByCancel(s1, steps[1..], j);
      if j in s1.cells && s1.cells[j].client.Cancelled? { StepToCancelled(s, steps[0], j); }
    }
  }

  /**
   Conservation. Whatever the interleaving, there are as many requests as submissions, each request is in
   exactly one place, and one that left undelivered was cancelled by its own client.
   */
  lemma Conservation(maxInFlight: int, steps: seq<Step>)
    requires Valid(Init(maxInFlight), steps)
    ensures var s := Final(Init(maxInFlight), steps);
      && |s.cells.Keys| == Count(steps, (t: Step) => t.Submit?)
      && forall j :: j in s.cells ==>
        && Places(LookAt(s, j)) == 1
        && (j in s.withdrawn || j in s.dropped ==> Cancel(j) in steps)
  {
    var s0 := Init(maxInFlight);
    var s := Final(s0, steps);
    RunKeepsInv(s0, steps);
    RunIssues(s0, steps);
    forall j | j in s.cells
      ensures Places(LookAt(s, j)) == 1 && (j in s.withdrawn || j in s.dropped ==> Cancel(j) in steps)
    {
      assert Good(LookAt(s, j));
      if j in s.withdrawn || j in s.dropped { CancelledByCancel(s0, steps, j); }
    }
  }

  // ---------------------------------------------------------------- one success, one delivery

  ghost predicate Starts(s: State, step: Step, j: Job)
    requires Enabled(s, step)
  {
    j !in s.inFlight && j in Apply(s, step).inFlight
  }

  /** How often a run starts an execution of `j`. */
  ghost function CountStarts(s: State, steps: seq<Step>, j: Job): nat
    requires Valid(s, steps)
    decreases |steps|
  {
    if steps == [] then 0 else One(Starts(s, steps[0], j)) + CountStarts(Apply(s, steps[0]), steps[1..], j)
  }

  /** How often a run puts a value on the done channel of `j`. */
  ghost function CountSends(s: State, steps: seq<Step>, j: Job): nat
    requires Valid(s, steps)
    decreases |steps|
  {
    if steps == [] then 0
    else One(j in s.cells && j in Apply(s, steps[0]).cells && s.cells[j].sent != Apply(s, steps[0]).cells[j].sent)
         + CountSends(Apply(s, steps[0]), steps[1..], j)
  }

  lemma EvolvesSucceeded(v: Look, v1: Look, step: Step, j: Job)
    requires Good(v) && Evolves(v, v1, step, j) && v.cell.result == Some(Done)
    ensures v1.cell.result == Some(Done) && !(v1.flying && !v.flying) && !(step.ExecReturn? && step.job == j)
  { }

  lemma EvolvesSends(v: Look, v1: Look, step: Step, j: Job)
    requires Good(v) && Good(v1) && Evolves(v, v1, step, j)
    ensures |v1.cell.sent| == |v.cell.sent| + One(v1.cell.sent != v.cell.sent)
  { }

  /** Once an execution of `j` returned nil, `j` is never executed, started or requeued again. */
  lemma {:induction false} SuccessIsFinal(s: State, steps: seq<Step>, j: Job)
    requires Inv(s) && Valid(s, steps) && j in s.cells && s.cells[j].result == Some(Done)
    ensures CountStarts(s, steps, j) == 0
    ensures forall r :: ExecReturn(j, r) !in steps
    ensures j in Final(s, steps).cells && Final(s, steps).cells[j].result == Some(Done)
    ensures j !in Final(s, steps).queue
    decreases |steps|
  {
    assert Good(LookAt(s, j));
    if steps != [] {
      var step, s1 := steps[0], Apply(s, steps[0]);
      StepKeepsInv(s, step);
      StepEvolves(s, step, j);
      EvolvesSucceeded(LookAt(s, j), LookAt(s1, j), step, j);
      SuccessIsFinal(s1, steps[1..], j);
    }
  }

  lemma {:induction false} SuccessesBounded(s: State, steps: seq<Step>, j: Job)
    requires Inv(s) && Valid(s, steps)
    ensures Count(steps, (t: Step) => t == ExecReturn(j, Done)) <= 1
    ensures j in s.cells && s.cells[j].result == Some(Done) ==>
      Count(steps, (t: Step) => t == ExecReturn(j, Done)) == 0
    decreases |steps|
  {
    if steps != [] {
      var step, s1 := steps[0], Apply(s, steps[0]);
      StepKeepsInv(s, step);
      if j in s.cells {
        StepEvolves(s, step, j);
        if s.cells[j].result == Some(Done) { EvolvesSucceeded(LookAt(s, j), LookAt(s1, j), step, j); }
      }
      SuccessesBounded(s1, steps[1..], j);
    }
  }

  lemma {:induction false} SendsBounded(s: State, steps: seq<Step>, j: Job)
    requires Inv(s) && Valid(s, steps)
    ensures (if j in s.cells then |s.cells[j].sent| else 0) + CountSends(s, steps, j) <= 1
    decreases |steps|
  {
    if j in s.cells { assert Good(LookAt(s, j)); }
    if steps != [] {
      var step, s1 := steps[0], Apply(s, steps[0]);
      StepKeepsInv(s, step);
      if j in s.cells {
        StepEvolves(s, step, j);
        assert Good(LookAt(s1, j));
        EvolvesSends(LookAt(s, j), LookAt(s1, j), step, j);
      }
      SendsBounded(s1, steps[1..], j);
    }
  }

  /**
   At most one success and one delivery. Over a whole run with any number of preemptions, the execution of a
   request returns nil at most once and its done channel, of capacity one, receives at most one value.
   */
  lemma OneSuccessOneDelivery(maxInFlight: int, steps: seq<Step>, j: Job)
    requires Valid(Init(maxInFlight), steps)
    ensures Count(steps, (t: Step) => t == ExecReturn(j, Done)) <= 1
    ensures CountSends(Init(maxInFlight), steps, j) <= 1
  {
    SuccessesBounded(Init(maxInFlight), steps, j);
    SendsBounded(Init(maxInFlight), steps, j);
  }

  // ---------------------------------------------------------------- cancelled requests

  /** How many more executions of a cancelled request can start. */
  function Budget(v: Look): nat {
    if v.waiting || v.transit == Some(false) then 1 else 0
  }

  lemma EvolvesCancelled(v: Look, v1: Look, step: Step, j: Job)
    requires Good(v) && Good(v1) && Evolves(v, v1, step, j) && v.cell.client.Cancelled?
    ensures v1.cell.client.Cancelled?
    ensures One(v1.flying && !v.flying) + Budget(v1) <= Budget(v)
  { }

  /** After its client cancelled, a request is executed again at most once, and only from `Budget`'s two places. */
  lemma {:induction false} ZombieAtMostOnce(s: State, steps: seq<Step>, j: Job)
    requires Inv(s) && Valid(s, steps) && j in s.cells && s.cells[j].client.Cancelled?
    ensures CountStarts(s, steps, j) <= Budget(LookAt(s, j)) <= 1
    decreases |steps|
  {
    if steps != [] {
      var step, s1 := steps[0], Apply(s, steps[0]);
      StepKeepsInv(s, step);
      StepEvolves(s, step, j);
      assert Good(LookAt(s, j)) && Good(LookAt(s1, j));
      EvolvesCancelled(LookAt(s, j), LookAt(s1, j), step, j);
      ZombieAtMostOnce(s1, steps[1..], j);
    }
  }

  /** At a second section, a cancelled request is requeued exactly when its flag was set after the copy was taken. */
  lemma ZombieFlags(s: State, j: Job)
    requires Inv(s) && Enabled(s, FinishSecond(j))
    ensures var c := s.cells[j];
      j in ApplyFinishSecond(s, j).queue && c.client.Cancelled? <==>
        c.abandoned && !s.transit[j] && c.result.value.Failed? &&
        (c.cause == Some(Preempted) || (exists code :: c.cause == Some(Returned(Failed(code, true)))))
  {
    assert Good(LookAt(s, j));
    InsertMembers(s.queue, j);
    var cause := s.cells[j].cause.value;
    if WantsRequeue(s.cells[j]) && !cause.Preempted? {
      assert cause == Returned(Failed(cause.result.code, true));
    }
  }

  /** The run's last first section for `j` is followed by a cancel of its client. */
  ghost predicate CancelBetween(steps: seq<Step>, j: Job) {
    exists a, b :: 0 <= a < b < |steps| && steps[a] == FinishFirst(j) && steps[b] == Cancel(j) &&
      FinishFirst(j) !in steps[a + 1..]
  }

  lemma BetweenInTail(steps: seq<Step>, j: Job)
    requires steps != [] && FinishFirst(j) in steps[1..]
    ensures CancelBetween(steps, j) <==> CancelBetween(steps[1..], j)
  {
    var tail := steps[1..];
    if CancelBetween(steps, j) {
      var a, b :| 0 <= a < b < |steps| && steps[a] == FinishFirst(j) && steps[b] == Cancel(j) &&
        FinishFirst(j) !in steps[a + 1..];
      assert tail[a - 1] == FinishFirst(j) && tail[b - 1] == Cancel(j) && tail[a..] == steps[a + 1..];
    }
    if CancelBetween(tail, j) {
      var a, b :| 0 <= a < b < |tail| && tail[a] == FinishFirst(j) && tail[b] == Cancel(j) &&
        FinishFirst(j) !in tail[a + 1..];
      assert steps[a + 1] == FinishFirst(j) && steps[b + 1] == Cancel(j) && steps[a + 2..] == tail[a + 1..];
    }
  }

  lemma BetweenFromHead(steps: seq<Step>, j: Job)
    requires steps != [] && steps[0] == FinishFirst(j) && FinishFirst(j) !in steps[1..]
    ensures CancelBetween(steps, j) <==> Cancel(j) in steps[1..]
  {
    if Cancel(j) in steps[1..] {
      var b :| 0 <= b < |steps[1..]| && steps[1..][b] == Cancel(j);
      assert steps[b + 1] == Cancel(j);
    }
    if CancelBetween(steps, j) {
      var a, b :| 0 <= a < b < |steps| && steps[a] == FinishFirst(j) && steps[b] == Cancel(j) &&
        FinishFirst(j) !in steps[a + 1..];
      assert steps[1..][b - 1] == Cancel(j);
    }
  }

  /** The flag of a request between the two sections was set after its copy was taken. */
  predicate Late(v: Look) { v.cell.abandoned && v.transit == Some(false) }

  /** How one step changes that, for a request that is between the sections afterwards. */
  lemma EvolvesLate(v: Look, v1: Look, step: Step, j: Job)
    requires Good(v) && Evolves(v, v1, step, j) && v1.transit.Some?
    requires step == Cancel(j) ==> v.cell.client.Selecting?
    ensures step == FinishFirst(j) ==> !Late(v1)
    ensures step != FinishFirst(j) ==> v.transit.Some? && (Late(v1) <==> Late(v) || step == Cancel(j))
  {
    match step {
      case Cancel(job) =>
        if job == j {
          assert v.transit.Some? && v.transit.value ==> v.transit == Some(true);
          assert !v.waiting && v.transit == Some(false);
        }
      case FinishSecond(job) => assert job != j;
      case Start(_) => assert v1 == v;
      case _ =>
    }
  }

  /** The same over a run that ends with the request between the sections. */
  lemma {:induction false} LateMeans(s: State, steps: seq<Step>, j: Job)
    requires Inv(s) && Valid(s, steps) && j in s.cells && j in Final(s, steps).transit
    ensures j in Final(s, steps).cells
    ensures FinishFirst(j) in steps ==> (Late(LookAt(Final(s, steps), j)) <==> CancelBetween(steps, j))
    ensures FinishFirst(j) !in steps ==>
      j in s.transit && (Late(LookAt(Final(s, steps), j)) <==> Late(LookAt(s, j)) || Cancel(j) in steps)
    decreases |steps|
  {
    if steps != [] {
      var step, s1 := steps[0], Apply(s, steps[0]);
      StepKeepsInv(s, step);
      StepEvolves(s, step, j);
      LateMeans(s1, steps[1..], j);
      if FinishFirst(j) in steps[1..] {
        BetweenInTail(steps, j);
      } else {
        assert Good(LookAt(s, j));
        EvolvesLate(LookAt(s, j), LookAt(s1, j), step, j);
        if step == FinishFirst(j) {
          BetweenFromHead(steps, j);
        }
      }
    }
  }

  /** A request that is not there yet has no part in the steps before it is submitted. */
  lemma {:induction false} LateFromNothing(s: State, steps: seq<Step>, j: Job)
    requires Inv(s) && Valid(s, steps) && j !in s.cells && j in Final(s, steps).transit
    ensures j in Final(s, steps).cells
    ensures Late(LookAt(Final(s, steps), j)) <==> CancelBetween(steps, j)
    decreases |steps|
  {
    assert j !in s.transit;
    if steps != [] {
      var s1 := Apply(s, steps[0]);
      StepKeepsInv(s, steps[0]);
      if j in s1.cells {
        SubmittedWaits(s, steps[0], j);
        LateMeans(s1, steps[1..], j);
      } else {
        LateFromNothing(s1, steps[1..], j);
      }
      FirstInTail(s, steps, j);
      BetweenInTail(steps, j);
    }
  }

  lemma SubmittedWaits(s: State, step: Step, j: Job)
    requires Inv(s) && Enabled(s, step) && j !in s.cells && j in Apply(s, step).cells
    ensures j !in Apply(s, step).transit
  {
    StepIssues(s, step);
  }

  /** Between the sections only after a first section. */
  lemma {:induction false} FirstInTail(s: State, steps: seq<Step>, j: Job)
    requires Inv(s) && Valid(s, steps) && steps != [] && j !in s.cells && j in Final(s, steps).transit
    ensures FinishFirst(j) in steps[1..]
    decreases |steps|
  {
    var s1 := Apply(s, steps[0]);
    StepKeepsInv(s, steps[0]);
    if j in s1.cells {
      SubmittedWaits(s, steps[0], j);
      LateMeans(s1, steps[1..], j);
    } else {
      assert j !in s1.transit;
      FirstInTail(s1, steps[1..], j);
    }
  }

  /** Cancelled before the first section of `finishOne`: never started again. */
  lemma CancelledBeforeFinish(s: State, steps: seq<Step>, j: Job)
    requires Inv(s) && Enabled(s, FinishFirst(j)) && s.cells[j].client.Cancelled?
    requires Valid(Apply(s, FinishFirst(j)), steps)
    ensures CountStarts(Apply(s, FinishFirst(j)), steps, j) == 0
  {
    assert Good(LookAt(s, j));
    StepKeepsInv(s, FinishFirst(j));
    ZombieAtMostOnce(Apply(s, FinishFirst(j)), steps, j);
  }

  /** A run is valid when its first step is enabled and the rest is valid from there. */
  lemma Prepend(s: State, step: Step, rest: seq<Step>)
    requires Enabled(s, step) && Valid(Apply(s, step), rest)
    ensures Valid(s, [step] + rest) && Final(s, [step] + rest) == Final(Apply(s, step), rest)
  {
    assert ([step] + rest)[1..] == rest;
  }

  const LOW := Job(0, 1, "m")
  const HIGH := Job(1, 2, "m")
  const FRESH := Cell(false, None, None, false, [], Entering)
  const BEGUN := Cell(true, None, None, false, [], Selecting)
  const HIT := BEGUN.(cause := Some(Preempted))
  const ENDED := HIT.(result := Some(Failed(0, false)))
  const ZOMBIE_TAIL := [Cancel(LOW), FinishSecond(LOW)]
  const ZOMBIE_MIDDLE := [Preempt(HIGH, 0, Some(LOW)), ExecReturn(LOW, Failed(0, false)), FinishFirst(LOW)]
  const ZOMBIE_HEAD := [Submit(0, "m"), Preempt(LOW, 0, None), Start(0), Submit(1, "m")]

  /** Two requests: `LOW` in flight, `HIGH` waiting. */
  function TwoJobs(low: Cell, high: Cell): State {
    Init(1).(issued := [LOW, HIGH], queue := [HIGH], inFlight := {LOW}, cells := map[LOW := low, HIGH := high])
  }

  lemma ZombieTailRun()
    ensures var s := TwoJobs(ENDED, FRESH.(client := Selecting)).(inFlight := {}, transit := map[LOW := false]);
      && Valid(s, ZOMBIE_TAIL)
      && var r := Final(s, ZOMBIE_TAIL); LOW in r.queue && LOW in r.cells && r.cells[LOW].client.Cancelled?
  {
    var s := TwoJobs(ENDED, FRESH.(client := Selecting)).(inFlight := {}, transit := map[LOW := false]);
    var s1 := ApplyCancel(s, LOW);
    assert s1.cells[LOW] == ENDED.(client := Cancelled, abandoned := true);
    InsertMembers(s1.queue, LOW);
    Prepend(s1, FinishSecond(LOW), []);
    Prepend(s, Cancel(LOW), [FinishSecond(LOW)]);
    assert ZOMBIE_TAIL == [Cancel(LOW)] + ([FinishSecond(LOW)] + []);
  }

  lemma ZombieMiddleRun(rest: seq<Step>)
    requires Valid(TwoJobs(ENDED, FRESH.(client := Selecting)).(inFlight := {}, transit := map[LOW := false]), rest)
    ensures Valid(TwoJobs(BEGUN, FRESH), ZOMBIE_MIDDLE + rest)
    ensures Final(TwoJobs(BEGUN, FRESH), ZOMBIE_MIDDLE + rest) ==
      Final(TwoJobs(ENDED, FRESH.(client := Selecting)).(inFlight := {}, transit := map[LOW := false]), rest)
  {
    var waiting := FRESH.(client := Selecting);
    var s1, s2 := TwoJobs(HIT, waiting), TwoJobs(ENDED, waiting);
    assert IsLeast({LOW}, LOW);
    assert ApplyPreempt(TwoJobs(BEGUN, FRESH), HIGH, Some(LOW)).cells == s1.cells;
    assert ApplyExecReturn(s1, LOW, Failed(0, false)).cells == s2.cells;
    assert ApplyFinishFirst(s2, LOW) == s2.(inFlight := {}, transit := map[LOW := false]);
    Prepend(s2, FinishFirst(LOW), rest);
    Prepend(s1, ExecReturn(LOW, Failed(0, false)), [FinishFirst(LOW)] + rest);
    Prepend(TwoJobs(BEGUN, FRESH), Preempt(HIGH, 0, Some(LOW)),
            [ExecReturn(LOW, Failed(0, false))] + ([FinishFirst(LOW)] + rest));
    assert ZOMBIE_MIDDLE + rest ==
      [Preempt(HIGH, 0, Some(LOW))] + ([ExecReturn(LOW, Failed(0, false))] + ([FinishFirst(LOW)] + rest));
  }

  /** One request, waiting or in flight. */
  function OneJob(low: Cell): State {
    Init(1).(issued := [LOW], queue := [LOW], cells := map[LOW := low])
  }

  lemma ZombieSecondHalf(rest: seq<Step>)
    requires Valid(TwoJobs(BEGUN, FRESH), rest)
    ensures var s := OneJob(FRESH.(client := Selecting));
      && Valid(s, [Start(0)] + ([Submit(1, "m")] + rest))
      && Final(s, [Start(0)] + ([Submit(1, "m")] + rest)) == Final(TwoJobs(BEGUN, FRESH), rest)
  {
    var s2 := OneJob(FRESH.(client := Selecting));
    var s3 := OneJob(BEGUN).(queue := [], inFlight := {LOW});
    StartAlone(s2, LOW);
    assert StartEligible(s2, 0) == s3;
    assert ApplySubmit(s3, 1, "m") == TwoJobs(BEGUN, FRESH);
    Prepend(s3, Submit(1, "m"), rest);
    Prepend(s2, Start(0), [Submit(1, "m")] + rest);
  }

  lemma ZombieFirstStates()
    ensures ApplySubmit(Init(1), 0, "m") == OneJob(FRESH)
    ensures Enabled(OneJob(FRESH), Preempt(LOW, 0, None))
    ensures ApplyPreempt(OneJob(FRESH), LOW, None) == OneJob(FRESH.(client := Selecting))
  { }

  lemma ZombieHeadRun(rest: seq<Step>)
    requires Valid(TwoJobs(BEGUN, FRESH), rest)
    ensures Valid(Init(1), ZOMBIE_HEAD + rest)
    ensures Final(Init(1), ZOMBIE_HEAD + rest) == Final(TwoJobs(BEGUN, FRESH), rest)
  {
    var tail := [Start(0)] + ([Submit(1, "m")] + rest);
    var s1, s2 := OneJob(FRESH), OneJob(FRESH.(client := Selecting));
    ZombieSecondHalf(rest);
    ZombieFirstStates();
    Prepend(s1, Preempt(LOW, 0, None), tail);
    Prepend(Init(1), Submit(0, "m"), [Preempt(LOW, 0, None)] + tail);
    assert ZOMBIE_HEAD + rest == [Submit(0, "m")] + ([Preempt(LOW, 0, None)] + tail);
  }

  lemma StartAlone(s: State, j: Job)
    requires s.queue == [j] && j in s.cells && s.bp == map[] && s.inFlight == {} && s.maxInFlight == 1
    ensures QueueKnown(s) && StartEligible(s, 0) == StartOne(s, 0)
  {
    assert FirstEligible(s.queue, s.bp, 0) == 0;
    assert StartOne(s, 0).queue == [];
  }

  /** Nine steps from the empty scheduler after which a request is queued although its client has returned. */
  lemma ZombieRun()
    ensures var steps := ZOMBIE_HEAD + (ZOMBIE_MIDDLE + ZOMBIE_TAIL);
      && Valid(Init(1), steps)
      && var s := Final(Init(1), steps); LOW in s.queue && LOW in s.cells && s.cells[LOW].client.Cancelled?
  {
    ZombieTailRun();
    ZombieMiddleRun(ZOMBIE_TAIL);
    ZombieHeadRun(ZOMBIE_MIDDLE + ZOMBIE_TAIL);
  }

  // ---------------------------------------------------------------- start discipline

  /** The next request to start is the greatest waiting one that is not under backpressure. */
  lemma FirstIsGreatest(s: State, now: int, j: Job)
    requires Sorted(s.queue) && j in s.queue && !Blocked(s.bp, j.model, now)
    ensures var i := FirstEligible(s.queue, s.bp, now);
      && i < |s.queue| && s.queue[i].priority >= j.priority
      && (s.queue[i].priority == j.priority ==> s.queue[i].ticket <= j.ticket)
  {
    var k :| 0 <= k < |s.queue| && s.queue[k] == j;
  }

  lemma {:induction false} StartGrows(s: State, now: int)
    requires Inv(s)
    ensures QueueKnown(s) && s.inFlight <= StartEligible(s, now).inFlight
    decreases |s.queue|
  {
    var i := FirstEligible(s.queue, s.bp, now);
    if |s.inFlight| < s.maxInFlight && i < |s.queue| {
      StartOneKeepsInv(s, i);
      StartGrows(StartOne(s, i), now);
    }
  }

  /** Starts never take the in-flight count above the current limit, even after the limit was lowered. */
  lemma {:induction false} StartWithinLimit(s: State, now: int)
    requires Inv(s)
    ensures QueueKnown(s)
    ensures var r := StartEligible(s, now); |r.inFlight| <= s.maxInFlight || r.inFlight == s.inFlight
    decreases |s.queue|
  {
    var i := FirstEligible(s.queue, s.bp, now);
    if |s.inFlight| < s.maxInFlight && i < |s.queue| {
      StartStep(s, now, i);
      StartWithinLimit(StartOne(s, i), now);
    }
  }

  /** A pass of `startEligible` stops only when the limit is reached or every waiter is under backpressure. */
  lemma {:induction false} StartExhausts(s: State, now: int)
    requires Inv(s)
    ensures QueueKnown(s)
    ensures var r := StartEligible(s, now);
      |r.inFlight| >= s.maxInFlight || forall j :: j in r.queue ==> j.model in s.bp && now < s.bp[j.model]
    decreases |s.queue|
  {
    var i := FirstEligible(s.queue, s.bp, now);
    if |s.inFlight| < s.maxInFlight && i < |s.queue| {
      StartOneKeepsInv(s, i);
      StartExhausts(StartOne(s, i), now);
    }
  }

  /**
   Nobody is started ahead of an eligible request that precedes it. Equal priorities are ordered by ticket, and a
   preempted request keeps its ticket, so equal-priority requests start in submission order.
   */
  lemma {:induction false} StartInOrder(s: State, now: int, a: Job, b: Job)
    requires Inv(s) && QueueKnown(s) && b in StartEligible(s, now).inFlight && b !in s.inFlight
    ensures b in s.queue && (b.model in s.bp ==> now >= s.bp[b.model])
    ensures a.priority > b.priority || (a.priority == b.priority && a.ticket < b.ticket) ==>
      (a in s.queue && (a.model in s.bp ==> now >= s.bp[a.model]) ==> a in StartEligible(s, now).inFlight)
    decreases |s.queue|
  {
    var i := FirstEligible(s.queue, s.bp, now);
    if |s.inFlight| < s.maxInFlight && i < |s.queue| {
      var s1 := StartOne(s, i);
      StartOneKeepsInv(s, i);
      StartGrows(s1, now);
      WithoutMembers(s.queue, i);
      if b != s.queue[i] { StartInOrder(s1, now, a, b); }
      if a in s.queue && !Blocked(s.bp, a.model, now) { FirstIsGreatest(s, now, a); }
    }
  }

  // ---------------------------------------------------------------- preemption

  ghost predicate DistinctTickets(js: set<Job>) {
    forall a, b :: a in js && b in js && a.ticket == b.ticket ==> a == b
  }

  lemma {:induction false} LeastExists(js: set<Job>)
    requires js != {} && DistinctTickets(js)
    ensures exists v :: IsLeast(js, v)
    decreases |js|
  {
    var x :| x in js;
    var rest := js - {x};
    assert forall r :: r in js && r != x ==> r in rest;
    if rest == {} {
      assert IsLeast(js, x);
    } else {
      LeastExists(rest);
      var v :| IsLeast(rest, v);
      if Worse(x, v) { assert IsLeast(js, x); } else { assert IsLeast(js, v); }
    }
  }

  lemma LeastUnique(js: set<Job>, v: Job, w: Job)
    requires IsLeast(js, v) && IsLeast(js, w)
    ensures v == w
  { }

  /** `maybePreempt` always has exactly one answer, whatever order Go iterates the in-flight map in. */
  lemma PreemptionDetermined(s: State, job: Job, now: int)
    requires Inv(s)
    ensures exists victim :: PreemptTarget(s, job, now, victim)
    ensures forall v, w :: PreemptTarget(s, job, now, v) && PreemptTarget(s, job, now, w) ==> v == w
  {
    if |s.inFlight| < s.maxInFlight || Blocked(s.bp, job.model, now) || s.inFlight == {} {
      assert PreemptTarget(s, job, now, None);
    } else {
      assert DistinctTickets(s.inFlight);
      LeastExists(s.inFlight);
      var v :| IsLeast(s.inFlight, v);
      var answer := if job.priority > v.priority && v in s.cells && s.cells[v].started then Some(v) else None;
      assert PreemptTarget(s, job, now, answer);
      forall w | PreemptTarget(s, job, now, w) ensures w == answer {
        forall u | IsLeast(s.inFlight, u) ensures u == v { LeastUnique(s.inFlight, u, v); }
      }
    }
  }

  /** A victim is in flight, strictly below the newcomer, and nobody in flight is lower or equally low and later. */
  lemma VictimIsLowest(s: State, job: Job, now: int, v: Job)
    requires Inv(s) && PreemptTarget(s, job, now, Some(v))
    ensures v in s.inFlight && v.priority < job.priority && |s.inFlight| >= s.maxInFlight
    ensures forall r :: r in s.inFlight ==>
      v.priority <= r.priority && (r.priority == v.priority ==> r.ticket <= v.ticket)
    ensures job.model in s.bp ==> now >= s.bp[job.model]
  { }

  /** When the newcomer outranks someone and capacity is full, someone is preempted. */
  lemma PreemptionHappens(s: State, job: Job, now: int, r: Job)
    requires Inv(s) && r in s.inFlight && r.priority < job.priority
    requires |s.inFlight| >= s.maxInFlight && (job.model in s.bp ==> now >= s.bp[job.model])
    ensures forall victim :: PreemptTarget(s, job, now, victim) ==> victim.Some?
  {
    assert AllGood(s);
    forall v | v in s.inFlight ensures v in s.cells && s.cells[v].started { assert Good(LookAt(s, v)); }
  }
}
