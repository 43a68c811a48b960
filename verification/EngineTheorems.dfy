/** The engine's promises over whole runs: single execution, no stranded intent, consistent observers. */
module EngineTheorems {
  import opened Base
  import opened Engine
  import opened EngineRuns

  // ---------------------------------------------------------------- acceptance, queue and consumers

  predicate InDrain(l: Loop) { l.Draining? || (l.Fin? && l.after.DrainMore?) }

  predicate InSweep(l: Loop) { l.Sweeping? || (l.Fin? && l.after.SweepMore?) }

  predicate ShutdownDrain(l: Loop) { l == Draining(None) || (l.Fin? && l.after == DrainMore(None)) }

  predicate Succeeding(l: Loop, c: nat) {
    l.Fin? && (l.after == Settle(c, Succeeded) || l.after == Settle(c, FailedIntent))
  }

  predicate Cancelling(l: Loop) { l.Fin? && l.after.Settle? && l.after.outcome.WasCancelled? }

  predicate Crashing(l: Loop) { l.Fin? && l.after.Settle? && l.after.outcome.ProgError? }

  /** The consumer will take further work. */
  predicate Serving(s: State, c: nat) {
    c in s.workers &&
    (s.workers[c].Waiting? || s.workers[c].Running? || (s.workers[c].Settling? && Succeeding(s.loop, c)))
  }

  ghost predicate SomeServing(s: State) { exists c :: Serving(s, c) }

  ghost predicate OnlySettling(s: State) {
    forall c :: c in s.workers && s.workers[c].Settling? ==> LoopConsumer(s.loop) == Some(c)
  }

  ghost predicate Flow(s: State) {
    && (s.accepting ==> s.phase.Up? && !InDrain(s.loop) && !InSweep(s.loop) && !Cancelling(s.loop))
    && (s.queue != [] ==> s.accepting || s.phase.Stopping? || InDrain(s.loop))
    && (InSweep(s.loop) || s.phase.Down? ==> s.queue == [])
    && (ShutdownDrain(s.loop) || InSweep(s.loop) ==> s.phase.Stopping?)
    && OnlySettling(s)
    && (s.accepting ==> SomeServing(s) || Crashing(s.loop))
  }

  lemma StillServing(s: State, s1: State)
    requires SomeServing(s)
    requires forall c :: Serving(s, c) ==> Serving(s1, c)
    ensures SomeServing(s1)
  {
    var c :| Serving(s, c);
    assert Serving(s1, c);
  }

  lemma ThreadKeepsFlow(s: State, step: Step)
    requires Heap(s) && Flow(s) && Enabled(s, step) && (step.Check? || step.Insert? || step.Schedule?)
    ensures Flow(Next(s, step))
  {
    var s1 := Next(s, step);
    assert s1.workers == s.workers && s1.loop == s.loop && s1.queue == s.queue && s1.phase == s.phase;
    SameFlow(s, s1);
  }

  lemma SameFlow(s: State, s1: State)
    requires Flow(s) && s1.workers == s.workers && s1.loop == s.loop && s1.queue == s.queue
    requires s1.phase == s.phase && s1.accepting == s.accepting
    ensures Flow(s1)
  {
    if SomeServing(s) { StillServing(s, s1); }
  }

  /** `_admit` enqueues only while accepting, and leaves the consumers alone. */
  lemma AdmitRecordKeepsFlow(s: State, r: Rid)
    requires r in s.recs && s.loop.Idle? && Flow(s)
    ensures Flow(AdmitRecord(s, r))
  {
    var s1 := AdmitRecord(s, r);
    assert s1.workers == s.workers && s1.phase == s.phase && s1.accepting == s.accepting;
    if SomeServing(s) { StillServing(s, s1); }
  }

  lemma RelabelKeepsFlow(s: State, s1: State)
    requires Flow(s)
    requires s1.workers == s.workers && s1.phase == s.phase && s1.accepting == s.accepting && s1.queue == s.queue
    requires (s1.loop == s.loop) || (s.loop.Idle? && s1.loop.Creating?) || (s.loop.Creating? && s1.loop.Idle?)
    ensures Flow(s1)
  {
    if SomeServing(s) { StillServing(s, s1); }
  }

  lemma AdmitKeepsFlow(s: State)
    requires Heap(s) && Flow(s) && Enabled(s, Admit)
    ensures Flow(AdmitOne(s))
  {
    var k := s.posted[0];
    RelabelKeepsFlow(s, s.(posted := s.posted[1..]));
    if k in s.records {
      AdmitRecordKeepsFlow(s.(posted := s.posted[1..]), s.records[k]);
    } else {
      RelabelKeepsFlow(s, AdmitOne(s));
    }
  }

  lemma CreateKeepsFlow(s: State, k: Key)
    requires Flow(s) && s.loop == Creating(k)
    ensures Flow(CreateOne(s, k))
  {
    RelabelKeepsFlow(s, s.(loop := Idle));
    if k !in s.records {
      var s1 := Create(s, k, Posted).(loop := Idle);
      RelabelKeepsFlow(s, s1);
      AdmitRecordKeepsFlow(s1, s.nextRid);
    }
  }

  lemma GetKeepsFlow(s: State, c: nat)
    requires Heap(s) && Flow(s) && Enabled(s, Get(c))
    ensures Flow(Next(s, Get(c)))
  {
    var s1 := Next(s, Get(c));
    if SomeServing(s) { StillServing(s, s1); }
  }

  lemma ReturnKeepsFlow(s: State, c: nat, o: Outcome)
    requires Heap(s) && Flow(s) && Enabled(s, Return(c, o))
    ensures Flow(Next(s, Return(c, o)))
  {
    var s1 := Next(s, Return(c, o));
    if o.Succeeded? || o.FailedIntent? { assert Serving(s1, c); }
  }

  lemma ShutdownKeepsFlow(s: State, step: Step)
    requires Heap(s) && Flow(s) && Enabled(s, step)
    requires step.BeginShutdown? || step.JoinShutdown? || step.BeginSweep? || step.CancelIdle?
    ensures Flow(Next(s, step))
  { }

  lemma SettleKeepsFlow(s: State, c: nat, o: Outcome)
    requires Flow(s) && s.loop.Fin? && s.loop.after == Settle(c, o) && c in s.workers && s.workers[c].Settling?
    ensures Flow(SettleOne(s, c, o))
  {
    var s1 := SettleOne(s, c, o);
    if o.Succeeded? || o.FailedIntent? {
      assert Serving(s1, c);
    } else if o.ProgError? && s1.accepting {
      var d :| d in s.workers && d != c && !s.workers[d].Dead?;
      assert Serving(s1, d);
    }
  }

  lemma LoopKeepsFlow(s: State, l: Loop)
    requires Flow(s) && s.loop.Fin? && !s.loop.after.Settle? && l == Continue(s, s.loop.after).loop
    ensures Flow(s.(loop := l))
  {
    if SomeServing(s) {
      StillServing(s, s.(loop := l));
    }
  }

  lemma ContinueKeepsFlow(s: State)
    requires Flow(s) && s.loop.Fin?
    requires s.loop.after.Settle? ==> s.loop.after.consumer in s.workers && s.workers[s.loop.after.consumer].Settling?
    ensures Flow(Continue(s, s.loop.after))
  {
    if s.loop.after.Settle? {
      SettleKeepsFlow(s, s.loop.after.consumer, s.loop.after.outcome);
    } else {
      var l := Continue(s, s.loop.after).loop;
      assert Continue(s, s.loop.after) == s.(loop := l);
      LoopKeepsFlow(s, l);
    }
  }

  lemma StageKeepsFlow(s: State, s1: State)
    requires Flow(s) && s.loop.Fin? && s1.loop.Fin? && s1.loop.after == s.loop.after
    requires s1.workers == s.workers && s1.phase == s.phase && s1.accepting == s.accepting && s1.queue == s.queue
    ensures Flow(s1)
  {
    if SomeServing(s) { StillServing(s, s1); }
  }

  lemma RemoveKeepsFlow(s: State)
    requires Flow(s) && s.loop.Fin? && s.loop.rid in s.recs && s.loop.stage.Removing?
    requires s.loop.after.Settle? ==> s.loop.after.consumer in s.workers && s.workers[s.loop.after.consumer].Settling?
    ensures Flow(FinishTick(s))
  {
    var s1 := Move(s, s.loop.rid, Over).(records := s.records - {s.recs[s.loop.rid].key});
    StageKeepsFlow(s, s1);
    ContinueKeepsFlow(s1);
  }

  lemma CheckingTick(s: State)
    requires s.loop.Fin? && s.loop.rid in s.recs && s.loop.stage.Checking?
    requires Owns(s, s.loop.rid) && s.recs[s.loop.rid].status.Pending?
    ensures FinishTick(s) == s.(loop := s.loop.(stage := Marking))
  { }

  lemma MarkingTick(s: State)
    requires s.loop.Fin? && s.loop.rid in s.recs && s.loop.stage.Marking?
    ensures var r := s.loop.rid;
      FinishTick(s) == s.(recs := s.recs[r := s.recs[r].(status := s.loop.status)], loop := s.loop.(stage := Writing))
  { }

  lemma WritingTick(s: State)
    requires s.loop.Fin? && s.loop.rid in s.recs && s.loop.stage.Writing?
    ensures var x := Receipt(s.recs[s.loop.rid].key, s.loop.status, s.loop.rid);
      FinishTick(s) ==
      s.(finished := Put(s.finished, x), evicted := s.evicted - {x.key}, loop := s.loop.(stage := Evicting))
  { }

  lemma EvictingTick(s: State)
    requires s.loop.Fin? && s.loop.rid in s.recs && s.loop.stage.Evicting?
    ensures var s1 := FinishTick(s);
      && s1 == s.(finished := s1.finished, evicted := s1.evicted, loop := s1.loop)
      && s1.loop.Fin? && s1.loop == s.loop.(stage := s1.loop.stage)
  { }

  lemma EarlierKeepsFlow(s: State)
    requires Flow(s) && s.loop.Fin? && s.loop.rid in s.recs && !s.loop.stage.Removing?
    requires s.loop.stage.Checking? ==> Owns(s, s.loop.rid) && s.recs[s.loop.rid].status.Pending?
    ensures Flow(FinishTick(s))
  {
    match s.loop.stage {
      case Checking => CheckingTick(s);
      case Marking => MarkingTick(s);
      case Writing => WritingTick(s);
      case Evicting => EvictingTick(s);
      case Removing =>
    }
    StageKeepsFlow(s, FinishTick(s));
  }

  lemma FinishKeepsFlow(s: State)
    requires Heap(s) && Flow(s) && s.loop.Fin?
    ensures Flow(FinishTick(s))
  {
    assert RecOk(s, s.loop.rid);
    if s.loop.stage.Removing? { RemoveKeepsFlow(s); } else { EarlierKeepsFlow(s); }
  }

  lemma DrainKeepsFlow(s: State, dying: Option<nat>)
    requires Heap(s) && Flow(s) && s.loop == Draining(dying) && Enabled(s, Tick)
    ensures Flow(DrainTick(s, dying))
  { }

  lemma SweepKeepsFlow(s: State, todo: seq<Rid>)
    requires Heap(s) && Flow(s) && s.loop == Sweeping(todo) && Enabled(s, Tick)
    ensures Flow(SweepTick(s, todo))
  { }

  lemma StepKeepsFlow(s: State, step: Step)
    requires Heap(s) && Flow(s) && Enabled(s, step)
    ensures Flow(Next(s, step))
  {
    match step {
      case Check(_, _) => ThreadKeepsFlow(s, step);
      case Insert(_) => ThreadKeepsFlow(s, step);
      case Schedule(_) => ThreadKeepsFlow(s, step);
      case Admit => AdmitKeepsFlow(s);
      case Get(c) => GetKeepsFlow(s, c);
      case Return(c, o) => ReturnKeepsFlow(s, c, o);
      case CancelIdle(_) => ShutdownKeepsFlow(s, step);
      case BeginShutdown => ShutdownKeepsFlow(s, step);
      case JoinShutdown => ShutdownKeepsFlow(s, step);
      case BeginSweep(_) => ShutdownKeepsFlow(s, step);
      case Tick =>
        match s.loop {
          case Creating(k) => CreateKeepsFlow(s, k);
          case Fin(_, _, _, _) => FinishKeepsFlow(s);
          case Draining(d) => DrainKeepsFlow(s, d);
          case Sweeping(todo) => SweepKeepsFlow(s, todo);
        }
    }
  }

  // ---------------------------------------------------------------- the receipt ring

  ghost predicate DistinctKeys(f: seq<Receipt>) {
    forall i, j :: 0 <= i < j < |f| ==> f[i].key != f[j].key
  }

  /** Every receipt states the terminal status of the generation it names. */
  ghost predicate Truthful(recs: map<Rid, Rec>, f: seq<Receipt>) {
    forall i :: 0 <= i < |f| ==>
      && f[i].rid in recs && recs[f[i].rid].key == f[i].key
      && recs[f[i].rid].status == f[i].status && !f[i].status.Pending?
  }

  /** A key that was ever submitted has a record, a receipt, or a receipt that was evicted. */
  ghost predicate Visible(s: State) {
    forall r :: r in s.recs ==>
      s.recs[r].key in s.records || HasReceipt(s.finished, s.recs[r].key) || s.recs[r].key in s.evicted
  }

  predicate JustWritten(l: Loop) { l.Fin? && (l.stage.Evicting? || l.stage.Removing?) }

  ghost predicate Ring(s: State) {
    && s.finishedMax >= 1
    && DistinctKeys(s.finished) && Truthful(s.recs, s.finished) && Visible(s)
    && |s.finished| <= s.finishedMax + (if s.loop.Fin? && s.loop.stage.Evicting? then 1 else 0)
    && (JustWritten(s.loop) && s.loop.rid in s.recs ==>
          s.finished != [] &&
          s.finished[|s.finished| - 1] == Receipt(s.recs[s.loop.rid].key, s.loop.status, s.loop.rid))
  }

  /** A step that leaves receipts alone and neither forgets a slot nor changes a status. */
  ghost predicate Frame(s: State, s1: State) {
    && s1.finished == s.finished && s1.finishedMax == s.finishedMax && s1.evicted == s.evicted
    && (forall r :: r in s.recs ==>
          r in s1.recs && s1.recs[r].key == s.recs[r].key && s1.recs[r].status == s.recs[r].status)
    && (forall r :: r in s1.recs && r !in s.recs ==> s1.recs[r].key in s1.records)
    && (forall k :: k in s.records ==> k in s1.records)
  }

  lemma FrameKeepsRing(s: State, s1: State)
    requires Ring(s) && Frame(s, s1)
    requires (!JustWritten(s1.loop) && !JustWritten(s.loop)) || s1.loop == s.loop
    requires s1.loop.Fin? ==> s1.loop.rid in s.recs || !JustWritten(s1.loop)
    ensures Ring(s1)
  { }

  lemma StartFinishFrame(s: State, r: Rid, status: Status, after: After)
    requires r in s.recs
    ensures Frame(s, StartFinish(s, r, status, after)) && !JustWritten(StartFinish(s, r, status, after).loop)
  { }

  lemma FrameTrans(a: State, b: State, c: State)
    requires Frame(a, b) && Frame(b, c)
    ensures Frame(a, c)
  { }

  lemma FlagFrame(s: State, r: Rid, p: Place, q: seq<Rid>)
    requires r in s.recs
    ensures Frame(s, s.(recs := s.recs[r := s.recs[r].(queued := true)]))
    ensures Frame(s, Move(s.(recs := s.recs[r := s.recs[r].(queued := true)]), r, p).(queue := q))
  { }

  lemma AdmitRecordFrame(s: State, r: Rid)
    requires r in s.recs && s.loop.Idle?
    ensures Frame(s, AdmitRecord(s, r)) && !JustWritten(AdmitRecord(s, r).loop)
  {
    var s1 := s.(recs := s.recs[r := s.recs[r].(queued := true)]);
    FlagFrame(s, r, Queued, s.queue + [r]);
    StartFinishFrame(s, r, Failed, Back);
    StartFinishFrame(s1, r, Failed, Back);
    FrameTrans(s, s1, StartFinish(s1, r, Failed, Back));
  }

  lemma CreateFrame(s: State, k: Key, p: Place, s1: State)
    requires s.nextRid !in s.recs
    requires s1 == Create(s, k, p).(threads := s1.threads, loop := s1.loop)
    ensures Frame(s, s1)
  { }

  lemma MoveFrame(s: State, r: Rid, p: Place, s1: State)
    requires r in s.recs && s1 == Move(s, r, p).(threads := s1.threads, posted := s1.posted)
    ensures Frame(s, s1)
  { }

  lemma ThreadFrame(s: State, step: Step)
    requires Heap(s) && Enabled(s, step) && (step.Check? || step.Insert? || step.Schedule?)
    ensures Frame(s, Next(s, step)) && Next(s, step).loop == s.loop
  {
    assert s.nextRid !in s.recs;
    var s1 := Next(s, step);
    if step.Insert? && s.threads[step.thread].key !in s.records {
      CreateFrame(s, s.threads[step.thread].key, Inserted(step.thread), s1);
    } else if step.Schedule? {
      var r := s.threads[step.thread].rid;
      if s.recs[r].place == Inserted(step.thread) { MoveFrame(s, r, Posted, s1); }
    }
  }

  lemma AdmitFrame(s: State)
    requires Heap(s) && Enabled(s, Admit)
    ensures Frame(s, AdmitOne(s)) && !JustWritten(AdmitOne(s).loop)
  {
    var s1 := s.(posted := s.posted[1..]);
    if s.posted[0] in s.records {
      AdmitRecordFrame(s1, s.records[s.posted[0]]);
      FrameTrans(s, s1, AdmitOne(s));
    }
  }

  lemma ReturnFrame(s: State, c: nat, o: Outcome)
    requires Heap(s) && Enabled(s, Return(c, o))
    ensures Frame(s, Next(s, Return(c, o))) && !JustWritten(Next(s, Return(c, o)).loop)
  {
    var s1 := s.(workers := s.workers[c := Settling]);
    StartFinishFrame(s1, s.workers[c].rid, StatusOf(o), Settle(c, o));
    FrameTrans(s, s1, Next(s, Return(c, o)));
  }

  lemma GetFrame(s: State, c: nat)
    requires Heap(s) && Enabled(s, Get(c))
    ensures Frame(s, Next(s, Get(c))) && !JustWritten(Next(s, Get(c)).loop)
  { }

  lemma PhaseFrame(s: State, step: Step)
    requires Enabled(s, step) && (step.CancelIdle? || step.BeginShutdown? || step.JoinShutdown? || step.BeginSweep?)
    ensures Frame(s, Next(s, step)) && !JustWritten(Next(s, step).loop)
  { }

  lemma LoopFrame(s: State, step: Step)
    requires Heap(s) && Enabled(s, step) && !step.Tick? && !step.Check? && !step.Insert? && !step.Schedule?
    ensures Frame(s, Next(s, step)) && !JustWritten(Next(s, step).loop) && !JustWritten(s.loop)
  {
    match step {
      case Admit => AdmitFrame(s);
      case Return(c, o) => ReturnFrame(s, c, o);
      case Get(c) => GetFrame(s, c);
      case _ => PhaseFrame(s, step);
    }
  }

  lemma CreateTickFrame(s: State, k: Key)
    requires s.nextRid !in s.recs && s.loop == Creating(k)
    ensures Frame(s, CreateOne(s, k)) && !JustWritten(CreateOne(s, k).loop)
  {
    if k !in s.records {
      var s1 := Create(s, k, Posted).(loop := Idle);
      CreateFrame(s, k, Posted, s1);
      AdmitRecordFrame(s1, s.nextRid);
      FrameTrans(s, s1, AdmitRecord(s1, s.nextRid));
    }
  }

  lemma DrainTickFrame(s: State, d: Option<nat>)
    requires s.queue != [] ==> s.queue[0] in s.recs
    requires !JustWritten(s.loop)
    ensures Frame(s, DrainTick(s, d)) && !JustWritten(DrainTick(s, d).loop)
  {
    if s.queue != [] { StartFinishFrame(s.(queue := s.queue[1..]), s.queue[0], Failed, DrainMore(d)); }
  }

  lemma SweepTickFrame(s: State, todo: seq<Rid>)
    requires todo != [] ==> todo[0] in s.recs
    ensures Frame(s, SweepTick(s, todo)) && !JustWritten(SweepTick(s, todo).loop)
  {
    if todo != [] { StartFinishFrame(s, todo[0], Failed, SweepMore(todo[1..])); }
  }

  lemma QuietTickFrame(s: State)
    requires Heap(s) && Enabled(s, Tick) && !s.loop.Fin?
    ensures Frame(s, Next(s, Tick)) && !JustWritten(Next(s, Tick).loop)
  {
    match s.loop {
      case Creating(k) => CreateTickFrame(s, k);
      case Draining(d) => DrainTickFrame(s, d);
      case Sweeping(todo) => SweepTickFrame(s, todo);
    }
  }

  // ---------------------------------------------------------------- _finish and the ring

  lemma {:induction false} WithoutMembers(f: seq<Receipt>, k: Key)
    ensures forall x :: x in Without(f, k) <==> x in f && x.key != k
  {
    if f != [] {
      WithoutMembers(f[1..], k);
      assert f == [f[0]] + f[1..];
    }
  }

  lemma {:induction false} WithoutLength(f: seq<Receipt>, k: Key)
    ensures |Without(f, k)| <= |f| && (HasReceipt(f, k) ==> |Without(f, k)| < |f|)
  {
    if f != [] {
      WithoutLength(f[1..], k);
      if HasReceipt(f, k) && f[0].key != k {
        var i :| 0 <= i < |f| && f[i].key == k;
        assert f[1..][i - 1].key == k;
      }
    }
  }

  lemma {:induction false} WithoutDistinct(f: seq<Receipt>, k: Key)
    requires DistinctKeys(f)
    ensures DistinctKeys(Without(f, k))
  {
    if f != [] {
      WithoutDistinct(f[1..], k);
      WithoutMembers(f[1..], k);
      var rest := Without(f[1..], k);
      forall i | 0 <= i < |rest| ensures rest[i].key != f[0].key {
        assert rest[i] in f[1..];
      }
    }
  }

  lemma WithoutKey(f: seq<Receipt>, k: Key)
    requires DistinctKeys(f)
    ensures DistinctKeys(Without(f, k)) && !HasReceipt(Without(f, k), k)
    ensures forall x :: x in Without(f, k) <==> x in f && x.key != k
    ensures |Without(f, k)| <= |f| && (HasReceipt(f, k) ==> |Without(f, k)| < |f|)
  {
    WithoutMembers(f, k);
    WithoutLength(f, k);
    WithoutDistinct(f, k);
    forall i | 0 <= i < |Without(f, k)| ensures Without(f, k)[i].key != k {
      assert Without(f, k)[i] in Without(f, k);
    }
  }

  lemma PutKeeps(f: seq<Receipt>, x: Receipt)
    requires DistinctKeys(f)
    ensures DistinctKeys(Put(f, x)) && |Put(f, x)| <= |f| + 1
    ensures forall y :: y in Put(f, x) <==> y == x || (y in f && y.key != x.key)
    ensures forall k :: HasReceipt(f, k) ==> HasReceipt(Put(f, x), k)
    ensures HasReceipt(Put(f, x), x.key) && Put(f, x)[|Put(f, x)| - 1] == x
  {
    WithoutKey(f, x.key);
    var w, p := Without(f, x.key), Put(f, x);
    assert p[|p| - 1] == x;
    forall k | HasReceipt(f, k) && k != x.key ensures HasReceipt(p, k) {
      var i :| 0 <= i < |f| && f[i].key == k;
      assert f[i] in w;
      var j :| 0 <= j < |w| && w[j] == f[i];
      assert p[j].key == k;
    }
    forall i, j | 0 <= i < j < |p| ensures p[i].key != p[j].key {
      assert i < |w| ==> w[i] in w;
    }
  }

  lemma MembersTruthful(recs: map<Rid, Rec>, f: seq<Receipt>, g: seq<Receipt>, x: Receipt)
    requires Truthful(recs, f) && (forall y :: y in g ==> y == x || y in f)
    requires x.rid in recs && recs[x.rid].key == x.key && recs[x.rid].status == x.status && !x.status.Pending?
    ensures Truthful(recs, g)
  {
    forall i | 0 <= i < |g|
      ensures g[i].rid in recs && recs[g[i].rid].key == g[i].key &&
              recs[g[i].rid].status == g[i].status && !g[i].status.Pending?
    {
      assert g[i] in g;
    }
  }

  lemma WriteKeepsRing(s: State)
    requires Heap(s) && Ring(s) && s.loop.Fin? && s.loop.stage.Writing?
    ensures Ring(FinishTick(s))
  {
    var r := s.loop.rid;
    assert RecOk(s, r);
    var x := Receipt(s.recs[r].key, s.loop.status, r);
    PutKeeps(s.finished, x);
    MembersTruthful(s.recs, s.finished, Put(s.finished, x), x);
  }

  /** Eviction takes the oldest receipt, which is never the one just written. */
  lemma EvictKeepsRing(s: State)
    requires Heap(s) && Ring(s) && s.loop.Fin? && s.loop.stage.Evicting?
    ensures Ring(FinishTick(s))
    ensures HasReceipt(FinishTick(s).finished, s.recs[s.loop.rid].key)
  {
    var f := s.finished;
    if |f| > s.finishedMax {
      var s1 := FinishTick(s);
      forall q | q in s.recs && HasReceipt(f, s.recs[q].key) && s.recs[q].key != f[0].key
        ensures HasReceipt(f[1..], s.recs[q].key)
      {
        var i :| 0 <= i < |f| && f[i].key == s.recs[q].key;
        assert f[1..][i - 1] == f[i];
      }
      assert f[1..][|f| - 2] == f[|f| - 1];
    }
  }

  lemma MarkKeepsRing(s: State)
    requires Heap(s) && Ring(s) && s.loop.Fin? && s.loop.stage.Marking?
    ensures Ring(FinishTick(s))
  {
    assert RecOk(s, s.loop.rid);
  }

  lemma RemovedKeepsRing(s: State, s1: State)
    requires Heap(s) && Ring(s) && s.loop.Fin? && s.loop.stage.Removing? && !JustWritten(s1.loop)
    requires s1.finished == s.finished && s1.finishedMax == s.finishedMax && s1.evicted == s.evicted
    requires s1.recs == Move(s, s.loop.rid, Over).recs && s1.records == s.records - {s.recs[s.loop.rid].key}
    ensures Ring(s1)
  {
    assert s.finished[|s.finished| - 1].key == s.recs[s.loop.rid].key;
    assert HasReceipt(s.finished, s.recs[s.loop.rid].key);
  }

  ghost predicate SameDicts(s: State, s1: State) {
    && s1.finished == s.finished && s1.finishedMax == s.finishedMax && s1.evicted == s.evicted
    && s1.recs == s.recs && s1.records == s.records
  }

  lemma SettleFrame(s: State, c: nat, o: Outcome)
    ensures SameDicts(s, SettleOne(s, c, o)) && !SettleOne(s, c, o).loop.Fin?
  { }

  lemma ContinueFrame(s: State, after: After)
    ensures SameDicts(s, Continue(s, after)) && !Continue(s, after).loop.Fin?
  {
    if after.Settle? { SettleFrame(s, after.consumer, after.outcome); }
  }

  lemma RemoveKeepsRing(s: State)
    requires Heap(s) && Ring(s) && s.loop.Fin? && s.loop.stage.Removing?
    ensures Ring(FinishTick(s))
  {
    ContinueFrame(Move(s, s.loop.rid, Over).(records := s.records - {s.recs[s.loop.rid].key}), s.loop.after);
    RemovedKeepsRing(s, FinishTick(s));
  }

  lemma FinishKeepsRing(s: State)
    requires Heap(s) && Ring(s) && s.loop.Fin?
    ensures Ring(FinishTick(s))
  {
    match s.loop.stage {
      case Checking => assert RecOk(s, s.loop.rid);
      case Marking => MarkKeepsRing(s);
      case Writing => WriteKeepsRing(s);
      case Evicting => EvictKeepsRing(s);
      case Removing => RemoveKeepsRing(s);
    }
  }

  lemma StepKeepsRing(s: State, step: Step)
    requires Heap(s) && Ring(s) && Enabled(s, step)
    ensures Ring(Next(s, step))
  {
    if step.Check? || step.Insert? || step.Schedule? {
      ThreadFrame(s, step);
      FrameKeepsRing(s, Next(s, step));
    } else if !step.Tick? {
      LoopFrame(s, step);
      FrameKeepsRing(s, Next(s, step));
    } else if s.loop.Fin? {
      FinishKeepsRing(s);
    } else {
      QuietTickFrame(s);
      FrameKeepsRing(s, Next(s, step));
    }
  }

  // ---------------------------------------------------------------- runs

  ghost predicate Inv(s: State) { Heap(s) && Flow(s) && Ring(s) }

  function AllWaiting(n: nat): (m: map<nat, Worker>)
    ensures forall c: nat :: c in m <==> c < n
    ensures forall c: nat :: c in m ==> m[c] == Waiting
  {
    if n == 0 then map[] else AllWaiting(n - 1)[n - 1 := Waiting]
  }

  /** A started engine with consumers 0 to n - 1; `finished_max` is raised to at least 1. */
  function Init(n: nat, queueSize: nat, finishedMax: nat): State {
    State(map[], map[], 0, [], if finishedMax < 1 then 1 else finishedMax, {}, [], queueSize, true, 0,
          AllWaiting(n), false, Up, map[], [], Idle)
  }

  lemma InitInv(n: nat, queueSize: nat, finishedMax: nat)
    requires n > 0
    ensures Inv(Init(n, queueSize, finishedMax))
  {
    assert Serving(Init(n, queueSize, finishedMax), 0);
  }

  ghost predicate Valid(s: State, steps: seq<Step>)
    decreases |steps|
  {
    steps == [] || (Enabled(s, steps[0]) && Valid(Next(s, steps[0]), steps[1..]))
  }

  ghost function Final(s: State, steps: seq<Step>): State
    requires Valid(s, steps)
    decreases |steps|
  {
    if steps == [] then s else Final(Next(s, steps[0]), steps[1..])
  }

  lemma StepKeepsInv(s: State, step: Step)
    requires Inv(s) && Enabled(s, step)
    ensures Inv(Next(s, step))
  {
    StepKeepsHeap(s, step);
    StepKeepsFlow(s, step);
    StepKeepsRing(s, step);
  }

  lemma {:induction false} RunKeepsInv(s: State, steps: seq<Step>)
    requires Inv(s) && Valid(s, steps)
    ensures Inv(Final(s, steps))
    decreases |steps|
  {
    if steps != [] {
      StepKeepsInv(s, steps[0]);
      RunKeepsInv(Next(s, steps[0]), steps[1..]);
    }
  }

  /** Single execution: however submitters race, no two consumers ever run the same key at the same time. */
  lemma SingleExecution(n: nat, queueSize: nat, finishedMax: nat, steps: seq<Step>, c: nat, d: nat)
    requires n > 0 && Valid(Init(n, queueSize, finishedMax), steps)
    requires var s := Final(Init(n, queueSize, finishedMax), steps);
      c in s.workers && d in s.workers && c != d && s.workers[c].Running? && s.workers[d].Running?
    ensures var s := Final(Init(n, queueSize, finishedMax), steps);
      && s.workers[c].rid in s.recs && s.workers[d].rid in s.recs
      && s.recs[s.workers[c].rid].key != s.recs[s.workers[d].rid].key
  {
    InitInv(n, queueSize, finishedMax);
    RunKeepsInv(Init(n, queueSize, finishedMax), steps);
    var s := Final(Init(n, queueSize, finishedMax), steps);
    assert RecOk(s, s.workers[c].rid) && RecOk(s, s.workers[d].rid);
  }

  /** A waiting record and a running one never share a key either, nor do two waiting ones. */
  lemma QueueIsExclusive(s: State, i: nat, j: nat, c: nat)
    requires Inv(s) && i < |s.queue| && j < |s.queue| && i != j && c in s.workers && s.workers[c].Running?
    ensures s.queue[i] in s.recs && s.queue[j] in s.recs && s.workers[c].rid in s.recs
    ensures s.recs[s.queue[i]].key != s.recs[s.queue[j]].key
    ensures s.recs[s.queue[i]].key != s.recs[s.workers[c].rid].key
  {
    assert s.queue[i] in s.queue && s.queue[j] in s.queue;
    assert RecOk(s, s.queue[i]) && RecOk(s, s.queue[j]) && RecOk(s, s.workers[c].rid);
  }

  lemma RemovingDicts(s: State)
    requires s.loop.Fin? && s.loop.rid in s.recs && s.loop.stage.Removing?
    ensures FinishTick(s).records == s.records - {s.recs[s.loop.rid].key}
    ensures FinishTick(s).recs == Move(s, s.loop.rid, Over).recs
  {
    ContinueFrame(Move(s, s.loop.rid, Over).(records := s.records - {s.recs[s.loop.rid].key}), s.loop.after);
  }

  lemma EarlierDicts(s: State)
    requires s.loop.Fin? && s.loop.rid in s.recs && !s.loop.stage.Removing?
    requires Owns(s, s.loop.rid) && (s.loop.stage.Checking? ==> s.recs[s.loop.rid].status.Pending?)
    ensures FinishTick(s).records == s.records
    ensures FinishTick(s).recs ==
      if s.loop.stage.Marking? then s.recs[s.loop.rid := s.recs[s.loop.rid].(status := s.loop.status)] else s.recs
  {
    match s.loop.stage {
      case Checking => CheckingTick(s);
      case Marking => MarkingTick(s);
      case Writing => WritingTick(s);
      case Evicting => EvictingTick(s);
      case Removing =>
    }
  }

  /** The slot that `_finish` empties holds the very record being finished, never a newer generation. */
  lemma FinishRemovesOwnSlot(s: State, k: Key)
    requires Inv(s) && s.loop.Fin? && k in s.records && k !in FinishTick(s).records
    ensures s.records[k] == s.loop.rid && !s.recs[s.loop.rid].status.Pending?
  {
    assert RecOk(s, s.loop.rid);
    if s.loop.stage.Removing? { RemovingDicts(s); } else { EarlierDicts(s); }
  }

  /** Where a record of the dedup table can be when the event loop is between callbacks. */
  ghost predicate Attended(s: State, r: Rid)
    requires r in s.recs
  {
    var c := s.recs[r];
    || (!c.queued && (c.key in s.posted || exists t :: t in s.threads && s.threads[t] == Owner(r)))
    || (r in s.queue && SomeServing(s))
    || (exists w :: w in s.workers && s.workers[w] == Running(r))
  }

  /**
   No stranded intent. Before a shutdown begins and after it has returned, every intent in the table is pending and
   is owed an `_admit`, waits in the queue in front of a live consumer, or is being run.
   */
  lemma NoStrandedIntent(n: nat, queueSize: nat, finishedMax: nat, steps: seq<Step>, k: Key)
    requires n > 0 && Valid(Init(n, queueSize, finishedMax), steps)
    requires var s := Final(Init(n, queueSize, finishedMax), steps);
      s.loop.Idle? && !s.phase.Stopping? && k in s.records
    ensures var s := Final(Init(n, queueSize, finishedMax), steps);
      s.records[k] in s.recs && s.recs[s.records[k]].status.Pending? && Attended(s, s.records[k])
  {
    InitInv(n, queueSize, finishedMax);
    RunKeepsInv(Init(n, queueSize, finishedMax), steps);
    var s := Final(Init(n, queueSize, finishedMax), steps);
    assert RecOk(s, s.records[k]);
  }

  /**
   The same in the middle of the loop's callbacks and of a shutdown: a record of the table is owed an `_admit`, waits
   in the queue in front of a live consumer, of a crash that is being settled or of a drain, is being run, or is the
   one that the loop is finishing.
   */
  ghost predicate Attending(s: State, r: Rid)
    requires r in s.recs
  {
    var c := s.recs[r];
    || (s.loop.Fin? && s.loop.rid == r)
    || (c.status.Pending? && (
        || (!c.queued && (c.key in s.posted || exists t :: t in s.threads && s.threads[t] == Owner(r)))
        || (r in s.queue && (SomeServing(s) || Crashing(s.loop) || InDrain(s.loop) || s.phase.Stopping?))
        || (exists w :: w in s.workers && s.workers[w] == Running(r))))
  }

  /** No stranded intent at any moment of any run. */
  lemma NeverStranded(n: nat, queueSize: nat, finishedMax: nat, steps: seq<Step>, k: Key)
    requires n > 0 && Valid(Init(n, queueSize, finishedMax), steps)
    requires k in Final(Init(n, queueSize, finishedMax), steps).records
    ensures var s := Final(Init(n, queueSize, finishedMax), steps);
      s.records[k] in s.recs && s.recs[s.records[k]].key == k && Attending(s, s.records[k])
  {
    InitInv(n, queueSize, finishedMax);
    RunKeepsInv(Init(n, queueSize, finishedMax), steps);
    var s := Final(Init(n, queueSize, finishedMax), steps);
    assert RecOk(s, s.records[k]);
  }

  /** While intents are accepted some consumer waits for work or runs one, however errors and successes alternate. */
  lemma AcceptingHasConsumer(n: nat, queueSize: nat, finishedMax: nat, steps: seq<Step>)
    requires n > 0 && Valid(Init(n, queueSize, finishedMax), steps)
    requires var s := Final(Init(n, queueSize, finishedMax), steps); s.loop.Idle? && s.accepting
    ensures var s := Final(Init(n, queueSize, finishedMax), steps);
      exists c :: c in s.workers && (s.workers[c].Waiting? || s.workers[c].Running?)
  {
    InitInv(n, queueSize, finishedMax);
    RunKeepsInv(Init(n, queueSize, finishedMax), steps);
    var s := Final(Init(n, queueSize, finishedMax), steps);
    var c :| Serving(s, c);
  }

  /** A callback that `_admit` runs settles its record: it waits in the queue, is being run, or is on its way to a
   failure receipt. */
  lemma AdmitSettles(s: State)
    requires Inv(s) && Enabled(s, Admit) && s.posted[0] in s.records
    ensures var r := s.records[s.posted[0]]; var s1 := Next(s, Admit);
      && r in s1.recs
      && (|| (r in s1.queue && s1.recs[r].queued)
          || (exists w :: w in s1.workers && s1.workers[w] == Running(r))
          || (s1.loop.Fin? && s1.loop.rid == r && s1.loop.status.Failed?))
  {
    assert RecOk(s, s.records[s.posted[0]]);
  }

  // ---------------------------------------------------------------- observers

  /** A terminal status never changes, whatever happens later. */
  lemma StepKeepsTerminal(s: State, step: Step, r: Rid)
    requires Inv(s) && Enabled(s, step) && r in s.recs && !s.recs[r].status.Pending?
    ensures r in Next(s, step).recs && Next(s, step).recs[r].status == s.recs[r].status
    ensures Next(s, step).recs[r].key == s.recs[r].key
  {
    if step.Check? || step.Insert? || step.Schedule? { ThreadFrame(s, step); }
    else if !step.Tick? { LoopFrame(s, step); }
    else if !s.loop.Fin? { QuietTickFrame(s); }
    else { FinishKeepsTerminal(s, r); }
  }

  lemma FinishKeepsTerminal(s: State, r: Rid)
    requires Inv(s) && s.loop.Fin? && r in s.recs && !s.recs[r].status.Pending?
    ensures r in FinishTick(s).recs && FinishTick(s).recs[r].status == s.recs[r].status
    ensures FinishTick(s).recs[r].key == s.recs[r].key
  {
    assert RecOk(s, s.loop.rid);
    if s.loop.stage.Removing? { RemovingDicts(s); } else { EarlierDicts(s); }
  }

  lemma {:induction false} TerminalIsFinal(s: State, steps: seq<Step>, r: Rid)
    requires Inv(s) && Valid(s, steps) && r in s.recs && !s.recs[r].status.Pending?
    ensures r in Final(s, steps).recs && Final(s, steps).recs[r].status == s.recs[r].status
    decreases |steps|
  {
    if steps != [] {
      StepKeepsTerminal(s, steps[0], r);
      StepKeepsInv(s, steps[0]);
      TerminalIsFinal(Next(s, steps[0]), steps[1..], r);
    }
  }

  /** The step drops the oldest receipt, that of `k`, because the ring is over its bound. */
  predicate Evicts(s: State, step: Step, k: Key) {
    && step.Tick? && s.loop.Fin? && s.loop.stage.Evicting?
    && |s.finished| > s.finishedMax && s.finished != [] && s.finished[0].key == k
  }

  ghost predicate EvictedDuring(s: State, steps: seq<Step>, k: Key)
    requires Valid(s, steps)
    decreases |steps|
  {
    steps != [] && (Evicts(s, steps[0], k) || EvictedDuring(Next(s, steps[0]), steps[1..], k))
  }

  /** Outside `_finish` the ring is not touched. */
  lemma LoopLeavesRing(s: State, step: Step)
    requires Heap(s) && Enabled(s, step) && !(step.Tick? && s.loop.Fin?)
    ensures Next(s, step).finished == s.finished
  {
    if step.Check? || step.Insert? || step.Schedule? {
      ThreadFrame(s, step);
    } else if step.Tick? {
      QuietTickFrame(s);
    } else {
      LoopFrame(s, step);
    }
  }

  lemma FinishLeavesRing(s: State)
    requires s.loop.Fin? && s.loop.rid in s.recs && !s.loop.stage.Writing? && !s.loop.stage.Evicting?
    ensures FinishTick(s).finished == s.finished
  {
    var s1 := Move(s, s.loop.rid, Over);
    ContinueFrame(s1, s.loop.after);
    ContinueFrame(s1.(records := s.records - {s.recs[s.loop.rid].key}), s.loop.after);
  }

  lemma EvictLosesOldest(s: State, k: Key)
    requires s.loop.Fin? && s.loop.rid in s.recs && s.loop.stage.Evicting? && HasReceipt(s.finished, k)
    requires !Evicts(s, Tick, k)
    ensures HasReceipt(FinishTick(s).finished, k)
  {
    var i :| 0 <= i < |s.finished| && s.finished[i].key == k;
    if |s.finished| > s.finishedMax {
      assert s.finished[1..][i - 1].key == k;
    }
  }

  lemma FinishLosesOldest(s: State, k: Key)
    requires Inv(s) && s.loop.Fin? && s.loop.rid in s.recs && HasReceipt(s.finished, k) && !Evicts(s, Tick, k)
    ensures HasReceipt(FinishTick(s).finished, k)
  {
    if s.loop.stage.Writing? {
      PutKeeps(s.finished, Receipt(s.recs[s.loop.rid].key, s.loop.status, s.loop.rid));
    } else if s.loop.stage.Evicting? {
      EvictLosesOldest(s, k);
    } else {
      FinishLeavesRing(s);
    }
  }

  /** No step but the overflow of the ring ever loses a receipt. */
  lemma OnlyOverflowLoses(s: State, step: Step, k: Key)
    requires Inv(s) && Enabled(s, step) && HasReceipt(s.finished, k) && !Evicts(s, step, k)
    ensures HasReceipt(Next(s, step).finished, k)
  {
    if step.Tick? && s.loop.Fin? {
      FinishLosesOldest(s, k);
    } else {
      LoopLeavesRing(s, step);
    }
  }

  lemma {:induction false} ReceiptStays(s: State, steps: seq<Step>, k: Key)
    requires Inv(s) && Valid(s, steps) && HasReceipt(s.finished, k) && !EvictedDuring(s, steps, k)
    ensures HasReceipt(Final(s, steps).finished, k)
    decreases |steps|
  {
    if steps != [] {
      OnlyOverflowLoses(s, steps[0], k);
      StepKeepsInv(s, steps[0]);
      ReceiptStays(Next(s, steps[0]), steps[1..], k);
    }
  }

  /**
   Observer consistency. `intent_status` looks in the table at one moment and in the ring at a later one. If it finds
   nothing in either, the ring had overflowed and dropped the receipt of that key before, or it did in between.
   */
  lemma UnknownOnlyIfEvicted(s: State, steps: seq<Step>, r: Rid)
    requires Inv(s) && Valid(s, steps) && r in s.recs
    requires s.recs[r].key !in s.records && !HasReceipt(Final(s, steps).finished, s.recs[r].key)
    ensures s.recs[r].key in s.evicted || EvictedDuring(s, steps, s.recs[r].key)
  {
    var k := s.recs[r].key;
    if k !in s.evicted && !EvictedDuring(s, steps, k) { ReceiptStays(s, steps, k); }
  }

  /** Between callbacks the ring is within its bound, and every receipt states its generation's terminal status. */
  lemma RingBounded(s: State, i: nat)
    requires Inv(s) && s.loop.Idle? && i < |s.finished|
    ensures |s.finished| <= s.finishedMax
    ensures s.finished[i].rid in s.recs && s.recs[s.finished[i].rid].status == s.finished[i].status
    ensures !s.finished[i].status.Pending?
  { }
}
