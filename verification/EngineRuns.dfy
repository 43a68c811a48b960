/** What every interleaving of submitters, consumers, shutdown and the event loop keeps. */
module EngineRuns {
  import opened Base
  import opened Engine

  // ---------------------------------------------------------------- records

  /** One record agrees with its place. */
  ghost predicate RecOk(s: State, r: Rid)
    requires r in s.recs
  {
    var c := s.recs[r];
    match c.place
    case Inserted(t) =>
      !c.queued && c.status.Pending? && Owns(s, r) && t in s.threads && s.threads[t] == Owner(r)
    case Posted => !c.queued && c.status.Pending? && Owns(s, r) && c.key in s.posted
    case Queued => c.queued && c.status.Pending? && Owns(s, r) && r in s.queue
    case Held(w) => c.queued && c.status.Pending? && Owns(s, r) && w in s.workers && s.workers[w] == Running(r)
    case Ending =>
      && s.loop.Fin? && s.loop.rid == r && Owns(s, r)
      && c.status == if s.loop.stage in {Checking, Marking} then Pending else s.loop.status
    case Over => !Owns(s, r) && !c.status.Pending?
  }

  ghost predicate AllRecs(s: State) {
    forall r :: r in s.recs ==> r < s.nextRid && RecOk(s, r)
  }

  function Todo(l: Loop): seq<Rid> {
    match l
    case Sweeping(todo) => todo
    case Fin(_, _, _, SweepMore(todo)) => todo
    case _ => []
  }

  /** The consumer on whose behalf the loop is finishing or draining. */
  function LoopConsumer(l: Loop): Option<nat> {
    match l
    case Fin(_, _, _, Settle(c, _)) => Some(c)
    case Fin(_, _, _, DrainMore(dying)) => dying
    case Draining(dying) => dying
    case _ => None
  }

  /** Everything that names a record names it in its place. */
  ghost predicate Links(s: State) {
    && (forall k :: k in s.records ==> s.records[k] in s.recs && s.recs[s.records[k]].key == k)
    && (forall r :: r in s.queue ==> r in s.recs && s.recs[r].place == Queued)
    && (forall c :: c in s.workers && s.workers[c].Running? ==>
          s.workers[c].rid in s.recs && s.recs[s.workers[c].rid].place == Held(c))
    && (forall t :: t in s.threads && s.threads[t].Owner? ==> s.threads[t].rid in s.recs)
    && (s.loop.Fin? ==> s.loop.rid in s.recs && s.recs[s.loop.rid].place == Ending && !s.loop.status.Pending?)
    && (forall r :: r in Todo(s.loop) ==> r in s.recs)
    && (LoopConsumer(s.loop).Some? ==>
          LoopConsumer(s.loop).value in s.workers && s.workers[LoopConsumer(s.loop).value].Settling?)
  }

  ghost predicate NoDup(q: seq<Rid>) {
    forall i, j :: 0 <= i < j < |q| ==> q[i] != q[j]
  }

  ghost predicate Heap(s: State) { AllRecs(s) && Links(s) && NoDup(s.queue) }

  // ---------------------------------------------------------------- one record in hand

  /** The invariant while the event loop holds the pending record `r`, which is in no other place. */
  ghost predicate InHand(s: State, r: Rid) {
    && (forall q :: q in s.recs ==> q < s.nextRid && (q != r ==> RecOk(s, q)))
    && Links(s) && NoDup(s.queue)
    && r in s.recs && Owns(s, r) && s.recs[r].status.Pending?
    && r !in s.queue && !s.loop.Fin?
    && (forall c :: c in s.workers ==> s.workers[c] != Running(r))
  }

  lemma StartFinishKeepsHeap(s: State, r: Rid, status: Status, after: After)
    requires InHand(s, r) && !status.Pending?
    requires forall q :: q in Todo(Fin(r, status, Checking, after)) ==> q in s.recs
    requires var c := LoopConsumer(Fin(r, status, Checking, after));
      c.Some? ==> c.value in s.workers && s.workers[c.value].Settling?
    ensures Heap(StartFinish(s, r, status, after))
  {
    var s1 := StartFinish(s, r, status, after);
    forall q | q in s1.recs ensures q < s1.nextRid && RecOk(s1, q) {
      if q != r { assert RecOk(s, q); }
    }
  }

  lemma EnqueueKeepsHeap(s: State, r: Rid)
    requires InHand(s, r)
    ensures Heap(Move(s.(recs := s.recs[r := s.recs[r].(queued := true)]), r, Queued).(queue := s.queue + [r]))
  {
    var s1 := Move(s.(recs := s.recs[r := s.recs[r].(queued := true)]), r, Queued).(queue := s.queue + [r]);
    forall q | q in s1.recs ensures q < s1.nextRid && RecOk(s1, q) {
      if q != r { LongerQueueKeepsRec(s, r, s1.recs[r], q); }
    }
    EnqueueKeepsLinks(s, r);
  }

  lemma EnqueueKeepsLinks(s: State, r: Rid)
    requires Links(s) && NoDup(s.queue) && r in s.recs && r !in s.queue && !s.loop.Fin?
    requires forall c :: c in s.workers ==> s.workers[c] != Running(r)
    ensures var s1 := Move(s.(recs := s.recs[r := s.recs[r].(queued := true)]), r, Queued).(queue := s.queue + [r]);
      Links(s1) && NoDup(s1.queue)
  { }

  lemma LongerQueueKeepsRec(s: State, r: Rid, c: Rec, q: Rid)
    requires r in s.recs && q in s.recs && q != r && RecOk(s, q) && c.key == s.recs[r].key
    ensures RecOk(s.(recs := s.recs[r := c], queue := s.queue + [r]), q)
  { }

  lemma FlagKeepsInHand(s: State, r: Rid)
    requires InHand(s, r)
    ensures InHand(s.(recs := s.recs[r := s.recs[r].(queued := true)]), r)
  {
    var s1 := s.(recs := s.recs[r := s.recs[r].(queued := true)]);
    forall q | q in s1.recs && q != r ensures RecOk(s1, q) { OtherRecStays(s, r, s1.recs[r], q); }
    FlagKeepsLinks(s, r);
  }

  /** A change to the record in hand is no change to another record. */
  lemma OtherRecStays(s: State, r: Rid, c: Rec, q: Rid)
    requires r in s.recs && q in s.recs && q != r && RecOk(s, q) && c.key == s.recs[r].key
    ensures RecOk(s.(recs := s.recs[r := c]), q)
  { }

  lemma FlagKeepsLinks(s: State, r: Rid)
    requires Links(s) && r in s.recs
    ensures Links(s.(recs := s.recs[r := s.recs[r].(queued := true)]))
  { }

  /** `_admit` on the record in the slot. */
  lemma AdmitRecordKeepsHeap(s: State, r: Rid)
    requires InHand(s, r) && s.loop.Idle? && !s.recs[r].queued
    ensures Heap(AdmitRecord(s, r))
  {
    if !s.accepting {
      StartFinishKeepsHeap(s, r, Failed, Back);
    } else if QueueFull(s) {
      FlagKeepsInHand(s, r);
      StartFinishKeepsHeap(s.(recs := s.recs[r := s.recs[r].(queued := true)]), r, Failed, Back);
    } else {
      EnqueueKeepsHeap(s, r);
    }
  }

  // ---------------------------------------------------------------- threads

  lemma CheckKeepsHeap(s: State, t: nat, k: Key)
    requires Heap(s) && Enabled(s, Check(t, k))
    ensures Heap(Next(s, Check(t, k)))
  {
    var s1 := Next(s, Check(t, k));
    forall r | r in s1.recs ensures RecOk(s1, r) { assert RecOk(s, r); }
  }

  lemma InsertKeepsRecs(s: State, t: nat)
    requires Heap(s) && Enabled(s, Insert(t)) && s.threads[t].key !in s.records
    ensures AllRecs(InsertOne(s, t))
  {
    var s1 := InsertOne(s, t);
    assert s.nextRid !in s.recs;
    forall r | r in s1.recs ensures r < s1.nextRid && RecOk(s1, r) {
      if r in s.recs { assert RecOk(s, r); }
    }
  }

  lemma InsertKeepsLinks(s: State, t: nat)
    requires Heap(s) && Enabled(s, Insert(t)) && s.threads[t].key !in s.records
    ensures Links(InsertOne(s, t))
  {
    assert s.nextRid !in s.recs;
  }

  /** A thread that leaves without owning a record. */
  lemma LeaveKeepsHeap(s: State, t: nat)
    requires Heap(s) && t in s.threads && s.threads[t].Checked?
    ensures Heap(s.(threads := s.threads - {t}))
  {
    var s1 := s.(threads := s.threads - {t});
    assert AllRecs(s1) by { forall r | r in s1.recs ensures RecOk(s1, r) { assert RecOk(s, r); } }
  }

  lemma InsertKeepsHeap(s: State, t: nat)
    requires Heap(s) && Enabled(s, Insert(t))
    ensures Heap(InsertOne(s, t))
  {
    if s.threads[t].key in s.records {
      LeaveKeepsHeap(s, t);
    } else {
      InsertKeepsRecs(s, t);
      InsertKeepsLinks(s, t);
    }
  }

  lemma ScheduleKeepsRec(s: State, t: nat, r: Rid)
    requires Enabled(s, Schedule(t)) && r in s.recs && RecOk(s, r)
    ensures RecOk(ScheduleOne(s, t), r)
  {
    var s1, k := ScheduleOne(s, t), s.recs[s.threads[t].rid].key;
    assert s1.posted == s.posted + [k] && k in s1.posted;
    assert forall x :: x in s.posted ==> x in s1.posted;
  }

  lemma ScheduleKeepsRecs(s: State, t: nat)
    requires AllRecs(s) && Enabled(s, Schedule(t))
    ensures AllRecs(ScheduleOne(s, t))
  {
    var s1 := ScheduleOne(s, t);
    forall r | r in s1.recs ensures r < s1.nextRid && RecOk(s1, r) { ScheduleKeepsRec(s, t, r); }
  }

  lemma ScheduleKeepsLinks(s: State, t: nat)
    requires Heap(s) && Enabled(s, Schedule(t))
    ensures Links(ScheduleOne(s, t))
  { }

  lemma ScheduleKeepsHeap(s: State, t: nat)
    requires Heap(s) && Enabled(s, Schedule(t))
    ensures Heap(ScheduleOne(s, t))
  {
    ScheduleKeepsRecs(s, t);
    ScheduleKeepsLinks(s, t);
  }

  // ---------------------------------------------------------------- the event loop

  /** After popping a callback for `k`, only the record in slot `k` can have lost its callback. */
  lemma PopPosted(s: State, r: Rid)
    requires AllRecs(s) && s.posted != [] && r in s.recs && !(Owns(s, r) && s.recs[r].key == s.posted[0])
    ensures RecOk(s.(posted := s.posted[1..]), r)
  {
    assert RecOk(s, r);
  }

  lemma PoppedLinks(s: State)
    requires Links(s) && s.posted != []
    ensures Links(s.(posted := s.posted[1..]))
  { }

  lemma PoppedInHand(s: State, r: Rid)
    requires Heap(s) && s.loop.Idle? && s.posted != [] && s.posted[0] in s.records && s.records[s.posted[0]] == r
    requires !s.recs[r].queued && s.recs[r].status.Pending?
    ensures InHand(s.(posted := s.posted[1..]), r)
  {
    var s1 := s.(posted := s.posted[1..]);
    PoppedLinks(s);
    assert RecOk(s, r);
    forall q | q in s.recs && q != r ensures RecOk(s1, q) { PopPosted(s, q); }
  }

  lemma PoppedHeap(s: State)
    requires Heap(s) && s.posted != []
    requires forall r :: r in s.recs && Owns(s, r) && s.recs[r].key == s.posted[0] ==> s.recs[r].place != Posted
    ensures Heap(s.(posted := s.posted[1..]))
  {
    var s1 := s.(posted := s.posted[1..]);
    PoppedLinks(s);
    assert AllRecs(s1) by {
      forall q | q in s.recs ensures RecOk(s1, q) {
        if Owns(s, q) && s.recs[q].key == s.posted[0] { assert RecOk(s, q); } else { PopPosted(s, q); }
      }
    }
  }

  lemma LoopKeepsHeap(s: State, l: Loop)
    requires Heap(s) && !s.loop.Fin? && !l.Fin? && (forall r :: r in Todo(l) ==> r in s.recs)
    requires LoopConsumer(l).None? || LoopConsumer(l) == LoopConsumer(s.loop)
    ensures Heap(s.(loop := l))
  {
    var s1 := s.(loop := l);
    assert AllRecs(s1) by { forall q | q in s.recs ensures RecOk(s1, q) { assert RecOk(s, q); } }
  }

  lemma AdmitKeepsHeap(s: State)
    requires Heap(s) && Enabled(s, Admit)
    ensures Heap(AdmitOne(s))
  {
    var k := s.posted[0];
    if k in s.records {
      var r := s.records[k];
      assert RecOk(s, r);
      if s.recs[r].queued || !s.recs[r].status.Pending? {
        PoppedHeap(s);
      } else {
        PoppedInHand(s, r);
        AdmitRecordKeepsHeap(s.(posted := s.posted[1..]), r);
      }
    } else {
      PoppedHeap(s);
      LoopKeepsHeap(s.(posted := s.posted[1..]), Creating(k));
    }
  }

  lemma CreatedInHand(s: State, k: Key)
    requires Heap(s) && s.loop.Idle? && k !in s.records
    ensures InHand(Create(s, k, Posted), s.nextRid)
  {
    var s1 := Create(s, k, Posted);
    assert s.nextRid !in s.recs;
    forall q | q in s1.recs && q != s.nextRid ensures RecOk(s1, q) { CreateKeepsRec(s, k, q); }
  }

  lemma CreateKeepsRec(s: State, k: Key, q: Rid)
    requires q in s.recs && RecOk(s, q) && s.nextRid !in s.recs && k !in s.records
    ensures RecOk(Create(s, k, Posted), q)
  { }

  lemma CreateKeepsHeap(s: State, k: Key)
    requires Heap(s) && s.loop == Creating(k)
    ensures Heap(CreateOne(s, k))
  {
    LoopKeepsHeap(s, Idle);
    if k !in s.records {
      CreatedInHand(s.(loop := Idle), k);
      assert Create(s.(loop := Idle), k, Posted) == Create(s, k, Posted).(loop := Idle);
      AdmitRecordKeepsHeap(Create(s, k, Posted).(loop := Idle), s.nextRid);
    }
  }

  lemma GetKeepsHeap(s: State, c: nat)
    requires Heap(s) && Enabled(s, Get(c))
    ensures Heap(Next(s, Get(c)))
  {
    GetKeepsRecs(s, c);
    GetKeepsLinks(s, c);
  }

  lemma GetKeepsRecs(s: State, c: nat)
    requires Heap(s) && Enabled(s, Get(c))
    ensures AllRecs(Next(s, Get(c)))
  {
    var s1 := Next(s, Get(c));
    assert s.queue[0] in s.queue;
    forall r | r in s1.recs ensures r < s1.nextRid && RecOk(s1, r) {
      assert RecOk(s, r);
      assert r in s.queue && r != s.queue[0] ==> r in s.queue[1..];
    }
  }

  lemma GetKeepsLinks(s: State, c: nat)
    requires Heap(s) && Enabled(s, Get(c))
    ensures Links(Next(s, Get(c)))
  {
    assert s.queue[0] in s.queue;
    forall r | r in s.queue[1..] ensures r in s.queue && r != s.queue[0] { }
  }

  lemma ReturnedInHand(s: State, c: nat)
    requires Heap(s) && s.loop.Idle? && c in s.workers && s.workers[c].Running?
    ensures s.workers[c].rid in s.recs && InHand(s.(workers := s.workers[c := Settling]), s.workers[c].rid)
  {
    var s1, r := s.(workers := s.workers[c := Settling]), s.workers[c].rid;
    assert RecOk(s, r);
    forall q | q in s1.recs && q != r ensures RecOk(s1, q) { assert RecOk(s, q); }
  }

  lemma ReturnKeepsHeap(s: State, c: nat, o: Outcome)
    requires Heap(s) && Enabled(s, Return(c, o))
    ensures Heap(Next(s, Return(c, o)))
  {
    ReturnedInHand(s, c);
    StartFinishKeepsHeap(s.(workers := s.workers[c := Settling]), s.workers[c].rid, StatusOf(o), Settle(c, o));
  }

  lemma WorkerKeepsHeap(s: State, c: nat, w: Worker)
    requires Heap(s) && c in s.workers && !s.workers[c].Running? && !w.Running?
    requires LoopConsumer(s.loop) == Some(c) ==> w.Settling?
    ensures Heap(s.(workers := s.workers[c := w]))
  {
    var s1 := s.(workers := s.workers[c := w]);
    assert AllRecs(s1) by { forall q | q in s.recs ensures RecOk(s1, q) { assert RecOk(s, q); } }
  }

  lemma FlagsKeepHeap(s: State, s1: State)
    requires Heap(s)
    requires s1 == s.(finished := s1.finished, evicted := s1.evicted, accepting := s1.accepting,
                      errors := s1.errors, cleared := s1.cleared, phase := s1.phase)
    ensures Heap(s1)
  {
    assert AllRecs(s1) by { forall q | q in s.recs ensures RecOk(s1, q) { assert RecOk(s, q); } }
  }

  // ---------------------------------------------------------------- _finish, draining, sweeping

  lemma StageKeepsHeap(s: State, stage: Stage)
    requires Heap(s) && s.loop.Fin?
    requires stage in {Checking, Marking} <==> s.loop.stage in {Checking, Marking}
    ensures Heap(s.(loop := s.loop.(stage := stage)))
  {
    var s1 := s.(loop := s.loop.(stage := stage));
    assert AllRecs(s1) by { forall q | q in s.recs ensures RecOk(s1, q) { assert RecOk(s, q); } }
  }

  lemma MarkKeepsHeap(s: State)
    requires Heap(s) && s.loop.Fin? && s.loop.stage.Marking?
    ensures Heap(FinishTick(s))
  {
    var s1 := FinishTick(s);
    assert AllRecs(s1) by {
      forall q | q in s.recs ensures q < s1.nextRid && RecOk(s1, q) { MarkKeepsRec(s, q); }
    }
  }

  lemma MarkKeepsRec(s: State, q: Rid)
    requires s.loop.Fin? && s.loop.stage.Marking? && s.loop.rid in s.recs && q in s.recs && RecOk(s, q)
    requires s.recs[s.loop.rid].place == Ending
    ensures q in FinishTick(s).recs && RecOk(FinishTick(s), q)
  { }

  /** The slot is emptied by its owner, so no newer generation can be in it. */
  lemma RemoveKeepsRecs(s: State, l: Loop)
    requires Heap(s) && s.loop.Fin? && s.loop.stage.Removing? && !l.Fin?
    ensures var r := s.loop.rid;
      s.records[s.recs[r].key] == r &&
      AllRecs(Move(s, r, Over).(records := s.records - {s.recs[r].key}, loop := l))
  {
    var r := s.loop.rid;
    assert RecOk(s, r);
    var s1 := Move(s, r, Over).(records := s.records - {s.recs[r].key}, loop := l);
    forall q | q in s1.recs ensures q < s1.nextRid && RecOk(s1, q) { assert RecOk(s, q); }
  }

  lemma RemoveKeepsLinks(s: State, l: Loop)
    requires Heap(s) && s.loop.Fin? && s.loop.stage.Removing? && !l.Fin?
    requires forall r :: r in Todo(l) ==> r in s.recs
    requires LoopConsumer(l).None? || LoopConsumer(l) == LoopConsumer(s.loop)
    ensures var r := s.loop.rid; Links(Move(s, r, Over).(records := s.records - {s.recs[r].key}, loop := l))
  {
    assert RecOk(s, s.loop.rid);
  }

  lemma RemoveKeepsHeap(s: State, l: Loop)
    requires Heap(s) && s.loop.Fin? && s.loop.stage.Removing? && !l.Fin?
    requires forall r :: r in Todo(l) ==> r in s.recs
    requires LoopConsumer(l).None? || LoopConsumer(l) == LoopConsumer(s.loop)
    ensures var r := s.loop.rid; Heap(Move(s, r, Over).(records := s.records - {s.recs[r].key}, loop := l))
  {
    RemoveKeepsRecs(s, l);
    RemoveKeepsLinks(s, l);
  }

  lemma SettleKeepsHeap(s: State, c: nat, o: Outcome)
    requires Heap(s.(loop := Idle)) && Heap(s.(loop := Draining(Some(c)))) && c in s.workers && s.workers[c].Settling?
    ensures Heap(SettleOne(s, c, o))
  {
    var idle, draining := s.(loop := Idle), s.(loop := Draining(Some(c)));
    WorkerKeepsHeap(idle, c, Waiting);
    WorkerKeepsHeap(idle, c, Dead);
    match o
    case Succeeded => FlagsKeepHeap(idle.(workers := s.workers[c := Waiting]), SettleOne(s, c, o));
    case FailedIntent => FlagsKeepHeap(idle.(workers := s.workers[c := Waiting]), SettleOne(s, c, o));
    case WasCancelled =>
    case ProgError =>
      if s.errors + 1 >= 3 || OthersDone(s, c) {
        FlagsKeepHeap(draining, SettleOne(s, c, o));
      } else {
        FlagsKeepHeap(idle.(workers := s.workers[c := Dead]), SettleOne(s, c, o));
      }
  }

  lemma RemoveThenSettle(s: State, c: nat, o: Outcome)
    requires Heap(s) && s.loop.Fin? && s.loop.stage.Removing? && s.loop.after == Settle(c, o)
    ensures var r := s.loop.rid; Heap(SettleOne(Move(s, r, Over).(records := s.records - {s.recs[r].key}), c, o))
  {
    RemoveKeepsHeap(s, Idle);
    RemoveKeepsHeap(s, Draining(Some(c)));
    var r := s.loop.rid;
    SettleKeepsHeap(Move(s, r, Over).(records := s.records - {s.recs[r].key}), c, o);
  }

  lemma RemoveThenLoop(s: State)
    requires Heap(s) && s.loop.Fin? && s.loop.stage.Removing? && !s.loop.after.Settle?
    ensures var r := s.loop.rid;
      Heap(Continue(Move(s, r, Over).(records := s.records - {s.recs[r].key}), s.loop.after))
  {
    match s.loop.after {
      case Back => RemoveKeepsHeap(s, Idle);
      case DrainMore(dying) => RemoveKeepsHeap(s, Draining(dying));
      case SweepMore(todo) => RemoveKeepsHeap(s, Sweeping(todo));
      case Settle(_, _) =>
    }
  }

  lemma FinishRemoveKeepsHeap(s: State)
    requires Heap(s) && s.loop.Fin? && s.loop.stage.Removing?
    ensures Heap(FinishTick(s))
  {
    var s1 := Move(s, s.loop.rid, Over).(records := s.records - {s.recs[s.loop.rid].key});
    assert FinishTick(s) == Continue(s1, s.loop.after);
    if s.loop.after.Settle? {
      RemoveThenSettle(s, s.loop.after.consumer, s.loop.after.outcome);
    } else {
      RemoveThenLoop(s);
    }
  }

  lemma FinishKeepsHeap(s: State)
    requires Heap(s) && s.loop.Fin?
    ensures Heap(FinishTick(s))
  {
    assert RecOk(s, s.loop.rid);
    match s.loop.stage {
      case Checking => StageKeepsHeap(s, Marking);
      case Marking => MarkKeepsHeap(s);
      case Writing =>
        StageKeepsHeap(s, Evicting);
        FlagsKeepHeap(s.(loop := s.loop.(stage := Evicting)), FinishTick(s));
      case Evicting =>
        if |s.finished| > s.finishedMax && s.finished != [] { FlagsKeepHeap(s, FinishTick(s)); }
        else { StageKeepsHeap(s, Removing); }
      case Removing => FinishRemoveKeepsHeap(s);
    }
  }

  lemma DequeuedInHand(s: State)
    requires Heap(s) && !s.loop.Fin? && s.queue != []
    ensures s.queue[0] in s.recs && InHand(s.(queue := s.queue[1..]), s.queue[0])
  {
    var s1, r := s.(queue := s.queue[1..]), s.queue[0];
    assert r in s.queue;
    assert RecOk(s, r);
    forall q | q in s1.recs && q != r ensures RecOk(s1, q) {
      assert RecOk(s, q);
      assert q in s.queue ==> q in s.queue[1..];
    }
  }

  lemma DrainKeepsHeap(s: State, dying: Option<nat>)
    requires Heap(s) && s.loop == Draining(dying) && Enabled(s, Tick)
    ensures Heap(DrainTick(s, dying))
  {
    if s.queue != [] {
      DequeuedInHand(s);
      StartFinishKeepsHeap(s.(queue := s.queue[1..]), s.queue[0], Failed, DrainMore(dying));
    } else {
      LoopKeepsHeap(s, Idle);
      WorkerKeepsHeap(s.(loop := Idle), dying.value, Dead);
    }
  }

  lemma SweptInHand(s: State, r: Rid)
    requires Heap(s) && !s.loop.Fin? && r in s.recs && s.recs[r].status.Pending? && !s.recs[r].queued
    ensures InHand(s, r)
  {
    assert RecOk(s, r);
  }

  lemma SweepKeepsHeap(s: State, todo: seq<Rid>)
    requires Heap(s) && s.loop == Sweeping(todo)
    ensures todo != [] ==> todo[0] in s.recs
    ensures Heap(SweepTick(s, todo))
  {
    assert forall r :: r in Todo(s.loop) ==> r in s.recs;
    if todo == [] {
      LoopKeepsHeap(s, Idle);
      FlagsKeepHeap(s.(loop := Idle), SweepTick(s, todo));
    } else {
      assert todo[0] in todo;
      if s.recs[todo[0]].status.Pending? && !s.recs[todo[0]].queued {
        SweptInHand(s, todo[0]);
        StartFinishKeepsHeap(s, todo[0], Failed, SweepMore(todo[1..]));
      } else {
        LoopKeepsHeap(s, Sweeping(todo[1..]));
      }
    }
  }

  lemma TickKeepsHeap(s: State)
    requires Heap(s) && Enabled(s, Tick)
    ensures Heap(Next(s, Tick))
  {
    match s.loop {
      case Creating(k) => CreateKeepsHeap(s, k);
      case Fin(_, _, _, _) => FinishKeepsHeap(s);
      case Draining(d) => DrainKeepsHeap(s, d);
      case Sweeping(todo) => SweepKeepsHeap(s, todo);
    }
  }

  lemma ShutdownKeepsHeap(s: State, step: Step)
    requires Heap(s) && Enabled(s, step) && (step.BeginShutdown? || step.JoinShutdown? || step.BeginSweep?)
    ensures Heap(Next(s, step))
  {
    match step {
      case BeginShutdown => FlagsKeepHeap(s, Next(s, step));
      case JoinShutdown =>
        LoopKeepsHeap(s, Draining(None));
        FlagsKeepHeap(s.(loop := Draining(None)), Next(s, step));
      case BeginSweep(todo) =>
        forall r | r in todo ensures r in s.recs {
          var k :| k in s.records && s.records[k] == r;
        }
        LoopKeepsHeap(s, Sweeping(todo));
    }
  }

  lemma StepKeepsHeap(s: State, step: Step)
    requires Heap(s) && Enabled(s, step)
    ensures Heap(Next(s, step))
  {
    match step {
      case Check(t, k) => CheckKeepsHeap(s, t, k);
      case Insert(t) => InsertKeepsHeap(s, t);
      case Schedule(t) => ScheduleKeepsHeap(s, t);
      case Admit => AdmitKeepsHeap(s);
      case Get(c) => GetKeepsHeap(s, c);
      case Return(c, o) => ReturnKeepsHeap(s, c, o);
      case CancelIdle(c) => WorkerKeepsHeap(s, c, Dead);
      case BeginShutdown => ShutdownKeepsHeap(s, step);
      case JoinShutdown => ShutdownKeepsHeap(s, step);
      case BeginSweep(_) => ShutdownKeepsHeap(s, step);
      case Tick => TickKeepsHeap(s);
    }
  }
}
