/**
 `TaskEngine` of kvcm/kvcm/task_engine.py as a class: the dictionary work of `submit_intent`, `_admit`, `_finish`,
 `_fail_never_started` and `intent_status` when no other thread runs in between, and the proof that the small loop
 steps of `_finish` in module `Engine` add up to it.
 */
module TaskEngines {
  import opened Base
  import opened Engine
  import opened EngineRuns
  import opened EngineTheorems

  /** The dictionaries that `_finish` works on. */
  datatype Dicts = Dicts(records: map<Key, Rid>, recs: map<Rid, Rec>, finished: seq<Receipt>)

  function DictsOf(s: State): Dicts { Dicts(s.records, s.recs, s.finished) }

  /** Drop the oldest receipts until at most `max` are left. */
  function Trim(f: seq<Receipt>, max: nat): seq<Receipt> {
    if |f| > max then f[|f| - max..] else f
  }

  /** All of `_finish`: only the slot's owner, only once; receipt first, slot last. */
  function Finished(d: Dicts, max: nat, r: Rid, status: Status): Dicts
    requires r in d.recs
  {
    var rec := d.recs[r];
    if !(rec.key in d.records && d.records[rec.key] == r) || !rec.status.Pending? then d
    else Dicts(d.records - {rec.key}, d.recs[r := rec.(status := status, place := Over)],
               Trim(Put(d.finished, Receipt(rec.key, status, r)), max))
  }

  /**
   What `_finish` comes to. Only the record that owns its slot and is pending is touched: it gets the status, the newest
   receipt says so, its slot is free, other slots and records are as before. Any other call changes nothing.
   */
  lemma FinishedExactly(d: Dicts, max: nat, r: Rid, status: Status)
    requires r in d.recs && max >= 1
    ensures var k, e := d.recs[r].key, Finished(d, max, r, status);
      if k in d.records && d.records[k] == r && d.recs[r].status.Pending? then
        && e.records == d.records - {k} && r in e.recs && e.recs[r].status == status && e.recs[r].key == k
        && (forall q :: q in d.recs && q != r ==> q in e.recs && e.recs[q] == d.recs[q])
        && e.finished != [] && e.finished[|e.finished| - 1] == Receipt(k, status, r) && |e.finished| <= max
      else e == d
  {
    LastReceipt(d.finished, Receipt(d.recs[r].key, status, r), max);
  }

  function Drained(d: Dicts, max: nat, q: seq<Rid>): Dicts
    requires forall r :: r in q ==> r in d.recs
    decreases |q|
  {
    if q == [] then d else Drained(Finished(d, max, q[0], Failed), max, q[1..])
  }

  // ---------------------------------------------------------------- the small steps add up

  function Ticks(s: State, n: nat): State
    requires s.loop.Fin? && s.loop.rid in s.recs
    decreases n
  {
    if n == 0 then s else
      var s1 := FinishTick(s);
      if s1.loop.Fin? && s1.loop.rid in s1.recs then Ticks(s1, n - 1) else s1
  }

  lemma {:induction false} EvictTicks(s: State) returns (n: nat)
    requires s.loop.Fin? && s.loop.rid in s.recs && s.loop.stage.Evicting? && s.finishedMax >= 1
    ensures Ticks(s, n) ==
      s.(finished := Trim(s.finished, s.finishedMax), evicted := Ticks(s, n).evicted,
         loop := s.loop.(stage := Removing))
    decreases |s.finished|
  {
    if |s.finished| > s.finishedMax {
      var m := EvictTicks(FinishTick(s));
      n := m + 1;
      assert Trim(s.finished[1..], s.finishedMax) == Trim(s.finished, s.finishedMax);
    } else {
      n := 1;
      assert Ticks(FinishTick(s), 0) == FinishTick(s);
    }
  }

  lemma TickFirst(s: State, n: nat)
    requires s.loop.Fin? && s.loop.rid in s.recs
    requires FinishTick(s).loop.Fin? && FinishTick(s).loop.rid in FinishTick(s).recs
    ensures Ticks(s, n + 1) == Ticks(FinishTick(s), n)
  { }

  /** After the first three sections of `_finish`: the status is set and the receipt written. */
  function Receipted(s: State): State
    requires s.loop.Fin? && s.loop.rid in s.recs
  {
    var r, rec := s.loop.rid, s.recs[s.loop.rid].(status := s.loop.status);
    s.(recs := s.recs[r := rec], finished := Put(s.finished, Receipt(rec.key, s.loop.status, r)),
       evicted := s.evicted - {rec.key}, loop := s.loop.(stage := Evicting))
  }

  lemma FirstTicks(s: State, m: nat)
    requires s.loop.Fin? && s.loop.rid in s.recs && s.loop.stage.Checking?
    requires Owns(s, s.loop.rid) && s.recs[s.loop.rid].status.Pending?
    ensures Ticks(s, m + 3) == Ticks(Receipted(s), m)
  {
    CheckingTick(s);
    var s1 := FinishTick(s);
    MarkingTick(s1);
    var s2 := FinishTick(s1);
    WritingTick(s2);
    assert FinishTick(s2) == Receipted(s);
    TickFirst(s, m + 2);
    TickFirst(s1, m + 1);
    TickFirst(s2, m);
  }

  lemma LastTick(s: State)
    requires s.loop.Fin? && s.loop.rid in s.recs && s.loop.stage.Removing?
    ensures DictsOf(FinishTick(s)) ==
      Dicts(s.records - {s.recs[s.loop.rid].key}, Move(s, s.loop.rid, Over).recs, s.finished)
  {
    RemovingDicts(s);
    ContinueFrame(Move(s, s.loop.rid, Over).(records := s.records - {s.recs[s.loop.rid].key}), s.loop.after);
  }

  /** At the last section: the receipts are trimmed. */
  ghost predicate AtLast(s: State, t: State)
    requires s.loop.Fin? && s.loop.rid in s.recs
  {
    t == Receipted(s).(finished := Trim(Receipted(s).finished, s.finishedMax), evicted := t.evicted,
                       loop := s.loop.(stage := Removing))
  }

  lemma ReachesLast(s: State) returns (n: nat)
    requires s.loop.Fin? && s.loop.rid in s.recs && s.loop.stage.Checking? && s.finishedMax >= 1
    requires Owns(s, s.loop.rid) && s.recs[s.loop.rid].status.Pending?
    ensures AtLast(s, Ticks(s, n))
  {
    var m := EvictTicks(Receipted(s));
    FirstTicks(s, m);
    n := m + 3;
  }

  lemma LastSection(s: State, t: State)
    requires s.loop.Fin? && s.loop.rid in s.recs && AtLast(s, t)
    requires Owns(s, s.loop.rid) && s.recs[s.loop.rid].status.Pending?
    ensures t.loop == s.loop.(stage := Removing) && t.loop.rid in t.recs
    ensures DictsOf(FinishTick(t)) == Finished(DictsOf(s), s.finishedMax, s.loop.rid, s.loop.status)
  {
    LastTick(t);
  }

  /** Left alone, the loop steps of one `_finish` reach the last stage, and the last step completes it. */
  lemma FinishRuns(s: State) returns (n: nat)
    requires s.loop.Fin? && s.loop.rid in s.recs && s.loop.stage.Checking? && s.finishedMax >= 1
    requires Owns(s, s.loop.rid) && s.recs[s.loop.rid].status.Pending?
    ensures Ticks(s, n).loop == s.loop.(stage := Removing) && Ticks(s, n).loop.rid in Ticks(s, n).recs
    ensures DictsOf(FinishTick(Ticks(s, n))) == Finished(DictsOf(s), s.finishedMax, s.loop.rid, s.loop.status)
  {
    n := ReachesLast(s);
    LastSection(s, Ticks(s, n));
  }

  /** An admission that is refused ends in a failure receipt for its intent, with the slot free again. */
  lemma RefusedGetsReceipt(s: State) returns (n: nat)
    requires Inv(s) && Enabled(s, Admit) && s.posted[0] in s.records && Next(s, Admit).loop.Fin?
    ensures var s1, r := Next(s, Admit), s.records[s.posted[0]];
      && s1.loop.rid == r && r in s1.recs
      && Ticks(s1, n).loop.Fin? && Ticks(s1, n).loop.rid in Ticks(s1, n).recs
      && var t := FinishTick(Ticks(s1, n));
         && t.finished != [] && t.finished[|t.finished| - 1] == Receipt(s.posted[0], Failed, r)
         && s.posted[0] !in t.records && r in t.recs && t.recs[r].status.Failed?
  {
    var s1, r := Next(s, Admit), s.records[s.posted[0]];
    RefusedStarts(s);
    n := FinishRuns(s1);
    LastReceipt(s1.finished, Receipt(s.posted[0], Failed, r), s1.finishedMax);
  }

  lemma RefusedStarts(s: State)
    requires Inv(s) && Enabled(s, Admit) && s.posted[0] in s.records && Next(s, Admit).loop.Fin?
    ensures var s1, r := Next(s, Admit), s.records[s.posted[0]];
      && s1.loop.rid == r && r in s1.recs && s1.loop.stage.Checking? && s1.loop.status.Failed?
      && Owns(s1, r) && s1.recs[r].status.Pending? && s1.recs[r].key == s.posted[0] && s1.finishedMax >= 1
  {
    assert RecOk(s, s.records[s.posted[0]]);
  }

  lemma LastReceipt(f: seq<Receipt>, r: Receipt, max: nat)
    requires max >= 1
    ensures var g := Trim(Put(f, r), max); g != [] && g[|g| - 1] == r
  { }

  // ---------------------------------------------------------------- the class

  /** What a submission comes to: two refusals, an intent under way, or a new one. */
  datatype Submission = ShuttingDown | NotStarted | Joined | Owed

  class TaskEngine {
    var records: map<Key, Rid>
    var recs: map<Rid, Rec>
    var nextRid: Rid
    var finished: seq<Receipt>
    var finishedMax: nat
    var queue: seq<Rid>
    var queueSize: nat
    var accepting: bool
    var started: bool

    ghost function Value(): Dicts
      reads this
    {
      Dicts(records, recs, finished)
    }

    constructor (queueSize: nat, finishedMax: nat)
      ensures Value() == Dicts(map[], map[], []) && queue == [] && accepting && !started
      ensures this.finishedMax == if finishedMax < 1 then 1 else finishedMax
    {
      records, recs, nextRid, finished, queue, accepting, started := map[], map[], 0, [], [], true, false;
      this.queueSize := queueSize;
      this.finishedMax := if finishedMax < 1 then 1 else finishedMax;
    }

    /** The insertion decides who owns the slot; a loser changes nothing. */
    method SetDefault(k: Key, p: Place) returns (owner: bool)
      modifies this`records, this`recs, this`nextRid
      ensures owner <==> k !in old(records)
      ensures !owner ==> records == old(records) && recs == old(recs) && nextRid == old(nextRid)
      ensures owner ==> records == old(records)[k := old(nextRid)] && nextRid == old(nextRid) + 1
                        && recs == old(recs)[old(nextRid) := Rec(k, Pending, false, p)]
    {
      owner := k !in records;
      if owner {
        records := records[k := nextRid];
        recs := recs[nextRid := Rec(k, Pending, false, p)];
        nextRid := nextRid + 1;
      }
    }

    method Start()
      modifies this`started
      ensures started
    {
      started := true;
    }

    /** `submit_intent` up to the posting of `_admit`; only the owner of a new record owes a callback. */
    method SubmitIntent(k: Key, thread: nat) returns (r: Submission)
      modifies this`records, this`recs, this`nextRid
      ensures r == if !accepting then ShuttingDown else if !started then NotStarted
                   else if k in old(records) then Joined else Owed
      ensures !r.Owed? ==> Value() == old(Value())
      ensures r.Owed? ==> records == old(records)[k := old(nextRid)] && finished == old(finished)
                          && recs == old(recs)[old(nextRid) := Rec(k, Pending, false, Inserted(thread))]
    {
      if !accepting {
        return ShuttingDown;
      }
      if !started {
        return NotStarted;
      }
      var owner := SetDefault(k, Inserted(thread));
      return if owner then Owed else Joined;
    }

    method Finish(r: Rid, status: Status)
      requires r in recs && finishedMax >= 1
      modifies this`records, this`recs, this`finished
      ensures Value() == Finished(old(Value()), finishedMax, r, status)
    {
      var rec := recs[r];
      if rec.key !in records || records[rec.key] != r {
        return;
      }
      if !rec.status.Pending? {
        return;
      }
      recs := recs[r := rec.(status := status, place := Over)];
      finished := Put(finished, Receipt(rec.key, status, r));
      ghost var all := finished;
      while |finished| > finishedMax
        invariant records == old(records) && recs == old(recs)[r := rec.(status := status, place := Over)]
        invariant Trim(finished, finishedMax) == Trim(all, finishedMax)
      {
        assert Trim(finished[1..], finishedMax) == Trim(finished, finishedMax);
        finished := finished[1..];
      }
      records := records - {rec.key};
    }

    /** The record in the slot is queued already, or no longer pending. */
    ghost predicate UnderWay(k: Key)
      requires k in records ==> records[k] in recs
      reads this
    {
      k in records && (recs[records[k]].queued || !recs[records[k]].status.Pending?)
    }

    ghost predicate TableOk()
      reads this
    {
      forall j :: j in records ==> records[j] in recs && recs[records[j]].key == j
    }

    /**
     `_admit` on the event loop: nothing for an intent under way; otherwise the record, created if it is missing, is
     enqueued while there is room and intents are accepted, and else leaves the table with a FAILED receipt.
     */
    method Admit(k: Key)
      requires finishedMax >= 1 && TableOk()
      modifies this
      ensures accepting == old(accepting) && finishedMax == old(finishedMax) && queueSize == old(queueSize)
      ensures old(UnderWay(k)) ==> Value() == old(Value()) && queue == old(queue)
      ensures !old(UnderWay(k)) ==>
        var r := if k in old(records) then old(records)[k] else old(nextRid);
        if accepting && (queueSize == 0 || |old(queue)| < queueSize)
        then queue == old(queue) + [r] && k in records && records[k] == r && r in recs && recs[r].queued
        else queue == old(queue) && k !in records && finished != []
             && finished[|finished| - 1] == Receipt(k, Failed, r)
    {
      if k !in records {
        var _ := SetDefault(k, Posted);
      }
      var r := records[k];
      if recs[r].queued || !recs[r].status.Pending? {
        return;
      }
      if !accepting {
        Finish(r, Failed);
        return;
      }
      recs := recs[r := recs[r].(queued := true)];
      if queueSize > 0 && |queue| >= queueSize {
        Finish(r, Failed);
        return;
      }
      recs := recs[r := recs[r].(place := Queued)];
      queue := queue + [r];
    }

    /** Empty the queue, failing everything in it. */
    method FailNeverStarted()
      requires finishedMax >= 1
      requires forall r :: r in queue ==> r in recs
      modifies this`records, this`recs, this`finished, this`queue
      ensures queue == [] && Value() == Drained(old(Value()), finishedMax, old(queue))
    {
      while queue != []
        invariant forall r :: r in queue ==> r in recs
        invariant Drained(Value(), finishedMax, queue) == Drained(old(Value()), finishedMax, old(queue))
        decreases |queue|
      {
        var r := queue[0];
        assert r in queue;
        queue := queue[1..];
        Finish(r, Failed);
      }
    }

    /** The table first, then the ring. */
    method IntentStatus(k: Key) returns (st: Option<Status>)
      requires forall j :: j in records ==> records[j] in recs
      ensures k in records ==> st == Some(recs[records[k]].status)
      ensures k !in records ==> (st.None? <==> !HasReceipt(finished, k))
      ensures k !in records && st.Some? ==>
        exists i :: 0 <= i < |finished| && finished[i].key == k && st == Some(finished[i].status)
    {
      if k in records {
        return Some(recs[records[k]].status);
      }
      var i := 0;
      while i < |finished|
        invariant 0 <= i <= |finished| && forall j :: 0 <= j < i ==> finished[j].key != k
      {
        if finished[i].key == k {
          return Some(finished[i].status);
        }
        i := i + 1;
      }
      return None;
    }
  }

  // ---------------------------------------------------------------- what draining achieves

  /** Draining a queue of pending slot owners leaves none of them pending and gives each a terminal status. */
  lemma {:induction false} DrainedFails(d: Dicts, max: nat, q: seq<Rid>, r: Rid)
    requires max >= 1 && NoDup(q) && r in q
    requires forall x :: x in q ==> x in d.recs
    requires forall x :: x in q ==>
      d.recs[x].status.Pending? && d.recs[x].key in d.records && d.records[d.recs[x].key] == x
    ensures var d1 := Drained(d, max, q); r in d1.recs && d1.recs[r].status.Failed?
    decreases |q|
  {
    var d0 := Finished(d, max, q[0], Failed);
    assert q[0] in q;
    forall x | x in q[1..] ensures x in d0.recs && d0.recs[x] == d.recs[x] && d0.recs[x].key in d0.records
      && d0.records[d0.recs[x].key] == x
    {
      assert x in q && x != q[0];
    }
    if r == q[0] {
      DrainedKeeps(d0, max, q[1..], r);
    } else {
      DrainedFails(d0, max, q[1..], r);
    }
  }

  lemma {:induction false} DrainedKeeps(d: Dicts, max: nat, q: seq<Rid>, r: Rid)
    requires r in d.recs && !d.recs[r].status.Pending? && (forall x :: x in q ==> x in d.recs)
    ensures var d1 := Drained(d, max, q); r in d1.recs && d1.recs[r].status == d.recs[r].status
    decreases |q|
  {
    if q != [] {
      assert q[0] in q;
      DrainedKeeps(Finished(d, max, q[0], Failed), max, q[1..], r);
    }
  }
}
