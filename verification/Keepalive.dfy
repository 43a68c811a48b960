/**
 Bounded keepalive: the keepalive table of kvcm/kvcm/ledger.py and the sweep of kvcm/kvcm/loops.py as a state machine.
 A sweep is a chain of awaited steps, and clients may register, unregister and restore rows between any two of them.
 */
module Keepalive {
  import opened Base

  type Key = nat

  /** A row of the snapshot that a sweep works through. */
  datatype Rec = Rec(key: Key, at: int)

  /**
   Where a sweep is: it has read the clock, or holds its snapshot, or is about to renew `rec`, or is about to drop
   `rec` because its copy is gone. `since` collects the keys whose row was deleted after the snapshot.
   */
  datatype Sweep =
    | Idle
    | Begun(start: int)
    | Running(start: int, todo: seq<Rec>, since: set<Key>)
    | Renewing(start: int, rec: Rec, todo: seq<Rec>, since: set<Key>)
    | Dropping(start: int, rec: Rec, todo: seq<Rec>, since: set<Key>)

  /** The clock, the window, the table from key to registration time, the rows without tokens, and the sweep. */
  datatype State = State(now: int, window: int, table: map<Key, int>, blank: set<Key>, sweep: Sweep)

  datatype Answer = Present | Absent | QueryFailed

  datatype Step =
    | Elapse(to: int)
    | Register(key: Key)
    | Unregister(key: Key)
    | Restore(key: Key, at: int)
    | Begin
    | Snapshot(records: seq<Rec>)
    | Expire
    | Skip
    | Check
    | Renew(answer: Answer)
    | Drop
    | End
    | Stop

  /** `records` lists every given row once. */
  ghost predicate Lists(records: seq<Rec>, table: map<Key, int>) {
    && (forall i :: 0 <= i < |records| ==> records[i].key in table && records[i].at == table[records[i].key])
    && (forall i, j :: 0 <= i < j < |records| ==> records[i].key != records[j].key)
    && forall k :: k in table ==> Rec(k, table[k]) in records
  }

  predicate Expired(s: State, rec: Rec)
    requires !s.sweep.Idle?
  {
    s.sweep.start - rec.at >= s.window
  }

  predicate HasTodo(s: State) { s.sweep.Running? && s.sweep.todo != [] }

  ghost predicate Enabled(s: State, step: Step) {
    match step
    case Elapse(to) => to >= s.now
    case Register(_) => true
    case Unregister(_) => true
    case Restore(_, _) => true
    case Begin => s.sweep.Idle?
    case Snapshot(records) => s.sweep.Begun? && Lists(records, s.table - s.blank)
    case Expire => HasTodo(s) && Expired(s, s.sweep.todo[0])
    case Skip => HasTodo(s) && !Expired(s, s.sweep.todo[0]) && s.sweep.todo[0].key !in s.table
    case Check => HasTodo(s) && !Expired(s, s.sweep.todo[0]) && s.sweep.todo[0].key in s.table
    case Renew(_) => s.sweep.Renewing?
    case Drop => s.sweep.Dropping?
    case End => s.sweep.Running? && s.sweep.todo == []
    case Stop => !s.sweep.Idle?
  }

  /** An insert that keeps the row of a key that is already there. */
  function Inserted(table: map<Key, int>, key: Key, at: int): map<Key, int> {
    if key in table then table else table[key := at]
  }

  /** The sweep's own note of a deletion. */
  function Noticed(w: Sweep, key: Key): Sweep {
    match w
    case Running(start, todo, since) => Running(start, todo, since + {key})
    case Renewing(start, rec, todo, since) => Renewing(start, rec, todo, since + {key})
    case Dropping(start, rec, todo, since) => Dropping(start, rec, todo, since + {key})
    case _ => w
  }

  function Deleted(s: State, key: Key): State {
    s.(table := s.table - {key}, sweep := Noticed(s.sweep, key))
  }

  ghost function Next(s: State, step: Step): State
    requires Enabled(s, step)
  {
    var w := s.sweep;
    match step
    case Elapse(to) => s.(now := to)
    case Register(key) => s.(table := Inserted(s.table, key, s.now), blank := s.blank - {key})
    case Unregister(key) => Deleted(s, key)
    case Restore(key, at) =>
      s.(table := Inserted(s.table, key, at), blank := if key in s.table then s.blank else s.blank - {key})
    case Begin => s.(sweep := Begun(s.now))
    case Snapshot(records) => s.(sweep := Running(w.start, records, {}))
    case Expire => Deleted(s.(sweep := Running(w.start, w.todo[1..], w.since)), w.todo[0].key)
    case Skip => s.(sweep := Running(w.start, w.todo[1..], w.since))
    case Check => s.(sweep := Renewing(w.start, w.todo[0], w.todo[1..], w.since))
    case Renew(answer) =>
      s.(sweep := if answer.Absent? then Dropping(w.start, w.rec, w.todo, w.since)
                  else Running(w.start, w.todo, w.since))
    case Drop => Deleted(s.(sweep := Running(w.start, w.todo, w.since)), w.rec.key)
    case End => s.(sweep := Idle)
    case Stop => s.(sweep := Idle)
  }

  /** The state after a run, if every step was possible in its turn. */
  ghost function After(s: State, steps: seq<Step>): Option<State>
    decreases |steps|
  {
    if steps == [] then Some(s) else
      var before := After(s, steps[..|steps| - 1]);
      var step := steps[|steps| - 1];
      if before.Some? && Enabled(before.value, step) then Some(Next(before.value, step)) else None
  }

  // ---------------------------------------------------------------- what holds in every state

  ghost predicate HasSnapshot(w: Sweep) { w.Running? || w.Renewing? || w.Dropping? }

  /** The records a sweep still has to do, the current one first. */
  ghost function Pending(w: Sweep): seq<Rec> {
    match w
    case Running(_, todo, _) => todo
    case Renewing(_, rec, todo, _) => [rec] + todo
    case Dropping(_, rec, todo, _) => [rec] + todo
    case _ => []
  }

  /** A pending record still describes its row, unless the row was deleted since the snapshot. */
  ghost predicate Current(s: State, rec: Rec)
    requires HasSnapshot(s.sweep)
  {
    rec.key in s.table && rec.key !in s.sweep.since ==> s.table[rec.key] == rec.at
  }

  ghost predicate Inv(s: State) {
    && (!s.sweep.Idle? ==> s.sweep.start <= s.now)
    && (HasSnapshot(s.sweep) ==> forall i :: 0 <= i < |Pending(s.sweep)| ==>
          Current(s, Pending(s.sweep)[i])
          && (Pending(s.sweep)[i].key !in s.table ==> Pending(s.sweep)[i].key in s.sweep.since))
    && (s.sweep.Renewing? || s.sweep.Dropping? ==> !Expired(s, s.sweep.rec))
  }

  lemma StepKeepsInv(s: State, step: Step)
    requires Inv(s) && Enabled(s, step)
    ensures Inv(Next(s, step)) && Next(s, step).window == s.window && Next(s, step).now >= s.now
  {
    if !step.Snapshot? {
      PendingShrinks(s, step);
    }
  }

  /** Only a snapshot gives a sweep new records. */
  lemma PendingShrinks(s: State, step: Step)
    requires Enabled(s, step) && !step.Snapshot?
    ensures forall i :: 0 <= i < |Pending(Next(s, step).sweep)| ==> Pending(Next(s, step).sweep)[i] in Pending(s.sweep)
  { }

  lemma {:induction false} RunKeepsInv(s: State, steps: seq<Step>)
    requires Inv(s) && After(s, steps).Some?
    ensures Inv(After(s, steps).value) && After(s, steps).value.window == s.window
    decreases |steps|
  {
    if steps != [] {
      var n := |steps| - 1;
      RunKeepsInv(s, steps[..n]);
      StepKeepsInv(After(s, steps[..n]).value, steps[n]);
    }
  }

  // ---------------------------------------------------------------- the window

  /** The row of `key` dates from `since`, and a sweep begun a window later has no other date for it. */
  ghost predicate Dated(s: State, key: Key, since: int) {
    && key in s.table && s.table[key] == since
    && (HasSnapshot(s.sweep) && s.sweep.start >= since + s.window ==>
          forall i :: 0 <= i < |Pending(s.sweep)| && Pending(s.sweep)[i].key == key ==> Pending(s.sweep)[i].at == since)
  }

  /** Registering, restoring or sweeping never moves the date of a row that stays in the table. */
  lemma StepKeepsDate(s: State, step: Step, key: Key, since: int)
    requires Inv(s) && Enabled(s, step) && Dated(s, key, since) && key in Next(s, step).table
    ensures Dated(Next(s, step), key, since)
  {
    if !step.Snapshot? {
      PendingShrinks(s, step);
    }
  }

  /** The key is in the table after every step of the run. */
  ghost predicate Stays(s: State, steps: seq<Step>, key: Key)
    requires After(s, steps).Some?
    decreases |steps|
  {
    key in After(s, steps).value.table && (steps == [] || Stays(s, steps[..|steps| - 1], key))
  }

  lemma {:induction false} RunKeepsDate(s: State, steps: seq<Step>, key: Key, since: int)
    requires Inv(s) && Dated(s, key, since) && After(s, steps).Some? && Stays(s, steps, key)
    ensures Inv(After(s, steps).value) && Dated(After(s, steps).value, key, since)
    ensures After(s, steps).value.window == s.window
    decreases |steps|
  {
    if steps != [] {
      var n := |steps| - 1;
      RunKeepsDate(s, steps[..n], key, since);
      StepKeepsInv(After(s, steps[..n]).value, steps[n]);
      StepKeepsDate(After(s, steps[..n]).value, steps[n], key, since);
    }
  }

  /**
   Bounded keepalive. Once `key` is registered, and as long as it is not deleted, no sweep that starts a window or
   more later is ever about to renew it, whatever is registered, unregistered, restored and swept in between.
   */
  lemma BoundedKeepalive(s: State, key: Key, steps: seq<Step>)
    requires Inv(s) && s.window > 0 && key !in s.table
    requires After(Next(s, Register(key)), steps).Some? && Stays(Next(s, Register(key)), steps, key)
    ensures var t := After(Next(s, Register(key)), steps).value;
      && t.table[key] == s.now
      && (t.sweep.Renewing? && t.sweep.rec.key == key ==> t.sweep.start < s.now + s.window)
  {
    var s1 := Next(s, Register(key));
    StepKeepsInv(s, Register(key));
    RunKeepsDate(s1, steps, key, s.now);
    var t := After(s1, steps).value;
    if t.sweep.Renewing? {
      assert Pending(t.sweep)[0] == t.sweep.rec;
    }
  }

  // ---------------------------------------------------------------- rows that changed under a sweep

  /**
   A sweep acts on the row it saw: what it renews is inside the window and what it expires is outside, unless the row
   was deleted after the snapshot.
   */
  lemma ActsOnWhatItSaw(s: State, steps: seq<Step>)
    requires Inv(s) && After(s, steps).Some?
    ensures var t := After(s, steps).value; var w := t.sweep;
      && (w.Renewing? && w.rec.key in t.table && w.rec.key !in w.since ==> w.start - t.table[w.rec.key] < t.window)
      && (Enabled(t, Expire) && w.todo[0].key in t.table && w.todo[0].key !in w.since ==>
            w.start - t.table[w.todo[0].key] >= t.window)
  {
    RunKeepsInv(s, steps);
    var t := After(s, steps).value;
    if t.sweep.Renewing? || (t.sweep.Running? && t.sweep.todo != []) {
      assert Current(t, Pending(t.sweep)[0]);
    }
  }

  /** A row that came back after a deletion is inside the window. */
  ghost predicate Recent(s: State) {
    HasSnapshot(s.sweep) ==>
      forall k :: k in s.sweep.since && k in s.table ==> s.sweep.start - s.table[k] < s.window
  }

  /** The key whose row the sweep is about to delete. */
  ghost function Victim(s: State, step: Step): Key
    requires Enabled(s, step) && (step.Expire? || step.Drop?)
  {
    if step.Expire? then s.sweep.todo[0].key else s.sweep.rec.key
  }

  /** The step puts a missing row back, during a sweep and with a date that is out of that sweep's window. */
  ghost predicate PutsBackOld(s: State, step: Step, key: Key) {
    step.Restore? && step.key == key && key !in s.table && HasSnapshot(s.sweep) &&
    s.sweep.start - step.at >= s.window
  }

  /** The row of `key` is the one that was there before the step, and the sweep still has the same snapshot. */
  ghost predicate Remains(s: State, step: Step, key: Key)
    requires Enabled(s, step)
  {
    key in s.table && key in Next(s, step).table && !step.Snapshot? && HasSnapshot(Next(s, step).sweep)
  }

  /** The present row of `key` was put back after the present sweep's snapshot, with a date out of the window. */
  ghost predicate PutBackOld(s: State, steps: seq<Step>, key: Key)
    requires After(s, steps).Some?
    decreases |steps|
  {
    steps != [] &&
    var n := |steps| - 1;
    var t := After(s, steps[..n]).value;
    PutsBackOld(t, steps[n], key) || (Remains(t, steps[n], key) && PutBackOld(s, steps[..n], key))
  }

  /** What `wasOld`, the history of the row of `key`, says about its date and its deletion. */
  ghost predicate Told(s: State, key: Key, wasOld: bool) {
    HasSnapshot(s.sweep) ==>
      && (key in s.table && key in s.sweep.since ==> (s.sweep.start - s.table[key] >= s.window <==> wasOld))
      && (key !in s.sweep.since && wasOld ==>
            forall i :: 0 <= i < |Pending(s.sweep)| ==> Pending(s.sweep)[i].key != key)
  }

  lemma StepKeepsTold(s: State, step: Step, key: Key, wasOld: bool)
    requires Inv(s) && Enabled(s, step) && s.window > 0 && Told(s, key, wasOld)
    ensures Told(Next(s, step), key, PutsBackOld(s, step, key) || (Remains(s, step, key) && wasOld))
  {
    if !step.Snapshot? {
      PendingShrinks(s, step);
    }
  }

  lemma {:induction false} RunTells(s: State, steps: seq<Step>, key: Key)
    requires Inv(s) && Recent(s) && s.window > 0 && After(s, steps).Some?
    ensures Inv(After(s, steps).value) && After(s, steps).value.window == s.window
    ensures Told(After(s, steps).value, key, PutBackOld(s, steps, key))
    decreases |steps|
  {
    if steps != [] {
      var n := |steps| - 1;
      RunTells(s, steps[..n], key);
      StepKeepsInv(After(s, steps[..n]).value, steps[n]);
      StepKeepsTold(After(s, steps[..n]).value, steps[n], key, PutBackOld(s, steps[..n], key));
    }
  }

  /**
   Exactly when a sweep renews a row past its window, in any run: when the row was put back after the snapshot with a
   date that is out of the window, and has not been deleted since.
   */
  lemma RenewedPastExactly(s: State, steps: seq<Step>)
    requires Inv(s) && Recent(s) && s.window > 0 && After(s, steps).Some?
    ensures var t := After(s, steps).value; var w := t.sweep;
      w.Renewing? && w.rec.key in t.table ==>
        (w.start - t.table[w.rec.key] >= t.window <==> PutBackOld(s, steps, w.rec.key))
  {
    var t := After(s, steps).value;
    if t.sweep.Renewing? {
      RunTells(s, steps, t.sweep.rec.key);
      assert Pending(t.sweep)[0] == t.sweep.rec;
    }
  }

  /**
   Exactly when a row is deleted inside its window, in any run and by any step: when a client unregisters it, or when
   the sweep drops it for a missing copy or expires a key that was deleted after the snapshot, and the row is not one
   put back with an old date.
   */
  lemma LostExactly(s: State, steps: seq<Step>, step: Step, key: Key)
    requires Inv(s) && Recent(s) && s.window > 0 && After(s, steps).Some? && Enabled(After(s, steps).value, step)
    requires key in After(s, steps).value.table && key !in Next(After(s, steps).value, step).table
    ensures var t := After(s, steps).value;
      step == Unregister(key) ||
      ((step.Expire? || step.Drop?) && Victim(t, step) == key &&
       (t.sweep.start - t.table[key] < t.window <==>
          (step.Drop? || key in t.sweep.since) && !PutBackOld(s, steps, key)))
  {
    RunTells(s, steps, key);
    var t := After(s, steps).value;
    if step.Expire? || step.Drop? {
      assert Pending(t.sweep)[0].key == Victim(t, step);
    }
  }

  /** Every row put back during a sweep is still inside the window of that sweep. */
  ghost predicate FreshRestores(s: State, steps: seq<Step>)
    requires After(s, steps).Some?
    decreases |steps|
  {
    steps == [] ||
    (var n := |steps| - 1;
     && FreshRestores(s, steps[..n])
     && var t := After(s, steps[..n]).value;
        steps[n].Restore? && HasSnapshot(t.sweep) ==> t.sweep.start - steps[n].at < t.window)
  }

  lemma {:induction false} FreshIsNeverOld(s: State, steps: seq<Step>, key: Key)
    requires After(s, steps).Some? && FreshRestores(s, steps)
    ensures !PutBackOld(s, steps, key)
    decreases |steps|
  {
    if steps != [] {
      FreshIsNeverOld(s, steps[..|steps| - 1], key);
    }
  }

  lemma {:induction false} NoRestoreIsFresh(s: State, steps: seq<Step>)
    requires After(s, steps).Some? && forall i :: 0 <= i < |steps| ==> !steps[i].Restore?
    ensures FreshRestores(s, steps)
    decreases |steps|
  {
    if steps != [] {
      NoRestoreIsFresh(s, steps[..|steps| - 1]);
    }
  }

  /**
   In a run in which no row with an old date is put back during a sweep, in particular in a run without a restore, a
   sweep deletes a row inside its window exactly when it drops it or when the key was deleted after the snapshot, and
   it never renews a row past its window.
   */
  lemma LostExactlyIfDeleted(s: State, steps: seq<Step>)
    requires Inv(s) && Recent(s) && s.window > 0 && After(s, steps).Some? && FreshRestores(s, steps)
    ensures var t := After(s, steps).value; var w := t.sweep;
      && (Enabled(t, Expire) && w.todo[0].key in t.table ==>
            (w.start - t.table[w.todo[0].key] < t.window <==> w.todo[0].key in w.since))
      && (Enabled(t, Drop) && w.rec.key in t.table ==> w.start - t.table[w.rec.key] < t.window)
      && (w.Renewing? && w.rec.key in t.table ==> w.start - t.table[w.rec.key] < t.window)
  {
    var t := After(s, steps).value;
    if Enabled(t, Expire) && t.sweep.todo[0].key in t.table {
      FreshIsNeverOld(s, steps, t.sweep.todo[0].key);
      LostExactly(s, steps, Expire, t.sweep.todo[0].key);
    } else if Enabled(t, Drop) && t.sweep.rec.key in t.table {
      FreshIsNeverOld(s, steps, t.sweep.rec.key);
      LostExactly(s, steps, Drop, t.sweep.rec.key);
    } else if t.sweep.Renewing? {
      FreshIsNeverOld(s, steps, t.sweep.rec.key);
      RenewedPastExactly(s, steps);
    }
  }

  lemma Extend(s: State, steps: seq<Step>, step: Step)
    requires After(s, steps).Some? && Enabled(After(s, steps).value, step)
    ensures After(s, steps + [step]) == Some(Next(After(s, steps).value, step))
  {
    assert (steps + [step])[..|steps|] == steps;
  }

  /** The pool's answer decides: only an absent copy leads to a drop, and no answer touches the table by itself. */
  lemma AnswerDecides(s: State, answer: Answer)
    requires Enabled(s, Renew(answer))
    ensures var t := Next(s, Renew(answer));
      && t.table == s.table && t.blank == s.blank
      && (t.sweep.Dropping? <==> answer.Absent?)
      && (!answer.Absent? ==> t.sweep == Running(s.sweep.start, s.sweep.todo, s.sweep.since))
  { }

  /** A sweep that is about to drop a row was told that its copy is absent, and before that was about to renew it. */
  lemma {:induction false} DroppedOnlyIfAbsent(s: State, steps: seq<Step>) returns (i: nat)
    requires s.sweep.Idle? && After(s, steps).Some? && After(s, steps).value.sweep.Dropping?
    ensures i < |steps| && steps[i] == Renew(Absent)
    ensures After(s, steps[..i]).Some? && After(s, steps[..i]).value.sweep.Renewing?
    ensures After(s, steps[..i]).value.sweep.rec == After(s, steps).value.sweep.rec
    ensures After(s, steps[..i]).value.sweep.start == After(s, steps).value.sweep.start
    ensures forall j :: i < j < |steps| ==>
      steps[j].Elapse? || steps[j].Register? || steps[j].Unregister? || steps[j].Restore?
    decreases |steps|
  {
    var n := |steps| - 1;
    if steps[n].Renew? {
      i := n;
    } else {
      i := DroppedOnlyIfAbsent(s, steps[..n]);
      assert steps[..n][..i] == steps[..i];
    }
  }

  // ---------------------------------------------------------------- what a whole sweep does

  /** The rows that the present sweep listed. */
  function Listed(steps: seq<Step>): seq<Rec> {
    if steps == [] || steps[|steps| - 1].Begin? then []
    else if steps[|steps| - 1].Snapshot? then steps[|steps| - 1].records
    else Listed(steps[..|steps| - 1])
  }

  /** The key was out of the table at some moment since the present sweep's snapshot. */
  ghost predicate GoneSince(s: State, steps: seq<Step>, key: Key)
    requires After(s, steps).Some?
    decreases |steps|
  {
    steps != [] && !steps[|steps| - 1].Begin? && !steps[|steps| - 1].Snapshot? &&
    (key !in After(s, steps).value.table || GoneSince(s, steps[..|steps| - 1], key))
  }

  /** The present sweep asked the pool to renew the row and was not told that the copy is absent. */
  ghost predicate Asked(s: State, steps: seq<Step>, rec: Rec)
    requires After(s, steps).Some?
    decreases |steps|
  {
    steps != [] &&
    var n := |steps| - 1;
    var w := After(s, steps[..n]).value.sweep;
    !steps[n].Begin? && !steps[n].Snapshot? &&
    ((steps[n].Renew? && !steps[n].answer.Absent? && w.Renewing? && w.rec == rec) || Asked(s, steps[..n], rec))
  }

  /** A listed row is still to be done, or was deleted, or is inside the window and was renewed. */
  ghost predicate WorkedOff(t: State, rec: Rec, gone: bool, asked: bool) {
    HasSnapshot(t.sweep) ==> rec in Pending(t.sweep) || gone || (asked && t.sweep.start - rec.at < t.window)
  }

  lemma StepWorksOff(s: State, step: Step, rec: Rec, gone: bool, asked: bool)
    requires Inv(s) && Enabled(s, step) && WorkedOff(s, rec, gone, asked) && !step.Begin? && !step.Snapshot?
    ensures var t := Next(s, step);
      var told := step.Renew? && !step.answer.Absent? && s.sweep.Renewing? && s.sweep.rec == rec;
      WorkedOff(t, rec, rec.key !in t.table || gone, told || asked)
  {
    var p, q := Pending(s.sweep), Pending(Next(s, step).sweep);
    assert p != [] && (step.Expire? || step.Skip? || step.Drop? || step.Renew?) ==> p == [p[0]] + p[1..];
  }

  lemma {:induction false} RunWorksOff(s: State, steps: seq<Step>, rec: Rec)
    requires s.sweep.Idle? && After(s, steps).Some? && rec in Listed(steps)
    ensures Inv(After(s, steps).value)
    ensures WorkedOff(After(s, steps).value, rec, GoneSince(s, steps, rec.key), Asked(s, steps, rec))
    decreases |steps|
  {
    RunKeepsInv(s, steps);
    var n := |steps| - 1;
    if !steps[n].Snapshot? {
      RunWorksOff(s, steps[..n], rec);
      StepWorksOff(After(s, steps[..n]).value, steps[n], rec, GoneSince(s, steps[..n], rec.key),
                   Asked(s, steps[..n], rec));
    }
  }

  lemma {:induction false} ListedAt(steps: seq<Step>, i: nat)
    requires i < |steps| && steps[i].Snapshot?
    requires forall j :: i < j < |steps| ==> !steps[j].Begin? && !steps[j].Snapshot?
    ensures Listed(steps) == steps[i].records
    decreases |steps|
  {
    if i < |steps| - 1 {
      ListedAt(steps[..|steps| - 1], i);
    }
  }

  lemma {:induction false} EarlierState(s: State, steps: seq<Step>, i: nat)
    requires After(s, steps).Some? && i < |steps|
    ensures After(s, steps[..i]).Some? && Enabled(After(s, steps[..i]).value, steps[i])
    decreases |steps|
  {
    if i < |steps| - 1 {
      EarlierState(s, steps[..|steps| - 1], i);
      assert steps[..|steps| - 1][..i] == steps[..i];
    }
  }

  /**
   What a whole sweep does, in every run. When it has worked off its list, each row that had tokens at its snapshot has
   been deleted since, or is inside the window and was renewed. So an expired row never survives in its old place.
   */
  lemma SweepExactly(s: State, steps: seq<Step>, i: nat, key: Key)
    requires s.sweep.Idle? && After(s, steps).Some? && Enabled(After(s, steps).value, End)
    requires i < |steps| && steps[i].Snapshot?
    requires forall j :: i < j < |steps| ==> !steps[j].Begin? && !steps[j].Snapshot?
    ensures After(s, steps[..i]).Some?
    ensures var first, t := After(s, steps[..i]).value, After(s, steps).value;
      key in first.table && key !in first.blank ==>
        GoneSince(s, steps, key) ||
        (Asked(s, steps, Rec(key, first.table[key])) && t.sweep.start - first.table[key] < t.window)
  {
    EarlierState(s, steps, i);
    ListedAt(steps, i);
    var before := After(s, steps[..i]).value;
    if key in before.table && key !in before.blank {
      assert key in before.table - before.blank;
      RunWorksOff(s, steps, Rec(key, before.table[key]));
    }
  }

  /** A sweep is never stuck: at each record exactly one of its three ways is open, and at the end it can end. */
  lemma SweepNeverStuck(s: State, answer: Answer)
    ensures s.sweep.Running? && s.sweep.todo == [] ==> Enabled(s, End)
    ensures HasTodo(s) ==> Enabled(s, Expire) || Enabled(s, Skip) || Enabled(s, Check)
    ensures !(Enabled(s, Expire) && Enabled(s, Skip)) && !(Enabled(s, Expire) && Enabled(s, Check))
    ensures !(Enabled(s, Skip) && Enabled(s, Check))
    ensures s.sweep.Renewing? ==> Enabled(s, Renew(answer))
    ensures s.sweep.Dropping? ==> Enabled(s, Drop)
  { }

  /** Wherever a sweep is about to expire a row, a client that unregisters and registers the key loses the new row. */
  lemma LostWherever(s: State)
    requires Inv(s) && Enabled(s, Expire) && s.window > 0
    ensures var key := s.sweep.todo[0].key;
      var t := Next(Next(s, Unregister(key)), Register(key));
      && t.table == s.table[key := s.now] && t.sweep.start - t.table[key] < t.window
      && Enabled(t, Expire) && key !in Next(t, Expire).table
  {
    var key := s.sweep.todo[0].key;
    assert (s.table - {key})[key := s.now] == s.table[key := s.now];
  }

  /** The run up to a snapshot of a row registered at time 0, taken when its window is over. */
  lemma ExpiredSnapshot() returns (steps: seq<Step>)
    ensures After(State(0, 600, map[], {}, Idle), steps) ==
      Some(State(600, 600, map[1 := 0], {}, Running(600, [Rec(1, 0)], {})))
  {
    var s0 := State(0, 600, map[], {}, Idle);
    var none: set<Key> := {};
    assert none - {1} == none;
    Extend(s0, [], Register(1));
    Extend(s0, [Register(1)], Elapse(600));
    Extend(s0, [Register(1)] + [Elapse(600)], Begin);
    var s3 := State(600, 600, map[1 := 0], {}, Begun(600));
    assert s3.table - s3.blank == s3.table && Lists([Rec(1, 0)], s3.table);
    Extend(s0, [Register(1)] + [Elapse(600)] + [Begin], Snapshot([Rec(1, 0)]));
    steps := [Register(1)] + [Elapse(600)] + [Begin] + [Snapshot([Rec(1, 0)])];
  }

  /**
   A new registration can be lost: when a row expires in a sweep's snapshot and is unregistered and registered again
   before the sweep reaches it, the sweep deletes the new row at the start of its window.
   */
  lemma LostRegistration() returns (steps: seq<Step>)
    ensures var s0 := State(0, 600, map[], {}, Idle);
      && After(s0, steps).Some? && After(s0, steps + [Expire]).Some?
      && After(s0, steps).value.table == map[1 := 600]
      && After(s0, steps + [Expire]).value == State(600, 600, map[], {}, Running(600, [], {1}))
  {
    var s0 := State(0, 600, map[], {}, Idle);
    var none: set<Key> := {};
    assert none - {1} == none;
    steps := ExpiredSnapshot();
    DeletesOnlyRow(600, 0, Running(600, [Rec(1, 0)], {}), {});
    Extend(s0, steps, Unregister(1));
    steps := steps + [Unregister(1)];
    assert After(s0, steps) == Some(State(600, 600, map[], {}, Running(600, [Rec(1, 0)], {1})));
    Extend(s0, steps, Register(1));
    steps := steps + [Register(1)];
    assert After(s0, steps) == Some(State(600, 600, map[1 := 600], {}, Running(600, [Rec(1, 0)], {1})));
    DeletesOnlyRow(600, 600, Running(600, [], {1}), {1});
    Extend(s0, steps, Expire);
  }

  lemma DeletesOnlyRow(now: int, at: int, w: Sweep, since: set<Key>)
    requires w.Running? && w.since == since && since <= {1}
    ensures Deleted(State(now, 600, map[1 := at], {}, w), 1) ==
      State(now, 600, map[], {}, Running(w.start, w.todo, {1}))
  {
    assert since + {1} == {1};
    var rest: map<Key, int> := map[1 := at] - {1};
    assert rest == map[];
  }

  /** Wherever a sweep is about to drop a row, a client that registers the key changes nothing and loses it. */
  lemma LostAtDrop(s: State)
    requires Inv(s) && Enabled(s, Drop) && s.sweep.rec.key in s.table
    ensures var key := s.sweep.rec.key;
      var t := Next(s, Register(key));
      && t.table == s.table && Enabled(t, Drop) && key !in Next(t, Drop).table
      && (key !in s.sweep.since ==> t.sweep.start - t.table[key] < t.window)
  {
    assert Current(s, Pending(s.sweep)[0]);
  }

  /** The run up to a snapshot of a row registered at time 0, taken at once. */
  lemma FreshSnapshot() returns (steps: seq<Step>)
    ensures After(State(0, 600, map[], {}, Idle), steps) ==
      Some(State(0, 600, map[1 := 0], {}, Running(0, [Rec(1, 0)], {})))
  {
    var s0 := State(0, 600, map[], {}, Idle);
    var none: set<Key> := {};
    assert none - {1} == none;
    Extend(s0, [], Register(1));
    Extend(s0, [Register(1)], Begin);
    var s2 := State(0, 600, map[1 := 0], {}, Begun(0));
    assert s2.table - s2.blank == s2.table && Lists([Rec(1, 0)], s2.table);
    Extend(s0, [Register(1)] + [Begin], Snapshot([Rec(1, 0)]));
    steps := [Register(1)] + [Begin] + [Snapshot([Rec(1, 0)])];
  }

  /** The pool answers that the copy of that row is gone. */
  lemma AnsweredAbsent() returns (steps: seq<Step>)
    ensures After(State(0, 600, map[], {}, Idle), steps) ==
      Some(State(0, 600, map[1 := 0], {}, Dropping(0, Rec(1, 0), [], {})))
  {
    var s0 := State(0, 600, map[], {}, Idle);
    steps := FreshSnapshot();
    var one := [Rec(1, 0)];
    assert one[1..] == [];
    Extend(s0, steps, Check);
    steps := steps + [Check];
    assert After(s0, steps) == Some(State(0, 600, map[1 := 0], {}, Renewing(0, Rec(1, 0), [], {})));
    Extend(s0, steps, Renew(Absent));
    steps := steps + [Renew(Absent)];
  }

  /**
   A registration made after the pool's answer and before the delete is lost: the row is inside its window and its
   key was never deleted.
   */
  lemma LostByDrop() returns (steps: seq<Step>)
    ensures var s0 := State(0, 600, map[], {}, Idle);
      && After(s0, steps).Some? && After(s0, steps + [Register(1)]).Some?
      && After(s0, steps + [Register(1)] + [Drop]).Some?
      && After(s0, steps + [Register(1)]).value == State(0, 600, map[1 := 0], {}, Dropping(0, Rec(1, 0), [], {}))
      && After(s0, steps + [Register(1)] + [Drop]).value == State(0, 600, map[], {}, Running(0, [], {1}))
  {
    var s0 := State(0, 600, map[], {}, Idle);
    var none: set<Key> := {};
    assert none - {1} == none;
    steps := AnsweredAbsent();
    Extend(s0, steps, Register(1));
    DeletesOnlyRow(0, 0, Running(0, [], {}), {});
    Extend(s0, steps + [Register(1)], Drop);
  }

  /** The run up to a snapshot of a row registered at time 700, taken at once. */
  lemma LateSnapshot() returns (steps: seq<Step>)
    ensures After(State(0, 600, map[], {}, Idle), steps) ==
      Some(State(700, 600, map[1 := 700], {}, Running(700, [Rec(1, 700)], {})))
  {
    var s0 := State(0, 600, map[], {}, Idle);
    var none: set<Key> := {};
    assert none - {1} == none;
    Extend(s0, [], Elapse(700));
    Extend(s0, [Elapse(700)], Register(1));
    Extend(s0, [Elapse(700)] + [Register(1)], Begin);
    steps := [Elapse(700)] + [Register(1)] + [Begin];
    var s3 := State(700, 600, map[1 := 700], {}, Begun(700));
    assert After(s0, steps) == Some(s3);
    assert s3.table - s3.blank == s3.table && Lists([Rec(1, 700)], s3.table);
    Extend(s0, steps, Snapshot([Rec(1, 700)]));
    steps := steps + [Snapshot([Rec(1, 700)])];
  }

  /** A row put back with an old date after the snapshot is renewed although its window is over. */
  lemma RenewedPastWindow() returns (steps: seq<Step>)
    ensures var s0 := State(0, 600, map[], {}, Idle);
      && After(s0, steps).Some?
      && After(s0, steps).value == State(700, 600, map[1 := 0], {}, Renewing(700, Rec(1, 700), [], {1}))
  {
    var s0 := State(0, 600, map[], {}, Idle);
    var none: set<Key> := {};
    assert none - {1} == none;
    steps := LateSnapshot();
    DeletesOnlyRow(700, 700, Running(700, [Rec(1, 700)], {}), {});
    Extend(s0, steps, Unregister(1));
    steps := steps + [Unregister(1)];
    assert After(s0, steps) == Some(State(700, 600, map[], {}, Running(700, [Rec(1, 700)], {1})));
    Extend(s0, steps, Restore(1, 0));
    steps := steps + [Restore(1, 0)];
    assert After(s0, steps) == Some(State(700, 600, map[1 := 0], {}, Running(700, [Rec(1, 700)], {1})));
    var one := [Rec(1, 700)];
    assert one[1..] == [];
    Extend(s0, steps, Check);
    steps := steps + [Check];
  }
}
