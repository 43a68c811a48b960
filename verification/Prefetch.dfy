/**
 `PrefetchFlow.run_after_exists` of kvcm/kvcm/flows/prefetch.py with its helpers `_drain_copy`, `_abandon` and
 `_abandon_if_handed`. The copy is a task of its own with a state; what it comes to, the clock, the query results and
 the times of external cancellation are a script, and a theorem about every script is a theorem about every run.
 */
module Prefetch {
  import opened Base

  type Handle = int

  /** How the copy task ends; `SelfCancelled` is an end by `CancelledError`. */
  datatype CopyEnd =
    | Handed(handle: Handle) | SubmitError(carried: Option<Handle>) | Admission | CopyBroke | SelfCancelled

  /** The copy task: still running, with or without a cancel requested, or ended. */
  datatype Copy = Running(cancelling: bool) | Ended(end: CopyEnd)

  /** How the shielded wait for the copy ends; `cancels` counts the cancel requests the flow has received by then. */
  datatype Wait = Completed(end: CopyEnd) | TimedOut(copy: Copy) | Interrupted(copy: Copy, cancels: nat)

  /**
   What happens while the flow waits for a cancelled copy to end: the end, the external cancels before it, which the
   event loop passes on to the copy, and whether one more arrives after it but before the flow resumes. That one
   replaces the copy's result by a cancellation of the flow.
   */
  datatype Drain = Drain(end: CopyEnd, cancelsBefore: nat, cancelAfter: bool)

  /** `ops.abandon`: done (ledger failures are logged, a missing handle ignored), a programming error, or cancelled. */
  datatype AbandonEnd = Fine | AbandonBroke | AbandonCancelled

  datatype QueryEnd = Progress | TaskReady | TaskFailed | VerifyFailed | QueryFailed | QueryBroke | QueryCancelled

  /** One turn of the polling loop: the query, the clock after it, and whether the sleep was cancelled. */
  datatype Poll = Poll(query: QueryEnd, now: int, sleepCancelled: bool)

  datatype Script = Script(wait: Wait, drain: Drain, polls: seq<Poll>, first: AbandonEnd, second: AbandonEnd)

  datatype Reason = SubmitFailed | CopyTimeout | CopyFailed | ReplicaMissing | PollTimeout
  datatype Escape = FromCopy | FromDrain | SubmitDuringShutdown | FromQuery | FromAbandon

  /** `Polling` is a run that has not ended within the script. */
  datatype Outcome =
    | ReadyDone | PrefetchError(reason: Reason) | Cancelled | NotAdmitted | Escaped(why: Escape) | Polling

  /** What the flow did with handles, in order. */
  datatype Op = Terminal(handle: Handle) | Abandon(handle: Handle)

  /** The task handle that the copy obtained, whether it returned it or raised an exception that carries it. */
  function HandleOf(end: CopyEnd): Option<Handle> {
    match end
    case Handed(h) => Some(h)
    case SubmitError(carried) => carried
    case _ => None
  }

  /** The handle, if any, was reported terminal by a query or abandoned, exactly one of them and exactly once. */
  predicate Settled(end: CopyEnd, log: seq<Op>) {
    match HandleOf(end)
    case None => log == []
    case Some(h) => log == [Terminal(h)] || log == [Abandon(h)]
  }

  /** The handle, if any, was abandoned, and nothing else was. */
  predicate Released(end: CopyEnd, log: seq<Op>) {
    match HandleOf(end)
    case None => log == []
    case Some(h) => log != [] && forall i :: 0 <= i < |log| ==> log[i] == Abandon(h)
  }

  /** A handle was obtained and then forgotten. */
  predicate Leaked(end: CopyEnd, log: seq<Op>) { HandleOf(end).Some? && log == [] }

  // ---------------------------------------------------------------- draining

  /** How the copy has ended when the copy phase is over. */
  function FinalEnd(env: Script): CopyEnd {
    match env.wait
    case Completed(end) => end
    case TimedOut(copy) => if copy.Ended? then copy.end else env.drain.end
    case Interrupted(copy, _) => if copy.Ended? then copy.end else env.drain.end
  }

  datatype DrainResult = Returned(handle: Option<Handle>) | Raised(end: CopyEnd)

  /**
   `_drain_copy`. A copy that is still running is cancelled, once, and awaited. Its own cancellation is swallowed
   unless the flow itself has been cancelled.
   */
  method DrainCopy(copy: Copy, cancels: nat, d: Drain) returns (r: DrainResult, after: Copy, total: nat)
    ensures after == Ended(if copy.Ended? then copy.end else d.end)
    ensures total == cancels + if copy.Ended? then 0 else d.cancelsBefore + if d.cancelAfter then 1 else 0
    ensures copy.Running? && d.cancelAfter ==> r == Raised(SelfCancelled)
    ensures !(copy.Running? && d.cancelAfter) ==>
      r == match after.end
           case Handed(h) => Returned(Some(h))
           case SelfCancelled => if total > 0 then Raised(SelfCancelled) else Returned(None)
           case end => Raised(end)
  {
    after, total := copy, cancels;
    if after.Running? && !after.cancelling {
      after := Running(true);
    }
    var raised := SelfCancelled;
    if after.Running? {
      total := total + d.cancelsBefore;
      after := Ended(d.end);
      if d.cancelAfter {
        total := total + 1;
      } else {
        raised := d.end;
      }
    } else {
      raised := after.end;
    }
    match raised {
      case Handed(h) => r := Returned(Some(h));
      case SelfCancelled => r := if total > 0 then Raised(SelfCancelled) else Returned(None);
      case end => r := Raised(end);
    }
  }

  /** `_abandon_if_handed`: which handle it abandons. A copy that ended with an exception is passed over. */
  method AbandonIfHanded(copy: Copy, handle: Option<Handle>) returns (target: Option<Handle>)
    ensures target == if handle.None? && copy.Ended? && copy.end.Handed? then Some(copy.end.handle) else handle
  {
    target := handle;
    if handle.None? && copy.Ended? && !copy.end.SelfCancelled? {
      if copy.end.Handed? {
        target := Some(copy.end.handle);
      }
    }
  }

  /** `_abandon` on an optional handle. */
  function Abandoned(h: Option<Handle>): seq<Op> {
    if h.None? then [] else [Abandon(h.value)]
  }

  /** How `_abandon` ends, given how the flow would go on. */
  function AfterAbandon(h: Option<Handle>, end: AbandonEnd, next: Outcome): Outcome {
    if h.None? || end.Fine? then next else if end.AbandonBroke? then Escaped(FromAbandon) else Cancelled
  }

  // ---------------------------------------------------------------- the copy phase

  predicate Handing(env: Script) { env.wait.Completed? && env.wait.end.Handed? }

  /** An external cancel landed between the end of the drained copy and the flow's next step. */
  predicate CutOff(env: Script) {
    env.drain.cancelAfter && !env.wait.Completed? && env.wait.copy.Running?
  }

  /**
   The handles that the copy phase forgets: a submission error carries one, and either the flow was already being
   cancelled, where the error is not caught, or a cancel replaces the error while the copy drains.
   */
  predicate CopyForgets(env: Script) {
    && FinalEnd(env).SubmitError? && FinalEnd(env).carried.Some?
    && (env.wait.Interrupted? || CutOff(env))
  }

  /** Where the copy phase leads when `_abandon` does not fail. */
  function CopyVerdict(env: Script): Outcome
    requires !Handing(env)
  {
    if CutOff(env) then Cancelled else
      match FinalEnd(env)
      case Handed(_) => if env.wait.TimedOut? then PrefetchError(CopyTimeout) else Cancelled
      case SubmitError(_) =>
        if env.wait.Interrupted? then Escaped(SubmitDuringShutdown) else PrefetchError(SubmitFailed)
      case Admission => NotAdmitted
      case CopyBroke => Escaped(if env.wait.Completed? then FromCopy else FromDrain)
      case SelfCancelled =>
        if env.wait.TimedOut? && (env.wait.copy.Ended? || env.drain.cancelsBefore == 0) then PrefetchError(CopyTimeout)
        else Cancelled
  }

  /**
   How the copy phase ends, told from the script, for every way that it can end the flow. `cut` is a cancel that takes
   the place of the drained copy's result, `held` a handle that is abandoned on the way out.
   */
  predicate CopyEnds(env: Script, out: Outcome) {
    var end, wait := FinalEnd(env), env.wait;
    var cut := !wait.Completed? && wait.copy.Running? && env.drain.cancelAfter;
    var held := end.Handed? || (end.SubmitError? && end.carried.Some? && !wait.Interrupted? && !cut);
    var quiet := wait.TimedOut? && (wait.copy.Ended? || env.drain.cancelsBefore == 0);
    match out
    case NotAdmitted => end.Admission? && !cut
    case PrefetchError(SubmitFailed) => end.SubmitError? && !wait.Interrupted? && !cut && (held ==> env.first.Fine?)
    case PrefetchError(CopyTimeout) =>
      wait.TimedOut? && !cut && ((end.Handed? && env.first.Fine?) || (end.SelfCancelled? && quiet))
    case Escaped(FromCopy) => wait == Completed(CopyBroke)
    case Escaped(FromDrain) => !wait.Completed? && !cut && end.CopyBroke?
    case Escaped(SubmitDuringShutdown) => wait.Interrupted? && !cut && end.SubmitError?
    case Escaped(FromAbandon) => held && env.first.AbandonBroke?
    case Cancelled =>
      var gone := cut || (end.Handed? && wait.Interrupted?) || (end.SelfCancelled? && !quiet);
      if held then env.first.AbandonCancelled? || (gone && env.first.Fine?) else gone
    case _ => false
  }

  /** The handle that the copy phase abandons. */
  function CopyAbandons(env: Script): Option<Handle> {
    if CopyForgets(env) then None else HandleOf(FinalEnd(env))
  }

  /** `except TimeoutError`. */
  method OnTimeout(copy: Copy, env: Script) returns (out: Outcome, log: seq<Op>, end: CopyEnd)
    requires env.wait == TimedOut(copy)
    ensures end == FinalEnd(env) && log == Abandoned(CopyAbandons(env))
    ensures out == AfterAbandon(CopyAbandons(env), env.first, CopyVerdict(env))
  {
    var r, after, cancels := DrainCopy(copy, 0, env.drain);
    end := after.end;
    var target: Option<Handle>, next := None, Cancelled;
    match r {
      case Returned(h) => target, next := h, PrefetchError(CopyTimeout);
      case Raised(SubmitError(carried)) => target, next := carried, PrefetchError(SubmitFailed);
      case Raised(SelfCancelled) => target := AbandonIfHanded(after, None);
      case Raised(Admission) => next := NotAdmitted;
      case Raised(_) => next := Escaped(FromDrain);
    }
    log, out := Abandoned(target), AfterAbandon(target, env.first, next);
  }

  /** `except CancelledError`: the flow is being cancelled, or the copy ended by its own cancellation. */
  method OnCancel(copy: Copy, cancels: nat, env: Script) returns (out: Outcome, log: seq<Op>, end: CopyEnd)
    requires env.wait == Interrupted(copy, cancels) ||
      (env.wait == Completed(SelfCancelled) && copy == Ended(SelfCancelled))
    ensures end == FinalEnd(env) && log == Abandoned(CopyAbandons(env))
    ensures out == AfterAbandon(CopyAbandons(env), env.first, CopyVerdict(env))
  {
    var r, after, total := DrainCopy(copy, cancels, env.drain);
    end := after.end;
    var target: Option<Handle>, next := None, Cancelled;
    match r {
      case Returned(h) => target := h;
      case Raised(SelfCancelled) => target := AbandonIfHanded(after, None);
      case Raised(SubmitError(_)) => next := Escaped(SubmitDuringShutdown);
      case Raised(Admission) => next := NotAdmitted;
      case Raised(_) => next := Escaped(FromDrain);
    }
    log, out := Abandoned(target), AfterAbandon(target, env.first, next);
  }

  /** The copy phase: either a handle to poll, or the flow is over. */
  method AwaitCopy(env: Script) returns (handle: Option<Handle>, out: Outcome, log: seq<Op>, end: CopyEnd)
    ensures end == FinalEnd(env)
    ensures handle == if Handing(env) then HandleOf(end) else None
    ensures Handing(env) ==> log == []
    ensures !Handing(env) ==> log == Abandoned(CopyAbandons(env))
    ensures !Handing(env) ==> out == AfterAbandon(CopyAbandons(env), env.first, CopyVerdict(env))
    ensures !Handing(env) ==> CopyEnds(env, out)
  {
    handle, out, log := None, Polling, [];
    match env.wait {
      case Completed(copyEnd) =>
        end := copyEnd;
        match copyEnd {
          case Handed(h) => handle := Some(h);
          case SubmitError(carried) =>
            log := Abandoned(carried);
            out := AfterAbandon(carried, env.first, PrefetchError(SubmitFailed));
          case Admission => out := NotAdmitted;
          case CopyBroke => out := Escaped(FromCopy);
          case SelfCancelled => out, log, end := OnCancel(Ended(SelfCancelled), 0, env);
        }
      case TimedOut(copy) => out, log, end := OnTimeout(copy, env);
      case Interrupted(copy, cancels) => out, log, end := OnCancel(copy, cancels, env);
    }
  }

  // ---------------------------------------------------------------- the polling phase

  /** A poll that neither ends the flow nor reaches the deadline. */
  predicate Continues(p: Poll, deadline: int) {
    p.query in {Progress, QueryFailed} && p.now < deadline && !p.sleepCancelled
  }

  /** The first poll that does not continue; the length of the script if there is none. */
  function StopAt(polls: seq<Poll>, deadline: int): (n: nat)
    ensures n <= |polls| && (forall i :: 0 <= i < n ==> Continues(polls[i], deadline))
    ensures n < |polls| ==> !Continues(polls[n], deadline)
  {
    if polls == [] || !Continues(polls[0], deadline) then 0 else 1 + StopAt(polls[1..], deadline)
  }

  lemma {:induction false} StopAtIs(polls: seq<Poll>, deadline: int, n: nat)
    requires n <= |polls| && forall i :: 0 <= i < n ==> Continues(polls[i], deadline)
    requires n < |polls| ==> !Continues(polls[n], deadline)
    ensures StopAt(polls, deadline) == n
  {
    if n > 0 {
      StopAtIs(polls[1..], deadline, n - 1);
    }
  }

  /** Where the polling phase leads when `_abandon` does not fail. */
  function PollVerdict(env: Script, deadline: int): Outcome {
    var n := StopAt(env.polls, deadline);
    if n == |env.polls| then Polling else
      match env.polls[n].query
      case TaskReady => ReadyDone
      case TaskFailed => PrefetchError(CopyFailed)
      case VerifyFailed => PrefetchError(ReplicaMissing)
      case QueryBroke => Escaped(FromQuery)
      case QueryCancelled => Cancelled
      case _ => if env.polls[n].now >= deadline then PrefetchError(PollTimeout) else Cancelled
  }

  /** Poll `n` is reached and its query ends in one of `ends`. */
  ghost predicate Reached(polls: seq<Poll>, deadline: int, n: nat, ends: set<QueryEnd>) {
    && n < |polls| && polls[n].query in ends
    && forall i :: 0 <= i < n ==>
         polls[i].query in {Progress, QueryFailed} && polls[i].now < deadline && !polls[i].sleepCancelled
  }

  ghost predicate Stops(polls: seq<Poll>, deadline: int, end: QueryEnd) {
    exists n: nat :: Reached(polls, deadline, n, {end})
  }

  /** A poll without a result comes after the deadline. */
  ghost predicate RunsOut(polls: seq<Poll>, deadline: int) {
    exists n: nat :: Reached(polls, deadline, n, {Progress, QueryFailed}) && polls[n].now >= deadline
  }

  /** The query, or the sleep after one without a result, is cancelled. */
  ghost predicate CutShort(polls: seq<Poll>, deadline: int) {
    || Stops(polls, deadline, QueryCancelled)
    || exists n: nat :: Reached(polls, deadline, n, {Progress, QueryFailed})
                        && polls[n].now < deadline && polls[n].sleepCancelled
  }

  /** How the polling phase ends, told from the script. */
  ghost predicate PollEnds(env: Script, deadline: int, out: Outcome) {
    var polls, first, second := env.polls, env.first, env.second;
    match out
    case ReadyDone => Stops(polls, deadline, TaskReady)
    case PrefetchError(CopyFailed) => Stops(polls, deadline, TaskFailed)
    case PrefetchError(ReplicaMissing) => Stops(polls, deadline, VerifyFailed)
    case PrefetchError(PollTimeout) => RunsOut(polls, deadline) && first.Fine?
    case Escaped(FromQuery) => Stops(polls, deadline, QueryBroke)
    case Escaped(FromAbandon) =>
      || (CutShort(polls, deadline) && first.AbandonBroke?)
      || (RunsOut(polls, deadline) && (first.AbandonBroke? || (first.AbandonCancelled? && second.AbandonBroke?)))
    case Cancelled =>
      || (CutShort(polls, deadline) && !first.AbandonBroke?)
      || (RunsOut(polls, deadline) && first.AbandonCancelled? && !second.AbandonBroke?)
    case Polling =>
      forall i :: 0 <= i < |polls| ==>
        polls[i].query in {Progress, QueryFailed} && polls[i].now < deadline && !polls[i].sleepCancelled
    case _ => false
  }

  /** The poll that an end goes back to. */
  predicate Decides(p: Poll, deadline: int, env: Script, out: Outcome) {
    var late := p.query in {Progress, QueryFailed} && p.now >= deadline;
    var cut := p.query.QueryCancelled? || (p.query in {Progress, QueryFailed} && p.now < deadline && p.sleepCancelled);
    match out
    case ReadyDone => p.query.TaskReady?
    case PrefetchError(CopyFailed) => p.query.TaskFailed?
    case PrefetchError(ReplicaMissing) => p.query.VerifyFailed?
    case PrefetchError(PollTimeout) => late && env.first.Fine?
    case Escaped(FromQuery) => p.query.QueryBroke?
    case Escaped(FromAbandon) =>
      (cut && env.first.AbandonBroke?)
      || (late && (env.first.AbandonBroke? || (env.first.AbandonCancelled? && env.second.AbandonBroke?)))
    case Cancelled =>
      (cut && !env.first.AbandonBroke?) || (late && env.first.AbandonCancelled? && !env.second.AbandonBroke?)
    case _ => false
  }

  lemma StopOf(env: Script, deadline: int, out: Outcome) returns (n: nat)
    requires PollEnds(env, deadline, out) && !out.Polling?
    ensures n < |env.polls| && Decides(env.polls[n], deadline, env, out)
    ensures forall i :: 0 <= i < n ==> Continues(env.polls[i], deadline)
  {
    var polls := env.polls;
    if Stops(polls, deadline, TaskReady) && out.ReadyDone? {
      n :| Reached(polls, deadline, n, {TaskReady});
    } else if Stops(polls, deadline, TaskFailed) && out == PrefetchError(CopyFailed) {
      n :| Reached(polls, deadline, n, {TaskFailed});
    } else if Stops(polls, deadline, VerifyFailed) && out == PrefetchError(ReplicaMissing) {
      n :| Reached(polls, deadline, n, {VerifyFailed});
    } else if Stops(polls, deadline, QueryBroke) && out == Escaped(FromQuery) {
      n :| Reached(polls, deadline, n, {QueryBroke});
    } else if RunsOut(polls, deadline) {
      n :| Reached(polls, deadline, n, {Progress, QueryFailed}) && polls[n].now >= deadline;
      LateIsNotCut(polls, deadline, n);
    } else if Stops(polls, deadline, QueryCancelled) {
      n :| Reached(polls, deadline, n, {QueryCancelled});
    } else {
      n :| Reached(polls, deadline, n, {Progress, QueryFailed}) && polls[n].now < deadline && polls[n].sleepCancelled;
    }
  }

  lemma LateIsNotCut(polls: seq<Poll>, deadline: int, n: nat)
    requires Reached(polls, deadline, n, {Progress, QueryFailed}) && polls[n].now >= deadline
    ensures !CutShort(polls, deadline)
  { }

  /** How the flow ends, told from the script. */
  ghost predicate Ends(env: Script, deadline: int, out: Outcome) {
    if env.wait.Completed? && env.wait.end.Handed? then PollEnds(env, deadline, out) else CopyEnds(env, out)
  }

  /** The script decides how the flow ends: no two ends are possible. */
  lemma EndsOnce(env: Script, deadline: int, a: Outcome, b: Outcome)
    requires Ends(env, deadline, a) && Ends(env, deadline, b)
    ensures a == b
  {
    if env.wait.Completed? && env.wait.end.Handed? {
      if !a.Polling? && !b.Polling? {
        var n := StopOf(env, deadline, a);
        var m := StopOf(env, deadline, b);
        assert n == m;
      } else if !a.Polling? {
        var n := StopOf(env, deadline, a);
      } else if !b.Polling? {
        var m := StopOf(env, deadline, b);
      }
    }
  }

  /** The polling loop with its single exit through `except CancelledError`. */
  method PollTask(env: Script, h: Handle, deadline: int) returns (out: Outcome, log: seq<Op>)
    ensures env.first.Fine? ==> out == PollVerdict(env, deadline)
    ensures !env.first.Fine? ==> out in {PollVerdict(env, deadline), Escaped(FromAbandon), Cancelled}
    ensures log == [] <==> PollVerdict(env, deadline) in {Polling, Escaped(FromQuery)}
    ensures forall i :: 0 <= i < |log| ==> log[i] in {Terminal(h), Abandon(h)}
    ensures log == [Terminal(h)] || forall i :: 0 <= i < |log| ==> log[i] == Abandon(h)
    ensures log == [Terminal(h)] ==> out == PollVerdict(env, deadline)
    ensures log == [Terminal(h)] <==>
      PollVerdict(env, deadline) in {ReadyDone, PrefetchError(CopyFailed), PrefetchError(ReplicaMissing)}
    ensures |log| <= if env.first.AbandonCancelled? then 2 else 1
    ensures out.Polling? || out == Escaped(FromQuery) <==> PollVerdict(env, deadline) in {Polling, Escaped(FromQuery)}
    ensures out.PrefetchError? ==> |log| == 1
    ensures PollEnds(env, deadline, out)
  {
    log := [];
    var i := 0;
    while i < |env.polls|
      invariant 0 <= i <= |env.polls| && log == []
      invariant forall j :: 0 <= j < i ==> Continues(env.polls[j], deadline)
    {
      var p := env.polls[i];
      if !Continues(p, deadline) {
        StopAtIs(env.polls, deadline, i);
      }
      assert Reached(env.polls, deadline, i, {p.query}) && Reached(env.polls, deadline, i, {p.query, QueryFailed});
      assert p.query.Progress? || p.query.QueryFailed? ==> Reached(env.polls, deadline, i, {Progress, QueryFailed});
      match p.query {
        case TaskReady => return ReadyDone, [Terminal(h)];
        case TaskFailed => return PrefetchError(CopyFailed), [Terminal(h)];
        case VerifyFailed => return PrefetchError(ReplicaMissing), [Terminal(h)];
        case QueryBroke => return Escaped(FromQuery), [];
        case QueryCancelled => return AfterAbandon(Some(h), env.first, Cancelled), [Abandon(h)];
        case Progress =>
        case QueryFailed =>
      }
      if p.now >= deadline {
        if env.first.AbandonCancelled? {
          // The cancellation of this abandon is caught by the loop's own handler, which abandons again.
          return AfterAbandon(Some(h), env.second, Cancelled), [Abandon(h), Abandon(h)];
        }
        return AfterAbandon(Some(h), env.first, PrefetchError(PollTimeout)), [Abandon(h)];
      }
      if p.sleepCancelled {
        return AfterAbandon(Some(h), env.first, Cancelled), [Abandon(h)];
      }
      i := i + 1;
    }
    StopAtIs(env.polls, deadline, i);
    out := Polling;
  }

  // ---------------------------------------------------------------- the whole flow

  /** The handles that a run forgets, told from its script. */
  predicate Forgets(env: Script, deadline: int) {
    if Handing(env) then PollVerdict(env, deadline) in {Polling, Escaped(FromQuery)} else CopyForgets(env)
  }

  /** No external cancellation and no programming error anywhere in the script. */
  predicate Undisturbed(env: Script) {
    && !env.wait.Interrupted? && env.wait != Completed(SelfCancelled) && !FinalEnd(env).CopyBroke?
    && env.drain.cancelsBefore == 0 && !env.drain.cancelAfter
    && env.first.Fine?
    && forall i :: 0 <= i < |env.polls| ==>
         !env.polls[i].sleepCancelled && env.polls[i].query !in {QueryBroke, QueryCancelled}
  }

  /**
   No leaked task handle. In an undisturbed run the handle is settled exactly once; under external cancellation a
   handle that the drained copy returned is abandoned. A handle is forgotten exactly when `Forgets` says so.
   */
  method RunAfterExists(env: Script, deadline: int) returns (out: Outcome, log: seq<Op>, end: CopyEnd)
    ensures end == FinalEnd(env)
    ensures Leaked(end, log) <==> Forgets(env, deadline)
    ensures Undisturbed(env) && !out.Polling? ==> Settled(end, log)
    ensures out.ReadyDone? || out.PrefetchError? || out.NotAdmitted? ==> Settled(end, log)
    ensures !Handing(env) && FinalEnd(env).Handed? ==> log == [Abandon(end.handle)]
    ensures out.Cancelled? ==> Released(end, log) || CopyForgets(env)
    ensures env.first.Fine? ==> out == if Handing(env) then PollVerdict(env, deadline) else CopyVerdict(env)
    ensures Ends(env, deadline, out)
  {
    var handle;
    handle, out, log, end := AwaitCopy(env);
    if handle.Some? {
      out, log := PollTask(env, handle.value, deadline);
    }
  }

  /** Both ways to forget a carried handle occur, for every handle; the second ends as a plain cancellation. */
  lemma BothForget(h: Handle, polls: seq<Poll>, deadline: int)
    ensures var drain := Drain(SubmitError(Some(h)), 0, false);
      var escaping := Script(Interrupted(Running(false), 1), drain, polls, Fine, Fine);
      Forgets(escaping, deadline) && CopyVerdict(escaping) == Escaped(SubmitDuringShutdown)
    ensures var replaced := Script(TimedOut(Running(false)), Drain(SubmitError(Some(h)), 0, true), polls, Fine, Fine);
      Forgets(replaced, deadline) && CopyVerdict(replaced) == Cancelled
  { }
}
