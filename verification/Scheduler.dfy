/**
 The router's priority scheduler (go/router/pq.go) as a state machine. Every mutex section of the Go
 code is one step, and `finishOne` is two steps because it releases the lock in the middle. Clients,
 execution goroutines and any number of scheduling loops interleave freely between steps.
 */
module Scheduler {
  import opened Base

  /** The fixed part of a `pqRequest`. Its `seq` is issued under the lock, so a Job also stands for the pointer. */
  datatype Job = Job(priority: int, ticket: nat, model: string)

  /** What `exec` returned. An error may wrap `errPreempted`. */
  datatype ExecResult = Done | Failed(code: int, wrapsPreempted: bool)

  /** The cause of an execution context; the first cancel decides it. */
  datatype Cause = Preempted | Abandoned | ParentDone | Returned(result: ExecResult)

  /** Where the goroutine inside `Submit` stands. */
  datatype Client = Entering | Selecting | Received(result: ExecResult) | Cancelled

  /** The mutable part of a `pqRequest`; `sent` lists every value ever put on the `done` channel. */
  datatype Cell = Cell(
    started: bool, cause: Option<Cause>, result: Option<ExecResult>,
    abandoned: bool, sent: seq<ExecResult>, client: Client)

  /**
   The scheduler and the goroutines around it. `transit` holds the requests between the two sections of
   `finishOne` with the local copy of `abandoned`; `issued` lists the requests in submission order, so its
   length is the `seq` counter; `withdrawn` and `dropped` record the two silent exits.
   */
  datatype State = State(
    maxInFlight: int, issued: seq<Job>, queue: seq<Job>, inFlight: set<Job>, bp: map<string, int>,
    cells: map<Job, Cell>, ctxDone: bool,
    transit: map<Job, bool>, withdrawn: set<Job>, dropped: set<Job>)

  datatype Step =
    | Submit(priority: int, model: string)
    | Preempt(job: Job, now: int, victim: Option<Job>)
    | Start(now: int)
    | ExecReturn(job: Job, result: ExecResult)
    | FinishFirst(job: Job)
    | FinishSecond(job: Job)
    | Cancel(job: Job)
    | Receive(job: Job)
    | SetMax(n: int)
    | SetBackpressure(model: string, until: int)
    | ParentCancel

  // ---------------------------------------------------------------- the waiting queue

  /** Queue order: higher priority first, then submission order. */
  predicate Before(a: Job, b: Job) {
    a.priority > b.priority || (a.priority == b.priority && a.ticket < b.ticket)
  }

  ghost predicate Sorted(q: seq<Job>) {
    forall i, j :: 0 <= i < j < |q| ==> Before(q[i], q[j])
  }

  /** One insertion of a stable sort: walk left past every entry that `x` precedes. */
  function Insert(q: seq<Job>, x: Job): seq<Job> {
    if q == [] || !Before(x, q[|q| - 1]) then q + [x] else Insert(q[..|q| - 1], x) + [q[|q| - 1]]
  }

  function SortStable(q: seq<Job>): seq<Job> {
    if q == [] then [] else Insert(SortStable(q[..|q| - 1]), q[|q| - 1])
  }

  lemma {:induction false} InsertMultiset(q: seq<Job>, x: Job)
    ensures multiset(Insert(q, x)) == multiset(q) + multiset{x}
  {
    if q != [] && Before(x, q[|q| - 1]) {
      InsertMultiset(q[..|q| - 1], x);
      assert q == q[..|q| - 1] + [q[|q| - 1]];
    }
  }

  lemma {:induction false} SortMultiset(q: seq<Job>)
    ensures multiset(SortStable(q)) == multiset(q)
  {
    if q != [] {
      SortMultiset(q[..|q| - 1]);
      InsertMultiset(SortStable(q[..|q| - 1]), q[|q| - 1]);
      assert q == q[..|q| - 1] + [q[|q| - 1]];
    }
  }

  lemma InsertMembers(q: seq<Job>, x: Job)
    ensures forall y :: y in Insert(q, x) <==> y in q || y == x
  {
    InsertMultiset(q, x);
    forall y ensures y in Insert(q, x) <==> y in q || y == x {
      assert y in Insert(q, x) <==> y in multiset(Insert(q, x));
    }
  }

  lemma {:induction false} InsertKeepsSorted(q: seq<Job>, x: Job)
    requires Sorted(q)
    requires forall y :: y in q ==> y.ticket != x.ticket
    ensures Sorted(Insert(q, x))
  {
    if q != [] && Before(x, q[|q| - 1]) {
      var front := q[..|q| - 1];
      InsertKeepsSorted(front, x);
      InsertMembers(front, x);
      var r := Insert(front, x);
      forall i | 0 <= i < |r| ensures Before(r[i], q[|q| - 1]) {
        assert r[i] in r;
      }
    }
  }

  lemma {:induction false} SortOfSorted(q: seq<Job>)
    requires Sorted(q)
    ensures SortStable(q) == q
  {
    if q != [] {
      var front := q[..|q| - 1];
      SortOfSorted(front);
      assert |q| >= 2 ==> Before(q[|q| - 2], q[|q| - 1]);
    }
  }

  /** What `insertLocked` does: append, then sort the whole slice. */
  lemma AppendAndSort(q: seq<Job>, x: Job)
    requires Sorted(q)
    ensures SortStable(q + [x]) == Insert(q, x)
  {
    assert (q + [x])[..|q + [x]| - 1] == q;
    SortOfSorted(q);
  }

  lemma SortedSameHead(a: seq<Job>, b: seq<Job>)
    requires Sorted(a) && Sorted(b) && multiset(a) == multiset(b) && a != [] && b != []
    ensures a[0] == b[0]
  {
    var x, y := a[0], b[0];
    assert x in multiset(b) && y in multiset(a);
    var i :| 0 <= i < |b| && b[i] == x;
    var j :| 0 <= j < |a| && a[j] == y;
    assert i != 0 ==> Before(y, x);
    assert j != 0 ==> Before(x, y);
  }

  /** A queue has only one sorted arrangement, so the sorting algorithm does not matter. */
  lemma {:induction false} SortedUnique(a: seq<Job>, b: seq<Job>)
    requires Sorted(a) && Sorted(b) && multiset(a) == multiset(b)
    ensures a == b
  {
    assert |a| == |multiset(a)| && |b| == |multiset(b)|;
    if a != [] {
      SortedSameHead(a, b);
      assert a == [a[0]] + a[1..] && b == [b[0]] + b[1..];
      assert multiset(a[1..]) == multiset(a) - multiset{a[0]};
      assert multiset(b[1..]) == multiset(b) - multiset{b[0]};
      SortedUnique(a[1..], b[1..]);
    }
  }

  predicate Blocked(bp: map<string, int>, model: string, now: int) {
    model in bp && now < bp[model]
  }

  /** Index of the first waiter whose model is not under backpressure, or |q|. */
  function FirstEligible(q: seq<Job>, bp: map<string, int>, now: int): (i: nat)
    ensures i <= |q|
    ensures i < |q| ==> !Blocked(bp, q[i].model, now)
    ensures forall k :: 0 <= k < i ==> Blocked(bp, q[k].model, now)
  {
    if q == [] || !Blocked(bp, q[0].model, now) then 0 else 1 + FirstEligible(q[1..], bp, now)
  }

  function Without(q: seq<Job>, i: nat): seq<Job>
    requires i < |q|
  {
    q[..i] + q[i + 1..]
  }

  lemma WithoutMembers(q: seq<Job>, i: nat)
    requires i < |q| && Sorted(q)
    ensures Sorted(Without(q, i))
    ensures forall y :: y in Without(q, i) <==> y in q && y != q[i]
  {
    var w := Without(q, i);
    forall y | y in q && y != q[i] ensures y in w {
      var k :| 0 <= k < |q| && q[k] == y;
      assert k < i ==> w[k] == y;
      assert k > i ==> w[k - 1] == y;
    }
  }

  // ---------------------------------------------------------------- steps

  /** `victim` precedes `r` in preemption order: lower priority, then the latest submission. */
  predicate Worse(victim: Job, r: Job) {
    victim.priority < r.priority || (victim.priority == r.priority && victim.ticket > r.ticket)
  }

  ghost predicate IsLeast(s: set<Job>, v: Job) {
    v in s && forall r :: r in s && r != v ==> Worse(v, r)
  }

  /** Whether `maybePreempt` for `job` cancels `victim`, or nobody. */
  ghost predicate PreemptTarget(s: State, job: Job, now: int, victim: Option<Job>) {
    if |s.inFlight| < s.maxInFlight || Blocked(s.bp, job.model, now) || s.inFlight == {} then
      victim == None
    else
      exists v :: IsLeast(s.inFlight, v) &&
        victim == if job.priority > v.priority && v in s.cells && s.cells[v].started then Some(v) else None
  }

  function FirstCause(c: Cell, cause: Cause): Cell {
    if c.cause.None? then c.(cause := Some(cause)) else c
  }

  function StartOne(s: State, i: nat): State
    requires i < |s.queue| && s.queue[i] in s.cells
  {
    var job := s.queue[i];
    s.(queue := Without(s.queue, i),
       inFlight := s.inFlight + {job},
       cells := s.cells[job := s.cells[job].(
         started := true, result := None, cause := if s.ctxDone then Some(ParentDone) else None)])
  }

  ghost predicate QueueKnown(s: State) {
    forall j :: j in s.queue ==> j in s.cells
  }

  function StartEligible(s: State, now: int): State
    requires QueueKnown(s)
    decreases |s.queue|
  {
    var i := FirstEligible(s.queue, s.bp, now);
    if |s.inFlight| < s.maxInFlight && i < |s.queue| then
      assert s.queue[i] in s.queue;
      var s1 := StartOne(s, i);
      assert QueueKnown(s1) by {
        forall j | j in s1.queue ensures j in s1.cells { assert j in s.queue; }
      }
      StartEligible(s1, now)
    else s
  }

  /** `finishOne` requeues a request whose execution failed in a context cancelled by preemption. */
  predicate WantsRequeue(c: Cell)
    requires c.result.Some? && c.cause.Some?
  {
    c.result.value.Failed? &&
    (c.cause.value.Preempted? ||
     (c.cause.value.Returned? && c.cause.value.result.Failed? && c.cause.value.result.wrapsPreempted))
  }

  ghost predicate Enabled(s: State, step: Step) {
    match step
    case Submit(_, _) => true
    case Preempt(job, now, victim) =>
      job in s.cells && s.cells[job].client.Entering? && PreemptTarget(s, job, now, victim)
    case Start(_) => QueueKnown(s)
    case ExecReturn(job, _) => job in s.inFlight && job in s.cells && s.cells[job].result.None?
    case FinishFirst(job) => job in s.inFlight && job in s.cells && s.cells[job].result.Some?
    case FinishSecond(job) =>
      job in s.transit && job in s.cells && s.cells[job].result.Some? && s.cells[job].cause.Some?
    case Cancel(job) => job in s.cells && s.cells[job].client.Selecting?
    case Receive(job) => job in s.cells && s.cells[job].client.Selecting? && s.cells[job].sent != []
    case SetMax(_) => true
    case SetBackpressure(_, _) => true
    case ParentCancel => true
  }

  function ApplySubmit(s: State, priority: int, model: string): State {
    var job := Job(priority, |s.issued| + 1, model);
    s.(issued := s.issued + [job],
       queue := Insert(s.queue, job),
       cells := s.cells[job := Cell(false, None, None, false, [], Entering)])
  }

  function ApplyPreempt(s: State, job: Job, victim: Option<Job>): State
    requires job in s.cells && (victim.Some? ==> victim.value in s.cells)
  {
    var cells := s.cells[job := s.cells[job].(client := Selecting)];
    if victim.None? then s.(cells := cells)
    else s.(cells := cells[victim.value := FirstCause(cells[victim.value], Preempted)])
  }

  function ApplyExecReturn(s: State, job: Job, result: ExecResult): State
    requires job in s.cells
  {
    s.(cells := s.cells[job := FirstCause(s.cells[job], Returned(result)).(result := Some(result))])
  }

  function ApplyFinishFirst(s: State, job: Job): State
    requires job in s.cells
  {
    s.(inFlight := s.inFlight - {job}, transit := s.transit[job := s.cells[job].abandoned])
  }

  function ApplyFinishSecond(s: State, job: Job): State
    requires job in s.transit && job in s.cells && s.cells[job].result.Some? && s.cells[job].cause.Some?
  {
    var s1 := s.(transit := s.transit - {job});
    var c := s.cells[job];
    if s.transit[job] then s1.(dropped := s.dropped + {job})
    else if WantsRequeue(c) then s1.(queue := Insert(s.queue, job))
    else s1.(cells := s.cells[job := c.(sent := c.sent + [c.result.value])])
  }

  function IndexOf(q: seq<Job>, job: Job): (i: nat)
    ensures i <= |q| && (i < |q| <==> job in q) && (i < |q| ==> q[i] == job)
  {
    if q == [] || q[0] == job then 0 else 1 + IndexOf(q[1..], job)
  }

  function ApplyCancel(s: State, job: Job): State
    requires job in s.cells
  {
    var c := s.cells[job].(client := Cancelled);
    var i := IndexOf(s.queue, job);
    if i < |s.queue| then
      s.(queue := Without(s.queue, i), withdrawn := s.withdrawn + {job}, cells := s.cells[job := c])
    else if c.started then
      s.(cells := s.cells[job := FirstCause(c.(abandoned := true), Abandoned)])
    else
      s.(cells := s.cells[job := c])
  }

  function Apply(s: State, step: Step): State
    requires Enabled(s, step)
  {
    match step
    case Submit(priority, model) => ApplySubmit(s, priority, model)
    case Preempt(job, _, victim) => ApplyPreempt(s, job, victim)
    case Start(now) => StartEligible(s, now)
    case ExecReturn(job, result) => ApplyExecReturn(s, job, result)
    case FinishFirst(job) => ApplyFinishFirst(s, job)
    case FinishSecond(job) => ApplyFinishSecond(s, job)
    case Cancel(job) => ApplyCancel(s, job)
    case Receive(job) =>
      s.(cells := s.cells[job := s.cells[job].(client := Received(s.cells[job].sent[0]))])
    case SetMax(n) => s.(maxInFlight := if n <= 0 then 1 else n)
    case SetBackpressure(model, until) => s.(bp := s.bp[model := until])
    case ParentCancel =>
      s.(ctxDone := true,
         cells := map j | j in s.cells ::
           if j in s.inFlight then FirstCause(s.cells[j], ParentDone) else s.cells[j])
  }
}
