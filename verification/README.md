# Lake: verified models of routing, replication, prefetch and batching

This project models the parts of Lake where state is shared, replicated or raced for, and proves what they keep in
every run. `dafny verify dfyconfig.toml` checks all of it.

| files | component |
|---|---|
| `Scheduler*.dfy`, `PQScheduler.dfy` | the router's preemptive priority scheduler (`go/router/pq.go`) |
| `Views.dfy`, `ViewMirror.dfy`, `ViewSync*.dfy` | the position-view mirror, its resume protocol and the control plane behind it (`go/router/mirror.go`, `go/router/viewsync.go`, `rust/controlplane/src`) |
| `PrefixHash.dfy` | the block hash chain and the lookup over it (`go/router/prefixhash.go`) |
| `Engine*.dfy`, `TaskEngine.dfy` | the intent table, queue, consumers, receipts and shutdown of the task engine (`kvcm/kvcm/task_engine.py`) |
| `TransferGate.dfy`, `Prefetch.dfy` | the transfer gate and the clean-up of task handles (`kvcm/kvcm/task_engine.py`, `kvcm/kvcm/flows/prefetch.py`) |
| `Autoscale.dfy`, `Fleet.dfy`, `Affinity.dfy` | scaling decisions, the node registry, and affinity routing (`go/router/autoscale.go`, `go/router/affinity.go`) |
| `Attention.dfy` | reference causal attention over the reals (`python/lake/kernels/attn_ref.py`) |
| `InputBatch.dfy`, `InputBuffers.dfy` | ragged batches laid out in static buffers (`python/lake/engine`) |
| `Keepalive.dfy`, `KeepaliveLoop.dfy` | bounded lease renewal (`kvcm/kvcm/loops.py`, `kvcm/kvcm/ledger.py`) |

## How it is built

Each concurrent component is a state machine on values: a `State`, a `Step` for every atomic section another thread can
interleave with, and theorems over all runs. A lemma whose name ends in `Exactly` says what comes out in terms of the
steps, the script or the inputs, and not of the functions that compute it. Beside the machine stands the source's own
form, a class or a method with the same fields, branches and loops, whose contract ties each call to the machine.
Locks, channels, semaphores and table operations are atomic; clocks never go back; results of remote calls are
arbitrary inputs.

## What turned out to be false

Each of these has a lemma with a failing input and one with the exact condition.

- A request whose client has gone can be queued again (`ZombieRun`). In a run this happens exactly when the cancel
  lands between the two sections of `finishOne` of an execution lost to a preemption (`ZombieExact`). It then runs at
  most once more (`ZombieAtMostOnce`).
- The control plane decides by numbers alone whether a resuming mirror gets a replay. After a restart or a checkpoint
  restore it can replay onto a mirror of another life, which then reports the present number with wrong contents
  (`RestartIsReached`, `RestoreIsReached`, `ReachedDiverge`). For every base, end, floor and resume number, all mirrors
  of another life come out right exactly when the server falls back to a snapshot (`ResumeSafeExactly`). Comments in
  `rust/controlplane/src` expect every disconnected subscriber to fall back after a restore; a subscriber at the number
  of the restore does not, also not after further commits.
- The flat hash index agrees with longest-prefix match exactly for blocks of up to eight tokens (`LawExactly`). From
  nine tokens on it fails without any collision (`LargeBlocksConfusePositions`), because a first block can spell a
  digest and a later block.
- A task handle can be forgotten although nothing fails in the flow itself (`BothForget`): a submission error that
  carries it is not caught while the flow is being cancelled, and it is replaced by a plain cancellation when a cancel
  lands between the end of the drained copy and the flow's next step. `RunAfterExists` states exactly when a handle is
  forgotten.
- A sweep can delete a keepalive registration that is still inside its window, by expiring a key that was deleted and
  registered again (`LostRegistration`, `LostWherever`) or by dropping one that was registered after the pool's answer
  (`LostByDrop`, `LostAtDrop`). In every run a sweep deletes a row inside its window exactly when it drops it or when
  its key was deleted after the snapshot, unless the row was put back with a date out of the window (`LostExactly`).
- A row can be renewed past its window (`RenewedPastWindow`). In every run this happens exactly to a row that was put
  back after the snapshot with a date out of the window (`RenewedPastExactly`), and without such restores never
  (`LostExactlyIfDeleted`).

## Model

| member | source | states |
|---|---|---|
| SchedulerTheorems.Conservation | go/router/pq.go:85-121 | in every run there are as many requests as submissions, each in exactly one place, and one that left undelivered was cancelled by its own client |
| SchedulerTheorems.OneSuccessOneDelivery | go/router/pq.go:262-289 | over a whole run an execution of a request returns nil at most once and its done channel gets at most one value |
| SchedulerTheorems.SuccessIsFinal | go/router/pq.go:262-289 | after success a request is never started, executed or queued again |
| SchedulerTheorems.SuccessesBounded | go/router/pq.go:227-289 | at most one success from any reachable state, none after one |
| SchedulerTheorems.SendsBounded | go/router/pq.go:262-289 | values already in the done channel plus those sent later never exceed its capacity of one |
| SchedulerHistory.FinishExactly | go/router/pq.go:262-289 | in every run, told from its steps: the end of an execution drops the request if and only if its client cancelled before the first section, queues it again if and only if it failed and was first cancelled by a preemption or returned an error that wraps one, and otherwise delivers what the execution returned |
| SchedulerHistory.ZombieExact | go/router/pq.go:262-289 | in every run, a second section requeues a request whose client has gone if and only if the cancel lies between the two sections and the execution was lost to a preemption |
| SchedulerHistory.CauseIsFirstCancel | go/router/pq.go:248-253 | the cause of a context is the first cancel since the last start, the result what that execution returned |
| SchedulerHistory.FlagIsGone | go/router/pq.go:262-270 | the copied flag says whether the client had cancelled by then |
| SchedulerHistory.SettingsAreTheLast | go/router/pq.go:85-150 | the n-th submission is request n with its priority and model; limit and backpressure are the last ones set |
| SchedulerHistory.StartExactly | go/router/pq.go:227-254 | after any run a pass starts only waiters whose model is free, none ahead of a free one with a higher priority or an earlier ticket, up to the last limit, and leaves no free waiter below it |
| SchedulerHistory.PreemptExactly | go/router/pq.go:294-313 | after any run a newcomer preempts if and only if the limit is reached, its model is free and someone in flight has a lower priority; the victim has the lowest priority and the latest ticket |
| SchedulerHistory.NeverStuck | go/router/pq.go:179-289 | every waiter, execution and section can go on |
| SchedulerTheorems.ZombieFlags | go/router/pq.go:262-289 | the same at one second section, told from the flag and its copy |
| SchedulerTheorems.LateMeans | go/router/pq.go:262-289 | over a run, the flag was set after its copy was taken exactly when a cancel follows the last first section |
| SchedulerTheorems.ZombieAtMostOnce | go/router/pq.go:85-121 | after its client cancelled, a request is executed again at most once |
| SchedulerTheorems.CancelledBeforeFinish | go/router/pq.go:262-289 | a cancel before the first section means no further start |
| SchedulerTheorems.ZombieRun | go/router/pq.go:262-289 | nine steps from an empty scheduler to a queued request whose client has returned |
| SchedulerTheorems.FirstIsGreatest | go/router/pq.go:227-254 | the next start is the greatest waiter not under backpressure |
| SchedulerTheorems.StartWithinLimit | go/router/pq.go:227-254 | starts keep the in-flight count within the current limit, also after it was lowered |
| SchedulerTheorems.StartExhausts | go/router/pq.go:227-254 | a pass ends only at the limit or with every waiter under backpressure |
| SchedulerTheorems.StartInOrder | go/router/pq.go:227-254 | nobody starts ahead of an eligible request that precedes it, so equal priorities start in submission order even after preemption |
| SchedulerTheorems.PreemptionDetermined | go/router/pq.go:294-313 | preemption has exactly one answer whatever the map order |
| SchedulerTheorems.VictimIsLowest | go/router/pq.go:294-313 | a victim is minimal in flight, the latest of equals, and strictly below the newcomer |
| SchedulerTheorems.PreemptionHappens | go/router/pq.go:294-313 | at full capacity a newcomer that outranks someone does preempt |
| SchedulerRuns.StepKeepsInv | go/router/pq.go:85-289 | every step keeps the sorted queue and every request in one consistent place |
| SchedulerRuns.RunKeepsInv | go/router/pq.go:85-289 | the same for every run |
| SchedulerRuns.StepEvolves | go/router/pq.go:85-289 | every step moves every request along the allowed changes of its own view |
| Scheduler.AppendAndSort | go/router/pq.go:216-224 | appending and sorting stably equals ordered insertion |
| Scheduler.SortedUnique | go/router/pq.go:216-224 | a queue sorted by priority and ticket is determined by its members |
| Scheduler.InsertKeepsSorted | go/router/pq.go:216-224 | insertion of a new ticket keeps the order |
| Scheduler.SortMultiset | go/router/pq.go:216-224 | sorting keeps every request |
| Scheduler.FirstEligible | go/router/pq.go:227-254 | the first queue place whose model is not under backpressure |
| PQSchedulers.PQScheduler.constructor | go/router/pq.go:69-81 | an empty scheduler with a limit of at least one |
| PQSchedulers.PQScheduler.InsertLocked | go/router/pq.go:216-224 | the append-and-sort of the source is the ordered insertion of the machine |
| PQSchedulers.PQScheduler.SubmitInsert | go/router/pq.go:85-104 | the first section of a submission is the machine's step |
| PQSchedulers.PQScheduler.FindVictim | go/router/pq.go:294-313 | the scan over the in-flight map finds the specified victim in any order |
| PQSchedulers.PQScheduler.MaybePreempt | go/router/pq.go:294-313 | the preemption check cancels the specified victim with the preemption cause |
| PQSchedulers.PQScheduler.FindEligible | go/router/pq.go:227-254 | the scan finds the first eligible waiter |
| PQSchedulers.PQScheduler.StartAt | go/router/pq.go:227-254 | moving one waiter to in-flight is the machine's single start |
| PQSchedulers.PQScheduler.StartEligible | go/router/pq.go:227-254 | the start loop is the machine's whole pass |
| PQSchedulers.PQScheduler.ExecReturned | go/router/pq.go:227-254 | the end of an execution records its result |
| PQSchedulers.PQScheduler.FinishOneFirst | go/router/pq.go:262-266 | the first locked section: out of flight, flag copied |
| PQSchedulers.PQScheduler.FinishOneSecond | go/router/pq.go:268-289 | the second part: dropped, requeued or delivered |
| PQSchedulers.PQScheduler.RemoveWaitingLocked | go/router/pq.go:316-324 | exactly the given waiter leaves the queue |
| PQSchedulers.PQScheduler.ClientCancel | go/router/pq.go:107-120 | a client that gives up withdraws a waiting request or abandons a running one |
| PQSchedulers.PQScheduler.SetMaxInFlight | go/router/pq.go:124-132 | the new limit, at least one |
| PQSchedulers.PQScheduler.MarkBackpressure | go/router/pq.go:142-147 | the model is blocked until now plus the time to live and no other model is touched |
| Views.SnapshotRebuilds | go/router/mirror.go:60-98 | a snapshot applied to nothing rebuilds the view exactly, in any order of entries |
| Views.SnapshotExists | rust/controlplane/src/authority.rs:431-467 | every view has a snapshot |
| Views.IncrementExactly | go/router/mirror.go:88-98 | from the events alone: a block is there afterwards if and only if the last event about it is no invalidation, or there is none and it was there; with that event's locations and the kind of the last registration since the last invalidation |
| Views.SnapshotExactly | go/router/mirror.go:63-74 | from the events alone: a snapshot holds exactly the blocks it names, with the last locations and kind |
| Views.UpdateExactly | go/router/mirror.go:60-98 | both for one update, with the number it leads to and the gap it reports |
| ViewMirrors.NestedUnique | go/router/mirror.go:108-143 | without empty pools the nested maps are determined by the flat view |
| ViewMirrors.PutHolds | go/router/mirror.go:108-130 | an upsert in the nested maps is an upsert in the flat view |
| ViewMirrors.RemoveHolds | go/router/mirror.go:132-143 | a delete that drops empty pools is a delete in the flat view |
| ViewMirrors.HitLength | go/router/mirror.go:179-210 | the longest run of leading hashes known in a namespace |
| ViewMirrors.ViewMirror.constructor | go/router/mirror.go:39-41 | an empty mirror at number 0 |
| ViewMirrors.ViewMirror.UpsertLocked | go/router/mirror.go:108-130 | refines the flat upsert; a moved block keeps its kind |
| ViewMirrors.ViewMirror.DeleteLocked | go/router/mirror.go:132-143 | exactly the given block leaves, and its pool with its last block |
| ViewMirrors.ViewMirror.Apply | go/router/mirror.go:60-98 | snapshot, anchor, duplicate, increment or gap; a gap changes nothing |
| ViewMirrors.ViewMirror.PrefixLookup | go/router/mirror.go:179-219 | the hit blocks, their number, and whether all are local |
| ViewSync.ApplyFollows | go/router/mirror.go:13-17 | a message allowed at the cursor keeps the mirror equal to the authority's view there; it reports a gap exactly for an increment past the next number |
| ViewSync.SessionTracks | go/router/viewsync.go:41-66 | a whole session of genuine messages keeps the mirror on the authority's history |
| ViewSyncTheorems.ReplicationSafety | go/router/viewsync.go:16-66 | in every run of commits, restores, restarts, lagging subscribers, drops and reconnects with safe resumes, the mirror is at number 0 or equals the authority's view at its number |
| ViewSyncTheorems.OneLifeReplication | go/router/viewsync.go:16-66 | the same without any condition on resumes in every run in which the authority is not rebuilt |
| ViewSyncTheorems.StepKeepsInv | rust/controlplane/src/lib.rs:328-407 | every step of client and server keeps the mirror, the stream and the broadcast queue consistent |
| ViewSyncTheorems.DeliverFollows | go/router/viewsync.go:41-66 | the server's stream never makes the mirror report a gap |
| ViewSyncTheorems.Convergence | rust/controlplane/src/lib.rs:328-407 | with a connection open and nothing in flight the mirror is the authority's present view |
| ViewSyncTheorems.CatchesUp | rust/controlplane/src/lib.rs:328-407 | from every reachable state an open connection that is left alone brings the mirror to the authority's present view |
| ViewSyncTheorems.ReplaysExactly | rust/controlplane/src/view.rs:50-105 | in every run a resume is answered by the batches after it if and only if it lies in the present life with at most the buffer's capacity of batches after it, and else by a snapshot |
| ViewSyncTheorems.LagKeepsInv | rust/controlplane/src/lib.rs:384-407 | a lagging subscriber is resynchronised by snapshot without losing consistency |
| ViewSyncTheorems.RestoreKeepsInv | rust/controlplane/src/lib.rs:834-880 | a checkpoint restore resets every connected mirror through the broadcast snapshot |
| ViewSyncTheorems.FallbackIsSafe | rust/controlplane/src/view.rs:86-105 | a resume that falls back to a snapshot ends with the right contents whatever the mirror held |
| ViewSyncTheorems.ResumeSafeExactly | rust/controlplane/src/view.rs:86-105 | for every base, end, floor and resume number, all mirrors of another life come out equal to the authority if and only if the server falls back to a snapshot |
| ViewSyncTheorems.StaleResumeDiverges | rust/controlplane/src/view.rs:86-105 | for all numbers that let the server replay, restart or restore, a mirror ends at the present number with a block the authority does not have |
| ViewSyncTheorems.RestartIsReached | rust/controlplane/src/view.rs:86-109 | a run through a restart to such a resume |
| ViewSyncTheorems.RestoreIsReached | rust/controlplane/src/lib.rs:834-880 | a run through a checkpoint restore and a further commit to such a resume |
| ViewSyncTheorems.ReachedDiverge | rust/controlplane/src/view.rs:86-109 | both reached resumes are replayed and go wrong |
| ViewSyncLoop.ViewSyncOnce | go/router/viewsync.go:41-66 | a session subscribes from the mirror's own number and applies the stream up to the first gap |
| ViewSyncLoop.SessionExactly | go/router/viewsync.go:41-66 | a session applies every update up to the first one that is too new, and reports that one |
| ViewSyncLoop.RunViewSync | go/router/viewsync.go:16-39 | each session resumes where the last one stopped, and a delay follows all sessions but those that a gap ended |
| ViewSyncLoop.DelaysExactly | go/router/viewsync.go:16-39 | session by session: a wait follows if and only if there was no gap |
| PrefixHash.ChainBlockHashes | go/router/prefixhash.go:16-39 | the loop yields the digest chain over the blocks, with the default size for a size that is not positive |
| PrefixHash.BlocksJoin | go/router/prefixhash.go:16-39 | the blocks join to the prompt, all full except possibly the last |
| PrefixHash.EncodeInjective | go/router/prefixhash.go:16-39 | the little-endian encoding of token lists is injective |
| PrefixHash.EncodeDecode | go/router/prefixhash.go:16-39 | every byte string of whole words is the encoding of its decoding |
| PrefixHash.EqualInputs | go/router/prefixhash.go:16-39 | up to eight tokens per block, equal hash inputs mean equal blocks and predecessors |
| PrefixHash.EqualHashesEqualPrefixes | go/router/prefixhash.go:16-39 | without collisions among hashed inputs, equal hashes mean the same position and the same prompt up to it |
| PrefixHash.SharedBlocksHit | go/router/mirror.go:172-210 | every block shared with a registered prompt is hit |
| PrefixHash.HitsAreShared | go/router/mirror.go:172-210 | all hits are shared with one registered prompt |
| PrefixHash.LookupIsLongestPrefixMatch | go/router/mirror.go:172-210 | the hit length is the maximum number of leading blocks shared with any registered prompt |
| PrefixHash.LawExactly | go/router/prefixhash.go:16-39 | that law holds for a block size if and only if it is at most eight |
| PrefixHash.LawAtDefault | go/router/prefixhash.go:9-39 | the law holds at the default block size |
| PrefixHash.LargeBlocksConfusePositions | go/router/prefixhash.go:16-39 | for every size from nine on there is a prompt that is hit and shares nothing, with no collision among the hashed inputs |
| EngineTheorems.SingleExecution | kvcm/kvcm/task_engine.py:431-473 | no two consumers ever run the same key at the same time |
| EngineTheorems.QueueIsExclusive | kvcm/kvcm/task_engine.py:240-336 | queued and running records never share a key |
| EngineTheorems.FinishRemovesOwnSlot | kvcm/kvcm/task_engine.py:338-366 | a finish empties only the slot of its own generation |
| EngineTheorems.NoStrandedIntent | kvcm/kvcm/task_engine.py:195-336 | before a shutdown begins and after it has returned every intent is owed an admission, queued before a live consumer, or running |
| EngineTheorems.NeverStranded | kvcm/kvcm/task_engine.py:195-336 | at every moment of every run, also inside callbacks and during a shutdown, every intent is owed an admission, queued before a live consumer, a crash being settled or a drain, running, or being finished |
| EngineTheorems.AcceptingHasConsumer | kvcm/kvcm/task_engine.py:431-473 | while intents are accepted some consumer is alive |
| EngineTheorems.AdmitSettles | kvcm/kvcm/task_engine.py:287-336 | after an admission the record stands in the queue, is being run, or is being finished as failed |
| TaskEngines.RefusedGetsReceipt | kvcm/kvcm/task_engine.py:287-336 | a refused admission, left alone, ends with a failure receipt for its intent and a free slot |
| EngineTheorems.TerminalIsFinal | kvcm/kvcm/task_engine.py:338-366 | a terminal status never changes in any run |
| EngineTheorems.StepKeepsTerminal | kvcm/kvcm/task_engine.py:338-366 | the same for one step, and the record keeps its key |
| EngineTheorems.UnknownOnlyIfEvicted | kvcm/kvcm/task_engine.py:368-378 | a reader whose two lookups are interleaved with anything finds nothing only if the ring overflowed and dropped the receipt |
| EngineTheorems.ReceiptStays | kvcm/kvcm/task_engine.py:338-366 | a receipt stays in every run in which the ring does not overflow with it as the oldest |
| EngineTheorems.OnlyOverflowLoses | kvcm/kvcm/task_engine.py:338-366 | no step but the overflow of the ring loses a receipt |
| EngineTheorems.RingBounded | kvcm/kvcm/task_engine.py:338-366 | the ring is within its bound and every receipt states its generation's terminal status |
| EngineHistory.ReportedExactly | kvcm/kvcm/task_engine.py:431-491 | in every run an intent and its receipt are reported ready if and only if a consumer's execution of that very record succeeded; one that raised, crashed or was cancelled, or was refused, drained or swept, is reported failed |
| EngineHistory.AdmittedExactly | kvcm/kvcm/task_engine.py:287-336 | an owed admission enqueues if and only if intents are accepted and the queue has room, and otherwise fails the record; any other changes nothing |
| EngineHistory.SubmittedExactly | kvcm/kvcm/task_engine.py:263-285 | the thread that finds the slot free creates one pending record and posts one callback, any other leaves no trace |
| EngineHistory.FirstInFirstOut | kvcm/kvcm/task_engine.py:431-491 | over a run, what leaves the queue to be run or failed is what joined it, in the same order |
| EngineHistory.QueueBounded | kvcm/kvcm/task_engine.py:163 | a bounded queue stays within its bound |
| EngineHistory.SweepSettles | kvcm/kvcm/task_engine.py:224-233 | when the shutdown's sweep is through, every intent it listed is settled or still run by a consumer |
| EngineHistory.AcceptsExactly | kvcm/kvcm/task_engine.py:431-473 | in every run the engine has stopped accepting if and only if a shutdown began, or a crash was the third in a row or left no other consumer |
| EngineHistory.NeverStuck | kvcm/kvcm/task_engine.py:195-491 | every callback, consumer and thread can go on |
| EngineTheorems.EvictKeepsRing | kvcm/kvcm/task_engine.py:350-366 | the receipt just written is never the one evicted |
| EngineTheorems.StepKeepsInv | kvcm/kvcm/task_engine.py:195-491 | every step of every thread, callback, consumer and shutdown keeps table, queue, consumers and ring consistent |
| EngineTheorems.RunKeepsInv | kvcm/kvcm/task_engine.py:195-491 | the same for every run |
| EngineTheorems.InitInv | kvcm/kvcm/task_engine.py:195-234 | an engine with at least one consumer starts consistent |
| EngineRuns.StepKeepsHeap | kvcm/kvcm/task_engine.py:240-491 | every record queued or being run is the pending owner of its slot |
| TaskEngines.TaskEngine.constructor | kvcm/kvcm/task_engine.py:120-172 | an empty engine with a ring of at least one receipt |
| TaskEngines.TaskEngine.SetDefault | kvcm/kvcm/task_engine.py:240-285 | the caller owns the slot exactly when it was free |
| TaskEngines.TaskEngine.SubmitIntent | kvcm/kvcm/task_engine.py:240-285 | refused while shutting down or before the start, joined to the slot, or owner of a new pending record that is owed an admission |
| TaskEngines.TaskEngine.Finish | kvcm/kvcm/task_engine.py:338-366 | the call is the machine's sequence of visible sections |
| TaskEngines.FinishedExactly | kvcm/kvcm/task_engine.py:338-366 | only a pending record that owns its slot is touched: its status, the newest receipt and the slot; any other call changes nothing |
| TaskEngines.TaskEngine.Admit | kvcm/kvcm/task_engine.py:287-336 | enqueued, or failed when the queue is full or the engine stops |
| TaskEngines.TaskEngine.FailNeverStarted | kvcm/kvcm/task_engine.py:475-491 | the queue is emptied and each of its records finished |
| TaskEngines.TaskEngine.IntentStatus | kvcm/kvcm/task_engine.py:368-378 | the table first, then the ring |
| TaskEngines.FinishRuns | kvcm/kvcm/task_engine.py:338-366 | the machine's sections of one finish add up to the whole call |
| TaskEngines.DrainedFails | kvcm/kvcm/task_engine.py:475-491 | every record left in the queue at shutdown ends failed |
| TaskEngines.DrainedKeeps | kvcm/kvcm/task_engine.py:475-491 | draining the queue changes no terminal status |
| Prefetch.DrainCopy | kvcm/kvcm/flows/prefetch.py:250-268 | a running copy is cancelled and awaited; which end of it comes back, and when a cancellation of the flow replaces it |
| Prefetch.AbandonIfHanded | kvcm/kvcm/flows/prefetch.py:238-247 | only a handle that the copy returned is abandoned, not one inside its exception |
| Prefetch.OnTimeout | kvcm/kvcm/flows/prefetch.py:142-159 | the outcome and the abandoned handle after a timeout |
| Prefetch.OnCancel | kvcm/kvcm/flows/prefetch.py:160-169 | the outcome and the abandoned handle after a cancellation |
| Prefetch.AwaitCopy | kvcm/kvcm/flows/prefetch.py:127-169 | the copy phase: which exits lead to which outcome and which handle is abandoned |
| Prefetch.PollTask | kvcm/kvcm/flows/prefetch.py:170-214 | the polling loop: the first poll that does not continue decides, told from the script for each outcome, and the handle is terminal or abandoned |
| Prefetch.RunAfterExists | kvcm/kvcm/flows/prefetch.py:98-268 | an undisturbed run settles its handle exactly once, a drained copy that returns its handle has it abandoned, and a handle is forgotten if and only if the script says so; which outcome the flow has is told from the script alone |
| Prefetch.EndsOnce | kvcm/kvcm/flows/prefetch.py:98-214 | the script admits only one outcome, so each condition of `Ends` is an if and only if |
| Prefetch.BothForget | kvcm/kvcm/flows/prefetch.py:142-169 | for every handle, the two ways in which a submission error loses it |
| Prefetch.StopAt | kvcm/kvcm/flows/prefetch.py:174-208 | the first poll that does not continue |
| TransferGate.GateConservation | kvcm/kvcm/task_engine.py:525-603 | in every interleaving of any number of prefixes free permits plus holders equal the maximum, at most that many are between submit and terminal, and every submit began before its deadline |
| TransferGate.PermitsReturn | kvcm/kvcm/task_engine.py:525-603 | when all prefixes have finished every permit is back |
| TransferGate.NoLateSubmit | kvcm/kvcm/task_engine.py:525-603 | past its deadline a prefix never submits again |
| TransferGate.StepKeepsInv | kvcm/kvcm/task_engine.py:525-603 | every step of every prefix keeps the permit count and the deadlines |
| TransferGate.WaitThenRun | kvcm/kvcm/task_engine.py:525-603 | while others take and return permits, the loop follows the path of the machine, ends as its last round calls for, and on every way out its permit and the segment budget are given back |
| TransferGate.OneRound | kvcm/kvcm/task_engine.py:544-601 | one round: which answers end the loop and how, and that one permit is held at each act from the pass to the end and none outside |
| Autoscale.WithDefaults | go/router/autoscale.go:67-85 | usable settings are kept, all others become usable |
| Autoscale.SettingsFallBack | go/router/autoscale.go:67-85 | each setting falls back by itself, to the source's default |
| Autoscale.Autoscaler.constructor | go/router/autoscale.go:95-97 | no streaks and no action yet |
| Autoscale.Autoscaler.Evaluate | go/router/autoscale.go:101-129 | one evaluation of the specification |
| Autoscale.ScaleOutExactly | go/router/autoscale.go:101-129 | a trace decides to scale out if and only if the last window was all over and held no scale-out, there is room above, and no decision lies within the cooldown |
| Autoscale.ScaleInExactly | go/router/autoscale.go:101-129 | the same for scale-in |
| Autoscale.Debounce | go/router/autoscale.go:67-129 | a decision means a full window of readings on its side, and two decisions are at least a cooldown apart |
| Autoscale.StreaksExclude | go/router/autoscale.go:101-115 | the two streaks are never positive together |
| Autoscale.StreaksMean | go/router/autoscale.go:101-115 | a streak counts the unbroken readings since the last break or action |
| Fleet.AutoscaleSafety | go/router/autoscale.go:339-441 | over every run with any answers of the control plane the first node stays, ids stay distinct, ready and draining stay disjoint, and the ready count stays within its bounds |
| Fleet.CapacityIsProportional | go/router/autoscale.go:394-403 | after every tick the scheduler's limit is the per-node limit times the ready count |
| Fleet.ServerStartIsGood | go/router/autoscale.go:144-155 | the server's start with one node satisfies the invariant |
| Fleet.TickKeepsGood | go/router/autoscale.go:418-441 | every tick keeps the invariant |
| Fleet.TickMoves | go/router/autoscale.go:418-441 | a tick moves the ready count by at most one, and only inside the bounds |
| Fleet.TickExactly | go/router/autoscale.go:339-441 | an accepted join adds the next node at the end and one node's capacity, an accepted drain takes the newest node out with its capacity, and nothing else but acknowledged removals changes |
| Fleet.FleetBalance | go/router/autoscale.go:339-441 | over a run the fleet has its first size plus accepted joins minus accepted drains, and the capacity is the per-node limit times that |
| Fleet.FailedDrainRestores | go/router/autoscale.go:365-388 | a failed drain restores ready and draining exactly; a successful one takes out the newest node only |
| Fleet.NeverReissued | go/router/autoscale.go:210-215 | no id is issued twice, and none that existed before the run |
| Fleet.DrainedNeverReturns | go/router/autoscale.go:225-254 | a node that left the route table is never routed to again |
| Fleet.NameInjective | go/router/autoscale.go:210-215 | different numbers give different node names |
| Fleet.NodeRegistry.constructor | go/router/autoscale.go:144-155 | the initial ids in order, the highest number scanned from them, and no later name equal to one of them |
| Fleet.ScanReadsBack | go/router/autoscale.go:144-155 | the scan reads back the number of every generated name |
| Fleet.NodeRegistry.NextID | go/router/autoscale.go:210-215 | the next number and its name |
| Fleet.NodeRegistry.Add | go/router/autoscale.go:217-222 | the node becomes the last ready one |
| Fleet.NodeRegistry.MarkDraining | go/router/autoscale.go:225-236 | the first occurrence leaves ready, or nothing changes |
| Fleet.NodeRegistry.Remove | go/router/autoscale.go:239-243 | the node leaves draining |
| Fleet.NodeRegistry.UnmarkDraining | go/router/autoscale.go:247-254 | a draining node returns as the last ready one |
| Fleet.NodeRegistry.LastReady | go/router/autoscale.go:257-264 | the newest ready node, if any |
| Fleet.Server.constructor | go/router/server.go:137-143 | a server with the per-node limit and a fresh autoscaler |
| Fleet.Server.SyncCapacity | go/router/autoscale.go:394-403 | the limit follows the ready count and nothing else changes |
| Fleet.Server.ReapDraining | go/router/autoscale.go:407-415 | in any order, exactly the acknowledged nodes leave draining |
| Fleet.Server.Grow | go/router/autoscale.go:341-364 | scale-out, also when the join is refused |
| Fleet.Server.Shrink | go/router/autoscale.go:365-388 | scale-in with its rollback |
| Fleet.Server.AutoscaleTick | go/router/autoscale.go:418-441 | one tick of the specification |
| Affinity.PickNode | go/router/affinity.go:89-161 | the choice is the specified one for the mirror's local scores, the loads as each pass reads them, and the guard |
| Affinity.PickNodeForRequest | go/router/affinity.go:89-161 | the best warm node below the guard, else the rendezvous best among eligible nodes; the fallback for no node |
| Affinity.ScoreNode | go/router/affinity.go:113-121 | the number of leading blocks in the node's first tier |
| Affinity.ScoreExactly | go/router/affinity.go:113-121 | the score counts leading blocks with a location in tier 1 of the very node |
| Affinity.LocalScore | go/router/affinity.go:113-123 | that number is maximal |
| Affinity.FirstBelow | go/router/affinity.go:128-139 | in sorted order the first candidate below the guard is the best of those |
| Affinity.RendezvousBest | go/router/affinity.go:152-160 | the loop finds the one node with the highest score, the smallest id among equals |
| Affinity.ChoiceUnique | go/router/affinity.go:89-161 | the choice depends only on the set of ready ids, the scores and the loads |
| Affinity.ChosenExactly | go/router/affinity.go:89-161 | in numbers: the greatest positive score below the guard, else the greatest hash below it, else the greatest hash; ties to the smaller id |
| Affinity.LeavesHomeOnlyUnderLoad | go/router/affinity.go:143-161 | the cold choice leaves the rendezvous home if and only if the home is at the guard and another node is below it |
| Affinity.AddingMovesOnlyOntoNew | go/router/affinity.go:89-161 | adding a ready node moves a key only onto that node |
| Affinity.RemovingMovesOnlyItsOwn | go/router/affinity.go:89-161 | removing a node moves only the keys that were on it |
| Affinity.AnchorIdentifiesPrefix | go/router/affinity.go:45-54 | two prompts share their routing key if and only if they agree on their blocks up to the anchor depth |
| Affinity.LessTotal | go/router/affinity.go:128-133 | the order of ids is total and strict |
| Affinity.LessExactly | go/router/affinity.go:128-133 | and it is the order of dictionaries |
| Attention.CausalAttnQueries | python/lake/kernels/attn_ref.py:22-56 | the nested loops compute the specified rows |
| Attention.ScoreKeys | python/lake/kernels/attn_ref.py:38-44 | scaled scores of the visible keys, minus infinity for the others |
| Attention.Softmax | python/lake/kernels/attn_ref.py:45-49 | normalised weights, zero for masked keys, with the guard against an empty sum |
| Attention.Accumulate | python/lake/kernels/attn_ref.py:50-54 | the weighted sum of the value rows |
| Attention.ChunkedPrefill | python/lake/kernels/attn_ref.py:13-56 | for every split of the queries, the chunks with keys and values cut at their own end concatenate to the whole output |
| Attention.Truncated | python/lake/kernels/attn_ref.py:38-44 | keys and values past the query's position can be cut off |
| Attention.Causal | python/lake/kernels/attn_ref.py:36-54 | a row does not depend on keys and values it cannot see |
| Attention.ConvexCombination | python/lake/kernels/attn_ref.py:45-54 | a row with a visible key is a convex combination of the visible value rows |
| Attention.OutputInRange | python/lake/kernels/attn_ref.py:45-54 | no output leaves the range of the visible values in its column |
| Attention.NoKeyNoOutput | python/lake/kernels/attn_ref.py:45-54 | a query that sees no key gets zeros |
| Attention.ShiftInvariant | python/lake/kernels/attn_ref.py:45-49 | for an exponential, subtracting the maximum changes no weight |
| Attention.SoftmaxAttention | python/lake/kernels/attn_ref.py:34-56 | every output is the mean of the value rows up to the query's own position, each with the exponential of its key's scaled inner product over their sum; zero where there is none |
| InputBatch.PrepareInputs | python/lake/engine/model_runner.py:182-230 | one row for each known request with work, in the scheduler's order |
| InputBatch.PrepareRow | python/lake/engine/model_runner.py:196-227 | the row of a prompt or a generating request |
| InputBatch.RowLength | python/lake/engine/model_runner.py:203-226 | the token list is as long as the query end if and only if the scheduler's output and the request put that end at 0 or later |
| InputBatch.NegativeEndMisses | python/lake/engine/model_runner.py:203-209 | an end before the prompt gives a list that is longer than the end |
| InputBatch.ShapedIsWhole | python/lake/engine/input_batch.py:113 | a row with a token for every position feeds exactly its query |
| InputBatch.RowTokens | python/lake/engine/model_runner.py:203-226 | which token stands at each position: of the prompt; or the request's own, then the draft's up to one short of the scheduled number, then the last one repeated |
| InputBatch.RowQuery | python/lake/engine/model_runner.py:196-227 | phase, start and end of the query, from the scheduler's numbers or the defaults |
| InputBatch.PreparedIsShaped | python/lake/engine/model_runner.py:182-230 | with non-negative positions every row has a token for every position up to its end |
| InputBatch.ReadBack | python/lake/engine/input_batch.py:103-127 | each row's part is found between its prefix sum and the next |
| InputBuffers.InputBuffers.constructor | python/lake/engine/input_batch.py:55-65 | cleared buffers of the given sizes |
| InputBuffers.InputBuffers.Clear | python/lake/engine/input_batch.py:67-79 | all buffers hold their filler |
| InputBuffers.InputBuffers.Materialize | python/lake/engine/input_batch.py:81-133 | for any rows, the exact verdict; on success all buffers are a function of the batch and slots alone; an early refusal changes nothing, a later one leaves the rows before it |
| InputBuffers.InputBuffers.FillRows | python/lake/engine/input_batch.py:103-127 | the row loop stops at the first row that does not fit |
| InputBuffers.InputBuffers.PlaceRow | python/lake/engine/input_batch.py:104-126 | one round of the loop: the row is in place, or the verdict is that of the first row that does not fit |
| InputBuffers.InputBuffers.WriteRow | python/lake/engine/input_batch.py:113-126 | exactly one row's cells are overwritten, and a slice that runs out of a buffer or of its slots spoils nothing before it |
| InputBuffers.InputBuffers.CloseIndex | python/lake/engine/input_batch.py:129-132 | the rest of the index repeats the token count |
| InputBuffers.AcceptedExactly | python/lake/engine/input_batch.py:93-126 | a batch is accepted if and only if rows, tokens, slots and slices fit |
| InputBuffers.RefusedExactly | python/lake/engine/input_batch.py:93-126 | a refused batch gets the verdict of its first row that does not fit, tokens before slots before the slice |
| InputBuffers.FoldedIsLayout | python/lake/engine/input_batch.py:103-127 | rows that feed exactly their query, written one by one, stand end to end |
| InputBuffers.WrittenIsFlat | python/lake/engine/input_batch.py:103-127 | the same for one buffer of any kind |
| InputBuffers.PreparedAcceptedExactly | python/lake/engine/input_batch.py:93-126 | what is prepared from a plan without negative numbers is accepted if and only if its rows and tokens fit the buffers and its slot lists have the length of their queries |
| InputBuffers.PreparedReadsBack | python/lake/engine/input_batch.py:81-133 | and then the padding flags are exact and the tokens between start and end, positions and slots of every request read back |
| InputBuffers.Lossless | python/lake/engine/input_batch.py:81-133 | each request's tokens, positions and slots read back from the buffers |
| InputBuffers.IndexIsPrefixSums | python/lake/engine/input_batch.py:103-132 | consecutive index entries differ by the row's query length |
| InputBuffers.PaddingExact | python/lake/engine/input_batch.py:119-126 | the padding flags of such rows are exactly the places past the last token |
| InputBuffers.PaddingExactOnlyIfWhole | python/lake/engine/input_batch.py:106-126 | for a single row they are exact if and only if the row feeds exactly its query |
| Keepalive.BoundedKeepalive | kvcm/kvcm/loops.py:222-250 | whatever is registered, unregistered, restored and swept, a row that is not deleted keeps its date and no sweep that starts a window or more after it is about to renew it |
| Keepalive.StepKeepsDate | kvcm/kvcm/ledger.py:314-413 | no step moves the date of a row that stays |
| Keepalive.ActsOnWhatItSaw | kvcm/kvcm/loops.py:222-250 | a sweep renews inside and expires outside the window unless the row was deleted after the snapshot |
| Keepalive.LostExactly | kvcm/kvcm/loops.py:222-250 | in every run, a step other than an unregistration deletes a row inside its window if and only if the sweep drops it or expires a key deleted after the snapshot, and the row was not put back with a date out of the window |
| Keepalive.RenewedPastExactly | kvcm/kvcm/loops.py:222-250 | in every run, a sweep is about to renew a row past its window if and only if that row was put back after the snapshot with a date out of the window |
| Keepalive.LostExactlyIfDeleted | kvcm/kvcm/loops.py:222-250 | without old dates restored during a sweep, an expiry deletes a row inside its window if and only if the key was deleted after the snapshot, a drop always deletes one inside its window, and none is renewed past it |
| Keepalive.NoRestoreIsFresh | kvcm/kvcm/ledger.py:383-403 | runs without a restore are such runs |
| Keepalive.RunTells | kvcm/kvcm/loops.py:222-250 | what the history of a row tells about its date at every moment of a sweep |
| Keepalive.LostWherever | kvcm/kvcm/loops.py:226-232 | wherever a sweep is about to expire a row, unregistering and registering loses the new row |
| Keepalive.LostRegistration | kvcm/kvcm/loops.py:226-232 | a run in which a sweep deletes a registration made after its snapshot |
| Keepalive.LostAtDrop | kvcm/kvcm/loops.py:239-250 | wherever a sweep is about to drop a row, a registration in between changes nothing and is lost |
| Keepalive.AnswerDecides | kvcm/kvcm/loops.py:236-250 | only an absent copy leads to a drop, and a failed query leaves everything as it is |
| Keepalive.DroppedOnlyIfAbsent | kvcm/kvcm/loops.py:236-250 | in every run a drop follows the answer that the copy of that very record is absent |
| Keepalive.SweepExactly | kvcm/kvcm/loops.py:222-250 | in every run, when a sweep is through, each row with tokens at its snapshot has been deleted since, or is inside the window and was renewed |
| Keepalive.SweepNeverStuck | kvcm/kvcm/loops.py:226-250 | at each record exactly one way is open |
| Keepalive.LostByDrop | kvcm/kvcm/loops.py:239-250 | a run in which a drop deletes a row inside its window whose key was never deleted |
| Keepalive.RenewedPastWindow | kvcm/kvcm/loops.py:233-238 | a run in which a row restored after the snapshot is renewed past its window |
| Keepalive.StepKeepsInv | kvcm/kvcm/loops.py:222-250 | pending records describe their rows unless those were deleted |
| KeepaliveLoops.Ledger.constructor | kvcm/kvcm/ledger.py:40-45 | an empty table |
| KeepaliveLoops.Ledger.RegisterKeepalive | kvcm/kvcm/ledger.py:314-331 | a new row gets the present time, an existing one keeps its own |
| KeepaliveLoops.Ledger.UnregisterKeepalive | kvcm/kvcm/ledger.py:333-340 | the row is gone |
| KeepaliveLoops.Ledger.RestoreKeepalive | kvcm/kvcm/ledger.py:383-403 | the old date comes back only where there is no row |
| KeepaliveLoops.Ledger.HasKeepalive | kvcm/kvcm/ledger.py:405-413 | whether there is a row |
| KeepaliveLoops.Ledger.ListKeepaliveRecords | kvcm/kvcm/ledger.py:342-370 | every row with tokens once, in any order |
| KeepaliveLoops.SweepRecord | kvcm/kvcm/loops.py:226-250 | one record with arbitrary client calls and a stop at any await is a run of the machine |
| KeepaliveLoops.CheckRecord | kvcm/kvcm/loops.py:227-235 | expired, gone, or to be renewed |
| KeepaliveLoops.DropRecord | kvcm/kvcm/loops.py:246-250 | the row of an absent copy is deleted |
| KeepaliveLoops.SweepOnce | kvcm/kvcm/loops.py:222-250 | a whole sweep is a run of the machine from idle to idle that works off its snapshot unless it is stopped |

## Left out

- Go's unbounded waits and fairness: liveness is not stated, only what every run keeps.
- Queue-wait samples, load reports, round-robin `pick` and the hit window of the router: bookkeeping that nothing above depends on.
- A checkpoint import that fails half-way in the control plane: it changes the authority without a broadcast and is not a step of the model.
- ViewSyncTheorems.ReplicationSafety: holds for runs whose resumes are answered in the same life or by a snapshot; ResumeSafeExactly shows that no other numbers are safe, and OneLifeReplication needs no condition.
- PrefixHash.LookupIsLongestPrefixMatch: states the law for blocks of up to eight tokens, because LawExactly shows it false for every larger size.
- Prefetch.RunAfterExists: polling that never ends is cut off by the length of the script of answers, and an abandon that fails counts as made.
- TransferGate.WaitThenRun: the loop is cut off by the length of the script of rounds.
- Fleet.NodeRegistry.constructor: initial ids may repeat, and the invariant of the fleet is stated for distinct ones, as the server passes; the scan of a number past 64 bits is not modelled.
- EngineTheorems.NoStrandedIntent: requires at least one configured consumer, since none would ever be started otherwise.
- Attention.CausalAttnQueries: real arithmetic, so floating-point rounding and underflow of the weights are not modelled.
- Attention.ChunkedPrefill: all queries have the width of the first, as the source's shapes say; it takes the head size from the first query of each call.
- A ledger call that goes on in its executor thread after the sweep that waited for it was stopped: it is a client call of the model.
- Int64 overflow of sequence numbers, durations and capacities: numbers are unbounded.
- FNV-1a and SHA-256 internals, protobuf and gRPC plumbing, HTTP handling, sqlite, asyncio internals.
- The control plane apart from its view log, the cache backends, node scheduler, worker engine and simulators.
