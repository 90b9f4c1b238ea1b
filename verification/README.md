# Verified model of agrpc

agrpc runs gRPC calls on an execution context, `GrpcContext`, whose one loop thread
drains a local queue, a remote queue that other threads fill, and a gRPC completion
queue. This project models that loop and its wake-up protocol, and the concurrent rate
limiters of the logging macros with the coarse clock they read. `dafny verify
dfyconfig.toml` checks everything.

## How it is modelled

`Protocol.dfy` describes the context as a transition system. Every atomic step of the
loop thread, of any number of producer threads and of gRPC is an action; a run is a
sequence of actions, and `After` gives the state it leads to. Enqueuing and signalling
are separate steps, and so are setting the alarm and its event arriving, so every
interleaving is a run. The theorems quantify over all runs:

- `WakeUp.dfy`, `Safety.dfy`: when a wake-up is outstanding, and that the contracts of
  the libraries are kept.
- `Ownership.dfy`: where each operation is, its life cycle, and the completion flag.
- `Order.dfy`: remote work is conserved and runs in enqueue order.
- `Progress.dfy`, `Turns.dfy`: when the blocked loop can continue, and what a turn achieves.
- `Work.dfy`: which queued work some schedule can still execute, and which none can.
- `Certain.dfy`: which queued work every schedule executes.

`Context.dfy` is the context as a class whose methods change its fields step by step.
Its validity condition is that the fields are what some fault-free run leads to, so each
method is proved to take only steps of the protocol, in the order of the code, and
everything proved of runs holds of it (`EveryContext`). Between its own steps a method
lets the other parties take any steps they can. `LoopThread.dfy` adds nested run loops
of several contexts on one thread, with the queue of each; in `Context.dfy`, code that runs
inside such a nested loop counts as another thread's. `EveryNSecond.dfy`, `LogOnce.dfy`,
`EveryN.dfy` and `CoarseClock.dfy` treat the macros and the clock in the same way; the
clock's steps in `CoarseClock.dfy` are the ones the macro's runs contain.

The library contracts the model rests on: `enqueue` appends atomically and reports
whether the queue was inactive, and it is active afterwards; the dequeue call requires an
active queue, marks it inactive if it is empty and otherwise returns everything, oldest
first; `Next` returns some posted event in no promised order, or false once the queue is
shut down and nothing is left; gRPC posts each tag it was handed once. The environment
starts each operation once, submits nothing after `ShutDown`, does not shut down while a
signal is owed, and does not nest `Run` of one context in itself.

## What turned out not to hold

- **Cold start.** `remote_queue_` starts inactive while `remote_queue_read_submitted_`
  starts false, so a context that is run before anything was submitted remotely dequeues
  an inactive queue. `FaultIffColdStart` shows that this is the only way a library
  contract is broken, and exactly when; `ColdStartExample` is the shortest such run.
- **Stall.** After moving remote items to the local queue the flag stays false and the
  loop still blocks in `Next`, while producers find the queue active and do not signal. So
  once a wake-up has been consumed, it is possible for queued remote work to be executed
  if and only if an RPC of the context is outstanding (`RunsIff`). From an idle loop every
  schedule without a shutdown executes no remote work at all, and its Run never ends, not
  even by a stop requested from another thread (`IdleNeverRuns`, `IdleNeverStops`).
  Running, stopping and running a context again reaches such a loop (`IdleLoopReachable`).
- **Lost submissions.** An outstanding RPC does not make it certain: every completion may
  be returned before the null-tag event, and its receiver may start nothing. A submission
  that finds the read flag set is never certain to run. `CertainIff` gives the exact
  condition: the flag is clear, an RPC is outstanding, and the operation was moved
  already, or another RPC was, or a second one is outstanding.
- **First line of LOG_EVERY_N.** The line is inside the branch that reduces the counter,
  so for positive N the first evaluation does not log (`FirstEvaluationLogsIff`).

## Model

| member | source | states |
|---|---|---|
| WakeUp.WakeUpAccounting | agrpc/context/grpc_context.cc:57-141 | in every reachable state, signals owed plus alarms plus null-tag events are 0 or 1, in step with the read flag and the remote queue; before the first wake-up is consumed no RPC can have been issued |
| Safety.SingleAlarm | agrpc/context/grpc_context.cc:86-95 | whoever comes to set the alarm is the only producer owing a signal, with no earlier alarm pending and no null-tag event waiting |
| Safety.FaultIffColdStart | agrpc/context/grpc_context.cc:57-60 | a run dequeues an inactive queue, sets a pending alarm or calls an unset callback if and only if a remote check came before every remote enqueue |
| Safety.ColdStartExample | agrpc/context/grpc_context.h:127-130 | running a freshly constructed context reaches the faulty dequeue |
| Ownership.ExclusiveOwnership | agrpc/context/grpc_context.h:66-70 | every unfinished operation is in exactly one of the remote queue, local queue, batch, gRPC's hands or completion queue, every other one in none; each life-cycle step happens at most once, in order |
| Ownership.CallbackMatchesPhase | agrpc/context/grpc_context.h:170-205 | whenever an item is executed, execute_ is set and is the function for that operation's phase |
| Ownership.CompletionFlagMatch | agrpc/context/grpc_context.h:192-204 | a completion handler finds its own tag in event_, the flag gRPC posted with it, and is the last item of its batch |
| Ownership.PostedByGrpc | agrpc/context/grpc_context.cc:116-129 | a completion on record was posted by gRPC for that operation with that flag |
| Ownership.StopExit | agrpc/context/grpc_context.cc:49-55 | a Run ended by its stop leaves both loop queues empty, its StopOperation in no list, and every unfinished operation in the remote queue or with gRPC |
| Ownership.StopEndsTheLoop | agrpc/context/grpc_context.cc:49-66 | once the StopOperation has run the loop only finishes its batch and exits; Next is not called again |
| Ownership.ShutDownExit | agrpc/context/grpc_context.cc:62-65 | a Run ended by shutdown leaves exactly the unfinished operations in its two queues; a requested stop that has not run is among them |
| Ownership.ExitsOnlyOnStopOrShutDown | agrpc/context/grpc_context.cc:49-66 | a Run ends only because its own StopOperation was requested and has run, or because the user shut the queue down |
| Order.OrderAndConservation | agrpc/context/grpc_context.cc:82-141 | remote items executed, then those in the batch, the local queue and the remote queue, concatenated, are the enqueue history |
| Order.EnqueuedAreSubmissions | agrpc/context/grpc_context.cc:86-95 | the enqueue history is what producers submitted, in the order of their enqueue steps, each operation once |
| Order.RemoteWorkRunsInOrder | agrpc/context/grpc_context.cc:97-114 | the remote work executed so far is an initial part of what was submitted, nothing twice |
| Progress.BlockedStates | agrpc/context/grpc_context.cc:57-65 | blocked in Next with the flag set, the remote queue has work exactly when one wake-up is on its way; with the flag clear there is local work |
| Progress.ContinuesIff | agrpc/context/grpc_context.cc:116-141 | a loop blocked in Next can be brought to another turn without a further shutdown if and only if something is on its way to the completion queue, the read flag is set or the queue was shut down; after a shutdown Next returns false exactly when nothing is on its way |
| Progress.StalledForever | agrpc/context/grpc_context.cc:131-141 | in a stall every continuation without shutdown leaves the loop thread exactly where it is |
| Progress.IdleSubmissionStalls | agrpc/context/grpc_context.cc:57-65 | an idle loop can be submitted to at any time; the shortest schedule moves the operation to the local queue and stalls |
| Progress.IdleLoopReachable | agrpc/context/grpc_context.h:143-150 | running, stopping and running a context again reaches such an idle loop |
| Turns.TurnLowersStage | agrpc/context/grpc_context.cc:49-66 | a turn takes a queued operation exactly one known way along remote-waiting, remote-woken, local, executed; it never goes back, and stays only if it awaits a wake-up and another event came |
| Turns.WokenWorkRuns | agrpc/context/grpc_context.cc:97-141 | everything in the remote queue when the null-tag event is consumed has run by the end of the next turn |
| Work.RunsIff | agrpc/context/grpc_context.cc:40-141 | when it is possible at all: some schedule without a shutdown (receivers may start operations, the context may be run again) executes a queued remote submission if and only if an RPC of the context is outstanding; before the first wake-up is consumed, if and only if it was moved to the local queue already or an RPC operation was |
| Work.DormantRuns | agrpc/context/grpc_context.cc:57-141 | with no RPC outstanding, under every schedule without a shutdown, at most the remotely requested stops already moved are ever executed of the remote work |
| Work.IdleNeverRuns | agrpc/context/grpc_context.cc:57-65 | from an idle loop no schedule without a shutdown executes any remote work |
| Work.IdleNeverStops | agrpc/context/grpc_context.h:143-150 | nor does the Run of an idle loop ever end, whoever requests its stop |
| Certain.CertainIff | agrpc/context/grpc_context.cc:40-141 | when it is certain: no schedule without a shutdown comes to a Next from which a queued remote submission cannot run any more if and only if an RPC is outstanding, the read flag is clear, and the operation was moved already, or another RPC operation was, or at least two RPCs are outstanding; before the first wake-up is consumed, exactly when it is possible |
| Certain.CanBeLost | agrpc/context/grpc_context.cc:116-141 | whenever that condition fails, some schedule loses the operation: completions are consumed first and nothing is started |
| Certain.RunsWithinTwoTurns | agrpc/context/grpc_context.cc:49-66 | with the read flag clear, every two turns, whatever their events, execute everything that was queued |
| Context.GrpcContext.constructor | agrpc/context/grpc_context.h:123-130 | the initial fields are the initial state of the protocol |
| Context.GrpcContext.ScheduleRemote | agrpc/context/grpc_context.cc:86-95 | with others interfering, the producer takes exactly the enqueue step and, if the queue was inactive, the signal step |
| Context.GrpcContext.SignalRemoteQueue | agrpc/context/grpc_context.cc:143-147 | the alarm was not pending and is now set once |
| Context.GrpcContext.Start | agrpc/context/grpc_context.h:170-190 | called on the thread whose current context this is, the RPC is issued at once; on any other thread the operation is enqueued remotely, with a signal if the queue was inactive |
| Context.GrpcContext.RequestStop | agrpc/context/grpc_context.cc:69-76 | called on the thread whose current context this is, the StopOperation is queued locally; on any other thread, and on the one entering Run, it is enqueued remotely |
| Context.GrpcContext.Enqueue | agrpc/context/grpc_context.cc:86-88 | the item joins the end of the remote queue, and a signal is owed exactly if the queue was inactive |
| Context.GrpcContext.ExecuteItem | agrpc/context/grpc_context.cc:107-111 | pops the first item and executes it as the protocol's step |
| Context.GrpcContext.ExecutePendingLocal | agrpc/context/grpc_context.cc:97-114 | terminates, having executed exactly the items present at entry in order; only a stop may be left queued; event_ is untouched; the stop flag is set exactly if the stop was in the batch |
| Context.GrpcContext.TryScheduleRemoteQueuedItems | agrpc/context/grpc_context.cc:131-141 | all remote items move to the end of the local queue, or the empty queue becomes inactive |
| Context.GrpcContext.CheckRemoteQueue | agrpc/context/grpc_context.cc:57-60 | the dequeue happens only with the flag clear and finds an inactive queue exactly if nothing was ever enqueued; otherwise everything moves to the local queue, and the flag stays clear only with local work |
| Context.GrpcContext.NextEvent | agrpc/context/grpc_context.cc:116-119 | Next returns a posted event, false exactly when drained, and blocks only if no event at all is posted |
| Context.GrpcContext.AcquireCompletionQueueItems | agrpc/context/grpc_context.cc:116-129 | a null-tag event clears the flag; any other is queued last, with the flag gRPC posted; false only when drained |
| Context.GrpcContext.LoopOnce | agrpc/context/grpc_context.cc:49-66 | one pass executes the whole local queue and exits on stop exactly if the stop was in it |
| Context.GrpcContext.RunImpl | agrpc/context/grpc_context.cc:40-67 | it makes the context the current one of its thread until it exits; over any number of turns it takes only protocol steps, the thread itself submits nothing remotely, and it can be found only stopped, drained, blocked without an event, or cold; no step is taken before the first turn |
| Context.GrpcContext.Begin | agrpc/context/grpc_context.h:143-149 | up to RunImpl, Run creates its StopOperation and, if and only if stop was requested before, enqueues it remotely; nothing else |
| Context.GrpcContext.Run | agrpc/context/grpc_context.h:143-150 | over the whole Run its thread submits remotely only what a stop requested before makes it submit, and then the loop is no cold start; after a stop nothing is queued locally and Run can be entered again |
| Context.EveryContext | agrpc/context/grpc_context.cc:40-147 | every valid context satisfies the wake-up, ownership and order invariants and was not started cold |
| LoopThread.OutermostIrrelevant | agrpc/context/grpc_context.cc:36-47 | what run loops of one thread do to queues and effects depends on the innermost context only |
| LoopThread.NestingIsTransparent | agrpc/context/grpc_context.cc:43-47 | a nested run is as if its context were run alone, and what follows goes on from the queues it left with the loop that was running before |
| LoopThread.IssuedByOwnLoop | agrpc/context/grpc_context.h:180-190 | however loops are nested, an RPC is issued only while the loop of its own context is the innermost one |
| LoopThread.OrderPerContext | agrpc/context/grpc_context.cc:36-47 | whatever thread or loop schedules on a context, its loops execute that in the order scheduled, and nothing else |
| LoopThread.EveryPopIsIssued | agrpc/context/grpc_context.cc:107-109 | whatever a drain loop pops is issued next, by the same loop: no operation is discarded |
| LoopThread.ActsDecide | agrpc/context/grpc_context.cc:78-95 | read off the acts alone, however loops are nested: what was scheduled on a context (by other threads and by loops of other contexts), what was started in its own loop, each exactly once and in order, and how many operations are left on it |
| LoopThread.Thread.RunImpl | agrpc/context/grpc_context.cc:40-67 | with arbitrarily nested loops, saving and restoring one pointer has the effects of the full stack of run loops on every context's queue, restores the pointer, and the check never fails, because a popped operation belongs to the running loop |
| LoopThread.Thread.StartAsyncRPC | agrpc/context/grpc_context.h:185-190 | the check fails exactly if another context's loop is running |
| EveryNSecond.TryLockSound | agrpc/base/logging.h:522-550 | the lock flag is set exactly while a thread is between exchange and release, and by at most one |
| EveryNSecond.StampsAreApart | agrpc/base/logging.h:508-535 | under any interleaving the k-th later stamp is more than k times N seconds later, and the first more than N seconds from zero |
| EveryNSecond.SkippedMeansOvertaken | agrpc/base/logging.h:526-535 | a thread that holds the lock and does not write was overtaken, between its checks, by a stamp at most N seconds before its time |
| EveryNSecond.LinesInWindow | agrpc/base/logging.h:508-553 | stamps in a window of clock time number at most one more than the whole periods in it |
| EveryNSecond.LinesInRealTime | agrpc/base/chrono.h:54-58 | the same bound for lines against the steady clock, which the coarse clock never overtakes |
| EveryNSecond.ClockOfRun | agrpc/base/chrono.h:54-58 | whatever the threads do, the clock the macro reads is the one the worker's steps make |
| EveryNSecond.CoarseClockMonotone | agrpc/base/chrono.cc:39-60 | with one updater the coarse clock never goes back |
| EveryNSecond.UpdatePublishesReading | agrpc/base/chrono.cc:39-42 | what the updater publishes is what the steady clock showed when it was read, whatever happens in between |
| EveryNSecond.AloneLogsIffDue | agrpc/base/logging.h:516-548 | undisturbed and with the lock free, an evaluation logs exactly if the clock is more than N times 10^9 ns past the last stamp |
| EveryNSecond.CallSite.Log | agrpc/base/logging.h:508-553 | with others interfering, one evaluation takes exactly the macro's steps to its outcome; it is too early exactly by the latest stamp at some moment of the call, plus N times 10^9 ns; written and overtaken outcomes name the stamp |
| EveryNSecond.CallSite.LogIf | agrpc/base/logging.h:555-561 | with the condition it is the macro, without it nothing happens |
| LogOnce.OnlyOneLogs | agrpc/base/logging.h:471-483 | under any interleaving at most one thread is elected and one line written; once any evaluation has finished exactly one was elected, and unless that thread is still about to write, the line has been written |
| LogOnce.CallSite.Log | agrpc/base/logging.h:471-483 | when an evaluation returns somebody has been elected, and it logs exactly if that is this evaluation; it takes exactly the macro's steps, just the check once the flag is set |
| EveryN.CountsModuloN | agrpc/base/logging.h:485-499 | after m evaluations the counter is ((m-1) mod N) + 1 and floor((m-1)/N) lines were logged |
| EveryN.LogsExactlyAt | agrpc/base/logging.h:485-499 | the m-th evaluation logs exactly if m > 1 and N divides m - 1 |
| EveryN.FirstEvaluationLogsIff | agrpc/base/logging.h:485-499 | the first evaluation logs only for N = 0 |
| EveryN.DegenerateN | agrpc/base/logging.h:488-492 | for N below one the counter grows without end and at most the first line is logged |
| EveryN.NoOverflowIff | agrpc/base/logging.h:487-488 | for any N, the increment fits a 32-bit int for ever exactly if N is at least one and below the largest int |
| EveryN.IfFormCountsMet | agrpc/base/logging.h:501-506 | the IF form logs what as many evaluations as there are true conditions would log |
| EveryN.CallSite.Log | agrpc/base/logging.h:485-499 | the static counter follows the count, and the returned line is the one due |
| EveryN.CallSite.LogIf | agrpc/base/logging.h:501-506 | only evaluations whose condition holds count |
| CoarseClock.ClockHolds | agrpc/base/chrono.cc:39-60 | in every state the clock's steps lead to, the copy is not ahead of the clock, and no step takes either of them back |
| CoarseClock.SteadyAddsUp | agrpc/base/chrono.cc:39-42 | the steady clock shows its start plus the time that has passed, whatever the updater does |
| CoarseClock.CoarseClockInitializer.constructor | agrpc/base/chrono.cc:48-49 | the timestamps are given one reading each before the worker starts |
| CoarseClock.CoarseClockInitializer.UpdateCoarseTimestamps | agrpc/base/chrono.cc:39-46 | it takes exactly the reading and the storing step of the clock; both published times are readings taken during the call, and the steady one is not ahead of its clock |
| CoarseClock.CoarseClockInitializer.Work | agrpc/base/chrono.cc:54-65 | whenever the exit flag is set, the worker makes no further update and stops; until then one update, so two steps of the clock, per round of at least 4 ms, published values never decreasing |

## Left out

- Context.GrpcContext.RunImpl: is observed for a given number of turns, because the loop runs until it is stopped; the number is arbitrary, so every finite part of a run is covered.
- Context.GrpcContext.Run: is observed for a given number of turns like RunImpl; registering the stop callback is modelled by what it does when stop was requested already, deregistering it at the end is not a step of the model.
- CoarseClock.CoarseClockInitializer.Work: is observed for a given number of rounds, for the same reason.
- Unconditional progress of submitted work: the code does not provide it; `Certain.CertainIff` is the exact condition for it, `Work.RunsIff` the one for progress under some schedule.
- What gRPC does with an RPC issued after ShutDown; the model lets it complete like any other.
- Reuse of memory: operations and StopOperations keep distinct numbers for ever, so an operation queued beyond its lifetime is seen as still queued, not as a dangling pointer.
- Memory ordering: steps are sequentially consistent; the internals of the intrusive queues, alarm and completion queue are represented by their contracts.
- Context.GrpcContext.OnRequestComplete: does not distinguish set_value from set_error after it has thrown, because a receiver may do the same things in either.
- `agrpc/context/rpcs.h` and the tag_invoke overloads: compile-time dispatch, represented as handing a tag to gRPC.
- 64-bit overflow of nanosecond counts, 292 years from the epoch.
- The claim that the coarse clock deviates by less than 10 ms, and a lower bound on lines under contention: they depend on the scheduler.
- Log formatting, prefixes, CHECK macros and sinks: text and I/O.
