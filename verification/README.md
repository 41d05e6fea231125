# Hypertile scheduling core, verified

A Dafny model of Hypertile's scheduling core with proofs of what it promises: the task state machine
and its join protocol, the work-stealing pool with its parking protocol, the publish-and-drain
protocols of the C ABI and of the Python extension, the coroutine trampoline, the timer driver, and
the 64-bit hashing pipeline.

Every protocol has two forms.

- A **step machine** on values. One atomic operation or one lock section of the source is one step
  (a lock section is several steps with an explicit holder where something reads its data without
  the lock). `Step` takes an event, `Exec` a schedule of any length over any number of threads, and
  the theorems speak of `Exec(.., schedule)` for every schedule: nothing is bounded. Atomics are
  sequentially consistent, deques linearizable, park tokens binary.
- The **source's own form**: a class with the source's fields, whose methods load, exchange, lock,
  store, push, pop and loop in place. Where the code races, the others act in the gaps between the
  method's atomic operations, as an arbitrary `script`; `Valid()` says that the fields are where some
  run of the step machine leads, so each method is proved to be a run and inherits every theorem. A
  method that waits for a lock or a token can be cut off when the script ends; its contract says who
  was then still in its way.

| file | models |
|---|---|
| `TaskMachine`, `TaskSafety`, `TaskJoin`, `TaskTheorems`, `TaskWakes`, `TaskOutcomes`, `TaskCell` | `hypertile-core/src/task.rs`, `block_on` of `hypertile-core/src/runtime.rs` |
| `Parking`, `Registry` | `hypertile-core/src/executor.rs` and the idle path of `hypertile-core/src/worker.rs` |
| `Conservation`, `Threads`, `WorkerLoop` | `hypertile-core/src/worker.rs`, `hypertile-core/src/waker.rs`, the thread-worker calls of the C ABI |
| `CapiWait`, `CapiCalls`, `ChunkPlan`, `CapiBatch`, `CapiBatchCall` | `hypertile-capi/src/lib.rs` |
| `Completion`, `BatchAnswer`, `CompletionCalls`, `Pipeline` | `hypertile-sys/src/lib.rs` |
| `Trampoline`, `TrampolineProgress`, `CoroutineTask` | `hypertile-sys/src/bilingual.rs` |
| `Timer`, `TimerHeap` | `hypertile-core/src/timer.rs` |
| `Prelude` | runs of a step function, counting and summing over sequences |

## Where the code and its promise part

Each of these is a proved witness or an exact condition.

- `task.rs:222-225` says that a stealer can never observe the future as absent. With a cloned handle
  it can, and a wake-up is then lost (`DuplicateLosesWake`). A step loses a wake-up if and only if it
  is such a run, finding the slot empty when no other run knows of the wake-up (`LostExactlyWhen` of
  `TaskWakes`); with one handle per task that never happens. One future, one outcome, and a runner
  for every task that is not idle hold with any number of duplicates.
- A sleep polled again with another waker can be lost (`ChangedWakerIsLost`): the driver takes the
  old waker between the poll's clock reading and its store. A step loses a sleep if and only if it is
  such a late store (`LostExactlyWhen` of `Timer`). For a sleep polled twice the wakers and the deadline
  decide: it can be lost if and only if the wakers differ and the deadline is more than 50
  microseconds away (`LosableExactlyWhen`).
- When chunks of a batch panic with different messages, the one that publishes last decides which is
  raised (`OrderDecidesMessage`). What a finished batch answers is the same for all interleavings if
  and only if the chunks that panic all do so with the same message (`DeterminedExactlyWhen`).
- A `WorkerGuard` sent to another thread and dropped there leaves its deque installed
  (`StrayGuardStrands`). When all guards are gone the remainder is in the injector if and only if no
  thread still has a deque with tasks installed (`RemainderExactly`).
- A cancelled future resumes its coroutine with None instead of raising: the resume delivers what an
  event loop would if and only if the future was not cancelled (`DeliversUnlessCancelled`).
- `Sleep::poll` can answer Ready before the deadline (`ReadyEarly`). A poll answers Ready if and only if
  its clock reading is at most 50 microseconds short of the deadline, so it is early exactly for a
  reading in `[deadline - 50, deadline)` (`ReadyExactlyWhen`); the driver itself never fires early
  (`NothingFiresEarly`).

## Model

| member | source | states |
|---|---|---|
| TaskTheorems.NoLostWake | hypertile-core/src/task.rs:130-264 | with one handle per task, in every run: while not COMPLETED, handles queued, wakers about to push and active runners sum to 1, or 0 when IDLE; and an owed wake-up is in the state or with a runner that will find the future |
| TaskTheorems.SettledOwesNothing | hypertile-core/src/task.rs:130-264 | when nothing is queued or under way, every wake-up was followed by a poll and the future is back in its slot |
| TaskTheorems.ScheduledUntilClaimed | hypertile-core/src/task.rs:184-198 | SCHEDULED is left only by a claim to RUNNING or by completion |
| TaskTheorems.WakeTakesEffect | hypertile-core/src/task.rs:130-163 | however others step in between, a wake that leaves its loop read COMPLETED or leaves the task SCHEDULED and owed a poll, and it pushes a handle exactly when its exchange found IDLE |
| TaskTheorems.UndisturbedWake | hypertile-core/src/task.rs:130-163 | a wake nobody disturbs is through its loop after two steps |
| TaskTheorems.DuplicateLosesWake | hypertile-core/src/task.rs:200-207 | a run with one cloned handle that ends idle with a wake-up owed |
| TaskWakes.LostExactlyWhen | hypertile-core/src/task.rs:204-207 | under any duplication a step loses a wake-up if and only if it is a run that finds the future out while no other run knows of the wake-up |
| TaskWakes.LostNeedsMiss | hypertile-core/src/task.rs:200-257 | every run that ends with a wake-up lost contains such a step |
| TaskWakes.SingleHandleLosesNothing | hypertile-core/src/task.rs:130-264 | without duplication no run loses a wake-up |
| TaskWakes.NeverStranded | hypertile-core/src/task.rs:184-257 | under any duplication a SCHEDULED task has a handle and a RUNNING one a runner |
| TaskTheorems.OneFuture | hypertile-core/src/task.rs:200-264 | the future is in exactly one of slot, one runner's hands, dropped; two polls never overlap |
| TaskTheorems.CompletedIsEmpty | hypertile-core/src/task.rs:228-241 | a completed task without runner or canceller in flight has dropped its future, once |
| TaskTheorems.CompletionIsFinal | hypertile-core/src/task.rs:116-127 | COMPLETED is absorbing and its winner never changes |
| TaskTheorems.FirstAnswer | hypertile-core/src/task.rs:278-305 | the first Ready value is the winner's outcome, later ones are Cancelled, the slot is written at most once |
| TaskTheorems.FallbackMeansCancelled | hypertile-core/src/task.rs:299-301 | reading COMPLETED over an empty slot gives the first answer only when cancel won |
| TaskOutcomes.OutcomeWasGiven | hypertile-core/src/task.rs:212-262 | in every run: a task finished with a value was polled Ready with that value, one that panicked was polled and panicked with that payload, a cancelled one was cancelled while not completed |
| TaskOutcomes.AnswerWasGiven | hypertile-core/src/task.rs:294-305 | so the first answer of the join handle is what some poll answered, or Cancelled after a cancellation |
| TaskOutcomes.UndisturbedRun | hypertile-core/src/task.rs:184-219 | a queued handle of a SCHEDULED task with its future in the slot polls it, and goes on to complete with Finished(v) for Ready(v) and Panicked(p) for a panic |
| TaskOutcomes.UndisturbedCancel | hypertile-core/src/task.rs:278-288 | a cancellation completes a task that was not completed with Cancelled, and leaves a completed one as it is |
| TaskTheorems.JoinWakeNotLost | hypertile-core/src/task.rs:294-305 | after Pending, once the winner has finished, that poll's waker has been woken and the park token is there |
| TaskTheorems.BlockOnReturns | hypertile-core/src/runtime.rs:374-387 | a caller parked on a finished task is Ready with its outcome three steps later |
| TaskTheorems.StepInv | hypertile-core/src/task.rs:116-305 | every step of every call keeps the whole invariant |
| TaskSafety.FutureStep | hypertile-core/src/task.rs:200-264 | no step duplicates or loses the future |
| TaskSafety.PresentStep | hypertile-core/src/task.rs:204-225 | until completion the future is in the slot or out with one call |
| TaskSafety.HandleStep | hypertile-core/src/task.rs:130-257 | no step makes a second handle |
| TaskJoin.OutcomeStep | hypertile-core/src/task.rs:116-127 | no step writes a second outcome or one that is not the winner's |
| TaskJoin.EmptyMeansCancelled | hypertile-core/src/task.rs:279-283 | COMPLETED over an empty slot before any answer means that a canceller won |
| TaskJoin.JoinStep | hypertile-core/src/task.rs:121-125 | every waker stored by a poll stays stored, in a waking hand, or woken |
| TaskCells.TaskCell.constructor | hypertile-core/src/task.rs:92-106 | the cell starts SCHEDULED with its future |
| TaskCells.TaskCell.MarkScheduled | hypertile-core/src/task.rs:130-163 | the retry loop ends having scheduled the task, or not, as the machine's wake does; true exactly when the caller must push |
| TaskCells.TaskCell.WakeByRef | hypertile-core/src/task.rs:172-180 | a wake is a run of the machine that returns with nothing left to do |
| TaskCells.TaskCell.Complete | hypertile-core/src/task.rs:116-127 | the task is completed when it returns, whoever won; a call that won has made its outcome the winner, and undisturbed it wins; only a held lock delays it |
| TaskCells.TaskCell.Run | hypertile-core/src/task.rs:184-264 | claim, poll outside the lock, publish and requeue, idle or release, as a run of the machine; it polls unless its claim fails or the future is out; an answer other than Pending leaves the task COMPLETED, and when it wins the winner is `Finished(v)` for Ready(v) and `Panicked(p)` for a panic; undisturbed it wins, or leaves the task idle with its future |
| TaskCells.TaskCell.AfterPending | hypertile-core/src/task.rs:220-257 | the loop after Pending always ends |
| TaskCells.TaskCell.Cancel | hypertile-core/src/task.rs:278-288 | the task is completed when it returns; undisturbed, the winner of a task not completed before is Cancelled |
| TaskCells.TaskCell.PollJoin | hypertile-core/src/task.rs:294-305 | Ready appends one answer; Pending leaves the current waker stored |
| TaskCells.TaskCell.BlockOn | hypertile-core/src/runtime.rs:374-387 | it returns the winner's outcome; at the end of the script it can be parked only if a lock is held, the task is not completed, or its completer is still under way |
| Parking.NoPushMissed | hypertile-core/src/worker.rs:225-237 | in every run, while the injector holds work some worker is awake or holds a token, or a pusher has not finished unparking |
| Parking.CounterMirrorsStack | hypertile-core/src/executor.rs:112-154 | outside lock sections the counter equals the stack's height; a sleeper without a token is on the stack or being delivered one |
| Parking.ConsistentStep | hypertile-core/src/executor.rs:112-154 | every step keeps stack, counter, lock and tokens consistent |
| Parking.AttendedStep | hypertile-core/src/executor.rs:212-219 | every step keeps waiting work attended |
| Parking.AsleepMeansCarried | hypertile-core/src/executor.rs:133-146 | a pusher that reads zero or pops nothing while all sleep is not the only one under way |
| Parking.RousedCanSteal | hypertile-core/src/worker.rs:225-237 | any worker that is awake or holds a token can go on to take work from the injector, without a park timing out |
| Parking.UnparkSteps | hypertile-core/src/executor.rs:133-154 | a pusher turns back at a zero counter without the lock, pops the top, delivers a token to a registered worker and tries the next after an unregistered one |
| Parking.PushTakesEffect | hypertile-core/src/executor.rs:212-219 | a push adds one task and then unparks |
| Parking.SleepTakesEffect | hypertile-core/src/worker.rs:224-237 | a worker that finds nothing goes to sleep in four steps, on top of the stack and counted |
| Parking.ParkEnds | hypertile-core/src/worker.rs:236-237 | a sleeper gets up when it holds a token, which it gives up, or when its park times out |
| Parking.RiseTakesEffect | hypertile-core/src/executor.rs:122-130 | one that is up leaves the stack before it looks for work |
| Registry.WorkerRegistry.RemoveIdle | hypertile-core/src/executor.rs:94-101 | the worker leaves stack and counter, the others keep their order |
| Registry.WorkerRegistry.Register | hypertile-core/src/executor.rs:81-86 | the entry is in the map and the snapshot lists every worker once |
| Registry.WorkerRegistry.Deregister | hypertile-core/src/executor.rs:89-102 | the worker leaves map, snapshot and stack, nobody else does |
| Registry.WorkerRegistry.RebuildStealersCache | hypertile-core/src/executor.rs:104-110 | the snapshot lists each registered worker exactly once |
| Registry.WorkerRegistry.MarkIdle | hypertile-core/src/executor.rs:113-119 | pushed on top unless already there |
| Registry.WorkerRegistry.UnmarkIdle | hypertile-core/src/executor.rs:122-130 | removed, the others untouched |
| Registry.WorkerRegistry.UnparkOneIdle | hypertile-core/src/executor.rs:133-154 | the topmost registered worker, and nobody else, gets a token; false if and only if there is none |
| Registry.WorkerRegistry.UnparkAll | hypertile-core/src/executor.rs:157-162 | every registered worker gets a token |
| Registry.WorkerRegistry.GetStealers | hypertile-core/src/executor.rs:165-167 | the snapshot lists each registered worker once |
| Registry.WorkerRegistry.ActiveCount | hypertile-core/src/executor.rs:170-172 | the number of registered workers |
| Conservation.TasksConserved | hypertile-core/src/worker.rs:62-160 | in every run, each handle enqueued is in the injector, a deque or a hand, or has run, counted with multiplicity |
| Conservation.RemainderExactly | hypertile-core/src/worker.rs:271-287 | when all guards are gone the remainder is in the injector if and only if no thread still has a deque with tasks installed |
| Conservation.RemainderInInjector | hypertile-core/src/worker.rs:271-287 | so it is when every guard was dropped on its own thread |
| Conservation.StrayGuardStrands | hypertile-core/src/worker.rs:276-283 | a guard dropped on another thread strands a task |
| Conservation.StepBalanced | hypertile-core/src/waker.rs:73-121 | no step loses or invents a handle |
| Conservation.StepKept | hypertile-core/src/waker.rs:36-63 | every step leaves each nonempty deque installed on a thread or being flushed |
| Conservation.EverythingCanRun | hypertile-core/src/worker.rs:110-160 | from any quiet moment of any run a single thread can go on to run everything enqueued, wherever it is |
| Conservation.EnqueueTakesEffect | hypertile-core/src/executor.rs:212-219 | an enqueued task goes to the back of the own deque, or of the injector without one |
| Conservation.RegisterTakesEffect | hypertile-core/src/worker.rs:62-79 | a registration begins the flush of the deque installed before, or installs its own |
| Conservation.FlushCompletes | hypertile-core/src/worker.rs:73-77 | a flush moves the whole deque to the back of the injector in order, and then installs the new one |
| Conservation.DropTakesEffect | hypertile-core/src/worker.rs:271-287 | a live guard ends its worker and begins the flush of its deque if the thread still has that installed; a stale one touches nothing else |
| Conservation.StealTakesBatch | hypertile-core/src/waker.rs:95-121 | the first of the batch in hand, the others behind the own deque, in order |
| Threads.LocalCell.TakeLocalWorker | hypertile-core/src/waker.rs:55-63 | succeeds only for the owner, and else changes nothing |
| Threads.LocalCell.TryPushLocal | hypertile-core/src/waker.rs:73-82 | pushes at the back, or hands the task back |
| Threads.LocalCell.LocalPop | hypertile-core/src/waker.rs:85-92 | pops at the front |
| Threads.LocalCell.StealIntoLocal | hypertile-core/src/waker.rs:95-121 | takes a nonempty prefix: its first task out, the others to the own deque in order; one task without a deque; nothing on Empty or Retry |
| Threads.ExecutorCore.Inject | hypertile-core/src/executor.rs:212-219 | onto the own deque or the injector, never both; after an injector push the topmost idle registered worker gets a token if there is one |
| Threads.ExecutorCore.Drain | hypertile-core/src/worker.rs:73-77 | the whole deque reaches the injector in order |
| Threads.Thread.RegisterWorker | hypertile-core/src/worker.rs:62-108 | the earlier deque is flushed, the new registration owns an empty one |
| Threads.Thread.DropGuard | hypertile-core/src/worker.rs:271-287 | only its own registry entry goes; the deque is flushed if it is the newest registration's, and a stale guard flushes nothing |
| Threads.Thread.HypertileRegisterWorker | hypertile-capi/src/lib.rs:407-416 | the replaced registration is dropped without touching the new deque |
| Threads.Thread.PutBack | hypertile-capi/src/lib.rs:424-446 | the registration returns to an empty slot, or is dropped, flushing its deque if it is the newest and touching no newer one's |
| Threads.Thread.HypertileWorkerRunUntilIdle | hypertile-capi/src/lib.rs:424-446 | Ok if and only if a registration was in the slot; whatever the tasks do, it is back in the slot afterwards, or dropped when a task's own is there |
| Threads.Thread.HypertileWorkerDeregister | hypertile-capi/src/lib.rs:449-456 | Ok if and only if a registration was in the slot, which is then gone |
| WorkerLoop.ScanVisitsEachOnce | hypertile-core/src/worker.rs:137-156 | from any start the rotated scan visits every other worker exactly once and never itself |
| WorkerLoop.WorkerHandle.LocalPop | hypertile-core/src/waker.rs:85-92 | the front of the own deque as it then is, none exactly when it is empty |
| WorkerLoop.WorkerHandle.StealInjector | hypertile-core/src/waker.rs:95-121 | Empty exactly when the injector is empty, Retry exactly when a steal from a nonempty one collides, else its front in hand, the rest of the batch behind the own deque and the batch gone from the injector |
| WorkerLoop.WorkerHandle.StealPeer | hypertile-core/src/worker.rs:147-148 | the same of a peer: Empty if and only if its queue is empty at the probe |
| WorkerLoop.WorkerHandle.ProbePeer | hypertile-core/src/worker.rs:143-156 | none if and only if it is the worker itself, its queue is empty, or it collides and the second try fails |
| WorkerLoop.WorkerHandle.SearchQueues | hypertile-core/src/worker.rs:120-133 | none if and only if the own deque is empty and the injector fails, twice when the first try reads Retry |
| WorkerLoop.WorkerHandle.FindTask | hypertile-core/src/worker.rs:110-160 | a task found comes from the first place in the hierarchy that gave one (on every 64th tick the injector comes first, with one try); a miss has searched everything; with nobody else acting and no collision the answer is the front of the first nonempty queue, and none if and only if the own deque, the injector and every other listed worker are empty |
| WorkerLoop.WorkerHandle.MissVisitsEveryPeer | hypertile-core/src/worker.rs:133-156 | a full miss probes every other worker of the snapshot exactly once |
| WorkerLoop.WorkerHandle.Spin | hypertile-core/src/worker.rs:207-219 | a spin without a find has looked 32 times at both queues and leaves the own deque empty |
| WorkerLoop.WorkerHandle.RunOne | hypertile-core/src/worker.rs:249-256 | true when it ran the task that the search found, false after a search that found none; with nobody else acting true if and only if some queue had a task |
| WorkerLoop.WorkerHandle.RunUntilIdle | hypertile-core/src/worker.rs:242-246 | it ends with a search that found none |
| WorkerLoop.WorkerHandle.DrainLocal | hypertile-core/src/worker.rs:195-203 | local tasks are taken and run until sixteen have run or the deque is found empty |
| WorkerLoop.WorkerHandle.CheckAgainAndPark | hypertile-core/src/worker.rs:224-237 | after 32 turns of the spin the worker is marked idle, and parks if and only if the second look at the injector fails |
| WorkerLoop.WorkerHandle.Iterate | hypertile-core/src/worker.rs:168-239 | one turn: a find, its run and the drain; or a full miss, the spin, and a task run or the second look at the injector and then the park |
| WorkerLoop.WorkerHandle.RunLoop | hypertile-core/src/worker.rs:163-239 | from any tick, also after other runs of the handle: the log is the chain of exactly as many turns as the pool was found running, each with one tick and each a turn of `Iterate`; in every run at most 1088 tasks run between two first probes of the injector, every task taken runs at once and nothing else does, and every park is with the own deque empty |
| WorkerLoop.SoundNeverStarves | hypertile-core/src/worker.rs:111-118 | the count since the last first probe bounds the runs in every stretch of the log without one |
| WorkerLoop.WorkerHandle.Progress | hypertile-core/src/worker.rs:111-118 | the bound holds across the wrap-around of the tick counter |
| CapiWait.DoneMeansStored | hypertile-capi/src/lib.rs:146-147 | done implies a stored result |
| CapiWait.DrainedExactlyOnce | hypertile-capi/src/lib.rs:149-155 | each registered unparker is unparked at most once, exactly once when the drain is over, and then no waiter is parked without a token |
| CapiWait.AnswersAreTheResult | hypertile-capi/src/lib.rs:210-252 | a finished wait, or a poll that is not Pending, answers Ok with the value the work returned, and ErrPanic without a value when it panicked; nothing else is answered |
| CapiWait.PendingOnlyBefore | hypertile-capi/src/lib.rs:181-184 | Pending is answered only by a poll that read not done |
| CapiWait.AnswersAtOnce | hypertile-capi/src/lib.rs:172-252 | in every run, a poll or a wait that begins after done is not held up and answers the result |
| CapiWait.WaitRegisters | hypertile-capi/src/lib.rs:214-230 | a wait that finds not done under the lock registers at the back of the list and sleeps |
| CapiWait.ParkEnds | hypertile-capi/src/lib.rs:232-234 | a parked waiter looks again when it holds a token, which it gives up, or spuriously |
| CapiCalls.HypertileTaskInner.RunWork | hypertile-capi/src/lib.rs:127-155 | the result of the work is stored; when the spawned task ends the list is empty, everybody registered was unparked once, every parked caller holds a token |
| CapiCalls.HypertileTaskInner.HypertileWait | hypertile-capi/src/lib.rs:210-252 | a finished wait answers Ok with the value the work returned, or ErrPanic without one when it panicked; at the end of the script it can be parked only if the work has not finished or the list is locked |
| CapiCalls.HypertileTaskInner.HypertilePoll | hypertile-capi/src/lib.rs:172-200 | never Pending after done; otherwise Ok with the value the work returned, or ErrPanic without one when it panicked |
| CapiCalls.HypertileTaskInner.Park | hypertile-capi/src/lib.rs:232-234 | a token reaches a waiter only after done |
| ChunkPlan.DivCeil | hypertile-capi/src/lib.rs:349-350 | the quotient rounded up in 64 bits: enough chunks, and one fewer would not do |
| ChunkPlan.CountedPlan | hypertile-capi/src/lib.rs:347-362 | the C loop tiles the batch without overflow into at most 4 times the workers chunks of one size, the last one shorter |
| ChunkPlan.BreakingPlan | hypertile-sys/src/lib.rs:531-543 | so does the loop that leaves at an empty chunk |
| ChunkPlan.Bounds | hypertile-sys/src/lib.rs:538-543 | start and end of a chunk do not overflow, and it is empty exactly when the batch is over |
| ChunkPlan.TilesCover | hypertile-capi/src/lib.rs:360-362 | every item is in exactly one chunk |
| ChunkPlan.BothLoopsAgree | hypertile-sys/src/lib.rs:820-832 | both loops cut a batch into the same chunks |
| CapiBatch.BatchIsMap | hypertile-capi/src/lib.rs:364-396 | in every run that returns, each slot holds `work(args[i])` or null, and ErrPanic is answered if and only if some item panicked |
| CapiBatch.BarrierHolds | hypertile-capi/src/lib.rs:383-390 | the caller passes only when every slot is decided, and cannot stay parked once every chunk has ended |
| CapiBatch.Decided | hypertile-capi/src/lib.rs:370-385 | a zero counter means every item is decided |
| CapiBatchCalls.BatchCall.RunChunk | hypertile-capi/src/lib.rs:366-386 | when a chunk ends, each of its slots holds the work of its item or null and a panic has raised the flag; one that counts down to zero has released the barrier and left the token |
| CapiBatchCalls.BatchCall.Wait | hypertile-capi/src/lib.rs:388-396 | the array is the map of the work over the arguments when it returns; only a chunk that has not ended can keep it parked |
| CapiBatchCalls.HypertileBatchSpawn | hypertile-capi/src/lib.rs:324-396 | the whole call, from worker count and arguments to array and status, is the sequential map; only a chunk that has not ended can cut it off |
| Completion.CallbacksExactlyOnce | hypertile-sys/src/lib.rs:37-68 | no callback runs twice or before done, and each has run exactly once when all is over, for any registrants, also for empty batches |
| Completion.DoneMeansPublished | hypertile-sys/src/lib.rs:843-876 | a zero counter means a panic is recorded, if and only if some call panicked, or every slot holds its own call's result |
| BatchAnswers.AnswerIsCorrect | hypertile-sys/src/lib.rs:843-876 | in every run a finished batch answers with the message of some chunk's first panic if anything panicked, else the error with the smallest index, else all values in order |
| BatchAnswers.CorrectIsUnique | hypertile-sys/src/lib.rs:741-760 | where the panicking chunks agree on their message there is one correct answer |
| BatchAnswers.MessageIsFirst | hypertile-sys/src/lib.rs:847-857 | of several panicking calls of a chunk the message is that of the smallest index |
| BatchAnswers.LastPublisherDecides | hypertile-sys/src/lib.rs:866-869 | for each panicking chunk some run raises its message |
| BatchAnswers.DeterminedExactlyWhen | hypertile-sys/src/lib.rs:741-760 | all interleavings give the same answer if and only if the panicking chunks all have the same first message |
| BatchAnswers.OrderDecidesMessage | hypertile-sys/src/lib.rs:866-869 | two runs of one batch that raise different messages |
| Completion.StepInv | hypertile-sys/src/lib.rs:558-590 | every step keeps each callback in exactly one place and the counter equal to the items not yet counted |
| CompletionCalls.BatchCallableInner.CallItems | hypertile-sys/src/lib.rs:847-857 | the loop over a chunk gathers its results in order, or stops at the panic with the smallest index and keeps its message |
| CompletionCalls.BatchCallableInner.FillSlots | hypertile-sys/src/lib.rs:859-864 | exactly the chunk's slots are filled, each with its own result |
| CompletionCalls.BatchCallableInner.RunChunk | hypertile-sys/src/lib.rs:843-883 | publish, count down, and drain if last, as a run of the machine |
| CompletionCalls.BatchCallableInner.RunTaken | hypertile-sys/src/lib.rs:876-881 | every callback taken is run |
| CompletionCalls.BatchCallableInner.AddCompletionCallback | hypertile-sys/src/lib.rs:37-68 | a registration after done has run its callback on return; one before it leaves the callback to be drained |
| CompletionCalls.BatchCallableInner.Result | hypertile-sys/src/lib.rs:741-760 | not completed while the counter is above zero, and after that all values in order, the error with the smallest index, or the recorded panic message |
| Trampoline.OneContinuation | hypertile-sys/src/bilingual.rs:52-201 | until termination exactly one continuation is queued, stepping or hooked, none afterwards, and steps never overlap |
| Trampoline.RefinesTrampoline | hypertile-sys/src/bilingual.rs:74-84 | in every run the inputs are those of the sequential trampoline |
| Trampoline.ResumesAre | hypertile-sys/src/bilingual.rs:74-84 | in every run the first resume passes None, one after a bare yield None, and one after a future its value or its exception, or None when it was cancelled |
| Trampoline.ReportsAre | hypertile-sys/src/bilingual.rs:85-199 | in every run the report is what the last resume answered: the value returned, the exception raised, the panic, or that it yielded something else; after a yield it is TaskCancelled |
| Trampoline.DoneFiresOnce | hypertile-sys/src/bilingual.rs:60-103 | the done callback fires exactly once, on termination, with how the coroutine ended |
| Trampoline.NoResumeAfterCancel | hypertile-sys/src/bilingual.rs:61-69 | once the token is set and no run is past its check, no step of any schedule resumes the coroutine |
| Trampoline.CancelIsReported | hypertile-sys/src/bilingual.rs:61-69 | a coroutine that has not ended by then ends with the report TaskCancelled and no other |
| TrampolineProgress.NeverStuck | hypertile-sys/src/bilingual.rs:52-201 | from every state a run can reach while the coroutine is alive, some further steps without a cancellation resume it once more or end it |
| TrampolineProgress.CancelEnds | hypertile-sys/src/bilingual.rs:61-69 | a cancellation while nobody is resuming the coroutine can be carried through: it ends without another resume and reports TaskCancelled |
| Trampoline.DeliversUnlessCancelled | hypertile-sys/src/bilingual.rs:112-137 | in every run, the resume after a future delivers its outcome if and only if it was not cancelled; a cancelled one resumes with None |
| Trampoline.StepInv | hypertile-sys/src/bilingual.rs:52-201 | every step keeps the continuation unique and the inputs on the trampoline |
| CoroutineTasks.PyCoroutineTask.Run | hypertile-sys/src/bilingual.rs:52-201 | a run that begins with a live coroutine and the token set makes no resume and reports TaskCancelled; one that nobody asks to cancel makes exactly one resume; one that ends the coroutine has fired the callback once, with this report, for good |
| CoroutineTasks.PyCoroutineTask.Finish | hypertile-sys/src/bilingual.rs:178-199 | the coroutine is dropped and the callback taken and called |
| CoroutineTasks.PyCoroutineTask.StepCoroutine | hypertile-sys/src/bilingual.rs:74-177 | exactly one resume, with the pending value or None; a yielded future is hooked, a bare yield requeued, anything else is reported as the end |
| CoroutineTasks.PyCoroutineTask.FutureDone | hypertile-sys/src/bilingual.rs:108-137 | the value or the exception of the future waits for the next resume, nothing when it was cancelled, and the task is queued |
| Timer.NothingFiresEarly | hypertile-core/src/timer.rs:81-111 | in every run a waker in the driver's hands belongs to a sleep whose deadline has passed |
| Timer.DriverWakesInTime | hypertile-core/src/timer.rs:113-123 | a blocked driver was notified or its timeout reaches no further than any deadline in the heap |
| Timer.NoSleepLost | hypertile-core/src/timer.rs:182-205 | while the polls pass one waker, a pending sleep's entry is in the heap with it, or it is about to be woken, or was |
| Timer.PollCompletes | hypertile-core/src/timer.rs:182-198 | with the driver's lock free, a poll that reads the clock more than 50 microseconds early returns Pending with its waker stored, an entry in the heap and a sleeping driver notified; any other returns Ready with the slot empty |
| Timer.OverLeavesNothing | hypertile-core/src/timer.rs:182-205 | in every run a sleep that was dropped or has answered Ready leaves its slot empty, and no turn of the driver takes a waker from it |
| Timer.DriverSleepsExactly | hypertile-core/src/timer.rs:113-123 | in every run the timeout of a driver asleep and not notified ends at exactly the soonest deadline, and there is none exactly over an empty heap |
| Timer.SweepTakesWhatIsDue | hypertile-core/src/timer.rs:88-101 | a sweep pops the soonest entry while that is due and ends when none is |
| Timer.DriverAdvances | hypertile-core/src/timer.rs:81-123 | the driver empties the slot of each entry it popped, wakes what it found in order, and leaves its sleep when notified, when its timeout is over, or spuriously |
| Timer.DropTakesEffect | hypertile-core/src/timer.rs:201-205 | a sleep dropped between two polls is over with its slot empty, and its entry stays in the heap |
| Timer.ShutdownTakesEffect | hypertile-core/src/timer.rs:137-141 | a shutdown rouses a sleeping driver, which then ends |
| Timer.ReadyExactlyWhen | hypertile-core/src/timer.rs:182-198 | in every run a poll answers Ready if and only if its clock reading is at least `deadline - 50`; so an answer rests on a reading before the deadline exactly for a reading in `[deadline - 50, deadline)` |
| Timer.ReadyEarly | hypertile-core/src/timer.rs:184-190 | a sleep until 100 answers Ready at 50 |
| Timer.LostExactlyWhen | hypertile-core/src/timer.rs:189-198 | for any wakers a step loses a sleep if and only if it stores the waker after the driver took the entry |
| Timer.LostNeedsLateStore | hypertile-core/src/timer.rs:189-198 | every run that ends with a sleep lost contains such a store |
| Timer.OneWakerNeverLost | hypertile-core/src/timer.rs:182-198 | in every run a sleep whose polls all pass the same waker is not lost |
| Timer.ChangedWakerIsLost | hypertile-core/src/timer.rs:189-198 | for any two different wakers and any deadline more than 50 microseconds away, a run that loses the second waker |
| Timer.LosableExactlyWhen | hypertile-core/src/timer.rs:182-198 | two polls can lose a sleep if and only if their wakers differ and the deadline is more than 50 microseconds away |
| TimerHeap.OrdIsSooner | hypertile-core/src/timer.rs:37-45 | the greatest entry is the one due first, ties going to the earlier registration, and the order is total and transitive |
| TimerHeap.TimerDriver.Register | hypertile-core/src/timer.rs:125-135 | the entry joins the heap in order under a fresh identifier and the driver is notified |
| TimerHeap.TimerDriver.CollectExpired | hypertile-core/src/timer.rs:88-101 | exactly the entries that are due leave, soonest first, and their wakers are taken in that order |
| TimerHeap.TimerDriver.RunTimerLoop | hypertile-core/src/timer.rs:81-123 | its log is that of the turns taken: each popped exactly the entries due, woke exactly the wakers then in their slots, and served exactly the requests made while it woke and waited; it ends only on shutdown, tested before each sweep |
| TimerHeap.TimerDriver.TakeTurn | hypertile-core/src/timer.rs:84-121 | one such turn; it waits if and only if it was not told to stop and nothing is due |
| TimerHeap.NothingLost | hypertile-core/src/timer.rs:88-101 | every entry in the heap or registered meanwhile is still there or was popped, exactly once |
| TimerHeap.PoppedWhenDue | hypertile-core/src/timer.rs:88-101 | no entry is popped before its deadline, and one registered before a turn that finds it due has been popped after its sweep |
| TimerHeap.DueEntryIsWoken | hypertile-core/src/timer.rs:92-111 | an entry due at a sweep, not popped before, with a waker in its slot, has that waker woken in that turn |
| TimerHeap.TakenOnly | hypertile-core/src/timer.rs:92-101 | a waker woken was in the slot of an entry popped |
| TimerHeap.TakenOnce | hypertile-core/src/timer.rs:92-101 | no slot is taken from twice in a sweep |
| TimerHeap.StoredStays | hypertile-core/src/timer.rs:191 | a stored waker stays in the slot until somebody touches it |
| TimerHeap.TimerDriver.NextTimeout | hypertile-core/src/timer.rs:113-123 | zero when something is due, none over an empty heap, else exactly until the soonest deadline |
| Pipeline.RoundIsBijective | hypertile-sys/src/lib.rs:257-259 | every round has an inverse on 64-bit words |
| Pipeline.RoundsInjective | hypertile-sys/src/lib.rs:257-259 | any number of rounds keeps different states different |
| Pipeline.LeBytesInjective | hypertile-sys/src/lib.rs:262 | the little-endian bytes determine the word |
| Pipeline.SlotHoldsLastRound | hypertile-sys/src/lib.rs:260-263 | slot k holds the state just after the last round r below `rounds` with r mod 16 = 4k |
| Pipeline.EqualOutputsIffEqualHashes | hypertile-sys/src/lib.rs:250-266 | for equal `rounds` of at least 1, two payloads give equal outputs if and only if their FNV-1a hashes are equal |
| Pipeline.HashPayload | hypertile-sys/src/lib.rs:251-255 | the hashing loop computes 64-bit FNV-1a (section 2 of draft-eastlake-fnv) |
| Pipeline.KnownHashes | hypertile-sys/src/lib.rs:251-255 | the FNV-1a values of the empty payload, of "a" and of "fo" |
| Pipeline.KnownOutputs | hypertile-sys/src/lib.rs:250-266 | the whole output for the payload "a" after one round and after five |
| Pipeline.RunCryptoPipeline | hypertile-sys/src/lib.rs:250-266 | the loops compute the output described by slots |

## Left out

- Memory orderings weaker than sequential consistency, and the internals of the lock-free deques, the
  injector and the parker. Pops, pushes and batch steals are atomic; a batch steal takes any nonempty
  prefix.
- A `Steal::Retry` in the injector double check caused by a thread outside `run_loop`: Retry is
  modelled there only when another looping worker's steal succeeds at the same moment. Elsewhere Retry
  is unrestricted.
- Liveness with no looping worker, after shutdown, or when a worker blocks on its own batch.
- Panics raised while a future is dropped, and one thread registered with two executors.
- Conservation models deques by worker on values, shared by owner and thieves; Threads keeps a deque
  inside the cell of its thread, so the owner's and a thief's handle on one deque are not aliased
  there.
- WorkerLoop logs `mark_idle` but not `unmark_idle`, and parks without a timeout of its own: both are in
  Parking.
- Parking keeps the injector as a count of tasks; what the tasks are is in Conservation.
- Trampoline: the exception thrown into a cancelled coroutine is not recorded among its inputs; the
  source ignores what the coroutine answers. Futures call back once and pass themselves, and
  `add_done_callback` does not fail.
- Timer models the heap as the set of sleeps with an entry; its order is in TimerHeap, where others act
  only while the driver has dropped its lock.
- Null pointers and raw-pointer validity in the C ABI: arguments and results are arrays. The callback
  form of spawn and `hypertile_task_destroy` add nothing to the hand-shake.
- Attaching to the interpreter, exception matching in `wrap_done_callback`, `bridge_task_await`, the
  event-loop policy, signals and the Python wrappers. The native batch, single native task and single
  callable are the batch machine with one item or with calls that raise no errors.
- Pool sizing, the environment variables, the configuration race, `spawn_local`, shutdown joining.
- The budget and yield counters of bilingual workers and the quality of the victim choice: the scan
  starts anywhere.
- Benchmarks, examples, packaging.
