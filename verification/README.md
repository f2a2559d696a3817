# MVSync in Dafny

MVSync is a task executor: a dispatcher thread hands tasks to worker threads, tasks depend on each other through
semaphores and continuations, and command buffers record chains of tasks that are later baked into such a dependency
graph. This project models its concurrent protocol, the baking and running of command buffers, the signals and the
timer, and proves what holds over all their runs.

## How it is built

**The protocol** (`Tasks`, `Memory`, `Protocol`) is a state machine. One step is one access to shared memory: a channel
send or receive, a load, a `fetch_add` or `fetch_sub` on a `u32` that wraps, a state write, one semaphore, one wake, one
consumption of a flag, one half of a poll. The one exception is `can_execute`, which reads all semaphores of a task and then
the state of its predecessor in one step. That loses no run: semaphores stay signalled and a state never goes back to
Pending, so if the reads, one by one, all find what they look for, they all find it together at the last of them; and if
one of them does not, neither would a read of all at that moment. `TaskHandle::wait` is three steps. `Protocol.Exec(c, run)` is the state after
`run`, a sequence of any steps of any threads, so a lemma about `Exec` is about every interleaving. The steps of outsiders
are submissions, cancels, competing waits on a signal, `wait` and `wait_async` on handles, and calls of wakers. Task
bodies are arbitrary functions that yield or panic, after any number of pending polls. Inside an `async` body the
wait for the predecessor blocks the worker, as it does in the source.

`ProtocolInvariant.Inv` is the invariant, and `ProtocolProof.RunInv` its preservation over every run. It is proved by
rely and guarantee: `WorkerProof` and `DispatcherProof` for the thread that moves, `ProtocolInvariant.DFrame` and `WFrame`
for those that do not, `ListProof` for the lists. On it rest `Results` (conservation, dependencies, handles, schedule
independence), `Order` (first come, first served), `Answers` and `Flags` (what handles, controllers and fences see), `Cancels` (what a
cancel or a panic does to which tasks), `Slots` and `Losses` (slots, and what they are lost to), `QueueWake` and `WorkerWake` (lost
wake-ups, clogging), `Relaxation`, `Wishes` and `Placement` (when which wishes are given up, and what the dispatcher sleeps through),
`Crash` (when the dispatcher dies), `Stalls` (runs that stop with work left), `Quiescence` (what is done when nothing moves), `Progress`
(every fair schedule comes to a standstill) and `Completion` (and by then all is done).

**Command buffers** (`RawBuffer`, `Ownership`) and **the sequential executor** (`Run`) are classes, with the loops of the source.
Each method is proved against a function on values: `Binding.Bind` for baking, `Run.Pass` for a pass of `run_all`,
`Ownership.Apply` for the handles. `Binding`, `Baking`, `ChainRuns`, `RunProof`, `BakeThenRun` and `TwoExecutors` prove what those
functions mean.
`Closure.Least` is the yardstick that both executors are measured with: the least set of tasks closed under "all that I depend
on is done, so I get done".

**One pass of the dispatcher** also has a form of its own, the loops of `Greedy` over an array of counters; `DispatchAlone` proves that
the protocol, when only the dispatcher moves, does the same.

**Signals and the timer** are small: `Signals` and `Sync` have the classes, and `Signals` and `Timer` the state machines of threads that
await a signal, and of the timer thread.

## What the code does that its names or comments do not say

- A command on a builder goes to the chain that is last at the time, whichever chain its predecessor is in
  (`src/command_buffers/buffer.rs:111-129`), and `response` takes the controllers of the last chain (lines 131-133). So the order of the baked
  list is the order of creation.
- Links are not checked for cycles (`src/command_buffers/buffer.rs:273-280`). A recording is run to its end, by the queue and by enough
  passes of `run_all`, exactly if no set of tasks is tangled up: each following another one of the set, over a link, along its chain, or as
  the continuation of it (`Baking.Untangled`, `Baking.AllGetDone`). A link of a chain to itself always tangles that chain
  (`Baking.SelfLinkTangles`). A link to an earlier chain need not tangle anything (`Baking.BackwardLinkIsUntangled`), but one
  pass of `run_all` is then not enough: `BakeThenRun.BakedRunsInOnePass` and `Baking.BakedIsForward` have the exact condition for that.
- `run_all` never returns: the counter that should end its loop starts anew in every turn (`src/run.rs:41-43`).
  `Run.Executor.RunPass` proves that it stays below 5. All statements about `run_all` are about a number of turns.
- Giving up the wishes of a task wakes nobody (`src/queue.rs:113-121`). `Placement.NoLostWakeUp` excepts such tasks, and
  `Relaxation.RelaxationStalls` is a run in which the dispatcher sleeps for ever on a task that it could send. It takes a task
  whose wishes no thread fits: `Placement.RelaxedIfUnfit` and `Placement.NeverRelaxed` prove that exactly those are given up, and
  `Placement.SleepsExactly` what the dispatcher sleeps through.
- A `cancel` wakes nobody either (`src/task.rs:251-253`); the dispatcher may not see it before it next looks at the tasks concerned.
  `Placement.SleepsExactly` counts such tasks among those it sleeps through, and `Stalls.CancelStalls` is a run in which it sleeps for ever
  on a task that it could settle.
- A `cancel` of the predecessor between `is_panicked` and `get_panic` (`src/queue.rs:71-72`) kills the dispatcher thread. `Crash` has the
  exact condition, and such a run.
- A `wait` on a signal that others await can strand them for good (`src/block.rs:43`). `Signals.StepGood` has the exact condition, and
  `Signals.WaiterCanBeStranded` such a run.
- The timer thread misses a notification that comes between its look at an empty heap and its wait (`src/timer.rs:87`, `src/timer.rs:105`).
  `Timer.StepAwake` has the exact condition, and `Timer.TimerOversleeps` such a run.
- A fence that is bound to several tasks follows the one bound last, not the one that ends first (`src/sync.rs:58-62` against the comment
  at line 43). `Sync.OpensWithFirstIfAlone` proves that the comment holds for fences on one task only.
- A slot is given back only when a future comes to its end; the slots of bodies that panic, and of tasks that are cancelled while their
  future is pending, are lost (`src/queue.rs:311-336`). `Losses.SlotsAccounted` counts them. They can starve a task:
  `Stalls.LostSlotStalls` and `Stalls.DroppedSlotStalls` are such runs, and `Quiescence.RestIsComplete` proves that at rest, without
  cancels, nothing else keeps a task from getting done.
- A `cancel` of a task whose function runs is lost if the function comes to its end: the result is written over it (`src/task.rs:75-77`).
  `Cancels.CancelIsOverwritten` proves it. Earlier cancels stop the task (`Cancels.CancelStops`), and later ones are what a `wait` answers
  (`Answers.CancelTakesEffect`).
- A body that panics in `run_all` stops the calling thread; its task is left without a state, and its semaphores unsignalled
  (`src/run.rs:72-79`). `RunProof.PanicStops` proves it.
- Whoever waits for a task, on its handle, on a fence, or as its continuation, takes down the flag that a fence on that task shows
  (`src/block.rs:43`), so the fence is shut again after its task has ended. `Sync.ShutByWait` has the exact condition.

## Model

| member | source | states |
|---|---|---|
| ProtocolProof.RunInv | src/queue.rs:53-134 | in every run, cancels and competing waiters included, the whole invariant holds: where each task is, how far it has come, what has been fired for it, what each thread knows at its program point |
| Results.Conservation | src/queue.rs:53-134 | at every moment a submitted task is in exactly one of channel, dispatcher list, worker channel, worker futures and retired list, once; its semaphores and both signals are fired at most once, and exactly once, in order, when it has retired |
| Order.FirstComeFirst | src/queue.rs:56-66 | in every run, the tasks that the dispatcher has, then those in its channel, stand in the order in which they were submitted, and the tasks of a worker, its channel included, in the order in which they were sent to it; so what a pass does earliest first, it does for the earliest submitted |
| Order.BroughtOnce | src/queue.rs:136-148 | each task is brought to the dispatcher by one step of the run only, its submission, and to a worker by one only, its sending |
| Order.ReceivedBeforePass | src/queue.rs:302-306 | in every run, a task that is in the channel of a thread which has tasks, and is between two passes over them, is received before any of them is looked at or polled again; the dispatcher (lines 62-66) and the workers alike |
| Order.TakesOneAlone | src/queue.rs:56-61 | a thread that has no task takes exactly one, the first, from its channel before its next pass |
| Results.DependencySafety | src/task.rs:197-200 | a function has been called only if each semaphore its task waits for was signalled by a task that carries it and is settled, and the predecessor is settled; and it was called once |
| Results.HandlesAreSafe | src/task.rs:316-324 | in every run no `wait` on a handle has found its task Pending or Ready without a value, and none can |
| Answers.AnswerIsSeen | src/task.rs:316-324 | in every run, a `wait` on a handle answers with the value exactly if the task was Ready when it looked at the state, with a panic exactly if it was Panicked, and as cancelled exactly if it was Cancelled |
| Answers.CancelIsAnswered | src/task.rs:318-321 | once a task has ended and is cancelled, and no `wait` has looked at it before, no run makes a `wait` answer anything but Cancelled, value or no value |
| Answers.CancelTakesEffect | src/task.rs:251-253 | a `cancel` of a task that has ended, whatever its result, leads there, if no `wait` has looked yet |
| Answers.ValueConserved | src/task.rs:319 | from the moment that a value is written down, in every run, it is in exactly one place: with the task, or with the one who waited for it |
| Flags.FlagIsUp | src/block.rs:34-64 | in every run, the flag of a task's signal, which fences and controllers show, is up exactly if the task has woken it and no blocking `wait` has come since, be it on a controller or fence, on the handle, or by the continuation; `wait_async` leaves it up |
| Cancels.CancelStops | src/queue.rs:82-93 | a task cancelled before the dispatcher looks at its state is never sent to a worker and never called, in any run; it ends cancelled, or panicked if it inherits a panic |
| Cancels.CancelIsPassedOn | src/task.rs:88-105 | once a task has ended and is cancelled, the function of a task that continues it and was not called yet is never called, in any run, and that task ends cancelled |
| Cancels.PanicIsPassedOn | src/queue.rs:71-81 | once a task has panicked and ended, the function of a task that continues it and was not called yet is never called, and that task ends panicked, even if it was cancelled before, unless one of them is cancelled afterwards |
| Cancels.CancelledIsDropped | src/queue.rs:311-324 | a task that is cancelled when its future gives Pending is retired by its worker alone within a known number of steps and its future is dropped; one that is not cancelled is kept |
| Cancels.CancelIsOverwritten | src/task.rs:75-77 | a function that runs to its end writes its result over a cancel; the state is then that of the fold, and Ready comes with the value |
| Results.ScheduleIndependence | src/task.rs:82-145 | every retired task and every answered handle has the result of the sequential fold over its chain, or is cancelled because it or one it continues was cancelled; the function got the folded value, and after a panic it is never called |
| Results.SchedulesAgree | src/queue.rs:308-346 | two cancel-free runs that both retire a task leave it in the same state, that of the sequential fold |
| Slots.SlotsConserved | src/queue.rs:356-360 | free, used and lost slots of a worker add up to `workers_per_thread`, plus one between send and `fetch_sub`; used and lost slots never exceed it; the one case in which the `u32` shows a wrapped value |
| Losses.SlotsAccounted | src/queue.rs:308-346 | in every run, cancels included, a worker has lost exactly one slot for each of its steps at which a body has panicked or a cancelled task gave Pending; its counter has gone up, modulo `u32`, exactly with each future that came to its end, and down with each task that was counted |
| Placement.NoLostWakeUp | src/queue.rs:130-148 | when the dispatcher sleeps with its flag down and nobody owes it a wake, its channel is empty and no kept task could be retired, sent or relaxed, save tasks relaxed in the last pass, and tasks that were cancelled, or whose predecessor was, since the dispatcher last looked at them; which of these it could get on with, `SleepsExactly` says |
| Placement.SleepsExactly | src/queue.rs:107-132 | in every run, cancels included, the kept tasks that a sleeping dispatcher to which nothing is owed could get on with are exactly those that can execute and that were cancelled, or whose predecessor was, since it last looked at them, or that it relaxed in its last pass and could now send, or relax again |
| Placement.NeverRelaxed | src/queue.rs:95-122 | if some thread fits the wishes of every task as submitted, the label of `submit_on` counted, no task is relaxed in any run, cancels included |
| Placement.RelaxedIfUnfit | src/queue.rs:113-121 | in every run a task that comes to placement is relaxed exactly if no thread fits its wishes |
| Placement.SleepsThroughNothing | src/queue.rs:130-132 | with wishes that fit and no cancels, a sleeping dispatcher to which nothing is owed keeps no task that it could get on with |
| Placement.WishesStay | src/queue.rs:113-121 | in every run in which the wishes of all submissions fit, a task keeps the wishes it was submitted with |
| Stalls.CancelStalls | src/task.rs:251-253 | there is a run after which the dispatcher sleeps on a continuation whose predecessor was cancelled since, which it could settle; nothing is owed, and no thread can move |
| Stalls.LostSlotStalls | src/queue.rs:311-336 | there is a run without cancels and stolen signals that comes to rest with a task starved: a body panics on the only slot, and the next task, which can execute, stays with the dispatcher |
| Stalls.DroppedSlotStalls | src/queue.rs:311-322 | there is a run that does so without a panic: a task gives Pending on the only slot, is cancelled, and gives Pending again |
| Losses.LostToPanics | src/queue.rs:311-336 | without cancels, the workers together have lost exactly as many slots as there are bodies that were called and panicked, and so never more than there are bodies that panic when they are called |
| Crash.CrashesExactly | src/queue.rs:71-72 | from every reachable state in which the dispatcher has seen a panic and not taken it, its next step kills it if and only if the predecessor was cancelled after it saw the panic |
| Crash.CrashesOnlySo | src/task.rs:206-212 | a dead dispatcher has died in exactly this way |
| Crash.DispatcherCrashes | src/queue.rs:71-72 | there is such a run, with one thread, a task that panics and one that continues it |
| Results.OpenWithFirst | src/sync.rs:26-34 | in every run a semaphore is open exactly if some task that carries it has signalled it, and it stays open |
| WorkerWake.NoLostWorkerWakeUp | src/queue.rs:291-351 | when a worker sleeps with its flag down, its channel is empty or the dispatcher owes it a wake, and no waker of its futures was called since their last poll |
| WorkerWake.WorkersNotClogged | src/task.rs:119-124 | when a continuation waits for its predecessor on a worker, the signal is set, or was consumed by an outsider, or another thread is retiring the predecessor |
| WorkerWake.RetirerWakes | src/queue.rs:335-343 | that other thread, left to itself, sets the signal within a known number of its own steps, so no cycle of waiting threads exists |
| Relaxation.RelaxedAtMostTwice | src/queue.rs:113-121 | in every run a task is relaxed at most twice; after two times it may run on every thread and never lacks a target again |
| Wishes.GivenUpInOrder | src/queue.rs:113-121 | in every run a task has the wishes it was submitted with, the label of `submit_on` in the place of its own, less those given up: first the preferred thread, if there is one, then the excluded ones |
| Relaxation.RelaxationStalls | src/queue.rs:107-132 | there is a run after which the dispatcher sleeps on a task that it could send, nothing is owed, and no thread can move |
| Progress.MoveDescends | src/queue.rs:286-351 | every step of a thread that changes anything, polls that give Pending included, gets a task further, or consumes a flag, or gets a pass further |
| Progress.NoEndlessRun | src/queue.rs:53-134 | under every schedule of the threads, fair or not, the state stays the same from some step on |
| Progress.ComesToRest | src/queue.rs:286-351 | from every reachable state, every fair schedule of the threads comes to a standstill, and stays there |
| Quiescence.RestIsComplete | src/queue.rs:68-132 | when a cancel-free run has come to rest, the retired tasks are exactly the least closed set of the submitted tasks if and only if no task is starved, that is, none that can execute has lost all slots of all threads that it may run on; each retired task has the result of the fold |
| Quiescence.RestingTask | src/queue.rs:107-112 | at rest, the starved tasks are exactly the submitted ones that are not retired although all that they depend on is |
| Quiescence.NotStarved | src/queue.rs:107-112 | without cancels a task is not starved if the threads that it may run on have more slots together than there are bodies that panic |
| Quiescence.FewStarveNone | src/queue.rs:107-112 | at rest no task is starved, whatever the wishes, if fewer bodies panic than a worker has slots |
| Quiescence.RestsAgree | src/queue.rs:68-132 | cancel-free runs with the same submissions come to rest with the same tasks retired, in the same states, if no task is starved in either |
| Quiescence.ForwardRunsOut | src/queue.rs:198-218 | tasks that depend on earlier tasks only are all retired at rest, if all are submitted and none is starved |
| Completion.CalmRests | src/queue.rs:291-351 | a standstill is a rest at which no task is starved, if nobody cancels or consumes signals of others, nobody owes the queue a wake, no worker waits for a future, and for each submitted task the threads that fit its wishes have more slots together than there are bodies that panic |
| Completion.ThreadsWaitOverTasks | src/queue.rs:130-132 | in every run, the dispatcher waits for its signal only over tasks that it keeps, and a worker only over futures; else they wait for their channels |
| Completion.RunsToCompletion | src/queue.rs:53-134 | after every run in which nobody cancels or consumes signals of others, every submission has woken the queue, and for each submitted task the threads that fit its wishes have more slots than there are bodies that panic, every fair schedule of the threads comes to a standstill at which exactly the submitted tasks are retired whose dependencies can be met, with the results of the fold, unless a worker sleeps over a future that gave Pending and was not called since |
| Completion.CalledRunsToCompletion | src/queue.rs:53-134 | and without exception if, in that run, every future that gave Pending was called since, and from then on bodies run to their end when they are polled |
| Completion.AnsweredRunsToCompletion | src/block.rs:54-97 | and without exception while futures go on giving Pending and being called, under every schedule that gives every thread its turn again and again: as long as each future that gave Pending is called in the end, and from some step on no more give Pending or are called |
| Completion.BakedRunsToCompletion | src/queue.rs:198-218 | a baked buffer, submitted in any order while the threads work, is completed by every such schedule, every task being retired, if and only if its recording is untangled; the retired tasks are in the state that their recorded chains compute. It is asked that nobody cancels or consumes signals of others, that submissions wake the queue and leave each task more slots than bodies panic, and that futures which give Pending are called in the end, and give Pending finitely often |
| Closure.ForwardGetsDone | src/task.rs:197-200 | tasks that depend on earlier tasks only can all get done |
| Closure.NoKnot | src/task.rs:197-200 | if all tasks are submitted, all of them get done if and only if there is no knot, a set of tasks each of which waits for another one of it: for its predecessor, or for a semaphore that only tasks of the set carry |
| Protocol.FindLabel | src/queue.rs:96 | the first thread with the label, and None exactly if there is none |
| Greedy.MostFree | src/queue.rs:97-104 | the last of the allowed threads with the most free slots, and None exactly if none is allowed |
| Greedy.FindThread | src/queue.rs:96 | the loop of `find` computes `FindLabel` |
| Greedy.MaxByFree | src/queue.rs:97-104 | the loop of `filter` and `max_by_key` computes `MostFree` |
| Greedy.PlaceAll | src/queue.rs:68-128 | the loop over the tasks, given what its looks at them find, on an array of counters, computes `PlaceEach` |
| Greedy.SlotsPaySends | src/queue.rs:107-112 | each slot that a thread loses in a pass is a task it was sent, and every task that is not settled is sent or kept |
| Greedy.WorkConserving | src/queue.rs:95-127 | whatever the wishes, and whichever tasks wait, a kept task has to wait, or has no thread it may go to with a free slot, or was relaxed because it has no thread at all; for a preferred label that is the first thread with it; what is sent could go, to where it may |
| Greedy.GreedyDispatch | src/queue.rs:68-128 | in a list in which any tasks wait or are settled, the `k` that can go, without wishes, lead to min(k, free slots) sends, earliest first; the rest of them and the waiting ones stay in the order of the list; a thread that got a task ends with at most one free slot less than any other |
| DispatchAlone.PassIsPlace | src/queue.rs:68-128 | on any list of tasks, the dispatcher of the protocol, while nobody else moves, ends a pass with the counters, deliveries and kept tasks that `PlaceEach` says; what it settles on the way counts for later looks |
| DispatchAlone.DispatcherIsGreedy | src/queue.rs:68-128 | so such a pass of the protocol is greedy and balanced in the sense of `GreedyDispatch` |
| RawBuffer.ChainSemaphores | src/command_buffers/buffer.rs:60-67 | binds a fresh semaphore between each two neighbours of a chain, signalled by the first and waited for by the second, and nothing else |
| RawBuffer.ChainAll | src/command_buffers/buffer.rs:156 | all chains, chained one by one, are the flat list with the neighbours' edges bound |
| RawBuffer.LinkBinds | src/command_buffers/buffer.rs:146-151 | the semaphore of a link goes to the last task of one chain and the first of the other, in terms of the flat list, also for a link of a chain to itself |
| RawBuffer.RawCommandBuffer.constructor | src/command_buffers/buffer.rs:196-203 | a valid buffer with one empty chain |
| RawBuffer.RawCommandBuffer.AddTask | src/command_buffers/buffer.rs:83-109 | starts a new chain unless the last is empty, appends to the flat list, keeps the other chains |
| RawBuffer.RawCommandBuffer.NewChain | src/command_buffers/buffer.rs:84-87 | `group` stays the last chain, and only a lone chain can be empty |
| RawBuffer.RawCommandBuffer.Append | src/command_buffers/buffer.rs:32-35 | the task goes to the end of the last chain, and its id to the end of those that the next `response` will give |
| RawBuffer.RawCommandBuffer.AddChainedTask | src/command_buffers/buffer.rs:111-129 | appends to the last chain and so to the flat list, whichever chain the predecessor is in, and uses its handle up |
| RawBuffer.RawCommandBuffer.Response | src/command_buffers/buffer.rs:131-133 | gives the tasks recorded in the last chain since its last `response`, in order, and changes no task |
| RawBuffer.RawCommandBuffer.LinkChains | src/command_buffers/buffer.rs:273-280 | records the link unchecked |
| RawBuffer.RawCommandBuffer.CreateFence | src/command_buffers/buffer.rs:293-303 | records a fresh fence unchecked |
| RawBuffer.RawCommandBuffer.Finish | src/command_buffers/buffer.rs:135-158 | fails exactly on a fence or link out of bounds; else returns the flat list in creation order with a fresh semaphore bound to each edge, leaves each fence bound to the last task of its chain, and empties the buffer |
| RawBuffer.RawCommandBuffer.FinishFences | src/command_buffers/buffer.rs:138-145 | leaves each fence bound to the last task of its chain and all others as they were (`FencesFollow`), and fails exactly on a fence out of bounds |
| RawBuffer.FencesAreBound | src/command_buffers/buffer.rs:47-53 | a fence that was asked for is bound to the task at the end of its chain, by its position in creation order, the last request for it counting; all other fences stay as they were; in an empty buffer nothing is bound |
| RawBuffer.RawCommandBuffer.FinishTasks | src/command_buffers/buffer.rs:146-156 | links and then neighbours, bound in place, are all edges bound in the flat list; fails exactly on a link out of bounds |
| RawBuffer.RawCommandBuffer.FinishLinks | src/command_buffers/buffer.rs:146-155 | binds each link's semaphore in place, chain by chain, to the same effect as on the flat list |
| RawBuffer.RawCommandBuffer.BindLink | src/command_buffers/buffer.rs:147-151 | a fresh semaphore for the last task of one chain and the first of the other, also if they are the same chain |
| RawBuffer.RawCommandBuffer.FinishChains | src/command_buffers/buffer.rs:156 | drains the chains into the bound flat list |
| Binding.BindIsLocal | src/task.rs:157-162 | baking adds to a task exactly the semaphores of its incoming and outgoing edges, in order, and changes nothing else |
| Binding.IncomingOnce | src/command_buffers/buffer.rs:60-67 | the semaphore of an edge comes in at its target, once, and nowhere else |
| Binding.OutgoingOnce | src/command_buffers/buffer.rs:60-67 | the semaphore of an edge goes out at its source, once, and nowhere else |
| Baking.BakeKeepsTasks | src/command_buffers/buffer.rs:135-158 | the baked list has the recorded tasks in creation order, with their bodies, and the semaphores of their edges |
| Baking.BakedWellFormed | src/command_buffers/buffer.rs:135-158 | in the baked list every continuation still comes after its predecessor, which no other task continues |
| Baking.OneSemaphorePerEdge | src/command_buffers/buffer.rs:60-67 | every semaphore has exactly one signaller and one waiter, the ends of its edge, bound once each |
| ChainRuns.ChainsRunInOrder | src/command_buffers/buffer.rs:60-67 | in every run of a baked buffer on the queue, a task of a chain begins only after all tasks before it in its chain have ended |
| ChainRuns.LinksRunInOrder | src/command_buffers/buffer.rs:146-151 | in every such run, a task of the chain that a link leads to begins only after all tasks of the chain that it comes from have ended |
| Baking.BakedIsForward | src/command_buffers/buffer.rs:146-155 | all dependencies of a baked buffer are on earlier tasks exactly if every link goes to a later chain, or nothing was recorded |
| Baking.TangleIsKnot | src/command_buffers/buffer.rs:135-158 | a set of tasks is tangled up in the recording, over links, chain order and continuations, exactly if it is a knot of the baked list, over semaphores and predecessors |
| Baking.AllGetDone | src/command_buffers/buffer.rs:135-158 | whoever runs a baked buffer can get all of it done if and only if its recording is untangled |
| Baking.ForwardIsUntangled | src/command_buffers/buffer.rs:146-155 | links to later chains tangle nothing up |
| Baking.SelfLinkTangles | src/command_buffers/buffer.rs:146-155 | a link of a chain to itself tangles that whole chain up |
| Baking.BackwardLinkIsUntangled | src/command_buffers/buffer.rs:146-155 | a link to an earlier chain need not tangle anything up, as with two chains of one task each |
| Ownership.FreedOnce | src/command_buffers/buffer.rs:306-333 | after any operations on handles the count is the number of live handles; the buffer is not freed while there is one, and freed exactly once when there is none; a baked handle is the only one |
| Ownership.FinishNeedsOnlyHandle | src/command_buffers/buffer.rs:247-258 | in every run `finish` goes through exactly on an only handle that is not baked, of a buffer that can be baked |
| Ownership.BakedStays | src/command_buffers/buffer.rs:247-258 | once baked, a handle stays the only one, with the same tasks, until it goes and the buffer is freed |
| Ownership.SharedBuffer.constructor | src/command_buffers/buffer.rs:187-213 | one live handle, and an empty raw buffer |
| Ownership.SharedBuffer.CloneHandle | src/command_buffers/buffer.rs:306-321 | fails exactly on a baked handle, else gives a new one that is not baked |
| Ownership.SharedBuffer.DropHandle | src/command_buffers/buffer.rs:323-333 | frees the buffer exactly if the handle was the last |
| Ownership.SharedBuffer.FinishHandle | src/command_buffers/buffer.rs:247-258 | bakes exactly if the handle is the only one, not baked, and fences and links are in bounds; the handle then holds the bound flat list, and fences follow the last tasks of their chains |
| Ownership.SharedBuffer.TakeTasksOf | src/command_buffers/buffer.rs:233-238 | gives the baked tasks away, if there are any, and the handle goes in either case |
| Ownership.SharedBuffer.AddSyncCommand | src/command_buffers/buffer.rs:350-357 | fails exactly on a baked handle; else records a task, and gives a builder with a live handle of its own |
| Ownership.SharedBuffer.ChainCommand | src/command_buffers/buffer.rs:479-483 | records a continuation and replaces the handle of the builder by a new one; on a baked builder it fails and the buffer is freed |
| Ownership.SharedBuffer.RespondTo | src/command_buffers/buffer.rs:468-471 | ends the builder, drops its handle and gives the tasks recorded in the last chain since its last `response`; there is nothing to give once it is baked |
| Ownership.SharedBuffer.LinkChainsOf | src/command_buffers/buffer.rs:273-280 | refused exactly on a baked handle |
| Ownership.SharedBuffer.CreateFenceFor | src/command_buffers/buffer.rs:293-303 | refused exactly on a baked handle |
| Run.Executor.SignalAll | src/run.rs:74-79 | signals every semaphore of the task, then its signal |
| Run.Executor.AwaitSync | src/run.rs:72-73 | runs the body to its end; a continuation consumes the signal and the value of its predecessor; the thread stops if the body panics or if they are missing |
| Run.Executor.RunTask | src/run.rs:5-37 | settles, runs or leaves the task as its predecessor, its state and its semaphores say |
| Run.Executor.RunPass | src/run.rs:40-95 | computes one pass, on tasks with any bodies, tells whether anything ran, and leaves the idle counter below 5 in every case |
| Run.Executor.RunPasses | src/run.rs:39-97 | the first `k` turns of the loop compute `Passes` |
| RunProof.VisitOk | src/run.rs:45-85 | a look retires its task exactly if all it waits for is signalled and its predecessor is settled, or if it fails; else it changes nothing |
| RunProof.PassesDo | src/run.rs:39-97 | after `k` passes nothing more is enabled or `k` tasks are gone, and what is retired is in every closed set |
| RunProof.PassesShrink | src/run.rs:88-95 | a pass changes nothing or makes the list shorter |
| RunProof.PassInListOrder | src/run.rs:45-95 | a pass retires tasks in the order of the list, and leaves the others in that order, whatever the bodies do |
| RunProof.PassesInListOrder | src/run.rs:39-97 | so do any number of passes leave what they leave |
| RunProof.PanicStops | src/run.rs:72-79 | a body that panics, or waits in vain, stops the thread: its task is gone without a state and signals nothing, and the later ones are not looked at |
| RunProof.Fixpoint | src/run.rs:39-97 | for `n` tasks in any order, some of them cancelled, after `n` passes the list is stable, nothing ever blocked, exactly the least closed set is retired, and a retired task is Ready exactly if neither it nor one it continues fails, and Panicked only after its predecessor, even before a cancel of its own; the values are those of the chains; signal and value of a task are there exactly until a task that continues it has run |
| BakeThenRun.OnePass | src/run.rs:45-86 | one pass retires all of a list of new tasks exactly if each depends on earlier ones only; then in order, without blocking, with the folded values |
| BakeThenRun.BakingKeepsResults | src/command_buffers/buffer.rs:135-158 | the results of the baked tasks are those of the recorded ones |
| BakeThenRun.BakedRunsInOnePass | src/queue.rs:209-213 | whatever was recorded, one pass over the baked list retires everything exactly if all links go to later chains; then in creation order, without blocking, with the composed results |
| BakeThenRun.BakeAndRun | src/queue.rs:209-213 | the same for the method that bakes a raw buffer and runs the first pass, with the failure of the bake |
| BakeThenRun.BakedRunsOnTheQueue | src/queue.rs:209-218 | panics allowed, every schedule of the queue that comes to rest with no task starved has retired every task of a baked buffer if and only if its recording is untangled; the retired tasks have the results of their recorded chains |
| TwoExecutors.RunAllIsComplete | src/run.rs:39-97 | `run_all` gets done exactly what the dependencies allow, in whatever order the tasks are listed |
| TwoExecutors.BakedRunsInPasses | src/run.rs:39-97 | as many passes of `run_all` as a baked buffer has tasks, or more, leave nothing if and only if its recording is untangled; then every task is Ready |
| TwoExecutors.ExecutorsAgree | src/queue.rs:155-164 | the queue at rest, under any schedule, and `run_all`, on any order of the list, retire the same tasks, all Ready |
| Signals.Signal.constructor | src/block.rs:26-32 | the flag is down and nobody is registered |
| Signals.Signal.Wake | src/block.rs:54-64 | sets the flag, and calls each registered waker once, in order |
| Signals.Signal.WaitTurn | src/block.rs:38-44 | a turn of `wait` returns exactly if the flag is up, and takes it down |
| Signals.SignalFuture.constructor | src/block.rs:46-51 | not started |
| Signals.SignalFuture.Poll | src/block.rs:85-97 | Ready exactly if the flag is up; else registers the waker, at the first such poll only |
| Signals.StepGood | src/block.rs:38-64 | every step leaves nobody stranded, except exactly a consumption of the flag while some waiter has been called and not polled since |
| Signals.NobodyStranded | src/block.rs:85-111 | in every run without such a consumption, however often futures are polled for other reasons, a waiter asleep is registered, and one that is not registered has been called and finds the flag up at its next poll |
| Signals.ServedInTurn | src/block.rs:54-64 | in every run the wakers are called in the order in which they registered, each once for its registration |
| Signals.StuckForever | src/block.rs:85-111 | a waiter that sleeps unregistered and uncalled stays so, whatever anybody does with the signal, until something else has it polled |
| Signals.RobbedIsStuck | src/block.rs:43 | after such a consumption the waiter's own next steps make it stuck for good |
| Signals.WaiterCanBeStranded | src/block.rs:38-97 | there is such a run |
| Timer.Earliest | src/timer.rs:64-68 | the deadline at the top of the heap is that of an entry, and none is earlier |
| Timer.TimerIsSafe | src/timer.rs:36-56 | in every run the pop finds an entry, no waker is called before its deadline or twice, and every poll of a sleep whose waker was called gives Ready |
| Timer.SleepsFor | src/timer.rs:37-56 | in every run, a sleep that is first polled at some instant gives Ready at its later polls exactly from that instant plus its duration on, and its waker is not called before |
| Timer.CallsAllDue | src/timer.rs:86-110 | from its look at the heap on, the timer alone calls exactly the sleeps that are due, within four steps for each entry, if the clock stands still |
| Timer.CallsAllDueAfterWait | src/timer.rs:86-110 | and from the end of its wait on |
| Timer.WaitsUntilDue | src/timer.rs:87-105 | in every run, a waiting timer waits without end if it found the heap empty at its last look, and else until the earliest deadline that it found, plus the time between its reading of the clock and its going to wait |
| Timer.PassesOverNew | src/timer.rs:42-48 | in every run, a waiting timer passes over an entry only if that was pushed after its last look, and its notification is still owed or came before the wait began |
| Timer.EntriesConserved | src/timer.rs:86-110 | a sleep that was pushed and not woken has its entry on the heap or in the hands of the timer, once; no other sleep has one |
| Timer.StepAwake | src/timer.rs:86-110 | every step keeps the timer from waiting without end beside an entry, except exactly the last owed notification when it comes between the look and the wait |
| Timer.TimerStaysAwake | src/timer.rs:86-110 | in every run without such a notification it never does so unless one is still owed |
| Timer.OversleepsOn | src/timer.rs:104-106 | a timer that oversleeps calls nobody, however late it gets, until a later notification |
| Timer.TimerOversleeps | src/timer.rs:86-110 | there is such a run |
| Sync.Semaphore.Ready | src/sync.rs:26-34 | ready exactly if some task has signalled it, the first being enough |
| Sync.Fence.constructor | src/sync.rs:51-56 | unbound |
| Sync.Fence.Bind | src/sync.rs:58-62 | the signal bound last is the one that counts |
| Sync.Fence.Ready | src/sync.rs:71-73 | fails exactly on an unbound fence, else is open exactly if the flag of the signal bound last is up |
| Sync.ShutByWait | src/sync.rs:64-73 | a fence is open exactly if the task bound last has ended and nobody has waited for it since, on its handle, on a fence, or as its continuation; whatever other tasks do |
| Sync.OpensWithFirstIfAlone | src/sync.rs:41-43 | while nobody waits for them, a fence opens with the first of its tasks, in whatever order they end, exactly if it was bound to one task only |

## Left out

- The `main-thread` feature, the `end` flag of workers, and the return of `recv` on a closed channel (`src/lib.rs:101-182`, `src/queue.rs:293-299`): threads live for ever.
- Panic payloads: `TaskState.Panicked` carries nothing, as `take` replaces the payload anyway. Poisoned locks and failed allocations do not occur.
- Memory orderings: all accesses are sequentially consistent, channels are unbounded first-in first-out queues, and spurious wake-ups leave a `while` loop where it was.
- `commands.rs`, `Clock`, `MVSyncSpecs`, `id_eq!`, `sealable!` and `next_id`: thin wrappers. Ids are positions in the list of tasks, and fresh.
- The protocol, the signal waiters and the timer are state machines on values; they do not capture the layout of the objects that the threads share. The lists of wakers inside signals are not part of the protocol, where any waker can be called at any time; they are in `Signals`.
- Chains and tasks are values inside `RawCommandBuffer`, and handles are numbers inside `SharedBuffer`; their fields are still updated in place through the buffer.
- A recording that goes on after `finish` panicked on an index out of bounds, and the links and fences drained by then.
- Overflow of the handle count at 2^64 clones.
- Asynchronous bodies in `run` and `run_all`, which wait there for events from elsewhere.
- What `run_all` leaves behind when a body panics, which nothing catches: the thread stops in the model as well, and `RunProof` speaks of lists of tasks whose bodies end with a value.
- Tasks that one instance of MVSync creates and another's queue is given (`src/lib.rs:211-217`, `src/queue.rs:141`): their retirement wakes the queue of their own instance. The model has one instance, and the second signal of a task is that of the queue it runs on.
- `await_sync_safe`, and the drop of a `Signal` with registered wakers, which a borrow excludes while a future awaits it.
- Bounds on how late the timer is that do not depend on the schedule: between its reading of the clock and its going to wait any time can go by, and a notification that comes then is missed (`Timer.WaitsUntilDue`, `Timer.PassesOverNew`).
- Completion in runs with cancels, which can be slept through (`Stalls.CancelStalls`) and kill the dispatcher (`Crash.DispatcherCrashes`), or with relaxed wishes (`Relaxation.RelaxationStalls`): `Results` and `Placement.SleepsExactly` say what holds of them, `Completion.CalmRun` excludes them.
- Completion under wakers that are called without end: `Completion.SettlesAt` has the calls end, as those of futures do that are called once for each Pending.
