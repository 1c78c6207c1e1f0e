# faio in Dafny

A model of the concurrent and indexed structures at the core of faio, a coroutine runtime, with
proofs of what they promise over all runs and all inputs.

- **Scheduler** (`WorkStealing*.dfy`).  Workers with a task cache, a 256-slot ring and a global
  queue; each atomic load, store and compare-exchange (which may fail spuriously) is a step of a
  transition system with one program counter per worker.  The same program text runs on
  unbounded indices and on 32-bit words; `WorkStealingWords` proves that the two runs agree.
  What each operation has done when it ends is stated over any run (`WorkStealingCalls`), and, to the
  last branch, for a worker left alone (`WorkStealingAlone`, `WorkStealingEnds`).
- **Search, sleep, wake** (`IdleWorkers*.dfy`, `Sums.dfy`).  The counters, the sleeper list and the workers'
  flags, one step per atomic access or locked update; and what each operation does left alone.
- **Mutex and condition variable** (`Lists.dfy`, `CoMutex*.dfy`, `CondVar*.dfy`).  The state pointer, the LIFO list,
  its reversal and the hand-over, with the worker caches through which a woken coroutine travels.
  The mutex is proved to refine a first-come-first-served lock.  The condition variable runs on that
  same machine: waiting parks a coroutine of it, notifying unparks one, and every step of lock and
  unlock may come in between.  `CoMutexCalls` and `CondVarCalls` say what a call has done when it returns.
- **Channel** (`RingBuffer.dfy`, `Channel*.dfy`).  The ring and the channel as classes,
  against a state machine of critical sections and handle counts.
- **Timer** (`Bitmap.dfy`, `TimerItems.dfy`, `TimerWheel*.dfy`, `TimerSpec.dfy`, `Timer.dfy`,
  `TimerRun.dfy`, `TimerPunctual.dfy`).  The wheel of every level against how often each (offset, task) is stored;
  the timer as a class against a multiset of items and the level of its root; runs of adds and polls.
- **HTTP** (`HttpTypes.dfy`, `Http2*.dfy`, `Paths.dfy`, `RouteSpec.dfy`, `DispatchSpec.dfy`, `Router.dfy`,
  `WriteLoop.dfy`).  Stream
  demultiplexing, route compilation and matching, dispatch, the two-buffer write loop.

Memory is sequentially consistent.  The clock, the kernel's answers to writes, what handlers do,
which task is scheduled when, and which worker a thief chooses are parameters or free choices.

Five things that the code does and a reader may not expect are stated as results, each with its
exact condition: the working counter is not restored by a self-cancelled sleep
(`IdleWorkersInv.WorkingDrifts`); closing a channel leaves its list of receivers uncleared
(`ChannelInv.LostExactly`); a waiting sender overtakes older buffered messages
(`ChannelInv.RecvOldest`); a timer executes tasks before their deadlines if milliseconds had gone since its base time when they were added, most of all after it was idle
(`TimerRun.PollExecutes`); removing a timer task searches at an offset computed with the later
clock and decrements the counter whether or not it finds the task (`TimerRun.RemovesIfAligned`).

`dafny verify dfyconfig.toml` verifies the project.

## Model

| member | source | states |
|---|---|---|
| `WorkStealingInv.PushKeeps` | include/faio/detail/runtime/core/queue.hpp:156-184 | a step of push_back or handle_overflow keeps steal <= head <= tail <= steal + 256 and leaves the slots of a claimed range alone |
| `WorkStealingInv.PopKeeps` | include/faio/detail/runtime/core/queue.hpp:188-218 | the same for a step of try_pop, whose compare-exchange may fail spuriously |
| `WorkStealingInv.RefillKeeps` | include/faio/detail/runtime/core/worker.hpp:135-158 | the same for the batch from the global queue: remain_size is computed by the owner, so the batch always fits |
| `WorkStealingInv.ThiefKeeps` | include/faio/detail/runtime/core/queue.hpp:221-251 | the same for a step of a thief, for its own ring and for its victim's |
| `WorkStealingInv.EffectKeeps` | include/faio/detail/runtime/core/queue.hpp:142-357 | one step of any worker, in terms of itself and the queue it robs: its own knowledge stays true, a robbed queue loses head or steal positions only, and a claim begins only where no other is open |
| `WorkStealingInv.StepKeepsInv` | include/faio/detail/runtime/core/queue.hpp:142-357 | every step of every worker keeps the invariant of all workers, and at most one thief has a claim on a queue |
| `WorkStealingInv.RunInv` | include/faio/detail/runtime/core/queue.hpp:142-357 | the invariant in every reachable state of any number of workers |
| `WorkStealingInv.NoOverwrite` | include/faio/detail/runtime/core/queue.hpp:331-339 | no step of another worker (push, batch, overflow, pop, steal into a destination) changes a slot that a thief has claimed and is still to copy |
| `WorkStealingInv.RunClaimsHeld` | include/faio/detail/runtime/core/queue.hpp:304-357 | steal and head differ only while some thief is between its claim and its commit |
| `WorkStealingConservation.EffectConserves` | include/faio/detail/runtime/core/queue.hpp:142-357 | a step moves handles between cache, ring, hands, victim and global queue without losing or doubling one |
| `WorkStealingConservation.StepConserves` | include/faio/detail/runtime/core/worker.hpp:74-83 | the same over all workers, including cache displacement |
| `WorkStealingConservation.RunConserves` | include/faio/detail/runtime/core/worker.hpp:125-213 | in every run each submission of a handle is in exactly one place (live slot, claimed range, cache, hands, global queue) or was resumed |
| `WorkStealingWords.EffectWords` | include/faio/detail/runtime/core/queue.hpp:142-357 | a step on 32-bit indices is the step on unbounded ones reduced modulo 2^32, wrap-around included |
| `WorkStealingWords.RunWords` | include/faio/detail/runtime/core/queue.hpp:142-357 | whole runs agree in the same way, as long as no thief, between reading its victim's head word and claiming, sleeps through 2^32 tasks of the victim's queue: pushed past that head when it reads the tail, taken when it claims |
| `WorkStealingWords.WordMachineSafe` | include/faio/detail/runtime/core/worker.hpp:110-122 | for the machine on 32-bit words: conservation, the window by distance modulo 2^32, and a worker in the kernel wait has an empty cache and an empty queue |
| `WorkStealingWords.PackUnpack` | include/faio/detail/runtime/core/queue.hpp:359-390 | packing two 32-bit indices in a word loses nothing |
| `WorkStealingCalls.ScheduledIsCached` | include/faio/detail/runtime/core/worker.hpp:74-83 | over any run, whatever the others do: a scheduled handle is in its worker's task cache when that worker is next between two operations, and the handle it displaced is then the newest of the worker's ring or the last of the global queue |
| `WorkStealingCalls.OthersTouch` | include/faio/detail/runtime/core/worker.hpp:74-83 | no step of another worker changes a worker's task cache or its place in the code, and its ring loses tasks at the old end only |
| `WorkStealingCalls.EnqueuedIsQueued` | include/faio/detail/runtime/core/queue.hpp:156-184 | a handle that the runtime enqueues goes to the new end of the ring or of the global queue, and the cache stays |
| `WorkStealingCalls.PushLands` | include/faio/detail/runtime/core/queue.hpp:156-184 | a push over any run: when it returns the task is the newest of the ring, or last in the global queue, in the second case preceded by nothing or by exactly the older 128 tasks that the ring, full, held at the eviction |
| `WorkStealingCalls.PopStepTakes` | include/faio/detail/runtime/core/queue.hpp:188-218 | in any interleaving try_pop gives up only while the ring is empty, and otherwise gives the task that was the oldest at its exchange |
| `WorkStealingCalls.ClaimTakes` | include/faio/detail/runtime/core/queue.hpp:298-329 | a claim takes the oldest tasks of the victim's ring, at least one and at most half of them |
| `WorkStealingEnds.ThiefGivesUp` | include/faio/detail/runtime/core/queue.hpp:221-251 | a thief gives up only on a ring with fewer than two tasks, behind another thief, or with more than half of its own ring full |
| `WorkStealingAlone.PushAlone` | include/faio/detail/runtime/core/queue.hpp:156-184 | undisturbed push_back: into the ring if there is room; else the older half of the ring and then the task go to the global queue; the task alone exactly while a thief has a claim |
| `WorkStealingAlone.PopAlone` | include/faio/detail/runtime/core/queue.hpp:188-218 | undisturbed try_pop gives the oldest task, and nothing exactly when there is none |
| `WorkStealingAlone.StealAlone` | include/faio/detail/runtime/core/queue.hpp:221-251 | undisturbed theft: half of the victim's tasks, the oldest, change hands in order, the last of them to be resumed; nothing exactly when the thief is more than half full, the victim has fewer than two or another thief is at work |
| `WorkStealingAlone.RefillAlone` | include/faio/detail/runtime/core/worker.hpp:138-159 | the undisturbed batch: as many of the oldest global tasks as wanted and there, in order, the last of them to be resumed |
| `WorkStealingAlone.SleepAlone` | include/faio/detail/runtime/core/worker.hpp:110-122 | a worker enters the kernel wait exactly when its ring is empty |
| `WorkStealingEnds.OperationEnds` | include/faio/detail/runtime/core/queue.hpp:142-357 | from every reachable state, whatever was read before, a worker left alone ends its operation: no operation waits for another worker |
| `IdleWorkersInv.StepKeepsInv` | include/faio/detail/runtime/core/state_machine.hpp:34-65 | every atomic or locked step keeps the accounting of roles, the sleeper list and the counters |
| `IdleWorkersInv.RunInv` | include/faio/detail/runtime/core/state_machine.hpp:82-160 | that invariant in every reachable state of any number of workers and outside notifiers |
| `IdleWorkersInv.SearchAccounting` | include/faio/detail/runtime/core/worker.hpp:225-279 | the searching counter is the number of workers in the role, chosen and not yet out of sleep, or being chosen; neither asserted decrement underflows; the sleeper list has no duplicates and holds sleeping workers only, so a worker has left the list before it leaves sleep |
| `IdleWorkersInv.WorkingDrifts` | include/faio/detail/runtime/core/state_machine.hpp:82-160 | working + sleepers + self-cancelled sleeps is the number of workers modulo 2^64; with the mutex free, the counter is below that number exactly while sleepers and self-cancelled sleeps together are between one and that number |
| `IdleWorkersInv.SleeperNotNotified` | include/faio/detail/runtime/core/state_machine.hpp:143-152 | a concrete run of the worker loop, searching before each sleep, in which the only worker sleeps and should_wakeup is false, because a self-cancelled sleep did not restore the counter |
| `IdleWorkersAlone.WakeAlone` | include/faio/detail/runtime/core/state_machine.hpp:82-108 | worker_to_notify, undisturbed: the newest sleeper leaves the list and is counted as working and searching exactly when nobody searches, the working counter is below the number of workers and somebody sleeps; otherwise nothing changes |
| `IdleWorkersAlone.SearchAlone` | include/faio/detail/runtime/core/state_machine.hpp:128-135 | a worker becomes a searcher exactly while fewer than half of the workers are |
| `IdleWorkersAlone.ExecuteAlone` | include/faio/detail/runtime/core/worker.hpp:266-279 | a searcher that executes gives up the role, and the last of them goes on to wake another |
| `IdleWorkersAlone.FallAsleepAlone` | include/faio/detail/runtime/core/state_machine.hpp:113-122 | a worker that falls asleep is last on the list, no longer counted as working or searching, and learns whether it was the last to search |
| `IdleWorkersAlone.AsleepOrWaking` | include/faio/detail/runtime/core/worker.hpp:225-240 | only the last that searched looks for work again before it sleeps |
| `IdleWorkersAlone.CancelAlone` | include/faio/detail/runtime/core/worker.hpp:245-249 | a sleeper with a task takes itself off the list; it searches exactly if it was not on it any more |
| `IdleWorkersAlone.InspectAlone` | include/faio/detail/runtime/core/worker.hpp:251-256 | a sleeper without a task sleeps on exactly while it is on the list, and searches once it is not |
| `IdleWorkersAlone.OperationEnds` | include/faio/detail/runtime/core/state_machine.hpp:82-160 | unless another holds the mutex it needs, an agent left alone ends its operation |
| `CoMutexInv.AcquireKeeps` | include/faio/detail/sync/mutex.hpp:34-39 | lock takes a free mutex only when nobody waits: no barging |
| `CoMutexInv.EnqueueKeeps` | include/faio/detail/sync/mutex.hpp:40-50 | a successful enqueue makes the coroutine the last of the waiters |
| `CoMutexInv.ReleaseKeeps` | include/faio/detail/sync/mutex.hpp:99-107 | unlock frees the mutex only when nobody waits |
| `CoMutexInv.ExchangeKeeps` | include/faio/detail/sync/mutex.hpp:109-110 | the list that unlock exchanges is never null, and exchanging keeps the order of the waiters |
| `CoMutexInv.ReverseKeeps` | include/faio/detail/sync/mutex.hpp:117-120 | a round of the reversal keeps the order of the waiters and every list |
| `CoMutexInv.GrantOrder` | include/faio/detail/sync/mutex.hpp:122 | the first waiter, and no other, is granted the lock and leaves the order |
| `CoMutexInv.AdvanceKeeps` | include/faio/detail/sync/mutex.hpp:123 | the link read after the handle was pushed belongs to a coroutine still in the pushing worker's cache, so the read is safe |
| `CoMutexInv.StepKeepsInv` | include/faio/detail/sync/mutex.hpp:24-53 | every step of lock and unlock, on any worker, keeps the invariant |
| `CoMutexInv.MutualExclusion` | include/faio/detail/sync/mutex.hpp:92-124 | in every run of lock and unlock: at most one coroutine inside, no unlock of an unlocked mutex, no null link followed, enqueued = granted followed by waiting |
| `CoMutexInv.StepIsFifo` | include/faio/detail/sync/mutex.hpp:24-53 | the protocol refines a first-come-first-served lock, and a newcomer gets it only when nobody waits |
| `CoMutexInv.RunServes` | include/faio/detail/sync/mutex.hpp:92-124 | over any run the waiters are granted the lock in order, one per unlock |
| `CoMutexInv.BoundedWaiting` | include/faio/detail/sync/mutex.hpp:99-123 | a waiter with k ahead of it still waits after k unlocks and owns the lock after exactly k + 1 |
| `FifoLock.ServedStep` | include/faio/detail/sync/mutex.hpp:99-123 | service in order composes over steps of a first-come-first-served lock |
| `CoMutexCalls.LockTakes` | include/faio/detail/sync/mutex.hpp:24-53 | lock, undisturbed, takes a free mutex and goes on |
| `CoMutexCalls.LockWaits` | include/faio/detail/sync/mutex.hpp:40-50 | lock of a taken mutex, undisturbed, suspends the coroutine as the last of the waiters |
| `CoMutexCalls.UnlockAlone` | include/faio/detail/sync/mutex.hpp:92-124 | unlock, undisturbed, returns and has let in the first waiter, whose handle is in the worker's cache, or has freed the mutex exactly if nobody waits |
| `CoMutexCalls.UnlockReturns` | include/faio/detail/sync/mutex.hpp:92-124 | the same from every reachable state of an unlock under way |
| `CoMutexCalls.LockEnds` | include/faio/detail/sync/mutex.hpp:24-53 | lock, left alone, ends from every state, whatever it has read: inside, or waiting |
| `CoMutexMoves.StepTags` | include/faio/detail/sync/mutex.hpp:24-53 | a step of the mutex parks and unparks nobody unless it is the step that does so, and only the coroutine that unlocks or parks leaves the mutex |
| `CoMutexMoves.OneWorker` | include/faio/detail/runtime/core/worker.hpp:74-83 | a coroutine runs on one worker at a time, and on none while its handle is in a worker's cache |
| `CondVarInv.PushedKeeps` | include/faio/detail/sync/condition_variable.hpp:17-29 | the successful compare-exchange of await_suspend puts the coroutine, parked, at the head of the list, and its worker goes on to unlock |
| `CondVarInv.SetPredKeeps` | include/faio/detail/sync/condition_variable.hpp:86-92 | when the predicate is changed under the mutex, everyone who saw it false is already asleep in the list: nobody is between the check and the list |
| `CondVarInv.ResumeKeeps` | include/faio/detail/sync/condition_variable.hpp:96-104 | resuming an awaiter unparks its coroutine through the notifying worker's cache and keeps the invariant |
| `CondVarInv.StepKeepsInv` | include/faio/detail/sync/condition_variable.hpp:17-29 | every step of wait, notify_one and notify_all, and every step of lock and unlock on any worker, keeps the invariant of both |
| `CondVarInv.RunInv` | include/faio/detail/sync/condition_variable.hpp:51-104 | that invariant in every reachable state of condition variable and mutex together |
| `CondVarInv.MutexStillExcludes` | include/faio/detail/sync/mutex.hpp:92-124 | in those runs too at most one coroutine is inside, and the mutex is granted in the order of enqueuing |
| `CondVarInv.NoLostWakeup` | include/faio/detail/sync/condition_variable.hpp:71-104 | over any run, in every interleaving with the mutex: everyone who had seen the predicate false when it was set under the mutex is in the list that a later notify_all takes, or was woken in between, whatever the predicate is by then |
| `CondVarInv.NotifyReachesGoal` | include/faio/detail/sync/condition_variable.hpp:96-104 | a notify call ends when it has woken exactly what it took, in list order |
| `CondVarCalls.NotifyWakes` | include/faio/detail/sync/condition_variable.hpp:51-81 | a call over any run, from its first step to its return: a notify_one whose load finds the list empty wakes nobody; any other call has taken at its exchange the head of the list, or the whole list, and has woken exactly that, in order |
| `CondVarCalls.CallReturns` | include/faio/detail/sync/condition_variable.hpp:51-81 | left alone, a call returns from every reachable state |
| `CondVarCalls.LoadStep` | include/faio/detail/sync/condition_variable.hpp:51-57 | a call gives up at its load exactly if it is a notify_one and the list is empty |
| `CondVarCalls.WaitSleeps` | include/faio/detail/sync/condition_variable.hpp:17-29 | wait with the predicate false, undisturbed, leaves its coroutine asleep at the head of the list and its worker unlocking |
| `CondVarCalls.WaitPasses` | include/faio/detail/sync/condition_variable.hpp:86-92 | wait with the predicate true changes nothing |
| `CondVarCalls.WokenLocks` | include/faio/detail/sync/condition_variable.hpp:88-89 | a woken coroutine locks the mutex before it looks at the predicate again |
| `CondVarCalls.SuspendEnds` | include/faio/detail/sync/condition_variable.hpp:17-29 | left alone, await_suspend puts its coroutine to sleep, however out of date the head it linked to |
| `CondVarInv.LinksAreLive` | include/faio/detail/sync/condition_variable.hpp:60-65 | the links that notify_one and resume read belong to coroutines that no worker runs: parked in the list, or woken with the handle still in the notifying worker's cache, which the mutex machine's own steps show |
| `CondVarInv.WaitReturns` | include/faio/detail/sync/condition_variable.hpp:86-92 | wait returns only with the predicate true, to the coroutine that holds the mutex |
| `RingBuffers.RingBuffer.IsFull` | include/faio/detail/sync/channel/ring_buffer.hpp:20-22 | full exactly when it holds capacity values, for every capacity including 0 |
| `RingBuffers.RingBuffer.Size` | include/faio/detail/sync/channel/ring_buffer.hpp:62-64 | the modular difference is the number of values |
| `RingBuffers.RingBuffer.SafetyPush` | include/faio/detail/sync/channel/ring_buffer.hpp:26-30 | the value goes behind all others |
| `RingBuffers.RingBuffer.SafetyPop` | include/faio/detail/sync/channel/ring_buffer.hpp:33-38 | the oldest value comes out and the others stay in order |
| `RingBuffers.RingBuffer.Push` | include/faio/detail/sync/channel/ring_buffer.hpp:42-49 | succeeds exactly when not full, and then appends |
| `RingBuffers.RingBuffer.Pop` | include/faio/detail/sync/channel/ring_buffer.hpp:52-59 | the oldest value, or nothing from an empty ring |
| `Channels.Channel.SendSuspend` | include/faio/detail/sync/channel/channel.hpp:40-72 | the critical section of send is one step of the channel's specification; it suspends exactly when the send waits |
| `Channels.Channel.RecvSuspend` | include/faio/detail/sync/channel/channel.hpp:95-123 | the critical section of recv is one step of the specification |
| `Channels.Channel.CloseAll` | include/faio/detail/sync/channel/channel.hpp:179-192 | closing resumes every waiting operation with the error, clears the senders and not the receivers |
| `ChannelInv.StepKeepsInv` | include/faio/detail/sync/channel/channel.hpp:40-123 | every operation through a live handle keeps the channel's invariant |
| `ChannelInv.RunConserves` | include/faio/detail/sync/channel/channel.hpp:40-72 | in every run a message is in the buffer or with exactly one receiver, once, if its send reported success, and nowhere if not |
| `ChannelInv.RunWaits` | include/faio/detail/sync/channel/channel.hpp:95-123 | while open, a waiting receiver means an empty buffer and no waiting sender; a waiting sender means an open channel with a full buffer |
| `ChannelInv.RunOrders` | include/faio/detail/sync/channel/channel.hpp:44-71 | waiting senders, waiting receivers and buffered messages are each served in order of arrival |
| `ChannelInv.RecvOldest` | include/faio/detail/sync/channel/channel.hpp:98-121 | a recv gets the oldest outstanding message exactly when the buffer and the list of senders do not both hold one |
| `ChannelInv.SendQueuesLast` | include/faio/detail/sync/channel/channel.hpp:54-71 | a send that stores or waits puts its message last among the outstanding ones |
| `ChannelInv.SendAnswers` | include/faio/detail/sync/channel/channel.hpp:40-72 | in every reachable state a send fails exactly on a closed channel that is full with no receiver listed, waits exactly on such an open one, and otherwise succeeds, closed or not |
| `ChannelInv.RecvAnswers` | include/faio/detail/sync/channel/channel.hpp:95-123 | a recv is refused exactly on a closed channel with nothing outstanding, waits exactly on such an open one, and otherwise receives |
| `ChannelInv.RunErrors` | include/faio/detail/sync/channel/channel.hpp:40-123 | in every reachable state an operation that was answered with the error was answered by a closed channel |
| `ChannelInv.ClosesWithLast` | include/faio/detail/sync/channel/channel.hpp:159-175 | the channel closes with the drop of the last sender or the last receiver, and with nothing else |
| `ChannelInv.RunHandles` | include/faio/detail/sync/channel/channel.hpp:157-175 | the counts are those of the handles made and not yet dropped, over every run |
| `ChannelInv.ClosedSettles` | include/faio/detail/sync/channel/channel.hpp:179-192 | after closing no operation waits, and the stale list names refused receivers only |
| `ChannelInv.LostExactly` | include/faio/detail/sync/channel/channel.hpp:44-53 | a send hands its message to an already refused recv exactly when the channel is closed and the list of receivers is not empty |
| `ChannelInv.LostAfterClose` | include/faio/detail/sync/channel/channel.hpp:171-192 | that happens when the last receiver is dropped while its recv waits: a concrete send reports success and its message goes to the refused recv |
| `ChannelInv.LostAfterSelfAssignment` | include/faio/detail/sync/channel/sender.hpp:19-24 | it also happens when the only sender, or the only receiver while its recv waits, is copy-assigned to itself, which closes the channel and leaves the handle usable |
| `ChannelInv.SelfAssignHarmless` | include/faio/detail/sync/channel/sender.hpp:19-24 | on an open channel such an assignment changes nothing exactly when there is another sender, or another receiver |
| `ChannelInv.NeverLost` | include/faio/detail/sync/channel/channel.hpp:159-175 | with handles that outlive their operations and no such assignment, no send finds a stale receiver |
| `TimerItems.ShiftMaskLocates` | include/faio/detail/runtime/core/timer/wheel.hpp:37-45 | shifting and masking by a wheel's constants finds the slot and the distance into it, i.e. the quotient and the remainder by 64^level |
| `TimerItems.ShiftMaskIsDivMod` | include/faio/detail/runtime/core/timer/wheel.hpp:68-85 | `>> 6 * level` and `& (64^level - 1)` are division by 64^level with remainder |
| `TimerWheelOps.AddTask` | include/faio/detail/runtime/core/timer/wheel.hpp:67-87 | at every level: exactly one more item, at the interval if the wheel spans it, else in the last slot; bit i stays set exactly when slot i is occupied |
| `TimerWheelOps.AddToLeaf` | include/faio/detail/runtime/core/timer/wheel.hpp:272-279 | the leaf case, with the interval modulo 64 |
| `TimerWheelOps.RemoveTask` | include/faio/detail/runtime/core/timer/wheel.hpp:92-109 | given the stored offset, exactly one such item is gone if there was one, and nothing else changes; a child left empty is dropped with its bit |
| `TimerWheelOps.RemoveFromLeaf` | include/faio/detail/runtime/core/timer/wheel.hpp:284-310 | the walk along a chain of the leaf |
| `TimerWheelExpiry.Expire` | include/faio/detail/runtime/core/timer/wheel.hpp:117-152 | executes exactly the items with offset < r, each as often as it is stored, in non-decreasing order of offset, and keeps exactly the others |
| `TimerWheelExpiry.ExpireLeaf` | include/faio/detail/runtime/core/timer/wheel.hpp:318-340 | the leaf case, walking the chain of each millisecond |
| `TimerWheelTurn.NextDeadline` | include/faio/detail/runtime/core/timer/wheel.hpp:157-167 | never more than any stored offset; a stored offset itself if the first chain of slots ends in a task, and otherwise the end of the empty wheel in which that chain ends |
| `TimerWheelTurn.EmptyEnd` | include/faio/detail/runtime/core/timer/wheel.hpp:157-167 | only the chain of first slots can end in an empty wheel, so that the answer is then 64^(l + 1) for some level l: 64 after a first add of 64 ms or more |
| `TimerWheelTurn.HighestNeeded` | include/faio/detail/runtime/core/timer/wheel.hpp:228-236 | a wheel that is neither empty nor can be lowered holds something, above level 0 beyond its first slot |
| `TimerWheelTurn.Rotate` | include/faio/detail/runtime/core/timer/wheel.hpp:172-186 | every offset is lowered by start slot widths and what lay before is gone; nothing happens from 64 slots on |
| `TimerWheelTurn.LevelUpKeeps` | include/faio/detail/runtime/core/timer/wheel.hpp:52-54 | a wheel put into slot 0 of a new parent holds the same items at the same offsets |
| `TimerWheelTurn.LevelDownKeeps` | include/faio/detail/runtime/core/timer/wheel.hpp:207-225 | a wheel whose map is clear but for bit 0 holds what its first child holds |
| `Timers.Timer.AddTask` | include/faio/detail/runtime/core/timer/timer.hpp:207-234 | one more pending item at the stored offset, which does not depend on the level the root had; entries + 1 |
| `Timers.Timer.EnsureCapacity` | include/faio/detail/runtime/core/timer/timer.hpp:238-307 | the root spans the interval or is of the highest level, is raised no further than that needs, and holds what it held |
| `Timers.Timer.Poll` | include/faio/detail/runtime/core/timer/timer.hpp:126-162 | with r milliseconds gone: exactly the items before r run, in order; every survivor comes nearer by r rounded down to the root's slot width; the base time moves by r |
| `Timers.Timer.Advance` | include/faio/detail/runtime/core/timer/timer.hpp:365-389 | the rotation drops no pending item and lowers each by the rounded milliseconds |
| `Timers.Timer.TryLevelDown` | include/faio/detail/runtime/core/timer/timer.hpp:312-361 | no root is left exactly if nothing is pending, and otherwise the root is of the lowest level that spans the pending items; none of them changes |
| `Timers.Timer.RemoveTask` | include/faio/detail/runtime/core/timer/timer.hpp:86-119 | what removal does to the items and, found or not, to the counter, with the clock read twice |
| `Timers.Timer.NextDeadlineMs` | include/faio/detail/runtime/core/timer/timer.hpp:167-191 | never later than any pending item is due; due with one of them if the first chain of slots ends in a task, and otherwise with the end of an empty wheel |
| `TimerRun.RunConserves` | include/faio/detail/runtime/core/timer/timer.hpp:126-162 | over every run of adds and polls, for every task: added = executed + pending, so none is lost or executed more often than added |
| `TimerRun.RunCounts` | include/faio/detail/runtime/core/timer/timer.hpp:207-234 | in every such run the entry counter is the number of pending items |
| `TimerRun.PendingAdded` | include/faio/detail/runtime/core/timer/timer.hpp:207-234 | every pending item was put in by some add of the run, and its offset is what that add stored, less the milliseconds gone, plus what polls lost to rounding since |
| `TimerRun.OnlyItem` | include/faio/detail/runtime/core/timer/timer.hpp:207-234 | a task added once and not executed yet is pending as one item, that of its add |
| `TimerRun.NeverEarly` | include/faio/detail/runtime/core/timer/timer.hpp:126-162 | a poll executes an item only after the instant stored by an add of that task, later by what polls lost to rounding since, and by a millisecond at least; for a task number added once, that add is the one that put the item in |
| `TimerRun.LeafKeepsInstants` | include/faio/detail/runtime/core/timer/timer.hpp:376-378 | under a root of level 0 a poll leaves the instant of every survivor unchanged |
| `TimerRun.PollExecutes` | include/faio/detail/runtime/core/timer/timer.hpp:126-162 | in any run, any poll executes a task that is pending since one add exactly when the clock has passed the instant stored then, and what polls lost since, by a millisecond; in the code's terms: when its interval from the base time of its add, plus what was lost, is less than the milliseconds gone since that base time by now and by the add together, so each millisecond gone at the add lets it run a millisecond earlier |
| `TimerRun.OnTimeIfNoneGone` | include/faio/detail/runtime/core/timer/timer.hpp:207-227 | a task added with no millisecond gone since the base time is executed before its deadline by no poll of any run |
| `TimerRun.IdleFiresEarly` | include/faio/detail/runtime/core/timer/timer.hpp:126-129 | a concrete idle timer, whose base time is old because polls return at once, executes a task 99 ms before its deadline |
| `TimerPunctual.RunNarrow` | include/faio/detail/runtime/core/timer/timer.hpp:238-267 | over any run in which all intervals are below 64^(l + 1) ms the root stays at level l or below |
| `TimerPunctual.LagWithin` | include/faio/detail/runtime/core/timer/timer.hpp:365-389 | in such a run what polls lose to rounding between an add and now is at most 64^l - 1 ms a poll |
| `TimerPunctual.ShortRunsOnTime` | include/faio/detail/runtime/core/timer/timer.hpp:126-162 | in a run with all intervals below 64 ms nothing is lost: a poll executes a task exactly when the clock has passed the instant stored at its add, by a millisecond |
| `TimerPunctual.LateRunsNext` | include/faio/detail/runtime/core/timer/timer.hpp:212-216 | a task already late when it is added is executed by the first poll that finds a millisecond gone |
| `TimerPunctual.ClampedSooner` | include/faio/detail/runtime/core/timer/wheel.hpp:69-76 | an interval beyond the span of the highest level is stored in its last slot, with its remainder: sooner than asked for |
| `TimerRun.RemoveCounts` | include/faio/detail/runtime/core/timer/timer.hpp:104-115 | removal keeps the counter exact if and only if the item is where it is searched for |
| `TimerRun.RemoveGivesUp` | include/faio/detail/runtime/core/timer/timer.hpp:86-102 | removal changes nothing when the deadline is not in the future by either reading of the clock |
| `TimerRun.RemovesIfAligned` | include/faio/detail/runtime/core/timer/timer.hpp:86-119 | over runs of adds and polls, for a task number in use once: removal finds the task, and keeps the counter exact, if and only if the milliseconds past the current base time, plus what polls lost to rounding since the add, are those at the add; modulo 64 under a root of level 0 |
| `TimerRun.RemoveLooksWhereStored` | include/faio/detail/runtime/core/timer/timer.hpp:97-110 | with no poll in between, removal searches where the task was stored if and only if the clock still shows the same millisecond since the base time |
| `TimerRun.RemoveMisses` | include/faio/detail/runtime/core/timer/timer.hpp:86-119 | a concrete add and removal after which the task is still in the wheel and the counter is 0; a poll in that state executes nothing |
| `TimerRun.RemoveStrands` | include/faio/detail/runtime/core/timer/timer.hpp:126-162 | from there an add and a poll execute the removed task and leave the live one uncounted, so that polls execute nothing until something else is added |
| `Http2Session.Session.OnBeginHeaders` | include/faio/detail/http/v2/session_callbacks.hpp:188-200 | the callback is the specified step on the whole session state |
| `Http2Session.Session.OnHeader` | include/faio/detail/http/v2/session_callbacks.hpp:203-229 | the same, pseudo-headers apart from the others |
| `Http2Session.Session.OnFrame` | include/faio/detail/http/v2/session_callbacks.hpp:232-273 | the same for HEADERS, DATA and other frames |
| `Http2Session.Session.OnDataChunk` | include/faio/detail/http/v2/session_callbacks.hpp:276-288 | the same for data |
| `Http2Demux.AssembleMore` | include/faio/detail/http/v2/session_callbacks.hpp:203-288 | one more event changes the assembled request (last value of each header, all data) as its callback does |
| `Http2Demux.NoInterference` | include/faio/detail/http/v2/session_callbacks.hpp:171-288 | after any interleaving of any events, a stream's slot is told by that stream's own events alone |
| `Http2Demux.CurrentIs` | include/faio/detail/http/v2/session_callbacks.hpp:188-200 | the current stream is the one that began its headers last |
| `HttpTypes.NameRead` | include/faio/detail/http/types.hpp:30-78 | each method's name is read as that method, and any other text as GET |
| `Http2Demux.QueueIs` | include/faio/detail/http/v2/session_callbacks.hpp:232-273 | for every sequence of events, well formed or not, the queue is exactly what the ends of started streams add, each with the request of its own events so far |
| `Http2Demux.MessagesAfter` | include/faio/detail/http/v2/session_callbacks.hpp:232-273 | frames that are neither HEADERS nor DATA change nothing |
| `Http2Demux.EachStreamOnce` | include/faio/detail/http/v2/session_callbacks.hpp:232-273 | when every stream opens with HEADERS and its message ends once, whatever frames of other types come on it or on stream 0, also after the end: each ended stream is queued exactly once, in the order of the ends, with the request that all its events describe |
| `Paths.SplitPath` | include/faio/detail/http/http_server.hpp:240-267 | the loop gives the longest runs without a slash of the path before the query |
| `Paths.JoinPathSegments` | include/faio/detail/http/http_server.hpp:319-332 | the loop joins with single slashes |
| `Paths.JoinSplits` | include/faio/detail/http/http_server.hpp:319-332 | joining segments and splitting again gives the same segments |
| `Paths.SplitOfPath` | include/faio/detail/http/http_server.hpp:240-267 | a path made of segments splits into them |
| `Paths.SegmentsPlain` | include/faio/detail/http/http_server.hpp:240-267 | splitting gives non-empty segments free of slash and query mark |
| `Routers.Compile` | include/faio/detail/http/http_server.hpp:295-312 | the loop keeps the segments before the first wildcard and its name |
| `Routers.MatchDynamicRoute` | include/faio/detail/http/http_server.hpp:335-389 | the method with its loop computes the specified match |
| `RouteSpec.RoundTrip` | include/faio/detail/http/http_server.hpp:335-389 | a path made from a pattern with distinct names and plain values matches it and gives exactly those values |
| `RouteSpec.MatchIsFilled` | include/faio/detail/http/http_server.hpp:335-389 | conversely, whatever matches is the pattern filled with the parameters that the match gave, and the wildcard has the rest |
| `RouteSpec.WildcardSplits` | include/faio/detail/http/http_server.hpp:381-385 | a captured wildcard splits into the remaining segments |
| `RouteSpec.NamelessNever` | include/faio/detail/http/http_server.hpp:364-368 | a pattern with a nameless parameter matches nothing |
| `RouteSpec.MatchIff` | include/faio/detail/http/http_server.hpp:335-389 | a route matches exactly when the method, the number of segments and the literal segments agree and no parameter is nameless |
| `RouteSpec.BindsFirst` | include/faio/detail/http/http_server.hpp:364-372 | a parameter named several times has the value of its first occurrence |
| `RouteSpec.CompiledAt` | include/faio/detail/http/http_server.hpp:295-312 | a pattern is compiled to the segments before the first that starts with `*`, whose name is `wildcard` if it has none |
| `Routers.Router.RegisterRoute` | include/faio/detail/http/http_server.hpp:276-316 | registration changes exactly one table |
| `Routers.Router.DispatchDynamic` | include/faio/detail/http/http_server.hpp:392-413 | the first registered route that matches is taken, with its parameters; none only if none matches |
| `Routers.Router.Dispatch` | include/faio/detail/http/http_server.hpp:142-213 | both paths of dispatch against their specification |
| `DispatchSpec.FastAgrees` | include/faio/detail/http/http_server.hpp:142-166 | the fast path answers as the general one exactly when the chosen handler does not throw; if it throws, the general path answers 500 |
| `DispatchSpec.FirstMiddlewareAnswers` | include/faio/detail/http/http_server.hpp:168-177 | the first middleware that does not pass answers the request, with its response or with what becomes of its exception, whatever the routes and handlers are |
| `DispatchSpec.PassedOn` | include/faio/detail/http/http_server.hpp:168-177 | if all middlewares pass, the request is answered as without them |
| `DispatchSpec.HandlerAnswers` | include/faio/detail/http/http_server.hpp:182-213 | without middlewares the chosen handler's response is the answer; its exception goes to the error handler, or gives 500; without a handler it is 404 |
| `DispatchSpec.ChosenInOrder` | include/faio/detail/http/http_server.hpp:179-213 | the exact path for the method first, then the exact path for any method, then the first dynamic route that matches, then the fallback |
| `DispatchSpec.QueryIgnored` | include/faio/detail/http/http_server.hpp:230-236 | what follows the question mark takes no part in dispatch |
| `DispatchSpec.RegisteredWhere` | include/faio/detail/http/http_server.hpp:276-316 | a path with `:` or `*` becomes a dynamic route behind the others; any other is entered whole in the table of its method, or of all |
| `DispatchSpec.EarlierWins` | include/faio/detail/http/http_server.hpp:392-409 | a dynamic route registered later takes no request from an earlier one |
| `DispatchSpec.StaticWins` | include/faio/detail/http/http_server.hpp:182-188 | a static route is chosen before any other and replaces an earlier one for its path |
| `DispatchSpec.AnyWins` | include/faio/detail/http/http_server.hpp:190-195 | a static route for any method is chosen where there is none for the method asked for |
| `DispatchSpec.RegisteredIsFound` | include/faio/detail/http/http_server.hpp:276-316 | a pattern registered for a method, or for any, is chosen for every path made from it that no earlier route takes, with exactly the values of that path |
| `WriteLoop.WriteResponse` | include/faio/detail/http/v1/server_session_v1.hpp:352-425 | every write offers all that is left; for every behaviour of the stream: the bytes taken are a prefix of header ++ body, all of it exactly on success, and the loop ends early only on an error or an empty write; header_to_write + body_to_write decreases in every round |

## Left out

- Weak memory ordering, coroutine frame lifetime, exceptions, and pushes after the global queue is closed.
- `mutex::try_lock`: it exchanges from whatever state it read, so the mutex results are about lock and unlock.
- WorkStealingWords.RunWords: assumes that no thief sleeps through 2^32 tasks of its victim's queue between reading the head word and claiming, because the code has no defence against that.
- The load of the head that `push_back_batch` discards is not a step; the choice of a victim by queue sizes is a free choice of the thief; the search over all workers' queues in `wake_up_if_work_pending` is a free answer.
- That at most half of the workers search at any time, and that a wake-up eventually happens: the limit is a check followed by a separate increment, and the working counter drifts. IdleWorkersAlone has the answers of operations that nobody disturbs.
- Several callers of `notify_one` at a time: its retry reads the link of a head that may have become null; the condition variable is modelled with one notifier at a time.
- Parking on anything but the condition variable, and more than one condition variable on a mutex.
- `Channel::destroy` inside a critical section: it does not take the mutex; it is modelled as one step between critical sections, under the rule that a handle outlives the operations pending on it.
- ChannelInv.NeverLost: does not cover copy-assignment of the only sender, or the only receiver with a recv waiting, to itself, for which it is false; ChannelInv.LostAfterSelfAssignment has the runs.
- `RingBuffer::resize`: the channel does not use it.
- The payloads of channel messages: a message is named by the send that carries it.
- Update in place and aliasing inside a timer wheel: every child and every task has one owning pointer, so a wheel is a value that the operations take and give back; the slot map is a natural number below 2^64 read bit by bit.
- Punctuality by the wall clock: an insertion measures from now while slot 0 stands for the base time, and rotation above level 0 drops the part of a slot that has gone by; TimerRun.PollExecutes, TimerRun.OnTimeIfNoneGone, TimerPunctual.LagWithin, TimerRun.PendingAdded and TimerRun.LeafKeepsInstants say what does hold.
- TimerRun.RemovesIfAligned: the closed form is for intervals below 64^7 ms, from which on the wheel clamps, and deadlines not past when added; TimerRun.OnlyItem with TimerRun.RemoveCounts covers the others.
- The 64-bit overflow of durations and intervals.
- Sending a response without a body, which goes through `write_all`, and the building of the header block.
- nghttp2, llhttp, sockets, io_uring awaiters, TLS, the waker, logging, URL decoding, response builders and `block_on`.
- An END_STREAM flag on a HEADERS frame without END_HEADERS does not end a stream here, as in the code.
