# A verified model of the MELK OS kernel

MELK OS is a small preemptive kernel for Cortex-M. Its kernel services lean on each other: the
message queue is a ring buffer that is only correct because two counting semaphores account for
its slots and one mutex serialises the copies; the semaphores and the mutex hand units and
ownership over directly, which is only correct because a BLOCKED task is marked in exactly one
waiting mask; and that in turn only holds because neither the scheduler, nor the tick handler,
nor another object's handoff ever wakes such a task. This project models these services and
proves those global properties, for every interleaving and for runs of any length.

## How the model is built

- **One module per source file, twice over.** The transitions of each file are functions on
  values (`Task`, `Scheduling`, `Waiters`, `Semaphore`, `Mutex`, `MessageQueue`,
  `ContextSwitch`). Beside them stands the file itself as a class with the source's fields
  (`TaskTable`, `Scheduler`, `SemaphoreObject`, `MutexObject`, `QueueObject`, `Processor`),
  updated in place, with the source's loops, 32-bit masks (`TaskMask`) and byte storage. Every
  method is proved to do to the fields exactly what the function says.
- **One step machine.** In `System` every region between `os_irq_save` and `os_irq_restore` is
  one step. Between two steps of a task any number of SysTick interrupts, PendSV switches and
  steps of other tasks may happen; the copy loops of the queue advance one byte per step.
  PendSV_Handler runs with interrupts enabled, so it is not one step either: its search for the
  next task advances one id per step, storing the chosen id is a step of its own, and ticks may
  fall anywhere between. The number of tasks, the queue's capacity and message size, the time slice, the number of further
  semaphores and mutexes, and the length of a run are all arbitrary.
- **Invariants and theorems.** `CoreInvariant` (scheduler, waiting masks, owners) and
  `QueueInvariant` (unit accounting, ring contents) are kept by every step. `SyncTheorems`,
  `Exclusion`, `Ledger`, `Fairness`, `QueueTheorems`, `Lifecycle`, `SchedulerTheorems`, `Preemption`,
  `WorkConservation`, `Service` and `SleepTheorems` state what follows for whole runs.
- **Not vacuous.** `Boot` gives every configuration an initial state and shows that no run gets
  stuck; `Instances` and `Delivery` hold concrete runs.
- **Clients.** `QueueClients` and `SemaphoreClients` add the tasks of `kernel/kernel.c` and
  their run-time checks to the machine and prove that the checks never report anything.
- **Context switch.** `ContextSwitch` models the stacks, the register file, PendSV_Handler,
  SVC_Handler and the first frame of a task, on top of the hardware's frame push and pop as
  sections B1.5.6 and B1.5.8 of the ARMv7-M Architecture Reference Manual describe them.

Conventions: a task id of 0 (idle) stands for "no winner" where the source returns an invalid
id; masks are sets of ids in the value-level functions; the tick is an unbounded count of which
the source sees the low 32 bits; `pending` is the PENDSVSET bit and `masked` is PRIMASK; the
histories `written` and `read` are specification only. A task makes no step while interrupts are
enabled and PendSV is pending or active, because the exception is taken before its next
instruction. A step of PendSV_Handler reads one task's state and, if it is READY, makes it
RUNNING; a tick between these two accesses could not tell the difference, because ticks only read
and write SLEEPING tasks. For the same reason the entry into the handler and the requeueing of
the current task are one step. The copy loops read `tail` or `head` at every byte, where the source
computes the address of the slot once before the loop; no other task moves either of them during a
copy, because only one task is between the lock and the unlock (`QueueInvariant.OnlyOneCopies`). The
scheduler state is RUNNING throughout the machine, as it is from `os_scheduler_start` on.

An *open* tick is one taken while no switch is requested or under way; a tick inside a switch cannot
bring another switch closer. Waiting times are bounds on open ticks and hold of every interleaving
with preemption on. Where each PendSV is served before the next tick all ticks are open
(`SchedulerTheorems.PromptSwitchesOpenAllTicks`), and the bounds are in ticks of the clock.

Where the documentation and the code differ the model follows the code: `TASK_STATE_TERMINATED`
and `OS_SCHEDULER_TIME_SLICE_TICKS` are mentioned in `docs/` but do not exist in the source.

## Results that are not what one might expect

- `os_schedule_next` can lose a wakeup. When a tick wakes a task that the search in
  PendSV_Handler has already passed, and idle is chosen, nothing requests another switch:
  `os_scheduler_tick` does so only when idle is already current. `WorkConservation` says exactly
  when this happens (`IdleBesideReady`: while idle executes, the READY tasks are the ones a tick
  woke behind the last search) and what it costs. With preemption on, the next switch is requested
  within a slice (`EverySliceRequestsASwitch`) and the task runs within the usual number of open
  ticks (`DispatchedWithinTicks`). With preemption off, a tick requests a switch exactly if it wakes
  yet another task (`IdleTickRequestsExactly`); once nobody is asleep the task never runs again
  (`StrandedForEver`). `Instances.LostWakeup` is such a run from boot.
- `count` never exceeds `maximum_count`, but `count` plus the handed-over units of a bare
  semaphore can: `Ledger.SumBoundExactly` says exactly when a post keeps that bound and
  `Instances.HandoffExceedsMaximum` is a run that exceeds it. Inside the queue the stronger bound does
  hold (`QueueTheorems.SlotConservation`).
- A sleep ends at exactly the later of its target tick and the first tick after its entry, if
  and only if `SleepTheorems.OnTime` holds of the requested time and of the delay between
  reading the tick and entering the sleep. Every sleep of up to 2^31 ticks entered within 2^31
  ticks is inside (`OrdinarySleepsAreOnTime`); outside it the very first tick goes wrong
  (`OffTimeSleepsGoWrong`); `Instances.SleepEndsTooEarly` is a run in which a sleep of 2^31 + 2
  ticks ends after one.
- A send or a receive can fail only when its caller had disabled interrupts; a failure never
  follows the copy (`QueueTheorems.FailuresAreMasked`).

## Model

| member | source | states |
|---|---|---|
| RoundRobin.Search | kernel/task_scheduler.c:154-172 | from any offset on, the walk answers the candidate closest behind the base, or none exactly when there is none |
| RoundRobin.Next | kernel/task_scheduler.c:147-186 | the whole walk answers the closest application candidate, or idle exactly when there is none |
| RoundRobin.OffsetOfVisited | kernel/task_scheduler.c:156 | the wrapped index visits each id at exactly one offset |
| RoundRobin.NextIsUnique | kernel/semaphore.c:66-97 | there is only one closest candidate, so the three searches of the kernel agree |
| RoundRobin.PassingOverShortens | kernel/semaphore.c:66-88 | a choice that passes a candidate over strictly shortens the candidate's cyclic distance |
| TaskMask.Test | kernel/semaphore.c:77-80 | testing a bit of the mask is membership in the set |
| TaskMask.With | kernel/semaphore.c:187 | setting a bit adds exactly that id, for all 32 ids |
| TaskMask.Without | kernel/semaphore.c:94 | clearing a bit removes exactly that id, for all 32 ids |
| TaskMask.BitIsTheShift | kernel/semaphore.c:19-22 | the mask of a task is 1 shifted by its id |
| TaskMask.BitsAreIndependent | kernel/semaphore.c:19-22 | different tasks have masks without a common bit |
| Task.NobodyOversleeps | kernel/task.c:284-306 | after a wakeup nobody due is still asleep, exactly those not due sleep on, nobody else was touched, and repeating it does nothing |
| Task.TransitionsAreExact | kernel/task.c:230-364 | blocking, unblocking and sleeping each move exactly the application tasks in the states they accept, refuse all others with the status that says why, and touch no other entry |
| Task.TaskTable.constructor | kernel/task.c:89-112 | after initialisation the table holds just a READY idle task |
| Task.TaskTable.Create | kernel/task.c:114-150 | a new READY task is appended; the two error cases change nothing |
| Task.TaskTable.SetState | kernel/task.c:185-195 | changes the state of an existing task only |
| Task.TaskTable.BlockTask | kernel/task.c:308-337 | RUNNING to BLOCKED, with every error case |
| Task.TaskTable.UnblockTask | kernel/task.c:339-364 | BLOCKED to READY, with every error case |
| Task.TaskTable.SleepTaskUntil | kernel/task.c:230-260 | RUNNING or READY to SLEEPING with its tick, with every error case |
| Task.TaskTable.WakeExpiredTasks | kernel/task.c:284-306 | the loop wakes exactly the expired sleepers and counts more than zero exactly when there was one |
| Scheduling.Scheduler.constructor | kernel/task_scheduler.c:66-72 | idle is current, preemption off, nothing started or pending |
| Scheduling.Scheduler.IrqSave | kernel/context_switch_asm.asm:158-163 | masks interrupts and returns the former PRIMASK |
| Scheduling.Scheduler.IrqRestore | kernel/context_switch_asm.asm:169-172 | restores PRIMASK |
| Scheduling.Scheduler.TriggerContextSwitch | kernel/context_switch.c:59-69 | leaves PendSV pending |
| Scheduling.Scheduler.FindReady | kernel/task_scheduler.c:154-172 | the search loop finds the READY application task closest behind the current one, or none |
| Scheduling.Scheduler.ScheduleNext | kernel/task_scheduler.c:115-191 | undisturbed, requeues a RUNNING current task and makes the chosen one RUNNING and current; when idle is needed and its entry unusable, the current id becomes invalid and so is the answer |
| Scheduling.Scheduler.Start | kernel/task_scheduler.c:74-93 | starting selects the first task, or fails exactly when neither an application task nor idle can be chosen |
| Scheduling.Scheduler.SysTick | drivers/systick.c:80-104 | the 32-bit tick stays the low half of the tick count, also before the scheduler runs; wakes, time slice and switch request as specified by `Tick` |
| Scheduling.Scheduler.Yield | kernel/task_scheduler.c:193-210 | requests a switch once the scheduler runs and the first task was started, and does nothing else |
| Scheduling.Scheduler.ReadWakeupTick | kernel/task_scheduler.c:244 | the wakeup tick wraps at 32 bits |
| Scheduling.Scheduler.SleepCritical | kernel/task_scheduler.c:251-261 | state change and switch request happen together or not at all |
| Scheduling.Scheduler.SetPreemption | kernel/task_scheduler.c:264-274 | switches preemption and restarts the slice |
| Scheduling.TickWraps | drivers/systick.c:80-83 | incrementing the 32-bit tick is incrementing the unbounded one modulo 2^32 |
| Scheduling.TickIsExact | kernel/task_scheduler.c:276-333 | a tick requests a switch exactly when it wakes somebody beside idle or, with preemption on, fills the slice, and then restarts the slice; below the slice it counts one, with preemption off it counts nothing |
| Waiters.NothingIsStale | kernel/mutex.c:92-96 | if every marked task is BLOCKED the search drops no marker and finds a task exactly when one is marked |
| Waiters.SearchCleansUp | kernel/semaphore.c:56-98 | whatever the mask holds, every marker of a BLOCKED task is kept, and of the others exactly those behind the winner |
| Waiters.FindNextWaitingTask | kernel/semaphore.c:56-98 | the loop finds the closest marked BLOCKED task and drops exactly the stale markers before it |
| Semaphore.SemaphoreObject.Init | kernel/semaphore.c:100-120 | accepts exactly the valid counts and starts with empty masks |
| Semaphore.WaitPassIsExact | kernel/semaphore.c:148-205 | in any state: which of the four answers a pass gives, a handed-over unit before a free one, no marker of the caller after OK, other markers untouched, scheduler touched only by blocking |
| Semaphore.SemaphoreObject.CheckCaller | kernel/semaphore.c:24-54 | which callers are turned away, and with what status |
| Semaphore.SemaphoreObject.WaitCritical | kernel/semaphore.c:148-205 | one pass of the wait loop on masks and fields is `WaitPass`, for semaphore, scheduler and status |
| Semaphore.SemaphoreObject.PostCritical | kernel/semaphore.c:233-273 | the post's critical section is `PostPass`; unblocking the winner cannot fail |
| Semaphore.SemaphoreObject.BlockCaller | kernel/semaphore.c:187-203 | marking and blocking happen together, with a switch request, or the marker is taken back |
| Semaphore.SemaphoreObject.HandOver | kernel/semaphore.c:239-260 | the winner moves from the waiting to the granted mask and becomes READY; its unblocking cannot fail |
| Semaphore.SemaphoreObject.Wait | kernel/semaphore.c:122-206 | checks and first pass together; a rejected caller and an uninitialised semaphore change nothing |
| Semaphore.SemaphoreObject.Post | kernel/semaphore.c:208-274 | checks and critical section together; a rejected caller and an uninitialised semaphore change nothing |
| Mutex.MutexObject.Init | kernel/mutex.c:102-115 | the mutex starts free, with nobody waiting |
| Mutex.LockPassIsExact | kernel/mutex.c:143-210 | in any state: which of the five answers a pass gives; RECURSIVE_LOCK exactly to an owner without a handoff marker |
| Mutex.UnlockPassIsExact | kernel/mutex.c:237-275 | OK exactly to the owner, and then the mutex is free or the new owner is READY and marked; anyone else gets NOT_OWNER and changes nothing |
| Mutex.MutexObject.CheckCaller | kernel/mutex.c:28-55 | which callers are turned away, and with what status |
| Mutex.MutexObject.LockCritical | kernel/mutex.c:143-210 | one pass of the lock loop on mask and fields is `LockPass`, for mutex, scheduler and status |
| Mutex.MutexObject.UnlockCritical | kernel/mutex.c:237-275 | the unlock's critical section is `UnlockPass`; unblocking the next owner cannot fail |
| Mutex.MutexObject.BlockCaller | kernel/mutex.c:191-208 | marking and blocking happen together, with a switch request, or the marker is taken back |
| Mutex.MutexObject.Lock | kernel/mutex.c:117-211 | checks and first pass together; a rejected caller and an uninitialised mutex change nothing |
| Mutex.MutexObject.Unlock | kernel/mutex.c:213-276 | checks and critical section together; a rejected caller and an uninitialised mutex change nothing |
| MessageQueue.SlotEndsBefore | kernel/message_queue.c:29-33 | the storage of a slot ends before the next slot starts |
| MessageQueue.OneByteChangesOneSlot | kernel/message_queue.c:17-33 | a byte written at a slot's address changes that byte of that slot and no other slot |
| MessageQueue.QueueObject.Init | kernel/message_queue.c:35-87 | which configurations are accepted; an accepted queue is empty, with all units on the side of the spaces |
| MessageQueue.QueueObject.CopyByteIn | kernel/message_queue.c:17-27 | one iteration of the copy into the ring writes one byte of the tail slot |
| MessageQueue.QueueObject.CopyByteOut | kernel/message_queue.c:17-27 | one iteration of the copy out of the ring fetches one byte of the head slot |
| MessageQueue.QueueObject.CopyIn | kernel/message_queue.c:124-127 | undisturbed, the copy loop makes the tail slot equal to the message and touches nothing else |
| MessageQueue.QueueObject.CopyOut | kernel/message_queue.c:190-193 | undisturbed, the copy loop fetches exactly the head slot |
| MessageQueue.QueueObject.AdvanceTail | kernel/message_queue.c:129-136 | the tail moves to the next slot around the ring |
| MessageQueue.QueueObject.AdvanceHead | kernel/message_queue.c:195-202 | the head moves to the next slot around the ring |
| MessageQueue.EnteringIsExact | kernel/message_queue.c:109-122 | the part before the copy gets in exactly with a unit and a free lock, and then holds one of each; otherwise it fails without a trace with interrupts disabled, and with interrupts enabled blocks, marked in the one object it waits for |
| MessageQueue.QueueObject.Enter | kernel/message_queue.c:109-122 | wait, lock and rollback, written on the objects, are `EnterQueue` |
| MessageQueue.QueueObject.Leave | kernel/message_queue.c:138-152 | unlock and post, written on the objects, are `LeaveQueue` |
| MessageQueue.QueueObject.Send | kernel/message_queue.c:89-153 | the whole call up to its return or its blocking: new storage, tail, mutex, semaphores, scheduler and status, with every error case |
| MessageQueue.QueueObject.Receive | kernel/message_queue.c:155-219 | the same for receive, and what ends up in the caller's buffer |
| MessageQueue.PostGivesOneUnit | kernel/semaphore.c:235-269 | a post succeeds exactly when the count is below its maximum or somebody waits, and then adds exactly one free or handed-over unit |
| MessageQueue.LockAndUnlockLeaveNoTrace | kernel/mutex.c:153-161 | taking and releasing a free lock restores mutex and scheduler |
| MessageQueue.TakenAndGivenBack | kernel/message_queue.c:109-122 | the rollback's post undoes the wait exactly |
| MessageQueue.PostIsExact | kernel/semaphore.c:233-273 | a post hands the unit to the closest waiter, which becomes READY, or makes it free; at the maximum with nobody waiting it answers OVERFLOW and changes nothing |
| MessageQueue.SendIsExact | kernel/message_queue.c:89-153 | interrupts enabled or not: with a slot and a free lock the message is in the tail slot, the tail one further, the mutex free, one slot taken and one unit posted to the closest receiver or left free; otherwise it blocks, or with interrupts disabled fails without a trace |
| MessageQueue.ReceiveIsExact | kernel/message_queue.c:155-219 | the same for receive, which copies a message out exactly when there is one and the lock is free |
| MessageQueue.ContextIsChecked | kernel/message_queue.c:109-114 | outside a task, or before the first task was started, both calls fail and change nothing |
| MessageQueue.LeavingNeedsTheLock | kernel/message_queue.c:138-143 | a caller that did not own the lock would fail at the unlock and post nothing |
| CoreInvariant.InitIsGood | kernel/task_scheduler.c:74-93 | the invariant holds after the first selection of a task |
| CoreInvariant.TickKeepsCore | kernel/task_scheduler.c:281-333 | a tick wakes only sleepers and keeps the invariant |
| CoreInvariant.SwitchBeginsGood | kernel/task_scheduler.c:132-145 | the entry into PendSV_Handler keeps the invariant, whatever state the current task is in |
| CoreInvariant.SwitchKeepsCore | kernel/task_scheduler.c:147-191 | each round of the search, and its conclusion, keeps the invariant, with ticks between |
| CoreInvariant.SleepKeepsCore | kernel/task_scheduler.c:251-261 | entering a sleep keeps the invariant |
| CoreInvariant.WaitKeepsCore | kernel/semaphore.c:148-205 | a pass of the wait loop keeps it: the task that blocks is marked, and only there |
| CoreInvariant.PostKeepsCore | kernel/semaphore.c:233-273 | a post keeps it: the task it wakes was waiting here and nowhere else |
| CoreInvariant.LockKeepsCore | kernel/mutex.c:143-210 | a pass of the lock loop keeps it |
| CoreInvariant.UnlockKeepsCore | kernel/mutex.c:237-275 | a handoff keeps it: the new owner's marker stays until it resumes |
| CoreInvariant.StepKeepsCore | kernel/task_scheduler.c:115-333 | every step of the machine keeps the invariant |
| CoreInvariant.WaitersAreBlocked | kernel/semaphore.c:187-204 | every task in a waiting mask is BLOCKED |
| CoreInvariant.LockersAreBlocked | kernel/mutex.c:191-209 | every marked task other than the owner is BLOCKED; a marked owner is still inside its call of lock |
| QueueInvariant.PostInQueueSucceeds | kernel/message_queue.c:145-150 | neither post inside the queue can return OVERFLOW |
| QueueInvariant.UnlockInQueueSucceeds | kernel/message_queue.c:138-143 | the unlock inside the queue cannot fail |
| QueueInvariant.OnlyOneCopies | kernel/message_queue.c:116-138 | at most one task is between the lock and the unlock of the queue, the copy and the point before the unlock included |
| QueueInvariant.CopierHasRoom | kernel/message_queue.c:124-136 | a sender that copies finds a free slot, a receiver a full one |
| QueueInvariant.SendByteKeepsRing | kernel/message_queue.c:17-27 | writing one byte disturbs no live slot, however the copy is interrupted |
| QueueInvariant.ReceiveByteKeepsRing | kernel/message_queue.c:17-27 | the bytes fetched so far agree with the message being read |
| QueueInvariant.FinishSendKeepsRing | kernel/message_queue.c:129-136 | advancing the tail publishes exactly the sender's message |
| QueueInvariant.FinishReceiveKeepsRing | kernel/message_queue.c:195-202 | advancing the head retires exactly the message the receiver holds |
| QueueInvariant.StepKeepsQueue | kernel/message_queue.c:89-219 | every step of the machine keeps unit accounting and ring contents |
| QueueInvariant.EveryStateIsGood | kernel/message_queue.c:89-219 | the invariant holds in every state of every run |
| Boot.BootIsInit | kernel/task_scheduler.c:74-93 | every configuration of tasks, queue, semaphores and mutexes has an initial state |
| Boot.ClientsCanStart | kernel/kernel.c:622-691 | producers and consumer can start on every queue that holds their messages |
| Boot.WorkersCanStart | kernel/kernel.c:464-517 | workers can start on every semaphore |
| Boot.NoRunGetsStuck | kernel/context_switch_asm.asm:158-172 | in every state of every run some step is possible, and with interrupts disabled it is a step of the task that disabled them |
| RunFacts.OthersStay | kernel/context_switch_asm.asm:74-112 | only a task's own steps move it or touch its buffer |
| RunFacts.ProceedFollows | kernel/message_queue.c:89-219 | past its wait and its lock a call goes straight through to its post |
| SyncTheorems.BlockedMeansMarkedOnce | kernel/mutex.c:191-209 | a task is BLOCKED exactly when one semaphore, or one mutex it does not own, has it marked; never two |
| SyncTheorems.CleanupNeverFires | kernel/semaphore.c:90-94 | the branches that drop stale markers are dead |
| SyncTheorems.BlockingNeverFails | kernel/semaphore.c:189-197 | the TASK_OPERATION returns of wait and lock are dead |
| SyncTheorems.WaitEngagementStays | kernel/semaphore.c:158-205 | nothing but its own next pass takes a waiter out of both masks |
| SyncTheorems.LockEngagementStays | kernel/mutex.c:162-209 | nothing but its own next pass clears a locker's marker |
| SyncTheorems.WaitBlocksAtMostOnce | kernel/semaphore.c:148-205 | a wait that blocked finds itself granted when it next runs, and returns OK: two passes at most |
| SyncTheorems.LockBlocksAtMostOnce | kernel/mutex.c:143-210 | a lock that blocked finds itself owner with its marker set and returns OK, never RECURSIVE_LOCK: two passes at most |
| Exclusion.OwnershipStays | kernel/mutex.c:153-179 | until its owner unlocks, a mutex keeps its owner and no other task's lock succeeds |
| Exclusion.MutualExclusion | kernel/mutex.c:117-276 | over whole runs, two tasks between lock and unlock of one mutex are the same task |
| Exclusion.NobodyOvertakesTheOwner | kernel/mutex.c:246-271 | after a handoff no third task acquires before the chosen waiter has run and unlocked |
| Exclusion.LockedMeansOwned | kernel/mutex.c:153-161 | locked exactly when a created application task is the owner |
| Exclusion.UnlockHandsToClosest | kernel/mutex.c:246-271 | an unlock frees the mutex when nobody waits and otherwise picks the cyclically closest waiter |
| Exclusion.HoldsExactly | kernel/mutex.c:153-179 | over whole runs the fields of a mutex say exactly who locked it successfully and has not unlocked it since |
| Exclusion.RecursiveLockIsRefused | kernel/mutex.c:163-179 | over whole runs a lock answers RECURSIVE_LOCK exactly to the task that holds the mutex, with nothing changed, and OK only to one that does not |
| Exclusion.LockAnswersExactly | kernel/mutex.c:153-210 | to a task that does not hold it: OK exactly when no other task owns it, else it blocks, or with interrupts disabled fails and changes nothing |
| Exclusion.UnlockIsForTheHolder | kernel/mutex.c:237-255 | over whole runs an unlock succeeds exactly for the task that holds the mutex; anyone else gets NOT_OWNER and nothing changes |
| Ledger.StepBalances | kernel/semaphore.c:158-175 | each step changes free plus handed-over units by its successful post or wait, and by nothing else |
| Ledger.LedgerBalances | kernel/semaphore.c:122-274 | over any run: initial count plus successful posts minus completed waits is free plus handed-over units |
| Ledger.CountIsBounded | kernel/semaphore.c:263-269 | the count never exceeds the maximum given at initialisation |
| Ledger.NobodyWaitsBesideFreeUnits | kernel/semaphore.c:171-175 | over whole runs the masks are disjoint, and free units mean that nobody waits |
| Ledger.NewcomersDoNotOvertake | kernel/semaphore.c:158-175 | in no run does a wait complete while somebody waits, unless its caller was handed a unit |
| Ledger.OverflowExactly | kernel/semaphore.c:263-267 | OVERFLOW exactly at the maximum with nobody waiting, and then nothing changes |
| Ledger.SumBoundExactly | kernel/semaphore.c:235-269 | exactly when a post keeps free plus handed-over units within the maximum |
| Instances.HandoffExceedsMaximum | kernel/semaphore.c:235-256 | a run from boot in which two units of a semaphore made for one are handed over |
| Fairness.GrantGetsCloser | kernel/semaphore.c:235-256 | every grant to somebody else brings the search strictly closer to a waiter, and no other step takes it away |
| Fairness.BoundedBypassOfWaiters | kernel/semaphore.c:56-98 | a waiter is passed over by at most N - 2 grants before its own |
| Fairness.UnlockGetsCloser | kernel/mutex.c:246-271 | every handoff to somebody else brings ownership strictly closer to a waiter |
| Fairness.BoundedBypassOfLockers | kernel/mutex.c:57-100 | a mutex waiter becomes owner by the (N - 2)-th successful unlock at the latest |
| QueueTheorems.RingStoresContents | kernel/message_queue.c:29-33 | the slots from head to tail, around the end of the storage, are the abstract queue, never longer than the capacity |
| QueueTheorems.StepRefinesFifo | kernel/message_queue.c:89-219 | every step is an enqueue at the back, a dequeue of the front into the receiver's buffer, or invisible |
| QueueTheorems.KthReadIsKthWritten | kernel/message_queue.c:89-219 | over whole runs the k-th message read is the k-th written, byte for byte |
| QueueTheorems.SentMessageIsWritten | kernel/message_queue.c:89-136 | the message given to send is the one that enters the queue, although the copy is preempted |
| QueueTheorems.ReceivedMessageIsTheWrittenOne | kernel/message_queue.c:190-218 | the receiver returns with the message that was written in the place it read |
| QueueTheorems.CallCopiesOnce | kernel/message_queue.c:89-219 | from call to return, a send or receive adds exactly one entry to its history if it returns OK, and none if it fails |
| QueueTheorems.SendAddsItsMessageOnce | kernel/message_queue.c:89-153 | the one entry a successful send adds is the message it was called with |
| Delivery.SenderCanBeCopying | kernel/message_queue.c:109-136 | on every configuration, for every message and every number of its bytes, a run from boot in which that much of the copy is done |
| Delivery.MessageGoesThrough | kernel/message_queue.c:89-219 | a run from boot in which the message is sent, received and ends up in the buffer |
| QueueTheorems.SlotConservation | kernel/message_queue.c:109-152 | free, handed-over and held units of both semaphores always add up to the capacity, the rollback included |
| QueueTheorems.LockInQueueFailsOnlyMasked | kernel/message_queue.c:116-122 | the lock inside the queue never reports RECURSIVE_LOCK or TASK_OPERATION |
| QueueTheorems.RollbackAlwaysMasked | kernel/message_queue.c:118-122 | a unit is given back only by a caller that disabled interrupts |
| QueueTheorems.FailuresAreMasked | kernel/message_queue.c:109-152 | a send or receive fails only with interrupts disabled, and never after its copy |
| QueueTheorems.SuccessIsTheLastPost | kernel/message_queue.c:145-152 | the calls return OK exactly from their final post |
| QueueTheorems.RingOwnerIsNotBlocked | kernel/message_queue.c:116-143 | the owner of the queue's mutex is never blocked |
| QueueTheorems.WaitedSemaphoreIsDry | kernel/semaphore.c:171-201 | if all are blocked, the semaphore one of them waits for has no unit anywhere |
| QueueTheorems.NoInternalDeadlock | kernel/message_queue.c:109-211 | if every application task is blocked in send or receive, they are all senders before a full queue or all receivers before an empty one |
| QueueTheorems.SomeoneCanRun | kernel/task_scheduler.c:154-182 | with all application tasks inside the queue, an undisturbed call of the scheduler falls back to idle exactly when all are blocked |
| QueueTheorems.MixedCallersKeepRunning | kernel/task_scheduler.c:154-182 | with a sender and a receiver among them it never does |
| WorkConservation.IdleMeansAllBlocked | kernel/task_scheduler.c:154-182 | the same over whole runs, with ticks falling into the switches: idle executes only if all callers of the queue are blocked |
| WorkConservation.MixedCallersNeverIdle | kernel/message_queue.c:109-211 | over whole runs, idle never executes while a sender and a receiver are both inside the queue and no other task is outside it |
| SchedulerTheorems.DispatchIsRight | kernel/task_scheduler.c:115-191 | without a tick inside: exactly the current task is RUNNING, it is the closest runnable one, idle only when nothing else is runnable, BLOCKED and SLEEPING tasks untouched |
| SchedulerTheorems.UndisturbedSwitchIsDispatch | kernel/task_scheduler.c:147-191 | without ticks between, the single steps of the search add up to that call |
| SchedulerTheorems.SwitchLeavesOneRunning | kernel/task_scheduler.c:50-64 | after every switch, ticks or not, exactly the current task is RUNNING |
| WorkConservation.EveryStateIsWatched | kernel/task_scheduler.c:147-191 | in every state of every run, the READY tasks the search has passed are exactly the overlooked ones |
| WorkConservation.SwitchChoosesClosest | kernel/task_scheduler.c:147-186 | a switch chooses the closest READY task among all it did not overlook, and idle only if it overlooked all of them |
| WorkConservation.IdleMeansOverlooked | kernel/task_scheduler.c:302-312 | while idle executes with no switch requested, a task is READY exactly if the last switch overlooked it |
| WorkConservation.OverlookedByTick | kernel/task_scheduler.c:154-172 | a task is overlooked exactly when a tick woke it behind the search of the last switch |
| WorkConservation.IdleBesideReady | kernel/task_scheduler.c:147-191 | over whole runs, while idle executes with no switch requested, a task is READY exactly if a tick woke it behind the last search |
| WorkConservation.UndisturbedSwitchConservesWork | kernel/task_scheduler.c:147-191 | if no tick fell into the last switch, idle executes only if nobody is READY |
| WorkConservation.IdleTickRequestsExactly | kernel/task_scheduler.c:302-317 | without preemption, a tick while idle executes requests a switch exactly if it wakes somebody |
| WorkConservation.IdleTickKeepsWaiting | kernel/task_scheduler.c:302-317 | a READY task beside idle stays READY through such a tick, and idle goes on executing exactly if it woke nobody |
| WorkConservation.StrandedForEver | kernel/task_scheduler.c:302-317 | without preemption and with nobody asleep, an overlooked task stays READY beside a running idle task for the rest of every run |
| Instances.LostWakeup | kernel/task_scheduler.c:154-186 | a run from boot that ends so, on every configuration of the queue |
| SchedulerTheorems.ExecutingTaskIsRunning | kernel/context_switch.c:59-69 | over whole runs, while no switch is under way the executing task is the only RUNNING one |
| SchedulerTheorems.NoSwitchBeforeFirstTask | kernel/task_scheduler.c:292-300 | before the first task was started no switch is requested and none happens |
| Lifecycle.LifecycleIsKept | kernel/task.h:36-44 | every step of the kernel leaves an application task as it is or makes one of six transitions, each only in the step meant for it |
| Lifecycle.HandoffWakes | kernel/semaphore.c:239-260 | a post or an unlock that hands over to a BLOCKED task makes it READY in the same critical section |
| Lifecycle.BlockedUntilHandover | kernel/semaphore.c:171-201 | over whole runs a BLOCKED task executes nothing and stays BLOCKED until somebody hands over to it |
| SchedulerTheorems.SwitchApproaches | kernel/task_scheduler.c:154-172 | no round of a search moves it away from a READY task, and its conclusion dispatches the task or gets strictly closer |
| SchedulerTheorems.ReadyStays | kernel/task_scheduler.c:136-145 | nothing but its dispatch takes a task out of READY |
| SchedulerTheorems.DispatchedWithinSwitches | kernel/task_scheduler.c:115-191 | a READY application task is dispatched within N - 1 switches, not counting one whose search has already passed it |
| SchedulerTheorems.PatienceShrinks | kernel/task_scheduler.c:302-332 | with preemption on, each open tick uses up one unit of a bounded waiting time, and no step gives any back |
| SchedulerTheorems.DispatchedWithinTicks | kernel/task_scheduler.c:302-332 | with preemption on, whatever falls into the switches, a READY task, overlooked or not, is dispatched before open tick slice * (N - 1) + 1 |
| SchedulerTheorems.PromptSwitchesOpenAllTicks | kernel/context_switch.c:59-69 | where each switch is over before the next tick, all ticks are open |
| SchedulerTheorems.DispatchedWithinClockTicks | kernel/task_scheduler.c:302-332 | there the same bound holds in ticks of the clock |
| SchedulerTheorems.EverySliceRequestsASwitch | kernel/task_scheduler.c:319-332 | with preemption on, in any slice-length run of ticks, open or not, a switch is requested |
| Preemption.RequestsHaveCauses | kernel/task_scheduler.c:193-333 | a switch is requested exactly when the current task yields, sleeps, or blocks in a wait or a lock, or when a tick wakes somebody beside idle or fills the slice |
| Preemption.FlagsFollowTheirCalls | kernel/task_scheduler.c:264-274 | PRIMASK, preemption and the start flag change only by the calls that set them: every critical section, tick and switch restores them |
| Preemption.SliceIsCounted | kernel/task_scheduler.c:319-332 | the slice counter restarts exactly with these requests by a tick, with a sleep and with a change of preemption, and otherwise counts the ticks with preemption on |
| Preemption.SlicesAreApart | kernel/task_scheduler.c:319-332 | a tick that requests a switch, other than for a wakeup beside idle, comes with preemption on and at least a full slice of ticks after the beginning of the slice |
| Preemption.KeepsTheProcessor | kernel/task_scheduler.c:276-333 | over whole runs an executing task keeps the processor until it gives it up itself, or preemption is on and the ticks left of the slice have passed |
| Service.HandedUnitIsTaken | kernel/semaphore.c:158-166 | a task that was handed a unit is dispatched before open tick slice * (N - 1) + 1, and the pass it then makes returns OK |
| Service.HandedMutexIsTaken | kernel/mutex.c:163-175 | the same for a task that was handed a mutex |
| SleepTheorems.ExpiredUnwrapped | kernel/task.c:33-44 | the comparison of wrapped ticks is the comparison of the true ones, within half the circle |
| SleepTheorems.ExpiresOnTime | kernel/task.c:33-44 | in range, among the ticks examined up to the target exactly the target counts as expired |
| SleepTheorems.ExpiresOffTime | kernel/task.c:33-44 | out of range, the first tick examined already answers wrongly |
| SleepTheorems.OrdinarySleepsAreOnTime | kernel/task_scheduler.c:244-253 | sleeps of at most 2^31 ticks entered within 2^31 ticks are in range |
| SleepTheorems.LongestExactSleep | kernel/task_scheduler.c:244-253 | without delay the range is exactly the sleeps of at most 2^31 + 1 ticks |
| SleepTheorems.SleepIsEntered | kernel/task_scheduler.c:244-261 | whatever happens between reading the tick and the critical section, the task ends up asleep with the tick it read |
| SleepTheorems.SleepsUntilTarget | kernel/task.c:284-306 | before its target tick the task stays asleep and executes nothing |
| SleepTheorems.WakesAtTarget | kernel/task_scheduler.c:290 | the tick that reaches the target makes it READY, across the 32-bit wraparound |
| SleepTheorems.OffTimeSleepsGoWrong | kernel/task.c:33-44 | out of range, the first tick wakes the task too early or misses its target |
| Instances.SleepEndsTooEarly | kernel/task.c:33-44 | a run from boot in which a sleep of 2^31 + 2 ticks ends at tick 1 |
| SleepTheorems.EndToEndSleep | kernel/task_scheduler.c:212-333 | from the call to running again: never before t0 + ms, and with preemption on before slice * (N - 1) + 1 further open ticks |
| QueueClients.WordRoundTrip | kernel/kernel.c:76-81 | a 32-bit word stored as bytes reads back as itself |
| QueueClients.MessageRoundTrip | kernel/kernel.c:76-81 | the receiver decodes the identifier, the number and the tick the producer stored |
| QueueClients.RecordDetects | kernel/kernel.c:530-568 | the check counts an error exactly for an unknown producer or an unexpected number |
| QueueClients.MonitorCountsGaps | kernel/kernel.c:530-568 | for any sequence of messages, the monitor counts exactly those out of step with the message before them from the same producer, and all that were received |
| QueueClients.QueueMonitor.RecordReceiveSuccess | kernel/kernel.c:530-568 | the counters of the check, with their 32-bit wraparound |
| QueueClients.ProducerContinues | kernel/kernel.c:622-659 | a producer's number and the messages it has in the queue stay in step through its send |
| QueueClients.ProducerCalls | kernel/kernel.c:635-639 | a send starts with the producer's next number |
| QueueClients.AdvanceKeepsClients | kernel/kernel.c:648 | advancing the number catches up with the message already sent |
| QueueClients.RecordKeepsMonitor | kernel/kernel.c:541-562 | a message recorded in its turn carries the number expected of its producer |
| QueueClients.StepKeepsClients | kernel/kernel.c:622-691 | every step of kernel, producers and consumer keeps the numbering |
| QueueClients.NoSequenceErrors | kernel/kernel.c:530-691 | in every state of every run the sequence-error counter is 0, across the wraparound of the numbers, and every recorded message is counted |
| SemaphoreClients.UsageMonitor.RecordEnter | kernel/kernel.c:405-425 | the counters of the check on entering |
| SemaphoreClients.UsageMonitor.RecordExit | kernel/kernel.c:427-443 | the counters of the check on leaving |
| SemaphoreClients.EnterDetects | kernel/kernel.c:412-422 | entering counts a violation exactly when more users are active than there are units, counts the success and keeps the maximum |
| SemaphoreClients.ExitDetects | kernel/kernel.c:433-440 | leaving counts a violation exactly when nobody was active, and else lowers the number of users |
| SemaphoreClients.WorkerPostSucceeds | kernel/kernel.c:500 | a worker's post cannot overflow: its own unit is out |
| SemaphoreClients.KernelKeepsUnits | kernel/kernel.c:473-500 | free units, handed-over units and workers between wait and post always add up to the capacity |
| SemaphoreClients.EnterKeepsUsage | kernel/kernel.c:405-425 | a worker that enters finds fewer active users than units |
| SemaphoreClients.ExitKeepsUsage | kernel/kernel.c:427-443 | a worker that leaves never finds the number of users at zero |
| SemaphoreClients.StepKeepsWorkers | kernel/kernel.c:464-517 | every step of kernel and workers keeps the accounting |
| SemaphoreClients.UsageIsRecorded | kernel/kernel.c:405-443 | over whole runs the success counter is the number of entries modulo 2^32 and the maximum is the largest number of workers ever active at once |
| SemaphoreClients.NoUsageViolations | kernel/kernel.c:405-517 | in every state of every run the active users are at most the initial count and the violation counter is 0 |
| ContextSwitch.StacksAreApart | kernel/task.c:17 | the rows of the stack array do not overlap |
| ContextSwitch.SavingWritesSixteenWords | kernel/context_switch_asm.asm:88-92 | frame and R4-R11 end up in the sixteen words under PSP, and no other word changes |
| ContextSwitch.SavingParks | kernel/context_switch.c:76-88 | with headroom the range check accepts the new pointer, so every task has a valid saved context |
| ContextSwitch.SavingSparesOthers | kernel/context_switch_asm.asm:88-92 | saving writes no word of another task's stack |
| ContextSwitch.SwitchKeepsEveryContext | kernel/context_switch_asm.asm:74-112 | a switch changes the context of no task: not the stopped, not the resumed, not any other |
| ContextSwitch.StartKeepsEveryContext | kernel/context_switch_asm.asm:31-49 | starting the first task changes the context of no task |
| ContextSwitch.ExecutionKeepsOthers | kernel/task.c:132-146 | a task that stays in its own stack disturbs no other task's context |
| ContextSwitch.RestingKeepsContext | kernel/context_switch_asm.asm:74-112 | over any run, a task's context is unchanged until it executes again |
| ContextSwitch.ResumesWhereItStopped | kernel/context_switch_asm.asm:74-112 | a task resumes with the R4-R11, hardware frame, PSP and stack it was stopped with |
| ContextSwitch.HeadroomIsExact | kernel/task.c:207-228 | the range check accepts the saved pointer exactly when the sixteen words were free |
| ContextSwitch.StoredPointerIsExact | kernel/task.c:207-228 | a stack pointer is stored exactly when it lies in the task's own stack, both ends included, and no other entry changes |
| ContextSwitch.FirstFrameRegisters | kernel/task.c:62-84 | which of the sixteen registers of a first context holds what |
| ContextSwitch.PrepareIsFresh | kernel/task.c:46-87 | the prepared stack is a restorable context; its top words are the exit trap, the entry point and the Thumb bit, and the argument comes first in the frame |
| ContextSwitch.CreatedTasksAreFresh | kernel/task.c:114-150 | creating all tasks leaves every one of them with its own first context |
| ContextSwitch.CreationIsGood | kernel/task.c:114-150 | after creation the first dispatch is possible, whichever task is chosen |
| ContextSwitch.AlignedTopIsAligned | kernel/task.c:50-53 | the initial PSP is 8-byte aligned and at most one word below the stack's top |
| ContextSwitch.FirstDispatchStartsAtEntry | kernel/task.c:55-84 | through SVC or PendSV, after any run, a task first runs with its entry point in PC, its argument in R0, the exit trap in LR, the Thumb bit in xPSR and an aligned PSP |
| ContextSwitch.Processor.StoreDescending | kernel/context_switch_asm.asm:88-89 | a descending store puts the words in ascending order below the pointer and changes nothing else |
| ContextSwitch.Processor.SetStackPointer | kernel/task.c:207-228 | the three error cases, and the store |
| ContextSwitch.Processor.SaveRegisters | kernel/context_switch_asm.asm:77-92 | the saving half of the handler; with PSP still 0 it saves nothing |
| ContextSwitch.Processor.Resume | kernel/context_switch_asm.asm:97-112 | the restoring half of both handlers; the fault loop is entered exactly for a null stack pointer, with nothing changed |
| ContextSwitch.Processor.PendSv | kernel/context_switch_asm.asm:74-115 | the whole handler is a switch to the task `os_schedule_next` chooses |
| ContextSwitch.Processor.SvcHandler | kernel/context_switch_asm.asm:31-52 | the whole handler starts the current task |
| ContextSwitch.Processor.PrepareInitialStack | kernel/task.c:46-87 | the sixteen stores build the first context of a task: exit trap, entry point and Thumb bit at the aligned top, the argument eight words below it |

## Left out

- Null pointers to a semaphore, a mutex or a queue: a Dafny reference to the receiver is never null. The null checks of storage and message are modelled.
- os_message_queue_send and os_message_queue_receive across a blocking point: `QueueObject.Send` and `QueueObject.Receive` are the calls up to the point where they block; what happens between their critical sections is the step machine's business.
- The tie between the classes and the step machine: both use the same transition functions; no lemma runs the classes concurrently, since Dafny methods are sequential.
- One queue per machine: the machine holds any number of semaphores and mutexes but a single message queue.
- Calls from interrupt handlers and from the idle task inside the step machine: the APIs are task-only. The checks that reject them are modelled in `CheckCaller`.
- Use of the services before the first task was started, and the busy-waiting `os_delay_ms` to which `os_sleep` then falls back.
- Re-initialising a live semaphore, mutex or queue, and calling `task_set_state` from outside the scheduler.
- Calling `os_sleep` with interrupts disabled: excluded by `System.OpShape`.
- An empty task table in `os_schedule_next`: task 0 always exists after `task_system_init`. What follows after `os_schedule_next` has answered the invalid id is not modelled.
- `os_scheduler_start` from the STOPPED state, where it first calls `os_scheduler_init`: the class starts initialised.
- Task names, and `task_wake`, which nothing calls.
- `systick_reset_ticks`, which nothing calls: it would set the 32-bit tick back under sleeping tasks.
- Ticks inside the class method `Scheduler.ScheduleNext`: a Dafny method is sequential. The step machine has them, and `UndisturbedSwitchIsDispatch` ties its steps to the method's specification.
- Stack overflow by task code: `ContextSwitch.HasHeadroom` is a condition of each switch; `HeadroomIsExact` says what the range check sees.
- The alignment padding word and floating-point state of an exception frame, DSB and ISB, NMI and faults.
- The main stack: the frame that SVC pushes there is never popped.
- boot/, linker/, system/, drivers/gpio.c and drivers/uart.c: register writes and set-up code.
- kernel/printk.c, SysTick reload values and baud-rate divisors: isolated sums.
- Console printing, LEDs and success counters of `kernel/kernel.c`: between the modelled steps the clients may make any other call, the console mutex included.
- The sleep statistics of `kernel/kernel.c`: a debug record of differences of ticks.
