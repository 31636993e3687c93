# Verified model of AVRTOS

AVRTOS is a real-time kernel for AVR microcontrollers. This project models its scheduler
core, its timeout queues, the objects that block threads, the software timers and events,
and two arithmetic pieces, and proves properties of the model over all inputs and over whole
runs. Everything is in Dafny; `dafny verify dfyconfig.toml` checks the project. Nothing was
executed: the statements are about the model.

## How the model is built

**Memory and lists.** Intrusive list nodes are addresses (`Links.Id`) into a memory of cells.
A thread's `tie` is one cell seen in two ways, as a list node or as a timeout item, as in the
C union. `Links.Memory` is dlist.c, `TimeQueue.TQueue` is tqueue.c, `TdQueue.TdQueue` is
tdqueue.c, `SList.SList` is slist.c, all on pointers.

**Timeout queues.** `DeltaQueue` defines the operations twice, on deltas and on plain lists of
the time left to each item, and proves the delta form right. `DeadlineOrder` follows a queue
over any run against the wall clock.

**Scheduler.** `Sched` is the kernel as a state machine: thread states and flags, the run ring
and its cursor, the timeout list, the wait queues, the running thread. `SchedInv`, `Abort` and
`SchedRuns` prove its invariant over every run. `Waits` follows one blocked thread, and
`WaitQueues` one wait queue, over every run, and `RunOrder` says who runs next. `KernelRep` says how a state is laid out in
pointers, and the class `Kernel.Kernel` is the code of kernel.c, every method proved to compute
the function of `Sched` that specifies it.

**Objects.** Semaphore, FIFO, message queue, mutex, flags and memory slab each have a `World`
(the kernel state, the object's fields and a history), operations that include any step of
the rest of the system (`Other`), an invariant `Sound`, a theorem over every run, and a class
that calls `Kernel.Kernel` and is proved to compute the operations. A call that blocks is
modelled up to the switch. A thread that a giver wakes is on its way until it runs, and then its
call returns (`Resume`), before anything else can happen. A thread may be aborted on its way; it
keeps what it was given, and its call returns when it is started again and runs. What a call does
(`Effect`) and the history are separate: the history is kept from what is called and what the call
answers, and says of everything handed over whether its call has returned or is on its way.

**Timers.** A handler may start and stop timers, also its own, and returns a code. `TimerPasses` is
one pass over the list of the times left, `TimerRuns` is about whole runs, the class in `Timer` is
the pointer code, and `TimerHidden` is about timers with a delay or period of K_FOREVER.

**Parameters.** The tick is a step that may happen at any time. Timeouts, the time slice and
the largest `k_delta_t` (also K_FOREVER) are parameters, and so are what timer and event handlers
do, which threads start by themselves, and F_CPU in MHz. Configuration: no polling, idle thread
present, at most 256 threads.

**Integer widths.** Arithmetic on deltas wraps in the code of the queues, and the wrap is
proved never to happen. Byte counters, the lock count, the counts of notified and cancelled threads
(`int8_t`) and the 32-bit cycle product wrap in the model.

## Where a property needs a condition

- *Stale and null wait-queue nodes.* A tick unlinks the wait-queue node of each thread it wakes,
  also of one that only slept. The node of a thread that never waited holds null pointers, and
  only a handoff or a cancel re-initialises it; after a timeout or a flags notification it still
  names its old neighbours. `KernelRep.UnlinkExact` is the test on pointers that holds if and only
  if unlinking a node leaves every wait queue and every harmless node as it is and stores nothing
  through null, and `Kernel.Kernel.ExpireNext` applies it to the tick. `StaleTie.NullNode` is a run
  of kernel calls whose tick stores through null, and `StaleTie.WaiterLost` one whose tick drops a
  waiting thread from its queue. The test is exact and belongs to the tick; what a caller can know
  before it sleeps is whether its node is harmless, and that is sufficient. The invariant asks it
  of every thread that a tick will wake from no queue (`SchedInv.SleepKeeps`), and so do the runs.
- *Abort.* `k_thread_abort` leaves a thread that waits on an object in the object's wait queue,
  and leaves the cursor astray when it stops a READY thread at the cursor that is not running.
  `Abort.AbortExact` gives the condition, in both directions, under which the invariant survives.
- *Mutex.* `Mutex.StepExact` and `Mutex.ExclusionExact` give, in both directions, what callers have
  to keep to. A call outside that breaks the following, from every sound state in which it can be made.
  - Locking in the gap between an unlock and the moment the woken waiter runs: two threads are
    inside once the waiter runs (`Mutex.HandoffGap`; `MutexGap.TwoInside` is a run from start-up).
  - Unlocking in that gap: the lock is given twice, or is free although it was given (`Mutex.UnlockGap`).
  - Relocking without reentrancy: at first only the count differs from the locks to undo; after
    one unlock the thread is inside and the lock is free or given away (`Mutex.RelockGap`,
    `Mutex.RelockGapWaiting`).
  - Locking for the 256th time: the count wraps to 0, so the lock is free (`Mutex.CountGap`).
- *Timers and K_FOREVER.* A queued timer carries the mark of a stopped one if and only if K_FOREVER
  is left to it and nothing to the timers before it (`Timer.MarkExact`). `k_timer_started` is then
  wrong, `k_timer_stop` does nothing, and `k_timer_start` with a finite delay links the timer again
  (`TimerHidden.StartHidden`). `TimerHidden.HiddenAtOnce` says when a timer is queued like that, and
  `TimerHidden.StoppedByTheMark` is a run of calls in which stopping one timer hides another. Runs
  include all delays and periods up to K_FOREVER; of the calls on hidden timers they leave out only
  that one of `k_timer_start`.
- *Linking an item twice.* Scheduling an item that is in the queue already always leaves a list
  without end (`TimeQueue.TQueue.ScheduleQueued`). Starting a hidden timer and initialising a queued
  one do that (`TimerHidden.InitQueued`), and so does a timer handler that stops its own timer,
  starts it and returns 0.
- *Empty doubly linked queue.* `tdqueue_pop` reads the head of an empty list as an item, and returns
  it when the word before it in memory is 0. `TdQueue.Lockstep` gives the condition, in both directions.
- *32-bit cycles.* A period whose cycle product does not fit 32 bits is misread.
  `Prescaler.ErrorBound` has the condition and `Prescaler.LongPeriodWraps` an example.

## Where the code and its documentation disagree

The model follows the code. flags.h says that `k_flags_poll` returns the bits that woke the caller
and -EAGAIN on a timeout; the code returns 0, writes the bits through `mask`, and returns -ETIMEDOUT
on a timeout and -EAGAIN for K_NO_WAIT. mutex.h does not mention the -EAGAIN that `k_mutex_lock`
returns for K_NO_WAIT on a locked mutex. The comments at `z_suspend` say that the next thread of the
run queue is executed when the running one suspends itself; the code runs the one before it, which is
the one that ran last (`RunOrder.BlockHandsOver`). The `int8_t` result of `k_flags_notify` is documented as a
count, and it is negative from 128 notified threads on.

## Model

| member | source | states |
|---|---|---|
| `Links.Memory.Init` | src/avrtos/dstruct/dlist.c:9-13 | the node is a circle of its own; no other node changes |
| `Links.Memory.Append` | src/avrtos/dstruct/dlist.c:15-26 | the circle gains the node at its end, next and prev stay inverse, nodes outside are untouched |
| `Links.Memory.Prepend` | src/avrtos/dstruct/dlist.c:28-39 | the circle gains the node right behind the given one, with or without a sentinel |
| `Links.Memory.Insert` | src/avrtos/dstruct/dlist.c:41-52 | the circle gains the node right before the given one |
| `Links.Memory.Remove` | src/avrtos/dstruct/dlist.c:54-61 | a linked node leaves its circle and keeps its own pointers; on any node, memory is unchanged if and only if the recorded neighbours are neighbours of each other |
| `Links.Memory.Get` | src/avrtos/dstruct/dlist.c:63-70 | takes the first node; on an empty list a no-op that returns the list itself |
| `Links.Memory.Count` | src/avrtos/dstruct/dlist.c:77-86 | the length of the circle, modulo 256 |
| `Links.RingFramed` | src/avrtos/dstruct/dlist.c:9-86 | disjoint lists are not affected by each other's operations |
| `Links.RingAfterUnlink` | src/avrtos/dstruct/dlist.c:54-61 | a circle survives the removal of any node if and only if the neighbours recorded in the node, where they are in the circle, still have each other for neighbours |
| `DeltaQueue.InsertMeans` | src/avrtos/dstruct/tqueue.c:21-46 | scheduling on deltas is sorted insertion by time left |
| `DeltaQueue.InsertDueSplits` | src/avrtos/dstruct/tqueue.c:29-31 | the insertion is stable: behind all items that expire no later, before all others |
| `DeltaQueue.InsertDueTimes` | src/avrtos/dstruct/tqueue.c:21-46 | every other item keeps its time left |
| `DeltaQueue.ShiftMeans` | src/avrtos/dstruct/tqueue.c:60-79 | when t passes, every time left d becomes max(0, d - t) |
| `DeltaQueue.DeleteMeans` | src/avrtos/dstruct/tqueue.c:115-139 | removal takes out one item and leaves the time left to all others |
| `DeltaQueue.ForgetTimes` | src/avrtos/dstruct/tqueue.c:115-139 | the map from items to times loses exactly the removed item |
| `DeltaQueue.DuesSorted` | src/avrtos/dstruct/tqueue.c:11-19 | the times left are in order and the last is the sum of all deltas |
| `TimeQueue.TQueue.Schedule` | src/avrtos/dstruct/tqueue.c:21-58 | the pointer code performs the delta insertion, without wrap, touching only the queue |
| `TimeQueue.TQueue.ScheduleQueued` | src/avrtos/dstruct/tqueue.c:21-58 | scheduling an item that is queued already, at any place and with any timeout, leaves a list that has no end |
| `TimeQueue.TQueue.Walk` | src/avrtos/dstruct/tqueue.c:23-35 | the loop stops before the first item that expires later, with the rest of the delay in hand |
| `TimeQueue.TQueue.Elapse` | src/avrtos/dstruct/tqueue.c:60-79 | the loop performs the delta shift, without wrap |
| `TimeQueue.TQueue.Pop` | src/avrtos/dstruct/tqueue.c:81-93 | the first item if no time is left to it; otherwise nothing changes |
| `TimeQueue.TQueue.PopReschedule` | src/avrtos/dstruct/tqueue.c:95-102 | an expired item goes back in with the new timeout; otherwise nothing changes |
| `TimeQueue.TQueue.Reschedule` | src/avrtos/dstruct/tqueue.c:104-113 | a queued item moves to its new place; an absent one leaves the queue alone, with -ENOENT |
| `TimeQueue.TQueue.Remove` | src/avrtos/dstruct/tqueue.c:115-139 | a queued item leaves and its time goes to its successor, without wrap; the error codes for no item and an absent item |
| `DeadlineOrder.PoppedInOrder` | src/avrtos/dstruct/tqueue.c:21-139 | over every run the popped items come in strictly increasing (deadline, insertion order), and never before their deadline |
| `DeadlineOrder.ExpiredOnTime` | src/avrtos/dstruct/tqueue.c:60-93 | over every run something can be popped if and only if a queued item has reached its deadline |
| `DeadlineOrder.TotalNeverWraps` | src/avrtos/dstruct/tqueue.c:33-41 | over every run the sum of the deltas fits k_delta_t |
| `TdQueue.TdQueue.Schedule` | src/avrtos/dstruct/tdqueue.c:22-62 | the doubly linked code performs the same delta insertion, without wrap |
| `TdQueue.TdQueue.Elapse` | src/avrtos/dstruct/tdqueue.c:64-85 | the same delta shift |
| `TdQueue.TdQueue.Pop` | src/avrtos/dstruct/tdqueue.c:87-99 | the first item if expired, else nothing; on an empty queue the list head itself if the word before it in memory is 0 |
| `TdQueue.TdQueue.PopReschedule` | src/avrtos/dstruct/tdqueue.c:101-108 | an expired item goes back in with the new timeout; on an empty queue that may be the list head, whose neighbouring word then receives the timeout |
| `TdQueue.TdQueue.Remove` | src/avrtos/dstruct/tdqueue.c:110-126 | the same delta removal, for an item of the queue |
| `TdQueue.Lockstep` | src/avrtos/dstruct/tdqueue.c:22-126 | any sequence of insertions, removals, shifts and pops leaves both kinds of queue with the same items and deltas; the same items pop in the same order if and only if no pop finds the queue empty and the word before the list head 0 |
| `Sched.BootInv` | src/avrtos/kernel.c:297-331 | the kernel starts, with any auto-started threads, in a state that satisfies the invariant, no wait-queue node being harmless yet |
| `SchedInv.WokenKeeps` | src/avrtos/kernel.c:596-607 | making a waiting thread READY keeps ring, timeout queue, wait queues and flags consistent |
| `SchedInv.PendOnKeeps` | src/avrtos/kernel.c:541-585 | blocking the running thread keeps the invariant |
| `SchedInv.SchedulerKeeps` | src/avrtos/kernel.c:415-448 | switching keeps the invariant |
| `SchedInv.SleepKeeps` | src/avrtos/kernel.c:923-931 | going to sleep keeps everything but the harmless-node clause of the invariant, and that clause if and only if the sleep is for ever or the node is harmless |
| `SchedInv.DrainKeeps` | src/avrtos/kernel.c:366-389 | expiring every due thread keeps the invariant |
| `SchedInv.CancelAllKeeps` | src/avrtos/kernel.c:694-708 | cancelling every waiter keeps the invariant |
| `SchedRuns.RunInv` | src/avrtos/kernel.c:232-708 | in every state of every run: READY threads are exactly the ring, each once; threads with a scheduled wake-up are exactly the timeout queue; a thread is in the one wait queue it waits on; a READY running thread stands at the cursor, which is idle if and only if the ring is empty |
| `SchedRuns.OneRole` | src/avrtos/types.h:107-113 | over every run no tie is in the run ring and in the timeout queue at once |
| `SchedRuns.RoundRobin` | src/avrtos/kernel.c:428-437 | when READY threads only yield, the k-th yield runs the k-th thread of the ring and a full round restores it |
| `RunOrder.WokenInFront` | src/avrtos/kernel.c:244-258 | after any step that wakes threads the caller runs on, the woken threads stand right behind it, the last one first, and the others keep their order |
| `RunOrder.WokenRunFirst` | src/avrtos/kernel.c:249-255 | for every wake-up, tick, cancel and abort while a READY thread runs: the k-th yield after it runs the k-th last thread woken, and after those the threads that were READY already, in their order |
| `RunOrder.WokenFromIdle` | src/avrtos/kernel.c:244-247 | out of idling, the thread woken first runs next and the others follow it, the last one first |
| `RunOrder.BlockHandsOver` | src/avrtos/kernel.c:498-513 | a thread that blocks or sleeps hands over to the thread before it in the ring, or to the idle thread, and the others keep their order |
| `RunOrder.StopHandsOver` | src/avrtos/kernel.c:793-826 | a thread that stops itself hands over to the thread before it, else to the first thread that joined it, else to the idle thread |
| `RunOrder.JoinersReleased` | src/avrtos/kernel.c:808-813 | every thread that joined an aborted thread is READY, off its queue, and returns 0 |
| `Abort.AbortKeeps` | src/avrtos/kernel.c:793-826 | aborting an abortable thread keeps the invariant |
| `Abort.AbortExact` | src/avrtos/kernel.c:478-517 | aborting leaves a consistent kernel with the thread stopped if and only if it waits on no object and is not, while another thread runs, the READY thread at the cursor of a ring that has others |
| `Waits.WaitHasOneCause` | src/avrtos/kernel.c:556-585 | over every run a blocked thread is woken by exactly one step before it runs again, and the code its wait returns names that cause: timeout, cancel or handoff |
| `Waits.ExpiresAtItsTick` | src/avrtos/kernel.c:359-389 | over every run a wait of t that nobody else ends is ended by exactly the ceil(t / slice)-th tick (at least the first), whatever other threads do |
| `Waits.BystanderStep` | src/avrtos/kernel.c:232-708 | nothing another thread does changes the flags or data of a READY thread, or of a stopped one that is not started |
| `Waits.AbortedThread` | src/avrtos/kernel.c:793-826 | an aborted thread keeps its flags and data: it is stopped, without a timeout, and goes on where it was when it is started |
| `WaitQueues.QueueThins` | src/avrtos/kernel.c:348-389 | steps that do not name a wait queue only take timed-out waiters out of it, in place |
| `WaitQueues.BlockOn` | src/avrtos/kernel.c:556-572 | the running thread joins the queue at its end |
| `WaitQueues.HandoffOn` | src/avrtos/kernel.c:609-680 | the first waiter and no other leaves the queue, READY, with its data |
| `WaitQueues.CancelOn` | src/avrtos/kernel.c:694-708 | every waiter leaves the queue, woken by the cancel, with -ECANCELED to return |
| `Kernel.Kernel.constructor` | src/avrtos/kernel.c:297-331 | the pointers represent the start state, with null wait-queue nodes |
| `Kernel.Kernel.LinkAll` | src/avrtos/kernel.c:310-329 | the loop links the auto-started threads behind the main thread, in order, and counts them |
| `Kernel.Kernel.Schedule` | src/avrtos/kernel.c:232-259 | the thread is linked behind the cursor, the ready count is the length of the ring |
| `Kernel.Kernel.Elapse` | src/avrtos/kernel.c:359 | a slice passes for every timeout |
| `Kernel.Kernel.ExpireNext` | src/avrtos/kernel.c:366-389 | one round of the loop: the first due thread becomes READY, and memory represents the new state if and only if the thread waits or its node passes the test of `KernelRep.UnlinkExact` |
| `Kernel.Kernel.SchedEnter` | src/avrtos/kernel.c:348-389 | a tick: time passes for every timeout and all expired threads become READY in order; the invariant is kept |
| `KernelRep.UnlinkExact` | src/avrtos/kernel.c:375-386 | `dlist_remove` of a thread's wait-queue node keeps every wait queue and harmless node, and avoids null, if and only if both recorded neighbours exist and, where in use, still have each other for neighbours |
| `Kernel.Kernel.Scheduler` | src/avrtos/kernel.c:415-448 | the ring turns for a READY thread, the flags of the last wait are cleared, the cursor runs |
| `Kernel.Kernel.CancelScheduledWakeUp` | src/avrtos/kernel.c:457-464 | the thread leaves the timeout queue if it is in it |
| `Kernel.Kernel.Suspend` | src/avrtos/kernel.c:478-517 | any READY thread leaves the ring, the cursor going back when it is the running one; a PENDING one loses its timeout only |
| `Kernel.Kernel.ScheduleWakeUp` | src/avrtos/kernel.c:528-539 | a finite timeout is queued, K_FOREVER is not |
| `Kernel.Kernel.PendCurrent` | src/avrtos/kernel.c:541-554 | the running thread blocks and another runs |
| `Kernel.Kernel.PendCurrentOn` | src/avrtos/kernel.c:556-572 | -EAGAIN for K_NO_WAIT; otherwise the thread waits in the queue; the invariant is kept |
| `Kernel.Kernel.WaitResult` | src/avrtos/kernel.c:574-584 | the code the wait returns |
| `Kernel.Kernel.WakeUp` | src/avrtos/kernel.c:596-607 | the thread leaves the timeout queue and enters the ring |
| `Kernel.Kernel.UnpendFirst` | src/avrtos/kernel.c:609-667 | the first waiter is woken and returned, NULL when there is none |
| `Kernel.Kernel.UnpendFirstAndSwap` | src/avrtos/kernel.c:669-680 | the same, with its swap_data set |
| `Kernel.Kernel.CancelFirstPending` | src/avrtos/kernel.c:682-692 | the first waiter is woken, marked cancelled |
| `Kernel.Kernel.CancelAllPending` | src/avrtos/kernel.c:694-708 | all waiters are woken, marked cancelled, and counted modulo 256 |
| `Kernel.Kernel.ThreadStart` | src/avrtos/kernel.c:779-791 | a stopped thread becomes READY; -EAGAIN and no change otherwise |
| `Kernel.Kernel.ThreadAbort` | src/avrtos/kernel.c:793-826 | the thread stops and its joiners are woken, and the invariant survives if and only if it was abortable; -EINVAL and no change when it is stopped |
| `Kernel.Kernel.Sleep` | src/avrtos/kernel.c:923-931 | any READY caller blocks on no queue, and ring, timeouts, wait queues and flags stay consistent; the invariant survives if and only if the sleep is for ever or the node is harmless |
| `Kernel.Kernel.NotifyWaiter` | src/avrtos/flags.c:129-134 | any waiter is unlinked with new data and woken; its own node keeps its pointers |
| `StaleTie.NullNode` | src/avrtos/kernel.c:386 | a run of kernel calls: a thread that never waited sleeps, and the tick that wakes it stores through a null pointer |
| `StaleTie.WaiterLost` | src/avrtos/kernel.c:380-386 | a run of kernel calls: a thread times out on a queue, another waits there, the first sleeps, and the tick that wakes it empties the queue in memory |
| `Handoffs.StaysOnItsWay` | src/avrtos/kernel.c:596-826 | until a woken waiter runs, nobody changes its result or its data, also not by aborting and starting it |
| `Handoffs.HandedOver` | src/avrtos/kernel.c:609-680 | a handoff puts exactly the first waiter on its way, with result 0, and the running thread goes on |
| `Semaphore.CallKeepsUnits` | src/avrtos/semaphore.c:30-92 | every call accounts for all units also before the thread it switches to returns from its own call |
| `Semaphore.StepKeepsUnits` | src/avrtos/semaphore.c:30-92 | every call and every step of the rest of the system accounts for all units |
| `Semaphore.UnitsConserved` | src/avrtos/semaphore.c:30-92 | over every run, aborts and restarts included: initial count plus the gives that found a waiter or room is the count plus the takes that answered 0 and the units on their way; the count is within the limit, threads wait only at zero, and every thread on its way will return 0 |
| `Semaphore.NeverOverdrawn` | src/avrtos/semaphore.c:30-78 | over every run no more takes return 0, or are about to, than there were units at first plus calls of give |
| `Semaphore.TakeExact` | src/avrtos/semaphore.c:38-44 | a take that answers 0 lowers the count by one, one that answers -EAGAIN changes nothing, one that waits queues the caller up, last |
| `Semaphore.GiveExact` | src/avrtos/semaphore.c:55-78 | a give puts the first waiter on its way, or raises the count up to the limit |
| `Semaphore.Init` | src/avrtos/semaphore.c:18-28 | -EINVAL for a limit of zero; otherwise the initial count, cut to the limit |
| `Semaphore.Semaphore.Take` | src/avrtos/semaphore.c:30-53 | takes a unit and answers 0, answers -EAGAIN, or waits at the end of the queue |
| `Semaphore.Semaphore.Resume` | src/avrtos/semaphore.c:43-52 | the thread a unit was handed to returns 0 when it runs again |
| `Semaphore.Semaphore.Give` | src/avrtos/semaphore.c:55-78 | the first waiter gets the unit, else the count grows up to the limit |
| `Semaphore.Semaphore.CancelWait` | src/avrtos/semaphore.c:80-92 | nobody waits any more, every waiter will return -ECANCELED, and they are counted, as an int8_t |
| `SList.SList.Append` | src/avrtos/dstruct/slist.c:15-28 | the node becomes the last of the list |
| `SList.SList.Get` | src/avrtos/dstruct/slist.c:30-41 | the first node leaves the list, NULL when it is empty |
| `Fifo.CallKeepsOrder` | src/avrtos/fifo.c:27-92 | every call keeps the order of items also before the thread it switches to returns |
| `Fifo.StepKeepsOrder` | src/avrtos/fifo.c:27-92 | every call and every other step keeps the order of items |
| `Fifo.ItemsInOrder` | src/avrtos/fifo.c:27-92 | over every run the items that left (returned, or on their way in the swap_data of a thread that will return 0) followed by the queued ones are the items put, in order, and threads wait only when nothing is queued |
| `Fifo.HandoffDelivers` | src/avrtos/fifo.c:69-77 | over every run, when a thread that an item was handed to runs again, also after an abort and a restart, its wait returned 0, its swap_data is that item, and the item is then on record as returned |
| `Fifo.Fifo.Put` | src/avrtos/fifo.c:27-59 | the item goes to the first waiter, which is returned and on its way with it, or to the end of the queue |
| `Fifo.Fifo.Get` | src/avrtos/fifo.c:61-78 | the first item, which leaves the queue and is on record as returned, or NULL at once, or a wait at the end of the queue |
| `Fifo.Fifo.CancelWait` | src/avrtos/fifo.c:80-92 | nobody waits any more, every waiter will find -ECANCELED, and they are counted, as an int8_t |
| `Fifo.Fifo.Resume` | src/avrtos/fifo.c:70-77 | the thread an item was handed to returns that item |
| `MsgQueue.CallKeepsOrder` | src/avrtos/msgq.c:40-164 | every call keeps messages in order and waiters of one kind also before the thread it switches to returns |
| `MsgQueue.StepKeepsOrder` | src/avrtos/msgq.c:40-164 | every call and every other step keeps messages in order and waiters of one kind |
| `MsgQueue.MessagesInOrder` | src/avrtos/msgq.c:40-164 | over every run: the messages of the puts that answered 0 and of the waiting puts that a get let in, less the purged, are the messages that left (answered by a get, or on their way) followed by the buffered ones, in order; waiters are producers of a full buffer, each with the message it put, or consumers of an empty one |
| `MsgQueue.WaitersReturn` | src/avrtos/msgq.c:81-141 | over every run, when a consumer that a message was handed to runs again, also after an abort and a restart, it returns 0 with that message, and a producer whose message was taken in returns 0 |
| `MsgQueue.OneKindWaits` | src/avrtos/msgq.c:21-24 | producers and consumers never wait together |
| `MsgQueue.ProducerAdmitted` | src/avrtos/msgq.c:108-117 | a get from a full queue takes in exactly the message the first waiting producer put, behind the buffered ones, and that put succeeds |
| `MsgQueue.ConsumerServed` | src/avrtos/msgq.c:51-57 | a put that finds a consumer reaches it, and that get succeeds |
| `MsgQueue.WindowPut` | src/avrtos/msgq.c:62-67 | writing at the cursor appends to the ring buffer's contents, also across its end |
| `MsgQueue.WindowGet` | src/avrtos/msgq.c:102-106 | advancing the read cursor drops the first message, also across the end |
| `MsgQueue.Init` | src/avrtos/msgq.c:18-38 | -EINVAL for a capacity of zero; otherwise an empty queue |
| `MsgQueue.MsgQueue.Put` | src/avrtos/msgq.c:40-88 | if and only if it answers 0 the message is taken in, and then it is with a consumer or last in the buffer; -ENOMEM, or a wait at the end of the queue; the write cursor is the read cursor plus the messages used, modulo the capacity |
| `MsgQueue.MsgQueue.Refill` | src/avrtos/msgq.c:108-122 | the place freed by a get goes to the first waiting producer's message, or the count drops |
| `MsgQueue.MsgQueue.Get` | src/avrtos/msgq.c:90-142 | if and only if it answers 0 the oldest message is returned and leaves; -ENOMSG, or a wait at the end of the queue |
| `MsgQueue.MsgQueue.Resume` | src/avrtos/msgq.c:82-141 | the woken producer or consumer returns 0, the consumer with the message handed to it |
| `MsgQueue.MsgQueue.Purge` | src/avrtos/msgq.c:144-164 | the buffer is empty, nobody waits, every waiter will return -ECANCELED; their number as an int8_t |
| `MsgQueue.MsgQueue.Peek` | src/avrtos/msgq.c:166-186 | the oldest message, left in place, or -ENOMSG |
| `Mutex.StepExact` | src/avrtos/mutex.c:29-112 | a step keeps the mutex sound (one user at most, the fields agree with it, the count is its locks to undo) if and only if the caller is not taken for the owner outside the lock, relocks only with reentrancy, and not at a count of 255 |
| `Mutex.ExclusionExact` | src/avrtos/mutex.c:29-112 | a run is sound in that sense throughout if and only if every call in it keeps to that |
| `Mutex.MutualExclusion` | src/avrtos/mutex.c:29-98 | in such a run at most one thread is inside or has been given the lock, the lock is nonzero if and only if there is one, and it counts the locks of the thread inside |
| `Mutex.HandoffGap` | src/avrtos/mutex.c:82-92 | from every sound state with a waiter, unlocking and locking again succeeds, and two threads are inside once the waiter runs |
| `Mutex.UnlockGap` | src/avrtos/mutex.c:82-97 | from every sound state in the gap, the old owner's unlock gives the lock to a second thread, or frees it although it was given |
| `Mutex.RelockGap` | src/avrtos/mutex.c:40-97 | without reentrancy, from every sound state with a holder and no waiter: lock, unlock, and the next thread that locks is inside beside the holder, which has one lock still to undo |
| `Mutex.RelockGapWaiting` | src/avrtos/mutex.c:40-97 | the same with a waiter, which is given the lock while the holder is inside |
| `Mutex.CountGap` | src/avrtos/mutex.c:37-45 | with reentrancy, from every sound state at a count of 255: one more lock leaves the lock free, and the next thread that locks is inside beside the holder |
| `MutexGap.TwoInside` | src/avrtos/mutex.c:37-92 | an allowed run from start-up that ends with two threads inside |
| `Mutex.Mutex.Lock` | src/avrtos/mutex.c:29-48 | a lock that answers 0 makes the caller the owner; it counts or ignores a relock, returns -EAGAIN, or waits at the end of the queue |
| `Mutex.Mutex.Resume` | src/avrtos/mutex.c:51-60 | the woken waiter becomes the owner with result 0, and exclusion holds |
| `Mutex.Mutex.Unlock` | src/avrtos/mutex.c:62-98 | undoes one lock, hands over to the first waiter, or frees; no effect for others |
| `Mutex.Mutex.CancelWait` | src/avrtos/mutex.c:100-112 | nobody waits any more, every waiter will return -ECANCELED, and they are counted, as an int8_t |
| `FlagBits.RequestKept` | src/avrtos/flags.c:17-35 | mask and options survive their packing into swap_data |
| `Flags.LeftoverExact` | src/avrtos/flags.c:112-144 | the bits stored by a notification are exactly the new ones that no consuming waiter asked for |
| `Flags.WaiterServed` | src/avrtos/flags.c:112-144 | every waiter leaves with exactly the bits it asked for that no consumer before it took, or stays untouched when there are none |
| `Flags.ConsumedOnce` | src/avrtos/flags.c:136-138 | nobody behind a consuming waiter is offered a bit of that waiter's mask |
| `Flags.NotifyExact` | src/avrtos/flags.c:100-153 | the outcomes of a notification together: bits left over, number woken, what each waiter gets |
| `Flags.NotifyStores` | src/avrtos/flags.c:112-144 | the flags set after a notification are those before and the new ones that no consuming waiter asked for |
| `Flags.NotifySwitches` | src/avrtos/flags.c:146-148 | with K_FLAGS_SCHED a notification that served 1 to 127 waiters switches to the one it served last; without it, or with nobody served, the caller runs on |
| `Flags.PollExact` | src/avrtos/flags.c:66-92 | a consuming poll that answers 0 clears the bits of its mask and no others; any other poll leaves the flags alone |
| `Flags.PollQueues` | src/avrtos/flags.c:71-80 | a poll that waits stands last in the queue, with its mask and options |
| `Flags.ConsumedUntilRaised` | src/avrtos/flags.c:86-138 | over every run, bits that a consuming poll returned or a consuming waiter was notified of are not set, and no poll returns one of them at once, until a notification or a reset raises one of them |
| `Flags.CallKeepsMasks` | src/avrtos/flags.c:49-168 | every call leaves no waiter with a set bit in its mask, and every notified waiter on its way to exactly its bits, also before the thread it switches to returns |
| `Flags.StepKeepsMasks` | src/avrtos/flags.c:49-168 | the same over every call and every other step |
| `Flags.NoMissedFlag` | src/avrtos/flags.c:49-168 | over every run no thread waits for a bit that is set, and every notified waiter will return 0 with its bits |
| `Flags.PollReturns` | src/avrtos/flags.c:80-84 | over every run, when a notified waiter runs again its poll returns 0 with exactly the bits that reached it: those it asked for that no consumer before it took |
| `Flags.FlagSet.Poll` | src/avrtos/flags.c:49-98 | with 0 it returns the set bits of the mask, and clears exactly the mask on request; -ENOTSUP, -EAGAIN, or a wait at the end of the queue otherwise, with the flags unchanged |
| `Flags.FlagSet.Resume` | src/avrtos/flags.c:80-84 | the notified waiter returns 0 with the bits it was given |
| `Flags.FlagSet.Distribute` | src/avrtos/flags.c:112-144 | the pointer loop over the wait queue performs the distribution |
| `Flags.FlagSet.Notify` | src/avrtos/flags.c:100-153 | the distribution, the count as an int8_t, and the optional yield |
| `Flags.FlagSet.Reset` | src/avrtos/flags.c:155-168 | the initial value is restored, nobody waits, every waiter will return -ECANCELED; their number as an int8_t |
| `Slab.Slab.FinalizeInit` | src/avrtos/alloc/slab.c:23-36 | every block is in the free list exactly once |
| `Slab.Slab.Alloc` | src/avrtos/alloc/slab.c:58-78 | the first free block leaves the list, NULL when there is none |
| `Slab.Slab.Free` | src/avrtos/alloc/slab.c:80-88 | the block becomes the first free one |
| `Slab.Slab.Available` | src/avrtos/alloc/slab.c:98-103 | -ENOMEM if and only if no block is free |
| `Slab.Slab.FreeCount` | src/avrtos/alloc/slab.c:105-116 | the reported number of free blocks is the length of the free list, at most the number of blocks |
| `MemSlab.CallKeepsPartition` | src/avrtos/mem_slab.c:51-108 | every call keeps each block in one place also before the thread it switches to returns |
| `MemSlab.StepKeepsPartition` | src/avrtos/mem_slab.c:51-108 | every call and every other step keeps each block in one place |
| `MemSlab.BlocksConserved` | src/avrtos/mem_slab.c:51-108 | over every run the free blocks (each once) and the blocks that allocs answered with or frees passed on are disjoint and together all blocks, and threads wait only when none is free |
| `MemSlab.FreedBetween` | src/avrtos/mem_slab.c:51-108 | over every run, between two allocs that return the same block, at once or after a wait, there is a free of it |
| `MemSlab.FreeServes` | src/avrtos/mem_slab.c:96-97 | a free that finds a waiter puts the first one on its way with the block |
| `MemSlab.HandoffDelivers` | src/avrtos/mem_slab.c:68-79 | over every run, when a thread that a block was handed to runs again, also after an abort and a restart, its call returns 0 with that block, which it then holds |
| `MemSlab.MemSlab.Alloc` | src/avrtos/mem_slab.c:51-80 | with 0 it returns a block that was free and held by nobody, and is now held by the caller and not free; -ENOMEM, or a wait at the end of the queue |
| `MemSlab.MemSlab.Resume` | src/avrtos/mem_slab.c:70-79 | the thread a block was handed to returns 0 with that block |
| `MemSlab.MemSlab.Free` | src/avrtos/mem_slab.c:82-108 | the block goes to the first waiter or back to the free list; NULL is ignored |
| `TimerPasses.FireKeeps` | src/avrtos/timer.c:60-86 | a pass ends with nothing due and the timers still in order, although handlers start and stop timers |
| `TimerPasses.FireExact` | src/avrtos/timer.c:60-86 | in a pass a timer fires only if due, and if no other handler stops it: if due it fires, it is re-armed when its own handler returns 0 without stopping it, it is out of the queue when that handler does otherwise and no other starts it, and if not due it keeps its time |
| `TimerPasses.FiredOnce` | src/avrtos/timer.c:67-85 | no timer fires twice in a pass |
| `TimerRuns.RunSound` | src/avrtos/timer.c:44-158 | over every run the queued timers are sorted, each once, each with a period, and no time exceeds K_FOREVER |
| `TimerRuns.FiresWhen` | src/avrtos/timer.c:67-85 | counting down and re-arming hits exactly the passes max(1, ceil(delay/slice)) and then every ceil(period/slice) |
| `TimerRuns.FiresOnSchedule` | src/avrtos/timer.c:44-158 | over every run a timer that nobody stops fires in exactly those passes from its time left on, whatever happens to other timers, for every period up to K_FOREVER |
| `TimerRuns.FiresAsAsked` | src/avrtos/timer.c:44-158 | over every run a timer started with delay d, by an initialisation, a start from outside or a start in a handler, and left to run, fires in exactly the passes that d and its period ask for |
| `TimerRuns.PeriodAsAsked` | src/avrtos/timer.c:99-100 | over every run a timer has the period of its last initialisation |
| `TimerRuns.SilentAfterStop` | src/avrtos/timer.c:125-142 | over every run a timer that is stopped while not hidden does not fire until it is started or initialised again |
| `Timer.MarkExact` | src/avrtos/timer.c:111-123 | in every queue, a queued timer carries the stopped mark if and only if K_FOREVER is left to it and nothing to the timers before it |
| `Timer.TimerModule.MarkMeans` | src/avrtos/timer.c:111-142 | in every state of the module, also while a handler runs, a timer carries the mark if and only if it is not queued or is queued and hidden as above |
| `Timer.TimerModule.Started` | src/avrtos/timer.c:111-123 | true if and only if the timer is in the queue and not hidden |
| `Timer.TimerModule.Init` | src/avrtos/timer.c:88-109 | -EINVAL for a zero period; a stopped timer for a period of K_FOREVER; otherwise a queued one, with any delay |
| `Timer.TimerModule.Invoke` | src/avrtos/timer.c:125-158 | start: no effect on a timer that is not marked, -EINVAL for K_FOREVER, otherwise queued with the delay; stop: out of the queue and marked unless marked already; from outside or from a handler |
| `Timer.TimerModule.Execute` | src/avrtos/timer.c:70 | the calls of a handler, made while its own timer is popped; a stop of its own timer sets the mark |
| `Timer.TimerModule.FireNext` | src/avrtos/timer.c:67-85 | one round of the loop: the handler's calls take effect, then the timer is re-armed or marked |
| `Timer.TimerModule.Process` | src/avrtos/timer.c:60-86 | the pass as specified, with the timers that fired in order |
| `TimerHidden.HiddenAtOnce` | src/avrtos/timer.c:79-83 | a timer queued with K_FOREVER, as delay or period, is hidden from the start if and only if nothing is left to any other timer |
| `TimerHidden.StoppedByTheMark` | src/avrtos/timer.c:60-158 | a run of calls: a timer of period K_FOREVER is started and fires, another timer is stopped, and the first is queued while `k_timer_started` says that it is not |
| `TimerHidden.StartHidden` | src/avrtos/timer.c:144-158 | `k_timer_start` with a finite delay of any hidden timer leaves a list of timers that has no end |
| `TimerHidden.InitQueued` | src/avrtos/timer.c:88-109 | `k_timer_init` of any queued timer leaves, with a finite period, a list that has no end, and with K_FOREVER the mark in place of the timer's delta |
| `Events.HandledExact` | src/avrtos/event.c:161-180 | in a pass an event is handled at most once, only if due, and certainly if due and neither cancelled nor moved by a handler |
| `Events.HandleAllKeeps` | src/avrtos/event.c:161-180 | a pass ends with nothing due, although handlers schedule and cancel events |
| `Events.EventsConserved` | src/avrtos/event.c:73-180 | over every run, for every event: the delayed schedules answered with 0 are the handler calls plus the cancels answered with 0 plus one if pending, reschedules changing nothing; it is pending if and only if it is in the queue |
| `Events.HandledOnTime` | src/avrtos/event.c:161-180 | over every run an event that nobody cancels or moves is handled by exactly the pass its time left asks for |
| `Events.HandledAsAsked` | src/avrtos/event.c:73-180 | over every run an event that a schedule or reschedule asks to be handled after t, called from outside, from a handler run at once or from a handler in a pass, and that nobody cancels or moves afterwards, is handled by exactly the ceil(t / slice)-th pass |
| `Events.EventQueue.Invoke` | src/avrtos/event.c:73-151 | schedules an idle event, moves or cancels a pending one, -EAGAIN otherwise |
| `Events.EventQueue.ScheduleNow` | src/avrtos/event.c:118-123 | K_NO_WAIT runs the handler of an idle event at once |
| `Events.EventQueue.Pending` | src/avrtos/event.c:153-159 | true if and only if the event is in the queue |
| `Events.EventQueue.Process` | src/avrtos/event.c:161-180 | the pass as specified |
| `Crc7.Divides` | src/avrtos/subsystems/crc.c:27-42 | the message times x^7 is quotient times x^7+x^3+1 plus the register, for every length |
| `Crc7.OneRemainder` | src/avrtos/subsystems/crc.c:25-42 | a polynomial has only one quotient and remainder by that divisor |
| `Crc7.RemainderExact` | src/avrtos/subsystems/crc.c:25-42 | a pair divides the message if and only if it is the quotient and the register |
| `Crc7.RegisterXor` | src/avrtos/subsystems/crc.c:27-42 | the CRC of a sum of messages is the sum of their CRCs |
| `Crc7.CheckExact` | src/avrtos/devices/sd.c:57-67 | a message followed by seven bits is divisible if and only if those bits are its CRC |
| `Crc7.BurstDetected` | src/avrtos/devices/sd.c:57-67 | any error within seven consecutive bits of message and CRC, at any position, is detected |
| `Crc7.Compute` | src/avrtos/subsystems/crc.c:27-42 | the byte-wise code returns the register after all message bits, highest first |
| `Prescaler.Calculate` | src/avrtos/drivers/timer.c:249-273 | the first prescaler of the table whose counter fits, with that counter; it fails if and only if there are no cycles or too many for 1024 |
| `Prescaler.SomeFits` | src/avrtos/drivers/timer.c:209-247 | the ranges of neighbouring prescalers leave no gap, in both tables |
| `Prescaler.MaxPeriodReached` | src/avrtos/drivers/timer.c:406-415 | every nonzero period up to the reported maximum is reached, without wrap |
| `Prescaler.ErrorBound` | src/avrtos/drivers/timer.h:175-176 | the chosen counter is less than one prescaled tick short of the period if and only if the cycle product fits 32 bits |
| `Prescaler.LongPeriodWraps` | src/avrtos/drivers/timer.h:175-176 | a period of 268 seconds at 16 MHz is taken for one microsecond |

## Left out

- `k_poll` and the build with CONFIG_POLLING: a second ready object can wake a poller that is already READY.
- src/avrtos/ring.c: its fullness test is right only while the write index is not below the read index.
- Workqueues: whether a work item is queued is read off a NULL next pointer, which the last queued item has too.
- Condition variables, signals, the scheduler lock, `k_thread_join` and priorities: thin uses of the wait queues whose steps are those of the objects here.
- The bump allocator and crc8: a single counter, and a second polynomial beside the one here.
- Drivers, serial, SD and CAN transfers, logging, the I2C state machine: hardware input and output.
- Context switch, stacks, sentinels and other assembly: a switch is modelled as a change of the running thread.
- systime: floating-point conversion of ticks.
- The Rust crates, Python scripts and examples: wrappers and demonstrations.
- Argument checks for NULL pointers: objects always exist in the model.
- Timer handlers that start their own timer after stopping it, or start one with K_NO_WAIT: the first links the timer twice, the second could keep the pass from ending.
- Event handlers that schedule with K_NO_WAIT: the nested handler could call itself without end.
- Messages are copied as one value, not byte by byte.
- Kernel.Kernel.ThreadAbort: not stated for a thread that is not abortable and has joiners, because waking the joiners then starts from an inconsistent ring; `Abort.AbortExact` says what the state machine does there.
