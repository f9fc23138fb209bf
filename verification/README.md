# SCARS kernel: a Dafny model of its scheduler, locks and queues

SCARS is a fixed-priority real-time kernel with immediate-priority-ceiling locks, in the style of the
Ravenscar profile: the protocol of section D.3 of the Ada Reference Manual (Priority Ceiling Locking)
over ready queues in the style of section D.2.3 (FIFO within priorities). This project models the parts
that have to be right for that to work and proves what they promise over whole runs.

- `Kernel` is the scheduler, the threads and the ceiling locks as one state machine. A panic or runtime
  error of the kernel is `Halt`. Priorities are their 16-bit codes; `Priority` proves that this loses
  nothing.
- `IntrusiveList` is the heap structure under every queue; `Lists` holds the sequence operations it refines.
  `RawScheduler` is the scheduler object with its ready, blocked and suspended lists on that heap, one node
  per thread. It refines `Kernel`, and node ownership matches the thread states. `RawThread` does the same
  for a thread's list of owned locks and its cached priorities.
- `KernelEffects` says what every action does, over thread states and deadlines alone;
  `KernelInvariants` and `KernelRuns` say what every action keeps; `MutualExclusion`, `Preemption`,
  `Timers`, `RoundRobin` and `CeilingCounterexamples` say what follows for runs.
- `InterruptLocks` puts nested interrupt handlers with their own locks and the controller's threshold
  register on top of `Kernel`. Listing a lock and writing the register are separate steps.
- `AtomicQueue` is the lock-free queue as interleaved atomic steps. `PendingQueues` is the two such queues
  that share one link per thread or handler. `QueueProgress` proves that an operation which runs on alone
  finishes from any state of any interleaving.
- `PreemptLock` puts the preemption lock, nested interrupt handlers and deferred requests, held in
  `PendingQueues`, around `Kernel`. `PreemptRuns` relates its steps and runs to those of `Kernel`.
- `Events`, `WaitQueue`, `Channel` and `Clock` are the layers around the scheduler.

## Hypotheses

The code does not give the strongest claims one could wish for. Where a claim needs the program to do
its part, the condition is exact: it is proved that an action keeps the property if and only if it meets
the condition, or a lemma with a concrete run shows the failure.

- Mutual exclusion needs base priorities above 0 for every thread but idle, which takes no locks; no
  lock holder blocks or suspends; and no lock holder is rescheduled to a ready thread of equal priority
  (releasing the preemption lock can cause that). `MutualExclusion.StepSafeIff` proves that exactly these
  actions keep the invariant, and `CeilingCounterexamples` gives a run for each of the others.
- Between listing a lock and writing the threshold, an interrupt at or below the lock's ceiling can still be
  taken, and its handler panics on that lock (`InterruptLocks.InterruptedListingPanics`). Apart from that window and
  from its own locks, a handler never meets a held lock (`InterruptLocks.TakeFailsIff`).
- No missed preemption needs self-suspension not to uncover a ready thread that the suspender's own locks
  kept back; suspending lock-free is enough (`Preemption.SelfSuspendPromptIff`).
- A handler's deadline is written before the preemption lock is tried, so the handler may stand in the sleep
  queue. Such a write keeps queue order and alarm exactly when the new deadline fits between the handler's
  neighbours and the alarm is no later than it (`Timers.DeadlineWriteKeepsIff`, `PreemptLock.WriteKeepsIff`).
  A write that does not fit can hide a due thread (`Timers.MovedDeadlineHidesThread`). One that fits can leave
  the alarm late even after a release of the lock (`PreemptLock.LateAlarmOutlivesRelease`).
- The lock-free queue needs pushed nodes that are neither the dummy nor still referenced by an operation
  in flight (`AtomicQueue.PushAllowedIff`). What was popped last is the dummy.
- Deferred resumes and sleeps inherit this. Deferring what is still pending halts the kernel
  (`PreemptLock.DeferHaltsIff`). Deferring what was drained last breaks the pending queues
  (`PreemptLock.DeferKeepsIff`), and the next drain can spin forever (`PreemptLock.RedeferredSpins`). The order
  and completeness of deferred resumes and sleeps are proved for runs without the latter and without deadline
  writes that break the timers. These runs are called sound.
- An event wait can get stuck exactly when it collected some awaited bits before blocking
  (`Events.StuckIffPartlyCollected`), and a timed wait reports a timeout also for a wakeup bit left by an
  earlier delay (`Events.WaitReturns`). A sender that must defer its resume fails exactly when the thread is
  still pending or was drained last (`Events.CompletingSendResumes`).
- A resume or sleep deferred between the drain of its queue and the clearing of the lock word outlives that
  release (`PreemptLock.LeftBehindIff`).

Code and intent disagree in three places, and the model follows the code. The comments speak of waiting for
any or for all of the events, but the wait blocks in both modes unless every awaited bit is there
(`Events.BlocksIff`). In an interrupt handler the recursion check compares with an owner that handlers
never set, so a recursive acquisition is caught by the lock's list node instead
(`InterruptLocks.TakeFailsIff`). Suspending a blocked thread is meant to work, but the suspended list refuses
its node, which the blocked list owns (`RawScheduler.Scheduler.SuspendThread`).

Time and the arguments of system calls are parameters. Atomics are sequentially consistent single steps,
and a context switch is an update of the current thread.

## Model

| member | source | states |
|---|---|---|
| Lists.InsertDesc | scars/src/kernel/list.rs:156-172 | inserting behind the members that satisfy a predicate keeps a queue sorted by a key that the predicate respects |
| Lists.InsertElems | scars/src/kernel/list.rs:156-172 | the insert adds exactly the new member, once |
| Lists.WithoutElems | scars/src/kernel/list.rs:174-193 | removal takes out exactly the given member |
| Lists.InsertInOrder | scars/src/kernel/list.rs:156-172 | the cursor loop stops at the first member failing the predicate |
| IntrusiveList.LinkedList.PushFront | scars/src/kernel/list.rs:54-77 | next and prev stay mutually inverse, head, tail and owners exact; the sequence gains the node in front, or the call is refused exactly when the node is owned |
| IntrusiveList.LinkedList.PushBack | scars/src/kernel/list.rs:79-102 | the same at the back |
| IntrusiveList.LinkedList.PopFront | scars/src/kernel/list.rs:104-126 | returns the first member of the sequence, unlinked and unowned, or nothing exactly on the empty list |
| IntrusiveList.LinkedList.PopFrontIf | scars/src/kernel/list.rs:128-139 | pops exactly when the first member satisfies the predicate |
| IntrusiveList.LinkedList.Remove | scars/src/kernel/list.rs:174-193 | takes out a member at any position and leaves the rest of the sequence in order; a node of another list is refused |
| IntrusiveList.LinkedList.InsertBefore | scars/src/kernel/list.rs:375-402 | inserts before the cursor, at the back when the cursor is past the end |
| IntrusiveList.LinkedList.InsertBehind | scars/src/kernel/list.rs:404-428 | inserts behind the cursor, in front when the cursor is past the end |
| IntrusiveList.LinkedList.InsertWhereFails | scars/src/kernel/list.rs:156-172 | the cursor walk over the heap refines the sequence insert `Lists.InsertAfter` |
| IntrusiveList.LinkedList.Untouched | scars/src/kernel/list.rs:239-275 | a list keeps its shape while only nodes that it does not own change |
| RawScheduler.Scheduler.InsertToReadyQueue | scars/src/kernel/scheduler.rs:131-154 | the heap insert refines `Kernel.ToReady` without disturbing the other lists, and is refused exactly when the node of a thread other than idle is owned |
| RawScheduler.Scheduler.InsertToBlockedQueue | scars/src/kernel/scheduler.rs:156-182 | the same for `Kernel.ToBlocked`, with the idle panic |
| RawScheduler.Scheduler.InsertToSuspendedList | scars/src/kernel/scheduler.rs:184-196 | the node joins the back of the suspended list, or is refused exactly when it is owned, or idle's |
| RawScheduler.Scheduler.constructor | scars/src/kernel/scheduler.rs:77-88 | a kernel whose threads are all created but idle is in order, with no node in a list |
| RawScheduler.Scheduler.OwnerMatches | scars/src/kernel/scheduler.rs:52-66 | a node is owned by the ready, blocked or suspended list iff its thread is in that state, idle excepted, and by none iff the thread is created, started, running or idle |
| RawScheduler.Scheduler.Keep | scars/src/kernel/list.rs:239-275 | an operation on one of the three lists leaves the other two intact, although all nodes are shared |
| RawScheduler.Scheduler.Take | scars/src/kernel/list.rs:174-193 | unlinks a thread from wherever it stands; refused exactly when the list does not own its node |
| RawScheduler.RemoveSleeper | scars/src/kernel/scheduler.rs:379-381 | the search loop takes out the sleeper and leaves the order |
| RawScheduler.Scheduler.BlockCurrentThread | scars/src/kernel/scheduler.rs:587-611 | fails only for idle; otherwise no list refuses a node, the thread's node ends in the blocked list, the links refine `Kernel.BlockCurrent` and the whole invariant holds again |
| RawScheduler.Scheduler.SuspendThread | scars/src/kernel/scheduler.rs:428-478 | the suspended list refuses the node iff the thread is blocked; otherwise the node ends in the suspended list, the links refine `Kernel.Suspend` and the invariant holds again |
| RawScheduler.Scheduler.ResumeThread | scars/src/kernel/scheduler.rs:365-404 | no list ever refuses; the node ends in the ready queue unless the thread runs or was not started, the links refine `Kernel.Resume` and the invariant holds again |
| RawScheduler.Scheduler.WakeSleepers | scars/src/kernel/scheduler.rs:538-559 | the wake-up loop keeps the whole invariant in every round, wakes no idle thread, meets no refusal, and refines `Kernel.WakeExpired` |
| RawScheduler.Scheduler.RunMostUrgent | scars/src/kernel/scheduler.rs:561-584 | the switch and the return of the previous thread to the ready queue are never refused and refine `Kernel.Preempt` |
| RawScheduler.Scheduler.ExecutePendingReschedule | scars/src/kernel/scheduler.rs:861-880 | no list ever refuses, the links refine `Kernel.Exec` and the invariant holds again |
| RawThread.RawThread.OwnedIff | scars/src/thread/raw_thread.rs:168-224 | a lock's node is in the thread's list iff the lock is among those the thread owns |
| RawThread.RawThread.AcquireScopedLock | scars/src/sync/ceiling_lock.rs:72-98 | refused exactly on idle, recursion, a ceiling below the active priority or an owned lock; otherwise the thread runs at exactly the ceiling and list, owners and cached priorities are exact |
| RawThread.RawThread.ReleaseScopedLock | scars/src/thread/raw_thread.rs:200-224 | releases in any order, after which the lock is free and the cached priorities are exact for those that remain; a free lock is left alone, another owner's is a fault |
| RawThread.RawThread.RaiseNestingLockPriority | scars/src/thread/raw_thread.rs:243-263 | the thread runs at the higher of its priority and the ceiling, and everything cached stays exact |
| RawThread.RawThread.SetNestingLockPriority | scars/src/thread/raw_thread.rs:265-283 | restoring what the guard saved makes everything cached exact for the outer sections and the locks still owned |
| RawThread.RawThread.EnterThenLeave | scars/src/sync/ceiling_lock.rs:160-187 | a section restores the thread object, threshold included |
| KernelInvariants.InsertReady | scars/src/kernel/scheduler.rs:142-153 | the ready queue stays sorted by active priority with lock holders first in their level |
| KernelInvariants.InsertBlocked | scars/src/kernel/scheduler.rs:167-181 | the blocked list stays sorted by lock priority with lock-free threads last |
| KernelInvariants.SleepInsert | scars/src/kernel/scheduler.rs:209-213 | the sleep queue stays in deadline order with one entry per sleeper |
| KernelInvariants.BlockInv | scars/src/kernel/scheduler.rs:406-426 | blocking, with or without a deadline, keeps the whole invariant |
| KernelInvariants.SuspendInv | scars/src/kernel/scheduler.rs:428-478 | suspending a thread in any state keeps it |
| KernelInvariants.MakeReadyInv | scars/src/kernel/scheduler.rs:370-396 | making a thread ready keeps it and changes nothing but execution states |
| KernelInvariants.ResumeInv | scars/src/kernel/scheduler.rs:365-404 | resuming any thread keeps it |
| KernelInvariants.StartInv | scars/src/kernel/scheduler.rs:958-968 | starting a created thread keeps it |
| KernelInvariants.WakeExpiredInv | scars/src/kernel/scheduler.rs:538-559 | the wake-up loop keeps it and the current thread |
| KernelInvariants.PreemptInv | scars/src/kernel/scheduler.rs:561-584 | the preemption keeps it |
| KernelInvariants.ExecInv | scars/src/kernel/scheduler.rs:861-880 | a pending reschedule keeps it and no lock changes hands |
| KernelInvariants.IrqSleepInv | scars/src/kernel/scheduler.rs:325-342 | requeueing an interrupt handler keeps it |
| KernelInvariants.IrqResumeInv | scars/src/kernel/scheduler.rs:344-358 | resuming an interrupt handler keeps it |
| KernelInvariants.AcquireInv | scars/src/thread/raw_thread.rs:168-198 | acquiring a scoped lock keeps it |
| KernelInvariants.ReleaseInv | scars/src/thread/raw_thread.rs:200-224 | releasing owned locks in any order keeps it |
| KernelInvariants.EnterInv | scars/src/sync/ceiling_lock.rs:160-173 | entering a ceiling section keeps it |
| KernelInvariants.LeaveInv | scars/src/sync/ceiling_lock.rs:175-187 | leaving the innermost section keeps it |
| KernelInvariants.StepInv | scars/src/kernel/scheduler.rs:131-611 | every action that does not panic keeps every thread in the one place its state names, all three queue orders, the alarm, the exact lock priorities and the lock owners |
| KernelInvariants.RunInv | scars/src/kernel/scheduler.rs:131-611 | so does every run, whatever the program does |
| KernelInvariants.SectionIsMax | scars/src/thread/raw_thread.rs:243-263 | the section priority is the maximum over the live sections |
| KernelInvariants.ActiveIsMax | scars/src/thread/raw_thread.rs:226-240 | the cached active priority is the maximum of base, section ceilings and lock ceilings, and the threshold to be written its interrupt level |
| KernelRuns.OnePlaceEach | scars/src/kernel/scheduler.rs:131-214 | in every run a thread is current iff Running, in the ready list iff Ready and not idle, in the blocked list iff Blocked, in the suspended list iff Suspended, once; and only Blocked threads sleep |
| KernelRuns.PrioritiesExact | scars/src/thread/raw_thread.rs:168-307 | in every run, after any mix of sections and scoped locks released in any order, priority, saved section priorities, the threshold to be written and lock owners are exact |
| KernelRuns.EnterThenLeave | scars/src/sync/ceiling_lock.rs:160-187 | leaving a section undoes entering it |
| KernelRuns.AcquireThenRelease | scars/src/thread/raw_thread.rs:168-224 | releasing a scoped lock undoes acquiring it: priorities, threshold, list and owners |
| KernelRuns.SchedulingOnlyStates | scars/src/kernel/scheduler.rs:131-611 | scheduling actions change nothing about a thread but its execution state |
| KernelRuns.BaseKept | scars/src/thread/raw_thread.rs:168-307 | no action changes a base priority |
| KernelEffects.BlockEffect | scars/src/kernel/scheduler.rs:406-426 | blocking fails exactly for idle; otherwise the thread is blocked, queued under its deadline iff it gave one, and the processor goes to the most urgent ready thread above every lock of a blocked thread and of the blocker, or to idle iff there is none; nothing else changes |
| KernelEffects.SuspendEffect | scars/src/kernel/scheduler.rs:428-478 | suspending fails exactly for idle, blocked and never started threads; exactly that thread becomes suspended, and a running one hands over like a blocking one |
| KernelEffects.MakeReadyEffect | scars/src/kernel/scheduler.rs:370-396 | exactly a blocked, suspended or started thread becomes ready, leaves its list and its deadline, and joins its priority level at the back or, holding a lock, at the front |
| KernelEffects.ResumeEffect | scars/src/kernel/scheduler.rs:398-403 | a resume asks for a reschedule iff the thread is above the running one and every lock of a blocked one, and never for one among equals |
| KernelEffects.StartEffect | scars/src/kernel/scheduler.rs:958-968 | starting succeeds exactly once per thread and makes it ready |
| KernelEffects.ReadyPosition | scars/src/kernel/scheduler.rs:142-153 | a lock-free thread is served after everyone of its priority, a lock holder before them |
| KernelEffects.BlockedPosition | scars/src/kernel/scheduler.rs:167-181 | a lock holder stands behind locks at least as high, a lock-free thread behind all lock holders |
| KernelEffects.PreemptEffect | scars/src/kernel/scheduler.rs:561-584 | a preemption switches iff a ready thread is more urgent than the current one, or equal when equals count; then to the most urgent, of equals the first served; nobody else moves |
| KernelEffects.ExecEffect | scars/src/kernel/scheduler.rs:538-585 | a reschedule does nothing unless pending; it wakes exactly the due and switches iff somebody then ready outranks the current thread, equals counting only after a yield; every thread state, deadline and poll afterwards |
| KernelEffects.TickNeverRotates | scars/src/kernel/scheduler.rs:572-578 | in every run a reschedule that no yield asked for switches only to a strictly more urgent thread |
| KernelEffects.YieldSwitchesIff | scars/src/kernel/scheduler.rs:565-570 | the reschedule after a yield switches iff somebody at least as urgent is ready |
| KernelEffects.TickSwitchesIff | scars/src/kernel/scheduler.rs:572-578 | the reschedule after a tick switches iff somebody more urgent is ready |
| KernelEffects.DelayEnds | scars/src/kernel/scheduler.rs:406-426 | a thread that blocked with a deadline stays blocked, queued and covered by the alarm through any run without its resume or a later reschedule, and the first pending reschedule at or after the deadline makes it ready or runs it |
| KernelEffects.IrqSleepEffect | scars/src/kernel/scheduler.rs:325-342 | after its request a handler is queued under that deadline and no other, with the alarm at or before it, whatever the queue was |
| KernelEffects.IrqResumeEffect | scars/src/kernel/scheduler.rs:344-358 | a resumed handler leaves the sleep queue and is asked to be polled |
| KernelEffects.AcquireEffect | scars/src/sync/ceiling_lock.rs:72-98 | an acquisition succeeds iff the thread is not idle, no more urgent than the ceiling, and nobody owns the lock; it then owns it and runs at exactly the ceiling; each refusal is exact |
| KernelEffects.ReleaseEffect | scars/src/thread/raw_thread.rs:200-224 | a release fails iff another thread owns the lock, ignores a free one, takes out that lock alone, and asks for a reschedule iff a ready thread is then above |
| KernelEffects.EnterEffect | scars/src/thread/raw_thread.rs:243-263 | entering a section raises the thread to the higher of its priority and the ceiling and changes nothing else |
| KernelEffects.LeaveEffect | scars/src/thread/raw_thread.rs:265-283 | leaving undoes the innermost section alone and asks for a reschedule like a release |
| KernelEffects.StepAccounts | scars/src/kernel/scheduler.rs:131-611 | for every action: the processor changes hands only by blocking, self-suspension or a pending reschedule; only a yield lets equals take over; a handler is asked to be polled exactly from its resume or its due time until the next poll |
| MutualExclusion.BlockSafeIff | scars/src/kernel/scheduler.rs:587-611 | blocking keeps preempted lock holders chained below the running thread iff the blocker holds no lock |
| MutualExclusion.SuspendSafeIff | scars/src/kernel/scheduler.rs:428-478 | suspending keeps the chain iff the suspended thread holds no lock |
| MutualExclusion.PreemptSafeIff | scars/src/kernel/scheduler.rs:561-584 | a preemption keeps the chain iff it does not switch from a lock holder to an equal |
| MutualExclusion.ExecSafeIff | scars/src/kernel/scheduler.rs:538-585 | the same for a whole reschedule with its wake-ups |
| MutualExclusion.EnterSafeIff | scars/src/sync/ceiling_lock.rs:160-173 | entering a section keeps the chain iff the idle thread does not do it |
| MutualExclusion.StepSafeIff | scars/src/kernel/scheduler.rs:131-611 | an action keeps the chain iff it obeys the discipline of blocking, suspending and equal-yielding lock-free |
| MutualExclusion.SafeExclusive | scars/src/sync/ceiling_lock.rs:81-91 | under the chain no other thread holds a lock or section at or above the running thread's base priority |
| MutualExclusion.LockIsFree | scars/src/sync/ceiling_lock.rs:81-91 | a thread that passes the recursion and ceiling checks finds the lock free |
| MutualExclusion.CeilingMutualExclusion | scars/src/thread/raw_thread.rs:173-192 | in every disciplined run the owner exchange never fails and locks and sections stay exclusive |
| CeilingCounterexamples.EqualYieldMeetsOwner | scars/src/kernel/scheduler.rs:565-570 | a run in which a lock holder yields to an equal reaches the "lock already owned" panic |
| CeilingCounterexamples.BlockedHolderMeetsOwner | scars/src/kernel/scheduler.rs:561-579 | so does a run in which a lock holder blocks, since the reschedule looks only at the current thread |
| CeilingCounterexamples.SuspendedHolderMeetsOwner | scars/src/kernel/scheduler.rs:440-460 | and a run in which a lock holder is suspended |
| CeilingCounterexamples.IdleSectionBreaksExclusion | scars/src/sync/ceiling_lock.rs:160-173 | a run in which idle enters a section and a thread below its ceiling runs while the section is live |
| CeilingCounterexamples.SelfSuspensionMissesPreemption | scars/src/kernel/scheduler.rs:440-460 | a run in which a lock holder suspends itself and a ready thread waits behind idle with no reschedule pending |
| Preemption.CeilingIsFullScan | scars/src/kernel/scheduler.rs:528-536 | looking at one blocked thread gives the maximum over all blocked threads and the current one |
| Preemption.BlockPicksAboveCeilings | scars/src/kernel/scheduler.rs:592-608 | what blocking picks is idle or strictly above every lock held by a blocked thread, the blocker included |
| Preemption.LockFreeSuspendKeeps | scars/src/kernel/scheduler.rs:440-460 | suspending oneself lock-free never uncovers a kept-back thread |
| Preemption.SelfSuspendPromptIff | scars/src/kernel/scheduler.rs:440-460 | self-suspension leaves no preemption missed iff no ready thread was kept back by the suspender's locks alone |
| Preemption.StepPromptIff | scars/src/kernel/scheduler.rs:365-611 | every other action leaves none missed |
| Preemption.NoMissedPreemption | scars/src/kernel/scheduler.rs:819-829 | in every such run, from the start (`Preemption.InitPrompt`) or any such state, a reschedule is pending or each ready thread is at or below the running thread or a lock held by a running or blocked one |
| Timers.LeavesUndueSuffix | scars/src/kernel/scheduler.rs:538-559 | the wake-up loop stops at the first undue entry and sets the alarm to it |
| Timers.AllDueWokenIff | scars/src/kernel/scheduler.rs:538-559 | it wakes everyone due iff nobody due stands behind somebody undue |
| Timers.DeadlineWriteKeepsOrderIff | scars/src/kernel/scheduler.rs:798-800 | writing a handler's deadline keeps the queue in order iff the new deadline fits where the handler stands |
| Timers.DeadlineWriteKeepsAlarmIff | scars/src/kernel/scheduler.rs:798-800 | it keeps the alarm at or before every queued deadline iff the handler is not queued or the alarm is no later than the new deadline |
| Timers.DeadlineWriteKeepsIff | scars/src/kernel/scheduler.rs:798-800 | it keeps all that timers rest on iff both conditions hold |
| Timers.MovedDeadlineHidesThread | scars/src/kernel/scheduler.rs:793-800 | a run after which a handler's deadline is moved while it is queued, and a due thread sleeps on |
| Timers.EarlierDeadlineOutrunsAlarm | scars/src/kernel/scheduler.rs:793-800 | a run after which a deadline that fits is written while its handler is queued, and the alarm is late |
| Timers.WakesExactlyTheDue | scars/src/kernel/scheduler.rs:538-559 | in every reachable state exactly the entries due are woken and nothing else changes state |
| Timers.AlarmNeverLate | scars/src/kernel/scheduler.rs:516-526 | in every run of kernel actions, where a handler's deadline is written and queued in one step, the alarm is at or before every queued deadline; `PreemptLock.AlarmInTime` has the write as a step of its own |
| Timers.HandlerEntries | scars/src/kernel/scheduler.rs:325-358 | no action but a handler's own request gives it a deadline in the sleep queue, and that request leaves it exactly the one asked for |
| RoundRobin.JoinsBack | scars/src/kernel/scheduler.rs:143-147 | a lock-free thread that yields goes behind its peers and before everyone less urgent |
| RoundRobin.YieldsRotate | scars/src/kernel/scheduler.rs:565-584 | any number n of yields, at any times before the next deadline, rotate the ring of k equal top threads by n mod k |
| RoundRobin.RoundRobin | scars/src/kernel/scheduler.rs:565-584 | after n such yields the peer n mod k places on runs, and every k of them restore the current thread, the queue and every thread |
| InterruptLocks.HandlerPriorityExact | scars/src/kernel/interrupt.rs:275-286 | a handler's priority bounds its own, its sections and its locks and is one of them, in whatever order locks were released |
| InterruptLocks.ClaimOutranks | khal/scars-khal-e310x/src/lib.rs:92-102 | an interrupt above the threshold outranks every ceiling held by any thread or preempted handler, except what the interrupted context is just listing or entering |
| InterruptLocks.LockingInv | scars/src/thread/raw_thread.rs:285-307 | a thread's lock operation before its threshold write keeps every ceiling below the register, except the one being listed or entered |
| InterruptLocks.WriteInv | scars/src/kernel/interrupt.rs:248-269 | the threshold write closes the window |
| InterruptLocks.HandlerInv | scars/src/kernel/interrupt.rs:157-246 | lock operations and sections of handlers keep the same bounds for every handler in the nest, and each section restores the priority before it |
| InterruptLocks.CompleteInv | khal/scars-khal-e310x/src/lib.rs:104-110 | completing a handler restores the threshold of what it preempted |
| InterruptLocks.RunInv | scars/src/kernel/interrupt.rs:157-269 | all of it holds in every run of disciplined threads and nested handlers, with interrupts between listing and write |
| InterruptLocks.TakeFailsIff | scars/src/sync/ceiling_lock.rs:55-70 | a handler that passes the ceiling check fails to take a lock iff it holds that lock itself or interrupted a context between listing the lock and writing the threshold |
| InterruptLocks.HandlerMutualExclusion | scars/src/sync/ceiling_lock.rs:55-70 | the same in every run: outside that window no entitled handler finds a lock held by a thread or another handler |
| InterruptLocks.TakeSucceedsIff | scars/src/sync/ceiling_lock.rs:55-70 | a take succeeds iff the handler is no more urgent than the ceiling, does not hold the lock and did not interrupt its listing |
| InterruptLocks.TakeEffect | scars/src/kernel/interrupt.rs:157-164 | the handler then holds the lock and runs at exactly its ceiling, and nothing else changes |
| InterruptLocks.DropEffect | scars/src/kernel/interrupt.rs:166-172 | a drop succeeds iff the handler holds the lock and takes out that lock alone |
| InterruptLocks.TakeThenDrop | scars/src/kernel/interrupt.rs:157-172 | taking and dropping a lock, with their threshold writes, restore everything |
| InterruptLocks.EnterEffect | scars/src/kernel/interrupt.rs:210-227 | entering a section raises the handler to the higher of its priority and the ceiling |
| InterruptLocks.EnterThenLeave | scars/src/kernel/interrupt.rs:210-246 | entering and leaving a section, with their threshold writes, restore everything |
| InterruptLocks.ClaimThenComplete | khal/scars-khal-e310x/src/lib.rs:92-110 | an interrupt that does nothing leaves no trace, whatever it interrupted |
| InterruptLocks.ProtectedBelow | scars/src/kernel/interrupt.rs:96-101 | in every run, while a handler runs, every ceiling held below it is under its own priority, except what an interrupted context was just listing or entering |
| InterruptLocks.ThresholdExact | scars/src/kernel/interrupt.rs:96-101 | in every run, outside a lock operation the register is the level of the top handler's priority, or of the running thread's lock ceiling; inside one it is what was written before |
| InterruptLocks.InterruptedListingPanics | scars/src/thread/raw_thread.rs:175-191 | wherever a thread may take a lock with an interrupt ceiling, an interrupt in the window at or below it leads to the handler's panic |
| InterruptLocks.InterruptedTakePanics | scars/src/kernel/interrupt.rs:157-164 | the same for an interrupted handler |
| InterruptLocks.ThreadInterruptedWhileListing | scars/src/thread/raw_thread.rs:175-191 | a full run into it from the start of the kernel |
| PreemptLock.TakeInv | scars/src/sync/preempt_lock.rs:46-100 | nested and first acquisitions keep the word naming exactly the one context that holds it, although threads swap it in unconditionally |
| PreemptLock.DropInv | scars/src/sync/preempt_lock.rs:102-109 | inner releases and the start of an outermost one keep it |
| PreemptLock.DrainInv | scars/src/kernel/scheduler.rs:843-858 | each round of the drain finishes, and keeps the exclusion, both pending queues, the deadline cells and the kernel invariant |
| PreemptLock.ClearInv | scars/src/sync/preempt_lock.rs:111-112 | clearing the word keeps it |
| PreemptLock.DeferKeepsIff | scars/src/kernel/scheduler.rs:889-900 | a deferral keeps the pending queues iff the item is the dummy of neither |
| PreemptLock.DeferHaltsIff | scars/src/kernel/atomic_queue.rs:82-88 | a deferral halts iff the item was deferred and is not yet drained |
| PreemptLock.WriteKeepsIff | scars/src/kernel/scheduler.rs:798-800 | a deadline write, which takes no lock, keeps the whole invariant iff the deadline fits and the alarm reaches it |
| PreemptLock.RunInv | scars/src/sync/preempt_lock.rs:46-134 | all of it holds in every sound interleaving of a thread and nested interrupt handlers, deadline writes included |
| PreemptLock.AlarmInTime | scars/src/kernel/scheduler.rs:516-526 | in every sound run each queued handler stands under the deadline in its cell, the sleep queue is in deadline order, and the alarm is at or before every deadline in it |
| PreemptLock.OnlyHolderChangesLists | scars/src/sync/preempt_lock.rs:46-134 | a step that changes a scheduler list, a thread state, the alarm or the current thread is taken by the sole holder of the word, or is a deadline write, which changes deadlines of queued entries and nothing else |
| PreemptLock.HolderStaysCurrent | scars/src/sync/preempt_lock.rs:46-59 | while a thread holds the word it stays the current thread |
| PreemptLock.DeferredInOrder | scars/src/kernel/scheduler.rs:843-858 | in every sound run what was deferred, resumes and sleeps alike, is what was drained followed by what is queued: none lost, none repeated, first in first out |
| PreemptLock.SoundRunStopsOnlyBy | scars/src/kernel/scheduler.rs:843-900 | a sound run stops only by a panic of the kernel itself or by deferring what is still pending; no drain spins |
| PreemptLock.LogsGrow | scars/src/kernel/scheduler.rs:847-857 | each drained item is the oldest of its queue; the same step resumes it in the kernel, or puts the handler to sleep there under the deadline in its cell |
| PreemptLock.ReleaseAppliesDeferred | scars/src/sync/preempt_lock.rs:102-112 | once the word is free after an outermost release began, every resume and every sleep deferred before it began has been applied in order, in every sound run |
| PreemptLock.LeftBehindIff | scars/src/sync/preempt_lock.rs:106-112 | clearing the word leaves a resume, or a sleep, queued iff one was deferred after the drain's last look at that queue |
| PreemptLock.ResumeLeftBehind | scars/src/sync/preempt_lock.rs:106-112 | that happens: a run on any kernel |
| PreemptLock.LateAlarmOutlivesRelease | scars/src/kernel/scheduler.rs:798-815 | on any kernel without sleepers, a run in which an earlier deadline is written and its request deferred in that window: the word is free and the alarm is later than the deadline |
| PreemptLock.TwiceDeferredHalts | scars/src/kernel/scheduler.rs:889-900 | on any kernel, two interrupts that resume one thread while the word is taken halt it |
| PreemptLock.RedeferredSpins | scars/src/kernel/scheduler.rs:843-900 | on any kernel, what is deferred, drained and deferred again makes the next drain spin |
| PreemptRuns.CheckEffect | scars/src/sync/preempt_lock.rs:114-131 | the check after a release turns a pending reschedule of either kind into a yield, and does nothing when none is pending |
| PreemptRuns.ChecksFirst | scars/src/sync/preempt_lock.rs:128-132 | a thread that has released the word does nothing before that check |
| PreemptRuns.ReleaseYields | scars/src/sync/preempt_lock.rs:102-131 | a release of the word by a thread with a reschedule pending leaves the word free and ends in a yield |
| PreemptRuns.KernelSees | scars/src/sync/preempt_lock.rs:46-134 | every step is one named action of the kernel, a deadline write, or leaves the kernel alone |
| PreemptRuns.NextPromptIff | scars/src/sync/preempt_lock.rs:46-134 | no step misses a preemption, except a self-suspension exactly as in the kernel alone |
| PreemptRuns.NoMissedPreemption | scars/src/sync/preempt_lock.rs:46-134 | in every sound run, with nested handlers, deferral and the check after each release, a reschedule is pending or every ready thread is kept back |
| PreemptRuns.Levels | scars/src/sync/preempt_lock.rs:46-112 | a take adds a level and gives the word to the context on top; a release takes one off, and only the last one lets the word go |
| PreemptRuns.TakeThenDrop | scars/src/sync/preempt_lock.rs:61-100 | a nested acquisition and its release cancel out |
| PreemptRuns.EnterThenExit | scars/src/sync/preempt_lock.rs:61-100 | a handler that comes and goes leaves the interrupted contexts as they were |
| PreemptRuns.LowerContextsKept | scars/src/sync/preempt_lock.rs:46-134 | only the context on top changes |
| PreemptRuns.MayTakeIff | scars/src/sync/preempt_lock.rs:61-100 | a thread may always take the word, a handler iff no context that it interrupted holds it, and otherwise it defers |
| PreemptRuns.AskedIsDrainedOrQueued | scars/src/kernel/scheduler.rs:843-900 | in every sound run the requests handlers left, read off the actions alone, are those applied followed by those still queued |
| AtomicQueue.LinkInv | scars/src/kernel/atomic_queue.rs:107-117 | the linking exchange appends the pushed item and keeps the queue invariant |
| AtomicQueue.TailWrites | scars/src/kernel/atomic_queue.rs:119-138 | every exchange of the tail keeps it |
| AtomicQueue.SwingTailMem | scars/src/kernel/atomic_queue.rs:119-138 | the tail only moves from the last node but one to the last |
| AtomicQueue.UnlinkInv | scars/src/kernel/atomic_queue.rs:190-195 | the head exchange takes out the oldest item and keeps it |
| AtomicQueue.DisownInv | scars/src/kernel/atomic_queue.rs:200-208 | a popped item is always found owned |
| AtomicQueue.RunInv | scars/src/kernel/atomic_queue.rs:73-213 | the invariant holds in every interleaving of any number of pushes and pops |
| AtomicQueue.Fifo | scars/src/kernel/atomic_queue.rs:73-213 | pushed == popped followed by queued; the chain is acyclic and null-terminated; tail lags by at most one and head never passes it; ItemNotInQueue is never raised |
| AtomicQueue.Refines | scars/src/kernel/atomic_queue.rs:73-213 | each step appends its context's item, removes the front item its context returns, or leaves the queue alone |
| AtomicQueue.NothingMeansEmpty | scars/src/kernel/atomic_queue.rs:60-70 | a pop that returns nothing, and an emptiness test that says so, read a null pointer while the queue was empty |
| AtomicQueue.RefusedIffInUse | scars/src/kernel/atomic_queue.rs:82-88 | after any run a push is refused as already queued iff the item is queued or being pushed or returned |
| QueueProgress.GoLess | scars/src/kernel/atomic_queue.rs:73-213 | from any state of any interleaving, each step of a context brings it closer to the end of its operation, by a measure of at most 14 |
| QueueProgress.FinishesAlone | scars/src/kernel/atomic_queue.rs:73-213 | a context that runs on alone finishes within 14 steps, whatever it interrupted |
| QueueProgress.PushAppendsAlone | scars/src/kernel/atomic_queue.rs:73-140 | a push that runs on alone has then appended its item |
| QueueProgress.PopTakesAlone | scars/src/kernel/atomic_queue.rs:142-213 | a pop that runs alone has taken and released the oldest item, or found the queue empty |
| AtomicQueue.PushAllowedIff | scars/src/kernel/atomic_queue.rs:73-88 | starting to push an unowned node keeps the invariant iff the node is neither in the chain nor referred to by an operation in flight |
| AtomicQueue.PushedDummyBreaksChain | scars/src/kernel/atomic_queue.rs:191-208 | pushing the dummy again cuts off the queue or, when it is empty, links the node to itself |
| AtomicQueue.SelfLinkHangs | scars/src/kernel/atomic_queue.rs:164-178 | a pop on a node linked to itself never returns, however long it runs |
| AtomicQueue.ReachStalled | scars/src/kernel/atomic_queue.rs:142-190 | a run from the empty queue to a pop that stalls before its head exchange |
| AtomicQueue.StaleExchangeSucceeds | scars/src/kernel/atomic_queue.rs:186-208 | continues it: a node that the stalled pop refers to is pushed again, the stale head exchange succeeds and ItemNotInQueue is raised |
| PendingQueues.RefusedIff | scars/src/kernel/waiter.rs:50-53 | a node is refused iff it waits in either of the two pending queues |
| PendingQueues.PushKeepsIff | scars/src/kernel/waiter.rs:50-53 | a push keeps both queues iff the node is the dummy of neither |
| PendingQueues.PushKeeps | scars/src/kernel/atomic_queue.rs:73-140 | such a push runs to its end, appends to its queue and leaves the other alone |
| PendingQueues.PopTakesOldest | scars/src/kernel/atomic_queue.rs:142-213 | a pop takes the oldest item of its queue, or nothing iff it is empty; the item becomes the dummy |
| PendingQueues.RepushedDummy | scars/src/kernel/atomic_queue.rs:107-178 | after the dummy is pushed on its own queue the next pop never finishes, or loses the items behind it |
| PendingQueues.CrossedQueues | scars/src/kernel/waiter.rs:50-53 | after the dummy of one queue is pushed on the other, the next item of the first is chained into the second |
| Events.NotifiesIffSatisfied | scars/src/event_set.rs:52-83 | a sender notifies iff what it saw meets the announced wait |
| Events.BlocksIff | scars/src/kernel/scheduler.rs:671-686 | the blocking test holds iff an awaited bit is missing, or nothing was asked for in any-mode |
| Events.CollectBlocksIff | scars/src/kernel/scheduler.rs:671-701 | the system call takes the awaited bits that are there and lets the thread go on iff all of them were sent and something was asked for; otherwise the thread goes to block |
| Events.BlocksOnlyForMissing | scars/src/kernel/scheduler.rs:684-701 | in every run a thread that blocks lacks a bit it asked for, unless it asked for nothing |
| Events.UnblocksIff | scars/src/kernel/scheduler.rs:374-383 | a blocked thread goes on by a resume or a timeout and nothing else, and finds the event that says which |
| Events.GoAdvances | scars/src/kernel/scheduler.rs:657-701 | each step of the thread brings its wait closer to its end without losing what it asked for |
| Events.NoResumeOutsideWait | scars/src/event_set.rs:85-98 | in every run a sender that looks while no wait is announced leaves the thread alone |
| Events.LoadDecides | scars/src/event_set.rs:57-83 | a sender resumes iff the bits it saw satisfy the mask announced at its second look |
| Events.TryWaitBlocksIff | scars/src/event_set.rs:124-135 | the non-blocking wait blocks iff some but not all bits of an any-wait were sent, or nothing was asked for |
| Events.EventSet.ReadAndClearMatching | scars/src/event_set.rs:40-42 | splits the pending bits into those returned and those left |
| Events.EventSet.SendEvents | scars/src/event_set.rs:57-83 | adds all bits but the flag and notifies iff the announced wait is satisfied |
| Events.KeptNext | scars/src/event_set.rs:85-122 | every atomic step conserves the bits of the running wait |
| Events.BitsConserved | scars/src/event_set.rs:40-98 | for any interleaving, taken bits with pending bits are the initial ones with those sent since, taken bits are awaited ones, and the flag is never pending |
| Events.NoBitLostOrMadeUp | scars/src/event_set.rs:40-98 | for any interleaving, every bit sent since the latest wait began, read off the actions, is taken or pending, and whatever is taken or pending was sent or is an event of the scheduler |
| Events.WaitReturns | scars/src/event_set.rs:100-122 | the result lies in the awaited mask and takes all such bits there were; a timed wait reports a timeout iff the wakeup bit was pending at its start or set since |
| Events.DelayMakesTimeout | scars/src/event_set.rs:114-121 | a run in which a wait that never blocked reports a timeout because of an earlier delay |
| Events.NoLostWakeup | scars/src/kernel/scheduler.rs:667-701 | in every run, if the read-and-clear found no awaited bit and the condition is now met, a resume is queued or on its way, also before the thread is in the blocked list |
| Events.CompletingSendResumes | scars/src/event_set.rs:57-83 | the sender of the completing bits decides to resume; its resume leaves the thread ready or queued, and fails iff it must be deferred while the thread is still pending or was drained last |
| Events.StuckIffPartlyCollected | scars/src/kernel/scheduler.rs:675-701 | a wait that just blocked can get stuck iff it collected some awaited bits first |
| Events.TwoSendersHalt | scars/src/kernel/scheduler.rs:889-900 | a run in which two senders defer the resume of one waiting thread and the kernel halts |
| Events.DeferredAgainBreaks | scars/src/kernel/scheduler.rs:889-900 | a run in which a thread drained last waits again and its next deferral pushes the dummy |
| WaitQueue.StepKeeps | scars/src/kernel/scheduler.rs:131-611 | a thread blocked without a deadline stays so through every action but its own resume |
| WaitQueue.WaitInv | scars/src/kernel/scheduler.rs:613-655 | waiting keeps the queue sorted by base priority and first-come within it, with every waiter blocked |
| WaitQueue.WaitPosition | scars/src/kernel/scheduler.rs:640-650 | the new waiter stands behind everyone of at least its base priority, before everyone below it, and draws the next ticket |
| WaitQueue.NotifyOneServesMostUrgent | scars/src/kernel/waiter.rs:183-192 | in every run the notified waiter has the highest base priority and has waited longest among those; it becomes ready and the others stay blocked |
| WaitQueue.NotifyAllWakesEveryone | scars/src/kernel/waiter.rs:194-202 | every waiter becomes ready and nobody else changes state |
| WaitQueue.NotifyAllInOrder | scars/src/kernel/waiter.rs:194-202 | afterwards every lock-free waiter stands in the ready queue behind all waiters served before it |
| WaitQueue.Queue.WaitCurrentThread | scars/src/kernel/scheduler.rs:613-655 | only idle is refused; otherwise the running thread is the one added waiter, and the queue object and the heap scheduler under it keep their invariants: waiters blocked, most urgent and longest waiting first |
| WaitQueue.Queue.NotifyOne | scars/src/kernel/waiter.rs:183-192 | the thread it makes ready is served before every other waiter; the others stay blocked in order |
| WaitQueue.Queue.NotifyAll | scars/src/kernel/waiter.rs:194-202 | the loop makes every waiter ready, changes nobody else, and leaves lock-free waiters in the heap ready list in the order of service |
| Channel.PushAppends | scars/src/sync/channel.rs:35-55 | pushing appends to the contents, or is refused iff the ring is full |
| Channel.PopTakesOldest | scars/src/sync/channel.rs:60-72 | popping returns the oldest item, from an initialised cell, or nothing iff the ring is empty |
| Channel.NextInv | scars/src/sync/channel.rs:153-225 | no section of send, try_send, recv or try_recv drops an item or fails its unwrap |
| Channel.SectionServes | scars/src/sync/channel.rs:153-225 | each section does to contents, accepted and received items what a bounded queue of values does: a send appends its item while there is room, a receive takes the oldest |
| Channel.ChannelIsBoundedQueue | scars/src/sync/channel.rs:153-225 | over any run the channel holds, has accepted and has handed out exactly what a bounded queue of its capacity, defined without the ring, would have |
| Channel.ChannelConserves | scars/src/sync/channel.rs:153-225 | in every run received items followed by the contents are the accepted items, the capacity is respected and head == (tail + used) mod capacity |
| Channel.NothingAccepted | scars/src/sync/channel.rs:41-44 | a channel of capacity 0 never accepts anything |
| Channel.Fifo.PushBack | scars/src/sync/channel.rs:35-55 | the in-place push refines the append |
| Channel.Fifo.PopFront | scars/src/sync/channel.rs:60-72 | the in-place pop refines taking the oldest |
| Clock.Timer.ClockTicks | khal/scars-khal-e310x/src/lib.rs:172-190 | the torn-read loop ends and returns a value the counter held during the call |
| Clock.Compare.SetWakeup | khal/scars-khal-e310x/src/lib.rs:193-206 | none of the three writes exposes a compare value below both the old and the new one, as section 3.2.1 of the RISC-V Privileged Architecture (version 20211203) asks |
| Priority.RoundTrip | scars/src/priority.rs:100-113 | every priority and the invalid status survive encoding and decoding |
| Priority.CodeIff | scars/src/priority.rs:239-255 | a word survives decoding and encoding iff it is a code |
| Priority.CodesOrder | scars/src/priority.rs:125-145 | comparing codes is comparing priorities; comparing with the invalid status gives nothing |
| Priority.StatusMaxIsJoin | scars/src/priority.rs:224-237 | the status maximum is the join of the code order with the invalid status at the bottom |
| Priority.CodesCompute | scars/src/priority.rs:73-98 | maximum and maximum with a status are maxima of codes, as the kernel model computes them |
| Priority.SuccIsLeastAbove | scars/src/priority.rs:54-71 | the successor is the least priority above, except at the top |
| Priority.PairRoundTrip | scars/src/priority.rs:393-402 | two statuses survive packing in one word |
| Priority.PairInjective | scars/src/priority.rs:393-402 | equal words are equal pairs |
| Priority.StatusPair.CompareExchange | scars/src/priority.rs:485-501 | the exchange succeeds iff both stored priorities are the expected ones |
| Priority.StatusPair.Swap | scars/src/priority.rs:476-483 | stores the pair and returns the previous one |

## Left out

- Assembly, context switching, trap entry, register frames and stack checks: a switch updates the current thread, and returning to a thread restores the threshold it last wrote.
- Interrupt controllers and other hardware drivers, apart from the machine timer.
- Async tasks, executors, wakers and interrupt executors: a resumed or woken handler only records a poll.
- The retry loops around the cached lock priorities (scars/src/thread/raw_thread.rs:245-262): one atomic update, as only the running thread writes them.
- The sleep queue and the wait queue on the heap: `RawScheduler` and `WaitQueue` hold them as sequences, with the same cursor loops; they use the same list as the other three.
- The scheduler object's copy of thread records: `RawScheduler` keeps them as values, and `RawThread` is the object for one thread's locks.
- The lazy initialisation of the lock-free queue (scars/src/kernel/atomic_queue.rs:42-58): both end pointers start at the sentinel.
- Weak memory orderings: atomics are sequentially consistent.
- Deadline cells outside `PreemptLock`: there the cells are modelled and a write reaches the queued entry; in `Kernel` and `RawScheduler` an entry carries its deadline, and only a request that queues the handler anew changes it.
- Condition variables, rendezvous and the liveness of channel waits: unlocking and queueing are separate steps, so notifications can be missed.
- `from_pair` and `to_pair` (scars/src/priority.rs:385-391): they rely on the compiler's layout.
- Notifications of a wait queue that find the preemption lock taken: `WaitQueue` resumes at once, deferral is in `PreemptLock`.
- PreemptLock.RunInv: an operation of a pending queue runs to its end in one step; `AtomicQueue` has the interleavings inside it.
- PreemptLock.DrainInv: likewise, for the pop that starts a round.
- IntrusiveList.LinkedList.Remove: takes the member's position as a ghost argument, and a node of another list is refused before its links are touched, where the code panics after touching them.
- RawThread.RawThread.ReleaseScopedLock: the reschedule check that follows a release is not part of this object; `Kernel.Release` has it.
- RawThread.RawThread.SetNestingLockPriority: likewise, with `Kernel.LeaveSection`; guards are dropped innermost first.
- Procedural macros, error formatting, tracing, thread-local storage, cells and one-time initialisation: easy wrappers.
