# A model of the SMP kernel's scheduler, in Dafny

The kernel runs four cores. Each has a run queue with one list per priority; tasks block on semaphores and on joins;
timer ticks and system calls switch tasks by saving a register frame on the task's own stack. This project models
those parts and proves what they keep under every interleaving of the cores.

| file | what it models |
|---|---|
| `Rings.dfy` | families of lists as values: the one specification of the list operations |
| `Lists.dfy` | `list.h` over heap nodes: pointer code proved against `Rings` |
| `Placement.dfy` | affinity masks and the `sched_pickcpu` family |
| `RunQueues.dfy` | what `next`, waking and pulling mean on lists |
| `Dispatcher.dfy` | `dispatch.c` run by one core: loops and updates proved against the two files above |
| `TaskRings.dfy` | the dispatcher's lists shown on pointer rings: the two views go together |
| `Semaphore.dfy` | `semaphore.c` run by one core, on the dispatcher |
| `ThreadTable.dfy` | the task table and the pid hash of `thread.c`, and the pids over whole runs |
| `Kernel.dfy` | the four cores as a step system |
| `KernelInvariants.dfy`, `KernelIdle.dfy`, `KernelSems.dfy`, `KernelJoins.dfy` | what every step keeps |
| `KernelTheorems.dfy`, `KernelRuns.dfy`, `KernelWakes.dfy`, `KernelCounts.dfy` | what holds in every reachable state and over every run |
| `KernelQueues.dfy` | over whole runs, waiting is first come, first served |
| `KernelProgress.dfy` | which cores can always go on |
| `KernelLaw.dfy`, `KernelHistory.dfy` | over whole runs, when the textbook law of semaphores holds, and what holds instead |
| `KernelReady.dfy`, `KernelPriority.dfy` | where tasks go that are made ready, and that the highest go first |
| `KernelBirths.dfy`, `KernelMemory.dfy`, `KernelAnswers.dfy` | over whole runs: new tasks are as asked for, exit values arrive, calls answer what they should |
| `KernelReturns.dfy` | what late stores do to what a task finds in X0 |
| `KernelAffinity.dfy` | over whole runs, when a core runs a task whose mask forbids it |
| `KernelAlone.dfy` | a core that nobody disturbs: its steps add up to the one-core model of `Dispatcher` |
| `KernelExamples.dfy`, `KernelWitnesses.dfy` | runs from before boot in which the code misses its evident intent |
| `KernelLife.dfy` | a run from before boot that makes, starts, joins and ends a task |
| `Context.dfy`, `ContextRuns.dfy` | `vectors64.s` and `context.c` as a register and stack machine; whole runs of interrupts on four cores |
| `KernelContexts.dfy` | every run of the step system is such a run of interrupts |
| `SpinLocks.dfy` | `multicore.c` with test-and-set steps, the order in which the kernel takes its locks, and destroyed semaphores |
| `KernelLocks.dfy` | the steps of the step system fall into the lock sections of their calls |
| `PullLocks.dfy` | what the locks would do if pulls moved tasks |
| `WorkPool.dfy` | the worker pool of `kinit.c` |

## How the step system is cut

A step of `Kernel` is one section of kernel code on one core that the others see as a whole: the code between taking
and releasing a run-queue, semaphore or wait-queue lock, an atomic update, or code that touches nothing shared; `Covered`
proves this of every step against the scripts of `SpinLocks`, with two exceptions that are those of the code. The
lengths and the process count that `sched_pickcpu` reads without a lock are arbitrary values, the lengths below
INT32_MAX. A tick and a yield are the same step, as both end in `ready` and `next`; the idle tasks never make system
calls. A call ends with the return value stored and the core about to switch; entering user mode is a step of its own,
and so is the store that a blocking sem_wait makes after its lock. The affinity argument of `pthread_create` is a
parameter of the step. `ticks_to_balance` is not modelled: a pull may happen at any time.

## Where the code and its intent part

The code is modelled as written, with one switch: `bounded` says whether `alert_on_locked_nr` honours its `nr`. As
written it never decrements it.

- A post that finds n > 0 waiters wakes all n (`PostServes`, `OvergrantExists`). Over a whole run the textbook law holds
  at the end exactly when no post found more than one (`LawExactly`), and `LawInFull` says by how much it fails; with
  `nr` honoured it always holds (`Conservation`). The order in which tasks waited is kept either way (`Fifo`,
  `ServedInTurn`).
- `sched_pull` scans the idle list only, and every task on it is tied to its core, so it never moves anything
  (`PullIsDead`), and so keeps to the lock order. Were it to move tasks it would not (`PullOrdered`), and
  `DeadlocksExactly` says which programs could then stop all cores. Its test means "while busy >= 2 * idle"
  (`BalancedMeans`); an idle length of 0, a division by zero in C, gives 0 on AArch64 and stops the pull.
- `proc_join` looks its target up and goes to sleep in two sections, and `proc_exit` wakes before it unlinks. A task can
  be left waiting for one that has exited (`OrphanExists`); `JoinsSafe` says exactly when none is, and
  `AtomicJoinsSafe` that none would be if the calls were atomic.
- A blocking `__sem_wait` stores its return value after it has let go of the lock, when another core may already run the
  task. Then the call returns what the call before returned (`StaleReturn`), and the late store can fall into a later
  call (`SpoiledAnswer`). `BlockedReturns` says exactly when sem_wait returns 0.
- SCHED_SET_AFFINITY reschedules when the core is still allowed, the opposite of its comment. Affinity holds whenever a
  task is dispatched (`DispatchAllowed`), and fails exactly from such a call until the core lets the task go or its mask
  changes again (`AffineFromBoot`, `AstrayExists`).
- `__sem_destroy` returns with the lock held (`DestroyStrands`). Every core that then takes the lock spins until somebody
  initialises the semaphore again, and for ever if nobody does (`OwnerlessRun`, `RetiredRun`). `sem_init` clears the flag
  whoever holds the lock; `MutualExclusion` says what that costs.
- `sem_trywait` refuses counts above 2^31 (`TryWaitAnswers`, `RefusesWithUnits`).
- `align` clears the upper half of the address; it is right exactly below 2^32 (`AlignExact`).
- `switch_to` writes the return value to X0 on every resume, after a timer interrupt too; the registers survive exactly
  when that is what X0 held (`X0Kept`, `TimerTakesX0`).
- When `next_pid` wraps, the call that reads it as 0 fails and loses its pid; later pids can repeat, after 2^32 calls and
  not before (`PidsDiffer`, `PidsRepeat`). Calls that overlap can list their pids out of order (`OutOfOrder`). The hash
  and the list agree regardless (`IndexAgrees`).
- `pooled_worker` reads `finished` after dropping the lock, so the pool can end with an item queued (`NotDrained`);
  `DrainedExactly` says when it does not.

Some clauses compare a predicate with `true`. That keeps the verifier from taking the predicate apart where it only has
to be handed on.

## Model

| member | source | states |
|---|---|---|
| Lists.ListHead.constructor | src/c/kernel/include/list.h:83-85 | a fresh node is linked to itself |
| Lists.ListInsert | src/c/kernel/include/list.h:93-101 | the new node sits between the two given ones, in both directions |
| Lists.ListAdd | src/c/kernel/include/list.h:111-114 | the ring at the head is the old ring with the node in front, forwards and backwards |
| Lists.ListAddTail | src/c/kernel/include/list.h:124-127 | the ring at the head is the old ring with the node behind |
| Lists.CloseGap | src/c/kernel/include/list.h:137-141 | the ring without its i-th entry is again a well-formed ring |
| Lists.ListDel | src/c/kernel/include/list.h:149-154 | as CloseGap, the entry being left with null links |
| Lists.ListDelInit | src/c/kernel/include/list.h:162-166 | as CloseGap, the entry being left an empty ring of its own |
| Lists.ListMove | src/c/kernel/include/list.h:173-177 | from wherever it is in any ring of the heap the entry comes first in any ring, its own included; the others keep their order, and all rings stay linked |
| Lists.ListMoveTail | src/c/kernel/include/list.h:184-189 | the same, to the tail |
| Lists.ListEmpty | src/c/kernel/include/list.h:195-198 | true exactly of a head that owns no entry |
| Lists.ListIsTail | src/c/kernel/include/list.h:200-204 | true exactly of the last entry of the ring |
| Lists.Splice | src/c/kernel/include/list.h:206-218 | the entries of one ring, in order, come in front of those of the other |
| Lists.ListSpliceInit | src/c/kernel/include/list.h:238-245 | the same, an empty list included, the first head being left empty |
| Lists.Forward | src/c/kernel/include/list.h:273-275 | the traversal visits exactly the ring, in order |
| Lists.Backward | src/c/kernel/include/list.h:295-297 | the traversal through prev visits the ring in reverse order |
| Lists.MoveMatching | src/c/kernel/dispatch.c:215-226 | over a whole heap of rings: the safe loop, whose body relinks the node it stands on, visits exactly the entries present at the start, once each and in order, and ends; the k-th that satisfies the condition is at the tail of the ring chosen for it, the rest stay in order, and every ring is linked |
| Lists.HeapAddTail | src/c/kernel/include/list.h:124-127 | among any number of rings, this one grows at the tail and no other changes |
| Lists.HeapAdd | src/c/kernel/include/list.h:111-114 | among any number of rings, this one grows at the front and no other changes |
| Lists.HeapDelInit | src/c/kernel/include/list.h:162-166 | whatever ring holds the entry loses it, all others are unchanged; on an entry that is linked to itself nothing happens |
| Lists.HeapDel | src/c/kernel/include/list.h:149-154 | over a heap: the ring closes, every other ring stays linked, and the entry has null links |
| Lists.HeapSpliceInit | src/c/kernel/include/list.h:238-245 | over a heap: the entries of one ring, in order, come in front of those of another, the first is left empty, and every other ring stays linked |
| Lists.HeapReady | src/c/kernel/dispatch.c:167-181 | list_del_init twice and list_add_tail, as a wake does them: the entry has moved to the tail of the chosen ring of the heap |
| Rings.MoveKeeps | src/c/kernel/dispatch.c:177-181 | unlinking an entry and appending it elsewhere leaves no entry in two lists, and loses none |
| Rings.DealAt | src/c/kernel/dispatch.c:215-226 | tasks made ready one after the other: each queue ends with exactly its share, in arrival order, behind what it held |
| TaskRings.DelInitOnRings | src/c/kernel/include/list.h:162-166 | on rings that show the dispatcher's lists, list_del_init leads to rings that show what Dispatcher.ListDelInit leads to |
| TaskRings.AlertOnRings | src/c/kernel/dispatch.c:215-226 | the loop on pointers leads to rings that show exactly the lists that Dispatcher.AlertOnLockedNr leads to |
| Placement.SetCores | src/c/kernel/context.c:40-42 | setting a bit adds exactly that core to the set the mask denotes |
| Placement.ClrCores | src/c/kernel/context.c:43-45 | clearing a bit removes exactly that core |
| Placement.AndCores | src/c/kernel/context.c:57-60 | the bitwise and of two masks is the intersection of their cores |
| Placement.CpuSet.Set | src/c/kernel/context.c:40-42 | the stored mask denotes the old set with the core added |
| Placement.CpuSet.Clr | src/c/kernel/context.c:43-45 | the stored mask denotes the old set less the core |
| Placement.CpuSet.And | src/c/kernel/context.c:57-60 | the stored mask denotes the intersection of the two old sets |
| Placement.PullTarget | src/c/kernel/dispatch.c:143-145 | the narrowed mask names the puller if the task may run there, and nothing else |
| Placement.AllCores | src/c/kernel/thread.c:87-91 | the mask made for a task without one names all four cores |
| Placement.InactiveIsLeast | src/c/kernel/dispatch.c:87-101 | the scan returns the allowed core with the least length, the lowest-numbered on a tie, and core 0 exactly when no allowed core is below INT32_MAX |
| Placement.BusiestIsMost | src/c/kernel/dispatch.c:71-85 | the scan returns the first of the longest queues, and core 0 when none is positive |
| Placement.PickCpuAllowed | src/c/kernel/dispatch.c:104-123 | for arbitrary values of the unlocked reads, the int product and its conversion for the unsigned division included: exactly when the chosen core is in the mask |
| Placement.PickCpuRight | src/c/kernel/dispatch.c:104-123 | which core it is: the caller's own while the mask allows it and it holds less than 26 in a hundred of the live tasks; otherwise, of those allowed, the one with the least length, the lowest-numbered on a tie; core 0 for an empty mask |
| Placement.PickCpuElse | src/c/kernel/dispatch.c:115-119 | the same where 100 * length overflows an int: then the wrapped product, converted to 64 unsigned bits, is what counts |
| Placement.OverloadedMeans | src/c/kernel/dispatch.c:116-117 | with a length whose hundredfold fits in an int the core counts as overloaded from 26 in a hundred of the live tasks on, and always when the length reads negative |
| Placement.PickCpuObeys | src/c/kernel/dispatch.c:104-123 | with plausible lengths a mask that names a core is always obeyed, and an empty one leads to core 0 |
| RunQueues.Top | src/c/kernel/dispatch.c:37-45 | the highest list with an entry: everything above it is empty |
| RunQueues.BalancedMeans | src/c/kernel/dispatch.c:140-141 | the truncated quotient compared with 1.2 means busy < 2 * idle; an idle length of 0 also stops the pull |
| RunQueues.PullTailFirst | src/c/kernel/dispatch.c:139-156 | only allowed tasks move, and in the order in which they stand from the tail |
| RunQueues.PullKeepsBarred | src/c/kernel/dispatch.c:147-148 | tasks whose mask excludes the puller stay, in their order |
| RunQueues.PullConserves | src/c/kernel/dispatch.c:139-156 | each task is left or moved, exactly as often as it was on the list |
| RunQueues.PullBalances | src/c/kernel/dispatch.c:139-156 | the sum of the two lengths is kept, their maximum never grows, and on exit the queues are balanced or nothing left may move |
| RunQueues.PullExactly | src/c/kernel/dispatch.c:139-156 | all of the scan: from where it stops to the tail, whatever may move has moved and nothing else; before that nothing has changed; it stops at the front or where the queues are balanced |
| RunQueues.PullStops | src/c/kernel/dispatch.c:140-141 | no task is moved once the queues are balanced |
| Dispatchers.Dispatcher.constructor | src/c/kernel/dispatch.c:19-31 | all sixteen run queues are empty |
| Dispatchers.Dispatcher.SchedPickcpuBusiest | src/c/kernel/dispatch.c:71-85 | the loop computes the scan described by BusiestIsMost |
| Dispatchers.Dispatcher.SchedPickcpuInactive | src/c/kernel/dispatch.c:87-101 | the loop computes the scan described by InactiveIsLeast |
| Dispatchers.Dispatcher.SchedPickcpu | src/c/kernel/dispatch.c:104-123 | the choice described by PickCpuRight, for the current lengths |
| Dispatchers.Dispatcher.ListDelInit | src/c/kernel/include/list.h:162-166 | the process is in no list afterwards and no other has moved |
| Dispatchers.Dispatcher.MakeReady | src/c/kernel/dispatch.c:167-182 | wherever the process was, it ends at the tail of its priority list on the chosen core, whose length is one more |
| Dispatchers.Dispatcher.SleepOnLocked | src/c/kernel/dispatch.c:192-197 | the process ends at the tail of the wait list and is blocked on it |
| Dispatchers.Dispatcher.Next | src/c/kernel/dispatch.c:37-68 | takes the head of the highest list of the core that is not empty, keeps the lengths exact, and records the running process; nothing exactly when all four are empty |
| Dispatchers.Dispatcher.Yield | src/c/kernel/dispatch.c:447-455 | the current process goes through ready, then the core takes its best process; the lengths stay exact |
| Dispatchers.YieldTakesTurn | src/c/kernel/dispatch.c:447-455 | a process that yields runs on only if no other of its priority or above is queued on its core |
| Dispatchers.Dispatcher.Dispatch | src/c/kernel/dispatch.c:443-466 | what each return code does to the lists, and which process goes on |
| Dispatchers.Dispatcher.AlertOnLockedNr | src/c/kernel/dispatch.c:215-226 | with nr above 0 every matching process, in list order, is made ready with the lengths as they grow, the others stay in order, and the lengths stay exact; nr 0 does nothing |
| Dispatchers.Dispatcher.AlertOnLocked | src/c/kernel/dispatch.c:228-230 | the same for every matching process |
| Dispatchers.AlertDelivers | src/c/kernel/dispatch.c:215-226 | after an alert each queue has its share of the woken at its tail in waiting order, and no other wait list has changed |
| Dispatchers.Dispatcher.SchedPull | src/c/kernel/dispatch.c:125-159 | for any int lengths the loop ends, moves what PullScan says from the tail of the busiest core's idle list, restores every mask it swapped, and keeps the lengths exact |
| Semaphores.Semaphore.Init | src/c/kernel/semaphore.c:5-17 | the given count and no waiters, or ENOSYS and nothing changed when sharing is asked for |
| Semaphores.Semaphore.Wait | src/c/kernel/semaphore.c:30-46 | takes a unit if there is one, else the caller is last on the wait list and blocks; tasks still wait only at count 0 |
| Semaphores.Semaphore.TryWait | src/c/kernel/semaphore.c:48-59 | takes a unit exactly when 1 <= count <= 2^31, else EAGAIN: above 2^31 the signed test refuses |
| Semaphores.Semaphore.Post | src/c/kernel/semaphore.c:61-77 | without waiters the count grows modulo 2^32; with waiters the whole list is made ready in order and the count stays |
| Semaphores.Semaphore.GetValue | src/c/kernel/semaphore.c:79-88 | the count read as a signed integer |
| Semaphores.Semaphore.Destroy | src/c/kernel/semaphore.c:19-28 | every waiter is made ready, and the lock is still held on return |
| ThreadTables.IndexAgrees | src/c/kernel/thread.c:25-38 | searching a bucket finds what a linear search of the whole list finds, duplicates included |
| ThreadTables.HavingWithout | src/c/kernel/thread.c:195-196 | unlinking an entry from the list and from its bucket keeps the bucket the list restricted to that hash |
| ThreadTables.UniqueMore | src/c/kernel/thread.c:57-64 | a new pid leaves the pids unique exactly when no listed process has it |
| ThreadTables.PidsDiffer | src/c/kernel/thread.c:57-64 | however the cores interleave the increment of next_pid and what follows its second read, and whoever exits meanwhile, the first 2^32 calls of proc_create never give two listed processes one pid |
| ThreadTables.DifferentUnique | src/c/kernel/thread.c:121-127 | that is, no two processes on the list share a pid |
| ThreadTables.PidsRepeat | src/c/kernel/thread.c:57-64 | a run of 2^32 + 1 calls after which two listed processes have pid 1 |
| ThreadTables.HashSeparates | src/c/kernel/include/config.h:37-38 | pids that differ only in their lowest six bits never share a bucket |
| ThreadTables.HashReaches | src/c/kernel/include/config.h:37-38 | and such a block of 64 pids reaches every bucket |
| ThreadTables.HashMixes | src/c/kernel/include/config.h:37-38 | nor do pids that differ only in bits 8 to 13 share one |
| ThreadTables.DescendingUnique | src/c/kernel/thread.c:121-127 | a list whose pids go down from the front has no pid twice; calls of proc_create that come one after the other keep it so until next_pid wraps |
| ThreadTables.OutOfOrder | src/c/kernel/thread.c:57-127 | two calls that overlap list pid 1 in front of pid 2 |
| ThreadTables.ThreadTable.constructor | src/c/kernel/thread.c:11-19 | 64 empty buckets, first pid 1 |
| ThreadTables.ThreadTable.GetProcess | src/c/kernel/thread.c:25-38 | equals the linear search of process_list |
| ThreadTables.ThreadTable.TakePid | src/c/kernel/thread.c:57 | the increment is one step of the runs of PidsDiffer |
| ThreadTables.ThreadTable.Enlist | src/c/kernel/thread.c:58-131 | the rest of the call, other cores having done anything in between: EAGAIN exactly when next_pid now reads 0, else a new process with the pid taken before, first on the list and in its bucket, made ready on an allowed core; another step of those runs |
| ThreadTables.ThreadTable.ProcCreate | src/c/kernel/thread.c:40-131 | undisturbed by other cores: a new process with the taken pid, first on the list and in its bucket, made ready on an allowed core; EAGAIN exactly when the pid taken was 2^32 - 1; the pids go down along the list until next_pid wraps |
| ThreadTables.ThreadTable.Unregister | src/c/kernel/thread.c:195-196 | the process is gone from list and bucket and the others keep their order: a third step of the runs of PidsDiffer; after calls that came one after the other the pids still go down along the list |
| ThreadTables.ThreadTable.JoinTarget | src/c/kernel/thread.c:133-139 | EINVAL exactly for pid 0, an unknown pid or oneself; otherwise the process found |
| KernelTheorems.StepInv | src/c/kernel/dispatch.c:232-466 | every event of every core keeps the system invariant: owners, lengths, phases, placement, idle tasks, semaphores, joins |
| KernelTheorems.RunInv | src/c/kernel/dispatch.c:232-466 | the invariant holds after every run from a state that has it |
| KernelTheorems.OneOwner | src/c/kernel/dispatch.c:37-68 | in every reachable state a task that is held is held at exactly one place, once |
| KernelTheorems.OneCore | src/c/kernel/dispatch.c:466 | two cores in user mode never run the same task |
| KernelTheorems.HeldUntilExit | src/c/kernel/thread.c:149-204 | over any run, a task stays held from creation exactly until its own pthread_exit, and never returns |
| KernelBirths.BornAsAsked | src/c/kernel/thread.c:40-131 | over any run, from its creation to its first entry into user mode, a new task has the priority, mask and argument that were asked for, and stands only in queues and on cores that this mask allows |
| KernelBirths.StartsAsAsked | src/c/kernel/thread.c:68-94 | and it enters user mode on such a core with its argument in X0 |
| KernelBirths.PidTold | src/c/kernel/thread.c:57-64 | pthread_create leaves a pid that no task has had before where the caller wants it, and no other memory changes |
| KernelLife.Begun | src/c/kernel/thread.c:40-131 | a run from before boot in which a task made on core 0 for core 1, with argument 7, is in user mode there with 7 in X0 |
| KernelLife.WholeLife | src/c/kernel/thread.c:40-204 | its continuation: the creator joins the task, the task exits with 9, and the creator is back in user mode with answer 0, the pid and the 9 in its cells |
| KernelTheorems.Census | src/c/kernel/dispatch.c:150-181 | in every reachable state each length is the size of the core's queues, and lengths, tasks on cores or in creation, and blocked tasks add up to live_procs |
| KernelTheorems.SomeoneLives | src/c/kernel/dispatch.c:117 | live_procs is never 0 once a core has started, so the division in sched_pickcpu is defined |
| KernelTheorems.LookNeverFails | src/c/kernel/kinit.c:613-622 | next on a started core always finds at least the core's own idle task |
| KernelTheorems.NeverStuck | src/c/kernel/dispatch.c:67 | over any run no core ever gets NULL from next |
| KernelProgress.StepsExactly | src/c/kernel/dispatch.c:37-68 | in every reachable state each core has an event that can happen, unless it is in proc_join before the waiting.lock that an exiting task holds |
| KernelProgress.HolderSteps | src/c/kernel/thread.c:141-161 | the core that holds that lock always has one |
| KernelProgress.PosterSteps | src/c/kernel/semaphore.c:61-77 | and so has the core that holds a semaphore's lock, unless a destroy has kept it |
| KernelProgress.LetsGo | src/c/kernel/dispatch.c:215-226 | each lets go of the lock by steps of its own, at most one for each task that waits and one more |
| KernelTheorems.DispatchAllowed | src/c/kernel/dispatch.c:87-123 | every task dispatched on a core has that core in its mask at that moment (or an empty mask, on core 0), however stale the lengths read |
| KernelReady.ReadyRight | src/c/kernel/dispatch.c:104-182 | every task made ready, by whatever event, goes to the tail of the queue of its priority on the core that PickCpuRight describes for the lengths read; no other run queue of any core gains or loses a task |
| KernelReady.YieldStays | src/c/kernel/dispatch.c:115-182 | in particular, a task that yields on a core that has room for it goes to the tail of that core's own queue |
| KernelPriority.HighestTaken | src/c/kernel/dispatch.c:37-68 | over any run from before boot: when a core takes a task of some priority, it has looked into every list of a higher priority since it last had a task, and each was empty when it did |
| KernelAffinity.AffineStep | src/c/kernel/dispatch.c:316-329 | one event leaves a core with a task that its mask forbids there exactly when it is that task's SCHED_SET_AFFINITY with such a mask, or the core had such a task and keeps it |
| KernelAffinity.AffineFromBoot | src/c/kernel/dispatch.c:316-329 | over any run from before boot: a core ends with a task its mask forbids exactly when some SCHED_SET_AFFINITY barred the task and the core has neither let it go nor changed its mask since |
| KernelWitnesses.AstrayExists | src/c/kernel/dispatch.c:324-328 | a run from before boot after which core 0 goes on with a task whose mask names core 1 only |
| KernelTheorems.IdleListTied | src/c/kernel/dispatch.c:139 | whatever is on a core's idle list is tied to that core by its mask |
| KernelTheorems.PullIsDead | src/c/kernel/dispatch.c:125-159 | so pull migration as written can move no task in any reachable state |
| KernelInvariants.ArrivesSorted | src/c/kernel/dispatch.c:171-180 | a task made ready arrives in the list of its priority on a core its mask allows, for all values of the unlocked reads |
| KernelInvariants.FieldsKept | src/c/kernel/dispatch.c:316-329 | priorities and kinds never change; a mask becomes what its task's own SCHED_SET_AFFINITY asks for and does not change otherwise |
| KernelIdle.IdleMoves | src/c/kernel/kinit.c:613-622 | an idle task only ever moves between its own core and that core's idle list |
| KernelRuns.QueueStep | src/c/kernel/dispatch.c:37-68 | where a list holds a task, the core's scan is not yet below it and nothing above it is dispatched: one event of any core removes at most its head, by dispatching it on that core, and adds only at its tail |
| KernelRuns.RoundRobin | src/c/kernel/dispatch.c:37-68 | while nothing above is dispatched, the task at index k of a core's list is the (k+1)-th dispatched there, whatever all cores enqueue meanwhile |
| KernelSems.SemStep | src/c/kernel/semaphore.c:5-77 | every change of a count is matched in the history of posts and grants, and an initialisation after a destroy begins both anew |
| KernelCounts.Conservation | src/c/kernel/semaphore.c:5-77 | in every reachable state in which nobody is waking its waiters, destroyed semaphores included: count = initial + posts + extra wakes - grants modulo 2^32, all since the last sem_init, exactly so until 2^32 units were put in; when nr is honoured only a destroy makes extra wakes |
| KernelCounts.WaitersMeanEmpty | src/c/kernel/semaphore.c:30-77 | a non-empty wait list implies count 0, in every reachable state of either variant |
| KernelCounts.TryWaitAnswers | src/c/kernel/semaphore.c:48-59 | in every reachable state, told by the history: sem_trywait takes a unit exactly when 1 to 2^31 are left (initial + posts + extra wakes - grants); otherwise it answers EAGAIN and changes nothing, though more than 2^31 be left |
| KernelWitnesses.RefusesWithUnits | src/c/kernel/semaphore.c:48-59 | a run from before boot after which sem_trywait refuses a semaphore with 2^31 + 1 units |
| KernelWakes.WakeOrder | src/c/kernel/dispatch.c:215-226 | while a core holds the lock of a wait list to wake its tasks, it takes them from the front, nobody joins and nobody else takes one, under every interleaving |
| KernelQueues.Fifo | src/c/kernel/dispatch.c:192-226 | over any run of all cores and for every wait queue: what it held, with what came to it during the run, is what was taken from it, with what it holds at the end, in this order |
| KernelQueues.SemFifo | src/c/kernel/semaphore.c:19-77 | over any run: the tasks made ready by posts and destroys of a semaphore are those already waiting and then those that its sem_wait blocks, in the order of their calls |
| KernelQueues.JoinFifo | src/c/kernel/thread.c:133-161 | over any run: proc_exit makes joiners ready in the order in which they went to sleep |
| KernelQueues.ServedInTurn | src/c/kernel/semaphore.c:19-77 | over any run from before boot: the k-th task made ready is the k-th that had to wait, for a semaphore or for a task |
| KernelQueues.ReachesScheduler | src/c/kernel/dispatch.c:167-226 | to be made ready is to stand at the tail of the run queue of one's priority on an allowed core |
| KernelWakes.PostServes | src/c/kernel/semaphore.c:61-77 | a post with n waiters, lock to unlock: as written all n are woken and n grants recorded; with nr honoured exactly the first is |
| KernelWakes.PostWakesOne | src/c/kernel/semaphore.c:61-77 | one post that finds waiters, from before its lock to its unlock, keeps the balance as written exactly when it finds one |
| KernelWakes.DestroyServes | src/c/kernel/semaphore.c:19-28 | a destroy that finds waiters, under every interleaving: all are woken in order and none is left, the count stays, and the lock stays taken, whether or not nr is honoured |
| KernelWakes.RetiredStep | src/c/kernel/semaphore.c:5-28 | of a destroyed semaphore no call but sem_init goes on, nobody waits, and no event changes it; sem_init makes it as good as new |
| KernelWakes.RetiredRun | src/c/kernel/semaphore.c:5-28 | so it stays over any run without that sem_init |
| KernelExamples.DestroyExists | src/c/kernel/semaphore.c:19-28 | a run from before boot after which a semaphore that had two waiters has been destroyed |
| KernelExamples.ReuseExists | src/c/kernel/semaphore.c:5-28 | its continuation: initialised again with 5, the semaphore has 5 units and its lock is free |
| KernelLaw.SurplusStep | src/c/kernel/semaphore.c:5-77 | every event adds to the surplus of wakes, made or under way, exactly the waiters beyond the first that a post finds and all that a destroy finds; sem_init begins at 0 |
| KernelLaw.LawExactly | src/c/kernel/semaphore.c:5-77 | over any run from before boot, destroys and new initialisations included, with fewer than 2^32 units put in since the last sem_init: count + grants = initial + posts at the end exactly when since then no post found more than one waiter and no destroy found any |
| KernelHistory.HistoryTold | src/c/kernel/semaphore.c:5-77 | over any run from before boot the recorded history is that of the events: as many posts as there were sem_post calls since the last sem_init, as many grants as sem_waits that went on at once, sem_trywaits that answered 0 and waiters woken |
| KernelHistory.LawInFull | src/c/kernel/semaphore.c:5-77 | the law as written, told by the events alone: the count is initial value plus posts, plus the waiters beyond the first that posts found and all that destroys found, less units given; modulo 2^32, exactly below that |
| KernelHistory.LawIfBounded | src/c/kernel/semaphore.c:5-77 | with nr honoured: initial value plus posts less units given |
| KernelWakes.JoinerServed | src/c/kernel/thread.c:154-161 | the woken joiner returns 0, its status cell has the exit value, and it is at the tail of an allowed run queue |
| KernelWakes.ExitServes | src/c/kernel/thread.c:149-161 | proc_exit, lock to unlock, wakes exactly the tasks that had joined, in order, and leaves none |
| KernelMemory.ExitValueDelivered | src/c/kernel/thread.c:133-161 | over any run from before boot: a task that has joined another and is woken has been woken because that one exited; the value passed to pthread_exit is now where the joiner's pointer shows, if it gave one, no other memory has changed, and its call answers 0 |
| KernelMemory.ExitsOnce | src/c/kernel/thread.c:149-204 | no task exits twice, so that value is the only one |
| KernelMemory.MemoryKept | src/c/kernel/thread.c:57-161 | a word of user memory changes only by a pthread_create that wants the pid there, or by the wake of a joiner that wants the exit value there |
| KernelJoins.OrphanStep | src/c/kernel/thread.c:133-145 | an event leaves no joiner behind exactly when it is not a proc_join that sleeps after its target has finished waking |
| KernelJoins.LeftBehind | src/c/kernel/thread.c:133-161 | a joiner left behind is never woken by any event |
| KernelRuns.JoinsSafe | src/c/kernel/thread.c:133-204 | over any run, no task waits for an exited one at the end exactly when every proc_join slept in time |
| KernelRuns.AtomicJoinsSafe | src/c/kernel/thread.c:133-204 | were the two calls atomic, no run would leave such a task |
| KernelExamples.OrphanExists | src/c/kernel/thread.c:133-161 | a run from before boot that leaves a task joined to an exited one |
| KernelExamples.OvergrantExists | src/c/kernel/semaphore.c:61-77 | a run from before boot after which count + grants differs from initial + posts |
| KernelReturns.AnswerDelivered | src/c/kernel/dispatch.c:466 | over any run, what a task finds in X0 is what its call answered, unless a late store of a sem_wait came in between: then it is 0 |
| KernelReturns.BlockedReturns | src/c/kernel/semaphore.c:38-45 | over any run, a sem_wait that blocks returns 0 exactly when such a store came before the task entered user mode, or its ret was 0 already |
| KernelReturns.GrantedReturns | src/c/kernel/semaphore.c:33-38 | a sem_wait that is granted a unit at once returns 0 |
| KernelAnswers.ZeroReturns | src/c/kernel/semaphore.c:5-77 | over any run: pthread_create, sched_setaffinity, sem_init, sem_post with or without waiters, sem_destroy, and a sem_wait that finds a unit always answer 0 |
| KernelAnswers.JoinReturns | src/c/kernel/thread.c:133-161 | over any run: pthread_join answers EINVAL exactly for pid 0, a task not in the table and the caller itself, unless a late store comes in between; otherwise 0 |
| KernelAnswers.TryWaitReturns | src/c/kernel/semaphore.c:48-59 | over any run: sem_trywait answers 0 exactly when its history leaves 1 to 2^31 units or a late store comes in between, otherwise EAGAIN |
| KernelAnswers.ReschedReturns | src/c/kernel/dispatch.c:313-315 | over any run: a yield, or a tick, answers what the call before answered |
| KernelWitnesses.StaleReturn | src/c/kernel/semaphore.c:38-45 | a run from before boot in which sem_wait returns EAGAIN, the answer of the call before |
| KernelWitnesses.SpoiledAnswer | src/c/kernel/semaphore.c:38-59 | the store that comes too late then makes a sem_trywait that took nothing return 0 |
| KernelAlone.ScanFindsTop | src/c/kernel/dispatch.c:37-68 | with nobody in between, the looks of one core take the head of the highest non-empty list, after exactly as many looks as there are lists down to it |
| KernelAlone.WakesAsOne | src/c/kernel/dispatch.c:207-226 | with nobody in between, the wakes of proc_exit leave the lists and lengths that the one-core alert leaves |
| Contexts.Machine.SaveRegs | src/asm/vectors64.s:43-59 | X0 to X29 are on the stack in order, on top of what was there, and nothing else in memory has changed |
| Contexts.Machine.SaveContext | src/asm/vectors64.s:4-15 | the 34 words at the new SP are SPSR, ELR, X0 to X30 as they were at the interrupt, and a zero, though X9, X10 and X30 are used on the way |
| Contexts.Machine.LoadRegs | src/asm/vectors64.s:62-78 | X0 to X29 are the next thirty words of the stack |
| Contexts.Machine.LoadContext | src/asm/vectors64.s:29-36 | X0 to X30, ELR, SPSR are exactly those of the frame at SP, which moves up by its size |
| Contexts.Machine.EnterKernel | src/c/kernel/context.c:6-16 | the frame field points at a frame holding the interrupted registers, and no other memory has changed |
| Contexts.Machine.LeaveKernel | src/c/kernel/context.c:21-31 | the registers are those of the frame, with the return value in X0 |
| Contexts.AlignIsMask | src/c/kernel/context.c:33-35 | the mask with the 32-bit negation is p mod 2^32 less p mod 16 |
| Contexts.AlignExact | src/c/kernel/context.c:33-35 | align gives the multiple of 16 just below exactly for addresses below 2^32 |
| Contexts.Machine.FirstDispatch | src/c/kernel/thread.c:68-85 | for every stack below 2^32 the first frame is inside it, and the task starts at start_routine with its argument in X0, pthread_exit in X30 and an aligned SP inside the stack |
| ContextRuns.GoodNext | src/c/kernel/context.c:6-31 | every step of every core keeps each parked frame in its task's stack and each task on at most one core or parked |
| ContextRuns.Resumes | src/asm/vectors64.s:4-36 | four cores on one memory: over any run, a task interrupted on one core and next resumed on any core has X1 to X30, SP, ELR and SPSR as they were and its return value in X0 |
| KernelContexts.Induces | src/c/kernel/dispatch.c:466 | every run of the step system from before boot is a run of ContextRuns in which the same tasks are resumed on the same cores in the same order, each from a frame parked for it; at the end the two agree on who is in user mode and on the values to return |
| KernelContexts.AgreesCompute | src/asm/vectors64.s:4-36 | what tasks compute in user mode leaves the two in agreement |
| KernelContexts.SwitchesToParked | src/c/kernel/dispatch.c:466 | the task that a core is about to switch to is in user mode on no core |
| ContextRuns.X0Kept | src/c/kernel/context.c:21-23 | in such a run the whole register state survives exactly when the return value is what X0 held |
| ContextRuns.TimerTakesX0 | src/c/kernel/context.c:21-23 | from every state: a task that has put anything else into X0 since its last call loses it to one timer interrupt |
| ContextRuns.SwitchTasks | src/c/kernel/context.c:6-31 | EnterKernel, a handler that leaves parked frames alone, and LeaveKernel are the three steps of these runs |
| SpinLocks.CallOrdered | src/c/kernel/dispatch.c:125-213 | every call, the timer pull, sem_init and sem_destroy included, takes locks in rank order and none twice |
| SpinLocks.CallHolds | src/c/kernel/dispatch.c:125-230 | which locks each call holds after each thing it does to a lock: the tables' two locks together in proc_create, the queue of each woken task under the lock of the wait queue, and so on, call by call |
| SpinLocks.TenureHeld | src/c/kernel/dispatch.c:125-230 | the same, told one prefix of the call at a time |
| SpinLocks.InitFrees | src/c/kernel/semaphore.c:11 | sem_init makes the lock free whoever holds it, and does nothing else to locks |
| KernelLocks.Covered | src/c/kernel/dispatch.c:37-230 | every event of the step system, but sem_init and the unlinking in proc_exit, is covered by locks: whatever lists, lengths, semaphores or tables it reads or changes, there is one moment in its call at which the locks of all of them are held |
| KernelLocks.PartOfSome | src/c/kernel/dispatch.c:232-466 | and every event but a pull is part of some call |
| KernelLocks.InitHoldsNone | src/c/kernel/semaphore.c:5-17 | the first exception: sem_init never holds a lock |
| KernelLocks.ExitWithoutTables | src/c/kernel/thread.c:149-204 | the second: proc_exit never holds a lock of the tables |
| SpinLocks.BeginsWell | src/c/kernel/dispatch.c:125-213 | four cores about to run any sequences of calls start orderly, every lock free |
| SpinLocks.ExclusiveAfter | src/c/multicore.c:4-11 | a lock has at most one holder and its flag is set exactly while it has one: one turn of one core keeps this, unless it initialises the lock while it is held or returns from destroying it, and then it does not |
| SpinLocks.MutualExclusion | src/c/multicore.c:4-11 | under every interleaving a lock has at most one holder and its flag is set exactly while it has one, throughout a run, exactly when no turn initialises it while it is held or returns from destroying it |
| SpinLocks.KernelLocksExclusive | src/c/multicore.c:4-11 | whatever the cores call, this holds of the locks of run queues, wait queues, process table and library throughout every run |
| SpinLocks.SomeoneCanGo | src/c/multicore.c:4-11 | if a core spins on a lock that has an owner, some core can proceed |
| SpinLocks.CanFinish | src/c/multicore.c:4-11 | from every orderly state there are turns after which every core has finished all its calls or spins on a destroyed semaphore, and nobody holds a lock |
| SpinLocks.AllCanFinish | src/c/multicore.c:4-11 | if no semaphore is destroyed every core can finish, and then every lock is free |
| SpinLocks.DestroyStrands | src/c/kernel/semaphore.c:19-28 | under every interleaving a sem_destroy that has run leaves the semaphore locked and held by nobody, unless a sem_init of it ran in between |
| SpinLocks.DestroyRuns | src/c/kernel/semaphore.c:19-28 | and from every state in which the locks it takes are free it can run |
| SpinLocks.OwnerlessRun | src/c/kernel/semaphore.c:5-28 | over any turns from then on the flag is clear at some point exactly when a sem_init of the semaphore has run; until then nobody takes the lock |
| PullLocks.PullOrdered | src/c/kernel/dispatch.c:125-159 | a pull keeps to the lock order exactly when it moves no task |
| PullLocks.DeadlocksExactly | src/c/kernel/dispatch.c:125-159 | were pulls to move tasks: four cores can come to a stop exactly when their programs hold a ring of cores each of which pulls from the one before |
| PullLocks.DeadlockLasts | src/c/multicore.c:4-7 | from such a stop no number of turns changes anything |
| WorkPool.ExactlyOnce | src/c/kernel/kinit.c:221-256 | in every run a produced item is queued, in progress at one worker, or done, and only one of these; items are taken in production order; nobody leaves before the flag is set |
| WorkPool.DrainedExactly | src/c/kernel/kinit.c:230-242 | when all workers have left, the queue is empty exactly when some worker last found it empty after everything was produced |
| WorkPool.NotDrained | src/c/kernel/kinit.c:230-242 | a run as written in which the only worker leaves with an item queued |
| WorkPool.DrainedIfAtOnce | src/c/kernel/kinit.c:230-242 | were the flag read before the lock is released, the queue would always be drained |

## Left out

- Dispatchers.Dispatcher.ListDelInit: takes the process out of the sequence that holds it; the pointer operation is `Lists.HeapDelInit`, and `TaskRings.DelInitOnRings` joins the two.
- Dispatchers.Dispatcher.AlertOnLockedNr: the condition is a pure test; the one in `proc_exit`, which also writes the joiner's return value and status, is a step of `Kernel` (`KernelWakes.JoinerServed`).
- Dispatchers.Dispatcher.AlertOnLocked: the same.
- ThreadTables.ThreadTable.ProcCreate: allocation always succeeds, as the code loops for ever when it does not; the frame it builds is `Contexts.Machine.FirstDispatch`. It is the call that no other core disturbs; one that others disturb is `TakePid`, then anything, then `Enlist`.
- KernelTheorems.HeldUntilExit: pids in the step system do not wrap; what wrap-around does is in `ThreadTable`.
- TaskRings.AlertOnRings: the queue that each task goes to is a parameter; that it is the one `sched_pickcpu` names for the lengths as they grow is `Dispatchers.Dispatcher.AlertOnLockedNr`, on lists.
- The step system initialises a semaphore for the first time or after a destroy has ended; `sem_init` of a semaphore in use, which loses its waiters, shows only in its lock (`SpinLocks`).
- Contexts.Machine.FirstDispatch: the handler's use of SP_EL1 and of its own registers is not modelled, only that memory outside the saved frames may change.
- ContextRuns.Resumes: assumes that nobody but the switching code writes into the frame of a parked task, that an interrupt finds 272 bytes of stack left, and that other cores see the stores of one save as one step.
- Writes to the current task's `ret` that the code makes just after dropping a lock belong to the step of that lock section, but for the one of a blocking sem_wait: in the others the task is still on its core, which alone can take it to user mode.
- Affinity masks are values: a mask that its owner changes through the pointer it passed is not modelled.
- ThreadTables.ThreadTable.Unregister: `proc_exit` unlinks a task from list and bucket without the table locks; the model makes this one step.
- `list_splice` without the re-initialisation over a whole heap (`Lists.Splice` has the two rings), `list_entry` arithmetic, and the `hlist_*` family: nothing in the modelled parts uses them.
- `sleep.c`: unreachable, as SYS_SLEEP is not dispatched and the global tick is commented out; only `proc_tick`, which asks for a reschedule, is used.
- Devices, boot code, page tables, `printf`, `malloc`, performance counters, tracing and the matrix kernels: no part of the scheduling.
- The decoding of system call arguments: the calls arrive as events with their arguments.
- Weak memory ordering: lock boundaries are taken to be sequentially consistent.
- Fairness of the spinlocks: `CanFinish` says the cores can all go on, not that each one does under every schedule.
- PullLocks.DeadlocksExactly: about programs that destroy no semaphore, as a core can come to spin on a destroyed one before it pulls.
