# Pandos, verified

A Dafny model of the Pandos kernel for the uMPS3 machine, with proofs of what its parts promise:
process queues and trees (phase 1), the nucleus (phase 2), the demand pager and its backing store
(phase 3), the disk drivers (phase 4) and the delay facility (phase 5).

`dafny verify dfyconfig.toml` checks everything.

## How it is built

The code changes global state in place, so each core file has two halves: a specification on values,
about which the theorems are proved, and classes or methods that do what the C code does and are
proved to compute exactly that specification. The handlers of the nucleus run on the pointers
themselves: `Kernels.Kernel.Valid` ties every link of every pcb and descriptor to one value of the
nucleus state, and each handler is proved to take that value where the specification says, and the
saved states of the processes, the verdict and the loaded state with it.

| files | what they hold |
|---|---|
| `ProcessQueues` | circular doubly linked queues, child lists and the pcb free list, on the heap |
| `SemaphoreLists`, `ActiveSemaphores` | the active semaphore list as a value, and its linked descriptors on the heap |
| `NucleusState`, `NucleusSteps`, `Termination` | what each exception makes of the nucleus state; the invariant and that every handler keeps it; the recursion of termination |
| `Pointers`, `KernelParts`, `Kernel`, `KernelSteps` | one heap that holds ready queue, free list, process tree and semaphore list; the handlers as imperative code over it and the global variables; that each is one step of the nucleus |
| `Contexts`, `ContextRuns` | what a pcb keeps of a process that does not run; runs with saved states: who resumes where, and what accounts hold |
| `Effects` | what each exception changes, and that it changes nothing else |
| `Runs`, `SafeRuns`, `LostProcesses` | whole runs from boot: in safe ones nobody is lost, and runs that lose somebody when a guard is missing |
| `Fairness`, `Mutex`, `Locks` | safe runs: nobody is overtaken, a semaphore is a lock |
| `Paging`, `PagingProofs`, `Faults`, `Replacement`, `Pager` | the steps of the fault handler, that paging is invisible under any interleaving, what one fault makes of frames and tables, the order of replacement, and the pager as imperative code |
| `DiskGeometry`, `Disks` | the two sector mappings, the command words, block transfers, and the set-up of the backing store |
| `DelayLists`, `DelayRuns`, `DelayDaemon` | the delay list as a value, runs of the facility, and its linked descriptors on the heap |
| `Sequences` | facts about sequences that the others share |

A system call or interrupt is one atomic step, because each ends in a return to the interrupted
process or in the scheduler, and neither comes back. In the pager the steps are finer: the fault
handler loses the processor at every P and every disk operation, so each of its actions is a step of
its own, and loads, stores, refills, faults and exits of other processes may fall between any two.
MAXPROC, the swap pool size and the disk dimensions are arbitrary positive numbers, and the number
of processes is arbitrary.

## What the code does otherwise than it promises

- The set-up of the backing store reads flash device d into a buffer of its own and copies it to disk
  buffer d, but the disk write always takes the buffer of disk 0 (phase3/initProc.c:170). The copy is
  right for the first process only: `SafeNumberOfProcesses` gives the exact number that is safe,
  `TwoDevicesFail` a failing content, `FaithfulIff` the contents that escape. The shipped
  configuration has one process.
- outBlocked does not give an emptied descriptor back (phase1/asl.c:209), so insertBlocked can fail
  with nobody waiting anywhere (`EmptiedDescriptorStays`), and P ignores the failure: the caller then
  is in no queue at all, exactly in that case (`PlacedIffBlocked`). `OneAddressTooManyLoses` is a run
  from boot that loses a process in this way with MAXPROC + 1 semaphore addresses; at most MAXPROC
  addresses (`FewAddressesSuffice`, `RunKeeps`) exclude it, so that bound is tight (`BoundIsTight`).
  So does a run whose deaths leave no descriptor empty (`NonEmptyRunKeeps`); nothing but a death can
  (`OnlyDeathsEmpty`).
- A wait for a device whose semaphore is positive gives up the processor without joining any queue
  (phase2/exceptions.c:351-373): `PlacedIffDeviceOwes`, and `UnsolicitedInterruptLoses` for a run.
- A device interrupt passes the address of its semaphore to V in register a1 of the saved exception
  state (phase2/interrupts.c:202 and 260) and then loads that state: the interrupted process goes on
  with a1 overwritten. It notices nothing exactly when a1 held that address (`DeviceSparesIff`); a
  clock tick spares every register (`GoesOn`).
- Every call that keeps the processor charges the whole time since the dispatch, and the timer is not
  loaded again, so a later charge of the same stint repeats it (phase2/exceptions.c:132): the account
  is exact if and only if no earlier call of the stint was charged anything (`StintIsExactIff`). At the
  end of a time slice the timer is loaded again before it is read (phase2/interrupts.c:305-311), so the
  slice itself is not charged.
- Replacement is first in, first out only while frames are just filled (`ReplacementOrder`). When a
  process has freed frames, a fill away from the pointer keeps the order exactly if no taken frame lies
  further round (`FillingKeepsOrderIff`); `FreesBreakTheOrder` is a pool of three frames or more where
  the second newest page goes next.
- The sector number equal to the capacity passes the guards of both drivers (phase4/devSupport.c:25,
  phase3/vmSupport.c:203), and so does every negative one, because the register is signed. A user
  request for the capacity reaches sector 0, the pager's would leave the disk (`CapacityItself`); a
  user request for minus the capacity reaches sector 0 too (`NegativeCapacity`). The mappings are
  faithful exactly from 0 to below the capacity.
- DELAY multiplies seconds by a million in 32 bits: the stored time is the one asked for exactly from
  -2147 to 2147 seconds (`WakeTimeExactIff`); 4295 seconds is stored as a thirtieth of a second, and
  -2148 seconds passes the test for negative times (`WakeTimeMayWrap`).
- The daemon's loop stops at the tail dummy only because the clock is below the greatest signed
  integer; `RunsOffTheEndIff` says exactly when it does not stop, `StoppedClockRunsOff` that a clock
  standing there runs every list off its end.
- The refill handler and the fault handler compute page-table indices differently; they agree exactly
  on the pages of `HandlersAgreeIff`, and the page after the last code page shares the entry of the
  stack (`EntryIsForPageIff`).

## Model

| member | source | states |
|---|---|---|
| ProcessQueues.InsertProcQ | phase1/pcb.c:152-167 | the links now describe the old queue with the new pcb at its end; only queue links are written |
| ProcessQueues.RemoveProcQ | phase1/pcb.c:182-201 | NULL on an empty queue, else the head, and the links describe the rest |
| ProcessQueues.OutProcQ | phase1/pcb.c:217-254 | removes the pcb wherever it stands and clears its links, or returns NULL and changes nothing |
| ProcessQueues.FindInQueue | phase1/pcb.c:224-232 | the search round the circle ends, at the pcb if and only if it is in the queue |
| ProcessQueues.HeadProcQ | phase1/pcb.c:267-275 | the head, or NULL |
| ProcessQueues.InsertChild | phase1/pcb.c:304-323 | the child list grows at its end, and the child names its parent; queue links are not written |
| ProcessQueues.RemoveChild | phase1/pcb.c:337-358 | the first child leaves and is orphaned, or NULL |
| ProcessQueues.OutChild | phase1/pcb.c:374-422 | the child leaves its parent whichever child it is, and only its own parent pointer is written; NULL without a parent |
| ProcessQueues.FindInFamily | phase1/pcb.c:390-398 | the search round the siblings ends, at the child if and only if it is there |
| ProcessQueues.PcbPool.constructor | phase1/pcb.c:94-105 | the whole table becomes the free chain, in order |
| ProcessQueues.PcbPool.FreePcb | phase1/pcb.c:31-35 | the pcb becomes the head of the free chain |
| ProcessQueues.PcbPool.AllocPcb | phase1/pcb.c:50-81 | the head of the free chain with every field cleared: links, processor state, time, semaphore, support structure; NULL when there is none |
| SemaphoreLists.InsertIsAppend | phase1/asl.c:135-151 | as a map from addresses to queues, insertBlocked appends to one queue and touches no other; it fails exactly when there is no descriptor for the address and none unused |
| SemaphoreLists.RemoveIsTail | phase1/asl.c:165-187 | removeBlocked takes the head of one queue, gives the descriptor back exactly when that empties it, and touches no other queue |
| SemaphoreLists.OutIsWithout | phase1/asl.c:200-210 | outBlocked takes one process out of one queue; the set of descriptors stays |
| SemaphoreLists.EmptiedDescriptorStays | phase1/asl.c:200-210 | a list of one descriptor on which an emptied descriptor makes the next insertBlocked fail |
| SemaphoreLists.SlotDivides | phase1/asl.c:113-120 | the traversal passes exactly the descriptors with smaller addresses |
| SemaphoreLists.ActiveIff | phase1/asl.c:113-120 | on an ascending list the traversal finds a descriptor if and only if there is one |
| ActiveSemaphores.ActiveSemaphoreList.constructor | phase1/asl.c:82-99 | two dummies linked to each other, all other descriptors unused |
| ActiveSemaphores.ActiveSemaphoreList.TraverseAsl | phase1/asl.c:113-120 | the predecessor of the place of an address; the tail is recognised by its own address wherever that lies |
| ActiveSemaphores.ActiveSemaphoreList.AllocSemd | phase1/asl.c:53-69 | the first unused descriptor with its fields set, or NULL |
| ActiveSemaphores.ActiveSemaphoreList.FreeSemd | phase1/asl.c:35-41 | the descriptor becomes the first unused one |
| ActiveSemaphores.ActiveSemaphoreList.InsertBlocked | phase1/asl.c:135-151 | the linked list refines the value operation; list and pool stay two chains that make up the table; the result tells failure exactly |
| ActiveSemaphores.ActiveSemaphoreList.RemoveBlocked | phase1/asl.c:165-187 | the same for removeBlocked; the process it returns is the head, and only its pcb stops naming a semaphore |
| ActiveSemaphores.ActiveSemaphoreList.OutBlocked | phase1/asl.c:200-210 | the same for outBlocked; NULL exactly when the process is not in the queue its pcb names |
| ActiveSemaphores.ActiveSemaphoreList.HeadBlocked | phase1/asl.c:222-231 | the head of the queue, or NULL |
| Kernels.Kernel.Boot | phase2/initial.c:67-108 | after main, links and variables: one process running, all other pcbs on the free chain, no active semaphore, all 49 device semaphores 0, nothing else changed; the first process has the entry point in pc and t9, the top of memory in sp, interrupts and timer on, and 0 elsewhere |
| Kernels.Kernel.Enready | phase1/pcb.c:152-167 | insertProcQ on the ready queue of the one heap: the free chain, every semaphore queue and the tree do not notice |
| Kernels.Kernel.Dequeue | phase1/pcb.c:182-201 | removeProcQ on it, likewise; its head becomes the running process |
| Kernels.Kernel.OutReady | phase1/pcb.c:217-254 | outProcQ on it, likewise, also when the process is not in it |
| Kernels.Kernel.AllocPcb | phase1/pcb.c:50-81 | allocPcb clears the first free pcb, and no pcb of the tree is a free one |
| Kernels.Kernel.FreePcb | phase1/pcb.c:31-35 | freePcb of a pcb that stands nowhere and has no parent |
| Kernels.Kernel.RemoveChild | phase1/pcb.c:337-358 | removeChild changes one family of the tree and no queue |
| Kernels.Kernel.InsertChild | phase1/pcb.c:304-323 | insertChild, likewise |
| Kernels.Kernel.OutChild | phase1/pcb.c:374-422 | outChild, likewise |
| Kernels.Kernel.InsertBlockedPcb | phase1/asl.c:135-151 | insertBlocked on the one heap: ready queue, free chain and tree do not notice, and a failure changes nothing |
| Kernels.Kernel.RemoveBlockedHead | phase1/asl.c:165-187 | removeBlocked, likewise; the first waiter then names no semaphore |
| Kernels.Kernel.OutBlockedPcb | phase1/asl.c:200-210 | outBlocked, likewise; NULL exactly when the process is not in the queue its pcb names |
| NucleusSteps.BootedInv | phase2/initial.c:67-108 | the nucleus invariant holds after boot |
| Effects.BootStep | phase2/initial.c:67-108 | process 0 runs alone and without kin, the other pcbs are free in order, no descriptor is in use, every device semaphore is 0 and every other word as it was |
| Kernels.Kernel.Scheduler | phase2/scheduler.c:46-69 | exactly when the ready queue is not empty its head runs, and the state saved for it is loaded; else HALT without a process, WAIT with a soft-blocked one, PANIC otherwise; nothing that is saved changes |
| Kernels.Kernel.SysCreate | phase2/exceptions.c:219-254 | -1 and no effect without a free pcb, else a ready process that is the last child of the caller, with the given processor state and support structure and no time used; the caller is charged and goes on past the call with the answer in v0 |
| Kernels.Kernel.HelperTerminateProcess | phase2/exceptions.c:173-203 | the recursion over the pointers ends; exactly a subtree dies; every queue keeps the others in order; semaphores and counters change by exactly the dead waiters; all links are again those of the state; no processor state, time or support structure is written |
| Kernels.Kernel.ReapChildless | phase2/exceptions.c:180-202 | the end of a process without children: it leaves its parent, its semaphore and the ready queue for the free list |
| Kernels.Kernel.Unblock | phase2/exceptions.c:182-196 | a killed waiter repays its debt on a semaphore of the processes, or the soft-block count on a device semaphore |
| Kernels.Kernel.SysTerminate | phase2/exceptions.c:268-273 | SYS2 kills the caller's subtree and schedules; nothing that is saved of anybody changes |
| Kernels.Kernel.SysPasseren | phase2/exceptions.c:287-307 | P, with the result of insertBlocked ignored; a caller that need not wait is charged and goes on, another is charged, saved past the call, and the next process is loaded; nobody else's saved state changes |
| Kernels.Kernel.SysVerhogen | phase2/exceptions.c:321-337 | V hands over to the first waiter, and returns it; the caller is charged and goes on, and nothing else that is saved changes |
| Kernels.Kernel.HelperVerhogen | phase2/interrupts.c:52-70 | the V of the interrupt handlers: the first waiter becomes ready and is returned, and nothing that is saved changes |
| Kernels.Kernel.SysWait | phase2/exceptions.c:351-416 | SYS5 and SYS7: the caller gives up the processor whether or not it was blocked, charged and saved past the call; nobody else's saved state changes |
| Kernels.Kernel.OnDevice | phase2/interrupts.c:181-286 | a device interrupt is a V that lowers the soft-block count exactly when it released somebody, who then finds the device status in v0; nothing else that is saved of anybody changes; the interrupted process goes on with the address of the semaphore in a1 |
| Kernels.Kernel.OnLocalTimer | phase2/interrupts.c:303-315 | the running process goes to the end of the ready queue, saved where it was interrupted and charged what the timer shows after it was loaded again; the next is loaded |
| Kernels.Kernel.HelperUnblockProcess | phase2/interrupts.c:157-165 | the first waiter leaves its semaphore, with the soft-block count |
| Kernels.Kernel.OnPseudoClock | phase2/interrupts.c:329-346 | the loop wakes every waiter of the clock, in order, and the semaphore becomes 0; nothing that is saved changes, and the interrupted process goes on as it was |
| KernelSteps.Handle | phase2/exceptions.c:475-518 | each exception, handled on the pointers, is one move of the machine: the step of the nucleus, what is then saved of every process, what is loaded, and the verdict; it keeps the invariant under the two guards |
| KernelSteps.StepCanHappen | phase2/exceptions.c:475-518 | no step of the nucleus is missing: each is an exception that can be handled |
| Effects.WordsStep | phase2/exceptions.c:287-373 | a P takes one from its own semaphore and a V adds one, a tick clears the clock, deaths pay back the dead waiters of a process semaphore; every other word stays |
| Effects.QueuesStep | phase1/asl.c:135-210 | a P that finds nothing appends its caller to one queue if a descriptor is to be had, a V on a semaphore that owes takes the first waiter, a tick empties the queue of the clock, deaths take the dead; every other queue stays |
| Effects.CreateStep | phase2/exceptions.c:219-254 | the first free pcb becomes a childless process, last among the children of the caller; no other entry of the tree changes |
| Effects.DeathStep | phase2/exceptions.c:173-203 | exactly a subtree leaves the living, each survivor keeps its parent, its semaphore and its other children in order, and the dead lie on top of the free list |
| Effects.FreeStays | phase1/pcb.c:50-81 | a free pcb stays free unless it is the first and a process is created |
| Effects.TreeStep | phase2/exceptions.c:219-273 | nothing but SYS1 and SYS2 changes the process tree, the free list or the process count |
| Effects.ReadyStep | phase2/scheduler.c:46-69 | whoever becomes ready queues up behind the others, in which order is said for each exception; the dead leave; when the processor is given up the first of the queue has it, else its owner keeps it |
| ContextRuns.OthersKeepTheirs | phase2/interrupts.c:181-286 | nothing that is saved of a living process that does not run changes, but v0 of the waiter that a device releases |
| ContextRuns.NewcomerStarts | phase2/exceptions.c:219-254 | a process comes to life by SYS1 only, with the state and support structure named there and no time used |
| ContextRuns.RunnerIsCharged | phase2/exceptions.c:110-132 | the running process keeps its support structure and is charged, by a call or the end of its slice only, the time since the timer was loaded |
| ContextRuns.GoesOn | phase2/exceptions.c:128-135 | a call that keeps the processor returns 4 past it, with SYS1's answer in v0; an interrupted process goes on where it was; no register changes but a1 at a device interrupt |
| ContextRuns.DeviceSparesIff | phase2/interrupts.c:259-286 | a device interrupt leaves the interrupted process as it was if and only if a1 held the address of the semaphore |
| ContextRuns.ResumesWhereItStopped | phase2/exceptions.c:100-115 | in every safe run from boot a process that gave up the processor is next loaded with every register as it was, 4 past its call or where its slice ended; only after SYS5 v0 holds the status of the interrupt of that device that ended the wait |
| ContextRuns.StartsAsTold | phase2/exceptions.c:229-238 | in every safe run a new process is first loaded in the state its parent named, whatever happens in between |
| ContextRuns.AccountIsSum | phase2/exceptions.c:110-132 | in every safe run the account of a living process grows by exactly its own charges, and its support structure stays |
| ContextRuns.StintIsExactIff | phase2/exceptions.c:128-135 | a stint is charged at least its length, and exactly that if and only if no earlier call in it was charged anything |
| NucleusSteps.ScheduleKeeps | phase2/scheduler.c:46-69 | dispatching keeps every process in exactly one place |
| NucleusSteps.CreateProcessKeeps | phase2/exceptions.c:219-254 | creation keeps the invariant: places, links, counters, forest, balance |
| NucleusSteps.PasserenKeeps | phase2/exceptions.c:287-307 | P keeps the invariant when blocking succeeds |
| NucleusSteps.VerhogenKeeps | phase2/exceptions.c:321-337 | V keeps the invariant |
| NucleusSteps.WaitOnKeeps | phase2/exceptions.c:351-416 | a device or clock wait keeps the invariant when blocking succeeds |
| NucleusSteps.DeviceInterruptKeeps | phase2/interrupts.c:181-286 | a solicited interrupt keeps the invariant, also when the waiter was killed |
| NucleusSteps.LocalTimerKeeps | phase2/interrupts.c:303-315 | preemption keeps the invariant |
| NucleusSteps.DrainKeeps | phase2/interrupts.c:329-346 | draining moves the whole clock queue in order to the end of the ready queue and keeps places, balance and soft-block count |
| NucleusSteps.ClockTickKeeps | phase2/interrupts.c:329-346 | a clock tick keeps the invariant |
| NucleusSteps.RootRanksFirst | phase2/exceptions.c:173-203 | the termination measure: members of a subtree rank above its root |
| NucleusSteps.ReapedStructured | phase2/exceptions.c:173-203 | after deaths every process is in one place, links agree and the process count is the number alive |
| NucleusSteps.ReapedFamily | phase2/exceptions.c:173-203 | what is left of the process tree is a forest |
| NucleusSteps.ReapedSteady | phase2/exceptions.c:182-196 | semaphore balance and soft-block accounting survive deaths of waiters |
| NucleusSteps.TerminateKeeps | phase2/exceptions.c:268-273 | SYS2, the whole of it, keeps the invariant |
| Termination.ReapedTwice | phase2/exceptions.c:173-203 | deaths compose: reaping one set and then another is reaping both |
| Termination.ReapedDetached | phase2/exceptions.c:173-203 | detaching the root of a subtree first makes no difference to what is left |
| Termination.ReapOneReaps | phase2/exceptions.c:180-202 | the end of one childless process is exactly one death |
| Termination.PartialStep | phase2/exceptions.c:174-179 | each round of the loop over the children adds one whole subtree to the dead |
| Termination.PartialEnd | phase2/exceptions.c:173-203 | once no child is left, the dead and the process itself are its subtree |
| Termination.SubtreeIsDescendants | phase2/exceptions.c:173-203 | the dead are exactly the live processes that have the victim among their ancestors |
| Runs.StepKeeps | phase2/exceptions.c:475-518 | every event keeps the invariant if blocking succeeds and devices interrupt only when awaited |
| SafeRuns.RunKeeps | phase2/initial.c:67-108 | in every run from boot with at most MAXPROC addresses and solicited interrupts: each process is in one place, the counters are right, waiters equal the debt of each semaphore, the tree is a forest, and blocking never fails |
| SafeRuns.NonEmptyRunKeeps | phase1/asl.c:135-151 | the same for any number of addresses, if no death leaves a descriptor empty |
| SafeRuns.OnlyDeathsEmpty | phase1/asl.c:165-210 | nothing but the death of a process can leave a descriptor empty |
| SafeRuns.SafeRun | phase2/initial.c:67-108 | so in every safe run the invariant holds in each state and blocking succeeds at each step |
| LostProcesses.OneAddressTooManyLoses | phase1/asl.c:200-210 | a run from boot with MAXPROC + 1 addresses and solicited interrupts that loses a process |
| LostProcesses.BoundIsTight | phase1/asl.c:135-151 | such a run exists, so the bound on addresses is tight |
| LostProcesses.UnsolicitedInterruptLoses | phase2/exceptions.c:351-373 | a run from boot in which one unsolicited interrupt loses the process that waits next |
| Runs.NonEmptyDescriptorsSuffice | phase1/asl.c:135-151 | blocking cannot fail in a state without an empty descriptor, by pigeonhole |
| Runs.FewAddressesSuffice | phase1/asl.c:135-151 | blocking cannot fail with at most MAXPROC addresses, emptied descriptors or not |
| Runs.PlacedIffBlocked | phase2/exceptions.c:287-307 | P keeps every process in a place if and only if the semaphore is positive or a descriptor is to be had |
| Runs.PlacedIffDeviceOwes | phase2/exceptions.c:351-373 | a wait keeps every process in a place if and only if the semaphore is not positive and a descriptor is to be had |
| SafeRuns.StepLedger | phase2/interrupts.c:246-286 | a device semaphore is interrupts minus waits, whatever else happens |
| Runs.SoftBlockedIff | phase2/exceptions.c:351-416 | the soft-block count is positive if and only if a live process waits for a device or the clock |
| Runs.VerdictIsRight | phase2/scheduler.c:46-69 | in every state in which a handler leaves the machine: DISPATCH, HALT, WAIT and PANIC if and only if somebody runs; nobody lives; nobody runs and somebody waits for a device; all wait, and only for each other |
| Fairness.StepAdvances | phase2/scheduler.c:46-69 | a ready process never falls back, and advances at each scheduler call |
| Fairness.BoundedDispatch | phase2/scheduler.c:46-69 | in every safe run from boot the process at position i runs within i + 1 scheduler calls, unless killed |
| Fairness.QueueSteps | phase2/exceptions.c:287-337 | a semaphore queue loses its head at a V on it, exactly the dead at a death, and otherwise at most grows at its end |
| Fairness.WaiterAdvances | phase2/exceptions.c:287-337 | a waiter never falls back, and advances at each V, also past killed waiters |
| Fairness.BoundedWait | phase2/exceptions.c:287-337 | in every safe run from boot V is first in, first out: the waiter at position i is released by the i + 1-st V, unless killed |
| Mutex.MutualExclusion | phase2/exceptions.c:287-337 | a semaphore started at 1 and used in P ... V pairs: in every safe run from boot value = 1 - holders - waiters, and never two holders, whoever is killed |
| Mutex.LockStep | phase2/exceptions.c:287-337 | one step keeps that, a killed holder counting as a holder for ever |
| Mutex.HandOver | phase2/exceptions.c:321-337 | V passes the lock to exactly the first waiter |
| Mutex.PasserenIsP | phase2/exceptions.c:287-307 | P of the nucleus is P of a lock: value and queue of waiters |
| Mutex.VerhogenIsV | phase2/exceptions.c:321-337 | V of the nucleus is V of a lock |
| Paging.HandlersAgreeIff | phase3/vmSupport.c:75-80 | the two handlers use the same page-table index exactly for these page numbers |
| Paging.EntryIsForPageIff | phase3/initProc.c:46-56 | the entry a fault fills carries the page number the hardware looks for, exactly for legal pages |
| PagingProofs.ResidentOnce | phase3/vmSupport.c:316-369 | no page is in two frames, even while a fault is in flight |
| PagingProofs.MappedIffRecorded | phase3/vmSupport.c:316-369 | when no fault is in flight a page is valid if and only if the swap pool records a frame for it, and each then names the other |
| PagingProofs.InvalidateKeeps | phase3/vmSupport.c:316-333 | invalidating the victim changes nobody's memory |
| PagingProofs.WriteBackKeeps | phase3/vmSupport.c:334-342 | writing it back changes nobody's memory |
| PagingProofs.ReadInKeeps | phase3/vmSupport.c:344-347 | reading the missing page in changes nobody's memory |
| PagingProofs.EnterTableKeeps | phase3/vmSupport.c:349-353 | recording the new owner changes nobody's memory |
| PagingProofs.PublishKeeps | phase3/vmSupport.c:355-366 | making the page valid changes nobody's memory |
| PagingProofs.ExitKeeps | phase3/sysSupport.c:96-117 | TERMINATE keeps the agreement of swap pool and page tables and the memory of the others |
| PagingProofs.ExitFrees | phase3/sysSupport.c:96-117 | exactly the frames of the process become free, all 32 entries of its page table lose V and the frame and keep D, every other frame record, page table, frame and sector stays, and the semaphore goes to the first waiter |
| PagingProofs.StepIsFlat | phase3/vmSupport.c:286-373 | every event acts on logical memory as on a flat private memory |
| PagingProofs.PagingIsInvisible | phase3/vmSupport.c:286-373 | in every run, under any interleaving, each page of a live process is its start value after that process's own stores |
| PagingProofs.LoadsAreInvisible | phase3/vmSupport.c:286-373 | every load returns the last store of the same process to that word |
| PagingProofs.HandlerAdvances | phase3/vmSupport.c:286-373 | the handler that holds the swap-pool semaphore always has a next step |
| PagingProofs.AcquireIsP | phase3/vmSupport.c:299-300 | taking the swap-pool semaphore is P of the same lock |
| PagingProofs.HandOverIsV | phase3/vmSupport.c:368-369 | giving it back is V of the same lock |
| PagingProofs.StartedIsSound | phase3/vmSupport.c:52-61 | after initialisation the invariant holds and logical memory is the backing store |
| PagingProofs.StartsWithFlashImage | phase3/initProc.c:183-211 | with one process, its first memory is its flash image |
| Pagers.Pager.constructor | phase3/initProc.c:46-56 | page tables of unmapped entries over a given backing store: a start state of the pager |
| Pagers.Pager.InitSwapStruct | phase3/vmSupport.c:52-61 | every frame free, the semaphore 1 |
| Pagers.Pager.PageReplace | phase3/vmSupport.c:105-126 | the lowest free frame when there is one, else the frame under the pointer; the pointer advances by one, modulo the pool size, exactly when its own frame is taken |
| Pagers.Pager.TlbExceptionHandler | phase3/vmSupport.c:286-373 | the handler runs through its events and no others, evicting exactly if no frame was free; the page is in the frame page_replace chose, recorded and mapped, the victim is unmapped and in its own sector, and no other record, entry, frame or sector differs; nobody's memory differs and the semaphore is free again |
| Faults.FaultServes | phase3/vmSupport.c:286-373 | the same of any run of these events, over the states |
| Faults.FaultKeepsMemory | phase3/vmSupport.c:286-373 | such a run changes nobody's memory |
| Faults.RefillHits | phase3/vmSupport.c:75-92 | a refill makes the access hit exactly if the page is mapped, in the frame of its entry |
| Pagers.Pager.EvictFrame | phase3/vmSupport.c:315-342 | eviction is invalidation and write-back, in this order, and changes nobody's memory |
| Pagers.Pager.FillFrame | phase3/vmSupport.c:344-366 | filling is reading in, recording and mapping, in this order, and changes nobody's memory |
| Pagers.Pager.Terminate | phase3/sysSupport.c:96-117 | the loops free exactly the frames of the process and unmap all its entries, which keep D; every other record, entry, frame and sector stays, and the semaphore goes to the first waiter |
| Replacement.ReplacementOrder | phase3/vmSupport.c:105-126 | with no frame freed the n-th call picks frame n modulo the pool size |
| Replacement.VictimIsOldest | phase3/vmSupport.c:105-126 | so every other frame was filled more recently than the victim |
| Replacement.VictimInOrder | phase3/vmSupport.c:105-126 | with frames freed too: as long as the taken frames lie in the order of their filling, going round from the pointer, the victim is the oldest page |
| Replacement.FreeingKeepsOrder | phase3/sysSupport.c:105-110 | freeing frames keeps that order |
| Replacement.FillingKeepsOrderIff | phase3/vmSupport.c:105-126 | a fill keeps it if and only if it takes the pointer's frame or no taken frame lies further round |
| Replacement.PointerWaits | phase3/vmSupport.c:108-118 | after a fill elsewhere the frame under the pointer is still the next victim |
| Replacement.LastIsSafe | phase3/vmSupport.c:105-126 | with two frames or more the page that came last is never the next victim, whatever is freed in between |
| Replacement.FreesBreakTheOrder | phase3/vmSupport.c:105-126 | a pool of three frames or more in which a freed and filled frame makes a younger page go before an older one |
| DiskGeometry.UserDecompose | phase4/devSupport.c:30-32 | a sector below the capacity gives a triple in range, and the inverse gives the sector back |
| DiskGeometry.PagerDecompose | phase3/vmSupport.c:208-210 | the same for the pager's order |
| DiskGeometry.Recompose | phase4/devSupport.c:30-32 | every triple in range is a sector below the capacity in both orders, and maps back to the triple |
| DiskGeometry.UserIsFaithfulIff | phase4/devSupport.c:25-32 | a sector number addresses its own place if and only if it is from 0 to below the capacity |
| DiskGeometry.PagerIsFaithfulIff | phase3/vmSupport.c:203-210 | the same for the pager's order |
| DiskGeometry.Injective | phase3/vmSupport.c:208-210 | different sectors are different places in either order |
| DiskGeometry.UserWalks | phase4/devSupport.c:30-32 | the next sector number is the next sector of the track, then the next cylinder, then the next head |
| DiskGeometry.PagerWalks | phase3/vmSupport.c:208-210 | in the pager's order it is the next sector, then the next head, then the next cylinder |
| DiskGeometry.CapacityItself | phase4/devSupport.c:25-32 | where the one accepted sector number too many leads, in either order |
| DiskGeometry.NegativeCapacity | phase4/devSupport.c:25-32 | a negative sector number that passes the guard and reaches sector 0 |
| DiskGeometry.WordsDecode | phase4/devSupport.c:34-45 | the two command words of a triple in range fit a register and decode to that triple |
| DiskGeometry.WordsAre | phase4/devSupport.c:34-45 | where command, cylinder, head and sector stand in the two words |
| DiskGeometry.CommandsDecode | phase4/devSupport.c:34-45 | for any triple, negative parts included: what the device reads out of the two words |
| Disks.CopyBlock | phase4/devSupport.c:4-11 | the loop copies one block and changes nothing else |
| Disks.Disk.Access | phase4/devSupport.c:33-47 | seek and transfer together reach exactly the sector of the triple, or change nothing |
| Disks.Disk.PagerAccess | phase3/vmSupport.c:192-271 | for every sector number: a page goes to or comes from exactly its sector; what happens at and beyond the capacity and below 0 |
| Disks.Disk.UserWrite | phase4/devSupport.c:13-55 | for every sector number: the user's block is in the sector the words name and in no other, or the disk is unchanged; it is in the DMA buffer too unless the request was refused or the seek failed, and nothing else in memory changes |
| Disks.Disk.UserRead | phase4/devSupport.c:57-99 | for every sector number: user's block and DMA buffer are what the sector the words name holds; after a failed transfer the block is what the buffer held, after a refusal or a failed seek nothing changes; the rest of memory never does |
| Disks.SectorsAreIndependent | phase4/devSupport.c:13-99 | what is written to a sector is read back from it and disturbs no other, in both orders |
| Disks.StorePage | phase3/initProc.c:194-207 | one round of the loops: which block reaches the sector, through which buffers, and that nothing else in memory changes |
| Disks.FillBuffers | phase3/initProc.c:196-203 | the block of a device goes to its own flash buffer and its own disk buffer, and nowhere else |
| Disks.WriteSector | phase3/initProc.c:144-180 | the disk takes the buffer of disk 0, whichever device is copied |
| Disks.SetUpBackingStore | phase3/initProc.c:183-211 | what every sector holds after the loops, and that later sectors are untouched |
| Disks.FaithfulIff | phase3/initProc.c:144-211 | sector 32d + k holds block k of device d if and only if the later devices hold nothing but the last block of the first |
| Disks.TwoDevicesFail | phase3/initProc.c:170-203 | a content of two flash devices that is not copied |
| Disks.SafeNumberOfProcesses | phase3/initProc.c:190-211 | a number of processes is safe for all contents if and only if it is at most one |
| DelayLists.WakeTimeIsNoSentinel | phase5/delayDaemon.c:47-51 | no stored time equals the mark of the tail dummy |
| DelayLists.WakeTimeWraps | phase5/delayDaemon.c:47 | the stored time is the microseconds asked for but for a multiple of 2^32 |
| DelayLists.WakeTimeExactIff | phase5/delayDaemon.c:47 | the stored time is the product asked for if and only if the seconds are from -2147 to 2147 |
| DelayLists.WakeTimeMayWrap | phase5/delayDaemon.c:47-51 | a longer delay that is stored as an earlier time, one that is refused, and a negative one that is accepted |
| DelayLists.InsertedIsSorted | phase5/delayDaemon.c:60-62 | insertion keeps the list in order of wake time |
| DelayLists.InsertedAddsOne | phase5/delayDaemon.c:60-62 | insertion loses no entry |
| DelayLists.LaterAfter | phase5/delayDaemon.c:37-44 | the traversal stops before the first entry that is not earlier |
| DelayLists.NeverEarly | phase5/delayDaemon.c:81-91 | every entry is due at the clock reading that wakes it, and the first one left is not |
| DelayLists.PassWakesTheDue | phase5/delayDaemon.c:81-91 | with a clock that does not go back, one pass wakes exactly the entries due at its last reading |
| DelayLists.RunsOffTheEndIff | phase5/delayDaemon.c:82-83 | the pass reaches the tail dummy if and only if every entry is due at its own reading and the reading after them is the greatest signed integer |
| DelayLists.StoppedClockRunsOff | phase5/delayDaemon.c:82-83 | a clock at the greatest signed integer runs every list off its end, the empty one first of all |
| DelayLists.LastReadingDecides | phase5/delayDaemon.c:82-83 | and it is the last reading of a pass that decides |
| DelayRuns.StepKeeps | phase5/delayDaemon.c:46-94 | calls, parkings and passes in any order keep the list sorted, list and pool the whole table, one entry per sleeping process, and its semaphore in step with it |
| DelayRuns.RunKeeps | phase5/delayDaemon.c:96-112 | that holds in every state of every run from initialisation |
| DelayRuns.NeverRefused | phase5/delayDaemon.c:54-58 | with no more processes than descriptors, allocation never fails in any run |
| DelayRuns.CallEffect | phase5/delayDaemon.c:46-67 | DELAY ends its caller exactly for a negative time or for want of a descriptor; else it adds one entry with its own time; nobody else changes |
| DelayRuns.ParkEffect | phase5/delayDaemon.c:67 | the P that follows blocks the caller exactly while its entry is still listed |
| DelayRuns.WokenExactlyWhenDue | phase5/delayDaemon.c:74-94 | a pass takes an entry off the list, with exactly one V to its owner, if and only if its stored time is due at the last clock reading; a parked owner runs again |
| DelayRuns.OnlyADuePassWakes | phase5/delayDaemon.c:74-94 | nothing else lets it run again |
| DelayRuns.EachWokenOnce | phase5/delayDaemon.c:46-94 | over every run: the V's given to a process are its accepted calls less the entry it may still have, and its private semaphore is V's less P's |
| DelayRuns.WakeFirstsCredits | phase5/delayDaemon.c:81-91 | what a pass of the list does to semaphores and pool, entry by entry |
| DelayDaemon.DelayList.constructor | phase5/delayDaemon.c:96-112 | two dummies, all other descriptors unused, private semaphores 0 |
| DelayDaemon.DelayList.TraverseAdl | phase5/delayDaemon.c:37-44 | the predecessor of the place of a wake time |
| DelayDaemon.DelayList.AllocDelayd | phase5/delayDaemon.c:19-35 | the first unused descriptor with its fields set, or NULL |
| DelayDaemon.DelayList.FreeDelayd | phase5/delayDaemon.c:12-17 | the descriptor becomes the first unused one |
| DelayDaemon.DelayList.Delay | phase5/delayDaemon.c:46-67 | the linked list refines the insertion; refused exactly for a negative time or an empty pool, and then nothing changes |
| DelayDaemon.DelayList.Pass | phase5/delayDaemon.c:74-94 | the loop takes exactly the due entries off, one V each, and faults exactly when it runs off the end |

## Left out

- Kernels.Kernel.OnDevice: the acknowledgement is not modelled; it stands for terminal and other devices alike, with the status as an argument.
- ContextRuns.AccountIsSum: accounts are unbounded and what the timer shows is an argument of each exception; the code adds in 32 bits.
- SafeRuns.RunKeeps: P and V of processes on addresses in the array of device semaphores are excluded, and so is a local-timer interrupt while no process runs: the scheduler disables that timer before it waits (phase2/scheduler.c:57).
- SafeRuns.RunKeeps: a run that breaks the two guards (too many addresses, unsolicited interrupts) is covered up to its first loss only, by the exact conditions of `PlacedIffBlocked` and `PlacedIffDeviceOwes`.
- Kernels.Kernel.HelperTerminateProcess: takes the forest of the process tree as given; `SafeRuns.RunKeeps` proves it for every state of a safe run.
- SYS6 and SYS8 return the account plus the time since the timer was loaded, and the support structure: fields whose values `AccountIsSum` gives.
- Exception dispatch, the mode bit and pass-up to the support level: no state of the model depends on them.
- PagingProofs.PagingIsInvisible: device operations succeed, page numbers are legal, and a process leaves through TERMINATE; killing it by SYS2 of its parent during a fault is excluded.
- PagingProofs.ExitKeeps: the translation cache is not cleared by TERMINATE; only live processes are promised anything about it.
- Pagers.Pager.TlbExceptionHandler: is the run of one fault with nobody else in between; every interleaving is in `Paging.Step`. The test of the cause, which sends a store to a read-only page to TERMINATE, is not part of it.
- Pagers.Pager.Terminate: the V on the semaphore of the process that waits for all others, and the final SYS2, are not part of it.
- The translation cache has no size: losing an entry is the event `Forget`, at any moment.
- Disks.Disk.UserWrite: the check that the address is in user space, and the mutex of the device, are not modelled; `Mutex.MutualExclusion` is about any such semaphore.
- DiskGeometry.CapacityItself: the capacity is computed without overflow; a disk of 2^31 sectors or more would overflow the product in the code.
- Disk error status: operations on sectors of the disk succeed, as the pager itself assumes by dropping the status.
- Printer, terminal and flash system calls: loops over a device register that add no invariant.
- DelayRuns.RunKeeps: killing a process while it is on the delay list is excluded; that a process sleeps for the number of seconds it asked for is not claimed, because the code stores an absolute time.
- DelayDaemon.DelayList.Pass: the mutex around list operations is not repeated; `Mutex.MutualExclusion` is about any such semaphore.
