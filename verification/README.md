# A verified model of MultiPandOS

MultiPandOS is a small multiprocessor kernel written in C: intrusive circular lists, a table of
process control blocks (PCBs), a process tree, an active semaphore list (ASL), binary semaphores on
which both P and V may block, recursive termination, a round-robin scheduler, device and clock
wake-ups, and a circular log. This project models it in Dafny and proves what it keeps, what it
promises over whole runs, and exactly where it does not keep its promises.

Check everything with `dafny verify dfyconfig.toml`.

## How the model is built

The model has two layers, and the second is proved to be what the first one computes.

**Pointer structures, in place.** `Listx.Rings` holds the `next` and `prev` fields of every list
cell of one kind; its ghost field `rings` says which sequence of nodes each sentinel's ring holds.
`Pcbs.PcbTable` is `phase1/pcb.c` over two such heaps, one for `p_list` (free list, ready queue and
every semaphore queue share it) and one for `p_sib` with `p_child`. `Asl.SemaphoreList` is
`phase1/asl.c` over a third one, for `s_link`. `Kernel.Kernel` is `phase2`: its methods have the
statements, branches and loops of the C functions. Every method says what it does to the abstract
value (`View()`), and so also what it leaves alone. `Klog.Log` is the log.

**A state machine on values.** `State.KState` forgets links and descriptors: the free list and the
ready queue are sequences, the blocked processes a map from semaphore address to non-empty queue,
the tree a map from process to children. Every block of code under the global lock is one step of
`State.Step`. `State.Inv` is the global invariant. `Legal` event sequences are the runs, `Reaches`
those that start when `main` has run. Every method of `Kernel.Kernel` ensures
`View() == old(Step(View(), ...))`, so what is proved of runs holds of the code on pointers.

A semaphore address is a `Types.Key`: an entry of `deviceSemaphores`, or any word of a process. The
fields `onCpu` (which CPUs really run their current process) and `why` (the system call that blocked
a process) exist for the proofs only: no branch of the code depends on them. They are needed because
`currentProcess` keeps a stale pointer after its process has blocked or died
(`phase2/scheduler.c:29-33`). The size of the process table and the number of CPUs are arbitrary.
The placeholder PCBs that `main` gives to the CPUs are in use, but never counted and never queued.

| file | what it is |
|---|---|
| `Seqs.dfy`, `Types.dfy` | sequences without repetition, removal of elements; PCBs, keys, contexts |
| `Listx.dfy` | `headers/listx.h` |
| `Pcbs.dfy` | `phase1/pcb.c` |
| `Asl.dfy` | `phase1/asl.c` |
| `Procs.dfy`, `Forest.dfy`, `Removal.dfy` | the process table as a value, its tree, and what `removePcb` leaves of it |
| `Devices.dfy`, `State.dfy`, `Runs.dfy` | the state machine, its invariant and its runs |
| `Invariant.dfy` | every step keeps the invariant |
| `Kernel.dfy` | `phase2`, proved against the state machine |
| `Places.dfy`, `Lifecycle.dfy` | where every process is, births and deaths, the state at HALT |
| `Semaphores.dfy`, `Mutex.dfy` | conservation, mutual exclusion |
| `Fairness.dfy` | bounded overtaking, first-in first-out |
| `Contexts.dfy`, `Fields.dfy`, `CpuTimes.dfy` | processor states, support structures and CPU time across steps |
| `Routing.dfy` | which process a device interrupt wakes |
| `Klog.dfy` | `klog.c` |

## What turned out to be false, and when it holds

- **No live process is ever lost.** False. `termProcess` always ends in the scheduler, so a caller
  that is not in the subtree it kills is left in no queue and on no CPU; a device interrupt that
  wakes nobody does the same to the process its CPU was running. `Places.StepCovers` and
  `Lifecycle.NobodyIsLost` prove that a step, or a run, loses nobody if and only if it avoids these
  two cases; `Lifecycle.LostExample` is a run of three steps from boot that ends with one live process and
  nobody ready, waiting or running, a state that `Lifecycle.StuckForever` proves final: `processCount` stays 1, so the
  machine idles and never halts.
- **A device interrupt wakes a process that waits for that device, or none.** True whenever somebody waits
  for the device (`Routing.InterruptFindsIssuer`). For terminals it holds if and only if somebody waits
  for the interrupting terminal or nobody waits on the next index (`Routing.MisroutedWhen`), because the
  index taken for reception is that of the next terminal; `Routing.MisroutedExample` is a run from boot.
- **DOIO returns the status of the register pair it used.** A terminal's two command registers share one
  semaphore, and its interrupt answers with the transmitter's status. So the status is the requested one if and only
  if the own device interrupts and the transmitter's command register was written; a process that asked for
  reception never gets the receiver's status (`Routing.AnswerIsRequested`).
- **Termination leaves a consistent kernel.** `removePcb` does not look at the other CPUs: the invariant survives
  if and only if none of them runs a process of the victim's subtree (`Invariant.InvRemove`).
  `Lifecycle.FreedWhileRunning` is a run from boot after which a CPU is left running a free PCB.
- **`klog_print_hex` prints a number in hexadecimal.** It prints the digits backwards, which reads as
  the number if and only if the print is a palindrome (`Klog.HexMirrored`).

## Model

| member | source | states |
|---|---|---|
| Listx.LinkedAdd | headers/listx.h:104-109 | After the four assignments of `__list_add` before the sentinel, next and prev fields form one circle through the old nodes and the new one, in both directions |
| Listx.LinkedDel | headers/listx.h:143-159 | After `list_del` at any position the circle runs through the other nodes in their old order |
| Listx.LinkedFrame | headers/listx.h:92-159 | A ring whose cells were not written is still the same circle |
| Listx.Rings.InitHead | headers/listx.h:92-95 | A sentinel linked to itself is the empty ring; all other rings keep their sequences |
| Listx.Rings.InitNode | headers/listx.h:92-95 | The cell of an entry that is in no ring ends up linked to itself in both directions; no ring changes |
| Listx.Rings.AddTail | headers/listx.h:131-133 | The node becomes the last of that ring; every other ring keeps its sequence and all stay disjoint |
| Listx.Rings.Del | headers/listx.h:155-159 | Exactly that node leaves its ring, ends up linked to itself in both directions and in no ring; every other ring keeps its sequence |
| Listx.Rings.Empty | headers/listx.h:180-182 | True exactly when the ring has no nodes |
| Listx.Rings.First | headers/listx.h:192-197 | The first node of the sequence, the sentinel when there is none |
| Listx.Rings.Advance | headers/listx.h:250-252 | From position i of a ring, the cell at position i + 1 |
| Pcbs.PcbTable.InitPcbs | phase1/pcb.c:18-25 | The free list is the whole table in order |
| Pcbs.PcbTable.FreePcb | phase1/pcb.c:27-31 | The PCB is appended to the free list; nothing else changes |
| Pcbs.PcbTable.AllocPcb | phase1/pcb.c:33-77 | NULL exactly when the free list is empty, and then nothing changes; otherwise its head, wiped, childless and parentless, with the next pid |
| Pcbs.AllocCoherent | phase1/pcb.c:33-77 | Allocation keeps queues inside the table, parent fields and child lists in agreement, and free PCBs outside every family |
| Pcbs.PcbTable.MkEmptyProcQ | phase1/pcb.c:79-82 | One more queue, empty |
| Pcbs.PcbTable.EmptyProcQ | phase1/pcb.c:85-87 | True exactly when the queue is empty |
| Pcbs.PcbTable.InsertProcQ | phase1/pcb.c:89-92 | The process is appended to that queue and to no other, the tree and all fields unchanged |
| Pcbs.PcbTable.HeadProcQ | phase1/pcb.c:95-101 | The head of the queue, NULL when it is empty |
| Pcbs.PcbTable.RemoveProcQ | phase1/pcb.c:104-112 | The head leaves the queue; NULL and no change when it is empty |
| Pcbs.PcbTable.OutProcQ | phase1/pcb.c:115-123 | The search terminates and deletes the process if and only if it is in that queue; every other queue keeps its sequence |
| Pcbs.PcbTable.EmptyChild | phase1/pcb.c:126-131 | True exactly when the process has no children |
| Pcbs.PcbTable.InsertChild | phase1/pcb.c:133-138 | The process becomes the last child, and its parent field says so |
| Pcbs.PcbTable.RemoveChild | phase1/pcb.c:140-152 | The first child leaves the list and loses its parent; NULL when there is none |
| Pcbs.PcbTable.OutChild | phase1/pcb.c:154-161 | The process leaves its parent's list, siblings in order; NULL and no change exactly when it has no parent |
| Asl.SemaphoreList.FillPool | phase1/asl.c:38-44 | All descriptors of the table, in order, are in the pool and none is active |
| Asl.SemaphoreList.FindSem | phase1/asl.c:11-17 | The descriptor of that key, NULL exactly when no process waits on the key |
| Asl.SemaphoreList.TakeSem | phase1/asl.c:56-63 | The first pooled descriptor becomes active with that key and an empty queue; keys stay distinct |
| Asl.SemaphoreList.GetSem | phase1/asl.c:54-64 | No descriptor exactly when the key is absent and the pool empty, and then nothing changes |
| Asl.SemaphoreList.InsertBlocked | phase1/asl.c:53-68 | TRUE exactly when the key is absent and all descriptors are in use, and then nothing changes; otherwise the process is appended to the key's queue and its p_semAdd is the key |
| Asl.SemaphoreList.FreeSemIfEmpty | phase1/asl.c:73-78 | The descriptor returns to the pool if and only if its queue is empty: the key then disappears from the map |
| Asl.SemaphoreList.RemoveBlocked | phase1/asl.c:84-90 | The longest waiter on the key leaves; NULL and no change exactly when the key is absent; no empty queue is left |
| Asl.SemaphoreList.OutOne | phase1/asl.c:114-118 | One round of the search: the process leaves that descriptor's queue if it is there |
| Asl.SemaphoreList.OutBlocked | phase1/asl.c:111-121 | The process is out of whichever queue it was in, every other queue as before; NULL exactly when it was in none |
| Asl.SemaphoreList.HeadBlocked | phase1/asl.c:127-131 | The longest waiter on the key, NULL exactly when there is none |
| Asl.PoolSize | phase1/asl.c:38-78 | Pooled descriptors and keys with waiters always add up to the table |
| Asl.PoolEmpty | phase1/asl.c:56 | The pool is empty exactly when there are as many keys with waiters as descriptors |
| Asl.SoundTake | phase1/asl.c:56-63 | Activating a descriptor keeps every descriptor on exactly one list and keys distinct |
| Asl.SoundRelease | phase1/asl.c:73-78 | So does returning one to the pool |
| Forest.SubtreeMember | phase2/exceptions.c:55-58 | The recursion of removePcb visits exactly the process and those whose parent fields lead up to it |
| Forest.PostOrderNoDup | phase2/exceptions.c:48-60 | It visits nobody twice |
| Forest.SiblingsApart | phase2/exceptions.c:55-58 | The subtrees of two siblings share no process |
| Removal.DetachIs | phase2/exceptions.c:49-54 | Leaving parent, semaphore and ready queue one after the other takes the process out of every list |
| Removal.PartialNext | phase2/exceptions.c:56-58 | Removing the next child and killing its subtree takes the loop from i to i + 1 dead subtrees, whatever the earlier ones did to the table |
| Removal.PartialEnd | phase2/exceptions.c:59 | After the last child, freeing the process itself completes the removal of the whole subtree |
| Removal.KillWf | phase2/exceptions.c:48-60 | What removal leaves is well formed: a forest, disjoint queues, free PCBs outside every family |
| Removal.KillBlocked | phase2/exceptions.c:50-59 | Removal lowers the number of waiters by the waiters of the subtree and lengthens the free list by its size |
| Invariant.Survivors | phase2/exceptions.c:48-60 | Removal appends the subtree to the free list in post-order and takes exactly its members out of the ready queue and the semaphore queues; everybody else keeps PCB and place |
| Invariant.DescriptorsSuffice | phase1/asl.c:53-68 | While some process is not waiting, fewer keys are in use than there are descriptors: insertBlocked cannot fail for it |
| Invariant.InvP | phase2/exceptions.c:134-171 | passeren and verhogen keep the invariant in all three branches |
| Invariant.InvRemove | phase2/exceptions.c:48-60 | removePcb of any live victim keeps the invariant if and only if no other CPU runs a process of the victim's subtree |
| Invariant.RunsFreed | phase2/exceptions.c:48-60 | A CPU that runs such a process goes on running a free PCB |
| Invariant.TickStep | phase2/interrupts.c:23-26 | One round of the clock's drain loop leaves the same final state to reach, and fewer waiters |
| Invariant.StepKeepsInv | phase2/exceptions.c:24-188 | Every step keeps the invariant: disjoint duplicate-free queues, an acyclic forest agreeing with parent fields, exact counters, p_semAdd of a waiter equal to its queue's key, no process on two CPUs or both running and queued, only the first process without parent |
| Invariant.BootInv | phase2/initial.c:56-117 | The invariant holds when main enters the scheduler, for any table size and number of CPUs |
| Invariant.LiveCount | phase2/initial.c:74-117 | processCount is the number of processes in use that are not placeholders |
| Invariant.FromRoot | phase2/exceptions.c:103-126 | Parent fields lead from every live process up to the first one |
| Invariant.LiveParent | phase2/exceptions.c:194-202 | The parent of a live process is live; only the first process has none |
| Invariant.HaltIsClean | phase2/scheduler.c:36-38 | processCount is 0 exactly when nobody is live, and then ready queue and semaphore queues are empty, nobody runs, and all PCBs but the placeholders are free |
| Runs.RunKeepsInv | phase2/scheduler.c:23-49 | The invariant holds after every run from a state in which it holds |
| Runs.After | phase2/initial.c:105-131 | It holds in every state reachable from boot |
| Kernel.Kernel.constructor | phase2/initial.c:105-131 | main builds exactly the boot state out of phase 1 structures that are in order |
| Kernel.Kernel.Initialize | phase2/initial.c:56-117 | The same for the global variables, the first process and the placeholders together |
| Kernel.Kernel.InitSemaphores | phase2/initial.c:66-68 | All 49 kernel semaphores are 0, and no other word changes |
| Kernel.Kernel.InstantiateProcess | phase2/initial.c:74-84 | The first process is PCB 0, alone in the ready queue, counted once |
| Kernel.Kernel.Placeholders | phase2/initial.c:115-129 | Every CPU gets its own PCB, taken off the free list and not counted |
| Kernel.Kernel.DetachPcb | phase2/exceptions.c:49-54 | The process is out of its family and of every queue; processCount drops by 1, softBlockCount by 1 exactly if it was waiting |
| Kernel.Kernel.RemovePcb | phase2/exceptions.c:48-60 | On the pointer structures the recursion terminates and leaves exactly the table without the subtree; processCount drops by its size, softBlockCount by its number of waiters |
| Invariant.BlockSaves | phase2/exceptions.c:27-35 | Of the blocked PCB exactly three fields change: the saved state is the one of the call with the program counter four bytes on (mod 2^32), the time grows by the slice, p_semAdd is the key; no other PCB changes |
| Kernel.Kernel.BlockPcb | phase2/exceptions.c:24-38 | The caller is really queued, last on the semaphore; its PCB keeps everything but the time, charged with the slice, p_semAdd, and the saved state, which is that of the call with the program counter four bytes on; the descriptor pool is never exhausted |
| Kernel.Kernel.Unblock | phase2/exceptions.c:142-143 | The longest waiter moves to the end of the ready queue and softBlockCount drops by 1; nothing changes when nobody waits |
| Kernel.Kernel.PasserenOn | phase2/exceptions.c:134-149 | The whole new state of the three branches; blocked exactly when the value was not positive |
| Kernel.Kernel.VerhogenOn | phase2/exceptions.c:157-171 | The whole new state of the three branches; blocked exactly when the value was at least 1 |
| Kernel.Kernel.Passeren | phase2/exceptions.c:134-149 | PASSEREN refines its step, keeps all invariants, and reports blocked exactly when the caller is off its CPU |
| Kernel.Kernel.Verhogen | phase2/exceptions.c:157-171 | The same for VERHOGEN |
| Kernel.Kernel.DoIo | phase2/exceptions.c:172-178 | The same for DOIO, on the semaphore computed from the command register's address |
| Kernel.Kernel.ClockWait | phase2/exceptions.c:186-188 | The same for CLOCKWAIT |
| Kernel.Kernel.CreateProcess | phase2/exceptions.c:103-121 | The new process is the caller's last child and last in the ready queue, with the given state and a new pid, which is returned |
| Kernel.Kernel.TermProcess | phase2/exceptions.c:122-126 | Any live victim, or the caller for a null argument, dies with its subtree and the caller's CPU goes back to the scheduler; the invariant survives if and only if no other CPU runs one of the dead, and the step of the state machine is then the one taken |
| Kernel.Kernel.PassUpOrDie | phase2/exceptions.c:71-93 | The current process dies exactly when it has no support structure, as in TERMPROCESS; otherwise nothing changes, whatever other CPUs run |
| Kernel.Kernel.GetTime | phase2/exceptions.c:179-185 | The stored time and the current slice |
| Kernel.Kernel.GetProcessId | phase2/exceptions.c:194-202 | The caller's pid, or its live parent's; 0 exactly for the first process |
| Kernel.Kernel.HandlePlt | phase2/interrupts.c:37-45 | The preempted process is last in the ready queue; of all PCBs only its own changes, and there only the time, charged with the slice, and the state, saved as it was |
| Kernel.Kernel.HandlePseudoClock | phase2/interrupts.c:14-33 | The drain loop terminates: the ready queue is followed by all clock waiters in blocking order, softBlockCount drops by their number, the clock's key is gone, every other semaphore untouched |
| Kernel.Kernel.HandleDevice | phase2/interrupts.c:80-142 | The waiter chosen by the branches of the interrupt becomes ready with the status in a0 and the semaphore is 0; somebody is woken exactly if there was one to wake |
| Devices.LowestPending | phase2/interrupts.c:69-76 | Bit d is the lowest set one of the first eight exactly if the 32-bit number leaves remainder 2^d modulo 2^(d+1); none is set exactly if it is a multiple of 256 |
| Devices.FirstPending | phase2/interrupts.c:70-79 | The device of the lowest set bit, in terms of the bitmap as a number; -1 exactly if that is a multiple of 256 |
| Kernel.Kernel.HandleDeviceInterrupt | phase2/interrupts.c:54-143 | The device of the lowest set bit, in terms of the bitmap as a number, is served with its own status, as above; nothing changes exactly when none of the eight bits is set |
| Kernel.Kernel.Schedule | phase2/scheduler.c:23-49 | The first ready process gets the CPU with its saved state; the machine halts exactly when nobody is ready and processCount is 0, and then all descriptors and all PCBs but the placeholders are free |
| Kernel.Kernel.Descriptors | phase1/asl.c:53-90 | Descriptors in the pool and semaphores with waiters add up to MAXPROC |
| Places.OnePlace | phase1/pcb.c:89-123 | Every PCB is in exactly one place: free list, ready queue, one semaphore's queue, one CPU, placeholder, or lost |
| Places.StepCovers | phase2/exceptions.c:122-126 | A step loses no live process if and only if it is neither a TERMPROCESS whose caller survives nor a device interrupt without waiter on a busy CPU |
| Lifecycle.NobodyIsLost | phase2/interrupts.c:136-142 | Over every run: everybody is somewhere in every state if and only if every step keeps its caller |
| Lifecycle.BootCovered | phase2/initial.c:74-84 | Nobody is lost at boot |
| Lifecycle.LostExample | phase2/exceptions.c:122-126 | A run from boot that loses the first process: it is live, processCount is 1, and nobody is ready, waits or runs |
| Lifecycle.StuckForever | phase2/scheduler.c:26-48 | Once nobody is ready, waits or runs, no interrupt and no round of the scheduler ever changes the state again |
| Lifecycle.LostForever | phase2/scheduler.c:26-34 | A process that is in no queue and on no CPU stays so in every run until it is killed |
| Lifecycle.FreedWhileRunning | phase2/exceptions.c:48-60 | A run from boot on two CPUs after which terminating a child leaves a CPU running a free PCB |
| Lifecycle.LiveIsTheTree | phase2/exceptions.c:103-121 | The live processes are exactly the tree rooted at the first process |
| Lifecycle.KillingTheRoot | phase2/exceptions.c:48-60 | Killing the first process brings processCount and softBlockCount to exactly 0 and empties every queue |
| Lifecycle.ChildrenFirst | phase2/exceptions.c:55-59 | Every descendant is freed before its ancestors |
| Lifecycle.SoftBlockCountIsTotalLength | phase2/exceptions.c:36 | softBlockCount is the total length of all semaphore queues |
| Semaphores.StepBalance | phase2/exceptions.c:134-171 | One step keeps a semaphore 0 or 1, its waiters all P-waiters at 0 and all V-waiters at 1, and changes its value by completed Vs minus completed Ps; killing waiters changes none of it |
| Semaphores.Conservation | phase2/exceptions.c:134-171 | Over every run from a state where the semaphore is 0 or 1 without mixed waiters, value = initial value + completed Vs - completed Ps, and it stays 0 or 1 with waiters of one kind |
| Semaphores.BootConservation | phase2/initial.c:66-68 | The same from boot, for the kernel's semaphores and for every word of a process that is initially 0 or 1 |
| Semaphores.RemoveBinary | phase2/exceptions.c:48-60 | Killing waiters leaves value and kind of the remaining ones alone |
| Semaphores.KernelSemaphoresStayZero | phase2/initial.c:66-68 | From boot, if processes use P and V on their own words only, all device semaphores and the clock's stay 0 |
| Mutex.StepExclusive | phase2/exceptions.c:134-171 | A step of bracketed processes keeps at most one inside; a V by the one inside does not block it |
| Mutex.MutualExclusion | phase2/p2test.c:118-127 | Over every run of bracketed processes at most one is inside and no V blocks, with hand-off to waiters and with waiters or the holder killed |
| Mutex.MutexFromBoot | phase2/p2test.c:118-127 | In particular from boot, for any word initialised to 1 |
| Fairness.ReadyStep | phase2/scheduler.c:26-34 | A step takes the head off the ready queue (dispatch), filters the victims out in order (TERMPROCESS), or only appends |
| Fairness.ReadyIsServed | phase2/scheduler.c:26-34 | A process at position k of the ready queue is dispatched or killed by the (k+1)-th later dispatch |
| Fairness.StepMoves | phase2/exceptions.c:134-171 | The waiters on any semaphore after any step: the dead filtered out in order, the first woken by the opposite operation (all of them by a tick), or the caller appended |
| Fairness.WaiterIsWoken | phase2/exceptions.c:140-143 | On any semaphore, of any value and whoever uses it, a waiter at position k is woken or killed by the (k+1)-th later step that is an opposite operation when it happens (P on a positive value, V otherwise, an interrupt that looks at that semaphore, a tick for the clock), whoever joins meanwhile |
| Fairness.WaiterIsWokenByCount | phase2/exceptions.c:163-165 | The same for user words of any value and for kernel semaphores at 0, terminals included, when the operations counted are those opposite to the value at the beginning |
| Fairness.QueueIsFifo | phase1/pcb.c:89-112 | On any semaphore, after every run the waiters stand in the order in which they blocked |
| Contexts.ReadyContextKept | phase2/scheduler.c:29-33 | The saved state of a ready process does not change until it is dispatched or killed |
| Contexts.ContextKept | phase2/interrupts.c:136-138 | The saved state of a ready or waiting process changes, whatever others do, by the first device answer in a0 at most |
| Contexts.SavedPastTheCall | phase2/exceptions.c:29-35 | For every PASSEREN, VERHOGEN, DOIO and CLOCKWAIT that blocks: the stored program counter is a 32-bit word four past the one of the call, a0 and all other registers are those of the call |
| Contexts.ContextRoundTrip | phase2/exceptions.c:29-35 | A process is resumed, at its dispatch, four bytes past the call if it blocked, where it was if preempted, in the creator's state if new; all other registers as then, and a0 too unless a device answered |
| Fields.StepFields | phase2/interrupts.c:37-45 | No step changes pid, parent or support structure of a live process that it does not kill |
| Fields.CreatedFields | phase2/exceptions.c:107-119 | Every field of a new process's PCB: the caller as parent, the state and support structure given, no time, no semaphore, the next pid |
| Fields.SupportKept | phase2/exceptions.c:117-118 | Over every run, a process has until its death the support structure of the CREATEPROCESS that made it |
| Fields.SupportIsGranted | phase2/exceptions.c:71-93 | The same from boot, the first process having none: so what decides in passUpOrDie is what the creator gave |
| Fields.FirstProcess | phase2/initial.c:74-84 | At boot exactly process 0 is live: ready, in its initial state, pid 1, with no time, semaphore, parent or support structure; the counters are 1 and 0, the slice start 0, and nobody runs |
| CpuTimes.CpuTimeGrows | phase2/exceptions.c:179-185 | On one CPU with a monotone clock, over every run that does not kill the process: its CPU time grows by no more than the time elapsed, and has not decreased if at the end the process is somewhere (as it is whenever it calls GETTIME) |
| CpuTimes.StepKeepsBudget | phase2/scheduler.c:17-21 | No step hands out more CPU time than passes, nor makes a stored time negative |
| CpuTimes.CpuTimeConserved | phase2/scheduler.c:15-33 | Over every run from boot on one CPU with a monotone clock, the stored times of all live processes and the current slice add up to at most the time since boot |
| Routing.WindowIsIndex | phase2/headers/initial.h:29 | For every address, doio computes the index of a device exactly if the address is in the 16 bytes from that device's command register on |
| Routing.RequestKeys | phase2/exceptions.c:172-188 | In numbers: CLOCKWAIT uses semaphore 48, DOIO on a command register at 0x10000054 + 0x80 (line - 3) + 0x10 dev + 4 (or + 12 on line 7) uses 8 (line - 3) + dev |
| Routing.OneSemaphoreEach | phase2/interrupts.c:48-51 | Different devices have different semaphores, none of them the clock's |
| Routing.WaitersAreIssuers | phase2/exceptions.c:172-178 | As long as only DOIO and CLOCKWAIT have queued processes on the kernel's semaphores, whoever waits on a device's semaphore issued DOIO on that device's registers |
| Routing.Route | phase2/interrupts.c:85-138 | Where the answer of an interrupt goes on any line: to the own semaphore's longest waiter, else for a terminal to the next index's, else nowhere |
| Routing.InterruptFindsIssuer | phase2/interrupts.c:85-138 | From boot, an interrupt of a device that is waited for, on any line, gives its status (a terminal's transmitter status) to the longest waiter of those that issued DOIO on that device, and touches no other semaphore |
| Routing.AnswerIsRequested | phase2/interrupts.c:85-121 | From boot, the status a woken process gets is that of the command register it wrote if and only if the interrupt is from its own device and that register is the command register, a terminal's transmitter one; who asked a terminal for reception never gets the receiver's status |
| Routing.MisroutedWhen | phase2/interrupts.c:85-101 | An interrupt touches another semaphore's waiters if and only if it comes from a terminal nobody waits for while somebody waits on the next index |
| Routing.MisroutedExample | phase2/interrupts.c:85-101 | A run from boot in which an interrupt of terminal 0 answers a process that waits for terminal 1 |
| Routing.IoAlwaysBlocks | phase2/exceptions.c:172-188 | From boot, if processes use P and V on their own words only, every DOIO and CLOCKWAIT blocks its caller, last on that semaphore |
| Klog.LinesSnoc | klog.c:22-35 | One more character ends a line, or extends it, or fills it and starts the next: the wrapped log can be kept character by character |
| Klog.LinesOfParagraph | klog.c:72-77 | Text without line breaks is cut every 42 characters: line i is characters 42 i to 42 i + 41, and the last line holds the rest, possibly nothing |
| Klog.LinesOfText | klog.c:25-28 | A line break ends the line under way, also an empty one, and the rest of the text starts on a new line |
| Klog.NothingLost | klog.c:22-35 | The lines of the wrapped log, put together, are the text without its line breaks |
| Klog.Log.constructor | klog.c:16-18 | An empty log, all zeros |
| Klog.Log.NextLine | klog.c:81-88 | The log has one more line, empty; its row is the next of 64, 42 blanks, and every other row is as it was |
| Klog.Log.NextChar | klog.c:72-77 | A full line is followed by a new one; both indexes stay in bounds |
| Klog.Log.Shows | klog.c:16-35 | The buffer character by character: the text of each of the last 64 lines, and behind it blanks, or zeros behind the very first line; zeros in rows never reached |
| Klog.Log.Print | klog.c:22-35 | Afterwards the buffer shows, character by character, the last 64 lines of all text ever printed, wrapped at 42, with blanks behind them (zeros behind the very first line and in rows never reached), and both indexes point behind the last character |
| Klog.Log.PrintHex | klog.c:60-68 | The characters appended, read as hexadecimal digits from the last one on, say the number, without superfluous zero; the log shows the text as above |
| Klog.NumeralValue | klog.c:60-68 | The digits are those of the number in base 16 |
| Klog.HexDecodes | klog.c:60-68 | The characters of the table, decoded independently of it, say the number |
| Klog.HexMirrored | klog.c:60-68 | Read from the first character on, as usual, the print is the number if and only if it is a palindrome |
| Klog.HexMirroredExample | klog.c:60-68 | The print "01" says 16, but reads 1 |

## Left out

- Memory: a list cell is an address in a map from addresses to addresses, `container_of` is reading the
  entry number in the address, and a PCB pointer is an index of the table. Aliasing between cells is in the model, pointer arithmetic on
  raw bytes is not.
- Kernel.Kernel.CreateProcess: only with a free PCB. Without one the code goes on to write through a NULL
  pointer (`phase2/exceptions.c:108-119`); the step is not enabled then.
- Kernel.Kernel.TermProcess: an argument that is not a live PCB. Runs take the step only when no other CPU
  runs one of the victims, because the invariant fails otherwise.
- Kernel.Kernel.DoIo: addresses whose index is above 48, for which `device_semaphores` gives NULL, are not
  enabled. The write of the command register is left out.
- Kernel.Kernel.HandleDevice: the status words are parameters, and the acknowledgement in the device's registers is left out.
- Kernel.Kernel.PassUpOrDie: the exception state and context of the support structure are not modelled.
- Asl.SemaphoreList.FindSem: a key is never NULL. All callers have already read the semaphore's value, or
  have it from `device_semaphores`.
- CpuTimes.CpuTimeConserved: one CPU only; `sliceStart` is one variable for all CPUs, and nothing is claimed for more of them. The
  clock does not wrap.
- Integers: `processCount`, `softBlockCount`, pids and CPU times do not wrap. Addresses and the saved
  program counter are 32-bit words.
- The global lock is taken for granted: every block under it is one step, and so is a device interrupt, whose look at
  the terminal's two semaphores and removal of the waiter are two blocks in the code.
- Processes do not write the words of their semaphores themselves.
- Idle waiting, timers, TPR, interrupt routing and saved exception states are hardware; `HALT` is the result of
  `Kernel.Kernel.Schedule`.
- `outBlockedPid` and `findPcb` are not called by the kernel, and the first reads an uninitialised pointer.
- `klog_print_dec`, `getSupportPointer`, `memcpy`, exception decoding and the test programs are not modelled.
- The field `dev_no` of a PCB is never read.
