# A small teaching kernel, modelled and proved

The kernel runs user programs on a simulated machine. Every system call is a kernel thread of the `kt`
library; threads meet at semaphores and are never preempted. This project models four coupled parts of it
and proves what they keep over every run: pipes and the descriptor tables that count their readers and
writers, the life of processes with the scheduler, the two console protocols, and the linked list under
the queues.

## How the code is modelled

A kernel thread runs from one `P_kt_sem` to the next without interruption, so such a segment is one step
of a state machine, and a blocked `P_kt_sem` is a step that waits for a permit. Any thread whose permit is
there may go next: nothing is assumed about the order in which threads are woken. The steps do literally
what the C code does, including what goes wrong; results say exactly when it does.

| file | what it holds |
|---|---|
| `Base.dfy` | names, constants, set arithmetic |
| `PipeProtocol.dfy` | one pipe: the segments of `do_write` and `do_read`, and what every step keeps |
| `PipeFifo.dfy` | when the bytes read are the bytes written, in order |
| `PipeRelease.dfy` | what becomes of writers without readers and readers without writers; blocking |
| `PipeStranded.dfy` | when one process can get out of a pipe whose other end is gone |
| `PipeCalls.dfy` | the queue property in terms of the calls' lengths and bytes; the three changes with which it needs no condition |
| `PipeLimits.dfy` | concrete runs in which the code fails; how long the byte -1 stays where it ends reads |
| `Descriptors.dfy`, `DescriptorCalls.dfy` | the tables of all processes, and each descriptor call on them |
| `DescriptorRuns.dfy`, `DescriptorResults.dfy` | runs of the whole descriptor state; what calls promise callers |
| `DescriptorRelease.dfy`, `DescriptorLimits.dfy` | who can still leave a pipe, in runs of the whole system; reachable states in which a call fails or a reader is stranded |
| `ProcessTree.dfy`, `UserMemory.dfy` | families, zombies and identifiers; memory chunks and registers |
| `Processes.dfy`, `ProcessRuns.dfy` | where each process is, scheduling, fork, exit, wait; their runs |
| `ProcessReach.dfy` | how a parent collects by waiting for its turn; runs from boot that leave an exited process to init, and that use up the identifiers |
| `Kernel.dfy`, `KernelRuns.dfy` | processes and descriptors together, from memory to memory; which call is made is read from register 4 |
| `KernelReach.dfy` | which exited processes can still be collected in runs of the whole kernel |
| `ConsoleInput.dfy`, `ConsoleOutput.dfy` | the console ring, and console writes |
| `DoublyLinkedList.dfy` | the circular list with a sentinel, on the heap |
| `PipeObject.dfy`, `DescriptorObject.dfy`, `ProcessObject.dfy`, `ConsoleObject.dfy` | the imperative code: classes whose methods are proved to do what the functions above say |

A process is named by its creation number, which is never reused (its identifier is); an `Fd` or pipe is
named by its allocation number. A freed pipe is gone from the map of pipes, and dereferencing anything that
is not there sets `crashed`. Histories (bytes announced and delivered, `dup` calls, children that exited)
are kept beside the state.

## Where the code is narrower than its intent

Each of these is stated as an exact condition, or as what then holds for good. The lemmas of
`PipeLimits.dfy`, `DescriptorLimits.dfy` and the end of `ProcessReach.dfy`, with
`DescriptorResults.ConsoleDupCrashes` and `ConsoleInput.EndOverwritten`, show states with the failure that
the code reaches from a new pipe, from boot or from an empty console.

- A pipe is first-in first-out as long as each step is *clean*: a store whose index, not reduced inside one
  call, lies in the buffer and whose cell is free, and a byte taken that is not -1. From a sound pipe a step
  leaves it sound if and only if it is clean (`PipeFifo.SoundStep`); the failures are
  `PipeLimits.LongWriteLeavesBuffer`, `FullRingOverwrites` and `EndByteIsNotData` there. A caller can make
  sure of it call by call: every step is clean if each call, as it is granted its end, starts so that head
  plus length is at most 8192 and, for a write, finds room for its bytes, none of them -1
  (`PipeCalls.CallsThatFit`). With an index that wraps, a store made after its permit, and -1 as data, every
  run is first-in first-out (`PipeCalls.AlwaysFifo`).
- test/pipe-bin2.c expects byte -1 to be data; the code ends the read (`PipeLimits.EndByteIsNotData`). The
  byte is neither delivered nor passed, and it ends every read that gets there until a store comes to its
  cell (`PipeLimits.EndUntil`). Taking it returned a space permit, so that store can come a full turn later and
  does (`PipeLimits.EndOverwritten`). The console does the same (`ConsoleInput.EndUntil`, `EndOverwritten`).
- test/block.c expects a read of an empty pipe with a writer to block; it does only when `writer_in_use` is
  not 0, so a read of a new pipe returns 0 (`PipeLimits.NewPipeReadReturns`).
- Closing the last read descriptor releases the writers (`PipeRelease.CloseReleases`); exiting instead does
  so exactly when the permits at hand suffice (`PipeRelease.ExitReleasesIff`; it strands one in
  `PipeLimits.ExitStrandsWriter`). Closing the last write descriptor releases readers exactly when an
  element is there or none of them holds `read` (`PipeRelease.ReadersDrainIff`; one is stranded in
  `PipeLimits.CloseStrandsReader`); test/unblock.c expects it always. The same holds of runs of the whole
  system, where a descriptor of a process inside a pipe keeps it allocated
  (`DescriptorRelease.WritersAfterExitIff`, `ReadersAfterCloseIff`).
- `dup` of the console, `dup2` of the console or onto an open slot, `pipe` with exactly one closed object in
  the table, and a fork when 65536 identifiers are in use break the invariants, and nothing else does
  (`DescriptorRuns.StepInvIff`, `Processes.StepInvIff`, `Kernel.StepInvIff`). Each is reached from boot:
  `DescriptorResults.ConsoleDupCrashes` (`dup` and `dup2` of standard input),
  `DescriptorLimits.OnePipe` (one `pipe`, then `dup2` between its ends), `DescriptorLimits.ThirtyPipes`
  (thirty, then the one that fails), `ProcessReach.PidsRunOut` (65534 children that exit and are not waited
  for).
- `dup` makes two slots share one object, so the count stays above the number of objects by the number of
  `dup` calls, for good: such a pipe is never freed (`DescriptorResults.DuppedNeverFreed`).
- An exited process can still be collected if and only if its parent can still come back, alive, out of the
  call it is in or into `wait` (`KernelReach.CollectableIffBack`). A parent is lost when it is init, stopped
  by a fault, about to exit, or stranded in a pipe: a reader behind or at a read that waits for an element
  with no writer left, or a writer without readers for which the permits fall short. No run then frees the
  child (`KernelReach.LostNeverCollects`). Unless its call is one that goes wrong, is a read or write that has
  yet to enter its pipe, or has it inside a pipe whose other end is still there, the parent can collect if
  and only if it is not lost (`KernelReach.CollectableIff`). From boot a run of the descriptors leaves a
  process stranded whose child has exited (`DescriptorLimits.StrandedFromBoot`), and one of the processes
  leaves an exited process with init (`ProcessReach.SomeAreAbandoned`, `ProcessRuns.AbandonedForever`).
- A process that faults is stopped for ever and keeps the kernel from halting (`ProcessRuns.FaultStopsForGood`);
  the comment at the head of exception.c says that everything else dumps core.

## Model

| member | source | states |
|---|---|---|
| PipeProtocol.NewPipeInv | syscall.c:815-829 | the pipe `do_pipe` makes has a permit on each mutex, 8192 space permits and no element |
| PipeProtocol.InvStep | syscall.c:96-288 | every segment keeps one writer and one reader at most in their critical sections, space plus element permits at 8192 while a reader exists, and each call's bytes contiguous, with no condition on indices or bytes |
| PipeProtocol.InvRun | syscall.c:96-288 | mutexes, permit conservation and contiguity hold at every point of every interleaving of any number of processes |
| PipeProtocol.WriteReturns | syscall.c:125-152 | a write that gets its last space permit returns its length, and the bytes announced end with its whole buffer |
| PipeProtocol.WriteBroken | syscall.c:134-141 | a writer that gets a permit when the readers are gone spends just that permit, hands on `write` and returns -EPIPE |
| PipeProtocol.ReadReturns | syscall.c:238-287 | a read that returns, right after the grant of `read` or after any byte, reports as many bytes as it has, they are the last ones delivered, and it hands `read` on |
| PipeProtocol.ReadAnswersIff | syscall.c:244-287 | a read returns, after the grant of `read` or an element, if and only if it holds all it asked for, there is no writer, it holds `writer_in_use` bytes, or it met -1; its value is the bytes it holds, and it takes them off `writer_in_use` only in the third case |
| PipeProtocol.WriteAnswersIff | syscall.c:123-152 | a write returns if and only if all its bytes are announced or it gets a permit with no reader left; it adds its length to `writer_in_use` in the first case only |
| PipeFifo.SoundStep | syscall.c:123-149 | from a sound pipe a step leaves delivered a prefix of announced and the ring equal to the rest if and only if it is clean |
| PipeFifo.Fifo | syscall.c:115-285 | over every run of clean steps from a new pipe, whatever the interleaving, the bytes delivered are a prefix of the bytes announced |
| PipeFifo.FifoEnds | syscall.c:115-285 | after such a run the next step leaves the pipe a queue if and only if it is clean too |
| PipeFifo.ReadIsNext | syscall.c:262-287 | a returning read hands over exactly the announced bytes that follow those of earlier reads |
| PipeLimits.EndSticks | syscall.c:267-271 | a read that gets to -1 returns what it had; the permit is spent, and the byte is neither delivered nor passed |
| PipeLimits.EndStaysIff | syscall.c:123-132 | -1 stays at the read head at a step if and only if the step does not store another byte into its cell |
| PipeLimits.EndUntil | syscall.c:123-132 | over any run it stays there, and ends each read that gets there, until the store that comes to its cell, whose place among the stores is given by the two heads |
| PipeCalls.CallsThatFit | syscall.c:115-285 | if each call, as it is granted its end, starts within its length of the end of the buffer and a write has room for its bytes and no -1 among them, every step is clean and the pipe first-in first-out, whatever the interleaving |
| PipeCalls.AlwaysFifo | syscall.c:121-149 | with the head as index, the permit taken before the store and -1 as data, every run is first-in first-out, inside the buffer, with exactly the unread bytes counted |
| PipeRelease.SurplusRun | syscall.c:110-140 | with no reader left, permits minus writers that will ask for one never changes again |
| PipeRelease.RemainingRun | syscall.c:115-141 | with no reader left, a run holds at most two more steps of each writer before the mutex and one of the writer after it |
| PipeRelease.DrainIff | syscall.c:134-141 | without a reader the writers can all leave if and only if there is a permit for each that will ask for one |
| PipeRelease.CloseReleases | syscall.c:619-626 | after the last reader closes, in every continuation a writer inside can move, and all leave in a bounded number of their steps |
| PipeRelease.ExitReleasesIff | syscall.c:539-556 | after the last reader exits they can leave if and only if the permits at hand suffice |
| PipeRelease.ReadersDrainIff | syscall.c:633-641 | after the last writer is gone, the readers inside can all leave if and only if none holds `read` or an element is there |
| PipeStranded.GetsOutIff | syscall.c:115-141 | once nobody is at the other end, a process inside can get out in some run if and only if it is not stranded: a reader when `read` is free or an element is there, a writer when there are permits for it and for the one before it |
| PipeStranded.StrandedRun | syscall.c:244-271 | a process stranded in a pipe stays inside and stranded over every run |
| PipeLimits.LongWriteLeavesBuffer | syscall.c:123-133 | a write of more than 8192 bytes into a new pipe stores beyond the buffer |
| PipeLimits.FullRingOverwrites | syscall.c:128-134 | on a buffer filled by a finished write, the next write overwrites the oldest unread byte, which a reader then gets |
| PipeLimits.ExitStrandsWriter | syscall.c:539-556 | if the only reader exits then, the writer never gets out |
| PipeLimits.EndByteIsNotData | syscall.c:267-271 | after a write that starts with -1, a read of any length returns 0 |
| PipeLimits.CloseStrandsReader | syscall.c:633-641 | a reader waiting on an emptied pipe when the only writer closes never gets out |
| PipeLimits.EndOverwritten | syscall.c:267-271 | a reachable pipe whose -1 was taken lets the next write store over it, as its permit is back while its cell is still in use |
| PipeLimits.NewPipeReadReturns | syscall.c:252-260 | a read of a new pipe returns 0 though it has a writer |
| Descriptors.ReleaseInv | syscall.c:617-642 | closing one open pipe descriptor keeps every count exact and every other process's call undisturbed |
| Descriptors.FreedIsUnused | syscall.c:550-552 | a pipe is freed only when no open descriptor in any process refers to it |
| Descriptors.ShareInv | syscall.c:725-733 | a shared slot and one more count keep the counts exact up to `dup` calls |
| DescriptorCalls.FirstClosed | syscall.c:788-794 | the result is the lowest slot whose object is closed, all before it being open |
| DescriptorCalls.CloseInv | syscall.c:605-647 | `close` in any form keeps the invariant |
| DescriptorCalls.DupInvIff | syscall.c:698-736 | `dup` keeps it if and only if it does not duplicate a console descriptor |
| DescriptorCalls.Dup2InvIff | syscall.c:738-779 | `dup2` keeps it if and only if its source is no console descriptor and its target is closed |
| DescriptorCalls.PipeCallInvIff | syscall.c:781-846 | `pipe` keeps it if and only if the table does not have exactly one closed object |
| DescriptorCalls.ForkInv | syscall.c:467-486 | the slot loop of `fork` keeps it, with the same processes inside each pipe |
| DescriptorCalls.ForkCopies | syscall.c:467-486 | the child's table shows in new objects, slot by slot, what the parent's shows; no older table or object changes |
| DescriptorCalls.ExitInv | syscall.c:539-558 | the closing loop of `exit` keeps it, leaves the process no open pipe descriptor, and changes no descriptor of others |
| DescriptorCalls.WriteInvs | syscall.c:43-113 | a write by an idle process, refused or let in, keeps the invariant: the pipe it enters is allocated and has room under its count |
| DescriptorCalls.ReadInvs | syscall.c:166-238 | a read by an idle process, refused or let in, keeps it too |
| DescriptorRuns.StepInvIff | syscall.c:605-846 | a descriptor call or a resumed segment keeps the counts exact and dereferences no null or freed pipe if and only if it is regular |
| DescriptorRuns.CountsExact | syscall.c:467-486 | at every point of every run from boot each count is the number of distinct open `Fd` objects of its end over all processes plus the `dup` calls; an open pipe descriptor, and a process inside a pipe, has its pipe allocated |
| DescriptorRuns.StepEvolves | syscall.c:605-846 | whatever a call does to a pipe is a sequence of steps of the pipe machine |
| DescriptorRuns.RunEvolves | syscall.c:35-846 | from any point of a run of the whole system to a later one, a pipe goes through a run of the pipe machine, of clean steps if all are |
| DescriptorRuns.AllPipesFifo | syscall.c:115-285 | every pipe at every point of a run of clean steps is a queue |
| DescriptorRuns.FreedForGood | syscall.c:622-640 | a freed pipe is never allocated or referred to again |
| DescriptorRuns.ZeroStays | syscall.c:476-483 | once an end's count is 0 it stays 0 |
| DescriptorRelease.WritersReleased | syscall.c:619-632 | after the close of the last reader, at any later point of any run of the whole system, the writers left inside can all leave |
| DescriptorRuns.OthersKept | syscall.c:605-846 | no step changes the table or the objects of a process that does not make it |
| DescriptorRuns.ResumeFramed | syscall.c:115-288 | a resumed call brings nobody into a pipe, keeps everyone's arguments, and is out of every pipe when it returns |
| DescriptorRelease.InsiderKeepsPipe | syscall.c:550-552 | no step of the system frees a pipe that a process is inside |
| DescriptorRelease.WritersLeaveIff | syscall.c:134-141 | without a reader, some run of the whole system lets all writers out of a pipe if and only if there is a permit for each that will ask for one |
| DescriptorRelease.WritersAfterExitIff | syscall.c:539-556 | after the exit of the last reader, at any later point of any run, that is so if and only if the permits before the exit sufficed |
| DescriptorRelease.ReadersLeaveIff | syscall.c:244-271 | without a writer, some run of the whole system lets all readers out if and only if none holds `read` or an element is there |
| DescriptorRelease.ReadersAfterCloseIff | syscall.c:633-641 | after the close of the last write descriptor that is decided by what was there before |
| DescriptorRelease.StrandedStays | syscall.c:539-556 | no step of the whole system frees the pipe of a stranded process or gets it out |
| DescriptorResults.DupShares | syscall.c:701-735 | `dup` fails exactly when the source is closed or no slot is; else the lowest closed slot shows the source's own object and nothing else changes |
| DescriptorResults.Dup2Shares | syscall.c:738-779 | `dup2` answers -EBADF, and changes nothing, exactly when its source is closed or its target out of range; else it answers with the target, which shows the source's own object, and with a closed target and a pipe source only the count of the source's end changes, one up |
| DescriptorResults.Dup2Retargets | syscall.c:755-777 | an open target loses its object, closed and without a pipe; both counts of that pipe go down, whichever end it was, and the source's end goes up |
| DescriptorResults.Dup2Crashes | syscall.c:755-777 | with a console on either side, or both slots showing one object, a null pipe is dereferenced |
| DescriptorResults.CloseCloses | syscall.c:609-646 | `close` makes closed exactly the caller's slots that show the same object |
| DescriptorResults.CloseDrops | syscall.c:617-642 | `close` lowers the count of its own end by one, posts a permit per counted writer if and only if that was the last reader, frees the pipe if and only if that was its last descriptor, and changes nothing else |
| DescriptorResults.WriteEnters | syscall.c:43-115 | a write gets in exactly when its slot is open on a write end that somebody can read from, and then waits for `write` with its bytes; else -EBADF and no change |
| DescriptorResults.ReadEnters | syscall.c:166-238 | a read gets in exactly when its slot is open on a read end, and then waits for `read` with its length |
| DescriptorResults.PipeOpens | syscall.c:785-837 | `pipe` fails exactly when the table shows no two different closed objects; else the lowest closed slot is the read end and the lowest with another closed object the write end of a new pipe |
| DescriptorResults.DuppedNeverFreed | syscall.c:725-733 | a pipe on which `dup` was called is never freed, and the count of that end never falls to 0 |
| DescriptorResults.ConsoleDupCrashes | syscall.c:725-733 | `dup` and `dup2` of standard input right after boot dereference a null pipe |
| DescriptorResults.HalfOpenedCrashes | syscall.c:798-812 | after a `pipe` that found one closed object, its slot is open without a pipe and a write to it dereferences null |
| DescriptorResults.Dup2Miscounts | syscall.c:755-777 | `dup2` of a read end onto the write end's slot leaves the read count one short of its descriptors and `dup` calls |
| DescriptorLimits.ThirtyPipes | syscall.c:798-812 | thirty calls of `pipe` from boot leave one closed object: the next fails, half opens it, and a write to it crashes |
| DescriptorLimits.OnePipe | syscall.c:755-777 | one call of `pipe` from boot and `dup2` of its read end onto its write end leave the read count one short |
| DescriptorLimits.StrandedFromBoot | syscall.c:539-556 | from boot process 1 writes a byte and reads it back, forks, closes its write end and reads, and its child exits: it is stranded in the read, at every later point of any run |
| DescriptorLimits.ExitCounts | syscall.c:539-556 | an exit changes nothing of a pipe that stays but its counts |
| ProcessTree.LeastFrom | scheduler.c:169-177 | the result is not in use and every smaller number is |
| ProcessTree.ForkTreeIff | syscall.c:457-464 | a fork keeps parents, children, zombies and identifiers in order if and only if fewer than 65536 identifiers are in use |
| ProcessTree.ExitTree | syscall.c:518-595 | an exit moves every child and every zombie to init and keeps the whole tree in order |
| ProcessTree.WaitFinds | syscall.c:652-654 | a waiter granted a permit finds a zombie of its own at the head of its list |
| ProcessTree.WaitTree | syscall.c:649-688 | freeing the zombie at the head of the list keeps the whole tree in order |
| ProcessTree.OneList | syscall.c:530-536 | a zombie is in the list of its parent, live or init, once, and in nobody else's |
| ProcessTree.ChildrenExact | syscall.c:518-527 | `children` holds exactly a process's live children, under their identifiers |
| ProcessTree.PidsExact | scheduler.c:169-185 | the identifiers in use are exactly those of init, the live and the zombies, all different; a fork takes the least unused |
| ProcessTree.ChildlessIff | scheduler.c:135 | init has no children if and only if nothing is alive, because parents are older than their children |
| UserMemory.FreeChunk | syscall.c:438-439 | the lowest chunk marked free, all before it being taken |
| UserMemory.Apart | syscall.c:444-447 | regions of different live processes do not overlap |
| UserMemory.ForkMemory | syscall.c:438-448 | a fork keeps each taken chunk owned by exactly one live process and each free one by none |
| UserMemory.ForkDuplicates | syscall.c:448-455 | the child starts with its parent's registers, break and bytes |
| UserMemory.ForkElsewhere | syscall.c:444-448 | a fork changes no registers and no bytes of a live process, the parent included |
| UserMemory.ExitMemory | syscall.c:510-513 | an exit frees exactly the chunk of its process |
| UserMemory.ExitElsewhere | syscall.c:513 | an exit changes no registers and no bytes of another live process |
| UserMemory.ExitClears | syscall.c:510-513 | an exit leaves its region zero, its chunk free and its argument as the exit value |
| UserMemory.FullIff | syscall.c:437-439 | no chunk is free if and only if eight processes live |
| Processes.BootInv | scheduler.c:29-124 | the state at boot satisfies the invariant |
| Processes.ExactlyOnePlace | exception.c:23-183 | each live process is in exactly one place, once: on the processor, in the ready queue, in one call, finishing a fork, or stopped by a fault; nobody else is anywhere |
| Processes.StepInvIff | exception.c:23-183 | a step keeps that, the tree and the memory in order if and only if it is not a fork without an identifier |
| ProcessRuns.SchedulerHaltsIff | scheduler.c:132-138 | the scheduler halts if and only if nothing is alive |
| ProcessRuns.HaltsOnlyWhenDead | scheduler.c:129-151 | at the end of every run the scheduler has ended, nothing is alive |
| ProcessRuns.FaultForever | exception.c:132-151 | a process stopped by a fault stays so in every run and keeps the scheduler from halting |
| ProcessRuns.FaultStops | exception.c:132-151 | a fault takes the running process off the processor and puts it in no queue and no call; nothing else changes |
| ProcessRuns.FaultStopsForGood | exception.c:132-151 | at no point of any run after a fault is its process dispatched, queued or in a call, and the scheduler never halts the kernel |
| ProcessRuns.AskedHalt | exception.c:49-52 | system call 0, and an unknown one, halt the kernel at once, and nothing happens any more |
| ProcessRuns.BoundedWaiting | scheduler.c:141-150 | a process with `k` before it in the ready queue is dispatched at exactly the dispatch after `k` others, whatever happens between |
| ProcessRuns.Isolation | syscall.c:23-33 | no step changes the registers or bytes of a live process it does not work for |
| ProcessRuns.ForkCopies | syscall.c:432-506 | parent and child go on with the same registers and bytes but for the result, whenever the child's thread gets to run |
| ProcessRuns.ForkFailsIff | syscall.c:495-496 | a fork returns -EAGAIN, and makes nobody, if and only if eight processes live |
| ProcessRuns.WaitCollectsNext | syscall.c:652-688 | a wait returns the identifier of the next exited child in exit order, and frees it |
| ProcessRuns.WaitResumes | syscall.c:649-688 | after a wait its process is last in the ready queue, in no call, goes on after its trap with the child's identifier in register 2 and every other register and byte as it was, and nobody else notices |
| ProcessRuns.ForkResumes | syscall.c:457-496 | after a fork so does its caller, with the child's identifier or -EAGAIN; the child has yet to finish |
| ProcessRuns.ExitOrder | syscall.c:592-595 | over every run the children a process has collected are the first of those that exited, in order, none twice |
| ProcessRuns.AbandonedForever | syscall.c:530-536 | an exited process that init has taken over, and its identifier, are never freed: init does not wait |
| ProcessRuns.ReturnResumes | syscall.c:23-33 | a call that returns leaves its process last in the ready queue, to go on after the trap with the value in register 2, its other registers as they were and the bytes the call has left; nobody else's registers or bytes change |
| ProcessReach.Collects | syscall.c:649-688 | a parent in no call, or in `wait`, frees any exited child of its own in some run in which it makes no call but `wait` and the others only have their turns |
| ProcessReach.SomeAreAbandoned | syscall.c:530-536 | some run from boot leaves an exited process with init |
| ProcessReach.PidsRunOut | scheduler.c:169-177 | some run from boot uses up the identifiers while there is memory for a child |
| Kernel.StepInvIff | syscall.c:23-33 | processes and descriptors together: a step keeps both, and the arguments of every blocked call in its caller's registers and memory, if and only if it is regular |
| KernelRuns.BootPossible | scheduler.c:29-124 | whatever program is loaded there is such a boot state |
| KernelRuns.Projects | exception.c:43-130 | a run of the kernel is, step for step, a run of its processes and a run of its descriptors |
| KernelRuns.BlockedIsAlive | syscall.c:115-288 | a process blocked in a pipe is alive, in its call and nowhere else, inside that pipe only, with an open descriptor for it |
| KernelRuns.HaltLeavesOnlyDupped | scheduler.c:135-138 | when the scheduler halts, every pipe on which `dup` was never called has been freed |
| KernelRuns.EveryPipeFifo | syscall.c:115-285 | every pipe is a queue at every point of a clean run of the whole kernel |
| KernelRuns.WriteAnnounces | syscall.c:116-142 | the byte a blocked writer announces is the one in its memory at that moment, at the place its registers say |
| KernelRuns.ReadDelivers | syscall.c:262-287 | a returning read has put the announced bytes that come next at the address it was given, and their number in register 2; no other byte of anybody changes |
| KernelRuns.AnswerTells | syscall.c:23-33 | a descriptor call that answers leaves its process last in the ready queue to go on with the answer in register 2 |
| KernelRuns.ReturnTells | syscall.c:23-33 | so does the segment with which a blocked read or write returns |
| KernelRuns.CloseObeys | syscall.c:605-647 | `close` closes what the slot in register 5 shows |
| KernelRuns.Dup2Obeys | syscall.c:738-779 | `dup2` makes the slot in register 6 show what the slot in register 5 shows |
| KernelRuns.PipeTells | syscall.c:840-845 | the two words `pipe` stores name the slots of the read and the write end it has opened |
| KernelRuns.ForkDuplicates | syscall.c:432-506 | when the child goes on its way, after any run of anything else, registers, bytes and table are those of its parent at the fork, but for 0 in register 2 and objects of its own |
| KernelReach.CollectableIffBack | syscall.c:649-688 | some run of the kernel frees an exited process if and only if some run brings its parent, alive, out of its call or into `wait` |
| KernelReach.LostNeverCollects | syscall.c:244-271 | no run of the kernel frees an exited process whose parent is init, stopped by a fault, about to exit, or stranded in a pipe |
| KernelReach.CollectableIff | syscall.c:649-688 | where the parent is in no call, about to `wait`, to exit or to make a call that answers at once, or inside a pipe whose other end is gone, some run frees its exited child if and only if it is not lost |
| ConsoleInput.InvStep | console_buf.c:28-39 | slot and element permits are always 256 together and one reader at most is in its critical section |
| ConsoleInput.ArrivalsKept | console_buf.c:28-39 | over every run interrupts unanswered, being answered, and characters read add up to those there were and those that arrived |
| ConsoleInput.ReadKeepsLength | syscall.c:166-224 | the length a console read waits for is the one it was asked for, until it returns |
| ConsoleInput.SoundStep | console_buf.c:31-38 | the ring stays the queue of the unread input if and only if the step takes no -1; no store falls on an unread byte |
| ConsoleInput.Fifo | syscall.c:201-224 | until the first -1 the bytes handed to reads are a prefix of the input, with at most 256 unread |
| ConsoleInput.ReadReturns | syscall.c:201-224 | a read that returns, right after the grant of `readers` or after any byte, has its full length unless it met -1, its bytes are the last delivered, and it hands `readers` on |
| ConsoleInput.ReadIsNext | syscall.c:205-224 | the bytes of a clean read are exactly the input bytes that follow those of earlier reads |
| ConsoleInput.EndSticks | syscall.c:209-213 | a read that gets to -1 returns what it had, for one element permit, and leaves byte and head where they are |
| ConsoleInput.EndUntil | console_buf.c:31-38 | over any run -1 stays at the head, and ends each read that gets there, until a store of another byte comes to its cell, a number of stores away that head and tail give |
| ConsoleInput.EndOverwritten | console_buf.c:31-38 | a reachable console whose -1 was taken lets the next byte of input overwrite it |
| ConsoleOutput.InvStep | syscall.c:73-93 | `writers` is a mutex, and every byte sent is answered by an interrupt or is the one waited for |
| ConsoleOutput.NeverInterleaved | syscall.c:73-93 | at every point of every run the output is whole completed buffers and a prefix of at most one more, with at most one byte unacknowledged |
| ConsoleOutput.WriteReturns | syscall.c:73-93 | a write returns its length when the output ends with its buffer, an empty one at the grant of `writers`, and hands `writers` on |
| ConsoleOutput.WriteKeepsBuffer | syscall.c:43-93 | the buffer a console write puts out is the one it was asked for, until it returns |
| DoublyLinkedList.List.constructor | dllist.c:12-20 | a new list is a well-formed ring of its sentinel alone |
| DoublyLinkedList.List.InsertBefore | dllist.c:22-33 | one value goes in before a given node; the ring stays well formed and every other node keeps its place |
| DoublyLinkedList.List.InsertAfter | dllist.c:35-38 | one value goes in after a given node |
| DoublyLinkedList.List.Append | dllist.c:40-43 | the contents gain a last value |
| DoublyLinkedList.List.Prepend | dllist.c:45-48 | the contents gain a first value |
| DoublyLinkedList.List.Delete | dllist.c:51-56 | the contents lose the value at a place, the ring closes over it and the node is freed |
| DoublyLinkedList.List.Empty | dllist.c:58-61 | true if and only if the contents are empty |
| DoublyLinkedList.List.Size | dllist.c:76-89 | the loop ends with the length of the contents |
| DoublyLinkedList.List.Free | dllist.c:63-69 | the loop ends with every node freed, the sentinel too |
| PipeObject.SlotIsRemainder | syscall.c:132 | the cell the ring theory uses is the remainder by 8192 that the code computes |
| PipeObject.DriveWriteRuns | syscall.c:125-153 | what a writing thread does on its own are its own steps of the pipe machine, and it stops only when it returns or no permit is there |
| PipeObject.DriveReadRuns | syscall.c:244-287 | what a reading thread does on its own are its own steps of the pipe machine, and it stops only when it returns or no element is there |
| PipeObject.PipeStruct.constructor | syscall.c:815-829 | the fields of a new `struct Pipe` are those of the pipe machine's new pipe |
| PipeObject.PipeStruct.WriteLoop | syscall.c:125-152 | the loop over the buffer, in place, ends where the machine's segments end: blocked at byte `i`, broken or complete |
| PipeObject.PipeStruct.TakeWrite | syscall.c:115-153 | the writing thread from the grant of `write` to its next block or return changes the object as the machine's segments change the pipe |
| PipeObject.PipeStruct.TakeSpace | syscall.c:134-153 | the same from the grant of `space_available`, the -EPIPE return included |
| PipeObject.PipeStruct.ReadLoop | syscall.c:244-287 | the read loop ends where the machine's segments end, with the bytes it has copied |
| PipeObject.PipeStruct.TakeRead | syscall.c:238-288 | the reading thread from the grant of `read` to its next block or return changes the object as the machine's segments change the pipe, with the same bytes |
| PipeObject.PipeStruct.TakeElement | syscall.c:262-288 | the same from the grant of `nelement`, the early return at -1 included |
| PipeObject.PipeStruct.CloseReader | syscall.c:620-626 | the loop posts a permit for every counted writer when the last reader goes |
| DescriptorObject.FileTables.FindClosed | syscall.c:713-719 | the search loop finds the lowest closed slot |
| DescriptorObject.FileTables.DoPipe | syscall.c:781-837 | both searches, both -EMFILE returns and all assignments end in the state and value of the pipe call; on success the two slots found hold the ends of a new pipe, the read end below the write end |
| DescriptorObject.FileTables.DoClose | syscall.c:605-647 | every branch, the permit loop and `free` included, ends in the state and value of the close call |
| DescriptorObject.FileTables.DoDup | syscall.c:698-736 | the search and the assignments end in the state and value of the dup call, a dereference of a null pipe included |
| DescriptorObject.FileTables.DoDup2 | syscall.c:738-779 | the assignments, with an open target or a closed one, end in the state and value of the dup2 call |
| DescriptorObject.FileTables.CopySlots | syscall.c:467-486 | the loop over the slots copies the whole table |
| DescriptorObject.FileTables.CloseAll | syscall.c:539-558 | the loop over the slots closes the whole table |
| ProcessObject.ProcessTable.GetNewPid | scheduler.c:169-177 | the loop ends, because the identifiers in use are finitely many, with the least unused one |
| ProcessObject.ProcessTable.DestroyPid | scheduler.c:179-185 | the identifier is free afterwards and no other changes |
| ProcessObject.ProcessTable.Fork | syscall.c:457-464 | the new control block, its truncated identifier and the parent's children end as the tree's fork says |
| ProcessObject.ProcessTable.AdoptChildren | syscall.c:522-527 | the first adoption loop ends with every child moved to init |
| ProcessObject.ProcessTable.BequeathWaiters | syscall.c:530-536 | the second ends with every zombie moved to init, in order, one permit each |
| ProcessObject.ProcessTable.Exit | syscall.c:518-595 | leaving the parent's children, both adoption loops and the end, freed or a zombie, together are the tree's exit |
| ProcessObject.ProcessTable.Wait | syscall.c:654-688 | with a permit it finds a zombie, frees it and its identifier, and returns that identifier |
| ProcessObject.MachineMemory.Fork | syscall.c:438-491 | the loop takes the lowest free chunk and copies the parent's region and registers into it, or finds none |
| ProcessObject.MachineMemory.Exit | syscall.c:510-513 | the chunk is free, the region zero, the exit value kept |
| ProcessObject.Scheduler.Schedule | scheduler.c:129-151 | on the linked list: halt, idle, or dispatch the head |
| ProcessObject.Scheduler.Interrupt | exception.c:154-161 | the running process goes to the end of the queue, `noop` does not |
| ProcessObject.Scheduler.SyscallReturn | syscall.c:31 | the caller goes to the end of the queue |
| ConsoleObject.DriveInputRuns | console_buf.c:28-41 | what the input thread does on its own is a run of the console machine over its characters, and it stops only where it has to wait |
| ConsoleObject.InputRound | console_buf.c:29-39 | one round of the input thread: it takes an interrupt, stores a character, or waits for the one that is not there |
| ConsoleObject.InputAnswers | console_buf.c:28-41 | the input thread answers the smaller of the interrupts there and the free slots, one character each in order, and then waits for whichever has run out |
| ConsoleObject.DriveReadRuns | syscall.c:205-224 | what a console read does on its own are its own steps of the console machine, and it stops only when it returns or no element is there |
| ConsoleObject.ConsoleBuf.constructor | console_buf.c:12-26 | the new buffer and its semaphores are those of the console machine |
| ConsoleObject.ConsoleBuf.ConsToBuff | console_buf.c:28-41 | the loop over the ring, in place, reads as many characters as there are interrupts and slots for, appends them to the input, moves as many permits, and ends where the machine's segments end |
| ConsoleObject.ConsoleBuf.ReadLoop | syscall.c:205-224 | the console loop of a read ends where the machine's segments end, with the bytes it has copied |
| ConsoleObject.ConsoleBuf.TakeReaders | syscall.c:201-224 | a console read from the grant of `readers` to its next block or return changes the object as the machine's segments change the console |
| ConsoleObject.ScreenSems.WriteLoop | syscall.c:82-93 | the console loop of a write ends where the machine's segments end |

## Left out

- The simulator, MIPS execution, `load_user_program`, `InitUserArgs`, `perform_execve` and `do_execve`: user code is a step that may change its own registers and bytes in any way.
- Exceptions of unknown kind, on which the simulator exits (exception.c:147-149).
- The `kt` and `jrb` libraries, which are not part of this model: semaphores are permit counts, threads are never preempted between two `P_kt_sem`, `V_kt_sem` does not yield, a thread ends at `syscall_return`; trees are finite maps.
- `ioctl`, `fstat`, `getpagesize`, `getdtablesize`, `getpid`, `getppid` and `sbrk`: calls that return some value and touch no descriptor.
- The address and length checks of reads and writes (-EFAULT, -EFBIG, -EINVAL) and `ValidAddress`: buffers are taken to lie in the caller's region.
- Console reads and writes are proved on machines of their own; in the whole kernel they are calls that return some value and leave some bytes.
- A store beyond a pipe's buffer changes no modelled cell and a byte fetched from there is arbitrary; what else lies there is not modelled.
- Integers are unbounded, except for identifiers, which are truncated to 16 bits as in the code.
- `reference_count` of an `Fd`, which nothing reads, the pipe allocated by a `pipe` call that fails, and the `Fd` objects of exited processes, which are never freed.
- A write takes a copy of its buffer when it begins, and a read puts its bytes in memory when it returns; `Kernel.StepInvIff` and `ProcessRuns.Isolation` say why nobody can tell.
- PipeObject.PipeStruct.WriteLoop: runs one thread up to its next block; which thread goes next is the machine's choice.
- DescriptorObject.FileTables.DoClose: holds pipes as values, because the tables of all processes share them; `PipeObject.PipeStruct` is the pipe updated in place.
- `do_fork` and `do_exit` are proved part by part (family, memory, descriptors); their parts together are the functions of `Processes.dfy` and `Kernel.dfy`.
- POSIX end-of-file and blocking behaviour, where the code does not have it.
- ProcessReach.CollectableIff: ignores which call the parent is in and lets any call return; a step on the way to `KernelReach.CollectableIff`, which does not.
- KernelReach.CollectableIff: leaves the parents named in the section above, whose call goes wrong, has yet to enter a pipe, or is in a pipe with somebody at the other end, to `KernelReach.CollectableIffBack`, whose condition is about runs.
- DescriptorLimits.StrandedFromBoot: is a run of the descriptors; the dispatches, traps and returns between its calls are not spelled out.
- `kt_joinall`: `scheduler` may run while a thread could still go on, so runs and what can be reached by them include more than the code's; the runs from boot that are given move by move let every thread go as far as it can before the next turn.
- PipeLimits.EndUntil: says nothing of a read whose index has left the buffer, which fetches something else than the byte at the read head.
- PipeCalls.CallsThatFit: goes one way; a call that does not fit may still be lucky, and `PipeFifo.SoundStep` is the exact condition step by step.
