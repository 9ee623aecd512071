# Scheduler kernel model

This project models the decision core of a simulated operating-system kernel.
An external discrete-event simulator delivers one event at a time: a process
arrives, the running process exits, the running process sets its own
priority, or it makes a semaphore, mutex or timer call. The kernel updates a
ready queue and a running slot and returns the PID that should run now. The
idle process (PID 0) fills the running slot when nothing is runnable.

Two scheduling disciplines are implemented, chosen once by name when the
kernel is created:

- **FCFS**: a FIFO ready queue and no preemption.
- **Priority** (preemptive): the next process is the one with the smallest
  `(priority, pid)` pair, compared lexicographically. A lower priority value
  ranks first.

Under any other name an arrival is not recorded, so the kernel stays idle.

The project has three modules:

- `Pcb` (`pcb.dfy`): the process control block as a value, the
  `(priority, pid)` ranking `Before`, and the left-to-right minimum scan
  `BestIndex`. It also holds removal at an index, `RemoveAt`, and the bag of
  tracked PIDs with the lemmas that relate it to permutations and to
  distinctness.
- `Scheduler` (`scheduler.dfy`): the kernel's state as a value,
  `KernelState`, with one function per handler (`Arrive`, `ChooseNext`,
  `Exit`, `SetPriority`). It also holds the invariants (`Consistent`: idle
  implies an empty queue; `RanksRespected`: under Priority no ready PCB ranks
  strictly before the running one), the conservation lemmas, and the replay
  of an event sequence.
- `Kernel` (`kernel.dfy`): the class `Kernel`, whose fields the handlers
  update in place. Each event handler is proved to leave the fields exactly
  as the matching `Scheduler` function says and to keep `Valid()`; the helper
  `ChooseNextProcess` keeps `Valid()` as well. A client method
  `Scenarios` replays the two example runs through the class.

## Model

| member | source | states |
|---|---|---|
| `Pcb.BestIndex` | kernel.py:108-111 | the scan over `(priority, pid)` returns an index no element ranks strictly before, and every earlier element ranks strictly after it: it is the first minimum, as Python's `min` with a key returns |
| `Pcb.RemoveAt` | kernel.py:113 | removing one element leaves all other elements in their original order, and the bag loses exactly that element |
| `Pcb.BestIsStrictMinimum` | kernel.py:84-87 | with distinct PIDs the element the scan picks ranks strictly before every other element, so the minimum is unique |
| `Scheduler.DisciplineOf` | kernel.py:51-58 | the name "FCFS" selects FCFS, "Priority" selects Priority, and every other name selects neither |
| `Scheduler.Init` | kernel.py:35-40 | a new kernel tracks no PCB, the idle process (PID 0) runs, and both invariants hold |
| `Scheduler.Arrive` | kernel.py:47-69 | an unknown discipline records nothing, and every arrival keeps the property that idle implies an empty queue |
| `Scheduler.ArriveTracksArrival` | kernel.py:49-67 | under FCFS or Priority the arrival joins the tracked PCBs with nothing lost, and a real process runs afterwards |
| `Scheduler.ArriveFromIdleTracks` | kernel.py:54-65 | the idle-kernel case of the previous row: under FCFS the head of the queue after the append runs, under Priority the arrival runs, and no PCB is lost |
| `Scheduler.ArriveFcfsRule` | kernel.py:51-56 | under FCFS a real running process is never displaced and the arrival joins the tail; an idle kernel with an empty queue runs the arrival at once and its queue stays empty |
| `Scheduler.ArrivePriorityRule` | kernel.py:58-67 | under Priority the running slot changes iff the kernel was idle or the arrival ranks strictly before the incumbent, and then the arrival runs; otherwise the incumbent keeps running. Of the arrival and a real incumbent, the one that does not run joins the tail; an idle kernel leaves the queue alone |
| `Scheduler.ArriveKeepsRanks` | kernel.py:58-67 | after a Priority arrival no ready PCB ranks strictly before the running one |
| `Scheduler.ArriveAddsPid` | kernel.py:49-67 | an arrival adds exactly its own PID to the tracked PIDs, so a fresh PID keeps them distinct |
| `Scheduler.ChooseNext` | kernel.py:102-114 | returns idle exactly when the queue is empty. Otherwise it removes exactly one occurrence of the picked PCB, leaving the others in order. FCFS takes the head and leaves the tail; Priority takes a PCB that no ready PCB ranks strictly before, and none left behind ranks before it |
| `Scheduler.PriorityPicksUniqueMinimum` | kernel.py:107-114 | with distinct PIDs the Priority pick is the PCB at the scan's position, it ranks strictly before the PCB at every other position, and no other position holds a PCB that nothing ranks before: the minimum is unique |
| `Scheduler.Exit` | kernel.py:73-75 | the exiting PCB is dropped and every ready PCB stays tracked. The kernel becomes idle exactly when nothing was ready. Under FCFS the head runs. Both invariants hold afterwards, whatever the state before |
| `Scheduler.ExitDropsRunningPid` | kernel.py:73-75 | exit removes exactly the exiting PID from the tracked PIDs and no other |
| `Scheduler.ExitKeepsDistinct` | kernel.py:73-75 | with distinct PIDs, the exiting PID is tracked nowhere after an exit and the PIDs stay distinct |
| `Scheduler.SetPriority` | kernel.py:79-95 | while idle only the idle PCB's priority changes. Otherwise the running PCB's priority is overwritten, that PCB stays tracked, and something real still runs. Idle implies an empty queue is preserved |
| `Scheduler.SetPrioritySwitchRule` | kernel.py:83-93 | a switch happens iff the discipline is Priority and some ready PCB ranks strictly before the reprioritised one. Without a switch the queue is untouched. With one, the minimal ready PCB leaves the queue, the others keep their order, and the reprioritised PCB joins the tail |
| `Scheduler.SetPriorityKeepsRanks` | kernel.py:83-93 | after a set-priority call no ready PCB ranks strictly before the running one |
| `Scheduler.SetPriorityKeepsPids` | kernel.py:81-93 | a set-priority call never changes which PIDs are tracked, so it keeps them distinct and the running one stays tracked |
| `Scheduler.RunningNotReady` | kernel.py:79-81 | with distinct PIDs the running PCB is not also in the ready queue, so overwriting its priority affects no queued PCB |
| `Scheduler.Step` | kernel.py:47-150 | every handler keeps both invariants; the semaphore, mutex and timer handlers leave the state unchanged |
| `Scheduler.Replay` | kernel.py:47-150 | over any sequence of events, idle implies an empty queue, and under Priority the running PCB ranks first |
| `Scheduler.StepKeepsDistinct` | kernel.py:47-95 | one event keeps the tracked PIDs distinct when an arriving PID is fresh |
| `Scheduler.ReplayKeepsDistinct` | kernel.py:47-114 | over any run whose arrivals bring fresh PIDs, no PID is ever tracked twice: no PCB is duplicated |
| `Scheduler.FcfsScenario` | kernel.py:51-56 | FCFS arrivals 1 and 2, then two exits, report 1, 1, 2 and then the idle PID |
| `Scheduler.PriorityScenario` | kernel.py:58-67 | under Priority, process 5 (priority 3) runs, then process 2 (priority 1) preempts it and 5 waits |
| `Kernel.Kernel.constructor` | kernel.py:35-41 | the discipline is fixed from its name; the fields hold the initial state and `Valid()` holds |
| `Kernel.Kernel.NewProcessArrived` | kernel.py:47-69 | updates the fields exactly as `Arrive`, keeps `Valid()`, and returns the PID now running |
| `Kernel.Kernel.SyscallExit` | kernel.py:73-75 | updates the fields exactly as `Exit`, keeps `Valid()`, and returns the PID now running |
| `Kernel.Kernel.SyscallSetPriority` | kernel.py:79-95 | updates the fields exactly as `SetPriority`, keeps `Valid()`, and returns the PID now running |
| `Kernel.Kernel.ChooseNextProcess` | kernel.py:102-114 | returns the pick, leaves the ready queue exactly as `ChooseNext` says, and keeps `Valid()` |
| `Kernel.Kernel.SyscallInitSemaphore` | kernel.py:117-118 | changes no state |
| `Kernel.Kernel.SyscallSemaphoreP` | kernel.py:122-123 | changes no state and returns the running PID |
| `Kernel.Kernel.SyscallSemaphoreV` | kernel.py:127-128 | changes no state and returns the running PID |
| `Kernel.Kernel.SyscallInitMutex` | kernel.py:132-133 | changes no state |
| `Kernel.Kernel.SyscallMutexLock` | kernel.py:137-138 | changes no state and returns the running PID |
| `Kernel.Kernel.SyscallMutexUnlock` | kernel.py:142-143 | changes no state and returns the running PID |
| `Kernel.Kernel.TimerInterrupt` | kernel.py:149-150 | changes no state and returns the running PID |

## Left out

- The `logger` field (kernel.py:41) is tracing only and is not modelled.
- The `waiting_queue` field (kernel.py:28, 38) is initialised but never read or written, so it is not modelled.
- The `process_type` argument of an arrival is accepted and ignored, as in the source.
- PCBs are values, not shared objects. The source overwrites the running PCB's priority in place (kernel.py:81). The model replaces the running slot's record instead. This is equivalent because in kernel.py the running PCB object is never also in the deque, whatever the PIDs: objects only move between the running slot and the queue (kernel.py:52-56, 62-67, 91-93, 106, 113). Object identity and aliasing are therefore not modelled; `Scheduler.RunningNotReady` is the value-level analogue, which holds when arrivals bring fresh PIDs.
- The source compares the running PCB with the idle PCB by object identity. The model uses an explicit `Idle | Running(pcb)` slot, so a real process with PID 0 is still distinct from the idle process.
- `Scheduler.ChooseNext`: requires that the queue is empty under an unimplemented discipline. On a non-empty queue the source would fail on an unbound name at kernel.py:113. `Scheduler.Consistent` shows that kernels built by the constructor never reach that state.
- `Scheduler.SetPriority`: requires that an idle kernel has an empty ready queue. In the unreachable opposite case the source would append the idle PCB to the queue, which the model cannot represent. `Scheduler.Consistent` shows that state never occurs.
- Semaphore counts and wait queues, mutex ownership, blocking and wake-up, and timer-driven preemption are not modelled. The source's handlers for them are stubs that return the running PID. The two init handlers return nothing.
- Round-Robin, a two-level feedback scheduler, a memory allocator and address translation are not modelled: kernel.py has no code for any of them, and the model follows the code.
- Under Priority the ready collection only needs to yield its minimum, but kernel.py appends to a deque and keeps its order, and the model keeps that order too.
