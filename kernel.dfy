/** The kernel object the simulator drives. Each handler updates the ready
    queue and the running slot in place and returns the PID that should run
    now; each is proved to do exactly what the matching function of module
    Scheduler says. */
module Kernel {
  import opened Pcb
  import opened Scheduler

  class Kernel {
    const algorithm: Discipline
    var ready: seq<PCB>
    var running: Slot
    var idlePriority: int

    /** The scheduler state the fields hold. */
    function State(): KernelState
      reads this
    {
      KernelState(algorithm, ready, running, idlePriority)
    }

    /** The invariant every handler keeps. */
    predicate Valid()
      reads this
    {
      Consistent(State()) && RanksRespected(State())
    }

    /** The discipline is chosen once, from its name; the idle process runs. */
    constructor (schedulingAlgorithm: string)
      ensures Valid()
      ensures State() == Init(DisciplineOf(schedulingAlgorithm))
    {
      algorithm := DisciplineOf(schedulingAlgorithm);
      ready := [];
      idlePriority := 0;
      running := Idle;
    }

    /** A new process arrives; `processType` does not affect scheduling. */
    method NewProcessArrived(newProcess: Pid, priority: int, processType: string) returns (r: Pid)
      requires Valid()
      modifies this
      ensures Valid()
      ensures State() == Arrive(old(State()), newProcess, priority)
      ensures r == SlotPid(running)
    {
      ArriveKeepsRanks(State(), newProcess, priority);
      var newPcb := PCB(newProcess, priority);
      if algorithm == FCFS {
        ready := ready + [newPcb];
        if running.Idle? {
          var nextProcess := ready[0];
          ready := ready[1..];
          running := Running(nextProcess);
        }
      } else if algorithm == Priority {
        if running.Idle? || Before(newPcb, running.pcb) {
          if running.Running? {
            ready := ready + [running.pcb];
          }
          running := Running(newPcb);
        } else {
          ready := ready + [newPcb];
        }
      }
      r := SlotPid(running);
    }

    /** The running process exits and the next one is dispatched. */
    method SyscallExit() returns (r: Pid)
      requires Valid()
      modifies this
      ensures Valid()
      ensures State() == Exit(old(State()))
      ensures r == SlotPid(running)
    {
      ghost var after := Exit(State());
      assert Consistent(after) && RanksRespected(after);
      running := ChooseNextProcess();
      assert State() == after;
      r := SlotPid(running);
    }

    /** The running process sets its own priority; under Priority it yields
        to a ready PCB that now ranks strictly before it. */
    method SyscallSetPriority(newPriority: int) returns (r: Pid)
      requires Valid()
      modifies this
      ensures Valid()
      ensures State() == SetPriority(old(State()), newPriority)
      ensures r == SlotPid(running)
    {
      SetPriorityKeepsRanks(State(), newPriority);
      match running {
        case Idle => idlePriority := newPriority;
        case Running(p) => running := Running(p.(priority := newPriority));
      }
      if algorithm == Priority && |ready| > 0 {
        var k := BestIndex(ready);
        var highestPriority := ready[k];
        if Before(highestPriority, running.pcb) {
          ready := RemoveAt(ready, k);
          ready := ready + [running.pcb];
          running := Running(highestPriority);
        }
      }
      r := SlotPid(running);
    }

    /** Removes the next process to run from the ready queue and returns it,
        or the idle process when nothing is ready. */
    method ChooseNextProcess() returns (next: Slot)
      requires Valid()
      requires algorithm == Other ==> ready == []
      modifies this`ready
      ensures Valid()
      ensures Pick(next, ready) == ChooseNext(algorithm, old(ready))
    {
      if |ready| == 0 {
        return Idle;
      }
      if algorithm == FCFS {
        next := Running(ready[0]);
        ready := ready[1..];
      } else {
        var k := BestIndex(ready);
        next := Running(ready[k]);
        ready := RemoveAt(ready, k);
      }
    }

    /** Semaphore initialisation leaves the scheduler unchanged. */
    method SyscallInitSemaphore(semaphoreId: int, initialValue: int)
      ensures State() == old(State())
    {
    }

    /** Semaphore P: the running process carries on. */
    method SyscallSemaphoreP(semaphoreId: int) returns (r: Pid)
      ensures r == SlotPid(running)
    {
      r := SlotPid(running);
    }

    /** Semaphore V: the running process carries on. */
    method SyscallSemaphoreV(semaphoreId: int) returns (r: Pid)
      ensures r == SlotPid(running)
    {
      r := SlotPid(running);
    }

    /** Mutex initialisation leaves the scheduler unchanged. */
    method SyscallInitMutex(mutexId: int)
      ensures State() == old(State())
    {
    }

    /** Mutex lock: the running process carries on. */
    method SyscallMutexLock(mutexId: int) returns (r: Pid)
      ensures r == SlotPid(running)
    {
      r := SlotPid(running);
    }

    /** Mutex unlock: the running process carries on. */
    method SyscallMutexUnlock(mutexId: int) returns (r: Pid)
      ensures r == SlotPid(running)
    {
      r := SlotPid(running);
    }

    /** Timer tick: the running process carries on. */
    method TimerInterrupt() returns (r: Pid)
      ensures r == SlotPid(running)
    {
      r := SlotPid(running);
    }
  }

  /** A client of the class: FCFS with two arrivals and two exits, then a
      Priority kernel where a better arrival preempts the incumbent. */
  method Scenarios()
  {
    var fcfs := new Kernel("FCFS");
    var r := fcfs.NewProcessArrived(1, 0, "");
    assert r == 1;
    r := fcfs.NewProcessArrived(2, 0, "");
    assert r == 1;
    r := fcfs.SyscallExit();
    assert r == 2;
    r := fcfs.SyscallExit();
    assert r == IdlePid;

    var prio := new Kernel("Priority");
    r := prio.NewProcessArrived(5, 3, "");
    assert r == 5;
    r := prio.NewProcessArrived(2, 1, "");
    assert r == 2;
    r := prio.SyscallExit();
    assert r == 5;
  }
}
