/** The kernel's scheduler as a state machine over values: one function per
    event handler, each stating what the handler promises about the ready
    queue and the running slot. The class in module Kernel is proved to
    update its fields exactly as these functions say. */
module Scheduler {
  import opened Pcb

  /** The scheduling discipline, fixed when the kernel is created. Only FCFS
      and preemptive Priority are implemented; under any other name an
      arrival records nothing. */
  datatype Discipline = FCFS | Priority | Other

  /** The discipline a scheduling-algorithm name selects. */
  function DisciplineOf(name: string): (d: Discipline)
    ensures d == FCFS <==> name == "FCFS"
    ensures d == Priority <==> name == "Priority"
  {
    if name == "FCFS" then FCFS else if name == "Priority" then Priority else Other
  }

  /** The running slot: the idle process, or a real PCB. */
  datatype Slot = Idle | Running(pcb: PCB)

  /** The idle process always has PID 0. */
  const IdlePid: Pid := 0

  /** The PID the kernel reports for a running slot. */
  function SlotPid(slot: Slot): Pid {
    match slot
    case Idle => IdlePid
    case Running(p) => p.pid
  }

  /** Everything the scheduler keeps. `idlePriority` is the priority field of
      the idle PCB, which a set-priority call made while idle overwrites. */
  datatype KernelState = KernelState(algorithm: Discipline, ready: seq<PCB>, running: Slot, idlePriority: int)

  /** The PCBs the kernel tracks: the running one, if real, then the ready queue. */
  function Tracked(s: KernelState): seq<PCB> {
    (if s.running.Running? then [s.running.pcb] else []) + s.ready
  }

  /** The idle process runs only when nothing is ready, and it is the only
      thing that ever runs under a discipline that is not implemented. */
  predicate Consistent(s: KernelState) {
    (s.running.Idle? ==> s.ready == []) && (s.algorithm == Other ==> s.running.Idle?)
  }

  /** Under Priority no ready PCB ranks strictly before the running one. */
  predicate RanksRespected(s: KernelState) {
    s.algorithm == Priority && s.running.Running? ==>
      forall i :: 0 <= i < |s.ready| ==> !Before(s.ready[i], s.running.pcb)
  }

  /** `r` is `q` with one occurrence of `x` taken out; the others keep their order. */
  predicate RemovedOne(q: seq<PCB>, x: PCB, r: seq<PCB>) {
    exists k :: 0 <= k < |q| && q[k] == x && r == RemoveAt(q, k)
  }

  /** A freshly constructed kernel: the idle process runs and nothing is ready. */
  function Init(algorithm: Discipline): (s: KernelState)
    ensures s.algorithm == algorithm
    ensures Tracked(s) == [] && SlotPid(s.running) == IdlePid
    ensures Consistent(s) && RanksRespected(s)
  {
    KernelState(algorithm, [], Idle, 0)
  }

  /** A new process with the given PID and priority arrives. */
  function Arrive(s: KernelState, pid: Pid, priority: int): (t: KernelState)
    ensures t.algorithm == s.algorithm && t.idlePriority == s.idlePriority
    // under a discipline that is not implemented the arrival is not recorded
    ensures s.algorithm == Other ==> t == s
    ensures Consistent(s) ==> Consistent(t)
  {
    var arrived := PCB(pid, priority);
    match s.algorithm
    case FCFS =>
      var q := s.ready + [arrived];
      if s.running.Idle? then
        s.(ready := q[1..], running := Running(q[0]))
      else
        s.(ready := q)
    case Priority =>
      if s.running.Idle? || Before(arrived, s.running.pcb) then
        s.(ready := if s.running.Running? then s.ready + [s.running.pcb] else s.ready,
           running := Running(arrived))
      else
        s.(ready := s.ready + [arrived])
    case Other => s
  }

  /** Under an implemented discipline the arrival is tracked, nothing is
      lost, and a real process runs afterwards. */
  lemma ArriveTracksArrival(s: KernelState, pid: Pid, priority: int)
    requires s.algorithm != Other
    ensures Arrive(s, pid, priority).running.Running?
    ensures multiset(Tracked(Arrive(s, pid, priority))) == multiset(Tracked(s)) + multiset{PCB(pid, priority)}
  {
    if s.running.Idle? {
      ArriveFromIdleTracks(s, pid, priority);
    } else if s.algorithm == Priority && Before(PCB(pid, priority), s.running.pcb) {
      var t := Arrive(s, pid, priority);
      assert t == s.(ready := s.ready + [s.running.pcb], running := Running(PCB(pid, priority)));
      assert Tracked(t) == [PCB(pid, priority)] + s.ready + [s.running.pcb];
    } else {
      var t := Arrive(s, pid, priority);
      assert t == s.(ready := s.ready + [PCB(pid, priority)]);
      assert Tracked(t) == Tracked(s) + [PCB(pid, priority)];
    }
  }

  /** The case of an idle kernel for ArriveTracksArrival. */
  lemma ArriveFromIdleTracks(s: KernelState, pid: Pid, priority: int)
    requires s.algorithm != Other && s.running.Idle?
    ensures Arrive(s, pid, priority).running.Running?
    // FCFS runs the head of the queue after the append; Priority runs the arrival
    ensures Arrive(s, pid, priority).running ==
      Running(if s.algorithm == FCFS then (s.ready + [PCB(pid, priority)])[0] else PCB(pid, priority))
    ensures multiset(Tracked(Arrive(s, pid, priority))) == multiset(Tracked(s)) + multiset{PCB(pid, priority)}
  {
    var arrived := PCB(pid, priority);
    var t := Arrive(s, pid, priority);
    assert Tracked(s) == s.ready;
    if s.algorithm == FCFS {
      var q := s.ready + [arrived];
      assert t == s.(ready := q[1..], running := Running(q[0]));
      assert Tracked(t) == q;
    } else {
      assert t == s.(running := Running(arrived));
      assert Tracked(t) == [arrived] + s.ready;
    }
  }

  /** Under FCFS a real running process is never displaced and the arrival
      joins the tail of the queue; an idle kernel runs the arrival at once. */
  lemma ArriveFcfsRule(s: KernelState, pid: Pid, priority: int)
    requires s.algorithm == FCFS
    ensures var t := Arrive(s, pid, priority);
            (s.running.Running? ==> t.running == s.running && t.ready == s.ready + [PCB(pid, priority)]) &&
            (Consistent(s) && s.running.Idle? ==> t.running == Running(PCB(pid, priority)) && t.ready == [])
  {
  }

  /** Under Priority the running slot changes iff the kernel was idle or the
      arrival ranks strictly before the incumbent, and then the arrival runs;
      otherwise the incumbent keeps running. Of the arrival and a real
      incumbent, the one that does not run joins the tail of the queue; an
      idle kernel leaves the queue alone. */
  lemma ArrivePriorityRule(s: KernelState, pid: Pid, priority: int)
    requires s.algorithm == Priority
    ensures var t := Arrive(s, pid, priority);
            (t.running != s.running <==> s.running.Idle? || Before(PCB(pid, priority), s.running.pcb)) &&
            (t.running != s.running ==> t.running == Running(PCB(pid, priority))) &&
            (s.running.Running? ==>
              t.ready == s.ready + [if t.running == s.running then PCB(pid, priority) else s.running.pcb]) &&
            (s.running.Idle? ==> t.ready == s.ready)
  {
  }

  /** The result of picking the next process: what runs, and what stays ready. */
  datatype Pick = Pick(next: Slot, rest: seq<PCB>)

  /** Removes and returns the next process to run from the ready queue `q`, or
      the idle process if `q` is empty. Picking from a non-empty queue under a
      discipline that is not implemented is a crash in the kernel, excluded here. */
  function ChooseNext(algorithm: Discipline, q: seq<PCB>): (r: Pick)
    requires algorithm == Other ==> q == []
    ensures r.next.Idle? <==> q == []
    ensures r.next.Idle? ==> r.rest == []
    // exactly the picked PCB leaves the queue; the others keep their order
    ensures r.next.Running? ==>
      RemovedOne(q, r.next.pcb, r.rest) && multiset(r.rest) + multiset{r.next.pcb} == multiset(q)
    // FCFS takes the head
    ensures algorithm == FCFS && q != [] ==> r.next == Running(q[0]) && r.rest == q[1..]
    // Priority takes an element no other ranks strictly before
    ensures algorithm == Priority && q != [] ==>
      forall j :: 0 <= j < |q| ==> !Before(q[j], r.next.pcb)
    ensures algorithm == Priority && q != [] ==>
      forall j :: 0 <= j < |r.rest| ==> !Before(r.rest[j], r.next.pcb)
  {
    if q == [] then Pick(Idle, [])
    else
      var k := if algorithm == FCFS then 0 else BestIndex(q);
      Pick(Running(q[k]), RemoveAt(q, k))
  }

  /** The running process exits; the next process to run is picked. */
  function Exit(s: KernelState): (t: KernelState)
    requires s.algorithm == Other ==> s.ready == []
    ensures t.algorithm == s.algorithm && t.idlePriority == s.idlePriority
    ensures t.running.Idle? <==> s.ready == []
    // the exiting PCB is dropped and every ready PCB stays tracked
    ensures multiset(Tracked(t)) == multiset(s.ready)
    ensures Consistent(t) && RanksRespected(t)
    ensures s.algorithm == FCFS && s.ready != [] ==>
      t.running == Running(s.ready[0]) && t.ready == s.ready[1..]
  {
    var pick := ChooseNext(s.algorithm, s.ready);
    s.(ready := pick.rest, running := pick.next)
  }

  /** The running process sets its own priority. Under Priority, the best
      ready PCB then takes over if it ranks strictly before the running one. */
  function SetPriority(s: KernelState, newPriority: int): (t: KernelState)
    requires s.running.Idle? ==> s.ready == []
    ensures t.algorithm == s.algorithm
    // while idle, only the idle PCB's priority changes
    ensures s.running.Idle? ==> t == s.(idlePriority := newPriority)
    // otherwise the running PCB's priority is overwritten, and it stays tracked
    ensures s.running.Running? ==>
      t.idlePriority == s.idlePriority && t.running.Running? &&
      multiset(Tracked(t)) == multiset(s.ready) + multiset{s.running.pcb.(priority := newPriority)}
    ensures Consistent(s) ==> Consistent(t)
  {
    match s.running
    case Idle => s.(idlePriority := newPriority)
    case Running(p) =>
      var current := p.(priority := newPriority);
      if s.algorithm == Priority && s.ready != [] then
        var k := BestIndex(s.ready);
        if Before(s.ready[k], current) then
          s.(ready := RemoveAt(s.ready, k) + [current], running := Running(s.ready[k]))
        else
          s.(running := Running(current))
      else
        s.(running := Running(current))
  }

  /** When a real process sets its priority, it is switched out iff the
      discipline is Priority and some ready PCB now ranks strictly before it.
      Without a switch the queue is untouched; with one, the best ready PCB
      leaves the queue and the reprioritised PCB joins its tail. */
  lemma SetPrioritySwitchRule(s: KernelState, newPriority: int)
    requires s.running.Running?
    ensures var current := s.running.pcb.(priority := newPriority);
            var t := SetPriority(s, newPriority);
            (t.running != Running(current) <==>
              s.algorithm == Priority && exists i :: 0 <= i < |s.ready| && Before(s.ready[i], current)) &&
            (t.running == Running(current) ==> t.ready == s.ready) &&
            (t.running != Running(current) ==>
              t.ready != [] && t.ready[|t.ready| - 1] == current &&
              RemovedOne(s.ready, t.running.pcb, t.ready[..|t.ready| - 1]) &&
              forall j :: 0 <= j < |s.ready| ==> !Before(s.ready[j], t.running.pcb))
  {
    var current := s.running.pcb.(priority := newPriority);
    var t := SetPriority(s, newPriority);
    if s.algorithm == Priority && s.ready != [] {
      var k := BestIndex(s.ready);
      if Before(s.ready[k], current) {
        assert t == s.(ready := RemoveAt(s.ready, k) + [current], running := Running(s.ready[k]));
        assert t.ready[..|t.ready| - 1] == RemoveAt(s.ready, k);
      } else {
        assert t == s.(running := Running(current));
      }
    } else {
      assert t == s.(running := Running(current));
    }
  }

  /** After a set-priority call no ready PCB ranks strictly before the running one. */
  lemma SetPriorityKeepsRanks(s: KernelState, newPriority: int)
    requires s.running.Idle? ==> s.ready == []
    ensures RanksRespected(SetPriority(s, newPriority))
  {
  }

  /** Under Priority an arrival keeps the running PCB ranked first. */
  lemma ArriveKeepsRanks(s: KernelState, pid: Pid, priority: int)
    requires Consistent(s) && RanksRespected(s)
    ensures RanksRespected(Arrive(s, pid, priority))
  {
  }

  /** An arrival adds exactly its own PID to the tracked PIDs, so a fresh PID
      keeps them distinct. */
  lemma ArriveAddsPid(s: KernelState, pid: Pid, priority: int)
    requires s.algorithm != Other
    ensures PidBag(Tracked(Arrive(s, pid, priority))) == PidBag(Tracked(s)) + multiset{pid}
    ensures DistinctPids(Tracked(s)) && pid !in PidBag(Tracked(s)) ==>
      DistinctPids(Tracked(Arrive(s, pid, priority)))
  {
    ArriveTracksArrival(s, pid, priority);
    PidBagOfAddition(Tracked(s), Tracked(Arrive(s, pid, priority)), PCB(pid, priority));
  }

  /** The running PCB is never also waiting in the ready queue. */
  lemma RunningNotReady(s: KernelState)
    requires s.running.Running? && DistinctPids(Tracked(s))
    ensures s.running.pcb.pid !in PidBag(s.ready)
    ensures s.running.pcb !in s.ready
  {
    PidBagConcat([s.running.pcb], s.ready);
    assert s.running.pcb.pid in PidBag(Tracked(s));
  }

  /** Exit drops exactly the exiting PID from the tracked PIDs. */
  lemma ExitDropsRunningPid(s: KernelState)
    requires s.algorithm == Other ==> s.ready == []
    ensures PidBag(Tracked(s)) ==
      PidBag(Tracked(Exit(s))) + if s.running.Running? then multiset{s.running.pcb.pid} else multiset{}
  {
    PidBagOfPermutation(s.ready, Tracked(Exit(s)));
    if s.running.Running? {
      PidBagOfAddition(s.ready, Tracked(s), s.running.pcb);
    } else {
      assert Tracked(s) == s.ready;
    }
  }

  /** With distinct PIDs, the exiting PID is tracked nowhere after an exit and
      the PIDs stay distinct. */
  lemma ExitKeepsDistinct(s: KernelState)
    requires s.algorithm == Other ==> s.ready == []
    requires DistinctPids(Tracked(s))
    ensures DistinctPids(Tracked(Exit(s)))
    ensures s.running.Running? ==> s.running.pcb.pid !in PidBag(Tracked(Exit(s)))
  {
    var after := PidBag(Tracked(Exit(s)));
    ExitDropsRunningPid(s);
    forall p | p in after ensures after[p] <= 1 {
      assert after[p] <= PidBag(Tracked(s))[p];
    }
    if s.running.Running? {
      RunningNotReady(s);
      assert PidBag(Tracked(s))[s.running.pcb.pid] <= 1;
    }
  }

  /** A set-priority call never changes which PIDs are tracked, so it keeps
      them distinct. */
  lemma SetPriorityKeepsPids(s: KernelState, newPriority: int)
    requires s.running.Idle? ==> s.ready == []
    ensures PidBag(Tracked(SetPriority(s, newPriority))) == PidBag(Tracked(s))
  {
    var t := SetPriority(s, newPriority);
    if s.running.Running? {
      PidBagOfReplacement(s.ready, s.running.pcb, s.running.pcb.(priority := newPriority), Tracked(t));
    } else {
      assert Tracked(t) == Tracked(s);
    }
  }

  /** With distinct PIDs the Priority pick is the unique minimum: the PCB at
      the picked position ranks strictly before the PCB at every other
      position, and no other position holds a PCB that nothing ranks before. */
  lemma PriorityPicksUniqueMinimum(q: seq<PCB>)
    requires q != [] && DistinctPids(q)
    ensures ChooseNext(Priority, q).next == Running(q[BestIndex(q)])
    ensures forall j :: 0 <= j < |q| && j != BestIndex(q) ==>
      Before(ChooseNext(Priority, q).next.pcb, q[j])
    ensures forall i :: 0 <= i < |q| && (forall j :: 0 <= j < |q| ==> !Before(q[j], q[i])) ==>
      i == BestIndex(q)
  {
    BestIsStrictMinimum(q);
  }

  /** The events the simulator delivers, one handler each. */
  datatype Event =
    | Arrival(pid: Pid, priority: int, processType: string)
    | ExitCall
    | SetPriorityCall(newPriority: int)
    | InitSemaphore(semaphoreId: int, initialValue: int)
    | SemaphoreP(semaphoreId: int)
    | SemaphoreV(semaphoreId: int)
    | InitMutex(mutexId: int)
    | MutexLock(mutexId: int)
    | MutexUnlock(mutexId: int)
    | TimerInterrupt

  /** The semaphore, mutex and timer handlers do nothing to the scheduler. */
  predicate IsStub(e: Event) {
    !(e.Arrival? || e.ExitCall? || e.SetPriorityCall?)
  }

  /** The kernel's state after handling one event. */
  function Step(s: KernelState, e: Event): (t: KernelState)
    requires Consistent(s)
    ensures Consistent(t) && t.algorithm == s.algorithm
    ensures IsStub(e) ==> t == s
    ensures RanksRespected(s) ==> RanksRespected(t)
  {
    match e
    case Arrival(pid, priority, _) =>
      if RanksRespected(s) then ArriveKeepsRanks(s, pid, priority); Arrive(s, pid, priority)
      else Arrive(s, pid, priority)
    case ExitCall => Exit(s)
    case SetPriorityCall(newPriority) =>
      SetPriorityKeepsRanks(s, newPriority);
      SetPriority(s, newPriority)
    case _ => s
  }

  /** The kernel's state after handling `events` in order. */
  function Replay(s: KernelState, events: seq<Event>): (t: KernelState)
    requires Consistent(s)
    ensures Consistent(t) && t.algorithm == s.algorithm
    ensures RanksRespected(s) ==> RanksRespected(t)
    decreases |events|
  {
    if events == [] then s else Replay(Step(s, events[0]), events[1..])
  }

  /** Every arrival in `events` brings a PID the kernel is not tracking then. */
  predicate FreshArrivals(s: KernelState, events: seq<Event>)
    requires Consistent(s)
    decreases |events|
  {
    events == [] ||
    ((events[0].Arrival? ==> events[0].pid !in PidBag(Tracked(s))) &&
     FreshArrivals(Step(s, events[0]), events[1..]))
  }

  /** One event keeps the tracked PIDs distinct, given a fresh arrival PID. */
  lemma StepKeepsDistinct(s: KernelState, e: Event)
    requires Consistent(s) && DistinctPids(Tracked(s))
    requires e.Arrival? ==> e.pid !in PidBag(Tracked(s))
    ensures DistinctPids(Tracked(Step(s, e)))
  {
    match e
    case Arrival(pid, priority, _) =>
      if s.algorithm != Other { ArriveAddsPid(s, pid, priority); }
    case ExitCall => ExitKeepsDistinct(s);
    case SetPriorityCall(newPriority) => SetPriorityKeepsPids(s, newPriority);
    case _ =>
  }

  /** Over any run whose arrivals bring fresh PIDs, no PID is ever tracked
      twice: no PCB is duplicated between the running slot and the queue. */
  lemma {:induction false} ReplayKeepsDistinct(s: KernelState, events: seq<Event>)
    requires Consistent(s) && DistinctPids(Tracked(s)) && FreshArrivals(s, events)
    ensures DistinctPids(Tracked(Replay(s, events)))
    decreases |events|
  {
    if events != [] {
      StepKeepsDistinct(s, events[0]);
      ReplayKeepsDistinct(Step(s, events[0]), events[1..]);
    }
  }

  /** FCFS: processes 1 and 2 (both priority 0) arrive at an idle kernel, then
      two exits follow; the kernel reports 1, 1, 2 and then the idle PID. */
  lemma FcfsScenario()
    ensures var s1 := Arrive(Init(FCFS), 1, 0);
            var s2 := Arrive(s1, 2, 0);
            var s3 := Exit(s2);
            var s4 := Exit(s3);
            SlotPid(s1.running) == 1 && SlotPid(s2.running) == 1 &&
            SlotPid(s3.running) == 2 && SlotPid(s4.running) == IdlePid
  {
  }

  /** Priority: process 5 (priority 3) runs, then process 2 (priority 1)
      arrives and preempts it; 5 waits in the ready queue. */
  lemma PriorityScenario()
    ensures var s1 := Arrive(Init(Priority), 5, 3);
            var s2 := Arrive(s1, 2, 1);
            SlotPid(s1.running) == 5 && SlotPid(s2.running) == 2 && s2.ready == [PCB(5, 3)]
  {
  }
}
