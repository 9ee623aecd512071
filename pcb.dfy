/** Process control blocks and the (priority, pid) ranking used by the
    preemptive Priority discipline. A lower priority value ranks first; equal
    priorities are ordered by the lower PID. */
module Pcb {

  type Pid = int

  /** A process control block: the scheduler's record of one process. */
  datatype PCB = PCB(pid: Pid, priority: int)

  /** `a` ranks strictly before `b` in the lexicographic (priority, pid) order. */
  predicate Before(a: PCB, b: PCB) {
    a.priority < b.priority || (a.priority == b.priority && a.pid < b.pid)
  }

  /** The PIDs of a queue, in queue order. */
  function Pids(q: seq<PCB>): (r: seq<Pid>)
    ensures |r| == |q|
    ensures forall i :: 0 <= i < |q| ==> r[i] == q[i].pid
  {
    if q == [] then [] else [q[0].pid] + Pids(q[1..])
  }

  /** The PIDs of a queue, as a bag. */
  function PidBag(q: seq<PCB>): multiset<Pid> {
    multiset(Pids(q))
  }

  /** No PID occurs twice in `q`. */
  predicate DistinctPids(q: seq<PCB>) {
    forall p | p in PidBag(q) :: PidBag(q)[p] <= 1
  }

  /** The index a left-to-right minimum scan over (priority, pid) ends on: the
      candidate is replaced only by a strictly better element, so the result is
      the FIRST element of minimal rank. */
  function BestIndex(q: seq<PCB>): (k: nat)
    requires q != []
    ensures k < |q|
    ensures forall j :: 0 <= j < |q| ==> !Before(q[j], q[k])
    ensures forall j :: 0 <= j < k ==> Before(q[k], q[j])
  {
    if |q| == 1 then 0
    else
      var k := BestIndex(q[..|q| - 1]);
      if Before(q[|q| - 1], q[k]) then |q| - 1 else k
  }

  /** `q` without its element at index `k`; the others keep their order. */
  function RemoveAt(q: seq<PCB>, k: nat): (r: seq<PCB>)
    requires k < |q|
    ensures |r| + 1 == |q|
    ensures forall j :: 0 <= j < k ==> r[j] == q[j]
    ensures forall j :: k <= j < |r| ==> r[j] == q[j + 1]
    ensures multiset(r) + multiset{q[k]} == multiset(q)
  {
    assert q == q[..k] + [q[k]] + q[k + 1..];
    q[..k] + q[k + 1..]
  }

  lemma PidBagConcat(a: seq<PCB>, b: seq<PCB>)
    ensures PidBag(a + b) == PidBag(a) + PidBag(b)
  {
    assert Pids(a + b) == Pids(a) + Pids(b);
  }

  /** Removing one PCB removes exactly its PID from the bag. */
  lemma PidBagRemoveAt(q: seq<PCB>, k: nat)
    requires k < |q|
    ensures PidBag(q) == PidBag(RemoveAt(q, k)) + multiset{q[k].pid}
  {
    assert q == q[..k] + [q[k]] + q[k + 1..];
    PidBagConcat(q[..k] + [q[k]], q[k + 1..]);
    PidBagConcat(q[..k], [q[k]]);
    PidBagConcat(q[..k], q[k + 1..]);
  }

  /** The same element added to two bags can be cancelled. */
  lemma BagCancel(x: multiset<PCB>, y: multiset<PCB>, e: PCB)
    requires x + multiset{e} == y + multiset{e}
    ensures x == y
  {
    forall z ensures x[z] == y[z] {
      assert (x + multiset{e})[z] == (y + multiset{e})[z];
    }
  }

  /** Two queues holding the same PCBs, in any order, hold the same PIDs. */
  lemma {:induction false} PidBagOfPermutation(a: seq<PCB>, b: seq<PCB>)
    requires multiset(a) == multiset(b)
    ensures PidBag(a) == PidBag(b)
    decreases |a|
  {
    if a == [] {
      assert |b| == |multiset(b)| == 0;
    } else {
      assert a[0] in multiset(b);
      var j :| 0 <= j < |b| && b[j] == a[0];
      PidBagRemoveAt(a, 0);
      PidBagRemoveAt(b, j);
      var ra, rb := RemoveAt(a, 0), RemoveAt(b, j);
      BagCancel(multiset(ra), multiset(rb), a[0]);
      PidBagOfPermutation(ra, rb);
    }
  }

  /** Adding one PCB to a queue, in any position, adds exactly its PID. */
  lemma PidBagOfAddition(a: seq<PCB>, b: seq<PCB>, x: PCB)
    requires multiset(b) == multiset(a) + multiset{x}
    ensures PidBag(b) == PidBag(a) + multiset{x.pid}
  {
    PidBagOfPermutation(a + [x], b);
    PidBagConcat(a, [x]);
  }

  /** Replacing the head PCB by one with the same PID and moving PCBs around
      leaves the PIDs unchanged. */
  lemma PidBagOfReplacement(a: seq<PCB>, x: PCB, y: PCB, b: seq<PCB>)
    requires multiset(b) == multiset(a) + multiset{y} && x.pid == y.pid
    ensures PidBag(b) == PidBag([x] + a)
  {
    PidBagOfAddition(a, b, y);
    PidBagOfAddition(a, [x] + a, x);
  }

  /** In a queue with distinct PIDs, two different positions hold different PIDs. */
  lemma DistinctPidsAt(q: seq<PCB>, i: nat, j: nat)
    requires DistinctPids(q) && i < j < |q|
    ensures q[i].pid != q[j].pid
  {
    assert q == q[..i] + [q[i]] + q[i + 1..j] + [q[j]] + q[j + 1..];
    PidBagConcat(q[..i] + [q[i]] + q[i + 1..j] + [q[j]], q[j + 1..]);
    PidBagConcat(q[..i] + [q[i]] + q[i + 1..j], [q[j]]);
    PidBagConcat(q[..i] + [q[i]], q[i + 1..j]);
    PidBagConcat(q[..i], [q[i]]);
    var p := q[i].pid;
    assert p in PidBag(q);
    assert PidBag(q)[p] <= 1;
  }

  /** With distinct PIDs the minimum is unique: the element the scan picks
      ranks strictly before every other element. */
  lemma BestIsStrictMinimum(q: seq<PCB>)
    requires q != [] && DistinctPids(q)
    ensures forall j :: 0 <= j < |q| && j != BestIndex(q) ==> Before(q[BestIndex(q)], q[j])
  {
    var k := BestIndex(q);
    forall j | 0 <= j < |q| && j != k
      ensures Before(q[k], q[j])
    {
      if j < k { DistinctPidsAt(q, j, k); } else { DistinctPidsAt(q, k, j); }
    }
  }
}
