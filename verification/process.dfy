/** Process control blocks, the per-process state machine and the ledger lookup
    shared by both scheduling policies. */
module Process {

  datatype Option<T> = None | Some(value: T)

  /** The five lifecycle states of a process. */
  datatype State = New | Ready | Running | Waiting | Terminated

  /** Sentinel for "no I/O request pending"; simulated times are natural numbers, so it is never a time. */
  const NO_IO: int := -1

  /** Sentinel for an unset start time and for "no partition assigned". */
  const UNSET: int := -1

  /** A process control block: the input descriptor's fields plus the runtime fields. */
  datatype PCB = PCB(
    pid: int,
    size: nat,             // memory requirement in MB
    arrivalTime: nat,
    processingTime: nat,   // total CPU burst
    remainingTime: nat,
    priority: int,         // lower number = more urgent
    ioFreq: nat,           // CPU ms between I/O requests, 0 = none
    ioDuration: nat,
    state: State,
    partitionNumber: int,  // UNSET when no partition is held
    startTime: int,        // UNSET until the first dispatch
    nextIoTime: int,       // absolute time of the next I/O request, or NO_IO
    timeInQuantum: nat)    // round-robin accounting

  /** An outstanding I/O: the process and the time its I/O completes. */
  datatype IoRecord = IoRecord(pid: int, completeTime: nat)

  function Pids(q: seq<PCB>): seq<int>
  {
    seq(|q|, i requires 0 <= i < |q| => q[i].pid)
  }

  lemma PidsConcat(a: seq<PCB>, b: seq<PCB>)
    ensures Pids(a + b) == Pids(a) + Pids(b)
  {
    assert forall i :: 0 <= i < |a + b| ==> Pids(a + b)[i] == (Pids(a) + Pids(b))[i];
  }

  /** Rewriting the entry just appended. */
  lemma SnocUpdate(xs: seq<PCB>, p: PCB, q: PCB)
    ensures (xs + [p])[|xs| := q] == xs + [q]
  {
  }

  /** No two entries carry the same process id. */
  predicate DistinctPids(q: seq<PCB>)
  {
    forall i, j :: 0 <= i < j < |q| ==> q[i].pid != q[j].pid
  }

  /** The first position of `x` in `xs`, or -1 when it does not occur. */
  function IndexOf(xs: seq<int>, x: int): (r: int)
    ensures -1 <= r < |xs|
    ensures r == -1 <==> x !in xs
    ensures r != -1 ==> xs[r] == x && forall i :: 0 <= i < r ==> xs[i] != x
    decreases |xs|
  {
    if |xs| == 0 then -1
    else if xs[0] == x then 0
    else
      var k := IndexOf(xs[1..], x);
      assert xs == [xs[0]] + xs[1..];
      if k == -1 then -1 else k + 1
  }

  /** The ledger position of `pid`: the first entry carrying it, or -1 when there is none. */
  function JobIndex(jobs: seq<PCB>, pid: int): (r: int)
    ensures -1 <= r < |jobs|
    ensures r == -1 <==> pid !in Pids(jobs)
    ensures r != -1 ==> jobs[r].pid == pid && forall i :: 0 <= i < r ==> jobs[i].pid != pid
  {
    var r := IndexOf(Pids(jobs), pid);
    assert r != -1 ==> Pids(jobs)[r] == jobs[r].pid;
    assert forall i :: 0 <= i < |jobs| ==> Pids(jobs)[i] == jobs[i].pid;
    r
  }

  /** In a ledger without repeated ids, the entry carrying `pid` is the one at position `i`. */
  lemma JobIndexOfDistinct(jobs: seq<PCB>, i: nat)
    requires DistinctPids(jobs) && i < |jobs|
    ensures JobIndex(jobs, jobs[i].pid) == i
  {
    assert Pids(jobs)[i] == jobs[i].pid;
  }

  /** Linear search of the ledger by process id, as every phase does before updating an entry. */
  method FindJobIdx(jobs: seq<PCB>, pid: int) returns (idx: int)
    ensures idx == JobIndex(jobs, pid)
  {
    var i := 0;
    while i < |jobs|
      invariant 0 <= i <= |jobs|
      invariant forall k :: 0 <= k < i ==> jobs[k].pid != pid
    {
      if jobs[i].pid == pid {
        assert Pids(jobs)[i] == pid;
        return i;
      }
      i := i + 1;
    }
    assert forall k :: 0 <= k < |jobs| ==> Pids(jobs)[k] != pid;
    return -1;
  }
}
