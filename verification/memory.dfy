/** The fixed table of memory partitions: admission, release and the used/usable report. */
module Memory {
  import opened Process

  /** The table always has six partitions. */
  const PARTITION_COUNT: nat := 6

  /** Occupant value of a partition that holds no process. */
  const FREE: int := -1

  datatype Partition = Partition(number: int, size: nat, occupied: int)

  predicate IsFree(p: Partition)
  {
    p.occupied == FREE
  }

  predicate Fits(p: Partition, need: nat)
  {
    IsFree(p) && need <= p.size
  }

  predicate HasRoom(parts: seq<Partition>, need: nat)
  {
    exists i :: 0 <= i < |parts| && Fits(parts[i], need)
  }

  /** The first position at or after `from` whose partition is free and large enough, or -1. */
  function FirstFit(parts: seq<Partition>, need: nat, from: nat): (i: int)
    requires from <= |parts|
    ensures i == -1 ==> forall k :: from <= k < |parts| ==> !Fits(parts[k], need)
    ensures i != -1 ==> from <= i < |parts| && Fits(parts[i], need)
    ensures i != -1 ==> forall k :: from <= k < i ==> !Fits(parts[k], need)
    decreases |parts| - from
  {
    if from == |parts| then -1
    else if Fits(parts[from], need) then from
    else FirstFit(parts, need, from + 1)
  }

  /** Outcome of an admission attempt: success, the new table and the (possibly updated) PCB. */
  datatype Admission = Admission(ok: bool, parts: seq<Partition>, pcb: PCB)

  /** Admission of a process into the table. Either some free partition large enough
      now holds the process and the PCB records its number, or none exists and
      nothing changes. */
  function Assign(parts: seq<Partition>, p: PCB): (a: Admission)
    ensures |a.parts| == |parts|
    ensures a.ok <==> HasRoom(parts, p.size)
    ensures a.ok ==> exists i :: 0 <= i < |parts| && Fits(parts[i], p.size)
                        && a.parts == parts[i := parts[i].(occupied := p.pid)]
                        && a.pcb == p.(partitionNumber := parts[i].number)
    ensures !a.ok ==> a.parts == parts && a.pcb == p
  {
    var i := FirstFit(parts, p.size, 0);
    if i == -1 then Admission(false, parts, p)
    else Admission(true, parts[i := parts[i].(occupied := p.pid)], p.(partitionNumber := parts[i].number))
  }

  /** Release of everything `pid` holds: those partitions become free, all others are untouched. */
  function Release(parts: seq<Partition>, pid: int): (r: seq<Partition>)
    ensures |r| == |parts|
    ensures forall i :: 0 <= i < |parts| && parts[i].occupied == pid ==>
              IsFree(r[i]) && r[i].number == parts[i].number && r[i].size == parts[i].size
    ensures forall i :: 0 <= i < |parts| && parts[i].occupied != pid ==> r[i] == parts[i]
  {
    seq(|parts|, i requires 0 <= i < |parts| =>
      if parts[i].occupied == pid then parts[i].(occupied := FREE) else parts[i])
  }

  /** Megabytes held by occupied partitions. */
  function UsedMB(parts: seq<Partition>): nat
  {
    if parts == [] then 0
    else UsedMB(parts[..|parts| - 1]) + (if IsFree(parts[|parts| - 1]) then 0 else parts[|parts| - 1].size)
  }

  /** Megabytes held by free partitions. */
  function FreeMB(parts: seq<Partition>): nat
  {
    if parts == [] then 0
    else FreeMB(parts[..|parts| - 1]) + (if IsFree(parts[|parts| - 1]) then parts[|parts| - 1].size else 0)
  }

  function TotalMB(parts: seq<Partition>): nat
  {
    if parts == [] then 0 else TotalMB(parts[..|parts| - 1]) + parts[|parts| - 1].size
  }

  /** Every partition is counted exactly once, as used or as usable. */
  lemma {:induction false} UsedPlusFreeIsTotal(parts: seq<Partition>)
    ensures UsedMB(parts) + FreeMB(parts) == TotalMB(parts)
  {
    if parts != [] {
      UsedPlusFreeIsTotal(parts[..|parts| - 1]);
    }
  }

  /** Occupying a free partition moves exactly its size from usable to used and leaves the total alone. */
  lemma {:induction false} OccupyMovesCapacity(parts: seq<Partition>, i: nat, pid: int)
    requires i < |parts| && IsFree(parts[i]) && pid != FREE
    ensures UsedMB(parts[i := parts[i].(occupied := pid)]) == UsedMB(parts) + parts[i].size
    ensures FreeMB(parts[i := parts[i].(occupied := pid)]) + parts[i].size == FreeMB(parts)
    ensures TotalMB(parts[i := parts[i].(occupied := pid)]) == TotalMB(parts)
  {
    var q := parts[i := parts[i].(occupied := pid)];
    var n := |parts| - 1;
    if i < n {
      assert q[..n] == parts[..n][i := parts[i].(occupied := pid)];
      OccupyMovesCapacity(parts[..n], i, pid);
    } else {
      assert q[..n] == parts[..n];
    }
  }

  /** The memory report: the table itself and the used / total / usable megabytes. */
  datatype Report = Report(parts: seq<Partition>, used: nat, total: nat, usable: nat)

  function ReportOf(parts: seq<Partition>): (rep: Report)
    ensures rep.parts == parts
    ensures rep.used + rep.usable == rep.total
  {
    UsedPlusFreeIsTotal(parts);
    Report(parts, UsedMB(parts), TotalMB(parts), FreeMB(parts))
  }

  /** Walks the six partitions once and adds each size to the total and to exactly one of used / usable. */
  method MemorySnapshot(parts: seq<Partition>) returns (rep: Report)
    requires |parts| == PARTITION_COUNT
    ensures rep == ReportOf(parts)
    ensures rep.used + rep.usable == rep.total
  {
    var used, total, usable := 0, 0, 0;
    for i := 0 to PARTITION_COUNT
      invariant used == UsedMB(parts[..i])
      invariant usable == FreeMB(parts[..i])
      invariant total == TotalMB(parts[..i])
    {
      assert parts[..i + 1][..i] == parts[..i];
      total := total + parts[i].size;
      if parts[i].occupied != FREE {
        used := used + parts[i].size;
      } else {
        usable := usable + parts[i].size;
      }
    }
    assert parts[..PARTITION_COUNT] == parts;
    rep := Report(parts, used, total, usable);
  }
}
