/** The tick-driven simulator: the state the loop mutates in place, one method per
    phase (each proved to compute its specification function or relation), one tick
    method per policy, and the two bounded run loops. */
module Simulator {
  import opened Process
  import opened Memory
  import opened Engine
  import opened PriorityPolicy
  import opened RoundRobinPolicy

  class Simulator {
    const processes: seq<PCB>
    var jobList: seq<PCB>        // every process seen so far
    var readyQueue: seq<PCB>     // copies of READY processes
    var ioList: seq<IoRecord>    // outstanding I/O completions
    var running: Option<PCB>     // the running copy; None while the CPU is idle
    var currentTime: nat
    var partitions: seq<Partition>
    var trace: seq<Event>
    var quantumUsed: nat         // round robin only

    function AsSim(): Sim
      reads this
    {
      Sim(jobList, readyQueue, ioList, running, currentTime, partitions, trace, quantumUsed)
    }

    predicate Valid()
      reads this
    {
      |partitions| == PARTITION_COUNT
    }

    constructor (procs: seq<PCB>, parts: seq<Partition>)
      requires |parts| == PARTITION_COUNT
      ensures Valid() && processes == procs && AsSim() == Initial(parts)
    {
      processes := procs;
      jobList, readyQueue, ioList := [], [], [];
      running := None;
      currentTime := 0;
      partitions := parts;
      trace := [];
      quantumUsed := 0;
    }

    /** Admission of `p` into the partition table (the header's memory allocator). */
    method AssignMemory(p: PCB) returns (ok: bool, q: PCB)
      modifies this
      ensures var a := Assign(old(partitions), p); ok == a.ok && q == a.pcb
      ensures AsSim() == old(AsSim()).(parts := Assign(old(partitions), p).parts)
    {
      var a := Assign(partitions, p);
      ok, q := a.ok, a.pcb;
      partitions := a.parts;
    }

    /** Release of the partition held by ledger entry `j` (the header's memory allocator). */
    method FreeMemory(j: nat)
      requires j < |jobList|
      modifies this
      ensures AsSim() == old(AsSim()).(
        parts := Release(old(partitions), old(jobList)[j].pid),
        jobs := old(jobList)[j := old(jobList)[j].(partitionNumber := UNSET)])
    {
      partitions := Release(partitions, jobList[j].pid);
      jobList := jobList[j := jobList[j].(partitionNumber := UNSET)];
    }

    /** Ledger entry `idx` is admitted: READY, with its first I/O time set when unset. */
    method MarkAdmitted(idx: nat)
      requires idx < |jobList|
      modifies this
      ensures AsSim() == old(AsSim()).(jobs := old(jobList)[idx := old(jobList)[idx].(state := Ready, nextIoTime := InitialNextIo(old(jobList)[idx]))])
    {
      jobList := jobList[idx := jobList[idx].(state := Ready)];
      if jobList[idx].nextIoTime == 0 {
        jobList := jobList[idx := jobList[idx].(nextIoTime := if jobList[idx].ioFreq > 0 then jobList[idx].ioFreq else NO_IO)];
      }
    }

    /** One descriptor arriving now: a ledger entry, a memory request, and READY plus
        a place in the ready queue on success, NEW otherwise. */
    method ArriveOne(p: PCB, snapshots: bool)
      requires Valid()
      modifies this
      ensures Valid()
      ensures AsSim() == Arrive(old(AsSim()), p, snapshots)
    {
      ghost var s0 := AsSim();
      trace := trace + [Transition(currentTime, p.pid, New, New)];
      var ok, newproc := AssignMemory(p);
      jobList := jobList + [newproc];
      var idx := |jobList| - 1;
      if ok {
        MarkAdmitted(idx);
        ghost var e := newproc.(state := Ready, nextIoTime := InitialNextIo(newproc));
        SnocUpdate(s0.jobs, newproc, e);
        assert jobList == s0.jobs + [e];
        readyQueue := readyQueue + [jobList[idx]];
        trace := trace + [Transition(currentTime, jobList[idx].pid, New, Ready)];
        if snapshots {
          var rep := MemorySnapshot(partitions);
          trace := trace + [MemoryStatus(rep)];
        }
      } else {
        SnocUpdate(s0.jobs, newproc, newproc.(state := New));
        jobList := jobList[idx := jobList[idx].(state := New)];
        trace := trace + [NoMemory(jobList[idx].pid)];
      }
    }

    /** The arrivals phase: every descriptor whose arrival time is now arrives, in input order. */
    method Arrivals(snapshots: bool)
      requires Valid()
      modifies this
      ensures Valid()
      ensures AsSim() == ArrivalsFrom(old(AsSim()), processes, snapshots)
    {
      for i := 0 to |processes|
        invariant Valid()
        invariant ArrivalsFrom(AsSim(), processes[i..], snapshots) == ArrivalsFrom(old(AsSim()), processes, snapshots)
      {
        if processes[i].arrivalTime == currentTime {
          ArriveOne(processes[i], snapshots);
        }
        assert processes[i..][1..] == processes[i + 1..];
      }
    }

    /** One due record: its process, if in the ledger, goes WAITING -> READY with its next
        I/O time recomputed and is queued at the tail. */
    method WakeOne(rec: IoRecord)
      modifies this
      ensures AsSim() == Wake(old(AsSim()), rec)
    {
      var jidx := FindJobIdx(jobList, rec.pid);
      if jidx != -1 {
        trace := trace + [Transition(currentTime, jobList[jidx].pid, Waiting, Ready)];
        jobList := jobList[jidx := jobList[jidx].(state := Ready)];
        jobList := jobList[jidx := jobList[jidx].(nextIoTime := if jobList[jidx].ioFreq > 0 then currentTime + jobList[jidx].ioFreq else NO_IO)];
        readyQueue := readyQueue + [jobList[jidx]];
      }
    }

    /** Record `i` of the I/O list is due: its process is woken and the record erased in place. */
    method RetireIo(i: nat)
      requires i < |ioList|
      modifies this
      ensures AsSim() == Wake(old(AsSim()), old(ioList)[i]).(io := old(ioList)[..i] + old(ioList)[i + 1..])
    {
      ghost var st := AsSim();
      WakeOne(ioList[i]);
      assert ioList == st.io;
      ioList := ioList[..i] + ioList[i + 1..];
    }

    /** Record `i` of the I/O list, the `n`-th of the list `io0` the walk started from, is due:
        it is retired and the walk stays at position `i`. */
    method VisitDue(i: nat, ghost s0: Sim, ghost io0: seq<IoRecord>, ghost n: nat, ghost kept: seq<IoRecord>)
      returns (ghost n': nat)
      requires IoWalked(s0, io0, n, kept, AsSim()) && n < |io0| && i == |kept|
      requires i < |ioList| && ioList[i].completeTime == currentTime
      modifies this
      ensures n' == n + 1 && IoWalked(s0, io0, n', kept, AsSim())
    {
      ghost var st := AsSim();
      n' := IoWalkStep(s0, io0, n, kept, st);
      RetireIo(i);
      assert AsSim() == Wake(st, io0[n]).(io := st.io[..|kept|] + st.io[|kept| + 1..]);
    }

    /** Record `i` of the I/O list, the `n`-th of the list `io0` the walk started from:
        when due now it is erased and its process woken, otherwise the walk moves past it. */
    method VisitIo(i: nat, ghost s0: Sim, ghost io0: seq<IoRecord>, ghost n: nat, ghost kept: seq<IoRecord>)
      returns (next: nat, ghost n': nat, ghost kept': seq<IoRecord>)
      requires IoWalked(s0, io0, n, kept, AsSim()) && n < |io0| && i == |kept|
      modifies this
      ensures n' == n + 1 && IoWalked(s0, io0, n', kept', AsSim()) && next == |kept'|
    {
      if ioList[i].completeTime == currentTime {
        n' := VisitDue(i, s0, io0, n, kept);
        next, kept' := i, kept;
      } else {
        n' := IoWalkStep(s0, io0, n, kept, AsSim());
        next, kept' := i + 1, kept + [ioList[i]];
      }
    }

    /** The I/O-completion phase: the list is walked once, due records are erased in
        place and their processes woken in list order; this is Engine.CompleteIo. */
    method CompleteIo()
      modifies this
      ensures AsSim() == WakeAll(old(AsSim()), Due(old(ioList), old(currentTime))).(io := NotDue(old(ioList), old(currentTime)))
    {
      ghost var s0 := AsSim();
      ghost var n := 0;
      ghost var kept: seq<IoRecord> := [];
      IoWalkStart(s0);
      var i := 0;
      while i < |ioList|
        invariant IoWalked(s0, s0.io, n, kept, AsSim()) && i == |kept|
        decreases |s0.io| - n
      {
        i, n, kept := VisitIo(i, s0, s0.io, n, kept);
      }
      IoWalkDone(s0, s0.io, n, kept, AsSim());
    }

    /** Priority dispatch: when the CPU is idle, an entry no other ready entry precedes
        leaves the queue and runs. */
    method DispatchPriority()
      modifies this
      ensures PriorityDispatch(old(AsSim()), AsSim())
    {
      if running.None? && |readyQueue| > 0 {
        MinimalExists(readyQueue);
        var k :| 0 <= k < |readyQueue| && IsMinimalAt(readyQueue, k);
        ghost var before := AsSim();
        var sel := readyQueue[k];
        readyQueue := readyQueue[..k] + readyQueue[k + 1..];
        trace := trace + [Transition(currentTime, sel.pid, Ready, Running)];
        sel := sel.(state := Running);
        if sel.startTime == UNSET {
          sel := sel.(startTime := currentTime);
        }
        running := Some(sel);
        var jidx := FindJobIdx(jobList, sel.pid);
        if jidx != -1 {
          jobList := jobList[jidx := jobList[jidx].(state := Running, startTime := sel.startTime)];
        }
        assert AsSim() == DispatchAt(before, k);
      }
    }

    /** Round-robin dispatch: when the CPU is idle, the queue head runs with fresh quantum counters. */
    method DispatchRoundRobin()
      modifies this
      ensures AsSim() == DispatchHead(old(AsSim()))
    {
      if running.None? && |readyQueue| > 0 {
        var sel := readyQueue[0];
        readyQueue := readyQueue[1..];
        trace := trace + [Transition(currentTime, sel.pid, Ready, Running)];
        sel := sel.(state := Running, timeInQuantum := 0);
        if sel.startTime == UNSET {
          sel := sel.(startTime := currentTime);
        }
        running := Some(sel);
        var jidx := FindJobIdx(jobList, sel.pid);
        if jidx != -1 {
          jobList := jobList[jidx := jobList[jidx].(state := Running)];
        }
        quantumUsed := 0;
      }
    }

    /** RUNNING -> WAITING for the running copy `p` whose ledger position is `jidx`. */
    method StartIo(p: PCB, jidx: int)
      requires -1 <= jidx < |jobList|
      modifies this
      ensures AsSim() == BeginIo(old(AsSim()), p, jidx)
    {
      trace := trace + [Transition(currentTime + 1, p.pid, Running, Waiting)];
      if jidx != -1 {
        jobList := jobList[jidx := jobList[jidx].(state := Waiting, nextIoTime := NO_IO)];
        ioList := ioList + [IoRecord(jobList[jidx].pid, currentTime + 1 + jobList[jidx].ioDuration)];
      }
      running := None;
    }

    /** RUNNING -> TERMINATED for the running copy `p` whose ledger position is `jidx`;
        EP logs a memory report afterwards, RR does not. */
    method Terminate(p: PCB, jidx: int, snapshot: bool)
      requires Valid() && -1 <= jidx < |jobList|
      modifies this
      ensures Valid()
      ensures AsSim() == Finish(old(AsSim()), p, jidx, snapshot)
    {
      trace := trace + [Transition(currentTime + 1, p.pid, Running, Terminated)];
      if jidx != -1 {
        jobList := jobList[jidx := jobList[jidx].(state := Terminated)];
        FreeMemory(jidx);
      }
      if snapshot {
        var rep := MemorySnapshot(partitions);
        trace := trace + [MemoryStatus(rep)];
      }
      running := None;
    }

    /** RUNNING -> READY on quantum expiry, to the tail of the ready queue. */
    method PreemptToTail(p: PCB, jidx: int)
      requires -1 <= jidx < |jobList|
      modifies this
      ensures AsSim() == Preempt(old(AsSim()), p, jidx)
    {
      trace := trace + [Transition(currentTime + 1, p.pid, Running, Ready)];
      if jidx != -1 {
        jobList := jobList[jidx := jobList[jidx].(state := Ready, timeInQuantum := 0)];
        readyQueue := readyQueue + [jobList[jidx]];
      }
      running := None;
    }

    /** The priority accounting of one executed tick: the running copy loses a
        millisecond, and its remaining time reaches the ledger. */
    method ConsumeTick() returns (p: PCB, jidx: int)
      requires running.Some?
      modifies this
      ensures p == Consume(old(running).value) && jidx == JobIndex(old(jobList), p.pid)
      ensures -1 <= jidx < |jobList|
      ensures AsSim() == old(AsSim()).(jobs := SyncRemaining(old(jobList), jidx, p))
    {
      p := running.value;
      if p.remainingTime > 0 {
        p := p.(remainingTime := p.remainingTime - 1);
      }
      jidx := FindJobIdx(jobList, p.pid);
      if jidx != -1 {
        jobList := jobList[jidx := jobList[jidx].(remainingTime := p.remainingTime)];
      }
    }

    /** One millisecond of CPU under the priority policy. */
    method ExecutePriority()
      requires Valid()
      modifies this
      ensures Valid()
      ensures AsSim() == ExecPriority(old(AsSim()))
    {
      if running.Some? && running.value.pid != -1 {
        var p, jidx := ConsumeTick();
        if p.ioFreq > 0 && p.nextIoTime != NO_IO && currentTime + 1 == p.nextIoTime {
          StartIo(p, jidx);
        } else if p.remainingTime == 0 {
          Terminate(p, jidx, true);
        } else {
          running := Some(p);
        }
      }
    }

    /** The round-robin accounting of one executed tick: the running copy loses a
        millisecond and gains one in its quantum, and both counters reach the ledger. */
    method AccountTick() returns (p: PCB, jidx: int)
      requires running.Some?
      modifies this
      ensures p == Account(old(running).value) && jidx == JobIndex(old(jobList), p.pid)
      ensures -1 <= jidx < |jobList|
      ensures AsSim() == old(AsSim()).(
        jobs := if jidx == -1 then old(jobList)
                else old(jobList)[jidx := old(jobList)[jidx].(remainingTime := p.remainingTime, timeInQuantum := p.timeInQuantum)],
        quantumUsed := old(quantumUsed) + 1)
    {
      p := running.value;
      if p.remainingTime > 0 {
        p := p.(remainingTime := p.remainingTime - 1);
      }
      p := p.(timeInQuantum := p.timeInQuantum + 1);
      quantumUsed := quantumUsed + 1;
      jidx := FindJobIdx(jobList, p.pid);
      if jidx != -1 {
        jobList := jobList[jidx := jobList[jidx].(remainingTime := p.remainingTime, timeInQuantum := p.timeInQuantum)];
      }
    }

    /** One millisecond of CPU under round robin. */
    method ExecuteRoundRobin()
      requires Valid()
      modifies this
      ensures Valid()
      ensures AsSim() == ExecRoundRobin(old(AsSim()))
    {
      if running.Some? && running.value.pid != -1 {
        var p, jidx := AccountTick();
        if p.ioFreq > 0 && p.nextIoTime != NO_IO && currentTime + 1 == p.nextIoTime {
          StartIo(p, jidx);
          quantumUsed := 0;
        } else if p.remainingTime == 0 {
          Terminate(p, jidx, false);
          quantumUsed := 0;
        } else if p.timeInQuantum >= RR_QUANTUM {
          PreemptToTail(p, jidx);
          quantumUsed := 0;
        } else {
          running := Some(p);
        }
      }
    }

    /** One pass of the priority loop: the four phases, then the exit test; the clock
        advances by one exactly when the loop goes on. */
    method TickPriority() returns (stop: bool)
      requires Valid()
      modifies this
      ensures Valid()
      ensures exists m :: PriorityPhases(processes, old(AsSim()), m)
                          && stop == ExitCondition(processes, m) && AsSim() == AdvanceClock(processes, m)
    {
      ghost var s0 := AsSim();
      Arrivals(true);
      CompleteIo();
      ghost var mid := AsSim();
      DispatchPriority();
      ghost var d := AsSim();
      ExecutePriority();
      ghost var m := AsSim();
      assert PriorityPhases(processes, s0, m) by {
        assert PriorityDispatch(mid, d) && m == ExecPriority(d);
      }
      stop := CheckExit();
    }

    /** The loop's exit test; the clock advances by one exactly when the loop goes on. */
    method CheckExit() returns (stop: bool)
      modifies this
      ensures stop == ExitCondition(processes, old(AsSim()))
      ensures AsSim() == AdvanceClock(processes, old(AsSim()))
    {
      stop := ShouldStop(processes, AsSim());
      if !stop {
        currentTime := currentTime + 1;
      }
    }

    /** One pass of the round-robin loop: the four phases, then the exit test; the clock
        advances by one exactly when the loop goes on. */
    method TickRoundRobin() returns (stop: bool)
      requires Valid()
      modifies this
      ensures Valid()
      ensures stop == ExitCondition(processes, RoundRobinPhases(processes, old(AsSim())))
      ensures AsSim() == AdvanceClock(processes, RoundRobinPhases(processes, old(AsSim())))
    {
      Arrivals(false);
      CompleteIo();
      DispatchRoundRobin();
      ExecuteRoundRobin();
      stop := CheckExit();
    }
  }

  /** The priority simulation of `procs` over the partition table `parts`, while the
      clock is below `limit`. */
  method RunPriority(procs: seq<PCB>, parts: seq<Partition>, limit: nat) returns (out: Outcome)
    requires |parts| == PARTITION_COUNT
    ensures PriorityRunFrom(procs, Initial(parts), limit, out)
    ensures out.Finished? ==> ExitCondition(procs, out.final)
  {
    var sim := new Simulator(procs, parts);
    while sim.currentTime < limit
      invariant sim.Valid() && sim.processes == procs
      invariant forall o :: PriorityRunFrom(procs, sim.AsSim(), limit, o) ==>
                              PriorityRunFrom(procs, Initial(parts), limit, o)
      decreases limit - sim.currentTime
    {
      ghost var before := sim.AsSim();
      var stop := sim.TickPriority();
      ghost var m :| PriorityPhases(procs, before, m) && stop == ExitCondition(procs, m)
                     && sim.AsSim() == AdvanceClock(procs, m);
      if stop {
        out := Finished(sim.AsSim());
        assert PriorityRunFrom(procs, before, limit, out);
        return;
      }
    }
    out := OutOfTicks(sim.AsSim());
  }

  /** The round-robin simulation of `procs` over the partition table `parts`, while the
      clock is below `limit`. */
  method RunRoundRobin(procs: seq<PCB>, parts: seq<Partition>, limit: nat) returns (out: Outcome)
    requires |parts| == PARTITION_COUNT
    ensures out == RunRoundRobinFrom(procs, Initial(parts), limit)
    ensures out.Finished? ==> ExitCondition(procs, out.final)
  {
    var sim := new Simulator(procs, parts);
    while sim.currentTime < limit
      invariant sim.Valid() && sim.processes == procs
      invariant RunRoundRobinFrom(procs, sim.AsSim(), limit) == RunRoundRobinFrom(procs, Initial(parts), limit)
      decreases limit - sim.currentTime
    {
      var stop := sim.TickRoundRobin();
      if stop {
        return Finished(sim.AsSim());
      }
    }
    out := OutOfTicks(sim.AsSim());
  }
}
