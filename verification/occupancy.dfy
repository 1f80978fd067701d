/** Memory occupancy along the tick loop. A ledger entry holds a partition exactly when it
    has been admitted and not yet released (it is neither NEW nor TERMINATED), and every
    occupied partition belongs to a ledger entry. This holds from an all-free table on,
    under both policies, and at a normal exit it leaves the whole table free. */
module Occupancy {
  import opened Process
  import opened Memory
  import opened Engine
  import opened PriorityPolicy
  import opened RoundRobinPolicy
  import opened Consistency

  /** Some partition is occupied by `pid`. */
  predicate Holds(parts: seq<Partition>, pid: int)
  {
    exists k :: 0 <= k < |parts| && parts[k].occupied == pid
  }

  /** Admitted and not yet released. */
  predicate Live(e: PCB)
  {
    e.state != New && e.state != Terminated
  }

  /** No descriptor uses the id that marks a free partition. */
  predicate ValidPids(procs: seq<PCB>)
  {
    forall k :: 0 <= k < |procs| ==> procs[k].pid != FREE
  }

  predicate Occupancy(jobs: seq<PCB>, parts: seq<Partition>)
  {
    && (forall i :: 0 <= i < |jobs| ==> jobs[i].pid != FREE && (Holds(parts, jobs[i].pid) <==> Live(jobs[i])))
    && (forall k :: 0 <= k < |parts| && parts[k].occupied != FREE ==> parts[k].occupied in Pids(jobs))
  }

  /** From ledger `a` to ledger `b`: every entry keeps its place, its id and whether it is live. */
  predicate SameLiveness(a: seq<PCB>, b: seq<PCB>)
  {
    |a| == |b| && forall i :: 0 <= i < |a| ==> b[i].pid == a[i].pid && (Live(b[i]) <==> Live(a[i]))
  }

  /** An all-free table and an empty ledger. */
  lemma InitialOccupancy(parts: seq<Partition>)
    requires forall k :: 0 <= k < |parts| ==> IsFree(parts[k])
    ensures Occupancy(Initial(parts).jobs, Initial(parts).parts)
  {
  }

  /** State changes that never cross admission or release keep occupancy. */
  lemma LivenessKeeps(a: seq<PCB>, b: seq<PCB>, parts: seq<Partition>)
    requires Occupancy(a, parts) && SameLiveness(a, b)
    ensures Occupancy(b, parts)
  {
    assert Pids(b) == Pids(a) by {
      assert forall i :: 0 <= i < |a| ==> Pids(b)[i] == Pids(a)[i];
    }
  }

  /** Rewriting one live entry, under the same id, into another live one. */
  lemma UpdateLive(jobs: seq<PCB>, j: nat, e: PCB)
    requires j < |jobs| && e.pid == jobs[j].pid && Live(jobs[j]) && Live(e)
    ensures SameLiveness(jobs, jobs[j := e])
  {
  }

  lemma SameLivenessTrans(a: seq<PCB>, b: seq<PCB>, c: seq<PCB>)
    requires SameLiveness(a, b) && SameLiveness(b, c)
    ensures SameLiveness(a, c)
  {
  }

  // ---------------------------------------------------------------- arrivals

  /** Occupying a free partition for `pid` changes nothing for any other id. */
  lemma OccupyHolds(parts: seq<Partition>, i: nat, pid: int, q: int)
    requires i < |parts| && IsFree(parts[i]) && q != pid && q != FREE
    ensures Holds(parts[i := parts[i].(occupied := pid)], q) <==> Holds(parts, q)
  {
    var r := parts[i := parts[i].(occupied := pid)];
    if Holds(r, q) {
      var k :| 0 <= k < |r| && r[k].occupied == q;
      assert parts[k].occupied == q;
    }
    if Holds(parts, q) {
      var k :| 0 <= k < |parts| && parts[k].occupied == q;
      assert r[k].occupied == q;
    }
  }

  /** One arrival with a fresh, valid id keeps occupancy: the new entry is READY and holds
      the partition it was given, or it is NEW and holds none. */
  lemma ArriveOccupancy(s: Sim, d: PCB, snapshots: bool)
    requires Occupancy(s.jobs, s.parts) && d.pid != FREE && d.pid !in Pids(s.jobs)
    ensures var r := Arrive(s, d, snapshots); Occupancy(r.jobs, r.parts)
  {
    var r := Arrive(s, d, snapshots);
    var e := r.jobs[|s.jobs|];
    assert r.jobs == s.jobs + [e];
    PidsConcat(s.jobs, [e]);
    assert Pids(r.jobs) == Pids(s.jobs) + [d.pid];
    if HasRoom(s.parts, d.size) {
      var i :| 0 <= i < |s.parts| && Fits(s.parts[i], d.size)
               && r.parts == s.parts[i := s.parts[i].(occupied := d.pid)];
      forall x | 0 <= x < |s.jobs|
        ensures Holds(r.parts, s.jobs[x].pid) <==> Holds(s.parts, s.jobs[x].pid)
      {
        assert Pids(s.jobs)[x] == s.jobs[x].pid;
        OccupyHolds(s.parts, i, d.pid, s.jobs[x].pid);
      }
      assert r.parts[i].occupied == d.pid;
    } else {
      assert !Holds(s.parts, d.pid);
    }
  }

  /** The arrivals fold keeps occupancy while the arriving ids are fresh, distinct and valid. */
  lemma {:induction false} ArrivalsFromOccupancy(s: Sim, descs: seq<PCB>, snapshots: bool)
    requires Occupancy(s.jobs, s.parts) && DistinctPids(descs) && ValidPids(descs)
    requires forall k :: 0 <= k < |descs| && descs[k].arrivalTime == s.time ==> descs[k].pid !in Pids(s.jobs)
    ensures var r := ArrivalsFrom(s, descs, snapshots); Occupancy(r.jobs, r.parts)
    decreases |descs|
  {
    if descs != [] {
      var d, tail := descs[0], descs[1..];
      var s1 := if d.arrivalTime == s.time then Arrive(s, d, snapshots) else s;
      if d.arrivalTime == s.time {
        ArriveOccupancy(s, d, snapshots);
        var e := s1.jobs[|s.jobs|];
        assert s1.jobs == s.jobs + [e];
        PidsConcat(s.jobs, [e]);
      }
      forall k | 0 <= k < |tail| && tail[k].arrivalTime == s1.time
        ensures tail[k].pid !in Pids(s1.jobs)
      {
        assert tail[k] == descs[k + 1];
      }
      forall a, b | 0 <= a < b < |tail|
        ensures tail[a].pid != tail[b].pid
      {
        assert tail[a] == descs[a + 1] && tail[b] == descs[b + 1];
      }
      assert forall k :: 0 <= k < |tail| ==> tail[k] == descs[k + 1];
      ArrivalsFromOccupancy(s1, tail, snapshots);
    }
  }

  /** The arrivals phase at the top of a pass keeps occupancy. */
  lemma ArrivalsOccupancy(procs: seq<PCB>, s: Sim, snapshots: bool)
    requires DistinctPids(procs) && ValidPids(procs) && TickStart(procs, s) && Occupancy(s.jobs, s.parts)
    ensures var r := ArrivalsFrom(s, procs, snapshots); Occupancy(r.jobs, r.parts)
  {
    ArrivingFresh(procs, s.jobs, s.time);
    ArrivalsFromOccupancy(s, procs, snapshots);
  }

  // --------------------------------------------------------- I/O completions

  /** Waking a live entry leaves it live (READY). */
  lemma WakeLiveness(s: Sim, rec: IoRecord)
    requires JobIndex(s.jobs, rec.pid) != -1 ==> Live(s.jobs[JobIndex(s.jobs, rec.pid)])
    ensures SameLiveness(s.jobs, Wake(s, rec).jobs)
  {
  }

  /** Waking records whose entries are live changes no entry's liveness. */
  lemma {:induction false} WakeAllLiveness(s: Sim, due: seq<IoRecord>)
    requires forall x :: 0 <= x < |due| && JobIndex(s.jobs, due[x].pid) != -1 ==>
               Live(s.jobs[JobIndex(s.jobs, due[x].pid)])
    ensures SameLiveness(s.jobs, WakeAll(s, due).jobs)
  {
    if due != [] {
      var init, last := due[..|due| - 1], due[|due| - 1];
      assert forall x :: 0 <= x < |init| ==> init[x] == due[x];
      WakeAllLiveness(s, init);
      var w := WakeAll(s, init);
      assert JobIndex(w.jobs, last.pid) == JobIndex(s.jobs, last.pid);
      WakeLiveness(w, last);
      SameLivenessTrans(s.jobs, w.jobs, Wake(w, last).jobs);
    }
  }

  /** The I/O-completion phase only wakes WAITING entries, so it keeps occupancy. */
  lemma CompleteIoOccupancy(s: Sim)
    requires Coherent(s) && Occupancy(s.jobs, s.parts)
    ensures var r := CompleteIo(s); Occupancy(r.jobs, r.parts)
  {
    var due := Due(s.io, s.time);
    forall x | 0 <= x < |due| && JobIndex(s.jobs, due[x].pid) != -1
      ensures Live(s.jobs[JobIndex(s.jobs, due[x].pid)])
    {
      assert due[x] in multiset(due);
      assert due[x] in s.io;
      var r :| 0 <= r < |s.io| && s.io[r] == due[x];
      assert Entry(s.jobs, s.io[r].pid).value.state == Waiting;
    }
    WakeAllLiveness(s, due);
    LivenessKeeps(s.jobs, CompleteIo(s).jobs, s.parts);
  }

  // ---------------------------------------------------------------- dispatch

  /** Dispatch turns a READY entry RUNNING: both live. */
  lemma PriorityDispatchOccupancy(s: Sim, d: Sim)
    requires Coherent(s) && Occupancy(s.jobs, s.parts) && PriorityDispatch(s, d)
    ensures Occupancy(d.jobs, d.parts)
  {
    if s.running.None? && |s.ready| > 0 {
      var k: nat :| IsMinimalAt(s.ready, k) && d == DispatchAt(s, k);
      var j := JobIndex(s.jobs, s.ready[k].pid);
      assert Entry(s.jobs, s.ready[k].pid).value.state == Ready;
      UpdateLive(s.jobs, j, d.jobs[j]);
      LivenessKeeps(s.jobs, d.jobs, s.parts);
    }
  }

  lemma DispatchHeadOccupancy(s: Sim)
    requires Coherent(s) && Occupancy(s.jobs, s.parts)
    ensures var d := DispatchHead(s); Occupancy(d.jobs, d.parts)
  {
    if s.running.None? && |s.ready| > 0 {
      var j := JobIndex(s.jobs, s.ready[0].pid);
      assert Entry(s.jobs, s.ready[0].pid).value.state == Ready;
      UpdateLive(s.jobs, j, DispatchHead(s).jobs[j]);
      LivenessKeeps(s.jobs, DispatchHead(s).jobs, s.parts);
    }
  }

  // -------------------------------------------------------------- CPU ticks

  /** Releasing the memory of a process whose entry terminates keeps occupancy. */
  lemma ReleaseOccupancy(jobs: seq<PCB>, jobs': seq<PCB>, parts: seq<Partition>, j: nat)
    requires Occupancy(jobs, parts) && DistinctPids(jobs) && j < |jobs|
    requires |jobs'| == |jobs| && jobs'[j].pid == jobs[j].pid && jobs'[j].state == Terminated
    requires forall i :: 0 <= i < |jobs| && i != j ==> jobs'[i] == jobs[i]
    ensures Occupancy(jobs', Release(parts, jobs[j].pid))
  {
    var pid := jobs[j].pid;
    var r := Release(parts, pid);
    forall i | 0 <= i < |jobs'|
      ensures Holds(r, jobs'[i].pid) <==> Live(jobs'[i])
    {
      if i == j {
        forall k | 0 <= k < |r|
          ensures r[k].occupied != pid
        {
        }
      } else {
        var q := jobs[i].pid;
        if Holds(r, q) {
          var k :| 0 <= k < |r| && r[k].occupied == q;
          assert parts[k].occupied == q;
        }
        if Holds(parts, q) {
          var k :| 0 <= k < |parts| && parts[k].occupied == q;
          assert r[k].occupied == q;
        }
      }
    }
    assert Pids(jobs') == Pids(jobs) by {
      assert forall i :: 0 <= i < |jobs| ==> Pids(jobs')[i] == Pids(jobs)[i];
    }
  }

  /** The running entry is live. */
  lemma RunningIsLive(s: Sim)
    requires Coherent(s) && s.running.Some?
    ensures JobIndex(s.jobs, s.running.value.pid) != -1
    ensures Live(s.jobs[JobIndex(s.jobs, s.running.value.pid)])
  {
  }

  /** The priority CPU tick keeps occupancy: the running entry stays live unless it
      terminates, and then its memory is released. */
  lemma ExecPriorityOccupancy(s: Sim)
    requires Coherent(s) && Occupancy(s.jobs, s.parts)
    ensures var r := ExecPriority(s); Occupancy(r.jobs, r.parts)
  {
    if Executes(s) {
      var p := Consume(s.running.value);
      var j := JobIndex(s.jobs, p.pid);
      RunningIsLive(s);
      var r := ExecPriority(s);
      var s1 := s.(jobs := SyncRemaining(s.jobs, j, p));
      if IoRequested(p, s.time) {
        assert r.jobs[j].pid == s.jobs[j].pid by {
          assert r == BeginIo(s1, p, j);
        }
        LivenessKeeps(s.jobs, r.jobs, s.parts);
      } else if p.remainingTime == 0 {
        assert r.jobs[j].pid == s.jobs[j].pid by {
          assert r == Finish(s1, p, j, true);
        }
        ReleaseOccupancy(s.jobs, r.jobs, s.parts, j);
      } else {
        LivenessKeeps(s.jobs, r.jobs, s.parts);
      }
    }
  }

  /** The round-robin CPU tick rewrites the running entry under its own id. */
  lemma ExecRoundRobinPid(s: Sim)
    requires Executes(s) && JobIndex(s.jobs, s.running.value.pid) != -1
    ensures var j := JobIndex(s.jobs, s.running.value.pid);
      ExecRoundRobin(s).jobs[j].pid == s.jobs[j].pid
  {
    var p := Account(s.running.value);
    var j := JobIndex(s.jobs, p.pid);
    var r := ExecRoundRobin(s);
    var e := s.jobs[j].(remainingTime := p.remainingTime, timeInQuantum := p.timeInQuantum);
    var s1 := s.(jobs := s.jobs[j := e], quantumUsed := s.quantumUsed + 1);
    var leaves := LeavesFor(p, s.time);
    if leaves == Waiting {
      assert r == BeginIo(s1, p, j).(quantumUsed := 0);
    } else if leaves == Terminated {
      assert r == Finish(s1, p, j, false).(quantumUsed := 0);
    } else if leaves == Ready {
      assert r == Preempt(s1, p, j).(quantumUsed := 0);
    }
  }

  /** The round-robin CPU tick keeps occupancy, by the same reasoning; expiry leaves the
      entry READY, which is live. */
  lemma ExecRoundRobinOccupancy(s: Sim)
    requires Coherent(s) && Occupancy(s.jobs, s.parts)
    ensures var r := ExecRoundRobin(s); Occupancy(r.jobs, r.parts)
  {
    if Executes(s) {
      var p := Account(s.running.value);
      var j := JobIndex(s.jobs, p.pid);
      RunningIsLive(s);
      ExecRoundRobinPid(s);
      var r := ExecRoundRobin(s);
      if LeavesFor(p, s.time) == Terminated {
        ReleaseOccupancy(s.jobs, r.jobs, s.parts, j);
      } else {
        LivenessKeeps(s.jobs, r.jobs, s.parts);
      }
    }
  }

  // ------------------------------------------------------------ whole passes

  /** A whole priority pass keeps occupancy. */
  lemma PriorityTickOccupancy(procs: seq<PCB>, s: Sim, m: Sim)
    requires DistinctPids(procs) && ValidPids(procs) && TickStart(procs, s) && Occupancy(s.jobs, s.parts)
    requires PriorityPhases(procs, s, m)
    ensures Occupancy(m.jobs, m.parts)
  {
    var a := ArrivalsFrom(s, procs, true);
    ArrivalsKeep(procs, s, true);
    ArrivalsOccupancy(procs, s, true);
    var c := CompleteIo(a);
    CompleteIoKeeps(a);
    CompleteIoOccupancy(a);
    var d :| PriorityDispatch(c, d) && m == ExecPriority(d);
    PriorityDispatchKeeps(c, d);
    PriorityDispatchOccupancy(c, d);
    ExecPriorityOccupancy(d);
  }

  /** A whole round-robin pass keeps occupancy. */
  lemma RoundRobinTickOccupancy(procs: seq<PCB>, s: Sim)
    requires DistinctPids(procs) && ValidPids(procs) && TickStart(procs, s) && QuantumInvariant(s)
    requires Occupancy(s.jobs, s.parts)
    ensures var m := RoundRobinPhases(procs, s); Occupancy(m.jobs, m.parts)
  {
    var a := ArrivalsFrom(s, procs, false);
    ArrivalsKeep(procs, s, false);
    ArrivalsOccupancy(procs, s, false);
    var c := CompleteIo(a);
    CompleteIoKeeps(a);
    CompleteIoOccupancy(a);
    DispatchHeadOccupancy(c);
    var d := RoundRobinFront(procs, s);
    ExecRoundRobinOccupancy(d);
  }

  /** At a normal exit every entry is TERMINATED, so no partition is occupied. */
  lemma ExitFreesMemory(jobs: seq<PCB>, parts: seq<Partition>)
    requires Occupancy(jobs, parts) && AllTerminated(jobs)
    ensures forall k :: 0 <= k < |parts| ==> IsFree(parts[k])
  {
  }

  /** Every priority run from a tick start with consistent occupancy keeps it, and a
      finished run leaves every partition free. */
  lemma PriorityRunOccupancy(procs: seq<PCB>, s: Sim, limit: nat, out: Outcome)
    requires DistinctPids(procs) && ValidPids(procs) && TickStart(procs, s) && Occupancy(s.jobs, s.parts)
    requires PriorityRunFrom(procs, s, limit, out)
    ensures Occupancy(out.final.jobs, out.final.parts)
    ensures out.Finished? ==> forall k :: 0 <= k < |out.final.parts| ==> IsFree(out.final.parts[k])
  {
    var cur := s;
    while cur.time < limit
      invariant TickStart(procs, cur) && Occupancy(cur.jobs, cur.parts) && PriorityRunFrom(procs, cur, limit, out)
      decreases limit - cur.time
    {
      var m := PriorityRunUnfold(procs, cur, limit, out);
      PriorityStepKeeps(procs, cur, m);
      PriorityTickOccupancy(procs, cur, m);
      if ExitCondition(procs, m) {
        ExitFreesMemory(m.jobs, m.parts);
        return;
      }
      cur := AdvanceClock(procs, m);
    }
  }

  /** Every round-robin run from a tick start with consistent occupancy keeps it, and a
      finished run leaves every partition free. */
  lemma RoundRobinRunOccupancy(procs: seq<PCB>, s: Sim, limit: nat, out: Outcome)
    requires DistinctPids(procs) && ValidPids(procs) && TickStart(procs, s) && QuantumInvariant(s)
    requires Occupancy(s.jobs, s.parts) && out == RunRoundRobinFrom(procs, s, limit)
    ensures Occupancy(out.final.jobs, out.final.parts)
    ensures out.Finished? ==> forall k :: 0 <= k < |out.final.parts| ==> IsFree(out.final.parts[k])
  {
    var cur := s;
    while cur.time < limit
      invariant TickStart(procs, cur) && QuantumInvariant(cur) && Occupancy(cur.jobs, cur.parts)
      invariant out == RunRoundRobinFrom(procs, cur, limit)
      decreases limit - cur.time
    {
      var m := RoundRobinPhases(procs, cur);
      RoundRobinStepKeeps(procs, cur);
      RoundRobinTickOccupancy(procs, cur);
      if ExitCondition(procs, m) {
        ExitFreesMemory(m.jobs, m.parts);
        return;
      }
      cur := AdvanceClock(procs, m);
    }
  }
}
