/** Invariants of the tick loop under both policies. The ledger is the record of every
    process; the ready queue and the running slot hold copies that must agree with it:
    a queued copy's entry is READY, the running copy's entry is RUNNING (and no other entry
    is: single-CPU occupancy), an outstanding I/O record's entry is WAITING, each with the
    same remaining time as its copy. Ledger entries keep their ids and never gain remaining
    time, and under round robin the running process has used less than a full quantum. */
module Consistency {
  import opened Process
  import opened Memory
  import opened Engine
  import opened PriorityPolicy
  import opened RoundRobinPolicy

  /** The ledger entry of `pid`, if any. */
  function Entry(jobs: seq<PCB>, pid: int): Option<PCB>
  {
    var j := JobIndex(jobs, pid);
    if j == -1 then None else Some(jobs[j])
  }

  predicate DistinctIoPids(io: seq<IoRecord>)
  {
    forall i, j :: 0 <= i < j < |io| ==> io[i].pid != io[j].pid
  }

  /** Single-CPU occupancy and the running copy's agreement with its ledger entry. */
  predicate RunningCoherent(s: Sim)
  {
    && (s.running.Some? ==>
          var e := Entry(s.jobs, s.running.value.pid);
          && s.running.value.state == Running
          && e.Some? && e.value.state == Running && e.value.remainingTime == s.running.value.remainingTime)
    && forall i :: 0 <= i < |s.jobs| && s.jobs[i].state == Running ==>
         s.running.Some? && s.running.value.pid == s.jobs[i].pid
  }

  /** Every queued copy stands for a READY ledger entry with the same remaining time. */
  predicate ReadyCoherent(jobs: seq<PCB>, ready: seq<PCB>)
  {
    forall q :: 0 <= q < |ready| ==>
      var e := Entry(jobs, ready[q].pid);
      e.Some? && e.value.state == Ready && e.value.remainingTime == ready[q].remainingTime
  }

  /** Every outstanding I/O record stands for a WAITING ledger entry, one record per process. */
  predicate IoCoherent(jobs: seq<PCB>, io: seq<IoRecord>)
  {
    && DistinctIoPids(io)
    && forall r :: 0 <= r < |io| ==>
         var e := Entry(jobs, io[r].pid);
         e.Some? && e.value.state == Waiting
  }

  /** Everything but the I/O list: what holds while the I/O list is being walked. */
  predicate CoherentExceptIo(s: Sim)
  {
    DistinctPids(s.jobs) && DistinctPids(s.ready) && RunningCoherent(s) && ReadyCoherent(s.jobs, s.ready)
  }

  predicate Coherent(s: Sim)
  {
    CoherentExceptIo(s) && IoCoherent(s.jobs, s.io)
  }

  /** Some descriptor carrying `pid` arrives strictly before time `t`. */
  predicate ArrivesBefore(procs: seq<PCB>, pid: int, t: nat)
  {
    exists k :: 0 <= k < |procs| && procs[k].pid == pid && procs[k].arrivalTime < t
  }

  /** Some descriptor carrying `pid` arrives exactly at time `t`. */
  predicate ArrivesAt(procs: seq<PCB>, pid: int, t: nat)
  {
    exists k :: 0 <= k < |procs| && procs[k].pid == pid && procs[k].arrivalTime == t
  }

  /** Every ledger entry stems from a descriptor that arrived before time `t`. */
  predicate ArrivedBefore(procs: seq<PCB>, jobs: seq<PCB>, t: nat)
  {
    forall i :: 0 <= i < |jobs| ==> ArrivesBefore(procs, jobs[i].pid, t)
  }

  /** Every descriptor that arrived before time `t` has a ledger entry. */
  predicate Recorded(procs: seq<PCB>, jobs: seq<PCB>, t: nat)
  {
    forall k :: 0 <= k < |procs| && procs[k].arrivalTime < t ==> procs[k].pid in Pids(jobs)
  }

  /** What holds at the top of every pass of the tick loop. With distinct ledger ids,
      the last two conjuncts say the ledger holds exactly one entry per descriptor
      arrived so far, and nothing else. */
  predicate TickStart(procs: seq<PCB>, s: Sim)
  {
    Coherent(s) && ArrivedBefore(procs, s.jobs, s.time) && Recorded(procs, s.jobs, s.time)
  }

  /** From ledger `a` to ledger `b`: no entry is lost or moved, and no entry gains remaining time. */
  predicate LedgerProgress(a: seq<PCB>, b: seq<PCB>)
  {
    |a| <= |b| && forall i :: 0 <= i < |a| ==> b[i].pid == a[i].pid && b[i].remainingTime <= a[i].remainingTime
  }

  /** From ledger `a` to ledger `b`: the entries of `a` keep their place and their remaining time. */
  predicate KeepsWork(a: seq<PCB>, b: seq<PCB>)
  {
    |a| <= |b| && forall i :: 0 <= i < |a| ==> b[i].remainingTime == a[i].remainingTime
  }

  /** From ledger `a` to ledger `b`: at most one entry's remaining time changes, and then
      it drops by exactly one millisecond. */
  predicate TickWork(a: seq<PCB>, b: seq<PCB>)
  {
    && |a| <= |b|
    && (forall i :: 0 <= i < |a| ==>
          b[i].remainingTime == a[i].remainingTime || b[i].remainingTime + 1 == a[i].remainingTime)
    && (forall i, k ::
          (0 <= i < |a| && 0 <= k < |a| && b[i].remainingTime != a[i].remainingTime && b[k].remainingTime != a[k].remainingTime)
          ==> i == k)
  }

  /** The round-robin quantum invariant: the running process has used less than a full
      quantum and the quantum usage counter agrees with it; an idle CPU has used nothing. */
  predicate QuantumInvariant(s: Sim)
  {
    && (s.running.Some? ==> s.running.value.timeInQuantum < RR_QUANTUM && s.quantumUsed == s.running.value.timeInQuantum)
    && (s.running.None? ==> s.quantumUsed == 0)
  }

  /** With distinct ids, at most one ledger entry is RUNNING. */
  lemma AtMostOneRunning(s: Sim)
    requires Coherent(s)
    ensures forall i, j ::
      (0 <= i < |s.jobs| && 0 <= j < |s.jobs| && s.jobs[i].state == Running && s.jobs[j].state == Running) ==> i == j
  {
  }

  lemma InitialTickStart(procs: seq<PCB>, parts: seq<Partition>)
    ensures TickStart(procs, Initial(parts)) && QuantumInvariant(Initial(parts))
  {
  }

  lemma {:induction false} LedgerProgressTrans(a: seq<PCB>, b: seq<PCB>, c: seq<PCB>)
    requires LedgerProgress(a, b) && LedgerProgress(b, c)
    ensures LedgerProgress(a, c)
  {
    forall i | 0 <= i < |a|
      ensures c[i].pid == a[i].pid && c[i].remainingTime <= a[i].remainingTime
    {
      assert c[i].pid == b[i].pid;
    }
  }

  // ------------------------------------------------------------ ledger lookups

  /** Rewriting entry `j` without changing its id moves no other process's entry. */
  lemma EntryUpdate(jobs: seq<PCB>, j: nat, e: PCB)
    requires j < |jobs| && e.pid == jobs[j].pid
    ensures Pids(jobs[j := e]) == Pids(jobs)
    ensures forall pid :: pid != e.pid ==> Entry(jobs[j := e], pid) == Entry(jobs, pid)
    ensures DistinctPids(jobs) ==> DistinctPids(jobs[j := e]) && Entry(jobs[j := e], e.pid) == Some(e)
  {
    assert Pids(jobs[j := e]) == Pids(jobs);
    if DistinctPids(jobs) {
      JobIndexOfDistinct(jobs, j);
    }
  }

  /** Appending an entry for a new id moves no existing entry. */
  lemma EntryAppend(jobs: seq<PCB>, e: PCB)
    requires e.pid !in Pids(jobs)
    ensures Pids(jobs + [e]) == Pids(jobs) + [e.pid]
    ensures forall pid :: pid != e.pid ==> Entry(jobs + [e], pid) == Entry(jobs, pid)
    ensures Entry(jobs + [e], e.pid) == Some(e)
    ensures DistinctPids(jobs) ==> DistinctPids(jobs + [e])
  {
    assert Pids(jobs + [e]) == Pids(jobs) + [e.pid];
    forall pid | pid != e.pid
      ensures Entry(jobs + [e], pid) == Entry(jobs, pid)
    {
      if pid in Pids(jobs) {
        var j := JobIndex(jobs, pid);
        var j' := JobIndex(jobs + [e], pid);
        assert (jobs + [e])[j] == jobs[j];
      }
    }
    if DistinctPids(jobs) {
      forall i | 0 <= i < |jobs|
        ensures jobs[i].pid != e.pid
      {
        assert Pids(jobs)[i] == jobs[i].pid;
      }
    }
    assert JobIndex(jobs + [e], e.pid) == |jobs| by {
      forall i | 0 <= i < |jobs|
        ensures (jobs + [e])[i].pid != e.pid
      {
        assert Pids(jobs)[i] == jobs[i].pid;
      }
    }
  }

  /** Ids of queued copies and I/O records are ledger ids. */
  lemma QueuedAreKnown(s: Sim)
    requires Coherent(s)
    ensures forall q :: 0 <= q < |s.ready| ==> s.ready[q].pid in Pids(s.jobs)
    ensures forall r :: 0 <= r < |s.io| ==> s.io[r].pid in Pids(s.jobs)
  {
  }

  // ---------------------------------------------------------------- arrivals

  /** Appending a NEW or READY entry for a fresh id (and queueing it when READY) keeps
      the invariant. */
  lemma AppendKeeps(s: Sim, e: PCB, r: Sim)
    requires Coherent(s) && e.pid !in Pids(s.jobs) && (e.state == New || e.state == Ready)
    requires r.jobs == s.jobs + [e] && r.running == s.running && r.io == s.io
    requires r.ready == s.ready || (e.state == Ready && r.ready == s.ready + [e])
    ensures Coherent(r)
  {
    EntryAppend(s.jobs, e);
    QueuedAreKnown(s);
    UpdateQueueKeeps(s.jobs, r.jobs, s.ready, r.ready, e);
    UpdateIoKeeps(s.jobs, r.jobs, s.io, r.io, e);
    assert RunningCoherent(r) by {
      forall i | 0 <= i < |r.jobs| && r.jobs[i].state == Running
        ensures r.running.Some? && r.running.value.pid == r.jobs[i].pid
      {
        assert i < |s.jobs| && r.jobs[i] == s.jobs[i];
      }
    }
  }

  /** One arrival with a fresh id keeps the invariant. */
  lemma ArriveKeeps(s: Sim, d: PCB, snapshots: bool)
    requires Coherent(s) && d.pid !in Pids(s.jobs)
    ensures var r := Arrive(s, d, snapshots);
      && Coherent(r) && LedgerProgress(s.jobs, r.jobs) && Pids(r.jobs) == Pids(s.jobs) + [d.pid]
  {
    var r := Arrive(s, d, snapshots);
    var e := r.jobs[|s.jobs|];
    assert r.jobs == s.jobs + [e];
    assert e.state == New || e.state == Ready;
    EntryAppend(s.jobs, e);
    AppendKeeps(s, e, r);
  }

  /** The arrivals fold keeps the invariant as long as the arriving ids are fresh and
      distinct, and every entry it adds comes from a descriptor arriving now. */
  lemma {:induction false} ArrivalsFromKeeps(s: Sim, descs: seq<PCB>, snapshots: bool)
    requires Coherent(s) && DistinctPids(descs)
    requires forall k :: 0 <= k < |descs| && descs[k].arrivalTime == s.time ==> descs[k].pid !in Pids(s.jobs)
    ensures var r := ArrivalsFrom(s, descs, snapshots);
      && Coherent(r) && LedgerProgress(s.jobs, r.jobs)
      && forall i :: |s.jobs| <= i < |r.jobs| ==>
           ArrivesAt(descs, r.jobs[i].pid, s.time)
    decreases |descs|
  {
    if descs != [] {
      var d, tail := descs[0], descs[1..];
      var arrives := d.arrivalTime == s.time;
      var s1 := if arrives then Arrive(s, d, snapshots) else s;
      if arrives {
        ArriveKeeps(s, d, snapshots);
      }
      forall k | 0 <= k < |tail| && tail[k].arrivalTime == s1.time
        ensures tail[k].pid !in Pids(s1.jobs)
      {
        assert tail[k] == descs[k + 1];
      }
      forall a, b | 0 <= a < b < |tail|
        ensures tail[a].pid != tail[b].pid
      {
        assert tail[a] == descs[a + 1] && tail[b] == descs[b + 1];
      }
      ArrivalsFromKeeps(s1, tail, snapshots);
      var r := ArrivalsFrom(s1, tail, snapshots);
      LedgerProgressTrans(s.jobs, s1.jobs, r.jobs);
      if arrives {
        assert s1.jobs[|s.jobs|].pid == d.pid by {
          assert Pids(s1.jobs)[|s.jobs|] == d.pid;
        }
      }
      ArrivalsProvenance(descs, s.time, s.jobs, s1.jobs, r.jobs);
    }
  }

  /** One step of the arrivals fold: the entry the first descriptor adds, if any, and the
      entries the rest of the fold adds all stem from descriptors arriving at `t`. */
  lemma ArrivalsProvenance(descs: seq<PCB>, t: nat, a: seq<PCB>, b: seq<PCB>, c: seq<PCB>)
    requires descs != [] && LedgerProgress(b, c)
    requires |b| == |a| || (|b| == |a| + 1 && descs[0].arrivalTime == t && b[|a|].pid == descs[0].pid)
    requires forall i :: |b| <= i < |c| ==> ArrivesAt(descs[1..], c[i].pid, t)
    ensures forall i :: |a| <= i < |c| ==> ArrivesAt(descs, c[i].pid, t)
  {
    forall i | |a| <= i < |c|
      ensures ArrivesAt(descs, c[i].pid, t)
    {
      if i < |b| {
        assert c[i].pid == descs[0].pid;
      } else {
        var k :| 0 <= k < |descs[1..]| && descs[1..][k].pid == c[i].pid && descs[1..][k].arrivalTime == t;
        assert descs[k + 1] == descs[1..][k];
      }
    }
  }

  /** A descriptor arriving at `t` is not yet in a ledger whose entries all arrived before `t`. */
  lemma ArrivingFresh(procs: seq<PCB>, jobs: seq<PCB>, t: nat)
    requires DistinctPids(procs) && ArrivedBefore(procs, jobs, t)
    ensures forall k :: 0 <= k < |procs| && procs[k].arrivalTime == t ==> procs[k].pid !in Pids(jobs)
  {
    forall k | 0 <= k < |procs| && procs[k].arrivalTime == t
      ensures procs[k].pid !in Pids(jobs)
    {
      forall i | 0 <= i < |jobs|
        ensures Pids(jobs)[i] != procs[k].pid
      {
        assert ArrivesBefore(procs, jobs[i].pid, t);
        var m :| 0 <= m < |procs| && procs[m].pid == jobs[i].pid && procs[m].arrivalTime < t;
        assert m != k;
      }
    }
  }

  /** The arrivals phase at the top of a tick keeps the invariant: a descriptor arriving now
      has not been seen before, since every ledger entry stems from an earlier arrival. */
  lemma ArrivalsKeep(procs: seq<PCB>, s: Sim, snapshots: bool)
    requires DistinctPids(procs) && TickStart(procs, s)
    ensures var r := ArrivalsFrom(s, procs, snapshots);
      && Coherent(r) && ArrivedBefore(procs, r.jobs, s.time + 1) && LedgerProgress(s.jobs, r.jobs)
      && r.time == s.time && r.running == s.running && r.quantumUsed == s.quantumUsed
  {
    ArrivalsFrame(s, procs, snapshots);
    ArrivingFresh(procs, s.jobs, s.time);
    ArrivalsFromKeeps(s, procs, snapshots);
    var r := ArrivalsFrom(s, procs, snapshots);
    forall i | 0 <= i < |r.jobs|
      ensures ArrivesBefore(procs, r.jobs[i].pid, s.time + 1)
    {
      if i < |s.jobs| {
        assert ArrivesBefore(procs, s.jobs[i].pid, s.time);
        var m :| 0 <= m < |procs| && procs[m].pid == s.jobs[i].pid && procs[m].arrivalTime < s.time;
        assert procs[m].pid == r.jobs[i].pid;
      } else {
        assert ArrivesAt(procs, r.jobs[i].pid, s.time);
        var k :| 0 <= k < |procs| && procs[k].pid == r.jobs[i].pid && procs[k].arrivalTime == s.time;
        assert procs[k].arrivalTime < s.time + 1;
      }
    }
  }

  /** Ledger ids that stay where they are keep their provenance. */
  lemma ArrivedBeforeKept(procs: seq<PCB>, a: seq<PCB>, b: seq<PCB>, t: nat)
    requires ArrivedBefore(procs, a, t) && LedgerProgress(a, b) && |b| == |a|
    ensures ArrivedBefore(procs, b, t)
  {
    forall i | 0 <= i < |b|
      ensures ArrivesBefore(procs, b[i].pid, t)
    {
      assert ArrivesBefore(procs, a[i].pid, t);
      assert a[i].pid == b[i].pid;
    }
  }

  /** Every descriptor arriving at `t` is among the arriving ones. */
  lemma {:induction false} ArrivingHas(descs: seq<PCB>, t: nat, k: nat)
    requires k < |descs| && descs[k].arrivalTime == t
    ensures descs[k].pid in Pids(Arriving(descs, t))
    decreases |descs|
  {
    var head := if descs[0].arrivalTime == t then [descs[0]] else [];
    PidsConcat(head, Arriving(descs[1..], t));
    if k > 0 {
      assert descs[1..][k - 1] == descs[k];
      ArrivingHas(descs[1..], t, k - 1);
    } else {
      assert Pids(head)[0] == descs[0].pid;
    }
  }

  /** After the arrivals phase at time `t`, every descriptor arrived up to `t` has an entry. */
  lemma ArrivalsRecord(procs: seq<PCB>, s: Sim, snapshots: bool)
    requires Recorded(procs, s.jobs, s.time)
    ensures Recorded(procs, ArrivalsFrom(s, procs, snapshots).jobs, s.time + 1)
  {
    ArrivalsLedger(s, procs, snapshots);
    forall k | 0 <= k < |procs| && procs[k].arrivalTime == s.time
      ensures procs[k].pid in Pids(Arriving(procs, s.time))
    {
      ArrivingHas(procs, s.time, k);
    }
  }

  /** Ledger ids that stay where they are stay recorded. */
  lemma RecordedKept(procs: seq<PCB>, a: seq<PCB>, b: seq<PCB>, t: nat)
    requires Recorded(procs, a, t) && LedgerProgress(a, b)
    ensures Recorded(procs, b, t)
  {
    forall k | 0 <= k < |procs| && procs[k].arrivalTime < t
      ensures procs[k].pid in Pids(b)
    {
      var idx :| 0 <= idx < |Pids(a)| && Pids(a)[idx] == procs[k].pid;
      assert Pids(b)[idx] == b[idx].pid == a[idx].pid;
    }
  }

  /** A ledger extended at its end keeps the work of its entries. */
  lemma PrefixKeepsWork(a: seq<PCB>, b: seq<PCB>)
    requires |a| <= |b| && b[..|a|] == a
    ensures KeepsWork(a, b)
  {
    forall i | 0 <= i < |a|
      ensures b[i] == a[i]
    {
      assert b[..|a|][i] == b[i];
    }
  }

  /** Phases that keep every entry's work, then one CPU tick: one tick of work in all. */
  lemma WorkCompose(x: seq<PCB>, y: seq<PCB>, z: seq<PCB>, v: seq<PCB>, w: seq<PCB>)
    requires KeepsWork(x, y) && KeepsWork(y, z) && KeepsWork(z, v) && TickWork(v, w)
    ensures TickWork(x, w)
  {
  }

  // ---------------------------------------------------------- I/O completions

  /** Waking the process of record `idx` of `io`, a list the invariant holds for: its
      WAITING entry becomes READY and its copy is queued, and the other records still
      stand for WAITING entries. */
  lemma WakeKeeps(w: Sim, io: seq<IoRecord>, idx: nat)
    requires CoherentExceptIo(w) && IoCoherent(w.jobs, io) && idx < |io|
    ensures var r := Wake(w, io[idx]);
      && CoherentExceptIo(r) && IoCoherent(r.jobs, io[..idx] + io[idx + 1..])
      && LedgerProgress(w.jobs, r.jobs) && |r.jobs| == |w.jobs|
  {
    var x := io[idx];
    var j := JobIndex(w.jobs, x.pid);
    var e := w.jobs[j].(state := Ready, nextIoTime := NextIoAfterWait(w.jobs[j], w.time));
    EntryUpdate(w.jobs, j, e);
    var rest := io[..idx] + io[idx + 1..];
    forall r | 0 <= r < |rest|
      ensures rest[r] == io[if r < idx then r else r + 1] && rest[r].pid != x.pid
    {
    }
    forall q | 0 <= q < |w.ready|
      ensures w.ready[q].pid != x.pid
    {
    }
  }

  /** The invariant along the walk over the I/O list of `s`: the state reached is
      coherent and its ledger has only progressed. */
  predicate IoWalkCoherent(s: Sim, n: nat, kept: seq<IoRecord>, st: Sim)
  {
    IoWalked(s, s.io, n, kept, st) && Coherent(st) && LedgerProgress(s.jobs, st.jobs) && |st.jobs| == |s.jobs|
  }

  /** Visiting the next record keeps the walk invariant: a woken process's entry goes
      WAITING -> READY, and the records still listed stand for WAITING entries. */
  lemma IoVisitKeeps(s: Sim, n: nat, kept: seq<IoRecord>, st: Sim) returns (n': nat, kept': seq<IoRecord>, st': Sim)
    requires IoWalkCoherent(s, n, kept, st) && n < |s.io|
    ensures n' == n + 1 && IoWalkCoherent(s, n', kept', st')
  {
    n' := IoWalkStep(s, s.io, n, kept, st);
    var x := s.io[n];
    if IsDue(x, s.time) {
      WakeKeeps(st, st.io, |kept|);
      var w := Wake(st, x);
      LedgerProgressTrans(s.jobs, st.jobs, w.jobs);
      kept', st' := kept, w.(io := st.io[..|kept|] + st.io[|kept| + 1..]);
    } else {
      kept', st' := kept + [x], st;
    }
  }

  /** The I/O-completion phase keeps the invariant. */
  lemma CompleteIoKeeps(s: Sim)
    requires Coherent(s)
    ensures var r := CompleteIo(s);
      && Coherent(r) && LedgerProgress(s.jobs, r.jobs) && |r.jobs| == |s.jobs|
      && r.time == s.time && r.running == s.running && r.quantumUsed == s.quantumUsed
  {
    var st, n, kept := s, 0, [];
    IoWalkStart(s);
    while n < |s.io|
      invariant IoWalkCoherent(s, n, kept, st)
      decreases |s.io| - n
    {
      n, kept, st := IoVisitKeeps(s, n, kept, st);
    }
    IoWalkDone(s, s.io, n, kept, st);
  }

  // ---------------------------------------------------------------- dispatch

  /** Removing queued copy `k` after its ledger entry changed leaves the other copies
      standing for READY entries. */
  lemma DispatchQueueKeeps(jobs: seq<PCB>, jobs': seq<PCB>, ready: seq<PCB>, k: nat, pid: int)
    requires k < |ready| && DistinctPids(ready) && ReadyCoherent(jobs, ready) && ready[k].pid == pid
    requires forall other :: other != pid ==> Entry(jobs', other) == Entry(jobs, other)
    ensures DistinctPids(ready[..k] + ready[k + 1..]) && ReadyCoherent(jobs', ready[..k] + ready[k + 1..])
  {
    var rest := ready[..k] + ready[k + 1..];
    forall q | 0 <= q < |rest|
      ensures rest[q] == ready[if q < k then q else q + 1] && rest[q].pid != pid
    {
    }
  }

  /** Dispatch of queued copy `k` while the CPU is idle: its READY entry becomes the one
      RUNNING entry and the copy becomes the running copy. */
  lemma DispatchKeeps(s: Sim, k: nat, run: PCB, entry: PCB, r: Sim)
    requires Coherent(s) && s.running.None? && k < |s.ready|
    requires JobIndex(s.jobs, s.ready[k].pid) != -1
    requires var j := JobIndex(s.jobs, s.ready[k].pid);
      && entry.pid == s.jobs[j].pid && entry.state == Running && entry.remainingTime == s.jobs[j].remainingTime
      && r.jobs == s.jobs[j := entry]
    requires run.pid == s.ready[k].pid && run.state == Running && run.remainingTime == s.ready[k].remainingTime
    requires r.running == Some(run) && r.ready == s.ready[..k] + s.ready[k + 1..] && r.io == s.io
    ensures Coherent(r) && LedgerProgress(s.jobs, r.jobs) && |r.jobs| == |s.jobs|
  {
    var j := JobIndex(s.jobs, s.ready[k].pid);
    EntryUpdate(s.jobs, j, entry);
    DispatchQueueKeeps(s.jobs, r.jobs, s.ready, k, run.pid);
    forall x | 0 <= x < |s.io|
      ensures s.io[x].pid != run.pid
    {
    }
    UpdateIoKeeps(s.jobs, r.jobs, s.io, r.io, entry);
  }

  /** Dispatch changes no entry's remaining time. */
  lemma PriorityDispatchWork(s: Sim, d: Sim)
    requires PriorityDispatch(s, d)
    ensures KeepsWork(s.jobs, d.jobs) && |d.jobs| == |s.jobs|
  {
    if s.running.None? && |s.ready| > 0 {
      var k: nat :| IsMinimalAt(s.ready, k) && d == DispatchAt(s, k);
    }
  }

  lemma PriorityDispatchKeeps(s: Sim, d: Sim)
    requires Coherent(s) && PriorityDispatch(s, d)
    ensures Coherent(d) && LedgerProgress(s.jobs, d.jobs) && |d.jobs| == |s.jobs| && d.time == s.time
  {
    if s.running.None? && |s.ready| > 0 {
      var k: nat :| IsMinimalAt(s.ready, k) && d == DispatchAt(s, k);
      var j := JobIndex(s.jobs, s.ready[k].pid);
      DispatchKeeps(s, k, d.running.value, d.jobs[j], d);
    }
  }

  lemma RoundRobinDispatchKeeps(s: Sim)
    requires Coherent(s) && QuantumInvariant(s)
    ensures var d := DispatchHead(s);
      && Coherent(d) && QuantumInvariant(d) && LedgerProgress(s.jobs, d.jobs)
      && |d.jobs| == |s.jobs| && d.time == s.time
  {
    if s.running.None? && |s.ready| > 0 {
      var d := DispatchHead(s);
      var j := JobIndex(s.jobs, s.ready[0].pid);
      assert s.ready[..0] + s.ready[1..] == s.ready[1..];
      DispatchKeeps(s, 0, d.running.value, d.jobs[j], d);
    }
  }

  // --------------------------------------------------------------- execution

  /** The running process keeps the CPU: its entry stays the one RUNNING entry and takes
      the running copy's new remaining time. */
  lemma StayKeeps(s: Sim, p: PCB, entry: PCB, r: Sim)
    requires Coherent(s) && s.running.Some?
    requires p.pid == s.running.value.pid && p.state == Running && p.remainingTime <= s.running.value.remainingTime
    requires JobIndex(s.jobs, p.pid) != -1
    requires var j := JobIndex(s.jobs, p.pid);
      && entry.pid == p.pid && entry.state == Running && entry.remainingTime == p.remainingTime
      && r.jobs == s.jobs[j := entry]
    requires r.running == Some(p) && r.ready == s.ready && r.io == s.io
    ensures Coherent(r) && LedgerProgress(s.jobs, r.jobs) && |r.jobs| == |s.jobs|
  {
    var j := JobIndex(s.jobs, p.pid);
    EntryUpdate(s.jobs, j, entry);
    forall q | 0 <= q < |s.ready|
      ensures s.ready[q].pid != p.pid
    {
    }
    forall x | 0 <= x < |s.io|
      ensures s.io[x].pid != p.pid
    {
    }
    forall i | 0 <= i < |s.jobs| && s.jobs[i].state == Running
      ensures i == j
    {
      JobIndexOfDistinct(s.jobs, i);
    }
  }

  /** The ready queue after the update of the ledger entry `entry` stands for, a process
      not queued: unchanged, or with the entry's copy at the tail when it went READY. */
  lemma UpdateQueueKeeps(jobs: seq<PCB>, jobs': seq<PCB>, ready: seq<PCB>, ready': seq<PCB>, entry: PCB)
    requires DistinctPids(ready) && ReadyCoherent(jobs, ready)
    requires forall pid :: pid != entry.pid ==> Entry(jobs', pid) == Entry(jobs, pid)
    requires Entry(jobs', entry.pid) == Some(entry)
    requires forall q :: 0 <= q < |ready| ==> ready[q].pid != entry.pid
    requires ready' == ready || (entry.state == Ready && ready' == ready + [entry])
    ensures DistinctPids(ready') && ReadyCoherent(jobs', ready')
  {
  }

  /** The I/O list after the update of the ledger entry `entry` stands for, a process
      with no record: unchanged, or with one record for it at the end when it went WAITING. */
  lemma UpdateIoKeeps(jobs: seq<PCB>, jobs': seq<PCB>, io: seq<IoRecord>, io': seq<IoRecord>, entry: PCB)
    requires IoCoherent(jobs, io)
    requires forall pid :: pid != entry.pid ==> Entry(jobs', pid) == Entry(jobs, pid)
    requires Entry(jobs', entry.pid) == Some(entry)
    requires forall x :: 0 <= x < |io| ==> io[x].pid != entry.pid
    requires io' == io || (entry.state == Waiting && |io'| == |io| + 1 && io'[..|io|] == io
                           && io'[|io|].pid == entry.pid)
    ensures IoCoherent(jobs', io')
  {
    if io' != io {
      forall x | 0 <= x < |io|
        ensures io'[x] == io[x]
      {
        assert io'[..|io|][x] == io'[x];
      }
    }
  }

  /** The running process leaves the CPU: its entry becomes WAITING (with one new I/O
      record), TERMINATED, or READY (with its copy queued), and no entry is RUNNING. */
  lemma RetireKeeps(s: Sim, entry: PCB, r: Sim)
    requires Coherent(s) && s.running.Some?
    requires JobIndex(s.jobs, s.running.value.pid) != -1
    requires var j := JobIndex(s.jobs, s.running.value.pid);
      && entry.pid == s.running.value.pid && entry.state != Running
      && entry.remainingTime <= s.jobs[j].remainingTime && r.jobs == s.jobs[j := entry]
    requires r.running.None?
    requires r.ready == s.ready || (entry.state == Ready && r.ready == s.ready + [entry])
    requires r.io == s.io || (entry.state == Waiting && |r.io| == |s.io| + 1 && r.io[..|s.io|] == s.io
                              && r.io[|s.io|].pid == entry.pid)
    ensures Coherent(r) && LedgerProgress(s.jobs, r.jobs) && |r.jobs| == |s.jobs|
  {
    var j := JobIndex(s.jobs, s.running.value.pid);
    EntryUpdate(s.jobs, j, entry);
    forall q | 0 <= q < |s.ready|
      ensures s.ready[q].pid != entry.pid
    {
    }
    forall x | 0 <= x < |s.io|
      ensures s.io[x].pid != entry.pid
    {
    }
    forall i | 0 <= i < |s.jobs| && s.jobs[i].state == Running
      ensures i == j
    {
      JobIndexOfDistinct(s.jobs, i);
    }
    UpdateQueueKeeps(s.jobs, r.jobs, s.ready, r.ready, entry);
    UpdateIoKeeps(s.jobs, r.jobs, s.io, r.io, entry);
  }

  /** One EP CPU tick takes one millisecond from the running process's entry, when it had
      any left, and changes no other entry's remaining time. */
  lemma ExecPriorityWork(s: Sim)
    requires Coherent(s)
    ensures TickWork(s.jobs, ExecPriority(s).jobs)
  {
    if Executes(s) {
      var j := JobIndex(s.jobs, s.running.value.pid);
      assert j != -1 ==> Entry(s.jobs, s.running.value.pid) == Some(s.jobs[j]);
    }
  }

  /** One RR CPU tick takes one millisecond from the running process's entry, when it had
      any left, and changes no other entry's remaining time. */
  lemma ExecRoundRobinWork(s: Sim)
    requires Coherent(s)
    ensures TickWork(s.jobs, ExecRoundRobin(s).jobs)
  {
    if Executes(s) {
      var j := JobIndex(s.jobs, s.running.value.pid);
      assert j != -1 ==> Entry(s.jobs, s.running.value.pid) == Some(s.jobs[j]);
    }
  }

  lemma ExecPriorityKeeps(s: Sim)
    requires Coherent(s)
    ensures var r := ExecPriority(s);
      Coherent(r) && LedgerProgress(s.jobs, r.jobs) && |r.jobs| == |s.jobs| && r.time == s.time
  {
    if Executes(s) {
      var p := Consume(s.running.value);
      var j := JobIndex(s.jobs, p.pid);
      var e := s.jobs[j].(remainingTime := p.remainingTime);
      var s1 := s.(jobs := SyncRemaining(s.jobs, j, p));
      assert s1.jobs == s.jobs[j := e];
      var r := ExecPriority(s);
      if IoRequested(p, s.time) {
        var e2 := e.(state := Waiting, nextIoTime := NO_IO);
        assert r == BeginIo(s1, p, j);
        assert r.jobs == s.jobs[j := e2];
        RetireKeeps(s, e2, r);
      } else if p.remainingTime == 0 {
        var e2 := e.(state := Terminated, partitionNumber := UNSET);
        assert r == Finish(s1, p, j, true);
        assert r.jobs == s.jobs[j := e2];
        RetireKeeps(s, e2, r);
      } else {
        StayKeeps(s, p, e, r);
      }
    }
  }

  /** Leaving the CPU for I/O under round robin keeps the ledger coherent. */
  lemma RoundRobinIoKeeps(s: Sim)
    requires Coherent(s) && Executes(s)
    requires LeavesFor(Account(s.running.value), s.time) == Waiting
    ensures var r := ExecRoundRobin(s);
      && Coherent(r) && LedgerProgress(s.jobs, r.jobs) && |r.jobs| == |s.jobs|
  {
    var p := Account(s.running.value);
    var j := JobIndex(s.jobs, p.pid);
    var e := s.jobs[j].(remainingTime := p.remainingTime, timeInQuantum := p.timeInQuantum);
    var s1 := s.(jobs := s.jobs[j := e], quantumUsed := s.quantumUsed + 1);
    var r := ExecRoundRobin(s);
    var e2 := e.(state := Waiting, nextIoTime := NO_IO);
    assert r.jobs == s.jobs[j := e2] by {
      assert r == BeginIo(s1, p, j).(quantumUsed := 0);
    }
    RetireKeeps(s, e2, r);
  }

  /** Terminating under round robin keeps the ledger coherent. */
  lemma RoundRobinFinishKeeps(s: Sim)
    requires Coherent(s) && Executes(s)
    requires LeavesFor(Account(s.running.value), s.time) == Terminated
    ensures var r := ExecRoundRobin(s);
      && Coherent(r) && LedgerProgress(s.jobs, r.jobs) && |r.jobs| == |s.jobs|
  {
    var p := Account(s.running.value);
    var j := JobIndex(s.jobs, p.pid);
    var e := s.jobs[j].(remainingTime := p.remainingTime, timeInQuantum := p.timeInQuantum);
    var s1 := s.(jobs := s.jobs[j := e], quantumUsed := s.quantumUsed + 1);
    var r := ExecRoundRobin(s);
    var e2 := e.(state := Terminated, partitionNumber := UNSET);
    assert r.jobs == s.jobs[j := e2] by {
      assert r == Finish(s1, p, j, false).(quantumUsed := 0);
    }
    RetireKeeps(s, e2, r);
  }

  /** Quantum expiry keeps the ledger coherent. */
  lemma RoundRobinExpiryKeeps(s: Sim)
    requires Coherent(s) && Executes(s)
    requires LeavesFor(Account(s.running.value), s.time) == Ready
    ensures var r := ExecRoundRobin(s);
      && Coherent(r) && LedgerProgress(s.jobs, r.jobs) && |r.jobs| == |s.jobs|
  {
    var p := Account(s.running.value);
    var j := JobIndex(s.jobs, p.pid);
    var e := s.jobs[j].(remainingTime := p.remainingTime, timeInQuantum := p.timeInQuantum);
    var s1 := s.(jobs := s.jobs[j := e], quantumUsed := s.quantumUsed + 1);
    var r := ExecRoundRobin(s);
    var e2 := e.(state := Ready, timeInQuantum := 0);
    assert r.jobs == s.jobs[j := e2] by {
      assert r == Preempt(s1, p, j).(quantumUsed := 0);
    }
    RetireKeeps(s, e2, r);
  }

  lemma ExecRoundRobinKeeps(s: Sim)
    requires Coherent(s) && QuantumInvariant(s)
    ensures var r := ExecRoundRobin(s);
      && Coherent(r) && QuantumInvariant(r) && LedgerProgress(s.jobs, r.jobs)
      && |r.jobs| == |s.jobs| && r.time == s.time
  {
    if Executes(s) {
      var p := Account(s.running.value);
      var leaves := LeavesFor(p, s.time);
      if leaves == Waiting {
        RoundRobinIoKeeps(s);
      } else if leaves == Terminated {
        RoundRobinFinishKeeps(s);
      } else if leaves == Ready {
        RoundRobinExpiryKeeps(s);
      } else {
        var j := JobIndex(s.jobs, p.pid);
        var e := s.jobs[j].(remainingTime := p.remainingTime, timeInQuantum := p.timeInQuantum);
        StayKeeps(s, p, e, ExecRoundRobin(s));
      }
    }
  }

  // -------------------------------------------------------------- whole ticks

  /** One pass of the priority loop keeps the invariant. */
  lemma PriorityTickKeeps(procs: seq<PCB>, s: Sim, m: Sim)
    requires DistinctPids(procs) && TickStart(procs, s) && PriorityPhases(procs, s, m)
    ensures Coherent(m) && m.time == s.time
    ensures ArrivedBefore(procs, m.jobs, m.time + 1) && Recorded(procs, m.jobs, m.time + 1)
    ensures LedgerProgress(s.jobs, m.jobs) && TickWork(s.jobs, m.jobs)
  {
    var a := ArrivalsFrom(s, procs, true);
    ArrivalsKeep(procs, s, true);
    ArrivalsRecord(procs, s, true);
    ArrivalsLedger(s, procs, true);
    PrefixKeepsWork(s.jobs, a.jobs);
    var c := CompleteIo(a);
    CompleteIoKeeps(a);
    var d :| PriorityDispatch(c, d) && m == ExecPriority(d);
    PriorityDispatchKeeps(c, d);
    PriorityDispatchWork(c, d);
    ExecPriorityKeeps(d);
    ExecPriorityWork(d);
    WorkCompose(s.jobs, a.jobs, c.jobs, d.jobs, m.jobs);
    LedgerProgressTrans(a.jobs, c.jobs, d.jobs);
    LedgerProgressTrans(a.jobs, d.jobs, m.jobs);
    ArrivedBeforeKept(procs, a.jobs, m.jobs, s.time + 1);
    RecordedKept(procs, a.jobs, m.jobs, s.time + 1);
    LedgerProgressTrans(s.jobs, a.jobs, m.jobs);
  }

  /** Advancing the clock after a pass that does not exit starts the next pass. */
  lemma NextTickStart(procs: seq<PCB>, m: Sim)
    requires Coherent(m) && ArrivedBefore(procs, m.jobs, m.time + 1) && Recorded(procs, m.jobs, m.time + 1)
    requires !ExitCondition(procs, m)
    ensures TickStart(procs, AdvanceClock(procs, m))
    ensures QuantumInvariant(m) ==> QuantumInvariant(AdvanceClock(procs, m))
  {
    var n := AdvanceClock(procs, m);
    assert n == m.(time := m.time + 1);
    assert RunningCoherent(n) by {
      assert n.running == m.running && n.jobs == m.jobs;
    }
  }

  /** A priority pass from a tick start ends coherent and, unless the loop exits, hands a
      tick start to the next pass. */
  lemma PriorityStepKeeps(procs: seq<PCB>, s: Sim, m: Sim)
    requires DistinctPids(procs) && TickStart(procs, s) && PriorityPhases(procs, s, m)
    ensures Coherent(m) && ArrivedBefore(procs, m.jobs, m.time + 1) && Recorded(procs, m.jobs, m.time + 1)
    ensures !ExitCondition(procs, m) ==> TickStart(procs, AdvanceClock(procs, m))
  {
    PriorityTickKeeps(procs, s, m);
    if !ExitCondition(procs, m) {
      NextTickStart(procs, m);
    }
  }

  /** Every descriptor has a TERMINATED ledger entry. */
  predicate AllTerminatedAtExit(procs: seq<PCB>, jobs: seq<PCB>)
  {
    forall k :: 0 <= k < |procs| ==>
      Entry(jobs, procs[k].pid).Some? && Entry(jobs, procs[k].pid).value.state == Terminated
  }

  /** When the loop exits after a pass, every descriptor has arrived and been recorded, and
      every ledger entry has terminated: each descriptor's process ended TERMINATED. */
  lemma ExitTerminatesAll(procs: seq<PCB>, m: Sim)
    requires ExitCondition(procs, m) && Recorded(procs, m.jobs, m.time + 1)
    ensures AllTerminatedAtExit(procs, m.jobs)
  {
    forall k | 0 <= k < |procs|
      ensures Entry(m.jobs, procs[k].pid).Some? && Entry(m.jobs, procs[k].pid).value.state == Terminated
    {
      assert procs[k].arrivalTime < m.time + 1;
    }
  }

  /** The first pass of a priority run whose clock is below the limit. */
  lemma PriorityRunUnfold(procs: seq<PCB>, s: Sim, limit: nat, out: Outcome) returns (m: Sim)
    requires s.time < limit && PriorityRunFrom(procs, s, limit, out)
    ensures PriorityPhases(procs, s, m)
    ensures ExitCondition(procs, m) ==> out == Finished(m)
    ensures !ExitCondition(procs, m) ==> PriorityRunFrom(procs, AdvanceClock(procs, m), limit, out)
  {
    m :| PriorityPhases(procs, s, m) &&
      (if ExitCondition(procs, m) then out == Finished(m)
       else PriorityRunFrom(procs, AdvanceClock(procs, m), limit, out));
  }

  /** Every outcome of a priority run from a tick start is coherent and its ledger holds
      exactly the descriptors arrived so far; a finished run ends in a state that satisfies
      the exit test, with a TERMINATED entry for every descriptor. */
  lemma PriorityRunKeeps(procs: seq<PCB>, s: Sim, limit: nat, out: Outcome)
    requires DistinctPids(procs) && TickStart(procs, s) && PriorityRunFrom(procs, s, limit, out)
    ensures Coherent(out.final)
    ensures out.OutOfTicks? ==>
      ArrivedBefore(procs, out.final.jobs, out.final.time) && Recorded(procs, out.final.jobs, out.final.time)
    ensures out.Finished? ==>
      && ExitCondition(procs, out.final) && AllTerminatedAtExit(procs, out.final.jobs)
      && ArrivedBefore(procs, out.final.jobs, out.final.time + 1) && Recorded(procs, out.final.jobs, out.final.time + 1)
  {
    var cur := s;
    while cur.time < limit
      invariant TickStart(procs, cur) && PriorityRunFrom(procs, cur, limit, out)
      decreases limit - cur.time
    {
      var m := PriorityRunUnfold(procs, cur, limit, out);
      PriorityStepKeeps(procs, cur, m);
      if ExitCondition(procs, m) {
        ExitTerminatesAll(procs, m);
        return;
      }
      cur := AdvanceClock(procs, m);
    }
  }

  /** The first three phases of a round-robin pass (arrivals, I/O completions, dispatch)
      keep the invariant, record every descriptor arrived up to now, and change no
      entry's remaining time. */
  lemma RoundRobinFront(procs: seq<PCB>, s: Sim) returns (d: Sim)
    requires DistinctPids(procs) && TickStart(procs, s) && QuantumInvariant(s)
    ensures d == DispatchHead(CompleteIo(ArrivalsFrom(s, procs, false)))
    ensures Coherent(d) && QuantumInvariant(d) && d.time == s.time
    ensures ArrivedBefore(procs, d.jobs, s.time + 1) && Recorded(procs, d.jobs, s.time + 1)
    ensures LedgerProgress(s.jobs, d.jobs) && KeepsWork(s.jobs, d.jobs)
  {
    var a := ArrivalsFrom(s, procs, false);
    ArrivalsKeep(procs, s, false);
    ArrivalsRecord(procs, s, false);
    ArrivalsLedger(s, procs, false);
    PrefixKeepsWork(s.jobs, a.jobs);
    var c := CompleteIo(a);
    CompleteIoKeeps(a);
    d := DispatchHead(c);
    RoundRobinDispatchKeeps(c);
    DispatchHeadWork(c);
    KeepsWorkTrans(s.jobs, a.jobs, c.jobs);
    KeepsWorkTrans(s.jobs, c.jobs, d.jobs);
    LedgerProgressTrans(a.jobs, c.jobs, d.jobs);
    ArrivedBeforeKept(procs, a.jobs, d.jobs, s.time + 1);
    RecordedKept(procs, a.jobs, d.jobs, s.time + 1);
    LedgerProgressTrans(s.jobs, a.jobs, d.jobs);
  }

  lemma KeepsWorkTrans(x: seq<PCB>, y: seq<PCB>, z: seq<PCB>)
    requires KeepsWork(x, y) && KeepsWork(y, z)
    ensures KeepsWork(x, z)
  {
  }

  /** Round-robin dispatch changes no entry's remaining time. */
  lemma DispatchHeadWork(s: Sim)
    ensures KeepsWork(s.jobs, DispatchHead(s).jobs) && |DispatchHead(s).jobs| == |s.jobs|
  {
  }

  /** Entries that keep their work, then one tick of work: one tick of work in all. */
  lemma KeepsThenTick(x: seq<PCB>, y: seq<PCB>, z: seq<PCB>)
    requires KeepsWork(x, y) && TickWork(y, z)
    ensures TickWork(x, z)
  {
  }

  /** One pass of the round-robin loop keeps the invariant and the quantum invariant,
      records every descriptor arrived up to now, and takes at most one millisecond of
      CPU, from one entry. */
  lemma RoundRobinTickKeeps(procs: seq<PCB>, s: Sim)
    requires DistinctPids(procs) && TickStart(procs, s) && QuantumInvariant(s)
    ensures var m := RoundRobinPhases(procs, s);
      && Coherent(m) && QuantumInvariant(m) && m.time == s.time
      && ArrivedBefore(procs, m.jobs, m.time + 1) && Recorded(procs, m.jobs, m.time + 1)
      && LedgerProgress(s.jobs, m.jobs) && TickWork(s.jobs, m.jobs)
  {
    var d := RoundRobinFront(procs, s);
    var m := ExecRoundRobin(d);
    ExecRoundRobinKeeps(d);
    ExecRoundRobinWork(d);
    KeepsThenTick(s.jobs, d.jobs, m.jobs);
    ArrivedBeforeKept(procs, d.jobs, m.jobs, s.time + 1);
    RecordedKept(procs, d.jobs, m.jobs, s.time + 1);
    LedgerProgressTrans(s.jobs, d.jobs, m.jobs);
  }

  /** A round-robin pass from a tick start ends coherent within the quantum bound and,
      unless the loop exits, hands a tick start to the next pass. */
  lemma RoundRobinStepKeeps(procs: seq<PCB>, s: Sim)
    requires DistinctPids(procs) && TickStart(procs, s) && QuantumInvariant(s)
    ensures var m := RoundRobinPhases(procs, s);
      && Coherent(m) && QuantumInvariant(m)
      && ArrivedBefore(procs, m.jobs, m.time + 1) && Recorded(procs, m.jobs, m.time + 1)
      && (!ExitCondition(procs, m) ==>
            TickStart(procs, AdvanceClock(procs, m)) && QuantumInvariant(AdvanceClock(procs, m)))
  {
    var m := RoundRobinPhases(procs, s);
    RoundRobinTickKeeps(procs, s);
    if !ExitCondition(procs, m) {
      NextTickStart(procs, m);
    }
  }

  /** Every round-robin run from a tick start ends coherent and within the quantum bound,
      with a ledger holding exactly the descriptors arrived so far; a finished run ends in a
      state that satisfies the exit test, with a TERMINATED entry for every descriptor. */
  lemma RoundRobinRunKeeps(procs: seq<PCB>, s: Sim, limit: nat, out: Outcome)
    requires DistinctPids(procs) && TickStart(procs, s) && QuantumInvariant(s)
    requires out == RunRoundRobinFrom(procs, s, limit)
    ensures Coherent(out.final) && QuantumInvariant(out.final)
    ensures out.OutOfTicks? ==>
      ArrivedBefore(procs, out.final.jobs, out.final.time) && Recorded(procs, out.final.jobs, out.final.time)
    ensures out.Finished? ==>
      && ExitCondition(procs, out.final) && AllTerminatedAtExit(procs, out.final.jobs)
      && ArrivedBefore(procs, out.final.jobs, out.final.time + 1) && Recorded(procs, out.final.jobs, out.final.time + 1)
  {
    var cur := s;
    while cur.time < limit
      invariant TickStart(procs, cur) && QuantumInvariant(cur)
      invariant out == RunRoundRobinFrom(procs, cur, limit)
      decreases limit - cur.time
    {
      var m := RoundRobinPhases(procs, cur);
      RoundRobinStepKeeps(procs, cur);
      if ExitCondition(procs, m) {
        ExitTerminatesAll(procs, m);
        return;
      }
      cur := AdvanceClock(procs, m);
    }
  }
}
