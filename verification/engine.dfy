/** The simulation state and the phases both scheduling policies share: arrivals,
    I/O completions, the I/O-request and termination branches of a CPU tick, and
    the loop's exit test. Every phase is a function from one state to the next. */
module Engine {
  import opened Process
  import opened Memory

  /** One entry of the output trace. */
  datatype Event =
    | Transition(time: nat, pid: int, from: State, to: State)
    | NoMemory(pid: int)
    | MemoryStatus(report: Report)

  /** Everything the tick loop owns: the ledger, the ready queue, the outstanding I/O,
      the running copy (None when the CPU is idle), the clock, the partition table,
      the trace and the round-robin quantum counter. */
  datatype Sim = Sim(
    jobs: seq<PCB>,
    ready: seq<PCB>,
    io: seq<IoRecord>,
    running: Option<PCB>,
    time: nat,
    parts: seq<Partition>,
    trace: seq<Event>,
    quantumUsed: nat)

  function Initial(parts: seq<Partition>): Sim
  {
    Sim([], [], [], None, 0, parts, [], 0)
  }

  // ---------------------------------------------------------------- arrivals

  /** The next I/O time an admitted process starts with: only a 0 is replaced, and then
      by io_freq itself (an absolute time, not one counted from the arrival), or by NO_IO
      when the process does no I/O. */
  function InitialNextIo(p: PCB): (n: int)
    ensures p.nextIoTime != 0 ==> n == p.nextIoTime
    ensures p.nextIoTime == 0 ==> (n == NO_IO <==> p.ioFreq == 0) && (p.ioFreq > 0 ==> n == p.ioFreq)
  {
    if p.nextIoTime == 0 then (if p.ioFreq > 0 then p.ioFreq else NO_IO) else p.nextIoTime
  }

  /** One arriving descriptor: a ledger entry is added, memory is requested, and the
      entry is READY and queued exactly when admission succeeded. */
  function Arrive(s: Sim, d: PCB, snapshots: bool): (r: Sim)
    ensures |r.jobs| == |s.jobs| + 1 && r.jobs[..|s.jobs|] == s.jobs
    ensures r.jobs[|s.jobs|].pid == d.pid
    ensures r.jobs[|s.jobs|].state == Ready <==> HasRoom(s.parts, d.size)
    ensures r.jobs[|s.jobs|].state == New <==> !HasRoom(s.parts, d.size)
    ensures r.ready == if HasRoom(s.parts, d.size) then s.ready + [r.jobs[|s.jobs|]] else s.ready
    ensures r.parts == Assign(s.parts, d).parts
    ensures HasRoom(s.parts, d.size) ==>
      && r.jobs[|s.jobs|] == d.(state := Ready, partitionNumber := r.jobs[|s.jobs|].partitionNumber,
                                nextIoTime := InitialNextIo(d))
      && exists i :: 0 <= i < |s.parts| && Fits(s.parts[i], d.size)
                     && r.parts == s.parts[i := s.parts[i].(occupied := d.pid)]
                     && r.jobs[|s.jobs|].partitionNumber == s.parts[i].number
    ensures !HasRoom(s.parts, d.size) ==> r.jobs[|s.jobs|] == d.(state := New) && r.parts == s.parts
    ensures r.trace == s.trace + [Transition(s.time, d.pid, New, New)]
      + (if HasRoom(s.parts, d.size)
         then [Transition(s.time, d.pid, New, Ready)] + (if snapshots then [MemoryStatus(ReportOf(r.parts))] else [])
         else [NoMemory(d.pid)])
    ensures r.io == s.io && r.running == s.running && r.time == s.time && r.quantumUsed == s.quantumUsed
  {
    var a := Assign(s.parts, d);
    var logged := s.trace + [Transition(s.time, d.pid, New, New)];
    if a.ok then
      var e := a.pcb.(state := Ready, nextIoTime := InitialNextIo(a.pcb));
      s.(jobs := s.jobs + [e], ready := s.ready + [e], parts := a.parts,
         trace := logged + [Transition(s.time, d.pid, New, Ready)]
                  + (if snapshots then [MemoryStatus(ReportOf(a.parts))] else []))
    else
      s.(jobs := s.jobs + [a.pcb.(state := New)], trace := logged + [NoMemory(d.pid)])
  }

  /** The arrivals phase: the descriptors are visited in order and each one whose
      arrival time is the current time arrives. */
  function ArrivalsFrom(s: Sim, descs: seq<PCB>, snapshots: bool): (r: Sim)
    ensures |r.jobs| == |s.jobs| + |Arriving(descs, s.time)| && r.time == s.time
    decreases |descs|
  {
    if descs == [] then s
    else ArrivalsFrom(if descs[0].arrivalTime == s.time then Arrive(s, descs[0], snapshots) else s,
                      descs[1..], snapshots)
  }

  /** The descriptors arriving at time `t`, in input order. */
  function Arriving(descs: seq<PCB>, t: nat): seq<PCB>
  {
    if descs == [] then []
    else (if descs[0].arrivalTime == t then [descs[0]] else []) + Arriving(descs[1..], t)
  }

  /** The READY entries of a sequence of ledger entries, in order. */
  function ReadyEntries(q: seq<PCB>): seq<PCB>
  {
    if q == [] then [] else (if q[0].state == Ready then [q[0]] else []) + ReadyEntries(q[1..])
  }

  /** The arrivals phase touches neither the clock, the I/O list, the CPU nor the quantum counter. */
  lemma {:induction false} ArrivalsFrame(s: Sim, descs: seq<PCB>, snapshots: bool)
    ensures var r := ArrivalsFrom(s, descs, snapshots);
      r.time == s.time && r.io == s.io && r.running == s.running && r.quantumUsed == s.quantumUsed
    decreases |descs|
  {
    if descs != [] {
      ArrivalsFrame(if descs[0].arrivalTime == s.time then Arrive(s, descs[0], snapshots) else s,
                    descs[1..], snapshots);
    }
  }

  /** A ledger `b` that extends `a` by an entry for `d`, then extended by entries for `rest`. */
  lemma AppendLedger(a: seq<PCB>, b: seq<PCB>, c: seq<PCB>, d: PCB, rest: seq<PCB>)
    requires |b| == |a| + 1 && b[..|a|] == a && b[|a|].pid == d.pid
    requires |b| <= |c| && c[..|b|] == b && Pids(c) == Pids(b) + Pids(rest)
    ensures |a| <= |c| && c[..|a|] == a && Pids(c) == Pids(a) + Pids([d] + rest)
  {
    assert c[..|a|] == c[..|b|][..|a|];
    assert b == a + [b[|a|]];
    PidsConcat(a, [b[|a|]]);
    PidsConcat([d], rest);
  }

  /** The arrivals phase appends one ledger entry per arriving descriptor, in input
      order, and keeps the earlier entries. */
  lemma {:induction false} ArrivalsLedger(s: Sim, descs: seq<PCB>, snapshots: bool)
    ensures var r := ArrivalsFrom(s, descs, snapshots);
      && |s.jobs| <= |r.jobs| && r.jobs[..|s.jobs|] == s.jobs
      && Pids(r.jobs) == Pids(s.jobs) + Pids(Arriving(descs, s.time))
    decreases |descs|
  {
    if descs != [] {
      var d := descs[0];
      var s1 := if d.arrivalTime == s.time then Arrive(s, d, snapshots) else s;
      ArrivalsLedger(s1, descs[1..], snapshots);
      if d.arrivalTime == s.time {
        AppendLedger(s.jobs, s1.jobs, ArrivalsFrom(s1, descs[1..], snapshots).jobs, d, Arriving(descs[1..], s.time));
      }
    }
  }

  /** A ledger `b` that extends `a` by one NEW or READY entry, then extended by NEW or
      READY entries only. */
  lemma AppendStates(a: seq<PCB>, b: seq<PCB>, c: seq<PCB>)
    requires |b| == |a| + 1 && |b| <= |c| && c[..|b|] == b
    requires b[|a|].state == New || b[|a|].state == Ready
    requires forall k :: |b| <= k < |c| ==> c[k].state == New || c[k].state == Ready
    ensures forall k :: |a| <= k < |c| ==> c[k].state == New || c[k].state == Ready
  {
    assert c[|a|] == c[..|b|][|a|];
  }

  /** Each entry the arrivals phase adds is NEW (no room) or READY (admitted). */
  lemma {:induction false} ArrivalsStates(s: Sim, descs: seq<PCB>, snapshots: bool)
    ensures var r := ArrivalsFrom(s, descs, snapshots);
      && |s.jobs| <= |r.jobs|
      && forall k :: |s.jobs| <= k < |r.jobs| ==> r.jobs[k].state == New || r.jobs[k].state == Ready
    decreases |descs|
  {
    if descs != [] {
      var d := descs[0];
      var s1 := if d.arrivalTime == s.time then Arrive(s, d, snapshots) else s;
      ArrivalsStates(s1, descs[1..], snapshots);
      if d.arrivalTime == s.time {
        ArrivalsLedger(s1, descs[1..], snapshots);
        AppendStates(s.jobs, s1.jobs, ArrivalsFrom(s1, descs[1..], snapshots).jobs);
      }
    }
  }

  /** A queue `qb` that extends `qa` by the new entry of `b` exactly when it is READY,
      then extended by the READY entries among those `c` adds to `b`. */
  lemma AppendQueue(a: seq<PCB>, b: seq<PCB>, c: seq<PCB>, qa: seq<PCB>, qb: seq<PCB>, qc: seq<PCB>)
    requires |b| == |a| + 1 && |b| <= |c| && c[..|b|] == b
    requires qb == qa + (if b[|a|].state == Ready then [b[|a|]] else [])
    requires qc == qb + ReadyEntries(c[|b|..])
    ensures qc == qa + ReadyEntries(c[|a|..])
  {
    var e := b[|a|];
    assert c[|a|..] == [e] + c[|b|..] by {
      assert c[|a|] == c[..|b|][|a|];
    }
    assert ReadyEntries([e] + c[|b|..]) == (if e.state == Ready then [e] else []) + ReadyEntries(c[|b|..]);
  }

  /** The arrivals phase queues exactly the new READY ledger entries, in ledger order. */
  lemma {:induction false} ArrivalsQueue(s: Sim, descs: seq<PCB>, snapshots: bool)
    ensures var r := ArrivalsFrom(s, descs, snapshots);
      |s.jobs| <= |r.jobs| && r.ready == s.ready + ReadyEntries(r.jobs[|s.jobs|..])
    decreases |descs|
  {
    if descs != [] {
      var d := descs[0];
      var s1 := if d.arrivalTime == s.time then Arrive(s, d, snapshots) else s;
      ArrivalsQueue(s1, descs[1..], snapshots);
      if d.arrivalTime == s.time {
        var r := ArrivalsFrom(s1, descs[1..], snapshots);
        ArrivalsLedger(s1, descs[1..], snapshots);
        AppendQueue(s.jobs, s1.jobs, r.jobs, s.ready, s1.ready, r.ready);
      }
    }
  }

  // ---------------------------------------------------------- I/O completions

  predicate IsDue(rec: IoRecord, t: nat)
  {
    rec.completeTime == t
  }

  /** The records due at `t`, in list order. */
  function Due(io: seq<IoRecord>, t: nat): (d: seq<IoRecord>)
    ensures forall k :: 0 <= k < |d| ==> IsDue(d[k], t)
    ensures multiset(d) <= multiset(io)
  {
    if io == [] then []
    else
      var init := io[..|io| - 1];
      assert io == init + [io[|io| - 1]];
      Due(init, t) + (if IsDue(io[|io| - 1], t) then [io[|io| - 1]] else [])
  }

  /** The records not yet due at `t`, in list order. */
  function NotDue(io: seq<IoRecord>, t: nat): (d: seq<IoRecord>)
    ensures forall k :: 0 <= k < |d| ==> !IsDue(d[k], t)
    ensures multiset(d) <= multiset(io)
  {
    if io == [] then []
    else
      var init := io[..|io| - 1];
      assert io == init + [io[|io| - 1]];
      NotDue(init, t) + (if IsDue(io[|io| - 1], t) then [] else [io[|io| - 1]])
  }

  lemma SplitAtRecord(io: seq<IoRecord>, n: nat)
    requires n < |io|
    ensures io[n..] == [io[n]] + io[n + 1..] && io[..n + 1] == io[..n] + [io[n]]
  {
  }

  lemma DueSnoc(io: seq<IoRecord>, x: IoRecord, t: nat)
    ensures IsDue(x, t) ==> Due(io + [x], t) == Due(io, t) + [x] && NotDue(io + [x], t) == NotDue(io, t)
    ensures !IsDue(x, t) ==> Due(io + [x], t) == Due(io, t) && NotDue(io + [x], t) == NotDue(io, t) + [x]
  {
    assert (io + [x])[..|io|] == io;
  }

  /** Every record is either due or kept, never both and never lost. */
  lemma {:induction false} IoSplit(io: seq<IoRecord>, t: nat)
    ensures |Due(io, t)| + |NotDue(io, t)| == |io|
    ensures multiset(Due(io, t)) + multiset(NotDue(io, t)) == multiset(io)
  {
    if io != [] {
      var init := io[..|io| - 1];
      IoSplit(init, t);
      assert io == init + [io[|io| - 1]];
    }
  }

  /** The next I/O time of a process coming back from I/O at time `t`. */
  function NextIoAfterWait(e: PCB, t: nat): (n: int)
    ensures n == NO_IO <==> e.ioFreq == 0
    ensures n != NO_IO ==> n == t + e.ioFreq && n > t
  {
    if e.ioFreq > 0 then t + e.ioFreq else NO_IO
  }

  /** One due record: its process goes WAITING -> READY with a fresh next I/O time and is
      queued at the tail; a record whose process is not in the ledger changes nothing. */
  function Wake(s: Sim, rec: IoRecord): (r: Sim)
    ensures JobIndex(s.jobs, rec.pid) == -1 ==> r == s
    ensures JobIndex(s.jobs, rec.pid) != -1 ==>
      var j := JobIndex(s.jobs, rec.pid);
      && r.jobs == s.jobs[j := s.jobs[j].(state := Ready, nextIoTime := NextIoAfterWait(s.jobs[j], s.time))]
      && r.ready == s.ready + [r.jobs[j]]
      && r.trace == s.trace + [Transition(s.time, rec.pid, Waiting, Ready)]
    ensures r.io == s.io && r.running == s.running && r.time == s.time
    ensures r.parts == s.parts && r.quantumUsed == s.quantumUsed
  {
    var j := JobIndex(s.jobs, rec.pid);
    if j == -1 then s
    else
      var e := s.jobs[j].(state := Ready, nextIoTime := NextIoAfterWait(s.jobs[j], s.time));
      s.(jobs := s.jobs[j := e], ready := s.ready + [e],
         trace := s.trace + [Transition(s.time, s.jobs[j].pid, Waiting, Ready)])
  }

  lemma WakeIgnoresIo(s: Sim, io: seq<IoRecord>, rec: IoRecord)
    ensures Wake(s.(io := io), rec) == Wake(s, rec).(io := io)
  {
  }

  /** Wakes the given records in order. */
  function WakeAll(s: Sim, due: seq<IoRecord>): (r: Sim)
    ensures r.io == s.io && r.running == s.running && r.time == s.time
    ensures r.parts == s.parts && r.quantumUsed == s.quantumUsed
    ensures |r.jobs| == |s.jobs| && Pids(r.jobs) == Pids(s.jobs)
    ensures forall i :: 0 <= i < |s.jobs| ==> r.jobs[i].remainingTime == s.jobs[i].remainingTime
    ensures |s.ready| <= |r.ready| <= |s.ready| + |due| && r.ready[..|s.ready|] == s.ready
  {
    if due == [] then s
    else
      var w := WakeAll(s, due[..|due| - 1]);
      var r := Wake(w, due[|due| - 1]);
      assert r.ready[..|w.ready|] == w.ready;
      assert r.ready[..|s.ready|] == w.ready[..|s.ready|];
      r
  }

  lemma WakeAllSnoc(s: Sim, due: seq<IoRecord>, x: IoRecord)
    ensures WakeAll(s, due + [x]) == Wake(WakeAll(s, due), x)
  {
    assert (due + [x])[..|due|] == due;
  }

  /** The ids of a list of I/O records, in list order. */
  function RecordPids(io: seq<IoRecord>): seq<int>
  {
    seq(|io|, k requires 0 <= k < |io| => io[k].pid)
  }

  /** Waking records whose ids are distinct and all in the ledger: each record's entry goes
      READY with its next I/O time re-armed, its copy is queued behind the old queue in list
      order, and every entry no record names is unchanged. */
  lemma {:induction false} WakeAllWakes(s: Sim, due: seq<IoRecord>)
    requires forall x :: 0 <= x < |due| ==> due[x].pid in Pids(s.jobs)
    requires forall a, b :: 0 <= a < b < |due| ==> due[a].pid != due[b].pid
    ensures var r := WakeAll(s, due);
      && |r.ready| == |s.ready| + |due|
      && (forall x :: 0 <= x < |due| ==>
            var j := JobIndex(s.jobs, due[x].pid);
            && r.jobs[j] == s.jobs[j].(state := Ready, nextIoTime := NextIoAfterWait(s.jobs[j], s.time))
            && r.ready[|s.ready| + x] == r.jobs[j])
      && (forall i :: 0 <= i < |s.jobs| && s.jobs[i].pid !in RecordPids(due) ==> r.jobs[i] == s.jobs[i])
    decreases |due|
  {
    if due != [] {
      var init, last := due[..|due| - 1], due[|due| - 1];
      assert due == init + [last];
      assert RecordPids(due) == RecordPids(init) + [last.pid];
      WakeAllWakes(s, init);
      var w := WakeAll(s, init);
      var r := WakeAll(s, due);
      assert r == Wake(w, last);
      var j := JobIndex(s.jobs, last.pid);
      assert JobIndex(w.jobs, last.pid) == j;
      assert last.pid !in RecordPids(init) by {
        forall x | 0 <= x < |init|
          ensures RecordPids(init)[x] != last.pid
        {
          assert init[x] == due[x];
        }
      }
      assert w.jobs[j] == s.jobs[j];
      var e := s.jobs[j].(state := Ready, nextIoTime := NextIoAfterWait(s.jobs[j], s.time));
      assert r.jobs == w.jobs[j := e] && r.ready == w.ready + [e];
      forall x | 0 <= x < |due|
        ensures var jx := JobIndex(s.jobs, due[x].pid);
          && r.jobs[jx] == s.jobs[jx].(state := Ready, nextIoTime := NextIoAfterWait(s.jobs[jx], s.time))
          && r.ready[|s.ready| + x] == r.jobs[jx]
      {
        if x < |init| {
          assert init[x] == due[x];
          assert JobIndex(s.jobs, due[x].pid) != j;
        }
      }
      forall i | 0 <= i < |s.jobs| && s.jobs[i].pid !in RecordPids(due)
        ensures r.jobs[i] == s.jobs[i]
      {
        assert i != j && s.jobs[i].pid !in RecordPids(init);
      }
    }
  }

  /** The in-place walk over the I/O list has passed the first `n` records of the list
      `io0` it started from: the due ones are erased and their processes woken in order,
      and the others (`kept`) stand in front of the records not yet visited. */
  predicate IoWalked(s0: Sim, io0: seq<IoRecord>, n: nat, kept: seq<IoRecord>, st: Sim)
  {
    && n <= |io0|
    && kept == NotDue(io0[..n], s0.time)
    && st == WakeAll(s0, Due(io0[..n], s0.time)).(io := kept + io0[n..])
  }

  /** The walk starts from the whole list, nothing passed. */
  lemma IoWalkStart(s0: Sim)
    ensures IoWalked(s0, s0.io, 0, [], s0)
  {
    assert s0.io[..0] == [] && s0.io[0..] == s0.io;
  }

  /** Visiting the next record, the one at position `|kept|`: a due record is erased and
      its process woken, any other is passed over and kept. */
  lemma IoWalkStep(s0: Sim, io0: seq<IoRecord>, n: nat, kept: seq<IoRecord>, st: Sim) returns (n': nat)
    requires IoWalked(s0, io0, n, kept, st) && n < |io0|
    ensures n' == n + 1 && |kept| < |st.io| && st.io[|kept|] == io0[n] && st.time == s0.time
    ensures IsDue(io0[n], s0.time) ==>
      IoWalked(s0, io0, n', kept, Wake(st, io0[n]).(io := st.io[..|kept|] + st.io[|kept| + 1..]))
    ensures !IsDue(io0[n], s0.time) ==> IoWalked(s0, io0, n', kept + [io0[n]], st)
  {
    var x, pre, rest := io0[n], io0[..n], io0[n + 1..];
    SplitAtRecord(io0, n);
    assert st.io == kept + [x] + rest;
    DueSnoc(pre, x, s0.time);
    if IsDue(x, s0.time) {
      var w := WakeAll(s0, Due(pre, s0.time));
      WakeAllSnoc(s0, Due(pre, s0.time), x);
      WakeIgnoresIo(w, st.io, x);
      assert st.io[..|kept|] + st.io[|kept| + 1..] == kept + rest;
    }
    n' := n + 1;
  }

  /** Once the walk has reached the end of the list, every due record is erased and its
      process woken, and the rest stay in order. */
  lemma IoWalkDone(s0: Sim, io0: seq<IoRecord>, n: nat, kept: seq<IoRecord>, st: Sim)
    requires IoWalked(s0, io0, n, kept, st) && |st.io| <= |kept|
    ensures st == WakeAll(s0, Due(io0, s0.time)).(io := NotDue(io0, s0.time))
  {
    assert io0[..n] == io0;
  }

  /** The I/O-completion phase: every record due now is removed and its process woken,
      and the records not yet due stay, in order. */
  function CompleteIo(s: Sim): (r: Sim)
    ensures r.io == NotDue(s.io, s.time)
    ensures r.running == s.running && r.time == s.time && r.parts == s.parts && r.quantumUsed == s.quantumUsed
    ensures |r.jobs| == |s.jobs| && Pids(r.jobs) == Pids(s.jobs)
    ensures forall i :: 0 <= i < |s.jobs| ==> r.jobs[i].remainingTime == s.jobs[i].remainingTime
    ensures |s.ready| <= |r.ready| && r.ready[..|s.ready|] == s.ready
  {
    WakeAll(s, Due(s.io, s.time)).(io := NotDue(s.io, s.time))
  }

  /** The I/O-completion phase wakes every due record's process: when the due records name
      distinct ledger entries, each such entry goes READY with its next I/O time
      re-armed and is queued at the tail in list order, every entry no due record names is
      unchanged, and the list keeps exactly the records not due. */
  lemma CompleteIoWakes(s: Sim)
    requires forall x :: 0 <= x < |Due(s.io, s.time)| ==> Due(s.io, s.time)[x].pid in Pids(s.jobs)
    requires forall a, b :: 0 <= a < b < |Due(s.io, s.time)| ==> Due(s.io, s.time)[a].pid != Due(s.io, s.time)[b].pid
    ensures var r := CompleteIo(s);
      var due := Due(s.io, s.time);
      && r.io == NotDue(s.io, s.time)
      && |r.ready| == |s.ready| + |due| && r.ready[..|s.ready|] == s.ready
      && (forall x :: 0 <= x < |due| ==>
            var j := JobIndex(s.jobs, due[x].pid);
            && r.jobs[j] == s.jobs[j].(state := Ready, nextIoTime := NextIoAfterWait(s.jobs[j], s.time))
            && r.ready[|s.ready| + x] == r.jobs[j])
      && (forall i :: 0 <= i < |s.jobs| && s.jobs[i].pid !in RecordPids(due) ==> r.jobs[i] == s.jobs[i])
  {
    WakeAllWakes(s, Due(s.io, s.time));
  }

  // ------------------------------------------------------ executing one tick

  /** The CPU executes this tick: something is RUNNING and it is not the idle id. */
  predicate Executes(s: Sim)
  {
    s.running.Some? && s.running.value.pid != -1
  }

  /** The start time a dispatched process carries: set at its first dispatch only. */
  function StartTimeAt(p: PCB, t: nat): int
  {
    if p.startTime == UNSET then t else p.startTime
  }

  /** One millisecond of CPU: remaining time drops by one, never below zero. */
  function Consume(p: PCB): (q: PCB)
    ensures q == p.(remainingTime := q.remainingTime)
    ensures p.remainingTime > 0 ==> q.remainingTime + 1 == p.remainingTime
    ensures p.remainingTime == 0 ==> q.remainingTime == 0
  {
    p.(remainingTime := if p.remainingTime > 0 then p.remainingTime - 1 else 0)
  }

  /** The I/O-request test of the tick that ends at `t + 1` (an exact equality). */
  predicate IoRequested(p: PCB, t: nat)
  {
    p.ioFreq > 0 && p.nextIoTime != NO_IO && t + 1 == p.nextIoTime
  }

  /** A process with I/O requests it in exactly one tick: the one that ends at its next
      I/O time; NO_IO and a next I/O time of 0 never fire. */
  lemma IoRequestTick(p: PCB, t: nat)
    ensures IoRequested(p, t) <==> p.ioFreq > 0 && p.nextIoTime >= 1 && t == p.nextIoTime - 1
  {
  }

  /** Copies the running copy's remaining time into its ledger entry, if there is one. */
  function SyncRemaining(jobs: seq<PCB>, j: int, p: PCB): (r: seq<PCB>)
    requires -1 <= j < |jobs|
    ensures |r| == |jobs|
    ensures j != -1 ==> r[j] == jobs[j].(remainingTime := p.remainingTime)
    ensures forall i :: 0 <= i < |jobs| && i != j ==> r[i] == jobs[i]
    ensures j == -1 ==> r == jobs
  {
    if j == -1 then jobs else jobs[j := jobs[j].(remainingTime := p.remainingTime)]
  }

  /** RUNNING -> WAITING: the ledger entry waits with no I/O pending, exactly one
      completion record is appended, and the CPU goes idle. */
  function BeginIo(s: Sim, p: PCB, j: int): (r: Sim)
    requires -1 <= j < |s.jobs|
    ensures r.running.None? && r.ready == s.ready && r.time == s.time && r.parts == s.parts
    ensures |r.jobs| == |s.jobs| && Pids(r.jobs) == Pids(s.jobs)
    ensures j != -1 ==>
      && r.jobs == s.jobs[j := s.jobs[j].(state := Waiting, nextIoTime := NO_IO)]
      && r.io == s.io + [IoRecord(s.jobs[j].pid, s.time + 1 + s.jobs[j].ioDuration)]
    ensures j == -1 ==> r.jobs == s.jobs && r.io == s.io
    ensures r.trace == s.trace + [Transition(s.time + 1, p.pid, Running, Waiting)]
  {
    var jobs := if j == -1 then s.jobs else s.jobs[j := s.jobs[j].(state := Waiting, nextIoTime := NO_IO)];
    var io := if j == -1 then s.io else s.io + [IoRecord(s.jobs[j].pid, s.time + 1 + s.jobs[j].ioDuration)];
    s.(jobs := jobs, io := io, running := None,
       trace := s.trace + [Transition(s.time + 1, p.pid, Running, Waiting)])
  }

  /** RUNNING -> TERMINATED: the ledger entry terminates, its memory is released,
      optionally a memory report is logged, and the CPU goes idle. */
  function Finish(s: Sim, p: PCB, j: int, snapshot: bool): (r: Sim)
    requires -1 <= j < |s.jobs|
    ensures r.running.None? && r.ready == s.ready && r.io == s.io && r.time == s.time
    ensures |r.jobs| == |s.jobs| && Pids(r.jobs) == Pids(s.jobs)
    ensures j != -1 ==>
      && r.jobs == s.jobs[j := s.jobs[j].(state := Terminated, partitionNumber := UNSET)]
      && r.parts == Release(s.parts, s.jobs[j].pid)
    ensures j == -1 ==> r.jobs == s.jobs && r.parts == s.parts
    ensures r.trace == s.trace + [Transition(s.time + 1, p.pid, Running, Terminated)]
                       + (if snapshot then [MemoryStatus(ReportOf(r.parts))] else [])
  {
    var jobs := if j == -1 then s.jobs else s.jobs[j := s.jobs[j].(state := Terminated, partitionNumber := UNSET)];
    var parts := if j == -1 then s.parts else Release(s.parts, s.jobs[j].pid);
    s.(jobs := jobs, parts := parts, running := None,
       trace := s.trace + [Transition(s.time + 1, p.pid, Running, Terminated)]
                + (if snapshot then [MemoryStatus(ReportOf(parts))] else []))
  }

  // -------------------------------------------------------------- exit test

  /** Result of a run bounded by a clock limit. */
  datatype Outcome = Finished(final: Sim) | OutOfTicks(final: Sim)

  /** The end of a tick: the state is kept when the loop exits, otherwise the clock advances by one. */
  function AdvanceClock(procs: seq<PCB>, s: Sim): (r: Sim)
    ensures ExitCondition(procs, s) ==> r == s
    ensures !ExitCondition(procs, s) ==> r.time == s.time + 1 && r.(time := s.time) == s
  {
    if ExitCondition(procs, s) then s else s.(time := s.time + 1)
  }

  predicate AllArrived(procs: seq<PCB>, t: nat)
  {
    forall i :: 0 <= i < |procs| ==> procs[i].arrivalTime <= t
  }

  predicate AllTerminated(jobs: seq<PCB>)
  {
    forall i :: 0 <= i < |jobs| ==> jobs[i].state == Terminated
  }

  /** The loop stops when no descriptor is still to arrive and every ledger entry terminated. */
  predicate ExitCondition(procs: seq<PCB>, s: Sim)
  {
    AllArrived(procs, s.time) && AllTerminated(s.jobs)
  }

  /** Whether every ledger entry has terminated. */
  method AllProcessTerminated(jobs: seq<PCB>) returns (b: bool)
    ensures b <==> AllTerminated(jobs)
  {
    for i := 0 to |jobs|
      invariant forall k :: 0 <= k < i ==> jobs[k].state == Terminated
    {
      if jobs[i].state != Terminated {
        return false;
      }
    }
    return true;
  }

  /** The exit test at the end of a tick: a scan for a descriptor still to arrive, then the ledger. */
  method ShouldStop(procs: seq<PCB>, s: Sim) returns (stop: bool)
    ensures stop <==> ExitCondition(procs, s)
  {
    var allArrived := true;
    var i := 0;
    while i < |procs|
      invariant 0 <= i <= |procs|
      invariant allArrived <==> forall k :: 0 <= k < i ==> procs[k].arrivalTime <= s.time
      invariant !allArrived ==> i < |procs|
    {
      if procs[i].arrivalTime > s.time {
        allArrived := false;
        break;
      }
      i := i + 1;
    }
    if !allArrived {
      return false;
    }
    stop := AllProcessTerminated(s.jobs);
  }
}
