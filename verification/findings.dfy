/** Two places where the code departs from the process lifecycle it implements. Each is
    stated on the model of the code as written, next to the evidently intended rule and
    what that rule guarantees. The tick model itself keeps the code's behaviour. */
module Findings {
  import opened Process
  import opened Memory
  import opened Engine
  import opened PriorityPolicy
  import opened RoundRobinPolicy

  // ------------------------------------ the I/O test precedes the termination test

  /** As written, a process whose last millisecond coincides with an I/O request goes
      WAITING with nothing left to run instead of terminating, under both policies. */
  lemma IoBeatsTermination(s: Sim)
    requires Executes(s) && JobIndex(s.jobs, s.running.value.pid) != -1
    requires IoRequested(Consume(s.running.value), s.time) && Consume(s.running.value).remainingTime == 0
    ensures var r := ExecPriority(s);
      var j := JobIndex(s.jobs, s.running.value.pid);
      && r.jobs[j].state == Waiting && r.jobs[j].remainingTime == 0 && r.running.None?
    ensures LeavesFor(Account(s.running.value), s.time) == Waiting
  {
  }

  /** As written, under round robin a process with io_freq 1 and nothing left to run that
      completes its I/O at the current time is woken, dispatched and sent back to I/O in
      the same pass, still with nothing left to run and not TERMINATED: the state after
      the pass has the same shape with a later completion time. */
  lemma RoundRobinIoLivelock(s: Sim, e: PCB)
    requires s.jobs == [e] && e.state == Waiting && e.remainingTime == 0 && e.ioFreq == 1 && e.pid != -1
    requires s.ready == [] && s.running.None? && s.io == [IoRecord(e.pid, s.time)]
    ensures var m := ExecRoundRobin(DispatchHead(CompleteIo(s)));
      && |m.jobs| == 1 && m.jobs[0].pid == e.pid && m.jobs[0].state == Waiting
      && m.jobs[0].remainingTime == 0 && m.jobs[0].ioFreq == 1
      && m.ready == [] && m.running.None? && m.io == [IoRecord(e.pid, s.time + 1 + e.ioDuration)]
      && !AllTerminated(m.jobs)
  {
    var c := CompleteIo(s);
    var woken := e.(state := Ready, nextIoTime := s.time + 1);
    LivelockWake(s, e);
    var d := DispatchHead(c);
    var run := woken.(state := Running, timeInQuantum := 0, startTime := StartTimeAt(woken, s.time));
    LivelockDispatch(c, woken);
    LivelockExec(d, run);
  }

  /** The completion phase of the pass above: the one record is due and wakes the entry. */
  lemma LivelockWake(s: Sim, e: PCB)
    requires s.jobs == [e] && e.state == Waiting && e.ioFreq == 1 && e.pid != -1
    requires s.ready == [] && s.io == [IoRecord(e.pid, s.time)]
    ensures var woken := e.(state := Ready, nextIoTime := s.time + 1);
      var c := CompleteIo(s);
      c.jobs == [woken] && c.ready == [woken] && c.io == [] && c.running == s.running && c.time == s.time
  {
    var rec := IoRecord(e.pid, s.time);
    assert s.io[..0] == [];
    assert Due(s.io, s.time) == [rec];
    assert NotDue(s.io, s.time) == [];
    assert [rec][..0] == [];
    assert WakeAll(s, [rec]) == Wake(WakeAll(s, []), rec);
    assert Pids(s.jobs)[0] == e.pid;
    assert JobIndex(s.jobs, e.pid) == 0;
  }

  /** The dispatch phase of the pass above: the woken entry is the head of the queue. */
  lemma LivelockDispatch(c: Sim, w: PCB)
    requires c.jobs == [w] && c.ready == [w] && c.running.None? && w.pid != -1
    ensures var d := DispatchHead(c);
      && d.running == Some(w.(state := Running, timeInQuantum := 0, startTime := StartTimeAt(w, c.time)))
      && d.ready == [] && d.jobs == [w.(state := Running)] && d.io == c.io && d.time == c.time
  {
    assert Pids(c.jobs)[0] == w.pid;
    assert JobIndex(c.jobs, w.pid) == 0;
  }

  /** The execution phase of the pass above: the I/O request is checked first and wins,
      also over the last millisecond of a process that had one left. */
  lemma LivelockExec(d: Sim, run: PCB)
    requires d.running == Some(run) && run.pid != -1 && run.ioFreq == 1 && run.remainingTime <= 1
    requires run.nextIoTime == d.time + 1 && run.timeInQuantum == 0
    requires |d.jobs| == 1 && d.jobs[0].pid == run.pid && d.jobs[0].ioFreq == 1
    requires d.jobs[0].ioDuration == run.ioDuration
    requires d.ready == [] && d.io == []
    ensures var m := ExecRoundRobin(d);
      && |m.jobs| == 1 && m.jobs[0].pid == run.pid && m.jobs[0].state == Waiting
      && m.jobs[0].remainingTime == 0 && m.jobs[0].ioFreq == 1
      && m.ready == [] && m.running.None? && m.io == [IoRecord(run.pid, d.time + 1 + run.ioDuration)]
  {
    assert Pids(d.jobs)[0] == run.pid;
    assert JobIndex(d.jobs, run.pid) == 0;
    assert IoRequested(Account(run), d.time);
  }

  /** A ledger of one WAITING process with io_freq 1 and nothing left to run, whose single
      I/O record completes now or later, with an idle CPU, an empty queue, and every
      descriptor already arrived. */
  predicate Livelocked(procs: seq<PCB>, s: Sim)
  {
    && |s.jobs| == 1 && s.jobs[0].state == Waiting && s.jobs[0].remainingTime == 0
    && s.jobs[0].ioFreq == 1 && s.jobs[0].pid != -1
    && s.ready == [] && s.running.None?
    && |s.io| == 1 && s.io[0].pid == s.jobs[0].pid && s.io[0].completeTime >= s.time
    && forall k :: 0 <= k < |procs| ==> procs[k].arrivalTime < s.time
  }

  /** With no descriptor arriving now the arrivals phase changes nothing. */
  lemma {:induction false} NoArrivals(s: Sim, descs: seq<PCB>, snapshots: bool)
    requires forall k :: 0 <= k < |descs| ==> descs[k].arrivalTime != s.time
    ensures ArrivalsFrom(s, descs, snapshots) == s
    decreases |descs|
  {
    if descs != [] {
      assert forall k :: 0 <= k < |descs[1..]| ==> descs[1..][k] == descs[k + 1];
      NoArrivals(s, descs[1..], snapshots);
    }
  }

  /** A pass before the record is due changes nothing: no record completes, the queue is
      empty and the CPU idle. */
  lemma IdlePass(s: Sim)
    requires s.ready == [] && s.running.None? && |s.io| == 1 && !IsDue(s.io[0], s.time)
    ensures ExecRoundRobin(DispatchHead(CompleteIo(s))) == s
  {
    assert s.io[..0] == [] && s.io == [s.io[0]];
    assert Due(s.io, s.time) == [] && NotDue(s.io, s.time) == s.io;
  }

  /** As written, every pass from the livelocked shape misses the exit condition and, after
      the clock advances, is back in that shape. */
  lemma LivelockedPass(procs: seq<PCB>, s: Sim)
    requires Livelocked(procs, s)
    ensures var m := RoundRobinPhases(procs, s);
      !ExitCondition(procs, m) && Livelocked(procs, AdvanceClock(procs, m))
  {
    NoArrivals(s, procs, false);
    if s.io[0].completeTime == s.time {
      DuePass(procs, s);
    } else {
      IdlePass(s);
    }
  }

  /** The pass of LivelockedPass in which the record is due. */
  lemma DuePass(procs: seq<PCB>, s: Sim)
    requires Livelocked(procs, s) && s.io[0].completeTime == s.time
    requires ArrivalsFrom(s, procs, false) == s
    ensures var m := RoundRobinPhases(procs, s);
      !ExitCondition(procs, m) && Livelocked(procs, AdvanceClock(procs, m))
  {
    assert s.jobs == [s.jobs[0]] && s.io == [IoRecord(s.jobs[0].pid, s.time)];
    RoundRobinIoLivelock(s, s.jobs[0]);
  }

  /** As written, no round-robin run from the livelocked shape finishes: it runs until the
      clock limit, whatever the limit. */
  lemma {:induction false} RoundRobinNeverExits(procs: seq<PCB>, s: Sim, limit: nat)
    requires Livelocked(procs, s)
    ensures RunRoundRobinFrom(procs, s, limit).OutOfTicks?
    decreases limit - s.time
  {
    if s.time < limit {
      var m := RoundRobinPhases(procs, s);
      LivelockedPass(procs, s);
      RoundRobinNeverExits(procs, AdvanceClock(procs, m), limit);
    }
  }

  /** As written, a single process with io_freq 1 and a 1 ms burst arriving at time 0 into
      memory with room reaches the livelocked shape after the first pass: its only
      millisecond ends on its first I/O tick, so it goes WAITING with nothing left. */
  lemma FirstPassLivelocks(d: PCB, parts: seq<Partition>)
    requires d.arrivalTime == 0 && d.remainingTime == 1 && d.ioFreq == 1 && d.nextIoTime == 0
    requires d.pid != -1 && HasRoom(parts, d.size)
    ensures var m := RoundRobinPhases([d], Initial(parts));
      !ExitCondition([d], m) && Livelocked([d], AdvanceClock([d], m))
  {
    var s := Initial(parts);
    var a := ArrivalsFrom(s, [d], false);
    assert a == Arrive(s, d, false) by {
      assert [d][1..] == [];
      assert ArrivalsFrom(Arrive(s, d, false), [], false) == Arrive(s, d, false);
    }
    var e := a.jobs[0];
    assert a.jobs == [e] && a.ready == [e] && a.io == [] && a.running.None?;
    assert CompleteIo(a) == a by {
      assert Due(a.io, a.time) == [] && NotDue(a.io, a.time) == [];
    }
    LivelockDispatch(a, e);
    var dd := DispatchHead(a);
    LivelockExec(dd, e.(state := Running, timeInQuantum := 0, startTime := StartTimeAt(e, 0)));
  }

  /** As written, a round-robin run of that single process never finishes, whatever the
      clock limit: it runs until the limit. */
  lemma RoundRobinNeverExitsFromStart(d: PCB, parts: seq<Partition>, limit: nat)
    requires d.arrivalTime == 0 && d.remainingTime == 1 && d.ioFreq == 1 && d.nextIoTime == 0
    requires d.pid != -1 && HasRoom(parts, d.size)
    ensures RunRoundRobinFrom([d], Initial(parts), limit).OutOfTicks?
  {
    if 0 < limit {
      var m := RoundRobinPhases([d], Initial(parts));
      FirstPassLivelocks(d, parts);
      RoundRobinNeverExits([d], AdvanceClock([d], m), limit);
    }
  }

  /** The evidently intended precedence: a process with nothing left to run terminates,
      whatever else falls due in the same tick; otherwise an I/O request comes first. */
  function IntendedLeave(p: PCB, t: nat, expired: bool): (st: State)
    ensures st == Terminated <==> p.remainingTime == 0
    ensures st == Waiting <==> p.remainingTime > 0 && IoRequested(p, t)
  {
    if p.remainingTime == 0 then Terminated
    else if IoRequested(p, t) then Waiting
    else if expired then Ready
    else Running
  }

  /** The code's precedence and the intended one disagree exactly when an I/O request
      falls on the last millisecond. */
  lemma LeavesForDiffers(p: PCB, t: nat)
    ensures LeavesFor(p, t) != IntendedLeave(p, t, p.timeInQuantum >= RR_QUANTUM)
            <==> IoRequested(p, t) && p.remainingTime == 0
  {
  }

  /** The round-robin CPU tick under the intended precedence: as ExecRoundRobin, with the
      termination test before the I/O request. Where the two precedences agree it is the
      tick as written; a process with nothing left always terminates. */
  function IntendedExecRoundRobin(s: Sim): (r: Sim)
    ensures r.time == s.time && |r.jobs| == |s.jobs|
    ensures !Executes(s) ==> r == s
    ensures Executes(s) ==>
      var p := Account(s.running.value);
      var j := JobIndex(s.jobs, p.pid);
      && (LeavesFor(p, s.time) == IntendedLeave(p, s.time, p.timeInQuantum >= RR_QUANTUM) ==> r == ExecRoundRobin(s))
      && (p.remainingTime == 0 ==> r.running.None? && r.io == s.io && (j != -1 ==> r.jobs[j].state == Terminated))
  {
    if !Executes(s) then s
    else
      var p := Account(s.running.value);
      var j := JobIndex(s.jobs, p.pid);
      var jobs := if j == -1 then s.jobs
                  else s.jobs[j := s.jobs[j].(remainingTime := p.remainingTime, timeInQuantum := p.timeInQuantum)];
      var s1 := s.(jobs := jobs, quantumUsed := s.quantumUsed + 1);
      match IntendedLeave(p, s.time, p.timeInQuantum >= RR_QUANTUM)
      case Terminated => Finish(s1, p, j, false).(quantumUsed := 0)
      case Waiting => BeginIo(s1, p, j).(quantumUsed := 0)
      case Ready => Preempt(s1, p, j).(quantumUsed := 0)
      case _ => s1.(running := Some(p))
  }

  /** Under the intended precedence the livelocked pass ends the run: the woken process is
      dispatched and terminates in the same pass, and the loop's exit condition holds. */
  lemma IntendedEndsLivelock(procs: seq<PCB>, s: Sim)
    requires Livelocked(procs, s) && s.io[0].completeTime == s.time
    ensures ExitCondition(procs, IntendedExecRoundRobin(DispatchHead(CompleteIo(ArrivalsFrom(s, procs, false)))))
  {
    NoArrivals(s, procs, false);
    var e := s.jobs[0];
    assert s.jobs == [e] && s.io == [IoRecord(e.pid, s.time)];
    LivelockWake(s, e);
    var c := CompleteIo(s);
    var woken := e.(state := Ready, nextIoTime := s.time + 1);
    LivelockDispatch(c, woken);
    IntendedExecTerminates(DispatchHead(c), woken.(state := Running, timeInQuantum := 0, startTime := StartTimeAt(woken, s.time)));
  }

  /** The execution phase of that pass under the corrected tick: nothing is left, so the
      process terminates and the one-entry ledger is all TERMINATED. */
  lemma IntendedExecTerminates(d: Sim, run: PCB)
    requires d.running == Some(run) && run.pid != -1 && run.remainingTime == 0
    requires |d.jobs| == 1 && d.jobs[0].pid == run.pid
    ensures var m := IntendedExecRoundRobin(d);
      |m.jobs| == 1 && m.jobs[0].state == Terminated && AllTerminated(m.jobs) && m.time == d.time
  {
    assert Pids(d.jobs)[0] == run.pid;
    assert JobIndex(d.jobs, run.pid) == 0;
  }

  // ----------------------------------------- the first I/O time at admission

  /** As written, a process admitted at a time at or after its io_freq gets a next I/O time
      that has already passed; the I/O test is an exact equality, so no later tick fires it,
      and only a completed I/O would set it again. */
  lemma LateArrivalNeverIo(s: Sim, d: PCB, snapshots: bool)
    requires HasRoom(s.parts, d.size) && d.nextIoTime == 0 && 0 < d.ioFreq <= s.time
    ensures var e := Arrive(s, d, snapshots).jobs[|s.jobs|];
      && e.nextIoTime == d.ioFreq && e.nextIoTime <= s.time
      && forall q: PCB, u: nat :: q.nextIoTime == e.nextIoTime && u >= s.time ==> !IoRequested(q, u)
  {
  }

  /** The evidently intended rule: the first I/O falls io_freq milliseconds after
      admission, as every later one falls io_freq milliseconds after an I/O completes. */
  function IntendedNextIo(p: PCB, t: nat): (n: int)
    ensures p.nextIoTime == 0 ==> n == NO_IO || n > t
    ensures p.nextIoTime == 0 ==> n == NextIoAfterWait(p, t)
    ensures p.nextIoTime != 0 ==> n == p.nextIoTime
  {
    if p.nextIoTime == 0 then NextIoAfterWait(p, t) else p.nextIoTime
  }

  /** Under the intended rule the first request fires in the tick that ends io_freq
      milliseconds after admission. */
  lemma IntendedFirstIo(p: PCB, t: nat)
    requires p.nextIoTime == 0 && p.ioFreq > 0
    ensures IoRequested(p.(nextIoTime := IntendedNextIo(p, t)), t + p.ioFreq - 1)
  {
  }

  /** The two rules agree on every process admitted at time 0, and only there. */
  lemma AgreeAtTimeZero(p: PCB, t: nat)
    requires p.nextIoTime == 0 && p.ioFreq > 0
    ensures InitialNextIo(p) == IntendedNextIo(p, t) <==> t == 0
  {
  }
}
