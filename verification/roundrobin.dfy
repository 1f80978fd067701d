/** The round-robin policy with a fixed 100 ms quantum: FIFO dispatch, per-tick quantum
    accounting, and preemption to the tail of the ready queue. */
module RoundRobinPolicy {
  import opened Process
  import opened Memory
  import opened Engine

  const RR_QUANTUM: nat := 100

  /** Dispatch of the queue head when the CPU is idle: the oldest ready entry becomes the
      running copy, RUNNING, with its quantum counter and the quantum usage reset; the
      ledger entry records RUNNING and nothing else (its start time is not copied). */
  function DispatchHead(s: Sim): (r: Sim)
    ensures !(s.running.None? && |s.ready| > 0) ==> r == s
    ensures s.running.None? && |s.ready| > 0 ==>
      var sel := s.ready[0];
      var j := JobIndex(s.jobs, sel.pid);
      && r.ready == s.ready[1..]
      && r.running == Some(sel.(state := Running, timeInQuantum := 0, startTime := StartTimeAt(sel, s.time)))
      && r.quantumUsed == 0
      && (j != -1 ==> r.jobs == s.jobs[j := s.jobs[j].(state := Running)])
      && (j == -1 ==> r.jobs == s.jobs)
      && r.trace == s.trace + [Transition(s.time, sel.pid, Ready, Running)]
    ensures r.io == s.io && r.time == s.time && r.parts == s.parts
  {
    if s.running.None? && |s.ready| > 0 then
      var sel := s.ready[0].(state := Running, timeInQuantum := 0, startTime := StartTimeAt(s.ready[0], s.time));
      var j := JobIndex(s.jobs, sel.pid);
      s.(ready := s.ready[1..], running := Some(sel), quantumUsed := 0,
         jobs := if j == -1 then s.jobs else s.jobs[j := s.jobs[j].(state := Running)],
         trace := s.trace + [Transition(s.time, sel.pid, Ready, Running)])
    else s
  }

  /** Quantum expiry: the ledger entry goes RUNNING -> READY with its counter reset and is
      queued at the tail, and the CPU goes idle. */
  function Preempt(s: Sim, p: PCB, j: int): (r: Sim)
    requires -1 <= j < |s.jobs|
    ensures r.running.None? && r.io == s.io && r.time == s.time && r.parts == s.parts
    ensures |r.jobs| == |s.jobs| && Pids(r.jobs) == Pids(s.jobs)
    ensures j != -1 ==>
      && r.jobs == s.jobs[j := s.jobs[j].(state := Ready, timeInQuantum := 0)]
      && r.ready == s.ready + [r.jobs[j]]
    ensures j == -1 ==> r.jobs == s.jobs && r.ready == s.ready
  {
    var jobs := if j == -1 then s.jobs else s.jobs[j := s.jobs[j].(state := Ready, timeInQuantum := 0)];
    var ready := if j == -1 then s.ready else s.ready + [jobs[j]];
    s.(jobs := jobs, ready := ready, running := None,
       trace := s.trace + [Transition(s.time + 1, p.pid, Running, Ready)])
  }

  /** The state a running process is left in after its tick, by the fixed precedence:
      an I/O request first, then termination, then quantum expiry, else it keeps running. */
  function LeavesFor(p: PCB, t: nat): (st: State)
    ensures st == Waiting <==> IoRequested(p, t)
    ensures st == Terminated <==> !IoRequested(p, t) && p.remainingTime == 0
    ensures st == Ready <==> !IoRequested(p, t) && p.remainingTime > 0 && p.timeInQuantum >= RR_QUANTUM
    ensures st != New
  {
    if IoRequested(p, t) then Waiting
    else if p.remainingTime == 0 then Terminated
    else if p.timeInQuantum >= RR_QUANTUM then Ready
    else Running
  }

  /** The running copy after one executed tick: one millisecond less, one more in the quantum. */
  function Account(p: PCB): (q: PCB)
    ensures q == p.(remainingTime := q.remainingTime, timeInQuantum := q.timeInQuantum)
    ensures q.timeInQuantum == p.timeInQuantum + 1
    ensures p.remainingTime > 0 ==> q.remainingTime + 1 == p.remainingTime
    ensures p.remainingTime == 0 ==> q.remainingTime == 0
  {
    Consume(p).(timeInQuantum := p.timeInQuantum + 1)
  }

  /** One CPU tick under round robin. The counters move by exactly one and are copied to
      the ledger; at most one transition is logged, chosen by the precedence of LeavesFor;
      a process that keeps the CPU has used less than a full quantum. */
  function ExecRoundRobin(s: Sim): (r: Sim)
    ensures r.time == s.time && |r.jobs| == |s.jobs|
    ensures !Executes(s) ==> r == s
    ensures Executes(s) ==>
      var p := Account(s.running.value);
      var j := JobIndex(s.jobs, p.pid);
      && p.timeInQuantum == s.running.value.timeInQuantum + 1
      && (j != -1 ==> r.jobs[j].remainingTime == p.remainingTime)
      && (LeavesFor(p, s.time) == Running <==> r.running.Some?)
      && (r.running.Some? ==> r.running == Some(p) && r.quantumUsed == s.quantumUsed + 1
                              && p.timeInQuantum < RR_QUANTUM && r.ready == s.ready)
      && (r.running.None? ==> r.quantumUsed == 0)
      && r.trace == s.trace + (if LeavesFor(p, s.time) == Running then []
                               else [Transition(s.time + 1, p.pid, Running, LeavesFor(p, s.time))])
    ensures Executes(s) ==>
      var p := Account(s.running.value);
      var j := JobIndex(s.jobs, p.pid);
      j != -1 ==>
        && (LeavesFor(p, s.time) != Ready ==> r.jobs[j].timeInQuantum == p.timeInQuantum)
        && (LeavesFor(p, s.time) == Waiting ==>
              && r.jobs[j].state == Waiting && r.jobs[j].nextIoTime == NO_IO && r.ready == s.ready
              && r.io == s.io + [IoRecord(p.pid, s.time + 1 + s.jobs[j].ioDuration)] && r.parts == s.parts)
        && (LeavesFor(p, s.time) == Terminated ==>
              && r.jobs[j].state == Terminated && r.ready == s.ready
              && r.parts == Release(s.parts, p.pid) && r.io == s.io)
        && (LeavesFor(p, s.time) == Ready ==>
              && r.jobs[j].state == Ready && r.jobs[j].timeInQuantum == 0
              && r.ready == s.ready + [r.jobs[j]] && r.io == s.io && r.parts == s.parts)
    ensures Executes(s) ==>
      var p := Account(s.running.value);
      var j := JobIndex(s.jobs, p.pid);
      && (forall i :: 0 <= i < |s.jobs| && i != j ==> r.jobs[i] == s.jobs[i])
      && (r.running.Some? ==>
            && r.io == s.io && r.parts == s.parts
            && (j != -1 ==> r.jobs[j] == s.jobs[j].(remainingTime := p.remainingTime, timeInQuantum := p.timeInQuantum)))
  {
    if !Executes(s) then s
    else
      var p := Account(s.running.value);
      var j := JobIndex(s.jobs, p.pid);
      var jobs := if j == -1 then s.jobs
                  else s.jobs[j := s.jobs[j].(remainingTime := p.remainingTime, timeInQuantum := p.timeInQuantum)];
      var s1 := s.(jobs := jobs, quantumUsed := s.quantumUsed + 1);
      if IoRequested(p, s.time) then BeginIo(s1, p, j).(quantumUsed := 0)
      else if p.remainingTime == 0 then Finish(s1, p, j, false).(quantumUsed := 0)
      else if p.timeInQuantum >= RR_QUANTUM then Preempt(s1, p, j).(quantumUsed := 0)
      else s1.(running := Some(p))
  }

  /** The phases of one round-robin tick: arrivals (no memory reports), I/O completions,
      dispatch of the head, execution. */
  function RoundRobinPhases(procs: seq<PCB>, s: Sim): (r: Sim)
    ensures r.time == s.time
  {
    ArrivalsFrame(s, procs, false);
    ExecRoundRobin(DispatchHead(CompleteIo(ArrivalsFrom(s, procs, false))))
  }

  /** The round-robin tick loop from `s` while the clock is below `limit`: each pass that
      does not exit advances the clock by one. */
  function RunRoundRobinFrom(procs: seq<PCB>, s: Sim, limit: nat): (out: Outcome)
    ensures out.OutOfTicks? ==> out.final.time == (if s.time >= limit then s.time else limit)
    ensures out.Finished? ==> ExitCondition(procs, out.final) && s.time <= out.final.time < limit
    decreases limit - s.time
  {
    if s.time >= limit then OutOfTicks(s)
    else
      var m := RoundRobinPhases(procs, s);
      if ExitCondition(procs, m) then Finished(m)
      else RunRoundRobinFrom(procs, AdvanceClock(procs, m), limit)
  }
}
