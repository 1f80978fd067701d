/** The non-preemptive priority policy: dispatch of a most urgent ready process and a
    CPU tick that leaves RUNNING only by an I/O request or by termination. */
module PriorityPolicy {
  import opened Process
  import opened Memory
  import opened Engine

  /** The dispatch order: a lower priority number first, an earlier arrival among equal priorities. */
  predicate Precedes(a: PCB, b: PCB)
  {
    a.priority < b.priority || (a.priority == b.priority && a.arrivalTime < b.arrivalTime)
  }

  /** The comparator is a strict order, and two entries neither of which precedes the
      other have the same priority and arrival time (the sort may put either first). */
  lemma PrecedesIsStrictOrder(a: PCB, b: PCB, c: PCB)
    ensures !Precedes(a, a)
    ensures Precedes(a, b) ==> !Precedes(b, a)
    ensures Precedes(a, b) && Precedes(b, c) ==> Precedes(a, c)
    ensures !Precedes(a, b) && !Precedes(b, a) <==> a.priority == b.priority && a.arrivalTime == b.arrivalTime
  {
  }

  /** Entry `k` of `q` is one the sort can put in front: no entry precedes it. */
  predicate IsMinimalAt(q: seq<PCB>, k: int)
  {
    0 <= k < |q| && forall j :: 0 <= j < |q| ==> !Precedes(q[j], q[k])
  }

  /** A non-empty ready queue always has an entry that can be dispatched. */
  lemma {:induction false} MinimalExists(q: seq<PCB>)
    requires |q| > 0
    ensures exists k :: IsMinimalAt(q, k)
  {
    if |q| == 1 {
      assert IsMinimalAt(q, 0);
    } else {
      var init := q[..|q| - 1];
      MinimalExists(init);
      var k :| IsMinimalAt(init, k);
      var last := |q| - 1;
      if Precedes(q[last], q[k]) {
        forall j | 0 <= j < |q|
          ensures !Precedes(q[j], q[last])
        {
          if j < last {
            assert q[j] == init[j] && q[k] == init[k];
          }
        }
        assert IsMinimalAt(q, last);
      } else {
        forall j | 0 <= j < |q|
          ensures !Precedes(q[j], q[k])
        {
          if j < last {
            assert q[j] == init[j] && q[k] == init[k];
          }
        }
        assert IsMinimalAt(q, k);
      }
    }
  }

  /** Dispatch of ready entry `k`: it leaves the queue and becomes the running copy,
      RUNNING and with its start time set if it had none; its ledger entry records
      RUNNING and the same start time. */
  function DispatchAt(s: Sim, k: nat): (r: Sim)
    requires s.running.None? && k < |s.ready|
    ensures r.running == Some(s.ready[k].(state := Running, startTime := StartTimeAt(s.ready[k], s.time)))
    ensures r.ready == s.ready[..k] + s.ready[k + 1..]
    ensures multiset(r.ready) + multiset{s.ready[k]} == multiset(s.ready)
    ensures var j := JobIndex(s.jobs, s.ready[k].pid);
      j != -1 ==> r.jobs == s.jobs[j := s.jobs[j].(state := Running, startTime := r.running.value.startTime)]
    ensures JobIndex(s.jobs, s.ready[k].pid) == -1 ==> r.jobs == s.jobs
    ensures r.io == s.io && r.time == s.time && r.parts == s.parts && r.quantumUsed == s.quantumUsed
    ensures r.trace == s.trace + [Transition(s.time, s.ready[k].pid, Ready, Running)]
  {
    assert s.ready == s.ready[..k] + [s.ready[k]] + s.ready[k + 1..];
    var sel := s.ready[k].(state := Running, startTime := StartTimeAt(s.ready[k], s.time));
    var j := JobIndex(s.jobs, sel.pid);
    s.(ready := s.ready[..k] + s.ready[k + 1..], running := Some(sel),
       jobs := if j == -1 then s.jobs else s.jobs[j := s.jobs[j].(state := Running, startTime := sel.startTime)],
       trace := s.trace + [Transition(s.time, sel.pid, Ready, Running)])
  }

  /** The dispatch phase: only when the CPU is idle and the queue is not empty, and then
      of an entry no other ready entry precedes (which one among equals is left open). */
  ghost predicate PriorityDispatch(s: Sim, r: Sim)
  {
    if s.running.None? && |s.ready| > 0 then
      exists k: nat :: IsMinimalAt(s.ready, k) && r == DispatchAt(s, k)
    else r == s
  }

  /** Some dispatch is always allowed: with a busy CPU or an empty queue the state is
      kept, otherwise an entry no other entry precedes runs. */
  lemma PriorityDispatchExists(s: Sim)
    ensures exists r :: PriorityDispatch(s, r)
  {
    if s.running.None? && |s.ready| > 0 {
      MinimalExists(s.ready);
      var k :| IsMinimalAt(s.ready, k);
      assert PriorityDispatch(s, DispatchAt(s, k));
    } else {
      assert PriorityDispatch(s, s);
    }
  }

  /** Every allowed dispatch with an idle CPU runs a queued process that no queued
      process precedes, and takes exactly one copy off the queue. */
  lemma PriorityDispatchMinimal(s: Sim, r: Sim)
    requires PriorityDispatch(s, r) && s.running.None? && |s.ready| > 0
    ensures r.running.Some? && r.running.value.state == Running && |r.ready| + 1 == |s.ready|
    ensures forall j :: 0 <= j < |s.ready| ==> !Precedes(s.ready[j], r.running.value)
    ensures exists k :: 0 <= k < |s.ready| && r.running.value.pid == s.ready[k].pid
  {
    var k: nat :| IsMinimalAt(s.ready, k) && r == DispatchAt(s, k);
    assert r.running.value.pid == s.ready[k].pid;
  }

  /** One CPU tick without preemption. Nothing ever returns to the ready queue; the
      running process leaves RUNNING exactly when it requests I/O or has no time left,
      the I/O request winning when both hold; otherwise it keeps the CPU with one
      millisecond less. */
  function ExecPriority(s: Sim): (r: Sim)
    ensures r.ready == s.ready && r.time == s.time && |r.jobs| == |s.jobs|
    ensures !Executes(s) ==> r == s
    ensures Executes(s) ==>
      var p := Consume(s.running.value);
      && (r.running.None? <==> IoRequested(p, s.time) || p.remainingTime == 0)
      && (r.running.Some? ==> r.running == Some(p) && p.remainingTime + 1 == s.running.value.remainingTime)
    ensures Executes(s) ==>
      var p := Consume(s.running.value);
      var j := JobIndex(s.jobs, p.pid);
      j != -1 ==>
        && r.jobs[j].remainingTime == p.remainingTime
        && (IoRequested(p, s.time) ==>
              && r.jobs[j].state == Waiting && r.jobs[j].nextIoTime == NO_IO
              && r.io == s.io + [IoRecord(p.pid, s.time + 1 + s.jobs[j].ioDuration)]
              && r.parts == s.parts)
        && (!IoRequested(p, s.time) && p.remainingTime == 0 ==>
              && r.jobs[j].state == Terminated
              && r.parts == Release(s.parts, p.pid) && r.io == s.io)
    ensures Executes(s) ==>
      var p := Consume(s.running.value);
      var j := JobIndex(s.jobs, p.pid);
      && (forall i :: 0 <= i < |s.jobs| && i != j ==> r.jobs[i] == s.jobs[i])
      && (r.running.Some? ==>
            && r.io == s.io && r.parts == s.parts
            && (j != -1 ==> r.jobs[j] == s.jobs[j].(remainingTime := p.remainingTime)))
    ensures Executes(s) ==>
      var p := Consume(s.running.value);
      r.trace == s.trace + (if IoRequested(p, s.time) then [Transition(s.time + 1, p.pid, Running, Waiting)]
                            else if p.remainingTime == 0
                            then [Transition(s.time + 1, p.pid, Running, Terminated), MemoryStatus(ReportOf(r.parts))]
                            else [])
  {
    if !Executes(s) then s
    else
      var p := Consume(s.running.value);
      var j := JobIndex(s.jobs, p.pid);
      var s1 := s.(jobs := SyncRemaining(s.jobs, j, p));
      if IoRequested(p, s.time) then BeginIo(s1, p, j)
      else if p.remainingTime == 0 then Finish(s1, p, j, true)
      else s1.(running := Some(p))
  }

  /** The phases of one tick under this policy: arrivals (with memory reports), I/O
      completions, dispatch, execution. */
  ghost predicate PriorityPhases(procs: seq<PCB>, s: Sim, r: Sim)
    ensures PriorityPhases(procs, s, r) ==> r.time == s.time
  {
    ArrivalsFrame(s, procs, true);
    var m := CompleteIo(ArrivalsFrom(s, procs, true));
    exists d :: PriorityDispatch(m, d) && r == ExecPriority(d)
  }

  /** The priority tick loop from `s` while the clock is below `limit`: `out` is one of
      the outcomes the loop can reach, dispatch choices among equals being free. */
  ghost predicate PriorityRunFrom(procs: seq<PCB>, s: Sim, limit: nat, out: Outcome)
    decreases limit - s.time
  {
    if s.time >= limit then out == OutOfTicks(s)
    else
      exists m :: PriorityPhases(procs, s, m) &&
        (if ExitCondition(procs, m) then out == Finished(m)
         else PriorityRunFrom(procs, AdvanceClock(procs, m), limit, out))
  }

  /** Whatever the dispatch choices, a run ends at the limit with the clock there, or
      finishes earlier in a state that meets the exit condition. */
  lemma {:induction false} PriorityRunBounds(procs: seq<PCB>, s: Sim, limit: nat, out: Outcome)
    requires PriorityRunFrom(procs, s, limit, out)
    ensures out.OutOfTicks? ==> out.final.time == (if s.time >= limit then s.time else limit)
    ensures out.Finished? ==> ExitCondition(procs, out.final) && s.time <= out.final.time < limit
    decreases limit - s.time
  {
    if s.time < limit {
      var m :| PriorityPhases(procs, s, m) &&
        (if ExitCondition(procs, m) then out == Finished(m)
         else PriorityRunFrom(procs, AdvanceClock(procs, m), limit, out));
      if !ExitCondition(procs, m) {
        PriorityRunBounds(procs, AdvanceClock(procs, m), limit, out);
      }
    }
  }
}
