# Tick-driven process scheduling simulator

This project is a Dafny model of `run_simulation`, the simulator of a single CPU, in its two variants:

- **EP**: non-preemptive priority, in `interrupts_EP_101256959_101310113.cpp`.
- **RR**: round robin with a 100 ms quantum, in `interrupts_RR_101256959_101310113.cpp`.

Each pass of the loop is one simulated millisecond and runs five steps in a fixed order:

1. **Arrivals.** A ledger entry is made for each descriptor arriving now. Memory admission is attempted, and the process becomes READY and queued, or stays NEW.
2. **I/O completions.** Records due now are erased from the I/O list while it is walked, and their processes go WAITING -> READY at the queue tail.
3. **Dispatch.** This happens only when the CPU is idle.
   - EP: an entry no other entry precedes by (priority, arrival time).
   - RR: the queue head, with fresh quantum counters.
4. **One millisecond of CPU.** The running process checks, in order:
   - an I/O request;
   - termination;
   - quantum expiry (RR only).
5. **Exit test**, then the clock advances.

Modules:

- `Process` (process.dfy): the PCB, the five states and the ledger lookup `find_job_idx`.
- `Memory` (memory.dfy): the six-partition table, given by contract, and the used/usable/total report.
- `Engine` (engine.dfy):
  - the loop state `Sim`;
  - each shared phase as a function from state to state;
  - the in-place I/O walk's invariant;
  - the exit test.
- `PriorityPolicy` (priority.dfy) and `RoundRobinPolicy` (roundrobin.dfy): each policy's dispatch, its CPU tick, one whole pass, and the run to a clock limit.
- `Simulator` (simulator.dfy): the class `Simulator`, which holds the mutable state.
  - Its fields: `job_list`, `ready_queue`, `io_list`, `running`, `current_time`, the partition table, the trace and `running_quantum_used`.
  - It has one method per phase. Each updates the fields in place and is proved to compute its specification function (or, for the EP dispatch, relation).
  - It has one tick method per policy.
  - `RunPriority` and `RunRoundRobin` are the loops.
- `Consistency` (consistency.dfy): the loop invariant and the proof that every phase, every pass and every run keeps it. The invariant says:
  - ledger ids are distinct;
  - the running copy is RUNNING and agrees with its ledger entry in pid, state (RUNNING) and remaining time, and that entry is the only RUNNING one;
  - every queued copy stands for a READY entry;
  - every I/O record stands for a WAITING entry;
  - each entry comes from an earlier arrival, and each descriptor that has arrived has an entry;
  - no entry gains remaining time;
  - under RR, the running process has used less than a full quantum.
- `Occupancy` (occupancy.dfy): memory occupancy along the loop. A ledger entry holds a partition exactly when it is live (admitted and not yet TERMINATED), and every occupied partition belongs to a ledger entry. Every phase, pass and run keeps this, so a loop that exits has freed every partition.
- `Findings` (findings.dfy): two behaviours of the code that depart from the process lifecycle. Each is shown on the model as written, next to the evidently intended rule (see "## Findings").

The run lemmas (`Consistency.PriorityRunKeeps`, `Consistency.RoundRobinRunKeeps` and the two run lemmas of `Occupancy`) assume that the input descriptors carry distinct ids (`DistinctPids(procs)`). The code never checks this: with a repeated id, `find_job_idx` finds only the first ledger entry. The occupancy lemmas also assume that no descriptor uses the id -1 that marks a free partition, and that the table starts all free. The code checks neither.

## Model

| member | source | states |
|---|---|---|
| Process.IndexOf | interrupts_EP_101256959_101310113.cpp:34-39 | the first position of an id in a sequence, -1 exactly when absent |
| Process.JobIndex | interrupts_EP_101256959_101310113.cpp:34-39 | the first ledger position carrying a pid, -1 exactly when no entry carries it |
| Process.JobIndexOfDistinct | interrupts_EP_101256959_101310113.cpp:34-39 | in a ledger without repeated ids, the lookup of entry i's pid finds i |
| Process.FindJobIdx | interrupts_EP_101256959_101310113.cpp:34-39 | the linear search returns exactly JobIndex (RR:34-39 is the same code) |
| Memory.FirstFit | interrupts_EP_101256959_101310113.cpp:66 | the first partition at or after `from` that is free and large enough (none before it fits), or -1 exactly when none is |
| Memory.Assign | interrupts_EP_101256959_101310113.cpp:66 | admission succeeds iff some free partition fits; then exactly that partition gets the pid and the PCB records its number, otherwise nothing changes |
| Memory.Release | interrupts_EP_101256959_101310113.cpp:153 | the partitions the pid occupied become free with number and size kept; all others are untouched |
| Memory.UsedPlusFreeIsTotal | interrupts_EP_101256959_101310113.cpp:44-48 | each partition counts once, as used or as usable: used + usable == total |
| Memory.OccupyMovesCapacity | interrupts_EP_101256959_101310113.cpp:46-48 | occupying a free partition moves exactly its size from usable to used and leaves the total unchanged |
| Memory.ReportOf | interrupts_EP_101256959_101310113.cpp:44-52 | the report lists the table and its used + usable equals its total |
| Memory.MemorySnapshot | interrupts_EP_101256959_101310113.cpp:42-54 | the six-partition loop computes ReportOf of the table, so used + usable == total |
| Engine.Arrive | interrupts_EP_101256959_101310113.cpp:60-84 | one arrival appends exactly one ledger entry, a copy of the descriptor. If memory had room, the entry is READY, holds the number of a free partition that fits (now occupied by the pid), takes its next I/O time by InitialNextIo, and is queued at the tail; otherwise it is NEW and the table is unchanged. The trace gets NEW -> NEW, then NEW -> READY plus a memory report when reports are on, or the no-memory notice. CPU, I/O list and clock are untouched |
| Engine.ArrivalsFrame | interrupts_EP_101256959_101310113.cpp:59-85 | the arrivals phase leaves the clock, the I/O list, the CPU and the quantum counter alone |
| Engine.ArrivalsLedger | interrupts_EP_101256959_101310113.cpp:59-85 | the phase keeps the old ledger as a prefix and appends one entry per descriptor arriving now, in input order |
| Engine.ArrivalsStates | interrupts_EP_101256959_101310113.cpp:72-83 | every entry the phase adds is NEW or READY |
| Engine.ArrivalsQueue | interrupts_EP_101256959_101310113.cpp:72-83 | the phase queues exactly the new READY entries, in ledger order, behind the old queue |
| Engine.InitialNextIo | interrupts_EP_101256959_101310113.cpp:76 | a next I/O time already set is kept; a 0 becomes io_freq itself (an absolute time, see "## Findings"), or NO_IO exactly when io_freq is 0 |
| Engine.ArrivalsFrom | interrupts_EP_101256959_101310113.cpp:59-85 | the descriptor loop adds exactly one ledger entry per descriptor arriving now and leaves the clock alone |
| Engine.Due | interrupts_EP_101256959_101310113.cpp:88-100 | the records due now, all due, drawn from the list |
| Engine.NotDue | interrupts_EP_101256959_101310113.cpp:88-100 | the records not due, none due, drawn from the list |
| Engine.IoSplit | interrupts_EP_101256959_101310113.cpp:88-100 | every record is either erased (due) or kept, never both and never lost (as multisets) |
| Engine.NextIoAfterWait | interrupts_EP_101256959_101310113.cpp:95 | NO_IO exactly when io_freq is 0, otherwise now + io_freq, which is strictly in the future |
| Engine.Wake | interrupts_EP_101256959_101310113.cpp:89-97 | the ledger entry of a due record goes READY with next I/O time now + io_freq (or NO_IO) and is queued at the tail; an unknown pid changes nothing |
| Engine.WakeAll | interrupts_EP_101256959_101310113.cpp:88-100 | waking in list order keeps ledger ids and only appends to the ready queue |
| Engine.WakeAllWakes | interrupts_EP_101256959_101310113.cpp:88-100 | when the records name distinct ledger entries, each named entry becomes READY with next I/O time now + io_freq (or NO_IO), its copy is queued behind the old queue in record order, and every entry no record names is unchanged |
| Engine.IoWalkStart | interrupts_EP_101256959_101310113.cpp:88 | the in-place walk starts with nothing passed |
| Engine.IoWalkStep | interrupts_EP_101256959_101310113.cpp:89-99 | erasing a due record at the cursor (cursor stays) or stepping over a kept one (cursor advances) keeps the walk invariant |
| Engine.IoWalkDone | interrupts_EP_101256959_101310113.cpp:88-100 | at the end of the list the in-place walk has woken exactly the due records in order and kept the rest in order |
| Engine.CompleteIo | interrupts_EP_101256959_101310113.cpp:88-100 | after the phase the I/O list holds exactly the records not due, in order; ids, CPU and clock unchanged; the old queue is a prefix of the new one |
| Engine.CompleteIoWakes | interrupts_EP_101256959_101310113.cpp:88-100 | the phase wakes every due record's process: each due entry becomes READY with its next I/O time re-armed and is queued at the tail in list order, no other entry changes, and the list keeps exactly the records not due (RR:68-81 is the same code) |
| Engine.Consume | interrupts_EP_101256959_101310113.cpp:132 | one ms of CPU: remaining time drops by exactly one, stays 0 at 0, and nothing else changes |
| Engine.IoRequestTick | interrupts_EP_101256959_101310113.cpp:138 | the I/O test fires in exactly one tick, the one that ends at the next I/O time; NO_IO and 0 never fire |
| Engine.SyncRemaining | interrupts_EP_101256959_101310113.cpp:134-135 | entry j takes the running copy's remaining time and keeps every other field; every other entry is unchanged; with j == -1 the ledger is unchanged |
| Engine.BeginIo | interrupts_EP_101256959_101310113.cpp:138-147 | RUNNING -> WAITING: entry WAITING with NO_IO, exactly one record (pid, now + 1 + io_duration) appended, CPU idle, queue untouched; the trace gets exactly the RUNNING -> WAITING transition stamped now + 1 |
| Engine.Finish | interrupts_EP_101256959_101310113.cpp:148-157 | RUNNING -> TERMINATED: entry TERMINATED, its partition released, I/O list and queue untouched, CPU idle; the trace gets the RUNNING -> TERMINATED transition stamped now + 1, followed by the report of the released table when reports are on |
| Engine.AdvanceClock | interrupts_EP_101256959_101310113.cpp:161-166 | the exit test keeps the state when the loop exits, otherwise only the clock moves, by one |
| Engine.AllProcessTerminated | interrupts_EP_101256959_101310113.cpp:164 | true iff every ledger entry is TERMINATED |
| Engine.ShouldStop | interrupts_EP_101256959_101310113.cpp:162-164 | the loop exits iff no descriptor arrives after now and every ledger entry is TERMINATED |
| PriorityPolicy.PrecedesIsStrictOrder | interrupts_EP_101256959_101310113.cpp:106-109 | the comparator is irreflexive, asymmetric and transitive, and two entries neither of which precedes the other have equal priority and arrival time |
| PriorityPolicy.MinimalExists | interrupts_EP_101256959_101310113.cpp:106-112 | a non-empty ready queue has an entry no other entry precedes by (priority, arrival time), which the sort puts in front |
| PriorityPolicy.DispatchAt | interrupts_EP_101256959_101310113.cpp:111-125 | the chosen entry leaves the queue (the rest is kept as a multiset), runs as RUNNING, takes the start time only if it had none, and its ledger entry records RUNNING and that start time |
| PriorityPolicy.PriorityDispatchExists | interrupts_EP_101256959_101310113.cpp:103-127 | some dispatch is always allowed: the state is kept with a busy CPU or an empty queue, otherwise a minimal entry runs |
| PriorityPolicy.PriorityDispatchMinimal | interrupts_EP_101256959_101310113.cpp:103-127 | every allowed dispatch with an idle CPU runs a queued process that no queued process precedes and takes one copy off the queue |
| PriorityPolicy.ExecPriority | interrupts_EP_101256959_101310113.cpp:130-158 | no preemption: the queue never changes and the CPU goes idle iff an I/O request or termination happens, the I/O request winning; otherwise the process keeps running with one ms less; the trace gets RUNNING -> WAITING, or RUNNING -> TERMINATED followed by the memory report, or nothing; the ledger gets the new remaining time; every other ledger entry is unchanged, and when the process keeps the CPU the I/O list, the partitions and its entry's other fields are unchanged |
| PriorityPolicy.PriorityPhases | interrupts_EP_101256959_101310113.cpp:58-158 | the four phases of a pass leave the clock alone |
| PriorityPolicy.PriorityRunBounds | interrupts_EP_101256959_101310113.cpp:56-167 | whatever the dispatch choices, an EP run ends at the limit with the clock there, or finishes earlier in a state meeting the exit condition |
| RoundRobinPolicy.DispatchHead | interrupts_RR_101256959_101310113.cpp:84-98 | only with an idle CPU and a non-empty queue: the head leaves, runs with time_in_current_quantum 0, start time set when the queued copy has none (under RR at every dispatch, because the ledger entry, from which preempted and woken copies are taken, never receives it), quantum usage reset to 0; the ledger records RUNNING only |
| RoundRobinPolicy.Preempt | interrupts_RR_101256959_101310113.cpp:133-142 | quantum expiry: entry READY with its counter reset, appended to the queue tail, CPU idle |
| RoundRobinPolicy.LeavesFor | interrupts_RR_101256959_101310113.cpp:113-143 | the state a running process leaves in: WAITING iff the I/O test fires; TERMINATED iff not and no time is left; READY iff neither and the quantum is used up; never NEW |
| RoundRobinPolicy.Account | interrupts_RR_101256959_101310113.cpp:102-104 | one ms of CPU under RR: remaining time drops by one (stays 0 at 0), the quantum counter rises by one, nothing else changes |
| RoundRobinPolicy.ExecRoundRobin | interrupts_RR_101256959_101310113.cpp:101-144 | quantum counter +1, remaining time -1 (floored), both copied to the ledger; exactly the first of I/O, termination, expiry that holds fires, one transition logged; the ledger's quantum counter equals the running copy's unless expiry resets it; every other ledger entry is unchanged, and when the process keeps the CPU (or goes to I/O) the partitions are unchanged, with the I/O list also unchanged when it keeps the CPU; a process that keeps the CPU stays below the quantum |
| RoundRobinPolicy.RoundRobinPhases | interrupts_RR_101256959_101310113.cpp:44-144 | the four phases of a pass leave the clock alone |
| RoundRobinPolicy.RunRoundRobinFrom | interrupts_RR_101256959_101310113.cpp:43-152 | an RR run ends at the limit with the clock there, or finishes earlier in a state meeting the exit condition |
| Simulator.Simulator.constructor | interrupts_EP_101256959_101310113.cpp:23-29 | empty ledger, queue and I/O list, idle CPU, clock 0 |
| Simulator.Simulator.AssignMemory | interrupts_EP_101256959_101310113.cpp:66 | admission updates only the partition table, as Assign says |
| Simulator.Simulator.FreeMemory | interrupts_EP_101256959_101310113.cpp:153 | release updates the table by Release and marks the entry unassigned |
| Simulator.Simulator.MarkAdmitted | interrupts_EP_101256959_101310113.cpp:74-76 | the entry becomes READY and its next I/O time is set only when it was 0 |
| Simulator.Simulator.ArriveOne | interrupts_EP_101256959_101310113.cpp:60-84 | the in-place steps of one arrival compute Arrive |
| Simulator.Simulator.Arrivals | interrupts_EP_101256959_101310113.cpp:59-85 | the descriptor loop computes the arrivals phase |
| Simulator.Simulator.WakeOne | interrupts_EP_101256959_101310113.cpp:90-97 | the in-place wake-up computes Wake |
| Simulator.Simulator.RetireIo | interrupts_EP_101256959_101310113.cpp:89-98 | wakes the record's process and erases the record in place |
| Simulator.Simulator.VisitDue | interrupts_EP_101256959_101310113.cpp:89-98 | erasing a due record keeps the walk invariant with the cursor unmoved |
| Simulator.Simulator.VisitIo | interrupts_EP_101256959_101310113.cpp:88-100 | one iteration of the erase-while-iterating loop keeps the walk invariant |
| Simulator.Simulator.CompleteIo | interrupts_EP_101256959_101310113.cpp:88-100 | the walk computes the I/O-completion phase (RR:68-81 is the same code) |
| Simulator.Simulator.DispatchPriority | interrupts_EP_101256959_101310113.cpp:103-127 | instead of sorting, picks with `:|` some queued entry no other queued entry precedes by (priority, arrival time), which is what the sort puts in front; the result is one of the dispatches PriorityDispatch allows |
| Simulator.Simulator.DispatchRoundRobin | interrupts_RR_101256959_101310113.cpp:84-98 | computes DispatchHead |
| Simulator.Simulator.StartIo | interrupts_EP_101256959_101310113.cpp:138-147 | computes BeginIo (RR:114-123 is the same branch) |
| Simulator.Simulator.Terminate | interrupts_EP_101256959_101310113.cpp:148-157 | computes Finish, with the memory report under EP only |
| Simulator.Simulator.PreemptToTail | interrupts_RR_101256959_101310113.cpp:133-142 | computes Preempt |
| Simulator.Simulator.ConsumeTick | interrupts_EP_101256959_101310113.cpp:130-135 | the running copy loses one ms (floored at 0) and the ledger gets it |
| Simulator.Simulator.ExecutePriority | interrupts_EP_101256959_101310113.cpp:129-159 | computes ExecPriority |
| Simulator.Simulator.AccountTick | interrupts_RR_101256959_101310113.cpp:101-111 | remaining time -1 (floored), quantum counters +1, both copied to the ledger |
| Simulator.Simulator.ExecuteRoundRobin | interrupts_RR_101256959_101310113.cpp:100-144 | computes ExecRoundRobin |
| Simulator.Simulator.CheckExit | interrupts_EP_101256959_101310113.cpp:161-166 | stops exactly on the exit condition, otherwise the clock advances by one |
| Simulator.Simulator.TickPriority | interrupts_EP_101256959_101310113.cpp:56-167 | one pass is some PriorityPhases pass followed by the exit test |
| Simulator.Simulator.TickRoundRobin | interrupts_RR_101256959_101310113.cpp:43-152 | one pass computes RoundRobinPhases followed by the exit test |
| Simulator.RunPriority | interrupts_EP_101256959_101310113.cpp:21-171 | the loop's outcome is one PriorityRunFrom allows from the initial state; a finished run meets the exit condition |
| Simulator.RunRoundRobin | interrupts_RR_101256959_101310113.cpp:23-156 | the loop's outcome is RunRoundRobinFrom of the initial state; a finished run meets the exit condition |
| Consistency.AtMostOneRunning | interrupts_EP_101256959_101310113.cpp:103-118 | under the invariant at most one ledger entry is RUNNING (single-CPU occupancy) |
| Consistency.InitialTickStart | interrupts_EP_101256959_101310113.cpp:23-30 | the initial state meets the loop invariant and the quantum invariant |
| Consistency.LedgerProgressTrans | interrupts_EP_101256959_101310113.cpp:132-135 | "no entry moves and none gains remaining time" composes across phases |
| Consistency.EntryUpdate | interrupts_EP_101256959_101310113.cpp:121-124 | rewriting one entry in place leaves every other pid's entry alone |
| Consistency.EntryAppend | interrupts_EP_101256959_101310113.cpp:69-70 | appending an entry for a fresh pid leaves every other pid's entry alone and finds the new one |
| Consistency.QueuedAreKnown | interrupts_EP_101256959_101310113.cpp:91-92 | queued copies and I/O records name ledger entries, so the lookup never returns -1 for them |
| Consistency.AppendKeeps | interrupts_EP_101256959_101310113.cpp:69-83 | appending a NEW or READY entry for a fresh pid keeps the invariant |
| Consistency.ArriveKeeps | interrupts_EP_101256959_101310113.cpp:60-84 | one arrival with a fresh pid keeps the invariant and only appends to the ledger |
| Consistency.ArrivalsFromKeeps | interrupts_EP_101256959_101310113.cpp:59-85 | the arrivals loop keeps the invariant and every new entry comes from a descriptor arriving now |
| Consistency.ArrivalsProvenance | interrupts_EP_101256959_101310113.cpp:59-85 | each step of the descriptor loop adds only entries for descriptors arriving now |
| Consistency.ArrivalsKeep | interrupts_EP_101256959_101310113.cpp:59-85 | at the top of a pass no arriving pid is in the ledger yet, so the phase keeps the invariant |
| Consistency.ArrivingHas | interrupts_EP_101256959_101310113.cpp:60-62 | every descriptor whose arrival time is now is among those the phase handles |
| Consistency.ArrivalsRecord | interrupts_EP_101256959_101310113.cpp:59-85 | after the arrivals phase every descriptor arrived up to now has a ledger entry |
| Consistency.RecordedKept | interrupts_EP_101256959_101310113.cpp:88-158 | phases that keep ledger ids in place keep every arrived descriptor recorded |
| Consistency.PrefixKeepsWork | interrupts_EP_101256959_101310113.cpp:69-70 | appending to the ledger leaves every old entry's remaining time alone |
| Consistency.ArrivedBeforeKept | interrupts_EP_101256959_101310113.cpp:88-158 | phases that keep ledger ids in place keep their provenance |
| Consistency.WakeKeeps | interrupts_EP_101256959_101310113.cpp:89-98 | waking the process of a due record keeps the invariant for the list without that record |
| Consistency.IoVisitKeeps | interrupts_EP_101256959_101310113.cpp:89-99 | one step of the I/O walk keeps the invariant |
| Consistency.CompleteIoKeeps | interrupts_EP_101256959_101310113.cpp:88-100 | the I/O-completion phase keeps the invariant |
| Consistency.DispatchQueueKeeps | interrupts_EP_101256959_101310113.cpp:112-113 | removing the dispatched copy leaves the other copies standing for READY entries |
| Consistency.DispatchKeeps | interrupts_EP_101256959_101310113.cpp:112-125 | dispatch with an idle CPU makes the chosen entry the one RUNNING entry |
| Consistency.PriorityDispatchKeeps | interrupts_EP_101256959_101310113.cpp:103-127 | the EP dispatch keeps the invariant |
| Consistency.RoundRobinDispatchKeeps | interrupts_RR_101256959_101310113.cpp:84-98 | the RR dispatch keeps the invariant and the quantum invariant |
| Consistency.StayKeeps | interrupts_EP_101256959_101310113.cpp:130-135 | a process that keeps the CPU stays the one RUNNING entry with the synced remaining time |
| Consistency.UpdateQueueKeeps | interrupts_RR_101256959_101310113.cpp:136-139 | an entry update that queues the entry's copy at the tail keeps the queue coherent |
| Consistency.UpdateIoKeeps | interrupts_EP_101256959_101310113.cpp:142-146 | an entry update that appends one record for a WAITING entry keeps the I/O list coherent |
| Consistency.RetireKeeps | interrupts_EP_101256959_101310113.cpp:138-157 | leaving the CPU by I/O, termination or expiry keeps the invariant, with no entry RUNNING |
| Consistency.PriorityDispatchWork | interrupts_EP_101256959_101310113.cpp:112-125 | the EP dispatch changes no entry's remaining time |
| Consistency.DispatchHeadWork | interrupts_RR_101256959_101310113.cpp:84-98 | the RR dispatch changes no entry's remaining time |
| Consistency.ExecPriorityWork | interrupts_EP_101256959_101310113.cpp:130-135 | the EP CPU tick lowers at most one entry's remaining time, by exactly one |
| Consistency.ExecRoundRobinWork | interrupts_RR_101256959_101310113.cpp:101-111 | the RR CPU tick lowers at most one entry's remaining time, by exactly one |
| Consistency.RoundRobinIoKeeps | interrupts_RR_101256959_101310113.cpp:114-123 | leaving the CPU for I/O under RR keeps the invariant |
| Consistency.RoundRobinFinishKeeps | interrupts_RR_101256959_101310113.cpp:124-132 | termination under RR keeps the invariant |
| Consistency.RoundRobinExpiryKeeps | interrupts_RR_101256959_101310113.cpp:133-142 | quantum expiry keeps the invariant |
| Consistency.ExecPriorityKeeps | interrupts_EP_101256959_101310113.cpp:129-159 | the EP CPU tick keeps the invariant and no entry gains remaining time |
| Consistency.ExecRoundRobinKeeps | interrupts_RR_101256959_101310113.cpp:100-144 | the RR CPU tick keeps the invariant and the quantum bound |
| Consistency.PriorityTickKeeps | interrupts_EP_101256959_101310113.cpp:58-159 | a whole EP pass keeps the invariant, leaves every arrived descriptor with an entry, and takes at most one ms from at most one entry's remaining time |
| Consistency.NextTickStart | interrupts_EP_101256959_101310113.cpp:161-166 | advancing the clock after a pass that does not exit starts the next pass under the invariant |
| Consistency.PriorityStepKeeps | interrupts_EP_101256959_101310113.cpp:56-167 | an EP pass leaves every descriptor arrived so far with an entry and hands a tick start to the next pass unless the loop exits |
| Consistency.ExitTerminatesAll | interrupts_EP_101256959_101310113.cpp:161-166 | when the loop exits, every input descriptor has a ledger entry and it is TERMINATED |
| Consistency.PriorityRunUnfold | interrupts_EP_101256959_101310113.cpp:56-167 | a run below the limit starts with one pass and then exits or continues |
| Consistency.PriorityRunKeeps | interrupts_EP_101256959_101310113.cpp:56-167 | every EP run outcome is coherent (single-CPU occupancy, queue, I/O list, ledger) and keeps one entry per arrived descriptor; a finished run met the exit condition and left every descriptor with a TERMINATED entry |
| Consistency.RoundRobinFront | interrupts_RR_101256959_101310113.cpp:44-98 | the RR arrivals, I/O completions and dispatch keep the invariant and the quantum bound, record every arrived descriptor, and change no remaining time |
| Consistency.RoundRobinTickKeeps | interrupts_RR_101256959_101310113.cpp:44-144 | a whole RR pass keeps the invariant and the quantum bound, leaves every arrived descriptor with an entry, and takes at most one ms from at most one entry's remaining time |
| Consistency.RoundRobinStepKeeps | interrupts_RR_101256959_101310113.cpp:43-152 | an RR pass leaves every descriptor arrived so far with an entry and hands a tick start to the next pass unless the loop exits |
| Consistency.RoundRobinRunKeeps | interrupts_RR_101256959_101310113.cpp:43-152 | every RR run outcome is coherent, keeps one entry per arrived descriptor, and the running process has used less than RR_QUANTUM ms; a finished run met the exit condition and left every descriptor with a TERMINATED entry |
| Occupancy.InitialOccupancy | interrupts_EP_101256959_101310113.cpp:23-30 | an empty ledger over an all-free table meets occupancy |
| Occupancy.LivenessKeeps | interrupts_EP_101256959_101310113.cpp:88-158 | state changes that keep every entry's place, id and liveness keep occupancy |
| Occupancy.UpdateLive | interrupts_EP_101256959_101310113.cpp:121-124 | rewriting a live entry into a live one under the same id keeps every entry's liveness |
| Occupancy.SameLivenessTrans | interrupts_EP_101256959_101310113.cpp:88-127 | keeping liveness composes across phases |
| Occupancy.OccupyHolds | interrupts_EP_101256959_101310113.cpp:66 | occupying a free partition for one id changes whether any other valid id holds memory in no way |
| Occupancy.ArriveOccupancy | interrupts_EP_101256959_101310113.cpp:60-84 | one arrival with a fresh, valid id keeps occupancy: the new entry is live exactly when it got a partition |
| Occupancy.ArrivalsFromOccupancy | interrupts_EP_101256959_101310113.cpp:59-85 | the descriptor loop keeps occupancy while the arriving ids are fresh, distinct and valid |
| Occupancy.ArrivalsOccupancy | interrupts_EP_101256959_101310113.cpp:59-85 | the arrivals phase at the top of a pass keeps occupancy |
| Occupancy.WakeLiveness | interrupts_EP_101256959_101310113.cpp:89-97 | waking a live entry keeps it live |
| Occupancy.WakeAllLiveness | interrupts_EP_101256959_101310113.cpp:88-100 | waking records whose entries are live changes no entry's liveness |
| Occupancy.CompleteIoOccupancy | interrupts_EP_101256959_101310113.cpp:88-100 | the I/O-completion phase keeps occupancy |
| Occupancy.PriorityDispatchOccupancy | interrupts_EP_101256959_101310113.cpp:103-127 | the EP dispatch keeps occupancy |
| Occupancy.DispatchHeadOccupancy | interrupts_RR_101256959_101310113.cpp:84-98 | the RR dispatch keeps occupancy |
| Occupancy.ReleaseOccupancy | interrupts_EP_101256959_101310113.cpp:151-154 | terminating an entry and releasing its pid's partitions keeps occupancy |
| Occupancy.RunningIsLive | interrupts_EP_101256959_101310113.cpp:130-135 | the running process has a ledger entry and it is live |
| Occupancy.ExecPriorityOccupancy | interrupts_EP_101256959_101310113.cpp:129-159 | the EP CPU tick keeps occupancy |
| Occupancy.ExecRoundRobinPid | interrupts_RR_101256959_101310113.cpp:107-142 | the RR CPU tick rewrites the running entry under its own id |
| Occupancy.ExecRoundRobinOccupancy | interrupts_RR_101256959_101310113.cpp:100-144 | the RR CPU tick keeps occupancy |
| Occupancy.PriorityTickOccupancy | interrupts_EP_101256959_101310113.cpp:58-159 | a whole EP pass keeps occupancy |
| Occupancy.RoundRobinTickOccupancy | interrupts_RR_101256959_101310113.cpp:44-144 | a whole RR pass keeps occupancy |
| Occupancy.ExitFreesMemory | interrupts_EP_101256959_101310113.cpp:161-164 | when every entry is TERMINATED, occupancy leaves no partition occupied |
| Occupancy.PriorityRunOccupancy | interrupts_EP_101256959_101310113.cpp:56-167 | every EP run outcome keeps occupancy, and a finished run leaves every partition free |
| Occupancy.RoundRobinRunOccupancy | interrupts_RR_101256959_101310113.cpp:43-152 | every RR run outcome keeps occupancy, and a finished run leaves every partition free |
| Findings.IoBeatsTermination | interrupts_EP_101256959_101310113.cpp:137-158 | as written: a process whose last ms coincides with an I/O request goes WAITING with no time left, under EP and under RR |
| Findings.RoundRobinIoLivelock | interrupts_RR_101256959_101310113.cpp:67-143 | as written: with io_freq 1 and no time left, the pass in which the I/O completes wakes, dispatches and sends the process back to I/O, not TERMINATED and in the same shape with a later completion time |
| Findings.LivelockWake | interrupts_RR_101256959_101310113.cpp:67-81 | the completion phase of that pass wakes the process with next I/O time now + 1 |
| Findings.LivelockDispatch | interrupts_RR_101256959_101310113.cpp:84-98 | the dispatch phase of that pass runs the woken process |
| Findings.LivelockExec | interrupts_RR_101256959_101310113.cpp:113-123 | the CPU tick of that pass sends the process back to I/O with nothing left, also when it had one last ms |
| Findings.NoArrivals | interrupts_RR_101256959_101310113.cpp:45-65 | with no descriptor arriving now the arrivals phase changes nothing |
| Findings.IdlePass | interrupts_RR_101256959_101310113.cpp:67-144 | before the record is due, a pass with an empty queue and an idle CPU changes nothing |
| Findings.LivelockedPass | interrupts_RR_101256959_101310113.cpp:43-152 | as written: every pass from the livelocked shape misses the exit condition and, after the clock advances, is back in that shape |
| Findings.DuePass | interrupts_RR_101256959_101310113.cpp:43-152 | the pass of LivelockedPass in which the record is due |
| Findings.RoundRobinNeverExits | interrupts_RR_101256959_101310113.cpp:43-152 | as written: every RR run from the livelocked shape ends OutOfTicks, whatever the clock limit |
| Findings.FirstPassLivelocks | interrupts_RR_101256959_101310113.cpp:43-152 | as written: one process with io_freq 1 and a 1 ms burst arriving at 0 into memory with room is in the livelocked shape after the first pass |
| Findings.RoundRobinNeverExitsFromStart | interrupts_RR_101256959_101310113.cpp:23-152 | as written: the RR run of that process from the initial state ends OutOfTicks for every clock limit, so the loop never exits |
| Findings.IntendedLeave | interrupts_RR_101256959_101310113.cpp:113-143 | intended precedence: TERMINATED exactly when no time is left; WAITING exactly when time is left and the I/O test fires |
| Findings.LeavesForDiffers | interrupts_RR_101256959_101310113.cpp:113-143 | the code's precedence and the intended one differ exactly when the I/O test fires with no time left |
| Findings.IntendedExecRoundRobin | interrupts_RR_101256959_101310113.cpp:100-144 | the corrected RR CPU tick: equal to the tick as written wherever the two precedences agree, and a process with nothing left always terminates |
| Findings.IntendedExecTerminates | interrupts_RR_101256959_101310113.cpp:100-144 | under the corrected tick a running process with nothing left terminates, leaving a one-entry ledger all TERMINATED |
| Findings.IntendedEndsLivelock | interrupts_RR_101256959_101310113.cpp:43-152 | under the corrected tick the due pass from the livelocked shape terminates the process and meets the exit condition |
| Findings.LateArrivalNeverIo | interrupts_EP_101256959_101310113.cpp:76 | as written: a process admitted at a time at or after its io_freq gets a past next I/O time that no later tick fires |
| Findings.IntendedNextIo | interrupts_EP_101256959_101310113.cpp:76 | intended rule: a 0 becomes now + io_freq (strictly in the future) or NO_IO, as after an I/O completion |
| Findings.IntendedFirstIo | interrupts_EP_101256959_101310113.cpp:76 | under the intended rule the first request fires in the tick ending io_freq ms after admission |
| Findings.AgreeAtTimeZero | interrupts_EP_101256959_101310113.cpp:76 | the code's rule and the intended one agree exactly for processes admitted at time 0 |

## Left out

- `main` in both files: argument checking, input-file reading, parsing and `write_output` are I/O.
- Trace text: the header, status lines, footer and the snapshot's string building become a sequence of `Event` records. An event is a transition, an admission failure, or a memory report with the used/total/usable arithmetic.
- The `FCFS` helper in both files is never called and is not part of this model.
- The header that defines `assign_memory`, `free_memory`, `idle_CPU`, `all_process_terminated`, `NO_IO` and the partition table is not part of this model. These are given by contract:
  - Memory.Assign: states only "some free partition large enough" and does not claim a specific allocation order. Its body happens to pick the first fit.
  - Memory.Release: frees every partition the pid occupies.
  - `idle_CPU`: the running slot becomes `None`, so "running.state != RUNNING" is `running.None?`.
  - `NO_IO`: the constant -1.
- PriorityPolicy.PriorityDispatch: `std::sort` is not stable. The model therefore dispatches "some entry no other entry precedes" and does not model the re-ordering of the rest of the queue. The model keeps the remaining entries in their order, while the source leaves them sorted. The next EP dispatch selects a minimum again, so the order does not matter to EP.
- Simulator.RunPriority, Simulator.RunRoundRobin: the `while (true)` loop may never exit, because a process that fails admission stays NEW forever (admission is attempted once, at arrival, as in the code). Under RR it also never exits for a process that goes WAITING with no time left and io_freq 1 (see "## Findings"). The runs are bounded by a clock limit and return `OutOfTicks` when they reach it. Termination of the unbounded loop is not claimed.
- 32-bit wrap-around of `unsigned int` times and counters is not modelled. Times are unbounded naturals.
- The partition table is a field holding a value, not a global array.
- Round-robin fairness (every READY process is dispatched within a bounded number of quanta) is not proved. Only the per-tick quantum bound is proved: a running process has used less than RR_QUANTUM ms.
- `ExitCondition`, `Precedes`, `PriorityDispatch` and `PriorityRunFrom` are predicates. Their rows are the lemmas and methods that state what they mean: `ShouldStop`, `AdvanceClock`, `PrecedesIsStrictOrder`, `PriorityDispatchExists`, `PriorityDispatchMinimal` and `PriorityRunBounds`.
- Three behaviours of the code are kept as written:
  - a NEW process is never re-admitted;
  - RR logs no memory reports, neither after admission nor after termination;
  - RR dispatch does not copy the start time into the ledger entry.
- The two behaviours under "## Findings" are also kept as written in the tick model, because the trace is the program's output. The intended rules are stated and proved beside it in `Findings`.

## Findings

| source | as written | input that shows it | evidently intended | confidence | as-written member | corrected member |
|---|---|---|---|---|---|---|
| interrupts_RR_101256959_101310113.cpp:113-132 | the I/O test runs before the termination test (the EP file has the same order), so a process whose last ms falls on its I/O tick goes WAITING with 0 ms left | RR, one process with io_freq 1 and burst 1 arriving at 0, with room in memory: its first tick requests I/O with 0 ms left; each later completion wakes it, it is dispatched in the same pass and requests I/O again, so it never terminates and the run reaches every clock limit without exiting | a process with no time left terminates; the I/O request only applies to a process that still has time left | not executed; high | Findings.RoundRobinNeverExitsFromStart | Findings.IntendedExecRoundRobin |
| interrupts_EP_101256959_101310113.cpp:76 | a next I/O time of 0 becomes io_freq itself (the RR file does the same), an absolute time | EP, io_freq 5 and arrival 10: the next I/O time is 5, already past, and the exact-equality test never fires, so the process never does I/O | the first I/O falls io_freq ms after admission, as later ones fall io_freq ms after a completion | not executed; medium (the header's `add_process`, which is not part of this model, may already set a non-zero next I/O time) | Findings.LateArrivalNeverIo | Findings.IntendedNextIo |
