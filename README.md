# CPU scheduling simulator, modelled in Dafny

The program simulates five CPU scheduling policies over a list of processes: First
Come First Served (FCFS), Shortest Job First (SJF, non-preemptive), Shortest
Remaining Time First (SRTF, preemptive, one time unit per iteration), Round Robin
(RR, with a time quantum) and non-preemptive Priority Scheduling. Each one fills in
the completion, turnaround, waiting and response times of every process. The
program then adds those times up to print averages.

This model covers five things:

- the process record and its constructor;
- each of the five simulators;
- the record write-back by process id that four of them share;
- the lowest-index, strictly-smallest selection scan that SRTF and Priority share;
- the integer sums that `printMetrics` accumulates.

Module layout:

| module | file | what it holds |
|---|---|---|
| `Records` | `records.dfy` | the `Process` record, its constructor, dispatch, finish and write-back, and the list of arrival times |
| `Counting` | `counting.dfy` | counting and summing helpers for the termination and progress arguments |
| `LoopState` | `loop_state.dfy` | the loop state SRTF and Priority share: working copy, `is_completed` flags, clock and counter |
| `Selection` | `selection.dfy` | the strict-`<` scan of SRTF and Priority, starting from `INT_MAX` |
| `Fcfs` | `fcfs.dfy` | the sort by arrival and the serving scan, in place on an array |
| `Sjf` | `sjf.dfy` | the SJF loop |
| `Srtf` | `srtf.dfy` | the SRTF loop |
| `RoundRobin` | `round_robin.dfy` | the RR loop, as written and with the dequeue corrected |
| `PriorityScheduling` | `priority.dfy` | the Priority loop |
| `Metrics` | `metrics.dfy` | the accumulation loop of `printMetrics` and what the totals satisfy |
| `Samples` | `samples.dfy` | a two-process input that shows the Round Robin defect |

Every simulator is an imperative method over the caller's `array<Process>`. Local
vectors become local arrays, except where the source erases from them or uses them as
a FIFO; those become `seq` locals. Each clock-driven simulator (SJF, SRTF, RR,
Priority) is also given as a reference step function, `Step`, over a `State`
datatype, plus a ghost `Run` that iterates `Step` until `completed` reaches the
number of processes. `Run` terminates because of a decreasing measure. The method's
postcondition says that the array it leaves, and the clock it returns, are those of
`Outcome`, which is `Run` from the initial state. The per-process results are then
proved about `Outcome` through an invariant that `Step` preserves.

## Model

| member | source | states |
|---|---|---|
| Records.NewProcess | process_scheduling.cpp:23-34 | a new record has the given id, arrival, burst and priority; remaining equals burst; completion, turnaround and waiting are 0; response is -1 and `started` is false |
| Records.Finish | process_scheduling.cpp:197-201 | completion becomes the clock, turnaround is completion minus arrival, and waiting is turnaround minus burst; identity, remaining, response and `started` are kept |
| Records.RunToEnd | process_scheduling.cpp:140-143 | a non-preemptive run from `start`: completion is start plus burst, response and waiting both equal start minus arrival, and the record is settled with its identity kept |
| Records.Dispatch | process_scheduling.cpp:188-191 | response is taken from the clock, and `started` set, only on the first dispatch; a process that has already started keeps its response time |
| Records.IdIndex | process_scheduling.cpp:147-152 | the linear search returns the first position holding the id, or -1 when no record has it |
| Records.WrittenBack | process_scheduling.cpp:147-152 | the list keeps its length; a record changes only if its id matches, and then it becomes the written record; a matching id puts the record in the list; no record after the first match changes |
| Records.WrittenBackAt | process_scheduling.cpp:206-211 | with unique ids, the write-back replaces exactly the record of that process |
| Records.WriteBack | process_scheduling.cpp:332-337 | the array afterwards is the list with the first record of the same id replaced, or unchanged when there is none |
| LoopState.Init | process_scheduling.cpp:163-168 | SRTF and Priority (lines 293-298 alike) start with no flag set, the clock and the counter at 0, and the counter agreeing with the flags |
| LoopState.FlagCounted | process_scheduling.cpp:203-204 | setting one more `is_completed` flag adds exactly one to their count, so `completed++` beside it keeps the counter equal to the number of flags |
| Selection.ScanUpTo | process_scheduling.cpp:173-181 | the scan returns -1 exactly when no eligible process has a key below INT_MAX; otherwise an eligible index whose key is at most every eligible key and strictly below every eligible key at a lower index |
| Fcfs.SortByArrival | process_scheduling.cpp:90-93 | the array ends sorted by arrival time and is a permutation of what it held |
| Fcfs.InsertLast | process_scheduling.cpp:90-93 | one insertion step extends the sorted prefix by one element and keeps the multiset of records |
| Fcfs.ClockBefore | process_scheduling.cpp:95-106 | the clock after serving position k - 1, minus that process's burst, is no earlier than its arrival: no process starts before it arrives |
| Fcfs.StartOf | process_scheduling.cpp:97-98 | a process starts at the later of the clock and its arrival |
| Fcfs.ServedAt | process_scheduling.cpp:100-103 | a served record keeps its identity, is settled, has response equal to waiting and never negative, and completes one burst after its start |
| Fcfs.Serve | process_scheduling.cpp:97-105 | one iteration writes the served record at its position and moves the clock to its completion |
| Fcfs.ServeInOrder | process_scheduling.cpp:95-106 | every position ends holding its record served in list order, and the clock ends after the last one |
| Fcfs.FCFS | process_scheduling.cpp:89-109 | the list is an arrival-sorted permutation of the input with every record served at its start time, and the returned time is the clock after the last process |
| Fcfs.NoOverlap | process_scheduling.cpp:96-106 | an earlier process in the sorted order completes no later than a later one starts |
| Fcfs.CompletionsNondecreasing | process_scheduling.cpp:96-106 | completion times never decrease along the sorted order |
| Fcfs.MakespanIsLastCompletion | process_scheduling.cpp:105-108 | the returned time is the last completion, or 0 for an empty list, and no process completes after it |
| Fcfs.BusyWithinClock | process_scheduling.cpp:95-106 | the bursts served so far never add up to more than the clock |
| Fcfs.NoIdleWhenAllPresent | process_scheduling.cpp:97-98 | when every process is present at time 0 the CPU never idles, so the clock equals the bursts served |
| Sjf.Init | process_scheduling.cpp:113-117 | before the loop no process is ready and none has completed: every process is pending, the clock is 0 |
| Sjf.Arrived | process_scheduling.cpp:120-128 | the records the scan moves to the ready list have all arrived by the clock, and there are no more of them than pending records |
| Sjf.NotArrived | process_scheduling.cpp:120-128 | the records the scan leaves in `temp` have not arrived by the clock, and there are no more of them than pending records |
| Sjf.AdmitArrived | process_scheduling.cpp:120-128 | the erase loop leaves the processes that have not arrived in `temp`, in order, and appends the arrived ones to the ready list, in order |
| Sjf.AdmissionMembers | process_scheduling.cpp:120-128 | a record moves to the ready list exactly when it has arrived, and stays exactly when it has not |
| Sjf.AdmissionSplits | process_scheduling.cpp:120-128 | the two sides' lengths add up to the pending list's, and when nothing has arrived `temp` is unchanged |
| Sjf.AdmissionPartition | process_scheduling.cpp:120-128 | the moved and the kept records together are exactly the pending records, as a multiset: none is lost or duplicated |
| Sjf.ShortestUpTo | process_scheduling.cpp:135-138 | `min_element` picks a burst no larger than any in the ready list, and the first such one in ready-list order |
| Sjf.ShortestJob | process_scheduling.cpp:135-138 | the scan returns the first ready process with the minimum burst |
| Sjf.Erase | process_scheduling.cpp:154 | erasing the job that ran makes the ready list one record shorter |
| Sjf.EraseRemovesOne | process_scheduling.cpp:154 | the erase takes out exactly one copy of the job that ran and keeps every other record, as a multiset |
| Sjf.Step | process_scheduling.cpp:119-156 | with nothing ready or arrived, the caller's list is unchanged, the ready list is empty, the clock moves one tick and nothing completes; otherwise exactly one process completes and the ready list ends one record shorter than after admission |
| Sjf.RunShortest | process_scheduling.cpp:140-155 | the shortest job runs to the end from the current clock, is written back by id and erased from the ready list, and the clock moves to its completion |
| Sjf.StepProgress | process_scheduling.cpp:119-156 | each iteration either completes one more process, or idles one tick before the last arrival with the ready list empty |
| Sjf.Run | process_scheduling.cpp:119-156 | the `while (completed != n)` loop from a live state stops, with `completed` equal to n |
| Sjf.Outcome | process_scheduling.cpp:112-159 | what the simulator leaves for any input list: a state in which every process has completed |
| Sjf.SJF | process_scheduling.cpp:112-159 | the caller's list and the returned time are those of the reference run |
| Sjf.Outcomes | process_scheduling.cpp:140-152 | every record is its input record run to the end exactly once, in its input position, with response equal to waiting, never negative, and completion within the returned time |
| Sjf.Choice | process_scheduling.cpp:130-145 | the CPU idles exactly when nothing is ready or arrived; otherwise the job run has a burst no larger than any ready or arrived job, and the clock advances by its burst |
| Srtf.ShortestRemaining | process_scheduling.cpp:170-181 | the scan returns the lowest-index arrived, unfinished process with the strictly smallest remaining time, or -1 |
| Srtf.Advance | process_scheduling.cpp:188-212 | a busy tick of process k: the clock moves one tick, k is marked started and loses one unit of remaining time; it is flagged and counted exactly when that reaches 0, and is then settled with completion at the new clock; no other process's copy or flag changes |
| Srtf.Step | process_scheduling.cpp:169-212 | every iteration, idle or busy, moves the clock exactly one tick and completes at most one process |
| Srtf.Tick | process_scheduling.cpp:188-212 | one unit of execution: dispatch bookkeeping, remaining time down by one, and on reaching 0 the finish and write-back |
| Srtf.Iteration | process_scheduling.cpp:169-212 | one loop iteration on the arrays (scan, then an idle or a busy tick) equals the reference step |
| Srtf.AdvanceLive | process_scheduling.cpp:193 | running the selected process for one unit lowers the total remaining time by exactly one |
| Srtf.StepProgress | process_scheduling.cpp:169-194 | each iteration either uses up one unit of remaining time, or idles one tick before the last arrival |
| Srtf.Run | process_scheduling.cpp:169-213 | the loop from a live state stops, with `completed` equal to n and to the number of set flags |
| Srtf.Outcome | process_scheduling.cpp:162-216 | for remaining times in 1 .. INT_MAX - 1, the simulator's final state has every process completed |
| Srtf.SRTF | process_scheduling.cpp:162-216 | the caller's list and the returned time are those of the reference run |
| Srtf.Outcomes | process_scheduling.cpp:188-211 | every record keeps its identity, has run to remaining 0, and is settled with 0 <= response <= waiting and completion within the returned time; the returned time is at least the sum of the bursts |
| Srtf.Choice | process_scheduling.cpp:173-186 | the CPU idles exactly when no unfinished process has arrived; otherwise the choice has the least remaining time among them, strictly less than any at a lower index |
| Srtf.ZeroBurstNeverFinishes | process_scheduling.cpp:177 | an unfinished process with no remaining time is never selected, so no number of iterations completes the run |
| RoundRobin.Init | process_scheduling.cpp:220-231 | before the loop nothing is queued or flagged, every remaining time equals the burst, and the clock and counter are 0 |
| RoundRobin.InitExact | process_scheduling.cpp:224-231 | with positive bursts the initial state meets the corrected loop's invariant: no duplicates and the counter equals the number of finished processes |
| RoundRobin.Admit | process_scheduling.cpp:234-239 | the admission scan only appends to the queue, which keeps its old entries in front, and changes nothing but the queue and the flags |
| RoundRobin.AdmitsMembers | process_scheduling.cpp:234-239 | the admission scan queues exactly the arrived processes that are unqueued and have time left |
| RoundRobin.AdmitsAscending | process_scheduling.cpp:234-239 | admitted indices join the queue in ascending order |
| RoundRobin.AdmitArrived | process_scheduling.cpp:234-241 | the array scan appends the admitted indices to the queue and sets their flags |
| RoundRobin.Dequeued | process_scheduling.cpp:246-248 | the front index leaves the queue and the rest keeps its order; as written its flag is cleared, corrected no flag changes, and no other flag changes in either case; nothing else changes |
| RoundRobin.Complete | process_scheduling.cpp:246-271 | the front process runs its remaining time: the clock advances by it, remaining becomes 0, the record is started, settled with completion at the new clock and keeps its identity; the counter goes up by one and the queue loses its front; no other process's copy or remaining time changes |
| RoundRobin.Preempt | process_scheduling.cpp:246-274 | the front process runs one quantum: the clock advances by the quantum and its remaining time drops by it, the record is started with its identity kept; the caller's list and the counter are unchanged, no other process's copy, remaining time or flag changes, and the queue loses its front |
| RoundRobin.Requeue | process_scheduling.cpp:283-284 | the preempted index is pushed at the back of the queue with its flag set; nothing else changes |
| RoundRobin.DispatchAt | process_scheduling.cpp:250-253 | on the array, the first-dispatch bookkeeping changes only the running process's record, into `Dispatch` of it |
| RoundRobin.FinishAt | process_scheduling.cpp:259-268 | on the arrays, the running process's copy becomes `Finish` at the clock and the caller's list becomes its write-back by id |
| RoundRobin.Step | process_scheduling.cpp:233-286 | one iteration: admission, then an idle tick when the queue is still empty, `Complete` when the front process has at most a quantum left, and otherwise `Preempt`, `Admit` and `Requeue`; its own contract keeps the vectors' lengths and the queue's indices in range, and `StepProgress`, `StepExact` and `Tick` state the rest |
| RoundRobin.DequeueFront | process_scheduling.cpp:246-248 | the front index leaves the queue; as written its `in_queue` flag is cleared |
| RoundRobin.RunToCompletion | process_scheduling.cpp:255-271 | with at most a quantum left, the clock advances by the remaining time, remaining becomes 0, the record is finished and written back, and `completed` goes up |
| RoundRobin.RunQuantum | process_scheduling.cpp:272-287 | with more than a quantum left, the clock advances by the quantum, arrivals are admitted, and the index is pushed at the back with its flag set |
| RoundRobin.Tick | process_scheduling.cpp:233-287 | one loop iteration on the arrays equals the reference step |
| RoundRobin.StepProgress | process_scheduling.cpp:233-288 | each iteration keeps remaining times non-negative and the completion counter at least the number of finished processes, and completes a process, uses up remaining time, or idles before the last arrival |
| RoundRobin.Run | process_scheduling.cpp:233-286 | the loop from a live state stops, with `completed` equal to n and no remaining time negative |
| RoundRobin.Outcome | process_scheduling.cpp:219-289 | for a positive quantum and positive bursts, the simulator's final state, as written or corrected, has `completed` equal to n |
| RoundRobin.RR | process_scheduling.cpp:219-289 | the caller's list and the returned time are those of the reference run, as written or corrected |
| RoundRobin.Outcomes | process_scheduling.cpp:250-271 | as written, each record is either untouched or written back settled, with its identity kept, 0 <= response <= waiting and completion within the returned time |
| RoundRobin.StepExact | process_scheduling.cpp:246-287 | with the dequeue corrected, the queue never holds an index twice, holds only flagged processes with time left, and the counter equals the number of finished processes |
| RoundRobin.CorrectedOutcomes | process_scheduling.cpp:219-289 | with the dequeue corrected, every process runs to remaining 0 and is written back settled, with 0 <= response <= waiting and completion within the returned time |
| PriorityScheduling.HighestPriority | process_scheduling.cpp:300-310 | the scan returns the lowest-index arrived, unfinished process with the strictly smallest priority value, or -1 |
| PriorityScheduling.Advance | process_scheduling.cpp:317-337 | the selected process runs its whole burst: the clock advances by it, the process is flagged, counted, started and settled with completion at the new clock, keeping its identity and remaining time; no other process's copy or flag changes |
| PriorityScheduling.Step | process_scheduling.cpp:299-338 | with nothing selectable the clock moves one tick and nothing else changes; otherwise exactly one process completes and the clock moves on by its burst |
| PriorityScheduling.RunSelected | process_scheduling.cpp:317-337 | the selected process runs its whole burst, is finished, flagged and written back, and `completed` goes up |
| PriorityScheduling.Iteration | process_scheduling.cpp:299-338 | one loop iteration on the arrays (scan, then an idle tick or a whole run) equals the reference step |
| PriorityScheduling.StepProgress | process_scheduling.cpp:299-338 | each iteration either completes one more process or idles one tick before the last arrival |
| PriorityScheduling.Run | process_scheduling.cpp:299-338 | the loop from a live state stops, with `completed` equal to n and to the number of set flags |
| PriorityScheduling.Outcome | process_scheduling.cpp:292-341 | for priorities below INT_MAX, the simulator's final state has every process completed |
| PriorityScheduling.Schedule | process_scheduling.cpp:292-341 | the caller's list and the returned time are those of the reference run |
| PriorityScheduling.Outcomes | process_scheduling.cpp:317-337 | every record keeps its identity and is written back once, settled, with response equal to waiting, never negative, and completion within the returned time |
| PriorityScheduling.Choice | process_scheduling.cpp:303-315 | the CPU idles exactly when no unfinished process has arrived; otherwise the choice has the least priority value among them, strictly less than any at a lower index |
| Metrics.SumMetrics | process_scheduling.cpp:56-69 | the loop's four accumulators are the sums of turnaround, waiting, response and burst over the list |
| Metrics.Balance | process_scheduling.cpp:65-68 | over settled records, total turnaround is total waiting plus total burst |
| Metrics.ResponseTotals | process_scheduling.cpp:65-67 | response equal to waiting in every record gives equal totals, and response at most waiting gives a smaller total |
| Metrics.SjfTotals | process_scheduling.cpp:56-69 | for SJF results: turnaround total equals waiting total plus total burst, and the response and waiting totals are equal and non-negative |
| Metrics.SrtfTotals | process_scheduling.cpp:56-69 | for SRTF results: the same balance, and 0 <= response total <= waiting total |
| Metrics.PriorityTotals | process_scheduling.cpp:56-69 | for Priority results: the same balance, and equal, non-negative response and waiting totals |
| Metrics.CorrectedRoundRobinTotals | process_scheduling.cpp:56-69 | for corrected Round Robin results: the same balance, and 0 <= response total <= waiting total |
| Samples.AsWrittenLosesSecond | process_scheduling.cpp:246-288 | for two processes with burst 3 arriving at 0, and a quantum of 2, the loop as written stops at clock 5 with the second process owing one unit and its record never written back |
| Samples.RoundRobinAsWrittenSample | process_scheduling.cpp:246-288 | the same on a concrete pair: the second record keeps completion 0 and response -1 |
| Samples.CorrectedFinishesSecond | process_scheduling.cpp:246-288 | with the dequeue corrected, the same input runs both processes to the end and writes the second back |

## Left out

- Console output and the floating-point averages, CPU utilisation and throughput of `printMetrics`: these are output formatting and `double` divisions. Only the integer sums are modelled.
- `generateCSV`: file output.
- `main`: only a fixed dataset and the calls. The four-process dataset is not replayed; the Round Robin defect is shown on a two-process input instead.
- The Python plotting script: library calls over a CSV file, with no scheduling logic.
- 32-bit overflow of the clock and of the sums: all integers are unbounded. INT_MAX is modelled only as the starting value of the selection scans.
- Fcfs.SortByArrival: it promises only a sorted permutation, because `std::sort` fixes no order among equal arrival times. Any such order is allowed.
- Srtf.SRTF: requires every remaining time to be positive and below INT_MAX. With a zero burst the source loops forever, and a terminating method cannot express that; Srtf.ZeroBurstNeverFinishes states it on the reference step instead.
- PriorityScheduling.Schedule: requires every priority below INT_MAX. The source never selects a process whose priority is INT_MAX and then loops forever.
- RoundRobin.RR: requires a positive quantum and positive bursts, which is what `main` supplies. With a quantum of 0 or less the source loops forever once a process needs more than a quantum, since the clock never moves forward. A zero-burst process is never admitted, so it never counts as completed. The loop then runs forever unless something else pushes `completed` up to `n`. With the dequeue as written, a process counted twice can do that: with bursts 3 and 0 both arriving at 0 and a quantum of 2, the loop ends at clock 3 and the zero-burst record is never written back. The model does not cover these inputs.
- Srtf.Outcomes: it states the returned time is at least the sum of the bursts, not that busy ticks equal that sum exactly.
- RoundRobin.Outcomes: for the loop as written it does not say which records are written back, only what a written-back record satisfies. The samples show a concrete case where one is not.

## Findings

| source | as written | input that shows it | evidently intended | confidence | as-written member | corrected member |
|---|---|---|---|---|---|---|
| process_scheduling.cpp:248 | the dequeue clears `in_queue` of the process about to run. If it is then preempted, the admission scan at lines 276-281 queues it again before line 283 pushes it, so it sits in the queue twice. The stale copy is later dequeued with no time left; the completion branch adds 0 to the clock and counts it a second time, so `completed` reaches `n` while another process is unfinished. The stale copy also re-runs lines 259-268 on a process that has already finished, rewriting its completion, turnaround and waiting times with the later clock. | two processes with burst 3 both arriving at 0, quantum 2: the loop ends at clock 5 with the second process one unit short and never written back (completion 0, response -1) | a process is queued at most once and the loop ends only when every process has finished | not executed | Samples.AsWrittenLosesSecond | RoundRobin.CorrectedOutcomes |
