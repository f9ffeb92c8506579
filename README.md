# CPU scheduling simulator, modelled in Dafny

This project models `scheduler.js`, a discrete-time simulator of CPU
scheduling under four policies: FIFO, SJF, RR and EDF. It has two classes.

A `Process` carries fixed timing parameters (`start`, `duration`,
`deadline`) that its constructor validates. It also carries a work counter
`elapsed`, which `tick()` advances by one.

A `Scheduler` owns a logical clock and three places a process can be:
- a job queue of processes that are not yet due;
- a ready queue, ordered by the policy and always read from the back;
- a single execution slot.

For RR and EDF it also keeps two countdowns: the quantum left to the
running process, and an overload penalty during which the slot is frozen
after a preemption. `enterProcess` queues processes and settles the
scheduler at once. `tick` advances the clock, admits due processes,
settles the slot, runs the process in the slot for one unit, counts down,
and settles the slot again.

The model keeps the source's form:
- `Process` and `Scheduler` are Dafny classes whose methods update their
  fields in place (`process.dfy`, `scheduler.dfy`).
- The job and ready queues are `seq` fields the methods reassign.
- The `while` loop of `_syncQueues` is a loop with invariants.
- `_syncInExecution` is a recursive method. Its `decreases` clause is
  "the slot is occupied", so it re-enters at most once.

The observer callbacks become an event log `log: seq<Event>`, appended in
the order the source fires them.

The specification of each step is pure:
- `ready_queue.dfy` holds the sort, the per-policy ordering, admission
  and the order of selection from the back.
- `slot.dfy` holds the state machine of `_syncInExecution` as a function
  `SyncSlot` on a `SlotState` value, together with lemmas about it.

`Admitted` and `Worked` (`scheduler.dfy`) give the slot state after
admission and after a tick of work. The methods are proved against these functions. For example,
`SyncInExecution` ensures that the new slot state is `SyncSlot` of the old
one. The properties of the state machine are then lemmas about `SyncSlot`.

Invariants (`Scheduler.Valid`), kept by every public operation:
- Each submitted process is in exactly one of the job queue, the ready
  queue, the slot and the finished set. This is a multiset equation over
  the ghost set `submitted`.
- Ready and running processes are due, and the job queue holds only
  processes that are not yet due.
- The ready queue is in its policy's order.
- `0 <= currentQuantum <= quantum` and `0 <= currentOverload <= overload`.
- An overload implies an empty slot, and FIFO and SJF never count down.
- Between operations the slot holds an unfinished process with quantum
  left, or it is empty only while an overload is on or nothing is ready.
- Each process's `elapsed` matches where it is: 0 in the job queue, below
  `duration` in the ready queue or the slot between ticks, equal to
  `duration` once finished.

Quantum expiry is acted on in the same tick. The
quantum reaches 0 in the decrement at scheduler.js:74, and the sync at
scheduler.js:77 then preempts (scheduler.js:114-121). The preemption does
not wait for the next tick's first sync. `Slots.QuantumExpiry`, applied
through the `SyncInExecution` equation that `Execute` ends with, states
that step.

## Model

| member | source | states |
|---|---|---|
| Processes.CheckArguments | scheduler.js:30-35 | Construction passes exactly when `0 <= start < deadline` and `duration > 0`. Otherwise the error is the first failing check, each error given as an if-and-only-if on the arguments |
| Processes.New | scheduler.js:2-13 | Building fails exactly when a check fails, with that check's error. Otherwise it yields a fresh well-formed process with the given fields and `elapsed == 0` |
| Processes.Process.constructor | scheduler.js:2-13 | A built process has the given timing fields and `elapsed == 0`, so it is neither started nor finished |
| Processes.Process.Tick | scheduler.js:15-20 | `elapsed` grows by exactly one, the process is started afterwards, and the events returned are `TickEvents` of the old `elapsed` |
| Processes.Process.Started | scheduler.js:22-24 | Definition: a process has started once it has done some work. The constructor ensures a new process has not started, and `Process.Tick` ensures it has started afterwards |
| Processes.Process.Finished | scheduler.js:26-28 | Definition: a process has finished once `elapsed` reaches `duration` (`>=`, as in the source). The constructor ensures a new process is unfinished, and the scheduler invariant ties it to the finished set |
| Processes.TickEvents | scheduler.js:16-19 | Definition of one tick's notifications in firing order: start on the first tick, then the tick, then finish on the tick that completes the duration. `TickEventsFire` states its properties |
| Processes.TickEventsFire | scheduler.js:15-20 | A tick fires start exactly when `elapsed` was 0, finish exactly when the new `elapsed` equals `duration`, and always one tick event. All events are about that process |
| ReadyQueues.SortDescending | scheduler.js:81 | The comparator sort `b.key - a.key` yields a sequence in non-increasing key order of the same length |
| ReadyQueues.Insert | scheduler.js:81 | One step of the sort: inserting into a sequence in non-increasing key order keeps it in that order and adds one element |
| ReadyQueues.InsertKeepsMembers | scheduler.js:81 | An insertion step adds exactly the inserted element |
| ReadyQueues.SortKeepsMembers | scheduler.js:81 | The sort is a permutation: the multiset of elements is unchanged |
| ReadyQueues.Arrange | scheduler.js:94-97 | After `_syncReadyQueue` the queue is in its policy's order (SJF by duration, EDF by deadline), and FIFO and RR leave it unchanged |
| ReadyQueues.ArrangeKeepsMembers | scheduler.js:94-97 | Re-ordering the ready queue neither loses nor duplicates a process |
| ReadyQueues.Admit | scheduler.js:89-90 | Definition of `_addToReadyQueue` on the queue: FIFO and RR put the process at the front, SJF and EDF at the back. `AdmitKeepsMembers` and `FrontIsDispatchedLast` state its properties |
| ReadyQueues.AdmitKeepsMembers | scheduler.js:88-92 | Admission adds exactly one copy of the process to the queue |
| ReadyQueues.AdmitAllKeepsMembers | scheduler.js:82-84 | Admitting a batch adds exactly the batch to the queue |
| ReadyQueues.DispatchOrderReverses | scheduler.js:103 | Selection from the back takes the queue out in reverse order |
| ReadyQueues.DispatchOrderKeepsMembers | scheduler.js:82-84 | Selection from the back takes every element out exactly once |
| ReadyQueues.DispatchOrderAscends | scheduler.js:81-84 | Popping a queue sorted by descending start yields ascending starts |
| ReadyQueues.DueTail | scheduler.js:81-84 | When the loop stops, the job queue left is sorted and holds only processes with `start > clock`. The popped tail is due, leaves in ascending start order, and together with the rest it is the sorted queue |
| ReadyQueues.AdmitAllKeepsArrivalOrder | scheduler.js:89 | FIFO and RR: processes that become ready are selected after every process already waiting, and in their admission order |
| ReadyQueues.FrontIsDispatchedLast | scheduler.js:89 | A process put at the front (`unshift`) is selected last |
| ReadyQueues.AdmitAllAppends | scheduler.js:90 | SJF and EDF admit at the back, in admission order, before the re-sort |
| ReadyQueues.BackHasSmallestKey | scheduler.js:95-96 | In a queue sorted by descending key, the back element, which is selected next, has the smallest key of the queue |
| Slots.Fill | scheduler.js:101-105 | Definition of the idle branch: the back of the ready queue, if there is one, enters the slot with an enter-execution notification. `FillKeepsMembers` and `BackPrecedes` state its properties |
| Slots.Vacated | scheduler.js:108-111 | Definition of the finish branch: the process leaves the slot for the finished set with a leave notification, and RR and EDF reset the quantum. `VacatedKeepsMembers` and `FinishedLeaves` state its properties |
| Slots.Preempted | scheduler.js:115-120 | Definition of quantum expiry: the process goes back into the re-ordered ready queue with leave and enter-ready notifications, the overload starts and the quantum is reset. `PreemptedKeepsMembers` and `QuantumExpiry` state its properties |
| Slots.SyncSlot | scheduler.js:99-132 | Definition of `_syncInExecution` on slot states, branch for branch, re-entering once after a branch that empties the slot. The lemmas below in this table, from `SyncSlotCountdown` to `SyncSlotPicksFirst`, state its properties |
| Slots.SyncSlotCountdown | scheduler.js:99-132 | A sync keeps the countdown bounds, including "overload implies an empty slot". Under RR and EDF a process left in the slot has quantum left |
| Slots.WorkConserving | scheduler.js:99-132 | A sync never leaves work waiting: once it is over, an empty slot with no overload on means an empty ready queue |
| Slots.SettledStays | scheduler.js:107-129 | A sync from a slot holding an unfinished process with quantum left finishes nobody, keeps that process in the slot, and changes nothing during an overload |
| Slots.SyncSlotGrows | scheduler.js:99-132 | A sync only appends notifications and only adds to the finished set |
| Slots.SyncSlotIdle | scheduler.js:99-132 | A sync changes nothing exactly when an overload is on, or the slot and the ready queue are empty, or the running process is unfinished and not out of quantum under RR or EDF |
| Slots.NonPreemptive | scheduler.js:124-129 | FIFO and SJF: the running process keeps the slot exactly when it is unfinished |
| Slots.FinishedLeaves | scheduler.js:107-129 | Under every policy a finished process leaves the slot for the finished set, with a leave notification first, and does not come back in the same sync. Under RR and EDF the quantum is reset |
| Slots.QuantumExpiry | scheduler.js:112-121 | RR and EDF with the quantum used up: the quantum resets and the overload starts. With a positive overload the slot stays empty and the process is back in the ready queue. With no overload the slot is refilled at once, by that process or by another while it waits in the queue |
| Slots.FillKeepsMembers | scheduler.js:101-105 | Dispatch moves the back of the ready queue into the slot, losing or duplicating nothing |
| Slots.VacatedKeepsMembers | scheduler.js:108-111 | Retiring moves the running process into the finished set |
| Slots.PreemptedKeepsMembers | scheduler.js:115-118 | Preemption moves the running process back into the ready queue |
| Slots.SyncSlotKeepsMembers | scheduler.js:99-132 | Over a whole sync, the slot, the ready queue and the finished set keep the same processes, each once |
| Slots.BackPrecedes | scheduler.js:103 | The back of an ordered ready queue has a key no larger than anything left behind it, and the rest stays ordered |
| Slots.SyncSlotPicksFirst | scheduler.js:101-105 | A sync keeps the ready queue ordered. Whenever a sync changes the state and leaves a process in the slot, that process has a duration (SJF) or deadline (EDF) no larger than any process still waiting. This includes an EDF process that is preempted with no overload and selected again at once |
| Scheduling.ReadyEventsAt | scheduler.js:91 | One enter-ready notification per admitted process, in admission order |
| Scheduling.Admitted | scheduler.js:80-86 | Definition of the slot state after `_syncQueues` has admitted a batch: the ready queue takes in the batch and is re-ordered, and one enter-ready notification is logged per process. `QueuesSynced` and `ReadyEventsAt` state its properties |
| Scheduling.Worked | scheduler.js:72-76 | Definition of the slot state after one tick of work: the tick notifications are appended, the quantum drops only for a running process under RR and EDF and only when positive, and the overload drops only when positive. `Execute` and `Tick` state its use |
| Scheduling.Submission | scheduler.js:62-63 | Pushing new, distinct processes onto the job queue keeps every process in exactly one place |
| Scheduling.Admission | scheduler.js:82-85 | Moving due processes from the job queue into an ordered ready queue keeps every process in exactly one place, and keeps ready processes due and unfinished |
| Scheduling.QueuesSynced | scheduler.js:80-86 | After `_syncQueues` nothing is lost or duplicated, ready processes are due, the ready queue is ordered, the job queue is all pending, and the admitted processes were due and came in ascending start order |
| Scheduling.Dispatch | scheduler.js:101-105 | Filling the slot keeps the invariants. The dispatched process is unfinished and precedes the rest of the ready queue |
| Scheduling.Retirement | scheduler.js:108-111 | Retiring a finished process keeps the invariants |
| Scheduling.Requeue | scheduler.js:115-118 | Putting an unfinished process back into the ready queue and re-ordering it keeps the invariants |
| Scheduling.Scheduler.constructor | scheduler.js:39-60 | A new scheduler has clock 0, a full quantum, no overload, an empty slot and empty queues, and satisfies the invariant |
| Scheduling.Scheduler.EnterProcess | scheduler.js:62-66 | Submission keeps the invariant, adds the processes to the submitted set and leaves the clock alone. Each new process is in the job queue exactly when it is not yet due. The job queue with the new processes is sorted and loses its due tail, which is admitted in popping order. The new slot state, with ready queue, notifications and countdowns, is the `SyncSlot` transition from the state that admission produced |
| Scheduling.Scheduler.Tick | scheduler.js:68-78 | The clock grows by exactly one and the invariant is kept, so an idle slot with no overload afterwards means nothing is ready. The job queue loses exactly its due tail, admitted in ascending start order. The slot state after the first sync is the `SyncSlot` transition from the admitted state, and its process `ran` is the only one that works, by one unit. The final slot state is the `SyncSlot` transition from that state after the work, with `ran`'s tick notifications and the countdowns applied. A process holding the slot keeps it for this tick's work, and an overload freezes the slot and counts down by one |
| Scheduling.Scheduler.Execute | scheduler.js:72-77 | The running process does one unit of work and no other process works. The new slot state is the `SyncSlot` transition from the old one after the work: the running process's tick notifications are appended, the quantum drops under RR and EDF, and the overload drops. The job queue is untouched and the invariant is kept |
| Scheduling.Scheduler.Sync | scheduler.js:70-71 | Admission then slot sync restores the invariant. The job queue is sorted and loses its due tail. The new slot state is the `SyncSlot` transition from the state after admission. A settled slot keeps its process and finishes nothing, and an overload keeps the slot empty |
| Scheduling.Scheduler.RunSlot | scheduler.js:72-76 | The running process's `elapsed` grows by one and its tick events are logged. The quantum drops only under RR and EDF and only when positive, and the overload drops only when positive. Together these are the slot state `Worked` |
| Scheduling.Scheduler.SyncQueues | scheduler.js:80-86 | The job queue becomes the sorted queue minus its due tail, and every process left is pending. The admitted processes are that tail, due and in ascending start order. The ready queue is the ordered result of admitting them, one enter-ready notification is logged per admission, and the invariant holds |
| Scheduling.Scheduler.AdmitDue | scheduler.js:82-84 | The loop pops exactly the due tail of the job queue, every popped process has `start <= clock`, and the loop admits them in popping order and logs each admission |
| Scheduling.Scheduler.AddToReadyQueue | scheduler.js:88-92 | FIFO and RR put the process at the front, SJF and EDF at the back, and one notification is logged |
| Scheduling.Scheduler.SyncReadyQueue | scheduler.js:94-97 | The ready queue becomes its policy's ordering of itself |
| Scheduling.Scheduler.SyncInExecution | scheduler.js:99-132 | The new slot state is `SyncSlot` of the old one, the slot is settled (unfinished process with quantum left) and the invariant is kept |
| Scheduling.Scheduler.FillSlot | scheduler.js:101-105 | An empty slot takes the back of the ready queue, if any, with an enter-execution notification |
| Scheduling.Scheduler.Retire | scheduler.js:107-111 | A finished process leaves the slot with a leave notification, and under RR and EDF the quantum is reset |
| Scheduling.Scheduler.Preempt | scheduler.js:114-121 | The process goes back into the re-ordered ready queue with leave and enter-ready notifications. The overload starts and the quantum is reset |

## Left out

- The callback closures (scheduler.js:2, 10-12 and 43-52) are replaced by the event log. Each notification the source would fire is appended to `Scheduler.log` in firing order, and `Process.Tick` returns its own start, tick and finish events.
- Algorithm tags other than the four are not modelled: the policy is a closed datatype. With an unknown tag the source never removes the running process.
- JavaScript numbers are modelled as unbounded integers. Non-integer and `NaN` timing values are not modelled. The scheduler constructor requires `quantum > 0` and `overload >= 0`.
- `Array.prototype.sort` is modelled as a stable insertion sort. ECMAScript 2019 requires the sort to be stable, so ties keep their previous order. Every property is stated as "ordered by key and a permutation", and none depends on that tie order.
- Tie order as a caller sees it: processes with equal `start` in one `enterProcess` call keep their submission order in the sorted job queue, and the loop pops the last one first. Under FIFO and RR the later-submitted process is therefore selected first: `enterProcess([p1, p2])` with equal starts puts `p2` in the slot. Under SJF and EDF, a tie in duration or deadline as well keeps the admission order, so the earlier-submitted process ends at the back and is selected first. The model follows this order exactly but states no lemma about it.
- Aliasing is not modelled. `EnterProcess` requires the processes to be distinct, never submitted before, and not yet worked on. Work done on a process by the caller outside the scheduler breaks the `elapsed` part of the invariant, and the model does not cover it.
- Processes are object references. The `id` field is stored but plays no part in scheduling, as in the source.
- `Retire` models both finish branches of `_syncInExecution` (scheduler.js:108-111 and 125-128). They differ only in the quantum reset under RR and EDF, which `Retire` performs under those two policies only.
- `Sync`, `Execute`, `RunSlot`, `AdmitDue`, `FillSlot`, `Retire` and `Preempt` are statement groups of `tick`, `_syncQueues` and `_syncInExecution` given their own contracts. They are not functions of the source.
