/** The scheduling engine: a logical clock, a queue of submitted processes
    not yet due (`jobQueue`), the ready queue, one execution slot, and the
    quantum and overload countdowns of the preemptive algorithms. */
module Scheduling {
  import opened Processes
  import opened ReadyQueues
  import opened Slots

  /** `onProcessEnterReadyQueue` for each of `ps`, in order. */
  function ReadyEvents(ps: seq<Process>): seq<Event>
  {
    if ps == [] then [] else ReadyEvents(DropLast(ps)) + [OnEnterReadyQueue(Last(ps))]
  }

  /** One notification per admitted process, in admission order. */
  lemma {:induction false} ReadyEventsAt(ps: seq<Process>)
    ensures |ReadyEvents(ps)| == |ps|
    ensures forall i :: 0 <= i < |ps| ==> ReadyEvents(ps)[i] == OnEnterReadyQueue(ps[i])
  {
    if ps != [] {
      ReadyEventsAt(DropLast(ps));
    }
  }

  lemma ReadyEventsSnoc(ps: seq<Process>, p: Process)
    ensures ReadyEvents(ps + [p]) == ReadyEvents(ps) + [OnEnterReadyQueue(p)]
  {
    assert DropLast(ps + [p]) == ps;
  }

  /** The slot state once `_syncQueues` has admitted `admitted`, in that
      order: the ready queue takes them in and is put in order, and one
      enter-ready notification is fired for each. */
  function Admitted(s: SlotState, admitted: seq<Process>, alg: Algorithm): SlotState {
    s.(ready := Arrange(AdmitAll(s.ready, admitted, alg), alg),
       log := s.log + ReadyEvents(admitted))
  }

  /** The slot state once the process in the slot, if any, has done a tick
      of work that fired `events`, and the two countdowns have run: the
      quantum only under RR and EDF and only for a running process. */
  function Worked(s: SlotState, events: seq<Event>, alg: Algorithm): SlotState {
    s.(log := s.log + events,
       quantumLeft := if s.running != null && alg.Preemptive() && s.quantumLeft > 0
                      then s.quantumLeft - 1 else s.quantumLeft,
       overloadLeft := if s.overloadLeft > 0 then s.overloadLeft - 1 else s.overloadLeft)
  }

  /** Adding distinct, not yet submitted processes to the submitted set
      adds exactly one copy of each. */
  lemma {:induction false} SubmitDistinct(s: set<Process>, ps: seq<Process>)
    decreases |ps|
    requires forall p :: p in ps ==> p !in s
    requires forall i, j :: 0 <= i < j < |ps| ==> ps[i] != ps[j]
    ensures multiset(s + set p | p in ps) == multiset(s) + multiset(ps)
  {
    if ps != [] {
      var s' := s + {ps[0]};
      SubmitDistinct(s', ps[1..]);
      assert ps == [ps[0]] + ps[1..];
      assert (s' + set p | p in ps[1..]) == (s + set p | p in ps);
      assert multiset(s') == multiset(s) + multiset{ps[0]};
    }
  }

  /** Each process of `all` is in exactly one of: the job queue `job`, the
      ready queue `ready`, the slot `slot`, the finished set `done`. */
  ghost predicate Partition(job: seq<Process>, ready: seq<Process>, slot: seq<Process>,
                            done: set<Process>, all: set<Process>)
  {
    multiset(job) + multiset(ready) + multiset(slot) + multiset(done) == multiset(all)
  }

  lemma Whereabouts(job: seq<Process>, ready: seq<Process>, slot: seq<Process>,
                    done: set<Process>, all: set<Process>, p: Process)
    requires Partition(job, ready, slot, done, all)
    ensures p in all <==> p in job || p in ready || p in slot || p in done
    ensures p in job ==> p !in ready && p !in slot && p !in done
    ensures p in ready ==> p !in slot && p !in done
    ensures p in slot ==> p !in done
  {
    assert multiset(all)[p] ==
      multiset(job)[p] + multiset(ready)[p] + multiset(slot)[p] + multiset(done)[p];
  }

  /** Processes in the ready queue and the slot are due, and the ready
      queue is in the order of the algorithm. */
  ghost predicate Timing(ready: seq<Process>, slot: seq<Process>, clock: int, alg: Algorithm)
  {
    && (forall p :: p in ready ==> p.start <= clock)
    && (forall p :: p in slot ==> p.start <= clock)
    && Ordered(ready, alg)
  }

  /** No process of the job queue is due yet. */
  ghost predicate AllPending(job: seq<Process>, clock: int)
  {
    forall p :: p in job ==> p.start > clock
  }

  /** The work `p` has done, given where it is: none in the job queue, not
      all of it in the ready queue, all of it once finished. */
  ghost predicate Stage(p: Process, job: seq<Process>, ready: seq<Process>, done: set<Process>)
    reads p
  {
    && p.WellFormed() && p.elapsed <= p.duration
    && (p in job ==> p.elapsed == 0)
    && (p in ready ==> p.elapsed < p.duration)
    && (p in done ==> p.elapsed == p.duration)
  }

  ghost predicate Work(job: seq<Process>, ready: seq<Process>, done: set<Process>, all: set<Process>)
    reads all
  {
    forall p :: p in all ==> Stage(p, job, ready, done)
  }

  /** New processes enter the job queue and the submitted set. */
  lemma Submission(job: seq<Process>, ready: seq<Process>, slot: seq<Process>,
                   done: set<Process>, all: set<Process>, ps: seq<Process>)
    requires Partition(job, ready, slot, done, all) && Work(job, ready, done, all)
    requires forall p :: p in ps ==> p.WellFormed() && p.elapsed == 0 && p !in all
    requires forall i, j :: 0 <= i < j < |ps| ==> ps[i] != ps[j]
    ensures Partition(job + ps, ready, slot, done, all + set q | q in ps)
    ensures Work(job + ps, ready, done, all + set q | q in ps)
  {
    SubmitDistinct(all, ps);
    forall p | p in all + set q | q in ps
      ensures Stage(p, job + ps, ready, done)
    {
      Whereabouts(job, ready, slot, done, all, p);
      if p !in ps {
        assert Stage(p, job, ready, done);
      }
    }
  }

  /** Moving `admitted` from the job queue to the ready queue keeps every
      process in one place, provided the moved processes are due and the
      new ready queue is in order. */
  lemma Admission(job0: seq<Process>, ready0: seq<Process>,
                  job1: seq<Process>, ready1: seq<Process>, admitted: seq<Process>,
                  slot: seq<Process>, done: set<Process>, all: set<Process>,
                  clock: int, alg: Algorithm)
    requires Partition(job0, ready0, slot, done, all)
    requires Timing(ready0, slot, clock, alg) && Work(job0, ready0, done, all)
    requires multiset(job1) + multiset(admitted) == multiset(job0)
    requires multiset(ready1) == multiset(ready0) + multiset(admitted)
    requires forall p :: p in admitted ==> p.start <= clock
    requires Ordered(ready1, alg)
    ensures Partition(job1, ready1, slot, done, all)
    ensures Timing(ready1, slot, clock, alg) && Work(job1, ready1, done, all)
  {
    forall p | p in ready1
      ensures p.start <= clock
    {
      assert multiset(ready1)[p] == multiset(ready0)[p] + multiset(admitted)[p];
    }
    forall p | p in all
      ensures Stage(p, job1, ready1, done)
    {
      assert Stage(p, job0, ready0, done);
      assert multiset(job0)[p] == multiset(job1)[p] + multiset(admitted)[p];
      assert multiset(ready1)[p] == multiset(ready0)[p] + multiset(admitted)[p];
    }
  }

  /** `_syncQueues` from job queue `job0` and ready queue `ready0`: the
      sorted job queue splits into the pending `job1` and the due tail
      `due`, which is admitted into `ready1`. */
  lemma QueuesSynced(job0: seq<Process>, ready0: seq<Process>, sorted: seq<Process>,
                     job1: seq<Process>, due: seq<Process>, ready1: seq<Process>,
                     slot: seq<Process>, done: set<Process>, all: set<Process>,
                     clock: int, alg: Algorithm)
    requires Partition(job0, ready0, slot, done, all)
    requires Timing(ready0, slot, clock, alg) && Work(job0, ready0, done, all)
    requires sorted == SortDescending(job0, ByStart) && sorted == job1 + due
    requires due != [] ==> due[0].start <= clock
    requires job1 == [] || Last(job1).start > clock
    requires ready1 == Arrange(AdmitAll(ready0, DispatchOrder(due), alg), alg)
    ensures Partition(job1, ready1, slot, done, all)
    ensures Timing(ready1, slot, clock, alg) && Work(job1, ready1, done, all)
    ensures AllPending(job1, clock)
    ensures forall p :: p in DispatchOrder(due) ==> p.start <= clock
    ensures Ascending(DispatchOrder(due), ByStart)
  {
    var admitted := DispatchOrder(due);
    DueTail(sorted, job1, due, clock);
    SortKeepsMembers(job0, ByStart);
    AdmitAllKeepsMembers(ready0, admitted, alg);
    ArrangeKeepsMembers(AdmitAll(ready0, admitted, alg), alg);
    Admission(job0, ready0, job1, ready1, admitted, slot, done, all, clock, alg);
  }

  /** The back of the ready queue moves into the empty slot. */
  lemma Dispatch(job: seq<Process>, ready: seq<Process>, done: set<Process>, all: set<Process>,
                 clock: int, alg: Algorithm)
    requires ready != []
    requires Partition(job, ready, [], done, all)
    requires Timing(ready, [], clock, alg) && Work(job, ready, done, all)
    ensures Partition(job, DropLast(ready), [Last(ready)], done, all)
    ensures Timing(DropLast(ready), [Last(ready)], clock, alg)
    ensures Work(job, DropLast(ready), done, all)
    ensures Last(ready).elapsed < Last(ready).duration && Last(ready) in all
    ensures Precedes(Last(ready), DropLast(ready), alg)
  {
    assert ready == DropLast(ready) + [Last(ready)];
    BackPrecedes(ready, alg);
    Whereabouts(job, ready, [], done, all, Last(ready));
    assert Stage(Last(ready), job, ready, done);
  }

  /** A finished process leaves the slot for the finished set. */
  lemma Retirement(job: seq<Process>, ready: seq<Process>, p: Process, done: set<Process>,
               all: set<Process>, clock: int, alg: Algorithm)
    requires Partition(job, ready, [p], done, all)
    requires Timing(ready, [p], clock, alg) && Work(job, ready, done, all)
    requires p.elapsed >= p.duration
    ensures Partition(job, ready, [], done + {p}, all)
    ensures Timing(ready, [], clock, alg) && Work(job, ready, done + {p}, all)
  {
    Whereabouts(job, ready, [p], done, all, p);
    assert multiset(done + {p}) == multiset(done) + multiset{p};
    assert Stage(p, job, ready, done);
  }

  /** An unfinished process leaves the slot for the ready queue, which is
      put in order again. */
  lemma Requeue(job: seq<Process>, ready: seq<Process>, p: Process,
                done: set<Process>, all: set<Process>, clock: int, alg: Algorithm)
    requires Partition(job, ready, [p], done, all)
    requires Timing(ready, [p], clock, alg) && Work(job, ready, done, all)
    requires p.elapsed < p.duration
    ensures Partition(job, Arrange(Admit(ready, p, alg), alg), [], done, all)
    ensures Timing(Arrange(Admit(ready, p, alg), alg), [], clock, alg)
    ensures Work(job, Arrange(Admit(ready, p, alg), alg), done, all)
  {
    var ready1 := Arrange(Admit(ready, p, alg), alg);
    AdmitKeepsMembers(ready, p, alg);
    ArrangeKeepsMembers(Admit(ready, p, alg), alg);
    Whereabouts(job, ready, [p], done, all, p);
    forall q | q in ready1
      ensures q.start <= clock
    {
      assert multiset(ready1)[q] == multiset(ready)[q] + multiset{p}[q];
    }
    forall q | q in all
      ensures Stage(q, job, ready1, done)
    {
      assert Stage(q, job, ready, done);
      assert multiset(ready1)[q] == multiset(ready)[q] + multiset{p}[q];
    }
  }

  class Scheduler {
    const algorithm: Algorithm
    const quantum: int
    const overload: int

    var clock: int
    var currentQuantum: int
    var currentOverload: int
    var inExecution: Process?
    var jobQueue: seq<Process>
    var readyQueue: seq<Process>
    /** The observer notifications fired so far, oldest first. */
    var log: seq<Event>

    /** Every process ever submitted, and those that left the slot finished. */
    ghost var submitted: set<Process>
    ghost var completed: set<Process>

    /** The state `_syncInExecution` works on. */
    ghost function SlotView(): SlotState
      reads this
    {
      SlotState(inExecution, readyQueue, log, currentQuantum, currentOverload, completed)
    }

    ghost predicate Counters()
      reads this
    {
      && 0 < quantum && 0 <= overload && 0 <= clock
      && Countdown(SlotView(), algorithm, quantum, overload)
    }

    /** What holds between any two steps inside `tick`. */
    ghost predicate Core()
      reads this, submitted
    {
      && Counters()
      && Partition(jobQueue, readyQueue, SlotOf(inExecution), completed, submitted)
      && (inExecution != null ==> inExecution in submitted)
      && Timing(readyQueue, SlotOf(inExecution), clock, algorithm)
      && Work(jobQueue, readyQueue, completed, submitted)
    }

    ghost predicate Pending()
      reads this
    {
      AllPending(jobQueue, clock)
    }

    /** The slot holds an unfinished process with quantum left, and it is
        empty with no overload on only when nothing is ready. */
    ghost predicate Settled()
      reads this, inExecution
    {
      && (inExecution != null ==>
            inExecution.elapsed < inExecution.duration &&
            (algorithm.Preemptive() ==> currentQuantum > 0))
      && (inExecution == null && currentOverload == 0 ==> readyQueue == [])
    }

    ghost predicate Valid()
      reads this, submitted, inExecution
    {
      Core() && Pending() && Settled()
    }

    constructor (algorithm: Algorithm, quantum: int, overload: int)
      requires quantum > 0 && overload >= 0
      ensures Valid()
      ensures this.algorithm == algorithm && this.quantum == quantum && this.overload == overload
      ensures clock == 0 && currentQuantum == quantum && currentOverload == 0
      ensures inExecution == null && jobQueue == [] && readyQueue == [] && log == []
      ensures submitted == {} && completed == {}
    {
      this.algorithm := algorithm;
      this.quantum := quantum;
      this.overload := overload;
      clock := 0;
      currentQuantum := quantum;
      currentOverload := 0;
      inExecution := null;
      jobQueue := [];
      readyQueue := [];
      log := [];
      submitted := {};
      completed := {};
    }

    /** `enterProcess(...process)`: queue the processes, then admit the due
        ones and fill the slot without waiting for the next tick. */
    method EnterProcess(ps: seq<Process>) returns (ghost admitted: seq<Process>, ghost due: seq<Process>)
      requires Valid()
      requires forall p :: p in ps ==> p.WellFormed() && p.elapsed == 0 && p !in submitted
      requires forall i, j :: 0 <= i < j < |ps| ==> ps[i] != ps[j]
      modifies this
      ensures Valid()
      ensures submitted == old(submitted) + set p | p in ps
      ensures clock == old(clock) && completed == old(completed)
      ensures forall p :: p in ps ==> (p in jobQueue <==> p.start > clock)
      // the job queue is sorted and loses its due tail, which is admitted
      ensures SortDescending(old(jobQueue) + ps, ByStart) == jobQueue + due && admitted == DispatchOrder(due)
      ensures forall p :: p in admitted ==> p.start <= clock
      // then the slot is settled, from a slot holding no finished process
      ensures SlotView() == SyncSlot(Admitted(old(SlotView()), admitted, algorithm), false,
                                     algorithm, quantum, overload)
    {
      Submission(jobQueue, readyQueue, SlotOf(inExecution), completed, submitted, ps);
      jobQueue := jobQueue + ps;
      submitted := submitted + set p | p in ps;
      admitted, due := Sync();
      forall p | p in ps
        ensures p in jobQueue <==> p.start > clock
      {
        Whereabouts(jobQueue, readyQueue, SlotOf(inExecution), completed, submitted, p);
        assert Stage(p, jobQueue, readyQueue, completed);
      }
    }

    /** One unit of logical time: admit, sync the slot, run the process in
        it, count the quantum and overload down, sync the slot again.
        `ran` names the process that did a tick of work, if any. */
    method Tick() returns (ghost ran: Process?, ghost admitted: seq<Process>, ghost due: seq<Process>,
                           ghost mid: SlotState, ghost events: seq<Event>)
      requires Valid()
      modifies this, submitted
      ensures clock == old(clock) + 1
      ensures submitted == old(submitted) && old(completed) <= completed
      // exactly one process, the one in the slot, does one tick of work
      ensures ran != null ==> ran in submitted
      ensures forall p :: p in submitted ==> p.elapsed == old(p.elapsed) + if p == ran then 1 else 0
      // a process holding the slot keeps it for this tick's work
      ensures old(inExecution) != null ==> ran == old(inExecution)
      // an overload freezes the slot and counts down
      ensures old(currentOverload) > 0 ==> ran == null && currentOverload == old(currentOverload) - 1
      // admission: the job queue is sorted and loses its due tail
      ensures SortDescending(old(jobQueue), ByStart) == jobQueue + due && admitted == DispatchOrder(due)
      ensures forall p :: p in admitted ==> p.start <= clock
      // the slot is settled, `ran` does its tick, and the slot is settled again
      ensures mid == SyncSlot(Admitted(old(SlotView()), admitted, algorithm), false, algorithm, quantum, overload)
      ensures ran == mid.running
      ensures events == if ran == null then [] else TickEvents(ran, ran.elapsed - 1)
      ensures SlotView() == SyncSlot(Worked(mid, events, algorithm), ran != null && ran.Finished(),
                                     algorithm, quantum, overload)
      ensures Valid()
    {
      ghost var before := SlotView();
      clock := clock + 1;
      assert SlotView() == before;
      admitted, due := Sync();
      mid := SlotView();
      ran := inExecution;
      events := Execute();
    }

    /** The second half of `tick`: the process in the slot does a tick of
        work, the countdowns run, and the slot is settled again. Only the
        process that was in the slot does any work. */
    method Execute() returns (ghost events: seq<Event>)
      requires Valid()
      modifies this`inExecution, this`readyQueue, this`log, this`currentQuantum,
        this`currentOverload, this`completed, inExecution
      ensures Valid()
      ensures clock == old(clock) && submitted == old(submitted) && jobQueue == old(jobQueue)
      ensures old(log) <= log && old(completed) <= completed
      ensures old(inExecution) != null ==> old(inExecution).elapsed == old(inExecution.elapsed) + 1
      ensures old(currentOverload) > 0 ==> currentOverload == old(currentOverload) - 1
      ensures forall p :: p in submitted && p != old(inExecution) ==> p.elapsed == old(p.elapsed)
      ensures events == if old(inExecution) == null then [] else TickEvents(old(inExecution), old(inExecution.elapsed))
      ensures SlotView() == SyncSlot(Worked(old(SlotView()), events, algorithm),
                                     old(inExecution) != null && old(inExecution).Finished(), algorithm, quantum, overload)
    {
      events := if inExecution == null then [] else TickEvents(inExecution, inExecution.elapsed);
      RunSlot();
      SyncInExecution();
    }

    /** `_syncQueues` followed by `_syncInExecution`, the pair that both
        `enterProcess` and `tick` run: admit the due processes, then settle
        the slot. A process holding the slot with quantum left keeps it, and
        an overload keeps the slot empty. */
    method Sync() returns (ghost admitted: seq<Process>, ghost due: seq<Process>)
      requires Core() && Settled()
      modifies this`jobQueue, this`readyQueue, this`log, this`inExecution,
        this`currentQuantum, this`currentOverload, this`completed
      ensures clock == old(clock) && submitted == old(submitted)
      ensures old(log) <= log && completed == old(completed)
      ensures old(inExecution) != null ==> inExecution == old(inExecution)
      ensures old(currentOverload) > 0 ==> inExecution == null && currentOverload == old(currentOverload)
      ensures forall p :: p in submitted ==> p.elapsed == old(p.elapsed)
      ensures SortDescending(old(jobQueue), ByStart) == jobQueue + due && admitted == DispatchOrder(due)
      ensures forall p :: p in admitted ==> p.start <= clock
      ensures SlotView() == SyncSlot(Admitted(old(SlotView()), admitted, algorithm), false,
                                     algorithm, quantum, overload)
      ensures Valid()
    {
      admitted, due := SyncQueues();
      assert inExecution != null ==> !inExecution.Finished() && (algorithm.Preemptive() ==> currentQuantum > 0);
      SettledStays(SlotView(), algorithm, quantum, overload);
      SyncInExecution();
    }

    /** The middle of `tick`: the process in the slot does one tick of
        work, the quantum counts down under RR and EDF, and the overload
        counts down. */
    method RunSlot()
      requires Core() && Settled()
      modifies this`log, this`currentQuantum, this`currentOverload, inExecution
      ensures Core()
      ensures inExecution != null ==> inExecution.elapsed == old(inExecution.elapsed) + 1
      ensures log == old(log) +
        (if inExecution == null then [] else TickEvents(inExecution, old(inExecution.elapsed)))
      ensures currentQuantum ==
        if inExecution != null && algorithm.Preemptive() && old(currentQuantum) > 0
        then old(currentQuantum) - 1 else old(currentQuantum)
      ensures currentOverload ==
        if old(currentOverload) > 0 then old(currentOverload) - 1 else old(currentOverload)
      ensures clock == old(clock) && jobQueue == old(jobQueue) && readyQueue == old(readyQueue)
      ensures inExecution == old(inExecution) && old(log) <= log
      ensures completed == old(completed) && submitted == old(submitted)
      ensures SlotView() ==
        Worked(old(SlotView()), if inExecution == null then [] else TickEvents(inExecution, old(inExecution.elapsed)),
               algorithm)
    {
      if inExecution != null {
        var p := inExecution;
        Whereabouts(jobQueue, readyQueue, SlotOf(inExecution), completed, submitted, p);
        var events := p.Tick();
        log := log + events;
        if algorithm.Preemptive() && currentQuantum > 0 {
          currentQuantum := currentQuantum - 1;
        }
        assert Stage(p, jobQueue, readyQueue, completed);
      }
      if currentOverload > 0 {
        currentOverload := currentOverload - 1;
      }
    }

    /** `_syncQueues`: sort the job queue by descending start, move every
        due process from its back into the ready queue, and re-apply the
        ready queue's ordering. `admitted` lists the moved processes in the
        order they moved. */
    method SyncQueues() returns (ghost admitted: seq<Process>, ghost due: seq<Process>)
      requires Core()
      modifies this`jobQueue, this`readyQueue, this`log
      // the job queue is sorted by descending start and `admitted` is its
      // due tail, taken from the back
      ensures SortDescending(old(jobQueue), ByStart) == jobQueue + due && admitted == DispatchOrder(due)
      ensures forall p :: p in admitted ==> p.start <= clock
      ensures Ascending(admitted, ByStart)
      ensures readyQueue == Arrange(AdmitAll(old(readyQueue), admitted, algorithm), algorithm)
      ensures log == old(log) + ReadyEvents(admitted)
      ensures clock == old(clock) && inExecution == old(inExecution)
      ensures currentQuantum == old(currentQuantum) && currentOverload == old(currentOverload)
      ensures completed == old(completed) && submitted == old(submitted)
      ensures SlotView() == Admitted(old(SlotView()), admitted, algorithm)
      ensures Core() && Pending()
    {
      ghost var job0, ready0 := jobQueue, readyQueue;
      jobQueue := SortDescending(jobQueue, ByStart);
      ghost var sorted := jobQueue;
      due := AdmitDue();
      admitted := DispatchOrder(due);
      SyncReadyQueue();
      QueuesSynced(job0, ready0, sorted, jobQueue, due, readyQueue, SlotOf(inExecution),
                   completed, submitted, clock, algorithm);
    }

    /** The loop of `_syncQueues`: while the back of the job queue is due,
        pop it and add it to the ready queue. `due` is the popped tail of the
        job queue; its elements were added from the back. */
    method AdmitDue() returns (ghost due: seq<Process>)
      modifies this`jobQueue, this`readyQueue, this`log
      ensures old(jobQueue) == jobQueue + due
      ensures clock == old(clock) && inExecution == old(inExecution)
      ensures currentQuantum == old(currentQuantum) && currentOverload == old(currentOverload)
      ensures completed == old(completed) && submitted == old(submitted)
      ensures jobQueue == [] || Last(jobQueue).start > clock
      ensures due != [] ==> due[0].start <= clock
      ensures forall p :: p in due ==> p.start <= clock
      ensures readyQueue == AdmitAll(old(readyQueue), DispatchOrder(due), algorithm)
      ensures log == old(log) + ReadyEvents(DispatchOrder(due))
    {
      due := [];
      ghost var admitted: seq<Process> := [];
      while jobQueue != [] && Last(jobQueue).start <= clock
        invariant old(jobQueue) == jobQueue + due
        invariant clock == old(clock) && inExecution == old(inExecution)
        invariant currentQuantum == old(currentQuantum) && currentOverload == old(currentOverload)
        invariant completed == old(completed) && submitted == old(submitted)
        invariant admitted == DispatchOrder(due)
        invariant due != [] ==> due[0].start <= clock
        invariant forall p :: p in due ==> p.start <= clock
        invariant readyQueue == AdmitAll(old(readyQueue), admitted, algorithm)
        invariant log == old(log) + ReadyEvents(admitted)
        decreases |jobQueue|
      {
        var p := Last(jobQueue);
        assert ([p] + due)[0].start <= clock;
        PopOnto(jobQueue, due);
        FrontIsDispatchedLast(due, p);
        jobQueue := DropLast(jobQueue);
        AddToReadyQueue(p);
        AdmitAllSnoc(old(readyQueue), admitted, p, algorithm);
        ReadyEventsSnoc(admitted, p);
        admitted := admitted + [p];
        due := [p] + due;
        assert due[0].start <= clock;
      }
    }

    /** `_addToReadyQueue`. */
    method AddToReadyQueue(p: Process)
      modifies this`readyQueue, this`log
      ensures readyQueue == Admit(old(readyQueue), p, algorithm)
      ensures log == old(log) + [OnEnterReadyQueue(p)]
      ensures clock == old(clock) && inExecution == old(inExecution)
      ensures currentQuantum == old(currentQuantum) && currentOverload == old(currentOverload)
      ensures completed == old(completed) && submitted == old(submitted)
    {
      if algorithm.AdmitsAtFront() {
        readyQueue := [p] + readyQueue;
      } else {
        readyQueue := readyQueue + [p];
      }
      log := log + [OnEnterReadyQueue(p)];
    }

    /** `_syncReadyQueue`. */
    method SyncReadyQueue()
      modifies this`readyQueue
      ensures readyQueue == Arrange(old(readyQueue), algorithm)
      ensures clock == old(clock) && inExecution == old(inExecution)
      ensures currentQuantum == old(currentQuantum) && currentOverload == old(currentOverload)
      ensures completed == old(completed) && submitted == old(submitted)
    {
      if algorithm == SJF {
        readyQueue := SortDescending(readyQueue, ByDuration);
      } else if algorithm == EDF {
        readyQueue := SortDescending(readyQueue, ByDeadline);
      }
    }

    /** `_syncInExecution`: frozen during an overload; otherwise fill an
        empty slot from the back of the ready queue, retire a finished
        process, or (RR, EDF) preempt a process whose quantum is used up
        and start the overload. Each branch that empties the slot re-enters
        once, and the re-entry takes the idle branch. */
    method SyncInExecution()
      requires Core()
      modifies this`inExecution, this`readyQueue, this`log, this`currentQuantum,
        this`currentOverload, this`completed
      ensures Core() && Settled()
      ensures SlotView() ==
        SyncSlot(old(SlotView()), old(inExecution != null && inExecution.Finished()),
                 algorithm, quantum, overload)
      ensures old(log) <= log && old(completed) <= completed
      ensures clock == old(clock) && jobQueue == old(jobQueue) && submitted == old(submitted)
      decreases if inExecution == null then 0 else 1
    {
      SyncSlotGrows(SlotView(), inExecution != null && inExecution.Finished(), algorithm, quantum, overload);
      if currentOverload > 0 {
        return;
      }
      if inExecution == null {
        FillSlot();
      } else if algorithm.Preemptive() {
        if inExecution.Finished() {
          Retire();
          SyncInExecution();
        } else if currentQuantum == 0 {
          Preempt();
          SyncInExecution();
        }
      } else {
        if inExecution.Finished() {
          Retire();
          SyncInExecution();
        }
      }
    }

    /** The idle branch of `_syncInExecution`: the back of the ready queue,
        if there is one, takes the empty slot. */
    method FillSlot()
      requires Core() && inExecution == null && currentOverload == 0
      modifies this`inExecution, this`readyQueue, this`log
      ensures Core() && Settled()
      ensures SlotView() == Fill(old(SlotView()))
    {
      if readyQueue != [] {
        Dispatch(jobQueue, readyQueue, completed, submitted, clock, algorithm);
        inExecution := Last(readyQueue);
        readyQueue := DropLast(readyQueue);
        log := log + [OnEnterExecution(inExecution)];
      }
    }

    /** A finished process leaves the slot; under RR and EDF the quantum
        is reset for the next one. */
    method Retire()
      requires Core() && currentOverload == 0
      requires inExecution != null && inExecution.Finished()
      modifies this`inExecution, this`log, this`currentQuantum, this`completed
      ensures Core()
      ensures SlotView() == Vacated(old(SlotView()), algorithm, quantum)
    {
      Retirement(jobQueue, readyQueue, inExecution, completed, submitted, clock, algorithm);
      log := log + [OnLeavesExecution(inExecution)];
      completed := completed + {inExecution};
      inExecution := null;
      if algorithm.Preemptive() {
        currentQuantum := quantum;
      }
    }

    /** Quantum expiry under RR and EDF: the process goes back into the
        ready queue, which is put in order again, and the overload starts. */
    method Preempt()
      requires Core() && currentOverload == 0 && algorithm.Preemptive()
      requires inExecution != null && !inExecution.Finished()
      modifies this`inExecution, this`readyQueue, this`log, this`currentQuantum, this`currentOverload
      ensures Core()
      ensures SlotView() == Preempted(old(SlotView()), algorithm, quantum, overload)
    {
      var p := inExecution;
      Requeue(jobQueue, readyQueue, p, completed, submitted, clock, algorithm);
      log := log + [OnLeavesExecution(p)];
      AddToReadyQueue(p);
      inExecution := null;
      SyncReadyQueue();
      currentOverload := overload;
      currentQuantum := quantum;
    }
  }
}
