/** `_syncInExecution` on values: the execution slot, the ready queue,
    the notifications, the two countdowns and the finished set, and the
    state machine that decides who holds the slot. */
module Slots {
  import opened Processes
  import opened ReadyQueues

  /** The part of the scheduler that `_syncInExecution` reads and writes. */
  datatype SlotState = SlotState(
    running: Process?,     // `_inExecution`
    ready: seq<Process>,   // `_readyQueue`
    log: seq<Event>,       // the notifications fired so far
    quantumLeft: int,      // `_currentQuantum`
    overloadLeft: int,     // `_currentOverload`
    done: set<Process>)    // the processes that left the slot finished

  /** The slot as a queue of at most one process. */
  function SlotOf(p: Process?): seq<Process> {
    if p == null then [] else [p]
  }

  /** The processes held by the slot, the ready queue and the finished set. */
  function Members(s: SlotState): multiset<Process> {
    multiset(SlotOf(s.running)) + multiset(s.ready) + multiset(s.done)
  }

  /** Bounds of the countdowns: an overload keeps the slot empty, an empty
      slot has its whole quantum ahead, and FIFO and SJF never count down. */
  predicate Countdown(s: SlotState, alg: Algorithm, quantum: int, overload: int) {
    && 0 <= s.quantumLeft <= quantum
    && 0 <= s.overloadLeft <= overload
    && (s.overloadLeft > 0 ==> s.running == null)
    && (s.running == null ==> s.quantumLeft == quantum)
    && (!alg.Preemptive() ==> s.quantumLeft == quantum && s.overloadLeft == 0)
  }

  /** The idle branch: the back of the ready queue, if any, enters the slot. */
  function Fill(s: SlotState): SlotState {
    if s.ready == [] then s
    else s.(running := Last(s.ready), ready := DropLast(s.ready),
            log := s.log + [OnEnterExecution(Last(s.ready))])
  }

  /** A finished process leaves the slot; RR and EDF reset the quantum. */
  function Vacated(s: SlotState, alg: Algorithm, quantum: int): SlotState
    requires s.running != null
  {
    s.(running := null, log := s.log + [OnLeavesExecution(s.running)],
       done := s.done + {s.running},
       quantumLeft := if alg.Preemptive() then quantum else s.quantumLeft)
  }

  /** Quantum expiry: the process goes back into the ready queue, the
      queue is put in order again, the overload starts and the quantum is
      reset. */
  function Preempted(s: SlotState, alg: Algorithm, quantum: int, overload: int): SlotState
    requires s.running != null
  {
    s.(running := null, ready := Arrange(Admit(s.ready, s.running, alg), alg),
       log := s.log + [OnLeavesExecution(s.running), OnEnterReadyQueue(s.running)],
       overloadLeft := overload, quantumLeft := quantum)
  }

  /** `_syncInExecution`, where `finished` tells whether the process in the
      slot has done all its work. A branch that empties the slot re-enters. */
  function SyncSlot(s: SlotState, finished: bool, alg: Algorithm, quantum: int, overload: int): SlotState
    decreases if s.running == null then 0 else 1
  {
    if s.overloadLeft > 0 then s
    else if s.running == null then Fill(s)
    else if alg.Preemptive() then
      if finished then SyncSlot(Vacated(s, alg, quantum), false, alg, quantum, overload)
      else if s.quantumLeft == 0 then SyncSlot(Preempted(s, alg, quantum, overload), false, alg, quantum, overload)
      else s
    else if finished then SyncSlot(Vacated(s, alg, quantum), false, alg, quantum, overload)
    else s
  }

  /** The countdown bounds hold after a sync, and a process left in the
      slot under RR or EDF has quantum left to run. */
  lemma {:induction false} SyncSlotCountdown(s: SlotState, finished: bool, alg: Algorithm,
                                             quantum: int, overload: int)
    requires 0 < quantum && 0 <= overload && Countdown(s, alg, quantum, overload)
    ensures Countdown(SyncSlot(s, finished, alg, quantum, overload), alg, quantum, overload)
    ensures var r := SyncSlot(s, finished, alg, quantum, overload);
      r.running != null && alg.Preemptive() ==> r.quantumLeft > 0
    decreases if s.running == null then 0 else 1
  {
    if s.overloadLeft > 0 || s.running == null {
    } else if finished {
      SyncSlotCountdown(Vacated(s, alg, quantum), false, alg, quantum, overload);
    } else if alg.Preemptive() && s.quantumLeft == 0 {
      SyncSlotCountdown(Preempted(s, alg, quantum, overload), false, alg, quantum, overload);
    }
  }

  /** The slot is never left idle while work waits: after a sync with no
      overload on, an empty slot means an empty ready queue. */
  lemma {:induction false} WorkConserving(s: SlotState, finished: bool, alg: Algorithm,
                                          quantum: int, overload: int)
    ensures var r := SyncSlot(s, finished, alg, quantum, overload);
      r.running == null && r.overloadLeft == 0 ==> r.ready == []
    decreases if s.running == null then 0 else 1
  {
    if s.overloadLeft > 0 || s.running == null {
    } else if finished {
      WorkConserving(Vacated(s, alg, quantum), false, alg, quantum, overload);
    } else if alg.Preemptive() && s.quantumLeft == 0 {
      WorkConserving(Preempted(s, alg, quantum, overload), false, alg, quantum, overload);
    }
  }

  /** A sync from a settled slot, one holding an unfinished process with
      quantum left, finishes nobody and leaves a running process in place. */
  lemma SettledStays(s: SlotState, alg: Algorithm, quantum: int, overload: int)
    requires s.running != null && alg.Preemptive() ==> s.quantumLeft > 0
    ensures var r := SyncSlot(s, false, alg, quantum, overload);
      && r.done == s.done
      && (s.running != null ==> r.running == s.running)
      && (s.overloadLeft > 0 ==> r == s)
  {
  }

  /** A sync only appends notifications and only adds finished processes. */
  lemma {:induction false} SyncSlotGrows(s: SlotState, finished: bool, alg: Algorithm,
                                         quantum: int, overload: int)
    ensures s.log <= SyncSlot(s, finished, alg, quantum, overload).log
    ensures s.done <= SyncSlot(s, finished, alg, quantum, overload).done
    decreases if s.running == null then 0 else 1
  {
    if s.overloadLeft > 0 || s.running == null {
    } else if finished {
      var v := Vacated(s, alg, quantum);
      SyncSlotGrows(v, false, alg, quantum, overload);
    } else if alg.Preemptive() && s.quantumLeft == 0 {
      var v := Preempted(s, alg, quantum, overload);
      SyncSlotGrows(v, false, alg, quantum, overload);
    }
  }

  /** A sync leaves everything as it was exactly when an overload is on,
      or the slot and the ready queue are both empty, or the process in the
      slot is unfinished and not preempted. */
  lemma SyncSlotIdle(s: SlotState, finished: bool, alg: Algorithm, quantum: int, overload: int)
    ensures SyncSlot(s, finished, alg, quantum, overload) == s <==>
      || s.overloadLeft > 0
      || (s.running == null && s.ready == [])
      || (s.running != null && !finished && !(alg.Preemptive() && s.quantumLeft == 0))
  {
    var r := SyncSlot(s, finished, alg, quantum, overload);
    if s.overloadLeft == 0 && s.running != null && (finished || (alg.Preemptive() && s.quantumLeft == 0)) {
      var v := if finished then Vacated(s, alg, quantum) else Preempted(s, alg, quantum, overload);
      assert r == SyncSlot(v, false, alg, quantum, overload);
      SyncSlotGrows(v, false, alg, quantum, overload);
      assert |r.log| > |s.log|;
    }
  }

  /** FIFO and SJF never preempt: the process in the slot keeps it exactly
      as long as it is unfinished. */
  lemma NonPreemptive(s: SlotState, finished: bool, alg: Algorithm, quantum: int, overload: int)
    requires !alg.Preemptive() && Countdown(s, alg, quantum, overload)
    requires s.running != null && s.running !in s.ready
    ensures SyncSlot(s, finished, alg, quantum, overload).running == s.running <==> !finished
  {
    if finished {
      var v := Vacated(s, alg, quantum);
      assert SyncSlot(s, finished, alg, quantum, overload) == Fill(v);
      if v.ready != [] {
        assert Last(v.ready) in s.ready;
      }
    }
  }

  /** A finished process leaves the slot for the finished set, with a
      leave notification, and under RR and EDF the quantum is reset for
      whoever takes the slot next. */
  lemma FinishedLeaves(s: SlotState, alg: Algorithm, quantum: int, overload: int)
    requires s.running != null && s.running !in s.ready && s.overloadLeft == 0
    ensures var r := SyncSlot(s, true, alg, quantum, overload);
      && r.running != s.running && r.done == s.done + {s.running}
      && s.log + [OnLeavesExecution(s.running)] <= r.log
      && (alg.Preemptive() ==> r.quantumLeft == quantum)
  {
    var v := Vacated(s, alg, quantum);
    assert SyncSlot(s, true, alg, quantum, overload) == Fill(v);
    if v.ready != [] {
      assert Last(v.ready) in s.ready;
    }
  }

  /** Under RR and EDF a process whose quantum is used up leaves the slot,
      the overload starts and the quantum is reset; the process goes back
      into the ready queue, or straight back into the slot when there is no
      overload and the queue holds nobody ahead of it. */
  lemma QuantumExpiry(s: SlotState, alg: Algorithm, quantum: int, overload: int)
    requires alg.Preemptive() && s.running != null
    requires s.overloadLeft == 0 && s.quantumLeft == 0
    ensures var r := SyncSlot(s, false, alg, quantum, overload);
      && r.quantumLeft == quantum && r.overloadLeft == overload
      && (overload > 0 ==> r.running == null && s.running in r.ready)
      && (overload == 0 ==> r.running != null && (r.running == s.running || s.running in r.ready))
  {
    var p := Preempted(s, alg, quantum, overload);
    AdmitKeepsMembers(s.ready, s.running, alg);
    ArrangeKeepsMembers(Admit(s.ready, s.running, alg), alg);
    assert s.running in multiset(p.ready);
    if overload == 0 {
      assert p.ready == DropLast(p.ready) + [Last(p.ready)];
      assert s.running in DropLast(p.ready) + [Last(p.ready)];
    }
  }

  /** Dispatching moves the back of the ready queue into the slot. */
  lemma FillKeepsMembers(s: SlotState)
    requires s.running == null
    ensures Members(Fill(s)) == Members(s)
  {
    if s.ready != [] {
      assert s.ready == DropLast(s.ready) + [Last(s.ready)];
    }
  }

  /** Retiring moves the process in the slot into the finished set. */
  lemma VacatedKeepsMembers(s: SlotState, alg: Algorithm, quantum: int)
    requires s.running != null && s.running !in s.done
    ensures Members(Vacated(s, alg, quantum)) == Members(s)
  {
    assert multiset(s.done + {s.running}) == multiset(s.done) + multiset{s.running};
  }

  /** Preempting moves the process in the slot into the ready queue. */
  lemma PreemptedKeepsMembers(s: SlotState, alg: Algorithm, quantum: int, overload: int)
    requires s.running != null
    ensures Members(Preempted(s, alg, quantum, overload)) == Members(s)
  {
    AdmitKeepsMembers(s.ready, s.running, alg);
    ArrangeKeepsMembers(Admit(s.ready, s.running, alg), alg);
  }

  /** The slot, the ready queue and the finished set keep the same
      processes, each once: a process only moves between them. */
  lemma {:induction false} SyncSlotKeepsMembers(s: SlotState, finished: bool, alg: Algorithm,
                                                quantum: int, overload: int)
    requires s.running == null || s.running !in s.done
    ensures Members(SyncSlot(s, finished, alg, quantum, overload)) == Members(s)
    decreases if s.running == null then 0 else 1
  {
    if s.overloadLeft > 0 {
    } else if s.running == null {
      FillKeepsMembers(s);
    } else if finished {
      VacatedKeepsMembers(s, alg, quantum);
      SyncSlotKeepsMembers(Vacated(s, alg, quantum), false, alg, quantum, overload);
    } else if alg.Preemptive() && s.quantumLeft == 0 {
      PreemptedKeepsMembers(s, alg, quantum, overload);
      SyncSlotKeepsMembers(Preempted(s, alg, quantum, overload), false, alg, quantum, overload);
    }
  }

  /** Under SJF (EDF), `p` has a duration (deadline) no larger than any in `q`. */
  ghost predicate Precedes(p: Process, q: seq<Process>, alg: Algorithm)
  {
    match alg
    case SJF => forall r :: r in q ==> p.duration <= r.duration
    case EDF => forall r :: r in q ==> p.deadline <= r.deadline
    case _ => true
  }

  /** The back of an ordered ready queue precedes everything left behind it. */
  lemma BackPrecedes(q: seq<Process>, alg: Algorithm)
    requires q != [] && Ordered(q, alg)
    ensures Ordered(DropLast(q), alg)
    ensures Precedes(Last(q), DropLast(q), alg)
  {
    assert q == DropLast(q) + [Last(q)];
    assert forall r :: r in DropLast(q) ==> r in q;
    match alg
    case SJF =>
      BackHasSmallestKey(q, ByDuration);
      SplitDescending(q, DropLast(q), [Last(q)], ByDuration);
    case EDF =>
      BackHasSmallestKey(q, ByDeadline);
      SplitDescending(q, DropLast(q), [Last(q)], ByDeadline);
    case _ =>
  }

  /** The ready queue stays in order, and a process that enters the slot
      precedes every process left in the queue; that includes a process
      preempted and selected again within the same sync. */
  lemma {:induction false} SyncSlotPicksFirst(s: SlotState, finished: bool, alg: Algorithm,
                                              quantum: int, overload: int)
    requires Ordered(s.ready, alg)
    ensures var r := SyncSlot(s, finished, alg, quantum, overload);
      && Ordered(r.ready, alg)
      && (r.running != null && r != s ==> Precedes(r.running, r.ready, alg))
    decreases if s.running == null then 0 else 1
  {
    if s.overloadLeft > 0 {
    } else if s.running == null {
      if s.ready != [] {
        BackPrecedes(s.ready, alg);
      }
    } else if finished {
      SyncSlotPicksFirst(Vacated(s, alg, quantum), false, alg, quantum, overload);
    } else if alg.Preemptive() && s.quantumLeft == 0 {
      SyncSlotPicksFirst(Preempted(s, alg, quantum, overload), false, alg, quantum, overload);
    }
  }
}
