/** A unit of scheduled work: fixed timing parameters, validated when the
    process is built, and a counter of the ticks of work done so far.
    The three per-process callbacks (start, tick, finish) and the three
    scheduler-level callbacks are modelled as events appended to a log. */
module Processes {

  /** The four reasons a process cannot be built, in the order they are checked. */
  datatype ArgumentError =
    | StartNegative          // start < 0
    | DurationNotPositive    // duration <= 0
    | DeadlineNotPositive    // deadline <= 0
    | DeadlineNotAfterStart  // deadline <= start

  datatype Outcome = Pass | Fail(error: ArgumentError)

  datatype Result<T> = Success(value: T) | Failure(error: ArgumentError)

  /** One observer notification; `p` is the process it concerns. */
  datatype Event =
    | OnStart(p: Process)
    | OnTick(p: Process)
    | OnFinish(p: Process)
    | OnEnterReadyQueue(p: Process)
    | OnEnterExecution(p: Process)
    | OnLeavesExecution(p: Process)

  /** The argument checks of the process constructor: the first check that
      fails decides the error, and a process exists only if all pass. */
  function CheckArguments(start: int, duration: int, deadline: int): (r: Outcome)
    ensures r.Pass? <==> 0 <= start < deadline && 0 < duration
    ensures r == Fail(StartNegative) <==> start < 0
    ensures r == Fail(DurationNotPositive) <==> 0 <= start && duration <= 0
    ensures r == Fail(DeadlineNotPositive) <==> 0 <= start && 0 < duration && deadline <= 0
    ensures r == Fail(DeadlineNotAfterStart) <==> 0 <= start && 0 < duration && 0 < deadline <= start
  {
    if start < 0 then Fail(StartNegative)
    else if duration <= 0 then Fail(DurationNotPositive)
    else if deadline <= 0 then Fail(DeadlineNotPositive)
    else if deadline <= start then Fail(DeadlineNotAfterStart)
    else Pass
  }

  /** The notifications of one tick of `p` when it had done `before` ticks
      of work: start on the first tick, finish on the tick that completes
      the duration, and the tick notification in between. */
  function TickEvents(p: Process, before: nat): seq<Event> {
    (if before == 0 then [OnStart(p)] else [])
    + [OnTick(p)]
    + (if before + 1 == p.duration then [OnFinish(p)] else [])
  }

  /** Which notifications a tick fires, and that it fires each at most once. */
  lemma TickEventsFire(p: Process, before: nat)
    ensures OnStart(p) in TickEvents(p, before) <==> before == 0
    ensures OnFinish(p) in TickEvents(p, before) <==> before + 1 == p.duration
    ensures OnTick(p) in TickEvents(p, before)
    ensures forall e :: e in TickEvents(p, before) ==> e.p == p && !e.OnEnterReadyQueue? && !e.OnEnterExecution? && !e.OnLeavesExecution?
    ensures |TickEvents(p, before)| == 1 + (if before == 0 then 1 else 0) + (if before + 1 == p.duration then 1 else 0)
  {
  }

  class Process {
    const id: int
    const start: int
    const duration: int
    const deadline: int
    var elapsed: nat

    /** The timing parameters passed the constructor's checks. */
    predicate WellFormed() {
      CheckArguments(start, duration, deadline).Pass?
    }

    /** Whether the process has done any work. */
    predicate Started()
      reads this
    {
      elapsed > 0
    }

    /** Whether the process has done all its work. */
    predicate Finished()
      reads this
    {
      elapsed >= duration
    }

    /** `New` performs the checks and then builds the process with this. */
    constructor (id: int, start: int, duration: int, deadline: int)
      requires CheckArguments(start, duration, deadline).Pass?
      ensures this.id == id && this.start == start
      ensures this.duration == duration && this.deadline == deadline
      ensures WellFormed() && elapsed == 0
      ensures !Started() && !Finished()
    {
      this.id := id;
      this.start := start;
      this.duration := duration;
      this.deadline := deadline;
      elapsed := 0;
    }

    /** One tick of work; returns the notifications it fires, in order. */
    method Tick() returns (events: seq<Event>)
      modifies this
      ensures elapsed == old(elapsed) + 1
      ensures Started()
      ensures events == TickEvents(this, old(elapsed))
    {
      events := if elapsed == 0 then [OnStart(this)] else [];
      elapsed := elapsed + 1;
      events := events + [OnTick(this)];
      if elapsed == duration {
        events := events + [OnFinish(this)];
      }
    }
  }

  /** Building a process: fails with the first violated check, otherwise
      yields a fresh process that has done no work. */
  method New(id: int, start: int, duration: int, deadline: int) returns (r: Result<Process>)
    ensures CheckArguments(start, duration, deadline).Fail? <==> r.Failure?
    ensures r.Failure? ==> Fail(r.error) == CheckArguments(start, duration, deadline)
    ensures r.Success? ==> fresh(r.value) && r.value.WellFormed()
    ensures r.Success? ==> r.value.id == id && r.value.start == start
    ensures r.Success? ==> r.value.duration == duration && r.value.deadline == deadline
    ensures r.Success? ==> r.value.elapsed == 0
  {
    var check := CheckArguments(start, duration, deadline);
    if check.Fail? {
      return Failure(check.error);
    }
    var p := new Process(id, start, duration, deadline);
    r := Success(p);
  }
}
