/**
 `DurableWait` (src/agent_workflows/segments.py) and the approval wait of
 `ToolExecutionWorkflow` (src/agent_workflows/tool_execution.py).  A workflow runs
 uninterrupted between two awaits, so a step is what happens from one await to the next;
 signals, time and every other transaction come in between.
 */
module DurableWaits {
  import opened Base
  import opened LeasePlane

  const PROBE_SECONDS := 30

  datatype Request = Request(run: RunId, execution: ExecutionId, wait: WaitId, deadline: nat, probed: bool)

  /** How `run` ends: a probed value, the bare deadline, `TimeoutError`, or another exception. */
  datatype Ending<+T> = Value(value: T) | Elapsed | TimedOut | Abandoned

  /** The await the coroutine is suspended at. */
  datatype Phase<+T> =
    | Idle
    | Beginning
    | Probing(observed: nat)
    | Sleeping(observed: nat, until: nat)
    | Finishing(ending: Ending<T>)
    | Ended(ending: Ending<T>)

  datatype State<+T> = State(tables: Tables, now: nat, waitId: Option<WaitId>, generation: nat, phase: Phase<T>)

  datatype Event<+T> =
    | Start
    | BeginAnswered
    | ProbeAnswered(answer: Option<T>)
    | ProbeFailed
    | Wake
    | Cancel
    | FinishAnswered
    | Notify(wait: WaitId)
    | Pass(seconds: nat)
    | Other(step: Step)          // any transaction, including repeats of this wait's own begin

  function StoredState<T>(ending: Ending<T>): WaitState {
    if ending.Value? || ending.Elapsed? then Resumed
    else if ending.TimedOut? then WaitExpired
    else WaitCancelled
  }

  predicate MayWake<T>(c: State<T>) {
    c.phase.Sleeping? && (c.generation != c.phase.observed || c.now >= c.phase.until)
  }

  /** After the probe, or without one: the deadline, then a bounded sleep. */
  function Settle<T>(q: Request, c: State<T>, observed: nat): State<T> {
    if c.now >= q.deadline then c.(phase := Finishing(if q.probed then TimedOut else Elapsed))
    else c.(phase := Sleeping(observed, if q.deadline - c.now < PROBE_SECONDS then q.deadline else c.now + PROBE_SECONDS))
  }

  /** The top of the loop. */
  function Turn<T>(q: Request, c: State<T>): State<T> {
    if q.probed then c.(phase := Probing(c.generation)) else Settle(q, c, c.generation)
  }

  function Apply<T>(q: Request, ttl: nat, c: State<T>, e: Event<T>): State<T> {
    match e
    case Start => if c.phase.Idle? then c.(waitId := Some(q.wait), phase := Beginning) else c
    case BeginAnswered =>
      if !c.phase.Beginning? then c
      else
        var (outcome, after) := BeginWait(c.tables, q.run, q.execution, q.wait);
        if outcome.Err? then c.(phase := Finishing(Abandoned)) else Turn(q, c.(tables := after))
    case ProbeAnswered(answer) =>
      if !c.phase.Probing? then c
      else if answer.Some? then c.(phase := Finishing(Value(answer.value)))
      else Settle(q, c, c.phase.observed)
    case ProbeFailed => if c.phase.Probing? then c.(phase := Finishing(Abandoned)) else c
    case Wake => if MayWake(c) then Turn(q, c) else c
    case Cancel =>
      if c.phase.Beginning? || c.phase.Probing? || c.phase.Sleeping? then c.(phase := Finishing(Abandoned))
      else if c.phase.Finishing? then c.(phase := Ended(Abandoned))    // finish_wait is an unshielded await too
      else c
    case FinishAnswered =>
      if !c.phase.Finishing? then c
      else
        var state := StoredState(c.phase.ending);
        var (active, after) := FinishWait(c.tables, q.run, q.execution, q.wait, state);
        c.(tables := after, waitId := None,
           phase := Ended(if state == Resumed && !active then Abandoned else c.phase.ending))
    case Notify(wait) => if c.waitId == Some(wait) then c.(generation := c.generation + 1) else c
    case Pass(seconds) => c.(now := c.now + seconds)
    case Other(step) => c.(tables := Next(c.tables, ttl, step))
  }

  function Run<T>(q: Request, ttl: nat, c: State<T>, events: seq<Event<T>>): State<T> {
    if events == [] then c
    else Apply(q, ttl, Run(q, ttl, c, events[..|events| - 1]), events[|events| - 1])
  }

  lemma {:induction false} RunSplits<T>(q: Request, ttl: nat, c: State<T>, first: seq<Event<T>>, second: seq<Event<T>>)
    ensures Run(q, ttl, c, first + second) == Run(q, ttl, Run(q, ttl, c, first), second)
  {
    if second == [] {
      assert first + second == first;
    } else {
      var last := |second| - 1;
      RunSplits(q, ttl, c, first, second[..last]);
      assert (first + second)[..|first + second| - 1] == first + second[..last];
    }
  }

  // ------------------------------------------------------------ notifications

  predicate Waits<T>(c: State<T>) { c.phase.Probing? || c.phase.Sleeping? }

  /** While it waits, the coroutine listens under its own id and has seen no later generation. */
  predicate Listens<T>(q: Request, c: State<T>) {
    && (!c.phase.Idle? && !c.phase.Ended? ==> c.waitId == Some(q.wait))
    && (Waits(c) ==> c.phase.observed <= c.generation)
    && (c.phase.Sleeping? ==> c.phase.until <= q.deadline)
  }

  /** A notification came since the probe in hand, or the one before this sleep, began. */
  predicate Notified<T>(c: State<T>) { Waits(c) && c.phase.observed < c.generation }

  predicate NoWake<T(!new)>(events: seq<Event<T>>) { forall i :: 0 <= i < |events| ==> !events[i].Wake? }

  lemma {:induction false} StaysNotified<T(!new)>(q: Request, ttl: nat, c: State<T>, events: seq<Event<T>>)
    requires Listens(q, c) && (Waits(c) ==> Notified(c)) && !c.phase.Beginning? && !c.phase.Idle? && NoWake(events)
    ensures var c' := Run(q, ttl, c, events);
      Listens(q, c') && (Waits(c') ==> Notified(c')) && !c'.phase.Beginning? && !c'.phase.Idle?
  {
    if events != [] {
      var last := |events| - 1;
      StaysNotified(q, ttl, c, events[..last]);
    }
  }

  lemma {:induction false} StaysListening<T(!new)>(q: Request, ttl: nat, c: State<T>, events: seq<Event<T>>)
    requires Listens(q, c)
    ensures Listens(q, Run(q, ttl, c, events))
  {
    if events != [] {
      StaysListening(q, ttl, c, events[..|events| - 1]);
    }
  }

  lemma {:induction false} StaysPastBegin<T(!new)>(q: Request, ttl: nat, c: State<T>, events: seq<Event<T>>)
    requires !c.phase.Beginning? && !c.phase.Idle?
    ensures !Run(q, ttl, c, events).phase.Beginning? && !Run(q, ttl, c, events).phase.Idle?
  {
    if events != [] {
      StaysPastBegin(q, ttl, c, events[..|events| - 1]);
    }
  }

  /**
   However signals, answers and time interleave: a notification that comes once a probe
   has begun is not slept through.  If the coroutine sleeps afterwards, it may wake at
   once, whatever the time, and its next probe takes the notification into account.
   */
  lemma {:induction false} NeverSleepsThrough<T(!new)>(q: Request, ttl: nat, c: State<T>, before: seq<Event<T>>, after: seq<Event<T>>)
    requires Listens(q, c) && c.phase.Probing? && NoWake(before) && NoWake(after)
    ensures var c' := Run(q, ttl, c, before + [Notify(q.wait)] + after);
      c'.phase.Sleeping? ==>
        MayWake(c') && Apply(q, ttl, c', Wake) == Turn(q, c') && c'.phase.observed < c'.generation
  {
    var heard := before + [Notify(q.wait)];
    var c1, c2 := Run(q, ttl, c, before), Run(q, ttl, c, heard);
    StaysListening(q, ttl, c, before);
    StaysPastBegin(q, ttl, c, before);
    assert heard[..|heard| - 1] == before;
    StaysNotified(q, ttl, c2, after);
    RunSplits(q, ttl, c, heard, after);
  }

  /** Without any notification, a sleeper may wake within half a minute, and by the deadline. */
  lemma {:induction false} SleepIsBounded<T>(q: Request, ttl: nat, c: State<T>, e: Event<T>)
    requires !c.phase.Sleeping? && Apply(q, ttl, c, e).phase.Sleeping?
    ensures c.now < Apply(q, ttl, c, e).phase.until <= c.now + PROBE_SECONDS
    ensures Apply(q, ttl, c, e).phase.until <= q.deadline
  {
  }

  /**
   A notification during a probe that answers nothing is taken up by another probe
   exactly when the answer comes before the deadline; from then on it is overlooked.
   */
  lemma {:induction false} LateNotificationIsOverlookedExactly<T>(q: Request, ttl: nat, c: State<T>)
    requires Listens(q, c) && c.phase.Probing? && Notified(c) && q.probed
    ensures var c' := Apply(q, ttl, c, ProbeAnswered(None));
      && (MayWake(c') && Apply(q, ttl, c', Wake).phase == Probing(c.generation) <==> c.now < q.deadline)
      && (c'.phase == Finishing(TimedOut) <==> c.now >= q.deadline)
  {
  }

  // ------------------------------------------------------------------ results

  predicate Resumable(q: Request, s: Tables) { ActiveRun(s, q.run) && OwnsExecution(s, q.run, q.execution) }

  lemma {:induction false} ValueWasProbed<T(!new)>(q: Request, ttl: nat, c: State<T>, events: seq<Event<T>>) returns (i: nat)
    requires c.phase.Idle? && Run(q, ttl, c, events).phase.Finishing? && Run(q, ttl, c, events).phase.ending.Value?
    ensures i < |events| && events[i] == ProbeAnswered(Some(Run(q, ttl, c, events).phase.ending.value))
  {
    var last := |events| - 1;
    var c1 := Run(q, ttl, c, events[..last]);
    if c1.phase.Finishing? {
      i := ValueWasProbed(q, ttl, c, events[..last]);
    } else {
      i := last;
    }
  }

  /**
   A wait returns a value only if a probe answered it, and the run was still active when
   the wait was finished, whatever signals came.
   */
  lemma {:induction false} ValueIsAuthoritative<T(!new)>(q: Request, ttl: nat, c: State<T>, events: seq<Event<T>>)
    returns (i: nat, j: nat)
    requires c.phase.Idle? && Run(q, ttl, c, events).phase.Ended? && Run(q, ttl, c, events).phase.ending.Value?
    ensures i < j < |events| && events[j] == FinishAnswered
    ensures events[i] == ProbeAnswered(Some(Run(q, ttl, c, events).phase.ending.value))
    ensures Resumable(q, Run(q, ttl, c, events[..j]).tables)
  {
    var last := |events| - 1;
    var c1 := Run(q, ttl, c, events[..last]);
    if c1.phase.Ended? {
      i, j := ValueIsAuthoritative(q, ttl, c, events[..last]);
      assert events[..last][..j] == events[..j];
    } else {
      i := ValueWasProbed(q, ttl, c, events[..last]);
      j := last;
    }
  }

  /** A probed wait ends at its deadline only by `TimeoutError`, and an unprobed one by resuming; neither does so early. */
  predicate EndsOnTime<T>(q: Request, c: State<T>) {
    c.phase.Finishing? || c.phase.Ended? ==>
      && (c.phase.ending.TimedOut? ==> q.probed && c.now >= q.deadline)
      && (c.phase.ending.Elapsed? ==> !q.probed && c.now >= q.deadline)
  }

  lemma {:induction false} DeadlinesAreKept<T(!new)>(q: Request, ttl: nat, c: State<T>, events: seq<Event<T>>)
    requires EndsOnTime(q, c) && (c.phase.Probing? ==> q.probed)
    ensures EndsOnTime(q, Run(q, ttl, c, events)) && (Run(q, ttl, c, events).phase.Probing? ==> q.probed)
  {
    if events != [] {
      DeadlinesAreKept(q, ttl, c, events[..|events| - 1]);
    }
  }

  // ---------------------------------------------------------------- approvals

  datatype ApprovalStatus = Approved | Declined | ApprovalExpired

  datatype Decision = ExecuteApproved | Report(status: ApprovalStatus) | Raise

  /** What `ToolExecutionWorkflow.run` does with the end of its approval wait. */
  function Decide(ending: Ending<ApprovalStatus>): Decision {
    match ending
    case Value(Approved) => ExecuteApproved
    case Value(status) => Report(status)
    case TimedOut => Report(ApprovalExpired)
    case Elapsed => Raise
    case Abandoned => Raise
  }

  /**
   The approved execution starts only after the status activity itself answered
   `approved`, before the wait was finished on a run that was still active.  Neither a
   signal nor the deadline starts it.
   */
  lemma {:induction false} ApprovalIsAuthoritative(q: Request, ttl: nat, c: State<ApprovalStatus>, events: seq<Event<ApprovalStatus>>)
    returns (i: nat, j: nat)
    requires c.phase.Idle? && Run(q, ttl, c, events).phase.Ended?
    requires Decide(Run(q, ttl, c, events).phase.ending) == ExecuteApproved
    ensures i < j < |events| && events[i] == ProbeAnswered(Some(Approved)) && events[j] == FinishAnswered
    ensures Resumable(q, Run(q, ttl, c, events[..j]).tables)
  {
    i, j := ValueIsAuthoritative(q, ttl, c, events);
  }

  // ------------------------------------------------------------- the wait row

  /** A transaction of somebody else's: it does not finish this wait, whose id names no other wait. */
  predicate Foreign(q: Request, step: Step) {
    && (step.DoFinishWait? ==> step.wait != q.wait)
    && (step.DoBeginWait? && step.wait == q.wait ==> step.run == q.run && step.execution == q.execution)
  }

  predicate Ours<T>(q: Request, e: Event<T>) { e.Other? ==> Foreign(q, e.step) }

  predicate Closed(q: Request, s: Tables) { q.run in s.runs && !s.runs[q.run].status.Executable() }

  /** From `begin_wait` to `finish_wait` the row is waiting, unless the run closed. */
  predicate Suspended<T>(q: Request, c: State<T>) {
    && (q.wait in c.tables.waits && !c.phase.Finishing? && !c.phase.Ended? ==>
          || c.tables.waits[q.wait] == Wait(q.run, q.execution, Waiting)
          || (c.tables.waits[q.wait] == Wait(q.run, q.execution, WaitCancelled) && Closed(q, c.tables)))
    && (Waits(c) ==> q.wait in c.tables.waits && OwnsExecution(c.tables, q.run, q.execution))
  }

  lemma {:induction false} TransactionKeepsSuspended(q: Request, ttl: nat, s: Tables, step: Step)
    requires Foreign(q, step)
    requires q.wait in s.waits ==>
      || s.waits[q.wait] == Wait(q.run, q.execution, Waiting)
      || (s.waits[q.wait] == Wait(q.run, q.execution, WaitCancelled) && Closed(q, s))
    ensures var s' := Next(s, ttl, step);
      && (q.wait in s.waits ==> q.wait in s'.waits)
      && (OwnsExecution(s, q.run, q.execution) ==> OwnsExecution(s', q.run, q.execution))
      && (q.wait in s'.waits ==>
            || s'.waits[q.wait] == Wait(q.run, q.execution, Waiting)
            || (s'.waits[q.wait] == Wait(q.run, q.execution, WaitCancelled) && Closed(q, s')))
  {
  }

  lemma {:induction false} StepKeepsSuspended<T>(q: Request, ttl: nat, c: State<T>, e: Event<T>)
    requires Suspended(q, c) && Ours(q, e)
    ensures Suspended(q, Apply(q, ttl, c, e))
  {
    if e.Other? && !c.phase.Finishing? && !c.phase.Ended? {
      TransactionKeepsSuspended(q, ttl, c.tables, e.step);
    }
  }

  /** Whatever runs beside it, a waiting workflow keeps every segment of its execution from starting. */
  lemma {:induction false} NothingRunsDuringWait<T(!new)>(q: Request, ttl: nat, c: State<T>, events: seq<Event<T>>, other: SegmentInput)
    requires Suspended(q, c) && forall i :: 0 <= i < |events| ==> Ours(q, events[i])
    ensures Suspended(q, Run(q, ttl, c, events))
    ensures var c' := Run(q, ttl, c, events);
      Waits(c') && other.execution == q.execution ==> AcquireSegment(c'.tables, ttl, other).0.Err?
  {
    if events != [] {
      var last := |events| - 1;
      NothingRunsDuringWait(q, ttl, c, events[..last], other);
      StepKeepsSuspended(q, ttl, Run(q, ttl, c, events[..last]), events[last]);
    }
    var c' := Run(q, ttl, c, events);
    if Waits(c') && other.execution == q.execution && c'.tables.waits[q.wait].state == Waiting {
      assert IsWaiting(c'.tables, q.execution);
    }
  }

  lemma {:induction false} StrandedWaitBlocks(q: Request, ttl: nat, s: Tables, steps: seq<Step>, other: SegmentInput)
    requires OwnsExecution(s, q.run, q.execution) && q.wait in s.waits && other.execution == q.execution
    requires s.waits[q.wait] == Wait(q.run, q.execution, Waiting)
          || (s.waits[q.wait] == Wait(q.run, q.execution, WaitCancelled) && Closed(q, s))
    requires forall i :: 0 <= i < |steps| ==> Foreign(q, steps[i])
    ensures AcquireSegment(Execute(s, ttl, steps), ttl, other).0.Err?
    decreases |steps|
  {
    if steps == [] {
      if s.waits[q.wait].state == Waiting {
        assert IsWaiting(s, q.execution);
      }
    } else {
      TransactionKeepsSuspended(q, ttl, s, steps[0]);
      StrandedWaitBlocks(q, ttl, Next(s, ttl, steps[0]), steps[1..], other);
    }
  }

  /** Whatever commits short of finishing the wait, `other` is never acquired. */
  ghost predicate NeverAcquired(q: Request, ttl: nat, s: Tables, other: SegmentInput) {
    forall steps {:trigger Execute(s, ttl, steps)} ::
      (forall i :: 0 <= i < |steps| ==> Foreign(q, steps[i])) ==> AcquireSegment(Execute(s, ttl, steps), ttl, other).0.Err?
  }

  /** Nothing but this wait keeps the execution from running. */
  predicate FreeButForWait(q: Request, s: Tables) {
    && ActiveRun(s, q.run) && OwnsExecution(s, q.run, q.execution) && s.executions[q.execution].status.Executable()
    && !Leased(s, q.execution)
    && forall w <- s.waits :: w != q.wait ==> s.waits[w].execution != q.execution || s.waits[w].state != Waiting
  }

  lemma {:induction false} FinishedWaitFrees(q: Request, ttl: nat, s: Tables, state: WaitState, other: SegmentInput)
    requires FreeButForWait(q, s) && q.wait in s.waits && s.waits[q.wait] == Wait(q.run, q.execution, Waiting)
    requires state != Waiting && other.run == q.run && other.execution == q.execution && other.segment !in s.segments
    ensures !NeverAcquired(q, ttl, FinishWait(s, q.run, q.execution, q.wait, state).1, other)
  {
    var after := FinishWait(s, q.run, q.execution, q.wait, state).1;
    assert Execute(after, ttl, []) == after;
    assert !IsWaiting(after, q.execution);
  }

  /**
   A wait that ends by a cancelled `finish_wait` leaves a row that keeps every segment of
   the execution from starting ever again, short of finishing that wait; and only such an
   end does: after any other, a new segment starts at once where nothing else forbids it.
   */
  lemma {:induction false} CancelledFinishStrandsExactly<T>(q: Request, ttl: nat, c: State<T>, e: Event<T>, other: SegmentInput)
    requires c.phase.Finishing? && Apply(q, ttl, c, e).phase.Ended?
    requires OwnsExecution(c.tables, q.run, q.execution) && q.wait in c.tables.waits
    requires c.tables.waits[q.wait] == Wait(q.run, q.execution, Waiting) && other.execution == q.execution
    ensures e.Cancel? ==> NeverAcquired(q, ttl, Apply(q, ttl, c, e).tables, other)
    ensures FreeButForWait(q, c.tables) && other.run == q.run && other.segment !in c.tables.segments ==>
      (NeverAcquired(q, ttl, Apply(q, ttl, c, e).tables, other) <==> e.Cancel?)
  {
    if e.Cancel? {
      forall steps | forall i :: 0 <= i < |steps| ==> Foreign(q, steps[i])
        ensures AcquireSegment(Execute(c.tables, ttl, steps), ttl, other).0.Err?
      {
        StrandedWaitBlocks(q, ttl, c.tables, steps, other);
      }
    } else if FreeButForWait(q, c.tables) && other.run == q.run && other.segment !in c.tables.segments {
      FinishedWaitFrees(q, ttl, c.tables, StoredState(c.phase.ending), other);
    }
  }

  // ------------------------------------------------------------------ in place

  /** The waiting object: each method is what it does at one await. */
  class DurableWait<T> {
    const request: Request
    const ttl: nat
    var tables: Tables                 // the database its control activities write to
    var now: nat                       // workflow.now()
    var waitId: Option<WaitId>
    var generation: nat
    var phase: Phase<T>

    ghost function Stored(): State<T>
      reads this
    {
      State(tables, now, waitId, generation, phase)
    }

    constructor (request: Request, ttl: nat, tables: Tables, now: nat)
      ensures this.request == request && this.ttl == ttl
      ensures Stored() == State(tables, now, None, 0, Idle) && Listens(request, Stored())
    {
      this.request, this.ttl, this.tables, this.now := request, ttl, tables, now;
      waitId, generation, phase := None, 0, Idle;
    }

    method Notify(wait: WaitId)
      requires Listens(request, Stored())
      modifies this`generation
      ensures Stored() == Apply(request, ttl, old(Stored()), Event.Notify(wait)) && Listens(request, Stored())
      ensures old(Waits(Stored())) && wait == request.wait ==> Notified(Stored())
    {
      if waitId == Some(wait) {
        generation := generation + 1;
      }
    }

    method Begin()
      requires Listens(request, Stored()) && phase.Beginning?
      modifies this`tables, this`phase
      ensures Stored() == Apply(request, ttl, old(Stored()), BeginAnswered) && Listens(request, Stored())
    {
      var (outcome, after) := BeginWait(tables, request.run, request.execution, request.wait);
      if outcome.Err? {
        phase := Finishing(Abandoned);
        return;
      }
      tables := after;
      TakeTurn();
    }

    /** The loop body up to its next await. */
    method TakeTurn()
      modifies this`phase
      ensures Stored() == Turn(request, old(Stored()))
    {
      if request.probed {
        phase := Probing(generation);
      } else {
        CheckDeadline(generation);
      }
    }

    method CheckDeadline(observed: nat)
      modifies this`phase
      ensures Stored() == Settle(request, old(Stored()), observed)
    {
      if now >= request.deadline {
        phase := Finishing(if request.probed then TimedOut else Elapsed);
        return;
      }
      var remaining := request.deadline - now;
      phase := Sleeping(observed, now + if remaining < PROBE_SECONDS then remaining else PROBE_SECONDS);
    }

    method Answer(answer: Option<T>)
      requires Listens(request, Stored()) && phase.Probing?
      modifies this`phase
      ensures Stored() == Apply(request, ttl, old(Stored()), ProbeAnswered(answer)) && Listens(request, Stored())
      ensures phase.Sleeping? && old(Notified(Stored())) ==> MayWake(Stored())
    {
      if answer.Some? {
        phase := Finishing(Value(answer.value));
      } else {
        CheckDeadline(phase.observed);
      }
    }

    method WakeUp()
      requires Listens(request, Stored()) && MayWake(Stored())
      modifies this`phase
      ensures Stored() == Apply(request, ttl, old(Stored()), Wake) && Listens(request, Stored())
    {
      TakeTurn();
    }

    method Finish() returns (ending: Ending<T>)
      requires Listens(request, Stored()) && phase.Finishing?
      modifies this`tables, this`waitId, this`phase
      ensures Stored() == Apply(request, ttl, old(Stored()), FinishAnswered) && phase == Ended(ending)
      ensures ending.Value? ==> old(phase.ending) == ending && Resumable(request, old(tables))
    {
      ending := phase.ending;
      var state := StoredState(ending);
      var (active, after) := FinishWait(tables, request.run, request.execution, request.wait, state);
      tables, waitId := after, None;
      if state == Resumed && !active {
        ending := Abandoned;
      }
      phase := Ended(ending);
    }
  }
}
