/**
 `execute_segment` (src/agent_workflows/segments.py): one activity attempt per segment,
 every segment released before the next attempt waits.  Between any two awaits, any
 transaction may commit, a delayed or repeated acquisition of an earlier segment included.
 */
module SegmentLoop {
  import opened Base
  import opened LeasePlane
  import opened LeaseSafety

  /** How the activity of one attempt ended; `Listed` is a type the caller's policy does not retry. */
  datatype Report = Returned | WasCancelled | NotExecutable | StaleToken | NonRetryable | Listed | Retryable

  datatype Ending = Completed | Stopped | Raised

  datatype Phase =
    | Acquiring
    | Working
    | Releasing(verdict: Option<Ending>)   // None: the attempt failed and may be repeated
    | Pausing
    | Ended(ending: Ending)

  /** `used` holds the segments of all attempts so far, `tokens` the fence of each dispatched activity. */
  datatype State = State(tables: Tables, used: seq<SegmentInput>, tokens: seq<nat>, phase: Phase)

  datatype Request = Request(run: RunId, execution: ExecutionId, attempts: nat)

  datatype Event =
    | Attempt(segment: SegmentId)
    | AcquireAnswered
    | ActivityEnded(report: Report)
    | Interrupted                      // a cancellation, wherever the call awaits
    | ReleaseAnswered
    | Other(step: Step)

  /** Whether another attempt may follow, or how the call ends. */
  function Classify(report: Report): Option<Ending> {
    match report
    case Returned => Some(Completed)
    case WasCancelled => Some(Stopped)
    case NotExecutable => Some(Stopped)
    case NonRetryable => Some(Raised)
    case Listed => Some(Raised)
    case StaleToken => None
    case Retryable => None
  }

  function Current(c: State): SegmentInput
    requires c.used != []
  {
    c.used[|c.used| - 1]
  }

  predicate MayAttempt(q: Request, c: State) {
    (c.phase.Pausing? || (c.phase.Acquiring? && c.used == [])) && |c.used| < q.attempts
  }

  function Apply(q: Request, ttl: nat, c: State, e: Event): State {
    match e
    case Attempt(segment) =>
      // uuid4: a segment id nobody used before
      if MayAttempt(q, c) && segment !in c.tables.segments && forall i :: 0 <= i < |c.used| ==> c.used[i].segment != segment
      then c.(used := c.used + [SegmentInput(q.run, q.execution, segment)], phase := Acquiring)
      else c
    case AcquireAnswered =>
      if !c.phase.Acquiring? || c.used == [] then c
      else
        var (outcome, after) := AcquireSegment(c.tables, ttl, Current(c));
        if outcome.Ok? then c.(tables := after, tokens := c.tokens + [outcome.value], phase := Working)
        else if outcome.error == LeaseConflict then c
        else c.(phase := Releasing(Some(if outcome.error == RunNotExecutable then Stopped else Raised)))
    case ActivityEnded(report) => if c.phase.Working? then c.(phase := Releasing(Classify(report))) else c
    case Interrupted =>
      if (c.phase.Acquiring? && c.used != []) || c.phase.Working? then c.(phase := Releasing(Some(Stopped)))
      // the release is an await of its own, unshielded: cancelled before it commits, it is given up
      else if c.phase.Releasing? || c.phase.Pausing? then c.(phase := Ended(Stopped))
      else c
    case ReleaseAnswered =>
      if !c.phase.Releasing? || c.used == [] then c
      else
        var (outcome, after) := ReleaseSegment(c.tables, Current(c));
        // the release activity raises its errors as they are: no type that ends the retries, which are unbounded
        if outcome.Err? then c
        else c.(tables := after,
                phase := if c.phase.verdict.Some? then Ended(c.phase.verdict.value)
                         else if |c.used| >= q.attempts then Ended(Raised)
                         else Pausing)
    case Other(step) => c.(tables := Next(c.tables, ttl, step))
  }

  function Run(q: Request, ttl: nat, c: State, events: seq<Event>): State
    decreases |events|
  {
    if events == [] then c else Run(q, ttl, Apply(q, ttl, c, events[0]), events[1..])
  }

  // ------------------------------------------------------------- released segments

  /** The segments that must be gone: all of them during a backoff, all but the last otherwise. */
  function Gone(c: State): seq<SegmentInput> {
    if c.used == [] then []
    else if c.phase.Pausing? then c.used
    else c.used[..|c.used| - 1]
  }

  ghost predicate IsGone(q: Request, s: Tables, g: SegmentInput) {
    g.run == q.run && g.execution == q.execution && OwnsExecution(s, q.run, q.execution) && Buried(s, g)
  }

  ghost predicate AllBuried(q: Request, s: Tables, segments: seq<SegmentInput>) {
    forall i :: 0 <= i < |segments| ==> IsGone(q, s, segments[i])
  }

  ghost predicate Inv(q: Request, c: State) {
    && OwnersAreOpen(c.tables) && AllBuried(q, c.tables, Gone(c))
    && (forall i :: 0 <= i < |c.used| ==> c.used[i].run == q.run && c.used[i].execution == q.execution)
    && (c.used == [] ==> c.phase.Acquiring?)
    && |c.used| <= q.attempts
  }

  lemma {:induction false} TransactionKeepsBuried(q: Request, ttl: nat, s: Tables, step: Step, segments: seq<SegmentInput>)
    requires OwnersAreOpen(s) && AllBuried(q, s, segments)
    ensures OwnersAreOpen(Next(s, ttl, step)) && AllBuried(q, Next(s, ttl, step), segments)
  {
    StepKeepsOwnersOpen(s, ttl, step);
    forall i | 0 <= i < |segments|
      ensures IsGone(q, Next(s, ttl, step), segments[i])
    {
      assert IsGone(q, s, segments[i]);
      StepKeepsBuried(s, ttl, step, segments[i]);
    }
  }

  lemma {:induction false} ReleaseBuries(q: Request, ttl: nat, c: State)
    requires Inv(q, c) && c.phase.Releasing? && ReleaseSegment(c.tables, Current(c)).0.Ok?
    ensures AllBuried(q, ReleaseSegment(c.tables, Current(c)).1, c.used)
  {
    var last := Current(c);
    var after := ReleaseSegment(c.tables, last).1;
    TransactionKeepsBuried(q, ttl, c.tables, DoRelease(last), Gone(c));
    assert Buried(after, last);
    forall i | 0 <= i < |c.used|
      ensures IsGone(q, after, c.used[i])
    {
      if i < |c.used| - 1 {
        assert Gone(c)[i] == c.used[i];
      }
    }
  }

  lemma {:induction false} ReleaseKeepsInv(q: Request, ttl: nat, c: State)
    requires Inv(q, c)
    ensures Inv(q, Apply(q, ttl, c, ReleaseAnswered))
  {
    if c.phase.Releasing? && ReleaseSegment(c.tables, Current(c)).0.Ok? {
      StepKeepsOwnersOpen(c.tables, ttl, DoRelease(Current(c)));
      ReleaseBuries(q, ttl, c);
    }
  }

  lemma {:induction false} AcquireKeepsInv(q: Request, ttl: nat, c: State)
    requires Inv(q, c)
    ensures Inv(q, Apply(q, ttl, c, AcquireAnswered))
  {
    if c.phase.Acquiring? && c.used != [] {
      TransactionKeepsBuried(q, ttl, c.tables, DoAcquire(Current(c)), Gone(c));
    }
  }

  /** Steps of the workflow alone: a segment stays gone, and a new one is the last. */
  lemma {:induction false} QuietKeepsInv(q: Request, ttl: nat, c: State, e: Event)
    requires Inv(q, c) && (e.Attempt? || e.ActivityEnded? || e.Interrupted?)
    ensures Inv(q, Apply(q, ttl, c, e))
  {
    var c' := Apply(q, ttl, c, e);
    assert c'.tables == c.tables;
    assert Gone(c') <= Gone(c);
  }

  lemma {:induction false} StepKeepsInv(q: Request, ttl: nat, c: State, e: Event)
    requires Inv(q, c)
    ensures Inv(q, Apply(q, ttl, c, e))
  {
    if e.Other? {
      TransactionKeepsBuried(q, ttl, c.tables, e.step, Gone(c));
    } else if e.AcquireAnswered? {
      AcquireKeepsInv(q, ttl, c);
    } else if e.ReleaseAnswered? {
      ReleaseKeepsInv(q, ttl, c);
    } else {
      QuietKeepsInv(q, ttl, c, e);
    }
  }

  lemma {:induction false} RunKeepsInv(q: Request, ttl: nat, c: State, events: seq<Event>)
    requires Inv(q, c)
    ensures Inv(q, Run(q, ttl, c, events))
    decreases |events|
  {
    if events != [] {
      StepKeepsInv(q, ttl, c, events[0]);
      RunKeepsInv(q, ttl, Apply(q, ttl, c, events[0]), events[1..]);
    }
  }

  /** The lease belongs to another segment or to none, and no acquisition of `g` succeeds or changes anything. */
  ghost predicate CannotRun(q: Request, ttl: nat, s: Tables, g: SegmentInput) {
    && LeaseOf(s, q.execution).owner != Some(g.segment)
    && AcquireSegment(s, ttl, g).0.Err? && AcquireSegment(s, ttl, g).1 == s
  }

  /**
   During a backoff the execution's lease belongs to none of the call's segments, and none
   of them can acquire it, delayed acquisitions included; at any time the same holds of
   every segment but the last.
   */
  lemma {:induction false} NoLeaseBetweenAttempts(q: Request, ttl: nat, c: State, events: seq<Event>, i: nat)
    requires Inv(q, c) && i < |Run(q, ttl, c, events).used|
    ensures var c' := Run(q, ttl, c, events);
      c'.phase.Pausing? || i < |c'.used| - 1 ==> CannotRun(q, ttl, c'.tables, c'.used[i])
  {
    RunKeepsInv(q, ttl, c, events);
    var c' := Run(q, ttl, c, events);
    if c'.phase.Pausing? || i < |c'.used| - 1 {
      assert Gone(c')[i] == c'.used[i];
      assert IsGone(q, c'.tables, c'.used[i]);
    }
  }

  // ------------------------------------------------------ after the call ended

  /** The event commits a release of the last segment: its own answer, or a repeat of the request. */
  predicate Releases(c: State, e: Event) {
    && c.used != [] && ReleaseSegment(c.tables, Current(c)).0.Ok?
    && (e == Other(DoRelease(Current(c))) || (e.ReleaseAnswered? && c.phase.Releasing?))
  }

  /** Whether some release of the last segment committed; `done` says so of what came before. */
  predicate LastReleased(q: Request, ttl: nat, c: State, events: seq<Event>, done: bool)
    decreases |events|
  {
    if events == [] then done
    else
      var c' := Apply(q, ttl, c, events[0]);
      LastReleased(q, ttl, c', events[1..], c'.used == c.used && (done || Releases(c, events[0])))
  }

  /** A segment id is a uuid: no other call acquires or releases a segment under it. */
  predicate Names(e: Event, g: SegmentId) {
    e.Other? && (e.step.DoAcquire? || e.step.DoRelease?) && e.step.q.segment == g
  }

  ghost predicate Unshared(used: seq<SegmentInput>, events: seq<Event>) {
    forall i, k :: 0 <= i < |events| && 0 <= k < |used| && Names(events[i], used[k].segment) ==> events[i].step.q == used[k]
  }

  /** The row of `g`, if there is one, is its own and unreleased. */
  predicate Pending(s: Tables, g: SegmentInput) {
    g.segment in s.segments ==>
      var row := s.segments[g.segment]; row.run == g.run && row.execution == g.execution && row.state != Released
  }

  /** Released or not, the last segment's row says so. */
  ghost predicate Recorded(q: Request, c: State, done: bool) {
    c.used != [] ==> if done then IsGone(q, c.tables, Current(c)) else Pending(c.tables, Current(c))
  }

  lemma {:induction false} TransactionKeepsPending(s: Tables, ttl: nat, step: Step, g: SegmentInput)
    requires Pending(s, g) && (Names(Other(step), g.segment) ==> step.q == g)
    requires step == DoRelease(g) ==> ReleaseSegment(s, g).0.Err?
    ensures Pending(Next(s, ttl, step), g)
  {
  }

  lemma {:induction false} ReleaseLeavesGone(q: Request, s: Tables, g: SegmentInput)
    requires g.run == q.run && g.execution == q.execution && ReleaseSegment(s, g).0.Ok?
    requires Pending(s, g)
    ensures IsGone(q, ReleaseSegment(s, g).1, g)
  {
  }

  lemma {:induction false} StepRecords(q: Request, ttl: nat, c: State, e: Event, done: bool)
    requires Inv(q, c) && Recorded(q, c, done) && (done ==> c.used != [])
    requires c.used != [] && Names(e, Current(c).segment) ==> e.step.q == Current(c)
    ensures var c' := Apply(q, ttl, c, e);
      Recorded(q, c', c'.used == c.used && (done || Releases(c, e)))
  {
    var c' := Apply(q, ttl, c, e);
    if c.used != [] && c'.used == c.used {
      var g := Current(c);
      var step := if e.Other? then e.step else if e.ReleaseAnswered? then DoRelease(g) else DoAcquire(g);
      if c'.tables != c.tables {
        if done {
          TransactionKeepsBuried(q, ttl, c.tables, step, [g]);
          assert IsGone(q, c'.tables, [g][0]);
        } else if Releases(c, e) {
          ReleaseLeavesGone(q, c.tables, g);
        } else {
          TransactionKeepsPending(c.tables, ttl, step, g);
        }
      } else if Releases(c, e) && !done {
        ReleaseLeavesGone(q, c.tables, g);
      }
    }
  }

  /**
   When the call has ended, each of its segments is gone for good if and only if some
   release of the last one committed: a cancellation can end the call before that.
   */
  lemma {:induction false} EndsReleasedExactly(q: Request, ttl: nat, c: State, events: seq<Event>, done: bool)
    requires Inv(q, c) && Recorded(q, c, done) && (done ==> c.used != [])
    requires Unshared(Run(q, ttl, c, events).used, events)
    ensures var c' := Run(q, ttl, c, events);
      c'.phase.Ended? ==> (AllBuried(q, c'.tables, c'.used) <==> c'.used == [] || LastReleased(q, ttl, c, events, done))
    decreases |events|
  {
    if events == [] {
      if c.phase.Ended? {
        assert c.used == Gone(c) + [Current(c)];
        if done {
          forall i | 0 <= i < |c.used|
            ensures IsGone(q, c.tables, c.used[i])
          {
            assert i < |c.used| - 1 ==> c.used[i] == Gone(c)[i];
          }
        } else {
          assert Pending(c.tables, c.used[|c.used| - 1]) && !IsGone(q, c.tables, c.used[|c.used| - 1]);
        }
      }
    } else {
      var c' := Apply(q, ttl, c, events[0]);
      UsedGrows(q, ttl, c, events);
      StepKeepsInv(q, ttl, c, events[0]);
      StepRecords(q, ttl, c, events[0], done);
      EndsReleasedExactly(q, ttl, c', events[1..], c'.used == c.used && (done || Releases(c, events[0])));
    }
  }

  /** And gone for good: whatever commits after a released end, none of the call's segments ever runs. */
  lemma {:induction false} ReleasedEndIsFinal(q: Request, ttl: nat, c: State, events: seq<Event>, done: bool, later: seq<Step>, i: nat)
    requires Inv(q, c) && Recorded(q, c, done) && (done ==> c.used != [])
    requires Unshared(Run(q, ttl, c, events).used, events) && i < |Run(q, ttl, c, events).used|
    requires Run(q, ttl, c, events).phase.Ended? && LastReleased(q, ttl, c, events, done)
    ensures CannotRun(q, ttl, Execute(Run(q, ttl, c, events).tables, ttl, later), Run(q, ttl, c, events).used[i])
  {
    RunKeepsInv(q, ttl, c, events);
    EndsReleasedExactly(q, ttl, c, events, done);
    var c' := Run(q, ttl, c, events);
    assert IsGone(q, c'.tables, c'.used[i]);
    BuriedForever(c'.tables, ttl, later, c'.used[i]);
  }

  lemma {:induction false} UsedGrows(q: Request, ttl: nat, c: State, events: seq<Event>)
    ensures c.used <= Run(q, ttl, c, events).used
    decreases |events|
  {
    if events != [] {
      UsedGrows(q, ttl, Apply(q, ttl, c, events[0]), events[1..]);
    }
  }

  /** An execution that may run, with no lease and no wait. */
  predicate Free(q: Request, s: Tables) {
    && ActiveRun(s, q.run) && OwnsExecution(s, q.run, q.execution) && s.executions[q.execution].status.Executable()
    && !Leased(s, q.execution) && !IsWaiting(s, q.execution)
  }

  /**
   Cancelled at work and again at its release, the call ends with its segment holding the
   lease; cancelled before its acquisition was answered, a delayed acquisition takes the
   lease after the end.
   */
  lemma {:induction false} CancelledReleaseKeepsLease(q: Request, ttl: nat, s: Tables, g: SegmentId)
    requires Free(q, s) && g !in s.segments && q.attempts > 0 && ttl > 0
    ensures var held := Run(q, ttl, State(s, [], [], Acquiring), [Attempt(g), AcquireAnswered, Interrupted, Interrupted]);
      held.phase == Ended(Stopped) && LeaseOf(held.tables, q.execution).owner == Some(g) && Leased(held.tables, q.execution)
    ensures var late := Run(q, ttl, State(s, [], [], Acquiring),
                            [Attempt(g), Interrupted, Interrupted, Other(DoAcquire(SegmentInput(q.run, q.execution, g)))]);
      late.phase == Ended(Stopped) && LeaseOf(late.tables, q.execution).owner == Some(g) && Leased(late.tables, q.execution)
  {
    var c := State(s, [], [], Acquiring);
    var first := [Attempt(g), AcquireAnswered, Interrupted, Interrupted];
    var second := [Attempt(g), Interrupted, Interrupted, Other(DoAcquire(SegmentInput(q.run, q.execution, g)))];
    RunInFour(q, ttl, c, first);
    RunInFour(q, ttl, c, second);
  }

  lemma {:induction false} RunInFour(q: Request, ttl: nat, c: State, events: seq<Event>)
    requires |events| == 4
    ensures Run(q, ttl, c, events)
         == Apply(q, ttl, Apply(q, ttl, Apply(q, ttl, Apply(q, ttl, c, events[0]), events[1]), events[2]), events[3])
  {
    var c1 := Apply(q, ttl, c, events[0]);
    var c2 := Apply(q, ttl, c1, events[1]);
    var c3 := Apply(q, ttl, c2, events[2]);
    assert Run(q, ttl, c2, events[1..][1..]) == Run(q, ttl, c3, events[1..][1..][1..]);
    assert events[1..][1..][1..] == [events[3]];
    assert Run(q, ttl, c3, [events[3]]) == Run(q, ttl, Apply(q, ttl, c3, events[3]), []);
  }

  /** The policy's bound holds: at most `attempts` segments, and at most one dispatched activity in each. */
  predicate Dispatched(c: State) { |c.tokens| <= |c.used| && (c.phase.Acquiring? && c.used != [] ==> |c.tokens| < |c.used|) }

  lemma {:induction false} AttemptsAreBounded(q: Request, ttl: nat, c: State, events: seq<Event>)
    requires Inv(q, c) && Dispatched(c)
    ensures var c' := Run(q, ttl, c, events);
      Dispatched(c') && |c'.tokens| <= |c'.used| <= q.attempts
    decreases |events|
  {
    if events != [] {
      StepKeepsInv(q, ttl, c, events[0]);
      AttemptsAreBounded(q, ttl, Apply(q, ttl, c, events[0]), events[1..]);
    }
  }

  // ------------------------------------------------------------------ fences

  function Last(tokens: seq<nat>): nat { if tokens == [] then 0 else tokens[|tokens| - 1] }

  predicate Rising(tokens: seq<nat>) { forall i, j :: 0 <= i < j < |tokens| ==> tokens[i] < tokens[j] }

  /** A segment that is still being acquired owns the lease only under a token later than every dispatched one. */
  ghost predicate FencesRise(q: Request, c: State) {
    && Rising(c.tokens) && Last(c.tokens) <= LeaseOf(c.tables, q.execution).token
    && (c.phase.Acquiring? && c.used != [] && LeaseOf(c.tables, q.execution).owner == Some(Current(c).segment) ==>
          Last(c.tokens) < LeaseOf(c.tables, q.execution).token)
  }

  lemma {:induction false} NewOwnerRaisesToken(s: Tables, ttl: nat, step: Step, e: ExecutionId, g: SegmentId)
    requires LeaseOf(s, e).owner != Some(g) && LeaseOf(Next(s, ttl, step), e).owner == Some(g)
    ensures LeaseOf(s, e).token < LeaseOf(Next(s, ttl, step), e).token
  {
  }

  lemma {:induction false} FreshSegmentOwnsNothing(s: Tables, e: ExecutionId, g: SegmentId)
    requires OwnersAreOpen(s) && g !in s.segments
    ensures LeaseOf(s, e).owner != Some(g)
  {
  }

  lemma {:induction false} TransactionKeepsFences(q: Request, ttl: nat, c: State, step: Step)
    requires FencesRise(q, c)
    ensures FencesRise(q, c.(tables := Next(c.tables, ttl, step)))
  {
    StepKeepsToken(c.tables, ttl, step, q.execution);
    if c.used != [] {
      var g := Current(c).segment;
      if LeaseOf(c.tables, q.execution).owner != Some(g) && LeaseOf(Next(c.tables, ttl, step), q.execution).owner == Some(g) {
        NewOwnerRaisesToken(c.tables, ttl, step, q.execution, g);
      }
    }
  }

  /** What an acquisition answers is the lease row's new token, which no earlier attempt was given. */
  lemma {:induction false} AcquireKeepsFences(q: Request, ttl: nat, c: State)
    requires Inv(q, c) && FencesRise(q, c) && c.phase.Acquiring? && c.used != []
    ensures FencesRise(q, Apply(q, ttl, c, AcquireAnswered))
  {
    var g := Current(c);
    var (outcome, after) := AcquireSegment(c.tables, ttl, g);
    TransactionKeepsFences(q, ttl, c, DoAcquire(g));
    if outcome.Ok? {
      assert LeaseOf(after, q.execution).owner == Some(g.segment) && LeaseOf(after, q.execution).token == outcome.value;
      var tokens := c.tokens + [outcome.value];
      forall i, j | 0 <= i < j < |tokens|
        ensures tokens[i] < tokens[j]
      {
        assert c.tokens[i] <= Last(c.tokens);
      }
    }
  }

  lemma {:induction false} StepKeepsFences(q: Request, ttl: nat, c: State, e: Event)
    requires Inv(q, c) && FencesRise(q, c)
    ensures FencesRise(q, Apply(q, ttl, c, e))
  {
    if e.Other? {
      TransactionKeepsFences(q, ttl, c, e.step);
    } else if e.AcquireAnswered? {
      if c.phase.Acquiring? && c.used != [] {
        AcquireKeepsFences(q, ttl, c);
      }
    } else if e.Attempt? {
      if Apply(q, ttl, c, e) != c {
        FreshSegmentOwnsNothing(c.tables, q.execution, e.segment);
      }
    } else if e.ReleaseAnswered? && c.phase.Releasing? {
      TransactionKeepsFences(q, ttl, c, DoRelease(Current(c)));
    }
  }

  /** Each attempt's activity carries a higher fence than every earlier attempt's. */
  lemma {:induction false} EveryAttemptHasAFreshFence(q: Request, ttl: nat, c: State, events: seq<Event>)
    requires Inv(q, c) && FencesRise(q, c)
    ensures Rising(Run(q, ttl, c, events).tokens)
    decreases |events|
  {
    if events != [] {
      StepKeepsInv(q, ttl, c, events[0]);
      StepKeepsFences(q, ttl, c, events[0]);
      EveryAttemptHasAFreshFence(q, ttl, Apply(q, ttl, c, events[0]), events[1..]);
    }
  }

  /** A call starts in the invariant. */
  lemma {:induction false} StartKeepsInv(q: Request, s: Tables)
    requires OwnersAreOpen(s)
    ensures var c := State(s, [], [], Acquiring);
      Inv(q, c) && Dispatched(c) && FencesRise(q, c) && Recorded(q, c, false)
  {
  }
}
