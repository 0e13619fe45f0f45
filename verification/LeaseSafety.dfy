/** What every interleaving of the lease, segment and wait transactions keeps. */
module LeaseSafety {
  import opened Base
  import opened LeasePlane

  // ----------------------------------------------------------------- fencing

  lemma {:induction false} StepKeepsToken(s: Tables, ttl: nat, step: Step, e: ExecutionId)
    ensures LeaseOf(s, e).token <= LeaseOf(Next(s, ttl, step), e).token
  {
  }

  /** What one step can do to a live token: nothing revives it, and its owner stays. */
  lemma {:induction false} StepKeepsDeadTokenDead(s: Tables, ttl: nat, step: Step, e: ExecutionId, t: nat)
    requires t <= LeaseOf(s, e).token && !Live(s, e, t)
    ensures !Live(Next(s, ttl, step), e, t)
  {
  }

  lemma {:induction false} StepKeepsOwner(s: Tables, ttl: nat, step: Step, e: ExecutionId, t: nat)
    requires Live(s, e, t) && Live(Next(s, ttl, step), e, t)
    ensures LeaseOf(s, e).owner == LeaseOf(Next(s, ttl, step), e).owner
  {
  }

  lemma {:induction false} TokenNeverDecreases(s: Tables, ttl: nat, steps: seq<Step>, e: ExecutionId)
    ensures LeaseOf(s, e).token <= LeaseOf(Execute(s, ttl, steps), e).token
    decreases |steps|
  {
    if steps != [] {
      StepKeepsToken(s, ttl, steps[0], e);
      TokenNeverDecreases(Next(s, ttl, steps[0]), ttl, steps[1..], e);
    }
  }

  /** A token that stopped being live, for whatever reason, is never live again. */
  lemma {:induction false} DeadTokenStaysDead(s: Tables, ttl: nat, steps: seq<Step>, e: ExecutionId, t: nat)
    requires t <= LeaseOf(s, e).token && !Live(s, e, t)
    ensures !Live(Execute(s, ttl, steps), e, t)
    decreases |steps|
  {
    if steps != [] {
      var s' := Next(s, ttl, steps[0]);
      StepKeepsToken(s, ttl, steps[0], e);
      StepKeepsDeadTokenDead(s, ttl, steps[0], e, t);
      DeadTokenStaysDead(s', ttl, steps[1..], e, t);
    }
  }

  /** A token names one owner for good: every change of ownership raises the token. */
  lemma {:induction false} TokenIdentifiesOwner(s: Tables, ttl: nat, steps: seq<Step>, e: ExecutionId, t: nat)
    requires Live(s, e, t) && Live(Execute(s, ttl, steps), e, t)
    ensures LeaseOf(s, e).owner == LeaseOf(Execute(s, ttl, steps), e).owner
    decreases |steps|
  {
    if steps != [] {
      var s' := Next(s, ttl, steps[0]);
      StepKeepsToken(s, ttl, steps[0], e);
      if Live(s', e, t) {
        StepKeepsOwner(s, ttl, steps[0], e, t);
        TokenIdentifiesOwner(s', ttl, steps[1..], e, t);
      } else {
        DeadTokenStaysDead(s', ttl, steps[1..], e, t);
      }
    }
  }

  // -------------------------------------------------------------- tombstones

  /** Foreign key and state of a lease's owner: it is an unreleased segment of that execution. */
  ghost predicate OwnersAreOpen(s: Tables) {
    forall e <- s.leases :: s.leases[e].owner.Some? ==>
      var g := s.leases[e].owner.value;
      && g in s.segments && s.segments[g].execution == e && s.segments[g].state == Active
      && OwnsExecution(s, s.segments[g].run, e)
  }

  lemma {:induction false} StepKeepsOwnersOpen(s: Tables, ttl: nat, step: Step)
    requires OwnersAreOpen(s)
    ensures OwnersAreOpen(Next(s, ttl, step))
  {
  }

  /** `acquire_segment(q)` is refused for good: the row is released or belongs elsewhere. */
  ghost predicate Buried(s: Tables, q: SegmentInput) {
    q.segment in s.segments
    && (s.segments[q.segment].state == Released
        || s.segments[q.segment].run != q.run
        || s.segments[q.segment].execution != q.execution)
  }

  lemma {:induction false} StepKeepsBuried(s: Tables, ttl: nat, step: Step, q: SegmentInput)
    requires OwnsExecution(s, q.run, q.execution) && Buried(s, q)
    ensures OwnsExecution(Next(s, ttl, step), q.run, q.execution) && Buried(Next(s, ttl, step), q)
  {
  }

  lemma {:induction false} BuriedForever(s: Tables, ttl: nat, steps: seq<Step>, q: SegmentInput)
    requires OwnersAreOpen(s) && OwnsExecution(s, q.run, q.execution) && Buried(s, q)
    ensures var later := Execute(s, ttl, steps);
      OwnersAreOpen(later) && OwnsExecution(later, q.run, q.execution) && Buried(later, q)
    decreases |steps|
  {
    if steps != [] {
      StepKeepsOwnersOpen(s, ttl, steps[0]);
      StepKeepsBuried(s, ttl, steps[0], q);
      BuriedForever(Next(s, ttl, steps[0]), ttl, steps[1..], q);
    }
  }

  /**
   Once a release of `q` commits, with or without an acquisition before it, no later
   acquisition of `q` succeeds and its segment never owns that execution's lease again.
   */
  lemma {:induction false} ReleaseIsFinal(s: Tables, ttl: nat, q: SegmentInput, steps: seq<Step>)
    requires OwnersAreOpen(s)
    requires ReleaseSegment(s, q).0.Ok?
    ensures
      var later := Execute(ReleaseSegment(s, q).1, ttl, steps);
      && AcquireSegment(later, ttl, q).0.Err?
      && AcquireSegment(later, ttl, q).1 == later
      && LeaseOf(later, q.execution).owner != Some(q.segment)
  {
    var released := ReleaseSegment(s, q).1;
    StepKeepsOwnersOpen(s, ttl, DoRelease(q));
    BuriedForever(released, ttl, steps, q);
  }

  // ------------------------------------------------------------------- waits

  /** A durable wait holds no execution resources. */
  ghost predicate WaitsHoldNoLease(s: Tables) {
    forall e: ExecutionId :: Leased(s, e) ==> !IsWaiting(s, e)
  }

  /** The one transaction that takes a lease without looking at the waits of its execution. */
  predicate LeasesOverWait(s: Tables, step: Step) {
    step.DoAcquireAnonymous?
    && ActiveRun(s, step.run) && OwnsExecution(s, step.run, step.execution)
    && s.executions[step.execution].status.Executable()
    && IsWaiting(s, step.execution)
  }

  /** A step makes an execution wait only by `begin_wait`, which refuses a live lease. */
  lemma {:induction false} WaitsBeginUnleased(s: Tables, ttl: nat, step: Step, e: ExecutionId)
    ensures IsWaiting(Next(s, ttl, step), e) ==> IsWaiting(s, e) || !Leased(Next(s, ttl, step), e)
  {
    var s' := Next(s, ttl, step);
    if IsWaiting(s', e) && Leased(s', e) {
      var w :| w in s'.waits && s'.waits[w].execution == e && s'.waits[w].state == Waiting;
      assert w in s.waits && s.waits[w].execution == e && s.waits[w].state == Waiting;
    }
  }

  /** A step makes a lease live only by an acquisition, which looks at the waits unless anonymous. */
  lemma {:induction false} LeasesBeginUnwaited(s: Tables, ttl: nat, step: Step, e: ExecutionId)
    requires !LeasesOverWait(s, step)
    ensures Leased(Next(s, ttl, step), e) ==> Leased(s, e) || !IsWaiting(s, e)
  {
  }

  lemma {:induction false} StepKeepsWaitsUnleased(s: Tables, ttl: nat, step: Step)
    requires WaitsHoldNoLease(s) && !LeasesOverWait(s, step)
    ensures WaitsHoldNoLease(Next(s, ttl, step))
  {
    forall e: ExecutionId
      ensures Leased(Next(s, ttl, step), e) ==> !IsWaiting(Next(s, ttl, step), e)
    {
      WaitsBeginUnleased(s, ttl, step, e);
      LeasesBeginUnwaited(s, ttl, step, e);
    }
  }

  /**
   With positive lease times, the step that keeps waits and leases apart is every step
   but a segmentless acquisition during a wait.
   */
  lemma {:induction false} WaitExclusionExactly(s: Tables, ttl: nat, step: Step)
    requires WaitsHoldNoLease(s) && ttl > 0
    ensures WaitsHoldNoLease(Next(s, ttl, step)) <==> !LeasesOverWait(s, step)
  {
    if LeasesOverWait(s, step) {
      var s' := Next(s, ttl, step);
      var e := step.execution;
      assert !Leased(s, e);
      assert Leased(s', e) && IsWaiting(s', e);
    } else {
      StepKeepsWaitsUnleased(s, ttl, step);
    }
  }

  ghost predicate NeverLeasesOverWait(s: Tables, ttl: nat, steps: seq<Step>)
    decreases |steps|
  {
    steps == [] || (!LeasesOverWait(s, steps[0]) && NeverLeasesOverWait(Next(s, ttl, steps[0]), ttl, steps[1..]))
  }

  /** Over whole runs: without that one step, no execution is leased and waiting at once. */
  lemma {:induction false} WaitExclusion(s: Tables, ttl: nat, steps: seq<Step>)
    requires WaitsHoldNoLease(s)
    requires NeverLeasesOverWait(s, ttl, steps)
    ensures WaitsHoldNoLease(Execute(s, ttl, steps))
    decreases |steps|
  {
    if steps != [] {
      StepKeepsWaitsUnleased(s, ttl, steps[0]);
      WaitExclusion(Next(s, ttl, steps[0]), ttl, steps[1..]);
    }
  }

  lemma {:induction false} StepKeepsWaitFinished(s: Tables, ttl: nat, step: Step, w: WaitId)
    requires w in s.waits && s.waits[w].state != Waiting
    ensures w in Next(s, ttl, step).waits && Next(s, ttl, step).waits[w] == s.waits[w]
  {
  }

  /** A finished wait keeps its outcome: its id is never waiting again. */
  lemma {:induction false} FinishedWaitIsFinal(s: Tables, ttl: nat, steps: seq<Step>, w: WaitId)
    requires w in s.waits && s.waits[w].state != Waiting
    ensures w in Execute(s, ttl, steps).waits && Execute(s, ttl, steps).waits[w] == s.waits[w]
    decreases |steps|
  {
    if steps != [] {
      StepKeepsWaitFinished(s, ttl, steps[0], w);
      FinishedWaitIsFinal(Next(s, ttl, steps[0]), ttl, steps[1..], w);
    }
  }
}
