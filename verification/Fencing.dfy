/**
 One execution's authority as the operation plane sees it: the lease row's token
 and liveness, and whether its run may progress.  Every step of the lease plane
 moves this view by `FenceStep`, so a property proved for every sequence of fence
 steps holds under every interleaving of lease transactions.
 */
module Fencing {
  import opened Base
  import opened LeasePlane
  import LeaseSafety

  /** Open: may progress.  Barred: may not now.  Ended and Revoked (cancelled) are final. */
  datatype Standing = Open | Barred | Revoked | Ended

  /** `bar`: why the account and Work checks fail; `revoked`: on an active run, `check_execution` raises. */
  datatype Fence = Fence(token: nat, live: bool, standing: Standing, bar: Option<Bar>, revoked: bool) {
    /** `validate_and_renew_lease` under token `t` */
    predicate Holds(t: nat) { standing == Open && bar.None? && live && token == t }
    /** `assert_execution_fence` under token `t`, which checks the memory context as well */
    predicate Admits(t: nat) { Holds(t) && !revoked }
    /** What `assert_execution_fence` raises: it comes to the memory context before the lease. */
    function Denial(): Fault { if revoked then MemoryContextRevoked else StaleFencingToken }
    predicate Closed() { standing == Revoked || standing == Ended }
  }

  ghost predicate FenceStep(f: Fence, g: Fence) {
    && f.token <= g.token
    && (g.live && g.token == f.token ==> f.live)
    && (f.Closed() ==> g.Closed())
  }

  function StandingOf(s: Tables, e: ExecutionId): Standing {
    if e !in s.executions || s.executions[e].run !in s.runs then Barred
    else
      var x, r := s.executions[e], s.runs[s.executions[e].run];
      if r.status == Cancelling || r.status == Cancelled || x.status == Cancelling || x.status == Cancelled then Revoked
      else if r.status.Terminal() || x.status == Failed then Ended
      else if r.Admitted() && x.status.Executable() then Open
      else Barred
  }

  function BarOf(s: Tables, e: ExecutionId): Option<Bar> {
    if e in s.executions && s.executions[e].run in s.runs then s.runs[s.executions[e].run].bar else None
  }

  predicate IsRevoked(s: Tables, e: ExecutionId) {
    e in s.executions && ActiveRun(s, s.executions[e].run) && e in s.revoked
  }

  function FenceOf(s: Tables, e: ExecutionId): Fence {
    Fence(LeaseOf(s, e).token, Leased(s, e), StandingOf(s, e), BarOf(s, e), IsRevoked(s, e))
  }

  /** `assert_execution_fence`, spelled as its checks on the rows. */
  predicate AssertExecutionFence(s: Tables, run: RunId, e: ExecutionId, token: nat) {
    && ActiveRun(s, run)
    && OwnsExecution(s, run, e)
    && e !in s.revoked
    && s.executions[e].status.Executable()
    && Live(s, e, token)
  }

  lemma {:induction false} AdmitsIsTheRowCheck(s: Tables, ttl: nat, run: RunId, e: ExecutionId, token: nat)
    requires OwnsExecution(s, run, e)
    ensures FenceOf(s, e).Admits(token) <==> AssertExecutionFence(s, run, e, token)
    ensures FenceOf(s, e).Holds(token) <==> Renew(s, ttl, run, e, token).0.Ok?
  {
  }

  predicate RunStopped(s: Tables, e: ExecutionId)
    requires e in s.executions
  {
    s.executions[e].run in s.runs && !s.runs[s.executions[e].run].status.Executable()
  }

  /** A root stops, and any execution is being cancelled, only with its run (the status trigger). */
  ghost predicate ExecutionsFollowRuns(s: Tables) {
    forall e <- s.executions ::
      (s.executions[e].status == Cancelling
       || (s.executions[e].role == Root && !s.executions[e].status.Executable())) ==> RunStopped(s, e)
  }

  /** Executions are inserted queued. */
  lemma {:induction false} QueuedExecutionsFollow(s: Tables)
    requires forall e <- s.executions :: s.executions[e].status == Queued
    ensures ExecutionsFollowRuns(s)
  {
  }

  lemma {:induction false} StatusStepKeepsFollowing(s: Tables, ttl: nat, step: Step)
    requires ExecutionsFollowRuns(s) && (step.DoSetRunStatus? || step.DoCloseChild?)
    ensures ExecutionsFollowRuns(Next(s, ttl, step))
  {
  }

  lemma {:induction false} StepKeepsExecutionsFollowing(s: Tables, ttl: nat, step: Step)
    requires ExecutionsFollowRuns(s)
    ensures ExecutionsFollowRuns(Next(s, ttl, step))
  {
    if step.DoSetRunStatus? || step.DoCloseChild? {
      StatusStepKeepsFollowing(s, ttl, step);
    }
  }

  lemma {:induction false} StatusStepKeepsClosed(s: Tables, ttl: nat, step: Step, e: ExecutionId)
    requires ExecutionsFollowRuns(s) && FenceOf(s, e).Closed() && (step.DoSetRunStatus? || step.DoCloseChild?)
    ensures FenceOf(Next(s, ttl, step), e).Closed()
  {
  }

  lemma {:induction false} StepKeepsClosed(s: Tables, ttl: nat, step: Step, e: ExecutionId)
    requires ExecutionsFollowRuns(s) && FenceOf(s, e).Closed()
    ensures FenceOf(Next(s, ttl, step), e).Closed()
  {
    if step.DoSetRunStatus? || step.DoCloseChild? {
      StatusStepKeepsClosed(s, ttl, step, e);
    }
  }

  lemma {:induction false} LeaseStepIsFenceStep(s: Tables, ttl: nat, step: Step, e: ExecutionId)
    requires ExecutionsFollowRuns(s)
    ensures FenceStep(FenceOf(s, e), FenceOf(Next(s, ttl, step), e))
  {
    var t := LeaseOf(s, e).token;
    LeaseSafety.StepKeepsToken(s, ttl, step, e);
    if !Live(s, e, t) {
      LeaseSafety.StepKeepsDeadTokenDead(s, ttl, step, e, t);
    }
    if FenceOf(s, e).Closed() {
      StepKeepsClosed(s, ttl, step, e);
    }
  }

  /** The refinement over whole runs: authority once lost by a token, or closed, is lost for good. */
  lemma {:induction false} LeaseRunIsFenceRun(s: Tables, ttl: nat, steps: seq<Step>, e: ExecutionId)
    requires ExecutionsFollowRuns(s)
    ensures ExecutionsFollowRuns(Execute(s, ttl, steps))
    ensures FenceStep(FenceOf(s, e), FenceOf(Execute(s, ttl, steps), e))
    decreases |steps|
  {
    if steps != [] {
      StepKeepsExecutionsFollowing(s, ttl, steps[0]);
      LeaseStepIsFenceStep(s, ttl, steps[0], e);
      LeaseRunIsFenceRun(Next(s, ttl, steps[0]), ttl, steps[1..], e);
    }
  }

  /**
   From executions as they are inserted, any two moments of any run: a token that died
   between them, and a standing that closed, stay so.
   */
  lemma {:induction false} FencesOnlyAdvance(s: Tables, ttl: nat, steps: seq<Step>, later: seq<Step>, e: ExecutionId)
    requires forall x <- s.executions :: s.executions[x].status == Queued
    ensures FenceStep(FenceOf(Execute(s, ttl, steps), e), FenceOf(Execute(Execute(s, ttl, steps), ttl, later), e))
  {
    QueuedExecutionsFollow(s);
    LeaseRunIsFenceRun(s, ttl, steps, e);
    LeaseRunIsFenceRun(Execute(s, ttl, steps), ttl, later, e);
  }
}
