/**
 The lease, segment and wait transactions of `AgentDataStore` as functions on
 table contents, the steps that may interleave with them, and what every run of
 those steps keeps.  `LeaseStore` is the same plane updated in place.
 */
module LeasePlane {
  import opened Base

  type RunId(==, !new) = nat
  type ExecutionId(==, !new) = nat
  type SegmentId(==, !new) = nat
  type WaitId(==, !new) = nat

  datatype Status = Queued | Running | Cancelling | Succeeded | Failed | Cancelled {
    predicate Executable() { Queued? || Running? }
    predicate Terminal() { Succeeded? || Failed? || Cancelled? }
  }

  datatype Role = Root | Subagent | Capability

  /**
   Why the account and Work checks of `require_active_run` refuse a run: a disabled account
   or another requirement, epoch or coordinator, or a Work that is no longer active.
   */
  datatype Bar = Superseded | Withdrawn

  datatype Run = Run(status: Status, bar: Option<Bar>) {
    predicate Admitted() { bar.None? }
  }

  datatype Execution = Execution(run: RunId, role: Role, status: Status)

  /** The row exists from the first acquisition on; `NoLease` is its column defaults. */
  datatype Lease = Lease(owner: Option<SegmentId>, token: nat, expires: Option<nat>)

  const NoLease := Lease(None, 0, None)

  datatype SegmentState = Requested | Active | Released
  datatype Segment = Segment(run: RunId, execution: ExecutionId, state: SegmentState, token: nat)

  datatype WaitState = Waiting | Resumed | WaitCancelled | WaitExpired
  datatype Wait = Wait(run: RunId, execution: ExecutionId, state: WaitState)

  datatype Tables = Tables(
    clock: nat,
    runs: map<RunId, Run>,
    executions: map<ExecutionId, Execution>,
    leases: map<ExecutionId, Lease>,
    segments: map<SegmentId, Segment>,
    waits: map<WaitId, Wait>,
    revoked: set<ExecutionId>)          // executions whose memory context `check_execution` refuses

  datatype SegmentInput = SegmentInput(run: RunId, execution: ExecutionId, segment: SegmentId)

  // ---------------------------------------------------------------- queries

  predicate ActiveRun(s: Tables, run: RunId) {
    run in s.runs && s.runs[run].Admitted() && s.runs[run].status.Executable()
  }

  predicate OwnsExecution(s: Tables, run: RunId, e: ExecutionId) {
    e in s.executions && s.executions[e].run == run
  }

  function LeaseOf(s: Tables, e: ExecutionId): Lease {
    if e in s.leases then s.leases[e] else NoLease
  }

  predicate Unexpired(lease: Lease, clock: nat) {
    lease.expires.Some? && lease.expires.value > clock
  }

  /** `lease_expires_at>clock_timestamp()` */
  predicate Leased(s: Tables, e: ExecutionId) {
    Unexpired(LeaseOf(s, e), s.clock)
  }

  /** Token `t` passes the row check of `assert_execution_fence` for `e`. */
  predicate Live(s: Tables, e: ExecutionId, t: nat) {
    Leased(s, e) && LeaseOf(s, e).token == t
  }

  predicate IsWaiting(s: Tables, e: ExecutionId) {
    exists w <- s.waits :: s.waits[w].execution == e && s.waits[w].state == Waiting
  }

  // ----------------------------------------------------------- transactions

  /** `_acquire`: the row of `e` after `owner` takes, or keeps, its lease. */
  function Grant(s: Tables, ttl: nat, e: ExecutionId, owner: Option<SegmentId>): Lease {
    var row := LeaseOf(s, e);
    var same := Leased(s, e) && row.owner == owner;
    Lease(owner, if same then row.token else row.token + 1, Some(s.clock + ttl))
  }

  /** The checks of `_acquire`, in the order the code makes them. */
  function GrantFault(s: Tables, e: ExecutionId, owner: Option<SegmentId>): Option<Fault>
    requires e in s.executions
  {
    if !s.executions[e].status.Executable() then Some(RunNotExecutable)
    else if Leased(s, e) && LeaseOf(s, e).owner != owner then Some(LeaseConflict)
    else None
  }

  function AcquireSegment(s: Tables, ttl: nat, q: SegmentInput): (Outcome<nat>, Tables) {
    if !ActiveRun(s, q.run) || !OwnsExecution(s, q.run, q.execution) then (Err(RunNotExecutable), s)
    else if IsWaiting(s, q.execution) then (Err(LeaseConflict), s)
    else if q.segment in s.segments
            && (s.segments[q.segment].run != q.run
                || s.segments[q.segment].execution != q.execution
                || s.segments[q.segment].state == Released) then (Err(SegmentClosed), s)
    else match GrantFault(s, q.execution, Some(q.segment))
      case Some(fault) => (Err(fault), s)
      case None =>
        var lease := Grant(s, ttl, q.execution, Some(q.segment));
        (Ok(lease.token),
         s.(leases := s.leases[q.execution := lease],
            executions := s.executions[q.execution := s.executions[q.execution].(status := Running)],
            segments := s.segments[q.segment := Segment(q.run, q.execution, Active, lease.token)]))
  }

  /** The segmentless `acquire_lease`; it does not look at waits. */
  function AcquireAnonymous(s: Tables, ttl: nat, run: RunId, e: ExecutionId): (Outcome<nat>, Tables) {
    if !ActiveRun(s, run) || !OwnsExecution(s, run, e) then (Err(RunNotExecutable), s)
    else match GrantFault(s, e, None)
      case Some(fault) => (Err(fault), s)
      case None =>
        var lease := Grant(s, ttl, e, None);
        (Ok(lease.token),
         s.(leases := s.leases[e := lease],
            executions := s.executions[e := s.executions[e].(status := Running)]))
  }

  function Renew(s: Tables, ttl: nat, run: RunId, e: ExecutionId, token: nat): (Outcome<Unit>, Tables) {
    if !ActiveRun(s, run) then (Err(StaleFencingToken), s)
    else if !OwnsExecution(s, run, e) then (Err(RunNotExecutable), s)
    else if !s.executions[e].status.Executable() || e !in s.leases || !Live(s, e, token) then (Err(StaleFencingToken), s)
    else (Ok(Unit), s.(leases := s.leases[e := s.leases[e].(expires := Some(s.clock + ttl))]))
  }

  function ReleaseLease(s: Tables, run: RunId, e: ExecutionId, token: nat): (Outcome<bool>, Tables) {
    if !OwnsExecution(s, run, e) then (Err(RunNotExecutable), s)
    else if e in s.leases && s.leases[e].token == token then
      (Ok(true), s.(leases := s.leases[e := Lease(None, token, None)]))
    else (Ok(false), s)
  }

  function ReleaseSegment(s: Tables, q: SegmentInput): (Outcome<Unit>, Tables) {
    if q.run !in s.runs then (Err(Rejected), s)
    else if !OwnsExecution(s, q.run, q.execution) then (Err(RunNotExecutable), s)
    else
      var row := if q.segment in s.segments then s.segments[q.segment]
                 else Segment(q.run, q.execution, Released, 0);
      var closed := if row.run == q.run && row.execution == q.execution then row.(state := Released) else row;
      var lease := LeaseOf(s, q.execution);
      (Ok(Unit),
       s.(segments := s.segments[q.segment := closed],
          leases := if q.execution in s.leases && lease.owner == Some(q.segment)
                    then s.leases[q.execution := Lease(None, lease.token, None)]
                    else s.leases))
  }

  function BeginWait(s: Tables, run: RunId, e: ExecutionId, w: WaitId): (Outcome<Unit>, Tables) {
    if !ActiveRun(s, run) || !OwnsExecution(s, run, e) then (Err(RunNotExecutable), s)
    else if Leased(s, e) then (Err(LeaseConflict), s)
    else if w in s.waits then (Ok(Unit), s)
    else (Ok(Unit), s.(waits := s.waits[w := Wait(run, e, Waiting)]))
  }

  /** The result tells whether the run was still active, that is, may resume. */
  function FinishWait(s: Tables, run: RunId, e: ExecutionId, w: WaitId, state: WaitState): (bool, Tables) {
    var active := ActiveRun(s, run) && OwnsExecution(s, run, e);
    if w in s.waits && s.waits[w] == Wait(run, e, Waiting) then
      (active, s.(waits := s.waits[w := Wait(run, e, if active then state else WaitCancelled)]))
    else (active, s)
  }

  /** A fenced-off lease row: no owner, no expiry, and a token nobody holds. */
  function Fenced(lease: Lease): Lease { Lease(None, lease.token + 1, None) }

  /** The trigger on `runs.status`: children and leases of the run follow it. */
  function SetRunStatus(s: Tables, run: RunId, status: Status): Tables
    requires run in s.runs
  {
    var closing := !status.Executable();
    s.(runs := s.runs[run := s.runs[run].(status := status)],
       executions := map e <- s.executions ::
         var x := s.executions[e];
         if x.run != run then x
         else if x.role == Root then x.(status := status)
         else if closing && !x.status.Terminal() then x.(status := if status == Cancelling then Cancelling else Cancelled)
         else x,
       leases := map e <- s.leases ::
         if closing && e in s.executions && s.executions[e].run == run then Fenced(s.leases[e]) else s.leases[e],
       waits := map w <- s.waits ::
         if closing && s.waits[w].run == run && s.waits[w].state == Waiting
         then s.waits[w].(state := WaitCancelled) else s.waits[w])
  }

  /** `_finish_branch` and `_close`: the end of a child execution. `evidence` is its committed receipt. */
  function CloseChild(s: Tables, run: RunId, e: ExecutionId, requested: Status, evidence: bool): (Outcome<Unit>, Tables) {
    if run !in s.runs then (Err(Rejected), s)
    else if !OwnsExecution(s, run, e) then (Err(RunNotExecutable), s)
    else
      var x := s.executions[e];
      if x.role == Root || !requested.Terminal() then (Err(Rejected), s)
      else if x.status.Terminal() then (Ok(Unit), s)
      else
        var status := if s.runs[run].status.Executable() && !(x.role == Capability && x.status == Cancelling)
                      then requested else Cancelled;
        if status == Succeeded && !evidence then (Err(Rejected), s)
        else (Ok(Unit),
              s.(executions := s.executions[e := x.(status := status)],
                 leases := if e in s.leases then s.leases[e := Fenced(s.leases[e])] else s.leases))
  }

  // -------------------------------------------------------------------- runs

  datatype Step =
    | Tick(elapsed: nat)
    | DoAcquire(q: SegmentInput)
    | DoAcquireAnonymous(run: RunId, execution: ExecutionId)
    | DoRenew(run: RunId, execution: ExecutionId, token: nat)
    | DoReleaseLease(run: RunId, execution: ExecutionId, token: nat)
    | DoRelease(q: SegmentInput)
    | DoBeginWait(run: RunId, execution: ExecutionId, wait: WaitId)
    | DoFinishWait(run: RunId, execution: ExecutionId, wait: WaitId, state: WaitState)
    | DoSetRunStatus(run: RunId, status: Status)
    | DoAdmit(run: RunId, bar: Option<Bar>)
    | DoRevoke(execution: ExecutionId, revoked: bool)
    | DoInsertExecution(execution: ExecutionId, run: RunId, role: Role)
    | DoCloseChild(run: RunId, execution: ExecutionId, status: Status, evidence: bool)

  /** One committed (or rolled back) transaction, or the passing of time. */
  function Next(s: Tables, ttl: nat, step: Step): Tables {
    match step
    case Tick(d) => s.(clock := s.clock + d)
    case DoAcquire(q) => AcquireSegment(s, ttl, q).1
    case DoAcquireAnonymous(run, e) => AcquireAnonymous(s, ttl, run, e).1
    case DoRenew(run, e, t) => Renew(s, ttl, run, e, t).1
    case DoReleaseLease(run, e, t) => ReleaseLease(s, run, e, t).1
    case DoRelease(q) => ReleaseSegment(s, q).1
    case DoBeginWait(run, e, w) => BeginWait(s, run, e, w).1
    case DoFinishWait(run, e, w, state) => if state == Waiting then s else FinishWait(s, run, e, w, state).1
    case DoSetRunStatus(run, status) =>
      if run in s.runs && (s.runs[run].status.Executable() || (s.runs[run].status == Cancelling && status.Terminal()))
      then SetRunStatus(s, run, status) else s
    case DoAdmit(run, bar) =>
      if run in s.runs then s.(runs := s.runs[run := s.runs[run].(bar := bar)])
      else s.(runs := s.runs[run := Run(Queued, bar)])
    case DoRevoke(e, revoked) => s.(revoked := if revoked then s.revoked + {e} else s.revoked - {e})
    case DoInsertExecution(e, run, role) =>
      if e in s.executions then s else s.(executions := s.executions[e := Execution(run, role, Queued)])
    case DoCloseChild(run, e, status, evidence) => CloseChild(s, run, e, status, evidence).1
  }

  function Execute(s: Tables, ttl: nat, steps: seq<Step>): Tables
    decreases |steps|
  {
    if steps == [] then s else Execute(Next(s, ttl, steps[0]), ttl, steps[1..])
  }
}
