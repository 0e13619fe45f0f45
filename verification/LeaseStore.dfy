/** The lease plane of `AgentDataStore`, updated in place one transaction at a time. */
module LeaseStore {
  import opened Base
  import opened LeasePlane
  import opened LeaseSafety

  class AgentLeaseStore {
    var clock: nat
    var runs: map<RunId, Run>
    var executions: map<ExecutionId, Execution>
    var leases: map<ExecutionId, Lease>
    var segments: map<SegmentId, Segment>
    var waits: map<WaitId, Wait>
    var revoked: set<ExecutionId>
    const ttl: nat

    ghost function Rows(): Tables
      reads this
    {
      Tables(clock, runs, executions, leases, segments, waits, revoked)
    }

    constructor (leaseTtlSeconds: nat)
      requires leaseTtlSeconds > 0
      ensures ttl == leaseTtlSeconds
      ensures Rows() == Tables(0, map[], map[], map[], map[], map[], {})
      ensures OwnersAreOpen(Rows()) && WaitsHoldNoLease(Rows())
    {
      ttl := leaseTtlSeconds;
      clock, runs, executions := 0, map[], map[];
      leases, segments, waits, revoked := map[], map[], map[], {};
    }

    /** `_acquire`: insert the lease row if absent, then take, keep or refuse it. */
    method Acquire(e: ExecutionId, owner: Option<SegmentId>) returns (r: Outcome<nat>)
      requires e in executions
      modifies this`leases, this`executions
      ensures match GrantFault(old(Rows()), e, owner)
        case Some(fault) => r == Err(fault) && executions == old(executions)
        case None =>
          && r == Ok(Grant(old(Rows()), ttl, e, owner).token)
          && leases == old(leases)[e := Grant(old(Rows()), ttl, e, owner)]
          && executions == old(executions)[e := old(executions[e]).(status := Running)]
    {
      if !executions[e].status.Executable() {
        return Err(RunNotExecutable);
      }
      if e !in leases {
        leases := leases[e := NoLease];
      }
      var row := leases[e];
      var active := row.expires.Some? && row.expires.value > clock;
      var same := active && row.owner == owner;
      if active && !same {
        return Err(LeaseConflict);
      }
      var token := row.token + if same then 0 else 1;
      leases := leases[e := Lease(owner, token, Some(clock + ttl))];
      executions := executions[e := executions[e].(status := Running)];
      r := Ok(token);
    }

    method AcquireSegment(q: SegmentInput) returns (r: Outcome<nat>)
      requires OwnersAreOpen(Rows()) && WaitsHoldNoLease(Rows())
      modifies this`leases, this`executions, this`segments
      ensures (r, Rows()) == LeasePlane.AcquireSegment(old(Rows()), ttl, q)
      ensures OwnersAreOpen(Rows()) && WaitsHoldNoLease(Rows())
      ensures r.Ok? ==> LeaseOf(Rows(), q.execution).owner == Some(q.segment)
    {
      StepKeepsOwnersOpen(Rows(), ttl, DoAcquire(q));
      StepKeepsWaitsUnleased(Rows(), ttl, DoAcquire(q));
      var savedLeases, savedSegments := leases, segments;  // what a rollback restores
      r := OpenSegment(q);
      if r.Err? {
        leases, segments := savedLeases, savedSegments;
      }
    }

    /** The statements of `acquire_segment`; an error leaves its inserts to the rollback. */
    method OpenSegment(q: SegmentInput) returns (r: Outcome<nat>)
      modifies this`leases, this`executions, this`segments
      ensures var (outcome, rows) := LeasePlane.AcquireSegment(old(Rows()), ttl, q);
        r == outcome && executions == rows.executions && (r.Ok? ==> Rows() == rows)
    {
      if !(q.run in runs && runs[q.run].Admitted() && runs[q.run].status.Executable())
         || q.execution !in executions || executions[q.execution].run != q.run {
        return Err(RunNotExecutable);
      }
      if exists w <- waits :: waits[w].execution == q.execution && waits[w].state == Waiting {
        return Err(LeaseConflict);
      }
      if q.segment !in segments {
        segments := segments[q.segment := Segment(q.run, q.execution, Requested, 0)];
      }
      var segment := segments[q.segment];
      if segment.run != q.run || segment.execution != q.execution || segment.state == Released {
        return Err(SegmentClosed);
      }
      r := Acquire(q.execution, Some(q.segment));
      if r.Ok? {
        segments := segments[q.segment := segment.(state := Active, token := r.value)];
        assert segments == old(segments)[q.segment := Segment(q.run, q.execution, Active, r.value)];
      }
    }

    method ValidateAndRenewLease(run: RunId, e: ExecutionId, token: nat) returns (r: Outcome<Unit>)
      requires OwnersAreOpen(Rows()) && WaitsHoldNoLease(Rows())
      modifies this`leases
      ensures (r, Rows()) == Renew(old(Rows()), ttl, run, e, token)
      ensures OwnersAreOpen(Rows()) && WaitsHoldNoLease(Rows())
    {
      if !(run in runs && runs[run].Admitted() && runs[run].status.Executable()) {
        return Err(StaleFencingToken);
      }
      if e !in executions || executions[e].run != run {
        return Err(RunNotExecutable);
      }
      if !executions[e].status.Executable() {
        return Err(StaleFencingToken);
      }
      if e in leases && leases[e].token == token && leases[e].expires.Some? && leases[e].expires.value > clock {
        StepKeepsWaitsUnleased(Rows(), ttl, DoRenew(run, e, token));
        leases := leases[e := leases[e].(expires := Some(clock + ttl))];
        r := Ok(Unit);
      } else {
        r := Err(StaleFencingToken);
      }
    }

    method ReleaseSegment(q: SegmentInput) returns (r: Outcome<Unit>)
      requires OwnersAreOpen(Rows()) && WaitsHoldNoLease(Rows())
      modifies this`leases, this`segments
      ensures (r, Rows()) == LeasePlane.ReleaseSegment(old(Rows()), q)
      ensures OwnersAreOpen(Rows()) && WaitsHoldNoLease(Rows())
      ensures r.Ok? ==> Buried(Rows(), q) && LeaseOf(Rows(), q.execution).owner != Some(q.segment)
    {
      ghost var before := Rows();
      if q.run !in runs {
        return Err(Rejected);
      }
      if q.execution !in executions || executions[q.execution].run != q.run {
        return Err(RunNotExecutable);
      }
      if q.segment !in segments {
        segments := segments[q.segment := Segment(q.run, q.execution, Released, 0)];
      }
      var segment := segments[q.segment];
      if segment.run == q.run && segment.execution == q.execution {
        segments := segments[q.segment := segment.(state := Released)];
      }
      if q.execution in leases && leases[q.execution].owner == Some(q.segment) {
        leases := leases[q.execution := leases[q.execution].(owner := None, expires := None)];
      }
      r := Ok(Unit);
      assert segments == LeasePlane.ReleaseSegment(before, q).1.segments;
      StepKeepsOwnersOpen(before, ttl, DoRelease(q));
      StepKeepsWaitsUnleased(before, ttl, DoRelease(q));
    }

    method BeginWait(run: RunId, e: ExecutionId, w: WaitId) returns (r: Outcome<Unit>)
      requires OwnersAreOpen(Rows()) && WaitsHoldNoLease(Rows())
      modifies this`waits
      ensures (r, Rows()) == LeasePlane.BeginWait(old(Rows()), run, e, w)
      ensures OwnersAreOpen(Rows()) && WaitsHoldNoLease(Rows())
      ensures r.Ok? ==> !Leased(Rows(), e) && w in waits
    {
      ghost var before := Rows();
      if !(run in runs && runs[run].Admitted() && runs[run].status.Executable())
         || e !in executions || executions[e].run != run {
        return Err(RunNotExecutable);
      }
      if e in leases && leases[e].expires.Some? && leases[e].expires.value > clock {
        return Err(LeaseConflict);
      }
      if w !in waits {
        waits := waits[w := Wait(run, e, Waiting)];
      }
      r := Ok(Unit);
      StepKeepsWaitsUnleased(before, ttl, DoBeginWait(run, e, w));
    }

    method FinishWait(run: RunId, e: ExecutionId, w: WaitId, state: WaitState) returns (active: bool)
      requires state != Waiting
      requires OwnersAreOpen(Rows()) && WaitsHoldNoLease(Rows())
      modifies this`waits
      ensures (active, Rows()) == LeasePlane.FinishWait(old(Rows()), run, e, w, state)
      ensures OwnersAreOpen(Rows()) && WaitsHoldNoLease(Rows())
    {
      ghost var before := Rows();
      active := run in runs && runs[run].Admitted() && runs[run].status.Executable()
                && e in executions && executions[e].run == run;
      if w in waits && waits[w].run == run && waits[w].execution == e && waits[w].state == Waiting {
        waits := waits[w := waits[w].(state := if active then state else WaitCancelled)];
      }
      StepKeepsWaitsUnleased(before, ttl, DoFinishWait(run, e, w, state));
    }
  }
}
