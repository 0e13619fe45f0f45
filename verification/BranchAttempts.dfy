/**
 One root's delegation (src/agent_activities/delegation.py): which branch executions
 `_prepare` creates, how `_finish_branch` ends them, and what `_aggregate` reports.
 */
module BranchAttempts {
  import opened Base
  import opened LeasePlane

  datatype Brief = Brief(key: string, required: bool)

  /** A branch execution, by branch key and attempt; `error` is its `error_code`, if any. */
  datatype Branch = Branch(status: Status, error: Option<string>)

  type Rows = map<(string, nat), Branch>

  datatype Delegation = Delegation(operation: string, briefs: seq<Brief>)
  datatype State = State(delegation: Option<Delegation>, rows: Rows)

  predicate NonRetryable(code: string) {
    code in {"run_budget_exhausted", "work_budget_exhausted", "account_daily_budget_exhausted",
             "stale_fencing_token", "run_not_executable", "delegation_scope_denied"}
  }

  /** `validate_briefs`: one to three branches with different keys. */
  predicate ValidBriefs(briefs: seq<Brief>) {
    1 <= |briefs| <= 3 && forall i, j :: 0 <= i < j < |briefs| ==> briefs[i].key != briefs[j].key
  }

  /** `ORDER BY branch_attempt DESC LIMIT 1` */
  function LatestAttempt(rows: Rows, key: string): nat {
    if (key, 2) in rows then 2 else if (key, 1) in rows then 1 else 0
  }

  /** A retry skips what has not failed, or may not be retried. */
  predicate Skipped(rows: Rows, key: string, attempt: nat) {
    attempt == 2
    && var latest := LatestAttempt(rows, key);
       || latest == 0
       || (var prior := rows[(key, latest)];
           || (prior.error.Some? && NonRetryable(prior.error.value))
           || (latest == 1 && prior.status != Failed))
  }

  predicate Fresh(rows: Rows, key: string, attempt: nat) {
    !Skipped(rows, key, attempt) && LatestAttempt(rows, key) != attempt
  }

  /** The keys a round runs: new ones and those of its attempt that exist already. */
  function Pending(rows: Rows, briefs: seq<Brief>, attempt: nat): seq<string> {
    if briefs == [] then []
    else
      var before := Pending(rows, briefs[..|briefs| - 1], attempt);
      var key := briefs[|briefs| - 1].key;
      if Skipped(rows, key, attempt) then before else before + [key]
  }

  function NewKeys(rows: Rows, briefs: seq<Brief>, attempt: nat): set<string> {
    set b | b in briefs && Fresh(rows, b.key, attempt) :: b.key
  }

  /** A second row for a key and attempt violates `uq_execution_branch_attempt`. */
  predicate Collides(rows: Rows, briefs: seq<Brief>, attempt: nat) {
    exists key <- NewKeys(rows, briefs, attempt) :: (key, attempt) in rows
  }

  function Slots(keys: set<string>, attempt: nat): set<(string, nat)> { set key | key in keys :: (key, attempt) }

  function WithNew(rows: Rows, keys: set<string>, attempt: nat): Rows {
    rows + map k | k in Slots(keys, attempt) :: Branch(Queued, None)
  }

  /** `_prepare`; `room` says how many new branches capacity and budgets admit, `allowed` covers the scope checks. */
  function Prepare(s: State, operation: string, briefs: seq<Brief>, attempt: nat, allowed: bool, room: nat)
    : (Outcome<seq<string>>, State)
  {
    var newKeys := NewKeys(s.rows, briefs, attempt);
    if (attempt != 1 && attempt != 2) || !ValidBriefs(briefs) || !allowed then (Err(Rejected), s)
    else if s.delegation.Some? && s.delegation.value != Delegation(operation, briefs) then (Err(Rejected), s)
    else if |newKeys| > room || Collides(s.rows, briefs, attempt) then (Err(Rejected), s)
    else (Ok(Pending(s.rows, briefs, attempt)),
          State(Some(Delegation(operation, briefs)), WithNew(s.rows, newKeys, attempt)))
  }

  /** `_finish_branch`; `active`: the run may progress, `receipt`: the result has its own current receipt. */
  function Finish(s: State, key: string, attempt: nat, status: Status, error: Option<string>, active: bool, receipt: bool)
    : (Outcome<Unit>, State)
  {
    if (key, attempt) !in s.rows || !status.Terminal() then (Err(Rejected), s)
    else if s.rows[(key, attempt)].status.Terminal() then (Ok(Unit), s)
    else
      var final := if active then status else Cancelled;
      if final == Succeeded && !receipt then (Err(Rejected), s)
      else (Ok(Unit), s.(rows := s.rows[(key, attempt) := Branch(final, error)]))
  }

  /** An acquisition or a run status change: terminal branches are immutable. */
  function Touch(s: State, key: string, attempt: nat, status: Status): State {
    if (key, attempt) in s.rows && !s.rows[(key, attempt)].status.Terminal() && status != Failed && status != Succeeded
    then s.(rows := s.rows[(key, attempt) := s.rows[(key, attempt)].(status := status)])
    else s
  }

  /** `success` of `_aggregate`; a brief without an execution is a KeyError, an active branch a ValueError. */
  function Aggregate(s: State, operation: string): Outcome<bool> {
    if s.delegation.None? || s.delegation.value.operation != operation then Ok(false)
    else if exists b <- s.delegation.value.briefs ::
              LatestAttempt(s.rows, b.key) == 0 || !s.rows[(b.key, LatestAttempt(s.rows, b.key))].status.Terminal()
    then Err(Rejected)
    else Ok(forall b <- s.delegation.value.briefs ::
              b.required ==> s.rows[(b.key, LatestAttempt(s.rows, b.key))].status == Succeeded)
  }

  // ------------------------------------------------------------ whole runs

  datatype BranchStep =
    | DoPrepare(operation: string, briefs: seq<Brief>, attempt: nat, allowed: bool, room: nat)
    | DoFinish(key: string, attempt: nat, status: Status, error: Option<string>, active: bool, receipt: bool)
    | DoTouch(key: string, attempt: nat, status: Status)

  function BranchNext(s: State, step: BranchStep): State {
    match step
    case DoPrepare(operation, briefs, attempt, allowed, room) => Prepare(s, operation, briefs, attempt, allowed, room).1
    case DoFinish(key, attempt, status, error, active, receipt) => Finish(s, key, attempt, status, error, active, receipt).1
    case DoTouch(key, attempt, status) => Touch(s, key, attempt, status)
  }

  function BranchRun(s: State, steps: seq<BranchStep>): State
    decreases |steps|
  {
    if steps == [] then s else BranchRun(BranchNext(s, steps[0]), steps[1..])
  }

  /** At most two attempts per key; the second only after a first that failed retryably. */
  ghost predicate Shaped(rows: Rows) {
    forall k {:trigger k in rows} :: k in rows ==>
      && 1 <= k.1 <= 2
      && (k.1 == 2 ==> RetryOf(rows, k.0))
  }

  predicate RetryOf(rows: Rows, key: string) {
    && (key, 1) in rows && rows[(key, 1)].status == Failed
    && !(rows[(key, 1)].error.Some? && NonRetryable(rows[(key, 1)].error.value))
  }

  /** Rows only appear, and a terminal one never changes. */
  ghost predicate Kept(rows: Rows, later: Rows) {
    forall k {:trigger k in later} :: k in rows ==> k in later && (rows[k].status.Terminal() ==> later[k] == rows[k])
  }

  lemma {:induction false} StepKeepsRows(s: State, step: BranchStep)
    ensures Kept(s.rows, BranchNext(s, step).rows)
  {
  }

  lemma {:induction false} NewRowsAreRetries(rows: Rows, briefs: seq<Brief>, attempt: nat, key: string)
    requires Shaped(rows) && key in NewKeys(rows, briefs, attempt) && attempt == 2
    ensures RetryOf(rows, key)
  {
  }

  lemma {:induction false} PrepareKeepsShape(s: State, operation: string, briefs: seq<Brief>, attempt: nat, allowed: bool, room: nat)
    requires Shaped(s.rows)
    ensures Shaped(Prepare(s, operation, briefs, attempt, allowed, room).1.rows)
  {
    var later := Prepare(s, operation, briefs, attempt, allowed, room).1.rows;
    if Prepare(s, operation, briefs, attempt, allowed, room).0.Ok? {
      forall k | k in later
        ensures 1 <= k.1 <= 2 && (k.1 == 2 ==> RetryOf(later, k.0))
      {
        if k !in s.rows && k.1 == 2 {
          NewRowsAreRetries(s.rows, briefs, attempt, k.0);
        }
        if k.1 == 2 {
          assert (k.0, 1) in s.rows && (k.0, 1) in later;
        }
      }
    }
  }

  lemma {:induction false} StepKeepsShape(s: State, step: BranchStep)
    requires Shaped(s.rows)
    ensures Shaped(BranchNext(s, step).rows)
  {
    match step
    case DoPrepare(operation, briefs, attempt, allowed, room) =>
      PrepareKeepsShape(s, operation, briefs, attempt, allowed, room);
    case _ =>
      StepKeepsRows(s, step);
      var later := BranchNext(s, step).rows;
      forall k | k in later
        ensures 1 <= k.1 <= 2 && (k.1 == 2 ==> RetryOf(later, k.0))
      {
        assert k in s.rows;
        if k.1 == 2 {
          assert RetryOf(s.rows, k.0) && (k.0, 1) in later;
        }
      }
  }

  /**
   Over every run of preparations, completions, acquisitions and cancellations, retried or
   out of order: each key has at most two executions, the second one only while the first
   is failed with a retryable code, and a branch that ended never changes.
   */
  lemma {:induction false} AttemptsAreBounded(s: State, steps: seq<BranchStep>)
    requires Shaped(s.rows)
    ensures Shaped(BranchRun(s, steps).rows) && Kept(s.rows, BranchRun(s, steps).rows)
    decreases |steps|
  {
    if steps != [] {
      var next := BranchNext(s, steps[0]);
      StepKeepsShape(s, steps[0]);
      StepKeepsRows(s, steps[0]);
      AttemptsAreBounded(next, steps[1..]);
      var later := BranchRun(s, steps).rows;
      forall k | k in s.rows
        ensures k in later && (s.rows[k].status.Terminal() ==> later[k] == s.rows[k])
      {
        assert k in next.rows;
      }
    }
  }

  /** A branch that succeeded is never run again. */
  lemma {:induction false} SucceededIsNeverRerun(s: State, steps: seq<BranchStep>, key: string)
    requires Shaped(s.rows) && (key, 1) in s.rows && s.rows[(key, 1)].status == Succeeded
    ensures var later := BranchRun(s, steps).rows; (key, 2) !in later && (key, 1) in later && later[(key, 1)] == s.rows[(key, 1)]
  {
    AttemptsAreBounded(s, steps);
    var later := BranchRun(s, steps).rows;
    assert (key, 1) in later;
  }

  // ----------------------------------------------------------- delegations

  /** An existing delegation has an execution for every brief. */
  ghost predicate Covered(s: State) {
    s.delegation.Some? ==> forall b <- s.delegation.value.briefs :: (b.key, 1) in s.rows
  }

  /**
   A preparation keeps every brief covered exactly unless it is a retry round accepted
   before any first round: that one records the delegation without an execution.
   */
  lemma {:induction false} PrepareCoversExactly(s: State, operation: string, briefs: seq<Brief>, attempt: nat, allowed: bool, room: nat)
    requires Shaped(s.rows) && Covered(s) && (s.delegation.None? ==> s.rows == map[])
    ensures var (outcome, later) := Prepare(s, operation, briefs, attempt, allowed, room);
      Covered(later) <==> !(outcome.Ok? && attempt == 2 && s.delegation.None?)
  {
    var (outcome, later) := Prepare(s, operation, briefs, attempt, allowed, room);
    if outcome.Ok? {
      if s.delegation.None? && attempt == 2 {
        assert briefs[0] in briefs && (briefs[0].key, 1) !in later.rows;
      } else {
        forall b | b in briefs
          ensures (b.key, 1) in later.rows
        {
          if attempt == 1 && (b.key, 1) !in s.rows {
            assert (b.key, 2) !in s.rows;
            assert b.key in NewKeys(s.rows, briefs, attempt);
          }
        }
      }
    }
  }
}
