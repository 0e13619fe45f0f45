/**
 What `uncertain` settles.  Marking an operation uncertain is final exactly when the
 marking attempt left no completion running behind it, and ends its dispatches exactly
 when no attempt had already passed its last lease check.
 */
module ToolUncertain {
  import opened Base
  import opened Fencing
  import opened Operations
  import opened ToolProtocol
  import opened ToolSafety

  predicate Completes(c: Call) { c.CallComplete? || c.CallCompleteEvent? || c.CallReceive? }

  function Last(row: Row): nat
    requires row.attempts != []
  {
    row.attempts[|row.attempts| - 1]
  }

  /** An attempt that can only confirm the uncertainty it found, or deliver what it already has. */
  predicate Resigned(a: Attempt) {
    && (|| a.stage.Scheduled? || a.stage.Marking? || a.stage.Over?
        || ((a.stage.Begun? || a.stage.Checked?) && SawNonIdempotent(a) && a.mayHaveExecuted))
    && (forall c <- a.calls :: !Resets(c))
  }

  predicate CompletionRunning(a: Attempt) { exists c <- a.calls :: Completes(c) }

  /** The row after a mark: uncertain about a non-idempotent intent, or completed since. */
  ghost predicate MarkedRow(p: Plane, op: OperationId) {
    && op in p.rows && RowShaped(p, op) && p.rows[op].attempts != []
    && Guarded(p, op) && p.rows[op].status != IntentRecorded
  }

  /** Older attempts are fenced off, and the others are resigned. */
  ghost predicate Settled(w: World, r: Request) {
    && MarkedRow(w.plane, r.op)
    && (forall t <- w.attempts :: Last(w.plane.rows[r.op]) <= t ==> Resigned(w.attempts[t]))
  }

  /** ... and none of those has a completion on its way. */
  ghost predicate Silent(w: World, r: Request) {
    && Settled(w, r) && w.plane.rows[r.op].status == Uncertain
    && (forall t <- w.attempts :: Last(w.plane.rows[r.op]) <= t ==> !CompletionRunning(w.attempts[t]))
  }

  /** The row up to its receipts. */
  predicate SameRow(p: Plane, q: Plane, op: OperationId) {
    && op in p.rows && op in q.rows && q.fence == p.fence
    && q.rows[op] == p.rows[op].(receipts := q.rows[op].receipts)
  }

  /** No transaction of an attempt older than the latest changes more than its own receipt. */
  lemma {:induction false} OlderCallKeepsRow(p: Plane, op: OperationId, t: nat, call: Call)
    requires MarkedRow(p, op) && t < Last(p.rows[op])
    ensures SameRow(p, Apply(p, t, op, call), op)
  {
    assert !p.fence.Admits(t);
    match call {
      case CallReceive(payload) =>
        assert !p.rows[op].Latest(t);
      case _ =>
    }
  }

  /** Actions that call no transaction. */
  predicate Local(action: Action) {
    !action.Begin? && !action.Persist? && !action.Commit? && !action.ReceiveLate? && !action.FailStep? && !action.MarkStep?
    && !action.Land?
  }

  /** The transaction that an action calls. */
  function CallOf(r: Request, a: Attempt, action: Action): Call
    requires !Local(action)
    requires (action.Persist? ==> a.stage.Checked?) && (action.Commit? ==> a.stage.Answered?)
    requires action.ReceiveLate? ==> a.stage.Late?
  {
    match action
    case Begin => CallBegin(ToolKind, true)
    case Persist => CallIntent(IntentOf(r, a.stage.effect))
    case Commit => CallCompleteEvent(r.expected, a.stage.answer)
    case ReceiveLate => CallReceive(a.stage.result)
    case FailStep => CallFail
    case MarkStep => CallUncertain
    case Land(call) => call
  }

  lemma {:induction false} ActionsCall(w: World, r: Request, t: nat, action: Action)
    requires Enabled(w, r, t, action)
    ensures Advance(w, r, t, action).plane ==
      if Local(action) then w.plane else Apply(w.plane, t, r.op, CallOf(r, w.attempts[t], action))
  {
  }

  lemma {:induction false} OlderActionKeepsRow(w: World, r: Request, t: nat, action: Action)
    requires MarkedRow(w.plane, r.op) && Enabled(w, r, t, action) && t < Last(w.plane.rows[r.op])
    ensures SameRow(w.plane, Advance(w, r, t, action).plane, r.op)
  {
    ActionsCall(w, r, t, action);
    if !Local(action) {
      OlderCallKeepsRow(w.plane, r.op, t, CallOf(r, w.attempts[t], action));
    }
  }

  /** `t` joined the attempts, or delivered its completion. */
  ghost predicate Joined(p: Plane, q: Plane, op: OperationId, t: nat, silent: bool) {
    && MarkedRow(p, op) && MarkedRow(q, op) && q.fence == p.fence
    && (q.rows[op].attempts == p.rows[op].attempts || Last(q.rows[op]) == t)
    && (silent ==> q.rows[op].status == p.rows[op].status)
  }

  lemma {:induction false} ResignedCall(p: Plane, op: OperationId, t: nat, call: Call)
    requires MarkedRow(p, op) && !Resets(call)
    ensures Joined(p, Apply(p, t, op, call), op, t, !Completes(call))
  {
    match call {
      case CallBegin(kind, allow) => BeginCallKeeps(p, op, t, kind, allow);
      case CallUncertain =>
      case _ => CompletionKeeps(p, op, t, call);
    }
  }

  lemma {:induction false} StaysResigned(w: World, r: Request, t: nat, action: Action)
    requires MarkedRow(w.plane, r.op) && Enabled(w, r, t, action) && Resigned(w.attempts[t])
    requires action.Recover? ==> action.outcome == Unsupported
    ensures var w' := Advance(w, r, t, action);
      && t in w'.attempts && Resigned(w'.attempts[t])
      && (CompletionRunning(w'.attempts[t]) ==> CompletionRunning(w.attempts[t]))
  {
  }

  lemma {:induction false} ResignedAction(w: World, r: Request, t: nat, action: Action)
    requires MarkedRow(w.plane, r.op) && Enabled(w, r, t, action) && Resigned(w.attempts[t])
    requires action.Recover? ==> action.outcome == Unsupported
    ensures var w' := Advance(w, r, t, action);
      && Joined(w.plane, w'.plane, r.op, t, !CompletionRunning(w.attempts[t]))
      && t in w'.attempts && Resigned(w'.attempts[t])
      && (CompletionRunning(w'.attempts[t]) ==> CompletionRunning(w.attempts[t]))
  {
    ActionsCall(w, r, t, action);
    if !Local(action) {
      ResignedCall(w.plane, r.op, t, CallOf(r, w.attempts[t], action));
    }
    StaysResigned(w, r, t, action);
  }

  /** Attempts that get no further than their intent, once settled. */
  ghost predicate NoneCleared(w: World) {
    forall t <- w.attempts :: w.attempts[t].stage != Cleared(NonIdempotentWrite)
  }

  lemma {:induction false} SettledStep(w: World, r: Request, step: Step)
    requires Settled(w, r) && Allowed(w, r, step)
    requires step.Act? && step.action.Recover? ==> step.action.outcome == Unsupported
    ensures Settled(Next(w, r, step), r)
    ensures Silent(w, r) ==> Silent(Next(w, r, step), r)
  {
    if step.Act? && Enabled(w, r, step.token, step.action) {
      var t := step.token;
      ActionReplaces(w, r, t, step.action);
      if t < Last(w.plane.rows[r.op]) {
        OlderActionKeepsRow(w, r, t, step.action);
      } else {
        ResignedAction(w, r, t, step.action);
      }
    }
  }

  lemma {:induction false} ClearedStep(w: World, r: Request, step: Step)
    requires Settled(w, r) && NoneCleared(w) && Allowed(w, r, step)
    requires step.Act? && step.action.Recover? ==> step.action.outcome == Unsupported
    ensures NoneCleared(Next(w, r, step)) && Next(w, r, step).dispatched == w.dispatched
  {
    if step.Act? && Enabled(w, r, step.token, step.action) {
      ActionReplaces(w, r, step.token, step.action);
    }
  }

  lemma {:induction false} SettledForGood(w: World, r: Request, steps: seq<Step>)
    requires Settled(w, r) && AllAllowed(w, r, steps) && Defaulted(steps)
    ensures var end := Execute(w, r, steps);
      && Settled(end, r)
      && (Silent(w, r) ==> Silent(end, r))
      && (NoneCleared(w) ==> end.dispatched == w.dispatched)
    decreases |steps|
  {
    if steps != [] {
      assert steps[0] in steps;
      SettledStep(w, r, steps[0]);
      if NoneCleared(w) {
        ClearedStep(w, r, steps[0]);
      }
      SettledForGood(Next(w, r, steps[0]), r, steps[1..]);
    }
  }

  /** Whatever happens from `w` on, the operation stays uncertain. */
  ghost predicate StaysUncertain(w: World, r: Request) {
    forall steps {:trigger Execute(w, r, steps)} :: AllAllowed(w, r, steps) && Defaulted(steps) ==>
      var p := Execute(w, r, steps).plane;
      r.op in p.rows && p.rows[r.op].status == Uncertain
  }

  ghost predicate NeverDispatchesAgain(w: World, r: Request) {
    forall steps {:trigger Execute(w, r, steps)} :: AllAllowed(w, r, steps) && Defaulted(steps) ==>
      Execute(w, r, steps).dispatched == w.dispatched
  }

  /** `t` marks the operation uncertain, as the lease holder and before any completion. */
  predicate Marks(w: World, r: Request, t: nat) {
    && Enabled(w, r, t, MarkStep) && w.plane.fence.Admits(t)
    && r.op in w.plane.rows && w.plane.rows[r.op].status != Completed
  }

  function Marked(w: World, r: Request, t: nat): World
    requires Marks(w, r, t)
  {
    Advance(w, r, t, MarkStep)
  }

  lemma {:induction false} MarkingSettles(w: World, r: Request, t: nat)
    requires Inv(w, r) && Marks(w, r, t)
    ensures Settled(Marked(w, r, t), r) && Marked(w, r, t).plane.rows[r.op].status == Uncertain
    ensures !CompletionRunning(w.attempts[t]) ==> Silent(Marked(w, r, t), r)
  {
    assert SoundIn(w, r, t);
    var w' := Marked(w, r, t);
    assert Last(w'.plane.rows[r.op]) == t;
    forall u | u in w'.attempts && t <= u
      ensures u == t
    {
      assert SoundIn(w, r, u);
    }
  }

  // --------------------------------------------------------------- receipts

  ghost predicate OneCompletion(a: Attempt) {
    forall c, d :: c in a.calls && d in a.calls && Completes(c) && Completes(d) ==> c == d
  }

  /** The attempt has nothing left to complete the operation with. */
  predicate Past(a: Attempt) { (a.stage.Failing? || a.stage.Marking? || a.stage.Over?) && !CompletionRunning(a) }

  ghost predicate ReceiptsArePast(w: World, r: Request) {
    r.op in w.plane.rows && w.plane.rows[r.op].status != Completed ==>
      forall t <- w.plane.rows[r.op].receipts :: t in w.attempts && Past(w.attempts[t])
  }

  /** A late receipt is the end of the one result an attempt had. */
  ghost predicate OneResult(w: World, r: Request) {
    (forall t <- w.attempts :: OneCompletion(w.attempts[t])) && ReceiptsArePast(w, r)
  }

  /** What a transaction of `t` leaves of an uncompleted row's receipts. */
  lemma {:induction false} CallReceipts(p: Plane, op: OperationId, t: nat, call: Call)
    ensures var q := Apply(p, t, op, call);
      op in q.rows && q.rows[op].status != Completed ==>
        && (op in p.rows ==> p.rows[op].status != Completed)
        && forall u <- q.rows[op].receipts :: (op in p.rows && u in p.rows[op].receipts) || (u == t && call.CallReceive?)
  {
  }

  lemma {:induction false} ActionKeepsOneResult(w: World, r: Request, t: nat, action: Action)
    requires Enabled(w, r, t, action) && Shaped(w.attempts[t]) && OneCompletion(w.attempts[t])
    ensures var w' := Advance(w, r, t, action);
      t in w'.attempts && OneCompletion(w'.attempts[t]) && (Past(w.attempts[t]) ==> Past(w'.attempts[t]))
  {
  }

  lemma {:induction false} DeliveredIsPast(w: World, r: Request, t: nat, action: Action)
    requires Enabled(w, r, t, action) && Shaped(w.attempts[t]) && OneCompletion(w.attempts[t])
    requires !Local(action) && CallOf(r, w.attempts[t], action).CallReceive?
    ensures t in Advance(w, r, t, action).attempts && Past(Advance(w, r, t, action).attempts[t])
  {
    assert action.ReceiveLate? || action.Land?;
  }

  lemma {:induction false} ActionReceipts(w: World, r: Request, t: nat, action: Action)
    requires Enabled(w, r, t, action) && Shaped(w.attempts[t]) && OneCompletion(w.attempts[t])
    ensures var w' := Advance(w, r, t, action);
      && t in w'.attempts
      && (r.op in w'.plane.rows && w'.plane.rows[r.op].status != Completed ==>
            && (r.op in w.plane.rows ==> w.plane.rows[r.op].status != Completed)
            && forall u <- w'.plane.rows[r.op].receipts ::
                 (r.op in w.plane.rows && u in w.plane.rows[r.op].receipts) || (u == t && Past(w'.attempts[t])))
  {
    ActionsCall(w, r, t, action);
    ActionKeepsOneResult(w, r, t, action);
    if !Local(action) {
      var call := CallOf(r, w.attempts[t], action);
      CallReceipts(w.plane, r.op, t, call);
      if call.CallReceive? {
        DeliveredIsPast(w, r, t, action);
      }
    }
  }

  lemma {:induction false} StepKeepsOneResult(w: World, r: Request, step: Step)
    requires Inv(w, r) && OneResult(w, r) && Allowed(w, r, step)
    ensures OneResult(Next(w, r, step), r)
  {
    var w' := Next(w, r, step);
    if step.Act? && Enabled(w, r, step.token, step.action) {
      var t := step.token;
      assert SoundIn(w, r, t);
      ActionReplaces(w, r, t, step.action);
      ActionKeepsOneResult(w, r, t, step.action);
      ActionReceipts(w, r, t, step.action);
      forall u | u in w'.attempts
        ensures OneCompletion(w'.attempts[u])
      {
        assert u != t ==> w'.attempts[u] == w.attempts[u];
      }
    }
  }

  lemma {:induction false} OneResultEverywhere(w: World, r: Request, steps: seq<Step>)
    requires Inv(w, r) && OneResult(w, r) && AllAllowed(w, r, steps)
    ensures Inv(Execute(w, r, steps), r) && OneResult(Execute(w, r, steps), r)
    decreases |steps|
  {
    if steps != [] {
      StepInv(w, r, steps[0]);
      StepKeepsOneResult(w, r, steps[0]);
      OneResultEverywhere(Next(w, r, steps[0]), r, steps[1..]);
    }
  }

  lemma {:induction false} RunOne(w: World, r: Request, step: Step, rest: seq<Step>)
    ensures Execute(w, r, [step] + rest) == Execute(Next(w, r, step), r, rest)
    ensures Allowed(w, r, step) && AllAllowed(Next(w, r, step), r, rest) ==> AllAllowed(w, r, [step] + rest)
  {
    assert ([step] + rest)[1..] == rest;
  }

  /** The run is cancelled, and the late result of the latest attempt is adopted. */
  lemma {:induction false} LateResultCompletes(w: World, r: Request, t: nat, c: Call)
    requires MarkedRow(w.plane, r.op) && w.plane.rows[r.op].status == Uncertain && t in w.attempts && c in w.attempts[t].calls && c.CallReceive?
    requires w.plane.rows[r.op].Latest(t) && t !in w.plane.rows[r.op].receipts && w.plane.fence.standing == Revoked
    ensures !StaysUncertain(w, r)
  {
    var step := Act(t, Land(c));
    RunOne(w, r, step, []);
    assert Next(w, r, step).plane.rows[r.op].status == Completed;
    assert AllAllowed(w, r, [step] + []) && Defaulted([step] + []);
  }

  lemma {:induction false} NotYetUncertainLater(w: World, r: Request, step: Step)
    requires Allowed(w, r, step) && (step.Act? ==> !step.action.Recover?) && !StaysUncertain(Next(w, r, step), r)
    ensures !StaysUncertain(w, r)
  {
    var rest :| AllAllowed(Next(w, r, step), r, rest) && Defaulted(rest) &&
      var p := Execute(Next(w, r, step), r, rest).plane; !(r.op in p.rows && p.rows[r.op].status == Uncertain);
    RunOne(w, r, step, rest);
    assert AllAllowed(w, r, [step] + rest) && Defaulted([step] + rest);
  }

  lemma {:induction false} RunningCompletionLands(w: World, r: Request, t: nat, c: Call)
    requires MarkedRow(w.plane, r.op) && w.plane.rows[r.op].status == Uncertain && t in w.attempts && c in w.attempts[t].calls
    requires c.CallCompleteEvent? || c.CallReceive?
    requires w.plane.rows[r.op].Latest(t) && t !in w.plane.rows[r.op].receipts && w.plane.fence.Admits(t)
    ensures !StaysUncertain(w, r)
  {
    var cancel := MoveFence(Fence(t, false, Revoked, None, false));
    var w1 := Next(w, r, cancel);
    if c.CallReceive? {
      LateResultCompletes(w1, r, t, c);
    } else {
      var land := Act(t, Land(c));
      var w2 := Next(w1, r, land);
      assert w2.plane == w1.plane;
      LateResultCompletes(w2, r, t, CallReceive(Result(c.answer, c.expected)));
      NotYetUncertainLater(w1, r, land);
    }
    NotYetUncertainLater(w, r, cancel);
  }

  lemma {:induction false} FinalExactly(w: World, r: Request, t: nat)
    requires Inv(w, r) && OneResult(w, r) && Marks(w, r, t)
    ensures StaysUncertain(Marked(w, r, t), r) <==> !CompletionRunning(w.attempts[t])
  {
    var w' := Marked(w, r, t);
    MarkingSettles(w, r, t);
    if CompletionRunning(w.attempts[t]) {
      assert SoundIn(w, r, t);
      var c :| c in w.attempts[t].calls && Completes(c);
      RunningCompletionLands(w', r, t, c);
    } else {
      forall steps | AllAllowed(w', r, steps) && Defaulted(steps)
        ensures var p := Execute(w', r, steps).plane; r.op in p.rows && p.rows[r.op].status == Uncertain
      {
        SettledForGood(w', r, steps);
      }
    }
  }

  /**
   After any run, uncertain is final, with the default reconciler and over every later
   run, exactly when the attempt that marks it left no completion or late receipt running
   in a thread.
   */
  lemma {:induction false} UncertainIsFinalExactly(start: World, r: Request, steps: seq<Step>, t: nat)
    requires Initial(start, r) && AllAllowed(start, r, steps) && Marks(Execute(start, r, steps), r, t)
    ensures var w := Execute(start, r, steps);
      StaysUncertain(Marked(w, r, t), r) <==> !CompletionRunning(w.attempts[t])
  {
    InitialInv(start, r);
    OneResultEverywhere(start, r, steps);
    FinalExactly(Execute(start, r, steps), r, t);
  }

  lemma {:induction false} ClearedStillCalls(w: World, r: Request, t: nat)
    requires t in w.attempts && w.attempts[t].stage == Cleared(NonIdempotentWrite)
    ensures !NeverDispatchesAgain(w, r)
  {
    var step := Act(t, Dispatch);
    RunOne(w, r, step, []);
    assert AllAllowed(w, r, [step] + []) && Defaulted([step] + []);
    assert Execute(w, r, [step] + []).dispatched == w.dispatched + 1;
  }

  /**
   Once marked uncertain the tool is never called again, over every later run with the
   default reconciler, exactly when no attempt is between its last lease check and the call.
   */
  lemma {:induction false} MarkingEndsDispatchExactly(w: World, r: Request, t: nat)
    requires Inv(w, r) && Marks(w, r, t)
    ensures NeverDispatchesAgain(Marked(w, r, t), r) <==> NoneCleared(w)
  {
    var w' := Marked(w, r, t);
    MarkingSettles(w, r, t);
    if NoneCleared(w) {
      forall steps | AllAllowed(w', r, steps) && Defaulted(steps)
        ensures Execute(w', r, steps).dispatched == w'.dispatched
      {
        SettledForGood(w', r, steps);
      }
    } else {
      var u :| u in w.attempts && w.attempts[u].stage == Cleared(NonIdempotentWrite);
      ClearedStillCalls(w', r, u);
    }
  }
}
