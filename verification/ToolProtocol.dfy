/**
 `tool_execution` (src/agent_activities/runtime.py) as an attempt machine over the
 operation plane.  Every database call is one step under the attempt's token; an
 attempt may crash, fail or be cancelled between any two, pause past its lease, and
 leave a cancelled call running in its thread, which commits later.
 */
module ToolProtocol {
  import opened Base
  import opened Fencing
  import opened Operations

  /** What one ToolExecutionInput fixes for all of its attempts. */
  datatype Request = Request(op: OperationId, expected: nat, arguments: string)

  /** Where an attempt is: the comment names what it awaits next. */
  datatype Stage =
    | Scheduled                                  // begin_tool_operation
    | Begun                                      // lease, transcript version and class checks
    | Checked(effect: EffectClass)               // record_operation_intent, or reconciliation
    | Ready(effect: EffectClass)                 // last validate_and_renew_lease
    | Cleared(effect: EffectClass)               // nothing: the tool call comes next
    | Calling(effect: EffectClass)               // the tool
    | Answered(answer: Answer)                   // complete_operation_with_event
    | Late(result: Payload)                      // receive, after a stale completion
    | Failing                                    // fail_operation
    | Marking                                    // mark_operation_uncertain
    | Over

  /** `seen` is the unresolved intent that begin returned; `calls` run on in abandoned threads. */
  datatype Attempt = Attempt(stage: Stage, seen: Option<Payload>, mayHaveExecuted: bool, calls: set<Call>)

  datatype Reconciled = ConfirmedCompleted(answer: Answer) | ConfirmedNotExecuted | StillUncertain | Unsupported

  /** `dispatched` counts tool calls made as non-idempotent writes, `confirmed` the ConfirmedNotExecuted answers. */
  datatype World = World(plane: Plane, attempts: map<nat, Attempt>, dispatched: nat, confirmed: nat)

  datatype Action =
    | Begin
    | Check(effect: EffectClass)
    | Persist
    | Recover(outcome: Reconciled)
    | Clear
    | Dispatch
    | Return(answer: Answer)
    | Commit
    | ReceiveLate
    | Raise                                      // any exception inside the try block
    | Cancel                                     // CancelledError; a pending call keeps running
    | FailStep
    | MarkStep
    | Crash
    | Land(call: Call)                           // an abandoned call commits, or is refused

  datatype Step =
    | Schedule(token: nat)
    | Act(token: nat, action: Action)
    | MoveFence(fence: Fence)
    | Others(rows: map<OperationId, Row>, log: seq<Event>)

  const Fresh := Attempt(Scheduled, None, false, {})

  function With(w: World, t: nat, a: Attempt): World {
    w.(attempts := w.attempts[t := a])
  }

  function At(w: World, t: nat, stage: Stage): World
    requires t in w.attempts
  {
    With(w, t, w.attempts[t].(stage := stage))
  }

  /** The except blocks: mark when the effect may have happened, fail otherwise. */
  function Handler(a: Attempt): Stage { if a.mayHaveExecuted then Marking else Failing }

  function IntentOf(r: Request, effect: EffectClass): Payload { Intent(effect, r.arguments) }

  predicate InTry(stage: Stage) {
    !stage.Scheduled? && !stage.Failing? && !stage.Marking? && !stage.Over?
  }

  /** The call an attempt leaves behind when it is cancelled at this stage. */
  function Pending(r: Request, a: Attempt): set<Call> {
    match a.stage
    case Scheduled => {CallBegin(ToolKind, true)}
    case Checked(effect) => if a.seen.None? then {CallIntent(IntentOf(r, effect))} else {}
    case Answered(answer) => {CallCompleteEvent(r.expected, answer)}
    case Late(result) => {CallReceive(result)}
    case Failing => {CallFail}
    case Marking => {CallUncertain}
    case _ => {}
  }

  function BeginStep(w: World, r: Request, t: nat): World
    requires t in w.attempts
  {
    var (outcome, plane) := BeginOperation(w.plane, t, r.op, ToolKind, true);
    var w' := w.(plane := plane);
    match outcome
    case Err(_) => At(w', t, Over)
    case Ok((status, payload)) =>
      if status == Completed then At(w', t, Over)
      else
        var seen := if status.Unresolved() then payload else None;
        With(w', t, Attempt(Begun, seen, seen.Some? && seen.value.Intent? && seen.value.effect == NonIdempotentWrite, {}))
  }

  function RecoverStep(w: World, r: Request, t: nat, outcome: Reconciled): World
    requires t in w.attempts && w.attempts[t].stage.Checked? && w.attempts[t].seen.Some?
  {
    var a := w.attempts[t];
    var effect := a.stage.effect;
    if a.seen.value != IntentOf(r, effect) then At(w, t, Handler(a))
    else if effect != NonIdempotentWrite then At(w, t, Ready(effect))
    else match outcome
      case ConfirmedCompleted(answer) => At(w, t, Answered(answer))
      case ConfirmedNotExecuted => At(w.(confirmed := w.confirmed + 1), t, Ready(effect))
      case _ => At(w, t, Marking)
  }

  function CommitStep(w: World, r: Request, t: nat): World
    requires t in w.attempts && w.attempts[t].stage.Answered?
  {
    var answer := w.attempts[t].stage.answer;
    var (outcome, plane) := CompleteWithEvent(w.plane, t, r.op, r.expected, answer);
    var w' := w.(plane := plane);
    match outcome
    case Ok(_) => At(w', t, Over)
    case Err(fault) =>
      if fault == StaleFencingToken then At(w', t, Late(Result(answer, r.expected)))
      else At(w', t, Handler(w.attempts[t]))
  }

  function LandStep(w: World, r: Request, t: nat, call: Call): World
    requires t in w.attempts && call in w.attempts[t].calls
  {
    var a := w.attempts[t];
    var late := if call.CallCompleteEvent?
                   && CompleteWithEvent(w.plane, t, r.op, call.expected, call.answer).0 == Err(StaleFencingToken)
                then {CallReceive(Result(call.answer, call.expected))} else {};
    With(w.(plane := Apply(w.plane, t, r.op, call)), t, a.(calls := a.calls - {call} + late))
  }

  function PersistStep(w: World, r: Request, t: nat): World
    requires t in w.attempts && w.attempts[t].stage.Checked?
  {
    var a := w.attempts[t];
    var (outcome, plane) := RecordIntent(w.plane, t, r.op, IntentOf(r, a.stage.effect));
    At(w.(plane := plane), t, if outcome.Ok? then Ready(a.stage.effect) else Handler(a))
  }

  function DispatchStep(w: World, t: nat): World
    requires t in w.attempts && w.attempts[t].stage.Cleared?
  {
    var a := w.attempts[t];
    var once := a.stage.effect == NonIdempotentWrite;
    With(w.(dispatched := w.dispatched + if once then 1 else 0), t,
         a.(stage := Calling(a.stage.effect), mayHaveExecuted := a.mayHaveExecuted || once))
  }

  function CancelStep(w: World, r: Request, t: nat): World
    requires t in w.attempts
  {
    var a := w.attempts[t];
    With(w, t, a.(stage := if InTry(a.stage) then Handler(a) else if a.stage.Marking? then Marking else Over,
                  calls := a.calls + Pending(r, a)))
  }

  predicate Enabled(w: World, r: Request, t: nat, action: Action) {
    t in w.attempts
    && var a := w.attempts[t];
       match action
       case Begin => a.stage.Scheduled?
       case Check(effect) =>
         a.stage.Begun? && w.plane.fence.Admits(t) && |w.plane.log| == r.expected && effect != Unknown
       case Persist => a.stage.Checked? && a.seen.None?
       case Recover(_) => a.stage.Checked? && a.seen.Some?
       case Clear => a.stage.Ready?
       case Dispatch => a.stage.Cleared?
       case Return(answer) => a.stage.Calling? && answer.ToolObserved?
       case Commit => a.stage.Answered?
       case ReceiveLate => a.stage.Late?
       case Raise => InTry(a.stage)
       case Cancel => !a.stage.Over?
       case FailStep => a.stage.Failing?
       case MarkStep => a.stage.Marking?
       case Crash => true
       case Land(call) => call in a.calls
  }

  function Advance(w: World, r: Request, t: nat, action: Action): World
    requires Enabled(w, r, t, action)
  {
    var a := w.attempts[t];
    match action
    case Begin => BeginStep(w, r, t)
    case Check(effect) => At(w, t, Checked(effect))
    case Persist => PersistStep(w, r, t)
    case Recover(outcome) => RecoverStep(w, r, t, outcome)
    case Clear => At(w, t, if w.plane.fence.Holds(t) then Cleared(a.stage.effect) else Handler(a))
    case Dispatch => DispatchStep(w, t)
    case Return(answer) =>
      At(w, t, if a.stage.effect == NonIdempotentWrite && !answer.success then Marking else Answered(answer))
    case Commit => CommitStep(w, r, t)
    case ReceiveLate => At(w.(plane := Receive(w.plane, t, r.op, a.stage.result).1), t, Handler(a))
    case Raise => At(w, t, Handler(a))
    case Cancel => CancelStep(w, r, t)
    case FailStep => At(w.(plane := FailOperation(w.plane, t, r.op).1), t, Over)
    case MarkStep => At(w.(plane := MarkUncertain(w.plane, t, r.op).1), t, Over)
    case Crash => At(w, t, Over)
    case Land(call) => LandStep(w, r, t, call)
  }

  /** One step of the protocol; a step that is not enabled changes nothing. */
  function Next(w: World, r: Request, step: Step): World {
    match step
    case Schedule(t) => if t in w.attempts || t > w.plane.fence.token then w else With(w, t, Fresh)
    case Act(t, action) => if Enabled(w, r, t, action) then Advance(w, r, t, action) else w
    case MoveFence(f) => w.(plane := w.plane.(fence := f))
    case Others(rows, log) => w.(plane := w.plane.(rows := rows, log := log))
  }

  /** The environment: fences move as leases do, other operations leave this row and its event alone. */
  ghost predicate Allowed(w: World, r: Request, step: Step) {
    match step
    case MoveFence(f) => FenceStep(w.plane.fence, f)
    case Others(rows, log) =>
      && (r.op in rows <==> r.op in w.plane.rows)
      && (r.op in rows ==> rows[r.op] == w.plane.rows[r.op])
      && w.plane.log <= log && (Logged(log, r.op) ==> Logged(w.plane.log, r.op))
    case _ => true
  }

  function Execute(w: World, r: Request, steps: seq<Step>): World
    decreases |steps|
  {
    if steps == [] then w else Execute(Next(w, r, steps[0]), r, steps[1..])
  }

  ghost predicate AllAllowed(w: World, r: Request, steps: seq<Step>)
    decreases |steps|
  {
    steps == [] || (Allowed(w, r, steps[0]) && AllAllowed(Next(w, r, steps[0]), r, steps[1..]))
  }

  /** Nothing has happened to the operation yet. */
  ghost predicate Initial(w: World, r: Request) {
    r.op !in w.plane.rows && w.attempts == map[] && w.dispatched == 0 && w.confirmed == 0
  }
}
