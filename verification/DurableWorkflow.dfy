/**
 A deterministic workflow over the operation plane: what it awaits is a function of the
 results it has received, and every command is carried out by attempts that may crash,
 be retried under a later token, or go on running after they lost their lease.
 */
module DurableWorkflow {
  import opened Base
  import opened Fencing
  import opened Operations

  /** An activity input: the operation and the transcript version it was planned against. */
  datatype Command = Command(op: OperationId, expected: nat)

  /** A committed result as the workflow receives it, with its `transcript_version`. */
  datatype Entry = Entry(op: OperationId, answer: Answer, version: nat)

  type Workflow = seq<Entry> -> Option<Command>

  // -------------------------------------------------------------- operations

  function KindOf(op: OperationId): OperationKind {
    match op
    case ContextOp => ContextKind
    case ReactTool(_, _) => ToolKind
    case StepTool(_, _, _, _) => ToolKind
    case Respond(_) => ToolKind
    case Planner(_) => PlanningKind
    case Evaluation(_, _) => PlanningKind
    case Synthesis(_) => SynthesisKind
    case StepFinal(_, _) => SynthesisKind             // a final decision with a plan id
    case _ => ModelKind
  }

  /** `begin_tool_operation` shows an unresolved intent; `begin_operation` refuses it. */
  predicate ToleratesIntent(op: OperationId) { op.ReactTool? || op.StepTool? }

  /** Runs inside the activity attempt of the decision it answers (`_main_response`). */
  predicate Paired(op: OperationId) { op.Respond? }

  predicate ChecksVersion(op: OperationId) { !op.ContextOp? && !op.Respond? }

  /** What an activity of this kind can commit. */
  predicate Answers(op: OperationId, answer: Answer) {
    match op
    case ContextOp => answer.ContextBuilt?
    case ReactTool(_, _) => answer.ToolObserved?
    case StepTool(_, _, _, _) => answer.ToolObserved?
    case Respond(_) => answer.Responded?
    case Planner(_) => answer.PlanMade? && 1 <= answer.steps <= 8     // _parse_plan
    case Evaluation(_, _) => answer.Evaluated?
    case _ => answer.FinalAnswer? || answer.ToolCalls? || answer.RespondCall?
  }

  /** `create_transcript`: the context event opens the log, once. */
  function CreateTranscript(p: Plane, t: nat, op: OperationId, answer: Answer): (Outcome<nat>, Plane) {
    var (completed, p') := CompleteOperation(p, t, op, Result(answer, 1));
    match completed
    case Err(fault) => (Err(fault), p)
    case Ok(_) => (Ok(1), if p.log == [] then p'.(log := [Event(op, answer)]) else p')
  }

  /** An evaluation completes without an event (`complete_operation`). */
  function CompleteSilently(p: Plane, t: nat, c: Command, answer: Answer): (Outcome<nat>, Plane) {
    var (completed, p') := CompleteOperation(p, t, c.op, Result(answer, c.expected));
    (if completed.Ok? then Ok(c.expected) else Err(completed.error), p')
  }

  function CommitAnswer(p: Plane, t: nat, c: Command, answer: Answer): (Outcome<nat>, Plane) {
    match c.op
    case ContextOp => CreateTranscript(p, t, c.op, answer)
    case Evaluation(_, _) => CompleteSilently(p, t, c, answer)
    case _ => CompleteWithEvent(p, t, c.op, c.expected, answer)
  }

  // ---------------------------------------------------------------- attempts

  datatype Stage = Scheduled | Begun | Loaded | Returned | Over

  /** `origin` is the workflow's history when it was scheduled, `local` that and its own results. */
  datatype Attempt = Attempt(origin: seq<Entry>, local: seq<Entry>, stage: Stage)

  /** `journal` records the first completion of each operation, in commit order. */
  datatype Machine = Machine(plane: Plane, journal: seq<Entry>, history: seq<Entry>, attempts: map<nat, Attempt>)

  datatype Step =
    | Schedule(token: nat)
    | Begin(token: nat)
    | Check(token: nat)                         // lease and transcript version
    | Commit(token: nat, answer: Answer)        // the answer of the model or tool
    | Write(token: nat, call: Call)             // fail, intent, uncertain, a late receipt, a stray begin
    | Crash(token: nat)
    | Deliver(token: nat)                       // the result reaches the workflow
    | MoveFence(fence: Fence)

  function Update(m: Machine, t: nat, a: Attempt): Machine {
    m.(attempts := m.attempts[t := a])
  }

  function Stop(m: Machine, t: nat): Machine
    requires t in m.attempts
  {
    Update(m, t, m.attempts[t].(stage := Over))
  }

  /** The attempt has its result; it goes on to a paired operation or returns. */
  function Resume(W: Workflow, a: Attempt, e: Entry): Attempt {
    var local := a.local + [e];
    Attempt(a.origin, local,
            if W(local).Some? && Paired(W(local).value.op) then Scheduled else Returned)
  }

  function BeginStep(m: Machine, W: Workflow, t: nat): Machine
    requires t in m.attempts && W(m.attempts[t].local).Some?
  {
    var a := m.attempts[t];
    var c := W(a.local).value;
    var (outcome, plane) := BeginOperation(m.plane, t, c.op, KindOf(c.op), ToleratesIntent(c.op));
    var m' := m.(plane := plane);
    match outcome
    case Err(_) => Stop(m', t)
    case Ok((status, payload)) =>
      if status != Completed then Update(m', t, a.(stage := Begun))
      else if payload.Some? && payload.value.Result? then
        Update(m', t, Resume(W, a, Entry(c.op, payload.value.answer, payload.value.version)))
      else Stop(m', t)
  }

  function CheckStep(m: Machine, W: Workflow, t: nat): Machine
    requires t in m.attempts && W(m.attempts[t].local).Some?
  {
    var a := m.attempts[t];
    var c := W(a.local).value;
    if m.plane.fence.Admits(t) && (ChecksVersion(c.op) ==> |m.plane.log| == c.expected)
    then Update(m, t, a.(stage := Loaded)) else Stop(m, t)
  }

  function CommitStep(m: Machine, W: Workflow, t: nat, answer: Answer): Machine
    requires t in m.attempts && W(m.attempts[t].local).Some?
  {
    var a := m.attempts[t];
    var c := W(a.local).value;
    var (outcome, plane) := CommitAnswer(m.plane, t, c, answer);
    match outcome
    case Err(_) => Stop(m.(plane := plane), t)
    case Ok(version) =>
      var e := Entry(c.op, answer, version);
      var journal := if Done(m.plane, c.op) then m.journal else m.journal + [e];
      Update(m.(plane := plane, journal := journal), t, Resume(W, a, e))
  }

  predicate Writes(call: Call) { !call.CallComplete? && !call.CallCompleteEvent? }

  predicate Enabled(m: Machine, W: Workflow, step: Step) {
    match step
    case Schedule(t) => t !in m.attempts && t <= m.plane.fence.token && W(m.history).Some?
    case MoveFence(_) => true
    case Crash(t) => t in m.attempts
    case Deliver(t) => t in m.attempts && m.attempts[t].stage == Returned && m.attempts[t].origin == m.history
    case Write(t, call) => t in m.attempts && W(m.attempts[t].local).Some? && Writes(call)
    case Begin(t) => t in m.attempts && W(m.attempts[t].local).Some? && m.attempts[t].stage == Scheduled
    case Check(t) => t in m.attempts && W(m.attempts[t].local).Some? && m.attempts[t].stage == Begun
    case Commit(t, answer) =>
      t in m.attempts && W(m.attempts[t].local).Some? && m.attempts[t].stage == Loaded
      && Answers(W(m.attempts[t].local).value.op, answer)
  }

  function Next(m: Machine, W: Workflow, step: Step): Machine {
    if !Enabled(m, W, step) then m
    else match step
      case Schedule(t) => Update(m, t, Attempt(m.history, m.history, Scheduled))
      case Begin(t) => BeginStep(m, W, t)
      case Check(t) => CheckStep(m, W, t)
      case Commit(t, answer) => CommitStep(m, W, t, answer)
      case Write(t, call) => m.(plane := Apply(m.plane, t, W(m.attempts[t].local).value.op, call))
      case Crash(t) => Stop(m, t)
      case Deliver(t) => m.(history := m.attempts[t].local)
      case MoveFence(f) => m.(plane := m.plane.(fence := f))
  }

  ghost predicate Allowed(m: Machine, step: Step) {
    step.MoveFence? ==> FenceStep(m.plane.fence, step.fence)
  }

  function Execute(m: Machine, W: Workflow, steps: seq<Step>): Machine
    decreases |steps|
  {
    if steps == [] then m else Execute(Next(m, W, steps[0]), W, steps[1..])
  }

  ghost predicate AllAllowed(m: Machine, W: Workflow, steps: seq<Step>)
    decreases |steps|
  {
    steps == [] || (Allowed(m, steps[0]) && AllAllowed(Next(m, W, steps[0]), W, steps[1..]))
  }

  ghost predicate Initial(m: Machine) {
    m.plane.rows == map[] && m.plane.log == [] && m.journal == [] && m.history == [] && m.attempts == map[]
  }
}
