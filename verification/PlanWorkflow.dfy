/** `PlanAndExecuteWorkflow`: plan, run each step's tool loop, evaluate, and replan at most three times. */
module PlanWorkflow {
  import opened Base
  import opened Operations
  import opened DurableWorkflow
  import opened TurnLoop

  const MAX_STEPS: nat := 8       // _parse_plan
  const MAX_REPLANS: nat := 3

  datatype Failure = EvaluationFailed | ReplanLimitReached | ToolProtocolInvalid

  /** Where the workflow is; `index` counts the plan's steps from 1. */
  datatype PlanPhase =
    | Planning(version: nat)
    | Stepping(version: nat, steps: nat, index: nat, loop: Loop)
    | Evaluating(version: nat, steps: nat, index: nat)
    | Synthesizing(version: nat)
    | PairingSynthesis(version: nat)
    | Answered(ref: OperationId)
    | Aborted(reason: Failure)

  datatype Plan = Plan(phase: PlanPhase, transcript: nat, toolTurns: nat, replans: nat)

  /** `plan_version = replan_count + 1`, and a plan has one to eight steps. */
  predicate Valid(p: Plan) {
    && p.replans <= MAX_REPLANS
    && match p.phase
       case Planning(v) => v == p.replans + 1
       case Stepping(v, n, i, l) => v == p.replans + 1 && 1 <= i <= n <= MAX_STEPS && Suspended(STEP_TURNS, l)
                                    && Awaits(StepNames(v, i), STEP_TURNS, l).Some?
       case Evaluating(v, n, i) => v == p.replans + 1 && 1 <= i <= n <= MAX_STEPS
       case Synthesizing(v) => v == p.replans + 1
       case PairingSynthesis(v) => v == p.replans + 1
       case _ => true
  }

  function Awaited(p: Plan): Option<Command>
    requires Valid(p)
  {
    match p.phase
    case Planning(v) => Some(Command(Planner(v), p.transcript))
    case Stepping(v, n, i, l) => Awaits(StepNames(v, i), STEP_TURNS, l)
    case Evaluating(v, n, i) => Some(Command(Evaluation(v, i), p.transcript))
    case Synthesizing(v) => Some(Command(Synthesis(v), p.transcript))
    case PairingSynthesis(v) => Some(Command(Respond(Synthesis(v)), p.transcript))
    case _ => None
  }

  /** The step's loop has moved to `l`: on to its evaluation, or out with a direct response. */
  function AfterStep(p: Plan, v: nat, n: nat, i: nat, l: Loop): Plan {
    match l.phase
    case Finished(ref) =>
      Plan(if ref.Respond? then Answered(ref) else Evaluating(v, n, i), l.version, p.toolTurns + l.toolTurns, p.replans)
    case Refused => p.(phase := Aborted(ToolProtocolInvalid))
    case _ => p.(phase := Stepping(v, n, i, l))
  }

  function AfterEvaluation(p: Plan, v: nat, n: nat, i: nat, verdict: Verdict): Plan {
    match verdict
    case Fail => p.(phase := Aborted(EvaluationFailed))
    case Replan =>
      if p.replans + 1 > MAX_REPLANS then p.(phase := Aborted(ReplanLimitReached))
      else p.(phase := Planning(v + 1), replans := p.replans + 1)
    case Complete => p.(phase := Synthesizing(v))
    case Continue =>
      if i < n then p.(phase := Stepping(v, n, i + 1, Start(p.transcript))) else p.(phase := Synthesizing(v))
  }

  /** The workflow after the result it awaited. */
  function Receives(p: Plan, e: Entry): (p': Plan)
    requires Valid(p) && Awaited(p).Some? && Answers(Awaited(p).value.op, e.answer)
    ensures Valid(p')
  {
    match p.phase
    case Planning(v) => p.(phase := Stepping(v, e.answer.steps, 1, Start(e.version)), transcript := e.version)
    case Stepping(v, n, i, l) => AfterStep(p, v, n, i, Takes(StepNames(v, i), STEP_TURNS, l, e))
    case Evaluating(v, n, i) => AfterEvaluation(p, v, n, i, e.answer.verdict)
    case Synthesizing(v) =>
      p.(phase := if e.answer.RespondCall? then PairingSynthesis(v) else Answered(Synthesis(v)), transcript := e.version)
    case PairingSynthesis(v) =>
      if e.answer.accepted then p.(phase := Answered(Respond(Synthesis(v))), transcript := e.version)
      else p.(phase := Aborted(ToolProtocolInvalid))
  }

  const Opening := Command(ContextOp, 0)

  function Begins(version: nat): Plan { Plan(Planning(1), version, 0, 0) }

  /** The workflow after a history of results; None before its context, and where a result cannot be one it awaits. */
  function PlanOf(h: seq<Entry>): (p: Option<Plan>)
    ensures p.Some? ==> Valid(p.value)
    decreases |h|
  {
    if |h| <= 1 then if h == [] then None else Some(Begins(h[0].version))
    else
      match PlanOf(h[..|h| - 1])
      case None => None
      case Some(p) =>
        if Awaited(p).Some? && Answers(Awaited(p).value.op, h[|h| - 1].answer) then Some(Receives(p, h[|h| - 1])) else None
  }

  function PlanProgram(): Workflow {
    h => if h == [] then Some(Opening)
         else match PlanOf(h) case None => None case Some(p) => Awaited(p)
  }

  // ------------------------------------------------------------ what is left

  /** Model-facing activities by kind, and the steps they belong to. */
  datatype Work = Work(planners: nat, steps: nat, evaluations: nat, decisions: nat, syntheses: nat)

  function Plus(a: Work, b: Work): Work {
    Work(a.planners + b.planners, a.steps + b.steps, a.evaluations + b.evaluations,
         a.decisions + b.decisions, a.syntheses + b.syntheses)
  }

  predicate AtMost(a: Work, b: Work) {
    && a.planners <= b.planners && a.steps <= b.steps && a.evaluations <= b.evaluations
    && a.decisions <= b.decisions && a.syntheses <= b.syntheses
  }

  function Total(w: Work): nat { w.planners + w.evaluations + w.decisions + w.syntheses }

  function WorkOf(op: OperationId): Work {
    if op.Planner? then Work(1, 0, 0, 0, 0)
    else if op.StepModel? then Work(0, if op.turn == 1 then 1 else 0, 0, 1, 0)   // turn 1 starts the step
    else if op.StepFinal? then Work(0, 0, 0, 1, 0)
    else if op.Evaluation? then Work(0, 0, 1, 0, 0)
    else if op.Synthesis? then Work(0, 0, 0, 0, 1)
    else Work(0, 0, 0, 0, 0)
  }

  /** What `k` more plans can ask for, and the synthesis after them: eight steps, nine decisions each. */
  function PlansAhead(k: nat): Work { Work(k, 8 * k, 8 * k, 72 * k, 1) }

  function Unstarted(l: Loop): nat { if l.phase == Deciding(1) then 1 else 0 }

  /** What a step whose loop is at `l` leaves of its plan. */
  function StepLeft(n: nat, i: nat, l: Loop): Work
    requires i <= n && Suspended(STEP_TURNS, l)
  {
    Work(0, n - i + Unstarted(l), n - i + 1, Budget(STEP_TURNS, l) + 9 * (n - i), 0)
  }

  function WorkLeft(p: Plan): Work
    requires Valid(p)
  {
    var later := PlansAhead(MAX_REPLANS - p.replans);
    match p.phase
    case Planning(_) => PlansAhead(MAX_REPLANS + 1 - p.replans)
    case Stepping(_, n, i, l) => Plus(StepLeft(n, i, l), later)
    case Evaluating(_, n, i) => Plus(Work(0, n - i, n - i + 1, 9 * (n - i), 0), later)
    case Synthesizing(_) => Work(0, 0, 0, 0, 1)
    case _ => Work(0, 0, 0, 0, 0)
  }

  lemma {:induction false} StepMovesOn(p: Plan, v: nat, n: nat, i: nat, l: Loop)
    requires Valid(p) && p.phase.Stepping? && v == p.phase.version && n == p.phase.steps && i == p.phase.index
    requires Suspended(STEP_TURNS, l) && Valid(AfterStep(p, v, n, i, l))
    ensures AtMost(WorkLeft(AfterStep(p, v, n, i, l)), Plus(StepLeft(n, i, l), PlansAhead(MAX_REPLANS - p.replans)))
  {
  }

  lemma {:induction false} LoopSpends(n: Names, l: Loop, e: Entry)
    requires n.StepNames? && Suspended(STEP_TURNS, l) && Awaits(n, STEP_TURNS, l).Some?
    requires e.op == Awaits(n, STEP_TURNS, l).value.op
    ensures var l' := Takes(n, STEP_TURNS, l, e);
      && WorkOf(e.op).planners == WorkOf(e.op).evaluations == WorkOf(e.op).syntheses == 0
      && Unstarted(l') + WorkOf(e.op).steps <= Unstarted(l)
      && Budget(STEP_TURNS, l') + WorkOf(e.op).decisions <= Budget(STEP_TURNS, l)
  {
    DecisionsSpendBudget(n, STEP_TURNS, l, e);
  }

  /** What the result did, and what is left after it, fit in what was left. */
  ghost predicate Spends(p: Plan, e: Entry)
    requires Valid(p) && Awaited(p).Some? && e.op == Awaited(p).value.op && Answers(e.op, e.answer)
  {
    AtMost(Plus(WorkOf(e.op), WorkLeft(Receives(p, e))), WorkLeft(p))
  }

  lemma {:induction false} StepSpendsWork(p: Plan, e: Entry)
    requires Valid(p) && p.phase.Stepping? && e.op == Awaited(p).value.op && Answers(e.op, e.answer)
    ensures Spends(p, e)
  {
    var (v, n, i, l) := (p.phase.version, p.phase.steps, p.phase.index, p.phase.loop);
    LoopSpends(StepNames(v, i), l, e);
    StepMovesOn(p, v, n, i, Takes(StepNames(v, i), STEP_TURNS, l, e));
  }

  lemma {:induction false} PlanSpendsWork(p: Plan, e: Entry)
    requires Valid(p) && p.phase.Planning? && e.op == Awaited(p).value.op && Answers(e.op, e.answer)
    ensures Spends(p, e)
  {
    assert Budget(STEP_TURNS, Start(e.version)) == 9;
  }

  lemma {:induction false} EvaluationSpendsWork(p: Plan, e: Entry)
    requires Valid(p) && p.phase.Evaluating? && e.op == Awaited(p).value.op && Answers(e.op, e.answer)
    ensures Spends(p, e)
  {
    assert Budget(STEP_TURNS, Start(p.transcript)) == 9;
  }

  lemma {:induction false} SynthesisSpendsWork(p: Plan, e: Entry)
    requires Valid(p) && (p.phase.Synthesizing? || p.phase.PairingSynthesis?)
    requires e.op == Awaited(p).value.op && Answers(e.op, e.answer)
    ensures Spends(p, e)
  {
  }

  /** Every result spends what is left for its kind, and nothing ever restores it. */
  lemma {:induction false} ResultsSpendWork(p: Plan, e: Entry)
    requires Valid(p) && Awaited(p).Some? && e.op == Awaited(p).value.op && Answers(e.op, e.answer)
    ensures Spends(p, e)
  {
    if p.phase.Planning? {
      PlanSpendsWork(p, e);
    } else if p.phase.Stepping? {
      StepSpendsWork(p, e);
    } else if p.phase.Evaluating? {
      EvaluationSpendsWork(p, e);
    } else {
      SynthesisSpendsWork(p, e);
    }
  }

  function WorkDone(h: seq<Entry>): Work {
    if h == [] then Work(0, 0, 0, 0, 0) else Plus(WorkDone(h[..|h| - 1]), WorkOf(h[|h| - 1].op))
  }

  /** Tool turns counted so far, by finished steps and by the step under way. */
  function TurnsCounted(p: Plan): nat {
    p.toolTurns + if p.phase.Stepping? then p.phase.loop.toolTurns + Pending(p.phase.loop) else 0
  }

  lemma {:induction false} TurnsAreCounted(p: Plan, e: Entry)
    requires Valid(p) && Awaited(p).Some? && e.op == Awaited(p).value.op && Answers(e.op, e.answer)
    ensures var p' := Receives(p, e);
      !(p'.phase.Aborted? && p'.phase.reason.ToolProtocolInvalid?) ==>
        TurnsCounted(p') == TurnsCounted(p) + if ToolTurn(e) then 1 else 0
  {
    match p.phase {
      case Stepping(v, n, i, l) => ToolTurnsAreCounted(StepNames(v, i), STEP_TURNS, l, e);
      case _ =>
    }
  }

  // ---------------------------------------------------------------- the loops

  /** Each result is of the type its activity returns. */
  ghost predicate WellAnswered(results: seq<Entry>) {
    forall i {:trigger results[..i]} :: 0 < i < |results| && PlanOf(results[..i]).Some? && Awaited(PlanOf(results[..i]).value).Some? ==>
      Answers(Awaited(PlanOf(results[..i]).value).value.op, results[i].answer)
  }

  /** The workflow has taken the first `used` results and stands at `p`. */
  ghost predicate Stands(results: seq<Entry>, used: nat, p: Plan) {
    0 < used <= |results| && PlanOf(results[..used]) == Some(p)
  }

  lemma {:induction false} TakeOne(results: seq<Entry>, used: nat, p: Plan)
    requires WellAnswered(results) && Stands(results, used, p) && used < |results| && Awaited(p).Some?
    ensures Answers(Awaited(p).value.op, results[used].answer)
    ensures Stands(results, used + 1, Receives(p, results[used]))
  {
    assert results[..used + 1][..used] == results[..used];
  }

  function StepState(p: Plan, v: nat, n: nat, i: nat, l: Loop): Plan
    requires Suspended(STEP_TURNS, l)
  {
    if Awaits(StepNames(v, i), STEP_TURNS, l).Some? then p.(phase := Stepping(v, n, i, l)) else AfterStep(p, v, n, i, l)
  }

  lemma {:induction false} StepTakes(results: seq<Entry>, used: nat, p: Plan, v: nat, n: nat, i: nat, l: Loop)
    requires WellAnswered(results) && used < |results| && p.phase.Stepping?
    requires Suspended(STEP_TURNS, l) && Awaits(StepNames(v, i), STEP_TURNS, l).Some?
    requires Stands(results, used, StepState(p, v, n, i, l))
    ensures Stands(results, used + 1, StepState(p, v, n, i, Takes(StepNames(v, i), STEP_TURNS, l, results[used])))
  {
    TakeOne(results, used, p.(phase := Stepping(v, n, i, l)));
  }

  /** What a step's own loop takes, the plan takes. */
  lemma {:induction false} StepAlong(results: seq<Entry>, from: nat, p: Plan, v: nat, n: nat, i: nat, taken: nat, l: Loop)
    requires WellAnswered(results) && Stands(results, from, p)
    requires p.phase == Stepping(v, n, i, Start(p.transcript))
    requires At(StepNames(v, i), STEP_TURNS, p.transcript, results[from..], taken, l) && Suspended(STEP_TURNS, l)
    ensures Stands(results, from + taken, StepState(p, v, n, i, l))
    decreases taken
  {
    if taken > 0 {
      var before := TakenLast(StepNames(v, i), STEP_TURNS, p.transcript, results[from..], taken, l);
      StepAlong(results, from, p, v, n, i, taken - 1, before);
      StepTakes(results, from + taken - 1, p, v, n, i, before);
      assert results[from..][taken - 1] == results[from + taken - 1];
    }
  }

  /** One `AgentStepWorkflow`, as far as the results go. */
  method RunStep(results: seq<Entry>, from: nat, before: Plan) returns (p: Plan, used: nat)
    requires WellAnswered(results) && Stands(results, from, before)
    requires before.phase.Stepping? && before.phase.loop == Start(before.transcript)
    ensures from <= used && Stands(results, used, p)
    ensures match p.phase
      case Stepping(_, _, _, _) => used == |results|
      case Evaluating(v, n, i) =>
        v == before.phase.version && n == before.phase.steps && i == before.phase.index && p.replans == before.replans
      case Answered(_) => true
      case Aborted(_) => true
      case _ => false
  {
    var v, n, i := before.phase.version, before.phase.steps, before.phase.index;
    var l, taken := RunTurns(StepNames(v, i), STEP_TURNS, before.transcript, results[from..]);
    StepAlong(results, from, before, v, n, i, taken, l);
    used := from + taken;
    match l.phase {
      case Finished(ref) =>
        p := Plan(if ref.Respond? then Answered(ref) else Evaluating(v, n, i),
                  l.version, before.toolTurns + l.toolTurns, before.replans);
      case Refused => p := before.(phase := Aborted(ToolProtocolInvalid));
      case _ => p := before.(phase := Stepping(v, n, i, l));
    }
  }

  /** The evaluation of one step: fail, replan within the limit, finish early, or go on. */
  method Evaluate(results: seq<Entry>, from: nat, before: Plan) returns (p: Plan, verdict: Verdict)
    requires WellAnswered(results) && Stands(results, from, before) && before.phase.Evaluating? && from < |results|
    ensures results[from].answer.Evaluated? && verdict == results[from].answer.verdict
    ensures Stands(results, from + 1, p)
    ensures p == AfterEvaluation(before, before.phase.version, before.phase.steps, before.phase.index, verdict)
  {
    TakeOne(results, from, before);
    var v, n, i := before.phase.version, before.phase.steps, before.phase.index;
    verdict := results[from].answer.verdict;
    if verdict == Fail {
      p := before.(phase := Aborted(EvaluationFailed));
    } else if verdict == Replan {
      p := if before.replans + 1 > MAX_REPLANS then before.(phase := Aborted(ReplanLimitReached))
           else before.(phase := Planning(v + 1), replans := before.replans + 1);
    } else if verdict == Complete {
      p := before.(phase := Synthesizing(v));
    } else {
      p := before.(phase := if i < n then Stepping(v, n, i + 1, Start(before.transcript)) else Synthesizing(v));
    }
  }

  /**
   The steps of one plan: each step's loop, then its evaluation, until the plan is used up
   or an evaluation ends it.
   */
  method RunSteps(results: seq<Entry>, from: nat, before: Plan) returns (p: Plan, used: nat)
    requires WellAnswered(results) && Stands(results, from, before)
    requires before.phase.Stepping? && before.phase.index == 1 && before.phase.loop == Start(before.transcript)
    ensures from <= used && Stands(results, used, p)
    ensures match p.phase
      case Planning(_) => p.replans == before.replans + 1
      case Stepping(_, _, _, _) => used == |results|
      case Evaluating(_, _, _) => used == |results|
      case PairingSynthesis(_) => false
      case _ => true
  {
    var v, n := before.phase.version, before.phase.steps;
    p, used := before, from;
    var index := 1;
    while index <= n
      invariant 1 <= index <= n + 1 && from <= used
      invariant Stands(results, used, p) && p.replans == before.replans
      invariant p.phase == if index <= n then Stepping(v, n, index, Start(p.transcript)) else Synthesizing(v)
      decreases n + 1 - index
    {
      p, used := RunStep(results, used, p);
      if !p.phase.Evaluating? || used == |results| {
        return;
      }
      var evaluation;
      p, evaluation := Evaluate(results, used, p);
      used := used + 1;
      if evaluation != Continue {
        return;
      }
      index := index + 1;
    }
  }

  /** `run`: plan, run the steps, replan while an evaluation asks for it, then synthesize. */
  method Run(results: seq<Entry>) returns (p: Option<Plan>, used: nat)
    requires WellAnswered(results)
    ensures used <= |results| && p == PlanOf(results[..used])
    ensures used < |results| ==> p.Some? && Awaited(p.value).None?
  {
    if results == [] {
      return None, 0;
    }
    var state := Begins(results[0].version);
    used := 1;
    assert results[..1] == [results[0]];
    while state.phase.Planning?
      invariant Stands(results, used, state)
      invariant !state.phase.PairingSynthesis?
      invariant state.phase.Stepping? || state.phase.Evaluating? ==> used == |results|
      decreases if state.phase.Planning? then MAX_REPLANS + 1 - state.replans else 0
    {
      if used == |results| {
        return Some(state), used;
      }
      TakeOne(results, used, state);
      var plan := results[used];
      state := state.(phase := Stepping(state.phase.version, plan.answer.steps, 1, Start(plan.version)),
                      transcript := plan.version);
      used := used + 1;
      state, used := RunSteps(results, used, state);
    }
    if state.phase.Synthesizing? && used < |results| {
      state, used := Synthesize(results, used, state);
    }
    p := Some(state);
  }

  /** The last model decision, and the receipt of a direct response. */
  method Synthesize(results: seq<Entry>, from: nat, before: Plan) returns (p: Plan, used: nat)
    requires WellAnswered(results) && Stands(results, from, before) && before.phase.Synthesizing? && from < |results|
    ensures Stands(results, used, p) && (used < |results| ==> Awaited(p).None?)
  {
    var final := results[from];
    TakeOne(results, from, before);
    var v := before.phase.version;
    used := from + 1;
    if !final.answer.RespondCall? {
      return before.(phase := Answered(Synthesis(v)), transcript := final.version), used;
    }
    p := before.(phase := PairingSynthesis(v), transcript := final.version);
    if used < |results| {
      var response := results[used];
      TakeOne(results, used, p);
      used := used + 1;
      p := if response.answer.accepted then p.(phase := Answered(Respond(Synthesis(v))), transcript := response.version)
           else p.(phase := Aborted(ToolProtocolInvalid));
    }
  }
}
