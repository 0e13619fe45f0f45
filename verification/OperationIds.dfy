/** The operation ids as the workflows write them, and how each is read back. */
module OperationIds {
  import opened Base
  import opened Operations
  import opened Text

  /** `AGENT_STRATEGIES` */
  predicate Strategy(s: string) { s == "react" || s == "plan_and_execute" }

  /** A receipt is paired with a model decision only. */
  predicate Issuable(op: OperationId) {
    op.Respond? ==>
      op.decision.ReactModel? || op.decision.ReactFinal? || op.decision.StepModel? || op.decision.StepFinal?
      || op.decision.Synthesis?
  }

  /** The id without its `{execution_id}:`; step ids are `step-{index}`. */
  function Tail(strategy: string, op: OperationId): string {
    match op
    case ContextOp => strategy + ":context"
    case ReactModel(t) => "react:turn:" + (Decimal(t) + ":model")
    case ReactTool(t, call) => "react:turn:" + (Decimal(t) + (":tool:" + call))
    case ReactFinal(t) => "react:turn:" + (Decimal(t) + ":forced-final")
    case Planner(v) => "plan:" + (Decimal(v) + ":planner")
    case StepModel(v, s, t) => "plan:" + (Decimal(v) + StepTail(s, ":turn:" + (Decimal(t) + ":model")))
    case StepTool(v, s, t, call) => "plan:" + (Decimal(v) + StepTail(s, ":turn:" + (Decimal(t) + (":tool:" + call))))
    case StepFinal(v, s) => "plan:" + (Decimal(v) + StepTail(s, ":forced-final"))
    case Evaluation(v, s) => "plan:" + (Decimal(v) + StepTail(s, ":evaluation"))
    case Synthesis(v) => "plan:" + (Decimal(v) + ":synthesis")
    case Respond(decision) => Tail(strategy, decision) + ":respond"
  }

  function StepTail(s: nat, rest: string): string { ":step:step-" + (Decimal(s) + rest) }

  function Render(execution: string, strategy: string, op: OperationId): string {
    execution + ":" + Tail(strategy, op)
  }

  // ---------------------------------------------------------- reading back

  /** What follows the turn of a loop: a decision, its receipt, or a tool call. */
  function ReadTurn(rest: string, model: OperationId, tool: string -> OperationId): Option<OperationId> {
    if rest == ":model" then Some(model)
    else if rest == ":model:respond" then Some(Respond(model))
    else if StartsWith(rest, ":tool:") then Some(tool(Drop(rest, ":tool:")))
    else None
  }

  function ReadReact(t: nat, rest: string): Option<OperationId> {
    if rest == ":forced-final" then Some(ReactFinal(t))
    else if rest == ":forced-final:respond" then Some(Respond(ReactFinal(t)))
    else ReadTurn(rest, ReactModel(t), call => ReactTool(t, call))
  }

  function ReadStep(v: nat, s: nat, rest: string): Option<OperationId> {
    if rest == ":evaluation" then Some(Evaluation(v, s))
    else if rest == ":forced-final" then Some(StepFinal(v, s))
    else if rest == ":forced-final:respond" then Some(Respond(StepFinal(v, s)))
    else if StartsWith(rest, ":turn:") then
      var (t, more) := Read(Drop(rest, ":turn:"));
      ReadTurn(more, StepModel(v, s, t), call => StepTool(v, s, t, call))
    else None
  }

  function ReadPlan(v: nat, rest: string): Option<OperationId> {
    if rest == ":planner" then Some(Planner(v))
    else if rest == ":synthesis" then Some(Synthesis(v))
    else if rest == ":synthesis:respond" then Some(Respond(Synthesis(v)))
    else if StartsWith(rest, ":step:step-") then
      var (s, more) := Read(Drop(rest, ":step:step-"));
      ReadStep(v, s, more)
    else None
  }

  function ReadTail(strategy: string, tail: string): Option<OperationId> {
    if tail == strategy + ":context" then Some(ContextOp)
    else if StartsWith(tail, "react:turn:") then
      var (t, rest) := Read(Drop(tail, "react:turn:"));
      ReadReact(t, rest)
    else if StartsWith(tail, "plan:") then
      var (v, rest) := Read(Drop(tail, "plan:"));
      ReadPlan(v, rest)
    else None
  }

  /** The operation that an id of this execution names. */
  function Parse(execution: string, strategy: string, id: string): Option<OperationId> {
    if StartsWith(id, execution + ":") then ReadTail(strategy, Drop(id, execution + ":")) else None
  }

  // ------------------------------------------------------------- round trip

  lemma {:induction false} ReadsReact(strategy: string, t: nat, rest: string)
    requires Strategy(strategy) && rest != [] && rest[0] == ':'
    ensures ReadTail(strategy, "react:turn:" + (Decimal(t) + rest)) == ReadReact(t, rest)
  {
    var tail := "react:turn:" + (Decimal(t) + rest);
    ReadsNumber(t, rest);
    assert tail[6] == 't';
    assert ("react" + ":context")[6] == 'c' && ("plan_and_execute" + ":context")[0] == 'p' && tail[0] == 'r';
  }

  lemma {:induction false} ReadsPlan(strategy: string, v: nat, rest: string)
    requires Strategy(strategy) && rest != [] && rest[0] == ':'
    ensures ReadTail(strategy, "plan:" + (Decimal(v) + rest)) == ReadPlan(v, rest)
  {
    var tail := "plan:" + (Decimal(v) + rest);
    ReadsNumber(v, rest);
    assert tail[4] == ':' && tail[0] == 'p';
    assert ("plan_and_execute" + ":context")[4] == '_' && ("react" + ":context")[0] == 'r';
    assert "react:turn:"[0] == 'r';
  }

  lemma {:induction false} StepTailIsItsOwn(s: nat, rest: string)
    ensures var tail := StepTail(s, rest); tail != ":planner" && tail != ":synthesis" && tail != ":synthesis:respond"
  {
    var tail := StepTail(s, rest);
    assert tail[1] == 's' && tail[2] == 't';
    assert ":planner"[1] == 'p' && ":synthesis"[2] == 'y' && ":synthesis:respond"[2] == 'y';
  }

  lemma {:induction false} ReadsStep(strategy: string, v: nat, s: nat, rest: string)
    requires Strategy(strategy) && rest != [] && rest[0] == ':'
    ensures ReadTail(strategy, "plan:" + (Decimal(v) + StepTail(s, rest))) == ReadStep(v, s, rest)
  {
    StepTailIsItsOwn(s, rest);
    ReadsPlan(strategy, v, StepTail(s, rest));
    ReadsNumber(s, rest);
  }

  lemma {:induction false} TurnIsItsOwn(t: nat, rest: string)
    ensures var more := ":turn:" + (Decimal(t) + rest);
      more != ":evaluation" && more != ":forced-final" && more != ":forced-final:respond"
  {
    var more := ":turn:" + (Decimal(t) + rest);
    assert more[1] == 't' && ":evaluation"[1] == 'e' && ":forced-final"[1] == 'f' && ":forced-final:respond"[1] == 'f';
  }

  lemma {:induction false} ReadsStepTurn(strategy: string, v: nat, s: nat, t: nat, rest: string)
    requires Strategy(strategy) && rest != [] && rest[0] == ':'
    ensures ReadTail(strategy, "plan:" + (Decimal(v) + StepTail(s, ":turn:" + (Decimal(t) + rest))))
         == ReadTurn(rest, StepModel(v, s, t), call => StepTool(v, s, t, call))
  {
    TurnIsItsOwn(t, rest);
    ReadsStep(strategy, v, s, ":turn:" + (Decimal(t) + rest));
    ReadsNumber(t, rest);
  }

  lemma {:induction false} ReadsTool(call: string, model: OperationId, tool: string -> OperationId)
    ensures ReadTurn(":tool:" + call, model, tool) == Some(tool(call))
    ensures ":tool:" + call != ":forced-final" && ":tool:" + call != ":forced-final:respond"
  {
    var rest := ":tool:" + call;
    assert rest[1] == 't' && ":model"[1] == 'm' && ":model:respond"[1] == 'm' && ":forced-final"[1] == 'f'
      && ":forced-final:respond"[1] == 'f';
  }

  /** A receipt's suffix belongs to the last part of its decision's id. */
  lemma {:induction false} Suffix(a: string, n: nat, b: string)
    ensures (a + (Decimal(n) + b)) + ":respond" == a + (Decimal(n) + (b + ":respond"))
  {
    ConcatAssociates(a, Decimal(n) + b, ":respond");
    ConcatAssociates(Decimal(n), b, ":respond");
  }

  lemma {:induction false} ReadsReactReceipt(strategy: string, decision: OperationId)
    requires Strategy(strategy) && (decision.ReactModel? || decision.ReactFinal?)
    ensures ReadTail(strategy, Tail(strategy, decision) + ":respond") == Some(Respond(decision))
  {
    var t := decision.turn;
    if decision.ReactModel? {
      Suffix("react:turn:", t, ":model");
      assert ":model" + ":respond" == ":model:respond";
      ReadsReact(strategy, t, ":model:respond");
      assert ":model:respond"[1] != ":forced-final"[1] && ":model:respond"[1] != ":forced-final:respond"[1];
    } else {
      Suffix("react:turn:", t, ":forced-final");
      assert ":forced-final" + ":respond" == ":forced-final:respond";
      ReadsReact(strategy, t, ":forced-final:respond");
    }
  }

  lemma {:induction false} ReadsStepReceipt(strategy: string, decision: OperationId)
    requires Strategy(strategy) && (decision.StepModel? || decision.StepFinal?)
    ensures ReadTail(strategy, Tail(strategy, decision) + ":respond") == Some(Respond(decision))
  {
    var v, s := decision.version, decision.step;
    if decision.StepFinal? {
      Suffix("plan:", v, StepTail(s, ":forced-final"));
      Suffix(":step:step-", s, ":forced-final");
      assert ":forced-final" + ":respond" == ":forced-final:respond";
      ReadsStep(strategy, v, s, ":forced-final:respond");
      assert ":forced-final:respond"[1] != ":evaluation"[1];
    } else {
      var t := decision.turn;
      Suffix("plan:", v, StepTail(s, ":turn:" + (Decimal(t) + ":model")));
      Suffix(":step:step-", s, ":turn:" + (Decimal(t) + ":model"));
      Suffix(":turn:", t, ":model");
      assert ":model" + ":respond" == ":model:respond";
      ReadsStepTurn(strategy, v, s, t, ":model:respond");
    }
  }

  lemma {:induction false} ReadsSynthesisReceipt(strategy: string, v: nat)
    requires Strategy(strategy)
    ensures ReadTail(strategy, Tail(strategy, Synthesis(v)) + ":respond") == Some(Respond(Synthesis(v)))
  {
    Suffix("plan:", v, ":synthesis");
    assert ":synthesis" + ":respond" == ":synthesis:respond";
    ReadsPlan(strategy, v, ":synthesis:respond");
    assert ":synthesis:respond"[1] != ":planner"[1];
  }

  lemma {:induction false} ReadsReceipt(strategy: string, decision: OperationId)
    requires Strategy(strategy) && Issuable(Respond(decision))
    ensures ReadTail(strategy, Tail(strategy, decision) + ":respond") == Some(Respond(decision))
  {
    if decision.Synthesis? {
      ReadsSynthesisReceipt(strategy, decision.version);
    } else if decision.ReactModel? || decision.ReactFinal? {
      ReadsReactReceipt(strategy, decision);
    } else {
      ReadsStepReceipt(strategy, decision);
    }
  }

  /** Every id names its operation, whatever characters its execution and its call id hold. */
  lemma {:induction false} ParseRender(execution: string, strategy: string, op: OperationId)
    requires Strategy(strategy) && Issuable(op)
    ensures Parse(execution, strategy, Render(execution, strategy, op)) == Some(op)
  {
    match op {
      case ContextOp =>
      case ReactModel(t) => ReadsReact(strategy, t, ":model");
      case ReactTool(t, call) =>
        ReadsReact(strategy, t, ":tool:" + call);
        ReadsTool(call, ReactModel(t), call => ReactTool(t, call));
      case ReactFinal(t) => ReadsReact(strategy, t, ":forced-final");
      case Planner(v) => ReadsPlan(strategy, v, ":planner");
      case StepModel(v, s, t) => ReadsStepTurn(strategy, v, s, t, ":model");
      case StepTool(v, s, t, call) =>
        ReadsStepTurn(strategy, v, s, t, ":tool:" + call);
        ReadsTool(call, StepModel(v, s, t), call => StepTool(v, s, t, call));
      case StepFinal(v, s) => ReadsStep(strategy, v, s, ":forced-final");
      case Evaluation(v, s) => ReadsStep(strategy, v, s, ":evaluation");
      case Synthesis(v) => ReadsPlan(strategy, v, ":synthesis");
      case Respond(decision) => ReadsReceipt(strategy, decision);
    }
  }

  /** Different operations of an execution have different ids. */
  lemma {:induction false} RenderInjective(execution: string, strategy: string, a: OperationId, b: OperationId)
    requires Strategy(strategy) && Issuable(a) && Issuable(b)
    requires Render(execution, strategy, a) == Render(execution, strategy, b)
    ensures a == b
  {
    ParseRender(execution, strategy, a);
    ParseRender(execution, strategy, b);
  }
}
