/**
 The bounded tool loop that `react.py` and `agent_step.py` share: a decision per turn,
 its tool calls in order, and a forced final decision after the last turn.
 */
module TurnLoop {
  import opened Base
  import opened Operations
  import opened DurableWorkflow

  /** `AgentStepInput.max_turns` (src/agent_workflows/contracts.py). */
  const STEP_TURNS: nat := 8

  /** Whose operation ids the loop issues. */
  datatype Names = ReactNames | StepNames(plan: nat, step: nat)

  function ModelOp(n: Names, max: nat, turn: nat): OperationId {
    match n
    case ReactNames => if turn <= max then ReactModel(turn) else ReactFinal(turn)
    case StepNames(v, s) => if turn <= max then StepModel(v, s, turn) else StepFinal(v, s)
  }

  function ToolOp(n: Names, turn: nat, call: string): OperationId {
    match n
    case ReactNames => ReactTool(turn, call)
    case StepNames(v, s) => StepTool(v, s, turn, call)
  }

  /** Which result the loop awaits; `ref` names the operation its answer comes from. */
  datatype Phase =
    | Deciding(turn: nat)
    | Acting(turn: nat, calls: seq<string>, next: nat)
    | Pairing(turn: nat)
    | Finished(ref: OperationId)
    | Refused                                  // main_tool_protocol_invalid

  datatype Loop = Loop(phase: Phase, version: nat, toolTurns: nat)

  predicate Suspended(max: nat, l: Loop) {
    match l.phase
    case Deciding(turn) => 1 <= turn <= max + 1
    case Acting(turn, calls, next) => 1 <= turn <= max && next < |calls|
    case Pairing(turn) => 1 <= turn <= max + 1
    case _ => true
  }

  function Awaits(n: Names, max: nat, l: Loop): Option<Command>
    requires Suspended(max, l)
  {
    match l.phase
    case Deciding(turn) => Some(Command(ModelOp(n, max, turn), l.version))
    case Acting(turn, calls, next) => Some(Command(ToolOp(n, turn, calls[next]), l.version))
    case Pairing(turn) => Some(Command(Respond(ModelOp(n, max, turn)), l.version))
    case _ => None
  }

  /** The next turn, after one with tool calls or a refused response. */
  function NextTurn(l: Loop, turn: nat, version: nat): Loop {
    Loop(Deciding(turn + 1), version, l.toolTurns + 1)
  }

  /** The loop after the result it awaited. */
  function Takes(n: Names, max: nat, l: Loop, e: Entry): (l': Loop)
    requires Suspended(max, l)
    ensures Suspended(max, l')
  {
    match l.phase
    case Deciding(turn) =>
      (match e.answer
       case ToolCalls(_, calls) =>
         if turn > max then Loop(Finished(e.op), e.version, l.toolTurns)
         else if calls == [] then NextTurn(l, turn, e.version)
         else Loop(Acting(turn, calls, 0), e.version, l.toolTurns)
       case RespondCall(_, _) => Loop(Pairing(turn), e.version, l.toolTurns)
       case _ => Loop(Finished(e.op), e.version, l.toolTurns))
    case Acting(turn, calls, next) =>
      if next + 1 < |calls| then Loop(Acting(turn, calls, next + 1), e.version, l.toolTurns)
      else NextTurn(l, turn, e.version)
    case Pairing(turn) =>
      if e.answer.Responded? && e.answer.accepted then Loop(Finished(e.op), e.version, l.toolTurns)
      else if turn > max then Loop(Refused, e.version, l.toolTurns)
      else NextTurn(l, turn, e.version)
    case _ => l
  }

  function Start(version: nat): Loop { Loop(Deciding(1), version, 0) }

  /** The loop after a whole history of results. */
  function After(n: Names, max: nat, l: Loop, h: seq<Entry>): (l': Loop)
    requires Suspended(max, l)
    ensures Suspended(max, l')
    decreases |h|
  {
    if h == [] then l else Takes(n, max, After(n, max, l, h[..|h| - 1]), h[|h| - 1])
  }

  lemma {:induction false} AfterOne(n: Names, max: nat, l: Loop, h: seq<Entry>, e: Entry)
    requires Suspended(max, l)
    ensures After(n, max, l, h + [e]) == Takes(n, max, After(n, max, l, h), e)
  {
    assert (h + [e])[..|h|] == h;
  }

  lemma {:induction false} AfterSplit(n: Names, max: nat, l: Loop, a: seq<Entry>, b: seq<Entry>)
    requires Suspended(max, l)
    ensures After(n, max, l, a + b) == After(n, max, After(n, max, l, a), b)
    decreases |b|
  {
    if b == [] {
      assert a + b == a;
    } else {
      AfterSplit(n, max, l, a, b[..|b| - 1]);
      assert (a + b)[..|a + b| - 1] == a + b[..|b| - 1];
    }
  }

  /** The loop awaited and took each of the first `used` results, from a start at `version`. */
  ghost predicate At(n: Names, max: nat, version: nat, results: seq<Entry>, used: nat, l: Loop) {
    && used <= |results| && l == After(n, max, Start(version), results[..used])
    && forall i :: 0 <= i < used ==> Awaits(n, max, After(n, max, Start(version), results[..i])).Some?
  }

  lemma {:induction false} TakeNext(n: Names, max: nat, version: nat, results: seq<Entry>, used: nat, l: Loop)
    requires At(n, max, version, results, used, l) && used < |results|
    requires Suspended(max, l) && Awaits(n, max, l).Some?
    ensures At(n, max, version, results, used + 1, Takes(n, max, l, results[used]))
  {
    assert results[..used + 1] == results[..used] + [results[used]];
    AfterOne(n, max, Start(version), results[..used], results[used]);
  }

  lemma {:induction false} TakenLast(n: Names, max: nat, version: nat, results: seq<Entry>, used: nat, l: Loop)
    returns (before: Loop)
    requires At(n, max, version, results, used, l) && used > 0
    ensures At(n, max, version, results, used - 1, before)
    ensures Suspended(max, before) && Awaits(n, max, before).Some? && l == Takes(n, max, before, results[used - 1])
  {
    before := After(n, max, Start(version), results[..used - 1]);
    assert results[..used] == results[..used - 1] + [results[used - 1]];
    AfterOne(n, max, Start(version), results[..used - 1], results[used - 1]);
  }

  /** `run`, suspended where its results end: two nested loops and the forced final decision. */
  method RunTurns(n: Names, max: nat, version: nat, results: seq<Entry>) returns (l: Loop, used: nat)
    requires max >= 1
    ensures At(n, max, version, results, used, l) && Suspended(max, l)
    ensures used < |results| ==> Awaits(n, max, l).None?
  {
    var transcriptVersion, toolTurns := version, 0;
    used := 0;
    for turn := 1 to max + 1
      invariant At(n, max, version, results, used, Loop(Deciding(turn), transcriptVersion, toolTurns))
    {
      l := Loop(Deciding(turn), transcriptVersion, toolTurns);
      if used == |results| {
        return;
      }
      var decision;
      decision, l, used := Decide(n, max, version, l, results, used);
      if !l.phase.Deciding? && !l.phase.Acting? {
        return;   // a final answer, or suspended before the paired receipt
      }
      transcriptVersion := l.version;
      if l.phase.Acting? {
        l, used := CallTools(n, max, version, l, results, used);
        if l.phase.Acting? {
          return;
        }
        transcriptVersion := l.version;
      }
      toolTurns := toolTurns + 1;
    }
    l := Loop(Deciding(max + 1), transcriptVersion, toolTurns);
    if used < |results| {
      var final;
      final, l, used := Decide(n, max, version, l, results, used);
    }
  }

  /** One `model_decision` activity: the decision, and the receipt paired with a response. */
  method Decide(n: Names, max: nat, version: nat, before: Loop, results: seq<Entry>, from: nat)
    returns (decision: Entry, l: Loop, used: nat)
    requires At(n, max, version, results, from, before) && from < |results|
    requires before.phase.Deciding? && 1 <= before.phase.turn <= max + 1
    ensures At(n, max, version, results, used, l) && Suspended(max, l) && from < used
    ensures match l.phase
      case Deciding(turn) => turn == before.phase.turn + 1 <= max + 1 && l.toolTurns == before.toolTurns + 1
      case Acting(turn, _, next) => turn == before.phase.turn && next == 0 && l.toolTurns == before.toolTurns
      case Pairing(_) => used == |results|
      case _ => true
  {
    var turn := before.phase.turn;
    decision, used := results[from], from + 1;
    TakeNext(n, max, version, results, from, before);
    l := Takes(n, max, before, decision);
    if decision.answer.RespondCall? && used < |results| {
      var response := results[used];
      TakeNext(n, max, version, results, used, l);
      used := used + 1;
      if response.answer.Responded? && response.answer.accepted {
        l := Loop(Finished(response.op), response.version, before.toolTurns);
      } else if turn > max {
        l := Loop(Refused, response.version, before.toolTurns);
      } else {
        l := Loop(Deciding(turn + 1), response.version, before.toolTurns + 1);
      }
    }
  }

  /** The tool calls of one decision, in order. */
  method CallTools(n: Names, max: nat, version: nat, before: Loop, results: seq<Entry>, from: nat)
    returns (l: Loop, used: nat)
    requires At(n, max, version, results, from, before)
    requires before.phase.Acting? && before.phase.next == 0 && Suspended(max, before)
    ensures At(n, max, version, results, used, l) && Suspended(max, l)
    ensures l.phase.Acting? ==> used == |results|
    ensures !l.phase.Acting? ==>
      l.phase == Deciding(before.phase.turn + 1) && l.toolTurns == before.toolTurns + 1
  {
    var turn, calls := before.phase.turn, before.phase.calls;
    var transcriptVersion, next := before.version, 0;
    used := from;
    while next < |calls|
      invariant next <= |calls|
      invariant At(n, max, version, results, used,
                   if next < |calls| then Loop(Acting(turn, calls, next), transcriptVersion, before.toolTurns)
                   else Loop(Deciding(turn + 1), transcriptVersion, before.toolTurns + 1))
      decreases |calls| - next
    {
      if used == |results| {
        return Loop(Acting(turn, calls, next), transcriptVersion, before.toolTurns), used;
      }
      TakeNext(n, max, version, results, used, Loop(Acting(turn, calls, next), transcriptVersion, before.toolTurns));
      transcriptVersion := results[used].version;
      used, next := used + 1, next + 1;
    }
    l := Loop(Deciding(turn + 1), transcriptVersion, before.toolTurns + 1);
  }

  // ---------------------------------------------------------- what it bounds

  /** Decisions the loop can still ask for. */
  function Budget(max: nat, l: Loop): nat
    requires Suspended(max, l)
  {
    match l.phase
    case Deciding(turn) => max + 2 - turn
    case Acting(turn, _, _) => max + 1 - turn
    case Pairing(turn) => max + 1 - turn
    case _ => 0
  }

  predicate IsDecision(op: OperationId) {
    op.ReactModel? || op.ReactFinal? || op.StepModel? || op.StepFinal?
  }

  predicate IsTool(op: OperationId) { op.ReactTool? || op.StepTool? }

  /** Every decision spends budget, and nothing else restores it. */
  lemma {:induction false} DecisionsSpendBudget(n: Names, max: nat, l: Loop, e: Entry)
    requires max >= 1 && Suspended(max, l) && Awaits(n, max, l).Some? && e.op == Awaits(n, max, l).value.op
    ensures Budget(max, Takes(n, max, l, e)) + (if IsDecision(e.op) then 1 else 0) <= Budget(max, l)
  {
  }

  /** A turn that used its tools: a decision with calls, or a response that was refused. */
  predicate ToolTurn(e: Entry) {
    || ((e.op.ReactModel? || e.op.StepModel?) && e.answer.ToolCalls?)
    || (e.op.Respond? && (e.op.decision.ReactModel? || e.op.decision.StepModel?)
        && !(e.answer.Responded? && e.answer.accepted))
  }

  function Decisions(h: seq<Entry>): nat {
    if h == [] then 0 else Decisions(h[..|h| - 1]) + if IsDecision(h[|h| - 1].op) then 1 else 0
  }

  function ToolTurnsTaken(h: seq<Entry>): nat {
    if h == [] then 0 else ToolTurnsTaken(h[..|h| - 1]) + if ToolTurn(h[|h| - 1]) then 1 else 0
  }

  /** The turn that is under way has been decided but not counted yet. */
  function Pending(l: Loop): nat { if l.phase.Acting? then 1 else 0 }

  lemma {:induction false} ToolTurnsAreCounted(n: Names, max: nat, l: Loop, e: Entry)
    requires Suspended(max, l) && Awaits(n, max, l).Some? && e.op == Awaits(n, max, l).value.op
    requires Answers(e.op, e.answer)
    ensures var l' := Takes(n, max, l, e);
      l'.toolTurns + Pending(l') == l.toolTurns + Pending(l) + if ToolTurn(e) then 1 else 0
  {
  }

  // ------------------------------------------------------- what is new

  predicate NoRepeats(calls: seq<string>) {
    forall i, k :: 0 <= i < k < |calls| ==> calls[i] != calls[k]
  }

  /** No decision names one tool call id twice. */
  predicate DistinctCalls(h: seq<Entry>) {
    forall e <- h :: e.answer.ToolCalls? ==> NoRepeats(e.answer.calls)
  }

  lemma {:induction false} DistinctParts(h: seq<Entry>)
    requires h != [] && DistinctCalls(h)
    ensures DistinctCalls(h[..|h| - 1]) && DistinctCalls([h[|h| - 1]])
  {
  }

  function TurnOf(op: OperationId): nat {
    match op
    case ReactModel(turn) => turn
    case ReactTool(turn, _) => turn
    case ReactFinal(turn) => turn
    case StepModel(_, _, turn) => turn
    case StepTool(_, _, turn, _) => turn
    case StepFinal(_, _) => STEP_TURNS + 1
    case Respond(decision) => TurnOf(decision)
    case _ => 0
  }

  predicate CalledBefore(calls: seq<string>, next: nat, call: string) {
    exists k :: 0 <= k < next && k < |calls| && calls[k] == call
  }

  /** What the loop at `l` has issued: earlier turns, and this turn so far. */
  predicate Issued(n: Names, l: Loop, op: OperationId) {
    match l.phase
    case Deciding(turn) => TurnOf(op) < turn
    case Acting(turn, calls, next) =>
      TurnOf(op) < turn
      || (TurnOf(op) == turn && (IsDecision(op) || (IsTool(op) && CalledBefore(calls, next, op.call))))
    case Pairing(turn) => TurnOf(op) < turn || (TurnOf(op) == turn && IsDecision(op))
    case _ => true
  }

  predicate CallsDiffer(l: Loop) { l.phase.Acting? ==> NoRepeats(l.phase.calls) }

  predicate Fits(n: Names, max: nat) { n.StepNames? ==> max == STEP_TURNS }

  lemma {:induction false} AwaitedIsNew(n: Names, max: nat, l: Loop)
    requires Fits(n, max) && Suspended(max, l) && CallsDiffer(l) && Awaits(n, max, l).Some?
    ensures !Issued(n, l, Awaits(n, max, l).value.op)
  {
    var op := Awaits(n, max, l).value.op;
    match l.phase {
      case Deciding(turn) => assert TurnOf(op) == turn;
      case Acting(turn, calls, next) => assert TurnOf(op) == turn && !CalledBefore(calls, next, calls[next]);
      case Pairing(turn) => assert op.decision == ModelOp(n, max, turn) && TurnOf(op) == turn;
    }
  }

  lemma {:induction false} IssuedGrows(n: Names, max: nat, l: Loop, e: Entry, op: OperationId)
    requires Fits(n, max) && Suspended(max, l) && Awaits(n, max, l).Some? && e.op == Awaits(n, max, l).value.op
    requires op == e.op || Issued(n, l, op)
    ensures Issued(n, Takes(n, max, l, e), op)
  {
  }

  lemma {:induction false} CallsDifferStep(n: Names, max: nat, l: Loop, e: Entry)
    requires Suspended(max, l) && CallsDiffer(l) && DistinctCalls([e])
    ensures CallsDiffer(Takes(n, max, l, e))
  {
    assert e in [e];
  }
}
