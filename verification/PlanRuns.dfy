/** What every crash-free run of plan-and-execute keeps, and so every run under crashes. */
module PlanRuns {
  import opened Base
  import opened Fencing
  import opened Operations
  import opened DurableWorkflow
  import opened CrashRefinement
  import opened TurnLoop
  import opened PlanWorkflow

  /** The last result moves the plan on. */
  lemma {:induction false} OneResult(h: seq<Entry>)
    requires Sequential(PlanProgram(), h) && |h| > 1
    ensures var (before, e) := (h[..|h| - 1], h[|h| - 1]);
      && Sequential(PlanProgram(), before) && PlanOf(before).Some?
      && Awaited(PlanOf(before).value).Some? && e.op == Awaited(PlanOf(before).value).value.op
      && Answers(e.op, e.answer)
      && PlanOf(h) == Some(Receives(PlanOf(before).value, e))
  {
    LastReceived(PlanProgram(), h);
  }

  lemma {:induction false} ContextFirst(h: seq<Entry>)
    requires Sequential(PlanProgram(), h) && |h| == 1
    ensures h[0].op == ContextOp && Answers(ContextOp, h[0].answer) && PlanOf(h) == Some(Begins(h[0].version))
  {
    LastReceived(PlanProgram(), h);
  }

  /** Four plans, thirty-two steps and evaluations, 288 step decisions and one synthesis. */
  const Limit := Work(4, 32, 32, 288, 1)

  ghost predicate Within(h: seq<Entry>) {
    PlanOf(h).Some? && AtMost(Plus(WorkDone(h), WorkLeft(PlanOf(h).value)), Limit)
  }

  lemma {:induction false} ContextIsNoWork(h: seq<Entry>)
    requires |h| == 1 && h[0].op == ContextOp
    ensures WorkDone(h) == Work(0, 0, 0, 0, 0)
  {
    assert WorkDone(h[..0]) == Work(0, 0, 0, 0, 0);
  }

  lemma {:induction false} WithinAtFirst(h: seq<Entry>)
    requires Sequential(PlanProgram(), h) && |h| == 1
    ensures Within(h)
  {
    ContextFirst(h);
    ContextIsNoWork(h);
  }

  lemma {:induction false} WithinStill(p: Plan, e: Entry, done: Work)
    requires Valid(p) && Awaited(p).Some? && e.op == Awaited(p).value.op && Answers(e.op, e.answer)
    requires AtMost(Plus(done, WorkLeft(p)), Limit)
    ensures AtMost(Plus(Plus(done, WorkOf(e.op)), WorkLeft(Receives(p, e))), Limit)
  {
    ResultsSpendWork(p, e);
  }

  /** For every oracle: no run exceeds the limit, and what is left shrinks to nothing. */
  lemma {:induction false} WorkIsBounded(h: seq<Entry>)
    requires Sequential(PlanProgram(), h) && h != []
    ensures Within(h)
    decreases |h|
  {
    if |h| == 1 {
      WithinAtFirst(h);
    } else {
      OneResult(h);
      WorkIsBounded(h[..|h| - 1]);
      WithinStill(PlanOf(h[..|h| - 1]).value, h[|h| - 1], WorkDone(h[..|h| - 1]));
    }
  }

  /** Model-facing activities of any run, as numbers. */
  lemma {:induction false} ActivitiesAreBounded(h: seq<Entry>)
    requires Sequential(PlanProgram(), h) && h != []
    ensures AtMost(WorkDone(h), Limit) && Total(WorkDone(h)) <= 325
  {
    WorkIsBounded(h);
  }

  /** `tool_turns` of the result is the number of tool turns taken, over all steps and plans. */
  lemma {:induction false} ToolTurnsAreExact(h: seq<Entry>)
    requires Sequential(PlanProgram(), h) && h != []
    ensures PlanOf(h).Some?
    ensures !PlanOf(h).value.phase.Aborted? ==> TurnsCounted(PlanOf(h).value) == ToolTurnsTaken(h)
    decreases |h|
  {
    if |h| == 1 {
      ContextFirst(h);
      assert ToolTurnsTaken(h[..0]) == 0;
    } else {
      OneResult(h);
      ToolTurnsAreExact(h[..|h| - 1]);
      TurnsAreCounted(PlanOf(h[..|h| - 1]).value, h[|h| - 1]);
    }
  }

  // ------------------------------------------------------------- termination

  function Asked(e: Entry): nat { if e.answer.ToolCalls? then |e.answer.calls| else 0 }

  /** Tool calls that the decisions of a run asked for. */
  function CallsAsked(h: seq<Entry>): nat {
    if h == [] then 0
    else CallsAsked(h[..|h| - 1]) + Asked(h[|h| - 1])
  }

  /** Results owed before the next model-facing activity: tool calls, or a paired receipt. */
  function LoopOwes(l: Loop): nat
    requires Suspended(STEP_TURNS, l)
  {
    match l.phase
    case Acting(_, calls, next) => |calls| - next
    case Pairing(_) => 1
    case _ => 0
  }

  function Owed(p: Plan): nat
    requires Valid(p)
  {
    match p.phase
    case Stepping(_, _, _, l) => LoopOwes(l)
    case PairingSynthesis(_) => 1
    case _ => 0
  }

  predicate ModelFacing(op: OperationId) {
    op.Planner? || op.StepModel? || op.StepFinal? || op.Evaluation? || op.Synthesis?
  }

  function Activities(h: seq<Entry>): nat {
    if h == [] then 0 else Activities(h[..|h| - 1]) + if ModelFacing(h[|h| - 1].op) then 1 else 0
  }

  lemma {:induction false} ActivitiesAreWork(h: seq<Entry>)
    ensures Activities(h) == Total(WorkDone(h))
    decreases |h|
  {
    if h != [] {
      ActivitiesAreWork(h[..|h| - 1]);
    }
  }

  lemma {:induction false} ResultsAreOwed(h: seq<Entry>)
    requires Sequential(PlanProgram(), h) && h != []
    ensures PlanOf(h).Some? && |h| + Owed(PlanOf(h).value) <= 1 + 2 * Activities(h) + CallsAsked(h)
    decreases |h|
  {
    if |h| == 1 {
      ContextFirst(h);
    } else {
      OneResult(h);
      ResultsAreOwed(h[..|h| - 1]);
    }
  }

  /**
   Termination for every oracle: the results of a run number at most 651 and the tool
   calls that its decisions asked for.
   */
  lemma {:induction false} RunsEnd(h: seq<Entry>)
    requires Sequential(PlanProgram(), h) && h != []
    ensures |h| <= 651 + CallsAsked(h)
  {
    ActivitiesAreBounded(h);
    ActivitiesAreWork(h);
    ResultsAreOwed(h);
  }

  // -------------------------------------------------- operations and versions

  function PlanVersion(op: OperationId): nat {
    match op
    case Planner(v) => v
    case StepModel(v, _, _) => v
    case StepTool(v, _, _, _) => v
    case StepFinal(v, _) => v
    case Evaluation(v, _) => v
    case Synthesis(v) => v
    case Respond(decision) => PlanVersion(decision)
    case _ => 0
  }

  /** The planner comes before the steps, the synthesis after them. */
  function StepOf(op: OperationId): nat {
    match op
    case StepModel(_, s, _) => s
    case StepTool(_, s, _, _) => s
    case StepFinal(_, s) => s
    case Evaluation(_, s) => s
    case Synthesis(_) => MAX_STEPS + 1
    case Respond(decision) => StepOf(decision)
    case _ => 0
  }

  /** What the workflow at `p` has issued. */
  predicate PlanIssued(p: Plan, op: OperationId) {
    match p.phase
    case Planning(v) => PlanVersion(op) < v
    case Stepping(v, n, i, l) =>
      PlanVersion(op) < v
      || (PlanVersion(op) == v
          && (StepOf(op) < i || (StepOf(op) == i && !op.Evaluation? && Issued(StepNames(v, i), l, op))))
    case Evaluating(v, n, i) =>
      PlanVersion(op) < v || (PlanVersion(op) == v && (StepOf(op) < i || (StepOf(op) == i && !op.Evaluation?)))
    case Synthesizing(v) => PlanVersion(op) < v || (PlanVersion(op) == v && StepOf(op) <= MAX_STEPS)
    case PairingSynthesis(v) =>
      PlanVersion(op) < v || (PlanVersion(op) == v && (StepOf(op) <= MAX_STEPS || op.Synthesis?))
    case _ => true
  }

  predicate PlanCallsDiffer(p: Plan) { p.phase.Stepping? ==> CallsDiffer(p.phase.loop) }

  lemma {:induction false} ReceiptPlace(decision: OperationId)
    ensures PlanVersion(Respond(decision)) == PlanVersion(decision) && StepOf(Respond(decision)) == StepOf(decision)
  {
  }

  lemma {:induction false} PlanAwaitedIsNew(p: Plan)
    requires Valid(p) && PlanCallsDiffer(p) && Awaited(p).Some?
    ensures !PlanIssued(p, Awaited(p).value.op)
  {
    match p.phase {
      case Stepping(v, n, i, l) =>
        AwaitedIsNew(StepNames(v, i), STEP_TURNS, l);
        StepOpsStay(v, i, l);
      case PairingSynthesis(v) => ReceiptPlace(Synthesis(v));
      case _ =>
    }
  }

  lemma {:induction false} StepOpsStay(v: nat, i: nat, l: Loop)
    requires Suspended(STEP_TURNS, l) && Awaits(StepNames(v, i), STEP_TURNS, l).Some?
    ensures var op := Awaits(StepNames(v, i), STEP_TURNS, l).value.op;
      PlanVersion(op) == v && StepOf(op) == i && !op.Evaluation?
  {
  }

  lemma {:induction false} PlanIssuedGrows(p: Plan, e: Entry, op: OperationId)
    requires Valid(p) && Awaited(p).Some? && e.op == Awaited(p).value.op && Answers(e.op, e.answer)
    requires op == e.op || PlanIssued(p, op)
    ensures PlanIssued(Receives(p, e), op)
  {
    match p.phase {
      case Stepping(v, n, i, l) =>
        StepOpsStay(v, i, l);
        if op == e.op || (PlanVersion(op) == v && StepOf(op) == i) {
          IssuedGrows(StepNames(v, i), STEP_TURNS, l, e, op);
        }
      case _ =>
    }
  }

  /** Every result of the run is a new commit, and the next command carries the transcript's length. */
  ghost predicate PlanOrderly(h: seq<Entry>) {
    && PlanOf(h).Some?
    && Fresh(h) == h
    && h != [] && h[|h| - 1].version == |Events(h)|
    && PlanCallsDiffer(PlanOf(h).value)
    && (Awaited(PlanOf(h).value).Some? ==> Awaited(PlanOf(h).value).value.expected == |Events(h)|)
    && forall i :: 0 <= i < |h| ==> PlanIssued(PlanOf(h).value, h[i].op)
  }

  lemma {:induction false} VersionIsLength(c: Command, j: seq<Entry>, e: Entry)
    requires Commits(c, j, e) && !c.op.ContextOp?
    ensures |Events(j + [e])| == e.version
    ensures c.op.Evaluation? ==> e.version == c.expected
  {
    EventsExtend(j, e);
  }

  lemma {:induction false} VersionIsThreaded(p: Plan, e: Entry)
    requires Valid(p) && Awaited(p).Some? && e.op == Awaited(p).value.op && Answers(e.op, e.answer)
    requires e.op.Evaluation? ==> e.version == Awaited(p).value.expected
    ensures Awaited(Receives(p, e)).Some? ==> Awaited(Receives(p, e)).value.expected == e.version
  {
  }

  lemma {:induction false} CallsStillDiffer(p: Plan, e: Entry)
    requires Valid(p) && Awaited(p).Some? && e.op == Awaited(p).value.op && Answers(e.op, e.answer)
    requires PlanCallsDiffer(p) && DistinctCalls([e])
    ensures PlanCallsDiffer(Receives(p, e))
  {
    match p.phase {
      case Stepping(v, n, i, l) => CallsDifferStep(StepNames(v, i), STEP_TURNS, l, e);
      case _ =>
    }
  }

  lemma {:induction false} AwaitedIsFresh(h: seq<Entry>)
    requires PlanOrderly(h) && Awaited(PlanOf(h).value).Some?
    ensures !Has(h, Awaited(PlanOf(h).value).value.op)
  {
    PlanAwaitedIsNew(PlanOf(h).value);
  }

  lemma {:induction false} AwaitsNoContext(p: Plan)
    requires Valid(p) && Awaited(p).Some?
    ensures !Awaited(p).value.op.ContextOp?
  {
  }

  lemma {:induction false} OrderlyStep(h: seq<Entry>, p: Plan, e: Entry)
    requires PlanOrderly(h) && PlanOf(h) == Some(p) && Awaited(p).Some? && DistinctCalls([e])
    requires Commits(Awaited(p).value, h, e) && PlanOf(h + [e]) == Some(Receives(p, e))
    ensures PlanOrderly(h + [e])
  {
    AwaitedIsFresh(h);
    AwaitsNoContext(p);
    FreshOne(h, e);
    VersionIsLength(Awaited(p).value, h, e);
    VersionIsThreaded(p, e);
    CallsStillDiffer(p, e);
    forall i | 0 <= i < |h + [e]|
      ensures PlanIssued(Receives(p, e), (h + [e])[i].op)
    {
      PlanIssuedGrows(p, e, (h + [e])[i].op);
    }
  }

  lemma {:induction false} RunsAreOrderly(h: seq<Entry>)
    requires Sequential(PlanProgram(), h) && h != [] && DistinctCalls(h)
    ensures PlanOrderly(h)
    decreases |h|
  {
    LastReceived(PlanProgram(), h);
    DistinctParts(h);
    if |h| == 1 {
      ContextFirst(h);
      assert h[..0] == [] && Fresh([]) == [] && h == [] + [h[0]];
      FreshOne([], h[0]);
      EventsExtend([], h[0]);
    } else {
      var before := h[..|h| - 1];
      OneResult(h);
      RunsAreOrderly(before);
      AwaitedIsFresh(before);
      OrderlyStep(before, PlanOf(before).value, h[|h| - 1]);
    }
  }

  /**
   Operation ids never repeat, each is issued with one expected version, the transcript's
   length, and whatever the activity answers can be committed: no run is ever stuck.
   Tool call ids must differ inside one decision.
   */
  lemma {:induction false} NeverConflicts(h: seq<Entry>, answer: Answer)
    requires Sequential(PlanProgram(), h) && h != [] && DistinctCalls(h) && PlanProgram()(h).Some?
    requires Answers(PlanProgram()(h).value.op, answer)
    ensures var c := PlanProgram()(h).value;
      && !Has(h, c.op) && c.expected == |Events(h)|
      && Sequential(PlanProgram(), h + [Entry(c.op, answer, if c.op.Evaluation? then c.expected else c.expected + 1)])
  {
    RunsAreOrderly(h);
    AwaitedIsFresh(h);
    AwaitsNoContext(PlanOf(h).value);
    var c := PlanProgram()(h).value;
    SequentialExtends(PlanProgram(), h, Entry(c.op, answer, if c.op.Evaluation? then c.expected else c.expected + 1));
  }

  // ------------------------------------------------------------ under crashes

  lemma {:induction false} CommitsAreResults(h: seq<Entry>)
    ensures AtMost(WorkDone(Fresh(h)), WorkDone(h))
    decreases |h|
  {
    if h != [] {
      var before, e := h[..|h| - 1], h[|h| - 1];
      CommitsAreResults(before);
      assert h == before + [e];
      FreshOne(before, e);
    }
  }

  /**
   Under every schedule of crashes, retries and stale attempts, the operations ever
   committed stay within four plans, 32 steps and evaluations, 288 decisions and one
   synthesis.
   */
  lemma {:induction false} CommitsAreBounded(m: Machine, steps: seq<Step>)
    requires Initial(m) && AllAllowed(m, PlanProgram(), steps)
    ensures var done := WorkDone(Execute(m, PlanProgram(), steps).journal);
      AtMost(done, Limit) && Total(done) <= 325
  {
    var run := TranscriptIsCrashFree(m, PlanProgram(), steps);
    CommitsAreResults(run);
    if run != [] {
      ActivitiesAreBounded(run);
    }
  }
}
