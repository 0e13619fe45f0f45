/** No run issues one id string twice. */
module RunIds {
  import opened Base
  import opened Operations
  import opened DurableWorkflow
  import opened CrashRefinement
  import opened TurnLoop
  import React = ReactWorkflow
  import PlanWorkflow
  import PlanRuns
  import opened OperationIds

  lemma {:induction false} LoopIsIssuable(n: Names, max: nat, l: Loop)
    requires Suspended(max, l) && Awaits(n, max, l).Some?
    ensures Issuable(Awaits(n, max, l).value.op)
  {
  }

  lemma {:induction false} ReactIsIssuable(max: nat, h: seq<Entry>, i: nat)
    requires Sequential(React.ReactProgram(max), h) && i < |h|
    ensures Issuable(h[i].op)
  {
    Received(React.ReactProgram(max), h, i);
    if i > 0 {
      LoopIsIssuable(ReactNames, max, React.LoopOf(max, h[..i]));
    }
  }

  lemma {:induction false} PlanIsIssuable(h: seq<Entry>, i: nat)
    requires Sequential(PlanWorkflow.PlanProgram(), h) && i < |h|
    ensures Issuable(h[i].op)
  {
    Received(PlanWorkflow.PlanProgram(), h, i);
    if i > 0 {
      var p := PlanWorkflow.PlanOf(h[..i]).value;
      if p.phase.Stepping? {
        LoopIsIssuable(StepNames(p.phase.version, p.phase.index), STEP_TURNS, p.phase.loop);
      }
    }
  }

  /** The ids a ReAct run issues are pairwise distinct strings. */
  lemma {:induction false} ReactIdsNeverRepeat(execution: string, max: nat, h: seq<Entry>, i: nat, j: nat)
    requires Sequential(React.ReactProgram(max), h) && DistinctCalls(h) && i < j < |h|
    ensures Render(execution, "react", h[i].op) != Render(execution, "react", h[j].op)
  {
    React.RunsAreOrderly(max, h);
    FreshDistinct(h);
    ReactIsIssuable(max, h, i);
    ReactIsIssuable(max, h, j);
    if Render(execution, "react", h[i].op) == Render(execution, "react", h[j].op) {
      RenderInjective(execution, "react", h[i].op, h[j].op);
    }
  }

  /** So are those of a plan-and-execute run, across turns, steps, plan versions and kinds. */
  lemma {:induction false} PlanIdsNeverRepeat(execution: string, h: seq<Entry>, i: nat, j: nat)
    requires Sequential(PlanWorkflow.PlanProgram(), h) && DistinctCalls(h) && i < j < |h|
    ensures Render(execution, "plan_and_execute", h[i].op) != Render(execution, "plan_and_execute", h[j].op)
  {
    PlanRuns.RunsAreOrderly(h);
    FreshDistinct(h);
    PlanIsIssuable(h, i);
    PlanIsIssuable(h, j);
    if Render(execution, "plan_and_execute", h[i].op) == Render(execution, "plan_and_execute", h[j].op) {
      RenderInjective(execution, "plan_and_execute", h[i].op, h[j].op);
    }
  }
}
