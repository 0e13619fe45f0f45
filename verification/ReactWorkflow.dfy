/** `ReactAgentWorkflow` as a durable workflow, and the shape of every transcript it leaves. */
module ReactWorkflow {
  import opened Base
  import opened Fencing
  import opened Operations
  import opened DurableWorkflow
  import opened CrashRefinement
  import opened TurnLoop
  import opened TurnTranscript

  /** The turn loop after the context result. */
  function LoopOf(max: nat, h: seq<Entry>): (l: Loop)
    requires h != []
    ensures Suspended(max, l)
  {
    After(ReactNames, max, Start(h[0].version), h[1..])
  }

  function ReactProgram(max: nat): Workflow {
    h => if h == [] then Some(Command(ContextOp, 0)) else Awaits(ReactNames, max, LoopOf(max, h))
  }

  /** `run`: context first, then the loop; suspended where its results end. */
  method Run(max: nat, results: seq<Entry>) returns (l: Option<Loop>, used: nat)
    requires max >= 1
    ensures used <= |results|
    ensures if used == 0 then results == [] && l.None? else l == Some(LoopOf(max, results[..used]))
    ensures used < |results| ==> ReactProgram(max)(results[..used]).None?
  {
    if results == [] {
      return None, 0;
    }
    var loop, taken := RunTurns(ReactNames, max, results[0].version, results[1..]);
    l, used := Some(loop), taken + 1;
    assert results[..used][1..] == results[1..][..taken];
  }

  lemma {:induction false} LoopStep(max: nat, h: seq<Entry>, e: Entry)
    requires h != []
    ensures LoopOf(max, h + [e]) == Takes(ReactNames, max, LoopOf(max, h), e)
  {
    assert (h + [e])[1..] == h[1..] + [e];
    AfterOne(ReactNames, max, Start(h[0].version), h[1..], e);
  }

  // ------------------------------------------------- operations never repeat

  /** Where a run stands: everything issued lies behind, and the version is the last result's. */
  ghost predicate Placed(max: nat, h: seq<Entry>) {
    h != [] ==>
      && h[0].op == ContextOp
      && (Awaits(ReactNames, max, LoopOf(max, h)).Some? ==> LoopOf(max, h).version == h[|h| - 1].version)
      && forall i :: 0 <= i < |h| ==> Issued(ReactNames, LoopOf(max, h), h[i].op)
  }

  lemma {:induction false} PlacedStep(max: nat, h: seq<Entry>, e: Entry)
    requires Placed(max, h) && ReactProgram(max)(h).Some? && e.op == ReactProgram(max)(h).value.op
    ensures Placed(max, h + [e])
  {
    var g := h + [e];
    if h == [] {
      assert LoopOf(max, g) == Start(e.version);
    } else {
      LoopStep(max, h, e);
      forall i | 0 <= i < |g|
        ensures Issued(ReactNames, LoopOf(max, g), g[i].op)
      {
        IssuedGrows(ReactNames, max, LoopOf(max, h), e, g[i].op);
      }
    }
  }

  lemma {:induction false} RunsArePlaced(max: nat, h: seq<Entry>)
    requires Sequential(ReactProgram(max), h)
    ensures Placed(max, h)
    decreases |h|
  {
    if h != [] {
      LastReceived(ReactProgram(max), h);
      RunsArePlaced(max, h[..|h| - 1]);
      PlacedStep(max, h[..|h| - 1], h[|h| - 1]);
    }
  }

  /** A crash-free run without repeated call ids: every result is a new event, numbered in order. */
  ghost predicate Orderly(max: nat, h: seq<Entry>) {
    && Fresh(h) == h
    && |Events(h)| == |h|
    && (forall i :: 0 <= i < |h| ==> Events(h)[i] == Event(h[i].op, h[i].answer) && h[i].version == i + 1)
    && (h != [] ==> CallsDiffer(LoopOf(max, h)))
  }

  lemma {:induction false} AwaitedIsFresh(max: nat, h: seq<Entry>)
    requires Placed(max, h) && Orderly(max, h) && ReactProgram(max)(h).Some?
    ensures !Has(h, ReactProgram(max)(h).value.op)
    ensures ReactProgram(max)(h).value.expected == |h|
  {
    if h != [] {
      AwaitedIsNew(ReactNames, max, LoopOf(max, h));
    }
  }

  lemma {:induction false} OrderlyStep(max: nat, h: seq<Entry>, e: Entry)
    requires Placed(max, h) && Orderly(max, h) && ReactProgram(max)(h).Some? && DistinctCalls([e])
    requires Commits(ReactProgram(max)(h).value, h, e)
    ensures Orderly(max, h + [e])
  {
    AwaitedIsFresh(max, h);
    if h == [] {
      assert LoopOf(max, h + [e]) == Start(e.version);
    } else {
      LoopStep(max, h, e);
      CallsDifferStep(ReactNames, max, LoopOf(max, h), e);
    }
    assert (h + [e])[..|h|] == h;
    EventsExtend(h, e);
  }

  /** The last result of a run without repeated ids is a new commit. */
  lemma {:induction false} LastCommit(max: nat, h: seq<Entry>)
    requires Sequential(ReactProgram(max), h) && DistinctCalls(h) && h != []
    requires Placed(max, h[..|h| - 1]) && Orderly(max, h[..|h| - 1])
    ensures ReactProgram(max)(h[..|h| - 1]).Some?
    ensures Commits(ReactProgram(max)(h[..|h| - 1]).value, h[..|h| - 1], h[|h| - 1])
  {
    LastReceived(ReactProgram(max), h);
    AwaitedIsFresh(max, h[..|h| - 1]);
  }

  lemma {:induction false} RunsAreOrderly(max: nat, h: seq<Entry>)
    requires Sequential(ReactProgram(max), h) && DistinctCalls(h)
    ensures Placed(max, h) && Orderly(max, h)
    decreases |h|
  {
    RunsArePlaced(max, h);
    if h != [] {
      LastReceived(ReactProgram(max), h);
      DistinctParts(h);
      RunsAreOrderly(max, h[..|h| - 1]);
      LastCommit(max, h);
      OrderlyStep(max, h[..|h| - 1], h[|h| - 1]);
    }
  }

  // ------------------------------------------------------------ transcripts

  /** The context, then per turn one decision followed by its tool results in order. */
  predicate Transcript(max: nat, log: seq<Event>) {
    log == [] || (log[0].op == ContextOp && log[0].answer.ContextBuilt? && Turns(ReactNames, max, 1, log[1..]))
  }

  lemma {:induction false} RecordGrows(max: nat, h: seq<Entry>, e: Entry)
    requires Orderly(max, h) && Transcript(max, Events(h)) && ReactProgram(max)(h).Some?
    requires Commits(ReactProgram(max)(h).value, h, e)
    ensures Transcript(max, Events(h + [e]))
  {
    EventsExtend(h, e);
    if h != [] {
      var log, event := Events(h), Event(e.op, e.answer);
      assert log[1..] + [event] == (log + [event])[1..];
      TurnsGrow(ReactNames, max, Start(h[0].version), log[1..], h[1..], e);
    }
  }

  lemma {:induction false} RunsRecordTurns(max: nat, h: seq<Entry>)
    requires Sequential(ReactProgram(max), h) && DistinctCalls(h)
    ensures Transcript(max, Events(h))
    decreases |h|
  {
    if h != [] {
      LastReceived(ReactProgram(max), h);
      DistinctParts(h);
      RunsRecordTurns(max, h[..|h| - 1]);
      RunsAreOrderly(max, h[..|h| - 1]);
      LastCommit(max, h);
      RecordGrows(max, h[..|h| - 1], h[|h| - 1]);
    }
  }

  /**
   Over every schedule of crashes, retries and stale attempts, the committed transcript is
   the context followed by whole or partial turns in order, and the results the workflow
   has received are its first events.  Tool call ids must differ inside one decision.
   */
  lemma {:induction false} TranscriptHasShape(m: Machine, max: nat, steps: seq<Step>)
    requires Initial(m) && AllAllowed(m, ReactProgram(max), steps)
    requires DistinctCalls(Execute(m, ReactProgram(max), steps).journal)
    ensures var end := Execute(m, ReactProgram(max), steps);
      && Transcript(max, end.plane.log)
      && |end.history| <= |end.plane.log|
      && forall i :: 0 <= i < |end.history| ==>
           end.plane.log[i] == Event(end.history[i].op, end.history[i].answer) && end.history[i].version == i + 1
  {
    var run := TranscriptIsCrashFree(m, ReactProgram(max), steps);
    RunHasDistinctCalls(ReactProgram(max), run);
    RunHasShape(max, run, Execute(m, ReactProgram(max), steps).history);
  }

  /** A crash-free run logs its own results, in the shape of the turns. */
  lemma {:induction false} RunHasShape(max: nat, run: seq<Entry>, received: seq<Entry>)
    requires Sequential(ReactProgram(max), run) && DistinctCalls(run) && received <= run
    ensures var log := Events(Fresh(run));
      && Transcript(max, log) && |received| <= |log|
      && forall i :: 0 <= i < |received| ==>
           log[i] == Event(received[i].op, received[i].answer) && received[i].version == i + 1
  {
    RunsAreOrderly(max, run);
    RunsRecordTurns(max, run);
  }

  lemma {:induction false} RunHasDistinctCalls(W: Workflow, run: seq<Entry>)
    requires Sequential(W, run) && DistinctCalls(Fresh(run))
    ensures DistinctCalls(run)
  {
    forall e | e in run && e.answer.ToolCalls?
      ensures NoRepeats(e.answer.calls)
    {
      var i :| 0 <= i < |run| && run[i] == e;
      Received(W, run, i);
    }
  }

  // ------------------------------------------------- conflicts and bounds

  /** A crash-free run is never stuck: whatever the activity answers can be committed. */
  lemma {:induction false} NeverConflicts(max: nat, h: seq<Entry>, answer: Answer)
    requires Sequential(ReactProgram(max), h) && DistinctCalls(h)
    requires ReactProgram(max)(h).Some? && Answers(ReactProgram(max)(h).value.op, answer)
    ensures Sequential(ReactProgram(max), h + [Entry(ReactProgram(max)(h).value.op, answer, |h| + 1)])
  {
    RunsAreOrderly(max, h);
    AwaitedIsFresh(max, h);
    SequentialExtends(ReactProgram(max), h, Entry(ReactProgram(max)(h).value.op, answer, |h| + 1));
  }

  /** One more result: what it spends of the budget, and the tool turn it may complete. */
  lemma {:induction false} OneResult(max: nat, h: seq<Entry>, e: Entry)
    requires max >= 1 && h != [] && ReactProgram(max)(h).Some? && e.op == ReactProgram(max)(h).value.op
    requires Answers(e.op, e.answer)
    ensures var (l, l') := (LoopOf(max, h), LoopOf(max, h + [e]));
      && Budget(max, l') + (if IsDecision(e.op) then 1 else 0) <= Budget(max, l)
      && l'.toolTurns + Pending(l') == l.toolTurns + Pending(l) + if ToolTurn(e) then 1 else 0
  {
    LoopStep(max, h, e);
    DecisionsSpendBudget(ReactNames, max, LoopOf(max, h), e);
    ToolTurnsAreCounted(ReactNames, max, LoopOf(max, h), e);
  }

  /**
   At most one decision per turn and the forced one, repeated call ids or not, and
   `tool_turns` is the number of tool turns taken.
   */
  lemma {:induction false} RunsAreBounded(max: nat, h: seq<Entry>)
    requires max >= 1 && Sequential(ReactProgram(max), h) && h != []
    ensures Decisions(h) + Budget(max, LoopOf(max, h)) <= max + 1
    ensures LoopOf(max, h).toolTurns + Pending(LoopOf(max, h)) == ToolTurnsTaken(h)
    decreases |h|
  {
    LastReceived(ReactProgram(max), h);
    if |h| > 1 {
      RunsAreBounded(max, h[..|h| - 1]);
      OneResult(max, h[..|h| - 1], h[|h| - 1]);
    }
  }
}
