/**
 A decision that names a tool call id twice: the repeated call is answered from its first
 execution and hands the workflow that call's older transcript version.  Exactly which
 lists of ids a turn survives.
 */
module RepeatedCalls {
  import opened Base
  import opened Operations
  import opened DurableWorkflow
  import opened CrashRefinement
  import opened TurnLoop
  import opened ReactWorkflow

  /** The latest id among the first `k` that was new when it was called. */
  function Newest(calls: seq<string>, k: nat): string
    requires 0 < k <= |calls|
  {
    if k == 1 || calls[k - 1] !in calls[..k - 1] then calls[k - 1] else Newest(calls, k - 1)
  }

  /** A new call, and the turn after the last one, must come right after the newest result. */
  predicate InStep(calls: seq<string>, k: nat)
    requires k <= |calls|
  {
    k > 0 && (k == |calls| || calls[k] !in calls[..k]) ==> calls[k - 1] == Newest(calls, k)
  }

  predicate ThreadsFrom(calls: seq<string>, k: nat)
    requires k <= |calls|
    decreases |calls| - k
  {
    InStep(calls, k) && (k < |calls| ==> ThreadsFrom(calls, k + 1))
  }

  predicate Threads(calls: seq<string>) { ThreadsFrom(calls, 0) }

  /** Journal entries are events, numbered from 1. */
  ghost predicate Numbered(j: seq<Entry>) {
    |Events(j)| == |j| && forall i :: 0 <= i < |j| ==> j[i].version == i + 1
  }

  lemma {:induction false} NumberedStep(c: Command, j: seq<Entry>, e: Entry)
    requires Numbered(j) && Commits(c, j, e) && !c.op.Evaluation? && (c.op.ContextOp? ==> j == [])
    ensures Numbered(j + [e])
  {
    EventsExtend(j, e);
  }

  lemma {:induction false} ContextComesFirst(max: nat, h: seq<Entry>)
    requires ReactProgram(max)(h).Some?
    ensures var op := ReactProgram(max)(h).value.op; !op.Evaluation? && (op.ContextOp? ==> h == [])
  {
  }

  lemma {:induction false} RunsAreNumbered(max: nat, h: seq<Entry>)
    requires Sequential(ReactProgram(max), h)
    ensures Numbered(Fresh(h))
    decreases |h|
  {
    if h != [] {
      var W, before, e := ReactProgram(max), h[..|h| - 1], h[|h| - 1];
      LastReceived(W, h);
      RunsAreNumbered(max, before);
      ContextComesFirst(max, before);
      if !Has(Fresh(before), e.op) {
        NumberedStep(W(before).value, Fresh(before), e);
      }
    }
  }

  lemma {:induction false} AwaitsLastVersion(max: nat, h: seq<Entry>)
    requires Placed(max, h) && h != [] && ReactProgram(max)(h).Some?
    ensures ReactProgram(max)(h).value.expected == h[|h| - 1].version
  {
  }

  lemma {:induction false} NewestVersion(j: seq<Entry>, e: Entry)
    requires Numbered(j) && Distinct(j) && e in j
    ensures e.version == |Events(j)| <==> e == j[|j| - 1]
  {
  }

  /**
   A new command meets the transcript at its version exactly when the last result was
   the newest event, not a repeat of an older one.
   */
  lemma {:induction false} CurrentExactly(max: nat, h: seq<Entry>)
    requires Sequential(ReactProgram(max), h) && h != [] && ReactProgram(max)(h).Some?
    ensures ReactProgram(max)(h).value.expected == |Events(Fresh(h))| <==> AtNewest(h)
  {
    RunsAreNumbered(max, h);
    RunsArePlaced(max, h);
    AwaitsLastVersion(max, h);
    Received(ReactProgram(max), h, |h| - 1);
    FreshDistinct(h);
    NewestVersion(Fresh(h), h[|h| - 1]);
  }

  // ------------------------------------------------------- one whole turn

  /** The tool calls of a turn that the journal holds. */
  function CallsIn(j: seq<Entry>, turn: nat): set<string> {
    set e | e in j && e.op.ReactTool? && e.op.turn == turn :: e.op.call
  }

  function IdsOf(calls: seq<string>): set<string> { set c | c in calls }

  lemma {:induction false} CallsInJournal(j: seq<Entry>, turn: nat, c: string)
    ensures c in CallsIn(j, turn) <==> Has(j, ReactTool(turn, c))
  {
    if c in CallsIn(j, turn) {
      var e :| e in j && e.op.ReactTool? && e.op.turn == turn && e.op.call == c;
      assert e.op == ReactTool(turn, c);
    }
  }

  /** The journal holds the results of the first `k` calls of the turn, each once. */
  ghost predicate Called(j: seq<Entry>, turn: nat, calls: seq<string>, k: nat) {
    && k <= |calls| && j != []
    && CallsIn(j, turn) == IdsOf(calls[..k])
    && (k > 0 ==> j[|j| - 1].op == ReactTool(turn, Newest(calls, k)))
  }

  lemma {:induction false} CalledStep(j: seq<Entry>, turn: nat, calls: seq<string>, k: nat, e: Entry)
    requires Called(j, turn, calls, k) && k < |calls| && e.op == ReactTool(turn, calls[k])
    ensures Has(j, e.op) <==> calls[k] in calls[..k]
    ensures Called(if calls[k] in calls[..k] then j else j + [e], turn, calls, k + 1)
  {
    CallsInJournal(j, turn, calls[k]);
    assert calls[..k + 1] == calls[..k] + [calls[k]];
    assert IdsOf(calls[..k + 1]) == IdsOf(calls[..k]) + {calls[k]};
    assert CallsIn(j + [e], turn) == CallsIn(j, turn) + {calls[k]} by {
      assert forall x :: x in j + [e] <==> x in j || x == e;
    }
  }

  /** The last result is the newest event, not the repeat of an older one. */
  ghost predicate AtNewest(g: seq<Entry>) {
    g != [] && Fresh(g) != [] && g[|g| - 1] == Fresh(g)[|Fresh(g)| - 1]
  }

  /** The run is at call `k` of the turn's `calls`, or past them. */
  ghost predicate InTurn(max: nat, g: seq<Entry>, turn: nat, calls: seq<string>, k: nat) {
    && Sequential(ReactProgram(max), g) && g != [] && turn <= max
    && Called(Fresh(g), turn, calls, k)
    && LoopOf(max, g).phase == (if k < |calls| then Acting(turn, calls, k) else Deciding(turn + 1))
    && AtNewest(g) == (k > 0 ==> calls[k - 1] == Newest(calls, k))
  }

  lemma {:induction false} NewestByOp(W: Workflow, f: seq<Entry>)
    requires Sequential(W, f) && f != [] && Fresh(f) != []
    ensures AtNewest(f) <==> f[|f| - 1].op == Fresh(f)[|Fresh(f)| - 1].op
  {
    var j := Fresh(f);
    Received(W, f, |f| - 1);
    FreshDistinct(f);
    if f[|f| - 1].op == j[|j| - 1].op {
      OneEntry(j, f[|f| - 1], j[|j| - 1]);
    }
  }

  lemma {:induction false} InTurnStep(max: nat, g: seq<Entry>, turn: nat, calls: seq<string>, k: nat, e: Entry)
    requires InTurn(max, g, turn, calls, k) && k < |calls|
    requires e.op == ReactTool(turn, calls[k]) && Sequential(ReactProgram(max), g + [e])
    ensures InTurn(max, g + [e], turn, calls, k + 1)
  {
    var f := g + [e];
    FreshOne(g, e);
    LoopStep(max, g, e);
    CalledStep(Fresh(g), turn, calls, k, e);
    NewestByOp(ReactProgram(max), f);
  }

  /** Whether the newest event is the last result, which is what the next new command needs. */
  lemma {:induction false} InTurnCurrent(max: nat, g: seq<Entry>, turn: nat, calls: seq<string>, k: nat)
    requires InTurn(max, g, turn, calls, k)
    ensures ReactProgram(max)(g).Some?
    ensures ReactProgram(max)(g).value.expected == |Events(Fresh(g))|
            <==> (k > 0 ==> calls[k - 1] == Newest(calls, k))
  {
    CurrentExactly(max, g);
  }

  /** The turn ends in step with the transcript: the next decision can be committed. */
  ghost predicate EndsTurn(max: nat, f: seq<Entry>, turn: nat) {
    && Sequential(ReactProgram(max), f) && f != []
    && LoopOf(max, f).phase == Deciding(turn + 1)
    && ReactProgram(max)(f).value.expected == |Events(Fresh(f))|
  }

  ghost predicate EndsBy(max: nat, g: seq<Entry>, turn: nat, f: seq<Entry>) {
    g <= f && EndsTurn(max, f, turn)
  }

  ghost predicate CanEndTurn(max: nat, g: seq<Entry>, turn: nat) {
    exists f: seq<Entry> :: EndsBy(max, g, turn, f)
  }

  /** What any longer crash-free run received next. */
  lemma {:induction false} NextInRun(max: nat, g: seq<Entry>, f: seq<Entry>)
    requires g <= f && |g| < |f| && Sequential(ReactProgram(max), f) && ReactProgram(max)(g).Some?
    ensures g + [f[|g|]] <= f && Sequential(ReactProgram(max), g + [f[|g|]])
    ensures f[|g|].op == ReactProgram(max)(g).value.op
    ensures !Has(Fresh(g), f[|g|].op) && !f[|g|].op.ContextOp? ==>
      ReactProgram(max)(g).value.expected == |Events(Fresh(g))|
  {
    assert f[..|g|] == g;
    Received(ReactProgram(max), f, |g|);
    SequentialExtends(ReactProgram(max), g, f[|g|]);
  }

  lemma {:induction false} DecisionIsNew(max: nat, g: seq<Entry>, turn: nat)
    requires Sequential(ReactProgram(max), g) && Placed(max, g) && g != [] && LoopOf(max, g).phase == Deciding(turn)
    ensures !Has(Fresh(g), ModelOp(ReactNames, max, turn))
  {
    if i :| 0 <= i < |Fresh(g)| && Fresh(g)[i].op == ModelOp(ReactNames, max, turn) {
      FreshIsReceived(g, i);
    }
  }

  lemma {:induction false} FreshIsReceived(h: seq<Entry>, i: nat)
    requires i < |Fresh(h)|
    ensures Fresh(h)[i] in h
    decreases |h|
  {
    if i < |Fresh(h[..|h| - 1])| {
      FreshIsReceived(h[..|h| - 1], i);
    }
  }

  /** The run awaits an operation it has not issued. */
  ghost predicate AwaitsNew(max: nat, g: seq<Entry>) {
    && g != [] && ReactProgram(max)(g).Some?
    && !ReactProgram(max)(g).value.op.ContextOp? && !Has(Fresh(g), ReactProgram(max)(g).value.op)
  }

  /** A new command that carries an older version can never be committed. */
  lemma {:induction false} EndNeedsCurrent(max: nat, g: seq<Entry>, turn: nat, f: seq<Entry>)
    requires AwaitsNew(max, g) && EndsBy(max, g, turn, f)
    ensures ReactProgram(max)(g).value.expected == |Events(Fresh(g))|
  {
    if |g| < |f| {
      NextInRun(max, g, f);
    } else {
      assert g == f;
    }
  }

  lemma {:induction false} NextTurnIsNew(max: nat, g: seq<Entry>, turn: nat, calls: seq<string>)
    requires InTurn(max, g, turn, calls, |calls|)
    ensures AwaitsNew(max, g)
  {
    RunsArePlaced(max, g);
    DecisionIsNew(max, g, turn + 1);
  }

  /** A repeated call is always answered. */
  lemma {:induction false} RepeatContinues(max: nat, g: seq<Entry>, turn: nat, calls: seq<string>, k: nat) returns (e: Entry)
    requires InTurn(max, g, turn, calls, k) && k < |calls| && calls[k] in calls[..k]
    ensures e.op == ReactTool(turn, calls[k]) && Sequential(ReactProgram(max), g + [e])
  {
    CallsInJournal(Fresh(g), turn, calls[k]);
    var i :| 0 <= i < |Fresh(g)| && Fresh(g)[i].op == ReactTool(turn, calls[k]);
    e := Fresh(g)[i];
    SequentialExtends(ReactProgram(max), g, e);
  }

  /** A new call is committed when the last result was the newest event. */
  lemma {:induction false} NewCallContinues(max: nat, g: seq<Entry>, turn: nat, calls: seq<string>, k: nat) returns (e: Entry)
    requires InTurn(max, g, turn, calls, k) && k < |calls| && calls[k] !in calls[..k]
    requires k > 0 ==> calls[k - 1] == Newest(calls, k)
    ensures e.op == ReactTool(turn, calls[k]) && Sequential(ReactProgram(max), g + [e])
  {
    InTurnCurrent(max, g, turn, calls, k);
    CallsInJournal(Fresh(g), turn, calls[k]);
    e := Entry(ReactTool(turn, calls[k]), ToolObserved(true, ""), ReactProgram(max)(g).value.expected + 1);
    SequentialExtends(ReactProgram(max), g, e);
  }

  lemma {:induction false} CallContinues(max: nat, g: seq<Entry>, turn: nat, calls: seq<string>, k: nat) returns (e: Entry)
    requires InTurn(max, g, turn, calls, k) && k < |calls|
    requires InStep(calls, k)
    ensures e.op == ReactTool(turn, calls[k]) && Sequential(ReactProgram(max), g + [e])
  {
    if calls[k] in calls[..k] {
      e := RepeatContinues(max, g, turn, calls, k);
    } else {
      e := NewCallContinues(max, g, turn, calls, k);
    }
  }

  /** A run that ends the turn is in step wherever a version is checked. */
  lemma {:induction false} EndsInStep(max: nat, g: seq<Entry>, turn: nat, calls: seq<string>, k: nat, f: seq<Entry>)
    requires InTurn(max, g, turn, calls, k) && EndsBy(max, g, turn, f)
    ensures InStep(calls, k)
  {
    if k == |calls| || calls[k] !in calls[..k] {
      InTurnCurrent(max, g, turn, calls, k);
      if k == |calls| {
        NextTurnIsNew(max, g, turn, calls);
      } else {
        CallsInJournal(Fresh(g), turn, calls[k]);
      }
      EndNeedsCurrent(max, g, turn, f);
    }
  }

  lemma {:induction false} OneCallAlong(max: nat, g: seq<Entry>, turn: nat, calls: seq<string>, k: nat, f: seq<Entry>)
    returns (g': seq<Entry>)
    requires InTurn(max, g, turn, calls, k) && k < |calls| && EndsBy(max, g, turn, f)
    ensures InTurn(max, g', turn, calls, k + 1) && EndsBy(max, g', turn, f)
  {
    assert g != f;
    NextInRun(max, g, f);
    g' := g + [f[|g|]];
    InTurnStep(max, g, turn, calls, k, f[|g|]);
  }

  lemma {:induction false} EndsOnlyIfThreads(max: nat, g: seq<Entry>, turn: nat, calls: seq<string>, k: nat, f: seq<Entry>)
    requires InTurn(max, g, turn, calls, k) && EndsBy(max, g, turn, f)
    ensures ThreadsFrom(calls, k)
    decreases |calls| - k
  {
    EndsInStep(max, g, turn, calls, k, f);
    if k < |calls| {
      var g' := OneCallAlong(max, g, turn, calls, k, f);
      EndsOnlyIfThreads(max, g', turn, calls, k + 1, f);
    }
  }

  lemma {:induction false} EndsHere(max: nat, g: seq<Entry>, turn: nat, calls: seq<string>, k: nat)
    requires InTurn(max, g, turn, calls, k) && k == |calls| && InStep(calls, k)
    ensures EndsBy(max, g, turn, g)
  {
    InTurnCurrent(max, g, turn, calls, k);
  }

  lemma {:induction false} OneCallOnward(max: nat, g: seq<Entry>, turn: nat, calls: seq<string>, k: nat) returns (g': seq<Entry>)
    requires InTurn(max, g, turn, calls, k) && k < |calls| && InStep(calls, k)
    ensures InTurn(max, g', turn, calls, k + 1) && g <= g'
  {
    var e := CallContinues(max, g, turn, calls, k);
    InTurnStep(max, g, turn, calls, k, e);
    g' := g + [e];
  }

  lemma {:induction false} EndsIfThreads(max: nat, g: seq<Entry>, turn: nat, calls: seq<string>, k: nat) returns (f: seq<Entry>)
    requires InTurn(max, g, turn, calls, k) && ThreadsFrom(calls, k)
    ensures EndsBy(max, g, turn, f)
    decreases |calls| - k
  {
    if k == |calls| {
      EndsHere(max, g, turn, calls, k);
      f := g;
    } else {
      var g' := OneCallOnward(max, g, turn, calls, k);
      f := EndsIfThreads(max, g', turn, calls, k + 1);
    }
  }

  lemma {:induction false} NoToolYet(max: nat, g: seq<Entry>, turn: nat, calls: seq<string>, c: string)
    requires Placed(max, g) && g != [] && LoopOf(max, g).phase == Acting(turn, calls, 0)
    ensures !Has(Fresh(g), ReactTool(turn, c))
  {
    if i :| 0 <= i < |Fresh(g)| && Fresh(g)[i].op == ReactTool(turn, c) {
      FreshIsReceived(g, i);
    }
  }

  /** The step into the calls of a turn was its decision, a new event. */
  lemma {:induction false} DecisionCameLast(max: nat, g: seq<Entry>, turn: nat, calls: seq<string>)
    requires Sequential(ReactProgram(max), g) && g != [] && LoopOf(max, g).phase == Acting(turn, calls, 0)
    ensures AtNewest(g) && turn <= max
  {
    var before, e := g[..|g| - 1], g[|g| - 1];
    LastReceived(ReactProgram(max), g);
    if before != [] {
      CameFromDecision(max, before, e, turn, calls);
    }
    RunsArePlaced(max, before);
    DecisionIsNew(max, before, turn);
  }

  lemma {:induction false} CameFromDecision(max: nat, before: seq<Entry>, e: Entry, turn: nat, calls: seq<string>)
    requires before != [] && LoopOf(max, before + [e]).phase == Acting(turn, calls, 0)
    requires ReactProgram(max)(before).Some?
    ensures LoopOf(max, before).phase == Deciding(turn)
    ensures ReactProgram(max)(before).value.op == ModelOp(ReactNames, max, turn) && turn <= max
  {
    LoopStep(max, before, e);
  }

  lemma {:induction false} TurnStarts(max: nat, g: seq<Entry>, turn: nat, calls: seq<string>)
    requires Sequential(ReactProgram(max), g) && g != [] && LoopOf(max, g).phase == Acting(turn, calls, 0)
    ensures InTurn(max, g, turn, calls, 0)
  {
    DecisionCameLast(max, g, turn, calls);
    RunsArePlaced(max, g);
    forall c | c in CallsIn(Fresh(g), turn)
      ensures false
    {
      CallsInJournal(Fresh(g), turn, c);
      NoToolYet(max, g, turn, calls, c);
    }
    assert CallsIn(Fresh(g), turn) == IdsOf(calls[..0]);
  }

  /**
   After a decision, the turn can end with the next decision committable exactly when its
   list of tool call ids threads: distinct ids do, and so does a repeat of the last id, but
   not the repeat of an older one before anything new.
   */
  lemma {:induction false} TurnEndsExactly(max: nat, g: seq<Entry>, turn: nat, calls: seq<string>)
    requires Sequential(ReactProgram(max), g) && g != [] && LoopOf(max, g).phase == Acting(turn, calls, 0)
    ensures CanEndTurn(max, g, turn) <==> Threads(calls)
  {
    TurnStarts(max, g, turn, calls);
    if CanEndTurn(max, g, turn) {
      var f: seq<Entry> :| EndsBy(max, g, turn, f);
      EndsOnlyIfThreads(max, g, turn, calls, 0, f);
    }
    if Threads(calls) {
      var f := EndsIfThreads(max, g, turn, calls, 0);
    }
  }

  lemma {:induction false} DistinctIdsThread(calls: seq<string>, k: nat)
    requires NoRepeats(calls) && k <= |calls|
    ensures ThreadsFrom(calls, k)
    decreases |calls| - k
  {
    assert k > 0 ==> calls[k - 1] !in calls[..k - 1];
    if k < |calls| {
      DistinctIdsThread(calls, k + 1);
    }
  }

  /** Calls a, b, a: the third is answered with the version of the first, and the turn never ends. */
  lemma {:induction false} AnOlderRepeatDoesNot()
    ensures !Threads(["a", "b", "a"])
  {
    var calls := ["a", "b", "a"];
    assert calls[..1] == ["a"] && calls[..2] == ["a", "b"];
    assert !InStep(calls, 3) && ThreadsFrom(calls, 1) == (InStep(calls, 1) && ThreadsFrom(calls, 2));
  }
}
