/**
 A reconciler that does answer "not executed".  That the answer is true does not make the
 tool's next call its only one: an attempt past its last lease check may still call it.
 */
module ToolTruth {
  import opened Base
  import opened Fencing
  import opened Operations
  import opened ToolProtocol
  import opened ToolSafety
  import opened ToolUncertain

  predicate Confirms(step: Step) { step.Act? && step.action == Recover(ConfirmedNotExecuted) }

  predicate NoAnswers(steps: seq<Step>) { forall step <- steps :: !Confirms(step) }

  /** Whatever happens from `w` on, short of another "not executed", there is one call at most. */
  ghost predicate StaysOnce(w: World, r: Request) {
    forall steps {:trigger Execute(w, r, steps)} :: AllAllowed(w, r, steps) && NoAnswers(steps) ==>
      Execute(w, r, steps).dispatched <= 1
  }

  /** At most one call was made or may still be made. */
  ghost predicate Once(w: World) { w.dispatched + |Dispatchers(w)| <= 1 }

  // --------------------------------------------------- once stays once

  lemma {:induction false} OnlyAnswersConfirm(w: World, r: Request, t: nat, action: Action)
    requires Enabled(w, r, t, action) && !Confirms(Act(t, action))
    ensures Advance(w, r, t, action).confirmed == w.confirmed
  {
  }

  lemma {:induction false} ActionKeepsOnce(w: World, r: Request, t: nat, action: Action)
    requires Inv(w, r) && Once(w) && Enabled(w, r, t, action) && !Confirms(Act(t, action))
    ensures Once(Advance(w, r, t, action))
  {
    assert SoundIn(w, r, t);
    ActionMoves(w, r, t, action, OthersQuiet(w, t));
    ActionReplaces(w, r, t, action);
    OnlyAnswersConfirm(w, r, t, action);
    CountMoves(w, Advance(w, r, t, action), t);
  }

  lemma {:induction false} StepKeepsOnce(w: World, r: Request, step: Step)
    requires Inv(w, r) && Once(w) && Allowed(w, r, step) && !Confirms(step)
    ensures Once(Next(w, r, step))
  {
    if !step.Act? {
      EnvironmentDispatchers(w, r, step);
      Fewer(Dispatchers(Next(w, r, step)), Dispatchers(w));
    } else if Enabled(w, r, step.token, step.action) {
      ActionKeepsOnce(w, r, step.token, step.action);
    }
  }

  lemma {:induction false} RunKeepsOnce(w: World, r: Request, steps: seq<Step>)
    requires Inv(w, r) && Once(w) && AllAllowed(w, r, steps) && NoAnswers(steps)
    ensures Once(Execute(w, r, steps))
    decreases |steps|
  {
    if steps != [] {
      assert steps[0] in steps;
      StepInv(w, r, steps[0]);
      StepKeepsOnce(w, r, steps[0]);
      RunKeepsOnce(Next(w, r, steps[0]), r, steps[1..]);
    }
  }

  // --------------------------------------------------- two can both call

  /** `rest` after `step`, without another answer. */
  lemma {:induction false} Before(w: World, r: Request, step: Step, rest: seq<Step>)
    requires Allowed(w, r, step) && !Confirms(step)
    requires AllAllowed(Next(w, r, step), r, rest) && NoAnswers(rest)
    ensures AllAllowed(w, r, [step] + rest) && NoAnswers([step] + rest)
    ensures Execute(w, r, [step] + rest) == Execute(Next(w, r, step), r, rest)
  {
    RunOne(w, r, step, rest);
  }

  /** An attempt that may call gets to it, once the run may progress again if it is the lease holder. */
  lemma {:induction false} MakesItsCall(w: World, r: Request, t: nat) returns (steps: seq<Step>)
    requires t in Dispatchers(w) && !w.plane.fence.Closed()
    ensures AllAllowed(w, r, steps) && NoAnswers(steps) && Execute(w, r, steps).dispatched == w.dispatched + 1
  {
    var call := Act(t, Dispatch);
    if w.attempts[t].stage.Cleared? {
      Before(w, r, call, []);
      steps := [call] + [];
    } else {
      var (open, clear) := (MoveFence(Fence(t, true, Open, None, false)), Act(t, Clear));
      var w1 := Next(w, r, open);
      var w2 := Next(w1, r, clear);
      assert w2.attempts[t].stage == Cleared(NonIdempotentWrite);
      Before(w2, r, call, []);
      Before(w1, r, clear, [call] + []);
      Before(w, r, open, [clear] + ([call] + []));
      steps := [open] + ([clear] + ([call] + []));
    }
  }

  lemma {:induction false} BothCall(w: World, r: Request, u: nat, v: nat) returns (steps: seq<Step>)
    requires u in Dispatchers(w) && v in Dispatchers(w) && u != v && w.attempts[u].stage.Cleared?
    requires !w.plane.fence.Closed()
    ensures AllAllowed(w, r, steps) && NoAnswers(steps) && Execute(w, r, steps).dispatched == w.dispatched + 2
  {
    var call := Act(u, Dispatch);
    var rest := MakesItsCall(Next(w, r, call), r, v);
    Before(w, r, call, rest);
    steps := [call] + rest;
  }

  lemma {:induction false} MoreThanOne<T>(a: set<T>) returns (u: T, v: T)
    requires |a| > 1
    ensures u in a && v in a && u != v
  {
    u :| u in a;
    assert |a - {u}| > 0;
    v :| v in a - {u};
  }

  lemma {:induction false} NotOnceCallsTwice(w: World, r: Request) returns (steps: seq<Step>)
    requires !Once(w) && !w.plane.fence.Closed()
    ensures AllAllowed(w, r, steps) && NoAnswers(steps) && Execute(w, r, steps).dispatched > 1
  {
    if w.dispatched > 1 {
      steps := [];
    } else if w.dispatched == 1 {
      var u :| u in Dispatchers(w);
      steps := MakesItsCall(w, r, u);
    } else {
      var u, v := MoreThanOne(Dispatchers(w));
      if w.attempts[u].stage.Cleared? {
        steps := BothCall(w, r, u, v);
      } else {
        steps := BothCall(w, r, v, u);
      }
    }
  }

  /**
   In any reachable state of a run that may still progress, what follows makes at most one
   call exactly when at most one was made or is still to be made by attempts that are past
   their lease check or about to take it as lease holder.
   */
  lemma {:induction false} StaysOnceExactly(w: World, r: Request)
    requires Inv(w, r) && !w.plane.fence.Closed()
    ensures StaysOnce(w, r) <==> Once(w)
  {
    if Once(w) {
      forall steps | AllAllowed(w, r, steps) && NoAnswers(steps)
        ensures Execute(w, r, steps).dispatched <= 1
      {
        RunKeepsOnce(w, r, steps);
      }
    } else {
      var steps := NotOnceCallsTwice(w, r);
      assert Execute(w, r, steps).dispatched > 1;
    }
  }

  // --------------------------------------------------- the answer itself

  /** Attempt `t` asks about the intent it found. */
  predicate Asks(w: World, r: Request, t: nat) {
    t in w.attempts && w.attempts[t].stage == Checked(NonIdempotentWrite)
    && w.attempts[t].seen == Some(IntentOf(r, NonIdempotentWrite))
  }

  function Told(w: World, r: Request, t: nat): World
    requires Asks(w, r, t)
  {
    Next(w, r, Act(t, Recover(ConfirmedNotExecuted)))
  }

  /** The answer makes its attempt ready, and changes nothing for the others. */
  lemma {:induction false} ToldAttempts(w: World, r: Request, t: nat)
    requires Asks(w, r, t)
    ensures var w' := Told(w, r, t);
      && w'.plane == w.plane && w'.dispatched == w.dispatched
      && w'.attempts == w.attempts[t := w.attempts[t].(stage := Ready(NonIdempotentWrite))]
  {
  }

  /** With nobody past its last check only the lease holder may call. */
  lemma {:induction false} OnlyTheHolder(w: World)
    requires NoneCleared(w)
    ensures |Dispatchers(w)| <= 1
  {
    Fewer(Dispatchers(w), {w.plane.fence.token});
  }

  lemma {:induction false} AnotherMayCall(w: World, r: Request, t: nat, u: nat)
    requires Asks(w, r, t) && Holder(w.plane, t) && u in w.attempts && w.attempts[u].stage == Cleared(NonIdempotentWrite)
    ensures |Dispatchers(Told(w, r, t))| >= 2
  {
    var w' := Told(w, r, t);
    ToldAttempts(w, r, t);
    assert t in Dispatchers(w') && u in Dispatchers(w');
    Fewer({t, u}, Dispatchers(w'));
  }

  /**
   A true "not executed", given to the lease holder, leads to at most one call in every
   later run exactly when no attempt stands between its last lease check and the call.
   */
  lemma {:induction false} NotExecutedIsSafeExactly(w: World, r: Request, t: nat)
    requires Inv(w, r) && Asks(w, r, t) && w.plane.fence.Admits(t) && w.dispatched == 0
    ensures StaysOnce(Told(w, r, t), r) <==> NoneCleared(w)
  {
    var w' := Told(w, r, t);
    StepInv(w, r, Act(t, Recover(ConfirmedNotExecuted)));
    ToldAttempts(w, r, t);
    StaysOnceExactly(w', r);
    if NoneCleared(w) {
      OnlyTheHolder(w');
    } else {
      var u :| u in w.attempts && w.attempts[u].stage == Cleared(NonIdempotentWrite);
      AnotherMayCall(w, r, t, u);
    }
  }

  /** Every "not executed" is true when it is said. */
  ghost predicate Truthful(w: World, r: Request, steps: seq<Step>)
    decreases |steps|
  {
    steps == []
    || ((Confirms(steps[0]) ==> w.dispatched == 0)
        && Truthful(Next(w, r, steps[0]), r, steps[1..]))
  }

  /** ... and is said when no attempt is past its last check. */
  ghost predicate Timely(w: World, r: Request, steps: seq<Step>)
    decreases |steps|
  {
    steps == []
    || ((Confirms(steps[0]) ==> NoneCleared(w))
        && Timely(Next(w, r, steps[0]), r, steps[1..]))
  }

  lemma {:induction false} AnswerKeepsOnce(w: World, r: Request, t: nat)
    requires Inv(w, r) && Once(w) && w.dispatched == 0 && NoneCleared(w)
    ensures Once(Next(w, r, Act(t, Recover(ConfirmedNotExecuted))))
  {
    OnlyTheHolder(Next(w, r, Act(t, Recover(ConfirmedNotExecuted))));
  }

  lemma {:induction false} TruthKeepsOnce(w: World, r: Request, steps: seq<Step>)
    requires Inv(w, r) && Once(w) && AllAllowed(w, r, steps) && Truthful(w, r, steps) && Timely(w, r, steps)
    ensures Once(Execute(w, r, steps))
    decreases |steps|
  {
    if steps != [] {
      StepInv(w, r, steps[0]);
      if Confirms(steps[0]) {
        AnswerKeepsOnce(w, r, steps[0].token);
      } else {
        StepKeepsOnce(w, r, steps[0]);
      }
      TruthKeepsOnce(Next(w, r, steps[0]), r, steps[1..]);
    }
  }

  /** Over whole runs: true answers, given with nobody past its last check, make one call at most. */
  lemma {:induction false} TruthInTimeIsEnough(w: World, r: Request, steps: seq<Step>)
    requires Initial(w, r) && AllAllowed(w, r, steps) && Truthful(w, r, steps) && Timely(w, r, steps)
    ensures Execute(w, r, steps).dispatched <= 1
  {
    InitialInv(w, r);
    assert Dispatchers(w) == {};
    TruthKeepsOnce(w, r, steps);
  }

  // --------------------------------------------------- a run with two calls

  /** An allowed, truthful run from `w` that ends in `end`. */
  ghost predicate Leads(w: World, r: Request, steps: seq<Step>, end: World) {
    AllAllowed(w, r, steps) && Truthful(w, r, steps) && Execute(w, r, steps) == end
  }

  lemma {:induction false} LeadsOne(w: World, r: Request, step: Step, rest: seq<Step>, end: World)
    requires Allowed(w, r, step)
    requires Confirms(step) ==> w.dispatched == 0
    requires Leads(Next(w, r, step), r, rest, end)
    ensures Leads(w, r, [step] + rest, end)
  {
    assert ([step] + rest)[1..] == rest;
  }

  lemma {:induction false} LeadsOn(w: World, r: Request, first: seq<Step>, middle: World, more: seq<Step>, end: World)
    requires Leads(w, r, first, middle) && Leads(middle, r, more, end)
    ensures Leads(w, r, first + more, end)
    decreases |first|
  {
    if first == [] {
      assert first + more == more;
    } else {
      LeadsOn(Next(w, r, first[0]), r, first[1..], middle, more, end);
      LeadsOne(w, r, first[0], first[1..] + more, end);
      assert first + more == [first[0]] + (first[1..] + more);
    }
  }

  function IntentRow(r: Request, attempts: seq<nat>): Row {
    Row(ToolKind, IntentRecorded, Some(IntentOf(r, NonIdempotentWrite)), attempts, map[])
  }

  /** A lone attempt at some stage, over plane `p` with the operation's row. */
  function Alone(p: Plane, r: Request, row: Row, stage: Stage): World {
    World(p.(rows := p.rows[r.op := row]), map[p.fence.token := Attempt(stage, None, false, {})], 0, 0)
  }

  lemma {:induction false} StartsAndChecks(p: Plane, r: Request)
    requires p.fence.Admits(p.fence.token) && r.op !in p.rows && |p.log| == r.expected
    ensures var t := p.fence.token;
      Leads(World(p, map[], 0, 0), r, [Schedule(t), Act(t, Begin), Act(t, Check(NonIdempotentWrite))],
            Alone(p, r, Row(ToolKind, Started, None, [t], map[]), Checked(NonIdempotentWrite)))
  {
    var t, row := p.fence.token, Row(ToolKind, Started, None, [p.fence.token], map[]);
    var (s0, s1, s2) := (Schedule(t), Act(t, Begin), Act(t, Check(NonIdempotentWrite)));
    var w0, w1 := World(p, map[], 0, 0), World(p, map[t := Fresh], 0, 0);
    var w2, w3 := Alone(p, r, row, Begun), Alone(p, r, row, Checked(NonIdempotentWrite));
    assert Next(w0, r, s0) == w1;
    assert Next(w1, r, s1) == w2;
    assert Next(w2, r, s2) == w3;
    LeadsOne(w2, r, s2, [], w3);
    LeadsOne(w1, r, s1, [s2], w3);
    LeadsOne(w0, r, s0, [s1, s2], w3);
  }

  lemma {:induction false} RecordsAndClears(p: Plane, r: Request)
    requires p.fence.Admits(p.fence.token)
    ensures var t := p.fence.token;
      Leads(Alone(p, r, Row(ToolKind, Started, None, [t], map[]), Checked(NonIdempotentWrite)), r,
            [Act(t, Persist), Act(t, Clear)], Alone(p, r, IntentRow(r, [t]), Cleared(NonIdempotentWrite)))
  {
    var t := p.fence.token;
    var w0 := Alone(p, r, Row(ToolKind, Started, None, [t], map[]), Checked(NonIdempotentWrite));
    var w1 := Alone(p, r, IntentRow(r, [t]), Ready(NonIdempotentWrite));
    var w2 := Alone(p, r, IntentRow(r, [t]), Cleared(NonIdempotentWrite));
    assert Next(w0, r, Act(t, Persist)) == w1;
    assert Next(w1, r, Act(t, Clear)) == w2;
    LeadsOne(w1, r, Act(t, Clear), [], w2);
    LeadsOne(w0, r, Act(t, Persist), [Act(t, Clear)], w2);
  }

  /** The next token finds the recorded intent. */
  lemma {:induction false} FindsIntent(w: World, r: Request, t: nat, before: seq<nat>) returns (steps: seq<Step>, end: World)
    requires w.plane.fence.Admits(t) && t !in w.attempts && t !in before && |w.plane.log| == r.expected
    requires r.op in w.plane.rows && w.plane.rows[r.op] == IntentRow(r, before)
    ensures Leads(w, r, steps, end)
    ensures end.attempts == w.attempts[t := Attempt(Checked(NonIdempotentWrite), Some(IntentOf(r, NonIdempotentWrite)), true, {})]
    ensures end.plane.fence == w.plane.fence && end.dispatched == w.dispatched && end.confirmed == w.confirmed
  {
    var s := [Schedule(t), Act(t, Begin), Act(t, Check(NonIdempotentWrite))];
    var w1 := With(w, t, Fresh);
    var intent := IntentOf(r, NonIdempotentWrite);
    var p := w.plane.(rows := w.plane.rows[r.op := IntentRow(r, before + [t])]);
    var w2 := With(w.(plane := p), t, Attempt(Begun, Some(intent), true, {}));
    end := At(w2, t, Checked(NonIdempotentWrite));
    assert Next(w, r, s[0]) == w1;
    assert Next(w1, r, s[1]) == w2;
    LeadsOne(w2, r, s[2], [], end);
    LeadsOne(w1, r, s[1], [s[2]], end);
    LeadsOne(w, r, s[0], [s[1], s[2]], end);
    steps := s;
  }

  /** It is told that nothing was executed, and makes the call. */
  lemma {:induction false} ReconcilesAndCalls(w: World, r: Request, t: nat) returns (steps: seq<Step>, end: World)
    requires w.plane.fence.Admits(t) && t in w.attempts && w.dispatched == 0
    requires w.attempts[t] == Attempt(Checked(NonIdempotentWrite), Some(IntentOf(r, NonIdempotentWrite)), true, {})
    ensures Leads(w, r, steps, end)
    ensures end.dispatched == 1 && end.confirmed == w.confirmed + 1
    ensures t in end.attempts && end.attempts == w.attempts[t := end.attempts[t]]
  {
    var s := [Act(t, Recover(ConfirmedNotExecuted)), Act(t, Clear), Act(t, Dispatch)];
    var w1 := At(w.(confirmed := w.confirmed + 1), t, Ready(NonIdempotentWrite));
    var w2 := At(w1, t, Cleared(NonIdempotentWrite));
    end := Next(w2, r, s[2]);
    assert Next(w, r, s[0]) == w1;
    assert Next(w1, r, s[1]) == w2;
    LeadsOne(w2, r, s[2], [], end);
    LeadsOne(w1, r, s[1], [s[2]], end);
    LeadsOne(w, r, s[0], [s[1], s[2]], end);
    steps := s;
  }

  /** An attempt records its intent and passes its last check. */
  lemma {:induction false} ReachesTheCall(p: Plane, r: Request) returns (steps: seq<Step>)
    requires p.fence.Admits(p.fence.token) && r.op !in p.rows && |p.log| == r.expected
    ensures Leads(World(p, map[], 0, 0), r, steps, Alone(p, r, IntentRow(r, [p.fence.token]), Cleared(NonIdempotentWrite)))
  {
    var t, end := p.fence.token, Alone(p, r, IntentRow(r, [p.fence.token]), Cleared(NonIdempotentWrite));
    var checked := Alone(p, r, Row(ToolKind, Started, None, [t], map[]), Checked(NonIdempotentWrite));
    var (first, second) := ([Schedule(t), Act(t, Begin), Act(t, Check(NonIdempotentWrite))], [Act(t, Persist), Act(t, Clear)]);
    StartsAndChecks(p, r);
    RecordsAndClears(p, r);
    LeadsOn(World(p, map[], 0, 0), r, first, checked, second, end);
    steps := first + second;
  }

  /**
   The bound of `DispatchBound` is met from every plane where the operation is new: an
   attempt that lost its lease after its last check, and a reconciler that truthfully
   answers "not executed" to its successor, call the tool twice.
   */
  lemma {:induction false} TruthIsNotEnough(p: Plane, r: Request) returns (steps: seq<Step>)
    requires p.fence.Admits(p.fence.token) && r.op !in p.rows && |p.log| == r.expected
    ensures var w := World(p, map[], 0, 0);
      && Initial(w, r) && AllAllowed(w, r, steps) && Truthful(w, r, steps)
      && Execute(w, r, steps).dispatched == 2 && Execute(w, r, steps).confirmed == 1
  {
    var t := p.fence.token;
    var w0 := Alone(p, r, IntentRow(r, [t]), Cleared(NonIdempotentWrite));
    var first := ReachesTheCall(p, r);
    var lost := MoveFence(Fence(t + 1, true, Open, None, false));
    var w1 := Next(w0, r, lost);
    var find, w2 := FindsIntent(w1, r, t + 1, [t]);
    var call, w3 := ReconcilesAndCalls(w2, r, t + 1);
    var end := Next(w3, r, Act(t, Dispatch));
    steps := [Act(t, Dispatch)];
    LeadsOne(w3, r, Act(t, Dispatch), [], end);
    LeadsOn(w2, r, call, w3, steps, end);
    steps := call + steps;
    LeadsOn(w1, r, find, w2, steps, end);
    steps := find + steps;
    LeadsOne(w0, r, lost, steps, end);
    steps := [lost] + steps;
    LeadsOn(World(p, map[], 0, 0), r, first, w0, steps, end);
    steps := first + steps;
  }
}
