/** A non-idempotent tool effect is dispatched at most once, however its attempts interleave. */
module ToolSafety {
  import opened Base
  import opened Fencing
  import opened Operations
  import opened ToolProtocol

  // ------------------------------------------------- one attempt and its row

  /** The attempt can still make a non-idempotent call; once cleared, even without its lease. */
  predicate MayDispatch(a: Attempt, holder: bool) {
    a.stage == Cleared(NonIdempotentWrite) || (a.stage == Ready(NonIdempotentWrite) && holder)
  }

  function Weight(a: Attempt, holder: bool): nat { if MayDispatch(a, holder) then 1 else 0 }

  /** The row tells every later attempt that a non-idempotent effect may exist. */
  predicate Guarded(p: Plane, op: OperationId) {
    op in p.rows
    && (|| p.rows[op].status == Completed
        || (p.rows[op].status.Unresolved() && p.rows[op].payload.Some? && p.rows[op].payload.value.Intent?
            && p.rows[op].payload.value.effect == NonIdempotentWrite))
  }

  predicate Engaged(stage: Stage) { !stage.Scheduled? && !stage.Over? }

  predicate Resets(c: Call) { c.CallIntent? || c.CallFail? }

  /** The attempt may still write the row's status back as if no effect existed. */
  predicate MayReset(a: Attempt) {
    !a.mayHaveExecuted && (Engaged(a.stage) || exists c <- a.calls :: Resets(c))
  }

  ghost predicate RowShaped(p: Plane, op: OperationId) {
    op in p.rows ==>
      && p.rows[op].attempts != []
      && Increasing(p.rows[op].attempts, p.fence.token)
      && (p.rows[op].status.Unresolved() ==> p.rows[op].payload.Some? && p.rows[op].payload.value.Intent?)
  }

  predicate SawNonIdempotent(a: Attempt) {
    a.seen.Some? && a.seen.value.Intent? && a.seen.value.effect == NonIdempotentWrite
  }

  ghost predicate Shaped(a: Attempt) {
    && (!a.stage.Failing? && !a.stage.Marking? && !a.stage.Over? ==> a.calls == {})
    && (a.stage.Failing? ==> !a.mayHaveExecuted)
    && (a.stage.Begun? || a.stage.Checked? ==> a.mayHaveExecuted == SawNonIdempotent(a))
    && (a.stage == Calling(NonIdempotentWrite) || a.stage.Marking? ==> a.mayHaveExecuted)
    && (forall c <- a.calls ::
          !c.CallComplete? && (Resets(c) ==> !a.mayHaveExecuted) && (c.CallIntent? ==> c.intent.Intent?))
  }

  /** What the attempt that holds the live lease can rely on; `alone`: no other effect, made or possible. */
  ghost predicate Informed(p: Plane, op: OperationId, t: nat, a: Attempt, alone: bool) {
    && (MayReset(a) ==> alone)
    && (a.mayHaveExecuted ==> Guarded(p, op))
    && ((a.stage.Begun? || a.stage.Checked?) && a.seen.Some? ==>
          op in p.rows && (|| p.rows[op].status == Completed
                           || (p.rows[op].status.Unresolved() && p.rows[op].payload == a.seen)))
    && (Engaged(a.stage) ==> op in p.rows && p.rows[op].Latest(t))
  }

  /** An attempt in its surroundings: effects made so far, and whether any other attempt may make one. */
  datatype View = View(plane: Plane, attempt: Attempt, dispatched: nat, confirmed: nat)

  ghost predicate Sound(v: View, op: OperationId, t: nat, holder: bool, quiet: bool) {
    && RowShaped(v.plane, op)
    && Shaped(v.attempt)
    && (holder ==> Informed(v.plane, op, t, v.attempt, v.dispatched == 0 && quiet))
    && (v.dispatched > 0 || !quiet || MayDispatch(v.attempt, holder) ==> Guarded(v.plane, op))
  }

  /** What calls of anyone but the lease holder leave of the row: its state, or a late completion. */
  ghost predicate RowKept(p: Plane, q: Plane, op: OperationId) {
    && (op in p.rows <==> op in q.rows)
    && (op in p.rows ==>
          && q.rows[op].attempts == p.rows[op].attempts
          && (|| q.rows[op].status == Completed
              || (q.rows[op].status == p.rows[op].status && q.rows[op].payload == p.rows[op].payload)))
  }

  ghost predicate Moves(v: View, v': View, op: OperationId, holder: bool, quiet: bool) {
    var (before, after) := (Weight(v.attempt, holder), Weight(v'.attempt, holder));
    && v'.plane.fence == v.plane.fence
    && v.dispatched <= v'.dispatched
    && (|| after + v'.dispatched + v.confirmed <= before + v.dispatched + v'.confirmed
        || (v.dispatched == 0 && quiet && after + v'.dispatched <= 1))
    && v.confirmed <= v'.confirmed
    && (!holder ==> RowKept(v.plane, v'.plane, op) && after + v'.dispatched <= before + v.dispatched)
  }

  function ViewOf(w: World, t: nat): View
    requires t in w.attempts
  {
    View(w.plane, w.attempts[t], w.dispatched, w.confirmed)
  }

  predicate Holder(p: Plane, t: nat) { p.fence.live && p.fence.token == t }

  /** One action of attempt `t`, seen from the attempt. */
  ghost predicate Follows(w: World, w': World, op: OperationId, t: nat, quiet: bool)
    requires t in w.attempts
  {
    && t in w'.attempts
    && Sound(ViewOf(w', t), op, t, Holder(w.plane, t), quiet)
    && Moves(ViewOf(w, t), ViewOf(w', t), op, Holder(w.plane, t), quiet)
  }

  ghost predicate SoundAt(w: World, op: OperationId, t: nat, quiet: bool) {
    t in w.attempts && Sound(ViewOf(w, t), op, t, Holder(w.plane, t), quiet)
  }

  predicate Begins(w: World, r: Request, t: nat) {
    var outcome := BeginOperation(w.plane, t, r.op, ToolKind, true).0;
    outcome.Ok? && outcome.value.0 != Completed
  }

  lemma {:induction false} BeginKeepsRow(w: World, r: Request, t: nat, quiet: bool)
    requires SoundAt(w, r.op, t, quiet) && w.attempts[t].stage.Scheduled? && Begins(w, r, t)
    ensures Shaped(BeginStep(w, r, t).attempts[t]) && RowShaped(BeginStep(w, r, t).plane, r.op)
    ensures var v := ViewOf(BeginStep(w, r, t), t);
      v.dispatched > 0 || !quiet ==> Guarded(v.plane, r.op)
  {
    BeginCallKeeps(w.plane, r.op, t, ToolKind, true);
  }

  lemma {:induction false} BeginInforms(w: World, r: Request, t: nat, quiet: bool)
    requires SoundAt(w, r.op, t, quiet) && w.attempts[t].stage.Scheduled? && Begins(w, r, t)
    ensures var v := ViewOf(BeginStep(w, r, t), t); Informed(v.plane, r.op, t, v.attempt, v.dispatched == 0 && quiet)
  {
  }

  lemma {:induction false} BeginMoves(w: World, r: Request, t: nat, quiet: bool)
    requires SoundAt(w, r.op, t, quiet) && w.attempts[t].stage.Scheduled?
    ensures Follows(w, BeginStep(w, r, t), r.op, t, quiet)
  {
    if Begins(w, r, t) {
      BeginKeepsRow(w, r, t, quiet);
      BeginInforms(w, r, t, quiet);
      assert BeginStep(w, r, t).attempts[t].stage.Begun?;
    } else {
      StageMoves(w, r, t, Over, quiet);
    }
  }

  lemma {:induction false} PersistMoves(w: World, r: Request, t: nat, quiet: bool)
    requires SoundAt(w, r.op, t, quiet) && w.attempts[t].stage.Checked? && w.attempts[t].seen.None?
    ensures Follows(w, PersistStep(w, r, t), r.op, t, quiet)
  {
  }

  lemma {:induction false} RecoverMoves(w: World, r: Request, t: nat, outcome: Reconciled, quiet: bool)
    requires SoundAt(w, r.op, t, quiet) && w.attempts[t].stage.Checked? && w.attempts[t].seen.Some?
    ensures Follows(w, RecoverStep(w, r, t, outcome), r.op, t, quiet)
  {
  }

  lemma {:induction false} DispatchMoves(w: World, r: Request, t: nat, quiet: bool)
    requires SoundAt(w, r.op, t, quiet) && w.attempts[t].stage.Cleared?
    ensures Follows(w, DispatchStep(w, t), r.op, t, quiet)
  {
  }

  lemma {:induction false} CommitMoves(w: World, r: Request, t: nat, quiet: bool)
    requires SoundAt(w, r.op, t, quiet) && w.attempts[t].stage.Answered?
    ensures Follows(w, CommitStep(w, r, t), r.op, t, quiet)
  {
  }

  lemma {:induction false} CancelMoves(w: World, r: Request, t: nat, quiet: bool)
    requires SoundAt(w, r.op, t, quiet) && !w.attempts[t].stage.Over?
    ensures Follows(w, CancelStep(w, r, t), r.op, t, quiet)
  {
  }

  /** What an abandoned call can do to the row. */
  ghost predicate CallKeeps(p: Plane, q: Plane, op: OperationId, t: nat, call: Call) {
    && q.fence == p.fence
    && RowShaped(q, op)
    && (!Holder(p, t) ==> RowKept(p, q, op))
    && (Guarded(p, op) && !Resets(call) ==> Guarded(q, op))
    && (Holder(p, t) && op in p.rows && p.rows[op].Latest(t) ==> op in q.rows && q.rows[op].Latest(t))
  }

  lemma {:induction false} BeginCallKeeps(p: Plane, op: OperationId, t: nat, kind: OperationKind, allow: bool)
    requires RowShaped(p, op)
    ensures CallKeeps(p, BeginOperation(p, t, op, kind, allow).1, op, t, CallBegin(kind, allow))
  {
    if op in p.rows && p.fence.Admits(t) && !p.rows[op].Registered(t) {
      IncreasingWithLatest(p.rows[op].attempts, t);
    }
  }

  lemma {:induction false} CompletionKeeps(p: Plane, op: OperationId, t: nat, call: Call)
    requires RowShaped(p, op) && (call.CallComplete? || call.CallCompleteEvent? || call.CallReceive?)
    ensures CallKeeps(p, Apply(p, t, op, call), op, t, call)
  {
  }

  lemma {:induction false} StatusCallKeeps(p: Plane, op: OperationId, t: nat, call: Call)
    requires RowShaped(p, op) && (call.CallFail? || call.CallUncertain? || (call.CallIntent? && call.intent.Intent?))
    ensures CallKeeps(p, Apply(p, t, op, call), op, t, call)
  {
  }

  lemma {:induction false} LandMoves(w: World, r: Request, t: nat, call: Call, quiet: bool)
    requires SoundAt(w, r.op, t, quiet) && call in w.attempts[t].calls
    ensures Follows(w, LandStep(w, r, t, call), r.op, t, quiet)
  {
    match call {
      case CallBegin(kind, allow) => BeginCallKeeps(w.plane, r.op, t, kind, allow);
      case CallIntent(_) => StatusCallKeeps(w.plane, r.op, t, call);
      case CallUncertain => StatusCallKeeps(w.plane, r.op, t, call);
      case CallFail => StatusCallKeeps(w.plane, r.op, t, call);
      case _ => CompletionKeeps(w.plane, r.op, t, call);
    }
  }

  /** A move that leaves the row alone. */
  lemma {:induction false} StageMoves(w: World, r: Request, t: nat, stage: Stage, quiet: bool)
    requires SoundAt(w, r.op, t, quiet)
    requires var a := w.attempts[t];
      || stage == Over
      || (InTry(a.stage) && stage == Handler(a))
      || (a.stage == Calling(NonIdempotentWrite) && stage == Marking)
      || (a.stage.Calling? && stage.Answered?)
      || (a.stage.Begun? && stage.Checked?)
      || (a.stage.Ready? && stage == Cleared(a.stage.effect) && w.plane.fence.Holds(t))
    ensures Follows(w, At(w, t, stage), r.op, t, quiet)
  {
  }

  lemma {:induction false} ReceiveMoves(w: World, r: Request, t: nat, result: Payload, quiet: bool)
    requires SoundAt(w, r.op, t, quiet) && w.attempts[t].stage.Late?
    ensures Follows(w, At(w.(plane := Receive(w.plane, t, r.op, result).1), t, Handler(w.attempts[t])), r.op, t, quiet)
  {
  }

  lemma {:induction false} FailMoves(w: World, r: Request, t: nat, quiet: bool)
    requires SoundAt(w, r.op, t, quiet) && w.attempts[t].stage.Failing?
    ensures Follows(w, At(w.(plane := FailOperation(w.plane, t, r.op).1), t, Over), r.op, t, quiet)
  {
  }

  lemma {:induction false} MarkMoves(w: World, r: Request, t: nat, quiet: bool)
    requires SoundAt(w, r.op, t, quiet) && w.attempts[t].stage.Marking?
    ensures Follows(w, At(w.(plane := MarkUncertain(w.plane, t, r.op).1), t, Over), r.op, t, quiet)
  {
  }

  lemma {:induction false} ActionMoves(w: World, r: Request, t: nat, action: Action, quiet: bool)
    requires SoundAt(w, r.op, t, quiet) && Enabled(w, r, t, action)
    ensures Follows(w, Advance(w, r, t, action), r.op, t, quiet)
  {
    match action
    case Begin => BeginMoves(w, r, t, quiet);
    case Check(effect) => StageMoves(w, r, t, Checked(effect), quiet);
    case Persist => PersistMoves(w, r, t, quiet);
    case Recover(outcome) => RecoverMoves(w, r, t, outcome, quiet);
    case Clear =>
      StageMoves(w, r, t, if w.plane.fence.Holds(t) then Cleared(w.attempts[t].stage.effect)
                          else Handler(w.attempts[t]), quiet);
    case Dispatch => DispatchMoves(w, r, t, quiet);
    case Return(answer) =>
      StageMoves(w, r, t, if w.attempts[t].stage.effect == NonIdempotentWrite && !answer.success then Marking
                          else Answered(answer), quiet);
    case Commit => CommitMoves(w, r, t, quiet);
    case ReceiveLate => ReceiveMoves(w, r, t, w.attempts[t].stage.result, quiet);
    case Raise => StageMoves(w, r, t, Handler(w.attempts[t]), quiet);
    case Cancel => CancelMoves(w, r, t, quiet);
    case FailStep => FailMoves(w, r, t, quiet);
    case MarkStep => MarkMoves(w, r, t, quiet);
    case Crash => StageMoves(w, r, t, Over, quiet);
    case Land(call) => LandMoves(w, r, t, call, quiet);
  }

  // ----------------------------------------------------------- every attempt

  /** The attempts that can still make a non-idempotent call. */
  function Dispatchers(w: World): set<nat> {
    set t <- w.attempts | MayDispatch(w.attempts[t], Holder(w.plane, t))
  }

  predicate OthersQuiet(w: World, t: nat) { Dispatchers(w) <= {t} }

  ghost predicate SoundIn(w: World, r: Request, t: nat) {
    t <= w.plane.fence.token && SoundAt(w, r.op, t, OthersQuiet(w, t))
  }

  ghost predicate EveryoneSound(w: World, r: Request) {
    forall t {:trigger SoundIn(w, r, t)} :: t in w.attempts ==> SoundIn(w, r, t)
  }

  ghost predicate Inv(w: World, r: Request) {
    && RowShaped(w.plane, r.op)
    && EveryoneSound(w, r)
    && w.dispatched + |Dispatchers(w)| <= 1 + w.confirmed
    && (w.dispatched > 0 ==> Guarded(w.plane, r.op))
  }

  lemma {:induction false} InitialInv(w: World, r: Request)
    requires Initial(w, r)
    ensures Inv(w, r)
  {
    assert Dispatchers(w) == {};
  }

  /** Fences, other operations and new attempts: no attempt gains a way to dispatch. */
  lemma {:induction false} EnvironmentDispatchers(w: World, r: Request, step: Step)
    requires EveryoneSound(w, r) && Allowed(w, r, step) && !step.Act?
    ensures Dispatchers(Next(w, r, step)) <= Dispatchers(w)
  {
    var w' := Next(w, r, step);
    forall t | t in Dispatchers(w')
      ensures t in Dispatchers(w)
    {
      assert t in w.attempts ==> SoundIn(w, r, t);
    }
  }

  lemma {:induction false} FreshIsSound(w: World, r: Request, t: nat)
    requires Inv(w, r) && t !in w.attempts && t <= w.plane.fence.token
    ensures SoundAt(With(w, t, Fresh), r.op, t, OthersQuiet(With(w, t, Fresh), t))
  {
    var w' := With(w, t, Fresh);
    if u :| u in Dispatchers(w') && u != t {
      assert SoundIn(w, r, u);
    }
  }

  lemma {:induction false} EnvironmentInv(w: World, r: Request, step: Step)
    requires Inv(w, r) && Allowed(w, r, step) && !step.Act?
    ensures Inv(Next(w, r, step), r)
  {
    var w' := Next(w, r, step);
    EnvironmentDispatchers(w, r, step);
    Fewer(Dispatchers(w'), Dispatchers(w));
    assert FenceStep(w.plane.fence, w'.plane.fence) && RowKept(w.plane, w'.plane, r.op);
    forall t: nat | t in w'.attempts
      ensures SoundIn(w', r, t)
    {
      if t in w.attempts {
        assert SoundIn(w, r, t);
      } else {
        FreshIsSound(w, r, t);
      }
    }
  }

  /** `t` moved, and nobody else: what the world after it looks like. */
  predicate Replaced(w: World, w': World, t: nat) {
    && t in w.attempts && t in w'.attempts
    && w'.attempts == w.attempts[t := w'.attempts[t]]
  }

  lemma {:induction false} ActionReplaces(w: World, r: Request, t: nat, action: Action)
    requires Enabled(w, r, t, action)
    ensures Replaced(w, Advance(w, r, t, action), t)
  {
  }

  lemma {:induction false} CountMoves(w: World, w': World, t: nat)
    requires Replaced(w, w', t) && w'.plane.fence == w.plane.fence
    ensures |Dispatchers(w')| + Weight(w.attempts[t], Holder(w.plane, t))
         == |Dispatchers(w)| + Weight(w'.attempts[t], Holder(w.plane, t))
    ensures OthersQuiet(w, t) ==> |Dispatchers(w')| == Weight(w'.attempts[t], Holder(w.plane, t))
  {
    var others := Dispatchers(w) - {t};
    assert Dispatchers(w) == if t in Dispatchers(w) then others + {t} else others;
    assert Dispatchers(w') == if t in Dispatchers(w') then others + {t} else others;
    if OthersQuiet(w, t) {
      assert others == {};
    }
  }

  /** The other attempts stay sound when `t` moves: its calls were refused if one of them holds the lease. */
  lemma {:induction false} OthersStaySound(w: World, w': World, op: OperationId, t: nat, u: nat)
    requires SoundAt(w, op, u, OthersQuiet(w, u)) && u != t
    requires Replaced(w, w', t) && Follows(w, w', op, t, OthersQuiet(w, t))
    ensures SoundAt(w', op, u, OthersQuiet(w', u))
  {
    var holds := Holder(w.plane, u);
    var (before, after) := (Weight(w.attempts[t], Holder(w.plane, t)), Weight(w'.attempts[t], Holder(w.plane, t)));
    assert w'.attempts[u] == w.attempts[u];
    if holds {
      // `t` does not hold the lease, so it added no dispatcher and no effect of its own making
      assert after + w'.dispatched <= before + w.dispatched;
      if w.dispatched == 0 && OthersQuiet(w, u) {
        assert t !in Dispatchers(w);
        assert w'.dispatched == 0 && t !in Dispatchers(w');
        assert Dispatchers(w') <= {u};
      }
    }
    if MayDispatch(w.attempts[u], holds) {
      assert u in Dispatchers(w) && !OthersQuiet(w, t);
    }
    if !OthersQuiet(w', u) {
      var x :| x in Dispatchers(w') && x != u;
      assert x == t || x in Dispatchers(w) - {t};
    }
  }

  lemma {:induction false} FollowsSound(w: World, w': World, r: Request, t: nat)
    requires EveryoneSound(w, r) && Replaced(w, w', t)
    requires Follows(w, w', r.op, t, OthersQuiet(w, t))
    ensures EveryoneSound(w', r)
  {
    assert OthersQuiet(w', t) == OthersQuiet(w, t);
    forall u: nat | u in w'.attempts
      ensures SoundIn(w', r, u)
    {
      assert SoundIn(w, r, u);
      if u != t {
        OthersStaySound(w, w', r.op, t, u);
      }
    }
  }

  lemma {:induction false} FollowsInv(w: World, w': World, r: Request, t: nat)
    requires Inv(w, r) && Replaced(w, w', t)
    requires Follows(w, w', r.op, t, OthersQuiet(w, t))
    ensures Inv(w', r)
  {
    CountMoves(w, w', t);
    FollowsSound(w, w', r, t);
  }

  lemma {:induction false} ActionInv(w: World, r: Request, t: nat, action: Action)
    requires Inv(w, r) && Enabled(w, r, t, action)
    ensures Inv(Advance(w, r, t, action), r)
  {
    assert SoundIn(w, r, t);
    ActionMoves(w, r, t, action, OthersQuiet(w, t));
    ActionReplaces(w, r, t, action);
    FollowsInv(w, Advance(w, r, t, action), r, t);
  }

  lemma {:induction false} StepInv(w: World, r: Request, step: Step)
    requires Inv(w, r) && Allowed(w, r, step)
    ensures Inv(Next(w, r, step), r)
  {
    if !step.Act? {
      EnvironmentInv(w, r, step);
    } else if Enabled(w, r, step.token, step.action) {
      ActionInv(w, r, step.token, step.action);
    }
  }

  lemma {:induction false} Reachable(w: World, r: Request, steps: seq<Step>)
    requires Inv(w, r) && AllAllowed(w, r, steps)
    ensures Inv(Execute(w, r, steps), r)
    decreases |steps|
  {
    if steps != [] {
      StepInv(w, r, steps[0]);
      Reachable(Next(w, r, steps[0]), r, steps[1..]);
    }
  }

  /**
   In every run, over any attempts, crashes, lost leases and stale attempts, the
   non-idempotent calls made are at most one more than the reconciler's
   "not executed" answers.
   */
  lemma {:induction false} DispatchBound(w: World, r: Request, steps: seq<Step>)
    requires Initial(w, r) && AllAllowed(w, r, steps)
    ensures var end := Execute(w, r, steps); end.dispatched <= 1 + end.confirmed
  {
    InitialInv(w, r);
    Reachable(w, r, steps);
  }

  /** The default reconciler (`UnsupportedToolSideEffectReconciler`) answers nothing else. */
  predicate Defaulted(steps: seq<Step>) {
    forall step <- steps :: step.Act? && step.action.Recover? ==> step.action.outcome == Unsupported
  }

  lemma {:induction false} DefaultConfirmsNothing(w: World, r: Request, steps: seq<Step>)
    requires Defaulted(steps)
    ensures Execute(w, r, steps).confirmed == w.confirmed
    decreases |steps|
  {
    if steps != [] {
      assert steps[0] in steps;
      DefaultConfirmsNothing(Next(w, r, steps[0]), r, steps[1..]);
    }
  }

  /** With the default reconciler a non-idempotent tool operation is dispatched at most once. */
  lemma {:induction false} DispatchedAtMostOnce(w: World, r: Request, steps: seq<Step>)
    requires Initial(w, r) && AllAllowed(w, r, steps) && Defaulted(steps)
    ensures Execute(w, r, steps).dispatched <= 1
  {
    DispatchBound(w, r, steps);
    DefaultConfirmsNothing(w, r, steps);
  }
}
