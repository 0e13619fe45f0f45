/**
 Every order of registrations, commands, scope reconciliations and worker results
 (src/persistence/memory.py, src/application/memory_governance.py).
 */
module MemoryRuns {
  import opened Base
  import opened MemoryForest
  import opened MemoryGovernance

  datatype Event =
    | Register(parent: Option<SourceId>, state: SourceState)
    | Freeze(source: SourceId)
    | Request(source: SourceId, key: string, digest: string, kind: Kind, generation: nat, allowed: bool, restorable: bool)
    | Reconcile(source: SourceId, generation: nat)
    | Settle(action: ActionId, result: ActionStatus)

  /** `freeze`: the one retain of a source, at the generation it has. */
  function DoFreeze(m: Memory, s: SourceId): Memory {
    if s in m.sources && m.sources[s].state == Active && m.sources[s].current.None? then
      m.(sources := m.sources[s := m.sources[s].(current := Some(m.nextAction))],
         actions := m.actions[m.nextAction := Action(s, m.sources[s].generation, Retain, Open, [])],
         nextAction := m.nextAction + 1)
    else m
  }

  function DoRegister(m: Memory, parent: Option<SourceId>, state: SourceState): Memory {
    if state != Forgotten && (parent.None? || parent.value in m.sources) then
      m.(parents := m.parents[m.nextSource := parent],
         sources := m.sources[m.nextSource := Source(1, state, None)],
         nextSource := m.nextSource + 1)
    else m
  }

  /** `reconcile_scope`, when the derived scope differs from the stored one. */
  function DoReconcile(m: Memory, s: SourceId, generation: nat): Memory {
    if && s in m.sources && m.sources[s].generation == generation && m.sources[s].state == Active
       && m.sources[s].current.Some? && m.sources[s].current.value in m.actions
       && m.actions[m.sources[s].current.value].status == Verified
    then Issue(m, s, Replace, Blocked)
    else m
  }

  predicate IsVerified(m: Memory, a: ActionId) { a in m.actions && m.actions[a].status == Verified }

  predicate IsCurrent(m: Memory, a: ActionId)
    requires a in m.actions
  {
    var action := m.actions[a];
    && action.source in m.sources
    && m.sources[action.source].current == Some(a) && m.sources[action.source].generation == action.generation
  }

  /** The worker's check for a delete and the store's check for every action. */
  predicate MayVerify(m: Memory, a: ActionId)
    requires a in m.actions
  {
    && IsCurrent(m, a)
    && (m.actions[a].kind == Retain ==> m.sources[m.actions[a].source].state == Active)
    && (m.actions[a].kind == Delete ==> forall d <- m.actions[a].descendants :: IsVerified(m, d))
  }

  function Mark(m: Memory, a: ActionId, status: ActionStatus): Memory
    requires a in m.actions
  {
    m.(actions := m.actions[a := m.actions[a].(status := status)])
  }

  function Reopen(m: Memory, s: SourceId): Memory
    requires s in m.sources
  {
    m.(sources := m.sources[s := m.sources[s].(state := Active)])
  }

  /** `save`: a terminal result stops the event, and a verified change makes its source readable again. */
  function DoSettle(m: Memory, a: ActionId, result: ActionStatus): Memory {
    if a !in m.actions || m.actions[a].status != Open || result == Open then m
    else if result == Failed then Mark(m, a, Failed)
    else if !MayVerify(m, a) then m
    else if m.actions[a].kind == Retain || m.actions[a].kind == Delete then Mark(m, a, Verified)
    else Reopen(Mark(m, a, Verified), m.actions[a].source)
  }

  /** The reply and the new state of a command. */
  function Answer(m: Memory, e: Event): (Reply, Memory)
    requires WellFormed(m) && e.Request?
  {
    Command(m, e.source, e.key, e.digest, e.kind, e.generation, e.allowed, e.restorable)
  }

  function Apply(m: Memory, e: Event): Memory
    requires WellFormed(m)
  {
    match e
    case Register(parent, state) => DoRegister(m, parent, state)
    case Freeze(source) => DoFreeze(m, source)
    case Request(_, _, _, _, _, _, _) => Answer(m, e).1
    case Reconcile(source, generation) => DoReconcile(m, source, generation)
    case Settle(action, result) => DoSettle(m, action, result)
  }

  const EMPTY := Memory(map[], map[], map[], map[], 0, 0)

  /** A run of the service; the invariant is carried so that every step is defined. */
  ghost function Run(m: Memory, events: seq<Event>): (r: Memory)
    requires Inv(m)
    ensures Inv(r)
    decreases |events|
  {
    if events == [] then m
    else
      StepKeepsInv(m, events[0]);
      Run(Apply(m, events[0]), events[1..])
  }

  // -------------------------------------------------------------- invariant

  /** What a verified action rests on is verified. */
  predicate Supported(m: Memory, a: ActionId)
    requires a in m.actions
  {
    m.actions[a].status == Verified ==> forall d <- m.actions[a].descendants :: IsVerified(m, d)
  }

  predicate BottomUp(m: Memory) { forall a <- m.actions :: Supported(m, a) }

  predicate OnlyDeletesCarry(m: Memory) {
    forall a <- m.actions :: m.actions[a].descendants != [] ==> m.actions[a].kind == Delete
  }

  ghost predicate Inv(m: Memory) { WellFormed(m) && BottomUp(m) && OnlyDeletesCarry(m) }

  /** A source only moves to later generations, and a forgotten one not at all. */
  predicate SourceExtends(before: Source, after: Source) {
    before.generation <= after.generation && (before.state == Forgotten ==> after == before)
  }

  /** An action keeps everything but an open status. */
  predicate ActionExtends(before: Action, after: Action) {
    && after.source == before.source && after.generation == before.generation && after.kind == before.kind
    && after.descendants == before.descendants && (before.status != Open ==> after.status == before.status)
  }

  ghost predicate SourcesExtend(m: Memory, m': Memory) {
    forall s <- m.sources :: s in m'.sources && SourceExtends(m.sources[s], m'.sources[s])
  }

  ghost predicate ActionsExtend(m: Memory, m': Memory) {
    forall a <- m.actions :: a in m'.actions && ActionExtends(m.actions[a], m'.actions[a])
  }

  ghost predicate ReceiptsExtend(m: Memory, m': Memory) {
    forall k <- m.receipts :: k in m'.receipts && m'.receipts[k] == m.receipts[k]
  }

  /** What no step undoes. */
  ghost predicate Extends(m: Memory, m': Memory) {
    SourcesExtend(m, m') && ActionsExtend(m, m') && ReceiptsExtend(m, m')
  }

  /** New open actions leave the verified ones, and what they rest on, alone. */
  lemma {:induction false} OpenActionsAreHarmless(m: Memory, m': Memory)
    requires BottomUp(m)
    requires forall a <- m.actions :: a in m'.actions && m'.actions[a] == m.actions[a]
    requires forall a <- m'.actions :: a !in m.actions ==> m'.actions[a].status == Open
    ensures BottomUp(m')
  {
    forall a | a in m'.actions
      ensures Supported(m', a)
    {
      if m'.actions[a].status == Verified {
        assert Supported(m, a);
        forall d | d in m'.actions[a].descendants
          ensures IsVerified(m', d)
        {
          assert IsVerified(m, d);
        }
      }
    }
  }

  lemma {:induction false} AcceptedKeepsActions(m: Memory, source: SourceId, key: string, digest: string, kind: Kind)
    requires WellFormed(m) && BottomUp(m) && OnlyDeletesCarry(m) && source in m.sources
    ensures var m' := Accept(m, source, key, digest, kind).1;
      BottomUp(m') && OnlyDeletesCarry(m') && ActionsExtend(m, m')
  {
    AcceptAddsActions(m, source, key, digest, kind);
    OpenActionsAreHarmless(m, Accept(m, source, key, digest, kind).1);
    if kind != Delete {
      assert Children(m, source, kind) == [];
    }
  }

  lemma {:induction false} AcceptedKeepsSources(m: Memory, source: SourceId, key: string, digest: string, kind: Kind)
    requires WellFormed(m) && source in m.sources && m.sources[source].state != Forgotten
    ensures SourcesExtend(m, Accept(m, source, key, digest, kind).1)
  {
    AcceptMovesSources(m, source, key, digest, kind);
  }

  lemma {:induction false} RequestKeeps(m: Memory, e: Event)
    requires Inv(m) && e.Request?
    ensures Inv(Answer(m, e).1) && Extends(m, Answer(m, e).1)
  {
    CommandMatchesGeneration(m, e.source, e.key, e.digest, e.kind, e.generation, e.allowed, e.restorable);
    if Answer(m, e).0.Accepted? {
      AcceptedIsAccept(m, e);
      AcceptedKeeps(m, e.source, e.key, e.digest, e.kind);
    } else {
      ExtendsSelf(m);
    }
  }

  lemma {:induction false} AcceptedKeeps(m: Memory, source: SourceId, key: string, digest: string, kind: Kind)
    requires Inv(m) && source in m.sources && m.sources[source].state != Forgotten && key !in m.receipts
    ensures Inv(Accept(m, source, key, digest, kind).1) && Extends(m, Accept(m, source, key, digest, kind).1)
  {
    AcceptKeeps(m, source, key, digest, kind);
    AcceptReports(m, source, key, digest, kind);
    AcceptedKeepsActions(m, source, key, digest, kind);
    AcceptedKeepsSources(m, source, key, digest, kind);
  }

  lemma {:induction false} AcceptedIsAccept(m: Memory, e: Event)
    requires WellFormed(m) && e.Request? && Answer(m, e).0.Accepted?
    ensures e.source in m.sources && m.sources[e.source].state != Forgotten && e.key !in m.receipts
    ensures var (receipt, after) := Accept(m, e.source, e.key, e.digest, e.kind);
      Answer(m, e) == (Accepted(receipt), after)
  {
    assert Check(m, e.source, e.kind, e.generation, e.restorable).None?;
  }

  lemma {:induction false} OneMoreTree(parents: Parents, s: SourceId, parent: Option<SourceId>)
    requires Forest(parents) && s !in parents
    requires parent.Some? ==> parent.value in parents && parent.value < s
    ensures Forest(parents[s := parent])
  {
  }

  lemma {:induction false} RegisterKeepsLinks(m: Memory, parent: Option<SourceId>, state: SourceState)
    requires WellFormed(m)
    ensures WellFormed(DoRegister(m, parent, state))
  {
    var m' := DoRegister(m, parent, state);
    if m' != m {
      OneMoreTree(m.parents, m.nextSource, parent);
      forall s | s in m'.sources
        ensures s < m'.nextSource && Linked(m', s)
      {
        assert s in m.sources ==> Linked(m, s);
      }
    }
  }

  lemma {:induction false} RegisterKeeps(m: Memory, parent: Option<SourceId>, state: SourceState)
    requires Inv(m)
    ensures Inv(DoRegister(m, parent, state)) && Extends(m, DoRegister(m, parent, state))
  {
    RegisterKeepsLinks(m, parent, state);
    OpenActionsAreHarmless(m, DoRegister(m, parent, state));
  }

  lemma {:induction false} NewActionIsHarmless(m: Memory, m': Memory, action: Action)
    requires WellFormed(m) && BottomUp(m) && OnlyDeletesCarry(m)
    requires m'.actions == m.actions[m.nextAction := action] && action.status == Open && action.descendants == []
    ensures BottomUp(m') && OnlyDeletesCarry(m') && ActionsExtend(m, m')
  {
    OpenActionsAreHarmless(m, m');
  }

  lemma {:induction false} FreezeLinks(m: Memory, s: SourceId)
    requires WellFormed(m)
    ensures WellFormed(DoFreeze(m, s))
  {
  }

  lemma {:induction false} FreezeKeeps(m: Memory, s: SourceId)
    requires Inv(m)
    ensures Inv(DoFreeze(m, s)) && Extends(m, DoFreeze(m, s))
  {
    var m' := DoFreeze(m, s);
    if m' == m {
      ExtendsSelf(m);
    } else {
      NewActionIsHarmless(m, m', Action(s, m.sources[s].generation, Retain, Open, []));
      FreezeLinks(m, s);
    }
  }

  lemma {:induction false} ReconcileKeeps(m: Memory, s: SourceId, generation: nat)
    requires Inv(m)
    ensures Inv(DoReconcile(m, s, generation)) && Extends(m, DoReconcile(m, s, generation))
  {
    var m' := DoReconcile(m, s, generation);
    if m' == m {
      ExtendsSelf(m);
    } else {
      IssueKeeps(m, s, Replace, Blocked);
      NewActionIsHarmless(m, m', Action(s, m.sources[s].generation + 1, Replace, Open, []));
    }
  }

  /** A result is final, and a verified one rests on verified evidence. */
  lemma {:induction false} MarkKeeps(m: Memory, a: ActionId, status: ActionStatus)
    requires Inv(m) && a in m.actions && m.actions[a].status == Open
    requires status == Verified ==> forall d <- m.actions[a].descendants :: IsVerified(m, d)
    ensures Inv(Mark(m, a, status)) && Extends(m, Mark(m, a, status))
  {
    var m' := Mark(m, a, status);
    forall s | s in m'.sources
      ensures s < m'.nextSource && Linked(m', s)
    {
      assert Linked(m, s);
    }
    forall x | x in m'.actions
      ensures Supported(m', x)
    {
      assert Supported(m, x);
      forall d | d in m'.actions[x].descendants && IsVerified(m, d)
        ensures IsVerified(m', d)
      {
      }
    }
  }

  /** A forgotten source has only its delete as current action, so no result reopens it. */
  lemma {:induction false} NothingReopens(m: Memory, a: ActionId)
    requires WellFormed(m) && a in m.actions && IsCurrent(m, a) && m.actions[a].kind != Delete
    ensures m.sources[m.actions[a].source].state != Forgotten
  {
    assert Linked(m, m.actions[a].source);
  }

  lemma {:induction false} ReopenKeeps(m: Memory, s: SourceId)
    requires Inv(m) && s in m.sources && m.sources[s].state != Forgotten && m.sources[s].current.Some?
    ensures Inv(Reopen(m, s)) && Extends(m, Reopen(m, s))
  {
    var m' := Reopen(m, s);
    forall x | x in m'.sources
      ensures x < m'.nextSource && Linked(m', x)
    {
      assert Linked(m, x);
    }
    assert forall a <- m.actions :: Supported(m, a) ==> Supported(m', a);
  }

  lemma {:induction false} SettleKeeps(m: Memory, a: ActionId, result: ActionStatus)
    requires Inv(m)
    ensures Inv(DoSettle(m, a, result)) && Extends(m, DoSettle(m, a, result))
  {
    if a !in m.actions || m.actions[a].status != Open || result == Open || (result == Verified && !MayVerify(m, a)) {
      ExtendsSelf(m);
    } else {
      MarkKeeps(m, a, result);
      if result == Verified && m.actions[a].kind != Retain && m.actions[a].kind != Delete {
        NothingReopens(m, a);
        ReopenKeeps(Mark(m, a, Verified), m.actions[a].source);
      }
    }
  }

  lemma {:induction false} StepKeepsInv(m: Memory, e: Event)
    requires Inv(m)
    ensures Inv(Apply(m, e)) && Extends(m, Apply(m, e))
  {
    if e.Register? {
      RegisterKeeps(m, e.parent, e.state);
    } else if e.Freeze? {
      FreezeKeeps(m, e.source);
    } else if e.Request? {
      RequestKeeps(m, e);
    } else if e.Reconcile? {
      ReconcileKeeps(m, e.source, e.generation);
    } else {
      SettleKeeps(m, e.action, e.result);
    }
  }

  lemma {:induction false} ExtendsSelf(m: Memory)
    ensures Extends(m, m)
  {
  }

  lemma {:induction false} RunsExtend(m: Memory, events: seq<Event>)
    requires Inv(m)
    ensures Extends(m, Run(m, events))
    decreases |events|
  {
    if events == [] {
      ExtendsSelf(m);
    } else {
      StepKeepsInv(m, events[0]);
      RunsExtend(Apply(m, events[0]), events[1..]);
    }
  }

  // ----------------------------------------------------------------- theorems

  /** `s` is forgotten, and `a` is the delete that forgot it. */
  predicate ForgottenBy(m: Memory, s: SourceId, a: ActionId) {
    && s in m.sources && m.sources[s].state == Forgotten && m.sources[s].current == Some(a)
    && a in m.actions && m.actions[a].kind == Delete
  }

  /** The receipt of an accepted delete names, for each covered source, the delete that forgot it. */
  lemma {:induction false} ReceiptNamesDeletes(m: Memory, source: SourceId, key: string, digest: string, s: SourceId)
    returns (a: ActionId)
    requires WellFormed(m) && source in m.sources && s in m.sources && Covers(m, source, Delete, s)
    ensures var (receipt, m') := Accept(m, source, key, digest, Delete);
      && ForgottenBy(m', s, a)
      && (if s == source then a == receipt.action else a in receipt.descendants)
  {
    var (receipt, m') := Accept(m, source, key, digest, Delete);
    AcceptReports(m, source, key, digest, Delete);
    AcceptMovesSources(m, source, key, digest, Delete);
    AcceptKeeps(m, source, key, digest, Delete);
    assert Linked(m', s);
    if s == source {
      a := receipt.action;
    } else {
      var i :| 0 <= i < |receipt.sources| && receipt.sources[i] == s;
      assert receipt.sources[1..][i - 1] == s;
      a := receipt.descendants[i - 1];
    }
  }

  lemma {:induction false} StaysForgottenBy(m: Memory, later: seq<Event>, s: SourceId, a: ActionId)
    requires Inv(m) && ForgottenBy(m, s, a)
    ensures ForgottenBy(Run(m, later), s, a)
  {
    RunsExtend(m, later);
  }

  /**
   After an accepted delete, in every later state: each source it took in is still
   forgotten by the same delete, and the command's own delete is verified only if the
   delete of every descendant is.
   */
  lemma {:induction false} DeleteIsVerifiedLast(m: Memory, e: Event, later: seq<Event>, s: SourceId) returns (a: ActionId)
    requires Inv(m) && e.Request? && e.kind == Delete && Answer(m, e).0.Accepted?
    requires s in m.sources && Covers(m, e.source, Delete, s)
    ensures Inv(Answer(m, e).1)
    ensures var (reply, after) := Answer(m, e);
      && ForgottenBy(Run(after, later), s, a)
      && (IsVerified(Run(after, later), reply.receipt.action) ==> IsVerified(Run(after, later), a))
  {
    RequestKeeps(m, e);
    AcceptedIsAccept(m, e);
    var (reply, after) := Answer(m, e);
    a := ReceiptNamesDeletes(m, e.source, e.key, e.digest, s);
    StaysForgottenBy(after, later, s, a);
    var final := Run(after, later);
    if s != e.source {
      AcceptAddsActions(m, e.source, e.key, e.digest, Delete);
      RunsExtend(after, later);
      assert ActionExtends(after.actions[reply.receipt.action], final.actions[reply.receipt.action]);
      assert Supported(final, reply.receipt.action);
    }
  }

  /** Resubmitted at any later time, an accepted command returns its receipt and changes nothing. */
  lemma {:induction false} AcceptedCommandsReplay(m: Memory, e: Event, later: seq<Event>, generation: nat, restorable: bool)
    requires Inv(m) && e.Request? && Answer(m, e).0.Accepted?
    ensures Inv(Answer(m, e).1)
    ensures var (reply, after) := Answer(m, e);
      Answer(Run(after, later), e.(generation := generation, allowed := true, restorable := restorable))
        == (Replayed(reply.receipt), Run(after, later))
  {
    RequestKeeps(m, e);
    AcceptedIsAccept(m, e);
    RunsExtend(Answer(m, e).1, later);
    AcceptReports(m, e.source, e.key, e.digest, e.kind);
    assert e.source in Answer(m, e).1.sources;
  }

  /** Of two commands that name the same generation of a source, at most one is ever accepted. */
  lemma {:induction false} OneCommandPerGeneration(m: Memory, first: Event, later: seq<Event>, second: Event)
    requires Inv(m) && first.Request? && second.Request?
    requires first.source == second.source && first.generation == second.generation
    requires Answer(m, first).0.Accepted?
    ensures Inv(Answer(m, first).1)
    ensures !Answer(Run(Answer(m, first).1, later), second).0.Accepted?
  {
    RequestKeeps(m, first);
    CommandMatchesGeneration(m, first.source, first.key, first.digest, first.kind, first.generation, first.allowed, first.restorable);
    var after := Answer(m, first).1;
    RunsExtend(after, later);
    var final := Run(after, later);
    assert SourceExtends(after.sources[first.source], final.sources[first.source]);
    CommandMatchesGeneration(final, second.source, second.key, second.digest, second.kind, second.generation, second.allowed,
                             second.restorable);
  }

  // ------------------------------------------------------------ child deletes

  /** Every source that was promoted from `s` in `before` is now under a verified delete. */
  ghost predicate AllBelowVerified(before: Memory, s: SourceId, now: Memory)
    requires WellFormed(before)
  {
    forall t <- before.sources :: Descends(before.parents, t, s) ==> UnderVerified(now, t)
  }

  predicate UnderVerified(m: Memory, s: SourceId) {
    && s in m.sources && m.sources[s].state == Forgotten
    && m.sources[s].current.Some? && IsVerified(m, m.sources[s].current.value)
  }

  /** The delete of a descendant that was not forgotten before: open, current, without evidence. */
  lemma {:induction false} NewDelete(m: Memory, e: Event, s: SourceId) returns (a: ActionId)
    requires Inv(m) && e.Request? && e.kind == Delete && Answer(m, e).0.Accepted?
    requires s in m.sources && s != e.source && Covers(m, e.source, Delete, s) && m.sources[s].state != Forgotten
    ensures var after := Answer(m, e).1;
      && ForgottenBy(after, s, a) && IsCurrent(after, a)
      && after.actions[a] == Action(s, after.sources[s].generation, Delete, Open, []) && a !in m.actions
  {
    AcceptedIsAccept(m, e);
    var after := Answer(m, e).1;
    a := ReceiptNamesDeletes(m, e.source, e.key, e.digest, s);
    AcceptKeeps(m, e.source, e.key, e.digest, Delete);
    AcceptAddsActions(m, e.source, e.key, e.digest, Delete);
    AcceptMovesSources(m, e.source, e.key, e.digest, Delete);
    assert Linked(after, s) && after.sources[s].generation == m.sources[s].generation + 1;
  }

  lemma {:induction false} RunStep(m: Memory, events: seq<Event>)
    requires Inv(m) && events != []
    ensures Inv(Apply(m, events[0])) && Run(m, events) == Run(Apply(m, events[0]), events[1..])
  {
    StepKeepsInv(m, events[0]);
  }

  /** Nothing stops the upper of two open deletes from being verified first when it carries no evidence. */
  lemma {:induction false} UpperFirst(m: Memory, s: SourceId, upper: ActionId, t: SourceId, lower: ActionId)
    requires Inv(m) && s != t && ForgottenBy(m, s, upper) && ForgottenBy(m, t, lower) && IsCurrent(m, upper)
    requires m.actions[upper].status == Open && m.actions[upper].descendants == []
    requires m.actions[upper].source == s && m.actions[lower].source == t && m.actions[lower].status == Open
    ensures var final := Run(m, [Settle(upper, Verified)]);
      && ForgottenBy(final, s, upper) && IsVerified(final, upper)
      && ForgottenBy(final, t, lower) && !IsVerified(final, lower)
  {
    var final := Mark(m, upper, Verified);
    assert ForgottenBy(final, s, upper) && ForgottenBy(final, t, lower);
  }

  /** A source that was under no verified delete need not be under one when `upper` is verified. */
  lemma {:induction false} StaysUnverified(m: Memory, e: Event, s: SourceId, upper: ActionId, t: SourceId)
    requires Inv(m) && e.Request? && e.kind == Delete && Answer(m, e).0.Accepted?
    requires s in m.sources && Descends(m.parents, s, e.source) && Inv(Answer(m, e).1)
    requires var after := Answer(m, e).1;
      && ForgottenBy(after, s, upper) && IsCurrent(after, upper) && upper !in m.actions
      && after.actions[upper] == Action(s, after.sources[s].generation, Delete, Open, [])
    requires t in m.sources && Descends(m.parents, t, s) && !UnderVerified(m, t)
    ensures var final := Run(Answer(m, e).1, [Settle(upper, Verified)]);
      IsVerified(final, upper) && !UnderVerified(final, t)
  {
    var after := Answer(m, e).1;
    DescendantsComeLater(m.parents, s, e.source);
    DescendantsComeLater(m.parents, t, s);
    DescendsCompose(m.parents, t, s, e.source);
    if m.sources[t].state != Forgotten {
      var lower := NewDelete(m, e, t);
      UpperFirst(after, s, upper, t, lower);
    } else {
      OldDeleteStays(m, e, t);
      SettlesOne(after, upper);
    }
  }

  /** A source forgotten before keeps its delete, and that its status. */
  lemma {:induction false} OldDeleteStays(m: Memory, e: Event, t: SourceId)
    requires Inv(m) && e.Request? && e.kind == Delete && Answer(m, e).0.Accepted?
    requires t in m.sources && m.sources[t].state == Forgotten
    ensures var after := Answer(m, e).1;
      && t in after.sources && after.sources[t] == m.sources[t] && m.sources[t].current.Some?
      && m.sources[t].current.value in m.actions && m.sources[t].current.value in after.actions
      && after.actions[m.sources[t].current.value] == m.actions[m.sources[t].current.value]
  {
    assert Linked(m, t);
    AcceptedIsAccept(m, e);
    AcceptAddsActions(m, e.source, e.key, e.digest, Delete);
    RequestKeeps(m, e);
  }

  lemma {:induction false} SettlesOne(m: Memory, a: ActionId)
    requires Inv(m) && a in m.actions && m.actions[a].status == Open && MayVerify(m, a) && m.actions[a].kind == Delete
    ensures Run(m, [Settle(a, Verified)]) == Mark(m, a, Verified)
  {
    RunStep(m, [Settle(a, Verified)]);
  }

  /** In every state after `after`, `upper` is verified only with everything below `s` verified. */
  ghost predicate VerifiedInOrder(before: Memory, after: Memory, s: SourceId, upper: ActionId)
    requires WellFormed(before) && Inv(after)
  {
    forall later {:trigger Run(after, later)} ::
      IsVerified(Run(after, later), upper) ==> AllBelowVerified(before, s, Run(after, later))
  }

  lemma {:induction false} VerifiedForGood(m: Memory, after: Memory, final: Memory, s: SourceId)
    requires UnderVerified(m, s) && Extends(m, after) && Extends(after, final)
    ensures UnderVerified(final, s)
  {
  }

  lemma {:induction false} VerifiedBelowStays(m: Memory, after: Memory, s: SourceId, later: seq<Event>)
    requires WellFormed(m) && Inv(after) && Extends(m, after) && AllBelowVerified(m, s, m)
    ensures AllBelowVerified(m, s, Run(after, later))
  {
    RunsExtend(after, later);
    forall t | t in m.sources && UnderVerified(m, t)
      ensures UnderVerified(Run(after, later), t)
    {
      VerifiedForGood(m, after, Run(after, later), t);
    }
  }

  lemma {:induction false} OutOfOrder(m: Memory, after: Memory, s: SourceId, upper: ActionId, later: seq<Event>, t: SourceId)
    requires WellFormed(m) && Inv(after) && t in m.sources && Descends(m.parents, t, s)
    requires IsVerified(Run(after, later), upper) && !UnderVerified(Run(after, later), t)
    ensures !VerifiedInOrder(m, after, s, upper)
  {
    assert !AllBelowVerified(m, s, Run(after, later));
  }

  /**
   The delete that an accepted command creates for a descendant `s` carries no evidence.
   Over every later run it is verified only with everything below `s` verified exactly when
   everything below `s` was under a verified delete already, before the command.
   */
  lemma {:induction false} ChildDeleteIsOrderedExactly(m: Memory, e: Event, s: SourceId) returns (upper: ActionId)
    requires Inv(m) && e.Request? && e.kind == Delete && Answer(m, e).0.Accepted?
    requires s in m.sources && Descends(m.parents, s, e.source) && m.sources[s].state != Forgotten
    ensures Inv(Answer(m, e).1) && ForgottenBy(Answer(m, e).1, s, upper)
    ensures VerifiedInOrder(m, Answer(m, e).1, s, upper) <==> AllBelowVerified(m, s, m)
  {
    RequestKeeps(m, e);
    DescendantsComeLater(m.parents, s, e.source);
    upper := NewDelete(m, e, s);
    var after := Answer(m, e).1;
    if AllBelowVerified(m, s, m) {
      forall later
        ensures AllBelowVerified(m, s, Run(after, later))
      {
        VerifiedBelowStays(m, after, s, later);
      }
    } else {
      var t :| t in m.sources && Descends(m.parents, t, s) && !UnderVerified(m, t);
      StaysUnverified(m, e, s, upper, t);
      OutOfOrder(m, after, s, upper, [Settle(upper, Verified)], t);
    }
  }

  /** Deleting above a child with a child of its own always leaves a run that verifies the upper one first. */
  lemma {:induction false} ChildDeletesMayOvertake(m: Memory, e: Event, child: SourceId, grandchild: SourceId)
    returns (upper: ActionId, lower: ActionId)
    requires Inv(m) && e.Request? && e.kind == Delete && Answer(m, e).0.Accepted?
    requires child in m.sources && Descends(m.parents, child, e.source) && m.sources[child].state != Forgotten
    requires grandchild in m.sources && Descends(m.parents, grandchild, child) && m.sources[grandchild].state != Forgotten
    ensures Inv(Answer(m, e).1)
    ensures var final := Run(Answer(m, e).1, [Settle(upper, Verified)]);
      && ForgottenBy(final, child, upper) && IsVerified(final, upper)
      && ForgottenBy(final, grandchild, lower) && !IsVerified(final, lower)
  {
    RequestKeeps(m, e);
    DescendantsComeLater(m.parents, child, e.source);
    DescendantsComeLater(m.parents, grandchild, child);
    DescendsCompose(m.parents, grandchild, child, e.source);
    upper := NewDelete(m, e, child);
    lower := NewDelete(m, e, grandchild);
    UpperFirst(Answer(m, e).1, child, upper, grandchild, lower);
  }

  /** Three sources in a line, each promoted from the one before. */
  function Line(state: SourceState): seq<Event> {
    [Register(None, state), Register(Some(0), state), Register(Some(1), state)]
  }

  function Lined(state: SourceState): Memory {
    var source := Source(1, state, None);
    Memory(map[0 := None, 1 := Some(0), 2 := Some(1)], map[0 := source, 1 := source, 2 := source], map[], map[], 3, 0)
  }

  lemma {:induction false} RegisterThen(m: Memory, e: Event, m': Memory, rest: seq<Event>)
    requires Inv(m) && e.Register? && m' == DoRegister(m, e.parent, e.state)
    ensures Inv(m') && Run(m, [e] + rest) == Run(m', rest)
  {
    RunStep(m, [e] + rest);
    assert ([e] + rest)[1..] == rest;
  }

  function One(state: SourceState): Memory { DoRegister(EMPTY, None, state) }
  function Two(state: SourceState): Memory { DoRegister(One(state), Some(0), state) }

  lemma {:induction false} LineInTwo(m0: Memory, e0: Event, m1: Memory, e1: Event, m2: Memory)
    requires Inv(m0) && e0.Register? && m1 == DoRegister(m0, e0.parent, e0.state)
    requires e1.Register? && m2 == DoRegister(m1, e1.parent, e1.state)
    ensures Inv(m2) && Run(m0, [e0, e1]) == m2
  {
    RegisterThen(m0, e0, m1, [e1]);
    assert [e0] + [e1] == [e0, e1];
  }

  lemma {:induction false} LineInThree(m0: Memory, e0: Event, m1: Memory, e1: Event, m2: Memory, e2: Event, m3: Memory)
    requires Inv(m0) && e0.Register? && m1 == DoRegister(m0, e0.parent, e0.state)
    requires e1.Register? && m2 == DoRegister(m1, e1.parent, e1.state)
    requires e2.Register? && m3 == DoRegister(m2, e2.parent, e2.state)
    ensures Inv(m3) && Run(m0, [e0, e1, e2]) == m3
  {
    RegisterThen(m0, e0, m1, [e1, e2]);
    LineInTwo(m1, e1, m2, e2, m3);
    assert [e0] + [e1, e2] == [e0, e1, e2];
  }

  lemma {:induction false} LineIsReached(state: SourceState)
    requires state != Forgotten
    ensures Inv(EMPTY) && Inv(Lined(state)) && Run(EMPTY, Line(state)) == Lined(state)
  {
    LineInThree(EMPTY, Register(None, state), One(state), Register(Some(0), state), Two(state), Register(Some(1), state), Lined(state));
  }

  /** So a run from nothing leaves the middle source's delete verified and the last one's still open. */
  lemma {:induction false} LineDeletesOvertake(state: SourceState, e: Event) returns (upper: ActionId, lower: ActionId)
    requires state != Forgotten && e.Request? && e.source == 0 && e.kind == Delete && e.generation == 1 && e.allowed
    ensures Inv(EMPTY)
    ensures var m := Run(EMPTY, Line(state));
      && Descends(m.parents, 2, 1) && Descends(m.parents, 1, 0) && Answer(m, e).0.Accepted?
      && Inv(Answer(m, e).1)
      && var final := Run(Answer(m, e).1, [Settle(upper, Verified)]);
         && ForgottenBy(final, 1, upper) && IsVerified(final, upper)
         && ForgottenBy(final, 2, lower) && !IsVerified(final, lower)
  {
    LineIsReached(state);
    upper, lower := ChildDeletesMayOvertake(Lined(state), e, 1, 2);
  }
}
