/**
 `MemoryGovernanceService.command` and the worker's verification
 (src/application/memory_governance.py, src/persistence/memory.py).
 */
module MemoryGovernance {
  import opened Base
  import opened MemoryForest

  type ActionId(==, !new) = nat

  datatype SourceState = Active | Blocked | Forgotten | Quarantined
  datatype Source = Source(generation: nat, state: SourceState, current: Option<ActionId>)

  datatype Kind = Retain | Delete | Restore | Curate | Replace

  /** Open covers every status before the outbox event is processed. */
  datatype ActionStatus = Open | Verified | Failed

  /** `descendants` is `verification.descendant_actions`, which only a command's own delete carries. */
  datatype Action = Action(source: SourceId, generation: nat, kind: Kind, status: ActionStatus, descendants: seq<ActionId>)

  datatype Receipt = Receipt(digest: string, action: ActionId, sources: seq<SourceId>, descendants: seq<ActionId>)

  datatype Memory = Memory(
    parents: Parents,
    sources: map<SourceId, Source>,
    actions: map<ActionId, Action>,
    receipts: map<string, Receipt>,
    nextSource: nat,
    nextAction: nat)

  datatype Refusal = NotFound | IdempotencyConflict | VersionConflict(generation: nat) | Busy
  datatype Reply = Accepted(receipt: Receipt) | Replayed(receipt: Receipt) | Refused(refusal: Refusal)

  /** A source's current action belongs to it and to its generation; a forgotten one's is a delete. */
  ghost predicate Linked(m: Memory, s: SourceId)
    requires s in m.sources
  {
    var source := m.sources[s];
    if source.current.None? then source.state != Forgotten
    else
      && source.current.value in m.actions
      && m.actions[source.current.value].source == s
      && m.actions[source.current.value].generation == source.generation
      && (source.state == Forgotten ==> m.actions[source.current.value].kind == Delete)
  }

  ghost predicate WellFormed(m: Memory) {
    && Forest(m.parents) && m.parents.Keys == m.sources.Keys
    && (forall s <- m.sources :: s < m.nextSource && Linked(m, s))
    && (forall a <- m.actions :: a < m.nextAction && m.actions[a].source in m.sources
          && m.actions[a].generation <= m.sources[m.actions[a].source].generation)
  }

  // ------------------------------------------------------------ the delete loop

  /** A forgotten source has an action that forgot it. */
  predicate Traceable(m: Memory) {
    forall s <- m.sources :: m.sources[s].state == Forgotten ==> m.sources[s].current.Some?
  }

  /** A new action on a source, which moves one generation on. */
  function Issue(m: Memory, s: SourceId, kind: Kind, state: SourceState): Memory
    requires s in m.sources
  {
    var generation := m.sources[s].generation + 1;
    m.(sources := m.sources[s := Source(generation, state, Some(m.nextAction))],
       actions := m.actions[m.nextAction := Action(s, generation, kind, Open, [])],
       nextAction := m.nextAction + 1)
  }

  /** One descendant: its running delete, or a new one. */
  function DeleteChild(m: Memory, child: SourceId): (r: (Memory, ActionId))
    requires Traceable(m) && child in m.sources
    ensures Traceable(r.0) && r.0.sources.Keys == m.sources.Keys
  {
    if m.sources[child].state == Forgotten then (m, m.sources[child].current.value)
    else (Issue(m, child, Delete, Forgotten), m.nextAction)
  }

  lemma {:induction false} IssueKeeps(m: Memory, s: SourceId, kind: Kind, state: SourceState)
    requires WellFormed(m) && s in m.sources && (state == Forgotten ==> kind == Delete)
    ensures WellFormed(Issue(m, s, kind, state))
  {
    var m' := Issue(m, s, kind, state);
    forall x | x in m'.sources
      ensures x < m'.nextSource && Linked(m', x)
    {
      assert x in m.sources && Linked(m, x);
    }
  }

  /** A descendant after the loop: untouched if it was forgotten already, else forgotten one generation later. */
  predicate ChildAfter(before: Source, after: Source) {
    if before.state == Forgotten then after == before
    else after.generation == before.generation + 1 && after.state == Forgotten && after.current.Some?
  }

  ghost predicate SourcesAfter(m: Memory, m': Memory, children: seq<SourceId>) {
    && m'.sources.Keys == m.sources.Keys && m'.parents == m.parents
    && m'.receipts == m.receipts && m'.nextSource == m.nextSource
    && forall s <- m.sources ::
         if s in children then ChildAfter(m.sources[s], m'.sources[s]) else m'.sources[s] == m.sources[s]
  }

  /** Earlier actions stay, and later ones are open deletes without evidence of their own. */
  ghost predicate ActionsAfter(m: Memory, m': Memory) {
    && m.nextAction <= m'.nextAction
    && (forall a <- m.actions :: a in m'.actions && m'.actions[a] == m.actions[a])
    && (forall a <- m'.actions :: a !in m.actions ==>
          m.nextAction <= a && m'.actions[a].kind == Delete && m'.actions[a].status == Open && m'.actions[a].descendants == [])
  }

  /** Each listed action is the current one of its child. */
  predicate CurrentActions(m: Memory, children: seq<SourceId>, actions: seq<ActionId>) {
    |actions| == |children|
    && forall i :: 0 <= i < |children| ==> children[i] in m.sources && m.sources[children[i]].current == Some(actions[i])
  }

  lemma {:induction false} DeleteChildKeeps(m: Memory, child: SourceId)
    requires WellFormed(m) && Traceable(m) && child in m.sources
    ensures var m' := DeleteChild(m, child).0;
      WellFormed(m') && SourcesAfter(m, m', [child]) && ActionsAfter(m, m')
      && m'.sources[child].current == Some(DeleteChild(m, child).1)
  {
    if m.sources[child].state != Forgotten {
      IssueKeeps(m, child, Delete, Forgotten);
    }
  }

  lemma {:induction false} SourcesCompose(m: Memory, m1: Memory, m2: Memory, children: seq<SourceId>, child: SourceId)
    requires SourcesAfter(m, m1, children) && SourcesAfter(m1, m2, [child]) && child !in children
    ensures SourcesAfter(m, m2, children + [child])
  {
  }

  lemma {:induction false} CurrentCompose(m1: Memory, m2: Memory, children: seq<SourceId>, actions: seq<ActionId>,
                                          child: SourceId, action: ActionId)
    requires CurrentActions(m1, children, actions) && SourcesAfter(m1, m2, [child]) && child !in children
    requires child in m2.sources && m2.sources[child].current == Some(action)
    ensures CurrentActions(m2, children + [child], actions + [action])
  {
    forall i | 0 <= i < |children|
      ensures children[i] in m2.sources && m2.sources[children[i]].current == Some(actions[i])
    {
      assert children[i] in children && children[i] !in [child];
    }
  }

  predicate Distinct(ids: seq<SourceId>) { forall i, j :: 0 <= i < j < |ids| ==> ids[i] != ids[j] }

  /** What a delete loop has done once it is through `children`. */
  ghost predicate Deleted(m: Memory, m': Memory, children: seq<SourceId>, actions: seq<ActionId>) {
    WellFormed(m') && SourcesAfter(m, m', children) && ActionsAfter(m, m') && CurrentActions(m', children, actions)
  }

  lemma {:induction false} OneChildMore(m: Memory, before: Memory, children: seq<SourceId>, actions: seq<ActionId>, child: SourceId)
    requires Deleted(m, before, children, actions) && Traceable(before) && child in m.sources && child !in children
    ensures Deleted(m, DeleteChild(before, child).0, children + [child], actions + [DeleteChild(before, child).1])
  {
    DeleteChildKeeps(before, child);
    var (after, action) := DeleteChild(before, child);
    SourcesCompose(m, before, after, children, child);
    CurrentCompose(before, after, children, actions, child, action);
  }

  /** The loop of a delete over its descendants. */
  function DeleteChildren(m: Memory, children: seq<SourceId>): (r: (Memory, seq<ActionId>))
    requires Traceable(m) && forall c <- children :: c in m.sources
    ensures Traceable(r.0) && r.0.sources.Keys == m.sources.Keys
  {
    if children == [] then (m, [])
    else
      var (before, actions) := DeleteChildren(m, children[..|children| - 1]);
      var (after, action) := DeleteChild(before, children[|children| - 1]);
      (after, actions + [action])
  }

  lemma {:induction false} DeleteOneMore(m: Memory, init: seq<SourceId>, child: SourceId)
    requires Traceable(m) && (forall c <- init :: c in m.sources) && child in m.sources
    ensures forall c <- init + [child] :: c in m.sources
    ensures DeleteChildren(m, init + [child])
         == (DeleteChild(DeleteChildren(m, init).0, child).0,
             DeleteChildren(m, init).1 + [DeleteChild(DeleteChildren(m, init).0, child).1])
  {
    assert (init + [child])[..|init|] == init;
  }

  lemma {:induction false} DeletesOneMore(m: Memory, init: seq<SourceId>, child: SourceId)
    requires WellFormed(m) && Traceable(m) && (forall c <- init :: c in m.sources) && child in m.sources && child !in init
    requires Deleted(m, DeleteChildren(m, init).0, init, DeleteChildren(m, init).1)
    ensures forall c <- init + [child] :: c in m.sources
    ensures Deleted(m, DeleteChildren(m, init + [child]).0, init + [child], DeleteChildren(m, init + [child]).1)
  {
    DeleteOneMore(m, init, child);
    OneChildMore(m, DeleteChildren(m, init).0, init, DeleteChildren(m, init).1, child);
  }

  lemma {:induction false} DeletesChildren(m: Memory, children: seq<SourceId>)
    requires WellFormed(m) && Traceable(m) && Distinct(children) && forall c <- children :: c in m.sources
    ensures Deleted(m, DeleteChildren(m, children).0, children, DeleteChildren(m, children).1)
  {
    if children == [] {
      NothingDeleted(m);
    } else {
      var init, child := children[..|children| - 1], children[|children| - 1];
      assert children == init + [child];
      DeletesChildren(m, init);
      DeletesOneMore(m, init, child);
    }
  }

  lemma {:induction false} NothingDeleted(m: Memory)
    requires WellFormed(m)
    ensures Deleted(m, m, [], [])
  {
  }

  // ------------------------------------------------------------------ command

  /** The checks of a new command, in the order the code makes them. */
  function Check(m: Memory, source: SourceId, kind: Kind, generation: nat, restorable: bool): Option<Refusal>
    requires source in m.sources
  {
    var s := m.sources[source];
    if s.generation != generation then Some(VersionConflict(s.generation))
    else if s.state == Forgotten then Some(Busy)
    else if s.state == Quarantined && kind != Delete then Some(Busy)
    else if kind != Delete && !(s.current.Some? && s.current.value in m.actions && m.actions[s.current.value].status == Verified)
    then Some(Busy)
    else if kind == Restore && !restorable then Some(Busy)
    else None
  }

  function Children(m: Memory, source: SourceId, kind: Kind): (children: seq<SourceId>)
    requires WellFormed(m)
    ensures Distinct(children) && source !in children && forall c <- children :: c in m.sources
    ensures forall s: SourceId :: s in children <==> kind == Delete && Descends(m.parents, s, source)
  {
    DescendantsAreListed(m.parents, source, m.nextSource);
    assert forall s: SourceId :: Descends(m.parents, s, source) ==> source < s && s in m.sources by {
      forall s: SourceId | Descends(m.parents, s, source) { DescendantsComeLater(m.parents, s, source); }
    }
    if kind == Delete then Descendants(m.parents, source, m.nextSource) else []
  }

  /** The command's own action and the source it moves, before any descendant. */
  function Own(m: Memory, source: SourceId, kind: Kind): Memory
    requires source in m.sources
  {
    Issue(m, source, kind, if kind == Delete then Forgotten else Blocked)
  }

  /** An accepted command: its action, its source, and for a delete every descendant. */
  function Accept(m: Memory, source: SourceId, key: string, digest: string, kind: Kind): (Receipt, Memory)
    requires WellFormed(m) && source in m.sources
  {
    var children := Children(m, source, kind);
    IssueKeeps(m, source, kind, if kind == Delete then Forgotten else Blocked);
    var (after, actions) := DeleteChildren(Own(m, source, kind), children);
    var receipt := Receipt(digest, m.nextAction, [source] + children, actions);
    (receipt,
     after.(actions := after.actions[m.nextAction := Action(source, m.sources[source].generation + 1, kind, Open, actions)],
            receipts := after.receipts[key := receipt]))
  }

  /** `allowed` stands for the account check and `authorize`, `restorable` for the last action on the fact. */
  function Command(m: Memory, source: SourceId, key: string, digest: string, kind: Kind, generation: nat,
                   allowed: bool, restorable: bool): (Reply, Memory)
    requires WellFormed(m)
  {
    if source !in m.sources || !allowed then (Refused(NotFound), m)
    else if key in m.receipts then
      (if m.receipts[key].digest == digest then Replayed(m.receipts[key]) else Refused(IdempotencyConflict), m)
    else match Check(m, source, kind, generation, restorable)
      case Some(refusal) => (Refused(refusal), m)
      case None =>
        var (receipt, after) := Accept(m, source, key, digest, kind);
        (Accepted(receipt), after)
  }

  // ------------------------------------------------------------- what it leaves

  /** Which sources a command takes in: its own, and for a delete everything promoted from it. */
  predicate Covers(m: Memory, source: SourceId, kind: Kind, s: SourceId)
    requires Forest(m.parents)
  {
    s == source || (kind == Delete && Descends(m.parents, s, source))
  }

  lemma {:induction false} ChildrenDeleted(m: Memory, source: SourceId, kind: Kind)
    requires WellFormed(m) && source in m.sources
    ensures Traceable(Own(m, source, kind))
    ensures var (after, actions) := DeleteChildren(Own(m, source, kind), Children(m, source, kind));
      Deleted(Own(m, source, kind), after, Children(m, source, kind), actions)
  {
    DeletesChildren(Own(m, source, kind), Children(m, source, kind));
  }

  /** Writing the evidence into the command's own action and its receipt disturbs nothing else. */
  lemma {:induction false} RecordKeeps(m: Memory, a: ActionId, descendants: seq<ActionId>, receipts: map<string, Receipt>)
    requires WellFormed(m) && a in m.actions
    ensures WellFormed(m.(actions := m.actions[a := m.actions[a].(descendants := descendants)], receipts := receipts))
  {
    var m' := m.(actions := m.actions[a := m.actions[a].(descendants := descendants)], receipts := receipts);
    forall s | s in m'.sources
      ensures s < m'.nextSource && Linked(m', s)
    {
      assert Linked(m, s);
    }
  }

  lemma {:induction false} AcceptKeeps(m: Memory, source: SourceId, key: string, digest: string, kind: Kind)
    requires WellFormed(m) && source in m.sources
    ensures WellFormed(Accept(m, source, key, digest, kind).1)
  {
    ChildrenDeleted(m, source, kind);
    var own := Own(m, source, kind);
    var (after, actions) := DeleteChildren(own, Children(m, source, kind));
    assert m.nextAction in own.actions && after.actions[m.nextAction] == own.actions[m.nextAction];
    var (receipt, m') := Accept(m, source, key, digest, kind);
    assert m'.actions[m.nextAction] == after.actions[m.nextAction].(descendants := actions);
    RecordKeeps(after, m.nextAction, actions, m'.receipts);
  }

  /** The command's own source moves one generation, and no source outside it moves. */
  lemma {:induction false} AcceptMovesSources(m: Memory, source: SourceId, key: string, digest: string, kind: Kind)
    requires WellFormed(m) && source in m.sources
    ensures var (receipt, m') := Accept(m, source, key, digest, kind);
      && m'.sources.Keys == m.sources.Keys && m'.parents == m.parents && m'.nextSource == m.nextSource
      && m'.sources[source] == Source(m.sources[source].generation + 1, if kind == Delete then Forgotten else Blocked,
                                      Some(receipt.action))
      && (forall s <- m.sources :: s != source && Covers(m, source, kind, s) ==> ChildAfter(m.sources[s], m'.sources[s]))
      && (forall s <- m.sources :: !Covers(m, source, kind, s) ==> m'.sources[s] == m.sources[s])
  {
    ChildrenDeleted(m, source, kind);
    var own, children := Own(m, source, kind), Children(m, source, kind);
    var (after, actions) := DeleteChildren(own, children);
    var (receipt, m') := Accept(m, source, key, digest, kind);
    assert m'.sources == after.sources;
    assert SourcesAfter(own, after, children);
    assert source !in children;
    forall s | s in m.sources && s != source
      ensures Covers(m, source, kind, s) ==> ChildAfter(m.sources[s], m'.sources[s])
      ensures !Covers(m, source, kind, s) ==> m'.sources[s] == m.sources[s]
    {
      assert s in children <==> Covers(m, source, kind, s);
      assert own.sources[s] == m.sources[s];
    }
  }

  lemma {:induction false} DistinctCons(first: SourceId, rest: seq<SourceId>)
    requires Distinct(rest) && first !in rest
    ensures Distinct([first] + rest) && ([first] + rest)[1..] == rest
  {
    forall i, j | 0 <= i < j < |[first] + rest|
      ensures ([first] + rest)[i] != ([first] + rest)[j]
    {
      assert ([first] + rest)[j] == rest[j - 1];
    }
  }

  /** A receipt names each covered source once. */
  lemma {:induction false} AcceptListsSources(m: Memory, source: SourceId, key: string, digest: string, kind: Kind)
    requires WellFormed(m) && source in m.sources
    ensures var (receipt, m') := Accept(m, source, key, digest, kind);
      && Distinct(receipt.sources)
      && |receipt.sources| > 0 && receipt.sources[1..] == Children(m, source, kind)
      && (forall s: SourceId :: s in receipt.sources <==> Covers(m, source, kind, s))
  {
    var children := Children(m, source, kind);
    DistinctCons(source, children);
    forall s: SourceId
      ensures s in [source] + children <==> Covers(m, source, kind, s)
    {
      assert s in [source] + children <==> s == source || s in children;
    }
  }

  /** The receipt names each covered source once, beside the current delete of each descendant. */
  lemma {:induction false} AcceptReports(m: Memory, source: SourceId, key: string, digest: string, kind: Kind)
    requires WellFormed(m) && source in m.sources
    ensures var (receipt, m') := Accept(m, source, key, digest, kind);
      && Distinct(receipt.sources) && |receipt.sources| == |receipt.descendants| + 1
      && (forall s: SourceId :: s in receipt.sources <==> Covers(m, source, kind, s))
      && CurrentActions(m', receipt.sources[1..], receipt.descendants)
      && m'.receipts == m.receipts[key := receipt] && receipt.digest == digest
  {
    AcceptListsSources(m, source, key, digest, kind);
    ChildrenDeleted(m, source, kind);
    var own, children := Own(m, source, kind), Children(m, source, kind);
    var (after, actions) := DeleteChildren(own, children);
    assert CurrentActions(after, children, actions);
    assert CurrentActions(Accept(m, source, key, digest, kind).1, children, actions);
  }

  /** Earlier actions are untouched; the new ones are open, and only the command's own carries evidence. */
  lemma {:induction false} AcceptAddsActions(m: Memory, source: SourceId, key: string, digest: string, kind: Kind)
    requires WellFormed(m) && source in m.sources
    ensures var (receipt, m') := Accept(m, source, key, digest, kind);
      && m.nextAction < m'.nextAction && receipt.action == m.nextAction
      && (forall a <- m.actions :: a in m'.actions && m'.actions[a] == m.actions[a])
      && receipt.action in m'.actions
      && m'.actions[receipt.action] == Action(source, m.sources[source].generation + 1, kind, Open, receipt.descendants)
      && (forall a <- m'.actions :: a !in m.actions && a != receipt.action ==>
            m'.actions[a].kind == Delete && m'.actions[a].status == Open && m'.actions[a].descendants == [])
  {
    ChildrenDeleted(m, source, kind);
    var own := Own(m, source, kind);
    var (after, actions) := DeleteChildren(own, Children(m, source, kind));
    var (receipt, m') := Accept(m, source, key, digest, kind);
    assert m.nextAction !in m.actions;
    forall a | a in m.actions
      ensures a in m'.actions && m'.actions[a] == m.actions[a]
    {
      assert own.actions[a] == m.actions[a] && a != m.nextAction;
    }
    forall a | a in m'.actions && a !in m.actions && a != receipt.action
      ensures m'.actions[a].kind == Delete && m'.actions[a].status == Open && m'.actions[a].descendants == []
    {
      assert a !in own.actions && after.actions[a] == m'.actions[a];
    }
  }

  predicate Deletion(reply: Reply, kind: Kind) { reply.Accepted? && kind == Delete }

  /** Exactly the covered sources of an accepted delete join the forgotten ones; any other command forgets nothing. */
  lemma {:induction false} ForgetsExactly(m: Memory, source: SourceId, key: string, digest: string, kind: Kind, generation: nat,
                                          allowed: bool, restorable: bool, s: SourceId)
    requires WellFormed(m) && s in m.sources
    ensures var (reply, m') := Command(m, source, key, digest, kind, generation, allowed, restorable);
      s in m'.sources
      && (m'.sources[s].state == Forgotten
          <==> m.sources[s].state == Forgotten || (Deletion(reply, kind) && Covers(m, source, Delete, s)))
  {
    var (reply, m') := Command(m, source, key, digest, kind, generation, allowed, restorable);
    if reply.Accepted? {
      AcceptMovesSources(m, source, key, digest, kind);
      assert Check(m, source, kind, generation, restorable).None?;
    }
  }

  /** A command is accepted only for a new key and the stored generation; otherwise nothing changes. */
  lemma {:induction false} CommandMatchesGeneration(m: Memory, source: SourceId, key: string, digest: string, kind: Kind,
                                                    generation: nat, allowed: bool, restorable: bool)
    requires WellFormed(m)
    ensures var (reply, m') := Command(m, source, key, digest, kind, generation, allowed, restorable);
      && WellFormed(m')
      && (if reply.Accepted? then
            && source in m.sources && key !in m.receipts
            && m.sources[source].generation == generation
            && source in m'.sources && m'.sources[source].generation == generation + 1
            && m'.receipts == m.receipts[key := reply.receipt]
          else m' == m)
  {
    var (reply, m') := Command(m, source, key, digest, kind, generation, allowed, restorable);
    if reply.Accepted? {
      AcceptKeeps(m, source, key, digest, kind);
      AcceptMovesSources(m, source, key, digest, kind);
      AcceptReports(m, source, key, digest, kind);
    }
  }
}
