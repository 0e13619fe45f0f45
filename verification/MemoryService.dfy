/** The memory tables of one account, updated in place by one command. */
module MemoryService {
  import opened Base
  import opened MemoryForest
  import opened MemoryGovernance

  class MemoryGovernanceService {
    var parents: Parents                      // memory_sources.parent_source_id
    var sources: map<SourceId, Source>        // memory_sources
    var actions: map<ActionId, Action>        // memory_actions
    var receipts: map<string, Receipt>        // by action_key
    var nextSource: nat
    var nextAction: nat

    ghost function Stored(): Memory
      reads this
    {
      Memory(parents, sources, actions, receipts, nextSource, nextAction)
    }

    constructor ()
      ensures Stored() == Memory(map[], map[], map[], map[], 0, 0)
    {
      parents, sources, actions, receipts := map[], map[], map[], map[];
      nextSource, nextAction := 0, 0;
    }

    method IssueAction(source: SourceId, kind: Kind, state: SourceState) returns (a: ActionId)
      requires source in sources
      modifies this`sources, this`actions, this`nextAction
      ensures a == old(nextAction) && Stored() == Issue(old(Stored()), source, kind, state)
    {
      a := nextAction;
      var generation := sources[source].generation + 1;
      actions := actions[a := MemoryGovernance.Action(source, generation, kind, Open, [])];
      sources := sources[source := MemoryGovernance.Source(generation, state, Some(a))];
      nextAction := a + 1;
    }

    /** The loop over the locked descendants. */
    method DeleteAll(children: seq<SourceId>) returns (found: seq<ActionId>)
      requires Traceable(Stored()) && forall c <- children :: c in sources
      modifies this`sources, this`actions, this`nextAction
      ensures (Stored(), found) == DeleteChildren(old(Stored()), children)
    {
      found := [];
      for i := 0 to |children|
        invariant (Stored(), found) == DeleteChildren(old(Stored()), children[..i])
      {
        var child := children[i];
        assert children[..i + 1] == children[..i] + [child];
        DeleteOneMore(old(Stored()), children[..i], child);
        if sources[child].state == Forgotten {
          found := found + [sources[child].current.value];
        } else {
          var cid := IssueAction(child, Delete, Forgotten);
          found := found + [cid];
        }
      }
      assert children[..|children|] == children;
    }

    /** The writes of an accepted command. */
    method Accept(source: SourceId, key: string, digest: string, kind: Kind) returns (reply: Reply)
      requires WellFormed(Stored()) && source in sources
      modifies this
      ensures reply.Accepted? && (reply.receipt, Stored()) == MemoryGovernance.Accept(old(Stored()), source, key, digest, kind)
    {
      var before := Memory(parents, sources, actions, receipts, nextSource, nextAction);
      var generation := sources[source].generation;
      var aid := IssueAction(source, kind, if kind == Delete then Forgotten else Blocked);
      ChildrenDeleted(before, source, kind);
      var children := Children(before, source, kind);
      var found := DeleteAll(children);
      actions := actions[aid := MemoryGovernance.Action(source, generation + 1, kind, Open, found)];
      var receipt := Receipt(digest, aid, [source] + children, found);
      receipts := receipts[key := receipt];
      reply := Accepted(receipt);
    }

    method Command(source: SourceId, key: string, digest: string, kind: Kind, generation: nat, allowed: bool, restorable: bool)
      returns (reply: Reply)
      requires WellFormed(Stored())
      modifies this
      ensures (reply, Stored())
           == MemoryGovernance.Command(old(Stored()), source, key, digest, kind, generation, allowed, restorable)
    {
      ghost var before := Stored();
      if source !in sources || !allowed {
        return Refused(NotFound);
      }
      if key in receipts {
        if receipts[key].digest != digest {
          return Refused(IdempotencyConflict);
        }
        return Replayed(receipts[key]);
      }
      var s := sources[source];
      if s.generation != generation {
        return Refused(VersionConflict(s.generation));
      }
      if s.state == Forgotten || (s.state == Quarantined && kind != Delete) {
        return Refused(Busy);
      }
      if kind != Delete && !(s.current.Some? && s.current.value in actions && actions[s.current.value].status == Verified) {
        return Refused(Busy);
      }
      if kind == Restore && !restorable {
        return Refused(Busy);
      }
      reply := Accept(source, key, digest, kind);
      assert MemoryGovernance.Command(before, source, key, digest, kind, generation, allowed, restorable)
          == (Accepted(MemoryGovernance.Accept(before, source, key, digest, kind).0),
              MemoryGovernance.Accept(before, source, key, digest, kind).1);
    }
  }
}
