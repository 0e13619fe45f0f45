/** The delegation rows of one root, updated in place. */
module DelegationStore {
  import opened Base
  import opened LeasePlane
  import opened BranchAttempts

  class DelegationActivities {
    var delegation: Option<Delegation>      // execution_delegations, at most one per root
    var rows: Rows                          // run_executions of role 'subagent'

    ghost function Stored(): State
      reads this
    {
      State(delegation, rows)
    }

    constructor ()
      ensures Stored() == State(None, map[])
    {
      delegation, rows := None, map[];
    }

    method Prepare(operation: string, briefs: seq<Brief>, attempt: nat, allowed: bool, room: nat)
      returns (r: Outcome<seq<string>>)
      requires Shaped(rows)
      modifies this
      ensures (r, Stored()) == BranchAttempts.Prepare(old(Stored()), operation, briefs, attempt, allowed, room)
      ensures Shaped(rows)
    {
      PrepareKeepsShape(Stored(), operation, briefs, attempt, allowed, room);
      if (attempt != 1 && attempt != 2) || !ValidBriefs(briefs) || !allowed {
        return Err(Rejected);
      }
      if delegation.Some? && delegation.value != Delegation(operation, briefs) {
        return Err(Rejected);
      }
      var pending, newKeys := SelectBranches(briefs, attempt);
      if |newKeys| > room {
        return Err(Rejected);
      }
      var saved := rows;
      var ok := InsertBranches(pending, newKeys, attempt);
      if !ok {
        rows := saved;
        assert Collides(saved, briefs, attempt);
        return Err(Rejected);
      }
      assert !Collides(saved, briefs, attempt);
      if delegation.None? {
        delegation := Some(Delegation(operation, briefs));
      }
      r := Ok(pending);
    }

    /** The loop that finds each brief's latest branch and decides whether this round runs it. */
    method SelectBranches(briefs: seq<Brief>, attempt: nat) returns (pending: seq<string>, newKeys: set<string>)
      ensures pending == Pending(rows, briefs, attempt)
      ensures newKeys == NewKeys(rows, briefs, attempt) && forall k <- newKeys :: k in pending
    {
      pending, newKeys := [], {};
      for i := 0 to |briefs|
        invariant pending == Pending(rows, briefs[..i], attempt)
        invariant newKeys == NewKeys(rows, briefs[..i], attempt) && forall k <- newKeys :: k in pending
      {
        var key := briefs[i].key;
        assert briefs[..i + 1] == briefs[..i] + [briefs[i]];
        var latest := LatestAttempt(rows, key);
        if attempt == 2 && latest != 0 && rows[(key, latest)].error.Some? && NonRetryable(rows[(key, latest)].error.value) {
          continue;
        }
        if attempt == 2 && (latest == 0 || (latest == 1 && rows[(key, latest)].status != Failed)) {
          continue;
        }
        pending := pending + [key];
        if latest != attempt {
          newKeys := newKeys + {key};
        }
      }
      assert briefs[..|briefs|] == briefs;
    }

    /** The loop that inserts the new executions; it stops at a unique violation. */
    method InsertBranches(pending: seq<string>, newKeys: set<string>, attempt: nat) returns (ok: bool)
      requires forall k <- newKeys :: k in pending
      modifies this`rows
      ensures ok <==> forall k <- newKeys :: (k, attempt) !in old(rows)
      ensures ok ==> rows == WithNew(old(rows), newKeys, attempt)
    {
      var done: set<string> := {};
      for i := 0 to |pending|
        invariant done <= newKeys && forall j :: 0 <= j < i && pending[j] in newKeys ==> pending[j] in done
        invariant rows == WithNew(old(rows), done, attempt)
        invariant forall k <- done :: (k, attempt) !in old(rows)
      {
        var key := pending[i];
        if key in newKeys && key !in done {
          if (key, attempt) in rows {
            return false;
          }
          rows := rows[(key, attempt) := Branch(Queued, None)];
          done := done + {key};
        }
      }
      assert done == newKeys;
      ok := true;
    }

    method FinishBranch(key: string, attempt: nat, status: Status, error: Option<string>, active: bool, receipt: bool)
      returns (r: Outcome<Unit>)
      requires Shaped(rows)
      modifies this`rows
      ensures (r, Stored()) == Finish(old(Stored()), key, attempt, status, error, active, receipt)
      ensures Shaped(rows)
    {
      StepKeepsShape(Stored(), DoFinish(key, attempt, status, error, active, receipt));
      if (key, attempt) !in rows || !status.Terminal() {
        return Err(Rejected);
      }
      if rows[(key, attempt)].status.Terminal() {
        return Ok(Unit);
      }
      var final := if active then status else Cancelled;
      if final == Succeeded && !receipt {
        return Err(Rejected);
      }
      rows := rows[(key, attempt) := Branch(final, error)];
      r := Ok(Unit);
    }

    /** `_aggregate`: the loop over the briefs, which stops at a missing or active branch. */
    method Report(operation: string) returns (r: Outcome<bool>)
      ensures r == Aggregate(Stored(), operation)
    {
      if delegation.None? || delegation.value.operation != operation {
        return Ok(false);
      }
      var briefs := delegation.value.briefs;
      var gaps := 0;
      for i := 0 to |briefs|
        invariant forall j :: 0 <= j < i ==>
          var latest := LatestAttempt(rows, briefs[j].key);
          latest != 0 && rows[(briefs[j].key, latest)].status.Terminal()
        invariant gaps == 0 <==> forall j :: 0 <= j < i && briefs[j].required ==>
          rows[(briefs[j].key, LatestAttempt(rows, briefs[j].key))].status == Succeeded
      {
        var brief := briefs[i];
        assert brief in briefs;
        var latest := LatestAttempt(rows, brief.key);
        if latest == 0 || !rows[(brief.key, latest)].status.Terminal() {
          return Err(Rejected);
        }
        if rows[(brief.key, latest)].status != Succeeded && brief.required {
          gaps := gaps + 1;
        }
      }
      r := Ok(gaps == 0);
    }
  }
}
