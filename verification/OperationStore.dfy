/** The operation and transcript plane of `AgentDataStore`, updated in place. */
module OperationStore {
  import opened Base
  import opened Fencing
  import opened Operations

  class AgentOperationStore {
    var fence: Fence                        // lease row and run status, moved by the lease plane
    var rows: map<OperationId, Row>
    var version: nat                        // agent_transcripts.version
    var events: map<nat, Event>             // primary key: sequence

    /** The events are numbered 1..version without gaps. */
    ghost predicate Numbered()
      reads this
    {
      forall n: nat :: n in events <==> 1 <= n <= version
    }

    ghost function Log(): (log: seq<Event>)
      reads this
      requires Numbered()
      ensures |log| == version
    {
      var (n, rowOf) := (version, events);
      seq(n, i requires 0 <= i < n && i + 1 in rowOf => rowOf[i + 1])
    }

    ghost function Rows(): Plane
      reads this
      requires Numbered()
    {
      Plane(fence, rows, Log())
    }

    ghost predicate Valid()
      reads this
    {
      Numbered() && AttemptsOrdered(Rows()) && LogUnique(Rows())
    }

    constructor (fence: Fence)
      ensures Valid() && Rows() == Plane(fence, map[], [])
    {
      this.fence := fence;
      rows, version, events := map[], 0, map[];
    }

    method BeginOperation(t: nat, op: OperationId, kind: OperationKind, allowUnresolved: bool)
      returns (r: Outcome<(OperationStatus, Option<Payload>)>)
      requires Valid()
      modifies this`rows
      ensures Valid()
      ensures (r, Rows()) == Operations.BeginOperation(old(Rows()), t, op, kind, allowUnresolved)
    {
      CallsKeepTheLog(Rows(), t, op, CallBegin(kind, allowUnresolved));
      if !fence.Admits(t) {
        return Err(fence.Denial());
      }
      if op !in rows {
        rows := rows[op := Row(kind, Started, None, [t], map[])];
        return Ok((Started, None));
      }
      var row := rows[op];
      if row.kind != kind {
        return Err(Rejected);
      }
      if row.status == Completed {
        return Ok((Completed, row.payload));
      }
      var unresolved := row.status.Unresolved();
      if unresolved && !allowUnresolved {
        return Err(Fault.OperationUncertain);
      }
      if !row.Registered(t) {
        rows := rows[op := rows[op].(attempts := row.attempts + [t])];
      }
      if !unresolved {
        rows := rows[op := rows[op].(status := Started, payload := None)];
      }
      r := if unresolved then Ok((row.status, row.payload)) else Ok((Started, None));
      assert rows == Operations.BeginOperation(old(Rows()), t, op, kind, allowUnresolved).1.rows;
    }

    method RecordOperationIntent(t: nat, op: OperationId, intent: Payload) returns (r: Outcome<Unit>)
      requires Valid()
      modifies this`rows
      ensures Valid()
      ensures (r, Rows()) == RecordIntent(old(Rows()), t, op, intent)
    {
      CallsKeepTheLog(Rows(), t, op, CallIntent(intent));
      if !fence.Admits(t) || op !in rows {
        return Err(fence.Denial());
      }
      if rows[op].status == Started {
        rows := rows[op := rows[op].(status := IntentRecorded, payload := Some(intent))];
        r := Ok(Unit);
      } else {
        r := Err(Rejected);
      }
    }

    method MarkOperationUncertain(t: nat, op: OperationId) returns (r: Outcome<Unit>)
      requires Valid()
      modifies this`rows
      ensures Valid()
      ensures (r, Rows()) == MarkUncertain(old(Rows()), t, op)
    {
      CallsKeepTheLog(Rows(), t, op, CallUncertain);
      if !fence.Admits(t) || op !in rows {
        return Err(fence.Denial());
      }
      if rows[op].status == IntentRecorded || rows[op].status == Uncertain {
        rows := rows[op := rows[op].(status := Uncertain)];
      }
      r := Ok(Unit);
    }

    method FailOperation(t: nat, op: OperationId) returns (r: Outcome<Unit>)
      requires Valid()
      modifies this`rows
      ensures Valid()
      ensures (r, Rows()) == Operations.FailOperation(old(Rows()), t, op)
    {
      CallsKeepTheLog(Rows(), t, op, CallFail);
      if !fence.Admits(t) || op !in rows {
        return Err(fence.Denial());
      }
      if rows[op].status != Completed {
        rows := rows[op := rows[op].(status := Failed)];
      }
      r := Ok(Unit);
    }

    method CompleteOperation(t: nat, op: OperationId, payload: Payload) returns (r: Outcome<Unit>)
      requires Numbered()
      modifies this`rows
      ensures Numbered() && (r, Rows()) == Operations.CompleteOperation(old(Rows()), t, op, payload)
    {
      if !fence.Admits(t) || op !in rows {
        return Err(fence.Denial());
      }
      var row := rows[op];
      if row.status == Completed {
        return if row.payload == Some(payload) then Ok(Unit) else Err(Rejected);
      }
      if !row.Registered(t) {
        return Err(Rejected);
      }
      if t in row.receipts {
        if row.receipts[t].payload != payload {
          return Err(Rejected);
        }
        if row.receipts[t].disposition != Current {
          return Err(StaleFencingToken);
        }
      } else {
        row := row.(receipts := row.receipts[t := Receipt(payload, Current)]);
      }
      rows := rows[op := row.(status := Completed, payload := Some(payload))];
      r := Ok(Unit);
      assert t in old(rows)[op].receipts ==> old(rows)[op].receipts[t := Receipt(payload, Current)] == old(rows)[op].receipts;
    }

    /** The loop that looks up an existing event by operation id. */
    method FindEvent(op: OperationId) returns (found: Option<nat>)
      requires Numbered()
      ensures found.Some? <==> Logged(Log(), op)
      ensures found.Some? ==> found.value == SequenceOf(Log(), op)
    {
      var n := 0;
      while n < version
        invariant 0 <= n <= version
        invariant forall i :: 0 <= i < n ==> Log()[i].op != op
        decreases version - n
      {
        if events[n + 1].op == op {
          assert Log()[n].op == op;
          return Some(n + 1);
        }
        n := n + 1;
      }
      found := None;
    }

    method CompleteOperationWithEvent(t: nat, op: OperationId, expected: nat, answer: Answer)
      returns (r: Outcome<nat>)
      requires Valid()
      modifies this`rows, this`version, this`events
      ensures Valid()
      ensures (r, Rows()) == CompleteWithEvent(old(Rows()), t, op, expected, answer)
    {
      CallsKeepTheLog(Rows(), t, op, CallCompleteEvent(expected, answer));
      r := CompareAndAppend(t, op, expected, answer);
    }

    /** The statements of the transaction: look up, compare, complete, append. */
    method CompareAndAppend(t: nat, op: OperationId, expected: nat, answer: Answer) returns (r: Outcome<nat>)
      requires Numbered()
      modifies this`rows, this`version, this`events
      ensures Numbered() && (r, Rows()) == CompleteWithEvent(old(Rows()), t, op, expected, answer)
    {
      if !fence.Admits(t) || op !in rows {
        return Err(fence.Denial());
      }
      var existing := FindEvent(op);
      if version != expected {
        return if existing.Some? then Ok(existing.value) else Err(TranscriptVersionConflict);
      }
      if existing.Some? {
        return Err(Rejected);   // the insert violates the unique constraint
      }
      var completed := CompleteOperation(t, op, Result(answer, version + 1));
      if completed.Err? {
        return Err(completed.error);
      }
      AppendEvent(Event(op, answer));
      r := Ok(version);
    }

    /** The event row and the transcript's new version. */
    method AppendEvent(event: Event)
      requires Numbered()
      modifies this`version, this`events
      ensures Numbered() && version == old(version) + 1 && Log() == old(Log()) + [event]
    {
      ghost var before := Log();
      version := version + 1;
      events := events[version := event];
      assert Log() == before + [event];
    }

    /** `ResultReceiptService.receive`, the late path of `preserve_late_result`. */
    method Receive(t: nat, op: OperationId, payload: Payload) returns (r: Outcome<Disposition>)
      requires Valid()
      modifies this`rows
      ensures Valid()
      ensures (r, Rows()) == Operations.Receive(old(Rows()), t, op, payload)
    {
      CallsKeepTheLog(Rows(), t, op, CallReceive(payload));
      r := StoreReceipt(t, op, payload);
    }

    method StoreReceipt(t: nat, op: OperationId, payload: Payload) returns (r: Outcome<Disposition>)
      requires Numbered()
      modifies this`rows
      ensures Numbered() && (r, Rows()) == Operations.Receive(old(Rows()), t, op, payload)
    {
      if op !in rows || !rows[op].Registered(t) {
        return Err(Rejected);
      }
      var row := rows[op];
      if t in row.receipts {
        return if row.receipts[t].payload == payload then Ok(row.receipts[t].disposition) else Err(Rejected);
      }
      var disposition := Dispose(t);
      row := row.(receipts := row.receipts[t := Receipt(payload, disposition)]);
      if disposition != Current && fence.Closed() && row.Latest(t) && row.status != Completed {
        row := row.(status := Completed, payload := Some(payload));
      }
      rows := rows[op := row];
      r := Ok(disposition);
    }

    /** The checks of `receive`, each of which may settle the disposition that the ones before left current. */
    method Dispose(t: nat) returns (disposition: Disposition)
      ensures disposition == DispositionOf(fence, t)
    {
      disposition := Current;
      if fence.bar.Some? {
        disposition := if fence.bar.value.Superseded? then Stale else CancelledReceipt;
      }
      if disposition == Current && fence.standing == Revoked {
        disposition := CancelledReceipt;
      }
      if disposition == Current && !(fence.live && fence.token == t && fence.standing == Open) {
        disposition := Stale;
      }
    }

    /** The messages of the first `version` events, in sequence order, with the version they make up. */
    method LoadMessages(t: nat) returns (r: Outcome<(seq<string>, nat)>)
      requires Valid()
      ensures r == if fence.Admits(t) then Ok((Messages(Log()), version)) else Err(fence.Denial())
    {
      if !fence.Admits(t) {
        return Err(fence.Denial());
      }
      var messages := [];
      var n := 0;
      while n < version
        invariant 0 <= n <= version
        invariant messages == Messages(Log()[..n])
        decreases version - n
      {
        var row := events[n + 1];
        assert Log()[..n + 1][..n] == Log()[..n] && Log()[n] == row;
        match row.answer {
          case ContextBuilt(texts) => messages := messages + texts;
          case PlanMade(_) =>
          case Evaluated(_) =>
          case _ => messages := messages + [row.answer.content];
        }
        n := n + 1;
      }
      assert Log()[..version] == Log();
      r := Ok((messages, version));
    }
  }
}
