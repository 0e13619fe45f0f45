/**
 The operation and transcript transactions of one execution
 (src/agent_activities/store.py, src/run_domain/results.py) as functions on its rows.
 Every one runs under the fencing token `t` of the attempt that calls it.
 */
module Operations {
  import opened Base
  import opened Fencing

  /** The operation ids a workflow issues for its execution; OperationIds renders them. */
  datatype OperationId =
    | ContextOp
    | ReactModel(turn: nat)
    | ReactTool(turn: nat, call: string)
    | ReactFinal(turn: nat)
    | Planner(version: nat)
    | StepModel(version: nat, step: nat, turn: nat)
    | StepTool(version: nat, step: nat, turn: nat, call: string)
    | StepFinal(version: nat, step: nat)
    | Evaluation(version: nat, step: nat)
    | Synthesis(version: nat)
    | Respond(decision: OperationId)

  datatype Verdict = Continue | Replan | Complete | Fail

  /** What an activity commits: everything a model or a tool may answer. */
  datatype Answer =
    | ContextBuilt(messages: seq<string>)
    | FinalAnswer(content: string)
    | ToolCalls(content: string, calls: seq<string>)   // empty when an invalid batch is refused whole
    | RespondCall(content: string, call: string)       // the `respond_directly` action
    | Responded(accepted: bool, content: string)       // its paired receipt
    | ToolObserved(success: bool, content: string)
    | PlanMade(steps: nat)
    | Evaluated(verdict: Verdict)

  datatype EffectClass = ReadOnly | IdempotentWrite | NonIdempotentWrite | Unknown

  /** `result_payload`: a recorded intent, or a result with its `transcript_version`. */
  datatype Payload =
    | Intent(effect: EffectClass, arguments: string)
    | Result(answer: Answer, version: nat)

  datatype OperationStatus = Started | IntentRecorded | Uncertain | Failed | Completed {
    predicate Unresolved() { IntentRecorded? || Uncertain? }
  }

  datatype OperationKind = ContextKind | ModelKind | ToolKind | PlanningKind | SynthesisKind

  datatype Disposition = Current | Stale | CancelledReceipt
  datatype Receipt = Receipt(payload: Payload, disposition: Disposition)

  /**
   An operation row with its attempt and receipt rows.  `attempts[i]` is the token of
   attempt number i+1, so `attempt_count` is its length; receipts are keyed by the
   token of their attempt.
   */
  datatype Row = Row(
    kind: OperationKind,
    status: OperationStatus,
    payload: Option<Payload>,
    attempts: seq<nat>,
    receipts: map<nat, Receipt>)
  {
    predicate Registered(t: nat) { t in attempts }
    predicate Latest(t: nat) { attempts != [] && attempts[|attempts| - 1] == t }
  }

  datatype Event = Event(op: OperationId, answer: Answer)

  /** Everything the transactions of one execution read and write. */
  datatype Plane = Plane(fence: Fence, rows: map<OperationId, Row>, log: seq<Event>)

  predicate Done(p: Plane, op: OperationId) { op in p.rows && p.rows[op].status == Completed }

  // ----------------------------------------------------------- transactions

  function BeginOperation(p: Plane, t: nat, op: OperationId, kind: OperationKind, allowUnresolved: bool)
    : (Outcome<(OperationStatus, Option<Payload>)>, Plane)
  {
    if !p.fence.Admits(t) then (Err(p.fence.Denial()), p)
    else if op !in p.rows then
      (Ok((Started, None)), p.(rows := p.rows[op := Row(kind, Started, None, [t], map[])]))
    else
      var row := p.rows[op];
      if row.kind != kind then (Err(Rejected), p)
      else if row.status == Completed then (Ok((Completed, row.payload)), p)
      else if row.status.Unresolved() && !allowUnresolved then (Err(Fault.OperationUncertain), p)
      else
        var attempts := if row.Registered(t) then row.attempts else row.attempts + [t];
        if row.status.Unresolved() then
          (Ok((row.status, row.payload)), p.(rows := p.rows[op := row.(attempts := attempts)]))
        else
          (Ok((Started, None)),
           p.(rows := p.rows[op := row.(status := Started, payload := None, attempts := attempts)]))
  }

  function RecordIntent(p: Plane, t: nat, op: OperationId, intent: Payload): (Outcome<Unit>, Plane) {
    if !p.fence.Admits(t) || op !in p.rows then (Err(p.fence.Denial()), p)
    else if p.rows[op].status != Started then (Err(Rejected), p)
    else (Ok(Unit), p.(rows := p.rows[op := p.rows[op].(status := IntentRecorded, payload := Some(intent))]))
  }

  function MarkUncertain(p: Plane, t: nat, op: OperationId): (Outcome<Unit>, Plane) {
    if !p.fence.Admits(t) || op !in p.rows then (Err(p.fence.Denial()), p)
    else if p.rows[op].status.Unresolved() then
      (Ok(Unit), p.(rows := p.rows[op := p.rows[op].(status := Uncertain)]))
    else (Ok(Unit), p)
  }

  /** `status<>'completed'` is the only condition: it overwrites an intent too. */
  function FailOperation(p: Plane, t: nat, op: OperationId): (Outcome<Unit>, Plane) {
    if !p.fence.Admits(t) || op !in p.rows then (Err(p.fence.Denial()), p)
    else if p.rows[op].status == Completed then (Ok(Unit), p)
    else (Ok(Unit), p.(rows := p.rows[op := p.rows[op].(status := Failed)]))
  }

  /** `complete_operation` of src/run_domain/results.py, inside its caller's transaction. */
  function CompleteOperation(p: Plane, t: nat, op: OperationId, payload: Payload): (Outcome<Unit>, Plane) {
    if !p.fence.Admits(t) || op !in p.rows then (Err(p.fence.Denial()), p)
    else
      var row := p.rows[op];
      if row.status == Completed then
        (if row.payload == Some(payload) then Ok(Unit) else Err(Rejected), p)
      else if !row.Registered(t) then (Err(Rejected), p)
      else if t in row.receipts && row.receipts[t].payload != payload then (Err(Rejected), p)
      else if t in row.receipts && row.receipts[t].disposition != Current then (Err(StaleFencingToken), p)
      else
        (Ok(Unit),
         p.(rows := p.rows[op := row.(status := Completed, payload := Some(payload),
                                      receipts := row.receipts[t := Receipt(payload, Current)])]))
  }

  predicate Logged(log: seq<Event>, op: OperationId) {
    exists i :: 0 <= i < |log| && log[i].op == op
  }

  /** Position of an operation's first event. */
  function SequenceOf(log: seq<Event>, op: OperationId): (n: nat)
    requires Logged(log, op)
    ensures 1 <= n <= |log| && log[n - 1].op == op
    ensures forall i :: 0 <= i < n - 1 ==> log[i].op != op
    decreases |log|
  {
    if Logged(log[..|log| - 1], op) then SequenceOf(log[..|log| - 1], op) else |log|
  }

  /** `complete_operation_with_event`: compare-and-swap on the version, then append and complete. */
  function CompleteWithEvent(p: Plane, t: nat, op: OperationId, expected: nat, answer: Answer): (Outcome<nat>, Plane) {
    if !p.fence.Admits(t) || op !in p.rows then (Err(p.fence.Denial()), p)
    else if |p.log| != expected then
      (if Logged(p.log, op) then Ok(SequenceOf(p.log, op)) else Err(TranscriptVersionConflict), p)
    else if Logged(p.log, op) then (Err(Rejected), p)   // unique (transcript_id, operation_id)
    else
      var (completed, p') := CompleteOperation(p, t, op, Result(answer, expected + 1));
      if completed.Err? then (Err(completed.error), p)
      else (Ok(expected + 1), p'.(log := p.log + [Event(op, answer)]))
  }

  /** Where a result stands when its attempt reports it: the account and Work first, then run and execution, then the lease. */
  function DispositionOf(f: Fence, t: nat): Disposition {
    if f.bar.Some? then (if f.bar.value.Superseded? then Stale else CancelledReceipt)
    else match f.standing
      case Revoked => CancelledReceipt
      case Open => if f.live && f.token == t then Current else Stale
      case _ => Stale
  }

  /** `ResultReceiptService.receive`: a late result, kept only when nothing can replace it. */
  function Receive(p: Plane, t: nat, op: OperationId, payload: Payload): (Outcome<Disposition>, Plane) {
    if op !in p.rows || !p.rows[op].Registered(t) then (Err(Rejected), p)
    else
      var row := p.rows[op];
      if t in row.receipts then
        (if row.receipts[t].payload == payload then Ok(row.receipts[t].disposition) else Err(Rejected), p)
      else
        var disposition := DispositionOf(p.fence, t);
        var adopt := disposition != Current && p.fence.Closed() && row.Latest(t) && row.status != Completed;
        var receipted := row.(receipts := row.receipts[t := Receipt(payload, disposition)]);
        (Ok(disposition),
         p.(rows := p.rows[op := if adopt then receipted.(status := Completed, payload := Some(payload))
                                 else receipted]))
  }

  // -------------------------------------------------------------- messages

  /** The messages an event contributes to `load_messages`. */
  function MessagesOf(e: Event): seq<string> {
    match e.answer
    case ContextBuilt(messages) => messages
    case PlanMade(_) => []
    case Evaluated(_) => []
    case _ => [e.answer.content]
  }

  function Messages(log: seq<Event>): seq<string> {
    if log == [] then [] else Messages(log[..|log| - 1]) + MessagesOf(log[|log| - 1])
  }

  lemma {:induction false} MessagesAppend(log: seq<Event>, e: Event)
    ensures Messages(log + [e]) == Messages(log) + MessagesOf(e)
  {
    assert (log + [e])[..|log|] == log;
  }

  /** A later event never changes what was loaded: version v shows the first v events only. */
  lemma {:induction false} MessagesExtend(log: seq<Event>, more: seq<Event>)
    ensures Messages(log + more) == Messages(log) + Messages(more)
    decreases |more|
  {
    if more == [] {
      assert log + more == log;
    } else {
      var init, last := more[..|more| - 1], more[|more| - 1];
      assert more == init + [last];
      ConcatAssociates(log, init, [last]);
      MessagesAppend(log + init, last);
      MessagesAppend(init, last);
      MessagesExtend(log, init);
      ConcatAssociates(Messages(log), Messages(init), MessagesOf(last));
    }
  }

  // ------------------------------------------------------------- invariants

  /** Attempt numbers grow with the tokens that took them, up to the current token. */
  ghost predicate Increasing(attempts: seq<nat>, bound: nat) {
    && (forall i, j :: 0 <= i < j < |attempts| ==> attempts[i] < attempts[j])
    && (forall i :: 0 <= i < |attempts| ==> attempts[i] <= bound)
  }

  ghost predicate AttemptsOrdered(p: Plane) {
    forall op <- p.rows :: p.rows[op].attempts != [] && Increasing(p.rows[op].attempts, p.fence.token)
  }

  /** The log holds at most one event of an operation, of operations that are completed. */
  ghost predicate LogUnique(p: Plane) {
    && (forall i, j :: 0 <= i < j < |p.log| ==> p.log[i].op != p.log[j].op)
    && (forall i :: 0 <= i < |p.log| ==>
          Done(p, p.log[i].op) && p.rows[p.log[i].op].payload == Some(Result(p.log[i].answer, i + 1)))
  }

  datatype Call =
    | CallBegin(kind: OperationKind, allowUnresolved: bool)
    | CallIntent(intent: Payload)
    | CallUncertain
    | CallFail
    | CallComplete(payload: Payload)
    | CallCompleteEvent(expected: nat, answer: Answer)
    | CallReceive(payload: Payload)

  function Apply(p: Plane, t: nat, op: OperationId, call: Call): Plane {
    match call
    case CallBegin(kind, allow) => BeginOperation(p, t, op, kind, allow).1
    case CallIntent(intent) => RecordIntent(p, t, op, intent).1
    case CallUncertain => MarkUncertain(p, t, op).1
    case CallFail => FailOperation(p, t, op).1
    case CallComplete(payload) => CompleteOperation(p, t, op, payload).1
    case CallCompleteEvent(expected, answer) => CompleteWithEvent(p, t, op, expected, answer).1
    case CallReceive(payload) => Receive(p, t, op, payload).1
  }

  lemma {:induction false} IncreasingWithLatest(attempts: seq<nat>, t: nat)
    requires Increasing(attempts, t) && t !in attempts
    ensures Increasing(attempts + [t], t)
  {
  }

  lemma {:induction false} BeginKeepsAttempts(p: Plane, t: nat, op: OperationId, kind: OperationKind, allow: bool)
    requires AttemptsOrdered(p)
    ensures AttemptsOrdered(BeginOperation(p, t, op, kind, allow).1)
  {
    if op in p.rows && p.fence.Admits(t) && !p.rows[op].Registered(t) {
      IncreasingWithLatest(p.rows[op].attempts, t);
    }
  }

  lemma {:induction false} OnlyBeginRegisters(p: Plane, t: nat, op: OperationId, call: Call)
    requires !call.CallBegin?
    ensures var q := Apply(p, t, op, call);
      q.fence == p.fence && q.rows.Keys == p.rows.Keys && forall o <- p.rows :: q.rows[o].attempts == p.rows[o].attempts
  {
  }

  lemma {:induction false} CallsKeepAttempts(p: Plane, t: nat, op: OperationId, call: Call)
    requires AttemptsOrdered(p)
    ensures AttemptsOrdered(Apply(p, t, op, call))
  {
    match call
    case CallBegin(kind, allow) => BeginKeepsAttempts(p, t, op, kind, allow);
    case _ => OnlyBeginRegisters(p, t, op, call);
  }

  lemma {:induction false} CallsKeepCompleted(p: Plane, t: nat, op: OperationId, call: Call, o: OperationId)
    requires Done(p, o)
    ensures var q := Apply(p, t, op, call); Done(q, o) && q.rows[o].payload == p.rows[o].payload
  {
  }

  /** A call appends to the log only as an admitted completion at its expected version. */
  lemma {:induction false} CallsAppendAtMostOnce(p: Plane, t: nat, op: OperationId, call: Call)
    ensures var q := Apply(p, t, op, call);
      || q.log == p.log
      || (&& call.CallCompleteEvent? && p.fence.Admits(t) && call.expected == |p.log| && !Logged(p.log, op)
          && q.log == p.log + [Event(op, call.answer)]
          && Done(q, op) && q.rows[op].payload == Some(Result(call.answer, |q.log|)))
  {
  }

  /** Any call under any token, stale or not, keeps the attempt numbering and the log. */
  lemma {:induction false} CallsKeepTheLog(p: Plane, t: nat, op: OperationId, call: Call)
    requires AttemptsOrdered(p) && LogUnique(p)
    ensures AttemptsOrdered(Apply(p, t, op, call)) && LogUnique(Apply(p, t, op, call))
    ensures p.log <= Apply(p, t, op, call).log
  {
    CallsKeepAttempts(p, t, op, call);
    CallsAppendAtMostOnce(p, t, op, call);
    forall i | 0 <= i < |p.log| {
      CallsKeepCompleted(p, t, op, call, p.log[i].op);
    }
  }

  /** Other transactions may have committed in between: each under its own token and operation. */
  datatype Committed = Committed(token: nat, op: OperationId, call: Call)

  /** The plane after any sequence of transactions and fence steps, from any tokens. */
  function ApplyAll(p: Plane, calls: seq<Committed>, fences: seq<Fence>): Plane
    requires |fences| == |calls|
    decreases |calls|
  {
    if calls == [] then p
    else
      var q := Apply(p, calls[0].token, calls[0].op, calls[0].call);
      ApplyAll(q.(fence := fences[0]), calls[1..], fences[1..])
  }

  lemma {:induction false} LogOnlyGrows(p: Plane, calls: seq<Committed>, fences: seq<Fence>)
    requires |fences| == |calls|
    ensures p.log <= ApplyAll(p, calls, fences).log
    decreases |calls|
  {
    if calls != [] {
      var q := Apply(p, calls[0].token, calls[0].op, calls[0].call);
      CallsAppendAtMostOnce(p, calls[0].token, calls[0].op, calls[0].call);
      LogOnlyGrows(q.(fence := fences[0]), calls[1..], fences[1..]);
    }
  }

  lemma {:induction false} SequenceIsStable(log: seq<Event>, longer: seq<Event>, op: OperationId)
    requires log <= longer && Logged(log, op)
    ensures Logged(longer, op) && SequenceOf(longer, op) == SequenceOf(log, op)
    decreases |longer|
  {
    var n := SequenceOf(log, op);
    assert longer[n - 1].op == op;
    var m := SequenceOf(longer, op);
    assert longer[m - 1].op == op;
  }

  /**
   A completion repeated after anything else, by any attempt the fence still admits and
   with the operation's one expected version, appends nothing and answers the sequence
   the first completion got.
   */
  lemma {:induction false} ReplayReturnsOriginalSequence(p: Plane, t: nat, op: OperationId, expected: nat, answer: Answer,
                                      calls: seq<Committed>, fences: seq<Fence>, t': nat, answer': Answer)
    requires |fences| == |calls|
    requires CompleteWithEvent(p, t, op, expected, answer).0.Ok? && !Logged(p.log, op)
    requires ApplyAll(CompleteWithEvent(p, t, op, expected, answer).1, calls, fences).fence.Admits(t')
    ensures var (first, q) := CompleteWithEvent(p, t, op, expected, answer);
      var later := ApplyAll(q, calls, fences);
      op in later.rows ==> CompleteWithEvent(later, t', op, expected, answer') == (first, later)
  {
    var (first, q) := CompleteWithEvent(p, t, op, expected, answer);
    LogOnlyGrows(q, calls, fences);
    var later := ApplyAll(q, calls, fences);
    assert q.log == p.log + [Event(op, answer)];
    assert q.log[expected].op == op;
    assert SequenceOf(q.log, op) == expected + 1;
    SequenceIsStable(q.log, later.log, op);
  }
}
