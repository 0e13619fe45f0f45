/** The events a turn loop records, as a grammar, and the proof that it records nothing else. */
module TurnTranscript {
  import opened Base
  import opened Operations
  import opened DurableWorkflow
  import opened TurnLoop

  /** Tool results in the order of the calls, as far as they go. */
  predicate InOrder(n: Names, turn: nat, calls: seq<string>, log: seq<Event>) {
    forall i :: 0 <= i < |log| && i < |calls| ==> log[i].op == ToolOp(n, turn, calls[i]) && log[i].answer.ToolObserved?
  }

  predicate Receipt(decision: OperationId, e: Event) {
    e.op == Respond(decision) && e.answer.Responded?
  }

  /** The events of turn `turn` and later: a decision, then its results, then the next turn. */
  predicate Turns(n: Names, max: nat, turn: nat, log: seq<Event>)
    decreases |log|
  {
    log == []
    || (&& turn <= max + 1 && log[0].op == ModelOp(n, max, turn)
        && var rest := log[1..];
           match log[0].answer
           case FinalAnswer(_) => rest == []
           case ToolCalls(_, calls) =>
             if turn > max then rest == []
             else InOrder(n, turn, calls, rest) && (|rest| > |calls| ==> Turns(n, max, turn + 1, rest[|calls|..]))
           case RespondCall(_, _) =>
             rest == []
             || (&& Receipt(log[0].op, rest[0])
                 && if rest[0].answer.accepted || turn > max then rest[1..] == []
                    else Turns(n, max, turn + 1, rest[1..]))
           case _ => false)
  }

  // ------------------------------------------------ growing by one event

  lemma {:induction false} GrowCalls(n: Names, max: nat, turn: nat, log: seq<Event>, e: Event)
    requires Turns(n, max, turn, log) && log != [] && log[0].answer.ToolCalls? && turn <= max
    requires |log[1..]| < |log[0].answer.calls|
    requires e.op == ToolOp(n, turn, log[0].answer.calls[|log[1..]|]) && e.answer.ToolObserved?
    ensures Turns(n, max, turn, log + [e])
  {
    assert (log + [e])[1..] == log[1..] + [e];
  }

  lemma {:induction false} GrowAfterCalls(n: Names, max: nat, turn: nat, log: seq<Event>, e: Event)
    requires Turns(n, max, turn, log) && log != [] && log[0].answer.ToolCalls? && turn <= max
    requires |log[1..]| >= |log[0].answer.calls|
    requires Turns(n, max, turn + 1, log[1..][|log[0].answer.calls|..] + [e])
    ensures Turns(n, max, turn, log + [e])
  {
    var k := |log[0].answer.calls|;
    assert (log + [e])[1..] == log[1..] + [e];
    assert (log[1..] + [e])[k..] == log[1..][k..] + [e];
  }

  lemma {:induction false} GrowAtReceipt(n: Names, max: nat, turn: nat, log: seq<Event>, e: Event)
    requires Turns(n, max, turn, log) && |log| == 1 && log[0].answer.RespondCall? && Receipt(log[0].op, e)
    ensures Turns(n, max, turn, log + [e])
  {
    assert (log + [e])[1..] == [e] && [e][1..] == [];
  }

  lemma {:induction false} GrowAfterReceipt(n: Names, max: nat, turn: nat, log: seq<Event>, e: Event)
    requires Turns(n, max, turn, log) && |log| > 1 && log[0].answer.RespondCall? && !log[1].answer.accepted && turn <= max
    requires Turns(n, max, turn + 1, log[2..] + [e])
    ensures Turns(n, max, turn, log + [e])
  {
    assert (log + [e])[1..] == log[1..] + [e];
    assert (log[1..] + [e])[1..] == log[2..] + [e];
  }

  // ------------------------------------------------ the loop and its record

  ghost predicate Matches(log: seq<Event>, h: seq<Entry>) {
    |log| == |h| && forall i :: 0 <= i < |h| ==> log[i] == Event(h[i].op, h[i].answer)
  }

  /** Where the loop is part-way through, and after, the calls of one turn. */
  lemma {:induction false} ThroughCalls(n: Names, max: nat, l: Loop, h: seq<Entry>)
    requires Suspended(max, l) && l.phase.Acting? && l.phase.next == 0 && |h| <= |l.phase.calls|
    ensures var m := After(n, max, l, h);
      m.phase == if |h| < |l.phase.calls| then Acting(l.phase.turn, l.phase.calls, |h|) else Deciding(l.phase.turn + 1)
    decreases |h|
  {
    if h != [] {
      ThroughCalls(n, max, l, h[..|h| - 1]);
    }
  }

  lemma {:induction false} PastCalls(n: Names, max: nat, l: Loop, turn: nat, calls: seq<string>, h: seq<Entry>) returns (l': Loop)
    requires Suspended(max, l) && |calls| <= |h| && turn <= max
    requires l.phase == if calls == [] then Deciding(turn + 1) else Acting(turn, calls, 0)
    ensures Suspended(max, l') && l'.phase == Deciding(turn + 1)
    ensures After(n, max, l, h) == After(n, max, l', h[|calls|..])
  {
    var k := |calls|;
    l' := After(n, max, l, h[..k]);
    if calls != [] {
      ThroughCalls(n, max, l, h[..k]);
    }
    assert h == h[..k] + h[k..];
    AfterSplit(n, max, l, h[..k], h[k..]);
  }

  /** A turn that responded directly goes on exactly if its receipt was refused. */
  lemma {:induction false} PastReceipt(n: Names, max: nat, l: Loop, turn: nat, h: seq<Entry>) returns (l': Loop)
    requires Suspended(max, l) && h != [] && l.phase == Pairing(turn)
    ensures Suspended(max, l') && After(n, max, l, h) == After(n, max, l', h[1..])
    ensures l'.phase == Deciding(turn + 1) || Awaits(n, max, l').None?
  {
    AfterFirst(n, max, l, h);
    l' := Takes(n, max, l, h[0]);
  }

  lemma {:induction false} StaysStopped(n: Names, max: nat, l: Loop, h: seq<Entry>)
    requires Suspended(max, l) && Awaits(n, max, l).None?
    ensures After(n, max, l, h) == l
    decreases |h|
  {
    if h != [] {
      StaysStopped(n, max, l, h[..|h| - 1]);
    }
  }

  lemma {:induction false} AfterFirst(n: Names, max: nat, l: Loop, h: seq<Entry>)
    requires Suspended(max, l) && h != []
    ensures After(n, max, l, h) == After(n, max, Takes(n, max, l, h[0]), h[1..])
  {
    assert h == [h[0]] + h[1..];
    AfterSplit(n, max, l, [h[0]], h[1..]);
    AfterOne(n, max, l, [], h[0]);
    assert [] + [h[0]] == [h[0]];
  }

  ghost predicate Awaited(n: Names, max: nat, m: Loop, e: Entry) {
    Suspended(max, m) && Awaits(n, max, m).Some? && e.op == Awaits(n, max, m).value.op && Answers(e.op, e.answer)
  }

  /** The awaited result extends the record of the turns. */
  lemma {:induction false} TurnsGrow(n: Names, max: nat, l: Loop, log: seq<Event>, h: seq<Entry>, e: Entry)
    requires Suspended(max, l) && l.phase.Deciding? && Matches(log, h) && Turns(n, max, l.phase.turn, log)
    requires Awaited(n, max, After(n, max, l, h), e)
    ensures Turns(n, max, l.phase.turn, log + [Event(e.op, e.answer)])
    decreases |log|, 1
  {
    var event := Event(e.op, e.answer);
    if log == [] {
      assert log + [event] == [event] && [event][1..] == [];
    } else {
      var l1 := Takes(n, max, l, h[0]);
      AfterFirst(n, max, l, h);
      if Awaits(n, max, l1).None? {
        StaysStopped(n, max, l1, h[1..]);
      } else if log[0].answer.ToolCalls? {
        GrowInCalls(n, max, l, l1, log, h, e);
      } else {
        GrowInReceipt(n, max, l, l1, log, h, e);
      }
    }
  }

  lemma {:induction false} GrowInCalls(n: Names, max: nat, l: Loop, l1: Loop, log: seq<Event>, h: seq<Entry>, e: Entry)
    requires Suspended(max, l) && l.phase.Deciding? && Matches(log, h) && Turns(n, max, l.phase.turn, log)
    requires log != [] && log[0].answer.ToolCalls? && l1 == Takes(n, max, l, h[0]) && Awaits(n, max, l1).Some?
    requires Awaited(n, max, After(n, max, l1, h[1..]), e)
    ensures Turns(n, max, l.phase.turn, log + [Event(e.op, e.answer)])
    decreases |log|, 0
  {
    var (event, turn, calls, hs) := (Event(e.op, e.answer), l.phase.turn, log[0].answer.calls, h[1..]);
    if |hs| < |calls| {
      ThroughCalls(n, max, l1, hs);
      GrowCalls(n, max, turn, log, event);
    } else {
      var l2 := PastCalls(n, max, l1, turn, calls, hs);
      TurnsGrow(n, max, l2, log[1..][|calls|..], hs[|calls|..], e);
      GrowAfterCalls(n, max, turn, log, event);
    }
  }

  lemma {:induction false} GrowInReceipt(n: Names, max: nat, l: Loop, l1: Loop, log: seq<Event>, h: seq<Entry>, e: Entry)
    requires Suspended(max, l) && l.phase.Deciding? && Matches(log, h) && Turns(n, max, l.phase.turn, log)
    requires log != [] && !log[0].answer.ToolCalls? && l1 == Takes(n, max, l, h[0]) && Awaits(n, max, l1).Some?
    requires Awaited(n, max, After(n, max, l1, h[1..]), e)
    ensures Turns(n, max, l.phase.turn, log + [Event(e.op, e.answer)])
    decreases |log|, 0
  {
    var event, turn := Event(e.op, e.answer), l.phase.turn;
    assert log[0].answer.RespondCall? && l1.phase == Pairing(turn);
    if |log| == 1 {
      assert h[1..] == [];
      GrowAtReceipt(n, max, turn, log, event);
    } else {
      var l2 := PastReceipt(n, max, l1, turn, h[1..]);
      assert h[1..][1..] == h[2..];
      if l2.phase.Deciding? {
        assert log[1].answer == h[1].answer;
        TurnsGrow(n, max, l2, log[2..], h[2..], e);
        GrowAfterReceipt(n, max, turn, log, event);
      } else {
        StaysStopped(n, max, l2, h[2..]);
      }
    }
  }
}
