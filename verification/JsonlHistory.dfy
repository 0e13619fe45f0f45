/**
 The events of the log reader (scripts/operations/observability-viewer.py): numbered
 batches of records, and what a polling client sees of them.
 */
module JsonlHistory {
  import opened Base

  type Path(==, !new) = nat
  type Record(==, !new) = nat

  datatype Event = Event(record: Record, path: Path, sequence: nat)

  // ------------------------------------------------------------------ polling

  function Latest<T>(s: seq<T>, n: nat): seq<T> { if |s| <= n then s else s[|s| - n..] }

  ghost predicate Consecutive(history: seq<Event>) {
    forall i :: 0 <= i < |history| ==> history[i].sequence == i + 1
  }

  /** What a client with this cursor has not seen. */
  function Unseen(history: seq<Event>, cursor: nat): seq<Event> {
    if cursor <= |history| then history[cursor..] else []
  }

  /** `[event for event in self.events if event.sequence > cursor]` */
  function Newer(events: seq<Event>, cursor: nat): seq<Event> {
    if events == [] then []
    else (if events[0].sequence > cursor then [events[0]] else []) + Newer(events[1..], cursor)
  }

  lemma {:induction false} NewerIsSuffix(history: seq<Event>, from: nat, cursor: nat)
    requires Consecutive(history) && from <= |history|
    ensures Newer(history[from..], cursor) == if from <= cursor then Unseen(history, cursor) else history[from..]
    decreases |history| - from
  {
    if from < |history| {
      NewerIsSuffix(history, from + 1, cursor);
      assert history[from..][0] == history[from] && history[from..][1..] == history[from + 1..];
      if cursor <= from {
        assert [history[from]] + history[from + 1..] == history[from..];
      }
    }
  }

  /**
   A client that polls with the cursor of its last poll gets each event once exactly when
   at most `maxEvents` events arrived in between.
   */
  lemma {:induction false} PollSeesAllExactly(history: seq<Event>, maxEvents: nat, cursor: nat)
    requires Consecutive(history) && cursor <= |history|
    ensures Newer(Latest(history, maxEvents), cursor) == Unseen(history, cursor) <==> |history| - cursor <= maxEvents
  {
    var from := if |history| <= maxEvents then 0 else |history| - maxEvents;
    assert Latest(history, maxEvents) == history[from..];
    NewerIsSuffix(history, from, cursor);
    assert |history[from..]| == |history| - from && |Unseen(history, cursor)| == |history| - cursor;
  }

  // ------------------------------------------------------------------ batches

  /** The events that some records of a path become. */
  function Numbered(path: Path, records: seq<Record>, from: nat): seq<Event> {
    seq(|records|, i requires 0 <= i < |records| => Event(records[i], path, from + i + 1))
  }

  /** The new records of one file. */
  datatype Batch = Batch(path: Path, records: seq<Record>)

  /** The events of the first n batches, numbered on. */
  function Emitted(batches: seq<Batch>, from: nat, n: nat): seq<Event>
    requires n <= |batches|
  {
    if n == 0 then []
    else
      var before := Emitted(batches, from, n - 1);
      before + Numbered(batches[n - 1].path, batches[n - 1].records, from + |before|)
  }

  /** The records a history holds of one path. */
  function RecordsFor(history: seq<Event>, path: Path): seq<Record> {
    if history == [] then []
    else
      var last := history[|history| - 1];
      RecordsFor(history[..|history| - 1], path) + if last.path == path then [last.record] else []
  }

  lemma {:induction false} RecordsForAppend(a: seq<Event>, b: seq<Event>, path: Path)
    ensures RecordsFor(a + b, path) == RecordsFor(a, path) + RecordsFor(b, path)
    decreases |b|
  {
    if b == [] {
      assert a + b == a;
    } else {
      var init := b[..|b| - 1];
      RecordsForAppend(a, init, path);
      assert (a + b)[..|a + b| - 1] == a + init;
      var tail := if b[|b| - 1].path == path then [b[|b| - 1].record] else [];
      ConcatAssociates(RecordsFor(a, path), RecordsFor(init, path), tail);
    }
  }

  lemma {:induction false} NumberedFor(file: Path, records: seq<Record>, from: nat, path: Path)
    ensures RecordsFor(Numbered(file, records, from), path) == if file == path then records else []
    decreases |records|
  {
    if records != [] {
      var init := records[..|records| - 1];
      NumberedFor(file, init, from, path);
      assert Numbered(file, records, from)[..|records| - 1] == Numbered(file, init, from);
      assert records == init + [records[|records| - 1]];
    }
  }

  lemma {:induction false} BatchFor(before: seq<Event>, batch: Batch, from: nat, path: Path)
    ensures RecordsFor(before + Numbered(batch.path, batch.records, from), path)
         == if batch.path == path then RecordsFor(before, path) + batch.records else RecordsFor(before, path)
  {
    RecordsForAppend(before, Numbered(batch.path, batch.records, from), path);
    NumberedFor(batch.path, batch.records, from, path);
    assert RecordsFor(before, path) + [] == RecordsFor(before, path);
  }

  lemma {:induction false} OneBatchFor(batches: seq<Batch>, from: nat, path: Path, n: nat)
    requires 0 < n <= |batches|
    ensures var before := RecordsFor(Emitted(batches, from, n - 1), path);
      RecordsFor(Emitted(batches, from, n), path)
      == if IsOf(batches[n - 1], path) then before + batches[n - 1].records else before
  {
    var before := Emitted(batches, from, n - 1);
    BatchFor(before, batches[n - 1], from + |before|, path);
  }

  /** The batch of a path is the one at `at`, if it is there. */
  predicate OnlyAt(batches: seq<Batch>, path: Path, at: nat) {
    forall j :: 0 <= j < |batches| ==> IsOf(batches[j], path) == (j == at)
  }

  predicate IsOf(batch: Batch, path: Path) { batch.path == path }

  /** Of one path, the first n batches add its own, once they are past it. */
  lemma {:induction false} EmittedFor(batches: seq<Batch>, from: nat, path: Path, at: nat, n: nat)
    requires OnlyAt(batches, path, at) && n <= |batches|
    ensures RecordsFor(Emitted(batches, from, n), path) == if at < n then batches[at].records else []
  {
    if n > 0 {
      EmittedFor(batches, from, path, at, n - 1);
      OneBatchFor(batches, from, path, n);
      assert IsOf(batches[n - 1], path) == (n - 1 == at);
    }
  }

  predicate NumberedFrom(added: seq<Event>, from: nat) {
    forall i :: 0 <= i < |added| ==> added[i].sequence == from + i + 1
  }

  lemma {:induction false} NumberedOn(a: seq<Event>, b: seq<Event>, from: nat)
    requires NumberedFrom(a, from) && NumberedFrom(b, from + |a|)
    ensures NumberedFrom(a + b, from)
  {
    forall i | 0 <= i < |a + b|
      ensures (a + b)[i].sequence == from + i + 1
    {
      assert (a + b)[i] == if i < |a| then a[i] else b[i - |a|];
    }
  }

  lemma {:induction false} EmittedIsNumbered(batches: seq<Batch>, from: nat, n: nat)
    requires n <= |batches|
    ensures NumberedFrom(Emitted(batches, from, n), from)
  {
    if n > 0 {
      EmittedIsNumbered(batches, from, n - 1);
      var before := Emitted(batches, from, n - 1);
      NumberedOn(before, Numbered(batches[n - 1].path, batches[n - 1].records, from + |before|), from);
    }
  }

  lemma {:induction false} EmittedOne(batches: seq<Batch>, from: nat, n: nat, added: seq<Event>, more: seq<Event>)
    requires n < |batches| && added == Emitted(batches, from, n)
    requires more == Numbered(batches[n].path, batches[n].records, from + |added|)
    ensures added + more == Emitted(batches, from, n + 1)
  {
  }
}
