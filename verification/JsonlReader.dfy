/** The reader of scripts/operations/observability-viewer.py, updated in place. */
module JsonlReader {
  import opened Base
  import opened JsonlHistory
  import opened JsonlTail
  import opened JsonlScans

  class IncrementalJsonlReader {
    const maxEvents: nat
    const decode: Decoder
    var events: seq<Event>                  // deque(maxlen=max_events)
    var states: States
    var sequence: nat
    var parseErrors: nat
    ghost var history: seq<Event>           // every event ever emitted
    ghost var sweeps: seq<Sweep>            // every scan so far

    ghost predicate Valid()
      reads this
    {
      && Consecutive(history) && sequence == |history|
      && events == Latest(history, maxEvents)
    }

    /** Between scans, states and history are those of the scans so far. */
    ghost predicate Faithful()
      reads this
    {
      (forall s <- sweeps :: s.Ordered()) && (states, history) == AllScans(sweeps, decode)
    }

    constructor (maxEvents: nat, decode: Decoder)
      ensures Valid() && Faithful() && sweeps == [] && history == [] && states == map[] && this.maxEvents == maxEvents && this.decode == decode
    {
      this.maxEvents, this.decode := maxEvents, decode;
      events, states, sequence, parseErrors, history, sweeps := [], map[], 0, 0, [], [];
    }

    method Append(record: Record, path: Path) returns (event: Event)
      requires Valid()
      modifies this`events, this`sequence, this`history
      ensures Valid() && event == Event(record, path, old(sequence) + 1) && history == old(history) + [event]
    {
      sequence := sequence + 1;
      event := Event(record, path, sequence);
      events := events + [event];
      if |events| > maxEvents {
        events := events[1..];
      }
      history := history + [event];
    }

    method ReadLines(lines: seq<Line>, path: Path) returns (added: seq<Event>)
      requires Valid()
      modifies this`events, this`sequence, this`history, this`parseErrors
      ensures Valid() && added == Numbered(path, Records(lines, decode), old(sequence))
      ensures history == old(history) + added
    {
      added := [];
      for i := 0 to |lines|
        invariant Valid() && added == Numbered(path, Records(lines[..i], decode), old(sequence))
        invariant history == old(history) + added
      {
        var encoded := lines[i];
        assert lines[..i + 1][..i] == lines[..i];
        if !Blank(encoded) {
          match decode(encoded) {
            case None => parseErrors := parseErrors + 1;
            case Some(record) =>
              var event := Append(record, path);
              added := added + [event];
          }
        }
      }
      assert lines[..|lines|] == lines;
    }

    /** One file of a scan: seek to the offset, read, split, and keep what follows the last newline. */
    method ScanFile(path: Path, file: File) returns (added: seq<Event>)
      requires Valid()
      modifies this`events, this`sequence, this`history, this`parseErrors, this`states
      ensures Valid() && history == old(history) + added
      ensures states == Next(old(states), path, file)
      ensures added == Numbered(path, RecordsRead(old(states), path, file, decode), old(sequence))
    {
      var state, lines := ReadChunk(path, file);
      states := states[path := state];
      added := ReadLines(lines, path);
    }

    method ReadChunk(path: Path, file: File) returns (state: TailState, lines: seq<Line>)
      ensures (state, lines) == Advance(StateAt(states, path), file)
    {
      if path !in states || states[path].inode != file.inode || |file.bytes| < states[path].offset {
        state := TailState(file.inode, 0, []);
      } else {
        state := states[path];
      }
      lines := [];
      var chunk := file.bytes[state.offset..];
      if chunk != [] {
        var data := state.partial + chunk;
        lines := Complete(data);
        state := TailState(state.inode, |file.bytes|, Partial(data));
      }
    }

    /** One turn of the loop of `scan`: the i-th file; `batches` is what the files have to add. */
    method ScanNext(sweep: Sweep, i: nat, before: seq<Event>, ghost earlier: States, ghost batches: seq<Batch>, ghost start: seq<Event>)
      returns (added: seq<Event>)
      requires Valid() && sweep.Ordered() && i < |sweep.sorted| && states == Scanned(Kept(earlier, sweep.present), sweep, i)
      requires |batches| == |sweep.sorted| && AreBatches(batches, earlier, sweep, decode, |batches|)
      requires before == Emitted(batches, |start|, i) && history == start + before
      modifies this`events, this`sequence, this`history, this`parseErrors, this`states
      ensures Valid() && states == Scanned(Kept(earlier, sweep.present), sweep, i + 1)
      ensures added == Emitted(batches, |start|, i + 1) && history == start + added
    {
      NotYetScanned(earlier, sweep, i);
      BatchAt(batches, earlier, states, sweep, decode, i, |batches|);
      var more := ScanFile(sweep.sorted[i], sweep.present[sweep.sorted[i]]);
      EmittedOne(batches, |start|, i, before, more);
      ConcatAssociates(start, before, more);
      added := before + more;
    }

    /** The loop over the files present, in path order. */
    method ScanFiles(sweep: Sweep, ghost earlier: States, ghost batches: seq<Batch>) returns (added: seq<Event>)
      requires Valid() && sweep.Ordered() && states == Kept(earlier, sweep.present)
      requires |batches| == |sweep.sorted| && AreBatches(batches, earlier, sweep, decode, |batches|)
      modifies this`events, this`sequence, this`history, this`parseErrors, this`states
      ensures Valid() && history == old(history) + added
      ensures states == Scanned(Kept(earlier, sweep.present), sweep, |sweep.sorted|)
      ensures added == Emitted(batches, |old(history)|, |batches|)
    {
      added := [];
      for i := 0 to |sweep.sorted|
        invariant Valid() && history == old(history) + added
        invariant states == Scanned(Kept(earlier, sweep.present), sweep, i)
        invariant added == Emitted(batches, |old(history)|, i)
      {
        added := ScanNext(sweep, i, added, earlier, batches, old(history));
      }
    }

    /** `scan`: states of missing files go, then every file present is read in path order. */
    method Scan(present: map<Path, File>, sorted: seq<Path>) returns (added: seq<Event>)
      requires Valid() && Faithful() && Sweep(present, sorted).Ordered()
      modifies this
      ensures Valid() && Faithful() && sweeps == old(sweeps) + [Sweep(present, sorted)]
      ensures history == old(history) + added
      ensures added == Added(old(states), Sweep(present, sorted), decode, |old(history)|)
      ensures states == Swept(old(states), present)
    {
      ghost var earlier := states;
      states := Kept(states, present);
      BatchesAre(earlier, Sweep(present, sorted), decode, |sorted|);
      added := ScanFiles(Sweep(present, sorted), earlier, Batches(earlier, Sweep(present, sorted), decode));
      ScannedIsSwept(earlier, Sweep(present, sorted));
      sweeps := sweeps + [Sweep(present, sorted)];
      assert sweeps[..|sweeps| - 1] == old(sweeps);
    }

    /** `after`: a scan, then the events newer than the cursor among those the deque still holds. */
    method After(cursor: nat, present: map<Path, File>, sorted: seq<Path>) returns (next: nat, newer: seq<Event>)
      requires Valid() && Faithful() && Sweep(present, sorted).Ordered()
      modifies this
      ensures Valid() && Faithful() && sweeps == old(sweeps) + [Sweep(present, sorted)]
      ensures next == |history| && old(history) <= history
      ensures newer == Newer(Latest(history, maxEvents), cursor)
      ensures cursor <= |history| ==> (newer == Unseen(history, cursor) <==> |history| - cursor <= maxEvents)
    {
      var _ := Scan(present, sorted);
      if cursor <= sequence {
        PollSeesAllExactly(history, maxEvents, cursor);
      }
      next := sequence;
      newer := Newer(events, cursor);
    }
  }
}
