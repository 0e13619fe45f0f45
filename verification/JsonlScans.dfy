/** Scans of a whole directory, one file after the other, and what they leave of each path. */
module JsonlScans {
  import opened Base
  import opened JsonlHistory
  import opened JsonlTail

  type States = map<Path, TailState>

  function StateAt(states: States, path: Path): Option<TailState> {
    if path in states then Some(states[path]) else None
  }

  function Kept(states: States, present: map<Path, File>): States {
    map p | p in states && p in present :: states[p]
  }

  // ------------------------------------------------------------ whole scans

  /** One scan of the directory: the files found, and their paths as `sorted` lists them. */
  datatype Sweep = Sweep(present: map<Path, File>, sorted: seq<Path>) {
    ghost predicate Ordered() {
      && (forall i, j :: 0 <= i < j < |sorted| ==> sorted[i] < sorted[j])
      && (forall i :: 0 <= i < |sorted| ==> sorted[i] in present)
      && (forall p <- present :: p in sorted)
    }

    /** `path` is the one at `at`, if it was found. */
    predicate Holds(path: Path, at: nat) {
      forall j :: 0 <= j < |sorted| ==> Same(sorted[j], path) == (j == at)
    }
  }

  predicate Same(a: Path, b: Path) { a == b }

  lemma {:induction false} Position(sweep: Sweep, path: Path) returns (at: nat)
    requires sweep.Ordered()
    ensures sweep.Holds(path, at) && at <= |sweep.sorted| && (at < |sweep.sorted| <==> path in sweep.present)
  {
    at := if path in sweep.sorted then Index(sweep.sorted, path) else |sweep.sorted|;
  }

  function Index(sorted: seq<Path>, path: Path): (i: nat)
    requires path in sorted
    ensures i < |sorted| && sorted[i] == path
  {
    if sorted[0] == path then 0 else 1 + Index(sorted[1..], path)
  }

  /** The state after one file. */
  function Next(states: States, path: Path, file: File): States { states[path := Advance(StateAt(states, path), file).0] }

  /** The states after reading the first n files one by one. */
  function Scanned(states: States, sweep: Sweep, n: nat): States
    requires n <= |sweep.sorted| && forall i :: 0 <= i < n ==> sweep.sorted[i] in sweep.present
  {
    if n == 0 then states else Next(Scanned(states, sweep, n - 1), sweep.sorted[n - 1], sweep.present[sweep.sorted[n - 1]])
  }

  /** Each path of a scan advances once, from its own earlier state, whatever the others hold. */
  lemma {:induction false} ScansAreIndependent(states: States, sweep: Sweep, path: Path, at: nat, n: nat)
    requires sweep.Ordered() && sweep.Holds(path, at) && n <= |sweep.sorted|
    ensures StateAt(Scanned(states, sweep, n), path)
         == if at < n && path in sweep.present then Some(Advance(StateAt(states, path), sweep.present[path]).0)
            else StateAt(states, path)
  {
    if n > 0 {
      ScansAreIndependent(states, sweep, path, at, n - 1);
      assert Same(sweep.sorted[n - 1], path) == (n - 1 == at);
    }
  }

  /** The records that reading one file adds. */
  function RecordsRead(states: States, path: Path, file: File, decode: Decoder): seq<Record> {
    Records(Advance(StateAt(states, path), file).1, decode)
  }

  /** The records that a scan adds for one path. */
  function NewRecords(states: States, present: map<Path, File>, path: Path, decode: Decoder): seq<Record> {
    if path in present then RecordsRead(states, path, present[path], decode) else []
  }

  /** What the files of a scan have to add, in path order. */
  function Batches(states: States, sweep: Sweep, decode: Decoder): seq<Batch> {
    seq(|sweep.sorted|, i requires 0 <= i < |sweep.sorted| =>
      Batch(sweep.sorted[i], NewRecords(states, sweep.present, sweep.sorted[i], decode)))
  }

  /** What a scan adds to a history of this length. */
  function Added(states: States, sweep: Sweep, decode: Decoder, from: nat): seq<Event> {
    Emitted(Batches(states, sweep, decode), from, |sweep.sorted|)
  }

  /** The states a scan leaves: every file present read to its end, the others forgotten. */
  function Swept(states: States, present: map<Path, File>): States {
    map p | p in present :: Advance(StateAt(states, p), present[p]).0
  }

  /** States and history after any scans. */
  function AllScans(sweeps: seq<Sweep>, decode: Decoder): (States, seq<Event>) {
    if sweeps == [] then (map[], [])
    else
      var (states, history) := AllScans(sweeps[..|sweeps| - 1], decode);
      var last := sweeps[|sweeps| - 1];
      (Swept(states, last.present), history + Added(states, last, decode, |history|))
  }

  /** What the scans found at one path. */
  function SightsOf(sweeps: seq<Sweep>, path: Path): seq<Sight> {
    if sweeps == [] then []
    else
      var last := sweeps[|sweeps| - 1];
      SightsOf(sweeps[..|sweeps| - 1], path) + [if path in last.present then Some(last.present[path]) else None]
  }

  /**
   The reader follows every path: after any scans of a directory, whatever else was in it,
   the history holds of each path exactly the records that scanning that path alone emits,
   in order, and numbers its events without gaps.
   */
  lemma {:induction false} EveryPathIsFollowed(sweeps: seq<Sweep>, decode: Decoder, path: Path)
    requires forall s <- sweeps :: s.Ordered()
    ensures var (states, history) := AllScans(sweeps, decode);
      && (StateAt(states, path), RecordsFor(history, path)) == Follow(SightsOf(sweeps, path), decode)
      && Consecutive(history)
    decreases |sweeps|
  {
    if sweeps != [] {
      var before, last := sweeps[..|sweeps| - 1], sweeps[|sweeps| - 1];
      EveryPathIsFollowed(before, decode, path);
      var sight := if path in last.present then Some(last.present[path]) else None;
      FollowOne(SightsOf(before, path), sight, AllScans(before, decode).0, last, decode, path);
      OneSweep(AllScans(before, decode).0, AllScans(before, decode).1, last, decode, path);
      assert SightsOf(sweeps, path) == SightsOf(before, path) + [sight];
    }
  }

  lemma {:induction false} BatchOf(states: States, sweep: Sweep, decode: Decoder, path: Path, at: nat)
    requires sweep.Holds(path, at) && at <= |sweep.sorted|
    ensures OnlyAt(Batches(states, sweep, decode), path, at)
    ensures at < |sweep.sorted| ==>
      Batches(states, sweep, decode)[at].records == NewRecords(states, sweep.present, path, decode)
  {
    assert at < |sweep.sorted| ==> Same(sweep.sorted[at], path);
    forall j | 0 <= j < |sweep.sorted|
      ensures IsOf(Batches(states, sweep, decode)[j], path) == (j == at)
    {
      assert Same(sweep.sorted[j], path) == (j == at);
    }
  }

  lemma {:induction false} OneSweep(states: States, history: seq<Event>, last: Sweep, decode: Decoder, path: Path)
    requires last.Ordered() && Consecutive(history)
    ensures var added := Added(states, last, decode, |history|);
      && Consecutive(history + added)
      && RecordsFor(history + added, path) == RecordsFor(history, path) + NewRecords(states, last.present, path, decode)
  {
    var added := Added(states, last, decode, |history|);
    var at := Position(last, path);
    BatchOf(states, last, decode, path, at);
    EmittedFor(Batches(states, last, decode), |history|, path, at, |last.sorted|);
    EmittedIsNumbered(Batches(states, last, decode), |history|, |last.sorted|);
    NumberedOn(history, added, 0);
    RecordsForAppend(history, added, path);
  }

  /** One more scan, seen from one path. */
  lemma {:induction false} FollowOne(sights: seq<Sight>, sight: Sight, states: States, last: Sweep, decode: Decoder, path: Path)
    requires Follow(sights, decode).0 == StateAt(states, path)
    requires sight == if path in last.present then Some(last.present[path]) else None
    ensures Follow(sights + [sight], decode)
         == (StateAt(Swept(states, last.present), path),
             Follow(sights, decode).1 + NewRecords(states, last.present, path, decode))
  {
    assert (sights + [sight])[..|sights|] == sights;
    if sight.None? {
      assert Follow(sights, decode).1 + [] == Follow(sights, decode).1;
    }
  }

  /** So the history holds of each path whole reads of its generations as the reader takes them. */
  lemma {:induction false} HistoryIsWholeReads(sweeps: seq<Sweep>, decode: Decoder, path: Path)
    requires forall s <- sweeps :: s.Ordered()
    ensures var (ended, current) := Generations(Seen(SightsOf(sweeps, path)), decode);
      RecordsFor(AllScans(sweeps, decode).1, path) == ended + WholeRead(current, decode)
  {
    EveryPathIsFollowed(sweeps, decode, path);
    TailRefinesWholeRead(SightsOf(sweeps, path), decode);
  }

  /** The loop over the files comes to each path with the state it had before the scan. */
  lemma {:induction false} NotYetScanned(states: States, sweep: Sweep, i: nat)
    requires sweep.Ordered() && i < |sweep.sorted|
    ensures StateAt(Scanned(Kept(states, sweep.present), sweep, i), sweep.sorted[i]) == StateAt(states, sweep.sorted[i])
  {
    var path := sweep.sorted[i];
    var at := Position(sweep, path);
    assert Same(sweep.sorted[i], path) == (i == at);
    ScansAreIndependent(Kept(states, sweep.present), sweep, path, at, i);
  }

  /** The first n of `batches` are what the files of a scan have to add. */
  predicate AreBatches(batches: seq<Batch>, states: States, sweep: Sweep, decode: Decoder, n: nat)
    requires n <= |sweep.sorted| && |batches| == |sweep.sorted|
  {
    n == 0
    || (AreBatches(batches, states, sweep, decode, n - 1)
        && batches[n - 1] == Batch(sweep.sorted[n - 1], NewRecords(states, sweep.present, sweep.sorted[n - 1], decode)))
  }

  lemma {:induction false} BatchesAre(states: States, sweep: Sweep, decode: Decoder, n: nat)
    requires n <= |sweep.sorted|
    ensures AreBatches(Batches(states, sweep, decode), states, sweep, decode, n)
  {
    if n > 0 {
      BatchesAre(states, sweep, decode, n - 1);
    }
  }

  lemma {:induction false} BatchAt(batches: seq<Batch>, states: States, now: States, sweep: Sweep, decode: Decoder, i: nat, n: nat)
    requires i < n <= |sweep.sorted| && |batches| == |sweep.sorted| && AreBatches(batches, states, sweep, decode, n)
    requires sweep.Ordered() && StateAt(now, sweep.sorted[i]) == StateAt(states, sweep.sorted[i])
    ensures batches[i] == Batch(sweep.sorted[i], RecordsRead(now, sweep.sorted[i], sweep.present[sweep.sorted[i]], decode))
  {
    if i < n - 1 {
      BatchAt(batches, states, now, sweep, decode, i, n - 1);
    }
  }

  lemma {:induction false} ScannedIsSwept(states: States, sweep: Sweep)
    requires sweep.Ordered()
    ensures Scanned(Kept(states, sweep.present), sweep, |sweep.sorted|) == Swept(states, sweep.present)
  {
    forall p: Path
      ensures StateAt(Scanned(Kept(states, sweep.present), sweep, |sweep.sorted|), p) == StateAt(Swept(states, sweep.present), p)
    {
      var at := Position(sweep, p);
      ScansAreIndependent(Kept(states, sweep.present), sweep, p, at, |sweep.sorted|);
    }
    SameStates(Scanned(Kept(states, sweep.present), sweep, |sweep.sorted|), Swept(states, sweep.present));
  }

  lemma {:induction false} SameStates(a: States, b: States)
    requires forall p: Path :: StateAt(a, p) == StateAt(b, p)
    ensures a == b
  {
    assert forall p: Path :: (p in a <==> StateAt(a, p).Some?) && (p in b <==> StateAt(b, p).Some?);
  }
}
