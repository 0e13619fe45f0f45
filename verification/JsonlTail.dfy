/**
 The incremental JSONL tailer of scripts/operations/observability-viewer.py against a
 read of the whole file.
 */
module JsonlTail {
  import opened Base
  import opened JsonlHistory

  newtype Byte = x: int | 0 <= x < 256
  type Line = seq<Byte>

  const NEWLINE: Byte := 10

  datatype File = File(inode: nat, bytes: seq<Byte>)
  datatype TailState = TailState(inode: nat, offset: nat, partial: Line)

  /** Decodes one line to a JSON object, or fails. */
  type Decoder = Line -> Option<Record>

  // ------------------------------------------------------------- whole read

  /** The lines of a file that a newline ends. */
  function Complete(data: seq<Byte>): seq<Line> {
    if data == [] then []
    else
      var init := data[..|data| - 1];
      if data[|data| - 1] == NEWLINE then Complete(init) + [Partial(init)] else Complete(init)
  }

  /** The bytes after its last newline. */
  function Partial(data: seq<Byte>): Line {
    if data == [] || data[|data| - 1] == NEWLINE then []
    else Partial(data[..|data| - 1]) + [data[|data| - 1]]
  }

  predicate Blank(line: Line) {
    forall b <- line :: b == 32 || 9 <= b <= 13
  }

  /** The valid, non-blank lines, in order. */
  function Records(lines: seq<Line>, decode: Decoder): seq<Record> {
    if lines == [] then []
    else Records(lines[..|lines| - 1], decode) + RecordsOf(lines[|lines| - 1], decode)
  }

  function RecordsOf(line: Line, decode: Decoder): seq<Record> {
    if Blank(line) then [] else match decode(line) case Some(r) => [r] case None => []
  }

  // ----------------------------------------------------------- incremental

  /** Whether the scan starts the file over: a new file, another inode, or a shorter one. */
  predicate Restarts(state: Option<TailState>, file: File) {
    state.None? || state.value.inode != file.inode || |file.bytes| < state.value.offset
  }

  /** One scan of one file: its state, and the lines it completes. */
  function Advance(state: Option<TailState>, file: File): (TailState, seq<Line>) {
    var from := if Restarts(state, file) then TailState(file.inode, 0, []) else state.value;
    var data := from.partial + file.bytes[from.offset..];
    if |file.bytes| == from.offset then (from, [])
    else (TailState(from.inode, |file.bytes|, Partial(data)), Complete(data))
  }

  // -------------------------------------------------------------- refinement

  lemma {:induction false} PartialHasNoLines(data: seq<Byte>)
    ensures Complete(Partial(data)) == [] && Partial(Partial(data)) == Partial(data)
  {
    if data != [] && data[|data| - 1] != NEWLINE {
      PartialHasNoLines(data[..|data| - 1]);
      assert Partial(data)[..|Partial(data)| - 1] == Partial(data[..|data| - 1]);
    }
  }

  lemma {:induction false} PartialContinues(a: seq<Byte>, b: seq<Byte>)
    ensures Partial(a + b) == Partial(Partial(a) + b)
    decreases |b|
  {
    if b == [] {
      assert a + b == a && Partial(a) + b == Partial(a);
      PartialHasNoLines(a);
    } else {
      PartialContinues(a, b[..|b| - 1]);
      LastOff(a, b);
      LastOff(Partial(a), b);
    }
  }

  lemma {:induction false} LastOff(a: seq<Byte>, b: seq<Byte>)
    requires b != []
    ensures a + b != [] && (a + b)[|a + b| - 1] == b[|b| - 1] && (a + b)[..|a + b| - 1] == a + b[..|b| - 1]
  {
  }

  function LineAt(data: seq<Byte>, last: Byte): seq<Line> { if last == NEWLINE then [Partial(data)] else [] }

  lemma {:induction false} CompleteOneMore(a: seq<Byte>, b: seq<Byte>)
    requires b != []
    ensures var init := a + b[..|b| - 1]; Complete(a + b) == Complete(init) + LineAt(init, b[|b| - 1])
  {
    LastOff(a, b);
  }

  /** Splitting is incremental: what was left partial and what came after give the rest. */
  lemma {:induction false} SplitContinues(a: seq<Byte>, b: seq<Byte>)
    ensures Complete(a + b) == Complete(a) + Complete(Partial(a) + b)
    ensures Partial(a + b) == Partial(Partial(a) + b)
    decreases |b|
  {
    PartialContinues(a, b);
    if b == [] {
      assert a + b == a && Partial(a) + b == Partial(a);
      PartialHasNoLines(a);
    } else {
      var init := b[..|b| - 1];
      SplitContinues(a, init);
      CompleteOneMore(a, b);
      CompleteOneMore(Partial(a), b);
      ConcatAssociates(Complete(a), Complete(Partial(a) + init), LineAt(a + init, b[|b| - 1]));
    }
  }

  lemma {:induction false} RecordsAppend(a: seq<Line>, b: seq<Line>, decode: Decoder)
    ensures Records(a + b, decode) == Records(a, decode) + Records(b, decode)
    decreases |b|
  {
    if b == [] {
      assert a + b == a;
    } else {
      RecordsAppend(a, b[..|b| - 1], decode);
      assert (a + b)[..|a + b| - 1] == a + b[..|b| - 1];
    }
  }

  /** The state after reading all of a file. */
  function ReadAll(file: File): TailState { TailState(file.inode, |file.bytes|, Partial(file.bytes)) }

  /** The file was appended to since. */
  predicate Extends(before: File, file: File) { before.inode == file.inode && before.bytes <= file.bytes }

  lemma {:induction false} AdvanceExtends(before: File, file: File)
    requires Extends(before, file)
    ensures var (state, lines) := Advance(Some(ReadAll(before)), file);
      state == ReadAll(file) && Complete(before.bytes) + lines == Complete(file.bytes)
  {
    var chunk := file.bytes[|before.bytes|..];
    assert file.bytes == before.bytes + chunk;
    SplitContinues(before.bytes, chunk);
    if chunk == [] {
      assert file.bytes == before.bytes;
    }
  }

  lemma {:induction false} AdvanceRestarts(state: Option<TailState>, file: File)
    requires Restarts(state, file)
    ensures Advance(state, file) == (ReadAll(file), Complete(file.bytes))
  {
    assert [] + file.bytes[0..] == file.bytes;
  }

  /** What a scan finds at a path. */
  type Sight = Option<File>

  /** What scanning one path again and again leaves and emits; a missing file loses its state. */
  function Follow(sights: seq<Sight>, decode: Decoder): (Option<TailState>, seq<Record>) {
    if sights == [] then (None, [])
    else
      var (state, out) := Follow(sights[..|sights| - 1], decode);
      match sights[|sights| - 1]
      case None => (None, out)
      case Some(file) =>
        var (next, lines) := Advance(state, file);
        (Some(next), out + Records(lines, decode))
  }

  function WholeRead(file: Option<File>, decode: Decoder): seq<Record> {
    match file case None => [] case Some(f) => Records(Complete(f.bytes), decode)
  }

  predicate Continues(current: Option<File>, file: File) { current.Some? && Extends(current.value, file) }

  /** Whole reads of every generation that ended, as it was last seen, and the current one. */
  function Generations(sights: seq<Sight>, decode: Decoder): (seq<Record>, Option<File>) {
    if sights == [] then ([], None)
    else
      var (ended, current) := Generations(sights[..|sights| - 1], decode);
      match sights[|sights| - 1]
      case None => (ended + WholeRead(current, decode), None)
      case Some(file) =>
        if Continues(current, file) then (ended, Some(file)) else (ended + WholeRead(current, decode), Some(file))
  }

  /** Between scans the file is appended to, removed, replaced, or cut below what was read. */
  ghost predicate Followable(sights: seq<Sight>) {
    forall i :: 0 < i < |sights| ==> FollowsOn(sights[i - 1], sights[i])
  }

  predicate FollowsOn(before: Sight, sight: Sight) {
    before.Some? && sight.Some? ==>
      || Extends(before.value, sight.value) || before.value.inode != sight.value.inode
      || |sight.value.bytes| < |before.value.bytes|
  }

  /** The file as the reader takes it: it never looks again at what it has read. */
  function Spliced(before: Sight, file: File): File {
    if before.None? || before.value.inode != file.inode || |file.bytes| < |before.value.bytes| then file
    else File(file.inode, before.value.bytes + file.bytes[|before.value.bytes|..])
  }

  function LastSight(sights: seq<Sight>): Sight { if sights == [] then None else sights[|sights| - 1] }

  /** The sights as the reader takes them. */
  function Seen(sights: seq<Sight>): (r: seq<Sight>)
    ensures |r| == |sights|
  {
    if sights == [] then []
    else
      var before := Seen(sights[..|sights| - 1]);
      before + [match sights[|sights| - 1] case None => None case Some(file) => Some(Spliced(LastSight(before), file))]
  }

  /** What was read is not read again, so splicing changes nothing for the reader. */
  lemma {:induction false} AdvanceSplices(before: Sight, file: File)
    ensures var state := if before.Some? then Some(ReadAll(before.value)) else None;
      Advance(state, file) == Advance(state, Spliced(before, file))
  {
    var spliced := Spliced(before, file);
    if before.Some? && spliced != file {
      assert spliced.bytes[|before.value.bytes|..] == file.bytes[|before.value.bytes|..];
    }
  }

  lemma {:induction false} SplicedFollowsOn(before: Sight, file: File)
    ensures FollowsOn(before, Some(Spliced(before, file)))
    ensures Spliced(before, file) == file <==> FollowsOn(before, Some(file))
  {
    if before.Some? && before.value.inode == file.inode && |file.bytes| >= |before.value.bytes| {
      var k := |before.value.bytes|;
      assert (before.value.bytes + file.bytes[k..])[..k] == before.value.bytes;
      assert file.bytes == file.bytes[..k] + file.bytes[k..];
    }
  }

  /** One more scan of a path whose state is that of a whole read. */
  lemma {:induction false} OneScan(ended: seq<Record>, current: Option<File>, file: File, decode: Decoder)
    requires FollowsOn(current, Some(file))
    ensures var (state, lines) := Advance(if current.Some? then Some(ReadAll(current.value)) else None, file);
      && state == ReadAll(file)
      && ended + WholeRead(current, decode) + Records(lines, decode)
         == if Continues(current, file) then ended + WholeRead(Some(file), decode)
            else ended + WholeRead(current, decode) + WholeRead(Some(file), decode)
  {
    if Continues(current, file) {
      AdvanceExtends(current.value, file);
      var lines := Advance(Some(ReadAll(current.value)), file).1;
      RecordsAppend(Complete(current.value.bytes), lines, decode);
      ConcatAssociates(ended, WholeRead(current, decode), Records(lines, decode));
    } else {
      AdvanceRestarts(if current.Some? then Some(ReadAll(current.value)) else None, file);
    }
  }

  lemma {:induction false} CurrentIsLast(sights: seq<Sight>, decode: Decoder)
    ensures Generations(sights, decode).1 == LastSight(sights)
  {
  }

  /**
   Tailing refines whole reads: over any scans of a path, whatever happens to its file
   between them, the emitted records are exactly the valid non-blank complete lines, in
   order, of the file's generations as the reader takes them, and the state is the offset
   and the bytes after the last newline.
   */
  lemma {:induction false} TailRefinesWholeRead(sights: seq<Sight>, decode: Decoder)
    ensures var (ended, current) := Generations(Seen(sights), decode);
      Follow(sights, decode)
      == (if current.Some? then Some(ReadAll(current.value)) else None, ended + WholeRead(current, decode))
    decreases |sights|
  {
    if sights == [] {
      var nothing: seq<Record> := [];
      assert nothing + [] == nothing;
    } else {
      var before, last := sights[..|sights| - 1], sights[|sights| - 1];
      TailRefinesWholeRead(before, decode);
      var (ended, current) := Generations(Seen(before), decode);
      CurrentIsLast(Seen(before), decode);
      assert Seen(sights)[..|sights| - 1] == Seen(before);
      if last.Some? {
        AdvanceSplices(current, last.value);
        SplicedFollowsOn(current, last.value);
        OneScan(ended, current, Spliced(current, last.value), decode);
      } else {
        assert ended + WholeRead(current, decode) + [] == ended + WholeRead(current, decode);
      }
    }
  }

  lemma {:induction false} FollowableOneMore(before: seq<Sight>, last: Sight)
    ensures Followable(before + [last]) <==> Followable(before) && FollowsOn(LastSight(before), last)
  {
    var sights := before + [last];
    if Followable(sights) {
      forall i | 0 < i < |before|
        ensures FollowsOn(before[i - 1], before[i])
      {
        assert FollowsOn(sights[i - 1], sights[i]);
      }
      assert before != [] ==> FollowsOn(sights[|before| - 1], sights[|before|]);
    }
  }

  lemma {:induction false} SeenOneMore(before: seq<Sight>, last: Sight)
    ensures Seen(before + [last])
         == Seen(before) + [if last.None? then None else Some(Spliced(LastSight(Seen(before)), last.value))]
  {
    assert (before + [last])[..|before|] == before;
  }

  /**
   The reader takes every file as it is exactly when, between scans, files are appended to,
   removed, rotated or truncated, and none is cut and grown again past what was read.
   */
  lemma {:induction false} SeenExactly(sights: seq<Sight>)
    ensures Seen(sights) == sights <==> Followable(sights)
    decreases |sights|
  {
    if sights != [] {
      var before, last := sights[..|sights| - 1], sights[|sights| - 1];
      SeenExactly(before);
      assert sights == before + [last];
      SeenOneMore(before, last);
      FollowableOneMore(before, last);
      if last.Some? {
        SplicedFollowsOn(LastSight(before), last.value);
      }
      assert Seen(sights) == sights ==> Seen(before) == Seen(sights)[..|before|] == before;
    }
  }

  /**
   A file rewritten in place at its old length is not seen at all, where a reader of whole
   files would report every record of it.
   */
  lemma {:induction false} RewriteIsUnseen(sights: seq<Sight>, before: File, file: File, decode: Decoder)
    requires Followable(sights) && LastSight(sights) == Some(before)
    requires before.inode == file.inode && |before.bytes| == |file.bytes| && before != file
    ensures Follow(sights + [Some(file)], decode) == Follow(sights, decode)
    ensures var (ended, current) := Generations(sights + [Some(file)], decode);
      ended + WholeRead(current, decode) == Follow(sights, decode).1 + WholeRead(Some(file), decode)
  {
    TailRefinesWholeRead(sights, decode);
    SeenExactly(sights);
    CurrentIsLast(sights, decode);
    assert (sights + [Some(file)])[..|sights|] == sights;
    assert Records([], decode) == [] && Follow(sights, decode).1 + [] == Follow(sights, decode).1;
  }
}
