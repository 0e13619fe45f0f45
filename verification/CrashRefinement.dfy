/**
 Under any crashes, retries and stale attempts, the transcript is one that a crash-free
 sequential run of the same workflow would have committed.
 */
module CrashRefinement {
  import opened Base
  import opened Fencing
  import opened Operations
  import opened DurableWorkflow

  // --------------------------------------------------- the crash-free runs

  ghost predicate Has(j: seq<Entry>, op: OperationId) {
    exists i :: 0 <= i < |j| && j[i].op == op
  }

  ghost predicate Distinct(j: seq<Entry>) {
    forall i, k :: 0 <= i < k < |j| ==> j[i].op != j[k].op
  }

  /** The completions of a history: a repeated operation is answered from its first result. */
  ghost function Fresh(h: seq<Entry>): seq<Entry> {
    if h == [] then []
    else
      var j := Fresh(h[..|h| - 1]);
      if Has(j, h[|h| - 1].op) then j else j + [h[|h| - 1]]
  }

  /** The transcript a journal leaves: evaluations add nothing, a context only opens it. */
  function Events(j: seq<Entry>): seq<Event> {
    if j == [] then []
    else
      var (log, e) := (Events(j[..|j| - 1]), j[|j| - 1]);
      if e.op.Evaluation? || (e.op.ContextOp? && log != []) then log else log + [Event(e.op, e.answer)]
  }

  /** A crash-free attempt at command `c` after journal `j` commits `e`. */
  ghost predicate Commits(c: Command, j: seq<Entry>, e: Entry) {
    && e.op == c.op && Answers(e.op, e.answer)
    && match c.op
       case ContextOp => e.version == 1
       case Evaluation(_, _) => c.expected == |Events(j)| && e.version == c.expected
       case _ => c.expected == |Events(j)| && e.version == c.expected + 1
  }

  /** `e` answers what the workflow awaits after `before`: a repeat of a result, or a commit. */
  ghost predicate Follows(W: Workflow, before: seq<Entry>, e: Entry) {
    && W(before).Some? && e.op == W(before).value.op
    && (if Has(Fresh(before), e.op) then e in Fresh(before) else Commits(W(before).value, Fresh(before), e))
  }

  ghost predicate FollowsAt(W: Workflow, h: seq<Entry>, i: nat)
    requires i < |h|
    decreases |h|, 0
  {
    Sequential(W, h[..i]) && Follows(W, h[..i], h[i])
  }

  /** What a sequential run without any crash may have received, one command at a time. */
  ghost predicate Sequential(W: Workflow, h: seq<Entry>)
    decreases |h|, 1
  {
    forall i {:trigger FollowsAt(W, h, i)} :: 0 <= i < |h| ==> FollowsAt(W, h, i)
  }

  lemma {:induction false} FreshDistinct(h: seq<Entry>)
    ensures Distinct(Fresh(h))
    decreases |h|
  {
    if h != [] {
      FreshDistinct(h[..|h| - 1]);
    }
  }

  lemma {:induction false} SequentialPrefix(W: Workflow, h: seq<Entry>, n: nat)
    requires Sequential(W, h) && n <= |h|
    ensures Sequential(W, h[..n])
    decreases n
  {
    forall i | 0 <= i < n
      ensures FollowsAt(W, h[..n], i)
    {
      assert FollowsAt(W, h, i);
      assert h[..n][..i] == h[..i];
    }
  }

  lemma {:induction false} FreshPrefix(h: seq<Entry>, n: nat)
    requires n <= |h|
    ensures Fresh(h[..n]) <= Fresh(h)
    decreases |h|
  {
    if n < |h| {
      FreshPrefix(h[..|h| - 1], n);
      assert h[..|h| - 1][..n] == h[..n];
    } else {
      assert h[..n] == h;
    }
  }

  lemma {:induction false} FreshOne(h: seq<Entry>, e: Entry)
    ensures Fresh(h + [e]) == if Has(Fresh(h), e.op) then Fresh(h) else Fresh(h) + [e]
  {
    assert (h + [e])[..|h|] == h;
  }

  /** Everything received answers the command of its moment, and is a journal entry. */
  lemma {:induction false} Received(W: Workflow, h: seq<Entry>, i: nat)
    requires Sequential(W, h) && i < |h|
    ensures Sequential(W, h[..i]) && Follows(W, h[..i], h[i])
    ensures h[i] in Fresh(h)
  {
    SequentialPrefix(W, h, i);
    assert FollowsAt(W, h, i);
    assert h[..i + 1] == h[..i] + [h[i]];
    FreshOne(h[..i], h[i]);
    FreshPrefix(h, i + 1);
    var k := |Fresh(h[..i + 1])| - 1;
    assert Has(Fresh(h[..i]), h[i].op) || Fresh(h)[k] == h[i];
  }

  lemma {:induction false} EntriesAnswer(W: Workflow, h: seq<Entry>, e: Entry)
    requires Sequential(W, h) && e in Fresh(h)
    ensures Answers(e.op, e.answer)
    decreases |h|
  {
    var before := h[..|h| - 1];
    SequentialPrefix(W, h, |h| - 1);
    if e in Fresh(before) {
      EntriesAnswer(W, before, e);
    } else {
      assert FollowsAt(W, h, |h| - 1);
    }
  }

  /** The last result answered the command that was awaited before it. */
  lemma {:induction false} LastReceived(W: Workflow, h: seq<Entry>)
    requires Sequential(W, h) && h != []
    ensures var (before, e) := (h[..|h| - 1], h[|h| - 1]);
      && Sequential(W, before) && Follows(W, before, e) && Answers(e.op, e.answer)
      && h == before + [e]
      && Fresh(h) == if Has(Fresh(before), e.op) then Fresh(before) else Fresh(before) + [e]
  {
    Received(W, h, |h| - 1);
    EntriesAnswer(W, h, h[|h| - 1]);
  }

  lemma {:induction false} OneEntry(j: seq<Entry>, a: Entry, b: Entry)
    requires Distinct(j) && a in j && b in j && a.op == b.op
    ensures a == b
  {
  }

  lemma {:induction false} SequentialExtends(W: Workflow, h: seq<Entry>, e: Entry)
    requires Sequential(W, h) && Follows(W, h, e)
    ensures Sequential(W, h + [e])
    ensures Fresh(h + [e]) == if Has(Fresh(h), e.op) then Fresh(h) else Fresh(h) + [e]
  {
    FreshOne(h, e);
    forall i | 0 <= i < |h + [e]|
      ensures FollowsAt(W, h + [e], i)
    {
      assert (h + [e])[..i] == h[..i];
      if i < |h| {
        assert FollowsAt(W, h, i);
      } else {
        assert h[..i] == h;
      }
    }
  }

  lemma {:induction false} SameNext(W: Workflow, a: seq<Entry>, b: seq<Entry>, i: nat)
    requires Sequential(W, a) && Sequential(W, b) && Fresh(a) == Fresh(b)
    requires i < |a| && i < |b| && a[..i] == b[..i]
    ensures a[i] == b[i]
  {
    Received(W, a, i);
    Received(W, b, i);
    FreshDistinct(a);
    OneEntry(Fresh(a), a[i], b[i]);
  }

  /** Two crash-free runs with the same journal: one continues the other. */
  lemma {:induction false} SameJournal(W: Workflow, a: seq<Entry>, b: seq<Entry>, n: nat)
    requires Sequential(W, a) && Sequential(W, b) && Fresh(a) == Fresh(b)
    requires n <= |a| && n <= |b|
    ensures a[..n] == b[..n]
  {
    if n > 0 {
      SameJournal(W, a, b, n - 1);
      SameNext(W, a, b, n - 1);
      assert a[..n] == a[..n - 1] + [a[n - 1]];
    }
  }

  // -------------------------------------------------------------- invariant

  /** `f` is a crash-free run that goes through `h` and commits exactly `j`. */
  ghost predicate Through(W: Workflow, h: seq<Entry>, f: seq<Entry>, j: seq<Entry>) {
    h <= f && Sequential(W, f) && Fresh(f) == j
  }

  ghost predicate Behind(W: Workflow, h: seq<Entry>, j: seq<Entry>) {
    exists f: seq<Entry> :: Through(W, h, f, j)
  }

  /** A run that awaits an operation outside the journal has received all of it. */
  lemma {:induction false} AheadOfJournal(W: Workflow, h: seq<Entry>, f: seq<Entry>, op: OperationId)
    requires h <= f && Sequential(W, f) && W(h).Some? && W(h).value.op == op && !Has(Fresh(f), op)
    ensures f == h
  {
    if |h| < |f| {
      assert f[..|h|] == h;
      Received(W, f, |h|);
    }
  }

  lemma {:induction false} BehindExactly(W: Workflow, h: seq<Entry>, j: seq<Entry>)
    requires Behind(W, h, j) && W(h).Some? && !Has(j, W(h).value.op)
    ensures Sequential(W, h) && Fresh(h) == j
  {
    var f: seq<Entry> :| Through(W, h, f, j);
    AheadOfJournal(W, h, f, W(h).value.op);
  }

  /** A repeated command is answered with the entry its crash-free run received. */
  lemma {:induction false} ReplayStaysBehind(W: Workflow, h: seq<Entry>, j: seq<Entry>, e: Entry)
    requires Behind(W, h, j) && W(h).Some? && e in j && e.op == W(h).value.op
    ensures Behind(W, h + [e], j)
  {
    var f: seq<Entry> :| Through(W, h, f, j);
    if |h| < |f| {
      Received(W, f, |h|);
      assert f[..|h|] == h;
      FreshDistinct(f);
      OneEntry(j, f[|h|], e);
      assert Through(W, h + [e], f, j);
    } else {
      assert f == h;
      SequentialExtends(W, h, e);
      assert Through(W, h + [e], h + [e], j);
    }
  }

  /** A commit at the head of the run keeps everyone behind it. */
  lemma {:induction false} CommitKeepsBehind(W: Workflow, l: seq<Entry>, e: Entry, h: seq<Entry>, j: seq<Entry>)
    requires Sequential(W, l) && Fresh(l) == j && W(l).Some? && !Has(j, e.op) && Commits(W(l).value, j, e)
    requires Behind(W, h, j)
    ensures Behind(W, h, j + [e]) && Behind(W, l + [e], j + [e])
  {
    var f: seq<Entry> :| Through(W, h, f, j);
    SequentialExtends(W, l, e);
    var n := if |l| < |f| then |l| else |f|;
    SameJournal(W, l, f, n);
    if |l| < |f| {
      assert l == l[..n] && l <= f;
      AheadOfJournal(W, l, f, e.op);
    }
    assert f == f[..n] == l[..n];
    assert Through(W, h, l + [e], j + [e]) && Through(W, l + [e], l + [e], j + [e]);
  }

  /** Rows and log say what the journal says. */
  ghost predicate Recorded(p: Plane, j: seq<Entry>) {
    && Distinct(j)
    && p.log == Events(j)
    && (forall i :: 0 <= i < |j| ==>
          Done(p, j[i].op) && p.rows[j[i].op].payload == Some(Result(j[i].answer, j[i].version)))
    && (!p.fence.Closed() ==> forall op <- p.rows :: Done(p, op) ==> Has(j, op))
  }

  predicate Holds(p: Plane, t: nat) { p.fence.live && p.fence.token == t }

  /** The lease holder's attempt that has begun an operation knows that it is not completed. */
  ghost predicate HeadOfRun(p: Plane, W: Workflow, j: seq<Entry>, t: nat, a: Attempt) {
    && t <= p.fence.token
    && (Holds(p, t) && (a.stage == Begun || a.stage == Loaded) ==>
          W(a.local).Some? && !Has(j, W(a.local).value.op))
    && (a.stage == Loaded && Holds(p, t) && W(a.local).Some? && ChecksVersion(W(a.local).value.op) ==>
          W(a.local).value.expected == |p.log|)
  }

  ghost predicate AttemptSound(m: Machine, W: Workflow, t: nat) {
    t in m.attempts ==>
      Behind(W, m.attempts[t].local, m.journal) && HeadOfRun(m.plane, W, m.journal, t, m.attempts[t])
  }

  ghost predicate Inv(m: Machine, W: Workflow) {
    && Recorded(m.plane, m.journal)
    && Behind(W, m.history, m.journal)
    && (forall t: nat {:trigger AttemptSound(m, W, t)} :: AttemptSound(m, W, t))
  }

  // ------------------------------------------------- what a transaction does

  /** Everything but a commit leaves log, fence and completed rows alone while the run may progress. */
  ghost predicate PlaneKept(p: Plane, q: Plane) {
    && q.fence == p.fence && q.log == p.log
    && (forall op <- p.rows :: Done(p, op) ==> Done(q, op) && q.rows[op].payload == p.rows[op].payload)
    && (!p.fence.Closed() ==> forall op <- q.rows :: Done(q, op) ==> Done(p, op))
  }

  lemma {:induction false} WritesCompleteNothing(p: Plane, t: nat, op: OperationId, call: Call, o: OperationId)
    requires Writes(call) && !p.fence.Closed() && Done(Apply(p, t, op, call), o)
    ensures Done(p, o)
  {
  }

  lemma {:induction false} WritesKeepPlane(p: Plane, t: nat, op: OperationId, call: Call)
    requires Writes(call)
    ensures PlaneKept(p, Apply(p, t, op, call))
  {
    var q := Apply(p, t, op, call);
    forall o | o in p.rows && Done(p, o)
      ensures Done(q, o) && q.rows[o].payload == p.rows[o].payload
    {
      CallsKeepCompleted(p, t, op, call, o);
    }
    forall o | o in q.rows && Done(q, o) && !p.fence.Closed()
      ensures Done(p, o)
    {
      WritesCompleteNothing(p, t, op, call, o);
    }
  }

  lemma {:induction false} KeptIsRecorded(p: Plane, q: Plane, j: seq<Entry>)
    requires PlaneKept(p, q) && Recorded(p, j)
    ensures Recorded(q, j)
  {
  }

  lemma {:induction false} JournalGrows(p: Plane, q: Plane, j: seq<Entry>, e: Entry)
    requires Recorded(p, j) && !Has(j, e.op) && q.log == Events(j + [e]) && q.fence == p.fence
    requires e.op in q.rows && q.rows == p.rows[e.op := q.rows[e.op]]
    requires Done(q, e.op) && q.rows[e.op].payload == Some(Result(e.answer, e.version))
    ensures Recorded(q, j + [e])
  {
    var k := j + [e];
    assert k[|j|] == e;
    assert forall i :: 0 <= i < |j| ==> k[i] == j[i];
    forall i | 0 <= i < |k|
      ensures Done(q, k[i].op) && q.rows[k[i].op].payload == Some(Result(k[i].answer, k[i].version))
    {
      if i < |j| {
        assert Done(p, j[i].op) && j[i].op != e.op;
      }
    }
    forall op | op in q.rows && Done(q, op) && !q.fence.Closed()
      ensures Has(k, op)
    {
      if op != e.op {
        assert Has(j, op);
        var i :| 0 <= i < |j| && j[i].op == op;
        assert k[i].op == op;
      }
    }
  }

  lemma {:induction false} EventsExtend(j: seq<Entry>, e: Entry)
    ensures Events(j + [e]) == if e.op.Evaluation? || (e.op.ContextOp? && Events(j) != []) then Events(j)
                               else Events(j) + [Event(e.op, e.answer)]
  {
    assert (j + [e])[..|j|] == j;
  }

  /** What `complete_operation` does when it commits for the first time. */
  lemma {:induction false} Completes(p: Plane, t: nat, op: OperationId, payload: Payload)
    requires CompleteOperation(p, t, op, payload).0.Ok? && !Done(p, op)
    ensures var q := CompleteOperation(p, t, op, payload).1;
      && op in q.rows && q == p.(rows := p.rows[op := q.rows[op]])
      && Done(q, op) && q.rows[op].payload == Some(payload)
  {
  }

  /** A commit of an operation outside the journal appends what a crash-free attempt appends. */
  lemma {:induction false} CommitRecords(p: Plane, j: seq<Entry>, t: nat, c: Command, answer: Answer)
    requires Recorded(p, j) && !Has(j, c.op) && !p.fence.Closed() && Answers(c.op, answer)
    requires c.op.Evaluation? ==> c.expected == |p.log|
    ensures var (outcome, q) := CommitAnswer(p, t, c, answer);
      if outcome.Err? then q == p
      else var e := Entry(c.op, answer, outcome.value);
           !Done(p, c.op) && Commits(c, j, e) && Recorded(q, j + [e]) && q.fence == p.fence
  {
    var (outcome, q) := CommitAnswer(p, t, c, answer);
    assert !Done(p, c.op);
    if outcome.Ok? {
      var e := Entry(c.op, answer, outcome.value);
      assert !c.op.ContextOp? && !c.op.Evaluation? ==> |p.log| == c.expected by {
        if Logged(p.log, c.op) {
          LoggedIsRecorded(p, j, c.op);
        }
      }
      Completes(p, t, c.op, Result(answer, e.version));
      EventsExtend(j, e);
      JournalGrows(p, q, j, e);
    }
  }

  lemma {:induction false} EventsCome(j: seq<Entry>, op: OperationId)
    requires Logged(Events(j), op)
    ensures Has(j, op)
    decreases |j|
  {
    var e := j[|j| - 1];
    if e.op != op {
      EventsCome(j[..|j| - 1], op);
    }
  }

  lemma {:induction false} LoggedIsRecorded(p: Plane, j: seq<Entry>, op: OperationId)
    requires Recorded(p, j) && Logged(p.log, op)
    ensures Has(j, op)
  {
    EventsCome(j, op);
  }

  // -------------------------------------------------------------- each step

  /** A step by which attempt `t` changes at most itself, and rows but no completion. */
  lemma {:induction false} KeepsInv(m: Machine, m': Machine, W: Workflow, t: nat)
    requires Inv(m, W) && PlaneKept(m.plane, m'.plane)
    requires m'.journal == m.journal && m'.history == m.history
    requires t in m'.attempts && m'.attempts == m.attempts[t := m'.attempts[t]]
    requires Behind(W, m'.attempts[t].local, m.journal) && HeadOfRun(m'.plane, W, m.journal, t, m'.attempts[t])
    ensures Inv(m', W)
  {
    KeptIsRecorded(m.plane, m'.plane, m.journal);
    forall u: nat
      ensures AttemptSound(m', W, u)
    {
      assert AttemptSound(m, W, u);
    }
  }

  /** Completed: the stored result replays.  Otherwise, under the lease, it is not in the journal. */
  lemma {:induction false} BegunAttempt(p: Plane, W: Workflow, j: seq<Entry>, t: nat, a: Attempt)
    requires Recorded(p, j) && Behind(W, a.local, j) && W(a.local).Some?
    ensures var c := W(a.local).value;
      var (outcome, q) := BeginOperation(p, t, c.op, KindOf(c.op), ToleratesIntent(c.op));
      && PlaneKept(p, q)
      && (outcome.Ok? ==> p.fence.Admits(t))
      && (outcome.Ok? && outcome.value.0 != Completed ==> !Has(j, c.op))
      && (outcome.Ok? && outcome.value.0 == Completed ==>
            && outcome.value.1.Some? && outcome.value.1.value.Result?
            && Behind(W, a.local + [Entry(c.op, outcome.value.1.value.answer, outcome.value.1.value.version)], j))
  {
    var c := W(a.local).value;
    WritesKeepPlane(p, t, c.op, CallBegin(KindOf(c.op), ToleratesIntent(c.op)));
    var outcome := BeginOperation(p, t, c.op, KindOf(c.op), ToleratesIntent(c.op)).0;
    if outcome.Ok? && outcome.value.0 == Completed {
      assert Done(p, c.op) && Has(j, c.op);
      var i :| 0 <= i < |j| && j[i].op == c.op;
      ReplayStaysBehind(W, a.local, j, j[i]);
    }
  }

  lemma {:induction false} BeginKeepsInv(m: Machine, W: Workflow, t: nat)
    requires Inv(m, W) && Enabled(m, W, Begin(t))
    ensures Inv(BeginStep(m, W, t), W)
  {
    assert AttemptSound(m, W, t);
    BegunAttempt(m.plane, W, m.journal, t, m.attempts[t]);
    KeepsInv(m, BeginStep(m, W, t), W, t);
  }

  /** The head of the run moves on to `l + [e]`, and nobody else holds the lease. */
  lemma {:induction false} HeadMoves(m: Machine, m': Machine, W: Workflow, t: nat, l: seq<Entry>, e: Entry)
    requires Inv(m, W) && Holds(m.plane, t) && m'.plane.fence == m.plane.fence
    requires Recorded(m'.plane, m.journal + [e]) && m'.journal == m.journal + [e] && m'.history == m.history
    requires Sequential(W, l) && Fresh(l) == m.journal && W(l).Some? && !Has(m.journal, e.op)
    requires Commits(W(l).value, m.journal, e)
    requires t in m.attempts && t in m'.attempts && m'.attempts == m.attempts[t := m'.attempts[t]]
    requires m'.attempts[t].local == l + [e] && m'.attempts[t].stage != Begun && m'.attempts[t].stage != Loaded
    ensures Inv(m', W)
  {
    CommitKeepsBehind(W, l, e, m.history, m.journal);
    forall u: nat
      ensures AttemptSound(m', W, u)
    {
      assert AttemptSound(m, W, u);
      if u in m.attempts {
        CommitKeepsBehind(W, l, e, m.attempts[u].local, m.journal);
      }
    }
  }

  lemma {:induction false} CommitKeepsInv(m: Machine, W: Workflow, t: nat, answer: Answer)
    requires Inv(m, W) && Enabled(m, W, Commit(t, answer))
    ensures Inv(CommitStep(m, W, t, answer), W)
  {
    var l := m.attempts[t].local;
    var c := W(l).value;
    var m' := CommitStep(m, W, t, answer);
    assert AttemptSound(m, W, t);
    var outcome := CommitAnswer(m.plane, t, c, answer).0;
    if m.plane.fence.Admits(t) {
      CommitRecords(m.plane, m.journal, t, c, answer);
    }
    if outcome.Ok? {
      BehindExactly(W, l, m.journal);
      HeadMoves(m, m', W, t, l, Entry(c.op, answer, outcome.value));
    } else {
      KeepsInv(m, m', W, t);
    }
  }

  lemma {:induction false} FenceKeepsInv(m: Machine, W: Workflow, f: Fence)
    requires Inv(m, W) && FenceStep(m.plane.fence, f)
    ensures Inv(m.(plane := m.plane.(fence := f)), W)
  {
    var m' := m.(plane := m.plane.(fence := f));
    forall u: nat
      ensures AttemptSound(m', W, u)
    {
      assert AttemptSound(m, W, u);
    }
  }

  lemma {:induction false} DeliveryKeepsInv(m: Machine, W: Workflow, h: seq<Entry>)
    requires Inv(m, W) && Behind(W, h, m.journal)
    ensures Inv(m.(history := h), W)
  {
    forall u: nat
      ensures AttemptSound(m.(history := h), W, u)
    {
      assert AttemptSound(m, W, u);
    }
  }

  lemma {:induction false} CheckKeepsInv(m: Machine, W: Workflow, t: nat)
    requires Inv(m, W) && Enabled(m, W, Check(t))
    ensures Inv(CheckStep(m, W, t), W)
  {
    assert AttemptSound(m, W, t);
    KeepsInv(m, CheckStep(m, W, t), W, t);
  }

  lemma {:induction false} CrashKeepsInv(m: Machine, W: Workflow, t: nat)
    requires Inv(m, W) && t in m.attempts
    ensures Inv(Stop(m, t), W)
  {
    assert AttemptSound(m, W, t);
    KeepsInv(m, Stop(m, t), W, t);
  }

  lemma {:induction false} WriteKeepsInv(m: Machine, W: Workflow, t: nat, op: OperationId, call: Call)
    requires Inv(m, W) && t in m.attempts && Writes(call)
    ensures Inv(m.(plane := Apply(m.plane, t, op, call)), W)
  {
    assert AttemptSound(m, W, t);
    WritesKeepPlane(m.plane, t, op, call);
    KeepsInv(m, m.(plane := Apply(m.plane, t, op, call)), W, t);
  }

  lemma {:induction false} StepInv(m: Machine, W: Workflow, step: Step)
    requires Inv(m, W) && Allowed(m, step)
    ensures Inv(Next(m, W, step), W)
  {
    if Enabled(m, W, step) {
      match step {
        case Schedule(t) => KeepsInv(m, Next(m, W, step), W, t);
        case Begin(t) => BeginKeepsInv(m, W, t);
        case Check(t) => CheckKeepsInv(m, W, t);
        case Commit(t, answer) => CommitKeepsInv(m, W, t, answer);
        case Write(t, call) => WriteKeepsInv(m, W, t, W(m.attempts[t].local).value.op, call);
        case Crash(t) => CrashKeepsInv(m, W, t);
        case Deliver(t) =>
          assert AttemptSound(m, W, t);
          DeliveryKeepsInv(m, W, m.attempts[t].local);
        case MoveFence(f) => FenceKeepsInv(m, W, f);
      }
    }
  }

  lemma {:induction false} Reachable(m: Machine, W: Workflow, steps: seq<Step>)
    requires Inv(m, W) && AllAllowed(m, W, steps)
    ensures Inv(Execute(m, W, steps), W)
    decreases |steps|
  {
    if steps != [] {
      StepInv(m, W, steps[0]);
      Reachable(Next(m, W, steps[0]), W, steps[1..]);
    }
  }

  lemma {:induction false} InitialInv(m: Machine, W: Workflow)
    requires Initial(m)
    ensures Inv(m, W)
  {
    assert Through(W, m.history, [], m.journal);
  }

  /**
   Crash refinement: after any run there is a crash-free run of the same workflow that
   committed exactly this transcript, and the results the workflow has received are a
   prefix of the results of that run.
   */
  lemma {:induction false} TranscriptIsCrashFree(m: Machine, W: Workflow, steps: seq<Step>) returns (run: seq<Entry>)
    requires Initial(m) && AllAllowed(m, W, steps)
    ensures var end := Execute(m, W, steps);
      Sequential(W, run) && Fresh(run) == end.journal && end.plane.log == Events(end.journal) && end.history <= run
  {
    InitialInv(m, W);
    Reachable(m, W, steps);
    var end := Execute(m, W, steps);
    run :| Through(W, end.history, run, end.journal);
  }

  /**
   An attempt that holds the lease and has begun its operation computes on exactly the
   results of the crash-free run: its commit is the one next event of that run.
   */
  lemma {:induction false} NoWorkIsWasted(m: Machine, W: Workflow, steps: seq<Step>, t: nat)
    requires Initial(m) && AllAllowed(m, W, steps)
    requires var end := Execute(m, W, steps);
      t in end.attempts && end.attempts[t].stage == Loaded && end.plane.fence.Admits(t)
    ensures var end := Execute(m, W, steps);
      Sequential(W, end.attempts[t].local) && Fresh(end.attempts[t].local) == end.journal
  {
    InitialInv(m, W);
    Reachable(m, W, steps);
    var end := Execute(m, W, steps);
    assert AttemptSound(end, W, t);
    BehindExactly(W, end.attempts[t].local, end.journal);
  }
}
