/**
 The workflow of one delegation (src/agent_workflows/delegation.py): two rounds of
 preparing and running branches, then the report.  The activities it calls may be
 executed more often than they answer, and the branches run beside it.
 */
module DelegationRounds {
  import opened Base
  import opened LeasePlane
  import opened BranchAttempts

  /** `lost`: a preparation of this round committed, but its answer never reached the workflow. */
  datatype Flow =
    | Preparing(round: nat, lost: bool)
    | Branching(round: nat, left: set<string>, retry: bool)
    | Finishing(round: nat, torn: bool)   // torn: the round's lost preparation was followed by a refusal
    | Over                                // it returned a stored result, raised or was cancelled

  datatype World = World(state: State, flow: Flow)

  datatype Event =
    | Executed(allowed: bool, room: nat)   // a preparation whose answer is lost
    | Answered(allowed: bool, room: nat)
    | Ended(key: string, error: Option<string>, active: bool, receipt: bool)
    | Outside(step: BranchStep)            // lost completions, acquisitions, changes of the run's status
    | Leave

  /** What follows `gather`: a retry round if some branch of the first failed retryably. */
  function Proceed(round: nat, left: set<string>, retry: bool): Flow {
    if left != {} then Branching(round, left, retry)
    else if round == 1 && retry then Preparing(2, false)
    else Finishing(round, false)
  }

  function KeySet(keys: seq<string>): set<string> { set key | key in keys }

  function OnAnswer(w: World, d: Delegation, allowed: bool, room: nat): World
    requires w.flow.Preparing?
  {
    var (outcome, state) := Prepare(w.state, d.operation, d.briefs, w.flow.round, allowed, room);
    World(state, if outcome.Ok? then Proceed(w.flow.round, KeySet(outcome.value), false)
                 else Finishing(w.flow.round, w.flow.lost))
  }

  /** A branch that succeeded reports no error; one whose completion is refused ends the workflow. */
  function OnEnded(w: World, key: string, error: Option<string>, active: bool, receipt: bool): World
    requires w.flow.Branching?
  {
    var status := if error.None? then Succeeded else Failed;
    var (outcome, state) := Finish(w.state, key, w.flow.round, status, error, active, receipt);
    var retry := w.flow.retry || (error.Some? && !NonRetryable(error.value));
    World(state, if outcome.Ok? then Proceed(w.flow.round, w.flow.left - {key}, retry) else Over)
  }

  function Next(w: World, d: Delegation, event: Event): World {
    match event
    case Executed(allowed, room) =>
      if !w.flow.Preparing? then w
      else
        var (outcome, state) := Prepare(w.state, d.operation, d.briefs, w.flow.round, allowed, room);
        World(state, w.flow.(lost := w.flow.lost || outcome.Ok?))
    case Answered(allowed, room) => if w.flow.Preparing? then OnAnswer(w, d, allowed, room) else w
    case Ended(key, error, active, receipt) =>
      if w.flow.Branching? && key in w.flow.left then OnEnded(w, key, error, active, receipt) else w
    case Outside(step) => if step.DoPrepare? then w else w.(state := BranchNext(w.state, step))
    case Leave => w.(flow := Over)
  }

  function Drive(w: World, d: Delegation, events: seq<Event>): World
    decreases |events|
  {
    if events == [] then w else Drive(Next(w, d, events[0]), d, events[1..])
  }

  /** The rows of a root before this delegation: none, or those of the one it already had. */
  ghost predicate Opened(s: State, d: Delegation) {
    && Shaped(s.rows) && Covered(s) && ErrorsAreFinal(s.rows)
    && (s.delegation.None? ==> s.rows == map[])
    && (s.delegation.Some? ==> s.delegation.value.operation != d.operation)
  }

  function Start(s: State): World { World(s, Preparing(1, false)) }

  // ------------------------------------------------------------- invariants

  /** Only a completion sets an error. */
  ghost predicate ErrorsAreFinal(rows: Rows) {
    forall k {:trigger k in rows} :: k in rows && rows[k].error.Some? ==> rows[k].status.Terminal()
  }

  /** Every branch of this attempt has ended, but for those the workflow waits for. */
  ghost predicate Settled(rows: Rows, briefs: seq<Brief>, attempt: nat, left: set<string>) {
    forall b <- briefs :: (b.key, attempt) in rows && b.key !in left ==> rows[(b.key, attempt)].status.Terminal()
  }

  ghost predicate Unused(rows: Rows, briefs: seq<Brief>, attempt: nat) {
    forall b <- briefs :: (b.key, attempt) !in rows
  }

  ghost predicate Placed(rows: Rows, briefs: seq<Brief>, flow: Flow) {
    match flow
    case Preparing(round, lost) =>
      && (round == 1 || round == 2)
      && (round == 1 ==> lost && Unused(rows, briefs, 2))
      && (round == 2 ==> Settled(rows, briefs, 1, {}) && (lost || Unused(rows, briefs, 2)))
    case Branching(round, left, _) =>
      && (round == 1 || round == 2)
      && (round == 1 ==> Settled(rows, briefs, 1, left) && Unused(rows, briefs, 2))
      && (round == 2 ==> Settled(rows, briefs, 1, {}) && Settled(rows, briefs, 2, left))
    case Finishing(round, torn) =>
      && (round == 1 || round == 2)
      && (round == 1 ==> (torn || Settled(rows, briefs, 1, {})) && Unused(rows, briefs, 2))
      && (round == 2 ==> Settled(rows, briefs, 1, {}) && (torn || Settled(rows, briefs, 2, {})))
    case Over => true
  }

  ghost predicate Sound(w: World, d: Delegation) {
    && Shaped(w.state.rows) && Covered(w.state) && ErrorsAreFinal(w.state.rows)
    && (w.state.delegation.None? ==> w.state.rows == map[])
    && (if w.state.delegation == Some(d) then Placed(w.state.rows, d.briefs, w.flow)
        else
          && (w.state.delegation.Some? ==> w.state.delegation.value.operation != d.operation)
          && (w.flow == Preparing(1, false) || w.flow == Finishing(1, false) || w.flow == Over))
  }

  lemma {:induction false} PendingKeys(rows: Rows, briefs: seq<Brief>, attempt: nat, b: Brief)
    requires b in briefs && !Skipped(rows, b.key, attempt)
    ensures b.key in Pending(rows, briefs, attempt)
    decreases |briefs|
  {
    var last := |briefs| - 1;
    if b != briefs[last] {
      assert briefs == briefs[..last] + [briefs[last]];
      PendingKeys(rows, briefs[..last], attempt, b);
    }
  }

  /** A preparation keeps the rows sound, and leaves no unended branch of its round outside its answer. */
  lemma {:induction false} PrepareIsSound(s: State, d: Delegation, attempt: nat, allowed: bool, room: nat)
    requires Shaped(s.rows) && Covered(s) && ErrorsAreFinal(s.rows) && (s.delegation.None? ==> s.rows == map[])
    requires attempt == 1 || (attempt == 2 && s.delegation == Some(d))
    ensures var (outcome, later) := Prepare(s, d.operation, d.briefs, attempt, allowed, room);
      && Shaped(later.rows) && Covered(later) && ErrorsAreFinal(later.rows) && Kept(s.rows, later.rows)
      && (outcome.Err? ==> later == s)
      && (outcome.Ok? ==> later.delegation == Some(d) && Settled(later.rows, d.briefs, attempt, KeySet(outcome.value)))
  {
    var (outcome, later) := Prepare(s, d.operation, d.briefs, attempt, allowed, room);
    PrepareKeepsShape(s, d.operation, d.briefs, attempt, allowed, room);
    PrepareCoversExactly(s, d.operation, d.briefs, attempt, allowed, room);
    StepKeepsRows(s, DoPrepare(d.operation, d.briefs, attempt, allowed, room));
    if outcome.Ok? {
      forall b | b in d.briefs && (b.key, attempt) in later.rows && b.key !in KeySet(outcome.value)
        ensures later.rows[(b.key, attempt)].status.Terminal()
      {
        if !Skipped(s.rows, b.key, attempt) {
          PendingKeys(s.rows, d.briefs, attempt, b);
          assert false;
        }
      }
    }
  }

  /** A first round adds no second attempts. */
  lemma {:induction false} FirstRoundAddsFirsts(s: State, d: Delegation, allowed: bool, room: nat, b: Brief)
    requires (b.key, 2) !in s.rows
    ensures (b.key, 2) !in Prepare(s, d.operation, d.briefs, 1, allowed, room).1.rows
  {
  }

  lemma {:induction false} FirstRoundIsSound(w: World, d: Delegation, allowed: bool, room: nat)
    requires Sound(w, d) && w.flow.Preparing? && w.flow.round == 1
    ensures var (outcome, later) := Prepare(w.state, d.operation, d.briefs, 1, allowed, room);
      && (later.delegation == Some(d) ==> Unused(later.rows, d.briefs, 2))
      && (outcome.Err? && later.delegation == Some(d) ==> w.flow.lost)
  {
    var later := Prepare(w.state, d.operation, d.briefs, 1, allowed, room).1;
    PrepareIsSound(w.state, d, 1, allowed, room);
    if later.delegation == Some(d) {
      forall b | b in d.briefs
        ensures (b.key, 2) !in later.rows
      {
        FirstRoundAddsFirsts(w.state, d, allowed, room, b);
      }
    }
  }

  lemma {:induction false} SettledStays(rows: Rows, later: Rows, briefs: seq<Brief>, attempt: nat, left: set<string>)
    requires Settled(rows, briefs, attempt, left) && Kept(rows, later)
    requires forall b <- briefs :: (b.key, attempt) in later ==> (b.key, attempt) in rows
    ensures Settled(later, briefs, attempt, left)
  {
  }

  lemma {:induction false} CoveredSettles(s: State, later: State, d: Delegation)
    requires Covered(s) && s.delegation == Some(d) && Kept(s.rows, later.rows) && Settled(s.rows, d.briefs, 1, {})
    ensures Settled(later.rows, d.briefs, 1, {})
  {
    SettledStays(s.rows, later.rows, d.briefs, 1, {});
  }

  lemma {:induction false} ExecutedIsSound(w: World, d: Delegation, allowed: bool, room: nat)
    requires Sound(w, d) && w.flow.Preparing?
    ensures Sound(Next(w, d, Executed(allowed, room)), d)
  {
    var later := Prepare(w.state, d.operation, d.briefs, w.flow.round, allowed, room).1;
    PrepareIsSound(w.state, d, w.flow.round, allowed, room);
    if w.flow.round == 1 {
      FirstRoundIsSound(w, d, allowed, room);
    } else {
      CoveredSettles(w.state, later, d);
    }
  }

  lemma {:induction false} AnsweredIsSound(w: World, d: Delegation, allowed: bool, room: nat)
    requires Sound(w, d) && w.flow.Preparing?
    ensures Sound(Next(w, d, Answered(allowed, room)), d)
  {
    var later := Prepare(w.state, d.operation, d.briefs, w.flow.round, allowed, room).1;
    PrepareIsSound(w.state, d, w.flow.round, allowed, room);
    if w.flow.round == 1 {
      FirstRoundIsSound(w, d, allowed, room);
    } else {
      CoveredSettles(w.state, later, d);
    }
  }

  /** Steps that prepare nothing add no rows. */
  lemma {:induction false} OtherStepsAreSound(s: State, step: BranchStep)
    requires !step.DoPrepare? && Shaped(s.rows) && Covered(s) && ErrorsAreFinal(s.rows)
    ensures var later := BranchNext(s, step);
      && later.delegation == s.delegation && later.rows.Keys == s.rows.Keys && Kept(s.rows, later.rows)
      && Shaped(later.rows) && Covered(later) && ErrorsAreFinal(later.rows)
  {
    StepKeepsShape(s, step);
    StepKeepsRows(s, step);
  }

  lemma {:induction false} PlacedStays(rows: Rows, later: Rows, briefs: seq<Brief>, flow: Flow)
    requires Placed(rows, briefs, flow) && Kept(rows, later) && rows.Keys == later.Keys
    ensures Placed(later, briefs, flow)
  {
    forall n: nat, left | Settled(rows, briefs, n, left)
      ensures Settled(later, briefs, n, left)
    {
      SettledStays(rows, later, briefs, n, left);
    }
  }

  lemma {:induction false} EndedIsSound(w: World, d: Delegation, event: Event)
    requires Sound(w, d) && event.Ended? && w.flow.Branching? && event.key in w.flow.left
    ensures Sound(Next(w, d, event), d)
  {
    var round := w.flow.round;
    var status := if event.error.None? then Succeeded else Failed;
    var step := DoFinish(event.key, round, status, event.error, event.active, event.receipt);
    OtherStepsAreSound(w.state, step);
    var later := BranchNext(w.state, step);
    PlacedStays(w.state.rows, later.rows, d.briefs, w.flow);
    if Next(w, d, event).flow != Over {
      assert later.rows[(event.key, round)].status.Terminal();
      assert Settled(later.rows, d.briefs, round, w.flow.left - {event.key});
    }
  }

  lemma {:induction false} EventIsSound(w: World, d: Delegation, event: Event)
    requires Sound(w, d)
    ensures Sound(Next(w, d, event), d)
  {
    match event
    case Executed(allowed, room) => if w.flow.Preparing? { ExecutedIsSound(w, d, allowed, room); }
    case Answered(allowed, room) => if w.flow.Preparing? { AnsweredIsSound(w, d, allowed, room); }
    case Ended(key, _, _, _) => if w.flow.Branching? && key in w.flow.left { EndedIsSound(w, d, event); }
    case Outside(step) =>
      if !step.DoPrepare? {
        OtherStepsAreSound(w.state, step);
        if w.state.delegation == Some(d) {
          PlacedStays(w.state.rows, BranchNext(w.state, step).rows, d.briefs, w.flow);
        }
      }
    case Leave =>
  }

  lemma {:induction false} RunIsSound(w: World, d: Delegation, events: seq<Event>)
    requires Sound(w, d)
    ensures Sound(Drive(w, d, events), d)
    decreases |events|
  {
    if events != [] {
      EventIsSound(w, d, events[0]);
      RunIsSound(Next(w, d, events[0]), d, events[1..]);
    }
  }

  // ------------------------------------------------------------ main results

  /** Whatever is lost, repeated or refused: a recorded delegation has an execution for every brief. */
  lemma {:induction false} DelegationIsCovered(s: State, d: Delegation, events: seq<Event>)
    requires Opened(s, d)
    ensures Covered(Drive(Start(s), d, events).state)
  {
    RunIsSound(Start(s), d, events);
  }

  /** Its last attempt succeeded: the second if there was one. */
  predicate Won(rows: Rows, key: string) {
    if (key, 2) in rows then rows[(key, 2)].status == Succeeded
    else (key, 1) in rows && rows[(key, 1)].status == Succeeded
  }

  /** The branches that an event inserts: those that an accepted preparation did not find. */
  function Opens(w: World, d: Delegation, event: Event): set<(string, nat)> {
    if !w.flow.Preparing? || !(event.Executed? || event.Answered?) then {}
    else if Prepare(w.state, d.operation, d.briefs, w.flow.round, event.allowed, event.room).0.Err? then {}
    else Slots(NewKeys(w.state.rows, d.briefs, w.flow.round), w.flow.round)
  }

  /** The branches that a step ends: an accepted completion, or a cancellation. */
  function Closes(s: State, step: BranchStep): set<(string, nat)> {
    match step
    case DoFinish(key, attempt, status, error, active, receipt) =>
      if Finish(s, key, attempt, status, error, active, receipt).0.Ok? then {(key, attempt)} else {}
    case DoTouch(key, attempt, status) => if status == Cancelled then {(key, attempt)} else {}
    case _ => {}
  }

  function Closed(w: World, event: Event): set<(string, nat)> {
    match event
    case Ended(key, error, active, receipt) =>
      if w.flow.Branching? && key in w.flow.left
      then Closes(w.state, DoFinish(key, w.flow.round, if error.None? then Succeeded else Failed, error, active, receipt))
      else {}
    case Outside(step) => Closes(w.state, step)
    case _ => {}
  }

  /** The branches the history inserted and did not end; `open` holds those of before. */
  function Unended(w: World, d: Delegation, events: seq<Event>, open: set<(string, nat)>): set<(string, nat)>
    decreases |events|
  {
    if events == [] then open
    else Unended(Next(w, d, events[0]), d, events[1..], open + Opens(w, d, events[0]) - Closed(w, events[0]))
  }

  /** A set holds the branches that have not ended. */
  ghost predicate Counts(rows: Rows, open: set<(string, nat)>) {
    forall k :: k in open <==> k in rows && !rows[k].status.Terminal()
  }

  lemma {:induction false} PreparedCounts(s: State, d: Delegation, attempt: nat, allowed: bool, room: nat, open: set<(string, nat)>)
    requires Counts(s.rows, open)
    ensures var (outcome, later) := Prepare(s, d.operation, d.briefs, attempt, allowed, room);
      Counts(later.rows, if outcome.Ok? then open + Slots(NewKeys(s.rows, d.briefs, attempt), attempt) else open)
  {
  }

  lemma {:induction false} ClosedCounts(s: State, step: BranchStep, open: set<(string, nat)>)
    requires Counts(s.rows, open) && !step.DoPrepare?
    ensures Counts(BranchNext(s, step).rows, open - Closes(s, step))
  {
  }

  lemma {:induction false} EventCounts(w: World, d: Delegation, event: Event, open: set<(string, nat)>)
    requires Counts(w.state.rows, open)
    ensures Counts(Next(w, d, event).state.rows, open + Opens(w, d, event) - Closed(w, event))
  {
    match event
    case Executed(allowed, room) =>
      if w.flow.Preparing? { PreparedCounts(w.state, d, w.flow.round, allowed, room, open); }
    case Answered(allowed, room) =>
      if w.flow.Preparing? { PreparedCounts(w.state, d, w.flow.round, allowed, room, open); }
    case Ended(key, error, active, receipt) =>
      if w.flow.Branching? && key in w.flow.left {
        ClosedCounts(w.state, DoFinish(key, w.flow.round, if error.None? then Succeeded else Failed, error, active, receipt), open);
      }
    case Outside(step) => if !step.DoPrepare? { ClosedCounts(w.state, step, open); }
    case Leave =>
  }

  /** The history says which branches are still open. */
  lemma {:induction false} UnendedAreOpen(w: World, d: Delegation, events: seq<Event>, open: set<(string, nat)>)
    requires Counts(w.state.rows, open)
    ensures Counts(Drive(w, d, events).state.rows, Unended(w, d, events, open))
    decreases |events|
  {
    if events != [] {
      EventCounts(w, d, events[0], open);
      UnendedAreOpen(Next(w, d, events[0]), d, events[1..], open + Opens(w, d, events[0]) - Closed(w, events[0]));
    }
  }

  function OpenRows(rows: Rows): set<(string, nat)> { set k | k in rows && !rows[k].status.Terminal() }

  /**
   A preparation was lost, its repetition refused, and a branch that the history inserted in
   that round was neither completed nor cancelled since.
   */
  predicate Stranded(s: State, d: Delegation, events: seq<Event>) {
    var flow := Drive(Start(s), d, events).flow;
    && flow.Finishing? && flow.torn
    && exists b <- d.briefs :: (b.key, flow.round) in Unended(Start(s), d, events, OpenRows(s.rows))
  }

  predicate AllWon(s: State, d: Delegation) {
    s.delegation == Some(d) && forall b <- d.briefs :: b.required ==> Won(s.rows, b.key)
  }

  lemma {:induction false} LatestInRound(w: World, d: Delegation)
    requires Sound(w, d) && w.flow.Finishing? && w.state.delegation == Some(d)
    ensures forall b <- d.briefs ::
      var latest := LatestAttempt(w.state.rows, b.key);
      && (latest == 1 || latest == 2) && (w.flow.round == 1 ==> latest == 1)
      && (!w.state.rows[(b.key, latest)].status.Terminal() ==> w.flow.torn && latest == w.flow.round)
      && (w.state.rows[(b.key, latest)].status == Succeeded <==> Won(w.state.rows, b.key))
  {
  }

  lemma {:induction false} NothingTorn(w: World, d: Delegation, events: seq<Event>)
    requires (w.flow.Preparing? ==> !w.flow.lost) && (w.flow.Finishing? ==> !w.flow.torn)
    requires forall e <- events :: !e.Executed?
    ensures var flow := Drive(w, d, events).flow; flow.Finishing? ==> !flow.torn
    decreases |events|
  {
    if events != [] {
      NothingTorn(Next(w, d, events[0]), d, events[1..]);
    }
  }

  /**
   The report that ends a delegation, after any run of the two rounds.  It is refused
   exactly when a branch is stranded; otherwise it succeeds exactly when the delegation was
   recorded and every required brief's last attempt succeeded.
   */
  lemma {:induction false} ReportsExactly(s: State, d: Delegation, events: seq<Event>)
    requires Opened(s, d)
    ensures var w := Drive(Start(s), d, events); w.flow.Finishing? ==>
      && (Aggregate(w.state, d.operation).Err? <==> Stranded(s, d, events))
      && (!Stranded(s, d, events) ==> Aggregate(w.state, d.operation) == Ok(AllWon(w.state, d)))
  {
    RunIsSound(Start(s), d, events);
    UnendedAreOpen(Start(s), d, events, OpenRows(s.rows));
    var w := Drive(Start(s), d, events);
    if w.flow.Finishing? && w.state.delegation == Some(d) {
      LatestInRound(w, d);
    }
  }

  /** Without a lost answer the report is never refused. */
  lemma {:induction false} KeptAnswersReport(s: State, d: Delegation, events: seq<Event>)
    requires Opened(s, d) && forall e <- events :: !e.Executed?
    ensures var w := Drive(Start(s), d, events);
      w.flow.Finishing? ==> Aggregate(w.state, d.operation) == Ok(AllWon(w.state, d))
  {
    ReportsExactly(s, d, events);
    NothingTorn(Start(s), d, events);
  }

  /** With one it can be: the first preparation commits, and its repetition is refused. */
  lemma {:induction false} LostPreparationStrands(s: State, d: Delegation, room: nat)
    requires Opened(s, d) && s.delegation.None? && ValidBriefs(d.briefs) && |NewKeys(s.rows, d.briefs, 1)| <= room
    ensures var w := Drive(Start(s), d, [Executed(true, room), Answered(false, room)]);
      w.flow.Finishing? && Aggregate(w.state, d.operation).Err?
  {
    var (lost, refused) := (Executed(true, room), Answered(false, room));
    var w := Next(Start(s), d, lost);
    assert w.state.delegation == Some(d) && w.flow == Preparing(1, true);
    assert Drive(Start(s), d, [lost, refused]) == Next(w, d, refused) by {
      assert [lost, refused][1..] == [refused] && [refused][1..] == [];
      assert Drive(w, d, [refused]) == Drive(Next(w, d, refused), d, []);
    }
    var b := d.briefs[0];
    assert b.key in NewKeys(s.rows, d.briefs, 1) && (b.key, 1) in Slots(NewKeys(s.rows, d.briefs, 1), 1);
    assert w.state.rows[(b.key, 1)].status == Queued;
    ReportsExactly(s, d, [lost, refused]);
  }
}
