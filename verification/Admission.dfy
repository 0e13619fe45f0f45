/**
 Admission of child executions: `_prepare` of src/agent_activities/delegation.py and
 `admit_in_uow` of src/agent_activities/capabilities.py count the active ones under an
 advisory lock, and every other transaction only ends them.
 */
module Admission {
  import opened Base
  import opened LeasePlane

  type Account(==, !new) = nat

  /** `CapacityConfig` */
  datatype Limits = Limits(subagents: nat, accountSubagents: nat, capabilities: nat, accountCapabilities: nat)

  /** The tables, with the account of each run and the parent of each child execution. */
  datatype Fleet = Fleet(tables: Tables, account: map<RunId, Account>, parent: map<ExecutionId, ExecutionId>)

  predicate Active(x: Execution, role: Role) { x.role == role && !x.status.Terminal() }

  /** `count(*) ... WHERE role=... AND status IN ('queued','running','cancelling')` */
  function ActiveOf(f: Fleet, role: Role): set<ExecutionId> {
    set e | e in f.tables.executions && Active(f.tables.executions[e], role)
  }

  function ActiveIn(f: Fleet, role: Role, a: Account): set<ExecutionId> {
    set e | e in ActiveOf(f, role) && f.tables.executions[e].run in f.account && f.account[f.tables.executions[e].run] == a
  }

  function ActiveUnder(f: Fleet, role: Role, p: ExecutionId): set<ExecutionId> {
    set e | e in ActiveOf(f, role) && e in f.parent && f.parent[e] == p
  }

  // ------------------------------------------------------------ transactions

  function Insert(f: Fleet, run: RunId, role: Role, p: ExecutionId, ids: set<ExecutionId>): Fleet {
    f.(tables := f.tables.(executions := f.tables.executions + map e | e in ids :: Execution(run, role, Queued)),
       parent := f.parent + map e | e in ids :: p)
  }

  /** The new branches of one delegation round; `admitted` stands for scope and budget headroom. */
  function AdmitBranches(f: Fleet, limits: Limits, run: RunId, p: ExecutionId, ids: set<ExecutionId>, admitted: bool)
    : (Outcome<Unit>, Fleet)
  {
    if run !in f.account || !admitted || ids * f.tables.executions.Keys != {} then (Err(Rejected), f)
    else if |ids| > 0 && (|ActiveOf(f, Subagent)| + |ids| > limits.subagents
                          || |ActiveIn(f, Subagent, f.account[run])| + |ids| > limits.accountSubagents)
    then (Err(Rejected), f)
    else (Ok(Unit), Insert(f, run, Subagent, p, ids))
  }

  /** One new capability invocation and its execution. */
  function AdmitCapability(f: Fleet, limits: Limits, run: RunId, p: ExecutionId, id: ExecutionId, admitted: bool)
    : (Outcome<Unit>, Fleet)
  {
    if run !in f.account || !admitted || id in f.tables.executions then (Err(Rejected), f)
    else if ActiveUnder(f, Role.Capability, p) != {}
            || |ActiveOf(f, Role.Capability)| >= limits.capabilities
            || |ActiveIn(f, Role.Capability, f.account[run])| >= limits.accountCapabilities
    then (Err(Rejected), f)
    else (Ok(Unit), Insert(f, run, Role.Capability, p, {id}))
  }

  datatype FleetStep =
    | Branches(run: RunId, parent: ExecutionId, ids: set<ExecutionId>, admitted: bool)
    | Invoke(run: RunId, parent: ExecutionId, id: ExecutionId, admitted: bool)
    | Plane(step: Step)                       // any lease, wait, status or closing transaction
    | Register(run: RunId, account: Account)  // a run's account never changes

  /** Child executions are inserted by admission alone. */
  predicate OnlyRoots(step: Step) { step.DoInsertExecution? ==> step.role == Root }

  function FleetNext(f: Fleet, limits: Limits, ttl: nat, step: FleetStep): Fleet {
    match step
    case Branches(run, p, ids, admitted) => AdmitBranches(f, limits, run, p, ids, admitted).1
    case Invoke(run, p, id, admitted) => AdmitCapability(f, limits, run, p, id, admitted).1
    case Plane(s) => if OnlyRoots(s) then f.(tables := Next(f.tables, ttl, s)) else f
    case Register(run, a) => if run in f.account then f else f.(account := f.account[run := a])
  }

  function FleetExecute(f: Fleet, limits: Limits, ttl: nat, steps: seq<FleetStep>): Fleet
    decreases |steps|
  {
    if steps == [] then f else FleetExecute(FleetNext(f, limits, ttl, steps[0]), limits, ttl, steps[1..])
  }

  // -------------------------------------------------------------- invariants

  ghost predicate WithinLimits(f: Fleet, limits: Limits) {
    && |ActiveOf(f, Subagent)| <= limits.subagents
    && |ActiveOf(f, Role.Capability)| <= limits.capabilities
    && (forall a: Account :: |ActiveIn(f, Subagent, a)| <= limits.accountSubagents
                             && |ActiveIn(f, Role.Capability, a)| <= limits.accountCapabilities)
    && (forall p: ExecutionId :: |ActiveUnder(f, Role.Capability, p)| <= 1)
  }

  /** Every child execution has an account. */
  ghost predicate Accounted(f: Fleet) {
    forall e <- f.tables.executions :: f.tables.executions[e].role != Root ==> f.tables.executions[e].run in f.account
  }

  /** Where runs begin: with their roots alone. */
  lemma {:induction false} RootsAloneAreWithin(f: Fleet, limits: Limits)
    requires forall e <- f.tables.executions :: f.tables.executions[e].role == Root
    ensures WithinLimits(f, limits) && Accounted(f)
  {
    assert ActiveOf(f, Subagent) == {} && ActiveOf(f, Role.Capability) == {};
    forall a: Account
      ensures ActiveIn(f, Subagent, a) == {} && ActiveIn(f, Role.Capability, a) == {}
    {
    }
    forall p: ExecutionId
      ensures ActiveUnder(f, Role.Capability, p) == {}
    {
    }
  }

  /** What the other transactions do to a child: it stays the same execution, and a terminal one stays terminal. */
  lemma {:induction false} PlaneOnlyEnds(s: Tables, ttl: nat, step: Step, e: ExecutionId, role: Role)
    requires OnlyRoots(step) && role != Root
    requires e in Next(s, ttl, step).executions && Active(Next(s, ttl, step).executions[e], role)
    ensures e in s.executions && Active(s.executions[e], role)
    ensures Next(s, ttl, step).executions[e].run == s.executions[e].run
  {
  }

  lemma {:induction false} PlaneKeepsLimits(f: Fleet, limits: Limits, ttl: nat, step: Step)
    requires WithinLimits(f, limits) && OnlyRoots(step)
    ensures WithinLimits(f.(tables := Next(f.tables, ttl, step)), limits)
  {
    var g := f.(tables := Next(f.tables, ttl, step));
    forall role: Role, e | role != Root && e in ActiveOf(g, role)
      ensures e in ActiveOf(f, role) && g.tables.executions[e].run == f.tables.executions[e].run
    {
      PlaneOnlyEnds(f.tables, ttl, step, e, role);
    }
    Fewer(ActiveOf(g, Subagent), ActiveOf(f, Subagent));
    Fewer(ActiveOf(g, Role.Capability), ActiveOf(f, Role.Capability));
    forall a: Account
      ensures |ActiveIn(g, Subagent, a)| <= limits.accountSubagents
      ensures |ActiveIn(g, Role.Capability, a)| <= limits.accountCapabilities
    {
      Fewer(ActiveIn(g, Subagent, a), ActiveIn(f, Subagent, a));
      Fewer(ActiveIn(g, Role.Capability, a), ActiveIn(f, Role.Capability, a));
    }
    forall p: ExecutionId
      ensures |ActiveUnder(g, Role.Capability, p)| <= 1
    {
      Fewer(ActiveUnder(g, Role.Capability, p), ActiveUnder(f, Role.Capability, p));
    }
  }

  lemma {:induction false} Inserted(f: Fleet, run: RunId, role: Role, p: ExecutionId, ids: set<ExecutionId>, e: ExecutionId)
    requires ids * f.tables.executions.Keys == {}
    ensures var g := Insert(f, run, role, p, ids);
      if e in ids then
        && e !in f.tables.executions && e in g.tables.executions
        && g.tables.executions[e] == Execution(run, role, Queued) && e in g.parent && g.parent[e] == p
      else
        && (e in g.tables.executions <==> e in f.tables.executions)
        && (e in f.tables.executions ==> g.tables.executions[e] == f.tables.executions[e])
        && (e in g.parent <==> e in f.parent) && (e in f.parent ==> g.parent[e] == f.parent[e])
  {
    assert e in ids && e in f.tables.executions ==> e in ids * f.tables.executions.Keys;
  }

  lemma {:induction false} InsertAdds(f: Fleet, run: RunId, role: Role, p: ExecutionId, ids: set<ExecutionId>, of: Role)
    requires ids * f.tables.executions.Keys == {}
    ensures ActiveOf(Insert(f, run, role, p, ids), of) == ActiveOf(f, of) + if of == role then ids else {}
  {
    forall e { Inserted(f, run, role, p, ids, e); }
  }

  lemma {:induction false} InsertAddsIn(f: Fleet, run: RunId, role: Role, p: ExecutionId, ids: set<ExecutionId>, of: Role, a: Account)
    requires ids * f.tables.executions.Keys == {} && run in f.account
    ensures ActiveIn(Insert(f, run, role, p, ids), of, a)
         == ActiveIn(f, of, a) + if of == role && f.account[run] == a then ids else {}
  {
    InsertAdds(f, run, role, p, ids, of);
    forall e { Inserted(f, run, role, p, ids, e); }
  }

  lemma {:induction false} InsertAddsUnder(f: Fleet, run: RunId, role: Role, p: ExecutionId, ids: set<ExecutionId>, of: Role, q: ExecutionId)
    requires ids * f.tables.executions.Keys == {}
    ensures ActiveUnder(Insert(f, run, role, p, ids), of, q)
         == ActiveUnder(f, of, q) + if of == role && q == p then ids else {}
  {
    InsertAdds(f, run, role, p, ids, of);
    forall e { Inserted(f, run, role, p, ids, e); }
  }

  lemma {:induction false} BranchesKeepLimits(f: Fleet, limits: Limits, run: RunId, p: ExecutionId, ids: set<ExecutionId>)
    requires WithinLimits(f, limits) && run in f.account && ids * f.tables.executions.Keys == {}
    requires ids != {} ==>
      && |ActiveOf(f, Subagent)| + |ids| <= limits.subagents
      && |ActiveIn(f, Subagent, f.account[run])| + |ids| <= limits.accountSubagents
    ensures WithinLimits(Insert(f, run, Subagent, p, ids), limits)
  {
    var g := Insert(f, run, Subagent, p, ids);
    InsertAdds(f, run, Subagent, p, ids, Subagent);
    InsertAdds(f, run, Subagent, p, ids, Role.Capability);
    forall a: Account
      ensures |ActiveIn(g, Subagent, a)| <= limits.accountSubagents
      ensures |ActiveIn(g, Role.Capability, a)| <= limits.accountCapabilities
    {
      InsertAddsIn(f, run, Subagent, p, ids, Subagent, a);
      InsertAddsIn(f, run, Subagent, p, ids, Role.Capability, a);
    }
    forall q: ExecutionId
      ensures |ActiveUnder(g, Role.Capability, q)| <= 1
    {
      InsertAddsUnder(f, run, Subagent, p, ids, Role.Capability, q);
    }
  }

  lemma {:induction false} InvokeKeepsLimits(f: Fleet, limits: Limits, run: RunId, p: ExecutionId, id: ExecutionId, admitted: bool)
    requires WithinLimits(f, limits) && AdmitCapability(f, limits, run, p, id, admitted).0.Ok?
    ensures WithinLimits(AdmitCapability(f, limits, run, p, id, admitted).1, limits)
  {
    var g := Insert(f, run, Role.Capability, p, {id});
    InsertAdds(f, run, Role.Capability, p, {id}, Subagent);
    InsertAdds(f, run, Role.Capability, p, {id}, Role.Capability);
    forall a: Account
      ensures |ActiveIn(g, Subagent, a)| <= limits.accountSubagents
      ensures |ActiveIn(g, Role.Capability, a)| <= limits.accountCapabilities
    {
      InsertAddsIn(f, run, Role.Capability, p, {id}, Subagent, a);
      InsertAddsIn(f, run, Role.Capability, p, {id}, Role.Capability, a);
    }
    forall q: ExecutionId
      ensures |ActiveUnder(g, Role.Capability, q)| <= 1
    {
      InsertAddsUnder(f, run, Role.Capability, p, {id}, Role.Capability, q);
    }
  }

  lemma {:induction false} RegisterKeepsLimits(f: Fleet, limits: Limits, run: RunId, a: Account)
    requires WithinLimits(f, limits) && Accounted(f) && run !in f.account
    ensures WithinLimits(f.(account := f.account[run := a]), limits)
  {
    var g := f.(account := f.account[run := a]);
    assert ActiveOf(g, Subagent) == ActiveOf(f, Subagent) && ActiveOf(g, Role.Capability) == ActiveOf(f, Role.Capability);
    forall b: Account
      ensures ActiveIn(g, Subagent, b) == ActiveIn(f, Subagent, b)
      ensures ActiveIn(g, Role.Capability, b) == ActiveIn(f, Role.Capability, b)
    {
    }
    forall q: ExecutionId
      ensures ActiveUnder(g, Role.Capability, q) == ActiveUnder(f, Role.Capability, q)
    {
    }
  }

  /** Rows of children keep their run and role, and a terminal one does not change at all. */
  lemma {:induction false} PlaneKeepsChild(s: Tables, ttl: nat, step: Step, e: ExecutionId)
    requires e in s.executions && s.executions[e].role != Root
    ensures var later := Next(s, ttl, step).executions;
      && e in later && later[e].run == s.executions[e].run && later[e].role == s.executions[e].role
      && (s.executions[e].status.Terminal() ==> later[e] == s.executions[e])
  {
  }

  lemma {:induction false} InsertKeepsAccounted(f: Fleet, run: RunId, role: Role, p: ExecutionId, ids: set<ExecutionId>)
    requires Accounted(f) && run in f.account && ids * f.tables.executions.Keys == {}
    ensures Accounted(Insert(f, run, role, p, ids))
  {
    forall e { Inserted(f, run, role, p, ids, e); }
  }

  lemma {:induction false} PlaneKeepsRun(s: Tables, ttl: nat, step: Step, e: ExecutionId)
    requires OnlyRoots(step) && e in Next(s, ttl, step).executions && Next(s, ttl, step).executions[e].role != Root
    ensures e in s.executions && s.executions[e].role != Root && Next(s, ttl, step).executions[e].run == s.executions[e].run
  {
  }

  lemma {:induction false} StepKeepsAccounted(f: Fleet, limits: Limits, ttl: nat, step: FleetStep)
    requires Accounted(f)
    ensures Accounted(FleetNext(f, limits, ttl, step))
  {
    match step
    case Branches(run, p, ids, admitted) =>
      if AdmitBranches(f, limits, run, p, ids, admitted).0.Ok? {
        InsertKeepsAccounted(f, run, Subagent, p, ids);
      }
    case Invoke(run, p, id, admitted) =>
      if AdmitCapability(f, limits, run, p, id, admitted).0.Ok? {
        InsertKeepsAccounted(f, run, Role.Capability, p, {id});
      }
    case Plane(s) =>
      if OnlyRoots(s) {
        var later := Next(f.tables, ttl, s).executions;
        forall e | e in later && later[e].role != Root
          ensures later[e].run in f.account
        {
          PlaneKeepsRun(f.tables, ttl, s, e);
        }
      }
    case Register(_, _) =>
  }

  lemma {:induction false} StepKeepsLimits(f: Fleet, limits: Limits, ttl: nat, step: FleetStep)
    requires WithinLimits(f, limits) && Accounted(f)
    ensures WithinLimits(FleetNext(f, limits, ttl, step), limits)
  {
    match step
    case Branches(run, p, ids, admitted) =>
      if AdmitBranches(f, limits, run, p, ids, admitted).0.Ok? {
        BranchesKeepLimits(f, limits, run, p, ids);
      }
    case Invoke(run, p, id, admitted) =>
      if AdmitCapability(f, limits, run, p, id, admitted).0.Ok? {
        InvokeKeepsLimits(f, limits, run, p, id, admitted);
      }
    case Plane(s) =>
      if OnlyRoots(s) {
        PlaneKeepsLimits(f, limits, ttl, s);
      }
    case Register(run, a) =>
      if run !in f.account {
        RegisterKeepsLimits(f, limits, run, a);
      }
  }

  /**
   Over every interleaving of admissions with lease, wait, status and closing transactions,
   active subagents and capability executions stay within the global and the per-account
   limits, and no parent has two active capability executions.
   */
  lemma {:induction false} AdmissionIsBounded(f: Fleet, limits: Limits, ttl: nat, steps: seq<FleetStep>)
    requires WithinLimits(f, limits) && Accounted(f)
    ensures WithinLimits(FleetExecute(f, limits, ttl, steps), limits)
    decreases |steps|
  {
    if steps != [] {
      StepKeepsLimits(f, limits, ttl, steps[0]);
      StepKeepsAccounted(f, limits, ttl, steps[0]);
      AdmissionIsBounded(FleetNext(f, limits, ttl, steps[0]), limits, ttl, steps[1..]);
    }
  }

  /** A child execution that ended stays as it ended: no acquisition or run status revives it. */
  lemma {:induction false} EndedStaysEnded(f: Fleet, limits: Limits, ttl: nat, steps: seq<FleetStep>, e: ExecutionId)
    requires e in f.tables.executions && f.tables.executions[e].role != Root && f.tables.executions[e].status.Terminal()
    ensures var later := FleetExecute(f, limits, ttl, steps).tables.executions;
      e in later && later[e] == f.tables.executions[e]
    decreases |steps|
  {
    if steps != [] {
      var g := FleetNext(f, limits, ttl, steps[0]);
      EndedStepStays(f, limits, ttl, steps[0], e);
      EndedStaysEnded(g, limits, ttl, steps[1..], e);
    }
  }

  lemma {:induction false} EndedStepStays(f: Fleet, limits: Limits, ttl: nat, step: FleetStep, e: ExecutionId)
    requires e in f.tables.executions && f.tables.executions[e].role != Root && f.tables.executions[e].status.Terminal()
    ensures var later := FleetNext(f, limits, ttl, step).tables.executions;
      e in later && later[e] == f.tables.executions[e]
  {
    match step
    case Branches(run, p, ids, admitted) =>
      if ids * f.tables.executions.Keys == {} {
        Inserted(f, run, Subagent, p, ids, e);
      }
    case Invoke(run, p, id, admitted) =>
      if id !in f.tables.executions {
        Inserted(f, run, Role.Capability, p, {id}, e);
      }
    case Plane(s) => PlaneKeepsChild(f.tables, ttl, s, e);
    case Register(_, _) =>
  }
}
