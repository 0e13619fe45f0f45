/** What every order of registrations, challenges and consolidations keeps. */
module IdentityRuns {
  import opened Base
  import opened IdentityTables

  // -------------------------------------------------------------- invariant

  predicate SameSubject(a: Binding, b: Binding) {
    a.active && b.active && a.provider == b.provider && a.subject == b.subject
  }

  predicate SameSlot(a: Binding, b: Binding) {
    a.active && b.active && a.provider == b.provider && a.account == b.account
  }

  /** uq_identity_bindings__active_subject. */
  predicate SubjectsDiffer(bindings: seq<Binding>) {
    forall i, j :: 0 <= i < j < |bindings| ==> !SameSubject(bindings[i], bindings[j])
  }

  /** At most one active identity of each provider per account. */
  predicate OneOfEach(bindings: seq<Binding>) {
    forall i, j :: 0 <= i < j < |bindings| ==> !SameSlot(bindings[i], bindings[j])
  }

  predicate BindingsPlaced(m: Identity) {
    forall i :: 0 <= i < |m.bindings| ==> m.bindings[i].account < |m.accounts|
  }

  /** The composite foreign key of web_auth_sessions. */
  predicate SessionsPlaced(m: Identity) {
    forall i :: 0 <= i < |m.sessions| ==>
      m.sessions[i].binding < |m.bindings| && m.sessions[i].account == m.bindings[m.sessions[i].binding].account
  }

  predicate ChallengesPlaced(m: Identity) {
    forall c <- m.challenges :: m.challenges[c].account < |m.accounts|
  }

  predicate BothPending(a: Challenge, b: Challenge) {
    a.status == Pending && b.status == Pending && a.account == b.account
  }

  /** The partial unique index on pending challenges. */
  predicate OnePending(challenges: map<Code, Challenge>) {
    forall c, d :: c in challenges && d in challenges && BothPending(challenges[c], challenges[d]) ==> c == d
  }

  /** A completed challenge names a bound subject. */
  predicate Answered(m: Identity) {
    forall c <- m.challenges :: m.challenges[c].status == Completed ==>
      m.challenges[c].subject.Some? && Find(m.bindings, QQ, m.challenges[c].subject.value).Some?
  }

  predicate Empty(m: Identity, account: AccountId) {
    && account < |m.accounts| && !m.accounts[account].active
    && forall i :: 0 <= i < |m.bindings| ==> m.bindings[i].account != account
  }

  predicate Whole(m: Identity, account: AccountId) {
    account < |m.accounts| && Has(m.bindings, account, Web) && Has(m.bindings, account, QQ)
  }

  /** A merged account is empty, and where it went was not merged itself. */
  predicate MergesSettled(m: Identity) {
    forall a <- m.merges :: Empty(m, a) && Whole(m, m.merges[a]) && m.merges[a] !in m.merges
  }

  function Provisioned(accounts: seq<Account>, invite: InviteId): nat {
    if accounts == [] then 0
    else Provisioned(accounts[..|accounts| - 1], invite) + if accounts[|accounts| - 1].invite == Some(invite) then 1 else 0
  }

  predicate InvitesCounted(m: Identity) {
    && (forall i :: 0 <= i < |m.invites| ==>
          m.invites[i].redeemed == Provisioned(m.accounts, i) && m.invites[i].redeemed <= m.invites[i].max)
    && (forall a :: 0 <= a < |m.accounts| && m.accounts[a].invite.Some? ==> m.accounts[a].invite.value < |m.invites|)
  }

  predicate Inv(m: Identity) {
    && SubjectsDiffer(m.bindings) && OneOfEach(m.bindings)
    && BindingsPlaced(m) && SessionsPlaced(m) && ChallengesPlaced(m)
    && OnePending(m.challenges) && Answered(m) && MergesSettled(m) && InvitesCounted(m)
  }

  // ---------------------------------------------------------------- history

  /** Where what an account held is now. */
  function Now(m: Identity, account: AccountId): AccountId {
    if account in m.merges then m.merges[account] else account
  }

  predicate BindingsFollow(m: Identity, m': Identity) {
    && |m.bindings| <= |m'.bindings|
    && forall i :: 0 <= i < |m.bindings| ==> m'.bindings[i] == m.bindings[i].(account := Now(m', m.bindings[i].account))
  }

  predicate SessionsFollow(m: Identity, m': Identity) {
    && |m.sessions| <= |m'.sessions|
    && forall i :: 0 <= i < |m.sessions| ==>
         m'.sessions[i] == Session(Now(m', m.sessions[i].account), m.sessions[i].binding)
  }

  predicate CodesFollow(m: Identity, m': Identity) {
    forall c <- m.challenges :: m.challenges[c].status == Completed ==>
      c in m'.challenges && m'.challenges[c] == m.challenges[c]
  }

  predicate MergesFollow(m: Identity, m': Identity) {
    forall a <- m.merges :: a in m'.merges && m'.merges[a] == m.merges[a]
  }

  predicate Follows(m: Identity, m': Identity) {
    BindingsFollow(m, m') && SessionsFollow(m, m') && CodesFollow(m, m') && MergesFollow(m, m')
  }

  // ------------------------------------------------------------------- runs

  datatype Event =
    | Join(subject: string, password: nat, invite: Option<InviteId>, now: nat)
    | Ask(account: AccountId, draws: seq<(Code, nat)>)
    | Answer(code: Code, sender: Option<string>, now: nat)
    | SignIn(binding: BindingId)
    | Use(account: AccountId)
    | AddInvite(max: nat, expires: Option<nat>)

  function Apply(m: Identity, e: Event): Identity {
    match e
    case Join(subject, password, invite, now) => Register(m, subject, password, invite, now).1
    case Ask(account, draws) => Open(m, account, draws).1
    case Answer(code, sender, now) => Consume(m, code, sender, now).1
    case SignIn(binding) =>
      if binding < |m.bindings| then m.(sessions := m.sessions + [Session(m.bindings[binding].account, binding)]) else m
    case Use(account) =>
      if account < |m.accounts| then m.(accounts := m.accounts[account := m.accounts[account].(data := true)]) else m
    case AddInvite(max, expires) => if max == 0 then m else m.(invites := m.invites + [Invite(max, 0, expires, false)])
  }

  function Run(m: Identity, events: seq<Event>): Identity
    decreases |events|
  {
    if events == [] then m else Run(Apply(m, events[0]), events[1..])
  }

  // --------------------------------------------------------------- bindings

  lemma {:induction false} HasMore(bindings: seq<Binding>, extra: Binding, account: AccountId, provider: Provider)
    requires Has(bindings, account, provider)
    ensures Has(bindings + [extra], account, provider)
  {
    var i :| 0 <= i < |bindings| && Serves(bindings[i], account, provider);
    assert Serves((bindings + [extra])[i], account, provider);
  }

  /** An insert that the checks allow. */
  predicate Insertable(bindings: seq<Binding>, extra: Binding) {
    && Find(bindings, extra.provider, extra.subject).None?
    && !Has(bindings, extra.account, extra.provider)
  }

  lemma {:induction false} InsertKeepsIdentities(bindings: seq<Binding>, extra: Binding)
    requires SubjectsDiffer(bindings) && OneOfEach(bindings) && Insertable(bindings, extra)
    ensures SubjectsDiffer(bindings + [extra]) && OneOfEach(bindings + [extra])
  {
    forall i | 0 <= i < |bindings| && bindings[i].active && bindings[i].provider == extra.provider
      ensures bindings[i].subject != extra.subject && bindings[i].account != extra.account
    {
      assert !Matches(bindings[i], extra.provider, extra.subject) && !Serves(bindings[i], extra.account, extra.provider);
    }
  }

  /** Nothing is held by, or signed in to, a merged account. */
  lemma {:induction false} SelfFollows(m: Identity)
    requires Inv(m)
    ensures Follows(m, m)
  {
    forall i | 0 <= i < |m.bindings|
      ensures Now(m, m.bindings[i].account) == m.bindings[i].account
    {
      assert m.bindings[i].account in m.merges ==> Empty(m, m.bindings[i].account);
    }
  }

  /** A new binding at an account that was not merged away. */
  predicate Inserted(m: Identity, extra: Binding, m': Identity) {
    && m'.bindings == m.bindings + [extra] && m'.sessions == m.sessions && m'.merges == m.merges
    && extra.account < |m'.accounts| && extra.account !in m.merges
    && |m.accounts| <= |m'.accounts| && forall a :: 0 <= a < |m.accounts| ==> m'.accounts[a] == m.accounts[a]
  }

  lemma {:induction false} InsertKeepsMerges(m: Identity, extra: Binding, m': Identity)
    requires MergesSettled(m) && Inserted(m, extra, m')
    ensures MergesSettled(m')
  {
    forall a | a in m'.merges
      ensures Empty(m', a) && Whole(m', m'.merges[a]) && m'.merges[a] !in m'.merges
    {
      assert Empty(m, a) && Whole(m, m.merges[a]);
      HasMore(m.bindings, extra, m.merges[a], Web);
      HasMore(m.bindings, extra, m.merges[a], QQ);
    }
  }

  lemma {:induction false} InsertKeepsTables(m: Identity, extra: Binding, m': Identity)
    requires Inv(m) && Inserted(m, extra, m')
    ensures BindingsPlaced(m') && SessionsPlaced(m') && MergesSettled(m')
    ensures BindingsFollow(m, m') && SessionsFollow(m, m') && MergesFollow(m, m')
  {
    InsertKeepsMerges(m, extra, m');
    SelfFollows(m);
  }

  // ------------------------------------------------------------ registration

  /** Changing other columns of an account leaves the count alone. */
  lemma {:induction false} ProvisionedAlike(before: seq<Account>, after: seq<Account>, invite: InviteId)
    requires |before| == |after| && forall a :: 0 <= a < |before| ==> before[a].invite == after[a].invite
    ensures Provisioned(before, invite) == Provisioned(after, invite)
  {
    if before != [] {
      ProvisionedAlike(before[..|before| - 1], after[..|after| - 1], invite);
    }
  }

  lemma {:induction false} NobodyYet(accounts: seq<Account>, invite: InviteId)
    requires forall a :: 0 <= a < |accounts| && accounts[a].invite.Some? ==> accounts[a].invite.value < invite
    ensures Provisioned(accounts, invite) == 0
  {
    if accounts != [] {
      NobodyYet(accounts[..|accounts| - 1], invite);
    }
  }

  lemma {:induction false} RegisterKeeps(m: Identity, subject: string, password: nat, invite: Option<InviteId>, now: nat)
    requires Inv(m)
    ensures var m' := Register(m, subject, password, invite, now).1;
      Inv(m') && Follows(m, m')
  {
    var (reply, m') := Register(m, subject, password, invite, now);
    if reply.Registered? {
      var extra := Binding(|m.accounts|, Web, subject, true, true);
      InsertKeepsIdentities(m.bindings, extra);
      InsertKeepsTables(m, extra, m');
    } else {
      SelfFollows(m);
    }
  }

  // -------------------------------------------------------------- challenges

  lemma {:induction false} OpenKeeps(m: Identity, account: AccountId, draws: seq<(Code, nat)>)
    requires Inv(m)
    ensures var m' := Open(m, account, draws).1;
      Inv(m') && Follows(m, m')
    decreases |draws|
  {
    SelfFollows(m);
    if draws != [] && IsActive(m.accounts, account) {
      if draws[0].0 in m.challenges {
        OpenKeeps(m, account, draws[1..]);
      } else {
        OnlyChallenges(m, Open(m, account, draws).1);
      }
    }
  }

  /** A step that touches challenges only, and completes or forgets no completed one. */
  lemma {:induction false} OnlyChallenges(m: Identity, m': Identity)
    requires Inv(m) && m' == m.(challenges := m'.challenges)
    requires ChallengesPlaced(m') && OnePending(m'.challenges) && CodesFollow(m, m')
    requires forall c <- m'.challenges :: m'.challenges[c].status == Completed ==> c in m.challenges && m.challenges[c] == m'.challenges[c]
    ensures Inv(m') && Follows(m, m')
  {
    SelfFollows(m);
    assert MergesSettled(m') by {
      forall a | a in m'.merges
        ensures Empty(m', a) && Whole(m', m'.merges[a]) && m'.merges[a] !in m'.merges
      {
        assert Empty(m, a) && Whole(m, m.merges[a]);
      }
    }
  }

  /** Completing a challenge whose subject is bound. */
  lemma {:induction false} CompleteKeeps(m: Identity, code: Code, subject: string)
    requires Inv(m) && code in m.challenges && m.challenges[code].status == Pending
    requires Find(m.bindings, QQ, subject).Some?
    ensures Inv(Complete(m, code, subject)) && Follows(m, Complete(m, code, subject))
  {
    var m' := Complete(m, code, subject);
    SelfFollows(m);
    assert MergesSettled(m') by {
      forall a | a in m'.merges
        ensures Empty(m', a) && Whole(m', m'.merges[a]) && m'.merges[a] !in m'.merges
      {
        assert Empty(m, a) && Whole(m, m.merges[a]);
      }
    }
  }

  // ------------------------------------------------------------ consolidation

  /** The checks of a consolidation. */
  predicate Consolidates(m: Identity, source: AccountId, target: AccountId, code: Code) {
    && code in m.challenges && m.challenges[code].status == Pending && m.challenges[code].account == source
    && IsActive(m.accounts, source) && IsActive(m.accounts, target) && source != target
    && Mergeable(m, source, target) && Has(m.bindings, target, QQ) && !HasPending(m.challenges, target)
  }

  lemma {:induction false} MergeKeepsIdentities(m: Identity, source: AccountId, target: AccountId, code: Code)
    requires Inv(m) && Consolidates(m, source, target, code)
    ensures var m' := Merge(m, source, target, code);
      SubjectsDiffer(m'.bindings) && OneOfEach(m'.bindings) && BindingsPlaced(m')
  {
    var m' := Merge(m, source, target, code);
    forall i, j | 0 <= i < j < |m'.bindings|
      ensures !SameSubject(m'.bindings[i], m'.bindings[j]) && !SameSlot(m'.bindings[i], m'.bindings[j])
    {
      assert !SameSubject(m.bindings[i], m.bindings[j]) && !SameSlot(m.bindings[i], m.bindings[j]);
      assert !Serves(m.bindings[i], target, Web) && !Serves(m.bindings[j], target, Web);
    }
  }

  lemma {:induction false} MergeMovesSessions(m: Identity, source: AccountId, target: AccountId, code: Code)
    requires Inv(m) && Consolidates(m, source, target, code)
    ensures var m' := Merge(m, source, target, code);
      SessionsPlaced(m') && SessionsFollow(m, m')
  {
    var m' := Merge(m, source, target, code);
    SelfFollows(m);
    forall i | 0 <= i < |m.sessions|
      ensures m'.sessions[i] == Session(Now(m', m.sessions[i].account), m.sessions[i].binding)
      ensures m'.sessions[i].account == m'.bindings[m'.sessions[i].binding].account
    {
      assert m.sessions[i].account == m.bindings[m.sessions[i].binding].account;
      assert Now(m, m.sessions[i].account) == m.sessions[i].account;
    }
  }

  lemma {:induction false} MergeKeepsChallenges(m: Identity, source: AccountId, target: AccountId, code: Code)
    requires Inv(m) && Consolidates(m, source, target, code)
    ensures var m' := Merge(m, source, target, code);
      && ChallengesPlaced(m') && OnePending(m'.challenges) && CodesFollow(m, m')
      && code in m'.challenges && m'.challenges[code].status == Pending
  {
    var m' := Merge(m, source, target, code);
    forall c, d | c in m'.challenges && d in m'.challenges && BothPending(m'.challenges[c], m'.challenges[d])
      ensures c == d
    {
      if c != code && d != code {
        assert BothPending(m.challenges[c], m.challenges[d]);
      } else {
        assert !HasPending(m.challenges, target);
      }
    }
  }

  /** A binding that is not the moved one still serves. */
  lemma {:induction false} HasStill(m: Identity, source: AccountId, target: AccountId, code: Code, account: AccountId, provider: Provider)
    requires Consolidates(m, source, target, code) && Has(m.bindings, account, provider) && account != source
    ensures Has(Merge(m, source, target, code).bindings, account, provider)
  {
    var i :| 0 <= i < |m.bindings| && Serves(m.bindings[i], account, provider);
    assert Serves(Merge(m, source, target, code).bindings[i], account, provider);
  }

  /** An account that took in another holds two bindings, so it is no source itself. */
  lemma {:induction false} TargetsAreNoSources(m: Identity, source: AccountId, target: AccountId, code: Code)
    requires Consolidates(m, source, target, code)
    ensures !Whole(m, source)
  {
    var b := OnlyWeb(m, source).value;
    forall i | 0 <= i < |m.bindings|
      ensures !Serves(m.bindings[i], source, QQ)
    {
      assert m.bindings[i].account == source ==> i == b;
    }
  }

  lemma {:induction false} TargetIsWhole(m: Identity, source: AccountId, target: AccountId, code: Code)
    requires Inv(m) && Consolidates(m, source, target, code)
    ensures var m' := Merge(m, source, target, code);
      Whole(m', target) && Empty(m', source) && target !in m'.merges
  {
    var m' := Merge(m, source, target, code);
    assert target in m.merges ==> Empty(m, target);
    assert Serves(m'.bindings[OnlyWeb(m, source).value], target, Web);
    HasStill(m, source, target, code, target, QQ);
  }

  lemma {:induction false} EarlierMergeStays(m: Identity, source: AccountId, target: AccountId, code: Code, a: AccountId)
    requires Inv(m) && Consolidates(m, source, target, code) && a in m.merges
    ensures var m' := Merge(m, source, target, code);
      a != source && m.merges[a] != source && Empty(m', a) && Whole(m', m.merges[a])
  {
    assert Empty(m, a) && Whole(m, m.merges[a]);
    TargetsAreNoSources(m, source, target, code);
    HasStill(m, source, target, code, m.merges[a], Web);
    HasStill(m, source, target, code, m.merges[a], QQ);
  }

  lemma {:induction false} MergeKeepsMerges(m: Identity, source: AccountId, target: AccountId, code: Code)
    requires Inv(m) && Consolidates(m, source, target, code)
    ensures var m' := Merge(m, source, target, code);
      MergesSettled(m') && MergesFollow(m, m')
  {
    var m' := Merge(m, source, target, code);
    TargetIsWhole(m, source, target, code);
    forall a | a in m.merges
      ensures a != source && Empty(m', a) && Whole(m', m'.merges[a]) && m'.merges[a] !in m'.merges
    {
      EarlierMergeStays(m, source, target, code, a);
    }
  }

  lemma {:induction false} MergeKeepsAnswers(m: Identity, source: AccountId, target: AccountId, code: Code, subject: string)
    requires Consolidates(m, source, target, code) && Find(m.bindings, QQ, subject).Some?
    ensures Find(Merge(m, source, target, code).bindings, QQ, subject).Some?
  {
    var i := Find(m.bindings, QQ, subject).value;
    assert Matches(Merge(m, source, target, code).bindings[i], QQ, subject);
  }

  lemma {:induction false} MergeKeeps(m: Identity, source: AccountId, target: AccountId, code: Code)
    requires Inv(m) && Consolidates(m, source, target, code)
    ensures Inv(Merge(m, source, target, code)) && Follows(m, Merge(m, source, target, code))
  {
    var m' := Merge(m, source, target, code);
    MergeKeepsIdentities(m, source, target, code);
    MergeMovesSessions(m, source, target, code);
    MergeKeepsChallenges(m, source, target, code);
    MergeKeepsMerges(m, source, target, code);
    forall c | c in m'.challenges && m'.challenges[c].status == Completed
      ensures m'.challenges[c].subject.Some? && Find(m'.bindings, QQ, m'.challenges[c].subject.value).Some?
    {
      MergeKeepsAnswers(m, source, target, code, m.challenges[c].subject.value);
    }
    forall i | 0 <= i < |m'.invites|
      ensures Provisioned(m'.accounts, i) == Provisioned(m.accounts, i)
    {
      ProvisionedAlike(m.accounts, m'.accounts, i);
    }
  }

  // ------------------------------------------------------------------- steps

  lemma {:induction false} BindKeeps(m: Identity, account: AccountId, subject: string)
    requires Inv(m) && IsActive(m.accounts, account)
    requires Find(m.bindings, QQ, subject).None? && !Has(m.bindings, account, QQ)
    ensures var m' := m.(bindings := m.bindings + [Binding(account, QQ, subject, true, false)]);
      Inv(m') && Follows(m, m') && Find(m'.bindings, QQ, subject).Some?
  {
    var extra := Binding(account, QQ, subject, true, false);
    var m' := m.(bindings := m.bindings + [extra]);
    assert account in m.merges ==> Empty(m, account);
    InsertKeepsIdentities(m.bindings, extra);
    InsertKeepsTables(m, extra, m');
    assert Matches(m'.bindings[|m.bindings|], QQ, subject);
  }

  lemma {:induction false} FollowsCompose(m: Identity, m1: Identity, m2: Identity)
    requires Follows(m, m1) && Follows(m1, m2) && MergesSettled(m2)
    ensures Follows(m, m2)
  {
    forall i | 0 <= i < |m.bindings|
      ensures m2.bindings[i] == m.bindings[i].(account := Now(m2, m.bindings[i].account))
    {
    }
    forall i | 0 <= i < |m.sessions|
      ensures m2.sessions[i] == Session(Now(m2, m.sessions[i].account), m.sessions[i].binding)
    {
    }
  }

  lemma {:induction false} PendingKeeps(m: Identity, code: Code, subject: string)
    requires Inv(m) && code in m.challenges && m.challenges[code].status == Pending
    ensures var m' := ConsumePending(m, code, subject).1;
      Inv(m') && Follows(m, m')
  {
    var (reply, m') := ConsumePending(m, code, subject);
    var source := m.challenges[code].account;
    var bound := Find(m.bindings, QQ, subject);
    if !reply.Consumed? {
      SelfFollows(m);
    } else if bound.None? {
      var inserted := m.(bindings := m.bindings + [Binding(source, QQ, subject, true, false)]);
      BindKeeps(m, source, subject);
      CompleteKeeps(inserted, code, subject);
      FollowsCompose(m, inserted, m');
    } else if m.bindings[bound.value].account == source {
      CompleteKeeps(m, code, subject);
    } else {
      var target := m.bindings[bound.value].account;
      assert Serves(m.bindings[bound.value], target, QQ);
      assert Consolidates(m, source, target, code);
      var merged := Merge(m, source, target, code);
      MergeKeeps(m, source, target, code);
      MergeKeepsChallenges(m, source, target, code);
      MergeKeepsAnswers(m, source, target, code, subject);
      CompleteKeeps(merged, code, subject);
      FollowsCompose(m, merged, m');
    }
  }

  lemma {:induction false} ConsumeKeeps(m: Identity, code: Code, subject: Option<string>, now: nat)
    requires Inv(m)
    ensures var m' := Consume(m, code, subject, now).1;
      Inv(m') && Follows(m, m')
  {
    SelfFollows(m);
    if subject.Some? && code in m.challenges && m.challenges[code].status == Pending {
      if m.challenges[code].expires <= now {
        OnlyChallenges(m, Consume(m, code, subject, now).1);
      } else {
        PendingKeeps(m, code, subject.value);
      }
    }
  }

  /** A step that leaves bindings, challenges, merges and the standing of accounts alone. */
  predicate SameIdentities(m: Identity, m': Identity) {
    && m'.bindings == m.bindings && m'.challenges == m.challenges && m'.merges == m.merges
    && |m'.accounts| == |m.accounts| && |m.sessions| <= |m'.sessions|
    && (forall a :: 0 <= a < |m.accounts| ==>
          m'.accounts[a].active == m.accounts[a].active && m'.accounts[a].invite == m.accounts[a].invite)
    && forall i :: 0 <= i < |m.sessions| ==> m'.sessions[i] == m.sessions[i]
  }

  lemma {:induction false} SameIdentitiesKeep(m: Identity, m': Identity)
    requires Inv(m) && SameIdentities(m, m') && SessionsPlaced(m') && InvitesCounted(m')
    ensures Inv(m') && Follows(m, m')
  {
    SelfFollows(m);
    forall a | a in m'.merges
      ensures Empty(m', a) && Whole(m', m'.merges[a]) && m'.merges[a] !in m'.merges
    {
      assert Empty(m, a) && Whole(m, m.merges[a]);
    }
  }

  lemma {:induction false} UseKeeps(m: Identity, account: AccountId)
    requires Inv(m)
    ensures Inv(Apply(m, Use(account))) && Follows(m, Apply(m, Use(account)))
  {
    var m' := Apply(m, Use(account));
    forall i | 0 <= i < |m'.invites|
      ensures Provisioned(m'.accounts, i) == Provisioned(m.accounts, i)
    {
      ProvisionedAlike(m.accounts, m'.accounts, i);
    }
    SameIdentitiesKeep(m, m');
  }

  lemma {:induction false} AddInviteKeeps(m: Identity, max: nat, expires: Option<nat>)
    requires Inv(m)
    ensures Inv(Apply(m, AddInvite(max, expires))) && Follows(m, Apply(m, AddInvite(max, expires)))
  {
    NobodyYet(m.accounts, |m.invites|);
    SameIdentitiesKeep(m, Apply(m, AddInvite(max, expires)));
  }

  lemma {:induction false} StepKeepsInv(m: Identity, e: Event)
    requires Inv(m)
    ensures Inv(Apply(m, e)) && Follows(m, Apply(m, e))
  {
    if e.Join? {
      RegisterKeeps(m, e.subject, e.password, e.invite, e.now);
    } else if e.Ask? {
      OpenKeeps(m, e.account, e.draws);
    } else if e.Answer? {
      ConsumeKeeps(m, e.code, e.sender, e.now);
    } else {
      if e.Use? {
        UseKeeps(m, e.account);
      } else if e.AddInvite? {
        AddInviteKeeps(m, e.max, e.expires);
      } else {
        SameIdentitiesKeep(m, Apply(m, e));
      }
    }
  }

  /**
   Over any run: the invariant holds at the end, and every binding and session of the
   start is still there, moved at most once, to where its account was merged.
   */
  lemma {:induction false} RunsConserve(m: Identity, events: seq<Event>)
    requires Inv(m)
    ensures Inv(Run(m, events)) && Follows(m, Run(m, events))
    decreases |events|
  {
    if events == [] {
      SelfFollows(m);
    } else {
      var m1 := Apply(m, events[0]);
      StepKeepsInv(m, events[0]);
      RunsConserve(m1, events[1..]);
      FollowsCompose(m, m1, Run(m, events));
    }
  }

  // ---------------------------------------------------------------- theorems

  /**
   A merged account stays empty, disabled and without sessions, and the account it went
   to keeps both identities and is never merged away itself.
   */
  lemma {:induction false} MergesAreFinal(m: Identity, source: AccountId, later: seq<Event>)
    requires Inv(m) && source in m.merges
    ensures var final := Run(m, later);
      && Empty(final, source) && Now(final, source) == m.merges[source]
      && Whole(final, m.merges[source]) && m.merges[source] !in final.merges
      && forall i :: 0 <= i < |final.sessions| ==> final.sessions[i].account != source
  {
    RunsConserve(m, later);
    assert Empty(Run(m, later), source);
  }

  /** Whoever consumes a code owns, from then on, the account it names: that account is where the sender is bound. */
  lemma {:induction false} ConsumedIsBound(m: Identity, code: Code, sender: string, now: nat)
    requires Inv(m) && Consume(m, code, Some(sender), now).0.Consumed?
    ensures var (reply, m') := Consume(m, code, Some(sender), now);
      && Find(m'.bindings, QQ, sender).Some?
      && m'.bindings[Find(m'.bindings, QQ, sender).value].account == reply.account
      && code in m'.challenges && m'.challenges[code].status == Completed && m'.challenges[code].subject == Some(sender)
  {
    var (reply, m') := Consume(m, code, Some(sender), now);
    ConsumeKeeps(m, code, Some(sender), now);
    if m.challenges[code].status == Pending {
      var bound := Find(m.bindings, QQ, sender);
      if bound.None? {
        SubjectIsUnique(m'.bindings, sender, |m.bindings|);
      } else {
        SubjectIsUnique(m'.bindings, sender, bound.value);
      }
    }
  }

  lemma {:induction false} SubjectIsUnique(bindings: seq<Binding>, sender: string, i: BindingId)
    requires SubjectsDiffer(bindings) && i < |bindings| && Matches(bindings[i], QQ, sender)
    ensures Find(bindings, QQ, sender) == Some(i)
  {
    var j := Find(bindings, QQ, sender).value;
    if i < j {
      assert SameSubject(bindings[i], bindings[j]);
    } else if j < i {
      assert SameSubject(bindings[j], bindings[i]);
    }
  }

  /** A consumed code answers the same sender with the same account at any later time, and nobody else. */
  lemma {:induction false} CompletedCodesReplay(m: Identity, code: Code, sender: string, now: nat, later: seq<Event>,
                                                again: string, when: nat)
    requires Inv(m) && Consume(m, code, Some(sender), now).0.Consumed?
    ensures var (reply, after) := Consume(m, code, Some(sender), now);
      && var final := Run(after, later);
         Consume(final, code, Some(again), when)
           == (if again == sender then Consumed(reply.account, false) else Refused(NotFound), final)
  {
    var (reply, after) := Consume(m, code, Some(sender), now);
    ConsumeKeeps(m, code, Some(sender), now);
    ConsumedIsBound(m, code, sender, now);
    RunsConserve(after, later);
    var final := Run(after, later);
    var i := Find(after.bindings, QQ, sender).value;
    SubjectIsUnique(final.bindings, sender, i);
    QqNeverMoves(after, later, i);
  }

  /** Only a Web identity ever changes account. */
  lemma {:induction false} QqNeverMoves(m: Identity, later: seq<Event>, i: BindingId)
    requires Inv(m) && i < |m.bindings| && m.bindings[i].provider == QQ
    ensures i < |Run(m, later).bindings| && Run(m, later).bindings[i] == m.bindings[i]
    decreases |later|
  {
    if later != [] {
      StepKeepsInv(m, later[0]);
      StepKeepsQq(m, later[0], i);
      QqNeverMoves(Apply(m, later[0]), later[1..], i);
    }
  }

  lemma {:induction false} StepKeepsQq(m: Identity, e: Event, i: BindingId)
    requires Inv(m) && i < |m.bindings| && m.bindings[i].provider == QQ
    ensures i < |Apply(m, e).bindings| && Apply(m, e).bindings[i] == m.bindings[i]
  {
    if e.Ask? {
      OpenTouchesOnlyChallenges(m, e.account, e.draws);
    }
  }

  /**
   A live code consolidates its account into the sender's exactly when both are active,
   the source is an empty Web account with a credential, the target has no Web identity,
   and the target has no pending challenge.
   */
  lemma {:induction false} ConsolidatesExactly(m: Identity, code: Code, sender: string, now: nat, target: AccountId)
    requires Inv(m) && code in m.challenges && m.challenges[code].status == Pending && now < m.challenges[code].expires
    requires Find(m.bindings, QQ, sender).Some? && m.bindings[Find(m.bindings, QQ, sender).value].account == target
    requires target != m.challenges[code].account
    ensures var (reply, m') := Consume(m, code, Some(sender), now);
      var source := m.challenges[code].account;
      && (Consolidates(m, source, target, code) <==> m' != m)
      && (Consolidates(m, source, target, code) ==>
            reply == Consumed(target, true) && Now(m', source) == target && Empty(m', source) && Whole(m', target))
  {
    var (reply, m') := Consume(m, code, Some(sender), now);
    var source := m.challenges[code].account;
    assert Serves(m.bindings[Find(m.bindings, QQ, sender).value], target, QQ);
    if Consolidates(m, source, target, code) {
      TargetIsWhole(m, source, target, code);
      var merged := Merge(m, source, target, code);
      assert m' == Complete(merged, code, sender);
      assert m'.challenges[code].status == Completed;
    }
  }

  /** However often an invite is used, it provisioned as many accounts as it counts, and no more than it may. */
  lemma {:induction false} InvitesAreCounted(m: Identity, events: seq<Event>, invite: InviteId)
    requires Inv(m)
    ensures var final := Run(m, events);
      invite < |final.invites| ==>
        Provisioned(final.accounts, invite) == final.invites[invite].redeemed <= final.invites[invite].max
  {
    RunsConserve(m, events);
  }

  /** Every active account has a Web identity, as registration leaves it. */
  predicate AllWeb(m: Identity) { forall a :: 0 <= a < |m.accounts| && m.accounts[a].active ==> Has(m.bindings, a, Web) }

  lemma {:induction false} StepsKeepAllWeb(m: Identity, e: Event)
    requires Inv(m) && AllWeb(m)
    ensures AllWeb(Apply(m, e)) && Apply(m, e).merges == m.merges
  {
    var m' := Apply(m, e);
    if e.Ask? {
      OpenTouchesOnlyChallenges(m, e.account, e.draws);
    } else if e.Join? && m' != m {
      assert Serves(m'.bindings[|m.bindings|], |m.accounts|, Web);
      forall a | 0 <= a < |m.accounts| && m.accounts[a].active
        ensures Has(m'.bindings, a, Web)
      {
        HasMore(m.bindings, m'.bindings[|m.bindings|], a, Web);
      }
    } else if e.Answer? {
      ConsumeKeepsAllWeb(m, e.code, e.sender, e.now);
    }
  }

  lemma {:induction false} OpenTouchesOnlyChallenges(m: Identity, account: AccountId, draws: seq<(Code, nat)>)
    ensures var m' := Open(m, account, draws).1;
      m'.bindings == m.bindings && m'.accounts == m.accounts && m'.merges == m.merges
    decreases |draws|
  {
    if draws != [] && IsActive(m.accounts, account) && draws[0].0 in m.challenges {
      OpenTouchesOnlyChallenges(m, account, draws[1..]);
    }
  }

  lemma {:induction false} NoTargetWithoutWeb(m: Identity, source: AccountId, target: AccountId)
    requires AllWeb(m) && IsActive(m.accounts, target)
    ensures !Mergeable(m, source, target)
  {
  }

  lemma {:induction false} BindKeepsAllWeb(m: Identity, extra: Binding)
    requires AllWeb(m)
    ensures AllWeb(m.(bindings := m.bindings + [extra]))
  {
    forall a | 0 <= a < |m.accounts| && m.accounts[a].active
      ensures Has(m.bindings + [extra], a, Web)
    {
      HasMore(m.bindings, extra, a, Web);
    }
  }

  lemma {:induction false} PendingKeepsAllWeb(m: Identity, code: Code, subject: string)
    requires AllWeb(m) && code in m.challenges
    ensures var m' := ConsumePending(m, code, subject).1;
      AllWeb(m') && m'.merges == m.merges
  {
    var source := m.challenges[code].account;
    var bound := Find(m.bindings, QQ, subject);
    if bound.None? {
      BindKeepsAllWeb(m, Binding(source, QQ, subject, true, false));
    } else if IsActive(m.accounts, m.bindings[bound.value].account) {
      NoTargetWithoutWeb(m, source, m.bindings[bound.value].account);
    }
  }

  lemma {:induction false} ConsumeKeepsAllWeb(m: Identity, code: Code, sender: Option<string>, now: nat)
    requires AllWeb(m)
    ensures var m' := Consume(m, code, sender, now).1;
      AllWeb(m') && m'.merges == m.merges
  {
    if sender.Some? && code in m.challenges && m.challenges[code].status == Pending {
      PendingKeepsAllWeb(m, code, sender.value);
    }
  }

  /** Where every active account has a Web identity, as after any run from empty tables, no code ever consolidates. */
  lemma {:induction false} MergesNeedAQqOnlyAccount(m: Identity, events: seq<Event>)
    requires Inv(m) && AllWeb(m)
    ensures AllWeb(Run(m, events)) && Run(m, events).merges == m.merges
    decreases |events|
  {
    if events != [] {
      StepKeepsInv(m, events[0]);
      StepsKeepAllWeb(m, events[0]);
      MergesNeedAQqOnlyAccount(Apply(m, events[0]), events[1..]);
    }
  }

  lemma {:induction false} StartsEmpty()
    ensures Inv(Identity([], [], [], map[], [], map[])) && AllWeb(Identity([], [], [], map[], [], map[]))
  {
  }
}
