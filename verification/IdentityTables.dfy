/**
 Accounts, identity bindings, sessions, challenges and invites, and the transactions
 over them (src/account/registration_service.py, src/account/invite_service.py,
 src/account/identity_binding_service.py).  Rows are numbered in insertion order.
 */
module IdentityTables {
  import opened Base

  type AccountId = nat
  type BindingId = nat
  type InviteId = nat
  type Code = string

  datatype Provider = Web | QQ

  /** `data` says that some table a consolidation looks at has a row of the account. */
  datatype Account = Account(active: bool, invite: Option<InviteId>, data: bool)

  datatype Binding = Binding(account: AccountId, provider: Provider, subject: string, active: bool, credential: bool)
  datatype Session = Session(account: AccountId, binding: BindingId)
  datatype ChallengeStatus = Pending | Completed | Cancelled
  datatype Challenge = Challenge(account: AccountId, status: ChallengeStatus, expires: nat, subject: Option<string>)
  datatype Invite = Invite(max: nat, redeemed: nat, expires: Option<nat>, revoked: bool)

  /** `merges` is history that no table stores: which account each consolidated one went to. */
  datatype Identity = Identity(
    accounts: seq<Account>,
    bindings: seq<Binding>,
    sessions: seq<Session>,
    challenges: map<Code, Challenge>,
    invites: seq<Invite>,
    merges: map<AccountId, AccountId>)

  datatype Refusal = InvalidUsername | InvalidPassword | InvalidInvite | UsernameExists | Conflict | NotFound | Expired | NoFreeCode | DuplicatePending

  datatype Reply =
    | Registered(account: AccountId, binding: BindingId)
    | Opened(code: Code)
    | Consumed(account: AccountId, consolidated: bool)
    | Refused(refusal: Refusal)

  // ---------------------------------------------------------------- lookups

  predicate Matches(b: Binding, provider: Provider, subject: string) {
    b.active && b.provider == provider && b.subject == subject
  }

  /** The active binding of a subject. */
  function Find(bindings: seq<Binding>, provider: Provider, subject: string): (r: Option<BindingId>)
    ensures r.Some? ==> r.value < |bindings| && Matches(bindings[r.value], provider, subject)
    ensures r.None? ==> forall i :: 0 <= i < |bindings| ==> !Matches(bindings[i], provider, subject)
  {
    if bindings == [] then None
    else if Matches(bindings[|bindings| - 1], provider, subject) then Some(|bindings| - 1)
    else Find(bindings[..|bindings| - 1], provider, subject)
  }

  predicate Serves(b: Binding, account: AccountId, provider: Provider) {
    b.active && b.account == account && b.provider == provider
  }

  predicate Has(bindings: seq<Binding>, account: AccountId, provider: Provider) {
    exists i :: 0 <= i < |bindings| && Serves(bindings[i], account, provider)
  }

  /** Every binding of an account, active or not. */
  function Held(bindings: seq<Binding>, account: AccountId): (r: seq<BindingId>)
    ensures forall k :: 0 <= k < |r| ==> r[k] < |bindings| && bindings[r[k]].account == account
    ensures forall i :: 0 <= i < |bindings| && bindings[i].account == account ==> i in r
  {
    if bindings == [] then []
    else
      var last := |bindings| - 1;
      var before := Held(bindings[..last], account);
      if bindings[last].account == account then before + [last] else before
  }

  predicate IsActive(accounts: seq<Account>, account: AccountId) { account < |accounts| && accounts[account].active }

  // ----------------------------------------------------------- registration

  /** `consume_in_uow`: the invite can be redeemed now. */
  predicate Redeemable(m: Identity, invite: InviteId, now: nat) {
    && invite < |m.invites| && !m.invites[invite].revoked
    && (m.invites[invite].expires.Some? ==> now < m.invites[invite].expires.value)
    && m.invites[invite].redeemed < m.invites[invite].max
  }

  function Redeem(invites: seq<Invite>, invite: Option<InviteId>): seq<Invite> {
    if invite.Some? && invite.value < |invites|
    then invites[invite.value := invites[invite.value].(redeemed := invites[invite.value].redeemed + 1)]
    else invites
  }

  /** `subject` is the normalised username; `invite` an invite whose code was given. */
  function Register(m: Identity, subject: string, password: nat, invite: Option<InviteId>, now: nat): (Reply, Identity) {
    if |subject| == 0 || |subject| > 512 then (Refused(InvalidUsername), m)
    else if password < 8 || password > 128 then (Refused(InvalidPassword), m)
    else if invite.Some? && !Redeemable(m, invite.value, now) then (Refused(InvalidInvite), m)
    else if Find(m.bindings, Web, subject).Some? then (Refused(UsernameExists), m)
    else (Registered(|m.accounts|, |m.bindings|),
          m.(accounts := m.accounts + [Account(true, invite, false)],
             bindings := m.bindings + [Binding(|m.accounts|, Web, subject, true, true)],
             invites := Redeem(m.invites, invite)))
  }

  // -------------------------------------------------------------- challenges

  /** The pending challenges of an account are cancelled, except `kept`. */
  function CancelPending(challenges: map<Code, Challenge>, account: AccountId, kept: Option<Code>): map<Code, Challenge> {
    map c <- challenges :: c :=
      if challenges[c].account == account && challenges[c].status == Pending && Some(c) != kept
      then challenges[c].(status := Cancelled) else challenges[c]
  }

  predicate HasPending(challenges: map<Code, Challenge>, account: AccountId) {
    exists c :: c in challenges && challenges[c].account == account && challenges[c].status == Pending
  }

  /** One try per drawn code: a code in use rolls the transaction back. */
  function Open(m: Identity, account: AccountId, draws: seq<(Code, nat)>): (Reply, Identity) {
    if draws == [] then (Refused(NoFreeCode), m)
    else if !IsActive(m.accounts, account) then (Refused(Conflict), m)
    else if draws[0].0 in m.challenges then Open(m, account, draws[1..])
    else (Opened(draws[0].0),
          m.(challenges := CancelPending(m.challenges, account, None)[draws[0].0 := Challenge(account, Pending, draws[0].1, None)]))
  }

  // ------------------------------------------------------------ consolidation

  /** The one binding of an account that holds nothing but a Web identity. */
  function OnlyWeb(m: Identity, source: AccountId): (r: Option<BindingId>)
    ensures r.Some? ==> r.value < |m.bindings| && Serves(m.bindings[r.value], source, Web)
    ensures r.Some? ==> forall i :: 0 <= i < |m.bindings| && m.bindings[i].account == source ==> i == r.value
  {
    var held := Held(m.bindings, source);
    if |held| == 1 && Serves(m.bindings[held[0]], source, Web) then Some(held[0]) else None
  }

  /** An empty Web account, and a target without Web identity. */
  predicate Mergeable(m: Identity, source: AccountId, target: AccountId) {
    && OnlyWeb(m, source).Some?
    && !Has(m.bindings, target, Web)
    && m.bindings[OnlyWeb(m, source).value].credential
    && source < |m.accounts| && !m.accounts[source].data
  }

  /** The sessions of a binding follow it. */
  function MoveSessions(sessions: seq<Session>, source: AccountId, binding: BindingId, target: AccountId): (r: seq<Session>)
    ensures |r| == |sessions|
    ensures forall i :: 0 <= i < |r| ==>
      r[i] == if sessions[i] == Session(source, binding) then Session(target, binding) else sessions[i]
  {
    seq(|sessions|, i requires 0 <= i < |sessions| =>
      if sessions[i] == Session(source, binding) then Session(target, binding) else sessions[i])
  }

  /** `_consolidate_empty_web_account`: the writes, in order. */
  function Merge(m: Identity, source: AccountId, target: AccountId, code: Code): Identity
    requires Mergeable(m, source, target) && code in m.challenges
  {
    var b := OnlyWeb(m, source).value;
    var cancelled := CancelPending(m.challenges, source, Some(code));
    Identity(
      m.accounts[source := m.accounts[source].(active := false)],
      m.bindings[b := m.bindings[b].(account := target)],
      MoveSessions(m.sessions, source, b, target),
      cancelled[code := cancelled[code].(account := target)],
      m.invites,
      m.merges[source := target])
  }

  function Complete(m: Identity, code: Code, subject: string): Identity
    requires code in m.challenges
  {
    m.(challenges := m.challenges[code := m.challenges[code].(status := Completed, subject := Some(subject))])
  }

  /**
   `_consume_pending_qq_challenge`.  A consolidation moves the challenge to the target
   while it is still pending, so a pending challenge of the target violates
   uq_identity_binding_challenges__pending_account_qq and rolls everything back.
   */
  function ConsumePending(m: Identity, code: Code, subject: string): (Reply, Identity)
    requires code in m.challenges
  {
    var source := m.challenges[code].account;
    var bound := Find(m.bindings, QQ, subject);
    if !IsActive(m.accounts, source) then (Refused(Conflict), m)
    else if bound.None? then
      if Has(m.bindings, source, QQ) then (Refused(Conflict), m)
      else (Consumed(source, false),
            Complete(m.(bindings := m.bindings + [Binding(source, QQ, subject, true, false)]), code, subject))
    else
      var target := m.bindings[bound.value].account;
      if target == source then (Consumed(source, false), Complete(m, code, subject))
      else if !IsActive(m.accounts, target) || !Mergeable(m, source, target) then (Refused(Conflict), m)
      else if HasPending(m.challenges, target) then (Refused(DuplicatePending), m)
      else (Consumed(target, true), Complete(Merge(m, source, target, code), code, subject))
  }

  /** `consume_qq_challenge`: a subject of None is a channel without QQ identity. */
  function Consume(m: Identity, code: Code, subject: Option<string>, now: nat): (Reply, Identity) {
    if subject.None? || code !in m.challenges then (Refused(NotFound), m)
    else
      var challenge := m.challenges[code];
      if challenge.status == Completed then
        var bound := Find(m.bindings, QQ, subject.value);
        if challenge.subject == subject && bound.Some? then (Consumed(m.bindings[bound.value].account, false), m)
        else (Refused(NotFound), m)
      else if challenge.status != Pending then (Refused(NotFound), m)
      else if challenge.expires <= now then
        (Refused(Expired), m.(challenges := m.challenges[code := challenge.(status := Cancelled)]))
      else ConsumePending(m, code, subject.value)
  }
}
