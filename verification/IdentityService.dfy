/** The identity tables, updated in place by the account services. */
module IdentityService {
  import opened Base
  import opened IdentityTables
  import IdentityRuns

  class IdentityDatabase {
    var accounts: seq<Account>
    var bindings: seq<Binding>
    var sessions: seq<Session>
    var challenges: map<Code, Challenge>
    var invites: seq<Invite>
    ghost var merges: map<AccountId, AccountId>

    ghost function Stored(): Identity
      reads this
    {
      Identity(accounts, bindings, sessions, challenges, invites, merges)
    }

    constructor ()
      ensures Stored() == Identity([], [], [], map[], [], map[]) && IdentityRuns.Inv(Stored())
    {
      IdentityRuns.StartsEmpty();
      accounts, bindings, sessions, challenges, invites := [], [], [], map[], [];
      merges := map[];
    }

    /** `RegistrationService.register`. */
    method Register(subject: string, password: nat, invite: Option<InviteId>, now: nat) returns (reply: Reply)
      modifies this
      ensures (reply, Stored()) == IdentityTables.Register(old(Stored()), subject, password, invite, now)
      ensures IdentityRuns.Inv(old(Stored())) ==> IdentityRuns.Inv(Stored())
    {
      if IdentityRuns.Inv(Stored()) {
        IdentityRuns.RegisterKeeps(Stored(), subject, password, invite, now);
      }
      if |subject| == 0 || |subject| > 512 {
        return Refused(InvalidUsername);
      }
      if password < 8 || password > 128 {
        return Refused(InvalidPassword);
      }
      if invite.Some? {
        var redeemable := ConsumeInvite(invite.value, now);
        if !redeemable {
          return Refused(InvalidInvite);
        }
      }
      var taken := FindActive(Web, subject);
      if taken.Some? {
        return Refused(UsernameExists);
      }
      var account, binding := |accounts|, |bindings|;
      accounts := accounts + [IdentityTables.Account(true, invite, false)];
      bindings := bindings + [IdentityTables.Binding(account, Web, subject, true, true)];
      if invite.Some? {
        invites := invites[invite.value := invites[invite.value].(redeemed := invites[invite.value].redeemed + 1)];
      }
      reply := Registered(account, binding);
    }

    method ConsumeInvite(invite: InviteId, now: nat) returns (r: bool)
      ensures r == Redeemable(Stored(), invite, now)
    {
      if invite >= |invites| || invites[invite].revoked {
        return false;
      }
      if invites[invite].expires.Some? && invites[invite].expires.value <= now {
        return false;
      }
      r := invites[invite].redeemed < invites[invite].max;
    }

    method FindActive(provider: Provider, subject: string) returns (r: Option<BindingId>)
      ensures r == Find(bindings, provider, subject)
    {
      r := None;
      for i := 0 to |bindings|
        invariant r == Find(bindings[..i], provider, subject)
      {
        assert bindings[..i + 1][..i] == bindings[..i];
        if Matches(bindings[i], provider, subject) {
          r := Some(i);
        }
      }
      assert bindings[..|bindings|] == bindings;
    }

    method HasActive(account: AccountId, provider: Provider) returns (r: bool)
      ensures r == Has(bindings, account, provider)
    {
      for i := 0 to |bindings|
        invariant forall j :: 0 <= j < i ==> !Serves(bindings[j], account, provider)
      {
        if Serves(bindings[i], account, provider) {
          return true;
        }
      }
      r := false;
    }

    method HeldBy(account: AccountId) returns (held: seq<BindingId>)
      ensures held == Held(bindings, account)
    {
      held := [];
      for i := 0 to |bindings|
        invariant held == Held(bindings[..i], account)
      {
        assert bindings[..i + 1][..i] == bindings[..i];
        if bindings[i].account == account {
          held := held + [i];
        }
      }
      assert bindings[..|bindings|] == bindings;
    }

    /** `create_qq_challenge`: a few tries at a code nobody else has. */
    method Open(account: AccountId, draws: seq<(Code, nat)>) returns (reply: Reply)
      modifies this`challenges
      ensures (reply, Stored()) == IdentityTables.Open(old(Stored()), account, draws)
      ensures IdentityRuns.Inv(old(Stored())) ==> IdentityRuns.Inv(Stored())
    {
      if IdentityRuns.Inv(Stored()) {
        IdentityRuns.OpenKeeps(Stored(), account, draws);
      }
      for i := 0 to |draws|
        invariant challenges == old(challenges)
        invariant IdentityTables.Open(old(Stored()), account, draws) == IdentityTables.Open(old(Stored()), account, draws[i..])
      {
        if !IsActive(accounts, account) {
          return Refused(Conflict);
        }
        var (code, expires) := draws[i];
        assert draws[i..][0] == draws[i] && draws[i..][1..] == draws[i + 1..];
        if code !in challenges {
          challenges := CancelPending(challenges, account, None)[code := IdentityTables.Challenge(account, Pending, expires, None)];
          return Opened(code);
        }
      }
      reply := Refused(NoFreeCode);
    }

    method MayConsolidate(source: AccountId, target: AccountId) returns (binding: Option<BindingId>)
      ensures binding.Some? <==> Mergeable(Stored(), source, target)
      ensures binding.Some? ==> binding == OnlyWeb(Stored(), source)
    {
      var held := HeldBy(source);
      if |held| != 1 || !Serves(bindings[held[0]], source, Web) {
        return None;
      }
      var taken := HasActive(target, Web);
      if taken || !bindings[held[0]].credential || source >= |accounts| || accounts[source].data {
        return None;
      }
      binding := Some(held[0]);
    }

    method Consolidate(source: AccountId, target: AccountId, binding: BindingId, code: Code)
      requires Mergeable(Stored(), source, target) && code in challenges && Some(binding) == OnlyWeb(Stored(), source)
      modifies this
      ensures Stored() == Merge(old(Stored()), source, target, code)
    {
      sessions := MoveSessions(sessions, source, binding, target);
      bindings := bindings[binding := bindings[binding].(account := target)];
      challenges := CancelPending(challenges, source, Some(code));
      challenges := challenges[code := challenges[code].(account := target)];
      accounts := accounts[source := accounts[source].(active := false)];
      merges := merges[source := target];
    }

    method Finish(code: Code, subject: string)
      requires code in challenges
      modifies this`challenges
      ensures Stored() == Complete(old(Stored()), code, subject)
    {
      challenges := challenges[code := challenges[code].(status := Completed, subject := Some(subject))];
    }

    method ConsumePending(code: Code, subject: string) returns (reply: Reply)
      requires code in challenges
      modifies this
      ensures (reply, Stored()) == IdentityTables.ConsumePending(old(Stored()), code, subject)
    {
      var source := challenges[code].account;
      if !IsActive(accounts, source) {
        return Refused(Conflict);
      }
      var bound := FindActive(QQ, subject);
      if bound.None? {
        var other := HasActive(source, QQ);
        if other {
          return Refused(Conflict);
        }
        bindings := bindings + [IdentityTables.Binding(source, QQ, subject, true, false)];
        Finish(code, subject);
        return Consumed(source, false);
      }
      var target := bindings[bound.value].account;
      if target == source {
        Finish(code, subject);
        return Consumed(source, false);
      }
      if !IsActive(accounts, target) {
        return Refused(Conflict);
      }
      var binding := MayConsolidate(source, target);
      if binding.None? {
        return Refused(Conflict);
      }
      if HasPending(challenges, target) {
        return Refused(DuplicatePending);
      }
      Consolidate(source, target, binding.value, code);
      Finish(code, subject);
      reply := Consumed(target, true);
    }

    /** `consume_qq_challenge`. */
    method Consume(code: Code, subject: Option<string>, now: nat) returns (reply: Reply)
      modifies this
      ensures (reply, Stored()) == IdentityTables.Consume(old(Stored()), code, subject, now)
      ensures IdentityRuns.Inv(old(Stored())) ==> IdentityRuns.Inv(Stored())
    {
      if IdentityRuns.Inv(Stored()) {
        IdentityRuns.ConsumeKeeps(Stored(), code, subject, now);
      }
      if subject.None? || code !in challenges {
        return Refused(NotFound);
      }
      var challenge := challenges[code];
      if challenge.status == Completed {
        if challenge.subject == subject {
          var bound := FindActive(QQ, subject.value);
          if bound.Some? {
            return Consumed(bindings[bound.value].account, false);
          }
        }
        return Refused(NotFound);
      }
      if challenge.status != Pending {
        return Refused(NotFound);
      }
      if challenge.expires <= now {
        challenges := challenges[code := challenge.(status := Cancelled)];
        return Refused(Expired);
      }
      reply := ConsumePending(code, subject.value);
    }
  }
}
