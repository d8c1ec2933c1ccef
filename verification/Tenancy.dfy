/**
 Tenant ownership, membership and invites. Each route, its guard included, is
 one atomic step; the statements inside an ownership transfer are modelled one
 by one, because the partial unique index on owner rows judges each of them.
 */
module Tenancy {
  import opened Options
  import opened Text

  datatype Role = Member | Admin | Owner

  datatype Tenant = Tenant(owner: nat, deleted: bool, slug: string)

  datatype Invite = Invite(tenant: nat, email: string, role: Role, expiresAt: int,
                           acceptedBy: Option<nat>, revoked: bool)

  type Members = map<(nat, nat), Role>

  datatype State = State(tenants: map<nat, Tenant>, members: Members, invites: map<nat, Invite>,
                         nextTenant: nat, nextInvite: nat)

  datatype Caller = Caller(user: nat, superadmin: bool, email: string)

  datatype Op =
    | CreateTenant(caller: Caller, slug: string)
    | EnsureDefault(caller: Caller)
    | DeleteTenant(caller: Caller, tenant: nat)
    | ChangeRole(caller: Caller, tenant: nat, user: nat, role: Role)
    | RemoveMember(caller: Caller, tenant: nat, user: nat)
    | Transfer(caller: Caller, tenant: nat, newOwner: nat)
    | CreateInvite(caller: Caller, tenant: nat, email: string, role: Role, expiresAt: int)
    | RevokeInvite(caller: Caller, tenant: nat, invite: nat)
    | AcceptInvite(caller: Caller, invite: nat, now: int)

  // ----- Guards -----

  function Rank(r: Role): int {
    match r
    case Member => 0
    case Admin => 1
    case Owner => 2
  }

  function RankOf(m: Members, t: nat, u: nat): int {
    if (t, u) in m then Rank(m[(t, u)]) else -1
  }

  predicate LiveTenant(s: State, t: nat) {
    t in s.tenants && !s.tenants[t].deleted
  }

  /** A membership decides the caller's role even for a superadmin; without one
      a superadmin outranks everybody and anyone else is turned away. */
  function EffectiveRank(s: State, c: Caller, t: nat): int {
    if !LiveTenant(s, t) then -1
    else if (t, c.user) in s.members then Rank(s.members[(t, c.user)])
    else if c.superadmin then 3
    else -1
  }

  predicate Allowed(s: State, c: Caller, t: nat, minimum: Role) {
    EffectiveRank(s, c, t) >= Rank(minimum)
  }

  datatype InviteStatus = Revoked | Accepted | Expired | Pending

  function StatusOf(i: Invite, now: int): InviteStatus {
    if i.revoked then Revoked
    else if i.acceptedBy.Some? then Accepted
    else if i.expiresAt < now then Expired
    else Pending
  }

  predicate CanAccept(s: State, c: Caller, id: nat, now: int) {
    && id in s.invites && LiveTenant(s, s.invites[id].tenant)
    && StatusOf(s.invites[id], now) == Pending
    && Lower(s.invites[id].email) == Lower(c.email)
  }

  predicate OwnsLive(s: State, u: nat) {
    exists t :: t in s.tenants && !s.tenants[t].deleted && (t, u) in s.members && s.members[(t, u)] == Owner
  }

  predicate OwnsSeveral(s: State, u: nat) {
    exists t, t' :: t in s.tenants && t' in s.tenants && t != t' && OwnedBy(s, t, u) && OwnedBy(s, t', u)
  }

  predicate OwnedBy(s: State, t: nat, u: nat) {
    t in s.tenants && s.tenants[t].owner == u && !s.tenants[t].deleted
  }

  // ----- Statements -----

  /** UPDATE tenant_memberships SET role: no row, no effect. */
  function UpdateRole(m: Members, t: nat, u: nat, r: Role): Members {
    if (t, u) in m then m[(t, u) := r] else m
  }

  /** Slugs are unique, those of deleted tenants included. */
  predicate SlugTaken(tenants: map<nat, Tenant>, slug: string) {
    exists t :: t in tenants && tenants[t].slug == slug
  }

  function DefaultSlug(c: Caller): string {
    Lower(BeforeAt(if c.email == "" then "user" else c.email)) + "-" + Decimal(c.user)
  }

  /** The tenant and its owner row, or nothing if the slug is taken. */
  function AddTenant(s: State, owner: nat, slug: string): State {
    if SlugTaken(s.tenants, slug) then s
    else
    s.(tenants := s.tenants[s.nextTenant := Tenant(owner, false, slug)],
       members := s.members[(s.nextTenant, owner) := Owner],
       nextTenant := s.nextTenant + 1)
  }

  // ----- Steps -----

  function Step(s: State, op: Op): State {
    match op
    case CreateTenant(c, slug) => AddTenant(s, c.user, slug)
    case EnsureDefault(c) => if OwnsLive(s, c.user) then s else AddTenant(s, c.user, DefaultSlug(c))
    case DeleteTenant(c, t) =>
      if Allowed(s, c, t, Owner) && OwnsSeveral(s, c.user)
      then s.(tenants := s.tenants[t := s.tenants[t].(deleted := true)]) else s
    case ChangeRole(c, t, u, r) =>
      if Allowed(s, c, t, Owner) && r != Owner && u != s.tenants[t].owner
      then s.(members := UpdateRole(s.members, t, u, r)) else s
    case RemoveMember(c, t, u) =>
      if Allowed(s, c, t, Admin) && u != s.tenants[t].owner && (t, u) in s.members && s.members[(t, u)] != Owner
      then s.(members := s.members - {(t, u)}) else s
    case Transfer(c, t, u) =>
      if Allowed(s, c, t, Owner) && s.tenants[t].owner != u && (t, u) in s.members
      then s.(tenants := s.tenants[t := s.tenants[t].(owner := u)],
              members := UpdateRole(UpdateRole(s.members, t, s.tenants[t].owner, Admin), t, u, Owner))
      else s
    case CreateInvite(c, t, email, r, expiresAt) =>
      if Allowed(s, c, t, Admin) && r != Owner
      then s.(invites := s.invites[s.nextInvite := Invite(t, Lower(Strip(email)), r, expiresAt, None, false)],
              nextInvite := s.nextInvite + 1)
      else s
    case RevokeInvite(c, t, id) =>
      if Allowed(s, c, t, Admin) && id in s.invites && s.invites[id].acceptedBy.None?
      then s.(invites := s.invites[id := s.invites[id].(revoked := true)]) else s
    case AcceptInvite(c, id, now) =>
      if !CanAccept(s, c, id, now) then s
      else
        var i := s.invites[id];
        s.(members := if RankOf(s.members, i.tenant, c.user) >= Rank(i.role) then s.members
                      else s.members[(i.tenant, c.user) := i.role],
           invites := s.invites[id := i.(acceptedBy := Some(c.user))])
  }

  function Run(s: State, ops: seq<Op>): State {
    if ops == [] then s else Step(Run(s, ops[..|ops| - 1]), ops[|ops| - 1])
  }

  // ----- The invariant -----

  /** The partial unique index: one owner row per tenant. */
  ghost predicate OwnerIndex(m: Members) {
    forall t: nat, u: nat, v: nat :: IsOwner(m, t, u) && IsOwner(m, t, v) ==> u == v
  }

  predicate IsOwner(m: Members, t: nat, u: nat) {
    (t, u) in m && m[(t, u)] == Owner
  }

  /** Every tenant has exactly one owner row, and it is the tenant's owner. */
  ghost predicate Owned(s: State) {
    forall t: nat, u: nat :: t in s.tenants ==> (IsOwner(s.members, t, u) <==> s.tenants[t].owner == u)
  }

  ghost predicate Inv(s: State) {
    && Owned(s)
    && (forall k :: k in s.members ==> k.0 in s.tenants)
    && (forall t :: t in s.tenants ==> t < s.nextTenant)
    && (forall i :: i in s.invites ==>
         i < s.nextInvite && s.invites[i].role != Owner && s.invites[i].tenant in s.tenants)
  }

  /** The caller owns the live tenant, or is a superadmin without a role in it. */
  predicate Rules(s: State, c: Caller, t: nat) {
    && t in s.tenants && !s.tenants[t].deleted
    && if (t, c.user) in s.members then s.members[(t, c.user)] == Owner else c.superadmin
  }

  /** The same for its owner or an administrator. */
  predicate Manages(s: State, c: Caller, t: nat) {
    && t in s.tenants && !s.tenants[t].deleted
    && if (t, c.user) in s.members then s.members[(t, c.user)] != Member else c.superadmin
  }

  class TenantDb {
    var tenants: map<nat, Tenant>
    var members: Members
    var invites: map<nat, Invite>
    var nextTenant: nat
    var nextInvite: nat

    function Contents(): State
      reads this
    {
      State(tenants, members, invites, nextTenant, nextInvite)
    }

    constructor ()
      ensures Contents() == State(map[], map[], map[], 0, 0) && Inv(Contents())
    {
      tenants, members, invites, nextTenant, nextInvite := map[], map[], map[], 0, 0;
    }

    /** One UPDATE of a membership row. The index must accept its result. */
    method SetRole(t: nat, u: nat, r: Role)
      requires OwnerIndex(UpdateRole(members, t, u, r))
      modifies this`members
      ensures members == UpdateRole(old(members), t, u, r)
    {
      if (t, u) in members {
        members := members[(t, u) := r];
      }
    }

    /** Demote, promote, then name the new owner: at no statement are there two
        owner rows. */
    method TransferOwner(c: Caller, t: nat, u: nat)
      requires Inv(Contents())
      modifies this
      ensures Contents() == Step(old(Contents()), Transfer(c, t, u)) && Inv(Contents())
    {
      ghost var before := Contents();
      OwnedIsIndexed(before);
      if !Allowed(Contents(), c, t, Owner) || tenants[t].owner == u || (t, u) !in members {
        return;
      }
      DemoteThenPromote(before, t, u);
      SetRole(t, tenants[t].owner, Admin);
      SetRole(t, u, Owner);
      tenants := tenants[t := tenants[t].(owner := u)];
      StepKeeps(before, Transfer(c, t, u));
    }

    /** Inserts the tenant, unless the unique index on slugs refuses it, and then
        its owner's membership. */
    method CreateOwned(c: Caller, slug: string) returns (t: Option<nat>)
      requires Inv(Contents())
      modifies this
      ensures Contents() == Step(old(Contents()), CreateTenant(c, slug)) && Inv(Contents())
      ensures t == if SlugTaken(old(tenants), slug) then None else Some(old(nextTenant))
      ensures t.Some? ==> OwnedBy(Contents(), t.value, c.user) && IsOwner(members, t.value, c.user)
    {
      ghost var before := Contents();
      StepKeeps(before, CreateTenant(c, slug));
      if SlugTaken(tenants, slug) {
        return None;
      }
      t := Some(nextTenant);
      tenants := tenants[nextTenant := Tenant(c.user, false, slug)];
      members := members[(nextTenant, c.user) := Owner];
      nextTenant := nextTenant + 1;
    }

    /** The caller's default tenant, created on first use. */
    method EnsureDefaultTenant(c: Caller)
      requires Inv(Contents())
      modifies this
      ensures Contents() == Step(old(Contents()), EnsureDefault(c)) && Inv(Contents())
      ensures OwnsLive(Contents(), c.user) <==>
          OwnsLive(old(Contents()), c.user) || !SlugTaken(old(tenants), DefaultSlug(c))
    {
      if OwnsLive(Contents(), c.user) {
        return;
      }
      var t := CreateOwned(c, DefaultSlug(c));
      assert t.Some? ==> OwnedBy(Contents(), t.value, c.user);
    }

    method ChangeMemberRole(c: Caller, t: nat, u: nat, r: Role)
      requires Inv(Contents())
      modifies this
      ensures Contents() == Step(old(Contents()), ChangeRole(c, t, u, r)) && Inv(Contents())
    {
      ghost var before := Contents();
      if !Allowed(Contents(), c, t, Owner) || r == Owner || u == tenants[t].owner {
        return;
      }
      StepKeeps(before, ChangeRole(c, t, u, r));
      OwnedIsIndexed(Step(before, ChangeRole(c, t, u, r)));
      SetRole(t, u, r);
    }

    method Remove(c: Caller, t: nat, u: nat)
      requires Inv(Contents())
      modifies this
      ensures Contents() == Step(old(Contents()), RemoveMember(c, t, u)) && Inv(Contents())
    {
      ghost var before := Contents();
      StepKeeps(before, RemoveMember(c, t, u));
      if !Allowed(Contents(), c, t, Admin) || u == tenants[t].owner {
        return;
      }
      if (t, u) in members && members[(t, u)] != Owner {
        members := members - {(t, u)};
      }
    }

    /** An administrator's invite is pending, under a new number, for the address as
        stored; anyone else's request, or one for an owner, leaves no trace. */
    method SendInvite(c: Caller, t: nat, email: string, r: Role, expiresAt: int)
      requires Inv(Contents())
      modifies this
      ensures Contents() == Step(old(Contents()), CreateInvite(c, t, email, r, expiresAt)) && Inv(Contents())
      ensures var sent := Manages(old(Contents()), c, t) && r != Owner;
              && invites.Keys == old(invites).Keys + (if sent then {old(nextInvite)} else {})
              && (sent ==>
                    var i := invites[old(nextInvite)];
                    && i.tenant == t && i.role == r && i.expiresAt == expiresAt && i.email == Lower(Strip(email))
                    && forall now :: StatusOf(i, now) == if expiresAt < now then Expired else Pending)
      ensures forall k :: k in old(invites) ==> invites[k] == old(invites)[k]
      ensures tenants == old(tenants) && members == old(members)
    {
      ghost var before := Contents();
      StepKeeps(before, CreateInvite(c, t, email, r, expiresAt));
      if Allowed(Contents(), c, t, Admin) && r != Owner {
        invites := invites[nextInvite := Invite(t, Lower(Strip(email)), r, expiresAt, None, false)];
        nextInvite := nextInvite + 1;
      }
    }

    /** An unaccepted invite is revoked for good if the guard lets the caller in;
        an accepted one, and every other, is as it was. */
    method Revoke(c: Caller, t: nat, id: nat)
      requires Inv(Contents())
      modifies this
      ensures Contents() == Step(old(Contents()), RevokeInvite(c, t, id)) && Inv(Contents())
      ensures var done := Manages(old(Contents()), c, t) && id in invites && invites[id].acceptedBy.None?;
              && (done ==> forall now :: StatusOf(invites[id], now) == Revoked)
              && (!done ==> invites == old(invites))
      ensures invites.Keys == old(invites).Keys
      ensures forall k :: k in invites && k != id ==> invites[k] == old(invites)[k]
      ensures tenants == old(tenants) && members == old(members)
    {
      ghost var before := Contents();
      StepKeeps(before, RevokeInvite(c, t, id));
      if Allowed(Contents(), c, t, Admin) && id in invites && invites[id].acceptedBy.None? {
        invites := invites[id := invites[id].(revoked := true)];
      }
    }

    /** Re-reads the invite under its lock, creates or escalates the membership,
        and consumes the invite. */
    method Accept(c: Caller, id: nat, now: int) returns (role: Option<Role>)
      requires Inv(Contents())
      modifies this
      ensures Contents() == Step(old(Contents()), AcceptInvite(c, id, now)) && Inv(Contents())
      ensures role.Some? <==> CanAccept(old(Contents()), c, id, now)
      ensures role.Some? ==> var k := (invites[id].tenant, c.user); k in members && members[k] == role.value
    {
      ghost var before := Contents();
      StepKeeps(before, AcceptInvite(c, id, now));
      if !CanAccept(Contents(), c, id, now) {
        return None;
      }
      var i := invites[id];
      var k := (i.tenant, c.user);
      var existing := if k in members then Rank(members[k]) else -1;
      if existing < Rank(i.role) {
        members := members[k := i.role];
      }
      invites := invites[id := i.(acceptedBy := Some(c.user))];
      role := Some(members[k]);
    }
  }

  lemma OwnedIsIndexed(s: State)
    requires Inv(s)
    ensures OwnerIndex(s.members)
  {
    forall t: nat, u: nat, v: nat | IsOwner(s.members, t, u) && IsOwner(s.members, t, v) ensures u == v {
      assert (t, u) in s.members;
    }
  }

  /** Neither statement of a transfer, in this order, yields two owner rows. */
  lemma DemoteThenPromote(s: State, t: nat, u: nat)
    requires Inv(s) && t in s.tenants && u != s.tenants[t].owner
    ensures var demoted := UpdateRole(s.members, t, s.tenants[t].owner, Admin);
            OwnerIndex(demoted) && OwnerIndex(UpdateRole(demoted, t, u, Owner))
  {
    var demoted := UpdateRole(s.members, t, s.tenants[t].owner, Admin);
    var promoted := UpdateRole(demoted, t, u, Owner);
    forall k: nat, v: nat, w: nat | IsOwner(demoted, k, v) && IsOwner(demoted, k, w) ensures v == w {
      assert (k, v) in s.members && IsOwner(s.members, k, v) && IsOwner(s.members, k, w);
    }
    forall k: nat, v: nat, w: nat | IsOwner(promoted, k, v) && IsOwner(promoted, k, w) ensures v == w {
      assert (k, v) in s.members && (k, w) in s.members;
      assert (k != t || v != u) ==> IsOwner(s.members, k, v);
      assert (k != t || w != u) ==> IsOwner(s.members, k, w);
    }
  }

  /** Promoting before demoting would be refused by the index. */
  lemma PromoteFirstRefused(s: State, t: nat, u: nat)
    requires Inv(s) && t in s.tenants && u != s.tenants[t].owner && (t, u) in s.members
    ensures !OwnerIndex(UpdateRole(s.members, t, u, Owner))
  {
    var m := UpdateRole(s.members, t, u, Owner);
    assert IsOwner(s.members, t, s.tenants[t].owner);
    assert IsOwner(m, t, u) && IsOwner(m, t, s.tenants[t].owner);
  }

  // ----- Preservation -----

  lemma AddTenantKeeps(s: State, owner: nat, slug: string)
    requires Inv(s)
    ensures Inv(AddTenant(s, owner, slug))
  {
    var s' := AddTenant(s, owner, slug);
    forall t: nat, u: nat | t in s'.tenants ensures IsOwner(s'.members, t, u) <==> s'.tenants[t].owner == u {
      if t == s.nextTenant {
        assert (t, u) in s.members ==> (t, u).0 in s.tenants;
      } else {
        assert IsOwner(s.members, t, u) <==> s.tenants[t].owner == u;
      }
    }
  }

  lemma TransferKeeps(s: State, op: Op)
    requires Inv(s) && op.Transfer?
    ensures Inv(Step(s, op))
  {
    var s' := Step(s, op);
    forall t: nat, u: nat | t in s'.tenants ensures IsOwner(s'.members, t, u) <==> s'.tenants[t].owner == u {
      assert IsOwner(s.members, t, u) <==> s.tenants[t].owner == u;
    }
  }

  lemma StepKeeps(s: State, op: Op)
    requires Inv(s)
    ensures Inv(Step(s, op))
  {
    match op
    case CreateTenant(c, slug) => AddTenantKeeps(s, c.user, slug);
    case EnsureDefault(c) => AddTenantKeeps(s, c.user, DefaultSlug(c));
    case Transfer(_, _, _) => TransferKeeps(s, op);
    case ChangeRole(_, _, _, _) => MemberKeeps(s, op);
    case RemoveMember(_, _, _) => MemberKeeps(s, op);
    case AcceptInvite(_, _, _) => MemberKeeps(s, op);
    case _ =>
  }

  lemma MemberKeeps(s: State, op: Op)
    requires Inv(s) && (op.ChangeRole? || op.RemoveMember? || op.AcceptInvite?)
    ensures Inv(Step(s, op))
  {
    var s' := Step(s, op);
    forall t: nat, u: nat | t in s'.tenants ensures IsOwner(s'.members, t, u) <==> s'.tenants[t].owner == u {
      assert IsOwner(s.members, t, u) <==> s.tenants[t].owner == u;
    }
  }

  /** In every reachable state each tenant has exactly one owner membership, and
      it belongs to the tenant's owner. */
  lemma {:induction false} OwnedAlways(s: State, ops: seq<Op>)
    requires Inv(s)
    ensures Inv(Run(s, ops)) && Owned(Run(s, ops)) && OwnerIndex(Run(s, ops).members)
  {
    if ops != [] {
      OwnedAlways(s, ops[..|ops| - 1]);
      StepKeeps(Run(s, ops[..|ops| - 1]), ops[|ops| - 1]);
    }
    OwnedIsIndexed(Run(s, ops));
  }

  // ----- Invites -----

  /** Accepting gives exactly the higher of the old and the invited role, makes
      no owner, touches no one else, and consumes the invite. */
  lemma AcceptIsMaximum(s: State, c: Caller, id: nat, now: int)
    requires Inv(s) && CanAccept(s, c, id, now)
    ensures var s' := Step(s, AcceptInvite(c, id, now));
            var t := s.invites[id].tenant;
            var held, invited := RankOf(s.members, t, c.user), Rank(s.invites[id].role);
            && RankOf(s'.members, t, c.user) == (if held > invited then held else invited)
            && (forall k :: k != (t, c.user) ==> (k in s'.members <==> k in s.members)
                                                 && (k in s.members ==> s'.members[k] == s.members[k]))
            && (forall k: nat, u: nat :: IsOwner(s'.members, k, u) <==> IsOwner(s.members, k, u))
            && s'.tenants == s.tenants
            && StatusOf(s'.invites[id], now) == Accepted && s'.invites[id].acceptedBy == Some(c.user)
  {
  }

  /** A membership changes only by these steps, and to exactly these ranks. */
  lemma WhoIsTouched(s: State, op: Op, t: nat, u: nat)
    requires Inv(s) && RankOf(Step(s, op).members, t, u) != RankOf(s.members, t, u)
    ensures var held := RankOf(Step(s, op).members, t, u);
            match op
            case CreateTenant(c, slug) => t == s.nextTenant && u == c.user && held == Rank(Owner) &&
                !SlugTaken(s.tenants, slug)
            case EnsureDefault(c) => t == s.nextTenant && u == c.user && held == Rank(Owner) && !OwnsLive(s, u)
            case ChangeRole(c, t', u', r) =>
              t == t' && u == u' && held == Rank(r) < Rank(Owner) && s.tenants[t].owner != u && Rules(s, c, t)
            case RemoveMember(c, t', u') =>
              t == t' && u == u' && held == -1 && s.tenants[t].owner != u && Manages(s, c, t)
            case Transfer(c, t', v) =>
              && t == t' && Rules(s, c, t) && RankOf(s.members, t, v) >= 0
              && if u == v then held == Rank(Owner) else u == s.tenants[t].owner && held == Rank(Admin)
            case AcceptInvite(c, id, now) =>
              CanAccept(s, c, id, now) && t == s.invites[id].tenant && u == c.user && held == Rank(s.invites[id].role)
            case _ => false
  {
    assert (s.nextTenant, u) in s.members ==> (s.nextTenant, u).0 in s.tenants;
  }

  predicate Lowers(op: Op, t: nat, u: nat) {
    match op
    case Transfer(_, t', _) => t == t'
    case ChangeRole(_, t', u', _) => t == t' && u == u'
    case RemoveMember(_, t', u') => t == t' && u == u'
    case _ => false
  }

  /** Over all runs only a transfer, a role change or a removal that names the
      membership lowers it; invites never do. */
  lemma {:induction false} LoweredBy(s: State, ops: seq<Op>, t: nat, u: nat) returns (n: nat)
    requires Inv(s) && RankOf(Run(s, ops).members, t, u) < RankOf(s.members, t, u)
    ensures n < |ops| && Lowers(ops[n], t, u)
    ensures RankOf(Run(s, ops[..n + 1]).members, t, u) < RankOf(Run(s, ops[..n]).members, t, u)
  {
    var k := |ops| - 1;
    var before := Run(s, ops[..k]);
    OwnedAlways(s, ops[..k]);
    if RankOf(Run(s, ops).members, t, u) < RankOf(before.members, t, u) {
      WhoIsTouched(before, ops[k], t, u);
      assert ops[..k + 1] == ops;
      n := k;
    } else {
      n := LoweredBy(s, ops[..k], t, u);
      assert ops[..k][..n] == ops[..n] && ops[..k][..n + 1] == ops[..n + 1];
    }
  }

  /** And over all runs nobody becomes an owner but by creating the tenant or by
      a transfer to them. */
  lemma {:induction false} OwnerBy(s: State, ops: seq<Op>, t: nat, u: nat) returns (n: nat)
    requires Inv(s) && IsOwner(Run(s, ops).members, t, u) && !IsOwner(s.members, t, u)
    ensures n < |ops|
    ensures match ops[n]
            case CreateTenant(c, _) => c.user == u && t == Run(s, ops[..n]).nextTenant
            case EnsureDefault(c) => c.user == u && t == Run(s, ops[..n]).nextTenant
            case Transfer(_, t', u') => t == t' && u == u'
            case _ => false
  {
    var k := |ops| - 1;
    var before := Run(s, ops[..k]);
    OwnedAlways(s, ops[..k]);
    if IsOwner(before.members, t, u) {
      n := OwnerBy(s, ops[..k], t, u);
      assert ops[..k][..n] == ops[..n];
    } else {
      WhoIsTouched(before, ops[k], t, u);
      n := k;
    }
  }

  /** An accepted or revoked invite is as it was; no invite is both; and nothing
      else about one changes. */
  predicate Ages(i: Invite, i': Invite) {
    && (i.acceptedBy.Some? || i.revoked ==> i' == i)
    && (i.acceptedBy.None? && !i.revoked ==> i'.acceptedBy.None? || !i'.revoked)
    && i'.(acceptedBy := i.acceptedBy, revoked := i.revoked) == i
  }

  lemma StepAges(s: State, op: Op, id: nat)
    requires Inv(s) && id in s.invites
    ensures id in Step(s, op).invites && Ages(s.invites[id], Step(s, op).invites[id])
  {
  }

  /** An accepted invite never changes again, and no invite comes back to life. */
  lemma {:induction false} SpentStaysSpent(s: State, ops: seq<Op>, id: nat)
    requires Inv(s) && id in s.invites
    ensures id in Run(s, ops).invites && Ages(s.invites[id], Run(s, ops).invites[id])
  {
    if ops != [] {
      SpentStaysSpent(s, ops[..|ops| - 1], id);
      OwnedAlways(s, ops[..|ops| - 1]);
      StepAges(Run(s, ops[..|ops| - 1]), ops[|ops| - 1], id);
    }
  }

  predicate AcceptsAt(s: State, ops: seq<Op>, n: nat, id: nat)
    requires n < |ops|
  {
    Accepts(Run(s, ops[..n]), ops[n], id)
  }

  predicate Accepts(s: State, op: Op, id: nat) {
    op.AcceptInvite? && op.invite == id && CanAccept(s, op.caller, id, op.now)
  }

  lemma {:induction false} RunAppend(s: State, a: seq<Op>, b: seq<Op>)
    ensures Run(s, a + b) == Run(Run(s, a), b)
  {
    if b == [] {
      assert a + b == a;
    } else {
      RunAppend(s, a, b[..|b| - 1]);
      assert (a + b)[..|a + b| - 1] == a + b[..|b| - 1];
    }
  }

  lemma RunBetween(s: State, ops: seq<Op>, m: nat, n: nat)
    requires m < n <= |ops|
    ensures Run(s, ops[..n]) == Run(Step(Run(s, ops[..m]), ops[m]), ops[m + 1..n])
  {
    assert ops[..m + 1][..m] == ops[..m];
    assert ops[..m + 1] + ops[m + 1..n] == ops[..n];
    RunAppend(s, ops[..m + 1], ops[m + 1..n]);
  }

  lemma AcceptSpends(s: State, op: Op, id: nat)
    requires Accepts(s, op, id)
    ensures id in Step(s, op).invites && Step(s, op).invites[id].acceptedBy.Some?
  {
  }

  lemma SpentRefuses(s: State, op: Op, id: nat)
    requires id in s.invites && s.invites[id].acceptedBy.Some?
    ensures !Accepts(s, op, id)
  {
  }

  /** Single use: in any run an invite is accepted at most once. */
  lemma AcceptedOnce(s: State, ops: seq<Op>, m: nat, n: nat, id: nat)
    requires Inv(s) && m < n < |ops|
    requires AcceptsAt(s, ops, m, id)
    ensures !AcceptsAt(s, ops, n, id)
  {
    OwnedAlways(s, ops[..m]);
    var before := Run(s, ops[..m]);
    AcceptSpends(before, ops[m], id);
    StepKeeps(before, ops[m]);
    SpentStaysSpent(Step(before, ops[m]), ops[m + 1..n], id);
    RunBetween(s, ops, m, n);
    SpentRefuses(Run(s, ops[..n]), ops[n], id);
  }

  // ----- What each operation does, read off the rows -----

  /** A transfer takes effect exactly from a ruler to another member; then the old
      owner is an administrator and the new one owns. */
  lemma TransferDoes(s: State, c: Caller, t: nat, u: nat)
    requires Inv(s)
    ensures Step(s, Transfer(c, t, u)) ==
            if Rules(s, c, t) && (t, u) in s.members && s.members[(t, u)] != Owner then
              s.(tenants := s.tenants[t := Tenant(u, false, s.tenants[t].slug)],
                 members := s.members[(t, s.tenants[t].owner) := Admin][(t, u) := Owner])
            else s
  {
    if t in s.tenants {
      assert IsOwner(s.members, t, s.tenants[t].owner) && (IsOwner(s.members, t, u) <==> s.tenants[t].owner == u);
    }
  }

  /** A role change takes effect exactly by a ruler on a member who is no owner, to
      a role that is not the owner's. */
  lemma ChangeRoleDoes(s: State, c: Caller, t: nat, u: nat, r: Role)
    requires Inv(s)
    ensures Step(s, ChangeRole(c, t, u, r)) ==
            if Rules(s, c, t) && (t, u) in s.members && s.members[(t, u)] != Owner && r != Owner
            then s.(members := s.members[(t, u) := r]) else s
  {
    if t in s.tenants {
      assert IsOwner(s.members, t, u) <==> s.tenants[t].owner == u;
    }
  }

  /** A removal takes effect exactly by a manager on a member who is no owner. */
  lemma RemoveDoes(s: State, c: Caller, t: nat, u: nat)
    requires Inv(s)
    ensures Step(s, RemoveMember(c, t, u)) ==
            if Manages(s, c, t) && (t, u) in s.members && s.members[(t, u)] != Owner
            then s.(members := map k | k in s.members && k != (t, u) :: s.members[k]) else s
  {
    if t in s.tenants {
      assert IsOwner(s.members, t, u) <==> s.tenants[t].owner == u;
    }
    assert s.members - {(t, u)} == map k | k in s.members && k != (t, u) :: s.members[k];
  }

  /** An invite is written exactly for a manager, and not for an owner. */
  lemma InviteDoes(s: State, c: Caller, t: nat, email: string, r: Role, expiresAt: int)
    requires Inv(s)
    ensures Step(s, CreateInvite(c, t, email, r, expiresAt)) ==
            if Manages(s, c, t) && r != Owner then
              s.(invites := s.invites[s.nextInvite := Invite(t, Lower(Strip(email)), r, expiresAt, None, false)],
                 nextInvite := s.nextInvite + 1)
            else s
  {
  }

  /** A revocation takes effect exactly for a manager of the tenant it is asked of,
      on an invite nobody has accepted. */
  lemma RevokeDoes(s: State, c: Caller, t: nat, id: nat)
    requires Inv(s)
    ensures Step(s, RevokeInvite(c, t, id)) ==
            if Manages(s, c, t) && id in s.invites && s.invites[id].acceptedBy.None?
            then s.(invites := s.invites[id := s.invites[id].(revoked := true)]) else s
  {
  }

  /** An invite can be accepted exactly while it is neither revoked nor accepted
      nor past its expiry, its tenant lives, and the address is the caller's, case
      aside. */
  lemma AcceptableIff(s: State, c: Caller, id: nat, now: int)
    requires id in s.invites
    ensures var i := s.invites[id];
            CanAccept(s, c, id, now) <==>
            && i.tenant in s.tenants && !s.tenants[i.tenant].deleted
            && !i.revoked && i.acceptedBy.None? && now <= i.expiresAt
            && |i.email| == |c.email|
            && forall k :: 0 <= k < |i.email| ==> LowerChar(i.email[k]) == LowerChar(c.email[k])
  {
    var i := s.invites[id];
    if Lower(i.email) == Lower(c.email) {
      forall k | 0 <= k < |i.email| ensures |i.email| == |c.email| && LowerChar(i.email[k]) == LowerChar(c.email[k]) {
        assert |Lower(i.email)| == |Lower(c.email)| && Lower(i.email)[k] == Lower(c.email)[k];
      }
      assert |Lower(i.email)| == |Lower(c.email)|;
    }
  }

  /** How an invite reads: revoked before accepted, accepted before expired. */
  lemma StatusIs(i: Invite, now: int)
    ensures StatusOf(i, now) == Revoked <==> i.revoked
    ensures StatusOf(i, now) == Accepted <==> !i.revoked && i.acceptedBy.Some?
    ensures StatusOf(i, now) == Expired <==> !i.revoked && i.acceptedBy.None? && i.expiresAt < now
    ensures StatusOf(i, now) == Pending <==> !i.revoked && i.acceptedBy.None? && now <= i.expiresAt
  {
  }

  /** A tenant is deleted exactly by a ruler who is the named owner of two live ones. */
  lemma DeleteDoes(s: State, c: Caller, t: nat)
    requires Inv(s)
    ensures Step(s, DeleteTenant(c, t)) ==
            if Rules(s, c, t)
               && exists a, b :: && a != b && a in s.tenants && b in s.tenants
                                 && !s.tenants[a].deleted && !s.tenants[b].deleted
                                 && s.tenants[a].owner == c.user && s.tenants[b].owner == c.user
            then s.(tenants := s.tenants[t := s.tenants[t].(deleted := true)]) else s
  {
    if a, b :| a != b && a in s.tenants && b in s.tenants && !s.tenants[a].deleted && !s.tenants[b].deleted
               && s.tenants[a].owner == c.user && s.tenants[b].owner == c.user {
      assert OwnedBy(s, a, c.user) && OwnedBy(s, b, c.user);
    }
  }

  predicate NewSlug(s: State, slug: string) {
    forall t :: t in s.tenants ==> s.tenants[t].slug != slug
  }

  function Created(s: State, owner: nat, slug: string): State {
    State(s.tenants[s.nextTenant := Tenant(owner, false, slug)], s.members[(s.nextTenant, owner) := Owner],
          s.invites, s.nextTenant + 1, s.nextInvite)
  }

  /** A tenant is created exactly if its slug is new; a default one, exactly if the
      caller owns no live tenant and the slug made of their address is new. */
  lemma CreationsDo(s: State, c: Caller, slug: string)
    requires Inv(s)
    ensures Step(s, CreateTenant(c, slug)) == if NewSlug(s, slug) then Created(s, c.user, slug) else s
    ensures var name := Lower(BeforeAt(if c.email == "" then "user" else c.email)) + "-" + Decimal(c.user);
            Step(s, EnsureDefault(c)) ==
            if (forall t :: t in s.tenants && s.tenants[t].owner == c.user ==> s.tenants[t].deleted) && NewSlug(s, name)
            then Created(s, c.user, name) else s
  {
    forall t | t in s.tenants ensures IsOwner(s.members, t, c.user) <==> s.tenants[t].owner == c.user {
    }
  }

  // ----- What does not hold -----

  const ALICE := Caller(1, false, "a@x")
  const BOB := Caller(2, false, "b@x")
  const CAROL := Caller(3, false, "c@x")

  const NOTHING := State(map[], map[], map[], 0, 0)

  lemma RunOne(s: State, ops: seq<Op>, op: Op)
    ensures Run(s, ops + [op]) == Step(Run(s, ops), op)
  {
    assert (ops + [op])[..|ops|] == ops;
  }

  /** A revocation is asked of one tenant and takes effect on any tenant's invite:
      exactly an administrator of the tenant it is asked of can revoke it, which
      need not be the invite's own. */
  lemma RevokedBy(s: State, op: Op, id: nat)
    requires Inv(s) && id in s.invites && !s.invites[id].revoked
    ensures Step(s, op).invites[id].revoked <==>
            && op.RevokeInvite? && op.invite == id && s.invites[id].acceptedBy.None?
            && Manages(s, op.caller, op.tenant)
  {
  }

  /** So a caller can revoke a given unaccepted invite by some request if and only
      if they administer some live tenant, whichever it is. */
  lemma RevocableIff(s: State, c: Caller, id: nat)
    requires Inv(s) && id in s.invites && !s.invites[id].revoked && s.invites[id].acceptedBy.None?
    ensures (exists op: Op :: op.caller == c && Step(s, op).invites[id].revoked) <==>
            exists t :: t in s.tenants && Manages(s, c, t)
  {
    if op: Op :| op.caller == c && Step(s, op).invites[id].revoked {
      RevokedBy(s, op, id);
      assert op.tenant in s.tenants;
    }
    if t :| t in s.tenants && Manages(s, c, t) {
      var op := RevokeInvite(c, t, id);
      RevokedBy(s, op, id);
      assert op.caller == c;
    }
  }

  /** Alice and Carol each own a tenant, and Alice has invited Bob to hers. */
  ghost predicate TwoTenants(s: State) {
    && s.tenants == map[0 := Tenant(1, false, "a"), 1 := Tenant(3, false, "c")] && s.nextTenant == 2
    && s.members == map[(0, 1) := Owner, (1, 3) := Owner]
  }

  lemma TwoCreated()
    ensures TwoTenants(Run(NOTHING, [CreateTenant(ALICE, "a"), CreateTenant(CAROL, "c")]))
    ensures Run(NOTHING, [CreateTenant(ALICE, "a"), CreateTenant(CAROL, "c")]).invites == map[]
    ensures Run(NOTHING, [CreateTenant(ALICE, "a"), CreateTenant(CAROL, "c")]).nextInvite == 0
  {
    RunOne(NOTHING, [], CreateTenant(ALICE, "a"));
    RunOne(NOTHING, [CreateTenant(ALICE, "a")], CreateTenant(CAROL, "c"));
    assert [] + [CreateTenant(ALICE, "a")] == [CreateTenant(ALICE, "a")];
    assert [CreateTenant(ALICE, "a")] + [CreateTenant(CAROL, "c")] ==
        [CreateTenant(ALICE, "a"), CreateTenant(CAROL, "c")];
    var s1 := Step(NOTHING, CreateTenant(ALICE, "a"));
    assert s1.tenants == map[0 := Tenant(1, false, "a")] && "a"[0] != "c"[0];
  }

  /** From nothing: two tenants, an invite to the first, and its revocation by the
      owner of the second, who has no role in the first. */
  lemma RevokedFromElsewhere() returns (ops: seq<Op>)
    ensures var s := Run(NOTHING, ops);
            && Inv(s) && 0 in s.invites && s.invites[0].tenant == 0 && !s.invites[0].revoked
            && !Manages(s, CAROL, 0) && Step(s, RevokeInvite(CAROL, 1, 0)).invites[0].revoked
  {
    TwoCreated();
    ops := [CreateTenant(ALICE, "a"), CreateTenant(CAROL, "c")] + [CreateInvite(ALICE, 0, "b@x", Member, 9)];
    RunOne(NOTHING, [CreateTenant(ALICE, "a"), CreateTenant(CAROL, "c")], CreateInvite(ALICE, 0, "b@x", Member, 9));
    OwnedAlways(NOTHING, ops);
    Elsewhere(Run(NOTHING, ops[..2]));
    assert ops[..2] == [CreateTenant(ALICE, "a"), CreateTenant(CAROL, "c")];
  }

  lemma Elsewhere(s: State)
    requires TwoTenants(s) && s.invites == map[] && s.nextInvite == 0
    ensures var s' := Step(s, CreateInvite(ALICE, 0, "b@x", Member, 9));
            && 0 in s'.invites && s'.invites[0].tenant == 0 && !s'.invites[0].revoked
            && !Manages(s', CAROL, 0) && Step(s', RevokeInvite(CAROL, 1, 0)).invites[0].revoked
  {
  }

  /** A default tenant that has been handed on keeps its slug. */
  ghost predicate HandedOn(s: State) {
    && s.tenants == map[0 := Tenant(2, false, DefaultSlug(ALICE))]
    && s.members == map[(0, 1) := Admin, (0, 2) := Owner]
  }

  lemma HandOn(s: State)
    requires s.tenants == map[0 := Tenant(1, false, DefaultSlug(ALICE))]
    requires s.members == map[(0, 1) := Owner, (0, 2) := Member]
    ensures HandedOn(Step(s, Transfer(ALICE, 0, 2)))
  {
  }

  lemma Joined(s: State)
    requires s.tenants == map[0 := Tenant(1, false, DefaultSlug(ALICE))] && s.members == map[(0, 1) := Owner]
    requires s.invites == map[0 := Invite(0, Lower(Strip("b@x")), Member, 9, None, false)]
    ensures Step(s, AcceptInvite(BOB, 0, 0)).members == map[(0, 1) := Owner, (0, 2) := Member]
    ensures Step(s, AcceptInvite(BOB, 0, 0)).tenants == s.tenants
  {
    assert "b@x"[..2] + "x" == "b@x";
    assert Strip("b@x") == "b@x";
    assert Lower(Lower("b@x")) == Lower("b@x");
  }

  /** Alice's default tenant is created, Bob joins it and is made its owner; then
      Alice owns nothing, and the default tenant she asks for is refused. */
  lemma DefaultRefused() returns (ops: seq<Op>)
    ensures var s := Run(NOTHING, ops);
            HandedOn(s) && !OwnsLive(s, 1) && Step(s, EnsureDefault(ALICE)) == s
  {
    ops := [] + [EnsureDefault(ALICE)];
    RunOne(NOTHING, [], EnsureDefault(ALICE));
    assert Run(NOTHING, ops).members == map[(0, 1) := Owner];
    RunOne(NOTHING, ops, CreateInvite(ALICE, 0, "b@x", Member, 9));
    ops := ops + [CreateInvite(ALICE, 0, "b@x", Member, 9)];
    Joined(Run(NOTHING, ops));
    RunOne(NOTHING, ops, AcceptInvite(BOB, 0, 0));
    ops := ops + [AcceptInvite(BOB, 0, 0)];
    HandOn(Run(NOTHING, ops));
    RunOne(NOTHING, ops, Transfer(ALICE, 0, 2));
    ops := ops + [Transfer(ALICE, 0, 2)];
    Refused(Run(NOTHING, ops));
  }

  lemma Refused(s: State)
    requires HandedOn(s)
    ensures !OwnsLive(s, 1) && Step(s, EnsureDefault(ALICE)) == s
  {
  }
}
