/**
 * The First Admin of a tenant: `assign` creates login account, membership and
 * role idempotently, `deactivate` takes all of them away again.
 */
module FirstAdmins {
  import opened Wrappers

  type Id = nat

  const TENANT_ADMIN_ROLE_NAME := "TENANT_ADMIN"

  datatype UserStatus = PendingSetup | ActiveUser

  datatype Account = Account(email: string, passwordHash: string)

  datatype TenantUser = TenantUser(
    id: Id, tenantId: Id, accountId: Id, status: UserStatus, isActive: bool, roles: set<Id>)

  datatype Role = Role(tenantId: Id, name: string)

  datatype Scope = SystemScope | TenantScope

  /** The public-schema identity tables; `systemEmails` are the addresses that back a system user. */
  datatype Identity = Identity(
    accounts: map<Id, Account>,
    users: seq<TenantUser>,
    roles: map<Id, Role>,
    grants: set<(Id, Id)>,
    permissions: map<Id, Scope>,
    systemEmails: set<string>)

  /** Ids and the placeholder hash a run of `assign` would generate. */
  datatype NewIds = NewIds(account: Id, user: Id, role: Id, placeholderHash: string)

  predicate IsAdminRole(r: Role, tenantId: Id) {
    r.tenantId == tenantId && r.name == TENANT_ADMIN_ROLE_NAME
  }

  /** Index of the tenant's first member, or the length when there is none. */
  function FirstUser(users: seq<TenantUser>, tenantId: Id): (i: nat)
    ensures i <= |users|
    ensures i < |users| ==> users[i].tenantId == tenantId
    ensures forall j | 0 <= j < i :: users[j].tenantId != tenantId
  {
    if users == [] then 0
    else if users[0].tenantId == tenantId then 0
    else 1 + FirstUser(users[1..], tenantId)
  }

  function AdminRoles(s: Identity, tenantId: Id): set<Id> {
    set r | r in s.roles && IsAdminRole(s.roles[r], tenantId)
  }

  function TenantPermissions(s: Identity): set<Id> {
    set p | p in s.permissions && s.permissions[p] == TenantScope
  }

  function GrantAll(grants: set<(Id, Id)>, role: Id, permissions: set<Id>): set<(Id, Id)> {
    grants + set p | p in permissions :: (role, p)
  }

  /** References resolve, role names are unique per tenant, and at most one role is the tenant's admin role. */
  ghost predicate ReferencesHold(s: Identity) {
    && (forall i | 0 <= i < |s.users| :: s.users[i].accountId in s.accounts && s.users[i].roles <= s.roles.Keys)
    && (forall i, j | 0 <= i < j < |s.users| :: s.users[i].id != s.users[j].id)
    && (forall g | g in s.grants :: g.0 in s.roles)
    && (forall r, r' | r in s.roles && r' in s.roles :: s.roles[r] == s.roles[r'] ==> r == r')
  }

  predicate Unused(s: Identity, ids: NewIds) {
    && ids.account !in s.accounts
    && ids.role !in s.roles
    && forall i | 0 <= i < |s.users| :: s.users[i].id != ids.user && s.users[i].accountId != ids.account
  }

  /** Removes links to deleted roles, as the join table's cascade does. */
  function WithoutRoles(users: seq<TenantUser>, gone: set<Id>): seq<TenantUser> {
    seq(|users|, i requires 0 <= i < |users| => users[i].(roles := users[i].roles - gone))
  }

  /** The role an assignment ends up with: the existing admin role, else a new one. */
  ghost function RoleFor(s: Identity, tenantId: Id, ids: NewIds): Id {
    if AdminRoles(s, tenantId) != {} then (var r :| r in AdminRoles(s, tenantId); r) else ids.role
  }

  /** The one transaction of `assign`; `None` is a rollback. */
  ghost function Assign(s: Identity, tenantId: Id, email: string, ids: NewIds): Option<Identity> {
    var i := FirstUser(s.users, tenantId);
    if i == |s.users| && email in s.systemEmails then None
    else
      var isNew := i == |s.users|;
      var role := RoleFor(s, tenantId, ids);
      var users := if isNew
                   then s.users + [TenantUser(ids.user, tenantId, ids.account, PendingSetup, true, {})]
                   else s.users;
      Some(s.(
        accounts := if isNew then s.accounts[ids.account := Account(email, ids.placeholderHash)] else s.accounts,
        users := users[i := users[i].(roles := users[i].roles + {role})],
        roles := if AdminRoles(s, tenantId) != {} then s.roles else s.roles[role := Role(tenantId, TENANT_ADMIN_ROLE_NAME)],
        grants := GrantAll(s.grants, role, TenantPermissions(s))))
  }

  /** The one transaction of `deactivate`, with the role's grants and links cascading. */
  function Deactivate(s: Identity, tenantId: Id): Identity {
    var gone := AdminRoles(s, tenantId);
    var i := FirstUser(s.users, tenantId);
    var remaining := if i < |s.users| then s.users[..i] + s.users[i + 1..] else s.users;
    s.(accounts := if i < |s.users| then s.accounts - {s.users[i].accountId} else s.accounts,
       users := WithoutRoles(remaining, gone),
       roles := s.roles - gone,
       grants := set g | g in s.grants && g.0 !in gone)
  }

  class FirstAdminService {
    var accounts: map<Id, Account>
    var users: seq<TenantUser>
    var roles: map<Id, Role>
    var grants: set<(Id, Id)>
    const permissions: map<Id, Scope>
    const systemEmails: set<string>

    constructor (s: Identity)
      ensures Tables() == s
    {
      accounts, users, roles, grants := s.accounts, s.users, s.roles, s.grants;
      permissions, systemEmails := s.permissions, s.systemEmails;
    }

    function Tables(): Identity
      reads this
    {
      Identity(accounts, users, roles, grants, permissions, systemEmails)
    }

    /** Throws, changing nothing, when the address belongs to a system user and no member exists yet. */
    method AssignAdmin(tenantId: Id, email: string, ids: NewIds) returns (ok: bool)
      requires ReferencesHold(Tables()) && Unused(Tables(), ids)
      modifies this
      ensures match Assign(old(Tables()), tenantId, email, ids)
              case Some(s) => ok && Tables() == s
              case None => !ok && Tables() == old(Tables())
    {
      var i := FirstUser(users, tenantId);
      if i == |users| {
        if email in systemEmails {
          return false;
        }
        accounts := accounts[ids.account := Account(email, ids.placeholderHash)];
        users := users + [TenantUser(ids.user, tenantId, ids.account, PendingSetup, true, {})];
      }
      var role := ids.role;
      if AdminRoles(Tables(), tenantId) != {} {
        role :| role in AdminRoles(Tables(), tenantId);
      } else {
        roles := roles[ids.role := Role(tenantId, TENANT_ADMIN_ROLE_NAME)];
      }
      GrantTenantScopePermissions(role);
      users := users[i := users[i].(roles := users[i].roles + {role})];
      ok := true;
    }

    method GrantTenantScopePermissions(role: Id)
      modifies this`grants
      ensures grants == GrantAll(old(grants), role, TenantPermissions(Tables()))
    {
      var ungranted := TenantPermissions(Tables());
      while ungranted != {}
        invariant ungranted <= TenantPermissions(Tables())
        invariant grants == GrantAll(old(grants), role, TenantPermissions(Tables()) - ungranted)
      {
        var p :| p in ungranted;
        grants := grants + {(role, p)};
        ungranted := ungranted - {p};
      }
    }

    method DeactivateAdmin(tenantId: Id)
      modifies this
      ensures Tables() == Deactivate(old(Tables()), tenantId)
    {
      var gone := AdminRoles(Tables(), tenantId);
      var i := FirstUser(users, tenantId);
      if i < |users| {
        accounts := accounts - {users[i].accountId};
        users := users[..i] + users[i + 1..];
      }
      roles := roles - gone;
      grants := set g | g in grants && g.0 !in gone;
      users := WithoutRoles(users, gone);
    }
  }

  // ----- assign and deactivate cancel ----------------------------------

  /** No member and no admin role of the tenant. */
  predicate NoAdmin(s: Identity, tenantId: Id) {
    FirstUser(s.users, tenantId) == |s.users| && AdminRoles(s, tenantId) == {}
  }

  /** `s` is `base` plus exactly one admin: account, membership, role and grants. */
  ghost predicate AddsAdmin(base: Identity, s: Identity, tenantId: Id, u: TenantUser, a: Account, r: Id, granted: set<Id>) {
    && u.tenantId == tenantId && u.roles == {r}
    && u.accountId !in base.accounts && r !in base.roles
    && s == base.(accounts := base.accounts[u.accountId := a],
                  users := base.users + [u],
                  roles := base.roles[r := Role(tenantId, TENANT_ADMIN_ROLE_NAME)],
                  grants := GrantAll(base.grants, r, granted))
  }

  ghost predicate AtMostAdminAdded(base: Identity, s: Identity, tenantId: Id) {
    s == base || exists u, a, r, granted :: AddsAdmin(base, s, tenantId, u, a, r, granted)
  }

  lemma {:induction false} FirstUserOfAppended(users: seq<TenantUser>, u: TenantUser, tenantId: Id)
    requires FirstUser(users, tenantId) == |users| && u.tenantId == tenantId
    ensures FirstUser(users + [u], tenantId) == |users|
  {
    assert forall j | 0 <= j < |users| :: (users + [u])[j] == users[j];
    assert (users + [u])[|users|] == u;
  }

  lemma AdminRolesAfterAdd(base: Identity, s: Identity, tenantId: Id, u: TenantUser, a: Account, r: Id, granted: set<Id>)
    requires NoAdmin(base, tenantId) && AddsAdmin(base, s, tenantId, u, a, r, granted)
    ensures AdminRoles(s, tenantId) == {r}
    ensures FirstUser(s.users, tenantId) == |base.users|
  {
    FirstUserOfAppended(base.users, u, tenantId);
    forall x
      ensures x in AdminRoles(s, tenantId) <==> x == r
    {
      if x != r && x in s.roles {
        assert x in base.roles && x !in AdminRoles(base, tenantId);
      }
    }
  }

  /** Assigning, from the base state or on top of an earlier assignment, adds one admin and nothing else. */
  lemma AssignAddsAtMostAdmin(base: Identity, s: Identity, tenantId: Id, email: string, ids: NewIds)
    requires NoAdmin(base, tenantId) && AtMostAdminAdded(base, s, tenantId)
    requires Unused(s, ids) && Assign(s, tenantId, email, ids).Some?
    ensures AtMostAdminAdded(base, Assign(s, tenantId, email, ids).value, tenantId)
    ensures Assign(s, tenantId, email, ids).value != base
  {
    var s' := Assign(s, tenantId, email, ids).value;
    if s == base {
      var u := TenantUser(ids.user, tenantId, ids.account, PendingSetup, true, {ids.role});
      assert {} + {ids.role} == {ids.role};
      assert s'.users == base.users + [u];
      assert AddsAdmin(base, s', tenantId, u, Account(email, ids.placeholderHash), ids.role, TenantPermissions(s));
      assert |s'.users| != |base.users|;
    } else {
      var u, a, r, granted :| AddsAdmin(base, s, tenantId, u, a, r, granted);
      AdminRolesAfterAdd(base, s, tenantId, u, a, r, granted);
      assert RoleFor(s, tenantId, ids) in AdminRoles(s, tenantId);
      assert u.roles + {r} == u.roles;
      assert s'.users == s.users;
      assert GrantAll(GrantAll(base.grants, r, granted), r, TenantPermissions(s)) ==
             GrantAll(base.grants, r, granted + TenantPermissions(s));
      assert AddsAdmin(base, s', tenantId, u, a, r, granted + TenantPermissions(s));
      assert |s'.users| != |base.users|;
    }
  }

  /** Deactivation restores the accounts, memberships, roles and grants there were before. */
  lemma DeactivateRestores(base: Identity, s: Identity, tenantId: Id)
    requires ReferencesHold(base) && NoAdmin(base, tenantId) && AtMostAdminAdded(base, s, tenantId)
    ensures Deactivate(s, tenantId) == base
  {
    if s == base {
      NothingToDeactivate(base, tenantId);
    } else {
      var u, a, r, granted :| AddsAdmin(base, s, tenantId, u, a, r, granted);
      AddedAdminDeactivated(base, s, tenantId, u, a, r, granted);
    }
  }

  lemma NothingToDeactivate(base: Identity, tenantId: Id)
    requires NoAdmin(base, tenantId)
    ensures Deactivate(base, tenantId) == base
  {
    forall i | 0 <= i < |base.users|
      ensures base.users[i].roles - {} == base.users[i].roles
    {
    }
    assert WithoutRoles(base.users, {}) == base.users;
    assert base.roles - {} == base.roles;
    assert (set g | g in base.grants && g.0 !in {}) == base.grants;
  }

  lemma AddedAdminDeactivated(base: Identity, s: Identity, tenantId: Id, u: TenantUser, a: Account, r: Id, granted: set<Id>)
    requires ReferencesHold(base) && NoAdmin(base, tenantId)
    requires AddsAdmin(base, s, tenantId, u, a, r, granted)
    ensures Deactivate(s, tenantId) == base
  {
    AdminRolesAfterAdd(base, s, tenantId, u, a, r, granted);
    LinksUntouched(base, r);
    GrantsUntouched(base, s.grants, r, granted);
    var n := |base.users|;
    assert s.users[..n] + s.users[n + 1..] == base.users;
    assert s.accounts - {u.accountId} == base.accounts;
    assert s.roles - {r} == base.roles;
  }

  lemma LinksUntouched(base: Identity, r: Id)
    requires ReferencesHold(base) && r !in base.roles
    ensures WithoutRoles(base.users, {r}) == base.users
  {
    forall i | 0 <= i < |base.users|
      ensures base.users[i].roles - {r} == base.users[i].roles
    {
      assert base.users[i].roles <= base.roles.Keys;
    }
  }

  lemma GrantsUntouched(base: Identity, grants: set<(Id, Id)>, r: Id, granted: set<Id>)
    requires ReferencesHold(base) && r !in base.roles && grants == GrantAll(base.grants, r, granted)
    ensures (set g | g in grants && g.0 !in {r}) == base.grants
  {
  }

  datatype Assignment = Assignment(email: string, ids: NewIds)

  ghost predicate Assignable(s: Identity, tenantId: Id, calls: seq<Assignment>)
    decreases |calls|
  {
    calls == [] ||
    (&& Unused(s, calls[0].ids) && Assign(s, tenantId, calls[0].email, calls[0].ids).Some?
     && Assignable(Assign(s, tenantId, calls[0].email, calls[0].ids).value, tenantId, calls[1..]))
  }

  ghost function AssignEach(s: Identity, tenantId: Id, calls: seq<Assignment>): Identity
    requires Assignable(s, tenantId, calls)
    decreases |calls|
  {
    if calls == [] then s
    else AssignEach(Assign(s, tenantId, calls[0].email, calls[0].ids).value, tenantId, calls[1..])
  }

  lemma {:induction false} AssignEachAddsAtMostAdmin(base: Identity, s: Identity, tenantId: Id, calls: seq<Assignment>)
    requires NoAdmin(base, tenantId) && AtMostAdminAdded(base, s, tenantId) && Assignable(s, tenantId, calls)
    ensures AtMostAdminAdded(base, AssignEach(s, tenantId, calls), tenantId)
    decreases |calls|
  {
    if calls != [] {
      AssignAddsAtMostAdmin(base, s, tenantId, calls[0].email, calls[0].ids);
      AssignEachAddsAtMostAdmin(
        base, Assign(s, tenantId, calls[0].email, calls[0].ids).value, tenantId, calls[1..]);
    }
  }

  /** Any number of assignments, then one deactivation, leaves every identity table as it was. */
  lemma AssignRepeatedlyThenDeactivate(base: Identity, tenantId: Id, calls: seq<Assignment>)
    requires ReferencesHold(base) && NoAdmin(base, tenantId) && Assignable(base, tenantId, calls)
    ensures Deactivate(AssignEach(base, tenantId, calls), tenantId) == base
  {
    AssignEachAddsAtMostAdmin(base, base, tenantId, calls);
    DeactivateRestores(base, AssignEach(base, tenantId, calls), tenantId);
  }

  // ----- what an assignment is for -------------------------------------

  /** The tenant's first member holds an admin role that is granted every tenant permission. */
  ghost predicate HasFullAdmin(s: Identity, tenantId: Id) {
    var i := FirstUser(s.users, tenantId);
    && i < |s.users|
    && exists r | r in s.users[i].roles ::
         && r in s.roles && s.roles[r] == Role(tenantId, TENANT_ADMIN_ROLE_NAME)
         && forall p | p in s.permissions && s.permissions[p] == TenantScope :: (r, p) in s.grants
  }

  /** The first member then is an admin with every tenant permission, and no other grant is new. */
  lemma AssignMakesFullAdmin(s: Identity, tenantId: Id, email: string, ids: NewIds)
    requires Unused(s, ids) && Assign(s, tenantId, email, ids).Some?
    ensures var s' := Assign(s, tenantId, email, ids).value;
            && HasFullAdmin(s', tenantId) && s'.permissions == s.permissions && s.grants <= s'.grants
            && forall g | g in s'.grants && g !in s.grants ::
                 && g.0 in s'.roles && s'.roles[g.0] == Role(tenantId, TENANT_ADMIN_ROLE_NAME)
                 && g.1 in s.permissions && s.permissions[g.1] == TenantScope
  {
    var s' := Assign(s, tenantId, email, ids).value;
    var i, r := FirstUser(s.users, tenantId), RoleFor(s, tenantId, ids);
    FirstUserAfterAssign(s, tenantId, email, ids);
    assert r in s'.users[i].roles && r in AdminRoles(s', tenantId);
  }

  lemma FirstUserAfterAssign(s: Identity, tenantId: Id, email: string, ids: NewIds)
    requires Unused(s, ids) && Assign(s, tenantId, email, ids).Some?
    ensures var s' := Assign(s, tenantId, email, ids).value;
            FirstUser(s'.users, tenantId) == FirstUser(s.users, tenantId) < |s'.users|
            && forall j | 0 <= j < |s.users| && j != FirstUser(s.users, tenantId) :: s'.users[j] == s.users[j]
  {
    var users := Assign(s, tenantId, email, ids).value.users;
    var i := FirstUser(s.users, tenantId);
    assert users[i].tenantId == tenantId;
  }

  /** Assigning again, with any address and any generated ids, changes nothing. */
  lemma AssignTwiceIsOnce(s: Identity, tenantId: Id, email: string, ids: NewIds, email': string, ids': NewIds)
    requires Unused(s, ids) && Assign(s, tenantId, email, ids).Some?
    requires forall r, r' | r in AdminRoles(s, tenantId) && r' in AdminRoles(s, tenantId) :: r == r'
    ensures var s' := Assign(s, tenantId, email, ids).value; Assign(s', tenantId, email', ids') == Some(s')
  {
    var s' := Assign(s, tenantId, email, ids).value;
    var i, r := FirstUser(s.users, tenantId), RoleFor(s, tenantId, ids);
    FirstUserAfterAssign(s, tenantId, email, ids);
    assert AdminRoles(s', tenantId) == {r};
    assert RoleFor(s', tenantId, ids') == r;
    assert s'.users[i].roles + {r} == s'.users[i].roles;
    assert s'.users[i := s'.users[i].(roles := s'.users[i].roles + {r})] == s'.users;
    assert GrantAll(s'.grants, r, TenantPermissions(s')) == s'.grants;
  }
}
