/**
 * app/models/account.py: the closed role set and its predicates, account status,
 * accounts and tenants as mutable records, tenant memberships (joins) and the
 * directory that `Account.create` and the membership queries work on.
 */
module AccountModel {
  import opened Wrappers
  import opened Strings

  // ---------------------------------------------------------------- roles

  datatype Role = Owner | Admin | Editor | Normal | DatasetOperator

  /** The string value of a `TenantAccountRole` member. */
  function RoleName(r: Role): string
  {
    match r
    case Owner => "owner"
    case Admin => "admin"
    case Editor => "editor"
    case Normal => "normal"
    case DatasetOperator => "dataset_operator"
  }

  /** `TenantAccountRole(value)`: the member with that value, if any. */
  function ParseRole(s: string): (r: Option<Role>)
    ensures r.Some? ==> RoleName(r.value) == s
    ensures r.None? ==> forall role: Role :: RoleName(role) != s
  {
    if s == "owner" then Some(Owner)
    else if s == "admin" then Some(Admin)
    else if s == "editor" then Some(Editor)
    else if s == "normal" then Some(Normal)
    else if s == "dataset_operator" then Some(DatasetOperator)
    else None
  }

  /** `is_valid_role`: falsy input is invalid, otherwise membership in the five values. */
  function IsValidRole(role: string): (valid: bool)
    ensures valid <==> ParseRole(role).Some?
  {
    role != "" && role in {"owner", "admin", "editor", "normal", "dataset_operator"}
  }

  function IsPrivilegedRole(role: Option<string>): (b: bool)
    ensures b <==> role.Some? && ParseRole(role.value) in {Some(Owner), Some(Admin)}
  {
    Truthy(role) && role.value in {"owner", "admin"}
  }

  function IsAdminRole(role: Option<string>): (b: bool)
    ensures b <==> role.Some? && ParseRole(role.value) == Some(Admin)
  {
    Truthy(role) && role.value == "admin"
  }

  function IsNonOwnerRole(role: Option<string>): (b: bool)
    ensures b <==> role.Some? && ParseRole(role.value).Some? && ParseRole(role.value) != Some(Owner)
  {
    Truthy(role) && role.value in {"admin", "editor", "normal", "dataset_operator"}
  }

  function IsEditingRole(role: Option<string>): (b: bool)
    ensures b <==> role.Some? && ParseRole(role.value) in {Some(Owner), Some(Admin), Some(Editor)}
  {
    Truthy(role) && role.value in {"owner", "admin", "editor"}
  }

  function IsDatasetEditRole(role: Option<string>): (b: bool)
    ensures b <==> role.Some? && ParseRole(role.value).Some? && ParseRole(role.value) != Some(Normal)
  {
    Truthy(role) && role.value in {"owner", "admin", "editor", "dataset_operator"}
  }

  /** The valid roles are exactly the names of the five enum members. */
  lemma ValidRoleIsRoleName(role: string)
    ensures IsValidRole(role) <==> ParseRole(role).Some?
    ensures !IsValidRole("")
  {
  }

  /** The predicate sets nest: admin within privileged within editing within dataset-edit. */
  lemma RolePredicatesNest(role: Option<string>)
    ensures IsAdminRole(role) ==> IsPrivilegedRole(role)
    ensures IsPrivilegedRole(role) ==> IsEditingRole(role)
    ensures IsEditingRole(role) ==> IsDatasetEditRole(role)
    ensures IsDatasetEditRole(role) ==> IsValidRole(role.value)
  {
  }

  /** A non-owner role is a valid role other than owner. */
  lemma NonOwnerIsValidButOwner(role: string)
    ensures IsNonOwnerRole(Some(role)) <==> IsValidRole(role) && role != "owner"
  {
  }

  /** None and the empty string satisfy none of the predicates. */
  lemma FalsyRoleHasNoRights()
    ensures !IsPrivilegedRole(None) && !IsAdminRole(None) && !IsNonOwnerRole(None)
    ensures !IsEditingRole(None) && !IsDatasetEditRole(None)
    ensures !IsPrivilegedRole(Some("")) && !IsAdminRole(Some("")) && !IsNonOwnerRole(Some(""))
    ensures !IsEditingRole(Some("")) && !IsDatasetEditRole(Some(""))
  {
  }

  // ---------------------------------------------------------------- status

  datatype AccountStatus = Pending | Uninitialized | Active | Banned | Closed

  function StatusName(s: AccountStatus): string
  {
    match s
    case Pending => "pending"
    case Uninitialized => "uninitialized"
    case Active => "active"
    case Banned => "banned"
    case Closed => "closed"
  }

  /** `AccountStatus(value)`: `None` is the `ValueError` case. */
  function ParseStatus(s: string): (r: Option<AccountStatus>)
    ensures r.Some? ==> StatusName(r.value) == s
    ensures r.None? ==> forall st: AccountStatus :: StatusName(st) != s
  {
    if s == "pending" then Some(Pending)
    else if s == "uninitialized" then Some(Uninitialized)
    else if s == "active" then Some(Active)
    else if s == "banned" then Some(Banned)
    else if s == "closed" then Some(Closed)
    else None
  }

  lemma StatusRoundTrip(st: AccountStatus)
    ensures ParseStatus(StatusName(st)) == Some(st)
  {
  }

  /** `TenantNotAssigned` is the `AttributeError` of reading `_current_tenant` before either setter ran. */
  datatype ModelError = InvalidStatus(value: string) | TenantNotAssigned | NoCurrentTenant | RoleNotResolved

  // ---------------------------------------------------------------- memberships

  /** A `tenant_account_joins` row: the role column holds a string. */
  datatype Join = Join(tenantId: string, accountId: string, role: string)

  predicate JoinMatches(j: Join, tenantId: string, accountId: string)
  {
    j.tenantId == tenantId && j.accountId == accountId
  }

  /** The `unique_tenant_account_join` constraint. */
  predicate UniqueJoins(joins: seq<Join>)
  {
    forall i, j :: 0 <= i < j < |joins| ==> !JoinMatches(joins[j], joins[i].tenantId, joins[i].accountId)
  }

  /** Index of the first join for (tenant, account). */
  function FindJoin(joins: seq<Join>, tenantId: string, accountId: string): (r: Option<nat>)
    ensures r.Some? ==> r.value < |joins| && JoinMatches(joins[r.value], tenantId, accountId)
    ensures r.Some? ==> forall i :: 0 <= i < r.value ==> !JoinMatches(joins[i], tenantId, accountId)
    ensures r.None? <==> forall i :: 0 <= i < |joins| ==> !JoinMatches(joins[i], tenantId, accountId)
  {
    if |joins| == 0 then None
    else if JoinMatches(joins[0], tenantId, accountId) then Some(0)
    else
      match FindJoin(joins[1..], tenantId, accountId)
      case None =>
        assert forall i :: 1 <= i < |joins| ==> joins[i] == joins[1..][i - 1];
        None
      case Some(k) =>
        assert forall i :: 1 <= i <= k ==> joins[i] == joins[1..][i - 1];
        Some(k + 1)
  }

  /** `TenantAccountJoin.get_by_account`: the first join matching both ids. */
  function GetByAccount(joins: seq<Join>, tenantId: string, accountId: string): (r: Option<Join>)
    ensures r.Some? ==> r.value in joins && JoinMatches(r.value, tenantId, accountId)
    ensures r.None? <==> forall j :: j in joins ==> !JoinMatches(j, tenantId, accountId)
  {
    match FindJoin(joins, tenantId, accountId)
    case None => None
    case Some(i) => Some(joins[i])
  }

  /** Under the uniqueness constraint the join `get_by_account` finds is the only one. */
  lemma GetByAccountIsTheJoin(joins: seq<Join>, k: nat, tenantId: string, accountId: string)
    requires UniqueJoins(joins)
    requires k < |joins| && JoinMatches(joins[k], tenantId, accountId)
    ensures GetByAccount(joins, tenantId, accountId) == Some(joins[k])
    ensures FindJoin(joins, tenantId, accountId) == Some(k)
  {
  }

  /**
   * The membership step of provisioning: create the join at `role` when there is
   * none, overwrite its role when it differs, leave it alone otherwise.
   */
  function SyncMembership(joins: seq<Join>, tenantId: string, accountId: string, role: string): (r: seq<Join>)
    ensures |r| == |joins| + (if FindJoin(joins, tenantId, accountId).None? then 1 else 0)
    ensures forall i :: 0 <= i < |joins| && !JoinMatches(joins[i], tenantId, accountId) ==> r[i] == joins[i]
  {
    match FindJoin(joins, tenantId, accountId)
    case None => joins + [Join(tenantId, accountId, role)]
    case Some(i) => if joins[i].role != role then joins[i := Join(tenantId, accountId, role)] else joins
  }

  /** Syncing a membership keeps (tenant, account) unique. */
  lemma SyncMembershipKeepsUnique(joins: seq<Join>, tenantId: string, accountId: string, role: string)
    requires UniqueJoins(joins)
    ensures UniqueJoins(SyncMembership(joins, tenantId, accountId, role))
  {
    var r := SyncMembership(joins, tenantId, accountId, role);
    match FindJoin(joins, tenantId, accountId)
    case None =>
      forall i, j | 0 <= i < j < |r| ensures !JoinMatches(r[j], r[i].tenantId, r[i].accountId) {
        if j == |joins| {
          assert !JoinMatches(joins[i], tenantId, accountId);
        }
      }
    case Some(k) =>
  }

  /** After the sync the membership exists, carries `role`, and no earlier join shadows it. */
  lemma SyncMembershipEstablishes(joins: seq<Join>, tenantId: string, accountId: string, role: string)
    ensures GetByAccount(SyncMembership(joins, tenantId, accountId, role), tenantId, accountId)
            == Some(Join(tenantId, accountId, role))
  {
    var r := SyncMembership(joins, tenantId, accountId, role);
    match FindJoin(joins, tenantId, accountId)
    case None =>
      assert FindJoin(r, tenantId, accountId) == Some(|joins|) by {
        var f := FindJoin(r, tenantId, accountId);
        assert JoinMatches(r[|joins|], tenantId, accountId);
      }
    case Some(k) =>
      assert FindJoin(r, tenantId, accountId) == Some(k) by {
        var f := FindJoin(r, tenantId, accountId);
        assert JoinMatches(r[k], tenantId, accountId);
      }
  }

  /** Repeating the sync with the same inputs changes nothing: provisioning is idempotent. */
  lemma SyncMembershipIdempotent(joins: seq<Join>, tenantId: string, accountId: string, role: string)
    ensures var once := SyncMembership(joins, tenantId, accountId, role);
            SyncMembership(once, tenantId, accountId, role) == once
  {
    var once := SyncMembership(joins, tenantId, accountId, role);
    SyncMembershipEstablishes(joins, tenantId, accountId, role);
    var k := FindJoin(once, tenantId, accountId).value;
    assert once[k] == Join(tenantId, accountId, role);
  }

  /** Memberships of every other (tenant, account) pair are untouched by the sync. */
  lemma SyncMembershipFrame(joins: seq<Join>, tenantId: string, accountId: string, role: string,
                            otherTenant: string, otherAccount: string)
    requires otherTenant != tenantId || otherAccount != accountId
    ensures GetByAccount(SyncMembership(joins, tenantId, accountId, role), otherTenant, otherAccount)
            == GetByAccount(joins, otherTenant, otherAccount)
  {
    var r := SyncMembership(joins, tenantId, accountId, role);
    var before := FindJoin(joins, otherTenant, otherAccount);
    var after := FindJoin(r, otherTenant, otherAccount);
    assert forall i :: 0 <= i < |r| && JoinMatches(r[i], otherTenant, otherAccount) ==> i < |joins| && r[i] == joins[i];
    assert forall i :: 0 <= i < |joins| && JoinMatches(joins[i], otherTenant, otherAccount) ==> i < |r| && r[i] == joins[i];
    if before.Some? {
      assert after.Some? && after.value == before.value by {
        assert JoinMatches(r[before.value], otherTenant, otherAccount);
      }
    }
  }

  // ---------------------------------------------------------------- tenants and accounts

  /** A tenant row; `current_role` is an attribute the setters attach, absent until then. */
  class Tenant {
    const id: string
    var currentRole: Option<string>

    constructor (id: string)
      ensures this.id == id && currentRole == None
    {
      this.id := id;
      currentRole := None;
    }
  }

  /** An account row. Its id and email are never changed by the core. */
  class Account {
    const id: string
    const email: string
    var name: string
    var avatar: Option<string>
    var interfaceTheme: Option<string>
    var interfaceLanguage: Option<string>
    var timezone: Option<string>
    var status: string
    var initializedAt: Option<int>
    var lastLoginAt: Option<int>
    var lastLoginIp: Option<string>
    var currentTenant: Tenant?
    /** Whether `_current_tenant` was ever assigned: `create` does not, only the two setters do. */
    var tenantAssigned: bool

    /** The row `Account.create` builds (before it is added to the session). */
    constructor (id: string, email: string, name: string, avatar: Option<string>, now: int)
      ensures this.id == id && this.email == email && this.name == name && this.avatar == avatar
      ensures interfaceTheme == Some("light") && interfaceLanguage == Some("zh-Hans")
      ensures timezone == Some("Asia/Shanghai")
      ensures status == StatusName(Active) && initializedAt == Some(now)
      ensures lastLoginAt == None && lastLoginIp == None && currentTenant == null && !tenantAssigned
    {
      this.id := id;
      this.email := email;
      this.name := name;
      this.avatar := avatar;
      interfaceTheme := Some("light");
      interfaceLanguage := Some("zh-Hans");
      timezone := Some("Asia/Shanghai");
      status := StatusName(Active);
      initializedAt := Some(now);
      lastLoginAt := None;
      lastLoginIp := None;
      currentTenant := null;
      tenantAssigned := false;
    }

    /** `get_status`: the enum member for the stored string, or the `ValueError` case. */
    function GetStatus(): (r: Result<AccountStatus, ModelError>)
      reads this
      ensures r.Ok? ==> StatusName(r.value) == status
      ensures r.Err? ==> r.error == InvalidStatus(status) && forall st: AccountStatus :: StatusName(st) != status
    {
      match ParseStatus(status)
      case Some(st) => Ok(st)
      case None => Err(InvalidStatus(status))
    }

    /**
     * The `current_tenant` setter: with a join for (tenant, this account) the tenant
     * gets that join's role and becomes current; without one the current tenant is None.
     * Only the current tenant and the tenant's role can change.
     */
    method SetCurrentTenant(tenant: Tenant, joins: seq<Join>)
      modifies this`currentTenant, this`tenantAssigned, tenant`currentRole
      ensures tenantAssigned
      ensures GetByAccount(joins, tenant.id, id).Some? ==>
                currentTenant == tenant && tenant.currentRole == Some(GetByAccount(joins, tenant.id, id).value.role)
      ensures GetByAccount(joins, tenant.id, id).None? ==>
                currentTenant == null && tenant.currentRole == old(tenant.currentRole)
      ensures CurrentTenantId() == Ok(if GetByAccount(joins, tenant.id, id).Some? then Some(tenant.id) else None)
    {
      var ta := GetByAccount(joins, tenant.id, id);
      tenantAssigned := true;
      if ta.Some? {
        tenant.currentRole := Some(ta.value.role);
        currentTenant := tenant;
      } else {
        currentTenant := null;
      }
    }

    /**
     * The `current_tenant_id` setter: `one_or_none` over the pairs of a tenant with that
     * id and a membership of that tenant for this account. The one row makes its
     * tenant current with the row's role; no row, or several (which raise and are
     * caught), leave no current tenant and every tenant's role as it was.
     */
    method SetCurrentTenantId(value: string, tenants: seq<Tenant>, joins: seq<Join>)
      modifies this`currentTenant, this`tenantAssigned, (set t | t in tenants && t.id == value)`currentRole
      ensures tenantAssigned
      ensures var row := TenantIdQuery(tenants, joins, value, id);
              (row.Some? ==> currentTenant == row.value.0 && row.value.0.currentRole == Some(row.value.1.role))
              && (row.None? ==> currentTenant == null)
      ensures var row := TenantIdQuery(tenants, joins, value, id);
              forall t :: t in tenants && (row.None? || t != row.value.0) ==> t.currentRole == old(t.currentRole)
      ensures var row := TenantIdQuery(tenants, joins, value, id);
              CurrentTenantId() == Ok(if row.Some? then Some(row.value.0.id) else None)
    {
      var row := TenantIdQuery(tenants, joins, value, id);
      tenantAssigned := true;
      if row.Some? {
        var (tenant, ta) := row.value;
        tenant.currentRole := Some(ta.role);
        currentTenant := tenant;
      } else {
        currentTenant := null;
      }
    }

    /** `current_tenant_id`: the `AttributeError` before a setter ran, then the tenant's id or None. */
    function CurrentTenantId(): (r: Result<Option<string>, ModelError>)
      reads this
      ensures r.Err? <==> !tenantAssigned
      ensures r.Err? ==> r.error == TenantNotAssigned
      ensures r.Ok? ==> (r.value.None? <==> currentTenant == null)
      ensures r.Ok? && r.value.Some? ==> currentTenant != null && r.value.value == currentTenant.id
    {
      if !tenantAssigned then Err(TenantNotAssigned)
      else if currentTenant == null then Ok(None) else Ok(Some(currentTenant.id))
    }

    /**
     * `current_role`: reading it before a setter ran, without a current tenant, or
     * before a role was attached raises.
     */
    function CurrentRole(): (r: Result<string, ModelError>)
      reads this, currentTenant
      ensures r.Ok? <==> tenantAssigned && currentTenant != null && currentTenant.currentRole.Some?
      ensures !tenantAssigned ==> r == Err(TenantNotAssigned)
      ensures r.Ok? ==> r.value == currentTenant.currentRole.value
    {
      if !tenantAssigned then Err(TenantNotAssigned)
      else if currentTenant == null then Err(NoCurrentTenant)
      else if currentTenant.currentRole.None? then Err(RoleNotResolved)
      else Ok(currentTenant.currentRole.value)
    }
  }

  /**
   * The fields `Account.create` fills in beyond the ones it is given: theme,
   * language, timezone and `initialized_at` read at `now`.
   */
  predicate HasCreateDefaults(a: Account, now: int)
    reads a`interfaceTheme, a`interfaceLanguage, a`timezone, a`initializedAt
  {
    a.interfaceTheme == Some("light") && a.interfaceLanguage == Some("zh-Hans")
    && a.timezone == Some("Asia/Shanghai") && a.initializedAt == Some(now)
  }

  /** The tenants with the given id, in table order. */
  function TenantsWithId(tenants: seq<Tenant>, id: string): (r: seq<Tenant>)
    ensures forall t :: t in r ==> t in tenants && t.id == id
    ensures forall t :: t in tenants && t.id == id ==> t in r
  {
    if |tenants| == 0 then []
    else (if tenants[0].id == id then [tenants[0]] else []) + TenantsWithId(tenants[1..], id)
  }

  /** The memberships of (tenant, account), in table order. */
  function JoinsFor(joins: seq<Join>, tenantId: string, accountId: string): (r: seq<Join>)
    ensures forall j :: j in r <==> j in joins && JoinMatches(j, tenantId, accountId)
  {
    if |joins| == 0 then []
    else (if JoinMatches(joins[0], tenantId, accountId) then [joins[0]] else []) + JoinsFor(joins[1..], tenantId, accountId)
  }

  /** Under the uniqueness constraint a pair has its one join, or none. */
  lemma {:induction false} JoinsForUnique(joins: seq<Join>, tenantId: string, accountId: string)
    requires UniqueJoins(joins)
    ensures GetByAccount(joins, tenantId, accountId).None? ==> JoinsFor(joins, tenantId, accountId) == []
    ensures GetByAccount(joins, tenantId, accountId).Some? ==>
              JoinsFor(joins, tenantId, accountId) == [GetByAccount(joins, tenantId, accountId).value]
  {
    var r := JoinsFor(joins, tenantId, accountId);
    if |joins| > 0 {
      var tail := joins[1..];
      assert UniqueJoins(tail) by {
        forall i, j | 0 <= i < j < |tail| ensures !JoinMatches(tail[j], tail[i].tenantId, tail[i].accountId) {
          assert tail[i] == joins[i + 1] && tail[j] == joins[j + 1];
        }
      }
      JoinsForUnique(tail, tenantId, accountId);
      if JoinMatches(joins[0], tenantId, accountId) {
        assert FindJoin(joins, tenantId, accountId) == Some(0);
        assert forall k :: 0 <= k < |tail| ==> !JoinMatches(tail[k], tenantId, accountId) by {
          forall k | 0 <= k < |tail| ensures !JoinMatches(tail[k], tenantId, accountId) {
            assert tail[k] == joins[k + 1];
          }
        }
        assert GetByAccount(tail, tenantId, accountId).None?;
      } else {
        assert FindJoin(joins, tenantId, accountId) == (match FindJoin(tail, tenantId, accountId)
                                                         case None => None case Some(k) => Some(k + 1));
      }
    } else {
      assert r == [];
    }
  }

  /** The rows of `query(Tenant, TenantAccountJoin)`: every tenant paired with every join. */
  function QueryRows(ts: seq<Tenant>, js: seq<Join>): (rows: seq<(Tenant, Join)>)
    ensures |rows| == |ts| * |js|
    ensures forall k :: 0 <= k < |rows| ==> rows[k].0 in ts && rows[k].1 in js
  {
    if |ts| == 0 then []
    else seq(|js|, k requires 0 <= k < |js| => (ts[0], js[k])) + QueryRows(ts[1..], js)
  }

  /** `one_or_none`: the only row; no row, or the error several rows raise, is None. */
  function OneOrNone<T>(rows: seq<T>): (r: Option<T>)
    ensures r.Some? <==> |rows| == 1
    ensures r.Some? ==> r.value == rows[0]
  {
    if |rows| == 1 then Some(rows[0]) else None
  }

  /** The query of the `current_tenant_id` setter. */
  function TenantIdQuery(tenants: seq<Tenant>, joins: seq<Join>, value: string, accountId: string)
    : (r: Option<(Tenant, Join)>)
    ensures r.Some? ==> r.value.0 in tenants && r.value.0.id == value
                        && r.value.1 in joins && JoinMatches(r.value.1, value, accountId)
    ensures r.Some? <==> |TenantsWithId(tenants, value)| == 1 && |JoinsFor(joins, value, accountId)| == 1
  {
    var ts := TenantsWithId(tenants, value);
    var js := JoinsFor(joins, value, accountId);
    ProductIsOne(|ts|, |js|);
    OneOrNone(QueryRows(ts, js))
  }

  lemma ProductIsOne(a: nat, b: nat)
    ensures a * b == 1 <==> a == 1 && b == 1
  {
    if a >= 2 && b >= 1 {
      assert a * b >= 2 * b by { MulAtLeast(a, 2, b); }
    } else if a >= 1 && b >= 2 {
      assert a * b >= a * 2 by { MulAtLeast(b, 2, a); }
    }
  }

  lemma MulAtLeast(x: nat, y: nat, z: nat)
    requires x >= y
    ensures x * z >= y * z
  {
  }

  /**
   * Within the uniqueness constraint the query finds a row exactly when one tenant
   * has the id and the account is its member, and the row carries the membership
   * `get_by_account` finds: the two setters then agree.
   */
  lemma TenantIdQueryUnderUniqueness(tenants: seq<Tenant>, joins: seq<Join>, value: string, accountId: string)
    requires UniqueJoins(joins)
    ensures TenantIdQuery(tenants, joins, value, accountId).Some? <==>
              |TenantsWithId(tenants, value)| == 1 && GetByAccount(joins, value, accountId).Some?
    ensures TenantIdQuery(tenants, joins, value, accountId).Some? ==>
              TenantIdQuery(tenants, joins, value, accountId).value
              == (TenantsWithId(tenants, value)[0], GetByAccount(joins, value, accountId).value)
  {
    JoinsForUnique(joins, value, accountId);
    var ts := TenantsWithId(tenants, value);
    var js := JoinsFor(joins, value, accountId);
    if |ts| == 1 && |js| == 1 {
      var rows := QueryRows(ts, js);
      assert rows[0] == (ts[0], js[0]);
    }
  }

  /** `Account.get_by_email`: the first account with exactly this email. */
  function FindByEmail(accounts: seq<Account>, email: string): (r: Option<Account>)
    ensures r.Some? ==> r.value in accounts && r.value.email == email
    ensures r.None? <==> forall a :: a in accounts ==> a.email != email
  {
    if |accounts| == 0 then None
    else if accounts[0].email == email then Some(accounts[0])
    else FindByEmail(accounts[1..], email)
  }

  /** An account appended for an email nobody had is what the next lookup finds. */
  lemma FindByEmailAfterCreate(accounts: seq<Account>, a: Account)
    requires FindByEmail(accounts, a.email).None?
    ensures FindByEmail(accounts + [a], a.email) == Some(a)
  {
    if |accounts| > 0 {
      assert (accounts + [a])[1..] == accounts[1..] + [a];
      FindByEmailAfterCreate(accounts[1..], a);
    }
  }

  /** Account ids are primary keys. */
  predicate DistinctIds(accounts: seq<Account>)
  {
    forall i, j :: 0 <= i < j < |accounts| ==> accounts[i].id != accounts[j].id
  }

  /** The account and membership tables, as the database session sees them. */
  class Directory {
    var accounts: seq<Account>
    var joins: seq<Join>

    ghost predicate Valid()
      reads this
    {
      UniqueJoins(joins) && DistinctIds(accounts)
    }

    /** A database-generated id: used by no account and no membership yet. */
    predicate IdIsFresh(newId: string)
      reads this
    {
      (forall a :: a in accounts ==> a.id != newId) && (forall j :: j in joins ==> j.accountId != newId)
    }

    constructor ()
      ensures Valid() && accounts == [] && joins == []
    {
      accounts := [];
      joins := [];
    }

    /**
     * `Account.create`: a new active account; when a tenant id is given, a membership
     * with role editor for it as well.
     */
    method CreateAccount(email: string, name: string, avatar: Option<string>, tenantId: Option<string>,
                         newId: string, now: int) returns (a: Account)
      requires Valid() && IdIsFresh(newId)
      modifies this
      ensures Valid()
      ensures fresh(a)
      ensures a.id == newId && a.email == email && a.name == name && a.avatar == avatar
      ensures a.status == StatusName(Active) && a.initializedAt == Some(now)
      ensures a.interfaceTheme == Some("light") && a.interfaceLanguage == Some("zh-Hans")
      ensures a.timezone == Some("Asia/Shanghai")
      ensures a.lastLoginAt == None && a.lastLoginIp == None && a.currentTenant == null && !a.tenantAssigned
      ensures accounts == old(accounts) + [a]
      ensures joins == if Truthy(tenantId) then old(joins) + [Join(tenantId.value, newId, RoleName(Editor))]
                       else old(joins)
    {
      a := new Account(newId, email, name, avatar, now);
      accounts := accounts + [a];
      if Truthy(tenantId) {
        ghost var before := joins;
        joins := joins + [Join(tenantId.value, newId, RoleName(Editor))];
        assert forall i :: 0 <= i < |before| ==> before[i].accountId != newId by {
          forall i | 0 <= i < |before| ensures before[i].accountId != newId {
            assert before[i] in before;
          }
        }
      }
    }

    /**
     * `TenantAccountJoin.create`: adds the membership; the uniqueness constraint
     * rejects a second one for the same pair, leaving the table as it was.
     */
    method CreateJoin(tenantId: string, accountId: string, role: string) returns (ok: bool)
      requires Valid()
      modifies this
      ensures Valid()
      ensures ok <==> old(GetByAccount(joins, tenantId, accountId)).None?
      ensures joins == if ok then old(joins) + [Join(tenantId, accountId, role)] else old(joins)
      ensures accounts == old(accounts)
    {
      ok := GetByAccount(joins, tenantId, accountId).None?;
      if ok {
        assert SyncMembership(joins, tenantId, accountId, role) == joins + [Join(tenantId, accountId, role)];
        SyncMembershipKeepsUnique(joins, tenantId, accountId, role);
        joins := joins + [Join(tenantId, accountId, role)];
      }
    }

    /** Assigning `role` to the membership found for (tenant, account). */
    method SetJoinRole(tenantId: string, accountId: string, role: string)
      requires Valid()
      requires GetByAccount(joins, tenantId, accountId).Some?
      modifies this
      ensures Valid()
      ensures joins == old(joins)[FindJoin(old(joins), tenantId, accountId).value := Join(tenantId, accountId, role)]
      ensures accounts == old(accounts)
    {
      var i := FindJoin(joins, tenantId, accountId).value;
      ghost var before := joins;
      joins := joins[i := Join(tenantId, accountId, role)];
      assert joins == SyncMembership(before, tenantId, accountId, role) || joins == before;
      SyncMembershipKeepsUnique(before, tenantId, accountId, role);
    }
  }
}
