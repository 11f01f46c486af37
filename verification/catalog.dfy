/** The server's catalog as the provider's lookups see it.

    Each table is a sequence of the rows its single-row queries return, with
    join columns already filled in (a grant row carries its grantee's id and
    name, a schema row its owner's).  A single-row lookup returns the first
    row that satisfies its WHERE clause; "no rows" is `None`.
 */
module Catalog {
  import opened Wrappers
  import Sql

  /** A row of `sys.sql_logins`, with the ISNULL defaults applied. */
  datatype SqlLogin = SqlLogin(
    principalId: int,
    name: string,
    defaultDatabaseName: string,
    defaultLanguageName: string,
    checkExpirationEnabled: bool,
    checkPolicyEnabled: bool,
    isDisabled: bool)

  /** A row of `sys.databases`. */
  datatype Database = Database(id: int, name: string)

  /** A database principal that can be a user: `kind` is the principal type. */
  datatype UserRow = UserRow(
    principalId: int,
    name: string,
    kind: char,
    defaultSchemaName: string,
    loginName: string)

  /** A database role with the name of its owner ("" when it has none). */
  datatype RoleRow = RoleRow(principalId: int, name: string, ownerName: string, isFixedRole: bool)

  /** A server role. */
  datatype ServerRole = ServerRole(principalId: int, name: string, ownerName: string, isFixedRole: bool)

  /** A role membership, at database or server level. */
  datatype Membership = Membership(roleId: int, roleName: string, memberId: int, memberName: string)

  /** A schema with its owning principal. */
  datatype SchemaRow = SchemaRow(schemaId: int, name: string, ownerId: int, ownerName: string)

  /** `perm.state`: G, W (granted with grant option) or D. */
  datatype GrantState = Granted | GrantedWithGrantOption | Denied

  /** A row of `sys.database_permissions` or `sys.server_permissions`
      joined with its grantee. */
  datatype GrantRow = GrantRow(
    principalId: int,
    principalName: string,
    permission: string,
    on: Sql.Securable,
    state: GrantState)

  /** The catalog views of one database; `id` is what `DB_ID()` returns there. */
  datatype DbCatalog = DbCatalog(
    id: int,
    users: seq<UserRow>,
    roles: seq<RoleRow>,
    members: seq<Membership>,
    schemas: seq<SchemaRow>,
    grants: seq<GrantRow>)

  datatype Catalog = Catalog(
    logins: seq<SqlLogin>,
    databases: seq<Database>,
    serverRoles: seq<ServerRole>,
    serverMembers: seq<Membership>,
    serverGrants: seq<GrantRow>,
    dbs: map<string, DbCatalog>)

  /** SQL Server numbers databases from 1, so `DB_ID()` is positive. */
  predicate Valid(c: Catalog) {
    forall d :: d in c.dbs ==> c.dbs[d].id > 0
  }

  /** `state_desc` as the engine reports it. */
  function StateDesc(s: GrantState): string {
    match s
    case Granted => "GRANT"
    case GrantedWithGrantOption => "GRANT_WITH_GRANT_OPTION"
    case Denied => "DENY"
  }

  /** Position of the first row satisfying `p`, or `|rows|` when none does. */
  function FirstIndex<T>(rows: seq<T>, p: T -> bool): (k: nat)
    ensures k <= |rows|
    ensures forall j :: 0 <= j < k ==> !p(rows[j])
    ensures k < |rows| ==> p(rows[k])
  {
    if |rows| == 0 then 0
    else if p(rows[0]) then 0
    else 1 + FirstIndex(rows[1..], p)
  }

  /** The first row satisfying `p`, as a single-row query returns it. */
  function First<T>(rows: seq<T>, p: T -> bool): (r: Option<T>)
    ensures r.None? <==> forall i :: 0 <= i < |rows| ==> !p(rows[i])
    ensures r.Some? ==> r.value in rows && p(r.value)
  {
    var k := FirstIndex(rows, p);
    if k < |rows| then Some(rows[k]) else None
  }
}
