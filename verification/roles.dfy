/** Database and server roles and their memberships. */
module Roles {
  import opened Wrappers
  import opened Catalog
  import opened Engine
  import Sql
  import Text

  /** `mssql.DatabaseRole`; the lookups only return principals of type R,
      so `isDatabaseRole` is always true. */
  datatype DatabaseRole = DatabaseRole(
    principalId: int,
    name: string,
    databaseId: int,
    ownerName: string,
    isFixedRole: bool,
    isDatabaseRole: bool)

  function RoleOf(r: RoleRow, databaseId: int): DatabaseRole {
    DatabaseRole(r.principalId, r.name, databaseId, r.ownerName, r.isFixedRole, true)
  }

  /** `GetDatabaseRole`: the role of this name in `db`, `None` when absent. */
  function GetDatabaseRole(e: Engine, db: string, name: string): (r: Result<Option<DatabaseRole>>)
    ensures db !in e.catalog.dbs ==> r.Err?
    ensures db in e.catalog.dbs ==>
              (r == Ok(None) <==>
                 RoleByName(db, name) !in e.queryErrors
                 && forall i :: 0 <= i < |e.catalog.dbs[db].roles| ==> e.catalog.dbs[db].roles[i].name != name)
    ensures r.Ok? && r.value.Some? ==>
              db in e.catalog.dbs && r.value.value.name == name && r.value.value.databaseId == e.catalog.dbs[db].id
              && exists x :: x in e.catalog.dbs[db].roles && RoleOf(x, e.catalog.dbs[db].id) == r.value.value
  {
    match ReadIn(e, db, RoleByName(db, name), (d: DbCatalog) => d.roles, (x: RoleRow) => x.name == name, "database role")
    case Err(m) => Err(m)
    case Ok(None) => Ok(None)
    case Ok(Some(x)) => Ok(Some(RoleOf(x, e.catalog.dbs[db].id)))
  }

  /** `GetDatabaseRoleByID`: the role with this principal id in `db`. */
  function GetDatabaseRoleByID(e: Engine, db: string, id: int): (r: Result<Option<DatabaseRole>>)
    ensures db !in e.catalog.dbs ==> r.Err?
    ensures db in e.catalog.dbs ==>
              (r == Ok(None) <==>
                 RoleById(db, id) !in e.queryErrors
                 && forall i :: 0 <= i < |e.catalog.dbs[db].roles| ==> e.catalog.dbs[db].roles[i].principalId != id)
    ensures r.Ok? && r.value.Some? ==>
              db in e.catalog.dbs && r.value.value.principalId == id && r.value.value.databaseId == e.catalog.dbs[db].id
              && exists x :: x in e.catalog.dbs[db].roles && RoleOf(x, e.catalog.dbs[db].id) == r.value.value
  {
    match ReadIn(e, db, RoleById(db, id), (d: DbCatalog) => d.roles, (x: RoleRow) => x.principalId == id, "database role")
    case Err(m) => Err(m)
    case Ok(None) => Ok(None)
    case Ok(Some(x)) => Ok(Some(RoleOf(x, e.catalog.dbs[db].id)))
  }

  datatype CreateDatabaseRoleOptions = CreateDatabaseRoleOptions(database: string, roleName: string, ownerName: string)

  /** `CreateDatabaseRole`: create in the database, then re-read; a re-read
      that finds nothing is an error. */
  function CreateDatabaseRole(e: Engine, opts: CreateDatabaseRoleOptions): (o: Outcome<DatabaseRole>)
    ensures o.issued <= [Command(InDatabase(opts.database), Sql.CreateRole(false, opts.roleName, opts.ownerName))]
    ensures o.result.Ok? ==>
              Command(InDatabase(opts.database), Sql.CreateRole(false, opts.roleName, opts.ownerName)) !in e.execErrors
              && GetDatabaseRole(e, opts.database, opts.roleName) == Ok(Some(o.result.value))
    ensures opts.database in e.catalog.dbs
            && Command(InDatabase(opts.database), Sql.CreateRole(false, opts.roleName, opts.ownerName)) !in e.execErrors
            && GetDatabaseRole(e, opts.database, opts.roleName) == Ok(None) ==>
              o.result == Err("role was created but could not be retrieved")
  {
    var run := DoIn(e, opts.database, Sql.CreateRole(false, opts.roleName, opts.ownerName), "failed to create database role");
    if run.result.Err? then Outcome(run.issued, Err(run.result.msg))
    else
      match GetDatabaseRole(e, opts.database, opts.roleName)
      case Err(m) => Outcome(run.issued, Err(m))
      case Ok(None) => Outcome(run.issued, Err("role was created but could not be retrieved"))
      case Ok(Some(r)) => Outcome(run.issued, Ok(r))
  }

  /** Whatever CREATE ROLE the database-role create issues ends in an
      AUTHORIZATION clause exactly when an owner was given. */
  lemma CreateDatabaseRoleOwner(e: Engine, opts: CreateDatabaseRoleOptions)
    requires '[' !in opts.roleName
    ensures forall c :: c in CreateDatabaseRole(e, opts).issued ==>
              (Text.HasSuffix(Sql.Render(c.stmt), " AUTHORIZATION " + Sql.Bracket(opts.ownerName)) <==> opts.ownerName != "")
  {
    Sql.OwnerClause(Sql.CreateRole(false, opts.roleName, opts.ownerName));
  }

  datatype UpdateDatabaseRoleOptions = UpdateDatabaseRoleOptions(database: string, roleName: string, newOwnerName: Option<string>)

  /** `UpdateDatabaseRole`: USE, change the owner only when a new one is
      given, then re-read. */
  function UpdateDatabaseRole(e: Engine, opts: UpdateDatabaseRoleOptions): (o: Outcome<Option<DatabaseRole>>)
    ensures opts.database !in e.catalog.dbs ==>
              o == Outcome([UseCommand(opts.database)], Err(NoSuchDatabase(opts.database)))
    ensures opts.newOwnerName.None? && opts.database in e.catalog.dbs ==>
              o == Outcome([UseCommand(opts.database)], GetDatabaseRole(e, opts.database, opts.roleName))
    ensures opts.newOwnerName.Some? && opts.database in e.catalog.dbs ==>
              o.issued == [UseCommand(opts.database),
                           Command(InDatabase(opts.database), Sql.AlterRoleOwner(opts.roleName, opts.newOwnerName.value))]
    ensures o.result.Ok? ==> o.result == GetDatabaseRole(e, opts.database, opts.roleName)
    ensures opts.newOwnerName.Some? && opts.database in e.catalog.dbs
            && Command(InDatabase(opts.database), Sql.AlterRoleOwner(opts.roleName, opts.newOwnerName.value)) in e.execErrors
            ==> o.result == Err("failed to update database role owner: "
                                + e.execErrors[Command(InDatabase(opts.database),
                                                       Sql.AlterRoleOwner(opts.roleName, opts.newOwnerName.value))])
  {
    match Switch(e, opts.database)
    case Some(m) => Outcome([UseCommand(opts.database)], Err(m))
    case None =>
      if opts.newOwnerName.None? then Outcome([UseCommand(opts.database)], GetDatabaseRole(e, opts.database, opts.roleName))
      else
        var run := UseThenDo(e, opts.database, Sql.AlterRoleOwner(opts.roleName, opts.newOwnerName.value),
                             "failed to update database role owner");
        if run.result.Err? then Outcome(run.issued, Err(run.result.msg))
        else Outcome(run.issued, GetDatabaseRole(e, opts.database, opts.roleName))
  }

  /** `DropDatabaseRole`: `DROP ROLE IF EXISTS` after USE. */
  function DropDatabaseRole(e: Engine, db: string, name: string): (o: Outcome<()>)
    ensures o.issued <= [UseCommand(db), Command(InDatabase(db), Sql.DropRole(name))]
    ensures |o.issued| >= 1
    ensures o.result.Ok? <==> db in e.catalog.dbs && Command(InDatabase(db), Sql.DropRole(name)) !in e.execErrors
    ensures db !in e.catalog.dbs ==> o.result == Err(NoSuchDatabase(db))
  {
    UseThenDo(e, db, Sql.DropRole(name), "failed to drop database role")
  }

  /** `mssql.DatabaseRoleMember`. */
  datatype DatabaseRoleMember = DatabaseRoleMember(
    roleId: int, roleName: string, memberId: int, memberName: string, databaseId: int)

  predicate IsMembership(m: Membership, role: string, member: string) {
    m.roleName == role && m.memberName == member
  }

  /** `GetDatabaseRoleMember`: the membership of `member` in `role`, if any. */
  function GetDatabaseRoleMember(e: Engine, db: string, role: string, member: string)
    : (r: Result<Option<DatabaseRoleMember>>)
    ensures db in e.catalog.dbs ==>
              (r == Ok(None) <==>
                 RoleMember(db, role, member) !in e.queryErrors
                 && forall i :: 0 <= i < |e.catalog.dbs[db].members| ==> !IsMembership(e.catalog.dbs[db].members[i], role, member))
    ensures r.Ok? && r.value.Some? ==> r.value.value.roleName == role && r.value.value.memberName == member
  {
    match ReadIn(e, db, RoleMember(db, role, member), (d: DbCatalog) => d.members,
                 (m: Membership) => IsMembership(m, role, member), "database role member")
    case Err(m) => Err(m)
    case Ok(None) => Ok(None)
    case Ok(Some(m)) => Ok(Some(DatabaseRoleMember(m.roleId, m.roleName, m.memberId, m.memberName, e.catalog.dbs[db].id)))
  }

  /** The step that adds `member` to a database role. */
  function AddMemberStep(db: string, role: string, member: string): Step {
    Step(InDatabase(db), Sql.AlterRoleMember(false, role, member, true), "failed to add database role member")
  }

  /** The step that removes `member` from a database role. */
  function RemoveMemberStep(db: string, role: string, member: string): Step {
    Step(InDatabase(db), Sql.AlterRoleMember(false, role, member, false), "failed to remove database role member")
  }

  /** `AddDatabaseRoleMember`. */
  function AddDatabaseRoleMember(e: Engine, db: string, role: string, member: string): (o: Outcome<()>)
    ensures o.issued <= [Command(InDatabase(db), Sql.AlterRoleMember(false, role, member, true))]
    ensures o.result.Ok? <==> Succeeds(e, AddMemberStep(db, role, member))
  {
    RunStep(e, AddMemberStep(db, role, member))
  }

  /** `RemoveDatabaseRoleMember`. */
  function RemoveDatabaseRoleMember(e: Engine, db: string, role: string, member: string): (o: Outcome<()>)
    ensures o.issued <= [Command(InDatabase(db), Sql.AlterRoleMember(false, role, member, false))]
    ensures o.result.Ok? <==> Succeeds(e, RemoveMemberStep(db, role, member))
  {
    RunStep(e, RemoveMemberStep(db, role, member))
  }

  /** `mssql.ServerRole`. */
  datatype ServerRoleInfo = ServerRoleInfo(principalId: int, name: string, ownerName: string, isFixedRole: bool)

  function ServerRoleOf(r: ServerRole): ServerRoleInfo {
    ServerRoleInfo(r.principalId, r.name, r.ownerName, r.isFixedRole)
  }

  /** `GetServerRole`: the server role of this name, `None` when absent. */
  function GetServerRole(e: Engine, name: string): (r: Result<Option<ServerRoleInfo>>)
    ensures r.Err? <==> ServerRoleByName(name) in e.queryErrors
    ensures r == Ok(None) <==>
              ServerRoleByName(name) !in e.queryErrors
              && forall i :: 0 <= i < |e.catalog.serverRoles| ==> e.catalog.serverRoles[i].name != name
    ensures r.Ok? && r.value.Some? ==> r.value.value.name == name
  {
    match Read(e, ServerRoleByName(name), e.catalog.serverRoles, (x: ServerRole) => x.name == name, "server role")
    case Err(m) => Err(m)
    case Ok(None) => Ok(None)
    case Ok(Some(x)) => Ok(Some(ServerRoleOf(x)))
  }

  /** `GetServerRoleByID`. */
  function GetServerRoleByID(e: Engine, id: int): (r: Result<Option<ServerRoleInfo>>)
    ensures r.Err? <==> ServerRoleById(id) in e.queryErrors
    ensures r == Ok(None) <==>
              ServerRoleById(id) !in e.queryErrors
              && forall i :: 0 <= i < |e.catalog.serverRoles| ==> e.catalog.serverRoles[i].principalId != id
    ensures r.Ok? && r.value.Some? ==> r.value.value.principalId == id
  {
    match Read(e, ServerRoleById(id), e.catalog.serverRoles, (x: ServerRole) => x.principalId == id, "server role")
    case Err(m) => Err(m)
    case Ok(None) => Ok(None)
    case Ok(Some(x)) => Ok(Some(ServerRoleOf(x)))
  }

  /** `CreateServerRole`: create, then return the re-read as it is (unlike
      the database role, an empty re-read is not an error). */
  function CreateServerRole(e: Engine, roleName: string, ownerName: string): (o: Outcome<Option<ServerRoleInfo>>)
    ensures o.issued == [Command(Server, Sql.CreateRole(true, roleName, ownerName))]
    ensures Command(Server, Sql.CreateRole(true, roleName, ownerName)) in e.execErrors ==>
              o.result == Err("failed to create server role: " + e.execErrors[Command(Server, Sql.CreateRole(true, roleName, ownerName))])
    ensures Command(Server, Sql.CreateRole(true, roleName, ownerName)) !in e.execErrors ==>
              o.result == GetServerRole(e, roleName)
  {
    var run := Do(e, Command(Server, Sql.CreateRole(true, roleName, ownerName)), "failed to create server role");
    if run.result.Err? then Outcome(run.issued, Err(run.result.msg))
    else Outcome(run.issued, GetServerRole(e, roleName))
  }

  /** The CREATE SERVER ROLE text ends in an AUTHORIZATION clause exactly when
      an owner was given. */
  lemma CreateServerRoleOwner(e: Engine, roleName: string, ownerName: string)
    requires '[' !in roleName
    ensures var c := CreateServerRole(e, roleName, ownerName).issued[0];
            Text.HasSuffix(Sql.Render(c.stmt), " AUTHORIZATION " + Sql.Bracket(ownerName)) <==> ownerName != ""
  {
    Sql.OwnerClause(Sql.CreateRole(true, roleName, ownerName));
  }

  /** `DropServerRole`: a plain `DROP SERVER ROLE`, without IF EXISTS. */
  function DropServerRole(e: Engine, name: string): (o: Outcome<()>)
    ensures o.issued == [Command(Server, Sql.DropServerRole(name))]
    ensures o.result.Ok? <==> Command(Server, Sql.DropServerRole(name)) !in e.execErrors
  {
    Do(e, Command(Server, Sql.DropServerRole(name)), "failed to drop server role")
  }

  /** `GetServerRoleMember`. */
  function GetServerRoleMember(e: Engine, role: string, member: string): (r: Result<Option<Membership>>)
    ensures r == Ok(None) <==>
              ServerRoleMember(role, member) !in e.queryErrors
              && forall i :: 0 <= i < |e.catalog.serverMembers| ==> !IsMembership(e.catalog.serverMembers[i], role, member)
    ensures r.Ok? && r.value.Some? ==> r.value.value in e.catalog.serverMembers && IsMembership(r.value.value, role, member)
  {
    Read(e, ServerRoleMember(role, member), e.catalog.serverMembers,
         (m: Membership) => IsMembership(m, role, member), "server role member")
  }

  /** `AddServerRoleMember`. */
  function AddServerRoleMember(e: Engine, role: string, member: string): (o: Outcome<()>)
    ensures o.issued == [Command(Server, Sql.AlterRoleMember(true, role, member, true))]
    ensures o.result.Ok? <==> Command(Server, Sql.AlterRoleMember(true, role, member, true)) !in e.execErrors
  {
    Do(e, Command(Server, Sql.AlterRoleMember(true, role, member, true)), "failed to add server role member")
  }

  /** `RemoveServerRoleMember`. */
  function RemoveServerRoleMember(e: Engine, role: string, member: string): (o: Outcome<()>)
    ensures o.issued == [Command(Server, Sql.AlterRoleMember(true, role, member, false))]
    ensures o.result.Ok? <==> Command(Server, Sql.AlterRoleMember(true, role, member, false)) !in e.execErrors
  {
    Do(e, Command(Server, Sql.AlterRoleMember(true, role, member, false)), "failed to remove server role member")
  }
}
