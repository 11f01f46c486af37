/** Permissions at database, schema and server scope: lookups, and the
    GRANT / REVOKE statements.  The permission name is upper-cased before
    every lookup and in every statement. */
module Permissions {
  import opened Wrappers
  import opened Catalog
  import opened Engine
  import Sql
  import Text

  /** `mssql.DatabasePermission`. */
  datatype DatabasePermissionInfo = DatabasePermissionInfo(
    principalId: int,
    principalName: string,
    permissionName: string,
    stateDesc: string,
    databaseId: int,
    withGrantOption: bool)

  /** `mssql.SchemaPermission`; `databaseId` is 0 for an owner's implicit grant. */
  datatype SchemaPermissionInfo = SchemaPermissionInfo(
    principalId: int,
    principalName: string,
    permissionName: string,
    stateDesc: string,
    schemaName: string,
    databaseId: int,
    withGrantOption: bool)

  /** `mssql.ServerPermission`. */
  datatype ServerPermissionInfo = ServerPermissionInfo(
    principalId: int,
    principalName: string,
    permissionName: string,
    stateDesc: string,
    withGrantOption: bool)

  /** A permission row for this grantee, permission and securable, whatever
      its state (a DENY row matches too). */
  predicate Matches(g: GrantRow, principal: string, permission: string, on: Sql.Securable) {
    g.principalName == principal && g.permission == permission && g.on == on
  }

  function DatabaseInfo(g: GrantRow, databaseId: int): DatabasePermissionInfo {
    DatabasePermissionInfo(g.principalId, g.principalName, g.permission, StateDesc(g.state), databaseId,
                           g.state == GrantedWithGrantOption)
  }

  /** `GetDatabasePermission`. */
  function GetDatabasePermission(e: Engine, db: string, principal: string, permission: string)
    : (r: Result<Option<DatabasePermissionInfo>>)
    ensures db !in e.catalog.dbs ==> r.Err?
    ensures db in e.catalog.dbs ==>
              (r == Ok(None) <==>
                 DatabasePermission(db, principal, Text.ToUpper(permission)) !in e.queryErrors
                 && forall i :: 0 <= i < |e.catalog.dbs[db].grants| ==>
                      !Matches(e.catalog.dbs[db].grants[i], principal, Text.ToUpper(permission), Sql.Current))
    ensures r.Ok? && r.value.Some? ==>
              db in e.catalog.dbs
              && r.value.value.principalName == principal
              && r.value.value.permissionName == Text.ToUpper(permission)
              && r.value.value.databaseId == e.catalog.dbs[db].id
  {
    var p := Text.ToUpper(permission);
    match ReadIn(e, db, DatabasePermission(db, principal, p), (d: DbCatalog) => d.grants,
                 (g: GrantRow) => Matches(g, principal, p, Sql.Current), "database permission")
    case Err(m) => Err(m)
    case Ok(None) => Ok(None)
    case Ok(Some(g)) => Ok(Some(DatabaseInfo(g, e.catalog.dbs[db].id)))
  }

  function SchemaInfo(g: GrantRow, schema: string, databaseId: int): SchemaPermissionInfo {
    SchemaPermissionInfo(g.principalId, g.principalName, g.permission, StateDesc(g.state), schema, databaseId,
                         g.state == GrantedWithGrantOption)
  }

  /** The grant an owner holds implicitly on its own schema. */
  function VirtualGrant(owner: SchemaRow, permission: string, schema: string): SchemaPermissionInfo {
    SchemaPermissionInfo(owner.ownerId, owner.ownerName, permission, "GRANT", schema, 0, true)
  }

  predicate OwnedBy(s: SchemaRow, schema: string, principal: string) {
    s.name == schema && s.ownerName == principal
  }

  /** The explicit schema-permission row, as `GetSchemaPermission` reads it. */
  function ExplicitSchemaGrant(e: Engine, db: string, schema: string, principal: string, permission: string)
    : Result<Option<GrantRow>>
  {
    ReadIn(e, db, SchemaPermission(db, schema, principal, permission), (d: DbCatalog) => d.grants,
           (g: GrantRow) => Matches(g, principal, permission, Sql.OnSchema(schema)), "schema permission")
  }

  /** `GetSchemaPermission`: the explicit row when there is one; otherwise,
      when the principal owns the schema, an implicit grant marked by
      database id 0 and the grant option; otherwise nothing. */
  function GetSchemaPermission(e: Engine, db: string, schema: string, principal: string, permission: string)
    : (r: Result<Option<SchemaPermissionInfo>>)
    ensures db !in e.catalog.dbs ==> r.Err?
    ensures r == Ok(None) <==>
              db in e.catalog.dbs
              && SchemaPermission(db, schema, principal, Text.ToUpper(permission)) !in e.queryErrors
              && SchemaOwner(db, schema, principal) !in e.queryErrors
              && (forall i :: 0 <= i < |e.catalog.dbs[db].grants| ==>
                    !Matches(e.catalog.dbs[db].grants[i], principal, Text.ToUpper(permission), Sql.OnSchema(schema)))
              && (forall i :: 0 <= i < |e.catalog.dbs[db].schemas| ==>
                    !OwnedBy(e.catalog.dbs[db].schemas[i], schema, principal))
    ensures r.Ok? && r.value.Some? ==>
              db in e.catalog.dbs
              && r.value.value.principalName == principal
              && r.value.value.permissionName == Text.ToUpper(permission)
              && r.value.value.schemaName == schema
    ensures r.Ok? && r.value.Some? && r.value.value.databaseId == 0 && e.catalog.dbs[db].id != 0 ==>
              r.value.value.stateDesc == "GRANT" && r.value.value.withGrantOption
              && (forall i :: 0 <= i < |e.catalog.dbs[db].grants| ==>
                    !Matches(e.catalog.dbs[db].grants[i], principal, Text.ToUpper(permission), Sql.OnSchema(schema)))
              && exists s :: s in e.catalog.dbs[db].schemas && OwnedBy(s, schema, principal)
  {
    var p := Text.ToUpper(permission);
    match ExplicitSchemaGrant(e, db, schema, principal, p)
    case Err(m) => Err(m)
    case Ok(Some(g)) => Ok(Some(SchemaInfo(g, schema, e.catalog.dbs[db].id)))
    case Ok(None) =>
      if SchemaOwner(db, schema, principal) in e.queryErrors then
        Err("failed to scan schema owner: " + e.queryErrors[SchemaOwner(db, schema, principal)])
      else
        match First(e.catalog.dbs[db].schemas, (s: SchemaRow) => OwnedBy(s, schema, principal))
        case None => Ok(None)
        case Some(s) => Ok(Some(VirtualGrant(s, p, schema)))
  }

  /** An explicit row wins: it is returned with the database's id, whatever
      the ownership of the schema. */
  lemma ExplicitRowWins(e: Engine, db: string, schema: string, principal: string, permission: string, i: nat)
    requires db in e.catalog.dbs
    requires SchemaPermission(db, schema, principal, Text.ToUpper(permission)) !in e.queryErrors
    requires i < |e.catalog.dbs[db].grants|
    requires Matches(e.catalog.dbs[db].grants[i], principal, Text.ToUpper(permission), Sql.OnSchema(schema))
    ensures var r := GetSchemaPermission(e, db, schema, principal, permission);
            r.Ok? && r.value.Some? && r.value.value.databaseId == e.catalog.dbs[db].id
            && r.value.value.withGrantOption == (r.value.value.stateDesc == "GRANT_WITH_GRANT_OPTION")
  {
    var p := Text.ToUpper(permission);
    var x := ExplicitSchemaGrant(e, db, schema, principal, p);
    assert x.Ok? && x.value.Some?;
  }

  /** With positive database ids, a result is the owner's implicit grant
      exactly when it carries database id 0. */
  lemma VirtualExactlyWhenNoRow(e: Engine, db: string, schema: string, principal: string, permission: string)
    requires Valid(e.catalog)
    requires GetSchemaPermission(e, db, schema, principal, permission).Ok?
    requires GetSchemaPermission(e, db, schema, principal, permission).value.Some?
    ensures var x := GetSchemaPermission(e, db, schema, principal, permission).value.value;
            x.databaseId == 0 <==>
              forall i :: 0 <= i < |e.catalog.dbs[db].grants| ==>
                !Matches(e.catalog.dbs[db].grants[i], principal, Text.ToUpper(permission), Sql.OnSchema(schema))
  {
    var p := Text.ToUpper(permission);
    assert db in e.catalog.dbs;
    assert e.catalog.dbs[db].id > 0;
    var x := ExplicitSchemaGrant(e, db, schema, principal, p);
    if x.Ok? && x.value.Some? {
      var g := x.value.value;
      var k :| 0 <= k < |e.catalog.dbs[db].grants| && e.catalog.dbs[db].grants[k] == g;
    }
  }

  function ServerInfo(g: GrantRow): ServerPermissionInfo {
    ServerPermissionInfo(g.principalId, g.principalName, g.permission, StateDesc(g.state),
                         g.state == GrantedWithGrantOption)
  }

  /** `GetServerPermission`. */
  function GetServerPermission(e: Engine, principal: string, permission: string)
    : (r: Result<Option<ServerPermissionInfo>>)
    ensures r.Err? <==> ServerPermission(principal, Text.ToUpper(permission)) in e.queryErrors
    ensures r == Ok(None) <==>
              ServerPermission(principal, Text.ToUpper(permission)) !in e.queryErrors
              && forall i :: 0 <= i < |e.catalog.serverGrants| ==>
                   !Matches(e.catalog.serverGrants[i], principal, Text.ToUpper(permission), Sql.Current)
    ensures r.Ok? && r.value.Some? ==>
              r.value.value.principalName == principal && r.value.value.permissionName == Text.ToUpper(permission)
  {
    var p := Text.ToUpper(permission);
    match Read(e, ServerPermission(principal, p), e.catalog.serverGrants,
               (g: GrantRow) => Matches(g, principal, p, Sql.Current), "server permission")
    case Err(m) => Err(m)
    case Ok(None) => Ok(None)
    case Ok(Some(g)) => Ok(Some(ServerInfo(g)))
  }

  /** Lookups do not depend on the case of the permission name. */
  lemma LookupsIgnoreCase(e: Engine, db: string, schema: string, principal: string, permission: string)
    ensures GetDatabasePermission(e, db, principal, permission)
         == GetDatabasePermission(e, db, principal, Text.ToUpper(permission))
    ensures GetSchemaPermission(e, db, schema, principal, permission)
         == GetSchemaPermission(e, db, schema, principal, Text.ToUpper(permission))
    ensures GetServerPermission(e, principal, permission)
         == GetServerPermission(e, principal, Text.ToUpper(permission))
  {
    Text.ToUpperIdempotent(permission);
  }

  /** The steps of the six GRANT / REVOKE operations. */
  function GrantDatabaseStep(db: string, principal: string, permission: string, withGrantOption: bool): Step {
    Step(InDatabase(db), Sql.Grant(Text.ToUpper(permission), Sql.Current, principal, withGrantOption),
         "failed to grant database permission")
  }

  function RevokeDatabaseStep(db: string, principal: string, permission: string): Step {
    Step(InDatabase(db), Sql.Revoke(Text.ToUpper(permission), Sql.Current, principal, false),
         "failed to revoke database permission")
  }

  function GrantSchemaStep(db: string, schema: string, principal: string, permission: string, withGrantOption: bool): Step {
    Step(InDatabase(db), Sql.Grant(Text.ToUpper(permission), Sql.OnSchema(schema), principal, withGrantOption),
         "failed to grant schema permission")
  }

  function RevokeSchemaStep(db: string, schema: string, principal: string, permission: string): Step {
    Step(InDatabase(db), Sql.Revoke(Text.ToUpper(permission), Sql.OnSchema(schema), principal, true),
         "failed to revoke schema permission")
  }

  function GrantServerStep(principal: string, permission: string, withGrantOption: bool): Step {
    Step(Server, Sql.Grant(Text.ToUpper(permission), Sql.Current, principal, withGrantOption),
         "failed to grant server permission")
  }

  function RevokeServerStep(principal: string, permission: string): Step {
    Step(Server, Sql.Revoke(Text.ToUpper(permission), Sql.Current, principal, false),
         "failed to revoke server permission")
  }

  /** A grant's text ends in WITH GRANT OPTION exactly when the option is
      asked for, at every scope, and names the upper-cased permission. */
  lemma GrantText(db: string, schema: string, principal: string, permission: string, w: bool)
    ensures Text.HasSuffix(Sql.Render(GrantDatabaseStep(db, principal, permission, w).stmt), " WITH GRANT OPTION") <==> w
    ensures Text.HasSuffix(Sql.Render(GrantSchemaStep(db, schema, principal, permission, w).stmt), " WITH GRANT OPTION") <==> w
    ensures Text.HasSuffix(Sql.Render(GrantServerStep(principal, permission, w).stmt), " WITH GRANT OPTION") <==> w
  {
    var p := Text.ToUpper(permission);
    Sql.GrantOptionSuffix(p, Sql.Current, principal, w);
    Sql.GrantOptionSuffix(p, Sql.OnSchema(schema), principal, w);
  }

  /** Only the schema revoke cascades. */
  lemma RevokeText(db: string, schema: string, principal: string, permission: string)
    ensures Text.HasSuffix(Sql.Render(RevokeSchemaStep(db, schema, principal, permission).stmt), " CASCADE")
    ensures !Text.HasSuffix(Sql.Render(RevokeDatabaseStep(db, principal, permission).stmt), " CASCADE")
    ensures !Text.HasSuffix(Sql.Render(RevokeServerStep(principal, permission).stmt), " CASCADE")
  {
    var p := Text.ToUpper(permission);
    Sql.RevokeCascadeSuffix(p, Sql.OnSchema(schema), principal, true);
    Sql.RevokeCascadeSuffix(p, Sql.Current, principal, false);
  }

  /** `GrantDatabasePermission` and the others: each runs its one step. */
  function GrantDatabasePermission(e: Engine, db: string, principal: string, permission: string, w: bool)
    : (o: Outcome<()>)
    ensures o.issued <= [StepCommand(GrantDatabaseStep(db, principal, permission, w))]
    ensures o.result.Ok? <==> Succeeds(e, GrantDatabaseStep(db, principal, permission, w))
  {
    RunStep(e, GrantDatabaseStep(db, principal, permission, w))
  }

  function RevokeDatabasePermission(e: Engine, db: string, principal: string, permission: string): (o: Outcome<()>)
    ensures o.issued <= [StepCommand(RevokeDatabaseStep(db, principal, permission))]
    ensures o.result.Ok? <==> Succeeds(e, RevokeDatabaseStep(db, principal, permission))
  {
    RunStep(e, RevokeDatabaseStep(db, principal, permission))
  }

  function GrantSchemaPermission(e: Engine, db: string, schema: string, principal: string, permission: string, w: bool)
    : (o: Outcome<()>)
    ensures o.issued <= [StepCommand(GrantSchemaStep(db, schema, principal, permission, w))]
    ensures o.result.Ok? <==> Succeeds(e, GrantSchemaStep(db, schema, principal, permission, w))
  {
    RunStep(e, GrantSchemaStep(db, schema, principal, permission, w))
  }

  function RevokeSchemaPermission(e: Engine, db: string, schema: string, principal: string, permission: string)
    : (o: Outcome<()>)
    ensures o.issued <= [StepCommand(RevokeSchemaStep(db, schema, principal, permission))]
    ensures o.result.Ok? <==> Succeeds(e, RevokeSchemaStep(db, schema, principal, permission))
  {
    RunStep(e, RevokeSchemaStep(db, schema, principal, permission))
  }

  function GrantServerPermission(e: Engine, principal: string, permission: string, w: bool): (o: Outcome<()>)
    ensures o.issued == [StepCommand(GrantServerStep(principal, permission, w))]
    ensures o.result.Ok? <==> Succeeds(e, GrantServerStep(principal, permission, w))
  {
    RunStep(e, GrantServerStep(principal, permission, w))
  }

  function RevokeServerPermission(e: Engine, principal: string, permission: string): (o: Outcome<()>)
    ensures o.issued == [StepCommand(RevokeServerStep(principal, permission))]
    ensures o.result.Ok? <==> Succeeds(e, RevokeServerStep(principal, permission))
  {
    RunStep(e, RevokeServerStep(principal, permission))
  }
}
