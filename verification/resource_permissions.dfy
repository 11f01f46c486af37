/** The three permission resources, `mssql_schema_permission`,
    `mssql_database_permission` and `mssql_server_permission`: a GRANT that
    Create issues, Delete revokes, and Update re-issues when only the grant
    option changes.  Each stores an id made of its key and the upper-cased
    permission. */
module PermissionResources {
  import opened Wrappers
  import opened Engine
  import opened Framework
  import Permissions
  import ResourceIds
  import Text
  import Sql

  /** The Update of every permission resource: nothing when the grant option
      is unchanged; otherwise REVOKE, then GRANT with the planned option, a
      failed revoke skipping the grant.  The two summaries name the scope. */
  function Regrant<S>(changed: bool, revoke: Outcome<()>, grant: Outcome<()>,
                      revokeFailed: string, grantFailed: string, plan: S): (o: Reply<S>)
    ensures !changed ==> o == Reply([], Saved(plan))
    ensures changed && revoke.result.Err? ==> o == Reply(revoke.issued, Failed(revokeFailed, revoke.result.msg))
    ensures changed && revoke.result.Ok? ==> o.issued == revoke.issued + grant.issued
    ensures o.response.Saved? <==> !changed || (revoke.result.Ok? && grant.result.Ok?)
    ensures o.response.Saved? ==> o.response.state == plan
    ensures changed && revoke.result.Ok? && grant.result.Err? ==> o.response == Failed(grantFailed, grant.result.msg)
  {
    if !changed then Reply([], Saved(plan))
    else if revoke.result.Err? then Reply(revoke.issued, Failed(revokeFailed, revoke.result.msg))
    else if grant.result.Err? then Reply(revoke.issued + grant.issued, Failed(grantFailed, grant.result.msg))
    else Reply(revoke.issued + grant.issued, Saved(plan))
  }

  /** The diagnostics of a failed import. */
  const InvalidImportId := "Invalid import ID"

  function ImportFormat(fields: string): string {
    "Import ID must be in format '" + fields + "'"
  }

  function NotFoundMsg(permission: string, principal: Option<string>): string {
    "Permission '" + permission + "' not found" + (if principal.Some? then " for '" + principal.value + "'" else "")
  }

  // ---------------------------------------------------------------- schema

  datatype SchemaState = SchemaState(
    id: string,
    databaseName: string,
    schemaName: string,
    principalName: string,
    permission: string,
    withGrantOption: bool)

  /** Create: GRANT on the schema, then store the plan under its id. */
  function CreateSchema(e: Engine, plan: SchemaState): (o: Reply<SchemaState>)
    ensures var g := Permissions.GrantSchemaPermission(e, plan.databaseName, plan.schemaName, plan.principalName,
                                                       plan.permission, plan.withGrantOption);
            o.issued == g.issued
            && (g.result.Err? ==> o.response == Failed("Failed to grant schema permission", g.result.msg))
            && (g.result.Ok? ==> o.response == Saved(plan.(id := ResourceIds.SchemaPermissionId(
                                   plan.databaseName, plan.schemaName, plan.principalName, plan.permission))))
  {
    var g := Permissions.GrantSchemaPermission(e, plan.databaseName, plan.schemaName, plan.principalName,
                                               plan.permission, plan.withGrantOption);
    if g.result.Err? then Reply(g.issued, Failed("Failed to grant schema permission", g.result.msg))
    else Reply(g.issued, Saved(plan.(id := ResourceIds.SchemaPermissionId(plan.databaseName, plan.schemaName,
                                                                          plan.principalName, plan.permission))))
  }

  /** Read: remove the resource when the permission is gone; refresh the
      grant option only from an explicit row (positive database id), so an
      owner's implicit grant keeps the configured value. */
  function ReadSchema(e: Engine, state: SchemaState): (o: Reply<SchemaState>)
    ensures o.issued == []
    ensures var p := Permissions.GetSchemaPermission(e, state.databaseName, state.schemaName, state.principalName,
                                                     state.permission);
            (o.response.Removed? <==> p == Ok(None))
            && (p.Err? ==> o.response == Failed("Failed to read schema permission", p.msg))
            && (p.Ok? && p.value.Some? && p.value.value.databaseId > 0 ==>
                  o.response == Saved(state.(withGrantOption := p.value.value.withGrantOption)))
            && (p.Ok? && p.value.Some? && p.value.value.databaseId <= 0 ==> o.response == Saved(state))
  {
    match Permissions.GetSchemaPermission(e, state.databaseName, state.schemaName, state.principalName, state.permission)
    case Err(m) => Reply([], Failed("Failed to read schema permission", m))
    case Ok(None) => Reply([], Removed)
    case Ok(Some(p)) =>
      if p.databaseId > 0 then Reply([], Saved(state.(withGrantOption := p.withGrantOption)))
      else Reply([], Saved(state))
  }

  /** An owner's implicit grant never overwrites the configured option. */
  lemma OwnerGrantKeepsOption(e: Engine, state: SchemaState)
    requires Catalog.Valid(e.catalog)
    requires state.databaseName in e.catalog.dbs
    requires SchemaPermission(state.databaseName, state.schemaName, state.principalName,
                              Text.ToUpper(state.permission)) !in e.queryErrors
    requires SchemaOwner(state.databaseName, state.schemaName, state.principalName) !in e.queryErrors
    requires forall i :: 0 <= i < |e.catalog.dbs[state.databaseName].grants| ==>
               !Permissions.Matches(e.catalog.dbs[state.databaseName].grants[i], state.principalName,
                                    Text.ToUpper(state.permission), Sql.OnSchema(state.schemaName))
    requires exists s :: s in e.catalog.dbs[state.databaseName].schemas
                         && Permissions.OwnedBy(s, state.schemaName, state.principalName)
    ensures ReadSchema(e, state) == Reply([], Saved(state))
  {
    var p := Permissions.GetSchemaPermission(e, state.databaseName, state.schemaName, state.principalName,
                                             state.permission);
    var s :| s in e.catalog.dbs[state.databaseName].schemas && Permissions.OwnedBy(s, state.schemaName, state.principalName);
    var k :| 0 <= k < |e.catalog.dbs[state.databaseName].schemas| && e.catalog.dbs[state.databaseName].schemas[k] == s;
    assert p != Ok(None);
    Permissions.VirtualExactlyWhenNoRow(e, state.databaseName, state.schemaName, state.principalName, state.permission);
  }

  /** Update: re-grant on the schema when the grant option changed. */
  function UpdateSchema(e: Engine, plan: SchemaState, state: SchemaState): (o: Reply<SchemaState>)
    ensures plan.withGrantOption == state.withGrantOption ==> o == Reply([], Saved(plan))
    ensures plan.withGrantOption != state.withGrantOption ==>
              var r := Permissions.RevokeSchemaPermission(e, plan.databaseName, plan.schemaName, plan.principalName,
                                                          plan.permission);
              var g := Permissions.GrantSchemaPermission(e, plan.databaseName, plan.schemaName, plan.principalName,
                                                         plan.permission, plan.withGrantOption);
              (o.response.Saved? <==> r.result.Ok? && g.result.Ok?)
              && (o.response.Saved? ==> o.response.state == plan)
              && (r.result.Err? ==> o.response.Failed? && o.response.summary == "Failed to revoke schema permission")
              && (r.result.Ok? && g.result.Err? ==>
                    o.response.Failed? && o.response.summary == "Failed to grant schema permission")
  {
    var r := Permissions.RevokeSchemaPermission(e, plan.databaseName, plan.schemaName, plan.principalName, plan.permission);
    var g := Permissions.GrantSchemaPermission(e, plan.databaseName, plan.schemaName, plan.principalName,
                                               plan.permission, plan.withGrantOption);
    Regrant(plan.withGrantOption != state.withGrantOption, r, g,
            "Failed to revoke schema permission", "Failed to grant schema permission", plan)
  }

  /** A changed grant option issues the REVOKE before the GRANT, and a
      failed REVOKE issues no GRANT at all. */
  lemma UpdateSchemaOrder(e: Engine, plan: SchemaState, state: SchemaState)
    requires plan.withGrantOption != state.withGrantOption
    ensures var revoke := StepCommand(Permissions.RevokeSchemaStep(plan.databaseName, plan.schemaName, plan.principalName, plan.permission));
            var grant := StepCommand(Permissions.GrantSchemaStep(plan.databaseName, plan.schemaName, plan.principalName, plan.permission,
                                              plan.withGrantOption));
            var o := UpdateSchema(e, plan, state);
            (o.response.Saved? ==> o.issued == [revoke, grant])
            && (!Succeeds(e, Permissions.RevokeSchemaStep(plan.databaseName, plan.schemaName, plan.principalName, plan.permission)) ==> o.issued <= [revoke])
  {
  }

  /** Delete: REVOKE ... CASCADE on the schema. */
  function DeleteSchema(e: Engine, state: SchemaState): (o: Reply<()>)
    ensures var r := Permissions.RevokeSchemaPermission(e, state.databaseName, state.schemaName, state.principalName,
                                                        state.permission);
            o.issued == r.issued
            && (o.response.Saved? <==> r.result.Ok?)
            && (r.result.Err? ==> o.response == Failed("Failed to revoke schema permission", r.result.msg))
  {
    var r := Permissions.RevokeSchemaPermission(e, state.databaseName, state.schemaName, state.principalName,
                                                state.permission);
    if r.result.Err? then Reply(r.issued, Failed("Failed to revoke schema permission", r.result.msg))
    else Reply(r.issued, Saved(()))
  }

  /** Import `database_name/schema_name/principal_name/permission`: the id
      as given, the permission as the engine names it, and its grant option. */
  function ImportSchema(e: Engine, id: string): (o: Reply<SchemaState>)
    ensures o.issued == []
    ensures ResourceIds.SplitImport(id, 4).Err? ==>
              o.response == Failed(InvalidImportId, ImportFormat("database_name/schema_name/principal_name/permission"))
    ensures o.response.Saved? ==>
              ResourceIds.SplitImport(id, 4).Ok?
              && var parts := ResourceIds.SplitImport(id, 4).value;
              var p := Permissions.GetSchemaPermission(e, parts[0], parts[1], parts[2], parts[3]);
              p.Ok? && p.value.Some?
              && o.response.state == SchemaState(id, parts[0], parts[1], parts[2], p.value.value.permissionName,
                                                 p.value.value.withGrantOption)
    ensures ResourceIds.SplitImport(id, 4).Ok? ==>
              var parts := ResourceIds.SplitImport(id, 4).value;
              var p := Permissions.GetSchemaPermission(e, parts[0], parts[1], parts[2], parts[3]);
              (o.response.Saved? <==> p.Ok? && p.value.Some?)
              && (p == Ok(None) ==> o.response == Failed("Schema permission not found", NotFoundMsg(parts[3], None)))
    ensures !o.response.Removed?
  {
    match ResourceIds.SplitImport(id, 4)
    case Err(_) =>
      Reply([], Failed(InvalidImportId, ImportFormat("database_name/schema_name/principal_name/permission")))
    case Ok(parts) =>
      match Permissions.GetSchemaPermission(e, parts[0], parts[1], parts[2], parts[3])
      case Err(m) => Reply([], Failed("Failed to import schema permission", m))
      case Ok(None) => Reply([], Failed("Schema permission not found", NotFoundMsg(parts[3], None)))
      case Ok(Some(p)) => Reply([], Saved(SchemaState(id, parts[0], parts[1], parts[2], p.permissionName, p.withGrantOption)))
  }

  /** The id Create stores imports the same permission: the import finds
      exactly what a Read of the created state looks up. */
  lemma SchemaCreateThenImport(e: Engine, plan: SchemaState)
    requires '/' !in plan.databaseName && '/' !in plan.schemaName && '/' !in plan.principalName
    requires '/' !in plan.permission
    requires CreateSchema(e, plan).response.Saved?
    ensures var id := CreateSchema(e, plan).response.state.id;
            var p := Permissions.GetSchemaPermission(e, plan.databaseName, plan.schemaName, plan.principalName,
                                                     plan.permission);
            ImportSchema(e, id).response.Saved? <==> p.Ok? && p.value.Some?
    ensures var id := CreateSchema(e, plan).response.state.id;
            ImportSchema(e, id).response.Saved? ==>
              ImportSchema(e, id).response.state.(permission := plan.permission, withGrantOption := plan.withGrantOption)
              == CreateSchema(e, plan).response.state
  {
    ResourceIds.SchemaPermissionIdRoundTrip(plan.databaseName, plan.schemaName, plan.principalName, plan.permission);
    Permissions.LookupsIgnoreCase(e, plan.databaseName, plan.schemaName, plan.principalName, plan.permission);
  }

  // -------------------------------------------------------------- database

  datatype DatabaseState = DatabaseState(
    id: string,
    databaseName: string,
    principalName: string,
    permission: string,
    withGrantOption: bool)

  /** Create: GRANT in the database, then store the plan under its id. */
  function CreateDatabase(e: Engine, plan: DatabaseState): (o: Reply<DatabaseState>)
    ensures var g := Permissions.GrantDatabasePermission(e, plan.databaseName, plan.principalName, plan.permission,
                                                         plan.withGrantOption);
            o.issued == g.issued
            && (g.result.Err? ==> o.response == Failed("Failed to grant database permission", g.result.msg))
            && (g.result.Ok? ==> o.response == Saved(plan.(id := ResourceIds.DatabasePermissionId(
                                   plan.databaseName, plan.principalName, plan.permission))))
  {
    var g := Permissions.GrantDatabasePermission(e, plan.databaseName, plan.principalName, plan.permission,
                                                 plan.withGrantOption);
    if g.result.Err? then Reply(g.issued, Failed("Failed to grant database permission", g.result.msg))
    else Reply(g.issued, Saved(plan.(id := ResourceIds.DatabasePermissionId(plan.databaseName, plan.principalName,
                                                                            plan.permission))))
  }

  /** Read: remove the resource when the permission is gone, otherwise store
      the engine's (upper-case) permission name and grant option. */
  function ReadDatabase(e: Engine, state: DatabaseState): (o: Reply<DatabaseState>)
    ensures o.issued == []
    ensures var p := Permissions.GetDatabasePermission(e, state.databaseName, state.principalName, state.permission);
            (o.response.Removed? <==> p == Ok(None))
            && (p.Err? ==> o.response == Failed("Failed to read database permission", p.msg))
            && (o.response.Saved? ==>
                  p.Ok? && p.value.Some?
                  && o.response.state == state.(permission := Text.ToUpper(state.permission),
                                                withGrantOption := p.value.value.withGrantOption))
  {
    match Permissions.GetDatabasePermission(e, state.databaseName, state.principalName, state.permission)
    case Err(m) => Reply([], Failed("Failed to read database permission", m))
    case Ok(None) => Reply([], Removed)
    case Ok(Some(p)) => Reply([], Saved(state.(permission := p.permissionName, withGrantOption := p.withGrantOption)))
  }

  /** Update: re-grant in the database when the grant option changed. */
  function UpdateDatabase(e: Engine, plan: DatabaseState, state: DatabaseState): (o: Reply<DatabaseState>)
    ensures plan.withGrantOption == state.withGrantOption ==> o == Reply([], Saved(plan))
    ensures plan.withGrantOption != state.withGrantOption ==>
              var r := Permissions.RevokeDatabasePermission(e, plan.databaseName, plan.principalName, plan.permission);
              var g := Permissions.GrantDatabasePermission(e, plan.databaseName, plan.principalName, plan.permission,
                                                           plan.withGrantOption);
              (o.response.Saved? <==> r.result.Ok? && g.result.Ok?)
              && (o.response.Saved? ==> o.response.state == plan)
              && (r.result.Err? ==> o.response.Failed? && o.response.summary == "Failed to revoke database permission")
              && (r.result.Ok? && g.result.Err? ==>
                    o.response.Failed? && o.response.summary == "Failed to grant database permission")
  {
    var r := Permissions.RevokeDatabasePermission(e, plan.databaseName, plan.principalName, plan.permission);
    var g := Permissions.GrantDatabasePermission(e, plan.databaseName, plan.principalName, plan.permission,
                                                 plan.withGrantOption);
    Regrant(plan.withGrantOption != state.withGrantOption, r, g,
            "Failed to revoke database permission", "Failed to grant database permission", plan)
  }

  /** A changed grant option issues the REVOKE before the GRANT, and a
      failed REVOKE issues no GRANT at all. */
  lemma UpdateDatabaseOrder(e: Engine, plan: DatabaseState, state: DatabaseState)
    requires plan.withGrantOption != state.withGrantOption
    ensures var revoke := StepCommand(Permissions.RevokeDatabaseStep(plan.databaseName, plan.principalName, plan.permission));
            var grant := StepCommand(Permissions.GrantDatabaseStep(plan.databaseName, plan.principalName, plan.permission, plan.withGrantOption));
            var o := UpdateDatabase(e, plan, state);
            (o.response.Saved? ==> o.issued == [revoke, grant])
            && (!Succeeds(e, Permissions.RevokeDatabaseStep(plan.databaseName, plan.principalName, plan.permission)) ==> o.issued <= [revoke])
  {
  }

  /** Delete: REVOKE in the database, without CASCADE. */
  function DeleteDatabase(e: Engine, state: DatabaseState): (o: Reply<()>)
    ensures var r := Permissions.RevokeDatabasePermission(e, state.databaseName, state.principalName, state.permission);
            o.issued == r.issued
            && (o.response.Saved? <==> r.result.Ok?)
            && (r.result.Err? ==> o.response == Failed("Failed to revoke database permission", r.result.msg))
  {
    var r := Permissions.RevokeDatabasePermission(e, state.databaseName, state.principalName, state.permission);
    if r.result.Err? then Reply(r.issued, Failed("Failed to revoke database permission", r.result.msg))
    else Reply(r.issued, Saved(()))
  }

  /** Import `database_name/principal_name/permission`. */
  function ImportDatabase(e: Engine, id: string): (o: Reply<DatabaseState>)
    ensures o.issued == []
    ensures ResourceIds.SplitImport(id, 3).Err? ==>
              o.response == Failed(InvalidImportId, ImportFormat("database_name/principal_name/permission"))
    ensures o.response.Saved? ==>
              ResourceIds.SplitImport(id, 3).Ok?
              && var parts := ResourceIds.SplitImport(id, 3).value;
              var p := Permissions.GetDatabasePermission(e, parts[0], parts[1], parts[2]);
              p.Ok? && p.value.Some?
              && o.response.state == DatabaseState(id, parts[0], parts[1], p.value.value.permissionName,
                                                   p.value.value.withGrantOption)
    ensures ResourceIds.SplitImport(id, 3).Ok? ==>
              var parts := ResourceIds.SplitImport(id, 3).value;
              var p := Permissions.GetDatabasePermission(e, parts[0], parts[1], parts[2]);
              (o.response.Saved? <==> p.Ok? && p.value.Some?)
              && (p == Ok(None) ==> o.response == Failed("Database permission not found", NotFoundMsg(parts[2], Some(parts[1]))))
    ensures !o.response.Removed?
  {
    match ResourceIds.SplitImport(id, 3)
    case Err(_) =>
      Reply([], Failed(InvalidImportId, ImportFormat("database_name/principal_name/permission")))
    case Ok(parts) =>
      match Permissions.GetDatabasePermission(e, parts[0], parts[1], parts[2])
      case Err(m) => Reply([], Failed("Failed to import database permission", m))
      case Ok(None) =>
        Reply([], Failed("Database permission not found", NotFoundMsg(parts[2], Some(parts[1]))))
      case Ok(Some(p)) => Reply([], Saved(DatabaseState(id, parts[0], parts[1], p.permissionName, p.withGrantOption)))
  }

  /** The id Create stores imports to exactly the state a Read of the
      created resource stores. */
  lemma DatabaseCreateThenImport(e: Engine, plan: DatabaseState)
    requires '/' !in plan.databaseName && '/' !in plan.principalName && '/' !in plan.permission
    requires CreateDatabase(e, plan).response.Saved?
    ensures var created := CreateDatabase(e, plan).response.state;
            ReadDatabase(e, created).response.Saved? <==> ImportDatabase(e, created.id).response.Saved?
    ensures var created := CreateDatabase(e, plan).response.state;
            ReadDatabase(e, created).response.Saved? ==> ImportDatabase(e, created.id) == ReadDatabase(e, created)
  {
    ResourceIds.DatabasePermissionIdRoundTrip(plan.databaseName, plan.principalName, plan.permission);
    Permissions.LookupsIgnoreCase(e, plan.databaseName, "", plan.principalName, plan.permission);
  }

  // ---------------------------------------------------------------- server

  datatype ServerState = ServerState(
    id: string,
    principalName: string,
    permission: string,
    withGrantOption: bool)

  /** Create: GRANT at server scope, then store the plan under its id. */
  function CreateServer(e: Engine, plan: ServerState): (o: Reply<ServerState>)
    ensures var g := Permissions.GrantServerPermission(e, plan.principalName, plan.permission, plan.withGrantOption);
            o.issued == g.issued
            && (g.result.Err? ==> o.response == Failed("Failed to grant server permission", g.result.msg))
            && (g.result.Ok? ==> o.response == Saved(plan.(id := ResourceIds.ServerPermissionId(plan.principalName,
                                                                                                 plan.permission))))
  {
    var g := Permissions.GrantServerPermission(e, plan.principalName, plan.permission, plan.withGrantOption);
    if g.result.Err? then Reply(g.issued, Failed("Failed to grant server permission", g.result.msg))
    else Reply(g.issued, Saved(plan.(id := ResourceIds.ServerPermissionId(plan.principalName, plan.permission))))
  }

  /** Read: remove the resource when the permission is gone, otherwise store
      the engine's (upper-case) permission name and grant option. */
  function ReadServer(e: Engine, state: ServerState): (o: Reply<ServerState>)
    ensures o.issued == []
    ensures var p := Permissions.GetServerPermission(e, state.principalName, state.permission);
            (o.response.Removed? <==> p == Ok(None))
            && (p.Err? ==> o.response == Failed("Failed to read server permission", p.msg))
            && (o.response.Saved? ==>
                  p.Ok? && p.value.Some?
                  && o.response.state == state.(permission := Text.ToUpper(state.permission),
                                                withGrantOption := p.value.value.withGrantOption))
  {
    match Permissions.GetServerPermission(e, state.principalName, state.permission)
    case Err(m) => Reply([], Failed("Failed to read server permission", m))
    case Ok(None) => Reply([], Removed)
    case Ok(Some(p)) => Reply([], Saved(state.(permission := p.permissionName, withGrantOption := p.withGrantOption)))
  }

  /** Update: re-grant at server scope when the grant option changed. */
  function UpdateServer(e: Engine, plan: ServerState, state: ServerState): (o: Reply<ServerState>)
    ensures plan.withGrantOption == state.withGrantOption ==> o == Reply([], Saved(plan))
    ensures plan.withGrantOption != state.withGrantOption ==>
              var r := Permissions.RevokeServerPermission(e, plan.principalName, plan.permission);
              var g := Permissions.GrantServerPermission(e, plan.principalName, plan.permission, plan.withGrantOption);
              (o.response.Saved? <==> r.result.Ok? && g.result.Ok?)
              && (o.response.Saved? ==> o.response.state == plan)
              && (r.result.Err? ==> o.response.Failed? && o.response.summary == "Failed to revoke server permission")
              && (r.result.Ok? && g.result.Err? ==>
                    o.response.Failed? && o.response.summary == "Failed to grant server permission")
  {
    var r := Permissions.RevokeServerPermission(e, plan.principalName, plan.permission);
    var g := Permissions.GrantServerPermission(e, plan.principalName, plan.permission, plan.withGrantOption);
    Regrant(plan.withGrantOption != state.withGrantOption, r, g,
            "Failed to revoke server permission", "Failed to grant server permission", plan)
  }

  /** A changed grant option issues the REVOKE before the GRANT, and a
      failed REVOKE issues no GRANT at all. */
  lemma UpdateServerOrder(e: Engine, plan: ServerState, state: ServerState)
    requires plan.withGrantOption != state.withGrantOption
    ensures var revoke := StepCommand(Permissions.RevokeServerStep(plan.principalName, plan.permission));
            var grant := StepCommand(Permissions.GrantServerStep(plan.principalName, plan.permission, plan.withGrantOption));
            var o := UpdateServer(e, plan, state);
            (o.response.Saved? ==> o.issued == [revoke, grant])
            && (!Succeeds(e, Permissions.RevokeServerStep(plan.principalName, plan.permission)) ==> o.issued <= [revoke])
  {
  }

  /** Delete: one REVOKE at server scope, without CASCADE. */
  function DeleteServer(e: Engine, state: ServerState): (o: Reply<()>)
    ensures o.issued == [StepCommand(Permissions.RevokeServerStep(state.principalName, state.permission))]
    ensures var r := Permissions.RevokeServerPermission(e, state.principalName, state.permission);
            (o.response.Saved? <==> r.result.Ok?)
            && (r.result.Err? ==> o.response == Failed("Failed to revoke server permission", r.result.msg))
  {
    var r := Permissions.RevokeServerPermission(e, state.principalName, state.permission);
    if r.result.Err? then Reply(r.issued, Failed("Failed to revoke server permission", r.result.msg))
    else Reply(r.issued, Saved(()))
  }

  /** Import `principal_name/permission`. */
  function ImportServer(e: Engine, id: string): (o: Reply<ServerState>)
    ensures o.issued == []
    ensures ResourceIds.SplitImport(id, 2).Err? ==>
              o.response == Failed(InvalidImportId, ImportFormat("principal_name/permission"))
    ensures o.response.Saved? ==>
              ResourceIds.SplitImport(id, 2).Ok?
              && var parts := ResourceIds.SplitImport(id, 2).value;
              var p := Permissions.GetServerPermission(e, parts[0], parts[1]);
              p.Ok? && p.value.Some?
              && o.response.state == ServerState(id, parts[0], p.value.value.permissionName, p.value.value.withGrantOption)
    ensures ResourceIds.SplitImport(id, 2).Ok? ==>
              var parts := ResourceIds.SplitImport(id, 2).value;
              var p := Permissions.GetServerPermission(e, parts[0], parts[1]);
              (o.response.Saved? <==> p.Ok? && p.value.Some?)
              && (p == Ok(None) ==> o.response == Failed("Server permission not found", NotFoundMsg(parts[1], Some(parts[0]))))
    ensures !o.response.Removed?
  {
    match ResourceIds.SplitImport(id, 2)
    case Err(_) => Reply([], Failed(InvalidImportId, ImportFormat("principal_name/permission")))
    case Ok(parts) =>
      match Permissions.GetServerPermission(e, parts[0], parts[1])
      case Err(m) => Reply([], Failed("Failed to import server permission", m))
      case Ok(None) =>
        Reply([], Failed("Server permission not found", NotFoundMsg(parts[1], Some(parts[0]))))
      case Ok(Some(p)) => Reply([], Saved(ServerState(id, parts[0], p.permissionName, p.withGrantOption)))
  }

  /** The id Create stores imports to exactly the state a Read of the
      created resource stores. */
  lemma ServerCreateThenImport(e: Engine, plan: ServerState)
    requires '/' !in plan.principalName && '/' !in plan.permission
    requires CreateServer(e, plan).response.Saved?
    ensures var created := CreateServer(e, plan).response.state;
            ReadServer(e, created).response.Saved? <==> ImportServer(e, created.id).response.Saved?
    ensures var created := CreateServer(e, plan).response.state;
            ReadServer(e, created).response.Saved? ==> ImportServer(e, created.id) == ReadServer(e, created)
  {
    ResourceIds.ServerPermissionIdRoundTrip(plan.principalName, plan.permission);
    Permissions.LookupsIgnoreCase(e, "", "", plan.principalName, plan.permission);
  }
}
