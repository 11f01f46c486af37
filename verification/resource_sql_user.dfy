/** The `mssql_sql_user` resource: a database user mapped to a login, with
    its database-role memberships. */
module SqlUserResource {
  import opened Wrappers
  import opened Engine
  import opened Framework
  import Users
  import Membership
  import ResourceIds
  import Sql
  import Text

  /** The Terraform state of the resource; `roles` is `None` when null. */
  datatype State = State(
    id: string,
    databaseName: string,
    name: string,
    loginName: string,
    defaultSchema: string,
    roles: Option<seq<string>>)

  function CreateOptions(plan: State): Users.CreateSqlUserOptions {
    Users.CreateSqlUserOptions(plan.databaseName, plan.name, plan.loginName, plan.defaultSchema)
  }

  /** The id a found user is stored under. */
  function IdOf(u: Users.User): string {
    ResourceIds.UserId(u.databaseId, u.principalId)
  }

  /** Create: create the user, add it to every planned role, then store the
      plan with the catalog's id and default schema. */
  function Create(e: Engine, plan: State): (o: Reply<State>)
    ensures var c := Users.CreateSQLUser(e, CreateOptions(plan));
            c.result.Err? ==> o == Reply(c.issued, Failed("Failed to create SQL user", c.result.msg))
    ensures var c := Users.CreateSQLUser(e, CreateOptions(plan));
            var roles := Membership.AssignRoles(e, plan.databaseName, plan.name, plan.roles);
            c.result.Ok? ==> o.issued == c.issued + roles.issued
                             && (o.response.Failed? <==> roles.response.Failed?)
    ensures o.response.Saved? ==>
              var u := Users.GetUser(e, plan.databaseName, plan.name);
              u.Ok? && u.value.Some?
              && o.response.state == plan.(id := IdOf(u.value.value),
                                           defaultSchema := u.value.value.defaultSchemaName,
                                           roles := Some(Membership.Listed(plan.roles)))
    ensures !o.response.Removed?
  {
    var c := Users.CreateSQLUser(e, CreateOptions(plan));
    if c.result.Err? then Reply(c.issued, Failed("Failed to create SQL user", c.result.msg))
    else
      var u := c.result.value;
      var roles := Membership.AssignRoles(e, plan.databaseName, plan.name, plan.roles);
      match roles.response
      case Saved(stored) =>
        Reply(c.issued + roles.issued, Saved(plan.(id := IdOf(u), defaultSchema := u.defaultSchemaName, roles := stored)))
      case Failed(summary, detail) => Reply(c.issued + roles.issued, Failed(summary, detail))
      case Removed => Reply(c.issued + roles.issued, Removed)
  }

  /** Read: look the user up by name only; a missing user leaves state, a
      found one refreshes the id, default schema, login and roles.
      `userRoles` is the answer of `GetUserRoles`, which this model does not
      define. */
  function Read(e: Engine, state: State, userRoles: Result<seq<string>>): (o: Reply<State>)
    ensures o.issued == []
    ensures o.response.Removed? <==> Users.GetUser(e, state.databaseName, state.name) == Ok(None)
    ensures Users.GetUser(e, state.databaseName, state.name).Err? ==>
              o.response == Failed("Failed to read SQL user", Users.GetUser(e, state.databaseName, state.name).msg)
    ensures o.response.Saved? ==>
              var u := Users.GetUser(e, state.databaseName, state.name).value.value;
              userRoles.Ok?
              && o.response.state == State(IdOf(u), state.databaseName, state.name, u.loginName,
                                           u.defaultSchemaName, Some(userRoles.value))
  {
    match Users.GetUser(e, state.databaseName, state.name)
    case Err(m) => Reply([], Failed("Failed to read SQL user", m))
    case Ok(None) => Reply([], Removed)
    case Ok(Some(u)) =>
      match userRoles
      case Err(m) => Reply([], Failed("Failed to read user roles", m))
      case Ok(rs) =>
        Reply([], Saved(state.(id := IdOf(u), defaultSchema := u.defaultSchemaName, loginName := u.loginName,
                               roles := Some(rs))))
  }

  /** The update options: a default schema only when the plan changes it. */
  function UpdateOptions(plan: State, state: State): Users.UpdateSqlUserOptions {
    Users.UpdateSqlUserOptions(plan.databaseName, plan.name,
                               if plan.defaultSchema != state.defaultSchema then Some(plan.defaultSchema) else None)
  }

  /** Update: always call `UpdateSQLUser` (which alters the default schema
      only when it changed), then reconcile the roles when the role sets
      differ; the plan is stored, with the roles sorted when they were
      reconciled. */
  function Update(e: Engine, plan: State, state: State): (o: Reply<State>)
    ensures var u := Users.UpdateSQLUser(e, UpdateOptions(plan, state));
            u.result.Err? ==> o == Reply(u.issued, Failed("Failed to update SQL user", u.result.msg))
    ensures var u := Users.UpdateSQLUser(e, UpdateOptions(plan, state));
            var roles := Membership.UpdateRoles(e, plan.databaseName, plan.name, plan.roles, state.roles);
            u.result.Ok? ==> o.issued == u.issued + roles.issued
                             && (o.response.Failed? <==> roles.response.Failed?)
                             && (o.response.Saved? ==> o.response.state == plan.(roles := roles.response.state))
    ensures !o.response.Removed?
  {
    var u := Users.UpdateSQLUser(e, UpdateOptions(plan, state));
    if u.result.Err? then Reply(u.issued, Failed("Failed to update SQL user", u.result.msg))
    else
      var roles := Membership.UpdateRoles(e, plan.databaseName, plan.name, plan.roles, state.roles);
      match roles.response
      case Saved(stored) => Reply(u.issued + roles.issued, Saved(plan.(roles := stored)))
      case Failed(summary, detail) => Reply(u.issued + roles.issued, Failed(summary, detail))
      case Removed => Reply(u.issued + roles.issued, Removed)
  }

  /** What an Update issues: a default-schema ALTER only when the plan
      changes the default schema, and no membership statement at all when
      the planned role set equals the stored one. */
  lemma UpdateStatements(e: Engine, plan: State, state: State)
    ensures forall c :: c in Update(e, plan, state).issued && c.stmt.AlterUserDefaultSchema? ==>
              plan.defaultSchema != state.defaultSchema
    ensures Membership.SetEqual(plan.roles, state.roles) ==>
              forall c :: c in Update(e, plan, state).issued ==> !c.stmt.AlterRoleMember?
  {
    var u := Users.UpdateSQLUser(e, UpdateOptions(plan, state));
    var roles := Membership.UpdateRoles(e, plan.databaseName, plan.name, plan.roles, state.roles);
    var issued := Update(e, plan, state).issued;
    assert u.result.Ok? ==> issued == u.issued + roles.issued;
    assert u.result.Err? ==> issued == u.issued;
    forall c | c in issued
      ensures c.stmt.AlterUserDefaultSchema? ==> plan.defaultSchema != state.defaultSchema
      ensures Membership.SetEqual(plan.roles, state.roles) ==> !c.stmt.AlterRoleMember?
    {
      if c in u.issued {
        assert UpdateOptions(plan, state).defaultSchema.Some?;
      }
    }
  }

  /** Delete: `DROP USER IF EXISTS`. */
  function Delete(e: Engine, state: State): (o: Reply<()>)
    ensures o.issued <= [Command(InDatabase(state.databaseName), Sql.DropUser(state.name))]
    ensures o.response.Saved? <==> Users.DropUser(e, state.databaseName, state.name).result.Ok?
    ensures o.response.Failed? ==>
              o.response == Failed("Failed to delete SQL user", Users.DropUser(e, state.databaseName, state.name).result.msg)
  {
    var d := Users.DropUser(e, state.databaseName, state.name);
    if d.result.Err? then Reply(d.issued, Failed("Failed to delete SQL user", d.result.msg))
    else Reply(d.issued, Saved(()))
  }

  function NotFound(db: string, name: string): string {
    "User '" + name + "' not found in database '" + db + "'"
  }

  /** Import `database_name/user_name`: exactly two pieces, a user that
      exists; the roles stay unset. */
  function Import(e: Engine, id: string): (o: Reply<State>)
    ensures o.issued == []
    ensures ResourceIds.SplitImport(id, 2).Err? ==>
              o.response == Failed("Invalid import ID", "Import ID must be in format 'database_name/user_name'")
    ensures o.response.Saved? ==>
              ResourceIds.SplitImport(id, 2).Ok?
              && var parts := ResourceIds.SplitImport(id, 2).value;
              var found := Users.GetUser(e, parts[0], parts[1]);
              found.Ok? && found.value.Some?
              && o.response.state == State(IdOf(found.value.value), parts[0], found.value.value.name,
                                           found.value.value.loginName, found.value.value.defaultSchemaName, None)
    ensures !o.response.Removed?
  {
    match ResourceIds.SplitImport(id, 2)
    case Err(_) => Reply([], Failed("Invalid import ID", "Import ID must be in format 'database_name/user_name'"))
    case Ok(parts) =>
      match Users.GetUser(e, parts[0], parts[1])
      case Err(m) => Reply([], Failed("Failed to import SQL user", m))
      case Ok(None) =>
        Reply([], Failed("SQL user not found", NotFound(parts[0], parts[1])))
      case Ok(Some(u)) => Reply([], Saved(State(IdOf(u), parts[0], u.name, u.loginName, u.defaultSchemaName, None)))
  }

  /** A refresh right after a successful Create changes nothing but the
      login name, which it takes from the catalog, as long as the server
      reports the roles the Create assigned. */
  lemma ReadAfterCreate(e: Engine, plan: State)
    requires Create(e, plan).response.Saved?
    ensures var s := Create(e, plan).response.state;
            var u := Users.GetUser(e, plan.databaseName, plan.name).value.value;
            Read(e, s, Ok(Membership.Listed(plan.roles))) == Reply([], Saved(s.(loginName := u.loginName)))
  {
  }

  /** Refreshing is idempotent: reading the state a read stored, with the
      same roles reported, stores it again unchanged. */
  lemma ReadIsStable(e: Engine, state: State, roles: seq<string>)
    requires Read(e, state, Ok(roles)).response.Saved?
    ensures var s := Read(e, state, Ok(roles)).response.state;
            Read(e, s, Ok(roles)) == Reply([], Saved(s))
  {
  }

  /** An imported user is already what a refresh would store, apart from
      the roles the refresh fills in. */
  lemma ImportThenRead(e: Engine, id: string, roles: seq<string>)
    requires Import(e, id).response.Saved?
    ensures var s := Import(e, id).response.state;
            Read(e, s, Ok(roles)) == Reply([], Saved(s.(roles := Some(roles))))
  {
  }

  /** Importing `db/name` looks up exactly that user, when neither name
      contains `/`. */
  lemma ImportByNames(e: Engine, db: string, name: string)
    requires '/' !in db && '/' !in name
    ensures Import(e, db + "/" + name).response.Saved? <==>
              (Users.GetUser(e, db, name).Ok? && Users.GetUser(e, db, name).value.Some?)
  {
    ResourceIds.UserImportRoundTrip(db, name);
    assert Text.Join([db, name], '/') == db + "/" + name;
  }
}
