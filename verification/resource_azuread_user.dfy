/** The `mssql_azuread_user` resource: an Azure AD user in one database,
    identified by a URL built from the server address, with its role
    memberships; and the state move from another provider's `mssql_user`. */
module AzureUserResource {
  import opened Wrappers
  import opened Engine
  import opened Framework
  import Users
  import Membership
  import ResourceIds
  import Sql
  import Text

  /** The server address the client was configured with. */
  datatype Client = Client(host: string, port: int)

  datatype State = State(
    id: string,
    databaseName: string,
    name: string,
    objectId: string,
    defaultSchema: string,
    roles: Option<seq<string>>)

  function IdOf(client: Client, db: string, name: string): string {
    ResourceIds.AzureUserId(client.host, client.port, db, name)
  }

  function CreateOptions(plan: State): Users.AzureUserOptions {
    Users.AzureUserOptions(plan.databaseName, plan.name, plan.objectId, plan.defaultSchema)
  }

  /** Create: create the user (the re-read it returns is not used), add it to
      the planned roles, and store the plan under the URL id, with the roles
      as planned or an empty set, never null. */
  function Create(e: Engine, client: Client, plan: State): (o: Reply<State>)
    ensures var c := Users.CreateAzureADUser(e, CreateOptions(plan));
            c.result.Err? ==> o == Reply(c.issued, Failed("Failed to create Azure AD user", c.result.msg))
    ensures var c := Users.CreateAzureADUser(e, CreateOptions(plan));
            var roles := Membership.AssignRoles(e, plan.databaseName, plan.name, plan.roles);
            c.result.Ok? ==> o.issued == c.issued + roles.issued
                             && (o.response.Failed? <==> roles.response.Failed?)
    ensures !o.response.Removed?
  {
    var c := Users.CreateAzureADUser(e, CreateOptions(plan));
    if c.result.Err? then Reply(c.issued, Failed("Failed to create Azure AD user", c.result.msg))
    else
      var roles := Membership.AssignRoles(e, plan.databaseName, plan.name, plan.roles);
      WithRoles(c.issued, roles, plan.(id := IdOf(client, plan.databaseName, plan.name)))
  }

  /** A created user is stored as planned, under the URL id, with the roles
      as planned or an empty set, never null. */
  lemma CreateSavesPlan(e: Engine, client: Client, plan: State)
    ensures var o := Create(e, client, plan);
            o.response.Saved? ==>
              o.response.state == plan.(id := IdOf(client, plan.databaseName, plan.name),
                                        roles := Some(Membership.Listed(plan.roles)))
  {
  }

  /** The reply once the user exists: what the role assignment issued comes
      after `before`, and its stored roles go into `saved`. */
  function WithRoles(before: seq<Command>, roles: Reply<Option<seq<string>>>, saved: State): (o: Reply<State>)
    ensures o.issued == before + roles.issued
    ensures o.response.Failed? <==> roles.response.Failed?
    ensures o.response.Saved? <==> roles.response.Saved?
    ensures o.response.Saved? ==> o.response.state == saved.(roles := roles.response.state)
  {
    match roles.response
    case Saved(stored) => Reply(before + roles.issued, Saved(saved.(roles := stored)))
    case Failed(summary, detail) => Reply(before + roles.issued, Failed(summary, detail))
    case Removed => Reply(before + roles.issued, Removed)
  }

  /** Read: by name; a missing user leaves state, a found one gets the URL
      id, the catalog's default schema and the reported roles.
      `userRoles` is the answer of `GetUserRoles`. */
  function Read(e: Engine, client: Client, state: State, userRoles: Result<seq<string>>): (o: Reply<State>)
    ensures o.issued == []
    ensures o.response.Removed? <==> Users.GetUser(e, state.databaseName, state.name) == Ok(None)
    ensures Users.GetUser(e, state.databaseName, state.name).Err? ==>
              o.response == Failed("Failed to read Azure AD user", Users.GetUser(e, state.databaseName, state.name).msg)
    ensures o.response.Saved? ==>
              var u := Users.GetUser(e, state.databaseName, state.name).value.value;
              userRoles.Ok?
              && o.response.state == state.(id := IdOf(client, state.databaseName, state.name),
                                            defaultSchema := u.defaultSchemaName, roles := Some(userRoles.value))
  {
    match Users.GetUser(e, state.databaseName, state.name)
    case Err(m) => Reply([], Failed("Failed to read Azure AD user", m))
    case Ok(None) => Reply([], Removed)
    case Ok(Some(u)) =>
      match userRoles
      case Err(m) => Reply([], Failed("Failed to read user roles", m))
      case Ok(rs) =>
        Reply([], Saved(state.(id := IdOf(client, state.databaseName, state.name),
                               defaultSchema := u.defaultSchemaName, roles := Some(rs))))
  }

  /** The default-schema half of Update: `UpdateSQLUser` runs only when the
      planned default schema differs from the stored one. */
  function UpdateSchema(e: Engine, plan: State, state: State): (o: Outcome<()>)
    ensures plan.defaultSchema == state.defaultSchema ==> o == Outcome([], Ok(()))
    ensures plan.defaultSchema != state.defaultSchema ==>
              var u := Users.UpdateSQLUser(e, Users.UpdateSqlUserOptions(plan.databaseName, plan.name,
                                                                          Some(plan.defaultSchema)));
              o.issued == u.issued
              && (o.result.Ok? <==> u.result.Ok?)
              && (u.result.Err? ==> o.result.msg == u.result.msg)
    ensures forall c :: c in o.issued ==>
              c == Command(InDatabase(plan.databaseName), Sql.AlterUserDefaultSchema(plan.name, plan.defaultSchema))
  {
    if plan.defaultSchema == state.defaultSchema then Outcome([], Ok(()))
    else
      var u := Users.UpdateSQLUser(e, Users.UpdateSqlUserOptions(plan.databaseName, plan.name, Some(plan.defaultSchema)));
      if u.result.Err? then Outcome(u.issued, Err(u.result.msg)) else Outcome(u.issued, Ok(()))
  }

  /** Update: the default schema if it changed, then the roles if the role
      sets differ; the plan is stored, with the roles sorted when they were
      reconciled. */
  function Update(e: Engine, plan: State, state: State): (o: Reply<State>)
    ensures var u := UpdateSchema(e, plan, state);
            u.result.Err? ==> o == Reply(u.issued, Failed("Failed to update Azure AD user", u.result.msg))
    ensures var u := UpdateSchema(e, plan, state);
            var roles := Membership.UpdateRoles(e, plan.databaseName, plan.name, plan.roles, state.roles);
            u.result.Ok? ==> o.issued == u.issued + roles.issued
                             && (o.response.Failed? <==> roles.response.Failed?)
                             && (o.response.Saved? ==> o.response.state == plan.(roles := roles.response.state))
    ensures !o.response.Removed?
  {
    var u := UpdateSchema(e, plan, state);
    if u.result.Err? then Reply(u.issued, Failed("Failed to update Azure AD user", u.result.msg))
    else
      var roles := Membership.UpdateRoles(e, plan.databaseName, plan.name, plan.roles, state.roles);
      match roles.response
      case Saved(stored) => Reply(u.issued + roles.issued, Saved(plan.(roles := stored)))
      case Failed(summary, detail) => Reply(u.issued + roles.issued, Failed(summary, detail))
      case Removed => Reply(u.issued + roles.issued, Removed)
  }

  /** An Update whose plan equals the stored state issues nothing and stores
      the plan. */
  lemma UpdateUnchangedIsQuiet(e: Engine, state: State)
    ensures Update(e, state, state) == Reply([], Saved(state))
  {
    if state.roles.Some? {
      assert Membership.SetEqual(state.roles, state.roles);
    }
  }

  /** Delete: `DROP USER IF EXISTS`. */
  function Delete(e: Engine, state: State): (o: Reply<()>)
    ensures o.issued <= [Command(InDatabase(state.databaseName), Sql.DropUser(state.name))]
    ensures o.response.Saved? <==> Users.DropUser(e, state.databaseName, state.name).result.Ok?
    ensures o.response.Failed? ==>
              o.response == Failed("Failed to delete Azure AD user", Users.DropUser(e, state.databaseName, state.name).result.msg)
  {
    var d := Users.DropUser(e, state.databaseName, state.name);
    if d.result.Err? then Reply(d.issued, Failed("Failed to delete Azure AD user", d.result.msg))
    else Reply(d.issued, Saved(()))
  }

  function NotFound(db: string, name: string): string {
    "User '" + name + "' not found in database '" + db + "'"
  }

  /** Import `database_name/user_name`: the URL id, the catalog's name and
      default schema, an empty object id; the roles stay unset. */
  function Import(e: Engine, client: Client, id: string): (o: Reply<State>)
    ensures o.issued == []
    ensures ResourceIds.SplitImport(id, 2).Err? ==>
              o.response == Failed("Invalid import ID", "Import ID must be in format 'database_name/user_name'")
    ensures o.response.Saved? ==>
              ResourceIds.SplitImport(id, 2).Ok?
              && var parts := ResourceIds.SplitImport(id, 2).value;
              var found := Users.GetUser(e, parts[0], parts[1]);
              found.Ok? && found.value.Some?
              && o.response.state == State(IdOf(client, parts[0], found.value.value.name), parts[0],
                                           found.value.value.name, "", found.value.value.defaultSchemaName, None)
    ensures !o.response.Removed?
  {
    match ResourceIds.SplitImport(id, 2)
    case Err(_) => Reply([], Failed("Invalid import ID", "Import ID must be in format 'database_name/user_name'"))
    case Ok(parts) =>
      match Users.GetUser(e, parts[0], parts[1])
      case Err(m) => Reply([], Failed("Failed to import Azure AD user", m))
      case Ok(None) => Reply([], Failed("Azure AD user not found", NotFound(parts[0], parts[1])))
      case Ok(Some(u)) =>
        Reply([], Saved(State(IdOf(client, parts[0], u.name), parts[0], u.name, "", u.defaultSchemaName, None)))
  }

  /** Create, Read and Import store the same id for the same user: the URL
      of the server, database and user name. */
  lemma OneIdFormat(e: Engine, client: Client, db: string, name: string, plan: State, roles: seq<string>)
    requires '/' !in db && '/' !in name
    requires plan.databaseName == db && plan.name == name
    ensures Create(e, client, plan).response.Saved? ==>
              Create(e, client, plan).response.state.id == IdOf(client, db, name)
    ensures Read(e, client, plan, Ok(roles)).response.Saved? ==>
              Read(e, client, plan, Ok(roles)).response.state.id == IdOf(client, db, name)
    ensures Import(e, client, db + "/" + name).response.Saved? ==>
              Import(e, client, db + "/" + name).response.state.id == IdOf(client, db, name)
  {
    CreateSavesPlan(e, client, plan);
    ResourceIds.UserImportRoundTrip(db, name);
    assert Text.Join([db, name], '/') == db + "/" + name;
  }

  /** One attribute of the source state, after unmarshalling: a string, a
      null, or a value that cannot be read as a string (unknown or of
      another type), with the conversion error. */
  datatype RawString = Null | Str(value: string) | Unconvertible(error: string)

  /** The `roles` attribute of the source: not known, null, a list that
      cannot be read as one, or a list of elements. */
  datatype RawRoles = UnknownRoles | NullRoles | UnreadableRoles | RoleList(items: seq<RawString>)

  /** The attributes of a betr-io/mssql `mssql_user` the move reads. */
  datatype RawUser = RawUser(
    database: RawString,
    username: RawString,
    defaultSchema: RawString,
    roles: RawRoles,
    objectId: RawString)

  datatype MoveRequest = MoveRequest(
    sourceTypeName: string,
    sourceProviderAddress: string,
    rawState: Result<RawUser>)

  /** The target state of a move; the pointer-valued attributes may be null. */
  datatype MovedState = MovedState(
    id: string,
    databaseName: Option<string>,
    name: Option<string>,
    objectId: string,
    defaultSchema: Option<string>,
    roles: seq<string>)

  const PendingId := "migrated/pending"

  /** Only `mssql_user` resources of a provider whose address ends in
      `betr-io/mssql` are moved; any host is accepted. */
  predicate Accepts(req: MoveRequest) {
    req.sourceTypeName == "mssql_user" && Text.HasSuffix(req.sourceProviderAddress, "betr-io/mssql")
  }

  /** An element of the role list read as a plain string: a null element
      reads as the empty string, one that cannot be read gives nothing. */
  function ElementString(v: RawString): Option<string> {
    match v
    case Str(x) => Some(x)
    case Null => Some("")
    case Unconvertible(_) => None
  }

  /** The readable elements of the role list, in order; the others are
      skipped, and a list that is unknown, null or unreadable gives none. */
  function RoleStrings(roles: RawRoles): (r: seq<string>)
    ensures roles.RoleList? ==>
              forall x :: x in r <==> exists i :: 0 <= i < |roles.items| && ElementString(roles.items[i]) == Some(x)
    ensures !roles.RoleList? ==> r == []
  {
    if roles.RoleList? then Strings(roles.items) else []
  }

  function Strings(items: seq<RawString>): (r: seq<string>)
    ensures forall x :: x in r <==> exists i :: 0 <= i < |items| && ElementString(items[i]) == Some(x)
    ensures |r| <= |items|
  {
    if |items| == 0 then []
    else
      var rest := Strings(items[1..]);
      assert forall i :: 1 <= i < |items| ==> items[i] == items[1..][i - 1];
      (match ElementString(items[0]) case Some(x) => [x] case None => []) + rest
  }

  /** `StringPointerValue` after `As(&ptr)`: null stays null. */
  function PointerOf(s: RawString): Option<string>
    requires !s.Unconvertible?
  {
    if s.Str? then Some(s.value) else None
  }

  /** MoveState: `None` when this mover does not apply to the source.
      Database and user name must convert; a default schema that does not
      convert becomes `dbo`; an object id that is absent or empty becomes
      the empty string; the id is a placeholder the next Read replaces. */
  function MoveState(req: MoveRequest): (r: Option<Response<MovedState>>)
    ensures r.Some? <==> Accepts(req)
    ensures r.Some? && req.rawState.Err? ==>
              r.value == Failed("Unable to Unmarshal Source State", req.rawState.msg)
    ensures r.Some? && r.value.Saved? ==>
              var raw := req.rawState.value;
              var m := r.value.state;
              m.id == PendingId
              && !raw.database.Unconvertible? && m.databaseName == PointerOf(raw.database)
              && !raw.username.Unconvertible? && m.name == PointerOf(raw.username)
              && m.defaultSchema == (if raw.defaultSchema.Unconvertible? then Some("dbo") else PointerOf(raw.defaultSchema))
              && m.objectId == (if raw.objectId.Str? then raw.objectId.value else "")
              && m.roles == RoleStrings(raw.roles)
    ensures r.Some? && req.rawState.Ok? && (req.rawState.value.database.Unconvertible?
                                            || req.rawState.value.username.Unconvertible?) ==>
              r.value.Failed? && r.value.summary == "Unable to Convert Source State"
    ensures r.Some? ==> !r.value.Removed?
  {
    if !Accepts(req) then None
    else
      match req.rawState
      case Err(m) => Some(Failed("Unable to Unmarshal Source State", m))
      case Ok(raw) =>
        if raw.database.Unconvertible? then Some(Failed("Unable to Convert Source State", raw.database.error))
        else if raw.username.Unconvertible? then Some(Failed("Unable to Convert Source State", raw.username.error))
        else
          var schema := if raw.defaultSchema.Unconvertible? then Some("dbo") else PointerOf(raw.defaultSchema);
          var objectId := if raw.objectId.Str? && raw.objectId.value != "" then raw.objectId.value else "";
          Some(Saved(MovedState(PendingId, PointerOf(raw.database), PointerOf(raw.username), objectId, schema,
                                RoleStrings(raw.roles))))
  }

  /** The first Read after a move replaces the placeholder id with the URL
      id, which is never the placeholder. */
  lemma MovedIdIsReplaced(e: Engine, client: Client, req: MoveRequest, roles: seq<string>)
    requires MoveState(req).Some? && MoveState(req).value.Saved?
    requires var m := MoveState(req).value.state; m.databaseName.Some? && m.name.Some?
    ensures var m := MoveState(req).value.state;
            var s := State(m.id, m.databaseName.value, m.name.value, m.objectId, m.defaultSchema.GetOr(""), Some(m.roles));
            Read(e, client, s, Ok(roles)).response.Saved? ==>
              Read(e, client, s, Ok(roles)).response.state.id != PendingId
  {
    var m := MoveState(req).value.state;
    var id := IdOf(client, m.databaseName.value, m.name.value);
    assert id[..12] == "sqlserver://";
    assert PendingId[0] != id[0];
  }
}
