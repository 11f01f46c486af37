/** Database users: the by-name lookup, the three CREATE USER forms, the
    default-schema update and DROP USER. */
module Users {
  import opened Wrappers
  import opened Catalog
  import opened Engine
  import Sql
  import Sid

  /** `mssql.User`: a catalog row together with the `DB_ID()` of its database. */
  datatype User = User(
    principalId: int,
    name: string,
    databaseId: int,
    defaultSchemaName: string,
    kind: char,
    loginName: string)

  /** Principal types the user lookups accept: SQL, Windows, external user
      and external group. */
  predicate IsUserKind(k: char) {
    k == 'S' || k == 'U' || k == 'E' || k == 'X'
  }

  predicate IsNamedUser(u: UserRow, name: string) {
    u.name == name && IsUserKind(u.kind)
  }

  function UserOf(u: UserRow, databaseId: int): User {
    User(u.principalId, u.name, databaseId, u.defaultSchemaName, u.kind, u.loginName)
  }

  /** `GetUser`: the user of this name in `db`; "no rows" is `None`. */
  function GetUser(e: Engine, db: string, name: string): (r: Result<Option<User>>)
    ensures db !in e.catalog.dbs ==> r.Err?
    ensures db in e.catalog.dbs ==>
              (r == Ok(None) <==>
                 UserByName(db, name) !in e.queryErrors
                 && forall i :: 0 <= i < |e.catalog.dbs[db].users| ==> !IsNamedUser(e.catalog.dbs[db].users[i], name))
    ensures r.Ok? && r.value.Some? ==>
              db in e.catalog.dbs
              && r.value.value.name == name && IsUserKind(r.value.value.kind)
              && r.value.value.databaseId == e.catalog.dbs[db].id
              && exists u :: u in e.catalog.dbs[db].users && UserOf(u, e.catalog.dbs[db].id) == r.value.value
  {
    match ReadIn(e, db, UserByName(db, name), (d: DbCatalog) => d.users, (u: UserRow) => IsNamedUser(u, name), "user")
    case Err(m) => Err(m)
    case Ok(None) => Ok(None)
    case Ok(Some(u)) => Ok(Some(UserOf(u, e.catalog.dbs[db].id)))
  }

  /** The schema every CREATE USER form uses: `dbo` when none is given. */
  function SchemaOrDbo(schema: string): (s: string)
    ensures s != ""
    ensures schema != "" ==> s == schema
    ensures schema == "" ==> s == "dbo"
  {
    if schema == "" then "dbo" else schema
  }

  datatype CreateSqlUserOptions = CreateSqlUserOptions(
    database: string,
    userName: string,
    loginName: string,
    defaultSchema: string)

  /** The CREATE USER … FOR LOGIN statement, with an empty default schema
      replaced by `dbo`. */
  function CreateSqlUserStmt(opts: CreateSqlUserOptions): (st: Sql.Stmt)
    ensures Sql.Render(st) == "CREATE USER " + Sql.Bracket(opts.userName) + " FOR LOGIN " + Sql.Bracket(opts.loginName)
                              + " WITH DEFAULT_SCHEMA = " + Sql.Bracket(if opts.defaultSchema == "" then "dbo" else opts.defaultSchema)
  {
    Sql.CreateUserForLogin(opts.userName, opts.loginName, SchemaOrDbo(opts.defaultSchema))
  }

  /** `CreateSQLUser`: create the user for its login in the database, then
      re-read it; a re-read that finds nothing is an error. */
  function CreateSQLUser(e: Engine, opts: CreateSqlUserOptions): (o: Outcome<User>)
    ensures o.issued <= [Command(InDatabase(opts.database), CreateSqlUserStmt(opts))]
    ensures o.result.Ok? <==>
              DoIn(e, opts.database, CreateSqlUserStmt(opts), "").result.Ok?
              && GetUser(e, opts.database, opts.userName).Ok?
              && GetUser(e, opts.database, opts.userName).value.Some?
    ensures o.result.Ok? ==>
              o.issued == [Command(InDatabase(opts.database), CreateSqlUserStmt(opts))]
              && Some(o.result.value) == GetUser(e, opts.database, opts.userName).value
    ensures DoIn(e, opts.database, CreateSqlUserStmt(opts), "").result.Ok?
            && GetUser(e, opts.database, opts.userName) == Ok(None) ==>
              o.result == Err("user was created but could not be retrieved")
  {
    var run := DoIn(e, opts.database, CreateSqlUserStmt(opts), "failed to create SQL user");
    if run.result.Err? then Outcome(run.issued, Err(run.result.msg))
    else
      match GetUser(e, opts.database, opts.userName)
      case Err(m) => Outcome(run.issued, Err(m))
      case Ok(None) => Outcome(run.issued, Err("user was created but could not be retrieved"))
      case Ok(Some(u)) => Outcome(run.issued, Ok(u))
  }

  /** `UpdateSQLUserOptions`: `None` leaves the default schema alone. */
  datatype UpdateSqlUserOptions = UpdateSqlUserOptions(
    database: string,
    userName: string,
    defaultSchema: Option<string>)

  /** `UpdateSQLUser`: ALTER only when a default schema is given, then re-read. */
  function UpdateSQLUser(e: Engine, opts: UpdateSqlUserOptions): (o: Outcome<Option<User>>)
    ensures opts.defaultSchema.None? ==> o.issued == [] && o.result == GetUser(e, opts.database, opts.userName)
    ensures opts.defaultSchema.Some? ==>
              var c := Command(InDatabase(opts.database), Sql.AlterUserDefaultSchema(opts.userName, opts.defaultSchema.value));
              o.issued <= [c]
              && (o.result.Ok? ==> o.issued == [c] && c !in e.execErrors)
              && (c in e.execErrors && opts.database in e.catalog.dbs ==>
                    o.result == Err("failed to update SQL user: " + e.execErrors[c]))
    ensures o.result.Ok? ==> o.result == GetUser(e, opts.database, opts.userName)
  {
    if opts.defaultSchema.None? then Outcome([], GetUser(e, opts.database, opts.userName))
    else
      var run := DoIn(e, opts.database, Sql.AlterUserDefaultSchema(opts.userName, opts.defaultSchema.value),
                      "failed to update SQL user");
      if run.result.Err? then Outcome(run.issued, Err(run.result.msg))
      else Outcome(run.issued, GetUser(e, opts.database, opts.userName))
  }

  /** `DropUser`: `DROP USER IF EXISTS` in the database. */
  function DropUser(e: Engine, db: string, name: string): (o: Outcome<()>)
    ensures o.issued <= [Command(InDatabase(db), Sql.DropUser(name))]
    ensures o.result.Ok? <==> db in e.catalog.dbs && Command(InDatabase(db), Sql.DropUser(name)) !in e.execErrors
    ensures db in e.catalog.dbs && Command(InDatabase(db), Sql.DropUser(name)) in e.execErrors ==>
              o.result == Err("failed to drop user: " + e.execErrors[Command(InDatabase(db), Sql.DropUser(name))])
  {
    DoIn(e, db, Sql.DropUser(name), "failed to drop user")
  }

  datatype AzureUserOptions = AzureUserOptions(
    database: string,
    userName: string,
    objectId: string,
    defaultSchema: string)

  /** The CREATE USER of an Azure AD user: by SID when an object id is
      given (which must be a GUID), from the external provider otherwise. */
  function AzureUserStmt(opts: AzureUserOptions): (r: Result<Sql.Stmt>)
    ensures r.Ok? ==>
              (r.value.CreateUserWithSid? || r.value.CreateUserFromExternalProvider?)
              && r.value.name == opts.userName
              && r.value.defaultSchema == SchemaOrDbo(opts.defaultSchema)
              && (r.value.CreateUserWithSid? <==> opts.objectId != "")
    ensures opts.objectId == "" ==>
              r == Ok(Sql.CreateUserFromExternalProvider(opts.userName, SchemaOrDbo(opts.defaultSchema)))
    ensures opts.objectId != "" ==>
              (r.Ok? <==> Sid.GuidToSid(opts.objectId).Ok?)
              && (r.Ok? ==> r.value == Sql.CreateUserWithSid(opts.userName, Sid.GuidToSid(opts.objectId).value,
                                                             SchemaOrDbo(opts.defaultSchema)))
              && (r.Err? ==> r.msg == "failed to convert object ID to SID: " + Sid.GuidToSid(opts.objectId).msg)
  {
    var schema := SchemaOrDbo(opts.defaultSchema);
    if opts.objectId != "" then
      match Sid.GuidToSid(opts.objectId)
      case Err(m) => Err("failed to convert object ID to SID: " + m)
      case Ok(sid) => Ok(Sql.CreateUserWithSid(opts.userName, sid, schema))
    else Ok(Sql.CreateUserFromExternalProvider(opts.userName, schema))
  }

  /** Run a CREATE USER on a direct connection to the database, then re-read
      the user there; the re-read may come back empty. */
  function CreateOnDirect(e: Engine, db: string, stmt: Result<Sql.Stmt>, name: string, wrap: string)
    : (o: Outcome<Option<User>>)
    ensures stmt.Err? || Connect(e, db).Some? ==> o.issued == [] && o.result.Err?
    ensures stmt.Ok? && Connect(e, db).None? ==> o.issued == [Command(InDatabase(db), stmt.value)]
    ensures o.result.Ok? ==> o.result == GetUser(e, db, name) && Command(InDatabase(db), stmt.value) !in e.execErrors
    ensures forall c :: c in o.issued ==> stmt.Ok? && c == Command(InDatabase(db), stmt.value)
  {
    match Connect(e, db)
    case Some(m) => Outcome([], Err("failed to connect to database " + db + ": " + m))
    case None =>
      match stmt
      case Err(m) => Outcome([], Err(m))
      case Ok(s) =>
        var run := Do(e, Command(InDatabase(db), s), wrap);
        if run.result.Err? then Outcome(run.issued, Err(run.result.msg))
        else Outcome(run.issued, GetUser(e, db, name))
  }

  /** `CreateAzureADUser`. */
  function CreateAzureADUser(e: Engine, opts: AzureUserOptions): (o: Outcome<Option<User>>)
    ensures opts.objectId != "" && Sid.GuidToSid(opts.objectId).Err? ==> o.issued == [] && o.result.Err?
    ensures Connect(e, opts.database).None? && AzureUserStmt(opts).Ok? ==>
              o.issued == [Command(InDatabase(opts.database), AzureUserStmt(opts).value)]
    ensures o.result.Ok? ==> o.result == GetUser(e, opts.database, opts.userName)
    ensures forall c :: c in o.issued ==>
              AzureUserStmt(opts).Ok? && c == Command(InDatabase(opts.database), AzureUserStmt(opts).value)
  {
    CreateOnDirect(e, opts.database, AzureUserStmt(opts), opts.userName, "failed to create Azure AD user")
  }

  datatype ServicePrincipalOptions = ServicePrincipalOptions(
    database: string,
    name: string,
    clientId: string,
    defaultSchema: string)

  /** The CREATE USER of a service principal: always by SID. */
  function ServicePrincipalStmt(opts: ServicePrincipalOptions): (r: Result<Sql.Stmt>)
    ensures r.Ok? <==> Sid.GuidToSid(opts.clientId).Ok?
    ensures r.Ok? ==> r.value == Sql.CreateUserWithSid(opts.name, Sid.GuidToSid(opts.clientId).value,
                                                       SchemaOrDbo(opts.defaultSchema))
    ensures r.Err? ==> r.msg == "failed to convert client ID to SID: " + Sid.GuidToSid(opts.clientId).msg
  {
    match Sid.GuidToSid(opts.clientId)
    case Err(m) => Err("failed to convert client ID to SID: " + m)
    case Ok(sid) => Ok(Sql.CreateUserWithSid(opts.name, sid, SchemaOrDbo(opts.defaultSchema)))
  }

  /** `CreateAzureADServicePrincipal`. */
  function CreateAzureADServicePrincipal(e: Engine, opts: ServicePrincipalOptions): (o: Outcome<Option<User>>)
    ensures Sid.GuidToSid(opts.clientId).Err? ==> o.issued == [] && o.result.Err?
    ensures Connect(e, opts.database).None? && Sid.GuidToSid(opts.clientId).Ok? ==>
              o.issued == [Command(InDatabase(opts.database), ServicePrincipalStmt(opts).value)]
    ensures o.result.Ok? ==> o.result == GetUser(e, opts.database, opts.name)
  {
    CreateOnDirect(e, opts.database, ServicePrincipalStmt(opts), opts.name, "failed to create Azure AD service principal")
  }
}
