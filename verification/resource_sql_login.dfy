/** The `mssql_sql_login` resource: a server login, stored under its
    principal id as a decimal string. */
module SqlLoginResource {
  import opened Wrappers
  import opened Catalog
  import opened Engine
  import opened Framework
  import Logins
  import Decimal
  import Sql

  /** The Terraform state; every attribute is known once stored. */
  datatype State = State(
    id: string,
    name: string,
    password: string,
    defaultDatabase: string,
    defaultLanguage: string,
    checkExpiration: bool,
    checkPolicy: bool,
    isDisabled: bool)

  function CreateOptions(plan: State): Logins.CreateOptions {
    Logins.CreateOptions(plan.name, plan.password, plan.defaultDatabase, plan.defaultLanguage,
                         plan.checkExpiration, plan.checkPolicy)
  }

  /** The follow-up update a Create makes for a login planned as disabled. */
  function DisableOptions(name: string): Logins.UpdateOptions {
    Logins.UpdateOptions(name, None, None, None, None, None, Some(true))
  }

  /** The stored state of a found login; the password is the one given. */
  function StateOf(l: SqlLogin, password: string): State {
    State(Decimal.Itoa(l.principalId), l.name, password, l.defaultDatabaseName, l.defaultLanguageName,
          l.checkExpirationEnabled, l.checkPolicyEnabled, l.isDisabled)
  }

  /** Create as the provider performs it: `None` stands for the nil
      dereference when the re-read after CREATE LOGIN finds no row. */
  function CreateAsWritten(e: Engine, plan: State): (o: Option<Reply<State>>)
    ensures var c := Logins.CreateSQLLogin(e, CreateOptions(plan));
            o.None? <==> c.result == Ok(None) && (!plan.isDisabled || Logins.UpdateSQLLogin(e, DisableOptions(plan.name)).result.Ok?)
    ensures o.Some? ==> o.value == Create(e, plan)
  {
    var c := Logins.CreateSQLLogin(e, CreateOptions(plan));
    if c.result.Err? then Some(Reply(c.issued, Failed("Failed to create SQL login", c.result.msg)))
    else
      var d := if plan.isDisabled then Logins.UpdateSQLLogin(e, DisableOptions(plan.name)) else Outcome([], Ok(None));
      if d.result.Err? then Some(Reply(c.issued + d.issued, Failed("Failed to disable SQL login", d.result.msg)))
      else if c.result.value.None? then None
      else
        var l := c.result.value.value;
        Some(Reply(c.issued + d.issued, Saved(plan.(id := Decimal.Itoa(l.principalId), defaultLanguage := l.defaultLanguageName))))
  }

  /** The nil dereference is reachable: the create succeeds and the re-read
      finds no login of that name. */
  lemma CreateAsWrittenCrashes(plan: State)
    requires !plan.isDisabled
    ensures var e := Engine(Catalog([], [], [], [], [], map[]), map[], map[], map[]);
            CreateAsWritten(e, plan).None?
  {
  }

  const NotRetrieved := "login was created but could not be retrieved"

  /** Create: CREATE LOGIN, then ALTER LOGIN ... DISABLE when the plan asks
      for a disabled login; the plan is stored with the new principal id and
      the engine's default language.  A re-read that finds nothing is an
      error instead of a crash. */
  function Create(e: Engine, plan: State): (o: Reply<State>)
    ensures var c := Logins.CreateSQLLogin(e, CreateOptions(plan));
            c.result.Err? ==> o == Reply(c.issued, Failed("Failed to create SQL login", c.result.msg))
    ensures var c := Logins.CreateSQLLogin(e, CreateOptions(plan));
            var d := Logins.UpdateSQLLogin(e, DisableOptions(plan.name));
            c.result.Ok? && plan.isDisabled && d.result.Err? ==>
              o == Reply(c.issued + d.issued, Failed("Failed to disable SQL login", d.result.msg))
    ensures o.response.Saved? ==>
              var c := Logins.CreateSQLLogin(e, CreateOptions(plan));
              c.result.Ok? && c.result.value.Some?
              && o.response.state == plan.(id := Decimal.Itoa(c.result.value.value.principalId),
                                           defaultLanguage := c.result.value.value.defaultLanguageName)
    ensures Logins.CreateSQLLogin(e, CreateOptions(plan)).result == Ok(None) ==> o.response.Failed?
    ensures !o.response.Removed?
  {
    var c := Logins.CreateSQLLogin(e, CreateOptions(plan));
    if c.result.Err? then Reply(c.issued, Failed("Failed to create SQL login", c.result.msg))
    else
      var d := if plan.isDisabled then Logins.UpdateSQLLogin(e, DisableOptions(plan.name)) else Outcome([], Ok(None));
      if d.result.Err? then Reply(c.issued + d.issued, Failed("Failed to disable SQL login", d.result.msg))
      else if c.result.value.None? then Reply(c.issued + d.issued, Failed("Failed to create SQL login", NotRetrieved))
      else
        var l := c.result.value.value;
        Reply(c.issued + d.issued, Saved(plan.(id := Decimal.Itoa(l.principalId), defaultLanguage := l.defaultLanguageName)))
  }

  /** The lookup a Read settles on: by principal id when the stored id
      parses and finds a login, otherwise by name; a failed query stops the
      lookup there. */
  function Lookup(e: Engine, state: State): (r: Result<Option<SqlLogin>>)
    ensures var id := Decimal.Atoi(state.id);
            id.Some? && Logins.GetSQLLoginByID(e, id.value).Err? ==> r == Logins.GetSQLLoginByID(e, id.value)
    ensures var id := Decimal.Atoi(state.id);
            id.Some? && Logins.GetSQLLoginByID(e, id.value).Ok? && Logins.GetSQLLoginByID(e, id.value).value.Some? ==>
              r == Logins.GetSQLLoginByID(e, id.value)
    ensures var id := Decimal.Atoi(state.id);
            id.None? || Logins.GetSQLLoginByID(e, id.value) == Ok(None) ==> r == Logins.GetSQLLogin(e, state.name)
  {
    var byId := match Decimal.Atoi(state.id)
                case None => Ok(None)
                case Some(id) => Logins.GetSQLLoginByID(e, id);
    if byId.Err? then byId
    else if byId.value.Some? then byId
    else Logins.GetSQLLogin(e, state.name)
  }

  /** Read: find the login (by id, then by name), remove the resource when
      neither finds it, otherwise refresh every attribute but the password,
      including the id, which may have changed. */
  function Read(e: Engine, state: State): (o: Reply<State>)
    ensures o.issued == []
    ensures o.response.Removed? <==> Lookup(e, state) == Ok(None)
    ensures Lookup(e, state).Err? ==> o.response == Failed("Failed to read SQL login", Lookup(e, state).msg)
    ensures o.response.Saved? ==>
              Lookup(e, state).Ok? && Lookup(e, state).value.Some?
              && o.response.state == StateOf(Lookup(e, state).value.value, state.password)
  {
    match Lookup(e, state)
    case Err(m) => Reply([], Failed("Failed to read SQL login", m))
    case Ok(None) => Reply([], Removed)
    case Ok(Some(l)) => Reply([], Saved(StateOf(l, state.password)))
  }

  /** A Read whose stored id no longer names a login, but whose name still
      does, stores the id of the login found by name. */
  lemma ReadFollowsRename(e: Engine, state: State, l: SqlLogin)
    requires Decimal.Atoi(state.id).Some? ==> Logins.GetSQLLoginByID(e, Decimal.Atoi(state.id).value) == Ok(None)
    requires Logins.GetSQLLogin(e, state.name) == Ok(Some(l))
    ensures Read(e, state) == Reply([], Saved(StateOf(l, state.password)))
    ensures Read(e, state).response.state.id == Decimal.Itoa(l.principalId)
  {
  }

  /** No two logins share a principal id, as in `sys.sql_logins`. */
  predicate UniqueIds(c: Catalog) {
    forall i, j :: 0 <= i < |c.logins| && 0 <= j < |c.logins| && c.logins[i].principalId == c.logins[j].principalId ==>
      c.logins[i] == c.logins[j]
  }

  /** A login row is found again by its own principal id. */
  lemma FoundById(e: Engine, l: SqlLogin)
    requires UniqueIds(e.catalog) && LoginById(l.principalId) !in e.queryErrors
    requires l in e.catalog.logins
    ensures Logins.GetSQLLoginByID(e, l.principalId) == Ok(Some(l))
  {
    var r := Logins.GetSQLLoginByID(e, l.principalId);
    var i :| 0 <= i < |e.catalog.logins| && e.catalog.logins[i] == l;
    assert r != Ok(None);
    var j :| 0 <= j < |e.catalog.logins| && e.catalog.logins[j] == r.value.value;
  }

  /** Reading a freshly read state changes nothing. */
  lemma ReadIsStable(e: Engine, state: State)
    requires UniqueIds(e.catalog) && e.queryErrors == map[]
    requires Read(e, state).response.Saved?
    ensures Read(e, Read(e, state).response.state) == Read(e, state)
  {
    var l := Lookup(e, state).value.value;
    var s := StateOf(l, state.password);
    Decimal.AtoiItoa(l.principalId);
    FoundById(e, l);
    assert Lookup(e, s) == Ok(Some(l));
  }

  /** The options of an Update: each setting whose planned value differs
      from the stored one, and nothing else. */
  function UpdateOptions(plan: State, state: State): (opts: Logins.UpdateOptions)
    ensures opts.name == plan.name
    ensures opts.password.Some? <==> plan.password != state.password
    ensures opts.defaultDatabase.Some? <==> plan.defaultDatabase != state.defaultDatabase
    ensures opts.defaultLanguage.Some? <==> plan.defaultLanguage != state.defaultLanguage
    ensures opts.checkExpiration.Some? <==> plan.checkExpiration != state.checkExpiration
    ensures opts.checkPolicy.Some? <==> plan.checkPolicy != state.checkPolicy
    ensures opts.isDisabled.Some? <==> plan.isDisabled != state.isDisabled
    ensures opts.password.Some? ==> opts.password.value == plan.password
    ensures opts.defaultDatabase.Some? ==> opts.defaultDatabase.value == plan.defaultDatabase
    ensures opts.defaultLanguage.Some? ==> opts.defaultLanguage.value == plan.defaultLanguage
    ensures opts.checkExpiration.Some? ==> opts.checkExpiration.value == plan.checkExpiration
    ensures opts.checkPolicy.Some? ==> opts.checkPolicy.value == plan.checkPolicy
    ensures opts.isDisabled.Some? ==> opts.isDisabled.value == plan.isDisabled
  {
    Logins.UpdateOptions(
      plan.name,
      if plan.password != state.password then Some(plan.password) else None,
      if plan.defaultDatabase != state.defaultDatabase then Some(plan.defaultDatabase) else None,
      if plan.defaultLanguage != state.defaultLanguage then Some(plan.defaultLanguage) else None,
      if plan.checkExpiration != state.checkExpiration then Some(plan.checkExpiration) else None,
      if plan.checkPolicy != state.checkPolicy then Some(plan.checkPolicy) else None,
      if plan.isDisabled != state.isDisabled then Some(plan.isDisabled) else None)
  }

  /** Update: ALTER LOGIN for the changed settings, then store the plan. */
  function Update(e: Engine, plan: State, state: State): (o: Reply<State>)
    ensures var u := Logins.UpdateSQLLogin(e, UpdateOptions(plan, state));
            o.issued == u.issued
            && (u.result.Err? ==> o.response == Failed("Failed to update SQL login", u.result.msg))
            && (u.result.Ok? ==> o.response == Saved(plan))
  {
    var u := Logins.UpdateSQLLogin(e, UpdateOptions(plan, state));
    if u.result.Err? then Reply(u.issued, Failed("Failed to update SQL login", u.result.msg))
    else Reply(u.issued, Saved(plan))
  }

  /** An Update that changes nothing issues no statement. */
  lemma UpdateUnchangedIsQuiet(e: Engine, state: State)
    requires LoginByName(state.name) !in e.queryErrors
    ensures Update(e, state, state) == Reply([], Saved(state))
  {
    var opts := UpdateOptions(state, state);
    assert Logins.AlterParts(opts) == [];
    assert Logins.UpdateSteps(opts) == [];
  }

  /** Only a changed password produces the password statement. */
  lemma PasswordOnlyWhenChanged(e: Engine, plan: State, state: State)
    ensures (exists i :: 0 <= i < |Logins.UpdateSteps(UpdateOptions(plan, state))|
                         && Logins.UpdateSteps(UpdateOptions(plan, state))[i].stmt.AlterLoginPassword?)
            <==> plan.password != state.password
  {
    Logins.PasswordStep(UpdateOptions(plan, state));
  }

  /** Delete: DROP LOGIN. */
  function Delete(e: Engine, state: State): (o: Reply<()>)
    ensures o.issued == [Command(Server, Sql.DropLogin(state.name))]
    ensures o.response.Saved? <==> Command(Server, Sql.DropLogin(state.name)) !in e.execErrors
    ensures o.response.Failed? ==> o.response.summary == "Failed to delete SQL login"
  {
    var d := Logins.DropSQLLogin(e, state.name);
    if d.result.Err? then Reply(d.issued, Failed("Failed to delete SQL login", d.result.msg))
    else Reply(d.issued, Saved(()))
  }

  /** Import by login name: the catalog's attributes, an empty password. */
  function Import(e: Engine, name: string): (o: Reply<State>)
    ensures o.issued == []
    ensures o.response.Saved? <==> Logins.GetSQLLogin(e, name).Ok? && Logins.GetSQLLogin(e, name).value.Some?
    ensures o.response.Saved? ==> o.response.state == StateOf(Logins.GetSQLLogin(e, name).value.value, "")
    ensures Logins.GetSQLLogin(e, name) == Ok(None) ==>
              o.response == Failed("SQL login not found", "Login '" + name + "' not found")
    ensures !o.response.Removed?
  {
    match Logins.GetSQLLogin(e, name)
    case Err(m) => Reply([], Failed("Failed to import SQL login", m))
    case Ok(None) => Reply([], Failed("SQL login not found", "Login '" + name + "' not found"))
    case Ok(Some(l)) => Reply([], Saved(StateOf(l, "")))
  }

  /** A Read right after an Import keeps the imported state. */
  lemma ImportThenRead(e: Engine, name: string)
    requires UniqueIds(e.catalog) && e.queryErrors == map[]
    requires Import(e, name).response.Saved?
    ensures Read(e, Import(e, name).response.state) == Import(e, name)
  {
    var l := Logins.GetSQLLogin(e, name).value.value;
    Decimal.AtoiItoa(l.principalId);
    FoundById(e, l);
    assert Lookup(e, StateOf(l, "")) == Ok(Some(l));
  }
}
