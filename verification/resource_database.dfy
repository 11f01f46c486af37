/** The `mssql_database` resource: a database, stored under its database id
    as a decimal string. */
module DatabaseResource {
  import opened Wrappers
  import opened Catalog
  import opened Engine
  import opened Framework
  import Databases
  import Decimal
  import Sql

  datatype State = State(id: string, name: string)

  function StateOf(d: Database): State {
    State(Decimal.Itoa(d.id), d.name)
  }

  /** Create as the provider performs it: `None` stands for the nil
      dereference when the re-read after CREATE DATABASE finds no row. */
  function CreateAsWritten(e: Engine, plan: State): (o: Option<Reply<State>>)
    ensures o.None? <==> Databases.CreateDatabase(e, plan.name).result == Ok(None)
    ensures o.Some? ==> o.value == Create(e, plan)
  {
    var c := Databases.CreateDatabase(e, plan.name);
    match c.result
    case Err(m) => Some(Reply(c.issued, Failed("Failed to create database", m)))
    case Ok(None) => None
    case Ok(Some(d)) => Some(Reply(c.issued, Saved(StateOf(d))))
  }

  /** The nil dereference is reachable: CREATE DATABASE succeeds and the
      re-read by name finds no database. */
  lemma CreateAsWrittenCrashes(plan: State)
    ensures var e := Engine(Catalog([], [], [], [], [], map[]), map[], map[], map[]);
            CreateAsWritten(e, plan).None?
  {
  }

  const NotRetrieved := "database was created but could not be retrieved"

  /** Create: CREATE DATABASE, then store the id and name of the database
      re-read by name; a re-read that finds nothing is an error. */
  function Create(e: Engine, plan: State): (o: Reply<State>)
    ensures o.issued == [Command(Server, Sql.CreateDatabase(plan.name))]
    ensures o.response.Saved? <==>
              Command(Server, Sql.CreateDatabase(plan.name)) !in e.execErrors
              && Databases.GetDatabase(e, plan.name).Ok? && Databases.GetDatabase(e, plan.name).value.Some?
    ensures o.response.Saved? ==>
              o.response.state == StateOf(Databases.GetDatabase(e, plan.name).value.value)
              && o.response.state.name == plan.name
    ensures o.response.Failed? ==> o.response.summary == "Failed to create database"
  {
    var c := Databases.CreateDatabase(e, plan.name);
    match c.result
    case Err(m) => Reply(c.issued, Failed("Failed to create database", m))
    case Ok(None) => Reply(c.issued, Failed("Failed to create database", NotRetrieved))
    case Ok(Some(d)) => Reply(c.issued, Saved(StateOf(d)))
  }

  /** The lookup a Read settles on: by id when the stored id parses and
      finds a database, otherwise by name; a failed query stops there. */
  function Lookup(e: Engine, state: State): (r: Result<Option<Database>>)
    ensures var id := Decimal.Atoi(state.id);
            id.Some? && Databases.GetDatabaseByID(e, id.value).Err? ==> r == Databases.GetDatabaseByID(e, id.value)
    ensures var id := Decimal.Atoi(state.id);
            id.Some? && Databases.GetDatabaseByID(e, id.value).Ok? && Databases.GetDatabaseByID(e, id.value).value.Some? ==>
              r == Databases.GetDatabaseByID(e, id.value)
    ensures var id := Decimal.Atoi(state.id);
            id.None? || Databases.GetDatabaseByID(e, id.value) == Ok(None) ==> r == Databases.GetDatabase(e, state.name)
  {
    var byId := match Decimal.Atoi(state.id)
                case None => Ok(None)
                case Some(id) => Databases.GetDatabaseByID(e, id);
    if byId.Err? then byId
    else if byId.value.Some? then byId
    else Databases.GetDatabase(e, state.name)
  }

  /** Read: find the database (by id, then by name), remove the resource
      when neither finds it, otherwise store its current id and name. */
  function Read(e: Engine, state: State): (o: Reply<State>)
    ensures o.issued == []
    ensures o.response.Removed? <==> Lookup(e, state) == Ok(None)
    ensures Lookup(e, state).Err? ==> o.response == Failed("Failed to read database", Lookup(e, state).msg)
    ensures o.response.Saved? ==>
              Lookup(e, state).Ok? && Lookup(e, state).value.Some?
              && o.response.state == StateOf(Lookup(e, state).value.value)
  {
    match Lookup(e, state)
    case Err(m) => Reply([], Failed("Failed to read database", m))
    case Ok(None) => Reply([], Removed)
    case Ok(Some(d)) => Reply([], Saved(StateOf(d)))
  }

  /** A database dropped and re-created under the same name gets a new id;
      Read finds it by name and stores the new id. */
  lemma ReadFollowsRecreate(e: Engine, state: State, d: Database)
    requires Decimal.Atoi(state.id).Some? ==> Databases.GetDatabaseByID(e, Decimal.Atoi(state.id).value) == Ok(None)
    requires Databases.GetDatabase(e, state.name) == Ok(Some(d))
    ensures Read(e, state) == Reply([], Saved(State(Decimal.Itoa(d.id), state.name)))
  {
  }

  /** No two databases share an id, as in `sys.databases`. */
  predicate UniqueIds(c: Catalog) {
    forall i, j :: 0 <= i < |c.databases| && 0 <= j < |c.databases| && c.databases[i].id == c.databases[j].id ==>
      c.databases[i] == c.databases[j]
  }

  lemma FoundById(e: Engine, d: Database)
    requires UniqueIds(e.catalog) && DatabaseById(d.id) !in e.queryErrors
    requires d in e.catalog.databases
    ensures Databases.GetDatabaseByID(e, d.id) == Ok(Some(d))
  {
    var r := Databases.GetDatabaseByID(e, d.id);
    var i :| 0 <= i < |e.catalog.databases| && e.catalog.databases[i] == d;
    assert r != Ok(None);
    var j :| 0 <= j < |e.catalog.databases| && e.catalog.databases[j] == r.value.value;
  }

  /** Reading a freshly read state changes nothing. */
  lemma ReadIsStable(e: Engine, state: State)
    requires UniqueIds(e.catalog) && e.queryErrors == map[]
    requires Read(e, state).response.Saved?
    ensures Read(e, Read(e, state).response.state) == Read(e, state)
  {
    var d := Lookup(e, state).value.value;
    Decimal.AtoiItoa(d.id);
    FoundById(e, d);
    assert Lookup(e, StateOf(d)) == Ok(Some(d));
  }

  /** Update: every change replaces the database, so an Update is always
      refused and touches nothing. */
  function Update(e: Engine, plan: State, state: State): (o: Reply<State>)
    ensures o.issued == [] && o.response.Failed?
    ensures o.response.summary == "Update Not Supported"
  {
    Reply([], Failed("Update Not Supported",
                     "Database resources do not support updates. Changes to the name require replacement."))
  }

  /** Delete: single-user mode, then DROP DATABASE; only the drop's failure
      is reported. */
  function Delete(e: Engine, state: State): (o: Reply<()>)
    ensures o.issued == [Command(Server, Sql.SetSingleUser(state.name)), Command(Server, Sql.DropDatabase(state.name))]
    ensures o.response.Saved? <==> Command(Server, Sql.DropDatabase(state.name)) !in e.execErrors
    ensures o.response.Failed? ==> o.response.summary == "Failed to delete database"
  {
    var d := Databases.DropDatabase(e, state.name);
    if d.result.Err? then Reply(d.issued, Failed("Failed to delete database", d.result.msg))
    else Reply(d.issued, Saved(()))
  }

  /** Import by database name. */
  function Import(e: Engine, name: string): (o: Reply<State>)
    ensures o.issued == []
    ensures o.response.Saved? <==> Databases.GetDatabase(e, name).Ok? && Databases.GetDatabase(e, name).value.Some?
    ensures o.response.Saved? ==> o.response.state == StateOf(Databases.GetDatabase(e, name).value.value)
                                  && o.response.state.name == name
    ensures Databases.GetDatabase(e, name) == Ok(None) ==>
              o.response == Failed("Database not found", "Database '" + name + "' not found")
    ensures !o.response.Removed?
  {
    match Databases.GetDatabase(e, name)
    case Err(m) => Reply([], Failed("Failed to import database", m))
    case Ok(None) => Reply([], Failed("Database not found", "Database '" + name + "' not found"))
    case Ok(Some(d)) => Reply([], Saved(StateOf(d)))
  }

  /** Create and Import store the same state for the same database. */
  lemma CreateMatchesImport(e: Engine, plan: State)
    requires Create(e, plan).response.Saved?
    ensures Import(e, plan.name) == Reply([], Create(e, plan).response)
  {
  }

  /** A Read right after an Import keeps the imported state. */
  lemma ImportThenRead(e: Engine, name: string)
    requires UniqueIds(e.catalog) && e.queryErrors == map[]
    requires Import(e, name).response.Saved?
    ensures Read(e, Import(e, name).response.state) == Import(e, name)
  {
    var d := Databases.GetDatabase(e, name).value.value;
    Decimal.AtoiItoa(d.id);
    FoundById(e, d);
    assert Lookup(e, StateOf(d)) == Ok(Some(d));
  }
}
