/** Databases: lookups by name and id, CREATE DATABASE and the best-effort
    drop sequence. */
module Databases {
  import opened Wrappers
  import opened Catalog
  import opened Engine
  import Sql

  /** `GetDatabase`: the database of this name, `None` when absent. */
  function GetDatabase(e: Engine, name: string): (r: Result<Option<Database>>)
    ensures r.Err? <==> DatabaseByName(name) in e.queryErrors
    ensures r == Ok(None) <==>
              DatabaseByName(name) !in e.queryErrors
              && forall i :: 0 <= i < |e.catalog.databases| ==> e.catalog.databases[i].name != name
    ensures r.Ok? && r.value.Some? ==> r.value.value in e.catalog.databases && r.value.value.name == name
  {
    Read(e, DatabaseByName(name), e.catalog.databases, (d: Database) => d.name == name, "database")
  }

  /** `GetDatabaseByID`: the database with this id, `None` when absent. */
  function GetDatabaseByID(e: Engine, id: int): (r: Result<Option<Database>>)
    ensures r.Err? <==> DatabaseById(id) in e.queryErrors
    ensures r == Ok(None) <==>
              DatabaseById(id) !in e.queryErrors
              && forall i :: 0 <= i < |e.catalog.databases| ==> e.catalog.databases[i].id != id
    ensures r.Ok? && r.value.Some? ==> r.value.value in e.catalog.databases && r.value.value.id == id
  {
    Read(e, DatabaseById(id), e.catalog.databases, (d: Database) => d.id == id, "database")
  }

  /** `CreateDatabase`: create, then return the by-name re-read as it is;
      an empty re-read is not turned into an error here. */
  function CreateDatabase(e: Engine, name: string): (o: Outcome<Option<Database>>)
    ensures o.issued == [Command(Server, Sql.CreateDatabase(name))]
    ensures Command(Server, Sql.CreateDatabase(name)) in e.execErrors ==>
              o.result == Err("failed to create database: " + e.execErrors[Command(Server, Sql.CreateDatabase(name))])
    ensures Command(Server, Sql.CreateDatabase(name)) !in e.execErrors ==> o.result == GetDatabase(e, name)
  {
    var run := Do(e, Command(Server, Sql.CreateDatabase(name)), "failed to create database");
    if run.result.Err? then Outcome(run.issued, Err(run.result.msg))
    else Outcome(run.issued, GetDatabase(e, name))
  }

  /** `DropDatabase`: force single-user mode, ignoring any failure, then
      always attempt the drop and report its error only. */
  function DropDatabase(e: Engine, name: string): (o: Outcome<()>)
    ensures o.issued == [Command(Server, Sql.SetSingleUser(name)), Command(Server, Sql.DropDatabase(name))]
    ensures o.result.Ok? <==> Command(Server, Sql.DropDatabase(name)) !in e.execErrors
    ensures o.result.Err? ==>
              o.result.msg == "failed to drop database: " + e.execErrors[Command(Server, Sql.DropDatabase(name))]
  {
    var single := Do(e, Command(Server, Sql.SetSingleUser(name)), "");
    var drop := Do(e, Command(Server, Sql.DropDatabase(name)), "failed to drop database");
    Outcome(single.issued + drop.issued, drop.result)
  }

  /** Whether SET SINGLE_USER fails makes no difference to the drop. */
  lemma SingleUserIsBestEffort(e: Engine, name: string, msg: string)
    ensures var c := Command(Server, Sql.SetSingleUser(name));
            DropDatabase(e.(execErrors := e.execErrors[c := msg]), name)
            == DropDatabase(e.(execErrors := e.execErrors - {c}), name)
  {
    var c := Command(Server, Sql.SetSingleUser(name));
    var d := Command(Server, Sql.DropDatabase(name));
    assert c != d;
    assert d in e.execErrors[c := msg] <==> d in e.execErrors - {c};
  }
}
