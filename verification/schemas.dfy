/** Schemas: every operation first sends `USE [db]` on the shared pool,
    whose failure is returned as it is, then works in that database.  The
    members below keep the statement on the session the USE switched; the
    pooled behaviour, where it may run elsewhere, is `GetSchemaPooled` and
    `Engine.PooledUseThenDo`. */
module Schemas {
  import opened Wrappers
  import opened Catalog
  import opened Engine
  import Sql
  import Text

  /** `mssql.Schema`. */
  datatype Schema = Schema(schemaId: int, name: string, ownerName: string, databaseId: int)

  function SchemaOf(s: SchemaRow, databaseId: int): Schema {
    Schema(s.schemaId, s.name, s.ownerName, databaseId)
  }

  /** `GetSchema` as written: `USE [db]` on the shared pool, then the query
      on whichever pooled session comes next, which is in database `landed`.
      The rows and the `DB_ID()` it reports are those of `landed`. */
  function GetSchemaPooled(e: Engine, db: string, landed: string, name: string): (r: Result<Option<Schema>>)
    requires landed in e.catalog.dbs
    ensures db !in e.catalog.dbs ==> r == Err(NoSuchDatabase(db))
    ensures db in e.catalog.dbs ==>
              (r == Ok(None) <==>
                 SchemaByName(landed, name) !in e.queryErrors
                 && forall i :: 0 <= i < |e.catalog.dbs[landed].schemas| ==> e.catalog.dbs[landed].schemas[i].name != name)
    ensures r.Ok? && r.value.Some? ==>
              r.value.value.name == name && r.value.value.databaseId == e.catalog.dbs[landed].id
  {
    match Switch(e, db)
    case Some(m) => Err(m)
    case None =>
      match Read(e, SchemaByName(landed, name), e.catalog.dbs[landed].schemas, (s: SchemaRow) => s.name == name, "schema")
      case Err(m) => Err(m)
      case Ok(None) => Ok(None)
      case Ok(Some(s)) => Ok(Some(SchemaOf(s, e.catalog.dbs[landed].id)))
  }

  /** `GetSchema` with the USE and the query on one session: the schema of
      this name in `db`, `None` when absent, reporting `db`'s id. */
  function GetSchema(e: Engine, db: string, name: string): (r: Result<Option<Schema>>)
    ensures db !in e.catalog.dbs ==> r == Err(NoSuchDatabase(db))
    ensures db in e.catalog.dbs ==>
              (r == Ok(None) <==>
                 SchemaByName(db, name) !in e.queryErrors
                 && forall i :: 0 <= i < |e.catalog.dbs[db].schemas| ==> e.catalog.dbs[db].schemas[i].name != name)
    ensures r.Ok? && r.value.Some? ==>
              db in e.catalog.dbs && r.value.value.name == name && r.value.value.databaseId == e.catalog.dbs[db].id
  {
    match Switch(e, db)
    case Some(m) => Err(m)
    case None =>
      match Read(e, SchemaByName(db, name), e.catalog.dbs[db].schemas, (s: SchemaRow) => s.name == name, "schema")
      case Err(m) => Err(m)
      case Ok(None) => Ok(None)
      case Ok(Some(s)) => Ok(Some(SchemaOf(s, e.catalog.dbs[db].id)))
  }

  /** The pinned read is the pooled one in the case where the query lands in
      the database the USE named. */
  lemma GetSchemaPinned(e: Engine, db: string, name: string)
    requires db in e.catalog.dbs
    ensures GetSchemaPooled(e, db, db, name) == GetSchema(e, db, name)
  {
  }

  /** `dbo` exists in every database, so a pooled read of `app`'s `dbo` that
      lands on a session still in `master` finds `master`'s schema and
      reports `master`'s id, where the pinned read reports `app`'s. */
  lemma PooledReadReportsOtherDatabase()
    ensures var dbo := SchemaRow(1, "dbo", 1, "dbo");
            var e := Engine(Catalog([], [], [], [], [], map["app" := DbCatalog(5, [], [], [], [dbo], []),
                                                           "master" := DbCatalog(1, [], [], [], [dbo], [])]),
                            map[], map[], map[]);
            GetSchemaPooled(e, "app", "master", "dbo") == Ok(Some(Schema(1, "dbo", "dbo", 1)))
            && GetSchema(e, "app", "dbo") == Ok(Some(Schema(1, "dbo", "dbo", 5)))
  {
  }

  /** `GetSchemaByID`, with the USE and the query on one session: the schema
      with this id in `db`. */
  function GetSchemaByID(e: Engine, db: string, id: int): (r: Result<Option<Schema>>)
    ensures db !in e.catalog.dbs ==> r == Err(NoSuchDatabase(db))
    ensures db in e.catalog.dbs ==>
              (r == Ok(None) <==>
                 SchemaById(db, id) !in e.queryErrors
                 && forall i :: 0 <= i < |e.catalog.dbs[db].schemas| ==> e.catalog.dbs[db].schemas[i].schemaId != id)
    ensures r.Ok? && r.value.Some? ==>
              db in e.catalog.dbs && r.value.value.schemaId == id && r.value.value.databaseId == e.catalog.dbs[db].id
  {
    match Switch(e, db)
    case Some(m) => Err(m)
    case None =>
      match Read(e, SchemaById(db, id), e.catalog.dbs[db].schemas, (s: SchemaRow) => s.schemaId == id, "schema")
      case Err(m) => Err(m)
      case Ok(None) => Ok(None)
      case Ok(Some(s)) => Ok(Some(SchemaOf(s, e.catalog.dbs[db].id)))
  }

  datatype CreateSchemaOptions = CreateSchemaOptions(database: string, schemaName: string, ownerName: string)

  /** `CreateSchema`: USE, create, then return the re-read as it is. */
  function CreateSchema(e: Engine, opts: CreateSchemaOptions): (o: Outcome<Option<Schema>>)
    ensures opts.database !in e.catalog.dbs ==>
              o == Outcome([UseCommand(opts.database)], Err(NoSuchDatabase(opts.database)))
    ensures opts.database in e.catalog.dbs ==>
              o.issued == [UseCommand(opts.database),
                           Command(InDatabase(opts.database), Sql.CreateSchema(opts.schemaName, opts.ownerName))]
    ensures o.result.Ok? ==>
              Command(InDatabase(opts.database), Sql.CreateSchema(opts.schemaName, opts.ownerName)) !in e.execErrors
              && o.result == GetSchema(e, opts.database, opts.schemaName)
  {
    var run := UseThenDo(e, opts.database, Sql.CreateSchema(opts.schemaName, opts.ownerName), "failed to create schema");
    if run.result.Err? then Outcome(run.issued, Err(run.result.msg))
    else Outcome(run.issued, GetSchema(e, opts.database, opts.schemaName))
  }

  /** CREATE SCHEMA ends in an AUTHORIZATION clause exactly when an owner
      is given; the only other statement issued is the USE. */
  lemma CreateSchemaOwner(e: Engine, opts: CreateSchemaOptions)
    requires '[' !in opts.schemaName
    ensures forall c :: c in CreateSchema(e, opts).issued && c != UseCommand(opts.database) ==>
              (Text.HasSuffix(Sql.Render(c.stmt), " AUTHORIZATION " + Sql.Bracket(opts.ownerName)) <==> opts.ownerName != "")
  {
    Sql.OwnerClause(Sql.CreateSchema(opts.schemaName, opts.ownerName));
  }

  datatype UpdateSchemaOptions = UpdateSchemaOptions(database: string, schemaName: string, newOwnerName: Option<string>)

  /** `UpdateSchema`: USE, change the owner only when a new one is given,
      then re-read. */
  function UpdateSchema(e: Engine, opts: UpdateSchemaOptions): (o: Outcome<Option<Schema>>)
    ensures opts.database !in e.catalog.dbs ==>
              o == Outcome([UseCommand(opts.database)], Err(NoSuchDatabase(opts.database)))
    ensures opts.newOwnerName.None? ==> o.issued == [UseCommand(opts.database)]
    ensures opts.newOwnerName.Some? && opts.database in e.catalog.dbs ==>
              o.issued == [UseCommand(opts.database),
                           Command(InDatabase(opts.database), Sql.AlterSchemaOwner(opts.schemaName, opts.newOwnerName.value))]
    ensures o.result.Ok? ==> o.result == GetSchema(e, opts.database, opts.schemaName)
    ensures opts.newOwnerName.Some? && opts.database in e.catalog.dbs
            && Command(InDatabase(opts.database), Sql.AlterSchemaOwner(opts.schemaName, opts.newOwnerName.value)) in e.execErrors
            ==> o.result == Err("failed to update schema owner: "
                                + e.execErrors[Command(InDatabase(opts.database),
                                                       Sql.AlterSchemaOwner(opts.schemaName, opts.newOwnerName.value))])
  {
    if opts.newOwnerName.None? then Outcome([UseCommand(opts.database)], GetSchema(e, opts.database, opts.schemaName))
    else
      var run := UseThenDo(e, opts.database, Sql.AlterSchemaOwner(opts.schemaName, opts.newOwnerName.value),
                           "failed to update schema owner");
      if run.result.Err? then Outcome(run.issued, Err(run.result.msg))
      else Outcome(run.issued, GetSchema(e, opts.database, opts.schemaName))
  }

  /** `DropSchema`: `DROP SCHEMA IF EXISTS` after USE. */
  function DropSchema(e: Engine, db: string, name: string): (o: Outcome<()>)
    ensures o.issued <= [UseCommand(db), Command(InDatabase(db), Sql.DropSchema(name))]
    ensures |o.issued| >= 1
    ensures o.result.Ok? <==> db in e.catalog.dbs && Command(InDatabase(db), Sql.DropSchema(name)) !in e.execErrors
    ensures db !in e.catalog.dbs ==> o.result == Err(NoSuchDatabase(db))
  {
    UseThenDo(e, db, Sql.DropSchema(name), "failed to drop schema")
  }
}
