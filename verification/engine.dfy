/** The transport between the provider and the server, reduced to what the
    provider can observe: a statement either runs or fails with the engine's
    text, and a single-row read either fails, finds no row, or returns the
    first matching row of the catalog.

    Which statements and reads fail is a parameter of the model (`execErrors`,
    `queryErrors`, `connectErrors`); statements do not change the catalog here,
    so a read always observes the catalog the operation started from.  Every
    operation returns the statements it issued, in order, with its result.
 */
module Engine {
  import opened Wrappers
  import opened Catalog
  import Sql

  /** The connection a statement runs on: the shared pool (server scope), or
      a connection switched to one database. */
  datatype Context = Server | InDatabase(database: string)

  datatype Command = Command(context: Context, stmt: Sql.Stmt)

  /** The single-row reads the provider makes; only their identity matters. */
  datatype Query =
    | LoginByName(name: string)
    | LoginById(id: int)
    | DatabaseByName(name: string)
    | DatabaseById(id: int)
    | UserByName(database: string, name: string)
    | UserById(database: string, id: int)
    | RoleByName(database: string, name: string)
    | RoleById(database: string, id: int)
    | RoleMember(database: string, role: string, member: string)
    | ServerRoleByName(name: string)
    | ServerRoleById(id: int)
    | ServerRoleMember(role: string, member: string)
    | SchemaByName(database: string, name: string)
    | SchemaById(database: string, id: int)
    | DatabasePermission(database: string, principal: string, permission: string)
    | SchemaPermission(database: string, schema: string, principal: string, permission: string)
    | SchemaOwner(database: string, schema: string, principal: string)
    | ServerPermission(principal: string, permission: string)

  datatype Engine = Engine(
    catalog: Catalog,
    execErrors: map<Command, string>,
    queryErrors: map<Query, string>,
    connectErrors: map<string, string>)

  /** What an operation did: the statements it issued, then its result. */
  datatype Outcome<T> = Outcome(issued: seq<Command>, result: Result<T>)

  /** The driver's error for a database that is not there: server error
      911, which the go-mssqldb driver prefixes with `mssql: `. */
  function NoSuchDatabase(db: string): string {
    "mssql: Database '" + db + "' does not exist. Make sure that the name is entered correctly."
  }

  /** `USE [db]`: fails exactly when the database does not exist. */
  function Switch(e: Engine, db: string): (err: Option<string>)
    ensures err.None? <==> db in e.catalog.dbs
  {
    if db in e.catalog.dbs then None else Some(NoSuchDatabase(db))
  }

  /** A direct connection to one database (Azure SQL): fails when the
      database is missing or the connection itself is refused. */
  function Connect(e: Engine, db: string): (err: Option<string>)
    ensures err.None? <==> db in e.catalog.dbs && db !in e.connectErrors
  {
    if db in e.connectErrors then Some(e.connectErrors[db])
    else if db !in e.catalog.dbs then Some(NoSuchDatabase(db))
    else None
  }

  /** `fmt.Errorf(wrap + ": %w", err)`, or the bare error when there is no wrap. */
  function Wrapped(wrap: string, msg: string): string {
    if wrap == "" then msg else wrap + ": " + msg
  }

  /** One `ExecContext` on the shared connection: the command is issued, and
      its error, if any, is wrapped. */
  function Do(e: Engine, c: Command, wrap: string): (o: Outcome<()>)
    ensures o.issued == [c]
    ensures o.result.Ok? <==> c !in e.execErrors
    ensures o.result.Err? ==> o.result.msg == Wrapped(wrap, e.execErrors[c])
  {
    if c in e.execErrors then Outcome([c], Err(Wrapped(wrap, e.execErrors[c])))
    else Outcome([c], Ok(()))
  }

  /** `ExecInDatabaseContext`: switch a dedicated connection to `db`, then run
      the statement there.  A failed switch issues nothing. */
  function DoIn(e: Engine, db: string, stmt: Sql.Stmt, wrap: string): (o: Outcome<()>)
    ensures db !in e.catalog.dbs ==> o.issued == []
    ensures db in e.catalog.dbs ==> o.issued == [Command(InDatabase(db), stmt)]
    ensures o.result.Ok? <==> db in e.catalog.dbs && Command(InDatabase(db), stmt) !in e.execErrors
    ensures db !in e.catalog.dbs ==>
              o.result == Err(Wrapped(wrap, "failed to switch database context: " + NoSuchDatabase(db)))
    ensures db in e.catalog.dbs && Command(InDatabase(db), stmt) in e.execErrors ==>
              o.result == Err(Wrapped(wrap, e.execErrors[Command(InDatabase(db), stmt)]))
  {
    match Switch(e, db)
    case Some(m) => Outcome([], Err(Wrapped(wrap, "failed to switch database context: " + m)))
    case None => Do(e, Command(InDatabase(db), stmt), wrap)
  }

  /** `USE [db]` sent as a statement of its own on the shared pool. */
  function UseCommand(db: string): Command {
    Command(Server, Sql.Use(db))
  }

  /** `UseDatabase` then `ExecContext`, both on the shared pool.  The USE
      runs on one pooled session and the statement on whichever session the
      pool hands out next; `landed` is the database that session is in.  A
      failed USE is returned unwrapped and stops the statement. */
  function PooledUseThenDo(e: Engine, db: string, landed: string, stmt: Sql.Stmt, wrap: string): (o: Outcome<()>)
    ensures db !in e.catalog.dbs ==> o == Outcome([UseCommand(db)], Err(NoSuchDatabase(db)))
    ensures db in e.catalog.dbs ==> o.issued == [UseCommand(db), Command(InDatabase(landed), stmt)]
    ensures o.result.Ok? <==> db in e.catalog.dbs && Command(InDatabase(landed), stmt) !in e.execErrors
    ensures db in e.catalog.dbs && o.result.Err? ==>
              o.result.msg == Wrapped(wrap, e.execErrors[Command(InDatabase(landed), stmt)])
  {
    match Switch(e, db)
    case Some(m) => Outcome([UseCommand(db)], Err(m))
    case None =>
      var run := Do(e, Command(InDatabase(landed), stmt), wrap);
      Outcome([UseCommand(db)] + run.issued, run.result)
  }

  /** When the pool hands the statement a session in another database, the
      statement runs there and never in the database the USE named. */
  lemma PooledLandsElsewhere(e: Engine, db: string, landed: string, stmt: Sql.Stmt, wrap: string)
    requires db in e.catalog.dbs && landed != db
    ensures Command(InDatabase(db), stmt) !in PooledUseThenDo(e, db, landed, stmt, wrap).issued
    ensures Command(InDatabase(landed), stmt) in PooledUseThenDo(e, db, landed, stmt, wrap).issued
  {
  }

  /** USE and the statement on one session, as the comments on
      `ExecInDatabaseContext` say is needed for the switch to hold: the pooled
      sequence in the case where the statement lands in `db`.  It succeeds
      and fails as `DoIn` does; only a failed USE keeps the pooled, unwrapped
      error. */
  function UseThenDo(e: Engine, db: string, stmt: Sql.Stmt, wrap: string): (o: Outcome<()>)
    ensures db !in e.catalog.dbs ==> o == Outcome([UseCommand(db)], Err(NoSuchDatabase(db)))
    ensures db in e.catalog.dbs ==>
              o.issued == [UseCommand(db)] + DoIn(e, db, stmt, wrap).issued
              && o.result == DoIn(e, db, stmt, wrap).result
  {
    PooledUseThenDo(e, db, db, stmt, wrap)
  }

  /** A single-row read: a failing query is wrapped as `failed to get <what>`,
      "no rows" is `None`, otherwise the first matching row. */
  function Read<T>(e: Engine, q: Query, rows: seq<T>, p: T -> bool, what: string): (r: Result<Option<T>>)
    ensures q in e.queryErrors ==> r == Err("failed to get " + what + ": " + e.queryErrors[q])
    ensures r == Ok(None) <==> q !in e.queryErrors && forall i :: 0 <= i < |rows| ==> !p(rows[i])
    ensures r.Ok? && r.value.Some? ==> r.value.value in rows && p(r.value.value)
  {
    if q in e.queryErrors then Err("failed to get " + what + ": " + e.queryErrors[q])
    else Ok(First(rows, p))
  }

  /** `QueryRowInDatabaseContext` followed by the scan: a failed switch comes
      back unwrapped, before the query runs. */
  function ReadIn<T>(e: Engine, db: string, q: Query, table: DbCatalog -> seq<T>, p: T -> bool, what: string)
    : (r: Result<Option<T>>)
    ensures db !in e.catalog.dbs ==> r == Err("failed to switch database context: " + NoSuchDatabase(db))
    ensures db in e.catalog.dbs ==> r == Read(e, q, table(e.catalog.dbs[db]), p, what)
  {
    match Switch(e, db)
    case Some(m) => Err("failed to switch database context: " + m)
    case None => Read(e, q, table(e.catalog.dbs[db]), p, what)
  }

  /** One statement of a sequence, with the connection it runs on and the
      context its error is wrapped in. */
  datatype Step = Step(context: Context, stmt: Sql.Stmt, wrap: string)

  function StepCommand(s: Step): Command {
    Command(s.context, s.stmt)
  }

  function Commands(steps: seq<Step>): (cs: seq<Command>)
    ensures |cs| == |steps|
    ensures forall i :: 0 <= i < |steps| ==> cs[i] == StepCommand(steps[i])
  {
    if |steps| == 0 then [] else [StepCommand(steps[0])] + Commands(steps[1..])
  }

  /** The step runs: its database exists and the engine accepts the statement. */
  predicate Succeeds(e: Engine, s: Step) {
    (s.context.InDatabase? ==> s.context.database in e.catalog.dbs)
    && StepCommand(s) !in e.execErrors
  }

  /** A server step is one `ExecContext`; a database step goes through
      `ExecInDatabaseContext`. */
  function RunStep(e: Engine, s: Step): (o: Outcome<()>)
    ensures o.result.Ok? <==> Succeeds(e, s)
    ensures o.result.Ok? ==> o.issued == [StepCommand(s)]
    ensures o.issued == [] || o.issued == [StepCommand(s)]
  {
    match s.context
    case Server => Do(e, StepCommand(s), s.wrap)
    case InDatabase(db) => DoIn(e, db, s.stmt, s.wrap)
  }

  /** Index of the first step that fails, `|steps|` when all succeed. */
  function FailIndex(e: Engine, steps: seq<Step>): (k: nat)
    ensures k <= |steps|
    ensures forall i :: 0 <= i < k ==> Succeeds(e, steps[i])
    ensures k < |steps| ==> !Succeeds(e, steps[k])
  {
    FirstIndex(steps, s => !Succeeds(e, s))
  }

  /** Run the steps in order; the first failure stops the rest and is
      returned as it is. */
  function RunAll(e: Engine, steps: seq<Step>): (o: Outcome<()>)
    ensures o.result.Ok? <==> forall i :: 0 <= i < |steps| ==> Succeeds(e, steps[i])
    ensures o.result.Ok? ==> o.issued == Commands(steps)
  {
    if |steps| == 0 then Outcome([], Ok(()))
    else
      var first := RunStep(e, steps[0]);
      if first.result.Err? then first
      else
        var rest := RunAll(e, steps[1..]);
        AllPastFirst(e, steps);
        CommandsCons(steps);
        Outcome(first.issued + rest.issued, rest.result)
  }

  /** A failed run issued the commands of every step before the first
      failing one, then whatever that step issued, and returns its error. */
  lemma {:induction false} RunAllFailure(e: Engine, steps: seq<Step>)
    requires RunAll(e, steps).result.Err?
    ensures var k := FailIndex(e, steps);
            k < |steps|
            && RunAll(e, steps).issued == Commands(steps[..k]) + RunStep(e, steps[k]).issued
            && RunAll(e, steps).result == RunStep(e, steps[k]).result
  {
    if !Succeeds(e, steps[0]) {
      FailFirst(e, steps);
    } else {
      var rest := RunAll(e, steps[1..]);
      assert RunAll(e, steps) == Outcome([StepCommand(steps[0])] + rest.issued, rest.result);
      RunAllFailure(e, steps[1..]);
      FailPastFirst(e, steps);
      var k := FailIndex(e, steps[1..]);
      Associate([StepCommand(steps[0])], Commands(steps[1..][..k]), RunStep(e, steps[1..][k]).issued);
    }
  }

  lemma Associate(a: seq<Command>, b: seq<Command>, c: seq<Command>)
    ensures a + (b + c) == (a + b) + c
  {
  }

  lemma FailFirst(e: Engine, steps: seq<Step>)
    requires |steps| > 0 && !Succeeds(e, steps[0])
    ensures FailIndex(e, steps) == 0
    ensures Commands(steps[..0]) == []
  {
    assert steps[..0] == [];
  }

  /** Once the first step succeeds, success of all the steps is success
      of the rest. */
  lemma AllPastFirst(e: Engine, steps: seq<Step>)
    requires |steps| > 0 && Succeeds(e, steps[0])
    ensures (forall i :: 0 <= i < |steps| ==> Succeeds(e, steps[i]))
            <==> (forall i :: 0 <= i < |steps[1..]| ==> Succeeds(e, steps[1..][i]))
  {
    assert forall i :: 0 < i < |steps| ==> steps[i] == steps[1..][i - 1];
  }

  lemma CommandsCons(steps: seq<Step>)
    requires |steps| > 0
    ensures Commands(steps) == [StepCommand(steps[0])] + Commands(steps[1..])
  {
  }

  /** Once the first step succeeds, the first failure and the commands up to
      it are those of the rest, shifted by one. */
  lemma FailPastFirst(e: Engine, steps: seq<Step>)
    requires |steps| > 0 && Succeeds(e, steps[0])
    ensures FailIndex(e, steps) == 1 + FailIndex(e, steps[1..])
    ensures FailIndex(e, steps[1..]) < |steps[1..]| ==>
              steps[FailIndex(e, steps)] == steps[1..][FailIndex(e, steps[1..])]
              && Commands(steps[..FailIndex(e, steps)])
                 == [StepCommand(steps[0])] + Commands(steps[1..][..FailIndex(e, steps[1..])])
  {
    var k := FailIndex(e, steps[1..]);
    assert FailIndex(e, steps) == 1 + k;
    if k < |steps[1..]| {
      assert steps[..1 + k][1..] == steps[1..][..k];
      CommandsCons(steps[..1 + k]);
    }
  }

  /** The commands of a shorter prefix of the steps are a prefix of the
      commands of a longer one. */
  lemma CommandsPrefix(steps: seq<Step>, f: nat, n: nat)
    requires f < n <= |steps|
    ensures Commands(steps[..f]) == Commands(steps[..n])[..f]
    ensures Commands(steps[..n])[f] == StepCommand(steps[f])
  {
    var pre := Commands(steps[..f]);
    var cs := Commands(steps[..n]);
    forall i | 0 <= i < f ensures pre[i] == cs[i] {
      assert steps[..f][i] == steps[..n][i];
    }
    assert steps[..n][f] == steps[f];
  }

  /** Whatever step fails, nothing after it is issued: the issued commands
      are a prefix of the commands up to and including that step. */
  lemma RunAllStopsAt(e: Engine, steps: seq<Step>, k: nat)
    requires k < |steps| && !Succeeds(e, steps[k])
    ensures RunAll(e, steps).result.Err?
    ensures RunAll(e, steps).issued <= Commands(steps[..k + 1])
  {
    RunAllFailure(e, steps);
    var f := FailIndex(e, steps);
    assert f <= k;
    CommandsPrefix(steps, f, k + 1);
    IssuedWithin(Commands(steps[..k + 1]), f, RunStep(e, steps[f]).issued);
  }

  lemma IssuedWithin(cs: seq<Command>, f: nat, last: seq<Command>)
    requires f < |cs| && (last == [] || last == [cs[f]])
    ensures cs[..f] + last <= cs
  {
    if last != [] {
      assert cs[..f] + last == cs[..f + 1];
    }
  }

  /** Whatever fails, the issued commands are a prefix of all the commands. */
  lemma {:induction false} RunAllWithin(e: Engine, steps: seq<Step>)
    ensures RunAll(e, steps).issued <= Commands(steps)
  {
    if |steps| > 0 {
      var cs := Commands(steps);
      assert cs == [StepCommand(steps[0])] + Commands(steps[1..]);
      if RunStep(e, steps[0]).result.Ok? {
        RunAllWithin(e, steps[1..]);
      }
    }
  }
}
