/** SQL logins: lookups, `CREATE LOGIN`, the `ALTER LOGIN` sequence of an
    update, and `DROP LOGIN`.  All of them run at server scope. */
module Logins {
  import opened Wrappers
  import opened Catalog
  import opened Engine
  import Sql
  import Text

  /** `GetSQLLogin`: the login with this name, `None` when there is none. */
  function GetSQLLogin(e: Engine, name: string): (r: Result<Option<SqlLogin>>)
    ensures r.Err? <==> LoginByName(name) in e.queryErrors
    ensures r == Ok(None) <==>
              LoginByName(name) !in e.queryErrors
              && forall i :: 0 <= i < |e.catalog.logins| ==> e.catalog.logins[i].name != name
    ensures r.Ok? && r.value.Some? ==> r.value.value in e.catalog.logins && r.value.value.name == name
  {
    Read(e, LoginByName(name), e.catalog.logins, (l: SqlLogin) => l.name == name, "SQL login")
  }

  /** `GetSQLLoginByID`: the login with this principal id, `None` when there is none. */
  function GetSQLLoginByID(e: Engine, id: int): (r: Result<Option<SqlLogin>>)
    ensures r.Err? <==> LoginById(id) in e.queryErrors
    ensures r == Ok(None) <==>
              LoginById(id) !in e.queryErrors
              && forall i :: 0 <= i < |e.catalog.logins| ==> e.catalog.logins[i].principalId != id
    ensures r.Ok? && r.value.Some? ==> r.value.value in e.catalog.logins && r.value.value.principalId == id
  {
    Read(e, LoginById(id), e.catalog.logins, (l: SqlLogin) => l.principalId == id, "SQL login")
  }

  datatype CreateOptions = CreateOptions(
    name: string,
    password: string,
    defaultDatabase: string,
    defaultLanguage: string,
    checkExpiration: bool,
    checkPolicy: bool)

  /** The CREATE LOGIN statement: an empty default database means `master`. */
  function CreateStmt(opts: CreateOptions): (s: Sql.Stmt)
    ensures s.CreateLogin? && s.name == opts.name && s.password == opts.password
    ensures s.defaultDatabase != ""
    ensures opts.defaultDatabase != "" ==> s.defaultDatabase == opts.defaultDatabase
    ensures opts.defaultDatabase == "" ==> s.defaultDatabase == "master"
    ensures s.language == opts.defaultLanguage
    ensures s.checkExpiration == opts.checkExpiration && s.checkPolicy == opts.checkPolicy
  {
    var db := if opts.defaultDatabase == "" then "master" else opts.defaultDatabase;
    Sql.CreateLogin(opts.name, opts.password, db, opts.checkExpiration, opts.checkPolicy, opts.defaultLanguage)
  }

  /** The text ends in a DEFAULT_LANGUAGE clause when a language is given,
      and in the CHECK_POLICY setting otherwise. */
  lemma LanguageClause(opts: CreateOptions)
    ensures opts.defaultLanguage != "" ==>
              Text.HasSuffix(Sql.Render(CreateStmt(opts)), ", DEFAULT_LANGUAGE = " + Sql.Bracket(opts.defaultLanguage))
    ensures opts.defaultLanguage == "" ==>
              Text.HasSuffix(Sql.Render(CreateStmt(opts)), "CHECK_POLICY = " + Sql.OnOff(opts.checkPolicy))
  {
    var s := CreateStmt(opts);
    var head := Sql.LoginHead(s.name, s.password, s.defaultDatabase, s.checkExpiration);
    var policy := Sql.PolicyClause(s.checkPolicy);
    var lang := Sql.LanguageOption(s.language);
    assert Sql.Render(s) == head + policy + lang;
    if opts.defaultLanguage != "" {
      Text.SuffixOfAppend(head + policy, lang);
    } else {
      assert head + policy + lang == head + policy;
      Text.SuffixOfAppend(head, policy);
    }
  }

  /** `CreateSQLLogin`: create at server scope, then re-read by name; the
      re-read may find nothing, and that is returned as `None`. */
  function CreateSQLLogin(e: Engine, opts: CreateOptions): (o: Outcome<Option<SqlLogin>>)
    ensures o.issued == [Command(Server, CreateStmt(opts))]
    ensures Command(Server, CreateStmt(opts)) in e.execErrors ==>
              o.result == Err("failed to create SQL login: " + e.execErrors[Command(Server, CreateStmt(opts))])
    ensures Command(Server, CreateStmt(opts)) !in e.execErrors ==> o.result == GetSQLLogin(e, opts.name)
  {
    var c := Command(Server, CreateStmt(opts));
    var run := Do(e, c, "failed to create SQL login");
    if run.result.Err? then Outcome(run.issued, Err(run.result.msg))
    else Outcome(run.issued, GetSQLLogin(e, opts.name))
  }

  /** `UpdateSQLLoginOptions`: `None` leaves a setting alone. */
  datatype UpdateOptions = UpdateOptions(
    name: string,
    password: Option<string>,
    defaultDatabase: Option<string>,
    defaultLanguage: Option<string>,
    checkExpiration: Option<bool>,
    checkPolicy: Option<bool>,
    isDisabled: Option<bool>)

  /** Position of a part in the combined statement. */
  function Rank(o: Sql.LoginOption): nat {
    match o
    case DefaultDatabase(_) => 0
    case DefaultLanguage(_) => 1
    case CheckExpiration(_) => 2
    case CheckPolicy(_) => 3
  }

  function DatabasePart(opts: UpdateOptions): seq<Sql.LoginOption> {
    if opts.defaultDatabase.Some? then [Sql.DefaultDatabase(opts.defaultDatabase.value)] else []
  }

  function LanguagePart(opts: UpdateOptions): seq<Sql.LoginOption> {
    if opts.defaultLanguage.Some? then [Sql.DefaultLanguage(opts.defaultLanguage.value)] else []
  }

  function ExpirationPart(opts: UpdateOptions): seq<Sql.LoginOption> {
    if opts.checkExpiration.Some? then [Sql.CheckExpiration(opts.checkExpiration.value)] else []
  }

  function PolicyPart(opts: UpdateOptions): seq<Sql.LoginOption> {
    if opts.checkPolicy.Some? then [Sql.CheckPolicy(opts.checkPolicy.value)] else []
  }

  /** The parts of the combined `ALTER LOGIN ... WITH`, one per set option,
      in the order DEFAULT_DATABASE, DEFAULT_LANGUAGE, CHECK_EXPIRATION,
      CHECK_POLICY. */
  function AlterParts(opts: UpdateOptions): (parts: seq<Sql.LoginOption>)
    ensures forall i, j :: 0 <= i < j < |parts| ==> Rank(parts[i]) < Rank(parts[j])
    ensures |parts| == 0 <==>
              opts.defaultDatabase.None? && opts.defaultLanguage.None?
              && opts.checkExpiration.None? && opts.checkPolicy.None?
  {
    DatabasePart(opts) + (LanguagePart(opts) + (ExpirationPart(opts) + PolicyPart(opts)))
  }

  /** The four settings, read back from a list of parts. */
  datatype Settings = Settings(
    defaultDatabase: Option<string>,
    defaultLanguage: Option<string>,
    checkExpiration: Option<bool>,
    checkPolicy: Option<bool>)

  function SettingsOf(parts: seq<Sql.LoginOption>): Settings {
    if |parts| == 0 then Settings(None, None, None, None)
    else
      var rest := SettingsOf(parts[1..]);
      match parts[0]
      case DefaultDatabase(d) => rest.(defaultDatabase := Some(d))
      case DefaultLanguage(l) => rest.(defaultLanguage := Some(l))
      case CheckExpiration(b) => rest.(checkExpiration := Some(b))
      case CheckPolicy(b) => rest.(checkPolicy := Some(b))
  }

  /** Each set option appears in the combined statement with its value, and
      nothing else does. */
  lemma AlterPartsRoundTrip(opts: UpdateOptions)
    ensures SettingsOf(AlterParts(opts))
         == Settings(opts.defaultDatabase, opts.defaultLanguage, opts.checkExpiration, opts.checkPolicy)
  {
    var d := PolicyPart(opts);
    var cd := ExpirationPart(opts) + d;
    var bcd := LanguagePart(opts) + cd;
    var abcd := DatabasePart(opts) + bcd;
    assert SettingsOf(d) == Settings(None, None, None, opts.checkPolicy);
    if opts.checkExpiration.Some? { assert cd[0] == Sql.CheckExpiration(opts.checkExpiration.value) && cd[1..] == d; }
    assert SettingsOf(cd) == Settings(None, None, opts.checkExpiration, opts.checkPolicy);
    if opts.defaultLanguage.Some? {
      assert bcd[0] == Sql.DefaultLanguage(opts.defaultLanguage.value) && bcd[1..] == cd;
    } else {
      assert bcd == cd;
    }
    assert SettingsOf(bcd) == Settings(None, opts.defaultLanguage, opts.checkExpiration, opts.checkPolicy);
    if opts.defaultDatabase.Some? {
      assert abcd[0] == Sql.DefaultDatabase(opts.defaultDatabase.value) && abcd[1..] == bcd;
    } else {
      assert abcd == bcd;
    }
  }

  function PasswordSteps(opts: UpdateOptions): seq<Step> {
    if opts.password.Some? then
      [Step(Server, Sql.AlterLoginPassword(opts.name, opts.password.value), "failed to update SQL login password")]
    else []
  }

  function OptionSteps(opts: UpdateOptions): seq<Step> {
    var parts := AlterParts(opts);
    if |parts| > 0 then [Step(Server, Sql.AlterLogin(opts.name, parts), "failed to update SQL login")] else []
  }

  function StateSteps(opts: UpdateOptions): seq<Step> {
    if opts.isDisabled.Some? then
      [Step(Server, Sql.AlterLoginState(opts.name, opts.isDisabled.value), "failed to update SQL login disabled state")]
    else []
  }

  /** The statements of an update, in order: password first, then the
      combined options (only when there are any), then ENABLE/DISABLE. */
  function UpdateSteps(opts: UpdateOptions): (steps: seq<Step>)
    ensures forall i :: 0 <= i < |steps| ==> steps[i].context == Server
    ensures opts.password.Some? ==> |steps| > 0 && steps[0].stmt == Sql.AlterLoginPassword(opts.name, opts.password.value)
    ensures opts.isDisabled.Some? ==>
              |steps| > 0 && steps[|steps| - 1].stmt == Sql.AlterLoginState(opts.name, opts.isDisabled.value)
    ensures (exists i :: 0 <= i < |steps| && steps[i].stmt.AlterLogin?) <==> |AlterParts(opts)| > 0
    ensures forall i :: 0 <= i < |steps| && steps[i].stmt.AlterLogin? ==>
              steps[i].stmt == Sql.AlterLogin(opts.name, AlterParts(opts))
    ensures |steps| == (if opts.password.Some? then 1 else 0) + (if |AlterParts(opts)| > 0 then 1 else 0)
                       + (if opts.isDisabled.Some? then 1 else 0)
  {
    var steps := PasswordSteps(opts) + OptionSteps(opts) + StateSteps(opts);
    StepsOnServer(opts);
    CombinedStep(opts);
    steps
  }

  /** Where the steps of an update sit in their concatenation. */
  lemma StepAt(opts: UpdateOptions, i: int)
    requires 0 <= i < |PasswordSteps(opts) + OptionSteps(opts) + StateSteps(opts)|
    ensures var p, o := PasswordSteps(opts), OptionSteps(opts);
            (PasswordSteps(opts) + OptionSteps(opts) + StateSteps(opts))[i]
            == if i < |p| then p[i] else if i < |p| + |o| then o[i - |p|] else StateSteps(opts)[i - |p| - |o|]
  {
  }

  lemma StepsOnServer(opts: UpdateOptions)
    ensures var steps := PasswordSteps(opts) + OptionSteps(opts) + StateSteps(opts);
            forall i :: 0 <= i < |steps| ==> steps[i].context == Server
  {
    var steps := PasswordSteps(opts) + OptionSteps(opts) + StateSteps(opts);
    forall i | 0 <= i < |steps| ensures steps[i].context == Server {
      StepAt(opts, i);
    }
  }

  /** A password statement is issued exactly when a new password is given. */
  lemma PasswordStep(opts: UpdateOptions)
    ensures (exists i :: 0 <= i < |UpdateSteps(opts)| && UpdateSteps(opts)[i].stmt.AlterLoginPassword?)
            <==> opts.password.Some?
  {
    var p := PasswordSteps(opts);
    var steps := UpdateSteps(opts);
    forall i | 0 <= i < |steps| && steps[i].stmt.AlterLoginPassword? ensures opts.password.Some? {
      StepAt(opts, i);
    }
  }

  /** Only the options step is an `ALTER LOGIN ... WITH`, and it is there
      exactly when some option is set. */
  lemma CombinedStep(opts: UpdateOptions)
    ensures var steps := PasswordSteps(opts) + OptionSteps(opts) + StateSteps(opts);
            && ((exists i :: 0 <= i < |steps| && steps[i].stmt.AlterLogin?) <==> |AlterParts(opts)| > 0)
            && (forall i :: 0 <= i < |steps| && steps[i].stmt.AlterLogin? ==>
                  steps[i].stmt == Sql.AlterLogin(opts.name, AlterParts(opts)))
  {
    var p := PasswordSteps(opts);
    var steps := p + OptionSteps(opts) + StateSteps(opts);
    forall i | 0 <= i < |steps| && steps[i].stmt.AlterLogin?
      ensures i == |p| && steps[i].stmt == Sql.AlterLogin(opts.name, AlterParts(opts))
    {
      StepAt(opts, i);
    }
    if |AlterParts(opts)| > 0 {
      StepAt(opts, |p|);
      assert steps[|p|].stmt.AlterLogin?;
    }
  }

  /** `UpdateSQLLogin`: run the statements in order, stopping at the first
      failure, then re-read the login by name. */
  function UpdateSQLLogin(e: Engine, opts: UpdateOptions): (o: Outcome<Option<SqlLogin>>)
    ensures var run := RunAll(e, UpdateSteps(opts));
            o.issued == run.issued
            && (run.result.Err? ==> o.result == Err(run.result.msg))
            && (run.result.Ok? ==> o.result == GetSQLLogin(e, opts.name))
  {
    var run := RunAll(e, UpdateSteps(opts));
    if run.result.Err? then Outcome(run.issued, Err(run.result.msg))
    else Outcome(run.issued, GetSQLLogin(e, opts.name))
  }

  /** A failing statement ends the update: what was issued is a prefix of
      the statements up to that one, so nothing after it runs. */
  lemma UpdateStopsAtFailure(e: Engine, opts: UpdateOptions, k: nat)
    requires k < |UpdateSteps(opts)|
    requires !Succeeds(e, UpdateSteps(opts)[k])
    ensures UpdateSQLLogin(e, opts).result.Err?
    ensures UpdateSQLLogin(e, opts).issued <= Commands(UpdateSteps(opts)[..k + 1])
  {
    RunAllStopsAt(e, UpdateSteps(opts), k);
  }

  /** `DropSQLLogin`. */
  function DropSQLLogin(e: Engine, name: string): (o: Outcome<()>)
    ensures o.issued == [Command(Server, Sql.DropLogin(name))]
    ensures o.result.Ok? <==> Command(Server, Sql.DropLogin(name)) !in e.execErrors
    ensures o.result.Err? ==> o.result.msg == "failed to drop SQL login: " + e.execErrors[Command(Server, Sql.DropLogin(name))]
  {
    Do(e, Command(Server, Sql.DropLogin(name)), "failed to drop SQL login")
  }
}
