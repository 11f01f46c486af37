/** The T-SQL statements the provider sends, as data, and their exact text.

    Names are interpolated between square brackets without escaping, exactly
    as the Go format strings do; they are opaque strings here.
 */
module Sql {
  import Text

  /** What a GRANT or REVOKE applies to: the current database (or the server,
      for a server-level command), or one schema. */
  datatype Securable = Current | OnSchema(schema: string)

  /** One `name = value` part of a combined `ALTER LOGIN ... WITH`. */
  datatype LoginOption =
    | DefaultDatabase(database: string)
    | DefaultLanguage(language: string)
    | CheckExpiration(on: bool)
    | CheckPolicy(on: bool)

  datatype Stmt =
    | Use(database: string)
    | CreateLogin(name: string, password: string, defaultDatabase: string,
                  checkExpiration: bool, checkPolicy: bool, language: string)
    | AlterLoginPassword(name: string, password: string)
    | AlterLogin(name: string, options: seq<LoginOption>)
    | AlterLoginState(name: string, disable: bool)
    | DropLogin(name: string)
    | CreateUserForLogin(name: string, login: string, defaultSchema: string)
    | CreateUserWithSid(name: string, sid: string, defaultSchema: string)
    | CreateUserFromExternalProvider(name: string, defaultSchema: string)
    | AlterUserDefaultSchema(name: string, defaultSchema: string)
    | DropUser(name: string)
    | CreateRole(server: bool, name: string, owner: string)
    | AlterRoleOwner(name: string, owner: string)
    | DropRole(name: string)
    | DropServerRole(name: string)
    | AlterRoleMember(server: bool, role: string, member: string, add: bool)
    | CreateSchema(name: string, owner: string)
    | AlterSchemaOwner(name: string, owner: string)
    | DropSchema(name: string)
    | CreateDatabase(name: string)
    | SetSingleUser(name: string)
    | DropDatabase(name: string)
    | Grant(permission: string, on: Securable, principal: string, withGrantOption: bool)
    | Revoke(permission: string, on: Securable, principal: string, cascade: bool)

  function Bracket(name: string): string {
    "[" + name + "]"
  }

  /** `boolToOnOff`. */
  function OnOff(b: bool): (s: string)
    ensures s == "ON" || s == "OFF"
    ensures (s == "ON") == b
  {
    if b then "ON" else "OFF"
  }

  function RenderOption(o: LoginOption): string {
    match o
    case DefaultDatabase(d) => "DEFAULT_DATABASE = " + Bracket(d)
    case DefaultLanguage(l) => "DEFAULT_LANGUAGE = " + Bracket(l)
    case CheckExpiration(b) => "CHECK_EXPIRATION = " + OnOff(b)
    case CheckPolicy(b) => "CHECK_POLICY = " + OnOff(b)
  }

  /** The parts written one after another with `", "` between them. */
  function JoinOptions(options: seq<LoginOption>): string {
    if |options| == 0 then ""
    else if |options| == 1 then RenderOption(options[0])
    else RenderOption(options[0]) + ", " + JoinOptions(options[1..])
  }

  /** CREATE LOGIN up to its CHECK_POLICY setting. */
  function LoginHead(n: string, p: string, d: string, e: bool): string {
    "\n\t\tCREATE LOGIN " + Bracket(n) + " WITH PASSWORD = '" + p + "',\n\t\tDEFAULT_DATABASE = "
    + Bracket(d) + ",\n\t\tCHECK_EXPIRATION = " + OnOff(e) + ",\n\t\t"
  }

  function PolicyClause(c: bool): string {
    "CHECK_POLICY = " + OnOff(c)
  }

  /** The DEFAULT_LANGUAGE clause, present only for a non-empty language. */
  function LanguageOption(l: string): string {
    if l != "" then ", DEFAULT_LANGUAGE = " + Bracket(l) else ""
  }

  /** The owner clause of CREATE ROLE and CREATE SCHEMA, only for a
      non-empty owner. */
  function Authorization(o: string): string {
    if o != "" then " AUTHORIZATION " + Bracket(o) else ""
  }

  function Target(on: Securable): string {
    match on
    case Current => ""
    case OnSchema(s) => " ON SCHEMA::" + Bracket(s)
  }

  /** The text handed to the driver. */
  function Render(s: Stmt): string {
    match s
    case Use(d) => "USE " + Bracket(d)
    case CreateLogin(n, p, d, e, c, l) => LoginHead(n, p, d, e) + PolicyClause(c) + LanguageOption(l)
    case AlterLoginPassword(n, p) => "ALTER LOGIN " + Bracket(n) + " WITH PASSWORD = '" + p + "'"
    case AlterLogin(n, os) => "ALTER LOGIN " + Bracket(n) + " WITH " + JoinOptions(os)
    case AlterLoginState(n, d) => "ALTER LOGIN " + Bracket(n) + (if d then " DISABLE" else " ENABLE")
    case DropLogin(n) => "DROP LOGIN " + Bracket(n)
    case CreateUserForLogin(n, l, d) =>
      "CREATE USER " + Bracket(n) + " FOR LOGIN " + Bracket(l) + " WITH DEFAULT_SCHEMA = " + Bracket(d)
    case CreateUserWithSid(n, sid, d) =>
      "CREATE USER " + Bracket(n) + " WITH SID = " + sid + ", TYPE = E, DEFAULT_SCHEMA = " + Bracket(d)
    case CreateUserFromExternalProvider(n, d) =>
      "CREATE USER " + Bracket(n) + " FROM EXTERNAL PROVIDER WITH DEFAULT_SCHEMA = " + Bracket(d)
    case AlterUserDefaultSchema(n, d) => "ALTER USER " + Bracket(n) + " WITH DEFAULT_SCHEMA = " + Bracket(d)
    case DropUser(n) => "DROP USER IF EXISTS " + Bracket(n)
    case CreateRole(server, n, o) =>
      (if server then "CREATE SERVER ROLE " else "CREATE ROLE ") + Bracket(n)
      + Authorization(o)
    case AlterRoleOwner(n, o) => "ALTER AUTHORIZATION ON ROLE::" + Bracket(n) + " TO " + Bracket(o)
    case DropRole(n) => "DROP ROLE IF EXISTS " + Bracket(n)
    case DropServerRole(n) => "DROP SERVER ROLE " + Bracket(n)
    case AlterRoleMember(server, r, m, add) =>
      (if server then "ALTER SERVER ROLE " else "ALTER ROLE ") + Bracket(r)
      + (if add then " ADD MEMBER " else " DROP MEMBER ") + Bracket(m)
    case CreateSchema(n, o) => "CREATE SCHEMA " + Bracket(n) + Authorization(o)
    case AlterSchemaOwner(n, o) => "ALTER AUTHORIZATION ON SCHEMA::" + Bracket(n) + " TO " + Bracket(o)
    case DropSchema(n) => "DROP SCHEMA IF EXISTS " + Bracket(n)
    case CreateDatabase(n) => "CREATE DATABASE " + Bracket(n)
    case SetSingleUser(n) => "ALTER DATABASE " + Bracket(n) + " SET SINGLE_USER WITH ROLLBACK IMMEDIATE"
    case DropDatabase(n) => "DROP DATABASE IF EXISTS " + Bracket(n)
    case Grant(p, on, x, w) =>
      "GRANT " + p + Target(on) + " TO " + Bracket(x) + (if w then " WITH GRANT OPTION" else "")
    case Revoke(p, on, x, c) =>
      "REVOKE " + p + Target(on) + " FROM " + Bracket(x) + (if c then " CASCADE" else "")
  }

  function Last(s: string): char
    requires |s| > 0
  {
    s[|s| - 1]
  }

  /** A bracketed name is the last thing in a plain grant, so the text ends
      in ` WITH GRANT OPTION` exactly when the option is asked for. */
  lemma GrantOptionSuffix(p: string, on: Securable, x: string, w: bool)
    ensures Text.HasSuffix(Render(Grant(p, on, x, w)), " WITH GRANT OPTION") <==> w
  {
    var t := Render(Grant(p, on, x, w));
    var base := "GRANT " + p + Target(on) + " TO " + Bracket(x);
    if w {
      assert t == base + " WITH GRANT OPTION";
      assert t[|t| - 18..] == " WITH GRANT OPTION";
    } else {
      assert t == base && Last(t) == ']';
    }
  }

  /** Likewise a revoke ends in ` CASCADE` exactly when it cascades. */
  lemma RevokeCascadeSuffix(p: string, on: Securable, x: string, c: bool)
    ensures Text.HasSuffix(Render(Revoke(p, on, x, c)), " CASCADE") <==> c
  {
    var t := Render(Revoke(p, on, x, c));
    var base := "REVOKE " + p + Target(on) + " FROM " + Bracket(x);
    if c {
      assert t == base + " CASCADE";
      assert t[|t| - 8..] == " CASCADE";
    } else {
      assert t == base && Last(t) == ']';
    }
  }

  /** CREATE [SERVER] ROLE and CREATE SCHEMA end in an AUTHORIZATION clause
      for their owner exactly when the owner is non-empty.  The name must not
      contain `[`: names are not escaped (see `NamesAreNotEscaped`). */
  lemma OwnerClause(s: Stmt)
    requires s.CreateRole? || s.CreateSchema?
    requires '[' !in s.name
    ensures Text.HasSuffix(Render(s), " AUTHORIZATION " + Bracket(s.owner)) <==> s.owner != ""
  {
    var o := " AUTHORIZATION " + Bracket(s.owner);
    var head := if s.CreateRole? then (if s.server then "CREATE SERVER ROLE " else "CREATE ROLE ")
                else "CREATE SCHEMA ";
    assert Render(s) == head + Bracket(s.name) + Authorization(s.owner);
    if s.owner != "" {
      Text.SuffixOfAppend(head + Bracket(s.name), o);
    } else {
      assert Render(s) == head + Bracket(s.name);
      var lead := " AUTHORIZATION ";
      assert o == lead + "[]";
      assert o[|o| - 4] == lead[|lead| - 2] == 'N';
      assert head[|head| - 2] != 'N';
      NoEmptyBracketSuffix(head, s.name, o);
    }
  }

  /** A bracketed name free of `[` does not end in `[]` unless it is empty,
      and then the character before the brackets decides. */
  lemma NoEmptyBracketSuffix(head: string, n: string, o: string)
    requires '[' !in n
    requires |o| >= 4 && o[|o| - 2] == '[' && o[|o| - 1] == ']'
    requires |head| >= 2 && head[|head| - 2] != o[|o| - 4]
    ensures !Text.HasSuffix(head + Bracket(n), o)
  {
    var t := head + Bracket(n);
    assert t == head + "[" + n + "]";
    if |o| <= |t| {
      var tail := t[|t| - |o|..];
      if |n| >= 1 {
        assert tail[|o| - 2] == n[|n| - 1];
        assert n[|n| - 1] in n;
        assert tail[|o| - 2] != o[|o| - 2];
      } else {
        assert tail[|o| - 4] == head[|head| - 2];
        assert tail[|o| - 4] != o[|o| - 4];
      }
    }
  }

  /** A closing and an opening bracket spliced into a name split the
      bracketed name in two. */
  lemma Splice(r: string, mid: string, o: string)
    ensures Bracket(r + ("]" + mid + "[") + o) == Bracket(r) + mid + Bracket(o)
  {
    assert Bracket(r + ("]" + mid + "[") + o) == "[" + r + "]" + mid + "[" + o + "]";
  }

  lemma AuthorizationGlue()
    ensures "] AUTHORIZATION [" == "]" + " AUTHORIZATION " + "["
  {
  }

  /** Names are not escaped, so the text does not determine the statement:
      a role whose name carries its own AUTHORIZATION clause prints exactly
      like a role with that owner. */
  lemma NamesAreNotEscaped(r: string, o: string)
    requires o != ""
    ensures CreateRole(false, r + "] AUTHORIZATION [" + o, "") != CreateRole(false, r, o)
    ensures Render(CreateRole(false, r + "] AUTHORIZATION [" + o, "")) == Render(CreateRole(false, r, o))
  {
    var n := r + "] AUTHORIZATION [" + o;
    var head := "CREATE ROLE ";
    AuthorizationGlue();
    Splice(r, " AUTHORIZATION ", o);
    assert |n| > |r|;
    var plain := Render(CreateRole(false, n, ""));
    assert plain == head + Bracket(n) + "";
    assert head + Bracket(n) + "" == head + Bracket(n);
  }
}
