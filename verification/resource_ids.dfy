/** Terraform resource ids: how each resource spells its id, and how an
    import id is cut back into names.

    Ids are names joined with `/`; an import splits on `/` and insists on an
    exact number of pieces.  Names are opaque, so an id made from a name that
    contains `/` does not split back into the same names.
 */
module ResourceIds {
  import opened Wrappers
  import Text
  import Decimal

  /** Decimal spellings never contain the separator. */
  lemma ItoaHasNoSlash(n: int)
    ensures '/' !in Decimal.Itoa(n)
  {
    var s := Decimal.Itoa(n);
    if n < 0 {
      assert s == "-" + Decimal.NatDigits(-n);
      assert forall i :: 1 <= i < |s| ==> s[i] == Decimal.NatDigits(-n)[i - 1];
    }
  }

  /** The `database_id/principal_id` id of a SQL user. */
  function UserId(databaseId: int, principalId: int): (id: string)
    ensures Text.Split(id, '/') == [Decimal.Itoa(databaseId), Decimal.Itoa(principalId)]
  {
    var a := Decimal.Itoa(databaseId);
    var b := Decimal.Itoa(principalId);
    ItoaHasNoSlash(principalId);
    ItoaHasNoSlash(databaseId);
    Text.SplitAfterPiece(a, b, '/');
    Text.SplitPlain(b, '/');
    a + "/" + b
  }

  /** A user id splits into two pieces that parse back to the two numbers. */
  lemma UserIdRoundTrip(databaseId: int, principalId: int)
    ensures var parts := Text.Split(UserId(databaseId, principalId), '/');
            |parts| == 2
            && Decimal.Atoi(parts[0]) == Some(databaseId)
            && Decimal.Atoi(parts[1]) == Some(principalId)
  {
    var a := Decimal.Itoa(databaseId);
    var b := Decimal.Itoa(principalId);
    ItoaHasNoSlash(databaseId);
    ItoaHasNoSlash(principalId);
    Text.SplitAfterPiece(a, b, '/');
    Text.SplitPlain(b, '/');
    Decimal.AtoiItoa(databaseId);
    Decimal.AtoiItoa(principalId);
  }

  /** The `sqlserver://host:port/database/name` id of an Azure AD user. */
  function AzureUserId(host: string, port: int, db: string, name: string): (id: string)
    ensures |id| > 12 && id[..12] == "sqlserver://"
    ensures Text.HasSuffix(id, "/" + db + "/" + name)
  {
    var tail := "/" + db + "/" + name;
    var id := "sqlserver://" + (host + ":" + Decimal.Itoa(port)) + tail;
    Text.SuffixOfAppend("sqlserver://" + (host + ":" + Decimal.Itoa(port)), tail);
    id
  }

  /** The last two pieces of an Azure AD user id are its database and user
      name, whenever none of host, database and name contains `/`. */
  lemma AzureUserIdPieces(host: string, port: int, db: string, name: string)
    requires '/' !in host && '/' !in db && '/' !in name
    ensures Text.Split(AzureUserId(host, port, db, name), '/')
            == ["sqlserver:", "", host + ":" + Decimal.Itoa(port), db, name]
  {
    var authority := host + ":" + Decimal.Itoa(port);
    assert '/' !in authority by {
      ItoaHasNoSlash(port);
    }
    var tail := authority + "/" + db + "/" + name;
    var id := AzureUserId(host, port, db, name);
    AzureUserIdShape(host, port, db, name);
    assert id == "sqlserver:" + ['/'] + ("" + ['/'] + tail);
    LeadPieces("sqlserver:", tail);
    TailPieces(authority, db, name);
    assert Text.Split(id, '/') == ["sqlserver:", ""] + [authority, db, name];
  }

  lemma AzureUserIdShape(host: string, port: int, db: string, name: string)
    ensures AzureUserId(host, port, db, name)
            == "sqlserver:" + ['/'] + ("" + ['/'] + (host + ":" + Decimal.Itoa(port) + "/" + db + "/" + name))
  {
    var tail := host + ":" + Decimal.Itoa(port) + "/" + db + "/" + name;
    assert AzureUserId(host, port, db, name) == "sqlserver://" + tail;
    SchemeSlashes(tail);
  }

  lemma SchemeSlashes(tail: string)
    ensures "sqlserver://" + tail == "sqlserver:" + ['/'] + ("" + ['/'] + tail)
  {
    assert "sqlserver://" == "sqlserver:" + ['/'] + ['/'];
  }

  lemma LeadPieces(scheme: string, tail: string)
    requires '/' !in scheme
    ensures Text.Split(scheme + ['/'] + ("" + ['/'] + tail), '/') == [scheme, ""] + Text.Split(tail, '/')
  {
    Text.SplitAfterPiece(scheme, "" + ['/'] + tail, '/');
    Text.SplitAfterPiece("", tail, '/');
  }

  lemma TailPieces(a: string, b: string, c: string)
    requires '/' !in a && '/' !in b && '/' !in c
    ensures Text.Split(a + "/" + b + "/" + c, '/') == [a, b, c]
  {
    assert a + "/" + b + "/" + c == a + ['/'] + (b + ['/'] + c);
    Text.SplitAfterPiece(a, b + ['/'] + c, '/');
    Text.SplitAfterPiece(b, c, '/');
    Text.SplitPlain(c, '/');
  }

  /** A joined id ends in its last piece, after a separator. */
  lemma {:induction false} PieceSuffix(parts: seq<string>)
    requires |parts| >= 2
    ensures Text.HasSuffix(Text.Join(parts, '/'), "/" + parts[|parts| - 1])
  {
    var j := Text.Join(parts, '/');
    if |parts| == 2 {
      assert j == parts[0] + ("/" + parts[1]);
    } else {
      PieceSuffix(parts[1..]);
      var rest := Text.Join(parts[1..], '/');
      assert j == (parts[0] + "/") + rest;
      Text.SuffixOfAppend(parts[0] + "/", rest);
      SuffixTransitive(j, rest, "/" + parts[|parts| - 1]);
    }
  }

  lemma SuffixTransitive(a: string, b: string, c: string)
    requires Text.HasSuffix(a, b) && Text.HasSuffix(b, c)
    ensures Text.HasSuffix(a, c)
  {
    assert a[|a| - |c|..] == b[|b| - |c|..];
  }

  /** `db/schema/principal/PERMISSION`. */
  function SchemaPermissionId(db: string, schema: string, principal: string, permission: string): (id: string)
    ensures Text.HasSuffix(id, "/" + Text.ToUpper(permission))
  {
    PieceSuffix([db, schema, principal, Text.ToUpper(permission)]);
    Text.Join([db, schema, principal, Text.ToUpper(permission)], '/')
  }

  /** `db/principal/PERMISSION`. */
  function DatabasePermissionId(db: string, principal: string, permission: string): (id: string)
    ensures Text.HasSuffix(id, "/" + Text.ToUpper(permission))
  {
    PieceSuffix([db, principal, Text.ToUpper(permission)]);
    Text.Join([db, principal, Text.ToUpper(permission)], '/')
  }

  /** `principal/PERMISSION`. */
  function ServerPermissionId(principal: string, permission: string): (id: string)
    ensures Text.HasSuffix(id, "/" + Text.ToUpper(permission))
  {
    PieceSuffix([principal, Text.ToUpper(permission)]);
    Text.Join([principal, Text.ToUpper(permission)], '/')
  }

  /** `strings.Split(id, "/")` with an exact piece count, as every import
      does before it looks anything up. */
  function SplitImport(id: string, pieces: nat): (r: Result<seq<string>>)
    ensures r.Ok? <==> Text.Count(id, '/') + 1 == pieces
    ensures r.Ok? ==> |r.value| == pieces && Text.Join(r.value, '/') == id
    ensures r.Err? ==> r.msg == "Invalid import ID"
  {
    var parts := Text.Split(id, '/');
    Text.JoinSplit(id, '/');
    if |parts| != pieces then Err("Invalid import ID") else Ok(parts)
  }

  lemma ToUpperHasNoSlash(s: string)
    requires '/' !in s
    ensures '/' !in Text.ToUpper(s)
  {
    var u := Text.ToUpper(s);
    forall i | 0 <= i < |u| ensures u[i] != '/' {
      assert s[i] != '/';
    }
  }

  /** Importing the id a schema permission was created with gives back its
      names and the upper-cased permission, as long as no name contains `/`. */
  lemma SchemaPermissionIdRoundTrip(db: string, schema: string, principal: string, permission: string)
    requires '/' !in db && '/' !in schema && '/' !in principal && '/' !in permission
    ensures SplitImport(SchemaPermissionId(db, schema, principal, permission), 4)
            == Ok([db, schema, principal, Text.ToUpper(permission)])
  {
    var parts := [db, schema, principal, Text.ToUpper(permission)];
    ToUpperHasNoSlash(permission);
    assert Text.Separable(parts, '/');
    Text.SplitJoin(parts, '/');
  }

  lemma DatabasePermissionIdRoundTrip(db: string, principal: string, permission: string)
    requires '/' !in db && '/' !in principal && '/' !in permission
    ensures SplitImport(DatabasePermissionId(db, principal, permission), 3)
            == Ok([db, principal, Text.ToUpper(permission)])
  {
    var parts := [db, principal, Text.ToUpper(permission)];
    ToUpperHasNoSlash(permission);
    assert Text.Separable(parts, '/');
    Text.SplitJoin(parts, '/');
  }

  lemma ServerPermissionIdRoundTrip(principal: string, permission: string)
    requires '/' !in principal && '/' !in permission
    ensures SplitImport(ServerPermissionId(principal, permission), 2) == Ok([principal, Text.ToUpper(permission)])
  {
    var parts := [principal, Text.ToUpper(permission)];
    ToUpperHasNoSlash(permission);
    assert Text.Separable(parts, '/');
    Text.SplitJoin(parts, '/');
  }

  /** The `database_name/user_name` import id of both user resources. */
  lemma UserImportRoundTrip(db: string, name: string)
    requires '/' !in db && '/' !in name
    ensures SplitImport(Text.Join([db, name], '/'), 2) == Ok([db, name])
  {
    assert Text.Separable([db, name], '/');
    Text.SplitJoin([db, name], '/');
  }
}
