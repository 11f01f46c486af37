# terraform-provider-mssql in Dafny

This is a model of the decision logic in the SQL Server Terraform provider
(muecahit94/terraform-provider-mssql). It covers two layers:

- the `mssql` client package: lookups, DDL statement builders, the login
  update sequence, and the GUID-to-SID codec;
- the resources built on that client: SQL login, database, SQL user,
  Azure AD user, and the three permission resources. For these, the model
  covers Create, Read, Update, Delete, ImportState and MoveState.

The server is an abstract catalog (`Catalog`). It has tables of logins,
databases, server roles and server grants. Each database has its own users,
roles, memberships, schemas and grants. A single-row query returns the first
row its WHERE clause accepts, and "no rows" becomes `None`.

Which statements, queries and direct connections fail is a parameter of the
engine (`Engine.Engine`). Each client operation returns an `Outcome`: the
statements it issued, in order, together with Go's `(value, error)` pair as
`Result<Option<T>>`.

Statements are a datatype (`Sql.Stmt`). `Sql.Render` spells out the exact
T-SQL text of the provider's format strings. Resource operations return a
`Framework.Reply`, which holds the issued statements and one of three
responses:

- an error diagnostic (summary and detail);
- removal of the resource from state;
- the state to store.

Several Go standard-library functions are modelled as well, each as a small
module with its own inverse or reference property:

- `strconv.Itoa` and `strconv.Atoi` (`Decimal`);
- `hex.EncodeToString` and `hex.DecodeString` (`Hex`), working on the
  UTF-8 bytes of a string (`Utf8`), since Go's `len` and hex decoder count
  and report bytes;
- `strings.ToUpper`, `strings.Split` and `strings.ReplaceAll` (`Text`);
- `sort.Strings` (`Order`).

## Model

| member | source | states |
|---|---|---|
| Wrappers.Wrap | internal/mssql/database.go:78-80 | an error wrapped with `%w` keeps the original message after the context and a colon; success passes through untouched |
| Engine.Switch | internal/mssql/client.go:213-216 | `USE [db]` succeeds exactly when the database exists |
| Engine.Connect | internal/mssql/user.go:315-318 | a direct connection to a database succeeds exactly when the database exists and the connection is not refused |
| Engine.Do | internal/mssql/client.go:198-200 | a statement on the shared connection is issued once; it fails exactly when the engine rejects it, and the error carries the caller's context |
| Engine.DoIn | internal/mssql/client.go:220-239 | on a missing database nothing runs and the error reports the failed database switch; otherwise exactly the one statement runs in that database, and a rejection is the engine's error under the caller's wrap |
| Engine.PooledUseThenDo | internal/mssql/client.go:198-216 | `UseDatabase` then `ExecContext`, both on the pool: the USE goes out on its own and a missing database stops there with the bare driver error; otherwise the statement runs in the database of whichever pooled session serves it, and its failure is wrapped |
| Engine.PooledLandsElsewhere | internal/mssql/client.go:213-219 | when the serving session is in another database, the statement never runs in the database the USE named |
| Engine.UseThenDo | internal/mssql/client.go:218-239 | the USE and the statement on one session: a missing database is the bare USE error after the USE alone; otherwise the USE, then the statement in that database, succeeding and failing exactly as the dedicated-connection path does |
| Engine.Read | internal/mssql/database.go:19-33 | a failed query is an error wrapped as "failed to get …"; "no rows" means no row matches; a found row is a catalog row that matches |
| Engine.ReadIn | internal/mssql/client.go:243-261 | a read in a missing database fails on the switch; otherwise it is the plain read on that database's table |
| Engine.RunAll | internal/mssql/login.go:185-231 | a statement sequence succeeds exactly when every step succeeds, and then it issued every step's command in order |
| Engine.RunAllFailure | internal/mssql/login.go:188-230 | a failing sequence issued exactly the commands before its first failing step plus that step's attempt, and returns that step's error |
| Engine.RunAllStopsAt | internal/mssql/login.go:188-230 | when step k fails, the sequence fails and nothing after step k is ever issued |
| Engine.RunAllWithin | internal/mssql/login.go:185-231 | whatever happens, the issued commands are a prefix of the planned steps |
| Catalog.First | internal/mssql/database.go:25-27 | a single-row query finds nothing exactly when no row matches; a found row is in the table and matches |
| Decimal.DigitChar | internal/provider/resource_database.go:106 | each digit value has a decimal digit character that reads back as the same value |
| Decimal.NatDigits | internal/provider/resource_database.go:106 | the decimal spelling of a natural number is non-empty digits without a leading zero, and its value is the number |
| Decimal.Itoa | internal/provider/resource_sql_login.go:162 | `strconv.Itoa` is non-empty; it starts with `-` exactly for negative numbers, and is all digits otherwise |
| Decimal.Atoi | internal/provider/resource_sql_login.go:180 | `strconv.Atoi` accepts exactly an optional sign followed by one or more digits |
| Decimal.CanonicalDigitsRoundTrip | internal/provider/resource_database.go:106-130 | digits without a superfluous leading zero are the spelling of their own value |
| Decimal.ItoaAtoi | internal/provider/resource_sql_login.go:162-180 | a string Itoa could have written parses, and writing the parsed number gives the same string back |
| Decimal.AtoiDigits | internal/provider/resource_sql_login.go:180 | unsigned digits parse to the number they spell |
| Decimal.AtoiSigns | internal/provider/resource_sql_login.go:180 | a leading `+` leaves the value of the digits unchanged and a leading `-` negates it |
| Decimal.AtoiLeadingZero | internal/provider/resource_sql_login.go:180 | a leading zero does not change the parsed value |
| Decimal.AtoiItoa | internal/provider/resource_database.go:106-130 | the id Create writes with Itoa is parsed back by Read's Atoi to the same number |
| Hex.NibbleOf | internal/mssql/user.go:28 | a hex digit, in either case, has a value below 16 |
| Hex.DigitChar | internal/mssql/user.go:44 | each value below 16 has a lower-case hex digit that decodes back to that value |
| Utf8.CharBytes | internal/mssql/user.go:19 | a character is one byte exactly when it is ASCII, and then the byte is its code; any other character is a lead byte of at least 0xC0 followed by continuation bytes |
| Utf8.CharBytesDecode | internal/mssql/user.go:19 | the payload bits of a character's bytes give back its code point |
| Utf8.Encode | internal/mssql/user.go:19 | a string has at least as many bytes as characters, and exactly as many only when it is all ASCII, in which case byte i is character i |
| Utf8.EncodeAppend | internal/mssql/user.go:19-28 | the bytes of a concatenation are the bytes of the parts, in order |
| Hex.HexBytesOf | internal/mssql/user.go:28 | a string's bytes are all hex digits exactly when its characters are, and a hex string is ASCII |
| Hex.FirstNonHex | internal/mssql/user.go:28 | every byte before the index is a hex digit and the byte at it is not; it is the length exactly when all bytes are hex digits |
| Hex.QuoteRune | internal/mssql/user.go:28-31 | the `%#U` form of a byte: `U+00`, two upper-case hex digits that spell the byte, then the quoted character exactly when it is printable |
| Hex.Decode | internal/mssql/user.go:28-31 | byte decoding succeeds exactly on an even number of hex bytes; the first non-hex byte is reported as an invalid byte, before an odd length is; byte i comes from bytes 2i and 2i+1 |
| Hex.DecodeString | internal/mssql/user.go:28-31 | decoding a string decodes its UTF-8 bytes: it succeeds exactly on an even number of hex digits, byte i built from digits 2i and 2i+1; an odd number of hex digits is the odd-length error |
| Hex.DecodeStringError | internal/mssql/user.go:28-31 | a string with a non-hex character fails with the invalid-byte error for the first non-hex byte of its UTF-8 form |
| Hex.InvalidByteMessages | internal/mssql/user.go:28-31 | the invalid-byte error for `z` ends `U+007A 'z'`, for byte 0xC3 `U+00C3 'Ã'`, and for 0x80 just `U+0080` |
| Hex.EncodeToString | internal/mssql/user.go:44 | encoding yields two hex digits per byte |
| Hex.UpperEncodingIsUpperHex | internal/mssql/user.go:44 | the upper-cased encoding contains only upper-case hex digits |
| Hex.DecodeEncode | internal/mssql/user.go:28-44 | decoding the encoding of any bytes gives back those bytes |
| Hex.EncodedPair | internal/mssql/user.go:44 | byte i is encoded as its high nibble then its low nibble, at positions 2i and 2i+1 |
| Hex.DecodeUpperEncode | internal/mssql/user.go:28-44 | decoding the upper-cased encoding still gives back the original bytes |
| Text.ToUpper | internal/mssql/permission.go:127 | upper-casing keeps the length and leaves no lower-case ASCII letter: each one becomes the letter 32 code points below, and every other character is kept |
| Text.ToUpperHasNoLower | internal/mssql/permission.go:127 | an upper-cased permission name has no lower-case letter left |
| Text.ToUpperIdempotent | internal/mssql/permission.go:49 | upper-casing twice is the same as upper-casing once |
| Text.ToUpperOfUpper | internal/mssql/permission.go:49 | a name without lower-case letters is unchanged by upper-casing |
| Text.Count | internal/provider/resource_sql_user.go:319 | the separator count is zero exactly when the separator does not occur |
| Text.RemoveAll | internal/mssql/user.go:18 | removing every hyphen leaves no hyphen, and shortens the string by the number of hyphens |
| Text.RemoveAllKeeps | internal/mssql/user.go:18 | a character survives hyphen removal exactly when it was present and is not a hyphen |
| Text.RemoveAllAbsent | internal/mssql/user.go:18 | a string without hyphens is unchanged |
| Text.RemoveAllAppend | internal/mssql/user.go:18 | hyphen removal distributes over concatenation |
| Text.SuffixOfAppend | internal/mssql/permission.go:129 | an appended clause is a suffix of the statement |
| Text.Join | internal/provider/resource_schema_permission.go:113 | a joined id starts with its first piece, followed by the separator when there are more pieces; `SplitJoin` and `JoinSplit` pin it down as the inverse of splitting |
| Text.Split | internal/provider/resource_sql_user.go:319 | `strings.Split` returns one more piece than there are separators |
| Text.SplitPlain | internal/provider/resource_sql_user.go:319 | a string without the separator splits into itself alone |
| Text.SplitAfterPiece | internal/provider/resource_sql_user.go:319 | a leading piece without the separator splits off as the first piece |
| Text.SplitJoin | internal/provider/resource_schema_permission.go:113-185 | joining pieces that contain no separator, then splitting, gives back the pieces |
| Text.JoinSplit | internal/provider/resource_schema_permission.go:181 | splitting then joining with the same separator gives back the id |
| Order.LessIrreflexive | internal/provider/resource_sql_user.go:286 | the byte-wise string order used by `sort.Strings` is irreflexive |
| Order.LessTransitive | internal/provider/resource_sql_user.go:286 | that order is transitive |
| Order.LessTotal | internal/provider/resource_sql_user.go:286 | any two different strings are ordered one way or the other |
| Order.LessAsymmetric | internal/provider/resource_sql_user.go:286 | no two strings are each below the other |
| Order.Insert | internal/provider/resource_sql_user.go:286 | inserting into a sorted list keeps it sorted and adds exactly the one element |
| Order.Sort | internal/provider/resource_sql_user.go:286 | `sort.Strings` yields a sorted permutation of its input |
| Order.SortSameElements | internal/provider/resource_sql_user.go:286 | sorting keeps exactly the same role names and the same count |
| Order.SortDistinct | internal/provider/resource_sql_user.go:286 | sorting a set's elements introduces no duplicates |
| Order.DistinctCount | internal/provider/resource_sql_user.go:286 | a name occurs at most once in a list without duplicates |
| Order.TwoOccurrences | internal/provider/resource_sql_user.go:286 | a repeated name has a multiplicity of at least two |
| Sql.Render | internal/mssql/schema.go:134-188 | the T-SQL text of every statement, spelled as the provider's format strings (here CREATE, ALTER AUTHORIZATION and DROP SCHEMA), with names interpolated into `[...]`; `Sql.OwnerClause`, `Sql.GrantOptionSuffix`, `Sql.RevokeCascadeSuffix`, `Logins.LanguageClause` and `Sql.NamesAreNotEscaped` pin down its optional clauses and its lack of escaping |
| Sql.OnOff | internal/mssql/login.go:247-252 | `boolToOnOff` is `ON` exactly for true and `OFF` otherwise |
| Sql.GrantOptionSuffix | internal/mssql/permission.go:126-130 | a rendered GRANT ends in ` WITH GRANT OPTION` exactly when the grant option is asked for |
| Sql.RevokeCascadeSuffix | internal/mssql/permission.go:313-315 | a rendered REVOKE ends in ` CASCADE` exactly when the cascade flag is set |
| Sql.OwnerClause | internal/mssql/role.go:159-162 | CREATE ROLE and CREATE SCHEMA end in ` AUTHORIZATION [owner]` exactly when an owner is given, for names without `[` |
| Sql.NamesAreNotEscaped | internal/mssql/role.go:158-162 | names are interpolated unescaped: a role name containing `] AUTHORIZATION [` renders the same text as a different role with an owner |
| Databases.GetDatabase | internal/mssql/database.go:19-33 | "no rows" is `nil` without error exactly when no database has the name; a hit is a catalog database of that name |
| Databases.GetDatabaseByID | internal/mssql/database.go:36-50 | as GetDatabase, keyed by id |
| Databases.CreateDatabase | internal/mssql/database.go:74-83 | one CREATE DATABASE; its failure is wrapped; on success the result is the by-name re-read as it is, including `nil` |
| Databases.DropDatabase | internal/mssql/database.go:86-98 | SET SINGLE_USER and then DROP DATABASE IF EXISTS are both always issued; only the drop decides the result and its error |
| Databases.SingleUserIsBestEffort | internal/mssql/database.go:87-89 | whether SET SINGLE_USER fails makes no difference to the drop's outcome |
| Logins.GetSQLLogin | internal/mssql/login.go:24-56 | "no rows" is `nil` exactly when no login has the name; a hit is a catalog login of that name |
| Logins.GetSQLLoginByID | internal/mssql/login.go:59-91 | as GetSQLLogin, keyed by principal id |
| Logins.CreateStmt | internal/mssql/login.go:144-159 | CREATE LOGIN carries the given name, password, flags and language; an empty default database becomes `master` |
| Logins.LanguageClause | internal/mssql/login.go:161-163 | the statement ends in `, DEFAULT_LANGUAGE = [lang]` exactly when a language is given, and otherwise ends with the CHECK_POLICY clause |
| Logins.CreateSQLLogin | internal/mssql/login.go:143-171 | one CREATE LOGIN on the server; its failure is wrapped; otherwise the result is the by-name re-read |
| Logins.AlterParts | internal/mssql/login.go:193-206 | the ALTER LOGIN options appear in the fixed order database, language, expiration, policy; there are none exactly when none is set |
| Logins.AlterPartsRoundTrip | internal/mssql/login.go:193-206 | reading the option list back recovers exactly the four optional settings: only set options appear, each with its value |
| Logins.UpdateSteps | internal/mssql/login.go:185-231 | the password ALTER comes first when set; ENABLE/DISABLE comes last when set; one combined ALTER … WITH is issued exactly when some option is set; all run on the server |
| Logins.PasswordStep | internal/mssql/login.go:186-191 | a password statement is planned exactly when a new password is given |
| Logins.UpdateSQLLogin | internal/mssql/login.go:185-234 | the planned statements run in order until one fails; that failure is the result, otherwise the by-name re-read is |
| Logins.UpdateStopsAtFailure | internal/mssql/login.go:188-230 | if step k fails, the update fails and no statement after step k is issued |
| Logins.DropSQLLogin | internal/mssql/login.go:237-245 | one DROP LOGIN; it fails exactly when the engine rejects it, with the wrapped message |
| Roles.GetDatabaseRole | internal/mssql/role.go:23-58 | "no rows" is `nil` exactly when no role in that database has the name; a hit is that role, tagged with the database id |
| Roles.GetDatabaseRoleByID | internal/mssql/role.go:61-96 | as GetDatabaseRole, keyed by principal id: `nil` exactly when no role of the database has the id; a hit is a catalog role of that database, with that id and the database's `DB_ID()` |
| Roles.CreateDatabaseRole | internal/mssql/role.go:158-177 | a success means CREATE ROLE ran and the re-read found the role; an empty re-read is the error "role was created but could not be retrieved" |
| Roles.CreateDatabaseRoleOwner | internal/mssql/role.go:159-162 | CREATE ROLE has an AUTHORIZATION clause exactly when an owner is given |
| Roles.UpdateDatabaseRole | internal/mssql/role.go:187-200 | a missing database is the bare USE error; ALTER AUTHORIZATION ON ROLE follows the USE only when a new owner is given, and its failure is "failed to update database role owner: …"; otherwise the result is the re-read |
| Roles.DropDatabaseRole | internal/mssql/role.go:203-215 | USE, then DROP ROLE IF EXISTS in that database; it succeeds exactly when the database exists and the statement is accepted, and a missing database is the bare USE error |
| Roles.GetDatabaseRoleMember | internal/mssql/role.go:227-261 | "no rows" is `nil` exactly when no membership links the role and the member |
| Roles.AddDatabaseRoleMember | internal/mssql/role.go:264-272 | one `ALTER ROLE … ADD MEMBER` in the database, succeeding exactly when that step succeeds |
| Roles.RemoveDatabaseRoleMember | internal/mssql/role.go:275-283 | one `ALTER ROLE … DROP MEMBER` in the database, succeeding exactly when that step succeeds |
| Roles.GetServerRole | internal/mssql/role.go:294-321 | "no rows" is `nil` exactly when no server role has the name |
| Roles.GetServerRoleByID | internal/mssql/role.go:324-351 | as GetServerRole, keyed by principal id |
| Roles.CreateServerRole | internal/mssql/role.go:395-407 | one CREATE SERVER ROLE; a rejection is "failed to create server role: " and the engine's error; otherwise the result is the by-name re-read |
| Roles.CreateServerRoleOwner | internal/mssql/role.go:396-399 | CREATE SERVER ROLE has an AUTHORIZATION clause exactly when an owner is given |
| Roles.DropServerRole | internal/mssql/role.go:410-418 | one DROP SERVER ROLE, without IF EXISTS, failing exactly when rejected |
| Roles.GetServerRoleMember | internal/mssql/role.go:429-457 | "no rows" is `nil` exactly when no server membership links role and member |
| Roles.AddServerRoleMember | internal/mssql/role.go:460-468 | one `ALTER SERVER ROLE … ADD MEMBER`, failing exactly when rejected |
| Roles.RemoveServerRoleMember | internal/mssql/role.go:471-479 | one `ALTER SERVER ROLE … DROP MEMBER`, failing exactly when rejected |
| Schemas.GetSchemaPooled | internal/mssql/schema.go:21-52 | as written: a missing database is the bare USE error; otherwise the query reads the schemas and the `DB_ID()` of the database its pooled session is in |
| Schemas.GetSchema | internal/mssql/schema.go:21-52 | with the query on the USE's session: a missing database is the bare USE error; `nil` exactly when no schema of that database has the name; a hit has the name and that database's id |
| Schemas.GetSchemaPinned | internal/mssql/schema.go:21-52 | the single-session read is the pooled read in the case where the query lands in the named database |
| Schemas.PooledReadReportsOtherDatabase | internal/mssql/schema.go:21-52 | a pooled read of `app`'s `dbo` served by a session in `master` returns master's schema with master's id, where the single-session read reports app's id |
| Schemas.GetSchemaByID | internal/mssql/schema.go:55-86 | as GetSchema, keyed by schema id: a hit has that id and the named database's id |
| Schemas.CreateSchema | internal/mssql/schema.go:134-150 | USE, then one CREATE SCHEMA in that database; a missing database is the bare USE error; on success the result is the re-read |
| Schemas.CreateSchemaOwner | internal/mssql/schema.go:139-142 | besides the USE, the only statement is CREATE SCHEMA, which has an AUTHORIZATION clause exactly when an owner is given |
| Schemas.UpdateSchema | internal/mssql/schema.go:160-173 | a missing database is the bare USE error; ALTER AUTHORIZATION ON SCHEMA follows the USE only when a new owner is given, and its failure is "failed to update schema owner: …"; otherwise the result is the re-read |
| Schemas.DropSchema | internal/mssql/schema.go:176-188 | USE, then DROP SCHEMA IF EXISTS in that database; it succeeds exactly when the database exists and the statement is accepted, and a missing database is the bare USE error |
| Permissions.GetDatabasePermission | internal/mssql/permission.go:34-71 | the lookup uses the upper-cased permission; "no rows" is `nil` exactly when no database-scope grant matches |
| Permissions.GetSchemaPermission | internal/mssql/permission.go:163-240 | `nil` exactly when there is neither a matching grant nor ownership of the schema; an owner without a grant gets a virtual GRANT with grant option and database id 0 |
| Permissions.ExplicitRowWins | internal/mssql/permission.go:196-198 | a matching explicit grant row is returned with the real database id, and its grant option agrees with its state |
| Permissions.VirtualExactlyWhenNoRow | internal/mssql/permission.go:229-239 | a schema permission has database id 0 exactly when no explicit grant row matches |
| Permissions.GetServerPermission | internal/mssql/permission.go:334-365 | "no rows" is `nil` exactly when no server grant matches the upper-cased permission |
| Permissions.LookupsIgnoreCase | internal/mssql/permission.go:49 | all three lookups give the same answer for a permission name and its upper-cased form |
| Permissions.GrantText | internal/mssql/permission.go:126-130 | database, schema and server grants end in ` WITH GRANT OPTION` exactly when asked |
| Permissions.RevokeText | internal/mssql/permission.go:313-315 | the schema revoke ends in ` CASCADE`; database and server revokes do not |
| Permissions.GrantDatabasePermission | internal/mssql/permission.go:126-138 | issues at most the one GRANT in the database, succeeding exactly when it runs |
| Permissions.RevokeDatabasePermission | internal/mssql/permission.go:141-149 | issues at most the one REVOKE in the database, succeeding exactly when it runs |
| Permissions.GrantSchemaPermission | internal/mssql/permission.go:298-310 | issues at most the one schema GRANT in the database, succeeding exactly when it runs |
| Permissions.RevokeSchemaPermission | internal/mssql/permission.go:314-322 | issues at most the one cascading schema REVOKE, succeeding exactly when it runs |
| Permissions.GrantServerPermission | internal/mssql/permission.go:405-417 | issues exactly the one server GRANT, succeeding exactly when it runs |
| Permissions.RevokeServerPermission | internal/mssql/permission.go:420-428 | issues exactly the one server REVOKE, succeeding exactly when it runs |
| Users.GetUser | internal/mssql/user.go:58-121 | `nil` exactly when no principal of a user type (S, U, E, X) has the name; a hit carries the database id |
| Users.SchemaOrDbo | internal/mssql/user.go:321-324 | an empty default schema becomes `dbo`; any other is kept |
| Users.CreateSqlUserStmt | internal/mssql/user.go:223-233 | the statement renders as `CREATE USER [user] FOR LOGIN [login] WITH DEFAULT_SCHEMA = [schema]`, with `dbo` for an empty schema |
| Users.CreateSQLUser | internal/mssql/user.go:222-248 | a success means CREATE USER … FOR LOGIN ran and the re-read found the user; an empty re-read is the error "user was created but could not be retrieved" |
| Users.UpdateSQLUser | internal/mssql/user.go:258-280 | ALTER USER … DEFAULT_SCHEMA is issued only when a schema is given, and its rejection stops the update as "failed to update SQL user: " and the engine's error; the result is then the re-read |
| Users.DropUser | internal/mssql/user.go:283-301 | DROP USER IF EXISTS succeeds exactly when the database exists and the statement is accepted; a rejection is "failed to drop user: " and the engine's error |
| Users.AzureUserStmt | internal/mssql/user.go:321-348 | a non-empty object id gives `CREATE USER … WITH SID`, which needs a valid GUID; an empty one gives `FROM EXTERNAL PROVIDER`; both use the defaulted schema |
| Users.CreateOnDirect | internal/mssql/user.go:315-355 | nothing is issued when the statement could not be built or the connection fails; otherwise exactly the one CREATE is issued, and success is the re-read |
| Users.CreateAzureADUser | internal/mssql/user.go:312-356 | an invalid object id fails before any CREATE; otherwise the one CREATE USER runs on the direct connection, and success is the re-read |
| Users.ServicePrincipalStmt | internal/mssql/user.go:376-393 | the CREATE USER … WITH SID exists exactly when the client id is a valid GUID; the conversion error is wrapped |
| Users.CreateAzureADServicePrincipal | internal/mssql/user.go:367-400 | an invalid client id fails with nothing issued; otherwise one CREATE USER … WITH SID runs, and success is the re-read |
| Sid.SourceIndex | internal/mssql/user.go:36-41 | the byte reordering takes every output position from a valid input position |
| Sid.SwapGuidBytes | internal/mssql/user.go:36-41 | the reordering keeps 16 bytes |
| Sid.SwapPositions | internal/mssql/user.go:36-41 | the output is input bytes 3,2,1,0,5,4,7,6 followed by bytes 8..15 unchanged |
| Sid.SwapInvolution | internal/mssql/user.go:36-40 | reordering twice gives back the original 16 bytes |
| Sid.CleanGuid | internal/mssql/user.go:18 | no hyphen is left after cleaning |
| Sid.GuidToSid | internal/mssql/user.go:16-45 | success exactly on 32 hex digits after hyphen removal; the SID is `0x` then 32 upper-case hex digits, decoding to the swapped GUID bytes |
| Sid.GuidToSidErrors | internal/mssql/user.go:19-31 | a cleaned GUID whose UTF-8 length is not 32 bytes is "invalid GUID format: …" naming the input; 32 bytes with a non-hex byte give "failed to decode GUID: " and the invalid-byte error for the first such byte |
| Sid.LeadingLetterReported | internal/mssql/user.go:19-31 | 32 bytes starting with an ASCII character that is not a hex digit report that character in the decode error |
| Sid.LetterGuidMessage | internal/mssql/user.go:16-31 | `zzzzzzzz-zzzz-zzzz-zzzz-zzzzzzzzzzzz` fails with `failed to decode GUID: encoding/hex: invalid byte: U+007A 'z'` |
| Sid.MultiByteCountsTwice | internal/mssql/user.go:19-31 | `é` followed by 30 hex digits passes the length check (31 characters, 32 bytes) and fails on byte 0xC3, reported as `U+00C3 'Ã'` |
| Sid.HyphensAnywhere | internal/mssql/user.go:18 | a hyphen anywhere in the input changes nothing in the result |
| Sid.SidToGuidBytes | internal/mssql/user.go:36-44 | the inverse reading of a SID literal yields 16 bytes |
| Sid.SidRoundTrip | internal/mssql/user.go:16-45 | reading a produced SID back gives exactly the GUID's bytes |
| Sid.SidInjective | internal/mssql/user.go:16-45 | two GUIDs with the same SID have the same bytes |
| Sid.CanonicalAccepted | internal/mssql/user.go:24-28 | every canonical 8-4-4-4-12 hex GUID is accepted |
| Sid.DocumentedExample | internal/mssql/user.go:15 | `cbb9c7db-2777-47b7-8954-0269ae3dc553` becomes `0xDBC7B9CB7727B74789540269AE3DC553` |
| ResourceIds.ItoaHasNoSlash | internal/provider/resource_sql_user.go:155 | a decimal number never contains the id separator |
| ResourceIds.UserId | internal/provider/resource_sql_user.go:155 | `%d/%d` splits on `/` into exactly the two decimal spellings; `UserIdRoundTrip` parses them back |
| ResourceIds.UserIdRoundTrip | internal/provider/resource_sql_user.go:155 | a `database_id/principal_id` id splits into two pieces that parse back to the two numbers |
| ResourceIds.AzureUserId | internal/provider/resource_azuread_user.go:144 | the id starts with `sqlserver://` and ends with `/database/name`; `AzureUserIdPieces` gives all its pieces |
| ResourceIds.AzureUserIdPieces | internal/provider/resource_azuread_user.go:144 | the Azure user id splits into the scheme, an empty piece, `host:port`, the database and the name, for names without `/` |
| ResourceIds.SplitImport | internal/provider/resource_sql_user.go:319-326 | an import id is accepted exactly when it has the required piece count; the pieces join back to the id; otherwise the error is "Invalid import ID" |
| ResourceIds.ToUpperHasNoSlash | internal/provider/resource_schema_permission.go:113 | upper-casing a permission adds no separator |
| ResourceIds.SchemaPermissionId | internal/provider/resource_schema_permission.go:113 | the id ends with `/` and the upper-cased permission; `SchemaPermissionIdRoundTrip` imports it back |
| ResourceIds.DatabasePermissionId | internal/provider/resource_database_permission.go:111 | the id ends with `/` and the upper-cased permission; `DatabasePermissionIdRoundTrip` imports it back |
| ResourceIds.ServerPermissionId | internal/provider/resource_server_permission.go:99 | the id ends with `/` and the upper-cased permission; `ServerPermissionIdRoundTrip` imports it back |
| ResourceIds.SchemaPermissionIdRoundTrip | internal/provider/resource_schema_permission.go:113-185 | the id Create writes imports back as the database, schema, principal and upper-cased permission, for names without `/` |
| ResourceIds.DatabasePermissionIdRoundTrip | internal/provider/resource_database_permission.go:111-179 | the id Create writes imports back as the database, principal and upper-cased permission, for names without `/` |
| ResourceIds.ServerPermissionIdRoundTrip | internal/provider/resource_server_permission.go:99-166 | the id Create writes imports back as the principal and upper-cased permission, for names without `/` |
| ResourceIds.UserImportRoundTrip | internal/provider/resource_sql_user.go:319-329 | `database/user` imports back as the two names, for names without `/` |
| Membership.Without | internal/provider/resource_sql_user.go:253-283 | the roles kept are exactly those of the first list that are not excluded |
| Membership.WithoutAllExcluded | internal/provider/resource_sql_user.go:263-283 | when every role is excluded, nothing is kept |
| Membership.WithoutDistinct | internal/provider/resource_sql_user.go:263-283 | filtering a list of distinct roles keeps it distinct |
| Membership.AddSteps | internal/provider/resource_sql_user.go:146-152 | one ADD MEMBER step per role, in the given order |
| Membership.RemoveSteps | internal/provider/resource_sql_user.go:275-283 | one DROP MEMBER step per role, in the given order |
| Membership.DiffSteps | internal/provider/resource_sql_user.go:263-283 | all adds come before all removes; each added role is desired and not current; each removed role is current and not desired |
| Membership.EachRoleOnce | internal/provider/resource_sql_user.go:263-283 | with set-valued inputs, no role is added twice or removed twice |
| Membership.ApplyAdds | internal/provider/resource_sql_user.go:263-272 | the add steps grow the membership by exactly the added roles |
| Membership.ApplyRemoves | internal/provider/resource_sql_user.go:274-283 | the remove steps shrink the membership by exactly the removed roles |
| Membership.ApplyAppend | internal/provider/resource_sql_user.go:263-283 | running two step lists one after the other is running their concatenation |
| Membership.DiffReachesDesired | internal/provider/resource_sql_user.go:245-292 | applying the diff to the current roles yields exactly the desired roles |
| Membership.NoStepsIffSameRoles | internal/provider/resource_sql_user.go:245 | the diff is empty exactly when desired and current hold the same roles |
| Membership.Reconcile | internal/provider/resource_sql_user.go:253-291 | stored exactly when every step runs, which issues all of them; the stored list is sorted and holds the desired roles; the first failure is "Failed to add role" or "Failed to remove role" depending on the step |
| Membership.AssignRoles | internal/provider/resource_sql_user.go:139-153 | every planned role is added in order until one fails ("Failed to assign role"); on success the planned list is stored, empty when none was planned |
| Membership.UpdateRoles | internal/provider/resource_sql_user.go:244-292 | role sets that are equal issue nothing and keep the plan; otherwise the diff is reconciled; only membership statements in the user's database are issued |
| Membership.CommandsOfMemberSteps | internal/provider/resource_sql_user.go:263-283 | any prefix of issued membership steps holds only membership statements in that database |
| SqlUserResource.Create | internal/provider/resource_sql_user.go:113-170 | a failed CREATE USER is "Failed to create SQL user" with nothing else run; then the planned roles are assigned; the stored id is `dbid/principalid` with the server's default schema |
| SqlUserResource.Read | internal/provider/resource_sql_user.go:172-210 | a read by name only: not found removes the resource; found rewrites the id, login, schema and the roles reported by the server |
| SqlUserResource.Update | internal/provider/resource_sql_user.go:212-295 | the default-schema update runs first and its failure stops everything; then the role diff runs, and success stores the plan with the reconciled roles |
| SqlUserResource.UpdateStatements | internal/provider/resource_sql_user.go:233-245 | a default-schema ALTER is issued only when the schema changed, and no membership statement when the role sets are equal |
| SqlUserResource.Delete | internal/provider/resource_sql_user.go:297-315 | a failed DROP USER is "Failed to delete SQL user"; success otherwise |
| SqlUserResource.Import | internal/provider/resource_sql_user.go:317-347 | an id that is not `database/user` is rejected; a found user is stored with its id, login and schema, and with roles left for Read |
| SqlUserResource.ReadAfterCreate | internal/provider/resource_sql_user.go:155-193 | Read right after Create keeps what Create stored, apart from the login name it learns |
| SqlUserResource.ReadIsStable | internal/provider/resource_sql_user.go:172-210 | a second Read changes nothing |
| SqlUserResource.ImportThenRead | internal/provider/resource_sql_user.go:193-342 | Read after Import only fills in the roles |
| SqlUserResource.ImportByNames | internal/provider/resource_sql_user.go:319-340 | `db/name` imports exactly when that user exists |
| AzureUserResource.Create | internal/provider/resource_azuread_user.go:108-159 | a failed CREATE is "Failed to create Azure AD user" with nothing else run; then the roles are assigned, and only a role failure fails the create |
| AzureUserResource.CreateSavesPlan | internal/provider/resource_azuread_user.go:144-156 | a successful Create stores the plan with the `sqlserver://` id and the planned roles, empty when none were planned |
| AzureUserResource.WithRoles | internal/provider/resource_azuread_user.go:130-156 | the role assignment's statements follow the create's, and its failure or success decides the response |
| AzureUserResource.Read | internal/provider/resource_azuread_user.go:161-195 | not found removes the resource; found rewrites the id, default schema and roles |
| AzureUserResource.UpdateSchema | internal/provider/resource_azuread_user.go:205-216 | the default-schema ALTER is issued only when the schema changed, and is the only statement it can issue |
| AzureUserResource.Update | internal/provider/resource_azuread_user.go:197-269 | a failed schema change is "Failed to update Azure AD user"; otherwise the role diff runs and success stores the plan with the reconciled roles |
| AzureUserResource.UpdateUnchangedIsQuiet | internal/provider/resource_azuread_user.go:205-219 | updating to the stored state issues nothing and stores it again |
| AzureUserResource.Delete | internal/provider/resource_azuread_user.go:271-283 | a failed DROP USER is "Failed to delete Azure AD user"; success otherwise |
| AzureUserResource.Import | internal/provider/resource_azuread_user.go:285-309 | only `database/user` is accepted; a found user is stored with the `sqlserver://` id, an empty object id and no roles |
| AzureUserResource.OneIdFormat | internal/provider/resource_azuread_user.go:144-303 | Create, Read and Import all store the same `sqlserver://host:port/db/name` id |
| AzureUserResource.RoleStrings | internal/provider/resource_azuread_user.go:435-446 | the migrated roles are exactly the convertible string elements of a known, non-null role list, and empty otherwise |
| AzureUserResource.Strings | internal/provider/resource_azuread_user.go:439-445 | the strings kept are exactly the elements that convert to a string |
| AzureUserResource.MoveState | internal/provider/resource_azuread_user.go:313-493 | moves only from `mssql_user` of a `betr-io/mssql` provider; an unconvertible database or name fails; the schema falls back to `dbo`, the object id to empty, and the id is `migrated/pending` |
| AzureUserResource.MovedIdIsReplaced | internal/provider/resource_azuread_user.go:179-459 | the first Read after a move replaces the `migrated/pending` id |
| DatabaseResource.CreateAsWritten | internal/provider/resource_database.go:100-107 | as written, Create dereferences a nil database exactly when the re-read after CREATE DATABASE finds nothing |
| DatabaseResource.CreateAsWrittenCrashes | internal/provider/resource_database.go:100-106 | an empty catalog reaches that nil dereference |
| DatabaseResource.Create | internal/provider/resource_database.go:88-115 | stores the re-read database's id and name exactly when CREATE ran and the re-read found it; any other outcome is "Failed to create database" |
| DatabaseResource.Lookup | internal/provider/resource_database.go:129-146 | looks up by parsed id first; an id miss or an unparsable id falls back to the name; a query error stops there |
| DatabaseResource.Read | internal/provider/resource_database.go:118-159 | removes the resource exactly when both lookups miss; otherwise stores the catalog's id and name |
| DatabaseResource.ReadFollowsRecreate | internal/provider/resource_database.go:146-156 | a database recreated under the same name is found by name and its new id is stored |
| DatabaseResource.FoundById | internal/mssql/database.go:36-50 | with unique ids, a catalog database is found by its own id |
| DatabaseResource.ReadIsStable | internal/provider/resource_database.go:118-159 | a second Read changes nothing |
| DatabaseResource.Update | internal/provider/resource_database.go:162-168 | Update always fails with "Update Not Supported" and issues nothing |
| DatabaseResource.Delete | internal/provider/resource_database.go:171-192 | issues SET SINGLE_USER then DROP DATABASE; succeeds exactly when the drop is accepted |
| DatabaseResource.Import | internal/provider/resource_database.go:195-210 | imports by name; "Database not found" when absent; the stored id and name are the catalog's |
| DatabaseResource.CreateMatchesImport | internal/provider/resource_database.go:106-208 | a successful Create stores exactly what an Import of the same name stores |
| DatabaseResource.ImportThenRead | internal/provider/resource_database.go:118-208 | Read right after Import changes nothing |
| SqlLoginResource.CreateAsWritten | internal/provider/resource_sql_login.go:143-163 | as written, Create dereferences a nil login exactly when the re-read finds nothing and the optional disable did not fail |
| SqlLoginResource.CreateAsWrittenCrashes | internal/provider/resource_sql_login.go:143-162 | an empty catalog reaches that nil dereference |
| SqlLoginResource.Create | internal/provider/resource_sql_login.go:122-166 | a failed CREATE is "Failed to create SQL login"; a requested disable that fails is "Failed to disable SQL login"; success stores the principal id and the server's language |
| SqlLoginResource.Lookup | internal/provider/resource_sql_login.go:179-196 | looks up by parsed principal id first; a miss or unparsable id falls back to the name; a query error stops there |
| SqlLoginResource.Read | internal/provider/resource_sql_login.go:168-213 | removes the resource exactly when both lookups miss; otherwise refreshes every attribute except the password |
| SqlLoginResource.ReadFollowsRename | internal/provider/resource_sql_login.go:189-210 | a login no longer found by id but found by name has its new id stored |
| SqlLoginResource.FoundById | internal/mssql/login.go:59-91 | with unique ids, a catalog login is found by its own principal id |
| SqlLoginResource.ReadIsStable | internal/provider/resource_sql_login.go:168-213 | a second Read changes nothing |
| SqlLoginResource.UpdateOptions | internal/provider/resource_sql_login.go:226-258 | each option is set exactly when the plan differs from the state, and then carries the planned value |
| SqlLoginResource.Update | internal/provider/resource_sql_login.go:215-267 | runs the login update; its failure is "Failed to update SQL login", success stores the plan |
| SqlLoginResource.UpdateUnchangedIsQuiet | internal/provider/resource_sql_login.go:226-258 | updating to the stored state issues nothing and stores it again |
| SqlLoginResource.PasswordOnlyWhenChanged | internal/provider/resource_sql_login.go:234-236 | a password statement is issued exactly when the password changed |
| SqlLoginResource.Delete | internal/provider/resource_sql_login.go:269-286 | one DROP LOGIN; succeeds exactly when accepted, otherwise "Failed to delete SQL login" |
| SqlLoginResource.Import | internal/provider/resource_sql_login.go:288-308 | imports by name; "SQL login not found" when absent; stores the login's attributes with an empty password |
| SqlLoginResource.ImportThenRead | internal/provider/resource_sql_login.go:168-300 | Read right after Import changes nothing |
| PermissionResources.Regrant | internal/provider/resource_database_permission.go:137-158 | nothing runs when the grant option is unchanged; otherwise revoke, and the grant only when the revoke succeeded; success stores the plan |
| PermissionResources.CreateSchema | internal/provider/resource_schema_permission.go:100-115 | one schema GRANT; success stores the `db/schema/principal/PERMISSION` id |
| PermissionResources.ReadSchema | internal/provider/resource_schema_permission.go:117-141 | removes the resource on `nil`; overwrites the grant option only from a real grant (database id > 0) |
| PermissionResources.OwnerGrantKeepsOption | internal/provider/resource_schema_permission.go:134-139 | for a schema owner without an explicit grant, Read keeps the configured grant option |
| PermissionResources.UpdateSchema | internal/provider/resource_schema_permission.go:144-164 | revoke then grant exactly when the grant option changed; a failed revoke skips the grant |
| PermissionResources.UpdateSchemaOrder | internal/provider/resource_schema_permission.go:152-161 | a successful change issues exactly the cascading revoke and then the grant; a failed revoke issues nothing more |
| PermissionResources.DeleteSchema | internal/provider/resource_schema_permission.go:166-178 | Delete is the cascading revoke; its failure is reported |
| PermissionResources.ImportSchema | internal/provider/resource_schema_permission.go:180-203 | needs exactly four pieces; a found permission is stored with the observed grant option |
| PermissionResources.SchemaCreateThenImport | internal/provider/resource_schema_permission.go:113-203 | the id Create stores imports back to the created state whenever the permission is found |
| PermissionResources.CreateDatabase | internal/provider/resource_database_permission.go:98-113 | one database GRANT; success stores the `db/principal/PERMISSION` id |
| PermissionResources.ReadDatabase | internal/provider/resource_database_permission.go:115-135 | removes the resource on `nil`; otherwise overwrites the permission and the grant option |
| PermissionResources.UpdateDatabase | internal/provider/resource_database_permission.go:137-158 | revoke then grant exactly when the grant option changed; a failed revoke skips the grant |
| PermissionResources.UpdateDatabaseOrder | internal/provider/resource_database_permission.go:145-155 | a successful change issues exactly the revoke and then the grant |
| PermissionResources.DeleteDatabase | internal/provider/resource_database_permission.go:160-172 | Delete is the revoke; its failure is reported |
| PermissionResources.ImportDatabase | internal/provider/resource_database_permission.go:174-196 | needs exactly three pieces; a found permission is stored as observed |
| PermissionResources.DatabaseCreateThenImport | internal/provider/resource_database_permission.go:111-196 | Import of the created id stores exactly what Read of the created state stores |
| PermissionResources.CreateServer | internal/provider/resource_server_permission.go:86-101 | one server GRANT; success stores the `principal/PERMISSION` id |
| PermissionResources.ReadServer | internal/provider/resource_server_permission.go:103-123 | removes the resource on `nil`; otherwise overwrites the permission and the grant option |
| PermissionResources.UpdateServer | internal/provider/resource_server_permission.go:125-145 | revoke then grant exactly when the grant option changed; unchanged issues nothing |
| PermissionResources.UpdateServerOrder | internal/provider/resource_server_permission.go:133-142 | a successful change issues exactly the revoke and then the grant |
| PermissionResources.DeleteServer | internal/provider/resource_server_permission.go:147-159 | Delete issues exactly one non-cascading revoke |
| PermissionResources.ImportServer | internal/provider/resource_server_permission.go:161-182 | needs exactly two pieces; a found permission is stored as observed |
| PermissionResources.ServerCreateThenImport | internal/provider/resource_server_permission.go:99-182 | Import of the created id stores exactly what Read of the created state stores |

## Left out

- Connection setup, credentials, pooling and `Close` (internal/mssql/client.go:54-195): these are transport. A failing connection or statement is a parameter of the engine.
- `GetDatabaseConnection` is not part of this model. A direct connection succeeds unless the engine's `connectErrors` refuses it.
- Users.GetUser: the direct-connection path that `GetUser` tries first is not modelled. The model reads through `USE` only, and both paths read the same rows in the same database.
- Users.UpdateSQLUser: the direct-connection path is not modelled. It issues the same ALTER in the same database; only the wording of a switch failure would differ.
- Users.DropUser: the direct-connection path is not modelled. On that path the Go code returns the driver error without the "failed to drop user" wrapper.
- `GetUserRoles` is not part of this model. Read takes the role list it returns as a parameter (`userRoles`).
- Statements have no effect on the catalog. A re-read after CREATE or ALTER sees the catalog the operation is given, which stands for the state after the statement. GRANT and REVOKE semantics are not modelled.
- The T-SQL text of the catalog queries is not modelled. Each query is an abstract `Query` that either fails or returns the first row its condition accepts.
- The list operations are not modelled: `ListDatabases`, `ListSQLLogins`, `ListDatabaseRoles`, `ListServerRoles`, `ListSchemas`, `ListUsers`, `GetUserByID`, and the three `List*Permissions`. They feed only data sources.
- The scripts, data sources, provider registration and the single-call resources are not modelled. The single-call resources are database role, server role, role members, schema and Azure AD service principal. Their client calls are modelled in `Roles`, `Schemas` and `Users`.
- Null versus unknown Terraform values are not modelled. A plan's role set is `Option<seq<string>>`, where `None` stands for null or unknown. Strings are plain values.
- Login and database Read check for a null name before the name lookup. That check is not modelled; a stored name is always present.
- MoveState: the unmarshalling of the raw tftypes state (internal/provider/resource_azuread_user.go:336-405) is reduced to a per-field convertible or unconvertible value.
- Text.ToUpper: upper-cases ASCII letters only. Go's `strings.ToUpper` also maps non-ASCII letters.
- Decimal.Atoi: accepts any length of digits. Go's `strconv.Atoi` also rejects values outside the 64-bit range.
- Sql.Render: identifiers are interpolated into `[...]` without escaping, exactly as the provider does. No claim of injection safety is made, and `Sql.NamesAreNotEscaped` exhibits the ambiguity.
- Identifier case-insensitivity of the server is not modelled. Names compare exactly.
- Engine.UseThenDo: keeps the USE and the statement on one session, which `UseDatabase` followed by a pooled `ExecContext` does not guarantee. The pooled sequence as written is `Engine.PooledUseThenDo`; see Findings.
- Schemas.GetSchema: reads on the session the USE switched, so its `DB_ID()` is the named database's. As written, the query is pooled and reports the id of whichever database serves it (`Schemas.GetSchemaPooled`); see Findings.
- Schemas.GetSchemaByID: reads on the session the USE switched, so its rows and `DB_ID()` are the named database's; as written the query is pooled and may be served in another database.
- Schemas.CreateSchema: runs CREATE SCHEMA on the session the USE switched; as written it is a separate pooled call that may run in another database (`Engine.PooledUseThenDo`).
- Schemas.UpdateSchema: runs ALTER AUTHORIZATION ON SCHEMA on the session the USE switched; as written it is a separate pooled call that may run in another database.
- Schemas.DropSchema: runs DROP SCHEMA IF EXISTS on the session the USE switched; as written it is a separate pooled call that may run in another database.
- Roles.UpdateDatabaseRole: runs ALTER AUTHORIZATION ON ROLE on the session the USE switched; as written it is a separate pooled call that may run in another database.
- Roles.DropDatabaseRole: runs DROP ROLE IF EXISTS on the session the USE switched; as written it is a separate pooled call that may run in another database.
- The re-read at the end of a schema or role operation sends its own USE; reads do not record their statements, so that USE is not in the issued list.

## Findings

| source | as written | input that shows it | evidently intended | confidence | as-written member | corrected member |
|---|---|---|---|---|---|---|
| internal/provider/resource_sql_login.go:143-163 | after a successful CREATE LOGIN, `login.PrincipalID` is read even when `GetSQLLogin` returned `nil, nil` | an engine whose catalog has no login of the created name (e.g. another client drops the login between the CREATE and the re-read), with is_disabled false | report an error diagnostic instead of dereferencing nil, as `CreateDatabaseRole` and `CreateSQLUser` do | not executed | SqlLoginResource.CreateAsWritten | SqlLoginResource.Create |
| internal/provider/resource_database.go:100-107 | after a successful CREATE DATABASE, `db.ID` is read even though `CreateDatabase` returns the re-read as it is, including `nil, nil` | an engine whose catalog has no database of the created name after CREATE | report "Failed to create database" instead of dereferencing nil | not executed | DatabaseResource.CreateAsWritten | DatabaseResource.Create |
| internal/mssql/schema.go:21-52 | `UseDatabase` sends `USE [db]` through the pool, then the query goes through the pool again, so it may be served by a session in another database, or by the same one after the driver resets it; `DB_ID()` and the rows are then that database's | a pool whose next session is in `master`, and `GetSchema(app, dbo)`: it returns master's `dbo` with master's id | run the USE and the query on one dedicated connection, as `QueryRowInDatabaseContext` does | not executed | Schemas.GetSchemaPooled | Schemas.GetSchema |
| internal/mssql/role.go:203-215 | `DropDatabaseRole` (like the schema statements and `UpdateDatabaseRole`) sends the USE and then the statement as two pooled calls, so the statement may run in another database | a pool whose next session is in `master`: `DROP ROLE IF EXISTS [r]` runs in `master` and leaves `app`'s role in place | run the USE and the statement on one dedicated connection, as `ExecInDatabaseContext` does | not executed | Engine.PooledUseThenDo | Engine.UseThenDo |
