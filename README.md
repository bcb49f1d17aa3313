# terraform-provider-postgresql, modelled in Dafny

This project models the core of a Terraform provider for PostgreSQL and
CockroachDB, which is written in Go against the Terraform plugin framework.
It covers four parts:

- **Version detection** (`db_version.dfy`, `pg_version.dfy`).
  `ParseDbVersion` reads the text of `SELECT VERSION();` and names the
  engine (`CockroachDB CCL` or `PostgreSQL`) and its version. Patterns are
  tried in order, and the first that occurs anywhere in the text wins.
  `ParsePostgresVersion` does the same with the PostgreSQL pattern only.
  The regular expressions are modelled as a declarative predicate
  (`Captures`, `LeftmostCapture`) and as a scanner (`Submatch`). The
  scanner is proved to find the leftmost match of the predicate.
- **Role SQL** (`role_sql.dfy`, with `decimal.dfy` for Go's `%d`).
  - The seven `*AsOptionString` helpers and `GetOptionsString` render a
    role's attributes as a `CREATE ROLE`/`ALTER ROLE` option list.
  - The `CREATE`, `ALTER`, `DROP` and `SELECT` statements are built by
    `fmt.Sprintf`.
  - Each rendering has a reader beside it. The lemmas prove that reading
    back what was rendered returns the attributes.
- **The `postgresql_role` resource** (`role_resource.dfy`, with
  `connection.dfy` and `framework.dfy`).
  - The database pool is a class whose calls answer nondeterministically and
    append each call and its answer to a ghost log.
  - The Create, Read, Update and Delete handlers are methods of
    `RoleResource`. Each is proved against a function of the database's
    answers (`CreateRun`, `ReadRun`, `UpdateRun`, `DeleteRun`).
  - Lemmas about those functions prove the statement order, a rollback
    exactly when a step after `BEGIN` failed, and state saved only on
    success.
  - They also reproduce two quirks of the handlers:
    - Delete never rolls back.
    - Read still saves state after it has removed a missing role.
- **The provider** (`provider.dfy`). `Configure` reports unknown
  attributes, applies the defaults, builds the connection URL, opens the
  pool, detects the version and hands the connection context on. The
  module also models `Resources`, `DataSources` and `New`.

Source paths below are relative to the repository root.

Behaviour of the source that the model reproduces as written:

- Read, when the role no longer exists (`pgx.ErrNoRows`), adds a warning and
  removes the resource from state. It does not return, so it then saves a
  state whose options are Go's zero values: NOINHERIT and
  `CONNECTION LIMIT 0`.
  `ReadRun` records both state operations in that order, and
  `ReadMissingRoleSavesZeroOptions` states the zero options.
- ImportState sets only `name`. The next Read therefore queries
  `oid = 0` (`ImportedRoleReadByOidZero`).
- Names are interpolated into SQL and into the connection URL without
  quoting or escaping. The round-trip lemmas state the conditions (no `@` in
  the credentials, no `:` in the host) under which the URL still carries its
  pieces.
- Delete's error for a failed `BEGIN` has a different text from Create's
  and Update's. Delete has no deferred rollback.

## Model

| member | source | states |
|---|---|---|
| DbVersionParser.UnrecognizedMessage | internal/postgresql/db_version.go:35 | the error message quotes the input verbatim between the fixed prefix and suffix |
| DbVersionParser.RunEnd | internal/postgresql/db_version.go:20-21 | the greedy `[\d+.]+` run: every character up to the end is a version character, and the one at the end is not |
| DbVersionParser.CaptureAt | internal/postgresql/db_version.go:26 | when the pattern matches at an offset, the returned group 2 satisfies the declarative capture predicate |
| DbVersionParser.MatchesAtIffCaptures | internal/postgresql/db_version.go:26 | any declarative capture at an offset is the one the scanner computes there, so the capture is unique |
| DbVersionParser.RunEndOfRun | internal/postgresql/db_version.go:20-21 | a run of version characters ended by a non-version character is exactly the greedy run |
| DbVersionParser.FindFrom | internal/postgresql/db_version.go:26 | the leftmost offset at or after `i` where the pattern matches, or none when there is none |
| DbVersionParser.Submatch | internal/postgresql/db_version.go:26-28 | a found group 2 is a non-empty run of `[0-9+.]` |
| DbVersionParser.SubmatchSpec | internal/postgresql/db_version.go:25-28 | `FindStringSubmatch` finds a match iff the pattern occurs, and its group 2 is exactly the capture of the leftmost occurrence |
| DbVersionParser.SubmatchFound | internal/postgresql/db_version.go:26-28 | where the scan stops, the capture is a leftmost capture, and every leftmost capture equals it |
| DbVersionParser.SubmatchNotFound | internal/postgresql/db_version.go:26-28 | where the scan finds no offset, the pattern occurs nowhere in the text |
| DbVersionParser.FirstMatch | internal/postgresql/db_version.go:24-34 | a result that is found has the product of one of the listed patterns and a non-empty `[0-9+.]` version |
| DbVersionParser.FirstMatchNone | internal/postgresql/db_version.go:24-34 | the loop finds nothing iff no listed pattern matches |
| DbVersionParser.FirstMatchAt | internal/postgresql/db_version.go:24-34 | when the pattern at position `k` matches and every earlier one fails, the loop returns that pattern's product and group 2 |
| DbVersionParser.ParseDbVersion | internal/postgresql/db_version.go:18-36 | on success the type is `CockroachDB CCL` or `PostgreSQL` and the version a non-empty `[0-9+.]` run; on failure the zero `DbVersion` and the message quoting the input |
| DbVersionParser.ParseDbVersionSpec | internal/postgresql/db_version.go:19-35 | CockroachDB is returned iff it occurs, PostgreSQL iff CockroachDB does not occur and PostgreSQL does, each with its leftmost capture, and the error iff neither occurs |
| DbVersionParser.CockroachTakesPriority | internal/postgresql/db_version.go:19-24 | whenever the CockroachDB pattern occurs anywhere, the result is CockroachDB, whatever else the text holds |
| DbVersionParser.VersionAtEndRejected | internal/postgresql/db_version.go:21 | the space after the version is required: `PostgreSQL <version>` at the end of the text is an error |
| VersionVectors.LeadingCapture | internal/postgresql/db_version.go:20-21 | a text that starts with a pattern's literal, a version and a space is captured at offset 0 |
| DbVersionParser.LeadCharAbsent | internal/postgresql/db_version.go:20 | a pattern cannot occur in a text that lacks one of its literal characters |
| VersionVectors.PostgresLeadingNoCockroach | internal/postgresql/db_version.go:20 | a `PostgreSQL <v> <tail>` text without `B` in the tail has no CockroachDB match |
| VersionVectors.PostgresLeading | internal/postgresql/db_version.go:18-36 | `PostgreSQL <v> <tail>` parses as PostgreSQL with version `v` when the tail holds no `B` |
| VersionVectors.DockerPostgres156Parsed | internal/postgresql/db_version_test.go:14-21 | the Docker 15.6 banner parses as PostgreSQL 15.6 |
| VersionVectors.RdsPostgres155Parsed | internal/postgresql/db_version_test.go:22-29 | the RDS 15.5 banner parses as PostgreSQL 15.5 |
| VersionVectors.AuroraPostgres156Parsed | internal/postgresql/db_version_test.go:30-37 | the Aurora 15.6 banner parses as PostgreSQL 15.6 |
| VersionVectors.DockerPostgres174Parsed | internal/postgresql/db_version_test.go:38-45 | the Docker 17.4 banner parses as PostgreSQL 17.4 |
| VersionVectors.Cockroach2430Parsed | internal/postgresql/db_version_test.go:46-53 | the CockroachDB banner parses as `CockroachDB CCL` 24.3.0 |
| PgVersionParser.ParsePostgresVersion | internal/postgresql/pg_version.go:9-22 | on success a non-empty `[0-9+.]` version; on failure `""` and the message quoting the input |
| PgVersionParser.ParsePostgresVersionSpec | internal/postgresql/pg_version.go:10-20 | the version is returned iff it is the leftmost PostgreSQL capture, and the error iff the pattern does not occur |
| PgVersionParser.AgreesWithParseDbVersion | internal/postgresql/pg_version.go:9-22 | without a CockroachDB match, both parsers give the same version and the same error |
| PgVersionParser.PostgresLeadingVersion | internal/postgresql/pg_version.go:9-22 | `PostgreSQL <v> <tail>` gives version `v` |
| PgVersionParser.DockerPostgres156Version | internal/postgresql/pg_version_test.go:14-18 | the Docker 15.6 banner gives 15.6 |
| PgVersionParser.RdsPostgres155Version | internal/postgresql/pg_version_test.go:19-23 | the RDS 15.5 banner gives 15.5 |
| PgVersionParser.AuroraPostgres156Version | internal/postgresql/pg_version_test.go:24-28 | the Aurora 15.6 banner gives 15.6 |
| PgVersionParser.DockerPostgres174Version | internal/postgresql/pg_version_test.go:29-33 | the Docker 17.4 banner gives 17.4 |
| Decimal.DigitChar | internal/provider/resource_postgresql_role.go:369 | a digit value below 10 becomes a decimal digit character |
| Decimal.NatDigits | internal/provider/resource_postgresql_role.go:369 | `%d` of a natural number is a non-empty digit string with no leading zero unless it is `0` |
| Decimal.FormatInt | internal/provider/resource_postgresql_role.go:369 | `%d` is non-empty, starts with `-` exactly for negatives and holds no space |
| Decimal.FormatIntChars | internal/provider/provider.go:154-159 | `%d` holds only `-` and digits |
| Decimal.ParseInt | internal/provider/resource_postgresql_role.go:369 | the reference reader of `%d` accepts only non-empty text |
| Decimal.NatDigitsValue | internal/provider/resource_postgresql_role.go:369 | the digits of `n` read back as `n` |
| Decimal.FormatIntRoundTrip | internal/provider/resource_postgresql_role.go:369 | reading `%d` of any integer gives that integer back |
| Decimal.FormatIntInjective | internal/provider/resource_postgresql_role.go:369 | distinct integers have distinct `%d` renderings |
| RoleSql.Split | internal/provider/resource_postgresql_role.go:415 | the reference inverse of `strings.Join` gives at least one part |
| RoleSql.SplitPrefix | internal/provider/resource_postgresql_role.go:415 | splitting text that starts with a separator-free word yields that word first |
| RoleSql.SplitJoin | internal/provider/resource_postgresql_role.go:415 | splitting the join of non-empty separator-free parts gives the parts back |
| RoleSql.ParseFlag | internal/provider/resource_postgresql_role.go:352-402 | a word read as a flag renders back to that word |
| RoleSql.OptionHelpersReadBack | internal/provider/resource_postgresql_role.go:352-402 | each of the seven `*AsOptionString` helpers reads back as the attribute it renders: a flag through its keyword or `NO` keyword, the limit as the `%d` number after `CONNECTION LIMIT ` |
| RoleSql.ParseFlagOption | internal/provider/resource_postgresql_role.go:352-402 | each boolean helper's keyword or `NO` keyword reads back as the flag it came from |
| RoleSql.JoinCons | internal/provider/resource_postgresql_role.go:415 | joining a head before the rest puts one separator between them |
| RoleSql.LimitWords | internal/provider/resource_postgresql_role.go:368-370 | `CONNECTION LIMIT n` followed by more text is the words `CONNECTION`, `LIMIT`, `n` |
| RoleSql.JoinLimitWords | internal/provider/resource_postgresql_role.go:404-416 | the joined option list splits the limit clause into its three words |
| RoleSql.ClausesAreWords | internal/provider/resource_postgresql_role.go:404-416 | `GetOptionsString` is the space-join of nine words: six flag keywords around `CONNECTION LIMIT n`, in the source's order |
| RoleSql.OptionWordsHaveNoSpaces | internal/provider/resource_postgresql_role.go:352-402 | no option word holds a space, so the join can be split back |
| RoleSql.OptionsRoundTrip | internal/provider/resource_postgresql_role.go:404-416 | reading the options string gives back all seven attributes: bypassrls, login, the limit, createrole, inherit, replication, superuser |
| RoleSql.WordsRoundTrip | internal/provider/resource_postgresql_role.go:352-402 | the nine option words read back as the attributes they render |
| RoleSql.OptionsStringDeterminesOptions | internal/provider/resource_postgresql_role.go:404-416 | two models give the same options string iff they have the same seven attributes |
| RoleSql.JoinSeven | internal/provider/resource_postgresql_role.go:404-416 | the join of seven clauses is the clauses separated by single spaces |
| RoleSql.DefaultOptionsString | internal/provider/resource_postgresql_role.go:74-118 | a role with the schema's defaults gets `NOBYPASSRLS NOLOGIN CONNECTION LIMIT -1 NOCREATEROLE INHERIT NOREPLICATION NOSUPERUSER` |
| RoleSql.LoginRoleOptionsString | internal/provider/resource_postgresql_role.go:352-416 | a login role with limit 10 gets `NOBYPASSRLS LOGIN CONNECTION LIMIT 10 NOCREATEROLE INHERIT NOREPLICATION NOSUPERUSER` |
| RoleSql.StatementOptionsOf | internal/provider/resource_postgresql_role.go:169 | a `<verb> ROLE <name> WITH <options>;` statement reads back as its options |
| RoleSql.RoleStatementsCarryOptions | internal/provider/resource_postgresql_role.go:169 | the `CREATE ROLE` statement (line 169) and the `ALTER ROLE` statement (line 295) of a model both carry exactly its seven attributes |
| RoleSql.DropRoleSqlQuotesName | internal/provider/resource_postgresql_role.go:332 | `DROP ROLE <name>;` holds the name verbatim between the fixed prefix and the `;` |
| RoleSql.SelectOidSqlQuotesName | internal/provider/resource_postgresql_role.go:179 | the oid lookup holds the name verbatim between the single quotes |
| RoleSql.SelectRoleSqlRoundTrip | internal/provider/resource_postgresql_role.go:212-225 | Read's query selects exactly the oid it was built from |
| Connection.Pool.constructor | internal/provider/provider.go:162 | a new pool has the URL it was opened with and an empty log |
| Connection.Pool.Begin | internal/provider/resource_postgresql_role.go:153 | the log grows by exactly the `BEGIN` and its answer |
| Connection.Pool.Exec | internal/provider/resource_postgresql_role.go:173 | the log grows by exactly the statement and its answer |
| Connection.Pool.QueryOid | internal/provider/resource_postgresql_role.go:181 | the log grows by exactly the oid query and its row, no row or error |
| Connection.Pool.QueryRole | internal/provider/resource_postgresql_role.go:236-245 | the log grows by exactly Read's query and its row, no row or error |
| Connection.Pool.QueryVersion | internal/provider/provider.go:175 | the log grows by exactly `SELECT VERSION();` and its answer |
| Connection.Pool.Commit | internal/provider/resource_postgresql_role.go:189 | the log grows by exactly the `COMMIT` and its answer |
| Connection.Pool.Rollback | internal/provider/resource_postgresql_role.go:162 | the log grows by exactly the `ROLLBACK` and its answer |
| Connection.NewPool | internal/provider/provider.go:162-172 | either a fresh pool for the URL with an empty log, or an error and no pool |
| PostgresqlRole.Render | internal/provider/resource_postgresql_role.go:143-350 | each problem becomes an error diagnostic, except a missing role, which becomes a warning; summary and detail are the source's texts |
| PostgresqlRole.Diagnostics | internal/provider/resource_postgresql_role.go:143-350 | one diagnostic per problem, in order; `HasError` holds iff some problem is an error |
| PostgresqlRole.AbortedReports | internal/provider/resource_postgresql_role.go:160-167 | after a failed step the run ends with a rollback, saves nothing, and reports the step's error plus the rollback's iff the rollback failed |
| PostgresqlRole.AbortedIncomplete | internal/provider/resource_postgresql_role.go:160-167 | a run aborted by a failed step completed no script, reports an error, and reports one more iff the rollback failed |
| PostgresqlRole.AbortedInTransaction | internal/provider/resource_postgresql_role.go:160-167 | a failed step after a successful `BEGIN`, then the deferred rollback, is a transactional run of the script |
| PostgresqlRole.CreateRunsInTransaction | internal/provider/resource_postgresql_role.go:153-193 | Create sends `BEGIN`, `CREATE ROLE`, the oid lookup and `COMMIT` in that order, stops at the first failure, and rolls back iff a step after `BEGIN` failed |
| PostgresqlRole.CreateSavesOnlyOnSuccess | internal/provider/resource_postgresql_role.go:185-198 | Create saves state iff every step succeeded, and then saves the plan with the oid the lookup returned |
| PostgresqlRole.CreateReportsFailure | internal/provider/resource_postgresql_role.go:155-192 | Create reports an error iff a step failed: one for the step and one more iff the rollback failed too |
| PostgresqlRole.UpdateRunsInTransaction | internal/provider/resource_postgresql_role.go:279-307 | Update sends `BEGIN`, `ALTER ROLE` and `COMMIT` in that order, stops at the first failure, and rolls back iff a step after `BEGIN` failed |
| PostgresqlRole.UpdateSavesOnlyOnSuccess | internal/provider/resource_postgresql_role.go:299-312 | Update saves the plan iff every step succeeded |
| PostgresqlRole.UpdateReportsFailure | internal/provider/resource_postgresql_role.go:281-306 | Update reports an error iff a step failed: one for the step and one more iff the rollback failed too |
| PostgresqlRole.DeleteNeverRollsBack | internal/provider/resource_postgresql_role.go:325-343 | Delete sends `BEGIN`, `DROP ROLE` and `COMMIT` in order, stops at the first failure, and never rolls back |
| PostgresqlRole.DeleteReportsFailure | internal/provider/resource_postgresql_role.go:325-345 | Delete saves nothing and reports exactly one error iff a step failed |
| PostgresqlRole.Refreshed | internal/provider/resource_postgresql_role.go:257-263 | the refreshed state keeps oid and name and takes all seven attributes from the scanned row |
| PostgresqlRole.ReadRun | internal/provider/resource_postgresql_role.go:212-266 | Read sends only its query. A row saves the refreshed state with no diagnostics. No row warns, removes the resource, and still saves the state refreshed from zero values. Any other error reports an error and saves nothing |
| PostgresqlRole.ReadKeepsIdentity | internal/provider/resource_postgresql_role.go:257-266 | unless the query failed, the last state Read saves has the prior oid and name |
| PostgresqlRole.ReadMissingRoleSavesZeroOptions | internal/provider/resource_postgresql_role.go:247-266 | for a missing role the saved options are Go's zero values: NOINHERIT and connection limit 0 |
| PostgresqlRole.ImportedModel | internal/provider/resource_postgresql_role.go:348-350 | the imported state has the import id as its name and no oid |
| PostgresqlRole.ImportState | internal/provider/resource_postgresql_role.go:348-350 | import reports nothing and sets a single state, whose name is the id and whose oid is unset |
| PostgresqlRole.ImportedRoleReadByOidZero | internal/provider/resource_postgresql_role.go:212-225 | the Read after an import queries `oid = 0` |
| PostgresqlRole.RoleResource.constructor | internal/provider/resource_postgresql_role.go:27-29 | a new role resource holds the zero connection context |
| PostgresqlRole.RoleResource.Configure | internal/provider/resource_postgresql_role.go:123-141 | nil provider data changes nothing; provider data is kept; anything else keeps the old context and reports the unexpected type |
| PostgresqlRole.RoleResource.RollbackIfFailed | internal/provider/resource_postgresql_role.go:160-167 | the deferred function rolls back iff the error is set and adds the rollback's error iff it failed |
| PostgresqlRole.RoleResource.Create | internal/provider/resource_postgresql_role.go:143-199 | the pool's log grows by exactly `CreateRun`'s calls for the plan's `CREATE ROLE` and oid lookup, and the response is `CreateRun`'s |
| PostgresqlRole.RoleResource.Read | internal/provider/resource_postgresql_role.go:201-267 | the pool's log grows by exactly `ReadRun`'s query, and the response is `ReadRun`'s |
| PostgresqlRole.RoleResource.Update | internal/provider/resource_postgresql_role.go:269-313 | the pool's log grows by exactly `UpdateRun`'s calls for the plan's `ALTER ROLE`, and the response is `UpdateRun`'s |
| PostgresqlRole.RoleResource.Delete | internal/provider/resource_postgresql_role.go:315-346 | the pool's log grows by exactly `DeleteRun`'s calls for the prior state's `DROP ROLE`, and the response is `DeleteRun`'s |
| Provider.Render | internal/provider/provider.go:92-194 | every Configure problem is an error; exactly the unknown-attribute ones are attribute errors, on that attribute |
| Provider.Diagnostics | internal/provider/provider.go:92-194 | one diagnostic per problem, in order; `HasError` holds iff there is any problem |
| Provider.UnknownProblemsSpec | internal/provider/provider.go:92-133 | Configure reports at most six attribute errors, and an attribute has one iff it is unknown |
| Provider.ReportUnknown | internal/provider/provider.go:92-133 | the six checks, none of which stops Configure, leave exactly `UnknownProblems` |
| Provider.ConnectionUrl | internal/provider/provider.go:135-159 | the URL is `DatabaseUrl`: the defaults `postgres`/5432/`postgres` overridden by non-null settings, with credentials `user:password`, `user` or `postgres` |
| Provider.IndexOf | internal/provider/provider.go:154-159 | the first occurrence of a character in the URL, or none |
| Provider.IndexOfAfter | internal/provider/provider.go:154-159 | the first separator after a separator-free piece is the one right after it |
| Provider.SplitAt | internal/provider/provider.go:154-159 | cutting at the separator gives back both sides |
| Provider.ReadPortBack | internal/provider/provider.go:154-159 | the `%d` port followed by `/` and the database reads back as both |
| Provider.ReadHostBack | internal/provider/provider.go:154-159 | a host without `:` is read back from `host:...` |
| Provider.ReadUserInfoBack | internal/provider/provider.go:154-159 | credentials without `@` are read back from `credentials@...` |
| Provider.UrlRoundTrip | internal/provider/provider.go:154-159 | `postgresql://%s@%s:%d/%s` reads back as its four pieces when the credentials hold no `@` and the host no `:` |
| Provider.ConfiguredUrlReadsBack | internal/provider/provider.go:135-159 | when the credentials hold no `@` and the host no `:`, Configure's URL carries its credentials, host, effective port and effective database |
| Provider.DefaultUrl | internal/provider/provider.go:135-159 | with only the host set, the URL is built from `postgres`, the host, 5432 and `postgres`, and `%d` of 5432 is `5432` |
| Provider.PasswordNeedsUsername | internal/provider/provider.go:146-152 | without a user name, the password plays no part in the URL |
| Provider.MaxConnectionsUnused | internal/provider/provider.go:34-41 | `max_connections` plays no part in the URL |
| Provider.PostgresqlProvider.constructor | internal/provider/provider.go:216-222 | `New(version)` gives a provider that reports that version |
| Provider.PostgresqlProvider.Resources | internal/provider/provider.go:206-210 | the provider offers exactly the role resource |
| Provider.PostgresqlProvider.DataSources | internal/provider/provider.go:212-214 | the provider offers no data source |
| Provider.PostgresqlProvider.Configure | internal/provider/provider.go:83-204 | the unknown-attribute errors come first. Then either the pool fails to open (one more error), the version query fails, or parsing fails (one more error, no context); or the pool opened with `DatabaseUrl`, which ran only the version query, goes with the parsed type and version to both data sources and resources |

## Left out

- Network I/O and the `pgx` driver are not modelled. Every database
  answer is nondeterministic: a havoc'd value recorded in the pool's ghost
  log. Connection pooling, contexts and timeouts are not modelled.
- The transaction handle that `Begin` returns is folded into the pool. The
  log shows `BEGIN`, the statements in the transaction and its
  `COMMIT`/`ROLLBACK`, but not which connection served them.
- The framework's plumbing is not modelled:
  - `req.Plan.Get`, `req.State.Get`, `req.Config.Get` and their
    diagnostics;
  - `resp.State.Set` errors.
  A handler receives its plan, prior state or configuration as a value.
  The early return on a failed `Get` is left out.
- `Metadata`, `Schema`, plan modifiers and the `port` validator are not
  modelled. Schema defaults are used only as a concrete input
  (`DefaultOptionsString`).
- `tflog` logging is not modelled.
- RE2 is not modelled as an engine. Only the two fixed patterns are
  modelled, by their declarative meaning (`Captures`/`LeftmostCapture`).
- Diagnostics are structured `Problem` values. `Render` and `Diagnostics`
  give the framework's summary and detail texts. The `%s` of a Go error is
  its message string.
- The model has no null values for the role's attributes. An imported
  role's attributes other than `name` are modelled by their zero values
  until the next Read.
- PostgresqlRole.RoleResource.Create, Read, Update and Delete require a
  configured pool. In the source a nil pool is a nil-pointer panic, which
  is not modelled.
- The Terraform acceptance tests (`provider_test.go`,
  `resource_postgresql_role_test.go`) need a live database and are not
  modelled. `tools/tools.go` holds only build-tool imports.
- Provider.PostgresqlProvider.Configure: `max_connections` is only checked
  for unknown, because the source never uses it otherwise
  (`MaxConnectionsUnused`).
- Provider.UrlRoundTrip: stated only for credentials without `@` and hosts
  without `:`, because the source does no escaping and other inputs move
  the boundaries.
- Provider.ConfiguredUrlReadsBack: stated only for credentials without `@`
  and hosts without `:`, for the same reason.
