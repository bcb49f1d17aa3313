/**
 * The database as the handlers see it: a connection pool whose calls
 * succeed or fail, and the connection context the provider hands to every
 * resource (`PostgresqlProviderData` of internal/provider/provider.go).
 *
 * The pool and its transactions are foreign network I/O. Here every call
 * answers nondeterministically and appends what was asked and what was
 * answered to a ghost log, so a handler's contract can say which statements
 * it issued, in which order, and what it made of each answer. The
 * transaction handle that `Begin` returns is folded into the pool: the log
 * shows the `Begin`, the statements run in it, and its `Commit`/`Rollback`.
 */
module Connection {
  import opened Basics

  /** A Go `error` from a database call: nil (`Ok`) or an error with its message. */
  datatype Outcome = Ok | Failed(cause: string)

  /** The columns Read scans from `pg_roles`, in the order of its `SELECT`. */
  datatype RoleRow = RoleRow(
    bypassRowLevelSecurity: bool,
    canLogin: bool,
    connectionLimit: Basics.int32,
    createRole: bool,
    inherit: bool,
    name: string,
    replication: bool,
    superuser: bool)

  /** What `QueryRow(...).Scan(...)` gives: the row, `pgx.ErrNoRows`, or another error. */
  datatype RowResult<T> = Row(value: T) | NoRows | QueryFailed(cause: string)
  {
    /** The `%s` of the error (`pgx.ErrNoRows` reads "no rows in result set"). */
    function ErrorText(): string
      requires !Row?
    {
      if NoRows? then "no rows in result set" else cause
    }
  }

  /** One call on the pool or on its transaction, with its answer. */
  datatype Call =
    | BeginTx(result: Outcome)
    | Exec(sql: string, result: Outcome)
    | QueryOid(sql: string, oid: RowResult<uint32>)
    | QueryRole(sql: string, row: RowResult<RoleRow>)
    | QueryVersion(sql: string, version: RowResult<string>)
    | Commit(result: Outcome)
    | Rollback(result: Outcome)
  {
    /** The statement the call sends, with the transaction verbs spelled as SQL. */
    function Statement(): string {
      match this
      case BeginTx(_) => "BEGIN"
      case Exec(sql, _) => sql
      case QueryOid(sql, _) => sql
      case QueryRole(sql, _) => sql
      case QueryVersion(sql, _) => sql
      case Commit(_) => "COMMIT"
      case Rollback(_) => "ROLLBACK"
    }

    /** The call's error was nil. */
    predicate Succeeded() {
      match this
      case BeginTx(r) => r.Ok?
      case Exec(_, r) => r.Ok?
      case QueryOid(_, r) => r.Row?
      case QueryRole(_, r) => r.Row?
      case QueryVersion(_, r) => r.Row?
      case Commit(r) => r.Ok?
      case Rollback(r) => r.Ok?
    }
  }

  /** `*pgxpool.Pool`, with the log of everything asked of it. */
  class Pool {
    /** The connection string the pool was created with. */
    const url: string
    ghost var log: seq<Call>

    constructor (url: string)
      ensures this.url == url && log == []
    {
      this.url := url;
      log := [];
    }

    method Begin() returns (r: Outcome)
      modifies this
      ensures log == old(log) + [BeginTx(r)]
    {
      r := *;
      log := log + [BeginTx(r)];
    }

    method Exec(sql: string) returns (r: Outcome)
      modifies this
      ensures log == old(log) + [Call.Exec(sql, r)]
    {
      r := *;
      log := log + [Call.Exec(sql, r)];
    }

    /** `QueryRow(sql).Scan(&oid)` into a `uint32`. */
    method QueryOid(sql: string) returns (r: RowResult<uint32>)
      modifies this
      ensures log == old(log) + [Call.QueryOid(sql, r)]
    {
      r := *;
      log := log + [Call.QueryOid(sql, r)];
    }

    /** `QueryRow(sql).Scan(...)` of the eight role columns. */
    method QueryRole(sql: string) returns (r: RowResult<RoleRow>)
      modifies this
      ensures log == old(log) + [Call.QueryRole(sql, r)]
    {
      r := *;
      log := log + [Call.QueryRole(sql, r)];
    }

    /** `QueryRow("SELECT VERSION();").Scan(&version)`. */
    method QueryVersion() returns (r: RowResult<string>)
      modifies this
      ensures log == old(log) + [Call.QueryVersion(VersionQuery, r)]
    {
      r := *;
      log := log + [Call.QueryVersion(VersionQuery, r)];
    }

    method Commit() returns (r: Outcome)
      modifies this
      ensures log == old(log) + [Call.Commit(r)]
    {
      r := *;
      log := log + [Call.Commit(r)];
    }

    method Rollback() returns (r: Outcome)
      modifies this
      ensures log == old(log) + [Call.Rollback(r)]
    {
      r := *;
      log := log + [Call.Rollback(r)];
    }
  }

  const VersionQuery := "SELECT VERSION();"

  /** `pgxpool.New(ctx, url)`: a fresh pool for the URL, or an error. */
  method NewPool(url: string) returns (pool: Pool?, err: Outcome)
    ensures err.Ok? <==> pool != null
    ensures pool != null ==> fresh(pool) && pool.url == url && pool.log == []
  {
    var ok: bool := *;
    if ok {
      pool := new Pool(url);
      err := Ok;
    } else {
      var cause: string := *;
      pool, err := null, Failed(cause);
    }
  }

  /** `PostgresqlProviderData`: the pool and the detected engine and version. */
  datatype ProviderData = ProviderData(dbPool: Pool?, dbType: string, dbVersion: string)
}
