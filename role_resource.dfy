/**
 * The `postgresql_role` resource (internal/provider/resource_postgresql_role.go):
 * its Configure, Create, Read, Update, Delete and ImportState handlers.
 *
 * Each handler that talks to the database is a method of `RoleResource`
 * proved against a function of the database's answers (`CreateRun`,
 * `ReadRun`, `UpdateRun`, `DeleteRun`). A `Run` is the list of calls the
 * handler made, in order, and its response; the method reports the answers
 * it was given as a ghost out-parameter, and its contract says that the
 * pool's log grew by exactly the run's calls and that the response is the
 * run's. The functions' contracts state what the handlers promise: the
 * order of the statements, a rollback exactly when a step of the
 * transaction failed, and saved state only on success.
 */
module PostgresqlRole {
  import opened Basics
  import opened Framework
  import opened Connection
  import opened RoleSql

  /** What a handler does to the saved state, in order. */
  datatype StateOp = SetState(model: RoleModel) | RemoveResource

  /** A handler's response: its diagnostics (rendered by `Diagnostics`) and what it did to the state. */
  datatype Response = Response(problems: seq<Problem>, state: seq<StateOp>)

  /** The calls a handler made, in order, and the response it gave. */
  datatype Run = Run(calls: seq<Call>, resp: Response)

  /**
   * The database's answers to a transaction's calls. A run reads only the
   * answers to the calls it reaches; Update and Delete have no oid query.
   */
  datatype TxAnswers = TxAnswers(begin: Outcome, exec: Outcome, oid: RowResult<uint32>, commit: Outcome, rollback: Outcome)

  /** What `req.ProviderData` holds when Configure is called. */
  datatype Supplied = NotConfigured | Data(data: ProviderData) | OtherType(typeName: string)

  // ---------------------------------------------------------------------
  // Diagnostics
  // ---------------------------------------------------------------------

  /**
   * The diagnostics the handlers add, by kind and with what they quote;
   * `Render` spells each out with the summary and detail of the source.
   */
  datatype Problem =
    | PoolError(cause: string)
    | DeletePoolError(cause: string)
    | RollbackError(cause: string)
    | ExecError(step: string, sql: string, cause: string)
    | OidError(query: string, cause: string)
    | CommitError(cause: string)
    | NoRowsWarning(name: string)
    | QueryError(sql: string, cause: string)
    | ConfigureTypeError(typeName: string)
  {
    /** Every kind but the missing-role warning is an error. */
    predicate IsError() {
      !NoRowsWarning?
    }
  }

  /** `Diagnostics.HasError()` over the handlers' diagnostics. */
  predicate HasErrors(problems: seq<Problem>) {
    exists i :: 0 <= i < |problems| && problems[i].IsError()
  }

  /** The diagnostic as the framework receives it: an error, or the warning. */
  function Render(p: Problem): (d: Diagnostic)
    ensures d.IsError() <==> p.IsError()
    ensures d.summary == Summary(p) && d.detail == Detail(p)
  {
    if p.IsError() then Error(Summary(p), Detail(p)) else Warning(Summary(p), Detail(p))
  }

  function Summary(p: Problem): string {
    match p
    case PoolError(_) => "DB Connection Pool Error"
    case DeletePoolError(_) => "DB Connection Pool Error"
    case RollbackError(_) => "Transaction Rollback Error"
    case ExecError(step, _, _) => "DB role " + step + " error"
    case OidError(_, _) => "Failed to retrieve role OID"
    case CommitError(_) => "DB transaction error"
    case NoRowsWarning(_) => "No results returned"
    case QueryError(_, _) => "DB Query Error"
    case ConfigureTypeError(_) => "Unexpected Resource Configure Type"
  }

  function Detail(p: Problem): string {
    match p
    case PoolError(cause) =>
      "Unable to start a new transaction creating a connection pool, got error: " + cause
    case DeletePoolError(cause) =>
      "Unable to start a new transaction, got error: " + cause
    case RollbackError(cause) =>
      "Unable to rollback transaction, got error: " + cause
    case ExecError(_, sql, cause) =>
      "Error executing query '" + sql + "', got error: " + cause
    case OidError(query, cause) =>
      "Error retrieving role OID with query `" + query + "`, got error: " + cause
    case CommitError(cause) =>
      "Error committing DB transaction, got error: " + cause
    case NoRowsWarning(name) =>
      "The Postgres role couldn't be found. role: " + name
    case QueryError(sql, cause) =>
      "SQL query to read role encountered an unexpected error, please share this with the developer, query=`"
      + sql + "`, error: " + cause
    case ConfigureTypeError(typeName) =>
      "Expected PostgresqlProviderData, got: " + typeName + ". Please report this issue to the provider developers."
  }

  /** The response's diagnostics, rendered: an error among them exactly when a problem is one. */
  function Diagnostics(problems: seq<Problem>): (ds: seq<Diagnostic>)
    ensures |ds| == |problems|
    ensures forall i :: 0 <= i < |ds| ==> ds[i] == Render(problems[i])
    ensures HasError(ds) <==> HasErrors(problems)
  {
    var ds := seq(|problems|, i requires 0 <= i < |problems| => Render(problems[i]));
    assert HasError(ds) ==> HasErrors(problems) by {
      if HasError(ds) {
        var i :| 0 <= i < |ds| && ds[i].IsError();
        assert problems[i].IsError();
      }
    }
    assert HasErrors(problems) ==> HasError(ds) by {
      if HasErrors(problems) {
        var i :| 0 <= i < |problems| && problems[i].IsError();
        assert ds[i].IsError();
      }
    }
    ds
  }

  // ---------------------------------------------------------------------
  // The shape of a transaction
  // ---------------------------------------------------------------------

  /** The run ends with a rollback. */
  predicate RolledBack(calls: seq<Call>) {
    |calls| > 0 && calls[|calls| - 1].Rollback?
  }

  /** The run ends with a rollback that failed. */
  predicate RollbackFailed(calls: seq<Call>) {
    RolledBack(calls) && !calls[|calls| - 1].Succeeded()
  }

  /** The calls without a closing rollback: the steps of the script that were sent. */
  function Steps(calls: seq<Call>): seq<Call> {
    if RolledBack(calls) then calls[..|calls| - 1] else calls
  }

  /** Every step of `script` went out, in order, and succeeded. */
  predicate Completed(calls: seq<Call>, script: seq<string>) {
    && |calls| == |script|
    && (forall i :: 0 <= i < |calls| ==> calls[i].Statement() == script[i] && calls[i].Succeeded())
  }

  /**
   * `calls` runs `script` as a transaction: the steps go out in the
   * script's order and stop at the first that fails; a rollback closes the
   * run exactly when `deferredRollback` is set, `Begin` succeeded and a
   * later step failed.
   */
  predicate RunsInTransaction(calls: seq<Call>, script: seq<string>, deferredRollback: bool) {
    var steps := Steps(calls);
    && 0 < |steps| <= |script|
    && (forall i :: 0 <= i < |steps| ==> steps[i].Statement() == script[i] && !steps[i].Rollback?)
    && (forall i :: 0 <= i < |steps| - 1 ==> steps[i].Succeeded())
    && (|steps| < |script| ==> !steps[|steps| - 1].Succeeded())
    && (RolledBack(calls) <==> deferredRollback && steps[0].Succeeded() && !steps[|steps| - 1].Succeeded())
  }

  /** A step after `Begin` failed: its error, then the deferred rollback and the rollback's own error, if any. */
  function Aborted(steps: seq<Call>, error: Problem, rollback: Outcome): Run {
    Run(steps + [Rollback(rollback)],
        Response([error] + (if rollback.Failed? then [RollbackError(rollback.cause)] else []), []))
  }

  /** An aborted run reports the step's error, and the rollback's when it failed too. */
  lemma AbortedReports(steps: seq<Call>, error: Problem, rollback: Outcome)
    requires error.IsError()
    ensures var r := Aborted(steps, error, rollback);
      && Steps(r.calls) == steps && RolledBack(r.calls)
      && (RollbackFailed(r.calls) <==> rollback.Failed?)
      && HasErrors(r.resp.problems) && r.resp.state == []
      && |r.resp.problems| == 1 + (if rollback.Failed? then 1 else 0)
  {
    assert Aborted(steps, error, rollback).resp.problems[0].IsError();
  }

  /** An aborted run whose last step failed did not complete any script, and counts its errors. */
  lemma AbortedIncomplete(steps: seq<Call>, error: Problem, rollback: Outcome, script: seq<string>)
    requires error.IsError() && |steps| > 0 && !steps[|steps| - 1].Succeeded()
    ensures var r := Aborted(steps, error, rollback);
      && HasErrors(r.resp.problems) && !Completed(r.calls, script)
      && |r.resp.problems| == 1 + (if RollbackFailed(r.calls) then 1 else 0)
  {
    var r := Aborted(steps, error, rollback);
    AbortedReports(steps, error, rollback);
    assert r.calls[|steps| - 1] == steps[|steps| - 1];
  }

  /**
   * A run that sent a prefix of `script` whose last step failed after a
   * successful `Begin`, and then rolled back, runs in a transaction.
   */
  lemma AbortedInTransaction(steps: seq<Call>, error: Problem, rollback: Outcome, script: seq<string>)
    requires error.IsError()
    requires 1 < |steps| <= |script|
    requires forall i :: 0 <= i < |steps| ==> steps[i].Statement() == script[i] && !steps[i].Rollback?
    requires forall i :: 0 <= i < |steps| - 1 ==> steps[i].Succeeded()
    requires !steps[|steps| - 1].Succeeded()
    ensures RunsInTransaction(Aborted(steps, error, rollback).calls, script, true)
  {
    AbortedReports(steps, error, rollback);
  }

  // ---------------------------------------------------------------------
  // Create
  // ---------------------------------------------------------------------

  /** What Create sends: begin, `CREATE ROLE`, the oid lookup by name, commit. */
  function CreateScript(createRoleSql: string, selectOidQuery: string): seq<string> {
    ["BEGIN", createRoleSql, selectOidQuery, "COMMIT"]
  }

  /**
   * Create, given the two statements it builds from the plan
   * (`CreateRoleSql`, `SelectOidSql`) and the database's answers.
   */
  function CreateRun(plan: RoleModel, createRoleSql: string, selectOidQuery: string, a: TxAnswers): (r: Run)
  {
    if a.begin.Failed? then
      Run([BeginTx(a.begin)], Response([PoolError(a.begin.cause)], []))
    else if a.exec.Failed? then
      Aborted([BeginTx(a.begin), Exec(createRoleSql, a.exec)],
              ExecError("creation", createRoleSql, a.exec.cause), a.rollback)
    else if !a.oid.Row? then
      Aborted([BeginTx(a.begin), Exec(createRoleSql, a.exec), QueryOid(selectOidQuery, a.oid)],
              OidError(selectOidQuery, a.oid.ErrorText()), a.rollback)
    else if a.commit.Failed? then
      Aborted([BeginTx(a.begin), Exec(createRoleSql, a.exec), QueryOid(selectOidQuery, a.oid), Commit(a.commit)],
              CommitError(a.commit.cause), a.rollback)
    else
      Run([BeginTx(a.begin), Exec(createRoleSql, a.exec), QueryOid(selectOidQuery, a.oid), Commit(a.commit)],
          Response([], [SetState(plan.(oid := Some(a.oid.value as int64)))]))
  }

  /**
   * Create's calls follow its script and stop at the first failure; the
   * deferred rollback runs exactly when a step after `Begin` failed.
   */
  lemma CreateRunsInTransaction(plan: RoleModel, createRoleSql: string, selectOidQuery: string, a: TxAnswers)
    ensures RunsInTransaction(CreateRun(plan, createRoleSql, selectOidQuery, a).calls,
                              CreateScript(createRoleSql, selectOidQuery), true)
  {
    var script := CreateScript(createRoleSql, selectOidQuery);
    var begin, exec, oid := BeginTx(a.begin), Exec(createRoleSql, a.exec), QueryOid(selectOidQuery, a.oid);
    if a.begin.Failed? {
    } else if a.exec.Failed? {
      AbortedInTransaction([begin, exec], ExecError("creation", createRoleSql, a.exec.cause), a.rollback, script);
    } else if !a.oid.Row? {
      AbortedInTransaction([begin, exec, oid], OidError(selectOidQuery, a.oid.ErrorText()), a.rollback, script);
    } else if a.commit.Failed? {
      AbortedInTransaction([begin, exec, oid, Commit(a.commit)], CommitError(a.commit.cause), a.rollback, script);
    } else {
      assert !RolledBack([begin, exec, oid, Commit(a.commit)]);
    }
  }

  /** Create saves state only when every step succeeded: the plan with the oid the lookup returned. */
  lemma CreateSavesOnlyOnSuccess(plan: RoleModel, createRoleSql: string, selectOidQuery: string, a: TxAnswers)
    ensures var r := CreateRun(plan, createRoleSql, selectOidQuery, a);
      && (r.resp.state != [] <==> Completed(r.calls, CreateScript(createRoleSql, selectOidQuery)))
      && (r.resp.state != [] ==>
            && |r.calls| == 4 && r.calls[2].QueryOid? && r.calls[2].oid.Row?
            && r.resp.state == [SetState(plan.(oid := Some(r.calls[2].oid.value as int64)))])
  {
    var r := CreateRun(plan, createRoleSql, selectOidQuery, a);
    if a.begin.Failed? {
      assert !r.calls[0].Succeeded();
    } else if a.exec.Failed? {
      assert !r.calls[1].Succeeded();
    } else if !a.oid.Row? {
      assert !r.calls[2].Succeeded();
    } else if a.commit.Failed? {
      assert !r.calls[3].Succeeded();
    }
  }

  /**
   * Create reports an error exactly when a step failed: one for the step,
   * and one more when the rollback after it failed too.
   */
  lemma CreateReportsFailure(plan: RoleModel, createRoleSql: string, selectOidQuery: string, a: TxAnswers)
    ensures var r := CreateRun(plan, createRoleSql, selectOidQuery, a);
      && (HasErrors(r.resp.problems) <==> !Completed(r.calls, CreateScript(createRoleSql, selectOidQuery)))
      && |r.resp.problems| ==
           (if Completed(r.calls, CreateScript(createRoleSql, selectOidQuery)) then 0 else 1)
           + (if RollbackFailed(r.calls) then 1 else 0)
  {
    var r := CreateRun(plan, createRoleSql, selectOidQuery, a);
    var script := CreateScript(createRoleSql, selectOidQuery);
    var begin, exec, oid := BeginTx(a.begin), Exec(createRoleSql, a.exec), QueryOid(selectOidQuery, a.oid);
    if a.begin.Failed? {
      assert r.resp.problems[0].IsError() && !r.calls[0].Succeeded();
    } else if a.exec.Failed? {
      AbortedIncomplete([begin, exec], ExecError("creation", createRoleSql, a.exec.cause), a.rollback, script);
    } else if !a.oid.Row? {
      AbortedIncomplete([begin, exec, oid], OidError(selectOidQuery, a.oid.ErrorText()), a.rollback, script);
    } else if a.commit.Failed? {
      AbortedIncomplete([begin, exec, oid, Commit(a.commit)], CommitError(a.commit.cause), a.rollback, script);
    }
  }

  // ---------------------------------------------------------------------
  // Update
  // ---------------------------------------------------------------------

  /** What Update sends: begin, `ALTER ROLE`, commit. */
  function UpdateScript(alterRoleSql: string): seq<string> {
    ["BEGIN", alterRoleSql, "COMMIT"]
  }

  /** Update, given the statement it builds from the plan (`AlterRoleSql`) and the database's answers. */
  function UpdateRun(plan: RoleModel, alterRoleSql: string, a: TxAnswers): (r: Run)
  {
    if a.begin.Failed? then
      Run([BeginTx(a.begin)], Response([PoolError(a.begin.cause)], []))
    else if a.exec.Failed? then
      Aborted([BeginTx(a.begin), Exec(alterRoleSql, a.exec)],
              ExecError("update", alterRoleSql, a.exec.cause), a.rollback)
    else if a.commit.Failed? then
      Aborted([BeginTx(a.begin), Exec(alterRoleSql, a.exec), Commit(a.commit)],
              CommitError(a.commit.cause), a.rollback)
    else
      Run([BeginTx(a.begin), Exec(alterRoleSql, a.exec), Commit(a.commit)], Response([], [SetState(plan)]))
  }

  /**
   * Update's calls follow its script and stop at the first failure; the
   * deferred rollback runs exactly when a step after `Begin` failed.
   */
  lemma UpdateRunsInTransaction(plan: RoleModel, alterRoleSql: string, a: TxAnswers)
    ensures RunsInTransaction(UpdateRun(plan, alterRoleSql, a).calls, UpdateScript(alterRoleSql), true)
  {
    var script := UpdateScript(alterRoleSql);
    var begin, exec := BeginTx(a.begin), Exec(alterRoleSql, a.exec);
    if a.begin.Failed? {
    } else if a.exec.Failed? {
      AbortedInTransaction([begin, exec], ExecError("update", alterRoleSql, a.exec.cause), a.rollback, script);
    } else if a.commit.Failed? {
      AbortedInTransaction([begin, exec, Commit(a.commit)], CommitError(a.commit.cause), a.rollback, script);
    } else {
      assert !RolledBack([begin, exec, Commit(a.commit)]);
    }
  }

  /** Update saves state only when every step succeeded, and then saves the plan as it is. */
  lemma UpdateSavesOnlyOnSuccess(plan: RoleModel, alterRoleSql: string, a: TxAnswers)
    ensures var r := UpdateRun(plan, alterRoleSql, a);
      && (r.resp.state != [] <==> Completed(r.calls, UpdateScript(alterRoleSql)))
      && (r.resp.state != [] ==> r.resp.state == [SetState(plan)])
  {
    var r := UpdateRun(plan, alterRoleSql, a);
    if a.begin.Failed? {
      assert !r.calls[0].Succeeded();
    } else if a.exec.Failed? {
      assert !r.calls[1].Succeeded();
    } else if a.commit.Failed? {
      assert !r.calls[2].Succeeded();
    }
  }

  /** Update reports an error exactly when a step failed, and one more when the rollback failed too. */
  lemma UpdateReportsFailure(plan: RoleModel, alterRoleSql: string, a: TxAnswers)
    ensures var r := UpdateRun(plan, alterRoleSql, a);
      && (HasErrors(r.resp.problems) <==> !Completed(r.calls, UpdateScript(alterRoleSql)))
      && |r.resp.problems| ==
           (if Completed(r.calls, UpdateScript(alterRoleSql)) then 0 else 1) + (if RollbackFailed(r.calls) then 1 else 0)
  {
    var r := UpdateRun(plan, alterRoleSql, a);
    var script := UpdateScript(alterRoleSql);
    var begin, exec := BeginTx(a.begin), Exec(alterRoleSql, a.exec);
    if a.begin.Failed? {
      assert r.resp.problems[0].IsError() && !r.calls[0].Succeeded();
    } else if a.exec.Failed? {
      AbortedIncomplete([begin, exec], ExecError("update", alterRoleSql, a.exec.cause), a.rollback, script);
    } else if a.commit.Failed? {
      AbortedIncomplete([begin, exec, Commit(a.commit)], CommitError(a.commit.cause), a.rollback, script);
    } else {
      assert r.resp.problems == [] && !RolledBack(r.calls);
    }
  }

  // ---------------------------------------------------------------------
  // Delete
  // ---------------------------------------------------------------------

  /** What Delete sends: begin, `DROP ROLE`, commit. */
  function DeleteScript(dropRoleSql: string): seq<string> {
    ["BEGIN", dropRoleSql, "COMMIT"]
  }

  /**
   * Delete, given the statement it builds from the prior state
   * (`DropRoleSql`) and the database's answers. It registers no deferred
   * rollback: a failed `DROP ROLE` or commit leaves the transaction open.
   */
  function DeleteRun(dropRoleSql: string, a: TxAnswers): Run {
    if a.begin.Failed? then
      Run([BeginTx(a.begin)], Response([DeletePoolError(a.begin.cause)], []))
    else if a.exec.Failed? then
      Run([BeginTx(a.begin), Exec(dropRoleSql, a.exec)],
          Response([ExecError("deletion", dropRoleSql, a.exec.cause)], []))
    else if a.commit.Failed? then
      Run([BeginTx(a.begin), Exec(dropRoleSql, a.exec), Commit(a.commit)],
          Response([CommitError(a.commit.cause)], []))
    else
      Run([BeginTx(a.begin), Exec(dropRoleSql, a.exec), Commit(a.commit)], Response([], []))
  }

  /** Delete's calls follow its script and stop at the first failure, and it never rolls back. */
  lemma DeleteNeverRollsBack(dropRoleSql: string, a: TxAnswers)
    ensures RunsInTransaction(DeleteRun(dropRoleSql, a).calls, DeleteScript(dropRoleSql), false)
    ensures forall i :: 0 <= i < |DeleteRun(dropRoleSql, a).calls| ==> !DeleteRun(dropRoleSql, a).calls[i].Rollback?
  {
  }

  /** Delete saves nothing, and reports one error exactly when a step failed. */
  lemma DeleteReportsFailure(dropRoleSql: string, a: TxAnswers)
    ensures var r := DeleteRun(dropRoleSql, a);
      && r.resp.state == []
      && (HasErrors(r.resp.problems) <==> !Completed(r.calls, DeleteScript(dropRoleSql)))
      && |r.resp.problems| == (if Completed(r.calls, DeleteScript(dropRoleSql)) then 0 else 1)
  {
    var r := DeleteRun(dropRoleSql, a);
    if a.begin.Failed? {
      assert r.resp.problems[0].IsError() && !r.calls[0].Succeeded();
    } else if a.exec.Failed? {
      assert r.resp.problems[0].IsError() && !r.calls[1].Succeeded();
    } else if a.commit.Failed? {
      assert r.resp.problems[0].IsError() && !r.calls[2].Succeeded();
    }
  }

  // ---------------------------------------------------------------------
  // Read
  // ---------------------------------------------------------------------

  /** `Oid.ValueInt64()`: a null oid reads as 0. */
  function OidValue(oid: Option<int64>): int64 {
    if oid.Some? then oid.value else 0
  }

  /** The seven options a scanned row carries. */
  function RowOptions(row: RoleRow): RoleOptions {
    RoleOptions(row.bypassRowLevelSecurity, row.canLogin, row.connectionLimit,
                row.createRole, row.inherit, row.replication, row.superuser)
  }

  /**
   * The model Read saves: the prior state with the seven options replaced
   * by the row's. The scanned `rolname` is not copied back.
   */
  function Refreshed(prior: RoleModel, row: RoleRow): (m: RoleModel)
    ensures m.oid == prior.oid && m.name == prior.name
    ensures OptionsOf(m) == RowOptions(row)
  {
    prior.(bypassRowLevelSecurity := row.bypassRowLevelSecurity,
           canLogin := row.canLogin,
           connectionLimit := row.connectionLimit,
           createRole := row.createRole,
           inherit := row.inherit,
           replication := row.replication,
           superuser := row.superuser)
  }

  /** The Go zero values that Scan leaves in its targets when no row comes back. */
  const ZeroRow := RoleRow(false, false, 0, false, false, "", false, false)

  /** Read's query, by the oid of the prior state. */
  function ReadQuery(prior: RoleModel): string {
    SelectRoleSql(OidValue(prior.oid))
  }

  /**
   * Read, given the database's reply. On no rows it warns and removes the
   * resource, then carries on and saves the prior state refreshed from the
   * zero row, so the resource stays in the state.
   */
  function ReadRun(prior: RoleModel, reply: RowResult<RoleRow>): (r: Run)
    ensures r.calls == [QueryRole(ReadQuery(prior), reply)]
    ensures HasErrors(r.resp.problems) <==> reply.QueryFailed?
    ensures reply.QueryFailed? ==> r.resp.state == []
    ensures reply.Row? ==> r.resp == Response([], [SetState(Refreshed(prior, reply.value))])
    ensures reply.NoRows? ==>
      r.resp == Response([NoRowsWarning(prior.name)], [RemoveResource, SetState(Refreshed(prior, ZeroRow))])
  {
    var roleSql := ReadQuery(prior);
    match reply
    case QueryFailed(cause) =>
      assert [QueryError(roleSql, cause)][0].IsError();
      Run([QueryRole(roleSql, reply)], Response([QueryError(roleSql, cause)], []))
    case NoRows =>
      Run([QueryRole(roleSql, reply)],
          Response([NoRowsWarning(prior.name)], [RemoveResource, SetState(Refreshed(prior, ZeroRow))]))
    case Row(row) =>
      Run([QueryRole(roleSql, reply)], Response([], [SetState(Refreshed(prior, row))]))
  }

  /**
   * Whatever the reply other than a query error, Read's last state operation
   * saves the prior state's oid and name; only a query error leaves the
   * state untouched.
   */
  lemma ReadKeepsIdentity(prior: RoleModel, reply: RowResult<RoleRow>)
    ensures var st := ReadRun(prior, reply).resp.state;
      !reply.QueryFailed? ==>
        && |st| > 0 && st[|st| - 1].SetState?
        && st[|st| - 1].model.oid == prior.oid && st[|st| - 1].model.name == prior.name
  {
  }

  /**
   * When the role is gone, the saved options are the Go zero values:
   * NOINHERIT and `CONNECTION LIMIT 0`, not the schema defaults.
   */
  lemma ReadMissingRoleSavesZeroOptions(prior: RoleModel)
    ensures var st := ReadRun(prior, NoRows).resp.state;
      && st[|st| - 1].SetState?
      && OptionsOf(st[|st| - 1].model) == RoleOptions(false, false, 0, false, false, false, false)
  {
  }

  // ---------------------------------------------------------------------
  // ImportState
  // ---------------------------------------------------------------------

  /** The state `ImportStatePassthroughID` leaves: the id as the name, every other attribute null. */
  function ImportedModel(id: string): (m: RoleModel)
    ensures m.name == id && m.oid.None?
  {
    RoleModel(None, id, false, false, 0, false, false, false, false)
  }

  /** ImportState: no diagnostics, and the imported model saved. */
  function ImportState(id: string): (r: Response)
    ensures r.problems == [] && |r.state| == 1 && r.state[0].SetState?
    ensures r.state[0].model.name == id && r.state[0].model.oid.None?
  {
    Response([], [SetState(ImportedModel(id))])
  }

  /**
   * The Read that follows an import looks the role up by oid 0, whatever
   * name was imported: the name never reaches the query.
   */
  lemma ImportedRoleReadByOidZero(id: string, reply: RowResult<RoleRow>)
    ensures ReadRun(ImportState(id).state[0].model, reply).calls == [QueryRole(SelectRoleSql(0), reply)]
    ensures SelectRoleOid(ReadRun(ImportState(id).state[0].model, reply).calls[0].Statement()) == Some(0)
  {
    var m := ImportState(id).state[0].model;
    assert ReadQuery(m) == SelectRoleSql(0);
    assert ReadRun(m, reply).calls[0].Statement() == SelectRoleSql(0);
    SelectRoleSqlRoundTrip(0);
  }

  // ---------------------------------------------------------------------
  // The resource object
  // ---------------------------------------------------------------------

  /** `RoleResource`: the handlers and the connection context they use. */
  class RoleResource {
    var data: ProviderData

    /** `NewRoleResource`: a resource whose connection context is the zero value. */
    constructor ()
      ensures data == ProviderData(null, "", "")
    {
      data := ProviderData(null, "", "");
    }

    /** Configure: keep the provider's connection context, if it is one. */
    method Configure(supplied: Supplied) returns (problems: seq<Problem>)
      modifies this
      ensures supplied.Data? ==> data == supplied.data && problems == []
      ensures supplied.NotConfigured? ==> data == old(data) && problems == []
      ensures supplied.OtherType? ==>
        data == old(data) && problems == [ConfigureTypeError(supplied.typeName)]
    {
      problems := [];
      match supplied
      case NotConfigured =>
        return;
      case OtherType(typeName) =>
        problems := problems + [ConfigureTypeError(typeName)];
        return;
      case Data(d) =>
        data := d;
    }

    /**
     * The deferred function of Create and Update: when `err` is set, roll
     * the transaction back and report the rollback's own error, if any.
     */
    static method RollbackIfFailed(pool: Pool, err: Outcome, diagnostics: seq<Problem>)
      returns (result: seq<Problem>, ghost rollback: Outcome)
      modifies pool
      ensures err.Ok? ==> pool.log == old(pool.log) && result == diagnostics
      ensures err.Failed? ==>
        && pool.log == old(pool.log) + [Rollback(rollback)]
        && result == diagnostics + (if rollback.Failed? then [RollbackError(rollback.cause)] else [])
    {
      result := diagnostics;
      rollback := Ok;
      if err.Failed? {
        var rbErr := pool.Rollback();
        rollback := rbErr;
        if rbErr.Failed? {
          result := result + [RollbackError(rbErr.cause)];
        }
      }
    }

    /** Create: `CREATE ROLE`, read back the oid, commit, save the plan with the oid. */
    method Create(plan: RoleModel) returns (resp: Response, ghost answers: TxAnswers)
      requires data.dbPool != null
      modifies data.dbPool
      ensures data.dbPool.log == old(data.dbPool.log) + CreateRun(plan, CreateRoleSql(plan.name, GetOptionsString(plan)), SelectOidSql(plan.name), answers).calls
      ensures resp == CreateRun(plan, CreateRoleSql(plan.name, GetOptionsString(plan)), SelectOidSql(plan.name), answers).resp
    {
      var pool := data.dbPool;
      ghost var log0 := pool.log;
      var err := pool.Begin();
      answers := TxAnswers(err, Ok, NoRows, Ok, Ok);
      if err.Failed? {
        return Response([PoolError(err.cause)], []), answers;
      }
      var diagnostics: seq<Problem> := [];
      ghost var rollback: Outcome;

      var createRoleSql := CreateRoleSql(plan.name, GetOptionsString(plan));
      err := pool.Exec(createRoleSql);
      answers := answers.(exec := err);
      assert pool.log == log0 + [BeginTx(answers.begin), Exec(createRoleSql, err)];
      if err.Failed? {
        diagnostics := diagnostics + [ExecError("creation", createRoleSql, err.cause)];
        diagnostics, rollback := RollbackIfFailed(pool, err, diagnostics);
        return Response(diagnostics, []), answers.(rollback := rollback);
      }

      var selectOidQuery := SelectOidSql(plan.name);
      var roleOid := pool.QueryOid(selectOidQuery);
      answers := answers.(oid := roleOid);
      assert pool.log == log0 + [BeginTx(answers.begin), Exec(createRoleSql, answers.exec), QueryOid(selectOidQuery, roleOid)];
      if !roleOid.Row? {
        err := Failed(roleOid.ErrorText());
        diagnostics := diagnostics + [OidError(selectOidQuery, roleOid.ErrorText())];
        diagnostics, rollback := RollbackIfFailed(pool, err, diagnostics);
        return Response(diagnostics, []), answers.(rollback := rollback);
      }
      err := Ok;
      var model := plan.(oid := Some(roleOid.value as int64));

      err := pool.Commit();
      answers := answers.(commit := err);
      if err.Failed? {
        diagnostics := diagnostics + [CommitError(err.cause)];
        diagnostics, rollback := RollbackIfFailed(pool, err, diagnostics);
        return Response(diagnostics, []), answers.(rollback := rollback);
      }

      diagnostics, rollback := RollbackIfFailed(pool, err, diagnostics);
      resp := Response(diagnostics, [SetState(model)]);
    }

    /** Read: fetch the role's options by oid and save them over the prior state. */
    method Read(prior: RoleModel) returns (resp: Response, ghost reply: RowResult<RoleRow>)
      requires data.dbPool != null
      modifies data.dbPool
      ensures data.dbPool.log == old(data.dbPool.log) + ReadRun(prior, reply).calls
      ensures resp == ReadRun(prior, reply).resp
    {
      var model := prior;
      var diagnostics: seq<Problem> := [];
      var state: seq<StateOp> := [];
      var roleSql := SelectRoleSql(OidValue(model.oid));

      var row := ZeroRow;
      var result := data.dbPool.QueryRole(roleSql);
      reply := result;
      if result.Row? {
        row := result.value;
      } else if result.NoRows? {
        diagnostics := diagnostics + [NoRowsWarning(model.name)];
        state := state + [RemoveResource];
      } else {
        diagnostics := diagnostics + [QueryError(roleSql, result.cause)];
        return Response(diagnostics, state), reply;
      }

      // The seven `dataFromState.X = types.XValue(x)` assignments.
      model := Refreshed(model, row);

      state := state + [SetState(model)];
      resp := Response(diagnostics, state);
    }

    /** Update: `ALTER ROLE` with the planned options, commit, save the plan. */
    method Update(plan: RoleModel) returns (resp: Response, ghost answers: TxAnswers)
      requires data.dbPool != null
      modifies data.dbPool
      ensures data.dbPool.log == old(data.dbPool.log) + UpdateRun(plan, AlterRoleSql(plan.name, GetOptionsString(plan)), answers).calls
      ensures resp == UpdateRun(plan, AlterRoleSql(plan.name, GetOptionsString(plan)), answers).resp
    {
      var pool := data.dbPool;
      var err := pool.Begin();
      answers := TxAnswers(err, Ok, NoRows, Ok, Ok);
      if err.Failed? {
        return Response([PoolError(err.cause)], []), answers;
      }
      var diagnostics: seq<Problem> := [];
      ghost var rollback: Outcome;

      var alterRoleSql := AlterRoleSql(plan.name, GetOptionsString(plan));
      err := pool.Exec(alterRoleSql);
      answers := answers.(exec := err);
      if err.Failed? {
        diagnostics := diagnostics + [ExecError("update", alterRoleSql, err.cause)];
        diagnostics, rollback := RollbackIfFailed(pool, err, diagnostics);
        return Response(diagnostics, []), answers.(rollback := rollback);
      }

      err := pool.Commit();
      answers := answers.(commit := err);
      if err.Failed? {
        diagnostics := diagnostics + [CommitError(err.cause)];
        diagnostics, rollback := RollbackIfFailed(pool, err, diagnostics);
        return Response(diagnostics, []), answers.(rollback := rollback);
      }

      diagnostics, rollback := RollbackIfFailed(pool, err, diagnostics);
      resp := Response(diagnostics, [SetState(plan)]);
    }

    /** Delete: `DROP ROLE` and commit, with no rollback on failure. */
    method Delete(prior: RoleModel) returns (resp: Response, ghost answers: TxAnswers)
      requires data.dbPool != null
      modifies data.dbPool
      ensures data.dbPool.log == old(data.dbPool.log) + DeleteRun(DropRoleSql(prior.name), answers).calls
      ensures resp == DeleteRun(DropRoleSql(prior.name), answers).resp
    {
      var pool := data.dbPool;
      var err := pool.Begin();
      answers := TxAnswers(err, Ok, NoRows, Ok, Ok);
      if err.Failed? {
        return Response([DeletePoolError(err.cause)], []), answers;
      }

      var dropRoleSql := DropRoleSql(prior.name);
      err := pool.Exec(dropRoleSql);
      answers := answers.(exec := err);
      if err.Failed? {
        return Response([ExecError("deletion", dropRoleSql, err.cause)], []), answers;
      }

      err := pool.Commit();
      answers := answers.(commit := err);
      if err.Failed? {
        return Response([CommitError(err.cause)], []), answers;
      }
      resp := Response([], []);
    }
  }
}
