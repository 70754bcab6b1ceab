/** The SQL Server backend (`Mssql`). Every operation is a series of SQL
    statements sent through `_run_sql`; the server is an oracle that says
    how the k-th connection and statement went. The pure functions here say
    which statements an operation sends and how it ends; the class runs
    them imperatively and is proved to do exactly that. */
module Mssql {
  import opened Wrappers
  import opened Text
  import DbTools

  /** The fields the backend never changes after construction. */
  datatype MsDb = MsDb(conn: DbTools.Connection, dbFilesDir: string, backupPath: string)

  /** `Mssql.__init__`: the backup is `<backup_dir>\<name>.bak`. */
  function NewDb(cfg: DbTools.DbConfig): (d: MsDb)
    ensures d.conn == DbTools.FromConfig(cfg) && d.dbFilesDir == cfg.mssqlDbDir
    ensures d.backupPath == cfg.backupDir + "\\" + cfg.name + ".bak"
  {
    MsDb(DbTools.FromConfig(cfg), cfg.mssqlDbDir, cfg.backupDir + "\\" + cfg.name + ".bak")
  }

  // ---------------------------------------------------------------------
  // One statement

  /** What one `_run_sql` hands to `pymssql.connect` and `execute`; server,
      user and password are the constant connection fields and are left
      out. `database` is present exactly for connections to the current
      database. */
  datatype SqlCall = SqlCall(sql: string, timeout: nat, database: Option<string>, port: string)

  /** `pymssql.InterfaceError` and `pymssql.DatabaseError` (with its
      subclasses, `OperationalError` among them). */
  datatype ErrKind = InterfaceErr | DatabaseErr

  /** How the server answered one call: whether connecting or executing
      raised, the cursor's row count and the rows a query fetches. */
  datatype SqlReply = SqlReply(connectError: Option<ErrKind>, executeError: Option<ErrKind>, rowcount: int, rows: seq<seq<string>>)

  datatype SqlValue = Count(n: int) | Rows(rows: seq<seq<string>>)

  /** `Sql` is an error raised by `pymssql`; the others are the Python
      errors raised on malformed results. `Unsettled` is the model's own:
      the size wait was still going after the readings the model follows. */
  datatype MsError = Sql(kind: ErrKind) | IndexError | ValueError | Unsettled

  /** The port actually used: `1433` when none is set. */
  function EffectivePort(p: Option<string>): string {
    if IsSet(p) then p.value else "1433"
  }

  /** Once defaulted, the port stays what it became. */
  lemma PortDefaultPersists(p: Option<string>)
    ensures IsSet(Some(EffectivePort(p)))
    ensures EffectivePort(Some(EffectivePort(p))) == EffectivePort(p)
    ensures IsSet(p) ==> EffectivePort(p) == p.value
  {
  }

  function Call(db: MsDb, port: string, sql: string, timeout: nat, current: bool): (c: SqlCall)
    ensures c.database.Some? <==> current
    ensures current ==> c.database.value == db.conn.name
  {
    SqlCall(sql, timeout, if current then Some(db.conn.name) else None, port)
  }

  /** The error policy of `_run_sql`: a connection error always raises, an
      execution error raises unless `ignore_errors` is set, and the result
      is the row count for a statement and the fetched rows for a query. */
  function Answer(reply: SqlReply, query: bool, ignore: bool): Result<SqlValue, MsError> {
    if reply.connectError.Some? then Err(Sql(reply.connectError.value))
    else if reply.executeError.Some? && !ignore then Err(Sql(reply.executeError.value))
    else if query then Ok(Rows(reply.rows))
    else Ok(Count(reply.rowcount))
  }

  /** `_run_sql` raises exactly on a connection error or an execution
      error that is not ignored, always with the driver's own error, and
      otherwise hands back the rows of a query or the row count of a
      statement. */
  lemma AnswerCases(reply: SqlReply, query: bool, ignore: bool)
    ensures var r := Answer(reply, query, ignore);
            (r.Err? <==> reply.connectError.Some? || (reply.executeError.Some? && !ignore)) &&
            (reply.connectError.Some? ==> r == Err(Sql(reply.connectError.value))) &&
            (reply.connectError.None? && r.Err? ==> r == Err(Sql(reply.executeError.value))) &&
            (r.Ok? ==> r.value == (if query then Rows(reply.rows) else Count(reply.rowcount)))
  {
  }

  // ---------------------------------------------------------------------
  // Straight-line series of statements

  /** A statement (not a query) of a fixed series. */
  datatype SqlStep = SqlStep(sql: string, timeout: nat, current: bool, ignore: bool)

  datatype MsRun = MsRun(calls: seq<SqlCall>, outcome: Outcome<MsError>)

  function StepCall(db: MsDb, port: string, s: SqlStep): SqlCall {
    Call(db, port, s.sql, s.timeout, s.current)
  }

  predicate StepFails(s: SqlStep, reply: SqlReply) {
    Answer(reply, false, s.ignore).Err?
  }

  /** Runs `steps` from the `k`-th call on, up to and including the first
      one that raises. */
  function Exec(db: MsDb, port: string, steps: seq<SqlStep>, server: nat -> SqlReply, k: nat): (r: MsRun)
    ensures |r.calls| <= |steps|
    ensures r.outcome.Pass? ==> |r.calls| == |steps|
    ensures r.outcome.Fail? ==> |r.calls| >= 1
    decreases |steps|
  {
    if steps == [] then MsRun([], Pass)
    else
      var a := Answer(server(k), false, steps[0].ignore);
      if a.Err? then MsRun([StepCall(db, port, steps[0])], Fail(a.error))
      else
        var rest := Exec(db, port, steps[1..], server, k + 1);
        MsRun([StepCall(db, port, steps[0])] + rest.calls, rest.outcome)
  }

  /** Runs `first`, and `second` after it unless `first` raised. */
  function Then(first: MsRun, second: MsRun): MsRun {
    if first.outcome.Fail? then first else MsRun(first.calls + second.calls, second.outcome)
  }

  lemma AppendAssoc(a: seq<SqlCall>, b: seq<SqlCall>, c: seq<SqlCall>)
    ensures a + (b + c) == (a + b) + c
  {
  }

  /** A run as the object makes it: `sent` is every call made before it,
      and the run only ever adds calls after those. */
  predicate Extends(r: MsRun, sent: seq<SqlCall>) {
    |sent| <= |r.calls| && r.calls[..|sent|] == sent
  }

  /** A fixed series run after the calls `sent`, so that its next step is
      call number `|sent|`; the result holds every call made when it ends. */
  function ExecTrace(db: MsDb, port: string, steps: seq<SqlStep>, server: nat -> SqlReply, sent: seq<SqlCall>): (r: MsRun)
    ensures Extends(r, sent)
    decreases |steps|
  {
    if steps == [] then MsRun(sent, Pass)
    else
      var now := sent + [StepCall(db, port, steps[0])];
      var a := Answer(server(|sent|), false, steps[0].ignore);
      if a.Err? then MsRun(now, Fail(a.error))
      else ExecTrace(db, port, steps[1..], server, now)
  }

  /** Running a series after `sent` appends exactly the calls of the series. */
  lemma {:induction false} ExecTraceIsExec(db: MsDb, port: string, steps: seq<SqlStep>, server: nat -> SqlReply, sent: seq<SqlCall>)
    ensures ExecTrace(db, port, steps, server, sent) ==
            MsRun(sent + Exec(db, port, steps, server, |sent|).calls, Exec(db, port, steps, server, |sent|).outcome)
    decreases |steps|
  {
    if steps == [] {
      assert sent + [] == sent;
    } else {
      var a := Answer(server(|sent|), false, steps[0].ignore);
      if a.Ok? {
        var now := sent + [StepCall(db, port, steps[0])];
        ExecTraceIsExec(db, port, steps[1..], server, now);
        AppendAssoc(sent, [StepCall(db, port, steps[0])], Exec(db, port, steps[1..], server, |sent| + 1).calls);
      }
    }
  }

  /** A series that runs through ends with its last step. */
  lemma {:induction false} ExecTraceLast(db: MsDb, port: string, steps: seq<SqlStep>, server: nat -> SqlReply, sent: seq<SqlCall>)
    requires |steps| >= 1
    ensures var r := ExecTrace(db, port, steps, server, sent);
            r.outcome.Pass? ==> |r.calls| >= 1 && r.calls[|r.calls| - 1] == StepCall(db, port, steps[|steps| - 1])
    decreases |steps|
  {
    if Answer(server(|sent|), false, steps[0].ignore).Ok? {
      var now := sent + [StepCall(db, port, steps[0])];
      if |steps| == 1 {
        assert steps[1..] == [];
      } else {
        ExecTraceLast(db, port, steps[1..], server, now);
        assert steps[1..][|steps| - 2] == steps[|steps| - 1];
      }
    }
  }

  /** Running two series one after the other is running their concatenation. */
  lemma {:induction false} ExecAppend(db: MsDb, port: string, a: seq<SqlStep>, b: seq<SqlStep>, server: nat -> SqlReply, k: nat)
    ensures Exec(db, port, a + b, server, k) ==
            Then(Exec(db, port, a, server, k), Exec(db, port, b, server, k + |a|))
    decreases |a|
  {
    if a != [] {
      assert (a + b)[0] == a[0];
      assert (a + b)[1..] == a[1..] + b;
      var ans := Answer(server(k), false, a[0].ignore);
      if ans.Ok? {
        ExecAppend(db, port, a[1..], b, server, k + 1);
        var tail := Exec(db, port, a[1..], server, k + 1);
        if tail.outcome.Pass? {
          assert [StepCall(db, port, a[0])] + (tail.calls + Exec(db, port, b, server, k + |a|).calls) ==
                 ([StepCall(db, port, a[0])] + tail.calls) + Exec(db, port, b, server, k + |a|).calls;
        }
      }
    } else {
      assert a + b == b;
    }
  }

  /** Extending a series that has run through by one step. */
  lemma ExecSnoc(db: MsDb, port: string, prefix: seq<SqlStep>, s: SqlStep, server: nat -> SqlReply, k: nat)
    requires Exec(db, port, prefix, server, k).outcome.Pass?
    ensures var prev := Exec(db, port, prefix, server, k);
            var a := Answer(server(k + |prefix|), false, s.ignore);
            Exec(db, port, prefix + [s], server, k) ==
              MsRun(prev.calls + [StepCall(db, port, s)], if a.Err? then Fail(a.error) else Pass)
  {
    ExecAppend(db, port, prefix, [s], server, k);
  }

  /** Once a prefix of a series has raised, the rest is never sent. */
  lemma ExecPrefixFails(db: MsDb, port: string, steps: seq<SqlStep>, j: nat, server: nat -> SqlReply, k: nat)
    requires j <= |steps| && Exec(db, port, steps[..j], server, k).outcome.Fail?
    ensures Exec(db, port, steps, server, k) == Exec(db, port, steps[..j], server, k)
  {
    ExecAppend(db, port, steps[..j], steps[j..], server, k);
    assert steps[..j] + steps[j..] == steps;
  }

  /** The first call of a series is its first step, and a first step that
      raises ends the series. */
  lemma ExecFirst(db: MsDb, port: string, steps: seq<SqlStep>, server: nat -> SqlReply, k: nat)
    requires |steps| >= 1
    ensures var r := Exec(db, port, steps, server, k);
            |r.calls| >= 1 && r.calls[0] == StepCall(db, port, steps[0]) &&
            (StepFails(steps[0], server(k)) ==> r == MsRun([StepCall(db, port, steps[0])], Fail(Answer(server(k), false, steps[0].ignore).error)))
  {
  }

  /** A series that runs through ends with its last step. */
  lemma {:induction false} ExecLast(db: MsDb, port: string, steps: seq<SqlStep>, server: nat -> SqlReply, k: nat)
    requires |steps| >= 1
    ensures var r := Exec(db, port, steps, server, k);
            r.outcome.Pass? ==> r.calls[|r.calls| - 1] == StepCall(db, port, steps[|steps| - 1])
    decreases |steps|
  {
    if |steps| > 1 && !StepFails(steps[0], server(k)) {
      ExecLast(db, port, steps[1..], server, k + 1);
    }
  }

  /** The calls of a series are its steps, in order. */
  lemma {:induction false} ExecCalls(db: MsDb, port: string, steps: seq<SqlStep>, server: nat -> SqlReply, k: nat)
    ensures var r := Exec(db, port, steps, server, k);
            forall i :: 0 <= i < |r.calls| ==> r.calls[i] == StepCall(db, port, steps[i])
    decreases |steps|
  {
    if steps != [] && Answer(server(k), false, steps[0].ignore).Ok? {
      ExecCalls(db, port, steps[1..], server, k + 1);
    }
  }

  /** A failed series ended on the step that raised, with that step's error. */
  lemma {:induction false} ExecFailure(db: MsDb, port: string, steps: seq<SqlStep>, server: nat -> SqlReply, k: nat)
    ensures var r := Exec(db, port, steps, server, k);
            r.outcome.Fail? ==>
              Err(r.outcome.error) == Answer(server(k + |r.calls| - 1), false, steps[|r.calls| - 1].ignore)
    decreases |steps|
  {
    if steps != [] && Answer(server(k), false, steps[0].ignore).Ok? {
      ExecFailure(db, port, steps[1..], server, k + 1);
      var rest := Exec(db, port, steps[1..], server, k + 1);
      if rest.outcome.Fail? {
        assert k + 1 + |rest.calls| - 1 == k + (1 + |rest.calls|) - 1;
      }
    }
  }

  /** A series succeeds exactly when none of its steps raises, and then
      every step was sent; a failure is the first step that raised. */
  lemma {:induction false} ExecPassesIff(db: MsDb, port: string, steps: seq<SqlStep>, server: nat -> SqlReply, k: nat)
    ensures var r := Exec(db, port, steps, server, k);
            r.outcome.Pass? <==> forall i :: 0 <= i < |steps| ==> !StepFails(steps[i], server(k + i))
    ensures var r := Exec(db, port, steps, server, k);
            forall i :: 0 <= i < |r.calls| - 1 ==> !StepFails(steps[i], server(k + i))
    decreases |steps|
  {
    if steps != [] && !StepFails(steps[0], server(k)) {
      ExecPassesIff(db, port, steps[1..], server, k + 1);
      forall i | 1 <= i < |steps|
        ensures StepFails(steps[i], server(k + i)) == StepFails(steps[1..][i - 1], server(k + 1 + (i - 1)))
      {
      }
    }
  }

  /** Only a step that does not ignore errors can fail on an execution
      error; a connection error fails any step. */
  lemma ExecFailsAtStrictStep(db: MsDb, port: string, steps: seq<SqlStep>, server: nat -> SqlReply, k: nat)
    ensures var r := Exec(db, port, steps, server, k);
            r.outcome.Fail? && server(k + |r.calls| - 1).connectError.None? ==> !steps[|r.calls| - 1].ignore
  {
    ExecFailure(db, port, steps, server, k);
  }

  // ---------------------------------------------------------------------
  // The fixed series

  const RatingPackages: string :=
    "truncate table FEFU_RATING_PKG_STUDENT_ROW; " +
    "alter table FEFU_RATING_PKG_STUDENT_ROW drop constraint fk_ratingpackage_96afe8ba; " +
    "truncate table FEFU_SENDING_RATING_PKG; " +
    "ALTER TABLE FEFU_RATING_PKG_STUDENT_ROW ADD CONSTRAINT fk_ratingpackage_96afe8ba " +
    "FOREIGN KEY (RATINGPACKAGE_ID) REFERENCES FEFU_SENDING_RATING_PKG(ID);"

  const Set11Sql: string :=
    "UPDATE principal_t SET LOGIN_P='1', passwordhash_p='c4ca4238a0b923820dcc509a6f75849b', passwordsalt_p=null " +
    "where " +
    "(EXISTS (select ID from PRINCIPAL_T where LOGIN_P='1')  and LOGIN_P='1') or " +
    "(not EXISTS (select ID from PRINCIPAL_T where LOGIN_P='1') and id=(select top 1 id from PRINCIPAL_T where id in (select PRINCIPAL_ID from ADMIN_T) and ACTIVE_P=1));"

  const LogTruncation: string :=
    "truncate table logeventproperty_t; " +
    "alter table logeventproperty_t drop constraint fk_event_logeventproperty; " +
    "truncate table logevent_t;"

  const NullBlobBatch: string :=
    "update top(1000) databasefile_t set content_p = null where content_p is not null and " +
    "(filename_p not in ('platform-variables.less', 'platform.css', 'shared.css') " +
    "or filename_p is null);"

  function CreateSteps(db: MsDb): seq<SqlStep> {
    var n := db.conn.name;
    var dir := db.dbFilesDir;
    [SqlStep("CREATE DATABASE " + n + " ON (NAME = " + n + "_Data, FILENAME = '" + dir + "\\" + n + ".mdf') " +
             "LOG ON (NAME = " + n + "_Log,  FILENAME = '" + dir + "\\" + n + ".ldf');",
             DbTools.QuickTimeout, false, false),
     SqlStep("ALTER DATABASE " + n + " SET READ_COMMITTED_SNAPSHOT ON;", DbTools.QuickTimeout, true, false),
     SqlStep("ALTER DATABASE " + n + " SET ALLOW_SNAPSHOT_ISOLATION ON;", DbTools.QuickTimeout, true, false)]
  }

  function BackupSteps(db: MsDb): seq<SqlStep> {
    [SqlStep("BACKUP DATABASE " + db.conn.name + " TO DISK = '" + db.backupPath + "' WITH INIT", DbTools.BackupTimeout, true, false)]
  }

  function CustomerPatchSteps(db: MsDb): seq<SqlStep> {
    var n := db.conn.name;
    [SqlStep("use " + n + "; " + RatingPackages, DbTools.QuickTimeout, true, true),
     SqlStep("use " + n + "; truncate table FEFUNSILOGROW_T", DbTools.QuickTimeout, true, true)]
  }

  function MapUserSchemaSteps(db: MsDb, user: string, schema: string): seq<SqlStep> {
    [SqlStep("use " + db.conn.name + "; CREATE USER " + user + " FOR LOGIN " + user + "; " +
             "ALTER USER " + user + " WITH DEFAULT_SCHEMA=" + schema + "; " +
             "exec sp_addrolemember 'db_owner', '" + user + "';",
             DbTools.QuickTimeout, true, true)]
  }

  function Set11Steps(db: MsDb): seq<SqlStep> {
    [SqlStep("use " + db.conn.name + "; " + Set11Sql, DbTools.QuickTimeout, true, true)]
  }

  /** An error-tolerant series only raises when a connection fails. */
  lemma TolerantSeriesOnlyFailOnConnect(db: MsDb, port: string, user: string, schema: string, server: nat -> SqlReply, k: nat)
    ensures var r := Exec(db, port, CustomerPatchSteps(db), server, k);
            r.outcome.Fail? ==> server(k + |r.calls| - 1).connectError.Some?
    ensures var r := Exec(db, port, MapUserSchemaSteps(db, user, schema), server, k);
            r.outcome.Fail? ==> server(k + |r.calls| - 1).connectError.Some?
    ensures var r := Exec(db, port, Set11Steps(db), server, k);
            r.outcome.Fail? ==> server(k + |r.calls| - 1).connectError.Some?
  {
    ExecFailsAtStrictStep(db, port, CustomerPatchSteps(db), server, k);
    ExecFailsAtStrictStep(db, port, MapUserSchemaSteps(db, user, schema), server, k);
    ExecFailsAtStrictStep(db, port, Set11Steps(db), server, k);
  }

  // ---------------------------------------------------------------------
  // has_default_backup

  function FileListSql(db: MsDb): string {
    "RESTORE FILELISTONLY FROM DISK = '" + db.backupPath + "'"
  }

  /** `has_default_backup` from the answer to `FILELISTONLY`: false exactly
      when it raised a `DatabaseError` (connecting or executing); an
      `InterfaceError` propagates. */
  function BackupProbe(reply: SqlReply): (r: Result<bool, MsError>)
    ensures r == Ok(false) <==> Answer(reply, true, false) == Err(Sql(DatabaseErr))
    ensures r == Ok(true) <==> Answer(reply, true, false).Ok?
    ensures r.Err? <==> Answer(reply, true, false) == Err(Sql(InterfaceErr))
  {
    var a := Answer(reply, true, false);
    if a.Ok? then Ok(true)
    else if a.error == Sql(DatabaseErr) then Ok(false)
    else
      assert a.error.Sql?;
      assert a.error.kind != DatabaseErr;
      assert a.error == Sql(InterfaceErr);
      Err(Sql(InterfaceErr))
  }

  // ---------------------------------------------------------------------
  // restore

  /** A row of `FILELISTONLY` the restore can read: logical name (0), type
      (2) and file index (6). */
  predicate LongEnough(row: seq<string>) {
    |row| >= 7
  }

  function Extension(row: seq<string>): string
    requires LongEnough(row)
  {
    if row[2] == "L" then "LDF" else "MDF"
  }

  /** Where a backup file is moved: `<db_files_dir>\<name>_<index>.<LDF|MDF>`. */
  function NewFileName(db: MsDb, row: seq<string>): string
    requires LongEnough(row)
  {
    db.dbFilesDir + "\\" + db.conn.name + "_" + row[6] + "." + Extension(row)
  }

  function MoveClause(db: MsDb, row: seq<string>): string
    requires LongEnough(row)
  {
    "MOVE '" + row[0] + "' TO '" + NewFileName(db, row) + "'"
  }

  /** One `MOVE` clause per file, in the order of the list. */
  function MoveClauses(db: MsDb, rows: seq<seq<string>>): (r: seq<string>)
    requires forall i :: 0 <= i < |rows| ==> LongEnough(rows[i])
    ensures |r| == |rows| && forall i :: 0 <= i < |rows| ==> r[i] == MoveClause(db, rows[i])
  {
    if rows == [] then []
    else MoveClauses(db, rows[..|rows| - 1]) + [MoveClause(db, rows[|rows| - 1])]
  }

  function RestoreSql(db: MsDb, rows: seq<seq<string>>): string
    requires forall i :: 0 <= i < |rows| ==> LongEnough(rows[i])
  {
    "RESTORE DATABASE " + db.conn.name + " FROM DISK = '" + db.backupPath + "' WITH RECOVERY, REPLACE, " +
    Join(", ", MoveClauses(db, rows)) + ";"
  }

  /** A log file is a `.LDF` file and everything else a `.MDF` file, and
      the file index is part of the new name; the new name lies in the
      database file directory. */
  lemma NewFileNameShape(db: MsDb, row: seq<string>)
    requires LongEnough(row)
    ensures var f := NewFileName(db, row);
            |f| >= 4 && (f[|f| - 4..] == ".LDF" <==> row[2] == "L") &&
            f == db.dbFilesDir + "\\" + db.conn.name + "_" + row[6] + f[|f| - 4..]
  {
    var f := NewFileName(db, row);
    var ext := Extension(row);
    assert f[|f| - 4..] == "." + ext;
    assert ".LDF" != ".MDF";
  }

  /** The logical name a restored file should have. */
  function GoodName(db: MsDb, row: seq<string>): string
    requires LongEnough(row)
  {
    db.conn.name + "_" + (if row[2] == "L" then "log" else row[6])
  }

  predicate NeedsRename(db: MsDb, row: seq<string>)
    requires LongEnough(row)
  {
    Lower(row[0]) != GoodName(db, row)
  }

  function RenameStep(db: MsDb, row: seq<string>): SqlStep
    requires LongEnough(row)
  {
    SqlStep("ALTER DATABASE " + db.conn.name + " MODIFY FILE (NAME = '" + Lower(row[0]) + "', NEWNAME = '" + GoodName(db, row) + "')",
            DbTools.QuickTimeout, true, false)
  }

  /** The rename a row asks for; a row too short to read asks for none
      (the restore never gets this far with one). */
  function RenameOf(db: MsDb, row: seq<string>): seq<SqlStep> {
    if LongEnough(row) && NeedsRename(db, row) then [RenameStep(db, row)] else []
  }

  /** The renames issued after the restore, in the order of the list. */
  function Renames(db: MsDb, rows: seq<seq<string>>): seq<SqlStep> {
    if rows == [] then []
    else Renames(db, rows[..|rows| - 1]) + RenameOf(db, rows[|rows| - 1])
  }

  /** A rename is issued for every file whose lower-cased logical name is
      not the good one. */
  lemma {:induction false} RenamesComplete(db: MsDb, rows: seq<seq<string>>)
    requires forall i :: 0 <= i < |rows| ==> LongEnough(rows[i])
    ensures forall i :: 0 <= i < |rows| && NeedsRename(db, rows[i]) ==> RenameStep(db, rows[i]) in Renames(db, rows)
  {
    if rows != [] {
      var init := rows[..|rows| - 1];
      assert forall i :: 0 <= i < |init| ==> init[i] == rows[i];
      RenamesComplete(db, init);
    }
  }

  /** Every rename issued is the one of a file that needs it, and there is
      at most one per file. */
  lemma {:induction false} RenamesSound(db: MsDb, rows: seq<seq<string>>)
    requires forall i :: 0 <= i < |rows| ==> LongEnough(rows[i])
    ensures forall s :: s in Renames(db, rows) ==>
              exists i :: 0 <= i < |rows| && NeedsRename(db, rows[i]) && s == RenameStep(db, rows[i])
    ensures |Renames(db, rows)| <= |rows|
  {
    if rows != [] {
      var init := rows[..|rows| - 1];
      assert forall i :: 0 <= i < |init| ==> init[i] == rows[i];
      RenamesSound(db, init);
    }
  }

  /** Which error reading the file list raises, if any: any row too short
      for the restore makes the `MOVE` loop raise `IndexError`. */
  predicate AllLongEnough(rows: seq<seq<string>>) {
    forall i :: 0 <= i < |rows| ==> LongEnough(rows[i])
  }

  /** What `restore` does once the file list is read, after the calls
      `sent`: restore with one `MOVE` per file, then rename the files whose
      logical name is not the good one. */
  function RestoreFromTrace(db: MsDb, port: string, rows: seq<seq<string>>, server: nat -> SqlReply, sent: seq<SqlCall>): (r: MsRun)
    ensures Extends(r, sent)
  {
    if !AllLongEnough(rows) then MsRun(sent, Fail(IndexError))
    else
      var now := sent + [Call(db, port, RestoreSql(db, rows), DbTools.RestoreTimeout, false)];
      var b := Answer(server(|sent|), false, false);
      if b.Err? then MsRun(now, Fail(b.error))
      else ExecTrace(db, port, Renames(db, rows), server, now)
  }

  /** `restore` after the calls `sent`: list the files of the backup, then
      restore from that list. */
  function RestoreTrace(db: MsDb, port: string, server: nat -> SqlReply, sent: seq<SqlCall>): (r: MsRun)
    ensures Extends(r, sent)
  {
    var now := sent + [Call(db, port, FileListSql(db), DbTools.QuickTimeout, false)];
    var a := Answer(server(|sent|), true, false);
    if a.Err? then MsRun(now, Fail(a.error))
    else RestoreFromTrace(db, port, a.value.rows, server, now)
  }

  /** `restore` first lists the backup's files. The database is only
      restored from a file list every row of which could be read, and the
      renames, exactly those the list asks for, only follow a restore that
      succeeded. */
  lemma RestoreOrder(db: MsDb, port: string, server: nat -> SqlReply, sent: seq<SqlCall>)
    ensures var r := RestoreTrace(db, port, server, sent);
            |r.calls| >= |sent| + 1 && r.calls[|sent|] == Call(db, port, FileListSql(db), DbTools.QuickTimeout, false)
    ensures var r := RestoreTrace(db, port, server, sent);
            |r.calls| >= |sent| + 2 ==>
              Answer(server(|sent|), true, false).Ok? && AllLongEnough(Answer(server(|sent|), true, false).value.rows) &&
              r.calls[|sent| + 1] == Call(db, port, RestoreSql(db, Answer(server(|sent|), true, false).value.rows), DbTools.RestoreTimeout, false)
    ensures var r := RestoreTrace(db, port, server, sent);
            |r.calls| >= |sent| + 3 ==> Answer(server(|sent| + 1), false, false).Ok?
    ensures var a := Answer(server(|sent|), true, false);
            a.Ok? && AllLongEnough(a.value.rows) && Answer(server(|sent| + 1), false, false).Ok? ==>
              var e := Exec(db, port, Renames(db, a.value.rows), server, |sent| + 2);
              RestoreTrace(db, port, server, sent) ==
                MsRun(sent + [Call(db, port, FileListSql(db), DbTools.QuickTimeout, false),
                              Call(db, port, RestoreSql(db, a.value.rows), DbTools.RestoreTimeout, false)] + e.calls,
                      e.outcome)
  {
    var list := Call(db, port, FileListSql(db), DbTools.QuickTimeout, false);
    var now := sent + [list];
    assert now[|sent|] == list;
    var a := Answer(server(|sent|), true, false);
    if a.Ok? && AllLongEnough(a.value.rows) {
      var rows := a.value.rows;
      var restore := Call(db, port, RestoreSql(db, rows), DbTools.RestoreTimeout, false);
      var now2 := now + [restore];
      assert now2[|sent|] == list && now2[|sent| + 1] == restore;
      if Answer(server(|now|), false, false).Ok? {
        ExecTraceIsExec(db, port, Renames(db, rows), server, now2);
        assert sent + [list, restore] == now2;
      }
    }
  }

  // ---------------------------------------------------------------------
  // reduce

  const SizeBefore: int := 999999999

  function RecoverySimple(db: MsDb): SqlStep {
    SqlStep("ALTER DATABASE " + db.conn.name + " SET RECOVERY SIMPLE; ", DbTools.QuickTimeout, true, false)
  }

  function RecoveryFull(db: MsDb): SqlStep {
    SqlStep("ALTER DATABASE " + db.conn.name + " SET RECOVERY FULL; ", DbTools.QuickTimeout, true, false)
  }

  function ShrinkLog(db: MsDb): SqlStep {
    SqlStep("use " + db.conn.name + "; DBCC SHRINKFILE (" + db.conn.name + "_log, 1);", DbTools.MiddleTimeout, true, true)
  }

  function Use(db: MsDb, statement: string): SqlStep {
    SqlStep("use " + db.conn.name + "; " + statement, DbTools.QuickTimeout, true, true)
  }

  /** The statements before the blob loop. */
  function ReducePrefix(db: MsDb): seq<SqlStep> {
    [RecoverySimple(db),
     ShrinkLog(db),
     SqlStep("use " + db.conn.name + "; " + LogTruncation, DbTools.QuickTimeout, true, false)] +
    UseAll(db, OptionalTruncations)
  }

  /** The error-tolerant truncations of `reduce`, in order. */
  const OptionalTruncations: seq<string> := [
    "truncate table nsientitylog_t;",
    "truncate table STUDENTEXTRACTTEXTRELATION_T;",
    "truncate table StudentOrderTextRelation_t;",
    "truncate table stdntothrordrtxtrltn_t;",
    "truncate table employeeordertextrelation_t;",
    "truncate table employeeextracttextrelation_t;",
    "truncate table session_doc_printform_t;",
    "truncate table session_att_bull_printform_t;"]

  /** Each statement run in the current database, ignoring errors. */
  function UseAll(db: MsDb, statements: seq<string>): (r: seq<SqlStep>)
    ensures |r| == |statements|
    ensures forall i :: 0 <= i < |r| ==> r[i] == Use(db, statements[i])
  {
    if statements == [] then [] else [Use(db, statements[0])] + UseAll(db, statements[1..])
  }

  /** The statements after the size wait. */
  function ReduceSuffix(db: MsDb): seq<SqlStep> {
    [ShrinkLog(db),
     SqlStep("DBCC SHRINKDATABASE (" + db.conn.name + ", 5);", DbTools.RestoreTimeout, true, false),
     ShrinkLog(db),
     RecoveryFull(db)]
  }

  function BlobSql(db: MsDb): string {
    "use " + db.conn.name + "; " + NullBlobBatch
  }

  function BlobCall(db: MsDb, port: string): SqlCall {
    Call(db, port, BlobSql(db), DbTools.MiddleTimeout, true)
  }

  /** Each operation runs under its own timeout: create under the quick
      one, the backup under the backup one, the database shrink under the
      restore one (as is the restore itself, see `RestoreOrder`), and the
      log shrink and the blob batches under the middle one. */
  lemma StepTimeouts(db: MsDb, port: string)
    ensures forall st :: st in CreateSteps(db) ==> st.timeout == DbTools.QuickTimeout
    ensures forall st :: st in BackupSteps(db) ==> st.timeout == DbTools.BackupTimeout
    ensures var s := ReduceSuffix(db);
            s[0].timeout == DbTools.MiddleTimeout && s[1].timeout == DbTools.RestoreTimeout &&
            s[2].timeout == DbTools.MiddleTimeout && s[3].timeout == DbTools.QuickTimeout
    ensures BlobCall(db, port).timeout == DbTools.MiddleTimeout
  {
  }

  /** The blob loop: one `top(1000)` update per batch until a batch reports
      0 rows or the timer has fired; `budget` is the number of batches
      that start before the timer fires. Execution errors are ignored. */
  function BlobRun(db: MsDb, port: string, server: nat -> SqlReply, k: nat, budget: nat): (r: MsRun)
    ensures |r.calls| <= budget
    decreases budget
  {
    if budget == 0 then MsRun([], Pass)
    else
      var a := Answer(server(k), false, true);
      if a.Err? then MsRun([BlobCall(db, port)], Fail(a.error))
      else if a.value == Count(0) then MsRun([BlobCall(db, port)], Pass)
      else
        var rest := BlobRun(db, port, server, k + 1, budget - 1);
        MsRun([BlobCall(db, port)] + rest.calls, rest.outcome)
  }

  /** Every call of the blob loop is the same batch update, and the loop
      only raises when connecting fails (errors while executing are
      ignored), with that connection's error. */
  lemma {:induction false} BlobRunShape(db: MsDb, port: string, server: nat -> SqlReply, k: nat, budget: nat)
    ensures var r := BlobRun(db, port, server, k, budget);
            forall i :: 0 <= i < |r.calls| ==> r.calls[i] == BlobCall(db, port)
    ensures var r := BlobRun(db, port, server, k, budget);
            r.outcome.Fail? ==>
              |r.calls| >= 1 && server(k + |r.calls| - 1).connectError.Some? &&
              r.outcome.error == Sql(server(k + |r.calls| - 1).connectError.value)
    decreases budget
  {
    if budget > 0 && Answer(server(k), false, true).Ok? && Answer(server(k), false, true).value != Count(0) {
      BlobRunShape(db, port, server, k + 1, budget - 1);
      var rest := BlobRun(db, port, server, k + 1, budget - 1);
      if rest.outcome.Fail? {
        assert k + 1 + |rest.calls| - 1 == k + (1 + |rest.calls|) - 1;
      }
    }
  }

  /** The blob loop as it runs: `sent` is every call made so far, so the
      next batch is call number `|sent|`. */
  function BlobTrace(db: MsDb, port: string, server: nat -> SqlReply, sent: seq<SqlCall>, budget: nat): (r: MsRun)
    ensures Extends(r, sent)
    decreases budget
  {
    if budget == 0 then MsRun(sent, Pass)
    else
      var a := Answer(server(|sent|), false, true);
      var now := sent + [BlobCall(db, port)];
      if a.Err? then MsRun(now, Fail(a.error))
      else if a.value == Count(0) then MsRun(now, Pass)
      else BlobTrace(db, port, server, now, budget - 1)
  }

  /** The loop's form of the blob loop appends to what was sent before it
      exactly the calls of the blob loop. */
  lemma {:induction false} BlobTraceIsRun(db: MsDb, port: string, server: nat -> SqlReply, sent: seq<SqlCall>, budget: nat)
    ensures var r := BlobRun(db, port, server, |sent|, budget);
            BlobTrace(db, port, server, sent, budget) == MsRun(sent + r.calls, r.outcome)
    decreases budget
  {
    if budget == 0 {
      assert sent + [] == sent;
    } else {
      var a := Answer(server(|sent|), false, true);
      if a.Ok? && a.value != Count(0) {
        var now := sent + [BlobCall(db, port)];
        BlobTraceIsRun(db, port, server, now, budget - 1);
        AppendAssoc(sent, [BlobCall(db, port)], BlobRun(db, port, server, |sent| + 1, budget - 1).calls);
      }
    }
  }

  /** Rows a draining server reports for batch `i` when `n` rows need nulling. */
  function Batch(n: nat, i: nat): nat {
    if n > 1000 * i then (if n - 1000 * i < 1000 then n - 1000 * i else 1000) else 0
  }

  ghost predicate Draining(server: nat -> SqlReply, k: nat, n: nat) {
    forall j: nat :: k <= j ==> server(j).connectError.None? && server(j).executeError.None? && server(j).rowcount == Batch(n, j - k)
  }

  /** Against a server that nulls up to 1000 files per batch out of `n`,
      the loop sends `ceil(n / 1000) + 1` batches (the last reports 0), or
      as many as start before the timer fires. */
  lemma {:induction false} BlobRunDrains(db: MsDb, port: string, server: nat -> SqlReply, k: nat, n: nat, budget: nat)
    requires Draining(server, k, n)
    ensures BlobRun(db, port, server, k, budget).outcome == Pass
    ensures |BlobRun(db, port, server, k, budget).calls| ==
            (if budget < (n + 999) / 1000 + 1 then budget else (n + 999) / 1000 + 1)
    decreases n
  {
    if budget > 0 {
      assert server(k).rowcount == Batch(n, 0);
      if n > 0 {
        var m := if n > 1000 then n - 1000 else 0;
        var k' := k + 1;
        forall j: nat | k' <= j
          ensures server(j).rowcount == Batch(m, j - k')
        {
          var i := j - k';
          assert j - k == i + 1;
          assert Batch(n, i + 1) == Batch(m, i);
        }
        assert Draining(server, k', m);
        BlobRunDrains(db, port, server, k', m, budget - 1);
        assert (n + 999) / 1000 == (m + 999) / 1000 + 1;
      }
    }
  }

  function SizeCall(db: MsDb, port: string): SqlCall {
    Call(db, port, "sp_spaceused DATABASEFILE_T;", DbTools.QuickTimeout, true)
  }

  /** A size reading: the fourth column of the first row without its last
      three characters (`" KB"`), as an integer. */
  function Reading(reply: SqlReply): Result<int, MsError> {
    var a := Answer(reply, true, false);
    if a.Err? then Err(a.error)
    else if |a.value.rows| == 0 || |a.value.rows[0]| < 4 then Err(IndexError)
    else match ParseInt(DropLast(a.value.rows[0][3], 3))
      case None => Err(ValueError)
      case Some(v) => Ok(v)
  }

  /** A reading propagates the query's error, raises `IndexError` exactly
      when there is no first row or it has fewer than four columns, and
      otherwise is the integer spelled by the fourth column without its
      last three characters (`ValueError` when that is not an integer). */
  lemma ReadingCases(reply: SqlReply)
    ensures var a := Answer(reply, true, false);
            (a.Err? ==> Reading(reply) == Err(a.error)) &&
            (a.Ok? ==> (Reading(reply) == Err(IndexError) <==> |a.value.rows| == 0 || |a.value.rows[0]| < 4)) &&
            (a.Ok? && |a.value.rows| >= 1 && |a.value.rows[0]| >= 4 ==>
               var text := a.value.rows[0][3];
               (Reading(reply) == Err(ValueError) <==> ParseInt(DropLast(text, 3)).None?) &&
               (Reading(reply).Ok? ==> Some(Reading(reply).value) == ParseInt(DropLast(text, 3))))
  {
  }

  /** The reading of a column `"<n> KB"` is `n`. */
  lemma ReadingOfKilobytes(reply: SqlReply, n: nat)
    requires reply.connectError.None? && reply.executeError.None?
    requires |reply.rows| >= 1 && |reply.rows[0]| >= 4 && reply.rows[0][3] == NatToString(n) + " KB"
    ensures Reading(reply) == Ok(n)
  {
    var text := NatToString(n) + " KB";
    DropLastOfAppend(NatToString(n), " KB");
    ParseIntOfNatToString(n);
  }

  /** The size each call would read: `read(j)` is the reading taken from
      the server's answer to the `j`-th call. */
  function SizeReadings(server: nat -> SqlReply): nat -> Result<int, MsError> {
    (j: nat) => Reading(server(j))
  }

  /** The size wait: read until a reading equals the one before, `read(k)`
      being the first. `fuel` bounds the readings the model follows. */
  function SizeRun(db: MsDb, port: string, read: nat -> Result<int, MsError>, k: nat, before: int, fuel: nat): (r: MsRun)
    ensures |r.calls| <= fuel
    decreases fuel
  {
    if fuel == 0 then MsRun([], Fail(Unsettled))
    else
      var v := read(k);
      if v.Err? then MsRun([SizeCall(db, port)], Fail(v.error))
      else if v.value == before then MsRun([SizeCall(db, port)], Pass)
      else
        var rest := SizeRun(db, port, read, k + 1, v.value, fuel - 1);
        MsRun([SizeCall(db, port)] + rest.calls, rest.outcome)
  }

  /** The size wait as its loop runs it: `sent` is every call made so far,
      so the next reading answers call number `|sent|`; the result holds
      every call made when the wait ends. */
  function SizeTrace(db: MsDb, port: string, read: nat -> Result<int, MsError>, sent: seq<SqlCall>, before: int, fuel: nat): (r: MsRun)
    ensures Extends(r, sent)
    decreases fuel
  {
    if fuel == 0 then MsRun(sent, Fail(Unsettled))
    else
      var v := read(|sent|);
      var now := sent + [SizeCall(db, port)];
      if v.Err? then MsRun(now, Fail(v.error))
      else if v.value == before then MsRun(now, Pass)
      else SizeTrace(db, port, read, now, v.value, fuel - 1)
  }

  /** The loop's form of the size wait appends to what was sent before it
      exactly the calls of the size wait. */
  lemma {:induction false} SizeTraceIsRun(db: MsDb, port: string, read: nat -> Result<int, MsError>, sent: seq<SqlCall>, before: int, fuel: nat)
    ensures var r := SizeRun(db, port, read, |sent|, before, fuel);
            SizeTrace(db, port, read, sent, before, fuel) == MsRun(sent + r.calls, r.outcome)
    decreases fuel
  {
    if fuel == 0 {
      assert sent + [] == sent;
    } else {
      var v := read(|sent|);
      if v.Ok? && v.value != before {
        var now := sent + [SizeCall(db, port)];
        SizeTraceIsRun(db, port, read, now, v.value, fuel - 1);
        AppendAssoc(sent, [SizeCall(db, port)], SizeRun(db, port, read, |sent| + 1, v.value, fuel - 1).calls);
      }
    }
  }

  /** Every call of the size wait is the same `sp_spaceused` query. */
  lemma {:induction false} SizeRunCalls(db: MsDb, port: string, read: nat -> Result<int, MsError>, k: nat, before: int, fuel: nat)
    ensures forall i :: 0 <= i < |SizeRun(db, port, read, k, before, fuel).calls| ==>
              SizeRun(db, port, read, k, before, fuel).calls[i] == SizeCall(db, port)
    decreases fuel
  {
    var v := read(k);
    if fuel > 0 && v.Ok? && v.value != before {
      var rest := SizeRun(db, port, read, k + 1, v.value, fuel - 1);
      SizeRunCalls(db, port, read, k + 1, v.value, fuel - 1);
      assert forall t :: 0 <= t < |rest.calls| ==> rest.calls[t] == SizeCall(db, port);
      var r := SizeRun(db, port, read, k, before, fuel);
      assert r.calls == [SizeCall(db, port)] + rest.calls;
      forall i | 0 <= i < |r.calls|
        ensures r.calls[i] == SizeCall(db, port)
      {
        if i > 0 {
          assert r.calls[i] == rest.calls[i - 1];
        }
      }
    }
  }

  /** Reading `j + 1` could be read, as could reading `j`, and differs from it. */
  predicate Changed(read: nat -> Result<int, MsError>, j: nat) {
    read(j).Ok? && read(j + 1).Ok? && read(j + 1).value != read(j).value
  }

  /** Every reading of the size wait but the last could be read, the first
      differed from 999999999 and each later one from the one before it. */
  lemma {:induction false} SizeRunChanges(db: MsDb, port: string, read: nat -> Result<int, MsError>, k: nat, before: int, fuel: nat)
    ensures forall j :: k <= j < k + |SizeRun(db, port, read, k, before, fuel).calls| - 1 ==> read(j).Ok?
    ensures |SizeRun(db, port, read, k, before, fuel).calls| >= 2 ==> read(k).Ok? && read(k).value != before
    ensures forall j :: k <= j && j + 1 < k + |SizeRun(db, port, read, k, before, fuel).calls| - 1 ==> Changed(read, j)
    decreases fuel
  {
    var v := read(k);
    if fuel > 0 && v.Ok? && v.value != before {
      SizeRunChanges(db, port, read, k + 1, v.value, fuel - 1);
      var n := |SizeRun(db, port, read, k + 1, v.value, fuel - 1).calls|;
      assert |SizeRun(db, port, read, k, before, fuel).calls| == 1 + n;
      if n >= 2 {
        assert Changed(read, k);
      }
    }
  }

  /** The size wait ends well only on a reading equal to the one before it,
      the first being compared with 999999999. */
  lemma {:induction false} SizeRunSettles(db: MsDb, port: string, read: nat -> Result<int, MsError>, k: nat, before: int, fuel: nat)
    ensures SizeRun(db, port, read, k, before, fuel).outcome.Pass? ==>
              var n := |SizeRun(db, port, read, k, before, fuel).calls|;
              n >= 1 && read(k + n - 1).Ok? &&
              (n == 1 ==> read(k).value == before) &&
              (n >= 2 ==> read(k + n - 2).Ok? && read(k + n - 1).value == read(k + n - 2).value)
    decreases fuel
  {
    var v := read(k);
    if fuel > 0 && v.Ok? && v.value != before {
      var rest := SizeRun(db, port, read, k + 1, v.value, fuel - 1);
      assert SizeRun(db, port, read, k, before, fuel) == MsRun([SizeCall(db, port)] + rest.calls, rest.outcome);
      SizeRunSettles(db, port, read, k + 1, v.value, fuel - 1);
      if rest.outcome.Pass? {
        var m := |rest.calls|;
        assert k + (1 + m) - 1 == k + 1 + m - 1;
        if m == 1 {
          assert read(k + 1).value == v.value;
        } else {
          assert k + (1 + m) - 2 == k + 1 + m - 2;
        }
      }
    }
  }

  /** A size wait that fails either stopped on a reading that raised, with
      that reading's error, or ran out of the readings the model follows. */
  lemma {:induction false} SizeRunFailure(db: MsDb, port: string, read: nat -> Result<int, MsError>, k: nat, before: int, fuel: nat)
    ensures SizeRun(db, port, read, k, before, fuel).outcome.Fail? ==>
              var n := |SizeRun(db, port, read, k, before, fuel).calls|;
              var e := SizeRun(db, port, read, k, before, fuel).outcome.error;
              (n == fuel && e == Unsettled) || (n >= 1 && read(k + n - 1) == Err(e))
    decreases fuel
  {
    var v := read(k);
    if fuel > 0 && v.Ok? && v.value != before {
      SizeRunFailure(db, port, read, k + 1, v.value, fuel - 1);
      var m := |SizeRun(db, port, read, k + 1, v.value, fuel - 1).calls|;
      assert |SizeRun(db, port, read, k, before, fuel).calls| == 1 + m;
      assert k + (1 + m) - 1 == k + 1 + m - 1;
    }
  }

  /** The end of `reduce` after the calls `sent`: the size wait, then the
      fixed suffix. */
  function ShrinkTrace(db: MsDb, port: string, server: nat -> SqlReply, sent: seq<SqlCall>, fuel: nat): (r: MsRun)
    ensures Extends(r, sent)
  {
    var s := SizeTrace(db, port, SizeReadings(server), sent, SizeBefore, fuel);
    if s.outcome.Fail? then s else ExecTrace(db, port, ReduceSuffix(db), server, s.calls)
  }

  /** `reduce` after its fixed prefix: the blob loop, then the end. */
  function CleanupTrace(db: MsDb, port: string, server: nat -> SqlReply, sent: seq<SqlCall>, budget: nat, fuel: nat): (r: MsRun)
    ensures Extends(r, sent)
  {
    var b := BlobTrace(db, port, server, sent, budget);
    if b.outcome.Fail? then b else ShrinkTrace(db, port, server, b.calls, fuel)
  }

  /** `reduce` after the calls `sent`: the fixed prefix, the blob loop, the
      size wait and the fixed suffix, each starting only if everything
      before it succeeded. */
  function ReduceTrace(db: MsDb, port: string, server: nat -> SqlReply, sent: seq<SqlCall>, budget: nat, fuel: nat): (r: MsRun)
    ensures Extends(r, sent)
  {
    var p := ExecTrace(db, port, ReducePrefix(db), server, sent);
    if p.outcome.Fail? then p else CleanupTrace(db, port, server, p.calls, budget, fuel)
  }

  /** `reduce` always starts with switching the recovery model to SIMPLE,
      a step that raises on any error, and a failing first step stops
      everything. */
  lemma ReduceStartsSimple(db: MsDb, port: string, server: nat -> SqlReply, sent: seq<SqlCall>, budget: nat, fuel: nat)
    ensures !RecoverySimple(db).ignore
    ensures var r := ReduceTrace(db, port, server, sent, budget, fuel);
            |r.calls| > |sent| && r.calls[|sent|] == StepCall(db, port, RecoverySimple(db))
    ensures StepFails(RecoverySimple(db), server(|sent|)) ==>
              ReduceTrace(db, port, server, sent, budget, fuel) ==
                MsRun(sent + [StepCall(db, port, RecoverySimple(db))], Fail(Answer(server(|sent|), false, false).error))
  {
    var steps := ReducePrefix(db);
    assert steps[0] == RecoverySimple(db);
    var now := sent + [StepCall(db, port, steps[0])];
    assert now[|sent|] == StepCall(db, port, RecoverySimple(db));
    var p := ExecTrace(db, port, steps, server, sent);
    assert p == (if StepFails(steps[0], server(|sent|)) then MsRun(now, Fail(Answer(server(|sent|), false, false).error))
                 else ExecTrace(db, port, steps[1..], server, now));
    assert p.calls[..|now|] == now;
  }

  /** A `reduce` that succeeds ends with switching the recovery model back
      to FULL, a step that raises on any error. */
  lemma ReduceEndsFull(db: MsDb, port: string, server: nat -> SqlReply, sent: seq<SqlCall>, budget: nat, fuel: nat)
    ensures !RecoveryFull(db).ignore
    ensures var r := ReduceTrace(db, port, server, sent, budget, fuel);
            r.outcome.Pass? ==> |r.calls| >= 1 && r.calls[|r.calls| - 1] == StepCall(db, port, RecoveryFull(db))
  {
    var p := ExecTrace(db, port, ReducePrefix(db), server, sent);
    var b := BlobTrace(db, port, server, p.calls, budget);
    var s := SizeTrace(db, port, SizeReadings(server), b.calls, SizeBefore, fuel);
    ExecTraceLast(db, port, ReduceSuffix(db), server, s.calls);
  }

  // ---------------------------------------------------------------------
  // The backend object

  class Mssql {
    const db: MsDb
    /** `self.port`, which `_run_sql` defaults in place. */
    var port: Option<string>
    /** Every call made so far, in order. */
    var issued: seq<SqlCall>
    /** The server's answer to the k-th call. */
    const server: nat -> SqlReply
    /** The number of blob batches that start before the reduce timer fires. */
    const batchesBeforeTimer: nat
    /** The size readings of one reduce the model follows. */
    const sizeReadings: nat

    constructor (cfg: DbTools.DbConfig, server: nat -> SqlReply, batchesBeforeTimer: nat, sizeReadings: nat)
      ensures db == NewDb(cfg) && port == cfg.port && issued == []
      ensures this.server == server && this.batchesBeforeTimer == batchesBeforeTimer && this.sizeReadings == sizeReadings
    {
      db := NewDb(cfg);
      port := cfg.port;
      issued := [];
      this.server := server;
      this.batchesBeforeTimer := batchesBeforeTimer;
      this.sizeReadings := sizeReadings;
    }

    /** `_run_sql`. */
    method RunSql(sql: string, timeout: nat, current: bool, query: bool, ignore: bool) returns (r: Result<SqlValue, MsError>)
      modifies this
      ensures port == Some(EffectivePort(old(port)))
      ensures issued == old(issued) + [Call(db, EffectivePort(old(port)), sql, timeout, current)]
      ensures r == Answer(server(|old(issued)|), query, ignore)
    {
      if !IsSet(port) {
        port := Some("1433");
      }
      var reply := server(|issued|);
      issued := issued + [Call(db, port.value, sql, timeout, current)];
      r := Answer(reply, query, ignore);
    }

    /** Sends a fixed series of statements, stopping at the first that raises. */
    method RunSteps(steps: seq<SqlStep>) returns (o: Outcome<MsError>)
      requires |steps| >= 1
      modifies this
      ensures port == Some(EffectivePort(old(port)))
      ensures var r := ExecTrace(db, EffectivePort(old(port)), steps, server, old(issued));
              issued == r.calls && o == r.outcome
    {
      var p := EffectivePort(port);
      var i := 0;
      while i < |steps|
        invariant 0 <= i <= |steps|
        invariant port == (if i == 0 then old(port) else Some(p))
        invariant ExecTrace(db, p, steps, server, old(issued)) == ExecTrace(db, p, steps[i..], server, issued)
      {
        var s := steps[i];
        assert steps[i..][0] == s && steps[i..][1..] == steps[i + 1..];
        var r := RunSql(s.sql, s.timeout, s.current, false, s.ignore);
        if r.Err? {
          return Fail(r.error);
        }
        i := i + 1;
      }
      assert steps[i..] == [];
      o := Pass;
    }

    method Create() returns (o: Outcome<MsError>)
      modifies this
      ensures port == Some(EffectivePort(old(port)))
      ensures var r := Exec(db, EffectivePort(old(port)), CreateSteps(db), server, |old(issued)|);
              issued == old(issued) + r.calls && o == r.outcome
    {
      o := RunSteps(CreateSteps(db));
      ExecTraceIsExec(db, EffectivePort(old(port)), CreateSteps(db), server, old(issued));
    }

    method Backup() returns (o: Outcome<MsError>)
      modifies this
      ensures port == Some(EffectivePort(old(port)))
      ensures var r := Exec(db, EffectivePort(old(port)), BackupSteps(db), server, |old(issued)|);
              issued == old(issued) + r.calls && o == r.outcome
    {
      o := RunSteps(BackupSteps(db));
      ExecTraceIsExec(db, EffectivePort(old(port)), BackupSteps(db), server, old(issued));
    }

    method CustomerPatch() returns (o: Outcome<MsError>)
      modifies this
      ensures port == Some(EffectivePort(old(port)))
      ensures var r := Exec(db, EffectivePort(old(port)), CustomerPatchSteps(db), server, |old(issued)|);
              issued == old(issued) + r.calls && o == r.outcome
    {
      o := RunSteps(CustomerPatchSteps(db));
      ExecTraceIsExec(db, EffectivePort(old(port)), CustomerPatchSteps(db), server, old(issued));
    }

    method MapUserSchema(user: string, schema: string) returns (o: Outcome<MsError>)
      modifies this
      ensures port == Some(EffectivePort(old(port)))
      ensures var r := Exec(db, EffectivePort(old(port)), MapUserSchemaSteps(db, user, schema), server, |old(issued)|);
              issued == old(issued) + r.calls && o == r.outcome
    {
      o := RunSteps(MapUserSchemaSteps(db, user, schema));
      ExecTraceIsExec(db, EffectivePort(old(port)), MapUserSchemaSteps(db, user, schema), server, old(issued));
    }

    method Set11() returns (o: Outcome<MsError>)
      modifies this
      ensures port == Some(EffectivePort(old(port)))
      ensures var r := Exec(db, EffectivePort(old(port)), Set11Steps(db), server, |old(issued)|);
              issued == old(issued) + r.calls && o == r.outcome
    {
      o := RunSteps(Set11Steps(db));
      ExecTraceIsExec(db, EffectivePort(old(port)), Set11Steps(db), server, old(issued));
    }

    /** `has_default_backup`. */
    method HasDefaultBackup() returns (r: Result<bool, MsError>)
      modifies this
      ensures port == Some(EffectivePort(old(port)))
      ensures issued == old(issued) + [Call(db, EffectivePort(old(port)), FileListSql(db), DbTools.QuickTimeout, false)]
      ensures r == BackupProbe(server(|old(issued)|))
    {
      var a := RunSql(FileListSql(db), DbTools.QuickTimeout, false, true, false);
      if a.Err? {
        if a.error == Sql(DatabaseErr) {
          return Ok(false);
        }
        return Err(a.error);
      }
      r := Ok(true);
    }

    /** The `MOVE` loop of `restore` and the statement built from it: one
        clause per listed file, or `None` when a row is too short to read
        (the `IndexError`). */
    method BuildRestoreSql(rows: seq<seq<string>>) returns (sql: Option<string>)
      ensures sql.Some? <==> AllLongEnough(rows)
      ensures sql.Some? ==> sql.value == RestoreSql(db, rows)
    {
      var parts: seq<string> := [];
      for i := 0 to |rows|
        invariant AllLongEnough(rows[..i])
        invariant parts == MoveClauses(db, rows[..i])
      {
        if |rows[i]| < 7 {
          assert !LongEnough(rows[i]);
          return None;
        }
        assert rows[..i + 1][..i] == rows[..i];
        parts := parts + [MoveClause(db, rows[i])];
      }
      assert rows[..|rows|] == rows;
      sql := Some("RESTORE DATABASE " + db.conn.name + " FROM DISK = '" + db.backupPath + "' WITH RECOVERY, REPLACE, " +
                  Join(", ", parts) + ";");
    }

    /** The rename loop of `restore`: the renames the file list asks for,
        sent in order until one raises. */
    method RunRenames(rows: seq<seq<string>>) returns (o: Outcome<MsError>)
      requires IsSet(port)
      modifies this
      ensures port == old(port)
      ensures var r := ExecTrace(db, port.value, Renames(db, rows), server, old(issued));
              issued == r.calls && o == r.outcome
    {
      var renames := Renames(db, rows);
      if renames == [] {
        return Pass;
      }
      o := RunSteps(renames);
    }

    /** `restore` once the file list is read. */
    method RestoreFiles(rows: seq<seq<string>>) returns (o: Outcome<MsError>)
      requires IsSet(port)
      modifies this
      ensures port == old(port)
      ensures var r := RestoreFromTrace(db, port.value, rows, server, old(issued));
              issued == r.calls && o == r.outcome
    {
      var sql := BuildRestoreSql(rows);
      if sql.None? {
        return Fail(IndexError);
      }
      var b := RunSql(sql.value, DbTools.RestoreTimeout, false, false, false);
      if b.Err? {
        return Fail(b.error);
      }
      o := RunRenames(rows);
    }

    /** `restore`. */
    method Restore() returns (o: Outcome<MsError>)
      modifies this
      ensures port == Some(EffectivePort(old(port)))
      ensures var r := RestoreTrace(db, EffectivePort(old(port)), server, old(issued));
              issued == r.calls && o == r.outcome
    {
      var a := RunSql(FileListSql(db), DbTools.QuickTimeout, false, true, false);
      if a.Err? {
        return Fail(a.error);
      }
      o := RestoreFiles(a.value.rows);
    }

    /** The blob loop of `reduce`. */
    method BlobLoop() returns (o: Outcome<MsError>)
      requires IsSet(port)
      modifies this
      ensures port == old(port)
      ensures var r := BlobTrace(db, port.value, server, old(issued), batchesBeforeTimer);
              issued == r.calls && o == r.outcome
    {
      var p := port.value;
      var left := batchesBeforeTimer;
      while left > 0
        invariant port == Some(p)
        invariant BlobTrace(db, p, server, old(issued), batchesBeforeTimer) == BlobTrace(db, p, server, issued, left)
        decreases left
      {
        var r := RunSql(BlobSql(db), DbTools.MiddleTimeout, true, false, true);
        if r.Err? {
          return Fail(r.error);
        }
        if r.value == Count(0) {
          return Pass;
        }
        left := left - 1;
      }
      o := Pass;
    }

    /** One reading of the size wait: `sp_spaceused`, then the fourth column
        of the first row without its last three characters, as an integer. */
    method ReadSize() returns (v: Result<int, MsError>)
      requires IsSet(port)
      modifies this
      ensures port == old(port)
      ensures issued == old(issued) + [SizeCall(db, port.value)]
      ensures v == Reading(server(|old(issued)|))
    {
      var rowsResult := RunSql("sp_spaceused DATABASEFILE_T;", DbTools.QuickTimeout, true, true, false);
      if rowsResult.Err? {
        return Err(rowsResult.error);
      }
      var rows := rowsResult.value.rows;
      if |rows| == 0 || |rows[0]| < 4 {
        return Err(IndexError);
      }
      var sizeAtMoment := ParseInt(DropLast(rows[0][3], 3));
      if sizeAtMoment.None? {
        return Err(ValueError);
      }
      v := Ok(sizeAtMoment.value);
    }

    /** The size wait of `reduce`. */
    method SizeWait() returns (o: Outcome<MsError>)
      requires IsSet(port)
      modifies this
      ensures port == old(port)
      ensures var r := SizeTrace(db, port.value, SizeReadings(server), old(issued), SizeBefore, sizeReadings);
              issued == r.calls && o == r.outcome
    {
      var p := port.value;
      var before := SizeBefore;
      var fuel := sizeReadings;
      while true
        invariant port == Some(p)
        invariant SizeTrace(db, p, SizeReadings(server), old(issued), SizeBefore, sizeReadings) == SizeTrace(db, p, SizeReadings(server), issued, before, fuel)
        decreases fuel
      {
        if fuel == 0 {
          return Fail(Unsettled);
        }
        var size := ReadSize();
        if size.Err? {
          return Fail(size.error);
        }
        if size.value == before {
          return Pass;
        }
        before := size.value;
        fuel := fuel - 1;
      }
    }

    /** `reduce` after the blob loop. */
    method Shrink() returns (o: Outcome<MsError>)
      requires IsSet(port)
      modifies this
      ensures port == old(port)
      ensures var r := ShrinkTrace(db, port.value, server, old(issued), sizeReadings);
              issued == r.calls && o == r.outcome
    {
      o := SizeWait();
      if o.Fail? {
        return;
      }
      o := RunSteps(ReduceSuffix(db));
    }

    /** `reduce` after its fixed prefix. */
    method Cleanup() returns (o: Outcome<MsError>)
      requires IsSet(port)
      modifies this
      ensures port == old(port)
      ensures var r := CleanupTrace(db, port.value, server, old(issued), batchesBeforeTimer, sizeReadings);
              issued == r.calls && o == r.outcome
    {
      o := BlobLoop();
      if o.Fail? {
        return;
      }
      o := Shrink();
    }

    /** `reduce`. */
    method Reduce() returns (o: Outcome<MsError>)
      modifies this
      ensures port == Some(EffectivePort(old(port)))
      ensures var r := ReduceTrace(db, EffectivePort(old(port)), server, old(issued), batchesBeforeTimer, sizeReadings);
              issued == r.calls && o == r.outcome
    {
      o := RunSteps(ReducePrefix(db));
      if o.Fail? {
        return;
      }
      o := Cleanup();
    }
  }
}
