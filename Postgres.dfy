/** The plain remote Postgres backend (`Postgres`). Every operation is a
    fixed list of console commands (`psql`, `pg_dump`, `pg_restore`) run one
    after the other; the first command that fails and is not error-tolerant
    ends the operation. The processes themselves are an oracle that says how
    the k-th command ended. */
module Postgres {
  import opened Wrappers
  import opened Text
  import opened Files
  import DbTools

  /** An instance: nothing in it changes after construction. */
  datatype Postgres = Postgres(conn: DbTools.Connection, ignoreRestoreErrors: bool, backupPath: string)

  /** `Postgres.__init__`: creates the backup directory when it is missing
      and places the backup at `default.backup` inside it. */
  function New(cfg: DbTools.DbConfig, fs: Fs): (r: (Postgres, Fs))
    ensures Exists(r.1, cfg.backupDir)
    ensures Exists(fs, cfg.backupDir) ==> r.1 == fs
    ensures !Exists(fs, cfg.backupDir) ==> r.1 == MkDir(fs, cfg.backupDir)
    ensures r.0.conn == DbTools.FromConfig(cfg) && r.0.ignoreRestoreErrors == cfg.postgresIgnoreRestoreErrors
    ensures r.0.backupPath == JoinPath(cfg.backupDir, "default.backup")
  {
    var fs' := if Exists(fs, cfg.backupDir) then fs else MkDir(fs, cfg.backupDir);
    (Postgres(DbTools.FromConfig(cfg), cfg.postgresIgnoreRestoreErrors, JoinPath(cfg.backupDir, "default.backup")), fs')
  }

  /** `has_default_backup`: the backup file exists. */
  predicate HasDefaultBackup(pg: Postgres, fs: Fs) {
    Exists(fs, pg.backupPath)
  }

  /** Right after construction the probe answers whether `default.backup`
      existed before: creating the directory never makes it true. */
  lemma NewThenHasDefaultBackup(cfg: DbTools.DbConfig, fs: Fs)
    ensures HasDefaultBackup(New(cfg, fs).0, New(cfg, fs).1) == Exists(fs, JoinPath(cfg.backupDir, "default.backup"))
  {
    var p := JoinPath(cfg.backupDir, "default.backup");
    assert p != cfg.backupDir by { assert |p| > |cfg.backupDir|; }
  }

  // ---------------------------------------------------------------------
  // Building the command line

  /** Python's `list.insert(i, x)`: a negative index counts from the end,
      and an index past either end is clamped to it. */
  function PyInsert<T>(s: seq<T>, i: int, x: T): (r: seq<T>)
    ensures |r| == |s| + 1
  {
    var j := if i < 0 then (if i + |s| < 0 then 0 else i + |s|) else (if i > |s| then |s| else i);
    s[..j] + [x] + s[j..]
  }

  function Reverse<T>(s: seq<T>): (r: seq<T>)
    ensures |r| == |s| && forall i :: 0 <= i < |s| ==> r[i] == s[|s| - 1 - i]
  {
    seq(|s|, i requires 0 <= i < |s| => s[|s| - 1 - i])
  }

  /** The options every command gets: host and user, and the port only
      when one is set. */
  function CommonArgs(conn: DbTools.Connection): seq<string> {
    ["--host", conn.addr, "--username", conn.user] + (if IsSet(conn.port) then ["--port", conn.port.value] else [])
  }

  /** The command line that is run: the common options right after the
      program name. (For an empty list, which no caller passes, Python's
      `insert(1, …)` appends the first insertion and inserts the rest after it.) */
  function WithCommon(args: seq<string>, common: seq<string>): seq<string> {
    if |args| >= 1 then [args[0]] + common + args[1..]
    else if common == [] then []
    else [common[|common| - 1]] + common[..|common| - 1]
  }

  /** The list after the last `k` common options have been inserted. */
  function InsertedSoFar(args: seq<string>, common: seq<string>, k: nat): seq<string>
    requires k <= |common|
  {
    var n := |common|;
    if |args| >= 1 then [args[0]] + common[n - k..] + args[1..]
    else if k == 0 then []
    else [common[n - 1]] + common[n - k..n - 1]
  }

  lemma PyInsertAtOne<T>(s: seq<T>, x: T)
    ensures PyInsert(s, 1, x) == if |s| >= 1 then [s[0], x] + s[1..] else [x]
  {
  }

  /** Inserting at position 1 of a list that starts with `a0` puts the new
      element in front of whatever followed `a0`. */
  lemma InsertAfterHead<T>(a0: T, tail: seq<T>, rest: seq<T>, x: T)
    ensures PyInsert([a0] + tail + rest, 1, x) == [a0] + ([x] + tail) + rest
  {
    var cur := [a0] + tail + rest;
    var lhs := PyInsert(cur, 1, x);
    var rhs := [a0] + ([x] + tail) + rest;
    assert lhs == cur[..1] + [x] + cur[1..];
    forall i | 0 <= i < |lhs|
      ensures lhs[i] == rhs[i]
    {
      if 2 <= i < 2 + |tail| {
        assert lhs[i] == cur[i - 1] == tail[i - 2];
      } else if 2 + |tail| <= i {
        assert lhs[i] == cur[i - 1] == rest[i - 2 - |tail|];
      }
    }
  }

  /** A slice grown by one element at its front. */
  lemma ConsSlice<T>(s: seq<T>, i: nat, j: nat)
    requires 1 <= i <= j <= |s|
    ensures [s[i - 1]] + s[i..j] == s[i - 1..j]
  {
    var lhs := [s[i - 1]] + s[i..j];
    forall m | 0 <= m < |lhs|
      ensures lhs[m] == s[i - 1..j][m]
    {
      if m >= 1 {
        assert lhs[m] == s[i..j][m - 1];
      }
    }
  }

  /** Inserting the next common option (counting from the end) at
      position 1 extends the inserted block by one. */
  lemma InsertStep(args: seq<string>, common: seq<string>, k: nat)
    requires k < |common|
    ensures PyInsert(InsertedSoFar(args, common, k), 1, common[|common| - 1 - k]) == InsertedSoFar(args, common, k + 1)
  {
    if |args| >= 1 {
      InsertStepArgs(args, common, k);
    } else if k >= 1 {
      InsertStepBare(args, common, k);
    } else {
      PyInsertAtOne(InsertedSoFar(args, common, k), common[|common| - 1 - k]);
    }
  }

  lemma InsertStepArgs(args: seq<string>, common: seq<string>, k: nat)
    requires |args| >= 1 && k < |common|
    ensures PyInsert(InsertedSoFar(args, common, k), 1, common[|common| - 1 - k]) == InsertedSoFar(args, common, k + 1)
  {
    var n := |common|;
    var x := common[n - 1 - k];
    var tail := common[n - k..];
    assert InsertedSoFar(args, common, k) == [args[0]] + tail + args[1..];
    assert InsertedSoFar(args, common, k + 1) == [args[0]] + ([x] + tail) + args[1..] by {
      ConsSlice(common, n - k, n);
      assert common[n - k..n] == tail && common[n - k - 1..n] == common[n - k - 1..];
    }
    InsertAfterHead(args[0], tail, args[1..], x);
  }

  lemma InsertStepBare(args: seq<string>, common: seq<string>, k: nat)
    requires |args| == 0 && 1 <= k < |common|
    ensures PyInsert(InsertedSoFar(args, common, k), 1, common[|common| - 1 - k]) == InsertedSoFar(args, common, k + 1)
  {
    var n := |common|;
    var x := common[n - 1 - k];
    var tail := common[n - k..n - 1];
    assert InsertedSoFar(args, common, k) == [common[n - 1]] + tail + [];
    assert InsertedSoFar(args, common, k + 1) == [common[n - 1]] + ([x] + tail) + [] by {
      ConsSlice(common, n - k, n - 1);
    }
    InsertAfterHead(common[n - 1], tail, [], x);
  }

  /** The argument handling of `_run_console_command`: the common options
      are reversed and each is inserted at position 1 of the caller's list. */
  method InsertCommon(args: seq<string>, conn: DbTools.Connection) returns (argv: seq<string>)
    ensures argv == WithCommon(args, CommonArgs(conn))
  {
    var common := ["--host", conn.addr, "--username", conn.user];
    if IsSet(conn.port) {
      common := common + ["--port", conn.port.value];
    }
    var reversed := Reverse(common);
    var n := |common|;
    argv := args;
    for k := 0 to n
      invariant argv == InsertedSoFar(args, common, k)
    {
      InsertStep(args, common, k);
      argv := PyInsert(argv, 1, reversed[k]);
    }
    assert common[n - n..] == common;
  }

  // ---------------------------------------------------------------------
  // Running commands

  /** How a console process ended: with an exit status, or still running
      when `communicate(timeout=…)` gave up (`TimeoutExpired`). */
  datatype Exit = Exited(code: int) | TimedOut

  /** `CommandFailed` is the `RuntimeError` raised for a non-zero status,
      `CommandTimedOut` the uncaught `TimeoutExpired`, `WrongBackupFormat`
      the `RuntimeError` of `restore`. */
  datatype PgError = CommandFailed | CommandTimedOut | WrongBackupFormat

  datatype Step = Step(args: seq<string>, timeout: nat, stdin: Option<string>, ignoreError: bool)

  /** What is handed to the operating system: the full command line, the
      timeout and the file fed to standard input. */
  datatype Invocation = Invocation(argv: seq<string>, timeout: nat, stdin: Option<string>)

  datatype Run = Run(issued: seq<Invocation>, outcome: Outcome<PgError>)

  /** The error policy of `_run_console_command`: a non-zero status raises
      unless `ignore_error` is set, status 0 never raises, and a timeout
      raises whatever the flag says. */
  function CommandOutcome(e: Exit, ignoreError: bool): (o: Outcome<PgError>)
    ensures o == Pass <==> (e.Exited? && (e.code == 0 || ignoreError))
    ensures o.Fail? ==> o.error == (if e.TimedOut? then CommandTimedOut else CommandFailed)
  {
    match e
    case TimedOut => Fail(CommandTimedOut)
    case Exited(code) => if code != 0 && !ignoreError then Fail(CommandFailed) else Pass
  }

  function Invoke(s: Step, common: seq<string>): Invocation {
    Invocation(WithCommon(s.args, common), s.timeout, s.stdin)
  }

  predicate StepFails(s: Step, e: Exit) {
    CommandOutcome(e, s.ignoreError).Fail?
  }

  /** Runs `plan` from the `k`-th command on: the commands up to and
      including the first failing one are issued, in order. */
  function Exec(common: seq<string>, plan: seq<Step>, exits: nat -> Exit, k: nat): (r: Run)
    ensures |r.issued| <= |plan|
    decreases |plan|
  {
    if plan == [] then Run([], Pass)
    else
      var o := CommandOutcome(exits(k), plan[0].ignoreError);
      if o.Fail? then Run([Invoke(plan[0], common)], o)
      else
        var rest := Exec(common, plan[1..], exits, k + 1);
        Run([Invoke(plan[0], common)] + rest.issued, rest.outcome)
  }

  /** A run issues the plan's commands in order, each with the common
      options. */
  lemma {:induction false} ExecIssues(common: seq<string>, plan: seq<Step>, exits: nat -> Exit, k: nat)
    ensures var r := Exec(common, plan, exits, k);
            forall i :: 0 <= i < |r.issued| ==> r.issued[i] == Invoke(plan[i], common)
    decreases |plan|
  {
    if plan != [] && CommandOutcome(exits(k), plan[0].ignoreError).Pass? {
      var tail := plan[1..];
      ExecIssues(common, tail, exits, k + 1);
      var rest := Exec(common, tail, exits, k + 1);
      var r := Exec(common, plan, exits, k);
      assert r.issued == [Invoke(plan[0], common)] + rest.issued;
      forall i | 1 <= i < |r.issued|
        ensures r.issued[i] == Invoke(plan[i], common)
      {
        assert r.issued[i] == rest.issued[i - 1] && tail[i - 1] == plan[i];
      }
    }
  }

  /** Every command of a run but the last one issued passed. */
  lemma {:induction false} ExecPassesBefore(common: seq<string>, plan: seq<Step>, exits: nat -> Exit, k: nat)
    ensures var r := Exec(common, plan, exits, k);
            forall i :: 0 <= i < |r.issued| - 1 ==> !StepFails(plan[i], exits(k + i))
    decreases |plan|
  {
    if plan != [] && CommandOutcome(exits(k), plan[0].ignoreError).Pass? {
      var tail := plan[1..];
      ExecPassesBefore(common, tail, exits, k + 1);
      var rest := Exec(common, tail, exits, k + 1);
      var r := Exec(common, plan, exits, k);
      assert |r.issued| == 1 + |rest.issued|;
      forall i | 1 <= i < |r.issued| - 1
        ensures !StepFails(plan[i], exits(k + i))
      {
        assert tail[i - 1] == plan[i] && k + 1 + (i - 1) == k + i;
      }
    }
  }

  /** A run passes exactly when all of the plan's commands pass. */
  lemma {:induction false} ExecPassesIff(common: seq<string>, plan: seq<Step>, exits: nat -> Exit, k: nat)
    ensures var r := Exec(common, plan, exits, k);
            r.outcome.Pass? <==> |r.issued| == |plan| && forall i :: 0 <= i < |plan| ==> !StepFails(plan[i], exits(k + i))
    decreases |plan|
  {
    if plan != [] && CommandOutcome(exits(k), plan[0].ignoreError).Pass? {
      var tail := plan[1..];
      ExecPassesIff(common, tail, exits, k + 1);
      var rest := Exec(common, tail, exits, k + 1);
      var r := Exec(common, plan, exits, k);
      assert |r.issued| == 1 + |rest.issued| && r.outcome == rest.outcome;
      if forall i :: 0 <= i < |plan| ==> !StepFails(plan[i], exits(k + i)) {
        forall i | 0 <= i < |tail|
          ensures !StepFails(tail[i], exits(k + 1 + i))
        {
          assert tail[i] == plan[i + 1];
        }
      }
      if rest.outcome.Pass? {
        forall i | 1 <= i < |plan|
          ensures !StepFails(plan[i], exits(k + i))
        {
          assert tail[i - 1] == plan[i] && k + 1 + (i - 1) == k + i;
        }
      }
    }
  }

  /** A failing run ends with the outcome of its last command. */
  lemma {:induction false} ExecFailure(common: seq<string>, plan: seq<Step>, exits: nat -> Exit, k: nat)
    ensures var r := Exec(common, plan, exits, k);
            r.outcome.Fail? ==>
              |r.issued| >= 1 &&
              r.outcome == CommandOutcome(exits(k + |r.issued| - 1), plan[|r.issued| - 1].ignoreError)
    decreases |plan|
  {
    if plan != [] && CommandOutcome(exits(k), plan[0].ignoreError).Pass? {
      var tail := plan[1..];
      ExecFailure(common, tail, exits, k + 1);
      var rest := Exec(common, tail, exits, k + 1);
      var r := Exec(common, plan, exits, k);
      assert |r.issued| == 1 + |rest.issued| && r.outcome == rest.outcome;
      if rest.outcome.Fail? {
        assert plan[|r.issued| - 1] == tail[|rest.issued| - 1];
      }
    }
  }

  // ---------------------------------------------------------------------
  // The operations as command lists

  function Psql(dbAndCommand: seq<string>, timeout: nat, ignoreError: bool): Step {
    Step(["psql"] + dbAndCommand, timeout, None, ignoreError)
  }

  function CreatePlan(pg: Postgres): seq<Step> {
    [Psql(["--command", "CREATE DATABASE " + pg.conn.name], DbTools.QuickTimeout, false)]
  }

  function DropPlan(pg: Postgres): seq<Step> {
    [Psql(["--command", "DROP DATABASE " + pg.conn.name], DbTools.QuickTimeout, false)]
  }

  function BackupPlan(pg: Postgres): seq<Step> {
    [Step(["pg_dump", "--dbname", pg.conn.name, "--format", "c", "--file", pg.backupPath],
          DbTools.BackupTimeout, None, false)]
  }

  /** Which restore path a backup takes, judged by whether it is a
      directory and by its file-type description. */
  datatype Format = PlainScript | Archive | Unrecognised

  function Route(isDir: bool, description: string): (f: Format)
    ensures f == PlainScript <==> !isDir && Contains(description, "ASCII text")
    ensures f == Archive <==>
              !(!isDir && Contains(description, "ASCII text")) &&
              (isDir || Contains(description, "PostgreSQL") || Contains(description, "POSIX tar archive"))
  {
    if !isDir && Find(description, "ASCII text") != -1 then PlainScript
    else if isDir || Find(description, "PostgreSQL") != -1 || Find(description, "POSIX tar archive") != -1 then Archive
    else Unrecognised
  }

  function ArchiveArgs(pg: Postgres): seq<string> {
    var args := ["pg_restore", "--no-owner", "--no-privileges", "--dbname", pg.conn.name, pg.backupPath];
    if pg.ignoreRestoreErrors then args else PyInsert(args, -1, "--exit-on-error")
  }

  /** `restore`: drop and create through the Postgres definitions, then load
      the backup; an unrecognised backup raises before anything runs. */
  function Restore(pg: Postgres, isDir: bool, description: string): Result<seq<Step>, PgError> {
    match Route(isDir, description)
    case PlainScript =>
      Ok(DropPlan(pg) + CreatePlan(pg) +
         [Step(["psql", "--quiet", "--dbname", pg.conn.name], DbTools.RestoreTimeout, Some(pg.backupPath), pg.ignoreRestoreErrors)])
    case Archive =>
      Ok(DropPlan(pg) + CreatePlan(pg) + [Step(ArchiveArgs(pg), DbTools.RestoreTimeout, None, pg.ignoreRestoreErrors)])
    case Unrecognised => Err(WrongBackupFormat)
  }

  /** The shape of every restore: an unrecognised format raises
      `Wrong postgres backup format` without a command; otherwise drop,
      then create, then one load whose error tolerance is
      `ignore_restore_errors`, and for `pg_restore` the option
      `--exit-on-error` stands right before the backup path exactly when
      errors are not ignored. */
  lemma RestoreShape(pg: Postgres, isDir: bool, description: string)
    ensures Restore(pg, isDir, description).Err? <==> Route(isDir, description) == Unrecognised
    ensures Restore(pg, isDir, description).Err? ==> Restore(pg, isDir, description).error == WrongBackupFormat
    ensures Restore(pg, isDir, description).Ok? ==>
              var p := Restore(pg, isDir, description).value;
              |p| == 3 && p[0] == DropPlan(pg)[0] && p[1] == CreatePlan(pg)[0] &&
              p[2].ignoreError == pg.ignoreRestoreErrors && p[2].timeout == DbTools.RestoreTimeout
    ensures Route(isDir, description) == PlainScript ==>
              Restore(pg, isDir, description).value[2].stdin == Some(pg.backupPath)
    ensures Route(isDir, description) == Archive ==>
              var a := Restore(pg, isDir, description).value[2].args;
              a == ["pg_restore", "--no-owner", "--no-privileges", "--dbname", pg.conn.name] +
                   (if pg.ignoreRestoreErrors then [] else ["--exit-on-error"]) + [pg.backupPath]
  {
  }

  /** Running a restore: the load runs only after drop and create both
      succeeded, and a failing drop stops everything. */
  lemma {:induction false} RestoreRunsInOrder(pg: Postgres, isDir: bool, description: string, exits: nat -> Exit, k: nat)
    requires Restore(pg, isDir, description).Ok?
    ensures var r := Exec(CommonArgs(pg.conn), Restore(pg, isDir, description).value, exits, k);
            |r.issued| >= 1 && r.issued[0].argv == WithCommon(DropPlan(pg)[0].args, CommonArgs(pg.conn)) &&
            (|r.issued| >= 2 <==> CommandOutcome(exits(k), false) == Pass) &&
            (|r.issued| == 3 <==> CommandOutcome(exits(k), false) == Pass && CommandOutcome(exits(k + 1), false) == Pass)
  {
    var p := Restore(pg, isDir, description).value;
    RestoreShape(pg, isDir, description);
    var c := CommonArgs(pg.conn);
    var r := Exec(c, p, exits, k);
    if CommandOutcome(exits(k), false).Fail? {
      assert r.issued == [Invoke(p[0], c)];
    } else {
      var r1 := Exec(c, p[1..], exits, k + 1);
      assert r.issued == [Invoke(p[0], c)] + r1.issued;
      assert p[1..][0] == p[1] && p[1..][1..] == p[2..];
      if CommandOutcome(exits(k + 1), false).Fail? {
        assert r1.issued == [Invoke(p[1], c)];
      } else {
        var r2 := Exec(c, p[2..], exits, k + 2);
        assert r1.issued == [Invoke(p[1], c)] + r2.issued;
        assert p[2..][1..] == [];
        assert |r2.issued| == 1;
      }
    }
  }

  /** Error-tolerant `psql --command` steps over the database, one per statement. */
  function Tolerant(pg: Postgres, statements: seq<string>, timeout: nat): (p: seq<Step>)
    ensures |p| == |statements|
    ensures forall i :: 0 <= i < |p| ==> p[i].ignoreError
  {
    seq(|statements|, i requires 0 <= i < |statements| =>
      Psql(["--dbname", pg.conn.name, "--command", statements[i]], timeout, true))
  }

  /** `customer_patch`: one error-tolerant command, and only for a database
      whose name contains `pgups`. */
  function CustomerPatchPlan(pg: Postgres): (p: seq<Step>)
    ensures |p| == (if Contains(pg.conn.name, "pgups") then 1 else 0)
  {
    if Find(pg.conn.name, "pgups") != -1 then
      Tolerant(pg, ["update app_info_s set value_p='unipgups-web'"], DbTools.QuickTimeout)
    else []
  }

  const Set11Sql: string :=
    "UPDATE principal_t SET LOGIN_P='1', passwordhash_p='c4ca4238a0b923820dcc509a6f75849b', passwordsalt_p=null " +
    "where " +
    "(EXISTS (select ID from PRINCIPAL_T where LOGIN_P='1') and LOGIN_P='1') or " +
    "(not EXISTS (select ID from PRINCIPAL_T where LOGIN_P='1') and id=(select id from PRINCIPAL_T where id in (select PRINCIPAL_ID from ADMIN_T) and ACTIVE_P=true limit 1));"

  /** `set_1_1`: one error-tolerant update of the well-known login. */
  function Set11Plan(pg: Postgres): seq<Step> {
    Tolerant(pg, [Set11Sql], DbTools.QuickTimeout)
  }

  const TruncatedTables: seq<string> := [
    "truncate nsientitylog_t;",
    "truncate table STUDENTEXTRACTTEXTRELATION_T;",
    "truncate table StudentOrderTextRelation_t;",
    "truncate table stdntothrordrtxtrltn_t;",
    "truncate table employeeordertextrelation_t;",
    "truncate table employeeextracttextrelation_t;",
    "truncate table session_doc_printform_t;",
    "truncate table session_att_bull_printform_t;"]

  const NullBlobs: string :=
    "update databasefile_t set content_p = null where content_p is not null and " +
    "(filename_p is null " +
    "or filename_p not in ('platform-variables.less', 'platform.css', 'shared.css'));"

  /** `reduce`: log truncation, print-form truncation, blob nulling, vacuum. */
  function ReducePlan(pg: Postgres): seq<Step> {
    [Psql(["--dbname", pg.conn.name, "--command", "truncate logevent_t cascade;"], DbTools.QuickTimeout, false)] +
    Tolerant(pg, TruncatedTables, DbTools.QuickTimeout) +
    Tolerant(pg, [NullBlobs], DbTools.RestoreTimeout) +
    [Psql(["--dbname", pg.conn.name, "--command", "vacuum full;"], DbTools.RestoreTimeout, false)]
  }

  /** Each operation runs under its own timeout: create, drop and the
      log truncation under the quick one, the dump under the backup one,
      and the restore's load, the blob nulling and the vacuum under the
      restore one. */
  lemma PlanTimeouts(pg: Postgres, isDir: bool, description: string)
    ensures forall st :: st in CreatePlan(pg) + DropPlan(pg) ==> st.timeout == DbTools.QuickTimeout
    ensures forall st :: st in BackupPlan(pg) ==> st.timeout == DbTools.BackupTimeout
    ensures Restore(pg, isDir, description).Ok? ==>
              var p := Restore(pg, isDir, description).value;
              p[0].timeout == DbTools.QuickTimeout && p[1].timeout == DbTools.QuickTimeout &&
              p[2].timeout == DbTools.RestoreTimeout
    ensures var p := ReducePlan(pg);
            |p| == 11 && p[0].timeout == DbTools.QuickTimeout &&
            (forall i :: 1 <= i < 9 ==> p[i].timeout == DbTools.QuickTimeout) &&
            p[9].timeout == DbTools.RestoreTimeout && p[10].timeout == DbTools.RestoreTimeout
  {
    var p := ReducePlan(pg);
    var middle := Tolerant(pg, TruncatedTables, DbTools.QuickTimeout) + Tolerant(pg, [NullBlobs], DbTools.RestoreTimeout);
    assert forall i :: 1 <= i < 10 ==> p[i] == middle[i - 1];
  }

  /** A command that fails on its exit status is a strict one. */
  lemma {:induction false} ExecFailsAtStrictStep(common: seq<string>, plan: seq<Step>, exits: nat -> Exit, k: nat)
    ensures var r := Exec(common, plan, exits, k);
            r.outcome == Fail(CommandFailed) ==> !plan[|r.issued| - 1].ignoreError
  {
    ExecFailure(common, plan, exits, k);
  }

  /** In `reduce` only the first step (`truncate logevent_t`) and the last
      (`vacuum full`) let a non-zero exit status end the operation; every
      other step only ends it by timing out. */
  lemma ReduceFailsOnlyAtStrictSteps(pg: Postgres, exits: nat -> Exit, k: nat)
    ensures |ReducePlan(pg)| == 11
    ensures var r := Exec(CommonArgs(pg.conn), ReducePlan(pg), exits, k);
            r.outcome == Fail(CommandFailed) ==> |r.issued| == 1 || |r.issued| == 11
  {
    var p := ReducePlan(pg);
    var middle := Tolerant(pg, TruncatedTables, DbTools.QuickTimeout) + Tolerant(pg, [NullBlobs], DbTools.RestoreTimeout);
    assert forall i :: 1 <= i < 10 ==> p[i] == middle[i - 1];
    ExecFailsAtStrictStep(CommonArgs(pg.conn), p, exits, k);
  }

  /** Error-tolerant plans (customer patch, set_1_1) only fail by timing out. */
  lemma TolerantPlansOnlyTimeOut(pg: Postgres, exits: nat -> Exit, k: nat)
    ensures Exec(CommonArgs(pg.conn), CustomerPatchPlan(pg), exits, k).outcome != Fail(CommandFailed)
    ensures Exec(CommonArgs(pg.conn), Set11Plan(pg), exits, k).outcome != Fail(CommandFailed)
  {
    ExecFailsAtStrictStep(CommonArgs(pg.conn), CustomerPatchPlan(pg), exits, k);
    ExecFailsAtStrictStep(CommonArgs(pg.conn), Set11Plan(pg), exits, k);
  }
}
