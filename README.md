# Test stand tools: a Dafny model

The system is a small service that runs a test stand for a web application
that lives in Tomcat. It keeps one database for that application in one of three
backends:

- a remote PostgreSQL server driven through `psql`, `pg_dump` and `pg_restore`;
- a SQL Server reached through `pymssql`;
- a PostgreSQL server in a Docker container that the service creates, starts,
  archives and replaces itself.

It fetches builds of the application from Jenkins. It stops and restarts
Tomcat around every long operation, and it records the current task, the
last task and the last error for its status page. Its configuration is made
of class defaults, an `environment.json` file and environment variables.
An HTTP handler routes actions to the engine. A single worker runs the long
actions one after the other, either synchronously or in the background.

The model follows the source file by file:

| file | module | form |
|---|---|---|
| db_support/db_tools.py | `DbTools` | pure: the connection descriptor, the timeouts, the capability hierarchy |
| db_support/postgres.py | `Postgres` | pure plans of console commands, a pure executor, and a method for the in-place argv insert loop |
| db_support/mssql.py | `Mssql` | class `Mssql` with the mutable port and the calls sent, proved against pure trace functions |
| db_support/postgres_in_docker.py | `Pgdocker` | class `Pgdocker` with the container name, the files and the calls, proved against pure specification functions |
| jenkins.py | `Jenkins` | class `Jenkins`: the poll loop and the artifact fetch as methods, proved against pure specification functions |
| engine.py | `Engine` | class `Engine` with the task fields, the Tomcat return code, the calls and the files; every method is proved equal to a pure state transition |
| config.py | `Config` | classes `ConfigObject` and `RootConfig` whose field maps the update loops rewrite in place, proved against pure overlay functions |
| web_handlers.py | `WebHandlers` | pure routing and page fallbacks; class `Actions` with the worker queue, the check loop and `get` |

Helper modules hold pieces the core relies on:

- `Wrappers`: `Option`, `Outcome` and `Result`.
- `Text`: the Python string operations used, stated as contracts. These are
  `find`, `split`, `join`, slicing, `str(int)`, `str.format` over plain
  fields, `lower` on ASCII letters and `int(str)` on ASCII decimal
  literals (see "Left out").
- `Files`: the host filesystem as a value.

External systems are modelled as oracles, functions from the position of
a call to its answer. This covers the console processes, the SQL Server,
the Docker daemon, Jenkins, the Tomcat process and the backend as the
engine sees it. Each model records the calls it makes, in order. So every
property of the form "this is done before that" or "this is issued only
if" is a statement about that record. Each class method has an `ensures`
clause equating its new state and result with a pure function of the old
state. The properties are proved as lemmas about those functions.

## Model

| member | source | states |
|---|---|---|
| DbTools.FromConfig | db_support/db_tools.py:4-9 | The backend's address is the configured `ip`, and its port, name, user and password are the configured ones, unchanged. |
| DbTools.VariantNamed | engine.py:29-39 | A tag names a concrete backend exactly when it is the `DB_TYPE` of one of them, and never the abstract base. |
| DbTools.ConcreteVariantsImplementAll | db_support/db_tools.py:16-44 | A capability falls through to the base class's `NotImplementedError` exactly when the backend is the base class itself or it is `drop` on SQL Server. It gives which class provides each capability of the Docker backend. |
| Postgres.New | db_support/postgres.py:15-21 | The constructor copies the connection and the restore error tolerance. It creates the backup directory exactly when it is missing and places the backup at `default.backup` inside it. |
| Postgres.NewThenHasDefaultBackup | db_support/postgres.py:72-77 | Right after construction, a default backup exists exactly when `backup_dir/default.backup` existed. |
| Postgres.PlanTimeouts | db_support/postgres.py:50-133 | Create, drop and the `reduce` truncations run under the quick timeout, the dump under the backup timeout, and the restore's load, the blob nulling and the vacuum under the restore timeout. |
| Postgres.PyInsertAtOne | db_support/postgres.py:32 | `list.insert(1, x)` puts `x` right after the first element, or makes `[x]` of an empty list. |
| Postgres.InsertStep | db_support/postgres.py:30-32 | One round of the insert loop over the reversed common arguments extends the arguments placed so far, in order, after the program name. |
| Postgres.InsertCommon | db_support/postgres.py:24-32 | The in-place argv built by the loop is the program name, then `--host`, address, `--username`, user, then `--port` and the port only when a port is set, then the rest of the arguments. |
| Postgres.CommandOutcome | db_support/postgres.py:38-48 | A command passes exactly when it exited and its status is 0 or errors are ignored. A failure is a timeout when the command timed out, and a command failure otherwise. |
| Postgres.ExecIssues | db_support/postgres.py:22-37 | Running a plan issues its commands in order, each command line with the common arguments inserted and with the step's timeout and standard input. |
| Postgres.ExecPassesBefore | db_support/postgres.py:37-48 | Every command issued before the last one passed, so a run stops at the first command that fails. |
| Postgres.ExecPassesIff | db_support/postgres.py:37-48 | A run passes exactly when it issued the whole plan and every command passed. |
| Postgres.ExecFailure | db_support/postgres.py:37-48 | A failing run issued at least one command, and its error is the outcome of the last command issued: a timeout or a non-zero status that is not ignored. |
| Postgres.Route | db_support/postgres.py:81-98 | A non-directory described as `ASCII text` goes to the psql path. Otherwise a directory or a `PostgreSQL` or `POSIX tar archive` description goes to `pg_restore`. |
| Postgres.RestoreShape | db_support/postgres.py:79-115 | An unrecognised format raises `Wrong postgres backup format` and runs nothing. Each recognised format runs exactly drop, create and one load step whose tolerance is `ignore_restore_errors`. The psql load reads the backup on stdin. The `pg_restore` load adds `--exit-on-error` just before the path exactly when errors are not ignored. |
| Postgres.RestoreRunsInOrder | db_support/postgres.py:84-85 | Restore always issues the drop first. The create follows only if the drop passed, and the load only if both passed. |
| Postgres.Tolerant | db_support/postgres.py:139-162 | The tolerant truncations make one error-tolerant step per statement. |
| Postgres.CustomerPatchPlan | db_support/postgres.py:117-124 | The patch issues one command when the database name contains `pgups`, and none otherwise. |
| Postgres.ExecFailsAtStrictStep | db_support/postgres.py:47-48 | A plan that fails with a command failure failed at a step that does not ignore errors. |
| Postgres.ReduceFailsOnlyAtStrictSteps | db_support/postgres.py:126-176 | `reduce` has 11 steps. A command failure can only come from the first step (`truncate logevent_t`) or the last (`vacuum full`). |
| Postgres.TolerantPlansOnlyTimeOut | db_support/postgres.py:178-188 | Neither `customer_patch` nor `set_1_1` can fail by a non-zero exit status; only a timeout escapes them. |
| Mssql.NewDb | db_support/mssql.py:14-17 | The backend copies the connection and the database files directory. Its backup is `<backup_dir>\<name>.bak`. |
| Mssql.PortDefaultPersists | db_support/mssql.py:22-23 | The port `_run_sql` leaves behind is always set. Calling it again keeps that port, and a port that was set is never replaced. |
| Mssql.Call | db_support/mssql.py:24-30 | The connection names the database exactly when `connect_to_current_db` holds, and then it names this backend's database. |
| Mssql.AnswerCases | db_support/mssql.py:32-47 | A statement raises when the connection fails, or when execution fails and errors are not ignored. Otherwise its result is the fetched rows of a query and the row count of anything else. |
| Mssql.ExecPassesIff | db_support/mssql.py:19-47 | A series of statements passes exactly when no step fails. Every step before the last one sent passed. |
| Mssql.ExecCalls | db_support/mssql.py:19-30 | The statements of a series are sent in order, each with its own timeout and database choice. |
| Mssql.ExecFailure | db_support/mssql.py:35-41 | A failing series reports the error of the last statement sent. |
| Mssql.ExecFailsAtStrictStep | db_support/mssql.py:37-41 | A failure with a working connection comes from a statement that does not ignore errors. |
| Mssql.ExecAppend | db_support/mssql.py:135-217 | Running two series one after the other is running their concatenation, the second starting only if the first passed. |
| Mssql.TolerantSeriesOnlyFailOnConnect | db_support/mssql.py:113-133 | `customer_patch`, `map_user_schema` and `set_1_1` fail only when a connection fails. |
| Mssql.BackupProbe | db_support/mssql.py:66-76 | `has_default_backup` answers false exactly when the file list query raises `DatabaseError`, and true exactly when it succeeds. Any other error propagates. |
| Mssql.MoveClauses | db_support/mssql.py:88-94 | The restore builds one `MOVE` clause per backup file, in file-list order. |
| Mssql.NewFileNameShape | db_support/mssql.py:89-92 | A file moves to `<db_files_dir>\<name>_<file index>` with the extension `.LDF` exactly when its type is `L`, and `.MDF` otherwise. |
| Mssql.RenamesComplete | db_support/mssql.py:103-111 | A rename is issued for every file whose lower-cased logical name differs from `<name>_log` for a log file, or from `<name>_<file index>` otherwise. |
| Mssql.RenamesSound | db_support/mssql.py:103-111 | Every rename issued belongs to a file that needs one, and there is at most one per file. |
| Mssql.RestoreOrder | db_support/mssql.py:78-111 | The restore sends the file list query first, outside the database. The `RESTORE ... WITH RECOVERY, REPLACE` statement with all `MOVE` clauses comes second, only if the query answered, with the restore timeout. After it come exactly the renames. |
| Mssql.UseAll | db_support/mssql.py:157-170 | The truncations of the document tables are each prefixed by `use <name>;`, one per statement. |
| Mssql.BlobRunShape | db_support/mssql.py:178-187 | The blob loop sends only the `top(1000)` update. It fails only when a connection fails, with that error. |
| Mssql.BlobRunDrains | db_support/mssql.py:180-187 | With `n` blobs left and each batch clearing up to 1000, the loop passes. It sends `ceil(n/1000) + 1` batches, the last one reporting 0 rows, unless the timer fires first. |
| Mssql.ReadingCases | db_support/mssql.py:193-196 | A size reading is the error of its query, an `IndexError` when there is no fourth column, a `ValueError` when the text without its last three characters is not an integer, and that integer otherwise. |
| Mssql.ReadingOfKilobytes | db_support/mssql.py:196 | A reading `"<n> KB"` parses to `n`. |
| Mssql.SizeRunChanges | db_support/mssql.py:192-201 | The size wait goes on only while each reading differs from the one before. The first reading differs from the initial 999999999. |
| Mssql.SizeRunSettles | db_support/mssql.py:197-198 | The size wait passes only on a reading equal to the one before it. |
| Mssql.SizeRunFailure | db_support/mssql.py:193-196 | The size wait fails only on a reading that raised, with that error, or when the readings followed are exhausted. |
| Mssql.ReduceStartsSimple | db_support/mssql.py:138-139 | `reduce` first sends `SET RECOVERY SIMPLE`, which is not error-tolerant, and its failure ends the operation. |
| Mssql.StepTimeouts | db_support/mssql.py:49-217 | Create runs under the quick timeout and the backup under the backup timeout. In `reduce` the log shrinks and the blob batches run under the middle timeout and the database shrink under the restore timeout. |
| Mssql.ReduceEndsFull | db_support/mssql.py:216-217 | A `reduce` that passes ends with `SET RECOVERY FULL`, which is not error-tolerant. |
| Mssql.Mssql.constructor | db_support/mssql.py:14-17 | The object starts with the backend built from the configuration, the configured port and no calls sent. |
| Mssql.Mssql.RunSql | db_support/mssql.py:19-47 | It defaults the port to 1433 in place, sends exactly one statement with that port, and answers as the server said. |
| Mssql.Mssql.RunSteps | db_support/mssql.py:19-47 | The loop over a series sends exactly what the series trace says and ends with its outcome. |
| Mssql.Mssql.Create | db_support/mssql.py:49-58 | `create` sends the `CREATE DATABASE` statement outside the database, then the two snapshot settings, stopping at the first failure. |
| Mssql.Mssql.Backup | db_support/mssql.py:60-64 | `backup` sends the one `BACKUP DATABASE ... WITH INIT` statement with the backup timeout. |
| Mssql.Mssql.CustomerPatch | db_support/mssql.py:113-125 | `customer_patch` sends its two error-tolerant statements. |
| Mssql.Mssql.MapUserSchema | db_support/mssql.py:127-133 | `map_user_schema` sends its one error-tolerant statement. |
| Mssql.Mssql.Set11 | db_support/mssql.py:219-227 | `set_1_1` sends its one error-tolerant statement. |
| Mssql.Mssql.HasDefaultBackup | db_support/mssql.py:66-76 | It sends the file list query outside the database and answers as the backup probe says. |
| Mssql.Mssql.BuildRestoreSql | db_support/mssql.py:86-98 | The loop that appends `MOVE` clauses builds the restore statement. It yields nothing exactly when a file-list row is too short to index. |
| Mssql.Mssql.RunRenames | db_support/mssql.py:103-111 | The rename loop sends exactly the renames of the file list. |
| Mssql.Mssql.RestoreFiles | db_support/mssql.py:86-111 | After the file list, the restore statement and the renames are sent as the restore trace says. |
| Mssql.Mssql.Restore | db_support/mssql.py:78-111 | `restore` sends exactly the calls of the restore trace and ends with its outcome. |
| Mssql.Mssql.BlobLoop | db_support/mssql.py:178-187 | The blob loop sends batches while they report rows and the timer has not fired, as the blob trace says. |
| Mssql.Mssql.ReadSize | db_support/mssql.py:193-196 | One `sp_spaceused` query yields the parsed size reading. |
| Mssql.Mssql.SizeWait | db_support/mssql.py:191-201 | The size wait loop sends readings until two in a row are equal, as the size trace says. |
| Mssql.Mssql.Shrink | db_support/mssql.py:191-213 | The size wait is followed by the shrink statements, only if the wait passed. |
| Mssql.Mssql.Cleanup | db_support/mssql.py:172-213 | The blob loop is followed by the size wait and the shrinks, only if the blob loop passed. |
| Mssql.Mssql.Reduce | db_support/mssql.py:135-217 | `reduce` sends exactly the calls of the reduce trace: the fixed prefix, the blob loop, the size wait and the fixed suffix, each only if everything before it passed. |
| Pgdocker.ParseIdentity | db_support/postgres_in_docker.py:28-31 | The identity text parses exactly when it splits on `' '` into two fields, giving those fields. |
| Pgdocker.IdentityRoundTrip | db_support/postgres_in_docker.py:47-54 | The saved identity is `name + ' ' + port`. For a name and a port without spaces, parsing it gives the same pair back. |
| Pgdocker.ParsedFieldsHaveNoSpace | db_support/postgres_in_docker.py:30 | A parsed identity's name and port contain no space. |
| Pgdocker.LoadIdentity | db_support/postgres_in_docker.py:27-35 | A readable identity file gives its pair. A missing file, or one with a different field count, gives the empty name and the random port. |
| Pgdocker.Override | db_support/postgres_in_docker.py:37-38 | A configured container name or port overrides the loaded one when it is set, and the loaded one is kept otherwise. |
| Pgdocker.Issue | db_support/postgres_in_docker.py:67-85 | A Docker call on an empty container name raises `NullResource` without reaching the daemon. Otherwise it is sent and fails with the daemon's error, if any. |
| Pgdocker.ConsoleTraceIsExec | db_support/postgres_in_docker.py:74 | The inherited console commands run inside the Docker backend exactly as the Postgres executor runs them. |
| Pgdocker.ProbesAsWritten | db_support/postgres_in_docker.py:72-80 | The probe loop as written makes at most the allowed number of probes. |
| Pgdocker.TimedOutProbeEscapes | db_support/postgres_in_docker.py:72-80 | As written, a first probe that times out escapes the loop with a timeout even when the second probe would have answered. The intended loop retries it and passes on the second probe. |
| Pgdocker.ProbeTraceBounded | db_support/postgres_in_docker.py:72-80 | The start probe is issued between 1 and 15 times, every probe identical. The loop passes exactly on the first probe that answers, and every earlier probe failed. After 15 failures it raises `Pgdocker was not started`, having made exactly 15 probes. |
| Pgdocker.StartProbesAfterStart | db_support/postgres_in_docker.py:67-80 | `_start` first asks Docker to start the container, and probes only if that succeeded, at most 15 times. An empty container name raises `NullResource` at once. |
| Pgdocker.SaveSpec | db_support/postgres_in_docker.py:47-54 | A successful save writes `name + ' ' + port` to the identity file. A failed inspect writes nothing and keeps the name. |
| Pgdocker.CreateSavesOnlyOnSuccess | db_support/postgres_in_docker.py:87-97 | A failed `create` keeps the name and the files. A successful one writes the identity of the new container. |
| Pgdocker.CreateLeavesNoOrphan | db_support/postgres_in_docker.py:87-97 | When the container was created but starting it or creating the database failed, the last call is the forced removal of that container. |
| Pgdocker.DropForgetsName | db_support/postgres_in_docker.py:99-102 | A successful `drop` removes the current container, then forgets its name and saves the empty name with the port unchanged. A failed removal changes neither. An empty name raises `NullResource`. |
| Pgdocker.BackupOrder | db_support/postgres_in_docker.py:104-113 | `backup` stops the container with timeout 60, waits for it, archives the data directory into `default.tar`, then starts it again. Each call is made only if the previous one succeeded, and the archive is written only once fetched. |
| Pgdocker.TarRestoreReplacesContainer | db_support/postgres_in_docker.py:115-129 | A restore of a tar archive removes the current container, then creates a fresh one with no name. When it succeeds, the identity ends up naming the new container. |
| Pgdocker.OtherRestoreIsPostgres | db_support/postgres_in_docker.py:130-131 | When the `file` output does not mention a tar archive, the restore is the inherited Postgres restore and keeps the container and the files. |
| Pgdocker.SavedIdentityReloads | db_support/postgres_in_docker.py:27-54 | A saved identity reads back as the same name and port on the next start. |
| Pgdocker.PgView | db_support/postgres_in_docker.py:19-38 | The inherited Postgres view connects on the resolved port and keeps its backup at `default.tar`. |
| Pgdocker.InheritedUseContainer | db_support/postgres_in_docker.py:23-38 | The port is always set as a string, so the inherited commands carry `--port` unless the port is empty. In any filesystem the inherited backup check answers whether `default.tar` exists in the backup directory. |
| Pgdocker.Pgdocker.constructor | db_support/postgres_in_docker.py:18-38 | The object loads the identity file, overrides the name and port from the configuration, and starts with no calls. |
| Pgdocker.Pgdocker.Call | db_support/postgres_in_docker.py:67-85 | One Docker call changes only the calls made, as `Issue` says. |
| Pgdocker.Pgdocker.RunPlan | db_support/postgres_in_docker.py:74 | A plan of console commands runs as the console trace says. |
| Pgdocker.Pgdocker.Start | db_support/postgres_in_docker.py:67-80 | `_start` with the probe loop as intended (see Findings): a timed-out probe is retried like a refused one. It makes exactly the calls of the start trace. |
| Pgdocker.Pgdocker.Init | db_support/postgres_in_docker.py:40-45 | The initial start uses the file's name and swallows `NotFound` and `NullResource`. |
| Pgdocker.Pgdocker.SaveContainer | db_support/postgres_in_docker.py:47-54 | `_save_container` changes the name and the identity file as the save specification says. |
| Pgdocker.Pgdocker.CreateContainerCall | db_support/postgres_in_docker.py:56-65 | `_create_container` sends one create call with the image, the name, the port binding and the password, and returns the new id or the daemon's error. |
| Pgdocker.Pgdocker.CreateIn | db_support/postgres_in_docker.py:90-97 | It starts the new container, creates the database and saves the identity, and removes the container on any failure. |
| Pgdocker.Pgdocker.Create | db_support/postgres_in_docker.py:87-97 | `create` behaves as the create specification says. |
| Pgdocker.Pgdocker.Drop | db_support/postgres_in_docker.py:99-102 | `drop` behaves as the drop specification says. |
| Pgdocker.Pgdocker.Backup | db_support/postgres_in_docker.py:104-113 | `backup` behaves as the backup specification says. |
| Pgdocker.Pgdocker.TarRestore | db_support/postgres_in_docker.py:121-129 | The filesystem restore behaves as the tar restore specification says. |
| Pgdocker.Pgdocker.Restore | db_support/postgres_in_docker.py:115-131 | `restore` routes on the `file` output as the restore specification says. |
| Jenkins.Params | jenkins.py:36-39 | The job gets a `Version` parameter exactly when a branch is set, with that branch as its value. |
| Jenkins.ProbesCount | jenkins.py:46-57 | With `elapsed` stepping by 15 and the loop stopping past 600, the number of probes left is `1 + (600 - elapsed) / 15`, or none past the limit. |
| Jenkins.AtMost41Probes | jenkins.py:46-57 | From a standing start the poll loop probes at most 41 times. |
| Jenkins.PollShape | jenkins.py:46-57 | The poll loop is some rounds of probe-then-sleep, each finding the build missing or running. It ends with a final probe that finds it finished, or after all 41 rounds. |
| Jenkins.BuildProjectOrder | jenkins.py:25-62 | The next build number is read first, and the job is triggered next with the branch parameter. The last call is the status probe of that number. The result is that number exactly when the build is good, and otherwise the build is missing or failed, even when the loop hit its deadline. |
| Jenkins.SplitBreaks | jenkins.py:114 | Splitting on a separator that occurs gives at least two parts. |
| Jenkins.SplitLast | jenkins.py:114 | Splitting `a + c + t` on `c`, with no `c` in `t`, gives `t` as the last part. |
| Jenkins.DescriptorReadsBack | jenkins.py:111-114 | The descriptor starts with the local build time, and its last word is the build number. |
| Jenkins.Clean | jenkins.py:88-89 | Clearing a directory leaves it existing and empty, and keeps every file outside it unchanged. |
| Jenkins.FetchChecksBeforeTouching | jenkins.py:76-114 | A missing or bad build raises before the directory is touched. A good build with no artifacts clears the directory and returns nothing. A descriptor is returned only for a good build whose first artifact was saved as a zip, and the descriptor names it. A good build with artifacts fails exactly when the first artifact is broken or not a zip. |
| Jenkins.FirstArtifactOnly | jenkins.py:93-114 | Only the first artifact matters: the fetch behaves as if the build had only that one. |
| Jenkins.FetchNamesBuild | jenkins.py:76-80 | `get_build` asks for the given build number, or for the last build when the number is missing or 0. The descriptor names that number, or the last build's. |
| Jenkins.Jenkins.constructor | jenkins.py:16-23 | The client keeps the project settings and starts with no calls. |
| Jenkins.Jenkins.BuildProject | jenkins.py:25-62 | The `while` poll loop with its `elapsed` counter makes exactly the calls of the build specification, and returns its result without touching the files. |
| Jenkins.Jenkins.GetBuild | jenkins.py:64-114 | The fetch makes exactly the calls and the file changes of the fetch specification, and returns its result. |
| Engine.Log | engine.py:99-113 | Recording a call keeps the earlier calls as a prefix and adds one. |
| Engine.LogAppends | engine.py:99-113 | The call added is exactly the one recorded, after the earlier ones, and the files, the Tomcat code and the task fields stay as they were. |
| Engine.Conn | engine.py:29-36 | `engine.db` holds the configured address, name and credentials. Its port is the configured one, except that the containerised backend holds the port it resolved. |
| Engine.PortShown | engine.py:72-73 | The port written is the MSSQL default `1433` when MSSQL has none set, the resolved port for the Docker backend, and otherwise the configured one, with no port shown as `None`. |
| Engine.PgdockerPortShown | db_support/postgres_in_docker.py:27-38 | For the Docker backend the port written is the configured one when set, and otherwise the identity file's or the random one. |
| Engine.HibernateFlagIsTruthiness | engine.py:75-76 | With the options read from a `db` section, the line switching the entity check off is appended exactly when `validate_entity_code` is falsy there. |
| Engine.ExitDropsIfRmTruthy | engine.py:93-97 | With the options read from a `db` section, `_exit` drops exactly when `rm` is truthy there, so the environment text `false` drops. |
| Engine.StartTomcatSpawnsIff | engine.py:99-103 | `start_tomcat` polls, then spawns a new Tomcat exactly when the polled return code is non-zero and not `None`. |
| Engine.StopTomcatTerminatesIff | engine.py:105-113 | `stop_tomcat` polls and does nothing more exactly when the code is non-zero. Otherwise it terminates and waits 30 seconds, then kills exactly when the wait timed out. |
| Engine.StopTomcatLength | engine.py:105-113 | `stop_tomcat` makes one, three or four calls, as its branch says. |
| Engine.DbF | engine.py:157 | A backend call records the call and raises exactly when the backend raised. |
| Engine.HibernateNeedsTemplate | engine.py:69-70 | A missing template raises the error of the open before anything is written. |
| Engine.HibernateFillsTemplate | engine.py:62-79 | The template is the MSSQL one exactly for the MSSQL backend. It is written to the configuration file with address, name, port, user and password filled in, the port being the one `PortShown` gives and the address the configured `ip`. `db.validateEntityCode=false` is appended exactly when entity validation is off. |
| Engine.HibernateReportsUnknownField | engine.py:72-73 | A template naming a field other than the five raises `KeyError`, so the error is the name in single quotes (`'foo'` for `{foo}`), and nothing is written. A field named by digits or by nothing is positional and raises `IndexError` with its `Replacement index ... out of range` text. |
| Engine.HibernateReportsLoneBrace | engine.py:72-73 | A template with a lone `}` raises `ValueError`, so the error is `Single '}' encountered in format string`, and nothing is written. |
| Engine.End | engine.py:128-133 | Leaving a task, with or without an exception, sets the last task to its name, clears the active task and keeps the outcome and everything else. |
| Engine.ExitDropsOnlyIfRm | engine.py:90-97 | `_exit` stops Tomcat and drops the database exactly when the `rm` option read is on. A failing drop is swallowed, and the task fields and files are kept. |
| Engine.LogExceptionsF | engine.py:115-122 | `log_exceptions` never raises. |
| Engine.LoggedErrorIsOutcome | engine.py:115-122 | After `log_exceptions`, the last error is cleared exactly when the workflow passed, and is the workflow's error otherwise. Nothing else differs from running the workflow. |
| Engine.TomcatStoppedFirst | engine.py:145-198 | Every workflow but `build_and_update` starts by stopping Tomcat (`new_stand` through `new_db`): a poll, then terminate and a 30-second wait unless it had exited. `build_and_update` starts by building. |
| Engine.StartTomcatRestarts | engine.py:99-103 | `start_tomcat` ends with Tomcat started or running. |
| Engine.CreateTaskRaises | engine.py:156-158 | The `CREATE_DB` task makes the one create call and closes the task. When create raised it raises that exception and writes nothing. Otherwise it raises the `open` error for a missing template. For a template `format` rejects, the error is `str(e)` of the exception `format` raised. It passes when the template fills. |
| Engine.RestoreEnds | engine.py:169-174 | `restore` ends with Tomcat restarted when it passes, and right after the raising call when it fails. |
| Engine.NewDbEnds | engine.py:154-162 | `new_db` ends with Tomcat restarted when it passes, and right after the raising call when it fails. |
| Engine.UpdateEnds | engine.py:189-193 | `update` ends with Tomcat restarted when it passes, and right after the raising call when it fails. |
| Engine.RestartUnlessFailed | engine.py:145-198 | Any workflow that raises does nothing after the raising call, so the restart is skipped. Every workflow but `drop_db` that passes ends by restarting Tomcat. `drop_db` ends with the drop and Tomcat stopped. |
| Engine.TasksClosed | engine.py:124-133 | After any workflow, no task is active, the last error is untouched, and the last task is the task that ran last. |
| Engine.NewStandCloses | engine.py:145-152 | After `new_stand` no task is active, and the last task is `CREATE_DB`, `RESTORE_DB` or `UPLOAD`. |
| Engine.NewDbStopsAfterFailedCreate | engine.py:154-158 | A failed `CREATE_DB` ends `new_db` with nothing after it, `CREATE_DB` being the last task. |
| Engine.NewDbRestoresOnlyWithBackup | engine.py:154-162 | After a successful `CREATE_DB` the backup check comes next. The restore follows the stop of Tomcat exactly when the check answered yes; otherwise only Tomcat calls follow. |
| Engine.AfterCreateAsks | engine.py:159-162 | The part of `new_db` after `CREATE_DB` asks for the default backup first, restores after stopping Tomcat when there is one, and otherwise only starts Tomcat. |
| Engine.NewDbRecordsTask | engine.py:154-162 | After `new_db` no task is active and the last error is untouched. The last task is `RESTORE_DB` exactly when create passed and a backup was found, and `CREATE_DB` otherwise. |
| Engine.RestoreRecords | engine.py:169-174 | After `restore` no task is active, the last task is `RESTORE_DB` and the last error is untouched. |
| Engine.UpdateRecords | engine.py:189-193 | After `update` no task is active, the last task is `UPLOAD` and the last error is untouched. |
| Engine.BuildNumberReachesUpdate | engine.py:195-198 | `build_and_update` builds first. A failed build ends it there with the error. Otherwise `update` fetches exactly the build number returned, after stopping Tomcat. |
| Engine.UpdateWritesVersion | engine.py:189-193 | `update` fetches the requested build into the web application directory after stopping Tomcat. When the fetch fails it raises and writes nothing. Otherwise it writes the version line `Test tools. Jenkins job: <project> <version or ''> at <details>`. |
| Engine.PollF | engine.py:136 | A poll records one call and stores the returned code, changing nothing else. |
| Engine.Engine.constructor | engine.py:25-49 | The engine starts with no error, no active or last task, and Tomcat spawned. |
| Engine.Engine.Ask | engine.py:157 | One call is recorded and its answer returned. |
| Engine.Engine.StartTomcat | engine.py:99-103 | `start_tomcat` as specified by its state transition. |
| Engine.Engine.StopTomcat | engine.py:105-113 | `stop_tomcat` as specified by its state transition. |
| Engine.Engine.BeginTask | engine.py:126 | Entering a task makes it the active task. |
| Engine.Engine.EndTask | engine.py:130-133 | Leaving a task sets the last task and clears the active one. |
| Engine.Engine.CallDb | engine.py:157 | A backend call as specified. |
| Engine.Engine.CallDbPair | engine.py:172-173 | Two backend calls inside one task, the second only if the first passed. |
| Engine.Engine.WriteHibernateProperties | engine.py:62-79 | `_write_hibernate_properties` as specified by `HibernateF`. |
| Engine.Engine.WriteVersionFile | engine.py:81-88 | The version file gets exactly the version line. |
| Engine.Engine.CreateTask | engine.py:156-158 | The `CREATE_DB` task: create, then the properties write. |
| Engine.Engine.NewDb | engine.py:154-162 | `new_db` as specified by its state transition. |
| Engine.Engine.DropDb | engine.py:164-167 | `drop_db` as specified by its state transition. |
| Engine.Engine.Restore | engine.py:169-174 | `restore` as specified by its state transition. |
| Engine.Engine.Backup | engine.py:176-180 | `backup` as specified by its state transition. |
| Engine.Engine.Reduce | engine.py:182-187 | `reduce` as specified by its state transition. |
| Engine.Engine.Upload | engine.py:191-192 | The `UPLOAD` task: fetch the build, write the version file. |
| Engine.Engine.Update | engine.py:189-193 | `update` as specified by its state transition. |
| Engine.Engine.BuildAndUpdate | engine.py:195-198 | `build_and_update` as specified by its state transition. |
| Engine.Engine.NewStand | engine.py:145-152 | `new_stand` as specified by its state transition. |
| Engine.Engine.Run | engine.py:145-198 | Any workflow as specified by its state transition. |
| Engine.Engine.LogExceptions | engine.py:115-122 | `log_exceptions` as specified by its state transition. |
| Engine.Engine.Exit | engine.py:90-97 | `_exit` as specified by its state transition. |
| Engine.Engine.PollTomcat | engine.py:136 | A poll returns the new code. |
| Engine.Engine.EngineStatus | engine.py:135-143 | The status holds the last error, last task and active task as they were, the backend's address and the freshly polled return code. |
| Config.FromDict | config.py:17-26 | The overlay of a JSON section keeps the set of keys, so unknown keys add nothing, and never turns a nested object into a scalar or back. |
| Config.LastFor | config.py:18 | A key has a JSON value exactly when the section lists it. |
| Config.FromDictPointwise | config.py:17-26 | After the overlay, a known scalar key holds the last value the section gives it, or its old value when the section does not list it. A nested object is kept. |
| Config.EnvNameInjective | config.py:33 | Distinct keys of one section look up distinct environment variables. |
| Config.FromEnv | config.py:28-35 | The environment overlay keeps the set of keys and skips nested objects. |
| Config.OverlaysArePrioritised | config.py:79-111 | A field ends as the environment variable `<CONF_NAME>_<key>` (or `<key>` for the root) when it is set. Otherwise it is the JSON value when listed, and otherwise the class default. |
| Config.FirstUndefined | config.py:38-42 | The search finds the first field, in assignment order, still `undefined`, or none exactly when no field is. |
| Config.Check | config.py:37-42 | Validation fails exactly when some field is `undefined`, and passes exactly when none is. |
| Config.CheckNamesFirst | config.py:41-42 | The error names the first undefined field in assignment order: `Param <CONF_NAME>_<key> required`. |
| Config.RootDefaults | config.py:70-77 | The root defaults choose `pgdocker`, log at an accepted level and hold the nested `jenkins` and `db` objects. |
| Config.DbDefaults | config.py:143-145 | Defaults exist exactly for the three supported database types. |
| Config.DefaultPorts | config.py:161-173 | The default port is `'1433'` for mssql, `'5432'` for postgres and `None` for pgdocker. |
| Config.DbDefaultsByName | config.py:143-145 | Each supported type gets its own defaults, and every other type is rejected. |
| Config.PgdockerDefaultsValidate | config.py:173-185 | The pgdocker defaults have no undefined field and pass validation. |
| Config.MssqlRequiredFields | config.py:147-164 | The mssql defaults leave exactly `ip`, `name`, `user`, `password`, `backup_dir` and `mssql_db_dir` undefined. |
| Config.JenkinsRequiredFields | config.py:191-196 | The Jenkins defaults leave exactly `url`, `user` and `password` undefined, so validating them names `url` first. |
| Config.DbConfigOf | config.py:143-185 | The options the backends and the engine read from the db section: `rm`, `validate_entity_code` and `postgres_ignore_restore_errors` are on exactly when the field is truthy, and the port and container are `None` exactly when unset or `null`. |
| Config.DefaultFlags | config.py:155-168 | The pgdocker defaults switch the entity check on, ignore restore errors and keep the database on exit. |
| Config.EnvironmentFlag | config.py:28-35 | A flag set from the environment is on exactly when the variable's text is not empty, so `false` and `0` switch it on. |
| Config.JsonFlag | config.py:17-26 | A flag set only from `environment.json` follows the JSON value's truthiness. |
| Config.MakeConfigChecksLogLevel | config.py:91-96 | `make_config` raises from `dictConfig` exactly when the overlaid root level is neither `None`, an integer nor a level name, before any section is checked and with the db and jenkins sections unchanged. A level from the environment is accepted exactly when it is a level name. |
| Config.Overlay | config.py:91-92 | Both overlays of a section keep its keys and keep it well formed. |
| Config.FinishSpec | config.py:99-109 | Finishing the db and jenkins sections leaves the root alone and keeps their keys. It fails only on a missing jenkins section or an undefined field. |
| Config.MakeSpec | config.py:79-111 | `make_config` keeps the keys of the root and jenkins sections. |
| Config.FinishIsLayered | config.py:99-109 | When finishing passes, both sections validate and each field of each is its layered value. |
| Config.MadeConfigIsLayered | config.py:79-111 | When `make_config` passes, the root level is accepted and all three sections validate. The db section is rebuilt from the defaults of the chosen type, and it and the jenkins section hold, field by field, environment over JSON over default. |
| Config.MakeConfigNeedsRoot | config.py:91 | A missing root section fails at once, changing nothing. |
| Config.MakeConfigRejectsType | config.py:143-145 | `make_config` fails as unsupported exactly when the root's level is accepted, the root validates and its `db_type` names no backend, and then the db section is unchanged. |
| Config.MakeRebuildsDb | config.py:99 | Once the root's level is accepted and the root names a supported type, the db section held before does not affect the outcome. |
| Config.ConfigObject.constructor | config.py:143-196 | A section object starts with the given fields. |
| Config.ConfigObject.UpdateFromDict | config.py:17-26 | The loop over the JSON items rewrites the fields in place to the dictionary overlay. |
| Config.ConfigObject.UpdateFromEnv | config.py:28-35 | The loop over the fields rewrites them in place to the environment overlay. |
| Config.ConfigObject.AssertAndLog | config.py:37-42 | The validation loop answers exactly as `Check` does, without changing the object. |
| Config.RootConfig.constructor | config.py:70-77 | The root starts with the root, jenkins and pgdocker defaults. |
| Config.RootConfig.MakeConfig | config.py:79-111 | `make_config` changes the three sections exactly as `MakeSpec` says, replacing the db object only by a fresh one. |
| Config.RootConfig.Finish | config.py:101-109 | The db and jenkins part of `make_config`, as `FinishSpec` says. |
| WebHandlers.WorkflowNamed | web_handlers.py:62 | An action resolved to an engine method is that method's name. |
| WebHandlers.LongActionsAreWorkflows | web_handlers.py:17-18 | The long actions are exactly the eight workflow names, and each workflow is reachable by its name. |
| WebHandlers.RouteOf | web_handlers.py:53-81 | `check_uni` goes to the check. Otherwise a long action goes to its workflow, then `engine_status` goes to the status, and anything else is 404. |
| WebHandlers.DrainF | web_handlers.py:22 | The single worker runs the queued workflows in order, each under `log_exceptions`. |
| WebHandlers.DrainAppend | web_handlers.py:22 | Draining two queues one after the other is draining their concatenation. |
| WebHandlers.DrainRecordsLastError | web_handlers.py:70-71 | After the worker drains a queue, the last error is that of the last workflow, cleared when it passed, and no task is active. |
| WebHandlers.CheckUniShape | web_handlers.py:31-43 | The check answers up only on a successful fetch while Tomcat runs and before 900 seconds, with every earlier fetch failed. It gives up when Tomcat has exited or the deadline passed. It fetches at most 180 times. |
| WebHandlers.CheckUniPolls | web_handlers.py:31-43 | The check polls Tomcat once before each fetch and once more when it gives up, adds no other call, and changes nothing in the engine but the polled code. |
| WebHandlers.SyncAnswersOutcome | web_handlers.py:59-68 | With a non-empty `sync`, the action runs after the queue and answers `ok`, or 400 with the error text when it raised. |
| WebHandlers.AsyncQueues | web_handlers.py:70-74 | Without `sync`, the action is queued under `log_exceptions` and the answer is a redirect to `/`. |
| WebHandlers.SyncIsAsyncDrained | web_handlers.py:59-74 | Both modes run the same workflow on the same state. In the background one the error goes to the last error instead of the answer. |
| WebHandlers.CheckUniAnswers | web_handlers.py:53-55 | `check_uni` answers 200 exactly when the check found the application up, and leaves the queue alone. |
| WebHandlers.UnknownActionNotFound | web_handlers.py:80-81 | Any other action answers 404 `invalid action` and changes nothing. |
| WebHandlers.PageNeverBlank | web_handlers.py:91-99 | No status field of the page is blank. The branch, active task and last error show their value when set and `Нет` otherwise, the port its value or `Не задан`, and the last task its value or `Неизвестно`. The Docker backend shows its resolved port. |
| WebHandlers.MainPageFills | web_handlers.py:88-99 | A template of plain text and the nine placeholders is filled with exactly the page fields. |
| WebHandlers.Actions.constructor | web_handlers.py:22 | The handler starts with an empty queue. |
| WebHandlers.Actions.Work | web_handlers.py:22 | The worker takes the first queued workflow and runs it under `log_exceptions`. |
| WebHandlers.Actions.Drain | web_handlers.py:22 | The worker loop empties the queue as `DrainF` says. |
| WebHandlers.Actions.CheckUni | web_handlers.py:25-43 | The `while` loop of `_check_uni` changes the engine and answers as `CheckUniF` says. |
| WebHandlers.Actions.Get | web_handlers.py:46-81 | `get` changes the queue and the engine, and answers, as `GetF` says. |

## Left out

- Processes, SQL, Docker and Jenkins. These are oracles answering the k-th call. The meaning of the SQL statements and of the `psql`, `pg_dump` and `pg_restore` commands is not modelled; they are opaque strings.
- File-type detection (`magic.from_file`, the `file` command) and `zipfile`. Their answers are inputs: a description string, a directory flag and an unzip oracle.
- Logging. `log.*` calls, the truncated log of failing console output and `_assert_and_log`'s log lines are left out because they only produce text. Of `dictConfig(default_logging())` only the root level's check is modelled (`Config.LevelAccepted`, the `BadLogLevel` error).
- Config.RootConfig.MakeConfig: `dictConfig` also opens `log.txt` in the work directory for its file handler; a failure to open it is not modelled, because file writes never fail in the model.
- `os.putenv('PGPASSWORD', ...)` on each console command is left out because it has no effect the model can observe.
- Real time. The Jenkins poll counts seconds as a counter, and `_check_uni` counts elapsed seconds from the fetch oracle's durations plus the 5-second pause. `time.sleep` is a recorded call or a counter step.
- Mssql.Mssql.BlobLoop: the `threading.Timer` deadline is a number of batches allowed before the timer fires, because the timer is asynchronous.
- Mssql.Mssql.SizeWait: the loop can run forever in the source. The model follows a bounded number of readings and fails with `Unsettled` when they are exhausted.
- Randomness: the random port is a constructor parameter required to lie in [40000, 50000].
- Timezone conversion and `strftime`: the build time is given already formatted.
- Threads, coroutines and Tornado. The single-worker pool is a queue that `Drain` runs serially; a sync request drains the queue before running its action. The 0.5-second pause before the redirect is left out. The concurrent reading of engine fields while a workflow runs is not modelled.
- The HTTP and Tornado plumbing, `main.py` and `AdminPageHandler` are left out because they are wiring only. The HTML templates are inputs.
- `Engine._create_dirs` is left out, because directory creation has no bearing on the modelled properties. So are `os.environ['CATALINA_OPTS']` and the `CATALINA_SH` command line the constructor spawns.
- Engine.Engine.constructor: the unsupported database type `RuntimeError` is not modelled. The backend variant is a parameter, and `make_config` already rejects such a type.
- File writes never fail in the model. A missing template makes `open` raise.
- `str.format` is modelled for `{{`, `}}` and plain named fields. It is scanned left to right, so the first fault decides the exception. A lone `}`, a `{` at the end, a field never closed and a `{` inside a field name give Python's `ValueError` messages. An unknown name gives the `KeyError` text, the name in single quotes. A field with an index, an attribute, a conversion or a format spec is looked up as a whole name. With no brace inside the field, it gives the `KeyError` text of that whole name, where Python looks up the parts. A format spec holding a nested `{…}` gives `unexpected '{' in field name`, where Python substitutes the nested field.
- Engine.HibernateReportsUnknownField: the `KeyError` text is the name between single quotes, which is `repr` only for names without quotes, backslashes or unprintable characters. The `IndexError` text is the wording of Python 3.8 and later. A name of non-ASCII decimal digits, which Python also takes as positional, and the error for an index too long to convert, are not modelled.
- Config: JSON lists, objects and floats are left out. Nested values are the `Nested` marker. Reading `environment.json` is an input map of sections.
- WebHandlers.MainPage: for MSSQL the port shown is the configured one, as the backend holds it before its first call; the default `1433` the backend sets in place at its first query is not reflected.
- Pgdocker.Pgdocker.Start: it runs the probe loop as intended, the corrected member of the Findings row: a probe that times out is retried. As written, `TimeoutExpired` escapes the loop; `Pgdocker.ProbesAsWritten` and `Pgdocker.TimedOutProbeEscapes` model that. `Init`, `CreateIn`, `Create`, `Backup`, `TarRestore` and `Restore` inherit this through `Start`.
- Mssql.RenamesComplete: `Text.Lower` folds ASCII letters only, where Python's `lower` folds every cased Unicode letter. A logical file name with non-ASCII capitals is compared without them folded.
- Mssql.ReadingCases: `Text.ParseInt` reads an optional sign and ASCII digits only. Python's `int` also strips surrounding whitespace and accepts `_` between digits and non-ASCII decimal digits; such a size text is taken as a `ValueError`.
- Config.DbConfigOf: a non-string value of a text field is taken as its `str()` text. A port of `0` or `false` in `environment.json`, which Python treats as unset in `str(db_config.port or port)`, is taken as set.
- The engine's start of Tomcat follows engine.py:99-103 (`if self.tomcat.returncode:`). `start_tomcat` spawns only for a non-zero, non-`None` code, so a Tomcat that exited with code 0 is not started again.
- Inheritance dispatch inside the Docker backend is fixed by `DbTools.Provider` rather than by dynamic method lookup.

## Findings

| source | as written | input that shows it | evidently intended | confidence | as-written member | corrected member |
|---|---|---|---|---|---|---|
| db_support/postgres_in_docker.py:72-78 | The start probe retries on `ConnectionRefusedError`, `RuntimeError` and `TimeoutError`. A probe that exceeds its 1-second timeout raises `subprocess.TimeoutExpired`, which is none of those, so it leaves the loop and escapes `__init__` and `create`. | The first probe times out and the second would answer. | Every failed probe, including a timed-out one, is retried up to 15 times. | not executed | Pgdocker.TimedOutProbeEscapes | Pgdocker.ProbeTraceBounded |
