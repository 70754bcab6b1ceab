/** The engine: the long-running workflows over the database backend,
    the Jenkins client and the Tomcat process, with the task bookkeeping
    shown on the status page. The backend, the Jenkins client and the
    operating system are oracles answering the k-th call; the calls made
    are recorded in order. */
module Engine {
  import opened Wrappers
  import opened Text
  import opened Files
  import DbTools
  import Config
  import Mssql
  import Pgdocker

  const CreateDbTask: string := "CREATE_DB"
  const RestoreDbTask: string := "RESTORE_DB"
  const BackupDbTask: string := "BACKUP_DB"
  const ReduceDbTask: string := "REDUCE_DB"
  const DropDbTask: string := "DROP_DB"
  const BuildTask: string := "BUILD"
  const UploadTask: string := "UPLOAD"

  /** The calls the engine makes: on the Tomcat process (`poll`, a new
      `Popen`, `terminate`, `wait(seconds)`, `kill`), on the backend, on
      the Jenkins client, and the listing of the web application directory. */
  datatype Event =
    | Poll
    | Spawn
    | Terminate
    | WaitExit(seconds: nat)
    | Kill
    | Db(op: DbTools.Capability)
    | GetBuild(dir: string, build: Option<nat>)
    | BuildProject
    | ListWebapp

  predicate TomcatEvent(e: Event) {
    e.Poll? || e.Spawn? || e.Terminate? || e.WaitExit? || e.Kill?
  }

  /** The answer to a call: the polled or awaited return code (`None`
      while running), whether `wait` timed out, the message of an
      exception raised (`str(e)`), the answer of `has_default_backup` or
      whether the listing was empty, the build number, and the build
      description (`None` for a build without artifacts). */
  datatype Answer = Answer(code: Option<int>, timedOut: bool, failure: Option<string>, yes: bool, number: nat, details: Option<string>)

  /** The paths of the root configuration the engine writes and reads. */
  datatype Paths = Paths(templateMssql: string, templatePostgres: string, configDbFile: string, versionFile: string, webapp: string)

  /** What the engine is built from: the paths, the backend's class, the
      `db` section as the backends read it (`Config.DbConfigOf`), the port
      the containerised backend resolved when it was made, and the Jenkins
      project and branch. */
  datatype Setup = Setup(paths: Paths, variant: DbTools.Variant, db: DbTools.DbConfig, pgdockerPort: string,
                         project: string, version: Option<string>)

  /** The address, port, name and credentials `engine.db` holds: those of
      the configuration, except that the containerised backend holds the
      port it resolved (`str(db_config.port or port)`). */
  function Conn(setup: Setup): (c: DbTools.Connection)
    ensures c.addr == setup.db.ip && c.name == setup.db.name && c.user == setup.db.user && c.password == setup.db.password
    ensures c.port == if setup.variant == DbTools.Pgdocker then Some(setup.pgdockerPort) else setup.db.port
  {
    var c := DbTools.FromConfig(setup.db);
    if setup.variant == DbTools.Pgdocker then c.(port := Some(setup.pgdockerPort)) else c
  }

  /** The engine's fields, the last polled return code of Tomcat, the calls
      made so far and the files. */
  datatype ES = ES(lastError: Option<string>, activeTask: Option<string>, lastTask: Option<string>,
                   tomcat: Option<int>, events: seq<Event>, fs: Fs)

  /** A state and what was raised on the way to it. */
  datatype Step = Step(s: ES, outcome: Outcome<string>)

  /** `t` continues the calls of `s`. */
  predicate Grows(s: ES, t: ES) {
    s.events <= t.events
  }

  lemma GrowsTrans(a: ES, b: ES, c: ES)
    requires Grows(a, b) && Grows(b, c)
    ensures Grows(a, c)
  {
    assert c.events[..|a.events|] == c.events[..|b.events|][..|a.events|];
  }

  /** Recording a call. */
  function Log(s: ES, e: Event): (t: ES)
    ensures Grows(s, t) && |t.events| == |s.events| + 1
  {
    s.(events := s.events + [e])
  }

  /** Recording a call puts it after the earlier ones and changes nothing
      else. */
  lemma LogAppends(s: ES, e: Event)
    ensures var t := Log(s, e);
            t.events[..|s.events|] == s.events && t.events[|s.events|] == e &&
            t.fs == s.fs && t.tomcat == s.tomcat && t.activeTask == s.activeTask && t.lastTask == s.lastTask &&
            t.lastError == s.lastError
  {
  }

  /** Python truthiness of `returncode`: `None` and `0` are false. */
  predicate Truthy(code: Option<int>) {
    code.Some? && code.value != 0
  }

  /** `start_tomcat`: poll, and start a new process when the old one
      exited with a non-zero code. */
  function StartTomcatF(env: nat -> Answer, s: ES): (t: ES)
    ensures Grows(s, t) && t.fs == s.fs && t.activeTask == s.activeTask && t.lastTask == s.lastTask && t.lastError == s.lastError
  {
    var code := env(|s.events|).code;
    var polled := Log(s, Poll).(tomcat := code);
    if Truthy(code) then Log(polled, Spawn).(tomcat := None) else polled
  }

  /** `stop_tomcat`: poll, and unless the process exited with a non-zero
      code terminate it and wait 30 seconds, killing it when the wait
      times out. */
  function StopTomcatF(env: nat -> Answer, s: ES): (t: ES)
    ensures Grows(s, t) && t.fs == s.fs && t.activeTask == s.activeTask && t.lastTask == s.lastTask && t.lastError == s.lastError
  {
    var code := env(|s.events|).code;
    var polled := Log(s, Poll).(tomcat := code);
    if Truthy(code) then polled
    else
      var waited := Log(Log(polled, Terminate), WaitExit(30));
      var a := env(|polled.events| + 1);
      if a.timedOut then Log(waited, Kill) else waited.(tomcat := a.code)
  }

  /** `start_tomcat` starts a process exactly when the polled code is
      truthy, and leaves Tomcat running or exited without error. */
  lemma StartTomcatSpawnsIff(env: nat -> Answer, s: ES)
    ensures var t := StartTomcatF(env, s);
            t.events[|s.events|] == Poll && !Truthy(t.tomcat) &&
            (Truthy(env(|s.events|).code) <==> t.events == s.events + [Poll, Spawn]) &&
            (!Truthy(env(|s.events|).code) <==> t.events == s.events + [Poll])
  {
  }

  /** `stop_tomcat` terminates exactly when the polled code is `None` or 0,
      and kills exactly when the 30-second wait after that timed out. */
  lemma StopTomcatTerminatesIff(env: nat -> Answer, s: ES)
    ensures var t := StopTomcatF(env, s);
            var k := |s.events|;
            (Truthy(env(k).code) <==> t.events == s.events + [Poll]) &&
            (!Truthy(env(k).code) && !env(k + 2).timedOut <==> t.events == s.events + [Poll, Terminate, WaitExit(30)]) &&
            (!Truthy(env(k).code) && env(k + 2).timedOut <==> t.events == s.events + [Poll, Terminate, WaitExit(30), Kill])
  {
  }

  /** A call of the backend. */
  function DbF(op: DbTools.Capability, env: nat -> Answer, s: ES): (r: Step)
    ensures r.s == Log(s, Db(op))
    ensures r.outcome.Fail? <==> env(|s.events|).failure.Some?
  {
    var a := env(|s.events|);
    if a.failure.Some? then Step(Log(s, Db(op)), Fail(a.failure.value)) else Step(Log(s, Db(op)), Pass)
  }

  /** Two backend calls, the second only after the first succeeded. */
  function DbPairF(first: DbTools.Capability, second: DbTools.Capability, env: nat -> Answer, s: ES): (r: Step)
    ensures Grows(s, r.s) && r.s.fs == s.fs && r.s.activeTask == s.activeTask && r.s.lastTask == s.lastTask
  {
    var a := DbF(first, env, s);
    if a.outcome.Fail? then a else DbF(second, env, a.s)
  }

  // ---------------------------------------------------------------------
  // the configuration files written for the web application

  /** The port as `format` shows it: the MSSQL backend has defaulted an
      unset port to 1433 by the time it created the database, the
      containerised backend shows the port it resolved, and otherwise an
      unset port shows as `None`. */
  function PortShown(setup: Setup): (p: string)
    ensures setup.variant == DbTools.Mssql ==> p == Mssql.EffectivePort(setup.db.port)
    ensures setup.variant == DbTools.Pgdocker ==> p == setup.pgdockerPort
    ensures setup.variant == DbTools.Postgres ==> p == if setup.db.port.Some? then setup.db.port.value else "None"
  {
    var port := Conn(setup).port;
    if setup.variant == DbTools.Mssql then Mssql.EffectivePort(port)
    else if port.Some? then port.value else "None"
  }

  /** The keyword arguments of the template's `format`. */
  function Fields(setup: Setup): map<string, string> {
    var c := Conn(setup);
    map["addr" := c.addr, "name" := c.name, "port" := PortShown(setup), "user" := c.user, "password" := c.password]
  }

  /** The MSSQL template for the MSSQL backend, the Postgres one otherwise. */
  function TemplatePath(setup: Setup): string {
    if setup.variant == DbTools.Mssql then setup.paths.templateMssql else setup.paths.templatePostgres
  }

  const NoEntityValidation: string := "\ndb.validateEntityCode=false\n"

  /** `str(e)` of the `FileNotFoundError` of opening a missing file. */
  function NotFoundMessage(path: string): string {
    "[Errno 2] No such file or directory: '" + path + "'"
  }

  /** `_write_hibernate_properties`. */
  function HibernateF(setup: Setup, s: ES): (r: Step)
    ensures r.s.events == s.events && r.s.tomcat == s.tomcat && r.s.activeTask == s.activeTask && r.s.lastTask == s.lastTask
  {
    var p := TemplatePath(setup);
    if p !in s.fs.files then Step(s, Fail(NotFoundMessage(p)))
    else match Format(s.fs.files[p], Fields(setup))
      case Err(m) => Step(s, Fail(m))
      case Ok(conf) =>
        var text := if setup.db.validateEntityCode then conf else conf + NoEntityValidation;
        Step(s.(fs := WriteFile(s.fs, setup.paths.configDbFile, text)), Pass)
  }

  /** A template made of brace-free text and the five connection fields is
      written with every field filled in, the entity check switched off by
      an extra line exactly when the configuration disables it. */
  lemma HibernateFillsTemplate(setup: Setup, s: ES, ps: seq<Piece>)
    requires TemplatePath(setup) in s.fs.files && s.fs.files[TemplatePath(setup)] == Template(ps)
    requires Plain(ps, Fields(setup))
    ensures var r := HibernateF(setup, s);
            r.outcome.Pass? &&
            r.s.fs == WriteFile(s.fs, setup.paths.configDbFile,
                                Fill(ps, Fields(setup)) + (if setup.db.validateEntityCode then "" else NoEntityValidation))
    ensures Fields(setup)["port"] == PortShown(setup) && Fields(setup)["addr"] == setup.db.ip &&
            Fields(setup)["name"] == setup.db.name
  {
    FormatOfTemplate(ps, Fields(setup));
    var conf := Fill(ps, Fields(setup));
    assert conf + "" == conf;
  }

  /** A template naming a field that is not one of the five raises the
      `KeyError` of that name, whose text becomes the error, or the
      `IndexError` of a positional field; nothing is written. */
  lemma HibernateReportsUnknownField(setup: Setup, s: ES, ps: seq<Piece>, n: string, rest: string)
    requires TemplatePath(setup) in s.fs.files && s.fs.files[TemplatePath(setup)] == Template(ps) + "{" + n + "}" + rest
    requires Plain(ps, Fields(setup)) && BraceFree(n) && n !in Fields(setup)
    ensures var r := HibernateF(setup, s);
            r.outcome == Fail(if Positional(n) then IndexMessage(n) else "'" + n + "'") && r.s == s
  {
    if Positional(n) {
      FormatPositionalField(ps, n, rest, Fields(setup));
    } else {
      FormatUnknownName(ps, n, rest, Fields(setup));
    }
  }

  /** A template with a lone `}` raises Python's `ValueError`, whose text
      becomes the error; nothing is written. */
  lemma HibernateReportsLoneBrace(setup: Setup, s: ES, ps: seq<Piece>, rest: string)
    requires TemplatePath(setup) in s.fs.files && s.fs.files[TemplatePath(setup)] == Template(ps) + "}" + rest
    requires Plain(ps, Fields(setup)) && (rest == [] || rest[0] != '}')
    ensures var r := HibernateF(setup, s);
            r.outcome == Fail("Single '}' encountered in format string") && r.s == s
  {
    FormatLoneClose(ps, rest, Fields(setup));
  }

  /** The containerised backend's port is the configured one when that is
      set and otherwise the one its identity file (or the random draw)
      gave it; it is never shown as `None`. */
  lemma PgdockerPortShown(setup: Setup, loaded: string)
    requires setup.variant == DbTools.Pgdocker && setup.pgdockerPort == Pgdocker.Override(setup.db.port, loaded)
    ensures Fields(setup)["port"] == if IsSet(setup.db.port) then setup.db.port.value else loaded
  {
  }

  /** With the options read from a `db` section `d`, the entity check is
      switched off exactly when `validate_entity_code` is falsy there: a
      `db_validate_entity_code=false` in the environment leaves it on. */
  lemma HibernateFlagIsTruthiness(setup: Setup, s: ES, ps: seq<Piece>, d: Config.Section)
    requires setup.db == Config.DbConfigOf(d)
    requires TemplatePath(setup) in s.fs.files && s.fs.files[TemplatePath(setup)] == Template(ps)
    requires Plain(ps, Fields(setup))
    ensures HibernateF(setup, s).s.fs ==
            WriteFile(s.fs, setup.paths.configDbFile,
                      Fill(ps, Fields(setup)) + (if Config.Flag(d, "validate_entity_code") then "" else NoEntityValidation))
  {
    HibernateFillsTemplate(setup, s, ps);
  }

  /** A missing template raises before anything is written. */
  lemma HibernateNeedsTemplate(setup: Setup, s: ES)
    requires TemplatePath(setup) !in s.fs.files
    ensures HibernateF(setup, s) == Step(s, Fail(NotFoundMessage(TemplatePath(setup))))
  {
  }

  /** The single line of the version file. */
  function VersionLine(setup: Setup, details: Option<string>): string {
    "Test tools. Jenkins job: " + setup.project + " " + (if IsSet(setup.version) then setup.version.value else "") +
    " at " + (if details.Some? then details.value else "None")
  }

  // ---------------------------------------------------------------------
  // tasks and workflows

  /** Entering `_new_task(name)`. */
  function Begin(s: ES, name: string): ES {
    s.(activeTask := Some(name))
  }

  /** Leaving `_new_task(name)`, normally or by an exception. */
  function End(r: Step, name: string): (e: Step)
    ensures e.s.activeTask == None && e.s.lastTask == Some(name) && e.outcome == r.outcome
    ensures e.s.events == r.s.events && e.s.fs == r.s.fs && e.s.tomcat == r.s.tomcat && e.s.lastError == r.s.lastError
  {
    Step(r.s.(lastTask := Some(name), activeTask := None), r.outcome)
  }

  /** The `CREATE_DB` task of `new_db`: create the database, then write the
      properties file. */
  function CreateTaskF(setup: Setup, env: nat -> Answer, s: ES): (r: Step)
    ensures Grows(s, r.s) && r.s.tomcat == s.tomcat
  {
    var c := DbF(DbTools.Create, env, Begin(s, CreateDbTask));
    End(if c.outcome.Fail? then c else HibernateF(setup, c.s), CreateDbTask)
  }

  /** `restore`. */
  function RestoreF(setup: Setup, env: nat -> Answer, s: ES): (r: Step)
    ensures Grows(s, r.s) && Grows(StopTomcatF(env, s), r.s)
  {
    var t := End(DbPairF(DbTools.Restore, DbTools.Set11, env, Begin(StopTomcatF(env, s), RestoreDbTask)), RestoreDbTask);
    if t.outcome.Fail? then t else Step(StartTomcatF(env, t.s), Pass)
  }

  /** `new_db`: the `CREATE_DB` task, then a restore when the backend has a
      default backup, then Tomcat is started. */
  function NewDbF(setup: Setup, env: nat -> Answer, s: ES): (r: Step)
    ensures Grows(s, r.s) && Grows(StopTomcatF(env, s), r.s)
  {
    var t := CreateTaskF(setup, env, StopTomcatF(env, s));
    if t.outcome.Fail? then t else AfterCreateF(setup, env, t.s)
  }

  /** The part of `new_db` after a successful `CREATE_DB` task. */
  function AfterCreateF(setup: Setup, env: nat -> Answer, s: ES): (r: Step)
    ensures Grows(s, r.s)
  {
    var a := env(|s.events|);
    var checked := Log(s, Db(DbTools.HasDefaultBackup));
    if a.failure.Some? then Step(checked, Fail(a.failure.value))
    else
      var r := if a.yes then RestoreF(setup, env, checked) else Step(checked, Pass);
      if r.outcome.Fail? then r else Step(StartTomcatF(env, r.s), Pass)
  }

  /** `drop_db`: Tomcat stays stopped. */
  function DropDbF(env: nat -> Answer, s: ES): (r: Step)
    ensures Grows(s, r.s) && Grows(StopTomcatF(env, s), r.s)
  {
    End(DbF(DbTools.Drop, env, Begin(StopTomcatF(env, s), DropDbTask)), DropDbTask)
  }

  /** `backup`. */
  function BackupF(env: nat -> Answer, s: ES): (r: Step)
    ensures Grows(s, r.s) && Grows(StopTomcatF(env, s), r.s)
  {
    var t := End(DbF(DbTools.Backup, env, Begin(StopTomcatF(env, s), BackupDbTask)), BackupDbTask);
    if t.outcome.Fail? then t else Step(StartTomcatF(env, t.s), Pass)
  }

  /** `reduce`: reduce, then the customer patch. */
  function ReduceF(env: nat -> Answer, s: ES): (r: Step)
    ensures Grows(s, r.s) && Grows(StopTomcatF(env, s), r.s)
  {
    var t := End(DbPairF(DbTools.Reduce, DbTools.CustomerPatch, env, Begin(StopTomcatF(env, s), ReduceDbTask)), ReduceDbTask);
    if t.outcome.Fail? then t else Step(StartTomcatF(env, t.s), Pass)
  }

  /** The `UPLOAD` task of `update`: fetch the build into the web
      application directory and write the version file. */
  function UploadTaskF(setup: Setup, env: nat -> Answer, build: Option<nat>, s: ES): (r: Step)
    ensures Grows(s, r.s) && r.s.tomcat == s.tomcat
  {
    var a := env(|s.events|);
    var fetched := Log(Begin(s, UploadTask), GetBuild(setup.paths.webapp, build));
    End(if a.failure.Some? then Step(fetched, Fail(a.failure.value))
        else Step(fetched.(fs := WriteFile(fetched.fs, setup.paths.versionFile, VersionLine(setup, a.details))), Pass),
        UploadTask)
  }

  /** `update(build)`. */
  function UpdateF(setup: Setup, env: nat -> Answer, build: Option<nat>, s: ES): (r: Step)
    ensures Grows(s, r.s) && Grows(StopTomcatF(env, s), r.s)
  {
    var t := UploadTaskF(setup, env, build, StopTomcatF(env, s));
    if t.outcome.Fail? then t else Step(StartTomcatF(env, t.s), Pass)
  }

  /** `build_and_update`: the `BUILD` task, then `update` with the number
      it returned. */
  function BuildAndUpdateF(setup: Setup, env: nat -> Answer, s: ES): (r: Step)
    ensures Grows(s, r.s)
  {
    var a := env(|s.events|);
    var built := Log(Begin(s, BuildTask), BuildProject);
    var t := End(if a.failure.Some? then Step(built, Fail(a.failure.value)) else Step(built, Pass), BuildTask);
    if t.outcome.Fail? then t else UpdateF(setup, env, Some(a.number), t.s)
  }

  /** `new_stand`: `new_db`, then `update` when the web application
      directory is empty, or a Tomcat restart otherwise. */
  function NewStandF(setup: Setup, env: nat -> Answer, s: ES): (r: Step)
    ensures Grows(s, r.s)
  {
    var n := NewDbF(setup, env, s);
    if n.outcome.Fail? then n
    else
      var empty := env(|n.s.events|).yes;
      var listed := Log(n.s, ListWebapp);
      if empty then UpdateF(setup, env, None, listed) else Step(StartTomcatF(env, StopTomcatF(env, listed)), Pass)
  }

  /** `_exit`: stop Tomcat, and drop the database only when `rm` is set;
      an exception of the drop is swallowed. */
  function ExitF(setup: Setup, env: nat -> Answer, s: ES): ES {
    var stopped := StopTomcatF(env, s);
    if setup.db.rm then DbF(DbTools.Drop, env, stopped).s else stopped
  }

  lemma ExitDropsOnlyIfRm(setup: Setup, env: nat -> Answer, s: ES)
    ensures var t := ExitF(setup, env, s);
            t.events == StopTomcatF(env, s).events + (if setup.db.rm then [Db(DbTools.Drop)] else []) &&
            t.activeTask == s.activeTask && t.lastTask == s.lastTask && t.lastError == s.lastError && t.fs == s.fs
  {
  }

  /** With the options read from a `db` section `d`, `_exit` drops the
      database exactly when `rm` is truthy there, so `db_rm=false` in the
      environment drops it. */
  lemma ExitDropsIfRmTruthy(setup: Setup, env: nat -> Answer, s: ES, d: Config.Section)
    requires setup.db == Config.DbConfigOf(d)
    ensures ExitF(setup, env, s).events ==
            StopTomcatF(env, s).events + (if Config.Flag(d, "rm") then [Db(DbTools.Drop)] else [])
  {
    ExitDropsOnlyIfRm(setup, env, s);
  }

  /** The long actions. */
  datatype Workflow = NewStand | NewDb | DropDb | Restore | Backup | Reduce | Update | BuildAndUpdate

  /** The action `getattr(engine, action)` runs, called without arguments. */
  function RunF(setup: Setup, env: nat -> Answer, w: Workflow, s: ES): (r: Step)
    ensures Grows(s, r.s)
  {
    match w
    case NewStand => NewStandF(setup, env, s)
    case NewDb => NewDbF(setup, env, s)
    case DropDb => DropDbF(env, s)
    case Restore => RestoreF(setup, env, s)
    case Backup => BackupF(env, s)
    case Reduce => ReduceF(env, s)
    case Update => UpdateF(setup, env, None, s)
    case BuildAndUpdate => BuildAndUpdateF(setup, env, s)
  }

  /** `log_exceptions(runnable)`: clear the last error after a success,
      record `str(e)` after an exception, and never raise. */
  function LogExceptionsF(setup: Setup, env: nat -> Answer, w: Workflow, s: ES): (r: Step)
    ensures r.outcome == Pass
  {
    var r := RunF(setup, env, w, s);
    Step(r.s.(lastError := if r.outcome.Pass? then None else Some(r.outcome.error)), Pass)
  }

  /** The error shown afterwards is exactly the exception of the action. */
  lemma LoggedErrorIsOutcome(setup: Setup, env: nat -> Answer, w: Workflow, s: ES)
    ensures var l := LogExceptionsF(setup, env, w, s).s;
            var r := RunF(setup, env, w, s);
            (l.lastError == None <==> r.outcome.Pass?) &&
            (r.outcome.Fail? ==> l.lastError == Some(r.outcome.error)) &&
            l == r.s.(lastError := l.lastError)
  {
  }

  /** The workflows that stop Tomcat before their task. */
  predicate StopsFirst(w: Workflow) {
    !w.BuildAndUpdate?
  }

  /** Every workflow but `build_and_update` polls Tomcat first and stops
      it unless it exited with an error; `build_and_update` starts with
      the build, with Tomcat left running. */
  lemma TomcatStoppedFirst(setup: Setup, env: nat -> Answer, w: Workflow, s: ES)
    ensures var r := RunF(setup, env, w, s);
            var k := |s.events|;
            StopsFirst(w) ==>
              |r.s.events| > k && r.s.events[k] == Poll &&
              (!Truthy(env(k).code) ==> |r.s.events| > k + 2 && r.s.events[k + 1] == Terminate && r.s.events[k + 2] == WaitExit(30))
    ensures var r := RunF(setup, env, w, s);
            !StopsFirst(w) ==> |r.s.events| > |s.events| && r.s.events[|s.events|] == BuildProject
  {
    var k := |s.events|;
    var stopped := StopTomcatF(env, s);
    StopTomcatTerminatesIff(env, s);
    var r := RunF(setup, env, w, s);
    if StopsFirst(w) {
      StopsFirstGrows(setup, env, w, s);
      assert r.s.events[k] == stopped.events[k];
      if !Truthy(env(k).code) {
        assert r.s.events[k + 1] == stopped.events[k + 1] && r.s.events[k + 2] == stopped.events[k + 2];
      }
    } else {
      assert r.s.events[k] == Log(Begin(s, BuildTask), BuildProject).events[k];
    }
  }

  /** A workflow that stops Tomcat first continues the calls of the stop. */
  lemma StopsFirstGrows(setup: Setup, env: nat -> Answer, w: Workflow, s: ES)
    requires StopsFirst(w)
    ensures Grows(StopTomcatF(env, s), RunF(setup, env, w, s).s)
  {
    if w.NewStand? {
      GrowsTrans(StopTomcatF(env, s), NewDbF(setup, env, s).s, RunF(setup, env, w, s).s);
    }
  }

  function LastEvent(s: ES): Event
    requires |s.events| >= 1
  {
    s.events[|s.events| - 1]
  }

  /** Tomcat was started last and is running or exited without error. */
  predicate Restarted(r: Step) {
    |r.s.events| >= 1 && (LastEvent(r.s) == Poll || LastEvent(r.s) == Spawn) && !Truthy(r.s.tomcat)
  }

  /** The exception came from the call made last, not from Tomcat. */
  predicate RaisedByCall(r: Step) {
    |r.s.events| >= 1 && !TomcatEvent(LastEvent(r.s))
  }

  lemma StartTomcatRestarts(env: nat -> Answer, s: ES)
    ensures Restarted(Step(StartTomcatF(env, s), Pass))
  {
  }

  /** The `CREATE_DB` task makes one call, create. It raises the
      backend's exception when create raised, leaving the files alone;
      otherwise it raises only where `_write_hibernate_properties` does,
      for a missing template or one `format` rejects, with `str(e)` of
      the exception `format` raised. */
  lemma CreateTaskRaises(setup: Setup, env: nat -> Answer, s: ES)
    ensures var t := CreateTaskF(setup, env, s);
            t.s.events == s.events + [Db(DbTools.Create)] && (t.outcome.Fail? ==> RaisedByCall(t)) &&
            t.s.activeTask == None && t.s.lastTask == Some(CreateDbTask)
    ensures var t := CreateTaskF(setup, env, s);
            var a := env(|s.events|);
            a.failure.Some? ==> t.outcome == Fail(a.failure.value) && t.s.fs == s.fs
    ensures var t := CreateTaskF(setup, env, s);
            var a := env(|s.events|);
            var p := TemplatePath(setup);
            a.failure.None? ==>
              (p !in s.fs.files ==> t.outcome == Fail(NotFoundMessage(p))) &&
              (p in s.fs.files && Format(s.fs.files[p], Fields(setup)).Err? ==>
                 t.outcome == Fail(Format(s.fs.files[p], Fields(setup)).error)) &&
              (p in s.fs.files && Format(s.fs.files[p], Fields(setup)).Ok? ==> t.outcome == Pass)
  {
  }

  lemma RestoreEnds(setup: Setup, env: nat -> Answer, s: ES)
    ensures var r := RestoreF(setup, env, s);
            (r.outcome.Fail? ==> RaisedByCall(r)) && (r.outcome.Pass? ==> Restarted(r))
  {
    var t := End(DbPairF(DbTools.Restore, DbTools.Set11, env, Begin(StopTomcatF(env, s), RestoreDbTask)), RestoreDbTask);
    if t.outcome.Pass? {
      StartTomcatRestarts(env, t.s);
    }
  }

  lemma NewDbEnds(setup: Setup, env: nat -> Answer, s: ES)
    ensures var r := NewDbF(setup, env, s);
            (r.outcome.Fail? ==> RaisedByCall(r)) && (r.outcome.Pass? ==> Restarted(r))
  {
    var t := CreateTaskF(setup, env, StopTomcatF(env, s));
    CreateTaskRaises(setup, env, StopTomcatF(env, s));
    if t.outcome.Pass? {
      var a := env(|t.s.events|);
      var checked := Log(t.s, Db(DbTools.HasDefaultBackup));
      if a.failure.None? {
        var r := if a.yes then RestoreF(setup, env, checked) else Step(checked, Pass);
        RestoreEnds(setup, env, checked);
        if r.outcome.Pass? {
          StartTomcatRestarts(env, r.s);
        }
      }
    }
  }

  lemma UpdateEnds(setup: Setup, env: nat -> Answer, build: Option<nat>, s: ES)
    ensures var r := UpdateF(setup, env, build, s);
            (r.outcome.Fail? ==> RaisedByCall(r)) && (r.outcome.Pass? ==> Restarted(r))
  {
    var t := UploadTaskF(setup, env, build, StopTomcatF(env, s));
    if t.outcome.Pass? {
      StartTomcatRestarts(env, t.s);
    }
  }

  /** Around a workflow, Tomcat is started again exactly when the task
      succeeded, except after `drop_db`, which leaves it stopped; an
      exception raised inside the task skips the restart, the failing call
      being the last one made. */
  lemma RestartUnlessFailed(setup: Setup, env: nat -> Answer, w: Workflow, s: ES)
    ensures var r := RunF(setup, env, w, s);
            r.outcome.Fail? ==> RaisedByCall(r)
    ensures var r := RunF(setup, env, w, s);
            r.outcome.Pass? && !w.DropDb? ==> Restarted(r)
    ensures var r := RunF(setup, env, w, s);
            r.outcome.Pass? && w.DropDb? ==>
              |r.s.events| >= 1 && LastEvent(r.s) == Db(DbTools.Drop) && r.s.tomcat == StopTomcatF(env, s).tomcat
  {
    match w
    case NewStand => NewStandEnds(setup, env, s);
    case NewDb => NewDbEnds(setup, env, s);
    case DropDb =>
    case Restore => RestoreEnds(setup, env, s);
    case Backup => BackupEnds(env, s);
    case Reduce => ReduceEnds(env, s);
    case Update => UpdateEnds(setup, env, None, s);
    case BuildAndUpdate => BuildAndUpdateEnds(setup, env, s);
  }

  lemma NewStandEnds(setup: Setup, env: nat -> Answer, s: ES)
    ensures var r := NewStandF(setup, env, s);
            (r.outcome.Fail? ==> RaisedByCall(r)) && (r.outcome.Pass? ==> Restarted(r))
  {
    var n := NewDbF(setup, env, s);
    NewDbEnds(setup, env, s);
    if n.outcome.Pass? {
      var listed := Log(n.s, ListWebapp);
      UpdateEnds(setup, env, None, listed);
      StartTomcatRestarts(env, StopTomcatF(env, listed));
    }
  }

  lemma BackupEnds(env: nat -> Answer, s: ES)
    ensures var r := BackupF(env, s);
            (r.outcome.Fail? ==> RaisedByCall(r)) && (r.outcome.Pass? ==> Restarted(r))
  {
    var t := End(DbF(DbTools.Backup, env, Begin(StopTomcatF(env, s), BackupDbTask)), BackupDbTask);
    if t.outcome.Pass? {
      StartTomcatRestarts(env, t.s);
    }
  }

  lemma ReduceEnds(env: nat -> Answer, s: ES)
    ensures var r := ReduceF(env, s);
            (r.outcome.Fail? ==> RaisedByCall(r)) && (r.outcome.Pass? ==> Restarted(r))
  {
    var t := End(DbPairF(DbTools.Reduce, DbTools.CustomerPatch, env, Begin(StopTomcatF(env, s), ReduceDbTask)), ReduceDbTask);
    if t.outcome.Pass? {
      StartTomcatRestarts(env, t.s);
    }
  }

  lemma BuildAndUpdateEnds(setup: Setup, env: nat -> Answer, s: ES)
    ensures var r := BuildAndUpdateF(setup, env, s);
            (r.outcome.Fail? ==> RaisedByCall(r)) && (r.outcome.Pass? ==> Restarted(r))
  {
    var a := env(|s.events|);
    var built := Log(Begin(s, BuildTask), BuildProject);
    var t := End(if a.failure.Some? then Step(built, Fail(a.failure.value)) else Step(built, Pass), BuildTask);
    if t.outcome.Pass? {
      UpdateEnds(setup, env, Some(a.number), t.s);
    }
  }

  /** Every workflow leaves no task active, does not touch the last error,
      and records as the last task the one it ran last: the task of the
      workflow itself, `RESTORE_DB` after `new_db` exactly when it
      restored, and `UPLOAD` after `build_and_update` unless the build
      raised. */
  lemma TasksClosed(setup: Setup, env: nat -> Answer, w: Workflow, s: ES)
    ensures var r := RunF(setup, env, w, s);
            r.s.activeTask == None && r.s.lastError == s.lastError
    ensures var r := RunF(setup, env, w, s);
            r.s.lastTask == Some(LastTaskOf(env, w, s, r.s))
  {
    match w
    case NewStand =>
      NewStandCloses(setup, env, s);
    case NewDb =>
      NewDbRecordsTask(setup, env, s);
    case DropDb =>
    case Restore =>
    case Backup =>
    case Reduce =>
    case Update =>
    case BuildAndUpdate =>
  }

  lemma NewStandCloses(setup: Setup, env: nat -> Answer, s: ES)
    ensures var r := NewStandF(setup, env, s);
            r.s.activeTask == None && r.s.lastError == s.lastError &&
            r.s.lastTask.Some? && r.s.lastTask.value in {CreateDbTask, RestoreDbTask, UploadTask}
  {
    NewDbRecordsTask(setup, env, s);
    var n := NewDbF(setup, env, s);
    if n.outcome.Pass? {
      var listed := Log(n.s, ListWebapp);
      if env(|n.s.events|).yes {
        assert NewStandF(setup, env, s) == UpdateF(setup, env, None, listed);
        UpdateRecords(setup, env, None, listed);
      }
    }
  }

  /** The task a workflow records last: its own, the build's when the build
      raised, and for `new_db` and `new_stand` whichever of theirs ran last. */
  function LastTaskOf(env: nat -> Answer, w: Workflow, s: ES, t: ES): string {
    match w
    case DropDb => DropDbTask
    case Restore => RestoreDbTask
    case Backup => BackupDbTask
    case Reduce => ReduceDbTask
    case Update => UploadTask
    case BuildAndUpdate => if env(|s.events|).failure.Some? then BuildTask else UploadTask
    case _ => if t.lastTask == Some(RestoreDbTask) then RestoreDbTask
              else if t.lastTask == Some(UploadTask) then UploadTask
              else CreateDbTask
  }

  /** How many calls `stop_tomcat` makes after `k` calls. */
  function StopLength(env: nat -> Answer, k: nat): nat {
    if Truthy(env(k).code) then 1 else if env(k + 2).timedOut then 4 else 3
  }

  lemma StopTomcatLength(env: nat -> Answer, s: ES)
    ensures |StopTomcatF(env, s).events| == |s.events| + StopLength(env, |s.events|)
  {
  }

  /** A failed `CREATE_DB` task ends `new_db`: nothing follows it. */
  lemma NewDbStopsAfterFailedCreate(setup: Setup, env: nat -> Answer, s: ES)
    ensures var t := CreateTaskF(setup, env, StopTomcatF(env, s));
            var r := NewDbF(setup, env, s);
            t.outcome.Fail? ==> r == t && r.s.lastTask == Some(CreateDbTask)
  {
  }

  /** `new_db` asks for a default backup only after the `CREATE_DB` task
      succeeded, and restores (running the `RESTORE_DB` task) exactly when
      the answer is yes; otherwise nothing but Tomcat follows the question. */
  lemma NewDbRestoresOnlyWithBackup(setup: Setup, env: nat -> Answer, s: ES)
    ensures var t := CreateTaskF(setup, env, StopTomcatF(env, s));
            var r := NewDbF(setup, env, s);
            var h := |t.s.events|;
            var a := env(h);
            t.outcome.Pass? ==>
              |r.s.events| > h && r.s.events[h] == Db(DbTools.HasDefaultBackup) &&
              (a.failure.None? && a.yes ==>
                 |r.s.events| > h + 1 + StopLength(env, h + 1) &&
                 r.s.events[h + 1 + StopLength(env, h + 1)] == Db(DbTools.Restore)) &&
              (a.failure.Some? || !a.yes ==> forall j :: h < j < |r.s.events| ==> TomcatEvent(r.s.events[j]))
  {
    var t := CreateTaskF(setup, env, StopTomcatF(env, s));
    if t.outcome.Pass? {
      AfterCreateAsks(setup, env, t.s);
    }
  }

  lemma AfterCreateAsks(setup: Setup, env: nat -> Answer, s: ES)
    ensures var r := AfterCreateF(setup, env, s);
            var h := |s.events|;
            var a := env(h);
            |r.s.events| > h && r.s.events[h] == Db(DbTools.HasDefaultBackup) &&
            (a.failure.None? && a.yes ==>
               |r.s.events| > h + 1 + StopLength(env, h + 1) &&
               r.s.events[h + 1 + StopLength(env, h + 1)] == Db(DbTools.Restore)) &&
            (a.failure.Some? || !a.yes ==> forall j :: h < j < |r.s.events| ==> TomcatEvent(r.s.events[j]))
  {
    var h := |s.events|;
    var checked := Log(s, Db(DbTools.HasDefaultBackup));
    var r := AfterCreateF(setup, env, s);
    assert r.s.events[..|checked.events|] == checked.events;
    assert r.s.events[h] == checked.events[h];
    if env(h).failure.None? {
      if env(h).yes {
        NewDbRestoreCall(setup, env, checked);
        var rs := RestoreF(setup, env, checked);
        assert r.s.events[..|rs.s.events|] == rs.s.events;
      } else {
        assert r.s == StartTomcatF(env, checked);
        forall j | h < j < |r.s.events|
          ensures TomcatEvent(r.s.events[j])
        {
          StartTomcatSpawnsIff(env, checked);
        }
      }
    }
  }

  /** Inside `restore`, the backend's restore is the call right after
      stopping Tomcat. */
  lemma NewDbRestoreCall(setup: Setup, env: nat -> Answer, checked: ES)
    ensures var rs := RestoreF(setup, env, checked);
            var n := |checked.events| + StopLength(env, |checked.events|);
            |rs.s.events| > n && rs.s.events[n] == Db(DbTools.Restore) &&
            rs.s.events[..|checked.events|] == checked.events
  {
    var stopped := StopTomcatF(env, checked);
    StopTomcatLength(env, checked);
    var inner := Begin(stopped, RestoreDbTask);
    var rs := RestoreF(setup, env, checked);
    assert rs.s.events[|stopped.events|] == DbF(DbTools.Restore, env, inner).s.events[|stopped.events|];
  }

  /** `new_db` leaves no task active and the last error alone, and records
      `RESTORE_DB` as its last task exactly when it restored, `CREATE_DB`
      otherwise. */
  lemma NewDbRecordsTask(setup: Setup, env: nat -> Answer, s: ES)
    ensures var t := CreateTaskF(setup, env, StopTomcatF(env, s));
            var r := NewDbF(setup, env, s);
            var a := env(|t.s.events|);
            r.s.activeTask == None && r.s.lastError == s.lastError &&
            (r.s.lastTask == Some(RestoreDbTask) <==> t.outcome.Pass? && a.failure.None? && a.yes) &&
            (r.s.lastTask != Some(RestoreDbTask) ==> r.s.lastTask == Some(CreateDbTask))
  {
    var t := CreateTaskF(setup, env, StopTomcatF(env, s));
    if t.outcome.Pass? {
      AfterCreateRecords(setup, env, t.s);
    }
  }

  /** After the `CREATE_DB` task, only a restore records a task. */
  lemma AfterCreateRecords(setup: Setup, env: nat -> Answer, s: ES)
    ensures var r := AfterCreateF(setup, env, s);
            var a := env(|s.events|);
            r.s.lastError == s.lastError &&
            (a.failure.None? && a.yes ==> r.s.activeTask == None && r.s.lastTask == Some(RestoreDbTask)) &&
            (!(a.failure.None? && a.yes) ==> r.s.activeTask == s.activeTask && r.s.lastTask == s.lastTask)
  {
    var checked := Log(s, Db(DbTools.HasDefaultBackup));
    if env(|s.events|).failure.None? && env(|s.events|).yes {
      RestoreRecords(setup, env, checked);
    }
  }

  /** `update` leaves no task active, records its own and keeps the last
      error. */
  lemma UpdateRecords(setup: Setup, env: nat -> Answer, build: Option<nat>, s: ES)
    ensures var r := UpdateF(setup, env, build, s);
            r.s.activeTask == None && r.s.lastTask == Some(UploadTask) && r.s.lastError == s.lastError
  {
  }

  /** `restore` leaves no task active, records its own and keeps the last
      error. */
  lemma RestoreRecords(setup: Setup, env: nat -> Answer, s: ES)
    ensures var r := RestoreF(setup, env, s);
            r.s.activeTask == None && r.s.lastTask == Some(RestoreDbTask) && r.s.lastError == s.lastError
  {
  }

  /** `build_and_update` passes the number the build returned to `update`,
      which asks Jenkins for that build once Tomcat is stopped; a build
      that raised stops everything, Tomcat untouched. */
  lemma BuildNumberReachesUpdate(setup: Setup, env: nat -> Answer, s: ES)
    ensures var r := BuildAndUpdateF(setup, env, s);
            var k := |s.events|;
            var u := k + 1 + StopLength(env, k + 1);
            |r.s.events| > k && r.s.events[k] == BuildProject &&
            (env(k).failure.Some? ==>
               r.s.events == s.events + [BuildProject] && r.outcome == Fail(env(k).failure.value) && r.s.tomcat == s.tomcat) &&
            (env(k).failure.None? ==>
               |r.s.events| > u && r.s.events[u] == GetBuild(setup.paths.webapp, Some(env(k).number)))
  {
    var k := |s.events|;
    var a := env(k);
    var built := Log(Begin(s, BuildTask), BuildProject);
    var t := End(if a.failure.Some? then Step(built, Fail(a.failure.value)) else Step(built, Pass), BuildTask);
    var r := BuildAndUpdateF(setup, env, s);
    assert r.s.events[..|built.events|] == built.events;
    assert r.s.events[k] == built.events[k];
    if a.failure.None? {
      var stopped := StopTomcatF(env, t.s);
      StopTomcatLength(env, t.s);
      var up := UploadTaskF(setup, env, Some(a.number), stopped);
      assert up.s.events[|stopped.events|] == GetBuild(setup.paths.webapp, Some(a.number));
      assert r.s.events[..|up.s.events|] == up.s.events;
    }
  }

  /** `update` writes the version file from the answer of `get_build`, and
      nothing when `get_build` raised. */
  lemma UpdateWritesVersion(setup: Setup, env: nat -> Answer, build: Option<nat>, s: ES)
    ensures var r := UpdateF(setup, env, build, s);
            var g := |s.events| + StopLength(env, |s.events|);
            var a := env(g);
            |r.s.events| > g && r.s.events[g] == GetBuild(setup.paths.webapp, build) &&
            (a.failure.Some? ==> r.outcome == Fail(a.failure.value) && r.s.fs == s.fs) &&
            (a.failure.None? ==>
               r.outcome == Pass && r.s.fs == WriteFile(s.fs, setup.paths.versionFile, VersionLine(setup, a.details)))
  {
    var stopped := StopTomcatF(env, s);
    StopTomcatLength(env, s);
    var up := UploadTaskF(setup, env, build, stopped);
    var r := UpdateF(setup, env, build, s);
    assert r.s.events[..|up.s.events|] == up.s.events;
  }

  /** A poll of Tomcat: the answer becomes the known return code. */
  function PollF(env: nat -> Answer, s: ES): (t: ES)
    ensures t.events == s.events + [Poll] && t.tomcat == env(|s.events|).code
    ensures t.fs == s.fs && t.activeTask == s.activeTask && t.lastTask == s.lastTask && t.lastError == s.lastError
  {
    Log(s, Poll).(tomcat := env(|s.events|).code)
  }

  /** `engine_status`, after its poll of Tomcat. */
  datatype Status = Status(lastError: Option<string>, lastTask: Option<string>, activeTask: Option<string>,
                           dbAddr: string, tomcatReturncode: Option<int>)

  class Engine {
    const setup: Setup
    /** Answers of the backend, Jenkins and the operating system, by call position. */
    const env: nat -> Answer
    var lastError: Option<string>
    var activeTask: Option<string>
    var lastTask: Option<string>
    /** The return code of the Tomcat process seen at the last poll. */
    var tomcat: Option<int>
    /** Every call made so far, in order. */
    var events: seq<Event>
    var fs: Fs

    function State(): ES
      reads this
    {
      ES(lastError, activeTask, lastTask, tomcat, events, fs)
    }

    /** The end of `Engine.__init__`: Tomcat is started and no task nor
        error is known. */
    constructor (setup: Setup, env: nat -> Answer, fs: Fs)
      ensures this.setup == setup && this.env == env
      ensures State() == ES(None, None, None, None, [Spawn], fs)
    {
      this.setup := setup;
      this.env := env;
      events := [Spawn];
      tomcat := None;
      this.fs := fs;
      lastError := None;
      activeTask := None;
      lastTask := None;
    }

    /** Make one call and read its answer. */
    method Ask(e: Event) returns (a: Answer)
      modifies this
      ensures State() == Log(old(State()), e) && a == env(|old(events)|)
    {
      a := env(|events|);
      events := events + [e];
    }

    method StartTomcat()
      modifies this
      ensures State() == StartTomcatF(env, old(State()))
    {
      var a := Ask(Poll);
      tomcat := a.code;
      if tomcat.Some? && tomcat.value != 0 {
        var _ := Ask(Spawn);
        tomcat := None;
      }
    }

    method StopTomcat()
      modifies this
      ensures State() == StopTomcatF(env, old(State()))
    {
      var a := Ask(Poll);
      tomcat := a.code;
      if !(tomcat.Some? && tomcat.value != 0) {
        var _ := Ask(Terminate);
        var w := Ask(WaitExit(30));
        if w.timedOut {
          var _ := Ask(Kill);
        } else {
          tomcat := w.code;
        }
      }
    }

    /** Entering `_new_task(name)`. */
    method BeginTask(name: string)
      modifies this
      ensures State() == Begin(old(State()), name)
    {
      activeTask := Some(name);
    }

    /** The `finally` of `_new_task(name)`. */
    method EndTask(name: string)
      modifies this
      ensures State() == End(Step(old(State()), Pass), name).s
    {
      lastTask := Some(name);
      activeTask := None;
    }

    method CallDb(op: DbTools.Capability) returns (o: Outcome<string>)
      modifies this
      ensures Step(State(), o) == DbF(op, env, old(State()))
    {
      var a := Ask(Db(op));
      o := if a.failure.Some? then Fail(a.failure.value) else Pass;
    }

    method CallDbPair(first: DbTools.Capability, second: DbTools.Capability) returns (o: Outcome<string>)
      modifies this
      ensures Step(State(), o) == DbPairF(first, second, env, old(State()))
    {
      o := CallDb(first);
      if o.Pass? {
        o := CallDb(second);
      }
    }

    /** `_write_hibernate_properties`. */
    method WriteHibernateProperties() returns (o: Outcome<string>)
      modifies this
      ensures Step(State(), o) == HibernateF(setup, old(State()))
    {
      var p := if setup.variant == DbTools.Mssql then setup.paths.templateMssql else setup.paths.templatePostgres;
      if p !in fs.files {
        return Fail(NotFoundMessage(p));
      }
      var conf := Format(fs.files[p], Fields(setup));
      if conf.Err? {
        return Fail(conf.error);
      }
      var text := conf.value;
      if !setup.db.validateEntityCode {
        text := text + NoEntityValidation;
      }
      fs := WriteFile(fs, setup.paths.configDbFile, text);
      o := Pass;
    }

    /** `_write_version_file(details)`. */
    method WriteVersionFile(details: Option<string>)
      modifies this
      ensures State() == old(State()).(fs := WriteFile(old(fs), setup.paths.versionFile, VersionLine(setup, details)))
    {
      fs := WriteFile(fs, setup.paths.versionFile, VersionLine(setup, details));
    }

    /** The `CREATE_DB` task of `new_db`. */
    method CreateTask() returns (o: Outcome<string>)
      modifies this
      ensures Step(State(), o) == CreateTaskF(setup, env, old(State()))
    {
      BeginTask(CreateDbTask);
      o := CallDb(DbTools.Create);
      if o.Pass? {
        o := WriteHibernateProperties();
      }
      EndTask(CreateDbTask);
    }

    method NewDb() returns (o: Outcome<string>)
      modifies this
      ensures Step(State(), o) == NewDbF(setup, env, old(State()))
    {
      StopTomcat();
      o := CreateTask();
      if o.Fail? {
        return;
      }
      var a := Ask(Db(DbTools.HasDefaultBackup));
      if a.failure.Some? {
        return Fail(a.failure.value);
      }
      if a.yes {
        o := Restore();
        if o.Fail? {
          return;
        }
      }
      StartTomcat();
    }

    method DropDb() returns (o: Outcome<string>)
      modifies this
      ensures Step(State(), o) == DropDbF(env, old(State()))
    {
      StopTomcat();
      BeginTask(DropDbTask);
      o := CallDb(DbTools.Drop);
      EndTask(DropDbTask);
    }

    method Restore() returns (o: Outcome<string>)
      modifies this
      ensures Step(State(), o) == RestoreF(setup, env, old(State()))
    {
      StopTomcat();
      BeginTask(RestoreDbTask);
      o := CallDbPair(DbTools.Restore, DbTools.Set11);
      EndTask(RestoreDbTask);
      if o.Fail? {
        return;
      }
      StartTomcat();
    }

    method Backup() returns (o: Outcome<string>)
      modifies this
      ensures Step(State(), o) == BackupF(env, old(State()))
    {
      StopTomcat();
      BeginTask(BackupDbTask);
      o := CallDb(DbTools.Backup);
      EndTask(BackupDbTask);
      if o.Fail? {
        return;
      }
      StartTomcat();
    }

    method Reduce() returns (o: Outcome<string>)
      modifies this
      ensures Step(State(), o) == ReduceF(env, old(State()))
    {
      StopTomcat();
      BeginTask(ReduceDbTask);
      o := CallDbPair(DbTools.Reduce, DbTools.CustomerPatch);
      EndTask(ReduceDbTask);
      if o.Fail? {
        return;
      }
      StartTomcat();
    }

    /** The `UPLOAD` task of `update`. */
    method Upload(build: Option<nat>) returns (o: Outcome<string>)
      modifies this
      ensures Step(State(), o) == UploadTaskF(setup, env, build, old(State()))
    {
      BeginTask(UploadTask);
      var a := Ask(GetBuild(setup.paths.webapp, build));
      if a.failure.Some? {
        o := Fail(a.failure.value);
      } else {
        WriteVersionFile(a.details);
        o := Pass;
      }
      EndTask(UploadTask);
    }

    method Update(build: Option<nat>) returns (o: Outcome<string>)
      modifies this
      ensures Step(State(), o) == UpdateF(setup, env, build, old(State()))
    {
      StopTomcat();
      o := Upload(build);
      if o.Fail? {
        return;
      }
      StartTomcat();
    }

    method BuildAndUpdate() returns (o: Outcome<string>)
      modifies this
      ensures Step(State(), o) == BuildAndUpdateF(setup, env, old(State()))
    {
      BeginTask(BuildTask);
      var a := Ask(BuildProject);
      o := if a.failure.Some? then Fail(a.failure.value) else Pass;
      EndTask(BuildTask);
      if o.Fail? {
        return;
      }
      o := Update(Some(a.number));
    }

    method NewStand() returns (o: Outcome<string>)
      modifies this
      ensures Step(State(), o) == NewStandF(setup, env, old(State()))
    {
      o := NewDb();
      if o.Fail? {
        return;
      }
      var listing := Ask(ListWebapp);
      if listing.yes {
        o := Update(None);
      } else {
        StopTomcat();
        StartTomcat();
      }
    }

    /** `getattr(engine, action)()`. */
    method Run(w: Workflow) returns (o: Outcome<string>)
      modifies this
      ensures Step(State(), o) == RunF(setup, env, w, old(State()))
    {
      match w
      case NewStand => o := NewStand();
      case NewDb => o := NewDb();
      case DropDb => o := DropDb();
      case Restore => o := Restore();
      case Backup => o := Backup();
      case Reduce => o := Reduce();
      case Update => o := Update(None);
      case BuildAndUpdate => o := BuildAndUpdate();
    }

    /** `log_exceptions(runnable)`. */
    method LogExceptions(w: Workflow)
      modifies this
      ensures State() == LogExceptionsF(setup, env, w, old(State())).s
    {
      var o := Run(w);
      lastError := if o.Pass? then None else Some(o.error);
    }

    /** `_exit`. */
    method Exit()
      modifies this
      ensures State() == ExitF(setup, env, old(State()))
    {
      StopTomcat();
      if setup.db.rm {
        var _ := CallDb(DbTools.Drop);
      }
    }

    /** `self.tomcat.poll()`. */
    method PollTomcat() returns (code: Option<int>)
      modifies this
      ensures State() == PollF(env, old(State())) && code == tomcat
    {
      var a := Ask(Poll);
      tomcat := a.code;
      code := tomcat;
    }

    /** `engine_status`: the task fields and the database address, with a
        fresh poll of Tomcat. */
    method EngineStatus() returns (st: Status)
      modifies this
      ensures State() == PollF(env, old(State()))
      ensures st == Status(old(lastError), old(lastTask), old(activeTask), Conn(setup).addr, env(|old(events)|).code)
    {
      var _ := PollTomcat();
      st := Status(lastError, lastTask, activeTask, Conn(setup).addr, tomcat);
    }
  }
}
