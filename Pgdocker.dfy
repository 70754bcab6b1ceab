/** The Postgres backend that runs the server in a Docker container
    (`Pgdocker`). The object remembers which container holds the database in
    an identity file `<backup_dir>/pgdocker_db` holding `"<name> <port>"`,
    starts the container and waits for the server to answer, and adds
    container-level create, drop, backup and restore to the plain Postgres
    behaviour it inherits. The Docker daemon and the console commands are an
    oracle that says how the k-th call went. */
module Pgdocker {
  import opened Wrappers
  import opened Text
  import opened Files
  import DbTools
  import Pg = Postgres

  // ---------------------------------------------------------------------
  // The identity file

  /** The identity file's text as `__init__` reads it: split on `' '` into
      exactly two fields, `(name, port)`; any other field count is the
      `ValueError` of the unpacking. */
  function ParseIdentity(text: string): (r: Option<(string, string)>)
    ensures r.Some? <==> |Split(text, ' ')| == 2
    ensures r.Some? ==> r.value == (Split(text, ' ')[0], Split(text, ' ')[1])
  {
    var parts := Split(text, ' ');
    if |parts| == 2 then Some((parts[0], parts[1])) else None
  }

  /** What `_save_container` writes: the name and the port joined by a space. */
  function FormatIdentity(name: string, port: string): string {
    Join(" ", [name, port])
  }

  /** Reading back what was written gives the same name and port, as long
      as neither contains a space. */
  lemma IdentityRoundTrip(name: string, port: string)
    requires ' ' !in name && ' ' !in port
    ensures FormatIdentity(name, port) == name + " " + port
    ensures ParseIdentity(FormatIdentity(name, port)) == Some((name, port))
  {
    var parts := [name, port];
    assert Join([' '], parts) == name + " " + port by {
      assert parts[1..] == [port];
    }
    SplitOfJoin(parts, ' ');
  }

  /** A port read from the file never holds a space, so a saved identity
      whose name has no space reloads as written. */
  lemma ParsedFieldsHaveNoSpace(text: string)
    ensures ParseIdentity(text).Some? ==> ' ' !in ParseIdentity(text).value.0 && ' ' !in ParseIdentity(text).value.1
  {
  }

  /** The name and port the file left from the last run, or `''` and the
      random port `randomPort` when the file is missing or malformed. */
  function LoadIdentity(fs: Fs, path: string, randomPort: nat): (r: (string, string))
    ensures path in fs.files && ParseIdentity(fs.files[path]).Some? ==> r == ParseIdentity(fs.files[path]).value
    ensures !(path in fs.files && ParseIdentity(fs.files[path]).Some?) ==> r == ("", NatToString(randomPort))
  {
    if path in fs.files && ParseIdentity(fs.files[path]).Some? then ParseIdentity(fs.files[path]).value
    else ("", NatToString(randomPort))
  }

  /** `config.container or container_name` and `str(config.port or port)`:
      a configured value wins unless it is missing or empty. */
  function Override(configured: Option<string>, loaded: string): (r: string)
    ensures IsSet(configured) ==> r == configured.value
    ensures !IsSet(configured) ==> r == loaded
  {
    if IsSet(configured) then configured.value else loaded
  }

  // ---------------------------------------------------------------------
  // Calls to Docker and to the console

  /** The calls the object makes, in order. `Remove` is always forced and
      takes the container's volumes with it (`v=True, force=True`). */
  datatype Action =
    | DockerStart(container: string)
    | Console(inv: Pg.Invocation)
    | CreateContainer(image: string, name: string, port: string, password: string)
    | Inspect(container: string)
    | Remove(container: string)
    | Stop(container: string, timeout: nat)
    | Wait(container: string)
    | GetArchive(container: string, path: string)
    | PutArchive(container: string, path: string, data: string)

  /** `NotFound` and `NullResource` are the Docker client's errors the code
      names; every other Docker error is `DockerFailed`. */
  datatype DockerErr = NotFound | NullResource | DockerFailed

  /** How the k-th call went: the Docker error it raised, if any; the exit
      of a console command; and the text a call hands back (the new
      container's id, the inspected name, the archive). */
  datatype Reply = Reply(error: Option<DockerErr>, exit: Pg.Exit, text: string)

  /** `NotStarted` is the `TimeoutError('Pgdocker was not started')`;
      `MissingBackup` the error of opening a backup file that is not there. */
  datatype PdError = Docker(d: DockerErr) | Command(c: Pg.PgError) | NotStarted | MissingBackup

  datatype DRun = DRun(calls: seq<Action>, outcome: Outcome<PdError>)

  /** A run made after the calls `sent` only adds calls after them. */
  predicate Extends(r: DRun, sent: seq<Action>) {
    |sent| <= |r.calls| && r.calls[..|sent|] == sent
  }

  /** A Docker call `a` on container `target` after the calls `sent`. The
      client refuses an empty name with `NullResource` before calling. */
  function Issue(a: Action, target: string, env: nat -> Reply, sent: seq<Action>): (r: DRun)
    ensures Extends(r, sent)
    ensures target == "" <==> r == DRun(sent, Fail(Docker(NullResource)))
    ensures target != "" ==> r.calls == sent + [a] &&
                             r.outcome == (if env(|sent|).error.Some? then Fail(Docker(env(|sent|).error.value)) else Pass)
  {
    if target == "" then DRun(sent, Fail(Docker(NullResource)))
    else
      var now := sent + [a];
      if env(|sent|).error.Some? then DRun(now, Fail(Docker(env(|sent|).error.value))) else DRun(now, Pass)
  }

  /** The console commands of a plan of the Postgres backend, run after the
      calls `sent` with the common options `common`, up to the first that
      fails. */
  function ConsoleTrace(common: seq<string>, plan: seq<Pg.Step>, env: nat -> Reply, sent: seq<Action>): (r: DRun)
    ensures Extends(r, sent)
    decreases |plan|
  {
    if plan == [] then DRun(sent, Pass)
    else
      var now := sent + [Console(Pg.Invoke(plan[0], common))];
      var o := Pg.CommandOutcome(env(|sent|).exit, plan[0].ignoreError);
      if o.Fail? then DRun(now, Fail(Command(o.error)))
      else ConsoleTrace(common, plan[1..], env, now)
  }

  function Consoles(s: seq<Pg.Invocation>): (r: seq<Action>)
    ensures |r| == |s| && forall i :: 0 <= i < |s| ==> r[i] == Console(s[i])
  {
    if s == [] then [] else [Console(s[0])] + Consoles(s[1..])
  }

  lemma ConsolesCons(x: Pg.Invocation, s: seq<Pg.Invocation>)
    ensures Consoles([x] + s) == [Console(x)] + Consoles(s)
  {
    assert ([x] + s)[1..] == s;
  }

  lemma AppendAssoc(a: seq<Action>, b: seq<Action>, c: seq<Action>)
    ensures a + (b + c) == (a + b) + c
  {
  }

  function Exits(env: nat -> Reply): nat -> Pg.Exit {
    (k: nat) => env(k).exit
  }

  /** Run here, a plan issues exactly the commands the Postgres backend's own
      run of it issues, with the same outcome. */
  lemma {:induction false} ConsoleTraceIsExec(common: seq<string>, plan: seq<Pg.Step>, env: nat -> Reply, sent: seq<Action>)
    ensures var e := Pg.Exec(common, plan, Exits(env), |sent|);
            ConsoleTrace(common, plan, env, sent) ==
              DRun(sent + Consoles(e.issued), if e.outcome.Pass? then Pass else Fail(Command(e.outcome.error)))
    decreases |plan|
  {
    if plan == [] {
      assert sent + [] == sent;
    } else {
      var o := Pg.CommandOutcome(env(|sent|).exit, plan[0].ignoreError);
      assert Exits(env)(|sent|) == env(|sent|).exit;
      var head := Console(Pg.Invoke(plan[0], common));
      if o.Pass? {
        var now := sent + [head];
        ConsoleTraceIsExec(common, plan[1..], env, now);
        var rest := Pg.Exec(common, plan[1..], Exits(env), |sent| + 1);
        ConsolesCons(Pg.Invoke(plan[0], common), rest.issued);
        AppendAssoc(sent, [head], Consoles(rest.issued));
      } else {
        ConsolesCons(Pg.Invoke(plan[0], common), []);
      }
    }
  }

  // ---------------------------------------------------------------------
  // Starting the container

  /** The readiness probe: `psql --list` with a one-second timeout. */
  const ProbeStep: Pg.Step := Pg.Step(["psql", "--list"], 1, None, false)

  const StartTries: nat := 15

  /** A probe answered: the command exited with status 0. */
  predicate ProbeOk(reply: Reply) {
    reply.exit == Pg.Exited(0)
  }

  /** The probe loop of `_start` as written: a probe that fails with a
      non-zero status (`RuntimeError`) is retried, but a probe that times
      out raises `subprocess.TimeoutExpired`, which is not a `TimeoutError`
      and leaves the loop. The result is the number of probes made and the
      outcome, the first probe being the `k`-th call. */
  function ProbesAsWritten(env: nat -> Reply, k: nat, tries: nat): (r: (nat, Outcome<PdError>))
    ensures r.0 <= tries
    decreases tries
  {
    if tries == 0 then (0, Fail(NotStarted))
    else if ProbeOk(env(k)) then (1, Pass)
    else if env(k).exit == Pg.TimedOut then (1, Fail(Command(Pg.CommandTimedOut)))
    else
      var rest := ProbesAsWritten(env, k + 1, tries - 1);
      (1 + rest.0, rest.1)
  }

  /** The probe loop as intended: every failed probe is retried, the loop
      returns on the first probe that answers, and gives up with
      `NotStarted` after `tries` probes. */
  function ProbeTrace(probe: Action, env: nat -> Reply, sent: seq<Action>, tries: nat): (r: DRun)
    ensures Extends(r, sent)
    decreases tries
  {
    if tries == 0 then DRun(sent, Fail(NotStarted))
    else
      var now := sent + [probe];
      if ProbeOk(env(|sent|)) then DRun(now, Pass)
      else ProbeTrace(probe, env, now, tries - 1)
  }

  /** The probes as intended: between one and `tries` of them, all alike;
      the loop ends well exactly on the first probe that answers, every
      probe before it failed, and after `tries` failures it gives up with
      `NotStarted`. */
  lemma {:induction false} ProbeTraceBounded(probe: Action, env: nat -> Reply, sent: seq<Action>, tries: nat)
    ensures var r := ProbeTrace(probe, env, sent, tries);
            |r.calls| <= |sent| + tries && (tries >= 1 ==> |r.calls| >= |sent| + 1)
    ensures forall j :: |sent| <= j < |ProbeTrace(probe, env, sent, tries).calls| ==> ProbeTrace(probe, env, sent, tries).calls[j] == probe
    ensures forall j :: |sent| <= j < |ProbeTrace(probe, env, sent, tries).calls| - 1 ==> !ProbeOk(env(j))
    ensures ProbeTrace(probe, env, sent, tries).outcome.Pass? <==>
              tries >= 1 && ProbeOk(env(|ProbeTrace(probe, env, sent, tries).calls| - 1))
    ensures ProbeTrace(probe, env, sent, tries).outcome.Fail? ==>
              ProbeTrace(probe, env, sent, tries).outcome == Fail(NotStarted) &&
              |ProbeTrace(probe, env, sent, tries).calls| == |sent| + tries
    decreases tries
  {
    if tries > 0 && !ProbeOk(env(|sent|)) {
      var now := sent + [probe];
      ProbeTraceBounded(probe, env, now, tries - 1);
      var r := ProbeTrace(probe, env, sent, tries);
      assert r == ProbeTrace(probe, env, now, tries - 1);
      assert r.calls[..|now|] == now;
      assert r.calls[|sent|] == probe;
      if tries == 1 {
        assert r.calls == now;
      }
    }
  }

  /** The fault in the loop as written: with a first probe that times out
      and a second that answers, the intended loop starts the container on
      the second probe, but the loop as written raises after the first. */
  lemma TimedOutProbeEscapes(env: nat -> Reply, probe: Action, sent: seq<Action>)
    requires env(|sent|).exit == Pg.TimedOut && ProbeOk(env(|sent| + 1))
    ensures ProbesAsWritten(env, |sent|, StartTries) == (1, Fail(Command(Pg.CommandTimedOut)))
    ensures ProbeTrace(probe, env, sent, StartTries) == DRun(sent + [probe, probe], Pass)
  {
    var now := sent + [probe];
    assert |now| == |sent| + 1;
    assert now + [probe] == sent + [probe, probe];
  }

  /** `_start(container)`: start the container, then probe. */
  function StartTrace(container: string, common: seq<string>, env: nat -> Reply, sent: seq<Action>): (r: DRun)
    ensures Extends(r, sent)
  {
    var s := Issue(DockerStart(container), container, env, sent);
    if s.outcome.Fail? then s
    else ProbeTrace(Console(Pg.Invoke(ProbeStep, common)), env, s.calls, StartTries)
  }

  /** Starting probes only a container that Docker started, and at most
      `StartTries` times. */
  lemma StartProbesAfterStart(container: string, common: seq<string>, env: nat -> Reply, sent: seq<Action>)
    ensures var r := StartTrace(container, common, env, sent);
            |r.calls| > |sent| ==> container != "" && r.calls[|sent|] == DockerStart(container)
    ensures var r := StartTrace(container, common, env, sent);
            |r.calls| > |sent| + 1 ==> env(|sent|).error.None? && |r.calls| <= |sent| + 1 + StartTries
    ensures container == "" ==> StartTrace(container, common, env, sent) == DRun(sent, Fail(Docker(NullResource)))
  {
    var s := Issue(DockerStart(container), container, env, sent);
    if s.outcome.Pass? {
      assert s.calls[|sent|] == DockerStart(container);
      ProbeTraceBounded(Console(Pg.Invoke(ProbeStep, common)), env, s.calls, StartTries);
    }
  }

  // ---------------------------------------------------------------------
  // create, drop, backup, restore

  /** What the object's operations change: the container name, the host's
      files (the identity file and the backup among them) and the calls made. */
  datatype St = St(name: string, fs: Fs, calls: seq<Action>)

  datatype After = After(st: St, outcome: Outcome<PdError>)

  /** The fields `__init__` fixes: the Postgres part (with this object's
      port and backup path), the image, the identity file's path and the port. */
  datatype Setup = Setup(pg: Pg.Postgres, image: string, identityPath: string, port: string)

  /** The options every console command of the object gets. */
  function CommonOf(s: Setup): seq<string> {
    Pg.CommonArgs(s.pg.conn)
  }

  /** Calls that change neither the name nor the files. */
  function Only(st: St, r: DRun): After {
    After(st.(calls := r.calls), r.outcome)
  }

  /** `s[1:]`: the inspected name without its leading slash. */
  function DropFirst(s: string): string {
    if |s| >= 1 then s[1..] else ""
  }

  /** `_save_container(new_id)`: inspect the container when there is one,
      then record its name without the leading slash (or `''` for none)
      and the port in the identity file. */
  function SaveSpec(s: Setup, env: nat -> Reply, id: string, st: St): (r: After)
    ensures r.outcome.Fail? ==> r.st.name == st.name && r.st.fs == st.fs
    ensures r.outcome.Pass? ==> r.st.fs == WriteFile(st.fs, s.identityPath, FormatIdentity(r.st.name, s.port))
  {
    if id != "" then
      var i := Issue(Inspect(id), id, env, st.calls);
      if i.outcome.Fail? then Only(st, i)
      else
        var n := DropFirst(env(|st.calls|).text);
        After(St(n, WriteFile(st.fs, s.identityPath, FormatIdentity(n, s.port)), i.calls), Pass)
    else After(St("", WriteFile(st.fs, s.identityPath, FormatIdentity("", s.port)), st.calls), Pass)
  }

  /** The `try` block of `create`: start the new container `id`, create the
      database through the Postgres definition, and save the identity. */
  function CreateBody(s: Setup, env: nat -> Reply, id: string, st: St): After {
    var start := StartTrace(id, CommonOf(s), env, st.calls);
    if start.outcome.Fail? then Only(st, start)
    else
      var c := ConsoleTrace(CommonOf(s), Pg.CreatePlan(s.pg), env, start.calls);
      if c.outcome.Fail? then Only(st, c) else SaveSpec(s, env, id, st.(calls := c.calls))
  }

  /** `create`: make a container, run the body, and force-remove the new
      container when the body raised (an error of the removal replaces the
      body's). */
  function CreateSpec(s: Setup, env: nat -> Reply, st: St): After {
    var now := st.calls + [CreateContainer(s.image, st.name, s.port, s.pg.conn.password)];
    var reply := env(|st.calls|);
    if reply.error.Some? then After(st.(calls := now), Fail(Docker(reply.error.value)))
    else
      var b := CreateBody(s, env, reply.text, st.(calls := now));
      if b.outcome.Pass? then b
      else
        var rm := Issue(Remove(reply.text), reply.text, env, b.st.calls);
        After(b.st.(calls := rm.calls), if rm.outcome.Fail? then rm.outcome else b.outcome)
  }

  /** A `create` changes the identity only when it succeeds, and then
      records the new name with the port. */
  lemma CreateSavesOnlyOnSuccess(s: Setup, env: nat -> Reply, st: St)
    ensures var r := CreateSpec(s, env, st);
            r.outcome.Fail? ==> r.st.name == st.name && r.st.fs == st.fs
    ensures var r := CreateSpec(s, env, st);
            r.outcome.Pass? ==> r.st.fs == WriteFile(st.fs, s.identityPath, FormatIdentity(r.st.name, s.port))
  {
  }

  /** No orphaned container: once a container was created, a `create` that
      raises has removed it with its last call; a container with an empty
      id cannot be removed and leaves `NullResource`. */
  lemma CreateLeavesNoOrphan(s: Setup, env: nat -> Reply, st: St)
    ensures var r := CreateSpec(s, env, st);
            var id := env(|st.calls|).text;
            r.outcome.Fail? && env(|st.calls|).error.None? && id != "" ==>
              |r.st.calls| >= 1 && r.st.calls[|r.st.calls| - 1] == Remove(id)
    ensures var r := CreateSpec(s, env, st);
            r.outcome.Fail? && env(|st.calls|).error.None? && env(|st.calls|).text == "" ==>
              r.outcome == Fail(Docker(NullResource))
  {
  }

  /** `drop`: force-remove the container with its volumes, then record an
      empty name with the port unchanged. */
  function DropSpec(s: Setup, env: nat -> Reply, st: St): After {
    var r := Issue(Remove(st.name), st.name, env, st.calls);
    if r.outcome.Fail? then Only(st, r) else SaveSpec(s, env, "", st.(calls := r.calls))
  }

  /** A `drop` that succeeds made one call, removing the container, and
      leaves the name empty and the port in the identity file; one that
      fails changes neither, and an empty name fails before any call. */
  lemma DropForgetsName(s: Setup, env: nat -> Reply, st: St)
    ensures var r := DropSpec(s, env, st);
            r.outcome.Pass? ==> r.st == St("", WriteFile(st.fs, s.identityPath, FormatIdentity("", s.port)), st.calls + [Remove(st.name)])
    ensures var r := DropSpec(s, env, st);
            r.outcome.Fail? ==> r.st.name == st.name && r.st.fs == st.fs
    ensures st.name == "" ==> DropSpec(s, env, st) == After(st, Fail(Docker(NullResource)))
  {
  }

  /** `backup`: stop the container (waiting up to 60 seconds), wait for it,
      write its data directory to the backup file (opened, and so emptied,
      before the export), then start it again. */
  function BackupSpec(s: Setup, env: nat -> Reply, st: St): After {
    var n := st.name;
    var stop := Issue(Stop(n, 60), n, env, st.calls);
    if stop.outcome.Fail? then Only(st, stop)
    else
      var wait := Issue(Wait(n), n, env, stop.calls);
      if wait.outcome.Fail? then Only(st, wait)
      else
        var get := Issue(GetArchive(n, DataDir + "/."), n, env, wait.calls);
        if get.outcome.Fail? then After(St(n, WriteFile(st.fs, s.pg.backupPath, ""), get.calls), get.outcome)
        else
          var start := StartTrace(n, CommonOf(s), env, get.calls);
          After(St(n, WriteFile(st.fs, s.pg.backupPath, env(|wait.calls|).text), start.calls), start.outcome)
  }

  /** The order of `backup`: stop, wait, export, start, each only after the
      one before succeeded; the backup file is only touched once the
      container has stopped, and holds the exported archive when the
      export succeeded. */
  lemma BackupOrder(s: Setup, env: nat -> Reply, st: St)
    ensures BackupSpec(s, env, st).st.name == st.name
    ensures var r := BackupSpec(s, env, st);
            |r.st.calls| > |st.calls| ==> st.name != "" && r.st.calls[|st.calls|] == Stop(st.name, 60)
    ensures var r := BackupSpec(s, env, st);
            |r.st.calls| > |st.calls| + 1 ==> env(|st.calls|).error.None? && r.st.calls[|st.calls| + 1] == Wait(st.name)
    ensures var r := BackupSpec(s, env, st);
            |r.st.calls| > |st.calls| + 2 ==>
              env(|st.calls| + 1).error.None? && r.st.calls[|st.calls| + 2] == GetArchive(st.name, DataDir + "/.")
    ensures var r := BackupSpec(s, env, st);
            |r.st.calls| > |st.calls| + 3 ==>
              env(|st.calls| + 2).error.None? && r.st.calls[|st.calls| + 3] == DockerStart(st.name) &&
              r.st.fs == WriteFile(st.fs, s.pg.backupPath, env(|st.calls| + 2).text)
    ensures var r := BackupSpec(s, env, st);
            |r.st.calls| < |st.calls| + 3 ==> r.st.fs == st.fs
  {
    var n := st.name;
    var k := |st.calls|;
    var r := BackupSpec(s, env, st);
    if n == "" {
      assert r == After(st, Fail(Docker(NullResource)));
    } else if env(k).error.Some? {
      assert r.st == st.(calls := st.calls + [Stop(n, 60)]);
    } else if env(k + 1).error.Some? {
      assert r.st == st.(calls := st.calls + [Stop(n, 60)] + [Wait(n)]);
    } else {
      var get := st.calls + [Stop(n, 60)] + [Wait(n)] + [GetArchive(n, DataDir + "/.")];
      assert get[k] == Stop(n, 60) && get[k + 1] == Wait(n) && get[k + 2] == GetArchive(n, DataDir + "/.");
      if env(k + 2).error.Some? {
        assert r.st == St(n, WriteFile(st.fs, s.pg.backupPath, ""), get);
      } else {
        var start := StartTrace(n, CommonOf(s), env, get);
        assert r.st == St(n, WriteFile(st.fs, s.pg.backupPath, env(k + 2).text), start.calls);
        StartProbesAfterStart(n, CommonOf(s), env, get);
        assert start.calls[..|get|] == get;
        assert |start.calls| > k + 3 ==>
                 start.calls[k] == Stop(n, 60) && start.calls[k + 1] == Wait(n) &&
                 start.calls[k + 2] == GetArchive(n, DataDir + "/.");
      }
    }
  }

  /** The filesystem-backup path of `restore`: drop the container, create a
      new one (with the empty name the drop left), put the backup archive
      into it, start it and save the identity. */
  function TarRestoreSpec(s: Setup, env: nat -> Reply, st: St): After {
    var d := DropSpec(s, env, st);
    if d.outcome.Fail? then d
    else
      var st1 := d.st;
      var now := st1.calls + [CreateContainer(s.image, st1.name, s.port, s.pg.conn.password)];
      var reply := env(|st1.calls|);
      if reply.error.Some? then After(st1.(calls := now), Fail(Docker(reply.error.value)))
      else if s.pg.backupPath !in st1.fs.files then After(st1.(calls := now), Fail(MissingBackup))
      else
        var id := reply.text;
        var put := Issue(PutArchive(id, DataDir, st1.fs.files[s.pg.backupPath]), id, env, now);
        if put.outcome.Fail? then Only(st1, put)
        else
          var start := StartTrace(id, CommonOf(s), env, put.calls);
          if start.outcome.Fail? then Only(st1, start) else SaveSpec(s, env, id, st1.(calls := start.calls))
  }

  /** `restore`: a backup the `file` command calls a POSIX tar archive is a
      copy of the data directory and is restored into a new container;
      anything else goes to the plain Postgres restore. */
  function RestoreSpec(s: Setup, env: nat -> Reply, st: St, fileOutput: string, isDir: bool, description: string): After {
    if Find(fileOutput, "POSIX tar archive") != -1 then TarRestoreSpec(s, env, st)
    else match Pg.Restore(s.pg, isDir, description)
      case Err(e) => After(st, Fail(Command(e)))
      case Ok(plan) => Only(st, ConsoleTrace(CommonOf(s), plan, env, st.calls))
  }

  /** A tar archive is restored into a fresh container: the old one is
      removed first, then one is created with the empty name the drop
      recorded; a restore that succeeds records the new container and the
      port in the identity file. */
  lemma TarRestoreReplacesContainer(s: Setup, env: nat -> Reply, st: St)
    ensures var r := TarRestoreSpec(s, env, st);
            |r.st.calls| > |st.calls| ==> r.st.calls[|st.calls|] == Remove(st.name)
    ensures var r := TarRestoreSpec(s, env, st);
            |r.st.calls| > |st.calls| + 1 ==>
              r.st.calls[|st.calls| + 1] == CreateContainer(s.image, "", s.port, s.pg.conn.password)
    ensures var r := TarRestoreSpec(s, env, st);
            r.outcome.Pass? ==>
              r.st.fs == WriteFile(WriteFile(st.fs, s.identityPath, FormatIdentity("", s.port)), s.identityPath, FormatIdentity(r.st.name, s.port))
  {
    var k := |st.calls|;
    DropForgetsName(s, env, st);
    var d := DropSpec(s, env, st);
    var r := TarRestoreSpec(s, env, st);
    if d.outcome.Fail? {
      assert r == d;
    } else {
      var now := d.st.calls + [CreateContainer(s.image, "", s.port, s.pg.conn.password)];
      assert now[k] == Remove(st.name) && now[k + 1] == CreateContainer(s.image, "", s.port, s.pg.conn.password);
      var reply := env(|d.st.calls|);
      if reply.error.None? && s.pg.backupPath in d.st.fs.files {
        var id := reply.text;
        var put := Issue(PutArchive(id, DataDir, d.st.fs.files[s.pg.backupPath]), id, env, now);
        if put.outcome.Pass? {
          var start := StartTrace(id, CommonOf(s), env, put.calls);
          assert start.calls[..|now|] == now by {
            assert start.calls[..|put.calls|] == put.calls;
          }
          if start.outcome.Pass? {
            var save := SaveSpec(s, env, id, d.st.(calls := start.calls));
            assert r == save;
            assert save.st.calls[..|start.calls|] == start.calls;
            assert save.st.calls[..|now|] == now;
          } else {
            assert r.st.calls == start.calls;
          }
        } else {
          assert r.st.calls == put.calls;
        }
      } else {
        assert r.st.calls == now;
      }
    }
  }

  /** Any backup that is not a tar archive leaves the container and the
      identity alone and issues exactly the commands of the Postgres
      restore (none, for a format it does not know). */
  lemma OtherRestoreIsPostgres(s: Setup, env: nat -> Reply, st: St, fileOutput: string, isDir: bool, description: string)
    requires !Contains(fileOutput, "POSIX tar archive")
    ensures var r := RestoreSpec(s, env, st, fileOutput, isDir, description);
            r.st.name == st.name && r.st.fs == st.fs &&
            match Pg.Restore(s.pg, isDir, description)
            case Err(e) => r == After(st, Fail(Command(Pg.WrongBackupFormat)))
            case Ok(plan) =>
              var e := Pg.Exec(CommonOf(s), plan, Exits(env), |st.calls|);
              r.st.calls == st.calls + Consoles(e.issued) && (r.outcome.Pass? <==> e.outcome.Pass?)
  {
    match Pg.Restore(s.pg, isDir, description)
    case Err(e) => Pg.RestoreShape(s.pg, isDir, description);
    case Ok(plan) => ConsoleTraceIsExec(CommonOf(s), plan, env, st.calls);
  }

  /** The identity a later run of `__init__` reads back after a `create` or
      a `drop`: exactly the name and port saved, when they hold no space. */
  lemma SavedIdentityReloads(fs: Fs, path: string, name: string, port: string, randomPort: nat)
    requires ' ' !in name && ' ' !in port
    ensures LoadIdentity(WriteFile(fs, path, FormatIdentity(name, port)), path, randomPort) == (name, port)
  {
    IdentityRoundTrip(name, port);
  }

  // ---------------------------------------------------------------------
  // The backend object

  /** The plain Postgres backend as this object uses it: the port and the
      backup path are the ones `__init__` overrides. */
  function PgView(cfg: DbTools.DbConfig, port: string): (pg: Pg.Postgres)
    ensures pg.conn == DbTools.FromConfig(cfg).(port := Some(port))
    ensures pg.backupPath == JoinPath(cfg.backupDir, "default.tar")
  {
    Pg.Postgres(DbTools.FromConfig(cfg).(port := Some(port)), cfg.postgresIgnoreRestoreErrors, JoinPath(cfg.backupDir, "default.tar"))
  }

  /** What the object inherits from the Postgres backend (`has_default_backup`,
      `reduce`, `set_1_1`, `customer_patch`) runs against the container:
      every command carries the container's port when there is one, and the
      default backup is `default.tar`. */
  lemma InheritedUseContainer(cfg: DbTools.DbConfig, port: string, fs: Fs)
    ensures port != "" ==> Pg.CommonArgs(PgView(cfg, port).conn) == ["--host", cfg.ip, "--username", cfg.user, "--port", port]
    ensures port == "" ==> Pg.CommonArgs(PgView(cfg, port).conn) == ["--host", cfg.ip, "--username", cfg.user]
    ensures Pg.HasDefaultBackup(PgView(cfg, port), fs) <==> Exists(fs, JoinPath(cfg.backupDir, "default.tar"))
  {
  }

  const DataDir: string := "/var/lib/postgresql/data"

  class Pgdocker {
    /** The fields `__init__` fixes. */
    const setup: Setup
    /** The container name the identity file held when the object was made. */
    const loadedName: string
    /** `self._container_name`. */
    var containerName: string
    /** The host's files, the identity file and the backup among them. */
    var fs: Fs
    /** Every call made so far, in order. */
    var issued: seq<Action>
    /** The answer to the k-th call. */
    const env: nat -> Reply

    function State(): St
      reads this
    {
      St(containerName, fs, issued)
    }

    function Common(): seq<string> {
      CommonOf(setup)
    }

    /** The assignments of `Pgdocker.__init__`: the Postgres part (which
        creates the backup directory when it is missing), then the name and
        port from the configuration or, failing that, from the identity file
        or the random port. */
    constructor (cfg: DbTools.DbConfig, fs: Fs, env: nat -> Reply, randomPort: nat)
      requires 40000 <= randomPort <= 50000
      ensures setup.identityPath == JoinPath(cfg.backupDir, "pgdocker_db") && setup.image == cfg.pgdockerImage
      ensures var loaded := LoadIdentity(Pg.New(cfg, fs).1, setup.identityPath, randomPort);
              loadedName == loaded.0 && containerName == Override(cfg.container, loaded.0) &&
              setup.port == Override(cfg.port, loaded.1)
      ensures setup.pg == PgView(cfg, setup.port)
      ensures this.fs == Pg.New(cfg, fs).1 && this.env == env && issued == []
    {
      var fs' := Pg.New(cfg, fs).1;
      var path := JoinPath(cfg.backupDir, "pgdocker_db");
      var loaded := LoadIdentity(fs', path, randomPort);
      var p := Override(cfg.port, loaded.1);
      setup := Setup(PgView(cfg, p), cfg.pgdockerImage, path, p);
      loadedName := loaded.0;
      containerName := Override(cfg.container, loaded.0);
      this.fs := fs';
      this.env := env;
      issued := [];
    }

    /** A Docker call on `target`. */
    method Call(a: Action, target: string) returns (o: Outcome<PdError>)
      modifies this
      ensures After(State(), o) == Only(old(State()), Issue(a, target, env, old(issued)))
    {
      if target == "" {
        return Fail(Docker(NullResource));
      }
      var reply := env(|issued|);
      issued := issued + [a];
      if reply.error.Some? {
        return Fail(Docker(reply.error.value));
      }
      o := Pass;
    }

    /** `_run_console_command` over a plan of the Postgres backend. */
    method RunPlan(plan: seq<Pg.Step>) returns (o: Outcome<PdError>)
      modifies this
      ensures After(State(), o) == Only(old(State()), ConsoleTrace(Common(), plan, env, old(issued)))
    {
      var i := 0;
      while i < |plan|
        invariant 0 <= i <= |plan|
        invariant containerName == old(containerName) && fs == old(fs)
        invariant ConsoleTrace(Common(), plan, env, old(issued)) == ConsoleTrace(Common(), plan[i..], env, issued)
      {
        var s := plan[i];
        assert plan[i..][0] == s && plan[i..][1..] == plan[i + 1..];
        var argv := Pg.InsertCommon(s.args, setup.pg.conn);
        var exit := env(|issued|).exit;
        issued := issued + [Console(Pg.Invocation(argv, s.timeout, s.stdin))];
        var c := Pg.CommandOutcome(exit, s.ignoreError);
        if c.Fail? {
          return Fail(Command(c.error));
        }
        i := i + 1;
      }
      assert plan[i..] == [];
      o := Pass;
    }

    /** `_start(container)`, with the probe loop as intended. */
    method Start(container: string) returns (o: Outcome<PdError>)
      modifies this
      ensures After(State(), o) == Only(old(State()), StartTrace(container, Common(), env, old(issued)))
    {
      o := Call(DockerStart(container), container);
      if o.Fail? {
        return;
      }
      var probe := Console(Pg.Invoke(ProbeStep, Common()));
      var i := 0;
      while i < StartTries
        invariant 0 <= i <= StartTries
        invariant containerName == old(containerName) && fs == old(fs)
        invariant StartTrace(container, Common(), env, old(issued)) == ProbeTrace(probe, env, issued, StartTries - i)
      {
        var exit := env(|issued|).exit;
        issued := issued + [probe];
        if exit == Pg.Exited(0) {
          return Pass;
        }
        i := i + 1;
      }
      o := Fail(NotStarted);
    }

    /** The rest of `__init__`: the first start attempt uses the name the
        identity file held, and a container that is gone (`NotFound`) or
        an empty name (`NullResource`) is not an error. */
    method Init() returns (o: Outcome<PdError>)
      modifies this
      ensures var r := StartTrace(loadedName, Common(), env, old(issued));
              State() == old(State()).(calls := r.calls) &&
              o == (if r.outcome == Fail(Docker(NotFound)) || r.outcome == Fail(Docker(NullResource)) then Pass else r.outcome)
    {
      o := Start(loadedName);
      if o == Fail(Docker(NotFound)) || o == Fail(Docker(NullResource)) {
        o := Pass;
      }
    }

    /** `_save_container(new_id)`. */
    method SaveContainer(id: string) returns (o: Outcome<PdError>)
      modifies this
      ensures After(State(), o) == SaveSpec(setup, env, id, old(State()))
    {
      if id != "" {
        var reply := env(|issued|);
        o := Call(Inspect(id), id);
        if o.Fail? {
          return;
        }
        containerName := DropFirst(reply.text);
      } else {
        containerName := "";
        o := Pass;
      }
      fs := WriteFile(fs, setup.identityPath, Join(" ", [containerName, setup.port]));
    }

    /** `_create_container()`: the id of a new container named after the
        current name, publishing the server's port 5432 on the port. */
    method CreateContainerCall() returns (id: Result<string, PdError>)
      modifies this
      ensures var reply := env(|old(issued)|);
              State() == old(State()).(calls := old(issued) + [CreateContainer(setup.image, containerName, setup.port, setup.pg.conn.password)]) &&
              id == (if reply.error.Some? then Err(Docker(reply.error.value)) else Ok(reply.text))
    {
      var reply := env(|issued|);
      issued := issued + [CreateContainer(setup.image, containerName, setup.port, setup.pg.conn.password)];
      if reply.error.Some? {
        return Err(Docker(reply.error.value));
      }
      id := Ok(reply.text);
    }

    /** The `try` block of `create`, for the new container `id`. */
    method CreateIn(id: string) returns (o: Outcome<PdError>)
      modifies this
      ensures After(State(), o) == CreateBody(setup, env, id, old(State()))
    {
      o := Start(id);
      if o.Fail? {
        return;
      }
      o := RunPlan(Pg.CreatePlan(setup.pg));
      if o.Fail? {
        return;
      }
      o := SaveContainer(id);
    }

    /** `create`. */
    method Create() returns (o: Outcome<PdError>)
      modifies this
      ensures After(State(), o) == CreateSpec(setup, env, old(State()))
    {
      var id := CreateContainerCall();
      if id.Err? {
        return Fail(id.error);
      }
      o := CreateIn(id.value);
      if o.Fail? {
        var removed := Call(Remove(id.value), id.value);
        if removed.Fail? {
          o := removed;
        }
      }
    }

    /** `drop`. */
    method Drop() returns (o: Outcome<PdError>)
      modifies this
      ensures After(State(), o) == DropSpec(setup, env, old(State()))
    {
      o := Call(Remove(containerName), containerName);
      if o.Fail? {
        return;
      }
      o := SaveContainer("");
    }

    /** `backup`. */
    method Backup() returns (o: Outcome<PdError>)
      modifies this
      ensures After(State(), o) == BackupSpec(setup, env, old(State()))
    {
      o := Call(Stop(containerName, 60), containerName);
      if o.Fail? {
        return;
      }
      o := Call(Wait(containerName), containerName);
      if o.Fail? {
        return;
      }
      var archive := env(|issued|).text;
      fs := WriteFile(fs, setup.pg.backupPath, "");
      o := Call(GetArchive(containerName, DataDir + "/."), containerName);
      if o.Fail? {
        return;
      }
      fs := WriteFile(fs, setup.pg.backupPath, archive);
      o := Start(containerName);
    }

    /** The filesystem-backup path of `restore`. */
    method TarRestore() returns (o: Outcome<PdError>)
      modifies this
      ensures After(State(), o) == TarRestoreSpec(setup, env, old(State()))
    {
      o := Drop();
      if o.Fail? {
        return;
      }
      var id := CreateContainerCall();
      if id.Err? {
        return Fail(id.error);
      }
      if setup.pg.backupPath !in fs.files {
        return Fail(MissingBackup);
      }
      o := Call(PutArchive(id.value, DataDir, fs.files[setup.pg.backupPath]), id.value);
      if o.Fail? {
        return;
      }
      o := Start(id.value);
      if o.Fail? {
        return;
      }
      o := SaveContainer(id.value);
    }

    /** `restore`: `fileOutput` is what the `file` command says about the
        backup, `isDir` and `description` what the Postgres restore checks. */
    method Restore(fileOutput: string, isDir: bool, description: string) returns (o: Outcome<PdError>)
      modifies this
      ensures After(State(), o) == RestoreSpec(setup, env, old(State()), fileOutput, isDir, description)
    {
      if Find(fileOutput, "POSIX tar archive") != -1 {
        o := TarRestore();
        return;
      }
      var plan := Pg.Restore(setup.pg, isDir, description);
      if plan.Err? {
        return Fail(Command(plan.error));
      }
      o := RunPlan(plan.value);
    }
  }
}
