/** The HTTP side of the stand: the action handler that routes a request
    to the engine's long workflows, its status or the web application
    check, the single worker that runs queued workflows in order, and the
    main page.  Responses are values; Tornado, the thread pool's threads
    and HTML templates on disk are not modelled. */
module WebHandlers {
  import opened Wrappers
  import opened Text
  import DbTools
  import E = Engine

  // ---------------------------------------------------------------------
  // routing

  const CheckUniAction: string := "check_uni"
  const EngineStatusAction: string := "engine_status"

  /** `ActionHandler.LONG_ACTIONS`, in their declared order. */
  const LongActions: seq<string> :=
    ["update", "reduce", "backup", "restore", "build_and_update", "new_stand", "new_db", "drop_db"]

  /** The engine method a long action names (`getattr(engine, action)`). */
  function ActionName(w: E.Workflow): string {
    match w
    case Update => "update"
    case Reduce => "reduce"
    case Backup => "backup"
    case Restore => "restore"
    case BuildAndUpdate => "build_and_update"
    case NewStand => "new_stand"
    case NewDb => "new_db"
    case DropDb => "drop_db"
  }

  /** The long workflow an action string names, if it is a long action. */
  function WorkflowNamed(action: string): (r: Option<E.Workflow>)
    ensures r.Some? ==> ActionName(r.value) == action
  {
    if action == "update" then Some(E.Update)
    else if action == "reduce" then Some(E.Reduce)
    else if action == "backup" then Some(E.Backup)
    else if action == "restore" then Some(E.Restore)
    else if action == "build_and_update" then Some(E.BuildAndUpdate)
    else if action == "new_stand" then Some(E.NewStand)
    else if action == "new_db" then Some(E.NewDb)
    else if action == "drop_db" then Some(E.DropDb)
    else None
  }

  /** The long actions are exactly the names of the eight workflows, and
      each workflow is reached by its own name. */
  lemma LongActionsAreWorkflows(action: string, w: E.Workflow)
    ensures WorkflowNamed(action).Some? <==> action in LongActions
    ensures WorkflowNamed(ActionName(w)) == Some(w)
    ensures ActionName(w) in LongActions
  {
  }

  /** Where `ActionHandler.get` sends an action. */
  datatype Route = CheckUni | Long(w: E.Workflow) | EngineStatus | NotFound

  /** The order of the tests in `ActionHandler.get`: `check_uni`, then the
      long actions, then `engine_status`; anything else is not found. */
  function RouteOf(action: string): (r: Route)
    ensures r == CheckUni <==> action == CheckUniAction
    ensures r.Long? <==> action in LongActions
    ensures r.Long? ==> ActionName(r.w) == action
    ensures r == EngineStatus <==> action == EngineStatusAction
    ensures r == NotFound <==> action != CheckUniAction && action !in LongActions && action != EngineStatusAction
  {
    if action == CheckUniAction then CheckUni
    else match WorkflowNamed(action)
      case Some(w) => Long(w)
      case None => if action == EngineStatusAction then EngineStatus else NotFound
  }

  // ---------------------------------------------------------------------
  // responses

  /** What a request is answered with: a JSON object (after
      `set_status(code, reason)` where the handler sets one), the engine's
      status, or a redirect. */
  datatype Response =
    | Json(code: nat, reason: string, body: seq<(string, string)>)
    | StatusReport(status: E.Status)
    | Redirect(location: string)

  const Okay: Response := Json(200, "OK", [("status", "ok")])

  /** The answer of a synchronous long action that raised `e`. */
  function ActionFailed(e: string): Response {
    Json(400, "Error while test tools action", [("status", "fail"), ("error", e)])
  }

  const NotFoundResponse: Response := Json(404, "invalid action", [("status", "not found"), ("error", "invalid action")])

  /** `self.get_argument('sync', False)` is truthy: the argument is given
      and not empty. */
  predicate SyncRequested(sync: Option<string>) {
    IsSet(sync)
  }

  // ---------------------------------------------------------------------
  // the single worker

  /** The worker runs queued workflows one after another, each wrapped in
      `log_exceptions`. */
  function DrainF(setup: E.Setup, env: nat -> E.Answer, queue: seq<E.Workflow>, s: E.ES): (t: E.ES)
    ensures E.Grows(s, t)
    decreases |queue|
  {
    if queue == [] then s
    else
      var after := E.LogExceptionsF(setup, env, queue[0], s).s;
      E.GrowsTrans(s, E.RunF(setup, env, queue[0], s).s, after);
      DrainF(setup, env, queue[1..], after)
  }

  /** Draining a queue in two parts is draining the parts in turn. */
  lemma {:induction false} DrainAppend(setup: E.Setup, env: nat -> E.Answer, q1: seq<E.Workflow>, q2: seq<E.Workflow>, s: E.ES)
    ensures DrainF(setup, env, q1 + q2, s) == DrainF(setup, env, q2, DrainF(setup, env, q1, s))
    decreases |q1|
  {
    if q1 == [] {
      assert q1 + q2 == q2;
    } else {
      assert (q1 + q2)[1..] == q1[1..] + q2;
      DrainAppend(setup, env, q1[1..], q2, E.LogExceptionsF(setup, env, q1[0], s).s);
    }
  }

  /** A raising workflow never reaches the worker: after the queue ran, the
      remembered error is that of the last workflow, or none if it passed. */
  lemma DrainRecordsLastError(setup: E.Setup, env: nat -> E.Answer, queue: seq<E.Workflow>, s: E.ES)
    requires queue != []
    ensures var before := DrainF(setup, env, queue[..|queue| - 1], s);
            var after := DrainF(setup, env, queue, s);
            var o := E.RunF(setup, env, queue[|queue| - 1], before).outcome;
            after.lastError == (if o.Pass? then None else Some(o.error)) && after.activeTask == None
  {
    var n := |queue| - 1;
    assert queue == queue[..n] + [queue[n]];
    DrainAppend(setup, env, queue[..n], [queue[n]], s);
    var before := DrainF(setup, env, queue[..n], s);
    E.LoggedErrorIsOutcome(setup, env, queue[n], before);
    E.TasksClosed(setup, env, queue[n], before);
  }

  // ---------------------------------------------------------------------
  // _check_uni

  /** How long `_check_uni` waits for the web application, and the pause
      after a failed attempt, in seconds. */
  const UniWait: nat := 900
  const RetryPause: nat := 5

  /** One attempt to fetch the web application's root page: whether it
      answered, and how many seconds the attempt took. */
  datatype Fetch = Fetch(ok: bool, seconds: nat)

  /** The end of `_check_uni`: the engine after its polls, whether the
      application answered, how many fetches were made and the seconds
      counted since the deadline was set. */
  datatype Uni = Uni(s: E.ES, up: bool, tries: nat, elapsed: nat)

  /** The loop of `_check_uni` from `elapsed` seconds and `tries` fetches
      on: poll Tomcat, stop if it has exited or the deadline has passed,
      otherwise fetch, and after a failure pause and go round again. */
  function CheckUniF(env: nat -> E.Answer, fetch: nat -> Fetch, s: E.ES, elapsed: nat, tries: nat): (r: Uni)
    requires RetryPause * tries <= elapsed && tries <= UniWait / RetryPause
    decreases UniWait - elapsed
  {
    var polled := E.PollF(env, s);
    if polled.tomcat.Some? || elapsed >= UniWait then Uni(polled, false, tries, elapsed)
    else if fetch(tries).ok then Uni(polled, true, tries + 1, elapsed)
    else CheckUniF(env, fetch, polled, elapsed + fetch(tries).seconds + RetryPause, tries + 1)
  }

  /** The loop ends well exactly by a fetch that succeeded while Tomcat ran
      and the deadline had not passed, and otherwise because Tomcat exited
      or the deadline passed; every earlier fetch failed and at most 180
      are made in all. */
  lemma {:induction false} CheckUniShape(env: nat -> E.Answer, fetch: nat -> Fetch, s: E.ES, elapsed: nat, tries: nat)
    requires RetryPause * tries <= elapsed && tries <= UniWait / RetryPause
    ensures var r := CheckUniF(env, fetch, s, elapsed, tries);
            (r.up ==> r.tries > tries && fetch(r.tries - 1).ok && r.s.tomcat.None? && r.elapsed < UniWait) &&
            (!r.up ==> r.s.tomcat.Some? || r.elapsed >= UniWait) &&
            (forall j :: tries <= j < r.tries - (if r.up then 1 else 0) ==> !fetch(j).ok) &&
            r.tries <= UniWait / RetryPause && r.tries >= tries && r.elapsed >= elapsed
    decreases UniWait - elapsed
  {
    var polled := E.PollF(env, s);
    if !(polled.tomcat.Some? || elapsed >= UniWait) && !fetch(tries).ok {
      CheckUniShape(env, fetch, polled, elapsed + fetch(tries).seconds + RetryPause, tries + 1);
    }
  }

  /** One poll precedes each fetch and one more ends a failed loop, and
      only the known return code of Tomcat changes. */
  lemma {:induction false} CheckUniPolls(env: nat -> E.Answer, fetch: nat -> Fetch, s: E.ES, elapsed: nat, tries: nat)
    requires RetryPause * tries <= elapsed && tries <= UniWait / RetryPause
    ensures var r := CheckUniF(env, fetch, s, elapsed, tries);
            r.tries >= tries &&
            |r.s.events| == |s.events| + (r.tries - tries) + (if r.up then 0 else 1) &&
            r.s.events[..|s.events|] == s.events && (forall j :: |s.events| <= j < |r.s.events| ==> r.s.events[j] == E.Poll) &&
            r.s.fs == s.fs && r.s.activeTask == s.activeTask && r.s.lastTask == s.lastTask && r.s.lastError == s.lastError
    decreases UniWait - elapsed
  {
    var polled := E.PollF(env, s);
    if !(polled.tomcat.Some? || elapsed >= UniWait) && !fetch(tries).ok {
      var next := elapsed + fetch(tries).seconds + RetryPause;
      CheckUniPolls(env, fetch, polled, next, tries + 1);
      var r := CheckUniF(env, fetch, polled, next, tries + 1);
      assert r.s.events[..|polled.events|] == polled.events;
      assert polled.events[..|s.events|] == s.events;
    }
  }

  function UniResponse(up: bool): Response {
    if up then Json(200, "OK", [("status", "ok"), ("details", "Uni is available")])
    else Json(400, "Uni is not available", [("status", "fail"), ("error", "Uni is not available")])
  }

  // ---------------------------------------------------------------------
  // ActionHandler.get

  /** The handler's answer together with the queue and the engine after it. */
  datatype Handled = Handled(queue: seq<E.Workflow>, s: E.ES, response: Response)

  function StatusOf(setup: E.Setup, env: nat -> E.Answer, s: E.ES): E.Status {
    E.Status(s.lastError, s.lastTask, s.activeTask, E.Conn(setup).addr, env(|s.events|).code)
  }

  /** `ActionHandler.get(action)`. A synchronous long action waits for the
      workflows queued before it and answers with its own outcome; an
      asynchronous one is queued behind them, wrapped in `log_exceptions`. */
  function GetF(setup: E.Setup, env: nat -> E.Answer, fetch: nat -> Fetch, action: string, sync: Option<string>,
                queue: seq<E.Workflow>, s: E.ES): Handled
  {
    match RouteOf(action)
    case CheckUni =>
      var u := CheckUniF(env, fetch, s, 0, 0);
      Handled(queue, u.s, UniResponse(u.up))
    case Long(w) =>
      if SyncRequested(sync) then
        var step := E.RunF(setup, env, w, DrainF(setup, env, queue, s));
        Handled([], step.s, if step.outcome.Pass? then Okay else ActionFailed(step.outcome.error))
      else Handled(queue + [w], s, Redirect("/"))
    case EngineStatus => Handled(queue, E.PollF(env, s), StatusReport(StatusOf(setup, env, s)))
    case NotFound => Handled(queue, s, NotFoundResponse)
  }

  /** A synchronous long action answers `ok` exactly when its workflow
      passed after the queue ran, and otherwise 400 with the error text;
      nothing is left queued. */
  lemma SyncAnswersOutcome(setup: E.Setup, env: nat -> E.Answer, fetch: nat -> Fetch, w: E.Workflow,
                           sync: Option<string>, queue: seq<E.Workflow>, s: E.ES)
    requires SyncRequested(sync)
    ensures var h := GetF(setup, env, fetch, ActionName(w), sync, queue, s);
            var step := E.RunF(setup, env, w, DrainF(setup, env, queue, s));
            h.queue == [] && h.s == step.s &&
            (h.response == Okay <==> step.outcome.Pass?) &&
            (step.outcome.Fail? ==> h.response == ActionFailed(step.outcome.error))
  {
    LongActionsAreWorkflows(ActionName(w), w);
  }

  /** Without `sync` a long action only queues its workflow and redirects
      to the main page; the engine is untouched until the worker runs it. */
  lemma AsyncQueues(setup: E.Setup, env: nat -> E.Answer, fetch: nat -> Fetch, w: E.Workflow,
                    sync: Option<string>, queue: seq<E.Workflow>, s: E.ES)
    requires !SyncRequested(sync)
    ensures GetF(setup, env, fetch, ActionName(w), sync, queue, s) == Handled(queue + [w], s, Redirect("/"))
  {
    LongActionsAreWorkflows(ActionName(w), w);
  }

  /** Either way the engine ends up running the same workflows in the same
      order: a synchronous request does now what the worker would do with
      the asynchronous one, except that the error is answered instead of
      remembered. */
  lemma SyncIsAsyncDrained(setup: E.Setup, env: nat -> E.Answer, fetch: nat -> Fetch, w: E.Workflow,
                           queue: seq<E.Workflow>, s: E.ES)
    ensures var sync := GetF(setup, env, fetch, ActionName(w), Some("1"), queue, s);
            var async := GetF(setup, env, fetch, ActionName(w), None, queue, s);
            var step := E.RunF(setup, env, w, DrainF(setup, env, queue, s));
            sync.s == step.s &&
            DrainF(setup, env, async.queue, async.s) ==
              step.s.(lastError := if step.outcome.Pass? then None else Some(step.outcome.error))
  {
    LongActionsAreWorkflows(ActionName(w), w);
    DrainAppend(setup, env, queue, [w], s);
    var before := DrainF(setup, env, queue, s);
    E.LoggedErrorIsOutcome(setup, env, w, before);
  }

  /** `check_uni` answers `ok` exactly when a fetch succeeded while Tomcat
      was still running and before the 900 seconds were up, and it makes at
      most 180 fetches; the engine it leaves is the one of the loop, about
      which `CheckUniPolls` says what changes. */
  lemma CheckUniAnswers(setup: E.Setup, env: nat -> E.Answer, fetch: nat -> Fetch, sync: Option<string>,
                        queue: seq<E.Workflow>, s: E.ES)
    ensures var h := GetF(setup, env, fetch, CheckUniAction, sync, queue, s);
            var u := CheckUniF(env, fetch, s, 0, 0);
            h.queue == queue && h.s == u.s && u.tries <= 180 &&
            (h.response.code == 200 <==> u.up) &&
            (u.up ==> u.tries > 0 && fetch(u.tries - 1).ok && u.s.tomcat.None? && u.elapsed < UniWait) &&
            (!u.up ==> (u.s.tomcat.Some? || u.elapsed >= UniWait) && forall j :: 0 <= j < u.tries ==> !fetch(j).ok)
  {
    CheckUniShape(env, fetch, s, 0, 0);
  }

  /** An action no route takes changes nothing and answers 404. */
  lemma UnknownActionNotFound(setup: E.Setup, env: nat -> E.Answer, fetch: nat -> Fetch, action: string,
                              sync: Option<string>, queue: seq<E.Workflow>, s: E.ES)
    requires action != CheckUniAction && action !in LongActions && action != EngineStatusAction
    ensures GetF(setup, env, fetch, action, sync, queue, s) == Handled(queue, s, NotFoundResponse)
  {
  }

  // ---------------------------------------------------------------------
  // the main page

  /** `value or fallback`. */
  function Or(value: Option<string>, fallback: string): string {
    if IsSet(value) then value.value else fallback
  }

  /** The keyword arguments of the main page's `format`. */
  function PageFields(setup: E.Setup, s: E.ES): map<string, string> {
    map["project" := setup.project,
        "branch" := Or(setup.version, "Нет"),
        "db_type" := DbTools.DbType(setup.variant),
        "db_addr" := E.Conn(setup).addr,
        "db_name" := E.Conn(setup).name,
        "db_port" := Or(E.Conn(setup).port, "Не задан"),
        "active_task" := Or(s.activeTask, "Нет"),
        "last_task" := Or(s.lastTask, "Неизвестно"),
        "last_error" := Or(s.lastError, "Нет")]
  }

  /** `MainPageHandler.get`: the page, or `str(e)` of what `format` raises. */
  function MainPage(template: string, setup: E.Setup, s: E.ES): Result<string, string> {
    Format(template, PageFields(setup, s))
  }

  /** The status fields of the page are never blank: a missing or empty
      value shows its fallback, a set one shows itself. */
  lemma PageNeverBlank(setup: E.Setup, s: E.ES)
    ensures var f := PageFields(setup, s);
            forall k :: k in {"branch", "db_port", "active_task", "last_task", "last_error"} ==> k in f && f[k] != ""
    ensures var f := PageFields(setup, s);
            (IsSet(setup.version) ==> f["branch"] == setup.version.value) &&
            (!IsSet(setup.version) ==> f["branch"] == "Нет")
    ensures var f := PageFields(setup, s);
            var port := E.Conn(setup).port;
            (IsSet(port) ==> f["db_port"] == port.value) && (!IsSet(port) ==> f["db_port"] == "Не задан")
    ensures var f := PageFields(setup, s);
            (IsSet(s.activeTask) ==> f["active_task"] == s.activeTask.value) &&
            (!IsSet(s.activeTask) ==> f["active_task"] == "Нет")
    ensures var f := PageFields(setup, s);
            (IsSet(s.lastTask) ==> f["last_task"] == s.lastTask.value) &&
            (!IsSet(s.lastTask) ==> f["last_task"] == "Неизвестно")
    ensures var f := PageFields(setup, s);
            (IsSet(s.lastError) ==> f["last_error"] == s.lastError.value) &&
            (!IsSet(s.lastError) ==> f["last_error"] == "Нет")
    ensures setup.variant == DbTools.Pgdocker && setup.pgdockerPort != "" ==>
              PageFields(setup, s)["db_port"] == setup.pgdockerPort
  {
  }

  /** A page template made of brace-free text and the nine fields renders
      with each field filled in. */
  lemma MainPageFills(setup: E.Setup, s: E.ES, ps: seq<Piece>)
    requires Plain(ps, PageFields(setup, s))
    ensures MainPage(Template(ps), setup, s) == Ok(Fill(ps, PageFields(setup, s)))
  {
    FormatOfTemplate(ps, PageFields(setup, s));
  }

  // ---------------------------------------------------------------------
  // the handler object

  /** The action handler with its class-wide executor: the queue of
      workflows submitted and not yet run, oldest first. */
  class Actions {
    const engine: E.Engine
    var queue: seq<E.Workflow>

    constructor (engine: E.Engine)
      ensures this.engine == engine && queue == []
    {
      this.engine := engine;
      queue := [];
    }

    /** The worker takes the oldest queued workflow and runs it. */
    method Work()
      modifies this, engine
      ensures old(queue) == [] ==> queue == [] && engine.State() == old(engine.State())
      ensures old(queue) != [] ==>
                queue == old(queue)[1..] &&
                engine.State() == E.LogExceptionsF(engine.setup, engine.env, old(queue)[0], old(engine.State())).s
    {
      if queue != [] {
        var w := queue[0];
        queue := queue[1..];
        engine.LogExceptions(w);
      }
    }

    /** The worker runs everything queued. */
    method Drain()
      modifies this, engine
      ensures queue == [] && engine.State() == DrainF(engine.setup, engine.env, old(queue), old(engine.State()))
    {
      while queue != []
        invariant DrainF(engine.setup, engine.env, queue, engine.State()) ==
                  DrainF(engine.setup, engine.env, old(queue), old(engine.State()))
        decreases |queue|
      {
        Work();
      }
    }

    method CheckUni(fetch: nat -> Fetch) returns (r: Response)
      modifies engine
      ensures var u := CheckUniF(engine.env, fetch, old(engine.State()), 0, 0);
              engine.State() == u.s && r == UniResponse(u.up)
    {
      var elapsed: nat := 0;
      var tries: nat := 0;
      while true
        invariant RetryPause * tries <= elapsed && tries <= UniWait / RetryPause
        invariant CheckUniF(engine.env, fetch, engine.State(), elapsed, tries) ==
                  CheckUniF(engine.env, fetch, old(engine.State()), 0, 0)
        decreases UniWait - elapsed
      {
        ghost var before := engine.State();
        var code := engine.PollTomcat();
        if code.Some? || elapsed >= UniWait {
          assert CheckUniF(engine.env, fetch, before, elapsed, tries) == Uni(engine.State(), false, tries, elapsed);
          break;
        }
        var attempt := fetch(tries);
        tries := tries + 1;
        if attempt.ok {
          assert CheckUniF(engine.env, fetch, before, elapsed, tries - 1) == Uni(engine.State(), true, tries, elapsed);
          return UniResponse(true);
        }
        // the pause of `gen.sleep(5)`
        elapsed := elapsed + attempt.seconds + RetryPause;
      }
      r := UniResponse(false);
    }

    /** `ActionHandler.get(action)` with the `sync` argument. */
    method Get(action: string, sync: Option<string>, fetch: nat -> Fetch) returns (r: Response)
      modifies this, engine
      ensures Handled(queue, engine.State(), r) ==
              GetF(engine.setup, engine.env, fetch, action, sync, old(queue), old(engine.State()))
    {
      if action == CheckUniAction {
        r := CheckUni(fetch);
        return;
      }
      var named := WorkflowNamed(action);
      if named.Some? {
        var w := named.value;
        if SyncRequested(sync) {
          Drain();
          var o := engine.Run(w);
          r := if o.Pass? then Okay else ActionFailed(o.error);
          return;
        }
        queue := queue + [w];
        // a pause of half a second lets the task start
        r := Redirect("/");
        return;
      }
      if action == EngineStatusAction {
        var st := engine.EngineStatus();
        r := StatusReport(st);
        return;
      }
      r := NotFoundResponse;
    }
  }
}
