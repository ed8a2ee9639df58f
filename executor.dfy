/**
  * The tool executor: two policy gates, then dispatch of a `(tool, action)`
  * pair to the capability that serves it, with every exception turned into
  * an `ok = false` result and every dispatched call written to the audit
  * log; and the replay of due scheduled jobs through the same path.
  *
  * The state the capabilities keep is collected in a `World`; what a call
  * does to it is specified by the functions below, and the `ToolExecutor`
  * methods, which drive the capability objects, are proved to follow them.
  */
module Executor {
  import opened Wrappers
  import opened Text
  import opened Values
  import opened Security
  import opened ToolResults
  import opened Scheduler
  import opened FileSystem
  import opened CodeRunner
  import opened EmailQueue
  import opened Audit

  /**
    * What the executor takes from outside: the clock's reading (one instant
    * per call), `shlex.split`, the process launcher, and the answer of the
    * system-control and browser wrappers for `(tool, action, argument)`.
    */
  datatype Env = Env(now: string, split: Splitter, launch: Launcher, external: (string, string, string) -> ToolResult)

  /** The disk, the e-mail queue file, the job table and its id counter, and the audit log. */
  datatype World = World(tree: Tree, queue: QueueFile, rows: seq<Job>, lastId: nat, log: seq<AuditRecord>)

  /** A call's answer and the state it leaves. */
  datatype Called = Called(result: ToolResult, world: World)

  /** An answer or an exception, and the state left behind. */
  datatype Attempt = Attempt(result: Result<ToolResult>, world: World)

  const DeletionNeedsConfirm: string := "Deletion requires confirm=true."
  const ElevatedNeedsConfirm: string := "Risk level elevated. Confirmation required."
  const UnhandledPrefix: string := "Unhandled tool failure: "
  const RecursionMessage: string := "maximum recursion depth exceeded"
  const ExecutedEvent: string := "tool.executed"
  const DefaultMaxChars: int := 20000
  const DefaultTimeout: int := 30

  /** `str(params.get(key, default))`. */
  function StrParam(params: Entries, key: string, default: string): string
  {
    PyStr(Get(params, key, Str(default)))
  }

  /** The answer of a call that the policy gates stop, if they stop it. */
  function Gate(tool: string, action: string, params: Entries, confirm: bool): Option<ToolResult>
  {
    if tool == "filesystem" && action == "delete" && !confirm then
      Some(ToolResult(false, Some(DeletionNeedsConfirm), Elevated))
    else if tool == "code" && action == "run" && IsDestructiveCommand(StrParam(params, "command", "")) && !confirm then
      Some(ToolResult(false, Some(ElevatedNeedsConfirm), Elevated))
    else None
  }

  /** The `except` clauses of `execute`: a `PermissionError` keeps its text, anything else is prefixed. */
  function Capture(r: Result<ToolResult>): ToolResult
  {
    match r
    case Ok(t) => t
    case Err(f) => if f.kind == PermissionError then Fail(f.message) else Fail(UnhandledPrefix + f.message)
  }

  /** The payload of the `tool.executed` audit event. */
  function ExecutedPayload(sessionId: string, tool: string, action: string, params: Entries, ok: bool): seq<(string, Value)>
  {
    [("session_id", Str(sessionId)), ("tool", Str(tool)), ("action", Str(action)), ("params", Dict(params)), ("ok", Bool(ok))]
  }

  predicate IsExternal(tool: string, action: string)
  {
    (tool == "system" && (action == "open_app" || action == "run_shortcut"))
    || (tool == "browser" && (action == "open_url" || action == "search_web"))
  }

  /** The parameter an external action passes on. */
  function ExternalKey(action: string): string
  {
    if action == "open_app" then "app_name"
    else if action == "run_shortcut" then "shortcut_name"
    else if action == "open_url" then "url"
    else "query"
  }

  predicate IsFilesystemAction(action: string)
  {
    action == "list" || action == "read" || action == "write" || action == "append" || action == "mkdir" || action == "delete"
  }

  predicate IsEmailAction(action: string)
  {
    action == "queue" || action == "list"
  }

  predicate IsSchedulerAction(action: string)
  {
    action == "create" || action == "list"
  }

  /** The pairs `_execute_inner` serves itself (`scheduler`/`run_due` is served by the replay). */
  predicate Served(tool: string, action: string)
  {
    IsExternal(tool, action) || (tool == "filesystem" && IsFilesystemAction(action))
    || (tool == "code" && action == "run") || (tool == "email" && IsEmailAction(action))
    || (tool == "scheduler" && IsSchedulerAction(action))
  }

  /** `catalog`: the actions offered for each tool. */
  const Catalog: seq<(string, seq<string>)> := [
    ("system", ["open_app", "run_shortcut"]),
    ("filesystem", ["list", "read", "write", "append", "mkdir", "delete"]),
    ("browser", ["open_url", "search_web"]),
    ("code", ["run"]),
    ("email", ["queue", "list"]),
    ("scheduler", ["create", "list", "run_due"])
  ]

  /** Whether the catalog offers `action` for `tool`. */
  predicate Listed(tool: string, action: string)
  {
    exists i :: 0 <= i < |Catalog| && Catalog[i].0 == tool && action in Catalog[i].1
  }

  /** The filesystem branch of `_execute_inner`. */
  ghost function FilesystemCall(w: World, root: Path, action: string, params: Entries, confirm: bool): Attempt
    requires IsFilesystemAction(action)
  {
    if action == "list" then Attempt(ListOutcome(w.tree, root, StrParam(params, "path", ".")), w)
    else
      var path := StrParam(params, "path", "");
      if action == "read" then
        match ToInt(Get(params, "max_chars", Int(DefaultMaxChars)))
        case Err(e) => Attempt(Err(e), w)
        case Ok(n) => Attempt(ReadOutcome(w.tree, root, path, n), w)
      else if action == "write" || action == "append" then
        var e := WriteOutcome(w.tree, root, path, StrParam(params, "content", ""), action == "append");
        Attempt(e.result, w.(tree := e.tree))
      else if action == "mkdir" then
        var e := MkdirOutcome(w.tree, root, path);
        Attempt(e.result, w.(tree := e.tree))
      else if !confirm then Attempt(Ok(Fail(DeletionNeedsConfirm)), w)
      else
        var e := DeleteOutcome(w.tree, root, path);
        Attempt(e.result, w.(tree := e.tree))
  }

  /** The code branch: `run(str(command), int(timeout_sec))`. */
  function CodeCall(w: World, env: Env, params: Entries): Attempt
  {
    var command := StrParam(params, "command", "");
    match ToInt(Get(params, "timeout_sec", Int(DefaultTimeout)))
    case Err(e) => Attempt(Err(e), w)
    case Ok(t) => Attempt(Run(command, t, env.split, env.launch), w)
  }

  /** The e-mail branch. */
  function EmailCall(w: World, env: Env, action: string, params: Entries): Attempt
    requires IsEmailAction(action)
  {
    if action == "queue" then
      var e := QueueOutcome(w.queue, StrParam(params, "to", ""), StrParam(params, "subject", ""), StrParam(params, "body", ""), env.now);
      Attempt(Ok(e.result), w.(queue := e.file))
    else Attempt(Ok(Success(QueueItems(LoadOf(w.queue)))), w)
  }

  /** The payload `scheduler`/`create` stores. */
  function JobPayload(tool: string, action: string, params: Entries, confirm: bool): Value
  {
    Dict([(Str("tool"), Str(tool)), (Str("action"), Str(action)), (Str("params"), Dict(params)), (Str("confirm"), Bool(confirm))])
  }

  /** `run_at`, or the current time when it is blank. */
  function RunAt(params: Entries, now: string): string
  {
    var runAt := Strip(StrParam(params, "run_at", ""));
    if runAt == [] then now else runAt
  }

  /** `str(status) if status else None`. */
  function StatusFilter(params: Entries): Option<string>
  {
    var status := Get(params, "status", Null);
    if Truthy(status) then Some(PyStr(status)) else None
  }

  /** The scheduler branch, apart from `run_due`. */
  function SchedulerCall(w: World, env: Env, sessionId: string, action: string, params: Entries): Attempt
    requires IsSchedulerAction(action)
  {
    if action == "create" then
      var runAt := RunAt(params, env.now);
      match ToDict(Get(params, "params", Dict([])))
      case Err(e) => Attempt(Err(e), w)
      case Ok(inner) =>
        var payload := JobPayload(StrParam(params, "tool", ""), StrParam(params, "action", ""), inner, Truthy(Get(params, "confirm", Bool(false))));
        var id := w.lastId + 1;
        var job := Job(id, sessionId, runAt, JsonRoundTrip(payload), Pending, env.now, env.now);
        Attempt(Ok(Success(JobCreated(id))), w.(rows := w.rows + [job], lastId := id))
    else Attempt(Ok(Success(JobList(ListedJobs(w.rows, StatusFilter(params))))), w)
  }

  function UnsupportedMessage(tool: string, action: string): string
  {
    "Unsupported tool/action: " + tool + "/" + action
  }

  /** `_execute_inner`; `scheduler`/`run_due` replays the due jobs. */
  ghost function InnerOutcome(w: World, root: Path, env: Env, fuel: nat, sessionId: string, tool: string, action: string,
                              params: Entries, confirm: bool): Attempt
    decreases fuel, 2
  {
    if IsExternal(tool, action) then Attempt(Ok(env.external(tool, action, StrParam(params, ExternalKey(action), ""))), w)
    else if tool == "filesystem" && IsFilesystemAction(action) then FilesystemCall(w, root, action, params, confirm)
    else if tool == "code" && action == "run" then CodeCall(w, env, params)
    else if tool == "email" && IsEmailAction(action) then EmailCall(w, env, action, params)
    else if tool == "scheduler" && IsSchedulerAction(action) then SchedulerCall(w, env, sessionId, action, params)
    else if tool == "scheduler" && action == "run_due" then RunDueOutcome(w, root, env, fuel)
    else Attempt(Ok(Fail(UnsupportedMessage(tool, action))), w)
  }

  /** The arguments `run_due_jobs` reads from a job's payload. */
  datatype Call = Call(tool: string, action: string, params: Entries, confirm: bool)

  /** `payload.get(...)` for each argument; `dict(...)` of the stored params may raise. */
  function JobCall(payload: Value): Result<Call>
  {
    if !payload.Dict? then Err(Failure(AttributeError, "'" + TypeName(payload) + "' object has no attribute 'get'"))
    else
      var d := payload.entries;
      match ToDict(Get(d, "params", Dict([])))
      case Err(e) => Err(e)
      case Ok(p) => Ok(Call(PyStr(Get(d, "tool", Str(""))), PyStr(Get(d, "action", Str(""))), p, Truthy(Get(d, "confirm", Bool(false)))))
  }

  const Done: string := "done"
  const Failed: string := "failed"

  /**
    * `execute`. `fuel` bounds how deeply the replay of due jobs may nest
    * (a due job may itself ask for `run_due`); when it is exhausted the
    * replay raises as Python does when it runs out of stack.
    */
  ghost function ExecuteOutcome(w: World, root: Path, env: Env, fuel: nat, sessionId: string, tool: string, action: string,
                                params: Entries, confirm: bool): Called
    decreases fuel, 3
  {
    match Gate(tool, action, params, confirm)
    case Some(g) => Called(g, w)
    case None =>
      var inner := InnerOutcome(w, root, env, fuel, sessionId, tool, action, params, confirm);
      var r := Capture(inner.result);
      var w2 := inner.world;
      Called(r, w2.(log := w2.log + [RecordOf(env.now, ExecutedEvent, ExecutedPayload(sessionId, tool, action, params, r.ok))]))
  }

  /** `run_due_jobs`. */
  ghost function RunDueOutcome(w: World, root: Path, env: Env, fuel: nat): Attempt
    decreases fuel, 1
  {
    if fuel == 0 then Attempt(Err(Failure(RecursionError, RecursionMessage)), w)
    else RunDueFrom(w, root, env, fuel, DueOf(w.rows, env.now), 0, [], [])
  }

  /** The outcome `o` of a job's call, with the job marked `done` or `failed` by the result's `ok`. */
  function Marked(o: Called, job: Job, now: string): Called
  {
    Called(o.result, o.world.(rows := MarkRows(o.world.rows, job.id, if o.result.ok then Done else Failed, now)))
  }

  /**
    * One turn of the loop of `run_due_jobs`: the job's call is read from its
    * payload and executed, and the job is marked; or reading the payload raises.
    */
  ghost function JobStep(w: World, root: Path, env: Env, fuel: nat, job: Job): Result<Called>
    requires fuel > 0
    decreases fuel, 0, 0
  {
    match JobCall(job.payload)
    case Err(e) => Err(e)
    case Ok(c) => Ok(Marked(ExecuteOutcome(w, root, env, fuel - 1, job.sessionId, c.tool, c.action, c.params, c.confirm), job, env.now))
  }

  /** The loop of `run_due_jobs` from the `i`-th due job on. */
  ghost function RunDueFrom(w: World, root: Path, env: Env, fuel: nat, jobs: seq<Job>, i: nat,
                            ran: seq<JobOutcome>, failed: seq<JobOutcome>): Attempt
    requires fuel > 0 && i <= |jobs|
    decreases fuel, 0, |jobs| - i
  {
    if i == |jobs| then Attempt(Ok(Success(DueRun(|jobs|, ran, failed))), w)
    else
      match JobStep(w, root, env, fuel, jobs[i])
      case Err(e) => Attempt(Err(e), w)
      case Ok(c) =>
        var outcome := JobOutcome(jobs[i].id, c.result);
        if c.result.ok then RunDueFrom(c.world, root, env, fuel, jobs, i + 1, ran + [outcome], failed)
        else RunDueFrom(c.world, root, env, fuel, jobs, i + 1, ran, failed + [outcome])
  }

  class ToolExecutor {
    const files: FileSystemModule
    const email: EmailModule
    const scheduler: SchedulerStore
    const audit: AuditLog

    predicate Valid()
      reads this, files, email, scheduler
    {
      files.Valid() && email.Valid() && scheduler.Valid()
    }

    /** The capabilities' state as one value. */
    function State(): World
      reads this, files, email, scheduler, audit
    {
      World(files.tree, email.file, scheduler.rows, scheduler.lastId, audit.records)
    }

    constructor(files: FileSystemModule, email: EmailModule, scheduler: SchedulerStore, audit: AuditLog)
      requires files.Valid() && email.Valid() && scheduler.Valid()
      ensures this.files == files && this.email == email && this.scheduler == scheduler && this.audit == audit
      ensures Valid()
    {
      this.files := files;
      this.email := email;
      this.scheduler := scheduler;
      this.audit := audit;
    }

    /** `execute`. */
    method Execute(env: Env, fuel: nat, sessionId: string, tool: string, action: string, params: Entries, confirm: bool)
      returns (r: ToolResult)
      requires Valid()
      modifies files, email, scheduler, audit
      ensures Valid()
      ensures Called(r, State()) == ExecuteOutcome(old(State()), files.root, env, fuel, sessionId, tool, action, params, confirm)
      decreases fuel, 3
    {
      var gate := Gate(tool, action, params, confirm);
      if gate.Some? {
        return gate.value;
      }
      var inner := ExecuteInner(env, fuel, sessionId, tool, action, params, confirm);
      r := Capture(inner);
      audit.Write(ExecutedEvent, ExecutedPayload(sessionId, tool, action, params, r.ok), env.now);
    }

    /** `run_due_jobs`. */
    method RunDueJobs(env: Env, fuel: nat) returns (r: Result<ToolResult>)
      requires Valid()
      modifies files, email, scheduler, audit
      ensures Valid()
      ensures Attempt(r, State()) == RunDueOutcome(old(State()), files.root, env, fuel)
      decreases fuel, 1
    {
      if fuel == 0 {
        return Err(Failure(RecursionError, RecursionMessage));
      }
      var jobs := scheduler.DueJobs(env.now);
      var ran: seq<JobOutcome> := [];
      var failed: seq<JobOutcome> := [];
      var i := 0;
      while i < |jobs|
        invariant Valid()
        invariant i <= |jobs|
        invariant RunDueFrom(State(), files.root, env, fuel, jobs, i, ran, failed) == RunDueOutcome(old(State()), files.root, env, fuel)
      {
        var job := jobs[i];
        var call := JobCall(job.payload);
        if call.Err? {
          return Err(call.error);
        }
        ghost var w := State();
        var result := RunJob(env, fuel, job, call.value);
        assert JobStep(w, files.root, env, fuel, job) == Ok(Called(result, State()));
        if result.ok {
          ran := ran + [JobOutcome(job.id, result)];
        } else {
          failed := failed + [JobOutcome(job.id, result)];
        }
        i := i + 1;
      }
      r := Ok(Success(DueRun(|jobs|, ran, failed)));
    }

    /** Runs the call read from a due job's payload and marks the job by the result. */
    method RunJob(env: Env, fuel: nat, job: Job, c: Call) returns (result: ToolResult)
      requires Valid() && fuel > 0
      modifies files, email, scheduler, audit
      ensures Valid()
      ensures Called(result, State())
        == Marked(ExecuteOutcome(old(State()), files.root, env, fuel - 1, job.sessionId, c.tool, c.action, c.params, c.confirm), job, env.now)
      decreases fuel, 0
    {
      result := Execute(env, fuel - 1, job.sessionId, c.tool, c.action, c.params, c.confirm);
      var status := if result.ok then Done else Failed;
      scheduler.MarkJob(job.id, status, env.now);
    }

    /** `_execute_inner`, for every pair but `scheduler`/`run_due`. */
    method ExecuteInner(env: Env, fuel: nat, sessionId: string, tool: string, action: string, params: Entries, confirm: bool)
      returns (r: Result<ToolResult>)
      requires Valid()
      modifies files, email, scheduler, audit
      ensures Valid()
      ensures Attempt(r, State()) == InnerOutcome(old(State()), files.root, env, fuel, sessionId, tool, action, params, confirm)
      decreases fuel, 2
    {
      if IsExternal(tool, action) {
        r := Ok(env.external(tool, action, StrParam(params, ExternalKey(action), "")));
      } else if tool == "filesystem" && IsFilesystemAction(action) {
        r := FilesystemAction(action, params, confirm);
      } else if tool == "code" && action == "run" {
        r := CodeCall(State(), env, params).result;
      } else if tool == "email" && IsEmailAction(action) {
        r := EmailAction(env, action, params);
      } else if tool == "scheduler" && IsSchedulerAction(action) {
        r := SchedulerAction(env, sessionId, action, params);
      } else if tool == "scheduler" && action == "run_due" {
        r := RunDueJobs(env, fuel);
      } else {
        r := Ok(Fail(UnsupportedMessage(tool, action)));
      }
    }

    /** The filesystem branch of `_execute_inner`. */
    method FilesystemAction(action: string, params: Entries, confirm: bool) returns (r: Result<ToolResult>)
      requires Valid() && IsFilesystemAction(action)
      modifies files
      ensures Valid()
      ensures Attempt(r, State()) == FilesystemCall(old(State()), files.root, action, params, confirm)
    {
      if action == "list" {
        r := files.ListDir(StrParam(params, "path", "."));
        return;
      }
      var path := StrParam(params, "path", "");
      if action == "read" {
        var n := ToInt(Get(params, "max_chars", Int(DefaultMaxChars)));
        if n.Err? {
          return Err(n.error);
        }
        r := files.ReadFile(path, n.value);
      } else if action == "write" || action == "append" {
        r := files.WriteFile(path, StrParam(params, "content", ""), action == "append");
      } else if action == "mkdir" {
        r := files.Mkdir(path);
      } else if !confirm {
        r := Ok(Fail(DeletionNeedsConfirm));
      } else {
        r := files.DeletePath(path);
      }
    }

    /** The e-mail branch of `_execute_inner`. */
    method EmailAction(env: Env, action: string, params: Entries) returns (r: Result<ToolResult>)
      requires Valid() && IsEmailAction(action)
      modifies email
      ensures Valid()
      ensures Attempt(r, State()) == EmailCall(old(State()), env, action, params)
    {
      if action == "queue" {
        var t := email.QueueEmail(StrParam(params, "to", ""), StrParam(params, "subject", ""), StrParam(params, "body", ""), env.now);
        r := Ok(t);
      } else {
        r := Ok(email.ListQueue());
      }
    }

    /** The scheduler branch of `_execute_inner`, apart from `run_due`. */
    method SchedulerAction(env: Env, sessionId: string, action: string, params: Entries) returns (r: Result<ToolResult>)
      requires Valid() && IsSchedulerAction(action)
      modifies scheduler
      ensures Valid()
      ensures Attempt(r, State()) == SchedulerCall(old(State()), env, sessionId, action, params)
    {
      if action == "create" {
        var runAt := RunAt(params, env.now);
        var inner := ToDict(Get(params, "params", Dict([])));
        if inner.Err? {
          return Err(inner.error);
        }
        var payload := JobPayload(StrParam(params, "tool", ""), StrParam(params, "action", ""), inner.value,
                                  Truthy(Get(params, "confirm", Bool(false))));
        var id := scheduler.AddJob(sessionId, runAt, payload, env.now);
        r := Ok(Success(JobCreated(id)));
      } else {
        r := Ok(Success(JobList(scheduler.ListJobs(StatusFilter(params)))));
      }
    }
  }
}
