/**
  * What the executor promises about every call: the policy gates stop
  * unconfirmed deletes and destructive commands before anything happens,
  * every other call is answered (exceptions become `ok = false` results)
  * and leaves exactly one audit record, and the replay of due jobs sorts
  * each job into `ran` or `failed` by its result.
  */
module ExecutorProperties {
  import opened Wrappers
  import opened Text
  import opened Values
  import opened Security
  import opened ToolResults
  import opened Scheduler
  import opened FileSystem
  import opened Audit
  import opened CodeRunner
  import opened Executor

  /** An unconfirmed delete is refused as elevated, and neither the disk nor the audit log changes. */
  lemma DeleteNeedsConfirm(w: World, root: Path, env: Env, fuel: nat, sessionId: string, params: Entries)
    ensures ExecuteOutcome(w, root, env, fuel, sessionId, "filesystem", "delete", params, false)
      == Called(ToolResult(false, Some(DeletionNeedsConfirm), Elevated), w)
  {
  }

  /** An unconfirmed destructive command is refused as elevated before it is screened, and nothing changes. */
  lemma DestructiveNeedsConfirm(w: World, root: Path, env: Env, fuel: nat, sessionId: string, params: Entries)
    requires IsDestructiveCommand(StrParam(params, "command", ""))
    ensures ExecuteOutcome(w, root, env, fuel, sessionId, "code", "run", params, false)
      == Called(ToolResult(false, Some(ElevatedNeedsConfirm), Elevated), w)
  {
  }

  /** The gates stop a call only when it is unconfirmed, and then only a delete or a destructive command. */
  lemma GateOnlyUnconfirmed(tool: string, action: string, params: Entries, confirm: bool)
    ensures Gate(tool, action, params, confirm).Some? <==>
      !confirm && ((tool == "filesystem" && action == "delete")
                   || (tool == "code" && action == "run" && IsDestructiveCommand(StrParam(params, "command", ""))))
  {
  }

  /** Only the replay of due jobs writes to the audit log on its own account. */
  lemma InnerKeepsLog(w: World, root: Path, env: Env, fuel: nat, sessionId: string, tool: string, action: string,
                      params: Entries, confirm: bool)
    requires !(tool == "scheduler" && action == "run_due")
    ensures InnerOutcome(w, root, env, fuel, sessionId, tool, action, params, confirm).world.log == w.log
  {
  }

  /**
    * A call the gates let through is answered whatever happens inside, an
    * exception becoming an `ok = false` result, and leaves the `tool.executed`
    * record with the answer's `ok` as the last entry of the audit log; apart
    * from the replay of due jobs it is the only entry added.
    */
  lemma DispatchedCallAudited(w: World, root: Path, env: Env, fuel: nat, sessionId: string, tool: string, action: string,
                              params: Entries, confirm: bool)
    requires Gate(tool, action, params, confirm).None?
    ensures var o := ExecuteOutcome(w, root, env, fuel, sessionId, tool, action, params, confirm);
      var inner := InnerOutcome(w, root, env, fuel, sessionId, tool, action, params, confirm);
      (inner.result.Ok? ==> o.result == inner.result.value)
      && (inner.result.Err? ==> !o.result.ok && o.result.body == Plain)
      && |o.world.log| > 0
      && o.world.log[|o.world.log| - 1] == RecordOf(env.now, ExecutedEvent, ExecutedPayload(sessionId, tool, action, params, o.result.ok))
      && (!(tool == "scheduler" && action == "run_due") ==>
            o.world == inner.world.(log := w.log + [o.world.log[|o.world.log| - 1]]))
  {
    if !(tool == "scheduler" && action == "run_due") {
      InnerKeepsLog(w, root, env, fuel, sessionId, tool, action, params, confirm);
    }
  }

  /** The `ok` entry of the `tool.executed` record reads `True` exactly when the answer was ok: redaction leaves it alone. */
  lemma AuditedOk(now: string, sessionId: string, tool: string, action: string, params: Entries, ok: bool)
    ensures var rec := RecordOf(now, ExecutedEvent, ExecutedPayload(sessionId, tool, action, params, ok));
      |rec.payload| == 5 && rec.payload[4] == ("ok", if ok then "True" else "False")
  {
    assert |PyStr(Bool(ok))| < 13;
  }

  /** The catalog offers exactly the pairs `_execute_inner` serves, `scheduler`/`run_due` included. */
  lemma CatalogMatchesDispatch(tool: string, action: string)
    ensures Listed(tool, action) <==> Served(tool, action) || (tool == "scheduler" && action == "run_due")
  {
    if Served(tool, action) || (tool == "scheduler" && action == "run_due") {
      var i :=
        if tool == "system" then 0 else if tool == "filesystem" then 1 else if tool == "browser" then 2
        else if tool == "code" then 3 else if tool == "email" then 4 else 5;
      assert Catalog[i].0 == tool && action in Catalog[i].1;
    }
  }

  /** A pair nobody serves is answered as unsupported, after passing the gates, with only the audit record added. */
  lemma UnsupportedAnswered(w: World, root: Path, env: Env, fuel: nat, sessionId: string, tool: string, action: string,
                            params: Entries, confirm: bool)
    requires !Listed(tool, action)
    ensures var o := ExecuteOutcome(w, root, env, fuel, sessionId, tool, action, params, confirm);
      o.result == Fail("Unsupported tool/action: " + tool + "/" + action)
      && o.world == w.(log := w.log + [RecordOf(env.now, ExecutedEvent, ExecutedPayload(sessionId, tool, action, params, false))])
  {
    CatalogMatchesDispatch(tool, action);
  }

  /**
    * A filesystem path that resolves outside the workspace root is refused
    * with the `PermissionError`'s own text, whatever the action; only the
    * audit record is added.
    */
  lemma EscapingPathRefused(w: World, root: Path, env: Env, fuel: nat, sessionId: string, action: string,
                            params: Entries, confirm: bool)
    requires IsFilesystemAction(action)
    requires Resolve(root, StrParam(params, "path", if action == "list" then "." else "")).Err?
    requires action == "read" ==> ToInt(Get(params, "max_chars", Int(DefaultMaxChars))).Ok?
    requires action == "delete" ==> confirm
    ensures var o := ExecuteOutcome(w, root, env, fuel, sessionId, "filesystem", action, params, confirm);
      o.result == Fail(EscapeMessage)
      && o.world == w.(log := w.log + [RecordOf(env.now, ExecutedEvent, ExecutedPayload(sessionId, "filesystem", action, params, false))])
  {
    FilesystemEscapeFails(w, root, action, params, confirm);
    assert Gate("filesystem", action, params, confirm).None?;
    assert InnerOutcome(w, root, env, fuel, sessionId, "filesystem", action, params, confirm)
      == Attempt(Err(Failure(PermissionError, EscapeMessage)), w);
  }

  /** The filesystem branch raises the `PermissionError` of an escaping path and changes nothing. */
  lemma FilesystemEscapeFails(w: World, root: Path, action: string, params: Entries, confirm: bool)
    requires IsFilesystemAction(action)
    requires Resolve(root, StrParam(params, "path", if action == "list" then "." else "")).Err?
    requires action == "read" ==> ToInt(Get(params, "max_chars", Int(DefaultMaxChars))).Ok?
    requires action == "delete" ==> confirm
    ensures FilesystemCall(w, root, action, params, confirm) == Attempt(Err(Failure(PermissionError, EscapeMessage)), w)
  {
  }

  /**
    * A job created with a blank `run_at` is due at once: it gets the next
    * id, is stored pending at the current time, and its payload is the
    * call read from the parameters (whose `confirm` is the parameter's,
    * not the creating call's own).
    */
  lemma CreateStoresJob(w: World, root: Path, env: Env, fuel: nat, sessionId: string, params: Entries, confirm: bool)
    requires ToDict(Get(params, "params", Dict([]))).Ok?
    ensures var o := ExecuteOutcome(w, root, env, fuel, sessionId, "scheduler", "create", params, confirm);
      var id := w.lastId + 1;
      var inner := ToDict(Get(params, "params", Dict([]))).value;
      var payload := JobPayload(StrParam(params, "tool", ""), StrParam(params, "action", ""), inner,
                                Truthy(Get(params, "confirm", Bool(false))));
      o.result == Success(JobCreated(id))
      && o.world.lastId == id && |o.world.rows| == |w.rows| + 1 && o.world.rows[..|w.rows|] == w.rows
      && o.world.rows[|w.rows|] == Job(id, sessionId, RunAt(params, env.now), JsonRoundTrip(payload), Pending, env.now, env.now)
      && (Strip(StrParam(params, "run_at", "")) == [] ==> IsDue(o.world.rows[|w.rows|], env.now))
      && o.world.tree == w.tree && o.world.queue == w.queue
  {
    var a := SchedulerCall(w, env, sessionId, "create", params);
    CreateAppends(w, env, sessionId, params, ToDict(Get(params, "params", Dict([]))).value);
    LexLeReflexive(env.now);
    assert InnerOutcome(w, root, env, fuel, sessionId, "scheduler", "create", params, confirm) == a;
  }

  /** `scheduler`/`create` appends one job with the next id and answers with that id. */
  lemma CreateAppends(w: World, env: Env, sessionId: string, params: Entries, inner: Entries)
    requires ToDict(Get(params, "params", Dict([]))) == Ok(inner)
    ensures SchedulerCall(w, env, sessionId, "create", params).result == Ok(Success(JobCreated(w.lastId + 1)))
    ensures var payload := JobPayload(StrParam(params, "tool", ""), StrParam(params, "action", ""), inner,
                                      Truthy(Get(params, "confirm", Bool(false))));
      SchedulerCall(w, env, sessionId, "create", params).world.rows
      == w.rows + [Job(w.lastId + 1, sessionId, RunAt(params, env.now), JsonRoundTrip(payload), Pending, env.now, env.now)]
    ensures var a := SchedulerCall(w, env, sessionId, "create", params).world;
      a.lastId == w.lastId + 1 && a.tree == w.tree && a.queue == w.queue && a.log == w.log
  {
  }

  /** The payload `scheduler`/`create` stores is JSON-shaped when its parameters are. */
  lemma PayloadShaped(tool: string, action: string, params: Entries, confirm: bool)
    requires JsonShaped(Dict(params))
    ensures JsonShaped(JobPayload(tool, action, params, confirm))
  {
    var payload := JobPayload(tool, action, params, confirm);
    var e := payload.entries;
    assert JsonShapedEntries(payload, e[3..]) by {
      assert JsonShapedEntries(payload, e[4..]);
    }
    assert JsonShapedEntries(payload, e[2..]);
    assert JsonShapedEntries(payload, e[1..]);
  }

  /** A stored payload whose parameters JSON can hold is read back as the very call that was stored. */
  lemma StoredCallReplayed(tool: string, action: string, params: Entries, confirm: bool)
    requires JsonShaped(Dict(params))
    ensures JobCall(JsonRoundTrip(JobPayload(tool, action, params, confirm))) == Ok(Call(tool, action, params, confirm))
  {
    var payload := JobPayload(tool, action, params, confirm);
    PayloadShaped(tool, action, params, confirm);
    JsonRoundTripShaped(payload);
    PayloadFields(tool, action, params, confirm);
  }

  /** The stored payload's four keys give back the four arguments. */
  lemma PayloadFields(tool: string, action: string, params: Entries, confirm: bool)
    ensures var e := JobPayload(tool, action, params, confirm).entries;
      Get(e, "tool", Str("")) == Str(tool) && Get(e, "action", Str("")) == Str(action)
      && Get(e, "params", Dict([])) == Dict(params) && Get(e, "confirm", Bool(false)) == Bool(confirm)
  {
    var e := JobPayload(tool, action, params, confirm).entries;
    // The four keys differ in their first or their last letter.
    var e1, e2, e3 := e[1..], e[2..], e[3..];
    assert e1[1..] == e2 && e2[1..] == e3;
    assert Get(e, "action", Str("")) == Get(e1, "action", Str("")) by {
      assert e[0].0.s[0] != "action"[0];
    }
    assert Get(e1, "params", Dict([])) == Get(e2, "params", Dict([])) by {
      assert e1[0].0.s[0] != "params"[0];
    }
    assert Get(e, "params", Dict([])) == Get(e1, "params", Dict([])) by {
      assert e[0].0.s[0] != "params"[0];
    }
    assert Get(e2, "confirm", Bool(false)) == Get(e3, "confirm", Bool(false)) by {
      assert e2[0].0.s[0] != "confirm"[0];
    }
    assert Get(e1, "confirm", Bool(false)) == Get(e2, "confirm", Bool(false)) by {
      assert e1[0].0.s[0] != "confirm"[0];
    }
    assert Get(e, "confirm", Bool(false)) == Get(e1, "confirm", Bool(false)) by {
      assert e[0].0.s[0] != "confirm"[0];
    }
  }

  /** The outcomes with an `ok` result, in their order. */
  function OkOutcomes(os: seq<JobOutcome>): (r: seq<JobOutcome>)
    ensures |r| <= |os|
  {
    if os == [] then []
    else OkOutcomes(os[..|os| - 1]) + (if os[|os| - 1].result.ok then [os[|os| - 1]] else [])
  }

  /** The outcomes without an `ok` result, in their order. */
  function FailedOutcomes(os: seq<JobOutcome>): (r: seq<JobOutcome>)
    ensures |r| <= |os|
  {
    if os == [] then []
    else FailedOutcomes(os[..|os| - 1]) + (if !os[|os| - 1].result.ok then [os[|os| - 1]] else [])
  }

  /** One more outcome joins exactly one of the two lists, at its end. */
  lemma SplitOutcomesSnoc(os: seq<JobOutcome>, o: JobOutcome)
    ensures OkOutcomes(os + [o]) == OkOutcomes(os) + (if o.result.ok then [o] else [])
    ensures FailedOutcomes(os + [o]) == FailedOutcomes(os) + (if !o.result.ok then [o] else [])
  {
    assert (os + [o])[..|os|] == os;
  }

  /** `ran` holds only `ok` results. */
  lemma {:induction false} OkOutcomesOk(os: seq<JobOutcome>)
    ensures forall k :: 0 <= k < |OkOutcomes(os)| ==> OkOutcomes(os)[k].result.ok
  {
    if os != [] {
      OkOutcomesOk(os[..|os| - 1]);
    }
  }

  /** `failed` holds only results that are not `ok`. */
  lemma {:induction false} FailedOutcomesFailed(os: seq<JobOutcome>)
    ensures forall k :: 0 <= k < |FailedOutcomes(os)| ==> !FailedOutcomes(os)[k].result.ok
  {
    if os != [] {
      FailedOutcomesFailed(os[..|os| - 1]);
    }
  }

  /** Every outcome lands in exactly one of `ran` and `failed`. */
  lemma {:induction false} SplitOutcomesExact(os: seq<JobOutcome>)
    ensures multiset(OkOutcomes(os)) + multiset(FailedOutcomes(os)) == multiset(os)
  {
    if os != [] {
      var init := os[..|os| - 1];
      var o := os[|os| - 1];
      SplitOutcomesExact(init);
      assert os == init + [o];
      assert multiset(os) == multiset(init) + multiset{o};
    }
  }

  /**
    * The replay loop from the `i`-th job on, with the outcomes `done` of
    * the jobs before it sorted into `ran` and `failed`, ends with one
    * outcome per job, in job order, and reports them split by `ok`.
    */
  lemma {:induction false} RunDueFromSorts(w: World, root: Path, env: Env, fuel: nat, jobs: seq<Job>, i: nat,
                                           ran: seq<JobOutcome>, failed: seq<JobOutcome>, done: seq<JobOutcome>)
    returns (os: seq<JobOutcome>)
    requires fuel > 0 && i <= |jobs| && |done| == i
    requires forall k :: 0 <= k < i ==> done[k].id == jobs[k].id
    requires ran == OkOutcomes(done) && failed == FailedOutcomes(done)
    requires RunDueFrom(w, root, env, fuel, jobs, i, ran, failed).result.Ok?
    ensures |os| == |jobs| && os[..i] == done
    ensures forall k :: 0 <= k < |jobs| ==> os[k].id == jobs[k].id
    ensures RunDueFrom(w, root, env, fuel, jobs, i, ran, failed).result.value
      == Success(DueRun(|jobs|, OkOutcomes(os), FailedOutcomes(os)))
    decreases |jobs| - i
  {
    if i == |jobs| {
      os := done;
    } else {
      var c := RunDueFromStep(w, root, env, fuel, jobs, i, ran, failed);
      var o := JobOutcome(jobs[i].id, c.result);
      SplitOutcomesSnoc(done, o);
      var ran', failed' := if c.result.ok then ran + [o] else ran, if c.result.ok then failed else failed + [o];
      SnocIds(done, jobs, i, o);
      os := RunDueFromSorts(c.world, root, env, fuel, jobs, i + 1, ran', failed', done + [o]);
      PrefixOfSnoc(os, done, o);
    }
  }

  /** The outcome of the `i`-th job extends a list whose ids follow the jobs. */
  lemma SnocIds(done: seq<JobOutcome>, jobs: seq<Job>, i: nat, o: JobOutcome)
    requires |done| == i < |jobs| && o.id == jobs[i].id
    requires forall k :: 0 <= k < i ==> done[k].id == jobs[k].id
    ensures forall k :: 0 <= k < i + 1 ==> (done + [o])[k].id == jobs[k].id
  {
    forall k | 0 <= k < i + 1 ensures (done + [o])[k].id == jobs[k].id {
      if k < i {
        assert (done + [o])[k] == done[k];
      }
    }
  }

  /** A list that starts with `done + [o]` starts with `done`. */
  lemma PrefixOfSnoc(os: seq<JobOutcome>, done: seq<JobOutcome>, o: JobOutcome)
    requires |done| + 1 <= |os| && os[..|done| + 1] == done + [o]
    ensures os[..|done|] == done
  {
    assert os[..|done|] == (done + [o])[..|done|];
  }

  /** One turn of the replay loop: the `i`-th job's call `c` runs and its outcome joins the list its `ok` picks. */
  lemma RunDueFromStep(w: World, root: Path, env: Env, fuel: nat, jobs: seq<Job>, i: nat,
                       ran: seq<JobOutcome>, failed: seq<JobOutcome>) returns (c: Called)
    requires fuel > 0 && i < |jobs|
    requires RunDueFrom(w, root, env, fuel, jobs, i, ran, failed).result.Ok?
    ensures JobStep(w, root, env, fuel, jobs[i]) == Ok(c)
    ensures var o := JobOutcome(jobs[i].id, c.result);
      RunDueFrom(w, root, env, fuel, jobs, i, ran, failed)
      == RunDueFrom(c.world, root, env, fuel, jobs, i + 1, if c.result.ok then ran + [o] else ran,
                    if c.result.ok then failed else failed + [o])
  {
    c := JobStep(w, root, env, fuel, jobs[i]).value;
  }

  /**
    * When the replay of due jobs completes, it reports how many jobs were
    * due and one outcome per due job, in due order, each in `ran` when its
    * result is `ok` and in `failed` otherwise; the due jobs are exactly
    * the pending rows whose time has come, in `(run_at, id)` order, so each
    * is replayed once.
    */
  lemma RunDueReport(w: World, root: Path, env: Env, fuel: nat) returns (os: seq<JobOutcome>)
    requires IdsIncreasing(w.rows)
    requires RunDueOutcome(w, root, env, fuel).result.Ok?
    ensures var due := DueOf(w.rows, env.now);
      |os| == |due| && (forall k :: 0 <= k < |due| ==> os[k].id == due[k].id)
      && RunDueOutcome(w, root, env, fuel).result.value == Success(DueRun(|due|, OkOutcomes(os), FailedOutcomes(os)))
    ensures var due := DueOf(w.rows, env.now);
      DueSorted(due) && forall x :: x in due <==> x in w.rows && IsDue(x, env.now)
    ensures (forall k :: 0 <= k < |OkOutcomes(os)| ==> OkOutcomes(os)[k].result.ok)
      && (forall k :: 0 <= k < |FailedOutcomes(os)| ==> !FailedOutcomes(os)[k].result.ok)
      && multiset(OkOutcomes(os)) + multiset(FailedOutcomes(os)) == multiset(os)
  {
    var due := DueOf(w.rows, env.now);
    assert OkOutcomes([]) == [] && FailedOutcomes([]) == [];
    os := RunDueFromSorts(w, root, env, fuel, due, 0, [], [], []);
    DueRowsIncreasing(w.rows, env.now);
    SortDueFacts(DueRows(w.rows, env.now));
    DueRowsMembers(w.rows, env.now);
    OkOutcomesOk(os);
    FailedOutcomesFailed(os);
    SplitOutcomesExact(os);
  }

  /** When the nesting bound is exhausted the replay raises, and the executor answers with the captured error. */
  lemma RunDueExhausted(w: World, root: Path, env: Env, sessionId: string, params: Entries, confirm: bool)
    ensures ExecuteOutcome(w, root, env, 0, sessionId, "scheduler", "run_due", params, confirm).result
      == Fail(UnhandledPrefix + RecursionMessage)
  {
  }

  /**
    * A replayed job ends up marked `done` when its call answered `ok` and
    * `failed` otherwise, stamped with the current time.
    */
  lemma JobStepMarks(w: World, root: Path, env: Env, fuel: nat, job: Job)
    requires fuel > 0 && JobStep(w, root, env, fuel, job).Ok?
    ensures var c := JobStep(w, root, env, fuel, job).value;
      forall k :: 0 <= k < |c.world.rows| && c.world.rows[k].id == job.id ==>
        c.world.rows[k].status == (if c.result.ok then Done else Failed) && c.world.rows[k].updatedAt == env.now
  {
  }

  /**
    * `filesystem`/`write` and `append` change the disk exactly as
    * `write_file` does and answer with its result, an exception captured.
    */
  lemma WriteDispatched(w: World, root: Path, env: Env, fuel: nat, sessionId: string, action: string,
                        params: Entries, confirm: bool)
    requires action == "write" || action == "append"
    ensures var e := WriteOutcome(w.tree, root, StrParam(params, "path", ""), StrParam(params, "content", ""), action == "append");
      var o := ExecuteOutcome(w, root, env, fuel, sessionId, "filesystem", action, params, confirm);
      o.world.tree == e.tree && o.result == Capture(e.result)
  {
    WriteCall(w, root, action, params, confirm);
    assert Gate("filesystem", action, params, confirm).None?;
    assert InnerOutcome(w, root, env, fuel, sessionId, "filesystem", action, params, confirm)
      == FilesystemCall(w, root, action, params, confirm);
  }

  lemma WriteCall(w: World, root: Path, action: string, params: Entries, confirm: bool)
    requires action == "write" || action == "append"
    ensures var e := WriteOutcome(w.tree, root, StrParam(params, "path", ""), StrParam(params, "content", ""), action == "append");
      FilesystemCall(w, root, action, params, confirm) == Attempt(e.result, w.(tree := e.tree))
  {
  }

  /** `filesystem`/`read` answers with `read_file`'s result on the disk as it is, an exception captured. */
  lemma ReadDispatched(w: World, root: Path, env: Env, fuel: nat, sessionId: string, params: Entries, confirm: bool)
    requires ToInt(Get(params, "max_chars", Int(DefaultMaxChars))).Ok?
    ensures var n := ToInt(Get(params, "max_chars", Int(DefaultMaxChars))).value;
      var o := ExecuteOutcome(w, root, env, fuel, sessionId, "filesystem", "read", params, confirm);
      o.world.tree == w.tree && o.result == Capture(ReadOutcome(w.tree, root, StrParam(params, "path", ""), n))
  {
    var n := ToInt(Get(params, "max_chars", Int(DefaultMaxChars))).value;
    assert FilesystemCall(w, root, "read", params, confirm) == Attempt(ReadOutcome(w.tree, root, StrParam(params, "path", ""), n), w);
  }

  /**
    * `code`/`run` with a command the gate lets through answers with the
    * runner's result on the disk as it is, an exception captured.
    */
  lemma CodeDispatched(w: World, root: Path, env: Env, fuel: nat, sessionId: string, params: Entries, confirm: bool)
    requires confirm || !IsDestructiveCommand(StrParam(params, "command", ""))
    requires ToInt(Get(params, "timeout_sec", Int(DefaultTimeout))).Ok?
    ensures var t := ToInt(Get(params, "timeout_sec", Int(DefaultTimeout))).value;
      var o := ExecuteOutcome(w, root, env, fuel, sessionId, "code", "run", params, confirm);
      o.world.tree == w.tree && o.result == Capture(Run(StrParam(params, "command", ""), t, env.split, env.launch))
  {
    assert Gate("code", "run", params, confirm).None?;
    assert InnerOutcome(w, root, env, fuel, sessionId, "code", "run", params, confirm) == CodeCall(w, env, params);
  }

  /**
    * A process that cannot be started is answered with the exception's own
    * text when it is a `PermissionError`, and as an unhandled tool failure
    * otherwise; a command `shlex` cannot split is always the latter.
    */
  lemma RunFailuresAnswered(command: string, t: int, split: Splitter, launch: Launcher)
    ensures Screen(command, split).Permitted? && launch(Screen(command, split).parts, t).LaunchFailed? ==>
      var o := launch(Screen(command, split).parts, t);
      Capture(Run(command, t, split, launch))
        == if o.kind == PermissionError then Fail(o.message) else Fail(UnhandledPrefix + o.message)
    ensures Strip(command) != [] && split(Strip(command)).SplitFailed? ==>
      Capture(Run(command, t, split, launch)) == Fail(UnhandledPrefix + split(Strip(command)).message)
  {
    if Strip(command) != [] && split(Strip(command)).SplitFailed? {
      SplitFailureRaised(command, t, split, launch);
    }
  }
}
