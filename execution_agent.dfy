/**
  * The execution agent: it turns plan steps into tool calls by a fixed
  * table of task prefixes, and runs a list of calls through the tool
  * executor in order, numbering the steps from 1.
  */
module ExecutionAgent {
  import opened Wrappers
  import opened Text
  import opened Values
  import opened ToolResults
  import opened FileSystem
  import opened Planning
  import opened Executor

  /** One proposed tool call: `{"tool", "action", "params"}`. */
  datatype Action = Action(tool: string, action: string, params: Entries)

  /** `{key: value}` with one string value. */
  function Param(key: string, value: string): Entries
  {
    [(Str(key), Str(value))]
  }

  const OpenAppPrefix: string := "open app "
  const OpenWebPrefix: string := "open web "
  const SearchWebPrefix: string := "search web "
  const ListFilesPrefix: string := "list files"
  const ListDirPrefix: string := "list dir"
  const ReadFilePrefix: string := "read file "
  const WriteFilePrefix: string := "write file "
  const RunCommandPrefix: string := "run command "
  const Separator: string := "::"

  /** `write file <path>::<content>`: the path before the first `::` (stripped) and the content after it. */
  function WriteAction(payload: string): Option<Action>
  {
    var i := Find(payload, Separator);
    if i < 0 then None
    else Some(Action("filesystem", "write", [(Str("path"), Str(Strip(payload[..i]))), (Str("content"), Str(payload[i + 2..]))]))
  }

  /**
    * The rule table for one stripped task: the first prefix the lower-cased
    * task starts with decides the call, and its argument is the rest of the
    * task in its original case, stripped.
    */
  function ActionFor(task: string): Option<Action>
  {
    var lower := Lower(task);
    if StartsWith(lower, OpenAppPrefix) then Some(Action("system", "open_app", Param("app_name", Strip(task[9..]))))
    else if StartsWith(lower, OpenWebPrefix) then Some(Action("browser", "open_url", Param("url", Strip(task[9..]))))
    else if StartsWith(lower, SearchWebPrefix) then Some(Action("browser", "search_web", Param("query", Strip(task[11..]))))
    else if StartsWith(lower, ListFilesPrefix) || StartsWith(lower, ListDirPrefix) then
      Some(Action("filesystem", "list", Param("path", ".")))
    else if StartsWith(lower, ReadFilePrefix) then Some(Action("filesystem", "read", Param("path", Strip(task[10..]))))
    else if StartsWith(lower, WriteFilePrefix) then WriteAction(Strip(task[11..]))
    else if StartsWith(lower, RunCommandPrefix) then Some(Action("code", "run", Param("command", Strip(task[12..]))))
    else None
  }

  /** The task a step contributes: `str(step["task"]).strip()`. */
  function TaskText(step: PlanStep): string
  {
    Strip(step.task)
  }

  /** The action each step yields, if any. */
  function StepActions(steps: seq<PlanStep>): (r: seq<Option<Action>>)
    ensures |r| == |steps|
  {
    seq(|steps|, i requires 0 <= i < |steps| => ActionFor(TaskText(steps[i])))
  }

  /** The present values, in order. */
  function Somes<T>(opts: seq<Option<T>>): seq<T>
  {
    if opts == [] then []
    else Somes(opts[..|opts| - 1]) + (if opts[|opts| - 1].Some? then [opts[|opts| - 1].value] else [])
  }

  /** The positions of the present values, in order. */
  function Positions<T>(opts: seq<Option<T>>): seq<nat>
  {
    if opts == [] then []
    else Positions(opts[..|opts| - 1]) + (if opts[|opts| - 1].Some? then [|opts| - 1] else [])
  }

  /** What `propose_actions` returns: the action of each step that has one, in step order. */
  function Proposed(steps: seq<PlanStep>): seq<Action>
  {
    Somes(StepActions(steps))
  }

  /** One record of `execute`: the 1-based step number, the call, and its result. */
  datatype StepRecord = StepRecord(step: nat, action: Action, result: ToolResult)

  /** The records `execute` returns and the state the calls leave. */
  datatype Batch = Batch(records: seq<StepRecord>, world: World)

  /** `execute`: every action in order through the executor, all with the same `confirm`. */
  ghost function ExecutedAll(w: World, root: Path, env: Env, fuel: nat, sessionId: string, actions: seq<Action>, confirm: bool): Batch
  {
    if actions == [] then Batch([], w)
    else
      var before := ExecutedAll(w, root, env, fuel, sessionId, actions[..|actions| - 1], confirm);
      var a := actions[|actions| - 1];
      var o := ExecuteOutcome(before.world, root, env, fuel, sessionId, a.tool, a.action, a.params, confirm);
      Batch(before.records + [StepRecord(|actions|, a, o.result)], o.world)
  }

  class ExecutionAgent {
    const tools: ToolExecutor

    constructor(tools: ToolExecutor)
      ensures this.tools == tools
    {
      this.tools := tools;
    }

    /** `propose_actions`. */
    method ProposeActions(steps: seq<PlanStep>) returns (actions: seq<Action>)
      ensures actions == Proposed(steps)
    {
      ghost var opts := StepActions(steps);
      actions := [];
      for i := 0 to |steps|
        invariant actions == Somes(opts[..i])
      {
        assert opts[..i + 1][..i] == opts[..i];
        var task := TaskText(steps[i]);
        var action := ActionFor(task);
        if action.Some? {
          actions := actions + [action.value];
        }
      }
      assert opts[..|steps|] == opts;
    }

    /** `execute`; `fuel` bounds the nesting of job replays as in `ToolExecutor.Execute`. */
    method Execute(env: Env, fuel: nat, sessionId: string, actions: seq<Action>, confirm: bool) returns (records: seq<StepRecord>)
      requires tools.Valid()
      modifies tools.files, tools.email, tools.scheduler, tools.audit
      ensures tools.Valid()
      ensures Batch(records, tools.State()) == ExecutedAll(old(tools.State()), tools.files.root, env, fuel, sessionId, actions, confirm)
    {
      records := [];
      for i := 0 to |actions|
        invariant tools.Valid()
        invariant Batch(records, tools.State()) == ExecutedAll(old(tools.State()), tools.files.root, env, fuel, sessionId, actions[..i], confirm)
      {
        assert actions[..i + 1][..i] == actions[..i];
        var a := actions[i];
        var result := tools.Execute(env, fuel, sessionId, a.tool, a.action, a.params, confirm);
        records := records + [StepRecord(i + 1, a, result)];
      }
      assert actions[..|actions|] == actions;
    }
  }

  /**
    * Each step yields at most one action and the actions keep the step
    * order: the `k`-th action is the action of the step at the `k`-th
    * position, the positions increase, and every step with an action is one.
    */
  lemma ProposedFollowsSteps(steps: seq<PlanStep>)
    ensures var opts := StepActions(steps);
      var ps := Positions(opts);
      |Proposed(steps)| == |ps| <= |steps|
      && (forall k :: 0 <= k < |ps| ==> ps[k] < |steps| && ActionFor(TaskText(steps[ps[k]])) == Some(Proposed(steps)[k]))
      && (forall k, l :: 0 <= k < l < |ps| ==> ps[k] < ps[l])
      && (forall j :: 0 <= j < |steps| && ActionFor(TaskText(steps[j])).Some? ==> j in ps)
  {
    var opts := StepActions(steps);
    SomesAtPositions(opts);
  }

  lemma SomesAtPositions<T>(opts: seq<Option<T>>)
    ensures var ps := Positions(opts);
      |Somes(opts)| == |ps| <= |opts|
      && (forall k :: 0 <= k < |ps| ==> ps[k] < |opts| && opts[ps[k]] == Some(Somes(opts)[k]))
      && (forall k, l :: 0 <= k < l < |ps| ==> ps[k] < ps[l])
      && (forall j :: 0 <= j < |opts| && opts[j].Some? ==> j in ps)
  {
    PositionsCount(opts);
    PositionsHold(opts);
    PositionsComplete(opts);
  }

  /** As many values as positions, each position below the length, in increasing order. */
  lemma {:induction false} PositionsCount<T>(opts: seq<Option<T>>)
    ensures var ps := Positions(opts);
      |Somes(opts)| == |ps| <= |opts|
      && (forall k :: 0 <= k < |ps| ==> ps[k] < |opts|)
      && (forall k, l :: 0 <= k < l < |ps| ==> ps[k] < ps[l])
  {
    if opts != [] {
      PositionsCount(opts[..|opts| - 1]);
    }
  }

  /** The `k`-th value sits at the `k`-th position. */
  lemma {:induction false} PositionsHold<T>(opts: seq<Option<T>>)
    ensures var ps := Positions(opts);
      forall k :: 0 <= k < |ps| && k < |Somes(opts)| && ps[k] < |opts| ==> opts[ps[k]] == Some(Somes(opts)[k])
  {
    if opts != [] {
      var n := |opts| - 1;
      var init := opts[..n];
      PositionsHold(init);
      PositionsCount(init);
      var ps, vs := Positions(opts), Somes(opts);
      forall k | 0 <= k < |ps| && k < |vs| && ps[k] < |opts|
        ensures opts[ps[k]] == Some(vs[k])
      {
        if k < |Positions(init)| {
          assert ps[k] == Positions(init)[k] && vs[k] == Somes(init)[k];
          assert init[ps[k]] == opts[ps[k]];
        }
      }
    }
  }

  /** Every present value has its position listed. */
  lemma {:induction false} PositionsComplete<T>(opts: seq<Option<T>>)
    ensures forall j :: 0 <= j < |opts| && opts[j].Some? ==> j in Positions(opts)
  {
    if opts != [] {
      var n := |opts| - 1;
      var init := opts[..n];
      PositionsComplete(init);
      assert forall j :: 0 <= j < n ==> init[j] == opts[j];
    }
  }

  /** A task is turned into a call exactly when one of the prefixes starts it, and a write carries `::`. */
  lemma ActionForSome(task: string)
    ensures var lower := Lower(task);
      ActionFor(task).Some? <==>
        (StartsWith(lower, OpenAppPrefix) || StartsWith(lower, OpenWebPrefix) || StartsWith(lower, SearchWebPrefix)
         || StartsWith(lower, ListFilesPrefix) || StartsWith(lower, ListDirPrefix) || StartsWith(lower, ReadFilePrefix)
         || StartsWith(lower, RunCommandPrefix)
         || (StartsWith(lower, WriteFilePrefix) && Contains(Strip(task[11..]), Separator)))
  {
  }

  /**
    * A write splits at the first `::`: the stripped path is taken from the
    * text before it, which holds no `::`, and the content is everything
    * after it, verbatim.
    */
  lemma WriteSplitsAtFirstSeparator(payload: string)
    requires Contains(payload, Separator)
    ensures var a := WriteAction(payload).value;
      exists i :: 0 <= i && i + 2 <= |payload| && payload[..i] + Separator + payload[i + 2..] == payload
        && !Contains(payload[..i + 1], Separator)
        && a.params == [(Str("path"), Str(Strip(payload[..i]))), (Str("content"), Str(payload[i + 2..]))]
  {
    var i := Find(payload, Separator);
    assert payload[..i] + Separator + payload[i + 2..] == payload;
    if Contains(payload[..i + 1], Separator) {
      var j :| 0 <= j <= i + 1 && OccursAt(payload[..i + 1], Separator, j);
      assert OccursAt(payload, Separator, j);
    }
  }

  /** `list files` and `list dir` tasks list the workspace root, whatever follows the prefix. */
  lemma ListTasksListRoot(task: string)
    requires StartsWith(Lower(task), ListFilesPrefix) || StartsWith(Lower(task), ListDirPrefix)
    ensures ActionFor(task) == Some(Action("filesystem", "list", Param("path", ".")))
  {
    assert Lower(task)[0] == 'l';
  }

  /**
    * `execute` returns one record per action, numbered 1 to n in order,
    * each carrying its own action.
    */
  lemma {:induction false} ExecutedAllNumbered(w: World, root: Path, env: Env, fuel: nat, sessionId: string,
                                               actions: seq<Action>, confirm: bool)
    ensures var rs := ExecutedAll(w, root, env, fuel, sessionId, actions, confirm).records;
      |rs| == |actions| && forall k :: 0 <= k < |rs| ==> rs[k].step == k + 1 && rs[k].action == actions[k]
  {
    if actions != [] {
      ExecutedAllNumbered(w, root, env, fuel, sessionId, actions[..|actions| - 1], confirm);
    }
  }
}
