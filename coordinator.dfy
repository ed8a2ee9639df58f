/**
  * The agent coordinator: one run restores a confirmed objective from its
  * token, plans it and rates its risk, stops at the confirmation gate when
  * the plan is high risk and unconfirmed, and otherwise proposes tool
  * calls, runs them when asked to, validates the results, stores a
  * reflection and writes a summary and an audit event.
  *
  * The memory service behind the research and memory agents is outside the
  * model: the texts of the memory hits and the id of the stored reflection
  * are parameters, and the reflections handed to the service are kept in
  * a field.
  */
module Coordinator {
  import opened Wrappers
  import opened Text
  import opened Values
  import opened Audit
  import opened Planning
  import opened Confirmation
  import opened FileSystem
  import opened Executor
  import opened ExecutionAgent
  import opened ValidationAgent
  import opened SupervisorAgent

  /** What the research agent returns: the objective, the number of hits and the non-empty hit texts. */
  datatype Research = Research(objective: string, memoryHits: nat, facts: seq<string>)

  /** What the memory agent returns. */
  datatype MemoryOut = MemoryOut(ok: bool, memoryId: string)

  /** The dict `run` returns; `research` and `memory` are `None` where the dict is empty or has no such key. */
  datatype RunReport = RunReport(
    ok: bool,
    objective: string,
    plan: ExecutionPlan,
    risk: RiskAssessment,
    research: Option<Research>,
    proposed: seq<Action>,
    results: seq<StepRecord>,
    validation: Validation,
    memory: Option<MemoryOut>,
    summary: string,
    confirmationRequired: bool,
    token: Option<string>)

  /** The dict `status` returns. */
  datatype CoordinatorStatus = CoordinatorStatus(agents: seq<string>, confirmationModel: string)

  const AwaitingConfirmation: string := "Awaiting confirmation."
  const GateEvent: string := "agents.confirmation_required"
  const CompletedEvent: string := "agents.completed"

  /** The validation the gate reports: not ok, with a fixed summary and no counts. */
  const GateValidation: Validation := Validation(false, "Confirmation required before execution.", 0, 0, None)

  /** `ResearchAgent.run` over the texts of the hits (a hit without text counts as `""`). */
  function ResearchOf(objective: string, hits: seq<string>): Research
  {
    Research(objective, |hits|, NonEmpty(hits))
  }

  /** The non-empty texts, in order. */
  function NonEmpty(texts: seq<string>): seq<string>
  {
    if texts == [] then []
    else NonEmpty(texts[..|texts| - 1]) + (if texts[|texts| - 1] != [] then [texts[|texts| - 1]] else [])
  }

  /** The text `MemoryAgent.store_reflection` hands to the memory service. */
  function ReflectionText(objective: string, v: Validation): string
  {
    "Objective: " + objective + " | status: " + (if v.ok then "ok" else "needs_review") + " | summary: " + v.summary
  }

  /**
    * The confirmation step of `run`: a non-empty token that matches the
    * session's pending entry confirms the call and brings back the stored
    * objective; otherwise the caller's objective stands, unconfirmed.
    */
  function Restored(pending: map<string, PendingConfirmation>, sessionId: string, objective: string, confirmToken: Option<string>): Answer
  {
    if confirmToken.Some? && confirmToken.value != [] then
      var a := ConsumeTokenAnswer(pending, sessionId, confirmToken.value);
      if a.accepted then a else Answer(false, objective)
    else Answer(false, objective)
  }

  /** The pending table after the confirmation step. */
  function PendingAfterRestore(pending: map<string, PendingConfirmation>, sessionId: string, confirmToken: Option<string>): map<string, PendingConfirmation>
  {
    if confirmToken.Some? && confirmToken.value != [] then ConsumeTokenAfter(pending, sessionId, confirmToken.value) else pending
  }

  /** The gate stops a call whose risk needs confirmation and that was not confirmed. */
  predicate Gated(risk: RiskAssessment, confirmed: bool)
  {
    risk.confirmationRequired && !confirmed
  }

  /** `pending_token(...) or create(...)`: the session's pending token, or the fresh one. */
  function GateToken(pending: map<string, PendingConfirmation>, sessionId: string, issued: string): string
  {
    if sessionId in pending then pending[sessionId].token else issued
  }

  /** The pending table after the gate: untouched when the session has an entry, else the fresh entry added. */
  function GatePending(pending: map<string, PendingConfirmation>, sessionId: string, objective: string, issued: string, now: string)
    : map<string, PendingConfirmation>
  {
    if sessionId in pending then pending else pending[sessionId := PendingConfirmation(issued, objective, now)]
  }

  /** The audit event the gate writes. */
  function GateRecord(now: string, sessionId: string, objective: string, risk: RiskAssessment, token: string): AuditRecord
  {
    RecordOf(now, GateEvent, GatePayload(sessionId, objective, risk, token))
  }

  /** The payload of the gate event. */
  function GatePayload(sessionId: string, objective: string, risk: RiskAssessment, token: string): seq<(string, Value)>
  {
    [("session_id", Str(sessionId)), ("objective", Str(objective)), ("risk_level", Str(LevelName(risk.level))), ("token", Str(token))]
  }

  /** The audit event a completed run writes. */
  function CompletedRecord(now: string, sessionId: string, objective: string, risk: RiskAssessment, autoExecute: bool,
                           actions: nat, v: Validation): AuditRecord
  {
    RecordOf(now, CompletedEvent, CompletedPayload(sessionId, objective, risk, autoExecute, actions, v))
  }

  /** The payload of the completion event. */
  function CompletedPayload(sessionId: string, objective: string, risk: RiskAssessment, autoExecute: bool,
                            actions: nat, v: Validation): seq<(string, Value)>
  {
    [("session_id", Str(sessionId)), ("objective", Str(objective)), ("risk_level", Str(LevelName(risk.level))),
     ("auto_execute", Bool(autoExecute)), ("actions", Int(actions)), ("success", Int(v.successCount)),
     ("failure", Int(v.failureCount))]
  }

  /** The summary of a plan and risk with a given validation summary. */
  function SummaryOf(objective: string, plan: ExecutionPlan, risk: RiskAssessment, validationSummary: string, paused: bool): string
  {
    Summarize(objective, Some(|plan.steps|), Some(LevelName(risk.level)), Some(validationSummary), paused)
  }

  /** The report of a run stopped at the gate: nothing proposed or run, and the token to confirm with. */
  function PausedReport(objective: string, plan: ExecutionPlan, risk: RiskAssessment, token: string): RunReport
  {
    RunReport(true, objective, plan, risk, None, [], [], GateValidation, None,
              SummaryOf(objective, plan, risk, AwaitingConfirmation, true), true, Some(token))
  }

  /** The report of a run past the gate, given the records of the calls it ran. */
  function ProceedReport(objective: string, plan: ExecutionPlan, risk: RiskAssessment, autoExecute: bool,
                         hits: seq<string>, results: seq<StepRecord>, memoryId: string): RunReport
  {
    var v := Validated(results, autoExecute);
    RunReport(true, objective, plan, risk, Some(ResearchOf(objective, hits)), Proposed(plan.steps), results, v,
              Some(MemoryOut(true, memoryId)), SummaryOf(objective, plan, risk, v.summary, false), false, None)
  }

  /** What the calls of a proceeding run leave: the executed batch, or nothing when no call runs. */
  ghost function Executed(w: World, root: Path, env: Env, fuel: nat, sessionId: string, actions: seq<Action>,
                          autoExecute: bool, confirmed: bool): Batch
  {
    if autoExecute && actions != [] then ExecutedAll(w, root, env, fuel, sessionId, actions, confirmed) else Batch([], w)
  }

  /** What a run leaves after the confirmation step: the report, the pending table, the reflections and the tools' state. */
  datatype Outcome = Outcome(report: RunReport, pending: map<string, PendingConfirmation>, reflections: seq<(string, string)>, world: World)

  /** A run stopped at the gate: the session's token reused or the fresh one issued, and the gate event logged. */
  function PausedOutcome(pending: map<string, PendingConfirmation>, reflections: seq<(string, string)>, w: World, env: Env,
                         sessionId: string, goal: string, plan: ExecutionPlan, risk: RiskAssessment, freshToken: string): Outcome
  {
    var token := GateToken(pending, sessionId, freshToken);
    Outcome(PausedReport(goal, plan, risk, token), GatePending(pending, sessionId, goal, freshToken, env.now), reflections,
            w.(log := w.log + [GateRecord(env.now, sessionId, goal, risk, token)]))
  }

  /** A run past the gate: the proposed calls run when asked to, a reflection stored and the completion event logged. */
  ghost function ProceededOutcome(pending: map<string, PendingConfirmation>, reflections: seq<(string, string)>, w: World,
                                  root: Path, env: Env, fuel: nat, sessionId: string, goal: string, plan: ExecutionPlan,
                                  risk: RiskAssessment, autoExecute: bool, confirmed: bool, hits: seq<string>, memoryId: string): Outcome
  {
    var actions := Proposed(plan.steps);
    var b := Executed(w, root, env, fuel, sessionId, actions, autoExecute, confirmed);
    var v := Validated(b.records, autoExecute);
    Outcome(ProceedReport(goal, plan, risk, autoExecute, hits, b.records, memoryId), pending,
            reflections + [(sessionId, ReflectionText(goal, v))],
            b.world.(log := b.world.log + [CompletedRecord(env.now, sessionId, goal, risk, autoExecute, |actions|, v)]))
  }

  /** The gate decides between the two. */
  ghost function Responded(pending: map<string, PendingConfirmation>, reflections: seq<(string, string)>, w: World, root: Path,
                           env: Env, fuel: nat, sessionId: string, answer: Answer, plan: ExecutionPlan, risk: RiskAssessment,
                           autoExecute: bool, freshToken: string, hits: seq<string>, memoryId: string): Outcome
  {
    if Gated(risk, answer.accepted) then PausedOutcome(pending, reflections, w, env, sessionId, answer.original, plan, risk, freshToken)
    else ProceededOutcome(pending, reflections, w, root, env, fuel, sessionId, answer.original, plan, risk, autoExecute,
                          answer.accepted, hits, memoryId)
  }

  class AgentCoordinator {
    const confirmation: ConfirmationManager
    const execution: ExecutionAgent
    /** The texts handed to the memory service, with their session, oldest first. */
    var reflections: seq<(string, string)>

    predicate Valid()
      reads this, confirmation, execution, execution.tools, execution.tools.files, execution.tools.email, execution.tools.scheduler
    {
      confirmation.Valid() && execution.tools.Valid()
    }

    constructor(confirmation: ConfirmationManager, execution: ExecutionAgent)
      requires confirmation.Valid() && execution.tools.Valid()
      ensures this.confirmation == confirmation && this.execution == execution && reflections == []
      ensures Valid()
    {
      this.confirmation := confirmation;
      this.execution := execution;
      reflections := [];
    }

    /** `status`. */
    function Status(): (r: CoordinatorStatus)
      ensures r.agents == ["research", "execution", "validation", "memory", "supervisor"]
      ensures r.confirmationModel == "token_challenge"
    {
      CoordinatorStatus(["research", "execution", "validation", "memory", "supervisor"], "token_challenge")
    }

    /**
      * `run`. `freshToken` is what the random source would yield if a new
      * token is needed, `hits` the texts of the memory hits, `memoryId` the
      * id the memory service gives the stored reflection; the audit events
      * go to the executor's log, which is the same file.
      */
    method Run(env: Env, fuel: nat, sessionId: string, objective: string, autoExecute: bool, confirmToken: Option<string>,
               freshToken: string, hits: seq<string>, memoryId: string) returns (out: RunReport)
      requires Valid() && IsToken(freshToken)
      modifies this, confirmation, execution.tools.files, execution.tools.email, execution.tools.scheduler, execution.tools.audit
      ensures Valid()
      ensures var r := Restored(old(confirmation.pending), sessionId, objective, confirmToken);
        out.objective == r.original && out.plan == Plan(r.original) && out.risk == Assess(r.original, out.plan)
      ensures var r := Restored(old(confirmation.pending), sessionId, objective, confirmToken);
        Outcome(out, confirmation.pending, reflections, execution.tools.State())
        == Responded(PendingAfterRestore(old(confirmation.pending), sessionId, confirmToken), old(reflections),
                     old(execution.tools.State()), execution.tools.files.root, env, fuel, sessionId, r, out.plan, out.risk,
                     autoExecute, freshToken, hits, memoryId)
    {
      ghost var w0 := execution.tools.State();
      ghost var reflections0 := reflections;
      var answer, plan, risk := Prepare(sessionId, objective, confirmToken);
      assert execution.tools.State() == w0 && reflections == reflections0 && execution.tools.Valid();
      out := Respond(env, fuel, sessionId, answer, plan, risk, autoExecute, freshToken, hits, memoryId);
    }

    /** What `run` does once the confirmation step has given the objective, the plan and the risk: gate or proceed. */
    method Respond(env: Env, fuel: nat, sessionId: string, answer: Answer, plan: ExecutionPlan, risk: RiskAssessment,
                   autoExecute: bool, freshToken: string, hits: seq<string>, memoryId: string) returns (out: RunReport)
      requires Valid() && IsToken(freshToken)
      modifies this, confirmation, execution.tools.files, execution.tools.email, execution.tools.scheduler, execution.tools.audit
      ensures Valid()
      ensures out.objective == answer.original && out.plan == plan && out.risk == risk
      ensures Outcome(out, confirmation.pending, reflections, execution.tools.State())
        == Responded(old(confirmation.pending), old(reflections), old(execution.tools.State()), execution.tools.files.root, env,
                     fuel, sessionId, answer, plan, risk, autoExecute, freshToken, hits, memoryId)
    {
      if risk.confirmationRequired && !answer.accepted {
        out := Pause(env, sessionId, answer.original, plan, risk, freshToken);
      } else {
        out := Proceed(env, fuel, sessionId, answer.original, plan, risk, autoExecute, answer.accepted, hits, memoryId);
      }
    }

    /** The confirmation step, the plan and the risk rating. */
    method Prepare(sessionId: string, objective: string, confirmToken: Option<string>)
      returns (answer: Answer, plan: ExecutionPlan, risk: RiskAssessment)
      requires confirmation.Valid()
      modifies confirmation
      ensures confirmation.Valid()
      ensures answer == Restored(old(confirmation.pending), sessionId, objective, confirmToken)
      ensures confirmation.pending == PendingAfterRestore(old(confirmation.pending), sessionId, confirmToken)
      ensures plan == Plan(answer.original) && risk == Assess(answer.original, plan)
    {
      answer := RestoreObjective(sessionId, objective, confirmToken);
      plan := BuildPlan(answer.original);
      risk := Evaluate(answer.original, plan);
    }

    /** The confirmation step: consume a non-empty token and bring back the stored objective if it matches. */
    method RestoreObjective(sessionId: string, objective: string, confirmToken: Option<string>) returns (answer: Answer)
      requires confirmation.Valid()
      modifies confirmation
      ensures confirmation.Valid()
      ensures answer == Restored(old(confirmation.pending), sessionId, objective, confirmToken)
      ensures confirmation.pending == PendingAfterRestore(old(confirmation.pending), sessionId, confirmToken)
    {
      answer := Answer(false, objective);
      if confirmToken.Some? && confirmToken.value != [] {
        var consumed := confirmation.ConsumeToken(sessionId, confirmToken.value);
        if consumed.accepted {
          answer := consumed;
        }
      }
    }

    /** The gate: reuse the session's pending token or issue the fresh one, and write the gate event. */
    method Pause(env: Env, sessionId: string, goal: string, plan: ExecutionPlan, risk: RiskAssessment, freshToken: string)
      returns (out: RunReport)
      requires confirmation.Valid() && IsToken(freshToken)
      modifies confirmation, execution.tools.audit
      ensures confirmation.Valid()
      ensures Outcome(out, confirmation.pending, reflections, execution.tools.State())
        == PausedOutcome(old(confirmation.pending), old(reflections), old(execution.tools.State()), env, sessionId, goal, plan, risk, freshToken)
    {
      var token := confirmation.PendingToken(sessionId);
      if token == [] {
        token := confirmation.Create(sessionId, goal, freshToken, env.now);
      }
      execution.tools.audit.Write(GateEvent, GatePayload(sessionId, goal, risk, token), env.now);
      out := PausedReport(goal, plan, risk, token);
    }

    /** Past the gate: research, propose, run when asked to, validate, reflect, summarise and audit. */
    method Proceed(env: Env, fuel: nat, sessionId: string, goal: string, plan: ExecutionPlan, risk: RiskAssessment,
                   autoExecute: bool, confirmed: bool, hits: seq<string>, memoryId: string) returns (out: RunReport)
      requires execution.tools.Valid()
      modifies this, execution.tools.files, execution.tools.email, execution.tools.scheduler, execution.tools.audit
      ensures execution.tools.Valid()
      ensures Outcome(out, confirmation.pending, reflections, execution.tools.State())
        == ProceededOutcome(old(confirmation.pending), old(reflections), old(execution.tools.State()), execution.tools.files.root,
                            env, fuel, sessionId, goal, plan, risk, autoExecute, confirmed, hits, memoryId)
    {
      var tools := execution.tools;
      var proposed := execution.ProposeActions(plan.steps);
      var results := RunProposed(env, fuel, sessionId, proposed, autoExecute, confirmed);
      var validation := ValidationAgent.Run(results, autoExecute);
      reflections := reflections + [(sessionId, ReflectionText(goal, validation))];
      tools.audit.Write(CompletedEvent, CompletedPayload(sessionId, goal, risk, autoExecute, |proposed|, validation), env.now);
      out := ProceedReport(goal, plan, risk, autoExecute, hits, results, memoryId);
    }

    /** The calls run only with auto-execution and only when there are any. */
    method RunProposed(env: Env, fuel: nat, sessionId: string, actions: seq<Action>, autoExecute: bool, confirmed: bool)
      returns (results: seq<StepRecord>)
      requires execution.tools.Valid()
      modifies execution.tools.files, execution.tools.email, execution.tools.scheduler, execution.tools.audit
      ensures execution.tools.Valid()
      ensures Batch(results, execution.tools.State())
        == Executed(old(execution.tools.State()), execution.tools.files.root, env, fuel, sessionId, actions, autoExecute, confirmed)
    {
      results := [];
      if autoExecute && actions != [] {
        results := execution.Execute(env, fuel, sessionId, actions, confirmed);
      }
    }
  }
}
