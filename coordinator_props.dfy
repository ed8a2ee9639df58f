/**
  * What a coordinator run promises, stated over the functions its methods
  * are proved against: the confirmation step, the gate and its token, and
  * what a run past the gate executes and reports.
  */
module CoordinatorProperties {
  import opened Wrappers
  import opened Text
  import opened Planning
  import opened Confirmation
  import opened FileSystem
  import opened Executor
  import opened ExecutionAgent
  import opened ValidationAgent
  import opened Coordinator

  /** Every stored token has the shape the random source produces. */
  ghost predicate TokensWellShaped(pending: map<string, PendingConfirmation>)
  {
    forall s :: s in pending ==> IsToken(pending[s].token)
  }

  /**
    * The confirmation step confirms exactly when a non-empty token, once
    * stripped, equals the session's pending token; it then brings back the
    * stored objective and drops the entry. Otherwise the caller's
    * objective stands and the pending table is untouched.
    */
  lemma RestoredIff(pending: map<string, PendingConfirmation>, sessionId: string, objective: string, confirmToken: Option<string>)
    ensures Restored(pending, sessionId, objective, confirmToken).accepted
      <==> confirmToken.Some? && confirmToken.value != [] && sessionId in pending && Strip(confirmToken.value) == pending[sessionId].token
    ensures var a := Restored(pending, sessionId, objective, confirmToken);
      a.accepted ==> a.original == pending[sessionId].originalMessage
                     && PendingAfterRestore(pending, sessionId, confirmToken) == pending - {sessionId}
    ensures var a := Restored(pending, sessionId, objective, confirmToken);
      !a.accepted ==> a.original == objective && PendingAfterRestore(pending, sessionId, confirmToken) == pending
  {
  }

  /** A token of the random source's shape is unchanged by stripping. */
  lemma TokenStripsToItself(t: string)
    requires IsToken(t)
    ensures Strip(t) == t
  {
    assert !IsSpace(t[0]) && !IsSpace(t[|t| - 1]);
    StripUnspaced(t);
  }

  /**
    * The gate and the confirmation step fit together: the token the gate
    * hands out, given back to the next run of the same session, confirms
    * it with the objective the entry holds (the session's earlier one when
    * a token was already pending, else the gated objective) and consumes
    * the entry, whatever objective that next run is called with.
    */
  lemma {:induction false} GateThenConfirm(pending: map<string, PendingConfirmation>, sessionId: string, goal: string,
                                           freshToken: string, now: string, nextObjective: string)
    requires TokensWellShaped(pending) && IsToken(freshToken)
    ensures var token := GateToken(pending, sessionId, freshToken);
      var after := GatePending(pending, sessionId, goal, freshToken, now);
      Restored(after, sessionId, nextObjective, Some(token))
        == Answer(true, if sessionId in pending then pending[sessionId].originalMessage else goal)
    ensures var token := GateToken(pending, sessionId, freshToken);
      var after := GatePending(pending, sessionId, goal, freshToken, now);
      PendingAfterRestore(after, sessionId, Some(token)) == after - {sessionId}
  {
    TokenStripsToItself(GateToken(pending, sessionId, freshToken));
  }

  /**
    * A run stopped at the gate reports `confirmation_required` with a
    * token and nothing researched, proposed or run; a session that
    * already had a pending token gets that token back and keeps its entry
    * (the stored objective is not overwritten), and a session without one
    * gets the fresh token recorded with this objective. Only the gate
    * event is added to the tools' state.
    */
  lemma PausedOutcomeFacts(pending: map<string, PendingConfirmation>, reflections: seq<(string, string)>, w: World, env: Env,
                           sessionId: string, goal: string, plan: ExecutionPlan, risk: RiskAssessment, freshToken: string)
    requires TokensWellShaped(pending) && IsToken(freshToken)
    ensures var o := PausedOutcome(pending, reflections, w, env, sessionId, goal, plan, risk, freshToken);
      o.report.confirmationRequired && o.report.token.Some? && IsToken(o.report.token.value)
      && o.report.research.None? && o.report.proposed == [] && o.report.results == [] && o.report.memory.None?
      && !o.report.validation.ok
      && o.reflections == reflections
      && o.world.tree == w.tree && o.world.queue == w.queue && o.world.rows == w.rows && |o.world.log| == |w.log| + 1
    ensures var o := PausedOutcome(pending, reflections, w, env, sessionId, goal, plan, risk, freshToken);
      sessionId in pending ==> o.report.token == Some(pending[sessionId].token) && o.pending == pending
    ensures var o := PausedOutcome(pending, reflections, w, env, sessionId, goal, plan, risk, freshToken);
      sessionId !in pending ==>
        o.report.token == Some(freshToken) && o.pending == pending[sessionId := PendingConfirmation(freshToken, goal, env.now)]
  {
  }

  /** A confirmed call is never stopped at the gate, whatever its risk. */
  lemma ConfirmedNeverGated(pending: map<string, PendingConfirmation>, reflections: seq<(string, string)>, w: World, root: Path,
                            env: Env, fuel: nat, sessionId: string, answer: Answer, plan: ExecutionPlan, risk: RiskAssessment,
                            autoExecute: bool, freshToken: string, hits: seq<string>, memoryId: string)
    requires answer.accepted
    ensures var o := Responded(pending, reflections, w, root, env, fuel, sessionId, answer, plan, risk, autoExecute, freshToken, hits, memoryId);
      !o.report.confirmationRequired && o.report.token.None? && o.pending == pending
  {
  }

  /**
    * An objective holding a high-risk term, on a call that was not
    * confirmed, is stopped at the gate: the run reports the plan and the
    * risk and a token, and runs nothing.
    */
  lemma {:induction false} HighRiskObjectivePauses(pending: map<string, PendingConfirmation>, reflections: seq<(string, string)>,
                                                   w: World, root: Path, env: Env, fuel: nat, sessionId: string,
                                                   before: string, k: nat, after: string,
                                                   autoExecute: bool, freshToken: string, hits: seq<string>, memoryId: string)
    requires k < |HighRiskTerms|
    ensures var objective := before + HighRiskTerms[k] + after;
      var plan := Plan(objective);
      var risk := Assess(objective, plan);
      var o := Responded(pending, reflections, w, root, env, fuel, sessionId, Answer(false, objective), plan, risk,
                         autoExecute, freshToken, hits, memoryId);
      risk.level == High && o.report.confirmationRequired && o.report.token.Some? && o.report.results == []
      && o.report.plan == plan && o.report.risk == risk
  {
    var objective := before + HighRiskTerms[k] + after;
    HighTermForcesConfirmation(before, k, after, Plan(objective));
  }

  /**
    * A run that stopped at the gate resumes: the next run of the session,
    * given the token it reported, is confirmed with the stored objective,
    * consumes the entry and so passes the gate whatever the objective's
    * risk.
    */
  lemma {:induction false} PausedRunResumes(pending: map<string, PendingConfirmation>, reflections: seq<(string, string)>,
                                            w: World, root: Path, env: Env, fuel: nat, sessionId: string, answer: Answer,
                                            plan: ExecutionPlan, risk: RiskAssessment, autoExecute: bool, freshToken: string,
                                            hits: seq<string>, memoryId: string, nextObjective: string, nextRisk: RiskAssessment)
    requires TokensWellShaped(pending) && IsToken(freshToken)
    requires Gated(risk, answer.accepted)
    ensures var o := Responded(pending, reflections, w, root, env, fuel, sessionId, answer, plan, risk, autoExecute, freshToken, hits, memoryId);
      var next := Restored(o.pending, sessionId, nextObjective, o.report.token);
      next.accepted && !Gated(nextRisk, next.accepted)
      && next.original == (if sessionId in pending then pending[sessionId].originalMessage else answer.original)
      && sessionId !in PendingAfterRestore(o.pending, sessionId, o.report.token)
  {
    GateThenConfirm(pending, sessionId, answer.original, freshToken, env.now, nextObjective);
  }

  /**
    * A run past the gate reports success with no token and the proposed
    * calls. With auto-execution it runs every proposed call, in order,
    * numbered from 1, and its validation counts each one once; without it
    * nothing runs and the tools' state gains only the completion event.
    */
  lemma ProceededRunsProposed(pending: map<string, PendingConfirmation>, reflections: seq<(string, string)>,
                              w: World, root: Path, env: Env, fuel: nat, sessionId: string, goal: string,
                              plan: ExecutionPlan, risk: RiskAssessment, autoExecute: bool, confirmed: bool,
                              hits: seq<string>, memoryId: string)
    ensures var o := ProceededOutcome(pending, reflections, w, root, env, fuel, sessionId, goal, plan, risk, autoExecute,
                                      confirmed, hits, memoryId);
      o.report.ok && !o.report.confirmationRequired && o.report.token.None?
      && o.report.proposed == Proposed(plan.steps) && o.pending == pending && |o.reflections| == |reflections| + 1
    ensures var o := ProceededOutcome(pending, reflections, w, root, env, fuel, sessionId, goal, plan, risk, autoExecute,
                                      confirmed, hits, memoryId);
      var actions := Proposed(plan.steps);
      autoExecute ==>
        |o.report.results| == |actions|
        && (forall i :: 0 <= i < |actions| ==> o.report.results[i].step == i + 1 && o.report.results[i].action == actions[i])
        && o.report.validation.successCount + o.report.validation.failureCount == |actions|
    ensures var o := ProceededOutcome(pending, reflections, w, root, env, fuel, sessionId, goal, plan, risk, autoExecute,
                                      confirmed, hits, memoryId);
      !autoExecute ==>
        o.report.results == [] && o.report.validation.ok
        && o.world.tree == w.tree && o.world.queue == w.queue && o.world.rows == w.rows && o.world.log[..|w.log|] == w.log
  {
    if autoExecute {
      ProceededAutoRuns(w, root, env, fuel, sessionId, Proposed(plan.steps), confirmed);
    }
  }

  /** With auto-execution every proposed call runs, numbered from 1, and the validation counts each once. */
  lemma ProceededAutoRuns(w: World, root: Path, env: Env, fuel: nat, sessionId: string, actions: seq<Action>, confirmed: bool)
    ensures var records := Executed(w, root, env, fuel, sessionId, actions, true, confirmed).records;
      |records| == |actions|
      && (forall i :: 0 <= i < |actions| ==> records[i].step == i + 1 && records[i].action == actions[i])
      && Successes(records) + Failures(records) == |actions|
  {
    var b := Executed(w, root, env, fuel, sessionId, actions, true, confirmed);
    if actions != [] {
      ExecutedAllNumbered(w, root, env, fuel, sessionId, actions, confirmed);
    }
    CountsPartition(b.records);
  }

  /** The research facts are the non-empty hit texts, and no more of them than there are hits. */
  lemma {:induction false} NonEmptyFacts(texts: seq<string>)
    ensures |NonEmpty(texts)| <= |texts|
    ensures forall t :: t in NonEmpty(texts) <==> t in texts && t != []
  {
    if texts != [] {
      var init := texts[..|texts| - 1];
      NonEmptyFacts(init);
      assert texts == init + [texts[|texts| - 1]];
    }
  }
}
