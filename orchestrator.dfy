/**
  * The chat orchestrator: a message first passes the confirmation step
  * (a `confirm <token>` reply brings back the blocked message, a wrong
  * token gets the policy reply), then the destructive-command gate, then
  * the risk gate; only a message past both reaches the responder, and
  * only then does the session's history grow.
  *
  * The context builder and the language-model router are one parameter,
  * `respond`, a function of the session, the request text and the
  * history; the memory service is the field `memories`, holding the
  * texts handed to it.
  */
module Orchestrator {
  import opened Wrappers
  import opened Text
  import opened Values
  import opened Security
  import opened Audit
  import opened Planning
  import opened Confirmation

  /** One entry of a session's history. */
  datatype Turn = Turn(role: string, content: string)

  /** What the router's `generate` returns: the reply, the provider and the model. */
  datatype Generated = Generated(reply: string, provider: string, model: string)

  /** The context builder followed by the router: session, request text and history to a reply. */
  type Responder = (string, string, seq<Turn>) -> Generated

  /** The `risk` of a reply: the policy's bare `high`, or a full assessment. */
  datatype RiskView = PolicyHigh | Rated(assessment: RiskAssessment)

  /** The dict `chat` returns; `plan` is `None` where the dict holds `{}`. */
  datatype ChatReply = ChatReply(
    reply: string,
    provider: string,
    model: string,
    plan: Option<ExecutionPlan>,
    risk: RiskView,
    confirmationRequired: bool,
    token: Option<string>)

  /** Everything a chat can change: the pending confirmations, the histories, the stored memories and the audit log. */
  datatype ChatState = ChatState(
    pending: map<string, PendingConfirmation>,
    sessions: map<string, seq<Turn>>,
    memories: seq<(string, string)>,
    log: seq<AuditRecord>)

  /** A reply and the state after it. */
  datatype ChatOutcome = ChatOutcome(reply: ChatReply, state: ChatState)

  const PolicyProvider: string := "policy"
  const GateModel: string := "confirm_gate"
  const InvalidTokenText: string := "Invalid confirmation token. Use the exact token previously provided."
  const DestructiveReason: string := "Destructive command pattern detected"
  const BlockedEvent: string := "blocked.destructive"
  const GateEvent: string := "chat.confirmation_required"
  const CompletedEvent: string := "chat.completed"

  /** The reply to a `confirm …` whose token does not match. */
  const InvalidTokenReply: ChatReply := ChatReply(InvalidTokenText, PolicyProvider, GateModel, None, PolicyHigh, true, None)

  /** The risk reported for a destructive message. */
  const DestructiveRisk: RiskAssessment := RiskAssessment(High, 10, [DestructiveReason], true)

  /** The reply to a destructive message. */
  function BlockedReply(token: string): ChatReply
  {
    ChatReply("Risk level elevated. Confirmation required before destructive operations. Reply with: " + ConfirmReply(token),
              PolicyProvider, GateModel, None, Rated(DestructiveRisk), true, Some(token))
  }

  /** The reply to a high-risk message that was not confirmed. */
  function GatedReply(plan: ExecutionPlan, risk: RiskAssessment, token: string): ChatReply
  {
    ChatReply("Risk level " + LevelName(risk.level) + ". Confirmation required. Reply with: " + ConfirmReply(token),
              PolicyProvider, GateModel, Some(plan), Rated(risk), true, Some(token))
  }

  /** A session's history; `[]` for a session that has none. */
  function History(sessions: map<string, seq<Turn>>, sessionId: string): seq<Turn>
  {
    if sessionId in sessions then sessions[sessionId] else []
  }

  /** `"{id}. {task}"` for each step. */
  function StepLines(steps: seq<PlanStep>): (r: seq<string>)
    ensures |r| == |steps|
    ensures forall i :: 0 <= i < |steps| ==> r[i] == NatToString(steps[i].id) + ". " + steps[i].task
  {
    if steps == [] then []
    else StepLines(steps[..|steps| - 1]) + [NatToString(steps[|steps| - 1].id) + ". " + steps[|steps| - 1].task]
  }

  /** The reasons joined by `"; "`, or `none` when there are none. */
  function ReasonsText(reasons: seq<string>): string
  {
    if reasons == [] then "none" else Join(reasons, "; ")
  }

  const ObjectiveMarker: string := "[OBJECTIVE]\n"
  const RequestMarker: string := "[REQUEST]\n"

  /** The steps, then the risk section. */
  function StepsAndRisk(plan: ExecutionPlan, risk: RiskAssessment): string
  {
    Join(StepLines(plan.steps), "\n") + "\n[RISK]\n"
    + "level=" + LevelName(risk.level) + "; score=" + NatToString(risk.score) + "; reasons=" + ReasonsText(risk.reasons) + "\n"
  }

  /** The request text handed to the context builder: objective, steps, risk, then the message itself. */
  function RequestBody(plan: ExecutionPlan, risk: RiskAssessment, message: string): (r: string)
    ensures StartsWith(r, ObjectiveMarker + plan.objective)
    ensures |r| >= |RequestMarker + message|
    ensures r[|r| - |RequestMarker + message|..] == RequestMarker + message
  {
    var opening := ObjectiveMarker + plan.objective;
    var middle := "\n[PLAN_STEPS]\n" + StepsAndRisk(plan, risk);
    var closing := RequestMarker + message;
    ConcatEnds(opening, middle, closing);
    opening + middle + closing
  }

  /** A three-part concatenation starts with its first part and ends with its last. */
  lemma ConcatEnds(a: string, b: string, c: string)
    ensures StartsWith(a + b + c, a)
    ensures (a + b + c)[|a + b + c| - |c|..] == c
  {
    assert (a + b + c)[..|a|] == a;
  }

  /** The audit event for a blocked destructive message. */
  function BlockedRecord(now: string, sessionId: string, message: string, token: string): AuditRecord
  {
    RecordOf(now, BlockedEvent, [("session_id", Str(sessionId)), ("message", Str(message)), ("token", Str(token))])
  }

  /** The audit event for a gated message. */
  function GateRecord(now: string, sessionId: string, message: string, risk: RiskAssessment, token: string): AuditRecord
  {
    RecordOf(now, GateEvent, [("session_id", Str(sessionId)), ("user_message", Str(message)), ("token", Str(token)),
                              ("risk_level", Str(LevelName(risk.level)))])
  }

  /** The audit event for a completed chat. */
  function CompletedRecord(now: string, sessionId: string, message: string, g: Generated, plan: ExecutionPlan,
                           risk: RiskAssessment): AuditRecord
  {
    RecordOf(now, CompletedEvent, CompletedPayload(sessionId, message, g, plan, risk))
  }

  /** What the completion event records: who asked what, who answered what, the risk level and the number of steps. */
  function CompletedPayload(sessionId: string, message: string, g: Generated, plan: ExecutionPlan, risk: RiskAssessment)
    : seq<(string, Value)>
  {
    [("session_id", Str(sessionId)), ("provider", Str(g.provider)), ("model", Str(g.model)),
     ("user_message", Str(message)), ("reply", Str(g.reply)),
     ("risk_level", Str(LevelName(risk.level))), ("plan_steps", Int(|plan.steps|))]
  }

  /** Memory is kept only when asked for and the stripped message is longer than eight characters. */
  predicate Remembered(memoryOnChat: bool, message: string)
  {
    memoryOnChat && |Strip(message)| > 8
  }

  /** A destructive message: a new token for it replaces the session's entry, and the block is logged. */
  function Blocked(s: ChatState, sessionId: string, message: string, freshToken: string, now: string): ChatOutcome
  {
    ChatOutcome(BlockedReply(freshToken),
                s.(pending := s.pending[sessionId := PendingConfirmation(freshToken, message, now)],
                   log := s.log + [BlockedRecord(now, sessionId, message, freshToken)]))
  }

  /** A gated message: a new token for it replaces the session's entry, and the gate is logged. */
  function Gated(s: ChatState, sessionId: string, message: string, plan: ExecutionPlan, risk: RiskAssessment,
                 freshToken: string, now: string): ChatOutcome
  {
    ChatOutcome(GatedReply(plan, risk, freshToken),
                s.(pending := s.pending[sessionId := PendingConfirmation(freshToken, message, now)],
                   log := s.log + [GateRecord(now, sessionId, message, risk, freshToken)]))
  }

  /** A message past both gates: the responder answers, the turn is recorded, maybe remembered, and logged. */
  function Completed(s: ChatState, memoryOnChat: bool, sessionId: string, message: string, plan: ExecutionPlan,
                     risk: RiskAssessment, now: string, respond: Responder): ChatOutcome
  {
    var history := History(s.sessions, sessionId);
    var g := respond(sessionId, RequestBody(plan, risk, message), history);
    ChatOutcome(ChatReply(g.reply, g.provider, g.model, Some(plan), Rated(risk), false, None),
                s.(sessions := s.sessions[sessionId := history + [Turn("user", message), Turn("assistant", g.reply)]],
                   memories := if Remembered(memoryOnChat, message) then s.memories + [(sessionId, message)] else s.memories,
                   log := s.log + [CompletedRecord(now, sessionId, message, g, plan, risk)]))
  }

  /** The two gates, for the message after the confirmation step. */
  function Handled(s: ChatState, memoryOnChat: bool, sessionId: string, message: string, confirmed: bool,
                   freshToken: string, now: string, respond: Responder): ChatOutcome
  {
    if IsDestructiveCommand(message) then Blocked(s, sessionId, message, freshToken, now)
    else
      var plan := Plan(message);
      var risk := Assess(message, plan);
      if risk.confirmationRequired && !confirmed then Gated(s, sessionId, message, plan, risk, freshToken, now)
      else Completed(s, memoryOnChat, sessionId, message, plan, risk, now, respond)
  }

  /** The message the gates see: the stored original after a matching confirmation, else the user's own. */
  function EffectiveMessage(pending: map<string, PendingConfirmation>, sessionId: string, userMessage: string): string
  {
    var answer := ConsumeIfValidAnswer(pending, sessionId, userMessage);
    if answer.accepted then answer.original else userMessage
  }

  /**
    * `chat`. `freshToken` is what the random source yields if a token is
    * created and `now` the clock's reading.
    */
  function ChatResult(s: ChatState, memoryOnChat: bool, sessionId: string, userMessage: string, freshToken: string,
                      now: string, respond: Responder): ChatOutcome
  {
    var answer := ConsumeIfValidAnswer(s.pending, sessionId, userMessage);
    var after := s.(pending := ConsumeIfValidAfter(s.pending, sessionId, userMessage));
    if answer.accepted && answer.original == [] then ChatOutcome(InvalidTokenReply, after)
    else Handled(after, memoryOnChat, sessionId, EffectiveMessage(s.pending, sessionId, userMessage), answer.accepted,
                 freshToken, now, respond)
  }

  class ChatOrchestrator {
    const confirmation: ConfirmationManager
    const audit: AuditLog
    const memoryOnChat: bool
    /** The history of each session, oldest turn first. */
    var sessions: map<string, seq<Turn>>
    /** The `(session, text)` pairs handed to the memory service, oldest first. */
    var memories: seq<(string, string)>

    predicate Valid()
      reads this, confirmation
    {
      confirmation.Valid()
    }

    constructor(audit: AuditLog, memoryOnChat: bool)
      ensures this.audit == audit && this.memoryOnChat == memoryOnChat
      ensures fresh(confirmation) && confirmation.pending == map[]
      ensures sessions == map[] && memories == []
      ensures Valid()
    {
      this.audit := audit;
      this.memoryOnChat := memoryOnChat;
      confirmation := new ConfirmationManager();
      sessions := map[];
      memories := [];
    }

    /** The state a chat reads and changes. */
    function State(): ChatState
      reads this, confirmation, audit
    {
      ChatState(confirmation.pending, sessions, memories, audit.records)
    }

    /** `session_history`: a copy of the session's turns, `[]` for a session never seen. */
    function SessionHistory(sessionId: string): (r: seq<Turn>)
      reads this
      ensures sessionId !in sessions ==> r == []
      ensures sessionId in sessions ==> r == sessions[sessionId]
    {
      History(sessions, sessionId)
    }

    /** `chat`. */
    method Chat(sessionId: string, userMessage: string, freshToken: string, now: string, respond: Responder)
      returns (out: ChatReply)
      requires Valid() && IsToken(freshToken)
      modifies this, confirmation, audit
      ensures Valid()
      ensures ChatOutcome(out, State()) == ChatResult(old(State()), memoryOnChat, sessionId, userMessage, freshToken, now, respond)
    {
      var answer := confirmation.ConsumeIfValid(sessionId, userMessage);
      if answer.accepted && answer.original == [] {
        return InvalidTokenReply;
      }
      var message := if answer.accepted then answer.original else userMessage;
      out := Handle(sessionId, message, answer.accepted, freshToken, now, respond);
    }

    /** The destructive gate, then the plan, the risk and the risk gate. */
    method Handle(sessionId: string, message: string, confirmed: bool, freshToken: string, now: string, respond: Responder)
      returns (out: ChatReply)
      requires Valid() && IsToken(freshToken)
      modifies this, confirmation, audit
      ensures Valid()
      ensures ChatOutcome(out, State()) == Handled(old(State()), memoryOnChat, sessionId, message, confirmed, freshToken, now, respond)
    {
      if IsDestructiveCommand(message) {
        out := Block(sessionId, message, freshToken, now);
        return;
      }
      var plan := BuildPlan(message);
      var risk := Evaluate(message, plan);
      if risk.confirmationRequired && !confirmed {
        out := Gate(sessionId, message, plan, risk, freshToken, now);
      } else {
        out := Complete(sessionId, message, plan, risk, now, respond);
      }
    }

    /** A destructive message: create a token for it and log the block. */
    method Block(sessionId: string, message: string, freshToken: string, now: string) returns (out: ChatReply)
      requires Valid() && IsToken(freshToken)
      modifies confirmation, audit
      ensures Valid()
      ensures ChatOutcome(out, State()) == Blocked(old(State()), sessionId, message, freshToken, now)
    {
      var token := confirmation.Create(sessionId, message, freshToken, now);
      audit.Write(BlockedEvent, [("session_id", Str(sessionId)), ("message", Str(message)), ("token", Str(token))], now);
      out := BlockedReply(token);
    }

    /** A high-risk message not confirmed: create a token for it and log the gate. */
    method Gate(sessionId: string, message: string, plan: ExecutionPlan, risk: RiskAssessment, freshToken: string, now: string)
      returns (out: ChatReply)
      requires Valid() && IsToken(freshToken)
      modifies confirmation, audit
      ensures Valid()
      ensures ChatOutcome(out, State()) == Gated(old(State()), sessionId, message, plan, risk, freshToken, now)
    {
      var token := confirmation.Create(sessionId, message, freshToken, now);
      audit.Write(GateEvent, [("session_id", Str(sessionId)), ("user_message", Str(message)), ("token", Str(token)),
                              ("risk_level", Str(LevelName(risk.level)))], now);
      out := GatedReply(plan, risk, token);
    }

    /** Past both gates: ask the responder, record the turn, maybe remember the message, and log. */
    method Complete(sessionId: string, message: string, plan: ExecutionPlan, risk: RiskAssessment, now: string, respond: Responder)
      returns (out: ChatReply)
      modifies this, audit
      ensures ChatOutcome(out, State()) == Completed(old(State()), memoryOnChat, sessionId, message, plan, risk, now, respond)
    {
      if sessionId !in sessions {
        sessions := sessions[sessionId := []];
      }
      var history := sessions[sessionId];
      assert history == History(old(sessions), sessionId);
      var g := respond(sessionId, RequestBody(plan, risk, message), history);
      var turns := [Turn("user", message), Turn("assistant", g.reply)];
      sessions := sessions[sessionId := sessions[sessionId] + [turns[0]]];
      sessions := sessions[sessionId := sessions[sessionId] + [turns[1]]];
      assert sessions[sessionId] == history + turns;
      assert sessions == old(sessions)[sessionId := history + turns];
      if memoryOnChat && |Strip(message)| > 8 {
        memories := memories + [(sessionId, message)];
      }
      audit.Write(CompletedEvent, CompletedPayload(sessionId, message, g, plan, risk), now);
      out := ChatReply(g.reply, g.provider, g.model, Some(plan), Rated(risk), false, None);
    }
  }

  /**
    * A `confirm …` reply whose token is not the session's pending one
    * gets the policy reply, with no token, and changes nothing: the
    * pending entry stays, no turn is recorded and nothing is logged.
    */
  lemma InvalidTokenPolicy(s: ChatState, memoryOnChat: bool, sessionId: string, userMessage: string, freshToken: string,
                           now: string, respond: Responder)
    requires sessionId in s.pending && StartsWith(Normalize(userMessage), ConfirmPrefix)
    requires Normalize(userMessage) != ConfirmReply(s.pending[sessionId].token)
    ensures ChatResult(s, memoryOnChat, sessionId, userMessage, freshToken, now, respond) == ChatOutcome(InvalidTokenReply, s)
  {
  }

  /**
    * The policy reply is given exactly when the confirmation step
    * accepts a reply but hands back no message; it is the only reply
    * that carries neither a token nor a response.
    */
  lemma PolicyReplyIff(s: ChatState, memoryOnChat: bool, sessionId: string, userMessage: string, freshToken: string,
                       now: string, respond: Responder)
    ensures var o := ChatResult(s, memoryOnChat, sessionId, userMessage, freshToken, now, respond);
      o.reply == InvalidTokenReply <==> ConsumeIfValidAnswer(s.pending, sessionId, userMessage) == Answer(true, "")
    ensures var o := ChatResult(s, memoryOnChat, sessionId, userMessage, freshToken, now, respond);
      o.reply.confirmationRequired && o.reply.token.None? <==> o.reply == InvalidTokenReply
  {
    ChatCases(s, memoryOnChat, sessionId, userMessage, freshToken, now, respond);
    var answer := ConsumeIfValidAnswer(s.pending, sessionId, userMessage);
    if answer != Answer(true, "") {
      HandledFacts(s.(pending := ConsumeIfValidAfter(s.pending, sessionId, userMessage)), memoryOnChat, sessionId,
                   EffectiveMessage(s.pending, sessionId, userMessage), answer.accepted, freshToken, now, respond);
    }
  }

  /**
    * A reply `confirm <token>` with the session's pending token removes
    * the entry and puts the stored message, not the reply, through the
    * gates, as confirmed.
    */
  lemma ConfirmedReplays(s: ChatState, memoryOnChat: bool, sessionId: string, userMessage: string, freshToken: string,
                         now: string, respond: Responder)
    requires sessionId in s.pending && Normalize(userMessage) == ConfirmReply(s.pending[sessionId].token)
    requires s.pending[sessionId].originalMessage != []
    ensures ChatResult(s, memoryOnChat, sessionId, userMessage, freshToken, now, respond)
         == Handled(s.(pending := s.pending - {sessionId}), memoryOnChat, sessionId, s.pending[sessionId].originalMessage,
                    true, freshToken, now, respond)
  {
  }

  /** A message that is no `confirm …` reply for a pending entry goes through the gates as itself, unconfirmed. */
  lemma UnconfirmedPassesAsIs(s: ChatState, memoryOnChat: bool, sessionId: string, userMessage: string, freshToken: string,
                              now: string, respond: Responder)
    requires sessionId !in s.pending || !StartsWith(Normalize(userMessage), ConfirmPrefix)
    ensures ChatResult(s, memoryOnChat, sessionId, userMessage, freshToken, now, respond)
         == Handled(s, memoryOnChat, sessionId, userMessage, false, freshToken, now, respond)
  {

  }

  /** What a block leaves: a token in the reply, one record logged, no turn and no memory. */
  lemma BlockedFacts(s: ChatState, sessionId: string, message: string, freshToken: string, now: string)
    ensures var o := Blocked(s, sessionId, message, freshToken, now);
      o.reply.confirmationRequired && o.reply.token == Some(freshToken) && o.reply.plan.None?
      && o.reply.risk == Rated(DestructiveRisk)
      && o.state.pending == s.pending[sessionId := PendingConfirmation(freshToken, message, now)]
      && o.state.sessions == s.sessions && o.state.memories == s.memories
      && o.state.log == s.log + [BlockedRecord(now, sessionId, message, freshToken)]
      && o.state.log[|s.log|].event == BlockedEvent
  {
  }

  /** What the risk gate leaves: a token in the reply, one record logged, no turn and no memory. */
  lemma GatedFacts(s: ChatState, sessionId: string, message: string, plan: ExecutionPlan, risk: RiskAssessment,
                   freshToken: string, now: string)
    ensures var o := Gated(s, sessionId, message, plan, risk, freshToken, now);
      o.reply.confirmationRequired && o.reply.token == Some(freshToken) && o.reply.plan == Some(plan)
      && o.reply.risk == Rated(risk)
      && o.state.pending == s.pending[sessionId := PendingConfirmation(freshToken, message, now)]
      && o.state.sessions == s.sessions && o.state.memories == s.memories
      && o.state.log == s.log + [GateRecord(now, sessionId, message, risk, freshToken)]
      && o.state.log[|s.log|].event == GateEvent
  {
  }

  /**
    * Past both gates, the session's history grows by the user's message
    * then the reply, other sessions keep theirs, the pending
    * confirmations are untouched, one record is logged and the reply
    * needs no confirmation.
    */
  lemma CompletedFacts(s: ChatState, memoryOnChat: bool, sessionId: string, message: string, plan: ExecutionPlan,
                       risk: RiskAssessment, now: string, respond: Responder)
    ensures var o := Completed(s, memoryOnChat, sessionId, message, plan, risk, now, respond);
      History(o.state.sessions, sessionId) == History(s.sessions, sessionId) + [Turn("user", message), Turn("assistant", o.reply.reply)]
    ensures var o := Completed(s, memoryOnChat, sessionId, message, plan, risk, now, respond);
      forall other :: other != sessionId ==> History(o.state.sessions, other) == History(s.sessions, other)
    ensures var o := Completed(s, memoryOnChat, sessionId, message, plan, risk, now, respond);
      !o.reply.confirmationRequired && o.reply.token.None? && o.reply.plan == Some(plan) && o.reply.risk == Rated(risk)
      && o.state.pending == s.pending && o.state.sessions != s.sessions
    ensures var o := Completed(s, memoryOnChat, sessionId, message, plan, risk, now, respond);
      o.state.memories == if Remembered(memoryOnChat, message) then s.memories + [(sessionId, message)] else s.memories
    ensures var o := Completed(s, memoryOnChat, sessionId, message, plan, risk, now, respond);
      |o.state.log| == |s.log| + 1 && o.state.log[..|s.log|] == s.log && o.state.log[|s.log|].event == CompletedEvent
  {
    var o := Completed(s, memoryOnChat, sessionId, message, plan, risk, now, respond);
    assert |History(o.state.sessions, sessionId)| == |History(s.sessions, sessionId)| + 2;
    assert o.state.log[..|s.log|] == s.log;
  }

  /** A destructive message is blocked whether or not it was just confirmed. */
  lemma DestructiveAlwaysBlocked(s: ChatState, memoryOnChat: bool, sessionId: string, message: string, confirmed: bool,
                                 freshToken: string, now: string, respond: Responder)
    requires IsDestructiveCommand(message)
    ensures Handled(s, memoryOnChat, sessionId, message, confirmed, freshToken, now, respond)
         == Blocked(s, sessionId, message, freshToken, now)
  {
  }

  /** A message that is not destructive and is confirmed or needs no confirmation reaches the responder. */
  lemma PastBothGates(s: ChatState, memoryOnChat: bool, sessionId: string, message: string, confirmed: bool,
                      freshToken: string, now: string, respond: Responder)
    requires !IsDestructiveCommand(message)
    requires confirmed || !Assess(message, Plan(message)).confirmationRequired
    ensures Handled(s, memoryOnChat, sessionId, message, confirmed, freshToken, now, respond)
         == Completed(s, memoryOnChat, sessionId, message, Plan(message), Assess(message, Plan(message)), now, respond)
  {
  }

  /**
    * Confirming a destructive message does not release it: the stored
    * message is blocked again under a new token, so a destructive
    * message never reaches the responder.
    */
  lemma ConfirmedDestructiveBlockedAgain(s: ChatState, memoryOnChat: bool, sessionId: string, reply: string,
                                         freshToken: string, now: string, respond: Responder)
    requires sessionId in s.pending && IsToken(s.pending[sessionId].token)
    requires Lower(reply) == ConfirmReply(s.pending[sessionId].token)
    requires IsDestructiveCommand(s.pending[sessionId].originalMessage)
    ensures ChatResult(s, memoryOnChat, sessionId, reply, freshToken, now, respond)
         == Blocked(s.(pending := s.pending - {sessionId}), sessionId, s.pending[sessionId].originalMessage, freshToken, now)
  {
    var entry := s.pending[sessionId];
    assert s.pending[sessionId := entry] == s.pending;
    ConfirmRoundTrip(s.pending, sessionId, entry.originalMessage, entry.token, entry.createdAt, reply);
  }

  /**
    * A message holding a high-risk term that is not destructive and was
    * not confirmed stops at the gate with its plan and risk.
    */
  lemma {:induction false} HighRiskGated(s: ChatState, memoryOnChat: bool, sessionId: string, before: string, k: nat,
                                         after: string, freshToken: string, now: string, respond: Responder)
    requires k < |HighRiskTerms| && !IsDestructiveCommand(before + HighRiskTerms[k] + after)
    ensures var message := before + HighRiskTerms[k] + after;
      Handled(s, memoryOnChat, sessionId, message, false, freshToken, now, respond)
      == Gated(s, sessionId, message, Plan(message), Assess(message, Plan(message)), freshToken, now)
  {
    var message := before + HighRiskTerms[k] + after;
    HighTermForcesConfirmation(before, k, after, Plan(message));
  }

  /** A blank message is never gated: it holds no risk term and its plan is short. */
  lemma BlankNotGated(plan: ExecutionPlan)
    ensures !Assess("", plan).confirmationRequired
  {
    NoHits(Lower(""), HighRiskTerms);
    NoHits(Lower(""), MediumRiskTerms);
  }

  /**
    * What every message that reaches the gates leaves: one record, whose
    * event is the completion exactly when no confirmation is needed; a
    * turn exactly when no confirmation is needed; and a memory exactly
    * when, in addition, the message is to be remembered.
    */
  lemma HandledFacts(s: ChatState, memoryOnChat: bool, sessionId: string, message: string, confirmed: bool,
                     freshToken: string, now: string, respond: Responder)
    ensures var o := Handled(s, memoryOnChat, sessionId, message, confirmed, freshToken, now, respond);
      (o.reply.confirmationRequired ==> o.reply.token.Some?)
      && |o.state.log| == |s.log| + 1 && o.state.log[..|s.log|] == s.log
      && (o.state.log[|s.log|].event == CompletedEvent <==> !o.reply.confirmationRequired)
      && (o.state.sessions == s.sessions <==> o.reply.confirmationRequired)
    ensures var o := Handled(s, memoryOnChat, sessionId, message, confirmed, freshToken, now, respond);
      o.state.memories == if !o.reply.confirmationRequired && Remembered(memoryOnChat, message)
                          then s.memories + [(sessionId, message)] else s.memories
  {
    var o := Handled(s, memoryOnChat, sessionId, message, confirmed, freshToken, now, respond);
    if IsDestructiveCommand(message) {
      assert o == Blocked(s, sessionId, message, freshToken, now);
      BlockedFacts(s, sessionId, message, freshToken, now);
      assert (s.log + [BlockedRecord(now, sessionId, message, freshToken)])[..|s.log|] == s.log;
    } else {
      var plan := Plan(message);
      var risk := Assess(message, plan);
      if risk.confirmationRequired && !confirmed {
        assert o == Gated(s, sessionId, message, plan, risk, freshToken, now);
        GatedFacts(s, sessionId, message, plan, risk, freshToken, now);
        assert (s.log + [GateRecord(now, sessionId, message, risk, freshToken)])[..|s.log|] == s.log;
      } else {
        assert o == Completed(s, memoryOnChat, sessionId, message, plan, risk, now, respond);
        CompletedFacts(s, memoryOnChat, sessionId, message, plan, risk, now, respond);
      }
    }
  }

  /**
    * The two ways a chat goes: the policy reply, with nothing but the
    * pending table touched, or the gates, with the facts every gated or
    * answered message leaves.
    */
  lemma ChatCases(s: ChatState, memoryOnChat: bool, sessionId: string, userMessage: string, freshToken: string,
                  now: string, respond: Responder)
    ensures var answer := ConsumeIfValidAnswer(s.pending, sessionId, userMessage);
      var after := s.(pending := ConsumeIfValidAfter(s.pending, sessionId, userMessage));
      var o := ChatResult(s, memoryOnChat, sessionId, userMessage, freshToken, now, respond);
      if answer == Answer(true, "") then o == ChatOutcome(InvalidTokenReply, after)
      else o == Handled(after, memoryOnChat, sessionId, EffectiveMessage(s.pending, sessionId, userMessage), answer.accepted,
                        freshToken, now, respond)
  {
  }

  /**
    * The memory service receives the message exactly when the chat
    * completes, memory on chat is enabled and the stripped message is
    * longer than eight characters; it receives nothing else.
    */
  lemma MemoryRule(s: ChatState, memoryOnChat: bool, sessionId: string, userMessage: string, freshToken: string,
                   now: string, respond: Responder)
    ensures var o := ChatResult(s, memoryOnChat, sessionId, userMessage, freshToken, now, respond);
      o.state.memories
      == if !o.reply.confirmationRequired && Remembered(memoryOnChat, EffectiveMessage(s.pending, sessionId, userMessage))
         then s.memories + [(sessionId, EffectiveMessage(s.pending, sessionId, userMessage))] else s.memories
  {
    ChatCases(s, memoryOnChat, sessionId, userMessage, freshToken, now, respond);
    var answer := ConsumeIfValidAnswer(s.pending, sessionId, userMessage);
    if answer != Answer(true, "") {
      HandledFacts(s.(pending := ConsumeIfValidAfter(s.pending, sessionId, userMessage)), memoryOnChat, sessionId,
                   EffectiveMessage(s.pending, sessionId, userMessage), answer.accepted, freshToken, now, respond);
    }
  }

  /**
    * A chat writes at most one audit record: none for the policy reply,
    * else one whose event is the completion exactly when no
    * confirmation is needed.
    */
  lemma OneRecordPerChat(s: ChatState, memoryOnChat: bool, sessionId: string, userMessage: string, freshToken: string,
                         now: string, respond: Responder)
    ensures var o := ChatResult(s, memoryOnChat, sessionId, userMessage, freshToken, now, respond);
      o.reply == InvalidTokenReply ==> o.state.log == s.log
    ensures var o := ChatResult(s, memoryOnChat, sessionId, userMessage, freshToken, now, respond);
      o.reply != InvalidTokenReply ==>
        |o.state.log| == |s.log| + 1 && o.state.log[..|s.log|] == s.log
        && (o.state.log[|s.log|].event == CompletedEvent <==> !o.reply.confirmationRequired)
  {
    ChatCases(s, memoryOnChat, sessionId, userMessage, freshToken, now, respond);
    var answer := ConsumeIfValidAnswer(s.pending, sessionId, userMessage);
    if answer != Answer(true, "") {
      HandledFacts(s.(pending := ConsumeIfValidAfter(s.pending, sessionId, userMessage)), memoryOnChat, sessionId,
                   EffectiveMessage(s.pending, sessionId, userMessage), answer.accepted, freshToken, now, respond);
    }
  }

  /** A reply needs confirmation exactly when no turn was recorded. */
  lemma ConfirmationIffNoTurn(s: ChatState, memoryOnChat: bool, sessionId: string, userMessage: string, freshToken: string,
                              now: string, respond: Responder)
    ensures var o := ChatResult(s, memoryOnChat, sessionId, userMessage, freshToken, now, respond);
      o.reply.confirmationRequired <==> o.state.sessions == s.sessions
  {
    ChatCases(s, memoryOnChat, sessionId, userMessage, freshToken, now, respond);
    var answer := ConsumeIfValidAnswer(s.pending, sessionId, userMessage);
    if answer != Answer(true, "") {
      HandledFacts(s.(pending := ConsumeIfValidAfter(s.pending, sessionId, userMessage)), memoryOnChat, sessionId,
                   EffectiveMessage(s.pending, sessionId, userMessage), answer.accepted, freshToken, now, respond);
    }
  }

  /**
    * The round trip: a high-risk message is gated with a token, and the
    * reply `confirm <token>`, in any letter case, completes that message
    * (not the reply) without asking again.
    */
  lemma GateThenConfirmCompletes(s: ChatState, memoryOnChat: bool, sessionId: string, message: string, token: string,
                                 now: string, reply: string, freshToken: string, later: string, respond: Responder)
    requires IsToken(token) && Lower(reply) == ConfirmReply(token)
    requires !IsDestructiveCommand(message) && Assess(message, Plan(message)).confirmationRequired
    ensures var gated := Handled(s, memoryOnChat, sessionId, message, false, token, now, respond);
      gated.reply.token == Some(token)
      && ChatResult(gated.state, memoryOnChat, sessionId, reply, freshToken, later, respond)
         == Completed(gated.state.(pending := s.pending - {sessionId}), memoryOnChat, sessionId, message,
                      Plan(message), Assess(message, Plan(message)), later, respond)
  {
    var gated := Handled(s, memoryOnChat, sessionId, message, false, token, now, respond);
    assert message != [] by {
      if message == [] {
        BlankNotGated(Plan(message));
      }
    }
    ConfirmRoundTrip(s.pending, sessionId, message, token, now, reply);
  }
}
