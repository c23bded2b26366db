/**
 * The ERP router agent (the second router): the same classify, govern,
 * route and log pipeline as the smart router, with smaller keyword lists, a
 * shorter risk notice, agents whose output is returned as it is, and a
 * failure path that logs the bare exception message.
 */
module ErpRouter {
  import opened Text
  import opened Classification
  import opened Governance
  import opened Orchestration

  /** The keyword lists of the score dictionary, one per domain. */
  const Keywords: KeywordTable := KeywordTable(
    ["customer", "lead", "order", "sale", "client"],
    ["invoice", "payment", "accounting", "budget", "financial"],
    ["stock", "product", "warehouse", "item"],
    ["report", "dashboard", "metric", "chart", "insight"])

  const UnableToClassify: string := "\U{2753} Unable to classify request."

  /** `execute_with_<domain>_agent`: the agent's output as it is, or its exception turned into a string. */
  function ExecuteWithAgent(agentName: string, outcome: AgentOutcome): string {
    match outcome
    case Output(text) => text
    case AgentRaised(error) => agentName + " Agent Error: " + error
  }

  /** The if/elif chain that picks the agent for a domain name: the functional form of `RunAgent`, used by `RouteTurn`. */
  function Dispatch(domain: string, agents: Agents): string {
    if domain == "sales" then ExecuteWithAgent("Sales", agents.sales)
    else if domain == "finance" then ExecuteWithAgent("Finance", agents.finance)
    else if domain == "inventory" then ExecuteWithAgent("Inventory", agents.inventory)
    else if domain == "analytics" then ExecuteWithAgent("Analytics", agents.analytics)
    else UnableToClassify
  }

  /** The answer to a request held for approval. */
  function RiskNotice(gov: Decision): string {
    "\U{26A0}\U{FE0F} Request flagged as " + RiskName(gov.riskLevel) + " risk. Reasons: " + Join(gov.reasons, ", ")
  }

  /** The answer of a turn whose routing step raised `error`; the log rows keep `error` alone. */
  function RoutingError(error: string): string {
    "Error routing request: " + error
  }

  /** Steps 3 to 6 of `classify_and_route` for the domain it settled on, as a value: what they append and what they answer. */
  function RouteTurn(sessionId: string, userId: string, request: string, domain: string, agents: Agents, faults: Faults): Turn {
    var gov := Verdict(Reasons(request, domain));
    if gov.needsApproval then
      if faults.approvalInsert.Some? then Turn(NothingAppended, Raises(faults.approvalInsert.value))
      else
        var row := ApprovalRow(sessionId, userId, request, domain, PendingStatus, Join(gov.reasons, ", "));
        Turn(Appended([row], [], [], []), Returns(RiskNotice(gov)))
    else
      var output := Dispatch(domain, agents);
      var failure := MemoryError(faults);
      var logged := if failure.None? then output else failure.value;
      var answer := if failure.None? then output else RoutingError(failure.value);
      var success := failure.None?;
      Turn(
        Appended(
          [],
          UnlessRaised(faults.toolCallInsert, ToolCallRow(sessionId, userId, domain, request, logged, success)),
          UnlessRaised(faults.conversationInsert, ConversationRow(sessionId, userId, request, logged, domain, success)),
          Remembered(faults, request, output)),
        Returns(answer))
  }

  /** `classify_and_route`, step by step over the audit store and the chat memory. */
  method ClassifyAndRoute(store: AuditStore, memory: ChatMemory, request: string, reply: LlmReply, agents: Agents, faults: Faults)
    returns (response: Response)
    modifies store, memory
    ensures var turn := RouteTurn(store.sessionId, store.userId, request, Token(Classify(reply, Keywords, request)), agents, faults);
      && response == turn.response
      && store.approvals == old(store.approvals) + turn.appended.approvals
      && store.toolCalls == old(store.toolCalls) + turn.appended.toolCalls
      && store.conversations == old(store.conversations) + turn.appended.conversations
      && memory.messages == old(memory.messages) + turn.appended.memory
  {
    // The LLM's domain, and the keyword scores on "unknown".
    var classified := LlmClassify(reply);
    var domain: Domain;
    if classified.None? {
      domain := KeywordFallback(Keywords, request);
    } else {
      domain := classified.value;
    }
    response := Route(store, memory, request, Token(domain), agents, faults);
  }

  /** Governance, routing, memory and logging, once the domain is settled. */
  method Route(store: AuditStore, memory: ChatMemory, request: string, domain: string, agents: Agents, faults: Faults)
    returns (response: Response)
    modifies store, memory
    ensures var turn := RouteTurn(store.sessionId, store.userId, request, domain, agents, faults);
      && response == turn.response
      && store.approvals == old(store.approvals) + turn.appended.approvals
      && store.toolCalls == old(store.toolCalls) + turn.appended.toolCalls
      && store.conversations == old(store.conversations) + turn.appended.conversations
      && memory.messages == old(memory.messages) + turn.appended.memory
  {
    var gov := CheckGovernance(request, domain);
    if gov.needsApproval {
      var raised := store.InsertApproval(request, domain, Join(gov.reasons, ", "), faults.approvalInsert);
      if raised.Some? {
        return Raises(raised.value);
      }
      return Returns(RiskNotice(gov));
    }

    var output := RunAgent(domain, agents);

    // A failure of the memory is the one exception the try block can catch.
    var failure := memory.Add(UserMessage(request), faults.userMessage);
    if failure.None? {
      failure := memory.Add(AiMessage(output), faults.aiMessage);
    }

    if failure.None? {
      store.LogToolCall(domain, request, output, true, faults.toolCallInsert);
      store.LogConversation(request, output, domain, true, faults.conversationInsert);
      response := Returns(output);
    } else {
      store.LogToolCall(domain, request, failure.value, false, faults.toolCallInsert);
      store.LogConversation(request, failure.value, domain, false, faults.conversationInsert);
      response := Returns(RoutingError(failure.value));
    }
  }

  /**
   * The if/elif chain that runs the agent of the domain. Each domain's token
   * reaches that domain's own agent; any other name reaches the "Unable to
   * classify" answer.
   */
  method RunAgent(domain: string, agents: Agents) returns (output: string)
    ensures forall d: Domain :: domain == Token(d) ==> output == ExecuteWithAgent(AgentName(d), AgentOf(agents, d))
    ensures domain !in DomainTokens ==> output == UnableToClassify
    ensures output == Dispatch(domain, agents)
  {
    if domain == "sales" {
      output := ExecuteWithAgent("Sales", agents.sales);
    } else if domain == "finance" {
      output := ExecuteWithAgent("Finance", agents.finance);
    } else if domain == "inventory" {
      output := ExecuteWithAgent("Inventory", agents.inventory);
    } else if domain == "analytics" {
      output := ExecuteWithAgent("Analytics", agents.analytics);
    } else {
      output := UnableToClassify;
    }
    forall d: Domain | domain == Token(d)
      ensures output == ExecuteWithAgent(AgentName(d), AgentOf(agents, d))
    {
      DomainHasAgent(d, agents);
    }
  }

  /**
   * A flagged request appends exactly one PENDING approval row, for its
   * domain and with its reasons joined by ", ", and nothing else; it answers
   * with the short risk notice.
   */
  lemma FlaggedTurnAwaitsApproval(sessionId: string, userId: string, request: string, domain: string, agents: Agents, faults: Faults)
    requires Risky(request, domain)
    requires faults.approvalInsert.None?
    ensures var reasons := Reasons(request, domain);
      && reasons != []
      && RouteTurn(sessionId, userId, request, domain, agents, faults)
         == Turn(Appended([ApprovalRow(sessionId, userId, request, domain, "PENDING", Join(reasons, ", "))], [], [], []),
                 Returns("\U{26A0}\U{FE0F} Request flagged as HIGH risk. Reasons: " + Join(reasons, ", ")))
  {
    ReasonsEmptyIff(request, domain);
    assert "\U{26A0}\U{FE0F} Request flagged as " + RiskName(High) + " risk. Reasons: "
        == "\U{26A0}\U{FE0F} Request flagged as HIGH risk. Reasons: ";
  }

  /** A flagged request invokes no agent and touches no memory: what the agents would answer makes no difference. */
  lemma FlaggedTurnInvokesNoAgent(sessionId: string, userId: string, request: string, domain: string, agents1: Agents, agents2: Agents, faults: Faults)
    requires Risky(request, domain)
    ensures RouteTurn(sessionId, userId, request, domain, agents1, faults) == RouteTurn(sessionId, userId, request, domain, agents2, faults)
    ensures RouteTurn(sessionId, userId, request, domain, agents1, faults).appended.memory == []
  {
    ReasonsEmptyIff(request, domain);
  }

  /**
   * A request that is not flagged appends no approval, one tool-call row and
   * one conversation row (each unless its own insert fails) with the same
   * success flag. On success both rows and the answer hold the agent's
   * output; on a failure both rows hold the bare message and the caller gets
   * it behind "Error routing request: ".
   */
  lemma ClearTurnLogsOnce(sessionId: string, userId: string, request: string, domain: string, agents: Agents, faults: Faults)
    requires !Risky(request, domain)
    ensures var turn := RouteTurn(sessionId, userId, request, domain, agents, faults);
      var failure := MemoryError(faults);
      var logged := if failure.None? then Dispatch(domain, agents) else failure.value;
      && turn.appended.approvals == []
      && turn.appended.toolCalls == UnlessRaised(faults.toolCallInsert, ToolCallRow(sessionId, userId, domain, request, logged, failure.None?))
      && turn.appended.conversations == UnlessRaised(faults.conversationInsert, ConversationRow(sessionId, userId, request, logged, domain, failure.None?))
      && (failure.None? ==> turn.response == Returns(Dispatch(domain, agents))
                            && turn.appended.memory == [UserMessage(request), AiMessage(Dispatch(domain, agents))])
      && (failure.Some? ==> turn.response == Returns("Error routing request: " + failure.value))
  {
    ReasonsEmptyIff(request, domain);
  }

  /** An agent's exception never reaches the caller: it comes back as "<Domain> Agent Error: ..." text, which the pipeline handles as the agent's output. */
  lemma AgentErrorIsAnAnswer(domain: Domain, agents: Agents, error: string)
    requires AgentOf(agents, domain) == AgentRaised(error)
    ensures Dispatch(Token(domain), agents) == AgentName(domain) + " Agent Error: " + error
  {
    DomainHasAgent(domain, agents);
  }

  /** Each of the four domains reaches its own agent; the "Unable to classify" branch is not taken for any of them. */
  lemma DomainHasAgent(domain: Domain, agents: Agents)
    ensures Dispatch(Token(domain), agents) == ExecuteWithAgent(AgentName(domain), AgentOf(agents, domain))
  {
  }

  /** After classification the domain always has an agent. */
  lemma ClassifiedDomainHasAgent(reply: LlmReply, request: string, agents: Agents)
    ensures var domain := Classify(reply, Keywords, request);
      Dispatch(Token(domain), agents) == ExecuteWithAgent(AgentName(domain), AgentOf(agents, domain))
  {
    DomainHasAgent(Classify(reply, Keywords, request), agents);
  }
}
