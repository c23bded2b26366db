/**
 * The smart router agent: `classify_and_route` classifies a request (LLM
 * first, keyword scores on `"unknown"`), runs the governance check for that
 * domain, and either records a PENDING approval and answers with a risk
 * notice, or runs the domain's agent, records the turn in the chat memory and
 * logs one tool call and one conversation.
 */
module SmartRouter {
  import opened Wrappers
  import opened Text
  import opened Classification
  import opened Governance
  import opened Orchestration

  /** The keyword lists of the score dictionary, one per domain. */
  const Keywords: KeywordTable := KeywordTable(
    ["customer", "lead", "prospect", "sale", "order", "crm", "contact", "deal", "client"],
    ["invoice", "payment", "accounting", "revenue", "expense", "budget", "financial", "money", "cost"],
    ["stock", "inventory", "product", "warehouse", "supply", "procurement", "vendor", "item"],
    ["report", "analytics", "dashboard", "metrics", "analysis", "trend", "chart", "insight"])

  const UnableToClassify: string := "\U{2753} Unable to classify request."

  /** `execute_with_<domain>_agent`: the agent's output under a banner, or its exception turned into a string. */
  function ExecuteWithAgent(agentName: string, outcome: AgentOutcome): string {
    match outcome
    case Output(text) => agentName + " Agent Response: " + text
    case AgentRaised(error) => agentName + " Agent Error: " + error
  }

  /** The if/elif chain that picks the agent for a domain name: the functional form of `RunAgent`, used by `RouteTurn`. */
  function Dispatch(domain: string, agents: Agents): string {
    if domain == "sales" then ExecuteWithAgent("Sales", agents.sales)
    else if domain == "finance" then ExecuteWithAgent("Finance", agents.finance)
    else if domain == "inventory" then ExecuteWithAgent("Inventory", agents.inventory)
    else if domain == "analytics" then ExecuteWithAgent("Analytics", agents.analytics)
    else UnableToClassify
  }

  /** The answer to a request held for approval. */
  function RiskNotice(gov: Decision): string {
    "\U{26A0}\U{FE0F} This request is flagged as " + RiskName(gov.riskLevel)
      + " risk and requires approval.\nReasons: " + Join(gov.reasons, ", ")
  }

  /** The error string of a turn whose routing step raised `error`. */
  function RoutingError(domain: string, error: string): string {
    "Error routing to " + domain + " agent: " + error
  }

  /** Steps 3 to 6 of `classify_and_route` for the domain it settled on, as a value: what they append and what they answer. */
  function RouteTurn(sessionId: string, userId: string, request: string, domain: string, agents: Agents, faults: Faults): Turn {
    var gov := Verdict(Reasons(request, domain));
    if gov.needsApproval then
      if faults.approvalInsert.Some? then Turn(NothingAppended, Raises(faults.approvalInsert.value))
      else
        var row := ApprovalRow(sessionId, userId, request, domain, PendingStatus, Join(gov.reasons, ", "));
        Turn(Appended([row], [], [], []), Returns(RiskNotice(gov)))
    else
      var result := Dispatch(domain, agents);
      var failure := MemoryError(faults);
      var output := if failure.None? then result else RoutingError(domain, failure.value);
      var success := failure.None?;
      Turn(
        Appended(
          [],
          UnlessRaised(faults.toolCallInsert, ToolCallRow(sessionId, userId, domain, request, output, success)),
          UnlessRaised(faults.conversationInsert, ConversationRow(sessionId, userId, request, output, domain, success)),
          Remembered(faults, request, result)),
        Returns(output))
  }

  /** `classify_and_route`, step by step over the audit store and the chat memory. */
  method ClassifyAndRoute(store: AuditStore, memory: ChatMemory, request: string, reply: LlmReply, agents: Agents, faults: Faults)
    returns (response: Response)
    modifies store, memory
    ensures var turn := RouteTurn(store.sessionId, store.userId, request, Token(Classify(reply, Keywords, request)), agents, faults);
      && response == turn.response
      && store.approvals == old(store.approvals) + turn.appended.approvals
      && store.toolCalls == old(store.toolCalls) + turn.appended.toolCalls
      && store.conversations == old(store.conversations) + turn.appended.conversations
      && memory.messages == old(memory.messages) + turn.appended.memory
  {
    // Step 1 and 2: the LLM's domain, and the keyword scores on "unknown".
    var classified := LlmClassify(reply);
    var domain: Domain;
    if classified.None? {
      domain := KeywordFallback(Keywords, request);
    } else {
      domain := classified.value;
    }
    response := Route(store, memory, request, Token(domain), agents, faults);
  }

  /** Steps 3 to 6 of `classify_and_route`, once the domain is settled. */
  method Route(store: AuditStore, memory: ChatMemory, request: string, bestDomain: string, agents: Agents, faults: Faults)
    returns (response: Response)
    modifies store, memory
    ensures var turn := RouteTurn(store.sessionId, store.userId, request, bestDomain, agents, faults);
      && response == turn.response
      && store.approvals == old(store.approvals) + turn.appended.approvals
      && store.toolCalls == old(store.toolCalls) + turn.appended.toolCalls
      && store.conversations == old(store.conversations) + turn.appended.conversations
      && memory.messages == old(memory.messages) + turn.appended.memory
  {
    // Step 3: governance.
    var gov := CheckGovernance(request, bestDomain);
    if gov.needsApproval {
      var raised := store.InsertApproval(request, bestDomain, Join(gov.reasons, ", "), faults.approvalInsert);
      if raised.Some? {
        return Raises(raised.value);
      }
      return Returns(RiskNotice(gov));
    }

    // Step 4: the agent of the domain.
    var result := RunAgent(bestDomain, agents);

    // Step 5: memory; a failure here is the one exception the try block can catch.
    var failure := memory.Add(UserMessage(request), faults.userMessage);
    if failure.None? {
      failure := memory.Add(AiMessage(result), faults.aiMessage);
    }

    // Step 6: logging, on the success path or in the handler.
    if failure.None? {
      store.LogToolCall(bestDomain, request, result, true, faults.toolCallInsert);
      store.LogConversation(request, result, bestDomain, true, faults.conversationInsert);
      response := Returns(result);
    } else {
      var errorMessage := RoutingError(bestDomain, failure.value);
      store.LogToolCall(bestDomain, request, errorMessage, false, faults.toolCallInsert);
      store.LogConversation(request, errorMessage, bestDomain, false, faults.conversationInsert);
      response := Returns(errorMessage);
    }
  }

  /**
   * Step 4 of `classify_and_route`: the if/elif chain that runs the agent of
   * the domain. Each domain's token reaches that domain's own agent; any other
   * name reaches the "Unable to classify" answer.
   */
  method RunAgent(bestDomain: string, agents: Agents) returns (result: string)
    ensures forall d: Domain :: bestDomain == Token(d) ==> result == ExecuteWithAgent(AgentName(d), AgentOf(agents, d))
    ensures bestDomain !in DomainTokens ==> result == UnableToClassify
    ensures result == Dispatch(bestDomain, agents)
  {
    if bestDomain == "sales" {
      result := ExecuteWithAgent("Sales", agents.sales);
    } else if bestDomain == "finance" {
      result := ExecuteWithAgent("Finance", agents.finance);
    } else if bestDomain == "inventory" {
      result := ExecuteWithAgent("Inventory", agents.inventory);
    } else if bestDomain == "analytics" {
      result := ExecuteWithAgent("Analytics", agents.analytics);
    } else {
      result := UnableToClassify;
    }
    forall d: Domain | bestDomain == Token(d)
      ensures result == ExecuteWithAgent(AgentName(d), AgentOf(agents, d))
    {
      DomainHasAgent(d, agents);
    }
  }

  /**
   * A flagged request appends exactly one approval row, PENDING, for its
   * domain and with its reasons joined by ", ", and nothing else; it answers
   * with the risk notice.
   */
  lemma FlaggedTurnAwaitsApproval(sessionId: string, userId: string, request: string, domain: string, agents: Agents, faults: Faults)
    requires Risky(request, domain)
    requires faults.approvalInsert.None?
    ensures var reasons := Reasons(request, domain);
      && reasons != []
      && RouteTurn(sessionId, userId, request, domain, agents, faults)
         == Turn(Appended([ApprovalRow(sessionId, userId, request, domain, "PENDING", Join(reasons, ", "))], [], [], []),
                 Returns(RiskNotice(Decision(true, High, reasons))))
  {
    ReasonsEmptyIff(request, domain);
  }

  /** A flagged request invokes no agent and touches no memory: what the agents would answer makes no difference. */
  lemma FlaggedTurnInvokesNoAgent(sessionId: string, userId: string, request: string, domain: string, agents1: Agents, agents2: Agents, faults: Faults)
    requires Risky(request, domain)
    ensures RouteTurn(sessionId, userId, request, domain, agents1, faults) == RouteTurn(sessionId, userId, request, domain, agents2, faults)
    ensures RouteTurn(sessionId, userId, request, domain, agents1, faults).appended.memory == []
  {
    ReasonsEmptyIff(request, domain);
  }

  /** A failing approval insert is not caught: it escapes to the caller, and nothing is appended. */
  lemma ApprovalFailureEscapes(sessionId: string, userId: string, request: string, domain: string, agents: Agents, faults: Faults)
    requires Risky(request, domain)
    requires faults.approvalInsert.Some?
    ensures RouteTurn(sessionId, userId, request, domain, agents, faults) == Turn(NothingAppended, Raises(faults.approvalInsert.value))
  {
    ReasonsEmptyIff(request, domain);
  }

  /**
   * A request that is not flagged appends no approval, one tool-call row and
   * one conversation row (each unless its own insert fails), both for the
   * domain, both with the answer as output and the same success flag; success
   * holds exactly when the memory took the turn, and then the answer is the
   * agent's result; otherwise it is the routing error.
   */
  lemma ClearTurnLogsOnce(sessionId: string, userId: string, request: string, domain: string, agents: Agents, faults: Faults)
    requires !Risky(request, domain)
    ensures var turn := RouteTurn(sessionId, userId, request, domain, agents, faults);
      var ok := faults.userMessage.None? && faults.aiMessage.None?;
      && turn.response.Returns?
      && turn.appended.approvals == []
      && turn.appended.toolCalls == UnlessRaised(faults.toolCallInsert, ToolCallRow(sessionId, userId, domain, request, turn.response.text, ok))
      && turn.appended.conversations == UnlessRaised(faults.conversationInsert, ConversationRow(sessionId, userId, request, turn.response.text, domain, ok))
      && (ok ==> turn.response.text == Dispatch(domain, agents)
                 && turn.appended.memory == [UserMessage(request), AiMessage(turn.response.text)])
      && (!ok ==> turn.response.text == RoutingError(domain, MemoryError(faults).value))
  {
    ReasonsEmptyIff(request, domain);
  }

  /** A failing log insert never reaches the caller: the answer is the one a turn without such failures gives. */
  lemma LogFailuresAreSwallowed(sessionId: string, userId: string, request: string, domain: string, agents: Agents, faults: Faults)
    ensures RouteTurn(sessionId, userId, request, domain, agents, faults).response
         == RouteTurn(sessionId, userId, request, domain, agents, faults.(toolCallInsert := None, conversationInsert := None)).response
  {
  }

  /** Each of the four domains reaches its own agent, never the "Unable to classify" branch. */
  lemma DomainHasAgent(domain: Domain, agents: Agents)
    ensures Dispatch(Token(domain), agents) == ExecuteWithAgent(AgentName(domain), AgentOf(agents, domain))
    ensures Dispatch(Token(domain), agents) != UnableToClassify
  {
    var result := Dispatch(Token(domain), agents);
    assert result[0] in {'S', 'F', 'I', 'A'};
    assert UnableToClassify[0] == '\U{2753}';
  }

  /** After classification the domain always has an agent: the "Unable to classify" branch is never taken. */
  lemma ClassifiedDomainHasAgent(reply: LlmReply, request: string, agents: Agents)
    ensures Dispatch(Token(Classify(reply, Keywords, request)), agents) != UnableToClassify
  {
    DomainHasAgent(Classify(reply, Keywords, request), agents);
  }
}
