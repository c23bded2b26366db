/**
 * The state `classify_and_route` changes: the three orchestration tables of
 * the database (append-only here) and the router's chat memory, together with
 * the inputs a routing turn depends on but does not control: what the domain
 * agents answer and which writes fail.
 */
module Orchestration {
  import opened Wrappers
  import opened Classification

  /** A row of `approvals`; `reasons` is the reasons list joined with ", ". */
  datatype ApprovalRow = ApprovalRow(sessionId: string, userId: string, request: string, domain: string, status: string, reasons: string)

  /** A row of `tool_calls`; `userRequest` is the one entry of the JSON-serialised inputs. */
  datatype ToolCallRow = ToolCallRow(sessionId: string, userId: string, domain: string, userRequest: string, outputs: string, success: bool)

  /** A row of `conversations`. */
  datatype ConversationRow = ConversationRow(sessionId: string, userId: string, userInput: string, agentOutput: string, domain: string, success: bool)

  /** A message of the chat memory's history. */
  datatype ChatMessage = UserMessage(text: string) | AiMessage(text: string)

  const PendingStatus: string := "PENDING"

  /** What invoking a domain agent's executor gives: its `output`, or the message of the exception it raised. */
  datatype AgentOutcome = Output(text: string) | AgentRaised(error: string)

  /** The outcome each of the four domain agents would give for the request at hand. */
  datatype Agents = Agents(sales: AgentOutcome, finance: AgentOutcome, inventory: AgentOutcome, analytics: AgentOutcome)

  /** The agent a domain is routed to, and the name its banner and error messages use. */
  function AgentOf(agents: Agents, domain: Domain): AgentOutcome {
    match domain
    case Sales => agents.sales
    case Finance => agents.finance
    case Inventory => agents.inventory
    case Analytics => agents.analytics
  }

  function AgentName(domain: Domain): string {
    match domain
    case Sales => "Sales"
    case Finance => "Finance"
    case Inventory => "Inventory"
    case Analytics => "Analytics"
  }

  /**
   * Which writes of a turn raise, with the exception's message: the approval
   * INSERT, the tool-call INSERT, the conversation INSERT, and the two
   * additions to the chat memory.
   */
  datatype Faults = Faults(
    approvalInsert: Option<string>,
    toolCallInsert: Option<string>,
    conversationInsert: Option<string>,
    userMessage: Option<string>,
    aiMessage: Option<string>)

  /** What `classify_and_route` gives its caller: a string, or an exception that escapes it. */
  datatype Response = Returns(text: string) | Raises(error: string)

  /** What one routing turn appends to each table and to the memory. */
  datatype Appended = Appended(
    approvals: seq<ApprovalRow>,
    toolCalls: seq<ToolCallRow>,
    conversations: seq<ConversationRow>,
    memory: seq<ChatMessage>)

  /** A routing turn: what it appends, and what it answers. */
  datatype Turn = Turn(appended: Appended, response: Response)

  /** Appends nothing anywhere. */
  const NothingAppended: Appended := Appended([], [], [], [])

  /** What a write adds to a table or to the memory: the item, unless the write raised. */
  function UnlessRaised<T>(fault: Option<string>, item: T): seq<T> {
    if fault.None? then [item] else []
  }

  /** The first failure among the two additions to the memory, the user message being added first. */
  function MemoryError(faults: Faults): (e: Option<string>)
    ensures e.None? <==> faults.userMessage.None? && faults.aiMessage.None?
    ensures faults.userMessage.Some? ==> e == faults.userMessage
    ensures faults.userMessage.None? ==> e == faults.aiMessage
  {
    if faults.userMessage.Some? then faults.userMessage else faults.aiMessage
  }

  /** What the memory receives: the user message, then the AI message, stopping at the first failure. */
  function Remembered(faults: Faults, request: string, result: string): (added: seq<ChatMessage>)
    ensures MemoryError(faults).None? ==> added == [UserMessage(request), AiMessage(result)]
    ensures faults.userMessage.Some? ==> added == []
    ensures faults.userMessage.None? && faults.aiMessage.Some? ==> added == [UserMessage(request)]
  {
    UnlessRaised(faults.userMessage, UserMessage(request))
      + (if faults.userMessage.None? then UnlessRaised(faults.aiMessage, AiMessage(result)) else [])
  }

  /** The orchestration tables of the database, for one session and user. */
  class AuditStore {
    const sessionId: string
    const userId: string
    var approvals: seq<ApprovalRow>
    var toolCalls: seq<ToolCallRow>
    var conversations: seq<ConversationRow>

    /** Empty tables, for the session and user taken from the environment. */
    constructor (sessionId: string, userId: string)
      ensures this.sessionId == sessionId && this.userId == userId
      ensures approvals == [] && toolCalls == [] && conversations == []
    {
      this.sessionId := sessionId;
      this.userId := userId;
      approvals, toolCalls, conversations := [], [], [];
    }

    /**
     * The INSERT of a PENDING approval. It is not guarded: when it fails,
     * nothing is written and the failure is handed back to be raised.
     */
    method InsertApproval(request: string, domain: string, reasons: string, fault: Option<string>) returns (raised: Option<string>)
      modifies this`approvals
      ensures raised == fault
      ensures approvals == old(approvals) + UnlessRaised(fault, ApprovalRow(sessionId, userId, request, domain, PendingStatus, reasons))
    {
      raised := fault;
      if fault.None? {
        approvals := approvals + [ApprovalRow(sessionId, userId, request, domain, PendingStatus, reasons)];
      }
    }

    /** `log_tool_call`: appends one row; a failing insert is swallowed and appends nothing. */
    method LogToolCall(domain: string, userRequest: string, outputs: string, success: bool, fault: Option<string>)
      modifies this`toolCalls
      ensures toolCalls == old(toolCalls) + UnlessRaised(fault, ToolCallRow(sessionId, userId, domain, userRequest, outputs, success))
    {
      if fault.None? {
        toolCalls := toolCalls + [ToolCallRow(sessionId, userId, domain, userRequest, outputs, success)];
      }
    }

    /** `log_conversation`: appends one row; a failing insert is swallowed and appends nothing. */
    method LogConversation(userInput: string, agentOutput: string, domain: string, success: bool, fault: Option<string>)
      modifies this`conversations
      ensures conversations == old(conversations) + UnlessRaised(fault, ConversationRow(sessionId, userId, userInput, agentOutput, domain, success))
    {
      if fault.None? {
        conversations := conversations + [ConversationRow(sessionId, userId, userInput, agentOutput, domain, success)];
      }
    }
  }

  /** The router's module-level conversation memory (its message history). */
  class ChatMemory {
    var messages: seq<ChatMessage>

    constructor ()
      ensures messages == []
    {
      messages := [];
    }

    /** `chat_memory.add_user_message` (or `add_ai_message` for an AI message): appends it, unless adding raises. */
    method Add(message: ChatMessage, fault: Option<string>) returns (raised: Option<string>)
      modifies this
      ensures raised == fault
      ensures messages == old(messages) + UnlessRaised(fault, message)
    {
      raised := fault;
      if fault.None? {
        messages := messages + [message];
      }
    }
  }
}
