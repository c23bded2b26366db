# Request gating and routing of the agentic ERP assistant

This project models the part of the ERP assistant that sits between the
user, the LLM and the database, and proves properties about it:

- **Governance gate** (`check_governance`). Both router agents share it. A
  request is held for approval when its lower-cased text contains a globally
  risky phrase, or a phrase that is sensitive for the domain it was
  classified into. The gate reports the reasons in a fixed order: global
  phrases first, then tagged domain phrases. The configuration helpers carry
  a separate, global-only variant with five phrases.
- **Domain classification.** The LLM's answer is trimmed, lower-cased and
  accepted only when it names one of the four domains (sales, finance,
  inventory, analytics). Otherwise a keyword count picks the first domain
  with the highest score. The agent-framework router tool uses a separate
  priority chain of keyword tests.
- **The routing pipeline** (`classify_and_route`, in both router agents).
  It classifies, checks governance, and then does one of two things. It may
  record a PENDING approval and answer with a risk notice. Otherwise it runs
  the domain's agent, adds the turn to the chat memory, and logs one
  tool-call row and one conversation row. The audit tables are append-only
  sequences in a class `AuditStore`, and the chat memory is a class
  `ChatMemory`.
- **Supporting tools:**
  - the tool registry (`register_tool`), in both variants;
  - the policy retrieval ranking;
  - the fixed-dictionary definition lookup;
  - the report-name check;
  - the SELECT-only guard of the text-to-SQL tool.

Several things the assistant does not control become inputs to the model:
- what the LLM answers, or whether the call raises;
- what each domain agent answers, or whether it raises;
- which database or memory writes raise;
- the rows a lookup fetches;
- the `_score_text` scoring function;
- the result of executing SQL.

Module layout:
- `Text` holds the Python string operations used: `lower`, `strip`,
  `startswith`, the `in` substring test, filtering a list by occurrence, and
  `join`.
- `Governance` and `HelpersGovernance` are the two gate variants.
- `Classification` holds the LLM normalisation and the keyword fallback.
- `Orchestration` holds the audit store, the memory, the faults, and the
  rows.
- `SmartRouter` and `ErpRouter` are the two pipelines.
- `KeywordRouter`, `PolicyRag`, `AnalyticsTools` and `ToolRegistry` are the
  remaining pieces.

Points of the code worth noting:
- The approval INSERT of both routers is not inside any `try`. Unlike the
  two log helpers, which swallow their own failures, a failure there escapes
  to the caller (`SmartRouter.ApprovalFailureEscapes`).
- Inside the routing `try` block, the only failures that can reach the
  handler are those of the two chat-memory additions. The agents' own
  exceptions are already turned into strings by the `execute_with_*`
  helpers.

## Model

| member | source | states |
|---|---|---|
| Text.Lower | Graduation_project/Router_agent.py:139 | `str.lower()`: same length, each character lowered (ASCII) |
| Text.LowerIdempotent | Graduation_project/Router_agent.py:139-141 | lowering twice is lowering once |
| Text.Strip | Graduation_project/Router_agent.py:194 | `str.strip()`: a contiguous piece `s[i..j]` of the input with only white space outside it; empty exactly when the text is all white space, otherwise neither end is white space |
| Text.Occurring | Graduation_project/Router_agent.py:139 | the comprehension `[p for p in phrases if p in text]`: exactly the occurring phrases, as a subsequence of the list |
| Text.OccurringSnoc | Graduation_project/Router_agent.py:140-142 | filtering a list extended at the end extends the filtered list at the end, if at all |
| Text.OccurringEmptyIff | Graduation_project/Router_agent.py:143 | the filtered list is empty exactly when no phrase occurs |
| Text.ContainsIffOccursAt | Graduation_project/Router_agent.py:141 | `p in s` holds exactly when `p` sits at some offset of `s` |
| Text.OccurringCount | Graduation_project/Router_agent.py:268-271 | the filtered list has exactly one entry per list position whose phrase occurs |
| Text.Join | Graduation_project/Router_agent.py:286-289 | `sep.join(parts)`: the reasons text of the approval row and of the risk notice; no contract of its own, `FlaggedTurnAwaitsApproval` states where it is used |
| Governance.CheckGovernance | Graduation_project/Router_agent.py:125-145 | the comprehension and the append loop give `Reasons`; held exactly when some phrase occurs, HIGH exactly when held, and exactly `{False, LOW, []}` otherwise |
| Governance.AppendSensitive | Graduation_project/Router_agent.py:140-142 | the loop appends, tagged with "domain-sensitive: " and in list order, exactly the domain phrases that occur |
| Governance.Reasons | Graduation_project/Router_agent.py:139-142 | the reasons list the check builds; its properties are the contracts of `ReasonsEmptyIff`, `GlobalMatchesReported`, `ReasonsOrdered`, `DomainMatchesReported` and `ReasonsIgnoreCase` |
| Governance.ReasonsEmptyIff | Graduation_project/Router_agent.py:139-145 | there are reasons exactly when a global or domain phrase occurs |
| Governance.GlobalMatchesReported | Graduation_project/Router_agent.py:129-139 | a global risky phrase is among the reasons exactly when it occurs in the lower-cased request |
| Governance.ReasonsOrdered | Graduation_project/Router_agent.py:139-142 | global entries precede all domain entries, and every other entry is `"domain-sensitive: "` plus an occurring phrase of the domain's own list |
| Governance.DomainMatchesReported | Graduation_project/Router_agent.py:133-142 | every occurring sensitive phrase of the domain is reported with its tag |
| Governance.UnlistedDomainAddsNothing | Graduation_project/Router_agent.py:140 | a domain outside the table adds nothing to the global matches |
| Governance.ReasonsIgnoreCase | Graduation_project/Router_agent.py:139-141 | the reasons depend on the request only through its lower-cased form |
| Governance.RiskyPhrasesUntagged | Graduation_project/Router_agent.py:129-142 | no global phrase starts with the domain tag, so the two kinds of reasons cannot be confused |
| HelpersGovernance.CheckGovernance | Graduation_project/config/helpers.py:11-17 | held iff one of the five phrases occurs; the reasons are exactly the occurring phrases, in list order; otherwise exactly `{False, LOW, []}` |
| HelpersGovernance.DomainIgnored | Graduation_project/config/helpers.py:11-17 | the `domain` argument does not affect the result |
| HelpersGovernance.RouterCheckIsStricter | Graduation_project/config/helpers.py:13-16 | any request this variant holds, the routers' gate holds too, for every domain |
| Classification.ParseToken | Graduation_project/Router_agent.py:195-197 | a domain exactly for the four allowed tokens, and its token is the input |
| Classification.LlmClassify | Graduation_project/Router_agent.py:192-200 | a domain exactly when the reply's trimmed, lower-cased content is one of the four tokens, and then that token; "unknown" on any other answer and on an exception |
| Classification.KeywordCount | Graduation_project/Router_agent.py:268-271 | the count is the number of list positions whose keyword occurs in the text (so at most the list length), and zero exactly when no keyword occurs |
| Classification.FirstMax | Graduation_project/Router_agent.py:273 | `max` by score: a highest score, strictly above every earlier one (first wins ties) |
| Classification.KeywordFallback | Graduation_project/Router_agent.py:265-273 | the domain of the first highest score; its properties are the contracts of `FallbackPicksFirstHighest` and `NoKeywordMeansSales` |
| Classification.Classify | Graduation_project/Router_agent.py:262-273 | the LLM domain, or the keyword fallback on "unknown"; its property is the contract of `FallbackOnlyOnUnknown` |
| Classification.FallbackPicksFirstHighest | Graduation_project/Router_agent.py:265-273 | the fallback domain has the top count and every domain before it in order sales, finance, inventory, analytics has a strictly lower one |
| Classification.NoKeywordMeansSales | Graduation_project/Router_agent.py:265-273 | all counts zero gives sales |
| Classification.FallbackOnlyOnUnknown | Graduation_project/Router_agent.py:262-273 | the LLM's domain is used exactly when it names one; the keyword scores decide otherwise |
| Orchestration.MemoryError | Graduation_project/Router_agent.py:305-318 | the exception the handler catches: the user message's when that addition fails, otherwise the AI message's; none exactly when both additions succeed |
| Orchestration.Remembered | Graduation_project/Router_agent.py:305-306 | both messages, user first, when neither addition fails; nothing when the user message fails; only the user message when the AI message fails |
| Orchestration.AuditStore.constructor | Graduation_project/Router_agent.py:66-67 | the store carries the session and user id of the process; it starts with no rows, and every method contract is stated relative to the rows already there |
| Orchestration.ChatMemory.constructor | Graduation_project/Router_agent.py:60 | the memory starts with no messages |
| Orchestration.AuditStore.InsertApproval | Graduation_project/Router_agent.py:280-288 | appends one PENDING approval row unless the insert raises; the failure is handed back |
| Orchestration.AuditStore.LogToolCall | Graduation_project/Router_agent.py:148-161 | appends one tool-call row; a failing insert is swallowed and appends nothing |
| Orchestration.AuditStore.LogConversation | Graduation_project/Router_agent.py:164-177 | appends one conversation row; a failing insert is swallowed and appends nothing |
| Orchestration.ChatMemory.Add | Graduation_project/Router_agent.py:305-306 | appends the message unless adding raises |
| SmartRouter.ClassifyAndRoute | Graduation_project/Router_agent.py:256-318 | classification followed by `Route`: the answer and the new tables and memory are those of `RouteTurn` for the classified domain |
| SmartRouter.RouteTurn | Graduation_project/Router_agent.py:277-318 | what one turn appends and answers once the domain is settled; its properties are the contracts of the `FlaggedTurn…`, `ApprovalFailureEscapes`, `ClearTurnLogsOnce` and `LogFailuresAreSwallowed` lemmas |
| SmartRouter.ExecuteWithAgent | Graduation_project/Router_agent.py:207-249 | the agent's output behind "<Domain> Agent Response: ", or its exception as "<Domain> Agent Error: " text; its property is the contract of `DomainHasAgent` |
| SmartRouter.RiskNotice | Graduation_project/Router_agent.py:289 | the answer to a held request, with the risk level and the reasons joined by ", "; used by `FlaggedTurnAwaitsApproval` |
| SmartRouter.RoutingError | Graduation_project/Router_agent.py:315 | "Error routing to <domain> agent: " plus the caught message; used by `ClearTurnLogsOnce` |
| SmartRouter.Route | Graduation_project/Router_agent.py:277-318 | the governance, routing, memory and logging steps append exactly what `RouteTurn` lists, and answer what it answers |
| SmartRouter.RunAgent | Graduation_project/Router_agent.py:292-302 | the token of each domain runs that domain's own agent; any name that is not one of the four tokens gives "Unable to classify request." |
| SmartRouter.FlaggedTurnAwaitsApproval | Graduation_project/Router_agent.py:279-289 | a flagged request appends exactly one PENDING approval row with the domain and the reasons joined by ", ", nothing else, and answers with the risk notice |
| SmartRouter.FlaggedTurnInvokesNoAgent | Graduation_project/Router_agent.py:279-289 | for a flagged request, the agents' answers make no difference and nothing reaches the memory |
| SmartRouter.ApprovalFailureEscapes | Graduation_project/Router_agent.py:280-288 | a failing approval insert escapes to the caller and nothing is appended |
| SmartRouter.ClearTurnLogsOnce | Graduation_project/Router_agent.py:292-318 | an unflagged request appends no approval, and one tool-call and one conversation row (each unless its own insert fails), with the same domain, output and success flag; success exactly when the memory took the turn, then the answer is the agent's result, otherwise the routing error |
| SmartRouter.LogFailuresAreSwallowed | Graduation_project/Router_agent.py:148-177 | a failing log insert never changes the answer |
| SmartRouter.DomainHasAgent | Graduation_project/Router_agent.py:207-302 | each of the four domains reaches its own agent's banner or error text, never "Unable to classify" |
| SmartRouter.ClassifiedDomainHasAgent | Graduation_project/Router_agent.py:262-302 | after classification the "Unable to classify" branch is unreachable |
| ErpRouter.ClassifyAndRoute | NEW/agents/router_agent.py:218-265 | classification with the smaller keyword lists followed by `Route`: the answer and the new tables and memory are those of `RouteTurn` |
| ErpRouter.RouteTurn | NEW/agents/router_agent.py:231-265 | what one turn appends and answers once the domain is settled; its properties are the contracts of the `FlaggedTurn…` and `ClearTurnLogsOnce` lemmas |
| ErpRouter.ExecuteWithAgent | NEW/agents/router_agent.py:183-213 | the agent's output as it is, or its exception as "<Domain> Agent Error: " text; its properties are the contracts of `DomainHasAgent` and `AgentErrorIsAnAnswer` |
| ErpRouter.RiskNotice | NEW/agents/router_agent.py:242 | the answer to a held request; `FlaggedTurnAwaitsApproval` states its text |
| ErpRouter.RoutingError | NEW/agents/router_agent.py:265 | "Error routing request: " plus the caught message; used by `ClearTurnLogsOnce` |
| ErpRouter.Route | NEW/agents/router_agent.py:231-265 | the governance, routing, memory and logging steps append exactly what `RouteTurn` lists, and answer what it answers |
| ErpRouter.RunAgent | NEW/agents/router_agent.py:245-255 | the token of each domain runs that domain's own agent; any name that is not one of the four tokens gives "Unable to classify request." |
| ErpRouter.FlaggedTurnAwaitsApproval | NEW/agents/router_agent.py:231-242 | a flagged request appends one PENDING approval and answers "⚠️ Request flagged as HIGH risk. Reasons: ..." |
| ErpRouter.FlaggedTurnInvokesNoAgent | NEW/agents/router_agent.py:231-242 | for a flagged request, the agents' answers make no difference and nothing reaches the memory |
| ErpRouter.ClearTurnLogsOnce | NEW/agents/router_agent.py:245-265 | an unflagged request logs the raw agent output with success on the happy path; on a failure both rows hold the bare message with success false and the caller gets "Error routing request: " + message |
| ErpRouter.AgentErrorIsAnAnswer | NEW/agents/router_agent.py:183-213 | an agent's exception comes back as "<Domain> Agent Error: ..." text |
| ErpRouter.DomainHasAgent | NEW/agents/router_agent.py:183-255 | each of the four domains reaches its own agent's output or error text |
| ErpRouter.ClassifiedDomainHasAgent | NEW/agents/router_agent.py:220-255 | after classification the domain always reaches its agent |
| KeywordRouter.Route | Graduation_project/NEW/agents/router_agent.py:32-44 | one of the five results; analytics iff an analytics keyword occurs; each later group iff no earlier group's keyword occurs and one of its own does; "general" iff none occurs |
| KeywordRouter.MentionsIffAnyOccurs | Graduation_project/NEW/agents/router_agent.py:35-42 | the `or` chain of `in` tests holds exactly when some keyword of the group occurs |
| KeywordRouter.RouteIgnoresCase | Graduation_project/NEW/agents/router_agent.py:34 | the result depends on the query only through `query.lower()` |
| KeywordRouter.AnalyticsKeywordWins | Graduation_project/NEW/agents/router_agent.py:35-36 | any analytics keyword routes to analytics whatever else the query holds |
| PolicyRag.Run | Graduation_project/NEW/tools/policy_rag_tool.py:17-39 | the tool's steps give `Search`: a failing `k` conversion raises, an empty trimmed query is rejected, otherwise the ranked documents of the fetched rows cut to `k` |
| PolicyRag.BuildDocs | Graduation_project/NEW/tools/policy_rag_tool.py:33-37 | the append loop builds one document per row, in row order |
| PolicyRag.Search | Graduation_project/NEW/tools/policy_rag_tool.py:17-39 | the tool's answer for a payload; its properties are the contracts of `EmptyQueryRejected` and `MatchesOfQuery` |
| PolicyRag.Rank | Graduation_project/NEW/tools/policy_rag_tool.py:33-39 | the rows' documents, sorted by score and cut to `k`; its properties are the contracts of `RankSortedAndCut`, `RankFromRows` and `RankingIsPermutation` |
| PolicyRag.ToDoc | Graduation_project/NEW/tools/policy_rag_tool.py:34-37 | the document of one row; `RankFromRows` states its score and snippet |
| PolicyRag.Prefix | Graduation_project/NEW/tools/policy_rag_tool.py:37 | `s[:n]`: a prefix of length `min(n, len(s))` |
| PolicyRag.Slice | Graduation_project/NEW/tools/policy_rag_tool.py:39 | `s[:k]`: a prefix of length `min(k, n)` for `k >= 0` and `max(0, n + k)` otherwise |
| PolicyRag.Docs | Graduation_project/NEW/tools/policy_rag_tool.py:33-37 | one document per row, the i-th built from the i-th row |
| PolicyRag.SortByScore | Graduation_project/NEW/tools/policy_rag_tool.py:38 | the sort is a permutation of its input |
| PolicyRag.SortSorted | Graduation_project/NEW/tools/policy_rag_tool.py:38 | the sort puts scores in non-increasing order |
| PolicyRag.SortStable | Graduation_project/NEW/tools/policy_rag_tool.py:38 | the sort keeps the order of documents of equal score |
| PolicyRag.EmptyQueryRejected | Graduation_project/NEW/tools/policy_rag_tool.py:18-21 | an empty trimmed query is answered "Empty query" without depending on the lookup (unless `k` fails to convert first) |
| PolicyRag.MatchesOfQuery | Graduation_project/NEW/tools/policy_rag_tool.py:19-39 | a non-empty query's matches are the ranked documents of the rows fetched with `%q%`, cut to `k`, which defaults to 3 |
| PolicyRag.RankSortedAndCut | Graduation_project/NEW/tools/policy_rag_tool.py:38-39 | matches are in non-increasing score order and number `min(k, n)` for `k >= 0`, `max(0, n + k)` otherwise |
| PolicyRag.RankFromRows | Graduation_project/NEW/tools/policy_rag_tool.py:33-37 | every match is one row's document: its score is `_score_text(title + "\n" + body, q)`, its snippet a prefix of the body of at most 240 characters |
| PolicyRag.RankingIsPermutation | Graduation_project/NEW/tools/policy_rag_tool.py:33-38 | before the cut, the ranked documents are the rows' documents, one per row, reordered |
| AnalyticsTools.Define | NEW/tools/analytics_tools.py:21-32 | a hit on the lower-cased term gives "Definition for '<query>': <text>"; a miss gives exactly "No definition found for that term." |
| AnalyticsTools.DefineIgnoresCase | NEW/tools/analytics_tools.py:29-32 | a term is found exactly when its lower-cased form is |
| AnalyticsTools.Report | NEW/tools/analytics_tools.py:42-51 | a name mentioning "monthly sales" in any case runs the report; any other gives "Report '<name>' not found." |
| AnalyticsTools.UnknownReportRunsNothing | NEW/tools/analytics_tools.py:44-51 | an unknown report name runs no query and does not raise |
| AnalyticsTools.TextToSql | NEW/tools/analytics_tools.py:86-95 | an LLM exception, a non-SELECT query and an execution error all come back as strings; only a trimmed query starting with "select" in any case is executed |
| AnalyticsTools.RejectedQueryIsNotExecuted | NEW/tools/analytics_tools.py:89-90 | a query failing the guard answers "Only SELECT queries are allowed." whatever execution would do |
| ToolRegistry.Validate | Graduation_project/NEW/tools/base_tool.py:7-15 | passes exactly when `_run` is defined and `name` and `description` are truthy; the `_run` message comes first |
| ToolRegistry.Registry.constructor | Graduation_project/NEW/tools/base_tool.py:4 | the registry starts empty |
| ToolRegistry.Registry.Register | Graduation_project/NEW/tools/base_tool.py:6-30 | a failed check raises and leaves the registry unchanged; otherwise the name is set or overwritten and `cls` returned |
| ToolRegistry.MakeTool | Graduation_project/NEW/tools/base_tool.py:17-27 | the stored tool has the class's name, description and schema, and a callable over that class: a fresh instance per call, or the unbound `cls._run` (NEW/tools/base_tool.py:17-22) |
| ToolRegistry.Call | Graduation_project/NEW/tools/base_tool.py:18-20 | a call of a stored tool; its properties are the contracts of `InitWithArgumentsAlwaysFails` and `UnboundCallNeedsExtraArgument` |
| ToolRegistry.RegistrationEffect | NEW/tools/base_tool.py:17-24 | after success the name maps to a tool with that name and description, the keys grow by that name only, and every other entry is unchanged |
| ToolRegistry.RunCheckFirst | NEW/tools/base_tool.py:7-8 | a class without `_run` is refused for that, whatever its attributes |
| ToolRegistry.InitWithArgumentsAlwaysFails | Graduation_project/NEW/tools/base_tool.py:18-20 | a class whose `__init__` needs arguments registers, but every call of its tool raises, since `cls()` gets none |
| ToolRegistry.UnboundCallNeedsExtraArgument | NEW/tools/base_tool.py:20 | with the unbound `cls._run`, a call with the arguments `_run` declares raises |
| ToolRegistry.RunOnlyClassIsRefused | NEW/tools/base_tool.py:7-8 | the definition tool, which defines only `run`, is refused with the `_run` message |

## Left out

- Python's `str.lower()` is modelled for ASCII letters only. `str.strip()` is modelled for ASCII white space and a few Latin-1 white-space characters. Full Unicode case mapping and white space are not modelled. Python lowers some non-ASCII characters to ASCII letters (U+212A KELVIN SIGN becomes `k`), so the source flags "BUL\u212AK DELETE" and the model does not. Governance.GlobalMatchesReported, Governance.ReasonsIgnoreCase and the other gate contracts hold for the ASCII lowering only.
- The LLM calls, the domain agents' executors, the ReAct agent loops and `ConversationBufferWindowMemory` are library code. What they answer or raise is a parameter. The memory's window of five exchanges is not modelled: the memory is the full message list.
- SQLite I/O is not modelled. This covers the table creation, the real INSERTs, `execute_query`, `get_db_schema`, `get_table_names`, `remember`/`recall`, and the row counts of `get_system_info`. The tables are append-only sequences and fetched rows are inputs; database ids and timestamps are not modelled.
- The inputs of a tool-call row are `json.dumps({"user_request": ...})`. The model keeps the request itself, not its JSON text.
- `_score_text` is not part of this model. It is an uninterpreted scoring function.
- The SQL `WHERE` filter on category and `LIKE` is done by the database. The model passes the `%q%` pattern to the fetched-rows input.
- In `PolicyRag`, a non-string `query` and the `int()` conversion rules are not modelled. Only whether `int()` succeeds and what it returns is.
- The text-to-SQL tool's prompt building is not modelled. The JSON serialisation of the query result is the execution input's text.
- The monthly sales report's row formatting (`:,.2f`) is float formatting. The model takes the formatted report, or the query's exception, as an input.
- `ForecastTool` is not part of this model. It uses statsmodels and pandas over floats.
- The placeholder tools and the agent modules are not part of this model, nor are the FastAPI and Streamlit front ends, the prompts, and the LLM configuration. None of them holds logic to verify.
- `print` diagnostics are omitted.
- ToolRegistry.Call: the text of Python's own TypeError on a bad call is not modelled. It is the constant "TypeError". A call's arguments are modelled by their number only.
- Every tool class in NEW/tools/analytics_tools.py and NEW/tools/inventory_tools.py defines `run`, not `_run`. The inventory tools under Graduation_project/NEW/tools/ define `_run`, and they are not part of this model. Decorating any of them raises at import (`ToolRegistry.RunOnlyClassIsRefused`), so those tools are never registered. The model still describes what their `run` methods do.
- Concurrent turns are not modelled: the model takes one turn at a time.
