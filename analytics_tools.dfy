/**
 * The analytics tools: the fixed-dictionary definition lookup, the report
 * tool's name check, and the text-to-SQL tool, which lets only queries
 * starting with "select" reach the database.
 */
module AnalyticsTools {
  import opened Wrappers
  import opened Text
  import opened Classification

  /** The knowledge base of `RAGDefinitionTool`, keyed by lower-case term. */
  const Definitions: map<string, string> := map[
    "policy" := "Policy 1: All sales over $5000 require manager approval.",
    "erp" := "Enterprise Resource Planning (ERP) is a software system that integrates all aspects of an enterprise's operations.",
    "crm" := "Customer Relationship Management (CRM) is a system for managing interactions with current and potential customers."
  ]

  const NoDefinition: string := "No definition found for that term."

  /**
   * `RAGDefinitionTool.run`: the definition of the lower-cased term, quoted
   * with the term as it was given, or the fixed miss message.
   */
  function Define(query: string): (answer: string)
    ensures Lower(query) in Definitions ==>
      answer == "Definition for '" + query + "': " + Definitions[Lower(query)]
    ensures Lower(query) !in Definitions ==> answer == NoDefinition
  {
    var key := Lower(query);
    if key in Definitions && Definitions[key] != "" then "Definition for '" + query + "': " + Definitions[key]
    else NoDefinition
  }

  /** A term is found exactly when its lower-cased form is, so the lookup ignores letter case. */
  lemma DefineIgnoresCase(query: string)
    ensures Define(query) == NoDefinition <==> Define(Lower(query)) == NoDefinition
  {
    LowerIdempotent(query);
    if Lower(query) in Definitions {
      var answer := Define(query);
      assert answer[0] == 'D';
      assert NoDefinition[0] == 'N';
    }
  }

  /**
   * `AnalyticsReportingTool.run`: a name mentioning "monthly sales" in any
   * letter case runs the report (`report`, its formatted text or the
   * exception the query raised); any other name is answered as not found.
   */
  function Report(reportName: string, report: Result<string>): (answer: Result<string>)
    ensures Contains(Lower(reportName), "monthly sales") ==> answer == report
    ensures !Contains(Lower(reportName), "monthly sales") ==>
      answer == Success("Report '" + reportName + "' not found.")
  {
    if Contains(Lower(reportName), "monthly sales") then report
    else Success("Report '" + reportName + "' not found.")
  }

  /** An unknown report name runs no query: what the query would give makes no difference. */
  lemma UnknownReportRunsNothing(reportName: string, report1: Result<string>, report2: Result<string>)
    requires !Contains(Lower(reportName), "monthly sales")
    ensures Report(reportName, report1) == Report(reportName, report2)
    ensures Report(reportName, report1).Success?
  {
  }

  const SelectOnly: string := "Only SELECT queries are allowed."
  const SqlErrorPrefix: string := "An error occurred while generating or executing the SQL query: "
  const SqlSuccessPrefix: string := "Successfully executed query. Result: "

  /** The guard: the generated query, trimmed, starts with "select" in any letter case. */
  predicate IsSelect(sql: string) {
    StartsWith(Lower(sql), "select")
  }

  /**
   * `TextToSQLTool.run`: the LLM's reply, trimmed, is executed only when it
   * passes the guard; `execute` gives the JSON text of the result or the
   * exception's message. Every failure comes back as a string.
   */
  function TextToSql(reply: LlmReply, execute: string -> Result<string>): (answer: string)
    ensures reply.Raised? ==> answer == SqlErrorPrefix + reply.error
    ensures reply.Answered? && !IsSelect(Strip(reply.content)) ==> answer == SelectOnly
    ensures reply.Answered? && IsSelect(Strip(reply.content)) ==>
      answer == match execute(Strip(reply.content))
        case Success(json) => SqlSuccessPrefix + json
        case Failure(e) => SqlErrorPrefix + e
  {
    match reply
    case Raised(e) => SqlErrorPrefix + e
    case Answered(content) =>
      var sql := Strip(content);
      if !IsSelect(sql) then SelectOnly
      else
        match execute(sql)
        case Success(json) => SqlSuccessPrefix + json
        case Failure(e) => SqlErrorPrefix + e
  }

  /** A query failing the guard never reaches the database: the answer is the same whatever `execute` would do. */
  lemma RejectedQueryIsNotExecuted(reply: LlmReply, execute1: string -> Result<string>, execute2: string -> Result<string>)
    requires reply.Answered? && !IsSelect(Strip(reply.content))
    ensures TextToSql(reply, execute1) == TextToSql(reply, execute2) == SelectOnly
  {
  }
}
