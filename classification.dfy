/**
 * Domain classification shared by the two router agents: the LLM's answer is
 * accepted only when, trimmed and lower-cased, it is one of the four domain
 * tokens; otherwise the request is scored against a keyword table and the
 * first domain with the highest score wins.
 */
module Classification {
  import opened Wrappers
  import opened Text

  /** The four domains, in the order the score dictionary is built (and so the order that breaks ties). */
  datatype Domain = Sales | Finance | Inventory | Analytics

  const Domains: seq<Domain> := [Sales, Finance, Inventory, Analytics]

  /** The position of a domain in `Domains`. */
  function Position(d: Domain): (i: nat)
    ensures i < |Domains| && Domains[i] == d
  {
    match d
    case Sales => 0
    case Finance => 1
    case Inventory => 2
    case Analytics => 3
  }

  /** The token that names a domain in prompts, answers and log rows. */
  function Token(d: Domain): string {
    match d
    case Sales => "sales"
    case Finance => "finance"
    case Inventory => "inventory"
    case Analytics => "analytics"
  }

  /** The list of allowed answers `llm_classify_domain` checks against. */
  const DomainTokens: seq<string> := ["sales", "finance", "inventory", "analytics"]

  /** The domain a token names, if it names one (`None` stands for `"unknown"`). */
  function ParseToken(s: string): (d: Option<Domain>)
    ensures d.Some? <==> s in DomainTokens
    ensures d.Some? ==> Token(d.value) == s
  {
    if s == "sales" then Some(Sales)
    else if s == "finance" then Some(Finance)
    else if s == "inventory" then Some(Inventory)
    else if s == "analytics" then Some(Analytics)
    else None
  }

  /** What the call to the LLM gives: the reply's content, or the message of the exception it raised. */
  datatype LlmReply = Answered(content: string) | Raised(error: string)

  /** One keyword list per domain, as the score dictionary of a router lists them. */
  datatype KeywordTable = KeywordTable(sales: seq<string>, finance: seq<string>, inventory: seq<string>, analytics: seq<string>)

  /**
   * `llm_classify_domain`: the domain whose token is the answer, trimmed and
   * lower-cased; `None` (the source's `"unknown"`) for any other answer and
   * when the call raises.
   */
  function LlmClassify(reply: LlmReply): (answer: Option<Domain>)
    ensures answer.Some? <==> reply.Answered? && Lower(Strip(reply.content)) in DomainTokens
    ensures answer.Some? ==> Token(answer.value) == Lower(Strip(reply.content))
  {
    match reply
    case Raised(_) => None
    case Answered(content) => ParseToken(Lower(Strip(content)))
  }

  /** `sum(1 for kw in keywords if kw in text)`: how many entries of the list occur; zero exactly when none does. */
  function KeywordCount(keywords: seq<string>, text: string): (n: nat)
    ensures n == |OccurringPositions(keywords, text)|
    ensures n <= |keywords|
    ensures n == 0 <==> !AnyOccurs(keywords, text)
  {
    OccurringEmptyIff(keywords, text);
    OccurringCount(keywords, text);
    |Occurring(keywords, text)|
  }

  /** The score dictionary, in domain order. */
  function Scores(table: KeywordTable, text: string): (s: seq<nat>)
    ensures |s| == |DomainTokens|
  {
    [KeywordCount(table.sales, text), KeywordCount(table.finance, text),
     KeywordCount(table.inventory, text), KeywordCount(table.analytics, text)]
  }

  /**
   * `max` over the scores with the score as key: the position of a highest
   * score, the first such position when several tie (a later item replaces
   * the current maximum only when strictly greater).
   */
  function FirstMax(scores: seq<nat>): (r: nat)
    requires scores != []
    ensures r < |scores|
    ensures forall j :: 0 <= j < |scores| ==> scores[j] <= scores[r]
    ensures forall j :: 0 <= j < r ==> scores[j] < scores[r]
  {
    if |scores| == 1 then 0
    else
      var best := FirstMax(scores[..|scores| - 1]);
      if scores[|scores| - 1] > scores[best] then |scores| - 1 else best
  }

  /** The keyword fallback: the first domain, in table order, with the most keywords in the lower-cased request. */
  function KeywordFallback(table: KeywordTable, request: string): Domain {
    Domains[FirstMax(Scores(table, Lower(request)))]
  }

  /** Classification as `classify_and_route` does it: the LLM's domain, and the keyword fallback only on `"unknown"`. */
  function Classify(reply: LlmReply, table: KeywordTable, request: string): Domain {
    match LlmClassify(reply)
    case Some(d) => d
    case None => KeywordFallback(table, request)
  }

  /**
   * The fallback's domain has the highest score, and every domain before it
   * in table order has a strictly lower one.
   */
  lemma FallbackPicksFirstHighest(table: KeywordTable, request: string, k: nat)
    requires k < |Domains| && Domains[k] == KeywordFallback(table, request)
    ensures var s := Scores(table, Lower(request));
      (forall j :: 0 <= j < |s| ==> s[j] <= s[k]) && (forall j :: 0 <= j < k ==> s[j] < s[k])
  {
    var s := Scores(table, Lower(request));
    var r := FirstMax(s);
    assert Position(Domains[r]) == r;
    assert Position(Domains[k]) == k;
  }

  /** When no keyword of any domain occurs, the fallback picks `"sales"`. */
  lemma NoKeywordMeansSales(table: KeywordTable, request: string)
    requires forall j :: 0 <= j < |Domains| ==> Scores(table, Lower(request))[j] == 0
    ensures KeywordFallback(table, request) == Sales
  {
    var s := Scores(table, Lower(request));
    var r := FirstMax(s);
    assert s[r] == 0;
    assert s[0] == 0;
  }

  /** The LLM's answer is used exactly when it names a domain; the keyword scores decide only otherwise. */
  lemma FallbackOnlyOnUnknown(reply: LlmReply, table: KeywordTable, request: string)
    ensures reply.Answered? && Lower(Strip(reply.content)) in DomainTokens ==>
      Token(Classify(reply, table, request)) == Lower(Strip(reply.content))
    ensures !(reply.Answered? && Lower(Strip(reply.content)) in DomainTokens) ==>
      Classify(reply, table, request) == KeywordFallback(table, request)
  {
  }
}
