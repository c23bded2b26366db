/**
 * The keyword router tool of the agent framework (`ClassifyAndRouteTool`):
 * an if/elif chain of substring tests on the lower-cased query, in the
 * priority analytics, inventory, sales, finance, with "general" when no
 * keyword occurs.
 */
module KeywordRouter {
  import opened Text

  const AnalyticsKeywords: seq<string> := ["analytics", "report", "data", "business intelligence", "sql"]
  const InventoryKeywords: seq<string> := ["inventory", "stock", "product", "level", "unit", "forecast"]
  const SalesKeywords: seq<string> := ["sales", "customer", "feedback", "sentiment"]
  const FinanceKeywords: seq<string> := ["finance", "payment", "invoice", "transaction", "anomaly", "fraud"]

  /** The names the tool can answer with. */
  const Targets: seq<string> := ["analytics_agent", "inventory_agent", "sales_agent", "finance_agent", "general"]

  /**
   * `ClassifyAndRouteTool._run`: the first group, in priority order, one of
   * whose keywords occurs in the lower-cased query.
   */
  function Route(query: string): (r: string)
    ensures r in Targets
    ensures r == "analytics_agent" <==> AnyOccurs(AnalyticsKeywords, Lower(query))
    ensures r == "inventory_agent" <==>
      !AnyOccurs(AnalyticsKeywords, Lower(query)) && AnyOccurs(InventoryKeywords, Lower(query))
    ensures r == "sales_agent" <==>
      !AnyOccurs(AnalyticsKeywords, Lower(query)) && !AnyOccurs(InventoryKeywords, Lower(query))
      && AnyOccurs(SalesKeywords, Lower(query))
    ensures r == "finance_agent" <==>
      !AnyOccurs(AnalyticsKeywords, Lower(query)) && !AnyOccurs(InventoryKeywords, Lower(query))
      && !AnyOccurs(SalesKeywords, Lower(query)) && AnyOccurs(FinanceKeywords, Lower(query))
    ensures r == "general" <==>
      !AnyOccurs(AnalyticsKeywords, Lower(query)) && !AnyOccurs(InventoryKeywords, Lower(query))
      && !AnyOccurs(SalesKeywords, Lower(query)) && !AnyOccurs(FinanceKeywords, Lower(query))
  {
    var q := Lower(query);
    MentionsIffAnyOccurs(q, AnalyticsKeywords);
    MentionsIffAnyOccurs(q, InventoryKeywords);
    MentionsIffAnyOccurs(q, SalesKeywords);
    MentionsIffAnyOccurs(q, FinanceKeywords);
    if Mentions(q, AnalyticsKeywords) then "analytics_agent"
    else if Mentions(q, InventoryKeywords) then "inventory_agent"
    else if Mentions(q, SalesKeywords) then "sales_agent"
    else if Mentions(q, FinanceKeywords) then "finance_agent"
    else "general"
  }

  /** `k1 in q or k2 in q or ...`, tested left to right. */
  predicate Mentions(q: string, keywords: seq<string>) {
    keywords != [] && (Contains(q, keywords[0]) || Mentions(q, keywords[1..]))
  }

  /** The chain of `in` tests holds exactly when some keyword of the list occurs. */
  lemma {:induction false} MentionsIffAnyOccurs(q: string, keywords: seq<string>)
    ensures Mentions(q, keywords) <==> AnyOccurs(keywords, q)
  {
    if keywords != [] {
      MentionsIffAnyOccurs(q, keywords[1..]);
      if AnyOccurs(keywords, q) && !Contains(q, keywords[0]) {
        var p :| p in keywords && Contains(q, p);
        assert p in keywords[1..];
      }
    }
  }

  /** The tool ignores letter case: it answers a query and its lower-cased form alike. */
  lemma RouteIgnoresCase(query: string)
    ensures Route(Lower(query)) == Route(query)
  {
    LowerIdempotent(query);
  }

  /** An analytics keyword wins over every other keyword in the same query. */
  lemma AnalyticsKeywordWins(query: string, k: string)
    requires k in AnalyticsKeywords && Contains(Lower(query), k)
    ensures Route(query) == "analytics_agent"
  {
  }
}
