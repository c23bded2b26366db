/**
 * A separate, global-only governance check of the configuration helpers: five
 * risky phrases, no domain table, and the `domain` argument unused.
 */
module HelpersGovernance {
  import opened Text
  import Governance

  /** The five phrases this check knows, in the order it reports them. */
  const HelperRiskyPhrases: seq<string> := ["export all", "delete all", "download financials", "wipe", "truncate"]

  /** `check_governance` of the helpers: the matching phrases, held exactly when there is one. */
  function CheckGovernance(request: string, domain: string): (d: Governance.Decision)
    ensures d.needsApproval <==> AnyOccurs(HelperRiskyPhrases, Lower(request))
    ensures d.needsApproval <==> d.riskLevel == Governance.High
    ensures forall p :: p in d.reasons <==> p in HelperRiskyPhrases && Contains(Lower(request), p)
    ensures IsSubsequence(d.reasons, HelperRiskyPhrases)
    ensures !d.needsApproval ==> d == Governance.Decision(false, Governance.Low, [])
  {
    var reasons := Occurring(HelperRiskyPhrases, Lower(request));
    OccurringEmptyIff(HelperRiskyPhrases, Lower(request));
    if reasons != [] then Governance.Decision(true, Governance.High, reasons)
    else Governance.Decision(false, Governance.Low, [])
  }

  /** The domain plays no part in the decision. */
  lemma DomainIgnored(request: string, domain1: string, domain2: string)
    ensures CheckGovernance(request, domain1) == CheckGovernance(request, domain2)
  {
  }

  /** Whatever this check holds, the routers' check holds too, for every domain. */
  lemma RouterCheckIsStricter(request: string, domain: string)
    ensures CheckGovernance(request, domain).needsApproval ==> Governance.Risky(request, domain)
  {
    if CheckGovernance(request, domain).needsApproval {
      var p :| p in HelperRiskyPhrases && Contains(Lower(request), p);
      assert p in Governance.RiskyPhrases;
    }
  }
}
