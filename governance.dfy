/**
 * The governance gate of the two router agents (the phrase tables and the
 * check are the same in both): a request is held for approval when its
 * lower-cased text contains one of the globally risky phrases, or one of the
 * phrases listed as sensitive for the domain it was classified into.
 */
module Governance {
  import opened Text

  datatype RiskLevel = Low | High

  /** The dictionary `{needs_approval, risk_level, reasons}` the check returns. */
  datatype Decision = Decision(needsApproval: bool, riskLevel: RiskLevel, reasons: seq<string>)

  /** The printed name of a risk level, as it appears in the risk notice. */
  function RiskName(level: RiskLevel): string {
    match level
    case Low => "LOW"
    case High => "HIGH"
  }

  /** Phrases that flag a request whatever its domain, in the order they are reported. */
  const RiskyPhrases: seq<string> := [
    "export all", "delete all", "drop table", "truncate", "wipe",
    "download financials", "mass update", "bulk delete", "transfer funds"
  ]

  /** Phrases that flag a request only in their own domain. */
  const DomainSensitiveTable: map<string, seq<string>> := map[
    "finance" := ["payments", "payout", "transfer", "invoice export"],
    "inventory" := ["adjust all stock", "zero stock"],
    "sales" := ["export customers", "delete leads"],
    "analytics" := ["export report", "download report"]
  ]

  const DomainSensitivePrefix: string := "domain-sensitive: "

  /** `domain_sensitive.get(domain, [])`. */
  function DomainSensitive(domain: string): seq<string> {
    if domain in DomainSensitiveTable then DomainSensitiveTable[domain] else []
  }

  /** The reason reported for a domain-sensitive phrase. */
  function Tagged(phrases: seq<string>): seq<string> {
    seq(|phrases|, i requires 0 <= i < |phrases| => DomainSensitivePrefix + phrases[i])
  }

  lemma TaggedAppend(a: seq<string>, b: seq<string>)
    ensures Tagged(a + b) == Tagged(a) + Tagged(b)
  {
    assert |Tagged(a + b)| == |Tagged(a) + Tagged(b)|;
    forall i | 0 <= i < |a + b|
      ensures Tagged(a + b)[i] == (Tagged(a) + Tagged(b))[i]
    {
      if i < |a| {
        assert (a + b)[i] == a[i];
      } else {
        assert (a + b)[i] == b[i - |a|];
      }
    }
  }

  /**
   * The reasons the check reports: the risky phrases found, in table order,
   * then the domain's sensitive phrases found, each tagged.
   */
  function Reasons(request: string, domain: string): seq<string> {
    var text := Lower(request);
    Occurring(RiskyPhrases, text) + Tagged(Occurring(DomainSensitive(domain), text))
  }

  /** Some phrase, global or of the domain, occurs in the lower-cased request. */
  predicate Risky(request: string, domain: string) {
    AnyOccurs(RiskyPhrases, Lower(request)) || AnyOccurs(DomainSensitive(domain), Lower(request))
  }

  /** The decision reached from a list of reasons: held exactly when there is one. */
  function Verdict(reasons: seq<string>): Decision {
    if reasons != [] then Decision(true, High, reasons) else Decision(false, Low, [])
  }

  /**
   * `check_governance`: the comprehension over the global phrases, then the
   * loop that appends each sensitive phrase of the domain that occurs.
   */
  method CheckGovernance(request: string, domain: string) returns (d: Decision)
    ensures d == Verdict(Reasons(request, domain))
    ensures d.needsApproval <==> Risky(request, domain)
    ensures d.needsApproval <==> d.riskLevel == High
    ensures d.needsApproval <==> d.reasons != []
    ensures !d.needsApproval ==> d == Decision(false, Low, [])
  {
    var text := Lower(request);
    var reasons := Occurring(RiskyPhrases, text);
    reasons := AppendSensitive(reasons, DomainSensitive(domain), text);
    ReasonsEmptyIff(request, domain);
    d := Verdict(reasons);
  }

  /** The loop of `check_governance`: appends, tagged and in list order, each phrase that occurs in `text`. */
  method AppendSensitive(global: seq<string>, phrases: seq<string>, text: string) returns (reasons: seq<string>)
    ensures reasons == global + Tagged(Occurring(phrases, text))
  {
    reasons := global;
    var i := 0;
    while i < |phrases|
      invariant 0 <= i <= |phrases|
      invariant reasons == global + Tagged(Occurring(phrases[..i], text))
    {
      assert phrases[..i + 1] == phrases[..i] + [phrases[i]];
      OccurringSnoc(phrases[..i], phrases[i], text);
      if Contains(text, phrases[i]) {
        TaggedAppend(Occurring(phrases[..i], text), [phrases[i]]);
        reasons := reasons + [DomainSensitivePrefix + phrases[i]];
      } else {
        assert Occurring(phrases[..i + 1], text) == Occurring(phrases[..i], text);
      }
      i := i + 1;
    }
    assert phrases[..i] == phrases;
  }

  /** There are reasons exactly when some phrase occurs. */
  lemma ReasonsEmptyIff(request: string, domain: string)
    ensures Reasons(request, domain) == [] <==> !Risky(request, domain)
  {
    var text := Lower(request);
    OccurringEmptyIff(RiskyPhrases, text);
    OccurringEmptyIff(DomainSensitive(domain), text);
  }

  /** No global phrase looks like a tagged domain entry. */
  lemma RiskyPhrasesUntagged()
    ensures forall p :: p in RiskyPhrases ==> !StartsWith(p, DomainSensitivePrefix)
  {
    forall p | p in RiskyPhrases
      ensures !StartsWith(p, DomainSensitivePrefix)
    {
      if |p| >= |DomainSensitivePrefix| {
        assert p == "download financials";
        assert p[2] != DomainSensitivePrefix[2];
      }
    }
  }

  /** Every risky phrase found in the request is reported verbatim, and no other one is. */
  lemma GlobalMatchesReported(request: string, domain: string, p: string)
    requires p in RiskyPhrases
    ensures p in Reasons(request, domain) <==> Contains(Lower(request), p)
  {
    var text := Lower(request);
    var tagged := Tagged(Occurring(DomainSensitive(domain), text));
    RiskyPhrasesUntagged();
    forall i | 0 <= i < |tagged|
      ensures tagged[i] != p
    {
      assert StartsWith(tagged[i], DomainSensitivePrefix);
    }
  }

  /**
   * Global entries come first: every entry that precedes a global phrase is a
   * global phrase, and every entry after the global ones is a tagged phrase
   * of the domain's own list that occurs in the request.
   */
  lemma ReasonsOrdered(request: string, domain: string)
    ensures var rs := Reasons(request, domain);
      forall i, j :: 0 <= i < j < |rs| && rs[j] in RiskyPhrases ==> rs[i] in RiskyPhrases
    ensures var rs := Reasons(request, domain);
      forall k :: 0 <= k < |rs| && rs[k] !in RiskyPhrases ==>
        exists p :: p in DomainSensitive(domain) && Contains(Lower(request), p) && rs[k] == DomainSensitivePrefix + p
  {
    var text := Lower(request);
    var global := Occurring(RiskyPhrases, text);
    var found := Occurring(DomainSensitive(domain), text);
    var rs := Reasons(request, domain);
    RiskyPhrasesUntagged();
    forall k | |global| <= k < |rs|
      ensures rs[k] !in RiskyPhrases
      ensures rs[k] == DomainSensitivePrefix + found[k - |global|]
    {
      assert rs[k] == Tagged(found)[k - |global|];
      assert StartsWith(rs[k], DomainSensitivePrefix);
    }
    forall k | 0 <= k < |rs|
      ensures rs[k] in RiskyPhrases
           || exists p :: p in DomainSensitive(domain) && Contains(text, p) && rs[k] == DomainSensitivePrefix + p
    {
      if k < |global| {
        assert rs[k] == global[k];
        assert rs[k] in global;
      } else {
        assert found[k - |global|] in found;
      }
    }
    forall i, j | 0 <= i < j < |rs| && rs[j] in RiskyPhrases
      ensures rs[i] in RiskyPhrases
    {
      assert rs[i] == global[i];
      assert rs[i] in global;
    }
  }

  /** Every sensitive phrase of the request's domain that occurs is reported with its tag. */
  lemma DomainMatchesReported(request: string, domain: string, p: string)
    requires p in DomainSensitive(domain) && Contains(Lower(request), p)
    ensures DomainSensitivePrefix + p in Reasons(request, domain)
  {
    var found := Occurring(DomainSensitive(domain), Lower(request));
    var k :| 0 <= k < |found| && found[k] == p;
    assert Tagged(found)[k] == DomainSensitivePrefix + p;
  }

  /** A domain outside the table adds nothing to the global matches. */
  lemma UnlistedDomainAddsNothing(request: string, domain: string)
    requires domain !in DomainSensitiveTable
    ensures Reasons(request, domain) == Occurring(RiskyPhrases, Lower(request))
  {
    assert Tagged([]) == [];
  }

  /** The check ignores letter case: lowering the request first changes nothing. */
  lemma ReasonsIgnoreCase(request: string, domain: string)
    ensures Reasons(Lower(request), domain) == Reasons(request, domain)
  {
    LowerIdempotent(request);
  }
}
