/** The proxy's routing rules for the transparent inbounds, and the rule that decides a name. */
module XrayRouting {
  import opened Prelude
  import Config
  import opened Domains

  const FAIL_CLOSED: string := "router-policy-tproxy-drop"

  datatype NameMatch = Full(domain: string) | Domain(domain: string) | AnyName

  datatype RoutingRule = RoutingRule(name: NameMatch, outbound: string)

  predicate RuleCatches(r: RoutingRule, name: string) {
    match r.name
    case Full(domain) => name == domain
    case Domain(domain) => Under(name, domain)
    case AnyName => true
  }

  /** The proxy takes the first rule that catches a name. */
  function Decision(rules: seq<RoutingRule>, name: string): Option<string> {
    if rules == [] then None
    else if RuleCatches(rules[0], name) then Some(rules[0].outbound)
    else Decision(rules[1..], name)
  }

  /** A drop route without an outbound of its own uses the closing one. */
  function OutboundOf(p: Policy, outbounds: set<string>): string {
    if p.route.kind.Drop? && p.route.tag !in outbounds then FAIL_CLOSED else p.route.tag
  }

  function RuleOf(p: Policy, outbounds: set<string>): RoutingRule {
    RoutingRule(if p.exact then Full(p.domain) else Domain(p.domain), OutboundOf(p, outbounds))
  }

  function RulesOf(policies: seq<Policy>, outbounds: set<string>): seq<RoutingRule> {
    if policies == [] then [RoutingRule(AnyName, FAIL_CLOSED)]
    else [RuleOf(policies[0], outbounds)] + RulesOf(policies[1..], outbounds)
  }

  predicate Known(p: Policy, outbounds: set<string>) {
    OutboundOf(p, outbounds) == FAIL_CLOSED || OutboundOf(p, outbounds) in outbounds
  }

  /** The loop of `renderXray` over the domain policies; `outbounds` are the tags in use before it. */
  method RenderRules(policies: seq<Policy>, outbounds: set<string>) returns (rules: Option<seq<RoutingRule>>)
    ensures rules.Some? <==> FAIL_CLOSED !in outbounds && forall p | p in policies :: Known(p, outbounds)
    ensures rules.Some? ==> rules.value == RulesOf(policies, outbounds)
  {
    if FAIL_CLOSED in outbounds {
      return None;
    }
    var used := outbounds + {FAIL_CLOSED};
    var out: seq<RoutingRule> := [];
    var i := 0;
    assert policies[0..] == policies;
    while i < |policies|
      invariant 0 <= i <= |policies|
      invariant out + RulesOf(policies[i..], outbounds) == RulesOf(policies, outbounds)
      invariant forall j | 0 <= j < i :: Known(policies[j], outbounds)
    {
      var p := policies[i];
      assert policies[i..][0] == p && policies[i..][1..] == policies[i + 1..] && p in policies;
      var outbound := p.route.tag;
      if p.route.kind.Drop? && outbound !in outbounds {
        outbound := FAIL_CLOSED;
      }
      if outbound !in used {
        assert !Known(p, outbounds);
        return None;
      }
      var rule := RoutingRule(if p.exact then Full(p.domain) else Domain(p.domain), outbound);
      assert out + ([rule] + RulesOf(policies[i + 1..], outbounds)) == out + [rule] + RulesOf(policies[i + 1..], outbounds);
      out := out + [rule];
      i := i + 1;
    }
    rules := Some(out + [RoutingRule(AnyName, FAIL_CLOSED)]);
  }

  /** The most specific policy for a name: an exact one, or the one above it with the most labels. */
  ghost predicate MostSpecific(policies: seq<Policy>, name: string, p: Policy) {
    && p in policies && Catches(p, name)
    && forall q | q in policies && Catches(q, name) && q != p ::
         !q.exact && (p.exact || Dots(q.domain) < Dots(p.domain))
  }

  /** In a sorted list the first policy that catches a name is the most specific one. */
  lemma FirstIsMostSpecific(policies: seq<Policy>, name: string, i: nat)
    requires InOrder(policies) && DomainsDistinct(policies)
    requires i < |policies| && Catches(policies[i], name)
    requires forall j | 0 <= j < i :: !Catches(policies[j], name)
    ensures MostSpecific(policies, name, policies[i])
  {
    var p := policies[i];
    forall q | q in policies && Catches(q, name) && q != p
      ensures !q.exact && (p.exact || Dots(q.domain) < Dots(p.domain))
    {
      var j :| 0 <= j < |policies| && policies[j] == q;
      assert i < j && !Before(q, p) && q.domain != p.domain;
      if !p.exact && Dots(q.domain) == Dots(p.domain) {
        SameDotsSameDomain(name, p.domain, q.domain);
      }
    }
  }

  lemma MostSpecificUnique(policies: seq<Policy>, name: string, p: Policy, q: Policy)
    requires MostSpecific(policies, name, p) && MostSpecific(policies, name, q)
    ensures p == q
  {
  }

  lemma {:induction false} DecisionIsFirst(policies: seq<Policy>, outbounds: set<string>, name: string) returns (i: nat)
    ensures i <= |policies| && forall j | 0 <= j < i :: !Catches(policies[j], name)
    ensures i < |policies| ==> Catches(policies[i], name)
    ensures Decision(RulesOf(policies, outbounds), name)
            == Some(if i < |policies| then OutboundOf(policies[i], outbounds) else FAIL_CLOSED)
  {
    if policies == [] {
      i := 0;
    } else {
      var rules, rest := RulesOf(policies, outbounds), policies[1..];
      assert rules[1..] == RulesOf(rest, outbounds);
      if Catches(policies[0], name) {
        i := 0;
      } else {
        var n := DecisionIsFirst(rest, outbounds, name);
        assert forall j | 1 <= j < n + 1 :: policies[j] == rest[j - 1];
        i := n + 1;
      }
    }
  }

  /**
   * First match over the compiled order is most-specific match, for every name: the exact policy if there
   * is one, otherwise the policy above the name with the most labels, otherwise the closing outbound.
   */
  lemma FirstMatchIsMostSpecific(policies: seq<Policy>, outbounds: set<string>, name: string)
    requires InOrder(policies) && DomainsDistinct(policies)
    ensures forall p | MostSpecific(policies, name, p) ::
              Decision(RulesOf(policies, outbounds), name) == Some(OutboundOf(p, outbounds))
    ensures (exists p | p in policies :: Catches(p, name)) <==> exists p :: MostSpecific(policies, name, p)
    ensures (forall p | p in policies :: !Catches(p, name)) ==>
              Decision(RulesOf(policies, outbounds), name) == Some(FAIL_CLOSED)
  {
    hide MostSpecific, Catches, RulesOf, OutboundOf, Decision;
    var i := DecisionIsFirst(policies, outbounds, name);
    if i < |policies| {
      FirstIsMostSpecific(policies, name, i);
      forall p | MostSpecific(policies, name, p) ensures p == policies[i] {
        MostSpecificUnique(policies, name, p, policies[i]);
      }
      assert policies[i] in policies;
    } else {
      forall p | p in policies ensures !Catches(p, name) {
        var j :| 0 <= j < |policies| && policies[j] == p;
      }
      forall p ensures !MostSpecific(policies, name, p) {
        NeedsCatch(policies, name, p);
      }
    }
  }

  lemma NeedsCatch(policies: seq<Policy>, name: string, p: Policy)
    ensures MostSpecific(policies, name, p) ==> p in policies && Catches(p, name)
  {
  }

  /** From the services and overrides of a config to the decision for a name. */
  lemma CompiledDecision(services: seq<Service>, overrides: seq<ExactOverride>, choose: Chooser, outbounds: set<string>,
                         name: string, p: Policy)
    requires Claimed(Claims(services, overrides), choose).Some?
    requires MostSpecific(Sorted(Claimed(Claims(services, overrides), choose).value), name, p)
    ensures Decision(RulesOf(Sorted(Claimed(Claims(services, overrides), choose).value), outbounds), name)
            == Some(OutboundOf(p, outbounds))
    ensures MadeByFirst(Claims(services, overrides), choose, p)
  {
    hide Claims, MostSpecific, Catches, Decision, Claimed, Sorted;
    var claims := Claims(services, overrides);
    var policies := Claimed(claims, choose).value;
    ClaimedFacts(claims, choose);
    SortIsInOrder(policies);
    FirstMatchIsMostSpecific(Sorted(policies), outbounds, name);
    NeedsCatch(Sorted(policies), name, p);
  }
}
