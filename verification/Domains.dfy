/** Domain policies, the order they are compiled in, and the routing rule that catches a name first. */
module Domains {
  import opened Prelude
  import Config
  import Sorting

  datatype Policy = Policy(domain: string, service: string, route: Config.Route, exact: bool)

  datatype Service = Service(name: string, domains: seq<string>)

  /** An `exact_domain` override, with the service that its domain belongs to. */
  datatype ExactOverride = ExactOverride(domain: string, service: string)

  /** What policy matching decides for a domain of a service. */
  datatype Choice = Refused | ByService(route: Config.Route) | ByOverride(route: Config.Route, exact: bool)

  type Chooser = (string, string) -> Choice

  // ---- names ----

  function Dots(s: string): nat {
    if s == [] then 0 else (if s[0] == '.' then 1 else 0) + Dots(s[1..])
  }

  predicate EndsWith(s: string, end: string) {
    |end| <= |s| && s[|s| - |end|..] == end
  }

  /** A `domain:` rule: the domain itself and everything below it. */
  predicate Under(name: string, domain: string) {
    name == domain || EndsWith(name, "." + domain)
  }

  predicate Catches(p: Policy, name: string) {
    if p.exact then name == p.domain else Under(name, p.domain)
  }

  lemma {:induction false} DotsConcat(a: string, b: string)
    ensures Dots(a + b) == Dots(a) + Dots(b)
  {
    if a == [] {
      assert a + b == b;
    } else {
      assert (a + b)[1..] == a[1..] + b;
      DotsConcat(a[1..], b);
    }
  }

  /** Of two domains above one name, the shorter one has fewer labels. */
  lemma ShorterHasFewerDots(name: string, a: string, b: string)
    requires Under(name, a) && Under(name, b) && |a| < |b|
    ensures Dots(a) < Dots(b)
  {
    var cut := |b| - |a|;
    assert EndsWith(name, "." + a);
    assert name[|name| - |b|..] == b by {
      if name != b {
        assert name[|name| - |b| - 1..] == "." + b;
        assert name[|name| - |b|..] == name[|name| - |b| - 1..][1..];
      }
    }
    assert b[cut - 1..] == name[|name| - |a| - 1..] == "." + a;
    assert b == b[..cut - 1] + b[cut - 1..];
    DotsConcat(b[..cut - 1], b[cut - 1..]);
    DotsConcat(".", a);
    assert "."[1..] == [];
    assert Dots(".") == 1 + Dots([]);
  }

  lemma SameDotsSameDomain(name: string, a: string, b: string)
    requires Under(name, a) && Under(name, b) && Dots(a) == Dots(b)
    ensures a == b
  {
    if |a| < |b| {
      ShorterHasFewerDots(name, a, b);
    } else if |b| < |a| {
      ShorterHasFewerDots(name, b, a);
    } else {
      assert EndsWith(name, a) by { SuffixOf(name, a); }
      assert EndsWith(name, b) by { SuffixOf(name, b); }
    }
  }

  lemma SuffixOf(name: string, domain: string)
    requires Under(name, domain)
    ensures EndsWith(name, domain)
  {
    if name != domain {
      assert name[|name| - |domain|..] == name[|name| - |domain| - 1..][1..];
    } else {
      assert name[0..] == name;
    }
  }

  // ---- the order of policies ----

  /** Exact policies first, then more labels, then the name. */
  predicate Before(a: Policy, b: Policy) {
    if a.exact != b.exact then a.exact
    else if Dots(a.domain) != Dots(b.domain) then Dots(a.domain) > Dots(b.domain)
    else StrLess(a.domain, b.domain)
  }

  lemma BeforeStrict()
    ensures Sorting.Strict(Before)
  {
    forall a: Policy, b: Policy ensures Before(a, b) ==> !Before(b, a) {
      StrLessTotal(a.domain, b.domain);
    }
    forall a: Policy, b: Policy, c: Policy ensures Before(a, b) && Before(b, c) ==> Before(a, c) {
      if StrLess(a.domain, b.domain) && StrLess(b.domain, c.domain) {
        StrLessTransitive(a.domain, b.domain, c.domain);
      }
    }
  }

  ghost predicate InOrder(policies: seq<Policy>) {
    forall i, j | 0 <= i < j < |policies| :: !Before(policies[j], policies[i])
  }

  /** `sort.SliceStable` on the policies. */
  function Sorted(policies: seq<Policy>): seq<Policy> {
    Sorting.Sort(Before, policies)
  }

  lemma SortIsInOrder(policies: seq<Policy>)
    ensures InOrder(Sorted(policies))
    ensures forall q :: q in Sorted(policies) <==> q in policies
    ensures DomainsDistinct(policies) ==> DomainsDistinct(Sorted(policies))
  {
    BeforeStrict();
    Sorting.SortOrders(Before, policies);
    Sorting.SortMembers(Before, policies);
    if DomainsDistinct(policies) {
      assert Sorting.DistinctBy(DomainOf, policies);
      Sorting.SortKeepsDistinct(Before, DomainOf, policies);
      forall i, j | 0 <= i < j < |Sorted(policies)| ensures Sorted(policies)[i].domain != Sorted(policies)[j].domain {
        assert DomainOf(Sorted(policies)[i]) != DomainOf(Sorted(policies)[j]);
      }
    }
  }

  function DomainOf(p: Policy): string {
    p.domain
  }

  // ---- building the policies ----

  /** The policy a claim makes; None if policy matching refuses it. */
  function PolicyFor(choose: Chooser, domain: string, service: string, exact: bool): Option<Policy> {
    match choose(domain, service)
    case Refused => None
    case ByService(route) => Some(Policy(domain, service, route, exact))
    case ByOverride(route, exactOverride) => Some(Policy(domain, service, route, exactOverride))
  }

  datatype Claim = Claim(domain: string, service: string, exact: bool)

  function ClaimsOf(service: string, domains: seq<string>): seq<Claim> {
    if domains == [] then [] else [Claim(domains[0], service, false)] + ClaimsOf(service, domains[1..])
  }

  function ServiceClaims(services: seq<Service>): seq<Claim> {
    if services == [] then []
    else ClaimsOf(services[0].name, Sorting.Sort(StrLess, services[0].domains)) + ServiceClaims(services[1..])
  }

  function OverrideClaims(overrides: seq<ExactOverride>): seq<Claim> {
    if overrides == [] then [] else [Claim(overrides[0].domain, overrides[0].service, true)] + OverrideClaims(overrides[1..])
  }

  /** All claims in the order in which they are made: services by name, their domains sorted, then overrides. */
  function Claims(services: seq<Service>, overrides: seq<ExactOverride>): seq<Claim> {
    ServiceClaims(services) + OverrideClaims(overrides)
  }

  lemma {:induction false} DomainClaims(service: string, domains: seq<string>)
    ensures forall c :: c in ClaimsOf(service, domains) <==> c.domain in domains && c == Claim(c.domain, service, false)
  {
    if domains != [] {
      DomainClaims(service, domains[1..]);
      assert domains == [domains[0]] + domains[1..];
    }
  }

  ghost predicate ClaimedByService(services: seq<Service>, c: Claim) {
    exists s | s in services :: c.domain in s.domains && c == Claim(c.domain, s.name, false)
  }

  lemma {:induction false} AllServiceClaims(services: seq<Service>)
    ensures forall c :: c in ServiceClaims(services) <==> ClaimedByService(services, c)
  {
    if services != [] {
      var s := services[0];
      AllServiceClaims(services[1..]);
      DomainClaims(s.name, Sorting.Sort(StrLess, s.domains));
      Sorting.SortMembers(StrLess, s.domains);
      assert services == [s] + services[1..];
      forall c ensures ClaimedByService(services, c) <==>
                         (c.domain in s.domains && c == Claim(c.domain, s.name, false)) || ClaimedByService(services[1..], c)
      {
        assert s in services && forall other :: other in services <==> other == s || other in services[1..];
      }
    }
  }

  lemma {:induction false} EachOverrideClaims(overrides: seq<ExactOverride>)
    ensures |OverrideClaims(overrides)| == |overrides|
    ensures forall k | 0 <= k < |overrides| :: OverrideClaims(overrides)[k] == Claim(overrides[k].domain, overrides[k].service, true)
  {
    if overrides != [] {
      EachOverrideClaims(overrides[1..]);
      forall k | 0 < k < |overrides| ensures overrides[k] == overrides[1..][k - 1] {
      }
    }
  }

  lemma Joined(a: seq<Claim>, b: seq<Claim>)
    ensures (a + b)[..|a|] == a && |a + b| - |b| == |a|
    ensures forall k | 0 <= k < |b| :: (a + b)[|a| + k] == b[k]
  {
  }

  /** The claims are those of the services' domains, none exact, and after all of them the overrides in order, all exact. */
  lemma ClaimsExactly(services: seq<Service>, overrides: seq<ExactOverride>)
    ensures var all := Claims(services, overrides);
            var n := |all| - |overrides|;
            && n >= 0 && (forall c :: c in all[..n] <==> ClaimedByService(services, c))
            && (forall k | 0 <= k < |overrides| :: all[n + k] == Claim(overrides[k].domain, overrides[k].service, true))
  {
    hide ServiceClaims, OverrideClaims, ClaimedByService, ClaimsOf;
    AllServiceClaims(services);
    EachOverrideClaims(overrides);
    Joined(ServiceClaims(services), OverrideClaims(overrides));
  }

  predicate Has(policies: seq<Policy>, domain: string) {
    exists p | p in policies :: p.domain == domain
  }

  /** The policies after a list of claims: a domain that is taken already is passed over. */
  function Claimed(claims: seq<Claim>, choose: Chooser): Option<seq<Policy>> {
    if claims == [] then Some([])
    else
      var c := claims[|claims| - 1];
      match Claimed(claims[..|claims| - 1], choose)
      case None => None
      case Some(policies) =>
        if Has(policies, c.domain) then Some(policies)
        else
          match PolicyFor(choose, c.domain, c.service, c.exact)
          case None => None
          case Some(p) => Some(policies + [p])
  }

  /** The closure `add` of `buildDomainPolicies`. */
  method Add(choose: Chooser, c: Claim, policies: seq<Policy>, seen: set<string>, ghost claims: seq<Claim>)
    returns (ok: bool, policies': seq<Policy>, seen': set<string>)
    requires Claimed(claims, choose) == Some(policies)
    requires forall d :: d in seen <==> Has(policies, d)
    ensures Claimed(claims + [c], choose) == if ok then Some(policies') else None
    ensures forall d :: d in seen' <==> Has(policies', d)
  {
    assert (claims + [c])[..|claims|] == claims;
    policies', seen' := policies, seen;
    if c.domain in seen {
      return true, policies, seen;
    }
    var made := PolicyFor(choose, c.domain, c.service, c.exact);
    if made.None? {
      return false, policies, seen;
    }
    ok := true;
    HasSnoc(policies, made.value);
    policies' := policies + [made.value];
    seen' := seen + {c.domain};
  }

  lemma HasSnoc(policies: seq<Policy>, p: Policy)
    ensures forall d :: Has(policies + [p], d) <==> Has(policies, d) || d == p.domain
  {
    var more := policies + [p];
    assert more[|policies|] == p && forall q :: q in more <==> q in policies || q == p;
  }

  lemma {:induction false} ClaimedPrefix(claims: seq<Claim>, n: nat, choose: Chooser)
    requires n <= |claims| && Claimed(claims[..n], choose).None?
    ensures Claimed(claims, choose).None?
  {
    if n < |claims| {
      assert claims[..|claims| - 1][..n] == claims[..n];
      ClaimedPrefix(claims[..|claims| - 1], n, choose);
    } else {
      assert claims[..n] == claims;
    }
  }

  /** The claims of one list, one after the other. */
  method AddAll(choose: Chooser, more: seq<Claim>, policies: seq<Policy>, seen: set<string>, ghost claims: seq<Claim>)
    returns (ok: bool, policies': seq<Policy>, seen': set<string>)
    requires Claimed(claims, choose) == Some(policies)
    requires forall d :: d in seen <==> Has(policies, d)
    ensures Claimed(claims + more, choose) == if ok then Some(policies') else None
    ensures forall d :: d in seen' <==> Has(policies', d)
  {
    hide Claimed, Has, PolicyFor;
    ok, policies', seen' := true, policies, seen;
    var j := 0;
    assert claims + more[..0] == claims;
    while j < |more|
      invariant 0 <= j <= |more| && ok
      invariant Claimed(claims + more[..j], choose) == Some(policies') && forall d :: d in seen' <==> Has(policies', d)
    {
      assert claims + more[..j + 1] == claims + more[..j] + [more[j]];
      ok, policies', seen' := Add(choose, more[j], policies', seen', claims + more[..j]);
      if !ok {
        assert (claims + more)[..|claims| + j + 1] == claims + more[..j + 1];
        ClaimedPrefix(claims + more, |claims| + j + 1, choose);
        return;
      }
      j := j + 1;
    }
    assert more[..j] == more;
  }

  /** `buildDomainPolicies`: services by name, then the exact overrides; the first claim on a domain counts. */
  method BuildDomainPolicies(services: seq<Service>, overrides: seq<ExactOverride>, choose: Chooser)
    returns (built: Option<seq<Policy>>)
    ensures built == match Claimed(Claims(services, overrides), choose)
                     case None => None
                     case Some(policies) => Some(Sorted(policies))
  {
    hide Claimed, Has, Sorting.Sort, Sorted, ClaimsOf, OverrideClaims;
    ghost var claims: seq<Claim> := [];
    ghost var all := Claims(services, overrides);
    var policies: seq<Policy>, seen: set<string> := [], {};
    NothingClaimed(choose);
    var ok;
    var i := 0;
    assert services[0..] == services;
    while i < |services|
      invariant 0 <= i <= |services|
      invariant claims + (ServiceClaims(services[i..]) + OverrideClaims(overrides)) == all
      invariant Claimed(claims, choose) == Some(policies) && forall d :: d in seen <==> Has(policies, d)
    {
      assert services[i..][0] == services[i] && services[i..][1..] == services[i + 1..];
      var mine := ClaimsOf(services[i].name, Sorting.Sort(StrLess, services[i].domains));
      ok, policies, seen := AddAll(choose, mine, policies, seen, claims);
      claims := claims + mine;
      if !ok {
        assert all[..|claims|] == claims;
        ClaimedPrefix(all, |claims|, choose);
        return None;
      }
      i := i + 1;
    }
    ok, policies, seen := AddAll(choose, OverrideClaims(overrides), policies, seen, claims);
    assert all == claims + OverrideClaims(overrides);
    built := if ok then Some(Sorted(policies)) else None;
  }

  lemma NothingClaimed(choose: Chooser)
    ensures Claimed([], choose) == Some([]) && forall d :: !Has([], d)
  {
  }

  /** Where a domain is claimed first. */
  function FirstClaim(claims: seq<Claim>, domain: string): (n: nat)
    ensures n <= |claims| && (n < |claims| ==> claims[n].domain == domain)
    ensures forall m | 0 <= m < n :: claims[m].domain != domain
  {
    if claims == [] || claims[0].domain == domain then 0
    else
      assert claims == [claims[0]] + claims[1..];
      FirstClaim(claims[1..], domain) + 1
  }

  ghost predicate DomainsDistinct(policies: seq<Policy>) {
    forall i, j | 0 <= i < j < |policies| :: policies[i].domain != policies[j].domain
  }

  /** The policy was made by the first claim on its domain. */
  ghost predicate MadeByFirst(claims: seq<Claim>, choose: Chooser, p: Policy) {
    var n := FirstClaim(claims, p.domain);
    n < |claims| && Some(p) == PolicyFor(choose, claims[n].domain, claims[n].service, claims[n].exact)
  }

  /** One policy a claimed domain, made by the first claim on it. */
  lemma {:induction false} ClaimedFacts(claims: seq<Claim>, choose: Chooser)
    requires Claimed(claims, choose).Some?
    ensures DomainsDistinct(Claimed(claims, choose).value)
    ensures forall c | c in claims :: Has(Claimed(claims, choose).value, c.domain)
    ensures forall p | p in Claimed(claims, choose).value :: MadeByFirst(claims, choose, p)
  {
    hide PolicyFor;
    if claims != [] {
      var before, c := claims[..|claims| - 1], claims[|claims| - 1];
      assert claims == before + [c];
      ClaimedFacts(before, choose);
      var policies := Claimed(before, choose).value;
      forall p | p in policies ensures MadeByFirst(claims, choose, p) {
        assert FirstClaim(claims, p.domain) == FirstClaim(before, p.domain);
      }
      if !Has(policies, c.domain) {
        var p := PolicyFor(choose, c.domain, c.service, c.exact).value;
        PolicyDomain(choose, c);
        HasSnoc(policies, p);
        assert FirstClaim(claims, c.domain) == |before| by {
          forall m | 0 <= m < |before| ensures claims[m].domain != c.domain {
            assert claims[m] in before;
          }
        }
      }
    }
  }

  /** Policies are refused exactly when policy matching refuses some domain for the service that claims it first. */
  lemma {:induction false} ClaimedWhenChosen(claims: seq<Claim>, choose: Chooser)
    ensures Claimed(claims, choose).Some? <==>
              forall n | 0 <= n < |claims| && FirstClaim(claims, claims[n].domain) == n ::
                PolicyFor(choose, claims[n].domain, claims[n].service, claims[n].exact).Some?
  {
    hide PolicyFor;
    if claims != [] {
      var before, c := claims[..|claims| - 1], claims[|claims| - 1];
      assert claims == before + [c];
      ClaimedWhenChosen(before, choose);
      forall n | 0 <= n < |before| ensures FirstClaim(before, before[n].domain) == n <==> FirstClaim(claims, claims[n].domain) == n {
        FirstClaimOfPrefix(before, c, before[n].domain);
      }
      FirstClaimOfPrefix(before, c, c.domain);
      if Claimed(before, choose).Some? {
        ClaimedFacts(before, choose);
        var policies := Claimed(before, choose).value;
        if Has(policies, c.domain) {
          var p :| p in policies && p.domain == c.domain;
          assert MadeByFirst(before, choose, p);
        }
      }
    }
  }

  lemma FirstClaimOfPrefix(before: seq<Claim>, c: Claim, domain: string)
    ensures FirstClaim(before, domain) < |before| ==> FirstClaim(before + [c], domain) == FirstClaim(before, domain)
    ensures FirstClaim(before, domain) == |before| ==>
              FirstClaim(before + [c], domain) == |before| + if c.domain == domain then 0 else 1
  {
    var all := before + [c];
    assert forall m | 0 <= m < |before| :: all[m] == before[m];
    assert all[|before|] == c;
  }

  lemma PolicyDomain(choose: Chooser, c: Claim)
    ensures var p := PolicyFor(choose, c.domain, c.service, c.exact); p.Some? ==> p.value.domain == c.domain
  {
  }
}
