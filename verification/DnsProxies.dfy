/** One loopback DNS listener for every VLESS route that a domain policy uses. */
module DnsProxies {
  import opened Prelude
  import opened Config
  import ProofPlan
  import Sorting
  import opened IPPlan

  // ---- the VLESS routes by tag ----

  predicate TagLess(a: Route, b: Route) {
    StrLess(a.tag, b.tag)
  }

  lemma TagLessStrict()
    ensures Sorting.Strict(TagLess)
  {
    forall a: Route, b: Route ensures TagLess(a, b) ==> !TagLess(b, a) {
      StrLessTotal(a.tag, b.tag);
    }
    forall a: Route, b: Route, c: Route ensures TagLess(a, b) && TagLess(b, c) ==> TagLess(a, c) {
      if TagLess(a, b) && TagLess(b, c) { StrLessTransitive(a.tag, b.tag, c.tag); }
    }
  }

  function VlessOf(routes: seq<Route>): seq<Route> {
    if routes == [] then []
    else VlessOf(routes[..|routes| - 1]) + if routes[|routes| - 1].kind.Vless? then [routes[|routes| - 1]] else []
  }

  /** The enabled VLESS routes in the order of their tags. */
  function VlessByTag(routes: seq<Route>): seq<Route> {
    Sorting.Sort(TagLess, VlessOf(routes))
  }

  lemma {:induction false} VlessOfFacts(routes: seq<Route>)
    requires TagsDistinct(routes)
    ensures forall r :: r in VlessOf(routes) <==> r in routes && r.kind.Vless?
    ensures TagsDistinct(VlessOf(routes))
  {
    if routes != [] {
      var before, last := routes[..|routes| - 1], routes[|routes| - 1];
      assert routes == before + [last];
      VlessOfFacts(before);
      forall r | r in VlessOf(before) ensures r.tag != last.tag {
        var i :| 0 <= i < |before| && before[i] == r;
        assert routes[i].tag != routes[|routes| - 1].tag;
      }
    }
  }

  function TagOf(r: Route): string {
    r.tag
  }

  lemma VlessFacts(routes: seq<Route>)
    requires TagsDistinct(routes)
    ensures forall r :: r in VlessByTag(routes) <==> r in routes && r.kind.Vless?
    ensures TagsDistinct(VlessByTag(routes)) && Sorting.InOrder(TagLess, VlessByTag(routes))
  {
    hide TagLess;
    var vless, sorted := VlessOf(routes), VlessByTag(routes);
    VlessOfFacts(routes);
    TagLessStrict();
    Sorting.SortOrders(TagLess, vless);
    Sorting.SortMembers(TagLess, vless);
    assert Sorting.DistinctBy(TagOf, vless);
    Sorting.SortKeepsDistinct(TagLess, TagOf, vless);
    forall i, j | 0 <= i < j < |sorted| ensures sorted[i].tag != sorted[j].tag {
      assert TagOf(sorted[i]) != TagOf(sorted[j]);
    }
  }

  // ---- what is allocated ----

  /** `splitProxy` accepts the endpoint. */
  predicate Parses(s: Socks) {
    s.NoSocks? || (s.Loopback? && 1 <= s.port <= 65535)
  }

  function PortAt(c: Settings, index: nat): int {
    DnsBasePort(c) + index
  }

  /** Ports that are taken before the first allocation. */
  ghost predicate Reserved(c: Settings, routes: seq<Route>, port: int) {
    port == c.transparentPort || exists r | r in routes :: r.socks == Loopback(port)
  }

  /** Every route that the policies use has the port of its place in the tag order, and that port is free. */
  ghost predicate PortsFree(c: Settings, routes: seq<Route>, used: set<string>) {
    var vless := VlessByTag(routes);
    forall i | 0 <= i < |vless| && vless[i].tag in used ::
      PortAt(c, i) <= 65535 && !Reserved(c, routes, PortAt(c, i))
  }

  ghost predicate Allocatable(c: Settings, routes: seq<Route>, used: set<string>) {
    used == {} ||
    (&& (forall r | r in routes :: Parses(r.socks))
     && c.publicResolver
     && (forall tag | tag in used :: exists r | r in VlessByTag(routes) :: r.tag == tag)
     && PortsFree(c, routes, used))
  }

  function ProxyFor(c: Settings, r: Route, index: nat): DnsProxy {
    DnsProxy(r.tag, RouteId(r.tag), PortAt(c, index), r.tag)
  }

  /** The plans for the used routes among the first `n`, in tag order. */
  function ProxiesFor(c: Settings, vless: seq<Route>, used: set<string>, n: nat): seq<DnsProxy>
    requires n <= |vless|
  {
    if n == 0 then []
    else ProxiesFor(c, vless, used, n - 1) + if vless[n - 1].tag in used then [ProxyFor(c, vless[n - 1], n - 1)] else []
  }

  /** What is allocated: nothing when no VLESS route is used. */
  function Listeners(c: Settings, routes: seq<Route>, used: set<string>): seq<DnsProxy> {
    if used == {} then [] else ProxiesFor(c, VlessByTag(routes), used, |VlessByTag(routes)|)
  }

  method UsedPorts(c: Settings, routes: seq<Route>) returns (ok: bool, ports: set<int>)
    ensures ok <==> forall r | r in routes :: Parses(r.socks)
    ensures ok ==> forall port :: port in ports <==> Reserved(c, routes, port)
  {
    ports := {c.transparentPort};
    var i := 0;
    while i < |routes|
      invariant 0 <= i <= |routes|
      invariant forall j | 0 <= j < i :: Parses(routes[j].socks)
      invariant forall port :: port in ports <==> Reserved(c, routes[..i], port)
    {
      var r := routes[i];
      assert r in routes && routes[..i + 1] == routes[..i] + [r];
      if r.socks != NoSocks {
        if !Parses(r.socks) {
          return false, ports;
        }
        ports := ports + {r.socks.port};
        assert r in routes[..i + 1] && r.socks == Loopback(r.socks.port);
      }
      i := i + 1;
    }
    assert routes[..i] == routes;
    ok := true;
  }

  /** The used tags among the first `n` VLESS routes. */
  ghost function UsedBefore(vless: seq<Route>, used: set<string>, n: nat): set<string>
    requires n <= |vless|
  {
    set i | 0 <= i < n && vless[i].tag in used :: vless[i].tag
  }

  lemma {:induction false} ProxiesCount(c: Settings, vless: seq<Route>, used: set<string>, n: nat)
    requires n <= |vless| && TagsDistinct(vless)
    ensures |ProxiesFor(c, vless, used, n)| == |UsedBefore(vless, used, n)|
  {
    if n > 0 {
      ProxiesCount(c, vless, used, n - 1);
      var tag := vless[n - 1].tag;
      assert tag !in UsedBefore(vless, used, n - 1);
      assert UsedBefore(vless, used, n) == UsedBefore(vless, used, n - 1) + if tag in used then {tag} else {};
    }
  }

  /** The count check of the source: all used routes were found. */
  lemma AllFound(c: Settings, routes: seq<Route>, used: set<string>)
    requires TagsDistinct(routes)
    ensures |ProxiesFor(c, VlessByTag(routes), used, |VlessByTag(routes)|)| == |used|
            <==> forall tag | tag in used :: exists r | r in VlessByTag(routes) :: r.tag == tag
  {
    var vless := VlessByTag(routes);
    VlessFacts(routes);
    ProxiesCount(c, vless, used, |vless|);
    var found := UsedBefore(vless, used, |vless|);
    assert found <= used;
    if |found| == |used| {
      SubsetOfSameSize(found, used);
    }
    if forall tag | tag in used :: exists r | r in vless :: r.tag == tag {
      forall tag | tag in used ensures tag in found {
        var r :| r in vless && r.tag == tag;
        var i :| 0 <= i < |vless| && vless[i] == r;
      }
      assert found == used;
    }
  }

  lemma SubsetOfSameSize(a: set<string>, b: set<string>)
    requires a <= b && |a| == |b|
    ensures a == b
  {
    assert |b - a| == 0;
  }

  /** The loop over the VLESS routes: each used one gets the port of its place. */
  method Allocate(c: Settings, vless: seq<Route>, used: set<string>, taken: set<int>) returns (plans: Option<seq<DnsProxy>>)
    ensures plans.Some? <==>
              forall i | 0 <= i < |vless| && vless[i].tag in used :: PortAt(c, i) <= 65535 && PortAt(c, i) !in taken
    ensures plans.Some? ==> plans.value == ProxiesFor(c, vless, used, |vless|)
  {
    hide RouteId;
    var usedPorts := taken;
    var out: seq<DnsProxy> := [];
    var index := 0;
    while index < |vless|
      invariant 0 <= index <= |vless| && out == ProxiesFor(c, vless, used, index)
      invariant forall port | port >= PortAt(c, index) :: port in usedPorts <==> port in taken
      invariant forall i | 0 <= i < index && vless[i].tag in used :: PortAt(c, i) <= 65535 && PortAt(c, i) !in taken
    {
      if vless[index].tag in used {
        var port := DnsBasePort(c) + index;
        assert port == PortAt(c, index);
        if port > 65535 || port in usedPorts {
          return None;
        }
        usedPorts := usedPorts + {port};
        out := out + [ProxyFor(c, vless[index], index)];
      }
      index := index + 1;
    }
    plans := Some(out);
  }

  /** `buildDNSProxyPlans`; `used` are the VLESS tags that the domain policies select. */
  method BuildDnsProxies(c: Settings, routes: seq<Route>, used: set<string>) returns (plans: Option<seq<DnsProxy>>)
    requires TagsDistinct(routes)
    ensures plans.Some? <==> Allocatable(c, routes, used)
    ensures plans.Some? ==> plans.value == Listeners(c, routes, used)
  {
    hide VlessByTag, Reserved, Parses, TagsDistinct, ProxiesFor;
    if used == {} {
      return Some([]);
    }
    var ok, usedPorts := UsedPorts(c, routes);
    if !ok || !c.publicResolver {
      return None;
    }
    var vless := VlessByTag(routes);
    plans := Allocate(c, vless, used, usedPorts);
    AllFound(c, routes, used);
    if plans.Some? && |plans.value| != |used| {
      return None;
    }
  }

  // ---- allocation succeeds, and its result is accepted ----

  ghost function Tags(routes: seq<Route>): set<string> {
    if routes == [] then {} else Tags(routes[..|routes| - 1]) + {routes[|routes| - 1].tag}
  }

  ghost function VlessTags(routes: seq<Route>): set<string> {
    if routes == [] then {}
    else VlessTags(routes[..|routes| - 1]) + if EnabledVless(routes[|routes| - 1]) then {routes[|routes| - 1].tag} else {}
  }

  lemma {:induction false} TagMembers(routes: seq<Route>, tag: string)
    ensures tag in Tags(routes) <==> exists r | r in routes :: r.tag == tag
    ensures tag in VlessTags(routes) <==> exists r | r in routes :: EnabledVless(r) && r.tag == tag
  {
    if routes != [] {
      var before, last := routes[..|routes| - 1], routes[|routes| - 1];
      assert routes == before + [last] && last in routes;
      TagMembers(before, tag);
    }
  }

  lemma {:induction false} CountByTags(routes: seq<Route>)
    requires TagsDistinct(routes)
    ensures |Tags(routes)| == |routes| && |VlessTags(routes)| == VlessCount(routes)
  {
    if routes != [] {
      var before, last := routes[..|routes| - 1], routes[|routes| - 1];
      CountByTags(before);
      TagMembers(before, last.tag);
    }
  }

  lemma VlessFit(c: Settings, routes: seq<Route>)
    requires TagsDistinct(routes) && TagsDistinct(c.routes)
    requires forall r :: r in routes <==> r in c.routes && Enabled(r)
    ensures |VlessByTag(routes)| == VlessCount(c.routes)
  {
    hide VlessByTag, TagsDistinct;
    var vless := VlessByTag(routes);
    VlessFacts(routes);
    CountByTags(vless);
    CountByTags(c.routes);
    forall tag
      ensures tag in Tags(vless) <==> tag in VlessTags(c.routes)
    {
      TagMembers(vless, tag);
      TagMembers(c.routes, tag);
    }
    assert Tags(vless) == VlessTags(c.routes);
  }

  /** A route outside the transparent types keeps out of the way of the allocated ports. */
  ghost predicate StaysClear(c: Settings, routes: seq<Route>, used: set<string>, r: Route) {
    Parses(r.socks)
    && forall i | 0 <= i < |VlessByTag(routes)| && VlessByTag(routes)[i].tag in used :: r.socks != Loopback(PortAt(c, i))
  }

  /**
   * On a valid config, allocation for the VLESS routes in use succeeds exactly when the SOCKS endpoints
   * that validation does not look at, those of other route types, stay clear of the allocated ports.
   */
  lemma AllocationSucceeds(c: Settings, routes: seq<Route>, used: set<string>)
    requires Valid(c) && TagsDistinct(routes) && forall r :: r in routes <==> r in c.routes && Enabled(r)
    requires used != {} && forall tag | tag in used :: exists r | r in routes :: r.kind.Vless? && r.tag == tag
    ensures Allocatable(c, routes, used) <==>
              forall r | r in routes && !Transparent(r) :: StaysClear(c, routes, used, r)
  {
    hide Valid, VlessByTag, TagsDistinct, PortAt;
    var vless := VlessByTag(routes);
    VlessFacts(routes);
    var tag :| tag in used;
    var v :| v in routes && v.kind.Vless? && v.tag == tag;
    assert v in vless;
    ResolverIsPublic(c, v);
    forall i | 0 <= i < |vless|
      ensures PortAt(c, i) <= 65535 && PortAt(c, i) != c.transparentPort
      ensures forall r | r in routes && Transparent(r) :: Parses(r.socks) && r.socks != Loopback(PortAt(c, i))
    {
      ValidatedPort(c, routes, i);
    }
    forall r | r in routes && Transparent(r) ensures StaysClear(c, routes, used, r) {
      ValidatedPort(c, routes, 0);
    }
    if Allocatable(c, routes, used) {
      forall r, i | r in routes && 0 <= i < |vless| && vless[i].tag in used ensures r.socks != Loopback(PortAt(c, i)) {
        assert !Reserved(c, routes, PortAt(c, i));
      }
    }
  }

  lemma ResolverIsPublic(c: Settings, v: Route)
    requires Valid(c) && v in c.routes && EnabledVless(v)
    ensures c.publicResolver
  {
    assert Transparent(v);
  }

  /** What validation has checked about the port of one place in the tag order. */
  lemma ValidatedPort(c: Settings, routes: seq<Route>, i: nat)
    requires Valid(c) && TagsDistinct(routes) && forall r :: r in routes <==> r in c.routes && Enabled(r)
    requires i < |VlessByTag(routes)|
    ensures 1024 <= PortAt(c, i) <= 65535 && PortAt(c, i) != c.transparentPort
    ensures forall r | r in routes && Transparent(r) :: Parses(r.socks) && r.socks != Loopback(PortAt(c, i))
  {
    hide VlessByTag, MarksOk, Config.ZapretOk, Config.TransparentOk;
    VlessFacts(routes);
    ValidListing(c);
    VlessFit(c, routes);
    assert !PortTaken(c, PortAt(c, i));
    forall r | r in routes && Transparent(r) ensures Parses(r.socks) && r.socks != Loopback(PortAt(c, i)) {
      assert FieldsOk(r) && Listens(r, r.socks.port);
    }
  }

  lemma ValidListing(c: Settings)
    requires Valid(c)
    ensures TagsDistinct(c.routes) && forall r | r in c.routes :: FieldsOk(r)
  {
  }

  lemma NoSocksClear(c: Settings, routes: seq<Route>, used: set<string>)
    ensures forall r | r in routes && r.socks.NoSocks? :: StaysClear(c, routes, used, r)
  {
  }

  /** The corollary for configs with SOCKS endpoints on transparent route types only. */
  lemma AllocationNeverFails(c: Settings, routes: seq<Route>, used: set<string>)
    requires Valid(c) && TagsDistinct(routes) && forall r :: r in routes <==> r in c.routes && Enabled(r)
    requires forall tag | tag in used :: exists r | r in routes :: r.kind.Vless? && r.tag == tag
    requires forall r | r in routes && !Transparent(r) :: r.socks.NoSocks?
    ensures Allocatable(c, routes, used)
  {
    hide Valid, VlessByTag, StaysClear;
    assert forall r | r in routes && r.socks.NoSocks? :: StaysClear(c, routes, used, r) by {
      NoSocksClear(c, routes, used);
    }
    if used != {} {
      AllocationSucceeds(c, routes, used);
    }
  }

  /** Ports go up, and stay below `bound`. */
  ghost predicate Ascending(plans: seq<DnsProxy>, bound: int) {
    && (forall i | 0 <= i < |plans| :: plans[i].port < bound)
    && (forall i, j | 0 <= i < j < |plans| :: plans[i].port < plans[j].port)
  }

  lemma {:induction false} ProxyPlaces(c: Settings, vless: seq<Route>, used: set<string>, n: nat)
    requires n <= |vless|
    ensures forall d | d in ProxiesFor(c, vless, used, n) ::
              exists i | 0 <= i < n && vless[i].tag in used :: d == ProxyFor(c, vless[i], i)
    ensures forall i | 0 <= i < n && vless[i].tag in used :: ProxyFor(c, vless[i], i) in ProxiesFor(c, vless, used, n)
    ensures Ascending(ProxiesFor(c, vless, used, n), PortAt(c, n))
  {
    hide RouteId;
    if n > 0 {
      ProxyPlaces(c, vless, used, n - 1);
    }
  }

  /** Allocated ports differ from each other and from every port in use, and lie in 1024..65535. */
  lemma AllocatedPorts(c: Settings, routes: seq<Route>, used: set<string>)
    requires Valid(c) && TagsDistinct(routes) && forall r :: r in routes <==> r in c.routes && Enabled(r)
    requires Allocatable(c, routes, used)
    ensures var plans := Listeners(c, routes, used);
            && (forall d | d in plans :: 1024 <= d.port <= 65535 && !Reserved(c, routes, d.port))
            && (forall i, j | 0 <= i < j < |plans| :: plans[i].port != plans[j].port)
  {
    hide Valid, VlessByTag, Reserved, RouteId;
    if used == {} {
      return;
    }
    var vless := VlessByTag(routes);
    ProxyPlaces(c, vless, used, |vless|);
    var plans := ProxiesFor(c, vless, used, |vless|);
    forall d | d in plans ensures 1024 <= d.port <= 65535 && !Reserved(c, routes, d.port) {
      var i :| 0 <= i < |vless| && vless[i].tag in used && d == ProxyFor(c, vless[i], i);
      ValidatedPort(c, routes, i);
      assert !Reserved(c, routes, PortAt(c, i));
    }
  }

  /** No two of these tags differ in case only. */
  ghost predicate IdsDistinct(used: set<string>) {
    forall a, b | a in used && b in used && RouteId(a) == RouteId(b) :: a == b
  }

  /** The plan loader accepts the allocated listeners exactly when no two used tags differ in case only. */
  lemma AllocatedAccepted(c: Settings, routes: seq<Route>, proofs: seq<ProofPlan.RouteProof>, used: set<string>)
    requires Valid(c) && TagsDistinct(routes) && forall r :: r in routes <==> r in c.routes && Enabled(r)
    requires ProofPlan.PlanOf(c, routes, proofs)
    requires Allocatable(c, routes, used)
    ensures DnsOk(Listeners(c, routes, used), proofs) <==> IdsDistinct(used)
  {
    if used == {} {
      NoDns(proofs);
    } else {
      UsedListenersAccepted(c, routes, proofs, used);
    }
  }

  lemma UsedListenersAccepted(c: Settings, routes: seq<Route>, proofs: seq<ProofPlan.RouteProof>, used: set<string>)
    requires Valid(c) && TagsDistinct(routes) && forall r :: r in routes <==> r in c.routes && Enabled(r)
    requires ProofPlan.PlanOf(c, routes, proofs)
    requires Allocatable(c, routes, used) && used != {}
    ensures DnsOk(ProxiesFor(c, VlessByTag(routes), used, |VlessByTag(routes)|), proofs) <==> IdsDistinct(used)
  {
    hide VlessByTag, Config.RoutesOk, MarksOk, Config.ZapretOk, Config.TransparentOk, RouteId, DnsPortsOk, ProofPlan.Leader;
    hide MarkForType, TableForType;
    var vless := VlessByTag(routes);
    VlessFacts(routes);
    ValidListing(c);
    AllocatedPorts(c, routes, used);
    ProxyPlaces(c, vless, used, |vless|);
    var plans := ProxiesFor(c, vless, used, |vless|);
    forall d | d in plans
      ensures d.routeTag in used && d.inbound == RouteId(d.routeTag) && DnsEntryOk(d, proofs)
    {
      var i :| 0 <= i < |vless| && vless[i].tag in used && d == ProxyFor(c, vless[i], i);
      assert vless[i] in vless && FieldsOk(vless[i]);
      var k :| 0 <= k < |routes| && routes[k] == vless[i];
      assert ProofPlan.ProofOf(c, routes[k], proofs[k]) && proofs[k] in proofs;
    }
    if IdsDistinct(used) {
      forall i, j | 0 <= i < j < |plans|
        ensures plans[i].routeTag != plans[j].routeTag && plans[i].inbound != plans[j].inbound
      {
        DifferentTags(c, vless, used, plans[i], plans[j]);
      }
    } else {
      var a, b :| a in used && b in used && RouteId(a) == RouteId(b) && a != b;
      var i := PlaceOf(c, vless, used, a);
      var j := PlaceOf(c, vless, used, b);
      assert plans[i].inbound == plans[j].inbound && i != j;
      if i < j {
        assert !DnsOk(plans, proofs);
      } else {
        assert plans[j].inbound == plans[i].inbound;
      }
    }
  }

  lemma DifferentTags(c: Settings, vless: seq<Route>, used: set<string>, d: DnsProxy, e: DnsProxy)
    requires TagsDistinct(vless) && d.port != e.port
    requires d in ProxiesFor(c, vless, used, |vless|) && e in ProxiesFor(c, vless, used, |vless|)
    ensures d.routeTag != e.routeTag
  {
    ProxyPlaces(c, vless, used, |vless|);
    var i :| 0 <= i < |vless| && vless[i].tag in used && d == ProxyFor(c, vless[i], i);
    var j :| 0 <= j < |vless| && vless[j].tag in used && e == ProxyFor(c, vless[j], j);
  }

  lemma PlaceOf(c: Settings, vless: seq<Route>, used: set<string>, tag: string) returns (k: nat)
    requires tag in used && exists r | r in vless :: r.tag == tag
    ensures k < |ProxiesFor(c, vless, used, |vless|)|
    ensures ProxiesFor(c, vless, used, |vless|)[k].routeTag == tag
    ensures ProxiesFor(c, vless, used, |vless|)[k].inbound == RouteId(tag)
  {
    ProxyPlaces(c, vless, used, |vless|);
    var r :| r in vless && r.tag == tag;
    var i :| 0 <= i < |vless| && vless[i] == r;
    var d := ProxyFor(c, vless[i], i);
    assert d in ProxiesFor(c, vless, used, |vless|);
    k :| 0 <= k < |ProxiesFor(c, vless, used, |vless|)| && ProxiesFor(c, vless, used, |vless|)[k] == d;
  }
}
