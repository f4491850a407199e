/** Building the plan, and the theorem that its own loader accepts it. */
module PlanBuild {
  import opened Prelude
  import Config
  import opened ProofPlan
  import opened IPPlan

  // ---- the pieces of a plan ----

  function FlowFor(c: Config.Settings, traffic: bool): FlowPlan {
    if c.flow.Disable? then FlowPlan(traffic, true, false, false, false, c.flow, DisableOffload, DisablePlanned)
    else if traffic then FlowPlan(true, true, false, false, false, c.flow, NoAction, FlowUnverified)
    else FlowPlan(false, false, false, false, false, c.flow, NoAction, NotApplicable)
  }

  predicate FlowGuarded(f: FlowPlan) {
    f.policyTraffic && f.requested.Preserve?
  }

  function FlowChecked(f: FlowPlan, d: Diagnostics): FlowPlan {
    f.(verified := d.flowVerified, software := d.softwareFlow, hardware := d.hardwareFlow,
       status := if !FlowGuarded(f) then f.status
                 else if !d.flowVerified then FlowUnverified
                 else if d.softwareFlow || d.hardwareFlow then Incompatible
                 else VerifiedDisabled)
  }

  function FlowBlock(f: FlowPlan, d: Diagnostics): string {
    if !FlowGuarded(f) then ""
    else if !d.flowVerified then "flow_offloading_unverified"
    else if d.softwareFlow || d.hardwareFlow then "flow_offloading_incompatible"
    else ""
  }

  const NO_TRANSPARENT := TransparentPlan(false, false, false, Unverified, 0, "", "", 0)
  const NO_ZAPRET := ZapretPlan(false, false, Unverified, 0, false)

  function TransparentFor(c: Config.Settings): TransparentPlan {
    TransparentPlan(true, !c.xrayManaged, false, Unverified, c.transparentPort, c.tproxyMark, c.bypassMark, c.xrayTable)
  }

  function ZapretFor(c: Config.Settings): ZapretPlan {
    ZapretPlan(true, !c.zapret.managed, Unverified, c.zapret.queue, c.zapret.projectOwned)
  }

  function TransparentChecked(t: TransparentPlan): TransparentPlan {
    if t.enabled then t.(capabilityVerified := true, status := if t.candidateOnly then CandidateOnly else Ready) else t
  }

  function ZapretChecked(z: ZapretPlan): ZapretPlan {
    if z.enabled then z.(status := if z.candidateOnly then CandidateOnly else Ready) else z
  }

  predicate HasZapret(proofs: seq<RouteProof>) {
    exists p | p in proofs :: p.kind.Zapret?
  }

  predicate LansInvalid(d: Diagnostics) {
    exists lan | lan in d.lans :: !ValidInterface(lan) || lan == d.wan
  }

  // ---- the route tables ----

  datatype RoutePlan = Stopped(reason: string) | Planned(routes: seq<IPRoute>)

  predicate Routed(p: RouteProof) {
    p.kind.Direct? || p.kind.Zapret? || p.kind.SmartDns?
  }

  function DefaultVia(family: Family, table: int, via: Address, device: string): IPRoute {
    IPRoute(family, table, "default", Unicast, via, device)
  }

  function ToLoopback(family: Family, table: int): IPRoute {
    IPRoute(family, table, if family.Ipv4? then "0.0.0.0/0" else "::/0", Local, NoAddress, "lo")
  }

  function NoIpv6(table: int): IPRoute {
    IPRoute(Ipv6, table, "::/0", Unreachable, NoAddress, "")
  }

  /** The routes one proof asks for, or the reason it cannot be served. */
  function WantedRoutes(p: RouteProof, d: Diagnostics): RoutePlan {
    if p.kind.Drop? then Planned([])
    else if p.table < 1 then Stopped("route_table_not_configured")
    else if Routed(p) then
      if !ValidInterface(d.wan) then Stopped("wan_interface_unverified")
      else if p.ipv4 && !d.gateway4.V4? then Stopped("ipv4_gateway_unverified")
      else if p.ipv6 && d.ipv6Available && !d.gateway6.V6? then Stopped("ipv6_gateway_unverified")
      else Planned(
        (if p.ipv4 then [DefaultVia(Ipv4, p.table, d.gateway4, d.wan)] else [])
        + if !p.ipv6 then []
          else if d.ipv6Available then [DefaultVia(Ipv6, p.table, d.gateway6, d.wan)]
          else [NoIpv6(p.table)])
    else if Proxied(p) then
      Planned((if p.ipv4 then [ToLoopback(Ipv4, p.table)] else []) + if p.ipv6 then [ToLoopback(Ipv6, p.table)] else [])
    else Stopped("route_type_unsupported")
  }

  function AddAll(routes: seq<IPRoute>, more: seq<IPRoute>): seq<IPRoute> {
    if more == [] then routes
    else
      var earlier := AddAll(routes, more[..|more| - 1]);
      if more[|more| - 1] in earlier then earlier else earlier + [more[|more| - 1]]
  }

  function PlanRoutes(proofs: seq<RouteProof>, d: Diagnostics): RoutePlan {
    if proofs == [] then Planned([])
    else
      match PlanRoutes(proofs[..|proofs| - 1], d)
      case Stopped(reason) => Stopped(reason)
      case Planned(routes) =>
        match WantedRoutes(proofs[|proofs| - 1], d)
        case Stopped(reason) => Stopped(reason)
        case Planned(more) => Planned(AddAll(routes, more))
  }

  const DEVICE_POLICY := "device_policy_data_plane_unverified"

  /** The whole plan. */
  ghost function PlanFor(c: Config.Settings, proofs: seq<RouteProof>, traffic: bool, loaded: Loaded): IPPlan {
    var flow := FlowFor(c, traffic);
    var base := IPPlan(false, "", false, [], [], proofs, RulesOf(c, proofs),
                       if HasProxied(proofs) then TransparentFor(c) else NO_TRANSPARENT,
                       if HasZapret(proofs) then ZapretFor(c) else NO_ZAPRET, flow, []);
    if !NeedsNetwork(proofs) && !flow.required then
      if c.deviceOverrides then base.(blockReason := DEVICE_POLICY) else base.(ready := true)
    else
      match loaded
      case Refused(reason) => base.(blockReason := reason)
      case Loaded(d) => WithDiagnostics(c, base.(provenance := true), proofs, d)
  }

  function WithDiagnostics(c: Config.Settings, base: IPPlan, proofs: seq<RouteProof>, d: Diagnostics): IPPlan {
    if base.transparent.enabled && !d.tproxy then base.(blockReason := "transparent_proxy_mode_unverified")
    else
      var checked := base.(transparent := TransparentChecked(base.transparent), zapret := ZapretChecked(base.zapret));
      if d.lans == [] then checked.(blockReason := "lan_interfaces_unverified")
      else if LansInvalid(d) then checked.(blockReason := "lan_interfaces_invalid")
      else
        var guarded := checked.(flow := FlowChecked(base.flow, d));
        match PlanRoutes(proofs, d)
        case Stopped(reason) => guarded.(blockReason := reason)
        case Planned(routes) => Decided(c, guarded, routes, FlowBlock(base.flow, d))
  }

  /** Everything is known: the plan is ready, or it only previews its routes. */
  function Decided(c: Config.Settings, plan: IPPlan, routes: seq<IPRoute>, flowBlock: string): IPPlan {
    if c.deviceOverrides then plan.(planned := routes, blockReason := DEVICE_POLICY)
    else if plan.transparent.enabled && plan.transparent.candidateOnly then
      plan.(planned := routes, blockReason := TRANSPARENT_UNVERIFIED)
    else if plan.zapret.enabled && plan.zapret.candidateOnly then
      plan.(planned := routes, blockReason := ZAPRET_UNVERIFIED)
    else if flowBlock != "" then plan.(planned := routes, blockReason := flowBlock)
    else plan.(routes := routes, ready := true)
  }

  // ---- the builder as it runs ----

  /** The closure `add` of `buildIPPlan`. */
  method AddRoute(routes: seq<IPRoute>, seen: set<IPRoute>, r: IPRoute, ghost before: seq<IPRoute>, ghost more: seq<IPRoute>)
    returns (routes': seq<IPRoute>, seen': set<IPRoute>)
    requires routes == AddAll(before, more) && forall q :: q in seen <==> q in routes
    ensures routes' == AddAll(before, more + [r]) && forall q :: q in seen' <==> q in routes'
  {
    routes', seen' := routes, seen;
    assert (more + [r])[..|more|] == more;
    if r !in seen {
      seen' := seen + {r};
      routes' := routes + [r];
    }
  }

  /** One turn of the loop over the proofs. */
  method RoutesOfProof(p: RouteProof, d: Diagnostics, routes: seq<IPRoute>, seen: set<IPRoute>)
    returns (reason: string, routes': seq<IPRoute>, seen': set<IPRoute>)
    requires forall q :: q in seen <==> q in routes
    ensures WantedRoutes(p, d).Stopped? ==> reason == WantedRoutes(p, d).reason && reason != ""
    ensures WantedRoutes(p, d).Planned? ==> reason == "" && routes' == AddAll(routes, WantedRoutes(p, d).routes)
    ensures forall q :: q in seen' <==> q in routes'
  {
    hide AddAll;
    NothingAdded(routes);
    reason, routes', seen' := "", routes, seen;
    if p.kind.Drop? {
      return;
    }
    if p.table < 1 {
      return "route_table_not_configured", routes, seen;
    }
    ghost var more: seq<IPRoute> := [];
    if p.kind.Direct? || p.kind.Zapret? || p.kind.SmartDns? {
      if !ValidInterface(d.wan) {
        return "wan_interface_unverified", routes, seen;
      }
      if p.ipv4 {
        if !d.gateway4.V4? {
          return "ipv4_gateway_unverified", routes, seen;
        }
        routes', seen' := AddRoute(routes', seen', DefaultVia(Ipv4, p.table, d.gateway4, d.wan), routes, more);
        more := more + [DefaultVia(Ipv4, p.table, d.gateway4, d.wan)];
      }
      if p.ipv6 {
        if d.ipv6Available {
          if !d.gateway6.V6? {
            return "ipv6_gateway_unverified", routes, seen;
          }
          routes', seen' := AddRoute(routes', seen', DefaultVia(Ipv6, p.table, d.gateway6, d.wan), routes, more);
          more := more + [DefaultVia(Ipv6, p.table, d.gateway6, d.wan)];
        } else {
          routes', seen' := AddRoute(routes', seen', NoIpv6(p.table), routes, more);
          more := more + [NoIpv6(p.table)];
        }
      }
    } else if p.kind.Vless? || p.kind.ExternalSocks? {
      if p.ipv4 {
        routes', seen' := AddRoute(routes', seen', ToLoopback(Ipv4, p.table), routes, more);
        more := more + [ToLoopback(Ipv4, p.table)];
      }
      if p.ipv6 {
        routes', seen' := AddRoute(routes', seen', ToLoopback(Ipv6, p.table), routes, more);
        more := more + [ToLoopback(Ipv6, p.table)];
      }
    } else {
      return "route_type_unsupported", routes, seen;
    }
    assert WantedRoutes(p, d) == Planned(more);
  }

  lemma NothingAdded(routes: seq<IPRoute>)
    ensures AddAll(routes, []) == routes
  {
  }

  method BuildRoutes(proofs: seq<RouteProof>, d: Diagnostics) returns (built: RoutePlan)
    ensures built == PlanRoutes(proofs, d)
  {
    hide WantedRoutes, AddAll;
    var routes: seq<IPRoute>, seen: set<IPRoute> := [], {};
    var i := 0;
    while i < |proofs|
      invariant 0 <= i <= |proofs| && PlanRoutes(proofs[..i], d) == Planned(routes)
      invariant forall q :: q in seen <==> q in routes
    {
      assert proofs[..i + 1][..i] == proofs[..i];
      var reason;
      reason, routes, seen := RoutesOfProof(proofs[i], d, routes, seen);
      if reason != "" {
        StaysStopped(proofs, i + 1, d);
        return Stopped(reason);
      }
      i := i + 1;
    }
    assert proofs[..i] == proofs;
    built := Planned(routes);
  }

  lemma {:induction false} StaysStopped(proofs: seq<RouteProof>, n: nat, d: Diagnostics)
    requires n <= |proofs| && PlanRoutes(proofs[..n], d).Stopped?
    ensures PlanRoutes(proofs, d) == PlanRoutes(proofs[..n], d)
    decreases |proofs|
  {
    if n < |proofs| {
      assert proofs[..|proofs| - 1][..n] == proofs[..n];
      StaysStopped(proofs[..|proofs| - 1], n, d);
    } else {
      assert proofs[..n] == proofs;
    }
  }

  /** `buildIPPlan`. */
  method BuildIPPlan(c: Config.Settings, proofs: seq<RouteProof>, traffic: bool, loaded: Loaded) returns (plan: IPPlan)
    ensures plan == PlanFor(c, proofs, traffic, loaded)
  {
    hide RulesOf, PlanRoutes;
    var rules := BuildIPRules(c, proofs);
    plan := IPPlan(false, "", false, [], [], proofs, rules, NO_TRANSPARENT, NO_ZAPRET, FlowFor(c, traffic), []);
    var needsNetwork := false;
    var i := 0;
    while i < |proofs|
      invariant 0 <= i <= |proofs|
      invariant needsNetwork == NeedsNetwork(proofs[..i])
      invariant plan == IPPlan(false, "", false, [], [], proofs, rules,
                               if HasProxied(proofs[..i]) then TransparentFor(c) else NO_TRANSPARENT,
                               if HasZapret(proofs[..i]) then ZapretFor(c) else NO_ZAPRET, FlowFor(c, traffic), [])
    {
      var p := proofs[i];
      OneMoreProof(proofs[..i], p);
      assert proofs[..i + 1] == proofs[..i] + [p];
      if !p.kind.Drop? {
        needsNetwork := true;
      }
      if p.kind.Vless? || p.kind.ExternalSocks? {
        plan := plan.(transparent := TransparentFor(c));
      }
      if p.kind.Zapret? {
        plan := plan.(zapret := ZapretFor(c));
      }
      i := i + 1;
    }
    assert proofs[..i] == proofs;
    if !needsNetwork && !plan.flow.required {
      if c.deviceOverrides {
        return plan.(blockReason := DEVICE_POLICY);
      }
      return plan.(ready := true);
    }
    if loaded.Refused? {
      return plan.(blockReason := loaded.reason);
    }
    var d := loaded.diagnostics;
    plan := plan.(provenance := true);
    if plan.transparent.enabled {
      if !d.tproxy {
        return plan.(blockReason := "transparent_proxy_mode_unverified");
      }
      plan := plan.(transparent := TransparentChecked(plan.transparent));
    }
    if plan.zapret.enabled {
      plan := plan.(zapret := ZapretChecked(plan.zapret));
    }
    if d.lans == [] {
      return plan.(blockReason := "lan_interfaces_unverified");
    }
    i := 0;
    while i < |d.lans|
      invariant 0 <= i <= |d.lans|
      invariant forall j | 0 <= j < i :: ValidInterface(d.lans[j]) && d.lans[j] != d.wan
    {
      if !ValidInterface(d.lans[i]) || d.lans[i] == d.wan {
        assert d.lans[i] in d.lans;
        return plan.(blockReason := "lan_interfaces_invalid");
      }
      i := i + 1;
    }
    assert !LansInvalid(d);
    var flowBlock := FlowBlock(plan.flow, d);
    plan := plan.(flow := FlowChecked(plan.flow, d));
    var built := BuildRoutes(proofs, d);
    if built.Stopped? {
      return plan.(blockReason := built.reason);
    }
    plan := Decided(c, plan, built.routes, flowBlock);
  }

  lemma OneMoreProof(proofs: seq<RouteProof>, p: RouteProof)
    ensures NeedsNetwork(proofs + [p]) <==> NeedsNetwork(proofs) || !p.kind.Drop?
    ensures HasProxied(proofs + [p]) <==> HasProxied(proofs) || Proxied(p)
    ensures HasZapret(proofs + [p]) <==> HasZapret(proofs) || p.kind.Zapret?
  {
    var more := proofs + [p];
    assert more[|proofs|] == p && forall q :: q in more <==> q in proofs || q == p;
  }
}
