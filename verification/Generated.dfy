/** The generated plan as a whole: routes, rules and DNS listeners together before the loader. */
module Generated {
  import Config
  import opened ProofPlan
  import opened IPPlan
  import opened PlanBuild
  import opened PlanAccepted
  import DnsProxies

  /**
   * What is generated from a valid config, ready or blocked, is accepted by the loader exactly when no
   * two used VLESS tags differ in case only and the plan does not get as far as routes in which a routed
   * route shares the proxy's table. All of it can be looked up before anything is generated.
   */
  lemma GeneratedPlanAccepted(c: Config.Settings, routes: seq<Config.Route>, proofs: seq<RouteProof>, traffic: bool,
                              loaded: Loaded, used: set<string>)
    requires Config.Valid(c) && ListsEnabled(c, routes) && PlanOf(c, routes, proofs) && LoaderReason(loaded)
    requires DnsProxies.Allocatable(c, routes, used)
    ensures Accepts(PlanFor(c, proofs, traffic, loaded).(dns := DnsProxies.Listeners(c, routes, used)))
            <==> DnsProxies.IdsDistinct(used) && !(ReachesRoutes(c, proofs, loaded) && SharesProxyTable(c, routes))
  {
    hide Config.Valid, PlanOf, PlanFor, Accepts, DnsOk, ReachesRoutes, TablesClash, Config.TagsDistinct;
    hide DnsProxies.Allocatable, DnsProxies.IdsDistinct, DnsProxies.Listeners, SharesProxyTable;
    ClashWhenShared(c, routes, proofs);
    BuiltPlanAccepted(c, routes, proofs, traffic, loaded, DnsProxies.Listeners(c, routes, used));
    DnsProxies.AllocatedAccepted(c, routes, proofs, used);
  }
}
