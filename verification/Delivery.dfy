/** From a packet on the LAN, through the filter program, to the route table it is looked up in. */
module Delivery {
  import opened Prelude
  import Config
  import opened ProofPlan
  import opened IPPlan
  import opened PlanBuild
  import opened PlanAccepted
  import opened Kernel
  import opened Lookup
  import Domains
  import Nft
  import NftMeaning
  import RouteSets

  /** The mark under which packets of a route reach the kernel's rules, and the priority of its rule. */
  function CarriedMark(c: Config.Settings, proof: RouteProof): string {
    if Proxied(proof) then c.tproxyMark else proof.mark
  }

  ghost function CarriedPriority(c: Config.Settings, proofs: seq<RouteProof>, proof: RouteProof): int {
    if Proxied(proof) then TPROXY_PRIORITY else InstalledPriority(c, proofs, proof)
  }

  /** At most one rule at each planned priority, and no foreign rule that catches the mark before ours. */
  ghost predicate KernelReady(c: Config.Settings, proofs: seq<RouteProof>, proof: RouteProof, f: Family, db: RuleDb,
                              foreign: nat -> bool) {
    var rules := OfFamily(RulesOf(c, proofs), f);
    && InOrder(db) && (forall r | r in rules :: One(db, r.priority))
    && NothingForeignAhead(db, rules, MarkNumber(CarriedMark(c, proof)), foreign, CarriedPriority(c, proofs, proof))
  }

  /** Under the mark it carries, a packet of any route is looked up in that route's table, exactly unless it is diverted. */
  lemma CarriedMarkFindsTable(c: Config.Settings, routes: seq<Config.Route>, proofs: seq<RouteProof>, proof: RouteProof,
                              f: Family, db: RuleDb, foreign: nat -> bool)
    requires Config.Valid(c) && ListsEnabled(c, routes) && PlanOf(c, routes, proofs)
    requires proof in proofs && (Routed(proof) || Proxied(proof)) && f in Families(c)
    requires KernelReady(c, proofs, proof, f, db, foreign)
    ensures LookupTable(InstalledAll(db, OfFamily(RulesOf(c, proofs), f)), MarkNumber(CarriedMark(c, proof)), foreign) == Some(proof.table)
            <==> !Diverted(c, proofs, proof)
  {
    hide Config.Valid, PlanOf, ListsEnabled, RulesOf, OfFamily, InstalledAll, One, LookupTable, MarkNumber;
    hide InOrder, NothingForeignAhead, Config.ParseMark;
    if Proxied(proof) {
      TProxyConfigured(c, routes, proofs, proof);
      TProxyPacketFindsTable(c, routes, proofs, f, db, foreign, TPROXY_PRIORITY);
    } else {
      MarkedPacketFindsTable(c, routes, proofs, proof, f, db, foreign);
    }
  }

  // ---- the packet ----

  /** The route's action lets no packet like this one through. */
  predicate Discards(r: Config.Route, p: Nft.Packet, env: Nft.Env) {
    match r.kind
    case Drop => true
    case Zapret => p.transport.Udp? && p.dport == 443
    case Direct => false
    case SmartDns => false
    case _ => !((p.transport.Tcp? || p.transport.Udp?) && env.listening)
  }

  /** A packet that a route's action lets through carries the mark that its proof is installed for. */
  lemma ActionCarriesMark(c: Config.Settings, r: Config.Route, proof: RouteProof, zapret: ZapretPlan, proxy: TransparentPlan,
                          p: Nft.Packet, env: Nft.Env, ctx: Nft.Ctx)
    requires ProofOf(c, r, proof) && !r.kind.TgWsProxy? && (Proxied(proof) ==> proxy.tproxyMark == c.tproxyMark)
    ensures var out := NftMeaning.RouteOutcome(c, r, zapret, proxy, p, env, ctx);
            && out.Done? && (out.verdict.Dropped? <==> Discards(r, p, env))
            && (!Discards(r, p, env) ==> out.ctx.mark == MarkNumber(CarriedMark(c, proof)))
            && (out.verdict.Queued? ==> r.kind.Zapret?)
            && (!Discards(r, p, env) && Proxied(proof) ==> out.ctx.proxy == Some(proxy.port))
  {
    hide MarkNumber, ProofMark;
  }

  lemma ReadyPlanKinds(c: Config.Settings, routes: seq<Config.Route>, proofs: seq<RouteProof>, traffic: bool, d: Diagnostics,
                       proof: RouteProof)
    requires Config.Valid(c) && ListsEnabled(c, routes) && PlanOf(c, routes, proofs)
    requires PlanFor(c, proofs, traffic, Loaded(d)).ready && proof in proofs
    ensures !proof.kind.TgWsProxy?
    ensures Proxied(proof) ==> PlanFor(c, proofs, traffic, Loaded(d)).transparent.tproxyMark == c.tproxyMark
  {
    hide Config.Valid, PlanOf, ListsEnabled, PlanFor;
    if proof.kind.TgWsProxy? {
      TelegramRouteBlocks(c, routes, proofs, traffic, Loaded(d), proof);
    }
    SectionsOfPlan(c, proofs, traffic, Loaded(d));
  }

  lemma SameTagSameRoute(routes: seq<Config.Route>, a: Config.Route, b: Config.Route)
    requires Config.TagsDistinct(routes) && a in routes && b in routes && a.tag == b.tag
    ensures a == b
  {
    var i :| 0 <= i < |routes| && routes[i] == a;
    var j :| 0 <= j < |routes| && routes[j] == b;
  }

  /** The proof of a route in use is unique and was built from it. */
  lemma ProofOfRoute(c: Config.Settings, routes: seq<Config.Route>, proofs: seq<RouteProof>, r: Config.Route, proof: RouteProof)
    requires ListsEnabled(c, routes) && PlanOf(c, routes, proofs) && r in routes && proof in proofs && proof.tag == r.tag
    ensures ProofOf(c, r, proof)
  {
    hide Leader, ProofMark, ProofTable, Config.TagsDistinct;
    var i :| 0 <= i < |proofs| && proofs[i] == proof;
    assert ProofOf(c, routes[i], proofs[i]);
    SameTagSameRoute(routes, routes[i], r);
  }

  lemma RoutesOfConfigAgree(c: Config.Settings, routes: seq<Config.Route>, policies: seq<Domains.Policy>)
    requires ListsEnabled(c, routes) && forall x | x in policies :: x.route in routes
    ensures RouteSets.RoutesAgree(policies)
  {
    hide Config.TagsDistinct;
    forall a, b | a in policies && b in policies && a.route.tag == b.route.tag ensures a.route == b.route {
      SameTagSameRoute(routes, a.route, b.route);
    }
  }

  /** Only this policy's route wants the packet's destination. */
  ghost predicate OnlyWants(policies: seq<Domains.Policy>, q: Domains.Policy, p: Nft.Packet, env: Nft.Env) {
    && q in policies && RouteSets.Wants(q, p, env)
    && forall other | other in policies && RouteSets.Wants(other, p, env) :: other.route.tag == q.route.tag
  }

  /** What becomes of the packet: its route's action drops it, or it leaves through that route's table. */
  ghost predicate TakesRoute(out: Nft.Result, r: Config.Route, proof: RouteProof, d: Diagnostics, p: Nft.Packet, env: Nft.Env,
                             db: RuleDb, tables: map<TableKey, IPRoute>, foreign: nat -> bool) {
    && out.Done? && (out.verdict.Dropped? <==> Discards(r, p, env))
    && (!out.verdict.Dropped? ==>
          && LookupTable(db, out.ctx.mark, foreign) == Some(proof.table)
          && (p.family, proof.table) in tables && WantedBy(tables[(p.family, proof.table)], proof, d))
  }

  /**
   * Compiler and kernel together: with a ready plan of a valid config that the loader accepts applied and
   * its filter program loaded, a LAN packet to a destination that a single route wants is dropped exactly
   * if that route's action discards it; otherwise the mark that the filter leaves on it leads to that
   * route's table, which holds the default route planned for it, exactly unless the TPROXY rule takes it.
   */
  lemma PacketTakesItsRoute(c: Config.Settings, routes: seq<Config.Route>, proofs: seq<RouteProof>, proof: RouteProof,
                            policies: seq<Domains.Policy>, q: Domains.Policy, assignments: seq<Nft.Assignment>,
                            prog: Nft.Program, traffic: bool, d: Diagnostics, dns: seq<DnsProxy>, p: Nft.Packet, env: Nft.Env,
                            ctx: Nft.Ctx, rules: RuleDbs, tables: map<TableKey, IPRoute>, foreign: nat -> bool)
    requires Config.Valid(c) && ListsEnabled(c, routes) && PlanOf(c, routes, proofs)
    requires PlanFor(c, proofs, traffic, Loaded(d)).ready && Accepts(PlanFor(c, proofs, traffic, Loaded(d)).(dns := dns))
    requires (forall x | x in policies :: x.route in routes) && RouteSets.AssignmentsOf(policies, assignments)
    requires var plan := PlanFor(c, proofs, traffic, Loaded(d));
             && Nft.Renderable(c, assignments, plan.zapret, plan.transparent)
             && Nft.Rendered(prog, c, assignments, d.lans, plan.zapret, plan.transparent)
    requires RouteSets.Classified(c, d.lans, p, ctx) && p.family in Families(c) && OnlyWants(policies, q, p, env)
    requires proof in proofs && proof.tag == q.route.tag && KernelReady(c, proofs, proof, p.family, rules.At(p.family), foreign)
    ensures var plan := PlanFor(c, proofs, traffic, Loaded(d));
            TakesRoute(Nft.Filter(prog, p, env, ctx), q.route, proof, d, p, env,
                       WithRules(rules, PlannedRules(plan)).At(p.family), WithRoutes(tables, plan.routes), foreign)
            <==> Discards(q.route, p, env) || !Diverted(c, proofs, proof)
  {
    hide Config.Valid, PlanOf, ListsEnabled, Diverted, TablesClash, PlanFor, SoundProofs, RulesOf, OfFamily, InstalledAll;
    hide PlanRoutes, KernelReady, LookupTable, WithRoutes, RouteSets.AssignmentsOf, RouteSets.RoutesAgree, RouteSets.Classified;
    hide Nft.Renderable, Nft.Rendered, Nft.Filter, NftMeaning.RouteOutcome, Discards, MarkNumber, WantedBy, Accepts;
    var plan := PlanFor(c, proofs, traffic, Loaded(d));
    RoutesOfConfigAgree(c, routes, policies);
    RouteSets.FilterFollowsPolicies(prog, c, policies, assignments, d.lans, plan.zapret, plan.transparent, p, env, ctx);
    ProofOfRoute(c, routes, proofs, q.route, proof);
    ReadyPlanKinds(c, routes, proofs, traffic, d, proof);
    ActionCarriesMark(c, q.route, proof, plan.zapret, plan.transparent, p, env, ctx);
    if !Discards(q.route, p, env) {
      LetThroughIsRouted(q.route, p, env, proof, c);
      ValidProofsSound(c, routes, proofs);
      AcceptedNoClash(c, routes, proofs, traffic, d, dns);
      ReadyPlan(c, proofs, traffic, d, proof);
      FamiliesOfProof(c, proofs, proof, p.family);
      HasRules(c, proofs, proof);
      CarriedMarkFindsTable(c, routes, proofs, proof, p.family, rules.At(p.family), foreign);
      TableServesRoute(proofs, d, proof, p.family, tables);
    }
  }

  lemma LetThroughIsRouted(r: Config.Route, p: Nft.Packet, env: Nft.Env, proof: RouteProof, c: Config.Settings)
    requires ProofOf(c, r, proof) && !r.kind.TgWsProxy? && !Discards(r, p, env)
    ensures !proof.kind.Drop? && (Routed(proof) || Proxied(proof))
  {
  }
}
