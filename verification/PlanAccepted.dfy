/** Everything the plan builder produces from a valid config is accepted by the plan loader. */
module PlanAccepted {
  import opened Prelude
  import Config
  import opened ProofPlan
  import opened IPPlan
  import opened PlanBuild

  /** `routes` lists the enabled routes of the config, in some order. */
  ghost predicate ListsEnabled(c: Config.Settings, routes: seq<Config.Route>) {
    && (forall r :: r in routes <==> r in c.routes && Config.Enabled(r))
    && Config.TagsDistinct(routes)
  }

  /** Two kinds of route need different contents in one table. */
  ghost predicate TablesClash(proofs: seq<RouteProof>) {
    exists p, q | p in proofs && q in proofs :: Proxied(p) && Routed(q) && p.table == q.table
  }

  // ---- the route list ----

  lemma {:induction false} AddAllFacts(routes: seq<IPRoute>, more: seq<IPRoute>)
    ensures forall r :: r in AddAll(routes, more) <==> r in routes || r in more
    ensures (forall i, j | 0 <= i < j < |routes| :: routes[i] != routes[j]) ==>
              forall i, j | 0 <= i < j < |AddAll(routes, more)| :: AddAll(routes, more)[i] != AddAll(routes, more)[j]
  {
    if more != [] {
      AddAllFacts(routes, more[..|more| - 1]);
      assert more == more[..|more| - 1] + [more[|more| - 1]];
    }
  }

  ghost predicate WantedBy(r: IPRoute, p: RouteProof, d: Diagnostics) {
    WantedRoutes(p, d).Planned? && r in WantedRoutes(p, d).routes
  }

  /** The planned list holds what the proofs want, once each. */
  lemma {:induction false} PlanRoutesFacts(proofs: seq<RouteProof>, d: Diagnostics)
    requires PlanRoutes(proofs, d).Planned?
    ensures forall p | p in proofs :: WantedRoutes(p, d).Planned?
    ensures forall r :: r in PlanRoutes(proofs, d).routes <==> exists p | p in proofs :: WantedBy(r, p, d)
    ensures forall i, j | 0 <= i < j < |PlanRoutes(proofs, d).routes| ::
              PlanRoutes(proofs, d).routes[i] != PlanRoutes(proofs, d).routes[j]
  {
    hide WantedRoutes, AddAll;
    if proofs != [] {
      var before, p := proofs[..|proofs| - 1], proofs[|proofs| - 1];
      PlanRoutesFacts(before, d);
      assert proofs == before + [p];
      AddAllFacts(PlanRoutes(before, d).routes, WantedRoutes(p, d).routes);
      forall r
        ensures r in PlanRoutes(proofs, d).routes <==> exists q | q in proofs :: WantedBy(r, q, d)
      {
        if r in PlanRoutes(before, d).routes {
          var q :| q in before && WantedBy(r, q, d);
          assert q in proofs;
        } else if r in WantedRoutes(p, d).routes {
          assert WantedBy(r, p, d) && p in proofs;
        }
        if q :| q in proofs && WantedBy(r, q, d) {
          assert q in before || q == p;
        }
      }
    }
  }

  lemma WantedShape(p: RouteProof, d: Diagnostics, r: IPRoute)
    requires WantedBy(r, p, d)
    ensures RouteOk(r) && r.table == p.table && !p.kind.Drop? && (Routed(p) || Proxied(p))
    ensures r.family.Ipv4? ==> r == if Routed(p) then DefaultVia(Ipv4, p.table, d.gateway4, d.wan) else ToLoopback(Ipv4, p.table)
    ensures r.family.Ipv6? ==>
              r == if Proxied(p) then ToLoopback(Ipv6, p.table)
                   else if d.ipv6Available then DefaultVia(Ipv6, p.table, d.gateway6, d.wan) else NoIpv6(p.table)
  {
    assert ValidInterface("lo") by {
      assert "lo"[0] == 'l' && "lo"[1] == 'o';
    }
  }

  lemma WantedCovers(p: RouteProof, d: Diagnostics)
    requires WantedRoutes(p, d).Planned? && !p.kind.Drop?
    ensures p.ipv4 ==> WantedBy(if Routed(p) then DefaultVia(Ipv4, p.table, d.gateway4, d.wan) else ToLoopback(Ipv4, p.table), p, d)
    ensures p.ipv6 ==>
              WantedBy(if Proxied(p) then ToLoopback(Ipv6, p.table)
                       else if d.ipv6Available then DefaultVia(Ipv6, p.table, d.gateway6, d.wan) else NoIpv6(p.table), p, d)
    ensures p.table >= 1
  {
  }

  lemma PlanHolds(proofs: seq<RouteProof>, d: Diagnostics, p: RouteProof, r: IPRoute)
    requires PlanRoutes(proofs, d).Planned? && p in proofs && WantedBy(r, p, d)
    ensures r in PlanRoutes(proofs, d).routes
    ensures Covered(PlanRoutes(proofs, d).routes, r.family, r.table)
  {
    hide WantedRoutes, PlanRoutes;
    PlanRoutesFacts(proofs, d);
    assert Serves(r, r.family, r.table);
  }

  lemma PlanCovers(proofs: seq<RouteProof>, d: Diagnostics, p: RouteProof)
    requires PlanRoutes(proofs, d).Planned? && p in proofs && !p.kind.Drop?
    ensures p.ipv4 ==> Covered(PlanRoutes(proofs, d).routes, Ipv4, p.table)
    ensures p.ipv6 ==> Covered(PlanRoutes(proofs, d).routes, Ipv6, p.table)
  {
    hide WantedRoutes, PlanRoutes, Covered;
    PlanRoutesFacts(proofs, d);
    WantedCovers(p, d);
    if p.ipv4 {
      PlanHolds(proofs, d, p, if Routed(p) then DefaultVia(Ipv4, p.table, d.gateway4, d.wan) else ToLoopback(Ipv4, p.table));
    }
    if p.ipv6 {
      PlanHolds(proofs, d, p, if Proxied(p) then ToLoopback(Ipv6, p.table)
                              else if d.ipv6Available then DefaultVia(Ipv6, p.table, d.gateway6, d.wan)
                              else NoIpv6(p.table));
    }
  }

  lemma ClashDuplicates(proofs: seq<RouteProof>, d: Diagnostics, p: RouteProof, q: RouteProof)
    requires PlanRoutes(proofs, d).Planned? && p in proofs && q in proofs
    requires Proxied(p) && Routed(q) && p.table == q.table && p.ipv4 && q.ipv4
    ensures !RoutesOk(PlanRoutes(proofs, d).routes)
  {
    hide WantedRoutes, PlanRoutes, RouteOk, Covered;
    var routes := PlanRoutes(proofs, d).routes;
    PlanRoutesFacts(proofs, d);
    WantedCovers(p, d);
    WantedCovers(q, d);
    var a, b := ToLoopback(Ipv4, p.table), DefaultVia(Ipv4, q.table, d.gateway4, d.wan);
    PlanHolds(proofs, d, p, a);
    PlanHolds(proofs, d, q, b);
    var i :| 0 <= i < |routes| && routes[i] == a;
    var j :| 0 <= j < |routes| && routes[j] == b;
    assert Serves(routes[j], a.family, a.table) && Serves(routes[i], b.family, b.table);
  }

  lemma SameSlotSameRoute(proofs: seq<RouteProof>, d: Diagnostics, a: IPRoute, b: IPRoute)
    requires PlanRoutes(proofs, d).Planned? && !TablesClash(proofs)
    requires a in PlanRoutes(proofs, d).routes && b in PlanRoutes(proofs, d).routes
    requires Serves(b, a.family, a.table)
    ensures a == b
  {
    hide WantedRoutes, PlanRoutes, RouteOk;
    PlanRoutesFacts(proofs, d);
    var p :| p in proofs && WantedBy(a, p, d);
    var q :| q in proofs && WantedBy(b, q, d);
    WantedShape(p, d, a);
    WantedShape(q, d, b);
    assert Proxied(p) == Proxied(q);
  }

  /** The planned routes are valid exactly when no table is wanted with two contents. */
  lemma RoutesOkUnlessClash(proofs: seq<RouteProof>, d: Diagnostics)
    requires PlanRoutes(proofs, d).Planned?
    requires forall p | p in proofs && !p.kind.Drop? :: p.ipv4
    ensures RoutesOk(PlanRoutes(proofs, d).routes) <==> !TablesClash(proofs)
  {
    hide WantedRoutes, PlanRoutes, RouteOk;
    var routes := PlanRoutes(proofs, d).routes;
    PlanRoutesFacts(proofs, d);
    forall r | r in routes ensures RouteOk(r) {
      var p :| p in proofs && WantedBy(r, p, d);
      WantedShape(p, d, r);
    }
    if TablesClash(proofs) {
      var p, q :| p in proofs && q in proofs && Proxied(p) && Routed(q) && p.table == q.table;
      ClashDuplicates(proofs, d, p, q);
    } else {
      forall i, j | 0 <= i < j < |routes| ensures !Serves(routes[j], routes[i].family, routes[i].table) {
        if Serves(routes[j], routes[i].family, routes[i].table) {
          SameSlotSameRoute(proofs, d, routes[i], routes[j]);
        }
      }
    }
  }

  // ---- proofs and rules ----

  /** What a valid config makes true of the proofs built from it. */
  ghost predicate SoundProofs(c: Config.Settings, proofs: seq<RouteProof>) {
    && PrioritiesNameKeys(proofs)
    && (forall p | p in proofs :: p.tag != "" && (p.ipv4 <==> !p.kind.Drop?) && (p.ipv6 <==> c.ipv6 && !p.kind.Drop?))
    && (forall p | p in proofs && (Routed(p) || Proxied(p)) ::
          Config.ParseMark(p.mark).Some? && p.mark != "" && p.table == TableOf(c, p.kind) && p.table >= 1)
    && (forall i, j | 0 <= i < j < |proofs| :: proofs[i].tag != proofs[j].tag)
    && (forall p | p in proofs && p.kind.TgWsProxy? :: p.table == 0)
  }

  function TableOf(c: Config.Settings, kind: Config.RouteType): int {
    Config.TableForType(c, kind)
  }

  lemma ValidProofsSound(c: Config.Settings, routes: seq<Config.Route>, proofs: seq<RouteProof>)
    requires Config.Valid(c) && ListsEnabled(c, routes) && PlanOf(c, routes, proofs)
    ensures SoundProofs(c, proofs)
  {
    hide Config.TransparentOk, Config.DnsPortsOk, Config.SocksDistinct, Config.ParseMark, Leader;
    PlanNamesKeys(c, routes, proofs);
    forall i | 0 <= i < |proofs|
      ensures var p := proofs[i];
              && p.tag != "" && (p.ipv4 <==> !p.kind.Drop?) && (p.ipv6 <==> c.ipv6 && !p.kind.Drop?)
              && (Routed(p) || Proxied(p) ==>
                  Config.ParseMark(p.mark).Some? && p.mark != "" && p.table == TableOf(c, p.kind) && p.table >= 1)
              && (p.kind.TgWsProxy? ==> p.table == 0)
    {
      var r := routes[i];
      assert ProofOf(c, r, proofs[i]) && r in routes && r in c.routes && Config.FieldsOk(r) && Config.MarkOk(c, r);
      NoMarkForNothing();
    }
    forall i, j | 0 <= i < j < |proofs| ensures proofs[i].tag != proofs[j].tag {
      assert ProofOf(c, routes[i], proofs[i]) && ProofOf(c, routes[j], proofs[j]);
    }
  }

  lemma NoMarkForNothing()
    ensures Config.ParseMark("").None?
  {
  }

  /** When the routes could be planned, every installed rule has a mark, a table and a route in it. */
  lemma RulesOkWhenPlanned(c: Config.Settings, proofs: seq<RouteProof>, d: Diagnostics)
    requires Config.Valid(c) && SoundProofs(c, proofs) && PlanRoutes(proofs, d).Planned?
    requires HasProxied(proofs) ==> Config.HasTransparent(c.routes)
    ensures RulesOk(RulesOf(c, proofs), PlanRoutes(proofs, d).routes, NeedsNetwork(proofs))
    ensures ProofsOk(proofs, PlanRoutes(proofs, d).routes)
  {
    hide PlanRoutes, RulesOf, Kept, WantedRoutes, Config.ParseMark, RouteOk, Covered, PrioritiesNameKeys;
    hide Config.RoutesOk, Config.MarksOk, Config.DnsPortsOk, Config.ZapretOk;
    var routes := PlanRoutes(proofs, d).routes;
    PlanRoutesFacts(proofs, d);
    forall p | p in proofs && !p.kind.Drop?
      ensures Routed(p) || Proxied(p)
      ensures (p.ipv4 ==> Covered(routes, Ipv4, p.table)) && (p.ipv6 ==> Covered(routes, Ipv6, p.table))
    {
      PlannedKinds(p, d);
      PlanCovers(proofs, d, p);
    }
    InstalledPrioritiesUnique(c, proofs);
    forall r | r in RulesOf(c, proofs) ensures RuleOk(r, routes) {
      RuleOrigin(c, proofs, r);
    }
    if NeedsNetwork(proofs) {
      var p :| p in proofs && !p.kind.Drop?;
      ProofPriorityIsInstalled(c, proofs, p, Ipv4);
    }
    AgreeOnPriorities(proofs);
  }

  lemma AgreeOnPriorities(proofs: seq<RouteProof>)
    requires PrioritiesNameKeys(proofs)
    ensures forall p | p in proofs :: p.priority >= 1
    ensures forall p, q | p in proofs && q in proofs && p.priority == q.priority :: KeyOf(p) == KeyOf(q)
  {
  }

  lemma PlannedKinds(p: RouteProof, d: Diagnostics)
    requires WantedRoutes(p, d).Planned? && !p.kind.Drop?
    ensures Routed(p) || Proxied(p)
  {
  }

  /** A rule is the TPROXY rule or stands for a proof. */
  lemma RuleOrigin(c: Config.Settings, proofs: seq<RouteProof>, r: IPRule)
    requires r in RulesOf(c, proofs)
    ensures r.family in Families(c) && r.priority > 0 && r.purpose != "" && r.mark != "" && r.table > 0
    ensures || (HasProxied(proofs) && r.mark == c.tproxyMark && r.table == c.xrayTable)
            || exists p | p in proofs :: !p.kind.Drop? && r.mark == p.mark && r.table == p.table
  {
    hide Kept;
    RuleFacts(c, proofs, r);
    var w, f :| w in Kept(AllWanted(c, proofs)) && f in Families(c) && r == RuleFor(w, f);
    KeptIsAsked(AllWanted(c, proofs));
    ForProofsFacts(proofs);
  }

  // ---- the whole plan ----

  /** The loader names its own reasons for unusable diagnostics. */
  predicate LoaderReason(loaded: Loaded) {
    loaded.Refused? ==>
      loaded.reason != "" && loaded.reason != TRANSPARENT_UNVERIFIED && loaded.reason != ZAPRET_UNVERIFIED
  }

  lemma {:induction false} StopReasons(proofs: seq<RouteProof>, d: Diagnostics)
    ensures PlanRoutes(proofs, d).Stopped? ==>
              var reason := PlanRoutes(proofs, d).reason;
              reason != "" && reason != TRANSPARENT_UNVERIFIED && reason != ZAPRET_UNVERIFIED
  {
    if proofs != [] {
      StopReasons(proofs[..|proofs| - 1], d);
    }
  }

  lemma HasTransparentFromProofs(c: Config.Settings, routes: seq<Config.Route>, proofs: seq<RouteProof>)
    requires ListsEnabled(c, routes) && PlanOf(c, routes, proofs)
    ensures HasProxied(proofs) ==> Config.HasTransparent(c.routes)
    ensures HasZapret(proofs) ==> exists r | r in c.routes :: Config.Enabled(r) && r.kind.Zapret?
  {
    hide Leader, Config.TagsDistinct, Config.MarkForType, Config.TableForType;
    if HasProxied(proofs) {
      var i :| 0 <= i < |proofs| && Proxied(proofs[i]);
      assert ProofOf(c, routes[i], proofs[i]) && routes[i] in routes;
      assert Config.Enabled(routes[i]) && Config.Transparent(routes[i]);
    }
    if HasZapret(proofs) {
      var i :| 0 <= i < |proofs| && proofs[i].kind.Zapret?;
      assert ProofOf(c, routes[i], proofs[i]) && routes[i] in routes;
    }
  }

  function TransparentSection(c: Config.Settings, proofs: seq<RouteProof>): TransparentPlan {
    if HasProxied(proofs) then TransparentFor(c) else NO_TRANSPARENT
  }

  function ZapretSection(c: Config.Settings, proofs: seq<RouteProof>): ZapretPlan {
    if HasZapret(proofs) then ZapretFor(c) else NO_ZAPRET
  }

  /** The sections of a plan at whatever stage it was blocked. */
  lemma SectionsOfPlan(c: Config.Settings, proofs: seq<RouteProof>, traffic: bool, loaded: Loaded)
    ensures var p, t, z, f := PlanFor(c, proofs, traffic, loaded), TransparentSection(c, proofs),
                              ZapretSection(c, proofs), FlowFor(c, traffic);
            && (p.transparent == t || p.transparent == TransparentChecked(t))
            && (p.zapret == z || p.zapret == ZapretChecked(z))
            && (p.flow == f || (loaded.Loaded? && p.flow == FlowChecked(f, loaded.diagnostics)))
  {
    hide PlanRoutes, RulesOf, LansInvalid, TransparentChecked, ZapretChecked, FlowChecked, FlowFor, FlowBlock;
    hide TransparentFor, ZapretFor, HasProxied, HasZapret, NeedsNetwork;
  }

  lemma SectionsOkOfPlan(c: Config.Settings, routes: seq<Config.Route>, proofs: seq<RouteProof>, traffic: bool, loaded: Loaded)
    requires Config.Valid(c) && ListsEnabled(c, routes) && PlanOf(c, routes, proofs) && SoundProofs(c, proofs)
    ensures var p := PlanFor(c, proofs, traffic, loaded);
            TransparentOk(p.transparent) && ZapretOk(p.zapret) && FlowOk(p.flow)
  {
    hide PlanOf, ListsEnabled, Config.ParseMark, Config.RoutesOk, Config.MarksOk, Config.DnsPortsOk;
    hide PrioritiesNameKeys, PlanFor;
    HasTransparentFromProofs(c, routes, proofs);
    SectionsOfPlan(c, proofs, traffic, loaded);
    if HasProxied(proofs) {
      MarksOfTransparent(c);
      var p :| p in proofs && Proxied(p);
      assert c.xrayTable == p.table;
    }
  }

  lemma MarksOfTransparent(c: Config.Settings)
    requires Config.TransparentOk(c) && Config.HasTransparent(c.routes)
    ensures Config.ParseMark(c.tproxyMark).Some? && Config.ParseMark(c.bypassMark).Some? && c.tproxyMark != c.bypassMark
    ensures 1024 <= c.transparentPort <= 65535
  {
    hide Config.ParseMark;
    var marks := Config.NamedMarks(c);
    assert marks[3] in marks && marks[4] in marks;
  }

  /** The part of `Accepts` that looks at the routes. */
  ghost predicate RouteSideOk(p: IPPlan) {
    if p.ready then ReadyOk(p) else BlockedOk(p)
  }

  lemma BlockedEarly(p: IPPlan)
    requires !p.ready && p.routes == [] && p.planned == []
    requires p.blockReason != "" && p.blockReason != TRANSPARENT_UNVERIFIED && p.blockReason != ZAPRET_UNVERIFIED
    ensures RouteSideOk(p)
  {
  }

  /** The last stage: everything is known. */
  lemma DecidedAccepted(c: Config.Settings, plan: IPPlan, routes: seq<IPRoute>, flowBlock: string)
    requires !plan.ready && plan.blockReason == "" && plan.routes == [] && plan.planned == [] && plan.provenance
    requires plan.transparent.candidateOnly ==> plan.transparent.enabled
    requires plan.transparent.enabled ==> plan.transparent.capabilityVerified && NeedsNetwork(plan.rules)
    requires plan.zapret.candidateOnly ==> plan.zapret.enabled
    requires plan.zapret.enabled ==> NeedsNetwork(plan.rules)
    requires flowBlock != TRANSPARENT_UNVERIFIED && flowBlock != ZAPRET_UNVERIFIED
    requires routes != [] <==> NeedsNetwork(plan.rules)
    requires ProofsOk(plan.rules, routes) && RulesOk(plan.ipRules, routes, NeedsNetwork(plan.rules))
    ensures var p := Decided(c, plan, routes, flowBlock);
            RouteSideOk(p) <==> (p.routes == [] && p.planned == []) || RoutesOk(routes)
  {
    hide ProofsOk, RulesOk, NeedsNetwork;
    if routes == [] {
      NoRoutes();
    }
    RequiredIsKnown(plan.ipRules, routes, NeedsNetwork(plan.rules));
  }

  lemma RequiredIsKnown(rules: seq<IPRule>, routes: seq<IPRoute>, required: bool)
    ensures required ==> RulesOk(rules, routes, required) == RulesOk(rules, routes, true)
  {
  }

  lemma PlannedAccepted(c: Config.Settings, base: IPPlan, proofs: seq<RouteProof>, d: Diagnostics, checked: IPPlan)
    requires Config.Valid(c) && SoundProofs(c, proofs) && (HasProxied(proofs) ==> Config.HasTransparent(c.routes))
    requires !base.ready && base.blockReason == "" && base.routes == [] && base.planned == [] && base.provenance
    requires base.rules == proofs && base.ipRules == RulesOf(c, proofs)
    requires base.transparent == TransparentSection(c, proofs) && base.zapret == ZapretSection(c, proofs)
    requires checked == base.(transparent := TransparentChecked(base.transparent), zapret := ZapretChecked(base.zapret),
                              flow := FlowChecked(base.flow, d))
    requires PlanRoutes(proofs, d).Planned?
    ensures var p := Decided(c, checked, PlanRoutes(proofs, d).routes, FlowBlock(base.flow, d));
            RouteSideOk(p) <==> (p.routes == [] && p.planned == []) || !TablesClash(proofs)
  {
    hide Config.Valid, SoundProofs, RulesOf, PlanRoutes, ProofsOk, RulesOk, RoutesOk, Decided, RouteSideOk;
    hide TablesClash, NeedsNetwork, FlowChecked;
    PlannedSomething(c, proofs, d);
    RulesOkWhenPlanned(c, proofs, d);
    RoutedProofs(c, proofs);
    RoutesOkUnlessClash(proofs, d);
    DecidedAccepted(c, checked, PlanRoutes(proofs, d).routes, FlowBlock(base.flow, d));
  }

  lemma DiagnosticsAccepted(c: Config.Settings, base: IPPlan, proofs: seq<RouteProof>, d: Diagnostics)
    requires Config.Valid(c) && SoundProofs(c, proofs) && (HasProxied(proofs) ==> Config.HasTransparent(c.routes))
    requires !base.ready && base.blockReason == "" && base.routes == [] && base.planned == [] && base.provenance
    requires base.rules == proofs && base.ipRules == RulesOf(c, proofs)
    requires base.transparent == TransparentSection(c, proofs) && base.zapret == ZapretSection(c, proofs)
    ensures var p := WithDiagnostics(c, base, proofs, d);
            RouteSideOk(p) <==> (p.routes == [] && p.planned == []) || !TablesClash(proofs)
  {
    hide Config.Valid, SoundProofs, RulesOf, PlanRoutes, Decided, RouteSideOk, LansInvalid;
    hide TablesClash, FlowChecked, FlowBlock, TransparentChecked, ZapretChecked;
    var p := WithDiagnostics(c, base, proofs, d);
    StopReasons(proofs, d);
    if (base.transparent.enabled && !d.tproxy) || d.lans == [] || LansInvalid(d) || PlanRoutes(proofs, d).Stopped? {
      BlockedEarly(p);
    } else {
      PlannedAccepted(c, base, proofs, d, base.(transparent := TransparentChecked(base.transparent),
                                               zapret := ZapretChecked(base.zapret), flow := FlowChecked(base.flow, d)));
    }
  }

  // ---- when a plan carries routes ----

  /** The diagnostics give every proof what its routes need. */
  ghost predicate Servable(c: Config.Settings, proofs: seq<RouteProof>, d: Diagnostics) {
    && (forall p | p in proofs :: !p.kind.TgWsProxy?)
    && ((exists p | p in proofs :: Routed(p)) ==>
          ValidInterface(d.wan) && d.gateway4.V4? && (c.ipv6 && d.ipv6Available ==> d.gateway6.V6?))
  }

  /** The plan gets as far as its route list, ready or as a preview. */
  ghost predicate ReachesRoutes(c: Config.Settings, proofs: seq<RouteProof>, loaded: Loaded) {
    && loaded.Loaded?
    && (HasProxied(proofs) ==> loaded.diagnostics.tproxy)
    && loaded.diagnostics.lans != [] && !LansInvalid(loaded.diagnostics)
    && Servable(c, proofs, loaded.diagnostics)
  }

  lemma {:induction false} PlannedIfWanted(proofs: seq<RouteProof>, d: Diagnostics)
    requires forall p | p in proofs :: WantedRoutes(p, d).Planned?
    ensures PlanRoutes(proofs, d).Planned?
  {
    hide WantedRoutes, AddAll;
    if proofs != [] {
      var before, last := proofs[..|proofs| - 1], proofs[|proofs| - 1];
      assert last in proofs && forall p | p in before :: p in proofs;
      PlannedIfWanted(before, d);
    }
  }

  /** What a single proof of a valid config needs. */
  lemma WantedWhen(c: Config.Settings, proofs: seq<RouteProof>, p: RouteProof, d: Diagnostics)
    requires SoundProofs(c, proofs) && p in proofs
    ensures WantedRoutes(p, d).Planned? <==>
              && !p.kind.TgWsProxy?
              && (Routed(p) ==> ValidInterface(d.wan) && d.gateway4.V4? && (c.ipv6 && d.ipv6Available ==> d.gateway6.V6?))
  {
    hide PrioritiesNameKeys, Config.ParseMark, TableOf;
  }

  lemma PlannedWhenServable(c: Config.Settings, proofs: seq<RouteProof>, d: Diagnostics)
    requires SoundProofs(c, proofs)
    ensures PlanRoutes(proofs, d).Planned? <==> Servable(c, proofs, d)
  {
    hide SoundProofs, WantedRoutes, PlanRoutes;
    forall p | p in proofs
      ensures WantedRoutes(p, d).Planned? <==>
                && !p.kind.TgWsProxy?
                && (Routed(p) ==> ValidInterface(d.wan) && d.gateway4.V4? && (c.ipv6 && d.ipv6Available ==> d.gateway6.V6?))
    {
      WantedWhen(c, proofs, p, d);
    }
    if Servable(c, proofs, d) {
      PlannedIfWanted(proofs, d);
    }
    if PlanRoutes(proofs, d).Planned? {
      PlanRoutesFacts(proofs, d);
    }
  }

  lemma CarriesRoutesWhen(c: Config.Settings, proofs: seq<RouteProof>, traffic: bool, loaded: Loaded)
    requires SoundProofs(c, proofs) && NeedsNetwork(proofs)
    ensures var p := PlanFor(c, proofs, traffic, loaded);
            p.routes == [] && p.planned == [] <==> !ReachesRoutes(c, proofs, loaded)
  {
    hide SoundProofs, PlanRoutes, RulesOf, LansInvalid, Servable, HasProxied, HasZapret, NeedsNetwork, FlowChecked, FlowBlock;
    if loaded.Loaded? {
      PlannedWhenServable(c, proofs, loaded.diagnostics);
      if PlanRoutes(proofs, loaded.diagnostics).Planned? {
        PlannedSomething(c, proofs, loaded.diagnostics);
      }
    }
  }

  /** The router's own forwarding cannot take packets past the policy: it was seen off, or nothing needs it off. */
  predicate FlowSafe(c: Config.Settings, traffic: bool, d: Diagnostics) {
    traffic && c.flow.Preserve? ==> d.flowVerified && !d.softwareFlow && !d.hardwareFlow
  }

  /** A plan is ready exactly when its traffic can be carried, by components that are managed, and flows are safe. */
  lemma ReadyExactly(c: Config.Settings, proofs: seq<RouteProof>, traffic: bool, loaded: Loaded)
    requires SoundProofs(c, proofs)
    ensures PlanFor(c, proofs, traffic, loaded).ready <==>
              && !c.deviceOverrides
              && ((!NeedsNetwork(proofs) && !traffic && !c.flow.Disable?)
                  || (&& ReachesRoutes(c, proofs, loaded) && FlowSafe(c, traffic, loaded.diagnostics)
                      && (HasProxied(proofs) ==> c.xrayManaged) && (HasZapret(proofs) ==> c.zapret.managed)))
  {
    hide SoundProofs, PlanRoutes, RulesOf, LansInvalid, Servable, HasProxied, HasZapret, NeedsNetwork;
    if loaded.Loaded? { PlannedWhenServable(c, proofs, loaded.diagnostics); }
  }

  /** The route side of a plan is accepted unless it carries routes that need two contents in one table. */
  lemma RouteSideAccepted(c: Config.Settings, routes: seq<Config.Route>, proofs: seq<RouteProof>, traffic: bool, loaded: Loaded)
    requires Config.Valid(c) && ListsEnabled(c, routes) && PlanOf(c, routes, proofs) && LoaderReason(loaded)
    ensures var p := PlanFor(c, proofs, traffic, loaded);
            RouteSideOk(p) <==> (p.routes == [] && p.planned == []) || !TablesClash(proofs)
  {
    hide Config.Valid, PlanOf, SoundProofs, RulesOf, PlanRoutes, RoutesOk, ProofsOk, RulesOk;
    hide TablesClash, WithDiagnostics;
    ValidProofsSound(c, routes, proofs);
    HasTransparentFromProofs(c, routes, proofs);
    var p := PlanFor(c, proofs, traffic, loaded);
    assert p.rules == proofs by { RulesOfPlan(c, proofs, traffic, loaded); }
    if !NeedsNetwork(proofs) && !FlowFor(c, traffic).required {
      NothingToRoute(c, proofs);
    } else if loaded.Loaded? {
      var base := IPPlan(false, "", true, [], [], proofs, RulesOf(c, proofs), TransparentSection(c, proofs),
                         ZapretSection(c, proofs), FlowFor(c, traffic), []);
      DiagnosticsAccepted(c, base, proofs, loaded.diagnostics);
    }
  }

  /**
   * Ready or blocked, the plan built from a valid config is accepted by its loader exactly when its DNS
   * listeners are, unless it gets as far as routes in which one table would need two contents.
   */
  lemma BuiltPlanAccepted(c: Config.Settings, routes: seq<Config.Route>, proofs: seq<RouteProof>, traffic: bool,
                          loaded: Loaded, dns: seq<DnsProxy>)
    requires Config.Valid(c) && ListsEnabled(c, routes) && PlanOf(c, routes, proofs) && LoaderReason(loaded)
    ensures Accepts(PlanFor(c, proofs, traffic, loaded).(dns := dns))
            <==> DnsOk(dns, proofs) && !(ReachesRoutes(c, proofs, loaded) && TablesClash(proofs))
  {
    hide Config.Valid, PlanOf, ListsEnabled, SoundProofs, RulesOf, PlanRoutes, PlanFor, DnsOk, ReadyOk, BlockedOk;
    hide TransparentOk, ZapretOk, FlowOk, ReachesRoutes, NeedsNetwork, TablesClash;
    var p := PlanFor(c, proofs, traffic, loaded);
    ValidProofsSound(c, routes, proofs);
    SectionsOkOfPlan(c, routes, proofs, traffic, loaded);
    RulesOfPlan(c, proofs, traffic, loaded);
    RouteSideAccepted(c, routes, proofs, traffic, loaded);
    if NeedsNetwork(proofs) {
      CarriesRoutesWhen(c, proofs, traffic, loaded);
    } else {
      NothingToRoute(c, proofs);
    }
    DnsKeepsRouteSide(p, dns);
  }

  lemma DnsKeepsRouteSide(p: IPPlan, dns: seq<DnsProxy>)
    ensures RouteSideOk(p.(dns := dns)) <==> RouteSideOk(p)
  {
    hide RoutesOk, ProofsOk, RulesOk, NeedsNetwork;
  }

  lemma RulesOfPlan(c: Config.Settings, proofs: seq<RouteProof>, traffic: bool, loaded: Loaded)
    ensures PlanFor(c, proofs, traffic, loaded).rules == proofs
  {
    hide PlanRoutes, RulesOf, LansInvalid;
  }

  lemma RoutedProofs(c: Config.Settings, proofs: seq<RouteProof>)
    requires SoundProofs(c, proofs)
    ensures forall p | p in proofs && !p.kind.Drop? :: p.ipv4
  {
  }

  /** With nothing but drop routes there are no rules, and nothing is missing. */
  lemma NothingToRoute(c: Config.Settings, proofs: seq<RouteProof>)
    requires SoundProofs(c, proofs) && !NeedsNetwork(proofs)
    ensures RulesOf(c, proofs) == [] && RoutesOk([]) && ProofsOk(proofs, []) && RulesOk([], [], false)
    ensures !HasProxied(proofs) && !HasZapret(proofs) && !TablesClash(proofs)
  {
    hide RulesOf;
    if RulesOf(c, proofs) != [] {
      RuleOrigin(c, proofs, RulesOf(c, proofs)[0]);
    }
    AgreeOnPriorities(proofs);
  }

  lemma PlannedSomething(c: Config.Settings, proofs: seq<RouteProof>, d: Diagnostics)
    requires SoundProofs(c, proofs) && PlanRoutes(proofs, d).Planned?
    ensures PlanRoutes(proofs, d).routes != [] <==> NeedsNetwork(proofs)
    ensures HasProxied(proofs) || HasZapret(proofs) ==> NeedsNetwork(proofs)
    ensures TablesClash(proofs) ==> NeedsNetwork(proofs)
  {
  }

  predicate ProxiedKind(kind: Config.RouteType) {
    kind.Vless? || kind.ExternalSocks?
  }

  predicate RoutedKind(kind: Config.RouteType) {
    kind.Direct? || kind.Zapret? || kind.SmartDns?
  }

  /** Two routes of these kinds ask for one table with two contents. */
  predicate ShareTable(c: Config.Settings, r: Config.Route, q: Config.Route) {
    ProxiedKind(r.kind) && RoutedKind(q.kind) && Config.TableForType(c, q.kind) == c.xrayTable
  }

  /** A proxied route is in use, and a routed one whose table is the proxy's; `Validate` does not rule this out. */
  ghost predicate SharesProxyTable(c: Config.Settings, routes: seq<Config.Route>) {
    exists r, q | r in routes && q in routes :: ShareTable(c, r, q)
  }

  lemma ProofAt(c: Config.Settings, routes: seq<Config.Route>, proofs: seq<RouteProof>, i: nat)
    requires SoundProofs(c, proofs) && PlanOf(c, routes, proofs) && i < |routes|
    ensures |proofs| == |routes| && proofs[i] in proofs && proofs[i].kind == routes[i].kind
    ensures Routed(proofs[i]) || Proxied(proofs[i]) ==> proofs[i].table == Config.TableForType(c, routes[i].kind)
  {
    hide PrioritiesNameKeys, Leader, Config.TableForType, Config.ParseMark;
    assert ProofOf(c, routes[i], proofs[i]);
  }

  lemma RouteBehind(c: Config.Settings, routes: seq<Config.Route>, proofs: seq<RouteProof>, p: RouteProof) returns (r: Config.Route)
    requires SoundProofs(c, proofs) && PlanOf(c, routes, proofs) && p in proofs
    ensures r in routes && r.kind == p.kind && (Routed(p) || Proxied(p) ==> p.table == Config.TableForType(c, r.kind))
  {
    hide SoundProofs, Leader, ProofOf;
    var i :| 0 <= i < |proofs| && proofs[i] == p;
    ProofAt(c, routes, proofs, i);
    r := routes[i];
  }

  lemma ProofOfEnabled(c: Config.Settings, routes: seq<Config.Route>, proofs: seq<RouteProof>, r: Config.Route) returns (p: RouteProof)
    requires SoundProofs(c, proofs) && PlanOf(c, routes, proofs) && r in routes
    ensures p in proofs && p.kind == r.kind && (Routed(p) || Proxied(p) ==> p.table == Config.TableForType(c, r.kind))
  {
    hide SoundProofs, Leader, ProofOf;
    var i :| 0 <= i < |routes| && routes[i] == r;
    ProofAt(c, routes, proofs, i);
    p := proofs[i];
  }

  lemma ClashIsShared(c: Config.Settings, routes: seq<Config.Route>, proofs: seq<RouteProof>, p: RouteProof, q: RouteProof)
    requires SoundProofs(c, proofs) && PlanOf(c, routes, proofs)
    requires p in proofs && q in proofs && Proxied(p) && Routed(q) && p.table == q.table
    ensures SharesProxyTable(c, routes)
  {
    hide SoundProofs, PlanOf;
    var r := RouteBehind(c, routes, proofs, p);
    var t := RouteBehind(c, routes, proofs, q);
    assert ShareTable(c, r, t);
  }

  lemma SharedClashes(c: Config.Settings, routes: seq<Config.Route>, proofs: seq<RouteProof>, r: Config.Route, q: Config.Route)
    requires SoundProofs(c, proofs) && PlanOf(c, routes, proofs)
    requires r in routes && q in routes && ShareTable(c, r, q)
    ensures TablesClash(proofs)
  {
    hide SoundProofs, PlanOf;
    var p := ProofOfEnabled(c, routes, proofs, r);
    var t := ProofOfEnabled(c, routes, proofs, q);
    assert Proxied(p) && Routed(t) && p.table == t.table;
  }

  /** The clash can be read off the config. */
  lemma ClashWhenShared(c: Config.Settings, routes: seq<Config.Route>, proofs: seq<RouteProof>)
    requires Config.Valid(c) && ListsEnabled(c, routes) && PlanOf(c, routes, proofs)
    ensures TablesClash(proofs) <==> SharesProxyTable(c, routes)
  {
    hide Config.Valid, ListsEnabled, PlanOf, SoundProofs, ShareTable;
    ValidProofsSound(c, routes, proofs);
    if TablesClash(proofs) {
      var p, q :| p in proofs && q in proofs && Proxied(p) && Routed(q) && p.table == q.table;
      ClashIsShared(c, routes, proofs, p, q);
    }
    if SharesProxyTable(c, routes) {
      var r, q :| r in routes && q in routes && ShareTable(c, r, q);
      SharedClashes(c, routes, proofs, r, q);
    }
  }

  /** Distinct tables for proxied and routed traffic rule the clash out. */
  lemma DistinctTablesNoClash(c: Config.Settings, routes: seq<Config.Route>, proofs: seq<RouteProof>)
    requires Config.Valid(c) && ListsEnabled(c, routes) && PlanOf(c, routes, proofs)
    requires c.xrayTable != c.wanTable && c.xrayTable != c.zapretTable
    ensures !TablesClash(proofs)
  {
    hide Config.Valid, PlanOf, ListsEnabled;
    ClashWhenShared(c, routes, proofs);
  }

  /**
   * Validation accepts an enabled `tg_ws_proxy` route and gives it the proxy's table, but the compiler
   * has no table for it: with such a route no plan is ever ready.
   */
  lemma TelegramRouteBlocks(c: Config.Settings, routes: seq<Config.Route>, proofs: seq<RouteProof>, traffic: bool,
                            loaded: Loaded, p: RouteProof)
    requires Config.Valid(c) && ListsEnabled(c, routes) && PlanOf(c, routes, proofs)
    requires p in proofs && p.kind.TgWsProxy?
    ensures !PlanFor(c, proofs, traffic, loaded).ready
  {
    hide Config.Valid, PlanOf, SoundProofs, RulesOf, PlanRoutes, LansInvalid;
    ValidProofsSound(c, routes, proofs);
    TelegramHasNoTable(c, proofs, p);
    assert NeedsNetwork(proofs);
    if loaded.Loaded? && PlanRoutes(proofs, loaded.diagnostics).Planned? {
      PlanRoutesFacts(proofs, loaded.diagnostics);
    }
  }

  lemma TelegramHasNoTable(c: Config.Settings, proofs: seq<RouteProof>, p: RouteProof)
    requires SoundProofs(c, proofs) && p in proofs && p.kind.TgWsProxy?
    ensures p.table == 0 && forall d :: WantedRoutes(p, d).Stopped?
  {
  }
}
