/** One small router, for which every hypothesis of the delivery theorem holds. */
module Example {
  import opened Prelude
  import Pointer
  import Config
  import opened ProofPlan
  import opened IPPlan
  import opened PlanBuild
  import opened PlanAccepted
  import opened Kernel
  import opened Lookup
  import Domains
  import Nft
  import RouteSets
  import Delivery

  const WAN := Config.Route("wan", Config.Direct, 10, false, true, true, Config.NoSocks, "")
  const TUNNEL := Config.Route("tunnel", Config.Vless, 20, false, true, true, Config.Loopback(10808), "")
  const BLOCK := Config.Route("block", Config.Drop, 30, false, true, true, Config.NoSocks, "")

  const SETTINGS := Config.Settings(
    [WAN, TUNNEL, BLOCK], false, "0x1", "0x2", "0x3", "0x4", "0x5", "0x6", 100, 101, 102,
    true, 12345, 0, true, Config.ZapretSettings(false, 0, false), Config.Preserve, false)

  const PROOFS := [
    RouteProof("wan", Config.Direct, "0x1", 100, 10010, true, false),
    RouteProof("tunnel", Config.Vless, "0x3", 102, 10020, true, false),
    RouteProof("block", Config.Drop, "0x6", 0, 10030, false, false)]

  const FOUND := Diagnostics(true, "eth0", ["br-lan"], V4("192.0.2.1"), NoAddress, false, true, false, false)

  function Digit(n: nat): string
    requires n < 10
  {
    ['0', 'x', '0' + n as char]
  }

  lemma MarkOfDigit(n: nat)
    requires 1 <= n < 10
    ensures Config.ParseMark(Digit(n)) == Some(n)
  {
    var s, d := Digit(n), '0' + n as char;
    assert s[2..] == [d] && [d][1..] == [];
    assert d as int == '0' as int + n && Pointer.HexValue(d) == Some(n);
    assert Config.Hex([], n) == Some(n) && Config.Hex([d], 0) == Some(n);
  }

  lemma Marks()
    ensures forall n | 1 <= n < 10 :: Config.ParseMark(Digit(n)) == Some(n)
    ensures Digit(1) == "0x1" && Digit(2) == "0x2" && Digit(3) == "0x3"
    ensures Digit(4) == "0x4" && Digit(5) == "0x5" && Digit(6) == "0x6"
  {
    forall n | 1 <= n < 10 ensures Config.ParseMark(Digit(n)) == Some(n) {
      MarkOfDigit(n);
    }
  }

  lemma RoutesOfSettings()
    ensures forall r :: r in SETTINGS.routes <==> r == WAN || r == TUNNEL || r == BLOCK
    ensures Config.RoutesOk(SETTINGS.routes) && Config.HasDrop(SETTINGS.routes)
    ensures Config.VlessCount(SETTINGS.routes) == 1
    ensures forall port :: Config.HasListener(SETTINGS.routes, port) ==> port == 10808
    ensures ListsEnabled(SETTINGS, SETTINGS.routes)
  {
    var routes := SETTINGS.routes;
    assert routes[..2] == [WAN, TUNNEL] && routes[..2][..1] == [WAN] && routes[..2][..1][..0] == [];
    assert Config.VlessCount([]) == 0 && Config.VlessCount([WAN]) == 0 && Config.VlessCount([WAN, TUNNEL]) == 1;
    assert BLOCK in routes;
  }

  /** The settings stay valid with other routes of these kinds. */
  lemma ValidWith(routes: seq<Config.Route>, xrayTable: int)
    requires 0 < |routes| <= Config.MAX_ROUTES && Config.RoutesOk(routes) && Config.HasDrop(routes) && xrayTable >= 1
    requires Config.VlessCount(routes) <= 2 && forall port | Config.HasListener(routes, port) :: port in {10808, 10809}
    requires forall r | r in routes :: !r.kind.Zapret? && (r.mark == "" || r.mark == "0x4")
    requires forall r, q | r in routes && q in routes && r.mark == "0x4" && q.mark == "0x4" :: r.kind == q.kind
    ensures Config.Valid(SETTINGS.(routes := routes, xrayTable := xrayTable))
  {
    hide Config.ParseMark, Digit, Config.RoutesOk, Config.HasDrop, Config.HasListener, Config.VlessCount;
    Marks();
    var c := SETTINGS.(routes := routes, xrayTable := xrayTable);
    assert Config.MarksOk(c);
    assert Config.NamedMarksOk(Config.NamedMarks(c));
  }

  lemma SettingsValid()
    ensures Config.Valid(SETTINGS)
  {
    hide Config.Valid, Config.RoutesOk, Config.HasDrop, Config.HasListener, Config.VlessCount;
    RoutesOfSettings();
    ValidWith(SETTINGS.routes, 102);
    assert SETTINGS == SETTINGS.(routes := SETTINGS.routes, xrayTable := 102);
  }

  lemma ProofsOfSettings()
    ensures PlanOf(SETTINGS, SETTINGS.routes, PROOFS) && !Diverted(SETTINGS, PROOFS, PROOFS[1]) && !TablesClash(PROOFS)
  {
    hide Config.ParseMark, Digit;
    Marks();
    var routes := SETTINGS.routes;
    assert RouteKey(SETTINGS, routes[0]) == Key("0x1", 100);
    assert RouteKey(SETTINGS, routes[1]) == Key("0x3", 102);
    assert RouteKey(SETTINGS, routes[2]) == Key("0x6", 0);
    assert Leader(SETTINGS, routes, 0) == 0 && Leader(SETTINGS, routes, 1) == 1 && Leader(SETTINGS, routes, 2) == 2;
  }

  lemma RoutesArePlanned()
    ensures PlanRoutes(PROOFS, FOUND).Planned?
  {
    assert PROOFS[..2] == [PROOFS[0], PROOFS[1]] && PROOFS[..2][..1] == [PROOFS[0]] && PROOFS[..2][..1][..0] == [];
    assert PlanRoutes([], FOUND).Planned?;
    assert PlanRoutes([PROOFS[0]], FOUND).Planned?;
    assert PlanRoutes([PROOFS[0], PROOFS[1]], FOUND).Planned?;
  }

  lemma PlanIsReady()
    ensures PlanFor(SETTINGS, PROOFS, true, Loaded(FOUND)).ready
  {
    hide RulesOf, PlanRoutes;
    RoutesArePlanned();
    assert PROOFS[0] in PROOFS && PROOFS[1] in PROOFS;
    assert !LansInvalid(FOUND);
  }

  lemma PlanIsAccepted()
    ensures Accepts(PlanFor(SETTINGS, PROOFS, true, Loaded(FOUND)).(dns := []))
  {
    hide Config.Valid, ListsEnabled, PlanOf, PlanFor, Accepts, TablesClash;
    SettingsValid();
    RoutesOfSettings();
    ProofsOfSettings();
    NoDns(PROOFS);
    BuiltPlanAccepted(SETTINGS, SETTINGS.routes, PROOFS, true, Loaded(FOUND), []);
  }

  lemma PlanSections()
    ensures var plan := PlanFor(SETTINGS, PROOFS, true, Loaded(FOUND));
            plan.transparent.enabled && plan.transparent.port == 12345 && plan.transparent.tproxyMark == "0x4"
  {
    hide PlanFor;
    PlanIsReady();
    SectionsOfPlan(SETTINGS, PROOFS, true, Loaded(FOUND));
    assert PROOFS[1] in PROOFS && HasProxied(PROOFS);
  }

  /** The filter program of this router can be rendered for any of its routes. */
  lemma ProgramRenders(assignments: seq<Nft.Assignment>)
    requires forall a | a in assignments :: a.route in SETTINGS.routes
    ensures var plan := PlanFor(SETTINGS, PROOFS, true, Loaded(FOUND));
            Nft.Renderable(SETTINGS, assignments, plan.zapret, plan.transparent)
  {
    hide Config.ParseMark, Digit, PlanFor;
    Marks();
    PlanSections();
    RoutesOfSettings();
  }

  // ---- a packet on its way ----

  const POLICY := Domains.Policy("example.org", "Video", TUNNEL, false)
  const PACKET := Nft.Packet(Ipv4, 0x0808_0808, Nft.Tcp, 443, "br-lan", false)

  /** The proxy listens, and 8.8.8.8 is in the route set of the tunnel. */
  const WORLD := Nft.Env((id, family, address) => id == RouteId("tunnel") && address == 0x0808_0808, true)
  const FRESH := Nft.Ctx(0, 0, None)

  lemma PacketIsClassified()
    ensures RouteSets.Classified(SETTINGS, FOUND.lans, PACKET, FRESH)
  {
    hide Config.ParseMark, Digit;
    Marks();
    assert "br-lan" in FOUND.lans;
    assert ValidInterface("br-lan");
    assert "br-lan" in Nft.LanNames(FOUND.lans);
  }

  lemma HypothesesHold(foreign: nat -> bool)
    ensures Delivery.OnlyWants([POLICY], POLICY, PACKET, WORLD)
    ensures Delivery.KernelReady(SETTINGS, PROOFS, PROOFS[1], Ipv4, [], foreign)
  {
    hide RulesOf, OfFamily, RouteId;
    assert POLICY in [POLICY];
  }

  ghost predicate Taken(prog: Nft.Program, tables: map<TableKey, IPRoute>, foreign: nat -> bool)
    requires Nft.Prerouting in prog
  {
    var plan := PlanFor(SETTINGS, PROOFS, true, Loaded(FOUND));
    Delivery.TakesRoute(Nft.Filter(prog, PACKET, WORLD, FRESH), TUNNEL, PROOFS[1], FOUND, PACKET, WORLD,
                        WithRules(RuleDbs([], []), PlannedRules(plan)).At(Ipv4), WithRoutes(tables, plan.routes), foreign)
  }

  lemma PacketTaken(assignments: seq<Nft.Assignment>, prog: Nft.Program, tables: map<TableKey, IPRoute>, foreign: nat -> bool)
    requires RouteSets.AssignmentsOf([POLICY], assignments) && Nft.Prerouting in prog
    requires var plan := PlanFor(SETTINGS, PROOFS, true, Loaded(FOUND));
             Nft.Rendered(prog, SETTINGS, assignments, FOUND.lans, plan.zapret, plan.transparent)
    ensures Taken(prog, tables, foreign)
  {
    hide Config.ParseMark, Digit, RulesOf, OfFamily, InstalledAll, LookupTable, Config.Valid, ListsEnabled, PlanOf, RouteId;
    hide Diverted, PlanFor, Nft.Renderable, Nft.Rendered, Nft.Filter, RouteSets.AssignmentsOf, RouteSets.Classified;
    hide Delivery.OnlyWants, Delivery.KernelReady, Delivery.TakesRoute, TablesClash;
    SettingsValid();
    RoutesOfSettings();
    ProofsOfSettings();
    PlanIsReady();
    PacketIsClassified();
    OnlyTunnel(assignments);
    ProgramRenders(assignments);
    HypothesesHold(foreign);
    PlanIsAccepted();
    assert PROOFS[1] in PROOFS && TUNNEL in SETTINGS.routes;
    Delivery.PacketTakesItsRoute(SETTINGS, SETTINGS.routes, PROOFS, PROOFS[1], [POLICY], POLICY, assignments, prog,
                                 true, FOUND, [], PACKET, WORLD, FRESH, RuleDbs([], []), tables, foreign);
  }

  /** The filter lets the packet through, with a mark that leads to the proxy's table. */
  ghost predicate Delivered(prog: Nft.Program, foreign: nat -> bool)
    requires Nft.Prerouting in prog
  {
    var out := Nft.Filter(prog, PACKET, WORLD, FRESH);
    && out.Done? && !out.verdict.Dropped?
    && LookupTable(InstalledAll([], OfFamily(RulesOf(SETTINGS, PROOFS), Ipv4)), out.ctx.mark, foreign) == Some(102)
  }

  lemma TakenIsDelivered(prog: Nft.Program, tables: map<TableKey, IPRoute>, foreign: nat -> bool)
    requires Nft.Prerouting in prog && Taken(prog, tables, foreign)
    ensures Delivered(prog, foreign)
  {
    hide RulesOf, OfFamily, InstalledAll, LookupTable, PlanFor, Nft.Filter;
    PlanIsReady();
    assert PROOFS[1] in PROOFS;
    ReadyPlan(SETTINGS, PROOFS, true, FOUND, PROOFS[1]);
    TunnelHasRules();
  }

  /** A packet of a device behind this router, from its policy to the table it is looked up in. */
  method Deliver(tables: map<TableKey, IPRoute>, ghost foreign: nat -> bool) returns (prog: Nft.Program)
    ensures Nft.Prerouting in prog && Delivered(prog, foreign)
  {
    hide PlanFor, Nft.Renderable, RouteSets.AssignmentsOf, Delivered, Taken;
    var plan := BuildIPPlan(SETTINGS, PROOFS, true, Loaded(FOUND));
    var assignments := RouteSets.BuildRouteAssignments([POLICY]);
    OnlyTunnel(assignments);
    ProgramRenders(assignments);
    var rendered := Nft.RenderNft(SETTINGS, assignments, FOUND.lans, plan.zapret, plan.transparent);
    prog := rendered.value;
    PacketTaken(assignments, prog, tables, foreign);
    TakenIsDelivered(prog, tables, foreign);
  }

  lemma TunnelHasRules()
    ensures RulesOf(SETTINGS, PROOFS) != []
  {
    hide Config.Valid, ListsEnabled, PlanOf, RulesOf, SoundProofs;
    SettingsValid();
    RoutesOfSettings();
    ProofsOfSettings();
    ValidProofsSound(SETTINGS, SETTINGS.routes, PROOFS);
    assert PROOFS[1] in PROOFS;
    HasRules(SETTINGS, PROOFS, PROOFS[1]);
  }

  lemma OnlyTunnel(assignments: seq<Nft.Assignment>)
    requires RouteSets.AssignmentsOf([POLICY], assignments)
    ensures forall a | a in assignments :: a.route in SETTINGS.routes
  {
    hide RouteId;
    assert TUNNEL in SETTINGS.routes;
    forall a | a in assignments ensures a.route in SETTINGS.routes {
      assert RouteSets.Made([POLICY], a);
    }
  }
}
