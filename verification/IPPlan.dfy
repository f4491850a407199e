/** The plan handed to the device, how it is built, and what its loader accepts. */
module IPPlan {
  import opened Prelude
  import opened Config
  import opened ProofPlan

  /** A textual address as the parser sees it. */
  datatype Address = NoAddress | BadAddress | V4(text: string) | V6(text: string)

  datatype Diagnostics = Diagnostics(
    tproxy: bool, wan: string, lans: seq<string>,
    gateway4: Address, gateway6: Address, ipv6Available: bool,
    flowVerified: bool, softwareFlow: bool, hardwareFlow: bool)

  /** `loadNetworkDiagnostics`: a reason to block, or verified diagnostics. */
  datatype Loaded = Refused(reason: string) | Loaded(diagnostics: Diagnostics)

  datatype RouteForm = Unicast | Local | Unreachable

  datatype IPRoute = IPRoute(
    family: Family, table: int, destination: string, form: RouteForm, via: Address, device: string)

  datatype Status = Unverified | CandidateOnly | Ready

  datatype TransparentPlan = TransparentPlan(
    enabled: bool, candidateOnly: bool, capabilityVerified: bool, status: Status,
    port: int, tproxyMark: string, bypassMark: string, table: int)

  datatype ZapretPlan = ZapretPlan(enabled: bool, candidateOnly: bool, status: Status, queue: int, projectOwned: bool)

  datatype FlowAction = NoAction | DisableOffload
  datatype FlowStatus = NotApplicable | DisablePlanned | FlowUnverified | Incompatible | VerifiedDisabled

  datatype FlowPlan = FlowPlan(
    policyTraffic: bool, required: bool, verified: bool, software: bool, hardware: bool,
    requested: FlowPolicy, action: FlowAction, status: FlowStatus)

  datatype DnsProxy = DnsProxy(routeTag: string, inbound: string, port: int, outbound: string)

  datatype IPPlan = IPPlan(
    ready: bool, blockReason: string, provenance: bool,
    routes: seq<IPRoute>, planned: seq<IPRoute>, rules: seq<RouteProof>, ipRules: seq<IPRule>,
    transparent: TransparentPlan, zapret: ZapretPlan, flow: FlowPlan, dns: seq<DnsProxy>)

  // ---- names ----

  predicate InterfaceChar(ch: char) {
    'A' <= ch <= 'Z' || 'a' <= ch <= 'z' || '0' <= ch <= '9' || ch == '_' || ch == '.' || ch == ':' || ch == '-'
  }

  predicate ValidInterface(name: string) {
    1 <= |name| <= 32 && forall i | 0 <= i < |name| :: InterfaceChar(name[i])
  }

  function LowerChar(ch: char): char {
    if 'A' <= ch <= 'Z' then ((ch as int) + 32) as char else ch
  }

  function Lower(s: string): string {
    if s == [] then [] else [LowerChar(s[0])] + Lower(s[1..])
  }

  /** `routeID` hashes the lower-cased tag; the hash is taken to be injective. */
  function RouteId(tag: string): string {
    Lower(tag)
  }

  // ---- the loader's validators, as predicates ----

  predicate RouteOk(r: IPRoute) {
    && r.table >= 1
    && (r.form.Unreachable? || ValidInterface(r.device))
    && match r.family
       case Ipv4 =>
         if r.form.Local? then r.destination == "0.0.0.0/0" && r.via.NoAddress? && r.device == "lo"
         else r.form.Unicast? && r.destination == "default" && r.via.V4?
       case Ipv6 =>
         match r.form
         case Local => r.destination == "::/0" && r.via.NoAddress? && r.device == "lo"
         case Unreachable => r.destination == "::/0" && r.via.NoAddress? && r.device == ""
         case Unicast => r.destination == "default" && r.via.V6?
  }

  predicate Serves(r: IPRoute, family: Family, table: int) {
    r.family == family && r.table == table
  }

  ghost predicate RoutesOk(routes: seq<IPRoute>) {
    && (forall r | r in routes :: RouteOk(r))
    && (forall i, j | 0 <= i < j < |routes| :: !Serves(routes[j], routes[i].family, routes[i].table))
  }

  ghost predicate Covered(routes: seq<IPRoute>, family: Family, table: int) {
    exists r | r in routes :: Serves(r, family, table)
  }

  ghost predicate ProofOk(p: RouteProof, routes: seq<IPRoute>) {
    && p.tag != "" && p.priority >= 1
    && (!p.kind.Drop? ==>
        && p.table >= 1 && ParseMark(p.mark).Some?
        && (p.ipv4 ==> Covered(routes, Ipv4, p.table))
        && (p.ipv6 ==> Covered(routes, Ipv6, p.table)))
  }

  ghost predicate ProofsOk(proofs: seq<RouteProof>, routes: seq<IPRoute>) {
    && (forall p | p in proofs :: ProofOk(p, routes))
    && (forall i, j | 0 <= i < j < |proofs| :: proofs[i].tag != proofs[j].tag)
    && (forall p, q | p in proofs && q in proofs && p.priority == q.priority :: KeyOf(p) == KeyOf(q))
  }

  ghost predicate RuleOk(r: IPRule, routes: seq<IPRoute>) {
    && r.priority >= 1 && r.table >= 1 && r.purpose != "" && ParseMark(r.mark).Some?
    && Covered(routes, r.family, r.table)
  }

  ghost predicate RulesOk(rules: seq<IPRule>, routes: seq<IPRoute>, required: bool) {
    && (required ==> rules != [])
    && (forall r | r in rules :: RuleOk(r, routes))
    && SlotsDistinct(rules)
  }

  predicate TransparentOk(t: TransparentPlan) {
    t.enabled ==>
      && 1024 <= t.port <= 65535 && t.table >= 1
      && ParseMark(t.tproxyMark).Some? && ParseMark(t.bypassMark).Some? && t.tproxyMark != t.bypassMark
      && match t.status
         case Unverified => true
         case CandidateOnly => t.candidateOnly
         case Ready => !t.candidateOnly && t.capabilityVerified
  }

  predicate ZapretOk(z: ZapretPlan) {
    z.enabled ==>
      && 1 <= z.queue <= 65535 && z.projectOwned
      && match z.status
         case Unverified => true
         case CandidateOnly => z.candidateOnly
         case Ready => !z.candidateOnly
  }

  predicate FlowOk(f: FlowPlan) {
    if !f.required then !f.policyTraffic && f.action.NoAction? && f.status.NotApplicable?
    else if f.requested.Disable? then f.action.DisableOffload? && f.status.DisablePlanned?
    else
      && f.policyTraffic && f.action.NoAction?
      && match f.status
         case FlowUnverified => true
         case Incompatible => f.verified && (f.software || f.hardware)
         case VerifiedDisabled => f.verified && !f.software && !f.hardware
         case _ => false
  }

  ghost predicate DnsEntryOk(d: DnsProxy, proofs: seq<RouteProof>) {
    && d.routeTag != "" && (exists p | p in proofs :: p.kind.Vless? && p.tag == d.routeTag)
    && d.outbound == d.routeTag && d.inbound == RouteId(d.routeTag) && 1024 <= d.port <= 65535
  }

  ghost predicate DnsOk(dns: seq<DnsProxy>, proofs: seq<RouteProof>) {
    && (forall d | d in dns :: DnsEntryOk(d, proofs))
    && (forall i, j | 0 <= i < j < |dns| ::
          dns[i].routeTag != dns[j].routeTag && dns[i].inbound != dns[j].inbound && dns[i].port != dns[j].port)
  }

  const TRANSPARENT_UNVERIFIED := "transparent_activation_unverified"
  const ZAPRET_UNVERIFIED := "zapret_activation_unverified"

  ghost predicate BlockedOk(p: IPPlan) {
    && p.blockReason != "" && p.routes == []
    && (p.planned != [] ==> RoutesOk(p.planned) && ProofsOk(p.rules, p.planned) && RulesOk(p.ipRules, p.planned, true))
    && (p.blockReason == TRANSPARENT_UNVERIFIED ==>
        p.transparent.enabled && p.transparent.capabilityVerified && p.transparent.candidateOnly && p.planned != [])
    && (p.blockReason == ZAPRET_UNVERIFIED ==> p.zapret.enabled && p.zapret.candidateOnly && p.planned != [])
  }

  predicate NeedsNetwork(proofs: seq<RouteProof>) {
    exists p | p in proofs :: !p.kind.Drop?
  }

  ghost predicate ReadyOk(p: IPPlan) {
    && p.blockReason == "" && p.planned == []
    && !p.transparent.candidateOnly && !p.zapret.candidateOnly
    && (NeedsNetwork(p.rules) ==> p.provenance)
    && RoutesOk(p.routes) && ProofsOk(p.rules, p.routes) && RulesOk(p.ipRules, p.routes, NeedsNetwork(p.rules))
  }

  /** `LoadIPPlan` returns the plan. */
  ghost predicate Accepts(p: IPPlan) {
    && TransparentOk(p.transparent) && ZapretOk(p.zapret) && FlowOk(p.flow) && DnsOk(p.dns, p.rules)
    && if p.ready then ReadyOk(p) else BlockedOk(p)
  }

  // ---- the validators as they run ----

  lemma CoveredSnoc(routes: seq<IPRoute>, r: IPRoute)
    ensures forall f, t :: Covered(routes + [r], f, t) <==> Covered(routes, f, t) || Serves(r, f, t)
  {
    var more := routes + [r];
    assert more[|routes|] == r;
    forall f, t
      ensures Covered(more, f, t) <==> Covered(routes, f, t) || Serves(r, f, t)
    {
      if Covered(routes, f, t) {
        var q :| q in routes && Serves(q, f, t);
        assert q in more;
      }
    }
  }

  lemma RoutesOkSnoc(routes: seq<IPRoute>, r: IPRoute)
    ensures RoutesOk(routes + [r]) <==> RoutesOk(routes) && RouteOk(r) && !Covered(routes, r.family, r.table)
  {
    var more := routes + [r];
    assert more[|routes|] == r && forall q | q in routes :: q in more;
    if Covered(routes, r.family, r.table) {
      var q :| q in routes && Serves(q, r.family, r.table);
      var i :| 0 <= i < |routes| && routes[i] == q;
      assert more[i] == q && Serves(more[|routes|], more[i].family, more[i].table);
    }
    if RoutesOk(more) {
      assert forall i | 0 <= i < |routes| :: more[i] == routes[i];
    }
    if !Covered(routes, r.family, r.table) {
      forall i | 0 <= i < |routes| ensures !Serves(r, more[i].family, more[i].table) {
        assert more[i] in routes && !Serves(more[i], r.family, r.table);
      }
    }
  }

  lemma RoutesOkPrefix(routes: seq<IPRoute>, n: nat)
    requires n <= |routes| && RoutesOk(routes)
    ensures RoutesOk(routes[..n])
  {
  }

  /** `validateIPRoutes`, with the set of covered families and tables it returns. */
  method ValidateIPRoutes(routes: seq<IPRoute>) returns (ok: bool, families: set<(Family, int)>)
    ensures ok <==> RoutesOk(routes)
    ensures ok ==> forall f, t :: (f, t) in families <==> Covered(routes, f, t)
  {
    hide RoutesOk, Covered, RouteOk;
    families := {};
    NoRoutes();
    var i := 0;
    while i < |routes|
      invariant 0 <= i <= |routes| && RoutesOk(routes[..i])
      invariant forall f, t :: (f, t) in families <==> Covered(routes[..i], f, t)
    {
      var r := routes[i];
      assert routes[..i + 1] == routes[..i] + [r];
      RoutesOkSnoc(routes[..i], r);
      CoveredSnoc(routes[..i], r);
      if !RouteOk(r) || (r.family, r.table) in families {
        if RoutesOk(routes) { RoutesOkPrefix(routes, i + 1); }
        return false, families;
      }
      families := families + {(r.family, r.table)};
      i := i + 1;
    }
    assert routes[..i] == routes;
    ok := true;
  }

  lemma NoRoutes()
    ensures RoutesOk([]) && forall f, t :: !Covered([], f, t)
  {
  }

  ghost predicate HasProofTag(proofs: seq<RouteProof>, tag: string) {
    exists p | p in proofs :: p.tag == tag
  }

  ghost predicate AgreesOnPriority(proofs: seq<RouteProof>, p: RouteProof) {
    forall q | q in proofs && q.priority == p.priority :: KeyOf(q) == KeyOf(p)
  }

  lemma ProofsOkSnoc(proofs: seq<RouteProof>, p: RouteProof, routes: seq<IPRoute>)
    ensures ProofsOk(proofs + [p], routes) <==>
              ProofsOk(proofs, routes) && ProofOk(p, routes) && !HasProofTag(proofs, p.tag) && AgreesOnPriority(proofs, p)
  {
    hide ProofOk;
    var more := proofs + [p];
    assert more[|proofs|] == p && forall q | q in proofs :: q in more;
    if HasProofTag(proofs, p.tag) {
      var q :| q in proofs && q.tag == p.tag;
      var i :| 0 <= i < |proofs| && proofs[i] == q;
      assert more[i].tag == more[|proofs|].tag;
    } else {
      assert forall i | 0 <= i < |proofs| :: more[i] in proofs;
    }
    if ProofsOk(more, routes) {
      assert forall i | 0 <= i < |proofs| :: more[i] == proofs[i];
    }
  }

  lemma ProofsOkPrefix(proofs: seq<RouteProof>, n: nat, routes: seq<IPRoute>)
    requires n <= |proofs| && ProofsOk(proofs, routes)
    ensures ProofsOk(proofs[..n], routes)
  {
    hide ProofOk;
  }

  /** `priorities` maps every priority in use to its mark and table. */
  ghost predicate Names(priorities: map<int, Key>, proofs: seq<RouteProof>) {
    && (forall p | p in proofs :: p.priority in priorities && priorities[p.priority] == KeyOf(p))
    && (forall n | n in priorities :: exists p | p in proofs :: p.priority == n)
  }

  lemma NamesSnoc(priorities: map<int, Key>, proofs: seq<RouteProof>, p: RouteProof)
    requires Names(priorities, proofs)
    ensures AgreesOnPriority(proofs, p) <==> (p.priority in priorities ==> priorities[p.priority] == KeyOf(p))
    ensures AgreesOnPriority(proofs, p) ==> Names(priorities[p.priority := KeyOf(p)], proofs + [p])
    ensures forall t :: HasProofTag(proofs + [p], t) <==> HasProofTag(proofs, t) || p.tag == t
  {
    var more := proofs + [p];
    assert more[|proofs|] == p && forall q :: q in more <==> q in proofs || q == p;
  }

  /** `validateIPRules` with `requireTables`. */
  method ValidateIPRules(proofs: seq<RouteProof>, families: set<(Family, int)>, ghost routes: seq<IPRoute>) returns (ok: bool)
    requires forall f, t :: (f, t) in families <==> Covered(routes, f, t)
    ensures ok <==> ProofsOk(proofs, routes)
  {
    hide Covered, ProofsOk, AgreesOnPriority, HasProofTag, Names;
    var priorities: map<int, Key> := map[];
    var tags: set<string> := {};
    NoProofs(routes);
    var i := 0;
    while i < |proofs|
      invariant 0 <= i <= |proofs| && ProofsOk(proofs[..i], routes) && Names(priorities, proofs[..i])
      invariant forall t :: t in tags <==> HasProofTag(proofs[..i], t)
    {
      var p := proofs[i];
      assert proofs[..i + 1] == proofs[..i] + [p];
      ProofsOkSnoc(proofs[..i], p, routes);
      NamesSnoc(priorities, proofs[..i], p);
      var good := p.tag != "" && p.priority >= 1 && p.tag !in tags
                  && (p.priority in priorities ==> priorities[p.priority] == KeyOf(p));
      if good && !p.kind.Drop? {
        good := p.table >= 1 && ParseMark(p.mark).Some?
                && (p.ipv4 ==> (Ipv4, p.table) in families) && (p.ipv6 ==> (Ipv6, p.table) in families);
      }
      if !good {
        if ProofsOk(proofs, routes) { ProofsOkPrefix(proofs, i + 1, routes); }
        return false;
      }
      tags := tags + {p.tag};
      priorities := priorities[p.priority := KeyOf(p)];
      i := i + 1;
    }
    assert proofs[..i] == proofs;
    ok := true;
  }

  lemma NoProofs(routes: seq<IPRoute>)
    ensures ProofsOk([], routes) && Names(map[], []) && forall t :: !HasProofTag([], t)
  {
  }

  /** `validateExplicitIPRules`. */
  method ValidateExplicitIPRules(rules: seq<IPRule>, families: set<(Family, int)>, required: bool, ghost routes: seq<IPRoute>)
    returns (ok: bool)
    requires forall f, t :: (f, t) in families <==> Covered(routes, f, t)
    ensures ok <==> RulesOk(rules, routes, required)
  {
    hide Covered;
    if required && rules == [] {
      return false;
    }
    var seen: set<(Family, int)> := {};
    var i := 0;
    while i < |rules|
      invariant 0 <= i <= |rules|
      invariant forall j | 0 <= j < i :: RuleOk(rules[j], routes) && (rules[j].family, rules[j].priority) in seen
      invariant forall j, k | 0 <= j < k < i :: !Slot(rules[k], rules[j].family, rules[j].priority)
      invariant forall f, n | (f, n) in seen :: exists j | 0 <= j < i :: Slot(rules[j], f, n)
    {
      var r := rules[i];
      assert r in rules;
      if (r.family, r.priority) in seen {
        var j :| 0 <= j < i && Slot(rules[j], r.family, r.priority);
        assert Slot(rules[i], rules[j].family, rules[j].priority);
        return false;
      }
      if r.priority < 1 || r.table < 1 || r.purpose == "" || ParseMark(r.mark).None? || (r.family, r.table) !in families {
        assert !RuleOk(r, routes);
        return false;
      }
      seen := seen + {(r.family, r.priority)};
      i := i + 1;
    }
    ok := true;
  }

  ghost predicate DnsClash(dns: seq<DnsProxy>, d: DnsProxy) {
    exists e | e in dns :: e.routeTag == d.routeTag || e.inbound == d.inbound || e.port == d.port
  }

  lemma DnsOkSnoc(dns: seq<DnsProxy>, d: DnsProxy, proofs: seq<RouteProof>)
    ensures DnsOk(dns + [d], proofs) <==> DnsOk(dns, proofs) && DnsEntryOk(d, proofs) && !DnsClash(dns, d)
  {
    hide DnsEntryOk;
    var more := dns + [d];
    assert more[|dns|] == d && forall e | e in dns :: e in more;
    if DnsClash(dns, d) {
      var e :| e in dns && (e.routeTag == d.routeTag || e.inbound == d.inbound || e.port == d.port);
      var i :| 0 <= i < |dns| && dns[i] == e;
      assert more[i] == e && more[|dns|] == d;
    } else {
      assert forall i | 0 <= i < |dns| :: more[i] in dns;
    }
    if DnsOk(more, proofs) {
      assert forall i | 0 <= i < |dns| :: more[i] == dns[i];
    }
  }

  lemma DnsOkPrefix(dns: seq<DnsProxy>, n: nat, proofs: seq<RouteProof>)
    requires n <= |dns| && DnsOk(dns, proofs)
    ensures DnsOk(dns[..n], proofs)
  {
    hide DnsEntryOk;
  }

  /** `validateDNSProxyPlans`; every plan shares the resolver that validation has checked. */
  method ValidateDnsProxies(dns: seq<DnsProxy>, proofs: seq<RouteProof>) returns (ok: bool)
    ensures ok <==> DnsOk(dns, proofs)
  {
    hide RouteId, DnsOk;
    var vless := set p | p in proofs && p.kind.Vless? :: p.tag;
    var routes: set<string>, inbounds: set<string>, ports: set<int> := {}, {}, {};
    NoDns(proofs);
    var i := 0;
    while i < |dns|
      invariant 0 <= i <= |dns| && DnsOk(dns[..i], proofs)
      invariant forall d: DnsProxy :: d.routeTag in routes || d.inbound in inbounds || d.port in ports <==> DnsClash(dns[..i], d)
    {
      var d := dns[i];
      assert dns[..i + 1] == dns[..i] + [d];
      DnsOkSnoc(dns[..i], d, proofs);
      var good := d.routeTag != "" && d.routeTag in vless && d.outbound == d.routeTag
                  && d.inbound == RouteId(d.routeTag) && d.inbound !in inbounds && d.routeTag !in routes
                  && 1024 <= d.port <= 65535 && d.port !in ports;
      if !good {
        if DnsOk(dns, proofs) { DnsOkPrefix(dns, i + 1, proofs); }
        return false;
      }
      ClashSnoc(dns[..i], d);
      routes, inbounds, ports := routes + {d.routeTag}, inbounds + {d.inbound}, ports + {d.port};
      i := i + 1;
    }
    assert dns[..i] == dns;
    ok := true;
  }

  lemma NoDns(proofs: seq<RouteProof>)
    ensures DnsOk([], proofs) && forall d: DnsProxy :: !DnsClash([], d)
  {
  }

  lemma ClashSnoc(dns: seq<DnsProxy>, d: DnsProxy)
    ensures forall e: DnsProxy :: DnsClash(dns + [d], e) <==>
              DnsClash(dns, e) || e.routeTag == d.routeTag || e.inbound == d.inbound || e.port == d.port
  {
    var more := dns + [d];
    assert more[|dns|] == d && forall e :: e in more <==> e in dns || e == d;
  }

  method LoadIPPlan(p: IPPlan) returns (ok: bool)
    ensures ok <==> Accepts(p)
  {
    hide RoutesOk, ProofsOk, RulesOk, DnsOk, Covered;
    var dnsOk := ValidateDnsProxies(p.dns, p.rules);
    if !TransparentOk(p.transparent) || !ZapretOk(p.zapret) || !FlowOk(p.flow) || !dnsOk {
      return false;
    }
    if !p.ready {
      if p.blockReason == "" || |p.routes| != 0 {
        return false;
      }
      if |p.planned| > 0 {
        var routesOk, families := ValidateIPRoutes(p.planned);
        if !routesOk {
          return false;
        }
        var proofsOk := ValidateIPRules(p.rules, families, p.planned);
        var rulesOk := ValidateExplicitIPRules(p.ipRules, families, true, p.planned);
        if !proofsOk || !rulesOk {
          return false;
        }
      }
      if p.blockReason == TRANSPARENT_UNVERIFIED && (!p.transparent.enabled || !p.transparent.capabilityVerified
         || !p.transparent.candidateOnly || |p.planned| == 0) {
        return false;
      }
      if p.blockReason == ZAPRET_UNVERIFIED && (!p.zapret.enabled || !p.zapret.candidateOnly || |p.planned| == 0) {
        return false;
      }
      return true;
    }
    if p.blockReason != "" || |p.planned| != 0 || p.transparent.candidateOnly || p.zapret.candidateOnly {
      return false;
    }
    var network := NeedsNetwork(p.rules);
    if network && !p.provenance {
      return false;
    }
    var routesOk, families := ValidateIPRoutes(p.routes);
    if !routesOk {
      return false;
    }
    var proofsOk := ValidateIPRules(p.rules, families, p.routes);
    var rulesOk := ValidateExplicitIPRules(p.ipRules, families, network, p.routes);
    ok := proofsOk && rulesOk;
  }
}
