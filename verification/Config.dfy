/** The parts of the config that the plan is compiled from, and what validation promises about them. */
module Config {
  import opened Prelude
  import Pointer

  datatype RouteType = Direct | Zapret | SmartDns | ExternalSocks | TgWsProxy | Vless | Drop

  /** A proxy endpoint as far as it is looked at: absent, refused by the parser, or a loopback listener. */
  datatype Socks = NoSocks | BadSocks | Loopback(port: int)

  datatype Route = Route(
    tag: string, kind: RouteType, priority: int,
    disabled: bool, configured: bool, realDns: bool, socks: Socks, mark: string)

  datatype ZapretSettings = ZapretSettings(managed: bool, queue: int, projectOwned: bool)

  datatype FlowPolicy = Preserve | Disable

  datatype Settings = Settings(
    routes: seq<Route>, ipv6: bool,
    directMark: string, zapretMark: string, xrayMark: string,
    tproxyMark: string, bypassMark: string, dropMark: string,
    wanTable: int, zapretTable: int, xrayTable: int,
    xrayManaged: bool, transparentPort: int, dnsBasePort: int, publicResolver: bool,
    zapret: ZapretSettings, flow: FlowPolicy, deviceOverrides: bool)

  const MAX_ROUTES := 64
  const DEFAULT_DNS_BASE_PORT := 14000

  predicate Enabled(r: Route) {
    !r.disabled && r.configured && (r.kind.SmartDns? ==> r.realDns)
  }

  /** Served through the transparent proxy, in the eyes of `Validate`. */
  predicate Transparent(r: Route) {
    r.kind.Vless? || r.kind.ExternalSocks? || r.kind.TgWsProxy?
  }

  // ---- marks ----

  function Hex(s: string, acc: nat): Option<nat> {
    if s == [] then Some(acc)
    else match Pointer.HexValue(s[0])
      case None => None
      case Some(d) => Hex(s[1..], acc * 16 + d)
  }

  /** `parseFirewallMark` and `markNumber`: 0x, one to eight digits, not zero. */
  function ParseMark(s: string): Option<nat> {
    if |s| < 3 || |s| > 10 || s[0] != '0' || s[1] != 'x' then None
    else match Hex(s[2..], 0)
      case None => None
      case Some(n) => if n == 0 then None else Some(n)
  }

  /** Two spellings of one mark. */
  predicate SameMark(a: string, b: string) {
    ParseMark(a).Some? && ParseMark(a) == ParseMark(b)
  }

  function MarkForType(c: Settings, kind: RouteType): string {
    match kind
    case Direct => c.directMark
    case SmartDns => c.directMark
    case Zapret => c.zapretMark
    case Drop => c.dropMark
    case _ => c.xrayMark
  }

  function TableForType(c: Settings, kind: RouteType): int {
    match kind
    case Direct => c.wanTable
    case SmartDns => c.wanTable
    case Zapret => c.zapretTable
    case Drop => 0
    case _ => c.xrayTable
  }

  function MarkFor(c: Settings, r: Route): string {
    if r.mark != "" then r.mark else MarkForType(c, r.kind)
  }

  // ---- what a valid config is ----

  ghost predicate TagsDistinct(routes: seq<Route>) {
    forall i, j | 0 <= i < j < |routes| :: routes[i].tag != routes[j].tag
  }

  predicate FieldsOk(r: Route) {
    && r.tag != ""
    && (!r.disabled ==> r.configured)
    && (!r.disabled && r.kind.SmartDns? ==> r.realDns)
    && (Enabled(r) && Transparent(r) ==> r.socks.Loopback? && 1 <= r.socks.port <= 65535)
  }

  /** The route listens for the transparent proxy on this port. */
  predicate Listens(r: Route, port: int) {
    Enabled(r) && Transparent(r) && r.socks == Loopback(port)
  }

  ghost predicate SocksDistinct(routes: seq<Route>) {
    forall i, j, port: int | 0 <= i < j < |routes| && Listens(routes[i], port) :: !Listens(routes[j], port)
  }

  ghost predicate MarkOk(c: Settings, r: Route) {
    ParseMark(MarkFor(c, r)).Some? && (r.kind.Drop? || TableForType(c, r.kind) >= 1)
  }

  ghost predicate MarksOk(c: Settings) {
    && (forall r | r in c.routes && Enabled(r) :: MarkOk(c, r))
    && (forall r, q | r in c.routes && q in c.routes && Enabled(r) && Enabled(q) && SameMark(MarkFor(c, r), MarkFor(c, q)) ::
          TableForType(c, r.kind) == TableForType(c, q.kind))
  }

  function NamedMarks(c: Settings): seq<string> {
    [c.directMark, c.zapretMark, c.xrayMark, c.tproxyMark, c.bypassMark, c.dropMark]
  }

  ghost predicate NamedMarksOk(marks: seq<string>) {
    && (forall m | m in marks :: ParseMark(m).Some?)
    && (forall i, j | 0 <= i < j < |marks| :: ParseMark(marks[i]) != ParseMark(marks[j]))
  }

  /** The ways that packets can take, each with its mark and its table. */
  datatype Way = Wan | ThroughZapret | ThroughProxy | Discarded

  function WayOf(kind: RouteType): Way {
    if kind in {Direct, SmartDns} then Wan
    else if kind.Zapret? then ThroughZapret
    else if kind.Drop? then Discarded
    else ThroughProxy
  }

  /** With the named marks apart, route types have one mark exactly when packets take the same way; each way has its table. */
  lemma MarksNameWays(c: Settings, a: RouteType, b: RouteType)
    requires NamedMarksOk(NamedMarks(c))
    ensures SameMark(MarkForType(c, a), MarkForType(c, b)) <==> WayOf(a) == WayOf(b)
    ensures WayOf(a).Wan? ==> MarkForType(c, a) == c.directMark && TableForType(c, a) == c.wanTable
    ensures WayOf(a).ThroughZapret? ==> MarkForType(c, a) == c.zapretMark && TableForType(c, a) == c.zapretTable
    ensures WayOf(a).ThroughProxy? ==> MarkForType(c, a) == c.xrayMark && TableForType(c, a) == c.xrayTable
    ensures WayOf(a).Discarded? ==> MarkForType(c, a) == c.dropMark && TableForType(c, a) == 0
  {
    var marks := NamedMarks(c);
    assert marks[0] in marks && marks[1] in marks && marks[2] in marks && marks[5] in marks;
    assert ParseMark(marks[0]) != ParseMark(marks[1]) && ParseMark(marks[0]) != ParseMark(marks[2]);
    assert ParseMark(marks[0]) != ParseMark(marks[5]) && ParseMark(marks[1]) != ParseMark(marks[2]);
    assert ParseMark(marks[1]) != ParseMark(marks[5]) && ParseMark(marks[2]) != ParseMark(marks[5]);
  }

  ghost predicate HasTransparent(routes: seq<Route>) {
    exists r | r in routes :: Enabled(r) && Transparent(r)
  }

  ghost predicate TransparentOk(c: Settings) {
    HasTransparent(c.routes) ==>
      && 1024 <= c.transparentPort <= 65535
      && !HasListener(c.routes, c.transparentPort)
      && c.publicResolver && NamedMarksOk(NamedMarks(c))
  }

  predicate EnabledVless(r: Route) {
    Enabled(r) && r.kind.Vless?
  }

  function VlessCount(routes: seq<Route>): nat {
    if routes == [] then 0
    else VlessCount(routes[..|routes| - 1]) + (if EnabledVless(routes[|routes| - 1]) then 1 else 0)
  }

  function DnsBasePort(c: Settings): int {
    if c.dnsBasePort == 0 then DEFAULT_DNS_BASE_PORT else c.dnsBasePort
  }

  ghost predicate PortTaken(c: Settings, port: int) {
    port == c.transparentPort || HasListener(c.routes, port)
  }

  ghost predicate DnsPortsOk(c: Settings) {
    var base, count := DnsBasePort(c), VlessCount(c.routes);
    count > 0 ==>
      && 1024 <= base && base + count - 1 <= 65535
      && forall port | base <= port < base + count :: !PortTaken(c, port)
  }

  predicate ZapretOk(c: Settings) {
    (exists r | r in c.routes :: Enabled(r) && r.kind.Zapret?) ==>
      c.zapret.managed && c.zapret.projectOwned && 1 <= c.zapret.queue <= 65535
  }

  ghost predicate Valid(c: Settings) {
    && 0 < |c.routes| <= MAX_ROUTES
    && RoutesOk(c.routes) && HasDrop(c.routes)
    && MarksOk(c) && TransparentOk(c) && DnsPortsOk(c) && ZapretOk(c)
  }

  // ---- the checks as `Validate` runs them ----

  ghost predicate RoutesOk(routes: seq<Route>) {
    TagsDistinct(routes) && (forall r | r in routes :: FieldsOk(r)) && SocksDistinct(routes)
  }

  ghost predicate HasTag(routes: seq<Route>, tag: string) {
    exists r | r in routes :: r.tag == tag
  }

  ghost predicate HasListener(routes: seq<Route>, port: int) {
    exists r | r in routes :: Listens(r, port)
  }

  ghost predicate HasDrop(routes: seq<Route>) {
    exists r | r in routes :: Enabled(r) && r.kind.Drop?
  }

  /** One more route, check by check. */
  lemma RoutesSnoc(routes: seq<Route>, r: Route)
    ensures RoutesOk(routes + [r]) <==>
              && RoutesOk(routes) && FieldsOk(r) && !HasTag(routes, r.tag)
              && (Enabled(r) && Transparent(r) ==> r.socks.Loopback? ==> !HasListener(routes, r.socks.port))
  {
    var all := routes + [r];
    assert r == all[|routes|] && forall q | q in routes :: q in all;
    if HasTag(routes, r.tag) {
      var j :| 0 <= j < |routes| && routes[j].tag == r.tag;
      assert all[j].tag == all[|routes|].tag;
    }
    if Enabled(r) && Transparent(r) && r.socks.Loopback? && HasListener(routes, r.socks.port) {
      var j :| 0 <= j < |routes| && Listens(routes[j], r.socks.port);
      assert Listens(all[j], r.socks.port) && Listens(all[|routes|], r.socks.port);
    }
    if RoutesOk(all) {
      assert forall i | 0 <= i < |routes| :: routes[i] == all[i];
    }
  }

  lemma FactsSnoc(routes: seq<Route>, r: Route)
    ensures forall tag :: HasTag(routes + [r], tag) <==> HasTag(routes, tag) || r.tag == tag
    ensures forall port :: HasListener(routes + [r], port) <==> HasListener(routes, port) || Listens(r, port)
    ensures HasTransparent(routes + [r]) <==> HasTransparent(routes) || (Enabled(r) && Transparent(r))
    ensures HasDrop(routes + [r]) <==> HasDrop(routes) || (Enabled(r) && r.kind.Drop?)
    ensures VlessCount(routes + [r]) == VlessCount(routes) + if EnabledVless(r) then 1 else 0
  {
    var all := routes + [r];
    assert all[..|routes|] == routes && forall q :: q in all <==> q in routes || q == r;
  }

  lemma {:induction false} RoutesPrefix(routes: seq<Route>, n: nat)
    requires n <= |routes| && RoutesOk(routes)
    ensures RoutesOk(routes[..n])
  {
    assert forall i | 0 <= i < n :: routes[..n][i] == routes[i];
  }

  method CheckRoutes(routes: seq<Route>) returns (ok: bool, ports: map<int, string>, vless: nat, transparent: bool, drop: bool)
    ensures ok <==> RoutesOk(routes)
    ensures ok ==> forall port :: port in ports <==> HasListener(routes, port)
    ensures ok ==> vless == VlessCount(routes) && (transparent <==> HasTransparent(routes)) && (drop <==> HasDrop(routes))
  {
    hide RoutesOk, HasTag, HasListener, HasTransparent, HasDrop, VlessCount;
    var seen: set<string> := {};
    ports, vless, transparent, drop := map[], 0, false, false;
    NoRoutes();
    var i := 0;
    while i < |routes|
      invariant 0 <= i <= |routes| && RoutesOk(routes[..i])
      invariant forall tag :: tag in seen <==> HasTag(routes[..i], tag)
      invariant forall port :: port in ports <==> HasListener(routes[..i], port)
      invariant vless == VlessCount(routes[..i])
      invariant transparent <==> HasTransparent(routes[..i])
      invariant drop <==> HasDrop(routes[..i])
    {
      var r := routes[i];
      assert routes[..i + 1] == routes[..i] + [r];
      RoutesSnoc(routes[..i], r);
      FactsSnoc(routes[..i], r);
      if !RoutesOk(routes[..i + 1]) {
        if RoutesOk(routes) { RoutesPrefix(routes, i + 1); }
      }
      if !FieldsOk(r) || r.tag in seen {
        return false, ports, vless, transparent, drop;
      }
      if Enabled(r) && r.kind.Drop? {
        drop := true;
      }
      if Enabled(r) && r.kind.Vless? {
        vless := vless + 1;
      }
      if Enabled(r) && Transparent(r) {
        transparent := true;
        if r.socks.port in ports {
          return false, ports, vless, transparent, drop;
        }
        ports := ports[r.socks.port := r.tag];
      }
      seen := seen + {r.tag};
      i := i + 1;
    }
    assert routes[..i] == routes;
    ok := true;
  }

  lemma NoRoutes()
    ensures RoutesOk([]) && VlessCount([]) == 0 && !HasTransparent([]) && !HasDrop([])
    ensures forall tag :: !HasTag([], tag)
    ensures forall port :: !HasListener([], port)
  {
  }

  /** The tables that the marks of these routes have, so far without a conflict. */
  ghost predicate TablesOf(c: Settings, routes: seq<Route>, tables: map<nat, int>) {
    && (forall r | r in routes && Enabled(r) ::
          MarkOk(c, r) && ParseMark(MarkFor(c, r)).value in tables
          && tables[ParseMark(MarkFor(c, r)).value] == TableForType(c, r.kind))
    && (forall n | n in tables :: exists r | r in routes ::
          Enabled(r) && ParseMark(MarkFor(c, r)) == Some(n) && TableForType(c, r.kind) == tables[n])
  }

  lemma TablesSnoc(c: Settings, routes: seq<Route>, tables: map<nat, int>, r: Route)
    requires TablesOf(c, routes, tables)
    requires Enabled(r) ==> MarkOk(c, r)
    requires Enabled(r) && ParseMark(MarkFor(c, r)).value in tables ==>
               tables[ParseMark(MarkFor(c, r)).value] == TableForType(c, r.kind)
    ensures TablesOf(c, routes + [r],
                     if Enabled(r) then tables[ParseMark(MarkFor(c, r)).value := TableForType(c, r.kind)] else tables)
  {
    hide Enabled, MarkFor, ParseMark, TableForType;
    var all := routes + [r];
    assert forall q :: q in all <==> q in routes || q == r;
    var after := if Enabled(r) then tables[ParseMark(MarkFor(c, r)).value := TableForType(c, r.kind)] else tables;
    forall n | n in after
      ensures exists q | q in all :: Enabled(q) && ParseMark(MarkFor(c, q)) == Some(n) && TableForType(c, q.kind) == after[n]
    {
      if n in tables && tables[n] == after[n] {
        var q :| q in routes && Enabled(q) && ParseMark(MarkFor(c, q)) == Some(n) && TableForType(c, q.kind) == tables[n];
        assert q in all;
      } else {
        assert r in all;
      }
    }
  }

  /** One numeric mark, one table; a drop route counts as table 0. */
  method CheckMarks(c: Settings) returns (ok: bool)
    ensures ok <==> MarksOk(c)
  {
    hide Enabled, MarkFor, ParseMark, TableForType;
    var tables: map<nat, int> := map[];
    var i := 0;
    while i < |c.routes|
      invariant 0 <= i <= |c.routes|
      invariant TablesOf(c, c.routes[..i], tables)
    {
      var r := c.routes[i];
      assert c.routes[..i + 1] == c.routes[..i] + [r];
      assert r in c.routes;
      if Enabled(r) {
        var mark := ParseMark(MarkFor(c, r));
        if mark.None? {
          assert !MarkOk(c, r);
          return false;
        }
        var table := TableForType(c, r.kind);
        if !r.kind.Drop? && table < 1 {
          assert !MarkOk(c, r);
          return false;
        }
        if mark.value in tables && tables[mark.value] != table {
          var q :| q in c.routes[..i] && Enabled(q) && ParseMark(MarkFor(c, q)) == Some(mark.value)
                   && TableForType(c, q.kind) == tables[mark.value];
          assert SameMark(MarkFor(c, r), MarkFor(c, q));
          return false;
        }
        TablesSnoc(c, c.routes[..i], tables, r);
        tables := tables[mark.value := table];
      } else {
        TablesSnoc(c, c.routes[..i], tables, r);
      }
      i := i + 1;
    }
    assert c.routes[..i] == c.routes;
    ok := true;
  }

  method CheckNamedMarks(marks: seq<string>) returns (ok: bool)
    ensures ok <==> NamedMarksOk(marks)
  {
    var seen: set<nat> := {};
    var i := 0;
    while i < |marks|
      invariant 0 <= i <= |marks| && NamedMarksOk(marks[..i])
      invariant forall n :: n in seen <==> exists m | m in marks[..i] :: ParseMark(m) == Some(n)
    {
      var m := marks[i];
      assert marks[..i + 1] == marks[..i] + [m] && m in marks;
      var number := ParseMark(m);
      if number.None? {
        return false;
      }
      if number.value in seen {
        var k :| k in marks[..i] && ParseMark(k) == number;
        var j :| 0 <= j < i && marks[j] == k;
        assert ParseMark(marks[j]) == ParseMark(marks[i]);
        return false;
      }
      seen := seen + {number.value};
      i := i + 1;
    }
    assert marks[..i] == marks;
    ok := true;
  }

  method CheckDnsPorts(c: Settings, ports: map<int, string>, count: nat) returns (ok: bool)
    requires count == VlessCount(c.routes)
    requires forall port :: port in ports <==> HasListener(c.routes, port)
    ensures ok <==> DnsPortsOk(c)
  {
    if count == 0 {
      return true;
    }
    var base := DnsBasePort(c);
    if base < 1024 || base > 65535 || count - 1 > 65535 - base {
      return false;
    }
    var port := base;
    while port < base + count
      invariant base <= port <= base + count
      invariant forall p | base <= p < port :: !PortTaken(c, p)
    {
      if port == c.transparentPort || port in ports {
        assert PortTaken(c, port);
        return false;
      }
      port := port + 1;
    }
    ok := true;
  }

  /** `Validate`, on the fields kept here: accepted exactly when the config is valid. */
  method Validate(c: Settings) returns (ok: bool)
    ensures ok <==> Valid(c)
  {
    if |c.routes| == 0 || |c.routes| > MAX_ROUTES {
      return false;
    }
    var routesOk, ports, vless, transparent, drop := CheckRoutes(c.routes);
    if !routesOk || !drop {
      return false;
    }
    var marksOk := CheckMarks(c);
    if !marksOk || !ZapretOk(c) {
      return false;
    }
    if transparent {
      if c.transparentPort < 1024 || c.transparentPort > 65535 || c.transparentPort in ports || !c.publicResolver {
        return false;
      }
      var namedOk := CheckNamedMarks(NamedMarks(c));
      if !namedOk {
        return false;
      }
    }
    ok := CheckDnsPorts(c, ports, vless);
  }
}
