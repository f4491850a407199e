/** For each exact condition elsewhere, a small input at which it fails. */
module Failures {
  import opened Prelude
  import Config
  import opened ProofPlan
  import opened IPPlan
  import opened PlanBuild
  import opened PlanAccepted
  import opened Kernel
  import opened Lookup
  import DnsProxies
  import Tailer
  import opened Example

  // ---- plans ----

  const SHARED_TABLE := SETTINGS.(xrayTable := 100)
  const SHARED_PROOFS := PROOFS[1 := PROOFS[1].(table := 100)]

  lemma SharedTableSettings()
    ensures Config.Valid(SHARED_TABLE) && ListsEnabled(SHARED_TABLE, SHARED_TABLE.routes)
    ensures PlanOf(SHARED_TABLE, SHARED_TABLE.routes, SHARED_PROOFS)
  {
    hide Config.Valid;
    RoutesOfSettings();
    ValidWith(SETTINGS.routes, 100);
    var routes := SETTINGS.routes;
    assert RouteKey(SHARED_TABLE, routes[0]) == Key("0x1", 100);
    assert RouteKey(SHARED_TABLE, routes[1]) == Key("0x3", 100);
    assert RouteKey(SHARED_TABLE, routes[2]) == Key("0x6", 0);
    assert Leader(SHARED_TABLE, routes, 0) == 0 && Leader(SHARED_TABLE, routes, 1) == 1 && Leader(SHARED_TABLE, routes, 2) == 2;
  }

  /** A valid config with one table for the WAN and the proxy: its plan is ready, and its loader refuses it. */
  lemma SharedTableRefused(dns: seq<DnsProxy>)
    ensures Config.Valid(SHARED_TABLE) && PlanOf(SHARED_TABLE, SHARED_TABLE.routes, SHARED_PROOFS)
    ensures PlanFor(SHARED_TABLE, SHARED_PROOFS, true, Loaded(FOUND)).ready
    ensures !Accepts(PlanFor(SHARED_TABLE, SHARED_PROOFS, true, Loaded(FOUND)).(dns := dns))
  {
    hide Config.Valid, PlanOf, ListsEnabled, PlanRoutes, RulesOf, Accepts, SoundProofs;
    SharedTableSettings();
    ValidProofsSound(SHARED_TABLE, SHARED_TABLE.routes, SHARED_PROOFS);
    assert SHARED_PROOFS[0] in SHARED_PROOFS && SHARED_PROOFS[1] in SHARED_PROOFS;
    assert Servable(SHARED_TABLE, SHARED_PROOFS, FOUND);
    PlannedWhenServable(SHARED_TABLE, SHARED_PROOFS, FOUND);
    BuiltPlanAccepted(SHARED_TABLE, SHARED_TABLE.routes, SHARED_PROOFS, true, Loaded(FOUND), dns);
  }

  const TELEGRAM := Config.Route("telegram", Config.TgWsProxy, 20, false, true, true, Config.Loopback(10808), "")
  const WITH_TELEGRAM := SETTINGS.(routes := [WAN, TELEGRAM, BLOCK])
  const TELEGRAM_PROOFS := PROOFS[1 := RouteProof("telegram", Config.TgWsProxy, "", 0, 10020, true, false)]

  /** A valid config with an enabled `tg_ws_proxy` route, for which no plan is ever ready. */
  lemma TelegramNeverReady(traffic: bool, loaded: Loaded)
    ensures Config.Valid(WITH_TELEGRAM) && PlanOf(WITH_TELEGRAM, WITH_TELEGRAM.routes, TELEGRAM_PROOFS)
    ensures !PlanFor(WITH_TELEGRAM, TELEGRAM_PROOFS, traffic, loaded).ready
  {
    hide Config.Valid, PlanFor;
    var routes := WITH_TELEGRAM.routes;
    assert forall r :: r in routes <==> r == WAN || r == TELEGRAM || r == BLOCK;
    assert BLOCK in routes && Config.VlessCount(routes) == 0 by {
      assert routes[..2] == [WAN, TELEGRAM] && routes[..2][..1] == [WAN] && routes[..2][..1][..0] == [];
      assert Config.VlessCount([]) == 0 && Config.VlessCount([WAN]) == 0 && Config.VlessCount([WAN, TELEGRAM]) == 0;
    }
    ValidWith(routes, 102);
    assert RouteKey(WITH_TELEGRAM, routes[0]) == Key("0x1", 100);
    assert RouteKey(WITH_TELEGRAM, routes[1]) == Key("", 0);
    assert RouteKey(WITH_TELEGRAM, routes[2]) == Key("0x6", 0);
    assert Leader(WITH_TELEGRAM, routes, 0) == 0 && Leader(WITH_TELEGRAM, routes, 1) == 1 && Leader(WITH_TELEGRAM, routes, 2) == 2;
    assert TELEGRAM_PROOFS[1] in TELEGRAM_PROOFS;
    TelegramRouteBlocks(WITH_TELEGRAM, routes, TELEGRAM_PROOFS, traffic, loaded, TELEGRAM_PROOFS[1]);
  }

  // ---- rule priorities ----

  const MARKED := TUNNEL.(mark := "0x4")
  const MARKED_TUNNEL := SETTINGS.(routes := [WAN, MARKED, BLOCK])
  const MARKED_PROOFS := PROOFS[1 := PROOFS[1].(mark := "0x4")]

  /** A route with the mark and table of the TPROXY rule: its proof names a priority that is not its rule's. */
  lemma TProxyTakesPriority()
    ensures Config.Valid(MARKED_TUNNEL) && PlanOf(MARKED_TUNNEL, MARKED_TUNNEL.routes, MARKED_PROOFS)
    ensures exists r | r in RulesOf(MARKED_TUNNEL, MARKED_PROOFS) :: r.family == Ipv4 && r.mark == "0x4" && r.table == 102
    ensures forall r | r in RulesOf(MARKED_TUNNEL, MARKED_PROOFS) && r.family == Ipv4 && r.mark == "0x4" && r.table == 102 ::
              r.priority == 10000 && r.priority != MARKED_PROOFS[1].priority
  {
    hide Config.Valid, RulesOf, PrioritiesNameKeys;
    var routes := MARKED_TUNNEL.routes;
    assert forall r :: r in routes <==> r == WAN || r == MARKED || r == BLOCK;
    assert BLOCK in routes && Config.VlessCount(routes) == 1 by {
      assert routes[..2] == [WAN, MARKED] && routes[..2][..1] == [WAN] && routes[..2][..1][..0] == [];
      assert Config.VlessCount([]) == 0 && Config.VlessCount([WAN]) == 0 && Config.VlessCount([WAN, MARKED]) == 1;
    }
    ValidWith(routes, 102);
    assert RouteKey(MARKED_TUNNEL, routes[0]) == Key("0x1", 100);
    assert RouteKey(MARKED_TUNNEL, routes[1]) == Key("0x4", 102);
    assert RouteKey(MARKED_TUNNEL, routes[2]) == Key("0x6", 0);
    assert Leader(MARKED_TUNNEL, routes, 0) == 0 && Leader(MARKED_TUNNEL, routes, 1) == 1 && Leader(MARKED_TUNNEL, routes, 2) == 2;
    assert MARKED_PROOFS[1] in MARKED_PROOFS;
    PlanNamesKeys(MARKED_TUNNEL, routes, MARKED_PROOFS);
    ProofPriorityIsInstalled(MARKED_TUNNEL, MARKED_PROOFS, MARKED_PROOFS[1], Ipv4);
  }

  const MARKED_WAN := SETTINGS.(routes := [WAN.(mark := "0x4"), TUNNEL, BLOCK])
  const WAN_PROOFS := PROOFS[0 := PROOFS[0].(mark := "0x4")]

  lemma MarkedWanValid()
    ensures Config.Valid(MARKED_WAN) && ListsEnabled(MARKED_WAN, MARKED_WAN.routes)
    ensures PlanOf(MARKED_WAN, MARKED_WAN.routes, WAN_PROOFS)
  {
    hide Config.Valid;
    var routes := MARKED_WAN.routes;
    assert forall r :: r in routes <==> r == routes[0] || r == TUNNEL || r == BLOCK;
    assert BLOCK in routes && Config.VlessCount(routes) == 1 by {
      var one := [routes[0]];
      assert routes[..2] == [routes[0], TUNNEL] && routes[..2][..1] == one && one[..0] == [];
      assert Config.VlessCount([]) == 0 && Config.VlessCount(one) == 0 && Config.VlessCount([routes[0], TUNNEL]) == 1;
    }
    ValidWith(routes, 102);
    assert RouteKey(MARKED_WAN, routes[0]) == Key("0x4", 100);
    assert RouteKey(MARKED_WAN, routes[1]) == Key("0x3", 102);
    assert RouteKey(MARKED_WAN, routes[2]) == Key("0x6", 0);
    assert Leader(MARKED_WAN, routes, 0) == 0 && Leader(MARKED_WAN, routes, 1) == 1 && Leader(MARKED_WAN, routes, 2) == 2;
  }

  /** A valid config whose WAN route has the TPROXY mark: its packets are looked up in the proxy's table. */
  lemma MarkedWanDiverted(foreign: nat -> bool)
    ensures Config.Valid(MARKED_WAN) && PlanOf(MARKED_WAN, MARKED_WAN.routes, WAN_PROOFS)
    ensures Diverted(MARKED_WAN, WAN_PROOFS, WAN_PROOFS[0]) && WAN_PROOFS[0].table == 100
    ensures LookupTable(InstalledAll([], OfFamily(RulesOf(MARKED_WAN, WAN_PROOFS), Ipv4)), MarkNumber("0x4"), foreign)
            == Some(102)
  {
    hide Config.Valid, PlanOf, ListsEnabled, RulesOf, OfFamily, InstalledAll, LookupTable, Config.ParseMark, Digit;
    Marks();
    MarkedWanValid();
    assert WAN_PROOFS[0] in WAN_PROOFS && WAN_PROOFS[1] in WAN_PROOFS;
    assert HasProxied(WAN_PROOFS);
    TProxyPacketFindsTable(MARKED_WAN, MARKED_WAN.routes, WAN_PROOFS, Ipv4, [], foreign, TPROXY_PRIORITY);
  }

  // ---- DNS listeners ----

  const CAPITAL := Config.Route("Tunnel", Config.Vless, 20, false, true, true, Config.Loopback(10809), "")
  const TWO_CASES := SETTINGS.(routes := [WAN, TUNNEL, CAPITAL, BLOCK])
  const BOTH := {"tunnel", "Tunnel"}

  lemma SameId()
    ensures RouteId("tunnel") == RouteId("Tunnel")
  {
    assert "tunnel"[1..] == "unnel" && "Tunnel"[1..] == "unnel";
    assert Lower("tunnel") == ['t'] + Lower("unnel");
    assert Lower("Tunnel") == ['t'] + Lower("unnel");
  }

  lemma TwoCasesCount()
    ensures Config.VlessCount(TWO_CASES.routes) == 2
  {
    var routes := TWO_CASES.routes;
    assert routes[..3] == [WAN, TUNNEL, CAPITAL] && [WAN, TUNNEL, CAPITAL][..2] == [WAN, TUNNEL];
    assert [WAN, TUNNEL][..1] == [WAN] && [WAN][..0] == [];
    assert Config.VlessCount([]) == 0 && Config.VlessCount([WAN]) == 0 && Config.VlessCount([WAN, TUNNEL]) == 1;
    assert Config.VlessCount([WAN, TUNNEL, CAPITAL]) == 2;
  }

  lemma TwoCasesRoutes()
    ensures Config.RoutesOk(TWO_CASES.routes) && ListsEnabled(TWO_CASES, TWO_CASES.routes)
    ensures TUNNEL in TWO_CASES.routes && CAPITAL in TWO_CASES.routes && BLOCK in TWO_CASES.routes
    ensures forall r :: r in TWO_CASES.routes <==> r == WAN || r == TUNNEL || r == CAPITAL || r == BLOCK
  {
  }

  lemma TwoCasesValid()
    ensures Config.Valid(TWO_CASES)
  {
    hide Config.Valid, Config.VlessCount, Config.RoutesOk;
    TwoCasesCount();
    TwoCasesRoutes();
    ValidWith(TWO_CASES.routes, 102);
  }

  /** Two used VLESS tags that differ in case only: ports are allocated, and the loader refuses the listeners. */
  lemma CaseOnlyTagsRefused(proofs: seq<RouteProof>)
    requires PlanOf(TWO_CASES, TWO_CASES.routes, proofs)
    ensures Config.Valid(TWO_CASES) && DnsProxies.Allocatable(TWO_CASES, TWO_CASES.routes, BOTH)
    ensures !DnsOk(DnsProxies.Listeners(TWO_CASES, TWO_CASES.routes, BOTH), proofs)
  {
    hide Config.Valid, PlanOf, RouteId, DnsProxies.Allocatable, DnsOk;
    TwoCasesValid();
    TwoCasesRoutes();
    SameId();
    assert !DnsProxies.IdsDistinct(BOTH) by { assert "tunnel" in BOTH && "Tunnel" in BOTH && "tunnel"[0] != "Tunnel"[0]; }
    DnsProxies.AllocationNeverFails(TWO_CASES, TWO_CASES.routes, BOTH);
    DnsProxies.AllocatedAccepted(TWO_CASES, TWO_CASES.routes, proofs, BOTH);
  }

  const SQUATTER := WAN.(socks := Config.Loopback(14000))
  const SQUATTED := SETTINGS.(routes := [SQUATTER, TUNNEL, BLOCK])

  /** A direct route with a SOCKS endpoint on the first DNS proxy port: valid, and the allocation fails. */
  lemma SquattedPortFails()
    ensures Config.Valid(SQUATTED) && !DnsProxies.Allocatable(SQUATTED, SQUATTED.routes, {"tunnel"})
  {
    hide Config.Valid;
    var routes := SQUATTED.routes;
    assert forall r :: r in routes <==> r == SQUATTER || r == TUNNEL || r == BLOCK;
    assert BLOCK in routes && Config.VlessCount(routes) == 1 by {
      assert routes[..2] == [SQUATTER, TUNNEL] && routes[..2][..1] == [SQUATTER] && routes[..2][..1][..0] == [];
      assert Config.VlessCount([]) == 0 && Config.VlessCount([SQUATTER]) == 0 && Config.VlessCount([SQUATTER, TUNNEL]) == 1;
    }
    ValidWith(routes, 102);
    DnsProxies.VlessFacts(routes);
    DnsProxies.VlessFit(SQUATTED, routes);
    var vless := DnsProxies.VlessByTag(routes);
    assert |vless| == 1 && vless[0] in vless && vless[0] == TUNNEL;
    assert DnsProxies.PortAt(SQUATTED, 0) == 14000 && routes[0].socks == Config.Loopback(14000);
    assert DnsProxies.Reserved(SQUATTED, routes, 14000);
    assert !DnsProxies.PortsFree(SQUATTED, routes, {"tunnel"});
  }

  // ---- the DNS log ----

  const SEEN := Tailer.Observation("example.org", "A", "192.0.2.7")

  /** A parser that knows a single line. */
  function OneLine(line: seq<Tailer.byte>): Option<Tailer.Observation> {
    if line == [65] then Some(SEEN) else None
  }

  const LONG: seq<Tailer.byte> := seq(Tailer.MAX_LINE + 1, _ => 0)
  const CUT_LOG := LONG + [65, Tailer.NEWLINE]
  const CUT := Tailer.Cut(0, Tailer.MAX_LINE + 1)

  /** An overlong line that is given up on before its end: the rest parses, and is taken for a line of its own. */
  lemma CutTailEmitted()
    ensures Tailer.CutsOk(CUT_LOG, 0, [CUT], |CUT_LOG|) && !Tailer.TailsQuiet(CUT_LOG, CUT.hi, [], |CUT_LOG|, OneLine)
    ensures Tailer.Observed(CUT_LOG, OneLine) == [] && Tailer.Emission(CUT_LOG, 0, [CUT], |CUT_LOG|, OneLine) == [SEEN]
  {
    hide Tailer.Observed, Tailer.FirstNewline;
    var rest: seq<Tailer.byte> := [65, Tailer.NEWLINE];
    assert CUT_LOG[0..CUT.hi] == LONG && CUT_LOG[CUT.hi..|CUT_LOG|] == rest && CUT_LOG[0..0] == [] && [CUT][1..] == [];
    assert Tailer.NoNewline(LONG);
    Tailer.NothingIn([], OneLine);
    assert rest == [65] + [Tailer.NEWLINE] && rest[..1] == [65];
    Tailer.ObservedOneLine([65], OneLine);
    Tailer.FirstNewlineOf(rest, 1);
    assert CUT_LOG[CUT.hi..CUT.hi + 1] == [65];
    Tailer.ObservedAfterLong(CUT_LOG, CUT.hi + 1, OneLine) by {
      assert CUT_LOG[..CUT.hi + 1] == LONG + [65];
    }
    assert CUT_LOG[CUT.hi + 2..] == [];
  }

  /** The same in two passes of the reader: the first gives the line up, the second emits its rest. */
  method CutInTwoPasses(w: Tailer.Watcher, file: Tailer.LogFile) returns (done: bool)
    requires w.parse == OneLine && w.emitted == [] && w.discardedUntil == 0 && file.bytes == LONG
    modifies w, file
    ensures done ==> file.bytes == CUT_LOG && w.emitted == [SEEN] && Tailer.Observed(file.bytes, w.parse) == []
  {
    hide Tailer.Observed, Tailer.FirstNewline, Tailer.NoNewline, Tailer.MakesProgress;
    done := false;
    var ok, next, reset, discarded;
    ghost var start, complete;
    ok, next, reset, discarded, start, complete := w.ReadPass(file, 0, 0, "");
    if !ok || |file.bytes| != |LONG| {
      return;
    }
    LongIsCut();
    NothingOfLong(complete);
    assert file.bytes == LONG && start == 0;
    assert discarded && next == |LONG|;
    assert w.emitted == w.emitted[0..];
    file.MaybeAppend();
    if file.bytes != CUT_LOG {
      return;
    }
    ok, next, reset, discarded, start, complete := w.ReadPass(file, next, 0, "");
    if !ok || |file.bytes| != |CUT_LOG| {
      return;
    }
    assert file.bytes == CUT_LOG && start == |LONG|;
    CutTailEmitted();
    RestIsRead(complete, discarded, next);
    assert w.emitted == w.emitted[0..];
    done := true;
  }

  lemma LongIsCut()
    ensures Tailer.LongTail(LONG, 0, |LONG|)
  {
    assert LONG[0..] == LONG;
  }

  lemma NothingOfLong(complete: nat)
    requires complete <= |LONG| && Tailer.Whole(LONG[0..complete])
    ensures complete == 0 && Tailer.Observed(LONG[0..complete], OneLine) == []
  {
    Tailer.NothingIn([], OneLine);
    LongIsCut();
    if complete > 0 { Tailer.LastIsNewline(LONG, 0, complete); }
  }

  lemma RestIsRead(complete: nat, discarded: bool, next: nat)
    requires |LONG| <= complete <= |CUT_LOG| && Tailer.Whole(CUT_LOG[|LONG|..complete])
    requires !discarded ==> next == complete
    requires discarded ==> complete + Tailer.MAX_LINE < next <= |CUT_LOG|
    requires Tailer.MakesProgress(CUT_LOG[|LONG|..], |CUT_LOG| - |LONG|, Tailer.MAX_PASS, next - |LONG|) && next >= |LONG|
    ensures Tailer.Observed(CUT_LOG[|LONG|..complete], OneLine) == [SEEN]
  {
    hide Tailer.Observed, Tailer.FirstNewline;
    var rest: seq<Tailer.byte> := [65, Tailer.NEWLINE];
    assert CUT_LOG[|LONG|..] == rest && rest[..1] == [65];
    Tailer.FirstNewlineOf(rest, 1);
    assert CUT_LOG[|LONG|..|LONG| + 1] == [65] && !Tailer.Whole([65]);
    assert complete == |CUT_LOG| && CUT_LOG[|LONG|..complete] == [65] + [Tailer.NEWLINE];
    Tailer.ObservedOneLine([65], OneLine);
  }

  const UNFINISHED: seq<Tailer.byte> := [65, Tailer.NEWLINE, 66]

  /** A start at the end of a log whose last line is not finished goes back to 0 and emits an old line. */
  lemma MidLineStartReplays(w: Tailer.Watcher)
    ensures w.StartOf(UNFINISHED, |UNFINISHED|, true, false) == 0
    ensures Tailer.Observed(UNFINISHED[0..2], OneLine) == [SEEN]
  {
    assert UNFINISHED[0..2] == [65] + [Tailer.NEWLINE];
    Tailer.ObservedOneLine([65], OneLine);
  }
}
