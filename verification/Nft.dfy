/** The packet filter: rules as data, an interpreter for chains, and the program the renderer emits. */
module Nft {
  import opened Prelude
  import opened ProofPlan
  import opened IPPlan
  import Config
  import Kernel

  // ---- packets and rules ----

  datatype Transport = Tcp | Udp | OtherTransport

  /** A packet entering the router; `local` means that its destination is one of the router's own addresses. */
  datatype Packet = Packet(family: Family, dst: nat, transport: Transport, dport: nat, iif: string, local: bool)

  /** What rules may change: the packet mark, the connection mark and an assigned proxy socket. */
  datatype Ctx = Ctx(mark: nat, ct: nat, proxy: Option<int>)

  datatype Chain = Prerouting | LanIngress | CollisionGuard | Classify | RouteChain(id: string)

  datatype Match =
    | MetaMark(value: nat)
    | InIface(names: set<string>)
    | ToRouter
    | Dport(transport: Transport, ports: set<nat>)
    | Bogon(family: Family)
    | InRouteSet(id: string, family: Family)
    | TcpOrUdp(family: Family)

  datatype Stmt = SetCt(value: nat) | SetMeta(value: nat) | TProxy(port: int)

  datatype Action = Accept | Drop | Return | Queue(num: int) | Jump(chain: Chain)

  datatype Rule = Rule(matches: seq<Match>, stmts: seq<Stmt>, action: Action)

  type Program = map<Chain, seq<Rule>>

  /** The state outside the rules: the contents of the route sets, and whether the proxy listens. */
  datatype Env = Env(sets: (string, Family, nat) -> bool, listening: bool)

  datatype Verdict = Accepted | Dropped | Queued(num: int)

  datatype Result = Done(verdict: Verdict, ctx: Ctx) | Fell(ctx: Ctx) | Fault

  // ---- the interpreter ----

  const BOGONS_V4: seq<(nat, nat)> :=
    [(0x0000_0000, 0x00ff_ffff), (0x0a00_0000, 0x0aff_ffff), (0x6440_0000, 0x647f_ffff), (0x7f00_0000, 0x7fff_ffff),
     (0xa9fe_0000, 0xa9fe_ffff), (0xac10_0000, 0xac1f_ffff), (0xc0a8_0000, 0xc0a8_ffff), (0xe000_0000, 0xefff_ffff),
     (0xf000_0000, 0xffff_ffff)]

  const BOGONS_V6: seq<(nat, nat)> :=
    [(0, 0), (1, 1),
     (0xfc00_0000_0000_0000_0000_0000_0000_0000, 0xfdff_ffff_ffff_ffff_ffff_ffff_ffff_ffff),
     (0xfe80_0000_0000_0000_0000_0000_0000_0000, 0xfebf_ffff_ffff_ffff_ffff_ffff_ffff_ffff),
     (0xff00_0000_0000_0000_0000_0000_0000_0000, 0xffff_ffff_ffff_ffff_ffff_ffff_ffff_ffff)]

  predicate InRanges(ranges: seq<(nat, nat)>, address: nat) {
    exists r | r in ranges :: r.0 <= address <= r.1
  }

  predicate IsBogon(p: Packet) {
    InRanges(if p.family.Ipv4? then BOGONS_V4 else BOGONS_V6, p.dst)
  }

  predicate Holds(m: Match, p: Packet, env: Env, ctx: Ctx) {
    match m
    case MetaMark(value) => ctx.mark == value
    case InIface(names) => p.iif in names
    case ToRouter => p.local
    case Dport(transport, ports) => p.transport == transport && p.dport in ports
    case Bogon(family) => p.family == family && IsBogon(p)
    case InRouteSet(id, family) => p.family == family && env.sets(id, family, p.dst)
    case TcpOrUdp(family) => p.family == family && (p.transport.Tcp? || p.transport.Udp?)
  }

  predicate Applies(r: Rule, p: Packet, env: Env, ctx: Ctx) {
    forall m | m in r.matches :: Holds(m, p, env, ctx)
  }

  /** The statements before the verdict; a TPROXY statement without a listener breaks off the rule. */
  function Run(stmts: seq<Stmt>, env: Env, ctx: Ctx): (Ctx, bool) {
    if stmts == [] then (ctx, true)
    else
      match stmts[0]
      case SetCt(value) => Run(stmts[1..], env, ctx.(ct := value))
      case SetMeta(value) => Run(stmts[1..], env, ctx.(mark := value))
      case TProxy(port) => if env.listening then Run(stmts[1..], env, ctx.(proxy := Some(port))) else (ctx, false)
  }

  /** One chain from some rule on; `depth` bounds nested jumps as the kernel does. */
  function Eval(prog: Program, rules: seq<Rule>, p: Packet, env: Env, ctx: Ctx, depth: nat): Result
    decreases depth, |rules|
  {
    if rules == [] then Fell(ctx)
    else if !Applies(rules[0], p, env, ctx) then Eval(prog, rules[1..], p, env, ctx, depth)
    else
      var (after, whole) := Run(rules[0].stmts, env, ctx);
      if !whole then Eval(prog, rules[1..], p, env, after, depth)
      else
        match rules[0].action
        case Accept => Done(Accepted, after)
        case Drop => Done(Dropped, after)
        case Queue(num) => Done(Queued(num), after)
        case Return => Fell(after)
        case Jump(chain) =>
          if depth == 0 || chain !in prog then Fault
          else
            match Eval(prog, prog[chain], p, env, after, depth - 1)
            case Done(verdict, final) => Done(verdict, final)
            case Fault => Fault
            case Fell(back) => Eval(prog, rules[1..], p, env, back, depth)
  }

  const MAX_JUMPS := 16

  /** The base chain, whose policy is to accept. */
  function Filter(prog: Program, p: Packet, env: Env, ctx: Ctx): Result
    requires Prerouting in prog
  {
    match Eval(prog, prog[Prerouting], p, env, ctx, MAX_JUMPS)
    case Fell(back) => Done(Accepted, back)
    case other => other
  }

  // ---- what the renderer emits ----

  datatype Assignment = Assignment(route: Config.Route, id: string)

  function Num(mark: string): nat {
    Kernel.MarkNumber(mark)
  }

  function DropMark(c: Config.Settings): nat {
    Num(c.dropMark)
  }

  function ClassMark(c: Config.Settings, r: Config.Route): string {
    ProofMark(c, r)
  }

  function SetBoth(ct: nat, mark: nat): seq<Stmt> {
    [SetCt(ct), SetMeta(mark)]
  }

  function GuardRule(c: Config.Settings, a: Assignment, b: Assignment, f: Family): Rule {
    Rule([InRouteSet(a.id, f), InRouteSet(b.id, f)], SetBoth(DropMark(c), DropMark(c)), Drop)
  }

  function GuardRow(c: Config.Settings, a: Assignment, others: seq<Assignment>): seq<Rule> {
    if others == [] then []
    else [GuardRule(c, a, others[0], Ipv4), GuardRule(c, a, others[0], Ipv6)] + GuardRow(c, a, others[1..])
  }

  function GuardRules(c: Config.Settings, assignments: seq<Assignment>): seq<Rule> {
    if assignments == [] then []
    else GuardRow(c, assignments[0], assignments[1..]) + GuardRules(c, assignments[1..])
  }

  function ClassifyRule(a: Assignment, f: Family): Rule {
    Rule([InRouteSet(a.id, f)], [], Jump(RouteChain(a.id)))
  }

  function ClassifyRules(assignments: seq<Assignment>): seq<Rule> {
    if assignments == [] then []
    else [ClassifyRule(assignments[0], Ipv4), ClassifyRule(assignments[0], Ipv6)] + ClassifyRules(assignments[1..])
  }

  /** `renderRouteAction`; None for its errors. */
  function ActionRules(c: Config.Settings, r: Config.Route, zapret: ZapretPlan, proxy: TransparentPlan): Option<seq<Rule>> {
    if Config.ParseMark(ClassMark(c, r)).None? then None
    else
      var own, drop := Num(ClassMark(c, r)), DropMark(c);
      match r.kind
      case Direct => Some([Rule([], SetBoth(own, own), Return)])
      case SmartDns => Some([Rule([], SetBoth(own, own), Return)])
      case Zapret =>
        if !zapret.enabled || zapret.queue < 1 then None
        else Some([Rule([Dport(Udp, {443})], SetBoth(drop, drop), Drop),
                   Rule([Dport(Tcp, {80, 443})], SetBoth(own, own), Queue(zapret.queue)),
                   Rule([], SetBoth(own, own), Return)])
      case TgWsProxy => None
      case Drop => Some([Rule([], SetBoth(own, own), Action.Drop)])
      case _ =>
        if !proxy.enabled || proxy.port < 1 || Config.ParseMark(proxy.tproxyMark).None? then None
        else
          var through := [SetCt(own), TProxy(proxy.port), SetMeta(Num(proxy.tproxyMark))];
          Some([Rule([TcpOrUdp(Ipv4)], through, Accept), Rule([TcpOrUdp(Ipv6)], through, Accept),
                Rule([], SetBoth(drop, drop), Action.Drop)])
  }

  function LanNames(lans: seq<string>): set<string> {
    set l | l in lans && ValidInterface(l)
  }

  function PreroutingRules(c: Config.Settings, lans: seq<string>): seq<Rule> {
    (if c.bypassMark != "" then [Rule([MetaMark(Num(c.bypassMark))], [], Return)] else [])
    + [if lans != [] then Rule([InIface(LanNames(lans))], [], Jump(LanIngress)) else Rule([], [], Return)]
  }

  const DOT_PORT := 853

  function LanIngressRules(): seq<Rule> {
    [Rule([ToRouter], [], Return),
     Rule([Dport(Udp, {DOT_PORT})], [], Drop),
     Rule([Dport(Tcp, {DOT_PORT})], [], Drop),
     Rule([Bogon(Ipv4)], [], Return),
     Rule([Bogon(Ipv6)], [], Return),
     Rule([], [], Jump(CollisionGuard)),
     Rule([], [], Jump(Classify))]
  }

  /** Chains of one name are one chain: the actions of every assignment with this id, in order. */
  function RouteChainRules(c: Config.Settings, assignments: seq<Assignment>, id: string, zapret: ZapretPlan,
                           proxy: TransparentPlan): seq<Rule> {
    if assignments == [] then []
    else
      var before, last := RouteChainRules(c, assignments[..|assignments| - 1], id, zapret, proxy), assignments[|assignments| - 1];
      if last.id == id && ActionRules(c, last.route, zapret, proxy).Some?
      then before + ActionRules(c, last.route, zapret, proxy).value else before
  }

  /** The renderer reports no error. */
  predicate Renderable(c: Config.Settings, assignments: seq<Assignment>, zapret: ZapretPlan, proxy: TransparentPlan) {
    Config.ParseMark(c.dropMark).Some?
    && forall a | a in assignments :: ActionRules(c, a.route, zapret, proxy).Some?
  }

  ghost predicate Rendered(prog: Program, c: Config.Settings, assignments: seq<Assignment>, lans: seq<string>,
                           zapret: ZapretPlan, proxy: TransparentPlan) {
    && Prerouting in prog && prog[Prerouting] == PreroutingRules(c, lans)
    && LanIngress in prog && prog[LanIngress] == LanIngressRules()
    && CollisionGuard in prog && prog[CollisionGuard] == GuardRules(c, assignments)
    && Classify in prog && prog[Classify] == ClassifyRules(assignments)
    && forall a | a in assignments ::
         RouteChain(a.id) in prog && prog[RouteChain(a.id)] == RouteChainRules(c, assignments, a.id, zapret, proxy)
  }

  method RenderGuard(c: Config.Settings, assignments: seq<Assignment>) returns (rules: seq<Rule>)
    ensures rules == GuardRules(c, assignments)
  {
    rules := [];
    var i := 0;
    assert assignments[0..] == assignments;
    while i < |assignments|
      invariant 0 <= i <= |assignments|
      invariant rules + GuardRules(c, assignments[i..]) == GuardRules(c, assignments)
    {
      ghost var before := rules;
      var left := assignments[i];
      assert assignments[i..][0] == left && assignments[i..][1..] == assignments[i + 1..];
      var j := i + 1;
      while j < |assignments|
        invariant i + 1 <= j <= |assignments|
        invariant rules + GuardRow(c, left, assignments[j..]) == before + GuardRow(c, left, assignments[i + 1..])
      {
        var right := assignments[j];
        assert assignments[j..][0] == right && assignments[j..][1..] == assignments[j + 1..];
        var pair := [GuardRule(c, left, right, Ipv4), GuardRule(c, left, right, Ipv6)];
        assert rules + (pair + GuardRow(c, left, assignments[j + 1..])) == rules + pair + GuardRow(c, left, assignments[j + 1..]);
        rules := rules + pair;
        j := j + 1;
      }
      assert rules == before + GuardRow(c, left, assignments[i + 1..]);
      assert before + (GuardRow(c, left, assignments[i + 1..]) + GuardRules(c, assignments[i + 1..]))
          == rules + GuardRules(c, assignments[i + 1..]);
      i := i + 1;
    }
  }

  method RenderClassify(assignments: seq<Assignment>) returns (rules: seq<Rule>)
    ensures rules == ClassifyRules(assignments)
  {
    rules := [];
    var i := 0;
    assert assignments[0..] == assignments;
    while i < |assignments|
      invariant 0 <= i <= |assignments|
      invariant rules + ClassifyRules(assignments[i..]) == ClassifyRules(assignments)
    {
      var a := assignments[i];
      assert assignments[i..][0] == a && assignments[i..][1..] == assignments[i + 1..];
      var pair := [ClassifyRule(a, Ipv4), ClassifyRule(a, Ipv6)];
      assert rules + (pair + ClassifyRules(assignments[i + 1..])) == rules + pair + ClassifyRules(assignments[i + 1..]);
      rules := rules + pair;
      i := i + 1;
    }
  }

  /** `renderNFT`, as far as the prerouting hook reaches. */
  method RenderNft(c: Config.Settings, assignments: seq<Assignment>, lans: seq<string>, zapret: ZapretPlan,
                   proxy: TransparentPlan) returns (prog: Option<Program>)
    ensures prog.Some? <==> Renderable(c, assignments, zapret, proxy)
    ensures prog.Some? ==> Rendered(prog.value, c, assignments, lans, zapret, proxy)
  {
    hide GuardRules, ClassifyRules, ActionRules;
    if Config.ParseMark(c.dropMark).None? {
      return None;
    }
    var guard := RenderGuard(c, assignments);
    var classify := RenderClassify(assignments);
    var chains: Program := map[Prerouting := PreroutingRules(c, lans), LanIngress := LanIngressRules(),
                               CollisionGuard := guard, Classify := classify];
    var i := 0;
    while i < |assignments|
      invariant 0 <= i <= |assignments|
      invariant forall a | a in assignments[..i] :: ActionRules(c, a.route, zapret, proxy).Some?
      invariant {Prerouting, LanIngress, CollisionGuard, Classify} <= chains.Keys
      invariant chains[Prerouting] == PreroutingRules(c, lans) && chains[LanIngress] == LanIngressRules()
      invariant chains[CollisionGuard] == GuardRules(c, assignments) && chains[Classify] == ClassifyRules(assignments)
      invariant forall id :: RouteChain(id) in chains <==> exists a | a in assignments[..i] :: a.id == id
      invariant forall id | RouteChain(id) in chains ::
        chains[RouteChain(id)] == RouteChainRules(c, assignments[..i], id, zapret, proxy)
    {
      var a := assignments[i];
      assert a in assignments && assignments[..i + 1][..i] == assignments[..i];
      assert assignments[..i + 1] == assignments[..i] + [a];
      var action := ActionRules(c, a.route, zapret, proxy);
      if action.None? {
        return None;
      }
      NoChainYet(c, assignments[..i], a.id, zapret, proxy);
      var chain := RouteChain(a.id);
      chains := chains[chain := (if chain in chains then chains[chain] else []) + action.value];
      i := i + 1;
    }
    assert assignments[..i] == assignments;
    prog := Some(chains);
  }

  lemma {:induction false} NoChainYet(c: Config.Settings, assignments: seq<Assignment>, id: string, zapret: ZapretPlan,
                                      proxy: TransparentPlan)
    ensures (forall a | a in assignments :: a.id != id) ==> RouteChainRules(c, assignments, id, zapret, proxy) == []
  {
    if assignments != [] {
      NoChainYet(c, assignments[..|assignments| - 1], id, zapret, proxy);
    }
  }
}
