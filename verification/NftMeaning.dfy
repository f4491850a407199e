/** What the emitted filter program does to every packet. */
module NftMeaning {
  import opened Prelude
  import opened ProofPlan
  import opened IPPlan
  import Config
  import opened Nft

  /** The destination is in the route set of this assignment. */
  predicate Hit(a: Assignment, p: Packet, env: Env) {
    env.sets(a.id, p.family, p.dst)
  }

  /** Two assignments claim the destination. */
  ghost predicate Collides(assignments: seq<Assignment>, p: Packet, env: Env) {
    exists i, j | 0 <= i < j < |assignments| :: Hit(assignments[i], p, env) && Hit(assignments[j], p, env)
  }

  ghost predicate NoneHit(assignments: seq<Assignment>, p: Packet, env: Env) {
    forall a | a in assignments :: !Hit(a, p, env)
  }

  ghost predicate OnlyHit(assignments: seq<Assignment>, k: nat, p: Packet, env: Env)
    requires k < |assignments|
  {
    forall i | 0 <= i < |assignments| :: Hit(assignments[i], p, env) <==> i == k
  }

  predicate FromLan(lans: seq<string>, p: Packet) {
    p.iif in LanNames(lans)
  }

  predicate Bypassed(c: Config.Settings, mark: nat) {
    c.bypassMark != "" && mark == Num(c.bypassMark)
  }

  predicate IsDot(p: Packet) {
    (p.transport.Udp? || p.transport.Tcp?) && p.dport == DOT_PORT
  }

  /** What a route does with a packet of its own. */
  function RouteOutcome(c: Config.Settings, r: Config.Route, zapret: ZapretPlan, proxy: TransparentPlan, p: Packet, env: Env,
                        ctx: Ctx): Result {
    var own, drop := Num(ClassMark(c, r)), DropMark(c);
    match r.kind
    case Drop => Done(Dropped, Ctx(own, own, ctx.proxy))
    case Zapret =>
      if p.transport.Udp? && p.dport == 443 then Done(Dropped, Ctx(drop, drop, ctx.proxy))
      else if p.transport.Tcp? && (p.dport == 80 || p.dport == 443) then Done(Queued(zapret.queue), Ctx(own, own, ctx.proxy))
      else Done(Accepted, Ctx(own, own, ctx.proxy))
    case Direct => Done(Accepted, Ctx(own, own, ctx.proxy))
    case SmartDns => Done(Accepted, Ctx(own, own, ctx.proxy))
    case _ =>
      if (p.transport.Tcp? || p.transport.Udp?) && env.listening
      then Done(Accepted, Ctx(Num(proxy.tproxyMark), own, Some(proxy.port)))
      else Done(Dropped, Ctx(drop, drop, ctx.proxy))
  }

  /** The rules for a packet, without any chain. */
  ghost function Policy(c: Config.Settings, assignments: seq<Assignment>, lans: seq<string>, zapret: ZapretPlan,
                        proxy: TransparentPlan, p: Packet, env: Env, ctx: Ctx): Result {
    if Bypassed(c, ctx.mark) || lans == [] || !FromLan(lans, p) || p.local then Done(Accepted, ctx)
    else if IsDot(p) then Done(Dropped, ctx)
    else if IsBogon(p) then Done(Accepted, ctx)
    else if Collides(assignments, p, env) then Done(Dropped, Ctx(DropMark(c), DropMark(c), ctx.proxy))
    else if NoneHit(assignments, p, env) then Done(Accepted, ctx)
    else
      var k :| 0 <= k < |assignments| && Hit(assignments[k], p, env);
      RouteOutcome(c, assignments[k].route, zapret, proxy, p, env, ctx)
  }

  // ---- the collision guard ----

  ghost predicate DropsOnSets(r: Rule, mark: nat) {
    && r.stmts == SetBoth(mark, mark) && r.action == Action.Drop
    && forall m | m in r.matches :: m.InRouteSet?
  }

  lemma RunBoth(ct: nat, mark: nat, env: Env, ctx: Ctx)
    ensures Run(SetBoth(ct, mark), env, ctx) == (ctx.(ct := ct, mark := mark), true)
  {
    var last := [SetMeta(mark)];
    assert last[1..] == [];
    assert Run(last, env, ctx.(ct := ct)) == (ctx.(ct := ct, mark := mark), true);
    assert SetBoth(ct, mark)[1..] == last;
  }

  lemma {:induction false} EvalDrops(prog: Program, rules: seq<Rule>, mark: nat, p: Packet, env: Env, ctx: Ctx, depth: nat)
    requires forall r | r in rules :: DropsOnSets(r, mark)
    ensures Eval(prog, rules, p, env, ctx, depth) ==
            if exists r | r in rules :: Applies(r, p, env, ctx) then Done(Dropped, Ctx(mark, mark, ctx.proxy)) else Fell(ctx)
  {
    hide Applies, Run;
    if rules != [] {
      assert rules == [rules[0]] + rules[1..];
      RunBoth(mark, mark, env, ctx);
      assert DropsOnSets(rules[0], mark);
      EvalDrops(prog, rules[1..], mark, p, env, ctx, depth);
    }
  }

  lemma {:induction false} GuardRowFacts(c: Config.Settings, a: Assignment, others: seq<Assignment>, p: Packet, env: Env, ctx: Ctx)
    ensures forall r | r in GuardRow(c, a, others) :: DropsOnSets(r, DropMark(c))
    ensures (exists r | r in GuardRow(c, a, others) :: Applies(r, p, env, ctx))
            <==> Hit(a, p, env) && exists b | b in others :: Hit(b, p, env)
  {
    if others != [] {
      var b, rest := others[0], others[1..];
      assert others == [b] + rest;
      GuardRowFacts(c, a, rest, p, env, ctx);
      GuardRuleApplies(c, a, b, p, env, ctx);
      var first, second := GuardRule(c, a, b, Ipv4), GuardRule(c, a, b, Ipv6);
      var row := GuardRow(c, a, others);
      assert row == [first, second] + GuardRow(c, a, rest);
      assert forall r :: r in row <==> r == first || r == second || r in GuardRow(c, a, rest);
    }
  }

  lemma GuardRuleApplies(c: Config.Settings, a: Assignment, b: Assignment, p: Packet, env: Env, ctx: Ctx)
    ensures forall f :: DropsOnSets(GuardRule(c, a, b, f), DropMark(c))
    ensures Applies(GuardRule(c, a, b, Ipv4), p, env, ctx) || Applies(GuardRule(c, a, b, Ipv6), p, env, ctx)
            <==> Hit(a, p, env) && Hit(b, p, env)
  {
    forall f: Family
      ensures Applies(GuardRule(c, a, b, f), p, env, ctx) <==> p.family == f && Hit(a, p, env) && Hit(b, p, env)
    {
      var rule := GuardRule(c, a, b, f);
      assert rule.matches[0] in rule.matches && rule.matches[1] in rule.matches;
    }
  }

  lemma {:induction false} GuardFacts(c: Config.Settings, assignments: seq<Assignment>, p: Packet, env: Env, ctx: Ctx)
    ensures forall r | r in GuardRules(c, assignments) :: DropsOnSets(r, DropMark(c))
    ensures (exists r | r in GuardRules(c, assignments) :: Applies(r, p, env, ctx)) <==> Collides(assignments, p, env)
  {
    hide Applies, DropsOnSets, GuardRow;
    if assignments != [] {
      var a, rest := assignments[0], assignments[1..];
      GuardFacts(c, rest, p, env, ctx);
      GuardRowFacts(c, a, rest, p, env, ctx);
      CollidesCons(a, rest, p, env);
      assert assignments == [a] + rest;
    }
  }

  lemma CollidesCons(a: Assignment, rest: seq<Assignment>, p: Packet, env: Env)
    ensures Collides([a] + rest, p, env)
            <==> Collides(rest, p, env) || (Hit(a, p, env) && exists b | b in rest :: Hit(b, p, env))
  {
    var all := [a] + rest;
    if Collides(all, p, env) {
      var i, j :| 0 <= i < j < |all| && Hit(all[i], p, env) && Hit(all[j], p, env);
      assert all[j] == rest[j - 1] && rest[j - 1] in rest;
      if i > 0 { assert Hit(rest[i - 1], p, env) && Hit(rest[j - 1], p, env); }
    }
    if Collides(rest, p, env) {
      var i, j :| 0 <= i < j < |rest| && Hit(rest[i], p, env) && Hit(rest[j], p, env);
      assert all[i + 1] == rest[i] && all[j + 1] == rest[j];
    }
    if b :| b in rest && Hit(b, p, env) && Hit(a, p, env) {
      var j :| 0 <= j < |rest| && rest[j] == b;
      assert all[0] == a && all[j + 1] == b;
    }
  }

  // ---- classification ----

  lemma ClassifyApplies(a: Assignment, p: Packet, env: Env, ctx: Ctx)
    ensures forall f :: Applies(ClassifyRule(a, f), p, env, ctx) <==> p.family == f && Hit(a, p, env)
  {
    forall f: Family
      ensures Applies(ClassifyRule(a, f), p, env, ctx) <==> p.family == f && Hit(a, p, env)
    {
      assert ClassifyRule(a, f).matches[0] in ClassifyRule(a, f).matches;
    }
  }

  /** The two rules of one assignment: at most one of them applies. */
  lemma EvalPair(prog: Program, a: Assignment, rest: seq<Rule>, p: Packet, env: Env, ctx: Ctx, depth: nat)
    requires depth > 0 && RouteChain(a.id) in prog
    ensures Eval(prog, [ClassifyRule(a, Ipv4), ClassifyRule(a, Ipv6)] + rest, p, env, ctx, depth) ==
            if !Hit(a, p, env) then Eval(prog, rest, p, env, ctx, depth)
            else
              match Eval(prog, prog[RouteChain(a.id)], p, env, ctx, depth - 1)
              case Fell(back) => Eval(prog, rest, p, env, back, depth)
              case other => other
  {
    hide Applies;
    var four, six := ClassifyRule(a, Ipv4), ClassifyRule(a, Ipv6);
    var all := [four, six] + rest;
    assert all[1..] == [six] + rest && ([six] + rest)[1..] == rest;
    ClassifyApplies(a, p, env, ctx);
    var inner := Eval(prog, prog[RouteChain(a.id)], p, env, ctx, depth - 1);
    if inner.Fell? {
      ClassifyApplies(a, p, env, inner.ctx);
    }
  }

  lemma {:induction false} EvalNoHit(prog: Program, assignments: seq<Assignment>, p: Packet, env: Env, ctx: Ctx, depth: nat)
    requires depth > 0 && (forall a | a in assignments :: RouteChain(a.id) in prog) && NoneHit(assignments, p, env)
    ensures Eval(prog, ClassifyRules(assignments), p, env, ctx, depth) == Fell(ctx)
  {
    hide Eval;
    if assignments == [] {
      EvalEmpty(prog, p, env, ctx, depth);
    } else {
      assert assignments == [assignments[0]] + assignments[1..];
      EvalPair(prog, assignments[0], ClassifyRules(assignments[1..]), p, env, ctx, depth);
      EvalNoHit(prog, assignments[1..], p, env, ctx, depth);
    }
  }

  lemma EvalEmpty(prog: Program, p: Packet, env: Env, ctx: Ctx, depth: nat)
    ensures Eval(prog, [], p, env, ctx, depth) == Fell(ctx)
  {
  }

  lemma {:induction false} EvalOneHit(prog: Program, assignments: seq<Assignment>, k: nat, p: Packet, env: Env, ctx: Ctx, depth: nat)
    requires depth > 0 && (forall a | a in assignments :: RouteChain(a.id) in prog)
    requires k < |assignments| && OnlyHit(assignments, k, p, env)
    ensures Eval(prog, ClassifyRules(assignments), p, env, ctx, depth)
            == Eval(prog, prog[RouteChain(assignments[k].id)], p, env, ctx, depth - 1)
  {
    hide Eval;
    var a, rest := assignments[0], assignments[1..];
    assert assignments == [a] + rest;
    EvalPair(prog, a, ClassifyRules(rest), p, env, ctx, depth);
    assert forall i | 0 <= i < |rest| :: rest[i] == assignments[i + 1];
    if k == 0 {
      var inner := Eval(prog, prog[RouteChain(a.id)], p, env, ctx, depth - 1);
      if inner.Fell? {
        EvalNoHit(prog, rest, p, env, inner.ctx, depth);
      }
    } else {
      EvalOneHit(prog, rest, k - 1, p, env, ctx, depth);
    }
  }

  /** The only assignment that claims a packet is also the only one with its id. */
  lemma {:induction false} OwnChain(c: Config.Settings, assignments: seq<Assignment>, k: nat, zapret: ZapretPlan,
                                    proxy: TransparentPlan)
    requires k < |assignments| && ActionRules(c, assignments[k].route, zapret, proxy).Some?
    requires forall i | 0 <= i < |assignments| && i != k :: assignments[i].id != assignments[k].id
    ensures RouteChainRules(c, assignments, assignments[k].id, zapret, proxy)
            == ActionRules(c, assignments[k].route, zapret, proxy).value
  {
    hide ActionRules;
    var before, last := assignments[..|assignments| - 1], |assignments| - 1;
    if k < last {
      OwnChain(c, before, k, zapret, proxy);
    } else {
      NoChainYet(c, before, assignments[k].id, zapret, proxy);
      assert [] + ActionRules(c, assignments[k].route, zapret, proxy).value == ActionRules(c, assignments[k].route, zapret, proxy).value;
    }
  }

  // ---- one route's actions ----

  lemma EvalCons(prog: Program, r: Rule, rest: seq<Rule>, p: Packet, env: Env, ctx: Ctx, depth: nat)
    requires !r.action.Jump?
    ensures Eval(prog, [r] + rest, p, env, ctx, depth) ==
            if !Applies(r, p, env, ctx) then Eval(prog, rest, p, env, ctx, depth)
            else
              var (after, whole) := Run(r.stmts, env, ctx);
              if !whole then Eval(prog, rest, p, env, after, depth)
              else match r.action
                   case Accept => Done(Accepted, after)
                   case Drop => Done(Dropped, after)
                   case Queue(num) => Done(Queued(num), after)
                   case _ => Fell(after)
  {
    hide Applies, Run;
    assert ([r] + rest)[1..] == rest;
  }

  lemma RunThrough(ct: nat, port: int, mark: nat, env: Env, ctx: Ctx)
    ensures Run([SetCt(ct), TProxy(port), SetMeta(mark)], env, ctx) ==
            if env.listening then (Ctx(mark, ct, Some(port)), true) else (ctx.(ct := ct), false)
  {
    var last, tail := [SetMeta(mark)], [TProxy(port), SetMeta(mark)];
    assert last[1..] == [] && tail[1..] == last && [SetCt(ct), TProxy(port), SetMeta(mark)][1..] == tail;
    var marked := ctx.(ct := ct);
    assert Run(last, env, marked.(proxy := Some(port))) == (Ctx(mark, ct, Some(port)), true);
    assert Run(tail, env, marked) == if env.listening then (Ctx(mark, ct, Some(port)), true) else (marked, false);
  }

  /** A last rule without conditions that sets both marks. */
  lemma EvalLast(prog: Program, mark: nat, action: Action, p: Packet, env: Env, ctx: Ctx, depth: nat)
    requires action.Drop? || action.Return?
    ensures Eval(prog, [Rule([], SetBoth(mark, mark), action)], p, env, ctx, depth) ==
            if action.Drop? then Done(Dropped, Ctx(mark, mark, ctx.proxy)) else Fell(Ctx(mark, mark, ctx.proxy))
  {
    hide Run;
    var r := Rule([], SetBoth(mark, mark), action);
    assert [r] + [] == [r];
    EvalCons(prog, r, [], p, env, ctx, depth);
    RunBoth(mark, mark, env, ctx);
  }

  lemma AppliesOne(r: Rule, m: Match, p: Packet, env: Env, ctx: Ctx)
    requires r.matches == [m]
    ensures Applies(r, p, env, ctx) <==> Holds(m, p, env, ctx)
  {
    assert r.matches[0] in r.matches;
  }

  /** A route that returns lets the packet through: nothing after it looks at the packet again. */
  function Settled(r: Result): Result {
    if r.Fell? then Done(Accepted, r.ctx) else r
  }

  lemma ActionEval(c: Config.Settings, r: Config.Route, zapret: ZapretPlan, proxy: TransparentPlan, prog: Program, p: Packet,
                   env: Env, ctx: Ctx, depth: nat)
    requires ActionRules(c, r, zapret, proxy).Some?
    ensures Settled(Eval(prog, ActionRules(c, r, zapret, proxy).value, p, env, ctx, depth))
            == RouteOutcome(c, r, zapret, proxy, p, env, ctx)
  {
    hide Eval, Run, Config.ParseMark;
    var rules, own, drop := ActionRules(c, r, zapret, proxy).value, Num(ClassMark(c, r)), DropMark(c);
    match r.kind {
      case Direct => EvalLast(prog, own, Return, p, env, ctx, depth);
      case SmartDns => EvalLast(prog, own, Return, p, env, ctx, depth);
      case Drop => EvalLast(prog, own, Action.Drop, p, env, ctx, depth);
      case TgWsProxy =>
      case Zapret =>
        assert rules == [rules[0]] + ([rules[1]] + [rules[2]]);
        EvalCons(prog, rules[0], [rules[1]] + [rules[2]], p, env, ctx, depth);
        EvalCons(prog, rules[1], [rules[2]], p, env, ctx, depth);
        RunBoth(drop, drop, env, ctx);
        RunBoth(own, own, env, ctx);
        EvalLast(prog, own, Return, p, env, ctx, depth);
        AppliesOne(rules[0], Dport(Udp, {443}), p, env, ctx);
        AppliesOne(rules[1], Dport(Tcp, {80, 443}), p, env, ctx);
      case _ =>
        assert rules == [rules[0]] + ([rules[1]] + [rules[2]]);
        EvalCons(prog, rules[0], [rules[1]] + [rules[2]], p, env, ctx, depth);
        RunThrough(own, proxy.port, Num(proxy.tproxyMark), env, ctx);
        AppliesOne(rules[0], TcpOrUdp(Ipv4), p, env, ctx);
        var later := if Applies(rules[0], p, env, ctx) && !env.listening then ctx.(ct := own) else ctx;
        AppliesOne(rules[1], TcpOrUdp(Ipv6), p, env, later);
        EvalCons(prog, rules[1], [rules[2]], p, env, later, depth);
        RunThrough(own, proxy.port, Num(proxy.tproxyMark), env, later);
        var last := if Applies(rules[1], p, env, later) && !env.listening then later.(ct := own) else later;
        EvalLast(prog, drop, Action.Drop, p, env, last, depth);
    }
  }

  // ---- the whole program ----

  lemma UniqueHit(assignments: seq<Assignment>, k: nat, p: Packet, env: Env)
    requires !Collides(assignments, p, env) && k < |assignments| && Hit(assignments[k], p, env)
    ensures OnlyHit(assignments, k, p, env)
    ensures forall i | 0 <= i < |assignments| && i != k :: assignments[i].id != assignments[k].id
  {
  }

  lemma EvalGuard(prog: Program, c: Config.Settings, assignments: seq<Assignment>, p: Packet, env: Env, ctx: Ctx, depth: nat)
    ensures Eval(prog, GuardRules(c, assignments), p, env, ctx, depth) ==
            if Collides(assignments, p, env) then Done(Dropped, Ctx(DropMark(c), DropMark(c), ctx.proxy)) else Fell(ctx)
  {
    hide Eval, Applies, GuardRules, DropsOnSets;
    GuardFacts(c, assignments, p, env, ctx);
    EvalDrops(prog, GuardRules(c, assignments), DropMark(c), p, env, ctx, depth);
  }

  /** Guard and classification together, for a packet that got past the ingress checks. */
  lemma EvalRouted(prog: Program, c: Config.Settings, assignments: seq<Assignment>, lans: seq<string>, zapret: ZapretPlan,
                   proxy: TransparentPlan, p: Packet, env: Env, ctx: Ctx, depth: nat)
    requires Renderable(c, assignments, zapret, proxy) && Rendered(prog, c, assignments, lans, zapret, proxy) && depth > 0
    requires !Collides(assignments, p, env)
    ensures NoneHit(assignments, p, env) ==> Eval(prog, prog[Classify], p, env, ctx, depth) == Fell(ctx)
    ensures forall k | 0 <= k < |assignments| && Hit(assignments[k], p, env) ::
              Settled(Eval(prog, prog[Classify], p, env, ctx, depth))
              == RouteOutcome(c, assignments[k].route, zapret, proxy, p, env, ctx)
  {
    hide Eval, RouteOutcome, ActionRules, Collides, NoneHit, Settled, GuardRules, ClassifyRules;
    if NoneHit(assignments, p, env) {
      EvalNoHit(prog, assignments, p, env, ctx, depth);
    }
    forall k | 0 <= k < |assignments| && Hit(assignments[k], p, env)
      ensures Settled(Eval(prog, prog[Classify], p, env, ctx, depth))
              == RouteOutcome(c, assignments[k].route, zapret, proxy, p, env, ctx)
    {
      assert assignments[k] in assignments;
      UniqueHit(assignments, k, p, env);
      EvalOneHit(prog, assignments, k, p, env, ctx, depth);
      OwnChain(c, assignments, k, zapret, proxy);
      ActionEval(c, assignments[k].route, zapret, proxy, prog, p, env, ctx, depth - 1);
    }
  }

  lemma EvalStep(prog: Program, r: Rule, m: Match, rest: seq<Rule>, p: Packet, env: Env, ctx: Ctx, depth: nat)
    requires r == Rule([m], [], Return) || r == Rule([m], [], Action.Drop)
    ensures Eval(prog, [r] + rest, p, env, ctx, depth) ==
            if !Holds(m, p, env, ctx) then Eval(prog, rest, p, env, ctx, depth)
            else if r.action.Drop? then Done(Dropped, ctx) else Fell(ctx)
  {
    EvalCons(prog, r, rest, p, env, ctx, depth);
    AppliesOne(r, m, p, env, ctx);
  }

  lemma EvalJump(prog: Program, chain: Chain, rest: seq<Rule>, p: Packet, env: Env, ctx: Ctx, depth: nat)
    requires depth > 0 && chain in prog
    ensures Eval(prog, [Rule([], [], Jump(chain))] + rest, p, env, ctx, depth) ==
            match Eval(prog, prog[chain], p, env, ctx, depth - 1)
            case Fell(back) => Eval(prog, rest, p, env, back, depth)
            case other => other
  {
    assert ([Rule([], [], Jump(chain))] + rest)[1..] == rest;
  }

  /** The ingress chain up to its two jumps. */
  lemma EvalIngress(prog: Program, p: Packet, env: Env, ctx: Ctx, depth: nat)
    ensures Eval(prog, LanIngressRules(), p, env, ctx, depth) ==
            if p.local then Fell(ctx)
            else if IsDot(p) then Done(Dropped, ctx)
            else if IsBogon(p) then Fell(ctx)
            else Eval(prog, [Rule([], [], Jump(CollisionGuard))] + [Rule([], [], Jump(Classify))], p, env, ctx, depth)
  {
    hide Eval, IsBogon;
    var all := LanIngressRules();
    var jumps := [Rule([], [], Jump(CollisionGuard))] + [Rule([], [], Jump(Classify))];
    assert all[5..] == jumps;
    assert all[4..] == [all[4]] + all[5..] && all[3..] == [all[3]] + all[4..] && all[2..] == [all[2]] + all[3..];
    assert all[1..] == [all[1]] + all[2..] && all == [all[0]] + all[1..];
    EvalStep(prog, all[0], ToRouter, all[1..], p, env, ctx, depth);
    EvalStep(prog, all[1], Dport(Udp, {DOT_PORT}), all[2..], p, env, ctx, depth);
    EvalStep(prog, all[2], Dport(Tcp, {DOT_PORT}), all[3..], p, env, ctx, depth);
    EvalStep(prog, all[3], Bogon(Ipv4), all[4..], p, env, ctx, depth);
    EvalStep(prog, all[4], Bogon(Ipv6), jumps, p, env, ctx, depth);
  }

  /** The two jumps: guard, then classification. */
  lemma EvalJumps(prog: Program, c: Config.Settings, assignments: seq<Assignment>, lans: seq<string>, zapret: ZapretPlan,
                  proxy: TransparentPlan, p: Packet, env: Env, ctx: Ctx, depth: nat)
    requires Rendered(prog, c, assignments, lans, zapret, proxy) && depth > 1
    ensures Eval(prog, [Rule([], [], Jump(CollisionGuard))] + [Rule([], [], Jump(Classify))], p, env, ctx, depth) ==
            if Collides(assignments, p, env) then Done(Dropped, Ctx(DropMark(c), DropMark(c), ctx.proxy))
            else Eval(prog, prog[Classify], p, env, ctx, depth - 1)
  {
    hide Eval, Collides, GuardRules;
    var last := Rule([], [], Jump(Classify));
    EvalJump(prog, CollisionGuard, [last], p, env, ctx, depth);
    EvalGuard(prog, c, assignments, p, env, ctx, depth - 1);
    assert [last] + [] == [last];
    EvalJump(prog, Classify, [], p, env, ctx, depth);
    forall back: Ctx
      ensures Eval(prog, [], p, env, back, depth) == Fell(back)
    {
      EvalEmpty(prog, p, env, back, depth);
    }
  }

  /** The base chain. */
  lemma EvalPrerouting(prog: Program, c: Config.Settings, lans: seq<string>, p: Packet, env: Env, ctx: Ctx)
    requires LanIngress in prog && Prerouting in prog && prog[Prerouting] == PreroutingRules(c, lans)
    ensures Filter(prog, p, env, ctx) ==
            if Bypassed(c, ctx.mark) || lans == [] || !FromLan(lans, p) then Done(Accepted, ctx)
            else Settled(Eval(prog, prog[LanIngress], p, env, ctx, MAX_JUMPS - 1))
  {
    hide Eval, Run;
    var last := if lans != [] then Rule([InIface(LanNames(lans))], [], Jump(LanIngress)) else Rule([], [], Return);
    var bypass := Rule([MetaMark(Num(c.bypassMark))], [], Return);
    assert [last] + [] == [last];
    EvalEntry(prog, lans, p, env, ctx, last);
    if c.bypassMark != "" {
      EvalStep(prog, bypass, MetaMark(Num(c.bypassMark)), [last], p, env, ctx, MAX_JUMPS);
    } else {
      assert [] + [last] == [last];
    }
  }

  lemma EvalEntry(prog: Program, lans: seq<string>, p: Packet, env: Env, ctx: Ctx, last: Rule)
    requires LanIngress in prog
    requires last == if lans != [] then Rule([InIface(LanNames(lans))], [], Jump(LanIngress)) else Rule([], [], Return)
    ensures Settled(Eval(prog, [last], p, env, ctx, MAX_JUMPS)) ==
            if lans == [] || !FromLan(lans, p) then Done(Accepted, ctx)
            else Settled(Eval(prog, prog[LanIngress], p, env, ctx, MAX_JUMPS - 1))
  {
    assert [last][1..] == [];
    if lans != [] {
      AppliesOne(last, InIface(LanNames(lans)), p, env, ctx);
    }
  }

  /**
   * The emitted program means the policy, for every packet: bypass mark, foreign interface, router's own
   * address, DNS over TLS and special-purpose addresses first; then two claims on a destination drop it,
   * one claim decides it, and none leaves it alone. The interpreter never runs out of jumps.
   */
  lemma ProgramMeansPolicy(prog: Program, c: Config.Settings, assignments: seq<Assignment>, lans: seq<string>,
                           zapret: ZapretPlan, proxy: TransparentPlan, p: Packet, env: Env, ctx: Ctx)
    requires Renderable(c, assignments, zapret, proxy) && Rendered(prog, c, assignments, lans, zapret, proxy)
    ensures Filter(prog, p, env, ctx) == Policy(c, assignments, lans, zapret, proxy, p, env, ctx)
  {
    hide Eval, RouteOutcome, ActionRules, Collides, GuardRules, ClassifyRules, Filter, Renderable, IsBogon;
    EvalPrerouting(prog, c, lans, p, env, ctx);
    EvalIngress(prog, p, env, ctx, MAX_JUMPS - 1);
    EvalJumps(prog, c, assignments, lans, zapret, proxy, p, env, ctx, MAX_JUMPS - 1);
    if !Collides(assignments, p, env) {
      EvalRouted(prog, c, assignments, lans, zapret, proxy, p, env, ctx, MAX_JUMPS - 2);
    }
  }
}
