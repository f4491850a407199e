/** Routes become proofs, and proofs become kernel rules; both must name the same rule priorities. */
module ProofPlan {
  import opened Prelude
  import opened Config
  import Sorting

  datatype RouteProof = RouteProof(
    tag: string, kind: RouteType, mark: string, table: int, priority: int, ipv4: bool, ipv6: bool)

  datatype Family = Ipv4 | Ipv6

  datatype IPRule = IPRule(family: Family, priority: int, mark: string, table: int, purpose: string)

  datatype Key = Key(mark: string, table: int)

  const FIRST_PRIORITY := 10010
  const TPROXY_PRIORITY := 10000

  /** The lookups of the compiler, which have no case for `tg_ws_proxy`. */
  function ProofMark(c: Settings, r: Route): string {
    if r.mark != "" then r.mark else if r.kind.TgWsProxy? then "" else MarkForType(c, r.kind)
  }

  function ProofTable(c: Settings, kind: RouteType): int {
    if kind.TgWsProxy? then 0 else TableForType(c, kind)
  }

  function RouteKey(c: Settings, r: Route): Key {
    Key(ProofMark(c, r), ProofTable(c, r.kind))
  }

  function KeyOf(p: RouteProof): Key {
    Key(p.mark, p.table)
  }

  predicate Configured(k: Key) {
    k.mark != "" && k.table > 0
  }

  // ---- proofs ----

  ghost predicate ProofOf(c: Settings, r: Route, p: RouteProof) {
    && p.tag == r.tag && p.kind == r.kind && KeyOf(p) == RouteKey(c, r)
    && (p.ipv4 <==> !r.kind.Drop?) && (p.ipv6 <==> c.ipv6 && !r.kind.Drop?)
  }

  /** Where a key first occurs; the number of routes if it does not. */
  ghost function FirstAt(c: Settings, routes: seq<Route>, k: Key): (n: nat)
    ensures n <= |routes| && (n < |routes| ==> RouteKey(c, routes[n]) == k)
    ensures forall j | 0 <= j < n :: RouteKey(c, routes[j]) != k
  {
    if routes == [] || RouteKey(c, routes[0]) == k then 0
    else
      var n := FirstAt(c, routes[1..], k);
      assert forall j | 1 <= j < n + 1 :: routes[j] == routes[1..][j - 1];
      n + 1
  }

  /** Routes that share a configured mark and table share the priority of the first of them. */
  ghost function Leader(c: Settings, routes: seq<Route>, i: nat): nat
    requires i < |routes|
  {
    if Configured(RouteKey(c, routes[i])) then FirstAt(c, routes, RouteKey(c, routes[i])) else i
  }

  ghost predicate PlanOf(c: Settings, routes: seq<Route>, proofs: seq<RouteProof>) {
    && |proofs| == |routes|
    && forall i | 0 <= i < |routes| ::
         ProofOf(c, routes[i], proofs[i]) && proofs[i].priority == FIRST_PRIORITY + 10 * Leader(c, routes, i)
  }

  method BuildProofPlan(c: Settings, routes: seq<Route>) returns (proofs: seq<RouteProof>)
    ensures PlanOf(c, routes, proofs)
  {
    hide RouteKey, FirstAt;
    var priorities: map<Key, int> := map[];
    proofs := [];
    var i := 0;
    while i < |routes|
      invariant 0 <= i <= |routes| && |proofs| == i
      invariant forall k :: k in priorities <==> Configured(k) && FirstAt(c, routes, k) < i
      invariant forall k | k in priorities :: priorities[k] == FIRST_PRIORITY + 10 * FirstAt(c, routes, k)
      invariant forall j | 0 <= j < i ::
        ProofOf(c, routes[j], proofs[j]) && proofs[j].priority == FIRST_PRIORITY + 10 * Leader(c, routes, j)
    {
      var r := routes[i];
      var key := RouteKey(c, r);
      assert FirstAt(c, routes, key) <= i;
      var priority := FIRST_PRIORITY + i * 10;
      if key in priorities && key.mark != "" && key.table > 0 {
        priority := priorities[key];
      } else if key.mark != "" && key.table > 0 {
        priorities := priorities[key := priority];
      }
      proofs := proofs + [RouteProof(r.tag, r.kind, key.mark, key.table, priority, !r.kind.Drop?, c.ipv6 && !r.kind.Drop?)];
      i := i + 1;
    }
  }

  /** Priorities name keys: two proofs share one exactly when they share a configured mark and table. */
  ghost predicate PrioritiesNameKeys(proofs: seq<RouteProof>) {
    && (forall p | p in proofs :: p.priority >= FIRST_PRIORITY)
    && (forall p, q | p in proofs && q in proofs && p.priority == q.priority :: KeyOf(p) == KeyOf(q))
    && (forall p, q | p in proofs && q in proofs && KeyOf(p) == KeyOf(q) && Configured(KeyOf(p)) ::
          p.priority == q.priority)
  }

  lemma PlanNamesKeys(c: Settings, routes: seq<Route>, proofs: seq<RouteProof>)
    requires PlanOf(c, routes, proofs)
    ensures PrioritiesNameKeys(proofs)
  {
    hide MarkForType, TableForType, ProofMark, ProofTable;
    forall i, j | 0 <= i < |proofs| && 0 <= j < |proofs|
      ensures proofs[i].priority >= FIRST_PRIORITY
      ensures proofs[i].priority == proofs[j].priority ==> KeyOf(proofs[i]) == KeyOf(proofs[j])
      ensures KeyOf(proofs[i]) == KeyOf(proofs[j]) && Configured(KeyOf(proofs[i])) ==>
                proofs[i].priority == proofs[j].priority
    {
      var a, b := Leader(c, routes, i), Leader(c, routes, j);
      assert a <= i && RouteKey(c, routes[a]) == RouteKey(c, routes[i]);
      assert b <= j && RouteKey(c, routes[b]) == RouteKey(c, routes[j]);
    }
  }

  ghost function Selected(all: seq<RouteProof>, used: set<string>): seq<RouteProof> {
    if all == [] then []
    else
      var p := all[|all| - 1];
      Selected(all[..|all| - 1], used) + if p.tag in used then [p] else []
  }

  /** `selectProofs`: the proofs of the routes that some policy uses, in their order. */
  method SelectProofs(all: seq<RouteProof>, used: set<string>) returns (selected: seq<RouteProof>)
    ensures selected == Selected(all, used)
  {
    selected := [];
    var i := 0;
    while i < |all|
      invariant 0 <= i <= |all|
      invariant selected == Selected(all[..i], used)
    {
      assert all[..i + 1][..i] == all[..i];
      if all[i].tag in used {
        selected := selected + [all[i]];
      }
      i := i + 1;
    }
    assert all[..i] == all;
  }

  lemma {:induction false} SelectedFacts(all: seq<RouteProof>, used: set<string>)
    ensures forall p :: p in Selected(all, used) <==> p in all && p.tag in used
  {
    if all != [] {
      assert all == all[..|all| - 1] + [all[|all| - 1]];
      SelectedFacts(all[..|all| - 1], used);
    }
  }

  /** Every selected proof still carries the priority of a rule that the full plan installs. */
  lemma SelectedIsInstalled(c: Settings, all: seq<RouteProof>, used: set<string>, p: RouteProof, f: Family)
    requires PrioritiesNameKeys(all) && p in Selected(all, used)
    requires !p.kind.Drop? && Configured(KeyOf(p)) && f in Families(c) && !TakenByTProxy(c, all, KeyOf(p))
    ensures PrioritiesNameKeys(Selected(all, used))
    ensures exists r | r in RulesOf(c, all) ::
              r.family == f && r.mark == p.mark && r.table == p.table && r.priority == p.priority
  {
    hide RulesOf, TakenByTProxy;
    SelectedFacts(all, used);
    ProofPriorityIsInstalled(c, all, p, f);
  }

  /** A rule for a proof's mark and table has the proof's priority or that of the TPROXY rule. */
  lemma RulePriority(c: Settings, proofs: seq<RouteProof>, p: RouteProof, r: IPRule)
    requires PrioritiesNameKeys(proofs) && p in proofs && r in RulesOf(c, proofs)
    requires r.mark == p.mark && r.table == p.table
    ensures r.priority == p.priority || r.priority == TPROXY_PRIORITY
  {
    hide Kept, RulesOf;
    RuleFacts(c, proofs, r);
    KeptIsAsked(AllWanted(c, proofs));
    ForProofsFacts(proofs);
    var w, f :| w in Kept(AllWanted(c, proofs)) && f in Families(c) && r == RuleFor(w, f);
    assert w in AllWanted(c, proofs) && Usable(w);
    if w in ForProofs(proofs) {
      var q :| q in proofs && !q.kind.Drop? && w == Wanted(KeyOf(q), q.priority, "route:" + q.tag);
    }
  }

  function Without(routes: seq<Route>, k: nat): seq<Route>
    requires k < |routes|
  {
    routes[..k] + routes[k + 1..]
  }

  /** Where the first route with a key is found once another route is gone that does not have the key. */
  lemma FirstWithout(c: Settings, routes: seq<Route>, k: nat, key: Key)
    requires k < |routes| && RouteKey(c, routes[k]) != key
    ensures var n := FirstAt(c, routes, key);
            FirstAt(c, Without(routes, k), key) == if n < k then n else n - 1
  {
    hide RouteKey, FirstAt;
    var n, less := FirstAt(c, routes, key), Without(routes, k);
    var m := FirstAt(c, less, key);
    assert forall i | 0 <= i < k :: less[i] == routes[i];
    assert forall i | k <= i < |less| :: less[i] == routes[i + 1];
    assert n != k;
    var expected := if n < k then n else n - 1;
    assert m < |less| ==> RouteKey(c, less[m]) == key;
    assert n < |routes| ==> RouteKey(c, less[expected]) == key;
  }

  /**
   * Why proofs are selected and not built again. Without a route whose key no other route shares, a plan
   * gives every route whose key comes first after it a priority ten lower, under which no rule with this
   * route's mark and table is installed; all other proofs stay as they were.
   */
  lemma RebuildingReindexes(c: Settings, routes: seq<Route>, all: seq<RouteProof>, k: nat, again: seq<RouteProof>)
    requires k < |routes| && PlanOf(c, routes, all) && PlanOf(c, Without(routes, k), again)
    requires forall i | 0 <= i < |routes| && i != k :: RouteKey(c, routes[i]) != RouteKey(c, routes[k])
    ensures forall i | 0 <= i < |again| ::
              var was := if i < k then i else i + 1;
              again[i] == if Leader(c, routes, was) < k then all[was] else all[was].(priority := all[was].priority - 10)
    ensures forall i, r | 0 <= i < |again| && Leader(c, routes, if i < k then i else i + 1) > k && r in RulesOf(c, all) ::
              !(r.mark == again[i].mark && r.table == again[i].table && r.priority == again[i].priority)
  {
    hide RouteKey, RulesOf, FirstAt, PrioritiesNameKeys;
    PlanNamesKeys(c, routes, all);
    forall i | 0 <= i < |again|
      ensures var was := if i < k then i else i + 1;
              again[i] == if Leader(c, routes, was) < k then all[was] else all[was].(priority := all[was].priority - 10)
    {
      ReindexedProof(c, routes, all, k, again, i);
    }
    forall i, r | 0 <= i < |again| && Leader(c, routes, if i < k then i else i + 1) > k && r in RulesOf(c, all)
      ensures !(r.mark == again[i].mark && r.table == again[i].table && r.priority == again[i].priority)
    {
      var was := if i < k then i else i + 1;
      assert again[i].priority >= FIRST_PRIORITY && all[was] in all;
      if r.mark == all[was].mark && r.table == all[was].table {
        RulePriority(c, all, all[was], r);
      }
    }
  }

  lemma ReindexedProof(c: Settings, routes: seq<Route>, all: seq<RouteProof>, k: nat, again: seq<RouteProof>, i: nat)
    requires k < |routes| && PlanOf(c, routes, all) && PlanOf(c, Without(routes, k), again) && i < |again|
    requires forall n | 0 <= n < |routes| && n != k :: RouteKey(c, routes[n]) != RouteKey(c, routes[k])
    ensures var was := if i < k then i else i + 1;
            again[i] == if Leader(c, routes, was) < k then all[was] else all[was].(priority := all[was].priority - 10)
  {
    hide RouteKey, FirstAt;
    var was, less := if i < k then i else i + 1, Without(routes, k);
    assert less[i] == routes[was];
    FirstWithout(c, routes, k, RouteKey(c, routes[was]));
    assert ProofOf(c, routes[was], again[i]) && ProofOf(c, routes[was], all[was]);
  }

  // ---- kernel rules ----

  datatype Wanted = Wanted(key: Key, priority: int, purpose: string)

  predicate Proxied(p: RouteProof) {
    p.kind.Vless? || p.kind.ExternalSocks?
  }

  predicate HasProxied(proofs: seq<RouteProof>) {
    exists p | p in proofs :: Proxied(p)
  }

  function TProxyKey(c: Settings): Key {
    Key(c.tproxyMark, c.xrayTable)
  }

  /** The TPROXY rule takes this key before any route can. */
  ghost predicate TakenByTProxy(c: Settings, proofs: seq<RouteProof>, k: Key) {
    HasProxied(proofs) && c.tproxyMark != "" && k == TProxyKey(c)
  }

  predicate Usable(w: Wanted) {
    Configured(w.key) && w.priority > 0
  }

  predicate Asked(wanted: seq<Wanted>, k: Key) {
    exists w | w in wanted :: w.key == k
  }

  /** Of the usable requests, the first one for every key. */
  ghost function Kept(wanted: seq<Wanted>): seq<Wanted> {
    if wanted == [] then []
    else
      var earlier, w := Kept(wanted[..|wanted| - 1]), wanted[|wanted| - 1];
      if Usable(w) && !Asked(earlier, w.key) then earlier + [w] else earlier
  }

  lemma KeptIsAsked(wanted: seq<Wanted>)
    ensures forall k | k in Kept(wanted) :: k in wanted && Usable(k)
    ensures forall i, j | 0 <= i < j < |Kept(wanted)| :: Kept(wanted)[i].key != Kept(wanted)[j].key
  {
    if wanted != [] {
      KeptIsAsked(wanted[..|wanted| - 1]);
    }
  }

  lemma {:induction false} AskedIsKept(wanted: seq<Wanted>, w: Wanted)
    requires w in wanted && Usable(w)
    ensures Asked(Kept(wanted), w.key)
  {
    var before, last := wanted[..|wanted| - 1], wanted[|wanted| - 1];
    assert wanted == before + [last];
    AskedSnoc(Kept(before), last);
    if w in before {
      AskedIsKept(before, w);
    }
  }

  lemma {:induction false} FirstIsKept(wanted: seq<Wanted>)
    requires wanted != [] && Usable(wanted[0])
    ensures wanted[0] in Kept(wanted)
  {
    var before := wanted[..|wanted| - 1];
    if before == [] {
      assert Kept(before) == [];
    } else {
      FirstIsKept(before);
    }
  }

  lemma KeptSnoc(wanted: seq<Wanted>, w: Wanted)
    ensures Kept(wanted + [w]) == if Usable(w) && !Asked(Kept(wanted), w.key) then Kept(wanted) + [w] else Kept(wanted)
  {
    assert (wanted + [w])[..|wanted|] == wanted;
  }

  ghost function ForProofs(proofs: seq<RouteProof>): seq<Wanted> {
    if proofs == [] then []
    else
      var p := proofs[|proofs| - 1];
      ForProofs(proofs[..|proofs| - 1]) + if p.kind.Drop? then [] else [Wanted(KeyOf(p), p.priority, "route:" + p.tag)]
  }

  ghost function ForTProxy(c: Settings, proofs: seq<RouteProof>): seq<Wanted> {
    if HasProxied(proofs) && c.tproxyMark != "" then [Wanted(TProxyKey(c), TPROXY_PRIORITY, "xray_tproxy")] else []
  }

  function Families(c: Settings): seq<Family> {
    if c.ipv6 then [Ipv4, Ipv6] else [Ipv4]
  }

  function RuleFor(w: Wanted, family: Family): IPRule {
    IPRule(family, w.priority, w.key.mark, w.key.table, w.purpose)
  }

  function ForFamilies(w: Wanted, families: seq<Family>): seq<IPRule> {
    if families == [] then [] else [RuleFor(w, families[0])] + ForFamilies(w, families[1..])
  }

  function Expand(kept: seq<Wanted>, families: seq<Family>): seq<IPRule> {
    if kept == [] then [] else Expand(kept[..|kept| - 1], families) + ForFamilies(kept[|kept| - 1], families)
  }

  /** The order of the rule list: priority, then family, then mark. */
  predicate RuleLess(a: IPRule, b: IPRule) {
    if a.priority != b.priority then a.priority < b.priority
    else if a.family != b.family then a.family.Ipv4?
    else StrLess(a.mark, b.mark)
  }

  lemma RuleLessStrict()
    ensures Sorting.Strict(RuleLess)
  {
    forall a: IPRule, b: IPRule ensures RuleLess(a, b) ==> !RuleLess(b, a) {
      StrLessTotal(a.mark, b.mark);
    }
    forall a: IPRule, b: IPRule, c: IPRule ensures RuleLess(a, b) && RuleLess(b, c) ==> RuleLess(a, c) {
      if StrLess(a.mark, b.mark) && StrLess(b.mark, c.mark) { StrLessTransitive(a.mark, b.mark, c.mark); }
    }
  }

  ghost function AllWanted(c: Settings, proofs: seq<RouteProof>): seq<Wanted> {
    ForTProxy(c, proofs) + ForProofs(proofs)
  }

  /** What `buildIPRules` builds. */
  ghost function RulesOf(c: Settings, proofs: seq<RouteProof>): seq<IPRule> {
    Sorting.Sort(RuleLess, Expand(Kept(AllWanted(c, proofs)), Families(c)))
  }

  lemma ExpandSnoc(kept: seq<Wanted>, w: Wanted, families: seq<Family>)
    ensures Expand(kept + [w], families) == Expand(kept, families) + ForFamilies(w, families)
  {
    assert (kept + [w])[..|kept|] == kept;
  }

  /** The closure `add` of `buildIPRules`. */
  method Add(c: Settings, w: Wanted, seen: set<Key>, rules: seq<IPRule>, ghost wanted: seq<Wanted>)
    returns (seen': set<Key>, rules': seq<IPRule>)
    requires rules == Expand(Kept(wanted), Families(c))
    requires forall k :: k in seen <==> Asked(Kept(wanted), k)
    ensures rules' == Expand(Kept(wanted + [w]), Families(c))
    ensures forall k :: k in seen' <==> Asked(Kept(wanted + [w]), k)
  {
    hide Kept, Expand, Asked;
    KeptSnoc(wanted, w);
    AskedSnoc(Kept(wanted), w);
    if w.key.mark == "" || w.key.table <= 0 || w.priority <= 0 || w.key in seen {
      return seen, rules;
    }
    seen' := seen + {w.key};
    ExpandSnoc(Kept(wanted), w, Families(c));
    TwoFamilies(c, w);
    rules' := rules + [RuleFor(w, Ipv4)];
    if c.ipv6 {
      rules' := rules' + [RuleFor(w, Ipv6)];
    }
    assert rules' == rules + ForFamilies(w, Families(c));
  }

  lemma AskedSnoc(kept: seq<Wanted>, w: Wanted)
    ensures forall k :: Asked(kept + [w], k) <==> Asked(kept, k) || k == w.key
  {
    var more := kept + [w];
    assert more[|kept|] == w;
    forall k
      ensures Asked(more, k) <==> Asked(kept, k) || k == w.key
    {
      if Asked(kept, k) {
        var v :| v in kept && v.key == k;
        assert v in more;
      }
    }
  }

  lemma TwoFamilies(c: Settings, w: Wanted)
    ensures ForFamilies(w, Families(c)) == [RuleFor(w, Ipv4)] + if c.ipv6 then [RuleFor(w, Ipv6)] else []
  {
    var last := [Ipv6];
    assert last[1..] == [];
    assert ForFamilies(w, last) == [RuleFor(w, Ipv6)];
    assert Families(c)[1..] == if c.ipv6 then last else [];
  }

  method BuildIPRules(c: Settings, proofs: seq<RouteProof>) returns (rules: seq<IPRule>)
    ensures rules == RulesOf(c, proofs)
  {
    hide Sorting.Sort, Asked, Kept, Expand, HasProxied;
    rules := [];
    var seen: set<Key> := {};
    ghost var wanted: seq<Wanted> := [];
    NothingKept(c);
    var transparent := HasProxied(proofs);
    if transparent && c.tproxyMark != "" {
      var w := Wanted(TProxyKey(c), TPROXY_PRIORITY, "xray_tproxy");
      seen, rules := Add(c, w, seen, rules, wanted);
      wanted := wanted + [w];
    }
    assert wanted == ForTProxy(c, proofs);
    var i := 0;
    while i < |proofs|
      invariant 0 <= i <= |proofs|
      invariant wanted == ForTProxy(c, proofs) + ForProofs(proofs[..i])
      invariant rules == Expand(Kept(wanted), Families(c))
      invariant forall k :: k in seen <==> Asked(Kept(wanted), k)
    {
      var p := proofs[i];
      assert proofs[..i + 1][..i] == proofs[..i];
      if !p.kind.Drop? {
        var w := Wanted(KeyOf(p), p.priority, "route:" + p.tag);
        seen, rules := Add(c, w, seen, rules, wanted);
        assert ForTProxy(c, proofs) + (ForProofs(proofs[..i]) + [w]) == wanted + [w];
        wanted := wanted + [w];
      }
      i := i + 1;
    }
    assert proofs[..i] == proofs;
    rules := Sorting.Sort(RuleLess, rules);
  }

  lemma NothingKept(c: Settings)
    ensures Kept([]) == [] && Expand([], Families(c)) == [] && forall k :: !Asked([], k)
  {
  }

  // ---- proofs and rules name the same priorities ----

  lemma {:induction false} ForProofsFacts(proofs: seq<RouteProof>)
    ensures forall w | w in ForProofs(proofs) ::
              exists p | p in proofs :: !p.kind.Drop? && w == Wanted(KeyOf(p), p.priority, "route:" + p.tag)
    ensures forall p | p in proofs && !p.kind.Drop? ::
              Wanted(KeyOf(p), p.priority, "route:" + p.tag) in ForProofs(proofs)
  {
    if proofs != [] {
      ForProofsFacts(proofs[..|proofs| - 1]);
      assert proofs == proofs[..|proofs| - 1] + [proofs[|proofs| - 1]];
    }
  }

  lemma {:induction false} ExpandFacts(kept: seq<Wanted>, c: Settings)
    ensures forall r :: r in Expand(kept, Families(c)) <==>
              exists w, f | w in kept && f in Families(c) :: r == RuleFor(w, f)
  {
    if kept != [] {
      var before, w := kept[..|kept| - 1], kept[|kept| - 1];
      ExpandFacts(before, c);
      TwoFamilies(c, w);
      assert kept == before + [w];
      forall r
        ensures r in Expand(kept, Families(c)) <==> exists v, f | v in kept && f in Families(c) :: r == RuleFor(v, f)
      {
        if r in ForFamilies(w, Families(c)) {
          assert r == RuleFor(w, r.family) && r.family in Families(c);
        }
      }
    }
  }

  /** One kernel rule a kept request and family, and nothing else. */
  lemma RuleFacts(c: Settings, proofs: seq<RouteProof>, r: IPRule)
    ensures r in RulesOf(c, proofs) <==>
              exists w, f | w in Kept(AllWanted(c, proofs)) && f in Families(c) :: r == RuleFor(w, f)
  {
    var expanded := Expand(Kept(AllWanted(c, proofs)), Families(c));
    ExpandFacts(Kept(AllWanted(c, proofs)), c);
    Sorting.SortMembers(RuleLess, expanded);
  }

  /** The priority under which a key is installed. */
  ghost function InstalledPriority(c: Settings, proofs: seq<RouteProof>, p: RouteProof): int {
    if TakenByTProxy(c, proofs, KeyOf(p)) then TPROXY_PRIORITY else p.priority
  }

  /**
   * Each usable proof has a rule for its mark and table in every family, and the rule's priority is the
   * proof's own exactly when the key is not the TPROXY rule's.
   */
  lemma ProofPriorityIsInstalled(c: Settings, proofs: seq<RouteProof>, p: RouteProof, f: Family)
    requires PrioritiesNameKeys(proofs) && p in proofs && !p.kind.Drop? && Configured(KeyOf(p)) && f in Families(c)
    ensures exists r | r in RulesOf(c, proofs) :: r.family == f && r.mark == p.mark && r.table == p.table
    ensures forall r | r in RulesOf(c, proofs) && r.family == f && r.mark == p.mark && r.table == p.table ::
              r.priority == p.priority <==> !TakenByTProxy(c, proofs, KeyOf(p))
    ensures forall r | r in RulesOf(c, proofs) && r.family == f && r.mark == p.mark && r.table == p.table ::
              TakenByTProxy(c, proofs, KeyOf(p)) ==> r.priority == TPROXY_PRIORITY
  {
    hide Sorting.Sort, Expand, Kept, PrioritiesNameKeys;
    var wanted := AllWanted(c, proofs);
    var mine := Wanted(KeyOf(p), p.priority, "route:" + p.tag);
    ForProofsFacts(proofs);
    KeptPriority(c, proofs, p);
    assert mine in wanted;
    AskedIsKept(wanted, mine);
    var k :| k in Kept(wanted) && k.key == KeyOf(p);
    RuleFacts(c, proofs, RuleFor(k, f));
    forall r | r in RulesOf(c, proofs) && r.family == f && r.mark == p.mark && r.table == p.table
      ensures r.priority == InstalledPriority(c, proofs, p)
    {
      RuleFacts(c, proofs, r);
    }
  }

  lemma KeptPriority(c: Settings, proofs: seq<RouteProof>, p: RouteProof)
    requires PrioritiesNameKeys(proofs) && p in proofs && !p.kind.Drop? && Configured(KeyOf(p))
    ensures p.priority >= FIRST_PRIORITY
    ensures forall k | k in Kept(AllWanted(c, proofs)) && k.key == KeyOf(p) ::
              k.priority == InstalledPriority(c, proofs, p)
  {
    hide Kept;
    var wanted := AllWanted(c, proofs);
    ForProofsFacts(proofs);
    KeptIsAsked(wanted);
    forall k | k in Kept(wanted) && k.key == KeyOf(p) ensures k.priority == InstalledPriority(c, proofs, p) {
      if TakenByTProxy(c, proofs, KeyOf(p)) {
        var first := ForTProxy(c, proofs)[0];
        assert wanted[0] == first && Usable(first);
        FirstIsKept(wanted);
        SameKept(Kept(wanted), k, first);
      } else {
        assert k !in ForTProxy(c, proofs);
        assert k in ForProofs(proofs);
      }
    }
  }

  lemma SameKept(kept: seq<Wanted>, a: Wanted, b: Wanted)
    requires forall i, j | 0 <= i < j < |kept| :: kept[i].key != kept[j].key
    requires a in kept && b in kept && a.key == b.key
    ensures a == b
  {
    var i :| 0 <= i < |kept| && kept[i] == a;
    var j :| 0 <= j < |kept| && kept[j] == b;
    assert !(i < j) && !(j < i);
  }

  // ---- at most one rule a family and priority ----

  predicate Slot(r: IPRule, family: Family, priority: int) {
    r.family == family && r.priority == priority
  }

  ghost predicate SlotsDistinct(rules: seq<IPRule>) {
    forall i, j | 0 <= i < j < |rules| :: !Slot(rules[j], rules[i].family, rules[i].priority)
  }

  function SlotOf(r: IPRule): (Family, int) {
    (r.family, r.priority)
  }

  lemma SlotsAreDistinct(rules: seq<IPRule>)
    ensures SlotsDistinct(rules) <==> Sorting.DistinctBy(SlotOf, rules)
  {
  }

  ghost predicate PrioritiesDiffer(kept: seq<Wanted>) {
    forall i, j | 0 <= i < j < |kept| :: kept[i].priority != kept[j].priority
  }

  lemma {:induction false} ExpandKeepsSlots(kept: seq<Wanted>, c: Settings)
    requires PrioritiesDiffer(kept)
    ensures SlotsDistinct(Expand(kept, Families(c)))
  {
    if kept != [] {
      var before, w := kept[..|kept| - 1], kept[|kept| - 1];
      ExpandKeepsSlots(before, c);
      ExpandFacts(before, c);
      TwoFamilies(c, w);
      var earlier := Expand(before, Families(c));
      forall i | 0 <= i < |earlier| ensures earlier[i].priority != w.priority {
        assert earlier[i] in earlier;
        var v, f :| v in before && f in Families(c) && earlier[i] == RuleFor(v, f);
        var n :| 0 <= n < |before| && before[n] == v;
        assert kept[n] == v && kept[|kept| - 1] == w;
      }
    }
  }

  /** The installed list is in priority order and has at most one rule for a family and a priority. */
  lemma InstalledPrioritiesUnique(c: Settings, proofs: seq<RouteProof>)
    requires PrioritiesNameKeys(proofs)
    ensures SlotsDistinct(RulesOf(c, proofs)) && Sorting.InOrder(RuleLess, RulesOf(c, proofs))
  {
    var wanted := AllWanted(c, proofs);
    var kept := Kept(wanted);
    ForProofsFacts(proofs);
    KeptIsAsked(wanted);
    assert PrioritiesDiffer(kept) by {
      hide Kept;
      forall i, j | 0 <= i < j < |kept| ensures kept[i].priority != kept[j].priority {
        assert kept[i] in kept && kept[j] in kept && kept[i] in wanted && kept[j] in wanted;
      }
    }
    ExpandKeepsSlots(kept, c);
    var expanded := Expand(kept, Families(c));
    SlotsAreDistinct(expanded);
    Sorting.SortKeepsDistinct(RuleLess, SlotOf, expanded);
    SlotsAreDistinct(RulesOf(c, proofs));
    RuleLessStrict();
    Sorting.SortOrders(RuleLess, expanded);
  }
}
