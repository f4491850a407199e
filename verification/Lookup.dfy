/** What the kernel does with a marked packet once a plan has been applied. */
module Lookup {
  import opened Prelude
  import Config
  import opened ProofPlan
  import opened IPPlan
  import opened PlanBuild
  import opened PlanAccepted
  import opened Kernel

  /** At most one rule at a priority. */
  ghost predicate One(db: RuleDb, priority: int) {
    forall i, j | 0 <= i < j < |db| && db[i].priority == priority :: db[j].priority != priority
  }

  lemma TailFacts(db: RuleDb)
    requires db != []
    ensures InOrder(db) ==> InOrder(db[1..])
    ensures forall p | One(db, p) :: One(db[1..], p)
    ensures forall p | One(db, p) && db[0].priority == p :: forall q | q in db[1..] :: q.priority != p
    ensures forall q :: q in db <==> q == db[0] || q in db[1..]
    ensures InOrder(db) ==> forall q | q in db :: db[0].priority <= q.priority
  {
    assert db == [db[0]] + db[1..];
    assert forall i | 0 <= i < |db[1..]| :: db[1..][i] == db[i + 1];
  }

  lemma {:induction false} DeletedFacts(db: RuleDb, priority: int)
    requires InOrder(db) && One(db, priority)
    ensures InOrder(Deleted(db, priority))
    ensures forall q :: q in Deleted(db, priority) <==> q in db && q.priority != priority
    ensures forall p | One(db, p) :: One(Deleted(db, priority), p)
  {
    if db != [] {
      TailFacts(db);
      if db[0].priority != priority {
        DeletedFacts(db[1..], priority);
        var rest := Deleted(db[1..], priority);
        forall p | One(db, p) ensures One([db[0]] + rest, p) {
          assert One(rest, p);
        }
      }
    }
  }

  lemma {:induction false} AddedFacts(db: RuleDb, r: Rule)
    requires InOrder(db)
    ensures InOrder(Added(db, r))
    ensures forall q :: q in Added(db, r) <==> q in db || q == r
    ensures forall p | One(db, p) && (p == r.priority ==> forall q | q in db :: q.priority != p) :: One(Added(db, r), p)
  {
    if db != [] && r.priority >= db[0].priority {
      TailFacts(db);
      AddedFacts(db[1..], r);
      var rest := Added(db[1..], r);
      forall p | One(db, p) && (p == r.priority ==> forall q | q in db :: q.priority != p)
        ensures One([db[0]] + rest, p)
      {
        assert One(rest, p);
        if db[0].priority == p {
          forall q | q in rest ensures q.priority != p {
            assert q in db[1..] || q == r;
          }
        }
      }
    }
  }

  ghost predicate PrioritiesDistinct(rules: seq<Rule>) {
    forall i, j | 0 <= i < j < |rules| :: rules[i].priority != rules[j].priority
  }

  ghost predicate Planned(rules: seq<Rule>, priority: int) {
    exists r | r in rules :: r.priority == priority
  }

  /** The kernel may be prepared for a plan: ordered, and unambiguous at the plan's priorities. */
  ghost predicate Prepared(db: RuleDb, rules: seq<Rule>) {
    InOrder(db) && PrioritiesDistinct(rules) && forall r | r in rules :: One(db, r.priority)
  }

  /** Every planned rule is there, and of the others only those at other priorities. */
  lemma {:induction false} InstalledAllFacts(db: RuleDb, rules: seq<Rule>)
    requires Prepared(db, rules)
    ensures InOrder(InstalledAll(db, rules))
    ensures forall q :: q in InstalledAll(db, rules) <==> q in rules || (q in db && !Planned(rules, q.priority))
    ensures forall p | One(db, p) :: One(InstalledAll(db, rules), p)
  {
    if rules != [] {
      var before, r := rules[..|rules| - 1], rules[|rules| - 1];
      assert rules == before + [r];
      assert Prepared(db, before);
      InstalledAllFacts(db, before);
      var middle := InstalledAll(db, before);
      assert r in rules;
      DeletedFacts(middle, r.priority);
      AddedFacts(Deleted(middle, r.priority), r);
      forall q
        ensures q in InstalledAll(db, rules) <==> q in rules || (q in db && !Planned(rules, q.priority))
      {
        if q in before {
          var i :| 0 <= i < |before| && before[i] == q;
          assert rules[i].priority != rules[|rules| - 1].priority;
        }
        assert Planned(rules, q.priority) <==> Planned(before, q.priority) || q.priority == r.priority;
      }
    }
  }

  // ---- other rules ----

  /** Rules at other priorities stay as they are, in the same order. */
  lemma {:induction false} OtherRulesUntouched(db: RuleDb, rules: seq<Rule>, priorities: set<int>)
    requires forall r | r in rules :: r.priority in priorities
    ensures Others(InstalledAll(db, rules), priorities) == Others(db, priorities)
  {
    if rules != [] {
      var before, r := rules[..|rules| - 1], rules[|rules| - 1];
      assert rules == before + [r] && r in rules;
      OtherRulesUntouched(db, before, priorities);
      var middle := InstalledAll(db, before);
      InstalledKeepsOthers(middle, r, priorities);
      InstalledKeepsOthers(Deleted(middle, r.priority), r, priorities);
    }
  }

  lemma {:induction false} OtherTablesUntouched(routes: map<TableKey, IPRoute>, more: seq<IPRoute>, key: TableKey)
    requires forall r | r in more :: (r.family, r.table) != key
    ensures key in WithRoutes(routes, more) <==> key in routes
    ensures key in routes ==> WithRoutes(routes, more)[key] == routes[key]
  {
    if more != [] {
      assert more == more[..|more| - 1] + [more[|more| - 1]];
      OtherTablesUntouched(routes, more[..|more| - 1], key);
    }
  }

  /** A planned route is what its table holds afterwards. */
  lemma {:induction false} PlannedTableHeld(routes: map<TableKey, IPRoute>, more: seq<IPRoute>, r: IPRoute)
    requires r in more && forall q | q in more && Serves(q, r.family, r.table) :: q == r
    ensures (r.family, r.table) in WithRoutes(routes, more) && WithRoutes(routes, more)[(r.family, r.table)] == r
  {
    var before, last := more[..|more| - 1], more[|more| - 1];
    assert more == before + [last];
    if last != r {
      assert last in more && !Serves(last, r.family, r.table);
      PlannedTableHeld(routes, before, r);
    }
  }

  // ---- applying twice ----

  lemma {:induction false} InstalledSame(db: RuleDb, r: Rule)
    requires InOrder(db) && r in db && One(db, r.priority)
    ensures Installed(db, r) == db
  {
    TailFacts(db);
    var rest := db[1..];
    assert db == [db[0]] + rest;
    if db[0].priority == r.priority {
      assert db[0] == r;
      if rest != [] {
        assert rest[0] in db && rest[0] in rest;
      }
    } else {
      InstalledSame(rest, r);
      assert db[0].priority < r.priority;
      assert ([db[0]] + Deleted(rest, r.priority))[1..] == Deleted(rest, r.priority);
    }
  }

  lemma {:induction false} InstalledAgain(db: RuleDb, rules: seq<Rule>)
    requires InOrder(db) && forall r | r in rules :: r in db && One(db, r.priority)
    ensures InstalledAll(db, rules) == db
  {
    if rules != [] {
      var before, r := rules[..|rules| - 1], rules[|rules| - 1];
      assert rules == before + [r] && r in rules;
      InstalledAgain(db, before);
      InstalledSame(db, r);
    }
  }

  lemma {:induction false} RoutesAgain(routes: map<TableKey, IPRoute>, more: seq<IPRoute>, n: nat)
    requires n <= |more| && RoutesOk(more)
    ensures WithRoutes(WithRoutes(routes, more), more[..n]) == WithRoutes(routes, more)
  {
    if n > 0 {
      assert more[..n][..n - 1] == more[..n - 1];
      RoutesAgain(routes, more, n - 1);
      var last := more[n - 1];
      forall q | q in more && Serves(q, last.family, last.table) ensures q == last {
        var i :| 0 <= i < |more| && more[i] == q;
        assert !(i < n - 1) && !(n - 1 < i);
      }
      PlannedTableHeld(routes, more, last);
    }
  }

  /** Applying a plan twice is applying it once. */
  lemma ApplyTwice(before: RuleDbs, routes: map<TableKey, IPRoute>, p: IPPlan)
    requires forall f: Family :: Prepared(before.At(f), OfFamily(PlannedRules(p), f))
    requires RoutesOk(p.routes)
    ensures WithRules(WithRules(before, PlannedRules(p)), PlannedRules(p)) == WithRules(before, PlannedRules(p))
    ensures WithRoutes(WithRoutes(routes, p.routes), p.routes) == WithRoutes(routes, p.routes)
  {
    hide PlannedRules, Prepared, RoutesOk, InstalledAll, OfFamily;
    forall f: Family
      ensures var rules := OfFamily(PlannedRules(p), f);
              InstalledAll(InstalledAll(before.At(f), rules), rules) == InstalledAll(before.At(f), rules)
    {
      InstalledTwice(before.At(f), OfFamily(PlannedRules(p), f));
    }
    assert before.At(Ipv4) == before.v4 && before.At(Ipv6) == before.v6;
    assert p.routes[..|p.routes|] == p.routes;
    RoutesAgain(routes, p.routes, |p.routes|);
  }

  lemma InstalledTwice(db: RuleDb, rules: seq<Rule>)
    requires Prepared(db, rules)
    ensures InstalledAll(InstalledAll(db, rules), rules) == InstalledAll(db, rules)
  {
    hide InstalledAll;
    InstalledAllFacts(db, rules);
    InstalledAgain(InstalledAll(db, rules), rules);
  }

  // ---- lookup ----

  predicate Matches(r: Rule, mark: nat, foreign: nat -> bool) {
    match r.selector
    case Mark(value) => value == mark
    case Foreign(id) => foreign(id)
  }

  /** The table in which the kernel looks a packet up. */
  function LookupTable(db: RuleDb, mark: nat, foreign: nat -> bool): Option<int> {
    if db == [] then None
    else if Matches(db[0], mark, foreign) then Some(db[0].table)
    else LookupTable(db[1..], mark, foreign)
  }

  lemma {:induction false} FirstMatch(db: RuleDb, mark: nat, foreign: nat -> bool, r: Rule)
    requires InOrder(db) && r in db && Matches(r, mark, foreign)
    requires forall q | q in db && Matches(q, mark, foreign) && q.priority <= r.priority :: q.table == r.table
    ensures LookupTable(db, mark, foreign) == Some(r.table)
  {
    TailFacts(db);
    if !Matches(db[0], mark, foreign) {
      FirstMatch(db[1..], mark, foreign, r);
    }
  }

  lemma {:induction false} OfFamilyFacts(rules: seq<IPRule>, f: Family)
    ensures forall k :: k in OfFamily(rules, f) <==> exists r | r in rules :: r.family == f && k == KernelRule(r)
  {
    hide KernelRule;
    if rules != [] {
      var before, last := rules[..|rules| - 1], rules[|rules| - 1];
      assert rules == before + [last];
      OfFamilyFacts(before, f);
      forall k
        ensures k in OfFamily(rules, f) <==> exists r | r in rules :: r.family == f && k == KernelRule(r)
      {
        if k in OfFamily(before, f) {
          var r :| r in before && r.family == f && k == KernelRule(r);
          assert r in rules;
        }
      }
    }
  }

  lemma {:induction false} OfFamilyDistinct(rules: seq<IPRule>, f: Family)
    requires SlotsDistinct(rules)
    ensures PrioritiesDistinct(OfFamily(rules, f))
  {
    if rules != [] {
      var before, last := rules[..|rules| - 1], rules[|rules| - 1];
      assert rules == before + [last];
      OfFamilyDistinct(before, f);
      OfFamilyFacts(before, f);
      var earlier := OfFamily(before, f);
      if last.family == f {
        forall i | 0 <= i < |earlier| ensures earlier[i].priority != last.priority {
          assert earlier[i] in earlier;
          var r :| r in before && r.family == f && earlier[i] == KernelRule(r);
          var n :| 0 <= n < |before| && before[n] == r;
          assert rules[n] == r && !Slot(rules[|rules| - 1], rules[n].family, rules[n].priority);
        }
      }
    }
  }

  /**
   * The TPROXY rule takes the packets of this proof: its mark is the TPROXY mark, compared as a number, and
   * its table is another one. `Validate` does not rule this out.
   */
  ghost predicate Diverted(c: Config.Settings, proofs: seq<RouteProof>, p: RouteProof) {
    HasProxied(proofs) && Config.SameMark(p.mark, c.tproxyMark) && p.table != c.xrayTable
  }

  /** Planned rules that match one route's mark all lead to that route's table, unless it is diverted. */
  lemma MarkNamesTable(c: Config.Settings, routes: seq<Config.Route>, proofs: seq<RouteProof>, p: RouteProof, r: IPRule)
    requires Config.Valid(c) && ListsEnabled(c, routes) && PlanOf(c, routes, proofs) && !Diverted(c, proofs, p)
    requires p in proofs && (Routed(p) || Proxied(p))
    requires r in RulesOf(c, proofs) && MarkNumber(r.mark) == MarkNumber(p.mark)
    ensures r.table == p.table
  {
    hide RulesOf, Config.RoutesOk, Config.TransparentOk, Config.DnsPortsOk, Config.ParseMark, Leader;
    hide Config.MarkForType, Config.TableForType;
    ValidProofsSound(c, routes, proofs);
    RuleOrigin(c, proofs, r);
    NonZeroMark(p.mark);
    NonZeroMark(r.mark);
    assert Config.SameMark(p.mark, r.mark);
    if q :| q in proofs && !q.kind.Drop? && r.mark == q.mark && r.table == q.table {
      RouteOfProof(c, routes, proofs, p);
      RouteOfProof(c, routes, proofs, q);
    }
  }

  // ---- the TPROXY rule ----

  const TPROXY_PURPOSE := "xray_tproxy"

  lemma TProxyRuleInstalled(c: Config.Settings, proofs: seq<RouteProof>, f: Family)
    requires HasProxied(proofs) && Configured(TProxyKey(c)) && f in Families(c)
    ensures RuleFor(Wanted(TProxyKey(c), TPROXY_PRIORITY, TPROXY_PURPOSE), f) in RulesOf(c, proofs)
  {
    hide Kept, RulesOf;
    var first := Wanted(TProxyKey(c), TPROXY_PRIORITY, TPROXY_PURPOSE);
    assert AllWanted(c, proofs)[0] == first;
    FirstIsKept(AllWanted(c, proofs));
    RuleFacts(c, proofs, RuleFor(first, f));
  }

  lemma TProxyConfigured(c: Config.Settings, routes: seq<Config.Route>, proofs: seq<RouteProof>, proof: RouteProof)
    requires Config.Valid(c) && ListsEnabled(c, routes) && PlanOf(c, routes, proofs) && proof in proofs && Proxied(proof)
    ensures Configured(TProxyKey(c)) && proof.table == c.xrayTable && Config.ParseMark(c.tproxyMark).Some?
  {
    hide PlanOf, ListsEnabled, PrioritiesNameKeys, Config.RoutesOk, Config.DnsPortsOk, Config.MarksOk, Config.ParseMark;
    ValidProofsSound(c, routes, proofs);
    HasTransparentFromProofs(c, routes, proofs);
    MarksOfTransparent(c);
    NoMarkForNothing();
  }

  /** No other rule comes before the TPROXY rule. */
  lemma TProxyComesFirst(c: Config.Settings, proofs: seq<RouteProof>, r: IPRule)
    requires PrioritiesNameKeys(proofs) && r in RulesOf(c, proofs) && r.priority <= TPROXY_PRIORITY
    ensures r.table == c.xrayTable
  {
    hide Kept, RulesOf;
    RuleFacts(c, proofs, r);
    KeptIsAsked(AllWanted(c, proofs));
    ForProofsFacts(proofs);
    var w, f :| w in Kept(AllWanted(c, proofs)) && f in Families(c) && r == RuleFor(w, f);
    assert w in AllWanted(c, proofs);
  }

  lemma NonZeroMark(mark: string)
    ensures Config.ParseMark(mark).Some? <==> MarkNumber(mark) != 0
  {
  }

  lemma RouteOfProof(c: Config.Settings, routes: seq<Config.Route>, proofs: seq<RouteProof>, p: RouteProof)
    requires ListsEnabled(c, routes) && PlanOf(c, routes, proofs) && p in proofs && !p.kind.TgWsProxy?
    ensures exists r | r in c.routes :: Config.Enabled(r) && Config.MarkFor(c, r) == p.mark
              && Config.TableForType(c, r.kind) == p.table
  {
    hide Leader, Config.TableForType, Config.MarkForType, Config.TagsDistinct;
    var i :| 0 <= i < |proofs| && proofs[i] == p;
    assert ProofOf(c, routes[i], proofs[i]) && routes[i] in routes;
  }

  // ---- the whole path from config to lookup ----

  /** Rules that the plan does not own do not catch the packet before the plan's rule for it. */
  ghost predicate NothingForeignAhead(db: RuleDb, rules: seq<Rule>, mark: nat, foreign: nat -> bool, priority: int) {
    forall q | q in db && Matches(q, mark, foreign) && !Planned(rules, q.priority) :: q.priority > priority
  }

  lemma PlannedIsPrepared(c: Config.Settings, proofs: seq<RouteProof>, f: Family, db: RuleDb)
    requires PrioritiesNameKeys(proofs) && InOrder(db)
    requires forall r | r in OfFamily(RulesOf(c, proofs), f) :: One(db, r.priority)
    ensures Prepared(db, OfFamily(RulesOf(c, proofs), f))
  {
    hide RulesOf, PrioritiesNameKeys, OfFamily;
    InstalledPrioritiesUnique(c, proofs);
    OfFamilyDistinct(RulesOf(c, proofs), f);
  }

  /** A planned rule decides for its mark when all planned rules for the mark up to it lead to its table. */
  lemma RuleDecides(c: Config.Settings, proofs: seq<RouteProof>, r: IPRule, db: RuleDb, foreign: nat -> bool, last: int)
    requires PrioritiesNameKeys(proofs) && r in RulesOf(c, proofs) && r.priority <= last
    requires InOrder(db) && forall q | q in OfFamily(RulesOf(c, proofs), r.family) :: One(db, q.priority)
    requires NothingForeignAhead(db, OfFamily(RulesOf(c, proofs), r.family), MarkNumber(r.mark), foreign, last)
    requires forall x | x in RulesOf(c, proofs) && MarkNumber(x.mark) == MarkNumber(r.mark) && x.priority <= r.priority ::
               x.table == r.table
    ensures LookupTable(InstalledAll(db, OfFamily(RulesOf(c, proofs), r.family)), MarkNumber(r.mark), foreign) == Some(r.table)
  {
    hide PrioritiesNameKeys, RulesOf, OfFamily, InstalledAll, One, LookupTable, MarkNumber, Prepared;
    var rules, mark, mine := OfFamily(RulesOf(c, proofs), r.family), MarkNumber(r.mark), KernelRule(r);
    PlannedIsPrepared(c, proofs, r.family, db);
    InstalledAllFacts(db, rules);
    OfFamilyFacts(RulesOf(c, proofs), r.family);
    assert mine in rules;
    var after := InstalledAll(db, rules);
    forall q | q in after && Matches(q, mark, foreign) && q.priority <= mine.priority ensures q.table == mine.table {
      if q in rules {
        var x :| x in RulesOf(c, proofs) && x.family == r.family && q == KernelRule(x);
      }
    }
    FirstMatch(after, mark, foreign, mine);
  }

  /** With a proxied route, the TPROXY mark leads to the proxy's table, whatever marks the routes have. */
  lemma TProxyPacketFindsTable(c: Config.Settings, routes: seq<Config.Route>, proofs: seq<RouteProof>, f: Family,
                               db: RuleDb, foreign: nat -> bool, last: int)
    requires Config.Valid(c) && ListsEnabled(c, routes) && PlanOf(c, routes, proofs) && HasProxied(proofs) && f in Families(c)
    requires InOrder(db) && (forall r | r in OfFamily(RulesOf(c, proofs), f) :: One(db, r.priority)) && TPROXY_PRIORITY <= last
    requires NothingForeignAhead(db, OfFamily(RulesOf(c, proofs), f), MarkNumber(c.tproxyMark), foreign, last)
    ensures LookupTable(InstalledAll(db, OfFamily(RulesOf(c, proofs), f)), MarkNumber(c.tproxyMark), foreign)
            == Some(c.xrayTable)
  {
    hide Config.Valid, PlanOf, ListsEnabled, PrioritiesNameKeys, RulesOf, OfFamily, InstalledAll, One, LookupTable, MarkNumber;
    hide NothingForeignAhead, InOrder;
    PlanNamesKeys(c, routes, proofs);
    var proof :| proof in proofs && Proxied(proof);
    TProxyConfigured(c, routes, proofs, proof);
    TProxyRuleInstalled(c, proofs, f);
    var r := RuleFor(Wanted(TProxyKey(c), TPROXY_PRIORITY, TPROXY_PURPOSE), f);
    forall x | x in RulesOf(c, proofs) && MarkNumber(x.mark) == MarkNumber(r.mark) && x.priority <= r.priority
      ensures x.table == r.table
    {
      TProxyComesFirst(c, proofs, x);
    }
    RuleDecides(c, proofs, r, db, foreign, last);
  }

  /**
   * A packet that carries the mark of an enabled route, compared as a number, is looked up in that
   * route's table once the plan's rules are installed, exactly unless the TPROXY rule takes it.
   */
  lemma MarkedPacketFindsTable(c: Config.Settings, routes: seq<Config.Route>, proofs: seq<RouteProof>, p: RouteProof,
                               f: Family, db: RuleDb, foreign: nat -> bool)
    requires Config.Valid(c) && ListsEnabled(c, routes) && PlanOf(c, routes, proofs)
    requires p in proofs && (Routed(p) || Proxied(p)) && f in Families(c)
    requires InOrder(db) && forall r | r in OfFamily(RulesOf(c, proofs), f) :: One(db, r.priority)
    requires NothingForeignAhead(db, OfFamily(RulesOf(c, proofs), f), MarkNumber(p.mark), foreign,
                                 InstalledPriority(c, proofs, p))
    ensures LookupTable(InstalledAll(db, OfFamily(RulesOf(c, proofs), f)), MarkNumber(p.mark), foreign) == Some(p.table)
            <==> !Diverted(c, proofs, p)
  {
    hide Config.Valid, PlanOf, ListsEnabled, SoundProofs, PrioritiesNameKeys, RulesOf, OfFamily, InstalledAll;
    hide One, LookupTable, MarkNumber, InOrder, NothingForeignAhead, Config.ParseMark;
    ValidProofsSound(c, routes, proofs);
    MarkOfSound(c, proofs, p);
    InstalledLate(c, proofs, p);
    if Diverted(c, proofs, p) {
      SameMarkSameNumber(p.mark, c.tproxyMark);
      TProxyPacketFindsTable(c, routes, proofs, f, db, foreign, InstalledPriority(c, proofs, p));
    } else {
      ProofPriorityIsInstalled(c, proofs, p, f);
      var r :| r in RulesOf(c, proofs) && r.family == f && r.mark == p.mark && r.table == p.table;
      forall x | x in RulesOf(c, proofs) && MarkNumber(x.mark) == MarkNumber(r.mark) && x.priority <= r.priority
        ensures x.table == r.table
      {
        MarkNamesTable(c, routes, proofs, p, x);
      }
      RuleDecides(c, proofs, r, db, foreign, InstalledPriority(c, proofs, p));
    }
  }

  lemma InstalledLate(c: Config.Settings, proofs: seq<RouteProof>, p: RouteProof)
    requires PrioritiesNameKeys(proofs) && p in proofs
    ensures InstalledPriority(c, proofs, p) >= TPROXY_PRIORITY
  {
  }

  lemma SameMarkSameNumber(a: string, b: string)
    requires Config.SameMark(a, b)
    ensures MarkNumber(a) == MarkNumber(b)
  {
  }

  lemma MarkOfSound(c: Config.Settings, proofs: seq<RouteProof>, p: RouteProof)
    requires SoundProofs(c, proofs) && p in proofs && (Routed(p) || Proxied(p))
    ensures Configured(KeyOf(p)) && PrioritiesNameKeys(proofs)
  {
  }

  /** What the table of a route holds: its own default route, and nobody else's. */
  lemma TableServesRoute(proofs: seq<RouteProof>, d: Diagnostics, p: RouteProof, f: Family, before: map<TableKey, IPRoute>)
    requires PlanRoutes(proofs, d).Planned? && !TablesClash(proofs)
    requires p in proofs && (Routed(p) || Proxied(p)) && (if f.Ipv4? then p.ipv4 else p.ipv6)
    ensures var after := WithRoutes(before, PlanRoutes(proofs, d).routes);
            (f, p.table) in after && WantedBy(after[(f, p.table)], p, d) && after[(f, p.table)].family == f
  {
    hide PlanRoutes, WantedRoutes, TablesClash, WithRoutes;
    PlanRoutesFacts(proofs, d);
    WantedCovers(p, d);
    var mine := if f.Ipv4? then
                  if Routed(p) then DefaultVia(Ipv4, p.table, d.gateway4, d.wan) else ToLoopback(Ipv4, p.table)
                else if Proxied(p) then ToLoopback(Ipv6, p.table)
                else if d.ipv6Available then DefaultVia(Ipv6, p.table, d.gateway6, d.wan) else NoIpv6(p.table);
    var planned := PlanRoutes(proofs, d).routes;
    assert WantedBy(mine, p, d);
    PlanHolds(proofs, d, p, mine);
    forall q | q in planned && Serves(q, mine.family, mine.table) ensures q == mine {
      SameSlotSameRoute(proofs, d, mine, q);
    }
    PlannedTableHeld(before, planned, mine);
  }

  /** A ready plan that its loader accepts wants no table with two contents. */
  lemma AcceptedNoClash(c: Config.Settings, routes: seq<Config.Route>, proofs: seq<RouteProof>, traffic: bool, d: Diagnostics,
                        dns: seq<DnsProxy>)
    requires Config.Valid(c) && ListsEnabled(c, routes) && PlanOf(c, routes, proofs)
    requires PlanFor(c, proofs, traffic, Loaded(d)).ready && Accepts(PlanFor(c, proofs, traffic, Loaded(d)).(dns := dns))
    ensures !TablesClash(proofs)
  {
    hide Config.Valid, PlanOf, ListsEnabled, PlanFor, Accepts, ReachesRoutes, DnsOk, SoundProofs, RulesOf;
    ValidProofsSound(c, routes, proofs);
    BuiltPlanAccepted(c, routes, proofs, traffic, Loaded(d), dns);
    if TablesClash(proofs) {
      var p :| p in proofs && Proxied(p);
      ReadyPlan(c, proofs, traffic, d, p);
      assert NeedsNetwork(proofs);
      PlannedSomething(c, proofs, d);
      CarriesRoutesWhen(c, proofs, traffic, Loaded(d));
    }
  }

  /**
   * End to end: after a ready plan of a valid config that the loader accepts has been applied, a packet
   * with an enabled route's mark is looked up in that route's table, exactly unless the TPROXY rule takes
   * it, and the table holds the default route that the plan made for it.
   */
  lemma PlanRoutesMarkedPackets(c: Config.Settings, routes: seq<Config.Route>, proofs: seq<RouteProof>, p: RouteProof,
                                f: Family, traffic: bool, d: Diagnostics, dns: seq<DnsProxy>, rules: RuleDbs,
                                tables: map<TableKey, IPRoute>, foreign: nat -> bool)
    requires Config.Valid(c) && ListsEnabled(c, routes) && PlanOf(c, routes, proofs)
    requires PlanFor(c, proofs, traffic, Loaded(d)).ready && Accepts(PlanFor(c, proofs, traffic, Loaded(d)).(dns := dns))
    requires p in proofs && !p.kind.Drop? && f in Families(c)
    requires InOrder(rules.At(f)) && forall r | r in OfFamily(RulesOf(c, proofs), f) :: One(rules.At(f), r.priority)
    requires NothingForeignAhead(rules.At(f), OfFamily(RulesOf(c, proofs), f), MarkNumber(p.mark), foreign,
                                 InstalledPriority(c, proofs, p))
    ensures var plan := PlanFor(c, proofs, traffic, Loaded(d));
            var after, found := WithRules(rules, PlannedRules(plan)), WithRoutes(tables, plan.routes);
            && (LookupTable(after.At(f), MarkNumber(p.mark), foreign) == Some(p.table) <==> !Diverted(c, proofs, p))
            && (f, p.table) in found && WantedBy(found[(f, p.table)], p, d)
  {
    hide Config.Valid, PlanOf, ListsEnabled, Diverted, SoundProofs, RulesOf, OfFamily, InstalledAll, PlanRoutes, Accepts;
    hide NothingForeignAhead, LookupTable, One, TablesClash, WithRoutes, PrioritiesNameKeys;
    AcceptedNoClash(c, routes, proofs, traffic, d, dns);
    ValidProofsSound(c, routes, proofs);
    ReadyPlan(c, proofs, traffic, d, p);
    PlanRoutesFacts(proofs, d);
    PlannedKinds(p, d);
    FamiliesOfProof(c, proofs, p, f);
    HasRules(c, proofs, p);
    MarkedPacketFindsTable(c, routes, proofs, p, f, rules.At(f), foreign);
    TableServesRoute(proofs, d, p, f, tables);
  }

  lemma ReadyPlan(c: Config.Settings, proofs: seq<RouteProof>, traffic: bool, d: Diagnostics, p: RouteProof)
    requires PlanFor(c, proofs, traffic, Loaded(d)).ready && p in proofs && !p.kind.Drop?
    ensures PlanRoutes(proofs, d).Planned?
    ensures PlanFor(c, proofs, traffic, Loaded(d)).routes == PlanRoutes(proofs, d).routes
    ensures PlanFor(c, proofs, traffic, Loaded(d)).ipRules == RulesOf(c, proofs)
  {
    hide PlanRoutes, RulesOf, LansInvalid;
    assert NeedsNetwork(proofs);
  }

  lemma FamiliesOfProof(c: Config.Settings, proofs: seq<RouteProof>, p: RouteProof, f: Family)
    requires SoundProofs(c, proofs) && p in proofs && !p.kind.Drop? && f in Families(c)
    ensures if f.Ipv4? then p.ipv4 else p.ipv6
  {
  }

  lemma HasRules(c: Config.Settings, proofs: seq<RouteProof>, p: RouteProof)
    requires SoundProofs(c, proofs) && p in proofs && (Routed(p) || Proxied(p))
    ensures RulesOf(c, proofs) != []
  {
    hide RulesOf, PrioritiesNameKeys;
    MarkOfSound(c, proofs, p);
    ProofPriorityIsInstalled(c, proofs, p, Ipv4);
  }
}
