/** Applying a plan to the kernel: rule databases, route tables and the commands that change them. */
module Kernel {
  import opened Prelude
  import Config
  import opened ProofPlan
  import opened IPPlan

  /** What a rule selects on: one firewall mark under a full mask, or something this project does not own. */
  datatype Selector = Mark(value: nat) | Foreign(id: nat)

  datatype Rule = Rule(priority: int, selector: Selector, table: int)

  type RuleDb = seq<Rule>

  // ---- one rule database ----

  ghost predicate InOrder(db: RuleDb) {
    forall i, j | 0 <= i < j < |db| :: db[i].priority <= db[j].priority
  }

  /** `ip rule del priority P`: the first rule there, if any. */
  function Deleted(db: RuleDb, priority: int): RuleDb {
    if db == [] then []
    else if db[0].priority == priority then db[1..]
    else [db[0]] + Deleted(db[1..], priority)
  }

  /** `ip rule add`: after the rules of the same and smaller priorities. */
  function Added(db: RuleDb, r: Rule): RuleDb {
    if db == [] then [r]
    else if r.priority < db[0].priority then [r] + db
    else [db[0]] + Added(db[1..], r)
  }

  function Installed(db: RuleDb, r: Rule): RuleDb {
    Added(Deleted(db, r.priority), r)
  }

  /** All rules of a list, one after the other. */
  function InstalledAll(db: RuleDb, rules: seq<Rule>): RuleDb {
    if rules == [] then db else Installed(InstalledAll(db, rules[..|rules| - 1]), rules[|rules| - 1])
  }

  function MarkNumber(mark: string): nat {
    match Config.ParseMark(mark) case None => 0 case Some(n) => n
  }

  /** The kernel rule of a planned rule; its mark is a number. */
  function KernelRule(r: IPRule): Rule {
    Rule(r.priority, Mark(MarkNumber(r.mark)), r.table)
  }

  function OfFamily(rules: seq<IPRule>, f: Family): seq<Rule> {
    if rules == [] then []
    else
      var last := rules[|rules| - 1];
      OfFamily(rules[..|rules| - 1], f) + if last.family == f then [KernelRule(last)] else []
  }

  /** The rules a plan asks for; a plan without a rule list falls back on its proofs. */
  function PlannedRules(p: IPPlan): seq<IPRule> {
    if p.ipRules != [] then p.ipRules else FromProofs(p.rules)
  }

  function ForProof(p: RouteProof): seq<IPRule> {
    if p.kind.Drop? || p.table == 0 || p.mark == "" then []
    else
      (if p.ipv4 then [IPRule(Ipv4, p.priority, p.mark, p.table, p.tag)] else [])
      + if p.ipv6 then [IPRule(Ipv6, p.priority, p.mark, p.table, p.tag)] else []
  }

  function FromProofs(proofs: seq<RouteProof>): seq<IPRule> {
    if proofs == [] then [] else FromProofs(proofs[..|proofs| - 1]) + ForProof(proofs[|proofs| - 1])
  }

  // ---- the kernel ----

  datatype RuleDbs = RuleDbs(v4: RuleDb, v6: RuleDb) {
    function At(f: Family): RuleDb {
      if f.Ipv4? then v4 else v6
    }

    function With(f: Family, db: RuleDb): RuleDbs {
      if f.Ipv4? then this.(v4 := db) else this.(v6 := db)
    }
  }

  type TableKey = (Family, int)

  function WithRoutes(routes: map<TableKey, IPRoute>, more: seq<IPRoute>): map<TableKey, IPRoute> {
    if more == [] then routes
    else
      var last := more[|more| - 1];
      WithRoutes(routes, more[..|more| - 1])[(last.family, last.table) := last]
  }

  class Kernel {
    var rules: RuleDbs
    var routes: map<TableKey, IPRoute>
    var softwareOffload: bool
    var hardwareOffload: bool
    /** How often a command has been refused. */
    ghost var refusals: nat

    constructor (rules: RuleDbs, routes: map<TableKey, IPRoute>)
      ensures this.rules == rules && this.routes == routes
    {
      this.rules := rules;
      this.routes := routes;
      softwareOffload, hardwareOffload := true, true;
      refusals := 0;
    }

    /** Its error is ignored by the caller: it means that there was nothing to delete. */
    method DeleteRule(f: Family, priority: int)
      modifies this`rules
      ensures rules == old(rules).With(f, Deleted(old(rules).At(f), priority))
    {
      rules := rules.With(f, Deleted(rules.At(f), priority));
    }

    /** Refused for a rule that is already there, and for reasons of the kernel's own. */
    method AddRule(f: Family, r: Rule) returns (ok: bool)
      modifies this`rules, this`refusals
      ensures refusals == old(refusals) + if ok then 0 else 1
      ensures rules == if ok then old(rules).With(f, Added(old(rules).At(f), r)) else old(rules)
      ensures r in old(rules).At(f) ==> !ok
    {
      ok := *;
      if r in rules.At(f) {
        ok := false;
      }
      refusals := refusals + if ok then 0 else 1;
      if ok {
        rules := rules.With(f, Added(rules.At(f), r));
      }
    }

    /** `ip route replace` of a table's default destination. */
    method ReplaceRoute(r: IPRoute) returns (ok: bool)
      modifies this`routes, this`refusals
      ensures refusals == old(refusals) + if ok then 0 else 1
      ensures routes == if ok then old(routes)[(r.family, r.table) := r] else old(routes)
    {
      ok := *;
      refusals := refusals + if ok then 0 else 1;
      if ok {
        routes := routes[(r.family, r.table) := r];
      }
    }

    /** The three `uci` commands that switch flow offloading off; nothing counts before the last one. */
    method DisableOffload() returns (ok: bool)
      modifies this`softwareOffload, this`hardwareOffload, this`refusals
      ensures refusals == old(refusals) + if ok then 0 else 1
      ensures softwareOffload == (if ok then false else old(softwareOffload))
      ensures hardwareOffload == (if ok then false else old(hardwareOffload))
    {
      ok := *;
      refusals := refusals + if ok then 0 else 1;
      if ok {
        softwareOffload, hardwareOffload := false, false;
      }
    }
  }

  // ---- what a command leaves alone ----

  function Others(db: RuleDb, priorities: set<int>): RuleDb {
    if db == [] then []
    else (if db[0].priority in priorities then [] else [db[0]]) + Others(db[1..], priorities)
  }

  lemma {:induction false} InstalledKeepsOthers(db: RuleDb, r: Rule, priorities: set<int>)
    requires r.priority in priorities
    ensures Others(Deleted(db, r.priority), priorities) == Others(db, priorities)
    ensures Others(Added(db, r), priorities) == Others(db, priorities)
  {
    if db == [] {
      assert [r][1..] == [];
    } else {
      InstalledKeepsOthers(db[1..], r, priorities);
      if r.priority < db[0].priority {
        assert ([r] + db)[1..] == db;
      }
    }
  }

  function Priorities(rules: seq<IPRule>): set<int> {
    set r | r in rules :: r.priority
  }

  /** Rules at other priorities are the same, in the same order. */
  ghost predicate OthersKept(before: RuleDbs, after: RuleDbs, priorities: set<int>) {
    Others(after.v4, priorities) == Others(before.v4, priorities) && Others(after.v6, priorities) == Others(before.v6, priorities)
  }

  /** Tables that the routes do not name are the same. */
  ghost predicate OtherTablesKept(before: map<TableKey, IPRoute>, after: map<TableKey, IPRoute>, routes: seq<IPRoute>) {
    forall key: TableKey | !exists r | r in routes :: (r.family, r.table) == key ::
      (key in after <==> key in before) && (key in before ==> after[key] == before[key])
  }

  // ---- the plan is applied ----

  lemma OfFamilySnoc(rules: seq<IPRule>, r: IPRule, f: Family)
    ensures OfFamily(rules + [r], f) == if r.family == f then OfFamily(rules, f) + [KernelRule(r)] else OfFamily(rules, f)
  {
    assert (rules + [r])[..|rules|] == rules;
  }

  lemma InstalledSnoc(db: RuleDb, rules: seq<Rule>, r: Rule)
    ensures InstalledAll(db, rules + [r]) == Installed(InstalledAll(db, rules), r)
  {
    assert (rules + [r])[..|rules|] == rules;
  }

  /** The databases after the rules of a list have been installed, each in its family. */
  function WithRules(before: RuleDbs, rules: seq<IPRule>): RuleDbs {
    RuleDbs(InstalledAll(before.v4, OfFamily(rules, Ipv4)), InstalledAll(before.v6, OfFamily(rules, Ipv6)))
  }

  /** One rule: delete by priority, then add. */
  method InstallRule(k: Kernel, r: IPRule, ghost before: RuleDbs, ghost done: seq<IPRule>, ghost priorities: set<int>)
    returns (ok: bool)
    requires k.rules == WithRules(before, done)
    requires r.priority in priorities && OthersKept(before, k.rules, priorities)
    modifies k`rules, k`refusals
    ensures ok ==> k.rules == WithRules(before, done + [r])
    ensures k.refusals >= old(k.refusals) && (ok <==> k.refusals == old(k.refusals))
    ensures OthersKept(before, k.rules, priorities)
  {
    hide InstalledAll, OfFamily, Deleted, Added;
    OfFamilySnoc(done, r, Ipv4);
    OfFamilySnoc(done, r, Ipv6);
    InstalledSnoc(before.At(r.family), OfFamily(done, r.family), KernelRule(r));
    InstalledKeepsOthers(k.rules.At(r.family), KernelRule(r), priorities);
    InstalledKeepsOthers(Deleted(k.rules.At(r.family), r.priority), KernelRule(r), priorities);
    k.DeleteRule(r.family, r.priority);
    ok := k.AddRule(r.family, KernelRule(r));
  }

  /** Every rule has a mark, a table and a priority. */
  ghost predicate Usable(rules: seq<IPRule>) {
    forall r | r in rules :: r.mark != "" && r.table > 0 && r.priority > 0
  }

  method InstallRules(k: Kernel, rules: seq<IPRule>) returns (ok: bool)
    modifies k`rules, k`refusals
    ensures ok ==> k.rules == WithRules(old(k.rules), rules)
    ensures k.refusals >= old(k.refusals) && (ok ==> k.refusals == old(k.refusals))
    ensures k.refusals == old(k.refusals) ==> (ok <==> Usable(rules))
    ensures OthersKept(old(k.rules), k.rules, Priorities(rules))
  {
    hide WithRules, KernelRule;
    NothingInstalled(k.rules);
    var i := 0;
    while i < |rules|
      invariant 0 <= i <= |rules| && k.rules == WithRules(old(k.rules), rules[..i])
      invariant k.refusals == old(k.refusals) && Usable(rules[..i])
      invariant OthersKept(old(k.rules), k.rules, Priorities(rules))
    {
      var r := rules[i];
      assert rules[..i + 1] == rules[..i] + [r];
      if r.mark == "" || r.table <= 0 || r.priority <= 0 {
        return false;
      }
      ok := InstallRule(k, r, old(k.rules), rules[..i], Priorities(rules));
      if !ok {
        return;
      }
      i := i + 1;
    }
    assert rules[..i] == rules;
    ok := true;
  }

  lemma NothingInstalled(before: RuleDbs)
    ensures WithRules(before, []) == before
  {
  }

  /** The rules of one proof, in the families it needs. */
  method InstallProof(k: Kernel, p: RouteProof, ghost before: RuleDbs, ghost done: seq<IPRule>, ghost priorities: set<int>)
    returns (ok: bool)
    requires k.rules == WithRules(before, done) && OthersKept(before, k.rules, priorities)
    requires ForProof(p) != [] ==> p.priority in priorities
    modifies k`rules, k`refusals
    ensures ok ==> k.rules == WithRules(before, done + ForProof(p))
    ensures k.refusals >= old(k.refusals) && (ok <==> k.refusals == old(k.refusals))
    ensures OthersKept(before, k.rules, priorities)
  {
    hide WithRules, KernelRule, OthersKept;
    ghost var now := done;
    ok := true;
    if !p.kind.Drop? && p.table != 0 && p.mark != "" {
      if p.ipv4 {
        var r := IPRule(Ipv4, p.priority, p.mark, p.table, p.tag);
        ok := InstallRule(k, r, before, now, priorities);
        now := now + [r];
      }
      if ok && p.ipv6 {
        var r := IPRule(Ipv6, p.priority, p.mark, p.table, p.tag);
        ok := InstallRule(k, r, before, now, priorities);
        now := now + [r];
      }
    }
    assert ok ==> now == done + ForProof(p);
  }

  /** The fallback on the proofs of a plan without a rule list. */
  method InstallProofs(k: Kernel, proofs: seq<RouteProof>) returns (ok: bool)
    modifies k`rules, k`refusals
    ensures ok ==> k.rules == WithRules(old(k.rules), FromProofs(proofs))
    ensures k.refusals >= old(k.refusals) && (ok <==> k.refusals == old(k.refusals))
    ensures OthersKept(old(k.rules), k.rules, Priorities(FromProofs(proofs)))
  {
    hide WithRules, KernelRule, OthersKept, ForProof;
    ghost var priorities := Priorities(FromProofs(proofs));
    NothingInstalled(k.rules);
    NothingTouched(k.rules, priorities);
    var i := 0;
    while i < |proofs|
      invariant 0 <= i <= |proofs| && k.rules == WithRules(old(k.rules), FromProofs(proofs[..i]))
      invariant k.refusals == old(k.refusals)
      invariant OthersKept(old(k.rules), k.rules, priorities)
    {
      assert proofs[..i + 1][..i] == proofs[..i];
      if ForProof(proofs[i]) != [] { PriorityAsked(proofs, i); }
      ok := InstallProof(k, proofs[i], old(k.rules), FromProofs(proofs[..i]), priorities);
      if !ok {
        return;
      }
      i := i + 1;
    }
    assert proofs[..i] == proofs;
    ok := true;
  }

  lemma NothingTouched(rules: RuleDbs, priorities: set<int>)
    ensures OthersKept(rules, rules, priorities)
  {
  }

  lemma {:induction false} PriorityAsked(proofs: seq<RouteProof>, i: nat)
    requires i < |proofs| && ForProof(proofs[i]) != []
    ensures proofs[i].priority in Priorities(FromProofs(proofs))
    decreases |proofs|
  {
    var before, last := proofs[..|proofs| - 1], proofs[|proofs| - 1];
    if i < |before| {
      PriorityAsked(before, i);
      var r :| r in FromProofs(before) && r.priority == proofs[i].priority;
      assert r in FromProofs(proofs);
    } else {
      assert ForProof(last)[0] in FromProofs(proofs);
    }
  }

  lemma TablesKeptAtFirst(tables: map<TableKey, IPRoute>, routes: seq<IPRoute>)
    ensures OtherTablesKept(tables, tables, routes)
  {
  }

  lemma TablesKeptByReplace(before: map<TableKey, IPRoute>, now: map<TableKey, IPRoute>, routes: seq<IPRoute>, i: nat)
    requires i < |routes| && OtherTablesKept(before, now, routes)
    ensures OtherTablesKept(before, now[(routes[i].family, routes[i].table) := routes[i]], routes)
  {
    assert routes[i] in routes;
  }

  /** `ApplyIPPlanWithUCI`. */
  method ApplyIPPlan(k: Kernel, p: IPPlan) returns (ok: bool)
    modifies k
    ensures !p.ready ==> !ok && k.rules == old(k.rules) && k.routes == old(k.routes)
    ensures ok ==> k.routes == WithRoutes(old(k.routes), p.routes) && k.rules == WithRules(old(k.rules), PlannedRules(p))
    ensures ok && p.flow.action.DisableOffload? ==> !k.softwareOffload && !k.hardwareOffload
    ensures !p.flow.action.DisableOffload? ==>
              k.softwareOffload == old(k.softwareOffload) && k.hardwareOffload == old(k.hardwareOffload)
    ensures ok ==> k.refusals == old(k.refusals)
    ensures k.refusals == old(k.refusals) ==> (ok <==> p.ready && Usable(p.ipRules))
    ensures OthersKept(old(k.rules), k.rules, Priorities(PlannedRules(p)))
    ensures OtherTablesKept(old(k.routes), k.routes, p.routes)
  {
    hide WithRules, FromProofs, OtherTablesKept;
    TablesKeptAtFirst(k.routes, p.routes);
    if !p.ready {
      return false;
    }
    if p.flow.action.DisableOffload? {
      ok := k.DisableOffload();
      if !ok {
        return;
      }
    }
    var i := 0;
    while i < |p.routes|
      invariant 0 <= i <= |p.routes| && k.rules == old(k.rules)
      invariant k.routes == WithRoutes(old(k.routes), p.routes[..i])
      invariant OtherTablesKept(old(k.routes), k.routes, p.routes)
      invariant k.refusals == old(k.refusals)
      invariant if p.flow.action.DisableOffload? then !k.softwareOffload && !k.hardwareOffload
                else k.softwareOffload == old(k.softwareOffload) && k.hardwareOffload == old(k.hardwareOffload)
    {
      assert p.routes[..i + 1][..i] == p.routes[..i];
      TablesKeptByReplace(old(k.routes), k.routes, p.routes, i);
      ok := k.ReplaceRoute(p.routes[i]);
      if !ok {
        return;
      }
      i := i + 1;
    }
    assert p.routes[..i] == p.routes;
    if |p.ipRules| > 0 {
      ok := InstallRules(k, p.ipRules);
    } else {
      ok := InstallProofs(k, p.rules);
    }
  }
}
