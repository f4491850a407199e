/** From domain policies to the route sets of the filter program, one for each route in use. */
module RouteSets {
  import opened Prelude
  import Config
  import IPPlan
  import Sorting
  import opened Domains
  import opened Nft
  import opened NftMeaning

  /** The order of assignments: priority, then tag. */
  predicate Ahead(a: Assignment, b: Assignment) {
    if a.route.priority != b.route.priority then a.route.priority < b.route.priority
    else StrLess(a.route.tag, b.route.tag)
  }

  ghost predicate InTurn(assignments: seq<Assignment>) {
    forall i, j | 0 <= i < j < |assignments| :: Ahead(assignments[i], assignments[j])
  }

  /** The first policy for a route tag; the number of policies if there is none. */
  function FirstOf(policies: seq<Policy>, tag: string): (n: nat)
    ensures n <= |policies| && (n < |policies| ==> policies[n].route.tag == tag)
    ensures forall m | 0 <= m < n :: policies[m].route.tag != tag
  {
    if policies == [] || policies[0].route.tag == tag then 0
    else
      assert policies == [policies[0]] + policies[1..];
      FirstOf(policies[1..], tag) + 1
  }

  ghost predicate Made(policies: seq<Policy>, a: Assignment) {
    var n := FirstOf(policies, a.route.tag);
    n < |policies| && a == Assignment(policies[n].route, IPPlan.RouteId(a.route.tag))
  }

  /** One assignment for every route tag in use, made by the first policy for it, in order. */
  ghost predicate AssignmentsOf(policies: seq<Policy>, assignments: seq<Assignment>) {
    && InTurn(assignments)
    && (forall a | a in assignments :: Made(policies, a))
    && forall p | p in policies :: exists a | a in assignments :: a.route.tag == p.route.tag
  }

  lemma AheadTotal(a: Assignment, b: Assignment)
    ensures a.route.tag != b.route.tag ==> Ahead(a, b) || Ahead(b, a)
    ensures !(Ahead(a, b) && Ahead(b, a)) && !Ahead(a, a)
  {
    StrLessTotal(a.route.tag, b.route.tag);
    StrLessTotal(a.route.tag, a.route.tag);
  }

  lemma AheadStrict()
    ensures Sorting.Strict(Ahead)
  {
    forall a: Assignment, b: Assignment ensures Ahead(a, b) ==> !Ahead(b, a) {
      AheadTotal(a, b);
    }
    forall a: Assignment, b: Assignment, c: Assignment ensures Ahead(a, b) && Ahead(b, c) ==> Ahead(a, c) {
      if StrLess(a.route.tag, b.route.tag) && StrLess(b.route.tag, c.route.tag) {
        StrLessTransitive(a.route.tag, b.route.tag, c.route.tag);
      }
    }
  }

  // ---- building the list ----

  ghost predicate TagsApart(assignments: seq<Assignment>) {
    forall i, j | 0 <= i < j < |assignments| :: assignments[i].route.tag != assignments[j].route.tag
  }

  function TagOf(a: Assignment): string {
    a.route.tag
  }

  lemma SortedFacts(assignments: seq<Assignment>)
    requires TagsApart(assignments)
    ensures InTurn(Sorting.Sort(Ahead, assignments))
    ensures forall q :: q in Sorting.Sort(Ahead, assignments) <==> q in assignments
  {
    hide Ahead;
    var sorted := Sorting.Sort(Ahead, assignments);
    AheadStrict();
    Sorting.SortOrders(Ahead, assignments);
    Sorting.SortMembers(Ahead, assignments);
    assert Sorting.DistinctBy(TagOf, assignments);
    Sorting.SortKeepsDistinct(Ahead, TagOf, assignments);
    forall i, j | 0 <= i < j < |sorted| ensures Ahead(sorted[i], sorted[j]) {
      assert TagOf(sorted[i]) != TagOf(sorted[j]) && !Ahead(sorted[j], sorted[i]);
      AheadTotal(sorted[i], sorted[j]);
    }
  }

  ghost predicate ByTag(policies: seq<Policy>, byTag: map<string, Assignment>, n: nat) {
    && (forall t :: t in byTag <==> FirstOf(policies, t) < n)
    && forall t | t in byTag :: byTag[t].route.tag == t && Made(policies, byTag[t])
  }

  /** The loop over the map, whose entries come in any order. */
  method Entries(byTag: map<string, Assignment>) returns (listed: seq<Assignment>)
    requires forall t | t in byTag :: byTag[t].route.tag == t
    ensures TagsApart(listed) && forall a :: a in listed <==> a.route.tag in byTag && a == byTag[a.route.tag]
  {
    listed := [];
    var left := byTag.Keys;
    while left != {}
      invariant left <= byTag.Keys && TagsApart(listed)
      invariant forall a | a in listed :: a.route.tag in byTag && a == byTag[a.route.tag] && a.route.tag !in left
      invariant forall t | t in byTag && t !in left :: byTag[t] in listed
      decreases left
    {
      var t :| t in left;
      listed := listed + [byTag[t]];
      left := left - {t};
    }
  }

  /** `buildRouteAssignments`: the map's entries come out in any order before they are sorted. */
  method BuildRouteAssignments(policies: seq<Policy>) returns (assignments: seq<Assignment>)
    ensures AssignmentsOf(policies, assignments)
  {
    hide InTurn, Ahead, Made, TagsApart;
    var byTag: map<string, Assignment> := map[];
    var i := 0;
    while i < |policies|
      invariant 0 <= i <= |policies| && ByTag(policies, byTag, i)
    {
      var p := policies[i];
      assert FirstOf(policies, p.route.tag) <= i;
      if p.route.tag !in byTag {
        FirstMakes(policies, i);
        byTag := byTag[p.route.tag := Assignment(p.route, IPPlan.RouteId(p.route.tag))];
      }
      i := i + 1;
    }
    var listed := Entries(byTag);
    SortedFacts(listed);
    assignments := Sorting.Sort(Ahead, listed);
    forall p | p in policies ensures exists a | a in assignments :: a.route.tag == p.route.tag {
      var n :| 0 <= n < |policies| && policies[n] == p;
      assert FirstOf(policies, p.route.tag) <= n;
      assert byTag[p.route.tag] in assignments;
    }
  }

  lemma FirstMakes(policies: seq<Policy>, i: nat)
    requires i < |policies| && FirstOf(policies, policies[i].route.tag) >= i
    ensures Made(policies, Assignment(policies[i].route, IPPlan.RouteId(policies[i].route.tag)))
  {
    hide FirstOf, IPPlan.RouteId;
  }

  /** The policies determine the list, whatever order the map gave. */
  lemma AssignmentsUnique(policies: seq<Policy>, a: seq<Assignment>, b: seq<Assignment>)
    requires AssignmentsOf(policies, a) && AssignmentsOf(policies, b)
    ensures a == b
  {
    hide InTurn, IPPlan.RouteId, Ahead;
    forall x ensures x in a <==> x in b {
      if x in a { SameMembers(policies, a, b, x); }
      if x in b { SameMembers(policies, b, a, x); }
    }
    InTurnFacts(a);
    InTurnFacts(b);
    Sorting.OrderDetermines(Ahead, a, b);
  }

  lemma InTurnFacts(a: seq<Assignment>)
    requires InTurn(a)
    ensures Sorting.InOrder(Ahead, a) && Sorting.DistinctBy((x: Assignment) => x, a)
    ensures forall x, y | x in a && y in a && x != y :: Ahead(x, y) || Ahead(y, x)
  {
    hide Ahead;
    forall x, y ensures !(Ahead(x, y) && Ahead(y, x)) && !Ahead(x, x) {
      AheadTotal(x, y);
    }
  }

  lemma SameMembers(policies: seq<Policy>, a: seq<Assignment>, b: seq<Assignment>, x: Assignment)
    requires AssignmentsOf(policies, a) && AssignmentsOf(policies, b) && x in a
    ensures x in b
  {
    hide InTurn, IPPlan.RouteId;
    var p := policies[FirstOf(policies, x.route.tag)];
    assert p in policies;
    var y :| y in b && y.route.tag == p.route.tag;
    assert Made(policies, x) && Made(policies, y);
  }

  // ---- what the program does, in terms of policies ----

  /** The destination is in the set of the policy's route. */
  predicate Wants(q: Policy, p: Packet, env: Env) {
    env.sets(IPPlan.RouteId(q.route.tag), p.family, p.dst)
  }

  /** Policies for one route tag carry the same route, as they all come from one config. */
  ghost predicate RoutesAgree(policies: seq<Policy>) {
    forall a, b | a in policies && b in policies && a.route.tag == b.route.tag :: a.route == b.route
  }

  lemma MadeForPolicy(policies: seq<Policy>, assignments: seq<Assignment>, q: Policy) returns (k: nat)
    requires AssignmentsOf(policies, assignments) && RoutesAgree(policies) && q in policies
    ensures k < |assignments| && assignments[k] == Assignment(q.route, IPPlan.RouteId(q.route.tag))
  {
    hide InTurn, IPPlan.RouteId;
    var a :| a in assignments && a.route.tag == q.route.tag;
    k :| 0 <= k < |assignments| && assignments[k] == a;
    assert Made(policies, a) && policies[FirstOf(policies, a.route.tag)] in policies;
  }

  lemma PolicyOfAssignment(policies: seq<Policy>, assignments: seq<Assignment>, k: nat) returns (q: Policy)
    requires AssignmentsOf(policies, assignments) && k < |assignments|
    ensures q in policies && assignments[k] == Assignment(q.route, IPPlan.RouteId(q.route.tag))
  {
    hide InTurn, IPPlan.RouteId;
    assert Made(policies, assignments[k]);
    q := policies[FirstOf(policies, assignments[k].route.tag)];
  }

  /** Two assignments collide on a destination exactly when policies for two different routes want it. */
  lemma CollisionIsTwoRoutes(policies: seq<Policy>, assignments: seq<Assignment>, p: Packet, env: Env)
    requires AssignmentsOf(policies, assignments) && RoutesAgree(policies)
    ensures Collides(assignments, p, env) <==>
              exists a, b | a in policies && b in policies :: a.route.tag != b.route.tag && Wants(a, p, env) && Wants(b, p, env)
    ensures NoneHit(assignments, p, env) <==> forall q | q in policies :: !Wants(q, p, env)
  {
    hide IPPlan.RouteId, AssignmentsOf, RoutesAgree;
    if Collides(assignments, p, env) {
      var i, j :| 0 <= i < j < |assignments| && Hit(assignments[i], p, env) && Hit(assignments[j], p, env);
      var a := PolicyOfAssignment(policies, assignments, i);
      var b := PolicyOfAssignment(policies, assignments, j);
      TagsDiffer(policies, assignments, i, j);
      assert Wants(a, p, env) && Wants(b, p, env);
    }
    if a, b :| a in policies && b in policies && a.route.tag != b.route.tag && Wants(a, p, env) && Wants(b, p, env) {
      var i := MadeForPolicy(policies, assignments, a);
      var j := MadeForPolicy(policies, assignments, b);
      assert Hit(assignments[i], p, env) && Hit(assignments[j], p, env);
    }
    if !NoneHit(assignments, p, env) {
      var x :| x in assignments && Hit(x, p, env);
      var k :| 0 <= k < |assignments| && assignments[k] == x;
      var q := PolicyOfAssignment(policies, assignments, k);
      assert Wants(q, p, env);
    }
    if q :| q in policies && Wants(q, p, env) {
      var k := MadeForPolicy(policies, assignments, q);
      assert assignments[k] in assignments && Hit(assignments[k], p, env);
    }
  }

  lemma TagsDiffer(policies: seq<Policy>, assignments: seq<Assignment>, i: nat, j: nat)
    requires AssignmentsOf(policies, assignments) && i < j < |assignments|
    ensures assignments[i].route.tag != assignments[j].route.tag
  {
    hide IPPlan.RouteId, Ahead;
    assert Ahead(assignments[i], assignments[j]) && Made(policies, assignments[i]) && Made(policies, assignments[j]);
    AheadTotal(assignments[i], assignments[i]);
  }

  /** The packet gets past the checks that come before classification. */
  predicate Classified(c: Config.Settings, lans: seq<string>, p: Packet, ctx: Ctx) {
    !Bypassed(c, ctx.mark) && lans != [] && FromLan(lans, p) && !p.local && !IsDot(p) && !IsBogon(p)
  }

  /**
   * The program in terms of the policies it was made from: a destination that two routes want is dropped
   * with the drop mark, one that a single route wants gets that route's action, any other passes unmarked.
   */
  lemma FilterFollowsPolicies(prog: Program, c: Config.Settings, policies: seq<Policy>, assignments: seq<Assignment>,
                              lans: seq<string>, zapret: IPPlan.ZapretPlan, proxy: IPPlan.TransparentPlan, p: Packet,
                              env: Env, ctx: Ctx)
    requires AssignmentsOf(policies, assignments) && RoutesAgree(policies) && Classified(c, lans, p, ctx)
    requires Renderable(c, assignments, zapret, proxy) && Rendered(prog, c, assignments, lans, zapret, proxy)
    ensures (forall q | q in policies :: !Wants(q, p, env)) ==> Filter(prog, p, env, ctx) == Done(Accepted, ctx)
    ensures forall a, b | a in policies && b in policies && a.route.tag != b.route.tag && Wants(a, p, env) && Wants(b, p, env) ::
              Filter(prog, p, env, ctx) == Done(Dropped, Ctx(DropMark(c), DropMark(c), ctx.proxy))
    ensures forall q | q in policies && Wants(q, p, env)
                       && (forall other | other in policies && Wants(other, p, env) :: other.route.tag == q.route.tag) ::
              Filter(prog, p, env, ctx) == RouteOutcome(c, q.route, zapret, proxy, p, env, ctx)
  {
    hide IPPlan.RouteId, AssignmentsOf, RoutesAgree, Renderable, Filter, RouteOutcome;
    ProgramMeansPolicy(prog, c, assignments, lans, zapret, proxy, p, env, ctx);
    CollisionIsTwoRoutes(policies, assignments, p, env);
    forall q | q in policies && Wants(q, p, env)
               && (forall other | other in policies && Wants(other, p, env) :: other.route.tag == q.route.tag)
      ensures Filter(prog, p, env, ctx) == RouteOutcome(c, q.route, zapret, proxy, p, env, ctx)
    {
      var k := MadeForPolicy(policies, assignments, q);
      assert Hit(assignments[k], p, env) && !Collides(assignments, p, env);
      UniqueHit(assignments, k, p, env);
    }
  }
}
