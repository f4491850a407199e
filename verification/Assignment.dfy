/** Automatic route assignment: apply, prove, record, read back, and on a failed proof the next candidate. */
module Assignment {
  import opened Prelude
  import Config

  /** A probed route, as far as assignment looks at it. `evidence` is the planner's selection evidence. */
  datatype RouteResult = RouteResult(
    route: string, kind: Config.RouteType, ok: bool, pathVerified: bool, serviceOk: bool, regionalBlock: bool,
    evidence: bool, provenAbroad: bool, revision: string, score: real)

  datatype Check = Check(domain: string, selected: Option<RouteResult>, results: seq<RouteResult>, confident: bool)

  /** What the category of a check allows. */
  datatype AutoService = AutoService(allowed: set<Config.RouteType>, abroadOnly: bool)

  type ServiceOf = Check -> Option<AutoService>

  datatype Reason = Fenced | NoEvidence | NotAllowed | NotAbroad | NoRevision | ApplyFailed | BadReceipt
                  | ProofFailed | PersistFailed | ReadbackFailed | RollbackFailed | Committed

  datatype CommitResult = CommitResult(applied: bool, rolledBack: bool, reason: Reason)

  datatype Receipt = Receipt(applied: bool, sound: bool, route: string, previous: set<string>)

  datatype Decision = Decision(route: string, kind: Config.RouteType, revision: string)

  // ---- remaining results ----

  function Remaining(results: seq<RouteResult>, excluded: string): seq<RouteResult> {
    if results == [] then []
    else Remaining(results[..|results| - 1], excluded)
         + if results[|results| - 1].route != excluded then [results[|results| - 1]] else []
  }

  method RemainingRouteResults(results: seq<RouteResult>, excluded: string) returns (remaining: seq<RouteResult>)
    ensures remaining == Remaining(results, excluded)
  {
    remaining := [];
    var i := 0;
    while i < |results|
      invariant 0 <= i <= |results| && remaining == Remaining(results[..i], excluded)
    {
      assert results[..i + 1][..i] == results[..i];
      if results[i].route != excluded {
        remaining := remaining + [results[i]];
      }
      i := i + 1;
    }
    assert results[..i] == results;
  }

  predicate Listed(results: seq<RouteResult>, route: string) {
    exists r | r in results :: r.route == route
  }

  lemma {:induction false} RemainingFacts(results: seq<RouteResult>, excluded: string)
    ensures forall r :: r in Remaining(results, excluded) <==> r in results && r.route != excluded
    ensures |Remaining(results, excluded)| <= |results|
    ensures Listed(results, excluded) ==> |Remaining(results, excluded)| < |results|
  {
    if results != [] {
      var before, last := results[..|results| - 1], results[|results| - 1];
      assert results == before + [last];
      RemainingFacts(before, excluded);
    }
  }

  /** What a retry makes smaller: the untried selected route and the remaining results. */
  function Measure(c: Check): nat {
    |c.results| + if c.selected.Some? && !Listed(c.results, c.selected.value.route) then 1 else 0
  }

  function Retry(c: Check, next: RouteResult, current: string): Check {
    c.(selected := Some(next), results := Remaining(c.results, current))
  }

  lemma RetryIsSmaller(c: Check, next: RouteResult, current: string)
    requires c.selected.Some? && c.selected.value.route == current
    requires next in c.results && next.route != current
    ensures Measure(Retry(c, next, current)) < Measure(c)
  {
    RemainingFacts(c.results, current);
    assert next in Remaining(c.results, current);
  }

  // ---- the next candidate ----

  function FindRoute(routes: seq<Config.Route>, tag: string): Option<Config.Route> {
    if routes == [] then None else if routes[0].tag == tag then Some(routes[0]) else FindRoute(routes[1..], tag)
  }

  /** The route may be assigned for this check. */
  predicate Assignable(c: Check, routes: seq<Config.Route>, service: ServiceOf) {
    c.selected.Some? &&
    match (FindRoute(routes, c.selected.value.route), service(c))
    case (Some(route), Some(auto)) =>
      Config.Enabled(route) && route.kind in auto.allowed
      && (auto.abroadOnly && !route.kind.Drop? ==> c.selected.value.provenAbroad)
    case _ => false
  }

  predicate Usable(r: RouteResult) {
    r.ok && r.pathVerified && r.serviceOk && !r.regionalBlock
  }

  predicate Better(a: RouteResult, b: RouteResult) {
    a.score < b.score || (a.score == b.score && StrLess(a.route, b.route))
  }

  /** The first result of its route, other than the current one, and good enough to be assigned. */
  ghost predicate Candidate(c: Check, routes: seq<Config.Route>, service: ServiceOf, current: string, i: nat)
    requires i < |c.results|
  {
    var r := c.results[i];
    && r.route != "" && r.route != current
    && (forall j | 0 <= j < i :: c.results[j].route != r.route)
    && Usable(r) && Assignable(c.(selected := Some(r)), routes, service)
  }

  ghost predicate BestCandidate(c: Check, routes: seq<Config.Route>, service: ServiceOf, current: string, i: nat)
    requires i < |c.results|
  {
    && Candidate(c, routes, service, current, i)
    && forall j | 0 <= j < |c.results| && Candidate(c, routes, service, current, j) :: !Better(c.results[j], c.results[i])
  }

  ghost predicate NoCandidate(c: Check, routes: seq<Config.Route>, service: ServiceOf, current: string) {
    forall i | 0 <= i < |c.results| :: !Candidate(c, routes, service, current, i)
  }

  /** No candidate has a smaller score than a best one, and among equal scores none has a smaller tag. */
  lemma BestIsLeast(c: Check, routes: seq<Config.Route>, service: ServiceOf, current: string, i: nat)
    requires i < |c.results| && BestCandidate(c, routes, service, current, i)
    ensures forall j | 0 <= j < |c.results| && Candidate(c, routes, service, current, j) ::
              && c.results[i].score <= c.results[j].score
              && (c.results[i].score == c.results[j].score && i != j ==> StrLess(c.results[i].route, c.results[j].route))
  {
    hide Assignable, Usable;
    forall j | 0 <= j < |c.results| && Candidate(c, routes, service, current, j) && i != j
      ensures c.results[i].score <= c.results[j].score
      ensures c.results[i].score == c.results[j].score ==> StrLess(c.results[i].route, c.results[j].route)
    {
      assert !Better(c.results[j], c.results[i]) && c.results[i].route != c.results[j].route;
      StrLessTotal(c.results[i].route, c.results[j].route);
    }
  }

  /** `nextAutomaticAssignmentCandidate`: the candidate with the least score, ties broken by the tag. */
  method NextCandidate(c: Check, routes: seq<Config.Route>, service: ServiceOf, current: string)
    returns (next: Option<RouteResult>)
    ensures next.None? <==> NoCandidate(c, routes, service, current)
    ensures next.Some? ==> exists i | 0 <= i < |c.results| ::
              next.value == c.results[i] && BestCandidate(c, routes, service, current, i)
    ensures next.Some? ==> next.value in c.results && next.value.route != current
  {
    hide Assignable, Usable, Better;
    var seen: set<string> := {};
    var candidates: seq<RouteResult> := [];
    ghost var places: seq<nat> := [];
    var i := 0;
    while i < |c.results|
      invariant 0 <= i <= |c.results| && |places| == |candidates|
      invariant forall t :: t in seen <==> t != "" && t != current && exists j | 0 <= j < i :: c.results[j].route == t
      invariant forall k | 0 <= k < |places| ::
        places[k] < i && candidates[k] == c.results[places[k]] && Candidate(c, routes, service, current, places[k])
      invariant forall j | 0 <= j < i && Candidate(c, routes, service, current, j) :: j in places
    {
      var r := c.results[i];
      if r.route != "" && r.route != current && r.route !in seen {
        seen := seen + {r.route};
        if Usable(r) && Assignable(c.(selected := Some(r)), routes, service) {
          candidates := candidates + [r];
          places := places + [i];
        }
      }
      i := i + 1;
    }
    if candidates == [] {
      return None;
    }
    ghost var at;
    var best;
    best, at := Best(candidates);
    next := Some(best);
    ghost var place := places[at];
    forall j | 0 <= j < |c.results| && Candidate(c, routes, service, current, j)
      ensures !Better(c.results[j], c.results[place])
    {
      var k :| 0 <= k < |places| && places[k] == j;
      assert candidates[k] == c.results[j];
    }
    assert BestCandidate(c, routes, service, current, place);
  }

  /** The first element after a stable sort by score and tag. */
  method Best(candidates: seq<RouteResult>) returns (best: RouteResult, ghost at: nat)
    requires candidates != []
    ensures at < |candidates| && best == candidates[at]
    ensures forall k | 0 <= k < |candidates| :: !Better(candidates[k], candidates[at])
  {
    best, at := candidates[0], 0;
    StrLessTotal(best.route, best.route);
    var i := 1;
    while i < |candidates|
      invariant 1 <= i <= |candidates| && at < i && best == candidates[at]
      invariant forall k | 0 <= k < i :: !Better(candidates[k], best)
    {
      var r := candidates[i];
      if Better(r, best) {
        forall k | 0 <= k < i ensures !Better(candidates[k], r) {
          if Better(candidates[k], r) { BetterTransitive(candidates[k], r, best); }
        }
        StrLessTotal(r.route, r.route);
        best := r;
        at := i;
      }
      i := i + 1;
    }
  }

  lemma BetterTransitive(a: RouteResult, b: RouteResult, c: RouteResult)
    requires Better(a, b) && Better(b, c)
    ensures Better(a, c)
  {
    if a.score == b.score == c.score { StrLessTransitive(a.route, b.route, c.route); }
  }

  // ---- the runtime, the prober and the decision store ----

  /** One attempt as the plane has seen it: what it was told when it began, what it asked for, and the answers. */
  datatype Attempt = Attempt(
    open: bool, routes: seq<Config.Route>, revision: string,
    route: Option<string>, receipt: Option<Receipt>, post: Option<RouteResult>,
    saved: Option<bool>, found: Option<Decision>, undone: Option<bool>)

  /** The mappings of one domain in the data plane, and the durable decision for it. */
  class Plane {
    /** The routes whose mapping for the domain is live. */
    var live: set<string>
    var stored: Option<Decision>
    /** Everything that was applied, in order, and the last probe since the last apply. */
    ghost var tried: seq<string>
    ghost var proof: Option<RouteResult>
    ghost var attempts: seq<Attempt>

    constructor (live: set<string>, stored: Option<Decision>)
      ensures this.live == live && this.stored == stored && tried == [] && proof == None && attempts == []
    {
      this.live, this.stored := live, stored;
      tried, proof, attempts := [], None, [];
    }

    ghost function Now(): Attempt
      requires attempts != []
      reads this
    {
      attempts[|attempts| - 1]
    }

    /** The attempt under way is now `a`. */
    ghost predicate Became(before: seq<Attempt>, a: Attempt)
      requires before != []
      reads this
    {
      attempts == before[..|before| - 1] + [a]
    }

    /** A lease, if the fence is open, and the active config and revision as they are now. */
    method Enter() returns (open: bool, routes: seq<Config.Route>, revision: string)
      modifies this`attempts
      ensures attempts == old(attempts) + [Attempt(open, routes, revision, None, None, None, None, None, None)]
    {
      open, routes, revision := *, *, *;
      attempts := attempts + [Attempt(open, routes, revision, None, None, None, None, None, None)];
    }

    /** No receipt is an error. A receipt that is sound for the request was given after the mapping took. */
    method Apply(route: string) returns (receipt: Option<Receipt>)
      requires attempts != []
      modifies this`live, this`tried, this`proof, this`attempts
      ensures tried == old(tried) + [route] && proof == None
      ensures Became(old(attempts), old(Now()).(route := Some(route), receipt := receipt))
      ensures live == old(live) || live == old(live) + {route}
      ensures receipt.Some? ==> receipt.value.previous == old(live) && receipt.value.route == route
      ensures receipt.Some? && receipt.value.sound ==> receipt.value.applied && live == old(live) + {route}
    {
      var took: bool, answers: bool, applied: bool, sound: bool := *, *, *, *;
      receipt := if answers then Some(Receipt(applied, sound && applied && took, route, live)) else None;
      if took {
        live := live + {route};
      }
      tried, proof := tried + [route], None;
      attempts := attempts[..|attempts| - 1] + [Now().(route := Some(route), receipt := receipt)];
    }

    /** An accepted rollback has restored what was there before the receipt's apply. */
    method Rollback(receipt: Receipt) returns (ok: bool)
      requires attempts != []
      modifies this`live, this`attempts
      ensures live == if ok then receipt.previous else old(live)
      ensures Became(old(attempts), old(Now()).(undone := Some(ok)))
    {
      ok := *;
      if ok {
        live := receipt.previous;
      }
      attempts := attempts[..|attempts| - 1] + [Now().(undone := Some(ok))];
    }

    method Probe() returns (r: RouteResult)
      requires attempts != []
      modifies this`proof, this`attempts
      ensures proof == Some(r) && Became(old(attempts), old(Now()).(post := Some(r)))
    {
      r := *;
      proof := Some(r);
      attempts := attempts[..|attempts| - 1] + [Now().(post := Some(r))];
    }

    /** A store may report success without having stored anything. */
    method Save(d: Decision) returns (ok: bool)
      requires attempts != []
      modifies this`stored, this`attempts
      ensures stored == old(stored) || stored == Some(d)
      ensures Became(old(attempts), old(Now()).(saved := Some(ok)))
    {
      ok := *;
      var kept: bool := *;
      if kept {
        stored := Some(d);
      }
      attempts := attempts[..|attempts| - 1] + [Now().(saved := Some(ok))];
    }

    method Lookup() returns (d: Option<Decision>)
      requires attempts != []
      modifies this`attempts
      ensures d == None || d == stored
      ensures Became(old(attempts), old(Now()).(found := d))
    {
      var answers: bool := *;
      d := if answers then stored else None;
      attempts := attempts[..|attempts| - 1] + [Now().(found := d)];
    }

    method Discard()
      modifies this`stored
      ensures stored == old(stored) || stored == None
    {
      var works: bool := *;
      if works {
        stored := None;
      }
    }
  }

  /** The probe after the apply proves the route under the active revision. */
  predicate PostAccepted(post: RouteResult, route: Config.Route, revision: string, auto: AutoService) {
    && post.route == route.tag && post.kind == route.kind && post.revision == revision && post.evidence
    && (auto.abroadOnly && !route.kind.Drop? ==> post.provenAbroad)
  }

  ghost predicate DistinctRoutes(tried: seq<string>) {
    forall i, j | 0 <= i < j < |tried| :: tried[i] != tried[j]
  }

  /** Each route once, and only the selected one and listed ones. */
  ghost predicate TriedOnce(more: seq<string>, c: Check) {
    && DistinctRoutes(more)
    && forall t | t in more :: (c.selected.Some? && t == c.selected.value.route) || Listed(c.results, t)
  }

  /** What a commit leaves: at most the mapping that was tried last, and that one only for a reason. */
  ghost predicate LeftLive(before: set<string>, after: set<string>, more: seq<string>, result: CommitResult) {
    && before <= after && (more == [] ==> after == before && !result.applied)
    && (more != [] ==> after <= before + {more[|more| - 1]})
    && (result.rolledBack ==> after == before)
    && (result.applied ==> more != [] && after == before + {more[|more| - 1]})
  }

  /**
   * What success rests on: since the last apply the route was probed and proved, and a decision for it was
   * read back, both under the revision that the last attempt has read.
   */
  ghost predicate Backed(plane: Plane)
    reads plane
  {
    && plane.tried != [] && plane.attempts != [] && plane.proof.Some? && plane.proof.value.evidence
    && plane.proof.value.route == plane.tried[|plane.tried| - 1] && plane.proof.value.revision == plane.Now().revision
    && plane.stored == Some(Decision(plane.proof.value.route, plane.proof.value.kind, plane.Now().revision))
  }

  // ---- what a commit does, attempt by attempt ----

  predicate Evident(c: Check) {
    c.selected.Some? && c.selected.value.evidence && c.confident
  }

  /** Why an attempt is refused before anything is touched. */
  function RefusedFor(c: Check, service: ServiceOf, open: bool, routes: seq<Config.Route>, revision: string): Option<Reason> {
    if !open then Some(Fenced)
    else if !Evident(c) then Some(NoEvidence)
    else
      match (FindRoute(routes, c.selected.value.route), service(c))
      case (Some(route), Some(auto)) =>
        if !Config.Enabled(route) || route.kind !in auto.allowed then Some(NotAllowed)
        else if auto.abroadOnly && !route.kind.Drop? && !c.selected.value.provenAbroad then Some(NotAbroad)
        else if revision == "" then Some(NoRevision)
        else None
      case _ => Some(NotAllowed)
  }

  function Refusal(c: Check, service: ServiceOf, a: Attempt): Option<Reason> {
    RefusedFor(c, service, a.open, a.routes, a.revision)
  }

  /** An attempt goes ahead exactly on evidence, for a route that the next-candidate search would admit too. */
  lemma AdmittedExactly(c: Check, service: ServiceOf, a: Attempt)
    ensures Refusal(c, service, a) == None <==>
              a.open && Evident(c) && Assignable(c, a.routes, service) && a.revision != ""
  {
  }

  /** The probe after the apply proves the selected route under the revision that the attempt has read. */
  ghost predicate Proved(c: Check, service: ServiceOf, a: Attempt) {
    && a.post.Some? && c.selected.Some?
    && match (FindRoute(a.routes, c.selected.value.route), service(c)) {
         case (Some(route), Some(auto)) => PostAccepted(a.post.value, route, a.revision, auto)
         case _ => false
       }
  }

  /** The decision read back is for the route and the revision of the attempt. */
  ghost predicate ReadBack(c: Check, a: Attempt) {
    && a.saved == Some(true) && a.found.Some? && c.selected.Some?
    && FindRoute(a.routes, c.selected.value.route).Some?
    && a.found.value == Decision(c.selected.value.route, FindRoute(a.routes, c.selected.value.route).value.kind, a.revision)
  }

  /** How an attempt ends, by what it was told and answered, when it is not followed by another one. */
  ghost function Ending(c: Check, service: ServiceOf, a: Attempt): CommitResult {
    var undone := a.undone == Some(true);
    if Refusal(c, service, a).Some? then CommitResult(false, false, Refusal(c, service, a).value)
    else if a.receipt == None then CommitResult(false, false, ApplyFailed)
    else if !a.receipt.value.sound && !a.receipt.value.applied then CommitResult(false, false, BadReceipt)
    else if !a.receipt.value.sound then CommitResult(false, undone, if undone then BadReceipt else RollbackFailed)
    else if !Proved(c, service, a) then CommitResult(false, undone, if undone then ProofFailed else RollbackFailed)
    else if a.saved != Some(true) then CommitResult(false, undone, if undone then PersistFailed else RollbackFailed)
    else if !ReadBack(c, a) then CommitResult(false, undone, if undone then ReadbackFailed else RollbackFailed)
    else CommitResult(true, false, Committed)
  }

  /** An attempt applies its route exactly when it is not refused. */
  ghost predicate Acted(c: Check, service: ServiceOf, a: Attempt) {
    if Refusal(c, service, a).Some? then a.route == None
    else c.selected.Some? && a.route == Some(c.selected.value.route)
  }

  /** It has failed to prove its route and was undone: another candidate may follow. */
  ghost predicate FailedProof(c: Check, service: ServiceOf, a: Attempt) {
    Ending(c, service, a) == CommitResult(false, true, ProofFailed)
  }

  /**
   * The attempts that a commit makes and the result that it reports. The last attempt gives the result, and
   * if that is an undone failed proof then no candidate was left under the config it had read; every other
   * attempt is an undone failed proof, followed by a best candidate under the config it had read.
   */
  ghost predicate Story(c: Check, service: ServiceOf, made: seq<Attempt>, result: CommitResult)
    decreases |made|
  {
    && made != [] && Acted(c, service, made[0])
    && if |made| == 1 then
         && result == Ending(c, service, made[0])
         && (FailedProof(c, service, made[0]) && c.selected.Some? ==>
               NoCandidate(c, made[0].routes, service, c.selected.value.route))
       else
         && FailedProof(c, service, made[0]) && c.selected.Some?
         && exists i | 0 <= i < |c.results| ::
              && BestCandidate(c, made[0].routes, service, c.selected.value.route, i)
              && Story(Retry(c, c.results[i], c.selected.value.route), service, made[1..], result)
  }

  /** The routes that these attempts have applied. */
  ghost predicate WasTried(made: seq<Attempt>, route: string) {
    exists a | a in made :: a.route == Some(route)
  }

  lemma EndingFacts(c: Check, service: ServiceOf, a: Attempt)
    ensures Ending(c, service, a).applied <==>
              && Refusal(c, service, a) == None && a.receipt.Some? && a.receipt.value.sound
              && Proved(c, service, a) && ReadBack(c, a)
    ensures FailedProof(c, service, a) ==>
              Refusal(c, service, a) == None && c.selected.Some? && a.undone == Some(true)
    ensures Ending(c, service, a).rolledBack ==> !Ending(c, service, a).applied
  {
    hide FindRoute;
  }

  /**
   * When a commit gives up on a failed proof, the last attempt was made on a check `left` with exactly the
   * results of the routes not tried before it, and none of these is a candidate next to it.
   */
  lemma {:induction false} GivesUpOnlyWhenExhausted(c: Check, service: ServiceOf, made: seq<Attempt>, result: CommitResult)
    returns (left: Check)
    requires Story(c, service, made, result) && result == CommitResult(false, true, ProofFailed)
    ensures var last := made[|made| - 1];
            && left.selected.Some? && last.route == Some(left.selected.value.route)
            && FailedProof(left, service, last)
            && NoCandidate(left, last.routes, service, left.selected.value.route)
    ensures forall r :: r in left.results <==> r in c.results && !WasTried(made[..|made| - 1], r.route)
    ensures left == c.(selected := left.selected, results := left.results)
    decreases |made|
  {
    hide Candidate, BestCandidate, Ending, RefusedFor, Proved, Remaining;
    left := c;
    EndingFacts(c, service, made[0]);
    if |made| > 1 {
      var current := c.selected.value.route;
      var i :| 0 <= i < |c.results| && BestCandidate(c, made[0].routes, service, current, i)
               && Story(Retry(c, c.results[i], current), service, made[1..], result);
      var next := Retry(c, c.results[i], current);
      left := GivesUpOnlyWhenExhausted(next, service, made[1..], result);
      RemainingFacts(c.results, current);
      forall r: RouteResult
        ensures WasTried(made[..|made| - 1], r.route) <==> r.route == current || WasTried(made[1..][..|made| - 2], r.route)
      {
        TriedFirstOrLater(made, r.route);
      }
    }
  }

  lemma TriedFirstOrLater(made: seq<Attempt>, route: string)
    requires |made| > 1
    ensures WasTried(made[..|made| - 1], route) <==> made[0].route == Some(route) || WasTried(made[1..][..|made| - 2], route)
  {
    var before, later := made[..|made| - 1], made[1..][..|made| - 2];
    SplitFront(made);
    assert made[0] in before && forall a :: a in before <==> a == made[0] || a in later;
  }

  lemma SplitFront(made: seq<Attempt>)
    requires |made| > 1
    ensures made[..|made| - 1] == [made[0]] + made[1..][..|made| - 2]
  {
  }

  /** A commit that succeeds does so in its last attempt, on a proof and a decision read back under its revision. */
  lemma {:induction false} SucceedsInTheLast(c: Check, service: ServiceOf, made: seq<Attempt>, result: CommitResult)
    returns (left: Check)
    requires Story(c, service, made, result)
    ensures result == Ending(left, service, made[|made| - 1])
    ensures result.applied <==> Proved(left, service, made[|made| - 1]) && ReadBack(left, made[|made| - 1])
                                && Refusal(left, service, made[|made| - 1]) == None
                                && made[|made| - 1].receipt.Some? && made[|made| - 1].receipt.value.sound
    ensures forall k | 0 <= k < |made| - 1 :: made[k].undone == Some(true)
    decreases |made|
  {
    hide Candidate, BestCandidate, Ending, RefusedFor, Proved, Remaining, ReadBack;
    left := c;
    EndingFacts(c, service, made[0]);
    if |made| > 1 {
      var current := c.selected.value.route;
      var i :| 0 <= i < |c.results| && BestCandidate(c, made[0].routes, service, current, i)
               && Story(Retry(c, c.results[i], current), service, made[1..], result);
      left := SucceedsInTheLast(Retry(c, c.results[i], current), service, made[1..], result);
      forall k | 0 < k < |made| - 1 ensures made[k].undone == Some(true) {
        assert made[k] == made[1..][k - 1];
      }
    }
  }

  method RollbackRuntime(plane: Plane, receipt: Receipt, reason: Reason) returns (result: CommitResult)
    requires plane.attempts != []
    modifies plane`live, plane`attempts
    ensures !result.applied && (result.rolledBack ==> plane.live == receipt.previous)
    ensures !result.rolledBack ==> plane.live == old(plane.live) && result.reason == RollbackFailed
    ensures result.rolledBack ==> result.reason == reason
    ensures plane.Became(old(plane.attempts), old(plane.Now()).(undone := Some(result.rolledBack)))
  {
    var ok := plane.Rollback(receipt);
    result := if ok then CommitResult(false, true, reason) else CommitResult(false, false, RollbackFailed);
  }

  lemma NothingTried(c: Check)
    ensures TriedOnce([], c)
    ensures c.selected.Some? ==> TriedOnce([c.selected.value.route], c)
  {
  }

  lemma RetryTriedOnce(c: Check, next: RouteResult, current: string, more: seq<string>)
    requires c.selected.Some? && c.selected.value.route == current && next in c.results && next.route != current
    requires TriedOnce(more, Retry(c, next, current))
    ensures TriedOnce([current] + more, c)
  {
    RemainingFacts(c.results, current);
    forall t | t in more ensures t != current && Listed(c.results, t) {
      if t != next.route {
        var r :| r in Remaining(c.results, current) && r.route == t;
        assert r in c.results;
      }
    }
    var all := [current] + more;
    forall i, j | 0 <= i < j < |all| ensures all[i] != all[j] {
      assert all[j] == more[j - 1] && more[j - 1] in more;
      if i > 0 { assert all[i] == more[i - 1]; }
    }
  }

  /** The checks before anything is touched, on the config and revision as they are now. */
  method Admit(c: Check, service: ServiceOf, plane: Plane)
    returns (refused: Option<Reason>, route: Config.Route, auto: AutoService, routes: seq<Config.Route>, revision: string)
    modifies plane`attempts
    ensures |plane.attempts| == |old(plane.attempts)| + 1 && old(plane.attempts) <= plane.attempts
    ensures refused == Refusal(c, service, plane.Now()) && plane.Now().route == None
    ensures plane.Now() == Attempt(plane.Now().open, routes, revision, None, None, None, None, None, None)
    ensures refused.None? ==> c.selected.Some? && route.tag == c.selected.value.route && Assignable(c, routes, service)
    ensures refused.None? ==> FindRoute(routes, route.tag) == Some(route) && service(c) == Some(auto)
  {
    var open;
    open, routes, revision := plane.Enter();
    refused, route, auto := None, *, *;
    if !open {
      return Some(Fenced), route, auto, routes, revision;
    }
    if c.selected.None? || !c.selected.value.evidence || !c.confident {
      return Some(NoEvidence), route, auto, routes, revision;
    }
    var found, allowed := FindRoute(routes, c.selected.value.route), service(c);
    if found.None? || allowed.None? || !Config.Enabled(found.value) || found.value.kind !in allowed.value.allowed {
      return Some(NotAllowed), route, auto, routes, revision;
    }
    route, auto := found.value, allowed.value;
    FoundTag(routes, c.selected.value.route);
    if auto.abroadOnly && !route.kind.Drop? && !c.selected.value.provenAbroad {
      return Some(NotAbroad), route, auto, routes, revision;
    }
    if revision == "" {
      return Some(NoRevision), route, auto, routes, revision;
    }
  }

  /** One attempt of `commitAutomaticDomain`, up to the retry; `routes` are those that it has read. */
  method TryOnce(c: Check, service: ServiceOf, plane: Plane) returns (result: CommitResult, routes: seq<Config.Route>)
    modifies plane
    ensures |plane.attempts| == |old(plane.attempts)| + 1 && old(plane.attempts) <= plane.attempts
    ensures Acted(c, service, plane.Now()) && result == Ending(c, service, plane.Now()) && routes == plane.Now().routes
    ensures plane.tried == old(plane.tried) + if plane.Now().route == None then [] else [plane.Now().route.value]
    ensures LeftLive(old(plane.live), plane.live, plane.tried[|old(plane.tried)|..], result)
    ensures result.applied ==> plane.tried != old(plane.tried) && Backed(plane)
    ensures !result.applied && !result.rolledBack && plane.live != old(plane.live) ==>
              result.reason in {ApplyFailed, BadReceipt, RollbackFailed}
  {
    hide FindRoute, RefusedFor, Assignable, Proved, ReadBack;
    ghost var before := plane.tried;
    assert plane.tried[|before|..] == [];
    var refused, route, auto, revision;
    refused, route, auto, routes, revision := Admit(c, service, plane);
    if refused.Some? {
      return CommitResult(false, false, refused.value), routes;
    }
    var applied := plane.Apply(route.tag);
    assert plane.tried[|before|..] == [route.tag];
    if applied.None? {
      return CommitResult(false, false, ApplyFailed), routes;
    }
    var receipt := applied.value;
    if !receipt.sound {
      if receipt.applied {
        result := RollbackRuntime(plane, receipt, BadReceipt);
        return;
      }
      return CommitResult(false, false, BadReceipt), routes;
    }
    result := ProveAndRecord(c, service, plane, route, auto, revision, receipt);
  }

  /** The proof after the apply, and the record of the decision; the mapping is undone if one of them fails. */
  method ProveAndRecord(c: Check, service: ServiceOf, plane: Plane, route: Config.Route, auto: AutoService, revision: string,
                        receipt: Receipt)
    returns (result: CommitResult)
    requires plane.attempts != [] && Refusal(c, service, plane.Now()) == None && c.selected.Some?
    requires plane.Now() == Attempt(plane.Now().open, plane.Now().routes, revision, Some(route.tag), Some(receipt), None, None, None, None)
    requires FindRoute(plane.Now().routes, c.selected.value.route) == Some(route) && service(c) == Some(auto)
    requires route.tag == c.selected.value.route && receipt.sound
    modifies plane`live, plane`stored, plane`proof, plane`attempts
    ensures plane.attempts != [] && plane.Became(old(plane.attempts), plane.Now())
    ensures plane.Now() == old(plane.Now()).(post := plane.proof, saved := plane.Now().saved, found := plane.Now().found,
                                             undone := plane.Now().undone)
    ensures result == Ending(c, service, plane.Now())
    ensures plane.live == if result.rolledBack then receipt.previous else old(plane.live)
    ensures result.applied ==> plane.proof.Some? && PostAccepted(plane.proof.value, route, revision, auto)
                               && plane.stored == Some(Decision(route.tag, route.kind, revision))
    ensures !result.applied && !result.rolledBack ==> result.reason == RollbackFailed
  {
    hide FindRoute, RefusedFor;
    var post := plane.Probe();
    if !PostAccepted(post, route, revision, auto) {
      result := RollbackRuntime(plane, receipt, ProofFailed);
      return;
    }
    result := Record(plane, receipt, Decision(route.tag, route.kind, revision));
  }

  /**
   * `commitAutomaticDomain`, which starts over with the next candidate after a failed proof: a new lease,
   * config and revision.
   */
  method CommitAutomaticDomain(c: Check, service: ServiceOf, plane: Plane)
    returns (result: CommitResult)
    modifies plane
    ensures old(plane.tried) <= plane.tried && old(plane.attempts) <= plane.attempts
    ensures Story(c, service, plane.attempts[|old(plane.attempts)|..], result)
    ensures TriedOnce(plane.tried[|old(plane.tried)|..], c)
    ensures LeftLive(old(plane.live), plane.live, plane.tried[|old(plane.tried)|..], result)
    ensures result.applied ==> plane.tried != old(plane.tried) && Backed(plane)
    ensures !result.applied && !result.rolledBack && plane.live != old(plane.live) ==>
              result.reason in {ApplyFailed, BadReceipt, RollbackFailed}
    decreases Measure(c)
  {
    hide TriedOnce, Measure, Remaining, Story, Ending, BestCandidate, NoCandidate, Backed, RefusedFor;
    ghost var before, first := plane.tried, plane.attempts;
    NothingTried(c);
    var routes;
    result, routes := TryOnce(c, service, plane);
    EndingFacts(c, service, plane.Now());
    ghost var tried, once := plane.tried, plane.attempts;
    assert tried[|before|..] == if plane.Now().route == None then [] else [c.selected.value.route];
    if result.rolledBack && result.reason == ProofFailed {
      var current := c.selected.value.route;
      var next := NextCandidate(c, routes, service, current);
      if next.Some? {
        RetryIsSmaller(c, next.value, current);
        var remaining := RemainingRouteResults(c.results, current);
        result := CommitAutomaticDomain(c.(selected := next, results := remaining), service, plane);
        ghost var more := plane.tried[|tried|..];
        RetryTriedOnce(c, next.value, current, more);
        assert plane.tried[|before|..] == [current] + more;
        OneMoreAttempt(c, service, first, once, plane.attempts, next.value, result);
        return;
      }
    }
    OneAttempt(c, service, first, plane.attempts, result);
  }

  /** An attempt that is not followed by another one. */
  lemma OneAttempt(c: Check, service: ServiceOf, first: seq<Attempt>, now: seq<Attempt>, result: CommitResult)
    requires |now| == |first| + 1 && first <= now && Acted(c, service, now[|first|])
    requires result == Ending(c, service, now[|first|])
    requires FailedProof(c, service, now[|first|]) && c.selected.Some? ==>
               NoCandidate(c, now[|first|].routes, service, c.selected.value.route)
    ensures Story(c, service, now[|first|..], result)
  {
  }

  /** A failed proof, and everything that its retry does. */
  lemma OneMoreAttempt(c: Check, service: ServiceOf, first: seq<Attempt>, failed: seq<Attempt>, now: seq<Attempt>,
                       next: RouteResult, result: CommitResult)
    requires |failed| == |first| + 1 && first <= failed <= now && c.selected.Some? && Acted(c, service, failed[|first|])
    requires FailedProof(c, service, failed[|first|])
    requires exists i | 0 <= i < |c.results| ::
               next == c.results[i] && BestCandidate(c, failed[|first|].routes, service, c.selected.value.route, i)
    requires Story(Retry(c, next, c.selected.value.route), service, now[|failed|..], result)
    ensures Story(c, service, now[|first|..], result)
  {
    var made := now[|first|..];
    assert made[1..] == now[|failed|..] && made[0] == failed[|first|];
  }

  /** Save the decision and read it back; anything else is undone. */
  method Record(plane: Plane, receipt: Receipt, decision: Decision) returns (result: CommitResult)
    requires plane.attempts != [] && plane.Now().saved == None
    modifies plane`stored, plane`live, plane`attempts
    ensures result.applied ==> plane.stored == Some(decision) && plane.live == old(plane.live) && !result.rolledBack
    ensures result.rolledBack ==> plane.live == receipt.previous
    ensures !result.applied && !result.rolledBack ==> plane.live == old(plane.live) && result.reason == RollbackFailed
    ensures plane.attempts != [] && plane.Became(old(plane.attempts),
              old(plane.Now()).(saved := plane.Now().saved, found := plane.Now().found, undone := plane.Now().undone))
    ensures result.applied <==> plane.Now().saved == Some(true) && plane.Now().found == Some(decision)
    ensures result.applied ==> result.reason == Committed
    ensures !result.applied ==>
              && result.rolledBack == (plane.Now().undone == Some(true))
              && result.reason == if !result.rolledBack then RollbackFailed
                                  else if plane.Now().saved == Some(true) then ReadbackFailed else PersistFailed
  {
    var saved := plane.Save(decision);
    if !saved {
      result := RollbackRuntime(plane, receipt, PersistFailed);
      return;
    }
    var stored := plane.Lookup();
    if stored.None? || stored.value.revision != decision.revision || stored.value.route != decision.route
       || stored.value.kind != decision.kind {
      plane.Discard();
      result := RollbackRuntime(plane, receipt, ReadbackFailed);
      return;
    }
    result := CommitResult(true, false, Committed);
  }

  lemma {:induction false} FoundTag(routes: seq<Config.Route>, tag: string)
    ensures FindRoute(routes, tag).Some? ==> FindRoute(routes, tag).value.tag == tag && FindRoute(routes, tag).value in routes
  {
    if routes != [] && routes[0].tag != tag {
      FoundTag(routes[1..], tag);
    }
  }
}
