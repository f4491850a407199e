/** Coalescing of observed domains: bounded maps that decide as an unbounded history would. */
module Discovery {
  import opened Prelude

  const WINDOW: int := 1800
  const MAX_RECENT: nat := 512

  /** The subject of an observation: its registrable domain, or "" for none. */
  type Subject = string -> string

  datatype Start = Start(key: string, at: int)

  /** The decision that a full history makes: this subject was started too short a time ago. */
  predicate TooSoon(history: map<string, int>, key: string, now: int) {
    key in history && now - history[key] < WINDOW
  }

  ghost predicate Spaced(starts: seq<Start>) {
    forall i, j | 0 <= i < j < |starts| && starts[i].key == starts[j].key :: starts[j].at - starts[i].at >= WINDOW
  }

  /** Every start of a key is at least a window before `now`. */
  ghost predicate AllBefore(starts: seq<Start>, key: string, now: int) {
    forall s | s in starts && s.key == key :: now - s.at >= WINDOW
  }

  lemma SpacedSnoc(starts: seq<Start>, s: Start)
    requires Spaced(starts) && AllBefore(starts, s.key, s.at)
    ensures Spaced(starts + [s])
  {
    var more := starts + [s];
    forall i, j | 0 <= i < j < |more| && more[i].key == more[j].key ensures more[j].at - more[i].at >= WINDOW {
      if j == |starts| { assert more[i] in starts; }
    }
  }

  /** A bounded map that has forgotten only what is too old to matter. */
  ghost predicate Agrees(recent: map<string, int>, history: map<string, int>, clock: int) {
    && (forall k | k in recent :: k in history && recent[k] == history[k])
    && (forall k | k in history && k !in recent :: clock - history[k] >= WINDOW)
    && (forall k | k in history :: history[k] <= clock)
  }

  /** Where the starts of every key have gone. */
  ghost predicate Accounted(starts: seq<Start>, flights: map<string, int>, history: map<string, int>) {
    && Spaced(starts)
    && forall s | s in starts ::
         if s.key in flights then s.at <= flights[s.key] else s.key in history && s.at <= history[s.key]
  }

  /** The deletion loop of `finishDiscoveryObservation`. */
  method Prune(recent: map<string, int>, cutoff: int) returns (kept: map<string, int>)
    ensures forall k :: k in kept <==> k in recent && recent[k] >= cutoff
    ensures forall k | k in kept :: kept[k] == recent[k]
  {
    kept := recent;
    var names := recent.Keys;
    while names != {}
      invariant names <= kept.Keys <= recent.Keys
      invariant forall k | k in kept :: kept[k] == recent[k]
      invariant forall k | k in recent && k !in kept :: recent[k] < cutoff
      invariant forall k | k in kept && k !in names :: recent[k] >= cutoff
    {
      var name :| name in names;
      names := names - {name};
      if kept[name] < cutoff {
        kept := kept - {name};
      }
    }
  }

  lemma FinishAgrees(before: map<string, int>, after: map<string, int>, history: map<string, int>, key: string, at: int, clock: int)
    requires Agrees(before, history, clock) && at <= clock
    requires forall k | k in after :: k in before[key := at] && after[k] == before[key := at][k]
    requires forall k | k in before[key := at] && k !in after :: before[key := at][k] < at - WINDOW
    ensures Agrees(after, history[key := at], clock)
  {
  }

  lemma FinishAccounts(starts: seq<Start>, flights: map<string, int>, history: map<string, int>, key: string)
    requires Accounted(starts, flights, history) && key in flights
    ensures Accounted(starts, flights - {key}, history[key := flights[key]])
  {
    hide Spaced;
  }

  class Control {
    const subject: Subject
    const limit: nat
    var pending: set<string>
    var inFlight: set<string>
    var recent: map<string, int>
    var queue: seq<string>
    /** The domain that the worker has taken from the queue and not released. */
    var working: Option<string>

    // What an unbounded controller would remember.
    ghost var clock: int
    ghost var history: map<string, int>
    ghost var flights: map<string, int>
    ghost var starts: seq<Start>

    /** The subjects that are queued or being processed. */
    ghost function Busy(): seq<string>
      reads this
    {
      Keys(if working.Some? then [working.value] + queue else queue)
    }

    ghost function Keys(domains: seq<string>): seq<string> {
      if domains == [] then [] else [subject(domains[0])] + Keys(domains[1..])
    }

    /** The bounded maps agree with the history about everything that can still matter. */
    ghost predicate Remembers()
      reads this
    {
      && Agrees(recent, history, clock)
      && inFlight == flights.Keys && forall k | k in flights :: flights[k] <= clock
    }

    ghost predicate Valid()
      reads this
    {
      && Remembers() && Accounted(starts, flights, history)
      && |queue| <= limit
      && Distinct(Busy()) && (forall k :: k in pending <==> k in Busy())
      && "" !in pending
    }

    constructor (subject: Subject, limit: nat, now: int)
      ensures Valid() && this.subject == subject && this.limit == limit && starts == [] && clock == now
    {
      this.subject, this.limit := subject, limit;
      pending, inFlight, recent := {}, {}, map[];
      queue, working := [], None;
      clock, history, flights, starts := now, map[], map[], [];
    }

    /** The decision on the bounded map is the decision on the full history. */
    lemma SameDecision(key: string, now: int)
      requires Remembers() && now >= clock
      ensures TooSoon(recent, key, now) <==> TooSoon(history, key, now)
    {
    }

    lemma {:induction false} KeysSnoc(domains: seq<string>, d: string)
      ensures Keys(domains + [d]) == Keys(domains) + [subject(d)]
      ensures |Keys(domains)| == |domains|
    {
      if domains != [] {
        assert (domains + [d])[1..] == domains[1..] + [d];
        KeysSnoc(domains[1..], d);
      } else {
        assert [d][1..] == [];
      }
    }

    lemma DistinctSnoc(keys: seq<string>, k: string)
      requires Distinct(keys) && k !in keys
      ensures Distinct(keys + [k])
    {
    }

    /** `enqueueDiscoveryObservation`. */
    method Enqueue(domain: string, now: int) returns (accepted: bool, full: bool)
      requires Valid() && now >= clock
      modifies this`pending, this`queue, this`clock
      ensures Valid() && clock == now
      ensures var key := subject(domain);
              var free := key != "" && key !in old(pending) && key !in inFlight && !TooSoon(history, key, now);
              (accepted <==> free && |old(queue)| < limit) && (full <==> free && |old(queue)| >= limit)
      ensures queue == if accepted then old(queue) + [domain] else old(queue)
      ensures pending == if accepted then old(pending) + {subject(domain)} else old(pending)
    {
      SameDecision(subject(domain), now);
      clock := now;
      var key := subject(domain);
      if key == "" || key in pending || key in inFlight || TooSoon(recent, key, now) {
        return false, false;
      }
      if |queue| >= limit {
        return false, true;
      }
      ghost var before := Busy();
      ghost var all := if working.Some? then [working.value] + queue else queue;
      KeysSnoc(all, domain);
      DistinctSnoc(before, key);
      assert (if working.Some? then [working.value] + (queue + [domain]) else queue + [domain]) == all + [domain];
      queue := queue + [domain];
      pending := pending + {key};
      return true, false;
    }

    /** The worker takes the next observation. */
    method Take() returns (domain: Option<string>)
      requires Valid() && working.None?
      modifies this`queue, this`working
      ensures Valid()
      ensures if old(queue) == [] then domain == None && working == None && queue == []
              else domain == Some(old(queue)[0]) && working == domain && queue == old(queue)[1..]
    {
      if queue == [] {
        return None;
      }
      assert [queue[0]] + queue[1..] == queue;
      domain := Some(queue[0]);
      working, queue := Some(queue[0]), queue[1..];
    }

    /** `beginDiscoveryObservation`. */
    method Begin(domain: string, now: int) returns (ok: bool)
      requires Valid() && now >= clock
      modifies this`inFlight, this`clock, this`flights, this`starts
      ensures Valid() && clock == now
      ensures var key := subject(domain);
              ok <==> key != "" && key !in old(inFlight) && !TooSoon(history, key, now)
      ensures starts == if ok then old(starts) + [Start(subject(domain), now)] else old(starts)
      ensures flights == if ok then old(flights)[subject(domain) := now] else old(flights)
    {
      hide Distinct;
      SameDecision(subject(domain), now);
      clock := now;
      var key := subject(domain);
      if key == "" || key in inFlight || TooSoon(recent, key, now) {
        return false;
      }
      inFlight := inFlight + {key};
      SpacedSnoc(starts, Start(key, now));
      flights := flights[key := now];
      starts := starts + [Start(key, now)];
      return true;
    }

    /** `finishDiscoveryObservation` for a started observation; old entries go when there are too many. */
    method Finish(domain: string, observedAt: int)
      requires Valid() && subject(domain) in flights && observedAt == flights[subject(domain)]
      modifies this`inFlight, this`recent, this`history, this`flights
      ensures Valid() && history == old(history)[subject(domain) := observedAt]
      ensures flights == old(flights) - {subject(domain)}
      ensures |old(recent)[subject(domain) := observedAt]| > MAX_RECENT ==>
                forall k | k in recent :: observedAt - recent[k] <= WINDOW
    {
      hide Distinct, Agrees, Accounted, Keys, Spaced, AllBefore;
      ghost var before := recent;
      var key := subject(domain);
      FinishAccounts(starts, flights, history, key);
      inFlight := inFlight - {key};
      recent := recent[key := observedAt];
      if |recent| > MAX_RECENT {
        recent := Prune(recent, observedAt - WINDOW);
      }
      FinishAgrees(before, recent, history, key, observedAt, clock);
      history := history[key := observedAt];
      flights := flights - {key};
    }

    /** `releasePendingDiscovery`, after the worker is done with an observation. */
    method Release(domain: string)
      requires Valid() && working == Some(domain)
      modifies this`pending, this`working
      ensures Valid() && working == None && pending == old(pending) - {subject(domain)}
    {
      hide Agrees, Accounted;
      var key := subject(domain);
      assert ([domain] + queue)[1..] == queue;
      DistinctTail(key, Keys(queue));
      assert Busy() == [key] + Keys(queue);
      working := None;
      if key != "" {
        pending := pending - {key};
      }
    }

    lemma DistinctTail(k: string, rest: seq<string>)
      ensures Distinct([k] + rest) ==> Distinct(rest) && k !in rest
    {
      var all := [k] + rest;
      assert forall i | 0 <= i < |rest| :: rest[i] == all[i + 1];
      assert all[0] == k;
    }

    /** `discoverDomain`, around the checks it makes: nothing is done for a domain of a known service. */
    method Discover(domain: string, now: int, known: string -> bool) returns (started: bool)
      requires Valid() && flights == map[] && now >= clock
      modifies this`inFlight, this`recent, this`clock, this`flights, this`starts, this`history
      ensures Valid() && flights == map[] && clock >= old(clock)
      ensures started <==> !known(domain) && subject(domain) != "" && subject(domain) !in old(inFlight)
                           && !TooSoon(old(history), subject(domain), now)
      ensures started ==> starts == old(starts) + [Start(subject(domain), now)]
      ensures history == if started then old(history)[subject(domain) := now] else old(history)
      ensures !started ==> starts == old(starts)
    {
      hide Remembers, Accounted, Distinct, Valid, TooSoon;
      if known(domain) {
        return false;
      }
      started := Begin(domain, now);
      if started {
        Finish(domain, now);
      }
    }

    lemma NoFlightsIdle()
      requires Valid() && flights == map[]
      ensures inFlight == {}
    {
    }

    /** One turn of the discovery worker: take, discover, release. */
    method WorkOne(now: int, known: string -> bool) returns (started: bool)
      requires Valid() && working.None? && flights == map[] && now >= clock
      modifies this
      ensures Valid() && working.None? && flights == map[] && clock >= old(clock)
      ensures started <==>
                && old(queue) != [] && !known(old(queue)[0]) && subject(old(queue)[0]) != ""
                && !TooSoon(old(history), subject(old(queue)[0]), now)
      ensures started ==> starts == old(starts) + [Start(subject(old(queue)[0]), now)]
                          && history == old(history)[subject(old(queue)[0]) := now]
      ensures !started ==> starts == old(starts) && history == old(history)
      ensures old(queue) == [] ==> pending == old(pending) && queue == []
      ensures old(queue) != [] ==> pending == old(pending) - {subject(old(queue)[0])} && queue == old(queue)[1..]
    {
      hide Remembers, Accounted, Distinct, Valid, TooSoon;
      NoFlightsIdle();
      var domain := Take();
      if domain.None? {
        return false;
      }
      started := Discover(domain.value, now, known);
      Release(domain.value);
    }
  }
}
