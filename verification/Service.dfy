/** The controller over its whole life: starts, requests, and power failures anywhere. */
module Service {
  import opened Prelude
  import opened Patch
  import opened Adapter
  import opened Protocol
  import opened Runs
  import opened Installation
  import opened Controller
  import opened Recovery

  /**
   * What reaches the controller, with what the files, the clock and the adapter will answer. A validation
   * comes in two halves, with any other requests in between; `Recover` is the recovery that a deferred start
   * leaves to the scheduler.
   */
  datatype Request =
    | Create(id: ChangeId, base: int, ops: seq<ChangeOp>)
    | StartValidation(id: ChangeId)
    | EndValidation(id: ChangeId, admissible: bool, files: Option<Artifacts>)
    | Apply(id: ChangeId, intact: bool, reachable: bool)
    | Confirm(id: ChangeId, answers: Answers)
    | Undo(id: ChangeId, expired: bool, capable: bool)
    | Recover(reachable: bool, restores: bool)
    | Restart

  /** The readings of the validations under way, each of which holds the action lock of its change. */
  type Readings = map<ChangeId, Reading>

  ghost predicate Usable(store: Store, readings: Readings) {
    forall id | id in readings ::
      readings[id].id == id && ReadingOk(store, readings[id]) && readings[id].config.Object?
  }

  /** A controller that has not checked the active deployment yet has only been refusing. */
  ghost predicate Untouched(s: Server, readings: Readings)
    reads s, s.plant
  {
    s.recovery == Starting ==> s.InStep() && NoneCommitting(s.changes) && readings == map[]
  }

  /**
   * `recoverCommittedDataplane`, then the route assignments of the active revision: the fence is open
   * exactly when the deployment was proved and they could be restored.
   */
  method CheckDeployment(s: Server, reachable: bool, restores: bool) returns (proved: bool, up: bool)
    requires s.plant.Valid() && s.InStep() && NoneCommitting(s.changes) && !AllowsMutation(s.recovery)
    modifies s`recovery, s.plant
    ensures s.plant.Valid() && s.plant.store == old(s.plant.store)
    ensures up ==> s.Valid() && s.recovery != Starting
    ensures up ==> (AllowsMutation(s.recovery) <==> proved && restores)
    ensures up && proved && restores ==> ActiveProven(s.plant.store, s.plant.device.committed, s.plant.baseline)
    ensures s.plant.Since(old(s.plant.events), old(s.plant.faults))
    ensures up && s.plant.faults == old(s.plant.faults) ==> (proved <==> s.activeRevision == Baseline || reachable)
  {
    hide Inv, Initial, IsRun, After, Plant.Valid, ActiveProven, NoneCommitting, AwaitsFinalize;
    NotAwaiting(s.plant.store);
    up := RecoverCommittedDataplane(s, reachable);
    proved := AllowsMutation(s.recovery);
    if up && proved && !restores {
      var written;
      written, up := SetRecovery(s, RecoveryFailed);
    }
  }

  lemma NotAwaiting(s: Store)
    requires NoneCommitting(s.changes)
    ensures !AwaitsFinalize(s)
  {
  }

  /**
   * A process start: interrupted changes first, then the committed deployment, unless that is deferred.
   * No process on an error; with a stuck commit there never is one. While nothing fails there is one
   * exactly when no commit is stuck and the adapter answers about one past its boundary, and its fence is
   * open when the check was not deferred, the adapter answered and the assignments were restored.
   */
  method Boot(plant: Plant, development: bool, deferred: bool, answers: ChangeId -> bool, expired: set<ChangeId>,
              reachable: bool, restores: bool)
    returns (s: Server?, up: bool)
    requires plant.Valid()
    modifies plant
    ensures plant.Valid()
    ensures s != null ==> up && fresh(s) && s.plant == plant && s.Valid()
    ensures s != null ==> s.InStep() && NoneCommitting(s.changes)
    ensures s != null ==>
              AllEndAs(old(plant.Now()), plant.store.changes, answers, expired, {}, plant.faults == old(plant.faults))
    ensures s != null && AllowsMutation(s.recovery) ==>
              !deferred && ActiveProven(plant.store, plant.device.committed, plant.baseline)
    ensures old(SomeStuck(plant.Now())) ==> s == null
    ensures up && plant.faults == old(plant.faults) ==>
              (s != null <==> !old(SomeStuck(plant.Now())) && old(AllAnswer(plant.store.changes, answers)))
    ensures s != null && plant.faults == old(plant.faults) ==>
              (AllowsMutation(s.recovery) <==> !deferred && restores && (s.activeRevision == Baseline || reachable))
  {
    hide Inv, Initial, IsRun, After, Plant.Valid, ActiveProven, NoneCommitting, SomeStuck, AllEndAs, AllAnswer;
    hide AllKeptOrDropped;
    ghost var first, faults := plant.Now(), plant.faults;
    var server := new Server(plant, development);
    s := null;
    var ok;
    ok, up := RecoverTransactions(server, answers, expired);
    if !up || !ok {
      return;
    }
    ghost var settled := plant.faults == faults;
    if deferred {
      var written;
      written, up := SetRecovery(server, Starting);
    } else {
      var proved;
      proved, up := CheckDeployment(server, reachable, restores);
    }
    if plant.faults != faults && settled {
      FewerPromises(first, plant.store.changes, answers, expired);
    }
    s := if up then server else null;
  }

  lemma FewerPromises(first: World, changes: map<ChangeId, Change>, answers: ChangeId -> bool, expired: set<ChangeId>)
    requires AllEndAs(first, changes, answers, expired, {}, true)
    ensures AllEndAs(first, changes, answers, expired, {}, false)
  {
  }

  /** The other validations under way are not disturbed by an operation on a change that is not validating. */
  lemma ReadingsKept(before: Store, after: Store, id: ChangeId, readings: Readings)
    requires Usable(before, readings) && OthersKept(before, after, id)
    ensures Usable(after, readings - {id})
  {
    hide ReadingOk, OthersKept;
    forall other | other in readings && other != id ensures ReadingOk(after, readings[other]) {
      ReadingKept(before, after, id, readings[other]);
    }
  }

  /** The request is granted if every write works, every reply is true and the device keeps its trial. */
  ghost predicate Granted(s: Server, r: Request, readings: Readings)
    requires Usable(s.plant.store, readings)
    reads s, s.plant
  {
    match r
    case Create(id, base, _) =>
      id !in readings && id !in s.changes && id !in s.plant.store.changes && AllowsMutation(s.recovery) && base == s.version
    case StartValidation(id) =>
      && id !in readings && id in s.changes && AllowsMutation(s.recovery)
      && s.changes[id].state == Draft && s.changes[id].base == s.version && s.activeConfig.Object?
    case EndValidation(id, admissible, files) => id in readings && s.Verdict(readings[id], admissible, files).Some?
    case Apply(id, intact, reachable) =>
      && id !in readings && id in s.changes
      && match s.OnApply(id, intact) {
           case RefuseApply => false
           case CommitNoop => s.NoopHolds(s.changes[id], reachable)
           case _ => true
         }
    case Confirm(id, answers) => id !in readings && id in s.changes && s.OnConfirmation(id, answers) in {Fail, Commit}
    case Undo(id, _, capable) => id !in readings && id in s.changes && s.OnUndo(id, capable) in {Undone, UndoDecision.Undo}
    case Recover(reachable, restores) =>
      s.recovery == Starting && restores && (s.activeRevision == Baseline || reachable)
    case Restart => false
  }

  /** One request on a change that is not being validated; `up` is false when power fails during it. */
  method Act(s: Server, r: Request, ghost readings: Readings) returns (ok: bool, up: bool)
    requires s.Valid() && Usable(s.plant.store, readings)
    requires (r.Create? || r.Apply? || r.Confirm? || r.Undo?) && r.id !in readings
    modifies s, s.plant
    ensures s.plant.Valid() && (up ==> s.Valid() && Usable(s.plant.store, readings))
    ensures !old(AllowsMutation(s.recovery)) ==>
              up && s.plant.store == old(s.plant.store) && s.recovery == old(s.recovery) && s.changes == old(s.changes)
              && (old(s.InStep()) ==> s.InStep())
    ensures up && s.recovery == Starting ==> old(s.recovery) == Starting
    ensures s.plant.faults == old(s.plant.faults) && up ==> (ok <==> old(Granted(s, r, readings)))
  {
    hide Inv, Initial, IsRun, After, Plant.Valid, OnlyRowsOf, NoneCommitting, ReadingOk, OthersKept, Usable;
    ok, up := false, true;
    ghost var before := s.plant.store;
    assert readings - {r.id} == readings;
    OnlyRowsKeepsOthers(before, before, r.id);
    match r {
      case Create(id, base, ops) =>
        if id !in s.changes && id !in s.plant.store.changes {
          ok, up := s.CreateDraft(id, base, ops);
        }
      case Apply(id, intact, reachable) =>
        if id in s.changes {
          var replies;
          replies, ok, up := s.ApplyChangeSet(id, intact, reachable);
          if up { OnlyRowsKeepsOthers(before, s.plant.store, id); }
        }
      case Confirm(id, answers) =>
        if id in s.changes {
          ok, up := s.ConfirmChangeSet(id, answers);
        }
      case Undo(id, expired, capable) =>
        if id in s.changes {
          ok, up := s.RollbackChangeSet(id, expired, capable);
          if up { OnlyRowsKeepsOthers(before, s.plant.store, id); }
        }
      case _ =>
    }
    if up {
      ReadingsKept(before, s.plant.store, r.id, readings);
    }
  }

  /** The second half of a validation, whatever has happened since the first. */
  method EndValidation(s: Server, readings: Readings, id: ChangeId, admissible: bool, files: Option<Artifacts>)
    returns (ok: bool, up: bool)
    requires s.Valid() && Usable(s.plant.store, readings) && id in readings && s.recovery != Starting
    modifies s`changes, s.plant
    ensures s.plant.Valid() && (up ==> s.Valid() && Usable(s.plant.store, readings - {id}))
    ensures s.plant.faults == old(s.plant.faults) && up ==>
              (ok <==> old(Granted(s, Request.EndValidation(id, admissible, files), readings)))
  {
    hide Inv, Initial, IsRun, After, Plant.Valid, OnlyRowsOf, NoneCommitting, ReadingOk, OthersKept;
    ghost var before := s.plant.store;
    ok, up := s.FinishValidate(readings[id], admissible, files);
    if up {
      OnlyRowsKeepsOthers(before, s.plant.store, id);
      ReadingsKept(before, s.plant.store, id, readings);
    }
  }

  /**
   * One request; `up` is false when power fails during it. A closed fence refuses it and stays closed; only a
   * validation that has started before still ends, and the deferred recovery may open the fence. While
   * nothing fails, exactly the requests that are to be granted are.
   */
  method Handle(s: Server, r: Request, readings: Readings) returns (ok: bool, up: bool, readings': Readings)
    requires s.Valid() && Usable(s.plant.store, readings) && Untouched(s, readings)
    modifies s, s.plant
    ensures s.plant.Valid() && (up ==> s.Valid() && Usable(s.plant.store, readings') && Untouched(s, readings'))
    ensures !old(AllowsMutation(s.recovery)) && !r.EndValidation? && !r.Recover? ==>
              s.plant.store == old(s.plant.store) && s.recovery == old(s.recovery)
    ensures r.Recover? ==> s.plant.store == old(s.plant.store)
    ensures r.Recover? && up && AllowsMutation(s.recovery) && !old(AllowsMutation(s.recovery)) ==>
              ActiveProven(s.plant.store, s.plant.device.committed, s.plant.baseline)
    ensures r.StartValidation? ==> up
    ensures r.Restart? ==> !up
    ensures s.plant.faults == old(s.plant.faults) && up ==> (ok <==> old(Granted(s, r, readings)))
    ensures up && r.StartValidation? ==> (r.id in readings' <==> r.id in readings || ok)
    ensures up && r.EndValidation? ==> readings' == readings - {r.id}
    ensures up && r.Recover? && ok ==> AllowsMutation(s.recovery)
  {
    hide Inv, Initial, IsRun, After, Plant.Valid, NoneCommitting, ReadingOk, ActiveProven;
    ok, up, readings' := false, true, readings;
    match r {
      case Restart =>
        up := false;
      case Recover(reachable, restores) =>
        if s.recovery == Starting {
          var proved;
          proved, up := CheckDeployment(s, reachable, restores);
          ok := proved && restores;
        }
      case StartValidation(id) =>
        if id !in readings && id in s.changes {
          var reading := s.BeginValidate(id);
          if reading.Some? && reading.value.config.Object? {
            ok, readings' := true, readings[id := reading.value];
          }
        }
      case EndValidation(id, admissible, files) =>
        if id in readings {
          ok, up := EndValidation(s, readings, id, admissible, files);
          readings' := readings - {id};
        }
      case _ =>
        if r.id !in readings {
          ok, up := Act(s, r, readings);
        }
    }
  }

  /**
   * Any list of requests, validations interleaved with other requests, with a process start after every
   * power failure and every failed start. The whole life of the installation is one run of the protocol,
   * so that every theorem about runs holds of it; while a process lives, its open fence means that memory
   * and store agree.
   */
  method Serve(plant: Plant, requests: seq<Request>)
    requires plant.Valid()
    modifies plant
    ensures plant.Valid()
    ensures NeverAhead(plant.Now())
    ensures var history := CommittedOps(plant.start, plant.events, plant.codec);
            && plant.store.version == 1 + |history|
            && Rebuilt(plant.baseline, history, plant.codec) == Some(plant.store.activeConfig)
  {
    hide Inv, Initial, IsRun, After, CommittedOps, Rebuilt, NeverAhead, ReadingOk;
    var s: Server? := null;
    var readings: Readings := map[];
    var i := 0;
    while i < |requests|
      invariant plant.Valid()
      invariant s != null ==> fresh(s) && s.plant == plant && s.Valid()
      invariant s != null ==> Usable(plant.store, readings) && Untouched(s, readings)
    {
      if s == null {
        var expired: set<ChangeId>, answers: bool, deferred: bool, restores: bool := *, *, *, *;
        var up;
        readings := map[];
        s, up := Boot(plant, false, deferred, _ => answers, expired, answers, restores);
      }
      if s != null {
        var ok, up;
        ok, up, readings := Handle(s, requests[i], readings);
        if !up {
          s := null;
        }
      }
      i := i + 1;
    }
    SplitCommitSafety(plant.start, plant.events, plant.codec);
    LinearHistory(plant.start, plant.events, plant.codec);
  }
}
