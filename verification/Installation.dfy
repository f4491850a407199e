/**
 * What one controller drives: the durable store and the device behind the adapter. Every method is one
 * write or one adapter call; `up == false` says that power failed at it.
 */
module Installation {
  import opened Prelude
  import opened Patch
  import opened Adapter
  import opened Protocol
  import opened Runs

  /** What survives a crash: the bbolt store and the device. `events` is everything done to them. */
  class Plant {
    var store: Store
    var device: Device
    const codec: Codec
    /** The config of the baseline revision's row. */
    const baseline: Json
    ghost const start: World
    ghost var events: seq<Event>
    /** How often a write has failed, a file was not as written, a reply was false or not accepted, or the timer fired. */
    ghost var faults: nat

    ghost function Now(): World
      reads this
    {
      World(store, device)
    }

    ghost predicate Valid()
      reads this
    {
      && Initial(start) && start.store.activeConfig == baseline && IsRun(start, events, codec)
      && Now() == After(start, events, codec)
      && Inv(Now(), codec)
    }

    constructor (baseline: Json, codec: Codec)
      ensures Valid() && events == []
      ensures store.activeConfig == baseline && store.activeRevision == Baseline && store.version == 1
    {
      this.codec := codec;
      this.baseline := baseline;
      store := Store(map[], map[], baseline, Baseline, 1);
      device := Device(None, NoTrial, {});
      start := World(Store(map[], map[], baseline, Baseline, 1), Device(None, NoTrial, {}));
      events, faults := [], 0;
      new;
      InitialInv(start, codec);
    }

    ghost predicate Since(e: seq<Event>, f: nat)
      reads this
    {
      e <= events && f <= faults
    }

    /** Nothing but the device's own rollback timer has acted. */
    ghost predicate Idle(before: Device)
      reads this
    {
      device == before || device == MoveTimer(before)
    }

    /** The device has kept its trial or has none any more; what it has committed stays. */
    ghost predicate AtMostDropped(before: Device)
      reads this
    {
      device.committed == before.committed && (device.trial == before.trial || device.trial.NoTrial?)
    }

    method MaybeTimer()
      requires Valid()
      modifies this
      ensures Valid() && store == old(store) && Idle(old(device)) && Since(old(events), old(faults))
      ensures faults == old(faults) ==> device == old(device)
    {
      hide Inv, Enabled, Initial;
      var fires: bool := *;
      if fires {
        RunExtends(start, events, TimerFires, codec);
        StepKeepsInv(Now(), TimerFires, codec);
        device := MoveTimer(device);
        events, faults := events + [TimerFires], faults + 1;
      }
    }

    /** One atomic batch write. It may fail without effect, and power may fail just before or after it. */
    method Write(next: Store, ghost e: Event) returns (ok: bool, up: bool)
      requires Valid() && Enabled(Now(), e, codec) && IsWrite(e) && next == NextStore(store, e)
      modifies this
      ensures Valid() && Idle(old(device)) && Since(old(events), old(faults))
      ensures store == old(store) || store == next
      ensures up ==> store == if ok then next else old(store)
      ensures faults == old(faults) ==> device == old(device) && (up ==> ok)
    {
      hide Inv, Enabled, Initial, NextStore;
      ok := *;
      up := *;
      var reached: bool := *;
      if (if up then ok else reached) {
        RunExtends(start, events, e, codec);
        StepKeepsInv(Now(), e, codec);
        store := next;
        events := events + [e];
      }
      faults := faults + if ok then 0 else 1;
      MaybeTimer();
    }

    /** A write of rows that the model does not keep. */
    method WriteElsewhere() returns (ok: bool, up: bool)
      requires Valid()
      modifies this
      ensures Valid() && store == old(store) && Idle(old(device)) && Since(old(events), old(faults))
      ensures faults == old(faults) ==> device == old(device) && ok
    {
      ok := *;
      up := *;
      faults := faults + if ok then 0 else 1;
      MaybeTimer();
    }

    /** An adapter call that moves nothing the protocol depends on. */
    method Ask(step: Step) returns (r: StepResult, up: bool)
      requires Valid()
      modifies this
      ensures Valid() && store == old(store) && Idle(old(device)) && Since(old(events), old(faults))
      ensures r.step == step && (faults == old(faults) ==> device == old(device))
    {
      r := *;
      r := r.(step := step);
      up := *;
      MaybeTimer();
    }

    method Call(id: ChangeId, moved: Device, ghost e: Event)
      requires Valid() && Enabled(Now(), e, codec) && !IsWrite(e) && moved == NextDevice(Now(), e)
      modifies this
      ensures Valid() && store == old(store) && device == moved && Since(old(events), old(faults)) && faults == old(faults)
    {
      hide Inv, Initial, Enabled, NextDevice, MovePrepare, MoveApply, MoveActivate, MoveFinalize, MoveRollback, MoveReconcile, MoveTimer;
      RunExtends(start, events, e, codec);
      StepKeepsInv(Now(), e, codec);
      device := moved;
      events := events + [e];
    }

    method Prepare(id: ChangeId) returns (r: StepResult, up: bool)
      requires Valid() && InState(store, id, Validated)
      modifies this
      ensures Valid() && store == old(store) && Since(old(events), old(faults))
      ensures r.step == Step.Prepare
    {
      hide Inv, Initial, IsRun, After;
      var took: bool := *;
      Call(id, if took then MovePrepare(device, store.changes[id].binding) else device, CallPrepare(id, took));
      r, up := Ask(Step.Prepare);
    }

    /** An apply reported as skipped or unverified has not taken effect; one that is proved has. */
    method Apply(id: ChangeId) returns (r: StepResult, up: bool)
      requires Valid() && InState(store, id, Applying)
      modifies this
      ensures Valid() && store == old(store) && Since(old(events), old(faults))
      ensures r.step == ApplyCandidate
      ensures (r.status == "SKIPPED" || r.status == "UNVERIFIED") ==>
                !(Live(device.trial) && OnTrial(device, store.changes[id].binding))
      ensures faults == old(faults) && ProvesApply(r, store.changes[id].binding) ==>
                InEffect(device) == Some(store.changes[id].binding)
    {
      hide Inv, Initial, IsRun, After;
      var took: bool := *;
      var b := store.changes[id].binding;
      Call(id, if took then MoveApply(device, b) else device, CallApply(id, took));
      r, up := Ask(ApplyCandidate);
      if Live(device.trial) && OnTrial(device, b) && (r.status == "SKIPPED" || r.status == "UNVERIFIED") {
        r := r.(status := "ERROR", ok := false);
      }
      faults := faults + if ProvesApply(r, b) && InEffect(device) != Some(b) then 1 else 0;
    }

    /** Never commits, and is only believed while the activation can still be undone. */
    method CommitPrepared(id: ChangeId) returns (r: StepResult, up: bool)
      requires Valid() && InState(store, id, Committing) && !ControlPlaneDurable(store, id)
      modifies this
      ensures Valid() && store == old(store) && Since(old(events), old(faults))
      ensures r.step == Step.CommitPrepared && device.committed == old(device.committed)
      ensures PreparedAccepted(r, store.changes[id].binding) ==> store.changes[id].binding in device.activated
      ensures faults == old(faults) ==>
                PreparedAccepted(r, store.changes[id].binding) && device.trial == Activated(store.changes[id].binding)
    {
      hide Inv, Initial, IsRun, After;
      var took: bool := *;
      var b := store.changes[id].binding;
      Call(id, if took then MoveActivate(device, b) else device, CallCommitPrepared(id, took));
      var activated := device.trial == Activated(b) && b in device.activated;
      r, up := Ask(Step.CommitPrepared);
      if !activated && PreparedAccepted(r, b) {
        r := r.(ok := false);
      }
      faults := faults + if PreparedAccepted(r, b) then 0 else 1;
    }

    /** The only call that commits; it is believed only after it has. */
    method FinalizeCommit(id: ChangeId) returns (r: StepResult, up: bool)
      requires Valid() && PendingFinalize(store, id)
      modifies this
      ensures Valid() && store == old(store) && Since(old(events), old(faults))
      ensures r.step == Step.FinalizeCommit
      ensures FinalizedAccepted(r, store.changes[id].binding) ==> device.committed == Some(store.changes[id].binding)
      ensures faults == old(faults) ==> FinalizedAccepted(r, store.changes[id].binding)
    {
      hide Inv, Initial, IsRun, After;
      var took: bool := *;
      var b := store.changes[id].binding;
      Call(id, if took then MoveFinalize(device, b) else device, CallFinalize(id, took));
      r, up := Ask(Step.FinalizeCommit);
      if device.committed != Some(b) && FinalizedAccepted(r, b) {
        r := r.(ok := false);
      }
      faults := faults + if FinalizedAccepted(r, b) then 0 else 1;
    }

    /** Idempotent; a reply that is accepted, or an OK of an adapter without a protocol, means undone. */
    method Rollback(id: ChangeId) returns (r: StepResult, up: bool)
      requires Valid() && MayRollBack(store, id)
      modifies this
      ensures Valid() && store == old(store) && Since(old(events), old(faults))
      ensures r.step == Step.Rollback && AtMostDropped(old(device))
      ensures RollbackBelieved(r, store.changes[id].binding) ==> !OnTrial(device, store.changes[id].binding)
      ensures faults == old(faults) ==>
                RollbackBelieved(r, store.changes[id].binding) && device == MoveRollback(old(device), store.changes[id].binding)
    {
      hide Inv, Initial, IsRun, After;
      var took: bool := *;
      var b := store.changes[id].binding;
      Call(id, if took then MoveRollback(device, b) else device, CallRollback(id, took));
      r, up := Ask(Step.Rollback);
      if OnTrial(device, b) {
        r := r.(ok := false);
      }
      faults := faults + if RollbackBelieved(r, b) then 0 else 1;
    }

    /** A file of a transaction, which may be gone or changed. */
    method FileIntact() returns (intact: bool)
      requires Valid()
      modifies this`faults
      ensures Valid() && Since(old(events), old(faults)) && (faults == old(faults) ==> intact)
    {
      intact := *;
      faults := faults + if intact then 0 else 1;
    }

    /** The boot guard has to be seen gone. */
    method ClearGuard() returns (ok: bool, up: bool)
      requires Valid()
      modifies this
      ensures Valid() && store == old(store) && Idle(old(device)) && Since(old(events), old(faults))
      ensures faults == old(faults) ==> device == old(device) && ok
    {
      var r;
      r, up := Ask(ClearBootGuard);
      ok := StepOK(r);
      faults := faults + if ok then 0 else 1;
    }

    /** A reachable adapter reports the deployment in effect; an unreachable one proves nothing. */
    method Status(reachable: bool) returns (r: StepResult, up: bool)
      requires Valid()
      modifies this
      ensures Valid() && store == old(store) && Idle(old(device)) && Since(old(events), old(faults))
      ensures forall b :: ActiveMatches(r, b) ==> InEffect(old(device)) == Some(b)
      ensures forall b :: reachable && InEffect(old(device)) == Some(b) ==> ActiveMatches(r, b)
      ensures !reachable ==> forall b :: !ActiveMatches(r, b)
      ensures forall name :: StepOK(r) && ReportsState(r, name) ==> name == StateName(old(device))
      ensures reachable ==> ReportsState(r, StateName(old(device)))
      ensures faults == old(faults) ==> device == old(device)
    {
      hide Inv, Initial;
      ghost var before := device;
      var report: map<Field, Evidence> := map[StateField := Word(StateName(device))];
      var live := InEffect(device);
      if live.Some? {
        report := report[ActiveTransaction := TxValue(live.value.tx)][ActiveRevision := RevValue(live.value.rev)]
                        [ActiveHash := HashValue(live.value.hash)][ActiveManifest := ManifestValue(live.value.manifest)];
      }
      r, up := Ask(Step.Status);
      r := r.(evidence := report, ok := reachable && r.ok, status := "OK");
      if reachable {
        r := r.(ok := true);
      }
    }

    /** Restores the committed deployment; an OK reply needs the target to be that deployment. */
    method Reconcile(target: Binding) returns (r: StepResult, up: bool)
      requires Valid()
      modifies this
      ensures Valid() && store == old(store) && Since(old(events), old(faults))
      ensures device.committed == old(device.committed)
      ensures StepOK(r) ==> device.committed == Some(target)
      ensures faults == old(faults) && device.committed == Some(target) ==> StepOK(r) && device == MoveReconcile(old(device))
    {
      hide Inv, Initial, IsRun, After;
      var took: bool := *;
      took := took && device.committed == Some(target);
      Call(target.tx.change, if took then MoveReconcile(device) else device, CallReconcile(took));
      r, up := Ask(Step.Reconcile);
      if !took {
        r := r.(ok := false);
      }
      faults := faults + if device.committed == Some(target) && !StepOK(r) then 1 else 0;
    }
  }
}
