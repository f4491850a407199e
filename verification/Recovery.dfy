/** What a controller does when it starts: it settles interrupted changes, then checks the active deployment. */
module Recovery {
  import opened Prelude
  import opened Patch
  import opened Adapter
  import opened Protocol
  import opened Runs
  import opened Installation
  import opened Controller

  // ---- one interrupted change ----

  lemma InFlightOwns(w: World, id: ChangeId, codec: Codec)
    requires Inv(w, codec) && id in w.store.changes && InFlight(w.store.changes[id].state)
    ensures Owner(w.store, id)
  {
    hide OneForward, ActiveOk, CommittedOk, SettledOk, TrialOk, DossierOk, CandidateOk, PhaseOk;
    assert ChangeOk(w.store, id, codec);
  }

  lemma PlantInv(p: Plant)
    requires p.Valid()
    ensures Inv(p.Now(), p.codec)
  {
  }

  /** The device can only have committed a committing change whose control-plane commit is durable. */
  lemma NoSplitBrain(w: World, id: ChangeId, codec: Codec)
    requires Inv(w, codec) && InState(w.store, id, Committing)
    requires w.device.committed == Some(w.store.changes[id].binding)
    ensures PastBoundary(w.store.changes[id].phase)
  {
    hide OneForward, TrialOk, CandidateOk, SettledOk, PhaseOk;
    assert ChangeOk(w.store, id, codec);
    if w.store.activeRevision.Rev? && Owner(w.store, w.store.activeRevision.change) {
      assert ChangeOk(w.store, w.store.activeRevision.change, codec);
    }
  }

  lemma DurableIsActive(w: World, id: ChangeId, codec: Codec)
    requires Inv(w, codec) && PendingFinalize(w.store, id)
    ensures w.store.activeRevision == Rev(id) && id in w.store.dossiers
    ensures w.store.version == w.store.changes[id].base + 1
  {
    hide OneForward, TrialOk, CandidateOk, SettledOk, CommittedOk;
    assert ChangeOk(w.store, id, codec);
  }

  lemma CommittedInEffect(d: Device, b: Binding)
    requires InEffect(d) == Some(b) && StateName(d) == "committed"
    ensures d.committed == Some(b)
  {
  }

  /** `finalizeRecoveredCommit`. */
  method FinalizeRecovered(s: Server, id: ChangeId, steps: seq<StepResult>) returns (ok: bool, up: bool)
    requires s.plant.Valid() && s.InStep() && MayComplete(s.plant.Now(), id, steps)
    modifies s, s.plant
    ensures s.plant.Valid() && s.recovery == old(s.recovery)
    ensures up && ok ==> s.Deployed(id) && s.changes - {id} == old(s.changes) - {id}
    ensures s.plant.Since(old(s.plant.events), old(s.plant.faults)) && (s.plant.faults == old(s.plant.faults) && up ==> ok)
  {
    hide Inv, Initial, IsRun, After, ControlPlaneDurable, WriteCompletion, WriteRecoveredCompletion;
    var intact := s.plant.FileIntact();
    if !intact {
      return false, true;
    }
    ghost var before := s.changes;
    CompletionKeepsInv(s.plant.Now(), id, steps, s.plant.codec);
    CompletionRows(s.plant.store, id, steps);
    DurableIsActive(s.plant.Now(), id, s.plant.codec);
    var c := s.changes[id];
    ok, up := s.plant.Write(WriteRecoveredCompletion(s.plant.store, id, steps), SaveRecoveredCompletion(id, steps));
    if !up || !ok {
      return;
    }
    ok, up := s.ClearGuard();
    if ok {
      s.changes := s.changes[id := CompletedChange(c, steps)];
      assert s.changes - {id} == before - {id};
    }
  }

  /** A change that recovery has left alone or brought to rest. */
  predicate AtRest(c: Change) {
    !InFlight(c.state) || c.state == AwaitingConfirmation
  }

  /** An unexpired trial that the reachable device still runs. */
  ghost predicate StillOnTrial(c: Change, d: Device, reachable: bool, expired: bool) {
    c.state == AwaitingConfirmation && reachable && !expired && InEffect(d) == Some(c.binding)
  }

  /** The state recovery ends in for a change that was `c`; `kept` says that its trial still runs and has time left. */
  function FinalState(c: Change, kept: bool, expired: bool): State {
    if !InFlight(c.state) then c.state
    else if c.state == Committing && PastBoundary(c.phase) then Committed
    else if c.state == AwaitingConfirmation && kept then AwaitingConfirmation
    else if c.state == AwaitingConfirmation && expired then Expired
    else RolledBack
  }

  /** A commit that was past its durable boundary when the process stopped. */
  method RecoverDurable(s: Server, id: ChangeId, activated: bool) returns (ok: bool, up: bool)
    requires s.plant.Valid() && s.InStep() && PendingFinalize(s.plant.store, id)
    requires !activated ==> s.plant.device.committed == Some(s.plant.store.changes[id].binding)
    requires !AllowsMutation(s.recovery)
    modifies s, s.plant
    ensures s.plant.Valid() && !AllowsMutation(s.recovery)
    ensures up && ok ==> s.Deployed(id) && s.changes - {id} == old(s.changes) - {id}
    ensures s.plant.Since(old(s.plant.events), old(s.plant.faults)) && (s.plant.faults == old(s.plant.faults) && up ==> ok)
  {
    hide Inv, Initial, IsRun, After, Plant.Valid, ControlPlaneDurable, FinalizedAccepted;
    var c := s.changes[id];
    if activated {
      var finalized;
      ok := false;
      finalized, up := s.plant.FinalizeCommit(id);
      if !up {
        return;
      }
      if !FinalizedAccepted(finalized, c.binding) {
        s.recovery := RecoveryRequired;
        return;
      }
      ok, up := FinalizeRecovered(s, id, c.steps + [finalized]);
    } else {
      ok, up := FinalizeRecovered(s, id, c.steps);
    }
    if !ok {
      s.recovery := RecoveryRequired;
    }
  }

  /** If the change is past its boundary, the adapter can be asked about it. */
  predicate Answers(c: Change, reachable: bool) {
    c.state == Committing && PastBoundary(c.phase) ==> reachable
  }

  /** If the change is past its boundary, the device runs it, and it can still be finished. */
  ghost predicate Fine(c: Change, d: Device) {
    c.state == Committing && PastBoundary(c.phase) ==>
      && InEffect(d) == Some(c.binding)
      && (d.trial == Activated(c.binding) || (d.committed == Some(c.binding) && StateName(d) == "committed"))
  }

  lemma FineReports(c: Change, d: Device)
    requires c.state == Committing && PastBoundary(c.phase) && Fine(c, d)
    ensures StateName(d) == "adapter_activated" || StateName(d) == "committed"
  {
  }

  /** A committing change that the adapter reports as active: finished, fenced, or left to be rolled back. */
  method RecoverCommitting(s: Server, id: ChangeId, c: Change, status: StepResult, ghost before: World)
    returns (settled: bool, ok: bool, up: bool)
    requires s.plant.Valid() && s.InStep() && InState(s.plant.store, id, Committing) && s.changes[id] == c
    requires id in s.plant.store.dossiers && Owner(s.plant.store, id) && !AllowsMutation(s.recovery)
    requires Inv(before, s.plant.codec) && before.store == s.plant.store && s.plant.Idle(before.device)
    requires ActiveMatches(status, c.binding) && InEffect(before.device) == Some(c.binding)
    requires forall name :: StepOK(status) && ReportsState(status, name) ==> name == StateName(before.device)
    requires ReportsState(status, StateName(before.device))
    modifies s, s.plant
    ensures s.plant.Valid() && !AllowsMutation(s.recovery)
    ensures !settled ==> !ok && up && s.InStep() && s.changes == old(s.changes) && s.plant.store == old(s.plant.store)
    ensures !settled ==> s.plant.device == old(s.plant.device)
    ensures settled && up && ok ==> s.InStep() && id in s.changes && s.changes[id].state == Committed
    ensures settled && up && ok ==> s.changes - {id} == old(s.changes) - {id}
    ensures s.plant.Since(old(s.plant.events), old(s.plant.faults))
    ensures PastBoundary(c.phase) && Fine(c, before.device) ==> settled && (s.plant.faults == old(s.plant.faults) && up ==> ok)
    ensures !PastBoundary(c.phase) ==> !settled
  {
    hide Inv, Initial, IsRun, After, Plant.Valid, ActiveMatches, InEffect, StateName, ReportsState, StepOK;
    OwnerFacts(before, id, s.plant.codec);
    if PastBoundary(c.phase) && Fine(c, before.device) { FineReports(c, before.device); }
    var phase := s.plant.store.dossiers[id].tx.phase;
    var durable := phase == ControlPlaneCommitted || phase == FinalizeAmbiguous;
    var activated := ReportsState(status, "adapter_activated");
    var committed := ReportsState(status, "committed");
    if committed {
      ActiveMeansOK(status, c.binding);
      CommittedInEffect(before.device, c.binding);
      NoSplitBrain(before, id, s.plant.codec);
    }
    settled, ok, up := true, false, true;
    if phase == NoPhase && committed {
      assert false;
    } else if durable && (activated || committed) {
      ok, up := RecoverDurable(s, id, activated);
      return;
    } else if phase == AdapterActivated && activated {
      // Rollback is still available.
    } else if committed {
      assert false;
    }
    if phase == ControlPlaneCommitted {
      s.recovery := RecoveryRequired;
      return;
    }
    settled := false;
  }

  /** A change that is not finished: a live trial is left alone, anything else before the boundary is undone. */
  method RecoverRest(s: Server, id: ChangeId, matches: bool, expired: bool) returns (ok: bool, up: bool)
    requires s.plant.Valid() && s.InStep() && id in s.changes && InFlight(s.changes[id].state)
    requires !AllowsMutation(s.recovery)
    modifies s, s.plant
    ensures s.plant.Valid() && (up ==> !AllowsMutation(s.recovery))
    ensures up && ok ==> s.InStep() && id in s.changes && AtRest(s.changes[id])
    ensures up && ok ==> s.changes - {id} == old(s.changes) - {id}
    ensures up && ok ==> s.changes[id].state == FinalState(old(s.changes[id]), matches && !expired, expired)
    ensures up && ok ==> !(old(s.changes[id].state) == Committing && PastBoundary(old(s.changes[id].phase)))
    ensures up && old(s.changes[id].state) == AwaitingConfirmation && matches && !expired ==> ok
    ensures up && ok && InFlight(s.changes[id].state) ==>
              s.plant.store == old(s.plant.store) && s.changes == old(s.changes)
    ensures s.plant.AtMostDropped(old(s.plant.device)) && s.plant.Since(old(s.plant.events), old(s.plant.faults))
    ensures s.plant.faults == old(s.plant.faults) && up ==>
              && (ok <==> !(old(s.changes[id].state) == Committing && PastBoundary(old(s.changes[id].phase))))
              && (s.plant.device == old(s.plant.device)
                  || s.plant.device == MoveRollback(old(s.plant.device), old(s.changes[id].binding)))
  {
    hide Inv, Initial, IsRun, After, Plant.Valid;
    hide OnTrial, MayComplete;
    PlantInv(s.plant);
    InFlightOwns(s.plant.Now(), id, s.plant.codec);
    OwnerFacts(s.plant.Now(), id, s.plant.codec);
    var c := s.changes[id];
    var phase := s.plant.store.dossiers[id].tx.phase;
    if c.state == AwaitingConfirmation && matches && !expired {
      return true, true;
    }
    if c.state == Committing && (phase == ControlPlaneCommitted || phase == FinalizeAmbiguous) {
      s.recovery := RecoveryRequired;
      return false, true;
    }
    var final := if c.state == AwaitingConfirmation && expired then Expired else RolledBack;
    ok, up := s.RollbackLocked(id, c, final);
  }

  /** One turn of the loop of `recoverTransactions`. */
  method RecoverChange(s: Server, id: ChangeId, reachable: bool, expired: bool) returns (ok: bool, up: bool)
    requires s.plant.Valid() && s.InStep() && id in s.changes && InFlight(s.changes[id].state)
    requires !AllowsMutation(s.recovery)
    modifies s, s.plant
    ensures s.plant.Valid() && (up ==> !AllowsMutation(s.recovery))
    ensures up && ok ==> s.InStep() && id in s.changes && AtRest(s.changes[id])
    ensures up && ok ==> s.changes - {id} == old(s.changes) - {id}
    ensures up && ok && InFlight(s.changes[id].state) ==> s.plant.store == old(s.plant.store)
    ensures up && ok ==>
              s.changes[id].state
              == FinalState(old(s.changes[id]), old(StillOnTrial(s.changes[id], s.plant.device, reachable, expired)), expired)
    ensures up && ok && s.changes[id].state == AwaitingConfirmation ==> s.changes == old(s.changes)
    ensures up && old(s.changes[id].state) in {AwaitingConfirmation, RollingBack} ==>
              s.plant.AtMostDropped(old(s.plant.device))
    ensures s.plant.Since(old(s.plant.events), old(s.plant.faults))
    ensures up && ok ==> old(Answers(s.changes[id], reachable))
    ensures s.plant.faults == old(s.plant.faults) && up
            && old(Answers(s.changes[id], reachable) && Fine(s.changes[id], s.plant.device))
            ==> ok
    ensures s.plant.faults == old(s.plant.faults) && up && old(s.changes[id].state) != Committing ==>
              s.plant.device == old(s.plant.device)
              || s.plant.device == MoveRollback(old(s.plant.device), old(s.changes[id].binding))
    ensures old(StillOnTrial(s.changes[id], s.plant.device, reachable, expired)) && up
            ==> ok && s.plant.store == old(s.plant.store) && s.changes == old(s.changes)
  {
    hide Inv, Initial, IsRun, After, Plant.Valid, ActiveMatches, InEffect, StateName;
    hide OnTrial, MayComplete, RollbackAccepted, FinalizedAccepted;
    PlantInv(s.plant);
    InFlightOwns(s.plant.Now(), id, s.plant.codec);
    OwnerFacts(s.plant.Now(), id, s.plant.codec);
    var c := s.changes[id];
    var row := s.plant.store.dossiers[id].tx;
    assert TransactionBound(id, c, row.tx);
    ghost var before := s.plant.Now();
    ok := false;
    var status;
    status, up := s.plant.Status(reachable);
    if !up {
      return;
    }
    var matches := ActiveMatches(status, c.binding);
    if c.state == Committing && matches {
      var settled;
      settled, ok, up := RecoverCommitting(s, id, c, status, before);
      if settled {
        return;
      }
    }
    ok, up := RecoverRest(s, id, matches, expired);
  }

  lemma ActiveMeansOK(r: StepResult, b: Binding)
    requires ActiveMatches(r, b)
    ensures StepOK(r)
  {
  }

  // ---- all interrupted changes ----

  /** Every interrupted change is an unexpired trial that the device still runs. */
  ghost predicate AllStillOnTrial(changes: map<ChangeId, Change>, d: Device, reachable: ChangeId -> bool, expired: set<ChangeId>) {
    forall id | id in changes && InFlight(changes[id].state) :: StillOnTrial(changes[id], d, reachable(id), id in expired)
  }

  /** A trial awaiting confirmation was kept on these answers, and the device runs it unless it has dropped it since. */
  ghost predicate KeptOrDropped(c: Change, d: Device, reachable: bool, expired: bool) {
    c.state == AwaitingConfirmation ==> reachable && !expired && (InEffect(d) == Some(c.binding) || d.trial.NoTrial?)
  }

  ghost predicate AllKeptOrDropped(changes: map<ChangeId, Change>, d: Device, reachable: ChangeId -> bool,
                                   expired: set<ChangeId>, todo: set<ChangeId>) {
    forall id | id in changes && id !in todo :: KeptOrDropped(changes[id], d, reachable(id), id in expired)
  }

  /** Next to a trial awaiting confirmation, another interrupted change can only be rolling back. */
  lemma OthersRollBack(w: World, codec: Codec, a: ChangeId, b: ChangeId)
    requires Inv(w, codec) && a in w.store.changes && b in w.store.changes && a != b
    requires w.store.changes[a].state == AwaitingConfirmation && InFlight(w.store.changes[b].state)
    ensures w.store.changes[b].state == RollingBack
  {
    hide ChangesOk, ActiveOk, CommittedOk, SettledOk, TrialOk;
  }

  /** One more change has been dealt with. */
  lemma KeptAfter(w: World, codec: Codec, after: map<ChangeId, Change>, d: Device, reachable: ChangeId -> bool,
                  expired: set<ChangeId>, todo: set<ChangeId>, id: ChangeId)
    requires Inv(w, codec) && id in todo && id in w.store.changes && InFlight(w.store.changes[id].state)
    requires AllKeptOrDropped(w.store.changes, w.device, reachable, expired, todo)
    requires id in after && after - {id} == w.store.changes - {id}
    requires after[id].state == AwaitingConfirmation ==>
               StillOnTrial(w.store.changes[id], w.device, reachable(id), id in expired) && after == w.store.changes
    requires w.store.changes[id].state in {AwaitingConfirmation, RollingBack} ==>
               d.committed == w.device.committed && (d.trial == w.device.trial || d.trial.NoTrial?)
    ensures AllKeptOrDropped(after, d, reachable, expired, todo - {id})
  {
    hide Inv;
    var before := w.store.changes;
    forall other | other in after && other !in todo - {id}
      ensures KeptOrDropped(after[other], d, reachable(other), other in expired)
    {
      if other != id {
        assert other in after - {id} && (after - {id})[other] == (before - {id})[other];
        if after[other].state == AwaitingConfirmation {
          OthersRollBack(w, codec, other, id);
        }
      }
    }
  }

  lemma OneTrial(w: World, codec: Codec, a: ChangeId, b: ChangeId)
    requires Inv(w, codec) && a in w.store.changes && b in w.store.changes
    requires w.store.changes[a].state == AwaitingConfirmation && w.store.changes[b].state == AwaitingConfirmation
    ensures a == b
  {
  }

  lemma RestKept(before: map<ChangeId, Change>, after: map<ChangeId, Change>, id: ChangeId, todo: set<ChangeId>)
    requires id in before && id in after && after - {id} == before - {id} && AtRest(after[id])
    requires forall other | other in before && other !in todo :: AtRest(before[other])
    requires forall other | other in todo :: other in before && InFlight(before[other].state)
    ensures forall other | other in after && other !in todo - {id} :: AtRest(after[other])
    ensures forall other | other in todo - {id} :: other in after && InFlight(after[other].state)
  {
    forall other | other in after && other != id
      ensures other in before && after[other] == before[other]
    {
      assert other in after - {id};
      assert (after - {id})[other] == (before - {id})[other];
    }
    forall other | other in before && other != id ensures other in after {
      assert other in before - {id};
    }
  }

  /** What the device commits is never a change that waits for its confirmation. */
  lemma AwaitingUncommitted(w: World, id: ChangeId, codec: Codec)
    requires Inv(w, codec) && id in w.store.changes && w.store.changes[id].state == AwaitingConfirmation
    ensures w.device.committed != Some(w.store.changes[id].binding)
  {
    hide OneForward, TrialOk, CandidateOk, SettledOk;
    assert ChangeOk(w.store, id, codec);
  }

  /** The device runs the same ones of the trials still to be dealt with as it did at first, or fewer after a fault. */
  ghost predicate SameTrials(changes: map<ChangeId, Change>, first: Device, d: Device, todo: set<ChangeId>, faultless: bool) {
    forall id | id in todo && id in changes && changes[id].state == AwaitingConfirmation ::
      && (InEffect(d) == Some(changes[id].binding) ==> InEffect(first) == Some(changes[id].binding))
      && (faultless && InEffect(first) == Some(changes[id].binding) ==> InEffect(d) == Some(changes[id].binding))
  }

  lemma TrialsAfter(w: World, codec: Codec, after: map<ChangeId, Change>, first: Device, d: Device, todo: set<ChangeId>,
                    id: ChangeId, faultless: bool)
    requires Inv(w, codec) && id in todo && id in w.store.changes && InFlight(w.store.changes[id].state)
    requires SameTrials(w.store.changes, first, w.device, todo, faultless)
    requires id in after && after - {id} == w.store.changes - {id}
    requires w.store.changes[id].state in {AwaitingConfirmation, RollingBack} ==>
               d.committed == w.device.committed && (d.trial == w.device.trial || d.trial.NoTrial?)
    requires faultless && w.store.changes[id].state != Committing ==>
               d == w.device || d == MoveRollback(w.device, w.store.changes[id].binding)
    ensures SameTrials(after, first, d, todo - {id}, faultless)
  {
    hide Inv;
    forall p | p in todo - {id} && p in after && after[p].state == AwaitingConfirmation
      ensures InEffect(d) == Some(after[p].binding) ==> InEffect(first) == Some(after[p].binding)
      ensures faultless && InEffect(first) == Some(after[p].binding) ==> InEffect(d) == Some(after[p].binding)
    {
      assert p in after - {id} && (after - {id})[p] == (w.store.changes - {id})[p];
      OthersRollBack(w, codec, p, id);
      AwaitingUncommitted(w, p, codec);
      InFlightOwns(w, id, codec);
      InFlightOwns(w, p, codec);
      BindingNamesOwner(w, p, codec);
      BindingNamesOwner(w, id, codec);
    }
  }

  lemma SameTrialsWeaker(changes: map<ChangeId, Change>, first: Device, d: Device, todo: set<ChangeId>, faultless: bool, less: bool)
    requires SameTrials(changes, first, d, todo, faultless) && (less ==> faultless)
    ensures SameTrials(changes, first, d, todo, less)
  {
  }

  /**
   * What recovery makes of a change that was `c`: its final state, and nothing else of a change that stays in
   * its state. A trial that is kept was `live` when recovery began; without a fault every live trial is kept.
   */
  ghost predicate EndsAs(c: Change, next: Change, live: bool, expired: bool, faultless: bool) {
    && next.state == FinalState(c, next.state == AwaitingConfirmation, expired)
    && (next.state == c.state ==> next == c)
    && (next.state == AwaitingConfirmation ==> live)
    && (faultless && live ==> next.state == AwaitingConfirmation)
  }

  /** Every change but those in `todo` has ended as it has to; those in `todo` are as they were. */
  ghost predicate AllEndAs(first: World, changes: map<ChangeId, Change>, reachable: ChangeId -> bool,
                           expired: set<ChangeId>, todo: set<ChangeId>, faultless: bool) {
    && changes.Keys == first.store.changes.Keys
    && (forall id | id in changes && id in todo :: changes[id] == first.store.changes[id])
    && (forall id | id in changes && id !in todo ::
          var c := first.store.changes[id];
          EndsAs(c, changes[id], StillOnTrial(c, first.device, reachable(id), id in expired), id in expired, faultless))
  }

  lemma AsAtFirst(first: World, changes: map<ChangeId, Change>, reachable: ChangeId -> bool, expired: set<ChangeId>,
                  todo: set<ChangeId>, id: ChangeId, faultless: bool)
    requires AllEndAs(first, changes, reachable, expired, todo, faultless) && id in todo && id in changes
    ensures id in first.store.changes && first.store.changes[id] == changes[id]
  {
  }

  lemma EndsAfter(first: World, before: map<ChangeId, Change>, after: map<ChangeId, Change>, d: Device,
                  reachable: ChangeId -> bool, expired: set<ChangeId>, todo: set<ChangeId>, id: ChangeId,
                  faultlessBefore: bool, faultless: bool)
    requires AllEndAs(first, before, reachable, expired, todo, faultlessBefore) && (faultless ==> faultlessBefore)
    requires SameTrials(before, first.device, d, todo, faultlessBefore) && id in todo && id in before
    requires id in after && after - {id} == before - {id} && InFlight(before[id].state)
    requires after[id].state == FinalState(before[id], StillOnTrial(before[id], d, reachable(id), id in expired), id in expired)
    requires after[id].state == AwaitingConfirmation ==> after == before
    ensures AllEndAs(first, after, reachable, expired, todo - {id}, faultless)
  {
    forall other | other in after || other in before ensures other in after && other in before {
      if other != id { assert other in after - {id} <==> other in before - {id}; }
    }
    forall other | other in after && other != id ensures after[other] == before[other] {
      assert (after - {id})[other] == (before - {id})[other];
    }
  }

  ghost predicate SomeStuck(w: World) {
    exists id :: Stuck(w, id)
  }

  /** The adapter can be asked about every commit past its boundary. */
  ghost predicate AllAnswer(changes: map<ChangeId, Change>, reachable: ChangeId -> bool) {
    forall id | id in changes :: Answers(changes[id], reachable(id))
  }

  ghost predicate AllFine(changes: map<ChangeId, Change>, d: Device, todo: set<ChangeId>) {
    forall id | id in todo && id in changes :: Fine(changes[id], d)
  }

  /** A commit past its boundary that is not stuck can be finished. */
  lemma AllFineAtFirst(p: Plant)
    requires p.Valid() && !SomeStuck(p.Now())
    ensures forall todo :: AllFine(p.store.changes, p.device, todo)
  {
    hide Inv, Initial, After, IsRun, Stuck, StateName, InEffect;
    forall id | id in p.store.changes ensures Fine(p.store.changes[id], p.device) {
      var c := p.store.changes[id];
      if c.state == Committing && PastBoundary(c.phase) {
        PhaseIsPending(p.Now(), id, p.codec);
        PendingInEffect(p.start, p.events, id, p.codec);
      }
    }
  }

  lemma PhaseIsPending(w: World, id: ChangeId, codec: Codec)
    requires Inv(w, codec) && id in w.store.changes && w.store.changes[id].state == Committing
    requires PastBoundary(w.store.changes[id].phase)
    ensures PendingFinalize(w.store, id)
  {
    assert ChangeOk(w.store, id, codec);
  }

  /** Dealing with one change leaves a commit past its boundary as it is. */
  lemma FineAfter(w: World, codec: Codec, after: map<ChangeId, Change>, d: Device, todo: set<ChangeId>, id: ChangeId)
    requires Inv(w, codec) && id in todo && id in w.store.changes && InFlight(w.store.changes[id].state)
    requires AllFine(w.store.changes, w.device, todo) && id in after && after - {id} == w.store.changes - {id}
    requires w.store.changes[id].state != Committing ==>
               d == w.device || d == MoveRollback(w.device, w.store.changes[id].binding)
    ensures AllFine(after, d, todo - {id})
  {
    hide Inv;
    forall p | p in todo - {id} && p in after ensures Fine(after[p], d) {
      assert p in after - {id} && (after - {id})[p] == (w.store.changes - {id})[p];
      var c := after[p];
      if c.state == Committing && PastBoundary(c.phase) {
        PhaseIsPending(w, p, codec);
        InFlightOwns(w, id, codec);
        BindingNamesOwner(w, p, codec);
        BindingNamesOwner(w, id, codec);
        if w.store.changes[id].state == Committing { OneForwardAtATime(w, p, id, codec); }
      }
    }
  }

  /** Where nothing is committing any more, nothing was stuck before. */
  lemma StuckNotSettled(p: Plant, before: World, events: seq<Event>)
    requires p.Valid() && events <= p.events && IsRun(p.start, events, p.codec) && before == After(p.start, events, p.codec)
    requires SomeStuck(before)
    ensures !NoneCommitting(p.store.changes)
  {
    hide Inv, Initial;
    var id :| Stuck(before, id);
    assert p.events[..|events|] == events;
    StuckForever(p.start, p.events, |events|, id, p.codec);
  }

  /**
   * `recoverTransactions`, with the answers that the adapter and the clock give for each change. It
   * reports an error, or leaves nothing interrupted but a trial awaiting confirmation, with store and
   * device agreeing on what is committed; such a trial was on the device, unexpired, and the device still
   * runs it unless it has dropped it on its own. Every change has then ended in the state that its old state,
   * the answers and the clock call for. Where nothing but a live trial is left it changes nothing.
   * While every write works, every reply is good and the device's timer does not fire, it succeeds exactly
   * when no commit is stuck and the adapter can be asked about a commit that is past its boundary; otherwise
   * it never succeeds.
   */
  method RecoverTransactions(s: Server, reachable: ChangeId -> bool, expired: set<ChangeId>) returns (ok: bool, up: bool)
    requires s.plant.Valid() && s.InStep() && !AllowsMutation(s.recovery)
    modifies s, s.plant
    ensures s.plant.Valid() && (up ==> !AllowsMutation(s.recovery))
    ensures up && ok ==> s.InStep() && (forall id | id in s.changes :: AtRest(s.changes[id]))
    ensures up && ok ==> NoneCommitting(s.changes) && s.plant.device.committed == ActiveBinding(s.plant.store)
    ensures up && ok ==> AllKeptOrDropped(s.changes, s.plant.device, reachable, expired, {})
    ensures up && ok ==>
              AllEndAs(old(s.plant.Now()), s.changes, reachable, expired, {}, s.plant.faults == old(s.plant.faults))
    ensures up && old(AllStillOnTrial(s.changes, s.plant.device, reachable, expired))
            ==> ok && s.plant.store == old(s.plant.store) && s.changes == old(s.changes)
    ensures s.plant.Since(old(s.plant.events), old(s.plant.faults))
    ensures up && old(SomeStuck(s.plant.Now())) ==> !ok
    ensures up && ok ==> old(AllAnswer(s.changes, reachable))
    ensures up && s.plant.faults == old(s.plant.faults) ==>
              (ok <==> !old(SomeStuck(s.plant.Now())) && old(AllAnswer(s.changes, reachable)))
  {
    hide Initial, IsRun, After, Inv, Plant.Valid, SomeStuck, AllStillOnTrial, AllAnswer, AllKeptOrDropped, Midway, AllEndAs;
    PlantRun(s.plant);
    ghost var at := Start(s.plant.Now(), s.plant.events, s.plant.faults,
                          AllAnswer(s.changes, reachable) && !SomeStuck(s.plant.Now()),
                          AllStillOnTrial(s.changes, s.plant.device, reachable, expired));
    var todo := set id | id in s.changes && InFlight(s.changes[id].state);
    StartsMidway(s, at, reachable, expired, todo);
    ok, up := true, true;
    while todo != {}
      invariant up && ok && s.plant.Valid() && !AllowsMutation(s.recovery)
      invariant Midway(s, at, reachable, expired, todo)
      decreases todo
    {
      var id :| id in todo;
      ok, up := RecoverNext(s, at, reachable, expired, todo, id);
      if !up || !ok {
        return;
      }
      todo := todo - {id};
    }
    EndsMidway(s, at, reachable, expired);
    SettledAgrees(s.plant);
    if SomeStuck(at.world) {
      StuckNotSettled(s.plant, at.world, at.events);
    }
  }

  /** Where a recovery began, whether everything answers and nothing is stuck, and whether it has nothing to do. */
  datatype Start = Start(world: World, events: seq<Event>, faults: nat, sound: bool, quiet: bool)

  ghost predicate Midway(s: Server, at: Start, reachable: ChangeId -> bool, expired: set<ChangeId>, todo: set<ChangeId>)
    reads s, s.plant
  {
    && s.InStep() && s.plant.Since(at.events, at.faults)
    && (forall id | id in s.changes && id !in todo :: AtRest(s.changes[id]))
    && (forall id | id in todo :: id in s.changes && InFlight(s.changes[id].state))
    && AllKeptOrDropped(s.changes, s.plant.device, reachable, expired, todo)
    && AllEndAs(at.world, s.changes, reachable, expired, todo, s.plant.faults == at.faults)
    && SameTrials(s.changes, at.world.device, s.plant.device, todo, s.plant.faults == at.faults)
    && (at.sound ==> AllAnswer(at.world.store.changes, reachable))
    && (forall id | id in at.world.store.changes && id !in todo :: Answers(at.world.store.changes[id], reachable(id)))
    && (at.sound && s.plant.faults == at.faults ==> AllFine(s.changes, s.plant.device, todo))
    && (at.quiet ==>
          && s.plant.store == at.world.store && s.changes == at.world.store.changes
          && (todo != {} ==> s.plant.device == at.world.device)
          && AllStillOnTrial(s.changes, at.world.device, reachable, expired))
  }

  lemma StartsMidway(s: Server, at: Start, reachable: ChangeId -> bool, expired: set<ChangeId>, todo: set<ChangeId>)
    requires s.plant.Valid() && s.InStep() && todo == set id | id in s.changes && InFlight(s.changes[id].state)
    requires at.world == s.plant.Now() && at.events == s.plant.events && at.faults == s.plant.faults
    requires at.sound ==> AllAnswer(s.changes, reachable) && !SomeStuck(at.world)
    requires at.quiet ==> AllStillOnTrial(s.changes, s.plant.device, reachable, expired)
    ensures Midway(s, at, reachable, expired, todo)
  {
    hide Initial, IsRun, After, Inv, Plant.Valid, SomeStuck, AllStillOnTrial, AllKeptOrDropped, Fine;
    if at.sound { AllFineAtFirst(s.plant); }
    RestIsKept(s.changes, s.plant.device, reachable, expired, todo);
  }

  lemma EndsMidway(s: Server, at: Start, reachable: ChangeId -> bool, expired: set<ChangeId>)
    requires Midway(s, at, reachable, expired, {})
    ensures s.InStep() && s.plant.Since(at.events, at.faults) && (forall id | id in s.changes :: AtRest(s.changes[id]))
    ensures AllKeptOrDropped(s.changes, s.plant.device, reachable, expired, {})
    ensures AllEndAs(at.world, s.changes, reachable, expired, {}, s.plant.faults == at.faults)
    ensures at.quiet ==> s.plant.store == at.world.store && s.changes == at.world.store.changes
    ensures AllAnswer(at.world.store.changes, reachable)
  {
  }

  /** One turn, and what it means for the whole. */
  method RecoverNext(s: Server, ghost at: Start, reachable: ChangeId -> bool, expired: set<ChangeId>, todo: set<ChangeId>, id: ChangeId)
    returns (ok: bool, up: bool)
    requires s.plant.Valid() && !AllowsMutation(s.recovery) && id in todo && Midway(s, at, reachable, expired, todo)
    modifies s, s.plant
    ensures s.plant.Valid() && (up ==> !AllowsMutation(s.recovery)) && s.plant.Since(at.events, at.faults)
    ensures up && ok ==> Midway(s, at, reachable, expired, todo - {id})
    ensures up && (at.quiet || (at.sound && s.plant.faults == at.faults)) ==> ok
  {
    hide Initial, IsRun, After, Inv, Plant.Valid, KeptOrDropped, SomeStuck, AllStillOnTrial;
    hide AllKeptOrDropped, StillOnTrial, Stuck, MoveRollback, AllEndAs, SameTrials, Answers;
    ghost var before, faultless := s.changes, s.plant.faults == at.faults;
    ghost var world := s.plant.Now();
    PlantInv(s.plant);
    AsAtFirst(at.world, before, reachable, expired, todo, id, faultless);
    if at.sound { assert Answers(at.world.store.changes[id], reachable(id)); }
    if at.quiet {
      QuietIsAlone(world, s.plant.codec, reachable, expired, todo, id);
    }
    ok, up := RecoverChange(s, id, reachable(id), id in expired);
    if !up || !ok {
      return;
    }
    RestKept(before, s.changes, id, todo);
    EndsAfter(at.world, before, s.changes, world.device, reachable, expired, todo, id, faultless, s.plant.faults == at.faults);
    SameTrialsWeaker(before, at.world.device, world.device, todo, faultless, s.plant.faults == at.faults);
    TrialsAfter(world, s.plant.codec, s.changes, at.world.device, s.plant.device, todo, id, s.plant.faults == at.faults);
    if at.sound && s.plant.faults == at.faults {
      FineAfter(world, s.plant.codec, s.changes, s.plant.device, todo, id);
    }
    KeptAfter(world, s.plant.codec, s.changes, s.plant.device, reachable, expired, todo, id);
  }

  lemma PlantRun(p: Plant)
    requires p.Valid()
    ensures IsRun(p.start, p.events, p.codec) && p.Now() == After(p.start, p.events, p.codec)
  {
  }

  /** With nothing committing, the device has committed what the store calls active. */
  lemma SettledAgrees(p: Plant)
    requires p.Valid() && forall id | id in p.store.changes :: AtRest(p.store.changes[id])
    ensures NoneCommitting(p.store.changes) && p.device.committed == ActiveBinding(p.store)
  {
    hide Initial, IsRun, After, ChangesOk, ActiveOk, CommittedOk, TrialOk, OneForward;
  }

  /** Where only live trials are left there is a single one. */
  lemma QuietIsAlone(w: World, codec: Codec, reachable: ChangeId -> bool, expired: set<ChangeId>, todo: set<ChangeId>, id: ChangeId)
    requires Inv(w, codec) && id in todo && AllStillOnTrial(w.store.changes, w.device, reachable, expired)
    requires forall other | other in todo :: other in w.store.changes && InFlight(w.store.changes[other].state)
    ensures todo - {id} == {} && StillOnTrial(w.store.changes[id], w.device, reachable(id), id in expired)
  {
    hide Inv;
    forall other | other in todo ensures other == id {
      OneTrial(w, codec, id, other);
    }
  }

  lemma RestIsKept(changes: map<ChangeId, Change>, d: Device, reachable: ChangeId -> bool, expired: set<ChangeId>, todo: set<ChangeId>)
    requires forall id | id in changes && InFlight(changes[id].state) :: id in todo
    ensures AllKeptOrDropped(changes, d, reachable, expired, todo)
  {
  }

  /**
   * A second run on the same answers changes nothing in store or memory, unless the device has dropped
   * the trial that awaits confirmation on its own before it (`device` is what the first run has left).
   */
  method RecoverTwice(s: Server, reachable: ChangeId -> bool, expired: set<ChangeId>)
    returns (first: bool, second: bool, up: bool, ghost store: Store, ghost changes: map<ChangeId, Change>, ghost device: Device)
    requires s.plant.Valid() && s.InStep() && !AllowsMutation(s.recovery)
    modifies s, s.plant
    ensures s.plant.Valid()
    ensures up && first && TrialHeld(changes, device) ==> second && s.plant.store == store && s.changes == changes
  {
    hide Initial, IsRun, After, Inv, Plant.Valid;
    second, store, changes, device := false, s.plant.store, s.changes, s.plant.device;
    first, up := RecoverTransactions(s, reachable, expired);
    if !up || !first {
      return;
    }
    store, changes, device := s.plant.store, s.changes, s.plant.device;
    if TrialHeld(changes, device) {
      HeldIsLive(s.plant.Now(), s.plant.codec, reachable, expired) by { PlantInv(s.plant); }
    }
    second, up := RecoverTransactions(s, reachable, expired);
  }

  /** The device has a trial, or no change waits for its confirmation. */
  ghost predicate TrialHeld(changes: map<ChangeId, Change>, d: Device) {
    !d.trial.NoTrial? || forall id | id in changes :: changes[id].state != AwaitingConfirmation
  }

  /** A device with a trial runs the one that awaits confirmation. */
  lemma HeldIsLive(w: World, codec: Codec, reachable: ChangeId -> bool, expired: set<ChangeId>)
    requires Inv(w, codec) && AllKeptOrDropped(w.store.changes, w.device, reachable, expired, {})
    requires forall id | id in w.store.changes :: AtRest(w.store.changes[id])
    requires TrialHeld(w.store.changes, w.device)
    ensures AllStillOnTrial(w.store.changes, w.device, reachable, expired)
  {
    hide Inv;
    forall id | id in w.store.changes && InFlight(w.store.changes[id].state)
      ensures StillOnTrial(w.store.changes[id], w.device, reachable(id), id in expired)
    {
      assert AtRest(w.store.changes[id]) && KeptOrDropped(w.store.changes[id], w.device, reachable(id), id in expired);
    }
  }

  // ---- the committed deployment ----

  /** `setRecoveryStatus`: a status that cannot be written down closes the fence. */
  method SetRecovery(s: Server, status: RecoveryStatus) returns (written: bool, up: bool)
    requires s.plant.Valid()
    modifies s`recovery, s.plant
    ensures s.plant.Valid() && s.plant.store == old(s.plant.store) && s.plant.Idle(old(s.plant.device))
    ensures s.recovery == if written then status else RecoveryRequired
    ensures s.plant.Since(old(s.plant.events), old(s.plant.faults)) && (s.plant.faults == old(s.plant.faults) ==> written)
  {
    s.recovery := status;
    written, up := s.plant.WriteElsewhere();
    if !written {
      s.recovery := RecoveryRequired;
    }
  }

  const MAX_RECONCILE_ATTEMPTS := 31

  /** `reconcileCommittedTarget`: tried again while the adapter reports that it is busy. */
  method ReconcileTarget(s: Server, target: Binding) returns (r: StepResult, up: bool)
    requires s.plant.Valid()
    modifies s.plant
    ensures s.plant.Valid() && s.plant.store == old(s.plant.store)
    ensures s.plant.device.committed == old(s.plant.device.committed)
    ensures up && StepOK(r) ==> s.plant.device.committed == Some(target)
    ensures s.plant.Since(old(s.plant.events), old(s.plant.faults))
    ensures s.plant.faults == old(s.plant.faults) && old(s.plant.device.committed) == Some(target) ==>
              StepOK(r) && s.plant.device == MoveReconcile(old(s.plant.device))
  {
    hide Plant.Valid, StepOK, MoveReconcile;
    r, up := s.plant.Reconcile(target);
    var attempt := 1;
    var busy: bool, canceled: bool := *, *;
    while up && !StepOK(r) && busy && !canceled && attempt < MAX_RECONCILE_ATTEMPTS
      invariant s.plant.Valid() && s.plant.store == old(s.plant.store)
      invariant s.plant.device.committed == old(s.plant.device.committed)
      invariant up && StepOK(r) ==> s.plant.device.committed == Some(target)
      invariant s.plant.Since(old(s.plant.events), old(s.plant.faults))
      invariant s.plant.faults == old(s.plant.faults) && old(s.plant.device.committed) == Some(target) ==>
                  StepOK(r) && s.plant.device == MoveReconcile(old(s.plant.device))
      decreases MAX_RECONCILE_ATTEMPTS - attempt
    {
      r, up := s.plant.Reconcile(target);
      busy, canceled := *, *;
      attempt := attempt + 1;
    }
  }

  /** The rows of the active revision prove one finished commit of the active config. */
  ghost predicate ActiveProven(store: Store, committed: Option<Binding>, baseline: Json) {
    match store.activeRevision
    case Baseline => store.activeConfig == baseline
    case Rev(id) =>
      && InState(store, id, Committed) && id in store.dossiers
      && committed == Some(store.changes[id].binding)
      && Digest(store.activeConfig) == store.changes[id].binding.hash
      && store.dossiers[id].revision.state == RevisionCommitted && store.dossiers[id].tx.state == Committed
  }

  /** The checks on stored rows in `recoverCommittedDataplane`, up to the adapter calls. */
  method CheckActiveRows(s: Server, id: ChangeId) returns (verdict: RecoveryStatus, target: Binding)
    requires s.plant.Valid() && s.InStep() && s.activeRevision == Rev(id)
    modifies s.plant`faults
    ensures s.plant.Valid() && s.plant.Since(old(s.plant.events), old(s.plant.faults))
    ensures verdict == Recovered ==>
              && ActiveProven(s.plant.store, Some(target), s.plant.baseline)
              && target == s.plant.store.changes[id].binding
    ensures verdict in {Recovered, RecoveryRequired, RecoveryFailed}
    ensures verdict == RecoveryRequired <==> AwaitsFinalize(s.plant.store)
    ensures s.plant.faults == old(s.plant.faults) && !AwaitsFinalize(s.plant.store) ==>
              verdict == Recovered && s.plant.device.committed == Some(target)
  {
    hide Inv, Initial, IsRun, After;
    ActiveRows(s.plant.Now(), id, s.plant.codec) by { PlantInv(s.plant); }
    target := BlankBinding(id);
    if id !in s.plant.store.dossiers {
      return RecoveryFailed, target;
    }
    var row := s.plant.store.dossiers[id];
    target := row.revision.binding;
    if row.revision.state == RevisionPending {
      return RecoveryRequired, target;
    }
    if row.revision.state != RevisionCommitted || target.rev != s.activeRevision {
      return RecoveryFailed, target;
    }
    if row.tx.state != Committed || row.tx.tx.binding != target {
      return RecoveryFailed, target;
    }
    if id !in s.changes || s.changes[id].state != Committed || s.changes[id].binding.tx != target.tx
       || s.changes[id].binding.rev != target.rev {
      return RecoveryFailed, target;
    }
    var intact := s.plant.FileIntact();
    if !intact || Digest(s.activeConfig) != target.hash {
      return RecoveryFailed, target;
    }
    return Recovered, target;
  }

  /** A device that has reconciled reports its committed deployment. */
  lemma ReconciledReports(d: Device, target: Binding)
    requires d.committed == Some(target)
    ensures InEffect(MoveReconcile(d)) == Some(target) && StateName(MoveReconcile(d)) == "committed"
  {
  }

  lemma NothingComesAlive(before: Device, after: Device)
    requires !Live(before.trial) && (after == before || after == MoveTimer(before))
    ensures !Live(after.trial) && after.committed == before.committed
  {
  }

  lemma CommittedNotLive(before: Device, after: Device)
    requires StateName(before) == "committed" && (after == before || after == MoveTimer(before))
    ensures !Live(after.trial) && after.committed == before.committed
  {
  }

  /** `recoverCommittedDataplane` on a revision that a change has made. */
  method RecoverRevision(s: Server, id: ChangeId, reachable: bool) returns (up: bool)
    requires s.plant.Valid() && s.InStep() && !AllowsMutation(s.recovery) && s.activeRevision == Rev(id)
    modifies s`recovery, s.plant
    ensures s.plant.Valid() && s.plant.store == old(s.plant.store)
    ensures s.plant.Since(old(s.plant.events), old(s.plant.faults))
    ensures up ==> s.recovery != Starting
    ensures up && AllowsMutation(s.recovery) ==>
              ActiveProven(s.plant.store, s.plant.device.committed, s.plant.baseline) && !Live(s.plant.device.trial)
    ensures up && s.plant.faults == old(s.plant.faults) ==>
              (AllowsMutation(s.recovery) <==> reachable && !AwaitsFinalize(s.plant.store))
    ensures up && AwaitsFinalize(s.plant.store) ==> s.recovery == RecoveryRequired
  {
    hide Inv, Initial, IsRun, After, Plant.Valid, ActiveProven, ActiveMatches, InEffect, StateName, MoveReconcile;
    hide ReportsState, Live, MoveTimer, AwaitsFinalize;
    var written;
    var verdict, target := CheckActiveRows(s, id);
    if verdict != Recovered {
      written, up := SetRecovery(s, verdict);
      return;
    }
    ghost var before := s.plant.device;
    var r;
    r, up := ReconcileTarget(s, target);
    if !up {
      return;
    }
    if !StepOK(r) {
      written, up := SetRecovery(s, RecoveryFailed);
      return;
    }
    ReconciledReports(before, target);
    ghost var reconciled := s.plant.device;
    var status;
    status, up := s.plant.Status(reachable);
    if !up {
      return;
    }
    var good := ActiveMatches(status, target) && ReportsState(status, "committed");
    if good { ActiveMeansOK(status, target); CommittedNotLive(reconciled, s.plant.device); }
    ghost var seen := s.plant.device;
    written, up := SetRecovery(s, if good then Recovered else RecoveryFailed);
    if good { NothingComesAlive(seen, s.plant.device); }
  }

  /**
   * `recoverCommittedDataplane`: the fence opens only when every row of the active revision, the active
   * config and the device name the same finished commit, and the device runs nothing else. While nothing
   * fails, it opens unless the commit is unfinished or the adapter cannot be asked.
   */
  method RecoverCommittedDataplane(s: Server, reachable: bool) returns (up: bool)
    requires s.plant.Valid() && s.InStep() && !AllowsMutation(s.recovery)
    modifies s`recovery, s.plant
    ensures s.plant.Valid() && s.plant.store == old(s.plant.store)
    ensures s.plant.Since(old(s.plant.events), old(s.plant.faults))
    ensures up ==> s.recovery != Starting
    ensures up && AllowsMutation(s.recovery) ==>
              ActiveProven(s.plant.store, s.plant.device.committed, s.plant.baseline)
              && (s.activeRevision.Rev? ==> !Live(s.plant.device.trial))
    ensures up && s.plant.faults == old(s.plant.faults) ==>
              (AllowsMutation(s.recovery) <==>
               s.activeRevision == Baseline || (reachable && !AwaitsFinalize(s.plant.store)))
    ensures up && AwaitsFinalize(s.plant.store) ==> s.recovery == RecoveryRequired
    ensures up && NoneCommitting(s.changes) ==> s.Valid()
  {
    hide Inv, Initial, IsRun, After, Plant.Valid, ActiveProven;
    match s.activeRevision {
      case Baseline =>
        BaselineConfig(s.plant);
        var written;
        var intact := s.plant.FileIntact();
        if !intact || Digest(s.activeConfig) != Digest(s.plant.baseline) {
          written, up := SetRecovery(s, RecoveryFailed);
          return;
        }
        var ok;
        ok, up := s.ClearGuard();
        if !up {
          return;
        }
        written, up := SetRecovery(s, if ok then NotRequired(true) else RecoveryFailed);
        BaselineProven(s.plant.store, s.plant.device.committed, s.plant.baseline);
      case Rev(id) =>
        up := RecoverRevision(s, id, reachable);
    }
  }

  lemma BaselineProven(store: Store, committed: Option<Binding>, baseline: Json)
    requires store.activeRevision == Baseline && store.activeConfig == baseline
    ensures ActiveProven(store, committed, baseline)
  {
  }
}
