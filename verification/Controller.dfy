/**
 * The controller process: requests and recovery drive the store and the device one write or call at a
 * time. Power may fail at any of them; a method then returns at once with `up == false`.
 */
module Controller {
  import opened Prelude
  import opened Patch
  import opened Adapter
  import opened Protocol
  import opened Runs
  import opened Installation

  datatype RecoveryStatus = Starting | NotRequired(baselineConfirmed: bool) | Recovered | RecoveryFailed | RecoveryRequired

  predicate AllowsMutation(status: RecoveryStatus) {
    status.Recovered? || (status.NotRequired? && status.baselineConfirmed)
  }

  predicate InFlight(s: State) {
    Forward(s) || s.RollingBack?
  }

  /** `validateTransactionBinding`. */
  predicate TransactionBound(id: ChangeId, c: Change, tx: Transaction) {
    tx.binding == c.binding && tx.change == id && tx.ready == c.ready && tx.simulation == c.simulation
  }

  /** From `s` to `s2` only the rows of `id` may have changed. */
  ghost predicate OnlyRowsOf(s: Store, s2: Store, id: ChangeId) {
    && s2.version == s.version && s2.activeConfig == s.activeConfig && s2.activeRevision == s.activeRevision
    && id in s.changes && id in s2.changes
    && s2.changes - {id} == s.changes - {id} && s2.dossiers - {id} == s.dossiers - {id}
  }

  lemma ProgressRows(s: Store, id: ChangeId, next: Change)
    requires id in s.changes && id in s.dossiers
    ensures OnlyRowsOf(s, WriteProgress(s, id, next), id)
    ensures var s2 := WriteProgress(s, id, next);
            s2.changes == s.changes[id := next] && id in s2.dossiers
            && (ControlPlaneDurable(s2, id) <==> PastBoundary(next.phase))
  {
    var s2 := WriteProgress(s, id, next);
    assert s2.changes - {id} == s.changes - {id};
    assert s2.dossiers - {id} == s.dossiers - {id};
  }

  lemma ProgressVersion(s: Store, id: ChangeId, next: Change)
    requires id in s.changes && id in s.dossiers
    ensures WriteProgress(s, id, next).version == s.version
  {
  }

  lemma OnlyRowsChain(a: Store, b: Store, c: Store, id: ChangeId)
    requires OnlyRowsOf(a, b, id) && OnlyRowsOf(b, c, id)
    ensures OnlyRowsOf(a, c, id)
  {
  }

  /** Seen from the other changes: their rows stay, and a config is only replaced under a higher version. */
  ghost predicate OthersKept(s: Store, s2: Store, id: ChangeId) {
    && s2.changes - {id} == s.changes - {id}
    && (s2.version > s.version || (s2.version == s.version && s2.activeConfig == s.activeConfig))
  }

  lemma OnlyRowsKeepsOthers(s: Store, s2: Store, id: ChangeId)
    requires s2 == s || OnlyRowsOf(s, s2, id)
    ensures OthersKept(s, s2, id)
  {
  }

  lemma OthersKeptChain(a: Store, b: Store, c: Store, id: ChangeId)
    requires OthersKept(a, b, id) && OthersKept(b, c, id)
    ensures OthersKept(a, c, id)
  {
  }

  lemma OnlyRowsSame(s: Store, id: ChangeId)
    requires id in s.changes
    ensures OnlyRowsOf(s, s, id)
  {
  }

  lemma EnterKept(s: Store, s2: Store, id: ChangeId)
    requires MayEnter(s, id) && OnlyRowsOf(s, s2, id) && s2.changes[id].base == s.changes[id].base
    ensures MayEnter(s2, id)
  {
    forall other | other in s2.changes && other != id ensures !Forward(s2.changes[other].state) {
      assert other in s2.changes - {id};
      assert (s2.changes - {id})[other] == (s.changes - {id})[other];
    }
  }

  /** What the invariant says about a change that owns a transaction. */
  lemma OwnerFacts(w: World, id: ChangeId, codec: Codec)
    requires Inv(w, codec) && Owner(w.store, id)
    ensures id in w.store.dossiers
    ensures var c, row := w.store.changes[id], w.store.dossiers[id].tx;
            && row.tx == TransactionOf(id, c)
            && (row.phase == c.phase || (row.phase == FinalizeAmbiguous && c.phase == ControlPlaneCommitted))
            && (PastBoundary(c.phase) ==> c.state == Committing || c.state == Committed)
            && (Forward(c.state) && !PastBoundary(c.phase) ==> c.base == w.store.version)
            && (c.state == AwaitingConfirmation ==> Verified(c))
            && (BeforeCommit(c.state) ==> c.phase == NoPhase)
            && (c.state == Committed <==> c.phase == AdapterFinalized)
  {
    assert ChangeOk(w.store, id, codec);
  }

  lemma MayRecordRollingBack(w: World, id: ChangeId, c: Change)
    requires Owner(w.store, id) && id in w.store.dossiers && !ControlPlaneDurable(w.store, id)
    requires !Absorbing(w.store.changes[id].state) && SameIdentity(w.store.changes[id], c) && !PastBoundary(c.phase)
    ensures c.state == RollingBack || c.state == RollbackFailed ==> MayProgress(w, id, c)
  {
  }

  lemma MayRecordRolledBack(w: World, id: ChangeId, c: Change)
    requires MayRollBack(w.store, id) && id in w.store.dossiers
    requires SameIdentity(w.store.changes[id], c) && !PastBoundary(c.phase)
    requires !OnTrial(w.device, c.binding)
    ensures c.state == RolledBack || c.state == Expired || c.state == Failed || c.state == RequiresDevice
            ==> MayProgress(w, id, c)
  {
  }

  lemma MayRecordEarly(w: World, id: ChangeId, c: Change)
    requires Owner(w.store, id) && id in w.store.dossiers && !ControlPlaneDurable(w.store, id)
    requires SameIdentity(w.store.changes[id], c) && !PastBoundary(c.phase)
    requires EarlyStep(w.store, id, w.store.changes[id], c)
    ensures c.state in {Validated, Prepared, Applying, Verifying} ==> MayProgress(w, id, c)
  {
  }

  lemma MayRecordAwaiting(w: World, id: ChangeId, c: Change)
    requires InState(w.store, id, Verifying) && id in w.store.dossiers && !ControlPlaneDurable(w.store, id)
    requires SameIdentity(w.store.changes[id], c) && !PastBoundary(c.phase)
    requires c.state == AwaitingConfirmation && Verified(c) && c.phase == w.store.changes[id].phase
    ensures MayProgress(w, id, c)
  {
  }

  lemma MayRecordRequiresDevice(w: World, id: ChangeId, c: Change)
    requires Owner(w.store, id) && id in w.store.dossiers && !ControlPlaneDurable(w.store, id)
    requires w.store.changes[id].state in {Validated, Prepared, Applying}
    requires SameIdentity(w.store.changes[id], c) && !PastBoundary(c.phase) && c.state == RequiresDevice
    requires !(Live(w.device.trial) && OnTrial(w.device, c.binding))
    ensures MayProgress(w, id, c)
  {
  }

  /** Nothing of a change is live on the device before the change is applying. */
  lemma NotLiveYet(w: World, id: ChangeId, codec: Codec)
    requires Inv(w, codec) && Owner(w.store, id)
    requires w.store.changes[id].state in {Validated, Prepared}
    ensures !(Live(w.device.trial) && OnTrial(w.device, w.store.changes[id].binding))
  {
    hide OneForward, ActiveOk, CommittedOk, SettledOk, CandidateOk, PhaseOk;
    assert ChangeOk(w.store, id, codec);
  }

  /** The rollback timer does not bring anything back. */
  lemma StillNotLive(before: Device, after: Device, b: Binding)
    requires after == before || after == MoveTimer(before)
    requires !(Live(before.trial) && OnTrial(before, b))
    ensures !(Live(after.trial) && OnTrial(after, b))
  {
  }

  // ---- the six steps of an apply ----

  function StepAt(index: nat): Step {
    match index
    case 0 => Step.Prepare
    case 1 => ValidateCandidate
    case 2 => SnapshotCurrent
    case 3 => ApplyCandidate
    case 4 => VerifyManagement
    case _ => VerifyDataPlane
  }

  /** The state recorded before a step is called. */
  function RecordedBefore(index: nat): State {
    match index
    case 0 => Validated
    case 1 => Prepared
    case 2 => Prepared
    case 3 => Applying
    case _ => Verifying
  }

  function StateAfter(index: nat, good: bool): State {
    if index == 0 && good then Prepared else RecordedBefore(index)
  }

  function StateOnEntry(index: nat): State {
    match index
    case 0 => Validated
    case 1 => Prepared
    case 2 => Prepared
    case 3 => Prepared
    case 4 => Applying
    case _ => Verifying
  }

  /** With this reply to the step an apply goes on. */
  predicate Passes(index: nat, r: StepResult, b: Binding) {
    StepOK(r) && (index == 3 ==> ArtifactEvidenceMatches(r, b))
  }

  /** Where an apply ends at a step that it cannot go on from. */
  function StoppedState(index: nat, r: StepResult): State {
    if !StepOK(r) && (r.status == "SKIPPED" || r.status == "UNVERIFIED") then RequiresDevice
    else if !StepOK(r) && index >= 4 then RolledBack
    else Failed
  }

  ghost predicate AllPass(replies: seq<StepResult>, b: Binding) {
    forall k | 0 <= k < |replies| :: Passes(k, replies[k], b)
  }

  /** The replies of a whole apply: every one but the last lets it go on, and the last ends it. */
  ghost predicate Complete(replies: seq<StepResult>, b: Binding) {
    && 0 < |replies| <= 6 && AllPass(replies[..|replies| - 1], b)
    && (|replies| < 6 ==> !Passes(|replies| - 1, replies[|replies| - 1], b))
  }

  /** The state in which an apply with these replies ends. */
  function AppliedState(replies: seq<StepResult>, b: Binding): State {
    if |replies| == 0 then Validated
    else
      var last := replies[|replies| - 1];
      if !Passes(|replies| - 1, last, b) then StoppedState(|replies| - 1, last)
      else if |replies| == 6 && replies[4].managementVerified && last.dataPlaneVerified then AwaitingConfirmation
      else RolledBack
  }

  lemma StopsAt(replies: seq<StepResult>, r: StepResult, b: Binding)
    requires |replies| < 6 && AllPass(replies, b) && !Passes(|replies|, r, b)
    ensures Complete(replies + [r], b)
    ensures AppliedState(replies + [r], b) == StoppedState(|replies|, r) != AwaitingConfirmation
  {
    var all := replies + [r];
    assert all[..|all| - 1] == replies;
  }

  lemma RunsThrough(replies: seq<StepResult>, b: Binding)
    requires |replies| == 6 && AllPass(replies, b)
    ensures Complete(replies, b)
    ensures AppliedState(replies, b)
            == if replies[4].managementVerified && replies[5].dataPlaneVerified then AwaitingConfirmation else RolledBack
  {
  }

  /** From its fourth step on an apply has the change in effect. */
  ghost predicate Effective(index: nat, d: Device, b: Binding) {
    index > 3 ==> InEffect(d) == Some(b)
  }

  /** What the log proves once the steps below `index` have succeeded. */
  ghost predicate LogSoFar(c: Change, first: nat, index: nat) {
    && |c.steps| == first + index
    && (index > 3 ==> ProvesApply(c.steps[first + 3], c.binding))
    && (index > 4 ==> (c.managementVerified ==> ProvesManagement(c.steps[first + 4])))
    && (index > 5 ==> (c.dataPlaneVerified ==> ProvesDataPlane(c.steps[first + 5])))
  }

  lemma LogStarts(c: Change)
    ensures LogSoFar(c, |c.steps|, 0)
  {
  }

  lemma LogComplete(c: Change, first: nat)
    requires LogSoFar(c, first, 6) && c.managementVerified && c.dataPlaneVerified
    ensures Verified(c.(state := AwaitingConfirmation))
  {
    assert ProvesApply(c.steps[first + 3], c.binding);
    assert ProvesManagement(c.steps[first + 4]);
    assert ProvesDataPlane(c.steps[first + 5]);
  }

  /** The log after one more successful step. */
  lemma LogStep(c: Change, first: nat, index: nat, r: StepResult, next: Change)
    requires LogSoFar(c, first, index) && index < 6
    requires r.step == StepAt(index) && StepOK(r) && (index == 3 ==> ArtifactEvidenceMatches(r, c.binding))
    requires next.steps == c.steps + [r] && next.binding == c.binding
    requires next.managementVerified == if index == 4 then r.managementVerified else c.managementVerified
    requires next.dataPlaneVerified == if index == 5 then r.dataPlaneVerified else c.dataPlaneVerified
    ensures LogSoFar(next, first, index + 1)
  {
  }

  // ---- validation: a read, then a write ----

  /** What `validateChangeSet` has read when it starts to build the candidate. */
  datatype Reading = Reading(id: ChangeId, change: Change, config: Json)

  /** The draft is still the one that was read, and its base is still what was read or is out of date. */
  ghost predicate ReadingOk(s: Store, r: Reading) {
    && r.id in s.changes && s.changes[r.id] == r.change && r.change.state.Draft? && !r.change.noop
    && r.change.base <= s.version
    && (s.version == r.change.base ==> s.activeConfig == r.config)
  }

  /** Whatever other changes do in between, commits included, a reading stays usable. */
  lemma ReadingSurvives(w: World, e: Event, r: Reading, codec: Codec)
    requires Inv(w, codec) && Enabled(w, e, codec) && ReadingOk(w.store, r)
    requires IsWrite(e) ==> e.id != r.id
    ensures ReadingOk(Next(w, e, codec).store, r)
  {
    hide Inv, MayProgress, MayValidate, MayComplete, MayCrossBoundary, PendingFinalize, MayRollBack, MayRecordNoop;
    hide WriteProgress, WriteValidated, WriteBoundary, WriteFinalizeAmbiguous, WriteCompletion, WriteRecoveredCompletion;
    CommitMovesVersion(w, e, codec);
    if IsWrite(e) { WriteTouchesOne(w, e, r.id, codec); }
  }

  /** The same over whole operations on another change. */
  lemma ReadingKept(s: Store, s2: Store, id: ChangeId, r: Reading)
    requires OthersKept(s, s2, id) && ReadingOk(s, r) && r.id != id
    ensures ReadingOk(s2, r)
  {
    assert r.id in s.changes - {id} && (s.changes - {id})[r.id] == s.changes[r.id];
    assert r.id in s2.changes - {id} && (s2.changes - {id})[r.id] == s2.changes[r.id];
  }

  lemma BuildIsCandidate(config: Json, ops: seq<ChangeOp>, codec: Codec)
    requires config.Object?
    ensures Build(config, ops, codec) == Candidate(config, ops, codec)
  {
  }

  /** What the rows of an active revision other than the baseline say. */
  lemma ActiveRows(w: World, id: ChangeId, codec: Codec)
    requires Inv(w, codec) && w.store.activeRevision == Rev(id)
    ensures Owner(w.store, id) && id in w.store.dossiers
    ensures var c, d := w.store.changes[id], w.store.dossiers[id];
            && d.revision.binding == c.binding && d.tx.tx.binding == c.binding && c.binding.rev == Rev(id)
            && d.tx.state == c.state && c.binding.hash == Digest(w.store.activeConfig)
            && c.state == (if AwaitsFinalize(w.store) then Committing else Committed)
            && d.revision.state == (if AwaitsFinalize(w.store) then RevisionPending else RevisionCommitted)
            && (!AwaitsFinalize(w.store) ==> w.device.committed == Some(c.binding))
  {
    hide OneForward, TrialOk, CommittedOk, CandidateOk, Verified;
    assert ChangeOk(w.store, id, codec);
  }

  /** The baseline is active only with the config it was written with. */
  lemma BaselineConfig(p: Plant)
    requires p.Valid() && p.store.activeRevision == Baseline
    ensures p.store.activeConfig == p.baseline
  {
    hide IsRun, After, CommittedOps, ChangesOk, OneForward, CommittedOk, SettledOk, TrialOk;
    LinearHistory(p.start, p.events, p.codec);
  }

  // ---- the split commit ----

  lemma MayRecordCommitting(w: World, id: ChangeId, c: Change)
    requires Owner(w.store, id) && id in w.store.dossiers && !ControlPlaneDurable(w.store, id)
    requires w.store.changes[id].state in {AwaitingConfirmation, Committing} && c.state == Committing
    requires SameIdentity(w.store.changes[id], c) && !PastBoundary(c.phase)
    requires w.store.changes[id].steps <= c.steps
    requires c.managementVerified == w.store.changes[id].managementVerified
    requires c.dataPlaneVerified == w.store.changes[id].dataPlaneVerified
    requires c.phase == AdapterActivated ==> ActivationProved(w.device, c)
    ensures MayProgress(w, id, c)
  {
  }

  /** What the store holds after the boundary write. */
  lemma BoundaryRows(s: Store, id: ChangeId)
    requires MayCrossBoundary(s, id)
    ensures var s2 := WriteBoundary(s, id);
            && s2.changes == s.changes[id := BoundaryChange(s.changes[id])]
            && s2.activeConfig == s.dossiers[id].candidate.config && s2.activeRevision == Rev(id)
            && s2.version == s.changes[id].base + 1
            && PendingFinalize(s2, id) && id in s2.dossiers
  {
  }

  lemma CompletionRows(s: Store, id: ChangeId, steps: seq<StepResult>)
    requires PendingFinalize(s, id)
    ensures var s2 := WriteCompletion(s, id, steps);
            && s2.changes == s.changes[id := CompletedChange(s.changes[id], steps)]
            && s2.activeConfig == s.activeConfig && s2.activeRevision == s.activeRevision && s2.version == s.version
  {
  }

  lemma AmbiguousRows(s: Store, id: ChangeId, steps: seq<StepResult>)
    requires PendingFinalize(s, id)
    ensures var s2 := WriteFinalizeAmbiguous(s, id, steps);
            s2.changes == s.changes && s2.activeConfig == s.activeConfig && s2.version == s.version
  {
  }

  ghost predicate NoneCommitting(changes: map<ChangeId, Change>) {
    forall id | id in changes :: changes[id].state != Committing
  }

  lemma NoneCommittingKept(before: map<ChangeId, Change>, after: map<ChangeId, Change>, id: ChangeId)
    requires id in after && after - {id} == before - {id} && after[id].state != Committing
    requires NoneCommitting(before)
    ensures NoneCommitting(after)
  {
    forall other | other in after ensures after[other].state != Committing {
      if other != id {
        assert other in after - {id};
        assert (after - {id})[other] == (before - {id})[other];
      }
    }
  }

  lemma NoneCommittingStays(before: Store, after: Store, id: ChangeId)
    requires OnlyRowsOf(before, after, id) && after.changes[id].state != Committing
    requires NoneCommitting(before.changes)
    ensures NoneCommitting(after.changes)
  {
    NoneCommittingKept(before.changes, after.changes, id);
  }

  /** What the files, the clock and the adapter answer during a confirmation; the files are read twice. */
  datatype Answers = Answers(intact: bool, expired: bool, reachable: bool, stillIntact: bool)

  /** What the generator has made of a candidate, as far as the change keeps it. */
  datatype Artifacts = Artifacts(manifest: nat, ready: bool, simulation: bool)

  function RecordOf(config: Json, files: Artifacts): CandidateRecord {
    CandidateRecord(config, Digest(config), files.manifest, files.ready, files.simulation)
  }

  datatype Decision = Refuse | Expire | Fail | Commit

  datatype UndoDecision = RefuseUndo | Undone | Undo | Incapable

  datatype ApplyDecision = RefuseApply | CommitNoop | Park | Deploy

  class Server {
    const plant: Plant
    const development: bool
    var changes: map<ChangeId, Change>
    var activeConfig: Json
    var activeRevision: RevId
    var version: int
    var recovery: RecoveryStatus

    /** Memory and store agree. */
    ghost predicate InStep()
      reads this, plant
    {
      && changes == plant.store.changes && activeConfig == plant.store.activeConfig
      && activeRevision == plant.store.activeRevision && version == plant.store.version
    }

    /** Between two operations: an open fence means that memory and store agree and no commit is unfinished. */
    ghost predicate Valid()
      reads this, plant
    {
      && plant.Valid()
      && (AllowsMutation(recovery) ==> InStep() && NoneCommitting(changes))
    }

    /** A process start: everything is read back from the store and the fence is closed. */
    constructor (plant: Plant, development: bool)
      requires plant.Valid()
      ensures this.plant == plant && this.development == development
      ensures Valid() && InStep() && recovery == Starting
    {
      this.plant := plant;
      this.development := development;
      changes := plant.store.changes;
      activeConfig := plant.store.activeConfig;
      activeRevision := plant.store.activeRevision;
      version := plant.store.version;
      recovery := Starting;
    }

    /** `saveProgress`, for a change whose transaction binding has been checked. */
    method Progress(id: ChangeId, next: Change) returns (ok: bool, up: bool)
      requires plant.Valid() && MayProgress(plant.Now(), id, next)
      modifies this`changes, plant
      ensures plant.Valid() && plant.Idle(old(plant.device))
      ensures plant.store == old(plant.store) || plant.store == WriteProgress(old(plant.store), id, next)
      ensures up ==> plant.store == if ok then WriteProgress(old(plant.store), id, next) else old(plant.store)
      ensures up ==> changes == if ok then old(changes)[id := next] else old(changes)
      ensures plant.Since(old(plant.events), old(plant.faults))
      ensures plant.faults == old(plant.faults) ==> plant.device == old(plant.device) && (up ==> ok)
    {
      hide Inv, Initial, ProgressAllowed;
      ok, up := plant.Write(WriteProgress(plant.store, id, next), SaveProgress(id, next));
      if up && ok {
        changes := changes[id := next];
      }
    }

    ghost predicate RolledBackTo(id: ChangeId, final: State)
      reads plant
    {
      && id in plant.store.changes && plant.store.changes[id].state == final
      && !OnTrial(plant.device, plant.store.changes[id].binding)
    }

    ghost predicate RollbackUnfinished(id: ChangeId, before: State)
      reads plant
    {
      id in plant.store.changes && plant.store.changes[id].state in {before, RollingBack, RollbackFailed}
    }

    /** The reply does not prove the rollback; if that cannot be recorded the change stays rolling back. */
    method RecordRollbackFailed(id: ChangeId, next: Change) returns (up: bool)
      requires plant.Valid() && InStep() && MayRollBack(plant.store, id) && id in plant.store.dossiers
      requires SameIdentity(plant.store.changes[id], next) && !PastBoundary(next.phase) && next.state == RollbackFailed
      modifies this`changes, plant
      ensures plant.Valid()
      ensures up ==> InStep() && OnlyRowsOf(old(plant.store), plant.store, id) && RollbackUnfinished(id, RollingBack)
      ensures plant.Idle(old(plant.device)) && plant.Since(old(plant.events), old(plant.faults))
    {
      hide Inv, Initial, IsRun, After, MayProgress, WriteProgress, ControlPlaneDurable, Plant.Valid, OnlyRowsOf, TransactionOf;
      OnlyRowsSame(plant.store, id);
      MayRecordRollingBack(plant.Now(), id, next);
      ProgressRows(plant.store, id, next);
      var ok;
      ok, up := Progress(id, next);
    }

    /** The second half of `rollbackLocked`: recording what the adapter replied. */
    method RecordRollback(id: ChangeId, rolling: Change, r: StepResult, final: State) returns (ok: bool, up: bool)
      requires plant.Valid() && InStep() && MayRollBack(plant.store, id) && id in plant.store.dossiers
      requires SameIdentity(plant.store.changes[id], rolling) && !PastBoundary(rolling.phase)
      requires final == RolledBack || final == Expired || final == Failed || final == RequiresDevice
      requires RollbackBelieved(r, rolling.binding) ==> !OnTrial(plant.device, rolling.binding)
      modifies this`changes, this`recovery, plant
      ensures plant.Valid()
      ensures up ==> InStep() && OnlyRowsOf(old(plant.store), plant.store, id)
      ensures up ==> recovery == old(recovery) || (!ok && recovery == RecoveryRequired)
      ensures up ==> if ok then RolledBackTo(id, final) else RollbackUnfinished(id, RollingBack)
      ensures plant.Idle(old(plant.device)) && plant.Since(old(plant.events), old(plant.faults))
      ensures plant.faults == old(plant.faults) ==> plant.device == old(plant.device) || !RollbackBelieved(r, rolling.binding)
      ensures plant.faults == old(plant.faults) && RollbackBelieved(r, rolling.binding) && up ==> ok
    {
      hide Inv, Initial, IsRun, After, Plant.Valid, OnlyRowsOf, MayProgress, RollbackAccepted, OnTrial, MayRollBack;
      var bound := r.operation != "" || r.protocolVersion != 0;
      var next := rolling.(steps := rolling.steps + [r]);
      if (bound && !RollbackAccepted(r, rolling.binding)) || !StepOK(r) {
        up := RecordRollbackFailed(id, next.(state := RollbackFailed));
        if bound && !RollbackAccepted(r, rolling.binding) {
          recovery := RecoveryRequired;
        }
        return false, up;
      }
      ok, up := RecordRolledBack(id, next.(state := final, managementVerified := false, dataPlaneVerified := false));
      if up && !ok {
        recovery := RecoveryRequired;
      }
    }

    /** The last record of a rollback that is believed. */
    method RecordRolledBack(id: ChangeId, next: Change) returns (ok: bool, up: bool)
      requires plant.Valid() && InStep() && MayRollBack(plant.store, id) && id in plant.store.dossiers
      requires SameIdentity(plant.store.changes[id], next) && !PastBoundary(next.phase)
      requires next.state == RolledBack || next.state == Expired || next.state == Failed || next.state == RequiresDevice
      requires !OnTrial(plant.device, next.binding)
      modifies this`changes, plant
      ensures plant.Valid()
      ensures up ==> InStep() && OnlyRowsOf(old(plant.store), plant.store, id)
      ensures up ==> if ok then RolledBackTo(id, next.state) else RollbackUnfinished(id, RollingBack)
      ensures plant.Idle(old(plant.device)) && plant.Since(old(plant.events), old(plant.faults))
      ensures plant.faults == old(plant.faults) ==> plant.device == old(plant.device) && (up ==> ok)
    {
      hide Inv, Initial, IsRun, After, MayProgress, WriteProgress, ControlPlaneDurable, Plant.Valid, OnlyRowsOf, TransactionOf;
      OnlyRowsSame(plant.store, id);
      MayRecordRolledBack(plant.Now(), id, next);
      ProgressRows(plant.store, id, next);
      ok, up := Progress(id, next);
    }

    /** The adapter is asked to roll back, which is on record, and its reply is recorded. */
    method AskRollback(id: ChangeId, rolling: Change, final: State) returns (ok: bool, up: bool)
      requires plant.Valid() && InStep() && MayRollBack(plant.store, id) && id in plant.store.dossiers
      requires plant.store.changes[id] == rolling && !PastBoundary(rolling.phase)
      requires final == RolledBack || final == Expired || final == Failed || final == RequiresDevice
      modifies this`changes, this`recovery, plant
      ensures plant.Valid()
      ensures up ==> InStep() && OnlyRowsOf(old(plant.store), plant.store, id)
      ensures up ==> recovery == old(recovery) || (!ok && recovery == RecoveryRequired)
      ensures up ==> if ok then RolledBackTo(id, final) else RollbackUnfinished(id, RollingBack)
      ensures plant.AtMostDropped(old(plant.device)) && plant.Since(old(plant.events), old(plant.faults))
      ensures plant.faults == old(plant.faults) && up ==>
                ok && plant.device == MoveRollback(old(plant.device), rolling.binding)
    {
      hide Inv, Initial, IsRun, After, ControlPlaneDurable, Plant.Valid, OnlyRowsOf;
      hide StepOK, OnTrial, RollbackAccepted, RollbackBelieved, MoveRollback;
      OnlyRowsSame(plant.store, id);
      ok := false;
      var r;
      r, up := plant.Rollback(id);
      if up {
        ok, up := RecordRollback(id, rolling, r, final);
      }
    }

    /** `rollbackLocked`: the rollback is recorded before it is asked for, and its outcome after. */
    method RollbackLocked(id: ChangeId, c: Change, final: State) returns (ok: bool, up: bool)
      requires plant.Valid() && InStep() && Owner(plant.store, id) && id in plant.store.dossiers
      requires !Absorbing(plant.store.changes[id].state) && !ControlPlaneDurable(plant.store, id)
      requires SameIdentity(plant.store.changes[id], c) && !PastBoundary(c.phase)
      requires final == RolledBack || final == Expired || final == Failed || final == RequiresDevice
      modifies this`changes, this`recovery, plant
      ensures plant.Valid()
      ensures up ==> InStep() && OnlyRowsOf(old(plant.store), plant.store, id)
      ensures up ==> recovery == old(recovery) || (!ok && recovery == RecoveryRequired)
      ensures up ==> if ok then RolledBackTo(id, final) else RollbackUnfinished(id, old(plant.store.changes[id].state))
      ensures plant.AtMostDropped(old(plant.device)) && plant.Since(old(plant.events), old(plant.faults))
      ensures plant.faults == old(plant.faults) && up ==>
                ok && plant.device == MoveRollback(old(plant.device), c.binding)
    {
      hide Inv, Initial, IsRun, After, MayProgress, WriteProgress, Plant.Valid, OnlyRowsOf;
      hide OnTrial, TransactionOf, MoveRollback;
      ghost var before := plant.store;
      OnlyRowsSame(before, id);
      var rolling := c.(state := RollingBack);
      MayRecordRollingBack(plant.Now(), id, rolling);
      ProgressRows(plant.store, id, rolling);
      ok, up := Progress(id, rolling);
      if up && ok {
        ghost var asked := plant.store;
        ok, up := AskRollback(id, rolling, final);
        if up {
          OnlyRowsChain(before, asked, plant.store, id);
        }
      }
    }

    /** The change is the only one in the slot and its record is in state `state`. */
    ghost predicate Underway(id: ChangeId, c: Change, state: State)
      reads this, plant
    {
      && InStep() && Owner(plant.store, id) && id in plant.store.dossiers && !ControlPlaneDurable(plant.store, id)
      && MayEnter(plant.store, id)
      && SameIdentity(plant.store.changes[id], c) && !PastBoundary(c.phase) && c.phase == plant.store.changes[id].phase
      && plant.store.changes[id].state == c.state == state
    }

    /** The change ended without being deployed. */
    ghost predicate Withdrawn(id: ChangeId)
      reads plant
    {
      && id in plant.store.changes
      && plant.store.changes[id].state in {RequiresDevice, Failed, RolledBack}
      && !(Live(plant.device.trial) && OnTrial(plant.device, plant.store.changes[id].binding))
    }

    /** Records `next` while the change is still on its way up to verification. */
    method EarlyProgress(id: ChangeId, c: Change, next: Change) returns (ok: bool, up: bool)
      requires plant.Valid() && Underway(id, c, c.state)
      requires c.state in {Validated, Prepared, Applying, Verifying}
      requires SameIdentity(c, next) && next.phase == c.phase
      requires Rank(c.state) <= Rank(next.state) && next.state in {Validated, Prepared, Applying, Verifying}
      modifies this`changes, plant
      ensures plant.Valid() && plant.Idle(old(plant.device))
      ensures up ==> InStep() && OnlyRowsOf(old(plant.store), plant.store, id)
      ensures up ==> id in plant.store.changes
                     && plant.store.changes[id] == if ok then next else old(plant.store.changes[id])
      ensures up ==> id in plant.store.dossiers && !ControlPlaneDurable(plant.store, id) && MayEnter(plant.store, id)
      ensures plant.Since(old(plant.events), old(plant.faults))
      ensures plant.faults == old(plant.faults) ==> plant.device == old(plant.device) && (up ==> ok)
    {
      hide Inv, Initial, IsRun, After, MayProgress, WriteProgress, ControlPlaneDurable, Plant.Valid, MayEnter;
      MayRecordEarly(plant.Now(), id, next);
      ProgressRows(plant.store, id, next);
      OnlyRowsSame(plant.store, id);
      EnterKept(plant.store, WriteProgress(plant.store, id, next), id);
      ok, up := Progress(id, next);
    }

    /** One adapter call of an apply. */
    method CallStep(id: ChangeId, c: Change, index: nat) returns (r: StepResult, up: bool)
      requires plant.Valid() && index < 6 && Owner(plant.store, id) && plant.store.changes[id] == c
      requires c.state == RecordedBefore(index)
      modifies plant
      ensures plant.Valid() && plant.store == old(plant.store) && r.step == StepAt(index)
      ensures index < 4 && (r.status == "SKIPPED" || r.status == "UNVERIFIED") ==>
                !(Live(plant.device.trial) && OnTrial(plant.device, c.binding))
      ensures plant.Since(old(plant.events), old(plant.faults))
      ensures plant.faults == old(plant.faults) && Effective(index, old(plant.device), c.binding) && Passes(index, r, c.binding)
              ==> Effective(index + 1, plant.device, c.binding)
    {
      hide Inv, Initial, IsRun, After, Plant.Valid;
      if index == 0 {
        r, up := plant.Prepare(id);
      } else if index == 3 {
        r, up := plant.Apply(id);
      } else {
        r, up := plant.Ask(StepAt(index));
      }
      if index < 3 {
        NotLiveYetHere(id);
      }
    }

    lemma NotLiveYetHere(id: ChangeId)
      requires plant.Valid() && Owner(plant.store, id) && plant.store.changes[id].state in {Validated, Prepared}
      ensures !(Live(plant.device.trial) && OnTrial(plant.device, plant.store.changes[id].binding))
    {
      NotLiveYet(plant.Now(), id, plant.codec);
    }

    /** Nothing of the change is live: it waits for the device. */
    method ParkStopped(id: ChangeId, parked: Change) returns (ok: bool, up: bool)
      requires plant.Valid() && InStep() && Owner(plant.store, id) && id in plant.store.dossiers
      requires plant.store.changes[id].state in {Validated, Prepared, Applying} && !ControlPlaneDurable(plant.store, id)
      requires SameIdentity(plant.store.changes[id], parked) && !PastBoundary(parked.phase) && parked.state == RequiresDevice
      requires !(Live(plant.device.trial) && OnTrial(plant.device, parked.binding))
      modifies this`changes, plant
      ensures plant.Valid() && plant.Idle(old(plant.device))
      ensures up ==> InStep() && OnlyRowsOf(old(plant.store), plant.store, id) && plant.store.changes[id].state != Committing
      ensures up && ok ==> Withdrawn(id) && HasState(id, RequiresDevice)
      ensures up && !ok ==> plant.store == old(plant.store)
      ensures plant.Since(old(plant.events), old(plant.faults)) && (plant.faults == old(plant.faults) && up ==> ok)
    {
      hide Inv, Initial, IsRun, After, MayProgress, WriteProgress, ControlPlaneDurable, Plant.Valid, OnlyRowsOf;
      MayRecordRequiresDevice(plant.Now(), id, parked);
      ProgressRows(plant.store, id, parked);
      OnlyRowsSame(plant.store, id);
      ok, up := Progress(id, parked);
    }

    /** A step that failed: the change is parked, or undone if it may already be applied. */
    method StepFailed(id: ChangeId, c: Change, index: nat, r: StepResult) returns (ok: bool, up: bool)
      requires plant.Valid() && InStep() && Owner(plant.store, id) && id in plant.store.dossiers
      requires plant.store.changes[id] == c && !ControlPlaneDurable(plant.store, id) && !PastBoundary(c.phase)
      requires c.state in {Validated, Prepared, Applying, Verifying} && (index < 4 ==> c.state != Verifying) && !StepOK(r)
      requires index < 4 && (r.status == "SKIPPED" || r.status == "UNVERIFIED") ==>
                 !(Live(plant.device.trial) && OnTrial(plant.device, c.binding))
      modifies this`changes, this`recovery, plant
      ensures plant.Valid()
      ensures up ==> InStep() && OnlyRowsOf(old(plant.store), plant.store, id)
      ensures up ==> recovery == old(recovery) || (!ok && recovery == RecoveryRequired)
      ensures up ==> plant.store.changes[id].state != Committing
      ensures up && ok ==> AppliedAs(id, StoppedState(index, r))
      ensures plant.Since(old(plant.events), old(plant.faults)) && (plant.faults == old(plant.faults) && up ==> ok)
    {
      hide Inv, Initial, IsRun, After, MayProgress, WriteProgress, ControlPlaneDurable, Plant.Valid, OnlyRowsOf;
      if r.status == "SKIPPED" || r.status == "UNVERIFIED" {
        var parked := c.(managementVerified := false, dataPlaneVerified := false);
        if index > 3 {
          ok, up := RollbackLocked(id, parked, RequiresDevice);
        } else {
          ok, up := ParkStopped(id, parked.(state := RequiresDevice));
        }
      } else {
        ok, up := RollbackLocked(id, c, if index >= 4 then RolledBack else Failed);
      }
    }

    /** Records the state that a step needs, unless it is recorded already. */
    method EnterStep(id: ChangeId, c: Change, index: nat) returns (next: Change, ok: bool, up: bool)
      requires plant.Valid() && index < 6 && Underway(id, c, StateOnEntry(index))
      modifies this`changes, plant
      ensures plant.Valid()
      ensures up ==> InStep() && OnlyRowsOf(old(plant.store), plant.store, id)
      ensures up ==> plant.store.changes[id].state in {Validated, Prepared, Applying, Verifying}
      ensures up && ok ==> Underway(id, next, RecordedBefore(index)) && next == c.(state := RecordedBefore(index))
      ensures plant.Since(old(plant.events), old(plant.faults))
      ensures plant.faults == old(plant.faults) ==> plant.device == old(plant.device) && (up ==> ok)
    {
      hide Inv, Initial, IsRun, After, Plant.Valid, MayEnter, ControlPlaneDurable, OnlyRowsOf;
      OnlyRowsSame(plant.store, id);
      next, ok, up := c, true, true;
      if next.state != RecordedBefore(index) {
        next := next.(state := RecordedBefore(index));
        ok, up := EarlyProgress(id, c, next);
      }
    }

    /** Calls a step whose state is on record, and records its result. */
    method CallAndRecord(id: ChangeId, c: Change, index: nat) returns (next: Change, r: StepResult, ok: bool, up: bool)
      requires plant.Valid() && index < 6 && Underway(id, c, RecordedBefore(index))
      modifies this`changes, plant
      ensures plant.Valid()
      ensures up ==> InStep() && OnlyRowsOf(old(plant.store), plant.store, id)
      ensures up ==> plant.store.changes[id].state in {Validated, Prepared, Applying, Verifying}
      ensures up && ok ==> Underway(id, next, StateAfter(index, StepOK(r))) && plant.store.changes[id] == next
      ensures up && ok ==> next == c.(state := next.state, steps := c.steps + [r]) && r.step == StepAt(index)
      ensures up && ok && index < 4 && (r.status == "SKIPPED" || r.status == "UNVERIFIED") ==>
                !(Live(plant.device.trial) && OnTrial(plant.device, c.binding))
      ensures plant.Since(old(plant.events), old(plant.faults)) && (plant.faults == old(plant.faults) && up ==> ok)
      ensures plant.faults == old(plant.faults) && Effective(index, old(plant.device), c.binding) && Passes(index, r, c.binding)
              ==> Effective(index + 1, plant.device, c.binding)
    {
      hide Inv, Initial, IsRun, After, Plant.Valid, MayEnter, ControlPlaneDurable, OnlyRowsOf, WriteProgress;
      hide Live, OnTrial, StepOK, Passes, Effective;
      OnlyRowsSame(plant.store, id);
      next, ok := c, false;
      r, up := CallStep(id, plant.store.changes[id], index);
      if !up {
        return;
      }
      ghost var called := plant.device;
      next := c.(state := StateAfter(index, StepOK(r)), steps := c.steps + [r]);
      ok, up := EarlyProgress(id, c, next);
      if up && index < 4 && (r.status == "SKIPPED" || r.status == "UNVERIFIED") {
        StillNotLive(called, plant.device, c.binding);
      }
    }

    /** Records the state a step needs, calls it, and records its result. */
    method TakeStep(id: ChangeId, c: Change, index: nat, tx: Transaction)
      returns (next: Change, r: StepResult, ok: bool, up: bool)
      requires plant.Valid() && index < 6 && Underway(id, c, StateOnEntry(index)) && tx == TransactionOf(id, c)
      modifies this`changes, plant
      ensures plant.Valid()
      ensures up ==> InStep() && OnlyRowsOf(old(plant.store), plant.store, id)
      ensures up ==> plant.store.changes[id].state in {Validated, Prepared, Applying, Verifying}
      ensures up && ok ==> Underway(id, next, StateAfter(index, StepOK(r))) && plant.store.changes[id] == next
      ensures up && ok ==> next == c.(state := next.state, steps := c.steps + [r]) && r.step == StepAt(index)
      ensures up && ok && index < 4 && (r.status == "SKIPPED" || r.status == "UNVERIFIED") ==>
                !(Live(plant.device.trial) && OnTrial(plant.device, c.binding))
      ensures plant.Since(old(plant.events), old(plant.faults)) && (plant.faults == old(plant.faults) && up ==> ok)
      ensures plant.faults == old(plant.faults) && Effective(index, old(plant.device), c.binding) && Passes(index, r, c.binding)
              ==> Effective(index + 1, plant.device, c.binding) || !up
    {
      hide Inv, Initial, IsRun, After, Plant.Valid, Underway, OnlyRowsOf, StateAfter, StateOnEntry, RecordedBefore;
      hide Live, OnTrial, StepOK, Passes, Effective, StepAt;
      ghost var s0 := plant.store;
      next, ok, up := EnterStep(id, c, index);
      r := *;
      if !up || !ok {
        return;
      }
      if !TransactionBound(id, next, tx) {
        assert false;
      }
      ghost var s1 := plant.store;
      next, r, ok, up := CallAndRecord(id, next, index);
      if up { OnlyRowsChain(s0, s1, plant.store, id); }
    }

    /** One turn of the loop of `applyChangeSet`. */
    method ApplyStep(id: ChangeId, c: Change, ghost first: nat, index: nat, tx: Transaction)
      returns (next: Change, r: StepResult, done: bool, ok: bool, up: bool)
      requires plant.Valid() && index < 6 && Underway(id, c, StateOnEntry(index)) && LogSoFar(c, first, index)
      requires tx == TransactionOf(id, c)
      modifies this`changes, this`recovery, plant
      ensures plant.Valid()
      ensures up ==> InStep() && OnlyRowsOf(old(plant.store), plant.store, id)
      ensures up ==> recovery == old(recovery) || (done && !ok && recovery == RecoveryRequired)
      ensures up ==> plant.store.changes[id].state != Committing
      ensures up && !done ==> Underway(id, next, StateOnEntry(index + 1)) && LogSoFar(next, first, index + 1)
      ensures up && !done ==> SameIdentity(c, next) && Passes(index, r, c.binding)
      ensures up && !done ==> next.managementVerified == if index == 4 then r.managementVerified else c.managementVerified
      ensures up && !done ==> next.dataPlaneVerified == if index == 5 then r.dataPlaneVerified else c.dataPlaneVerified
      ensures up && done && ok ==> !Passes(index, r, c.binding) && AppliedAs(id, StoppedState(index, r))
      ensures plant.Since(old(plant.events), old(plant.faults)) && (plant.faults == old(plant.faults) && up && done ==> ok)
      ensures plant.faults == old(plant.faults) && Effective(index, old(plant.device), c.binding) && up && !done
              ==> Effective(index + 1, plant.device, c.binding)
    {
      hide Inv, Initial, IsRun, After, Plant.Valid, MayEnter, ControlPlaneDurable, OnlyRowsOf, Effective;
      hide Live, OnTrial, LogSoFar, ArtifactEvidenceMatches, WriteProgress;
      ghost var s0 := plant.store;
      next, r, ok, up := TakeStep(id, c, index, tx);
      done := true;
      if !up || !ok {
        return;
      }
      ghost var s1 := plant.store;
      if !StepOK(r) {
        ok, up := StepFailed(id, next, index, r);
        if up { OnlyRowsChain(s0, s1, plant.store, id); }
        return;
      }
      if index == 3 && !ArtifactEvidenceMatches(r, tx.binding) {
        ok, up := RollbackLocked(id, next, Failed);
        if up { OnlyRowsChain(s0, s1, plant.store, id); }
        assert up && ok ==> AppliedAs(id, Failed);
        return;
      }
      if index == 4 {
        next := next.(managementVerified := r.managementVerified);
      }
      if index == 5 {
        next := next.(dataPlaneVerified := r.dataPlaneVerified);
      }
      LogStep(c, first, index, r, next);
      done := false;
    }

    /** The six steps have gone well: on trial if both checks say that they verified, undone otherwise. */
    method Conclude(id: ChangeId, c: Change, ghost first: nat) returns (ok: bool, up: bool)
      requires plant.Valid() && Underway(id, c, Verifying) && LogSoFar(c, first, 6)
      modifies this`changes, this`recovery, plant
      ensures plant.Valid()
      ensures up ==> InStep() && OnlyRowsOf(old(plant.store), plant.store, id)
      ensures up ==> recovery == old(recovery) || (!ok && recovery == RecoveryRequired)
      ensures up ==> plant.store.changes[id].state != Committing
      ensures up && ok ==>
                AppliedAs(id, if c.managementVerified && c.dataPlaneVerified then AwaitingConfirmation else RolledBack)
      ensures plant.Since(old(plant.events), old(plant.faults)) && (plant.faults == old(plant.faults) && up ==> ok)
      ensures plant.faults == old(plant.faults) && c.managementVerified && c.dataPlaneVerified
              ==> plant.device == old(plant.device)
    {
      hide Inv, Initial, IsRun, After, Plant.Valid, MayEnter, ControlPlaneDurable, OnlyRowsOf, MayProgress;
      hide WriteProgress, Verified, LogSoFar;
      if !c.managementVerified || !c.dataPlaneVerified {
        ok, up := RollbackLocked(id, c, RolledBack);
      } else {
        LogComplete(c, first);
        var next := c.(state := AwaitingConfirmation);
        MayRecordAwaiting(plant.Now(), id, next);
        ProgressRows(plant.store, id, next);
        OnlyRowsSame(plant.store, id);
        ok, up := Progress(id, next);
      }
    }

    /** The six steps, then the verdict: `replies` are the steps' replies as far as it went. */
    method RunSteps(id: ChangeId, entered: Change, tx: Transaction) returns (replies: seq<StepResult>, ok: bool, up: bool)
      requires plant.Valid() && Underway(id, entered, Validated) && tx == TransactionOf(id, entered)
      modifies this`changes, this`recovery, plant
      ensures plant.Valid()
      ensures up ==> InStep() && OnlyRowsOf(old(plant.store), plant.store, id)
      ensures up ==> recovery == old(recovery) || (!ok && recovery == RecoveryRequired)
      ensures up ==> plant.store.changes[id].state != Committing
      ensures up && ok ==> Complete(replies, entered.binding) && AppliedAs(id, AppliedState(replies, entered.binding))
      ensures plant.Since(old(plant.events), old(plant.faults)) && (plant.faults == old(plant.faults) && up ==> ok)
      ensures plant.faults == old(plant.faults) && up && ok
              && AppliedState(replies, entered.binding) == AwaitingConfirmation
              ==> InEffect(plant.device) == Some(entered.binding)
    {
      hide Complete, AppliedState;
      hide Inv, Initial, IsRun, After, Plant.Valid, MayEnter, ControlPlaneDurable, OnlyRowsOf, MayProgress;
      hide Live, OnTrial, WriteProgress, Verified, LogSoFar, Passes, InEffect, StoppedState, AppliedAs;
      ghost var s0 := plant.store;
      OnlyRowsSame(s0, id);
      LogStarts(entered);
      var c, index := entered, 0;
      replies := [];
      ghost var first := |entered.steps|;
      while index < 6
        invariant index <= 6
        invariant plant.Valid() && Underway(id, c, StateOnEntry(index)) && LogSoFar(c, first, index)
        invariant OnlyRowsOf(s0, plant.store, id) && recovery == old(recovery) && SameIdentity(entered, c)
        invariant |replies| == index && AllPass(replies, entered.binding)
        invariant index > 4 ==> c.managementVerified == replies[4].managementVerified
        invariant index > 5 ==> c.dataPlaneVerified == replies[5].dataPlaneVerified
        invariant plant.Since(old(plant.events), old(plant.faults))
        invariant plant.faults == old(plant.faults) ==> Effective(index, plant.device, entered.binding)
      {
        ghost var s1 := plant.store;
        var r, done;
        c, r, done, ok, up := ApplyStep(id, c, first, index, tx);
        if up { OnlyRowsChain(s0, s1, plant.store, id); }
        if up && done && !Passes(index, r, entered.binding) { StopsAt(replies, r, entered.binding); }
        replies := replies + [r];
        if !up || done {
          return;
        }
        index := index + 1;
      }
      ghost var s2 := plant.store;
      RunsThrough(replies, entered.binding);
      ok, up := Conclude(id, c, first);
      if up { OnlyRowsChain(s0, s2, plant.store, id); }
    }

    /** The change ended in this state, as an apply can. */
    ghost predicate AppliedAs(id: ChangeId, final: State)
      reads plant
    {
      HasState(id, final) && if final == AwaitingConfirmation then Awaiting(id) else Withdrawn(id)
    }

    /** Deployed on trial, with the proof of it in the step log. */
    ghost predicate Awaiting(id: ChangeId)
      reads plant
    {
      InState(plant.store, id, AwaitingConfirmation) && Verified(plant.store.changes[id])
    }

    /** `activeTransaction`: another change holds the slot or is being rolled back. */
    method ActiveTransaction(except: ChangeId) returns (busy: bool)
      ensures busy <==> exists other | other in changes :: other != except && InFlight(changes[other].state)
    {
      var todo := changes.Keys;
      while todo != {}
        invariant todo <= changes.Keys
        invariant forall other | other in changes && other !in todo :: other == except || !InFlight(changes[other].state)
      {
        var other :| other in todo;
        if other != except && InFlight(changes[other].state) {
          return true;
        }
        todo := todo - {other};
      }
      return false;
    }

    /** `createDraftChange`, with a fresh random id: inserted, persisted, removed again if that fails. */
    method CreateDraft(id: ChangeId, base: int, ops: seq<ChangeOp>) returns (ok: bool, up: bool)
      requires Valid() && id !in changes && id !in plant.store.changes
      modifies this`changes, plant
      ensures plant.Valid() && (up ==> Valid())
      ensures !old(AllowsMutation(recovery)) || base != version ==> !ok && up && plant.store == old(plant.store)
      ensures up && ok ==> HasState(id, Draft) && changes == old(changes)[id := DraftChange(id, base, ops)]
      ensures up ==> OthersKept(old(plant.store), plant.store, id)
      ensures up && !ok ==> changes == old(changes) && plant.store == old(plant.store)
      ensures plant.faults == old(plant.faults) && up ==> (ok <==> old(AllowsMutation(recovery)) && base == version)
    {
      hide Inv, Initial, IsRun, After, Plant.Valid;
      if !AllowsMutation(recovery) || base != version {
        return false, true;
      }
      VersionAtLeastOne();
      ghost var before, s0 := changes, plant.store;
      changes := changes[id := DraftChange(id, base, ops)];
      ok, up := plant.Write(WriteChange(plant.store, id, DraftChange(id, base, ops)), SaveDraft(id, base, ops));
      assert up && ok ==> plant.store.changes - {id} == s0.changes - {id};
      if !ok {
        changes := changes - {id};
        assert changes == before;
      }
    }

    lemma VersionAtLeastOne()
      requires plant.Valid()
      ensures plant.store.version >= 1
    {
    }

    ghost predicate HasState(id: ChangeId, state: State)
      reads plant
    {
      id in plant.store.changes && plant.store.changes[id].state == state
    }

    /** The first half of `validateChangeSet`. */
    method BeginValidate(id: ChangeId) returns (reading: Option<Reading>)
      requires Valid() && id in changes
      ensures reading.Some? ==> ReadingOk(plant.store, reading.value) && reading.value.id == id
      ensures reading.Some? <==> AllowsMutation(recovery) && changes[id].state == Draft && changes[id].base == version
    {
      var c := changes[id];
      if !AllowsMutation(recovery) || c.state != Draft || c.base != version {
        return None;
      }
      DraftIsNotNoop(id);
      return Some(Reading(id, c, activeConfig));
    }

    lemma DraftIsNotNoop(id: ChangeId)
      requires plant.Valid() && id in plant.store.changes && plant.store.changes[id].state == Draft
      ensures !plant.store.changes[id].noop
    {
      assert ChangeOk(plant.store, id, plant.codec);
    }

    /** The committed row of the active revision, as far as its hash and binding go. */
    function CommittedActiveBinding(): (b: Option<Binding>)
      reads this, plant
      ensures b.Some? ==> b.value.rev == activeRevision
    {
      match activeRevision
      case Baseline => Some(Binding(Tx(""), Baseline, Digest(plant.baseline), 0))
      case Rev(id) =>
        if id in plant.store.dossiers && plant.store.dossiers[id].revision.state == RevisionCommitted
           && plant.store.dossiers[id].revision.binding.rev == activeRevision
        then Some(plant.store.dossiers[id].revision.binding) else None
    }

    /** It is missing exactly while the active revision is not finalized, and otherwise what the device has committed. */
    lemma ActiveBindingFacts()
      requires plant.Valid() && InStep()
      ensures CommittedActiveBinding().Some? <==> !AwaitsFinalize(plant.store)
      ensures CommittedActiveBinding().Some? ==> CommittedActiveBinding().value.hash == Digest(activeConfig)
      ensures CommittedActiveBinding().Some? && activeRevision.Rev? ==> plant.device.committed == CommittedActiveBinding()
    {
      hide Inv, Initial, IsRun, After;
      match activeRevision
      case Baseline => BaselineConfig(plant);
      case Rev(id) => ActiveRows(plant.Now(), id, plant.codec) by { ValidInv(); }
    }

    lemma ValidInv()
      requires plant.Valid()
      ensures Inv(plant.Now(), plant.codec)
    {
    }

    /** The candidate is the active config: the change is validated without a transaction of its own. */
    method RecordNoop(reading: Reading, active: Binding) returns (ok: bool, up: bool)
      requires Valid() && ReadingOk(plant.store, reading)
      requires Build(reading.config, reading.change.ops, plant.codec) == Some(reading.config)
      modifies this`changes, plant
      ensures plant.Valid() && (up ==> Valid()) && plant.Idle(old(plant.device))
      ensures up && !ok ==> plant.store == old(plant.store) && changes == old(changes)
      ensures up && ok ==> OnlyRowsOf(old(plant.store), plant.store, reading.id)
                           && HasState(reading.id, Validated)
                           && plant.store.changes[reading.id] == NoopChange(reading.change, active)
      ensures plant.Since(old(plant.events), old(plant.faults)) && (plant.faults == old(plant.faults) && up ==> ok)
    {
      hide Inv, Initial, IsRun, After, Plant.Valid, Build;
      var id := reading.id;
      ghost var s0 := plant.store;
      var next := NoopChange(reading.change, active);
      ok, up := plant.Write(WriteChange(plant.store, id, next), SaveNoop(id, active));
      if up && ok {
        changes := changes[id := next];
        assert plant.store.changes - {id} == s0.changes - {id};
      }
    }

    /** What a validation of this reading records; None if it is refused. */
    ghost function Verdict(reading: Reading, admissible: bool, files: Option<Artifacts>): Option<Change>
      requires reading.config.Object?
      reads this, plant
    {
      var id, built := reading.id, Build(reading.config, reading.change.ops, plant.codec);
      var active := CommittedActiveBinding();
      if built.None? || !admissible then None
      else if built.value == reading.config && active.Some? && active.value.hash == Digest(built.value) then
        Some(NoopChange(reading.change, active.value))
      else if files.None? then None
      else Some(ValidatedChange(id, reading.change, RecordOf(built.value, files.value)))
    }

    /**
     * The second half of `validateChangeSet`; other changes may have moved in between. `files` are the
     * artifacts generated for the candidate, if that works.
     */
    method FinishValidate(reading: Reading, admissible: bool, files: Option<Artifacts>) returns (ok: bool, up: bool)
      requires Valid() && ReadingOk(plant.store, reading) && reading.config.Object?
      modifies this`changes, plant
      ensures plant.Valid() && (up ==> Valid()) && plant.Idle(old(plant.device))
      ensures up && !ok ==> plant.store == old(plant.store) && changes == old(changes)
      ensures up && ok ==>
                && OnlyRowsOf(old(plant.store), plant.store, reading.id)
                && Some(plant.store.changes[reading.id]) == old(Verdict(reading, admissible, files))
      ensures plant.faults == old(plant.faults) && up ==> (ok <==> old(Verdict(reading, admissible, files)).Some?)
    {
      hide Inv, Initial, IsRun, After, Plant.Valid, Build, Candidate, RevisionRow, TransactionOf, CommittedActiveBinding;
      var id, c := reading.id, reading.change;
      var built, noop := BuildCandidate(reading.config, c.ops, plant.codec);
      BuildIsCandidate(reading.config, c.ops, plant.codec);
      if built.None? || !admissible {
        ok, up := plant.WriteElsewhere();
        return false, up;
      }
      if noop {
        var active := CommittedActiveBinding();
        if active.Some? && active.value.hash == Digest(built.value) {
          ok, up := RecordNoop(reading, active.value);
          return;
        }
      }
      if files.None? {
        return false, true;
      }
      ok, up := RecordValidated(reading, RecordOf(built.value, files.value));
    }

    /** The candidate, its transaction and its revision are stored with the change. */
    method RecordValidated(reading: Reading, record: CandidateRecord) returns (ok: bool, up: bool)
      requires Valid() && ReadingOk(plant.store, reading) && record.hash == Digest(record.config)
      requires Build(reading.config, reading.change.ops, plant.codec) == Some(record.config)
      modifies this`changes, plant
      ensures plant.Valid() && (up ==> Valid()) && plant.Idle(old(plant.device))
      ensures up && !ok ==> plant.store == old(plant.store) && changes == old(changes)
      ensures up && ok ==> OnlyRowsOf(old(plant.store), plant.store, reading.id)
                           && plant.store.changes[reading.id] == ValidatedChange(reading.id, reading.change, record)
      ensures plant.Since(old(plant.events), old(plant.faults)) && (plant.faults == old(plant.faults) && up ==> ok)
    {
      hide Inv, Initial, IsRun, After, Plant.Valid, Build, RevisionRow, TransactionOf;
      var id, c := reading.id, reading.change;
      ghost var s0 := plant.store;
      ok, up := plant.Write(WriteValidated(plant.store, id, record), SaveValidated(id, record));
      if up && ok {
        changes := changes[id := ValidatedChange(id, c, record)];
        assert plant.store.changes - {id} == s0.changes - {id};
        assert plant.store.dossiers - {id} == s0.dossiers - {id};
      }
    }

    /** `applyNoopChangeSet`. */
    method ApplyNoop(id: ChangeId, c: Change, reachable: bool) returns (ok: bool, up: bool)
      requires plant.Valid() && InStep() && id in changes && changes[id] == c && c.noop
      modifies this`changes, plant
      ensures plant.Valid() && (up ==> InStep()) && plant.Idle(old(plant.device))
      ensures up && !ok ==> plant.store == old(plant.store)
      ensures up && ok ==> OnlyRowsOf(old(plant.store), plant.store, id) && HasState(id, Committed)
      ensures up && ok && c.binding.rev != Baseline ==> old(InEffect(plant.device)) == Some(c.binding)
      ensures up && ok && c.binding.rev == Baseline ==> activeRevision == Baseline
      ensures plant.Since(old(plant.events), old(plant.faults))
      ensures plant.faults == old(plant.faults) && up ==> (ok <==> old(NoopHolds(c, reachable)))
    {
      hide Inv, Initial, IsRun, After, Plant.Valid, InEffect, ActiveMatches;
      ghost var s0 := plant.store;
      if c.binding.rev == Baseline {
        if activeRevision != Baseline || activeConfig != plant.baseline {
          return false, true;
        }
      } else {
        var owner := c.binding.rev.change;
        if owner !in plant.store.dossiers || plant.store.dossiers[owner].revision.state != RevisionCommitted
           || plant.store.dossiers[owner].revision.binding != c.binding {
          return false, true;
        }
        var status;
        status, up := plant.Status(reachable);
        if !up || !ActiveMatches(status, c.binding) {
          return false, up;
        }
      }
      ok, up := plant.Write(WriteChange(plant.store, id, NoopCommittedChange(c)), SaveNoopCommitted(id));
      if up && ok {
        changes := changes[id := NoopCommittedChange(c)];
        assert plant.store.changes - {id} == s0.changes - {id};
      }
    }

    /** The deployment that a change without effect is bound to is still the one that runs. */
    ghost predicate NoopHolds(c: Change, reachable: bool)
      reads this, plant
    {
      match c.binding.rev
      case Baseline => activeRevision == Baseline && activeConfig == plant.baseline
      case Rev(owner) =>
        && owner in plant.store.dossiers && plant.store.dossiers[owner].revision.state == RevisionCommitted
        && plant.store.dossiers[owner].revision.binding == c.binding
        && reachable && InEffect(plant.device) == Some(c.binding)
    }

    /** What is to be done about an apply. */
    ghost function OnApply(id: ChangeId, intact: bool): ApplyDecision
      requires id in changes
      reads this, plant
    {
      var c := changes[id];
      if !AllowsMutation(recovery) || c.state != Validated || c.base != version
         || (exists other | other in changes :: other != id && InFlight(changes[other].state))
      then RefuseApply
      else if c.noop then CommitNoop
      else if !intact then RefuseApply
      else if !c.ready || (c.simulation && !development) then Park
      else Deploy
    }

    /**
     * `applyChangeSet`. It refuses and has no effect, commits a change without effect, parks one that needs
     * the device, or runs the steps; `replies` are their replies, and they decide the state it ends in.
     */
    method ApplyChangeSet(id: ChangeId, intact: bool, reachable: bool)
      returns (replies: seq<StepResult>, ok: bool, up: bool)
      requires Valid() && id in changes
      modifies this`changes, this`recovery, plant
      ensures plant.Valid() && (up ==> Valid())
      ensures up && plant.store != old(plant.store) ==> OnlyRowsOf(old(plant.store), plant.store, id)
      ensures up ==> recovery == old(recovery) || recovery == RecoveryRequired
      ensures up && ok ==> InStep()
      ensures old(OnApply(id, intact)) == RefuseApply ==> !ok && up && unchanged(this) && unchanged(plant)
      ensures old(OnApply(id, intact)) == CommitNoop && up ==>
                plant.Idle(old(plant.device)) && (ok ==> HasState(id, Committed)) && (!ok ==> plant.store == old(plant.store))
      ensures old(OnApply(id, intact)) == Park && up ==>
                && plant.Idle(old(plant.device)) && (ok ==> HasState(id, RequiresDevice))
                && (!ok ==> plant.store == old(plant.store))
      ensures old(OnApply(id, intact)) == Deploy && up && ok ==>
                && Complete(replies, old(changes[id].binding))
                && AppliedAs(id, AppliedState(replies, old(changes[id].binding)))
      ensures plant.faults == old(plant.faults) && up && old(OnApply(id, intact)) in {Park, Deploy} ==> ok
      ensures plant.faults == old(plant.faults) && up && old(OnApply(id, intact)) == CommitNoop ==>
                (ok <==> old(NoopHolds(changes[id], reachable)))
      ensures plant.faults == old(plant.faults) && up && old(OnApply(id, intact)) == Deploy
              && AppliedState(replies, old(changes[id].binding)) == AwaitingConfirmation
              ==> InEffect(plant.device) == Some(old(changes[id].binding))
    {
      hide Inv, Initial, IsRun, After, Plant.Valid, MayEnter, ControlPlaneDurable, OnlyRowsOf, MayProgress;
      hide WriteProgress, Verified, NoneCommitting, NoopHolds, AppliedState, Complete, AppliedAs, InEffect;
      replies := [];
      var c := changes[id];
      if !AllowsMutation(recovery) || c.state != Validated {
        return [], false, true;
      }
      var busy := ActiveTransaction(id);
      if busy || c.base != version {
        return [], false, true;
      }
      ghost var before := plant.store;
      if c.noop {
        ok, up := ApplyNoop(id, c, reachable);
        OnlyRowsSame(before, id);
        if up { NoneCommittingStays(before, plant.store, id); }
        return;
      }
      MayEnterHere(id);
      var tx := plant.store.dossiers[id].tx.tx;
      if !TransactionBound(id, c, tx) || !intact {
        return [], false, true;
      }
      if !tx.ready || (tx.simulation && !development) {
        NotLiveYetHere(id);
        ok, up := ParkStopped(id, c.(state := RequiresDevice));
      } else {
        replies, ok, up := RunSteps(id, c, tx);
      }
      if up { NoneCommittingStays(before, plant.store, id); }
    }

    /** What the checks at the start of `applyChangeSet` establish about the durable rows. */
    lemma MayEnterHere(id: ChangeId)
      requires plant.Valid() && InStep() && Owner(plant.store, id) && plant.store.changes[id].state == Validated
      requires plant.store.changes[id].base == version
      requires !exists other | other in changes :: other != id && InFlight(changes[other].state)
      ensures id in plant.store.dossiers && plant.store.dossiers[id].tx.tx == TransactionOf(id, changes[id])
      ensures Underway(id, changes[id], Validated)
    {
      hide Inv, Initial, IsRun, After;
      OwnerFacts(plant.Now(), id, plant.codec);
    }

    /** The change is committed in store, memory and device alike, and active. */
    ghost predicate Deployed(id: ChangeId)
      reads this, plant
    {
      && InStep() && InState(plant.store, id, Committed) && activeRevision == Rev(id)
      && plant.device.committed == Some(plant.store.changes[id].binding)
    }

    /** Every way out of a started commit: finished, or fenced. */
    ghost predicate CommitOutcome(id: ChangeId, base: int, others: map<ChangeId, Change>, ok: bool)
      reads this, plant
    {
      if ok then Deployed(id) && version == base + 1 && plant.store.changes - {id} == others
      else recovery == RecoveryRequired
    }

    /** `clearBootGuard`. */
    method ClearGuard() returns (ok: bool, up: bool)
      requires plant.Valid()
      modifies plant
      ensures plant.Valid() && plant.store == old(plant.store) && plant.Idle(old(plant.device))
      ensures plant.Since(old(plant.events), old(plant.faults)) && (plant.faults == old(plant.faults) ==> ok)
    {
      ok, up := plant.ClearGuard();
    }

    /** The last part of `confirmChangeSet`: finalize, then the completion record. */
    method FinishCommit(id: ChangeId, c: Change) returns (ok: bool, up: bool)
      requires plant.Valid() && InStep() && PendingFinalize(plant.store, id) && id in plant.store.dossiers
      requires plant.store.changes[id] == c && activeRevision == Rev(id) && version == c.base + 1
      modifies this`changes, this`recovery, plant
      ensures plant.Valid()
      ensures up ==> CommitOutcome(id, c.base, old(plant.store.changes) - {id}, ok)
      ensures up ==> OthersKept(old(plant.store), plant.store, id)
      ensures up && ok ==> recovery == old(recovery)
      ensures plant.Since(old(plant.events), old(plant.faults)) && (plant.faults == old(plant.faults) && up ==> ok)
    {
      hide Inv, Initial, IsRun, After, Plant.Valid, ControlPlaneDurable, WriteCompletion, WriteFinalizeAmbiguous;
      hide FinalizedAccepted;
      ghost var s0 := plant.store;
      ok := false;
      var finalized;
      finalized, up := plant.FinalizeCommit(id);
      if !up {
        return;
      }
      var steps := c.steps + [finalized];
      if !FinalizedAccepted(finalized, c.binding) {
        AmbiguousRows(plant.store, id, steps);
        ok, up := plant.Write(WriteFinalizeAmbiguous(plant.store, id, steps), SaveFinalizeAmbiguous(id, steps));
        recovery := RecoveryRequired;
        return false, up;
      }
      CompletionRows(plant.store, id, steps);
      ok, up := plant.Write(WriteCompletion(plant.store, id, steps), SaveCompletion(id, steps));
      if !up {
        return;
      }
      if !ok {
        recovery := RecoveryRequired;
        return;
      }
      ok, up := ClearGuard();
      if !ok {
        recovery := RecoveryRequired;
        return;
      }
      changes := changes[id := CompletedChange(c, steps)];
      assert plant.store.changes - {id} == s0.changes - {id};
    }

    /** Prepared commit, and the record of whether it was proved. */
    method PrepareCommit(id: ChangeId, committing: Change) returns (c: Change, accepted: bool, ok: bool, up: bool)
      requires plant.Valid() && InStep() && InState(plant.store, id, Committing) && id in plant.store.dossiers
      requires !ControlPlaneDurable(plant.store, id) && plant.store.changes[id] == committing
      requires !PastBoundary(committing.phase)
      modifies this`changes, plant
      ensures plant.Valid()
      ensures up ==> InStep() && c.base == committing.base && c.state == Committing
      ensures up && ok ==> id in plant.store.dossiers && !ControlPlaneDurable(plant.store, id)
      ensures up && ok ==> plant.store.changes == old(plant.store.changes)[id := c]
      ensures up ==> OnlyRowsOf(old(plant.store), plant.store, id)
      ensures up && ok && accepted ==> c.phase == AdapterActivated && MayCrossBoundary(plant.store, id)
      ensures up && ok && !accepted ==> c.phase == ActivationAmbiguous
      ensures up && ok && accepted ==> ActivationProved(plant.device, c)
      ensures plant.Since(old(plant.events), old(plant.faults))
      ensures plant.faults == old(plant.faults) && up ==> ok && accepted
    {
      hide Inv, Initial, IsRun, After, Plant.Valid, ControlPlaneDurable, WriteProgress, MayProgress, PreparedAccepted;
      OnlyRowsSame(plant.store, id);
      ok, accepted, c := false, false, committing;
      var prepared;
      prepared, up := plant.CommitPrepared(id);
      if !up {
        return;
      }
      accepted := PreparedAccepted(prepared, committing.binding);
      c := committing.(steps := committing.steps + [prepared],
                       phase := if accepted then AdapterActivated else ActivationAmbiguous);
      MayRecordCommitting(plant.Now(), id, c);
      ProgressRows(plant.store, id, c);
      ok, up := Progress(id, c);
    }

    /** The middle part of `confirmChangeSet`: prepared commit, then the durable control-plane commit. */
    method CommitPrepared(id: ChangeId, committing: Change) returns (ok: bool, up: bool)
      requires plant.Valid() && InStep() && InState(plant.store, id, Committing) && id in plant.store.dossiers
      requires !ControlPlaneDurable(plant.store, id) && plant.store.changes[id] == committing
      requires !PastBoundary(committing.phase) && committing.base == plant.store.version
      modifies this, plant
      ensures plant.Valid()
      ensures up ==> CommitOutcome(id, committing.base, old(plant.store.changes) - {id}, ok)
      ensures up ==> OthersKept(old(plant.store), plant.store, id)
      ensures up && ok ==> recovery == old(recovery)
      ensures plant.Since(old(plant.events), old(plant.faults)) && (plant.faults == old(plant.faults) && up ==> ok)
    {
      hide Inv, Initial, IsRun, After, Plant.Valid, ControlPlaneDurable, WriteBoundary, MayCrossBoundary;
      ghost var s0 := plant.store;
      var c, accepted;
      c, accepted, ok, up := PrepareCommit(id, committing);
      if !up {
        return;
      }
      OnlyRowsKeepsOthers(s0, plant.store, id);
      if !accepted || !ok {
        recovery := RecoveryRequired;
        return false, up;
      }
      BoundaryRows(plant.store, id);
      var config := plant.store.dossiers[id].candidate.config;
      ok, up := plant.Write(WriteBoundary(plant.store, id), SaveBoundary(id));
      if !up {
        return;
      }
      if !ok {
        recovery := RecoveryRequired;
        return;
      }
      c := BoundaryChange(c);
      activeConfig, activeRevision, version := config, Rev(id), c.base + 1;
      changes := changes[id := c];
      assert plant.store.changes - {id} == s0.changes - {id};
      ghost var crossed := plant.store;
      ok, up := FinishCommit(id, c);
      if up { OthersKeptChain(s0, crossed, plant.store, id); }
    }

    /**
     * `confirmChangeSet` on an adapter with the split commit. What it does is decided by the fence, the record,
     * the device and the answers: it refuses and has no effect, or undoes the trial because its time is over or
     * because it is not what runs, or commits it.
     */
    method ConfirmChangeSet(id: ChangeId, answers: Answers) returns (ok: bool, up: bool)
      requires Valid() && id in changes
      modifies this, plant
      ensures plant.Valid() && (up ==> Valid())
      ensures up ==> recovery == old(recovery) || recovery == RecoveryRequired
      ensures up ==> OthersKept(old(plant.store), plant.store, id)
      ensures old(OnConfirmation(id, answers)) == Refuse ==> !ok && up && unchanged(this) && unchanged(plant)
      ensures old(OnConfirmation(id, answers)) == Expire && up ==>
                !ok && EndedAs(id, Expired, AwaitingConfirmation) && OnlyRowsOf(old(plant.store), plant.store, id)
      ensures old(OnConfirmation(id, answers)) == Fail && up ==>
                && EndedAs(id, Failed, AwaitingConfirmation) && OnlyRowsOf(old(plant.store), plant.store, id)
                && (ok ==> RolledBackTo(id, Failed))
      ensures old(OnConfirmation(id, answers)) == Commit && up ==>
                if ok then Deployed(id) && version == old(version) + 1 && changes - {id} == old(changes) - {id}
                else AllowsMutation(recovery) ==> plant.store == old(plant.store)
      ensures plant.faults == old(plant.faults) && up ==>
                (ok <==> old(OnConfirmation(id, answers)) in {Fail, Commit})
                && (old(OnConfirmation(id, answers)) == Expire ==> RolledBackTo(id, Expired))
    {
      hide Inv, Initial, IsRun, After, Plant.Valid, ControlPlaneDurable, OnlyRowsOf, MayProgress, NoneCommitting;
      hide WriteProgress, ActiveMatches, OnTrial, OthersKept, InEffect, RolledBackTo, RollbackUnfinished;
      var c := changes[id];
      OnlyRowsKeepsOthers(plant.store, plant.store, id);
      if AllowsMutation(recovery) && c.state == AwaitingConfirmation { AwaitingFacts(id); }
      if !AllowsMutation(recovery) || c.state != AwaitingConfirmation || !c.managementVerified || !c.dataPlaneVerified {
        return false, true;
      }
      var tx := plant.store.dossiers[id].tx.tx;
      if !TransactionBound(id, c, tx) || !answers.intact {
        return false, true;
      }
      if answers.expired {
        ok, up := Withdraw(id, c, Expired);
        return false, up;
      }
      ok := false;
      var status;
      status, up := plant.Status(answers.reachable);
      if !up {
        return;
      }
      c := c.(steps := c.steps + [status]);
      if !ActiveMatches(status, c.binding) || !answers.stillIntact {
        ok, up := Withdraw(id, c, Failed);
        return;
      }
      ok, up := CommitVerified(id, c.(state := Committing));
    }

    /** A trial that is not to be confirmed is undone. */
    method Withdraw(id: ChangeId, c: Change, final: State) returns (ok: bool, up: bool)
      requires Valid() && AllowsMutation(recovery) && InState(plant.store, id, AwaitingConfirmation)
      requires id in plant.store.dossiers && !ControlPlaneDurable(plant.store, id)
      requires SameIdentity(plant.store.changes[id], c) && !PastBoundary(c.phase)
      requires final == Expired || final == Failed
      modifies this`changes, this`recovery, plant
      ensures plant.Valid() && (up ==> Valid())
      ensures up ==> recovery == old(recovery) || recovery == RecoveryRequired
      ensures up ==> OnlyRowsOf(old(plant.store), plant.store, id) && OthersKept(old(plant.store), plant.store, id)
      ensures up ==> EndedAs(id, final, AwaitingConfirmation) && (ok ==> RolledBackTo(id, final))
      ensures plant.Since(old(plant.events), old(plant.faults)) && (plant.faults == old(plant.faults) && up ==> ok)
    {
      hide Inv, Initial, IsRun, After, Plant.Valid, ControlPlaneDurable, OnlyRowsOf, NoneCommitting, OnTrial, OthersKept;
      ghost var before := plant.store;
      ok, up := RollbackLocked(id, c, final);
      if up { NoneCommittingStays(before, plant.store, id); OnlyRowsKeepsOthers(before, plant.store, id); }
    }

    /** What is to be done about a confirmation. */
    ghost function OnConfirmation(id: ChangeId, answers: Answers): Decision
      requires id in changes
      reads this, plant
    {
      var c := changes[id];
      if !AllowsMutation(recovery) || c.state != AwaitingConfirmation || !answers.intact then Refuse
      else if answers.expired then Expire
      else if answers.reachable && answers.stillIntact && InEffect(plant.device) == Some(c.binding) then Commit
      else Fail
    }

    /** The change was undone and recorded as `final`, or its rollback is unfinished. */
    ghost predicate EndedAs(id: ChangeId, final: State, before: State)
      reads plant
    {
      RolledBackTo(id, final) || RollbackUnfinished(id, before)
    }

    /** The rest of `confirmChangeSet`, once the trial has been checked again. */
    method CommitVerified(id: ChangeId, c: Change) returns (ok: bool, up: bool)
      requires Valid() && AllowsMutation(recovery) && InState(plant.store, id, AwaitingConfirmation)
      requires id in plant.store.dossiers && !ControlPlaneDurable(plant.store, id) && !PastBoundary(c.phase)
      requires c.state == Committing && plant.store.changes[id].steps <= c.steps
      requires c == plant.store.changes[id].(state := Committing, steps := c.steps) && c.base == plant.store.version
      requires c.phase == NoPhase
      modifies this, plant
      ensures plant.Valid() && (up ==> Valid())
      ensures up ==> recovery == old(recovery) || recovery == RecoveryRequired
      ensures up && ok ==> Deployed(id) && version == c.base + 1 && changes - {id} == old(changes) - {id}
      ensures up && !ok && AllowsMutation(recovery) ==> plant.store == old(plant.store)
      ensures up ==> OthersKept(old(plant.store), plant.store, id)
      ensures plant.Since(old(plant.events), old(plant.faults)) && (plant.faults == old(plant.faults) && up ==> ok)
    {
      hide Inv, Initial, IsRun, After, Plant.Valid, ControlPlaneDurable, OnlyRowsOf, MayProgress, NoneCommitting, WriteProgress;
      hide OthersKept;
      ghost var before := plant.store;
      OnlyRowsSame(before, id);
      MayRecordCommitting(plant.Now(), id, c);
      ProgressRows(plant.store, id, c);
      ok, up := Progress(id, c);
      if !up {
        return;
      }
      OnlyRowsKeepsOthers(before, plant.store, id);
      if !ok {
        NoneCommittingStays(before, plant.store, id);
        return;
      }
      ProgressVersion(before, id, c);
      ghost var committing := plant.store;
      ok, up := CommitPrepared(id, c);
      if up { OthersKeptChain(before, committing, plant.store, id); }
      if up && ok { NoneCommittingKept(before.changes, plant.store.changes, id); }
    }

    lemma AwaitingFacts(id: ChangeId)
      requires Valid() && AllowsMutation(recovery) && id in changes && changes[id].state == AwaitingConfirmation
      ensures Owner(plant.store, id) && id in plant.store.dossiers && !ControlPlaneDurable(plant.store, id)
      ensures plant.store.dossiers[id].tx.tx == TransactionOf(id, changes[id]) && changes[id].phase == NoPhase
      ensures changes[id].managementVerified && changes[id].dataPlaneVerified
      ensures changes[id].base == version
    {
      assert ChangeOk(plant.store, id, plant.codec);
      OwnerFacts(plant.Now(), id, plant.codec);
    }

    /** The stored rollback capability does not verify: nothing is asked of the adapter. */
    method RecordIncapable(id: ChangeId, c: Change) returns (ok: bool, up: bool)
      requires plant.Valid() && InStep() && Owner(plant.store, id) && id in plant.store.dossiers
      requires plant.store.changes[id] == c && !Absorbing(c.state)
      requires !ControlPlaneDurable(plant.store, id) && !PastBoundary(c.phase)
      modifies this`changes, plant
      ensures plant.Valid()
      ensures up ==> InStep() && OnlyRowsOf(old(plant.store), plant.store, id) && RollbackUnfinished(id, c.state)
      ensures plant.faults == old(plant.faults) && up ==> HasState(id, RollbackFailed) && plant.device == old(plant.device)
    {
      hide Inv, Initial, IsRun, After, Plant.Valid, ControlPlaneDurable, OnlyRowsOf, MayProgress, WriteProgress;
      var next := c.(state := RollbackFailed);
      MayRecordRollingBack(plant.Now(), id, next);
      ProgressRows(plant.store, id, next);
      OnlyRowsSame(plant.store, id);
      ok, up := Progress(id, next);
    }

    /** What is to be done about a rollback: nothing more for a change that is undone, and it may be refused. */
    ghost function OnUndo(id: ChangeId, capable: bool): UndoDecision
      requires id in changes
      reads this, plant
    {
      var c := changes[id];
      if !AllowsMutation(recovery) then RefuseUndo
      else if c.state in {RolledBack, Expired} then Undone
      else if c.noop || c.state in {Draft, Committed, RollingBack, RollbackFailed} then RefuseUndo
      else if capable then Undo else Incapable
    }

    /** `rollbackChangeSet`, also run by the expiry timer; `capable` says that the rollback capability verifies. */
    method RollbackChangeSet(id: ChangeId, expired: bool, capable: bool) returns (ok: bool, up: bool)
      requires Valid() && id in changes
      modifies this`changes, this`recovery, plant
      ensures plant.Valid() && (up ==> Valid())
      ensures up && plant.store != old(plant.store) ==> OnlyRowsOf(old(plant.store), plant.store, id)
      ensures up ==> recovery == old(recovery) || recovery == RecoveryRequired
      ensures old(OnUndo(id, capable)) in {RefuseUndo, Undone} ==>
                up && unchanged(this) && unchanged(plant) && (ok <==> old(OnUndo(id, capable)) == Undone)
      ensures old(OnUndo(id, capable)) == Undo && up ==>
                if ok then InStep() && RolledBackTo(id, if expired then Expired else RolledBack)
                else RollbackUnfinished(id, old(changes[id].state))
      ensures old(OnUndo(id, capable)) == Incapable && up ==> !ok && RollbackUnfinished(id, old(changes[id].state))
      ensures plant.faults == old(plant.faults) && up && old(OnUndo(id, capable)) == Undo ==> ok
      ensures plant.faults == old(plant.faults) && up && old(OnUndo(id, capable)) == Incapable ==>
                HasState(id, RollbackFailed) && plant.device == old(plant.device)
    {
      hide Inv, Initial, IsRun, After, Plant.Valid, ControlPlaneDurable, OnlyRowsOf, MayProgress, NoneCommitting;
      hide WriteProgress, OnTrial;
      var c := changes[id];
      if !AllowsMutation(recovery) {
        return false, true;
      }
      if c.state == RolledBack || c.state == Expired {
        return true, true;
      }
      if c.state !in {Validated, Prepared, Applying, Verifying, AwaitingConfirmation, Committing, Failed, RequiresDevice} {
        return false, true;
      }
      if !c.noop { OwnerHasRows(id); }
      if c.noop || id !in plant.store.dossiers {
        return false, true;
      }
      ghost var before := plant.store;
      OnlyRowsSame(before, id);
      UndurableHere(id);
      var tx := plant.store.dossiers[id].tx.tx;
      if !TransactionBound(id, c, tx) {
        return false, true;
      }
      if !capable {
        ok, up := RecordIncapable(id, c);
        ok := false;
      } else {
        ok, up := RollbackLocked(id, c, if expired then Expired else RolledBack);
      }
      if up { NoneCommittingStays(before, plant.store, id); }
    }

    lemma OwnerHasRows(id: ChangeId)
      requires plant.Valid() && InStep() && id in changes && Owns(changes[id])
      ensures id in plant.store.dossiers && plant.store.dossiers[id].tx.tx == TransactionOf(id, changes[id])
    {
      hide Inv, Initial, IsRun, After;
      OwnerFacts(plant.Now(), id, plant.codec);
    }

    /** With the fence open no change is past its durable boundary without being committed. */
    lemma UndurableHere(id: ChangeId)
      requires Valid() && AllowsMutation(recovery) && Owner(plant.store, id) && changes[id].state != Committed
      ensures !ControlPlaneDurable(plant.store, id) && !PastBoundary(changes[id].phase)
      ensures changes[id].state != Committing
    {
      OwnerFacts(plant.Now(), id, plant.codec);
    }
  }
}
