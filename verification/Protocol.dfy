/**
 * The change protocol as it is visible from outside one process: the durable store, the device, and
 * the single writes and adapter calls that move them. A crash falls between two events.
 */
module Protocol {
  import opened Prelude
  import opened Patch
  import opened Adapter

  datatype State =
    | Draft | Validated | Prepared | Applying | Verifying | AwaitingConfirmation | Committing | Committed
    | RollingBack | RolledBack | Expired | Failed | RollbackFailed | RequiresDevice

  datatype Phase = NoPhase | ActivationAmbiguous | AdapterActivated
                 | ControlPlaneCommitted | FinalizeAmbiguous | AdapterFinalized

  datatype Change = Change(
    state: State, base: int, ops: seq<ChangeOp>, noop: bool,
    binding: Binding, ready: bool, simulation: bool,
    phase: Phase, steps: seq<StepResult>, managementVerified: bool, dataPlaneVerified: bool)

  datatype CandidateRecord = CandidateRecord(config: Json, hash: Hash, manifest: nat, ready: bool, simulation: bool)

  datatype RevisionState = RevisionValidated | RevisionPending | RevisionCommitted

  datatype TxRecord = TxRecord(tx: Transaction, state: State, phase: Phase, steps: seq<StepResult>)

  datatype Revision = Revision(binding: Binding, base: int, version: int, state: RevisionState)

  /** The rows of the `candidates`, `transactions` and `revisions` buckets that one change owns. */
  datatype Dossier = Dossier(candidate: CandidateRecord, tx: TxRecord, revision: Revision)

  datatype Store = Store(
    changes: map<ChangeId, Change>, dossiers: map<ChangeId, Dossier>,
    activeConfig: Json, activeRevision: RevId, version: int)

  datatype World = World(store: Store, device: Device)

  /** Decodes a tree into the typed config, validates it and encodes it again; None for a refusal. */
  type Codec = Json -> Option<Json>

  function Build(active: Json, ops: seq<ChangeOp>, codec: Codec): Option<Json> {
    if active.Object? then Candidate(active, ops, codec) else None
  }

  // ---- reading a state ----

  /** Holds the transaction slot and may still go forward. */
  predicate Forward(s: State) {
    s.Prepared? || s.Applying? || s.Verifying? || s.AwaitingConfirmation? || s.Committing?
  }

  function Rank(s: State): int {
    match s
    case Validated => 0
    case Prepared => 1
    case Applying => 2
    case Verifying => 3
    case _ => 4
  }

  predicate Absorbing(s: State) {
    s.Committed? || s.RolledBack? || s.Expired?
  }

  predicate PastBoundary(p: Phase) {
    p.ControlPlaneCommitted? || p.FinalizeAmbiguous? || p.AdapterFinalized?
  }

  /** The durable control-plane commit of this change has happened. */
  predicate ControlPlaneDurable(s: Store, id: ChangeId) {
    id in s.dossiers && PastBoundary(s.dossiers[id].tx.phase)
  }

  /** A change that has its own transaction. */
  predicate Owns(c: Change) {
    !c.state.Draft? && !c.noop
  }

  predicate Owner(s: Store, id: ChangeId) {
    id in s.changes && Owns(s.changes[id])
  }

  predicate InState(s: Store, id: ChangeId, state: State) {
    Owner(s, id) && s.changes[id].state == state
  }

  ghost predicate ProvesApply(r: StepResult, b: Binding) {
    r.step == ApplyCandidate && StepOK(r) && ArtifactEvidenceMatches(r, b)
  }

  ghost predicate ProvesManagement(r: StepResult) {
    r.step == VerifyManagement && StepOK(r) && r.managementVerified
  }

  ghost predicate ProvesDataPlane(r: StepResult) {
    r.step == VerifyDataPlane && StepOK(r) && r.dataPlaneVerified
  }

  /** A bound successful apply, then management verification, then data-plane verification. */
  ghost predicate LogProves(steps: seq<StepResult>, b: Binding) {
    exists i, j, k | 0 <= i < j < k < |steps| ::
      ProvesApply(steps[i], b) && ProvesManagement(steps[j]) && ProvesDataPlane(steps[k])
  }

  ghost predicate Verified(c: Change) {
    LogProves(c.steps, c.binding) && c.managementVerified && c.dataPlaneVerified
  }

  lemma LogGrows(steps: seq<StepResult>, more: seq<StepResult>, b: Binding)
    requires LogProves(steps, b) && steps <= more
    ensures LogProves(more, b)
  {
    var i, j, k :| 0 <= i < j < k < |steps|
      && ProvesApply(steps[i], b) && ProvesManagement(steps[j]) && ProvesDataPlane(steps[k]);
    assert ProvesApply(more[i], b) && ProvesManagement(more[j]) && ProvesDataPlane(more[k]);
  }

  // ---- store writes ----

  function BlankBinding(id: ChangeId): Binding {
    Binding(Tx(id), Rev(id), Digest(Null), 0)
  }

  function DraftChange(id: ChangeId, base: int, ops: seq<ChangeOp>): Change {
    Change(Draft, base, ops, false, BlankBinding(id), false, false, NoPhase, [], false, false)
  }

  function BindingOf(id: ChangeId, record: CandidateRecord): Binding {
    Binding(Tx(id), Rev(id), record.hash, record.manifest)
  }

  function TransactionOf(id: ChangeId, c: Change): Transaction {
    Transaction(c.binding, id, c.base, c.base + 1, c.ready, c.simulation)
  }

  function TxRow(id: ChangeId, c: Change): TxRecord {
    TxRecord(TransactionOf(id, c), c.state, c.phase, c.steps)
  }

  function RevisionRow(c: Change, state: RevisionState): Revision {
    Revision(c.binding, c.base, c.base + 1, state)
  }

  function ValidatedChange(id: ChangeId, c: Change, record: CandidateRecord): Change {
    c.(state := Validated, binding := BindingOf(id, record), ready := record.ready, simulation := record.simulation)
  }

  function NoopChange(c: Change, binding: Binding): Change {
    c.(state := Validated, noop := true, binding := binding)
  }

  function NoopCommittedChange(c: Change): Change {
    c.(state := Committed, managementVerified := true, dataPlaneVerified := true)
  }

  function BoundaryChange(c: Change): Change {
    c.(phase := ControlPlaneCommitted)
  }

  function CompletedChange(c: Change, steps: seq<StepResult>): Change {
    c.(state := Committed, phase := AdapterFinalized, steps := steps)
  }

  function WriteChange(s: Store, id: ChangeId, c: Change): Store {
    s.(changes := s.changes[id := c])
  }

  function WriteBoth(s: Store, id: ChangeId, c: Change, d: Dossier): Store {
    s.(changes := s.changes[id := c], dossiers := s.dossiers[id := d])
  }

  function WriteValidated(s: Store, id: ChangeId, record: CandidateRecord): Store
    requires id in s.changes
  {
    var c := ValidatedChange(id, s.changes[id], record);
    WriteBoth(s, id, c, Dossier(record, TxRow(id, c), RevisionRow(c, RevisionValidated)))
  }

  function WriteProgress(s: Store, id: ChangeId, next: Change): Store
    requires id in s.dossiers
  {
    WriteBoth(s, id, next, s.dossiers[id].(tx := TxRow(id, next)))
  }

  function Activate(s: Store, id: ChangeId, version: int): Store
    requires id in s.dossiers
  {
    s.(activeConfig := s.dossiers[id].candidate.config, activeRevision := Rev(id), version := version)
  }

  function WriteBoundary(s: Store, id: ChangeId): Store
    requires id in s.changes && id in s.dossiers
  {
    var c := BoundaryChange(s.changes[id]);
    Activate(
      WriteBoth(s, id, c, s.dossiers[id].(tx := TxRow(id, c), revision := RevisionRow(c, RevisionPending))),
      id, c.base + 1)
  }

  function WriteFinalizeAmbiguous(s: Store, id: ChangeId, steps: seq<StepResult>): Store
    requires id in s.changes && id in s.dossiers
  {
    var row := TxRecord(TransactionOf(id, s.changes[id]), Committing, FinalizeAmbiguous, steps);
    s.(dossiers := s.dossiers[id := s.dossiers[id].(tx := row)])
  }

  function WriteCompletion(s: Store, id: ChangeId, steps: seq<StepResult>): Store
    requires id in s.changes && id in s.dossiers
  {
    var c := CompletedChange(s.changes[id], steps);
    WriteBoth(s, id, c, s.dossiers[id].(tx := TxRow(id, c), revision := RevisionRow(c, RevisionCommitted)))
  }

  /** Recovery also writes the active config, revision and version again. */
  function WriteRecoveredCompletion(s: Store, id: ChangeId, steps: seq<StepResult>): Store
    requires id in s.changes && id in s.dossiers
  {
    Activate(WriteCompletion(s, id, steps), id, s.changes[id].base + 1)
  }

  // ---- device moves ----

  function MovePrepare(d: Device, b: Binding): Device {
    if d.trial.NoTrial? then d.(trial := Pending(b)) else d
  }

  function MoveApply(d: Device, b: Binding): Device {
    if OnTrial(d, b) && !d.trial.Activated? then d.(trial := Applied(b)) else d
  }

  function MoveActivate(d: Device, b: Binding): Device {
    if d.trial == Applied(b) then d.(trial := Activated(b), activated := d.activated + {b}) else d
  }

  /** The only move that commits. */
  function MoveFinalize(d: Device, b: Binding): Device {
    if d.trial == Activated(b) then d.(committed := Some(b), trial := NoTrial) else d
  }

  function MoveRollback(d: Device, b: Binding): Device {
    if OnTrial(d, b) then d.(trial := NoTrial) else d
  }

  /** Restores the last committed deployment; an interrupted trial stays claimed. */
  function MoveReconcile(d: Device): Device {
    if Live(d.trial) then d.(trial := Pending(d.trial.of)) else d
  }

  /** The device undoes an uncommitted trial on its own when its rollback timer fires. */
  function MoveTimer(d: Device): Device {
    if Live(d.trial) then d.(trial := NoTrial) else d
  }

  // ---- the invariant ----

  /** The rows of one change are bound to the change and to each other. */
  ghost predicate DossierOk(id: ChangeId, c: Change, d: Dossier) {
    && c.binding == BindingOf(id, d.candidate)
    && d.candidate.hash == Digest(d.candidate.config)
    && d.candidate.ready == c.ready && d.candidate.simulation == c.simulation
    && d.tx.tx == TransactionOf(id, c)
    && d.tx.state == c.state
    && (d.tx.phase == c.phase || (d.tx.phase == FinalizeAmbiguous && c.phase == ControlPlaneCommitted))
    && d.revision == RevisionRow(c, d.revision.state)
    && (d.revision.state == RevisionCommitted <==> c.state == Committed)
    && (d.revision.state == RevisionPending <==> c.state == Committing && PastBoundary(c.phase))
  }

  ghost predicate CandidateOk(c: Change, d: Dossier, version: int, activeConfig: Json, codec: Codec) {
    c.base == version ==> Build(activeConfig, c.ops, codec) == Some(d.candidate.config)
  }

  predicate BeforeCommit(s: State) {
    s.Validated? || s.Prepared? || s.Applying? || s.Verifying? || s.AwaitingConfirmation?
  }

  ghost predicate PhaseOk(id: ChangeId, c: Change, version: int, activeRevision: RevId) {
    && (c.state == AwaitingConfirmation || c.state == Committing || c.state == Committed ==> Verified(c))
    && (Forward(c.state) && !PastBoundary(c.phase) ==> c.base == version)
    && (BeforeCommit(c.state) ==> c.phase == NoPhase)
    && (c.state == Committed <==> c.phase == AdapterFinalized)
    && (PastBoundary(c.phase) ==> (c.state == Committing || c.state == Committed) && c.base < version)
    && (PastBoundary(c.phase) && (c.base + 1 == version || c.state == Committing) ==> activeRevision == Rev(id))
  }

  ghost predicate ChangeOk(s: Store, id: ChangeId, codec: Codec)
    requires id in s.changes
  {
    var c := s.changes[id];
    && 1 <= c.base <= s.version
    && (c.noop ==> c.state == Validated || c.state == Committed)
    && (c.noop && c.base == s.version ==> Build(s.activeConfig, c.ops, codec) == Some(s.activeConfig))
    && (id in s.dossiers <==> Owns(c))
    && (!Owns(c) ==> c.phase == NoPhase)
    && (Owns(c) ==>
        && DossierOk(id, c, s.dossiers[id])
        && CandidateOk(c, s.dossiers[id], s.version, s.activeConfig, codec)
        && PhaseOk(id, c, s.version, s.activeRevision))
  }

  ghost predicate ChangesOk(s: Store, codec: Codec) {
    && s.dossiers.Keys <= s.changes.Keys
    && forall id | id in s.changes :: ChangeOk(s, id, codec)
  }

  ghost predicate OneForward(s: Store) {
    forall a, b | a in s.changes && b in s.changes
                  && Forward(s.changes[a].state) && Forward(s.changes[b].state) :: a == b
  }

  /** The active revision is the baseline or the latest change past the durable boundary. */
  ghost predicate ActiveOk(s: Store) {
    && s.version >= 1
    && match s.activeRevision
       case Baseline => s.version == 1
       case Rev(id) =>
         && Owner(s, id) && id in s.dossiers
         && PastBoundary(s.changes[id].phase)
         && s.changes[id].base + 1 == s.version
         && s.activeConfig == s.dossiers[id].candidate.config
  }

  /** The active revision waits for its finalization. */
  predicate AwaitsFinalize(s: Store) {
    s.activeRevision.Rev? && s.activeRevision.change in s.changes
    && s.changes[s.activeRevision.change].state == Committing
  }

  /** The binding of the revision the store calls active; None for the baseline. */
  function ActiveBinding(s: Store): Option<Binding> {
    if s.activeRevision.Rev? && s.activeRevision.change in s.changes
    then Some(s.changes[s.activeRevision.change].binding) else None
  }

  /** `b` is what was deployed just before the revision built on version `base`. */
  ghost predicate Predecessor(s: Store, b: Option<Binding>, base: int) {
    match b
    case None => base == 1
    case Some(binding) =>
      && InState(s, binding.tx.change, Committed)
      && s.changes[binding.tx.change].binding == binding
      && s.changes[binding.tx.change].base + 1 == base
  }

  /** Device and store name the same deployment, or the store is exactly one unfinalized commit ahead. */
  ghost predicate CommittedOk(s: Store, committed: Option<Binding>) {
    || committed == ActiveBinding(s)
    || (AwaitsFinalize(s) && Predecessor(s, committed, s.changes[s.activeRevision.change].base))
  }

  /** A finished active revision is the one the device has committed. */
  ghost predicate SettledOk(s: Store, committed: Option<Binding>) {
    !AwaitsFinalize(s) ==> committed == ActiveBinding(s)
  }

  predicate MayBeApplied(s: State) {
    s == Applying || s == Verifying || s == AwaitingConfirmation || MayBeActivated(s)
  }

  predicate MayBeActivated(s: State) {
    s == Committing || s == RollingBack || s == RollbackFailed
  }

  ghost predicate TrialOk(s: Store, d: Device) {
    !d.trial.NoTrial? ==>
      var b := d.trial.of;
      var id := b.tx.change;
      && Owner(s, id) && s.changes[id].binding == b
      && !Absorbing(s.changes[id].state) && s.changes[id].state != Failed
      && d.committed != Some(b)
      && (d.trial.Applied? ==> MayBeApplied(s.changes[id].state))
      && (d.trial.Activated? ==> MayBeActivated(s.changes[id].state))
  }

  ghost predicate Inv(w: World, codec: Codec) {
    && ChangesOk(w.store, codec)
    && OneForward(w.store)
    && ActiveOk(w.store)
    && CommittedOk(w.store, w.device.committed)
    && SettledOk(w.store, w.device.committed)
    && TrialOk(w.store, w.device)
  }

  /** A new installation: the baseline revision at version 1 and an untouched device. */
  ghost predicate Initial(w: World) {
    && w.store.changes == map[] && w.store.dossiers == map[]
    && w.store.activeRevision == Baseline && w.store.version == 1
    && w.device == Device(None, NoTrial, {})
  }

  lemma InitialInv(w: World, codec: Codec)
    requires Initial(w)
    ensures Inv(w, codec)
  {
  }

  // ---- when a write or a call may be issued ----

  /** What the slot check and the version check of `applyChangeSet` establish. */
  ghost predicate MayEnter(s: Store, id: ChangeId) {
    && id in s.changes && s.changes[id].base == s.version
    && forall other | other in s.changes && other != id :: !Forward(s.changes[other].state)
  }

  ghost predicate SameIdentity(c: Change, next: Change) {
    next == c.(state := next.state, phase := next.phase, steps := next.steps,
               managementVerified := next.managementVerified, dataPlaneVerified := next.dataPlaneVerified)
  }

  ghost predicate EarlyStep(s: Store, id: ChangeId, c: Change, next: Change) {
    && (c.state == Validated || c.state == Prepared || c.state == Applying || c.state == Verifying)
    && Rank(c.state) <= Rank(next.state) && next.phase == c.phase
    && MayEnter(s, id)
  }

  /** The last reply in the log proves a prepared commit of this change, and the device has carried it out. */
  ghost predicate ActivationProved(d: Device, c: Change) {
    && c.steps != [] && PreparedAccepted(c.steps[|c.steps| - 1], c.binding)
    && c.binding in d.activated
  }

  /** The state changes that `saveProgress` may record. */
  ghost predicate ProgressAllowed(w: World, id: ChangeId, c: Change, next: Change) {
    match next.state
    case Validated => EarlyStep(w.store, id, c, next)
    case Prepared => EarlyStep(w.store, id, c, next)
    case Applying => EarlyStep(w.store, id, c, next)
    case Verifying => EarlyStep(w.store, id, c, next)
    case AwaitingConfirmation => c.state == Verifying && Verified(next) && next.phase == c.phase
    case Committing =>
      && (c.state == AwaitingConfirmation || c.state == Committing) && c.steps <= next.steps
      && next.managementVerified == c.managementVerified && next.dataPlaneVerified == c.dataPlaneVerified
      && (next.phase == AdapterActivated ==> ActivationProved(w.device, next))
    case RollingBack => !Absorbing(c.state)
    case RollbackFailed => !Absorbing(c.state)
    case RequiresDevice =>
      if c.state == RollingBack then !OnTrial(w.device, c.binding)
      else (c.state == Validated || c.state == Prepared || c.state == Applying)
           && !(Live(w.device.trial) && OnTrial(w.device, c.binding))
    case RolledBack => c.state == RollingBack && !OnTrial(w.device, c.binding)
    case Expired => c.state == RollingBack && !OnTrial(w.device, c.binding)
    case Failed => c.state == RollingBack && !OnTrial(w.device, c.binding)
    case _ => false
  }

  ghost predicate MayProgress(w: World, id: ChangeId, next: Change) {
    && Owner(w.store, id) && id in w.store.dossiers && !ControlPlaneDurable(w.store, id)
    && SameIdentity(w.store.changes[id], next) && !PastBoundary(next.phase)
    && ProgressAllowed(w, id, w.store.changes[id], next)
  }

  ghost predicate MayValidate(s: Store, id: ChangeId, record: CandidateRecord, codec: Codec) {
    && id in s.changes && s.changes[id].state.Draft? && !s.changes[id].noop
    && record.hash == Digest(record.config)
    && (s.changes[id].base == s.version ==> Build(s.activeConfig, s.changes[id].ops, codec) == Some(record.config))
  }

  /** The operations of the draft leave the active config as it is. */
  ghost predicate MayRecordNoop(s: Store, id: ChangeId, codec: Codec) {
    && id in s.changes && s.changes[id].state.Draft?
    && (s.changes[id].base == s.version ==> Build(s.activeConfig, s.changes[id].ops, codec) == Some(s.activeConfig))
  }

  ghost predicate MayCrossBoundary(s: Store, id: ChangeId) {
    && InState(s, id, Committing) && id in s.dossiers && !ControlPlaneDurable(s, id)
    && s.changes[id].phase == AdapterActivated
  }

  ghost predicate PendingFinalize(s: Store, id: ChangeId) {
    InState(s, id, Committing) && ControlPlaneDurable(s, id)
  }

  /** The device has committed and only the completion record is missing. */
  ghost predicate MayComplete(w: World, id: ChangeId, steps: seq<StepResult>) {
    && PendingFinalize(w.store, id)
    && w.device.committed == Some(w.store.changes[id].binding)
    && w.store.changes[id].steps <= steps
  }

  ghost predicate MayRollBack(s: Store, id: ChangeId) {
    InState(s, id, RollingBack) && !ControlPlaneDurable(s, id)
  }

  // ---- every write keeps the invariant ----

  /** `s2` is `s` with the rows of one change written and the active revision left alone. */
  ghost predicate WrittenAt(s: Store, s2: Store, id: ChangeId) {
    && s2.version == s.version && s2.activeConfig == s.activeConfig && s2.activeRevision == s.activeRevision
    && id in s2.changes && s2.changes == s.changes[id := s2.changes[id]]
    && (s2.dossiers == s.dossiers || (id in s2.dossiers && s2.dossiers == s.dossiers[id := s2.dossiers[id]]))
  }

  ghost predicate Uncommitted(s: Store, id: ChangeId) {
    Owner(s, id) ==> !PastBoundary(s.changes[id].phase) && s.changes[id].state != Committed
  }

  lemma ChangesKept(s: Store, s2: Store, id: ChangeId, codec: Codec)
    requires ChangesOk(s, codec) && WrittenAt(s, s2, id) && ChangeOk(s2, id, codec)
    ensures ChangesOk(s2, codec)
  {
    forall other | other in s2.changes ensures ChangeOk(s2, other, codec) {
      if other != id { assert ChangeOk(s, other, codec); }
    }
  }

  lemma ForwardKept(s: Store, s2: Store, id: ChangeId)
    requires OneForward(s) && WrittenAt(s, s2, id)
    requires Forward(s2.changes[id].state) ==>
               (id in s.changes && Forward(s.changes[id].state))
               || forall other | other in s.changes && other != id :: !Forward(s.changes[other].state)
    ensures OneForward(s2)
  {
  }

  /** Before its boundary a change has no part in what the store and the device call active. */
  lemma ActiveKept(s: Store, s2: Store, id: ChangeId, committed: Option<Binding>)
    requires ActiveOk(s) && CommittedOk(s, committed) && SettledOk(s, committed)
    requires WrittenAt(s, s2, id) && Uncommitted(s, id)
    ensures ActiveOk(s2) && CommittedOk(s2, committed) && SettledOk(s2, committed)
  {
  }

  lemma SaveDraftKeepsInv(w: World, id: ChangeId, base: int, ops: seq<ChangeOp>, codec: Codec)
    requires Inv(w, codec) && id !in w.store.changes && 1 <= base <= w.store.version
    ensures Inv(w.(store := WriteChange(w.store, id, DraftChange(id, base, ops))), codec)
  {
    var s, s2 := w.store, WriteChange(w.store, id, DraftChange(id, base, ops));
    ChangesKept(s, s2, id, codec);
    ForwardKept(s, s2, id);
    ActiveKept(s, s2, id, w.device.committed);
  }

  lemma ValidatedKeepsChange(s: Store, id: ChangeId, record: CandidateRecord, codec: Codec)
    requires ChangesOk(s, codec) && MayValidate(s, id, record, codec)
    ensures ChangeOk(WriteValidated(s, id, record), id, codec)
    ensures !Owner(s, id) && WrittenAt(s, WriteValidated(s, id, record), id)
  {
    assert ChangeOk(s, id, codec);
  }

  lemma ValidatedKeepsTrial(w: World, id: ChangeId, record: CandidateRecord)
    requires TrialOk(w.store, w.device) && id in w.store.changes && !Owner(w.store, id)
    ensures TrialOk(WriteValidated(w.store, id, record), w.device)
  {
  }

  lemma SaveValidatedKeepsInv(w: World, id: ChangeId, record: CandidateRecord, codec: Codec)
    requires Inv(w, codec) && MayValidate(w.store, id, record, codec)
    ensures Inv(w.(store := WriteValidated(w.store, id, record)), codec)
  {
    var s, s2 := w.store, WriteValidated(w.store, id, record);
    ValidatedKeepsChange(s, id, record, codec);
    ValidatedKeepsTrial(w, id, record);
    ChangesKept(s, s2, id, codec);
    ForwardKept(s, s2, id);
    ActiveKept(s, s2, id, w.device.committed);
  }

  lemma SaveNoopKeepsInv(w: World, id: ChangeId, binding: Binding, codec: Codec)
    requires Inv(w, codec) && MayRecordNoop(w.store, id, codec)
    ensures Inv(w.(store := WriteChange(w.store, id, NoopChange(w.store.changes[id], binding))), codec)
  {
    var s, s2 := w.store, WriteChange(w.store, id, NoopChange(w.store.changes[id], binding));
    assert ChangeOk(s, id, codec);
    ChangesKept(s, s2, id, codec);
    ForwardKept(s, s2, id);
    ActiveKept(s, s2, id, w.device.committed);
  }

  lemma SaveNoopCommittedKeepsInv(w: World, id: ChangeId, codec: Codec)
    requires Inv(w, codec) && id in w.store.changes && w.store.changes[id].noop
    ensures Inv(w.(store := WriteChange(w.store, id, NoopCommittedChange(w.store.changes[id]))), codec)
  {
    var s, s2 := w.store, WriteChange(w.store, id, NoopCommittedChange(w.store.changes[id]));
    assert ChangeOk(s, id, codec);
    ChangesKept(s, s2, id, codec);
    ForwardKept(s, s2, id);
    ActiveKept(s, s2, id, w.device.committed);
  }

  lemma ProgressKeepsChange(w: World, id: ChangeId, next: Change, codec: Codec)
    requires ChangesOk(w.store, codec) && MayProgress(w, id, next)
    ensures ChangeOk(WriteProgress(w.store, id, next), id, codec)
    ensures Uncommitted(w.store, id)
  {
    var c := w.store.changes[id];
    assert ChangeOk(w.store, id, codec);
    if next.state == Committing { LogGrows(c.steps, next.steps, c.binding); }
  }

  lemma ProgressKeepsTrial(w: World, id: ChangeId, next: Change)
    requires TrialOk(w.store, w.device) && MayProgress(w, id, next)
    ensures TrialOk(WriteProgress(w.store, id, next), w.device)
  {
  }

  lemma ProgressKeepsForward(w: World, id: ChangeId, next: Change)
    requires OneForward(w.store) && MayProgress(w, id, next)
    ensures OneForward(WriteProgress(w.store, id, next))
  {
    var s := w.store;
    assert Forward(next.state) ==> Forward(s.changes[id].state) || MayEnter(s, id);
    ForwardKept(s, WriteProgress(s, id, next), id);
  }

  lemma SaveProgressKeepsInv(w: World, id: ChangeId, next: Change, codec: Codec)
    requires Inv(w, codec) && MayProgress(w, id, next)
    ensures Inv(w.(store := WriteProgress(w.store, id, next)), codec)
  {
    var s, s2 := w.store, WriteProgress(w.store, id, next);
    ProgressKeepsChange(w, id, next, codec);
    ProgressKeepsTrial(w, id, next);
    ChangesKept(s, s2, id, codec);
    ProgressKeepsForward(w, id, next);
    ActiveKept(s, s2, id, w.device.committed);
  }

  lemma BoundaryKeepsChanges(s: Store, id: ChangeId, codec: Codec)
    requires ChangesOk(s, codec) && OneForward(s) && MayCrossBoundary(s, id)
    ensures ChangesOk(WriteBoundary(s, id), codec)
    ensures OneForward(WriteBoundary(s, id))
  {
    var s2 := WriteBoundary(s, id);
    assert ChangeOk(s, id, codec);
    forall other | other in s2.changes ensures ChangeOk(s2, other, codec) {
      assert ChangeOk(s, other, codec);
      if other != id {
        assert !Forward(s.changes[other].state);
      }
    }
  }

  lemma BoundaryKeepsActive(s: Store, id: ChangeId, committed: Option<Binding>, codec: Codec)
    requires ChangesOk(s, codec) && OneForward(s) && MayCrossBoundary(s, id)
    requires ActiveOk(s) && SettledOk(s, committed)
    ensures ActiveOk(WriteBoundary(s, id))
    ensures CommittedOk(WriteBoundary(s, id), committed) && SettledOk(WriteBoundary(s, id), committed)
  {
    var s2 := WriteBoundary(s, id);
    assert ChangeOk(s, id, codec);
    assert s.changes[id].base == s.version;
    if s.activeRevision.Rev? {
      var active := s.activeRevision.change;
      assert active != id;
      assert ChangeOk(s, active, codec);
      assert s.changes[active].state == Committed;
      assert s2.changes[active] == s.changes[active];
    }
    assert Predecessor(s2, committed, s.changes[id].base);
  }

  lemma BoundaryKeepsTrial(s: Store, id: ChangeId, d: Device)
    requires TrialOk(s, d) && MayCrossBoundary(s, id)
    ensures TrialOk(WriteBoundary(s, id), d)
  {
  }

  lemma BoundaryKeepsInv(w: World, id: ChangeId, codec: Codec)
    requires Inv(w, codec) && MayCrossBoundary(w.store, id)
    ensures Inv(w.(store := WriteBoundary(w.store, id)), codec)
  {
    BoundaryKeepsChanges(w.store, id, codec);
    BoundaryKeepsActive(w.store, id, w.device.committed, codec);
    BoundaryKeepsTrial(w.store, id, w.device);
  }

  lemma FinalizeAmbiguousKeepsInv(w: World, id: ChangeId, steps: seq<StepResult>, codec: Codec)
    requires Inv(w, codec) && PendingFinalize(w.store, id)
    ensures Inv(w.(store := WriteFinalizeAmbiguous(w.store, id, steps)), codec)
  {
    hide CandidateOk, Build, Verified, RevisionRow;
    var s, s2 := w.store, WriteFinalizeAmbiguous(w.store, id, steps);
    assert ChangeOk(s, id, codec);
    assert s2.changes == s.changes[id := s2.changes[id]];
    ChangesKept(s, s2, id, codec);
  }

  lemma CompletionKeepsChange(s: Store, id: ChangeId, steps: seq<StepResult>, codec: Codec)
    requires ChangesOk(s, codec) && ActiveOk(s) && PendingFinalize(s, id) && s.changes[id].steps <= steps
    ensures ChangeOk(WriteCompletion(s, id, steps), id, codec)
    ensures s.activeRevision == Rev(id)
    ensures WriteRecoveredCompletion(s, id, steps) == WriteCompletion(s, id, steps)
  {
    hide LogProves, Build;
    assert ChangeOk(s, id, codec);
    LogGrows(s.changes[id].steps, steps, s.changes[id].binding);
  }

  lemma CompletionKeepsInv(w: World, id: ChangeId, steps: seq<StepResult>, codec: Codec)
    requires Inv(w, codec) && MayComplete(w, id, steps)
    ensures Inv(w.(store := WriteCompletion(w.store, id, steps)), codec)
    ensures WriteRecoveredCompletion(w.store, id, steps) == WriteCompletion(w.store, id, steps)
  {
    hide ChangeOk, ChangesOk, WriteRecoveredCompletion;
    var s, s2 := w.store, WriteCompletion(w.store, id, steps);
    CompletionKeepsChange(s, id, steps, codec);
    ChangesKept(s, s2, id, codec);
    ForwardKept(s, s2, id);
  }

  // ---- every device move keeps the invariant ----

  lemma PrepareKeepsInv(w: World, id: ChangeId, codec: Codec)
    requires Inv(w, codec) && InState(w.store, id, Validated)
    ensures Inv(w.(device := MovePrepare(w.device, w.store.changes[id].binding)), codec)
  {
    hide OneForward, CandidateOk, Build, Verified, RevisionRow, TransactionOf;
    assert ChangeOk(w.store, id, codec);
    if w.store.activeRevision.Rev? { assert ChangeOk(w.store, w.store.activeRevision.change, codec); }
  }

  lemma ApplyKeepsInv(w: World, id: ChangeId, codec: Codec)
    requires Inv(w, codec) && InState(w.store, id, Applying)
    ensures Inv(w.(device := MoveApply(w.device, w.store.changes[id].binding)), codec)
  {
    assert ChangeOk(w.store, id, codec);
  }

  lemma ActivateKeepsInv(w: World, id: ChangeId, codec: Codec)
    requires Inv(w, codec) && InState(w.store, id, Committing) && !ControlPlaneDurable(w.store, id)
    ensures Inv(w.(device := MoveActivate(w.device, w.store.changes[id].binding)), codec)
  {
    assert ChangeOk(w.store, id, codec);
  }

  lemma FinalizeKeepsInv(w: World, id: ChangeId, codec: Codec)
    requires Inv(w, codec) && PendingFinalize(w.store, id)
    ensures Inv(w.(device := MoveFinalize(w.device, w.store.changes[id].binding)), codec)
  {
    assert ChangeOk(w.store, id, codec);
  }

  lemma WithdrawalKeepsTrial(s: Store, d: Device, b: Binding)
    requires TrialOk(s, d)
    ensures TrialOk(s, MoveRollback(d, b)) && TrialOk(s, MoveReconcile(d)) && TrialOk(s, MoveTimer(d))
  {
  }

  lemma WithdrawalKeepsInv(w: World, b: Binding, codec: Codec)
    requires Inv(w, codec)
    ensures Inv(w.(device := MoveRollback(w.device, b)), codec)
    ensures Inv(w.(device := MoveReconcile(w.device)), codec)
    ensures Inv(w.(device := MoveTimer(w.device)), codec)
  {
    WithdrawalKeepsTrial(w.store, w.device, b);
  }
}
