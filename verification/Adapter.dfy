/** What the data-plane adapter is told and what its replies must prove. */
module Adapter {
  import opened Prelude
  import opened Patch

  type ChangeId = string

  // Identifiers are random in the controller. A change is validated successfully at most once, so its
  // transaction and its revision are named here by the change they belong to.
  datatype TxId = Tx(change: ChangeId)
  datatype RevId = Baseline | Rev(change: ChangeId)

  // SHA-256 over the canonical config, taken to be injective.
  datatype Hash = Digest(config: Json)

  /** The four fields every adapter reply is bound to. */
  datatype Binding = Binding(tx: TxId, rev: RevId, hash: Hash, manifest: nat)

  datatype Transaction = Transaction(
    binding: Binding, change: ChangeId, base: int, candidateVersion: int, ready: bool, simulation: bool)

  datatype Field =
    | TransactionField | RevisionField | HashField | ManifestField
    | RollbackCapableField | RollbackField
    | ActiveTransaction | ActiveRevision | ActiveHash | ActiveManifest | StateField

  datatype Evidence = TxValue(tx: TxId) | RevValue(rev: RevId) | HashValue(hash: Hash)
                    | ManifestValue(manifest: nat) | Flag(b: bool) | Word(text: string)

  datatype Step = Prepare | ValidateCandidate | SnapshotCurrent | ApplyCandidate
                | VerifyManagement | VerifyDataPlane
                | CommitPrepared | FinalizeCommit | Rollback | Status | Reconcile | ClearBootGuard

  datatype StepResult = StepResult(
    step: Step, protocolVersion: int, operation: string, status: string, ok: bool,
    managementVerified: bool, dataPlaneVerified: bool, evidence: map<Field, Evidence>,
    semanticState: string, committed: bool, rollbackCapable: bool)

  predicate StepOK(r: StepResult) {
    r.ok && r.status == "OK"
  }

  predicate FieldMatches(r: StepResult, field: Field, expected: Evidence, strict: bool) {
    if field in r.evidence then r.evidence[field] == expected else !strict
  }

  /** `ValidateBinding`: nil error exactly here. */
  predicate BindingAccepted(r: StepResult, operation: string, b: Binding) {
    var strict := r.protocolVersion != 0 || r.operation != "";
    && StepOK(r)
    && (r.operation == "" || r.operation == operation)
    && (r.protocolVersion == 0 || r.protocolVersion == 1)
    && FieldMatches(r, TransactionField, TxValue(b.tx), strict)
    && FieldMatches(r, RevisionField, RevValue(b.rev), strict)
    && FieldMatches(r, HashField, HashValue(b.hash), strict)
    && FieldMatches(r, ManifestField, ManifestValue(b.manifest), strict)
  }

  predicate PreparedAccepted(r: StepResult, b: Binding) {
    && BindingAccepted(r, "commit-prepared", b)
    && !r.committed && r.semanticState == "adapter_activated"
    && if RollbackCapableField in r.evidence then r.evidence[RollbackCapableField] == Flag(true) else r.rollbackCapable
  }

  predicate FinalizedAccepted(r: StepResult, b: Binding) {
    BindingAccepted(r, "finalize-commit", b) && r.committed && r.semanticState == "committed"
  }

  predicate RollbackAccepted(r: StepResult, b: Binding) {
    && BindingAccepted(r, "rollback", b)
    && (RollbackField in r.evidence ==> r.evidence[RollbackField] == Flag(true))
    && r.semanticState != "committed" && !r.committed
    && (r.protocolVersion == 0 || r.semanticState == "rolled_back")
  }

  /** What the controller takes for a completed rollback; an adapter without a protocol only says OK. */
  predicate RollbackBelieved(r: StepResult, b: Binding) {
    StepOK(r) && (r.operation != "" || r.protocolVersion != 0 ==> RollbackAccepted(r, b))
  }

  predicate ArtifactEvidenceMatches(r: StepResult, b: Binding) {
    && TransactionField in r.evidence && r.evidence[TransactionField] == TxValue(b.tx)
    && RevisionField in r.evidence && r.evidence[RevisionField] == RevValue(b.rev)
    && HashField in r.evidence && r.evidence[HashField] == HashValue(b.hash)
    && ManifestField in r.evidence && r.evidence[ManifestField] == ManifestValue(b.manifest)
  }

  /** The status reply reports this binding as the active one. */
  predicate ActiveMatches(r: StepResult, b: Binding) {
    && StepOK(r)
    && ActiveTransaction in r.evidence && r.evidence[ActiveTransaction] == TxValue(b.tx)
    && ActiveRevision in r.evidence && r.evidence[ActiveRevision] == RevValue(b.rev)
    && ActiveHash in r.evidence && r.evidence[ActiveHash] == HashValue(b.hash)
    && ActiveManifest in r.evidence && r.evidence[ActiveManifest] == ManifestValue(b.manifest)
  }

  predicate ReportsState(r: StepResult, name: string) {
    StateField in r.evidence && r.evidence[StateField] == Word(name)
  }

  // ---- the device behind the adapter ----

  /** What the device runs on trial over the last committed deployment. */
  datatype Trial = NoTrial | Pending(of: Binding) | Applied(of: Binding) | Activated(of: Binding)

  /** `activated` remembers every trial that a prepared commit has ever activated. */
  datatype Device = Device(committed: Option<Binding>, trial: Trial, activated: set<Binding>)

  predicate Live(t: Trial) {
    t.Applied? || t.Activated?
  }

  predicate OnTrial(d: Device, b: Binding) {
    !d.trial.NoTrial? && d.trial.of == b
  }

  /** The deployment in effect. */
  function InEffect(d: Device): Option<Binding> {
    if Live(d.trial) then Some(d.trial.of) else d.committed
  }

  function StateName(d: Device): string {
    match d.trial
    case Applied(_) => "applied"
    case Activated(_) => "adapter_activated"
    case _ => if d.committed.Some? then "committed" else "idle"
  }
}
