/** Whole runs of the change protocol: any interleaving of writes, adapter calls, timers and crashes. */
module Runs {
  import opened Prelude
  import opened Patch
  import opened Adapter
  import opened Protocol

  /**
   * One durable write or one adapter call. `took` says whether the device carried the call out; the
   * reply may be lost either way. A crash leaves no trace here: it only ends the issuing operation.
   */
  datatype Event =
    | SaveDraft(id: ChangeId, base: int, ops: seq<ChangeOp>)
    | SaveValidated(id: ChangeId, record: CandidateRecord)
    | SaveNoop(id: ChangeId, binding: Binding)
    | SaveNoopCommitted(id: ChangeId)
    | SaveProgress(id: ChangeId, next: Change)
    | SaveBoundary(id: ChangeId)
    | SaveFinalizeAmbiguous(id: ChangeId, steps: seq<StepResult>)
    | SaveCompletion(id: ChangeId, steps: seq<StepResult>)
    | SaveRecoveredCompletion(id: ChangeId, steps: seq<StepResult>)
    | CallPrepare(id: ChangeId, took: bool)
    | CallApply(id: ChangeId, took: bool)
    | CallCommitPrepared(id: ChangeId, took: bool)
    | CallFinalize(id: ChangeId, took: bool)
    | CallRollback(id: ChangeId, took: bool)
    | CallReconcile(took: bool)
    | TimerFires

  ghost predicate Enabled(w: World, e: Event, codec: Codec) {
    var s := w.store;
    match e
    case SaveDraft(id, base, _) => id !in s.changes && 1 <= base <= s.version
    case SaveValidated(id, record) => MayValidate(s, id, record, codec)
    case SaveNoop(id, _) => MayRecordNoop(s, id, codec)
    case SaveNoopCommitted(id) => id in s.changes && s.changes[id].noop
    case SaveProgress(id, next) => MayProgress(w, id, next)
    case SaveBoundary(id) => MayCrossBoundary(s, id)
    case SaveFinalizeAmbiguous(id, _) => PendingFinalize(s, id)
    case SaveCompletion(id, steps) => MayComplete(w, id, steps)
    case SaveRecoveredCompletion(id, steps) => MayComplete(w, id, steps)
    case CallPrepare(id, _) => InState(s, id, Validated)
    case CallApply(id, _) => InState(s, id, Applying)
    case CallCommitPrepared(id, _) => InState(s, id, Committing) && !ControlPlaneDurable(s, id)
    case CallFinalize(id, _) => PendingFinalize(s, id)
    case CallRollback(id, _) => MayRollBack(s, id)
    case CallReconcile(_) => true
    case TimerFires => true
  }

  ghost function NextStore(s: Store, e: Event): Store
    requires (e.SaveValidated? || e.SaveNoop? || e.SaveNoopCommitted?) ==> e.id in s.changes
    requires (e.SaveBoundary? || e.SaveFinalizeAmbiguous? || e.SaveCompletion? || e.SaveRecoveredCompletion?)
               ==> e.id in s.changes && e.id in s.dossiers
    requires e.SaveProgress? ==> e.id in s.dossiers
  {
    match e
    case SaveDraft(id, base, ops) => WriteChange(s, id, DraftChange(id, base, ops))
    case SaveValidated(id, record) => WriteValidated(s, id, record)
    case SaveNoop(id, binding) => WriteChange(s, id, NoopChange(s.changes[id], binding))
    case SaveNoopCommitted(id) => WriteChange(s, id, NoopCommittedChange(s.changes[id]))
    case SaveProgress(id, next) => WriteProgress(s, id, next)
    case SaveBoundary(id) => WriteBoundary(s, id)
    case SaveFinalizeAmbiguous(id, steps) => WriteFinalizeAmbiguous(s, id, steps)
    case SaveCompletion(id, steps) => WriteCompletion(s, id, steps)
    case SaveRecoveredCompletion(id, steps) => WriteRecoveredCompletion(s, id, steps)
    case _ => s
  }

  ghost function NextDevice(w: World, e: Event): Device
    requires (e.CallPrepare? || e.CallApply? || e.CallCommitPrepared? || e.CallFinalize? || e.CallRollback?)
               ==> e.id in w.store.changes
  {
    match e
    case CallPrepare(id, took) => if took then MovePrepare(w.device, w.store.changes[id].binding) else w.device
    case CallApply(id, took) => if took then MoveApply(w.device, w.store.changes[id].binding) else w.device
    case CallCommitPrepared(id, took) => if took then MoveActivate(w.device, w.store.changes[id].binding) else w.device
    case CallFinalize(id, took) => if took then MoveFinalize(w.device, w.store.changes[id].binding) else w.device
    case CallRollback(id, took) => if took then MoveRollback(w.device, w.store.changes[id].binding) else w.device
    case CallReconcile(took) => if took then MoveReconcile(w.device) else w.device
    case TimerFires => MoveTimer(w.device)
    case _ => w.device
  }

  ghost function Next(w: World, e: Event, codec: Codec): World
    requires Enabled(w, e, codec)
  {
    World(NextStore(w.store, e), NextDevice(w, e))
  }

  lemma WriteKeepsInv(w: World, e: Event, codec: Codec)
    requires Inv(w, codec) && Enabled(w, e, codec) && NextDevice(w, e) == w.device
    ensures Inv(w.(store := NextStore(w.store, e)), codec)
  {
    hide Inv, MayProgress, MayValidate, MayComplete, MayCrossBoundary, PendingFinalize;
    hide WriteValidated, WriteProgress, WriteBoundary, WriteFinalizeAmbiguous, WriteCompletion, WriteRecoveredCompletion;
    match e
    case SaveDraft(id, base, ops) => SaveDraftKeepsInv(w, id, base, ops, codec);
    case SaveValidated(id, record) => SaveValidatedKeepsInv(w, id, record, codec);
    case SaveNoop(id, binding) => SaveNoopKeepsInv(w, id, binding, codec);
    case SaveNoopCommitted(id) => SaveNoopCommittedKeepsInv(w, id, codec);
    case SaveProgress(id, next) => SaveProgressKeepsInv(w, id, next, codec);
    case SaveBoundary(id) => BoundaryKeepsInv(w, id, codec);
    case SaveFinalizeAmbiguous(id, steps) => FinalizeAmbiguousKeepsInv(w, id, steps, codec);
    case SaveCompletion(id, steps) => CompletionKeepsInv(w, id, steps, codec);
    case SaveRecoveredCompletion(id, steps) => CompletionKeepsInv(w, id, steps, codec);
    case _ =>
  }

  lemma CallKeepsInv(w: World, e: Event, codec: Codec)
    requires Inv(w, codec) && Enabled(w, e, codec) && NextStore(w.store, e) == w.store
    ensures Inv(w.(device := NextDevice(w, e)), codec)
  {
    hide Inv, ControlPlaneDurable, MovePrepare, MoveApply, MoveActivate, MoveFinalize, MoveRollback;
    match e
    case CallPrepare(id, _) => PrepareKeepsInv(w, id, codec);
    case CallApply(id, _) => ApplyKeepsInv(w, id, codec);
    case CallCommitPrepared(id, _) => ActivateKeepsInv(w, id, codec);
    case CallFinalize(id, _) => FinalizeKeepsInv(w, id, codec);
    case CallRollback(id, _) => WithdrawalKeepsInv(w, w.store.changes[id].binding, codec);
    case CallReconcile(_) => WithdrawalKeepsInv(w, BlankBinding(""), codec);
    case TimerFires => WithdrawalKeepsInv(w, BlankBinding(""), codec);
    case _ =>
  }

  predicate IsWrite(e: Event) {
    e.SaveDraft? || e.SaveValidated? || e.SaveNoop? || e.SaveNoopCommitted? || e.SaveProgress? || e.SaveBoundary?
    || e.SaveFinalizeAmbiguous? || e.SaveCompletion? || e.SaveRecoveredCompletion?
  }

  lemma StepKeepsInv(w: World, e: Event, codec: Codec)
    requires Inv(w, codec) && Enabled(w, e, codec)
    ensures Inv(Next(w, e, codec), codec)
  {
    if IsWrite(e) {
      WriteKeepsInv(w, e, codec);
    } else {
      CallKeepsInv(w, e, codec);
    }
  }

  // ---- runs ----

  /** `events` can follow each other from `start`, which becomes `After(start, events, codec)`. */
  ghost predicate IsRun(start: World, events: seq<Event>, codec: Codec)
    decreases |events|, 0
  {
    events == []
    || (IsRun(start, Front(events), codec) && Enabled(After(start, Front(events), codec), Last(events), codec))
  }

  ghost function After(start: World, events: seq<Event>, codec: Codec): World
    requires IsRun(start, events, codec)
    decreases |events|, 1
  {
    if events == [] then start else Next(After(start, Front(events), codec), Last(events), codec)
  }

  function Front(events: seq<Event>): seq<Event>
    requires events != []
  {
    events[..|events| - 1]
  }

  function Last(events: seq<Event>): Event
    requires events != []
  {
    events[|events| - 1]
  }

  lemma RunExtends(start: World, events: seq<Event>, e: Event, codec: Codec)
    requires IsRun(start, events, codec) && Enabled(After(start, events, codec), e, codec)
    ensures IsRun(start, events + [e], codec)
    ensures After(start, events + [e], codec) == Next(After(start, events, codec), e, codec)
  {
    assert Front(events + [e]) == events && Last(events + [e]) == e;
  }

  lemma {:induction false} PrefixIsRun(start: World, events: seq<Event>, n: nat, codec: Codec)
    requires IsRun(start, events, codec) && n <= |events|
    ensures IsRun(start, events[..n], codec)
  {
    if n < |events| {
      assert events[..n] == Front(events)[..n];
      PrefixIsRun(start, Front(events), n, codec);
    } else {
      assert events[..n] == events;
    }
  }

  /** The invariant holds after every run from a new installation. */
  lemma {:induction false} RunKeepsInv(start: World, events: seq<Event>, codec: Codec)
    requires Initial(start) && IsRun(start, events, codec)
    ensures Inv(After(start, events, codec), codec)
  {
    if events == [] {
      InitialInv(start, codec);
    } else {
      RunKeepsInv(start, Front(events), codec);
      StepKeepsInv(After(start, Front(events), codec), Last(events), codec);
    }
  }

  /** At most one change holds the transaction slot, and it was built on the current version until it commits. */
  lemma OneInTheSlot(start: World, events: seq<Event>, a: ChangeId, b: ChangeId, codec: Codec)
    requires Initial(start) && IsRun(start, events, codec)
    requires a in After(start, events, codec).store.changes && b in After(start, events, codec).store.changes
    requires Forward(After(start, events, codec).store.changes[a].state)
    requires Forward(After(start, events, codec).store.changes[b].state)
    ensures a == b
    ensures !ControlPlaneDurable(After(start, events, codec).store, a) ==>
              After(start, events, codec).store.changes[a].base == After(start, events, codec).store.version
  {
    RunKeepsInv(start, events, codec);
    assert ChangeOk(After(start, events, codec).store, a, codec);
  }

  // ---- split-commit safety ----

  /**
   * The device is committed to nothing but the durable active revision, or to the revision that the
   * durable active one was built on while that one still waits for its own finalization.
   */
  ghost predicate NeverAhead(w: World) {
    w.device.committed.Some? ==>
      var b := w.device.committed.value;
      && ControlPlaneDurable(w.store, b.tx.change) && b.tx.change in w.store.changes
      && (w.store.activeRevision == b.rev
          || (AwaitsFinalize(w.store)
              && w.store.changes[w.store.activeRevision.change].base == w.store.changes[b.tx.change].base + 1))
  }

  lemma InvNeverAhead(w: World, codec: Codec)
    requires Inv(w, codec)
    ensures NeverAhead(w)
  {
    hide CandidateOk, LogProves, Build, TrialOk, OneForward, Verified, RevisionRow;
    if w.device.committed.Some? {
      var s := w.store;
      assert s.activeRevision.Rev?;
      assert ChangeOk(s, s.activeRevision.change, codec);
      assert ChangeOk(s, w.device.committed.value.tx.change, codec);
    }
  }

  /** Split-commit safety, in every run with crashes anywhere. */
  lemma SplitCommitSafety(start: World, events: seq<Event>, codec: Codec)
    requires Initial(start) && IsRun(start, events, codec)
    ensures NeverAhead(After(start, events, codec))
  {
    RunKeepsInv(start, events, codec);
    InvNeverAhead(After(start, events, codec), codec);
  }

  lemma DurableStaysOneStep(w: World, e: Event, id: ChangeId, codec: Codec)
    requires Inv(w, codec) && Enabled(w, e, codec) && ControlPlaneDurable(w.store, id)
    ensures ControlPlaneDurable(Next(w, e, codec).store, id)
  {
    hide OneForward, ActiveOk, CommittedOk, SettledOk, TrialOk, CandidateOk, LogProves, Verified, Build;
    assert ChangeOk(w.store, id, codec);
  }

  lemma {:induction false} DurableStays(start: World, events: seq<Event>, n: nat, id: ChangeId, codec: Codec)
    requires Initial(start) && IsRun(start, events, codec) && n <= |events|
    requires IsRun(start, events[..n], codec) && ControlPlaneDurable(After(start, events[..n], codec).store, id)
    ensures ControlPlaneDurable(After(start, events, codec).store, id)
    decreases |events|
  {
    if n == |events| {
      assert events[..n] == events;
    } else {
      assert events[..n] == Front(events)[..n];
      DurableStays(start, Front(events), n, id, codec);
      RunKeepsInv(start, Front(events), codec);
      DurableStaysOneStep(After(start, Front(events), codec), Last(events), id, codec);
    }
  }

  lemma BoundaryMakesDurable(w: World, e: Event, codec: Codec)
    requires Enabled(w, e, codec)
    ensures e.SaveBoundary? ==> ControlPlaneDurable(Next(w, e, codec).store, e.id)
    ensures e.CallRollback? ==> !ControlPlaneDurable(w.store, e.id)
  {
  }

  /** Once the control-plane commit of a change is durable, no adapter rollback is issued for it. */
  lemma NoRollbackAfterBoundary(start: World, events: seq<Event>, i: nat, j: nat, codec: Codec)
    requires Initial(start) && IsRun(start, events, codec)
    requires i < j < |events| && events[i].SaveBoundary? && events[j].CallRollback?
    ensures events[i].id != events[j].id
  {
    hide Inv, Initial, Enabled, Next, ControlPlaneDurable;
    var id := events[i].id;
    PrefixIsRun(start, events, i + 1, codec);
    PrefixIsRun(start, events, j, codec);
    PrefixIsRun(start, events, j + 1, codec);
    assert Front(events[..i + 1]) == events[..i] && Last(events[..i + 1]) == events[i];
    assert Front(events[..j + 1]) == events[..j] && Last(events[..j + 1]) == events[j];
    var boundary := After(start, events[..i], codec);
    BoundaryMakesDurable(boundary, events[i], codec);
    BoundaryMakesDurable(After(start, events[..j], codec), events[j], codec);
    assert events[..j][..i + 1] == events[..i + 1];
    DurableStays(start, events[..j], i + 1, id, codec);
  }

  // ---- what a boundary follows ----

  /** The call `events[j]` has activated the trial of this binding. */
  ghost predicate Activates(start: World, events: seq<Event>, j: nat, b: Binding, codec: Codec) {
    && j < |events| && events[j].CallCommitPrepared? && events[j].took && IsRun(start, events[..j], codec)
    && var w := After(start, events[..j], codec);
       w.device.trial == Applied(b) && events[j].id in w.store.changes && w.store.changes[events[j].id].binding == b
  }

  /** What the device remembers as activated has been activated in this run. */
  lemma {:induction false} ActivatedByCall(start: World, events: seq<Event>, b: Binding, codec: Codec) returns (j: nat)
    requires Initial(start) && IsRun(start, events, codec) && b in After(start, events, codec).device.activated
    ensures Activates(start, events, j, b, codec)
  {
    hide Inv, ControlPlaneDurable;
    var front := Front(events);
    var w, e := After(start, front, codec), Last(events);
    assert forall k | 0 <= k < |front| :: front[k] == events[k] && front[..k] == events[..k];
    if b in w.device.activated {
      j := ActivatedByCall(start, front, b, codec);
    } else {
      j := |front|;
      assert events[..j] == front;
      ActivationEvent(w, e, b, codec);
    }
  }

  lemma ActivationEvent(w: World, e: Event, b: Binding, codec: Codec)
    requires Enabled(w, e, codec) && b in Next(w, e, codec).device.activated && b !in w.device.activated
    ensures e.CallCommitPrepared? && e.took && w.device.trial == Applied(b)
    ensures e.id in w.store.changes && w.store.changes[e.id].binding == b
  {
    hide MayProgress, MayValidate, MayComplete, MayCrossBoundary, MayRollBack, MayRecordNoop, ControlPlaneDurable;
  }

  /** A committing change recorded as activated has the proof of it, and keeps the activation past its boundary. */
  ghost predicate PhaseProved(c: Change, d: Device) {
    c.state == Committing ==>
      && (c.phase == AdapterActivated ==> ActivationProved(d, c))
      && (PastBoundary(c.phase) ==> c.binding in d.activated)
  }

  ghost predicate PhasesProved(w: World) {
    forall id | id in w.store.changes :: PhaseProved(w.store.changes[id], w.device)
  }

  lemma PhasesProvedOneStep(w: World, e: Event, codec: Codec)
    requires PhasesProved(w) && Enabled(w, e, codec)
    ensures PhasesProved(Next(w, e, codec))
  {
    hide EarlyStep, MayRecordNoop, CandidateOk, Verified, LogProves, MayComplete, OnTrial, Live, RevisionRow, BindingOf;
    hide PreparedAccepted, MayRollBack;
    var next := Next(w, e, codec);
    assert w.device.activated <= next.device.activated;
    forall id | id in next.store.changes ensures PhaseProved(next.store.changes[id], next.device) {
      if IsWrite(e) && e.id != id { OthersKeptByWrite(w, e, id, codec); }
    }
  }

  lemma OthersKeptByWrite(w: World, e: Event, id: ChangeId, codec: Codec)
    requires Enabled(w, e, codec) && IsWrite(e) && id != e.id && id in NextStore(w.store, e).changes
    ensures id in w.store.changes && NextStore(w.store, e).changes[id] == w.store.changes[id]
  {
    hide MayProgress, MayComplete, MayCrossBoundary, PendingFinalize, MayRecordNoop;
  }

  lemma {:induction false} PhasesStayProved(start: World, events: seq<Event>, codec: Codec)
    requires Initial(start) && IsRun(start, events, codec)
    ensures PhasesProved(After(start, events, codec))
  {
    hide PhasesProved, Enabled, Next;
    if events == [] {
      assert PhasesProved(start) by { InitiallyProved(start); }
    } else {
      PhasesStayProved(start, Front(events), codec);
      PhasesProvedOneStep(After(start, Front(events), codec), Last(events), codec);
    }
  }

  lemma InitiallyProved(w: World)
    requires Initial(w)
    ensures PhasesProved(w)
  {
  }

  /**
   * The boundary follows the activation: every control-plane commit of a change is written after a reply
   * that proves its prepared commit has been logged, and after a prepared-commit call for this change
   * that has activated its trial on the device.
   */
  lemma BoundaryFollowsActivation(start: World, events: seq<Event>, i: nat, codec: Codec) returns (j: nat)
    requires Initial(start) && IsRun(start, events, codec) && i < |events| && events[i].SaveBoundary?
    ensures IsRun(start, events[..i], codec) && events[i].id in After(start, events[..i], codec).store.changes
    ensures var c := After(start, events[..i], codec).store.changes[events[i].id];
            && c.steps != [] && PreparedAccepted(c.steps[|c.steps| - 1], c.binding)
            && j < i && Activates(start, events, j, c.binding, codec) && events[j].id == events[i].id
  {
    hide Inv, Initial, PreparedAccepted, PhasesProved, ControlPlaneDurable, Enabled, Next, MayCrossBoundary;
    PrefixIsRun(start, events, i, codec);
    PrefixIsRun(start, events, i + 1, codec);
    assert Front(events[..i + 1]) == events[..i] && Last(events[..i + 1]) == events[i];
    var before, id := events[..i], events[i].id;
    var w := After(start, before, codec);
    CommitEnabled(w, events[i], codec);
    var c := w.store.changes[id];
    PhasesStayProved(start, before, codec);
    assert ActivationProved(w.device, c) by { ProvedAt(w, id); }
    j := ActivatedByCall(start, before, c.binding, codec);
    assert before[..j] == events[..j] && before[j] == events[j];
    PrefixIsRun(start, events, j + 1, codec);
    assert Front(events[..j + 1]) == events[..j] && Last(events[..j + 1]) == events[j];
    RunKeepsInv(start, before, codec);
    RunKeepsInv(start, events[..j], codec);
    CommitEnabled(After(start, events[..j], codec), events[j], codec);
    BindingNamesChange(w, id, codec);
    BindingNamesChange(After(start, events[..j], codec), events[j].id, codec);
  }

  lemma CommitEnabled(w: World, e: Event, codec: Codec)
    requires Enabled(w, e, codec)
    ensures e.SaveBoundary? ==> MayCrossBoundary(w.store, e.id)
    ensures e.SaveBoundary? || e.CallCommitPrepared? ==> InState(w.store, e.id, Committing)
  {
  }

  lemma ProvedAt(w: World, id: ChangeId)
    requires PhasesProved(w) && MayCrossBoundary(w.store, id)
    ensures ActivationProved(w.device, w.store.changes[id])
  {
  }

  lemma BindingNamesOwner(w: World, id: ChangeId, codec: Codec)
    requires Inv(w, codec) && Owner(w.store, id)
    ensures w.store.changes[id].binding.tx.change == id
  {
    assert ChangeOk(w.store, id, codec);
  }

  lemma BindingNamesChange(w: World, id: ChangeId, codec: Codec)
    requires Inv(w, codec) && InState(w.store, id, Committing)
    ensures w.store.changes[id].binding.tx.change == id
  {
    hide Inv;
    BindingNamesOwner(w, id, codec);
  }

  // ---- commits that cannot be finished ----

  /** The store has committed the change, and the device can no longer: its activated trial is gone. */
  ghost predicate Stuck(w: World, id: ChangeId) {
    PendingFinalize(w.store, id) && w.device.committed != Some(w.store.changes[id].binding)
    && w.device.trial != Activated(w.store.changes[id].binding)
  }

  /** That is what the device's rollback timer does to a trial after the boundary. */
  lemma TimerMakesStuck(w: World, id: ChangeId, codec: Codec)
    requires Inv(w, codec) && PendingFinalize(w.store, id) && w.device.trial == Activated(w.store.changes[id].binding)
    ensures Enabled(w, TimerFires, codec) && Stuck(Next(w, TimerFires, codec), id)
  {
  }

  lemma StuckOneStep(w: World, e: Event, id: ChangeId, codec: Codec)
    requires Inv(w, codec) && Enabled(w, e, codec) && Stuck(w, id)
    ensures Stuck(Next(w, e, codec), id)
  {
    hide EarlyStep, CandidateOk, DossierOk, LogProves, Verified, Build, RevisionRow, BindingOf, PhaseOk;
    hide ActivationProved, CommittedOk, SettledOk, TrialOk, ActiveOk;
    assert ChangeOk(w.store, id, codec);
    if IsWrite(e) && e.id != id {
      WriteTouchesOne(w, e, id, codec);
      OtherRowsKept(w, e, id, codec);
    }
  }

  lemma OtherRowsKept(w: World, e: Event, id: ChangeId, codec: Codec)
    requires Enabled(w, e, codec) && IsWrite(e) && id != e.id && id in w.store.dossiers
    ensures id in NextStore(w.store, e).dossiers && NextStore(w.store, e).dossiers[id] == w.store.dossiers[id]
  {
    hide MayProgress, MayComplete, MayCrossBoundary, PendingFinalize, MayRecordNoop, RevisionRow;
  }

  /** Nothing that can still happen to the installation finishes such a commit. */
  lemma {:induction false} StuckForever(start: World, events: seq<Event>, n: nat, id: ChangeId, codec: Codec)
    requires Initial(start) && IsRun(start, events, codec) && n <= |events|
    requires IsRun(start, events[..n], codec) && Stuck(After(start, events[..n], codec), id)
    ensures Stuck(After(start, events, codec), id)
    decreases |events|
  {
    hide Inv, Initial, Stuck;
    if n == |events| {
      assert events[..n] == events;
    } else {
      assert events[..n] == Front(events)[..n];
      StuckForever(start, Front(events), n, id, codec);
      RunKeepsInv(start, Front(events), codec);
      StuckOneStep(After(start, Front(events), codec), Last(events), id, codec);
    }
  }

  // ---- whose trial is live ----

  /** What has been activated belongs to a change that has got as far as its commit. */
  ghost predicate ActivatedLate(w: World) {
    forall b | b in w.device.activated ::
      && Owner(w.store, b.tx.change) && w.store.changes[b.tx.change].binding == b
      && !BeforeCommit(w.store.changes[b.tx.change].state)
  }

  /** After its activation, no trial but its own is live while a change is committing. */
  ghost predicate OwnTrialLive(w: World) {
    forall id | InState(w.store, id, Committing) && w.store.changes[id].binding in w.device.activated ::
      Live(w.device.trial) ==> w.device.trial.of == w.store.changes[id].binding
  }

  lemma ActivatedLateOneStep(w: World, e: Event, codec: Codec)
    requires Inv(w, codec) && Enabled(w, e, codec) && ActivatedLate(w)
    ensures ActivatedLate(Next(w, e, codec))
  {
    hide CandidateOk, LogProves, Verified, Build, RevisionRow, ActivationProved, PhaseOk, MayEnter, Inv, ControlPlaneDurable;
    hide OnTrial, Live, DossierOk;
    var next := Next(w, e, codec);
    forall b | b in next.device.activated
      ensures Owner(next.store, b.tx.change) && next.store.changes[b.tx.change].binding == b
      ensures !BeforeCommit(next.store.changes[b.tx.change].state)
    {
      var id := b.tx.change;
      if b !in w.device.activated {
        ActivationEvent(w, e, b, codec);
        BindingNamesOwner(w, e.id, codec);
      } else if IsWrite(e) && e.id != id {
        WriteTouchesOne(w, e, id, codec);
      }
    }
  }

  lemma OwnTrialLiveAfterWrite(w: World, e: Event, codec: Codec)
    requires Inv(w, codec) && Enabled(w, e, codec) && IsWrite(e) && ActivatedLate(w) && OwnTrialLive(w)
    ensures OwnTrialLive(Next(w, e, codec))
  {
    hide CandidateOk, LogProves, Verified, Build, RevisionRow, ActivationProved, PhaseOk, DossierOk;
    hide CommittedOk, SettledOk, ActiveOk, ChangesOk, TrialOk, Inv;
    var next := Next(w, e, codec);
    assert next.device == w.device;
    forall id | InState(next.store, id, Committing) && next.store.changes[id].binding in next.device.activated
                && Live(next.device.trial)
      ensures next.device.trial.of == next.store.changes[id].binding
    {
      if e.id != id {
        OthersKeptByWrite(w, e, id, codec);
      } else if Owner(w.store, id) {
        BindingNamesOwner(w, id, codec);
      }
    }
  }

  lemma OwnTrialLiveAfterCall(w: World, e: Event, codec: Codec)
    requires Inv(w, codec) && Enabled(w, e, codec) && !IsWrite(e) && OwnTrialLive(w)
    ensures OwnTrialLive(Next(w, e, codec))
  {
    hide Inv, ControlPlaneDurable, MayRollBack;
    var next := Next(w, e, codec);
    assert next.store == w.store;
    forall id | InState(next.store, id, Committing) && next.store.changes[id].binding in next.device.activated
                && Live(next.device.trial)
      ensures next.device.trial.of == next.store.changes[id].binding
    {
      BindingNamesChange(w, id, codec);
      if e.CallApply? || e.CallCommitPrepared? {
        BindingNamesOwner(w, e.id, codec);
        OneForwardAtATime(w, id, e.id, codec);
      }
    }
  }

  lemma OneForwardAtATime(w: World, a: ChangeId, b: ChangeId, codec: Codec)
    requires Inv(w, codec) && a in w.store.changes && b in w.store.changes
    requires Forward(w.store.changes[a].state) && Forward(w.store.changes[b].state)
    ensures a == b
  {
    hide ChangesOk, ActiveOk, CommittedOk, SettledOk, TrialOk;
  }

  lemma OwnTrialLiveOneStep(w: World, e: Event, codec: Codec)
    requires Inv(w, codec) && Enabled(w, e, codec) && ActivatedLate(w) && OwnTrialLive(w)
    ensures OwnTrialLive(Next(w, e, codec))
  {
    hide Inv, Enabled, Next, OwnTrialLive, ActivatedLate;
    if IsWrite(e) {
      OwnTrialLiveAfterWrite(w, e, codec);
    } else {
      OwnTrialLiveAfterCall(w, e, codec);
    }
  }

  lemma {:induction false} SlotHistory(start: World, events: seq<Event>, codec: Codec)
    requires Initial(start) && IsRun(start, events, codec)
    ensures ActivatedLate(After(start, events, codec)) && OwnTrialLive(After(start, events, codec))
  {
    hide Inv, Enabled, Next, ActivatedLate, OwnTrialLive;
    if events == [] {
      InitialSlots(start);
    } else {
      SlotHistory(start, Front(events), codec);
      RunKeepsInv(start, Front(events), codec);
      ActivatedLateOneStep(After(start, Front(events), codec), Last(events), codec);
      OwnTrialLiveOneStep(After(start, Front(events), codec), Last(events), codec);
    }
  }

  lemma InitialSlots(w: World)
    requires Initial(w)
    ensures ActivatedLate(w) && OwnTrialLive(w)
  {
  }

  /** Unless it is stuck, the device runs a commit that is past its boundary, and it can be finished. */
  lemma PendingInEffect(start: World, events: seq<Event>, id: ChangeId, codec: Codec)
    requires Initial(start) && IsRun(start, events, codec)
    requires PendingFinalize(After(start, events, codec).store, id) && !Stuck(After(start, events, codec), id)
    ensures var w := After(start, events, codec);
            var b := w.store.changes[id].binding;
            && InEffect(w.device) == Some(b)
            && (w.device.trial == Activated(b) || (w.device.committed == Some(b) && StateName(w.device) == "committed"))
  {
    hide Inv, Initial, ActivatedLate, After, IsRun;
    SlotHistory(start, events, codec);
    PhasesStayProved(start, events, codec);
    RunKeepsInv(start, events, codec);
    PendingPhase(After(start, events, codec), id, codec);
    var w := After(start, events, codec);
    assert PhaseProved(w.store.changes[id], w.device);
    if w.device.committed == Some(w.store.changes[id].binding) {
      CommittedNotLive(w, w.store.changes[id].binding, codec);
    }
  }

  lemma PendingPhase(w: World, id: ChangeId, codec: Codec)
    requires Inv(w, codec) && PendingFinalize(w.store, id)
    ensures PastBoundary(w.store.changes[id].phase)
  {
    assert ChangeOk(w.store, id, codec);
  }

  lemma CommittedNotLive(w: World, b: Binding, codec: Codec)
    requires Inv(w, codec) && w.device.committed == Some(b)
    ensures !OnTrial(w.device, b)
  {
    hide ChangesOk, OneForward, ActiveOk, CommittedOk, SettledOk;
  }

  lemma AbsorbingNotWritten(w: World, e: Event, id: ChangeId, codec: Codec)
    requires ChangesOk(w.store, codec) && Enabled(w, e, codec) && IsWrite(e) && !e.SaveNoopCommitted?
    requires id in w.store.changes && Absorbing(w.store.changes[id].state)
    ensures e.id != id
  {
    hide CandidateOk, DossierOk, LogProves, Verified, Build, RevisionRow, BindingOf, MayEnter, OnTrial, Live, ActivationProved;
    assert ChangeOk(w.store, id, codec);
  }

  lemma WriteTouchesOne(w: World, e: Event, id: ChangeId, codec: Codec)
    requires Enabled(w, e, codec) && IsWrite(e) && id != e.id && id in w.store.changes
    ensures id in NextStore(w.store, e).changes && NextStore(w.store, e).changes[id] == w.store.changes[id]
  {
  }

  lemma AbsorbingOneStep(w: World, e: Event, id: ChangeId, codec: Codec)
    requires ChangesOk(w.store, codec) && Enabled(w, e, codec)
    requires id in w.store.changes && Absorbing(w.store.changes[id].state)
    ensures var s2 := Next(w, e, codec).store;
            id in s2.changes && s2.changes[id].state == w.store.changes[id].state
  {
    hide MayProgress, MayValidate, MayComplete, MayCrossBoundary, PendingFinalize, MayRollBack;
    if e.SaveNoopCommitted? {
      assert ChangeOk(w.store, id, codec);
    } else if IsWrite(e) {
      AbsorbingNotWritten(w, e, id, codec);
      WriteTouchesOne(w, e, id, codec);
    }
  }

  /** `committed`, `rolled_back` and `expired` are never left. */
  lemma {:induction false} AbsorbingStays(start: World, events: seq<Event>, n: nat, id: ChangeId, codec: Codec)
    requires Initial(start) && IsRun(start, events, codec) && n <= |events|
    requires IsRun(start, events[..n], codec)
    requires var s := After(start, events[..n], codec).store; id in s.changes && Absorbing(s.changes[id].state)
    ensures var s := After(start, events[..n], codec).store;
            var s2 := After(start, events, codec).store;
            id in s2.changes && s2.changes[id].state == s.changes[id].state
    decreases |events|
  {
    if n == |events| {
      assert events[..n] == events;
    } else {
      assert events[..n] == Front(events)[..n];
      AbsorbingStays(start, Front(events), n, id, codec);
      RunKeepsInv(start, Front(events), codec);
      AbsorbingOneStep(After(start, Front(events), codec), Last(events), id, codec);
    }
  }

  /** Every committed change that deployed something has the proof of its deployment in its own step log. */
  lemma CommittedIsVerified(start: World, events: seq<Event>, id: ChangeId, codec: Codec)
    requires Initial(start) && IsRun(start, events, codec)
    requires var s := After(start, events, codec).store; id in s.changes && s.changes[id].state == Committed && !s.changes[id].noop
    ensures Verified(After(start, events, codec).store.changes[id])
  {
    RunKeepsInv(start, events, codec);
    assert ChangeOk(After(start, events, codec).store, id, codec);
  }

  // ---- linear history ----

  /** The operations of the committed changes, in commit order. */
  ghost function CommittedOps(start: World, events: seq<Event>, codec: Codec): seq<seq<ChangeOp>>
    requires IsRun(start, events, codec)
    decreases |events|
  {
    if events == [] then []
    else
      var earlier := CommittedOps(start, Front(events), codec);
      if Last(events).SaveBoundary?
      then earlier + [After(start, Front(events), codec).store.changes[Last(events).id].ops]
      else earlier
  }

  /** The config reached by building every list of operations on the config before it. */
  ghost function Rebuilt(config: Json, history: seq<seq<ChangeOp>>, codec: Codec): Option<Json>
    decreases |history|
  {
    if history == [] then Some(config)
    else
      match Rebuilt(config, history[..|history| - 1], codec)
      case None => None
      case Some(previous) => Build(previous, history[|history| - 1], codec)
  }

  /** A commit happens at the version it was built on and moves it up by one; nothing else moves it. */
  lemma CommitMovesVersion(w: World, e: Event, codec: Codec)
    requires Inv(w, codec) && Enabled(w, e, codec)
    ensures var s, s2 := w.store, Next(w, e, codec).store;
            if e.SaveBoundary? then
              && s.changes[e.id].base == s.version && s2.version == s.version + 1
              && Build(s.activeConfig, s.changes[e.id].ops, codec) == Some(s2.activeConfig)
              && s2.activeRevision == Rev(e.id)
            else
              s2.version == s.version && s2.activeConfig == s.activeConfig && s2.activeRevision == s.activeRevision
  {
    hide OneForward, CommittedOk, SettledOk, TrialOk, ActiveOk, Verified, MayProgress, MayValidate;
    if e.SaveBoundary? {
      assert ChangeOk(w.store, e.id, codec);
    }
    if e.SaveRecoveredCompletion? {
      CompletionKeepsInv(w, e.id, e.steps, codec);
    }
  }

  /**
   * Committed history is linear and loses no update: the version counts the commits, and the active
   * config is the first config with every committed change built on the one just before it.
   */
  lemma {:induction false} LinearHistory(start: World, events: seq<Event>, codec: Codec)
    requires Initial(start) && IsRun(start, events, codec)
    ensures var history := CommittedOps(start, events, codec);
            var s := After(start, events, codec).store;
            s.version == 1 + |history| && Rebuilt(start.store.activeConfig, history, codec) == Some(s.activeConfig)
  {
    hide Inv, Build, NextStore, NextDevice, MayProgress, MayValidate, MayComplete, ControlPlaneDurable;
    if events != [] {
      var before := Front(events);
      LinearHistory(start, before, codec);
      RunKeepsInv(start, before, codec);
      CommitMovesVersion(After(start, before, codec), Last(events), codec);
      var history := CommittedOps(start, before, codec);
      if Last(events).SaveBoundary? {
        var ops := After(start, before, codec).store.changes[Last(events).id].ops;
        assert (history + [ops])[..|history|] == history;
      }
    }
  }
}
