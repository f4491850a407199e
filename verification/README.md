# Router policy controller: verified model

The repository is a controller for a home router. It turns a policy (which services and domains leave
through which route) into kernel rules, an nftables program and an Xray configuration; it deploys a new
policy through a change transaction that survives power failure; and it watches the DNS log to find
domains that need a route. This project models those parts and proves what they are there for.

| part | modules | main results |
|---|---|---|
| change transaction and crash recovery | Adapter, Protocol, Runs, Installation, Controller, Recovery, Service | in every run, with power failures between any two store writes or adapter calls, the adapter commits only the change that is durably active, no rollback follows a durable commit, committed history is linear, and a start that succeeds leaves store, adapter and memory agreeing; what each operation and each start does is decided by the records, the device and the answers, and while nothing fails it does it |
| change engine | Pointer, Patch, PatchEffect, PatchInverse | an accepted operation changes its own place and no other, and each refusal has its exact reason; printing a tree diff and replaying it are inverse, exactly when no top-level key is added and no printed path contains `%` |
| policy compiler | Config, ProofPlan, IPPlan, PlanBuild, PlanAccepted, DnsProxies, Generated, Domains, XrayRouting, Nft, NftMeaning, RouteSets | what is built from a valid config is accepted by its own loader exactly when no table is wanted twice and no two listener tags differ in case only; the nft program and the Xray rule order mean the policy, for every packet and every name |
| kernel effect | Kernel, Lookup, Delivery | a LAN packet that one route wants leaves by that route's table; a marked packet is looked up in its route's table, nothing else in the kernel is touched, applying twice is applying once |
| DNS log and automatic assignment | Tailer, Discovery, Assignment | the chunked reader emits what a plain line splitter would, with the exact condition after a discarded tail, and catches up; bounded deduplication decides as an unbounded history would; route assignment ends, tries nothing twice, gives up on a failed proof only when no candidate is left, and leaves at most the last attempt live |

## How to read it

The durable store and the device (what the adapter manages) are records; `Runs` lists every store write
and adapter call as an event with the condition under which the code issues it, and proves the theorems
about all runs. `Installation.Plant` holds the store and the device as fields and records every event it
performs: a call of the plant needs the event's condition, so a controller method that wrote or called in
another order would not verify. Every plant operation can report that power failed, before or after its
effect; `Service.Serve` then starts a new controller from what is durable. `Controller.Server` and
`Recovery` are the controller's methods, step by step, with its volatile fields.

Maps, slices and buffers that the code updates in loops are loops here too, each proved against a
specification function or predicate of its own; the theorems are about those.

`Example` takes one packet of a small router through all of it, from policy to plan, program and lookup, so
that the hypotheses of the delivery theorem can be met together; `Service.Serve` does this for the protocol.
`Failures` has a small input for each exact condition at which it fails. `Sorting` is the one insertion sort
that stands for the library's sorts.

What is assumed of the outside: a store batch is atomic and may fail; the adapter keeps its contract (a
prepared commit never commits, finalize is the only call that commits, a rollback of an uncommitted
transaction is idempotent, a reply that is accepted as proof of an outcome is true, an apply that is
reported as skipped or unverified has not taken effect, the device has room for one trial at a time, and
it may undo a trial by its own timer at any time); hashes are injective, and so are route identifiers after
lower-casing; change identifiers are fresh.

Safety is stated for every failure. What an operation does achieve is stated for the runs of it in which
nothing fails: `Plant.faults`, `Kernel.refusals` and `LogFile.errors` are ghost counters that the model of
the outside raises, and no method of the controller touches them. What the clock, the files and the adapter
answer is a parameter of the operation.

Where code and documentation differ the code is modelled:

- a JSON Pointer part is percent-decoded once more than sections 3 and 4 of RFC 6901 allow
  (internal/api/server.go:3282), which is why `%` appears in the statements about diffs;
- a watcher that starts at the end of a log whose last line is not finished starts over at 0 and replays
  the whole log (internal/discovery/dnsmasq.go:143-149);
- after a discarded tail the rest of the overlong line is read as a line of its own
  (internal/discovery/dnsmasq.go:213-230);
- `Validate` accepts an enabled `tg_ws_proxy` route, but the compiler has no table for it, so that no plan
  is ever ready;
- `Validate` checks neither that the Xray table differs from the WAN and Zapret tables nor that the TPROXY
  mark differs from every route's mark; each failure has its exact condition and an input;
- a commit that is past its durable boundary when the device's timer drops its trial stays in the store, and
  every later start of the controller ends in an error (internal/api/transaction.go:1093-1097).

## Model

| member | source | states |
|---|---|---|
| Runs.SplitCommitSafety | internal/api/transaction.go:450-570 | in every run, with crashes anywhere, what the device has committed is durably committed in the store, and is the active change, or the one just before it while the active change awaits its finalize |
| Runs.NoRollbackAfterBoundary | internal/api/transaction.go:1001-1152 | once a change's control-plane commit is written, no adapter rollback for it occurs later in the run |
| Runs.BoundaryFollowsActivation | internal/api/transaction.go:494-528 | in every run, a control-plane commit is written only after a reply that proves the prepared commit of this change has been logged, and after a prepared-commit call for this change that has activated its trial on the device |
| Runs.TimerMakesStuck | internal/api/transaction.go:1093-1097 | the device's timer after the boundary leaves a commit that the store has and the device does not |
| Runs.StuckForever | internal/api/transaction.go:1076-1097 | nothing that can still happen to the installation finishes such a commit |
| Runs.PendingInEffect | internal/api/transaction.go:1030-1075 | a commit past its boundary that is not stuck is in effect on the device, activated or committed, so that recovery can finish it |
| Runs.LinearHistory | internal/api/transaction.go:450-626 | the version counts the commits, and replaying every committed operation list, each on the config committed just before it, from the baseline gives the active config: no lost update |
| Runs.CommitMovesVersion | internal/api/transaction.go:521-538 | the version moves only at a commit, which happens at the version the change was built on and moves it by one |
| Runs.OneInTheSlot | internal/api/transaction.go:935-948 | at most one change is prepared, applying, verifying, awaiting confirmation or committing, and it was built on the current version until its commit is durable |
| Runs.AbsorbingStays | internal/api/transaction.go:687-700 | committed, rolled_back and expired are never left, in any continuation of any run |
| Runs.CommittedIsVerified | internal/api/transaction.go:331-403 | a committed change that is no no-op has in its own step log an apply bound to its transaction, revision and both hashes, followed by successful management and data-plane checks, and both flags |
| Runs.RunKeepsInv | internal/api/bootstrap.go:16-50 | the protocol invariant holds after every run from a new installation at the baseline, version 1 |
| Runs.StepKeepsInv | internal/api/transaction.go:282-805 | every single store write, adapter call, device timer and power failure keeps the invariant |
| Protocol.SaveDraftKeepsInv | internal/api/xray_subscription.go:576-606 | inserting a draft keeps the invariant |
| Protocol.SaveValidatedKeepsInv | internal/api/transaction.go:245-278 | storing a validated candidate keeps the invariant, whatever was committed since it was read |
| Protocol.SaveNoopKeepsInv | internal/api/transaction.go:171-197 | storing a change whose candidate is the active config keeps the invariant without a transaction |
| Protocol.SaveProgressKeepsInv | internal/api/transaction.go:784-805 | each recorded transition before the commit boundary keeps the invariant |
| Protocol.BoundaryKeepsInv | internal/api/transaction.go:512-538 | the durable control-plane commit keeps the invariant: config, revision and version move together, before the device commits |
| Protocol.FinalizeAmbiguousKeepsInv | internal/api/transaction.go:543-550 | recording that the finalize reply proves nothing keeps the invariant |
| Protocol.CompletionKeepsInv | internal/api/transaction.go:551-566 | the durable completion keeps the invariant, and the one written by recovery writes the same rows |
| Protocol.ActivateKeepsInv | internal/adapter/adapter.go:153-169 | a prepared commit keeps the invariant because it does not commit |
| Protocol.FinalizeKeepsInv | internal/adapter/adapter.go:171-179 | finalize keeps the invariant when the control-plane commit is durable |
| Protocol.WithdrawalKeepsInv | internal/adapter/adapter.go:181-198 | a rollback, a reconcile and the device's own timer keep the invariant at any time |
| Installation.Plant.Write | internal/api/transaction.go:784-805 | a batch is written whole or not at all, also when power fails around it |
| Installation.Plant.FinalizeCommit | internal/adapter/adapter.go:171-179 | a finalize that is accepted has committed exactly this change |
| Installation.Plant.CommitPrepared | internal/adapter/adapter.go:153-169 | a prepared commit never commits, and one that is accepted has activated the trial of exactly this change |
| Installation.Plant.Rollback | internal/adapter/adapter.go:181-198 | an accepted rollback leaves nothing of the change on trial |
| Controller.Server.CreateDraft | internal/api/xray_subscription.go:576-606 | refused without any effect when the fence is closed or the version is old; otherwise memory and store gain exactly the draft, or, when the write fails and only then, neither changes |
| Controller.Server.BeginValidate | internal/api/transaction.go:138-153 | a reading is handed out exactly for a draft on the current version with the fence open |
| Controller.Server.FinishValidate | internal/api/transaction.go:154-280 | what is recorded is decided by the reading, the checks and the generated files: a no-op bound to the active deployment, a candidate built from the config that was read, or nothing; it is recorded unless the write fails, and only this change's rows are touched |
| Controller.Server.ActiveBindingFacts | internal/api/transaction.go:171-185 | the row that a no-op is bound to is missing exactly while the active revision awaits its finalize, and otherwise names the active config and what the device has committed |
| Controller.ReadingSurvives | internal/api/transaction.go:138-280 | whatever other changes do between the two halves of validation, commits included, the reading stays usable |
| Controller.ReadingKept | internal/api/transaction.go:138-280 | the same over whole operations on another change, which is what lets the two halves of a validation be served with other requests in between |
| Controller.Server.ApplyChangeSet | internal/api/transaction.go:282-403 | refused without any effect, committed as a no-op, parked without a call on the device, or run through the steps, as `OnApply` decides on the fence, the record, the slot and the readiness; after the steps their replies give the final state, and while nothing fails the device runs a change that ends awaiting confirmation |
| Controller.Server.ApplyStep | internal/api/transaction.go:344-393 | one step leaves the log one proved entry longer exactly when its reply lets the apply go on; otherwise the change ends in the state that the step and the reply call for |
| Controller.Server.StepFailed | internal/api/transaction.go:362-383 | a failed step parks the change, undoes it as rolled back, or undoes it as failed, by the step and the status of its reply; it never leaves it committing, and it works while nothing fails |
| Controller.Server.RunSteps | internal/api/transaction.go:331-403 | the six replies, or those up to the first that stops it, decide where the change ends: awaiting confirmation exactly when all pass and both checks have verified |
| Controller.Server.ApplyNoop | internal/api/transaction.go:405-448 | a no-op bound to a deployment commits only if the device runs it; one bound to the baseline only if the baseline is active, and the device is not asked; while nothing fails it commits exactly then |
| Controller.Server.ActiveTransaction | internal/api/transaction.go:935-948 | busy exactly when another change holds the slot or is rolling back |
| Controller.Server.ConfirmChangeSet | internal/api/transaction.go:450-626 | decided by `OnConfirmation`: refused with no effect at all; undone as expired and reported as an error; undone as failed when a file fails or the device does not run the change; or committed, so that store, memory and device hold it one version up. While nothing fails this is what happens; otherwise the change is in an unfinished rollback, untouched, or behind the fence |
| Controller.Server.CommitVerified | internal/api/transaction.go:490-626 | a verified trial ends committed everywhere one version up with every other change as it was, or fenced, or with nothing written; while nothing fails it is committed |
| Controller.Server.PrepareCommit | internal/api/transaction.go:494-511 | the control-plane commit becomes possible when the reply was accepted, which then is in the log and activated on the device; a reply that is not accepted is recorded as ambiguous; nothing but this change's rows moves |
| Controller.Server.CommitPrepared | internal/api/transaction.go:494-550 | ends deployed everywhere one version up, or fenced; other changes keep their rows, and a config is only replaced under a higher version; deployed while nothing fails |
| Controller.Server.FinishCommit | internal/api/transaction.go:540-626 | after the boundary: completed in store, memory and device, or recovery is required; completed while nothing fails |
| Controller.Server.RollbackChangeSet | internal/api/transaction.go:687-718 | decided by `OnUndo`: refused, or already undone, with no effect at all; undone on the device and recorded as expired or rolled back; or, without a verified capability, recorded as a failed rollback without asking the device |
| Controller.Server.RollbackLocked | internal/api/transaction.go:720-774 | the rollback is recorded before it is asked for; success means that the device was proved rid of the change and that the final state is recorded; a failure leaves a recorded unfinished rollback and can only close the fence; it succeeds while nothing fails |
| Controller.Server.AwaitingFacts | internal/api/transaction.go:456-472 | with the fence open a change awaiting confirmation is on the current version and its stored transaction matches, so that a confirm can start |
| Recovery.RecoverTransactions | internal/api/transaction.go:1001-1111 | an error, or every interrupted change in exactly one final state: committed when it was past its boundary, still awaiting confirmation when its trial runs and has time left, expired when it was awaiting confirmation past its deadline, rolled back otherwise; every other change is as it was, and the device has committed the store's active change. While nothing fails it succeeds exactly when no commit is stuck and the adapter answers about one past its boundary; otherwise it never does |
| Recovery.RecoverTwice | internal/api/transaction.go:1001-1111 | a second run on the same answers leaves store and memory as the first has left them, unless the device has dropped the trial on its own in between |
| Recovery.RecoverCommitting | internal/api/transaction.go:1030-1086 | a committing change that the device runs is finished everywhere, fenced, or left for the rollback that is still possible |
| Recovery.RecoverRest | internal/api/transaction.go:1087-1108 | a change that is not past its boundary ends awaiting confirmation, expired or rolled back, exactly as its state, its trial and its deadline say; one past its boundary is never touched |
| Recovery.RecoverChange | internal/api/transaction.go:1013-1108 | each interrupted change ends in exactly the state that its old state, the device and the deadline call for, on the device and in the records; the others are untouched |
| Recovery.RecoverDurable | internal/api/transaction.go:1030-1096 | past the durable boundary recovery only goes forward |
| Recovery.FinalizeRecovered | internal/api/transaction.go:1113-1152 | the recovered completion makes store, memory and device agree on this change |
| Recovery.NoSplitBrain | internal/api/transaction.go:1076-1079 | the device cannot have committed a change whose control-plane commit is not durable: the split-brain exit is unreachable |
| Recovery.RecoverCommittedDataplane | internal/api/recovery.go:42-164 | the fence opens only when every row of the active revision, the active config and the device name the same finished commit and the device runs nothing else; while nothing fails it opens exactly for the baseline, or when the commit is finalized and the adapter answers |
| Controller.BaselineConfig | internal/api/recovery.go:64-90 | in every run the baseline is active only with the config it was written with, so that this check of recovery does not fail |
| Controller.ActiveRows | internal/api/recovery.go:91-139 | in every state between two events the rows of the active revision agree with each other and the active config, and are committed, on the device too, exactly unless the finalize is awaited |
| Recovery.CheckActiveRows | internal/api/recovery.go:58-139 | a target is handed out only if all stored rows of the active revision agree on it, and always unless a file fails or the finalize is awaited, which alone makes recovery required |
| Recovery.ReconcileTarget | internal/api/recovery.go:166-181 | an accepted reconcile means that the device has committed the target; while nothing fails the committed target is restored at the first attempt |
| Recovery.SetRecovery | internal/api/recovery.go:257-290 | the status published is the given one when it was written down, and recovery required when it was not |
| Service.Boot | internal/api/server.go:371-411 | a process that starts has memory equal to the store and every interrupted change in its final state, and serves changes only after the active deployment was proved; while nothing fails one starts exactly when no commit is stuck and the adapter answers about one past its boundary, with an open fence unless that was deferred, the adapter does not answer, or the assignments cannot be restored |
| Service.CheckDeployment | internal/api/server.go:402-409 | the fence is open afterwards exactly when the deployment was proved and its route assignments could be restored; while nothing fails it is proved when the adapter answers |
| Service.Handle | internal/api/server.go:2940-3027 | a request keeps memory and store in agreement while the fence is open and leaves every validation under way usable; a closed fence refuses all but the end of a validation that had started, and opens only by the recovery that was deferred; while nothing fails exactly the requests of `Granted` are granted |
| Service.Serve | internal/api/server.go:371-456 | the whole life of an installation, with every power failure and start in it and validations interleaved with other requests, is one run, so that commit safety and linear history hold of its store and device |
| Pointer.TokenRoundTrip | internal/api/server.go:3274-3289 | unescaping undoes escaping for every key, `~01` and `a/~` included |
| Pointer.PointerRoundTrip | internal/api/transaction.go:1371-1373 | printing and parsing a non-empty key list are inverse exactly when no key contains `%` |
| Pointer.SplitJSONPointer | internal/api/server.go:3274-3289 | the parsing loop computes the pointer's keys or refuses it as specified |
| Patch.PointerParent | internal/api/server.go:3291-3315 | the walk ends at the container that the keys lead to, through objects and array indices, or with its error |
| PatchEffect.WalkReads | internal/api/server.go:3291-3315 | the walk finds what reading the tree at the keys finds, and otherwise its error is that of the first node it cannot leave |
| PatchEffect.EditActsOnParent | internal/api/server.go:3219-3272 | an edit acts on the container that the walk finds: refused with the walk's error, refused for what that container does not allow, or carried out |
| PatchEffect.EditCarried | internal/api/server.go:3219-3272 | after an accepted set, update or add the pointer reads as the value, after a delete it reads as nothing and was there before; every place that is neither above nor below it reads as before, and containers on the way keep kind and length |
| PatchEffect.EditRefusals | internal/api/server.go:3219-3315 | an edit goes through exactly when its container is reached and allows it; missing segment, bad index, no container, missing target of a delete or update, existing target of an add, and add or delete in an array each have their exact condition |
| PatchEffect.OperationMeaning | internal/api/server.go:3219-3272 | one whole operation: refused for its path exactly when that does not parse, as outside the model exactly when its first key is not in the config, and otherwise carried out or refused as above |
| PatchEffect.ImmutableKept | internal/api/transaction.go:1154-1312 | whatever the operations, an accepted candidate is the active config at every place outside the free roots and the replaceable settings |
| PatchEffect.IndexNamesElement | internal/api/server.go:3256-3264 | every array element can be named by its index in decimal |
| Patch.DiffEmptyOnlyIfEqual | internal/api/transaction.go:1224-1260 | the diff is empty exactly when the trees are equal |
| Patch.PlainDiffReplays | internal/api/transaction.go:1224-1260 | with paths that can be read back, every operation of a diff applies and yields the new tree, exactly when no top-level key is added |
| PatchInverse.DiffPatchInverse | internal/api/transaction.go:1224-1260 | for any two objects: replaying the diff yields the new tree exactly when no top-level key is added and no printed path contains `%` |
| PatchInverse.MisreadDiffFails | internal/api/server.go:3274-3289 | one path with `%` anywhere in a diff is enough: the replay never yields the new tree |
| PatchInverse.PercentKeyBreaksReplay | internal/api/server.go:3274-3289 | the smallest failing pair of trees, with equal keys |
| PatchInverse.StoredDiffReplays | internal/api/transaction.go:1154-1222 | the diff stored with a candidate rebuilds it from the active config exactly when its paths contain no `%` |
| Patch.BuildCandidate | internal/api/transaction.go:1154-1222 | one refused operation refuses the candidate although the loop goes on; otherwise it is what the operations, in order, make of the active config; a no-op is reported exactly when it is the active config |
| Config.Validate | internal/config/config.go:370-614 | accepts exactly the configs with distinct tags and listeners, consistent numeric marks and free DNS proxy ports |
| Config.CheckRoutes | internal/config/config.go:395-463 | exactly the route lists with valid fields, distinct tags and distinct SOCKS ports pass |
| Config.CheckMarks | internal/config/config.go:475-496 | exactly when equal marks, compared as numbers, have equal tables |
| Config.MarksNameWays | internal/config/config.go:1014-1041 | with the named marks apart, route types share a mark exactly when packets take the same way, and each way has its mark and its table |
| Config.CheckDnsPorts | internal/config/config.go:601-614 | exactly when every port that allocation could use is in range and free |
| ProofPlan.BuildProofPlan | internal/artifact/artifact.go:1009-1037 | every enabled route has one proof, with the priority of the first route that shares its mark and table |
| ProofPlan.PlanNamesKeys | internal/artifact/artifact.go:1009-1037 | two proofs share a priority exactly when they share a configured mark and table |
| ProofPlan.BuildIPRules | internal/artifact/artifact.go:1312-1357 | the rule list is the first usable request for every mark and table, in every family, sorted |
| ProofPlan.ProofPriorityIsInstalled | internal/artifact/artifact.go:1312-1357 | a proof's mark and table have a rule in each family, at the proof's own priority exactly unless the TPROXY rule has taken that mark and table first |
| ProofPlan.InstalledPrioritiesUnique | internal/artifact/artifact.go:1312-1357 | installed rules are in priority order with at most one for a family and priority |
| ProofPlan.SelectProofs | internal/artifact/artifact.go:352-364 | the proofs of used routes, unchanged and in order |
| ProofPlan.SelectedIsInstalled | internal/artifact/artifact.go:250-259 | every selected proof names a rule that the full plan installs at the same priority |
| ProofPlan.RebuildingReindexes | internal/artifact/artifact.go:251-257 | building proofs again without a route of unshared key lowers the priority of every route whose key comes first after it by ten, and no rule with that route's mark and table is installed at the new priority; all other proofs stay |
| IPPlan.ValidateIPRoutes | internal/artifact/artifact.go:1803-1848 | accepts exactly valid routes with one per family and table, and returns what they cover |
| IPPlan.ValidateIPRules | internal/artifact/artifact.go:1850-1880 | accepts exactly proofs with distinct tags, covered tables and one mark and table for a priority |
| IPPlan.ValidateExplicitIPRules | internal/artifact/artifact.go:1882-1904 | accepts exactly distinct, well-formed rules with a route in their table |
| IPPlan.ValidateDnsProxies | internal/artifact/artifact.go:1768-1801 | accepts exactly listeners of known VLESS routes that clash in neither tag, inbound nor port |
| IPPlan.LoadIPPlan | internal/artifact/artifact.go:1688-1766 | the loader with its validators accepts exactly the plans described by `Accepts` |
| PlanBuild.BuildIPPlan | internal/artifact/artifact.go:1041-1225 | the staged builder computes the plan of its specification, blocked at the stage and for the reason given there |
| PlanAccepted.BuiltPlanAccepted | internal/artifact/artifact.go:1041-1225 | ready or blocked, the plan built from a valid config is accepted by its loader exactly when its DNS listeners are and it does not both get as far as its routes, which the diagnostics tell, and want two contents in one table |
| PlanAccepted.CarriesRoutesWhen | internal/artifact/artifact.go:1059-1180 | a plan carries routes, installed or as a preview, exactly when the diagnostics are loaded, allow TPROXY if it is needed, name valid LAN interfaces and serve every route |
| PlanAccepted.ReadyExactly | internal/artifact/artifact.go:1041-1225 | a plan is ready exactly when the config has no device overrides and either nothing needs the network, or it carries its routes, the proxy and Zapret it uses are managed, and flow offloading was seen off wherever policy traffic needs that |
| Generated.GeneratedPlanAccepted | internal/artifact/artifact.go:229-265 | the generated plan with its allocated listeners is accepted exactly when no two used VLESS tags differ in case only and a plan that gets as far as its routes has no routed route on the proxy's table |
| PlanAccepted.RoutesOkUnlessClash | internal/artifact/artifact.go:1803-1848 | the planned routes are valid exactly when no table is wanted both for proxied and for routed traffic |
| PlanAccepted.ClashWhenShared | internal/artifact/artifact.go:1588-1599 | a table is wanted with two contents exactly when a proxied route is enabled and a routed one has the proxy's table, as the config says |
| PlanAccepted.DistinctTablesNoClash | internal/config/config.go:475-496 | an Xray table distinct from the WAN and Zapret tables rules the clash out |
| PlanAccepted.TelegramRouteBlocks | internal/artifact/artifact.go:1588-1599 | a valid config with an enabled `tg_ws_proxy` route never yields a ready plan |
| DnsProxies.VlessFacts | internal/artifact/artifact.go:1236-1288 | ports are given out over exactly the VLESS routes, each once, in the order of their tags |
| DnsProxies.BuildDnsProxies | internal/artifact/artifact.go:1236-1288 | fails exactly when an endpoint does not parse or a port of a used route is out of range or taken; otherwise each used VLESS route has the port of its place |
| DnsProxies.AllocationSucceeds | internal/artifact/artifact.go:1236-1288 | on a valid config allocation succeeds exactly when SOCKS endpoints of non-transparent routes stay clear of the allocated ports |
| DnsProxies.AllocationNeverFails | internal/config/config.go:601-614 | with SOCKS endpoints on transparent route types only, validation makes allocation succeed |
| DnsProxies.AllocatedPorts | internal/artifact/artifact.go:1236-1288 | allocated ports are pairwise distinct, within 1024..65535 and differ from the transparent port and every SOCKS port |
| DnsProxies.AllocatedAccepted | internal/artifact/artifact.go:1768-1801 | the loader accepts the allocated listeners exactly when no two used tags differ in case only |
| Kernel.ApplyIPPlan | internal/dataplane/ipplan.go:31-123 | success installs exactly the planned rules and routes and happens exactly for a ready plan with usable rules while no command is refused; on failure too, rules at other priorities and other tables are untouched; a plan that is not ready does nothing |
| Kernel.InstallRules | internal/dataplane/ipplan.go:77-103 | delete-then-add per rule yields the specified rule database; it fails exactly for a refused command or a rule without mark, table or priority |
| Lookup.ApplyTwice | internal/dataplane/ipplan.go:57-103 | applying a plan twice is applying it once |
| Lookup.OtherRulesUntouched | internal/dataplane/ipplan.go:77-103 | rules at other priorities keep their place and order |
| Lookup.MarkedPacketFindsTable | internal/dataplane/ipplan.go:77-103 | a packet with an enabled route's mark, as a number, is looked up in that route's table exactly unless the TPROXY rule is installed for the same mark and another table, if no foreign matching rule is ahead |
| Lookup.TableServesRoute | internal/dataplane/ipplan.go:57-76 | afterwards the table of a route holds the default route that this route wants |
| Lookup.PlanRoutesMarkedPackets | internal/artifact/artifact.go:1041-1225 | from a valid config and a ready, accepted plan to the kernel: a marked packet is looked up in its route's table exactly unless the TPROXY rule takes it, and that table holds its route |
| Lookup.AcceptedNoClash | internal/artifact/artifact.go:1803-1848 | a ready plan that its loader accepts wants no table with two contents |
| Lookup.TProxyPacketFindsTable | internal/artifact/artifact.go:1312-1357 | with a proxied route the TPROXY mark is looked up in the proxy's table, whatever marks the routes have |
| Delivery.ActionCarriesMark | internal/artifact/artifact.go:713-747 | what a route's action lets through carries the mark its rule is installed for |
| Delivery.CarriedMarkFindsTable | internal/dataplane/ipplan.go:77-103 | under the mark that the filter leaves on it a packet is looked up in its route's table, with the same exact exception |
| Delivery.PacketTakesItsRoute | internal/artifact/artifact.go:509-586 | compiler and kernel together: a LAN packet that a single route wants is dropped if that route discards it, and otherwise leaves by the route planned for it, in that route's table, exactly unless the TPROXY rule takes that route's mark |
| Nft.RenderNft | internal/artifact/artifact.go:509-633 | rendering succeeds exactly for sound marks and known actions, and yields the described chains |
| NftMeaning.ProgramMeansPolicy | internal/artifact/artifact.go:533-586 | the program, run with jump and return, is the policy for every packet: exempt traffic first, then two claims drop with the drop mark, one claim gives that route's action, none leaves the packet alone; no jump runs out |
| NftMeaning.GuardFacts | internal/artifact/artifact.go:559-568 | some guard rule applies exactly when two route sets claim the destination, and every guard rule drops with the drop mark |
| NftMeaning.ActionEval | internal/artifact/artifact.go:713-747 | the rules of a route's chain have the outcome of its route type |
| RouteSets.BuildRouteAssignments | internal/artifact/artifact.go:1486-1509 | one assignment for every route in use, made by the first policy for it, by priority and tag |
| RouteSets.AssignmentsUnique | internal/artifact/artifact.go:1498-1508 | the policies determine the list, whatever order the map is read in |
| RouteSets.CollisionIsTwoRoutes | internal/artifact/artifact.go:563-572 | a destination collides exactly when policies for two different routes want it |
| RouteSets.FilterFollowsPolicies | internal/artifact/artifact.go:509-586 | the filter program in terms of the policies: two routes drop with the drop mark, a single one gives its action, none leaves the packet alone |
| Domains.BuildDomainPolicies | internal/artifact/artifact.go:1424-1484 | services by name and then overrides, first claim on a domain counts; fails exactly when a claim has no route |
| Domains.ClaimsExactly | internal/artifact/artifact.go:1447-1471 | the claims are those of the services' domains, none of them exact, and then the overrides in their order, all exact |
| Domains.ClaimedWhenChosen | internal/artifact/artifact.go:1424-1484 | policies are refused exactly when matching refuses a domain for the service that claims it first |
| Domains.ClaimedFacts | internal/artifact/artifact.go:1424-1484 | one policy for every claimed domain and no other, each made by the first claim on it |
| Domains.SortIsInOrder | internal/artifact/artifact.go:1472-1483 | the sorted list is in order and holds the same policies |
| XrayRouting.RenderRules | internal/artifact/artifact.go:893-931 | fails exactly for an unknown outbound or a taken fail-closed tag; otherwise one rule a policy and the closing rule, in order |
| XrayRouting.FirstMatchIsMostSpecific | internal/artifact/artifact.go:893-931 | for every name, first match over the order is the exact policy if there is one, otherwise the policy above it with the most labels, otherwise the closing outbound |
| XrayRouting.CompiledDecision | internal/artifact/artifact.go:1424-1484 | from services and overrides to the outbound of a name: that of the most specific policy, made by the first claim on its domain |
| Tailer.Watcher.ReadPass | internal/discovery/dnsmasq.go:124-256 | one pass emits what the plain splitter finds up to the last line it read; the cursor goes there, or past a discarded tail without a newline in it; says exactly when the pass moves on, and that a tail over 128 KiB without a newline is discarded |
| Tailer.Watcher.Run | internal/discovery/dnsmasq.go:72-117 | over any number of passes on a growing log, the emission is that of the plain splitter between the discarded stretches, in order and once each; without one, the cursor is after a newline or at 0; it ends early exactly on a read error, and every pass covers one more line or discards one more stretch until nothing complete that was there at first is left; says where a start at the end begins |
| Tailer.RunCatchesUp | internal/discovery/dnsmasq.go:96-117 | where all lines fit, after more passes than lines everything that was complete when the run began has been emitted, and exactly that if the log has not grown |
| Tailer.EmissionIsSplitting | internal/discovery/dnsmasq.go:213-230 | the emission of a run is that of splitting the whole log once, exactly when the rest of each discarded line does not parse as a line of its own |
| Tailer.LinesFitIsSplitting | internal/discovery/dnsmasq.go:156-241 | told from the log alone: where no newline-free stretch exceeds 128 KiB nothing is discarded, and the emission is that of splitting once |
| Failures.SharedTableRefused | internal/artifact/artifact.go:1803-1848 | a valid config with one table for WAN and proxy: its plan is ready, and its own loader refuses it |
| Failures.TelegramNeverReady | internal/artifact/artifact.go:1588-1599 | a valid config with an enabled `tg_ws_proxy` route, for which no plan is ever ready |
| Failures.TProxyTakesPriority | internal/artifact/artifact.go:1312-1357 | a valid config whose route proof names priority 10020 while its rule is installed at 10000 |
| Failures.MarkedWanDiverted | internal/config/config.go:475-496 | a valid config whose WAN route has the TPROXY mark: its packets are looked up in the proxy's table |
| Failures.CaseOnlyTagsRefused | internal/artifact/artifact.go:1768-1801 | a valid config with two used VLESS tags that differ in case only: ports are allocated, the loader refuses them |
| Failures.SquattedPortFails | internal/artifact/artifact.go:1236-1288 | a valid config with a direct route on the first DNS proxy port, for which allocation fails |
| Failures.CutTailEmitted | internal/discovery/dnsmasq.go:213-230 | a log with one overlong line that yields an observation once the line has been cut, and none when it is split |
| Failures.CutInTwoPasses | internal/discovery/dnsmasq.go:213-230 | the same in two passes of the reader: an observation is emitted that splitting the log does not yield |
| Failures.MidLineStartReplays | internal/discovery/dnsmasq.go:143-149 | a log on which a start at the end goes back to 0, where a line that was there before is emitted |
| Tailer.Watcher.ReadLines | internal/discovery/dnsmasq.go:156-241 | the chunked loop with budget, drain and discard, against the plain splitter |
| Tailer.ObservedConcat | internal/discovery/dnsmasq.go:156-241 | splitting whole lines and then the rest is splitting all of it, which is why passes compose |
| Discovery.Control.Enqueue | internal/api/discovery_control.go:89-119 | accepted exactly for a new key, outside its window by the full history, with room in the queue; nothing else changes |
| Discovery.Control.Begin | internal/api/discovery_control.go:35-50 | starts exactly when the key is not in flight and not within its window by the full history, so that starts of one key stay 30 minutes apart |
| Discovery.Control.Finish | internal/api/discovery_control.go:52-66 | pruning drops only entries whose window is over; the history gains the observation |
| Discovery.Control.Release | internal/api/discovery_control.go:121-129 | pending stays exactly the queued or processed keys |
| Discovery.Control.SameDecision | internal/api/discovery_control.go:35-129 | the decision on the bounded map is the decision on the full history |
| Discovery.Control.WorkOne | internal/api/server.go:640-719 | one turn of the worker takes one observation and gives its key back; it is started exactly when its domain belongs to no service and is outside its window by the full history |
| Discovery.Control.Discover | internal/api/server.go:710-719 | a domain is looked at exactly when it belongs to no service, is not in flight and is outside its window by the full history |
| Assignment.CommitAutomaticDomain | internal/api/server.go:951-1137 | ends on every result list; no route is tried twice and only listed ones; `Story`: the last attempt's answers give the result and its reason, an attempt that is followed by another is an undone failed proof, the next one is a best candidate under the config it had read, and a failed proof is reported only when there is none; at most the last tried mapping is left live; applied means that since the last apply the route was probed and proved, and a decision for it read back, both under the revision that this attempt has read |
| Assignment.GivesUpOnlyWhenExhausted | internal/api/server.go:1061-1079 | when a failed proof is reported, the last attempt was made with exactly the results of the routes not tried before it, and none of the others is a candidate |
| Assignment.SucceedsInTheLast | internal/api/server.go:1081-1137 | a commit is applied exactly when its last attempt was admitted, proved and read back; every attempt before it has been undone |
| Assignment.AdmittedExactly | internal/api/server.go:951-1002 | an attempt is admitted exactly with an open fence, evidence, a known revision and a route that the search for candidates admits too |
| Assignment.Record | internal/api/server.go:1081-1114 | success means that exactly this decision is stored and was read back, and follows from that; anything else undoes the mapping or reports that it could not, for its reason |
| Assignment.RetryIsSmaller | internal/api/server.go:1061-1079 | each retry has fewer untried routes |
| Assignment.NextCandidate | internal/api/server.go:1144-1190 | a best admissible candidate by score and tag, and none exactly when there is none |
| Assignment.BestIsLeast | internal/api/server.go:1183-1190 | no candidate has a smaller score than the chosen one, and among equal scores none has a smaller tag |
| Assignment.RemainingFacts | internal/api/server.go:1192-1200 | exactly the results of other routes remain, fewer than before if the route was listed |

## Left out

- PatchInverse.DiffPatchInverse: trees are values; a string is a sequence of bytes and a number a real.
- Patch.BuildCandidate: decoding, validating and re-encoding the typed config is a parameter of the model; trees are values, so aliasing between nested maps is not captured.
- Controller.Server.ConfirmChangeSet: success does not imply committed, because the code also returns without an error after recording an accepted rollback.
- Controller.Server.FinishValidate: renderers, diagnostics and warnings produced by validation are not kept, only the candidate, its hashes and its rows.
- Recovery.RecoverTransactions: changes are taken in any order rather than sorted; whether the adapter answers and whether a deadline has passed are inputs.
- Service.Handle: requests run one at a time, except that other requests run between the two halves of a validation; any interleaving of store writes and adapter calls is covered by the theorems in Runs. A request on a change that is being validated waits, here: it comes again later.
- Service.CheckDeployment: restoring route assignments either works or fails; the stored copy of the recovery status is left out, except that storing it may fail.
- Config.Validate: only the fields that the compiled plan depends on; domain normalization, services and overrides are not validated here.
- ProofPlan.BuildProofPlan: `enabledRoutes` sorts the routes, here any order.
- IPPlan.LoadIPPlan: reading the file, comparing its binding and checking device-scoped profiles are not part of this model.
- PlanBuild.BuildIPPlan: device-scoped Zapret rules, timestamps and simulation fields are not part of this model.
- Kernel.ApplyIPPlan: `ip rule del` fails only when nothing has that priority; only default destinations are replaced; lookup stops at the first matching rule.
- RouteSets.BuildRouteAssignments: the service names collected with an assignment are left out, as rendering does not use them.
- Nft.RenderNft: the rule tree and not its text; the output probe chain, the forward guard, the DNS redirect chain, comments and the dnsmasq file are left out; what a route set contains is a function of the environment.
- Domains.BuildDomainPolicies: the choice of a route for a service (selection evidence, override matching, allowed paths) is a function parameter that may fail.
- XrayRouting.RenderRules: rules of an imported bundle are assumed to concern other inbounds; JSON and outbound contents are left out.
- Tailer.Watcher.Run: one file identity in a run, rotation only within `Watcher.ReadPass`; the parser of a line is a parameter.
- Discovery.Control.WorkOne: one worker; probing, suggestions and reports are left out; time is in seconds and does not run backwards.
- Assignment.CommitAutomaticDomain: candidate and manifest hash comparisons, suggestions and evidence records are left out; the runtime, the probe and the decision store are a class that may fail or answer anything its contract allows.
- The legacy single-call commit crosses the adapter boundary before the durable write, so that the safety claim here is for the split commit only.
- The adaptive path, the delete action of a change, cleanup of retired revisions, TSPU, GeoIP, subscriptions, probes and health checks.
- HTTP handlers, sessions, events, files, JSON text, SHA-256, sockets, the helper process and the command line.
