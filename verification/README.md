# A verified model of the WorkloadClass controllers and webhooks

This project models the decision logic of the WorkloadClass operator in Dafny and proves what it promises. The
model covers three groups of behaviour.

**Per-Pod PodDisruptionBudgets and leases.** The disruption webhook records lease requests in an in-memory tracker;
the WorkloadClass reconciler drains them and writes one PDB per governed Pod. `LeaseTracker` and `PdbReconciler`
hold the code's own loops and writes; `PdbSpec` says what a pass does to a single PDB; `PdbPass` proves that the
imperative pass does exactly that, in every intermediate state and under every API failure. `PdbGuarantees` says what
that means for a Pod and its PDB, in the words of the API objects alone. `PdbRuns`, `Sweeps`,
`Confluence` and `WakeUp` are about whole runs; `Interleaving` takes a pass apart into its API calls, with users,
Pods, classes and other reconcilers acting between any two of them. `Governance` decides which class governs a Pod, `MaintenanceReadiness` when its
PDB is open, `DisruptionWebhook` what an eviction request is answered.

**Spot placement.** `Placement` and `PodWebhook` rewrite an admitted Pod, `SpotCounts` counts a workload's Pods in
both components, `SpotRatio` is the ratio rule, `Reversion` evicts fallback Pods, `FallbackLatch` keeps the
InFallback condition, and `ClosedLoop` composes reversion with admission. `Agreements` is about what the components
mean for each other: capacity guardrails for admission, the disruption webhook for reversion.

**Decision procedures.** `Selector` (do two label selectors overlap), `Windows` (is an instant in a weekly window),
`Guardrails` and `Capacity` (does a class comply with every guardrail).

`Wrappers`, `Labels` and `Types` hold the shared values. The cluster is a set of maps; every Get, List or write
either succeeds or fails as a fault set says, Pods' names are at most 244 bytes, and all calls of one pass see one
instant of time (except in `Interleaving`).

Where the code and its documentation differ, the model follows the code:

- A class with a `maxNonDisruptionDurationDays` of 0 is always overdue (internal/controller/workloadclass_controller.go:651-660),
  although README.md:21 calls 0 "no upper bound".
- The wait of `IsTimeInWindows` is documented as the time until the next state change (internal/utils/temporal.go:70-71),
  but is computed from the current local day only.

Claims that turned out to be conditional are proved with their condition, and with an input that shows it is needed:

- Opening the PDBs of a class that does not protect Pods writes the `workload-` PDB of a Pod whenever that class owns
  a PDB carrying the Pod's own name, whoever owns the prefixed one. `PdbRuns.PassKeepsLease` states exactly when a
  lease survives that, `Confluence.ConfluentExactlyIfUncontested` exactly when the order of the passes matters,
  `Confluence.IdempotentExactlyIfUndisputed` exactly when a second sweep changes something, and
  `Confluence.GuardedPodsAreProtected` exactly when every sweep protects a Pod. `PdbRuns.DiversionEndsLease` and
  `Confluence.StrayPdbBreaksConfluence` are inputs on which it happens.
- A class with requests stays awake exactly unless the last thing that would wake it is a dropped signal
  (`WakeUp.AwakeExactlyIfNoWakeUpIsLost`); `WakeUp.DroppedSignalCanStrand` is a run in which that happens.
- When Pods, users and classes may act in the middle of a pass, the PDB of a Pod that is guarded in every state can be
  deleted. `Interleaving.DroppedExactlyIfMisled` states exactly when, in terms of what the pass has read; with the
  classes unchanged (`Interleaving.GuardedIsDroppedExactly`) there are two ways: the Pod's new labels are covered by a
  user PDB of the list the pass started from, or the Pod's best match moved to the passing class after the Pods were
  listed. `Gaps.StaleCoverageOpensGap` and `Gaps.RelabellingOpensGap` are runs in which that happens.
- The wait of a closed window misses no opening exactly if the window starts later on the same local day, or names no
  weekday at all (`Windows.WaitIsExactExactlyIfStartsToday`).
- The aggregate of the disruption guardrails equals the pairwise check except for invalid weekday names
  (`Guardrails.InvalidDayNameDiffers`); that of the capacity guardrails except when Required and Forbidden are mixed
  (`Capacity.MixedGuardrailsDiffer`).
- The node affinity rewrite is AND except on an affinity that has no terms or an empty term
  (`Placement.RewriteIsAndUnlessLoosened`, `Placement.EmptyTermIsLoosened`).

## Model

| member | source | states |
|---|---|---|
| Selector.KeyConstraint.Add | internal/utils/selector.go:83-99 | adding a requirement to a key's constraint accepts exactly the values both accept |
| Selector.KeyConstraint.Satisfiable | internal/utils/selector.go:101-112 | true iff some value, or the absence of the label, is accepted |
| Selector.KeysAreIndependent | internal/utils/selector.go:36-60 | a label map meeting all requirements exists iff each key on its own can be met |
| Selector.FreshValue | internal/utils/selector.go:101-112 | over unbounded values, some value lies outside any finite NotIn list |
| Selector.OverlapIsSatisfiability | internal/utils/selector.go:36-60 | two valid selectors overlap iff every key's joint requirements are satisfiable |
| Selector.SelectorsOverlap | internal/utils/selector.go:36-60 | an error iff a selector is invalid; otherwise true iff some label map is matched by both; nil matches nothing |
| Governance.BestMatchIsLexMax | internal/utils/workloadclass.go:90-110 | the best match is the maximum of specificity, then age, then list position, among live matching classes; none iff no class matches |
| Governance.MostSpecificThenOldest | internal/utils/workloadclass.go:143-168 | no live class that selects the Pod has more match labels and expressions than the best match; with as many it is not older, and of the same age it is not listed first |
| Governance.BestMatchIgnoresOrder | internal/utils/workloadclass.go:90-156 | without ties the list order does not matter |
| Governance.UpdateBestMatch | internal/utils/workloadclass.go:143-156 | the running maximum after one more candidate |
| Governance.SelectBestMatchFromList | internal/utils/workloadclass.go:90-110 | the loop computes the best match and its specificity |
| Governance.BestMatchIsListed | internal/utils/workloadclass.go:79-88 | the best match is a live class of the list, and its selector selects the Pod unless it is enforced |
| Governance.EnforcedGovernsAll | internal/utils/workloadclass.go:79-88 | a live class that the namespace enforces is the best match of every Pod; a terminating one leaves them to the selectors |
| Governance.OthersAreSelected | internal/utils/workloadclass.go:196-229 | a namespace that enforces no class, or one that does not exist, leaves every Pod to the selectors |
| Governance.NoOverlapNoAmbiguity | internal/controller/workloadclass_controller.go:1019-1052 | when no two live classes overlap, no Pod matches two of them and the match is independent of the order |
| LeaseTracker.PendingLeaseTracker.constructor | internal/utils/lease_tracker.go:62-70 | an empty tracker with the requested or the default buffer |
| LeaseTracker.PendingLeaseTracker.Enqueue | internal/utils/lease_tracker.go:80-103 | the first requester of an instance wins, a new instance replaces an old one; a full channel drops the signal and not the request |
| LeaseTracker.PendingLeaseTracker.Signal | internal/utils/lease_tracker.go:135-150 | sends iff the channel has room |
| LeaseTracker.PendingLeaseTracker.Drain | internal/utils/lease_tracker.go:106-126 | takes every request of the class, each once, sorted by Pod, and touches no other class |
| LeaseTracker.LessIsLexicographic | internal/utils/lease_tracker.go:106-126 | the order in which requests are drained compares Pod names letter by letter |
| WakeUp.StepKeepsNoLostWakeUp | internal/utils/lease_tracker.go:80-150 | every step of tracker, channel, workqueue and workers keeps the invariant |
| WakeUp.NoWakeUpIsLost | internal/controller/workloadclass_controller.go:77-154 | in every run a class with requests and no dropped signal has an enqueuer, an event, a queued key, a retry, or a reconcile that has yet to drain |
| WakeUp.RequestsSurvive | internal/utils/lease_tracker.go:80-103 | only draining removes a request; only another instance's request replaces it |
| WakeUp.WakeUpIsLostExactlyThen | internal/utils/lease_tracker.go:135-150 | a step leaves recorded requests with nothing to wake their class iff it is the dropped signal of their last wake-up |
| WakeUp.AwakeExactlyIfNoWakeUpIsLost | internal/utils/lease_tracker.go:80-150 | over whole runs a class with requests is always awake iff no step is of that kind |
| WakeUp.DroppedSignalCanStrand | internal/utils/lease_tracker.go:135-150 | a run in which a dropped signal leaves a request with nothing to wake its class |
| Pdb.NameRoundTrip | internal/utils/pdb.go:58-72 | PDB naming is injective and undone by stripping the prefix, in both directions |
| Pdb.UidSelectorSelects | internal/utils/pdb.go:97-163 | the selector a PDB gets matches exactly the Pods labelled with that uid |
| Pdb.BypassOwnerIsInjective | internal/utils/pdb.go:166-175 | the holder annotation identifies one subject |
| Pdb.GrantedLeaseIsExclusive | internal/utils/pdb.go:226-316 | a granted lease opens the PDB, is the subject's until it expires and nobody else's, and can be granted again afterwards |
| PdbReconciler.ClaimPdb | internal/controller/workloadclass_controller.go:422-436 | refuses an existing PDB no class controls, and otherwise makes this class its only controller |
| PdbReconciler.SyncPdbWithWorkloadClass | internal/utils/pdb.go:97-163 | the written fields: uid selector, no lease, open iff not valid, Ready or Overdue |
| PdbReconciler.PdbWithLease | internal/utils/pdb.go:275-316 | the leased PDB: holder, expiry and open budget |
| PdbReconciler.WritePodPdb | internal/controller/workloadclass_controller.go:390-417 | one write to the Pod's PDB, or an error that leaves it as it was |
| PdbReconciler.DeleteOwned | internal/controller/workloadclass_controller.go:440-456 | deletes only a PDB the class controls |
| PdbReconciler.EnsurePodUidLabel | internal/controller/workloadclass_controller.go:374-387 | the Pod carries its uid as a label afterwards, or the patch failed and nothing changed |
| PdbReconciler.ReconcilePodPdb | internal/controller/workloadclass_controller.go:300-336 | grants, keeps, refuses or syncs as the specification of one Pod says, under every fault |
| PdbReconciler.GovernedIsSelected | internal/controller/workloadclass_controller.go:260-296 | listing by the class's selector drops no governed Pod |
| PdbReconciler.GovernedPods | internal/controller/workloadclass_controller.go:260-296 | returns exactly the active, uncovered Pods whose best match is the class, or the listing error |
| PdbReconciler.GovernanceIsPartition | internal/controller/workloadclass_controller.go:260-296 | an active, uncovered Pod is governed by exactly one class if it has a best match, and by none otherwise |
| PdbPass.ReenqueueLeases | internal/controller/workloadclass_controller.go:346-351 | puts every given request back into the tracker |
| PdbPass.OpenOwnedPdbs | internal/controller/workloadclass_controller.go:355-371 | opens the PDBs of the class's Pods that are active and uncovered and deletes its others |
| PdbPass.VisitGoverned | internal/controller/workloadclass_controller.go:197-234 | every governed Pod is reconciled, a failing one gives its request back, the delay is the earliest lease expiry |
| PdbPass.DropUngoverned | internal/controller/workloadclass_controller.go:236-256 | deletes owned PDBs of Pods no longer governed, except those another protecting class will adopt |
| PdbPass.ReconcilePdbs | internal/controller/workloadclass_controller.go:170-257 | the whole pass: final PDBs, Pods, every intermediate state, requests put back, error and requeue delay |
| PdbPass.DrainAndReconcile | internal/controller/workloadclass_controller.go:135-153 | drain followed by the pass: what the tracker holds for this class and for all others |
| PdbGuarantees.InvalidClassOpens | internal/controller/workloadclass_controller.go:355-371 | a class that is not valid opens the PDB of every active Pod without a user PDB for which it owns one, without a lease, or the pass fails |
| PdbGuarantees.ValidClassGoverns | internal/controller/workloadclass_controller.go:492-506 | a class that passed validation, or overlaps while there are guardrails, governs when its listings succeed |
| PdbGuarantees.ValidClassProtects | internal/utils/pdb.go:97-163 | and gives each unleased active Pod it is the best match of, if no user PDB covers it, a PDB for its uid only, open iff the class is Ready or Overdue |
| PdbGuarantees.NoPdbIsLeftOver | internal/controller/workloadclass_controller.go:236-371 | after a pass without error each PDB of the class belongs to a Pod that is active and not covered by a user PDB |
| PdbGuarantees.OwnedPdbIsDroppedExactly | internal/controller/workloadclass_controller.go:236-253 | a valid class deletes a PDB of its own iff the Pod needs none, or no valid class is its best match |
| PdbGuarantees.UndisturbedPassSucceeds | internal/controller/workloadclass_controller.go:170-257 | without faults, and with no PDB name taken by a user, a pass does not fail |
| PdbGuarantees.RequestIsGranted | internal/utils/pdb.go:177-189 | the first request for an unleased governed Pod opens its PDB for the subject, until the Pod's remaining grace period, else its configured one, else 30 seconds have passed |
| PdbGuarantees.RemainingIsLeaseTime | internal/controller/workloadclass_controller.go:300-344 | the delay after which a governed Pod is looked at again is the time its lease still has, 0 without a lease |
| PdbRuns.NoTrespass | internal/controller/workloadclass_controller.go:422-456 | no pass changes a PDB that no WorkloadClass controls, even one named like a Pod's |
| PdbRuns.PassSparesUserPdbs | internal/controller/workloadclass_controller.go:170-257 | the same at every moment of a pass |
| PdbRuns.PassKeepsProtection | internal/controller/workloadclass_controller.go:236-253 | the managed PDB of a Pod whose best match protects is never deleted, and only its best match or a diverting class takes it over |
| PdbRuns.ProtectionIsContinuous | internal/controller/workloadclass_controller.go:170-257 | in every state of every run such a PDB exists |
| PdbRuns.PassKeepsLease | internal/controller/workloadclass_controller.go:300-344 | a pass leaves an unexpired lease untouched iff its class does not divert the PDB |
| PdbRuns.StepKeepsLease | internal/controller/workloadclass_controller.go:300-344 | no step of a pass or of the environment changes the lease |
| PdbRuns.LeaseIsStable | internal/controller/workloadclass_controller.go:300-344 | over whole runs holder, expiry and the open budget of an unexpired lease stay |
| PdbRuns.DiversionEndsLease | internal/controller/workloadclass_controller.go:355-371 | a cluster in which opening a PDB without the prefix ends another class's lease |
| PdbRuns.GovernedPdbIsSynced | internal/controller/workloadclass_controller.go:170-257 | after an error-free pass an unleased governed PDB is owned, selects its Pod's uid, and is open iff Ready or Overdue |
| PdbRuns.RequestIsAccountedFor | internal/controller/workloadclass_controller.go:179-234 | a drained request ends granted, already held, refused for another's lease, or back in the tracker |
| PdbRuns.ListingFailureLosesNothing | internal/controller/workloadclass_controller.go:179-196 | when a listing fails, nothing is written and all requests are back |
| Sweeps.AfterIsPass | internal/controller/workloadclass_controller.go:170-257 | a sweep step is the pass of `PdbPass`, name by name |
| Sweeps.DiverterControls | internal/controller/workloadclass_controller.go:355-371 | the diverter of a Pod is the live class that opens its PDBs and controls the one carrying the Pod's own name |
| Sweeps.PassIsEffect | internal/controller/workloadclass_controller.go:170-257 | in a quiet namespace a pass acts on each PDB by a function of that PDB and a context |
| Sweeps.AfterKeepsContext | internal/controller/workloadclass_controller.go:170-257 | no pass changes that context: the Pod, its best match, or its diverter |
| Sweeps.SweepIsFold | internal/controller/workloadclass_controller.go:170-257 | a sweep over any classes folds those effects |
| Confluence.ProtectorAbsorbs | internal/controller/workloadclass_controller.go:197-256 | without a diverter the protecting class's write hides every other class's effect, before and after it |
| Confluence.SweepsAreConfluent | internal/controller/workloadclass_controller.go:170-257 | reconciling every class once gives the same PDBs in any order, if none is contested |
| Confluence.ConfluentExactlyIfUncontested | internal/controller/workloadclass_controller.go:170-257 | all orders agree iff no PDB is contested, for orders that reconcile each live class exactly once as for any others |
| Confluence.ContestedPodMeans | internal/controller/workloadclass_controller.go:355-371 | contested: a class that opens PDBs controls the one carrying the Pod's own name, and the Pod is guarded, or another protecting class owns the Pod's PDB and deleting it loses labels or owner references |
| Confluence.SweepsAreIdempotent | internal/controller/workloadclass_controller.go:170-257 | a second sweep, in any order, changes nothing, if no PDB is disputed |
| Confluence.IdempotentExactlyIfUndisputed | internal/controller/workloadclass_controller.go:170-257 | a second sweep never changes anything iff no PDB is disputed, for orders with and without repetitions |
| Confluence.DisputedPodMeans | internal/controller/workloadclass_controller.go:355-371 | disputed: the Pod is guarded, and a class that opens PDBs controls the one carrying the Pod's own name |
| Confluence.GuardedPodsAreProtected | internal/controller/workloadclass_controller.go:170-257 | every sweep leaves a guarded Pod its PDB, owned by its best match, for its uid only, open iff Ready or Overdue, iff the PDB is not disputed; a PDB of that name that no class controls just stays |
| Confluence.SweepProtectsEveryGuardedPod | internal/controller/workloadclass_controller.go:170-257 | the same for one sweep, the PDB being undisputed or not controlled by a class |
| Confluence.StrayPdbBreaksConfluence | internal/controller/workloadclass_controller.go:355-371 | a quiet namespace with one PDB that lacks the prefix, where the class reconciled last owns the Pod's PDB |
| Interleaving.IntendedIsCall | internal/controller/workloadclass_controller.go:390-456 | the writes of single calls are those of the pass |
| Interleaving.CommitIsAtomic | internal/controller/workloadclass_controller.go:390-456 | a Get and its conditional write act as one call at the moment of the write, or conflict without effect |
| Interleaving.NoTrespassInterleaved | internal/controller/workloadclass_controller.go:419-456 | however calls, users and Pods interleave, no reconciler changes a PDB that no class controls |
| Interleaving.OnlyOwnersDelete | internal/controller/workloadclass_controller.go:438-456 | a PDB is deleted only by the class that controls it at that moment, never after an adoption |
| Interleaving.DropsIsPass | internal/controller/workloadclass_controller.go:236-371 | when only the pass itself changes Pods between its reads, its deletions are those of the atomic pass |
| Interleaving.OpeningIsPass | internal/controller/workloadclass_controller.go:355-371 | when nothing else happens, the PDBs it decides to open are those of the atomic pass |
| Interleaving.VisitIsPass | internal/controller/workloadclass_controller.go:300-336 | and so are the leases it decides to grant and the PDBs it decides to sync |
| Interleaving.DroppedExactlyIfMisled | internal/controller/workloadclass_controller.go:184-253 | a pass decides to delete the PDB of an active Pod iff it is misled: it sees the Pod's present labels covered by a listed user PDB, or sees no other class that would adopt the PDB, and did not list the Pod as its own |
| Interleaving.GuardedIsDroppedExactly | internal/controller/workloadclass_controller.go:184-253 | for a Pod guarded when Pods are listed and when it is read again, with the classes unchanged: iff stale coverage, or the best match moved to the class in between |
| Interleaving.NoGapInterleaved | internal/controller/workloadclass_controller.go:170-257 | in every interleaving in which no pass is misled about the Pod, by what it read in earlier states of the run, the Pod's managed PDB exists |
| Interleaving.SettledMisleadsNobody | internal/controller/workloadclass_controller.go:170-257 | nobody is misled while the classes, the Pod's best match, and that no user PDB covers it stay as they are |
| Interleaving.MisledCallIsMade | internal/controller/workloadclass_controller.go:236-253 | any run can be continued by such a deletion call iff the pass is misled |
| Interleaving.MisledCallDeletes | internal/controller/workloadclass_controller.go:440-456 | and if the class still owns the PDB, the call deletes it and nothing else |
| Interleaving.LeasedIsNotWritten | internal/controller/workloadclass_controller.go:300-344 | on an active lease a pass of a protecting class decides neither to sync nor to lease the PDB |
| Interleaving.LeaseIsStableInterleaved | internal/controller/workloadclass_controller.go:300-344 | between calls, too, an unexpired lease keeps its holder, expiry and open budget while the Pod stays shielded and no pass is misled about it |
| Gaps.RelabellingOpensGap | internal/controller/workloadclass_controller.go:236-253 | a run in which relabelling a Pod from one team's class to another's makes its PDB disappear, the Pod being guarded in every state |
| Gaps.StaleCoverageOpensGap | internal/controller/workloadclass_controller.go:184-192 | a run in which a deleted user PDB of the old list does so, the Pod's best match being another class throughout |
| Windows.OpensTodayOrYesterday | internal/utils/temporal.go:152-163 | a start day whose window is open at an instant is that local day or the one before |
| Windows.EvaluationIsMembership | internal/utils/temporal.go:152-198 | the case analysis of today and yesterday equals membership over all integer start days |
| Windows.WeekdaysFollow | internal/utils/temporal.go:88-89 | the weekdays in Go's order, from Thursday 1 January 1970 |
| Windows.WindowByClock | internal/utils/temporal.go:152-198 | by the local clock: from start to end on the named days, past midnight if it ends before it starts, all day long if it ends when it starts; always without windows |
| Windows.WaitIsExactExactlyIfStartsToday | internal/utils/temporal.go:152-198 | the wait of a closed window misses no opening iff the window starts later today, when it opens right after the wait, or can never open |
| Windows.IsTimeInWindows | internal/utils/temporal.go:72-103 | true iff some parsable window contains the instant or there are no windows; otherwise a wait above 0 and at most 7 days; the wait is the least of the windows' waits |
| MaintenanceReadiness.SelectorListsBestMatches | internal/utils/workloadclass.go:172-189 | the listing selector drops no Pod whose best match is the class |
| MaintenanceReadiness.MatchedPods | internal/controller/workloadclass_controller.go:508-545 | exactly the Pods that are not completed and whose best match is the class |
| MaintenanceReadiness.CalculateReadiness | internal/controller/workloadclass_controller.go:508-588 | Ready, Overdue or NotReady as the policy defines it over all matched Pods, exactly when it errs, and a wait before which the same Pods cannot be settled |
| MaintenanceReadiness.OverdueMeans | internal/controller/workloadclass_controller.go:651-660 | without an override a class is Overdue iff its limit has passed since its last disruption, or since its creation if there was none; always if the limit is not positive |
| MaintenanceReadiness.ReadyMeans | internal/controller/workloadclass_controller.go:508-588 | a class that is not overdue is Ready iff a window is open, every running Pod of it is old enough and every terminating one has had its grace period |
| MaintenanceReadiness.OverrideIsReady | internal/controller/workloadclass_controller.go:508-520 | an overridden class is Ready |
| MaintenanceReadiness.CheckTerminations | internal/controller/workloadclass_controller.go:568-583 | whether every Pod has had its grace period, and otherwise the longest time left |
| MaintenanceReadiness.UnsettledUntil | internal/controller/workloadclass_controller.go:547-585 | one Pod that needs more time keeps the class from being settled for that long |
| MaintenanceReadiness.GracePeriodPassed | internal/controller/workloadclass_controller.go:678-690 | true iff a terminating Pod has had its grace period; otherwise the time left |
| DisruptionWebhook.MatchingSubjectsMatch | internal/webhook/disruption_webhook.go:199-235 | the collected subjects are exactly those of the class's list that the requester is |
| DisruptionWebhook.MatchingIsByIdentity | internal/webhook/disruption_webhook.go:199-235 | a requester matches a named subject iff the holder annotation of that subject names the requester, one of its groups, or its service account |
| DisruptionWebhook.HandleAuthorizedSubject | internal/webhook/disruption_webhook.go:152-197 | the decision for an allowed subject, and the one lease request it records |
| DisruptionWebhook.OnlyTheHolderGetsIn | internal/webhook/disruption_webhook.go:152-197 | while an instance is leased only the holder is admitted, and nobody, not even the holder, requests another lease |
| DisruptionWebhook.DeniedExactlyDuringAnothersLease | internal/webhook/disruption_webhook.go:165-180 | an allowed subject is denied iff the instance is leased to somebody it is not |
| DisruptionWebhook.LeaseIsObtained | internal/webhook/disruption_webhook.go:152-197 | an allowed subject that gets in finds the PDB leased to it or open, or the next undisturbed pass leases it to whoever asked first, whose retry gets in while the lease lasts |
| DisruptionWebhook.AsksExactly | internal/webhook/disruption_webhook.go:56-197 | a lease is requested iff a class in force allows a subject that the requester is and the managed PDB is neither leased nor open for the instance |
| DisruptionWebhook.Handle | internal/webhook/disruption_webhook.go:56-136 | the order of the decision, and that exactly the lease request it asks for is recorded |
| DisruptionWebhook.DeniedExactly | internal/webhook/disruption_webhook.go:56-136 | a request is denied iff a class in force is not overridden, and an allowed subject meets another's lease, or anybody else a class that is not overdue and whose windows are closed or the Pod too young; an error iff the Pod cannot be read |
| DisruptionWebhook.ReadinessCoheres | internal/controller/workloadclass_controller.go:508-588 | when the readiness computed now is Ready or Overdue, the webhook admits everyone's eviction of the class's active Pods |
| DisruptionWebhook.ClosedWindowBlocks | internal/webhook/disruption_webhook.go:100-136 | outside its windows a class that is not overdue admits only its subjects |
| Guardrails.IsSubset | internal/utils/subset.go:21-38 | true iff every element of the first list is in the second |
| Guardrails.DaysOfWeekViolation | internal/utils/guardrail.go:78-111 | names exactly the windows that leave the guardrail's days |
| Guardrails.GuardrailViolations | internal/utils/guardrail.go:47-70 | the violations of one guardrail, in order |
| Guardrails.ReportedExactly | internal/utils/guardrail.go:47-137 | when each violation of one guardrail is reported |
| Guardrails.OutsideMeans | internal/utils/guardrail.go:78-111 | the windows it names are those that may start on a day the guardrail does not list |
| Guardrails.SilentIsCompliant | internal/utils/guardrail.go:40-137 | with valid day names there is no violation iff the class may start on the guardrail's days only and keeps both limits |
| Guardrails.EffectiveDaysAreCommon | internal/controller/workloadclass_controller.go:793-810 | the effective days are the weekdays every restricting guardrail allows |
| Guardrails.Strongest | internal/controller/workloadclass_controller.go:793-816 | the common days, and the least positive limit of each kind |
| Guardrails.ValidateAgainstGuardrails | internal/controller/workloadclass_controller.go:788-837 | silent iff every guardrail alone is and, once days are restricted, all day names are valid |
| Guardrails.AggregateIsPairwise | internal/controller/workloadclass_controller.go:781-837 | the same for any limits that are the strictest ones, including the disjoint-days case |
| Guardrails.InvalidDayNameDiffers | internal/controller/workloadclass_controller.go:788-837 | an invalid day name that a guardrail lists too passes the pairwise check and fails the aggregate |
| Guardrails.CompliantOpensOnAllowedDays | internal/utils/guardrail.go:40-46 | whenever a compliant class with windows is open, a window that started on a day all guardrails allow contains the instant |
| Capacity.EffectiveLimits.ApplyConstraint | internal/controller/workloadclass_controller.go:955-1004 | what one constraint changes in the running limits, and whether it is faulty |
| Capacity.EffectiveLimits.Apply | internal/controller/workloadclass_controller.go:951-1008 | folds a guardrail's constraints in and keeps going after a faulty one |
| Capacity.EffectiveAggregates | internal/controller/workloadclass_controller.go:945-1008 | Forbidden dominates Required and lifts the minimum; otherwise the highest minimum holds; fallback is off iff some constraint blocks it |
| Capacity.AggregateIgnoresOrder | internal/controller/workloadclass_controller.go:917-1008 | the limits and errors depend only on which constraints there are |
| Capacity.GuardrailCapacityConstraints | internal/controller/workloadclass_controller.go:920-943 | the limits of all guardrails together, and whether any is faulty |
| Capacity.CheckStrategy | internal/controller/workloadclass_controller.go:856-914 | the violations of a strategy against the limits, in order |
| Capacity.ReportedExactly | internal/controller/workloadclass_controller.go:856-914 | when each violation of a strategy is reported, with 100 % as the default ratio |
| Capacity.AggregateIsEach | internal/controller/workloadclass_controller.go:839-915 | a strategy passes the aggregate and no guardrails mix Required with Forbidden iff it passes each guardrail alone |
| Capacity.MixedGuardrailsDiffer | internal/controller/workloadclass_controller.go:945-1008 | a mixed pair of guardrails whose aggregate an On-Demand strategy passes, though it fails one of them |
| Capacity.ValidateCapacityStrategy | internal/controller/workloadclass_controller.go:849-915 | the violations, none without guardrails; silent and unmixed iff each guardrail alone is silent |
| Agreements.PassesExactly | internal/controller/workloadclass_controller.go:849-915 | a strategy passes iff it and every constraint can be read, it does not want Spot where one forbids it and meets each one's demand and minimum where none does, and falls back only where each one lets it |
| Agreements.NoStrategyPassesExactly | internal/controller/workloadclass_controller.go:856-870 | no strategy passes iff every constraint can be read and none demands Spot that none forbids |
| Placement.PodSpec.RemoveSpotToleration | internal/webhook/v1/pod_placement.go:278-290 | the in-place filter removes exactly the Spot tolerations, in order |
| Placement.OnlySpotTolerationsGo | internal/utils/spotpod.go:49-54 | every other toleration stays, and none is added |
| Placement.SpotTolerationMeans | internal/utils/spotpod.go:48-54 | a Spot toleration is one that tolerates the taint of GKE's Spot nodes and no other |
| Placement.TargetedMeans | internal/utils/spotpod.go:37-46 | a Pod is Spot-targeted iff it selects the label of Spot nodes or tolerates exactly their taint |
| Placement.MutationTolerates | internal/webhook/v1/pod_placement.go:264-290 | mutated for Spot a Pod tolerates the taint; mutated for On-Demand only if a wildcard toleration of its own does |
| Placement.PodSpec.EnsureSpotToleration | internal/webhook/v1/pod_placement.go:265-275 | appends the Spot toleration iff there is none |
| Placement.SpotTolerationIsAdded | internal/webhook/v1/pod_placement.go:265-275 | the other tolerations stay, and doing it twice is doing it once |
| Placement.PodSpec.RequireNodeSelectorTerms | internal/webhook/v1/pod_placement.go:309-338 | the nested loops build the cross product of existing and new terms |
| Placement.RewriteIsAnd | internal/webhook/v1/pod_placement.go:303-328 | a node satisfies the rewritten affinity iff it satisfies the new terms and either the original or the affinity had no or empty terms |
| Placement.RewriteIsAndUnlessLoosened | internal/webhook/v1/pod_placement.go:303-328 | exactly when the rewrite is AND on every node |
| Placement.EmptyTermIsLoosened | internal/webhook/v1/pod_placement.go:303-328 | an affinity with an empty term allows no node, and its rewrite allows one |
| Placement.PodSpec.MutateForOnDemand | internal/webhook/v1/pod_placement.go:190-197 | the new selector, tolerations and affinity; the Pod is no longer Spot-targeted |
| Placement.OnDemandExcludesSpotNodes | internal/webhook/v1/pod_placement.go:189-197 | exactly the nodes without the Spot label that meet the rest of the Pod's constraints qualify |
| Placement.PodSpec.MutateForSpot | internal/webhook/v1/pod_placement.go:207-244 | the new selector, tolerations, preferences and affinity |
| Placement.SpotMutationTargets | internal/utils/spotpod.go:40-46 | a Pod mutated for Spot is Spot-targeted |
| Placement.SpotMutationMeans | internal/webhook/v1/pod_placement.go:199-244 | exactly Spot nodes (Fail), Spot nodes or unlabelled nodes of the allowed families, or any node remain of those the Pod allowed |
| SpotRatio.AdmissionTracksTarget | internal/utils/spotratio.go:52-66 | from any start the Spot count after n admissions, in closed form |
| SpotRatio.AdmissionFromZero | internal/utils/spotratio.go:52-66 | from no Pods it is the ratio of n, rounded up |
| SpotRatio.AdmissionMeetsShare | internal/utils/spotratio.go:52-79 | all admissions went to Spot or the share is met, and the count never overshoots the target |
| SpotRatio.DeficitMeetsShare | internal/utils/spotratio.go:68-79 | moving Pods one at a time meets the share after exactly the deficit |
| SpotCounts.CountedAreGoverned | internal/webhook/v1/pod_placement.go:132-174 | the counted Pods are exactly the active Pods whose best match is the class |
| SpotCounts.ListWorkloadClassPods | internal/webhook/v1/pod_placement.go:136-174 | the active Pods of the class but the incoming one, in list order |
| SpotCounts.OthersAreCounted | internal/webhook/v1/pod_placement.go:136-174 | exactly the listed Pods of the class that do not have the incoming Pod's name |
| SpotCounts.PlacesMean | internal/webhook/v1/pod_placement.go:87-130 | what counts as Spot and as fallback, for the webhook and for the controller, by node and targeting |
| SpotCounts.CountWorkloadClassPods | internal/webhook/v1/pod_placement.go:87-130 | total, effective Spot and fallback Pods, fetching each node at most once |
| SpotCounts.ClassifyWorkloadPods | internal/controller/spot_fallback.go:224-279 | active, Spot and pending counts, and the fallback Pods oldest first |
| SpotCounts.SortOldestFirst | internal/controller/spot_fallback.go:270-277 | a permutation sorted by start time, then name |
| SpotCounts.SortedMeans | internal/controller/spot_reversion.go:259-271 | earlier start time, else scheduling time, else creation comes first; of the same time, by name |
| SpotCounts.NameOrderIsLexicographic | internal/controller/spot_fallback.go:270-277 | names are compared letter by letter |
| SpotCounts.CountsDifferByUnknownNodes | internal/controller/spot_fallback.go:224-279 | webhook and controller have the same total and differ by exactly the targeted Pods whose node does not exist |
| SpotCounts.CountsAgree | internal/webhook/v1/pod_placement.go:87-130 | they agree on all numbers when every bound Pod's node can be fetched |
| PodWebhook.CountCache.Get | internal/webhook/v1/pod_webhook.go:202-213 | the closure counts at most once and always returns that result |
| PodWebhook.ChooseTarget | internal/webhook/v1/pod_webhook.go:166-254 | the decision in the code's order, with counts loaded only where it needs them |
| PodWebhook.MutatePodPlacement | internal/webhook/v1/pod_webhook.go:166-254 | the Pod is rewritten as the decision says, and left alone on an error |
| PodWebhook.CheckGate | internal/webhook/v1/pod_webhook.go:104-125 | open iff validated and, with a policy, attached, both for the current generation |
| PodWebhook.Default | internal/webhook/v1/pod_webhook.go:75-147 | the Pod is rewritten by its best match or admitted unmodified; no Pod is rejected |
| PodWebhook.MutatesExactlyWhenConfirmed | internal/webhook/v1/pod_webhook.go:75-147 | a Pod is mutated iff its class has a strategy that parses and no foreign profile, and validation and, with a policy, attachment are confirmed for the current generation |
| PodWebhook.AdmissionFollowsStrategy | internal/webhook/v1/pod_webhook.go:166-254 | the target of a mutated Pod in closed form: type, ratio (100 % by default), permanent fallback (under a policy whose action is None or unset), fallback action (Fail by default) and budget |
| PodWebhook.DecisionIsRatioRule | internal/webhook/v1/pod_webhook.go:215-253 | unless None keeps a workload that is in fallback there, the target is Spot iff the ratio rule says so, at every ratio |
| PodWebhook.TargetIsVisible | internal/utils/spotpod.go:37-46 | a mutated Pod is Spot-targeted iff the decision was Spot |
| PodWebhook.TargetConfinesPod | internal/webhook/v1/pod_placement.go:189-244 | after an On-Demand admission no Spot node qualifies, after a strict Spot admission only Spot nodes do |
| PodWebhook.BudgetOnlyTightens | internal/webhook/v1/pod_webhook.go:246-251 | an exhausted budget makes a Pod that may fall back strict and changes no other decision |
| Agreements.ForbiddenKeepsOffSpot | internal/webhook/v1/pod_webhook.go:166-192 | where a guardrail forbids Spot, no Pod of a class that passes is sent there |
| Agreements.RequiredStartsOnSpot | internal/webhook/v1/pod_webhook.go:166-254 | where one demands it, the first Pod of a class that passes goes to Spot, unless the fallback is latched |
| Agreements.MinimumIsKept | internal/utils/spotratio.go:52-66 | admission keeps the minimum ratio that a class passes, at every size of the workload |
| Agreements.NoFallbackIsStrict | internal/webhook/v1/pod_webhook.go:246-253 | where a guardrail disallows it, no Pod may fall back, and the class is never in fallback |
| FallbackLatch.StoredClass.SetFallbackCondition | internal/controller/spot_fallback.go:139-165 | only the InFallback condition changes, with its status, message and generation, and only if it differs and the write succeeds |
| FallbackLatch.StoredClass.Reconcile | internal/controller/gkespotplacement_controller.go:66-108 | the condition after one reconcile, for every gate and every failing lookup, and exactly when it errs |
| FallbackLatch.ConditionMeans | internal/controller/gkespotplacement_controller.go:66-108 | when nothing fails the condition exists iff the class is in scope, or as it was while it waits for its plugin; True iff a Pod is on fallback or the latch holds, for the current generation and with its reason |
| FallbackLatch.ConditionStays | internal/controller/spot_fallback.go:108-130 | a waiting plugin, a failing lookup or a failing write leaves the condition as it was |
| FallbackLatch.LatchStep | internal/controller/spot_fallback.go:84-103 | with action None a reconcile resets a True condition iff it gets through and sees no active Pods |
| FallbackLatch.LatchHolds | internal/controller/spot_fallback.go:84-129 | over every run the condition stays True until then, and the webhook targets no Pod at Spot |
| FallbackLatch.LatchedStaysOnDemand | internal/webhook/v1/pod_webhook.go:218-235 | while latched an admission is On-Demand or leaves the Pod as it is |
| FallbackLatch.GateIsReady | internal/controller/gkespotplacement_controller.go:157-166 | the webhook's gate is never wider than the controller's, and narrower only for stale conditions |
| FallbackLatch.FallbackIsReported | internal/controller/spot_fallback.go:65-103 | a fallback Pod sets the condition, and only a fallback Pod or the None latch makes it True |
| Reversion.GuardrailMaxFallbackDuration | internal/controller/spot_reversion.go:210-241 | the least non-negative limit, or none |
| Reversion.EvictForReversion | internal/controller/spot_reversion.go:170-205 | evicted, failed, or a delay that is strictly negative iff an enforced window is closed |
| Reversion.VisitPod | internal/controller/spot_reversion.go:116-159 | what becomes of one Pod, given the Spot count so far and the API's answer |
| Reversion.RevertPods | internal/controller/spot_reversion.go:114-164 | the loop visits the list in order until blocked or failed, and returns the earliest wait |
| Reversion.ReconcileSpotReversion | internal/controller/spot_reversion.go:78-165 | the early exits, the strictest limit, the visits, a delay that is never negative, and exactly when it errs |
| Reversion.EvictionsAreJustified | internal/controller/spot_reversion.go:121-146 | an evicted Pod is owned, and past the limit or, Active, old enough with the running Spot count below target |
| Reversion.EvictionsFollowPolicy | internal/controller/spot_reversion.go:78-165 | said of class, policy and Pod: an evicted Pod is owned, and past the guardrails' limit, or an Active policy is set, the Pod is on fallback for its minimum duration (5 minutes by default) and fewer Pods are on Spot than the ratio asks for |
| Reversion.PolicyIsFollowed | internal/controller/spot_reversion.go:114-162 | such a Pod, once visited, is evicted iff the API accepts |
| Reversion.ForcedComeFirst | internal/controller/spot_reversion.go:114-146 | on the oldest-first list forced evictions precede all others |
| Reversion.UnforcedWithinDeficit | internal/controller/spot_reversion.go:113-161 | evictions that no limit forces never exceed the deficit at the start |
| Reversion.LimitIsEnforced | internal/controller/spot_reversion.go:123-125 | an owned Pod past the limit is always tried, and evicted iff the API accepts |
| Reversion.NoThresholdIsMissed | internal/controller/spot_reversion.go:126-164 | the delay is no later than any visited Pod's next threshold, retry (10 seconds, or 30 minutes for a Pod that is too new) or window |
| Reversion.DelayIsSomeThreshold | internal/controller/spot_reversion.go:126-164 | and a positive delay is the time until some visited Pod's limit or minimum duration, a retry, or a window |
| Reversion.PassMeetsShareOrRunsOut | internal/controller/spot_reversion.go:114-164 | after the visits of an Active pass the share is met or each visited Pod that was not evicted has no owner, is too young, or was refused |
| Agreements.ReversionExpectsTheWebhook | internal/controller/spot_reversion.go:198-205 | the webhook turns reversion away iff reversion itself sees a closed, enforced window, or the Pod is too young |
| ClosedLoop.ReplacementFits | internal/utils/spotratio.go:64-79 | the ratio rule still says Spot for a replacement while fewer were admitted than evicted |
| ClosedLoop.ReplacementGoesToSpot | internal/webhook/v1/pod_webhook.go:237-253 | in every balanced state the webhook's decision for a replacement is Spot |
| ClosedLoop.RunBalances | internal/controller/spot_reversion.go:113-162 | every interleaving of evictions, admissions and bindings keeps the counts balanced |
| ClosedLoop.EveryReplacementGoesToSpot | internal/controller/spot_reversion.go:114-162 | in every run each replacement is targeted at Spot |
| ClosedLoop.FallbackIsConserved | internal/controller/spot_reversion.go:113-162 | the fallback Pods of the start are those still there and those evicted, in every state of a run |
| ClosedLoop.FallbackIsLeftOrUnvisited | internal/controller/spot_reversion.go:114-162 | a Pod on fallback at the end was visited and not evicted, or the pass never got to it |
| ClosedLoop.LoopCloses | internal/controller/spot_reversion.go:114-162 | after a whole pass, once all evicted Pods are replaced on Spot, the workload has its size again and the share is met or each Pod still on fallback has no owner, is too young, or was refused |
| ClosedLoop.LoopWaitsForWindow | internal/controller/spot_reversion.go:149-155 | a blocked pass leaves further Pods only behind a refusal outside the disruption window |

## Left out

- API clients, informer caches, watches, predicates, RBAC, events and logging: each call sees the current state and succeeds or fails.
- Parsing of times, zones, percentages, JSON and YAML: parsed values, or the fact that they do not parse, are inputs; a window has one fixed zone offset, so no daylight saving.
- Condition messages and their truncation: violations are tags, and the joined day descriptions are the list of offending windows.
- Governance.SelectBestMatchFromList: does not model the `otherMatches` map, which only feeds a warning event.
- LeaseTracker.PendingLeaseTracker.Enqueue: does not model nil arguments, which the code ignores; putting an old instance's request back can replace a newer request of the same Pod name, so no claim says that the newest instance survives.
- Pdb.NameRoundTrip: does not model the hashed names of Pods longer than 244 bytes.
- PdbReconciler.ClaimPdb: an owner reference that carries a class's uid under another kind is not modelled.
- PdbPass.ReconcilePdbs: PDBs are values, so aliasing of one listed object between steps is not captured; one instant of time per pass; webhook enqueues are interleaved between passes (and in `WakeUp`), not inside one.
- PdbRuns.ProtectionIsContinuous: the environment acts between passes; in `Interleaving.NoGapInterleaved` it acts between calls.
- PdbRuns.LeaseIsStable: the environment acts between passes (in `Interleaving.LeaseIsStableInterleaved` between calls), and no live class that fails to protect Pods may own a PDB named like the Pod without the prefix, see `PdbRuns.DiversionEndsLease`.
- Interleaving.NoGapInterleaved: the namespace's label and its enforced class are one read; a run starts when no call is under way.
- Confluence.ConfluentExactlyIfUncontested: a PDB has no annotations but those of the lease, so what a deletion loses is said of labels and owner references only.
- Windows.IsTimeInWindows: the wait is the least of the windows' waits; of which one is exact, `Windows.WaitIsExactExactlyIfStartsToday` tells window by window, for closed windows.
- SpotCounts.CountedAreGoverned: needs a lone class to have a selector or be enforced, because the code skips the best match check then.
- SpotCounts.CountWorkloadClassPods: a node that cannot be fetched is one that is absent from the map of nodes.
- PodWebhook.ChooseTarget: the fallback budget is an input that may downgrade the action to Fail; how it is computed is not modelled.
- ClosedLoop.LoopCloses: covers evictions that no limit forces, as the claim is about Active reversion.
- Garbage collection of the PDBs of deleted classes and the Eviction API are steps of the environment.
- Guardrail admission, plugin parameter validation, policy attachment and the Spot capacity signal: straight-line checks whose results are inputs.
- Kubernetes node affinity beyond required terms and node selectors: preferences do not restrict nodes, and of taints only that of Spot nodes is modelled.
