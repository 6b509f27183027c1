# anban-creator: a verified model of its hard parts

A Dafny 4.11 model of the protocols, transactions, validators and allocators at the core of
anban-creator, with proofs about every run, every input or every reachable state.
`dafny verify dfyconfig.toml` checks the whole project.

| file | models |
|---|---|
| RuntimeProtocol | two-phase runtime dispatch and leased cleanup: any number of servers and executions, Docker or Kubernetes, several namespaces, crashes, lost workloads, stale snapshots and create requests that land late, one action per shared access |
| RuntimeSafety, RuntimeRuns, RuntimeActions, RuntimeSteps | the invariant of that protocol and why every action keeps it |
| RuntimeTheorems, RuntimeScopes | what follows for every run and every reachable state |
| RuntimeProgress, RuntimeWrites | what can still be achieved from every reachable state, who may change a record, and what decides it |
| RuntimeFlows, RuntimeExamples, RuntimeExact | runs that break a promise, and exactly which configurations and causes allow them |
| CleanupLease | the cleanup lease and the half-lease timeout, with separately configured lease lengths |
| StudioRelease | concurrent Studio releases that swap the Service selector by compare-and-swap |
| BootstrapFiles, Preflight, Materialize | transactional materialization of bootstrap files, with the path contract in front of it and the size limits of both |
| JsonValues, Schema | the mutually recursive schema contract checker and value validator |
| PresetTree, PresetFiles | the generator and the checker of the DSH preset tree, and which files a catalog expects in it |
| Delivery | delivery contracts: validation, the glob overlap test, matching |
| Catalog, Sorting | catalog loading, ordering, indexes and lookups |
| SecretScan, Forwarding | the streaming credential scan and forwarded Hypit outputs |
| ResumeNames, ResumeAllocation | portable resume filenames: sanitizing, truncating, allocating, checking a batch |
| Naming | Kubernetes and Docker names, label encoding |
| Transport, Artifacts | the retry engine and the artifact upload loop |
| Money | exact CNY parsing on int64 |
| ModelAliases | model usage aliases as command-line values |
| GoText, Prelude | the pieces of Go's string packages used above; Option and Result |

Concurrent protocols are transition systems: a list of actions is one interleaving, a disabled
action changes nothing, and a theorem about `Run` is about every interleaving. Code that updates
one owner's state is a class (`Workspace`, `Tree`, `Catalog`, `NameTable`); loops are methods proved
against specifications. Whatever the outside world decides (provider calls, renames, clocks, jitter,
abort signals) is nondeterministic or an arbitrary parameter. SHA-256, case folding and Unicode
normalisation are arbitrary functions.

## Findings

Promises that the code does not keep as stated. Each has a failing case, and a theorem says exactly
when the promise holds.

- Compensation. A dispatcher that gives up removes the workload it prepared even where its execution
  is running in it: after an identity write without acknowledgement, a failed or overtaken reload, or
  an activation error that could not be recorded. Exactly these four causes allow it
  (`RuntimeExact.CompensationIff`, with one run for each in `RuntimeExamples`); an overtaken reload
  needs no error at all, only a faster server.
- Diagnostic retention. Inside it a workload is lost exactly to the outside world or to compensation,
  which does not look at it (`RuntimeTheorems.RetentionKept`,
  `RuntimeExamples.CompensationIgnoresRetention`).
- Late create requests. Cleanup can be done and the workload appear afterwards, unless a request lands
  within the half lease that is left at its deadline (`RuntimeExact.DoneMeansGoneIff`,
  `RuntimeExamples.LateRequestRevives`).
- Namespaces. With servers in different Kubernetes namespaces an execution can have two workloads, and
  one of them can outlive a cleanup that is done (`RuntimeExact.OneWorkloadIff`,
  `RuntimeExact.NothingLeftIff`, `RuntimeExamples.TwoWorkloads`, `RuntimeExamples.DoneLeavesStray`).
- Exclusive cleanup. The half-lease timeout starts after the claim returns, and staleness is judged
  with the claimer's own lease, so delete periods stay disjoint exactly when the pause plus half of
  any lease fits in every lease (`CleanupLease.ExclusiveIffCovers`).
- Studio assets. Only the name, not the labels, of a candidate is checked to be fresh. Assets survive
  for all image contents exactly when no two manifests are rivals for the same new labels and none
  returns to the labels of the first Deployment after another took over
  (`StudioRelease.AssetsSurviveIff`, `StudioRelease.RivalsBreak`, `StudioRelease.ReturnsBreak`).
- Materialization skips a target with equal size and digest, so the result is the exact override
  unless such a target is a collision (`Materialize.ExactUnlessCollision`).
- Schema enums compare numbers by value only at the top level: an enum decides membership for every
  value exactly when none of its candidates nests a number (`Schema.EnumExactIff`). Otherwise the
  contract check accepts the document and the validator refuses a value it allows
  (`Schema.AcceptedThenRefused`, `Schema.NestedNumberIsRejected`).
- The delivery overlap test reports overlaps across directories that do not exist; it is exact
  otherwise (`Delivery.FalseAlarm`, `Delivery.OverlapExact`).
- Forwarding keys are joined with "#", so a chain that ends is called a cycle if two of its keys
  collide (`Forwarding.HashCollides`), and an output named like an inherited object member resolves
  without being declared (`Forwarding.UndeclaredResolves`).
- A resume name cut right after "_" is rejected, and its key stays taken
  (`ResumeAllocation.CutAtUnderscore`, `ResumeAllocation.CandidateCanonical`).

## Model

| member | source | states |
|---|---|---|
| RuntimeTheorems.RunningIsPersisted | server/agent/docker_dispatcher.go:243-270 | in every reachable state a running workload's scope, name and instance id are exactly those persisted for its execution |
| RuntimeTheorems.AtMostOneRunning | server/agent/kubernetes_dispatcher.go:177-226 | in every reachable state an execution has at most one running workload, across namespaces; suspended ones can be more, see OneWorkloadIff |
| RuntimeTheorems.StoreIsWriteOnce | server/repository/task_execution.go:338-354 | over any run a persisted identity member and a terminal outcome never change, and done stays done |
| RuntimeTheorems.BlockedIsLeftByReopen | server/repository/task_execution.go:748-760 | blocked cleanup stays blocked until an operator reopens exactly the recorded identity, and then it is pending |
| RuntimeTheorems.DoneIsForever | server/agent/runtime_reconciler.go:294-333 | with prompt create requests: once cleanup is done, no workload of the execution exists in its proven scope, and no later interleaving, requests in flight included, puts one there |
| RuntimeExact.DoneMeansGoneIff | server/service/task_dispatch.go:140-182 | done implies gone in all reachable states if and only if a create request cannot land later than the half lease left at its deadline |
| RuntimeExamples.LateRequestRevives | server/service/task_dispatch.go:260-275 | whenever that bound fails, a run in which the workload appears after its cleanup is done |
| RuntimeScopes.RunStaysIn | server/agent/kubernetes_dispatcher.go:124-164 | if every claim of an execution is loaded for one scope, all its workloads, requests in flight and persisted scopes stay in it |
| RuntimeScopes.OneWorkload | server/agent/kubernetes_dispatcher.go:177-226 | such an execution never has two workloads, of any phase |
| RuntimeScopes.DoneLeavesNothing | server/agent/runtime_reconciler.go:294-333 | such an execution has no workload anywhere once its cleanup is done, with prompt requests |
| RuntimeExact.OneWorkloadIff | server/agent/kubernetes_dispatcher.go:177-226 | no execution ever has two workloads of any phase if and only if all servers share one scope, as on Docker (or can never dispatch) |
| RuntimeExact.NothingLeftIff | server/agent/runtime_reconciler.go:277-334 | done implies that no workload is left anywhere if and only if requests are prompt and all servers share one scope (or can never dispatch) |
| RuntimeExamples.TwoWorkloads | server/service/task_dispatch.go:101-182 | with two namespaces, a run in which one execution has a suspended workload in each |
| RuntimeExamples.DoneLeavesStray | server/agent/runtime_reconciler.go:294-333 | and its cleanup is done while one of them is left |
| RuntimeTheorems.DoneOnlyAfterAbsence | server/agent/runtime_reconciler.go:277-334 | cleanup becomes done only in the completing step of a cleaner that saw the removal, in a proven scope, when with prompt requests the workload is already gone |
| RuntimeTheorems.UnscopedIsNeverDone | server/agent/kubernetes_dispatcher.go:124-164 | in every reachable Kubernetes state a record without a persisted namespace is not done |
| RuntimeTheorems.LossIsNamed | server/agent/docker_dispatcher.go:542-567 | a workload disappears exactly by an external loss, by a compensation or by a cleanup that names this very instance |
| RuntimeTheorems.CleanupDeletesOnlyPersisted | server/agent/docker_dispatcher.go:542-567 | what a cleaner removes is the persisted instance of the terminal execution it works on, after its retention |
| RuntimeTheorems.CompensationRemovesOwn | server/service/task_dispatch.go:293-307 | what compensation removes belongs to the process's own execution and is the identity it prepared; without one of the four doubtful causes its execution is not using it |
| RuntimeExact.CompensationIff | server/service/task_dispatch.go:191-238 | compensation for a given cause can remove the workload a non-terminal execution uses if and only if the cause leaves a doubt |
| RuntimeExamples.UnacknowledgedIsFatal | server/service/task_dispatch.go:198-203 | a run in which compensation after an unacknowledged identity write is about to remove the active workload of a running execution |
| RuntimeExamples.ReloadFailedIsFatal | server/service/task_dispatch.go:207-210 | the same after a failed reload |
| RuntimeExamples.OvertakenIsFatal | server/service/task_dispatch.go:211-216 | the same without any error, because another server already brought the execution to running |
| RuntimeExamples.UnterminatedIsFatal | server/service/task_dispatch.go:225-234 | the same after an activation error whose terminal write failed |
| RuntimeTheorems.RetentionKept | server/agent/runtime_reconciler.go:277-309 | inside retention a failed or timed-out workload disappears if and only if it is lost externally or compensation removes exactly its identity |
| RuntimeExamples.CompensationIgnoresRetention | server/service/task_dispatch.go:293-307 | a reachable state in which compensation removes a failed execution's running workload inside its retention |
| RuntimeExamples.LifecycleCompletes | server/agent/runtime_reconciler.go:277-334 | a reachable state with a succeeded execution, cleanup done, the identity kept and the workload gone |
| RuntimeTheorems.ConflictEndsBlocked | server/agent/kubernetes_dispatcher.go:289-317 | from any reachable state where a cleaner meets another owner or instance under the name: whatever others do meanwhile, its finish blocks cleanup, or changes nothing because its lease is gone; it never records done |
| RuntimeTheorems.UnprovenAbsenceEndsBlocked | server/agent/kubernetes_dispatcher.go:124-164 | the same for a missing Job in a namespace that was never persisted |
| RuntimeTheorems.CondemnedEndsBlocked | server/agent/runtime_reconciler.go:313-318 | the same for every permanent error |
| RuntimeTheorems.CondemnedStaysOrEnds | server/agent/runtime_reconciler.go:313-333 | after a permanent error any action leaves the cleaner as it is, crashes it, or is its finish, which never records done |
| RuntimeProgress.InspectDecides | server/agent/docker_dispatcher.go:141-155 | a workload found under the name is adopted, with its own instance id, if and only if it is as desired, the execution's own, the instance Docker already knows (if any), and suspended or already frozen in the record; otherwise preparation fails |
| RuntimeProgress.MissingDecides | server/agent/docker_dispatcher.go:303-336 | under a free name a workload is created if and only if no create conflict was seen and Docker knows no instance |
| RuntimeProgress.DispatchRecovers | server/service/task_dispatch.go:101-216 | from every reachable state a new attempt can be made on an execution not yet dispatched: it ends starting with a new workload or with the very one a lost attempt left, and failed exactly if another execution's workload has the name |
| RuntimeProgress.RetryAdopts | server/agent/docker_dispatcher.go:303-309 | a server creates the workload and crashes before persisting: the next attempt ends starting with that instance, and one workload exists |
| RuntimeProgress.ActivationRecovers | server/agent/docker_dispatcher.go:243-270 | from every reachable state the suspended persisted workload of a starting execution can be brought to run |
| RuntimeProgress.CleanupRecovers | server/agent/runtime_reconciler.go:277-334 | from every reachable state a pending cleanup can be brought to its end: done with the workload gone if it is the persisted or own one or provably absent, blocked with everything unchanged otherwise |
| RuntimeProgress.ReopenedRecovers | server/repository/task_execution.go:748-760 | the same for a blocked cleanup after it is reopened |
| RuntimeProgress.CanAlwaysEnd | server/agent/runtime_reconciler.go:277-334 | no reachable state is a dead end: every execution can be ended and its cleanup completed, or blocked where the deployed workload forbids more |
| RuntimeWrites.DispatchWrites | server/repository/task_execution.go:59-137 | in any state a dispatcher changes a record only under its own token, or by a claim on a new or stale one |
| RuntimeWrites.CleanupWrites | server/repository/task_execution.go:611-626 | in any state a cleaner changes a record only under its own lease token, or by a claim on a pending, due cleanup whose lease is free or stale and whose retention is over |
| RuntimeWrites.ActivationWrites | server/service/task_dispatch.go:217-238 | an activation writes only the failure of an execution that has not ended |
| RuntimeWrites.EnvironmentWrites | server/repository/task_execution.go:748-760 | otherwise a record changes only when its execution ends or reports in, or when exactly the reviewed blocked identity is reopened |
| RuntimeWrites.DispatchIdentifies | server/repository/task_execution.go:171-206 | a dispatcher persists an identity only on completion, under its token, in dispatch, and only one that agrees with every member already set |
| RuntimeWrites.CleanupIdentifies | server/repository/task_execution.go:304-354 | a cleaner persists one only when it binds what it found, under its lease, and only one that agrees with every member already set |
| RuntimeWrites.CompleteDecides | server/service/task_dispatch.go:191-216 | completion succeeds if and only if the token is held and the identity agrees with the record; a conflict fails the execution; after a lost token compensation follows exactly for an ended execution or another complete identity |
| RuntimeWrites.BindDecides | server/repository/task_execution.go:304-354 | binding succeeds if and only if the lease is held and the identity agrees with the record; a conflict is permanent, a lost lease is not |
| RuntimeWrites.PhaseForward | server/agent/docker_dispatcher.go:243-270 | no action takes an instance back to an earlier phase or changes its owner, so a workload is started at most once |
| RuntimeWrites.LatePreparationFails | server/service/task_dispatch.go:140-182 | a preparation whose context has ended can only fail |
| RuntimeWrites.LateCleanupTimesOut | server/agent/runtime_reconciler.go:294-309 | a cleaner whose context has ended can only time out |
| RuntimeWrites.RefreshDecides | server/repository/task_execution.go:111-137 | a claim is refreshed if and only if its holder is in time |
| RuntimeWrites.LoadDecides | server/service/task_dispatch.go:154-171 | preparation starts if and only if the claim is still held in time and frozen scope and name, if any, are the ones this server would use; a disagreement fails |
| RuntimeWrites.CreateDecides | server/agent/docker_dispatcher.go:314-336 | a free name gets a suspended workload of the execution; a conflict is inspected once more |
| RuntimeWrites.ReloadDecides | server/service/task_dispatch.go:207-216 | activation follows if and only if the record is read back as starting with exactly this identity, compensation otherwise |
| RuntimeWrites.ActivationDecides | server/agent/docker_dispatcher.go:243-270 | a start follows if and only if the persisted instance is there, owned by the execution and suspended |
| RuntimeWrites.LookupDecides | server/agent/kubernetes_dispatcher.go:124-164 | what cleanup binds, takes for removed, or blocks on when no identity is persisted |
| RuntimeWrites.BoundDecides | server/service/task_execution_reconcile.go:121-185 | a bound identity is deleted if and only if it is read back under the lease |
| RuntimeWrites.RemovalDecides | server/agent/docker_dispatcher.go:542-567 | a removal follows if and only if exactly this instance of the execution is there; absence counts as removed, anything else as permanent |
| RuntimeWrites.ActivationTakes | server/agent/runtime_reconciler.go:186-196 | only starting executions are activated |
| RuntimeWrites.CleanupTakes | server/agent/runtime_reconciler.go:277-293 | only ended executions are cleaned, unless there is no retention |
| RuntimeWrites.CleanerTimesOut | server/agent/runtime_reconciler.go:313-333 | any cleaner between claim and report can time out, which is not permanent |
| RuntimeSteps.StepKeeps | server/agent/docker_dispatcher.go:109-191 | every action of every process keeps the protocol invariant and only moves records forward |
| RuntimeSteps.RunKeeps | server/service/task_dispatch.go:101-238 | the invariant holds after any interleaving |
| RuntimeActions.ClaimDispatchKeeps | server/repository/task_execution.go:59-109 | a dispatch claim with a fresh token, taken when the old one is stale, keeps the invariant |
| RuntimeActions.TokenHolderIsAlone | server/repository/task_execution.go:171-206 | while a process holds the dispatch token, no other can create for the execution or pass the guard of an identity write, and no prompt request is in flight |
| RuntimeActions.CompleteKeeps | server/service/task_dispatch.go:191-206 | persisting the prepared identity keeps the invariant, whether the write commits, is acknowledged, or is lost |
| RuntimeActions.BarrierMeansNoLive | server/service/task_execution_reconcile.go:121-185 | past the dispatch barrier no dispatcher can still create the workload, and no prompt create request is in flight |
| RuntimeActions.CreateKeeps | server/agent/docker_dispatcher.go:303-336 | creating a suspended workload under the execution's name keeps the invariant, with colliding names allowed |
| RuntimeActions.LandKeeps | server/agent/docker_dispatcher.go:303-336 | a create request that takes effect after its sender gave up keeps the invariant |
| RuntimeActions.LoseReplyKeeps | server/service/task_dispatch.go:171-182 | sending a request whose reply is lost keeps the invariant |
| RuntimeActions.AbandonKeeps | server/repository/task_execution.go:153-169 | giving an unreadable claim back keeps the invariant |
| CleanupLease.ExclusiveIffCovers | server/agent/runtime_reconciler.go:294-309 | delete periods of two processes never overlap in any run if and only if start delay plus half of any lease is at most every lease |
| CleanupLease.OverlapHappens | server/service/task_execution_complete.go:2342-2387 | whenever that bound fails for a holder's and a stealer's lease, a concrete run has two live deleters |
| CleanupLease.CommonLease | server/agent/runtime_reconciler.go:294-309 | with one common lease the bound is: the pause is at most the other half |
| CleanupLease.ResolveDecides | server/agent/runtime_reconciler.go:294-309 | a process goes on to delete if and only if it holds the token and its deadline has not passed |
| CleanupLease.EndFrees | server/agent/runtime_reconciler.go:294-309 | ending frees a lease still held for the next claimer, and leaves a stolen one with its new holder |
| StudioRelease.AssetsSurviveIff | studio/deploy.py:64-110 | over all image contents and all runs of concurrent releases everything served now carries the assets of everything ever served, if and only if the manifests are unambiguous |
| StudioRelease.OldAssetsSurvive | studio/deploy.py:76-110 | for unambiguous manifests, over every run of any number of concurrent releases, everything served now carries the assets of everything ever served |
| StudioRelease.OldBytesSurvive | studio/deploy.py:95-102 | without a digest collision between the two images, the old files survive byte for byte |
| StudioRelease.SwapKeeps | studio/deploy.py:103-110 | a swap on the version whose assets were verified keeps the promise for all earlier releases |
| StudioRelease.RivalsBreak | studio/deploy.py:64-83 | two different images under the same new labels: releasing one serves the other, which lost an asset |
| StudioRelease.ReturnsBreak | studio/deploy.py:64-83 | a release under the labels of the retained first Deployment brings that one back without later assets |
| StudioRelease.ReleaseIff | studio/deploy.py:64-110 | a release that nobody interferes with switches the traffic if and only if labels and name are new, both reads of the active image agree, the candidate was built on it, and its non-empty inventory is carried |
| StudioRelease.InterferenceStops | studio/deploy.py:103-110 | any change of the Service after a release has read it stops that release before the switch |
| Materialize.Workspace.MaterializeBootstrapFiles | runtime-claude/src/workspace.ts:95-182 | committed: every received file is at its target with its size and digest, and with its bytes unless the old target already had that size and digest; nothing else changed; rolled back: exactly the old files; rollback incomplete: every original is at its target or in a backup; whichever step failed or aborted; refused up front exactly when preflight does; without a fault it commits unless a file is refused or a total or media limit is exceeded, and committed files exceed none |
| Materialize.Workspace.Rollback | runtime-claude/src/workspace.ts:184-199 | undoing newest first restores every target, and on failure loses no original |
| Materialize.Workspace.ApplyOne | runtime-claude/src/workspace.ts:159-170 | a commit that stops anywhere leaves a prefix that rollback can undo |
| Materialize.Workspace.ApplyAll | runtime-claude/src/workspace.ts:159-170 | the applied list is always sufficient to recover the old files, and complete when the loop ends |
| Materialize.Workspace.Plan | runtime-claude/src/workspace.ts:143-157 | exactly one create or replace per file that does not look like its target; without a fault it stops only at an irregular target or a conflict that may not be replaced |
| Materialize.Workspace.StageAll | runtime-claude/src/workspace.ts:109-141 | staging touches no target, and succeeds only with every file received as announced and all running totals within the limits; without a fault it fails only for a repeated path, an unusable file or an exceeded limit |
| Materialize.WithinTotals | runtime-claude/src/workspace.ts:118-126 | the running totals, and acceptance exactly within the limits of the task type |
| Materialize.Workspace.FilesEqual | runtime-claude/src/workspace.ts:229-233 | equal means the same size and the same digest |
| Materialize.CommittedMeans | runtime-claude/src/workspace.ts:143-170 | what was skipped or written has the received size and digest, and only a target with that size and digest may keep other bytes |
| Materialize.PlanOverrides | runtime-claude/src/workspace.ts:143-170 | a fully applied plan is the override of the old files |
| Materialize.ExactUnlessCollision | runtime-claude/src/workspace.ts:229-233 | the override is exact if and only if no skipped target is a digest collision |
| Preflight.PreflightBootstrapFiles | runtime-claude/src/bootstrap.ts:595-647 | accepts exactly the lists of at most 256 fine files with distinct lower-cased paths, none an ancestor of another, and within the announced totals of a video edit |
| Preflight.CleanBootstrapPath | runtime-claude/src/bootstrap.ts:649-654 | accepts exactly untrimmable relative paths of at most 255-byte names of portable characters, without a trailing dot or space, "." or "..", and without a device name in any case or with any extension |
| Preflight.AncestorSeen | runtime-claude/src/bootstrap.ts:640-645 | the backward slash walk terminates on keys without leading slash and finds exactly the seen ancestors |
| Preflight.AcceptedPathsAreIndependent | runtime-claude/src/bootstrap.ts:595-647 | two accepted files have different paths, neither an ancestor of the other |
| Preflight.CleanStaysInside | runtime-claude/src/bootstrap.ts:649-663 | a clean path resolves to itself below any root |
| Preflight.ResolveDots | runtime-claude/src/bootstrap.ts:656-663 | what resolving does with "." and "..", which clean paths do not have |
| Preflight.BlankIsSpace | runtime-claude/src/bootstrap.ts:649-650 | which characters trimming removes, against Go's white space |
| GoText.SplitJoin | runtime-claude/src/bootstrap.ts:649-654 | splitting at slashes loses nothing |
| Preflight.LeadingSlashRepeats | runtime-claude/src/bootstrap.ts:640-645 | with a leading slash the walk's position repeats |
| Schema.AcceptedThenValidated | server/agentpack/schema.go:28-40 | after the contract check accepts a document, the validator decides, for every document and every JSON value, the meaning under the code's comparison and never blames the schema; without nested numbers in enums both acceptance and verdict are those by value |
| Schema.ValidateSchemaValue | server/agentpack/schema.go:201-307 | for every document: a value that fits conforms; for a well-formed document it fits if and only if it conforms, and the schema is not blamed; a bare scalar type fits exactly strings, booleans, null, numbers within both inclusive bounds, and of those the integers |
| Schema.CheckScalar | server/agentpack/schema.go:276-304 | the scalar cases of the type switch decide the scalar meaning, and only an unknown or missing type is a schema fault |
| Schema.ValidateSchemaContract | server/agentpack/schema.go:42-125 | accepts exactly the well-formed schemas, for every document; the recursion through values and contracts terminates |
| Schema.ContractEnum | server/agentpack/schema.go:127-154 | an accepted enum has distinct values that fit the rest of the schema, and no well-formed one is refused |
| Schema.CheckOneOf | server/agentpack/schema.go:209-228 | counting matching branches decides exactly-one |
| Schema.CheckObject | server/agentpack/schema.go:242-263 | required keys, closed objects and properties are decided exactly |
| Schema.ValidateExtensionSchemaDocument | server/agentpack/schema.go:28-40 | accepts exactly the closed, well-formed object documents of the allowed complexity |
| Schema.MeaningRespectsValue | server/agentpack/schema.go:327-332 | the meaning depends on JSON values, not on how their numbers are written |
| Schema.FlatConforms | server/agentpack/schema.go:229-240 | without nested numbers in enums the meaning under the code's comparison is the meaning by value, for every document and value |
| Schema.EnumExactIff | server/agentpack/schema.go:229-240 | the enum check of a decoded document is right for every value if and only if no candidate nests a number |
| Schema.NestedNumberIsRejected | server/agentpack/schema.go:229-240 | the validator refuses an enum candidate with a nested number that arrives as plain floats, although it conforms by value |
| Schema.AcceptedThenRefused | server/agentpack/schema.go:127-154 | one document that the contract check accepts, with a value it allows and the validator refuses |
| JsonValues.FlatEquality | server/agentpack/schema.go:327-332 | for enum values without nested numbers the code's comparison is equality of JSON values |
| JsonValues.NestedNumberIsMissed | server/agentpack/schema.go:327-332 | with a nested number the code's comparison misses an equal value |
| PresetFiles.GenerateDSHPresets | server/agentpack/dsh_generate.go:169-249 | for every validated catalog and any starting tree: success leaves, file by file, each pack's source, metadata and the regular files of its skills outside .git, with their bytes and mode 0755 or 0644 by their execute bits, and nothing the checker refuses; changed says whether it would have refused before, no directory is found occupied, and the causes of giving up |
| PresetFiles.CheckDSHPresets | server/agentpack/dsh_generate.go:251-321 | passes exactly if every referenced skill can be copied and the tree holds what the catalog expects |
| PresetFiles.ExpectedIsAntichain | server/agentpack/dsh_generate.go:87-167 | no validated catalog expects a file above a file, whatever its skill directories hold |
| PresetFiles.ExpectedDSHPresetFiles | server/agentpack/dsh_generate.go:87-167 | the loops give exactly the files of all packs and skills, and fail exactly on a missing or irregular skill |
| PresetFiles.AddSkill | server/agentpack/dsh_generate.go:125-163 | the walk of one skill copies exactly its regular files outside .git |
| PresetFiles.NormalizedMode | server/agentpack/dsh_generate.go:323-328 | 0755 exactly if one of the three execute bits is set, 0644 otherwise |
| PresetFiles.AcceptedDelivers | server/agentpack/dsh_generate.go:87-167 | a tree the checker accepts holds every file of every pack with its bytes and mode |
| PresetFiles.KeyTextReads | server/agentpack/catalog.go:191-194 | with names that are single components the slash-joined key is read back as the same path |
| PresetFiles.KebabIsComponent | server/agentpack/catalog.go:164-194 | the names that catalog validation accepts are single path components |
| PresetTree.Tree.Generate | server/agentpack/dsh_generate.go:169-249 | for any expected files: after success the checker accepts exactly when no expected file is above another; changed is reported exactly when the checker would have refused before, so a second generation reports no change; no directory is found occupied; without a failed operation it gives up only on an unusable root or a symbolic link in place of a needed directory |
| PresetTree.Tree.Check | server/agentpack/dsh_generate.go:251-321 | passes exactly on the accepted trees, and the drift list is exactly the misplaced, different and missing paths |
| PresetTree.Tree.Prune | server/agentpack/dsh_generate.go:213-249 | removal in reverse walk order never meets an occupied directory and keeps exactly what is expected |
| PresetTree.Tree.RemoveDirs | server/agentpack/dsh_generate.go:242-247 | each stale directory is empty when its turn comes |
| PresetTree.Tree.WriteAll | server/agentpack/dsh_generate.go:194-211 | for an antichain every expected file holds at the end; reports no change only if all held before |
| PresetTree.Tree.EnsureParent | server/agentpack/dsh_generate.go:370-385 | every ancestor is a directory afterwards and nothing else changed |
| PresetTree.Tree.WriteIfChanged | server/agentpack/dsh_generate.go:387-438 | the file is up to date, whatever stood in its place is gone, nothing else changed |
| PresetTree.Tree.Open | server/agentpack/dsh_generate.go:29-85 | which starting trees are opened, created or refused |
| PresetTree.PresetDirectories | server/agentpack/dsh_generate.go:334-342 | exactly the proper ancestors of expected files |
| PresetTree.AcceptedIsUnique | server/agentpack/dsh_generate.go:251-321 | the checker accepts at most one tree |
| PresetTree.NoTreeWithoutAntichain | server/agentpack/dsh_generate.go:251-321 | with a file above a file it accepts none |
| PresetTree.StaleBelow | server/agentpack/dsh_generate.go:213-248 | everything below a stale directory is stale |
| Delivery.OverlapExact | server/agentpack/catalog.go:565-583 | two supported patterns match a common name if and only if the test reports an overlap and their directories agree |
| Delivery.OverlapComplete | server/agentpack/catalog.go:565-583 | the test misses no real overlap |
| Delivery.FalseAlarm | server/agentpack/catalog.go:565-583 | a pattern and one in a subdirectory are reported although nothing matches both |
| Delivery.GlobFramed | server/agentpack/catalog.go:585-591 | a one-wildcard glob matches exactly prefix, run without slash, suffix |
| Delivery.ValidSupported | server/agentpack/catalog.go:593-614 | a validated spec has at most one wildcard, in its basename, and no other special character |
| Delivery.ValidateDeliverySpec | server/agentpack/catalog.go:593-614 | accepts exactly a non-blank role, a valid MIME type, a path below output/ and a pattern with at most one wildcard, in its basename |
| Delivery.ValidateOutputArtifactPath | server/agentpack/catalog.go:631-645 | accepts exactly paths without backslash whose first component is output, followed by names of entries |
| GoText.CleanFixed | server/agentpack/delivery.go:20-30 | a path that path.Clean leaves alone and that does not lead out is exactly one whose components are names of entries |
| Delivery.ValidateDeliveryContract | server/agentpack/catalog.go:545-563 | accepts exactly valid specs whose patterns are pairwise distinct and not reported as overlapping |
| Delivery.OrderFree | server/agentpack/catalog.go:545-563 | reordering a contract does not change whether it is valid |
| Delivery.MatchIsUnique | server/agentpack/delivery.go:20-46 | a validated contract lets no two entries match one path |
| Delivery.MatchDeliverySpec | server/agentpack/delivery.go:20-46 | returns a spec exactly when it is the only hit; under a validated contract, exactly the spec whose glob matches |
| Catalog.Catalog.Load | server/agentpack/catalog.go:46-120 | succeeds exactly on entries that load and do not conflict; the packs are those manifests, ecommerce first and the others by ascending id, with correct indexes |
| Catalog.Collect | server/agentpack/catalog.go:59-107 | the incremental duplicate checks decide pairwise compatibility |
| Catalog.AddKinds | server/agentpack/catalog.go:87-102 | a task kind may repeat only if it is one of the two shared kinds |
| Catalog.Catalog.Reindex | server/agentpack/catalog.go:761-780 | each index maps every name in use, to the last pack with it, and each task kind to the first |
| Catalog.Catalog.Pack | server/agentpack/types.go:273-282 | equals linear search of the sorted packs by id |
| Catalog.Catalog.ForAgent | server/agentpack/types.go:285-294 | equals linear search by trimmed agent id or name |
| Catalog.Catalog.ForChannel | server/agentpack/types.go:298-307 | equals linear search by trimmed non-empty channel |
| Catalog.Catalog.ForTaskKind | server/agentpack/types.go:341-350 | equals the first pack in order with the trimmed kind |
| Catalog.FoundIsUnique | server/agentpack/catalog.go:72-84 | an id, agent name or channel belongs to one pack, so the search finds that pack |
| Catalog.OrderIsUnique | server/agentpack/catalog.go:109-117 | compatible packs have one ordered arrangement, so the unstable sort is deterministic |
| Sorting.SortSorts | server/agentpack/catalog.go:109-117 | for a weak order, an ordered permutation |
| SecretScan.ScanFile | runtime-claude/src/hypit.ts:288-311 | for every chunking the verdict is the whole-file verdict: passes exactly when within quota and free of every non-empty secret |
| SecretScan.Scan | runtime-claude/src/hypit.ts:297-314 | what went downstream is always within quota and free of secrets; which chunk stops the stream and why |
| SecretScan.TailSuffices | runtime-claude/src/hypit.ts:303-308 | an occurrence in prefix and chunk is in the prefix, or visible from its last longest-minus-one bytes |
| SecretScan.ShorterTailMisses | runtime-claude/src/hypit.ts:289-308 | one byte less would miss a split secret |
| SecretScan.Prepare | runtime-claude/src/hypit.ts:288-289 | the needles are the non-empty secrets, and the overlap fits the longest |
| Forwarding.Resolve | runtime-claude/src/hypit.ts:563-577 | resolution succeeds exactly when the chain ends at a non-forwarding output with pairwise distinct keys; without "#" in builds, exactly when it ends |
| Forwarding.ResolveOutput | runtime-claude/src/hypit.ts:563-577 | terminates on every graph; the trace it followed and why it stopped |
| Forwarding.ResolvingIsAcyclic | runtime-claude/src/hypit.ts:568-570 | a chain that ends visits no output twice |
| Forwarding.HashCollides | runtime-claude/src/hypit.ts:568-570 | a chain that ends but has two equal keys |
| Forwarding.EndIsDeclared | runtime-claude/src/hypit.ts:571-573 | the last output of a resolving chain is declared, or its name is inherited by every object |
| Forwarding.UndeclaredResolves | runtime-claude/src/hypit.ts:571-573 | an undeclared output resolves exactly when its name is inherited by every object |
| ResumeAllocation.NameTable.PrepareAll | server/service/task_resume.go:172-195 | names from one shared map are canonical with pairwise distinct keys, and an already portable batch is returned unchanged |
| ResumeAllocation.AcceptAttachments | server/agent/config_builder.go:406-417 | the consumer accepts exactly the portable batches, hence every batch the producer returns |
| ResumeAllocation.NameTable.PrepareResumeAttachmentFilename | server/agent/resume_contract.go:153-167 | which originals are rejected and why; a returned name is canonical, the least free candidate, and takes its key; a canonical unused name is kept |
| ResumeAllocation.NameTable.UniqueResumeFilename | server/agent/resume_contract.go:52-61 | the least free candidate, and only its key is added |
| ResumeAllocation.FindUnique | server/agent/resume_contract.go:52-61 | the search terminates for every map and every key that keeps numbers of one width apart, within 255 bytes and UTF-16 units |
| ResumeAllocation.SomeSuffixFree | server/agent/resume_contract.go:52-61 | a width with more numbers than the map has keys has a free suffix |
| ResumeAllocation.SameWidthApart | server/agent/resume_contract.go:63-81 | suffixes of one width give candidates with different keys |
| ResumeAllocation.BoundedFits | server/agent/resume_contract.go:63-81 | a bounded name is at most 255 bytes and 255 UTF-16 units |
| ResumeAllocation.CandidateCanonical | server/agent/resume_contract.go:121-148 | a candidate from a sanitized name is canonical if and only if it does not end in "_" and is not reserved |
| ResumeAllocation.CutAtUnderscore | server/agent/resume_contract.go:63-102 | a long acceptable name whose cut falls after "_" yields a non-canonical candidate |
| ResumeAllocation.RoomKeepsName | server/agent/resume_contract.go:63-81 | a name with room for the suffix loses nothing |
| ResumeNames.TruncatePortableFilenamePart | server/agent/resume_contract.go:83-102 | stopping at the first rune that does not fit gives the longest prefix within both limits |
| ResumeNames.SanitizeFixes | server/agent/resume_contract.go:31-50 | sanitizing fixes exactly non-empty names of safe characters with no dot, underscore or space at either end |
| ResumeNames.SanitizeCuts | server/agent/resume_contract.go:31-50 | the result is the input between its first and last non-edge character with unsafe ones replaced, or the fallback if there is none |
| ResumeNames.SanitizeIdempotent | server/agent/resume_contract.go:31-50 | sanitizing twice is sanitizing once |
| ResumeNames.CanonicalMeans | server/agent/resume_contract.go:121-148 | the canonical checks amount to sanitized, not reserved and within limits |
| ResumeNames.UnsafePoints | server/agent/resume_contract.go:36-44 | which code points are unsafe, may not stand at an edge, or are control characters |
| ResumeNames.ReservedStems | server/agent/resume_contract.go:22-27 | the reserved stems: seven names, and com and lpt with a digit 1 to 9 or a superscript 1 to 3 |
| ResumeNames.BaseOf | server/agent/resume_contract.go:31-35 | the base name is the last component, whatever slashes follow |
| ResumeNames.BaseOfNothing | server/agent/resume_contract.go:31-35 | without a component the base name is "." or "/" |
| ResumeNames.ReservedIgnoresExtension | server/agent/resume_contract.go:169-173 | what decides whether a name is reserved is its part before the first dot |
| ResumeNames.Widths | server/agent/resume_contract.go:104-113 | bytes and UTF-16 units of a character, by code point |
| Naming.KubernetesNameIsLabel | server/agent/kubernetes_naming.go:43-54 | for every identity, the name is a label of section 2.1 of RFC 1123 |
| Naming.KubernetesPrefixes | server/agent/kubernetes_naming.go:21-33 | both prefixes qualify and leave the safe part whole |
| Naming.SafePartKeeps | server/agent/kubernetes_naming.go:75-87 | a short identity that is already safe is kept |
| Naming.SafePartJoins | server/agent/kubernetes_naming.go:75-87 | safe pieces around one unsafe run stay, with a single hyphen between them |
| Naming.SafePartUnknown | server/agent/kubernetes_naming.go:75-87 | an identity without a letter or digit is called unknown |
| Naming.CollapsedRun | server/agent/kubernetes_naming.go:75-87 | a whole run outside the class becomes one hyphen and its surroundings are kept |
| Naming.NameKeepsHash | server/agent/kubernetes_naming.go:43-54 | equal names come from identities with equal digests |
| Naming.StampedLabelsPass | server/agent/kubernetes_identity.go:154-156 | label encoding is idempotent, so every stamped label passes the verifier |
| Naming.LabelFixed | server/agent/kubernetes_naming.go:89-109 | the non-empty fixed points of the encoding are exactly the valid label values |
| Naming.LabelKeepsHash | server/agent/kubernetes_naming.go:89-109 | a label that had to be changed ends in the digest of the value |
| Naming.LabelKept | server/agent/kubernetes_naming.go:89-109 | a non-empty value is kept if and only if it is at most 63 letters, digits, "-", "_" and ".", with a letter or digit at both ends |
| Naming.LabelShows | server/agent/kubernetes_naming.go:89-109 | of a value with one unsafe run the pieces stay, in front of the digest |
| Naming.Classes | server/agent/kubernetes_naming.go:75-109 | the character classes by code point |
| Naming.VerifiedLabel | server/agent/kubernetes_identity.go:154-156 | the verifier accepts exactly the valid label values |
| Naming.DockerNameKeepsHash | server/agent/runtime_names.go:70-84 | equal container names come from identities with equal digests |
| Naming.DockerNameIsValid | server/agent/runtime_names.go:70-84 | for every identity, at most 128 characters of the Docker alphabet, starting with a letter or digit |
| Naming.DockerNameShows | server/agent/runtime_names.go:70-84 | a short safe identity appears whole between prefix and digest |
| Naming.DockerNameCuts | server/agent/runtime_names.go:70-84 | a long safe identity is cut to the room left and trimmed back to a letter or digit |
| Naming.DockerNameUnknown | server/agent/runtime_names.go:70-84 | an identity without a usable character is called unknown |
| Transport.RetryRequest | runtime-claude/src/transport.ts:59-87 | for every script of outcomes, clocks, jitter and aborts: at most four attempts; every network error, attempt timeout or retryable typed error is retried after a sleep unless attempts, time or the caller's signal run out; any other error ends the request with its code; exact attempt count and cause of an error, and success exactly when some attempt succeeds after only retried ones |
| Transport.DelayIsSafe | runtime-claude/src/transport.ts:76-81 | a delay honours Retry-After and is otherwise below the cap |
| Transport.RetryableByCode | runtime-claude/src/transport.ts:89-104 | a response is retryable exactly when its code is timeout, rate limit or unavailable |
| Transport.NormalizeError | runtime-claude/src/transport.ts:183-196 | which code and retryable flag each kind of error gets |
| Transport.CodeOfStatus | runtime-claude/src/transport.ts:89-104 | which statuses each code stands for |
| Artifacts.UploadWorkspaceArtifacts | runtime-claude/src/artifacts.ts:49-87 | fails exactly on an interruption or a manifest failure, with the artifact's own typed error or the reason of the abort; otherwise manifest and failures merge, in order, to the scanned artifacts, each with the key or the code of its own upload |
| Artifacts.MergedPartitions | runtime-claude/src/artifacts.ts:57-69 | such a merge loses and adds nothing, and puts no path on both sides |
| Artifacts.UploadArtifact | runtime-claude/src/artifacts.ts:131-184 | at most three snapshots; success exactly when a pass stores an unchanged file after passes that only saw it change; otherwise the error of the pass that failed for good |
| Artifacts.UploadDirect | runtime-claude/src/artifacts.ts:152-175 | at most one refresh of the signature and two puts; exactly when it succeeds, which reply's key is returned and which put succeeded |
| Money.ParseMicroCNY | server/billing/money.go:41-75 | succeeds exactly on amounts whose micro-value fits int64, with that value; overflow exactly on the other amounts; the precedence of the other errors |
| Money.ParseDigits | server/billing/money.go:86-96 | accepts exactly values up to the maximum, with no intermediate outside int64, for any length |
| Money.AmountUnique | server/billing/money.go:41-75 | an amount has one reading |
| ModelAliases.RoundTrip | server/agent/model_usage_alias.go:26-63 | parsing the formatted lines of a valid map returns the map |
| ModelAliases.ParseModelUsageAliases | server/agent/model_usage_alias.go:43-63 | succeeds exactly with the valid map that the lines say without a repeated name |
| ModelAliases.FormatModelUsageAliases | server/agent/model_usage_alias.go:26-41 | succeeds exactly on valid maps; one line per entry, by ascending raw name |
| ModelAliases.ValidateModelUsageAliases | server/model/model_usage.go:17-34 | accepts exactly at most 128 aliases of trimmed one-line texts, without "=" in the raw name and "/" in the provider |
| ModelAliases.ParsedLineReads | server/agent/model_usage_alias.go:48-60 | a line that parses is the line its parts are written as |
| ModelAliases.LineRoundTrip | server/agent/model_usage_alias.go:48-60 | a line reads back if and only if the raw name has no "=" and the provider no "/" |

## Left out

- Runtime protocol: transition systems on values rather than classes, since the processes are concurrent; "matches desired" is one free boolean, the extra Docker inspection before a start is merged with the first, and Kubernetes foreground deletion is one step.
- Runtime protocol: clock differences between database and servers, and starts that take effect after their call returned; late creates and removals are modelled.
- Runtime protocol: volumes and PersistentVolumeClaims, DeleteTaskWorkspace, finalization, heartbeats and deadlines of active executions, RecordExecutionInstance (no effect on reachable records), and the fallback of the retention gate to updated_at (completed_at is always set).
- CleanupLease.ExclusiveIffCovers: leases of at least 2 time units; the retry time after a failed cleanup is ignored.
- StudioRelease.AssetsSurviveIff: labels are one value; selector edits by hand, deleted Deployments, Ingress and autoscaler are not modelled.
- Materialize.Workspace.MaterializeBootstrapFiles: regular files only: directories created on the way, file modes and the chunks of a download are not modelled, and one writer with a fresh staging name is assumed.
- Preflight.PreflightBootstrapFiles: the checks of a single file's content source, own size limit, mode and URL are one flag.
- Schema.ValidateSchemaValue: numbers are reals, so float rounding and out-of-range literals are not modelled; which malformed part a schema fault blames is not stated.
- PresetFiles.GenerateDSHPresets: metadata rendering and the DSH source file are parameters; modes are sets of bit numbers; reads do not fail, walk order is any order with parents first, and temporary files of a failed write are not kept.
- Delivery.ValidateDeliveryContract: MIME syntax is a flag; path.Match on patterns the contract refuses is an arbitrary function.
- Catalog.Catalog.Load: manifest files, their validation and digests are the parameter `entries`.
- SecretScan.Scan: the checks on the opened file before and after the stream are not modelled.
- Forwarding.Resolve: the other reference checks of validateHypitReferences are not modelled; builds and outputs are strings.
- ResumeAllocation.FindUnique: PortableFilenameKey is any function that keeps numbers of one width apart; names are valid UTF-8.
- Transport.RetryRequest: request ids and HTTP status in errors, and the child timeout's timer, are not modelled.
- Artifacts.UploadArtifact: hashing, streaming and content types are parts of a pass; scanning the workspace is the parameter `paths`.
- Whole components: the server's HTTP handlers, authentication, configuration and billing beyond money parsing; the DSH bridge, runner prompts, environment tables and clients of other services, which are tables, text or external code.
