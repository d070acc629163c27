# Knowbase: verified model of the partition, drain and runtime backbone

This project models the stateful core of Knowbase and proves what its components keep over whole runs:

* **Derived state of a partition.** Case documents, the incrementally kept statistics and their support index, the
  facet and semantic indexes rebuilt from the documents, and the projection of semantic profiles onto the facet schema.
* **The mutation protocol.** The per-partition task queue, the Git workspace with its transaction, the decision records
  with their review lock, and the drain that composes them.
* **The agent runtime.** The loop, the orchestrator with its verification sub-runs, the budgets, and the trace that is
  parsed back into turns.
* **Batch working sets** and the **JSON object scanner**.

Objects that the Python code updates in place are classes whose methods are proved against pure functions; the results
are lemmas about those functions, over every input, every run or every interleaving.

| file | models |
|---|---|
| `Options.dfy`, `Text.dfy`, `Sorting.dfy`, `Fields.dfy` | shared values, `strip`, decimal integers, `sorted`, lists and ordered dictionaries of fields |
| `Statistics.dfy`, `Aggregator.dfy`, `Observations.dfy`, `StatisticsStore.dfy`, `SupportReader.dfy` | statistics |
| `ProfileIndex.dfy`, `Projection.dfy`, `CaseWorkspace.dfy` | indexes, projection, the documents of a workspace |
| `PartitionRuns.dfy`, `CaseCounts.dfy`, `WritePath.dfy`, `MutationExecution.dfy` | runs of creates, updates, deletes and applied plans, and what their statistics, queries and indexes say of the cases |
| `GitRepository.dfy`, `Drain.dfy`, `Governance.dfy` | transactions, the drain, the way to a new schema |
| `TaskQueue.dfy`, `Decisions.dfy`, `DrainProtocol.dfy` | the queue, the decisions, and both under any interleaving |
| `RuntimeWorld.dfy`, `Runtime.dfy`, `Trace.dfy` | what a run asks of the world and how that decides its end, the agent runtime, and the replay of its trace |
| `EventStreams.dfy`, `WorkingSet.dfy`, `JsonScan.dfy` | event collapsing, working sets, the scanner |

`str.casefold` (`fold`), `str.lower` (`lower`), the clock (`now`), fresh ids, the planner, tools, skills and verifier are
parameters. `fold` is only assumed to make no text empty, and only where `KeepsText` says so. Times are integers.

The planner, the tools, the skills, the test for acceptance, the verifier and its verification runs answer by the number
of the question, so that any answers in any order are covered. A run keeps, as specification only, the list of the
questions it asked; its status is stated by the answers to these questions, never by the functions that compute it.

Where the code falls short of what one might expect, the model keeps the code, says exactly when the expectation holds,
and gives an input for which it does not:

* A failed drain restores HEAD, index and working tree, but not the statistics it has already saved. The state is
  consistent exactly when the changes counted by then leave the recount as it was, and always when none was counted
  (`PartitionRuns.RolledBackConsistentIff`; `PartitionRuns.FailedSaveLeavesDrift`).
* A case operation whose statistics are not saved leaves a consistent state exactly when it was an update that leaves the
  case's normalised observation as it was (`WritePath.UnsavedConsistentIff`).
* The replay of a trace has one turn per decision exactly when no artifact resolves to a later turn
  (`Trace.ReplayUndoesRecording`); a model call that raises adds a turn (`Trace.RaisingModelAddsTurn`), and so does a model
  answer that sets `turn_index` (`Trace.ModelTurnAddsTurn`).
* Collapsing events is idempotent except on streams that re-create a live resource and later delete it
  (`EventStreams.CollapseSettles`; `EventStreams.RecreatedStreamNotSettled`).
* A support query is right for every set of normalised observations exactly when no other colon of key, colon, value
  splits that text into a normalised key and value (`SupportReader.AlwaysFaithfulIff`; `SupportReader.ColonMisleads`).
* Removing an observation undoes applying it exactly when its source did not already support one of its index keys
  (`Statistics.RemoveUndoesApply`; `Statistics.AppliedTwiceNotRestored`).
* A projection keeps exactly the profile's values under the enabled keys, for every profile, exactly when every enabled
  key names itself under `lower` (`Projection.RestrictsIffCoherent`; `Projection.SecondSpellingTakesOver`).
* An index key count equals the statistic of the folded key exactly when every case with a spelling of the key has the
  key itself (`ProfileIndex.KeyCountsAgree`; `ProfileIndex.TwoSpellingsDisagree`).
* A rollback restores the base revision exactly when every changed path has been registered
  (`GitRepository.RollbackRestores`; `GitRepository.UnregisteredStays`).
* The schema a runtime hands over need not be the one its passing validation report was about; the pipeline checks it
  again, and exactly that decides (`Governance.AdoptsExactly`; `Governance.AnotherSchemaAdopted`).
* A comment in `internal/knowledge/governance/service.py` (lines 273-274) says that the runtime cannot bypass a policy
  rejection. The code asks the runtime whenever there is an agent and an effective proposal: inconsistent evidence or a
  failed proposal plugin stops every drain exactly when the runtime is not asked (`Governance.RejectionStandsIff`).

## Model

| member | source | states |
|---|---|---|
| Statistics.KeyRefInjective | internal/knowledge/statistics/aggregator.py:29-30 | the three field names keep their key references apart, whatever the keys are |
| Statistics.ApplyIsRecount | internal/knowledge/statistics/aggregator.py:13-45 | applying the observation of a new source to a recount over the live sources gives the recount with that source |
| Statistics.RemoveIsRecount | internal/knowledge/statistics/aggregator.py:47-76 | removing a live source's own observation gives the recount without it |
| Statistics.ReplaceIsRecount | internal/knowledge/statistics/aggregator.py:78-88 | replacing a live source's observation gives the recount with the new one |
| Statistics.ApplyKeepsWellFormed | internal/knowledge/statistics/aggregator.py:13-45 | positive counts, no empty inner map and sorted non-empty support lists survive an apply, on any such snapshot |
| Statistics.RemoveKeepsWellFormed | internal/knowledge/statistics/aggregator.py:47-76 | the same for a remove |
| Statistics.RemoveUndoesApply | internal/knowledge/statistics/aggregator.py:13-76 | on any well-formed snapshot, removing an observation just applied restores it if and only if its source was not already supporting one of its index keys |
| Statistics.AppliedTwiceNotRestored | internal/knowledge/statistics/aggregator.py:13-76 | a source applied twice and removed once has lost its support, so the snapshot is not restored |
| Statistics.RecountTellsApart | internal/knowledge/statistics/aggregator.py:31-43 | replacing one live source's entries leaves the recount as it was if and only if they are the same entries, whatever its keys hold |
| Aggregator.Apply | internal/knowledge/statistics/aggregator.py:13-45 | the nested loops compute the closed-form update, and refuse exactly a foreign partition |
| Aggregator.Remove | internal/knowledge/statistics/aggregator.py:47-76 | the nested loops compute the closed-form removal |
| Aggregator.Replace | internal/knowledge/statistics/aggregator.py:78-88 | a replacement is the removal followed by the update |
| Aggregator.Build | internal/knowledge/statistics/aggregator.py:98-103 | a rebuild over observations of distinct sources is the direct recount, the empty snapshot standing for None |
| Observations.NormalizeMapping | internal/knowledge/statistics/normalizer.py:24-33 | the loop computes folded keys over sorted sets of stripped values, later spellings of a key winning |
| Observations.EntriesNormalised | internal/knowledge/statistics/normalizer.py:24-33 | every listed key has sorted values, without repetition |
| Observations.ObservationNormal | internal/knowledge/statistics/normalizer.py:24-33 | a normalised observation holds only stripped, folded, non-empty keys over sorted lists of stripped non-blank values |
| Observations.NormalizedAt | internal/knowledge/statistics/normalizer.py:24-33 | the normalised dictionary lists exactly the folded non-empty keys that have a value, each with exactly the stripped non-blank values of the last spelling that has any |
| StatisticsStore.AppendRecount | internal/knowledge/statistics/writer.py:22-23 | over case documents: counting a new case in gives the recount of the extended collection |
| StatisticsStore.ReplaceRecount | internal/knowledge/statistics/writer.py:28-44 | over case documents: exchanging a case gives the recount of the changed collection |
| StatisticsStore.RemoveRecount | internal/knowledge/statistics/writer.py:46-56 | over case documents: counting a case out gives the recount of the remaining collection |
| StatisticsStore.StatisticsWriter.AppendCaseObservation | internal/knowledge/statistics/writer.py:22-23 | the stored snapshot stays the recount of the cases, now with the new one; a failing save leaves it as it was |
| StatisticsStore.StatisticsWriter.ReplaceCaseObservation | internal/knowledge/statistics/writer.py:28-44 | the stored snapshot stays the recount of the cases, now with the replacement; two partitions, or a failing save, leave it as it was |
| StatisticsStore.StatisticsWriter.RemoveObservation | internal/knowledge/statistics/writer.py:46-56 | the stored snapshot stays the recount of the cases, now without the removed one; an absent snapshot stays absent without an error |
| StatisticsStore.StatisticsWriter.RebuildPartitionStatistics | internal/knowledge/statistics/writer.py:58-68 | succeeds if and only if some listed document is of the partition and the save goes through, and then stores the recount of those documents; otherwise the stored snapshot stays |
| SupportReader.FindSupportingCases | internal/knowledge/statistics/reader.py:23-46 | for every snapshot, consistent or not, the result is the sorted list, cut by the limit, of the sources the index lists with one of the values of every filter, or of some filter, and empty without filters or snapshot |
| SupportReader.SupportAfterRun | internal/knowledge/statistics/aggregator.py:31-43 | after any run of applies, removes and replaces with distinct sources, each support entry is the sorted non-empty set of live sources with a field, key and value encoding to it |
| SupportReader.IndexKeyOrigin | internal/knowledge/statistics/aggregator.py:40 | every index key of an observation encodes one of its fields, keys and values |
| SupportReader.SplitUnique | internal/knowledge/statistics/reader.py:30-32 | two readings of a text as key, colon, value agree when the keys, or one whole reading, hold no other colon |
| SupportReader.FoundIsDirectFilter | internal/knowledge/statistics/reader.py:23-46 | when no key holds a colon, a query is a direct filter over the live observations, in both match modes and for every limit |
| SupportReader.IndexKeysTellApart | internal/knowledge/statistics/aggregator.py:40-43 | when no key holds a colon, two normalised observations with the same index keys are the same |
| SupportReader.AlwaysFaithfulIff | internal/knowledge/statistics/reader.py:29-32 | a filter finds exactly the supporting sources of every set of normalised observations if and only if no other colon of key, colon, value splits that text into a normalised key and a normalised value |
| SupportReader.ColonMisleads | internal/knowledge/statistics/reader.py:29-32 | the case facet `a:b` with value `c` is found by a query for facet `a` with value `b:c` |
| SupportReader.SpacedValueUnambiguous | internal/knowledge/statistics/reader.py:29-32 | the value `b: c` of key `a` cannot mislead, as no normalised value starts with a blank |
| ProfileIndex.BuildIndex | internal/domain/partition/profile_builder.py:24-133 | counting, ranking and sampling the listed documents gives the index a direct recount over the partition's cases gives |
| ProfileIndex.Rank | internal/domain/partition/profile_builder.py:114-121 | the items by descending count, then ascending text, whatever order the dictionary has |
| ProfileIndex.TopTwelve | internal/domain/partition/profile_builder.py:112-118 | the samples are the first twelve of the ranking: counted values, and none left out ranks before one taken |
| ProfileIndex.KeyCountsAgree | internal/domain/partition/profile_builder.py:93-104 | an index's count of a key never exceeds the statistic of its folded form, and equals it if and only if every case with a spelling of the key has the key itself |
| ProfileIndex.TwoSpellingsDisagree | internal/domain/partition/profile_builder.py:93-104 | with one case spelling a key `OS` and another `os`, the index counts fewer cases than the statistics |
| ProfileIndex.ValuesAgree | internal/domain/partition/profile_builder.py:93-104 | the value counts of a key that no case spells otherwise are the value statistics of its folded form |
| ProfileIndex.ViewsAgree | internal/domain/partition/profile_builder.py:82-133 | with keys distinct under folding, every index entry has the count and top twelve values of the statistics, and no counted key lacks an entry |
| Projection.ProjectFromSemanticProfile | internal/domain/case/facet_resolver.py:10-56 | the loops compute the projection, and its result is already a validated field set |
| Projection.LastDefinition | internal/domain/case/facet_resolver.py:35-39 | of the enabled definitions with one lower-case name the last one counts |
| Projection.ResolvedAt | internal/domain/case/facet_resolver.py:40-56 | under each name stand the cleaned values of the last facet that goes under it and has any, and nothing when none has |
| Projection.RestrictsIffCoherent | internal/domain/case/facet_resolver.py:10-56 | projecting keeps exactly the profile's values under the enabled keys, for every profile, if and only if every enabled key names itself |
| Projection.SecondSpellingTakesOver | internal/domain/case/facet_resolver.py:10-56 | with `Region` and `region` enabled, the values of `Region` are projected under `region` |
| Projection.ProjectedUnchanged | internal/knowledge/projection/case_facet_projector.py:14-32 | no change is proposed exactly when the facets have the projection's values, hence never for facets that are the projection |
| Projection.PlanProjection | internal/knowledge/projection/service.py:15-37 | the loop over the target ids computes changes, unchanged and skipped ids |
| Projection.PlanSplitsTargets | internal/knowledge/projection/service.py:19-37 | the three lists together hold the targets with repetitions, and exactly the targets without a case in the partition are skipped |
| Projection.AfterChangesAt | internal/knowledge/execution/mutation_executor.py:41-56 | applying projection changes in order projects exactly the named cases, repetitions included, and touches no others |
| Projection.ProjectionSettles | internal/knowledge/projection/service.py:15-37 | after a plan has been applied, planning again changes nothing and every target's facets are the projection of its profile |
| CaseWorkspace.ListByPartition | internal/infrastructure/persistence/local/repositories.py:284-289 | the first five hundred case documents by file name |
| CaseWorkspace.ListingComplete | internal/infrastructure/persistence/local/repositories.py:284-289 | with at most five hundred cases the listing is the whole collection |
| CaseWorkspace.ListedFirst | internal/infrastructure/persistence/local/repositories.py:284-289 | the listing goes by file name, holds at most five hundred cases, and leaves out only cases whose file names come later |
| CaseWorkspace.RefreshedCurrent | internal/domain/partition/store.py:86-118 | a refresh leaves the cases alone and both index documents equal to the index of the listed cases |
| CaseWorkspace.SchemaSavedValid | internal/domain/partition/store.py:55-75 | saving a schema stores exactly that schema and touches no case |
| PartitionRuns.TreeAfterCases | internal/domain/case/write_service.py:100-241 | every create, update, delete and applied plan leaves a valid tree with current indexes and exactly the expected cases |
| PartitionRuns.ReplacedAllRecounts | internal/knowledge/execution/mutation_executor.py:85-90 | replacing the observations of a plan one after the other ends in the recount, even when the plan names a case twice |
| PartitionRuns.StepKeepsConsistent | internal/domain/case/write_service.py:218-286 | one operation keeps statistics and indexes consistent with the cases |
| PartitionRuns.StepWrites | internal/domain/case/write_service.py:100-241 | one operation leaves a case as it was or wrote it: a create or an update with its own text and profile and the projection of that profile under the current schema, a plan with the validated facets of the last change that names the case |
| PartitionRuns.LastWriter | internal/domain/case/write_service.py:100-241 | over every run, a case is as the last operation that wrote it left it, or as it was when none did |
| PartitionRuns.FacetsProjectProfiles | internal/domain/case/write_service.py:184-189 | after any run, the facets of every case are the projection of its profile under the schema left by the last operation that wrote it, for a plan provided that it brought projections |
| PartitionRuns.StatisticsRecountCases | internal/knowledge/statistics/writer.py:22-56 | after any run of creates, updates, deletes and applied plans, the statistics equal a recount of the current cases |
| PartitionRuns.QueriesFilterCases | internal/knowledge/statistics/reader.py:23-46 | after any run of creates, updates, deletes and applied plans, a support query over the stored statistics is a direct filter over the current cases, for filters the encoding cannot mislead |
| PartitionRuns.DerivedViewsAgree | internal/domain/case/write_service.py:276-286 | after any run that leaves at most five hundred cases with keys distinct under folding, each index is the recount of the cases and agrees with the statistics |
| CaseCounts.StatisticsCountCases | internal/knowledge/statistics/aggregator.py:13-76 | after any run, the statistics count the cases, how many list each key, how many list each value under it, and list under each text exactly the cases with a field, key and value that join to it, and count nothing else |
| CaseCounts.QueriesAnswerCases | internal/knowledge/statistics/reader.py:23-46 | after any run, a query whose filters the encoding cannot mislead returns, in ascending order and cut by its limit, exactly the cases that have one of the values under the key of all of its filters, or of some |
| CaseCounts.IndexCounts | internal/domain/partition/profile_builder.py:24-133 | an index lists each key that some case has a value for, once, by descending count and then text, with the number of cases that have it and at most twelve of its values, each with its number of cases, none left out going before one taken |
| CaseCounts.IndexesCountCases | internal/domain/case/write_service.py:276-286 | after any run that leaves at most five hundred cases, each index document present says this of the current cases |
| PartitionRuns.WritesOnlyItsPaths | internal/knowledge/execution/mutation_executor.py:103-109 | an operation changes no path but its own: a case's three files, or the planned paths |
| PartitionRuns.PlanEffects | internal/knowledge/execution/mutation_executor.py:26-65 | an applied plan leaves the base tree with exactly the changed cases, the saved schema document and the rebuilt indexes |
| PartitionRuns.RolledBackConsistentIff | internal/knowledge/workflow/drain_workflow.py:247-254 | documents rolled back under statistics that count the first k changes of a plan are consistent if and only if these leave the recount as it was; with keys free of colons, if and only if they leave every normalised observation as it was; always for k = 0 |
| PartitionRuns.SameRecountIff | internal/knowledge/statistics/aggregator.py:31-43 | when no key holds a colon, two versions of a case collection recount alike if and only if every case is observed alike |
| PartitionRuns.OneReplacedIff | internal/knowledge/statistics/aggregator.py:78-88 | replacing one case leaves the recount as it was if and only if its normalised observation stays the same, whatever its keys hold |
| PartitionRuns.FailedSaveLeavesDrift | internal/knowledge/execution/mutation_executor.py:85-90 | an accepted plan that moves one facet value and fails after its one replacement leaves an inconsistent state |
| WritePath.Partition.CreateNew | internal/product/ingest/service.py:110-143 | goes through exactly on a clean workspace when every write does; the new case then has the given text and profile and the projection of that profile under the stored schema, every other case stays, and there is at most one new clean revision. Refused without a write otherwise, or interrupted: HEAD and index stay, only the case's paths differ, and the statistics are touched only after all documents |
| WritePath.Partition.UpdateExisting | internal/domain/case/write_service.py:144-222 | goes through exactly for an existing case on a clean workspace when every write does; the case then has the new text and profile, or keeps its own, and always the projection of its profile under the stored schema, and every other case stays. Refused or interrupted otherwise as for a create |
| WritePath.Partition.DeleteExisting | internal/domain/case/write_service.py:224-241 | goes through exactly for an existing case on a clean workspace when every write does, and then exactly that case is gone; refused or interrupted otherwise as for a create |
| WritePath.OperationCommits | internal/domain/case/write_service.py:262-274 | the three paths committed for a case cover every change of its operation, so committing them makes HEAD the new working tree, clean and with at most one new revision |
| WritePath.UnsavedConsistentIff | internal/domain/case/write_service.py:243-260 | an operation whose documents are written but whose statistics are not leaves a consistent state if and only if it is an update that leaves the case's normalised observation as it was |
| MutationExecution.MutationExecutor.ValidatePlan | internal/knowledge/execution/mutation_executor.py:111-121 | passes exactly when every change names a case of the partition whose facets are still the planned ones |
| MutationExecution.MutationExecutor.WriteDocuments | internal/knowledge/execution/mutation_executor.py:32-84 | succeeds exactly when every document write does, and then the tree is the one the plan leads to; a failure at any write, which may leave anything at its path, has written planned paths only |
| MutationExecution.MutationExecutor.ReplaceObservations | internal/knowledge/execution/mutation_executor.py:85-90 | when the save of one replacement raises, the statistics are the recount of the cases as the replacements before it left them; when none does, of all changed cases |
| MutationExecution.MutationExecutor.Apply | internal/knowledge/execution/mutation_executor.py:26-90 | completes exactly when the plan has an id and the partition's name, every change names a case of the partition that still has the facets the plan was made for, and every write goes through; then each case named has the validated facets of the last change that names it and nothing else of any case differs. A failure after any prefix of all writes, statistics included, has written planned paths only, replaced observations only after all documents, and left the recount of the first k changes |
| GitRepository.CleanIffNothingChanged | internal/infrastructure/version_control/git/repository.py:115-119 | the status lists no path exactly when HEAD, index and working tree agree |
| GitRepository.Workspace.Commit | internal/infrastructure/version_control/git/repository.py:127-156 | succeeds exactly for some paths that index or working tree know; then the index has the working tree's content at the given paths and its own elsewhere, and there is a new revision exactly when it differs from HEAD; refused without a change otherwise |
| GitRepository.Workspace.Restore | internal/infrastructure/version_control/git/repository.py:158-182 | each given path that the revision has gets the content of that revision, every other path keeps its own, and HEAD and index stay |
| GitRepository.Workspace.DiscardUntracked | internal/infrastructure/version_control/git/repository.py:184-187 | exactly the given files the index does not have are gone, and every other path keeps its content |
| GitRepository.RollbackRestores | internal/versioning/commit_coordinator.py:41-48 | before staging, a rollback restores the base revision if and only if every changed path has been registered |
| GitRepository.UnregisteredStays | internal/versioning/commit_coordinator.py:41-48 | a changed path that was not registered keeps its new content |
| GitRepository.CommitOverlays | internal/versioning/commit_coordinator.py:28-39 | a commit makes HEAD the base tree overlaid with the working tree at the registered paths, and leaves a clean tree if and only if they cover every change |
| GitRepository.MutationTransaction.Commit | internal/versioning/commit_coordinator.py:28-39 | commits the changed registered paths, closes without a commit when there are none, and refuses a closed transaction |
| GitRepository.MutationTransaction.Rollback | internal/versioning/commit_coordinator.py:41-48 | the first call gives each registered path the content of the base revision, or removes it when neither base nor index has it, and leaves every other path; a later call changes nothing |
| GitRepository.BeginTransaction | internal/versioning/commit_coordinator.py:12-20 | a transaction begins exactly on a clean workspace |
| Drain.PlanFits | internal/knowledge/workflow/drain_workflow.py:146-170 | a plan projected from the current cases is always one the executor accepts |
| Drain.DrainWorkflow.Begin | internal/knowledge/workflow/drain_workflow.py:62-92 | a drain starts exactly in a partition without a review lock and with a clean workspace |
| Drain.DrainWorkflow.ApplyInTransaction | internal/knowledge/workflow/drain_workflow.py:240-282 | either HEAD is the tree the plan leads to, clean and with at most one new revision, or, after a failure at any write or before staging, HEAD, index and working tree are what they were and the statistics are the recount of the first k changes, consistent if and only if these leave the recount as it was |
| Drain.DrainWorkflow.Finish | internal/knowledge/workflow/drain_workflow.py:109-325 | ends in a review exactly without a governance result, with one that requires a review, or with nothing to execute a plan; with nothing to do exactly for a result that neither proceeds nor requires a review; in both cases with one saved decision and no other change. Otherwise the plan is applied as a whole in at most one new revision with an applied decision, reporting the cases that changed and whether a schema was stored, or its documents are undone with a failed one. Only this record and this partition's lock change |
| Drain.MutationIsProtocol | internal/knowledge/workflow/drain_workflow.py:191-312 | the decisions after an applied or failed plan are those after the protocol's steps: taking up the plan, starting to apply, any number of file writes, ending |
| Drain.StopIsProtocol | internal/knowledge/workflow/drain_workflow.py:109-145 | the decisions after a drain that only saves one are those after the protocol's concluding step |
| Drain.AssessingMayFinish | internal/knowledge/workflow/drain_workflow.py:62-66 | whatever happens while a drain awaits governance, its partition is still available when it goes on |
| Drain.DrainChangesSchemaOnlyIfAdopted | internal/knowledge/workflow/drain_workflow.py:166-170 | the schema document a proceeding drain commits differs from the stored one if and only if governance adopted another schema, which is then the one stored |
| Drain.DrainSettlesProjection | internal/knowledge/workflow/drain_workflow.py:146-170 | a projecting drain projects exactly the cases it owes a projection: every listed case when governance accepted, hence every case up to five hundred; otherwise those of a non-empty refresh scope, and with an empty one the affected ones; nothing else of any case changes, and planning again changes nothing |
| Drain.DrainReports | internal/knowledge/workflow/drain_workflow.py:166-170 | the plan carries the accepted schema exactly for a proposal with a new, updated or removed key, that schema is the one stored afterwards, and the changed cases are exactly those the plan names |
| Drain.DrainWorkflow.Proceed | internal/knowledge/workflow/drain_workflow.py:191-325 | the decision is recorded as accepted, applying and then applied or failed, the call succeeds exactly on a clean workspace when every write and the commit go through, and it reports the plan, the new revision and the changed cases |
| Governance.LatestValidationReport | internal/knowledge/governance/runtime_agent.py:466-476 | the latest report of the validation skill decides, and a failed or malformed one counts as not passed |
| Governance.RecoverValidatedCandidate | internal/knowledge/governance/runtime_agent.py:479-553 | only a run stopped by a budget yields a schema, that of its latest validation call with a parsable candidate |
| Governance.Decide | internal/knowledge/governance/runtime_agent.py:56-124 | the searches and branches compute the specified decision; when it accepts is said by `DecidedAccepted` |
| Governance.DecidedAccepted | internal/knowledge/governance/runtime_agent.py:56-124 | for every runtime result, the decision accepts a schema if and only if the latest validation report passed and the runtime handed over that schema, and it never accepts without a schema |
| Governance.ValidateCandidate | internal/knowledge/governance/validation/pipeline.py:25-43 | passes exactly when every plugin returned and passed, with one result per plugin |
| Governance.Assess | internal/knowledge/governance/service.py:264-390 | the three stages compute the specified result; when it lets the drain go on, and with which schema, is said by `ProceedsExactly` |
| Governance.ProceedsExactly | internal/knowledge/governance/service.py:159-390 | without an agent or without a new or removed key, the drain goes on exactly when the evidence is consistent, no plugin failed and no key is new or removed, and then without a change; otherwise exactly when the latest validation report failed, a schema was handed over after a passing report and passes the gate, or a completed run concluded no change, and then as accepted. In every other case a review is required and no schema is accepted |
| Governance.RejectionStandsIff | internal/knowledge/governance/service.py:264-299 | inconsistent evidence or a failed plugin stops the drain for every runtime result exactly when the runtime is not asked |
| Governance.DecidedNoChange | internal/knowledge/governance/runtime_agent.py:56-124 | the runtime's decision is no change exactly when the latest validation report failed or a completed run concluded no change |
| Governance.HandedOverIs | internal/knowledge/governance/runtime_agent.py:56-124 | the schema handed over is that of the latest parsable validation call of a run a budget stopped, or the one of the latest decision of a completed run |
| Governance.AdoptsExactly | internal/knowledge/governance/service.py:301-390 | a plan carries a schema other than the current one if and only if a proposal asked for a change, the runtime's latest validation report passed, the runtime handed over that schema, and the pipeline passes it when run again |
| Governance.AnotherSchemaAdopted | internal/knowledge/governance/runtime_agent.py:56-124 | a run that validated one schema and then accepted another has the other one adopted whenever the pipeline passes it |
| Governance.SavingTheSameIsInvisible | internal/domain/partition/store.py:55-75 | saving leaves the document and its times untouched if and only if the schema is the stored one |
| Governance.SchemaChangesOnlyIfAdopted | internal/knowledge/model/mutation_plan.py:27-66 | for every evidence and runtime result, the workspace's schema document changes if and only if another schema was adopted, and then to that schema |
| Decisions.TransitionKeepsInv | internal/knowledge/decision/service.py:60-111 | a transition keeps histories unbroken, reviews locked and lock owners active |
| Decisions.CreateKeepsInv | internal/knowledge/decision/service.py:25-37 | so does a create under a fresh id |
| Decisions.TransitionAccepted | internal/knowledge/decision/service.py:73-111 | an allowed transition fails exactly when it would release a lock held by another decision, and never for a decision in review |
| Decisions.ReviewOwnsLock | internal/knowledge/decision/review_lock.py:37-51 | over every run, a decision in review owns its partition's lock, so there is at most one per partition |
| Decisions.LockOwnerActive | internal/knowledge/decision/review_lock.py:37-59 | over every run, the owner of a held lock is in review, accepted or applying |
| Decisions.AtMostFourTransitions | internal/knowledge/decision/service.py:113-122 | over every run, a history is an unbroken chain of allowed steps ending at the current status, each lowering a rank, so of at most four |
| Decisions.LifecyclesRealised | internal/knowledge/decision/service.py:113-122 | a decision can go through a sequence of statuses in some run if and only if each follows the one before it by one of the seventeen steps |
| Decisions.LockHeldSinceReview | internal/knowledge/decision/service.py:25-111 | over every run in which decisions are created without a history, a decision holds its partition's lock if and only if it was in review and has since only been accepted or started to apply |
| Decisions.PartitionReviewLock.AcquireLock | internal/knowledge/decision/review_lock.py:37-51 | succeeds exactly when the lock is free or the caller's own, which it then is; otherwise nothing changes |
| Decisions.PartitionReviewLock.ReleaseLock | internal/knowledge/decision/review_lock.py:53-59 | succeeds exactly when the lock is free or the caller's own, and it is free afterwards; otherwise nothing changes |
| Decisions.DecisionService.CreateRecord | internal/knowledge/decision/service.py:25-37 | fails exactly for a review in a partition whose lock another decision holds, without a change; otherwise the record is stored, with a first history entry, and a review takes the lock |
| Decisions.DecisionService.TransitionRecord | internal/knowledge/decision/service.py:60-111 | succeeds exactly for one of the seventeen steps of a stored decision that does not free another decision's lock; then status and history go on by that step, and the lock is freed unless the step leads to accepted or applying; otherwise nothing changes |
| Decisions.DecisionService.EnsurePartitionAvailable | internal/knowledge/decision/service.py:42-49 | raises exactly when the partition's lock is held |
| TaskQueue.StepKeepsInv | internal/backlog/tasks/queue.py:29-83 | every step of the scheduler keeps one worker per partition, statuses that fit the queues, enqueue order and sound waiters |
| TaskQueue.Serialised | internal/backlog/tasks/queue.py:29-83 | under every interleaving each partition has at most one live worker and one running task, and pending work has a live worker |
| TaskQueue.StartOrder | internal/backlog/tasks/queue.py:66-74 | a task has started only if every task enqueued before it in its partition has finished |
| TaskQueue.WaitIdleSound | internal/backlog/tasks/queue.py:61-64 | when `wait_idle` may return, every task enqueued in the partition before the call has completed or failed |
| TaskQueue.AttemptedOnce | internal/backlog/tasks/queue.py:66-83 | under every interleaving a task is attempted once it has started, and never twice |
| TaskQueue.FinishedBy | internal/backlog/tasks/queue.py:74-80 | under every interleaving a finished task was finished by the return of its own handler, completed if that returned and failed if it raised, and stays so |
| TaskQueue.WorkersCanStep | internal/backlog/tasks/queue.py:66-83 | a live worker is never blocked by the dictionaries |
| TaskQueue.PartitionTaskQueue.EnqueueTask | internal/backlog/tasks/queue.py:29-46 | the new pending task goes last in its partition's queue, which has a live worker afterwards; other queues and workers stay |
| TaskQueue.PartitionTaskQueue.DrainStep | internal/backlog/tasks/queue.py:66-83 | the first queued task is started and awaited, or, without one, the worker and its queue are removed |
| TaskQueue.PartitionTaskQueue.HandlerReturned | internal/backlog/tasks/queue.py:74-80 | exactly the awaited task is completed, or failed when the handler raised, and the worker goes on |
| TaskQueue.PartitionTaskQueue.StartWaitIdle | internal/backlog/tasks/queue.py:61-64 | without a worker to await, everything enqueued has already finished |
| DrainProtocol.OneDrainPerPartition | internal/backlog/tasks/queue.py:66-83 | the queue's one running task per partition means that two drains never share a partition |
| DrainProtocol.OthersUndisturbed | internal/knowledge/decision/service.py:25-111 | what a drain does to its decision and partition leaves every other drain's partition available and decision in place |
| DrainProtocol.ReviewTouches | internal/api/routes_knowledge.py:46-75 | a review action on a decision in review always goes through, approving, discarding or retrying that record only, and frees exactly its partition; any other review action changes nothing |
| DrainProtocol.StepKeepsInv | internal/knowledge/workflow/drain_workflow.py:191-312 | every step of the queue, of a drain or of a reviewer keeps each drain's partition available and its decision where the drain left it |
| DrainProtocol.DrainsUndisturbed | internal/knowledge/workflow/drain_workflow.py:62-312 | under every interleaving no create or transition of a drain is rejected, and no drain creates a decision or writes files in a partition with a decision in review |
| DrainProtocol.StepsTakeEffect | internal/knowledge/workflow/drain_workflow.py:191-312 | under every interleaving each call of a drain takes effect in full: a new record in a partition without a review, the step from accepted to applying, the step to applied or failed, each touching one record and no other lock |
| Runtime.Engine.Execute | internal/runtime/execution/capability_executor.py:64-150 | a successful call asks the tool or skill once, appends exactly the call and its result and counts one call; a raising one appends at most the call and counts none; nothing is asked exactly when a budget is exhausted |
| Runtime.Engine.ValidateAction | internal/runtime/execution/policy.py:14-22 | accepts exactly the capabilities of the request's allowlists |
| Runtime.Engine.ExecuteDecision | internal/runtime/execution/action_runner.py:36-97 | succeeds exactly when every action was executed, in order, each asked once with its three steps logged and its result recorded; when it raises, the actions before were, and the one that raised was not answered; budgets and allowlists are kept |
| Runtime.Engine.ShouldStop | internal/runtime/loop/termination.py:27-57 | failures stop the run as failed without a further question; otherwise acceptance is asked once, and the run stops as completed when it holds, for review when the decision asks for one, as completed when the decision asks to stop, and goes on otherwise |
| Runtime.Engine.Run | internal/runtime/loop/engine.py:39-159 | for every planner the loop ends; it ends failed exactly with a failure in the state, that is a failing capability or a recorded exception; completed only when acceptance held or the last decision asked to stop without a review; for review only when acceptance did not hold and the last decision asked for it. Steps, calls and capabilities stay within budgets and allowlists |
| Runtime.StepBurnsFuel | internal/runtime/execution/capability_executor.py:164-167 | a turn that passed the step check leaves less to do, even on files a reused run left behind |
| Runtime.RuntimeService.LaunchChild | internal/runtime/subrun/contracts.py:84-128 | one child with spawning disabled runs through the same service and leaves the parent's files alone |
| Runtime.ChildRequest | internal/runtime/subrun/contracts.py:84-128 | whatever the parent asks for, the child has the allowlists and budgets asked for it, at least one step, one level more of depth, and may not spawn |
| Runtime.RuntimeService.Evaluate | internal/runtime/completion/gate.py:16-73 | the verifier is asked once, and its verdict passes, retries, fails, delegates while the request may launch a child, or calls for a review |
| Runtime.RuntimeService.Orchestrate | internal/runtime/orchestration/runner.py:41-109 | the self-recursion ends, and the status is the one the last answers give: failed exactly with a failure in the state, a rejecting last verdict or a failed child; completed only when every tool and skill answered well and, with a gate, the last verdict passed or the last child completed; for review otherwise. A request without sub-runs launches none and touches no other run |
| Runtime.RuntimeService.ExecuteRequest | internal/runtime/service.py:118-224 | a fresh run ends with at most max_steps + 3 stored steps and at most max_subruns children, none of which may spawn another; a raising run ends as failed with one fatal step, any other with the status it answers |
| Runtime.RuntimeService.RunRequest | internal/runtime/service.py:115-224 | for every planner, tool, skill and verifier, the answer is failed if and only if a tool or skill failed, an exception was recorded, the last verdict rejected or the last child failed; it is completed only if every tool and skill asked answered that it succeeded and, with a gate, the last verdict passed or the last child completed |
| RuntimeWorld.LoopMeans | internal/runtime/loop/termination.py:27-57 | the last answers of a loop that stopped without a failure decide between completed and review |
| RuntimeWorld.RoundsEnd | internal/runtime/orchestration/runner.py:47-109 | what concluded the last round of a run is what its last answers say |
| RuntimeWorld.EndedUniquely | internal/runtime/orchestration/runner.py:47-109 | two runs with the same answers cannot end with different statuses |
| RuntimeWorld.AllAnswered | internal/runtime/execution/action_runner.py:36-97 | in a run without failures every tool and skill that was asked answered that it succeeded |
| Trace.DecisionNameRoundTrip | internal/runtime/llm/decisioning.py:357 | the turn of a decision is read back from its name, for every turn number |
| Trace.FatalNameHasNoTurn | internal/runtime/trace/recorder.py:296-311 | the fatal step's name yields no turn |
| Trace.ReconstructTurns | internal/runtime/trace/recorder.py:208-263 | the loops over steps and artifacts give the turns by ascending number |
| Trace.ReplayFaithful | internal/runtime/trace/recorder.py:218-247 | while replaying a recorded log, the turns so far are a direct reading of the log so far |
| Trace.ReplayUndoesRecording | internal/runtime/trace/recorder.py:208-311 | for every log the runtime can write and all artifacts, the first turns of the replay are a direct reading of steps and artifacts, one per decision; they are the whole replay if and only if no artifact resolves to a later turn |
| Trace.ReplayReads | internal/runtime/trace/recorder.py:208-247 | for every log, recorded or not, the replay has a turn exactly for the numbers the log was ever set to, and a turn holds, in order and by type, the steps written while it was the current one |
| Trace.ReplayOfAnyLog | internal/runtime/trace/recorder.py:208-263 | for every log and all artifacts, the replay lists by ascending number one turn for each number the log was ever set to or an artifact resolves to, with these steps and the latest artifact of each kind |
| Trace.StepGives | internal/runtime/trace/recorder.py:265-281 | decisions and errors give a turn by their names; any other step by the number or the digits in its input, or else in its output |
| Trace.ArtifactGives | internal/runtime/trace/recorder.py:283-293 | a decision's artifact gives the turn in its metadata, or else the one its id gives; any other artifact the one its title gives |
| Trace.TextGives | internal/runtime/trace/recorder.py:295-311 | a text gives the number after its last colon, or else, for the three kinds of titles, the number that is its last word, and nothing otherwise |
| Trace.LatestIs | internal/runtime/trace/recorder.py:249-261 | a turn keeps the last artifact of each kind that resolves to it |
| Trace.AtMostOneTurnMore | internal/runtime/llm/decisioning.py:145-226 | as long as no model answer sets a turn of its own, the replay has one turn per decision, and one more if and only if the planner was asked for a turn whose decision was never recorded |
| Trace.TitleRoundTrip | internal/runtime/trace/recorder.py:296-311 | the turn of a planner, prompt or response artifact is read back from its title, for every turn number |
| Trace.AsciiLowersTitles | internal/runtime/trace/recorder.py:302-310 | lower-casing ASCII letters keeps every title recognisable |
| Trace.RaisingModelAddsTurn | internal/runtime/llm/decisioning.py:145-176 | a model call that raises in turn 1 leaves a replay of two turns for one decision |
| Trace.ModelTurnAddsTurn | internal/runtime/llm/decisioning.py:339-346 | a model answer with `turn_index` 7 makes the replay differ from the one turn of its decision |
| Trace.StepsLandOnce | internal/runtime/trace/recorder.py:227-247 | going through the turns in order gives, for every type, exactly the log's steps of that type |
| Trace.OneDecisionPerTurn | internal/runtime/trace/recorder.py:228-229 | turn i holds the i-th decision and no other |
| EventStreams.CollapseEvents | internal/knowledge/batch/working_set_builder.py:137-168 | the loop computes the collapsed stream |
| EventStreams.CollapseSegments | internal/knowledge/batch/working_set_builder.py:137-168 | a stream is cut exactly where an event does not join the one before it, and one event is left for each segment: the id, type and time of its last event, the kind of its first or a deletion, the last change of each field, the merged lists and the least priority |
| EventStreams.CollapseConservesSets | internal/knowledge/batch/working_set_builder.py:137-168 | collapsing loses no changed field, related reference or observed facet value, on every stream |
| EventStreams.CollapseConservesBounds | internal/knowledge/batch/working_set_builder.py:137-168 | collapsing a sorted stream keeps its minimum priority and latest time |
| EventStreams.CollapseSettles | internal/knowledge/batch/working_set_builder.py:137-168 | the collapsed stream still has collapsible neighbours, and collapsing again changes it, if and only if the stream re-creates a live resource and later deletes it |
| EventStreams.RecreatedStreamNotSettled | internal/knowledge/batch/working_set_builder.py:137-168 | create, create, delete collapses to two events and, collapsed again, to one |
| EventStreams.LegalStreamsSettle | internal/knowledge/batch/working_set_builder.py:137-168 | where creates stand only first or after a delete, one collapse is final |
| EventStreams.MergeFacetsPairs | internal/knowledge/batch/working_set_builder.py:217-224 | merging facet dictionaries unites their key and value pairs |
| WorkingSet.GroupedPartitions | internal/knowledge/batch/working_set_builder.py:27-33 | grouping gives one non-empty group per resource, holding exactly its events in order |
| WorkingSet.GroupSummarises | internal/knowledge/batch/working_set_builder.py:92-132 | a group of a sorted stream reports exactly the fields, references, facet values, priority, time and cancellation of its events |
| WorkingSet.WorkingSetComplete | internal/knowledge/batch/working_set_builder.py:19-62 | every group reports exactly what the batch says about its resource, and no resource is lost |
| WorkingSet.GroupReports | internal/knowledge/batch/working_set_builder.py:92-132 | in terms of the batch: a group's fields, references and facet values are those of the events about its resource; its priority is 10 for a partition, else 20 with a deletion, 30 with a creation and 50 otherwise; it is cancelled out exactly with a creation and a deletion and no update; its time is the latest |
| WorkingSet.GroupEventIds | internal/knowledge/batch/working_set_builder.py:137-168 | the events about a resource, in chronological order with ties by id, are cut where one does not follow the one before it, and the group names the last event of each stretch |
| WorkingSet.WorkingSetReports | internal/knowledge/batch/working_set_builder.py:19-62 | an id is affected if and only if some event is about a case of that id, once and in group order; the observed facet keys are exactly the normalised keys with a value; groups are in order of priority, latest time and id, one for each resource |
| WorkingSet.OrderInsensitive | internal/knowledge/batch/working_set_builder.py:64-69 | every permutation of a batch's events with distinct ids gives the same working set |
| WorkingSet.Build | internal/knowledge/batch/working_set_builder.py:19-62 | the loops compute the working set; in terms of the batch, the affected ids are exactly those of its case events and the observed keys exactly its normalised facet keys with a value, each once |
| JsonScan.RunCountsBraces | internal/infrastructure/ai/openai_client.py:276-294 | the three-variable automaton counts exactly the braces outside strings |
| JsonScan.SkipStringIs | internal/infrastructure/ai/openai_client.py:276-287 | a string literal goes on to the first quote with an even number of backslashes before it, or to the end of the text |
| JsonScan.NetIs | internal/infrastructure/ai/openai_client.py:276-294 | up to the next quote every brace counts, and from a quote on counting resumes after its literal |
| JsonScan.FirstObjectUnique | internal/infrastructure/ai/openai_client.py:268-295 | a text has at most one first balanced object |
| JsonScan.ExtractFirstJsonObject | internal/infrastructure/ai/openai_client.py:268-295 | returns the shortest prefix from the first brace whose braces outside strings balance, and None exactly when there is none |
| JsonScan.ObjectExtracted | internal/infrastructure/ai/openai_client.py:268-295 | for every object of the grammar of RFC 8259, every prefix without an opening brace and every suffix, the object is the scanner's result |
| Fields.MergeKeepsItems | internal/knowledge/batch/working_set_builder.py:208-214 | merging lists unites their stripped non-blank items |
| Fields.MergeInOrder | internal/knowledge/batch/working_set_builder.py:208-214 | merged lists keep the order in which their items first appear |
| Fields.ValidatedAt | internal/models/semantic_fields.py:11-27 | under each stripped key stand the cleaned values of the last field with that key |
| Fields.ValidatedIsFieldSet | internal/models/semantic_fields.py:11-27 | validation gives stripped distinct keys over clean lists |
| Fields.FieldSetFixed | internal/models/semantic_fields.py:11-27 | validating a validated field set changes nothing |
| Fields.CleanFixed | internal/models/common.py:15-28 | normalising a normalised list changes nothing |

## Left out

- Runtime.RuntimeService.Orchestrate: a child run id is reused with its step count reset, so the step bound is stated for fresh runs only; children are shown to end and not to spawn.
- Trace.ReconstructTurns: artifacts of kinds other than the five the runtime records are left out; `isdigit` is modelled for ASCII digits.
- Drain.DrainWorkflow.Finish: failures after `git add`, a rollback command that itself fails, and crashes between a lock write and a decision save are not modelled; the code does not restore these states.
- WritePath.Partition.CreateNew: partition existence checks and embeddings, which come before any write, are dropped; failures after `git add` are not modelled.
- MutationExecution.MutationExecutor.ValidatePlan: cases are looked up in one partition; a change naming a case of another partition is reported as not found rather than as a mismatch, and both raise.
- GitRepository.Workspace.Commit: paths stand for single files; path quoting, renames, ignore rules and nested repositories are left out, and lists of paths are sets.
- Governance.Decide: a runtime that raises ends the drain before anything is planned; reasons, summaries and metadata are dropped.
- Titles, texts, summaries and case metadata are one opaque `body`; display names, descriptions and examples of a definition one opaque `info`.
- Reasons, stages, fingerprints and execution details of decision records.
- Proposal plugins, coverage, freeze policy and circuit breaker: threshold checks that would add only easy members.
- Event backlog readiness and retries, query ranking, API schemas, Elasticsearch, OpenAI calls, prompts and extractors.
- Query statistics, which share the aggregator modelled here.
- Timestamps of snapshots and `last_seen_at` of index entries.
