# Verified model of the HiRoute engineering tools

HiRoute's repository is kept honest by a set of tools: a closure engine that fills in model metadata, a build
workbench that admits, continues and cleans up checkouts, schedulers and parsers that decide whether a run is
green, a planner that chooses checks for a change, and an installer that replaces components. This project models
the decisions those tools take and proves what they promise, over every input and every interleaving.

| files | what they model |
|---|---|
| `Json`, `ModelFields`, `ModelClosure`, `ModelPass`, `ModelFirstMatch`, `ModelIdempotence`, `ModelValidator` | the closure of one model record and its independent validator |
| `ProviderClosure`, `ProviderIdempotence`, `ProviderKept`, `ProviderRestored`, `ProviderTables`, `ProviderValidator` | the closure of one provider record, when a second pass changes nothing, and its validator |
| `MetadataCatalog`, `CatalogRun`, `CatalogValidator` | the closure of a whole catalog, and the validator's view of it |
| `SlotAdmission`, `SlotCapacity` | workbench slots shared by any number of workers that may crash |
| `Continuation`, `RetainedCheckout` | reuse and continuation of a retained checkout |
| `PilotLeases`, `PilotBuilds`, `ManagedCleanup` | leases on a reusable Pilot build, and what cleanup deletes |
| `ReplaceComponents` | the installer's undo log |
| `DagScheduler`, `DagPool`, `DagCatalog`, `DagVerdict`, `DagComplete`, `SmokePartition`, `ParseLog` | test scheduling, log parsing and the verdicts built on them |
| `TestSelection`, `TestPlan`, `TestPaths`, `CiShards` | which checks a change obliges and how a full plan is sharded |
| `Wrappers` | options and lemmas that several modules share |
| `ErrorCode`, `RegressionGate` | the diagnostic-code search and the benchmark timing gate |

Algorithms that work step by step are methods and classes proved against specification functions; protocols are
state machines whose steps are exactly the atomic actions (one try-lock, one save, one rename, one HEAD move)
between which other processes may act or a process may die. Regular expressions, hashes, Git's ancestor relation,
completion orders, fault patterns and clocks are parameters, so every theorem holds for any choice of them.

## What the proofs found

- The closure is not idempotent on every catalog, although its module text says so (lines 13-14). An observed
  `reasoning_rendering_hints` with a `state` key is wiped and then reported as open. `ModelIdempotence.FixpointIff`
  gives the exact condition, `ModelIdempotence.IdempotenceFails` a record.
- A provider record can change on the second pass in two ways: two recorded domains cite rules that give one field
  different values (`ProviderKept.ConflictIsUnsettled`, `ProviderIdempotence.SharedFieldNeverSettles`), or a domain
  cites another domain's rule, so that discarding it empties a field that rule still owns
  (`ProviderKept.ForeignCitationUnsettles`). `ProviderTables.TableSettlesIff` is the exact condition on the rule table
  under which no record of a provider ever does: no rule that matches it is overwritten by the first rule of another
  domain, and none loses a field that the first rule of the discarded domain does not give back. Record by record, all
  later passes in every visiting order change nothing if and only if every recorded domain still is what its rule
  assigns (`ProviderKept.FixpointIff`); a single order can restore a conflict by accident
  (`ProviderRestored.RestoredByAccident`). `MetadataCatalog.CatalogAlwaysFixpointIff` and `HarmoniousFixpointIff` are
  the conditions for a whole catalog.
- Between the check and the commit of `acquire`, a raw release, preview and apply can delete the checkout. The
  commit then writes back the row it loaded earlier: the removal is forgotten and a lease is open on nothing.
  `PilotLeases.LeasesServedIff` proves that such commits are the only way this happens, in any run. The same stale
  row overwrites a raw verdict recorded in between (`PilotLeases.RawVerdictLostIff`).
- Test selection is not monotone in one more case than the two focused diagnostics commands: the lint of
  `hiroute-product-e2e` is dropped when a product group joins a change of the gateway client source.
  `TestSelection.LosesExactly` lists everything that can be lost, as an if-and-only-if; `TestPaths` shows each loss on
  paths of the repository.
- The shards run more than the canonical command when a target is switched off in its manifest, because an explicit
  selection ignores that switch (`CiShards.ShardsAreExactIff`).
- The revisions in a checkout's state file can go back after an interrupted continuation. HEAD and the revisions
  commands start on cannot (`Continuation.RecordedAscendsUnlessInterrupted`, `Continuation.StartedRevisionsAscend`).
- A clean roll-back of the installer restores everything except a path whose replacement was interrupted by an
  asynchronous exception before it was logged; that value stays in a directory that nothing deletes.
  `ReplaceComponents.Disk.Replace` says exactly when, `ReplaceComponents.InterruptedUpdate` is such a run.
- An exception between two undo steps of that roll-back escapes before the roll-back counts as incomplete, so the
  backups are deleted: the update stays half done, and exactly the destinations changed by the components not yet
  undone lose their prior value (`ReplaceComponents.Disk.Replace`, `ReplaceComponents.EscapedUpdate`).
- The benchmark gate counts any positive throughput as an unbounded regression of a zero one
  (`RegressionGate.GainIsMonotone`).

## Model

| member | source | states |
|---|---|---|
| Json.CanonicalIdempotent | tools/model-metadata/close_model_metadata.py:113-127 | normalising a normalised value changes nothing, for every JSON value and any text encoding |
| Json.SortUniqueAscending | tools/model-metadata/close_model_metadata.py:116-123 | the normalised list ascends strictly by key and holds only given items |
| Json.SortUniqueKeySet | tools/model-metadata/close_model_metadata.py:116-123 | and no key of the given list is lost |
| ModelFields.LookupFinds | tools/model-metadata/close_model_metadata.py:457-459 | the rule index returns a rule of the table with that key, or no rule has it |
| ModelClosure.ResetCell | tools/model-metadata/close_model_metadata.py:150-171 | a reset field is indeterminate, whichever field it is |
| ModelClosure.NoProblemMeans | tools/model-metadata/close_model_metadata.py:291-334 | a pass succeeds exactly when no problem can be reported |
| ModelPass.ModelRecord.Close | tools/model-metadata/close_model_metadata.py:278-367 | the in-place pass reports exactly the declared problems, and without any leaves exactly the record described field by field |
| ModelPass.ModelRecord.DropStale | tools/model-metadata/close_model_metadata.py:291-315 | the loop over provenance drops exactly the stale entries, resets exactly their fields and reports malformed or non-closable ones |
| ModelPass.ModelRecord.CloseOpen | tools/model-metadata/close_model_metadata.py:316-348 | the closing loop fills every open field from the first applicable rule and reports the fields no rule closes |
| ModelPass.PassIsDeclarative | tools/model-metadata/close_model_metadata.py:287-367 | dropping, closing and settling in sequence amount to one independent decision per field |
| ModelFirstMatch.FirstRuleIsFirst | tools/model-metadata/close_model_metadata.py:327-337 | the search stops at the least index that assigns the field and matches, or no rule does |
| ModelFirstMatch.FreshFieldIsFirstMatch | tools/model-metadata/close_model_metadata.py:287-348 | without provenance a determinate fact keeps its canonical value unmarked, an indeterminate one takes the first matching rule's value and cites it |
| ModelFirstMatch.FreshSuccessIff | tools/model-metadata/close_model_metadata.py:325-344 | without provenance a pass succeeds exactly when some matching rule assigns each indeterminate fact |
| ModelFirstMatch.NothingLeftOpenIff | tools/model-metadata/close_model_metadata.py:4-11 | success leaves no unmarked fact indeterminate, except exactly where an observed hints state was wiped |
| ModelIdempotence.FixpointIff | tools/model-metadata/close_model_metadata.py:13-14 | a second pass succeeds and changes nothing if and only if the rendering hints settle |
| ModelIdempotence.FieldSettles | tools/model-metadata/close_model_metadata.py:304-337 | every field but the rendering hints is left alone by the second pass, retained provenance included |
| ModelIdempotence.TidyFixpointIff | tools/model-metadata/close_model_metadata.py:353-361 | with rules whose only state form is exactly not-applicable, only an observed state key breaks idempotence |
| ModelIdempotence.IdempotenceFails | tools/model-metadata/close_model_metadata.py:353-361 | a fully observed record that closes without any rule and whose second pass is not the same |
| ModelValidator.CheckClosureProvenance | tools/model-metadata/validate_inference_rules.py:253-339 | reports exactly the entries that are not traceable, each once |
| ModelValidator.ClosedIsTraceableIff | tools/model-metadata/validate_inference_rules.py:278-339 | a closed model record passes the validator exactly when kept entries have no extra keys and the hints used no irregular state |
| ModelValidator.TidyIsTraceable | tools/model-metadata/validate_inference_rules.py:318-338 | with such rules and two-key entries every closed record passes |
| ProviderClosure.ProviderRecord.Close | tools/model-metadata/close_model_metadata.py:370-436 | the in-place pass succeeds exactly when provenance is well formed and yields the composed drops, rules and scenarios |
| ProviderClosure.ProviderRecord.DropStaleDomains | tools/model-metadata/close_model_metadata.py:380-410 | the loop in any visiting order equals dropping one recorded domain after the other |
| ProviderClosure.ProviderRecord.ApplyProviderRules | tools/model-metadata/close_model_metadata.py:411-430 | the loop equals applying one rule after the other |
| ProviderIdempotence.ProviderFixpoint | tools/model-metadata/close_model_metadata.py:13-14 | closing a provider twice is closing it once, in whatever orders its domains are visited, when domains assign different fields and entries cite their own domain |
| ProviderIdempotence.SharedFieldNeverSettles | tools/model-metadata/close_model_metadata.py:403-430 | a table of one endpoint and one discovery rule with different values for their only field: the second pass, in any order, changes an open record of every provider both match |
| ProviderKept.FixpointIff | tools/model-metadata/close_model_metadata.py:370-436 | all later passes, in every visiting order, change nothing if and only if every recorded domain still is what its rule assigns; no rule that concerns the provider rejects the empty model id |
| ProviderKept.ConflictIsUnsettled | tools/model-metadata/close_model_metadata.py:403-430 | in any such table, two recorded domains whose rules give one field different values are not settled |
| ProviderKept.NoneKeptNeverSettles | tools/model-metadata/close_model_metadata.py:380-410 | in any such table, with no recorded domain as its rule assigns it every second pass changes the record |
| ProviderKept.ForeignCitationUnsettles | tools/model-metadata/close_model_metadata.py:403-410 | one rule cited by its own and by another domain: closing in sorted order empties its field, and the next pass changes the record, for every provider it matches |
| ProviderRestored.FixpointInOrderIff | tools/model-metadata/close_model_metadata.py:370-436 | for any table and entries, one second pass in one order changes nothing exactly when its rules, replayed, close what it discards as it was; the conditions over all orders say what that takes |
| ProviderRestored.RestoredByAccident | tools/model-metadata/close_model_metadata.py:380-430 | a conflicting pair of domains that the sorted order restores and another order changes |
| ProviderTables.TableSettlesIff | tools/model-metadata/close_model_metadata.py:370-436 | one pass settles every record of a provider, in every order, if and only if no two rules of its table are at odds: with entries that cite their own domain, and with any entries |
| ProviderTables.SurvivorFacts | tools/model-metadata/close_model_metadata.py:380-410 | in any table, a domain that survives the discarding holds its rule's values, save fields emptied with a domain discarded later |
| ProviderTables.HeldToTheEnd | tools/model-metadata/close_model_metadata.py:411-430 | a field that holds a rule's value, or is about to be assigned again, holds it at the end of the pass |
| ProviderTables.FiredMatches | tools/model-metadata/close_model_metadata.py:411-430 | in such a table every domain closed in the pass ends as its rule assigns it |
| ProviderTables.EmptiedForGood | tools/model-metadata/close_model_metadata.py:403-430 | a record whose field is emptied with a stale domain and not given back |
| ProviderTables.DisjointIsHarmonious | tools/model-metadata/close_model_metadata.py:370-436 | in particular rules of different domains that share no field are not at odds |
| ProviderTables.RejectedRuleSettles | tools/model-metadata/close_model_metadata.py:262-275 | a rule whose model pattern rejects the empty id is discarded and applied again by every pass: settled, yet never kept |
| ProviderValidator.CheckClosureProvenance | tools/model-metadata/validate_inference_rules.py:253-315 | reports nothing exactly when every recorded domain is traceable |
| ProviderValidator.ClosedIsTraceableIff | tools/model-metadata/validate_inference_rules.py:278-315 | a closed provider passes the separate check exactly when surviving entries have no extra keys and every recorded domain is what its rule assigns |
| ProviderValidator.TraceableIffSettled | tools/model-metadata/validate_inference_rules.py:278-315 | with two-key entries, and no concerned rule that rejects the empty model id, a closed provider passes the separate check exactly when closing it again, in any order, changes nothing |
| MetadataCatalog.SortFacts | tools/model-metadata/close_model_metadata.py:520-522 | sorting yields a sorted permutation |
| MetadataCatalog.SortKeepsLast | tools/model-metadata/close_model_metadata.py:462-464 | sorting is stable enough that a dictionary built from the list is the same |
| MetadataCatalog.AddedSourcesHeld | tools/model-metadata/close_model_metadata.py:465-472 | after the additions each of them is what the catalog holds under its key, and older sources stay |
| MetadataCatalog.AddedRecordsPresent | tools/model-metadata/close_model_metadata.py:477-512 | every added record is present afterwards, its provider is known, and no earlier record moves |
| MetadataCatalog.ProvidersStay | tools/model-metadata/close_model_metadata.py:518-521 | a second run over the sorted closed providers succeeds, and returns the same list exactly when each pass restores what it discards |
| MetadataCatalog.SecondRunModels | tools/model-metadata/close_model_metadata.py:514-520 | a second run over the sorted closed models returns the same list exactly when every record's hints settle |
| MetadataCatalog.SecondRunAdds | tools/model-metadata/close_model_metadata.py:462-555 | a second run adds no source, record, vocabulary or encoding rule |
| MetadataCatalog.ObservedFactsRaiseLevels | tools/model-metadata/close_model_metadata.py:561-600 | facts a successful pass did not infer leave the lifecycle, modality and limit levels present |
| MetadataCatalog.CapabilitiesAreSettled | tools/model-metadata/close_model_metadata.py:561-572 | four observed capabilities are complete exactly when none is conditional |
| MetadataCatalog.CatalogFixpointIff | tools/model-metadata/validate_inference_rules.py:242-249 | closing the result of a successful close, in one given visiting order, succeeds and equals it exactly when every model's hints settle and every provider pass, replayed, restores what it discards; the next two rows carry the conditions |
| MetadataCatalog.CatalogAlwaysFixpointIff | tools/model-metadata/validate_inference_rules.py:242-249 | it does so in every visiting order exactly when the hints settle and every recorded provider domain is what its rule assigns; no concerned rule rejects the empty model id |
| MetadataCatalog.HarmoniousFixpointIff | tools/model-metadata/validate_inference_rules.py:242-249 | with provider rules not at odds the rendering hints alone decide |
| CatalogRun.MergeEncodings | tools/model-metadata/close_model_metadata.py:552-555 | the loop adds exactly the encoding rules that are missing |
| CatalogRun.MergeSources | tools/model-metadata/close_model_metadata.py:465-472 | the loop merges like the specification and fails exactly on a conflict |
| CatalogRun.MergeRecords | tools/model-metadata/close_model_metadata.py:477-512 | the loop adds like the specification and fails exactly on a missing provider |
| CatalogRun.CloseAllModels | tools/model-metadata/close_model_metadata.py:514-517 | closes every record in place and derives its members; succeeds exactly when every record closes |
| CatalogRun.Working.Run | tools/model-metadata/close_model_metadata.py:453-558 | the whole close succeeds exactly when the specification does and then leaves exactly its catalog |
| CatalogValidator.ClosedCatalogIsTraceableIff | tools/model-metadata/validate_inference_rules.py:253-339 | a catalog that close returns passes the separate provenance check exactly when every model and provider record closes exactly |
| CatalogValidator.HarmoniousCatalogIsTraceable | tools/model-metadata/validate_inference_rules.py:253-339 | in particular with rendering rules of the repository's form, provider rules not at odds and two-key entries |
| SlotAdmission.StepKeeps | scripts/remote-rust.py:127-157 | every try-lock, close, start, exit and crash of any worker keeps mutual exclusion and the all-or-nothing shape |
| SlotAdmission.RunningHoldsWhatItAsked | scripts/remote-rust.py:77-84 | an admitted worker, or a monitor it left behind, holds exactly the slots asked for and all legacy locks |
| SlotAdmission.SlotsAreExclusive | scripts/remote-rust.py:134-140 | in every reachable state a slot has at most one holder |
| SlotAdmission.LegacyWorkersAreExcluded | scripts/remote-rust.py:122-132 | while an old worker holds a legacy lock no request holds it and none runs |
| SlotAdmission.ExclusiveIsAlone | scripts/remote-rust.py:530-534 | while all eight slots are one request's, no other request holds a slot or runs and no old worker holds a lock |
| SlotAdmission.SleepersHoldNothing | scripts/remote-rust.py:147-153 | a refused attempt holds no lock while it sleeps |
| SlotAdmission.JobsAreBounded | scripts/remote-rust.py:577-617 | however many requests compile at once, dead workers' monitors included, they do so with at most 64 jobs together |
| SlotCapacity.Capacity.Acquire | scripts/remote-rust.py:121-157 | against any try-lock answers: admitted at the first attempt that can be, with exactly its handles, or timed out holding nothing |
| SlotCapacity.Capacity.Attempt | scripts/remote-rust.py:129-146 | admitted exactly when no old worker blocks and enough slots answer, with the lowest ones |
| SlotCapacity.ScanFromStart | scripts/remote-rust.py:127-145 | the interleaved steps of one worker, taken without interference, end as the loop does |
| Continuation.StepKeeps | scripts/remote-rust.py:277-303 | every step of every worker keeps the lease, state-file and history invariant and moves HEAD only forward |
| Continuation.ChainNeverForks | scripts/remote-rust.py:285-299 | a run whose continuation passed its checks is never continued again, and the checks see HEAD at the recorded revision |
| Continuation.CommandsRunOnTheirTree | scripts/remote-rust.py:547-560 | while a command or its orphaned monitor runs, HEAD is its run's revision and the state file names it |
| Continuation.StartedRevisionsAscend | scripts/remote-rust.py:300-302 | the revisions commands started on, and HEAD, only move to descendants |
| Continuation.RecordedAscendsUnlessInterrupted | scripts/remote-rust.py:300-302 | a step takes the recorded revision back exactly when it records a reuse after an interrupted continuation |
| Continuation.RecordedCanGoBack | scripts/remote-rust.py:246-265 | such a history is reachable for every pair of revisions in ancestor order |
| RetainedCheckout.Checkout.Continue | scripts/remote-rust.py:277-303 | refuses without a change, or saves the intent and then moves HEAD, also when the worker dies in between |
| RetainedCheckout.Checkout.Prepare | scripts/remote-rust.py:536-560 | whatever path and death, the worker's actions are a history the state machine allows, and a command starts only on the requested revision |
| PilotLeases.StepKeeps | scripts/pilot-builds.py:181-319 | acquire, start, finish, raw commands and crashes keep: ready only with all leases closed, sound verdicts, one open lease per owner |
| PilotLeases.DeletionIsSafe | scripts/local-rust.py:171-200 | a checkout is deleted only with all leases closed and fully assessed, keep unset, evidence saved, a finished run and an unchanged row and snapshot |
| PilotLeases.VerdictsAreFinal | scripts/pilot-builds.py:283-304 | through any run a closed lease is never rewritten, reopened or lost |
| PilotLeases.GreenWasReady | scripts/pilot-builds.py:287-290 | a green case has a session that reached ready under that lease |
| PilotLeases.PassesIffAllGreen | scripts/pilot-builds.py:308-311 | when the last lease closes the scenario is green exactly if every verdict of every lease is, and failed exactly if one is red |
| PilotLeases.OneOpenLeaseEach | scripts/pilot-builds.py:224-232 | an owner never has two open leases on one build |
| PilotLeases.LeasesServedIff | scripts/pilot-builds.py:205-235 | in every run each open lease finds its checkout in every state if and only if no acquisition commits after a deletion |
| PilotLeases.CommitsOnlyIfRaced | scripts/pilot-builds.py:205-235 | an acquisition commits after a deletion only if a deletion fell between its check and its commit |
| PilotLeases.ServedUnlessRaced | scripts/pilot-builds.py:205-235 | with acquisitions counted as owners from their check on, exactly the deletions between a check and its commit cut off an owner |
| PilotLeases.OwnersServedIfNotRaced | scripts/pilot-builds.py:205-235 | without such a deletion every owner is served to the end and a recorded removal is never unset |
| PilotLeases.RacedCommitForgetsDeletion | scripts/pilot-builds.py:223-235 | a commit after a deletion leaves an open lease on a missing checkout and an unset removal flag |
| PilotLeases.DeletionCanRace | scripts/pilot-builds.py:200-235 | that state is reachable for any two lease ids |
| PilotLeases.RawVerdictLostIff | scripts/pilot-builds.py:200-234 | an acquisition restores the scenario it loaded: a raw verdict recorded in between is lost exactly if it differs |
| PilotLeases.RawVerdictCanBeLost | scripts/pilot-builds.py:200-234 | a red verdict overwritten in this way is reachable |
| PilotBuilds.Build.Commit | scripts/pilot-builds.py:223-235 | is the state machine's commit of the owner's open lease or a fresh one, and refuses exactly when no commit is possible |
| PilotBuilds.Build.Start | scripts/pilot-builds.py:239-265 | is the state machine's recording of a starting session and then its launch or its crash, for a declared, unstarted case of an open lease on a verified build, and no step otherwise |
| PilotBuilds.Build.Apply | scripts/local-rust.py:171-200 | succeeds exactly when the state machine allows the deletion and the removal comes back; it is the deletion and then its recording, or a crash before it |
| PilotBuilds.Build.RawFinish | scripts/local-rust.py:427-443 | is the state machine's raw verdict exactly when that is enabled, and no step otherwise |
| PilotBuilds.Build.Finish | scripts/pilot-builds.py:267-304 | is the state machine's recording of the assessments exactly when evidence is confirmed, cases are distinct and that step is enabled |
| PilotBuilds.Build.Settle | scripts/pilot-builds.py:305-312 | is the state machine's settling: nothing while a lease is open; otherwise the worst verdict decides and the row becomes ready for cleanup |
| ManagedCleanup.RebuildsAll | scripts/local-rust.py:121-146 | a verified checkout without target/debug is exactly what the commit and the exported entries give back |
| ManagedCleanup.Workspace.Remove | scripts/local-rust.py:171-200 | a managed checkout is touched only with everything but target/debug recoverable, also when its removal stops half-way; a developer checkout loses only target/debug; a refusal changes nothing of it |
| ManagedCleanup.Workspace.ExportTarget | scripts/local-rust.py:202-222 | exports every entry exactly, or stops at a link or a failed copy; other artifacts are untouched |
| ReplaceComponents.Disk.Replace | scripts/install-standalone.py:467-501 | for any components and faults: replaced exactly if no component is struck; a clean roll-back loses from its place exactly a present destination whose first-struck component was interrupted; an incomplete one keeps every value; an escaped one loses exactly what the components not yet undone have changed |
| ReplaceComponents.InterruptedUpdate | scripts/install-standalone.py:467-501 | a run that ends with a clean roll-back and the component gone from its place |
| ReplaceComponents.EscapedUpdate | scripts/install-standalone.py:484-501 | a run cut off during its roll-back: a component stays updated and its prior value is gone |
| ReplaceComponents.UntroubledUpdate | scripts/install-standalone.py:467-483 | without an adversary every component is replaced, whatever was there |
| ReplaceComponents.UndoPeels | scripts/install-standalone.py:486-491 | each clean undo step takes exactly one component's layer off, repeated destinations included |
| ReplaceComponents.StruckIff | scripts/install-standalone.py:472-483 | which component fails can be told from the files at the start |
| ReplaceComponents.Disk.RollBack | scripts/install-standalone.py:484-497 | undoing in reverse order, going on after failures, restores every destination when clean, loses no prior value, and cut off early leaves the update of the first components |
| ReplaceComponents.LogExtends | scripts/install-standalone.py:472-483 | logging one more replacement keeps the first backup of every destination, repeated destinations included |
| ReplaceComponents.UndoKeeps | scripts/install-standalone.py:486-491 | undoing the newest entry keeps older backups and what was already given back |
| DagScheduler.StepKeeps | scripts/validation-schedule.py:655-683 | every step of either lane keeps the pool bound, the prefix of admitted targets and the reason for any idle place |
| DagScheduler.PoolIsBounded | scripts/validation-schedule.py:657-669 | at most `workers` targets of a lane are active |
| DagScheduler.AdmitsAPrefixOnce | scripts/validation-schedule.py:658-683 | the admitted targets are a prefix of the list, each running or with exactly one result |
| DagScheduler.EndCoversUnlessStopped | scripts/validation-schedule.py:668-683 | a lane that ends short of its list was stopped or lost a worker to a failure; without fail-fast it covers it |
| DagScheduler.StopMeansFailure | scripts/validation-schedule.py:680-681 | the stop event is set exactly when a collected target failed in a fail-fast run |
| DagScheduler.NothingAfterStop | scripts/validation-schedule.py:658-667 | once stop is set a lane admits at most the target whose check came before |
| DagScheduler.RunsAreBounded | scripts/validation-schedule.py:670-683 | every interleaving is finite, bounded by the work it starts with |
| DagScheduler.SomethingIsEnabled | scripts/validation-schedule.py:668-683 | a lane that has not ended can always take a step |
| DagPool.TargetPool.RunTargets | scripts/validation-schedule.py:593-683 | for any completion order and any outside stop: one result per admitted target, the whole list unless stopped, nothing after a stop; and every such run is a run of the two-lane state machine |
| DagCatalog.DeclaredTargets | scripts/validation-schedule.py:286-296 | accepts exactly when there is a test target and no two share a key |
| DagCatalog.Catalog | scripts/validation-schedule.py:298-344 | accepts exactly the complete builds, with one row for each declared target naming its one executable |
| DagVerdict.CompleteMeansExecuted | scripts/validation-schedule.py:643-653 | a result is complete exactly if its target exited with zero and its log is one finished target with exactly the listed cases |
| DagVerdict.VerdictIsSound | scripts/validation-schedule.py:797-803 | a complete verdict means every target was executed exactly once, as listed, without a failure |
| DagVerdict.TotalClauseIsImplied | scripts/validation-schedule.py:802-803 | the final comparison of totals follows from the per-target checks |
| DagVerdict.CompleteRunIsSound | scripts/validation-schedule.py:749-803 | for any interleaving of the two lanes a complete verdict executed every target of the run without a failure |
| DagComplete.DeclaredTargetsRan | scripts/validation-schedule.py:286-344 | a complete verdict over a complete build: every declared test target ran as exactly one target, from its one executable, with exactly the cases that lists, none failed |
| DagComplete.OnlyDeclaredTargetsRan | scripts/validation-schedule.py:298-344 | every target of the run is a declared one |
| SmokePartition.AcceptedListingIsPartitioned | scripts/validation-schedule.py:24-45 | the exact-name lane and the skip lane split an accepted listing without loss or overlap |
| SmokePartition.PassedCountsEachOnce | scripts/validation-schedule.py:231-261 | the lane totals of a passing aggregate are the sizes of the two lanes |
| ParseLog.OneTarget | scripts/validation-report.py:94-105 | a target's expectation is its first running line, its counts are its last summary's, complete exactly if they agree in that order |
| ParseLog.OneTargetCases | scripts/validation-report.py:109-113 | a case is recorded with the state all its lines agree on, or as a conflict |
| ParseLog.Concatenation | scripts/validation-report.py:78-116 | a log that starts with a header adds its own records after those of any earlier log |
| ParseLog.StartOnlyShifts | scripts/validation-report.py:78-116 | where a log starts changes line numbers and nothing else |
| ParseLog.TargetInContext | scripts/validation-report.py:78-116 | a target's record in a whole log is the record of its own lines |
| ParseLog.CompleteIsUnambiguous | scripts/validation-report.py:117-123 | a row is complete exactly if its target occurs once and its last summary equals its first announcement |
| ParseLog.Parser.Parse | scripts/validation-report.py:70-130 | the loop computes the specified log and one row for each module |
| TestPlan.Select | scripts/test-plan.py:82-203 | the plan has exactly the commands that the classes of its paths ask for |
| TestPlan.OrderDoesNotMatter | scripts/test-plan.py:90 | order and repetition of paths do not change the plan |
| TestPlan.MorePathsKeepObligations | scripts/test-plan.py:82-203 | more paths, or the full flag, lose an obligation exactly in the listed cases |
| TestSelection.LosesExactly | scripts/test-plan.py:142-195 | what an extension of a scope loses, as an if-and-only-if for every obligation |
| TestSelection.LintedWhen | scripts/test-plan.py:146-178 | exactly which packages a plan lints |
| TestSelection.TestedWhen | scripts/test-plan.py:146-181 | exactly which targets a plan tests |
| TestSelection.ProductLintIsLost | scripts/test-plan.py:162-176 | adding any product source to a gateway client change drops the lint of the product tests |
| TestPaths.CrateFileIsOwned | scripts/test-plan.py:82-140 | a source file of a crate belongs to its crate's group, or asks for everything |
| TestPaths.PathsLoseProductLint | scripts/test-plan.py:162-176 | the gateway client source together with any source file of a product crate: the lint of the product tests is gone |
| TestPaths.PathsLoseDiagnosticsGates | scripts/test-plan.py:142-195 | the diagnostics level together with any path that asks for the full plan: both focused diagnostics commands are gone |
| TestPaths.LockLosesDiagnosticsGates | scripts/test-plan.py:142-195 | the diagnostics level together with the lock file, for instance |
| CiShards.IntegrationTargets | scripts/ci-shards.py:123-138 | finds exactly the integration targets of the workspace, or refuses a tested target of an uncovered kind |
| CiShards.VerifyAssignments | scripts/ci-shards.py:141-162 | accepts exactly a disjoint, unsplit table of exactly those targets |
| CiShards.FullCommands | scripts/ci-shards.py:172-192 | produces the shards exactly for an accepted table, the declared shard names and a plan with one canonical test, quality commands and gates |
| CiShards.IntegrationTargetRunsOnce | scripts/ci-shards.py:18-20 | each integration target is run by exactly one shard, the one it is assigned to |
| CiShards.ShardsMissNothing | scripts/ci-shards.py:172-192 | nothing the canonical test runs is missing from the shards |
| CiShards.ShardsAreExactIff | scripts/ci-shards.py:172-192 | the shards run exactly the canonical set if and only if no selectable target is switched off |
| CiShards.OtherCommandsKept | scripts/ci-shards.py:177-187 | every other command goes to exactly one shard, as often as the plan has it |
| ErrorCode.FoundCodeIsReachable | apps/desktop/src/error-code.ts:5-23 | a returned code is the code of one string reachable from the error, on every graph |
| ErrorCode.FallbackMeansNoCode | apps/desktop/src/error-code.ts:8-22 | a search that ends below its limit proves that no reachable string has a code |
| ErrorCode.OwnCodeComesFirst | apps/desktop/src/error-code.ts:19-20 | an object's message key wins over its code, and both over what it wraps |
| ErrorCode.SafeDiagnosticCode | apps/desktop/src/error-code.ts:5-23 | terminates on cyclic graphs, expands at most twelve objects and returns the first match in order or the fallback |
| RegressionGate.RegressionIsMonotone | scripts/summarize-p0-gateway-benchmarks.py:333-339 | a larger base and a smaller candidate never make a larger regression, zero bases included |
| RegressionGate.NeverAboveObserved | scripts/summarize-p0-gateway-benchmarks.py:368-384 | granting the intervals never reports more than the means |
| RegressionGate.GainIsMonotone | scripts/summarize-p0-gateway-benchmarks.py:333-339 | where more is better, a better candidate never makes a larger regression, exactly unless the base and the old candidate are zero and the new one is not |
| RegressionGate.WiderIntervalsReportLess | scripts/summarize-p0-gateway-benchmarks.py:371-374 | widening either interval never reports more |
| RegressionGate.GateIsNeverStricter | scripts/summarize-p0-gateway-benchmarks.py:387-398 | no candidate that passes on plain means is rejected |
| RegressionGate.AddThresholdError | scripts/summarize-p0-gateway-benchmarks.py:346-356 | appends one error exactly when the candidate is worse by more than five percent of the base, in the given direction, a zero base being worse with anything but zero |
| RegressionGate.AddConfidenceAwareTimingError | scripts/summarize-p0-gateway-benchmarks.py:387-398 | appends one error exactly when the candidate's lower bound is above the base's upper bound by more than five percent of it |

## Left out

- ProviderIdempotence.ProviderFixpoint: a sufficient condition, which unlike ProviderTables.TableSettlesIff also covers rules whose model pattern rejects the empty id.
- ProviderKept.FixpointIff: about providers that no rule with a model pattern rejecting the empty id concerns, as in the repository's table; ProviderTables.RejectedRuleSettles shows that the condition is another one otherwise, and ProviderRestored.FixpointInOrderIff applies. The same holds for ProviderTables.TableSettlesIff, ProviderValidator.TraceableIffSettled and MetadataCatalog.CatalogAlwaysFixpointIff.
- ReplaceComponents.Disk.Replace: asks that staged values live apart from the destinations, as the installer's fresh staging directories do; destinations are taken as independent paths, none inside another.
- RegressionGate.NeverAboveObserved: over real numbers and non-negative half-widths; floating-point rounding and not-a-number inputs are not modelled.
- DagScheduler.NothingAfterStop: recording a failed result and raising the stop event are one step, since the result list is private to its lane.
- PilotLeases.DeletionIsSafe: hashing of row and snapshot is taken as injective; the build's own Git, session and Debug-level checks are environment facts.
- PilotLeases.VerdictsAreFinal: one build row; a build whose row is removed is replaced by a fresh row with its own history.
- PilotBuilds.Build.Commit: the saves that `acquire` makes of a fresh build's row before its first lease (scripts/pilot-builds.py:215-222), which can also overwrite a raw command, lie before the modelled start.
- Continuation.ChainNeverForks: the request's plan, branch, retention and driver digests are environment facts that only refuse more.
- CiShards.ShardsAreExactIff: Cargo's rule that an explicit selection ignores a target's `test` setting is part of the model, not of the repository.
- TestPlan.Select: commands are compared as a set; their order, their exact arguments and the feature flags of a focused run do not affect coverage here.
- MetadataCatalog.CatalogFixpointIff: key order of JSON objects is not part of a value; the order in which a provider's domains are visited is a parameter.
- ParseLog.OneTarget: lines are already classified by the regular expressions; durations are not kept.
- `capability_hints` and `metadata_completeness` are flattened to their entries, so an empty object is not distinguished from an absent one, and records that lack required containers raise in the tool but have defaults here.
- Python's equalities across types (`True == 1`, `1 == 1.0`) and unhashable rule keys.
- Serving processes, SSH, Git, Cargo, codesigning and file-system ownership checks: only their results appear.
- The order in which the eight slots or the two lanes are served, fairness and waiting times.
- `Store.gc`, `preview` and `retire`: they only select rows by age and call the modelled preview and apply steps, or register a developer row.
- `integration_preflight`, the report comparison of `build_report`, the dispersion policy and the resource comparison: they only add members of the same kind.
- Packaging, licence collection, bootstrap text, React components and the gateway crates.
