# YiSang: durable agent state, verified

YiSang keeps an agent's durable state outside its model: goals, plans, run journals, checkpoints, side-effect receipts, a
knowledge library with promoted usage notes, projected memory, capability versions, and snapshots that move all of this to
another engine. This project models that state as Dafny values and classes and proves what the code promises about it: what
every step keeps, what holds in every run, what a crash or a restore leaves behind, and which shortcuts (indexes, incremental
projections, greedy pruners) agree with the plain definition they stand for.

`dafny verify dfyconfig.toml` checks everything. One file holds one component or one body of theorems:

- `Common.dfy`: options, stripping and string order, sequences, sorting, listings of sets.
- `StepGraph`, `PlanModels`, `PlanCompiler`, `PlanService`: the planner and its depth-first graph check;
  `PlanInvariants`, `PlanHistory`, `PlanDriving`: what its runs keep, and why they end.
- `Goals`, `RunJournal`, `LongHorizon`, `LongHorizonInvariants`: goals, journals, checkpoints and the coordinator that keeps
  them in step with the plan.
- `SideEffects`, `ActionRuntime`, `RecoverySafety`: workspace writes, receipts, the recovery-aware runtime with its crash
  points, the file reconciler and the crash planner.
- `Promotion`, `PromotionReversal`, `PromotionLosses`, `PromotionErasure`, `PromotionTally`: evidence, library notes, failing
  audit appends, and revocation that erases a candidate.
- `LibraryIndex`, `LibraryPruning`, `LibraryDelivery`, `ContextCompiler`: search by index, the pruners, the context budget.
- `Migrations`, `Archives`, `Continuity`, `ContinuityRestore`, `ContinuityBundle`: snapshot migrations, archives, restore
  with rollback, and bundles.
- `MemoryFusion`, `MemoryStore`, `MemoryRuns`: fusion of projections, the memory store with its lexical projection, and both
  over time.
- `EgoVersions`, `EgoRouting`: capability versions with their audit, and feedback-adjusted routing.

Where the source updates an object or runs a loop, the model is a class or a method with that loop, proved equal to a
specification function or to a property; the theorems are lemmas about those functions. Clocks, fresh identifiers, the handler
outcome of a call and crash points are parameters.

Where the code does less than one might expect, the exact condition is proved:

- Cancelling a plan is not final. `CancelAbsorbsIff` gives the plans for which it is, `CancelledPlanCanComplete` a case for
  which it is not.
- A step that is blocked while running and then unblocked can be offered by the scheduler and refused by `start_step`
  (`UnblockedStepCanBeRefused`); `DecidedStartAcceptedIff` says when a decided start is accepted.
- A revision that keeps only completed steps completes the plan and leaves the goal open, and starting the next step of a
  blocked plan with a blank run id unblocks the goal before it is refused; `ActKeepsInStepIff` says that these are the only
  calls that take plan and goal out of step.
- A failure counted after a promotion takes the candidate's `promoted` status away but not its note, and no later call can
  revoke it (`FailureStrands`, `StrandedForever`).
- When an audit append fails the engine puts back a note it rereads. A note with clean conditions (no blank ones, no spaces
  around them) survives that; another one gets a different identity, and its candidate stays promoted but cannot be revoked
  (`FailedAppendKeepsRevocableIff`, `FailedAppendCanDiverge`). `LibraryErasedIff` and `RevokeRestores` say that revoking
  erases a candidate from the library exactly when this never happened to it, and `CleanNeverLost` that it never happens to
  clean conditions.
- A library result that is a warning stays a guardrail exactly when some other result is not a warning
  (`WarningsGuardedIff`).
- A crash between the commit of a receipt and its journal event leaves an executed action that the planner does not verify
  (`UnnotedCommitResumes`).
- With a blank run id a resolution writes the receipt and then fails on the journal (`CrashedWriteIsRecovered`).
- An imported record that already names a successor is not ended by superseding it with that successor (`SupersedeEndsIff`),
  and a snapshot with migration records, additional goals or foreign references never restores (`MismatchIff`).

## Model
| member | source | states |
|---|---|---|
| StepGraph.FindCycle | src/yisang/planning/compiler.py:189-211 | the search ends; it reports a step exactly when the dependency graph has a cycle, and then the step lies on one; otherwise the order in which ids enter `visited` is a topological order of all steps |
| StepGraph.DependencyWalk.Visit | src/yisang/planning/compiler.py:197-208 | one recursive visit extends the order of visited steps with dependencies first, or returns a step on a cycle |
| StepGraph.TopologicalOrderIsAcyclic | src/yisang/planning/compiler.py:189-211 | a graph with a topological order has no cycle, so acceptance by the search is sound |
| StepGraph.MinimalStep | src/yisang/planning/service.py:113-197 | in an acyclic graph every non-empty set of steps holds one whose dependencies all lie outside the set |
| PlanCompiler.ValidateSpecs | src/yisang/planning/compiler.py:176-187 | refuses duplicate ids, then unknown dependencies, then cycles, and accepts exactly the other lists |
| PlanCompiler.Compile | src/yisang/planning/compiler.py:22-62 | an accepted proposal becomes revision one with every step pending, in the order proposed |
| PlanCompiler.CompileRevision | src/yisang/planning/compiler.py:64-174 | the refusals of a revision in order, and the carried or fresh steps and derived plan state of an accepted one |
| PlanCompiler.CheckFrozen | src/yisang/planning/compiler.py:98-108 | a revision may neither drop a completed step nor change its spec |
| PlanCompiler.CarryOver | src/yisang/planning/compiler.py:110-139 | fails exactly when some kept step would change its meaning; else every kept step keeps its state and gets the new position |
| PlanStore.PlanPort.Append | src/yisang/planning/in_memory.py:11-26 | the history of a plan grows by one revision of the same goal and creation time with the next number, or nothing changes |
| PlanService.Service.AcceptProposal | src/yisang/planning/service.py:31-54 | stores the compiled plan or leaves the store alone with the error |
| PlanService.Service.AcceptRevision | src/yisang/planning/service.py:56-85 | appends the compiled revision to the stored history or leaves it alone |
| PlanService.Service.StartStep | src/yisang/planning/service.py:199-233 | appends the revision in which the step runs with one more attempt, or refuses and appends nothing |
| PlanService.Service.CompleteStep | src/yisang/planning/service.py:235-267 | appends the revision in which the running step is completed, with the plan completed when it was the last |
| PlanService.Service.FailStep | src/yisang/planning/service.py:269-290 | appends the revision with the step failed and the plan blocked |
| PlanService.Service.RetryStep | src/yisang/planning/service.py:292-315 | appends the revision in which a failed step with attempts left runs again |
| PlanService.Service.BlockStep | src/yisang/planning/service.py:317-336 | appends the revision with the step blocked and the plan blocked |
| PlanService.Service.UnblockStep | src/yisang/planning/service.py:338-348 | appends the revision with the blocked step pending again |
| PlanService.Service.CancelPlan | src/yisang/planning/service.py:350-362 | appends a cancelled revision unless the plan is terminal |
| PlanInvariants.AcceptedIsWellKept | src/yisang/planning/compiler.py:22-62 | an accepted proposal has sound steps: acyclic, dependencies known, attempts within bounds |
| PlanInvariants.ApplyKeepsWellKept | src/yisang/planning/service.py:199-404 | every accepted call keeps: acyclicity, running, failed and completed steps have completed dependencies, attempts never exceed the maximum, completed steps have results, plan state matches the steps |
| PlanInvariants.RevisionKeepsWellKept | src/yisang/planning/compiler.py:64-174 | a replan keeps the same invariant |
| PlanInvariants.RunKeepsWellKept | src/yisang/planning/service.py:31-404 | the invariant holds after any run of accept, revise, start, complete, fail, retry, block, unblock and cancel |
| PlanInvariants.NeverDependenciesNotReady | src/yisang/planning/service.py:113-197 | no plan with that invariant makes the scheduler answer `dependencies_not_ready` |
| PlanInvariants.NeverStuckInAnyRun | src/yisang/planning/service.py:113-197 | so no mix of calls on an accepted proposal leads to that answer |
| PlanHistory.RunRetainsCompleted | src/yisang/planning/compiler.py:98-139 | a completed step keeps spec, result and evidence in every later revision, replans included |
| PlanHistory.CompletionOrderIsTopological | src/yisang/planning/service.py:235-267 | over any run the order of completions puts every step after its dependencies, in the graph of every later revision |
| PlanHistory.RunLinearizes | src/yisang/planning/service.py:235-267 | any order that is topological for the completed steps stays so when extended by the completions of a run |
| PlanHistory.RevisionCompletesNothing | src/yisang/planning/compiler.py:110-139 | a revision carries completed steps over and completes no other |
| PlanHistory.CancelAbsorbsIff | src/yisang/planning/service.py:350-362 | a cancelled plan refuses every later call exactly when each step is completed or has failed with its attempts spent; every call it does accept takes it out of `cancelled` |
| PlanHistory.CancelledPlanCanComplete | src/yisang/planning/service.py:235-362 | an accepted proposal, started, cancelled and completed: the plan is cancelled after the second call and completed after the third |
| PlanScheduling.ReadyStepsSpec | src/yisang/planning/service.py:87-111 | `ready_steps` holds exactly the pending steps with completed dependencies, sorted by priority and position |
| PlanScheduling.RunningMeaning | src/yisang/planning/service.py:130-141 | the scheduler waits for a running step exactly when one runs in an open plan |
| PlanScheduling.StartMeaning | src/yisang/planning/service.py:143-151 | a start is decided exactly when the plan is active, nothing runs and a step is ready, and it names the best one |
| PlanScheduling.RetryMeaning | src/yisang/planning/service.py:153-174 | a retry is decided exactly when nothing runs or is ready and a failed step has attempts left |
| PlanScheduling.ReplanMeaning | src/yisang/planning/service.py:176-190 | a replan is asked for only when the failed steps have spent their attempts |
| PlanScheduling.DecidedStartAcceptedIff | src/yisang/planning/service.py:199-233 | a decided start is accepted exactly when the step has an attempt left |
| PlanScheduling.DecidedRetryAccepted | src/yisang/planning/service.py:292-315 | a decided retry is always accepted |
| PlanScheduling.UnblockedStepCanBeRefused | src/yisang/planning/service.py:199-348 | an accepted proposal whose step is started, blocked and unblocked is offered a start that is refused |
| PlanDriving.RoundSpendsOne | src/yisang/planning/service.py:113-315 | obeying a decision and reporting the outcome: both calls are accepted and the attempts left fall by exactly one |
| PlanDriving.DrivingTerminates | src/yisang/planning/service.py:113-315 | obeying decisions with arbitrary outcomes ends in `completed` or `replan_required` within two calls per attempt of the proposal, and every launch and report on the way is accepted |
| Goals.GoalService.Transition | src/yisang/goal/service.py:27-54 | a legal transition stores the moved goal, an illegal one changes nothing |
| Goals.GoalService.RecordProgress | src/yisang/goal/service.py:56-83 | notes work, next action and blockers on a goal that is not terminal |
| Goals.TerminalGoalsAreFinal | src/yisang/goal/service.py:10-83 | a completed or cancelled goal accepts neither transition nor progress |
| RunJournal.AppendKeepsNumbered | src/yisang/recovery/in_memory.py:21-41 | each run's events are numbered one, two, three without gaps, whatever other runs append |
| RunJournal.EventsAfterAreTheRest | src/yisang/recovery/in_memory.py:43-66 | the events after a sequence number are exactly the tail of the run from that number |
| RunJournal.JournalPort.Append | src/yisang/recovery/in_memory.py:21-41 | appends one event with the run's next number, or refuses blank ids |
| RunJournal.LatestCheckpointIsNewest | src/yisang/recovery/in_memory.py:80-110 | no stored checkpoint of the run or goal is newer than the selected one |
| RunJournal.LatestCheckpointIff | src/yisang/recovery/in_memory.py:69-110 | the store refuses repeated ids, and with distinct ids the selected checkpoint is exactly the one no other of the run is newer than |
| RunJournal.LatestIgnoresOrder | src/yisang/recovery/in_memory.py:69-110 | so the checkpoint a run resumes from does not depend on the order in which checkpoints were stored |
| LongHorizon.RunController.Start | src/yisang/recovery/run_controller.py:24-45 | moves a planned goal to active, journals the start once, refuses other states |
| LongHorizon.RunController.Block | src/yisang/recovery/run_controller.py:62-98 | records blocker and next action, moves the goal to blocked, journals and checkpoints |
| LongHorizon.RunController.Unblock | src/yisang/recovery/run_controller.py:100-116 | moves a blocked goal to active and clears its blockers |
| LongHorizon.RunController.Complete | src/yisang/recovery/run_controller.py:118-155 | completes an active goal, journals, and checkpoints with the completed action references given |
| LongHorizon.RunController.WriteCheckpoint | src/yisang/recovery/coordinator.py:32-65 | stores a checkpoint at the run's latest journal number with the goal's state, next action and blockers, the completed action references and the metadata, and journals it; or refuses a repeated id |
| LongHorizon.Coordinator.StartNext | src/yisang/planning/execution.py:30-93 | obeys the scheduler: prepares the goal, starts or retries the step, journals the launch; or reports why not |
| LongHorizon.Coordinator.CompleteStep | src/yisang/planning/execution.py:95-162 | completes the step and either finishes the run or notes progress and checkpoints |
| LongHorizon.Coordinator.FailStep | src/yisang/planning/execution.py:164-206 | fails the step, journals it and blocks the run with the next action |
| LongHorizonInvariants.RunKeepsInStep | src/yisang/planning/execution.py:30-206 | over runs of such calls: running plus failed steps never exceed one, a running step means an active goal, a blocked plan a blocked goal, plan completed exactly when goal completed, and launches and completions are journaled |
| LongHorizonInvariants.ActKeepsInStepIff | src/yisang/planning/execution.py:30-206 | one call, with whatever texts, keeps plan, goal and journal in step exactly when an accepted revision keeps an unfinished step and no start with a blank run id meets a blocked plan, whose goal it would unblock before it is refused |
| LongHorizonInvariants.AcceptedInStep | src/yisang/planning/service.py:31-54 | accepting a proposal for an open goal starts in step |
| LongHorizonInvariants.RevisionCompletesIff | src/yisang/planning/compiler.py:141-149 | an accepted revision completes the plan exactly when it keeps no unfinished step |
| LongHorizonInvariants.RevisionKeepsInStepIff | src/yisang/planning/compiler.py:141-149 | a revision keeps plan and goal in step exactly when it keeps an unfinished step |
| Workspace.WriteIsAllOrNothing | src/yisang/execution/builtin.py:142-243 | a write leaves the requested content at the requested path and touches no other file, or writes no file |
| Receipts.ReceiptPort.Reserve | src/yisang/recovery/in_memory.py:137-170 | creates a started receipt for a new key, returns the existing one for the same request, refuses a conflicting one |
| Receipts.ReceiptPort.CommitReceipt | src/yisang/recovery/in_memory.py:180-203 | started becomes committed with its result and evidence; a committed one is returned as it is, whatever result is given; a failed one is refused |
| Receipts.ReceiptPort.FailReceipt | src/yisang/recovery/in_memory.py:205-228 | started becomes failed with its reason and evidence; a failed one is returned as it is; a committed one is refused |
| Receipts.ReceiptPort.RetryReceipt | src/yisang/recovery/in_memory.py:230-258 | failed becomes started again for a run, with the reason kept and result, evidence and failure cleared; nothing else does |
| ActionRuntime.Runtime.Execute | src/yisang/recovery/action_runtime.py:36-301 | the whole call with its journal, receipt and crash points equals the specification, for every crash point |
| ActionRuntime.Runtime.AuthorizeRetry | src/yisang/recovery/coordinator.py:282-312 | reopens a failed receipt and then journals the decision |
| ActionRuntime.Runtime.ResolveUncertainAsCommitted | src/yisang/recovery/coordinator.py:314-346 | commits an uncertain receipt and then journals it; with a blank run id the commit stands and the journal refuses |
| ActionRuntime.Runtime.ResolveUncertainAsFailed | src/yisang/recovery/coordinator.py:348-380 | fails an uncertain receipt and then journals it, with the same exception |
| ActionRuntime.Runtime.ResolveIfMatches | src/yisang/recovery/workspace_reconcile.py:88-128 | commits an uncertain write whose file matches, with the same exception, and otherwise only reports |
| ActionRuntime.FileStore.Write | src/yisang/execution/builtin.py:142-243 | the file tree after a write, step by step |
| RecoverySafety.HandlerEnteredIff | src/yisang/recovery/action_runtime.py:117-301 | exactly which calls enter the handler: allowed, valid, and plain or with a key that has no receipt |
| RecoverySafety.HandlerEnteredAtMostOnce | src/yisang/recovery/action_runtime.py:117-301 | over executes cut by crashes, retries and resolutions, a side-effecting handler is entered at most once for each goal and key |
| RecoverySafety.CommittedAnswersForever | src/yisang/recovery/action_runtime.py:133-163 | a committed receipt never changes and answers every later allowed call of the same request without entering the handler |
| RecoverySafety.ReceiptStopsEffects | src/yisang/recovery/action_runtime.py:133-176 | a call whose key has a receipt changes neither workspace nor receipts |
| RecoverySafety.RetryNeverReexecutes | src/yisang/recovery/coordinator.py:282-312 | an authorized retry reopens the receipt, and the next call is refused as uncertain |
| RecoverySafety.ReconcileCommitsIff | src/yisang/recovery/workspace_reconcile.py:30-128 | reconciling commits exactly when the receipt is uncertain and the file holds the requested content |
| RecoverySafety.CrashedWrite | src/yisang/recovery/action_runtime.py:178-301 | what a first write leaves at each crash point: receipt state and file |
| RecoverySafety.CrashedWriteIsRecovered | src/yisang/recovery/workspace_reconcile.py:88-128 | a write crashes after its handler, any history follows that leaves its file and its key alone: reconciling commits, and after any further history the repeated proposal is answered from the receipt and writes nothing |
| RecoverySafety.HistoryKeepsPending | src/yisang/recovery/action_runtime.py:117-301 | executions, crashes, retries and resolutions of other keys leave an uncertain receipt and its file as they are |
| RecoverySafety.HistoryIsDescribed | src/yisang/recovery/action_runtime.py:117-301 | from stores without receipts every history keeps each handler entry backed by a receipt, and each write receipt with the path and digest it was asked for |
| RecoverySafety.ReconcileInEveryHistory | src/yisang/recovery/workspace_reconcile.py:30-128 | so after every history reconciling commits a write exactly when its receipt is uncertain and the file holds the content |
| RecoverySafety.CrashedWriteIsRecoveredInEveryHistory | src/yisang/recovery/workspace_reconcile.py:88-128 | and a crashed write is recovered in every history, with any calls before it, around it and after it |
| CrashPlanner.ClassifyDecides | src/yisang/recovery/crash_planner.py:13-131 | the whole decision for a run over its journal, each answer with its exact condition: reconcile while a receipt of the goal is uncertain, stop on an ended or blocked goal, resume if the run has no event or a checkpoint is at or past its last one, and else as the last event says |
| CrashPlanner.ClassifyWithoutRun | src/yisang/recovery/crash_planner.py:13-131 | the same without a run id, over the run of the goal's newest checkpoint |
| CrashPlanner.CrashIsClassified | src/yisang/recovery/crash_planner.py:13-131 | after a crash of a side-effecting call at any fault point: reconciliation exactly while some receipt of the goal is uncertain, this one's until it is committed; else verification |
| CrashPlanner.UnnotedCommitResumes | src/yisang/recovery/action_runtime.py:274-289 | after a crash between the commit of a receipt and its journal event the planner resumes without verifying, unless another receipt of the goal is uncertain; repeating the call after any history is answered from the receipt and enters no handler |
| Promotion.Engine.Observe | src/yisang/experience/promotion.py:47-210 | every outcome of an observation on candidates, notes and audit, including the rollback when the audit append fails |
| Promotion.Engine.Revoke | src/yisang/experience/promotion.py:212-319 | every outcome of a revocation on candidates, notes and audit, including the rollback when the audit append fails |
| Promotion.Engine.PromoteUsageNote | src/yisang/experience/promotion.py:321-400 | the matching note is reinforced, or a note is appended, and both versions are returned |
| Promotion.Engine.RestoreUsageNote | src/yisang/experience/promotion.py:402-462 | puts the remembered note back only when the current one is as expected |
| Promotion.Engine.MatchingIndex | src/yisang/experience/promotion.py:345-352 | the first note with the candidate's words and conditions |
| PromotionReversal.DistinctCandidatesDistinctNotes | src/yisang/experience/promotion.py:465-473 | two candidates on one entry never speak about the same note |
| PromotionReversal.ActKeepsSound | src/yisang/experience/promotion.py:47-319 | whichever appends fail: a live candidate finds the note of its latest audited promotion, or none if its conditions are not clean; its first remembered note is canonical, and so are all notes no live candidate claims |
| PromotionReversal.RevokeOutcome | src/yisang/experience/promotion.py:212-319 | a revocation goes through exactly for a promoted candidate that finds its latest note, with actor and reason given and a working audit; each other outcome's effect |
| PromotionReversal.LosingIff | src/yisang/experience/promotion.py:193-202 | the note a failed promotion puts back is reread into another one exactly when it is the candidate's own and its conditions are not clean |
| PromotionLosses.FailedAppendKeepsRevocableIff | src/yisang/experience/promotion.py:193-313 | after an observation or a revocation whose audit append fails a promoted candidate is still revocable exactly when its note was canonical, that is, when its conditions are clean; otherwise revoking reports a divergence |
| PromotionLosses.FailedAppendCanDiverge | src/yisang/experience/promotion.py:193-283 | two successes with a condition that has spaces around it, the second with a failing append: promoted, and revoking diverges |
| PromotionLosses.CleanNeverLost | src/yisang/experience/promotion.py:47-319 | a candidate observed with clean conditions loses no note in any run, whichever appends fail |
| PromotionLosses.RunPresent | src/yisang/experience/promotion.py:47-319 | in a run that loses no note of the candidate it finds its latest note whenever it is live |
| PromotionErasure.StepErased | src/yisang/experience/promotion.py:47-319 | the engine, failing appends included, commutes with erasing a candidate: its own steps that lose no note vanish, all other steps are the same with and without it |
| PromotionErasure.RunErased | src/yisang/experience/promotion.py:47-319 | the erased state of a run that loses no note of the candidate is the run without its operations |
| PromotionErasure.RevocationErasesCandidate | src/yisang/experience/promotion.py:212-319 | then, once the candidate is revoked, library, other candidates and their audit are as if it had never been observed |
| PromotionTally.LibraryErasedIff | src/yisang/experience/promotion.py:47-319 | the library after a run in which the candidate is not live at the end is that of the run without it exactly when no call lost its note |
| PromotionTally.RevokeRestores | src/yisang/experience/promotion.py:212-319 | in every run without losses a promoted candidate can be revoked, and whenever a revocation goes through, the library is that of the run without the candidate exactly when no call lost its note |
| PromotionTally.RunTally | src/yisang/experience/promotion.py:47-319 | over every run the notes of a key on an entry are those of the start, the one the candidate finds if it added it, and one for each loss |
| PromotionErasure.FailureStrands | src/yisang/experience/promotion.py:134-150 | failed or risky evidence counted after a promotion keeps the note and takes the status that revocation needs |
| PromotionErasure.StrandedForever | src/yisang/experience/promotion.py:212-252 | no later run makes such a candidate revocable |
| PromotionErasure.AuditFailureRestores | src/yisang/experience/promotion.py:193-202 | when the audit append fails the library is put back exactly if and only if the note it had was canonical or absent |
| PromotionErasure.FailedRevocationRestoresIff | src/yisang/experience/promotion.py:300-313 | when a revocation's append fails the library is put back exactly if and only if the conditions are clean and the note had replaced one or is the entry's last |
| LibraryScoring.ScoredIsIndexed | src/yisang/library/retrieval.py:127-190 | an entry that scores shares a term with its index, so the postings cannot miss it |
| LibraryIndex.Build | src/yisang/library/retrieval.py:42-57 | each term's posting list is the list of entries that hold it, in slot order |
| LibraryIndex.CandidateRefs | src/yisang/library/retrieval.py:59-68 | exactly the entries that share a term with the query, in slot order |
| LibraryIndex.LibraryPort.ListBooks | src/yisang/library/in_memory.py:13-17 | every stored book once, in id order |
| LibraryIndex.LexicalLibraryRetriever.Search | src/yisang/library/retrieval.py:96-124 | searching the index answers exactly what scoring, sorting and truncating all entries answers; the error cases |
| LibraryIndex.LexicalLibraryRetriever.Rebuild | src/yisang/library/retrieval.py:93-94 | the index is built again from the port's current books |
| LibraryRanking.KeyIsTotal | src/yisang/library/retrieval.py:116-123 | two rows the sort key cannot tell apart are the same row |
| LibraryRanking.SearchIgnoresBookOrder | src/yisang/library/retrieval.py:96-124 | any listing of the stored books gives the same result list |
| LibraryRanking.SearchReturnsBest | src/yisang/library/retrieval.py:96-124 | the results are ranked, every result scores, and every scoring entry left out ranks after all results |
| LibraryItems.StepPrunes | src/yisang/library/delivery.py:172-246 | each round lowers (items, optional fields, knowledge length) and keeps every guardrail |
| LibraryItems.StepStopsIff | src/yisang/library/delivery.py:172-246 | the rounds stop by themselves exactly when no optional field or complement is left, all knowledge is at most 80 characters, and one item or only guardrails remain |
| LibraryItems.StepInOrder | src/yisang/context/compiler.py:306-347 | optional fields go first, then complements, then text; a primary item only when all these are gone |
| LibraryItems.GuardrailsKept | src/yisang/library/delivery.py:156-246 | pruning keeps all guardrails in order, with provenance and `avoid_when` |
| LibraryItems.GuardrailSurvives | src/yisang/library/delivery.py:156-246 | each guardrail reappears with nothing lost but optional fields and the end of its text |
| LibraryDelivery.FitBudget | src/yisang/library/delivery.py:156-246 | the result is pruned in order, and within the budget unless nothing more may be given up, for any length function |
| LibraryDelivery.BuildLibraryDelivery | src/yisang/library/delivery.py:70-142 | builds the items with roles and intent-dependent details, then fits them; refuses a budget that is not positive |
| LibraryDelivery.WarningsGuardedIff | src/yisang/library/delivery.py:86-101 | every warning is delivered as a guardrail exactly when some result is not a warning (or there is none): with warnings only, the first becomes primary and may be dropped |
| ContextCosts.TrimFits | src/yisang/context/budget.py:48-53 | trimming a text by the overflow removes at least the overflow, for any cost of one or more per character, unless the text is used up |
| ContextCosts.PrunedCost | src/yisang/context/compiler.py:294-347 | pruning a library never makes its JSON longer |
| ContextCompiler.FittedKeeps | src/yisang/context/compiler.py:294-303 | the fitted library is within its budget unless bare, and gave things up in order |
| ContextCompiler.FitLibraryPayload | src/yisang/context/compiler.py:294-303 | the loop computes the fitted library |
| ContextCompiler.Compile | src/yisang/context/compiler.py:40-229 | trims each item to its share, ends with a pack within the budget, fails exactly when the irreducible pack with empty user text is too long, and cuts every list only when all before it are used up and no further than needed |
| ContextCompiler.SharesFit | src/yisang/context/compiler.py:71-128 | the trimmed texts of a list stay within its character budget, or within one character per item if the budget is smaller than that |
| ContextCompiler.PopMemories | src/yisang/context/compiler.py:166-168 | drops memories from the end, and no more than the budget asks for |
| ContextCompiler.ShiftSession | src/yisang/context/compiler.py:170-171 | drops the oldest session messages, keeping one |
| ContextCompiler.ShiftActions | src/yisang/context/compiler.py:173-174 | drops the oldest action evidence, keeping one |
| ContextCompiler.PopEgos | src/yisang/context/compiler.py:176-177 | drops capabilities from the end, no more than needed |
| ContextCompiler.PopTools | src/yisang/context/compiler.py:179-180 | drops tools from the end, no more than needed |
| ContextCompiler.PruneLibrary | src/yisang/context/compiler.py:182-184 | prunes the library until the pack fits or nothing more may be given up |
| ContextCompiler.TrimmedUser | src/yisang/context/compiler.py:186-189 | the pack fits after the trim unless the user text is used up |
| ContextCompiler.IrreducibleLeast | src/yisang/context/compiler.py:186-194 | no pack pruned from the same start is shorter than the irreducible one |
| ContextCompiler.PrefixesAndSuffixes | src/yisang/context/compiler.py:62-128 | memories, capabilities and tools are prefixes of what was selected, histories suffixes with one item if any, and each item is the supplied one cut to its share |
| ContextCompiler.GuardrailReachesModel | src/yisang/context/compiler.py:182-184 | both prunings together keep every guardrail that the item limit admits |
| ContextCompiler.CountsAddUp | src/yisang/context/compiler.py:196-228 | in the report selected plus dropped is what was supplied, for all six lists, and the character counts of the lists add up to the total |
| MigrationChains.ChainsExact | src/yisang/identity/migrations.py:57-75 | the walk enumerates all registered chains between two versions and nothing else |
| MigrationChains.ChainsDistinct | src/yisang/identity/migrations.py:57-75 | and none of them twice |
| Migrations.Registry.Register | src/yisang/identity/migrations.py:37-43 | one migration for each pair of versions |
| Migrations.Registry.Walk | src/yisang/identity/migrations.py:59-73 | the recursive walk appends exactly those chains behind its path |
| Migrations.Registry.Plan | src/yisang/identity/migrations.py:45-88 | returns the chain that every other chain exceeds in length; each error exactly when there is no chain, no unique shortest one, a downgrade or a version that is not positive |
| Migrations.Registry.Apply | src/yisang/identity/migrations.py:90-116 | ends at the target version with one record for each edge of the planned chain, or with the error of the first transform that returns no object; each planning error under its exact condition |
| MemoryPorts.InMemoryMemoryPort.ImportRecord | src/yisang/memory/in_memory.py:184-219 | appends, overwrites, or refuses a known id |
| MemoryPorts.InMemoryMemoryPort.Invalidate | src/yisang/memory/in_memory.py:62-92 | marks one record, and nothing when it is marked already |
| MemoryPorts.InMemoryMemoryPort.Revalidate | src/yisang/memory/in_memory.py:94-124 | clears the mark and leaves the window as it is |
| MemoryPorts.InMemoryMemoryPort.Supersede | src/yisang/memory/in_memory.py:148-182 | closes the window now and names the successor; does nothing for the same successor; refuses an inverted window |
| MemoryPorts.InMemoryMemoryPort.MarkRetrieved | src/yisang/memory/in_memory.py:126-133 | stamps exactly the named records |
| MemoryPorts.InMemoryMemoryPort.RecordOutcome | src/yisang/memory/in_memory.py:135-146 | counts the outcome on exactly the named records |
| MemoryPorts.LexicalMemoryProjection.Rebuild | src/yisang/memory/projection.py:58-69 | indexes exactly the records that are durable now |
| MemoryPorts.LexicalMemoryProjection.Upsert | src/yisang/memory/projection.py:71-78 | puts the record if it is durable now, removes it otherwise |
| MemoryPorts.LexicalMemoryProjection.Search | src/yisang/memory/projection.py:85-119 | the best hits of the one ranking of the indexed records |
| MemoryPorts.ProjectedMemoryPort.Search | src/yisang/memory/projected.py:73-168 | fuses the answers of the lexical projection and of any others by reciprocal rank, reranks over active records, returns the best, and marks exactly them as retrieved |
| MemoryPorts.ProjectedMemoryPort.Supersede | src/yisang/memory/projected.py:182-200 | the authoritative write first, then its record reaches the projection; a refused write changes neither |
| MemoryPorts.ProjectedMemoryPort.ImportRecord | src/yisang/memory/projected.py:202-214 | the same for imports |
| MemoryPorts.ProjectedMemoryPort.Revalidate | src/yisang/memory/projected.py:240-256 | the same for revalidation |
| MemoryFusion.SelectedActive | src/yisang/memory/projected.py:98-153 | whatever the projections answer, a search returns active records only, each answered by some projection |
| MemoryFusion.SelectsBest | src/yisang/memory/projected.py:124-153 | the selection is ranked and without repeats; every active record that was answered and is left out ranks after all of it, and then the limit is used up |
| MemoryFusion.SearchIgnoresProjectionOrder | src/yisang/memory/projected.py:104-153 | the selection does not depend on the order in which the projections are configured |
| MemoryFusion.AnswerRaisesIff | src/yisang/memory/projected.py:120-122 | one more projection raises the score of exactly the records it answers with |
| MemorySpec.RankingUnique | src/yisang/memory/projection.py:111-119 | a projection has one ranking for a query, and projections with the same answers have the same one |
| MemoryRuns.RunKeepsSound | src/yisang/memory/projected.py:170-256 | after any run every record is in the projection exactly as it was when it was last written |
| MemoryRuns.AgreesIff | src/yisang/memory/projected.py:54-57 | the incremental projection answers as a rebuilt one exactly when no durable, valid record's window opened or closed since it was last written |
| MemoryRuns.IncrementalSearchesAlike | src/yisang/memory/projection.py:58-119 | under that condition every search gives the same hits after any run from a rebuilt projection |
| MemoryRuns.UnsettledShows | src/yisang/memory/projection.py:58-119 | otherwise the search for the record's own terms differs |
| MemoryRuns.SupersedeEndsIff | src/yisang/memory/in_memory.py:148-182 | a supersede ends the record exactly when the record did not name this successor already (an imported one may), or had ended |
| MemoryRuns.EndedForever | src/yisang/memory/in_memory.py:94-124 | under a clock that never goes back an ended record is never active again, even revalidated, unless an import overwrites it |
| MemoryRuns.EndedNeverFound | src/yisang/memory/projected.py:73-168 | so no later search returns it |
| MemoryArchive.RecordRoundTrip | src/yisang/memory/transfer.py:17-83 | a record survives its archive object exactly when it is well formed |
| MemoryArchive.ArchiveRoundTrip | src/yisang/memory/transfer.py:86-135 | an archive built from a store validates to that store exactly when its records are well formed with distinct ids |
| MemoryArchive.RestoreMemoryArchive | src/yisang/memory/transfer.py:137-162 | imports all records or, on a bad archive or a conflict, none |
| LibraryArchive.ArchiveRoundTrip | src/yisang/library/archive.py:23-78 | books come back from their archive as they were exactly when each is canonical |
| LibraryArchive.RestoreLibraryArchive | src/yisang/library/archive.py:81-99 | an empty port holds exactly the archive's books afterwards; a bad archive or a non-empty port changes nothing |
| ContinuitySpec.BuiltValidIff | src/yisang/identity/snapshot.py:230-258 | a built snapshot is valid exactly when its goal is absent or not blank |
| ContinuitySpec.MismatchIff | src/yisang/identity/restore.py:313-340 | after staging, the restore succeeds exactly when the snapshot carries no migrations, only its current goal, and references of the kinds and schemas a runtime builds |
| ContinuityRestore.PlanRestore | src/yisang/identity/restore.py:105-161 | the blockers, and which stores and state must be restored |
| ContinuityRestore.StageMemory | src/yisang/identity/restore.py:191-222 | the staged memory or the reason why not, with the digest checked before and after |
| ContinuityRestore.StageEgos | src/yisang/identity/restore.py:224-237 | the staged registry or the reason why not |
| ContinuityRestore.StageLibrary | src/yisang/identity/restore.py:239-275 | the staged library or the reason why not |
| ContinuityRestore.ValidateAgainst | src/yisang/identity/snapshot.py:261-299 | a runtime matches a snapshot in agent, digests, library and state |
| ContinuityRestore.Swap | src/yisang/identity/restore.py:285-340 | the swap stands exactly when validation and fingerprint agree; otherwise all seven components are as before |
| ContinuityRestore.ApplyRestore | src/yisang/identity/restore.py:164-383 | fails with all seven components and their contents unchanged, or succeeds with an equal fingerprint, writes redirected to the restored memory and the retriever indexing the restored library; which of the two, for every input |
| ContinuityBundle.BundleValidIff | src/yisang/identity/bundle.py:60-186 | building a bundle succeeds exactly when the records are well formed with distinct ids and the books can be read back |
| ContinuityBundle.RereadCanonical | src/yisang/library/models.py:237-267 | reading a book back is idempotent |
| ContinuityBundle.BundleRestoresIff | src/yisang/identity/bundle.py:268-288 | a bundle restores onto a runtime of the same agent with a registered engine and empty factories exactly when the goal is absent or not blank and the books are canonical or already there; it brings back memory, identity, state and books, and the capabilities exactly when the target holds no other registry with their digest |
| ContinuityBundle.BundleBringsBack | src/yisang/identity/bundle.py:268-288 | every component after a restored bundle: memory, identity and state of the source, its books if it has a library, and its capabilities unless the target already holds a registry with their digest |
| ContinuityBundle.SameRegistry | src/yisang/identity/snapshot.py:324-373 | registries with one digest differ in the instructions of second-generation manifests at most |
| EgoVersionSpec.ReplayIsLast | src/yisang/ego/memory_port.py:208-211 | replaying the audit gives each version the effect of the last event about it |
| EgoVersionSpec.ApplyKeepsRecoverable | src/yisang/ego/memory_port.py:22-206 | every install, disable and rollback keeps the installed versions equal to the replayed audit |
| EgoVersionSpec.AuditTellsStanding | src/yisang/ego/memory_port.py:22-206 | in every run the audit rebuilds each version's state and successor, and with default superseding one version of an id is active at most |
| EgoVersionSpec.PlainInstallIff | src/yisang/ego/memory_port.py:22-78 | an install that does not supersede keeps one active version exactly when none was active |
| EgoVersionSpec.OrderMattersIff | src/yisang/ego/memory_port.py:213-221 | exchanging two neighbouring events of an audit rebuilds another state exactly when they are about one version, have different effects, and no later event is about it |
| EgoVersions.InMemoryEgoPort.Install | src/yisang/ego/memory_port.py:22-78 | supersedes the other active versions, installs, and audits each change; refuses a repeated version |
| EgoVersions.InMemoryEgoPort.Disable | src/yisang/ego/memory_port.py:115-149 | disables an installed version for a given reason |
| EgoVersions.InMemoryEgoPort.Rollback | src/yisang/ego/memory_port.py:151-206 | supersedes the other active versions and reactivates the target |
| EgoTelemetry.RateInUnit | src/yisang/ego/telemetry.py:208-214 | the weighted success rate lies between zero and one |
| EgoTelemetry.AdjustmentBounded | src/yisang/ego/telemetry.py:216-230 | the adjustment lies within the maximum times the confidence, so the clamp never acts |
| EgoTelemetry.AverageWithin | src/yisang/ego/telemetry.py:200-246 | the average latency lies between the least and the greatest reported one, and is absent exactly when none was reported |
| EgoTelemetry.FailuresCostMaximum | src/yisang/ego/telemetry.py:208-230 | without a prior a saturated record of failures costs the whole maximum |
| EgoTelemetry.EgoAdaptiveScorer.Summarize | src/yisang/ego/telemetry.py:167-247 | one pass computes rate, adjustment, average latency and counts, and the counts cover all events |
| EgoRouting.HybridCapabilityRouter.Rank | src/yisang/ego/router_v2.py:29-129 | ranks every eligible capability with a positive score, with its reasons |
| EgoRouting.ReasonsExplainScore | src/yisang/ego/router_v2.py:50-112 | the points of the reported reasons add up to the score |
| EgoRouting.AdaptiveCapabilityRouter.Rank | src/yisang/ego/adaptive_router.py:22-42 | the base ranking under the feedback of each version, each summary with its own clock reading |
| EgoRouting.RoutesIff | src/yisang/ego/router_v2.py:50-129 | a capability is ranked exactly when it is supplied, eligible and scores above zero |
| EgoRouting.RelevanceGap | src/yisang/ego/router_v2.py:50-94 | relevance is zero or at least three quarters |
| EgoRouting.FeedbackKeepsSet | src/yisang/ego/adaptive_router.py:22-42 | with a maximum below three eighths feedback never changes which capabilities are found |
| EgoRouting.FeedbackDropsIff | src/yisang/ego/adaptive_router.py:22-42 | in any list, feedback drops a relevant capability exactly when twice the adjustment the scorer computes for the last capability of its version takes away all of its points |
| EgoRouting.StrongFeedbackDrops | src/yisang/ego/adaptive_router.py:22-42 | from three eighths on, a saturated record of failures drops a capability found by one example word |
| EgoRouting.OneFailureDrops | src/yisang/ego/adaptive_router.py:22-42 | an input that meets this: one word, one example, one failed use |
| EgoRouting.FeedbackKeepsWideGaps | src/yisang/ego/adaptive_router.py:22-42 | feedback never reverses two capabilities whose base scores differ by more than four maximal adjustments |

## Left out
- Storage and transport: the SQLite ports repeat the in-memory semantics behind SQL; the HTTP server, model adapters,
  subprocess runners, command lines, smoke scripts and the runtime loop around the model are input and output.
- Hashes, JSON text, generated ids and wall time: digests are injective and stand for what they were taken of, lengths are
  additive with a cost of one or more per character, fresh ids and clock readings are parameters.
- Floating point: scores, rates and fusion weights are exact reals, the decay of an age is any factor between zero and one.
- Tokenizing: the set of terms of a text is a parameter. In the library the terms of fields joined by spaces are the union of
  the fields' terms, so a dotted acronym that spans two fields is not modelled.
- Plans: update times and provenance; a plan's `superseded` state, which nothing in the service sets; the
  `assess_resume` summary.
- PlanStore.PlanPort.Append: does not model the index of plans by goal, which only `latest_for_goal` reads.
- Goals: budgets, milestones and the refusal of an update time before the creation time.
- LongHorizonInvariants.RunKeepsInStep: assumes one plan for each goal, and calls that meet the condition of
  `ActKeepsInStepIff`.
- ActionRuntime.Runtime.Execute: one call at a time, since looking up and reserving a receipt is not atomic and two calls at
  once can both run the handler. `_hit_fault` is the method its callers expect, although the file indents it as a function.
  The gate's decision and the validity of the arguments are inputs; policies and argument schemas are not modelled.
- CrashPlanner.ClassifyDecides: the planner has a receipt store. Without one the code tests the resume plan's flag.
- Workspace: symbolic links, permissions and directories removed by others during a write.
- Promotion.Engine.Revoke: timestamps and the metadata of mutations are left out.
- PromotionTally.RevokeRestores: starts from canonical notes and no outside edits of the library; candidate keys are
  injective digests of target, words of the lesson and cleaned conditions. Notes and observations are ones their constructors
  accept, so rereading a note never raises.
- LibraryScoring: matched terms are a set; the source reports them sorted.
- LibraryDelivery: the digest reference of an item is replaced by book and entry id.
- ContextCompiler.Compile: an item is its trimmable text and the rest of its payload, whose JSON length is any function of
  both; the fixed constraint texts are part of the envelope.
- Memory projections other than the lexical one (full text, embeddings): their answers are a parameter of the search. The
  diagnostics and latencies of a search are left out; the metadata score is a function of record and time. The mutation log
  of the store is left out.
- MemoryArchive and snapshots: values of the wrong JSON type, which the code converts or rejects, and snapshot objects with
  missing keys. Metadata values stand as their JSON texts.
- ContinuityRestore.ApplyRestore: factories return stores other than the runtime's own. Snapshots with migration records
  never match, because the final snapshot is taken without any; `MismatchIff` states it. File forms of bundles drop fields of
  second-generation manifests and are left out.
- Capability routing: `get` and the listing of versions, whose order compares prerelease tags as plain strings; invalidation
  candidates; the rounding of amounts in reported reasons.
