# A model of the mission engine and its companions

The CRM lets users hand goals to an agent. A mission is a stored run: a growing list of keyed steps
with statuses, dependencies and references to the results of earlier steps, and a history of events.
This project models the code that moves missions and proves what it keeps, over every run: with any
plans, model replies, tool results, clocks and random ids.

**The mission engine** (`ai-agent.ts`, `agent-workflow.ts`, `agent-mission-state.ts`, `agent-recovery.ts`,
`agent-mission-verifier.ts`).

- `AgentTypes`, `Values`, `Prelude`: steps, runs, events, the risk table, JavaScript values.
- `References`, `ReferenceLaws`, `PathLaws`, `InputLaws`: the `{{step:key:path}}` references of step inputs, which value a
  path names, and how whole inputs are filled.
- `WorkflowGraph`, `GraphLaws`: the admission check of a batch of steps and the graph of a whole run.
- `StepKeys`, `PlanContext`, `Planning`, `PlanLaws`, `Runs`, `NodeLaws`, `DepthLaws`, `Verifier`, `EvidenceLaws`, `Recovery`:
  step keys, what the page adds, planning, preparation, failure propagation, the next node, how deep inputs nest, the
  completion gate and what counts as evidence, recovery decisions.
- `RunStore`, `CheckpointLaws`, `Collections`: the tables a run is stored in, saving, reading back, checkpoints.
- `Mission`: every operation as a function from world to world. A world is the store, the awaited
  background action if there is one, and a log of what the engine did outside.
- `MissionInvariant`, `MissionSave`, `MissionPasses`, `MissionMoves`, `MissionOps`, `MissionAdvance`,
  `MissionExecute`, `MissionFlight`, `MissionReplan`, `MissionRestore`: the invariant and its preservation.
- `MissionRuns`, `MissionEvidence`: whole runs, and what the invariant means for them and for completed missions.
- `MissionEffects`, `MissionTurns`, `MissionRequests`, `MissionTakeups`, `MissionGate`, `MissionOutcomes`, `MissionRollbacks`:
  exactly when each operation is refused and what it leaves in the store otherwise, read back.
- `MissionSettled`: that no operation takes back what was sent.
- `MissionLog`: which operations queueings, fillings, restored writes and external actions come from, and that a stopped mission rests.
- `MissionStores`, `MissionTheorems`: what advancing and other single operations do beyond the invariant.
- `MissionProgress`: when a mission with work to do moves, and when it stands still.
- `MissionWitnesses`, `RestoreWitness`, `StandstillWitness`, `WitnessPlans`: missions, from their creation on, in which an
  expected property fails.
- `MissionEngine`: the operations as methods that rewrite the tables of a store object, each proved to do
  what its specification in `Mission` says and to keep a mission in order.

**Companions.** `JsonText`, `JsonRoundTrip`, `JsonScanner`, `JsonScannerLaws`: finding a JSON object in
arbitrary text, with a grammar of RFC 8259, a printer and a parser that are inverse to each other.
`AgentJobs`, `JobStore`: background jobs and their idempotency index. `Versions`: version comparison
and the update check. `CanonicalJson`: canonical strings. `CustomerPool`, `PoolStore`: customer ownership.

Signatures and digests are injective functions. Everything from outside is an argument of the operation
that meets it. Operations are atomic except that pause, cancel, steer, a restart and work on other runs
may come while a background action is awaited.

Where the code does not keep what one would expect of it, the project says when, exactly:

- `constrainStepsToTurnDecision` runs after the graph check. It leaves a run sound exactly when no kept step
  waits for a removed one (`Planning.ConstrainedAppendSoundIff`); otherwise a mission can be stuck and a later
  batch can close a cycle. The log records such a plan, and `MissionRuns.GraphStaysSound` holds without one.
- A failed external step keeps its approval, and a request without one queues it again: sends are bounded by
  approvals only together with such requests (`MissionRuns.SentAtMostOncePerQueueing`), which are exactly those
  of `MissionLog.QueuedWithoutApprovalIff`; `MissionWitnesses.OneApprovalTwoSends` is a mission with two sends
  on one approval.
- A failing background action writes back the copy taken before it began, so a pause or cancellation that
  came meanwhile is lost; a succeeding one keeps it (`MissionTheorems.StopIsKeptIff`, `MissionWitnesses.APauseIsLost`).
- Filling in an approved write can withdraw its approval without taking it out of the ready steps, and the
  background runner then starts it (`MissionTheorems.ApprovedWriteMayStartUnapproved`,
  `MissionWitnesses.AnAuthorizedWriteStartsUnapproved`).
- A restore withdraws the approval of every write and leaves ready those that the checkpoint has ready and that are
  not stored as skipped (`MissionTheorems.RestoredWriteIsReadyIff`); the background runner then starts them
  (`RestoreWitness.ARestoredWriteStartsUnapproved`). The log names them; besides them only a write that was filled in
  can start unapproved (`MissionRuns.EveryWriteWasCleared`).
- A restore to a checkpoint that has nothing left to do completes the mission without evidence
  (`MissionTheorems.RestoreClosesIff`).
- The depth of an input is bounded when it is filled in, the depth of what is put into it is not. Once a filled-in
  input nests too deeply, neither advancing the mission nor starting a step in the background does anything
  (`DepthLaws.FilledTooDeepIff`, `MissionProgress.MovesIff`, `StandstillWitness.AMissionStandsStill`); without fillings
  it moves (`MissionProgress.UnfilledMoves`).
- Steps that wait for a rewound observer lose their footing (`MissionTheorems.RewindKeepsClosureIff`,
  `MissionWitnesses.ADoneStepLosesItsFooting`).
- Whether a key that a step asks for is granted depends on the order of the plan (`StepKeys.WishRefusedAfterFallback`),
  and a key that ends in an underscore or a hyphen is shortened while what refers to it is not (`StepKeys.KeyIsKeptIff`).
- Single replacements can hit a value that looks like a reference (`ReferenceLaws.ValueThatLooksLikeAReference`).
- A retried job can be attempted more often than its limit (`AgentJobs.RetryOvershootsIff`).
- `compareVersions` ignores text after a second hyphen and how its three numbers are spelt (`Versions.EqualIff`), and
  answers -1 both ways for two spellings of a number after the hyphen (`Versions.AntisymmetricIff`).
- Canonical JSON does not tell `[undefined]` from `[null]`.

## Model

| member | source | states |
|---|---|---|
| `References.MatchPrefixExact` | backend/src/agent-workflow.ts:9-14 | the matcher finds a reference at the start of a string exactly when the string begins with the text of a valid key and path |
| `References.ParseRenders` | backend/src/agent-workflow.ts:28-31 | cutting a string at its references loses no character, and every hole is a valid reference |
| `References.NoHolesIff` | backend/src/agent-workflow.ts:50 | a string has no holes exactly when the pattern matches at no position of it |
| `References.IndexOf` | backend/src/agent-workflow.ts:66 | the first occurrence a string `replace` acts on: it occurs there and nowhere before |
| `References.ResolveReferenceString` | backend/src/agent-workflow.ts:48-69 | the loop of single replacements computes the substitution function the laws below are about, errors included |
| `ReferenceLaws.NoReferencesIsIdentity` | backend/src/agent-workflow.ts:71-78 | an input without references resolves to itself, whatever the steps are |
| `ReferenceLaws.OnlyReferencedStepsMatter` | backend/src/agent-workflow.ts:48-78 | the result depends only on status and result of the steps referred to |
| `ReferenceLaws.WholeStringKeepsType` | backend/src/agent-workflow.ts:61 | a string that is one reference resolves to the referenced value itself, of whatever type |
| `ReferenceLaws.ReplaceHitsHole` | backend/src/agent-workflow.ts:62-67 | with no earlier occurrence and no `$` pattern that `replace` would read into the value, one `replace` fills exactly the hole it is meant for |
| `ReferenceLaws.InOrderIsSimultaneous` | backend/src/agent-workflow.ts:62-68 | filling references one after the other equals filling all at once, as long as no text produced before a hole contains that hole's reference and `replace` reads no `$` pattern into a value |
| `ReferenceLaws.ReplacementsActIff` | backend/src/agent-workflow.ts:62-68 | and that is exactly when every single `replace` of the loop acts at its own hole and puts its value there as it is |
| `ReferenceLaws.PlainInputsFillSimultaneously` | backend/src/agent-workflow.ts:62-68 | in particular whenever literal text and values contain neither `{` nor `$` |
| `ReferenceLaws.ValueThatLooksLikeAReference` | backend/src/agent-workflow.ts:62-68 | a value that is the text of a later reference is replaced in that reference's stead: the two substitutions differ |
| `PathLaws.ReferenceNamesAValue` | backend/src/agent-workflow.ts:38-60 | a reference to a finished step resolves to exactly the value its path names in the result, own member or element by own member or element, at any depth; it is a missing path exactly when the path names none, or one of its names is blocked |
| `PathLaws.UnfinishedReferences` | backend/src/agent-workflow.ts:54-56 | the other two errors: no step has the key, or the first that has it is not done |
| `PathLaws.OneNameFurther` | backend/src/agent-workflow.ts:38-46 | what `p.q` resolves to is what the value of `p` holds under `q`, and without one it is a missing path |
| `PathLaws.PutIsFound` | backend/src/agent-workflow.ts:38-61 | a value put under a path of any length, through objects and lists, is exactly what the reference with that path resolves to, unless a name of the path is blocked |
| `InputLaws.CollectedIff` | backend/src/agent-workflow.ts:28-36 | the references collected from an input are exactly those that stand somewhere in one of its strings, however deep |
| `InputLaws.ResolvedIff` | backend/src/agent-workflow.ts:71-78 | an input resolves to exactly the same input with each of its strings, however deep, replaced by what it resolves to |
| `InputLaws.EmbeddedReference` | backend/src/agent-workflow.ts:62-68 | a reference with text around it is replaced by the text of its value; a list or an object there is an error, and so is a reference that is one itself |
| `InputLaws.DollarPatterns` | backend/src/agent-workflow.ts:67 | what `replace` reads into a value: nothing up to its first `$`; the pattern there is what `InputLaws.DollarRead` says |
| `InputLaws.DollarRead` | backend/src/agent-workflow.ts:67 | `$$` is a dollar, `$&` the reference, and the other two the text before and after it; any other `$` stands for itself |
| `WorkflowGraph.CheckFreshKeys` | backend/src/agent-workflow.ts:89-93 | keys pass exactly when distinct and new; a rejection names a repeated key |
| `WorkflowGraph.AddReferences` | backend/src/agent-workflow.ts:94-101 | every reference becomes a dependency and all of them are known, or the error names a violation that is there |
| `WorkflowGraph.CycleSearch.Visit` | backend/src/agent-workflow.ts:105-112 | the depth-first visit either extends a dependencies-first order over the key or returns a key on an actual cycle; it terminates |
| `WorkflowGraph.Validate` | backend/src/agent-workflow.ts:88-115 | a batch is admitted exactly when keys are fresh and distinct, inputs not too deep, dependencies and references known and the relation acyclic; admitted steps depend on all they refer to; every rejection is explained |
| `WorkflowGraph.TopologicalIsAcyclic` | backend/src/agent-workflow.ts:102-113 | a graph listed dependencies-first has no cycle |
| `GraphLaws.AcyclicIffOrdered` | backend/src/agent-workflow.ts:102-113 | acyclic means exactly that the keys can be listed dependencies-first |
| `GraphLaws.AppendWholeBatch` | backend/src/ai-agent.ts:1376-1382 | appending an admitted batch keeps the whole run's graph sound: distinct keys, no open dependency, no cycle |
| `GraphLaws.AppendKeepsSoundIff` | backend/src/ai-agent.ts:1285-1291 | appending only part of an admitted batch keeps it sound exactly when the part keeps the dependencies it names |
| `InputLaws.AdmittedIff` | backend/src/agent-workflow.ts:88-115 | a batch is admitted exactly when its keys are distinct and new, no input nests deeper than twenty levels, every key that a step names or refers to is known, and no step waits for itself, however far around |
| `StepKeys.NormalizedIsKey` | backend/src/agent-workflow.ts:16-26 | whatever text is asked for, its normalized form is a key that a reference can name |
| `StepKeys.KeyIsKeptIff` | backend/src/agent-workflow.ts:16-26 | a well-formed key is kept exactly when it does not end in an underscore or a hyphen; otherwise it gets shorter |
| `StepKeys.FreeKey` | backend/src/ai-agent.ts:1328-1333 | the search for a free key ends with the first free candidate; it tries at most one name more than are taken |
| `StepKeys.AssignKeys` | backend/src/ai-agent.ts:1318-1336 | keys are new and distinct, every normalized wish is granted and every other step gets its first free candidate; a refusal names the first wish for a key that is taken by then |
| `StepKeys.AssignedKeysCanBeReferredTo` | backend/src/ai-agent.ts:1318-1336 | every key given this way can be named by a reference |
| `StepKeys.AssignedKeysAreFresh` | backend/src/ai-agent.ts:1318-1380 | with keys given this way the graph check never finds one repeated or in use |
| `StepKeys.WishRefusedAfterFallback` | backend/src/ai-agent.ts:1322-1335 | the order of a plan matters: a wish is refused after a step that fell back to the same name, and granted before it |
| `PlanContext.GivenFieldsStay` | backend/src/ai-agent.ts:1349-1366 | completing a draft from the page fills gaps only: apart from the name of a view, no field that holds text changes |
| `PlanContext.CustomerIsKnownIff` | backend/src/ai-agent.ts:1354-1355 | a step for a customer names one exactly when the draft does or one is selected on the page |
| `PlanContext.CompletedIsRewritten` | backend/src/ai-agent.ts:1340-1366 | a completed draft would not be rewritten again: what is sent has its text, and the step is signed as completed |
| `PlanContext.NormalizeInContext` | backend/src/ai-agent.ts:1337-1382 | drafts with keys, rewritten and completed from the page, become signed steps with exactly that tool and input, exactly when the graph check admits them |
| `Planning.NormalizeSteps` | backend/src/ai-agent.ts:1367-1382 | completed drafts become signed steps exactly when the graph check admits them |
| `Planning.Constrain` | backend/src/ai-agent.ts:1285-1291 | the turn's decision keeps exactly the permitted steps |
| `Planning.ConstrainedAppendSoundIff` | backend/src/ai-agent.ts:1285-1291 | limiting an admitted batch leaves the run's graph sound exactly when no permitted step waits for a removed one |
| `Planning.FilteredBatchesCanCloseACycle` | backend/src/ai-agent.ts:1285-1291 | an instance: a query turn removes a write another step waits for, and a later admitted batch closes a cycle |
| `PlanLaws.PlannedIff` | backend/src/ai-agent.ts:1280-1382 | of an admitted plan exactly the drafts the turn lets through become steps, signed and without a result; what changes nothing is ready, an ordinary write exactly when the turn and not an automation releases it, and destructive and external steps never are |
| `Runs.PreparationIsIndependent` | backend/src/ai-agent.ts:1639-1659 | what a step is prepared to does not depend on which steps were prepared before it |
| `Runs.PrepareSteps` | backend/src/ai-agent.ts:1639-1659 | the loop over the changing run prepares every step from the state the run had at the start |
| `PlanLaws.PreparedIs` | backend/src/ai-agent.ts:1639-1659 | preparation fills in exactly the steps that wait, have their dependencies done and refer to a step; each is signed anew, or failed, and keeps its approval exactly when it is neither external nor destructive now; exactly those are put on record |
| `Runs.PropagateFailures` | backend/src/ai-agent.ts:1661-1674 | the loop computes the pass the propagation laws are about |
| `NodeLaws.PropagateSkipsOnlyBlocked` | backend/src/ai-agent.ts:1661-1674 | propagation skips only steps with a failed or skipped ancestor |
| `NodeLaws.OnePassPropagates` | backend/src/ai-agent.ts:1661-1674 | one pass suffices when dependencies stand before dependents in the list |
| `NodeLaws.AsManyPassesAsSteps` | backend/src/ai-agent.ts:1661-1674 | for any order, as many passes as steps suffice |
| `NodeLaws.PropagatedHasNoBlockedAncestor` | backend/src/ai-agent.ts:1661-1674 | then no active step has a failed or skipped ancestor |
| `NodeLaws.NeverStuck` | backend/src/agent-mission-state.ts:16-26 | on a sound graph, undisturbed, a waiting step without a failed or skipped ancestor makes the next node execute or approval |
| `NodeLaws.EvaluateIffAllBlocked` | backend/src/agent-mission-state.ts:16-26 | evaluation is reached exactly when nothing runs and every active step has a failed or skipped ancestor |
| `NodeLaws.DanglingDependencyIsStuck` | backend/src/agent-mission-state.ts:16-26 | an open dependency makes a mission stuck: evaluation with an active step that propagation does not skip |
| `DepthLaws.CollectsIff` | backend/src/agent-workflow.ts:28-36 | looking for references in an input fails exactly when it nests deeper than twenty levels |
| `DepthLaws.FilledTooDeepIff` | backend/src/agent-workflow.ts:71-78 | a filled-in input nests too deeply exactly when a whole-string reference stands so deep that the value put there reaches below the bound |
| `DepthLaws.PreparationDeepensIff` | backend/src/ai-agent.ts:1639-1659 | a preparation that goes through makes the next one an exception exactly when it puts such a value into some step |
| `Verifier.VerifyOutcome` | backend/src/agent-mission-verifier.ts:204-220 | the verdict is complete exactly when no step failed and every objective has evidence; the lists are the satisfied and the missing objectives in order |
| `EvidenceLaws.ObjectiveIsMetIff` | backend/src/agent-mission-verifier.ts:107-202 | an objective is met exactly when one finished step shows what its action asks for: a channel receipt with an activity or an ended sequence for sending, the id the answer gives for creating, the record asked for with its fields for updating, and so on for all twelve actions |
| `EvidenceLaws.GoalIsReachedIff` | backend/src/agent-mission-verifier.ts:204-220 | the goal is reached exactly when no step failed and every objective is met so |
| `EvidenceLaws.FieldIff` | backend/src/agent-mission-verifier.ts:17-26 | a field is read exactly when it is an own member of an object |
| `EvidenceLaws.HasTextIff` | backend/src/agent-mission-verifier.ts:21-26 | there is text under a dotted path exactly when its names lead, own member by own member, to a string that is not blank |
| `EvidenceLaws.AtLeastIff` | backend/src/agent-mission-verifier.ts:150-158 | a printed count is at least a bound exactly when the number is |
| `EvidenceLaws.MatchesTargetIff` | backend/src/agent-mission-verifier.ts:62-67 | a step is about a record exactly when one of the four ids of its input is the record's, or a piece of its path is |
| `Verifier.MetPartition` | backend/src/agent-mission-verifier.ts:213-219 | satisfied and missing objectives partition the objectives |
| `Verifier.MoreStepsKeepObjectives` | backend/src/agent-mission-verifier.ts:107-202 | more steps never lose an objective, and never completeness unless one of them failed |
| `Verifier.OnlyEvidenceMatters` | backend/src/agent-mission-verifier.ts:107-220 | the verdict reads nothing but finished steps with a result and whether a step failed |
| `Recovery.DecideRecovery` | backend/src/agent-recovery.ts:23-49 | a step is retried exactly when it may be repeated safely and its error mentions a passing disturbance and none of permission, a missing object or a malformed input; it stops exactly for external steps and refused permission; all else is replanned |
| `PlanLaws.RetriedIff` | backend/src/agent-recovery.ts:23-49 | a failed step is tried again exactly when it is not external, carries an idempotency key if it writes, and its error has one of the words of a passing disturbance and none of the words of the other categories |
| `RunStore.HydrateAfterPersist` | backend/src/ai-agent.ts:1498-1630 | reading back a written run gives its merged steps in order and its merged events in time order |
| `RunStore.OtherRunsUnchanged` | backend/src/ai-agent.ts:1566-1600 | writing one run leaves every other run reading exactly as before |
| `CheckpointLaws.NewestHoldsTheState` | backend/src/ai-agent.ts:1601-1622 | after every save the newest checkpoint of the run holds the saved state |
| `CheckpointLaws.OthersKeepTheirs` | backend/src/ai-agent.ts:1622-1628 | a save leaves the checkpoints of all other runs as they are, in order and number |
| `CheckpointLaws.NewestEightyStay` | backend/src/ai-agent.ts:1623-1628 | at most eighty checkpoints of a run stay, and none that goes is newer than one that stays |
| `RunStore.MergeLosesNoEvent` | backend/src/ai-agent.ts:1542-1547 | merging keeps the writer's events and adds exactly the stored ones it has not seen |
| `MissionSave.SkippedWins` | backend/src/ai-agent.ts:1534-1541 | a stored skip stays skipped exactly unless the writer says running or done; every other step is stored as written |
| `MissionSave.SaveReads` | backend/src/ai-agent.ts:1533-1630 | after a save the run has the union of the written and the stored events |
| `MissionSave.SaveIsOk` | backend/src/ai-agent.ts:1533-1630 | saving a sound run keeps run, log, completion and all checkpoints of the run sound |
| `MissionPasses.PrepareSound` | backend/src/ai-agent.ts:1639-1659 | preparation keeps a run sound: distinct ids and keys, valid signatures, frozen queued payloads, approvals on record, cleared writes, finished steps resting on finished ones, a sound graph |
| `MissionPasses.PropagateSound` | backend/src/ai-agent.ts:1661-1674 | so does failure propagation |
| `MissionMoves.PlannedBatchOk` | backend/src/ai-agent.ts:1285-1382 | a planned batch is new to the run, correctly signed and unapproved where it must be; it fits the graph unless the limits narrowed it |
| `MissionMoves.PlannedApprovalIff` | backend/src/ai-agent.ts:1293-1307 | a planned step is approved exactly when it is an ordinary write and the turn, not an automation, authorizes writes |
| `MissionMoves.RecoverSound` | backend/src/ai-agent.ts:1676-1700 | automatic recovery keeps the run sound |
| `MissionMoves.RewoundSound` | backend/src/ai-agent.ts:2624-2664 | rewinding an observer keeps the run sound |
| `MissionOps.PauseOk` | backend/src/ai-agent.ts:3096-3112 | pausing keeps the world sound, loses no event and completes nothing |
| `MissionOps.CancelOk` | backend/src/ai-agent.ts:3114-3142 | so does cancelling |
| `MissionOps.ApplySteerOk` | backend/src/ai-agent.ts:1420-1496 | so does applying a pending instruction |
| `MissionOps.EvaluatedOk` | backend/src/ai-agent.ts:2900-2982 | whatever the model's evaluation leads to may be stored |
| `MissionAdvance.RetryOk` | backend/src/ai-agent.ts:1676-1700 | an automatic retry is logged under a mark that excludes a second one |
| `MissionAdvance.AdvanceOk` | backend/src/ai-agent.ts:2612-2988 | advancing keeps the world sound, loses no event and completes a mission only on evidence |
| `MissionExecute.QueuedSound` | backend/src/ai-agent.ts:2518-2528 | queueing an external step freezes a reference-free payload and pays for one start; without a new approval there is an older one on record |
| `MissionExecute.ExecuteStepOk` | backend/src/ai-agent.ts:2483-2553 | executing a step on request keeps the world sound |
| `MissionFlight.BeginQueuedOk` | backend/src/ai-agent.ts:2555-2578 | starting a step in the background leaves the world sound with the action awaited |
| `MissionFlight.PauseInFlightOk` | backend/src/ai-agent.ts:3096-3112 | pausing while an action is awaited keeps it so |
| `MissionFlight.CancelInFlightOk` | backend/src/ai-agent.ts:3114-3142 | so does cancelling |
| `MissionFlight.SteerInFlightOk` | backend/src/ai-agent.ts:3144-3184 | so does steering, which is then only recorded |
| `MissionFlight.FinishQueuedOk` | backend/src/ai-agent.ts:2579-2610 | the end of the awaited action, whether it succeeds or fails, leaves the world sound |
| `MissionReplan.SteerOk` | backend/src/ai-agent.ts:3144-3184 | steering a resting mission keeps the world sound |
| `MissionReplan.ResumeOk` | backend/src/ai-agent.ts:2990-3094 | so does resuming, with a new plan or without |
| `MissionReplan.CreatePlanOk` | backend/src/ai-agent.ts:1990-2202 | the first stored state of a mission is sound |
| `MissionRestore.RestoreOk` | backend/src/ai-agent.ts:3304-3360 | restoring a checkpoint keeps the world sound and every stored event |
| `MissionRestore.RunAfterRestart` | backend/src/ai-agent.ts:3186-3206 | after a restart exactly the running steps have failed, the run has failed if one was running, and every other field but the events is unchanged |
| `MissionRestore.RestartOk` | backend/src/ai-agent.ts:3186-3206 | a restart keeps the world sound |
| `MissionRuns.OtherSaveIsElsewhere` | backend/src/ai-agent.ts:1533-1630 | saving another run is work elsewhere: this run and its checkpoints stay as they are |
| `MissionRuns.OpOk` | backend/src/ai-agent.ts:1990-3360 | every operation that may happen keeps the invariant and all events; only restore and restart are exempt from completing on evidence alone |
| `MissionRuns.EveryRunIsSound` | backend/src/ai-agent.ts:1990-3360 | the invariant holds after every sequence of operations, and no event of the mission is ever lost |
| `MissionRuns.SentAtMostOncePerQueueing` | backend/src/ai-agent.ts:2513-2528 | in every reachable world no payload of a step was sent more often than requests approved it and requests queued it again on an older approval; what was never approved was never sent; across recovery, restart and restore |
| `MissionRuns.EverySendWasApproved` | backend/src/ai-agent.ts:2564-2577 | every external action was started with a reference-free input after a request that approved exactly this input |
| `MissionRuns.EveryWriteWasCleared` | backend/src/ai-agent.ts:2516-2517 | a write that starts unapproved was itself filled in after planning, or put back by a restore, before it started |
| `MissionRuns.RetriedAtMostOnce` | backend/src/ai-agent.ts:1676-1700 | each step is retried automatically at most once, even across restores |
| `MissionRuns.RoundsStayBounded` | backend/src/ai-agent.ts:2863-2871 | in every reachable world the rounds counted are at least one and at most the mission's own limit, and that limit at most 24; so it is in every checkpoint of the mission |
| `MissionRuns.CompletedMeansVerified` | backend/src/ai-agent.ts:2819-2831 | a completed mission meets all its objectives, unless it was a conversation without steps or the last restore left nothing to do |
| `MissionEvidence.CompletedHasEvidence` | backend/src/agent-mission-verifier.ts:107-220 | every objective of a completed mission that has steps and was not closed by a restore was met by a finished step, and the log has the start of that very step, with that input |
| `MissionEvidence.CompletedSendWasSent` | backend/src/agent-mission-verifier.ts:144-153 | if something was to be sent, an external action was invoked after the user had approved it with exactly its input, or a sequence of messages has run to its end |
| `MissionEvidence.CompletedChangeWasWritten` | backend/src/agent-mission-verifier.ts:160-199 | what was to be updated or managed was written, and updated in the selected record; managing takes external actions too |
| `MissionEvidence.CompletedCreationWasPosted` | backend/src/agent-mission-verifier.ts:107-126 | a customer, lead, deal, document or memo that was to be created was posted to its own path |
| `MissionEvidence.CompletedExportWasRun` | backend/src/agent-mission-verifier.ts:187-196 | what was to be exported was exported from a trade document |
| `MissionEvidence.CompletedReadWasRead` | backend/src/agent-mission-verifier.ts:176-179 | what was to be read or analyzed was read, in the selected record if there is one |
| `MissionEvidence.UnknownIsNeverReached` | backend/src/agent-mission-verifier.ts:200-201 | a goal with an objective of unknown action is never reached |
| `MissionRuns.DoneIsClosed` | backend/src/ai-agent.ts:2499-2501 | in every reachable world finished and running steps have all dependencies done, provided nothing depends on an observer |
| `MissionRuns.GraphStaysSound` | backend/src/ai-agent.ts:1309-1382 | unless a plan was narrowed against its own dependencies, every reachable run has a sound graph |
| `MissionRuns.NextIsExecuteOrApproval` | backend/src/agent-mission-state.ts:16-26 | so while a waiting step has no failed or skipped ancestor the next node executes or asks for approval |
| `MissionRuns.EvaluatedExactlyWhenBlocked` | backend/src/agent-mission-state.ts:16-26 | and reaches evaluation exactly when everything left is blocked |
| `MissionProgress.MovesIff` | backend/src/ai-agent.ts:2555-2680 | such a mission moves (a step starts, something new is recorded, or approval is asked for) whenever advancing it ends without an exception; it stands still when preparation throws, and with an advance that brings no plans of its own it moves exactly unless preparation throws |
| `MissionProgress.ThrowingStandsStill` | backend/src/ai-agent.ts:1644 | once preparation throws, every advance is an exception that changes nothing and no step is started in the background, whatever comes from outside |
| `MissionProgress.ThrowingWasFilledIn` | backend/src/ai-agent.ts:1639-1659 | in every reachable world, a step at which preparation throws was filled in before |
| `MissionProgress.UnfilledMoves` | backend/src/ai-agent.ts:2555-2680 | so a mission with work to do moves as long as nothing of it was filled in |
| `MissionLog.QueueingsComeFromExecute` | backend/src/ai-agent.ts:2483-2528 | every queueing an operation adds is the one entry of a request by the run's owner with the signature of exactly the queued input, of a stored step, and records whether the request approved it |
| `MissionLog.QueuedWithoutApprovalIff` | backend/src/ai-agent.ts:2513-2528 | a request queues a step without approving it exactly when it comes from the owner, is not refused, carries the step's signature, and the step is external, failed and still approved from before |
| `MissionLog.SendsComeFromTheQueue` | backend/src/ai-agent.ts:2564-2577 | an external action is started only by the background runner, from a stored step that is queued and approved, with exactly the stored input |
| `MissionLog.FillingsComeFromReferences` | backend/src/ai-agent.ts:1639-1659 | only a step that has references in the stored run is ever filled in |
| `MissionLog.ReferenceFreeWritesStartApproved` | backend/src/ai-agent.ts:1639-1659 | from creation on, a write that never had references and was not put back by a restore before it starts, starts only approved |
| `MissionLog.PutBacksComeFromRestores` | backend/src/ai-agent.ts:3304-3360 | exactly the writes that a restore leaves ready or failed in the stored run are put on record as put back, and no other operation does that |
| `MissionLog.ClosedByRestoresOnly` | backend/src/ai-agent.ts:2483-3360 | no operation but a restore that goes through changes whether the last restore left nothing to do |
| `MissionLog.StoppedDoesNotMove` | backend/src/ai-agent.ts:2492-2495 | a paused, cancelled or completed mission is not advanced and no step of it is taken up |
| `MissionTheorems.CompletedIsFinal` | backend/src/ai-agent.ts:2483-3184 | no operation but restore and restart touches a completed mission |
| `MissionTheorems.RestartKeepsCompleted` | backend/src/ai-agent.ts:3186-3206 | a restart leaves it completed with the same steps |
| `MissionTheorems.RewindKeepsClosureIff` | backend/src/ai-agent.ts:2624-2664 | rewinding an observer keeps finished steps closed under dependencies exactly when no finished step depends on it |
| `MissionTheorems.RejectedRoundStaysOpen` | backend/src/ai-agent.ts:2819-2986 | once the completion gate has rejected, the same round does not complete the mission by any branch |
| `MissionTheorems.ApprovedWriteMayStartUnapproved` | backend/src/ai-agent.ts:2564-2577 | an approved write starts in the background unapproved exactly when its input had references and the filled-in input needs a second confirmation |
| `MissionTheorems.StopSurvivesSuccess` | backend/src/ai-agent.ts:2579-2594 | a pause or cancellation that lands while an action is awaited survives its success: status kept, step done with its result, all other steps as stored, no event lost |
| `MissionTheorems.SteerSurvivesSuccess` | backend/src/ai-agent.ts:2579-2610 | when all is done after a success, the steps that an instruction skipped meanwhile are still skipped and no event is lost; the awaited step is done with its result exactly unless it is an observer that is rewound at once |
| `MissionTheorems.FailureUndoesTheStop` | backend/src/ai-agent.ts:2598-2610 | if the action fails, the copy taken before it began is written back: the mission is in progress again and steps a cancellation failed are as they were |
| `MissionTheorems.StopIsKeptIff` | backend/src/ai-agent.ts:2579-2610 | when all is done, a mission paused or cancelled while an action was awaited has that status still exactly when the action succeeded |
| `MissionTheorems.RestoredWriteIsReadyIff` | backend/src/ai-agent.ts:3321-3356 | in the stored run after a restore no write is approved, and one is ready exactly when the checkpoint has it ready and it is not stored as skipped |
| `MissionTheorems.RestoreClosesIff` | backend/src/ai-agent.ts:3342-3356 | a restore completes the mission exactly when the checkpoint has no step ready, waiting, queued or running, whether or not the objectives, those of the checkpoint, are met |
| `MissionStores.AdvanceStores` | backend/src/ai-agent.ts:2612-2988 | whatever an advance stores, the mission is not stopped, no event is lost, skipped steps stay skipped and finished ones keep input and result, but for an observer that is rewound |
| `MissionEffects.PauseIs` | backend/src/ai-agent.ts:3096-3112 | pausing is refused exactly for others than the owner; it changes the status and its reason, and nothing where the mission has stopped or is completed |
| `MissionEffects.CancelIs` | backend/src/ai-agent.ts:3114-3142 | cancelling is refused exactly for others than the owner; what was ready or queued has failed, every other step is as it was |
| `MissionTurns.SteerIs` | backend/src/ai-agent.ts:3144-3184 | exactly when an instruction is refused; otherwise it is stored with everything unstarted skipped, and at rest the admitted batch takes its place, one round further, under the plan's goal and marked as applied |
| `MissionTurns.ResumeIs` | backend/src/ai-agent.ts:2990-3094 | exactly when a resumption is refused; a new plan replaces what had not started and what failed to be sent, without one the mission advances; used-up rounds give three more, up to 24 |
| `MissionTurns.CreatePlanIs` | backend/src/ai-agent.ts:1990-2202 | a mission is created exactly when its plan is admitted, in round one of twelve, with the status that the question, the ready steps and the waiting ones call for |
| `MissionRequests.RequestActsIff` | backend/src/ai-agent.ts:2483-2528 | a request to execute starts or queues something exactly when it comes from the owner, the mission is open and unexpired, the step's turn has come, the input that would run is final or can be filled in without a new approval, the signature is of exactly that input, and what needs approval has it; what it starts or queues is that step under that signature |
| `MissionRequests.OutOfOrderChangesNothing` | backend/src/ai-agent.ts:2489-2517 | any other request for a step with a final input, such as one signed for another input, changes nothing at all, and is an exception unless the step is under way or done |
| `MissionRequests.QueueingStores` | backend/src/ai-agent.ts:2518-2528 | a request in order for an external step stores it queued and approved, with the mission in progress, and nothing else |
| `MissionRequests.RequestRuns` | backend/src/ai-agent.ts:2529-2553 | for any other step it runs it at once: the start is on record with the step as it ran, the result or failure is stored with the step and the status that follows, and the mission advances |
| `MissionTakeups.TakesUpIff` | backend/src/ai-agent.ts:2555-2578 | the background runner starts a step exactly when the account is active, the mission in progress, the step ready or queued, its turn come and its references resolvable; where they are not the step has failed, in any other case nothing changes |
| `MissionTakeups.FinishIs` | backend/src/ai-agent.ts:2579-2610 | unless the mission was stopped and the action succeeded, its end is written from the copy taken before: the step with its result or failure, the mission in progress, stored skips kept; then the mission advances |
| `MissionGate.GateIsRuled` | backend/src/ai-agent.ts:2819-2988 | from the completion gate on, the mission is stored exactly as ruled, over both saves of the model's round: completed only on evidence, extended by documents, failed at the limit of rounds or without a model, and else as the model's evaluation or the fallback says |
| `MissionOutcomes.AdvanceIsRuled` | backend/src/ai-agent.ts:2612-2988 | when an advance changes nothing, when it is an exception, when it polls an observer, and for everything else what it stores: instruction, execution, approval, recovery, observers, gate, in this order |
| `MissionOutcomes.PolledNextIff` | backend/src/ai-agent.ts:2627-2646 | the observer that is rewound is the latest search progress that names its search, and else the latest sequence progress that names its sequence |
| `MissionOutcomes.LatestFailure` | backend/src/ai-agent.ts:1676-1680 | the failure recovery looks at is the latest one |
| `MissionOutcomes.LimitEndsTheMission` | backend/src/ai-agent.ts:2863-2871 | a mission that has used up its rounds, whose gate rejects it and for which no document is to be made, has failed for that reason after the advance |
| `MissionRollbacks.RestoreIsAllowedIff` | backend/src/ai-agent.ts:3304-3319 | a restore goes through exactly when the user owns the mission, the account is active, the checkpoint is found, no external step is queued, running or done, and every write that is done is done in the checkpoint; otherwise it changes nothing |
| `MissionRollbacks.RestoreIs` | backend/src/ai-agent.ts:3320-3360 | what it stores: everything but identity and expiry from the checkpoint, each step as put back there unless it is stored as skipped |
| `MissionRollbacks.OperationKeepsSent` | backend/src/ai-agent.ts:3304-3313 | no operation, restores and restarts included, takes back an external step that is done |
| `MissionRollbacks.SentStaysSent` | backend/src/ai-agent.ts:3304-3313 | so over every run it stays done, with the input it was sent with and the result it came back with |
| `MissionWitnesses.OneApprovalTwoSends` | backend/src/ai-agent.ts:2513-2528 | a mission, from its creation on, in which an external action is sent twice on one approval |
| `MissionWitnesses.AnAuthorizedWriteStartsUnapproved` | backend/src/ai-agent.ts:1645-1648 | a mission in which an authorized call becomes a deletion when it is filled in, and starts unapproved |
| `RestoreWitness.ARestoredWriteStartsUnapproved` | backend/src/ai-agent.ts:3321-3356 | a mission in which an authorized write without references starts unapproved after the first checkpoint was restored |
| `StandstillWitness.AMissionStandsStill` | backend/src/ai-agent.ts:1644 | a mission with work to do, none of its steps failed, that no advance, no background start and no request to execute a step changes |
| `MissionWitnesses.APauseIsLost` | backend/src/ai-agent.ts:2598-2610 | a mission that is paused while an action is awaited, and no longer paused once the action fails |
| `MissionWitnesses.ADoneStepLosesItsFooting` | backend/src/ai-agent.ts:2624-2664 | a mission in which an observer is rewound under a finished step that waits for it |
| `MissionEngine.OperationKeeps` | backend/src/ai-agent.ts:2483-3360 | every operation that may happen to a mission in order leaves it in order with all events and log entries, and no payload sent more often than it was approved and queued again |
| `MissionEngine.CrmStore.MergeSteps` | backend/src/ai-agent.ts:1534-1541 | the loop of the save that lets stored skips win |
| `MissionEngine.CrmStore.PersistRunRecords` | backend/src/ai-agent.ts:1533-1630 | rewriting the four tables does what the save of the specification does |
| `MissionEngine.CrmStore.PauseMission` | backend/src/ai-agent.ts:3096-3112 | the tables and the outcome are those of the specified operation; a mission in order stays in order, loses no event, and sends stay bounded |
| `MissionEngine.CrmStore.CancelMissionRun` | backend/src/ai-agent.ts:3114-3142 | the loop and the save give the specified cancelled state; a mission in order stays in order and loses no event |
| `MissionEngine.CrmStore.InvalidateUnstarted` | backend/src/ai-agent.ts:3166-3173 | the loop skips exactly the unstarted steps and says whether there were any |
| `MissionEngine.CrmStore.SteerMission` | backend/src/ai-agent.ts:3144-3184 | the tables and the outcome are those of the specified operation; a mission in order stays in order, loses no event, and sends stay bounded |
| `MissionEngine.CrmStore.ApplyPendingSteer` | backend/src/ai-agent.ts:1420-1496 | a pending instruction installs the replacement steps as specified, or nothing changes |
| `MissionEngine.CrmStore.DropForResume` | backend/src/ai-agent.ts:3046-3057 | the loop skips exactly the unstarted steps and the external failures the user confirmed as not sent |
| `MissionEngine.CrmStore.ResumeMission` | backend/src/ai-agent.ts:2990-3094 | the tables and the outcome are those of the specified operation; a mission in order stays in order, loses no event, and sends stay bounded |
| `MissionEngine.CrmStore.AdvanceMission` | backend/src/ai-agent.ts:2612-2664 | the tables and the outcome are those of the specified operation; a mission in order stays in order, loses no event, and sends stay bounded |
| `MissionEngine.CrmStore.ExecuteAgentStep` | backend/src/ai-agent.ts:2483-2512 | checks, preparation and a second approval where the final input calls for one; a mission in order stays in order, loses no event, and sends stay bounded |
| `MissionEngine.CrmStore.BeginQueuedStep` | backend/src/ai-agent.ts:2555-2578 | the tables and the outcome are those of the specified operation; a mission in order stays in order, loses no event, and sends stay bounded |
| `MissionEngine.CrmStore.FinishQueuedStep` | backend/src/ai-agent.ts:2579-2610 | the tables and the outcome are those of the specified operation; a mission in order stays in order, loses no event, and sends stay bounded |
| `MissionEngine.CrmStore.RecoverInterrupted` | backend/src/ai-agent.ts:3186-3206 | the loop over the step table gives the specified restart, and every mission in order stays in order |
| `MissionEngine.CrmStore.RestoreCheckpoint` | backend/src/ai-agent.ts:3304-3360 | the tables and the outcome are those of the specified operation; a mission in order stays in order, loses no event, and sends stay bounded |
| `JsonText.ParseValue` | backend/src/ai-model-runtime.ts:460 | what is parsed is well formed and prints, with the rest, as the text |
| `JsonRoundTrip.ParseIffPrints` | backend/src/ai-model-runtime.ts:460 | a text parses to a tree exactly when the tree is well formed and prints as that text |
| `JsonScanner.ReadAt` | backend/src/ai-model-runtime.ts:444-465 | the inner loop reads an object at a brace exactly when the scan closes there and the enclosed text parses |
| `JsonScanner.ExtractJsonObject` | backend/src/ai-model-runtime.ts:435-468 | the result is the object at the least place that can be read; there is none exactly when no place can |
| `JsonScannerLaws.ValueIsLevel` | backend/src/ai-model-runtime.ts:448-457 | on every JSON value the automaton returns to its state and never goes below its depth |
| `JsonScannerLaws.ClosesAtEnd` | backend/src/ai-model-runtime.ts:448-459 | on an object text the depth first returns to zero at its last character |
| `JsonScannerLaws.CleanAround` | backend/src/ai-model-runtime.ts:436-441 | trimming and removing fences leaves the object text and cannot bring a brace before it |
| `JsonScannerLaws.ObjectIsReadFirst` | backend/src/ai-model-runtime.ts:435-468 | for every object text, every text before it without an opening brace and every text after it, exactly the object is read and nothing before it |
| `JsonScannerLaws.ExtractedIsTheObject` | backend/src/ai-model-runtime.ts:435-468 | so the extraction returns that object |
| `AgentJobs.TimesAlwaysOk` | backend/src/agent-jobs.ts:286-380 | in every history the next attempt is set exactly while queued or scheduled and the end exactly when finished |
| `AgentJobs.AttemptsAreBounded` | backend/src/agent-jobs.ts:286-380 | attempts never exceed the initial limit plus the accepted retries by hand |
| `AgentJobs.WithoutRetriesWithinLimit` | backend/src/agent-jobs.ts:286-337 | without such retries they never exceed the job's own limit, which does not change |
| `AgentJobs.Absorbing` | backend/src/agent-jobs.ts:286-380 | succeeded and cancelled jobs never change again |
| `AgentJobs.RetryOvershootsIff` | backend/src/agent-jobs.ts:339-351 | a retry takes attempts above the limit exactly when they were used up and the job failed without a dead letter or was attempted ten times |
| `AgentJobs.InterruptedJobOvershoots` | backend/src/agent-jobs.ts:339-380 | a history in which that happens |
| `AgentJobs.LookupIsTheMap` | backend/src/agent-jobs.ts:75-102 | primaries first, then aliases, answers exactly the one map from keys to jobs, which is single-valued |
| `AgentJobs.EnqueueBindsOneKey` | backend/src/agent-jobs.ts:153-208 | enqueueing under an unbound key binds that key to the new job and no other |
| `AgentJobs.AttachBindsOneKey` | backend/src/agent-jobs.ts:104-151 | attaching an alias binds that key to its job and no other |
| `AgentJobs.BridgeBindsNoKey` | backend/src/agent-jobs.ts:225-284 | a bridge job joins without touching the generic index |
| `AgentJobs.BoundKeyNeverMoves` | backend/src/agent-jobs.ts:75-208 | in every history a bound key stays bound to the same job |
| `JobStore.AgentJob.Start` | backend/src/agent-jobs.ts:286-304 | starts exactly when queued or due, and sets the state the histories use |
| `JobStore.AgentJob.Complete` | backend/src/agent-jobs.ts:306-315 | completes exactly a running job |
| `JobStore.AgentJob.Fail` | backend/src/agent-jobs.ts:317-337 | schedules a retry, fails or dead-letters as specified, and nothing on a bad time |
| `JobStore.AgentJob.Retry` | backend/src/agent-jobs.ts:339-351 | requeues exactly failed jobs and dead letters |
| `JobStore.AgentJob.Cancel` | backend/src/agent-jobs.ts:353-362 | cancels exactly queued, running and scheduled jobs |
| `JobStore.JobStore.FindByIdempotency` | backend/src/agent-jobs.ts:75-102 | finds the job the index binds the key to |
| `JobStore.JobStore.Attach` | backend/src/agent-jobs.ts:104-151 | succeeds exactly when the key is free or already the job's, and extends the map by that binding only |
| `JobStore.JobStore.Enqueue` | backend/src/agent-jobs.ts:153-208 | returns the bound job or adds exactly one, in the order of the source's checks |
| `JobStore.JobStore.RecoverInterrupted` | backend/src/agent-jobs.ts:364-380 | exactly the running jobs of the type fail |
| `Versions.CompareVersions` | backend/src/auto-updater.ts:328-355 | the loops compute the comparison the laws are about |
| `Versions.AgreesWithSemVer` | backend/src/auto-updater.ts:328-355 | on versions with one hyphen at most and no leading zeros the comparison is the precedence of section 11 of Semantic Versioning 2.0.0, and 0 means equal |
| `Versions.LowerIsStrictTotalOrder` | backend/src/auto-updater.ts:328-355 | that precedence is a strict total order |
| `Versions.CompareIsTotalOrder` | backend/src/auto-updater.ts:328-355 | so on such versions the comparison is antisymmetric, transitive and 0 only on equal versions |
| `Versions.EqualIff` | backend/src/auto-updater.ts:328-355 | for all strings, 0 exactly when the three numbers, in whatever notation JavaScript reads, and the text between the first two hyphens agree |
| `Versions.EqualsAreInterchangeable` | backend/src/auto-updater.ts:328-355 | strings that compare as 0 compare alike with every other |
| `Versions.AntisymmetricIff` | backend/src/auto-updater.ts:328-355 | for all strings, swapping the arguments negates the result exactly unless the first difference is between two spellings of one number; then both answers are -1 |
| `Versions.NewerIsTransitive` | backend/src/auto-updater.ts:328-355 | for all strings, newer than newer is newer |
| `Versions.ChainIncreases` | backend/src/auto-updater.ts:238-245 | a chain of offered updates strictly increases, whatever the versions look like |
| `Versions.Updater.CheckForUpdate` | backend/src/auto-updater.ts:219-266 | an update is offered exactly when the manifest loads, the installed version is supported and the latest is newer; progress and last result change as in the source |
| `CanonicalJson.SameStringIffSame` | backend/src/canonical-json.ts:1-18 | two values get the same string exactly when they are equal up to member order, undefined members and undefined read as null inside lists |
| `CanonicalJson.CanonicalIsJson` | backend/src/canonical-json.ts:16-18 | the string is JSON and parses to the normalized value's tree |
| `CanonicalJson.UndefinedInListCollides` | backend/src/canonical-json.ts:2-4 | a hole in a list and null get the same string |
| `CustomerPool.EveryHistoryTellsTheState` | backend/src/customer-public-pool.ts:109-160 | replaying the events reproduces owner and pool status, each event starts where the last ended, releases and claims alternate, the version grew by their number |
| `CustomerPool.OneSuccessPerVersion` | backend/src/customer-public-pool.ts:65-68 | of all attempts expecting one version at most one succeeds |
| `PoolStore.PoolStore.FindCustomer` | backend/src/customer-public-pool.ts:61 | finds the first customer with the id |
| `PoolStore.PoolStore.CloseTodos` | backend/src/customer-public-pool.ts:140-148 | closes exactly the open todos of the customer and lists them |
| `PoolStore.PoolStore.MutateOwnership` | backend/src/customer-public-pool.ts:57-160 | after every attempt the events of each customer, picked from those of all, still tell how it came to its state; an unknown customer is refused, and no other customer changes |
| `PoolStore.PoolStore.Mutate` | backend/src/customer-public-pool.ts:57-160 | refuses in the order of the source's checks and changes nothing then; otherwise writes the specified record, one event, and leaves no open todo on release |

## Left out

- Model calls, prompts, budgets, HTTP, timers and tool bodies: their results are arbitrary arguments.
- Language understanding, goal compilation and the deterministic intent builders: their results are arbitrary plans.
- Titles are kept, but summary, progress, current action, conversation ids and `updatedAt` of a run are not modelled; a rewound observer keeps its title.
- Event texts are kept only as far as the engine reads them back; audit details, some additional notes and the details in the reasons a mission ends with are left out.
- MissionTurns.SteerIs: it assumes that no event marks an id as applied before that id has been drawn.
- The step results an observer or a document continuation is derived from enter `advanceAgentMission` as arguments.
- StepKeys.NormalizedIsKey: Unicode normalization (NFKC) and letter case beyond ASCII are left out.
- Random ids are new and event ids are never reused: the whole-run results assume this of every operation.
- Pausing and cancelling also touch outreach sequences and maintenance watches; those tables are left out.
- Interleavings other than those with an awaited background action, and several server processes at once.
- Letter case is folded for ASCII only; members inherited from JavaScript prototypes are absent.
- Reading numbers from arbitrary strings: the poll counter and counts in results are read as decimal digits.
- Goal fields of the verifier that regular expressions read from the goal text are part of the goal specification.
- JSON strings and numbers keep their spelling: decoding escapes and merging repeated member names are left out.
- ReferenceLaws.InOrderIsSimultaneous: the condition is exact for the single replacements (`ReferenceLaws.ReplacementsActIff`) but only sufficient for the whole text; a wrong replacement may by coincidence give the same text.
- Job priority, trace ids, payload encryption and the registration checks of bridge jobs.
- Versions.CompareVersions: numbers are unbounded where the source has double precision.
- The order of keys in canonical JSON is any total order; `localeCompare` may treat different spellings of a character as equal.
- CustomerPool.EveryHistoryTellsTheState: other code that changes an owner without an event is not part of this model.
- Customer fields other than ownership, and the MySQL transaction that repeats the mutation.
- API contracts, path policy, authorization tables, ranking heuristics, backups, exports and front end: a reading of the branches settles them or they have no crisp specification.
