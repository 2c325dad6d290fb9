# Anvil runtime: a verified model

Anvil drives a software project through thirteen phases, from intake to cleanup. A supervisor
(`DevelopmentManager`) selects the next phase on a dependency graph, hands it to a phase executor, retries
failures with exponential backoff, pauses for approval gates and for one round of intake questions, records
checkpoints, and can be stopped, rolled back, forced on and resumed after a crash. Around it stand the phase
graph, the checkpoint store, the implementation backend with its repair loop and its test container, and four
self-contained algorithms: grafting generated functions into a skeleton module, splitting and extending the
project contract, decoding the event stream, and merging configuration levels.

The model keeps the form of the code. `DevelopmentManager`, `CheckpointStore`, `RetryController`, `PhaseDAG`,
`LLMBackend`, `DockerExecutor` and `SseDecoder` are classes whose methods update fields and loop as the code does.
Each method of the supervisor is proved equal to a function on the run's whole state (module `Supervisor`), and to have
made exactly the store writes, in order, that module `Writes` lists, where a crash between them matters. The
properties of whole runs are proved about those functions: `Run` applies any sequence of steps, approvals,
clarifications, stops, rollbacks, force-advances, resumes and restarts to a new run.

What the supervisor cannot control is arbitrary: the outcome of every executor call, the checksums of the
workspace after every call and at every resume, and whether the contract file carries a contract. So is the
dependency graph, as long as `PhaseDAG.validate` accepts it; results about the default pipeline say so.

## Modules

| module | what it holds |
|---|---|
| `PhaseDag` | dependency graphs, readiness, reachability, validation |
| `Phases` | phases, gates, tiers, the gate maps, the default pipeline |
| `Checkpoints`, `Retries` | the store and the retry counters |
| `Supervisor` | every operation as a function on a run's state; whole runs |
| `Manager` | the supervisor class, proved against those functions |
| `Writes` | the entries each operation writes to the store, in order |
| `GateSafety`, `IntakeSafety`, `RetrySafety`, `LinearPipeline`, `Rollbacks`, `Dependencies` | properties of whole runs |
| `Operations` | what each user operation changes and what the run does next; what a tier runs |
| `Crashes`, `Lives` | crashes between the store writes of one operation; whole runs with crashes in them |
| `Witnesses` | concrete runs in which a property fails |
| `Units`, `UnitHistory` | implementation one artifact at a time: termination, nothing generated twice |
| `Backend`, `RepairSafety` | generation, verification and repair, and what they guarantee |
| `Docker`, `Protocol` | the container lifecycle; which docker command may follow which |
| `Graft`, `Contract`, `Sse`, `Merger` | the four algorithms |
| `Placement` | where each pass of a graft puts every line |
| `IntakeNotes` | what intake records in the contract file |
| `Options`, `Sequences`, `WhiteSpace` | shared helpers |

## One condition on the user

The code checks a post-gate only in the step that ran its phase, and a rollback override drops any pause. Gate
safety therefore needs a condition on the operations (`GateSafety.Permitted`): a rollback during a pause goes back at
least to the phase that paused, if that phase has completed, and force-advance is not used while questions are
pending. Both are visible to the caller before the call. What each part is for:

- During a gate pause, `GateSafety.RollbackKeepsGatesIff`: the completed gates stay answered exactly when the paused
  phase, with its own gate unanswered, is rolled back too. `Witnesses.SkippedGateIsReachable` is a run in which a later
  rollback makes the supervisor dispatch a phase behind an unapproved gate.
- During pending questions, `IntakeSafety.RollbackKeepsSealIff`: no completed intake is left unsealed exactly when the
  rollback takes intake back. `Witnesses.UnsealedDispatchIsReachable` dispatches a phase on an unsealed contract after a
  late rollback or a force-advance.
- `GateSafety.ForceAdvanceDisciplinedIff`: force-advance keeps the pause discipline exactly when no questions are pending.
  From every state with questions pending on an unsealed contract, the dispatch after a force-advance is made unsealed
  (`Rollbacks.ForceAdvanceRunsUnsealed`).

Between operations the process may die at any time. Inside an operation it may die between two writes to the store, or
between two retries. `Crashes.StepIsStepwise` shows that the stores a crash in a step can leave are exactly those the
step writes; `Crashes.CrashInStepKeepsInvIff` says, from the state before the step and its outcome, exactly when a crash
loses a gate, and `Crashes.HarmlessWithoutGate` what can be seen beforehand: no crash does when the phase that is next
has no unapproved gate.

## Where the code differs from what is said of it

- A post-gate pause is promised to survive a restart, but a step saves the completion of a phase several writes before it
  saves the pause. A crash in between loses the gate (`Crashes.CrashInStepKeepsInvIff`, with the run
  `Lives.CrashSkipsGate`). A start that dies before its gates are saved leaves a run without gates
  (`Lives.CrashInStartKeepsInvIff`).
- A crash can also lose a generated unit, which is then generated again (`Crashes.CrashInStepKeepsProgressIff`), and,
  after the proposal's completion, the tier's exclusions, so that phases outside the tier run later
  (`Crashes.CrashInStepKeepsTierIff`). Answers are written to the file before the round is saved: after a crash in between
  the questions are asked again (`Lives.CrashInClarificationAsksAgain`) and the answers stand in the file twice
  (`IntakeNotes.AnswersRecordedTwice`).
- Dependencies of a completed phase are completed or excluded while the tier stays the same
  (`Dependencies.DependenciesStayDone`), and on the default pipeline always (`Dependencies.LinearDependenciesDone`).
  On another graph a proposal that is rolled back and assessed with a larger tier brings a dependency back:
  `Dependencies.StepKeepsDependenciesIff` gives the exact condition and `Dependencies.DependencyComesBack` a run.
- `graft_module` is documented never to raise on model output, but the merged lines are parsed twice outside its
  `try` (graft.py:116 and 164). `Graft.GraftRaisesIff` says exactly when a parse error escapes, and
  `Graft.TabIndentationRaises` gives a skeleton and a generated method for which it does.
- Rollback clears unit progress with `any(... pop ...)`, which stops at the first phase that had progress
  (development_manager.py:783). With the backend's units only implementation ever has progress, and rolling back twice is
  rolling back once (`UnitHistory.RollbackIsIdempotent`). With an executor that reports units of several phases it is
  exactly when at most one affected phase has progress (`Rollbacks.RollbackIsIdempotentIff`); `Witnesses.TwoRollbacksDiffer`
  is a run in which it is not.
- Failures between two resets of a counter are not bounded by the budget plus one alone: after an escalation any
  override that leaves the counter in place allows one more. `RetrySafety.FailuresAndBackoffAreBounded` counts them, and
  `Witnesses.RollbackBuysAFailure` is a run in which a rollback to a later phase does it.
- `resume_run` announces a next phase without regard to tier exclusions. `LinearPipeline.ResumeFromMatchesStepIff` says
  when the announcement is what `step` will do, and `Witnesses.AnnouncedPhaseNeverRuns` is a run in which it is not.
- Resume promises to restart from the earliest invalid phase rather than skipping it, and rewinds only that phase and
  its dependents. On a graph that is not a line another changed phase can stay completed:
  `Rollbacks.ResumeLeavesOnlyValidIff` says when none does, `Witnesses.ChangedPhaseStaysCompleted` is a run in which one does.
- The adapter treats docker trouble as a failed step, but a `docker run` that succeeds without output makes
  `_ensure_container` raise an index error, a `docker rm` without a command line raises from the `finally`, and what the
  subprocess call or the provider raises, other than a timeout or a missing program, is not caught at all.
  `RepairSafety.EscapesIff` says that an exception leaves the pass in exactly these cases, and
  `RepairSafety.NamelessContainerEscapes` gives the inputs of the first.
- The result of `docker rm` is ignored, a `docker run` that times out may have started a container, and the identifier is
  taken from the last line of output and errors together, so a warning there is tracked in its place. In each case a
  container keeps running while the next one may start. `RepairSafety.NothingLeftRunningIff` says exactly when a pass ends
  with no container running and when two ran at once; `Docker.TwoContainersAtOnce` and `Docker.WarningHidesContainer` give
  replies for which it ends badly.
- Merging configuration levels is not associative when a value of another kind stands between two containers.
  `Merger.MergeAssociativeIff` gives the exact condition and `Merger.MismatchBreaksRegrouping` a concrete case.

## Model

| member | source | states |
|---|---|---|
| PhaseDag.PhaseDAG.constructor | runtime/anvil_runtime/core/phase_dag.py:26-37 | the canonical order lists every node once: known phases first, others in insertion order |
| PhaseDag.OrderIsCanonical | runtime/anvil_runtime/core/phase_dag.py:32-37 | of two nodes the standard one comes first; two standard ones stand as in the standard list, two others as inserted |
| PhaseDag.PhaseDAG.ReadyPhases | runtime/anvil_runtime/core/phase_dag.py:47-58 | returns exactly the uncompleted phases whose prerequisites are done, in canonical order |
| PhaseDag.PhaseDAG.Next | runtime/anvil_runtime/core/phase_dag.py:60-63 | the first ready phase, or none |
| PhaseDag.PhaseDAG.DownstreamOf | runtime/anvil_runtime/core/phase_dag.py:65-84 | on any graph, exactly the other phases that reach the given one by one or more dependency edges, without duplicates, in canonical order |
| PhaseDag.PhaseDAG.Validate | runtime/anvil_runtime/core/phase_dag.py:86-109 | accepts iff every dependency is known and the graph is acyclic; a cycle report lists exactly the nodes on a cycle or leading into one |
| PhaseDag.PhaseDAG.Resolve | runtime/anvil_runtime/core/phase_dag.py:97-106 | the fixpoint ends with a set that has a dependency-first listing and a remainder in which every node waits for another |
| PhaseDag.ResolutionVerdict | runtime/anvil_runtime/core/phase_dag.py:107-109 | after the fixpoint the unresolved nodes are exactly those leading to a cycle, so everything is resolved iff the graph is acyclic |
| PhaseDag.StuckReachesCycle | runtime/anvil_runtime/core/phase_dag.py:95-96 | from any node of a stuck set a walk of pigeonhole length finds a node that reaches itself |
| PhaseDag.NoDeadlock | runtime/anvil_runtime/core/phase_dag.py:60-63 | on an accepted graph no next phase means every phase is in the completed set, for any set |
| PhaseDag.DownstreamMembers | runtime/anvil_runtime/core/phase_dag.py:65-84 | the specification of downstream is duplicate-free and is reachability |
| Phases.ComputeGateMaps | runtime/anvil_runtime/core/development_manager.py:245-265 | yolo has no gates, secure the four mandatory ones, and every requested phase a post-gate without replacing one; requests that name no phase are dropped |
| Phases.RequestedPhaseIff | runtime/anvil_runtime/core/development_manager.py:261-264 | a request stands for a phase iff it is the phase's name, bare or after the prefix |
| Phases.GatesAreRequested | runtime/anvil_runtime/core/development_manager.py:245-265 | a phase has a post-gate, its own, iff the mode is not yolo and a request names it or the mode is secure and it is one of the three mandatory ones; only deployment has a pre-gate, iff the mode is secure |
| Phases.MandatoryGates | runtime/anvil_runtime/core/development_manager.py:251-258 | the mandatory gates are three post-gates and pre-deployment before deployment |
| Phases.LinearDagIsValid | runtime/anvil_runtime/core/phase_dag.py:15-20 | the default pipeline is well formed, closed and acyclic |
| Phases.LinearReachesIff | runtime/anvil_runtime/core/phase_dag.py:15-20 | on the default pipeline one phase depends on another iff it comes later |
| Phases.LinearDownstream | runtime/anvil_runtime/core/phase_dag.py:65-84 | on the default pipeline downstream is exactly the later phases, in canonical order |
| Checkpoints.SaveCompletionSound | runtime/anvil_runtime/state/checkpoint_store.py:112-126 | saving a completion keeps the list strictly in canonical order and disjoint from the stale list, with exactly that phase's entry replaced |
| Checkpoints.InvalidateSound | runtime/anvil_runtime/state/checkpoint_store.py:136-149 | invalidating removes exactly the named phases' checkpoints, makes them stale and keeps the others in order |
| Checkpoints.EarliestInvalidIsFirst | runtime/anvil_runtime/state/checkpoint_store.py:151-178 | the phase found is the first completed one whose recorded checksums no longer match; none is found iff all match |
| Checkpoints.CheckpointStore.SavePhaseCompletion | runtime/anvil_runtime/state/checkpoint_store.py:112-126 | the run's entry becomes the specified one, other runs are untouched, and an unknown run is reported |
| Checkpoints.CheckpointStore.SaveRunMeta | runtime/anvil_runtime/state/checkpoint_store.py:103-110 | the run's entry becomes its update and no other run's entry changes; an unknown run is reported |
| Checkpoints.CheckpointStore.InvalidatePhases | runtime/anvil_runtime/state/checkpoint_store.py:136-149 | the run's lists become the specified ones; an unknown run is left alone |
| Checkpoints.CheckpointStore.EarliestInvalidPhase | runtime/anvil_runtime/state/checkpoint_store.py:151-178 | the scan over all phases finds the specified earliest invalid phase |
| Retries.TotalBackoffClosedForm | runtime/anvil_runtime/core/retry_controller.py:51-58 | the backoffs of n failures add up to base times (2^n - 1) |
| Retries.RetryController.RecordFailure | runtime/anvil_runtime/core/retry_controller.py:38-42 | one counter goes up by one and the new count is returned |
| Retries.RetryController.Reset | runtime/anvil_runtime/core/retry_controller.py:60-62 | one counter is forgotten, the others stay |
| Supervisor.FailureSpendsBudget | runtime/anvil_runtime/core/development_manager.py:569-578 | a failed dispatch leaves the run's context as it was and strictly reduces the remaining budget, so the retry loop ends |
| Supervisor.ReadyIsDispatched | runtime/anvil_runtime/core/development_manager.py:274-281 | in any state, dispatching a ready phase is never blocked: it succeeds or escalates, and an escalation changes only the status |
| Manager.DevelopmentManager.Start | runtime/anvil_runtime/core/development_manager.py:227-243 | a new run starts in the specified state, persisted with its gates in two writes |
| Manager.DevelopmentManager.DispatchPhase | runtime/anvil_runtime/core/development_manager.py:270-333 | one dispatch, blocked, failed, unit or completion, changes context, store and counters as specified |
| Manager.DevelopmentManager.HandleFailure | runtime/anvil_runtime/core/development_manager.py:371-399 | counts the failure and escalates when the budget is spent |
| Manager.DevelopmentManager.RecordUnit | runtime/anvil_runtime/core/development_manager.py:401-419 | new artifacts are appended to the phase's progress, without duplicates, in memory and in the store |
| Manager.DevelopmentManager.RecordSuccess | runtime/anvil_runtime/core/development_manager.py:421-463 | checkpoint, completed set, counter, progress and, after proposal, the tier's exclusions, each written when and as specified |
| Manager.DevelopmentManager.DispatchWithRetries | runtime/anvil_runtime/core/development_manager.py:569-578 | the loop ends, and in the specified state |
| Manager.DevelopmentManager.Step | runtime/anvil_runtime/core/development_manager.py:515-557 | from any state, one orchestration step, with its pre-gate, questions, seal and post-gate, is the specified step, and its store writes are the specified ones in order |
| Manager.DevelopmentManager.RunUntilPause | runtime/anvil_runtime/core/development_manager.py:560-567 | whenever any number of steps stops the run, the loop ends, and in the state that they all agree on |
| Manager.DevelopmentManager.SubmitApproval | runtime/anvil_runtime/core/development_manager.py:696-724 | a decision is rejected unless it is for the gate the run is paused at; a denial changes nothing |
| Manager.DevelopmentManager.SubmitClarification | runtime/anvil_runtime/core/development_manager.py:630-691 | rejected when sealed or not awaiting answers, and then nothing is written; otherwise questions and answers are appended to the file, intake is invalidated and the round goes up, in two writes |
| Manager.DevelopmentManager.ForceAdvance | runtime/anvil_runtime/core/development_manager.py:757-768 | the pending gate is approved and the run continues; pending questions stay |
| Manager.DevelopmentManager.Rollback | runtime/anvil_runtime/core/development_manager.py:773-794 | the target and everything downstream becomes incomplete and stale with fresh counters; the progress scan stops at its first hit |
| Manager.DevelopmentManager.RollbackOverride | runtime/anvil_runtime/core/development_manager.py:743-756 | a rollback that also drops any pause, with its writes in order |
| Manager.DevelopmentManager.ResumeRun | runtime/anvil_runtime/core/development_manager.py:797-842 | reloads the persisted fields, restores a pause, rewinds to the earliest invalid phase, for a live run and for a new process; the plan names the next phase, the completed phases and exactly what was invalidated |
| GateSafety.StartKeeps | runtime/anvil_runtime/core/development_manager.py:227-243 | a new run satisfies the invariant: store and context in sync, store sound, pauses disciplined, gates answered, every dispatch so far safe |
| GateSafety.StepKeeps | runtime/anvil_runtime/core/development_manager.py:515-557 | a step keeps the invariant, whatever the executor answers |
| GateSafety.DispatchPhaseKeeps | runtime/anvil_runtime/core/development_manager.py:274-281 | a dispatch selected by a step is never blocked and keeps the invariant up to the phase's own unchecked gate |
| GateSafety.SubmitClarificationKeeps | runtime/anvil_runtime/core/development_manager.py:630-668 | a clarification keeps the invariant |
| GateSafety.RollbackOverrideKeeps | runtime/anvil_runtime/core/development_manager.py:743-756 | a rollback that reaches the paused phase keeps the invariant |
| GateSafety.RollbackKeepsGatesIff | runtime/anvil_runtime/core/development_manager.py:743-756 | a rollback override keeps every completed gate answered iff the paused phase, when completed with its own gate unanswered, is rolled back with it |
| GateSafety.ForceAdvanceKeeps | runtime/anvil_runtime/core/development_manager.py:757-768 | force-advance without pending questions keeps the invariant |
| GateSafety.ForceAdvanceDisciplinedIff | runtime/anvil_runtime/core/development_manager.py:757-768 | force-advance keeps the pause discipline iff no questions are pending |
| GateSafety.RehydrateRebuilds | runtime/anvil_runtime/core/development_manager.py:805-824 | reloading an in-sync store rebuilds the context up to its unpersisted status |
| GateSafety.ResumeKeeps | runtime/anvil_runtime/core/development_manager.py:797-842 | resuming live or after a restart keeps the invariant, whatever happened to the workspace |
| GateSafety.RunKeeps | runtime/anvil_runtime/core/development_manager.py:515-842 | the invariant holds after every permitted sequence of operations |
| GateSafety.SecureGatesGuardEveryDispatch | runtime/anvil_runtime/core/development_manager.py:532-556 | in a secure run no phase is dispatched while a completed proposal, architecture or blueprint is unapproved, and deployment only after pre-deployment is approved |
| GateSafety.EveryDispatchIsReady | runtime/anvil_runtime/core/development_manager.py:522-536 | in every run a dispatched phase is neither completed nor excluded by the tier, its prerequisites are, and the run was running |
| GateSafety.ReachableIff | runtime/anvil_runtime/core/development_manager.py:515-842 | the states linked to the start by permitted operations are exactly the results of permitted runs |
| GateSafety.RestartRebuildsRun | runtime/anvil_runtime/core/development_manager.py:797-842 | when all checksums match, a new process rebuilds the live run: equal context up to a stopped, escalated or completed status, with the same pause, and the same store |
| GateSafety.StoreStaysSound | runtime/anvil_runtime/state/checkpoint_store.py:103-147 | in every reachable state the stored completed list is strictly canonical, disjoint from the stale list and equal to the completed set in memory |
| GateSafety.YoloNeverPauses | runtime/anvil_runtime/core/development_manager.py:580-588 | a yolo run never awaits approval or answers |
| Operations.ApprovalIsExact | runtime/anvil_runtime/core/development_manager.py:696-724 | granting the gate the run waits at adds exactly that gate to the approved ones in memory and store, ends the pause and lets the run go on, with its next phase or gate; any other decision changes nothing |
| Operations.StoppedRunIsQuiet | runtime/anvil_runtime/core/development_manager.py:735-742 | stopping changes the status alone, and no number of steps changes a stopped run |
| Operations.ForceAdvanceIsExact | runtime/anvil_runtime/core/development_manager.py:757-768 | force-advance approves the pending gate, if any, in memory and store, and lets the run go on; nothing else changes |
| Operations.RollbackOverrideIsExact | runtime/anvil_runtime/core/development_manager.py:743-756 | a rollback override drops every pause, leaves exactly the target and its dependents incomplete and lets the run go on; approvals, gates, exclusions, round and seal stay |
| Operations.ClarificationIsExact | runtime/anvil_runtime/core/development_manager.py:630-668 | an accepted clarification takes back intake alone, starts the round in which it may not ask, and lets the run go on; a rejected one changes nothing |
| Operations.RunningGoesOn | runtime/anvil_runtime/core/development_manager.py:515-547 | a step of a running run finishes it, pauses at the next phase's unapproved pre-gate, or first of all hands that phase to the executor in the context as it stands |
| Operations.ExecutorIsTold | runtime/anvil_runtime/core/development_manager.py:283-300 | a dispatch asks the executor for questions only in the first round of a run that is not yolo, tells implementation alone what it has generated, and logs the answer with the context it was given |
| Operations.FailureIsExact | runtime/anvil_runtime/core/development_manager.py:371-399 | a failure is counted, and escalates iff the count exceeds the retries; nothing else changes |
| Operations.RetryIsExact | runtime/anvil_runtime/core/development_manager.py:569-578 | after a failure that is not the last allowed the run sleeps the base delay doubled once per earlier failure and dispatches again; any other dispatch is not repeated |
| Operations.UnitIsExact | runtime/anvil_runtime/core/development_manager.py:401-419 | a unit adds its artifacts to the phase's progress in memory and store; nothing else changes |
| Operations.UnitsAreRecordedOnce | runtime/anvil_runtime/core/development_manager.py:408-412 | recorded units come after those that were there, none is lost or made up, none stands twice |
| Operations.OneMoreUnit | runtime/anvil_runtime/core/development_manager.py:408-412 | of one more unit only a new one is added, at the end |
| Operations.CompletionIsExact | runtime/anvil_runtime/core/development_manager.py:421-463 | a completion adds the phase with a checkpoint of exactly the reported artifacts that exist, drops its progress and counter and, after the proposal, selects the configured or else the assessed tier, in memory and store alike; nothing else changes |
| Operations.PausesAreExact | runtime/anvil_runtime/core/development_manager.py:540-556 | after a dispatch, questions of intake in a first round pause the run; else intake is sealed iff the file carries a contract, and an unapproved gate after the phase pauses the run |
| Operations.RehydrationIsExact | runtime/anvil_runtime/core/development_manager.py:805-824 | a resume reads back every persisted field and the pause that was active, a gate only if it is still unapproved |
| IntakeSafety.AtMostOneClarification | runtime/anvil_runtime/core/development_manager.py:612-668 | a run receives at most one clarification and asks for none after it; awaiting one implies round 0 and not yolo |
| IntakeSafety.SealedBeforeLaterPhases | runtime/anvil_runtime/core/development_manager.py:548-552 | on a markered file no phase is dispatched on top of a completed intake before the contract is sealed |
| IntakeSafety.SealNeverReverts | runtime/anvil_runtime/core/development_manager.py:590-608 | memory and store agree about the seal, and no operation, permitted or not, undoes it |
| IntakeSafety.SealOutlivesEveryRun | runtime/anvil_runtime/core/development_manager.py:590-608 | a sealed run stays sealed over every continuation by arbitrary operations |
| IntakeSafety.RollbackKeepsSealIff | runtime/anvil_runtime/core/development_manager.py:743-756 | during pending questions a rollback override leaves no completed intake unsealed iff it takes intake back |
| RetrySafety.FailuresAndBackoffAreBounded | runtime/anvil_runtime/core/development_manager.py:371-399 | between counter resets a phase records at most maxRetries + 1 failures plus one per override, and sleeps at most base * (2^maxRetries - 1) in all, also across units |
| RetrySafety.EscalatesIff | runtime/anvil_runtime/core/development_manager.py:569-578 | dispatching a ready phase escalates iff as many dispatches in a row as its budget leaves all fail; it then records exactly failure maxRetries + 1 |
| LinearPipeline.CompletedIsInitialSegment | runtime/anvil_runtime/core/phase_dag.py:15-20 | on the default pipeline the completed set is an initial segment in every reachable state |
| LinearPipeline.LaterPhasesAreApproved | runtime/anvil_runtime/core/development_manager.py:553-556 | in a secure run a completed phase after proposal, architecture or blueprint means that gate is approved, in every reachable state |
| LinearPipeline.FinishedMeansDone | runtime/anvil_runtime/core/development_manager.py:524-531 | on any accepted graph a step of a running run reports completion iff every phase is completed or excluded |
| LinearPipeline.TierExclusionsTrail | runtime/anvil_runtime/core/development_manager.py:63-72 | what a tier excludes is a final segment of the pipeline without intake and proposal |
| Operations.TierRuns | runtime/anvil_runtime/core/development_manager.py:61-72 | a simple tier runs the phases up to implementation, a standard one those up to QA, any other all of them |
| Operations.FinishedTierCompletes | runtime/anvil_runtime/core/development_manager.py:524-531 | when a run of the default pipeline finishes under a tier, every phase that tier runs has completed |
| LinearPipeline.ResumeKeepsLongestValidSegment | runtime/anvil_runtime/core/development_manager.py:824-834 | after arbitrary tampering a resume, live or in a new process, keeps exactly the longest initial segment of completed phases whose checkpoints all validate, in memory and in the store |
| LinearPipeline.ResumeFromMatchesStepIff | runtime/anvil_runtime/core/development_manager.py:835-842 | the announced phase is the one the next step selects iff all phases are completed or some phase is neither completed nor excluded |
| Rollbacks.RollbackIsExact | runtime/anvil_runtime/core/development_manager.py:773-794 | on any valid graph exactly the target and what depends on it leaves the completed set and the store, becomes stale and has its counter reset |
| Rollbacks.RollbackKeepsDependencies | runtime/anvil_runtime/core/development_manager.py:773-794 | what stays completed still has its dependencies completed or excluded |
| Dependencies.DependenciesStayDone | runtime/anvil_runtime/core/development_manager.py:522-531 | on any accepted graph, while the tier stays the same, every completed phase of a reachable state has its dependencies completed or excluded |
| Dependencies.LinearDependenciesDone | runtime/anvil_runtime/core/phase_dag.py:15-20 | on the default pipeline they are completed in every reachable state, whatever the tier does |
| Dependencies.StepKeepsDependenciesIff | runtime/anvil_runtime/core/development_manager.py:447-463 | a step keeps that iff the tier it assesses lets no uncompleted dependency of a completed phase back in |
| Dependencies.DependencyComesBack | runtime/anvil_runtime/core/development_manager.py:447-463 | a run on another graph in which a phase stays completed on one that is neither completed nor excluded |
| Rollbacks.RollbackIsIdempotentIff | runtime/anvil_runtime/core/development_manager.py:782-787 | for an arbitrary executor, rolling back twice is rolling back once iff at most one affected phase had progress |
| Rollbacks.CompletionIsWatched | runtime/anvil_runtime/core/development_manager.py:421-430 | a new checkpoint is valid later iff every reported artifact that existed then is unchanged |
| Rollbacks.RewindIsExact | runtime/anvil_runtime/core/development_manager.py:824-834 | on any valid graph a resume, live or in a new process, drops exactly the first completed phase whose artifacts changed and what depends on it |
| Rollbacks.ResumeLeavesOnlyValidIff | runtime/anvil_runtime/core/development_manager.py:826-832 | a resume, live or in a new process, leaves only valid checkpoints iff every changed phase is the first one or depends on it |
| Rollbacks.LateRollbackSkipsGate | runtime/anvil_runtime/core/development_manager.py:743-756 | from any run paused at the proposal gate, a rollback to QA followed by a step dispatches the third phase with the proposal unapproved |
| Rollbacks.ForceAdvanceRunsUnsealed | runtime/anvil_runtime/core/development_manager.py:757-768 | from any state with questions pending on an unsealed contract, the dispatch after a force-advance finds intake completed, if it was, and the contract unsealed |
| Witnesses.SkippedGateIsReachable | runtime/anvil_runtime/core/development_manager.py:553-556 | a secure run of the default pipeline pauses at the proposal gate after two steps and, two operations later, dispatches a phase with it unapproved |
| Witnesses.UnsealedDispatchIsReachable | runtime/anvil_runtime/core/development_manager.py:743-768 | a gated run asks a question; a force-advance or a late rollback and a step dispatch proposal on the unsealed contract |
| Witnesses.TwoRollbacksDiffer | runtime/anvil_runtime/core/development_manager.py:782-787 | a reachable state with progress in two phases in which a second rollback changes something |
| Witnesses.RollbackBuysAFailure | runtime/anvil_runtime/core/development_manager.py:571-578 | a permitted run in which intake records maxRetries + 2 failures without a reset |
| Witnesses.AnnouncedPhaseNeverRuns | runtime/anvil_runtime/core/development_manager.py:835-842 | a reachable state of a simple-tier run in which QA is announced and the next step finishes the run |
| Witnesses.ChangedPhaseStaysCompleted | runtime/anvil_runtime/core/development_manager.py:826-832 | on two independent phases, both changed, a resume leaves one completed with an invalid checkpoint |
| Crashes.StepIsStepwise | runtime/anvil_runtime/core/development_manager.py:421-463 | for any step, the stores a crash can leave are exactly the one before it and those it writes, in the order completion, progress, exclusions, seal, pause |
| Crashes.OverrideIsStepwise | runtime/anvil_runtime/core/development_manager.py:743-794 | likewise for a rollback override: invalidation, progress, pause |
| Crashes.OtherWrites | runtime/anvil_runtime/core/development_manager.py:652-662 | likewise between the two writes of a clarification and of a start |
| Crashes.CrashInStepKeepsInvIff | runtime/anvil_runtime/core/development_manager.py:515-588 | a crash after any number of a step's writes keeps the whole invariant over the restart iff the step completes no phase with an unapproved gate, or it falls before the completion or after the pause is saved, or the restart rewinds that phase |
| Crashes.HarmlessWithoutGate | runtime/anvil_runtime/core/development_manager.py:515-588 | a crash before the first write, after the last one, or with no unapproved gate after the next phase loses no gate |
| Crashes.CrashInStepKeepsSealIff | runtime/anvil_runtime/core/development_manager.py:540-552 | on a markered file a crash in a step leaves no completed, answered intake unsealed iff it does not fall between saving intake's completion and saving the seal or the questions, unless the restart rewinds intake |
| Crashes.CrashInStepKeepsProgressIff | runtime/anvil_runtime/core/development_manager.py:401-419 | a crash in a step keeps its unit progress iff it was saved or did not change |
| Crashes.CrashInStepKeepsTierIff | runtime/anvil_runtime/core/development_manager.py:421-463 | a crash in a step that completes the proposal leaves it completed under the old exclusions iff it falls between those two writes, the exclusions change and the restart keeps the proposal |
| Lives.CrashInRollbackKeeps | runtime/anvil_runtime/core/development_manager.py:743-756 | a crash between the writes of a rollback override keeps the invariant |
| Lives.CrashInClarificationKeeps | runtime/anvil_runtime/core/development_manager.py:652-662 | a crash between the writes of a clarification keeps the invariant |
| Lives.CrashInClarificationAsksAgain | runtime/anvil_runtime/core/development_manager.py:650-662 | a crash before or between the writes of a clarification, whose answers are in the file already, leaves the questions pending again |
| Lives.CrashInStartKeepsInvIff | runtime/anvil_runtime/core/development_manager.py:232-237 | a start that dies before its gates are saved keeps the invariant iff the run was to have no gates |
| Lives.SecureGatesSurviveCrashes | runtime/anvil_runtime/core/development_manager.py:515-842 | gate safety over every secure run of permitted operations and crashes in steps, rollbacks and clarifications, where no crash falls on a gate as in `Crashes.CrashInStepKeepsInvIff` |
| Lives.CrashSkipsGate | runtime/anvil_runtime/core/development_manager.py:423-430 | a secure run that dies right after the proposal's completion was saved comes back running and dispatches the third phase unapproved |
| Units.StepIsCloser | runtime/anvil_runtime/core/development_manager.py:515-567 | from any state, a step after which the run still runs has completed a phase or generated a target |
| Units.UnitsPause | runtime/anvil_runtime/core/development_manager.py:560-567 | with implementation units that make progress, as the backend's do, some number of steps stops any run, so the loop ends |
| Units.StopsAgree | runtime/anvil_runtime/core/development_manager.py:560-567 | any two numbers of steps that stop the run reach the same state |
| Units.PausedStateIsReached | runtime/anvil_runtime/core/development_manager.py:560-567 | the state the loop ends in is that of a run of steps, and is not running |
| Units.IdleUnitsNeverPause | runtime/anvil_runtime/core/development_manager.py:560-567 | with an executor that reports unfinished empty units forever, no number of steps stops a run that has reached implementation without a gate there |
| UnitHistory.NoArtifactIsGeneratedTwice | runtime/anvil_runtime/core/development_manager.py:291-321 | a recorded artifact is generated again only after the implementation phase completed or was rolled back in between, across retries and restarts |
| UnitHistory.CompletionMeansAllWritten | runtime/anvil_runtime/sdk/openhands_adapter.py:468-496 | when implementation completes through units it reports the whole target list, and every target had been written |
| UnitHistory.RollbackIsIdempotent | runtime/anvil_runtime/core/development_manager.py:773-787 | in every reachable state with the backend's units, rolling back twice is rolling back once |
| Backend.LLMBackend.GenerateOne | runtime/anvil_runtime/sdk/openhands_adapter.py:583-615 | at most two completions, up to the first that is not unusable; exactly that file is written with it if it is usable, and nothing is if it raises or both are unusable; all tokens are counted |
| Backend.LLMBackend.RunCodeUnit | runtime/anvil_runtime/sdk/openhands_adapter.py:455-496 | one unit is the specified one: result, files and service use, exceptions of the provider included |
| Backend.LLMBackend.RemainingTargets | runtime/anvil_runtime/sdk/openhands_adapter.py:465-466 | the targets not yet done, in plan order |
| Backend.LLMBackend.RepairFiles | runtime/anvil_runtime/sdk/openhands_adapter.py:877-911 | the loop is the specified repair, ends where a completion is unusable or raises, and counts every completion |
| Backend.LLMBackend.RepairLoop | runtime/anvil_runtime/sdk/openhands_adapter.py:812-847 | the loop is the specified sequence of test runs and rounds, in docker or on the host |
| Backend.LLMBackend.VerifyAndRepair | runtime/anvil_runtime/sdk/openhands_adapter.py:698-866 | the pass is the specified one: result, files, rounds, test runs, docker trace and tokens, exceptions of provider, tests and docker included, the container closed whatever happened |
| Backend.RepairedFrame | runtime/anvil_runtime/sdk/openhands_adapter.py:877-911 | a repair writes only files it asked a completion for, and ends at the first of the completions it may ask for that is unusable or raises, as that one says |
| Backend.RepairedTexts | runtime/anvil_runtime/sdk/openhands_adapter.py:890-910 | each file a usable completion was asked for holds the text of the last one asked for it |
| RepairSafety.SuccessIsVerified | runtime/anvil_runtime/sdk/openhands_adapter.py:812-866 | success means the test command exited 0 on the very sources left behind, as the answer of the last local run or of the last test command in docker, and no contract violation after any repair |
| RepairSafety.VerdictsAreReal | runtime/anvil_runtime/sdk/openhands_adapter.py:748-847 | the n-th verdict is the answer of the n-th local run, or of the n-th test command in docker, on the sources it names; a green one is the last and ends no pass in failure; a round starts only from sources tested red or violating the contract after a repair |
| RepairSafety.TokensAreCounted | runtime/anvil_runtime/sdk/openhands_adapter.py:598-615 | the tokens of a pass or unit that ends without an exception are those of all completions it asked for |
| RepairSafety.CommandsAreInOrder | runtime/anvil_runtime/verify/docker_executor.py:112-200 | the docker commands of a pass follow the rule of `Protocol.ProperNext`, the n-th has docker's n-th reply, and they end with a removal or a start that came to nothing; with a setup command every test runs in a container that was filled, then set up, then taken off the network, all successfully; without one nothing is set up |
| RepairSafety.FailureHasACause | runtime/anvil_runtime/sdk/openhands_adapter.py:748-866 | failure means an unusable completion, a docker command refused, or all rounds used and the sources left behind red |
| RepairSafety.EscapesIff | runtime/anvil_runtime/sdk/openhands_adapter.py:812-854 | an exception leaves the pass iff a completion or a local test run raised one, a docker command raised one, a container was started and nothing was printed, or the last command was a removal that was never answered |
| RepairSafety.TestsAreBounded | runtime/anvil_runtime/sdk/openhands_adapter.py:812-847 | at most repairMaxRounds rounds and one test run more, counting those docker broke; only the last one can be green |
| RepairSafety.OnlyImplicatedChange | runtime/anvil_runtime/sdk/openhands_adapter.py:725-830 | only files that did not compile or were implicated in a round change; each round repairs what the run before it implicates, or every artifact when that names none; and the repairs, one after the other, are all that happens to the sources |
| RepairSafety.ReplayedTouches | runtime/anvil_runtime/sdk/openhands_adapter.py:816-829 | over any number of rounds a file implicated in none of them is unchanged |
| RepairSafety.NothingLeftRunningIff | runtime/anvil_runtime/sdk/openhands_adapter.py:812-854 | a pass is safe throughout; when docker prints nobody else's identifier, at its end no container runs iff none came up under another name than the one tracked, no removal was refused and the last one was answered, and two ran at once iff one was started after such a loss |
| RepairSafety.GreenWorkSucceeds | runtime/anvil_runtime/sdk/openhands_adapter.py:812-866 | sources that compile and whose first local run is green succeed untouched |
| RepairSafety.GreenWorkSucceedsInDocker | runtime/anvil_runtime/sdk/openhands_adapter.py:748-866 | so they do in docker when every command succeeds |
| RepairSafety.NamelessContainerEscapes | runtime/anvil_runtime/verify/docker_executor.py:178-183 | a docker run that succeeds without output makes the pass end in an exception, with the container that came up running |
| RepairSafety.UnitsReportFairly | runtime/anvil_runtime/sdk/openhands_adapter.py:455-496 | what a unit reports is what the supervisor's unit mode relies on |
| RepairSafety.GeneratingUnit | runtime/anvil_runtime/sdk/openhands_adapter.py:468-489 | a generating unit goes by its first completion, or by the second if that is unusable: it succeeds and writes exactly the next target on a usable one, ends in an exception on one that raises, and fails and writes nothing otherwise |
| RepairSafety.FinalUnit | runtime/anvil_runtime/sdk/openhands_adapter.py:490-496 | the last unit succeeds at once without a test command, and with one iff the pass does, and then on green sources |
| Backend.TokensAddUp | runtime/anvil_runtime/sdk/openhands_adapter.py:583-615 | token counts of consecutive stretches of completions add up |
| Docker.DockerExecutor.EnsureContainer | runtime/anvil_runtime/verify/docker_executor.py:160-200 | starting and setting up is the specified sequence of commands |
| Docker.DockerExecutor.Run | runtime/anvil_runtime/verify/docker_executor.py:112-151 | copying in, testing and copying out is the specified sequence of commands, status and exit code |
| Docker.DockerExecutor.Close | runtime/anvil_runtime/verify/docker_executor.py:153-156 | closing issues a removal for the tracked container and forgets it unless there is no command line |
| Docker.RanKeeps | runtime/anvil_runtime/verify/docker_executor.py:112-151 | a test run keeps: while nothing is lost, what runs is the tracked container, the past was safe, the container is off the network; at most one test command, and the verdict is that command's on the present workspace |
| Docker.EnsuredKeeps | runtime/anvil_runtime/verify/docker_executor.py:160-200 | after preparing, a container is tracked and off the network, and no test has run |
| Docker.ClosedKeeps | runtime/anvil_runtime/verify/docker_executor.py:153-156 | closing keeps the same; a refused removal, or one that timed out and did nothing, counts as a loss |
| Docker.RanEndsAs | runtime/anvil_runtime/verify/docker_executor.py:112-151 | a test run issues commands and its last one decides the status: nameless iff it started a container and nothing was printed, an exception iff it raised one, an error iff it was refused where it has to succeed or there was no command line |
| Docker.EnsuredEndsAs | runtime/anvil_runtime/verify/docker_executor.py:160-200 | preparing ends likewise, and does nothing when a container is tracked |
| Docker.ClosedEndsAs | runtime/anvil_runtime/verify/docker_executor.py:153-156 | closing forgets the container iff the removal was answered or there was none to remove |
| Docker.TwoContainersAtOnce | runtime/anvil_runtime/verify/docker_executor.py:139-156 | replies for which a timed-out test and a refused removal leave two containers running |
| Docker.WarningHidesContainer | runtime/anvil_runtime/verify/docker_executor.py:178-189 | replies for which a warning is tracked in place of the identifier, the removal is answered with success and the container keeps running |
| Docker.TestIsSafeIff | runtime/anvil_runtime/verify/docker_executor.py:123-128 | copying in and testing is safe iff the container is off the network and the copy succeeded |
| Docker.SafeSnoc | runtime/anvil_runtime/verify/docker_executor.py:123-128 | a trace stays safe when a test command follows a successful copy into an unconnected container |
| Protocol.EnsuredConforms | runtime/anvil_runtime/verify/docker_executor.py:160-200 | preparing a container keeps the commands in order, and afterwards the workspace may be copied in to be tested, or the container removed |
| Protocol.RanConforms | runtime/anvil_runtime/verify/docker_executor.py:112-151 | a test run keeps the commands in order and leaves the session ready for the next one, or for closing |
| Protocol.ClosedConforms | runtime/anvil_runtime/verify/docker_executor.py:153-156 | so does closing |
| Protocol.RanAnswers | runtime/anvil_runtime/verify/docker_executor.py:112-151 | in a test run the n-th command of the session has docker's n-th reply |
| Protocol.TestsAreInstalled | runtime/anvil_runtime/verify/docker_executor.py:178-200 | in any trace whose commands are in order and with something to set up, each test's container was filled, set up and taken off the network since it was started |
| Graft.SpliceBottomUp | benchmarks/commit0/commit0_adapter/graft.py:95-105 | splicing in place from the bottom up equals replacing all spans simultaneously |
| Placement.LineLands | benchmarks/commit0/commit0_adapter/graft.py:95-105 | after a pass a line that no edit replaces stands as many lines further down as the edits above it add |
| Placement.EditLands | benchmarks/commit0/commit0_adapter/graft.py:95-105 | what an edit puts in stands where the edits before it have moved its place |
| Graft.SurvivorsStay | benchmarks/commit0/commit0_adapter/graft.py:95-105 | lines outside every edit survive in order |
| Graft.BlocksAreContiguous | benchmarks/commit0/commit0_adapter/graft.py:95-105 | every block put in by a pass stands unbroken after it |
| Graft.InsertionsSpareBlock | benchmarks/commit0/commit0_adapter/graft.py:156-158 | insertions outside a block leave it unbroken |
| Graft.SortEditsSorts | benchmarks/commit0/commit0_adapter/graft.py:95-96 | the order in which a pass visits its edits is ascending |
| Graft.Reindent | benchmarks/commit0/commit0_adapter/graft.py:51-63 | the loop shifts every non-blank line, cutting no more than its leading white space |
| Graft.ReindentAt | benchmarks/commit0/commit0_adapter/graft.py:51-63 | line by line: same count, blank lines kept, the others shifted |
| Placement.ShiftedLine | benchmarks/commit0/commit0_adapter/graft.py:51-63 | a shifted line keeps its text; its leading white space changes by the difference of the columns as far as there is any; blank lines stay |
| Graft.ReindentRoundTrip | benchmarks/commit0/commit0_adapter/graft.py:51-63 | shifting right and back again gives the lines back |
| Graft.GraftModule | benchmarks/commit0/commit0_adapter/graft.py:76-181 | the three passes in place equal the specified result, fallback and escape included |
| Placement.MergedIsExact | benchmarks/commit0/commit0_adapter/graft.py:76-181 | a merged module is the filled and extended skeleton, with the imports it lacks where the parser puts them iff anything was grafted or inserted; missing counts the stubs no generated function has the name of |
| Graft.FillStubs | benchmarks/commit0/commit0_adapter/graft.py:93-105 | the stub pass equals the simultaneous replacement of all stubs that have a generated body |
| Placement.StubIsFilled | benchmarks/commit0/commit0_adapter/graft.py:95-105 | every stub that some generated function has the name of is filled: in place of its lines stands the last such function's block, shifted to its column |
| Placement.OtherLinesStay | benchmarks/commit0/commit0_adapter/graft.py:95-105 | every other line stays, moved only by what the stubs above it have grown, and no other line is added |
| Placement.StubCount | benchmarks/commit0/commit0_adapter/graft.py:97-105 | filled stubs and stubs whose name no generated function has are all stubs |
| Graft.InsertMissing | benchmarks/commit0/commit0_adapter/graft.py:127-158 | the pass equals the simultaneous insertion of what is planned |
| Graft.PlanInsertions | benchmarks/commit0/commit0_adapter/graft.py:127-155 | the loop plans the insertions of all generated functions |
| Graft.InsertedIff | benchmarks/commit0/commit0_adapter/graft.py:128-155 | exactly the functions the module lacks are planned: methods of its classes and top-level functions the skeleton refers to |
| Placement.MethodIsInserted | benchmarks/commit0/commit0_adapter/graft.py:132-137 | a method the module lacks is inserted below the last line of its class, after an empty line, indented like the class body |
| Placement.FunctionIsInserted | benchmarks/commit0/commit0_adapter/graft.py:138-155 | a top-level function the module lacks and the skeleton refers to is inserted between empty lines above its first use, or at the end |
| Placement.NothingElseIsInserted | benchmarks/commit0/commit0_adapter/graft.py:127-155 | nothing else is inserted |
| Placement.ExtendedLinesStay | benchmarks/commit0/commit0_adapter/graft.py:156-158 | every line of the module stays, moved only by what is inserted above it |
| Graft.InsertionOrder | benchmarks/commit0/commit0_adapter/graft.py:156 | the pass goes by position and, at one position, by the lines |
| Graft.DefinedBeforeUse | benchmarks/commit0/commit0_adapter/graft.py:138-155 | an inserted top-level function stands above the first statement that uses its name and all that follows |
| Graft.SkeletonLinesSurvive | benchmarks/commit0/commit0_adapter/graft.py:93-181 | in a merged module every skeleton line outside a filled stub survives in order, and each block is unbroken when its pass ends |
| Graft.BlocksStayWhole | benchmarks/commit0/commit0_adapter/graft.py:156-170 | a grafted body or inserted function is unbroken in the returned module if no later insertion goes inside it where it stands |
| Graft.GraftRaisesIff | benchmarks/commit0/commit0_adapter/graft.py:116-181 | a parse error escapes iff the filled module does not parse, or imports are to be added to one that does not |
| Graft.TabIndentationRaises | benchmarks/commit0/commit0_adapter/graft.py:101-116 | a tab-indented generated method and a skeleton for which the error escapes |
| Graft.StatsAddUp | benchmarks/commit0/commit0_adapter/graft.py:79-180 | every stub is grafted or missing; a fallback reports that nothing was done |
| Contract.SplitContract | runtime/anvil_runtime/contract/resolver.py:59-85 | the loop computes the specified contract and context texts |
| Contract.ScanPlacesLines | runtime/anvil_runtime/contract/resolver.py:71-80 | each line that is no marker goes to the contract or to the context by the last marker line above it, in order |
| Contract.KindIff | runtime/anvil_runtime/contract/resolver.py:73-78 | a line is a marker iff the marker stands in it with nothing but white space around it |
| Contract.TrimIsExact | runtime/anvil_runtime/contract/resolver.py:81-85 | the contract text loses the newlines at its ends and nothing else |
| Contract.AppendBlock | runtime/anvil_runtime/contract/resolver.py:108-135 | the loop finds the end of the last contract section and inserts there, or appends at the end |
| Contract.AppendAtEndKeepsText | runtime/anvil_runtime/contract/resolver.py:117-133 | on a file without an opening marker line the block goes to the end on a line of its own; the text is kept up to the newlines that end it, and no line is lost but empty ones |
| Contract.AppendThenSplit | runtime/anvil_runtime/contract/resolver.py:59-135 | on a file with an opening marker line and a marker-free block, splitting after appending gives the old contract lines followed by the block's and the same context lines, and the exact texts |
| Contract.AppendKeepsContextText | runtime/anvil_runtime/contract/resolver.py:59-135 | when every line of the file ends in a newline the context is the same text |
| Contract.AppendIsBindingIff | runtime/anvil_runtime/contract/resolver.py:117-133 | a non-empty marker-free block becomes contract iff the file has an opening marker line |
| Contract.BindingIffMarkerFree | runtime/anvil_runtime/contract/resolver.py:59-135 | on a file with an opening marker line a block becomes contract line by line iff none of its lines is a marker |
| Contract.AppendsCompose | runtime/anvil_runtime/contract/resolver.py:108-135 | two appends write the same text as one insertion of both blocks' lines |
| Contract.UnmarkeredIsAllContext | runtime/anvil_runtime/contract/resolver.py:67-68 | a text without the marker is its own context and no line of it opens a contract |
| Contract.SplitKeepsText | runtime/anvil_runtime/contract/resolver.py:72-79 | the lines with their breaks are the text again, for every kind of line break |
| Contract.BreaksAreWhole | runtime/anvil_runtime/contract/resolver.py:72-79 | only the last line may lack a break; each break is one character or a carriage return with its newline, and no such pair is torn apart |
| Contract.SplitOfJoin | runtime/anvil_runtime/contract/resolver.py:134-135 | splitting lines joined by newlines gives the lines back |
| Contract.KindIgnoresBreak | runtime/anvil_runtime/contract/resolver.py:72-79 | a line is the same marker with and without its line break |
| IntakeNotes.AppendClarifications | runtime/anvil_runtime/core/development_manager.py:670-691 | the loop writes questions and answers as one block into the file |
| IntakeNotes.AppendAssumptions | runtime/anvil_runtime/sdk/openhands_adapter.py:354-372 | the assumptions are written as one block into the file |
| IntakeNotes.ClarificationsAreBinding | runtime/anvil_runtime/core/development_manager.py:670-691 | on a markered file the answers, of any number, become contract lines under their questions and the context is unchanged: without a line break none can pass for a marker |
| IntakeNotes.EveryAnswerIsRecorded | runtime/anvil_runtime/core/development_manager.py:684-691 | the i-th answer stands in the contract right under its question, or under a mark that it is additional, in order below the heading |
| IntakeNotes.ClarificationsAreBindingIff | runtime/anvil_runtime/core/development_manager.py:670-691 | for any questions and answers the block becomes contract line by line iff none of its lines is a marker |
| IntakeNotes.AnswersRecordedTwice | runtime/anvil_runtime/core/development_manager.py:650-653 | answers given again after a crash are recorded twice |
| IntakeNotes.AssumptionsAreBinding | runtime/anvil_runtime/sdk/openhands_adapter.py:354-372 | so do assumptions |
| IntakeNotes.ItemsStand | runtime/anvil_runtime/sdk/openhands_adapter.py:370 | the i-th assumption is the i-th item of the block |
| Sse.SseDecoder.Push | extension/src/runtime/eventStreamClient.ts:36-50 | emits exactly the events of the complete lines of buffer and chunk, and keeps exactly the rest |
| Sse.LineIsDecoded | extension/src/runtime/eventStreamClient.ts:52-66 | a line is decoded iff it starts with the field name and is not white space after it, from what follows without the white space around it |
| Sse.EventsConcat | extension/src/runtime/eventStreamClient.ts:36-50 | decoding a text and then what was left over with more text is decoding both at once |
| Sse.ChunkingIsIrrelevant | extension/src/runtime/eventStreamClient.ts:32-50 | for every split of a stream into chunks the outputs and the final buffer are those of one push |
| Sse.PushAll | extension/src/runtime/eventStreamClient.ts:36-50 | a new decoder fed text chunk by chunk yields the events of the whole text |
| Sse.FramesDecode | runtime/anvil_runtime/api/routes_events.py:41-44 | decoding all frames the server writes yields their payloads in order and an empty buffer |
| Merger.UnionLists | runtime/anvil_runtime/config/merger.py:18-24 | the loop is the lowest-first union |
| Merger.UnionMembers | runtime/anvil_runtime/config/merger.py:18-24 | the union keeps the lower list in front, loses nothing and invents nothing |
| Merger.UnionAssociative | runtime/anvil_runtime/config/merger.py:18-24 | uniting three lists does not depend on the grouping, order included |
| Merger.DeepMerge | runtime/anvil_runtime/config/merger.py:43-50 | the loop is the fold of the levels, lowest first |
| Merger.MergeIdempotent | runtime/anvil_runtime/config/merger.py:27-40 | merging a value with itself changes nothing |
| Merger.AddsNothingIff | runtime/anvil_runtime/config/merger.py:18-40 | merging gives the higher value iff the lower one adds nothing: its lists are prefixes of lists whose rest is new and distinct, its keys are present with values that add nothing, and anything else is overridden |
| Merger.MergeAssociativeIff | runtime/anvil_runtime/config/merger.py:27-40 | merging three values does not depend on the grouping iff no container meets one of its own kind across a value of another kind while it has something to add to it |
| Merger.AgreeingLevelsAssociate | runtime/anvil_runtime/config/merger.py:27-40 | levels that agree in shape at every common path can be grouped either way |
| Merger.MismatchBreaksRegrouping | runtime/anvil_runtime/config/merger.py:39-40 | three concrete levels for which the grouping matters |
| Merger.LookupMerge | runtime/anvil_runtime/config/merger.py:27-40 | on values that agree in shape, looking up a path commutes with merging |
| Merger.HighestScalarWins | runtime/anvil_runtime/config/merger.py:43-50 | a scalar path takes the value of the highest level that defines it |
| Merger.ListsAreUnited | runtime/anvil_runtime/config/merger.py:43-50 | a list path takes the lowest-first union of the levels' lists, and no element of any level is lost |

## Left out

- Manager.DevelopmentManager.RunUntilPause: says nothing of a run that never pauses, on which the code's loop never returns (`Units.IdleUnitsNeverPause` is such a run); `Units.UnitsPause` says which executors rule that out.
- UnitHistory.NoArtifactIsGeneratedTwice: the target list is fixed during the phase; in the code it is derived again at each call from the manifest and the plan. It is stated over operations, not over crashes inside one: those may repeat one unit, exactly as `Crashes.CrashInStepKeepsProgressIff` says.
- Backend.LLMBackend.VerifyAndRepair: changes a local test command makes to the workspace, the deletion and copying of the report file, and the repair-prompt log are not modelled; compile results, implicated files and contract violations are inputs.
- Backend.LLMBackend.RunCodeUnit: only unit mode; whole-phase generation and the single-completion fallback are not modelled, and what a completion's text becomes after unwrapping is part of the input.
- RepairSafety.EscapesIff: exceptions of the file system, of compiling and of parsing the test report are not modelled.
- RepairSafety.NothingLeftRunningIff: exact only when docker prints nobody else's identifier; in general the condition suffices.
- Docker.DockerExecutor.Run: of a timed-out command only starts and removals may have taken effect; packing the workspace raises nothing.
- Graft.BlocksStayWhole: that no later insertion falls inside the block is a condition on the positions the parser reports for the module of that moment.
- Graft.GraftModule: parsing is an input: spans, what a module defines, where a class ends, the first use of a name, the import position and whether lines parse. Distinct stubs are taken to occupy separate lines, and missing functions are counted, not listed. Texts are lists of lines; whether the last one ends in a newline is not modelled.
- Contract.AppendBlock: white space and line breaks follow Python's definitions; reading and writing the file, which turns carriage returns into newlines, is not modelled.
- Sse.SseDecoder.Push: parsing a payload is an input that yields an event or nothing. Chunks are texts: the client decodes each chunk's bytes by itself (eventStreamClient.ts:112), so the results hold for streams cut between characters, not inside one.
- Merger.Merge: scalars are compared as texts, so the equality of 1 and true, and keys that are not strings, are not modelled.
- Phases.ComputeGateMaps: a gate is a value, not its name; an approval names any other gate by a name of its own.
- Manager.DevelopmentManager.SubmitClarification: the file's text is passed in and out; that the next intake reads it is not modelled.
- Manager.DevelopmentManager.SubmitApproval: requester and gate names, which only reach the event log, are left out.
- Retries.RetryController.RecordFailure: one controller per run; keys that include the run, and the snapshot, are left out.
- Checkpoints.CheckpointStore.SaveRunMeta: the fields are given as a function of the entry; the JSON file, its atomic replacement, corrupt containers and timestamps are not modelled; lists of approved and excluded items are sets.
- Concurrency: operations of one run are atomic; runs that share a workspace are modelled one after the other.
- Artifact validation and drift are one verdict that each completion carries.
- Event log, run summaries, failure records and the run index have no effect on the state and are left out.
- HTTP routes, the VS Code extension around the decoder, provider transport, prompts, policy engine, hooks, skills, model routing, usage tracking and evaluation: plumbing or simple tables.
- A contract that never changes after sealing: rolling back to intake can record assumptions again, so this is not claimed.
