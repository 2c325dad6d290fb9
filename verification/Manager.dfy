/** The development manager: one run's orchestration state, updated in place. */
module Manager {
  import opened Options
  import opened Sequences
  import opened PhaseDag
  import opened Phases
  import opened Checkpoints
  import opened Retries
  import opened Supervisor
  import opened Units
  import opened Writes
  import Contract
  import IntakeNotes

  datatype ApprovalResult = Decided(approved: bool) | NoApprovalPending | WrongGate
  datatype ClarificationResult = Recorded(round: nat) | ContractIsSealed | NotAwaitingClarification
  datatype ResumePlan = ResumePlan(resumeFrom: Option<Phase>, skipped: set<Phase>, invalidated: seq<Phase>)

  function Logged(run: RunId, entries: seq<RunState>): seq<Write> {
    if entries == [] then [] else Logged(run, entries[..|entries| - 1]) + [Write(run, entries[|entries| - 1])]
  }

  lemma {:induction false} LoggedConcat(run: RunId, a: seq<RunState>, b: seq<RunState>)
    ensures Logged(run, a + b) == Logged(run, a) + Logged(run, b)
    decreases |b|
  {
    if b == [] {
      assert a + b == a;
    } else {
      assert (a + b)[..|a + b| - 1] == a + b[..|b| - 1];
      LoggedConcat(run, a, b[..|b| - 1]);
    }
  }

  lemma NothingLogged(run: RunId)
    ensures Logged(run, []) == []
  {
  }

  lemma LoggedOne(run: RunId, entry: RunState)
    ensures Logged(run, []) == [] && Logged(run, [entry]) == [Write(run, entry)]
  {
    assert [entry][..0] == [];
  }

  class DevelopmentManager {
    const config: Config
    const world: World
    const runId: RunId
    const dag: PhaseDAG<Phase>
    const retries: RetryController
    const store: CheckpointStore

    var live: bool  // whether this process holds the run's context
    var mode: Mode
    var status: Status
    var completed: set<Phase>
    var approvedGates: set<Gate>
    var pendingGate: Option<Gate>
    var gates: GateMaps
    var excluded: set<Phase>
    var clarificationRound: nat
    var pendingQuestions: seq<string>
    var contractSealed: bool
    var phaseProgress: map<Phase, seq<Path>>
    var calls: nat
    ghost var trace: seq<Action>

    ghost predicate Valid()
      reads dag, store
    {
      Wired() && runId in store.container
    }

    /** The parts fit the configuration. */
    ghost predicate Wired()
      reads dag
    {
      dag.Valid() && dag.Value() == config.dag &&
      retries.maxRetries == config.maxRetries && retries.backoffBase == config.backoffBase
    }

    /** Nothing of the run is in memory yet. */
    ghost predicate Unloaded()
      reads this, retries
    {
      !live && retries.attempts == map[] && ContextNow() == FreshContext(mode)
    }

    function ContextNow(): Context
      reads this
    {
      Context(mode, status, completed, approvedGates, pendingGate, gates, excluded, clarificationRound,
              pendingQuestions, contractSealed, phaseProgress)
    }

    ghost function View(): State
      reads this, retries, store
      requires runId in store.container
    {
      State(ContextNow(), retries.attempts, store.container[runId], calls, trace)
    }

    /** Only this run's entry of the shared container has changed. */
    twostate predicate OtherRunsKept()
      reads store
    {
      runId in store.container && store.container == old(store.container)[runId := store.container[runId]]
    }

    /** What has been written to the store since: these entries of this run. */
    twostate predicate Wrote(entries: seq<RunState>)
      reads this, store
    {
      store.log == old(store.log) + Logged(runId, entries)
    }

    /** Save changed fields of this run's entry. */
    method Save(update: RunState -> RunState)
      requires runId in store.container
      modifies store
      ensures OtherRunsKept() && store.container[runId] == update(old(store.container[runId]))
      ensures Wrote([store.container[runId]])
    {
      var known := store.SaveRunMeta(runId, update);
      LoggedOne(runId, store.container[runId]);
    }

    /** A new run: its gates are computed and persisted before anything is dispatched. */
    constructor Start(config: Config, world: World, runId: RunId, dag: PhaseDAG<Phase>, store: CheckpointStore)
      requires dag.Valid() && dag.Value() == config.dag && runId !in store.container
      modifies store
      ensures this.config == config && this.world == world && this.runId == runId && this.store == store
      ensures Valid() && live && View() == StartRun(config)
      ensures store.container == old(store.container)[runId := View().store]
      ensures store.log == old(store.log) + Logged(runId, StartWrites(config))
    {
      hide PhaseDAG.Valid, PhaseDAG.Value, Logged, GateMapsFor, Invalidate;
      this.config, this.world, this.runId, this.dag, this.store := config, world, runId, dag, store;
      retries := new RetryController(config.maxRetries, config.backoffBase);
      var maps := ComputeGateMaps(config.mode, config.extraGates);
      live, mode, status, completed, approvedGates, pendingGate := true, config.mode, Running, {}, {}, None;
      gates, excluded, clarificationRound, pendingQuestions := maps, {}, 0, [];
      contractSealed, phaseProgress, calls, trace := false, map[], 0, [];
      new;
      store.InitializeRun(runId, config.mode);
      ghost var empty := store.container[runId];
      var known := store.SaveRunMeta(runId, (st: RunState) => st.(gates := maps));
      LoggedConcat(runId, [empty], [store.container[runId]]);
      LoggedOne(runId, empty);
      LoggedOne(runId, store.container[runId]);
      assert StartWrites(config) == [empty] + [store.container[runId]];
    }

    /** A new process next to an existing store: it knows nothing of the run until it resumes it. */
    constructor Attach(config: Config, world: World, runId: RunId, dag: PhaseDAG<Phase>, store: CheckpointStore,
                       calls: nat, ghost trace: seq<Action>)
      requires dag.Valid() && dag.Value() == config.dag && runId in store.container
      ensures this.config == config && this.world == world && this.runId == runId && this.store == store
      ensures Valid() && Unloaded() && this.calls == calls && this.trace == trace
    {
      this.config, this.world, this.runId, this.dag, this.store := config, world, runId, dag, store;
      retries := new RetryController(config.maxRetries, config.backoffBase);
      live, mode, status, completed, approvedGates, pendingGate := false, config.mode, Running, {}, {}, None;
      gates, excluded, clarificationRound, pendingQuestions := GateMaps(map[], map[]), {}, 0, [];
      contractSealed, phaseProgress, this.calls, this.trace := false, map[], calls, trace;
    }

    // ----- one dispatch -----

    method HandleFailure(phase: Phase) returns (result: DispatchStatus)
      requires Valid() && live
      modifies this`status, this`trace, retries
      ensures Valid()
      ensures Dispatch(View(), result, []) == Supervisor.HandleFailure(config, old(View()), phase)
    {
      hide PhaseDAG.Valid, PhaseDAG.Value, Logged;
      var count := retries.RecordFailure(phase);
      trace := trace + [FailureRecorded(phase)];
      if retries.ShouldRetry(phase) {
        return Failure;
      }
      status := Escalated;
      result := EscalatedDispatch;
    }

    method RecordUnit(phase: Phase, artifacts: seq<Path>)
      requires Valid() && live
      modifies this`phaseProgress, store
      ensures Valid() && OtherRunsKept()
      ensures View() == Supervisor.RecordUnit(old(View()), phase, artifacts)
      ensures Wrote([View().store])
    {
      hide PhaseDAG.Valid, PhaseDAG.Value, Wired, Logged;
      var progress := if phase in phaseProgress then phaseProgress[phase] else [];
      var i := 0;
      while i < |artifacts|
        invariant 0 <= i <= |artifacts|
        invariant AppendNew(progress, artifacts[i..]) == AppendNew(ProgressOf(ContextNow(), phase), artifacts)
      {
        assert artifacts[i..][1..] == artifacts[i + 1..];
        if artifacts[i] !in progress {
          progress := progress + [artifacts[i]];
        }
        i := i + 1;
      }
      phaseProgress := phaseProgress[phase := progress];
      var saved := phaseProgress;
      Save((st: RunState) => st.(progress := saved));
    }

    method MarkComplete(phase: Phase, checksums: map<Path, Digest>)
      requires Valid() && live
      modifies this`completed, this`trace, retries, store
      ensures Valid() && OtherRunsKept()
      ensures View() == CompletePhase(old(View()), phase, checksums)
      ensures Wrote([View().store])
    {
      hide PhaseDAG.Valid, PhaseDAG.Value, Wired, Logged, SaveCompletion;
      var known := store.SavePhaseCompletion(runId, Checkpoint(phase, checksums));
      completed := completed + {phase};
      retries.Reset(phase);
      trace := trace + [CounterReset(phase)];
      LoggedOne(runId, store.container[runId]);
    }

    /** After the proposal, the assessed or configured tier selects the active phases. */
    method SelectPhases(phase: Phase, assessed: Option<Tier>)
      requires Valid() && live
      modifies this`excluded, store
      ensures Valid() && OtherRunsKept()
      ensures View() == AssessTier(config, old(View()), phase, assessed)
      ensures Wrote(if phase == Proposal then [View().store] else [])
    {
      hide PhaseDAG.Valid, PhaseDAG.Value, Wired, Logged;
      LoggedOne(runId, store.container[runId]);
      if phase == Proposal {
        var tier := if config.tierOverride.Some? then config.tierOverride else assessed;
        excluded := ExcludedForTier(tier);
        var saved := excluded;
        Save((st: RunState) => st.(excluded := saved));
      }
    }

    method RecordSuccess(phase: Phase, outcome: Outcome, files: map<Path, Digest>)
      requires Valid() && live && outcome.Succeeded?
      modifies this`completed, this`phaseProgress, this`excluded, this`trace, retries, store
      ensures Valid() && OtherRunsKept()
      ensures View() == Supervisor.RecordSuccess(config, old(View()), phase, outcome, files)
      ensures Wrote(SuccessWrites(config, old(View()), phase, outcome, files))
    {
      hide PhaseDAG.Valid, PhaseDAG.Value, Wired, Logged, Finish, FinishWrites, AssessTier, Supervisor.RecordSuccess,
        SuccessWrites;
      ghost var before := View();
      var checksums := Checksums(outcome.artifacts, files);
      SuccessUnfolds(config, before, phase, outcome, files);
      FinishPhase(phase, checksums);
      SelectPhases(phase, outcome.tier);
      LoggedConcat(runId, FinishWrites(before, phase, checksums), if phase == Proposal then [View().store] else []);
    }

    /** The phase is complete, and its unit progress has served its purpose. */
    method FinishPhase(phase: Phase, checksums: map<Path, Digest>)
      requires Valid() && live
      modifies this`completed, this`phaseProgress, this`trace, retries, store
      ensures Valid() && OtherRunsKept()
      ensures View() == Finish(old(View()), phase, checksums)
      ensures Wrote(FinishWrites(old(View()), phase, checksums))
    {
      hide PhaseDAG.Valid, PhaseDAG.Value, Wired, Logged, CompletePhase, ClearProgress, Finish, FinishWrites;
      FinishUnfolds(View(), phase, checksums);
      MarkComplete(phase, checksums);
      ghost var completed := View();
      var popped := PopProgress(phase);
      LoggedConcat(runId, [completed.store], if popped then [View().store] else []);
    }

    /** Drop a phase's unit progress and persist the rest, if it has any. */
    method PopProgress(phase: Phase) returns (popped: bool)
      requires Valid() && live
      modifies this`phaseProgress, store
      ensures Valid() && OtherRunsKept() && popped == (phase in old(phaseProgress))
      ensures View() == ClearProgress(old(View()), phase)
      ensures Wrote(if popped then [View().store] else [])
    {
      hide PhaseDAG.Valid, PhaseDAG.Value, Wired, Logged;
      LoggedOne(runId, store.container[runId]);
      popped := phase in phaseProgress;
      if popped {
        phaseProgress := phaseProgress - {phase};
        var saved := phaseProgress;
        Save((st: RunState) => st.(progress := saved));
      }
    }

    method IsReady(phase: Phase) returns (ready: bool)
      requires Valid()
      ensures ready == (phase in Ready(config.dag, completed + excluded))
    {
      hide PhaseDAG.Valid, PhaseDAG.Value, Ready;
      var phases := dag.ReadyPhases(completed + excluded);
      ready := phase in phases;
    }

    method DispatchPhase(phase: Phase) returns (result: DispatchStatus, questions: seq<string>)
      requires Valid() && live
      modifies this, retries, store
      ensures Valid() && live && OtherRunsKept()
      ensures Dispatch(View(), result, questions) == Supervisor.DispatchPhase(config, world, old(View()), phase)
      ensures Wrote(DispatchWrites(config, world, old(View()), phase))
    {
      hide PhaseDAG.Valid, PhaseDAG.Value, Wired, Logged, SaveCompletion, Ready, Supervisor.RecordSuccess,
        Supervisor.RecordUnit, Supervisor.HandleFailure, SuccessWrites, ClarificationModeOf, CompletedArtifacts;
      LoggedOne(runId, store.container[runId]);
      ghost var before := View();
      var ready := IsReady(phase);
      if !ready {
        return Blocked, [];
      }
      var outcome := world.execute(calls, phase, ClarificationModeOf(ContextNow()),
        CompletedArtifacts(ContextNow(), phase));
      var files := world.workspace(calls);
      trace := trace + [Dispatched(phase, ContextNow(), outcome)];
      calls := calls + 1;
      assert View() == AfterCall(world, before, phase);
      if outcome.Failed? || (outcome.phaseComplete && !outcome.checksPass) {
        result := HandleFailure(phase);
        questions := [];
      } else if !outcome.phaseComplete {
        RecordUnit(phase, outcome.artifacts);
        result, questions := Success, outcome.questions;
      } else {
        RecordSuccess(phase, outcome, files);
        result, questions := Success, outcome.questions;
      }
    }

    method DispatchWithRetries(phase: Phase) returns (result: DispatchStatus, questions: seq<string>)
      requires Valid() && live
      modifies this, retries, store
      ensures Valid() && live && OtherRunsKept()
      ensures Dispatch(View(), result, questions) == Supervisor.DispatchWithRetries(config, world, old(View()), phase)
      ensures Wrote(RetriesWrites(config, world, old(View()), phase))
    {
      hide PhaseDAG.Valid, PhaseDAG.Value, Wired, Logged, Supervisor.DispatchPhase, Supervisor.DispatchWithRetries,
        RetriesWrites, DispatchWrites, Budget, BackOff;
      ghost var start := View();
      result, questions := DispatchPhase(phase);
      ghost var last := start;
      while result == Failure
        invariant Valid() && live && OtherRunsKept()
        invariant Dispatch(View(), result, questions) == Supervisor.DispatchPhase(config, world, last, phase)
        invariant Supervisor.DispatchWithRetries(config, world, last, phase) ==
                  Supervisor.DispatchWithRetries(config, world, start, phase)
        invariant RetriesWrites(config, world, last, phase) == RetriesWrites(config, world, start, phase)
        invariant store.log == old(store.log) + Logged(runId, DispatchWrites(config, world, last, phase))
        decreases Budget(config, last, phase)
      {
        RetriesUnfold(config, world, last, phase);
        NothingLogged(runId);
        last := BackOff(config, View(), phase);
        result, questions := Redispatch(phase);
      }
      RetriesUnfold(config, world, last, phase);
    }

    /** Back off, then dispatch again. */
    method Redispatch(phase: Phase) returns (result: DispatchStatus, questions: seq<string>)
      requires Valid() && live
      modifies this, retries, store
      ensures Valid() && live && OtherRunsKept()
      ensures Dispatch(View(), result, questions) ==
        Supervisor.DispatchPhase(config, world, BackOff(config, old(View()), phase), phase)
      ensures Wrote(DispatchWrites(config, world, BackOff(config, old(View()), phase), phase))
    {
      hide PhaseDAG.Valid, PhaseDAG.Value, Logged, Supervisor.DispatchPhase, DispatchWrites;
      trace := trace + [Slept(phase, BackoffSeconds(config.backoffBase, retries.AttemptsOf(phase)))];
      result, questions := DispatchPhase(phase);
    }

    // ----- the orchestration loop -----

    method PauseForGate(gate: Gate)
      requires Valid() && live
      modifies this`status, this`pendingGate, store
      ensures Valid() && OtherRunsKept()
      ensures View() == Supervisor.PauseForGate(old(View()), gate)
      ensures Wrote([View().store])
    {
      hide PhaseDAG.Valid, PhaseDAG.Value, Wired, Logged;
      status, pendingGate := AwaitingApproval, Some(gate);
      Save((st: RunState) => st.(pendingGate := Some(gate)));
    }

    method PauseForClarification(questions: seq<string>)
      requires Valid() && live
      modifies this`status, this`pendingQuestions, this`trace, store
      ensures Valid() && OtherRunsKept()
      ensures View() == Supervisor.PauseForClarification(old(View()), questions)
      ensures Wrote([View().store])
    {
      hide PhaseDAG.Valid, PhaseDAG.Value, Wired, Logged;
      status, pendingQuestions := AwaitingClarification, questions;
      trace := trace + [ClarificationAsked];
      Save((st: RunState) => st.(questions := questions));
    }

    method SealContract()
      requires Valid() && live
      modifies this`contractSealed, this`trace, store
      ensures Valid() && OtherRunsKept()
      ensures View() == Supervisor.SealContract(world, old(View()))
      ensures Wrote(SealWrites(world, old(View())))
    {
      hide PhaseDAG.Valid, PhaseDAG.Value, Wired, Logged;
      LoggedOne(runId, store.container[runId]);
      if contractSealed {
        return;
      }
      var present := world.contractPresent(calls);
      trace := trace + [SealChecked(present)];
      if !present {
        return;
      }
      contractSealed := true;
      Save((st: RunState) => st.(contractSealed := true));
    }

    /** Advance exactly one phase, or stop at a gate or at completion. */
    method Step()
      requires Valid() && live
      modifies this, retries, store
      ensures Valid() && live && OtherRunsKept()
      ensures View() == Supervisor.Step(config, world, old(View()))
      ensures Wrote(StepWrites(config, world, old(View())))
    {
      hide PhaseDAG.Valid, PhaseDAG.Value, Logged, Supervisor.DispatchWithRetries, Supervisor.PauseForGate,
        NextPhase, AfterDispatch, AfterWrites,
        RetriesWrites;
      ghost var before := View();
      LoggedOne(runId, before.store);
      if status != Running {
        return;
      }
      var next := dag.Next(completed + excluded);
      if next == None {
        status := Finished;
        return;
      }
      var phase := next.value;
      if phase in gates.pre && !GateSatisfied(ContextNow(), gates.pre[phase]) {
        PauseForGate(gates.pre[phase]);
        return;
      }
      NextPhaseIsReady(config.dag, completed + excluded);
      ReadyIsDispatched(config, world, View(), phase);
      var result, questions := DispatchWithRetries(phase);
      ghost var d := Dispatch(View(), result, questions);
      FinishStep(phase, result, questions);
      LoggedConcat(runId, RetriesWrites(config, world, before, phase), AfterWrites(world, d, phase));
    }

    method FinishStep(phase: Phase, result: DispatchStatus, questions: seq<string>)
      requires Valid() && live
      requires result == EscalatedDispatch ==> status == Escalated
      modifies this, retries, store
      ensures Valid() && live && OtherRunsKept()
      ensures View() == AfterDispatch(world, Dispatch(old(View()), result, questions), phase)
      ensures Wrote(AfterWrites(world, Dispatch(old(View()), result, questions), phase))
    {
      hide PhaseDAG.Valid, PhaseDAG.Value, Wired, Logged, Supervisor.PauseForGate, Supervisor.PauseForClarification,
        Supervisor.SealContract, PostGateCheck, SealWrites, GateWrites, ClarificationModeOf;
      LoggedOne(runId, store.container[runId]);
      ghost var before := View();
      if result == EscalatedDispatch {
        status := Escalated;
        return;
      }
      if phase == Intake && questions != [] && ClarificationModeOf(ContextNow()) == Questions {
        PauseForClarification(questions);
        return;
      }
      if phase == Intake && result == Success {
        SealContract();
      }
      ghost var sealing := phase == Intake && result == Success;
      ghost var sealed := if sealing then Supervisor.SealContract(world, before) else before;
      CheckPostGate(phase);
      LoggedConcat(runId, if sealing then SealWrites(world, before) else [], GateWrites(sealed, phase));
    }

    method CheckPostGate(phase: Phase)
      requires Valid() && live
      modifies this`status, this`pendingGate, store
      ensures Valid() && OtherRunsKept()
      ensures View() == PostGateCheck(old(View()), phase)
      ensures Wrote(GateWrites(old(View()), phase))
    {
      hide PhaseDAG.Valid, PhaseDAG.Value, Wired, Logged, Supervisor.PauseForGate;
      LoggedOne(runId, store.container[runId]);
      if phase in gates.post && !GateSatisfied(ContextNow(), gates.post[phase]) {
        PauseForGate(gates.post[phase]);
      }
    }

    /** One of the steps that lead to the pause. */
    method StepTowards(ghost left: nat)
      requires Valid() && live && status == Running && Steps(config, world, View(), left).ctx.status != Running
      modifies this, retries, store
      ensures Valid() && live && OtherRunsKept()
      ensures left > 0 && Steps(config, world, View(), left - 1) == Steps(config, world, old(View()), left)
    {
      hide PhaseDAG.Valid, PhaseDAG.Value, Wired, Logged, Supervisor.Step, Steps;
      RunningTakesStep(config, world, View(), left);
      Step();
    }

    /** Step until a gate, questions, escalation, a stop or completion, on every run that ever gets there. */
    method RunUntilPause()
      requires Valid() && live && Pauses(config, world, View())
      modifies this, retries, store
      ensures Valid() && live && OtherRunsKept() && status != Running
      ensures View() == PausedState(config, world, old(View()))
    {
      hide PhaseDAG.Valid, PhaseDAG.Value, Wired, Logged, Supervisor.Step, Steps, PausedState;
      ghost var start := View();
      ghost var left: nat := StepsToPause(config, world, start);
      ghost var end := PausedState(config, world, start);
      while status == Running
        invariant Valid() && live && OtherRunsKept()
        invariant Steps(config, world, View(), left) == end && end.ctx.status != Running
        decreases left
      {
        StepTowards(left);
        left := left - 1;
      }
      StoppedStays(config, world, View(), left);
    }

    // ----- user operations -----

    method SubmitApproval(gate: Gate, approved: bool) returns (result: ApprovalResult)
      requires Valid() && live
      modifies this`status, this`approvedGates, this`pendingGate, store
      ensures Valid() && OtherRunsKept()
      ensures View() == Supervisor.SubmitApproval(old(View()), gate, approved)
      ensures result == if old(status) != AwaitingApproval || old(pendingGate) == None then NoApprovalPending
                        else if old(pendingGate) != Some(gate) then WrongGate else Decided(approved)
    {
      hide PhaseDAG.Valid, PhaseDAG.Value, Wired, Logged;
      if status != AwaitingApproval || pendingGate == None {
        return NoApprovalPending;
      }
      if pendingGate != Some(gate) {
        return WrongGate;
      }
      if approved {
        Grant(gate);
      }
      result := Decided(approved);
    }

    method Grant(gate: Gate)
      requires Valid() && live && pendingGate == Some(gate)
      modifies this`status, this`approvedGates, this`pendingGate, store
      ensures Valid() && OtherRunsKept()
      ensures View() == Approve(old(View()))
    {
      hide PhaseDAG.Valid, PhaseDAG.Value, Wired, Logged;
      approvedGates, pendingGate, status := approvedGates + {gate}, None, Running;
      var saved := approvedGates;
      Save((st: RunState) => st.(approved := saved, pendingGate := None));
    }

    /** Record answers in the domain-knowledge file, whose text is `existing`, and set intake up for its final
        round; `written` is the file's text afterwards. */
    method SubmitClarification(answers: seq<string>, existing: string)
      returns (result: ClarificationResult, written: string)
      requires Valid() && live
      modifies this`completed, this`clarificationRound, this`pendingQuestions, this`status, this`trace, retries, store
      ensures Valid() && OtherRunsKept()
      ensures View() == Supervisor.SubmitClarification(old(View()))
      ensures result == if old(contractSealed) then ContractIsSealed
                        else if old(status) != AwaitingClarification then NotAwaitingClarification
                        else Recorded(old(clarificationRound) + 1)
      ensures written == if result.Recorded?
        then Contract.AppendText(existing,
          IntakeNotes.JoinLines(IntakeNotes.ClarificationLines(old(pendingQuestions), answers)))
        else existing
      ensures Wrote(ClarificationWrites(old(View())))
    {
      hide PhaseDAG.Valid, PhaseDAG.Value, Wired, Logged, Invalidate, MarkIncomplete, Supervisor.NextRound,
        Contract.AppendText, IntakeNotes.JoinLines, IntakeNotes.ClarificationLines;
      NothingLogged(runId);
      if contractSealed {
        return ContractIsSealed, existing;
      }
      if status != AwaitingClarification {
        return NotAwaitingClarification, existing;
      }
      written := IntakeNotes.AppendClarifications(existing, pendingQuestions, answers);
      StartFinalRound();
      result := Recorded(clarificationRound);
    }

    /** Intake is to run again. */
    method StartFinalRound()
      requires Valid() && live
      modifies this`completed, this`clarificationRound, this`pendingQuestions, this`status, this`trace, retries, store
      ensures Valid() && OtherRunsKept() && clarificationRound == old(clarificationRound) + 1
      ensures View() == Supervisor.NextRound(MarkIncomplete(old(View()), [Intake]))
      ensures Wrote([MarkIncomplete(old(View()), [Intake]).store, View().store])
    {
      hide PhaseDAG.Valid, PhaseDAG.Value, Wired, Logged, MarkIncomplete, Supervisor.NextRound;
      ghost var round := clarificationRound;
      MarkUndone([Intake]);
      ghost var undone := View().store;
      assert clarificationRound == round;
      NextRound();
      LoggedConcat(runId, [undone], [View().store]);
      assert [undone] + [View().store] == [undone, View().store];
    }

    method NextRound()
      requires Valid() && live
      modifies this`clarificationRound, this`pendingQuestions, this`status, this`trace, store
      ensures Valid() && OtherRunsKept()
      ensures View() == Supervisor.NextRound(old(View())) && clarificationRound == old(clarificationRound) + 1
      ensures Wrote([View().store])
    {
      hide PhaseDAG.Valid, PhaseDAG.Value, Wired, Logged;
      ghost var before := View();
      var round := clarificationRound + 1;
      clarificationRound, pendingQuestions, status := round, [], Running;
      trace := trace + [ClarificationReceived];
      Save((st: RunState) => st.(round := round, questions := []));
      assert ContextNow() == before.ctx.(round := round, questions := [], status := Running);
    }

    /** Phases become incomplete and stale, and their retry counters start over. */
    method MarkUndone(phases: seq<Phase>)
      requires Valid() && live
      modifies this`completed, this`trace, retries, store
      ensures Valid() && OtherRunsKept()
      ensures View() == MarkIncomplete(old(View()), phases)
      ensures Wrote([View().store])
    {
      hide PhaseDAG.Valid, PhaseDAG.Value, Wired, Logged, Invalidate;
      store.InvalidatePhases(runId, phases);
      completed := completed - Elems(phases);
      LoggedOne(runId, store.container[runId]);
      ResetCounters(phases);
    }

    method StopRun()
      requires Valid() && live
      modifies this`status
      ensures Valid() && View() == Supervisor.Stop(old(View()))
    {
      hide PhaseDAG.Valid, PhaseDAG.Value, Wired, Logged;
      status := Stopped;
    }

    method ForceAdvance()
      requires Valid() && live
      modifies this`status, this`approvedGates, this`pendingGate, this`trace, store
      ensures Valid() && OtherRunsKept()
      ensures View() == Supervisor.ForceAdvance(old(View()))
    {
      hide PhaseDAG.Valid, PhaseDAG.Value, Wired, Logged, Approve;
      if pendingGate.Some? {
        Grant(pendingGate.value);
      }
      status := Running;
      trace := trace + [Overridden];
    }

    method ResetCounters(phases: seq<Phase>)
      requires Valid() && live
      modifies this`trace, retries
      ensures Valid()
      ensures View() == old(View()).(attempts := old(retries.attempts) - Elems(phases),
                                     trace := old(trace) + ResetActions(phases))
    {
      hide PhaseDAG.Valid, PhaseDAG.Value, Wired, Logged;
      var i := 0;
      while i < |phases|
        invariant 0 <= i <= |phases| && Valid()
        invariant retries.attempts == old(retries.attempts) - Elems(phases[..i])
        invariant trace == old(trace) + ResetActions(phases[..i])
      {
        retries.Reset(phases[i]);
        trace := trace + [CounterReset(phases[i])];
        assert phases[..i + 1] == phases[..i] + [phases[i]];
        assert Elems(phases[..i + 1]) == Elems(phases[..i]) + {phases[i]};
        i := i + 1;
      }
      assert phases[..i] == phases;
    }

    /** Mark the target and everything downstream incomplete, and drop unit progress. */
    method Rollback(target: Phase) returns (affected: seq<Phase>)
      requires Valid() && live
      modifies this`completed, this`phaseProgress, this`trace, retries, store
      ensures Valid() && OtherRunsKept()
      ensures affected == Affected(config, target)
      ensures View() == Supervisor.Rollback(config, old(View()), target)
      ensures Wrote(RollbackWrites(config, old(View()), target))
    {
      hide PhaseDAG.Valid, PhaseDAG.Value, Logged, MarkIncomplete, FirstCleared, Supervisor.Rollback, RollbackWrites;
      ghost var before := View();
      RollbackClearsFirst(config, before, target);
      var downstream := dag.DownstreamOf(target);
      affected := [target] + downstream;
      MarkUndone(affected);
      ghost var undone := View();
      PopFirst(affected);
      LoggedConcat(runId, [undone.store], ClearedWrites(undone, affected));
    }

    /** Drop the progress of the first phase that has any: the scan stops there. */
    method PopFirst(affected: seq<Phase>)
      requires Valid() && live
      modifies this`phaseProgress, store
      ensures Valid() && OtherRunsKept()
      ensures View() == FirstCleared(old(View()), affected)
      ensures Wrote(ClearedWrites(old(View()), affected))
    {
      hide PhaseDAG.Valid, PhaseDAG.Value, Wired, Logged;
      ghost var before := View();
      LoggedOne(runId, before.store);
      var i, popped := 0, false;
      while i < |affected| && !popped
        invariant 0 <= i <= |affected| && Valid() && OtherRunsKept()
        invariant !popped ==> View() == before && store.log == old(store.log)
        invariant !popped ==> FirstWithProgress(before.ctx.progress, affected[i..]) ==
                              FirstWithProgress(before.ctx.progress, affected)
        invariant popped ==> View() == FirstCleared(before, affected)
        invariant popped ==> store.log == old(store.log) + Logged(runId, ClearedWrites(before, affected))
        decreases |affected| - i
      {
        assert affected[i..][0] == affected[i] && affected[i..][1..] == affected[i + 1..];
        popped := PopProgress(affected[i]);
        i := i + 1;
      }
    }

    method RollbackOverride(target: Phase)
      requires Valid() && live
      modifies this, retries, store
      ensures Valid() && live && OtherRunsKept()
      ensures View() == Supervisor.RollbackOverride(config, old(View()), target)
      ensures Wrote(OverrideWrites(config, old(View()), target))
    {
      hide PhaseDAG.Valid, PhaseDAG.Value, Wired, Logged, Supervisor.Rollback, RollbackWrites,
        Supervisor.RollbackOverride, OverrideWrites, Unpaused;
      ghost var before := View();
      var affected := Rollback(target);
      OverrideUnfolds(config, before, target);
      Unpause();
      LoggedConcat(runId, RollbackWrites(config, before, target), [View().store]);
    }

    /** Drop any pause that was active at the old point. */
    method Unpause()
      requires Valid() && live
      modifies this`pendingGate, this`pendingQuestions, this`status, this`trace, store
      ensures Valid() && OtherRunsKept()
      ensures View() == Unpaused(old(View()))
      ensures Wrote([View().store])
    {
      hide PhaseDAG.Valid, PhaseDAG.Value, Wired, Logged;
      ghost var before := View();
      pendingGate, pendingQuestions := None, [];
      Save((st: RunState) => st.(pendingGate := None, questions := []));
      status := Running;
      trace := trace + [Overridden];
      assert ContextNow() == before.ctx.(pendingGate := None, questions := [], status := Running);
    }

    /** Restore the run from its checkpoint, rewinding to the earliest phase whose artifacts changed. */
    method ResumeRun(files: map<Path, Digest>) returns (plan: ResumePlan)
      requires Valid() && (live || Unloaded())
      modifies this, store
      ensures Valid() && live && OtherRunsKept()
      ensures View() == Resumed(config, old(View()), files, old(live))
      ensures plan.resumeFrom == NextPhase(config.dag, completed) && plan.skipped == completed
      ensures plan.invalidated == Invalidated(config, old(store.container[runId]), files)
    {
      hide PhaseDAG.Valid, PhaseDAG.Value, Logged, Rehydrate, Rewind, NextPhase, Invalidated;
      if !live {
        BlankContext();
      }
      LoadContext();
      var invalidated := RewindToValid(files);
      var resumeFrom := dag.Next(completed);
      plan := ResumePlan(resumeFrom, completed, invalidated);
    }

    /** A run this process has not seen starts from an empty context in the persisted mode. */
    method BlankContext()
      requires Valid() && Unloaded()
      modifies this`live, this`mode, this`trace
      ensures Valid() && live
      ensures View() == Log(old(View()).(ctx := FreshContext(store.container[runId].mode), attempts := map[]),
        Restarted)
    {
      hide PhaseDAG.Valid, PhaseDAG.Value, Wired, Logged;
      mode, live := store.container[runId].mode, true;
      trace := trace + [Restarted];
    }

    method LoadContext()
      requires Valid() && live
      modifies this`gates, this`approvedGates, this`excluded, this`clarificationRound, this`contractSealed,
        this`phaseProgress, this`completed, this`status, this`pendingGate, this`pendingQuestions
      ensures Valid() && View() == old(View()).(ctx := Rehydrate(old(ContextNow()), store.container[runId]))
    {
      hide PhaseDAG.Valid, PhaseDAG.Value, Wired, Logged, LoadFields, RestorePause;
      LoadPersistedFields();
      RestorePersistedPause();
    }

    method LoadPersistedFields()
      requires Valid() && live
      modifies this`gates, this`approvedGates, this`excluded, this`clarificationRound, this`contractSealed,
        this`phaseProgress, this`completed
      ensures Valid() && View() == old(View()).(ctx := LoadFields(old(ContextNow()), store.container[runId]))
    {
      hide PhaseDAG.Valid, PhaseDAG.Value, Wired, Logged;
      var st := store.container[runId];
      gates, approvedGates, excluded := st.gates, st.approved, st.excluded;
      clarificationRound, contractSealed, phaseProgress := st.round, st.contractSealed, st.progress;
      completed := store.CompletedPhaseIds(runId);
    }

    method RestorePersistedPause()
      requires Valid() && live
      modifies this`status, this`pendingGate, this`pendingQuestions
      ensures Valid() && View() ==
        old(View()).(ctx := Supervisor.RestorePause(old(ContextNow()), store.container[runId]))
    {
      hide PhaseDAG.Valid, PhaseDAG.Value, Wired, Logged;
      var st := store.container[runId];
      if st.pendingGate.Some? && !GateSatisfied(ContextNow(), st.pendingGate.value) {
        status, pendingGate := AwaitingApproval, st.pendingGate;
      } else if st.questions != [] {
        status, pendingQuestions := AwaitingClarification, st.questions;
      }
    }

    method RewindToValid(files: map<Path, Digest>) returns (invalidated: seq<Phase>)
      requires Valid() && live
      modifies this`completed, store
      ensures Valid() && OtherRunsKept() && View() == Rewind(config, old(View()), files)
      ensures invalidated == Invalidated(config, old(store.container[runId]), files)
    {
      hide PhaseDAG.Valid, PhaseDAG.Value, Logged, Invalidate, EarliestInvalid;
      invalidated := [];
      var earliest := store.EarliestInvalidPhase(runId, files);
      if earliest.Some? {
        var downstream := dag.DownstreamOf(earliest.value);
        invalidated := [earliest.value] + downstream;
        store.InvalidatePhases(runId, invalidated);
        completed := completed - Elems(invalidated);
      }
    }
  }
}
