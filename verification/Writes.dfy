/** The entries each operation writes to the store, in order. */
module Writes {
  import opened Options
  import opened PhaseDag
  import opened Phases
  import opened Checkpoints
  import opened Supervisor

  /** The phase is complete, and its unit progress has served its purpose. */
  function Finish(s: State, p: Phase, checksums: map<Path, Digest>): State {
    ClearProgress(CompletePhase(s, p, checksums), p)
  }

  /** The checkpoint, then the progress without the phase if it had any. */
  function FinishWrites(s: State, p: Phase, checksums: map<Path, Digest>): seq<RunState> {
    [CompletePhase(s, p, checksums).store] + if p in s.ctx.progress then [Finish(s, p, checksums).store] else []
  }

  /** A completion is saved, and after the proposal the exclusions are. */
  function SuccessWrites(k: Config, s: State, p: Phase, outcome: Outcome, files: map<Path, Digest>): seq<RunState>
    requires outcome.Succeeded?
  {
    FinishWrites(s, p, Checksums(outcome.artifacts, files)) +
    if p == Proposal then [RecordSuccess(k, s, p, outcome, files).store] else []
  }

  /** A failed dispatch writes nothing. */
  function DispatchWrites(k: Config, w: World, s: State, p: Phase): seq<RunState> {
    var outcome := w.execute(s.calls, p, ClarificationModeOf(s.ctx), CompletedArtifacts(s.ctx, p));
    if p !in Ready(k.dag, s.ctx.completed + s.ctx.excluded) || outcome.Failed? then []
    else if !outcome.phaseComplete then [RecordUnit(AfterCall(w, s, p), p, outcome.artifacts).store]
    else if !outcome.checksPass then []
    else SuccessWrites(k, AfterCall(w, s, p), p, outcome, w.workspace(s.calls))
  }

  function RetriesWrites(k: Config, w: World, s: State, p: Phase): seq<RunState>
    decreases Budget(k, s, p)
  {
    FailureSpendsBudget(k, w, s, p);
    var d := DispatchPhase(k, w, s, p);
    if d.status == Failure then RetriesWrites(k, w, BackOff(k, d.state, p), p) else DispatchWrites(k, w, s, p)
  }

  function SealWrites(w: World, s: State): seq<RunState> {
    if s.ctx.contractSealed || !w.contractPresent(s.calls) then [] else [SealContract(w, s).store]
  }

  function GateWrites(s: State, p: Phase): seq<RunState> {
    if p in s.ctx.gates.post && !GateSatisfied(s.ctx, s.ctx.gates.post[p])
    then [PauseForGate(s, s.ctx.gates.post[p]).store] else []
  }

  /** After a dispatch: the questions, or after intake the seal, and then the gate. */
  function AfterWrites(w: World, d: Dispatch, p: Phase): seq<RunState> {
    if d.status == EscalatedDispatch then []
    else if p == Intake && d.questions != [] && ClarificationModeOf(d.state.ctx) == Questions then
      [PauseForClarification(d.state, d.questions).store]
    else if p == Intake && d.status == Success then
      SealWrites(w, d.state) + GateWrites(SealContract(w, d.state), p)
    else GateWrites(d.state, p)
  }

  function StepWrites(k: Config, w: World, s: State): seq<RunState> {
    if s.ctx.status != Running then [] else
    match NextPhase(k.dag, s.ctx.completed + s.ctx.excluded)
    case None => []
    case Some(p) =>
      if p in s.ctx.gates.pre && !GateSatisfied(s.ctx, s.ctx.gates.pre[p]) then
        [PauseForGate(s, s.ctx.gates.pre[p]).store]
      else
        RetriesWrites(k, w, s, p) + AfterWrites(w, DispatchWithRetries(k, w, s, p), p)
  }

  ghost function RollbackWrites(k: Config, s: State, target: Phase): seq<RunState> {
    var s1 := MarkIncomplete(s, Affected(k, target));
    var first := FirstWithProgress(s.ctx.progress, Affected(k, target));
    [s1.store] + if first.Some? then [ClearProgress(s1, first.value).store] else []
  }

  ghost function OverrideWrites(k: Config, s: State, target: Phase): seq<RunState> {
    RollbackWrites(k, s, target) + [RollbackOverride(k, s, target).store]
  }

  function ClarificationWrites(s: State): seq<RunState> {
    if AcceptsClarification(s.ctx) then [MarkIncomplete(s, [Intake]).store, SubmitClarification(s).store] else []
  }

  function StartWrites(k: Config): seq<RunState> {
    [NewRunState(k.mode), StartRun(k).store]
  }

  /** What a rollback drops of the unit progress: the first phase that has any. */
  function FirstCleared(s: State, affected: seq<Phase>): State {
    match FirstWithProgress(s.ctx.progress, affected)
    case None => s
    case Some(p) => ClearProgress(s, p)
  }

  function ClearedWrites(s: State, affected: seq<Phase>): seq<RunState> {
    if FirstWithProgress(s.ctx.progress, affected).Some? then [FirstCleared(s, affected).store] else []
  }

  lemma RollbackClearsFirst(k: Config, s: State, target: Phase)
    ensures var s1 := MarkIncomplete(s, Affected(k, target));
      Rollback(k, s, target) == FirstCleared(s1, Affected(k, target)) &&
      RollbackWrites(k, s, target) == [s1.store] + ClearedWrites(s1, Affected(k, target))
  {
    hide Affected, Invalidate;
  }

  lemma CompletionKeepsProgress(s: State, p: Phase, checksums: map<Path, Digest>)
    ensures CompletePhase(s, p, checksums).ctx.progress == s.ctx.progress
  {
    hide SaveCompletion;
  }

  lemma FailureWritesNothing(k: Config, w: World, s: State, p: Phase)
    ensures DispatchPhase(k, w, s, p).status == Failure ==> DispatchWrites(k, w, s, p) == []
  {
    hide Ready, SaveCompletion;
  }

  lemma SuccessUnfolds(k: Config, s: State, p: Phase, outcome: Outcome, files: map<Path, Digest>)
    requires outcome.Succeeded?
    ensures var checksums := Checksums(outcome.artifacts, files);
      var recorded := AssessTier(k, Finish(s, p, checksums), p, outcome.tier);
      RecordSuccess(k, s, p, outcome, files) == recorded &&
      SuccessWrites(k, s, p, outcome, files) ==
        FinishWrites(s, p, checksums) + if p == Proposal then [recorded.store] else []
  {
    hide CompletePhase, ClearProgress, FinishWrites;
  }

  lemma FinishUnfolds(s: State, p: Phase, checksums: map<Path, Digest>)
    ensures var completed := CompletePhase(s, p, checksums);
      var cleared := ClearProgress(completed, p);
      Finish(s, p, checksums) == cleared &&
      FinishWrites(s, p, checksums) == [completed.store] + if p in completed.ctx.progress then [cleared.store] else []
  {
    CompletionKeepsProgress(s, p, checksums);
    hide CompletePhase, ClearProgress;
  }

  lemma RetriesUnfold(k: Config, w: World, s: State, p: Phase)
    ensures var d := DispatchPhase(k, w, s, p);
      if d.status == Failure then
        var next := BackOff(k, d.state, p);
        Budget(k, next, p) < Budget(k, s, p) && DispatchWrites(k, w, s, p) == [] &&
        DispatchWithRetries(k, w, s, p) == DispatchWithRetries(k, w, next, p) &&
        RetriesWrites(k, w, s, p) == RetriesWrites(k, w, next, p)
      else DispatchWithRetries(k, w, s, p) == d && RetriesWrites(k, w, s, p) == DispatchWrites(k, w, s, p)
  {
    FailureSpendsBudget(k, w, s, p);
    FailureWritesNothing(k, w, s, p);
    hide DispatchPhase, DispatchWrites;
  }

  /** What an override does after the rollback proper. */
  function Unpaused(s: State): State {
    Log(s.(ctx := s.ctx.(pendingGate := None, questions := [], status := Running),
           store := s.store.(pendingGate := None, questions := [])),
        Overridden)
  }

  lemma OverrideUnfolds(k: Config, s: State, target: Phase)
    ensures RollbackOverride(k, s, target) == Unpaused(Rollback(k, s, target))
    ensures OverrideWrites(k, s, target) == RollbackWrites(k, s, target) + [Unpaused(Rollback(k, s, target)).store]
  {
  }
}
