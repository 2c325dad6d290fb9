/** What one supervisor operation does to a run, as functions on the run's whole state. */
module Supervisor {
  import opened Options
  import opened Sequences
  import opened PhaseDag
  import opened Phases
  import opened Checkpoints
  import opened Retries

  const CLARIFICATION_MAX_ROUNDS: nat := 1

  datatype Status = Running | AwaitingApproval | AwaitingClarification | Finished | Escalated | Stopped

  datatype ClarificationMode = Questions | Assumptions

  /** What one call of the phase executor reports. `Failed` covers a reported failure and an
      exception; `checksPass` is the verdict of artifact validation and the drift check. */
  datatype Outcome =
    | Failed
    | Succeeded(artifacts: seq<Path>, phaseComplete: bool, questions: seq<string>, tier: Option<Tier>, checksPass: bool)

  /** Everything outside the supervisor, indexed by the number of the executor call. */
  datatype World = World(
    execute: (nat, Phase, ClarificationMode, seq<Path>) -> Outcome,
    workspace: nat -> map<Path, Digest>,
    contractPresent: nat -> bool)

  /** The manager's settings and the run's request: its mode and its additional phase gates. */
  datatype Config = Config(
    dag: Graph<Phase>, maxRetries: nat, backoffBase: nat, tierOverride: Option<Tier>,
    mode: Mode, extraGates: seq<string>)

  ghost predicate ValidConfig(k: Config) {
    WellFormed(k.dag) && Closed(k.dag) && Acyclic(k.dag)
  }

  datatype Context = Context(
    mode: Mode,
    status: Status,
    completed: set<Phase>,
    approved: set<Gate>,
    pendingGate: Option<Gate>,
    gates: GateMaps,
    excluded: set<Phase>,
    round: nat,
    questions: seq<string>,
    contractSealed: bool,
    progress: map<Phase, seq<Path>>)

  /** The history of a run: what was dispatched from which state, and what happened to the counters. */
  datatype Action =
    | Dispatched(phase: Phase, at: Context, outcome: Outcome)
    | FailureRecorded(phase: Phase)
    | Slept(phase: Phase, seconds: nat)
    | CounterReset(phase: Phase)
    | SealChecked(present: bool)
    | ClarificationAsked
    | ClarificationReceived
    | Overridden
    | Restarted

  datatype State = State(
    ctx: Context,
    attempts: map<Phase, nat>,
    store: RunState,
    calls: nat,
    trace: seq<Action>)

  function Log(s: State, a: Action): State {
    s.(trace := s.trace + [a])
  }

  function FreshContext(mode: Mode): Context {
    Context(mode, Running, {}, {}, None, GateMaps(map[], map[]), {}, 0, [], false, map[])
  }

  function StartRun(k: Config): State {
    var gates := GateMapsFor(k.mode, k.extraGates);
    State(FreshContext(k.mode).(gates := gates), map[], NewRunState(k.mode).(gates := gates), 0, [])
  }

  predicate GateSatisfied(ctx: Context, gate: Gate) {
    ctx.mode == Yolo || gate in ctx.approved
  }

  function ClarificationModeOf(ctx: Context): ClarificationMode {
    if ctx.mode == Yolo || ctx.round >= CLARIFICATION_MAX_ROUNDS then Assumptions else Questions
  }

  // ----- one dispatch -----

  datatype DispatchStatus = Success | Failure | Blocked | EscalatedDispatch

  datatype Dispatch = Dispatch(state: State, status: DispatchStatus, questions: seq<string>)

  function ProgressOf(ctx: Context, p: Phase): seq<Path> {
    if p in ctx.progress then ctx.progress[p] else []
  }

  /** Only the implementation phase is told which artifacts already exist. */
  function CompletedArtifacts(ctx: Context, p: Phase): seq<Path> {
    if p == Implementation then ProgressOf(ctx, p) else []
  }

  function HandleFailure(k: Config, s: State, p: Phase): Dispatch {
    var count := Attempts(s.attempts, p) + 1;
    var s1 := Log(s.(attempts := s.attempts[p := count]), FailureRecorded(p));
    if count <= k.maxRetries then Dispatch(s1, Failure, [])
    else Dispatch(s1.(ctx := s1.ctx.(status := Escalated)), EscalatedDispatch, [])
  }

  function AppendNew(have: seq<Path>, more: seq<Path>): seq<Path>
    decreases |more|
  {
    if more == [] then have
    else AppendNew(if more[0] in have then have else have + [more[0]], more[1..])
  }

  function RecordUnit(s: State, p: Phase, artifacts: seq<Path>): State {
    var progress := s.ctx.progress[p := AppendNew(ProgressOf(s.ctx, p), artifacts)];
    s.(ctx := s.ctx.(progress := progress), store := s.store.(progress := progress))
  }

  function Checksums(artifacts: seq<Path>, files: map<Path, Digest>): map<Path, Digest> {
    map rel | rel in artifacts && rel in files :: files[rel]
  }

  function CompletePhase(s: State, p: Phase, checksums: map<Path, Digest>): State {
    Log(s.(ctx := s.ctx.(completed := s.ctx.completed + {p}),
           store := SaveCompletion(s.store, Checkpoint(p, checksums)),
           attempts := s.attempts - {p}),
        CounterReset(p))
  }

  function ClearProgress(s: State, p: Phase): State {
    if p !in s.ctx.progress then s else
    var progress := s.ctx.progress - {p};
    s.(ctx := s.ctx.(progress := progress), store := s.store.(progress := progress))
  }

  function AssessTier(k: Config, s: State, p: Phase, tier: Option<Tier>): State {
    if p != Proposal then s else
    var excluded := ExcludedForTier(if k.tierOverride.Some? then k.tierOverride else tier);
    s.(ctx := s.ctx.(excluded := excluded), store := s.store.(excluded := excluded))
  }

  function RecordSuccess(k: Config, s: State, p: Phase, outcome: Outcome, files: map<Path, Digest>): State
    requires outcome.Succeeded?
  {
    AssessTier(k, ClearProgress(CompletePhase(s, p, Checksums(outcome.artifacts, files)), p), p, outcome.tier)
  }

  function AfterCall(w: World, s: State, p: Phase): State {
    var outcome := w.execute(s.calls, p, ClarificationModeOf(s.ctx), CompletedArtifacts(s.ctx, p));
    Log(s.(calls := s.calls + 1), Dispatched(p, s.ctx, outcome))
  }

  function DispatchPhase(k: Config, w: World, s: State, p: Phase): Dispatch {
    if p !in Ready(k.dag, s.ctx.completed + s.ctx.excluded) then
      Dispatch(s, Blocked, [])
    else
      var outcome := w.execute(s.calls, p, ClarificationModeOf(s.ctx), CompletedArtifacts(s.ctx, p));
      var s1 := AfterCall(w, s, p);
      if outcome.Failed? then
        HandleFailure(k, s1, p)
      else if !outcome.phaseComplete then
        Dispatch(RecordUnit(s1, p, outcome.artifacts), Success, outcome.questions)
      else if !outcome.checksPass then
        HandleFailure(k, s1, p)
      else
        Dispatch(RecordSuccess(k, s1, p, outcome, w.workspace(s.calls)), Success, outcome.questions)
  }

  function BackOff(k: Config, s: State, p: Phase): State {
    Log(s, Slept(p, BackoffSeconds(k.backoffBase, Attempts(s.attempts, p))))
  }

  function Budget(k: Config, s: State, p: Phase): nat {
    if Attempts(s.attempts, p) <= k.maxRetries then k.maxRetries + 1 - Attempts(s.attempts, p) else 0
  }

  lemma FailureSpendsBudget(k: Config, w: World, s: State, p: Phase)
    ensures var d := DispatchPhase(k, w, s, p);
      d.status == Failure ==> d.state.ctx == s.ctx && Budget(k, BackOff(k, d.state, p), p) < Budget(k, s, p)
  {
  }

  /** Dispatch, and on failure sleep and dispatch again until success or escalation. */
  function DispatchWithRetries(k: Config, w: World, s: State, p: Phase): Dispatch
    decreases Budget(k, s, p)
  {
    var d := DispatchPhase(k, w, s, p);
    if d.status == Failure then DispatchWithRetries(k, w, BackOff(k, d.state, p), p) else d
  }

  /** A ready phase is never blocked: its dispatch succeeds or escalates, and an escalation changes
      nothing else of the run. */
  lemma {:induction false} ReadyIsDispatched(k: Config, w: World, s: State, p: Phase)
    requires p in Ready(k.dag, s.ctx.completed + s.ctx.excluded)
    ensures var d := DispatchWithRetries(k, w, s, p);
      d.status in {Success, EscalatedDispatch} &&
      (d.status == Success ==> d.state.ctx.status == s.ctx.status) &&
      (d.status == EscalatedDispatch ==> d.state.ctx == s.ctx.(status := Escalated) && d.questions == [])
    decreases Budget(k, s, p)
  {
    hide Ready;
    FailureSpendsBudget(k, w, s, p);
    ReadyPhaseDispatched(k, w, s, p);
    var d := DispatchPhase(k, w, s, p);
    hide DispatchPhase;
    if d.status == Failure {
      ReadyIsDispatched(k, w, BackOff(k, d.state, p), p);
    }
  }

  lemma ReadyPhaseDispatched(k: Config, w: World, s: State, p: Phase)
    requires p in Ready(k.dag, s.ctx.completed + s.ctx.excluded)
    ensures var d := DispatchPhase(k, w, s, p);
      d.status != Blocked &&
      (d.status == Success ==> d.state.ctx.status == s.ctx.status) &&
      (d.status == EscalatedDispatch ==> d.state.ctx == s.ctx.(status := Escalated) && d.questions == [])
  {
    hide Ready, RecordSuccess;
    var outcome := w.execute(s.calls, p, ClarificationModeOf(s.ctx), CompletedArtifacts(s.ctx, p));
    if outcome.Succeeded? {
      SuccessKeepsStatus(k, AfterCall(w, s, p), p, outcome, w.workspace(s.calls));
    }
  }

  lemma SuccessKeepsStatus(k: Config, s: State, p: Phase, outcome: Outcome, files: map<Path, Digest>)
    requires outcome.Succeeded?
    ensures RecordSuccess(k, s, p, outcome, files).ctx.status == s.ctx.status
  {
    hide SaveCompletion;
  }

  // ----- one step of the orchestration loop -----

  function PauseForGate(s: State, gate: Gate): State {
    s.(ctx := s.ctx.(status := AwaitingApproval, pendingGate := Some(gate)),
       store := s.store.(pendingGate := Some(gate)))
  }

  function PauseForClarification(s: State, questions: seq<string>): State {
    Log(s.(ctx := s.ctx.(status := AwaitingClarification, questions := questions),
           store := s.store.(questions := questions)),
        ClarificationAsked)
  }

  function SealContract(w: World, s: State): State {
    if s.ctx.contractSealed then s
    else if !w.contractPresent(s.calls) then Log(s, SealChecked(false))
    else Log(s.(ctx := s.ctx.(contractSealed := true), store := s.store.(contractSealed := true)), SealChecked(true))
  }

  function PostGateCheck(s: State, p: Phase): State {
    if p in s.ctx.gates.post && !GateSatisfied(s.ctx, s.ctx.gates.post[p])
    then PauseForGate(s, s.ctx.gates.post[p]) else s
  }

  function AfterDispatch(w: World, d: Dispatch, p: Phase): State {
    if d.status == EscalatedDispatch then
      d.state
    else if p == Intake && d.questions != [] && ClarificationModeOf(d.state.ctx) == Questions then
      PauseForClarification(d.state, d.questions)
    else
      PostGateCheck(if p == Intake && d.status == Success then SealContract(w, d.state) else d.state, p)
  }

  function Step(k: Config, w: World, s: State): State {
    if s.ctx.status != Running then s else
    match NextPhase(k.dag, s.ctx.completed + s.ctx.excluded)
    case None => s.(ctx := s.ctx.(status := Finished))
    case Some(p) =>
      if p in s.ctx.gates.pre && !GateSatisfied(s.ctx, s.ctx.gates.pre[p]) then
        PauseForGate(s, s.ctx.gates.pre[p])
      else
        AfterDispatch(w, DispatchWithRetries(k, w, s, p), p)
  }

  // ----- user operations -----

  function Approve(s: State): State
    requires s.ctx.pendingGate.Some?
  {
    var approved := s.ctx.approved + {s.ctx.pendingGate.value};
    s.(ctx := s.ctx.(approved := approved, pendingGate := None, status := Running),
       store := s.store.(approved := approved, pendingGate := None))
  }

  /** A decision counts only for the gate the run is paused at; a denial leaves the pause in place. */
  function SubmitApproval(s: State, gate: Gate, granted: bool): State {
    if s.ctx.status == AwaitingApproval && s.ctx.pendingGate == Some(gate) && granted then Approve(s) else s
  }

  function ResetActions(phases: seq<Phase>): seq<Action> {
    if phases == [] then [] else ResetActions(phases[..|phases| - 1]) + [CounterReset(phases[|phases| - 1])]
  }

  function MarkIncomplete(s: State, affected: seq<Phase>): State {
    s.(ctx := s.ctx.(completed := s.ctx.completed - Elems(affected)),
       store := Invalidate(s.store, affected),
       attempts := s.attempts - Elems(affected),
       trace := s.trace + ResetActions(affected))
  }

  predicate AcceptsClarification(ctx: Context) {
    !ctx.contractSealed && ctx.status == AwaitingClarification
  }

  function NextRound(s: State): State {
    var round := s.ctx.round + 1;
    Log(s.(ctx := s.ctx.(round := round, questions := [], status := Running),
           store := s.store.(round := round, questions := [])),
        ClarificationReceived)
  }

  function SubmitClarification(s: State): State {
    if AcceptsClarification(s.ctx) then NextRound(MarkIncomplete(s, [Intake])) else s
  }

  function Stop(s: State): State {
    s.(ctx := s.ctx.(status := Stopped))
  }

  /** The rollback target and everything downstream of it. */
  ghost function Affected(k: Config, target: Phase): seq<Phase> {
    [target] + Downstream(k.dag, target)
  }

  /** Clearing stops at the first affected phase that has progress: the scan short-circuits. */
  function FirstWithProgress(progress: map<Phase, seq<Path>>, affected: seq<Phase>): Option<Phase> {
    if affected == [] then None
    else if affected[0] in progress then Some(affected[0])
    else FirstWithProgress(progress, affected[1..])
  }

  ghost function Rollback(k: Config, s: State, target: Phase): State {
    var s1 := MarkIncomplete(s, Affected(k, target));
    match FirstWithProgress(s.ctx.progress, Affected(k, target))
    case None => s1
    case Some(p) => ClearProgress(s1, p)
  }

  ghost function RollbackOverride(k: Config, s: State, target: Phase): State {
    var s1 := Rollback(k, s, target);
    Log(s1.(ctx := s1.ctx.(pendingGate := None, questions := [], status := Running),
            store := s1.store.(pendingGate := None, questions := [])),
        Overridden)
  }

  function ForceAdvance(s: State): State {
    var s1 := if s.ctx.pendingGate.Some? then Approve(s) else s;
    Log(s1.(ctx := s1.ctx.(status := Running)), Overridden)
  }

  // ----- resume -----

  function LoadFields(ctx: Context, st: RunState): Context {
    ctx.(gates := st.gates, approved := st.approved, excluded := st.excluded, round := st.round,
         contractSealed := st.contractSealed, progress := st.progress, completed := Ids(st.completed))
  }

  /** A pause that was active at shutdown is restored. */
  function RestorePause(ctx: Context, st: RunState): Context {
    if st.pendingGate.Some? && !GateSatisfied(ctx, st.pendingGate.value) then
      ctx.(status := AwaitingApproval, pendingGate := st.pendingGate)
    else if st.questions != [] then
      ctx.(status := AwaitingClarification, questions := st.questions)
    else ctx
  }

  function Rehydrate(ctx: Context, st: RunState): Context {
    RestorePause(LoadFields(ctx, st), st)
  }

  /** What a resume invalidates: the earliest invalid phase and everything downstream of it. */
  ghost function Invalidated(k: Config, st: RunState, files: map<Path, Digest>): seq<Phase> {
    match EarliestInvalid(st.completed, files)
    case None => []
    case Some(p) => Affected(k, p)
  }

  ghost function Rewind(k: Config, s: State, files: map<Path, Digest>): State {
    match EarliestInvalid(s.store.completed, files)
    case None => s
    case Some(p) =>
      s.(ctx := s.ctx.(completed := s.ctx.completed - Elems(Affected(k, p))),
         store := Invalidate(s.store, Affected(k, p)))
  }

  /** `resume_run` on a run this process still holds. */
  ghost function ResumeLive(k: Config, s: State, files: map<Path, Digest>): State {
    Rewind(k, s.(ctx := Rehydrate(s.ctx, s.store)), files)
  }

  /** `resume_run` in a new process: everything but the store is gone. */
  ghost function Restart(k: Config, s: State, files: map<Path, Digest>): State {
    var blank := FreshContext(s.store.mode);
    Rewind(k, Log(s.(ctx := Rehydrate(blank, s.store), attempts := map[]), Restarted), files)
  }

  /** `resume_run`, on a live run or in a new process. */
  ghost function Resumed(k: Config, s: State, files: map<Path, Digest>, live: bool): State {
    if live then ResumeLive(k, s, files) else Restart(k, s, files)
  }

  // ----- whole runs -----

  datatype Op =
    | DoStep
    | DoApproval(gate: Gate, granted: bool)
    | DoClarification
    | DoStop
    | DoRollback(target: Phase)
    | DoForceAdvance
    | DoResumeLive(files: map<Path, Digest>)
    | DoRestart(files: map<Path, Digest>)

  ghost function Apply(k: Config, w: World, s: State, op: Op): State {
    match op
    case DoStep => Step(k, w, s)
    case DoApproval(gate, granted) => SubmitApproval(s, gate, granted)
    case DoClarification => SubmitClarification(s)
    case DoStop => Stop(s)
    case DoRollback(target) => RollbackOverride(k, s, target)
    case DoForceAdvance => ForceAdvance(s)
    case DoResumeLive(files) => ResumeLive(k, s, files)
    case DoRestart(files) => Restart(k, s, files)
  }

  ghost function Run(k: Config, w: World, s: State, ops: seq<Op>): State {
    if ops == [] then s else Apply(k, w, Run(k, w, s, ops[..|ops| - 1]), ops[|ops| - 1])
  }
}
