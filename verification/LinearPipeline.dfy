/** The default thirteen-phase pipeline: the completed set, later gates, and tampered resumes. */
module LinearPipeline {
  import opened Options
  import opened Sequences
  import opened PhaseDag
  import opened Phases
  import opened Checkpoints
  import opened Supervisor
  import opened GateSafety

  // ----- the effect of a successful dispatch on the context, on any graph -----

  function Completing(k: Config, ctx: Context, p: Phase, outcome: Outcome): Context
    requires outcome.Succeeded?
  {
    ctx.(completed := ctx.completed + {p}, progress := ctx.progress - {p},
         excluded := if p == Proposal
                     then ExcludedForTier(if k.tierOverride.Some? then k.tierOverride else outcome.tier)
                     else ctx.excluded)
  }

  function Progressing(ctx: Context, p: Phase, artifacts: seq<Path>): Context {
    ctx.(progress := ctx.progress[p := AppendNew(ProgressOf(ctx, p), artifacts)])
  }

  /** Executor call number `n` succeeded and turned `before` into `after`. */
  ghost predicate Effect(k: Config, w: World, before: Context, after: Context, p: Phase, n: nat) {
    var outcome := w.execute(n, p, ClarificationModeOf(before), CompletedArtifacts(before, p));
    outcome.Succeeded? &&
    after == if outcome.phaseComplete then Completing(k, before, p, outcome)
      else Progressing(before, p, outcome.artifacts)
  }

  lemma RecordSuccessEffect(k: Config, s: State, p: Phase, outcome: Outcome, files: map<Path, Digest>)
    requires outcome.Succeeded?
    ensures RecordSuccess(k, s, p, outcome, files).ctx == Completing(k, s.ctx, p, outcome)
  {
    hide SaveCompletion;
    assert p !in s.ctx.progress ==> s.ctx.progress - {p} == s.ctx.progress;
  }

  lemma DispatchEffect(k: Config, w: World, s: State, p: Phase)
    ensures var d := DispatchPhase(k, w, s, p);
      d.status == Success ==> Effect(k, w, s.ctx, d.state.ctx, p, s.calls)
  {
    hide Ready, RecordSuccess;
    var outcome := w.execute(s.calls, p, ClarificationModeOf(s.ctx), CompletedArtifacts(s.ctx, p));
    if outcome.Succeeded? {
      RecordSuccessEffect(k, AfterCall(w, s, p), p, outcome, w.workspace(s.calls));
    }
  }

  lemma {:induction false} RetriesEffect(k: Config, w: World, s: State, p: Phase) returns (n: nat)
    ensures var d := DispatchWithRetries(k, w, s, p);
      d.status == Success ==> Effect(k, w, s.ctx, d.state.ctx, p, n)
    decreases Budget(k, s, p)
  {
    hide DispatchPhase, Effect;
    FailureSpendsBudget(k, w, s, p);
    DispatchEffect(k, w, s, p);
    var d := DispatchPhase(k, w, s, p);
    n := s.calls;
    if d.status == Failure {
      n := RetriesEffect(k, w, BackOff(k, d.state, p), p);
    }
  }

  /** What follows a successful dispatch touches only status, pauses and seal. */
  lemma AfterDispatchEffect(w: World, d: Dispatch, p: Phase)
    requires d.status == Success && d.state.ctx.status == Running
    ensures var after := AfterDispatch(w, d, p).ctx;
      after == d.state.ctx.(status := after.status, pendingGate := after.pendingGate, questions := after.questions,
                            contractSealed := after.contractSealed) &&
      (after.pendingGate != d.state.ctx.pendingGate ==>
        p in d.state.ctx.gates.post && after.pendingGate == Some(d.state.ctx.gates.post[p])) &&
      (after.questions != d.state.ctx.questions ==> p == Intake)
  {
    hide SealContract, ClarificationModeOf, GateSatisfied;
    SealTouchesSeal(w, d.state);
  }

  lemma SealTouchesSeal(w: World, s: State)
    ensures var t := SealContract(w, s); t.ctx == s.ctx.(contractSealed := t.ctx.contractSealed)
  {
  }

  // ----- initial segments -----

  ghost predicate InitialSegment(c: set<Phase>) {
    forall p: Phase, q: Phase :: q in c && p.Index() < q.Index() ==> p in c
  }

  ghost predicate FinalSegment(e: set<Phase>) {
    Intake !in e && Proposal !in e && forall p: Phase, q: Phase :: p in e && p.Index() < q.Index() ==> q in e
  }

  /** Completed phases lead up to the frontier, excluded ones trail to the end, and while the run is
      paused nothing beyond the paused phase is complete. */
  ghost predicate InLine(ctx: Context) {
    InitialSegment(ctx.completed) && FinalSegment(ctx.excluded) &&
    (ctx.questions != [] ==> ctx.completed <= {Intake}) &&
    (ctx.pendingGate.Some? && ctx.pendingGate.value.PostGate? ==>
      forall q :: q in ctx.completed ==> q.Index() <= ctx.pendingGate.value.phase.Index())
  }

  lemma TierExclusionsTrail(tier: Option<Tier>)
    ensures FinalSegment(ExcludedForTier(tier))
  {
  }

  lemma FrontierIsNext(ctx: Context, p: Phase)
    requires InLine(ctx) && IsReady(LinearDag(), ctx.completed + ctx.excluded, p)
    ensures p !in ctx.completed && p !in ctx.excluded
    ensures forall q :: q in ctx.completed <==> q.Index() < p.Index()
  {
    LinearDependencies(p);
    PhaseIdsAreIndexed();
    if p.Index() > 0 {
      var d := PHASE_IDS[p.Index() - 1];
      assert d in LinearDag().deps[p];
      assert d in ctx.completed;
      forall q: Phase | q.Index() < p.Index() ensures q in ctx.completed {
        IndexIsInjective(q, d);
      }
    }
    forall q | q in ctx.completed ensures q.Index() < p.Index() {
      IndexIsInjective(q, p);
    }
  }

  /** The next phase of a line: the first one that is not completed, unless it is excluded. */
  lemma NextInLine(ctx: Context, p: Phase)
    requires FinalSegment(ctx.excluded) && p !in ctx.excluded
    requires forall q: Phase :: q in ctx.completed <==> q.Index() < p.Index()
    ensures NextPhase(LinearDag(), ctx.completed + ctx.excluded) == Some(p)
  {
    hide Ready, NextPhase, LinearDag;
    LinearDagIsValid();
    var done := ctx.completed + ctx.excluded;
    NoDeadlock(LinearDag(), done);
    assert p !in done;
    NextPhaseIsReady(LinearDag(), done);
    var next := NextPhase(LinearDag(), done).value;
    FrontierIsNext(ctx.(questions := [], pendingGate := None), next);
    assert p in ctx.completed <==> p.Index() < next.Index();
    assert next in ctx.completed <==> next.Index() < p.Index();
    IndexIsInjective(p, next);
  }

  lemma ExtendSegment(c: set<Phase>, p: Phase)
    requires forall q :: q in c <==> q.Index() < p.Index()
    ensures InitialSegment(c) && InitialSegment(c + {p})
    ensures forall q :: q in c + {p} ==> q.Index() <= p.Index()
  {
    forall a: Phase, b: Phase | b in c + {p} && a.Index() < b.Index() ensures a in c + {p} {
    }
  }

  lemma EffectInLine(k: Config, w: World, before: Context, after: Context, p: Phase, n: nat)
    requires InLine(before) && before.pendingGate == None && before.questions == []
    requires IsReady(LinearDag(), before.completed + before.excluded, p)
    requires Effect(k, w, before, after, p, n)
    ensures InLine(after) && after.pendingGate == None && after.questions == []
    ensures forall q :: q in after.completed ==> q.Index() <= p.Index()
  {
    hide IsReady, ExcludedForTier, LinearDag;
    FrontierIsNext(before, p);
    ExtendSegment(before.completed, p);
    var outcome := w.execute(n, p, ClarificationModeOf(before), CompletedArtifacts(before, p));
    TierExclusionsTrail(if k.tierOverride.Some? then k.tierOverride else outcome.tier);
  }

  lemma StepInLine(k: Config, w: World, s: State)
    requires k.dag == LinearDag() && Inv(k, s, None) && InLine(s.ctx)
    ensures InLine(Step(k, w, s).ctx)
  {
    hide DispatchWithRetries, AfterDispatch, Ready, NextPhase, SafeTrace, Sound, InSync;
    if s.ctx.status == Running {
      var next := NextPhase(k.dag, s.ctx.completed + s.ctx.excluded);
      if next.Some? && (next.value in s.ctx.gates.pre ==> GateSatisfied(s.ctx, s.ctx.gates.pre[next.value])) {
        var p := next.value;
        SelectedMayDispatch(k, s, p);
        DispatchWithRetriesKeeps(k, w, s, p);
        var d := DispatchWithRetries(k, w, s, p);
        if d.status == Success {
          var n := RetriesEffect(k, w, s, p);
          EffectInLine(k, w, s.ctx, d.state.ctx, p, n);
          AfterDispatchEffect(w, d, p);
          PauseInLine(k, d.state.ctx, AfterDispatch(w, d, p).ctx, p);
        } else {
          EscalatedStep(w, d, p);
        }
      } else if next.Some? {
        PreGateIsNotPost(k, s.ctx, next.value);
      }
    }
  }

  lemma EscalatedStep(w: World, d: Dispatch, p: Phase)
    requires d.status == EscalatedDispatch
    ensures AfterDispatch(w, d, p) == d.state
  {
  }

  lemma PreGateIsNotPost(k: Config, ctx: Context, p: Phase)
    requires AsRequested(k, ctx) && p in ctx.gates.pre
    ensures !ctx.gates.pre[p].PostGate?
  {
  }

  lemma PauseInLine(k: Config, ran: Context, after: Context, p: Phase)
    requires InLine(ran) && AsRequested(k, ran) && ran.pendingGate == None && ran.questions == []
    requires forall q :: q in ran.completed ==> q.Index() <= p.Index()
    requires after == ran.(status := after.status, pendingGate := after.pendingGate, questions := after.questions,
                           contractSealed := after.contractSealed)
    requires after.pendingGate != None ==> p in ran.gates.post && after.pendingGate == Some(ran.gates.post[p])
    requires after.questions != [] ==> p == Intake
    ensures InLine(after)
  {
    assert forall q: Phase :: q.Index() <= 0 ==> q == Intake;
  }

  lemma AffectedInLine(k: Config, target: Phase)
    requires k.dag == LinearDag()
    ensures forall q :: q in Elems(Affected(k, target)) <==> target.Index() <= q.Index()
  {
    LinearDownstream(target);
    forall q ensures q in Affected(k, target) <==> target.Index() <= q.Index() {
      IndexIsInjective(q, target);
    }
  }

  lemma RollbackInLine(k: Config, s: State, target: Phase)
    requires k.dag == LinearDag() && Inv(k, s, None) && InLine(s.ctx)
    ensures InLine(RollbackOverride(k, s, target).ctx)
  {
    AffectedInLine(k, target);
    RollbackKeeps(k, s, target);
  }

  lemma RewindInLine(k: Config, s: State, files: map<Path, Digest>)
    requires k.dag == LinearDag() && InLine(s.ctx)
    ensures InLine(Rewind(k, s, files).ctx)
  {
    hide EarliestInvalid, Invalidate, Affected;
    var p := EarliestInvalid(s.store.completed, files);
    if p.Some? {
      AffectedInLine(k, p.value);
    }
  }

  lemma ResumeInLine(k: Config, s: State, files: map<Path, Digest>)
    requires k.dag == LinearDag() && Inv(k, s, None) && InLine(s.ctx)
    ensures InLine(ResumeLive(k, s, files).ctx) && InLine(Restart(k, s, files).ctx)
  {
    hide Rehydrate, Rewind, Inv;
    RehydrateRebuilds(k, s);
    RewindInLine(k, s.(ctx := Rehydrate(s.ctx, s.store)), files);
    var restarted := Log(s.(ctx := Rehydrate(FreshContext(s.store.mode), s.store), attempts := map[]), Restarted);
    RewindInLine(k, restarted, files);
  }

  lemma ApplyInLine(k: Config, w: World, s: State, op: Op)
    requires k.dag == LinearDag() && Inv(k, s, None) && InLine(s.ctx) && Permitted(k, s, op)
    ensures InLine(Apply(k, w, s, op).ctx)
  {
    hide LinearDag, Step, RollbackOverride, ResumeLive, Restart, SafeTrace, Sound;
    match op
    case DoStep => StepInLine(k, w, s);
    case DoApproval(gate, granted) =>
    case DoClarification =>
    case DoStop =>
    case DoRollback(target) => RollbackInLine(k, s, target);
    case DoForceAdvance =>
    case DoResumeLive(files) => ResumeInLine(k, s, files);
    case DoRestart(files) => ResumeInLine(k, s, files);
  }

  lemma {:induction false} RunInLine(k: Config, w: World, ops: seq<Op>)
    requires k.dag == LinearDag() && PermittedRun(k, w, StartRun(k), ops)
    ensures InLine(Run(k, w, StartRun(k), ops).ctx)
    decreases |ops|
  {
    if ops != [] {
      var s := StartRun(k);
      var front := ops[..|ops| - 1];
      PermittedPrefix(k, w, s, ops);
      RunInLine(k, w, front);
      StartKeeps(k);
      RunKeeps(k, w, s, front);
      ApplyInLine(k, w, Run(k, w, s, front), ops[|ops| - 1]);
    }
  }

  // ----- the theorems -----

  /** In every reachable state the completed phases are an initial segment of the pipeline. */
  lemma CompletedIsInitialSegment(k: Config, w: World, s: State)
    requires k.dag == LinearDag() && Reachable(k, w, s)
    ensures InitialSegment(s.ctx.completed)
  {
    hide Run, PermittedRun, Reachable, Inv, LinearDag;
    var ops := ReachableKeeps(k, w, s);
    RunInLine(k, w, ops);
  }

  /** In a secure run, a completed phase after proposal, architecture or blueprint means that gate
      has been approved: in every reachable state, paused, stopped, rolled back or restarted. */
  lemma LaterPhasesAreApproved(k: Config, w: World, s: State, gated: Phase, later: Phase)
    requires k.dag == LinearDag() && k.mode == Secure && Reachable(k, w, s)
    requires gated in {Proposal, Architecture, Blueprint} && gated.Index() < later.Index()
    requires later in s.ctx.completed
    ensures PostGate(gated) in s.ctx.approved
  {
    hide Run, PermittedRun, Reachable, SafeTrace, Sound, InSync, LinearDag;
    var ops := ReachableKeeps(k, w, s);
    RunInLine(k, w, ops);
    var ctx := s.ctx;
    assert gated in {Proposal, Architecture, Blueprint} + Requested(k.extraGates);
    assert gated in ctx.completed && gated in ctx.gates.post;
    assert ctx.questions == [];
  }

  /** A step of a running run reports completion exactly when every phase is completed or excluded by
      the tier. */
  lemma FinishedMeansDone(k: Config, w: World, s: State)
    requires ValidConfig(k) && s.ctx.status == Running
    ensures Step(k, w, s).ctx.status == Finished <==> k.dag.deps.Keys <= s.ctx.completed + s.ctx.excluded
  {
    hide Ready, NextPhase, DispatchWithRetries;
    NoDeadlock(k.dag, s.ctx.completed + s.ctx.excluded);
    var next := NextPhase(k.dag, s.ctx.completed + s.ctx.excluded);
    if next.Some? {
      RetriesStatus(k, w, s, next.value);
    }
  }

  lemma {:induction false} RetriesStatus(k: Config, w: World, s: State, p: Phase)
    requires s.ctx.status == Running
    ensures DispatchWithRetries(k, w, s, p).state.ctx.status in {Running, Escalated}
    decreases Budget(k, s, p)
  {
    FailureSpendsBudget(k, w, s, p);
    DispatchStatusIs(k, w, s, p);
    var d := DispatchPhase(k, w, s, p);
    hide DispatchPhase;
    if d.status == Failure {
      RetriesStatus(k, w, BackOff(k, d.state, p), p);
    }
  }

  lemma DispatchStatusIs(k: Config, w: World, s: State, p: Phase)
    ensures DispatchPhase(k, w, s, p).state.ctx.status in {s.ctx.status, Escalated}
  {
    hide Ready, SaveCompletion;
  }

  /** Resuming after arbitrary changes to the workspace keeps exactly the longest initial segment of
      completed phases whose checkpoints all validate, in memory and in the store. */
  lemma ResumeKeepsLongestValidSegment(k: Config, w: World, s: State, files: map<Path, Digest>, live: bool)
    requires k.dag == LinearDag() && Reachable(k, w, s)
    ensures var back := Resumed(k, s, files, live);
      (forall p :: p in back.ctx.completed <==> p in s.ctx.completed && ValidUpTo(s.store, files, p)) &&
      InitialSegment(back.ctx.completed) && Ids(back.store.completed) == back.ctx.completed
  {
    hide Run, PermittedRun, Reachable, Inv, LinearDag, Resumed;
    var ops := ReachableKeeps(k, w, s);
    RunInLine(k, w, ops);
    ResumeKeepsValid(k, s, files, live);
  }

  /** All stored checkpoints up to and including `p` match the workspace. */
  ghost predicate ValidUpTo(st: RunState, files: map<Path, Digest>, p: Phase) {
    forall c :: c in st.completed && c.phase.Index() <= p.Index() ==> CheckpointValid(c, files)
  }

  lemma ResumeKeepsValid(k: Config, s: State, files: map<Path, Digest>, live: bool)
    requires k.dag == LinearDag() && Inv(k, s, None) && InLine(s.ctx)
    ensures var back := Resumed(k, s, files, live);
      (forall p :: p in back.ctx.completed <==> p in s.ctx.completed && ValidUpTo(s.store, files, p)) &&
      InitialSegment(back.ctx.completed) && Ids(back.store.completed) == back.ctx.completed
  {
    hide Rehydrate, EarliestInvalid, Invalidate, Affected, CheckpointValid;
    ResumeKeeps(k, s, files);
    ResumeInLine(k, s, files);
    RehydrateRebuilds(k, s);
    EarliestInvalidIsFirst(s.store.completed, files);
    var bad := EarliestInvalid(s.store.completed, files);
    if bad.Some? {
      AffectedInLine(k, bad.value);
    }
  }

  /** The phase a resume announces is the one the next step selects exactly when every phase is completed
      or some phase is neither completed nor excluded: it differs when only excluded phases are left. */
  lemma ResumeFromMatchesStepIff(ctx: Context)
    requires InLine(ctx)
    ensures NextPhase(LinearDag(), ctx.completed) == NextPhase(LinearDag(), ctx.completed + ctx.excluded) <==>
      (forall p: Phase :: p in ctx.completed) || exists p: Phase :: p !in ctx.completed && p !in ctx.excluded
  {
    hide Ready, LinearDag, NextPhase;
    LinearDagIsValid();
    var announced := NextPhase(LinearDag(), ctx.completed);
    var selected := NextPhase(LinearDag(), ctx.completed + ctx.excluded);
    NoDeadlock(LinearDag(), ctx.completed);
    NoDeadlock(LinearDag(), ctx.completed + ctx.excluded);
    if announced.Some? {
      NextPhaseIsReady(LinearDag(), ctx.completed);
      var none := ctx.(excluded := {});
      assert ctx.completed + {} == ctx.completed;
      FrontierIsNext(none, announced.value);
    }
    if selected.Some? {
      NextPhaseIsReady(LinearDag(), ctx.completed + ctx.excluded);
      FrontierIsNext(ctx, selected.value);
    }
    if announced.Some? && selected.Some? {
      IndexIsInjective(announced.value, selected.value);
    }
  }
}
