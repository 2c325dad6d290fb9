/** Every completed phase has its dependencies completed or excluded: where that holds, and where it does not. */
module Dependencies {
  import opened Options
  import opened Sequences
  import opened PhaseDag
  import opened Phases
  import opened Checkpoints
  import opened Supervisor
  import opened GateSafety
  import opened LinearPipeline
  import opened Rollbacks
  import opened Witnesses

  // ----- one step -----

  /** What a step does to the completed and excluded phases: at most one ready phase completes, and only completing
      the proposal replaces the exclusions. */
  lemma StepCompletesOne(k: Config, w: World, s: State) returns (p: Phase, n: nat)
    requires Inv(k, s, None)
    ensures var t := Step(k, w, s).ctx;
      (t.completed == s.ctx.completed && t.excluded == s.ctx.excluded) ||
      (IsReady(k.dag, s.ctx.completed + s.ctx.excluded, p) && t.completed == s.ctx.completed + {p} &&
       t.excluded ==
         if p == Proposal then
           var outcome := w.execute(n, p, ClarificationModeOf(s.ctx), CompletedArtifacts(s.ctx, p));
           ExcludedForTier(if k.tierOverride.Some? || !outcome.Succeeded? then k.tierOverride else outcome.tier)
         else s.ctx.excluded)
    ensures p == Proposal && Step(k, w, s).ctx.completed != s.ctx.completed ==>
      w.execute(n, p, ClarificationModeOf(s.ctx), CompletedArtifacts(s.ctx, p)).Succeeded?
    ensures Step(k, w, s).ctx.questions != s.ctx.questions ==>
      IsReady(k.dag, s.ctx.completed + s.ctx.excluded, Intake) && Intake !in s.ctx.completed
  {
    hide DispatchWithRetries, AfterDispatch, NextPhase, Ready, SafeTrace, Sound, InSync, GatesHeld;
    p, n := Intake, 0;
    var next := NextPhase(k.dag, s.ctx.completed + s.ctx.excluded);
    if s.ctx.status == Running && next.Some? &&
       (next.value in s.ctx.gates.pre ==> GateSatisfied(s.ctx, s.ctx.gates.pre[next.value])) {
      p := next.value;
      NextPhaseIsReady(k.dag, s.ctx.completed + s.ctx.excluded);
      ReadyIsDispatched(k, w, s, p);
      var d := DispatchWithRetries(k, w, s, p);
      if d.status == EscalatedDispatch {
        EscalatedStep(w, d, p);
      } else {
        n := RetriesEffect(k, w, s, p);
        AfterDispatchEffect(w, d, p);
      }
    }
  }

  /** Nothing completed depends on an uncompleted phase that is excluded now and would not be under `tier`. The
      proposal counts as completed: only its assessment changes the exclusions. */
  predicate TierCovers(k: Config, ctx: Context, tier: set<Phase>) {
    forall p, d :: p in ctx.completed + {Proposal} && p in k.dag.deps && d in k.dag.deps[p] && d in ctx.excluded ==>
      d in tier || d in ctx.completed || d == Proposal
  }

  /** Exactly when a step keeps every completed phase's dependencies done: when the tier it assesses, if any, lets no
      dependency of a completed phase back in. */
  lemma StepKeepsDependenciesIff(k: Config, w: World, s: State)
    requires Inv(k, s, None) && DependenciesDone(k.dag, s.ctx.completed, s.ctx.excluded)
    ensures var t := Step(k, w, s).ctx;
      DependenciesDone(k.dag, t.completed, t.excluded) <==> TierCovers(k, s.ctx, t.excluded)
  {
    hide Step, Inv;
    var p, n := StepCompletesOne(k, w, s);
  }

  // ----- runs with a stable tier -----

  /** Every assessment of the proposal comes to the same exclusions, as it does under a configured tier. */
  ghost predicate StableTier(k: Config, w: World, excluded: set<Phase>) {
    forall n, mode, done {:trigger w.execute(n, Proposal, mode, done)} ::
      var outcome := w.execute(n, Proposal, mode, done);
      outcome.Succeeded? ==> ExcludedForTier(if k.tierOverride.Some? then k.tierOverride else outcome.tier) == excluded
  }

  ghost predicate NothingOnIntake(k: Config, ctx: Context) {
    forall p :: p in ctx.completed && p in k.dag.deps ==> Intake !in k.dag.deps[p]
  }

  ghost predicate DepInv(k: Config, s: State, excluded: set<Phase>) {
    DependenciesDone(k.dag, s.ctx.completed, s.ctx.excluded) && Intake !in s.ctx.excluded &&
    (s.ctx.excluded == {} || s.ctx.excluded == excluded) && (s.ctx.questions != [] ==> NothingOnIntake(k, s.ctx))
  }

  lemma StepDeps(k: Config, w: World, s: State, excluded: set<Phase>)
    requires ValidConfig(k) && StableTier(k, w, excluded) && Inv(k, s, None) && DepInv(k, s, excluded)
    ensures DepInv(k, Step(k, w, s), excluded)
  {
    hide Step, ValidConfig, SafeTrace, Sound, InSync, GatesHeld, StableTier, ExcludedForTier;
    var t := Step(k, w, s).ctx;
    var p, n := StepCompletesOne(k, w, s);
    StepKeepsDependenciesIff(k, w, s);
    if p == Proposal && t.completed != s.ctx.completed {
      AssessedExclusions(k, w, s, excluded, n);
    }
    if t.questions != [] && t.questions != s.ctx.questions {
      IntakeHasNoSelf(k);
      forall q | q in t.completed && q in k.dag.deps ensures Intake !in k.dag.deps[q] {
        if q !in s.ctx.completed {
          OnlyIntakeAsks(k, w, s, q);
        }
      }
    }
    StepPauses(k, w, s);
  }

  lemma AssessedExclusions(k: Config, w: World, s: State, excluded: set<Phase>, n: nat)
    requires StableTier(k, w, excluded)
    requires w.execute(n, Proposal, ClarificationModeOf(s.ctx), CompletedArtifacts(s.ctx, Proposal)).Succeeded?
    ensures var outcome := w.execute(n, Proposal, ClarificationModeOf(s.ctx), CompletedArtifacts(s.ctx, Proposal));
      ExcludedForTier(if k.tierOverride.Some? then k.tierOverride else outcome.tier) == excluded && Intake !in excluded
  {
    TierExclusionsTrail(if k.tierOverride.Some? then k.tierOverride else
      w.execute(n, Proposal, ClarificationModeOf(s.ctx), CompletedArtifacts(s.ctx, Proposal)).tier);
  }

  lemma IntakeHasNoSelf(k: Config)
    requires ValidConfig(k)
    ensures Intake in k.dag.deps ==> Intake !in k.dag.deps[Intake]
  {
    if Intake in k.dag.deps && Intake in k.dag.deps[Intake] {
      PathStep(k.dag, Intake, Intake);
    }
  }

  /** A step that asks questions dispatched intake. */
  lemma OnlyIntakeAsks(k: Config, w: World, s: State, p: Phase)
    requires Inv(k, s, None) && Step(k, w, s).ctx.questions != s.ctx.questions
    requires p in Step(k, w, s).ctx.completed && p !in s.ctx.completed
    ensures p == Intake
  {
    hide DispatchWithRetries, AfterDispatch, NextPhase, Ready, SafeTrace, Sound, InSync, GatesHeld;
    var next := NextPhase(k.dag, s.ctx.completed + s.ctx.excluded).value;
    NextPhaseIsReady(k.dag, s.ctx.completed + s.ctx.excluded);
    ReadyIsDispatched(k, w, s, next);
    var d := DispatchWithRetries(k, w, s, next);
    if d.status == EscalatedDispatch {
      EscalatedStep(w, d, next);
    } else {
      var n := RetriesEffect(k, w, s, next);
      AfterDispatchEffect(w, d, next);
    }
  }

  /** A step of a run that is not running changes nothing of the context but, at the end, the status. */
  lemma StepPauses(k: Config, w: World, s: State)
    requires Inv(k, s, None)
    ensures s.ctx.questions != [] ==> Step(k, w, s) == s
  {
    hide DispatchWithRetries, AfterDispatch, NextPhase, SafeTrace, Sound, InSync, GatesHeld;
  }

  lemma ClarificationDeps(k: Config, s: State, excluded: set<Phase>)
    requires Inv(k, s, None) && DepInv(k, s, excluded)
    ensures DepInv(k, SubmitClarification(s), excluded)
  {
    hide Invalidate, SafeTrace, Sound, InSync, GatesHeld;
    assert Elems([Intake]) == {Intake};
  }

  lemma RollbackDeps(k: Config, s: State, target: Phase, excluded: set<Phase>)
    requires ValidConfig(k) && Inv(k, s, None) && DepInv(k, s, excluded)
    ensures DepInv(k, RollbackOverride(k, s, target), excluded)
  {
    hide Rollback, Inv, ValidConfig, DependenciesDone;
    RollbackKeeps(k, s, target);
    RollbackKeepsDependencies(k, s, target);
  }

  lemma ResumeDeps(k: Config, s: State, files: map<Path, Digest>, live: bool, excluded: set<Phase>)
    requires ValidConfig(k) && Inv(k, s, None) && DepInv(k, s, excluded)
    ensures DepInv(k, Resumed(k, s, files, live), excluded)
  {
    hide Inv, Resumed, Rewound, ValidConfig;
    var back := Resumed(k, s, files, live);
    forall p ensures p in back.ctx.completed <==> p in s.ctx.completed && !Rewound(k, s, files, p) {
      RewindIsExact(k, s, files, live, p);
    }
    ResumedContext(k, s, files, live);
    forall p, d | p in back.ctx.completed && p in k.dag.deps && d in k.dag.deps[p] && d !in s.ctx.excluded
      ensures d in back.ctx.completed
    {
      if Rewound(k, s, files, d) {
        RewoundUpward(k, s, files, p, d);
      }
    }
  }

  lemma ResumedContext(k: Config, s: State, files: map<Path, Digest>, live: bool)
    requires Inv(k, s, None)
    ensures var back := Resumed(k, s, files, live).ctx;
      back.excluded == s.ctx.excluded && back.questions == s.ctx.questions
  {
    hide Rehydrate, EarliestInvalid, Affected, Invalidate;
    RehydrateRebuilds(k, s);
  }

  /** What depends on a rewound phase is rewound. */
  lemma RewoundUpward(k: Config, s: State, files: map<Path, Digest>, p: Phase, d: Phase)
    requires ValidConfig(k) && Rewound(k, s, files, d) && p in k.dag.deps && d in k.dag.deps[p]
    ensures Rewound(k, s, files, p)
  {
    hide EarliestInvalid;
    var bad := EarliestInvalid(s.store.completed, files).value;
    PathStep(k.dag, p, d);
    if d != bad {
      ReachesTransitive(k.dag, p, d, bad);
    }
  }

  lemma ApplyDeps(k: Config, w: World, s: State, op: Op, excluded: set<Phase>)
    requires ValidConfig(k) && StableTier(k, w, excluded) && Inv(k, s, None) && DepInv(k, s, excluded)
    ensures DepInv(k, Apply(k, w, s, op), excluded)
  {
    hide Inv, ValidConfig, StableTier, DependenciesDone;
    match op
    case DoStep => StepDeps(k, w, s, excluded);
    case DoApproval(gate, granted) =>
    case DoClarification => ClarificationDeps(k, s, excluded);
    case DoStop =>
    case DoRollback(target) => RollbackDeps(k, s, target, excluded);
    case DoForceAdvance =>
    case DoResumeLive(files) => ResumeDeps(k, s, files, true, excluded);
    case DoRestart(files) => ResumeDeps(k, s, files, false, excluded);
  }

  lemma {:induction false} RunDeps(k: Config, w: World, ops: seq<Op>, excluded: set<Phase>)
    requires ValidConfig(k) && StableTier(k, w, excluded) && PermittedRun(k, w, StartRun(k), ops)
    ensures DepInv(k, Run(k, w, StartRun(k), ops), excluded)
    decreases |ops|
  {
    hide Inv, ValidConfig, StableTier, Apply, DepInv, Permitted;
    if ops == [] {
      StartDeps(k, excluded);
    } else {
      var front := ops[..|ops| - 1];
      PermittedPrefix(k, w, StartRun(k), ops);
      RunDeps(k, w, front, excluded);
      StartKeeps(k);
      RunKeeps(k, w, StartRun(k), front);
      ApplyDeps(k, w, Run(k, w, StartRun(k), front), ops[|ops| - 1], excluded);
    }
  }

  lemma StartDeps(k: Config, excluded: set<Phase>)
    ensures DepInv(k, StartRun(k), excluded)
  {
  }

  // ----- the theorems -----

  /** On any accepted graph, while the tier stays the same, every completed phase of a reachable state has its
      dependencies completed or excluded. */
  lemma DependenciesStayDone(k: Config, w: World, s: State, excluded: set<Phase>)
    requires ValidConfig(k) && StableTier(k, w, excluded) && Reachable(k, w, s)
    ensures DependenciesDone(k.dag, s.ctx.completed, s.ctx.excluded)
  {
    hide Run, PermittedRun, Reachable, Inv, ValidConfig, StableTier, DependenciesDone;
    var ops := ReachableKeeps(k, w, s);
    RunDeps(k, w, ops, excluded);
  }

  /** On the default pipeline they are completed, whatever the tier does. */
  lemma LinearDependenciesDone(k: Config, w: World, s: State)
    requires k.dag == LinearDag() && Reachable(k, w, s)
    ensures DependenciesDone(k.dag, s.ctx.completed, {})
  {
    hide Run, PermittedRun, Reachable, Inv, LinearDag;
    CompletedIsInitialSegment(k, w, s);
    forall p, d | p in s.ctx.completed && p in k.dag.deps && d in k.dag.deps[p] ensures d in s.ctx.completed {
      LinearDependencies(p);
    }
  }

  // ----- a dependency that comes back -----

  /** The development plan depends on QA, and nothing depends on the proposal. */
  function PlanOnQa(): Graph<Phase> {
    Graph([Proposal, DevPlan, Qa], map[Proposal := [], DevPlan := [Qa], Qa := []])
  }

  function AssessedAs(n: int): Outcome {
    Succeeded([], true, [], if n == 0 then Some(Simple) else None, true)
  }

  /** The proposal is assessed as simple first and without a tier later. */
  function GrowingWorld(): World {
    World((n, p, mode, done) => AssessedAs(n), n => map[], n => false)
  }

  predicate WithoutGates(ctx: Context) {
    ctx.status == Running && ctx.mode == Yolo && Proposal !in ctx.gates.pre && DevPlan !in ctx.gates.pre
  }

  lemma PlanOnQaNext(done: set<Phase>)
    ensures Proposal !in done ==> NextPhase(PlanOnQa(), done) == Some(Proposal)
    ensures Proposal in done && DevPlan !in done && Qa in done ==> NextPhase(PlanOnQa(), done) == Some(DevPlan)
  {
    hide IsReady;
    PlanOnQaReady(done);
    var first := if Proposal in done then 1 else 0;
    if Proposal !in done || (DevPlan !in done && Qa in done) {
      FilterFirst(ReadyTest(PlanOnQa(), done), PlanOnQa().order, first);
    }
  }

  lemma PlanOnQaReady(done: set<Phase>)
    ensures IsReady(PlanOnQa(), done, Proposal) <==> Proposal !in done
    ensures IsReady(PlanOnQa(), done, DevPlan) <==> DevPlan !in done && Qa in done
  {
    assert PlanOnQa().deps[Proposal] == [] && PlanOnQa().deps[DevPlan] == [Qa];
  }

  lemma PlanOnQaIsValid()
    ensures WellFormed(PlanOnQa()) && Closed(PlanOnQa()) && Acyclic(PlanOnQa())
    ensures forall p :: !Reaches(PlanOnQa(), p, Proposal)
    ensures DevPlan in PlanOnQa().deps && Qa in PlanOnQa().deps[DevPlan]
  {
    forall p, q | Reaches(PlanOnQa(), p, q) ensures p == DevPlan && q == Qa {
      var d := ReachesUnfold(PlanOnQa(), p, q);
      if d != q {
        var e := ReachesUnfold(PlanOnQa(), d, q);
        assert false;
      }
    }
  }

  /** The plan completes while QA is excluded; the proposal is rolled back and reassessed, and QA is no longer
      excluded: the plan stands completed on a phase that is neither completed nor excluded. */
  lemma DependencyComesBack(k: Config)
    requires k.dag == PlanOnQa() && k.mode == Yolo && k.extraGates == [] && k.tierOverride == None
    ensures var s := Run(k, GrowingWorld(), StartRun(k), [DoStep, DoStep, DoRollback(Proposal), DoStep]);
      ValidConfig(k) && DevPlan in s.ctx.completed && Qa in k.dag.deps[DevPlan] &&
      Qa !in s.ctx.completed && Qa !in s.ctx.excluded
  {
    hide Step, Run, RollbackOverride, PlanOnQa, GrowingWorld;
    var w, start := GrowingWorld(), StartRun(k);
    PlanOnQaIsValid();
    var first := Step(k, w, start);
    ProposalStep(k, start);
    var second := Step(k, w, first);
    PlanStep(k, first);
    var third := RollbackOverride(k, second, Proposal);
    ProposalRolledBack(k, second);
    ProposalStep(k, third);
    RunFour(k, w, start, DoStep, DoStep, DoRollback(Proposal), DoStep);
  }

  /** A phase completes in yolo mode: nothing pauses the run. */
  lemma YoloStep(k: Config, w: World, s: State, p: Phase, outcome: Outcome)
    requires AboutTo(k, w, s, p, outcome) && outcome.Succeeded? && outcome.phaseComplete && outcome.checksPass
    requires outcome.questions == [] && s.ctx.mode == Yolo
    ensures var t := Step(k, w, s);
      t.ctx.status == Running && t.ctx.mode == Yolo && t.ctx.gates == s.ctx.gates && t.calls == s.calls + 1 &&
      t.ctx.completed == s.ctx.completed + {p} && t.ctx.excluded == Completing(k, s.ctx, p, outcome).excluded
  {
    hide Step, NextPhase, ExcludedForTier, AboutTo;
    StepCompletes(k, w, s, p, outcome);
  }

  /** The proposal is assessed by the number of the call. */
  lemma ProposalStep(k: Config, s: State)
    requires k.dag == PlanOnQa() && k.tierOverride == None && WithoutGates(s.ctx) && Proposal !in s.ctx.completed
    requires Proposal !in s.ctx.excluded
    ensures var t := Step(k, GrowingWorld(), s);
      WithoutGates(t.ctx) && t.calls == s.calls + 1 && t.ctx.completed == s.ctx.completed + {Proposal} &&
      t.ctx.excluded == ExcludedForTier(AssessedAs(s.calls).tier) &&
      (s.calls == 0 ==> Qa in t.ctx.excluded && DevPlan !in t.ctx.excluded) &&
      (s.calls > 0 ==> t.ctx.excluded == {})
  {
    hide Step, NextPhase, ExcludedForTier, PlanOnQa;
    SimpleTierIncludesQa();
    PlanOnQaNext(s.ctx.completed + s.ctx.excluded);
    YoloStep(k, GrowingWorld(), s, Proposal, AssessedAs(s.calls));
  }

  lemma PlanStep(k: Config, s: State)
    requires k.dag == PlanOnQa() && WithoutGates(s.ctx) && s.ctx.completed == {Proposal} && s.calls != 0
    requires Qa in s.ctx.excluded && DevPlan !in s.ctx.excluded
    ensures var t := Step(k, GrowingWorld(), s);
      WithoutGates(t.ctx) && t.calls == s.calls + 1 && t.ctx.completed == {Proposal, DevPlan} &&
      t.ctx.excluded == s.ctx.excluded
  {
    hide Step, NextPhase, PlanOnQa;
    PlanOnQaNext(s.ctx.completed + s.ctx.excluded);
    YoloStep(k, GrowingWorld(), s, DevPlan, AssessedAs(s.calls));
  }

  lemma SimpleTierIncludesQa()
    ensures Qa in ExcludedForTier(Some(Simple)) && Proposal !in ExcludedForTier(Some(Simple))
    ensures DevPlan !in ExcludedForTier(Some(Simple)) && ExcludedForTier(None) == {}
  {
  }

  lemma ProposalRolledBack(k: Config, s: State)
    requires k.dag == PlanOnQa() && s.ctx.completed == {Proposal, DevPlan}
    ensures var t := RollbackOverride(k, s, Proposal);
      t.ctx.status == Running && t.ctx.completed == {DevPlan} && t.ctx.excluded == s.ctx.excluded &&
      t.ctx.gates == s.ctx.gates && t.ctx.mode == s.ctx.mode && t.calls == s.calls
  {
    hide Affected, Invalidate;
    PlanOnQaIsValid();
    AffectedIff(k, Proposal, Proposal);
    AffectedIff(k, Proposal, DevPlan);
    assert forall p :: p in Elems(Affected(k, Proposal)) <==> p in Affected(k, Proposal);
  }
}
