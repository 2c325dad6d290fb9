/** Concrete runs in which a property fails that one might have expected to hold. */
module Witnesses {
  import opened Options
  import opened Sequences
  import opened PhaseDag
  import opened Phases
  import opened Checkpoints
  import opened Supervisor
  import opened GateSafety
  import opened LinearPipeline
  import opened Rollbacks
  import Retries
  import RetrySafety

  // ----- stepping through a concrete run -----

  /** The run is running and about to dispatch `p`, which answers `outcome`. */
  ghost predicate AboutTo(k: Config, w: World, s: State, p: Phase, outcome: Outcome) {
    s.ctx.status == Running && p !in s.ctx.gates.pre &&
    NextPhase(k.dag, s.ctx.completed + s.ctx.excluded) == Some(p) &&
    outcome == w.execute(s.calls, p, ClarificationModeOf(s.ctx), CompletedArtifacts(s.ctx, p))
  }

  /** One executor call was made, and it was logged with the state it was made from. */
  ghost predicate CalledOnce(s: State, t: State, p: Phase, outcome: Outcome) {
    t.calls == s.calls + 1 && s.trace <= t.trace && |s.trace| < |t.trace| &&
      t.trace[|s.trace|] == Dispatched(p, s.ctx, outcome)
  }

  function GateAfter(ctx: Context, p: Phase): Option<Gate> {
    if p in ctx.gates.post && !GateSatisfied(ctx, ctx.gates.post[p]) then Some(ctx.gates.post[p]) else None
  }

  lemma DispatchCompletes(k: Config, w: World, s: State, p: Phase, outcome: Outcome)
    requires AboutTo(k, w, s, p, outcome) && outcome.Succeeded? && outcome.phaseComplete && outcome.checksPass
    ensures var d := DispatchWithRetries(k, w, s, p);
      d.status == Success && d.questions == outcome.questions && d.state.ctx == Completing(k, s.ctx, p, outcome) &&
      d.state.store.completed ==
        SaveCompletion(s.store, Checkpoint(p, Checksums(outcome.artifacts, w.workspace(s.calls)))).completed &&
      CalledOnce(s, d.state, p, outcome)
  {
    hide Ready, NextPhase, SaveCompletion;
    NextPhaseIsReady(k.dag, s.ctx.completed + s.ctx.excluded);
    var called := AfterCall(w, s, p);
    RecordSuccessEffect(k, called, p, outcome, w.workspace(s.calls));
    RecordedCheckpoint(k, called, p, outcome, w.workspace(s.calls));
    RecordSuccessLogs(k, called, p, outcome, w.workspace(s.calls));
    hide RecordSuccess;
    assert DispatchPhase(k, w, s, p) ==
      Dispatch(RecordSuccess(k, called, p, outcome, w.workspace(s.calls)), Success, outcome.questions);
    hide DispatchPhase;
    assert DispatchWithRetries(k, w, s, p) == DispatchPhase(k, w, s, p);
  }

  lemma RecordSuccessLogs(k: Config, s: State, p: Phase, outcome: Outcome, files: map<Path, Digest>)
    requires outcome.Succeeded?
    ensures var t := RecordSuccess(k, s, p, outcome, files);
      t.trace == s.trace + [CounterReset(p)] && t.calls == s.calls
  {
    hide SaveCompletion;
  }

  /** A phase completes and asks nothing. */
  lemma StepCompletes(k: Config, w: World, s: State, p: Phase, outcome: Outcome)
    requires AboutTo(k, w, s, p, outcome) && outcome.Succeeded? && outcome.phaseComplete && outcome.checksPass
    requires outcome.questions == []
    ensures var t := Step(k, w, s);
      var gate := GateAfter(s.ctx, p);
      t.ctx == Completing(k, s.ctx, p, outcome).(
        status := if gate.Some? then AwaitingApproval else Running,
        pendingGate := if gate.Some? then gate else s.ctx.pendingGate,
        contractSealed := t.ctx.contractSealed) &&
      t.store.completed ==
        SaveCompletion(s.store, Checkpoint(p, Checksums(outcome.artifacts, w.workspace(s.calls)))).completed &&
      CalledOnce(s, t, p, outcome)
  {
    hide Ready, NextPhase, SaveCompletion, DispatchWithRetries, Completing;
    DispatchCompletes(k, w, s, p, outcome);
    var d := DispatchWithRetries(k, w, s, p);
    assert Step(k, w, s) == AfterDispatch(w, d, p);
    hide Step;
    GateComesAfter(w, d, p);
    hide AfterDispatch;
    CompletingKeeps(k, s.ctx, p, outcome);
  }

  lemma CompletingKeeps(k: Config, ctx: Context, p: Phase, outcome: Outcome)
    requires outcome.Succeeded?
    ensures var t := Completing(k, ctx, p, outcome);
      t.status == ctx.status && t.gates == ctx.gates && t.mode == ctx.mode && t.approved == ctx.approved &&
      t.pendingGate == ctx.pendingGate && GateAfter(t, p) == GateAfter(ctx, p)
  {
    hide ExcludedForTier;
  }

  /** After a success without questions: the seal is looked at, and an unapproved gate pauses the run. */
  lemma GateComesAfter(w: World, d: Dispatch, p: Phase)
    requires d.status == Success && d.questions == []
    ensures var s, t := d.state, AfterDispatch(w, d, p);
      var gate := GateAfter(s.ctx, p);
      t.ctx == s.ctx.(
        status := if gate.Some? then AwaitingApproval else s.ctx.status,
        pendingGate := if gate.Some? then gate else s.ctx.pendingGate,
        contractSealed := t.ctx.contractSealed) &&
      t.store.completed == s.store.completed && t.calls == s.calls && s.trace <= t.trace
  {
    hide SealContract, ClarificationModeOf;
    SealIsLooked(w, d.state);
  }

  lemma SealIsLooked(w: World, s: State)
    ensures var t := SealContract(w, s);
      t.ctx == s.ctx.(contractSealed := t.ctx.contractSealed) && t.store.completed == s.store.completed &&
      t.calls == s.calls && s.trace <= t.trace
  {
  }

  /** Intake completes and asks, in its first round. */
  lemma StepAsks(k: Config, w: World, s: State, outcome: Outcome)
    requires AboutTo(k, w, s, Intake, outcome) && outcome.Succeeded? && outcome.phaseComplete && outcome.checksPass
    requires outcome.questions != [] && s.ctx.mode != Yolo && s.ctx.round == 0
    ensures var t := Step(k, w, s);
      t.ctx == Completing(k, s.ctx, Intake, outcome).(
        status := AwaitingClarification, questions := outcome.questions) &&
      CalledOnce(s, t, Intake, outcome)
  {
    hide Ready, NextPhase, SaveCompletion, DispatchWithRetries;
    DispatchCompletes(k, w, s, Intake, outcome);
  }

  /** A phase without a pending gate reports one more unit. */
  lemma StepRecordsUnit(k: Config, w: World, s: State, p: Phase, outcome: Outcome)
    requires AboutTo(k, w, s, p, outcome) && outcome.Succeeded? && !outcome.phaseComplete && outcome.questions == []
    requires GateAfter(s.ctx, p) == None
    ensures var t := Step(k, w, s);
      t.ctx == Progressing(s.ctx, p, outcome.artifacts).(contractSealed := t.ctx.contractSealed) &&
      t.store.completed == s.store.completed && CalledOnce(s, t, p, outcome)
  {
    hide Ready, NextPhase;
    NextPhaseIsReady(k.dag, s.ctx.completed + s.ctx.excluded);
    var d := Dispatch(RecordUnit(AfterCall(w, s, p), p, outcome.artifacts), Success, []);
    assert DispatchPhase(k, w, s, p) == d;
    hide DispatchPhase;
    assert DispatchWithRetries(k, w, s, p) == d;
    hide DispatchWithRetries;
  }

  lemma RunOne(k: Config, w: World, s: State, ops: seq<Op>, op: Op)
    ensures Run(k, w, s, ops + [op]) == Apply(k, w, Run(k, w, s, ops), op)
    ensures Run(k, w, s, []) == s
  {
    hide Apply;
    assert (ops + [op])[..|ops|] == ops;
  }

  lemma RunTwo(k: Config, w: World, s: State, a: Op, b: Op)
    ensures Run(k, w, s, [a, b]) == Apply(k, w, Apply(k, w, s, a), b)
  {
    hide Apply, Run;
    RunOne(k, w, s, [], a);
    RunOne(k, w, s, [a], b);
    assert [] + [a] == [a] && [a] + [b] == [a, b];
  }

  lemma RunThree(k: Config, w: World, s: State, a: Op, b: Op, c: Op)
    ensures Run(k, w, s, [a, b, c]) == Apply(k, w, Apply(k, w, Apply(k, w, s, a), b), c)
  {
    hide Apply, Run;
    RunTwo(k, w, s, a, b);
    RunOne(k, w, s, [a, b], c);
    assert [a, b] + [c] == [a, b, c];
  }

  lemma RunFour(k: Config, w: World, s: State, a: Op, b: Op, c: Op, d: Op)
    ensures Run(k, w, s, [a, b, c, d]) == Apply(k, w, Apply(k, w, Apply(k, w, Apply(k, w, s, a), b), c), d)
  {
    hide Apply, Run;
    RunThree(k, w, s, a, b, c);
    RunOne(k, w, s, [a, b, c], d);
    assert [a, b, c] + [d] == [a, b, c, d];
  }

  const DONE := Succeeded([], true, [], None, true)

  /** Every phase succeeds at once, asks nothing and assesses no tier. */
  function SmoothWorld(): World {
    World((n, p, mode, done) => DONE, n => map[], n => false)
  }

  ghost predicate IsPlain(k: Config, mode: Mode) {
    k.dag == LinearDag() && k.mode == mode && k.extraGates == [] && k.tierOverride == None
  }

  /** The first step of a plain smooth run. */
  lemma SmoothIntake(k: Config, mode: Mode)
    requires IsPlain(k, mode)
    ensures var first := Step(k, SmoothWorld(), StartRun(k));
      Inv(k, first, None) && first.ctx.status == Running && first.ctx.completed == {Intake} &&
      first.ctx.excluded == {} && first.ctx.approved == {} && first.ctx.gates == GateMapsFor(mode, []) &&
      first.ctx.mode == mode && first.ctx.pendingGate == None && first.ctx.questions == [] &&
      first.store.completed == SaveCompletion(StartRun(k).store, Checkpoint(Intake, Checksums([], map[]))).completed
  {
    hide Step, NextPhase, LinearDag, Inv, Requested, SaveCompletion, CalledOnce;
    var start := StartRun(k);
    NoRequests();
    StartKeeps(k);
    NextInLine(start.ctx, Intake);
    StepCompletes(k, SmoothWorld(), start, Intake, DONE);
    StepKeeps(k, SmoothWorld(), start);
  }

  // ----- a gate is skipped by a late rollback -----

  /** A secure run of the default pipeline pauses at the proposal gate after two steps. Rolling back to QA
      and stepping again dispatches the third phase with no gate ever approved. */
  lemma SkippedGateIsReachable(k: Config)
    requires IsPlain(k, Secure)
    ensures var paused := Run(k, SmoothWorld(), StartRun(k), [DoStep, DoStep]);
      var end := Run(k, SmoothWorld(), StartRun(k), [DoStep, DoStep, DoRollback(Qa), DoStep]);
      paused.ctx.status == AwaitingApproval && paused.ctx.pendingGate == Some(PostGate(Proposal)) &&
      exists i :: 0 <= i < |end.trace| && end.trace[i].Dispatched? && end.trace[i].phase == FactoryInit &&
        Proposal in end.trace[i].at.completed && PostGate(Proposal) !in end.trace[i].at.approved
  {
    hide Step, NextPhase, LinearDag, RollbackOverride, Inv, Run, Requested, SaveCompletion, CalledOnce;
    var w := SmoothWorld();
    var start := StartRun(k);
    var first := Step(k, w, start);
    var paused := Step(k, w, first);
    SmoothIntake(k, Secure);
    SmoothProposal(k, first);
    LateRollbackSkipsGate(k, w, paused);
    RunTwo(k, w, start, DoStep, DoStep);
    RunFour(k, w, start, DoStep, DoStep, DoRollback(Qa), DoStep);
  }

  lemma SmoothProposal(k: Config, first: State)
    requires IsPlain(k, Secure) && Inv(k, first, None) && first.ctx.status == Running
    requires first.ctx.completed == {Intake} && first.ctx.excluded == {} && first.ctx.approved == {}
    requires first.ctx.mode == Secure && first.ctx.pendingGate == None && first.ctx.questions == []
    requires first.ctx.gates == GateMapsFor(Secure, [])
    ensures var paused := Step(k, SmoothWorld(), first);
      Inv(k, paused, None) && InLine(paused.ctx) && paused.ctx.status == AwaitingApproval &&
      paused.ctx.pendingGate == Some(PostGate(Proposal)) && Proposal in paused.ctx.completed &&
      FactoryInit !in paused.ctx.excluded
  {
    hide Step, LinearDag, Inv, SmoothWorld, InLine, Requested, GateMapsFor;
    ProposalPauses(k, first);
    StepKeeps(k, SmoothWorld(), first);
    FirstInLine(first.ctx);
    StepInLine(k, SmoothWorld(), first);
  }

  lemma FirstInLine(ctx: Context)
    requires ctx.completed == {Intake} && ctx.excluded == {} && ctx.pendingGate == None && ctx.questions == []
    ensures InLine(ctx)
  {
  }

  lemma ProposalPauses(k: Config, first: State)
    requires IsPlain(k, Secure) && first.ctx.status == Running && first.ctx.completed == {Intake}
    requires first.ctx.excluded == {} && first.ctx.approved == {} && first.ctx.mode == Secure
    requires first.ctx.gates == GateMapsFor(Secure, [])
    ensures var paused := Step(k, SmoothWorld(), first);
      paused.ctx.status == AwaitingApproval && paused.ctx.pendingGate == Some(PostGate(Proposal)) &&
      Proposal in paused.ctx.completed && FactoryInit !in paused.ctx.excluded
  {
    hide Step, NextPhase, LinearDag, SaveCompletion, CalledOnce, Requested, ExcludedForTier;
    SimpleTierIncludes(FactoryInit);
    NoRequests();
    NextInLine(first.ctx, Proposal);
    StepCompletes(k, SmoothWorld(), first, Proposal, DONE);
  }

  // ----- rolling back twice -----

  /** Intake completes with an artifact and later, like every other phase, only reports units. */
  function UnitsEverywhere(): World {
    World((n, p, mode, done) =>
            if n == 0 then Succeeded(["a"], true, [], None, true) else Succeeded(["b"], false, [], None, true),
          n => map["a" := "1"], n => false)
  }

  lemma PermittedPlain(k: Config, w: World, s: State, ops: seq<Op>)
    requires forall op :: op in ops ==> !op.DoRollback? && !op.DoForceAdvance?
    ensures PermittedRun(k, w, s, ops)
  {
    hide Run;
    forall n | 0 <= n < |ops| ensures Permitted(k, Run(k, w, s, ops[..n]), ops[n]) {
      assert ops[n] in ops;
    }
  }

  /** A single checkpoint that does not validate is the earliest invalid one. */
  lemma OnlyIntakeInvalid(st: RunState, stored: RunState, c: Checkpoint, files: map<Path, Digest>)
    requires Sound(st) && st.completed == [] && stored.completed == SaveCompletion(st, c).completed
    requires !CheckpointValid(c, files)
    ensures EarliestInvalid(stored.completed, files) == Some(c.phase)
  {
    hide SaveCompletion, EarliestInvalid, CheckpointValid;
    SaveCompletionSound(st, c);
    assert c in stored.completed;
    EarliestInvalidIsFirst(stored.completed, files);
  }

  /** Proposal reports a unit; a resume finds intake's artifact changed and rewinds to intake, which keeps
      that progress; then intake reports a unit. Rolling back to intake now clears only intake's progress,
      and rolling back once more clears proposal's. */
  lemma TwoRollbacksDiffer(k: Config)
    requires IsPlain(k, Yolo)
    ensures var w := UnitsEverywhere();
      var s := Run(k, w, StartRun(k), [DoStep, DoStep, DoResumeLive(map[]), DoStep]);
      var once := Rollback(k, s, Intake);
      Reachable(k, w, s) && Rollback(k, once, Intake).(trace := once.trace) != once
  {
    hide Step, NextPhase, LinearDag, Rollback, Inv, Run, RequestedPhase, SaveCompletion, CalledOnce, ResumeLive,
      Reachable, PermittedRun, EarliestInvalid, Affected;
    var w := UnitsEverywhere();
    var start := StartRun(k);
    var first := Step(k, w, start);
    UnitsIntake(k);
    var second := Step(k, w, first);
    UnitOf(k, first, Proposal);
    var third := ResumeLive(k, second, map[]);
    StartIsEmpty(k);
    RewoundToIntake(k, start.store, second);
    ResumeKeeps(k, second, map[]);
    var fourth := Step(k, w, third);
    UnitOf(k, third, Intake);
    RunFour(k, w, start, DoStep, DoStep, DoResumeLive(map[]), DoStep);
    PermittedPlain(k, w, start, [DoStep, DoStep, DoResumeLive(map[]), DoStep]);
    ReachableIff(k, w, fourth);
    TwoHaveProgress(k, fourth);
  }

  lemma StartIsEmpty(k: Config)
    ensures Sound(StartRun(k).store) && StartRun(k).store.completed == []
  {
  }

  lemma UnitsIntake(k: Config)
    requires IsPlain(k, Yolo)
    ensures var first := Step(k, UnitsEverywhere(), StartRun(k));
      Inv(k, first, None) && UnitsNext(first.ctx) && first.calls == 1 && first.ctx.completed == {Intake} &&
      first.store.completed ==
        SaveCompletion(StartRun(k).store, Checkpoint(Intake, Checksums(["a"], map["a" := "1"]))).completed
  {
    hide Step, NextPhase, LinearDag, Inv, SaveCompletion, CalledOnce;
    var start := StartRun(k);
    StartKeeps(k);
    NextInLine(start.ctx, Intake);
    StepCompletes(k, UnitsEverywhere(), start, Intake, Succeeded(["a"], true, [], None, true));
    StepKeeps(k, UnitsEverywhere(), start);
    CalledOnceCalls(start, Step(k, UnitsEverywhere(), start), Intake, Succeeded(["a"], true, [], None, true));
  }

  /** A running yolo run without gates and exclusions. */
  predicate UnitsNext(ctx: Context) {
    ctx.status == Running && ctx.mode == Yolo && ctx.excluded == {} && ctx.gates == GateMaps(map[], map[])
  }

  lemma UnitOf(k: Config, s: State, p: Phase)
    requires IsPlain(k, Yolo) && Inv(k, s, None) && UnitsNext(s.ctx) && s.calls > 0
    requires forall q: Phase :: q in s.ctx.completed <==> q.Index() < p.Index()
    ensures var t := Step(k, UnitsEverywhere(), s);
      Inv(k, t, None) && UnitsNext(t.ctx) && t.calls == s.calls + 1 && t.ctx.completed == s.ctx.completed &&
      t.ctx.progress.Keys == s.ctx.progress.Keys + {p} && t.store.completed == s.store.completed
  {
    hide Step, LinearDag, Inv, CalledOnce, AppendNew, ProgressOf, AboutTo, GateAfter, UnitsEverywhere;
    var unit := Succeeded(["b"], false, [], None, true);
    UnitComesNext(k, s, p, unit);
    StepRecordsUnit(k, UnitsEverywhere(), s, p, unit);
    StepKeeps(k, UnitsEverywhere(), s);
    CalledOnceCalls(s, Step(k, UnitsEverywhere(), s), p, unit);
  }

  lemma UnitComesNext(k: Config, s: State, p: Phase, unit: Outcome)
    requires IsPlain(k, Yolo) && UnitsNext(s.ctx) && s.calls > 0 && unit == Succeeded(["b"], false, [], None, true)
    requires forall q: Phase :: q in s.ctx.completed <==> q.Index() < p.Index()
    ensures AboutTo(k, UnitsEverywhere(), s, p, unit) && GateAfter(s.ctx, p) == None
  {
    hide NextPhase, LinearDag;
    NextInLine(s.ctx, p);
  }

  lemma TwoHaveProgress(k: Config, s: State)
    requires k.dag == LinearDag() && Inv(k, s, None) && Intake in s.ctx.progress && Proposal in s.ctx.progress
    ensures var once := Rollback(k, s, Intake);
      Rollback(k, once, Intake).(trace := once.trace) != once
  {
    hide LinearDag, Rollback, Inv, Affected;
    AffectedInLine(k, Intake);
    assert Intake in Elems(Affected(k, Intake)) && Proposal in Elems(Affected(k, Intake));
    RollbackIsIdempotentIff(k, s, Intake);
  }

  lemma CalledOnceCalls(s: State, t: State, p: Phase, outcome: Outcome)
    requires CalledOnce(s, t, p, outcome)
    ensures t.calls == s.calls + 1
  {
  }

  lemma RewoundToIntake(k: Config, st: RunState, s: State)
    requires k.dag == LinearDag() && Inv(k, s, None) && s.ctx.status == Running && Sound(st) && st.completed == []
    requires s.store.completed == SaveCompletion(st, Checkpoint(Intake, Checksums(["a"], map["a" := "1"]))).completed
    ensures var t := ResumeLive(k, s, map[]);
      t.ctx == s.ctx.(completed := {}) && t.calls == s.calls
  {
    hide LinearDag, SaveCompletion, EarliestInvalid, Affected, Invalidate, Rehydrate;
    var c := Checkpoint(Intake, Checksums(["a"], map["a" := "1"]));
    assert "a" in c.checksums;
    OnlyIntakeInvalid(st, s.store, c, map[]);
    RehydrateRebuilds(k, s);
    AffectedInLine(k, Intake);
    assert s.ctx.completed - Elems(Affected(k, Intake)) == {};
    RunningIsUnpaused(k, s);
  }

  lemma RunningIsUnpaused(k: Config, s: State)
    requires Inv(k, s, None) && s.ctx.status == Running
    ensures ResumedStatus(s.ctx) == Running
  {
  }

  // ----- a changed phase stays completed -----

  /** Two phases that depend on nothing. */
  function TwoRoots(): Graph<Phase> {
    Graph([Intake, Proposal], map[Intake := [], Proposal := []])
  }

  lemma TwoRootsIsValid()
    ensures WellFormed(TwoRoots()) && Closed(TwoRoots()) && forall p, q :: !Reaches(TwoRoots(), p, q)
  {
    forall p, q ensures !Reaches(TwoRoots(), p, q) {
      if Reaches(TwoRoots(), p, q) {
        var d := ReachesUnfold(TwoRoots(), p, q);
        assert false;
      }
    }
  }

  lemma TwoRootsNext()
    ensures NextPhase(TwoRoots(), {}) == Some(Intake) && NextPhase(TwoRoots(), {Intake}) == Some(Proposal)
  {
    assert [Intake, Proposal][1..] == [Proposal] && [Proposal][1..] == [];
  }

  function ArtifactsWorld(): World {
    World((n, p, mode, done) => Succeeded(["a"], true, [], None, true), n => map["a" := "1"], n => false)
  }

  /** Both phases complete and then their artifact disappears: a resume drops intake and leaves proposal
      completed, with a checkpoint that does not validate. */
  lemma ChangedPhaseStaysCompleted(k: Config)
    requires k.dag == TwoRoots() && k.mode == Yolo && k.extraGates == [] && k.tierOverride == None
    ensures var s := Run(k, ArtifactsWorld(), StartRun(k), [DoStep, DoStep]);
      var back := Restart(k, s, map[]);
      ValidConfig(k) && Reachable(k, ArtifactsWorld(), s) && Proposal in back.ctx.completed &&
      exists c :: c in back.store.completed && c.phase == Proposal && !CheckpointValid(c, map[])
  {
    hide Step, TwoRoots, Inv, Run, Restart, Reachable, PermittedRun, ArtifactsWorld, Completing, EarliestInvalid,
      CheckpointValid;
    var w := ArtifactsWorld();
    var start := StartRun(k);
    TwoRootsIsValid();
    StartKeeps(k);
    var s := Step(k, w, Step(k, w, start));
    BothComplete(k, start);
    RunTwo(k, w, start, DoStep, DoStep);
    PermittedPlain(k, w, start, [DoStep, DoStep]);
    ReachableIff(k, w, s);
    RewindIsExact(k, s, map[], false, Proposal);
  }

  /** Both phases complete with an artifact, and both checkpoints are invalid in an empty workspace. */
  lemma BothComplete(k: Config, start: State)
    requires k.dag == TwoRoots() && k.mode == Yolo && k.extraGates == [] && k.tierOverride == None
    requires start == StartRun(k)
    ensures var s := Step(k, ArtifactsWorld(), Step(k, ArtifactsWorld(), start));
      Inv(k, s, None) && Proposal in s.ctx.completed && EarliestInvalid(s.store.completed, map[]) == Some(Intake) &&
      exists c :: c in s.store.completed && c.phase == Proposal && !CheckpointValid(c, map[])
  {
    hide Step, NextPhase, TwoRoots, Inv, RequestedPhase, SaveCompletion, CalledOnce, EarliestInvalid, CheckpointValid;
    var w := ArtifactsWorld();
    var whole := Succeeded(["a"], true, [], None, true);
    TwoRootsIsValid();
    TwoRootsNext();
    StartKeeps(k);
    var first := Step(k, w, start);
    assert start.ctx.completed + start.ctx.excluded == {};
    StepCompletes(k, w, start, Intake, whole);
    StepKeeps(k, w, start);
    CalledOnceCalls(start, first, Intake, whole);
    var s := Step(k, w, first);
    assert first.ctx.completed + first.ctx.excluded == {Intake};
    StepCompletes(k, w, first, Proposal, whole);
    StepKeeps(k, w, first);
    InvIsSound(k, first);
    BothInvalid(start.store, first.store, s.store);
  }

  lemma BothInvalid(start: RunState, first: RunState, second: RunState)
    requires Sound(start) && start.completed == [] && Sound(first)
    requires first.completed == SaveCompletion(start, Checkpoint(Intake, Checksums(["a"], map["a" := "1"]))).completed
    requires second.completed ==
      SaveCompletion(first, Checkpoint(Proposal, Checksums(["a"], map["a" := "1"]))).completed
    ensures EarliestInvalid(second.completed, map[]) == Some(Intake)
    ensures exists c :: c in second.completed && c.phase == Proposal && !CheckpointValid(c, map[])
  {
    hide SaveCompletion, EarliestInvalid;
    var checksums := Checksums(["a"], map["a" := "1"]);
    assert "a" in checksums;
    var c, d := Checkpoint(Intake, checksums), Checkpoint(Proposal, checksums);
    SaveCompletionSound(start, c);
    SaveCompletionSound(first, d);
    assert c in second.completed && d in second.completed && !CheckpointValid(c, map[]) && !CheckpointValid(d, map[]);
    EarliestInvalidIsFirst(second.completed, map[]);
  }

  // ----- the announced phase is not the one that runs -----

  function Steps(n: nat): seq<Op> {
    if n == 0 then [] else Steps(n - 1) + [DoStep]
  }

  lemma SimpleTierIncludes(p: Phase)
    ensures p.Index() < 8 ==> p !in ExcludedForTier(Some(Simple))
    ensures ExcludedForTier(None) == {}
  {
  }

  /** After n steps of a simple-tier run its first n phases are completed. */
  lemma {:induction false} SimpleTierRun(k: Config, n: nat)
    requires k.dag == LinearDag() && k.mode == Yolo && k.tierOverride == Some(Simple) && n <= 8
    ensures var s := Run(k, SmoothWorld(), StartRun(k), Steps(n));
      s.ctx.status == Running && s.ctx.gates == GateMaps(map[], map[]) && s.ctx.mode == Yolo &&
      s.ctx.excluded == (if n >= 2 then ExcludedForTier(Some(Simple)) else {}) &&
      (forall q: Phase :: q in s.ctx.completed <==> q.Index() < n) &&
      forall op :: op in Steps(n) ==> op == DoStep
    decreases n
  {
    hide Step, NextPhase, LinearDag, Run, Requested, SaveCompletion, CalledOnce, ExcludedForTier;
    RunOne(k, SmoothWorld(), StartRun(k), [], DoStep);
    if n > 0 {
      SimpleTierRun(k, n - 1);
      RunOne(k, SmoothWorld(), StartRun(k), Steps(n - 1), DoStep);
      SimpleTierStep(k, Run(k, SmoothWorld(), StartRun(k), Steps(n - 1)), n);
    }
  }

  lemma SimpleTierStep(k: Config, s: State, n: nat)
    requires k.dag == LinearDag() && k.tierOverride == Some(Simple) && 1 <= n <= 8
    requires s.ctx.status == Running && s.ctx.gates == GateMaps(map[], map[]) && s.ctx.mode == Yolo
    requires s.ctx.excluded == (if n >= 3 then ExcludedForTier(Some(Simple)) else {})
    requires forall q: Phase :: q in s.ctx.completed <==> q.Index() < n - 1
    ensures var t := Step(k, SmoothWorld(), s);
      t.ctx.status == Running && t.ctx.gates == s.ctx.gates && t.ctx.mode == Yolo &&
      t.ctx.excluded == (if n >= 2 then ExcludedForTier(Some(Simple)) else {}) &&
      forall q: Phase :: q in t.ctx.completed <==> q.Index() < n
  {
    hide Step, NextPhase, LinearDag, SaveCompletion, CalledOnce, ExcludedForTier;
    PhaseIdsAreIndexed();
    var p := PHASE_IDS[n - 1];
    TierExclusionsTrail(Some(Simple));
    SimpleTierIncludes(p);
    NextInLine(s.ctx, p);
    StepCompletes(k, SmoothWorld(), s, p, DONE);
    forall q: Phase ensures q in s.ctx.completed + {p} <==> q.Index() < n {
      IndexIsInjective(q, p);
    }
  }

  /** A simple-tier run completes everything through implementation: a resume announces QA, which the tier
      excludes, and the next step finds nothing left to do. */
  lemma AnnouncedPhaseNeverRuns(k: Config)
    requires k.dag == LinearDag() && k.mode == Yolo && k.tierOverride == Some(Simple)
    ensures var s := Run(k, SmoothWorld(), StartRun(k), Steps(8));
      Reachable(k, SmoothWorld(), s) && NextPhase(k.dag, s.ctx.completed) == Some(Qa) &&
      NextPhase(k.dag, s.ctx.completed + s.ctx.excluded) == None && Step(k, SmoothWorld(), s).ctx.status == Finished
  {
    hide NextPhase, LinearDag, Run, Step, Reachable, PermittedRun, Steps, SmoothWorld;
    SimpleTierRun(k, 8);
    var s := Run(k, SmoothWorld(), StartRun(k), Steps(8));
    PermittedPlain(k, SmoothWorld(), StartRun(k), Steps(8));
    ReachableIff(k, SmoothWorld(), s);
    OnlyQaIsLeft(k, SmoothWorld(), s);
  }

  lemma OnlyQaIsLeft(k: Config, w: World, s: State)
    requires k.dag == LinearDag() && s.ctx.status == Running && s.ctx.excluded == ExcludedForTier(Some(Simple))
    requires forall q: Phase :: q in s.ctx.completed <==> q.Index() < 8
    ensures NextPhase(k.dag, s.ctx.completed) == Some(Qa) && NextPhase(k.dag, s.ctx.completed + s.ctx.excluded) == None
    ensures Step(k, w, s).ctx.status == Finished
  {
    hide NextPhase, LinearDag, Step, ExcludedForTier;
    var all := s.ctx.(excluded := {});
    assert s.ctx.completed + all.excluded == s.ctx.completed;
    NextInLine(all, Qa);
    LinearDagIsValid();
    forall p: Phase ensures p in s.ctx.completed + s.ctx.excluded {
      SimpleTierExcludes(p);
    }
    NoDeadlock(k.dag, s.ctx.completed + s.ctx.excluded);
    FinishedMeansDone(k, w, s);
  }

  lemma SimpleTierExcludes(p: Phase)
    ensures p.Index() >= 8 ==> p in ExcludedForTier(Some(Simple))
  {
  }

  // ----- one failure more -----

  function FailingWorld(): World {
    World((n, p, mode, done) => Failed, n => map[], n => false)
  }

  lemma {:induction false} FailsForever(k: Config, s: State, p: Phase)
    requires p in Ready(k.dag, s.ctx.completed + s.ctx.excluded)
    ensures var d := DispatchWithRetries(k, FailingWorld(), s, p);
      var before := Retries.Attempts(s.attempts, p);
      d.status == EscalatedDispatch && d.state.ctx == s.ctx.(status := Escalated) &&
      Retries.Attempts(d.state.attempts, p) == if before <= k.maxRetries then k.maxRetries + 1 else before + 1
    decreases Budget(k, s, p)
  {
    hide Ready;
    FailureSpendsBudget(k, FailingWorld(), s, p);
    var d := DispatchPhase(k, FailingWorld(), s, p);
    if d.status == Failure {
      FailsForever(k, BackOff(k, d.state, p), p);
    }
  }

  lemma StepFailsForever(k: Config, s: State, p: Phase)
    requires s.ctx.status == Running && p !in s.ctx.gates.pre
    requires NextPhase(k.dag, s.ctx.completed + s.ctx.excluded) == Some(p)
    ensures var t := Step(k, FailingWorld(), s);
      var before := Retries.Attempts(s.attempts, p);
      t.ctx == s.ctx.(status := Escalated) &&
      Retries.Attempts(t.attempts, p) == if before <= k.maxRetries then k.maxRetries + 1 else before + 1
  {
    hide Ready, NextPhase, DispatchWithRetries;
    NextPhaseIsReady(k.dag, s.ctx.completed + s.ctx.excluded);
    FailsForever(k, s, p);
  }

  /** Intake fails until it escalates; a rollback to QA, permitted because nothing is pending, leaves its
      counter alone, and the next step records one failure more than the budget allows. */
  lemma RollbackBuysAFailure(k: Config)
    requires k.dag == LinearDag()
    ensures var s := Run(k, FailingWorld(), StartRun(k), [DoStep, DoRollback(Qa), DoStep]);
      Reachable(k, FailingWorld(), s) && RetrySafety.TallyOf(s.trace, Intake).failures == k.maxRetries + 2
  {
    hide Step, NextPhase, LinearDag, RollbackOverride, Inv, Run, Reachable, Affected, RequestedPhase,
      RetrySafety.TallyOf;
    var w := FailingWorld();
    var start := StartRun(k);
    IntakeHasNoPreGate(k);
    NextInLine(start.ctx, Intake);
    StepFailsForever(k, start, Intake);
    var first := Step(k, w, start);
    var second := RollbackOverride(k, first, Qa);
    EscalatedRolledBack(k, first);
    NextInLine(second.ctx, Intake);
    StepFailsForever(k, second, Intake);
    var third := Step(k, w, second);
    RunThree(k, w, start, DoStep, DoRollback(Qa), DoStep);
    var ops := [DoStep, DoRollback(Qa), DoStep];
    RunOne(k, w, start, [], DoStep);
    assert [] + [DoStep] == [DoStep];
    forall n | 0 <= n < |ops| ensures Permitted(k, Run(k, w, start, ops[..n]), ops[n]) {
      assert ops[..1] == [DoStep];
    }
    ReachableIff(k, w, third);
    RetrySafety.RunRetry(k, w, ops, Intake);
  }

  lemma IntakeHasNoPreGate(k: Config)
    ensures Intake !in StartRun(k).ctx.gates.pre
  {
  }

  lemma EscalatedRolledBack(k: Config, s: State)
    requires k.dag == LinearDag() && s.ctx.completed == {}
    ensures var t := RollbackOverride(k, s, Qa);
      t.ctx.status == Running && t.ctx.completed == {} && t.ctx.excluded == s.ctx.excluded &&
      t.ctx.gates == s.ctx.gates &&
      Retries.Attempts(t.attempts, Intake) == Retries.Attempts(s.attempts, Intake)
  {
    hide LinearDag, Affected, Invalidate;
    AffectedInLine(k, Qa);
    RollbackFrame(k, s, Qa);
  }

  // ----- a phase runs on an unsealed contract -----

  /** Intake asks one question; the file always carries a contract. */
  function AskingWorld(): World {
    World((n, p, mode, done) => if n == 0 then Succeeded([], true, ["?"], None, true) else DONE, n => map[], n => true)
  }

  /** Intake waits for an answer. Force-advancing or rolling back to QA and stepping dispatches proposal on top
      of the completed intake, with the contract unsealed. */
  lemma UnsealedDispatchIsReachable(k: Config, op: Op)
    requires IsPlain(k, Gated) && op in {DoForceAdvance, DoRollback(Qa)}
    ensures var end := Run(k, AskingWorld(), StartRun(k), [DoStep, op, DoStep]);
      exists i :: 0 <= i < |end.trace| && end.trace[i].Dispatched? && end.trace[i].phase == Proposal &&
        Intake in end.trace[i].at.completed && !end.trace[i].at.contractSealed
  {
    hide Step, NextPhase, LinearDag, RollbackOverride, Inv, Run, Requested, Affected, CalledOnce;
    var w := AskingWorld();
    var start := StartRun(k);
    NoRequests();
    NextInLine(start.ctx, Intake);
    StepAsks(k, w, start, Succeeded([], true, ["?"], None, true));
    var first := Step(k, w, start);
    UnsealedSecondStep(k, first, op);
    RunThree(k, w, start, DoStep, op, DoStep);
  }

  lemma UnsealedSecondStep(k: Config, s: State, op: Op)
    requires k.dag == LinearDag() && op in {DoForceAdvance, DoRollback(Qa)}
    requires s.ctx.completed == {Intake} && s.ctx.excluded == {} && s.ctx.pendingGate == None && !s.ctx.contractSealed
    requires Proposal !in s.ctx.gates.pre
    ensures var t := Apply(k, AskingWorld(), s, op);
      var end := Step(k, AskingWorld(), t);
      |end.trace| > |t.trace| && end.trace[|t.trace|].Dispatched? && end.trace[|t.trace|].phase == Proposal &&
      Intake in end.trace[|t.trace|].at.completed && !end.trace[|t.trace|].at.contractSealed
  {
    hide Step, NextPhase, LinearDag, RollbackOverride;
    var t := Apply(k, AskingWorld(), s, op);
    AskingRolledBack(k, s);
    NextInLine(t.ctx, Proposal);
    FirstDispatchIsLogged(k, AskingWorld(), t, Proposal);
  }

  lemma AskingRolledBack(k: Config, s: State)
    requires k.dag == LinearDag() && s.ctx.completed == {Intake}
    ensures var t := RollbackOverride(k, s, Qa).ctx;
      t.status == Running && t.completed == {Intake} && t.excluded == s.ctx.excluded && t.gates == s.ctx.gates &&
      t.contractSealed == s.ctx.contractSealed
  {
    hide LinearDag, Affected, Invalidate;
    AffectedInLine(k, Qa);
  }
}
