/** Crashes in the other operations, and whole runs with crashes in them. */
module Lives {
  import opened Options
  import opened PhaseDag
  import opened Phases
  import opened Checkpoints
  import opened Supervisor
  import opened GateSafety
  import opened LinearPipeline
  import opened Rollbacks
  import opened Witnesses
  import opened Crashes

  // ----- crashes in the other operations -----

  /** A crash in a rollback override keeps the invariant; only the whole override needs to reach the pause. */
  lemma CrashInRollbackKeeps(k: Config, s: State, target: Phase, n: nat, files: map<Path, Digest>)
    requires Inv(k, s, None) && (n >= ROLLBACK_WRITES ==> RollbackCovers(k, s.ctx, target))
    ensures Inv(k, Restart(k, CrashedInRollback(k, s, target, n), files), None)
  {
    hide Restart, SafeDispatch, Affected, RollbackOverride;
    var crashed := CrashedInRollback(k, s, target, n);
    var t := RollbackOverride(k, s, target);
    SyncedRestarts(k, crashed, files);
    if n >= ROLLBACK_WRITES {
      RollbackOverrideKeeps(k, s, target);
      StoreDecides(k, t, crashed, files);
    } else {
      RollbackStore(k, s, target);
      InvalidateFacts(s.store, Affected(k, target));
      var synced := Synced(crashed);
      assert synced.ctx.completed <= s.ctx.completed;
      assert Inv(k, synced, None);
      ResumeKeeps(k, synced, files);
    }
  }

  lemma RollbackStore(k: Config, s: State, target: Phase)
    ensures var after := RollbackOverride(k, s, target).store;
      after.completed == Invalidate(s.store, Affected(k, target)).completed &&
      after.stale == Invalidate(s.store, Affected(k, target)).stale
  {
    hide Affected, Invalidate;
  }

  /** A crash in a clarification keeps the invariant: the questions are asked again. */
  lemma CrashInClarificationKeeps(k: Config, s: State, files: map<Path, Digest>)
    requires Inv(k, s, None)
    ensures Inv(k, Restart(k, CrashedInClarification(s), files), None)
  {
    hide Restart, SafeDispatch, Invalidate;
    var crashed := CrashedInClarification(s);
    InvalidateFacts(s.store, [Intake]);
    InvalidateOnlyLists(s.store, [Intake]);
    SyncedRestarts(k, crashed, files);
    assert Inv(k, Synced(crashed), None);
    ResumeKeeps(k, Synced(crashed), files);
  }

  /** A run whose start was interrupted before its gates were saved keeps the invariant over a restart exactly
      when it was to have no gates: a secure run then runs without any. */
  lemma CrashInStartKeepsInvIff(k: Config, files: map<Path, Digest>)
    ensures var back := Restart(k, CrashedInStart(k), files);
      back.ctx == FreshContext(k.mode) &&
      (Inv(k, back, None) <==> GateMapsFor(k.mode, k.extraGates) == GateMaps(map[], map[]))
  {
    NothingToRewind(files);
  }

  lemma NothingToRewind(files: map<Path, Digest>)
    ensures EarliestInvalid([], files) == None
  {
  }

  /** And the questions are pending again: answers whose file had been written are given, and written, twice. */
  lemma CrashInClarificationAsksAgain(k: Config, s: State, writes: nat, files: map<Path, Digest>)
    requires Inv(k, s, None) && AcceptsClarification(s.ctx) && writes <= 1
    ensures var crashed := if writes == 0 then s else CrashedInClarification(s);
      var back := Restart(k, crashed, files);
      AcceptsClarification(back.ctx) && back.ctx.questions == s.ctx.questions
  {
    hide Invalidate, EarliestInvalid, Affected;
    InvalidateOnlyLists(s.store, [Intake]);
  }

  // ----- runs with crashes -----

  datatype Happening =
    | Does(op: Op)
    | DiesInStep(at: CrashPoint, files: map<Path, Digest>)
    | DiesInRollback(target: Phase, writes: nat, files: map<Path, Digest>)
    | DiesInClarification(files: map<Path, Digest>)

  ghost function Happens(k: Config, w: World, s: State, h: Happening): State {
    match h
    case Does(op) => Apply(k, w, s, op)
    case DiesInStep(at, files) => Restart(k, CrashedInStep(k, w, s, at), files)
    case DiesInRollback(target, n, files) => Restart(k, CrashedInRollback(k, s, target, n), files)
    case DiesInClarification(files) => Restart(k, CrashedInClarification(s), files)
  }

  /** The user's condition, and for a crash in a step that it loses no gate. */
  ghost predicate Harmless(k: Config, w: World, s: State, h: Happening) {
    match h
    case Does(op) => Permitted(k, s, op)
    case DiesInStep(at, files) => s.ctx.status == Running && forall p :: !GateLost(k, w, s, at, files, p)
    case DiesInRollback(target, n, files) => n >= ROLLBACK_WRITES ==> RollbackCovers(k, s.ctx, target)
    case DiesInClarification(files) => true
  }

  ghost function Life(k: Config, w: World, hs: seq<Happening>): State {
    if hs == [] then StartRun(k) else Happens(k, w, Life(k, w, hs[..|hs| - 1]), hs[|hs| - 1])
  }

  ghost predicate HarmlessLife(k: Config, w: World, hs: seq<Happening>) {
    hs != [] ==> HarmlessLife(k, w, hs[..|hs| - 1]) && Harmless(k, w, Life(k, w, hs[..|hs| - 1]), hs[|hs| - 1])
  }

  lemma {:induction false} LifeKeeps(k: Config, w: World, hs: seq<Happening>)
    requires ValidConfig(k) && HarmlessLife(k, w, hs)
    ensures Inv(k, Life(k, w, hs), None)
    decreases |hs|
  {
    hide Inv, Apply, Restart, ValidConfig, CrashedInStep, CrashedInRollback, CrashedInClarification, Permitted,
      GateLost;
    if hs == [] {
      StartKeeps(k);
    } else {
      var s := Life(k, w, hs[..|hs| - 1]);
      LifeKeeps(k, w, hs[..|hs| - 1]);
      match hs[|hs| - 1]
      case Does(op) => ApplyKeeps(k, w, s, op);
      case DiesInStep(at, files) => CrashInStepKeepsInvIff(k, w, s, at, files);
      case DiesInRollback(target, n, files) => CrashInRollbackKeeps(k, s, target, n, files);
      case DiesInClarification(files) => CrashInClarificationKeeps(k, s, files);
    }
  }

  /** Gate safety over every life of a secure run, with any number of harmless crashes in it. */
  lemma SecureGatesSurviveCrashes(k: Config, w: World, hs: seq<Happening>, i: nat)
    requires ValidConfig(k) && k.mode == Secure && HarmlessLife(k, w, hs)
    requires i < |Life(k, w, hs).trace| && Life(k, w, hs).trace[i].Dispatched?
    ensures var entry := Life(k, w, hs).trace[i];
      (forall p :: p in {Proposal, Architecture, Blueprint} && p in entry.at.completed ==>
        PostGate(p) in entry.at.approved) &&
      (entry.phase == Deployment ==> PreDeployment in entry.at.approved)
  {
    hide Life, HarmlessLife;
    LifeKeeps(k, w, hs);
    DispatchesAreGuarded(k, Life(k, w, hs), i);
  }

  // ----- a gate lost in a crash -----

  /** A secure run dies in its second step right after the proposal's completion was saved. It comes back
      running, and its next step dispatches the third phase with the proposal unapproved. */
  lemma CrashSkipsGate(k: Config)
    requires IsPlain(k, Secure)
    ensures var s := Run(k, SmoothWorld(), StartRun(k), [DoStep]);
      var back := Restart(k, CrashedInStep(k, SmoothWorld(), s, CrashPoint(1, 3, 2)), map[]);
      var end := Step(k, SmoothWorld(), back);
      back.ctx.status == Running && back.ctx.pendingGate == None &&
      exists i :: 0 <= i < |end.trace| && end.trace[i].Dispatched? && end.trace[i].phase == FactoryInit &&
        Proposal in end.trace[i].at.completed && PostGate(Proposal) !in end.trace[i].at.approved
  {
    hide Step, NextPhase, LinearDag, Inv, Run, Requested, SaveCompletion, CalledOnce, Restart, EarliestInvalid,
      CrashedInStep, Sound;
    var w := SmoothWorld();
    var start := StartRun(k);
    StartIsSound(k);
    var first := Step(k, w, start);
    SmoothIntake(k, Secure);
    RunOne(k, w, start, [], DoStep);
    assert [] + [DoStep] == [DoStep];
    SmoothProposalStored(k, first);
    CrashedAfterProposal(k, start.store, first);
    var back := Restart(k, CrashedInStep(k, w, first, CrashPoint(1, 3, 2)), map[]);
    NextInLine(back.ctx, FactoryInit);
    FirstDispatchIsLogged(k, w, back, FactoryInit);
  }

  lemma SmoothProposalStored(k: Config, s: State)
    requires IsPlain(k, Secure) && s.ctx.status == Running && s.ctx.completed == {Intake} && s.ctx.excluded == {}
    requires s.ctx.gates == GateMapsFor(Secure, [])
    ensures Step(k, SmoothWorld(), s).store.completed ==
      SaveCompletion(s.store, Checkpoint(Proposal, Checksums([], map[]))).completed
  {
    hide Step, NextPhase, LinearDag, Requested, SaveCompletion, CalledOnce;
    NextInLine(s.ctx, Proposal);
    StepCompletes(k, SmoothWorld(), s, Proposal, DONE);
  }

  lemma CrashedAfterProposal(k: Config, start: RunState, s: State)
    requires k.dag == LinearDag() && Inv(k, s, None) && s.ctx.status == Running
    requires Sound(start) && start.completed == []
    requires s.store.completed == SaveCompletion(start, Checkpoint(Intake, Checksums([], map[]))).completed
    requires Step(k, SmoothWorld(), s).store.completed ==
      SaveCompletion(s.store, Checkpoint(Proposal, Checksums([], map[]))).completed
    ensures var back := Restart(k, CrashedInStep(k, SmoothWorld(), s, CrashPoint(1, 3, 2)), map[]);
      back.ctx == s.ctx.(completed := {Intake, Proposal})
  {
    hide Step, Restart, SaveCompletion, EarliestInvalid, SafeTrace, GatesHeld, CrashedInStep, LinearDag;
    var at := CrashPoint(1, 3, 2);
    var crashed := CrashedInStep(k, SmoothWorld(), s, at);
    LinearDagIsValid();
    CrashedStore(k, SmoothWorld(), s, at);
    CrashedContext(k, SmoothWorld(), s, at, map[]);
    StepKeeps(k, SmoothWorld(), s);
    NothingChecked(start, s.store, crashed.store);
  }

  /** Two completions without artifacts, and no checkpoint has anything to check. */
  lemma NothingChecked(start: RunState, first: RunState, second: RunState)
    requires Sound(start) && start.completed == [] && Sound(first)
    requires first.completed == SaveCompletion(start, Checkpoint(Intake, Checksums([], map[]))).completed
    requires second.completed == SaveCompletion(first, Checkpoint(Proposal, Checksums([], map[]))).completed
    ensures Sound(second) ==> EarliestInvalid(second.completed, map[]) == None
    ensures Ids(second.completed) == {Intake, Proposal}
  {
    hide SaveCompletion, EarliestInvalid, Sound;
    SaveCompletionSound(start, Checkpoint(Intake, Checksums([], map[])));
    SaveCompletionSound(first, Checkpoint(Proposal, Checksums([], map[])));
    SoundIsSorted(second);
    if Sound(second) {
      EarliestInvalidIsFirst(second.completed, map[]);
    }
  }

  lemma SoundIsSorted(st: RunState)
    ensures Sound(st) ==> StrictlySorted(st.completed)
  {
  }

  lemma StartIsSound(k: Config)
    ensures Sound(StartRun(k).store) && StartRun(k).store.completed == []
  {
  }
}
