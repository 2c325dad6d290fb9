/** The bounded clarification cycle and the contract seal over whole runs. */
module IntakeSafety {
  import opened Options
  import opened Sequences
  import opened PhaseDag
  import opened Phases
  import opened Checkpoints
  import opened Supervisor
  import opened GateSafety

  /** The domain-knowledge file carries a non-empty contract block whenever it is looked at. */
  ghost predicate AlwaysMarkered(w: World) {
    forall n :: w.contractPresent(n)
  }

  /** At most one clarification is received, none is asked after it, and a yolo run asks none. */
  ghost predicate ClarifiedOnce(s: State) {
    (s.ctx.round == 0 ==> forall i :: 0 <= i < |s.trace| ==> s.trace[i] != ClarificationReceived) &&
    (s.ctx.mode == Yolo ==> forall i :: 0 <= i < |s.trace| ==> s.trace[i] != ClarificationAsked) &&
    forall i, j :: 0 <= i < j < |s.trace| && s.trace[i] == ClarificationReceived ==>
      s.trace[j] != ClarificationReceived && s.trace[j] != ClarificationAsked
  }

  /** Once intake is complete and answered, the contract is sealed; so it was at every dispatch
      that found intake complete. Phase `open` has just been dispatched. */
  ghost predicate SealedAfterIntake(s: State, open: Option<Phase>) {
    (Intake in s.ctx.completed && s.ctx.questions == [] && open != Some(Intake) ==> s.ctx.contractSealed) &&
    forall i :: 0 <= i < |s.trace| && s.trace[i].Dispatched? && Intake in s.trace[i].at.completed ==>
      s.trace[i].at.contractSealed
  }

  ghost predicate IntakeInv(s: State, open: Option<Phase>, m: bool) {
    ClarifiedOnce(s) && (m ==> SealedAfterIntake(s, open))
  }

  lemma LogKeepsIntake(s: State, a: Action, open: Option<Phase>, m: bool)
    requires IntakeInv(s, open, m)
    requires a.FailureRecorded? || a.Slept? || a.CounterReset? || a.SealChecked? ||
             a.Overridden? || a.Restarted? ||
             (a.Dispatched? && (m && Intake in a.at.completed ==> a.at.contractSealed))
    ensures IntakeInv(Log(s, a), open, m)
  {
  }

  lemma DispatchPhaseIntake(k: Config, w: World, s: State, p: Phase, m: bool)
    requires Inv(k, s, None) && IntakeInv(s, None, m) && MayDispatch(k, s, p)
    ensures var d := DispatchPhase(k, w, s, p);
      IntakeInv(d.state, if d.status == Success then Some(p) else None, m)
  {
    hide Ready, IsReady, SaveCompletion, HandleFailure, RecordUnit, RecordSuccess;
    var outcome := w.execute(s.calls, p, ClarificationModeOf(s.ctx), CompletedArtifacts(s.ctx, p));
    LogKeepsIntake(s, Dispatched(p, s.ctx, outcome), None, m);
    var s1 := AfterCall(w, s, p);
    assert IntakeInv(s1, None, m);
    if outcome.Succeeded? && !outcome.phaseComplete {
      RecordUnitIntake(s1, p, outcome.artifacts, m);
    } else if outcome.Succeeded? && outcome.checksPass {
      RecordSuccessIntake(k, s1, p, outcome, w.workspace(s.calls), m);
    } else {
      HandleFailureIntake(k, s1, p, m);
    }
  }

  lemma HandleFailureIntake(k: Config, s: State, p: Phase, m: bool)
    requires IntakeInv(s, None, m)
    ensures IntakeInv(HandleFailure(k, s, p).state, None, m)
  {
    LogKeepsIntake(s, FailureRecorded(p), None, m);
  }

  lemma RecordUnitIntake(s: State, p: Phase, artifacts: seq<Path>, m: bool)
    requires IntakeInv(s, None, m)
    ensures IntakeInv(RecordUnit(s, p, artifacts), Some(p), m)
  {
  }

  lemma RecordSuccessIntake(k: Config, s: State, p: Phase, outcome: Outcome, files: map<Path, Digest>, m: bool)
    requires IntakeInv(s, None, m) && outcome.Succeeded?
    ensures IntakeInv(RecordSuccess(k, s, p, outcome, files), Some(p), m)
  {
    hide SaveCompletion;
    var s1 := CompletePhase(s, p, Checksums(outcome.artifacts, files));
    LogKeepsIntake(s, CounterReset(p), None, m);
    assert s1.trace == Log(s, CounterReset(p)).trace;
    assert IntakeInv(s1, Some(p), m);
    ClearProgressIntake(s1, p, Some(p), m);
    var s2 := ClearProgress(s1, p);
    assert AssessTier(k, s2, p, outcome.tier).trace == s2.trace;
  }

  lemma ClearProgressIntake(s: State, p: Phase, open: Option<Phase>, m: bool)
    requires IntakeInv(s, open, m)
    ensures IntakeInv(ClearProgress(s, p), open, m)
  {
  }

  lemma {:induction false} DispatchWithRetriesIntake(k: Config, w: World, s: State, p: Phase, m: bool)
    requires Inv(k, s, None) && IntakeInv(s, None, m) && MayDispatch(k, s, p)
    ensures var d := DispatchWithRetries(k, w, s, p);
      IntakeInv(d.state, if d.status == Success then Some(p) else None, m)
    decreases Budget(k, s, p)
  {
    hide Inv, DispatchPhase, IntakeInv;
    FailureSpendsBudget(k, w, s, p);
    DispatchPhaseKeeps(k, w, s, p);
    DispatchPhaseIntake(k, w, s, p, m);
    var d := DispatchPhase(k, w, s, p);
    if d.status == Failure {
      BackOffKeeps(k, d.state, p);
      LogKeepsIntake(d.state, BackOff(k, d.state, p).trace[|d.state.trace|], None, m);
      DispatchWithRetriesIntake(k, w, BackOff(k, d.state, p), p, m);
    }
  }

  lemma AfterDispatchIntake(k: Config, w: World, d: Dispatch, p: Phase, m: bool)
    requires m ==> AlwaysMarkered(w)
    requires d.status == Success
    requires Inv(k, d.state, Some(p)) && d.state.ctx.status == Running && IntakeInv(d.state, Some(p), m)
    ensures IntakeInv(AfterDispatch(w, d, p), None, m)
  {
    var s := d.state;
    if p == Intake && d.questions != [] && ClarificationModeOf(s.ctx) == Questions {
      AskIntake(s, d.questions, m);
    } else if p == Intake {
      SealIntake(w, s, m);
      PostGateCheckIntake(SealContract(w, s), p, m);
    } else {
      assert IntakeInv(s, None, m);
      PostGateCheckIntake(s, p, m);
    }
  }

  lemma PostGateCheckIntake(s: State, p: Phase, m: bool)
    requires IntakeInv(s, None, m)
    ensures IntakeInv(PostGateCheck(s, p), None, m)
  {
  }

  lemma AskIntake(s: State, questions: seq<string>, m: bool)
    requires questions != [] && s.ctx.round == 0 && s.ctx.mode != Yolo && IntakeInv(s, Some(Intake), m)
    ensures IntakeInv(PauseForClarification(s, questions), None, m)
  {
  }

  lemma SealIntake(w: World, s: State, m: bool)
    requires m ==> AlwaysMarkered(w)
    requires IntakeInv(s, Some(Intake), m)
    ensures IntakeInv(SealContract(w, s), None, m)
  {
    if !s.ctx.contractSealed {
      LogKeepsIntake(s, SealChecked(w.contractPresent(s.calls)), Some(Intake), m);
    }
  }

  lemma StepIntake(k: Config, w: World, s: State, m: bool)
    requires m ==> AlwaysMarkered(w)
    requires Inv(k, s, None) && IntakeInv(s, None, m)
    ensures IntakeInv(Step(k, w, s), None, m)
  {
    hide DispatchWithRetries;
    if s.ctx.status == Running {
      var next := NextPhase(k.dag, s.ctx.completed + s.ctx.excluded);
      if next.Some? && (next.value in s.ctx.gates.pre ==> GateSatisfied(s.ctx, s.ctx.gates.pre[next.value])) {
        var p := next.value;
        SelectedMayDispatch(k, s, p);
        DispatchWithRetriesKeeps(k, w, s, p);
        DispatchWithRetriesIntake(k, w, s, p, m);
        var d := DispatchWithRetries(k, w, s, p);
        if d.status == Success {
          AfterDispatchIntake(k, w, d, p, m);
        }
      }
    }
  }

  lemma ClarificationIntake(k: Config, s: State, m: bool)
    requires Inv(k, s, None) && IntakeInv(s, None, m)
    ensures IntakeInv(SubmitClarification(s), None, m)
  {
    hide Invalidate, ResetActions;
    if AcceptsClarification(s.ctx) {
      ResetsKeepIntake(s, [Intake], None, m);
      assert Elems([Intake]) == {Intake};
      var s1 := MarkIncomplete(s, [Intake]);
      assert IntakeInv(s1, None, m) && !(Intake in s1.ctx.completed);
    }
  }

  lemma {:induction false} ResetsKeepIntake(s: State, phases: seq<Phase>, open: Option<Phase>, m: bool)
    requires IntakeInv(s, open, m)
    ensures IntakeInv(s.(trace := s.trace + ResetActions(phases)), open, m)
  {
    if phases == [] {
      assert s.trace + [] == s.trace;
    } else {
      var front, last := phases[..|phases| - 1], phases[|phases| - 1];
      ResetsKeepIntake(s, front, open, m);
      LogKeepsIntake(s.(trace := s.trace + ResetActions(front)), CounterReset(last), open, m);
      assert s.trace + ResetActions(phases) == s.trace + ResetActions(front) + [CounterReset(last)];
    }
  }

  lemma RollbackIntake(k: Config, s: State, target: Phase, m: bool)
    requires IntakeInv(s, None, m)
    ensures IntakeInv(Rollback(k, s, target), None, m)
  {
    var affected := Affected(k, target);
    ResetsKeepIntake(s, affected, None, m);
    var s1 := MarkIncomplete(s, affected);
    assert s1.trace == s.trace + ResetActions(affected);
    assert IntakeInv(s1, None, m);
    var cleared := FirstWithProgress(s.ctx.progress, affected);
    if cleared.Some? {
      ClearProgressIntake(s1, cleared.value, None, m);
    }
  }

  lemma RollbackOverrideIntake(k: Config, s: State, target: Phase, m: bool)
    requires Inv(k, s, None) && IntakeInv(s, None, m) && RollbackCovers(k, s.ctx, target)
    ensures IntakeInv(RollbackOverride(k, s, target), None, m)
  {
    RollbackIntake(k, s, target, m);
    RollbackKeeps(k, s, target);
    LogKeepsIntake(Rollback(k, s, target), Overridden, None, m);
    if s.ctx.questions != [] && Intake in s.ctx.completed {
      assert PausedPhase(s.ctx) == Some(Intake);
      assert Intake in Elems(Affected(k, target));
    }
  }

  lemma ForceAdvanceIntake(k: Config, s: State, m: bool)
    requires Inv(k, s, None) && IntakeInv(s, None, m) && s.ctx.questions == []
    ensures IntakeInv(ForceAdvance(s), None, m)
  {
    LogKeepsIntake(s, Overridden, None, m);
  }

  lemma ResumeIntake(k: Config, s: State, files: map<Path, Digest>, m: bool)
    requires Inv(k, s, None) && IntakeInv(s, None, m)
    ensures IntakeInv(ResumeLive(k, s, files), None, m)
    ensures IntakeInv(Restart(k, s, files), None, m)
  {
    hide Rehydrate, Inv, IntakeInv, Rewind;
    RehydrateRebuilds(k, s);
    LogKeepsIntake(s, Restarted, None, m);
    var live := s.(ctx := Rehydrate(s.ctx, s.store));
    StatusKeepsIntake(s, live.ctx.status, s.attempts, m);
    RewindIntake(k, live, files, m);
    var loaded := Log(s, Restarted);
    var blank := Log(s.(ctx := Rehydrate(FreshContext(s.store.mode), s.store), attempts := map[]), Restarted);
    StatusKeepsIntake(loaded, blank.ctx.status, map[], m);
    RewindIntake(k, blank, files, m);
  }

  lemma StatusKeepsIntake(s: State, status: Status, attempts: map<Phase, nat>, m: bool)
    requires IntakeInv(s, None, m)
    ensures IntakeInv(s.(ctx := s.ctx.(status := status), attempts := attempts), None, m)
  {
  }

  lemma RewindIntake(k: Config, s: State, files: map<Path, Digest>, m: bool)
    requires IntakeInv(s, None, m)
    ensures IntakeInv(Rewind(k, s, files), None, m)
  {
    hide Invalidate, EarliestInvalid, Affected;
  }

  lemma ApplyIntake(k: Config, w: World, s: State, op: Op, m: bool)
    requires m ==> AlwaysMarkered(w)
    requires Inv(k, s, None) && IntakeInv(s, None, m) && Permitted(k, s, op)
    ensures IntakeInv(Apply(k, w, s, op), None, m)
  {
    match op
    case DoStep => StepIntake(k, w, s, m);
    case DoApproval(gate, granted) =>
    case DoClarification => ClarificationIntake(k, s, m);
    case DoStop =>
    case DoRollback(target) => RollbackOverrideIntake(k, s, target, m);
    case DoForceAdvance => ForceAdvanceIntake(k, s, m);
    case DoResumeLive(files) => ResumeIntake(k, s, files, m);
    case DoRestart(files) => ResumeIntake(k, s, files, m);
  }

  lemma {:induction false} RunIntake(k: Config, w: World, ops: seq<Op>, m: bool)
    requires m ==> AlwaysMarkered(w)
    requires PermittedRun(k, w, StartRun(k), ops)
    ensures IntakeInv(Run(k, w, StartRun(k), ops), None, m)
    decreases |ops|
  {
    if ops != [] {
      var s := StartRun(k);
      var front := ops[..|ops| - 1];
      PermittedPrefix(k, w, s, ops);
      RunIntake(k, w, front, m);
      StartKeeps(k);
      RunKeeps(k, w, s, front);
      ApplyIntake(k, w, Run(k, w, s, front), ops[|ops| - 1], m);
    }
  }

  // ----- the theorems -----

  /** A run receives at most one clarification and asks none after it, whatever the file contains. */
  lemma AtMostOneClarification(k: Config, w: World, s: State)
    requires Reachable(k, w, s)
    ensures ClarifiedOnce(s)
    ensures s.ctx.status == AwaitingClarification ==> s.ctx.mode != Yolo && s.ctx.round == 0
  {
    hide Run, PermittedRun, Reachable, ClarifiedOnce;
    var ops := ReachableKeeps(k, w, s);
    RunIntake(k, w, ops, false);
  }

  /** On a markered file, no phase is dispatched on top of a completed intake before the contract is sealed. */
  lemma SealedBeforeLaterPhases(k: Config, w: World, s: State, i: nat)
    requires AlwaysMarkered(w) && Reachable(k, w, s)
    requires i < |s.trace| && s.trace[i].Dispatched? && Intake in s.trace[i].at.completed
    ensures s.trace[i].at.contractSealed
  {
    hide Run, PermittedRun, Reachable;
    var ops := ReachableKeeps(k, w, s);
    RunIntake(k, w, ops, true);
  }

  /** The store agrees about the seal. */
  predicate SealInSync(s: State) {
    s.store.contractSealed == s.ctx.contractSealed
  }

  /** Memory and store agree about the seal, and no operation, permitted or not, undoes it. */
  lemma SealNeverReverts(k: Config, w: World, s: State, op: Op)
    requires SealInSync(s)
    ensures SealInSync(Apply(k, w, s, op)) && (s.ctx.contractSealed ==> Apply(k, w, s, op).ctx.contractSealed)
  {
    hide Step;
    match op
    case DoStep => StepKeepsSeal(k, w, s);
    case _ =>
  }

  /** So a sealed run stays sealed, whatever operations follow. */
  lemma {:induction false} SealOutlivesEveryRun(k: Config, w: World, ops: seq<Op>, more: seq<Op>)
    ensures SealInSync(Run(k, w, StartRun(k), ops + more))
    ensures Run(k, w, StartRun(k), ops).ctx.contractSealed ==> Run(k, w, StartRun(k), ops + more).ctx.contractSealed
    decreases |ops| + |more|
  {
    hide Apply, SealInSync;
    if more != [] {
      var front, last := more[..|more| - 1], more[|more| - 1];
      SealOutlivesEveryRun(k, w, ops, front);
      assert (ops + more)[..|ops + more| - 1] == ops + front;
      SealNeverReverts(k, w, Run(k, w, StartRun(k), ops + front), last);
    } else {
      assert ops + more == ops;
      if ops != [] {
        SealOutlivesEveryRun(k, w, ops[..|ops| - 1], []);
        assert ops[..|ops| - 1] + [] == ops[..|ops| - 1];
        SealNeverReverts(k, w, Run(k, w, StartRun(k), ops[..|ops| - 1]), ops[|ops| - 1]);
      } else {
        StartInSync(k);
      }
    }
  }

  lemma StartInSync(k: Config)
    ensures SealInSync(StartRun(k))
  {
  }

  lemma DispatchKeepsSeal(k: Config, w: World, s: State, p: Phase)
    ensures var t := DispatchPhase(k, w, s, p).state;
      t.ctx.contractSealed == s.ctx.contractSealed && t.store.contractSealed == s.store.contractSealed
  {
    hide Ready, RecordSuccess;
    var outcome := w.execute(s.calls, p, ClarificationModeOf(s.ctx), CompletedArtifacts(s.ctx, p));
    if outcome.Succeeded? {
      RecordSuccessKeepsSeal(k, AfterCall(w, s, p), p, outcome, w.workspace(s.calls));
    }
  }

  lemma RecordSuccessKeepsSeal(k: Config, s: State, p: Phase, outcome: Outcome, files: map<Path, Digest>)
    requires outcome.Succeeded?
    ensures var t := RecordSuccess(k, s, p, outcome, files);
      t.ctx.contractSealed == s.ctx.contractSealed && t.store.contractSealed == s.store.contractSealed
  {
    hide SortByIndex, Filter;
  }

  lemma {:induction false} RetriesKeepSeal(k: Config, w: World, s: State, p: Phase)
    ensures var t := DispatchWithRetries(k, w, s, p).state;
      t.ctx.contractSealed == s.ctx.contractSealed && t.store.contractSealed == s.store.contractSealed
    decreases Budget(k, s, p)
  {
    hide DispatchPhase;
    FailureSpendsBudget(k, w, s, p);
    DispatchKeepsSeal(k, w, s, p);
    var d := DispatchPhase(k, w, s, p);
    if d.status == Failure {
      RetriesKeepSeal(k, w, BackOff(k, d.state, p), p);
    }
  }

  lemma StepKeepsSeal(k: Config, w: World, s: State)
    requires SealInSync(s)
    ensures SealInSync(Step(k, w, s)) && (s.ctx.contractSealed ==> Step(k, w, s).ctx.contractSealed)
  {
    hide DispatchWithRetries, NextPhase;
    var next := NextPhase(k.dag, s.ctx.completed + s.ctx.excluded);
    if next.Some? {
      RetriesKeepSeal(k, w, s, next.value);
    }
  }

  // ----- pending questions and rollback -----

  /** Exactly when a rollback override during pending questions leaves no completed intake unsealed: when it
      takes intake back, if intake had completed. */
  lemma RollbackKeepsSealIff(k: Config, s: State, target: Phase)
    requires Inv(k, s, None) && IntakeInv(s, None, true) && s.ctx.questions != [] && !s.ctx.contractSealed
    ensures SealedAfterIntake(RollbackOverride(k, s, target), None) <==>
      (Intake in s.ctx.completed ==> Intake in Affected(k, target))
  {
    hide Inv, Affected;
    RollbackIntake(k, s, target, true);
    RollbackKeeps(k, s, target);
    LogKeepsIntake(Rollback(k, s, target), Overridden, None, true);
    assert Intake in Elems(Affected(k, target)) <==> Intake in Affected(k, target);
  }
}
