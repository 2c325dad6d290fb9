/** No artifact is generated twice, and completion means every target was written. */
module UnitHistory {
  import opened Options
  import opened PhaseDag
  import opened Phases
  import opened Checkpoints
  import opened Retries
  import opened Supervisor
  import opened GateSafety
  import opened LinearPipeline
  import opened Units
  import Rollbacks

  /** The fixed target list of the implementation phase, and whether a test command is configured. */
  datatype Plan = Plan(targets: seq<Path>, tested: bool)

  predicate IsImplementation(a: Action) {
    a.Dispatched? && a.phase == Implementation
  }

  /** The artifact a dispatch of the implementation phase works on, if it still generates one. */
  function TargetOf(plan: Plan, a: Action): Option<Path>
    requires IsImplementation(a)
  {
    var remaining := Remaining(plan.targets, CompletedArtifacts(a.at, Implementation));
    if remaining == [] then None else Some(remaining[0])
  }

  /** `a` generated `rel` successfully: the backend wrote the file. */
  predicate Wrote(plan: Plan, a: Action, rel: Path) {
    IsImplementation(a) && a.outcome.Succeeded? && TargetOf(plan, a) == Some(rel)
  }

  ghost predicate WrittenBefore(plan: Plan, trace: seq<Action>, n: nat, rel: Path) {
    exists i :: 0 <= i < n && i < |trace| && Wrote(plan, trace[i], rel)
  }

  /** `rel` was recorded as a finished unit, and the phase has neither completed nor been rolled back since. */
  predicate Live(plan: Plan, trace: seq<Action>, rel: Path) {
    if trace == [] then false else
    var last := trace[|trace| - 1];
    if last == CounterReset(Implementation) then false
    else if Wrote(plan, last, rel) && !last.outcome.phaseComplete then true
    else Live(plan, trace[..|trace| - 1], rel)
  }

  lemma LiveSnoc(plan: Plan, trace: seq<Action>, a: Action, rel: Path)
    ensures Live(plan, trace + [a], rel) ==
      (if a == CounterReset(Implementation) then false
       else (Wrote(plan, a, rel) && !a.outcome.phaseComplete) || Live(plan, trace, rel))
  {
    assert (trace + [a])[..|trace|] == trace;
  }

  /** What each dispatch of the implementation phase knew about `rel`. */
  ghost predicate Informed(plan: Plan, trace: seq<Action>, rel: Path) {
    forall j :: 0 <= j < |trace| && IsImplementation(trace[j]) ==>
      UnitOutcome(plan.targets, plan.tested, CompletedArtifacts(trace[j].at, Implementation), trace[j].outcome) &&
      (Live(plan, trace[..j], rel) ==> rel in CompletedArtifacts(trace[j].at, Implementation)) &&
      (rel in CompletedArtifacts(trace[j].at, Implementation) ==> WrittenBefore(plan, trace, j, rel))
  }

  /** Recorded progress is what was written and is still live; the unit `unrecorded` has just succeeded. */
  ghost predicate UnitInv(plan: Plan, s: State, rel: Path, unrecorded: Option<Path>) {
    s.ctx.progress.Keys <= {Implementation} &&
    (rel in ProgressOf(s.ctx, Implementation) ==> WrittenBefore(plan, s.trace, |s.trace|, rel)) &&
    (Live(plan, s.trace, rel) && unrecorded != Some(rel) ==> rel in ProgressOf(s.ctx, Implementation)) &&
    Informed(plan, s.trace, rel)
  }

  lemma InformedSnoc(plan: Plan, trace: seq<Action>, a: Action, rel: Path)
    requires Informed(plan, trace, rel)
    requires IsImplementation(a) ==>
      UnitOutcome(plan.targets, plan.tested, CompletedArtifacts(a.at, Implementation), a.outcome) &&
      (Live(plan, trace, rel) ==> rel in CompletedArtifacts(a.at, Implementation)) &&
      (rel in CompletedArtifacts(a.at, Implementation) ==> WrittenBefore(plan, trace, |trace|, rel))
    ensures Informed(plan, trace + [a], rel)
  {
    hide Live, Wrote, UnitOutcome;
    var longer := trace + [a];
    forall j | 0 <= j < |longer| && IsImplementation(longer[j])
      ensures UnitOutcome(plan.targets, plan.tested, CompletedArtifacts(longer[j].at, Implementation),
        longer[j].outcome)
      ensures (Live(plan, longer[..j], rel) ==> rel in CompletedArtifacts(longer[j].at, Implementation)) &&
              (rel in CompletedArtifacts(longer[j].at, Implementation) ==> WrittenBefore(plan, longer, j, rel))
    {
      assert longer[..j] == trace[..j];
      if j < |trace| {
        assert longer[j] == trace[j];
        WrittenLonger(plan, trace, a, j, rel);
      } else {
        assert trace[..j] == trace;
        WrittenLonger(plan, trace, a, j, rel);
      }
    }
  }

  lemma WrittenLonger(plan: Plan, trace: seq<Action>, a: Action, n: nat, rel: Path)
    ensures WrittenBefore(plan, trace, n, rel) ==>
      WrittenBefore(plan, trace + [a], n, rel) && WrittenBefore(plan, trace + [a], n + 1, rel)
  {
    hide Wrote;
    if !WrittenBefore(plan, trace, n, rel) {
      return;
    }
    var i :| 0 <= i < n && i < |trace| && Wrote(plan, trace[i], rel);
    assert (trace + [a])[i] == trace[i];
  }

  // ----- one dispatch -----

  /** Anything but an implementation dispatch leaves the unit record alone; a counter reset only forgets. */
  lemma LogKeepsUnits(plan: Plan, s: State, a: Action, rel: Path)
    requires UnitInv(plan, s, rel, None) && !IsImplementation(a)
    ensures UnitInv(plan, Log(s, a), rel, None)
    ensures Live(plan, Log(s, a).trace, rel) <==> Live(plan, s.trace, rel) && a != CounterReset(Implementation)
  {
    hide WrittenBefore, Informed;
    InformedSnoc(plan, s.trace, a, rel);
    LiveSnoc(plan, s.trace, a, rel);
    WrittenLonger(plan, s.trace, a, |s.trace|, rel);
  }

  /** The unit that a call has just finished and the supervisor has not recorded yet. */
  function JustFinished(plan: Plan, a: Action): Option<Path> {
    if IsImplementation(a) && a.outcome.Succeeded? && !a.outcome.phaseComplete then TargetOf(plan, a) else None
  }

  lemma AfterCallUnits(w: World, plan: Plan, s: State, p: Phase, rel: Path)
    requires UnitWorld(w, plan.targets, plan.tested) && UnitInv(plan, s, rel, None)
    ensures var t := AfterCall(w, s, p);
      UnitInv(plan, t, rel, JustFinished(plan, t.trace[|s.trace|]))
  {
    hide WrittenBefore, Informed;
    var a := AfterCall(w, s, p).trace[|s.trace|];
    UnitOutcomeOf(w, plan, s, p);
    InformedSnoc(plan, s.trace, a, rel);
    LiveSnoc(plan, s.trace, a, rel);
    WrittenLonger(plan, s.trace, a, |s.trace|, rel);
  }

  lemma RecordUnitUnits(plan: Plan, s: State, unit: Path, rel: Path)
    requires UnitInv(plan, s, rel, Some(unit))
    requires unit == rel ==> WrittenBefore(plan, s.trace, |s.trace|, rel)
    ensures UnitInv(plan, RecordUnit(s, Implementation, [unit]), rel, None)
  {
    hide WrittenBefore, Informed, Live;
    assert [unit][1..] == [];
    assert forall x :: x in AppendNew(ProgressOf(s.ctx, Implementation), [unit]) <==>
      x in ProgressOf(s.ctx, Implementation) || x == unit;
  }

  lemma RecordSuccessUnits(k: Config, plan: Plan, s: State, p: Phase, outcome: Outcome, files: map<Path, Digest>,
                           rel: Path)
    requires UnitInv(plan, s, rel, None) && outcome.Succeeded?
    ensures UnitInv(plan, RecordSuccess(k, s, p, outcome, files), rel, None)
  {
    hide SaveCompletion, WrittenBefore, Informed, Live;
    LogKeepsUnits(plan, s, CounterReset(p), rel);
    var t := RecordSuccess(k, s, p, outcome, files);
    assert t.trace == s.trace + [CounterReset(p)];
    RecordSuccessEffect(k, s, p, outcome, files);
    assert t.ctx.progress == s.ctx.progress - {p};
  }

  lemma HandleFailureUnits(k: Config, plan: Plan, s: State, p: Phase, rel: Path)
    requires UnitInv(plan, s, rel, None)
    ensures UnitInv(plan, HandleFailure(k, s, p).state, rel, None)
  {
    hide WrittenBefore, Informed, Live;
    LogKeepsUnits(plan, s, FailureRecorded(p), rel);
  }

  lemma DispatchUnits(k: Config, w: World, plan: Plan, s: State, p: Phase, rel: Path)
    requires UnitWorld(w, plan.targets, plan.tested) && UnitInv(plan, s, rel, None)
    ensures UnitInv(plan, DispatchPhase(k, w, s, p).state, rel, None)
  {
    hide Ready, RecordUnit, RecordSuccess, HandleFailure, Informed, Live, Remaining, UnitWorld;
    if p in Ready(k.dag, s.ctx.completed + s.ctx.excluded) {
      var outcome := w.execute(s.calls, p, ClarificationModeOf(s.ctx), CompletedArtifacts(s.ctx, p));
      var t := AfterCall(w, s, p);
      AfterCallUnits(w, plan, s, p, rel);
      UnitOutcomeOf(w, plan, s, p);
      if outcome.Succeeded? && !outcome.phaseComplete {
        var unit := Remaining(plan.targets, CompletedArtifacts(s.ctx, Implementation))[0];
        if unit == rel {
          assert Wrote(plan, t.trace[|s.trace|], rel);
          assert WrittenBefore(plan, t.trace, |t.trace|, rel);
        }
        RecordUnitUnits(plan, t, unit, rel);
      } else if outcome.Succeeded? && outcome.checksPass {
        RecordSuccessUnits(k, plan, t, p, outcome, w.workspace(s.calls), rel);
      } else {
        HandleFailureUnits(k, plan, t, p, rel);
      }
    }
  }

  lemma UnitOutcomeOf(w: World, plan: Plan, s: State, p: Phase)
    requires UnitWorld(w, plan.targets, plan.tested)
    ensures var done := CompletedArtifacts(s.ctx, p);
      var outcome := w.execute(s.calls, p, ClarificationModeOf(s.ctx), done);
      (p == Implementation ==> UnitOutcome(plan.targets, plan.tested, done, outcome)) &&
      (outcome.Succeeded? && !outcome.phaseComplete ==>
        p == Implementation && Remaining(plan.targets, done) != [] &&
          outcome.artifacts == [Remaining(plan.targets, done)[0]])
  {
    hide Remaining;
  }

  lemma {:induction false} RetriesUnits(k: Config, w: World, plan: Plan, s: State, p: Phase, rel: Path)
    requires UnitWorld(w, plan.targets, plan.tested) && UnitInv(plan, s, rel, None)
    ensures UnitInv(plan, DispatchWithRetries(k, w, s, p).state, rel, None)
    decreases Budget(k, s, p)
  {
    hide DispatchPhase, UnitInv, UnitWorld;
    FailureSpendsBudget(k, w, s, p);
    DispatchUnits(k, w, plan, s, p, rel);
    var d := DispatchPhase(k, w, s, p);
    if d.status == Failure {
      LogKeepsUnits(plan, d.state, Slept(p, BackoffSeconds(k.backoffBase, Attempts(d.state.attempts, p))), rel);
      RetriesUnits(k, w, plan, BackOff(k, d.state, p), p, rel);
    }
  }

  // ----- operations -----

  lemma SameProgressUnits(plan: Plan, s: State, t: State, rel: Path)
    requires UnitInv(plan, s, rel, None) && t.trace == s.trace && t.ctx.progress == s.ctx.progress
    ensures UnitInv(plan, t, rel, None)
  {
  }

  lemma LoggedUnits(plan: Plan, s: State, t: State, a: Action, rel: Path)
    requires UnitInv(plan, s, rel, None) && !IsImplementation(a)
    requires t.trace == s.trace + [a] && t.ctx.progress == s.ctx.progress
    ensures UnitInv(plan, t, rel, None)
  {
    hide UnitInv;
    LogKeepsUnits(plan, s, a, rel);
    SameProgressUnits(plan, Log(s, a), t, rel);
  }

  lemma AfterDispatchUnits(w: World, plan: Plan, d: Dispatch, p: Phase, rel: Path)
    requires UnitInv(plan, d.state, rel, None)
    ensures UnitInv(plan, AfterDispatch(w, d, p), rel, None)
  {
    hide UnitInv;
    var s := d.state;
    if d.status == EscalatedDispatch {
    } else if p == Intake && d.questions != [] && ClarificationModeOf(s.ctx) == Questions {
      LoggedUnits(plan, s, PauseForClarification(s, d.questions), ClarificationAsked, rel);
    } else {
      var sealed := if p == Intake && d.status == Success then SealContract(w, s) else s;
      SealUnits(w, plan, s, rel);
      SameProgressUnits(plan, sealed, PostGateCheck(sealed, p), rel);
    }
  }

  lemma SealUnits(w: World, plan: Plan, s: State, rel: Path)
    requires UnitInv(plan, s, rel, None)
    ensures UnitInv(plan, SealContract(w, s), rel, None)
  {
    hide UnitInv;
    if !s.ctx.contractSealed {
      LoggedUnits(plan, s, SealContract(w, s), SealChecked(w.contractPresent(s.calls)), rel);
    }
  }

  lemma StepUnits(k: Config, w: World, plan: Plan, s: State, rel: Path)
    requires UnitWorld(w, plan.targets, plan.tested) && UnitInv(plan, s, rel, None)
    ensures UnitInv(plan, Step(k, w, s), rel, None)
  {
    hide UnitInv, Ready, NextPhase, DispatchWithRetries, AfterDispatch, UnitWorld;
    var next := NextPhase(k.dag, s.ctx.completed + s.ctx.excluded);
    if s.ctx.status == Running && next.Some? &&
      (next.value in s.ctx.gates.pre ==> GateSatisfied(s.ctx, s.ctx.gates.pre[next.value])) {
      RetriesUnits(k, w, plan, s, next.value, rel);
      AfterDispatchUnits(w, plan, DispatchWithRetries(k, w, s, next.value), next.value, rel);
    } else {
      SameProgressUnits(plan, s, Step(k, w, s), rel);
    }
  }

  lemma ClarificationUnits(plan: Plan, s: State, rel: Path)
    requires UnitInv(plan, s, rel, None)
    ensures UnitInv(plan, SubmitClarification(s), rel, None)
  {
    hide UnitInv, Invalidate, ResetActions;
    if AcceptsClarification(s.ctx) {
      ResetsUnits(plan, s, [Intake], rel);
      var t := s.(trace := s.trace + ResetActions([Intake]));
      LoggedUnits(plan, t, SubmitClarification(s), ClarificationReceived, rel);
    }
  }

  lemma {:induction false} ResetsUnits(plan: Plan, s: State, phases: seq<Phase>, rel: Path)
    requires UnitInv(plan, s, rel, None)
    ensures var t := s.(trace := s.trace + ResetActions(phases));
      UnitInv(plan, t, rel, None) && (Implementation in phases ==> !Live(plan, t.trace, rel))
  {
    hide UnitInv, Live;
    if phases == [] {
      assert s.trace + [] == s.trace;
    } else {
      var front, last := phases[..|phases| - 1], phases[|phases| - 1];
      ResetsUnits(plan, s, front, rel);
      var mid := s.(trace := s.trace + ResetActions(front));
      LogKeepsUnits(plan, mid, CounterReset(last), rel);
      assert s.trace + ResetActions(phases) == mid.trace + [CounterReset(last)];
      assert phases == front + [last];
    }
  }

  lemma {:induction false} FirstIsImplementation(progress: map<Phase, seq<Path>>, affected: seq<Phase>)
    requires progress.Keys <= {Implementation}
    ensures FirstWithProgress(progress, affected) ==
      if Implementation in affected && Implementation in progress then Some(Implementation) else None
  {
    if affected != [] {
      FirstIsImplementation(progress, affected[1..]);
    }
  }

  lemma RollbackUnits(k: Config, plan: Plan, s: State, target: Phase, rel: Path)
    requires UnitInv(plan, s, rel, None)
    ensures UnitInv(plan, RollbackOverride(k, s, target), rel, None)
  {
    hide Affected, Invalidate, Live, WrittenBefore, Informed;
    var affected := Affected(k, target);
    ResetsUnits(plan, s, affected, rel);
    FirstIsImplementation(s.ctx.progress, affected);
    var t := Rollback(k, s, target);
    assert t.trace == s.trace + ResetActions(affected);
    assert UnitInv(plan, t, rel, None);
    LoggedUnits(plan, t, RollbackOverride(k, s, target), Overridden, rel);
  }

  lemma ResumeUnits(k: Config, plan: Plan, s: State, files: map<Path, Digest>, rel: Path)
    requires Inv(k, s, None) && UnitInv(plan, s, rel, None)
    ensures UnitInv(plan, ResumeLive(k, s, files), rel, None)
    ensures UnitInv(plan, Restart(k, s, files), rel, None)
  {
    hide UnitInv, Inv, Invalidate, EarliestInvalid, Affected;
    RehydrateProgress(k, s);
    SameProgressUnits(plan, s, ResumeLive(k, s, files), rel);
    LoggedUnits(plan, s, Restart(k, s, files), Restarted, rel);
  }

  lemma RehydrateProgress(k: Config, s: State)
    requires Inv(k, s, None)
    ensures s.store.progress == s.ctx.progress
  {
  }

  lemma ApplyUnits(k: Config, w: World, plan: Plan, s: State, op: Op, rel: Path)
    requires UnitWorld(w, plan.targets, plan.tested) && Inv(k, s, None) && UnitInv(plan, s, rel, None)
    ensures UnitInv(plan, Apply(k, w, s, op), rel, None)
  {
    hide UnitInv, Inv, UnitWorld;
    match op
    case DoStep => StepUnits(k, w, plan, s, rel);
    case DoApproval(gate, granted) => SameProgressUnits(plan, s, SubmitApproval(s, gate, granted), rel);
    case DoClarification => ClarificationUnits(plan, s, rel);
    case DoStop => SameProgressUnits(plan, s, Stop(s), rel);
    case DoRollback(target) => RollbackUnits(k, plan, s, target, rel);
    case DoForceAdvance => LoggedUnits(plan, s, ForceAdvance(s), Overridden, rel);
    case DoResumeLive(files) => ResumeUnits(k, plan, s, files, rel);
    case DoRestart(files) => ResumeUnits(k, plan, s, files, rel);
  }

  lemma {:induction false} RunUnits(k: Config, w: World, plan: Plan, ops: seq<Op>, rel: Path)
    requires UnitWorld(w, plan.targets, plan.tested) && PermittedRun(k, w, StartRun(k), ops)
    ensures UnitInv(plan, Run(k, w, StartRun(k), ops), rel, None)
    decreases |ops|
  {
    if ops != [] {
      hide UnitInv, UnitWorld, Apply;
      var s := StartRun(k);
      var front := ops[..|ops| - 1];
      PermittedPrefix(k, w, s, ops);
      RunUnits(k, w, plan, front, rel);
      StartKeeps(k);
      RunKeeps(k, w, s, front);
      ApplyUnits(k, w, plan, Run(k, w, s, front), ops[|ops| - 1], rel);
    }
  }

  // ----- the theorems -----

  /** A recorded artifact is never generated again, across retries, rollbacks and restarts, until the
      implementation phase has completed or been rolled back in between. */
  lemma NoArtifactIsGeneratedTwice(k: Config, w: World, plan: Plan, s: State, i: nat, j: nat, rel: Path)
    requires UnitWorld(w, plan.targets, plan.tested) && Reachable(k, w, s) && i < j < |s.trace|
    requires Wrote(plan, s.trace[i], rel) && !s.trace[i].outcome.phaseComplete
    requires IsImplementation(s.trace[j]) && TargetOf(plan, s.trace[j]) == Some(rel)
    ensures exists m :: i < m < j && s.trace[m] == CounterReset(Implementation)
  {
    hide Run, PermittedRun, Reachable, Inv, UnitWorld, Live;
    var ops := ReachableKeeps(k, w, s);
    RunUnits(k, w, plan, ops, rel);
    var trace := s.trace;
    TargetIsNew(plan, trace[j], rel);
    if forall m :: i < m < j ==> trace[m] != CounterReset(Implementation) {
      StaysLive(plan, trace, i, j, rel);
      assert false;
    }
  }

  lemma TargetIsNew(plan: Plan, a: Action, rel: Path)
    requires IsImplementation(a) && TargetOf(plan, a) == Some(rel)
    ensures rel !in CompletedArtifacts(a.at, Implementation)
  {
    var remaining := Remaining(plan.targets, CompletedArtifacts(a.at, Implementation));
    assert remaining[0] in remaining;
  }

  lemma {:induction false} StaysLive(plan: Plan, trace: seq<Action>, i: nat, j: nat, rel: Path)
    requires i < j <= |trace| && Wrote(plan, trace[i], rel) && !trace[i].outcome.phaseComplete
    requires forall m :: i < m < j ==> trace[m] != CounterReset(Implementation)
    ensures Live(plan, trace[..j], rel)
    decreases j
  {
    assert trace[..j] == trace[..j - 1] + [trace[j - 1]];
    LiveSnoc(plan, trace[..j - 1], trace[j - 1], rel);
    if i < j - 1 {
      StaysLive(plan, trace, i, j - 1, rel);
    }
  }

  /** When the implementation phase reports completion through units, it reports the whole target
      list, and every target had been written by then. */
  lemma CompletionMeansAllWritten(k: Config, w: World, plan: Plan, s: State, i: nat, rel: Path)
    requires UnitWorld(w, plan.targets, plan.tested) && Reachable(k, w, s) && rel in plan.targets
    requires i < |s.trace| && IsImplementation(s.trace[i])
    requires s.trace[i].outcome.Succeeded? && s.trace[i].outcome.phaseComplete
    ensures s.trace[i].outcome.artifacts == plan.targets && WrittenBefore(plan, s.trace, i + 1, rel)
  {
    hide Run, StartRun, PermittedRun, Reachable, Inv, Live, UnitWorld;
    var ops := ReachableKeeps(k, w, s);
    RunUnits(k, w, plan, ops, rel);
    EntryMeansAllWritten(plan, s.trace, i, rel);
  }

  lemma EntryMeansAllWritten(plan: Plan, trace: seq<Action>, i: nat, rel: Path)
    requires Informed(plan, trace, rel) && rel in plan.targets && i < |trace|
    requires IsImplementation(trace[i]) && trace[i].outcome.Succeeded? && trace[i].outcome.phaseComplete
    ensures trace[i].outcome.artifacts == plan.targets && WrittenBefore(plan, trace, i + 1, rel)
  {
    hide Live;
    var done := CompletedArtifacts(trace[i].at, Implementation);
    if rel in done {
      assert WrittenBefore(plan, trace, i, rel);
    } else {
      RemainingHas(plan, done, rel);
      assert Remaining(plan.targets, done) == [rel];
      assert Wrote(plan, trace[i], rel);
    }
  }

  lemma RemainingHas(plan: Plan, done: seq<Path>, rel: Path)
    requires rel in plan.targets && rel !in done
    ensures rel in Remaining(plan.targets, done)
  {
  }

  /** With such an executor only implementation ever has unit progress, so rolling back twice is rolling
      back once, in every reachable state and up to the history. */
  lemma RollbackIsIdempotent(k: Config, w: World, plan: Plan, s: State, target: Phase)
    requires UnitWorld(w, plan.targets, plan.tested) && Reachable(k, w, s)
    ensures var once := Rollback(k, s, target);
      Rollback(k, once, target).(trace := once.trace) == once
  {
    hide Run, PermittedRun, Reachable, Inv, UnitWorld, Live, Informed, Rollback;
    var ops := ReachableKeeps(k, w, s);
    RunUnits(k, w, plan, ops, "");
    Rollbacks.RollbackIsIdempotentIff(k, s, target);
  }
}
