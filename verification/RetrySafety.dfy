/** The retry budget and the total backoff over whole runs. */
module RetrySafety {
  import opened Options
  import opened Sequences
  import opened PhaseDag
  import opened Phases
  import opened Checkpoints
  import opened Retries
  import opened Supervisor
  import opened GateSafety

  /** What happened to one phase since its counter was last reset. */
  datatype Tally = Tally(failures: nat, slept: nat, overrides: nat)

  function Count(t: Tally, a: Action, p: Phase): Tally {
    match a
    case FailureRecorded(q) => if q == p then t.(failures := t.failures + 1) else t
    case Slept(q, seconds) => if q == p then t.(slept := t.slept + seconds) else t
    case CounterReset(q) => if q == p then Tally(0, 0, 0) else t
    case Restarted => Tally(0, 0, 0)
    case Overridden => t.(overrides := t.overrides + 1)
    case _ => t
  }

  function TallyOf(trace: seq<Action>, p: Phase): Tally {
    if trace == [] then Tally(0, 0, 0)
    else Count(TallyOf(trace[..|trace| - 1], p), trace[|trace| - 1], p)
  }

  lemma TallySnoc(trace: seq<Action>, a: Action, p: Phase)
    ensures TallyOf(trace + [a], p) == Count(TallyOf(trace, p), a, p)
  {
    assert (trace + [a])[..|trace|] == trace;
  }

  /** The run may dispatch again without an override. */
  predicate MayContinue(ctx: Context) {
    ctx.status == Running || ctx.pendingGate.Some? || ctx.questions != []
  }

  function Min(a: nat, b: nat): nat {
    if a < b then a else b
  }

  /** Phase `p`'s counter is its number of failures since the last reset, every retried failure has
      been slept for (all but the last one while `owed`), and beyond the budget each further failure
      was paid for by an override. */
  ghost predicate RetryInv(k: Config, s: State, p: Phase, owed: bool) {
    var t := TallyOf(s.trace, p);
    Attempts(s.attempts, p) == t.failures &&
    (if owed then 1 <= t.failures <= k.maxRetries && t.slept == TotalBackoff(k.backoffBase, t.failures - 1)
     else t.slept == TotalBackoff(k.backoffBase, Min(t.failures, k.maxRetries))) &&
    t.failures <= k.maxRetries + t.overrides + if MayContinue(s.ctx) then 0 else 1
  }

  lemma QuietLog(k: Config, s: State, a: Action, p: Phase)
    requires RetryInv(k, s, p, false) && Count(TallyOf(s.trace, p), a, p) == TallyOf(s.trace, p)
    ensures RetryInv(k, Log(s, a), p, false)
  {
    TallySnoc(s.trace, a, p);
  }

  lemma HandleFailureRetry(k: Config, s: State, p: Phase, q: Phase)
    requires RetryInv(k, s, q, false) && s.ctx.status == Running && s.ctx.pendingGate == None && s.ctx.questions == []
    ensures var d := HandleFailure(k, s, p);
      RetryInv(k, d.state, q, d.status == Failure && p == q)
  {
    hide TallyOf, TotalBackoff;
    TallySnoc(s.trace, FailureRecorded(p), q);
  }

  lemma ClearProgressRetry(k: Config, s: State, p: Phase, q: Phase)
    requires RetryInv(k, s, q, false)
    ensures RetryInv(k, ClearProgress(s, p), q, false)
  {
  }

  lemma RecordSuccessRetry(k: Config, s: State, p: Phase, outcome: Outcome, files: map<Path, Digest>, q: Phase)
    requires RetryInv(k, s, q, false) && outcome.Succeeded?
    ensures RetryInv(k, RecordSuccess(k, s, p, outcome, files), q, false)
  {
    var c := Checksums(outcome.artifacts, files);
    CompletePhaseRetry(k, s, p, c, q);
    ClearProgressRetry(k, CompletePhase(s, p, c), p, q);
    AssessTierRetry(k, ClearProgress(CompletePhase(s, p, c), p), p, outcome.tier, q);
  }

  lemma NoBackoff(base: nat)
    ensures TotalBackoff(base, 0) == 0
  {
  }

  lemma CompletePhaseRetry(k: Config, s: State, p: Phase, c: map<Path, Digest>, q: Phase)
    requires RetryInv(k, s, q, false)
    ensures RetryInv(k, CompletePhase(s, p, c), q, false)
  {
    hide SaveCompletion, TallyOf, TotalBackoff, Pow2;
    TallySnoc(s.trace, CounterReset(p), q);
    var t := CompletePhase(s, p, c);
    assert t.trace == s.trace + [CounterReset(p)] && t.attempts == s.attempts - {p};
    assert MayContinue(t.ctx) == MayContinue(s.ctx);
    hide CompletePhase;
    NoBackoff(k.backoffBase);
  }

  lemma AssessTierRetry(k: Config, s: State, p: Phase, tier: Option<Tier>, q: Phase)
    requires RetryInv(k, s, q, false)
    ensures RetryInv(k, AssessTier(k, s, p, tier), q, false)
  {
  }

  lemma DispatchIsQuiet(k: Config, w: World, s: State, p: Phase, q: Phase)
    requires RetryInv(k, s, q, false)
    ensures AfterCall(w, s, p).ctx == s.ctx && RetryInv(k, AfterCall(w, s, p), q, false)
  {
    var outcome := w.execute(s.calls, p, ClarificationModeOf(s.ctx), CompletedArtifacts(s.ctx, p));
    QuietLog(k, s, Dispatched(p, s.ctx, outcome), q);
  }

  lemma RecordUnitRetry(k: Config, s: State, p: Phase, artifacts: seq<Path>, q: Phase)
    requires RetryInv(k, s, q, false)
    ensures RetryInv(k, RecordUnit(s, p, artifacts), q, false)
  {
  }

  lemma DispatchPhaseRetry(k: Config, w: World, s: State, p: Phase, q: Phase)
    requires Inv(k, s, None) && MayDispatch(k, s, p) && RetryInv(k, s, q, false)
    ensures var d := DispatchPhase(k, w, s, p);
      RetryInv(k, d.state, q, d.status == Failure && p == q)
  {
    hide Ready, IsReady, RecordSuccess, HandleFailure, RecordUnit, TallyOf, TotalBackoff, RetryInv,
      SafeTrace, GatesHeld, Sound;
    var outcome := w.execute(s.calls, p, ClarificationModeOf(s.ctx), CompletedArtifacts(s.ctx, p));
    var s1 := AfterCall(w, s, p);
    DispatchIsQuiet(k, w, s, p, q);
    if outcome.Succeeded? && outcome.phaseComplete && outcome.checksPass {
      RecordSuccessRetry(k, s1, p, outcome, w.workspace(s.calls), q);
    } else if outcome.Succeeded? && !outcome.phaseComplete {
      RecordUnitRetry(k, s1, p, outcome.artifacts, q);
    } else {
      HandleFailureRetry(k, s1, p, q);
    }
  }

  lemma BackOffRetry(k: Config, s: State, p: Phase, q: Phase)
    requires RetryInv(k, s, q, p == q)
    ensures RetryInv(k, BackOff(k, s, p), q, false)
  {
    var seconds := BackoffSeconds(k.backoffBase, Attempts(s.attempts, p));
    TallySnoc(s.trace, Slept(p, seconds), q);
    if p == q {
      var n := TallyOf(s.trace, p).failures;
      assert TotalBackoff(k.backoffBase, n) == TotalBackoff(k.backoffBase, n - 1) + seconds;
    }
  }

  lemma {:induction false} DispatchWithRetriesRetry(k: Config, w: World, s: State, p: Phase, q: Phase)
    requires Inv(k, s, None) && MayDispatch(k, s, p) && RetryInv(k, s, q, false)
    ensures RetryInv(k, DispatchWithRetries(k, w, s, p).state, q, false)
    decreases Budget(k, s, p)
  {
    hide Inv, DispatchPhase, RetryInv;
    FailureSpendsBudget(k, w, s, p);
    DispatchPhaseKeeps(k, w, s, p);
    DispatchPhaseRetry(k, w, s, p, q);
    var d := DispatchPhase(k, w, s, p);
    if d.status == Failure {
      BackOffKeeps(k, d.state, p);
      BackOffRetry(k, d.state, p, q);
      DispatchWithRetriesRetry(k, w, BackOff(k, d.state, p), p, q);
    }
  }

  lemma SealRetry(k: Config, w: World, s: State, q: Phase)
    requires RetryInv(k, s, q, false)
    ensures RetryInv(k, SealContract(w, s), q, false)
  {
    if !s.ctx.contractSealed {
      QuietLog(k, s, SealChecked(w.contractPresent(s.calls)), q);
    }
  }

  lemma AfterDispatchRetry(k: Config, w: World, d: Dispatch, p: Phase, q: Phase)
    requires RetryInv(k, d.state, q, false) && (d.status != EscalatedDispatch ==> d.state.ctx.status == Running)
    ensures RetryInv(k, AfterDispatch(w, d, p), q, false)
  {
    if d.status == EscalatedDispatch {
    } else if p == Intake && d.questions != [] && ClarificationModeOf(d.state.ctx) == Questions {
      QuietLog(k, d.state, ClarificationAsked, q);
    } else {
      SealRetry(k, w, d.state, q);
      var sealed := if p == Intake && d.status == Success then SealContract(w, d.state) else d.state;
      PostGateCheckRetry(k, sealed, p, q);
    }
  }

  lemma PostGateCheckRetry(k: Config, s: State, p: Phase, q: Phase)
    requires RetryInv(k, s, q, false) && s.ctx.status == Running
    ensures RetryInv(k, PostGateCheck(s, p), q, false)
  {
  }

  lemma StepRetry(k: Config, w: World, s: State, q: Phase)
    requires Inv(k, s, None) && RetryInv(k, s, q, false)
    ensures RetryInv(k, Step(k, w, s), q, false)
  {
    hide DispatchWithRetries, AfterDispatch;
    if s.ctx.status == Running {
      var next := NextPhase(k.dag, s.ctx.completed + s.ctx.excluded);
      if next.Some? && (next.value in s.ctx.gates.pre ==> GateSatisfied(s.ctx, s.ctx.gates.pre[next.value])) {
        SelectedMayDispatch(k, s, next.value);
        DispatchWithRetriesKeeps(k, w, s, next.value);
        DispatchWithRetriesRetry(k, w, s, next.value, q);
        AfterDispatchRetry(k, w, DispatchWithRetries(k, w, s, next.value), next.value, q);
      }
    }
  }

  lemma ClarificationRetry(k: Config, s: State, q: Phase)
    requires Inv(k, s, None) && RetryInv(k, s, q, false)
    ensures RetryInv(k, SubmitClarification(s), q, false)
  {
    hide MarkIncomplete, InSync, SafeTrace, GatesHeld, Sound, TallyOf, TotalBackoff;
    if AcceptsClarification(s.ctx) {
      var s1 := MarkIncomplete(s, [Intake]);
      MarkIncompleteRetry(k, s, [Intake], q);
      MarkIncompleteContext(s, [Intake]);
      TallySnoc(s1.trace, ClarificationReceived, q);
    }
  }

  lemma {:induction false} TallyAfterResets(trace: seq<Action>, phases: seq<Phase>, q: Phase)
    ensures TallyOf(trace + ResetActions(phases), q) == if q in phases then Tally(0, 0, 0) else TallyOf(trace, q)
  {
    hide TallyOf;
    if phases == [] {
      assert trace + [] == trace;
    } else {
      var front, last := phases[..|phases| - 1], phases[|phases| - 1];
      TallyAfterResets(trace, front, q);
      assert ResetActions(phases) == ResetActions(front) + [CounterReset(last)];
      hide ResetActions;
      assert trace + ResetActions(phases) == trace + ResetActions(front) + [CounterReset(last)];
      TallySnoc(trace + ResetActions(front), CounterReset(last), q);
      assert phases == front + [last];
    }
  }

  lemma MarkIncompleteRetry(k: Config, s: State, affected: seq<Phase>, q: Phase)
    requires RetryInv(k, s, q, false)
    ensures RetryInv(k, MarkIncomplete(s, affected), q, false)
  {
    TallyAfterResets(s.trace, affected, q);
    assert q in Elems(affected) <==> q in affected;
  }

  lemma RollbackRetry(k: Config, s: State, target: Phase, q: Phase)
    requires RetryInv(k, s, q, false)
    ensures RetryInv(k, Rollback(k, s, target), q, false)
  {
    var affected := Affected(k, target);
    MarkIncompleteRetry(k, s, affected, q);
    var cleared := FirstWithProgress(s.ctx.progress, affected);
    if cleared.Some? {
      ClearProgressRetry(k, MarkIncomplete(s, affected), cleared.value, q);
    }
  }

  lemma RollbackOverrideRetry(k: Config, s: State, target: Phase, q: Phase)
    requires RetryInv(k, s, q, false)
    ensures RetryInv(k, RollbackOverride(k, s, target), q, false)
  {
    RollbackRetry(k, s, target, q);
    OverrideRetry(k, Rollback(k, s, target), RollbackOverride(k, s, target), q);
  }

  lemma OverrideRetry(k: Config, s: State, after: State, q: Phase)
    requires RetryInv(k, s, q, false)
    requires after.trace == s.trace + [Overridden] && after.attempts == s.attempts && after.ctx.status == Running
    ensures RetryInv(k, after, q, false)
  {
    TallySnoc(s.trace, Overridden, q);
  }

  lemma ForceAdvanceRetry(k: Config, s: State, q: Phase)
    requires RetryInv(k, s, q, false)
    ensures RetryInv(k, ForceAdvance(s), q, false)
  {
    OverrideRetry(k, s, ForceAdvance(s), q);
  }

  lemma ResumeRetry(k: Config, s: State, files: map<Path, Digest>, q: Phase)
    requires Inv(k, s, None) && RetryInv(k, s, q, false)
    ensures RetryInv(k, ResumeLive(k, s, files), q, false)
    ensures RetryInv(k, Restart(k, s, files), q, false)
  {
    hide Invalidate, EarliestInvalid, Inv, Affected, TallyOf, RetryInv;
    var live, back := ResumeLive(k, s, files), Restart(k, s, files);
    assert MayContinue(live.ctx) ==> MayContinue(s.ctx) by {
      RehydrateRebuilds(k, s);
    }
    SameCountersRetry(k, s, live, q);
    TallySnoc(s.trace, Restarted, q);
    RestartedRetry(k, back, q);
  }

  lemma SameCountersRetry(k: Config, s: State, t: State, q: Phase)
    requires RetryInv(k, s, q, false)
    requires t.trace == s.trace && t.attempts == s.attempts && (MayContinue(t.ctx) ==> MayContinue(s.ctx))
    ensures RetryInv(k, t, q, false)
  {
  }

  lemma RestartedRetry(k: Config, t: State, q: Phase)
    requires t.attempts == map[] && TallyOf(t.trace, q) == Tally(0, 0, 0)
    ensures RetryInv(k, t, q, false)
  {
  }

  lemma ApplyRetry(k: Config, w: World, s: State, op: Op, q: Phase)
    requires Inv(k, s, None) && RetryInv(k, s, q, false)
    ensures RetryInv(k, Apply(k, w, s, op), q, false)
  {
    match op
    case DoStep => StepRetry(k, w, s, q);
    case DoApproval(gate, granted) =>
    case DoClarification => ClarificationRetry(k, s, q);
    case DoStop =>
    case DoRollback(target) => RollbackOverrideRetry(k, s, target, q);
    case DoForceAdvance => ForceAdvanceRetry(k, s, q);
    case DoResumeLive(files) => ResumeRetry(k, s, files, q);
    case DoRestart(files) => ResumeRetry(k, s, files, q);
  }

  lemma {:induction false} RunRetry(k: Config, w: World, ops: seq<Op>, q: Phase)
    requires PermittedRun(k, w, StartRun(k), ops)
    ensures RetryInv(k, Run(k, w, StartRun(k), ops), q, false)
    decreases |ops|
  {
    if ops != [] {
      var s := StartRun(k);
      var front := ops[..|ops| - 1];
      PermittedPrefix(k, w, s, ops);
      RunRetry(k, w, front, q);
      StartKeeps(k);
      RunKeeps(k, w, s, front);
      ApplyRetry(k, w, Run(k, w, s, front), ops[|ops| - 1], q);
    }
  }

  // ----- the theorems -----

  /** Between two resets of its counter a phase records at most one failure more than the retry
      budget, plus one for each override, however its work was split into units; and the time slept
      for it never exceeds the geometric sum of one full retry sequence. */
  lemma FailuresAndBackoffAreBounded(k: Config, w: World, s: State, p: Phase)
    requires Reachable(k, w, s)
    ensures var t := TallyOf(s.trace, p);
      t.failures <= k.maxRetries + 1 + t.overrides && t.slept <= k.backoffBase * (Pow2(k.maxRetries) - 1)
  {
    hide Run, PermittedRun, StartRun, Reachable, Inv;
    var ops := ReachableKeeps(k, w, s);
    RunRetry(k, w, ops, p);
    RetryBounds(k, s, p);
  }

  lemma RetryBounds(k: Config, s: State, p: Phase)
    requires RetryInv(k, s, p, false)
    ensures var t := TallyOf(s.trace, p);
      t.failures <= k.maxRetries + 1 + t.overrides && t.slept <= k.backoffBase * (Pow2(k.maxRetries) - 1)
  {
    var t := TallyOf(s.trace, p);
    TotalBackoffMonotone(k.backoffBase, Min(t.failures, k.maxRetries), k.maxRetries);
    TotalBackoffClosedForm(k.backoffBase, k.maxRetries);
  }

  /** The executor fails, or completes something that does not pass the checks. */
  predicate IsFailure(outcome: Outcome) {
    outcome.Failed? || (outcome.phaseComplete && !outcome.checksPass)
  }

  /** What the `i`-th attempt from `s` would be answered. */
  function Attempt(w: World, s: State, p: Phase, i: nat): Outcome {
    w.execute(s.calls + i, p, ClarificationModeOf(s.ctx), CompletedArtifacts(s.ctx, p))
  }

  ghost predicate AllFail(w: World, s: State, p: Phase, n: int) {
    forall i :: 0 <= i < n ==> IsFailure(Attempt(w, s, p, i))
  }

  /** Starting within the budget, a phase escalates exactly when every attempt the budget still allows fails, and
      then its counter stands at `maxRetries + 1`. */
  lemma {:induction false} EscalatesIff(k: Config, w: World, s: State, p: Phase)
    requires p in Ready(k.dag, s.ctx.completed + s.ctx.excluded) && Attempts(s.attempts, p) <= k.maxRetries
    ensures var d := DispatchWithRetries(k, w, s, p);
      (d.status == EscalatedDispatch <==> AllFail(w, s, p, k.maxRetries + 1 - Attempts(s.attempts, p))) &&
      (d.status == EscalatedDispatch ==> Attempts(d.state.attempts, p) == k.maxRetries + 1)
    decreases Budget(k, s, p)
  {
    hide Ready, AllFail, DispatchPhase, IsFailure, Attempt;
    FailureSpendsBudget(k, w, s, p);
    FirstAttempt(k, w, s, p);
    var d := DispatchPhase(k, w, s, p);
    OneOfAll(w, s, p, k.maxRetries + 1 - Attempts(s.attempts, p));
    if d.status == Failure {
      var next := BackOff(k, d.state, p);
      EscalatesIff(k, w, next, p);
      AllButFirst(w, s, next, p, k.maxRetries + 1 - Attempts(s.attempts, p));
    }
  }

  lemma OneOfAll(w: World, s: State, p: Phase, n: int)
    requires n >= 1
    ensures AllFail(w, s, p, n) ==> IsFailure(Attempt(w, s, p, 0))
    ensures n == 1 ==> (AllFail(w, s, p, n) <==> IsFailure(Attempt(w, s, p, 0)))
  {
  }

  lemma AllButFirst(w: World, s: State, next: State, p: Phase, n: int)
    requires n >= 1 && next.calls == s.calls + 1 && next.ctx == s.ctx && IsFailure(Attempt(w, s, p, 0))
    ensures AllFail(w, s, p, n) <==> AllFail(w, next, p, n - 1)
  {
    forall i: nat ensures Attempt(w, next, p, i) == Attempt(w, s, p, i + 1) {
    }
    if AllFail(w, next, p, n - 1) {
      forall i | 0 <= i < n ensures IsFailure(Attempt(w, s, p, i)) {
        if i > 0 {
          assert IsFailure(Attempt(w, next, p, i - 1));
        }
      }
    }
  }

  lemma FirstAttempt(k: Config, w: World, s: State, p: Phase)
    requires p in Ready(k.dag, s.ctx.completed + s.ctx.excluded) && Attempts(s.attempts, p) <= k.maxRetries
    ensures var d := DispatchPhase(k, w, s, p);
      (d.status in {Failure, EscalatedDispatch} <==> IsFailure(Attempt(w, s, p, 0))) &&
      (d.status in {Failure, EscalatedDispatch} ==>
        Attempts(d.state.attempts, p) == Attempts(s.attempts, p) + 1 && d.state.calls == s.calls + 1 &&
        (d.status == EscalatedDispatch <==> Attempts(s.attempts, p) == k.maxRetries)) &&
      (d.status == Failure ==> d.state.ctx == s.ctx) && d.status != Blocked
  {
    hide Ready, RecordSuccess, RecordUnit, HandleFailure, ClarificationModeOf, CompletedArtifacts;
    FailureCounts(k, AfterCall(w, s, p), p);
  }

  lemma FailureCounts(k: Config, s: State, p: Phase)
    ensures var d := HandleFailure(k, s, p);
      d.status in {Failure, EscalatedDispatch} && Attempts(d.state.attempts, p) == Attempts(s.attempts, p) + 1 &&
      d.state.calls == s.calls && (d.status == EscalatedDispatch <==> Attempts(s.attempts, p) >= k.maxRetries) &&
      (d.status == Failure ==> d.state.ctx == s.ctx)
  {
  }
}
