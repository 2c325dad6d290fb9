/** Gate safety, store agreement and pause discipline over whole runs. */
module GateSafety {
  import opened Options
  import opened Sequences
  import opened PhaseDag
  import opened Phases
  import opened Checkpoints
  import opened Supervisor

  // ----- what every operation keeps -----

  /** The store and the live context say the same about everything a resume reads. */
  ghost predicate InSync(s: State) {
    var ctx, st := s.ctx, s.store;
    st.mode == ctx.mode && Ids(st.completed) == ctx.completed && st.gates == ctx.gates &&
    st.approved == ctx.approved && st.excluded == ctx.excluded && st.round == ctx.round &&
    st.contractSealed == ctx.contractSealed && st.progress == ctx.progress &&
    st.pendingGate == ctx.pendingGate && st.questions == ctx.questions
  }

  /** What a status implies about pauses, and what a pause implies about the run. */
  ghost predicate Disciplined(ctx: Context) {
    (ctx.status in {Running, Finished, Escalated} ==> ctx.pendingGate == None && ctx.questions == []) &&
    (ctx.status == AwaitingApproval ==> ctx.pendingGate.Some?) &&
    (ctx.status == AwaitingClarification ==> ctx.questions != []) &&
    (ctx.questions != [] ==> ctx.pendingGate == None && ctx.mode != Yolo && ctx.round == 0) &&
    (ctx.pendingGate.Some? ==> ctx.pendingGate.value !in ctx.approved && ctx.mode != Yolo) &&
    ctx.round <= CLARIFICATION_MAX_ROUNDS
  }

  /** Mode and gates never change during a run. */
  ghost predicate AsRequested(k: Config, ctx: Context) {
    ctx.mode == k.mode && ctx.gates == GateMapsFor(k.mode, k.extraGates)
  }

  /** The post-gate of a completed phase is approved, or the run is paused at it, or intake is
      still waiting for answers. Phase `open` is exempt: its gate has not been looked at yet. */
  ghost predicate GatesHeld(ctx: Context, open: Option<Phase>) {
    forall p :: p in ctx.completed && p in ctx.gates.post && Some(p) != open ==>
      ctx.gates.post[p] in ctx.approved || ctx.pendingGate == Some(ctx.gates.post[p]) ||
      (ctx.questions != [] && p == Intake)
  }

  /** What must hold at the moment a phase is handed to the executor. */
  ghost predicate SafeDispatch(k: Config, p: Phase, at: Context) {
    at.status == Running && at.pendingGate == None && at.questions == [] &&
    IsReady(k.dag, at.completed + at.excluded, p) &&
    (p in at.gates.pre ==> GateSatisfied(at, at.gates.pre[p])) &&
    forall q :: q in at.completed && q in at.gates.post ==> at.gates.post[q] in at.approved
  }

  ghost predicate SafeTrace(k: Config, s: State) {
    forall i :: 0 <= i < |s.trace| && s.trace[i].Dispatched? ==>
      SafeDispatch(k, s.trace[i].phase, s.trace[i].at) && AsRequested(k, s.trace[i].at)
  }

  ghost predicate Inv(k: Config, s: State, open: Option<Phase>) {
    InSync(s) && Sound(s.store) && Disciplined(s.ctx) && AsRequested(k, s.ctx) && GatesHeld(s.ctx, open) &&
      SafeTrace(k, s)
  }

  lemma StartKeeps(k: Config)
    ensures Inv(k, StartRun(k), None)
  {
  }

  // ----- one dispatch -----

  /** `s` may hand `p` to the executor. */
  ghost predicate MayDispatch(k: Config, s: State, p: Phase) {
    s.ctx.status == Running && IsReady(k.dag, s.ctx.completed + s.ctx.excluded, p) &&
    p in Ready(k.dag, s.ctx.completed + s.ctx.excluded) &&
    (p in s.ctx.gates.pre ==> GateSatisfied(s.ctx, s.ctx.gates.pre[p]))
  }

  lemma AfterCallKeeps(k: Config, w: World, s: State, p: Phase)
    requires Inv(k, s, None) && MayDispatch(k, s, p)
    ensures Inv(k, AfterCall(w, s, p), None)
  {
    hide Sound;
  }

  lemma HandleFailureKeeps(k: Config, s: State, p: Phase)
    requires Inv(k, s, None) && s.ctx.status == Running
    ensures Inv(k, HandleFailure(k, s, p).state, None)
  {
    hide SafeDispatch, Sound, GateMapsFor, ResumedStatus, Ids;
  }

  lemma RecordUnitKeeps(k: Config, s: State, p: Phase, artifacts: seq<Path>)
    requires Inv(k, s, None)
    ensures Inv(k, RecordUnit(s, p, artifacts), None)
  {
    hide SafeDispatch;
  }

  lemma CompletePhaseKeeps(k: Config, s: State, p: Phase, checksums: map<Path, Digest>)
    requires Inv(k, s, None)
    ensures Inv(k, CompletePhase(s, p, checksums), Some(p))
  {
    var c := Checkpoint(p, checksums);
    SaveCompletionFacts(s.store, c);
    StoredCompletionKeeps(k, s, p, SaveCompletion(s.store, c));
  }

  lemma StoredCompletionKeeps(k: Config, s: State, p: Phase, stored: RunState)
    requires Inv(k, s, None) && Sound(stored) && Ids(stored.completed) == Ids(s.store.completed) + {p}
    requires stored == s.store.(completed := stored.completed, stale := stored.stale)
    ensures Inv(k, Log(s.(ctx := s.ctx.(completed := s.ctx.completed + {p}), store := stored,
                          attempts := s.attempts - {p}), CounterReset(p)), Some(p))
  {
  }

  lemma SaveCompletionFacts(st: RunState, c: Checkpoint)
    requires Sound(st)
    ensures var after := SaveCompletion(st, c);
      Sound(after) && Ids(after.completed) == Ids(st.completed) + {c.phase} &&
      after == st.(completed := after.completed, stale := after.stale)
  {
    SaveCompletionSound(st, c);
  }

  lemma ClearProgressKeeps(k: Config, s: State, p: Phase, open: Option<Phase>)
    requires Inv(k, s, open)
    ensures Inv(k, ClearProgress(s, p), open)
  {
  }

  lemma AssessTierKeeps(k: Config, s: State, p: Phase, tier: Option<Tier>, open: Option<Phase>)
    requires Inv(k, s, open)
    ensures Inv(k, AssessTier(k, s, p, tier), open)
  {
  }

  lemma RecordSuccessKeeps(k: Config, s: State, p: Phase, outcome: Outcome, files: map<Path, Digest>)
    requires Inv(k, s, None) && outcome.Succeeded?
    ensures Inv(k, RecordSuccess(k, s, p, outcome, files), Some(p))
  {
    var s1 := CompletePhase(s, p, Checksums(outcome.artifacts, files));
    CompletePhaseKeeps(k, s, p, Checksums(outcome.artifacts, files));
    ClearProgressKeeps(k, s1, p, Some(p));
    AssessTierKeeps(k, ClearProgress(s1, p), p, outcome.tier, Some(p));
  }

  /** A dispatch out of the selection step is never blocked, and leaves only the dispatched
      phase's own gate to be looked at. */
  lemma DispatchPhaseKeeps(k: Config, w: World, s: State, p: Phase)
    requires Inv(k, s, None) && MayDispatch(k, s, p)
    ensures var d := DispatchPhase(k, w, s, p);
      d.status != Blocked &&
      (d.status == Success ==> Inv(k, d.state, Some(p)) && d.state.ctx.status == Running) &&
      (d.status != Success ==> Inv(k, d.state, None) && d.questions == []) &&
      (d.status == Failure ==> d.state.ctx == s.ctx) &&
      (d.status == EscalatedDispatch ==> d.state.ctx == s.ctx.(status := Escalated))
  {
    hide SaveCompletion, SafeTrace, Sound, InSync;
    AfterCallKeeps(k, w, s, p);
    var s1 := AfterCall(w, s, p);
    var outcome := w.execute(s.calls, p, ClarificationModeOf(s.ctx), CompletedArtifacts(s.ctx, p));
    if outcome.Succeeded? && !outcome.phaseComplete {
      RecordUnitKeeps(k, s1, p, outcome.artifacts);
    } else if outcome.Succeeded? && outcome.checksPass {
      RecordSuccessKeeps(k, s1, p, outcome, w.workspace(s.calls));
    } else {
      HandleFailureKeeps(k, s1, p);
    }
  }

  lemma BackOffKeeps(k: Config, s: State, p: Phase)
    requires Inv(k, s, None)
    ensures Inv(k, BackOff(k, s, p), None)
  {
  }

  lemma {:induction false} DispatchWithRetriesKeeps(k: Config, w: World, s: State, p: Phase)
    requires Inv(k, s, None) && MayDispatch(k, s, p)
    ensures var d := DispatchWithRetries(k, w, s, p);
      d.status in {Success, EscalatedDispatch} &&
      (d.status == Success ==> Inv(k, d.state, Some(p)) && d.state.ctx.status == Running) &&
      (d.status == EscalatedDispatch ==> Inv(k, d.state, None) && d.state.ctx == s.ctx.(status := Escalated))
    decreases Budget(k, s, p)
  {
    hide Inv, DispatchPhase;
    FailureSpendsBudget(k, w, s, p);
    DispatchPhaseKeeps(k, w, s, p);
    var d := DispatchPhase(k, w, s, p);
    if d.status == Failure {
      BackOffKeeps(k, d.state, p);
      DispatchWithRetriesKeeps(k, w, BackOff(k, d.state, p), p);
    }
  }

  // ----- one step -----

  lemma SealContractKeeps(k: Config, w: World, s: State, open: Option<Phase>)
    requires Inv(k, s, open)
    ensures Inv(k, SealContract(w, s), open)
  {
  }

  lemma PostGateCheckKeeps(k: Config, s: State, p: Phase)
    requires Inv(k, s, Some(p)) && s.ctx.status == Running
    ensures Inv(k, PostGateCheck(s, p), None)
  {
  }

  lemma AfterDispatchKeeps(k: Config, w: World, d: Dispatch, p: Phase)
    requires d.status == Success && Inv(k, d.state, Some(p)) && d.state.ctx.status == Running
    ensures Inv(k, AfterDispatch(w, d, p), None)
  {
    if p == Intake && d.questions != [] && ClarificationModeOf(d.state.ctx) == Questions {
    } else if p == Intake {
      SealContractKeeps(k, w, d.state, Some(p));
      PostGateCheckKeeps(k, SealContract(w, d.state), p);
    } else {
      PostGateCheckKeeps(k, d.state, p);
    }
  }

  lemma SelectedMayDispatch(k: Config, s: State, p: Phase)
    requires s.ctx.status == Running && NextPhase(k.dag, s.ctx.completed + s.ctx.excluded) == Some(p)
    requires p in s.ctx.gates.pre ==> GateSatisfied(s.ctx, s.ctx.gates.pre[p])
    ensures MayDispatch(k, s, p)
  {
    NextPhaseIsReady(k.dag, s.ctx.completed + s.ctx.excluded);
  }

  lemma StepKeeps(k: Config, w: World, s: State)
    requires Inv(k, s, None)
    ensures Inv(k, Step(k, w, s), None)
  {
    hide DispatchWithRetries, SafeDispatch;
    if s.ctx.status == Running {
      var next := NextPhase(k.dag, s.ctx.completed + s.ctx.excluded);
      if next.Some? && (next.value in s.ctx.gates.pre ==> GateSatisfied(s.ctx, s.ctx.gates.pre[next.value])) {
        var p := next.value;
        SelectedMayDispatch(k, s, p);
        DispatchWithRetriesKeeps(k, w, s, p);
        var d := DispatchWithRetries(k, w, s, p);
        if d.status == Success {
          AfterDispatchKeeps(k, w, d, p);
        }
      }
    }
  }

  // ----- user operations -----

  lemma ApproveKeeps(k: Config, s: State)
    requires Inv(k, s, None) && s.ctx.pendingGate.Some?
    ensures Inv(k, Approve(s), None)
  {
  }

  lemma InvalidateFacts(st: RunState, drop: seq<Phase>)
    requires Sound(st)
    ensures Sound(Invalidate(st, drop)) && Ids(Invalidate(st, drop).completed) == Ids(st.completed) - Elems(drop)
  {
    InvalidateSound(st, drop);
  }

  lemma SubmitClarificationKeeps(k: Config, s: State)
    requires Inv(k, s, None)
    ensures Inv(k, SubmitClarification(s), None)
  {
    hide MarkIncomplete;
    if AcceptsClarification(s.ctx) {
      MarkIncompleteKeeps(k, s, [Intake], None);
      var s1 := MarkIncomplete(s, [Intake]);
      MarkIncompleteContext(s, [Intake]);
      assert Elems([Intake]) == {Intake};
    }
  }

  lemma MarkIncompleteContext(s: State, affected: seq<Phase>)
    ensures MarkIncomplete(s, affected).ctx == s.ctx.(completed := s.ctx.completed - Elems(affected))
  {
  }

  lemma {:induction false} NoDispatchInResets(phases: seq<Phase>)
    ensures forall i :: 0 <= i < |ResetActions(phases)| ==> ResetActions(phases)[i].CounterReset?
  {
    if phases != [] {
      NoDispatchInResets(phases[..|phases| - 1]);
    }
  }

  /** The phase whose pause is active: the owner of the pending gate, or intake while it waits for answers. */
  function PausedPhase(ctx: Context): Option<Phase> {
    match ctx.pendingGate
    case Some(PostGate(p)) => Some(p)
    case Some(PreDeployment) => Some(Deployment)
    case Some(UnknownGate(_)) => None
    case None => if ctx.questions != [] then Some(Intake) else None
  }

  /** A rollback leaves no completed phase with an unanswered gate or question behind. */
  ghost predicate RollbackCovers(k: Config, ctx: Context, target: Phase) {
    forall p :: PausedPhase(ctx) == Some(p) && p in ctx.completed ==> p in Affected(k, target)
  }

  lemma MarkIncompleteKeeps(k: Config, s: State, affected: seq<Phase>, open: Option<Phase>)
    requires Inv(k, s, open)
    ensures Inv(k, MarkIncomplete(s, affected), open)
  {
    InvalidateFacts(s.store, affected);
    NoDispatchInResets(affected);
  }

  lemma RollbackKeeps(k: Config, s: State, target: Phase)
    requires Inv(k, s, None)
    ensures Inv(k, Rollback(k, s, target), None)
    ensures var after := Rollback(k, s, target).ctx;
      after == s.ctx.(completed := s.ctx.completed - Elems(Affected(k, target)), progress := after.progress)
  {
    MarkIncompleteKeeps(k, s, Affected(k, target), None);
    var s1 := MarkIncomplete(s, Affected(k, target));
    var cleared := FirstWithProgress(s.ctx.progress, Affected(k, target));
    if cleared.Some? {
      ClearProgressKeeps(k, s1, cleared.value, None);
    }
  }

  lemma RollbackOverrideKeeps(k: Config, s: State, target: Phase)
    requires Inv(k, s, None) && RollbackCovers(k, s.ctx, target)
    ensures Inv(k, RollbackOverride(k, s, target), None)
  {
    RollbackKeeps(k, s, target);
    assert Elems(Affected(k, target)) == set p | p in Affected(k, target);
  }

  /** Exactly when a rollback override keeps every completed gate answered: when the phase that
      paused, if it has completed and its own gate is unanswered, is rolled back with it. */
  lemma RollbackKeepsGatesIff(k: Config, s: State, target: Phase)
    requires Inv(k, s, None)
    ensures GatesHeld(RollbackOverride(k, s, target).ctx, None) <==>
      forall p :: PausedPhase(s.ctx) == Some(p) && p in s.ctx.completed && p in s.ctx.gates.post &&
                  s.ctx.gates.post[p] !in s.ctx.approved
        ==> p in Affected(k, target)
  {
    RollbackKeeps(k, s, target);
    var after := RollbackOverride(k, s, target).ctx;
    forall p | p in s.ctx.completed && p in s.ctx.gates.post && s.ctx.gates.post[p] !in s.ctx.approved
      ensures PausedPhase(s.ctx) == Some(p)
    {
    }
    forall p | PausedPhase(s.ctx) == Some(p) && p in s.ctx.completed && p in s.ctx.gates.post &&
               s.ctx.gates.post[p] !in s.ctx.approved && p !in Affected(k, target)
      ensures !GatesHeld(after, None)
    {
      assert p in after.completed;
    }
  }

  lemma ForceAdvanceKeeps(k: Config, s: State)
    requires Inv(k, s, None) && s.ctx.questions == []
    ensures Inv(k, ForceAdvance(s), None)
  {
    if s.ctx.pendingGate.Some? {
      ApproveKeeps(k, s);
    }
  }

  /** Force-advance keeps the pause discipline exactly when no questions are pending. */
  lemma ForceAdvanceDisciplinedIff(k: Config, s: State)
    requires Inv(k, s, None)
    ensures Disciplined(ForceAdvance(s).ctx) <==> s.ctx.questions == []
  {
    if s.ctx.questions == [] {
      ForceAdvanceKeeps(k, s);
    }
  }

  // ----- resume -----

  lemma RewindKeeps(k: Config, s: State, files: map<Path, Digest>)
    requires Inv(k, s, None)
    ensures Inv(k, Rewind(k, s, files), None)
  {
    var p := EarliestInvalid(s.store.completed, files);
    if p.Some? {
      InvalidateFacts(s.store, Affected(k, p.value));
    }
  }

  /** The status a resumed run shows: the pause that was active, else running. */
  function ResumedStatus(ctx: Context): Status {
    if ctx.pendingGate.Some? then AwaitingApproval
    else if ctx.questions != [] then AwaitingClarification
    else Running
  }

  lemma RehydrateRebuilds(k: Config, s: State)
    requires Inv(k, s, None)
    ensures Rehydrate(FreshContext(s.store.mode), s.store) == s.ctx.(status := ResumedStatus(s.ctx))
    ensures Rehydrate(s.ctx, s.store) ==
      s.ctx.(status := if ResumedStatus(s.ctx) == Running then s.ctx.status else ResumedStatus(s.ctx))
  {
  }

  lemma ResumeKeeps(k: Config, s: State, files: map<Path, Digest>)
    requires Inv(k, s, None)
    ensures Inv(k, ResumeLive(k, s, files), None)
    ensures Inv(k, Restart(k, s, files), None)
  {
    hide Rehydrate, SafeDispatch;
    RehydrateRebuilds(k, s);
    RewindKeeps(k, s.(ctx := Rehydrate(s.ctx, s.store)), files);
    var restarted := Log(s.(ctx := Rehydrate(FreshContext(s.store.mode), s.store), attempts := map[]), Restarted);
    RewindKeeps(k, restarted, files);
  }

  // ----- whole runs -----

  /** The one thing asked of the user: a rollback during a pause goes back at least to the phase
      that paused, and force-advance does not skip pending questions. */
  ghost predicate Permitted(k: Config, s: State, op: Op) {
    match op
    case DoRollback(target) => RollbackCovers(k, s.ctx, target)
    case DoForceAdvance => s.ctx.questions == []
    case _ => true
  }

  ghost predicate PermittedRun(k: Config, w: World, s: State, ops: seq<Op>) {
    forall n :: 0 <= n < |ops| ==> Permitted(k, Run(k, w, s, ops[..n]), ops[n])
  }

  lemma ApplyKeeps(k: Config, w: World, s: State, op: Op)
    requires Inv(k, s, None) && Permitted(k, s, op)
    ensures Inv(k, Apply(k, w, s, op), None)
  {
    match op
    case DoStep => StepKeeps(k, w, s);
    case DoApproval(gate, granted) => if s.ctx.pendingGate.Some? { ApproveKeeps(k, s); }
    case DoClarification => SubmitClarificationKeeps(k, s);
    case DoStop =>
    case DoRollback(target) => RollbackOverrideKeeps(k, s, target);
    case DoForceAdvance => ForceAdvanceKeeps(k, s);
    case DoResumeLive(files) => ResumeKeeps(k, s, files);
    case DoRestart(files) => ResumeKeeps(k, s, files);
  }

  lemma PermittedPrefix(k: Config, w: World, s: State, ops: seq<Op>)
    requires PermittedRun(k, w, s, ops) && ops != []
    ensures PermittedRun(k, w, s, ops[..|ops| - 1])
    ensures Permitted(k, Run(k, w, s, ops[..|ops| - 1]), ops[|ops| - 1])
  {
    var front := ops[..|ops| - 1];
    forall n | 0 <= n < |front| ensures Permitted(k, Run(k, w, s, front[..n]), front[n]) {
      assert front[..n] == ops[..n];
    }
  }

  lemma {:induction false} RunKeeps(k: Config, w: World, s: State, ops: seq<Op>)
    requires Inv(k, s, None) && PermittedRun(k, w, s, ops)
    ensures Inv(k, Run(k, w, s, ops), None)
    decreases |ops|
  {
    if ops != [] {
      PermittedPrefix(k, w, s, ops);
      RunKeeps(k, w, s, ops[..|ops| - 1]);
      ApplyKeeps(k, w, Run(k, w, s, ops[..|ops| - 1]), ops[|ops| - 1]);
    }
  }

  // ----- reachable states -----

  /** One permitted operation leads from state `n` of a history to the next. */
  ghost predicate Linked(k: Config, w: World, history: seq<State>, n: nat)
    requires n + 1 < |history|
  {
    exists op :: Permitted(k, history[n], op) && history[n + 1] == Apply(k, w, history[n], op)
  }

  ghost predicate IsHistory(k: Config, w: World, history: seq<State>, s: State) {
    history != [] && history[0] == StartRun(k) && history[|history| - 1] == s &&
    forall n {:trigger Linked(k, w, history, n)} :: 0 <= n < |history| - 1 ==> Linked(k, w, history, n)
  }

  /** Permitted operations lead from the start of a run to `s`. */
  ghost predicate Reachable(k: Config, w: World, s: State) {
    exists history: seq<State> :: IsHistory(k, w, history, s)
  }

  /** The reachable states are the results of the permitted runs. */
  lemma ReachableIff(k: Config, w: World, s: State)
    ensures Reachable(k, w, s) <==>
      exists ops: seq<Op> :: PermittedRun(k, w, StartRun(k), ops) && Run(k, w, StartRun(k), ops) == s
  {
    hide Run, PermittedRun, IsHistory;
    if Reachable(k, w, s) {
      var history: seq<State> :| IsHistory(k, w, history, s);
      var ops := OpsAlong(k, w, history, s);
    }
    if ops: seq<Op> :| PermittedRun(k, w, StartRun(k), ops) && Run(k, w, StartRun(k), ops) == s {
      var history := HistoryOf(k, w, ops);
    }
  }

  lemma {:induction false} OpsAlong(k: Config, w: World, history: seq<State>, s: State) returns (ops: seq<Op>)
    requires IsHistory(k, w, history, s)
    ensures PermittedRun(k, w, StartRun(k), ops) && Run(k, w, StartRun(k), ops) == s
    decreases |history|
  {
    hide StartRun, Permitted, Apply;
    if |history| == 1 {
      ops := [];
    } else {
      var front := history[..|history| - 1];
      var before := front[|front| - 1];
      assert Linked(k, w, history, |front| - 1);
      var op :| Permitted(k, before, op) && s == Apply(k, w, before, op);
      forall n | 0 <= n < |front| - 1 ensures Linked(k, w, front, n) {
        assert Linked(k, w, history, n);
      }
      var most := OpsAlong(k, w, front, before);
      ops := most + [op];
      PermittedSnoc(k, w, StartRun(k), most, op);
    }
  }

  lemma PermittedSnoc(k: Config, w: World, s: State, ops: seq<Op>, op: Op)
    requires PermittedRun(k, w, s, ops) && Permitted(k, Run(k, w, s, ops), op)
    ensures PermittedRun(k, w, s, ops + [op]) && Run(k, w, s, ops + [op]) == Apply(k, w, Run(k, w, s, ops), op)
  {
    hide Permitted, Apply;
    var longer := ops + [op];
    assert longer[..|ops|] == ops;
    forall n | 0 <= n < |longer| ensures Permitted(k, Run(k, w, s, longer[..n]), longer[n]) {
      if n < |ops| {
        assert longer[..n] == ops[..n];
      }
    }
  }

  lemma {:induction false} HistoryOf(k: Config, w: World, ops: seq<Op>) returns (history: seq<State>)
    requires PermittedRun(k, w, StartRun(k), ops)
    ensures IsHistory(k, w, history, Run(k, w, StartRun(k), ops))
    decreases |ops|
  {
    hide StartRun, Permitted, Apply;
    var s := Run(k, w, StartRun(k), ops);
    if ops == [] {
      history := [s];
    } else {
      PermittedPrefix(k, w, StartRun(k), ops);
      var front := HistoryOf(k, w, ops[..|ops| - 1]);
      history := front + [s];
      forall n | 0 <= n < |front| ensures Linked(k, w, history, n) {
        if n < |front| - 1 {
          assert Linked(k, w, front, n) && history[n] == front[n] && history[n + 1] == front[n + 1];
        } else {
          var op := ops[|ops| - 1];
          assert history[n] == front[n] == Run(k, w, StartRun(k), ops[..|ops| - 1]) && history[n + 1] == s;
          assert Permitted(k, history[n], op) && history[n + 1] == Apply(k, w, history[n], op);
        }
      }
    }
  }

  /** Every reachable state satisfies the invariant. */
  lemma ReachableKeeps(k: Config, w: World, s: State) returns (ops: seq<Op>)
    requires Reachable(k, w, s)
    ensures Inv(k, s, None) && PermittedRun(k, w, StartRun(k), ops) && Run(k, w, StartRun(k), ops) == s
  {
    hide Run, PermittedRun, IsHistory, Inv;
    var history: seq<State> :| IsHistory(k, w, history, s);
    ops := OpsAlong(k, w, history, s);
    StartKeeps(k);
    RunKeeps(k, w, StartRun(k), ops);
  }

  // ----- the theorems -----

  /** In every permitted secure-mode run, no phase is ever handed to the executor while a completed
      proposal, architecture or blueprint is unapproved, and deployment only after pre-deployment
      has been approved. */
  lemma SecureGatesGuardEveryDispatch(k: Config, w: World, s: State, i: nat)
    requires k.mode == Secure && Reachable(k, w, s) && i < |s.trace| && s.trace[i].Dispatched?
    ensures var entry := s.trace[i];
      (forall p :: p in {Proposal, Architecture, Blueprint} && p in entry.at.completed ==>
        PostGate(p) in entry.at.approved) &&
      (entry.phase == Deployment ==> PreDeployment in entry.at.approved)
  {
    hide Run, PermittedRun, Reachable;
    var ops := ReachableKeeps(k, w, s);
    DispatchesAreGuarded(k, s, i);
  }

  lemma DispatchesAreGuarded(k: Config, s: State, i: nat)
    requires k.mode == Secure && Inv(k, s, None) && i < |s.trace| && s.trace[i].Dispatched?
    ensures var entry := s.trace[i];
      (forall p :: p in {Proposal, Architecture, Blueprint} && p in entry.at.completed ==>
        PostGate(p) in entry.at.approved) &&
      (entry.phase == Deployment ==> PreDeployment in entry.at.approved)
  {
    hide Requested;
    var entry := s.trace[i];
    assert SafeDispatch(k, entry.phase, entry.at) && AsRequested(k, entry.at);
    forall p | p in {Proposal, Architecture, Blueprint} && p in entry.at.completed
      ensures PostGate(p) in entry.at.approved
    {
      assert p in {Proposal, Architecture, Blueprint} + Requested(k.extraGates);
      assert p in entry.at.gates.post;
    }
  }

  /** No run hands a phase to the executor that is completed or excluded by the tier, whose prerequisites
      are not done, or while the run is paused, stopped, escalated or finished. */
  lemma EveryDispatchIsReady(k: Config, w: World, s: State, i: nat)
    requires Reachable(k, w, s) && i < |s.trace| && s.trace[i].Dispatched?
    ensures var p, at := s.trace[i].phase, s.trace[i].at;
      at.status == Running && p !in at.completed && p !in at.excluded && p in k.dag.deps &&
      forall d :: d in k.dag.deps[p] ==> d in at.completed || d in at.excluded
  {
    hide Run, PermittedRun, Reachable;
    var ops := ReachableKeeps(k, w, s);
    assert SafeDispatch(k, s.trace[i].phase, s.trace[i].at);
  }

  /** When all stored checksums still match, a new process rebuilds the live run exactly: the whole
      context up to a stopped, escalated or finished status, and the store unchanged. */
  lemma RestartRebuildsRun(k: Config, w: World, live: State, files: map<Path, Digest>)
    requires Reachable(k, w, live) && forall c :: c in live.store.completed ==> CheckpointValid(c, files)
    ensures var back := Restart(k, live, files);
      back.ctx == live.ctx.(status := ResumedStatus(live.ctx)) && back.store == live.store &&
      (live.ctx.status in {Running, AwaitingApproval, AwaitingClarification} ==> back.ctx == live.ctx)
  {
    hide Run, PermittedRun, Reachable;
    var ops := ReachableKeeps(k, w, live);
    RehydrateRebuilds(k, live);
    EarliestInvalidIsFirst(live.store.completed, files);
  }

  /** The stored completed list stays strictly in canonical order and disjoint from the stale list,
      and it is the completed set in memory. */
  lemma StoreStaysSound(k: Config, w: World, s: State)
    requires Reachable(k, w, s)
    ensures Sound(s.store) && Ids(s.store.completed) == s.ctx.completed
  {
    hide Run, PermittedRun, Reachable;
    var ops := ReachableKeeps(k, w, s);
  }

  /** A yolo run never pauses for a gate or for questions. */
  lemma YoloNeverPauses(k: Config, w: World, s: State)
    requires k.mode == Yolo && Reachable(k, w, s)
    ensures s.ctx.status !in {AwaitingApproval, AwaitingClarification} && s.ctx.pendingGate == None &&
      s.ctx.questions == []
  {
    hide Run, PermittedRun, Reachable;
    var ops := ReachableKeeps(k, w, s);
  }
}
