/** What each operation of the user changes, field by field, and what the run does next. */
module Operations {
  import opened Options
  import opened Sequences
  import opened PhaseDag
  import opened Phases
  import opened Checkpoints
  import opened Retries
  import opened Supervisor
  import opened GateSafety
  import opened LinearPipeline
  import opened Rollbacks
  import opened Units

  // ----- the next step -----

  /** What a run that goes on does first: it finishes, waits for the gate before the next phase, or hands that phase
      to the executor as the context stands. */
  ghost predicate GoesOn(k: Config, w: World, s: State) {
    var u := Step(k, w, s);
    match NextPhase(k.dag, s.ctx.completed + s.ctx.excluded)
    case None => u == s.(ctx := s.ctx.(status := Finished))
    case Some(p) =>
      if p in s.ctx.gates.pre && s.ctx.mode != Yolo && s.ctx.gates.pre[p] !in s.ctx.approved then
        u.ctx == s.ctx.(status := AwaitingApproval, pendingGate := Some(s.ctx.gates.pre[p])) && u.trace == s.trace
      else
        |u.trace| > |s.trace| && u.trace[..|s.trace|] == s.trace && u.trace[|s.trace|].Dispatched? &&
        u.trace[|s.trace|].phase == p && u.trace[|s.trace|].at == s.ctx
  }

  lemma RunningGoesOn(k: Config, w: World, s: State)
    requires s.ctx.status == Running
    ensures GoesOn(k, w, s)
  {
    hide NextPhase, Ready, DispatchWithRetries, AfterDispatch;
    var next := NextPhase(k.dag, s.ctx.completed + s.ctx.excluded);
    if next.Some? && (next.value in s.ctx.gates.pre ==> GateSatisfied(s.ctx, s.ctx.gates.pre[next.value])) {
      FirstDispatchIsLogged(k, w, s, next.value);
    }
  }

  // ----- what the executor is told, and what is recorded -----

  /** The executor is told to ask only in the first round of a run that is not yolo, and the implementation phase alone
      is told what it has generated. */
  lemma ExecutorIsTold(k: Config, w: World, s: State, p: Phase)
    requires p in Ready(k.dag, s.ctx.completed + s.ctx.excluded)
    ensures var t := DispatchPhase(k, w, s, p).state;
      var mode := if s.ctx.mode != Yolo && s.ctx.round == 0 then Questions else Assumptions;
      var done := if p == Implementation && p in s.ctx.progress then s.ctx.progress[p] else [];
      t.calls == s.calls + 1 && |t.trace| > |s.trace| &&
      t.trace[|s.trace|] == Dispatched(p, s.ctx, w.execute(s.calls, p, mode, done))
  {
    hide Ready, SaveCompletion, AppendNew;
    DispatchExtendsTrace(k, w, s, p);
  }

  /** Recorded units come after those that were there; none is lost, none made up, and none stands twice. */
  lemma {:induction false} UnitsAreRecordedOnce(have: seq<Path>, more: seq<Path>)
    requires Distinct(have)
    ensures var all := AppendNew(have, more);
      Distinct(all) && have <= all && forall x :: x in all <==> x in have || x in more
    decreases |more|
  {
    if more != [] {
      var next := if more[0] in have then have else have + [more[0]];
      assert Distinct(next) && forall x :: x in next <==> x in have || x == more[0];
      UnitsAreRecordedOnce(next, more[1..]);
      assert more == [more[0]] + more[1..];
    }
  }

  /** And they stand in the order they came in: of one more unit, only a new one is added, at the end. */
  lemma {:induction false} OneMoreUnit(have: seq<Path>, more: seq<Path>, x: Path)
    ensures var all := AppendNew(have, more);
      AppendNew(have, more + [x]) == if x in all then all else all + [x]
    decreases |more|
  {
    if more == [] {
      assert more + [x] == [x] && [x][1..] == [];
    } else {
      assert (more + [x])[1..] == more[1..] + [x];
      OneMoreUnit(if more[0] in have then have else have + [more[0]], more[1..], x);
    }
  }

  // ----- what a dispatch leaves -----

  /** A failure is counted and escalates exactly when it is more than the retries; nothing else changes. */
  lemma FailureIsExact(k: Config, s: State, p: Phase)
    ensures var d := HandleFailure(k, s, p);
      var count := (if p in s.attempts then s.attempts[p] else 0) + 1;
      (d.status == Failure <==> count <= k.maxRetries) && (d.status == EscalatedDispatch <==> count > k.maxRetries) &&
      d.state == s.(attempts := s.attempts[p := count], trace := s.trace + [FailureRecorded(p)],
                    ctx := s.ctx.(status := if count > k.maxRetries then Escalated else s.ctx.status))
  {
  }

  /** After a failure that is not the last one allowed, the run sleeps the base delay doubled for every failure counted
      before it, and dispatches the phase again; any other dispatch is not repeated. */
  lemma RetryIsExact(k: Config, w: World, s: State, p: Phase)
    ensures var d := DispatchPhase(k, w, s, p);
      var e := DispatchWithRetries(k, w, s, p);
      if d.status == Failure then
        p in d.state.attempts && d.state.attempts[p] >= 1 &&
        var delay := k.backoffBase * Pow2(d.state.attempts[p] - 1);
        e == DispatchWithRetries(k, w, d.state.(trace := d.state.trace + [Slept(p, delay)]), p)
      else e == d
  {
    hide Ready, RecordSuccess, RecordUnit;
    var d := DispatchPhase(k, w, s, p);
    if d.status == Failure {
      assert p in d.state.attempts && d.state.attempts[p] >= 1;
      assert BackOff(k, d.state, p) ==
        d.state.(trace := d.state.trace + [Slept(p, k.backoffBase * Pow2(d.state.attempts[p] - 1))]);
      hide DispatchPhase;
    }
  }

  /** A unit adds its artifacts to the phase's progress, in memory and in the store; nothing else changes. */
  lemma UnitIsExact(s: State, p: Phase, artifacts: seq<Path>)
    requires InSync(s)
    ensures var t := RecordUnit(s, p, artifacts);
      var progress := s.ctx.progress[p := AppendNew(if p in s.ctx.progress then s.ctx.progress[p] else [], artifacts)];
      t == s.(ctx := s.ctx.(progress := progress), store := s.store.(progress := progress))
  {
  }

  /** A completion adds the phase with a checkpoint of the artifacts that exist, drops its progress and its counter and,
      after the proposal, selects the phases of the configured or else the assessed tier; in memory and in the store
      alike, and nothing else changes. */
  lemma CompletionIsExact(k: Config, s: State, p: Phase, outcome: Outcome, files: map<Path, Digest>)
    requires outcome.Succeeded? && InSync(s) && Sound(s.store)
    ensures var t := RecordSuccess(k, s, p, outcome, files);
      var tier := if k.tierOverride.Some? then k.tierOverride else outcome.tier;
      var done := Checkpoint(p, map rel | rel in outcome.artifacts && rel in files :: files[rel]);
      t.ctx == s.ctx.(completed := s.ctx.completed + {p}, progress := s.ctx.progress - {p},
                      excluded := if p == Proposal then ExcludedForTier(tier) else s.ctx.excluded) &&
      t.store == s.store.(completed := t.store.completed, stale := t.store.stale, progress := t.ctx.progress,
                          excluded := t.ctx.excluded) &&
      (forall c :: c in t.store.completed <==> c == done || (c in s.store.completed && c.phase != p)) &&
      (forall q :: q in t.store.stale <==> q in s.store.stale && q != p) &&
      t.attempts == s.attempts - {p} && t.calls == s.calls && t.trace == s.trace + [CounterReset(p)]
  {
    hide Sound, SaveCompletion, ExcludedForTier;
    var done := Checkpoint(p, Checksums(outcome.artifacts, files));
    SaveCompletionSound(s.store, done);
    SaveFrame(s.store, done);
    assert p !in s.ctx.progress ==> s.ctx.progress - {p} == s.ctx.progress;
  }

  lemma SaveFrame(st: RunState, c: Checkpoint)
    ensures var t := SaveCompletion(st, c); t == st.(completed := t.completed, stale := t.stale)
  {
  }

  /** After a dispatch: questions of intake in a first round pause the run; else intake is sealed if the file carries a
      contract, and an unapproved gate after the phase pauses the run. */
  lemma PausesAreExact(w: World, d: Dispatch, p: Phase)
    ensures var s, t := d.state, AfterDispatch(w, d, p);
      var gate := p in s.ctx.gates.post && s.ctx.mode != Yolo && s.ctx.gates.post[p] !in s.ctx.approved;
      var seals := p == Intake && d.status == Success && !s.ctx.contractSealed;
      if d.status == EscalatedDispatch then t == s
      else if p == Intake && d.questions != [] && s.ctx.mode != Yolo && s.ctx.round == 0 then
        t == s.(ctx := s.ctx.(status := AwaitingClarification, questions := d.questions),
                store := s.store.(questions := d.questions), trace := s.trace + [ClarificationAsked])
      else
        t.ctx == s.ctx.(contractSealed := s.ctx.contractSealed || (seals && w.contractPresent(s.calls)),
                        status := if gate then AwaitingApproval else s.ctx.status,
                        pendingGate := if gate then Some(s.ctx.gates.post[p]) else s.ctx.pendingGate) &&
        t.store == s.store.(contractSealed := if seals && w.contractPresent(s.calls) then true
                                              else s.store.contractSealed,
                            pendingGate := if gate then Some(s.ctx.gates.post[p]) else s.store.pendingGate) &&
        t == s.(ctx := t.ctx, store := t.store,
                trace := s.trace + if seals then [SealChecked(w.contractPresent(s.calls))] else [])
  {
  }

  // ----- approval -----

  /** A granted approval of the gate the run waits at adds exactly that gate, ends the pause and lets the run go on;
      any other decision changes nothing. */
  lemma ApprovalIsExact(k: Config, w: World, s: State, gate: Gate, granted: bool)
    requires Inv(k, s, None)
    ensures var t := SubmitApproval(s, gate, granted);
      if s.ctx.status == AwaitingApproval && s.ctx.pendingGate == Some(gate) && granted then
        t.ctx == s.ctx.(status := Running, pendingGate := None, approved := s.ctx.approved + {gate}) &&
        t.store == s.store.(pendingGate := None, approved := s.store.approved + {gate}) &&
        t == s.(ctx := t.ctx, store := t.store) && GoesOn(k, w, t)
      else t == s
  {
    hide GoesOn, SafeTrace, GatesHeld, Sound;
    var t := SubmitApproval(s, gate, granted);
    if t.ctx.status == Running {
      RunningGoesOn(k, w, t);
    }
  }

  // ----- overrides -----

  /** A stopped run stays as it was and dispatches nothing, however many steps are made. */
  lemma StoppedRunIsQuiet(k: Config, w: World, s: State, n: nat)
    ensures Stop(s) == s.(ctx := s.ctx.(status := Stopped)) && Steps(k, w, Stop(s), n) == Stop(s)
  {
    hide Steps, Step;
    StoppedStays(k, w, Stop(s), n);
  }

  /** Force-advance approves the gate the run waits at, if any, and lets the run go on; pending questions stay. */
  lemma ForceAdvanceIsExact(k: Config, w: World, s: State)
    requires Inv(k, s, None)
    ensures var t := ForceAdvance(s);
      var more := if s.ctx.pendingGate.Some? then {s.ctx.pendingGate.value} else {};
      t.ctx == s.ctx.(status := Running, pendingGate := None, approved := s.ctx.approved + more) &&
      t.store == s.store.(pendingGate := None, approved := s.store.approved + more) &&
      t == s.(ctx := t.ctx, store := t.store, trace := s.trace + [Overridden]) && GoesOn(k, w, t)
  {
    hide GoesOn, SafeTrace, GatesHeld, Sound;
    RunningGoesOn(k, w, ForceAdvance(s));
    assert s.ctx.approved + {} == s.ctx.approved;
  }

  /** A rollback override drops every pause and lets the run go on with exactly the target and its dependents
      incomplete; approvals, gates, exclusions, the round and the seal stay. */
  lemma RollbackOverrideIsExact(k: Config, w: World, s: State, target: Phase)
    requires ValidConfig(k) && Inv(k, s, None)
    ensures var t := RollbackOverride(k, s, target);
      t.ctx == s.ctx.(status := Running, pendingGate := None, questions := [],
                      completed := t.ctx.completed, progress := t.ctx.progress) &&
      (forall p :: p in t.ctx.completed <==> p in s.ctx.completed && !RolledBack(k.dag, target, p)) &&
      t.store.pendingGate == None && t.store.questions == [] && t.store.approved == s.store.approved &&
      t.store.gates == s.store.gates && t.store.excluded == s.store.excluded && t.store.round == s.store.round &&
      t.store.contractSealed == s.store.contractSealed && t.calls == s.calls && GoesOn(k, w, t)
  {
    hide GoesOn, SafeTrace, GatesHeld, Sound, Affected, RolledBack, Invalidate;
    RunningGoesOn(k, w, RollbackOverride(k, s, target));
    InvalidateFrame(s.store, Affected(k, target));
    forall p ensures p in RollbackOverride(k, s, target).ctx.completed <==>
      p in s.ctx.completed && !RolledBack(k.dag, target, p)
    {
      RollbackIsExact(k, s, target, p);
    }
  }

  lemma InvalidateFrame(st: RunState, drop: seq<Phase>)
    ensures Invalidate(st, drop) ==
      st.(completed := Invalidate(st, drop).completed, stale := Invalidate(st, drop).stale)
  {
  }

  // ----- clarification -----

  /** An accepted clarification sets up intake, and nothing else, for its next round, in which it may not ask, and
      lets the run go on; otherwise nothing changes. */
  lemma ClarificationIsExact(k: Config, w: World, s: State)
    requires ValidConfig(k) && Inv(k, s, None)
    ensures var t := SubmitClarification(s);
      if s.ctx.status == AwaitingClarification && !s.ctx.contractSealed then
        t.ctx == s.ctx.(status := Running, questions := [], round := s.ctx.round + 1,
                        completed := s.ctx.completed - {Intake}) &&
        t.store == s.store.(questions := [], round := s.store.round + 1, completed := t.store.completed,
                            stale := t.store.stale) &&
        Ids(t.store.completed) == t.ctx.completed &&
        (forall p :: p in t.store.stale <==> p in s.store.stale || p == Intake) &&
        t.attempts == s.attempts - {Intake} && t.calls == s.calls &&
        t.trace == s.trace + [CounterReset(Intake), ClarificationReceived] &&
        ClarificationModeOf(t.ctx) == Assumptions && GoesOn(k, w, t)
      else t == s
  {
    hide GoesOn, SafeTrace, GatesHeld, Sound, MarkIncomplete, Invalidate;
    if AcceptsClarification(s.ctx) {
      IntakeUndone(s);
      RunningGoesOn(k, w, SubmitClarification(s));
      InvalidateFrame(s.store, [Intake]);
    }
  }

  lemma IntakeUndone(s: State)
    requires Sound(s.store)
    ensures MarkIncomplete(s, [Intake]) ==
      s.(ctx := s.ctx.(completed := s.ctx.completed - {Intake}), store := Invalidate(s.store, [Intake]),
         attempts := s.attempts - {Intake}, trace := s.trace + [CounterReset(Intake)])
    ensures var st := Invalidate(s.store, [Intake]);
      Ids(st.completed) == Ids(s.store.completed) - {Intake} &&
      forall p :: p in st.stale <==> p in s.store.stale || p == Intake
  {
    hide Sound, Invalidate;
    InvalidateSound(s.store, [Intake]);
    assert Elems([Intake]) == {Intake};
    assert [Intake][..0] == [];
    assert ResetActions([Intake]) == [CounterReset(Intake)];
  }

  // ----- resume -----

  /** What a resume reads back: every persisted field, and the pause that was active, a gate only if it is still
      unapproved; the status is kept when there is none. */
  lemma RehydrationIsExact(ctx: Context, st: RunState)
    ensures var t := Rehydrate(ctx, st);
      var gate := st.pendingGate.Some? && ctx.mode != Yolo && st.pendingGate.value !in st.approved;
      var asks := !gate && st.questions != [];
      t == ctx.(gates := st.gates, approved := st.approved, excluded := st.excluded, round := st.round,
                contractSealed := st.contractSealed, progress := st.progress, completed := Ids(st.completed),
                status := if gate then AwaitingApproval else if asks then AwaitingClarification else ctx.status,
                pendingGate := if gate then st.pendingGate else ctx.pendingGate,
                questions := if asks then st.questions else ctx.questions)
  {
  }

  // ----- tiers -----

  /** A simple tier runs the phases up to implementation, a standard one those up to QA, any other all of them. */
  lemma TierRuns(tier: Option<Tier>, p: Phase)
    ensures p !in ExcludedForTier(tier) <==>
      p.Index() <= (if tier == Some(Simple) then Implementation.Index()
                    else if tier == Some(Standard) then Qa.Index() else Cleanup.Index())
  {
  }

  /** When a run of the default pipeline finishes under a tier, every phase the tier runs has completed. */
  lemma FinishedTierCompletes(k: Config, w: World, s: State, tier: Option<Tier>, p: Phase)
    requires k.dag == LinearDag() && s.ctx.status == Running && s.ctx.excluded == ExcludedForTier(tier)
    requires Step(k, w, s).ctx.status == Finished
    requires p.Index() <= (if tier == Some(Simple) then Implementation.Index()
                           else if tier == Some(Standard) then Qa.Index() else Cleanup.Index())
    ensures p in s.ctx.completed
  {
    hide Step, ExcludedForTier, LinearDag;
    LinearDagIsValid();
    FinishedMeansDone(k, w, s);
    TierRuns(tier, p);
    InLinearDag(p);
  }

  lemma InLinearDag(p: Phase)
    ensures p in LinearDag().deps
  {
    PhaseIdsAreIndexed();
  }
}
