/** Crashes between the store writes of one operation, and what survives a crash in a step. */
module Crashes {
  import opened Options
  import opened PhaseDag
  import opened Phases
  import opened Checkpoints
  import opened Supervisor
  import opened GateSafety
  import opened LinearPipeline
  import opened IntakeSafety
  import opened Rollbacks
  import opened Writes

  // ----- the store after some of an operation's writes -----

  const STEP_WRITES := 5

  /** A step saves, in this order, the completion, the unit progress, the exclusions, the seal and the pause. */
  function AfterStepWrites(before: RunState, after: RunState, n: nat): RunState {
    if n >= STEP_WRITES then after else
    before.(completed := if n >= 1 then after.completed else before.completed,
            stale := if n >= 1 then after.stale else before.stale,
            progress := if n >= 2 then after.progress else before.progress,
            excluded := if n >= 3 then after.excluded else before.excluded,
            contractSealed := if n >= 4 then after.contractSealed else before.contractSealed)
  }

  /** How far an operation got: its writes, its history, and its executor calls. Any history of the step may stand
      beside any number of writes, which covers dying between two retries. */
  datatype CrashPoint = CrashPoint(writes: nat, events: nat, calls: nat)

  /** The process dies in a step. */
  function CrashedInStep(k: Config, w: World, s: State, at: CrashPoint): State {
    var t := Step(k, w, s);
    var n := |s.trace| + at.events;
    s.(store := AfterStepWrites(s.store, t.store, at.writes), calls := at.calls,
       trace := if n < |t.trace| then t.trace[..n] else t.trace)
  }

  const ROLLBACK_WRITES := 3

  /** A rollback override saves the invalidation, the unit progress and the cleared pause. */
  function AfterRollbackWrites(before: RunState, after: RunState, n: nat): RunState {
    if n >= ROLLBACK_WRITES then after else
    before.(completed := if n >= 1 then after.completed else before.completed,
            stale := if n >= 1 then after.stale else before.stale,
            progress := if n >= 2 then after.progress else before.progress)
  }

  ghost function CrashedInRollback(k: Config, s: State, target: Phase, n: nat): State {
    s.(store := AfterRollbackWrites(s.store, RollbackOverride(k, s, target).store, n))
  }

  /** Between the two writes of a clarification intake is already invalidated, and the questions are still there. */
  function CrashedInClarification(s: State): State {
    s.(store := Invalidate(s.store, [Intake]))
  }

  /** Between the two writes of a start the run has no gates yet. */
  function CrashedInStart(k: Config): State {
    StartRun(k).(store := NewRunState(k.mode))
  }

  // ----- these are the stores the operations write -----

  /** Each store changes fields the ones before it left alone. */
  predicate InOrder(a: RunState, b: RunState, c: RunState, d: RunState, e: RunState, f: RunState) {
    b == a.(completed := b.completed, stale := b.stale) && c == b.(progress := c.progress) &&
    d == c.(excluded := d.excluded) && e == d.(contractSealed := e.contractSealed) &&
    f == e.(pendingGate := f.pendingGate, questions := f.questions)
  }

  lemma WritesCompose(a: RunState, b: RunState, c: RunState, d: RunState, e: RunState, f: RunState)
    requires InOrder(a, b, c, d, e, f)
    ensures AfterStepWrites(a, f, 0) == a && AfterStepWrites(a, f, 1) == b && AfterStepWrites(a, f, 2) == c
    ensures AfterStepWrites(a, f, 3) == d && AfterStepWrites(a, f, 4) == e && AfterStepWrites(a, f, 5) == f
  {
  }

  /** The store before and the entries written are exactly the stores after some number of writes. */
  ghost predicate Stepwise(before: RunState, after: RunState, writes: seq<RunState>) {
    forall st :: st == before || st in writes <==> IsAfterWrites(before, after, st)
  }

  ghost predicate IsAfterWrites(before: RunState, after: RunState, st: RunState) {
    exists n :: 0 <= n <= STEP_WRITES && st == AfterStepWrites(before, after, n)
  }

  lemma StepwiseInOrder(a: RunState, b: RunState, c: RunState, d: RunState, e: RunState, f: RunState,
                        writes: seq<RunState>)
    requires InOrder(a, b, c, d, e, f)
    requires forall st :: st == a || st in writes <==> st == a || st == b || st == c || st == d || st == e || st == f
    ensures Stepwise(a, f, writes)
  {
    hide InOrder, AfterStepWrites;
    WritesCompose(a, b, c, d, e, f);
    forall st ensures st == a || st in writes <==> IsAfterWrites(a, f, st) {
      if IsAfterWrites(a, f, st) {
        var n :| 0 <= n <= STEP_WRITES && st == AfterStepWrites(a, f, n);
        assert n == 0 || n == 1 || n == 2 || n == 3 || n == 4 || n == 5;
      }
      if st == a || st in writes {
        assert st == AfterStepWrites(a, f, 0) || st == AfterStepWrites(a, f, 1) || st == AfterStepWrites(a, f, 2) ||
               st == AfterStepWrites(a, f, 3) || st == AfterStepWrites(a, f, 4) || st == AfterStepWrites(a, f, 5);
      }
    }
  }

  lemma SaveOnlyLists(st: RunState, c: Checkpoint)
    ensures var t := SaveCompletion(st, c); t == st.(completed := t.completed, stale := t.stale)
  {
  }

  /** What a dispatch writes, up to the exclusions. */
  lemma DispatchInOrder(k: Config, w: World, s: State, p: Phase) returns (b: RunState, c: RunState)
    ensures var d := DispatchPhase(k, w, s, p).state.store;
      InOrder(s.store, b, c, d, d, d) &&
      forall st :: st == s.store || st in DispatchWrites(k, w, s, p) <==> st == s.store || st == b || st == c || st == d
  {
    hide Ready, RecordSuccess, SuccessWrites, InOrder, RecordUnit, ClarificationModeOf, CompletedArtifacts;
    var outcome := w.execute(s.calls, p, ClarificationModeOf(s.ctx), CompletedArtifacts(s.ctx, p));
    b, c := s.store, s.store;
    NothingInOrder(s.store);
    if p in Ready(k.dag, s.ctx.completed + s.ctx.excluded) && outcome.Succeeded? {
      if !outcome.phaseComplete {
        c := UnitInOrder(AfterCall(w, s, p), p, outcome.artifacts);
      } else if outcome.checksPass {
        b, c := SuccessInOrder(k, AfterCall(w, s, p), p, outcome, w.workspace(s.calls));
      }
    }
  }

  lemma NothingInOrder(a: RunState)
    ensures InOrder(a, a, a, a, a, a)
  {
  }

  lemma UnitInOrder(s: State, p: Phase, artifacts: seq<Path>) returns (c: RunState)
    ensures c == RecordUnit(s, p, artifacts).store && InOrder(s.store, s.store, c, c, c, c)
  {
    hide AppendNew;
    c := RecordUnit(s, p, artifacts).store;
  }

  lemma SuccessInOrder(k: Config, s: State, p: Phase, outcome: Outcome, files: map<Path, Digest>)
    returns (b: RunState, c: RunState)
    requires outcome.Succeeded?
    ensures var d := RecordSuccess(k, s, p, outcome, files).store;
      InOrder(s.store, b, c, d, d, d) &&
      forall st :: st == s.store || st in SuccessWrites(k, s, p, outcome, files) <==>
        st == s.store || st == b || st == c || st == d
  {
    hide RecordSuccess, SuccessWrites, CompletePhase, Finish, FinishWrites;
    var checksums := Checksums(outcome.artifacts, files);
    var completed := CompletePhase(s, p, checksums);
    SuccessUnfolds(k, s, p, outcome, files);
    FinishUnfolds(s, p, checksums);
    CompletionFrame(s, p, checksums);
    b, c := completed.store, ClearProgress(completed, p).store;
  }

  lemma CompletionFrame(s: State, p: Phase, checksums: map<Path, Digest>)
    ensures var t := CompletePhase(s, p, checksums).store;
      t == s.store.(completed := t.completed, stale := t.stale)
  {
    hide SaveCompletion;
    SaveOnlyLists(s.store, Checkpoint(p, checksums));
  }

  lemma {:induction false} RetriesInOrder(k: Config, w: World, s: State, p: Phase) returns (b: RunState, c: RunState)
    ensures var d := DispatchWithRetries(k, w, s, p).state.store;
      InOrder(s.store, b, c, d, d, d) &&
      forall st :: st == s.store || st in RetriesWrites(k, w, s, p) <==> st == s.store || st == b || st == c || st == d
    decreases Budget(k, s, p)
  {
    hide DispatchPhase, DispatchWrites, RetriesWrites, DispatchWithRetries, InOrder;
    RetriesUnfold(k, w, s, p);
    var d := DispatchPhase(k, w, s, p);
    if d.status == Failure {
      FailureKeepsStore(k, w, s, p);
      b, c := RetriesInOrder(k, w, BackOff(k, d.state, p), p);
    } else {
      b, c := DispatchInOrder(k, w, s, p);
    }
  }

  lemma FailureKeepsStore(k: Config, w: World, s: State, p: Phase)
    ensures DispatchPhase(k, w, s, p).status == Failure ==> DispatchPhase(k, w, s, p).state.store == s.store
  {
    hide Ready, SaveCompletion;
  }

  /** What follows a dispatch writes the seal and then the pause. */
  lemma AfterInOrder(w: World, d: Dispatch, p: Phase) returns (e: RunState)
    ensures var f := AfterDispatch(w, d, p).store;
      e == d.state.store.(contractSealed := e.contractSealed) &&
      f == e.(pendingGate := f.pendingGate, questions := f.questions) &&
      forall st :: st == d.state.store || st in AfterWrites(w, d, p) <==> st == d.state.store || st == e || st == f
  {
    e := if d.status != EscalatedDispatch && p == Intake && d.status == Success &&
            !(d.questions != [] && ClarificationModeOf(d.state.ctx) == Questions)
         then SealContract(w, d.state).store else d.state.store;
  }

  /** The stores a crash in a step can leave are exactly those the step writes, and the one before it. */
  lemma StepIsStepwise(k: Config, w: World, s: State)
    ensures Stepwise(s.store, Step(k, w, s).store, StepWrites(k, w, s))
  {
    hide DispatchWithRetries, RetriesWrites, AfterDispatch, AfterWrites, NextPhase, Stepwise, InOrder;
    var f := Step(k, w, s).store;
    var next := NextPhase(k.dag, s.ctx.completed + s.ctx.excluded);
    if s.ctx.status != Running || next == None {
      Unchanged(s.store);
    } else if next.value in s.ctx.gates.pre && !GateSatisfied(s.ctx, s.ctx.gates.pre[next.value]) {
      PauseIsInOrder(s, s.ctx.gates.pre[next.value]);
      StepwiseInOrder(s.store, s.store, s.store, s.store, s.store, f, StepWrites(k, w, s));
    } else {
      var p := next.value;
      var d := DispatchWithRetries(k, w, s, p);
      var b, c := RetriesInOrder(k, w, s, p);
      var e := AfterInOrder(w, d, p);
      OrderJoins(s.store, b, c, d.state.store, e, f);
      StepwiseInOrder(s.store, b, c, d.state.store, e, f, StepWrites(k, w, s));
    }
  }

  lemma Unchanged(a: RunState)
    ensures Stepwise(a, a, [])
  {
    NothingInOrder(a);
    StepwiseInOrder(a, a, a, a, a, a, []);
  }

  lemma PauseIsInOrder(s: State, gate: Gate)
    ensures InOrder(s.store, s.store, s.store, s.store, s.store, PauseForGate(s, gate).store)
  {
  }

  lemma OrderJoins(a: RunState, b: RunState, c: RunState, d: RunState, e: RunState, f: RunState)
    requires InOrder(a, b, c, d, d, d) && e == d.(contractSealed := e.contractSealed)
    requires f == e.(pendingGate := f.pendingGate, questions := f.questions)
    ensures InOrder(a, b, c, d, e, f)
  {
  }

  /** The stores a rollback override writes, in order. */
  lemma OverrideIsStepwise(k: Config, s: State, target: Phase)
    ensures var after := RollbackOverride(k, s, target).store;
      forall st :: st == s.store || st in OverrideWrites(k, s, target) <==>
        exists n :: 0 <= n <= ROLLBACK_WRITES && st == AfterRollbackWrites(s.store, after, n)
  {
    hide Affected, Invalidate;
    var after := RollbackOverride(k, s, target).store;
    InvalidateOnlyLists(s.store, Affected(k, target));
    OverrideStores(k, s, target);
    forall st ensures st == s.store || st in OverrideWrites(k, s, target) <==>
      exists n :: 0 <= n <= ROLLBACK_WRITES && st == AfterRollbackWrites(s.store, after, n)
    {
      var a, b, c, d := AfterRollbackWrites(s.store, after, 0), AfterRollbackWrites(s.store, after, 1),
        AfterRollbackWrites(s.store, after, 2), AfterRollbackWrites(s.store, after, 3);
      if n :| 0 <= n <= ROLLBACK_WRITES && st == AfterRollbackWrites(s.store, after, n) {
        assert n == 0 || n == 1 || n == 2 || n == 3;
      }
      assert st == a || st == b || st == c || st == d ==>
        exists n :: 0 <= n <= ROLLBACK_WRITES && st == AfterRollbackWrites(s.store, after, n);
    }
  }

  lemma OverrideStores(k: Config, s: State, target: Phase)
    ensures var after := RollbackOverride(k, s, target).store;
      AfterRollbackWrites(s.store, after, 0) == s.store && AfterRollbackWrites(s.store, after, 3) == after &&
      forall st :: st in OverrideWrites(k, s, target) <==>
        st == AfterRollbackWrites(s.store, after, 1) || st == AfterRollbackWrites(s.store, after, 2) || st == after
  {
    hide Affected, Invalidate;
    InvalidateOnlyLists(s.store, Affected(k, target));
  }

  /** The stores in a clarification and in a start are those the model of a crash in them uses. */
  lemma OtherWrites(k: Config, s: State)
    ensures AcceptsClarification(s.ctx) ==>
      ClarificationWrites(s) == [CrashedInClarification(s).store, SubmitClarification(s).store]
    ensures StartWrites(k) == [CrashedInStart(k).store, StartRun(k).store]
  {
    hide Invalidate;
  }

  // ----- everything but the gates survives -----

  ghost predicate InvButGates(k: Config, s: State) {
    InSync(s) && Sound(s.store) && Disciplined(s.ctx) && AsRequested(k, s.ctx) && SafeTrace(k, s)
  }

  /** A state in memory that agrees with the store. */
  function Synced(s: State): State {
    var st := s.store;
    s.(ctx := s.ctx.(completed := Ids(st.completed), progress := st.progress, excluded := st.excluded,
                     contractSealed := st.contractSealed, questions := st.questions, pendingGate := st.pendingGate,
                     status := ResumedStatus(s.ctx.(questions := st.questions, pendingGate := st.pendingGate))))
  }

  lemma SyncedRestarts(k: Config, s: State, files: map<Path, Digest>)
    ensures Restart(k, Synced(s), files) == Restart(k, s, files)
  {
    hide Rehydrate, EarliestInvalid, Invalidate, Affected;
  }

  /** A restart keeps all of that, and reads everything from the store but what it rewinds. */
  lemma RestartKeepsButGates(k: Config, s: State, files: map<Path, Digest>)
    requires ValidConfig(k) && InvButGates(k, s)
    ensures var back := Restart(k, s, files);
      InvButGates(k, back) && back.trace == s.trace + [Restarted] &&
      back.ctx == s.ctx.(completed := back.ctx.completed, status := ResumedStatus(s.ctx)) &&
      forall p :: p in back.ctx.completed <==> p in s.ctx.completed && !Rewound(k, s, files, p)
  {
    hide Rehydrate, Affected, EarliestInvalid, Invalidate, SafeDispatch, Rewound, Rewind;
    SyncedRebuilds(s);
    var loaded := Log(s.(ctx := s.ctx.(status := ResumedStatus(s.ctx)), attempts := map[]), Restarted);
    RewindKeepsButGates(k, loaded, files);
    forall p ensures p in Rewind(k, loaded, files).ctx.completed <==> p in s.ctx.completed && !Rewound(k, s, files, p) {
      RewindDrops(k, loaded, files, p);
      SameStoreRewound(k, s, loaded, files, p);
    }
  }

  lemma RewindKeepsButGates(k: Config, s: State, files: map<Path, Digest>)
    requires InvButGates(k, s)
    ensures var back := Rewind(k, s, files);
      InvButGates(k, back) && back.trace == s.trace && back.ctx == s.ctx.(completed := back.ctx.completed)
  {
    hide Affected, EarliestInvalid, Invalidate, SafeDispatch;
    var bad := EarliestInvalid(s.store.completed, files);
    if bad.Some? {
      InvalidateFacts(s.store, Affected(k, bad.value));
      InvalidateOnlyLists(s.store, Affected(k, bad.value));
    }
  }

  lemma SyncedRebuilds(s: State)
    requires InSync(s) && Disciplined(s.ctx)
    ensures Rehydrate(FreshContext(s.store.mode), s.store) == s.ctx.(status := ResumedStatus(s.ctx))
  {
  }

  // ----- a crash in a step -----

  /** The step completes `p`, whose gate is unapproved; the crash falls between saving the completion and saving the
      pause; and the restart finds nothing changed that `p` is or depends on. */
  ghost predicate GateLost(k: Config, w: World, s: State, at: CrashPoint, files: map<Path, Digest>, p: Phase) {
    1 <= at.writes < STEP_WRITES && p in Step(k, w, s).ctx.completed && p !in s.ctx.completed &&
    p in s.ctx.gates.post && s.ctx.gates.post[p] !in s.ctx.approved &&
    !Rewound(k, CrashedInStep(k, w, s, at), files, p)
  }

  /** A crash in a step keeps the whole invariant over the restart, and with it gate safety, exactly when it
      loses no gate. */
  lemma CrashInStepKeepsInvIff(k: Config, w: World, s: State, at: CrashPoint, files: map<Path, Digest>)
    requires ValidConfig(k) && Inv(k, s, None) && s.ctx.status == Running
    ensures Inv(k, Restart(k, CrashedInStep(k, w, s, at), files), None) <==>
      forall p :: !GateLost(k, w, s, at, files, p)
  {
    hide Step, Restart, SafeDispatch, Sound, Rewound, CrashedInStep;
    var crashed := CrashedInStep(k, w, s, at);
    StepKeeps(k, w, s);
    if at.writes >= STEP_WRITES {
      CrashedStore(k, w, s, at);
      CrashedHistory(k, w, s, at);
      StoreDecides(k, Step(k, w, s), crashed, files);
    } else {
      CrashedContext(k, w, s, at, files);
      GatesHeldIff(k, w, s, at, files);
    }
  }

  lemma CrashedStore(k: Config, w: World, s: State, at: CrashPoint)
    ensures CrashedInStep(k, w, s, at).store == AfterStepWrites(s.store, Step(k, w, s).store, at.writes)
  {
    hide Step;
  }

  /** What a crash leaves of the history of a step is a part of it. */
  lemma CrashedHistory(k: Config, w: World, s: State, at: CrashPoint)
    requires SafeTrace(k, Step(k, w, s))
    ensures SafeTrace(k, CrashedInStep(k, w, s, at))
    ensures CrashedInStep(k, w, s, at).trace <= Step(k, w, s).trace
  {
    hide Step, SafeDispatch;
  }

  /** The context after the restart, from the step's. */
  lemma CrashedContext(k: Config, w: World, s: State, at: CrashPoint, files: map<Path, Digest>)
    requires ValidConfig(k) && Inv(k, s, None) && s.ctx.status == Running && at.writes < STEP_WRITES
    ensures var t := Step(k, w, s).ctx;
      var back := Restart(k, CrashedInStep(k, w, s, at), files);
      InvButGates(k, back) && back.trace == CrashedInStep(k, w, s, at).trace + [Restarted] &&
      back.ctx == s.ctx.(
        completed := back.ctx.completed,
        progress := if at.writes >= 2 then t.progress else s.ctx.progress,
        excluded := if at.writes >= 3 then t.excluded else s.ctx.excluded,
        contractSealed := if at.writes >= 4 then t.contractSealed else s.ctx.contractSealed) &&
      forall p :: p in back.ctx.completed <==>
        p in (if at.writes >= 1 then t.completed else s.ctx.completed) &&
        !Rewound(k, CrashedInStep(k, w, s, at), files, p)
  {
    hide Step, Restart, SafeDispatch, Rewound, GatesHeld, SafeTrace;
    var crashed := CrashedInStep(k, w, s, at);
    StepKeeps(k, w, s);
    CrashedButGates(k, w, s, at);
    SyncedRestarts(k, crashed, files);
    RestartKeepsButGates(k, Synced(crashed), files);
    forall p ensures Rewound(k, crashed, files, p) == Rewound(k, Synced(crashed), files, p) {
      SameStoreRewound(k, crashed, Synced(crashed), files, p);
    }
  }

  lemma CrashedButGates(k: Config, w: World, s: State, at: CrashPoint)
    requires Inv(k, s, None) && s.ctx.status == Running && at.writes < STEP_WRITES
    ensures InvButGates(k, Synced(CrashedInStep(k, w, s, at)))
  {
    hide Step, SafeDispatch, Sound, SafeTrace;
    StepKeeps(k, w, s);
    CrashedHistory(k, w, s, at);
    var crashed := CrashedInStep(k, w, s, at);
    SameListsSound(if at.writes >= 1 then Step(k, w, s).store else s.store, crashed.store);
    SameTraceSafe(k, crashed, Synced(crashed));
  }

  lemma SameTraceSafe(k: Config, s: State, t: State)
    requires SafeTrace(k, s) && s.trace == t.trace
    ensures SafeTrace(k, t)
  {
  }

  lemma SameListsSound(st: RunState, other: RunState)
    requires Sound(st) && st.completed == other.completed && st.stale == other.stale
    ensures Sound(other)
  {
  }

  lemma GatesHeldIff(k: Config, w: World, s: State, at: CrashPoint, files: map<Path, Digest>)
    requires ValidConfig(k) && Inv(k, s, None) && s.ctx.status == Running && at.writes < STEP_WRITES
    ensures var back := Restart(k, CrashedInStep(k, w, s, at), files);
      GatesHeld(back.ctx, None) <==> forall p :: !GateLost(k, w, s, at, files, p)
  {
    hide Step, Restart, SafeDispatch, Rewound, CrashedInStep, SafeTrace, Sound, InSync;
    CrashedContext(k, w, s, at, files);
    var back := Restart(k, CrashedInStep(k, w, s, at), files);
    if GatesHeld(back.ctx, None) {
      forall p ensures !GateLost(k, w, s, at, files, p) {
      }
    }
    if forall p :: !GateLost(k, w, s, at, files, p) {
      forall p | p in back.ctx.completed && p in back.ctx.gates.post
        ensures back.ctx.gates.post[p] in back.ctx.approved
      {
        assert !GateLost(k, w, s, at, files, p);
      }
    }
  }

  /** What a caller can see beforehand: a crash is harmless before the first write, after the last one, and
      whenever the phase that is next has no unapproved gate. */
  lemma HarmlessWithoutGate(k: Config, w: World, s: State, at: CrashPoint, files: map<Path, Digest>)
    requires s.ctx.status == Running
    requires at.writes == 0 || at.writes >= STEP_WRITES || NoGateNext(k, s.ctx)
    ensures forall p :: !GateLost(k, w, s, at, files, p)
  {
    hide Step, CrashedInStep, Rewound, NextPhase;
    forall p | p in Step(k, w, s).ctx.completed && p !in s.ctx.completed
      ensures NextPhase(k.dag, s.ctx.completed + s.ctx.excluded) == Some(p)
    {
      OnlyNextCompletes(k, w, s, p);
    }
  }

  predicate NoGateNext(k: Config, ctx: Context) {
    var next := NextPhase(k.dag, ctx.completed + ctx.excluded);
    next == None || next.value !in ctx.gates.post || ctx.gates.post[next.value] in ctx.approved
  }

  lemma OnlyNextCompletes(k: Config, w: World, s: State, p: Phase)
    requires s.ctx.status == Running && p in Step(k, w, s).ctx.completed && p !in s.ctx.completed
    ensures NextPhase(k.dag, s.ctx.completed + s.ctx.excluded) == Some(p)
  {
    hide DispatchWithRetries, AfterDispatch, NextPhase, Ready;
    var next := NextPhase(k.dag, s.ctx.completed + s.ctx.excluded).value;
    NextPhaseIsReady(k.dag, s.ctx.completed + s.ctx.excluded);
    ReadyIsDispatched(k, w, s, next);
    var d := DispatchWithRetries(k, w, s, next);
    if d.status == EscalatedDispatch {
      EscalatedStep(w, d, next);
    } else {
      var n := RetriesEffect(k, w, s, next);
      AfterDispatchEffect(w, d, next);
    }
  }

  lemma SameStoreRestarts(k: Config, s: State, t: State, files: map<Path, Digest>)
    requires s.store == t.store && s.trace == t.trace && s.calls == t.calls
    ensures Restart(k, s, files) == Restart(k, t, files)
  {
    hide Rehydrate, EarliestInvalid, Invalidate, Affected;
  }

  /** The step completes intake on an unsealed contract; the crash falls between saving that and saving the seal, or
      the questions that are to precede it; and the restart keeps intake. */
  ghost predicate SealLost(k: Config, w: World, s: State, at: CrashPoint, files: map<Path, Digest>) {
    1 <= at.writes < STEP_WRITES && Intake in Step(k, w, s).ctx.completed && Intake !in s.ctx.completed &&
    !s.ctx.contractSealed && (at.writes < STEP_WRITES - 1 || Step(k, w, s).ctx.questions != []) &&
    !Rewound(k, CrashedInStep(k, w, s, at), files, Intake)
  }

  /** On a markered file, a crash in a step leaves no completed and answered intake unsealed exactly when it does
      not lose the seal. */
  lemma CrashInStepKeepsSealIff(k: Config, w: World, s: State, at: CrashPoint, files: map<Path, Digest>)
    requires ValidConfig(k) && AlwaysMarkered(w) && Inv(k, s, None) && IntakeInv(s, None, true)
    requires s.ctx.status == Running
    ensures SealedAfterIntake(Restart(k, CrashedInStep(k, w, s, at), files), None) <==> !SealLost(k, w, s, at, files)
  {
    hide Step, Restart, SafeDispatch, Sound, ClarifiedOnce, SafeTrace, Rewound, GatesHeld, CrashedInStep;
    var crashed := CrashedInStep(k, w, s, at);
    var t := Step(k, w, s);
    StepKeeps(k, w, s);
    StepIntake(k, w, s, true);
    StepKeepsSeal(k, w, s);
    CrashedHistory(k, w, s, at);
    if at.writes >= STEP_WRITES {
      CrashedStore(k, w, s, at);
      SealedStoreDecides(k, t, crashed, files);
    } else {
      CrashedContext(k, w, s, at, files);
      if t.ctx.questions != [] {
        AskingDoesNotSeal(k, w, s);
      }
    }
  }

  lemma SealedStoreDecides(k: Config, s: State, t: State, files: map<Path, Digest>)
    requires Inv(k, s, None) && IntakeInv(s, None, true) && s.store == t.store && t.trace <= s.trace
    ensures SealedAfterIntake(Restart(k, t, files), None)
  {
    hide Restart, SafeDispatch, SafeTrace, GatesHeld, Sound;
    var u := s.(trace := t.trace, calls := t.calls);
    assert SafeTrace(k, u) by {
      PrefixIsSafe(k, s, u);
    }
    SameStoreRestarts(k, u, t, files);
    ResumeIntake(k, u, files, true);
  }

  lemma PrefixIsSafe(k: Config, s: State, t: State)
    requires SafeTrace(k, s) && t.trace <= s.trace
    ensures SafeTrace(k, t)
  {
  }

  /** A crash in a step keeps the unit progress exactly when it was saved, or did not change: a unit that is generated
      and not saved is generated again. */
  lemma CrashInStepKeepsProgressIff(k: Config, w: World, s: State, at: CrashPoint, files: map<Path, Digest>)
    requires ValidConfig(k) && Inv(k, s, None) && s.ctx.status == Running
    ensures var t := Step(k, w, s);
      Restart(k, CrashedInStep(k, w, s, at), files).ctx.progress == t.ctx.progress <==>
        at.writes >= 2 || s.ctx.progress == t.ctx.progress
  {
    hide Step, Restart, Rewound, CrashedInStep;
    StepKeeps(k, w, s);
    if at.writes < STEP_WRITES {
      CrashedContext(k, w, s, at, files);
    } else {
      CrashedStore(k, w, s, at);
      LoadedFields(k, CrashedInStep(k, w, s, at), files);
    }
  }

  /** A crash in a step that completes the proposal leaves it completed under the old exclusions, so that the tier's
      phases are dispatched later, exactly when it falls between saving the completion and saving the exclusions. */
  lemma CrashInStepKeepsTierIff(k: Config, w: World, s: State, at: CrashPoint, files: map<Path, Digest>)
    requires ValidConfig(k) && Inv(k, s, None) && s.ctx.status == Running
    requires Proposal in Step(k, w, s).ctx.completed && Proposal !in s.ctx.completed
    ensures var t, back := Step(k, w, s).ctx, Restart(k, CrashedInStep(k, w, s, at), files).ctx;
      (Proposal in back.completed ==> back.excluded == t.excluded) <==>
        !(1 <= at.writes < 3 && s.ctx.excluded != t.excluded &&
          !Rewound(k, CrashedInStep(k, w, s, at), files, Proposal))
  {
    hide Step, Restart, Rewound, CrashedInStep;
    StepKeeps(k, w, s);
    if at.writes < STEP_WRITES {
      CrashedContext(k, w, s, at, files);
    } else {
      CrashedStore(k, w, s, at);
      LoadedFields(k, CrashedInStep(k, w, s, at), files);
    }
  }

  lemma LoadedFields(k: Config, s: State, files: map<Path, Digest>)
    ensures var back := Restart(k, s, files).ctx;
      back.progress == s.store.progress && back.excluded == s.store.excluded
  {
    hide EarliestInvalid, Invalidate, Affected;
  }

  lemma AskingDoesNotSeal(k: Config, w: World, s: State)
    requires Inv(k, s, None) && s.ctx.status == Running && Step(k, w, s).ctx.questions != []
    ensures Step(k, w, s).ctx.contractSealed == s.ctx.contractSealed
  {
    hide DispatchWithRetries, NextPhase, SafeTrace, Sound, InSync, GatesHeld;
    var p := NextPhase(k.dag, s.ctx.completed + s.ctx.excluded).value;
    SelectedMayDispatch(k, s, p);
    DispatchWithRetriesKeeps(k, w, s, p);
    RetriesKeepSeal(k, w, s, p);
  }

  /** What a restart makes of two states with the same store differs in nothing the invariant mentions but the
      history. */
  lemma StoreDecides(k: Config, s: State, t: State, files: map<Path, Digest>)
    requires Inv(k, s, None) && s.store == t.store && SafeTrace(k, t)
    ensures Inv(k, Restart(k, t, files), None)
  {
    hide Restart, SafeDispatch;
    var u := s.(trace := t.trace, calls := t.calls);
    assert Inv(k, u, None);
    SameStoreRestarts(k, u, t, files);
    ResumeKeeps(k, u, files);
  }

  lemma InvalidateOnlyLists(st: RunState, drop: seq<Phase>)
    ensures var t := Invalidate(st, drop); t == st.(completed := t.completed, stale := t.stale)
  {
  }
}
