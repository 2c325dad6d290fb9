/** Rollback on any valid dependency graph, and what an early-answered rollback costs. */
module Rollbacks {
  import opened Options
  import opened Sequences
  import opened PhaseDag
  import opened Phases
  import opened Checkpoints
  import opened Retries
  import opened Supervisor
  import opened GateSafety
  import opened LinearPipeline

  /** Every completed phase has its dependencies completed, counting excluded phases as done. */
  ghost predicate DependenciesDone(g: Graph<Phase>, completed: set<Phase>, excluded: set<Phase>) {
    forall p, d :: p in completed && p in g.deps && d in g.deps[p] ==> d in completed || d in excluded
  }

  /** `p` is the target or depends on it through one or more edges. */
  ghost predicate RolledBack(g: Graph<Phase>, target: Phase, p: Phase) {
    p == target || (p in g.deps && Reaches(g, p, target))
  }

  lemma AffectedIff(k: Config, target: Phase, p: Phase)
    requires ValidConfig(k)
    ensures p in Elems(Affected(k, target)) <==> RolledBack(k.dag, target, p)
  {
    DownstreamMembers(k.dag, target);
    assert p in Elems(Affected(k, target)) <==> p in Affected(k, target);
  }

  /** Rollback removes exactly the target and what depends on it, from memory and from the store,
      marks exactly those stale, resets exactly their counters, and leaves the other checkpoints alone. */
  lemma RollbackIsExact(k: Config, s: State, target: Phase, p: Phase)
    requires ValidConfig(k) && Inv(k, s, None)
    ensures var t := Rollback(k, s, target);
      (p in t.ctx.completed <==> p in s.ctx.completed && !RolledBack(k.dag, target, p)) &&
      (p in Ids(t.store.completed) <==> p in t.ctx.completed) &&
      (p in t.store.stale <==> p in s.store.stale || RolledBack(k.dag, target, p)) &&
      (forall c: Checkpoint :: c.phase == p ==>
        (c in t.store.completed <==> c in s.store.completed && !RolledBack(k.dag, target, p))) &&
      Attempts(t.attempts, p) == (if RolledBack(k.dag, target, p) then 0 else Attempts(s.attempts, p))
  {
    hide Affected, Invalidate, SafeTrace, Disciplined, GatesHeld;
    AffectedIff(k, target, p);
    InvalidateSound(s.store, Affected(k, target));
    assert p in Elems(Affected(k, target)) <==> p in Affected(k, target);
    RollbackKeeps(k, s, target);
    RollbackFrame(k, s, target);
  }

  lemma RollbackFrame(k: Config, s: State, target: Phase)
    ensures var t := Rollback(k, s, target);
      t.attempts == s.attempts - Elems(Affected(k, target)) &&
      t.store == Invalidate(s.store, Affected(k, target)).(progress := t.store.progress)
  {
    hide Affected, Invalidate;
  }

  /** What rollback leaves completed still has its dependencies done. */
  lemma RollbackKeepsDependencies(k: Config, s: State, target: Phase)
    requires ValidConfig(k) && Inv(k, s, None)
    requires DependenciesDone(k.dag, s.ctx.completed, s.ctx.excluded)
    ensures DependenciesDone(k.dag, Rollback(k, s, target).ctx.completed, s.ctx.excluded)
  {
    hide Inv, Affected;
    var t := Rollback(k, s, target);
    forall p, d | p in t.ctx.completed && p in k.dag.deps && d in k.dag.deps[p] && d !in s.ctx.excluded
      ensures d in t.ctx.completed
    {
      RollbackIsExact(k, s, target, p);
      RollbackIsExact(k, s, target, d);
      if RolledBack(k.dag, target, d) {
        PathStep(k.dag, p, d);
        if d != target {
          ReachesTransitive(k.dag, p, d, target);
        }
      }
    }
  }

  lemma {:induction false} FilterTwice(drop: seq<Phase>, cs: seq<Checkpoint>)
    ensures Filter(KeptBy(drop), Filter(KeptBy(drop), cs)) == Filter(KeptBy(drop), cs)
  {
    if cs != [] {
      FilterTwice(drop, cs[1..]);
      var rest := Filter(KeptBy(drop), cs[1..]);
      if KeptBy(drop)(cs[0]) {
        assert ([cs[0]] + rest)[1..] == rest;
      } else {
        assert [] + rest == rest;
      }
    }
  }

  lemma InvalidateTwice(st: RunState, drop: seq<Phase>)
    ensures Invalidate(Invalidate(st, drop), drop) == Invalidate(st, drop)
  {
    FilterTwice(drop, st.completed);
    ListingIsCanonical(Elems(st.stale) + Elems(drop));
    var once := Listing(Elems(st.stale) + Elems(drop));
    assert Elems(once) + Elems(drop) == Elems(st.stale) + Elems(drop);
  }

  lemma {:induction false} FirstWithProgressFinds(progress: map<Phase, seq<Path>>, affected: seq<Phase>)
    ensures FirstWithProgress(progress, affected) == None <==> forall p :: p in affected ==> p !in progress
    ensures FirstWithProgress(progress, affected).Some? ==>
      FirstWithProgress(progress, affected).value in affected && FirstWithProgress(progress, affected).value in progress
  {
    if affected != [] {
      FirstWithProgressFinds(progress, affected[1..]);
    }
  }

  /** Rolling back twice is rolling back once, up to the history, exactly when at most one affected
      phase had unit progress: clearing stops at the first one found. */
  lemma RollbackIsIdempotentIff(k: Config, s: State, target: Phase)
    requires Inv(k, s, None)
    ensures var once := Rollback(k, s, target);
      var twice := Rollback(k, once, target);
      twice.(trace := once.trace) == once <==>
      forall p, q ::
        p in Affected(k, target) && q in Affected(k, target) && p in s.ctx.progress && q in s.ctx.progress ==> p == q
  {
    hide Inv, Affected, Invalidate;
    var affected := Affected(k, target);
    var once := Rollback(k, s, target);
    var twice := Rollback(k, once, target);
    InvalidateTwice(s.store, affected);
    FirstWithProgressFinds(s.ctx.progress, affected);
    FirstWithProgressFinds(once.ctx.progress, affected);
    assert s.ctx.completed - Elems(affected) - Elems(affected) == s.ctx.completed - Elems(affected);
    assert s.attempts - Elems(affected) - Elems(affected) == s.attempts - Elems(affected);
    InSyncProgress(k, s);
    RollbackProgress(k, s, target);
    RollbackProgress(k, once, target);
    InvalidateIgnoresProgress(Invalidate(s.store, affected), once.store.progress, affected);
    assert twice.store.progress == twice.ctx.progress && once.store.progress == once.ctx.progress;
    assert twice.(trace := once.trace) == once <==> twice.ctx.progress == once.ctx.progress;
  }

  lemma InSyncProgress(k: Config, s: State)
    requires Inv(k, s, None)
    ensures s.store.progress == s.ctx.progress
  {
  }

  lemma InvalidateIgnoresProgress(st: RunState, progress: map<Phase, seq<Path>>, drop: seq<Phase>)
    ensures Invalidate(st.(progress := progress), drop) == Invalidate(st, drop).(progress := progress)
  {
  }

  lemma RollbackProgress(k: Config, s: State, target: Phase)
    requires s.store.progress == s.ctx.progress
    ensures var t := Rollback(k, s, target);
      var first := FirstWithProgress(s.ctx.progress, Affected(k, target));
      t.ctx.progress == (if first.Some? then s.ctx.progress - {first.value} else s.ctx.progress) &&
      t == s.(ctx := s.ctx.(completed := s.ctx.completed - Elems(Affected(k, target)), progress := t.ctx.progress),
              store := Invalidate(s.store, Affected(k, target)).(progress := t.ctx.progress),
              attempts := s.attempts - Elems(Affected(k, target)), trace := t.trace)
  {
    hide Affected;
    FirstWithProgressFinds(s.ctx.progress, Affected(k, target));
  }

  // ----- what a resume keeps, on any valid graph -----

  /** A completion is watched: its checkpoint is valid later exactly while every artifact it reported
      that existed then still has the same content. */
  lemma CompletionIsWatched(k: Config, s: State, p: Phase, outcome: Outcome, files: map<Path, Digest>,
                            now: map<Path, Digest>)
    requires Inv(k, s, None) && outcome.Succeeded?
    ensures exists c ::
      c in RecordSuccess(k, s, p, outcome, files).store.completed && c.phase == p &&
      (CheckpointValid(c, now) <==>
        forall rel :: rel in outcome.artifacts && rel in files ==> rel in now && now[rel] == files[rel])
  {
    hide Inv, SaveCompletion, RecordSuccess, CheckpointValid, Sound;
    var c := Checkpoint(p, Checksums(outcome.artifacts, files));
    InvIsSound(k, s);
    SaveCompletionSound(s.store, c);
    RecordedCheckpoint(k, s, p, outcome, files);
    ChecksumsWatch(p, outcome.artifacts, files, now);
  }

  lemma InvIsSound(k: Config, s: State)
    requires Inv(k, s, None)
    ensures Sound(s.store)
  {
  }

  lemma RecordedCheckpoint(k: Config, s: State, p: Phase, outcome: Outcome, files: map<Path, Digest>)
    requires outcome.Succeeded?
    ensures RecordSuccess(k, s, p, outcome, files).store.completed ==
      SaveCompletion(s.store, Checkpoint(p, Checksums(outcome.artifacts, files))).completed
  {
    hide SaveCompletion;
  }

  lemma ChecksumsWatch(p: Phase, artifacts: seq<Path>, files: map<Path, Digest>, now: map<Path, Digest>)
    ensures CheckpointValid(Checkpoint(p, Checksums(artifacts, files)), now) <==>
      forall rel :: rel in artifacts && rel in files ==> rel in now && now[rel] == files[rel]
  {
    forall rel | rel in artifacts && rel in files ensures rel in Checksums(artifacts, files) {
    }
  }

  /** A resume rewinds `p`: it is the earliest invalid phase or depends on it. */
  ghost predicate Rewound(k: Config, s: State, files: map<Path, Digest>, p: Phase) {
    var bad := EarliestInvalid(s.store.completed, files);
    bad.Some? && RolledBack(k.dag, bad.value, p)
  }

  /** A resume, live or in a new process, drops exactly the canonically first completed phase whose artifacts
      changed and what depends on it, from memory and from the store. */
  lemma RewindIsExact(k: Config, s: State, files: map<Path, Digest>, live: bool, p: Phase)
    requires ValidConfig(k) && Inv(k, s, None)
    ensures var back := Resumed(k, s, files, live);
      (p in back.ctx.completed <==> p in s.ctx.completed && !Rewound(k, s, files, p)) &&
      (forall c: Checkpoint :: c.phase == p ==>
        (c in back.store.completed <==> c in s.store.completed && !Rewound(k, s, files, p)))
  {
    hide Rehydrate, Rewind, Rewound, Inv;
    InvIsSound(k, s);
    RehydrateRebuilds(k, s);
    var resumed := s.(ctx := Rehydrate(s.ctx, s.store));
    var restarted := Log(s.(ctx := Rehydrate(FreshContext(s.store.mode), s.store), attempts := map[]), Restarted);
    RewindDrops(k, resumed, files, p);
    RewindDrops(k, restarted, files, p);
    SameStoreRewound(k, s, resumed, files, p);
    SameStoreRewound(k, s, restarted, files, p);
  }

  lemma SameStoreRewound(k: Config, s: State, t: State, files: map<Path, Digest>, p: Phase)
    requires s.store == t.store
    ensures Rewound(k, s, files, p) == Rewound(k, t, files, p)
  {
  }

  lemma RewindDrops(k: Config, s: State, files: map<Path, Digest>, p: Phase)
    requires ValidConfig(k) && Sound(s.store)
    ensures var back := Rewind(k, s, files);
      (p in back.ctx.completed <==> p in s.ctx.completed && !Rewound(k, s, files, p)) &&
      (forall c: Checkpoint :: c.phase == p ==>
        (c in back.store.completed <==> c in s.store.completed && !Rewound(k, s, files, p)))
  {
    hide Affected, Invalidate, EarliestInvalid, RolledBack, ValidConfig;
    var bad := EarliestInvalid(s.store.completed, files);
    if bad.Some? {
      AffectedIff(k, bad.value, p);
      assert p in Elems(Affected(k, bad.value)) <==> p in Affected(k, bad.value);
      InvalidateSound(s.store, Affected(k, bad.value));
    }
  }

  /** On a graph that is not a line this need not drop every phase whose artifacts changed: only valid
      checkpoints are left exactly when each changed phase is the first one or depends on it. */
  lemma ResumeLeavesOnlyValidIff(k: Config, s: State, files: map<Path, Digest>, live: bool)
    requires ValidConfig(k) && Inv(k, s, None)
    ensures (forall c :: c in Resumed(k, s, files, live).store.completed ==> CheckpointValid(c, files)) <==>
      forall c :: c in s.store.completed && !CheckpointValid(c, files) ==> Rewound(k, s, files, c.phase)
  {
    hide Resumed, Rewound, CheckpointValid, Inv;
    InvIsSound(k, s);
    var back := Resumed(k, s, files, live);
    forall c: Checkpoint
      ensures c in back.store.completed <==> c in s.store.completed && !Rewound(k, s, files, c.phase)
    {
      RewindIsExact(k, s, files, live, c.phase);
    }
    forall c | c in s.store.completed && Rewound(k, s, files, c.phase) && CheckpointValid(c, files)
      ensures c !in back.store.completed
    {
    }
  }

  // ----- why rollbacks during a pause must reach the paused phase -----

  /** A secure run on the default pipeline, paused at the proposal gate, is rolled back to a later
      phase: the pause is dropped, and the next step hands the third phase to the executor with the
      proposal complete and unapproved. */
  lemma LateRollbackSkipsGate(k: Config, w: World, s: State)
    requires k.dag == LinearDag() && k.mode == Secure && Inv(k, s, None) && InLine(s.ctx)
    requires s.ctx.status == AwaitingApproval && s.ctx.pendingGate == Some(PostGate(Proposal))
    requires Proposal in s.ctx.completed && FactoryInit !in s.ctx.excluded
    ensures var rolled := RollbackOverride(k, s, Qa);
      var after := Step(k, w, rolled);
      !GatesHeld(rolled.ctx, None) && |after.trace| > |rolled.trace| &&
      exists i :: |rolled.trace| <= i < |after.trace| && after.trace[i].Dispatched? &&
        after.trace[i].phase == FactoryInit && Proposal in after.trace[i].at.completed &&
        PostGate(Proposal) !in after.trace[i].at.approved
  {
    hide NextPhase, Step, RollbackOverride, LinearDag, Inv, InLine, GatesHeld;
    var rolled := RollbackOverride(k, s, Qa);
    RolledBackPastGate(k, s);
    FirstDispatchIsLogged(k, w, rolled, FactoryInit);
  }

  /** After the late rollback the run goes on with the third phase, and the proposal's gate is not looked at again. */
  lemma RolledBackPastGate(k: Config, s: State)
    requires k.dag == LinearDag() && k.mode == Secure && Inv(k, s, None) && InLine(s.ctx)
    requires s.ctx.status == AwaitingApproval && s.ctx.pendingGate == Some(PostGate(Proposal))
    requires Proposal in s.ctx.completed && FactoryInit !in s.ctx.excluded
    ensures var rolled := RollbackOverride(k, s, Qa).ctx;
      rolled.status == Running && !GatesHeld(rolled, None) && Proposal in rolled.completed &&
      PostGate(Proposal) !in rolled.approved && FactoryInit !in rolled.gates.pre &&
      NextPhase(k.dag, rolled.completed + rolled.excluded) == Some(FactoryInit)
  {
    hide Affected, Invalidate, LinearDag, SafeTrace, Sound, NextPhase, Requested;
    var rolled := RollbackOverride(k, s, Qa);
    RollbackKeeps(k, s, Qa);
    AffectedInLine(k, Qa);
    RollbackInLine(k, s, Qa);
    assert Proposal in rolled.ctx.completed && PostGate(Proposal) !in rolled.ctx.approved;
    assert Proposal in {Proposal, Architecture, Blueprint} + Requested(k.extraGates);
    assert !GatesHeld(rolled.ctx, None);
    NextInLine(rolled.ctx, FactoryInit);
  }

  lemma {:induction false} RetriesExtendTrace(k: Config, w: World, s: State, p: Phase)
    ensures s.trace <= DispatchWithRetries(k, w, s, p).state.trace
    decreases Budget(k, s, p)
  {
    FailureSpendsBudget(k, w, s, p);
    DispatchExtendsTrace(k, w, s, p);
    hide DispatchPhase;
    var d := DispatchPhase(k, w, s, p);
    if d.status == Failure {
      RetriesExtendTrace(k, w, BackOff(k, d.state, p), p);
    }
  }

  lemma DispatchExtendsTrace(k: Config, w: World, s: State, p: Phase)
    ensures s.trace <= DispatchPhase(k, w, s, p).state.trace
    ensures p in Ready(k.dag, s.ctx.completed + s.ctx.excluded) ==>
      AfterCall(w, s, p).trace <= DispatchPhase(k, w, s, p).state.trace
  {
    hide Ready, SaveCompletion;
  }

  lemma AfterDispatchExtendsTrace(w: World, d: Dispatch, p: Phase)
    ensures d.state.trace <= AfterDispatch(w, d, p).trace
  {
  }

  lemma FirstDispatchIsLogged(k: Config, w: World, s: State, p: Phase)
    requires s.ctx.status == Running && NextPhase(k.dag, s.ctx.completed + s.ctx.excluded) == Some(p)
    requires p in s.ctx.gates.pre ==> GateSatisfied(s.ctx, s.ctx.gates.pre[p])
    ensures var after := Step(k, w, s);
      |after.trace| > |s.trace| && after.trace[..|s.trace|] == s.trace && after.trace[|s.trace|].Dispatched? &&
      after.trace[|s.trace|].phase == p && after.trace[|s.trace|].at == s.ctx
  {
    hide Ready, NextPhase;
    NextPhaseIsReady(k.dag, s.ctx.completed + s.ctx.excluded);
    DispatchExtendsTrace(k, w, s, p);
    FailureSpendsBudget(k, w, s, p);
    var d := DispatchPhase(k, w, s, p);
    if d.status == Failure {
      RetriesExtendTrace(k, w, BackOff(k, d.state, p), p);
    }
    hide DispatchPhase;
    var e := DispatchWithRetries(k, w, s, p);
    assert AfterCall(w, s, p).trace <= e.state.trace;
    AfterDispatchExtendsTrace(w, e, p);
    hide AfterDispatch;
    assert AfterCall(w, s, p).trace <= Step(k, w, s).trace;
  }

  // ----- why force-advance must not skip questions -----

  /** From any state with questions pending on an unsealed contract, force-advancing makes the next dispatch find
      intake completed, if it had, and the contract unsealed. */
  lemma ForceAdvanceRunsUnsealed(k: Config, w: World, s: State, p: Phase)
    requires Inv(k, s, None) && s.ctx.questions != [] && !s.ctx.contractSealed
    requires NextPhase(k.dag, s.ctx.completed + s.ctx.excluded) == Some(p) && p !in s.ctx.gates.pre
    ensures var advanced := ForceAdvance(s);
      var after := Step(k, w, advanced);
      |after.trace| > |advanced.trace| && after.trace[|advanced.trace|].Dispatched? &&
      after.trace[|advanced.trace|].phase == p && after.trace[|advanced.trace|].at == advanced.ctx &&
      !advanced.ctx.contractSealed && (Intake in advanced.ctx.completed <==> Intake in s.ctx.completed)
  {
    hide Step, NextPhase, SafeTrace, Sound, InSync, GatesHeld;
    FirstDispatchIsLogged(k, w, ForceAdvance(s), p);
  }
}
