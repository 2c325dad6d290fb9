/** Unit mode: how the supervisor drives the implementation phase one artifact at a time. */
module Units {
  import opened Options
  import opened Sequences
  import opened PhaseDag
  import opened Phases
  import opened Checkpoints
  import opened Supervisor
  import opened LinearPipeline

  /** The targets not generated yet, in plan order. */
  function Remaining(targets: seq<Path>, done: seq<Path>): seq<Path> {
    Filter(NonMember(done), targets)
  }

  /** What one unit of implementation work may report: one artifact at a time, the whole target list
      with the last artifact when nothing is tested, and otherwise with the verification unit. */
  predicate UnitOutcome(targets: seq<Path>, tested: bool, done: seq<Path>, outcome: Outcome) {
    var remaining := Remaining(targets, done);
    outcome.Failed? ||
    if targets == [] then outcome.phaseComplete
    else if remaining == [] || (|remaining| == 1 && !tested) then outcome.phaseComplete && outcome.artifacts == targets
    else !outcome.phaseComplete && outcome.artifacts == [remaining[0]]
  }

  /** The executor runs implementation in units over a fixed target list, and no other phase in units. */
  ghost predicate UnitWorld(w: World, targets: seq<Path>, tested: bool) {
    forall n, p, mode, done {:trigger w.execute(n, p, mode, done)} ::
      var outcome := w.execute(n, p, mode, done);
      if p == Implementation then UnitOutcome(targets, tested, done, outcome)
      else outcome.Succeeded? ==> outcome.phaseComplete
  }

  // ----- termination of run_until_pause -----

  lemma {:induction false} RemainingShrinks(targets: seq<Path>, done: seq<Path>, x: Path)
    ensures |Remaining(targets, done + [x])| <= |Remaining(targets, done)|
    ensures x in targets && x !in done ==> |Remaining(targets, done + [x])| < |Remaining(targets, done)|
  {
    if targets != [] {
      RemainingShrinks(targets[1..], done, x);
    }
  }

  lemma CompletedBound(c: set<Phase>)
    ensures |c| <= 13
  {
    PhaseIdsAreIndexed();
    DistinctCardinality(PHASE_IDS);
    forall p | p in c ensures p in Elems(PHASE_IDS) {
      assert PHASE_IDS[p.Index()] == p;
    }
    SubsetCardinality(c, Elems(PHASE_IDS));
  }

  function PhasesLeft(ctx: Context): int {
    13 - |ctx.completed|
  }

  function TargetsLeft(ctx: Context, targets: seq<Path>): nat {
    |Remaining(targets, ProgressOf(ctx, Implementation))|
  }

  /** Fewer phases left, or as many and fewer ungenerated targets. */
  ghost predicate Closer(before: Context, after: Context, targets: seq<Path>) {
    PhasesLeft(after) < PhasesLeft(before) ||
    (PhasesLeft(after) == PhasesLeft(before) && TargetsLeft(after, targets) < TargetsLeft(before, targets))
  }

  lemma EffectIsCloser(k: Config, w: World, targets: seq<Path>, tested: bool, before: Context, after: Context,
                      p: Phase, n: nat)
    requires UnitWorld(w, targets, tested) && Effect(k, w, before, after, p, n) && p !in before.completed
    ensures Closer(before, after, targets)
  {
    var done := CompletedArtifacts(before, p);
    var outcome := w.execute(n, p, ClarificationModeOf(before), done);
    if !outcome.phaseComplete {
      var rel := Remaining(targets, done)[0];
      assert rel in Remaining(targets, done);
      assert AppendNew(done, [rel]) == done + [rel] by {
        assert [rel][1..] == [];
      }
      RemainingShrinks(targets, done, rel);
      assert ProgressOf(after, Implementation) == done + [rel];
    }
  }

  /** A step that leaves the run running has completed a phase or generated a target. */
  lemma StepIsCloser(k: Config, w: World, targets: seq<Path>, tested: bool, s: State)
    requires UnitWorld(w, targets, tested) && s.ctx.status == Running
    requires Step(k, w, s).ctx.status == Running
    ensures Closer(s.ctx, Step(k, w, s).ctx, targets)
  {
    hide DispatchWithRetries, AfterDispatch, Ready, NextPhase, UnitWorld, Closer;
    var p := NextPhase(k.dag, s.ctx.completed + s.ctx.excluded).value;
    NextPhaseIsReady(k.dag, s.ctx.completed + s.ctx.excluded);
    ReadyIsDispatched(k, w, s, p);
    var d := DispatchWithRetries(k, w, s, p);
    if d.status == EscalatedDispatch {
      EscalatedStep(w, d, p);
      assert false;
    }
    var n := RetriesEffect(k, w, s, p);
    EffectIsCloser(k, w, targets, tested, s.ctx, d.state.ctx, p, n);
    AfterDispatchEffect(w, d, p);
    CloserCongruent(s.ctx, d.state.ctx, AfterDispatch(w, d, p).ctx, targets);
  }

  lemma CloserCongruent(before: Context, ran: Context, after: Context, targets: seq<Path>)
    requires Closer(before, ran, targets) && after.completed == ran.completed && after.progress == ran.progress
    ensures Closer(before, after, targets)
  {
  }

  // ----- running until the pause -----

  function Steps(k: Config, w: World, s: State, n: nat): State
    decreases n
  {
    if n == 0 then s else Steps(k, w, Step(k, w, s), n - 1)
  }

  /** Some number of steps stops the run: exactly then stepping while it runs comes to an end. */
  ghost predicate Pauses(k: Config, w: World, s: State) {
    exists n: nat :: Steps(k, w, s, n).ctx.status != Running
  }

  ghost function PausedState(k: Config, w: World, s: State): State
    requires Pauses(k, w, s)
  {
    var n: nat :| Steps(k, w, s, n).ctx.status != Running;
    Steps(k, w, s, n)
  }

  lemma {:induction false} StoppedStays(k: Config, w: World, s: State, n: nat)
    requires s.ctx.status != Running
    ensures Steps(k, w, s, n) == s
    decreases n
  {
    hide Step;
    if n > 0 {
      assert Step(k, w, s) == s by {
        StoppedStep(k, w, s);
      }
      StoppedStays(k, w, s, n - 1);
    }
  }

  lemma StoppedStep(k: Config, w: World, s: State)
    requires s.ctx.status != Running
    ensures Step(k, w, s) == s
  {
  }

  lemma RunningTakesStep(k: Config, w: World, s: State, n: nat)
    requires s.ctx.status == Running && Steps(k, w, s, n).ctx.status != Running
    ensures n > 0 && Steps(k, w, s, n) == Steps(k, w, Step(k, w, s), n - 1)
  {
    hide Step;
  }

  /** Any two numbers of steps that stop the run reach the same state. */
  lemma {:induction false} StopsAgree(k: Config, w: World, s: State, m: nat, n: nat)
    requires Steps(k, w, s, m).ctx.status != Running && Steps(k, w, s, n).ctx.status != Running
    ensures Steps(k, w, s, m) == Steps(k, w, s, n)
    decreases n
  {
    hide Step;
    if s.ctx.status != Running {
      StoppedStays(k, w, s, m);
      StoppedStays(k, w, s, n);
    } else {
      StopsAgree(k, w, Step(k, w, s), m - 1, n - 1);
    }
  }

  lemma PausedStateIs(k: Config, w: World, s: State, n: nat)
    requires Steps(k, w, s, n).ctx.status != Running
    ensures Pauses(k, w, s) && PausedState(k, w, s) == Steps(k, w, s, n)
  {
    hide Step;
    var m: nat :| Steps(k, w, s, m).ctx.status != Running && PausedState(k, w, s) == Steps(k, w, s, m);
    StopsAgree(k, w, s, m, n);
  }

  lemma StepsToPause(k: Config, w: World, s: State) returns (n: nat)
    requires Pauses(k, w, s)
    ensures Steps(k, w, s, n) == PausedState(k, w, s) && PausedState(k, w, s).ctx.status != Running
  {
    n :| Steps(k, w, s, n).ctx.status != Running;
    PausedStateIs(k, w, s, n);
  }

  /** With implementation units that make progress every run pauses or ends. */
  lemma {:induction false} UnitsPause(k: Config, w: World, targets: seq<Path>, tested: bool, s: State)
    requires UnitWorld(w, targets, tested)
    ensures Pauses(k, w, s)
    decreases 13 - |s.ctx.completed|, TargetsLeft(s.ctx, targets)
  {
    hide Step, UnitWorld;
    var t := Step(k, w, s);
    assert Steps(k, w, s, 0) == s;
    assert Steps(k, w, t, 0) == t && Steps(k, w, s, 1) == t;
    CompletedBound(s.ctx.completed);
    CompletedBound(t.ctx.completed);
    if s.ctx.status == Running && t.ctx.status == Running {
      StepIsCloser(k, w, targets, tested, s);
      UnitsPause(k, w, targets, tested, t);
      var n: nat :| Steps(k, w, t, n).ctx.status != Running;
      assert Steps(k, w, s, n + 1) == Steps(k, w, t, n);
    }
  }

  /** Running until the pause is stepping some number of times. */
  lemma {:induction false} StepsAreARun(k: Config, w: World, s: State, n: nat) returns (ops: seq<Op>)
    ensures |ops| == n && (forall op :: op in ops ==> op == DoStep) && Steps(k, w, s, n) == Run(k, w, s, ops)
    decreases n
  {
    hide Step;
    ops := [];
    if n > 0 {
      var rest := StepsAreARun(k, w, Step(k, w, s), n - 1);
      RunAfterOne(k, w, s, DoStep, rest);
      ops := [DoStep] + rest;
    }
  }

  /** The state a run pauses in is that of a run of steps. */
  lemma PausedStateIsReached(k: Config, w: World, s: State) returns (ops: seq<Op>)
    requires Pauses(k, w, s)
    ensures (forall op :: op in ops ==> op == DoStep) && PausedState(k, w, s) == Run(k, w, s, ops)
    ensures PausedState(k, w, s).ctx.status != Running
  {
    hide Step, Run;
    var n: nat :| Steps(k, w, s, n).ctx.status != Running && PausedState(k, w, s) == Steps(k, w, s, n);
    ops := StepsAreARun(k, w, s, n);
  }

  lemma {:induction false} RunAfterOne(k: Config, w: World, s: State, op: Op, rest: seq<Op>)
    ensures Run(k, w, s, [op] + rest) == Run(k, w, Apply(k, w, s, op), rest)
    decreases |rest|
  {
    hide Apply;
    if rest == [] {
      assert [op] + rest == [op] && [op][..0] == [];
      assert Run(k, w, s, []) == s;
    } else {
      var front := rest[..|rest| - 1];
      RunAfterOne(k, w, s, op, front);
      assert ([op] + rest)[..|[op] + rest| - 1] == [op] + front;
    }
  }

  // ----- why units must make progress -----

  /** Implementation forever reports an unfinished unit without an artifact. */
  function IdleWorld(): World {
    World((n, p, mode, done) => Succeeded([], p != Implementation, [], None, true), n => map[], n => true)
  }

  ghost predicate AtImplementation(k: Config, ctx: Context) {
    ctx.status == Running && NextPhase(k.dag, ctx.completed + ctx.excluded) == Some(Implementation) &&
    Implementation !in ctx.gates.pre && Implementation !in ctx.gates.post
  }

  lemma IdleStep(k: Config, s: State)
    requires AtImplementation(k, s.ctx)
    ensures AtImplementation(k, Step(k, IdleWorld(), s).ctx)
  {
    hide Ready, NextPhase, SaveCompletion;
    NextPhaseIsReady(k.dag, s.ctx.completed + s.ctx.excluded);
    var d := DispatchPhase(k, IdleWorld(), s, Implementation);
    assert d == Dispatch(RecordUnit(AfterCall(IdleWorld(), s, Implementation), Implementation, []), Success, []);
    hide DispatchPhase;
    assert DispatchWithRetries(k, IdleWorld(), s, Implementation) == d;
    hide DispatchWithRetries;
    assert Step(k, IdleWorld(), s) == d.state;
  }

  lemma {:induction false} IdleSteps(k: Config, w: World, s: State, n: nat)
    requires w == IdleWorld() && AtImplementation(k, s.ctx)
    ensures Steps(k, w, s, n).ctx.status == Running
    decreases n
  {
    hide Step, NextPhase, AtImplementation, IdleWorld;
    if n == 0 {
      StillRunning(k, s.ctx);
    } else {
      IdleStep(k, s);
      IdleSteps(k, w, Step(k, w, s), n - 1);
    }
  }

  lemma StillRunning(k: Config, ctx: Context)
    requires AtImplementation(k, ctx)
    ensures ctx.status == Running
  {
  }

  /** Such a run never pauses once it has reached implementation without a gate there. */
  lemma IdleUnitsNeverPause(k: Config, s: State)
    requires AtImplementation(k, s.ctx)
    ensures !Pauses(k, IdleWorld(), s)
  {
    hide Step, NextPhase, AtImplementation;
    forall n: nat ensures Steps(k, IdleWorld(), s, n).ctx.status == Running {
      IdleSteps(k, IdleWorld(), s, n);
    }
  }
}
