/** What a verification pass and a unit of implementation work guarantee, for all service answers. */
module RepairSafety {
  import opened Options
  import opened Sequences
  import opened Docker
  import opened Protocol
  import opened Backend
  import Supervisor
  import Units

  // ----- rounds -----

  ghost predicate RoundsFollow(sv: Services, rounds: seq<Round>, artifacts: seq<Path>) {
    forall n :: 0 <= n < |rounds| ==>
      var named := sv.implicated(n, rounds[n].before.files, artifacts);
      rounds[n].list == if named == [] then artifacts else named
  }

  /** The rounds, one after the other, are all that happened to the sources: each starts where the one before it
      ended, in sources and completions, and they lead from `before` to `after`. */
  ghost predicate Replayed(sv: Services, before: Work, rounds: seq<Round>, after: Work) {
    if rounds == [] then before.files == after.files && before.completions == after.completions else
    var done := Repaired(sv, Last(rounds).before, Last(rounds).list).work;
    Replayed(sv, before, rounds[..|rounds| - 1], Last(rounds).before) &&
    done.files == after.files && done.completions == after.completions
  }

  function Touched(rounds: seq<Round>): set<Path> {
    if rounds == [] then {} else Touched(rounds[..|rounds| - 1]) + Elems(Last(rounds).list)
  }

  /** Whatever the rounds did, files implicated in none of them are as they were. */
  lemma {:induction false} ReplayedTouches(sv: Services, before: Work, rounds: seq<Round>, after: Work)
    requires Replayed(sv, before, rounds, after)
    ensures OnlyChanged(before.files, after.files, Touched(rounds))
  {
    hide Repaired;
    if rounds != [] {
      var last := Last(rounds);
      ReplayedTouches(sv, before, rounds[..|rounds| - 1], last.before);
      RepairedFrame(sv, last.before, last.list);
      ChangesCompose(before.files, last.before.files, after.files, Touched(rounds[..|rounds| - 1]), Elems(last.list));
    }
  }

  lemma RoundsSnoc(sv: Services, rounds: seq<Round>, artifacts: seq<Path>, before: Work, mid: Work, after: Work)
    requires RoundsFollow(sv, rounds, artifacts) && Replayed(sv, before, rounds, mid)
    requires var done := Repaired(sv, mid, ToRepair(sv, |rounds|, mid.files, artifacts)).work;
      done.files == after.files && done.completions == after.completions
    ensures var longer := rounds + [Round(mid, ToRepair(sv, |rounds|, mid.files, artifacts))];
      RoundsFollow(sv, longer, artifacts) && Replayed(sv, before, longer, after)
  {
    hide Repaired;
    var longer := rounds + [Round(mid, ToRepair(sv, |rounds|, mid.files, artifacts))];
    assert longer[..|rounds|] == rounds;
  }

  // ----- what every moment of a pass satisfies -----

  /** The latest verdict is about the present sources: a violation after a repair, or the last test run. */
  ghost predicate VerdictStands(sv: Services, st: Setting, p: Pass) {
    p.standing.Judged? ==>
      if p.rounds != [] && sv.violates(p.work.files) then p.standing.exit == Some(1)
      else
        p.tests != [] && Last(p.tests) == TestRun(p.work.files, p.standing.exit) &&
        (st.useDocker ==>
          TestsIn(p.session.trace) != [] && Judges(Last(TestsIn(p.session.trace)), p.work.files, p.standing.exit))
  }

  /** Every verdict of the pass is that of a test command of its own, in docker, or of a local run of its own, on the
      sources it names. */
  ghost predicate VerdictsHeld(sv: Services, st: Setting, w: Work, p: Pass) {
    if st.useDocker then
      var issued := TestsIn(p.session.trace);
      |p.tests| <= |issued| && (!p.standing.Broke? ==> |p.tests| == |issued|) &&
      forall i :: 0 <= i < |p.tests| ==> Judges(issued[i], p.tests[i].files, p.tests[i].exit)
    else forall i :: 0 <= i < |p.tests| ==> AnsweredLocally(sv, w.testRuns + i, p.tests[i])
  }

  predicate AnsweredLocally(sv: Services, n: nat, test: TestRun) {
    sv.testLocally(n, test.files) == HostRun(test.exit)
  }

  /** A round starts only from sources that were judged red: by a test run, or as violating the contract. */
  ghost predicate RoundsStartRed(sv: Services, p: Pass) {
    forall n :: 0 <= n < |p.rounds| ==>
      (n > 0 && sv.violates(p.rounds[n].before.files)) || RedTested(p, p.rounds[n].before.files)
  }

  ghost predicate RedTested(p: Pass, files: Files) {
    exists i :: 0 <= i < |p.tests| && p.tests[i].files == files && p.tests[i].exit != Some(0)
  }

  /** The docker commands are in order, and the session is ready for the next test run or for closing. */
  ghost predicate InOrder(sv: Services, st: Setting, w: Work, p: Pass) {
    var x := DockerSettings(sv, st);
    Answered(x, w.commands, p.session) && Conforms(x, p.session.trace) && Closable(x, p.session) &&
    (!p.standing.Broke? ==> Resting(x, p.session))
  }

  /** A green run ends the testing: only the last one can be green, and then it stands. */
  ghost predicate GreenIsLast(p: Pass) {
    forall i :: 0 <= i < |p.tests| && p.tests[i].exit == Some(0) ==> i == |p.tests| - 1 && p.standing == Judged(Some(0))
  }

  /** The last docker command says how docker fared. */
  ghost predicate DockerStands(st: Setting, p: Pass) {
    var trace := p.session.trace;
    (if p.standing.Broke? then trace != [] && p.standing.status == StatusOf(Last(trace)) != Fine
     else trace == [] || StatusOf(Last(trace)) == Fine) &&
    (p.standing == Broke(NoContainerId) ==> p.session.cid == None) &&
    (trace != [] && Unanswered(Last(trace)) ==> p.session.cid.Some?) &&
    (Quiet(trace) <==> !(p.standing.Broke? && Throwing(p.standing.status))) &&
    (!st.useDocker ==> trace == [] && p.session.cid == None)
  }

  ghost predicate Counted(p: Pass, runs: nat) {
    |p.tests| <= runs && |TestsIn(p.session.trace)| <= runs
  }

  /** Only the last completion can be unusable or an exception, and then that is where the pass stands. */
  ghost predicate CompletionsStand(sv: Services, w: Work, p: Pass) {
    w.completions <= p.work.completions &&
    (forall n :: w.completions <= n < p.work.completions && !IsUsable(sv.complete(n)) ==>
      n == p.work.completions - 1 && p.standing == if sv.complete(n).ProviderRaises? then Thrown else GaveUp) &&
    (p.standing.GaveUp? ==>
      p.work.completions > w.completions && EndOf(sv.complete(p.work.completions - 1)) == Unusable)
  }

  /** A local run was begun that came to no verdict: it raised an exception. */
  ghost predicate HostRunRaised(sv: Services, w: Work, p: Pass) {
    p.work.testRuns == w.testRuns + |p.tests| + 1 && sv.testLocally(p.work.testRuns - 1, p.work.files).HostRaises?
  }

  ghost predicate HostStands(sv: Services, st: Setting, w: Work, p: Pass) {
    if st.useDocker then p.work.testRuns == w.testRuns
    else p.work.testRuns == w.testRuns + |p.tests| || (HostRunRaised(sv, w, p) && p.standing.Thrown?)
  }

  ghost predicate CompletionRaised(sv: Services, w: Work, p: Pass) {
    exists n :: w.completions <= n < p.work.completions && sv.complete(n).ProviderRaises?
  }

  ghost predicate ThrownFairly(sv: Services, st: Setting, w: Work, p: Pass) {
    p.standing.Thrown? ==> CompletionRaised(sv, w, p) || (!st.useDocker && HostRunRaised(sv, w, p))
  }

  /** All of it, for a pass that started repairing from `w`. */
  ghost predicate PassInv(sv: Services, st: Setting, artifacts: seq<Path>, w: Work, p: Pass) {
    Valid(DockerSettings(sv, st), p.session) && (!p.standing.Broke? ==> Offline(p.session)) &&
    RoundsFollow(sv, p.rounds, artifacts) && Replayed(sv, w, p.rounds, p.work) &&
    |p.rounds| <= st.repairMaxRounds && Counted(p, |p.rounds| + 1) &&
    CompletionsStand(sv, w, p) && HostStands(sv, st, w, p) && ThrownFairly(sv, st, w, p) &&
    VerdictStands(sv, st, p) && VerdictsHeld(sv, st, w, p) && RoundsStartRed(sv, p) && GreenIsLast(p) &&
    DockerStands(st, p) && InOrder(sv, st, w, p)
  }

  /** A test run: it keeps the session valid, comes to at most one verdict, and that is on the present sources. */
  lemma TestsRunFacts(sv: Services, st: Setting, p: Pass)
    requires Valid(DockerSettings(sv, st), p.session) && Offline(p.session) && Quiet(p.session.trace)
    requires !st.useDocker ==> p.session.trace == [] && p.session.cid == None
    requires forall i :: 0 <= i < |p.tests| ==> p.tests[i].exit != Some(0)
    ensures var q := TestsRun(sv, st, p);
      Valid(DockerSettings(sv, st), q.session) && (!q.standing.Broke? ==> Offline(q.session)) && DockerStands(st, q) &&
      GreenIsLast(q) && q.rounds == p.rounds && q.work == p.work.(testRuns := q.work.testRuns) && !q.standing.GaveUp? &&
      |q.tests| <= |p.tests| + 1 && |TestsIn(q.session.trace)| <= |TestsIn(p.session.trace)| + 1 &&
      (q.standing.Judged? ==> q.tests != [] && Last(q.tests) == TestRun(q.work.files, q.standing.exit)) &&
      (q.standing.Judged? && st.useDocker ==>
        TestsIn(q.session.trace) != [] && Judges(Last(TestsIn(q.session.trace)), q.work.files, q.standing.exit))
    ensures var q := TestsRun(sv, st, p);
      if st.useDocker then q.work.testRuns == p.work.testRuns && !q.standing.Thrown?
      else
        q.work.testRuns == p.work.testRuns + 1 &&
        if q.standing.Thrown? then q.tests == p.tests && sv.testLocally(p.work.testRuns, q.work.files).HostRaises?
        else |q.tests| == |p.tests| + 1
  {
    hide Ran, Valid, Offline, TestsIn, Judges, StatusOf, Quiet;
    if st.useDocker {
      RanKeeps(DockerSettings(sv, st), p.session, p.work.files);
      RanEndsAs(DockerSettings(sv, st), p.session, p.work.files);
      StatusOfQuiet(Ran(DockerSettings(sv, st), p.session, p.work.files).status);
    }
  }

  lemma TestsRunVerdicts(sv: Services, st: Setting, w: Work, p: Pass)
    requires Valid(DockerSettings(sv, st), p.session) && Offline(p.session)
    requires VerdictsHeld(sv, st, w, p) && !p.standing.Broke?
    requires !st.useDocker ==> p.work.testRuns == w.testRuns + |p.tests|
    ensures VerdictsHeld(sv, st, w, TestsRun(sv, st, p)) && p.tests <= TestsRun(sv, st, p).tests
  {
    hide Ran, Valid, Offline, TestsIn, Judges;
    if st.useDocker {
      RanKeeps(DockerSettings(sv, st), p.session, p.work.files);
    }
  }

  lemma TestsRunInOrder(sv: Services, st: Setting, w: Work, p: Pass)
    requires InOrder(sv, st, w, p) && !p.standing.Broke?
    ensures InOrder(sv, st, w, TestsRun(sv, st, p))
  {
    hide Ran, Conforms, Closable, Resting, Answered;
    if st.useDocker {
      RanAnswers(DockerSettings(sv, st), w.commands, p.session, p.work.files);
      RanConforms(DockerSettings(sv, st), p.session, p.work.files);
    }
  }

  lemma NothingOutOfOrder(sv: Services, st: Setting, w: Work)
    ensures InOrder(sv, st, w, NewPass(w))
  {
  }

  /** The sources a round starts from were judged last. */
  lemma RedAgain(sv: Services, st: Setting, p: Pass, list: seq<Path>, q: Pass)
    requires VerdictStands(sv, st, p) && RoundsStartRed(sv, p) && IsRed(p.standing)
    requires q.rounds == p.rounds + [Round(p.work, list)] && p.tests <= q.tests
    ensures RoundsStartRed(sv, q)
  {
    forall n | 0 <= n < |q.rounds|
      ensures (n > 0 && sv.violates(q.rounds[n].before.files)) || RedTested(q, q.rounds[n].before.files)
    {
      if n < |p.rounds| {
        if RedTested(p, p.rounds[n].before.files) {
          RedTestedStays(p, q, p.rounds[n].before.files);
        }
      } else if !(p.rounds != [] && sv.violates(p.work.files)) {
        assert p.tests[|p.tests| - 1] == TestRun(p.work.files, p.standing.exit);
        RedTestedStays(p, q, p.work.files);
      }
    }
  }

  lemma RedTestedStays(p: Pass, q: Pass, files: Files)
    requires RedTested(p, files) && p.tests <= q.tests
    ensures RedTested(q, files)
  {
    var i :| 0 <= i < |p.tests| && p.tests[i].files == files && p.tests[i].exit != Some(0);
    assert q.tests[i] == p.tests[i];
  }

  lemma SameVerdicts(sv: Services, st: Setting, w: Work, p: Pass, q: Pass)
    requires VerdictsHeld(sv, st, w, p) && !p.standing.Broke?
    ensures q.tests == p.tests && q.session == p.session ==> VerdictsHeld(sv, st, w, q)
  {
  }

  lemma SameSessionInOrder(sv: Services, st: Setting, w: Work, p: Pass, q: Pass)
    requires InOrder(sv, st, w, p) && !p.standing.Broke?
    ensures q.session == p.session ==> InOrder(sv, st, w, q)
  {
  }

  lemma StatusOfQuiet(status: Status)
    ensures status == Fine ==> !Throwing(status)
  {
  }

  lemma FirstTestFacts(sv: Services, st: Setting, artifacts: seq<Path>, w: Work)
    ensures PassInv(sv, st, artifacts, w, TestsRun(sv, st, NewPass(w)))
  {
    hide Valid, Offline, TestsRun, TestsIn, Judges;
    NothingYet(DockerSettings(sv, st), w.commands);
    TestsRunFacts(sv, st, NewPass(w));
    TestsRunVerdicts(sv, st, w, NewPass(w));
    NothingOutOfOrder(sv, st, w);
    TestsRunInOrder(sv, st, w, NewPass(w));
  }

  lemma RoundDoneFacts(sv: Services, st: Setting, artifacts: seq<Path>, w: Work, p: Pass)
    requires PassInv(sv, st, artifacts, w, p) && IsRed(p.standing) && |p.rounds| < st.repairMaxRounds
    ensures PassInv(sv, st, artifacts, w, RoundDone(sv, st, artifacts, p))
  {
    hide Valid, Offline, TestsRun, TestsIn, Judges, OnlyChanged, Replayed, RoundsFollow, Repaired, ToRepair, Quiet,
      RoundsStartRed, VerdictsHeld, RedTested, InOrder;
    var list := ToRepair(sv, |p.rounds|, p.work.files, artifacts);
    var r := Repaired(sv, p.work, list);
    RepairedFrame(sv, p.work, list);
    var q := p.(work := r.work, rounds := p.rounds + [Round(p.work, list)]);
    RoundCompletions(sv, w, p, r, list);
    SameSessionInOrder(sv, st, w, p, q);
    SameSessionInOrder(sv, st, w, p, RoundDone(sv, st, artifacts, p));
    SameVerdicts(sv, st, w, p, q);
    SameVerdicts(sv, st, w, p, RoundDone(sv, st, artifacts, p));
    if r.end.Wrote? && !sv.violates(r.work.files) {
      TestsRunFacts(sv, st, q);
      TestsRunVerdicts(sv, st, w, q);
      TestsRunInOrder(sv, st, w, q);
    }
    RoundsSnoc(sv, p.rounds, artifacts, w, p.work, RoundDone(sv, st, artifacts, p).work);
    RedAgain(sv, st, p, list, RoundDone(sv, st, artifacts, p));
  }

  /** What the round's completions say. */
  lemma RoundCompletions(sv: Services, w: Work, p: Pass, r: Written, list: seq<Path>)
    requires CompletionsStand(sv, w, p) && IsRed(p.standing) && r == Repaired(sv, p.work, list)
    ensures w.completions <= r.work.completions
    ensures forall n :: w.completions <= n < r.work.completions && !IsUsable(sv.complete(n)) ==>
      n == r.work.completions - 1 && EndOf(sv.complete(n)) == r.end
    ensures !r.end.Wrote? ==> r.work.completions > w.completions && EndOf(sv.complete(r.work.completions - 1)) == r.end
    ensures r.end.ProviderThrew? ==> sv.complete(r.work.completions - 1).ProviderRaises?
  {
    RepairedFrame(sv, p.work, list);
  }

  lemma {:induction false} RoundsDoneFacts(sv: Services, st: Setting, artifacts: seq<Path>, w: Work, p: Pass)
    requires PassInv(sv, st, artifacts, w, p)
    ensures var q := RoundsDone(sv, st, artifacts, p);
      PassInv(sv, st, artifacts, w, q) && (IsRed(q.standing) ==> |q.rounds| == st.repairMaxRounds)
    decreases st.repairMaxRounds - |p.rounds|
  {
    hide RoundDone;
    if IsRed(p.standing) && |p.rounds| < st.repairMaxRounds {
      RoundDoneFacts(sv, st, artifacts, w, p);
      OneMoreRound(sv, st, artifacts, p);
      hide PassInv;
      RoundsDoneFacts(sv, st, artifacts, w, RoundDone(sv, st, artifacts, p));
    }
  }

  lemma OneMoreRound(sv: Services, st: Setting, artifacts: seq<Path>, p: Pass)
    ensures |RoundDone(sv, st, artifacts, p).rounds| == |p.rounds| + 1
  {
    hide Ran, Repaired;
  }

  // ----- the theorems on a pass -----

  /** The pass before the container is closed; it exists when everything compiles in the end. */
  function Tried(sv: Services, st: Setting, artifacts: seq<Path>, w: Work): Pass {
    RoundsDone(sv, st, artifacts, TestsRun(sv, st, NewPass(Compiled(sv, artifacts, w).work)))
  }

  function Compiled(sv: Services, artifacts: seq<Path>, w: Work): Written {
    Repaired(sv, w, sv.broken(w.files, artifacts))
  }

  lemma TriedFacts(sv: Services, st: Setting, artifacts: seq<Path>, w: Work)
    requires Compiled(sv, artifacts, w).end.Wrote?
    ensures var p := Tried(sv, st, artifacts, w);
      PassInv(sv, st, artifacts, Compiled(sv, artifacts, w).work, p) &&
      (IsRed(p.standing) ==> |p.rounds| == st.repairMaxRounds) &&
      VerifiedWork(sv, st, artifacts, w) == Finished(sv, st, artifacts, w.completions, p)
  {
    hide PassInv, RoundsDone, TestsRun, Repaired, Finished;
    var c := Compiled(sv, artifacts, w).work;
    FirstTestFacts(sv, st, artifacts, c);
    RoundsDoneFacts(sv, st, artifacts, c, TestsRun(sv, st, NewPass(c)));
  }

  /** Success means that the test command exited 0 on the very sources that are left behind, as the last local run
      or in docker as the last test command of the trace, and that after any repair they violate no contract. */
  lemma SuccessIsVerified(sv: Services, st: Setting, artifacts: seq<Path>, w: Work)
    requires VerifiedWork(sv, st, artifacts, w).result.StepSuccess?
    ensures var v := VerifiedWork(sv, st, artifacts, w);
      v.result.artifacts == artifacts && v.result.phaseComplete &&
      v.pass.tests != [] && Last(v.pass.tests) == TestRun(v.pass.work.files, Some(0)) &&
      (v.pass.rounds != [] ==> !sv.violates(v.pass.work.files)) &&
      (!st.useDocker ==>
        v.pass.work.testRuns > w.testRuns &&
        sv.testLocally(v.pass.work.testRuns - 1, v.pass.work.files) == HostRun(Some(0))) &&
      (st.useDocker ==>
        TestsIn(v.pass.session.trace) != [] && Judges(Last(TestsIn(v.pass.session.trace)), v.pass.work.files, Some(0)))
  {
    hide Valid, Offline, TestsIn, Judges, Replayed, RoundsFollow, Closed, Repaired;
    TriedFacts(sv, st, artifacts, w);
    RepairedFrame(sv, w, sv.broken(w.files, artifacts));
    var p := Tried(sv, st, artifacts, w);
    ClosedKeeps(DockerSettings(sv, st), p.session);
    if !st.useDocker {
      assert AnsweredLocally(sv, w.testRuns + |p.tests| - 1, p.tests[|p.tests| - 1]);
    }
  }

  /** No verdict is made up: the n-th is the answer of the n-th local run, or of the n-th test command in docker, on
      the sources it names. A green one is the last and does not end in failure; a round starts only from sources that
      were tested red or violate the contract after a repair. */
  lemma VerdictsAreReal(sv: Services, st: Setting, artifacts: seq<Path>, w: Work)
    ensures var v := VerifiedWork(sv, st, artifacts, w);
      (!st.useDocker ==>
        forall i :: 0 <= i < |v.pass.tests| ==>
          sv.testLocally(w.testRuns + i, v.pass.tests[i].files) == HostRun(v.pass.tests[i].exit)) &&
      (st.useDocker ==>
        |v.pass.tests| <= |TestsIn(v.pass.session.trace)| &&
        forall i :: 0 <= i < |v.pass.tests| ==>
          Judges(TestsIn(v.pass.session.trace)[i], v.pass.tests[i].files, v.pass.tests[i].exit)) &&
      (forall i :: 0 <= i < |v.pass.tests| && v.pass.tests[i].exit == Some(0) ==>
        i == |v.pass.tests| - 1 && !v.result.StepFailure?) &&
      RoundsStartRed(sv, v.pass)
  {
    hide Valid, Offline, TestsIn, Judges, Replayed, RoundsFollow, Closed, Repaired;
    RepairedFrame(sv, w, sv.broken(w.files, artifacts));
    if Compiled(sv, artifacts, w).end.Wrote? {
      TriedFacts(sv, st, artifacts, w);
      var p := Tried(sv, st, artifacts, w);
      ClosedKeeps(DockerSettings(sv, st), p.session);
      assert RoundsStartRed(sv, p);
      forall n | 0 <= n < |p.rounds| && RedTested(p, p.rounds[n].before.files)
        ensures RedTested(VerifiedWork(sv, st, artifacts, w).pass, p.rounds[n].before.files)
      {
        RedTestedStays(p, VerifiedWork(sv, st, artifacts, w).pass, p.rounds[n].before.files);
      }
      if !st.useDocker {
        forall i | 0 <= i < |p.tests|
          ensures sv.testLocally(w.testRuns + i, p.tests[i].files) == HostRun(p.tests[i].exit)
        {
          assert AnsweredLocally(sv, w.testRuns + i, p.tests[i]);
        }
      }
    }
  }

  /** The tokens of a pass or a unit that ends without an exception are those of all completions it asked for. */
  lemma TokensAreCounted(sv: Services, st: Setting, w: Work, targets: seq<Path>, done: seq<Path>, tested: bool)
    ensures var v := VerifiedWork(sv, st, targets, w);
      !v.result.Escaped? ==> v.result.tokens == TokensUsed(sv.complete, w.completions, v.pass.work.completions)
    ensures var u := CodeUnit(sv, st, w, targets, done, tested);
      !u.result.Escaped? ==> u.result.tokens == TokensUsed(sv.complete, w.completions, u.work.completions)
    ensures forall n: nat ::
      TokensUsed(sv.complete, n, n + 1) == (if sv.complete(n).Completion? then sv.complete(n).tokens else 0)
  {
    hide Repaired, Closed, RoundsDone, TestsRun, Generated;
  }

  /** A failure has one of three causes: the last completion asked for was unusable; docker refused a
      command that has to succeed; or all repair rounds are used up and the sources left behind are red. */
  lemma FailureHasACause(sv: Services, st: Setting, artifacts: seq<Path>, w: Work)
    requires VerifiedWork(sv, st, artifacts, w).result.StepFailure?
    ensures var p := VerifiedWork(sv, st, artifacts, w).pass;
      (p.work.completions > w.completions && EndOf(sv.complete(p.work.completions - 1)) == Unusable) ||
      (st.useDocker && exists e :: e in p.session.trace && StatusOf(e) == DockerError) ||
      (|p.rounds| == st.repairMaxRounds &&
       ((p.rounds != [] && sv.violates(p.work.files)) ||
        (p.tests != [] && Last(p.tests).files == p.work.files && Last(p.tests).exit != Some(0))))
  {
    hide Valid, Offline, TestsIn, Judges, Replayed, RoundsFollow, Closed, Repaired, StatusOf;
    RepairedFrame(sv, w, sv.broken(w.files, artifacts));
    if Compiled(sv, artifacts, w).end.Wrote? {
      TriedFacts(sv, st, artifacts, w);
      var p := Tried(sv, st, artifacts, w);
      ClosedEndsAs(DockerSettings(sv, st), p.session);
      if p.standing.Broke? {
        assert Last(p.session.trace) in p.session.trace;
        assert Last(p.session.trace) in Closed(DockerSettings(sv, st), p.session).session.trace;
      }
    }
  }

  /** Docker made an exception leave the pass: a command raised one, a container was started and nothing was printed,
      or the last command was a removal that was never answered. */
  ghost predicate DockerThrew(trace: seq<Event>) {
    !Quiet(trace) || (trace != [] && Unanswered(Last(trace)))
  }

  /** An exception leaves the pass exactly when a completion, a local test run or docker raised one. */
  lemma EscapesIff(sv: Services, st: Setting, artifacts: seq<Path>, w: Work)
    ensures var v := VerifiedWork(sv, st, artifacts, w);
      v.result.Escaped? <==>
        CompletionRaised(sv, w, v.pass) || (!st.useDocker && HostRunRaised(sv, w, v.pass)) ||
        DockerThrew(v.pass.session.trace)
  {
    hide Valid, Offline, TestsIn, Judges, Replayed, RoundsFollow, Repaired, OnlyChanged, TokensUsed;
    RepairedFrame(sv, w, sv.broken(w.files, artifacts));
    var c := Compiled(sv, artifacts, w);
    if c.end.Wrote? {
      TriedFacts(sv, st, artifacts, w);
      var p := Tried(sv, st, artifacts, w);
      ClosedEndsAs(DockerSettings(sv, st), p.session);
      EarlierCompletions(sv, w, c.work, p);
      hide Closed;
      ClosingThrows(sv, st, p);
    } else if c.end.ProviderThrew? {
      assert sv.complete(c.work.completions - 1).ProviderRaises?;
    }
  }

  lemma EarlierCompletions(sv: Services, w: Work, c: Work, p: Pass)
    requires w.completions <= c.completions <= p.work.completions && w.testRuns == c.testRuns
    requires forall n :: w.completions <= n < c.completions ==> IsUsable(sv.complete(n))
    ensures CompletionRaised(sv, w, p) <==> CompletionRaised(sv, c, p)
    ensures HostRunRaised(sv, w, p) <==> HostRunRaised(sv, c, p)
  {
    if CompletionRaised(sv, w, p) {
      var n :| w.completions <= n < p.work.completions && sv.complete(n).ProviderRaises?;
      assert c.completions <= n;
    }
  }

  /** What closing adds. */
  lemma ClosingThrows(sv: Services, st: Setting, p: Pass)
    requires DockerStands(st, p)
    ensures var closed := Closed(DockerSettings(sv, st), p.session);
      DockerThrew(closed.session.trace) <==> closed.status != Fine || (p.standing.Broke? && Throwing(p.standing.status))
  {
    hide Quiet;
    ClosedEndsAs(DockerSettings(sv, st), p.session);
    var closed := Closed(DockerSettings(sv, st), p.session);
    if p.session.cid.Some? {
      QuietSnoc(p.session.trace, Last(closed.session.trace));
    }
  }

  /** At most one test run more than the repair rounds allowed, counting those docker broke, and the first
      green one ends the testing. */
  lemma TestsAreBounded(sv: Services, st: Setting, artifacts: seq<Path>, w: Work)
    ensures var p := VerifiedWork(sv, st, artifacts, w).pass;
      |p.rounds| <= st.repairMaxRounds && |p.tests| <= |p.rounds| + 1 && |TestsIn(p.session.trace)| <= |p.rounds| + 1 &&
      forall i :: 0 <= i < |p.tests| - 1 ==> p.tests[i].exit != Some(0)
  {
    hide Valid, Offline, TestsIn, Judges, Replayed, RoundsFollow, Closed, Repaired;
    NothingYet(DockerSettings(sv, st), w.commands);
    if Compiled(sv, artifacts, w).end.Wrote? {
      TriedFacts(sv, st, artifacts, w);
      ClosedKeeps(DockerSettings(sv, st), Tried(sv, st, artifacts, w).session);
    }
  }

  /** Only files that did not compile or were implicated in some round are changed; the rounds repair what the failing
      run implicates, or everything when it implicates nothing, and what they write is all that happens. */
  lemma OnlyImplicatedChange(sv: Services, st: Setting, artifacts: seq<Path>, w: Work)
    ensures var p := VerifiedWork(sv, st, artifacts, w).pass;
      var compiled := Repaired(sv, w, sv.broken(w.files, artifacts)).work;
      RoundsFollow(sv, p.rounds, artifacts) && Replayed(sv, compiled, p.rounds, p.work) &&
      OnlyChanged(w.files, p.work.files, Elems(sv.broken(w.files, artifacts)) + Touched(p.rounds))
  {
    hide Valid, Offline, TestsIn, Judges, Closed, Repaired, OnlyChanged;
    var c := Compiled(sv, artifacts, w);
    var broken := Elems(sv.broken(w.files, artifacts));
    RepairedFrame(sv, w, sv.broken(w.files, artifacts));
    NoChange(c.work.files, {});
    ChangesCompose(w.files, c.work.files, c.work.files, broken, {});
    if c.end.Wrote? {
      TriedFacts(sv, st, artifacts, w);
      var p := Tried(sv, st, artifacts, w);
      ReplayedTouches(sv, c.work, p.rounds, p.work);
      ReplayedSame(sv, c.work, p.rounds, p.work, VerifiedWork(sv, st, artifacts, w).pass.work);
      ChangesCompose(w.files, c.work.files, p.work.files, broken, Touched(p.rounds));
    }
  }

  lemma ReplayedSame(sv: Services, before: Work, rounds: seq<Round>, after: Work, same: Work)
    requires Replayed(sv, before, rounds, after) && same.files == after.files && same.completions == after.completions
    ensures Replayed(sv, before, rounds, same)
  {
    hide Repaired;
  }

  /** A whole pass is safe: tests run off the network on the sources just copied in. While nothing is lost, at most one
      container has run at a time, and at the end none runs if the last removal was answered. When docker prints
      nobody else's identifier, this is exact. */
  lemma NothingLeftRunningIff(sv: Services, st: Setting, artifacts: seq<Path>, w: Work)
    ensures var trace := VerifiedWork(sv, st, artifacts, w).pass.session.trace;
      Safe(trace) && (NoStartAfterLoss(trace) ==> AtMostOne(trace)) &&
      (NothingLost(trace) && !(trace != [] && Unanswered(Last(trace))) ==> Running(trace) == multiset{}) &&
      (OwnNames(trace) ==>
        (AtMostOne(trace) <==> NoStartAfterLoss(trace)) &&
        (Running(trace) == multiset{} <==> NothingLost(trace) && !(trace != [] && Unanswered(Last(trace)))))
  {
    hide TestsIn, Judges, Replayed, RoundsFollow, Closed, Repaired, Running, Safe, AtMostOne, Offline, NoStartAfterLoss,
      NothingLost, OwnNames, Leftover, Quiet;
    NothingYet(DockerSettings(sv, st), w.commands);
    if Compiled(sv, artifacts, w).end.Wrote? {
      TriedFacts(sv, st, artifacts, w);
      var p := Tried(sv, st, artifacts, w);
      ClosedKeeps(DockerSettings(sv, st), p.session);
      ClosedEndsAs(DockerSettings(sv, st), p.session);
      var closed := Closed(DockerSettings(sv, st), p.session).session;
      ClosedOrUnanswered(sv, st, p);
      if Leftover(closed.trace, closed.cid) {
        LeftoverRuns(closed.trace, closed.cid);
      }
    }
  }

  /** The docker commands of a pass are in order, the n-th one got docker's n-th reply, and the last one, if any, is a
      removal or a start that came to nothing. With something to set up, every test runs in a container into which the
      workspace was copied, in which the setup command then succeeded, and which was then taken off the network;
      without, nothing is set up. */
  lemma CommandsAreInOrder(sv: Services, st: Setting, artifacts: seq<Path>, w: Work)
    ensures var trace := VerifiedWork(sv, st, artifacts, w).pass.session.trace;
      Conforms(DockerSettings(sv, st), trace) &&
      VerifiedWork(sv, st, artifacts, w).pass.work.commands == w.commands + |trace| &&
      (forall i :: 0 <= i < |trace| ==> IsAnswer(DockerSettings(sv, st), w.commands + i, trace[i])) &&
      (trace != [] ==> st.useDocker && (Last(trace).command.Remove? || Last(trace).command.StartContainer?)) &&
      (forall i :: 0 <= i < |trace| && trace[i].command.Test? && st.dockerSetup ==>
        Installed(trace[..i], trace[i].command.cid)) &&
      (forall i :: 0 <= i < |trace| && trace[i].command.Setup? ==> st.dockerSetup)
  {
    hide TestsIn, Judges, Replayed, RoundsFollow, Closed, Repaired, Running, Safe, AtMostOne, Offline, Conforms,
      Closable, Resting, Valid, Installed;
    NothingOutOfOrder(sv, st, w);
    RepairedFrame(sv, w, sv.broken(w.files, artifacts));
    var v := VerifiedWork(sv, st, artifacts, w).pass;
    if Compiled(sv, artifacts, w).end.Wrote? {
      TriedFacts(sv, st, artifacts, w);
      var p := Tried(sv, st, artifacts, w);
      ClosedConforms(DockerSettings(sv, st), p.session);
      ClosedAnswers(DockerSettings(sv, st), w.commands, p.session);
      ClosedEndsAs(DockerSettings(sv, st), p.session);
      ClosedEnd(DockerSettings(sv, st), p.session);
    }
    forall i | 0 <= i < |v.session.trace|
      ensures v.session.trace[i].command.Test? && st.dockerSetup ==>
        Installed(v.session.trace[..i], v.session.trace[i].command.cid)
      ensures v.session.trace[i].command.Setup? ==> st.dockerSetup
    {
      TestsAreInstalled(DockerSettings(sv, st), v.session.trace, i);
    }
  }

  lemma ClosedEnd(x: Settings, s: Session)
    requires Closable(x, s)
    ensures var t := Closed(x, s).session.trace;
      t != [] ==> Last(t).command.Remove? || Last(t).command.StartContainer?
  {
    hide ProperNext;
  }

  lemma ClosedOrUnanswered(sv: Services, st: Setting, p: Pass)
    requires DockerStands(st, p)
    ensures var t := Closed(DockerSettings(sv, st), p.session).session;
      t.cid == None <==> !(t.trace != [] && Unanswered(Last(t.trace)))
  {
    ClosedEndsAs(DockerSettings(sv, st), p.session);
  }

  /** Sources that compile and whose first local test run is green are left alone and succeed. */
  lemma GreenWorkSucceeds(sv: Services, st: Setting, artifacts: seq<Path>, w: Work)
    requires sv.broken(w.files, artifacts) == [] && !st.useDocker
    requires sv.testLocally(w.testRuns, w.files) == HostRun(Some(0))
    ensures var v := VerifiedWork(sv, st, artifacts, w);
      v.result == StepSuccess(artifacts, true, 0) && v.pass.rounds == [] &&
      v.pass.work == w.(testRuns := w.testRuns + 1)
  {
    NoTokens(sv.complete, w.completions);
  }

  /** So they are in docker when every command succeeds and the new container is named. */
  lemma GreenWorkSucceedsInDocker(sv: Services, st: Setting, artifacts: seq<Path>, w: Work, cid: string)
    requires sv.broken(w.files, artifacts) == [] && st.useDocker && forall n :: sv.docker(n) == Exit(0, Some(cid))
    ensures var v := VerifiedWork(sv, st, artifacts, w);
      v.result == StepSuccess(artifacts, true, 0) && v.pass.rounds == [] && v.pass.work.files == w.files
  {
    hide TokensUsed, Ran, Closed;
    NoTokens(sv.complete, w.completions);
    var x, s := DockerSettings(sv, st), Session(None, w.commands, []);
    SmoothRun(x, s, w.files, cid);
    ClosedEndsAs(x, Ran(x, s, w.files).session);
    SmoothClose(x, Ran(x, s, w.files).session, cid);
  }

  lemma SmoothRun(x: Settings, s: Session, files: Files, cid: string)
    requires s.cid == None && forall n :: x.replies(n) == Exit(0, Some(cid))
    ensures Ran(x, s, files).status == Fine && Ran(x, s, files).exit == Some(0)
  {
  }

  lemma SmoothClose(x: Settings, s: Session, cid: string)
    requires forall n :: x.replies(n) == Exit(0, Some(cid))
    ensures Closed(x, s).status == Fine
  {
  }

  /** `docker run` succeeds without output: the pass, of sources that compile, is left by an exception. */
  lemma NamelessContainerEscapes(sv: Services, st: Setting, artifacts: seq<Path>, w: Work)
    requires sv.broken(w.files, artifacts) == [] && st.useDocker && sv.docker(w.commands) == Exit(0, None)
    ensures var v := VerifiedWork(sv, st, artifacts, w);
      var container := sv.containers(w.commands);
      v.result == Escaped && Running(v.pass.session.trace) == multiset{container} &&
      v.pass.session.trace == [Event(StartContainer(st.dockerSetup, container), Exit(0, None))]
  {
    hide TokensUsed;
    NothingRuns();
    RunningSnoc([], Event(StartContainer(st.dockerSetup, sv.containers(w.commands)), Exit(0, None)));
  }

  // ----- the theorems on a unit -----

  function AsOutcome(r: StepResult, checksPass: bool): Supervisor.Outcome {
    if r.StepSuccess? then Supervisor.Succeeded(r.artifacts, r.phaseComplete, [], None, checksPass)
      else Supervisor.Failed
  }

  /** What a unit reports is what the supervisor's unit mode relies on. */
  lemma UnitsReportFairly(sv: Services, st: Setting, w: Work, targets: seq<Path>, done: seq<Path>, tested: bool,
                          checks: bool)
    requires targets != []
    ensures Units.UnitOutcome(targets, tested, done,
      AsOutcome(CodeUnit(sv, st, w, targets, done, tested).result, checks))
  {
    hide VerifiedWork, Generated, TokensUsed, Units.Remaining;
    if VerifiedWork(sv, st, targets, w).result.StepSuccess? {
      SuccessIsVerified(sv, st, targets, w);
    }
  }

  /** A generating unit goes by its first completion, and by the second one if the first is unusable: it succeeds on a
      usable one and writes exactly the next target, ends with an exception on one that raises, and fails and writes
      nothing when both are unusable. */
  lemma GeneratingUnit(sv: Services, st: Setting, w: Work, targets: seq<Path>, done: seq<Path>, tested: bool)
    requires Units.Remaining(targets, done) != []
    ensures var u := CodeUnit(sv, st, w, targets, done, tested);
      var rel, n := Units.Remaining(targets, done)[0], w.completions;
      var last := if EndOf(sv.complete(n)) == Unusable then n + 1 else n;
      var end := EndOf(sv.complete(last));
      (u.result.StepSuccess? <==> end == Wrote) && (u.result.Escaped? <==> end == ProviderThrew) &&
      u.work == w.(completions := last + 1,
                   files := if end == Wrote then w.files[rel := sv.complete(last).text] else w.files)
  {
    hide TokensUsed;
    var rel, second := Units.Remaining(targets, done)[0], Complete(w);
    assert Generated(sv, Complete(second), rel, 0) == Written(Complete(second), Unusable);
    var c := sv.complete(w.completions + 1);
    assert Generated(sv, second, rel, 1) ==
      Written(if EndOf(c) == Wrote then Write(Complete(second), rel, c.text) else Complete(second), EndOf(c));
  }

  /** The last unit succeeds without tests at once, and with tests exactly when the pass does. */
  lemma FinalUnit(sv: Services, st: Setting, w: Work, targets: seq<Path>, done: seq<Path>, tested: bool)
    requires Units.Remaining(targets, done) == []
    ensures var u := CodeUnit(sv, st, w, targets, done, tested);
      (!tested ==> u.result == StepSuccess(targets, true, 0) && u.work == w) &&
      (tested ==> u.result == VerifiedWork(sv, st, targets, w).result) &&
      (tested && u.result.StepSuccess? ==>
        var tests := VerifiedWork(sv, st, targets, w).pass.tests;
        tests != [] && Last(tests) == TestRun(u.work.files, Some(0)))
  {
    hide VerifiedWork;
    if tested && VerifiedWork(sv, st, targets, w).result.StepSuccess? {
      SuccessIsVerified(sv, st, targets, w);
    }
  }
}
