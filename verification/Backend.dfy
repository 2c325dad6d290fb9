/** The implementation backend: artifacts generated one by one, then verified and repaired. */
module Backend {
  import opened Options
  import opened Sequences
  import PhaseDag
  import opened Docker
  import Units

  const PER_FILE_ATTEMPTS := 2

  /** One provider call: a completion, unusable when empty or truncated, or an exception. */
  datatype Completion = Completion(text: string, usable: bool, tokens: nat) | ProviderRaises

  /** One local test run: an exit code, None for a timeout, or an exception. */
  datatype HostRun = HostRun(exit: Option<int>) | HostRaises

  /** What the backend asks of the world: the n-th completion, which artifacts do not compile, the n-th local test
      run on given sources, the artifacts implicated in repair round n (none when the output names none), contract
      violations, the replies of the docker command line, and the containers it brings up. */
  datatype Services = Services(
    complete: nat -> Completion,
    broken: (Files, seq<Path>) -> seq<Path>,
    testLocally: (nat, Files) -> HostRun,
    implicated: (nat, Files, seq<Path>) -> seq<Path>,
    violates: Files -> bool,
    docker: nat -> Reply,
    containers: nat -> string)

  datatype Setting = Setting(repairMaxRounds: nat, useDocker: bool, dockerSetup: bool, copiesReport: bool)

  /** `Escaped` is an exception leaving the pass; the supervisor treats it as a failure. */
  datatype StepResult =
    | StepFailure(tokens: nat)
    | StepSuccess(artifacts: seq<Path>, phaseComplete: bool, tokens: nat)
    | Escaped

  /** The workspace, and how often each service has been asked so far. */
  datatype Work = Work(files: Files, completions: nat, testRuns: nat, commands: nat)

  /** Tokens of the completions numbered `first` up to, not including, `last`. */
  function TokensUsed(complete: nat -> Completion, first: nat, last: nat): nat
    decreases last
  {
    if last <= first then 0 else TokensUsed(complete, first, last - 1) + Cost(complete(last - 1))
  }

  function Cost(c: Completion): nat {
    if c.Completion? then c.tokens else 0
  }

  predicate IsUsable(c: Completion) {
    c.Completion? && c.usable
  }

  lemma {:induction false} TokensAddUp(complete: nat -> Completion, first: nat, mid: nat, last: nat)
    requires first <= mid <= last
    ensures TokensUsed(complete, first, last) == TokensUsed(complete, first, mid) + TokensUsed(complete, mid, last)
    decreases last
  {
    if mid < last {
      TokensAddUp(complete, first, mid, last - 1);
    }
  }

  // ----- writing files -----

  datatype WriteEnd = Wrote | Unusable | ProviderThrew

  datatype Written = Written(work: Work, end: WriteEnd)

  function Complete(w: Work): Work {
    w.(completions := w.completions + 1)
  }

  function Write(w: Work, rel: Path, text: string): Work {
    w.(files := w.files[rel := text])
  }

  /** Generate one file within the given number of attempts. */
  function Generated(sv: Services, w: Work, rel: Path, attempts: nat): Written
    decreases attempts
  {
    if attempts == 0 then Written(w, Unusable) else
    match sv.complete(w.completions)
    case ProviderRaises => Written(Complete(w), ProviderThrew)
    case Completion(text, usable, _) =>
      if usable then Written(Write(Complete(w), rel, text), Wrote) else Generated(sv, Complete(w), rel, attempts - 1)
  }

  /** One repair completion per listed file, up to the first unusable one. */
  function Repaired(sv: Services, w: Work, list: seq<Path>): Written
    decreases |list|
  {
    if list == [] then Written(w, Wrote) else
    match sv.complete(w.completions)
    case ProviderRaises => Written(Complete(w), ProviderThrew)
    case Completion(text, usable, _) =>
      if usable then Repaired(sv, Write(Complete(w), list[0], text), list[1..]) else Written(Complete(w), Unusable)
  }

  /** No path outside `allowed` was added, removed or rewritten. */
  ghost predicate OnlyChanged(before: Files, after: Files, allowed: set<Path>) {
    forall rel :: rel !in allowed ==>
      (rel in before <==> rel in after) && (rel in before ==> before[rel] == after[rel])
  }

  lemma ChangesCompose(before: Files, mid: Files, after: Files, first: set<Path>, second: set<Path>)
    requires OnlyChanged(before, mid, first) && OnlyChanged(mid, after, second)
    ensures OnlyChanged(before, after, first + second)
  {
  }

  lemma PrefixElems(list: seq<Path>, n: nat)
    requires list != [] && n <= |list[1..]|
    ensures Elems(list[..n + 1]) == {list[0]} + Elems(list[1..][..n]) && Elems(list) == {list[0]} + Elems(list[1..])
  {
    assert list[..n + 1] == [list[0]] + list[1..][..n];
    assert list == [list[0]] + list[1..];
  }

  lemma WriteFrame(files: Files, rel: Path, text: string)
    ensures OnlyChanged(files, files[rel := text], {rel})
  {
  }

  /** A repair writes only the files it asked a completion for, and ends at the first completion that is not usable,
      as that one says. */
  lemma RepairedFrame(sv: Services, w: Work, list: seq<Path>)
    ensures w.completions <= Repaired(sv, w, list).work.completions <= w.completions + |list|
    ensures var r := Repaired(sv, w, list);
      OnlyChanged(w.files, r.work.files, Elems(list[..r.work.completions - w.completions])) &&
      OnlyChanged(w.files, r.work.files, Elems(list)) &&
      r.work == w.(files := r.work.files, completions := r.work.completions) &&
      (r.end.Wrote? <==> forall n :: w.completions <= n < w.completions + |list| ==> IsUsable(sv.complete(n))) &&
      (r.end.Wrote? ==> r.work.completions == w.completions + |list|) &&
      (!r.end.Wrote? ==> r.work.completions > w.completions && EndOf(sv.complete(r.work.completions - 1)) == r.end) &&
      forall n :: w.completions <= n < r.work.completions - 1 ==> IsUsable(sv.complete(n))
  {
    hide Repaired, OnlyChanged;
    RepairedAsks(sv, w, list);
    RepairedChanges(sv, w, list, Repaired(sv, w, list).work.completions - w.completions);
  }

  lemma {:induction false} RepairedAsks(sv: Services, w: Work, list: seq<Path>)
    ensures var r := Repaired(sv, w, list);
      w.completions <= r.work.completions <= w.completions + |list| &&
      r.work == w.(files := r.work.files, completions := r.work.completions) &&
      (r.end.Wrote? <==> forall n :: w.completions <= n < w.completions + |list| ==> IsUsable(sv.complete(n))) &&
      (r.end.Wrote? ==> r.work.completions == w.completions + |list|) &&
      (!r.end.Wrote? ==> r.work.completions > w.completions && EndOf(sv.complete(r.work.completions - 1)) == r.end) &&
      forall n :: w.completions <= n < r.work.completions - 1 ==> IsUsable(sv.complete(n))
    decreases |list|
  {
    if list != [] && IsUsable(sv.complete(w.completions)) {
      RepairedAsks(sv, Write(Complete(w), list[0], sv.complete(w.completions).text), list[1..]);
    }
  }

  lemma {:induction false} RepairedChanges(sv: Services, w: Work, list: seq<Path>, asked: nat)
    requires asked == Repaired(sv, w, list).work.completions - w.completions <= |list|
    ensures OnlyChanged(w.files, Repaired(sv, w, list).work.files, Elems(list[..asked]))
    ensures OnlyChanged(w.files, Repaired(sv, w, list).work.files, Elems(list))
    decreases |list|
  {
    hide Elems, OnlyChanged;
    RepairedAsks(sv, w, list);
    if list != [] && IsUsable(sv.complete(w.completions)) {
      var next := Write(Complete(w), list[0], sv.complete(w.completions).text);
      var end := Repaired(sv, next, list[1..]).work.files;
      RepairedAsks(sv, next, list[1..]);
      RepairedChanges(sv, next, list[1..], asked - 1);
      PrefixElems(list, asked - 1);
      WriteFrame(w.files, list[0], next.files[list[0]]);
      ChangesCompose(w.files, next.files, end, {list[0]}, Elems(list[1..][..asked - 1]));
      ChangesCompose(w.files, next.files, end, {list[0]}, Elems(list[1..]));
    } else {
      NoChange(w.files, Elems(list));
      NoChange(w.files, Elems(list[..asked]));
    }
  }

  lemma NoChange(files: Files, allowed: set<Path>)
    ensures OnlyChanged(files, files, allowed)
  {
  }

  function EndOf(c: Completion): WriteEnd {
    if c.ProviderRaises? then ProviderThrew else if c.usable then Wrote else Unusable
  }

  /** Each file a usable completion was asked for receives that completion's text; a file listed twice keeps the
      later one. */
  lemma {:induction false} RepairedTexts(sv: Services, w: Work, list: seq<Path>, i: nat, asked: nat)
    requires asked == Repaired(sv, w, list).work.completions - w.completions
    requires i < asked <= |list| && IsUsable(sv.complete(w.completions + i)) && list[i] !in list[i + 1..asked]
    ensures var files := Repaired(sv, w, list).work.files;
      list[i] in files && files[list[i]] == sv.complete(w.completions + i).text
    decreases |list|
  {
    RepairedFrame(sv, w, list);
    var next := Write(Complete(w), list[0], sv.complete(w.completions).text);
    if i > 0 {
      assert IsUsable(sv.complete(w.completions));
      assert list[1..][i..asked - 1] == list[i + 1..asked];
      RepairedTexts(sv, next, list[1..], i - 1, asked - 1);
    } else {
      RepairedFrame(sv, next, list[1..]);
      assert list[1..asked] == list[1..][..asked - 1];
      assert list[0] !in Elems(list[1..asked]);
    }
  }

  // ----- a verification pass -----

  /** A test run that came to a verdict: the sources it judged and the exit code, None for a timeout. */
  datatype TestRun = TestRun(files: Files, exit: Option<int>)

  /** A repair round: what it started from and the files it was to repair. */
  datatype Round = Round(before: Work, list: seq<Path>)

  /** Where a pass stands: the latest verdict, an unusable repair, docker trouble, or an exception of a service. */
  datatype Standing = Judged(exit: Option<int>) | GaveUp | Broke(status: Status) | Thrown

  datatype Pass = Pass(work: Work, session: Session, rounds: seq<Round>, tests: seq<TestRun>, standing: Standing)

  predicate IsRed(standing: Standing) {
    standing.Judged? && standing.exit != Some(0)
  }

  function DockerSettings(sv: Services, st: Setting): Settings {
    Settings(st.dockerSetup, st.copiesReport, sv.docker, sv.containers)
  }

  /** What round n repairs: the implicated artifacts, or all of them when none is implicated. */
  function ToRepair(sv: Services, n: nat, files: Files, artifacts: seq<Path>): seq<Path> {
    var named := sv.implicated(n, files, artifacts);
    if named == [] then artifacts else named
  }

  /** Run the test command on the present sources, in the container or on the host. */
  function TestsRun(sv: Services, st: Setting, p: Pass): Pass {
    if st.useDocker then
      var r := Ran(DockerSettings(sv, st), p.session, p.work.files);
      if r.status != Fine then p.(session := r.session, standing := Broke(r.status))
      else WithVerdict(p.(session := r.session), r.exit)
    else
      var q := p.(work := p.work.(testRuns := p.work.testRuns + 1));
      match sv.testLocally(p.work.testRuns, p.work.files)
      case HostRun(exit) => WithVerdict(q, exit)
      case HostRaises => q.(standing := Thrown)
  }

  function WithVerdict(p: Pass, exit: Option<int>): Pass {
    p.(tests := p.tests + [TestRun(p.work.files, exit)], standing := Judged(exit))
  }

  /** Repair what is implicated and test again; a repair that violates the contract counts as a red run
      without running the tests. */
  function RoundDone(sv: Services, st: Setting, artifacts: seq<Path>, p: Pass): Pass {
    var list := ToRepair(sv, |p.rounds|, p.work.files, artifacts);
    var r := Repaired(sv, p.work, list);
    var q := p.(work := r.work, rounds := p.rounds + [Round(p.work, list)]);
    if r.end.Unusable? then q.(standing := GaveUp)
    else if r.end.ProviderThrew? then q.(standing := Thrown)
    else if sv.violates(r.work.files) then q.(standing := Judged(Some(1)))
    else TestsRun(sv, st, q)
  }

  function RoundsDone(sv: Services, st: Setting, artifacts: seq<Path>, p: Pass): Pass
    decreases st.repairMaxRounds - |p.rounds|
  {
    if !IsRed(p.standing) || |p.rounds| >= st.repairMaxRounds then p
    else RoundsDone(sv, st, artifacts, RoundDone(sv, st, artifacts, p))
  }

  datatype Verified = Verified(result: StepResult, pass: Pass)

  function NewPass(w: Work): Pass {
    Pass(w, Session(None, w.commands, []), [], [], GaveUp)
  }

  predicate IsThrown(standing: Standing) {
    standing.Thrown? || (standing.Broke? && Throwing(standing.status))
  }

  /** The container is closed whatever happened. */
  function Finished(sv: Services, st: Setting, artifacts: seq<Path>, first: nat, p: Pass): Verified {
    var closed := Closed(DockerSettings(sv, st), p.session);
    var tokens := TokensUsed(sv.complete, first, p.work.completions);
    Verified(
      if closed.status != Fine || IsThrown(p.standing) then Escaped
      else if p.standing == Judged(Some(0)) then StepSuccess(artifacts, true, tokens)
      else StepFailure(tokens),
      p.(session := closed.session, work := p.work.(commands := closed.session.issued)))
  }

  function VerifiedWork(sv: Services, st: Setting, artifacts: seq<Path>, w: Work): Verified {
    var compiled := Repaired(sv, w, sv.broken(w.files, artifacts));
    match compiled.end
    case ProviderThrew => Verified(Escaped, NewPass(compiled.work).(standing := Thrown))
    case Unusable =>
      var tokens := TokensUsed(sv.complete, w.completions, compiled.work.completions);
      Verified(StepFailure(tokens), NewPass(compiled.work))
    case Wrote =>
      var p := RoundsDone(sv, st, artifacts, TestsRun(sv, st, NewPass(compiled.work)));
      Finished(sv, st, artifacts, w.completions, p)
  }

  datatype UnitDone = UnitDone(result: StepResult, work: Work)

  /** One unit of implementation work: the next target, or the verification pass once all exist. */
  function CodeUnit(sv: Services, st: Setting, w: Work, targets: seq<Path>, done: seq<Path>, tested: bool): UnitDone {
    var remaining := Units.Remaining(targets, done);
    if remaining == [] then
      if !tested then UnitDone(StepSuccess(targets, true, 0), w)
      else UnitDone(VerifiedWork(sv, st, targets, w).result, VerifiedWork(sv, st, targets, w).pass.work)
    else
      var g := Generated(sv, w, remaining[0], PER_FILE_ATTEMPTS);
      var tokens := TokensUsed(sv.complete, w.completions, g.work.completions);
      UnitDone(
        if g.end.ProviderThrew? then Escaped
        else if g.end.Unusable? then StepFailure(tokens)
        else if |remaining| == 1 && !tested then StepSuccess(targets, true, tokens)
        else StepSuccess([remaining[0]], false, tokens),
        g.work)
  }

  class LLMBackend {
    const services: Services
    const setting: Setting
    var files: Files
    var completions: nat
    var testRuns: nat
    var dockerCommands: nat

    function Now(): Work
      reads this
    {
      Work(files, completions, testRuns, dockerCommands)
    }

    constructor (services: Services, setting: Setting, files: Files)
      ensures this.services == services && this.setting == setting && Now() == Work(files, 0, 0, 0)
    {
      this.services, this.setting, this.files := services, setting, files;
      completions, testRuns, dockerCommands := 0, 0, 0;
    }

    /** Generate one target within the bounded in-step attempts: on success exactly that file is
        written, with the first usable completion; otherwise nothing is. Every completion is paid for. */
    method GenerateOne(rel: Path) returns (end: WriteEnd, tokens: nat)
      modifies this`files, this`completions
      ensures old(completions) < completions <= old(completions) + PER_FILE_ATTEMPTS
      ensures tokens == TokensUsed(services.complete, old(completions), completions)
      ensures end == EndOf(services.complete(completions - 1))
      ensures files ==
        if end.Wrote? then old(files)[rel := services.complete(completions - 1).text] else old(files)
      ensures end.Unusable? ==> completions == old(completions) + PER_FILE_ATTEMPTS
      ensures forall n :: old(completions) <= n < completions - 1 ==> EndOf(services.complete(n)) == Unusable
      ensures Written(Now(), end) == Generated(services, old(Now()), rel, PER_FILE_ATTEMPTS)
    {
      tokens, end := 0, Unusable;
      var attempt := 0;
      while attempt < PER_FILE_ATTEMPTS
        invariant 0 <= attempt <= PER_FILE_ATTEMPTS && completions == old(completions) + attempt
        invariant tokens == TokensUsed(services.complete, old(completions), completions)
        invariant files == old(files) && end == Unusable
        invariant forall n :: old(completions) <= n < completions ==> EndOf(services.complete(n)) == Unusable
        invariant Generated(services, old(Now()), rel, PER_FILE_ATTEMPTS) ==
          Generated(services, Now(), rel, PER_FILE_ATTEMPTS - attempt)
        decreases PER_FILE_ATTEMPTS - attempt
      {
        var response := services.complete(completions);
        completions := completions + 1;
        attempt := attempt + 1;
        if response.ProviderRaises? {
          return ProviderThrew, tokens;
        }
        tokens := tokens + response.tokens;
        if response.usable {
          files := files[rel := response.text];
          return Wrote, tokens;
        }
      }
    }

    method RunCodeUnit(targets: seq<Path>, done: seq<Path>, tested: bool) returns (result: StepResult)
      modifies this
      ensures UnitDone(result, Now()) == CodeUnit(services, setting, old(Now()), targets, done, tested)
    {
      hide VerifiedWork, Generated, TokensUsed;
      var remaining := RemainingTargets(targets, done);
      if remaining != [] {
        var end, tokens := GenerateOne(remaining[0]);
        if end.ProviderThrew? {
          return Escaped;
        }
        if end.Unusable? {
          return StepFailure(tokens);
        }
        if |remaining| == 1 && !tested {
          return StepSuccess(targets, true, tokens);
        }
        return StepSuccess([remaining[0]], false, tokens);
      }
      if !tested {
        return StepSuccess(targets, true, 0);
      }
      ghost var pass;
      result, pass := VerifyAndRepair(targets);
    }

    method RemainingTargets(targets: seq<Path>, done: seq<Path>) returns (remaining: seq<Path>)
      ensures remaining == Units.Remaining(targets, done)
    {
      remaining := [];
      ghost var test := PhaseDag.NonMember(done);
      var i := 0;
      while i < |targets|
        invariant 0 <= i <= |targets| && remaining == Filter(test, targets[..i])
      {
        FilterNext(test, targets, i);
        if targets[i] !in done {
          remaining := remaining + [targets[i]];
        }
        i := i + 1;
      }
      assert targets[..i] == targets;
    }

    /** One repair completion per listed file; every completion is counted, also the one that fails. */
    method RepairFiles(list: seq<Path>) returns (end: WriteEnd, tokens: nat)
      modifies this`files, this`completions
      ensures completions >= old(completions)
      ensures tokens == TokensUsed(services.complete, old(completions), completions)
      ensures Written(Now(), end) == Repaired(services, old(Now()), list)
    {
      tokens, end := 0, Wrote;
      var i := 0;
      while i < |list|
        invariant 0 <= i <= |list| && completions == old(completions) + i
        invariant tokens == TokensUsed(services.complete, old(completions), completions)
        invariant Repaired(services, Now(), list[i..]) == Repaired(services, old(Now()), list)
      {
        assert list[i..][0] == list[i] && list[i..][1..] == list[i + 1..];
        var response := services.complete(completions);
        completions := completions + 1;
        if response.ProviderRaises? {
          return ProviderThrew, tokens;
        }
        tokens := tokens + response.tokens;
        if !response.usable {
          return Unusable, tokens;
        }
        files := files[list[i] := response.text];
        i := i + 1;
      }
    }

    method RunTests(executor: DockerExecutor, ghost p: Pass) returns (standing: Standing, ghost q: Pass)
      requires executor.settings == DockerSettings(services, setting)
      requires p.work == Now() && p.session == executor.Now()
      modifies this`testRuns, executor
      ensures q == TestsRun(services, setting, p) && standing == q.standing
      ensures q.work == Now() && q.session == executor.Now()
    {
      hide Ran;
      q := TestsRun(services, setting, p);
      if setting.useDocker {
        var status, exit := executor.Run(files);
        standing := if status == Fine then Judged(exit) else Broke(status);
      } else {
        var run := services.testLocally(testRuns, files);
        standing := if run.HostRun? then Judged(run.exit) else Thrown;
        testRuns := testRuns + 1;
      }
    }

    /** Test, and while the tests are red repair what is implicated and test again. */
    method RepairLoop(executor: DockerExecutor, artifacts: seq<Path>, ghost start: Pass)
      returns (standing: Standing, tokens: nat, ghost p: Pass)
      requires executor.settings == DockerSettings(services, setting)
      requires start.work == Now() && start.session == executor.Now() && start.rounds == []
      modifies this`files, this`completions, this`testRuns, executor
      ensures p == RoundsDone(services, setting, artifacts, TestsRun(services, setting, start)) &&
        standing == p.standing
      ensures p.work == Now() && p.session == executor.Now()
      ensures completions >= old(completions) && tokens == TokensUsed(services.complete, old(completions), completions)
    {
      hide TokensUsed, Repaired;
      tokens := 0;
      NoTokens(services.complete, completions);
      standing, p := RunTests(executor, start);
      ghost var first := p;
      var rounds := 0;
      while IsRed(standing) && rounds < setting.repairMaxRounds
        invariant p.work == Now() && p.session == executor.Now() && p.standing == standing && |p.rounds| == rounds
        invariant RoundsDone(services, setting, artifacts, p) == RoundsDone(services, setting, artifacts, first)
        invariant completions >= old(completions) &&
          tokens == TokensUsed(services.complete, old(completions), completions)
        decreases setting.repairMaxRounds - rounds
      {
        var list := services.implicated(rounds, files, artifacts);
        if list == [] {
          list := artifacts;
        }
        ghost var before, mid := p, completions;
        p := p.(rounds := p.rounds + [Round(Now(), list)]);
        var end, used := RepairFiles(list);
        p := p.(work := Now());
        TokensAddUp(services.complete, old(completions), mid, completions);
        tokens := tokens + used;
        rounds := rounds + 1;
        if end.Unusable? {
          standing := GaveUp;
          p := p.(standing := GaveUp);
        } else if end.ProviderThrew? {
          standing := Thrown;
          p := p.(standing := Thrown);
        } else if services.violates(files) {
          standing := Judged(Some(1));
          p := p.(standing := Judged(Some(1)));
        } else {
          standing, p := RunTests(executor, p);
        }
        assert p == RoundDone(services, setting, artifacts, before);
      }
    }

    /** Verify by execution, feeding failures into bounded repair; the container is closed at the end
        whatever happened. */
    method VerifyAndRepair(artifacts: seq<Path>) returns (result: StepResult, ghost pass: Pass)
      modifies this
      ensures Verified(result, pass) == VerifiedWork(services, setting, artifacts, old(Now())) && pass.work == Now()
    {
      hide TokensUsed, Repaired, RoundsDone, TestsRun;
      NoTokens(services.complete, completions);
      var list := services.broken(files, artifacts);
      var tokens := 0;
      if list != [] {
        var end, used := RepairFiles(list);
        tokens := used;
        if end.ProviderThrew? {
          return Escaped, NewPass(Now()).(standing := Thrown);
        }
        if end.Unusable? {
          return StepFailure(tokens), NewPass(Now());
        }
      }
      NothingToRepair(services, old(Now()));
      ghost var compiled := Now();
      var executor := new DockerExecutor(DockerSettings(services, setting), dockerCommands);
      var standing, used;
      standing, used, pass := RepairLoop(executor, artifacts, NewPass(compiled));
      TokensAddUp(services.complete, old(completions), compiled.completions, completions);
      tokens := tokens + used;
      var closed := executor.Close();
      dockerCommands := executor.issued;
      pass := pass.(session := executor.Now(), work := Now());
      if closed != Fine || IsThrown(standing) {
        result := Escaped;
      } else if standing == Judged(Some(0)) {
        result := StepSuccess(artifacts, true, tokens);
      } else {
        result := StepFailure(tokens);
      }
    }
  }

  lemma NoTokens(complete: nat -> Completion, first: nat)
    ensures TokensUsed(complete, first, first) == 0
  {
  }

  lemma NothingToRepair(sv: Services, w: Work)
    ensures Repaired(sv, w, []) == Written(w, Wrote)
  {
  }
}
