/** The order of docker commands: which command may follow which, and what that means for the tests. */
module Protocol {
  import opened Options
  import opened Sequences
  import opened Docker

  // ----- the rule -----

  predicate IsStart(x: Settings, c: Command) {
    c.StartContainer? && c.networked == x.setup
  }

  predicate CopiesInto(c: Command, cid: string) {
    c.CopyIn? && c.cid == cid
  }

  /** The workspace has just been copied into a container that was made for it. */
  predicate JustFilled(trace: seq<Event>) {
    |trace| >= 2 && trace[|trace| - 2].command.MakeWorkdir?
  }

  /** A container is started, given a work directory, filled, set up if there is something to set up, and taken off the
      network; then each test run fills it and tests what was copied in. Whatever is refused on the way is followed by
      the removal; so is a test that timed out, and after an answered removal a new container is started. */
  predicate ProperNext(x: Settings, trace: seq<Event>, c: Command) {
    if trace == [] then IsStart(x, c) else
    var last := Last(trace);
    match last.command
    case StartContainer(_, _) =>
      Succeeded(last.reply) && last.reply.lastLine.Some? && c == MakeWorkdir(last.reply.lastLine.value)
    case MakeWorkdir(cid) => if Succeeded(last.reply) then CopiesInto(c, cid) else c == Remove(cid)
    case CopyIn(cid, files) =>
      if !Succeeded(last.reply) then c == Remove(cid)
      else if x.setup && JustFilled(trace) then c == Setup(cid)
      else c == Test(cid, files)
    case Setup(cid) => c == if Succeeded(last.reply) then Disconnect(cid) else Remove(cid)
    case Disconnect(cid) => if Succeeded(last.reply) then CopiesInto(c, cid) else c == Remove(cid)
    case Test(cid, _) =>
      if !last.reply.Exit? then c == Remove(cid)
      else if x.copiesOut then c == CopyOut(cid)
      else CopiesInto(c, cid) || c == Remove(cid)
    case CopyOut(cid) => c == Remove(cid) || (CopiesInto(c, cid) && (last.reply.Exit? || last.reply.TimedOut?))
    case Remove(cid) => if Unanswered(last) then c == Remove(cid) else IsStart(x, c)
  }

  ghost predicate Conforms(x: Settings, trace: seq<Event>) {
    forall i :: 0 <= i < |trace| ==> ConformsAt(x, trace, i)
  }

  ghost predicate ConformsAt(x: Settings, trace: seq<Event>, i: nat)
    requires i < |trace|
  {
    ProperNext(x, trace[..i], trace[i].command)
  }

  lemma ConformsSnoc(x: Settings, trace: seq<Event>, e: Event)
    requires Conforms(x, trace) && ProperNext(x, trace, e.command)
    ensures Conforms(x, trace + [e])
  {
    hide ProperNext;
    var longer := trace + [e];
    assert longer[..|trace|] == trace;
    forall i | 0 <= i < |longer| ensures ConformsAt(x, longer, i) {
      assert i < |trace| ==> longer[..i] == trace[..i] && ConformsAt(x, trace, i);
    }
  }

  lemma ConformsFront(x: Settings, trace: seq<Event>)
    requires Conforms(x, trace) && trace != []
    ensures Conforms(x, trace[..|trace| - 1]) && ProperNext(x, trace[..|trace| - 1], Last(trace).command)
  {
    hide ProperNext;
    var front := trace[..|trace| - 1];
    assert ConformsAt(x, trace, |trace| - 1);
    forall i | 0 <= i < |front| ensures ConformsAt(x, front, i) {
      assert ConformsAt(x, trace, i) && front[..i] == trace[..i];
    }
  }

  // ----- the executor keeps to it -----

  /** Between two test runs: no container is tracked, or one that the last test ran in. */
  predicate Resting(x: Settings, s: Session) {
    match s.cid
    case None => s.trace == [] || (Last(s.trace).command.Remove? && !Unanswered(Last(s.trace)))
    case Some(cid) => s.trace != [] && Rested(x, Last(s.trace), cid)
  }

  predicate Rested(x: Settings, last: Event, cid: string) {
    if x.copiesOut then last.command == CopyOut(cid) && (last.reply.Exit? || last.reply.TimedOut?)
    else last.command.Test? && last.command.cid == cid && last.reply.Exit?
  }

  /** The container may be removed, and if there is none, it is gone or never was tracked. */
  predicate Closable(x: Settings, s: Session) {
    match s.cid
    case None => s.trace == [] || Last(s.trace).command.Remove? || Last(s.trace).command.StartContainer?
    case Some(cid) => ProperNext(x, s.trace, Remove(cid))
  }

  /** The workspace may be copied in, to be tested right after. */
  predicate Fillable(x: Settings, s: Session, files: Files) {
    s.cid.Some? && s.trace != [] && ProperNext(x, s.trace, CopyIn(s.cid.value, files)) &&
    !(x.setup && Last(s.trace).command.MakeWorkdir?)
  }

  lemma IssuedConforms(x: Settings, s: Session, c: Command)
    requires Conforms(x, s.trace) && ProperNext(x, s.trace, c)
    ensures Conforms(x, Issued(x, s, c).trace)
  {
    hide Conforms, ProperNext;
    ConformsSnoc(x, s.trace, Event(c, x.replies(s.issued)));
  }

  lemma StartConforms(x: Settings, s: Session)
    requires Conforms(x, s.trace) && Resting(x, s) && s.cid == None
    ensures var r := StartedUp(x, s);
      Conforms(x, r.session.trace) && (r.status != Fine ==> Closable(x, r.session)) &&
      (r.status == Fine ==> ProperNext(x, r.session.trace, MakeWorkdir(r.session.cid.value)))
  {
    hide Conforms;
    IssuedConforms(x, s, StartCommand(x, s));
  }

  /** A command that has to succeed, where it is proper: afterwards the next one is, or else the removal. */
  lemma RequiredConforms(x: Settings, s: Session, c: Command)
    requires Conforms(x, s.trace) && s.cid.Some? && ProperNext(x, s.trace, c)
    requires c.MakeWorkdir? || c.CopyIn? || c.Setup? || c.Disconnect?
    requires c.cid == s.cid.value
    ensures var r := Required(x, s, c);
      Conforms(x, r.session.trace) && Last(r.session.trace) == Event(c, x.replies(s.issued)) &&
      r.session.trace == s.trace + [Last(r.session.trace)] && (r.status != Fine ==> Closable(x, r.session))
  {
    hide Conforms;
    IssuedConforms(x, s, c);
  }

  lemma SetUpConforms(x: Settings, s: Session, files: Files)
    requires Conforms(x, s.trace) && x.setup && s.cid.Some? && s.trace != []
    requires Last(s.trace).command == MakeWorkdir(s.cid.value) && Succeeded(Last(s.trace).reply)
    ensures var r := SetUpDone(x, s, files);
      Conforms(x, r.session.trace) && (r.status != Fine ==> Closable(x, r.session)) &&
      (r.status == Fine ==> Fillable(x, r.session, files))
  {
    hide Conforms, Closable;
    var cid := s.cid.value;
    RequiredConforms(x, s, CopyIn(cid, files));
    var copied := Required(x, s, CopyIn(cid, files));
    if copied.status == Fine {
      RequiredConforms(x, copied.session, Setup(cid));
      var installed := Required(x, copied.session, Setup(cid));
      if installed.status == Fine {
        RequiredConforms(x, installed.session, Disconnect(cid));
      }
    }
  }

  lemma EnsuredConforms(x: Settings, s: Session, files: Files)
    requires Conforms(x, s.trace) && Resting(x, s)
    ensures var r := Ensured(x, s, files);
      Conforms(x, r.session.trace) && (r.status != Fine ==> Closable(x, r.session)) &&
      (r.status == Fine ==> Fillable(x, r.session, files))
  {
    if s.cid == None {
      hide Conforms, Closable;
      StartConforms(x, s);
      var started := StartedUp(x, s);
      if started.status == Fine {
        var cid := started.session.cid.value;
        RequiredConforms(x, started.session, MakeWorkdir(cid));
        var made := Required(x, started.session, MakeWorkdir(cid));
        if made.status == Fine && x.setup {
          SetUpConforms(x, made.session, files);
        }
      }
    }
  }

  lemma ClosedConforms(x: Settings, s: Session)
    requires Conforms(x, s.trace) && Closable(x, s)
    ensures var r := Closed(x, s);
      Conforms(x, r.session.trace) && Closable(x, r.session) &&
      (s.cid.Some? && r.status == Fine ==> Resting(x, r.session))
  {
    hide Conforms;
    if s.cid.Some? {
      IssuedConforms(x, s, Remove(s.cid.value));
    }
  }

  /** A test run keeps to the rule and leaves a session that is ready for the next one, or for closing. */
  lemma RanConforms(x: Settings, s: Session, files: Files)
    requires Conforms(x, s.trace) && Resting(x, s)
    ensures var r := Ran(x, s, files);
      Conforms(x, r.session.trace) && Closable(x, r.session) && (r.status == Fine ==> Resting(x, r.session))
  {
    hide Conforms, Ensured;
    EnsuredConforms(x, s, files);
    var ready := Ensured(x, s, files);
    if ready.status == Fine {
      var cid := ready.session.cid.value;
      RequiredConforms(x, ready.session, CopyIn(cid, files));
      var copied := Required(x, ready.session, CopyIn(cid, files));
      if copied.status == Fine {
        assert Last(copied.session.trace[..|copied.session.trace| - 1]) == Last(ready.session.trace);
        IssuedConforms(x, copied.session, Test(cid, files));
        TestedConforms(x, copied.session, cid, files);
      }
    }
  }

  lemma TestedConforms(x: Settings, s: Session, cid: string, files: Files)
    requires s.cid == Some(cid) && Conforms(x, Issued(x, s, Test(cid, files)).trace)
    ensures var r := AfterTest(x, Issued(x, s, Test(cid, files)), cid, x.replies(s.issued));
      Conforms(x, r.session.trace) && Closable(x, r.session) && (r.status == Fine ==> Resting(x, r.session))
  {
    hide Conforms;
    var tested := Issued(x, s, Test(cid, files));
    if x.replies(s.issued).TimedOut? {
      ClosedConforms(x, tested);
    } else if x.replies(s.issued).Exit? && x.copiesOut {
      IssuedConforms(x, tested, CopyOut(cid));
    }
  }

  // ----- every reply is docker's -----

  /** The n-th command of the session got the n-th reply, counted from `first`. */
  ghost predicate Answered(x: Settings, first: nat, s: Session) {
    s.issued == first + |s.trace| && forall i :: 0 <= i < |s.trace| ==> IsAnswer(x, first + i, s.trace[i])
  }

  predicate IsAnswer(x: Settings, n: nat, e: Event) {
    e.reply == x.replies(n) && (e.command.StartContainer? ==> e.command.container == x.containers(n))
  }

  lemma IssuedAnswers(x: Settings, first: nat, s: Session, c: Command)
    requires Answered(x, first, s) && (c.StartContainer? ==> c.container == x.containers(s.issued))
    ensures Answered(x, first, Issued(x, s, c))
  {
  }

  lemma EnsuredAnswers(x: Settings, first: nat, s: Session, files: Files)
    requires Answered(x, first, s)
    ensures Answered(x, first, Ensured(x, s, files).session)
  {
    if s.cid == None {
      hide Answered;
      IssuedAnswers(x, first, s, StartCommand(x, s));
      var started := StartedUp(x, s);
      SameCommands(x, first, Issued(x, s, StartCommand(x, s)), started.session);
      if started.status == Fine {
        var cid := started.session.cid.value;
        IssuedAnswers(x, first, started.session, MakeWorkdir(cid));
        var made := Required(x, started.session, MakeWorkdir(cid));
        IssuedAnswers(x, first, made.session, CopyIn(cid, files));
        var copied := Required(x, made.session, CopyIn(cid, files));
        IssuedAnswers(x, first, copied.session, Setup(cid));
        var installed := Required(x, copied.session, Setup(cid));
        IssuedAnswers(x, first, installed.session, Disconnect(cid));
      }
    }
  }

  lemma SameCommands(x: Settings, first: nat, s: Session, t: Session)
    requires Answered(x, first, s)
    ensures t.issued == s.issued && t.trace == s.trace ==> Answered(x, first, t)
  {
  }

  lemma ClosedAnswers(x: Settings, first: nat, s: Session)
    requires Answered(x, first, s)
    ensures Answered(x, first, Closed(x, s).session)
  {
    hide Answered;
    if s.cid.Some? {
      IssuedAnswers(x, first, s, Remove(s.cid.value));
      SameCommands(x, first, Issued(x, s, Remove(s.cid.value)), Closed(x, s).session);
    }
  }

  lemma RanAnswers(x: Settings, first: nat, s: Session, files: Files)
    requires Answered(x, first, s)
    ensures Answered(x, first, Ran(x, s, files).session)
  {
    hide Answered, Ensured;
    EnsuredAnswers(x, first, s, files);
    var ready := Ensured(x, s, files);
    if ready.status == Fine {
      var cid := ready.session.cid.value;
      IssuedAnswers(x, first, ready.session, CopyIn(cid, files));
      var copied := Required(x, ready.session, CopyIn(cid, files));
      if copied.status == Fine {
        IssuedAnswers(x, first, copied.session, Test(cid, files));
        var tested := Issued(x, copied.session, Test(cid, files));
        IssuedAnswers(x, first, tested, CopyOut(cid));
        ClosedAnswers(x, first, tested);
      }
    }
  }

  // ----- tests run on what was installed -----

  predicate CopiedTo(e: Event, cid: string) {
    CopiesInto(e.command, cid) && Succeeded(e.reply)
  }

  predicate SetUpIn(e: Event, cid: string) {
    e.command == Setup(cid) && Succeeded(e.reply)
  }

  predicate TakenOffline(e: Event, cid: string) {
    e.command == Disconnect(cid) && Succeeded(e.reply)
  }

  /** No container was started or removed after event `a`. */
  predicate Unreplaced(trace: seq<Event>, a: nat) {
    forall j :: a < j < |trace| ==> !trace[j].command.StartContainer? && !trace[j].command.Remove?
  }

  /** In the present container the workspace was copied in, then the setup command ran, and then the container was
      taken off the network, all of it successfully. */
  ghost predicate Installed(trace: seq<Event>, cid: string) {
    exists a, b, c :: 0 <= a < b < c < |trace| && CopiedTo(trace[a], cid) && SetUpIn(trace[b], cid) &&
      TakenOffline(trace[c], cid) && Unreplaced(trace, a)
  }

  lemma InstalledSnoc(trace: seq<Event>, e: Event, cid: string)
    requires Installed(trace, cid) && !e.command.StartContainer? && !e.command.Remove?
    ensures Installed(trace + [e], cid)
  {
    var longer := trace + [e];
    var a, b, c :| 0 <= a < b < c < |trace| && CopiedTo(trace[a], cid) && SetUpIn(trace[b], cid) &&
      TakenOffline(trace[c], cid) && Unreplaced(trace, a);
    assert longer[a] == trace[a] && longer[b] == trace[b] && longer[c] == trace[c];
    forall j | a < j < |longer| ensures !longer[j].command.StartContainer? && !longer[j].command.Remove? {
      assert j < |trace| ==> longer[j] == trace[j];
    }
  }

  /** What comes after the setup: tests, what they are given and what they leave. */
  predicate IsLater(trace: seq<Event>, c: Command) {
    trace != [] && (c.Test? || c.CopyOut? || (c.CopyIn? && !Last(trace).command.MakeWorkdir?))
  }

  lemma {:induction false} LaterIsInstalled(x: Settings, trace: seq<Event>, c: Command)
    requires x.setup && Conforms(x, trace) && ProperNext(x, trace, c) && IsLater(trace, c)
    ensures Installed(trace, c.cid)
    decreases |trace|
  {
    hide Conforms;
    var front, last := trace[..|trace| - 1], Last(trace);
    ConformsFront(x, trace);
    assert trace == front + [last];
    if last.command.Disconnect? {
      JustInstalled(x, trace, c.cid);
    } else {
      assert front != [];
      assert c.Test? ==> Last(front) == trace[|trace| - 2];
      LaterIsInstalled(x, front, last.command);
      InstalledSnoc(front, last, c.cid);
    }
  }

  /** Before a container is taken off the network it has been set up, and filled before that. */
  lemma JustInstalled(x: Settings, trace: seq<Event>, cid: string)
    requires Conforms(x, trace) && trace != [] && TakenOffline(Last(trace), cid)
    ensures Installed(trace, cid)
  {
    hide Conforms;
    var n := |trace|;
    ConformsFront(x, trace);
    var second := trace[..n - 1];
    ConformsFront(x, second);
    var first := second[..n - 2];
    ConformsFront(x, first);
    assert CopiedTo(trace[n - 3], cid) && SetUpIn(trace[n - 2], cid) && TakenOffline(trace[n - 1], cid);
    assert Unreplaced(trace, n - 3);
  }

  /** With something to set up, every test runs in a container where it was; without, nothing is ever set up. */
  lemma TestsAreInstalled(x: Settings, trace: seq<Event>, i: nat)
    requires Conforms(x, trace) && i < |trace|
    ensures x.setup && trace[i].command.Test? ==> Installed(trace[..i], trace[i].command.cid)
    ensures trace[i].command.Setup? ==> x.setup
  {
    var before := trace[..i];
    assert ConformsAt(x, trace, i);
    forall j | 0 <= j < |before| ensures ConformsAt(x, before, j) {
      assert ConformsAt(x, trace, j) && before[..j] == trace[..j];
    }
    if x.setup && trace[i].command.Test? {
      LaterIsInstalled(x, before, trace[i].command);
    }
  }
}
