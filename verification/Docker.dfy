/** The container lifecycle behind isolated test execution, as a trace of docker commands. */
module Docker {
  import opened Options
  import opened Sequences

  type Path = string
  type Files = map<Path, string>

  /** A start carries the identifier of the container it brings up, which the program does not see. */
  datatype Command =
    | StartContainer(networked: bool, container: string)
    | MakeWorkdir(cid: string)
    | CopyIn(cid: string, files: Files)
    | Setup(cid: string)
    | Disconnect(cid: string)
    | Test(cid: string, files: Files)
    | CopyOut(cid: string)
    | Remove(cid: string)

  /** An exit code with the last line of what was printed, if there is any; a timeout, after which the command may
      have taken effect all the same; no docker on the path; or an exception of another kind. */
  datatype Reply = Exit(code: int, lastLine: Option<string>) | TimedOut(done: bool) | CliMissing | Raised

  datatype Event = Event(command: Command, reply: Reply)

  /** How a call ends: normally, with a docker infrastructure error, with a start that printed nothing, or with an
      exception of another kind. */
  datatype Status = Fine | DockerError | NoContainerId | SystemError

  predicate Succeeded(r: Reply) {
    r.Exit? && r.code == 0
  }

  predicate ComesUp(e: Event) {
    e.command.StartContainer? && (Succeeded(e.reply) || e.reply == TimedOut(true))
  }

  predicate GoesDown(e: Event) {
    e.command.Remove? && (Succeeded(e.reply) || e.reply == TimedOut(true))
  }

  /** A start after which `cid` is tracked: the last line that was printed, whatever it is. */
  predicate Prints(e: Event, cid: string) {
    e.command.StartContainer? && Succeeded(e.reply) && e.reply.lastLine == Some(cid)
  }

  /** A removal that was never answered: an exception leaves `close`. */
  predicate Unanswered(e: Event) {
    e.command.Remove? && (e.reply.CliMissing? || e.reply.Raised?)
  }

  /** A container may be left behind: one came up and what is tracked is not its identifier, or a removal was
      answered and did not take effect, and nobody looks at the answer. */
  predicate Lost(e: Event) {
    (ComesUp(e) && !Prints(e, e.command.container)) || (e.command.Remove? && !GoesDown(e) && !Unanswered(e))
  }

  // ----- what a trace says -----

  /** The container is connected to a network: it was started on one and has not been taken off it. */
  predicate Attached(trace: seq<Event>, container: string) {
    if trace == [] then false else
    var last := Last(trace);
    if ComesUp(last) && last.command.container == container then last.command.networked
    else if last.command == Disconnect(container) && Succeeded(last.reply) then false
    else Attached(trace[..|trace| - 1], container)
  }

  /** The containers that came up and have not gone down. */
  function Running(trace: seq<Event>): multiset<string> {
    if trace == [] then multiset{} else
    var last := Last(trace);
    var before := Running(trace[..|trace| - 1]);
    if ComesUp(last) then before + multiset{last.command.container}
    else if GoesDown(last) then before - multiset{last.command.cid}
    else before
  }

  predicate NothingLost(trace: seq<Event>) {
    forall i :: 0 <= i < |trace| ==> !Lost(trace[i])
  }

  predicate NoStartAfterLoss(trace: seq<Event>) {
    forall i, j :: 0 <= i < j < |trace| && Lost(trace[i]) ==> !ComesUp(trace[j])
  }

  /** What docker prints is not the identifier of a container that another command brought up. */
  predicate OwnNames(trace: seq<Event>) {
    forall i, j ::
      0 <= i < |trace| && 0 <= j < |trace| && ComesUp(trace[i]) && Prints(trace[j], trace[i].command.container) ==>
        i == j
  }

  /** A container that is not tracked runs. */
  predicate Leftover(trace: seq<Event>, cid: Option<string>) {
    exists i :: 0 <= i < |trace| && ComesUp(trace[i]) && trace[i].command.container in Running(trace) &&
      Some(trace[i].command.container) != cid
  }

  /** Only a run that has something to set up is ever on a network. */
  predicate OneNetwork(trace: seq<Event>, setup: bool) {
    forall i :: 0 <= i < |trace| && trace[i].command.StartContainer? ==> trace[i].command.networked == setup
  }

  /** At no moment does more than one container run. */
  ghost predicate AtMostOne(trace: seq<Event>) {
    forall i {:trigger trace[..i]} :: 0 <= i <= |trace| ==> |Running(trace[..i])| <= 1
  }

  /** A test command runs only in a container without network, right after the workspace it is to
      judge has been copied in. */
  ghost predicate SafeAt(trace: seq<Event>, i: nat)
    requires i < |trace|
  {
    trace[i].command.Test? ==> Admitted(trace[..i], trace[i].command)
  }

  predicate Admitted(before: seq<Event>, test: Command)
    requires test.Test?
  {
    !Attached(before, test.cid) && before != [] &&
    Last(before).command == CopyIn(test.cid, test.files) && Succeeded(Last(before).reply)
  }

  ghost predicate Safe(trace: seq<Event>) {
    forall i :: 0 <= i < |trace| ==> SafeAt(trace, i)
  }

  predicate IsTest(e: Event) {
    e.command.Test?
  }

  /** The test commands of a trace, in order. */
  function TestsIn(trace: seq<Event>): seq<Event> {
    Filter(IsTest, trace)
  }

  /** The test command `e` ran on `files` and ended with `exit`, None for a timeout. */
  predicate Judges(e: Event, files: Files, exit: Option<int>) {
    e.command.Test? && e.command.files == files && exit == if e.reply.Exit? then Some(e.reply.code) else None
  }

  /** How a call ends that has this as its last command. */
  function StatusOf(e: Event): Status {
    if e.reply.Raised? then SystemError
    else if e.reply.CliMissing? then DockerError
    else if e.command.Test? || e.command.CopyOut? || e.command.Remove? then Fine
    else if !Succeeded(e.reply) then DockerError
    else if e.command.StartContainer? && e.reply.lastLine == None then NoContainerId
    else Fine
  }

  // ----- one more event -----

  lemma AttachedSnoc(trace: seq<Event>, e: Event, container: string)
    ensures Attached(trace + [e], container) ==
      if ComesUp(e) && e.command.container == container then e.command.networked
      else if e.command == Disconnect(container) && Succeeded(e.reply) then false
      else Attached(trace, container)
  {
    assert (trace + [e])[..|trace|] == trace;
  }

  lemma {:induction false} NeverAttached(trace: seq<Event>, container: string)
    requires OneNetwork(trace, false)
    ensures !Attached(trace, container)
  {
    if trace != [] {
      NeverAttached(trace[..|trace| - 1], container);
    }
  }

  lemma RunningSnoc(trace: seq<Event>, e: Event)
    ensures Running(trace + [e]) ==
      if ComesUp(e) then Running(trace) + multiset{e.command.container}
      else if GoesDown(e) then Running(trace) - multiset{e.command.cid}
      else Running(trace)
  {
    assert (trace + [e])[..|trace|] == trace;
  }

  lemma {:induction false} RunningCameUp(trace: seq<Event>, container: string)
    requires container in Running(trace)
    ensures exists i :: 0 <= i < |trace| && ComesUp(trace[i]) && trace[i].command.container == container
  {
    var front, last := trace[..|trace| - 1], Last(trace);
    if ComesUp(last) && last.command.container == container {
      assert trace[|trace| - 1] == last;
    } else {
      RunningCameUp(front, container);
      var i :| 0 <= i < |front| && ComesUp(front[i]) && front[i].command.container == container;
      assert trace[i] == front[i];
    }
  }

  lemma SafeSnoc(trace: seq<Event>, e: Event)
    requires Safe(trace) && (e.command.Test? ==> Admitted(trace, e.command))
    ensures Safe(trace + [e])
  {
    hide Admitted;
    var longer := trace + [e];
    forall i | 0 <= i < |longer| ensures SafeAt(longer, i) {
      assert longer[..i] == trace[..i];
      if i < |trace| {
        assert SafeAt(trace, i);
      } else {
        assert trace[..i] == trace;
      }
    }
  }

  lemma AtMostOneSnoc(trace: seq<Event>, e: Event)
    ensures AtMostOne(trace + [e]) <==> AtMostOne(trace) && |Running(trace + [e])| <= 1
  {
    hide Running;
    var longer := trace + [e];
    assert longer[..|longer|] == longer;
    forall i | 0 <= i <= |trace| ensures longer[..i] == trace[..i] {
    }
    if AtMostOne(longer) {
      forall i | 0 <= i <= |trace| ensures |Running(trace[..i])| <= 1 {
        assert longer[..i] == trace[..i];
      }
    }
  }

  lemma NoStartAfterLossSnoc(trace: seq<Event>, e: Event)
    ensures NoStartAfterLoss(trace + [e]) <==> NoStartAfterLoss(trace) && (ComesUp(e) ==> NothingLost(trace))
  {
    hide Lost, ComesUp;
    var longer := trace + [e];
    assert forall i :: 0 <= i < |trace| ==> longer[i] == trace[i];
    assert longer[|trace|] == e;
  }

  lemma NothingLostSnoc(trace: seq<Event>, e: Event)
    ensures NothingLost(trace + [e]) <==> NothingLost(trace) && !Lost(e)
  {
    hide Lost;
    var longer := trace + [e];
    assert forall i :: 0 <= i < |trace| ==> longer[i] == trace[i];
    assert longer[|trace|] == e;
  }

  lemma OwnNamesPrefix(trace: seq<Event>, e: Event)
    requires OwnNames(trace + [e])
    ensures OwnNames(trace)
  {
    hide Prints;
    var longer := trace + [e];
    forall i, j | 0 <= i < |trace| && 0 <= j < |trace| && ComesUp(trace[i]) &&
                  Prints(trace[j], trace[i].command.container)
      ensures i == j
    {
      assert longer[i] == trace[i] && longer[j] == trace[j];
    }
  }

  /** A leftover stays: nothing that is tracked later has its name. */
  lemma LeftoverStays(trace: seq<Event>, e: Event, cid: Option<string>, next: Option<string>)
    requires OwnNames(trace + [e]) && Leftover(trace, cid)
    requires GoesDown(e) ==> Some(e.command.cid) == cid
    requires next == cid || next == None || (Prints(e, next.value))
    ensures Leftover(trace + [e], next)
  {
    hide Running, OwnNames;
    var i :| 0 <= i < |trace| && ComesUp(trace[i]) && trace[i].command.container in Running(trace) &&
      Some(trace[i].command.container) != cid;
    var longer := trace + [e];
    RunningSnoc(trace, e);
    assert longer[i] == trace[i] && longer[|trace|] == e;
    OwnNamesApply(longer, i, |trace|);
  }

  lemma OwnNamesApply(trace: seq<Event>, i: nat, j: nat)
    requires OwnNames(trace) && i < |trace| && j < |trace| && i != j && ComesUp(trace[i])
    ensures !Prints(trace[j], trace[i].command.container)
  {
  }

  /** The first leftover: a container comes up and is not what is tracked, or stays up and is forgotten. */
  lemma LeftoverArises(trace: seq<Event>, container: string, cid: Option<string>)
    requires container in Running(trace) && Some(container) != cid
    ensures Leftover(trace, cid)
  {
    RunningCameUp(trace, container);
  }

  /** Why an infrastructure error has to end the pass: with a tracked container, `run` goes straight to
      copying in and testing, and that is safe exactly when the container is already off the network
      and the copy succeeded. */
  lemma TestIsSafeIff(trace: seq<Event>, cid: string, files: Files, copied: Reply, tested: Reply)
    requires Safe(trace)
    ensures Safe(trace + [Event(CopyIn(cid, files), copied)] + [Event(Test(cid, files), tested)]) <==>
      !Attached(trace, cid) && Succeeded(copied)
  {
    var copy, test := Event(CopyIn(cid, files), copied), Event(Test(cid, files), tested);
    SafeSnoc(trace, copy);
    AttachedSnoc(trace, copy, cid);
    var before := trace + [copy];
    if !Attached(trace, cid) && Succeeded(copied) {
      SafeSnoc(before, test);
    } else {
      var after := before + [test];
      assert after[..|before|] == before && after[|before|] == test;
      assert !SafeAt(after, |before|);
    }
  }

  // ----- the executor, as functions on its session -----

  /** `containers` gives the identifier of what the n-th command brings up, if it is a start. */
  datatype Settings = Settings(setup: bool, copiesOut: bool, replies: nat -> Reply, containers: nat -> string)

  /** The tracked container, and the commands so far. */
  datatype Session = Session(cid: Option<string>, issued: nat, trace: seq<Event>)

  datatype Ended = Ended(session: Session, status: Status)

  /** `exit` is None when the test command timed out, and then the container is gone. */
  datatype Tested = Tested(session: Session, status: Status, exit: Option<int>)

  function Issued(x: Settings, s: Session, c: Command): Session {
    s.(issued := s.issued + 1, trace := s.trace + [Event(c, x.replies(s.issued))])
  }

  function StatusOfRequired(r: Reply): Status {
    if Succeeded(r) then Fine else if r.Raised? then SystemError else DockerError
  }

  function StartCommand(x: Settings, s: Session): Command {
    StartContainer(x.setup, x.containers(s.issued))
  }

  /** A command that has to succeed. */
  function Required(x: Settings, s: Session, c: Command): (r: Ended)
    ensures r.session.cid == s.cid
  {
    Ended(Issued(x, s, c), StatusOfRequired(x.replies(s.issued)))
  }

  /** A container is started on the bridge network only when there is something to set up. */
  function StartedUp(x: Settings, s: Session): (r: Ended)
    ensures r.status == Fine ==> r.session.cid.Some?
  {
    var reply := x.replies(s.issued);
    var t := Issued(x, s, StartCommand(x, s));
    if !Succeeded(reply) then Ended(t, StatusOfRequired(reply))
    else if reply.lastLine == None then Ended(t, NoContainerId)
    else Ended(t.(cid := reply.lastLine), Fine)
  }

  /** Install what the tests need, then take the container off the network for good. */
  function SetUpDone(x: Settings, s: Session, files: Files): (r: Ended)
    requires s.cid.Some?
    ensures r.session.cid == s.cid
  {
    var copied := Required(x, s, CopyIn(s.cid.value, files));
    if copied.status != Fine then copied else
    var installed := Required(x, copied.session, Setup(s.cid.value));
    if installed.status != Fine then installed else
    Required(x, installed.session, Disconnect(s.cid.value))
  }

  function Ensured(x: Settings, s: Session, files: Files): (r: Ended)
    ensures r.status == Fine ==> r.session.cid.Some?
  {
    if s.cid.Some? then Ended(s, Fine) else
    var started := StartedUp(x, s);
    if started.status != Fine then started else
    var made := Required(x, started.session, MakeWorkdir(started.session.cid.value));
    if made.status != Fine || !x.setup then made else SetUpDone(x, made.session, files)
  }

  /** Remove the tracked container; without a docker command line the error escapes. */
  function Closed(x: Settings, s: Session): Ended {
    if s.cid == None then Ended(s, Fine) else
    var t := Issued(x, s, Remove(s.cid.value));
    match x.replies(s.issued)
    case CliMissing => Ended(t, DockerError)
    case Raised => Ended(t, SystemError)
    case _ => Ended(t.(cid := None), Fine)
  }

  /** Copy the workspace in and run the test command. */
  function Ran(x: Settings, s: Session, files: Files): Tested {
    var ready := Ensured(x, s, files);
    if ready.status != Fine then Tested(ready.session, ready.status, None) else
    var cid := ready.session.cid.value;
    var copied := Required(x, ready.session, CopyIn(cid, files));
    if copied.status != Fine then Tested(copied.session, copied.status, None) else
    AfterTest(x, Issued(x, copied.session, Test(cid, files)), cid, x.replies(copied.session.issued))
  }

  function AfterTest(x: Settings, s: Session, cid: string, reply: Reply): Tested {
    match reply
    case CliMissing => Tested(s, DockerError, None)
    case Raised => Tested(s, SystemError, None)
    case TimedOut(_) =>
      var closed := Closed(x, s);
      Tested(closed.session, closed.status, None)
    case Exit(code, _) =>
      if !x.copiesOut then Tested(s, Fine, Some(code)) else
      var t := Issued(x, s, CopyOut(cid));
      match x.replies(s.issued)
      case CliMissing => Tested(t, DockerError, None)
      case Raised => Tested(t, SystemError, None)
      case _ => Tested(t, Fine, Some(code))
  }

  // ----- what the executor keeps -----

  function Tracked(cid: Option<string>): multiset<string> {
    if cid.Some? then multiset{cid.value} else multiset{}
  }

  /** While nothing is lost, what runs is what is tracked, and at most one container has run at a time. When docker
      prints nobody else's identifier, this is exact: a loss leaves a container running, and a start after a loss
      makes two. */
  ghost predicate Accounted(s: Session) {
    (NothingLost(s.trace) ==> Running(s.trace) == Tracked(s.cid)) &&
    (OwnNames(s.trace) && !NothingLost(s.trace) ==> Leftover(s.trace, s.cid)) &&
    (NoStartAfterLoss(s.trace) ==> AtMostOne(s.trace)) &&
    (OwnNames(s.trace) && AtMostOne(s.trace) ==> NoStartAfterLoss(s.trace))
  }

  ghost predicate Valid(x: Settings, s: Session) {
    Accounted(s) && Safe(s.trace) && OneNetwork(s.trace, x.setup)
  }

  /** The tracked container, if any, is off the network: tests may run in it. */
  predicate Offline(s: Session) {
    s.cid.Some? ==> !Attached(s.trace, s.cid.value)
  }

  lemma NothingYet(x: Settings, issued: nat)
    ensures Valid(x, Session(None, issued, [])) && Offline(Session(None, issued, [])) && TestsIn([]) == []
    ensures NothingLost([]) && Running([]) == multiset{}
  {
    var empty: seq<Event> := [];
    assert empty[..0] == empty;
  }

  lemma NotUp(trace: seq<Event>, e: Event)
    requires !ComesUp(e)
    ensures |Running(trace + [e])| <= |Running(trace)|
    ensures AtMostOne(trace + [e]) <==> AtMostOne(trace)
    ensures NoStartAfterLoss(trace + [e]) <==> NoStartAfterLoss(trace)
  {
    hide Running, Lost;
    RunningSnoc(trace, e);
    AtMostOneSnoc(trace, e);
    NoStartAfterLossSnoc(trace, e);
    assert trace[..|trace|] == trace;
    if GoesDown(e) {
      var removed := multiset{e.command.cid};
      assert Running(trace) == (Running(trace) - removed) + (Running(trace) * removed);
    }
  }

  lemma NetworkSnoc(trace: seq<Event>, e: Event, setup: bool)
    requires OneNetwork(trace, setup) && (e.command.StartContainer? ==> e.command.networked == setup)
    ensures OneNetwork(trace + [e], setup)
  {
  }

  lemma IssuedKeeps(x: Settings, s: Session, c: Command)
    requires Valid(x, s) && !c.StartContainer? && !c.Remove? && (c.Test? ==> Admitted(s.trace, c))
    ensures var t := Issued(x, s, c);
      Valid(x, t) && (Offline(s) ==> Offline(t)) &&
      TestsIn(t.trace) == TestsIn(s.trace) + (if c.Test? then [Last(t.trace)] else []) &&
      (c.CopyIn? && Offline(s) && s.cid == Some(c.cid) && Succeeded(Last(t.trace).reply) ==>
        Admitted(t.trace, Test(c.cid, c.files))) &&
      (c.Disconnect? && s.cid == Some(c.cid) && Succeeded(Last(t.trace).reply) ==> Offline(t))
  {
    hide Filter, Attached, Safe, OneNetwork, Accounted;
    var e := Event(c, x.replies(s.issued));
    PlainIsAccounted(s, Issued(x, s, c), e);
    SafeSnoc(s.trace, e);
    NetworkSnoc(s.trace, e, x.setup);
    FilterSnoc(IsTest, s.trace, e);
    if s.cid.Some? {
      AttachedSnoc(s.trace, e, s.cid.value);
    }
  }

  lemma PlainIsAccounted(s: Session, t: Session, e: Event)
    requires Accounted(s) && !e.command.StartContainer? && !e.command.Remove?
    requires t.trace == s.trace + [e] && t.cid == s.cid
    ensures Accounted(t)
  {
    assert !ComesUp(e) && !GoesDown(e) && !Lost(e);
    hide Running, NothingLost, OwnNames, Leftover, AtMostOne, NoStartAfterLoss, Lost, ComesUp, GoesDown;
    RunningSnoc(s.trace, e);
    NotUp(s.trace, e);
    NothingLostSnoc(s.trace, e);
    if OwnNames(t.trace) {
      OwnNamesPrefix(s.trace, e);
      if !NothingLost(s.trace) {
        LeftoverStays(s.trace, e, s.cid, s.cid);
      }
    }
  }

  lemma StartIsAccounted(s: Session, t: Session, e: Event)
    requires Accounted(s) && s.cid == None && e.command.StartContainer? && t.trace == s.trace + [e]
    requires t.cid == if Succeeded(e.reply) then e.reply.lastLine else None
    ensures Accounted(t)
  {
    hide Running, NothingLost, OwnNames, Leftover, AtMostOne, NoStartAfterLoss;
    RunningSnoc(s.trace, e);
    NothingLostSnoc(s.trace, e);
    AtMostOneSnoc(s.trace, e);
    NoStartAfterLossSnoc(s.trace, e);
    AtMostOneNow(s.trace);
    if !ComesUp(e) {
      NotUp(s.trace, e);
    }
    if OwnNames(t.trace) {
      OwnNamesPrefix(s.trace, e);
      if !NothingLost(s.trace) {
        LeftoverStays(s.trace, e, None, t.cid);
        LeftoverRuns(s.trace, None);
      } else if Lost(e) {
        LeftoverArises(t.trace, e.command.container, t.cid);
      }
    }
  }

  lemma AtMostOneNow(trace: seq<Event>)
    ensures AtMostOne(trace) ==> |Running(trace)| <= 1
  {
    assert trace[..|trace|] == trace;
  }

  lemma LeftoverRuns(trace: seq<Event>, cid: Option<string>)
    requires Leftover(trace, cid)
    ensures |Running(trace)| >= 1 && Running(trace) != multiset{}
  {
    hide Running;
    var i :| 0 <= i < |trace| && ComesUp(trace[i]) && trace[i].command.container in Running(trace) &&
      Some(trace[i].command.container) != cid;
    var one := multiset{trace[i].command.container};
    assert Running(trace) == (Running(trace) - one) + one;
  }

  lemma RemovalIsAccounted(s: Session, t: Session, e: Event)
    requires Accounted(s) && s.cid.Some? && e.command == Remove(s.cid.value) && t.trace == s.trace + [e]
    requires t.cid == if Unanswered(e) then s.cid else None
    ensures Accounted(t)
  {
    hide Running, NothingLost, OwnNames, Leftover, AtMostOne, NoStartAfterLoss;
    RunningSnoc(s.trace, e);
    NotUp(s.trace, e);
    NothingLostSnoc(s.trace, e);
    if OwnNames(t.trace) {
      OwnNamesPrefix(s.trace, e);
      if !NothingLost(s.trace) {
        LeftoverStays(s.trace, e, s.cid, t.cid);
      } else if Lost(e) {
        LeftoverArises(t.trace, s.cid.value, None);
      }
    }
  }

  lemma StartedUpKeeps(x: Settings, s: Session)
    requires Valid(x, s) && s.cid == None
    ensures var r := StartedUp(x, s);
      Valid(x, r.session) && TestsIn(r.session.trace) == TestsIn(s.trace) &&
      (r.status == Fine && !x.setup ==> Offline(r.session))
  {
    hide Filter, Attached, Safe, Accounted;
    var e := Event(StartCommand(x, s), x.replies(s.issued));
    StartIsAccounted(s, StartedUp(x, s).session, e);
    SafeSnoc(s.trace, e);
    NetworkSnoc(s.trace, e, x.setup);
    FilterSnoc(IsTest, s.trace, e);
    if StartedUp(x, s).status == Fine && !x.setup {
      NeverAttached(s.trace + [e], e.reply.lastLine.value);
    }
  }

  lemma ClosedKeeps(x: Settings, s: Session)
    requires Valid(x, s)
    ensures var r := Closed(x, s);
      Valid(x, r.session) && (r.status == Fine ==> Offline(r.session)) && TestsIn(r.session.trace) == TestsIn(s.trace)
  {
    hide Filter, Attached, Safe, OneNetwork, Accounted;
    if s.cid.Some? {
      var e := Event(Remove(s.cid.value), x.replies(s.issued));
      RemovalIsAccounted(s, Closed(x, s).session, e);
      SafeSnoc(s.trace, e);
      NetworkSnoc(s.trace, e, x.setup);
      FilterSnoc(IsTest, s.trace, e);
    }
  }

  lemma EnsuredKeeps(x: Settings, s: Session, files: Files)
    requires Valid(x, s) && Offline(s)
    ensures var r := Ensured(x, s, files);
      Valid(x, r.session) && (r.status == Fine ==> Offline(r.session)) && TestsIn(r.session.trace) == TestsIn(s.trace)
  {
    hide Valid, Filter, Attached, Admitted;
    if s.cid == None {
      StartedUpKeeps(x, s);
      var started := StartedUp(x, s);
      if started.status == Fine {
        var cid := started.session.cid.value;
        IssuedKeeps(x, started.session, MakeWorkdir(cid));
        var made := Required(x, started.session, MakeWorkdir(cid));
        var copied := Required(x, made.session, CopyIn(cid, files));
        var installed := Required(x, copied.session, Setup(cid));
        IssuedKeeps(x, made.session, CopyIn(cid, files));
        IssuedKeeps(x, copied.session, Setup(cid));
        IssuedKeeps(x, installed.session, Disconnect(cid));
      }
    }
  }

  /** A test run keeps all of that, issues at most one test command, and a verdict is that command's. */
  lemma RanKeeps(x: Settings, s: Session, files: Files)
    requires Valid(x, s) && Offline(s)
    ensures var r := Ran(x, s, files);
      Valid(x, r.session) && (r.status == Fine ==> Offline(r.session)) &&
      (TestsIn(r.session.trace) == TestsIn(s.trace) ||
       exists e :: TestsIn(r.session.trace) == TestsIn(s.trace) + [e] && e.command.Test? && e.command.files == files) &&
      (r.status == Fine ==>
        exists e :: TestsIn(r.session.trace) == TestsIn(s.trace) + [e] && Judges(e, files, r.exit))
  {
    hide Valid, Filter, Attached, Admitted, Ensured, TestsIn;
    EnsuredKeeps(x, s, files);
    var ready := Ensured(x, s, files);
    if ready.status == Fine {
      var cid := ready.session.cid.value;
      IssuedKeeps(x, ready.session, CopyIn(cid, files));
      var copied := Required(x, ready.session, CopyIn(cid, files));
      if copied.status == Fine {
        IssuedKeeps(x, copied.session, Test(cid, files));
        var tested := Issued(x, copied.session, Test(cid, files));
        assert TestsIn(tested.trace) == TestsIn(s.trace) + [Last(tested.trace)];
        IssuedKeeps(x, tested, CopyOut(cid));
        ClosedKeeps(x, tested);
      }
    }
  }

  // ----- how a call ends -----

  /** An event after which an exception leaves the pass, whatever closing does. */
  predicate Throws(e: Event) {
    e.reply.Raised? || StatusOf(e) == NoContainerId
  }

  predicate Quiet(trace: seq<Event>) {
    forall i :: 0 <= i < |trace| ==> !Throws(trace[i])
  }

  lemma QuietSnoc(trace: seq<Event>, e: Event)
    ensures Quiet(trace + [e]) <==> Quiet(trace) && !Throws(e)
  {
    hide Throws;
    var longer := trace + [e];
    assert forall i :: 0 <= i < |trace| ==> longer[i] == trace[i];
    assert longer[|trace|] == e;
  }

  /** A call throws exactly when it issues a command that does. */
  predicate EndsAs(before: Session, after: Session, status: Status) {
    before.trace <= after.trace && (Quiet(before.trace) ==> (Quiet(after.trace) <==> !Throwing(status)))
  }

  predicate Throwing(status: Status) {
    status == NoContainerId || status == SystemError
  }

  lemma RequiredEndsAs(x: Settings, s: Session, c: Command)
    requires !c.StartContainer?
    ensures EndsAs(s, Required(x, s, c).session, Required(x, s, c).status)
  {
    hide Quiet;
    QuietSnoc(s.trace, Event(c, x.replies(s.issued)));
  }

  lemma StartedEndsAs(x: Settings, s: Session)
    ensures EndsAs(s, StartedUp(x, s).session, StartedUp(x, s).status)
  {
    hide Quiet;
    QuietSnoc(s.trace, Event(StartCommand(x, s), x.replies(s.issued)));
  }

  /** Preparing issues nothing when a container is tracked; else its last command says how it ended. */
  lemma EnsuredEndsAs(x: Settings, s: Session, files: Files)
    ensures var r := Ensured(x, s, files);
      EndsAs(s, r.session, r.status) && (s.cid.Some? ==> r == Ended(s, Fine)) &&
      (s.cid == None ==>
        |s.trace| < |r.session.trace| && !Last(r.session.trace).command.Remove? &&
        r.status == StatusOf(Last(r.session.trace))) &&
      (r.status == NoContainerId ==> r.session.cid == None)
  {
    hide Quiet;
    if s.cid == None {
      StartedEndsAs(x, s);
      var started := StartedUp(x, s);
      if started.status == Fine {
        var cid := started.session.cid.value;
        RequiredEndsAs(x, started.session, MakeWorkdir(cid));
        var made := Required(x, started.session, MakeWorkdir(cid));
        var copied := Required(x, made.session, CopyIn(cid, files));
        var installed := Required(x, copied.session, Setup(cid));
        RequiredEndsAs(x, made.session, CopyIn(cid, files));
        RequiredEndsAs(x, copied.session, Setup(cid));
        RequiredEndsAs(x, installed.session, Disconnect(cid));
      }
    }
  }

  lemma ClosedEndsAs(x: Settings, s: Session)
    ensures var r := Closed(x, s);
      EndsAs(s, r.session, r.status) && (r.status == Fine <==> r.session.cid == None) && r.status != NoContainerId &&
      (s.cid == None ==> r.session == s) &&
      (s.cid.Some? ==> |s.trace| < |r.session.trace| && Last(r.session.trace).command.Remove? &&
                       r.status == StatusOf(Last(r.session.trace)))
  {
    hide Quiet;
    if s.cid.Some? {
      QuietSnoc(s.trace, Event(Remove(s.cid.value), x.replies(s.issued)));
    }
  }

  /** A test run issues commands, and the last one says how it ended: `NoContainerId` exactly when it started a
      container and nothing was printed, `SystemError` when it raised an exception of another kind, `DockerError` when
      it was refused where it has to succeed or there was no docker command line. */
  lemma RanEndsAs(x: Settings, s: Session, files: Files)
    ensures var r := Ran(x, s, files);
      EndsAs(s, r.session, r.status) && |s.trace| < |r.session.trace| && r.status == StatusOf(Last(r.session.trace)) &&
      (r.status == NoContainerId ==> r.session.cid == None) &&
      (Unanswered(Last(r.session.trace)) ==> r.session.cid.Some?)
  {
    hide Ensured, Quiet;
    EnsuredEndsAs(x, s, files);
    var ready := Ensured(x, s, files);
    if ready.status == Fine {
      var cid := ready.session.cid.value;
      RequiredEndsAs(x, ready.session, CopyIn(cid, files));
      var copied := Required(x, ready.session, CopyIn(cid, files));
      if copied.status == Fine {
        var tested := Issued(x, copied.session, Test(cid, files));
        QuietSnoc(copied.session.trace, Last(tested.trace));
        QuietSnoc(tested.trace, Event(CopyOut(cid), x.replies(tested.issued)));
        ClosedEndsAs(x, tested);
      }
    }
  }

  class DockerExecutor {
    const settings: Settings
    var cid: Option<string>
    var issued: nat
    ghost var trace: seq<Event>

    ghost function Now(): Session
      reads this
    {
      Session(cid, issued, trace)
    }

    constructor (settings: Settings, issued: nat)
      ensures this.settings == settings && Now() == Session(None, issued, [])
    {
      this.settings := settings;
      cid, this.issued, trace := None, issued, [];
    }

    /** Run one docker command. */
    method Exec(command: Command) returns (reply: Reply)
      modifies this`issued, this`trace
      ensures reply == settings.replies(old(issued)) && Now() == Issued(settings, old(Now()), command)
    {
      reply := settings.replies(issued);
      trace := trace + [Event(command, reply)];
      issued := issued + 1;
    }

    method Must(command: Command) returns (status: Status)
      modifies this`issued, this`trace
      ensures Ended(Now(), status) == Required(settings, old(Now()), command)
    {
      var reply := Exec(command);
      status := StatusOfRequired(reply);
    }

    method StartUp() returns (status: Status)
      modifies this
      ensures Ended(Now(), status) == StartedUp(settings, old(Now()))
    {
      var reply := Exec(StartContainer(settings.setup, settings.containers(issued)));
      if !Succeeded(reply) {
        return StatusOfRequired(reply);
      }
      if reply.lastLine == None {
        return NoContainerId;
      }
      cid := reply.lastLine;
      status := Fine;
    }

    method SetUp(files: Files) returns (status: Status)
      requires cid.Some?
      modifies this`issued, this`trace
      ensures Ended(Now(), status) == SetUpDone(settings, old(Now()), files)
    {
      status := Must(CopyIn(cid.value, files));
      if status == Fine {
        status := Must(Setup(cid.value));
      }
      if status == Fine {
        status := Must(Disconnect(cid.value));
      }
    }

    /** Start and set up a container unless one is tracked. */
    method EnsureContainer(files: Files) returns (status: Status)
      modifies this
      ensures Ended(Now(), status) == Ensured(settings, old(Now()), files)
    {
      if cid.Some? {
        return Fine;
      }
      status := StartUp();
      if status != Fine {
        return;
      }
      status := Must(MakeWorkdir(cid.value));
      if status == Fine && settings.setup {
        status := SetUp(files);
      }
    }

    method Close() returns (status: Status)
      modifies this
      ensures Ended(Now(), status) == Closed(settings, old(Now()))
    {
      if cid == None {
        return Fine;
      }
      var reply := Exec(Remove(cid.value));
      if reply.CliMissing? || reply.Raised? {
        return StatusOfRequired(reply);
      }
      cid := None;
      status := Fine;
    }

    method Run(files: Files) returns (status: Status, exit: Option<int>)
      modifies this
      ensures Tested(Now(), status, exit) == Ran(settings, old(Now()), files)
    {
      exit := None;
      status := EnsureContainer(files);
      if status != Fine {
        return;
      }
      status := Must(CopyIn(cid.value, files));
      if status != Fine {
        return;
      }
      var reply := Exec(Test(cid.value, files));
      match reply {
        case CliMissing =>
          status := DockerError;
        case Raised =>
          status := SystemError;
        case TimedOut(_) =>
          status := Close();
        case Exit(code, _) =>
          if settings.copiesOut {
            var copied := Exec(CopyOut(cid.value));
            if copied.CliMissing? || copied.Raised? {
              return StatusOfRequired(copied), None;
            }
          }
          exit := Some(code);
      }
    }
  }

  // ----- the failing inputs -----

  /** A test run times out and docker refuses the removal; the next run starts a second container. */
  function RefusedRemoval(n: nat): Reply {
    match n
    case 0 => Exit(0, Some("a"))
    case 3 => TimedOut(false)
    case 4 => Exit(1, None)
    case 5 => Exit(0, Some("b"))
    case _ => Exit(0, None)
  }

  function Numbered(n: nat): string {
    if n == 0 then "a" else "b"
  }

  /** A run without setup in a new container, up to the test command. */
  function InNewContainer(x: Settings, s: Session, cid: string, files: Files): Session {
    var started := StartedUp(x, s).session;
    Issued(x, Issued(x, Issued(x, started, MakeWorkdir(cid)), CopyIn(cid, files)), Test(cid, files))
  }

  predicate NewContainer(x: Settings, s: Session, cid: string) {
    s.cid == None && !x.setup && !x.copiesOut &&
    x.replies(s.issued) == Exit(0, Some(cid)) && x.containers(s.issued) == cid &&
    Succeeded(x.replies(s.issued + 1)) && Succeeded(x.replies(s.issued + 2))
  }

  lemma FreshRun(x: Settings, s: Session, cid: string, files: Files)
    requires NewContainer(x, s, cid)
    ensures var t := InNewContainer(x, s, cid, files);
      t.cid == Some(cid) && t.issued == s.issued + 4 &&
      Ran(x, s, files) == AfterTest(x, t, cid, x.replies(s.issued + 3))
  {
    hide AfterTest;
  }

  lemma FreshRunRuns(x: Settings, s: Session, cid: string, files: Files)
    requires NewContainer(x, s, cid)
    ensures Running(InNewContainer(x, s, cid, files).trace) == Running(s.trace) + multiset{cid}
  {
    hide Running;
    var started := StartedUp(x, s).session;
    var made := Issued(x, started, MakeWorkdir(cid));
    var copied := Issued(x, made, CopyIn(cid, files));
    RunningSnoc(s.trace, Event(StartCommand(x, s), x.replies(s.issued)));
    RunningSnoc(started.trace, Event(MakeWorkdir(cid), x.replies(s.issued + 1)));
    RunningSnoc(made.trace, Event(CopyIn(cid, files), x.replies(s.issued + 2)));
    RunningSnoc(copied.trace, Event(Test(cid, files), x.replies(s.issued + 3)));
  }

  lemma NothingRuns()
    ensures Running([]) == multiset{}
  {
  }

  lemma TwoContainersAtOnce(files: Files)
    ensures var x := Settings(false, false, RefusedRemoval, Numbered);
      var first := Ran(x, Session(None, 0, []), files);
      var second := Ran(x, first.session, files);
      first.status == second.status == Fine && second.exit == Some(0) &&
      Running(second.session.trace) == multiset{"a", "b"}
  {
    hide Ran, Running, InNewContainer;
    var x := Settings(false, false, RefusedRemoval, Numbered);
    var s := Session(None, 0, []);
    NothingRuns();
    FreshRun(x, s, "a", files);
    FreshRunRuns(x, s, "a", files);
    var t := InNewContainer(x, s, "a", files);
    var refused := Closed(x, t).session;
    RunningSnoc(t.trace, Event(Remove("a"), Exit(1, None)));
    FreshRun(x, refused, "b", files);
    FreshRunRuns(x, refused, "b", files);
  }

  /** `docker run` prints a warning after the identifier: the warning is tracked, the work directory is refused in a
      container of that name, and removing it is answered with success. */
  function WarnedStart(n: nat): Reply {
    match n
    case 0 => Exit(0, Some("WARNING"))
    case 1 => Exit(1, None)
    case _ => Exit(0, None)
  }

  lemma WarningHidesContainer(files: Files)
    ensures var x := Settings(false, false, WarnedStart, Numbered);
      var tried := Ran(x, Session(None, 0, []), files);
      var closed := Closed(x, tried.session);
      tried.status == DockerError && closed.status == Fine && closed.session.cid == None &&
      Running(closed.session.trace) == multiset{"a"} && OwnNames(closed.session.trace)
  {
    hide Running;
    var x := Settings(false, false, WarnedStart, Numbered);
    var start := Event(StartContainer(false, "a"), Exit(0, Some("WARNING")));
    var made, removed := Event(MakeWorkdir("WARNING"), Exit(1, None)), Event(Remove("WARNING"), Exit(0, None));
    NothingRuns();
    RunningSnoc([], start);
    RunningSnoc([start], made);
    RunningSnoc([start] + [made], removed);
    assert Closed(x, Ran(x, Session(None, 0, []), files).session).session.trace == [start] + [made] + [removed];
    assert [] + [start] == [start];
  }
}
