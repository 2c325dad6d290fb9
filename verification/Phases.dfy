/** Phase identifiers, approval gates, operating modes and complexity tiers. */
module Phases {
  import opened Options
  import opened Sequences
  import opened PhaseDag

  datatype Phase =
    | Intake | Proposal | FactoryInit | Specification | Architecture | Blueprint | DevPlan
    | Implementation | Qa | Packaging | Documentation | Deployment | Cleanup
  {
    function Index(): nat {
      match this
      case Intake => 0 case Proposal => 1 case FactoryInit => 2 case Specification => 3
      case Architecture => 4 case Blueprint => 5 case DevPlan => 6 case Implementation => 7
      case Qa => 8 case Packaging => 9 case Documentation => 10 case Deployment => 11
      case Cleanup => 12
    }

    function Name(): string {
      match this
      case Intake => "intake" case Proposal => "proposal" case FactoryInit => "factory-init"
      case Specification => "specification" case Architecture => "architecture"
      case Blueprint => "blueprint" case DevPlan => "dev-plan" case Implementation => "implementation"
      case Qa => "qa" case Packaging => "packaging" case Documentation => "documentation"
      case Deployment => "deployment" case Cleanup => "cleanup"
    }
  }

  const PHASE_IDS: seq<Phase> :=
    [Intake, Proposal, FactoryInit, Specification, Architecture, Blueprint, DevPlan,
     Implementation, Qa, Packaging, Documentation, Deployment, Cleanup]

  lemma PhaseIdsAreIndexed()
    ensures |PHASE_IDS| == 13 && Distinct(PHASE_IDS)
    ensures forall p: Phase :: p.Index() < 13 && PHASE_IDS[p.Index()] == p
    ensures forall i :: 0 <= i < 13 ==> PHASE_IDS[i].Index() == i
  {
  }

  datatype Mode = Yolo | Gated | Secure

  lemma IndexIsInjective(p: Phase, q: Phase)
    ensures p.Index() == q.Index() ==> p == q
  {
  }

  // ----- canonical listings -----

  predicate IsEarliest(p: Phase, s: set<Phase>) {
    p in s && forall q :: q in s ==> p.Index() <= q.Index()
  }

  lemma {:induction false} EarliestExists(s: set<Phase>)
    requires s != {}
    ensures exists p :: IsEarliest(p, s)
  {
    var x :| x in s;
    if s == {x} {
      assert IsEarliest(x, s);
    } else {
      EarliestExists(s - {x});
      var p :| IsEarliest(p, s - {x});
      assert IsEarliest(if x.Index() < p.Index() then x else p, s);
    }
  }

  lemma EarliestIsUnique(p: Phase, q: Phase, s: set<Phase>)
    ensures IsEarliest(p, s) && IsEarliest(q, s) ==> p == q
  {
    IndexIsInjective(p, q);
  }

  /** The member of `s` that comes first in canonical order. */
  function Earliest(s: set<Phase>): (p: Phase)
    requires s != {}
    ensures IsEarliest(p, s)
  {
    EarliestExists(s);
    assert forall p, q :: p in s && IsEarliest(p, s) && q in s && IsEarliest(q, s) ==> p == q by {
      forall p, q | IsEarliest(p, s) && IsEarliest(q, s) ensures p == q {
        EarliestIsUnique(p, q, s);
      }
    }
    var p :| p in s && IsEarliest(p, s);
    p
  }

  function IndexOf(): Phase -> int {
    (p: Phase) => p.Index()
  }

  ghost predicate InCanonicalOrder(ps: seq<Phase>) {
    Ascending(IndexOf(), ps)
  }

  /** The members of `s` in canonical order. */
  function Listing(s: set<Phase>): seq<Phase> {
    if s == {} then [] else [Earliest(s)] + Listing(s - {Earliest(s)})
  }

  lemma {:induction false} ListingIsCanonical(s: set<Phase>)
    ensures forall p :: p in Listing(s) <==> p in s
    ensures InCanonicalOrder(Listing(s))
  {
    if s != {} {
      var first := Earliest(s);
      var rest := s - {first};
      ListingIsCanonical(rest);
      forall q | q in Listing(rest) ensures first.Index() < q.Index() {
        IndexIsInjective(first, q);
      }
      AscendingConcat(IndexOf(), [first], Listing(rest));
      assert Listing(s) == [first] + Listing(rest);
    }
  }

  lemma {:induction false} ListingSnoc(s: set<Phase>, p: Phase)
    requires forall q :: q in s ==> q.Index() < p.Index()
    ensures Listing(s + {p}) == Listing(s) + [p]
  {
    var all := s + {p};
    ListingUnfolds(all);
    ListingUnfolds(s);
    hide Listing;
    if s == {} {
      assert all == {p};
      assert all - {p} == {};
      ListingUnfolds({});
    } else {
      var first := Earliest(s);
      assert IsEarliest(first, all);
      EarliestIsUnique(first, Earliest(all), all);
      assert all - {first} == (s - {first}) + {p};
      ListingSnoc(s - {first}, p);
      assert [first] + (Listing(s - {first}) + [p]) == [first] + Listing(s - {first}) + [p];
    }
  }

  lemma ListingUnfolds(s: set<Phase>)
    ensures Listing(s) == if s == {} then [] else [Earliest(s)] + Listing(s - {Earliest(s)})
  {
  }

  /** A gate identifier: after a phase, before deployment, or a name no gate map contains. */
  datatype Gate = PostGate(phase: Phase) | PreDeployment | UnknownGate(name: string)

  datatype Tier = Simple | Standard | Complex

  function ExcludedForTier(tier: Option<Tier>): set<Phase> {
    match tier
    case Some(Simple) => {Qa, Packaging, Documentation, Deployment, Cleanup}
    case Some(Standard) => {Packaging, Documentation, Deployment, Cleanup}
    case _ => {}
  }

  datatype GateMaps = GateMaps(pre: map<Phase, Gate>, post: map<Phase, Gate>)

  const MANDATORY_SECURE_GATES: seq<Gate> :=
    [PostGate(Proposal), PostGate(Architecture), PostGate(Blueprint), PreDeployment]

  ghost predicate GatesOf(post: map<Phase, Gate>, phases: set<Phase>) {
    post.Keys == phases && forall p :: p in post ==> post[p] == PostGate(p)
  }

  function PhaseNamed(name: string): Option<Phase> {
    if name == "intake" then Some(Intake) else if name == "proposal" then Some(Proposal)
    else if name == "factory-init" then Some(FactoryInit) else if name == "specification" then Some(Specification)
    else if name == "architecture" then Some(Architecture) else if name == "blueprint" then Some(Blueprint)
    else if name == "dev-plan" then Some(DevPlan) else if name == "implementation" then Some(Implementation)
    else if name == "qa" then Some(Qa) else if name == "packaging" then Some(Packaging)
    else if name == "documentation" then Some(Documentation) else if name == "deployment" then Some(Deployment)
    else if name == "cleanup" then Some(Cleanup) else None
  }

  /** A requested gate names a phase, with or without the prefix; any other request is dropped. */
  function RequestedPhase(request: string): Option<Phase> {
    PhaseNamed(if "post-" <= request then request[5..] else request)
  }

  /** Exactly the name of a phase, bare or prefixed, requests its gate. */
  lemma RequestedPhaseIff(request: string, p: Phase)
    ensures RequestedPhase(request) == Some(p) <==> request == p.Name() || request == "post-" + p.Name()
  {
    hide PhaseNamed;
    PhaseNamedIff(request, p);
    var rest := if "post-" <= request then request[5..] else request;
    PhaseNamedIff(rest, p);
    NamesHaveNoPrefix(p);
    if "post-" <= request {
      assert request == "post-" + rest;
    }
  }

  lemma PhaseNamedIff(name: string, p: Phase)
    ensures PhaseNamed(name) == Some(p) <==> name == p.Name()
  {
    NamedBack(p);
  }

  lemma NamedBack(p: Phase)
    ensures PhaseNamed(p.Name()) == Some(p)
  {
  }

  lemma NamesHaveNoPrefix(p: Phase)
    ensures !("post-" <= p.Name()) && ("post-" + p.Name())[5..] == p.Name() && "post-" <= "post-" + p.Name()
  {
    assert "post-"[1] == 'o' && "post-"[0] == 'p' && "post-"[2] == 's';
  }

  function Requested(extra: seq<string>): set<Phase> {
    set x | x in extra && RequestedPhase(x).Some? :: RequestedPhase(x).value
  }

  /** Which gates a run has: none in yolo mode; else the gate after each requested phase, and in secure mode the
      mandatory ones, whatever is requested. */
  lemma GatesAreRequested(mode: Mode, extra: seq<string>, p: Phase)
    ensures var maps := GateMapsFor(mode, extra);
      (p in maps.post <==>
        mode != Yolo && ((mode == Secure && p in {Proposal, Architecture, Blueprint}) ||
                         exists x :: x in extra && (x == p.Name() || x == "post-" + p.Name()))) &&
      (p in maps.post ==> maps.post[p] == PostGate(p)) &&
      (p in maps.pre <==> mode == Secure && p == Deployment) && (p in maps.pre ==> maps.pre[p] == PreDeployment)
  {
    hide RequestedPhase;
    forall x: string ensures RequestedPhase(x) == Some(p) <==> x == p.Name() || x == "post-" + p.Name() {
      RequestedPhaseIff(x, p);
    }
  }

  lemma RequestedSnoc(extra: seq<string>, i: nat)
    requires i < |extra|
    ensures Requested(extra[..i + 1]) ==
      Requested(extra[..i]) + if RequestedPhase(extra[i]).Some? then {RequestedPhase(extra[i]).value} else {}
  {
    hide RequestedPhase;
    assert extra[..i + 1] == extra[..i] + [extra[i]];
  }

  /** The gates a new run starts with; `extra` lists the requested and configured phase gates. */
  method ComputeGateMaps(mode: Mode, extra: seq<string>) returns (maps: GateMaps)
    ensures maps == GateMapsFor(mode, extra)
  {
    hide RequestedPhase, Requested;
    if mode == Yolo {
      return GateMaps(map[], map[]);
    }
    NoRequests();
    var pre: map<Phase, Gate> := map[];
    var post: map<Phase, Gate> := map[];
    if mode == Secure {
      pre, post := MandatoryGates();
    }
    ghost var mandatory := post.Keys;
    var i := 0;
    while i < |extra|
      invariant 0 <= i <= |extra|
      invariant GatesOf(post, mandatory + Requested(extra[..i]))
    {
      RequestedSnoc(extra, i);
      var phase := RequestedPhase(extra[i]);
      if phase.Some? && phase.value !in post {
        post := post[phase.value := PostGate(phase.value)];
      }
      i := i + 1;
    }
    assert extra[..i] == extra;
    maps := GateMaps(pre, post);
    assert maps.post == GateMapsFor(mode, extra).post;
  }

  /** "post-<phase>" gates fire after that phase; pre-deployment fires before deployment. */
  method MandatoryGates() returns (pre: map<Phase, Gate>, post: map<Phase, Gate>)
    ensures pre == map[Deployment := PreDeployment]
    ensures GatesOf(post, {Proposal, Architecture, Blueprint})
  {
    pre, post := map[], map[];
    var i := 0;
    while i < |MANDATORY_SECURE_GATES|
      invariant 0 <= i <= 4
      invariant pre == if i == 4 then map[Deployment := PreDeployment] else map[]
      invariant GatesOf(post,
        (if i > 0 then {Proposal} else {}) + (if i > 1 then {Architecture} else {}) +
        (if i > 2 then {Blueprint} else {}))
    {
      var gate := MANDATORY_SECURE_GATES[i];
      if gate == PreDeployment {
        pre := pre[Deployment := gate];
      } else {
        post := post[gate.phase := gate];
      }
      i := i + 1;
    }
  }

  lemma NoRequests()
    ensures Requested([]) == {}
  {
  }

  function GateMapsFor(mode: Mode, extra: seq<string>): GateMaps {
    if mode == Yolo then GateMaps(map[], map[])
    else if mode == Gated then GateMaps(map[], map p: Phase | p in Requested(extra) :: PostGate(p))
    else GateMaps(map[Deployment := PreDeployment],
                  map p: Phase | p in {Proposal, Architecture, Blueprint} + Requested(extra) :: PostGate(p))
  }

  // ----- the default linear pipeline -----

  function LinearDeps(): map<Phase, seq<Phase>> {
    map p: Phase | p in PHASE_IDS :: if p == Intake then [] else [PHASE_IDS[p.Index() - 1]]
  }

  function LinearDag(): Graph<Phase> {
    Graph(PHASE_IDS, LinearDeps())
  }

  lemma LinearDependencies(p: Phase)
    ensures p in LinearDag().deps
    ensures forall d :: d in LinearDag().deps[p] <==> d.Index() + 1 == p.Index()
  {
    PhaseIdsAreIndexed();
    assert PHASE_IDS[p.Index()] in PHASE_IDS;
  }

  lemma {:induction false} LinearReachesLater(q: Phase, p: Phase)
    requires p.Index() < q.Index()
    ensures Reaches(LinearDag(), q, p)
    decreases q.Index()
  {
    PhaseIdsAreIndexed();
    var d := PHASE_IDS[q.Index() - 1];
    LinearDependencies(q);
    PathStep(LinearDag(), q, d);
    if d != p {
      LinearReachesLater(d, p);
      ReachesTransitive(LinearDag(), q, d, p);
    }
  }

  lemma {:induction false} LinearPathDescends(path: seq<Phase>)
    requires IsPath(LinearDag(), path) && |path| >= 2
    ensures path[|path| - 1].Index() < path[0].Index()
    decreases |path|
  {
    assert Edge(LinearDag(), path[0], path[1]);
    LinearDependencies(path[0]);
    if |path| > 2 {
      LinearPathDescends(path[1..]);
    }
  }

  lemma LinearReachesIff(q: Phase, p: Phase)
    ensures Reaches(LinearDag(), q, p) <==> p.Index() < q.Index()
  {
    if p.Index() < q.Index() {
      LinearReachesLater(q, p);
    }
    if Reaches(LinearDag(), q, p) {
      var path :| Connects(LinearDag(), path, q, p);
      LinearPathDescends(path);
    }
  }

  /** The default pipeline is an accepted graph over all thirteen phases. */
  lemma LinearDagIsValid()
    ensures WellFormed(LinearDag()) && Closed(LinearDag()) && Acyclic(LinearDag())
    ensures forall p: Phase :: p in LinearDag().deps
  {
    PhaseIdsAreIndexed();
    forall p: Phase ensures p in LinearDag().deps && !Reaches(LinearDag(), p, p) {
      LinearDependencies(p);
      LinearReachesIff(p, p);
    }
  }

  lemma LinearDownstream(p: Phase)
    ensures forall q :: q in Downstream(LinearDag(), p) <==> p.Index() < q.Index()
    ensures InCanonicalOrder(Downstream(LinearDag(), p))
  {
    hide LinearDag, InCanonicalOrder, Downstream;
    LinearDagIsValid();
    LinearOrder();
    forall q, r ensures Reaches(LinearDag(), q, r) <==> r.Index() < q.Index() {
      LinearReachesIff(q, r);
    }
    DownstreamByIndex(LinearDag(), p);
  }

  lemma LinearOrder()
    ensures InCanonicalOrder(LinearDag().order)
  {
    PhaseIdsAreIndexed();
  }

  lemma DownstreamByIndex(g: Graph<Phase>, p: Phase)
    requires WellFormed(g) && forall q: Phase :: q in g.deps
    requires forall q, r :: Reaches(g, q, r) <==> r.Index() < q.Index()
    ensures forall q :: q in Downstream(g, p) <==> p.Index() < q.Index()
    ensures InCanonicalOrder(g.order) ==> InCanonicalOrder(Downstream(g, p))
  {
    DownstreamMembers(g, p);
    if InCanonicalOrder(g.order) {
      FilterAscending(IndexOf(), DownstreamTest(g, p), g.order);
    }
  }
}
