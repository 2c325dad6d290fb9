/** The phase dependency graph: readiness, downstream closure, and validation. */
module PhaseDag {
  import opened Options
  import opened Sequences

  /** A dependency dictionary together with the canonical order of its nodes. */
  datatype Graph<T> = Graph(order: seq<T>, deps: map<T, seq<T>>)

  ghost predicate WellFormed<T>(g: Graph<T>) {
    Distinct(g.order) && Elems(g.order) == g.deps.Keys
  }

  /** Every dependency names a node of the graph. */
  ghost predicate Closed<T>(g: Graph<T>) {
    forall p, d :: p in g.deps && d in g.deps[p] ==> d in g.deps
  }

  ghost predicate Edge<T>(g: Graph<T>, p: T, dep: T) {
    p in g.deps && dep in g.deps[p]
  }

  /** A path follows dependency edges: each node is followed by one of its dependencies. */
  ghost predicate IsPath<T>(g: Graph<T>, path: seq<T>) {
    forall i, j :: 0 <= i < j < |path| && j == i + 1 ==> Edge(g, path[i], path[j])
  }

  ghost predicate Connects<T>(g: Graph<T>, path: seq<T>, source: T, target: T) {
    |path| >= 2 && path[0] == source && path[|path| - 1] == target && IsPath(g, path)
  }

  /** `source` transitively depends on `target` through one or more edges. */
  ghost predicate Reaches<T(!new)>(g: Graph<T>, source: T, target: T) {
    exists path: seq<T> :: Connects(g, path, source, target)
  }

  ghost predicate Acyclic<T(!new)>(g: Graph<T>) {
    forall p :: !Reaches(g, p, p)
  }

  predicate IsReady<T(==)>(g: Graph<T>, completed: set<T>, p: T) {
    p in g.deps && p !in completed && forall d :: d in g.deps[p] ==> d in completed
  }

  function ReadyTest<T(==, !new)>(g: Graph<T>, completed: set<T>): T -> bool {
    p => IsReady(g, completed, p)
  }

  function Ready<T(==, !new)>(g: Graph<T>, completed: set<T>): seq<T> {
    Filter(ReadyTest(g, completed), g.order)
  }

  function NextPhase<T(==, !new)>(g: Graph<T>, completed: set<T>): Option<T> {
    var ready := Ready(g, completed);
    if ready == [] then None else Some(ready[0])
  }

  /** Everything that transitively depends on `p`, other than `p`, in canonical order. */
  ghost function Downstream<T(!new)>(g: Graph<T>, p: T): seq<T> {
    Filter(DownstreamTest(g, p), g.order)
  }

  ghost function DownstreamTest<T(!new)>(g: Graph<T>, p: T): T -> bool {
    q => q != p && Reaches(g, q, p)
  }

  function Member<T(==, !new)>(s: seq<T>): T -> bool {
    p => p in s
  }

  function KeyOf<T(==, !new)>(deps: map<T, seq<T>>): T -> bool {
    p => p in deps
  }

  function NonMember<T(==, !new)>(s: seq<T>): T -> bool {
    p => p !in s
  }

  // ----- paths -----

  lemma PathStep<T(!new)>(g: Graph<T>, p: T, d: T)
    requires p in g.deps && d in g.deps[p]
    ensures Reaches(g, p, d)
  {
    assert Connects(g, [p, d], p, d);
  }

  lemma ReachesTransitive<T(!new)>(g: Graph<T>, a: T, b: T, c: T)
    requires Reaches(g, a, b) && Reaches(g, b, c)
    ensures Reaches(g, a, c)
  {
    var p :| Connects(g, p, a, b);
    var q :| Connects(g, q, b, c);
    var pq := p + q[1..];
    forall i, j | 0 <= i < j < |pq| && j == i + 1
      ensures Edge(g, pq[i], pq[j])
    {
      if i < |p| - 1 {
        assert pq[i] == p[i] && pq[j] == p[j];
      } else {
        assert pq[i] == q[i + 1 - |p|] && pq[j] == q[j + 1 - |p|];
      }
    }
    assert Connects(g, pq, a, c);
  }

  /** A path either is a single edge or starts with an edge to a node that still reaches the target. */
  lemma ReachesUnfold<T(!new)>(g: Graph<T>, a: T, c: T) returns (d: T)
    requires Reaches(g, a, c)
    ensures a in g.deps && d in g.deps[a] && (d == c || Reaches(g, d, c))
  {
    var p :| Connects(g, p, a, c);
    d := p[1];
    assert Edge(g, p[0], p[1]);
    if |p| > 2 {
      assert Connects(g, p[1..], d, c);
    }
  }

  lemma SubPath<T(!new)>(g: Graph<T>, path: seq<T>, i: nat, j: nat)
    requires IsPath(g, path) && i < j < |path|
    ensures Reaches(g, path[i], path[j])
  {
    var part := path[i..j + 1];
    forall a, b | 0 <= a < b < |part| && b == a + 1
      ensures Edge(g, part[a], part[b])
    {
      assert Edge(g, path[i + a], path[i + b]);
    }
    assert Connects(g, part, path[i], path[j]);
  }

  // ----- stuck sets and cycles -----

  /** Every member keeps a dependency inside the set: no member can ever be resolved. */
  ghost predicate Stuck<T>(g: Graph<T>, s: set<T>) {
    forall p {:trigger DependsInto(g, p, s)} :: p in s ==> DependsInto(g, p, s)
  }

  ghost predicate DependsInto<T>(g: Graph<T>, p: T, s: set<T>) {
    p in g.deps && exists d :: d in g.deps[p] && d in s
  }

  lemma {:induction false} StuckWalk<T(!new)>(g: Graph<T>, s: set<T>, start: T, n: nat) returns (path: seq<T>)
    requires Stuck(g, s) && start in s
    ensures |path| == n + 1 && path[0] == start && IsPath(g, path)
    ensures forall x :: x in path ==> x in s
  {
    if n == 0 {
      path := [start];
    } else {
      assert DependsInto(g, start, s);
      var d :| d in g.deps[start] && d in s;
      var rest := StuckWalk(g, s, d, n - 1);
      path := [start] + rest;
    }
  }

  /** From any member of a stuck set one can walk into a cycle. */
  lemma {:induction false} StuckReachesCycle<T(!new)>(g: Graph<T>, s: set<T>, start: T) returns (p: T)
    requires Stuck(g, s) && start in s
    ensures Reaches(g, p, p) && (p == start || Reaches(g, start, p))
  {
    var path := StuckWalk(g, s, start, |s|);
    var i, j := Pigeonhole(path, s);
    p := path[i];
    SubPath(g, path, i, j);
    if i > 0 {
      SubPath(g, path, 0, i);
    }
  }

  /** A listing in which each node comes after all of its dependencies. */
  ghost predicate Topological<T>(g: Graph<T>, listing: seq<T>) {
    Distinct(listing) &&
    forall i :: 0 <= i < |listing| ==>
      listing[i] in g.deps && forall d :: d in g.deps[listing[i]] ==> d in listing[..i]
  }

  lemma {:induction false} TopologicalPathDescends<T(!new)>(g: Graph<T>, listing: seq<T>, path: seq<T>, i: nat)
    returns (k: nat)
    requires Topological(g, listing)
    requires IsPath(g, path) && |path| >= 2
    requires i < |listing| && listing[i] == path[0]
    ensures k < i && listing[k] == path[|path| - 1]
    decreases |path|
  {
    assert Edge(g, path[0], path[1]);
    k :| 0 <= k < i && listing[k] == path[1];
    if |path| > 2 {
      k := TopologicalPathDescends(g, listing, path[1..], k);
    }
  }

  /** No member of a topological listing lies on, or leads into, a cycle. */
  lemma TopologicalAvoidsCycles<T(!new)>(g: Graph<T>, listing: seq<T>, start: T, p: T)
    requires Topological(g, listing) && start in listing
    requires start == p || Reaches(g, start, p)
    ensures !Reaches(g, p, p)
  {
    if Reaches(g, p, p) {
      var i :| 0 <= i < |listing| && listing[i] == start;
      if start != p {
        var path :| Connects(g, path, start, p);
        i := TopologicalPathDescends(g, listing, path, i);
      }
      var cycle :| Connects(g, cycle, p, p);
      var k := TopologicalPathDescends(g, listing, cycle, i);
      assert false;
    }
  }

  /** A node that lies on a cycle or leads into one. */
  ghost predicate LeadsToCycle<T(!new)>(g: Graph<T>, start: T) {
    exists p :: Reaches(g, p, p) && (p == start || Reaches(g, start, p))
  }

  // ----- no deadlock -----

  /** On an accepted graph some phase is ready whenever any phase is left, whatever set counts as done. */
  lemma NoDeadlock<T(!new)>(g: Graph<T>, completed: set<T>)
    requires WellFormed(g) && Closed(g) && Acyclic(g)
    ensures NextPhase(g, completed) == None <==> g.deps.Keys <= completed
  {
    var ready := Ready(g, completed);
    if g.deps.Keys <= completed {
      if ready != [] {
        NextPhaseIsReady(g, completed);
      }
    } else if ready == [] {
      var left := g.deps.Keys - completed;
      forall p | p in left
        ensures Blocked(g, p, completed)
      {
        assert p in Elems(g.order);
        assert p !in ready;
      }
      BlockedIsStuck(g, completed);
      var start :| start in g.deps.Keys && start !in completed;
      var p := StuckReachesCycle(g, left, start);
      assert false;
    }
  }

  lemma NextPhaseIsReady<T(!new)>(g: Graph<T>, completed: set<T>)
    requires NextPhase(g, completed).Some?
    ensures IsReady(g, completed, NextPhase(g, completed).value)
    ensures NextPhase(g, completed).value in Ready(g, completed)
  {
    assert Ready(g, completed)[0] in Ready(g, completed);
  }

  lemma DownstreamMembers<T(!new)>(g: Graph<T>, p: T)
    requires WellFormed(g)
    ensures Distinct(Downstream(g, p))
    ensures forall q :: q in Downstream(g, p) <==> q in g.deps && q != p && Reaches(g, q, p)
  {
    FilterDistinct(DownstreamTest(g, p), g.order);
    forall q ensures q in Downstream(g, p) <==> q in g.deps && q != p && Reaches(g, q, p) {
      assert q in Elems(g.order) <==> q in g.order;
    }
  }

  datatype Verdict<T> = Accepted | UnknownDependency(node: T, dep: T) | Cycle(unresolved: set<T>)

  /** Standard phases in canonical order, then custom nodes in insertion order. */
  function CanonicalOrder<T(==, !new)>(phaseIds: seq<T>, keys: seq<T>, deps: map<T, seq<T>>): seq<T> {
    Filter(KeyOf(deps), phaseIds) + Filter(NonMember(phaseIds), keys)
  }

  lemma StandardNode<T(!new)>(phaseIds: seq<T>, deps: map<T, seq<T>>, i: nat)
    requires i < |phaseIds|
    ensures Filter(KeyOf(deps), phaseIds[..i + 1]) ==
            Filter(KeyOf(deps), phaseIds[..i]) + if phaseIds[i] in deps then [phaseIds[i]] else []
  {
    FilterNext(KeyOf(deps), phaseIds, i);
  }

  lemma CustomNode<T(!new)>(phaseIds: seq<T>, keys: seq<T>, deps: map<T, seq<T>>, i: nat)
    requires Distinct(keys) && Elems(keys) == deps.Keys && i < |keys|
    ensures Filter(NonMember(phaseIds), keys[..i + 1]) ==
            Filter(NonMember(phaseIds), keys[..i]) + if keys[i] in phaseIds then [] else [keys[i]]
    ensures keys[i] in Filter(KeyOf(deps), phaseIds) + Filter(NonMember(phaseIds), keys[..i]) <==> keys[i] in phaseIds
  {
    FilterNext(NonMember(phaseIds), keys, i);
    assert keys[i] in Elems(keys);
    assert keys[i] !in keys[..i];
  }

  lemma CanonicalOrderEnumerates<T(!new)>(phaseIds: seq<T>, keys: seq<T>, deps: map<T, seq<T>>)
    requires Distinct(phaseIds) && Distinct(keys) && Elems(keys) == deps.Keys
    ensures WellFormed(Graph(CanonicalOrder(phaseIds, keys, deps), deps))
  {
    var order := CanonicalOrder(phaseIds, keys, deps);
    FilterDistinct(KeyOf(deps), phaseIds);
    FilterDistinct(NonMember(phaseIds), keys);
    DistinctConcat(Filter(KeyOf(deps), phaseIds), Filter(NonMember(phaseIds), keys));
    forall p ensures p in Elems(order) <==> p in deps {
      assert p in Elems(keys) <==> p in keys;
    }
  }

  /** Of two nodes, the standard one comes first; of two standard ones, the one the standard list has first, and of two
      others, the one that was inserted first. */
  lemma OrderIsCanonical<T(!new)>(phaseIds: seq<T>, keys: seq<T>, deps: map<T, seq<T>>, p: T, q: T)
    requires Elems(keys) == deps.Keys && p in deps && q in deps
    ensures ComesBefore(CanonicalOrder(phaseIds, keys, deps), p, q) <==>
      if p in phaseIds then q !in phaseIds || ComesBefore(phaseIds, p, q)
      else q !in phaseIds && ComesBefore(keys, p, q)
  {
    hide ComesBefore;
    var standard, custom := Filter(KeyOf(deps), phaseIds), Filter(NonMember(phaseIds), keys);
    assert p in Elems(keys) && q in Elems(keys);
    ComesBeforeConcat(standard, custom, p, q);
    BeforeIsThere(standard, p, q);
    BeforeIsThere(custom, p, q);
    FilterKeepsOrder(KeyOf(deps), phaseIds, p, q);
    if p !in phaseIds && q !in phaseIds {
      FilterKeepsOrder(NonMember(phaseIds), keys, p, q);
    }
  }

  class PhaseDAG<T(==, !new)> {
    var dependencies: map<T, seq<T>>
    var order: seq<T>

    function Value(): Graph<T>
      reads this
    {
      Graph(order, dependencies)
    }

    ghost predicate Valid()
      reads this
    {
      WellFormed(Value())
    }

    /** `keys` is the insertion order of the dictionary. */
    constructor (phaseIds: seq<T>, keys: seq<T>, deps: map<T, seq<T>>)
      requires Distinct(phaseIds) && Distinct(keys) && Elems(keys) == deps.Keys
      ensures Valid() && Value() == Graph(CanonicalOrder(phaseIds, keys, deps), deps)
    {
      var ids := BuildOrder(phaseIds, keys, deps);
      dependencies := deps;
      order := ids;
      CanonicalOrderEnumerates(phaseIds, keys, deps);
    }

    static method BuildOrder(phaseIds: seq<T>, keys: seq<T>, deps: map<T, seq<T>>) returns (ids: seq<T>)
      requires Distinct(keys) && Elems(keys) == deps.Keys
      ensures ids == CanonicalOrder(phaseIds, keys, deps)
    {
      ids := [];
      var i := 0;
      while i < |phaseIds|
        invariant 0 <= i <= |phaseIds| && ids == Filter(KeyOf(deps), phaseIds[..i])
      {
        StandardNode(phaseIds, deps, i);
        if phaseIds[i] in deps {
          ids := ids + [phaseIds[i]];
        }
        i := i + 1;
      }
      assert phaseIds[..i] == phaseIds;
      i := 0;
      while i < |keys|
        invariant 0 <= i <= |keys|
        invariant ids == Filter(KeyOf(deps), phaseIds) + Filter(NonMember(phaseIds), keys[..i])
      {
        CustomNode(phaseIds, keys, deps, i);
        if keys[i] !in ids {
          ids := ids + [keys[i]];
        }
        i := i + 1;
      }
      assert keys[..i] == keys;
    }

    method ReadyPhases(completed: set<T>) returns (ready: seq<T>)
      requires Valid()
      ensures ready == Ready(Value(), completed)
    {
      ready := [];
      ghost var test := ReadyTest(Value(), completed);
      var i := 0;
      while i < |order|
        invariant 0 <= i <= |order|
        invariant ready == Filter(test, order[..i])
      {
        var phase := order[i];
        FilterNext(test, order, i);
        assert phase in Elems(order);
        if phase !in completed && forall dep :: dep in dependencies[phase] ==> dep in completed {
          ready := ready + [phase];
        }
        i := i + 1;
      }
      assert order[..i] == order;
    }

    method Next(completed: set<T>) returns (next: Option<T>)
      requires Valid()
      ensures next == NextPhase(Value(), completed)
    {
      var ready := ReadyPhases(completed);
      next := if ready == [] then None else Some(ready[0]);
    }

    /** Exactly the other phases that reach `p` through dependency edges, in canonical order, on any graph. */
    method DownstreamOf(p: T) returns (affected: seq<T>)
      requires Valid()
      ensures affected == Downstream(Value(), p)
    {
      var result: seq<T> := [];
      var frontier := {p};
      var changed := true;
      ghost var g := Value();
      while changed
        invariant Grown(g, p, result, frontier)
        invariant !changed ==> Settled(g, p, frontier, |order|)
        decreases |order| - |result|, changed
      {
        changed := false;
        ghost var before := |result|;
        var i := 0;
        while i < |order|
          invariant 0 <= i <= |order|
          invariant Grown(g, p, result, frontier)
          invariant |result| >= before && (changed ==> |result| > before)
          invariant !changed ==> Settled(g, p, frontier, i)
        {
          var phase := order[i];
          assert phase in Elems(order);
          if phase !in result && phase != p {
            if exists dep :: dep in dependencies[phase] && dep in frontier {
              GrowBy(g, p, result, frontier, phase);
              result := result + [phase];
              frontier := frontier + {phase};
              changed := true;
            }
          }
          i := i + 1;
        }
        GrownBound(g, p, result, frontier);
      }
      SettledIsClosure(g, p, result, frontier);
      FilterCongruent(Member(result), DownstreamTest(g, p), order);
      affected := FilterIn(result);
    }

    method FilterIn(keep: seq<T>) returns (out: seq<T>)
      ensures out == Filter(Member(keep), order)
    {
      out := [];
      var i := 0;
      while i < |order|
        invariant 0 <= i <= |order| && out == Filter(Member(keep), order[..i])
      {
        FilterNext(Member(keep), order, i);
        if order[i] in keep {
          out := out + [order[i]];
        }
        i := i + 1;
      }
      assert order[..i] == order;
    }

    /** Accepts exactly the acyclic graphs without dangling references; a cycle report lists
        exactly the nodes that lie on a cycle or lead into one. */
    method Validate() returns (verdict: Verdict<T>)
      requires Valid()
      ensures verdict == Accepted <==> Closed(Value()) && Acyclic(Value())
      ensures verdict.UnknownDependency? ==>
        verdict.node in dependencies && verdict.dep in dependencies[verdict.node] && verdict.dep !in dependencies
      ensures verdict.Cycle? ==> Closed(Value())
      ensures verdict.Cycle? ==>
        forall p :: p in verdict.unresolved <==> p in dependencies && LeadsToCycle(Value(), p)
    {
      var known := dependencies.Keys;
      var todo := known;
      while todo != {}
        invariant todo <= known
        invariant forall p, d :: p in known - todo && d in dependencies[p] ==> d in known
      {
        var node :| node in todo;
        if dep :| dep in dependencies[node] && dep !in known {
          return UnknownDependency(node, dep);
        }
        todo := todo - {node};
      }
      var resolved := Resolve();
      ResolutionVerdict(Value(), resolved);
      verdict := if resolved == known then Accepted else Cycle(known - resolved);
    }

    /** Repeatedly resolve nodes whose dependencies are all resolved, until nothing changes. */
    method Resolve() returns (resolved: set<T>)
      requires Valid() && Closed(Value())
      ensures Resolved(Value(), resolved) && Stuck(Value(), dependencies.Keys - resolved)
    {
      ghost var g := Value();
      var known := dependencies.Keys;
      resolved := {};
      assert Resolution(g, {}, []);
      var progressing := true;
      while progressing
        invariant Resolved(g, resolved)
        invariant !progressing ==> Stuck(g, known - resolved)
        decreases |known - resolved|, progressing
      {
        progressing := false;
        ghost var before := resolved;
        var todo := known;
        while todo != {}
          invariant todo <= known && before <= resolved
          invariant Resolved(g, resolved)
          invariant if progressing then before < resolved else before == resolved
          invariant !progressing ==> forall p :: p in known - resolved - todo ==> Blocked(g, p, resolved)
        {
          var node :| node in todo;
          if node !in resolved {
            if forall dep :: dep in dependencies[node] ==> dep in resolved {
              ResolveNode(g, resolved, node);
              resolved := resolved + {node};
              progressing := true;
            }
          }
          todo := todo - {node};
        }
        if progressing {
          assert resolved <= known;
          ProperSubset(known - resolved, known - before);
        } else {
          BlockedIsStuck(g, resolved);
        }
      }
    }
  }

  /** Nodes of the graph that can be listed so that dependencies come first. */
  ghost predicate Resolved<T(!new)>(g: Graph<T>, resolved: set<T>)
    ensures Resolved(g, resolved) ==> resolved <= g.deps.Keys
  {
    exists listing: seq<T> :: Resolution(g, resolved, listing)
  }

  lemma ResolveNode<T(!new)>(g: Graph<T>, resolved: set<T>, node: T)
    requires Resolved(g, resolved) && node in g.deps && node !in resolved
    requires forall dep :: dep in g.deps[node] ==> dep in resolved
    ensures Resolved(g, resolved + {node})
  {
    var listing :| Resolution(g, resolved, listing);
    var longer := listing + [node];
    assert longer[..|listing|] == listing;
    forall i | 0 <= i < |listing| ensures longer[..i] == listing[..i] { }
    assert Elems(longer) == resolved + {node};
    assert Resolution(g, resolved + {node}, longer);
  }

  lemma ResolutionVerdict<T(!new)>(g: Graph<T>, resolved: set<T>)
    requires Resolved(g, resolved) && Stuck(g, g.deps.Keys - resolved)
    ensures forall p :: p in g.deps.Keys - resolved <==> p in g.deps && LeadsToCycle(g, p)
    ensures resolved == g.deps.Keys <==> Acyclic(g)
  {
    var listing :| Resolution(g, resolved, listing);
    forall p | p in g.deps
      ensures p !in resolved <==> LeadsToCycle(g, p)
    {
      if p in resolved {
        forall q | q == p || Reaches(g, p, q) ensures !Reaches(g, q, q) {
          TopologicalAvoidsCycles(g, listing, p, q);
        }
      } else {
        var q := StuckReachesCycle(g, g.deps.Keys - resolved, p);
      }
    }
    if resolved == g.deps.Keys {
      forall p ensures !Reaches(g, p, p) {
        if Reaches(g, p, p) {
          var d := ReachesUnfold(g, p, p);
          assert LeadsToCycle(g, p);
        }
      }
    } else {
      var p :| p in g.deps && p !in resolved;
      var q := StuckReachesCycle(g, g.deps.Keys - resolved, p);
    }
  }

  // ----- supporting facts for the loops above -----

  /** `p` still waits for an unresolved dependency. */
  ghost predicate Blocked<T>(g: Graph<T>, p: T, resolved: set<T>) {
    p in g.deps && exists d :: d in g.deps[p] && d !in resolved
  }

  lemma BlockedIsStuck<T>(g: Graph<T>, resolved: set<T>)
    requires Closed(g) && forall p :: p in g.deps.Keys - resolved ==> Blocked(g, p, resolved)
    ensures Stuck(g, g.deps.Keys - resolved)
  {
    var s := g.deps.Keys - resolved;
    forall p | p in s ensures DependsInto(g, p, s) {
      assert Blocked(g, p, resolved);
      var d :| d in g.deps[p] && d !in resolved;
      assert d in s;
    }
  }

  lemma ProperSubset<T>(a: set<T>, b: set<T>)
    requires a < b
    ensures |a| < |b|
  {
    SubsetCardinality(a, b);
  }

  /** `resolved` has been listed in an order that respects dependencies. */
  ghost predicate Resolution<T>(g: Graph<T>, resolved: set<T>, listing: seq<T>) {
    Topological(g, listing) && resolved == Elems(listing)
  }

  /** Everything pulled in so far is distinct from `p` and reaches it. */
  ghost predicate Grown<T(!new)>(g: Graph<T>, p: T, result: seq<T>, frontier: set<T>) {
    Distinct(result) && p !in result && frontier == {p} + Elems(result) &&
    forall q :: q in result ==> q in g.deps && Reaches(g, q, p)
  }

  /** None of the first `n` nodes outside the frontier depends on it. */
  ghost predicate Settled<T>(g: Graph<T>, p: T, frontier: set<T>, n: nat)
    requires n <= |g.order|
  {
    forall i, d :: 0 <= i < n && g.order[i] !in frontier && g.order[i] in g.deps && d in g.deps[g.order[i]] ==>
      d !in frontier
  }

  lemma GrowBy<T(!new)>(g: Graph<T>, p: T, result: seq<T>, frontier: set<T>, phase: T)
    requires Grown(g, p, result, frontier)
    requires phase in g.deps && phase !in result && phase != p
    requires exists dep :: dep in g.deps[phase] && dep in frontier
    ensures Grown(g, p, result + [phase], frontier + {phase})
  {
    var dep :| dep in g.deps[phase] && dep in frontier;
    PathStep(g, phase, dep);
    if dep != p {
      ReachesTransitive(g, phase, dep, p);
    }
    assert Elems(result + [phase]) == Elems(result) + {phase};
  }

  lemma GrownBound<T(!new)>(g: Graph<T>, p: T, result: seq<T>, frontier: set<T>)
    requires WellFormed(g) && Grown(g, p, result, frontier)
    ensures |result| <= |g.order|
  {
    DistinctCardinality(result);
    DistinctCardinality(g.order);
    SubsetCardinality(Elems(result), Elems(g.order));
  }

  lemma {:induction false} SettledPath<T(!new)>(g: Graph<T>, p: T, frontier: set<T>, path: seq<T>)
    requires WellFormed(g) && Settled(g, p, frontier, |g.order|) && p in frontier
    requires IsPath(g, path) && |path| >= 1 && path[|path| - 1] == p
    ensures path[0] in frontier
    decreases |path|
  {
    if |path| > 1 {
      SettledPath(g, p, frontier, path[1..]);
      assert path[0] in Elems(g.order);
    }
  }

  lemma SettledIsClosure<T(!new)>(g: Graph<T>, p: T, result: seq<T>, frontier: set<T>)
    requires WellFormed(g) && Grown(g, p, result, frontier) && Settled(g, p, frontier, |g.order|)
    ensures forall q :: q in result <==> q != p && Reaches(g, q, p)
  {
    forall q | q != p && Reaches(g, q, p) ensures q in result {
      var path :| Connects(g, path, q, p);
      SettledPath(g, p, frontier, path);
    }
  }
}
