/** Persisted run state: completion checkpoints, invalidation and resume validation. */
module Checkpoints {
  import opened Options
  import opened Sequences
  import opened Phases

  type Path = string
  type Digest = string
  type RunId = string

  datatype Checkpoint = Checkpoint(phase: Phase, checksums: map<Path, Digest>)

  datatype RunState = RunState(
    mode: Mode,
    completed: seq<Checkpoint>,
    stale: seq<Phase>,
    gates: GateMaps,
    approved: set<Gate>,
    excluded: set<Phase>,
    round: nat,
    pendingGate: Option<Gate>,
    questions: seq<string>,
    contractSealed: bool,
    progress: map<Phase, seq<Path>>)

  function NewRunState(mode: Mode): RunState {
    RunState(mode, [], [], GateMaps(map[], map[]), {}, {}, 0, None, [], false, map[])
  }

  function Ids(cs: seq<Checkpoint>): set<Phase> {
    set c | c in cs :: c.phase
  }

  // ----- completion -----

  function OtherPhase(p: Phase): Checkpoint -> bool {
    (c: Checkpoint) => c.phase != p
  }

  /** Place `c` after every entry whose phase does not come later: the stable position. */
  function Insert(cs: seq<Checkpoint>, c: Checkpoint): seq<Checkpoint> {
    if cs == [] || cs[|cs| - 1].phase.Index() <= c.phase.Index() then cs + [c]
    else Insert(cs[..|cs| - 1], c) + [cs[|cs| - 1]]
  }

  /** The stable sort by canonical phase index. */
  function SortByIndex(cs: seq<Checkpoint>): seq<Checkpoint> {
    if cs == [] then [] else Insert(SortByIndex(cs[..|cs| - 1]), cs[|cs| - 1])
  }

  function SaveCompletion(st: RunState, c: Checkpoint): RunState {
    st.(completed := SortByIndex(Filter(OtherPhase(c.phase), st.completed) + [c]),
        stale := Filter(p => p != c.phase, st.stale))
  }

  // ----- invalidation -----

  function KeptBy(drop: seq<Phase>): Checkpoint -> bool {
    (c: Checkpoint) => c.phase !in drop
  }

  function Invalidate(st: RunState, drop: seq<Phase>): RunState {
    st.(completed := Filter(KeptBy(drop), st.completed), stale := Listing(Elems(st.stale) + Elems(drop)))
  }

  // ----- resume validation -----

  predicate CheckpointValid(c: Checkpoint, files: map<Path, Digest>) {
    forall rel :: rel in c.checksums ==> rel in files && files[rel] == c.checksums[rel]
  }

  /** The dictionary built from the list: a later entry replaces an earlier one. */
  function ByPhase(cs: seq<Checkpoint>): map<Phase, Checkpoint> {
    if cs == [] then map[] else ByPhase(cs[..|cs| - 1])[cs[|cs| - 1].phase := cs[|cs| - 1]]
  }

  /** The completed phases whose recorded artifacts are missing or have changed. */
  function Broken(cs: seq<Checkpoint>, files: map<Path, Digest>): set<Phase> {
    var byPhase := ByPhase(cs);
    set p | p in byPhase && !CheckpointValid(byPhase[p], files)
  }

  function EarliestInvalid(cs: seq<Checkpoint>, files: map<Path, Digest>): Option<Phase> {
    var broken := Broken(cs, files);
    if broken == {} then None else Some(Earliest(broken))
  }

  // ----- what every operation keeps -----

  function PhaseKey(): Checkpoint -> int {
    (c: Checkpoint) => c.phase.Index()
  }

  ghost predicate StrictlySorted(cs: seq<Checkpoint>) {
    Ascending(PhaseKey(), cs)
  }

  /** Completed entries strictly in canonical order, stale phases likewise, and no phase both. */
  ghost predicate Sound(st: RunState) {
    StrictlySorted(st.completed) && InCanonicalOrder(st.stale) &&
    forall c :: c in st.completed ==> c.phase !in st.stale
  }

  lemma {:induction false} InsertKeepsSorted(cs: seq<Checkpoint>, c: Checkpoint)
    requires StrictlySorted(cs) && forall d :: d in cs ==> d.phase != c.phase
    ensures StrictlySorted(Insert(cs, c))
    ensures forall d :: d in Insert(cs, c) <==> d == c || d in cs
  {
    if cs != [] {
      var front, last := cs[..|cs| - 1], cs[|cs| - 1];
      assert cs == front + [last];
      IndexIsInjective(last.phase, c.phase);
      if last.phase.Index() <= c.phase.Index() {
        SortedBelow(cs, c);
        AscendingConcat(PhaseKey(), cs, [c]);
      } else {
        InsertKeepsSorted(front, c);
        AscendingConcat(PhaseKey(), Insert(front, c), [last]);
      }
    }
  }

  lemma SortedBelow(cs: seq<Checkpoint>, c: Checkpoint)
    requires StrictlySorted(cs) && cs != [] && cs[|cs| - 1].phase.Index() < c.phase.Index()
    ensures forall d :: d in cs ==> PhaseKey()(d) < PhaseKey()(c)
  {
    forall d | d in cs ensures PhaseKey()(d) < PhaseKey()(c) {
      var i :| 0 <= i < |cs| && cs[i] == d;
      assert i < |cs| - 1 ==> PhaseKey()(cs[i]) < PhaseKey()(cs[|cs| - 1]);
    }
  }

  lemma {:induction false} SortOfSorted(cs: seq<Checkpoint>)
    requires StrictlySorted(cs)
    ensures SortByIndex(cs) == cs
  {
    if cs != [] {
      var front, last := cs[..|cs| - 1], cs[|cs| - 1];
      LastIsNew(cs);
      InsertLast(cs);
      SortOfSorted(front);
    }
  }

  lemma InsertLast(cs: seq<Checkpoint>)
    requires StrictlySorted(cs) && cs != []
    ensures Insert(cs[..|cs| - 1], cs[|cs| - 1]) == cs
  {
    if |cs| > 1 {
      assert PhaseKey()(cs[|cs| - 2]) < PhaseKey()(cs[|cs| - 1]);
    }
  }

  lemma SavedList(cs: seq<Checkpoint>, c: Checkpoint)
    requires StrictlySorted(cs)
    ensures var saved := SortByIndex(Filter(OtherPhase(c.phase), cs) + [c]);
      StrictlySorted(saved) && forall d :: d in saved <==> d == c || (d in cs && d.phase != c.phase)
  {
    hide Insert, StrictlySorted;
    var rest := Filter(OtherPhase(c.phase), cs);
    OthersSorted(cs, c.phase);
    SortOfSorted(rest);
    assert (rest + [c])[..|rest|] == rest;
    InsertKeepsSorted(rest, c);
  }

  lemma OthersSorted(cs: seq<Checkpoint>, p: Phase)
    requires StrictlySorted(cs)
    ensures StrictlySorted(Filter(OtherPhase(p), cs))
  {
    FilterAscending(PhaseKey(), OtherPhase(p), cs);
  }

  lemma SavedStale(stale: seq<Phase>, p: Phase)
    requires InCanonicalOrder(stale)
    ensures InCanonicalOrder(Filter(q => q != p, stale))
  {
    FilterAscending(IndexOf(), q => q != p, stale);
  }

  /** Completing a phase records exactly that checkpoint for it and nothing else changes. */
  lemma SaveCompletionSound(st: RunState, c: Checkpoint)
    requires Sound(st)
    ensures Sound(SaveCompletion(st, c))
    ensures forall d :: d in SaveCompletion(st, c).completed <==> d == c || (d in st.completed && d.phase != c.phase)
    ensures Ids(SaveCompletion(st, c).completed) == Ids(st.completed) + {c.phase}
    ensures forall p :: p in SaveCompletion(st, c).stale <==> p in st.stale && p != c.phase
  {
    hide SortByIndex, StrictlySorted, InCanonicalOrder;
    SavedList(st.completed, c);
    SavedStale(st.stale, c.phase);
  }

  lemma InvalidateSound(st: RunState, drop: seq<Phase>)
    requires Sound(st)
    ensures Sound(Invalidate(st, drop))
    ensures forall d :: d in Invalidate(st, drop).completed <==> d in st.completed && d.phase !in drop
    ensures Ids(Invalidate(st, drop).completed) == Ids(st.completed) - Elems(drop)
    ensures forall p :: p in Invalidate(st, drop).stale <==> p in st.stale || p in drop
  {
    FilterAscending(PhaseKey(), KeptBy(drop), st.completed);
    ListingIsCanonical(Elems(st.stale) + Elems(drop));
  }

  lemma {:induction false} ByPhaseEntries(cs: seq<Checkpoint>)
    requires StrictlySorted(cs)
    ensures ByPhase(cs).Keys == Ids(cs)
    ensures forall c :: c in cs ==> c.phase in ByPhase(cs) && ByPhase(cs)[c.phase] == c
  {
    hide StrictlySorted;
    if cs != [] {
      var front, last := cs[..|cs| - 1], cs[|cs| - 1];
      LastIsNew(cs);
      ByPhaseEntries(front);
      assert cs == front + [last];
    }
  }

  lemma LastIsNew(cs: seq<Checkpoint>)
    requires StrictlySorted(cs) && cs != []
    ensures StrictlySorted(cs[..|cs| - 1]) && forall c :: c in cs[..|cs| - 1] ==> c.phase != cs[|cs| - 1].phase
  {
    forall c | c in cs[..|cs| - 1] ensures c.phase != cs[|cs| - 1].phase {
      var i :| 0 <= i < |cs| - 1 && cs[i] == c;
      assert PhaseKey()(cs[i]) < PhaseKey()(cs[|cs| - 1]);
    }
  }

  /** Resume validation names the canonically first phase whose recorded artifacts no longer match. */
  lemma EarliestInvalidIsFirst(cs: seq<Checkpoint>, files: map<Path, Digest>)
    requires StrictlySorted(cs)
    ensures EarliestInvalid(cs, files) == None <==> forall c :: c in cs ==> CheckpointValid(c, files)
    ensures EarliestInvalid(cs, files).Some? ==>
      (exists c :: c in cs && c.phase == EarliestInvalid(cs, files).value && !CheckpointValid(c, files))
    ensures EarliestInvalid(cs, files).Some? ==>
      forall c :: c in cs && c.phase.Index() < EarliestInvalid(cs, files).value.Index() ==> CheckpointValid(c, files)
  {
    ByPhaseEntries(cs);
    forall c | c in cs ensures c.phase in Broken(cs, files) <==> !CheckpointValid(c, files) {
    }
    if Broken(cs, files) != {} {
      var p := Earliest(Broken(cs, files));
      var c :| c in cs && c.phase == p;
    }
  }

  /** The members with an index below `i`. */
  function Below(keep: set<Phase>, i: int): set<Phase> {
    set p | p in keep && p.Index() < i
  }

  lemma BelowAll(keep: set<Phase>)
    ensures Below(keep, 0) == {} && Below(keep, 13) == keep
  {
    PhaseIdsAreIndexed();
  }

  lemma BelowNext(keep: set<Phase>, i: nat)
    requires i < 13
    ensures Below(keep, i + 1) == if PHASE_IDS[i] in keep then Below(keep, i) + {PHASE_IDS[i]} else Below(keep, i)
    ensures forall q :: q in Below(keep, i) ==> q.Index() < PHASE_IDS[i].Index()
  {
    PhaseIdsAreIndexed();
    hide PHASE_IDS;
    forall p: Phase ensures p in Below(keep, i + 1) <==> p in Below(keep, i) || (p == PHASE_IDS[i] && p in keep) {
      IndexIsInjective(p, PHASE_IDS[i]);
    }
  }

  lemma NothingListed()
    ensures Listing({}) == []
  {
  }

  /** One write of the container, and the entry it was for. */
  datatype Write = Write(run: RunId, entry: RunState)

  class CheckpointStore {
    var container: map<RunId, RunState>
    ghost var log: seq<Write>

    constructor ()
      ensures container == map[] && log == []
    {
      container, log := map[], [];
    }

    /** Every write goes through here. */
    method Persist(run: RunId, entry: RunState)
      modifies this
      ensures container == old(container)[run := entry] && log == old(log) + [Write(run, entry)]
    {
      container := container[run := entry];
      log := log + [Write(run, entry)];
    }

    method InitializeRun(run: RunId, mode: Mode)
      modifies this
      ensures container == if run in old(container) then old(container) else old(container)[run := NewRunState(mode)]
      ensures log == old(log) + if run in old(container) then [] else [Write(run, NewRunState(mode))]
    {
      if run !in container {
        Persist(run, NewRunState(mode));
      }
    }

    /** Rewrites fields of one run's state; an unknown run is an error and nothing is written. */
    method SaveRunMeta(run: RunId, update: RunState -> RunState) returns (known: bool)
      modifies this
      ensures known == (run in old(container))
      ensures container == if known then old(container)[run := update(old(container)[run])] else old(container)
      ensures log == old(log) + if known then [Write(run, container[run])] else []
    {
      known := run in container;
      if known {
        Persist(run, update(container[run]));
      }
    }

    method SavePhaseCompletion(run: RunId, checkpoint: Checkpoint) returns (known: bool)
      modifies this
      ensures known == (run in old(container))
      ensures container == if known then old(container)[run := SaveCompletion(old(container)[run], checkpoint)]
                           else old(container)
      ensures log == old(log) + if known then [Write(run, container[run])] else []
    {
      known := run in container;
      if known {
        var st := container[run];
        var completed := SortByIndex(Filter(OtherPhase(checkpoint.phase), st.completed) + [checkpoint]);
        st := st.(completed := completed, stale := Filter(p => p != checkpoint.phase, st.stale));
        Persist(run, st);
      }
    }

    method CompletedPhaseIds(run: RunId) returns (ids: set<Phase>)
      ensures ids == if run in container then Ids(container[run].completed) else {}
    {
      ids := if run in container then Ids(container[run].completed) else {};
    }

    method InvalidatePhases(run: RunId, phases: seq<Phase>)
      modifies this
      ensures container == if run in old(container) then old(container)[run := Invalidate(old(container)[run], phases)]
                           else old(container)
      ensures log == old(log) + if run in container then [Write(run, container[run])] else []
    {
      if run in container {
        var st := container[run];
        var stale := ListInOrder(Elems(st.stale) + Elems(phases));
        Persist(run, st.(completed := Filter(KeptBy(phases), st.completed), stale := stale));
      }
    }

    /** One pass over the canonical phase list, keeping the members of `keep`. */
    static method ListInOrder(keep: set<Phase>) returns (listing: seq<Phase>)
      ensures listing == Listing(keep)
    {
      hide Listing;
      PhaseIdsAreIndexed();
      BelowAll(keep);
      listing := [];
      var i := 0;
      NothingListed();
      while i < 13
        invariant 0 <= i <= 13
        invariant listing == Listing(Below(keep, i))
      {
        var p := PHASE_IDS[i];
        BelowNext(keep, i);
        if p in keep {
          ListingSnoc(Below(keep, i), p);
          listing := listing + [p];
        }
        i := i + 1;
      }
    }

    method EarliestInvalidPhase(run: RunId, files: map<Path, Digest>) returns (phase: Option<Phase>)
      ensures phase == if run in container then EarliestInvalid(container[run].completed, files) else None
    {
      if run !in container {
        return None;
      }
      var cs := container[run].completed;
      var byPhase: map<Phase, Checkpoint> := map[];
      var i := 0;
      while i < |cs|
        invariant 0 <= i <= |cs| && byPhase == ByPhase(cs[..i])
      {
        byPhase := byPhase[cs[i].phase := cs[i]];
        assert cs[..i + 1][..i] == cs[..i];
        i := i + 1;
      }
      assert cs[..i] == cs;
      ghost var broken := Broken(cs, files);
      PhaseIdsAreIndexed();
      i := 0;
      while i < 13
        invariant 0 <= i <= 13
        invariant forall p :: p in broken ==> i <= p.Index()
      {
        var p := PHASE_IDS[i];
        if p in byPhase && !CheckpointValid(byPhase[p], files) {
          assert p in broken;
          IndexIsInjective(p, Earliest(broken));
          return Some(p);
        }
        i := i + 1;
      }
      phase := None;
    }
  }
}
