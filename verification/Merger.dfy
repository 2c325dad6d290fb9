/** Merging configuration levels: higher scalars win, lists are united, mappings merge key by key. */
module Merger {
  import opened Options

  datatype Value = Scalar(text: string) | List(items: seq<Value>) | Dict(entries: map<string, Value>)

  // ----- lists -----

  function Union(low: seq<Value>, high: seq<Value>): seq<Value>
    decreases |high|
  {
    if high == [] then low
    else Union(if high[0] in low then low else low + [high[0]], high[1..])
  }

  /** Append `high` onto `low`, skipping what is already there. */
  method UnionLists(low: seq<Value>, high: seq<Value>) returns (out: seq<Value>)
    ensures out == Union(low, high)
  {
    out := low;
    var i := 0;
    while i < |high|
      invariant 0 <= i <= |high|
      invariant Union(out, high[i..]) == Union(low, high)
    {
      assert high[i..][0] == high[i] && high[i..][1..] == high[i + 1..];
      if high[i] !in out {
        out := out + [high[i]];
      }
      i := i + 1;
    }
  }

  /** None is lost, nothing is invented, and the lower list keeps its place in front. */
  lemma {:induction false} UnionMembers(low: seq<Value>, high: seq<Value>)
    ensures low <= Union(low, high)
    ensures forall x :: x in Union(low, high) <==> x in low || x in high
    decreases |high|
  {
    if high != [] {
      UnionMembers(if high[0] in low then low else low + [high[0]], high[1..]);
    }
  }

  lemma {:induction false} UnionAbsorbs(low: seq<Value>, high: seq<Value>)
    requires forall x :: x in high ==> x in low
    ensures Union(low, high) == low
    decreases |high|
  {
    if high != [] {
      UnionAbsorbs(low, high[1..]);
    }
  }

  lemma {:induction false} UnionSnoc(low: seq<Value>, high: seq<Value>, x: Value)
    ensures Union(low, high + [x]) == if x in low || x in high then Union(low, high) else Union(low, high) + [x]
    decreases |high|
  {
    if high == [] {
      assert high + [x] == [x] && [x][1..] == [];
    } else {
      assert (high + [x])[0] == high[0] && (high + [x])[1..] == high[1..] + [x];
      UnionSnoc(if high[0] in low then low else low + [high[0]], high[1..], x);
    }
  }

  /** Uniting three lists does not depend on which two are united first. */
  lemma {:induction false} UnionAssociative(a: seq<Value>, b: seq<Value>, c: seq<Value>)
    ensures Union(Union(a, b), c) == Union(a, Union(b, c))
    decreases |c|
  {
    if c != [] {
      var x := c[0];
      UnionMembers(a, b);
      UnionSnoc(a, b, x);
      if x in b {
        UnionAssociative(a, b, c[1..]);
      } else {
        UnionAssociative(a, b + [x], c[1..]);
      }
    }
  }

  // ----- values -----

  predicate SameContainer(a: Value, b: Value) {
    (a.Dict? && b.Dict?) || (a.List? && b.List?)
  }

  /** Merge a lower-precedence value with a higher-precedence one. */
  function Merge(low: Value, high: Value): Value
    decreases high
  {
    if low.Dict? && high.Dict? then
      Dict(map key | key in low.entries.Keys + high.entries.Keys ::
             if key !in high.entries then low.entries[key]
             else if key !in low.entries then high.entries[key]
             else Merge(low.entries[key], high.entries[key]))
    else if low.List? && high.List? then
      List(Union(low.items, high.items))
    else
      high
  }

  /** Fold the levels, lowest first. */
  function Fold(levels: seq<Value>): Value {
    if levels == [] then Dict(map[]) else Merge(Fold(levels[..|levels| - 1]), levels[|levels| - 1])
  }

  method DeepMerge(levels: seq<Value>) returns (merged: Value)
    requires forall l :: l in levels ==> l.Dict?
    ensures merged == Fold(levels) && merged.Dict?
  {
    merged := Dict(map[]);
    var i := 0;
    while i < |levels|
      invariant 0 <= i <= |levels| && merged == Fold(levels[..i]) && merged.Dict?
    {
      assert levels[..i + 1][..i] == levels[..i];
      assert levels[i] in levels;
      merged := Merge(merged, levels[i]);
      i := i + 1;
    }
    assert levels[..i] == levels;
  }

  /** Merging a level into itself changes nothing. */
  lemma {:induction false} MergeIdempotent(a: Value)
    ensures Merge(a, a) == a
    decreases a
  {
    if a.Dict? {
      forall key | key in a.entries ensures Merge(a.entries[key], a.entries[key]) == a.entries[key] {
        MergeIdempotent(a.entries[key]);
      }
    } else if a.List? {
      UnionAbsorbs(a.items, a.items);
    }
  }

  /** Each of `more` is neither in `low` nor before it in `more`. */
  predicate AllNew(low: seq<Value>, more: seq<Value>) {
    if more == [] then true else
    var front, last := more[..|more| - 1], more[|more| - 1];
    AllNew(low, front) && last !in low && last !in front
  }

  /** The lower value has nothing to add: where both are mappings, every key is there and has nothing to add; where
      both are lists, the higher one starts with the lower one and goes on with elements that are each new. */
  predicate AddsNothing(low: Value, high: Value)
    decreases high
  {
    if low.Dict? && high.Dict? then
      forall key :: key in low.entries ==> key in high.entries && AddsNothing(low.entries[key], high.entries[key])
    else if low.List? && high.List? then low.items <= high.items && AllNew(low.items, high.items[|low.items|..])
    else true
  }

  /** Merging it then gives the higher value, and only then. */
  lemma {:induction false} AddsNothingIff(low: Value, high: Value)
    ensures Merge(low, high) == high <==> AddsNothing(low, high)
    decreases high
  {
    if low.Dict? && high.Dict? {
      var merged := Merge(low, high);
      assert merged.entries.Keys == low.entries.Keys + high.entries.Keys;
      forall key | key in low.entries && key in high.entries
        ensures Merge(low.entries[key], high.entries[key]) == high.entries[key] <==>
          AddsNothing(low.entries[key], high.entries[key])
      {
        AddsNothingIff(low.entries[key], high.entries[key]);
      }
      if AddsNothing(low, high) {
        assert merged.entries == high.entries;
      } else {
        var key :| key in low.entries &&
          !(key in high.entries && AddsNothing(low.entries[key], high.entries[key]));
        assert key in merged.entries;
      }
    } else if low.List? && high.List? {
      UnionIsHigherIff(low.items, high.items);
    }
  }

  lemma UnionIsHigherIff(low: seq<Value>, high: seq<Value>)
    ensures Union(low, high) == high <==> low <= high && AllNew(low, high[|low|..])
  {
    hide Union, AllNew;
    UnionMembers(low, high);
    if low <= high {
      var rest := high[|low|..];
      assert high == low + rest;
      UnionInTwo(low, low, rest);
      UnionAbsorbs(low, low);
      UnionGrowth(low, rest);
    }
  }

  lemma {:induction false} UnionInTwo(low: seq<Value>, a: seq<Value>, b: seq<Value>)
    ensures Union(low, a + b) == Union(Union(low, a), b)
    decreases |a|
  {
    if a == [] {
      assert a + b == b;
    } else {
      assert (a + b)[0] == a[0] && (a + b)[1..] == a[1..] + b;
      UnionInTwo(if a[0] in low then low else low + [a[0]], a[1..], b);
    }
  }

  lemma SameFront(a: seq<Value>, b: seq<Value>, x: Value)
    ensures a + [x] == b + [x] <==> a == b
  {
    if a + [x] == b + [x] {
      assert |a + [x]| == |b + [x]|;
      assert a == (a + [x])[..|a|] && b == (b + [x])[..|b|];
    }
  }

  /** Uniting adds everything exactly when everything is new. */
  lemma {:induction false} UnionGrowth(low: seq<Value>, high: seq<Value>)
    ensures |Union(low, high)| <= |low| + |high|
    ensures Union(low, high) == low + high <==> AllNew(low, high)
    decreases |high|
  {
    if high == [] {
      assert low + high == low;
    } else {
      var front, last := high[..|high| - 1], high[|high| - 1];
      hide Union;
      assert high == front + [last];
      UnionSnoc(low, front, last);
      UnionGrowth(low, front);
      assert low + high == (low + front) + [last];
      SameFront(Union(low, front), low + front, last);
      assert AllNew(low, high) <==> AllNew(low, front) && last !in low && last !in front;
    }
  }

  /** Regrouping is harmless unless, at some path, a container meets a container of its own kind
      across a value of another kind, and the lower one has something to add to the higher one. */
  ghost predicate Regroups(a: Value, b: Value, c: Value)
    decreases c
  {
    if a.Dict? && b.Dict? && c.Dict? then
      forall key :: key in a.entries && key in b.entries && key in c.entries ==>
        Regroups(a.entries[key], b.entries[key], c.entries[key])
    else SameContainer(a, c) && !SameContainer(a, b) ==> AddsNothing(a, c)
  }

  /** Exactly then merging three levels does not depend on the grouping. */
  lemma {:induction false} MergeAssociativeIff(a: Value, b: Value, c: Value)
    ensures Merge(Merge(a, b), c) == Merge(a, Merge(b, c)) <==> Regroups(a, b, c)
    decreases c
  {
    if a.Dict? && b.Dict? && c.Dict? {
      var left, right := Merge(Merge(a, b), c), Merge(a, Merge(b, c));
      assert left.entries.Keys == right.entries.Keys;
      forall key | key in left.entries
        ensures left.entries[key] == right.entries[key] <==>
          (key in a.entries && key in b.entries && key in c.entries ==>
             Regroups(a.entries[key], b.entries[key], c.entries[key]))
      {
        if key in a.entries && key in b.entries && key in c.entries {
          MergeAssociativeIff(a.entries[key], b.entries[key], c.entries[key]);
        }
      }
      if Regroups(a, b, c) {
        assert left.entries == right.entries;
      } else {
        var key :| key in a.entries && key in b.entries && key in c.entries &&
          !Regroups(a.entries[key], b.entries[key], c.entries[key]);
        assert left.entries[key] != right.entries[key];
      }
    } else if a.List? && b.List? && c.List? {
      UnionAssociative(a.items, b.items, c.items);
    } else {
      AddsNothingIff(a, c);
    }
  }

  /** A shape mismatch in the middle level: grouping matters. */
  lemma MismatchBreaksRegrouping()
    ensures var a, b, c := Dict(map["x" := Scalar("1")]), Scalar("2"), Dict(map["y" := Scalar("3")]);
      Merge(Merge(a, b), c) != Merge(a, Merge(b, c))
  {
    var a, c := Dict(map["x" := Scalar("1")]), Dict(map["y" := Scalar("3")]);
    assert "x" in Merge(a, c).entries && "x" !in c.entries;
  }

  // ----- paths -----

  function Lookup(v: Value, path: seq<string>): Option<Value>
    decreases |path|
  {
    if path == [] then Some(v)
    else if v.Dict? && path[0] in v.entries then Lookup(v.entries[path[0]], path[1..])
    else None
  }

  predicate SameShape(a: Value, b: Value) {
    (a.Dict? <==> b.Dict?) && (a.List? <==> b.List?)
  }

  /** At every path that both define, the two levels have values of the same shape. */
  ghost predicate Agree(a: Value, b: Value) {
    forall path {:trigger Lookup(a, path)} {:trigger Lookup(b, path)} ::
      Lookup(a, path).Some? && Lookup(b, path).Some? ==> SameShape(Lookup(a, path).value, Lookup(b, path).value)
  }

  function MergeOption(low: Option<Value>, high: Option<Value>): Option<Value> {
    if low.None? then high else if high.None? then low else Some(Merge(low.value, high.value))
  }

  lemma AgreeBelow(a: Value, b: Value, key: string)
    requires Agree(a, b) && a.Dict? && b.Dict? && key in a.entries && key in b.entries
    ensures Agree(a.entries[key], b.entries[key])
  {
    forall path | Lookup(a.entries[key], path).Some? && Lookup(b.entries[key], path).Some?
      ensures SameShape(Lookup(a.entries[key], path).value, Lookup(b.entries[key], path).value)
    {
      var longer := [key] + path;
      assert longer[1..] == path;
      assert Lookup(a, longer) == Lookup(a.entries[key], path);
      assert Lookup(b, longer) == Lookup(b.entries[key], path);
    }
  }

  lemma {:induction false} AgreementRegroups(a: Value, b: Value, c: Value)
    requires Agree(a, b) && Agree(a, c) && Agree(b, c)
    ensures Regroups(a, b, c)
    decreases c
  {
    assert SameShape(a, b) by {
      assert Lookup(a, []) == Some(a) && Lookup(b, []) == Some(b);
    }
    if a.Dict? && b.Dict? && c.Dict? {
      forall key | key in a.entries && key in b.entries && key in c.entries
        ensures Regroups(a.entries[key], b.entries[key], c.entries[key])
      {
        AgreeBelow(a, b, key);
        AgreeBelow(a, c, key);
        AgreeBelow(b, c, key);
        AgreementRegroups(a.entries[key], b.entries[key], c.entries[key]);
      }
    }
  }

  /** So three levels that agree in shape may be grouped either way. */
  lemma AgreeingLevelsAssociate(a: Value, b: Value, c: Value)
    requires Agree(a, b) && Agree(a, c) && Agree(b, c)
    ensures Merge(Merge(a, b), c) == Merge(a, Merge(b, c))
  {
    AgreementRegroups(a, b, c);
    MergeAssociativeIff(a, b, c);
  }

  /** On levels that agree in shape, merging acts path by path. */
  lemma {:induction false} LookupMerge(a: Value, b: Value, path: seq<string>)
    requires Agree(a, b)
    ensures Lookup(Merge(a, b), path) == MergeOption(Lookup(a, path), Lookup(b, path))
    decreases |path|
  {
    assert SameShape(a, b) by {
      assert Lookup(a, []) == Some(a) && Lookup(b, []) == Some(b);
    }
    if path != [] && a.Dict? && path[0] in a.entries && path[0] in b.entries {
      AgreeBelow(a, b, path[0]);
      LookupMerge(a.entries[path[0]], b.entries[path[0]], path[1..]);
    }
  }

  lemma AgreeWithMerge(a: Value, b: Value, c: Value)
    requires Agree(a, b) && Agree(a, c) && Agree(b, c)
    ensures Agree(Merge(a, b), c)
  {
    forall path | Lookup(Merge(a, b), path).Some? && Lookup(c, path).Some?
      ensures SameShape(Lookup(Merge(a, b), path).value, Lookup(c, path).value)
    {
      LookupMerge(a, b, path);
    }
  }

  ghost predicate AllAgree(levels: seq<Value>) {
    forall i, j :: 0 <= i < j < |levels| ==> Agree(levels[i], levels[j])
  }

  lemma {:induction false} FoldAgrees(levels: seq<Value>, c: Value)
    requires AllAgree(levels) && c.Dict? && forall l :: l in levels ==> l.Dict? && Agree(l, c)
    ensures Agree(Fold(levels), c) && Fold(levels).Dict?
    decreases |levels|
  {
    if levels == [] {
      forall path | Lookup(Fold(levels), path).Some? ensures path == [] {
      }
    } else {
      var front, last := levels[..|levels| - 1], levels[|levels| - 1];
      FoldAgrees(front, c);
      assert last in levels;
      FoldAgreesWithLast(levels);
      AgreeWithMerge(Fold(front), last, c);
    }
  }

  lemma {:induction false} FoldAgreesWithLast(levels: seq<Value>)
    requires levels != [] && AllAgree(levels) && forall l :: l in levels ==> l.Dict?
    ensures Agree(Fold(levels[..|levels| - 1]), levels[|levels| - 1])
    decreases |levels|, 0
  {
    var front, last := levels[..|levels| - 1], levels[|levels| - 1];
    assert last in levels;
    forall l | l in front ensures l.Dict? && Agree(l, last) {
      var i :| 0 <= i < |front| && front[i] == l;
      assert levels[i] in levels;
    }
    FoldAgrees(front, last);
  }

  /** What each level says at a path, folded. */
  function FoldAt(levels: seq<Value>, path: seq<string>): Option<Value> {
    if levels == [] then (if path == [] then Some(Dict(map[])) else None)
    else MergeOption(FoldAt(levels[..|levels| - 1], path), Lookup(levels[|levels| - 1], path))
  }

  lemma {:induction false} LookupFold(levels: seq<Value>, path: seq<string>)
    requires AllAgree(levels) && forall l :: l in levels ==> l.Dict?
    ensures Lookup(Fold(levels), path) == FoldAt(levels, path)
    decreases |levels|
  {
    if levels != [] {
      var front, last := levels[..|levels| - 1], levels[|levels| - 1];
      assert forall l :: l in front ==> l in levels;
      LookupFold(front, path);
      FoldAgreesWithLast(levels);
      LookupMerge(Fold(front), last, path);
    }
  }

  /** At a scalar path the merged configuration has the value of the highest level defining it. */
  lemma {:induction false} HighestScalarWins(levels: seq<Value>, path: seq<string>, i: nat)
    requires AllAgree(levels) && forall l :: l in levels ==> l.Dict?
    requires i < |levels| && Lookup(levels[i], path).Some? && Lookup(levels[i], path).value.Scalar?
    requires forall j :: i < j < |levels| ==> Lookup(levels[j], path) == None
    ensures Lookup(Fold(levels), path) == Lookup(levels[i], path)
    decreases |levels|
  {
    var front, last := levels[..|levels| - 1], levels[|levels| - 1];
    LookupFold(levels, path);
    assert forall l :: l in front ==> l in levels;
    LookupFold(front, path);
    if i < |front| {
      HighestScalarWins(front, path, i);
    }
  }

  /** The lists that the levels define at a path, united lowest first. */
  function UnionAt(levels: seq<Value>, path: seq<string>): seq<Value> {
    if levels == [] then []
    else
      var low := UnionAt(levels[..|levels| - 1], path);
      var here := Lookup(levels[|levels| - 1], path);
      if here.Some? && here.value.List? then
        (if FoldAt(levels[..|levels| - 1], path).None? then here.value.items else Union(low, here.value.items))
      else low
  }

  ghost predicate ListPath(levels: seq<Value>, path: seq<string>) {
    path != [] && forall l :: l in levels ==> l.Dict? && (Lookup(l, path).Some? ==> Lookup(l, path).value.List?)
  }

  lemma {:induction false} FoldAtListPath(levels: seq<Value>, path: seq<string>)
    requires ListPath(levels, path)
    ensures FoldAt(levels, path).Some? ==> FoldAt(levels, path) == Some(List(UnionAt(levels, path)))
    ensures FoldAt(levels, path).None? ==> UnionAt(levels, path) == []
    decreases |levels|
  {
    if levels != [] {
      var front, last := levels[..|levels| - 1], levels[|levels| - 1];
      assert forall l :: l in front ==> l in levels;
      assert last in levels;
      FoldAtListPath(front, path);
    }
  }

  lemma {:induction false} ElementSurvives(levels: seq<Value>, path: seq<string>, i: nat, x: Value)
    requires ListPath(levels, path) && i < |levels| && Lookup(levels[i], path).Some?
    requires (assert levels[i] in levels; x in Lookup(levels[i], path).value.items)
    ensures FoldAt(levels, path).Some? && x in UnionAt(levels, path)
    decreases |levels|
  {
    var front, last := levels[..|levels| - 1], levels[|levels| - 1];
    assert forall l :: l in front ==> l in levels;
    assert last in levels;
    FoldAtListPath(front, path);
    var here := Lookup(last, path);
    if here.Some? {
      UnionMembers(UnionAt(front, path), here.value.items);
    }
    if i < |front| {
      ElementSurvives(front, path, i, x);
    }
  }

  /** At a list path the merged configuration has the lowest-first union of the levels' lists, and no
      element of any level is lost. */
  lemma ListsAreUnited(levels: seq<Value>, path: seq<string>, i: nat, x: Value)
    requires AllAgree(levels) && ListPath(levels, path) && i < |levels|
    requires Lookup(levels[i], path).Some?
    requires (assert levels[i] in levels; x in Lookup(levels[i], path).value.items)
    ensures Lookup(Fold(levels), path) == Some(List(UnionAt(levels, path))) && x in UnionAt(levels, path)
  {
    hide Lookup, Fold, AllAgree, UnionAt, FoldAt;
    LookupFold(levels, path);
    ElementSurvives(levels, path, i, x);
    FoldAtListPath(levels, path);
  }
}
