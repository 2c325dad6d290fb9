/** Sequence facts shared by the other modules. */
module Sequences {

  ghost predicate Distinct<T>(s: seq<T>) {
    forall i, j :: 0 <= i < j < |s| ==> s[i] != s[j]
  }

  function Last<T>(s: seq<T>): T
    requires s != []
  {
    s[|s| - 1]
  }

  function Elems<T>(s: seq<T>): set<T> {
    set x | x in s
  }

  /** The elements of `s` satisfying `keep`, in their original order. */
  function Filter<T(!new)>(keep: T -> bool, s: seq<T>): (r: seq<T>)
    ensures forall x {:trigger x in r} :: x in r <==> x in s && keep(x)
  {
    if s == [] then [] else (if keep(s[0]) then [s[0]] else []) + Filter(keep, s[1..])
  }

  /** `p` stands in `s` somewhere before `q`. */
  ghost predicate ComesBefore<T(!new)>(s: seq<T>, p: T, q: T) {
    exists i, j :: 0 <= i < j < |s| && s[i] == p && s[j] == q
  }

  lemma ComesBeforeCons<T(!new)>(x: T, s: seq<T>, p: T, q: T)
    ensures ComesBefore([x] + s, p, q) <==> (x == p && q in s) || ComesBefore(s, p, q)
  {
    var all := [x] + s;
    if ComesBefore(all, p, q) {
      var i, j :| 0 <= i < j < |all| && all[i] == p && all[j] == q;
      assert s[j - 1] == q;
      if i > 0 {
        assert s[i - 1] == p;
      }
    }
    if ComesBefore(s, p, q) {
      var i, j :| 0 <= i < j < |s| && s[i] == p && s[j] == q;
      assert all[i + 1] == p && all[j + 1] == q;
    }
    if x == p && q in s {
      var j :| 0 <= j < |s| && s[j] == q;
      assert all[0] == p && all[j + 1] == q;
    }
  }

  /** Filtering keeps the order of what it keeps. */
  lemma {:induction false} FilterKeepsOrder<T(!new)>(keep: T -> bool, s: seq<T>, p: T, q: T)
    requires keep(p) && keep(q)
    ensures ComesBefore(Filter(keep, s), p, q) <==> ComesBefore(s, p, q)
  {
    hide ComesBefore;
    if s == [] {
      NothingBefore(p, q);
    } else {
      FilterKeepsOrder(keep, s[1..], p, q);
      ComesBeforeCons(s[0], s[1..], p, q);
      assert s == [s[0]] + s[1..];
      if keep(s[0]) {
        ComesBeforeCons(s[0], Filter(keep, s[1..]), p, q);
      } else {
        assert Filter(keep, s) == Filter(keep, s[1..]);
      }
    }
  }

  lemma NothingBefore<T(!new)>(p: T, q: T)
    ensures !ComesBefore([], p, q)
  {
  }

  lemma {:induction false} ComesBeforeConcat<T(!new)>(a: seq<T>, b: seq<T>, p: T, q: T)
    ensures ComesBefore(a + b, p, q) <==> ComesBefore(a, p, q) || ComesBefore(b, p, q) || (p in a && q in b)
  {
    hide ComesBefore;
    if a == [] {
      assert a + b == b;
      NothingBefore(p, q);
    } else {
      ComesBeforeConcat(a[1..], b, p, q);
      ComesBeforeCons(a[0], a[1..], p, q);
      ComesBeforeCons(a[0], a[1..] + b, p, q);
      assert a == [a[0]] + a[1..] && a + b == [a[0]] + (a[1..] + b);
    }
  }

  lemma BeforeIsThere<T(!new)>(s: seq<T>, p: T, q: T)
    ensures ComesBefore(s, p, q) ==> p in s && q in s
  {
  }

  lemma {:induction false} FilterFirst<T(!new)>(keep: T -> bool, s: seq<T>, i: nat)
    requires i < |s| && keep(s[i]) && forall j :: 0 <= j < i ==> !keep(s[j])
    ensures Filter(keep, s) != [] && Filter(keep, s)[0] == s[i]
  {
    if i > 0 {
      FilterFirst(keep, s[1..], i - 1);
    }
  }

  lemma {:induction false} FilterAppend<T(!new)>(keep: T -> bool, a: seq<T>, b: seq<T>)
    ensures Filter(keep, a + b) == Filter(keep, a) + Filter(keep, b)
  {
    if a == [] {
      assert a + b == b;
    } else {
      var head := if keep(a[0]) then [a[0]] else [];
      assert (a + b)[1..] == a[1..] + b;
      calc {
        Filter(keep, a + b);
        head + Filter(keep, a[1..] + b);
        { FilterAppend(keep, a[1..], b); }
        head + (Filter(keep, a[1..]) + Filter(keep, b));
        Filter(keep, a) + Filter(keep, b);
      }
    }
  }

  lemma {:induction false} FilterSnoc<T(!new)>(keep: T -> bool, s: seq<T>, x: T)
    ensures Filter(keep, s + [x]) == if keep(x) then Filter(keep, s) + [x] else Filter(keep, s)
  {
    FilterAppend(keep, s, [x]);
  }

  lemma FilterNext<T(!new)>(keep: T -> bool, s: seq<T>, i: nat)
    requires i < |s|
    ensures Filter(keep, s[..i + 1]) == if keep(s[i]) then Filter(keep, s[..i]) + [s[i]] else Filter(keep, s[..i])
  {
    FilterSnoc(keep, s[..i], s[i]);
    assert s[..i + 1] == s[..i] + [s[i]];
  }

  lemma {:induction false} FilterCongruent<T(!new)>(f: T -> bool, g: T -> bool, s: seq<T>)
    requires forall x :: x in s ==> f(x) == g(x)
    ensures Filter(f, s) == Filter(g, s)
  {
    if s != [] {
      FilterCongruent(f, g, s[1..]);
    }
  }

  lemma DistinctConcat<T(!new)>(a: seq<T>, b: seq<T>)
    requires Distinct(a) && Distinct(b) && forall x :: x in a ==> x !in b
    ensures Distinct(a + b)
  {
    forall i, j | 0 <= i < j < |a + b| ensures (a + b)[i] != (a + b)[j] {
      if i < |a| <= j {
        assert a[i] in a && b[j - |a|] in b;
      }
    }
  }

  lemma {:induction false} DistinctCardinality<T>(s: seq<T>)
    requires Distinct(s)
    ensures |Elems(s)| == |s|
  {
    if s != [] {
      var rest := s[1..];
      DistinctCardinality(rest);
      assert Elems(s) == {s[0]} + Elems(rest);
      assert s[0] !in Elems(rest);
    }
  }

  lemma {:induction false} FilterDistinct<T(!new)>(keep: T -> bool, s: seq<T>)
    requires Distinct(s)
    ensures Distinct(Filter(keep, s))
  {
    if s != [] {
      var head := if keep(s[0]) then [s[0]] else [];
      FilterDistinct(keep, s[1..]);
      forall y | y in Filter(keep, s[1..]) ensures y != s[0] {
        assert y in s[1..];
      }
      DistinctConcat(head, Filter(keep, s[1..]));
      assert Filter(keep, s) == head + Filter(keep, s[1..]);
    }
  }

  /** Strictly ascending under `key`. */
  ghost predicate Ascending<T>(key: T -> int, s: seq<T>) {
    forall i, j :: 0 <= i < j < |s| ==> key(s[i]) < key(s[j])
  }

  lemma AscendingConcat<T(!new)>(key: T -> int, a: seq<T>, b: seq<T>)
    requires Ascending(key, a) && Ascending(key, b)
    requires forall x, y :: x in a && y in b ==> key(x) < key(y)
    ensures Ascending(key, a + b)
  {
    forall i, j | 0 <= i < j < |a + b| ensures key((a + b)[i]) < key((a + b)[j]) {
      if i < |a| <= j {
        assert a[i] in a && b[j - |a|] in b;
      }
    }
  }

  lemma {:induction false} FilterAscending<T(!new)>(key: T -> int, keep: T -> bool, s: seq<T>)
    requires Ascending(key, s)
    ensures Ascending(key, Filter(keep, s))
  {
    if s != [] {
      FilterAscending(key, keep, s[1..]);
      forall y | y in Filter(keep, s[1..]) ensures key(s[0]) < key(y) {
        assert y in s[1..];
      }
      assert Filter(keep, s) == (if keep(s[0]) then [s[0]] else []) + Filter(keep, s[1..]);
      AscendingConcat(key, if keep(s[0]) then [s[0]] else [], Filter(keep, s[1..]));
    }
  }

  lemma SubsetCardinality<T>(a: set<T>, b: set<T>)
    requires a <= b
    ensures |a| <= |b|
    ensures |a| == |b| ==> a == b
  {
    assert b == a + (b - a);
    assert |b| == |a| + |b - a|;
  }

  /** Pigeonhole: a sequence longer than the set it draws from repeats an element. */
  lemma {:induction false} Pigeonhole<T>(s: seq<T>, pool: set<T>) returns (i: nat, j: nat)
    requires forall x :: x in s ==> x in pool
    requires |s| > |pool|
    ensures i < j < |s| && s[i] == s[j]
  {
    if Distinct(s) {
      DistinctCardinality(s);
      SubsetCardinality(Elems(s), pool);
      assert false;
    }
    i, j :| 0 <= i < j < |s| && s[i] == s[j];
  }
}
