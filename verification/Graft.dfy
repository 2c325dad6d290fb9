/** Grafting generated function bodies into a skeleton module, on lines and abstract spans. */
module Graft {
  import opened Options
  import opened WhiteSpace

  // ----- edits -----

  /** Replace `del` lines from position `at` by `ins`; `rank` orders insertions at one position. */
  datatype Edit<T> = Edit(at: nat, del: nat, rank: int, ins: seq<T>)

  predicate Before<T>(a: Edit<T>, b: Edit<T>) {
    a.at < b.at || (a.at == b.at && a.rank <= b.rank)
  }

  /** Ascending and not overlapping, and inside a file of `n` lines. */
  ghost predicate Chain<T>(edits: seq<Edit<T>>, n: nat) {
    (forall i, j :: 0 <= i < j < |edits| ==> edits[i].at + edits[i].del <= edits[j].at) &&
    (forall i :: 0 <= i < |edits| ==> edits[i].at + edits[i].del <= n)
  }

  function Splice<T>(lines: seq<T>, e: Edit<T>): seq<T>
    requires e.at + e.del <= |lines|
  {
    lines[..e.at] + e.ins + lines[e.at + e.del..]
  }

  /** All edits at once: copy the file from the top, replacing each span as it is reached. */
  function Simultaneous<T>(lines: seq<T>, edits: seq<Edit<T>>): seq<T>
    requires Chain(edits, |lines|)
    decreases |edits|
  {
    if edits == [] then lines
    else
      var last := edits[|edits| - 1];
      Simultaneous(lines[..last.at], edits[..|edits| - 1]) + last.ins + lines[last.at + last.del..]
  }

  /** The lines no edit replaces. */
  function Survivors<T>(lines: seq<T>, edits: seq<Edit<T>>): seq<T>
    requires Chain(edits, |lines|)
    decreases |edits|
  {
    if edits == [] then lines
    else
      var last := edits[|edits| - 1];
      Survivors(lines[..last.at], edits[..|edits| - 1]) + lines[last.at + last.del..]
  }

  lemma {:induction false} SimultaneousTail<T>(lines: seq<T>, tail: seq<T>, edits: seq<Edit<T>>)
    requires Chain(edits, |lines|)
    ensures Simultaneous(lines + tail, edits) == Simultaneous(lines, edits) + tail
    decreases |edits|
  {
    if edits != [] {
      var front, last := edits[..|edits| - 1], edits[|edits| - 1];
      LastEdit(lines, edits);
      LastEdit(lines + tail, edits);
      hide Simultaneous, Chain;
      SliceOfConcat(lines, tail, last.at);
      SliceOfConcat(lines, tail, last.at + last.del);
      var head, rest := Simultaneous(lines[..last.at], front), lines[last.at + last.del..];
      assert head + last.ins + (rest + tail) == head + last.ins + rest + tail;
    }
  }

  lemma SliceOfConcat<T>(a: seq<T>, b: seq<T>, i: nat)
    requires i <= |a|
    ensures (a + b)[..i] == a[..i] && (a + b)[i..] == a[i..] + b
  {
  }

  lemma LastEdit<T>(lines: seq<T>, edits: seq<Edit<T>>)
    requires Chain(edits, |lines|) && edits != []
    ensures var front, last := edits[..|edits| - 1], edits[|edits| - 1];
      last.at + last.del <= |lines| && Chain(front, last.at) && Chain(front, |lines|) &&
      Simultaneous(lines, edits) == Simultaneous(lines[..last.at], front) + last.ins + lines[last.at + last.del..]
  {
  }

  /** Splicing in place from the bottom up, so that earlier positions stay valid, gives the
      simultaneous result. */
  method SpliceBottomUp<T>(lines: seq<T>, edits: seq<Edit<T>>) returns (out: seq<T>)
    requires Chain(edits, |lines|)
    ensures out == Simultaneous(lines, edits)
  {
    out := lines;
    var i := |edits|;
    assert edits[..i] == edits;
    while i > 0
      invariant 0 <= i <= |edits|
      invariant Chain(edits[..i], |out|)
      invariant Simultaneous(out, edits[..i]) == Simultaneous(lines, edits)
    {
      SpliceLast(out, edits[..i]);
      assert edits[..i][..i - 1] == edits[..i - 1];
      i := i - 1;
      out := Splice(out, edits[i]);
    }
    assert edits[..i] == [];
  }

  /** Splicing the last edit first leaves the others to be done on the shorter problem. */
  lemma SpliceLast<T>(lines: seq<T>, edits: seq<Edit<T>>)
    requires Chain(edits, |lines|) && edits != []
    ensures var front, last := edits[..|edits| - 1], edits[|edits| - 1];
      Chain(front, |Splice(lines, last)|) && Simultaneous(Splice(lines, last), front) == Simultaneous(lines, edits)
  {
    var front, last := edits[..|edits| - 1], edits[|edits| - 1];
    var head, rest := lines[..last.at], last.ins + lines[last.at + last.del..];
    assert head + rest == Splice(lines, last);
    assert Simultaneous(lines, edits) == Simultaneous(head, front) + last.ins + lines[last.at + last.del..];
    assert Simultaneous(lines, edits) == Simultaneous(head, front) + rest;
    hide Simultaneous;
    SimultaneousTail(head, rest, front);
  }

  // ----- what survives -----

  ghost predicate Subsequence<T>(a: seq<T>, b: seq<T>) {
    if a == [] then true
    else b != [] && ((a[0] == b[0] && Subsequence(a[1..], b[1..])) || Subsequence(a, b[1..]))
  }

  lemma {:induction false} SubsequenceRefl<T>(a: seq<T>)
    ensures Subsequence(a, a)
  {
    if a != [] {
      SubsequenceRefl(a[1..]);
    }
  }

  lemma {:induction false} SubsequenceSkip<T>(a: seq<T>, skipped: seq<T>, b: seq<T>)
    requires Subsequence(a, b)
    ensures Subsequence(a, skipped + b)
    decreases |skipped|
  {
    if skipped == [] {
      assert skipped + b == b;
    } else {
      SubsequenceSkip(a, skipped[1..], b);
      assert (skipped + b)[1..] == skipped[1..] + b;
    }
  }

  lemma {:induction false} SubsequenceConcat<T>(a: seq<T>, b: seq<T>, c: seq<T>, d: seq<T>)
    requires Subsequence(a, b) && Subsequence(c, d)
    ensures Subsequence(a + c, b + d)
    decreases |b|
  {
    if a == [] {
      assert a + c == c;
      SubsequenceSkip(c, b, d);
    } else {
      assert (b + d)[1..] == b[1..] + d && (a + c)[1..] == a[1..] + c;
      if a[0] == b[0] && Subsequence(a[1..], b[1..]) {
        SubsequenceConcat(a[1..], b[1..], c, d);
      } else {
        SubsequenceConcat(a, b[1..], c, d);
      }
    }
  }

  lemma {:induction false} SubsequenceTrans<T>(a: seq<T>, b: seq<T>, c: seq<T>)
    requires Subsequence(a, b) && Subsequence(b, c)
    ensures Subsequence(a, c)
    decreases |c|
  {
    if a != [] {
      if b[0] == c[0] && Subsequence(b[1..], c[1..]) {
        if a[0] == b[0] && Subsequence(a[1..], b[1..]) {
          SubsequenceTrans(a[1..], b[1..], c[1..]);
        } else {
          SubsequenceTrans(a, b[1..], c[1..]);
        }
      } else {
        SubsequenceTrans(a, b, c[1..]);
      }
    }
  }

  /** Lines outside every edit stay, in order. */
  lemma {:induction false} SurvivorsStay<T>(lines: seq<T>, edits: seq<Edit<T>>)
    requires Chain(edits, |lines|)
    ensures Subsequence(Survivors(lines, edits), Simultaneous(lines, edits))
    decreases |edits|
  {
    hide Subsequence;
    if edits == [] {
      SubsequenceRefl(lines);
    } else {
      var last := edits[|edits| - 1];
      var front, tail := edits[..|edits| - 1], lines[last.at + last.del..];
      var kept, head := Survivors(lines[..last.at], front), Simultaneous(lines[..last.at], front);
      assert Survivors(lines, edits) == kept + tail;
      assert head + (last.ins + tail) == Simultaneous(lines, edits);
      hide Survivors, Simultaneous;
      SurvivorsStay(lines[..last.at], front);
      SubsequenceRefl(tail);
      SubsequenceSkip(tail, last.ins, tail);
      SubsequenceConcat(kept, head, tail, last.ins + tail);
    }
  }

  ghost predicate PureInsertions<T>(edits: seq<Edit<T>>) {
    forall e :: e in edits ==> e.del == 0
  }

  lemma {:induction false} InsertionsKeepAll<T>(lines: seq<T>, edits: seq<Edit<T>>)
    requires Chain(edits, |lines|) && PureInsertions(edits)
    ensures Survivors(lines, edits) == lines
    decreases |edits|
  {
    if edits != [] {
      var front, last := edits[..|edits| - 1], edits[|edits| - 1];
      LastInsertion(lines, edits);
      assert Survivors(lines, edits) == Survivors(lines[..last.at], front) + lines[last.at..];
      hide Chain, PureInsertions, Survivors, Simultaneous;
      InsertionsKeepAll(lines[..last.at], front);
      assert lines[..last.at] + lines[last.at..] == lines;
    }
  }

  ghost predicate Contiguous<T>(block: seq<T>, lines: seq<T>) {
    exists i :: 0 <= i <= |lines| && OccursAt(block, lines, i)
  }

  predicate OccursAt<T(==)>(block: seq<T>, lines: seq<T>, i: nat) {
    i + |block| <= |lines| && lines[i..i + |block|] == block
  }

  lemma ContiguousInside<T>(before: seq<T>, block: seq<T>, after: seq<T>)
    ensures Contiguous(block, before + block + after)
  {
    assert OccursAt(block, before + block + after, |before|);
  }

  lemma ContiguousTail<T>(block: seq<T>, lines: seq<T>, tail: seq<T>)
    requires Contiguous(block, lines)
    ensures Contiguous(block, lines + tail)
  {
    var i :| 0 <= i <= |lines| && OccursAt(block, lines, i);
    assert (lines + tail)[i..i + |block|] == lines[i..i + |block|];
    assert OccursAt(block, lines + tail, i);
  }

  /** Every inserted block stands unbroken in the result. */
  lemma {:induction false} BlocksAreContiguous<T>(lines: seq<T>, edits: seq<Edit<T>>, e: Edit<T>)
    requires Chain(edits, |lines|) && e in edits
    ensures Contiguous(e.ins, Simultaneous(lines, edits))
    decreases |edits|
  {
    var last := edits[|edits| - 1];
    var front, tail := edits[..|edits| - 1], lines[last.at + last.del..];
    var head := Simultaneous(lines[..last.at], front);
    if e == last {
      ContiguousInside(head, last.ins, tail);
    } else {
      assert edits == front + [last];
      BlocksAreContiguous(lines[..last.at], front, e);
      ContiguousTail(e.ins, head, last.ins + tail);
      assert head + (last.ins + tail) == head + last.ins + tail;
    }
  }

  /** Edits at positions `at` do not cut into the block that stands at line `i`. */
  ghost predicate SparesBlock<T>(edits: seq<Edit<T>>, block: seq<T>, i: nat) {
    forall e :: e in edits ==> e.at <= i || i + |block| <= e.at
  }

  lemma {:induction false} InsertionsSpareBlock<T>(lines: seq<T>, edits: seq<Edit<T>>, block: seq<T>, i: nat)
    requires Chain(edits, |lines|) && PureInsertions(edits) && OccursAt(block, lines, i) && SparesBlock(edits, block, i)
    ensures Contiguous(block, Simultaneous(lines, edits))
    decreases |edits|
  {
    hide PureInsertions, SparesBlock, OccursAt;
    if edits == [] {
      SplitAroundBlock(lines, block, i, 0);
      assert lines[0..] == lines;
    } else {
      hide Simultaneous, Chain;
      var front, last := edits[..|edits| - 1], edits[|edits| - 1];
      OneFewer(edits, block, i);
      LastInsertion(lines, edits);
      var head, tail := Simultaneous(lines[..last.at], front), lines[last.at..];
      SplitAroundBlock(lines, block, i, last.at);
      if last.at <= i {
        ContiguousHead(block, head + last.ins, tail);
      } else {
        InsertionsSpareBlock(lines[..last.at], front, block, i);
        ContiguousTail(block, head, last.ins + tail);
        assert head + (last.ins + tail) == head + last.ins + tail;
      }
    }
  }

  lemma OneFewer<T>(edits: seq<Edit<T>>, block: seq<T>, i: nat)
    requires edits != [] && PureInsertions(edits) && SparesBlock(edits, block, i)
    ensures var front, last := edits[..|edits| - 1], edits[|edits| - 1];
      PureInsertions(front) && SparesBlock(front, block, i) && last.del == 0 && (last.at <= i || i + |block| <= last.at)
  {
    assert edits[|edits| - 1] in edits;
    assert forall e :: e in edits[..|edits| - 1] ==> e in edits;
  }

  /** A cut outside a block leaves it whole on one side. */
  lemma SplitAroundBlock<T>(lines: seq<T>, block: seq<T>, i: nat, at: nat)
    requires OccursAt(block, lines, i) && at <= |lines|
    ensures at <= i ==> Contiguous(block, lines[at..])
    ensures i + |block| <= at ==> OccursAt(block, lines[..at], i) && Contiguous(block, lines[..at])
  {
    hide Contiguous;
    if at <= i {
      OccursRight(lines, block, i, at);
    }
    if i + |block| <= at {
      assert lines[..at][i..i + |block|] == lines[i..i + |block|];
      OccursIsContiguous(lines[..at], block, i);
    }
  }

  lemma OccursRight<T>(lines: seq<T>, block: seq<T>, i: nat, at: nat)
    requires OccursAt(block, lines, i) && at <= i
    ensures Contiguous(block, lines[at..])
  {
    assert lines[at..][i - at..i - at + |block|] == lines[i..i + |block|];
    OccursIsContiguous(lines[at..], block, i - at);
  }

  lemma OccursIsContiguous<T>(lines: seq<T>, block: seq<T>, i: nat)
    requires OccursAt(block, lines, i)
    ensures Contiguous(block, lines)
  {
  }

  lemma ContiguousHead<T>(block: seq<T>, head: seq<T>, lines: seq<T>)
    requires Contiguous(block, lines)
    ensures Contiguous(block, head + lines)
  {
    var i :| 0 <= i <= |lines| && OccursAt(block, lines, i);
    assert (head + lines)[|head| + i..|head| + i + |block|] == lines[i..i + |block|];
    assert OccursAt(block, head + lines, |head| + i);
  }

  // ----- sorting -----

  function InsertEdit<T>(edits: seq<Edit<T>>, e: Edit<T>): seq<Edit<T>> {
    if edits == [] || Before(edits[|edits| - 1], e) then edits + [e]
    else InsertEdit(edits[..|edits| - 1], e) + [edits[|edits| - 1]]
  }

  /** Ascending by position, then rank. */
  function SortEdits<T>(edits: seq<Edit<T>>): seq<Edit<T>> {
    if edits == [] then [] else InsertEdit(SortEdits(edits[..|edits| - 1]), edits[|edits| - 1])
  }

  ghost predicate Sorted<T>(edits: seq<Edit<T>>) {
    forall i, j :: 0 <= i < j < |edits| ==> Before(edits[i], edits[j])
  }

  lemma {:induction false} InsertEditSorted<T>(edits: seq<Edit<T>>, e: Edit<T>)
    requires Sorted(edits)
    ensures Sorted(InsertEdit(edits, e)) && multiset(InsertEdit(edits, e)) == multiset(edits) + multiset{e}
    decreases |edits|
  {
    if edits != [] && !Before(edits[|edits| - 1], e) {
      var front, last := edits[..|edits| - 1], edits[|edits| - 1];
      InsertEditSorted(front, e);
      assert edits == front + [last];
      var inserted := InsertEdit(front, e);
      hide InsertEdit;
      forall d | d in inserted ensures Before(d, last) {
        assert d in multiset(inserted);
        assert d in multiset(front) || d == e;
      }
    }
  }

  lemma {:induction false} SortEditsSorts<T>(edits: seq<Edit<T>>)
    ensures Sorted(SortEdits(edits)) && multiset(SortEdits(edits)) == multiset(edits)
    decreases |edits|
  {
    if edits != [] {
      var front, last := edits[..|edits| - 1], edits[|edits| - 1];
      SortEditsSorts(front);
      InsertEditSorted(SortEdits(front), last);
      assert edits == front + [last];
    }
  }

  predicate Apart<T>(a: Edit<T>, b: Edit<T>) {
    a.at + a.del <= b.at || b.at + b.del <= a.at
  }

  ghost predicate AllApart<T>(edits: seq<Edit<T>>, d: Edit<T>) {
    forall i :: 0 <= i < |edits| ==> Apart(edits[i], d)
  }

  /** Spans that replace something and do not overlap. */
  ghost predicate Separate<T>(edits: seq<Edit<T>>) {
    forall i, j :: 0 <= i < j < |edits| ==> Apart(edits[i], edits[j])
  }

  lemma {:induction false} InsertEditSeparate<T(!new)>(edits: seq<Edit<T>>, e: Edit<T>)
    requires Separate(edits) && AllApart(edits, e)
    ensures Separate(InsertEdit(edits, e))
    ensures forall d :: AllApart(edits, d) && Apart(e, d) ==> AllApart(InsertEdit(edits, e), d)
    decreases |edits|
  {
    if edits != [] && !Before(edits[|edits| - 1], e) {
      var front, last := edits[..|edits| - 1], edits[|edits| - 1];
      InsertEditSeparate(front, e);
      var inserted := InsertEdit(front, e);
      assert AllApart(front, last);
      assert Apart(e, last);
      assert AllApart(inserted, last);
      forall d | AllApart(edits, d) && Apart(e, d) ensures AllApart(InsertEdit(edits, e), d) {
        assert Apart(last, d) && AllApart(front, d);
      }
    }
  }

  lemma {:induction false} SortEditsSeparate<T(!new)>(edits: seq<Edit<T>>)
    requires Separate(edits)
    ensures Separate(SortEdits(edits))
    ensures forall d :: AllApart(edits, d) ==> AllApart(SortEdits(edits), d)
    decreases |edits|
  {
    if edits != [] {
      var front, last := edits[..|edits| - 1], edits[|edits| - 1];
      SortEditsSeparate(front);
      assert AllApart(front, last);
      InsertEditSeparate(SortEdits(front), last);
    }
  }

  lemma SortedSpansChain<T>(edits: seq<Edit<T>>, n: nat)
    requires Sorted(edits) && Separate(edits)
    requires forall i :: 0 <= i < |edits| ==> edits[i].del > 0 && edits[i].at + edits[i].del <= n
    ensures Chain(edits, n)
  {
    forall i, j | 0 <= i < j < |edits| ensures edits[i].at + edits[i].del <= edits[j].at {
      assert Before(edits[i], edits[j]) && Apart(edits[i], edits[j]);
    }
  }

  lemma SortedInsertionsChain<T>(edits: seq<Edit<T>>, n: nat)
    requires Sorted(edits) && forall i :: 0 <= i < |edits| ==> edits[i].del == 0 && edits[i].at <= n
    ensures Chain(edits, n)
  {
    forall i, j | 0 <= i < j < |edits| ensures edits[i].at <= edits[j].at {
      assert Before(edits[i], edits[j]);
    }
  }

  lemma {:induction false} SortEditsMembers<T>(edits: seq<Edit<T>>)
    ensures forall e :: e in SortEdits(edits) <==> e in edits
  {
    SortEditsSorts(edits);
    forall e ensures e in SortEdits(edits) <==> e in edits {
      assert e in multiset(SortEdits(edits)) <==> e in multiset(edits);
    }
  }

  // ----- indentation -----

  /** The number of leading white-space characters. */
  function Lead(line: string): (n: nat)
    ensures n <= |line|
  {
    if line != [] && IsSpace(line[0]) then 1 + Lead(line[1..]) else 0
  }

  predicate Blank(line: string) {
    Lead(line) == |line|
  }

  function Spaces(n: nat): string {
    seq(n, _ => ' ')
  }

  function ReindentLine(line: string, fromCol: nat, toCol: nat): string {
    if Blank(line) then line
    else if fromCol < toCol then Spaces(toCol - fromCol) + line
    else line[if fromCol - toCol < Lead(line) then fromCol - toCol else Lead(line)..]
  }

  function ReindentAll(lines: seq<string>, fromCol: nat, toCol: nat): seq<string> {
    if lines == [] then []
    else ReindentAll(lines[..|lines| - 1], fromCol, toCol) + [ReindentLine(lines[|lines| - 1], fromCol, toCol)]
  }

  method Reindent(lines: seq<string>, fromCol: nat, toCol: nat) returns (out: seq<string>)
    ensures out == ReindentAll(lines, fromCol, toCol)
  {
    if fromCol == toCol {
      ReindentToSame(lines, fromCol);
      return lines;
    }
    out := [];
    var i := 0;
    while i < |lines|
      invariant 0 <= i <= |lines| && out == ReindentAll(lines[..i], fromCol, toCol)
    {
      var line := lines[i];
      assert lines[..i + 1][..i] == lines[..i];
      if Blank(line) {
        out := out + [line];
      } else if fromCol < toCol {
        out := out + [Spaces(toCol - fromCol) + line];
      } else {
        var cut := if fromCol - toCol < Lead(line) then fromCol - toCol else Lead(line);
        out := out + [line[cut..]];
      }
      i := i + 1;
    }
    assert lines[..i] == lines;
  }

  lemma {:induction false} ReindentToSame(lines: seq<string>, col: nat)
    ensures ReindentAll(lines, col, col) == lines
  {
    if lines != [] {
      hide ReindentLine;
      var front, last := lines[..|lines| - 1], lines[|lines| - 1];
      ReindentToSame(front, col);
      SameColumn(last, col);
      FrontAndLast(lines);
    }
  }

  lemma FrontAndLast<T>(s: seq<T>)
    requires s != []
    ensures s == s[..|s| - 1] + [s[|s| - 1]]
  {
  }

  lemma SameColumn(line: string, col: nat)
    ensures ReindentLine(line, col, col) == line
  {
  }

  lemma {:induction false} LeadOfIndented(n: nat, line: string)
    ensures Lead(Spaces(n) + line) == n + Lead(line)
    decreases n
  {
    if n == 0 {
      assert Spaces(0) + line == line;
    } else {
      assert (Spaces(n) + line)[1..] == Spaces(n - 1) + line;
      LeadOfIndented(n - 1, line);
    }
  }

  lemma {:induction false} ReindentAt(lines: seq<string>, fromCol: nat, toCol: nat, i: nat)
    requires i < |lines|
    ensures |ReindentAll(lines, fromCol, toCol)| == |lines|
    ensures ReindentAll(lines, fromCol, toCol)[i] == ReindentLine(lines[i], fromCol, toCol)
    decreases |lines|
  {
    var front := lines[..|lines| - 1];
    if i < |front| {
      ReindentAt(front, fromCol, toCol, i);
    } else if front != [] {
      ReindentAt(front, fromCol, toCol, 0);
    }
  }

  /** Indenting a block further and moving it back restores it line by line. */
  lemma ReindentRoundTrip(lines: seq<string>, fromCol: nat, toCol: nat, i: nat)
    requires fromCol <= toCol && i < |lines|
    ensures var there := ReindentAll(lines, fromCol, toCol);
      |ReindentAll(there, toCol, fromCol)| == |lines| && ReindentAll(there, toCol, fromCol)[i] == lines[i]
  {
    var there := ReindentAll(lines, fromCol, toCol);
    ReindentAt(lines, fromCol, toCol, i);
    ReindentAt(there, toCol, fromCol, i);
    if !Blank(lines[i]) && fromCol < toCol {
      LeadOfIndented(toCol - fromCol, lines[i]);
      assert (Spaces(toCol - fromCol) + lines[i])[toCol - fromCol..] == lines[i];
    }
  }

  // ----- the whole module -----

  /** A stub function of the skeleton: its qualified name, its lines counted from one, its column. */
  datatype Stub = Stub(name: string, start: nat, end: nat, col: nat)

  /** The lines of a generated function and the column of its definition. */
  datatype Block = Block(lines: seq<string>, col: nat)

  datatype Function = Function(name: string, block: Block)

  /** What the generated module offers: its functions in order, the imports the skeleton lacks; and the names
      the skeleton refers to without defining them. */
  datatype Donor = Donor(functions: seq<Function>, dangling: set<string>, imports: seq<string>)

  /** Where a class ends, and how far its members are indented. */
  datatype ClassPlace = ClassPlace(end: nat, indent: nat)

  /** What parsing a list of lines answers; `firstUse` is the line, counted from one, of the first top-level
      statement that loads a name, decorators included. */
  datatype Parser = Parser(
    parses: seq<string> -> bool,
    functions: seq<string> -> set<string>,
    classes: seq<string> -> map<string, ClassPlace>,
    firstUse: (seq<string>, string) -> Option<nat>,
    importsAt: seq<string> -> nat)

  datatype Stats = Stats(stubs: nat, grafted: nat, missing: nat, inserted: nat, importsAdded: nat, failed: bool)

  /** The merged lines, or the skeleton source itself, or an exception that leaves the function. */
  datatype Result = Merged(lines: seq<string>, stats: Stats) | Skeleton(stats: Stats) | Raised

  /** Line numbers a parser reports lie inside the parsed text. */
  ghost predicate ReportsPositions(parser: Parser) {
    forall lines :: parser.parses(lines) ==>
      parser.importsAt(lines) <= |lines| &&
      (forall name :: name in parser.classes(lines) ==> parser.classes(lines)[name].end <= |lines|) &&
      forall name :: parser.firstUse(lines, name).Some? ==> 1 <= parser.firstUse(lines, name).value <= |lines|
  }

  /** Distinct stubs occupy separate, non-empty spans of the skeleton: a stub body holds no function. */
  ghost predicate StubsOf(stubs: seq<Stub>, n: nat) {
    NonEmptySpans(stubs) && SpansWithin(stubs, n)
  }

  predicate NonEmptySpans(stubs: seq<Stub>) {
    forall i :: 0 <= i < |stubs| ==> 1 <= stubs[i].start <= stubs[i].end
  }

  ghost predicate SpansWithin(stubs: seq<Stub>, n: nat) {
    (forall i :: 0 <= i < |stubs| ==> stubs[i].end <= n) &&
    forall i, j :: 0 <= i < j < |stubs| ==> stubs[i].end < stubs[j].start || stubs[j].end < stubs[i].start
  }

  function StubEdit(stub: Stub, block: Block): Edit<string>
    requires 1 <= stub.start <= stub.end
  {
    Edit(stub.start - 1, stub.end - stub.start + 1, 0, ReindentAll(block.lines, block.col, stub.col))
  }

  function BlockOf(functions: seq<Function>, name: string): Option<Block> {
    if functions == [] then None
    else if functions[|functions| - 1].name == name then Some(functions[|functions| - 1].block)
    else BlockOf(functions[..|functions| - 1], name)
  }

  function StubEdits(stubs: seq<Stub>, functions: seq<Function>): seq<Edit<string>>
    requires NonEmptySpans(stubs)
  {
    if stubs == [] then []
    else
      var last := stubs[|stubs| - 1];
      StubEdits(stubs[..|stubs| - 1], functions) +
        if BlockOf(functions, last.name).Some? then [StubEdit(last, BlockOf(functions, last.name).value)] else []
  }

  predicate Covers(e: Edit<string>, stub: Stub) {
    e.at + 1 == stub.start && e.at + e.del == stub.end
  }

  ghost predicate CoverStubs(edits: seq<Edit<string>>, stubs: seq<Stub>) {
    forall i :: 0 <= i < |edits| ==> Covered(edits[i], stubs)
  }

  ghost predicate Covered(e: Edit<string>, stubs: seq<Stub>) {
    exists j :: 0 <= j < |stubs| && Covers(e, stubs[j])
  }

  lemma {:induction false} StubEditsAreSpans(stubs: seq<Stub>, functions: seq<Function>, n: nat)
    requires StubsOf(stubs, n)
    ensures var edits := StubEdits(stubs, functions);
      Separate(edits) && |edits| <= |stubs| && CoverStubs(edits, stubs) &&
      forall i :: 0 <= i < |edits| ==> edits[i].del > 0 && edits[i].at + edits[i].del <= n
    decreases |stubs|
  {
    hide BlockOf, ReindentAll;
    if stubs != [] {
      var front, last := stubs[..|stubs| - 1], stubs[|stubs| - 1];
      StubEditsAreSpans(front, functions, n);
      var edits := StubEdits(front, functions);
      forall e | Covers(e, last) ensures AllApart(edits, e) {
        CoveredApart(edits, stubs, e, n);
      }
      hide Separate, CoverStubs, AllApart;
      CoverMore(edits, stubs);
      if BlockOf(functions, last.name).Some? {
        var e := StubEdit(last, BlockOf(functions, last.name).value);
        assert Covers(e, last);
        SeparateSnoc(edits, e);
        CoverSnoc(edits, stubs, e);
      }
    }
  }

  lemma CoveredApart(edits: seq<Edit<string>>, stubs: seq<Stub>, e: Edit<string>, n: nat)
    requires StubsOf(stubs, n) && stubs != [] && Covers(e, stubs[|stubs| - 1])
    requires CoverStubs(edits, stubs[..|stubs| - 1])
    ensures AllApart(edits, e)
  {
    forall i | 0 <= i < |edits| ensures Apart(edits[i], e) {
      assert Covered(edits[i], stubs[..|stubs| - 1]);
      var j :| 0 <= j < |stubs| - 1 && Covers(edits[i], stubs[j]);
    }
  }

  lemma CoverMore(edits: seq<Edit<string>>, stubs: seq<Stub>)
    requires stubs != [] && CoverStubs(edits, stubs[..|stubs| - 1])
    ensures CoverStubs(edits, stubs)
  {
    forall i | 0 <= i < |edits| ensures Covered(edits[i], stubs) {
      assert Covered(edits[i], stubs[..|stubs| - 1]);
      var j :| 0 <= j < |stubs| - 1 && Covers(edits[i], stubs[..|stubs| - 1][j]);
      assert Covers(edits[i], stubs[j]);
    }
  }

  lemma CoverSnoc(edits: seq<Edit<string>>, stubs: seq<Stub>, e: Edit<string>)
    requires stubs != [] && CoverStubs(edits, stubs) && Covers(e, stubs[|stubs| - 1])
    ensures CoverStubs(edits + [e], stubs)
  {
    assert Covered(e, stubs);
  }

  lemma SeparateSnoc(edits: seq<Edit<string>>, e: Edit<string>)
    requires Separate(edits) && AllApart(edits, e)
    ensures Separate(edits + [e])
  {
  }

  lemma StubEditsInside(edits: seq<Edit<string>>, n: nat)
    requires forall i :: 0 <= i < |edits| ==> edits[i].del > 0 && edits[i].at + edits[i].del <= n
    ensures forall i :: 0 <= i < |SortEdits(edits)| ==>
      SortEdits(edits)[i].del > 0 && SortEdits(edits)[i].at + SortEdits(edits)[i].del <= n
  {
    SortEditsMembers(edits);
    forall e | e in SortEdits(edits) ensures e.del > 0 && e.at + e.del <= n {
    }
  }

  lemma StubChain(stubs: seq<Stub>, functions: seq<Function>, n: nat)
    requires StubsOf(stubs, n)
    ensures Chain(SortEdits(StubEdits(stubs, functions)), n)
  {
    hide SortEdits, StubEdits, Sorted, Separate, NonEmptySpans, SpansWithin, Chain;
    var edits := StubEdits(stubs, functions);
    StubEditsAreSpans(stubs, functions, n);
    SortEditsSorts(edits);
    SortEditsSeparate(edits);
    StubEditsInside(edits, n);
    SortedSpansChain(SortEdits(edits), n);
  }

  // ----- what is inserted, and where -----

  function LastDot(name: string): (i: int)
    ensures -1 <= i < |name|
    ensures i >= 0 ==> name[i] == '.'
    ensures forall j :: i < j < |name| ==> name[j] != '.'
  {
    if name == [] then -1
    else if name[|name| - 1] == '.' then |name| - 1
    else LastDot(name[..|name| - 1])
  }

  /** The qualified name of what contains a function, empty at the top level. */
  function Parent(name: string): string {
    if LastDot(name) < 0 then "" else name[..LastDot(name)]
  }

  function BareName(name: string): string {
    name[LastDot(name) + 1..]
  }

  /** A function the module lacks goes to the end of its class, or, at the top level and only if the skeleton
      refers to it, before its first use. */
  function Insertion(donor: Donor, parser: Parser, lines: seq<string>, f: Function): Option<Edit<string>> {
    var parent, bare := Parent(f.name), BareName(f.name);
    if f.name in parser.functions(lines) then None
    else if parent != "" && parent in parser.classes(lines) then
      var place := parser.classes(lines)[parent];
      Some(Edit(place.end, 0, 0, [""] + ReindentAll(f.block.lines, f.block.col, place.indent)))
    else if parent == "" && bare in donor.dangling then
      var use := parser.firstUse(lines, bare);
      Some(Edit(if use.Some? && use.value > 0 then use.value - 1 else |lines|, 0, 0,
                [""] + ReindentAll(f.block.lines, f.block.col, 0) + [""]))
    else None
  }

  function Planned(donor: Donor, parser: Parser, lines: seq<string>, functions: seq<Function>): seq<Edit<string>> {
    if functions == [] then []
    else
      var last := Insertion(donor, parser, lines, functions[|functions| - 1]);
      Planned(donor, parser, lines, functions[..|functions| - 1]) + if last.Some? then [last.value] else []
  }

  /** Insertions at one position are ordered by their lines. */
  function Ranked(edits: seq<Edit<string>>): seq<Edit<string>> {
    seq(|edits|, i requires 0 <= i < |edits| => edits[i].(rank := Rank(edits, edits[i].ins)))
  }

  function Insertions(donor: Donor, parser: Parser, lines: seq<string>): seq<Edit<string>> {
    Ranked(Planned(donor, parser, lines, donor.functions))
  }

  predicate StringLess(a: string, b: string) {
    if b == "" then false
    else if a == "" then true
    else a[0] < b[0] || (a[0] == b[0] && StringLess(a[1..], b[1..]))
  }

  predicate LinesLess(a: seq<string>, b: seq<string>) {
    if b == [] then false
    else if a == [] then true
    else StringLess(a[0], b[0]) || (a[0] == b[0] && LinesLess(a[1..], b[1..]))
  }

  /** How many of the edits have lesser lines. */
  function Rank(edits: seq<Edit<string>>, ins: seq<string>): nat {
    if edits == [] then 0
    else Rank(edits[..|edits| - 1], ins) + if LinesLess(edits[|edits| - 1].ins, ins) then 1 else 0
  }

  lemma {:induction false} StringLessIsStrict(a: string, b: string, c: string)
    ensures !StringLess(a, a) && (StringLess(a, b) && StringLess(b, c) ==> StringLess(a, c))
  {
    if a != [] {
      StringLessIsStrict(a[1..], if b == [] then [] else b[1..], if c == [] then [] else c[1..]);
    }
  }

  lemma {:induction false} LinesLessIsStrict(a: seq<string>, b: seq<string>, c: seq<string>)
    ensures !LinesLess(a, a) && (LinesLess(a, b) && LinesLess(b, c) ==> LinesLess(a, c))
  {
    if a != [] {
      StringLessIsStrict(a[0], if b == [] then [] else b[0], if c == [] then [] else c[0]);
      LinesLessIsStrict(a[1..], if b == [] then [] else b[1..], if c == [] then [] else c[1..]);
    }
  }

  /** Lesser lines have a lower rank. */
  lemma {:induction false} RankOrders(edits: seq<Edit<string>>, a: seq<string>, b: seq<string>)
    requires LinesLess(a, b)
    ensures Rank(edits, a) <= Rank(edits, b)
    ensures (exists e :: e in edits && e.ins == a) ==> Rank(edits, a) < Rank(edits, b)
  {
    if edits != [] {
      var front, last := edits[..|edits| - 1], edits[|edits| - 1];
      RankOrders(front, a, b);
      LinesLessIsStrict(last.ins, a, b);
      LinesLessIsStrict(a, a, b);
      assert edits == front + [last];
    }
  }

  /** The insertion pass visits positions in order, and at one position the lesser lines first. */
  lemma InsertionOrder(donor: Donor, parser: Parser, lines: seq<string>, i: nat, j: nat)
    requires i < j < |SortEdits(Insertions(donor, parser, lines))|
    ensures var sorted := SortEdits(Insertions(donor, parser, lines));
      sorted[i].at < sorted[j].at || (sorted[i].at == sorted[j].at && !LinesLess(sorted[j].ins, sorted[i].ins))
  {
    hide Planned, LinesLess, SortEdits;
    var planned := Planned(donor, parser, lines, donor.functions);
    var edits := Insertions(donor, parser, lines);
    var sorted := SortEdits(edits);
    SortEditsSorts(edits);
    SortEditsMembers(edits);
    assert Before(sorted[i], sorted[j]) && sorted[i] in edits && sorted[j] in edits;
    if LinesLess(sorted[j].ins, sorted[i].ins) {
      var a :| 0 <= a < |edits| && edits[a] == sorted[j];
      assert planned[a].ins == sorted[j].ins && planned[a] in planned;
      RankOrders(planned, sorted[j].ins, sorted[i].ins);
    }
  }

  /** Exactly the functions the module lacks are inserted: methods of its classes, and top-level functions the
      skeleton refers to. */
  lemma {:induction false} InsertedIff(donor: Donor, parser: Parser, lines: seq<string>, functions: seq<Function>)
    ensures |Planned(donor, parser, lines, functions)| <= |functions|
    ensures forall e :: e in Planned(donor, parser, lines, functions) <==>
      exists f :: f in functions && Insertion(donor, parser, lines, f) == Some(e)
  {
    hide Insertion;
    if functions != [] {
      var front, last := functions[..|functions| - 1], functions[|functions| - 1];
      InsertedIff(donor, parser, lines, front);
      assert functions == front + [last];
    }
  }

  lemma InsertionsFit(donor: Donor, parser: Parser, lines: seq<string>)
    requires ReportsPositions(parser) && parser.parses(lines)
    ensures forall e :: e in Insertions(donor, parser, lines) ==> e.del == 0 && e.at <= |lines|
  {
    var planned := Planned(donor, parser, lines, donor.functions);
    InsertedIff(donor, parser, lines, donor.functions);
    hide Planned, Rank, ReindentAll;
    forall e | e in Insertions(donor, parser, lines) ensures e.del == 0 && e.at <= |lines| {
      var i :| 0 <= i < |planned| && e == planned[i].(rank := Rank(planned, planned[i].ins));
      assert planned[i] in planned;
    }
  }

  lemma InsertionChain(donor: Donor, parser: Parser, lines: seq<string>)
    requires ReportsPositions(parser) && parser.parses(lines)
    ensures Chain(SortEdits(Insertions(donor, parser, lines)), |lines|)
    ensures PureInsertions(SortEdits(Insertions(donor, parser, lines)))
  {
    hide Insertions, SortEdits, ReportsPositions;
    var edits := Insertions(donor, parser, lines);
    InsertionsFit(donor, parser, lines);
    SortEditsSorts(edits);
    SortEditsMembers(edits);
    var sorted := SortEdits(edits);
    forall i | 0 <= i < |sorted| ensures sorted[i].del == 0 && sorted[i].at <= |lines| {
      assert sorted[i] in sorted;
    }
    SortedInsertionsChain(sorted, |lines|);
  }

  // The three passes, as functions of the skeleton.

  function Filled(skeleton: seq<string>, stubs: seq<Stub>, functions: seq<Function>): seq<string>
    requires StubsOf(stubs, |skeleton|)
  {
    StubChain(stubs, functions, |skeleton|);
    Simultaneous(skeleton, SortEdits(StubEdits(stubs, functions)))
  }

  function Extended(donor: Donor, parser: Parser, lines: seq<string>): seq<string>
    requires ReportsPositions(parser) && parser.parses(lines)
  {
    InsertionChain(donor, parser, lines);
    Simultaneous(lines, SortEdits(Insertions(donor, parser, lines)))
  }

  function WithImports(parser: Parser, lines: seq<string>, imports: seq<string>): seq<string>
    requires ReportsPositions(parser) && parser.parses(lines)
  {
    lines[..parser.importsAt(lines)] + imports + lines[parser.importsAt(lines)..]
  }

  /** Imports are added only when something was grafted or inserted. */
  predicate NeedsImports(grafted: nat, inserted: nat, imports: seq<string>) {
    imports != [] && (grafted > 0 || inserted > 0)
  }

  /** The insertion and import passes on the lines with `grafted` of `stubs` stubs filled. */
  function Completed(filled: seq<string>, stubs: nat, grafted: nat, donor: Donor, parser: Parser): Result
    requires ReportsPositions(parser) && grafted <= stubs
  {
    if !parser.parses(filled) then Raised
    else
      var inserted := |Insertions(donor, parser, filled)|;
      var extended := Extended(donor, parser, filled);
      var adds := NeedsImports(grafted, inserted, donor.imports);
      if adds && !parser.parses(extended) then Raised
      else
        var merged := if adds then WithImports(parser, extended, donor.imports) else extended;
        if parser.parses(merged)
        then
          var added := if adds then |donor.imports| else 0;
          Merged(merged, Stats(stubs, grafted, stubs - grafted, inserted, added, false))
        else Skeleton(Stats(stubs, 0, stubs - grafted, 0, 0, true))
  }

  function Grafted(skeleton: seq<string>, generatedParses: bool, stubs: seq<Stub>,
                   donor: Donor, parser: Parser): Result
    requires StubsOf(stubs, |skeleton|) && ReportsPositions(parser)
  {
    StubEditsAreSpans(stubs, donor.functions, |skeleton|);
    if !generatedParses then Skeleton(Stats(0, 0, 0, 0, 0, true))
    else
      var grafted := |StubEdits(stubs, donor.functions)|;
      Completed(Filled(skeleton, stubs, donor.functions), |stubs|, grafted, donor, parser)
  }

  /** Fill the stubs, insert what the skeleton lacks, add imports; fall back to the skeleton when
      the generated or the merged module does not parse. */
  method GraftModule(skeleton: seq<string>, generatedParses: bool, stubs: seq<Stub>,
                     donor: Donor, parser: Parser) returns (result: Result)
    requires StubsOf(stubs, |skeleton|) && ReportsPositions(parser)
    ensures result == Grafted(skeleton, generatedParses, stubs, donor, parser)
  {
    if !generatedParses {
      return Skeleton(Stats(0, 0, 0, 0, 0, true));
    }
    hide Filled, Completed, StubEdits, SpansWithin, NonEmptySpans;
    StubEditsAreSpans(stubs, donor.functions, |skeleton|);
    var grafted, lines := FillStubs(skeleton, stubs, donor.functions);
    result := Complete(lines, |stubs|, grafted, donor, parser);
  }

  method Complete(filled: seq<string>, stubs: nat, grafted: nat, donor: Donor, parser: Parser) returns (result: Result)
    requires ReportsPositions(parser) && grafted <= stubs
    ensures result == Completed(filled, stubs, grafted, donor, parser)
  {
    hide Extended, WithImports, ReportsPositions;
    var lines := filled;
    if !parser.parses(lines) {
      return Raised;
    }
    var inserted;
    inserted, lines := InsertMissing(donor, parser, lines);
    var importsAdded := 0;
    if donor.imports != [] && (grafted > 0 || inserted > 0) {
      if !parser.parses(lines) {
        return Raised;
      }
      lines := AddImports(parser, lines, donor.imports);
      importsAdded := |donor.imports|;
    }
    if !parser.parses(lines) {
      return Skeleton(Stats(stubs, 0, stubs - grafted, 0, 0, true));
    }
    result := Merged(lines, Stats(stubs, grafted, stubs - grafted, inserted, importsAdded, false));
  }

  method FillStubs(skeleton: seq<string>, stubs: seq<Stub>, functions: seq<Function>)
    returns (grafted: nat, lines: seq<string>)
    requires StubsOf(stubs, |skeleton|)
    ensures grafted == |StubEdits(stubs, functions)| && lines == Filled(skeleton, stubs, functions)
  {
    var edits: seq<Edit<string>> := [];
    var i := 0;
    while i < |stubs|
      invariant 0 <= i <= |stubs| && edits == StubEdits(stubs[..i], functions)
    {
      assert stubs[..i + 1][..i] == stubs[..i];
      var stub := stubs[i];
      var found := BlockOf(functions, stub.name);
      if found.Some? {
        var block := found.value;
        var replacement := Reindent(block.lines, block.col, stub.col);
        edits := edits + [Edit(stub.start - 1, stub.end - stub.start + 1, 0, replacement)];
      }
      i := i + 1;
    }
    assert stubs[..i] == stubs;
    StubChain(stubs, functions, |skeleton|);
    lines := SpliceBottomUp(skeleton, SortEdits(edits));
    grafted := |edits|;
  }

  lemma NothingPlanned(donor: Donor, parser: Parser, lines: seq<string>)
    ensures Planned(donor, parser, lines, []) == []
  {
  }

  lemma PlannedNext(donor: Donor, parser: Parser, lines: seq<string>, functions: seq<Function>, i: nat)
    requires i < |functions|
    ensures var e := Insertion(donor, parser, lines, functions[i]);
      Planned(donor, parser, lines, functions[..i + 1]) ==
        Planned(donor, parser, lines, functions[..i]) + if e.Some? then [e.value] else []
  {
    hide Insertion;
    assert functions[..i + 1][..i] == functions[..i];
  }

  /** The insertions for all generated functions, in their order. */
  method PlanInsertions(donor: Donor, parser: Parser, lines: seq<string>) returns (planned: seq<Edit<string>>)
    ensures planned == Planned(donor, parser, lines, donor.functions)
  {
    hide Planned, ReindentAll, LastDot, Parent, BareName;
    planned := [];
    NothingPlanned(donor, parser, lines);
    var i := 0;
    while i < |donor.functions|
      invariant 0 <= i <= |donor.functions| && planned == Planned(donor, parser, lines, donor.functions[..i])
    {
      PlannedNext(donor, parser, lines, donor.functions, i);
      var f := donor.functions[i];
      i := i + 1;
      if f.name in parser.functions(lines) {
        continue;
      }
      var parent, bare := Parent(f.name), BareName(f.name);
      if parent != "" && parent in parser.classes(lines) {
        var place := parser.classes(lines)[parent];
        var body := Reindent(f.block.lines, f.block.col, place.indent);
        planned := planned + [Edit(place.end, 0, 0, [""] + body)];
      } else if parent == "" && bare in donor.dangling {
        var use := parser.firstUse(lines, bare);
        var at := if use.Some? && use.value > 0 then use.value - 1 else |lines|;
        var body := Reindent(f.block.lines, f.block.col, 0);
        planned := planned + [Edit(at, 0, 0, [""] + body + [""])];
      }
    }
    assert donor.functions[..i] == donor.functions;
  }

  method InsertMissing(donor: Donor, parser: Parser, lines: seq<string>) returns (inserted: nat, out: seq<string>)
    requires ReportsPositions(parser) && parser.parses(lines)
    ensures inserted == |Insertions(donor, parser, lines)| && out == Extended(donor, parser, lines)
  {
    hide Planned, SortEdits, Simultaneous, ReportsPositions;
    var planned := PlanInsertions(donor, parser, lines);
    InsertionChain(donor, parser, lines);
    out := SpliceBottomUp(lines, SortEdits(Ranked(planned)));
    inserted := |planned|;
  }

  method AddImports(parser: Parser, lines: seq<string>, imports: seq<string>) returns (out: seq<string>)
    requires ReportsPositions(parser) && parser.parses(lines)
    ensures out == WithImports(parser, lines, imports)
  {
    var at := parser.importsAt(lines);
    out := lines[..at] + imports + lines[at..];
  }

  // ----- the theorems -----

  /** The skeleton lines outside every filled stub. */
  function Shipped(skeleton: seq<string>, stubs: seq<Stub>, functions: seq<Function>): seq<string>
    requires StubsOf(stubs, |skeleton|)
  {
    StubChain(stubs, functions, |skeleton|);
    Survivors(skeleton, SortEdits(StubEdits(stubs, functions)))
  }

  /** Whenever a merged module is returned, every skeleton line outside a filled stub is in it, in its
      original order, and so are the grafted bodies and the insertions, each of them unbroken before
      the imports are added. */
  lemma SkeletonLinesSurvive(skeleton: seq<string>, stubs: seq<Stub>, donor: Donor, parser: Parser)
    requires StubsOf(stubs, |skeleton|) && ReportsPositions(parser)
    ensures var result := Grafted(skeleton, true, stubs, donor, parser);
      var filled := Filled(skeleton, stubs, donor.functions);
      result.Merged? ==>
        parser.parses(filled) && Subsequence(Shipped(skeleton, stubs, donor.functions), result.lines) &&
        (forall e :: e in StubEdits(stubs, donor.functions) ==> Contiguous(e.ins, filled)) &&
        forall e :: e in Insertions(donor, parser, filled) ==> Contiguous(e.ins, Extended(donor, parser, filled))
  {
    hide Subsequence, Simultaneous, Survivors, SortEdits, StubEdits, ReindentAll, Contiguous;
    if Grafted(skeleton, true, stubs, donor, parser).Merged? {
      var edits := SortEdits(StubEdits(stubs, donor.functions));
      StubChain(stubs, donor.functions, |skeleton|);
      SurvivorsStay(skeleton, edits);
      var filled := Filled(skeleton, stubs, donor.functions);
      SortEditsMembers(StubEdits(stubs, donor.functions));
      forall e | e in StubEdits(stubs, donor.functions) ensures Contiguous(e.ins, filled) {
        BlocksAreContiguous(skeleton, edits, e);
      }
      var inserts := SortEdits(Insertions(donor, parser, filled));
      InsertionChain(donor, parser, filled);
      InsertionsKeepAll(filled, inserts);
      SurvivorsStay(filled, inserts);
      var extended := Extended(donor, parser, filled);
      SortEditsMembers(Insertions(donor, parser, filled));
      forall e | e in Insertions(donor, parser, filled) ensures Contiguous(e.ins, extended) {
        BlocksAreContiguous(filled, inserts, e);
      }
      SubsequenceTrans(Shipped(skeleton, stubs, donor.functions), filled, extended);
      if NeedsImports(|StubEdits(stubs, donor.functions)|, |Insertions(donor, parser, filled)|, donor.imports) {
        ImportsKeepLines(parser, extended, donor.imports);
        SubsequenceTrans(Shipped(skeleton, stubs, donor.functions), extended,
          WithImports(parser, extended, donor.imports));
      }
    }
  }

  lemma ImportsKeepLines(parser: Parser, lines: seq<string>, imports: seq<string>)
    requires ReportsPositions(parser) && parser.parses(lines)
    ensures Subsequence(lines, WithImports(parser, lines, imports)) &&
      Contiguous(imports, WithImports(parser, lines, imports))
  {
    var at := parser.importsAt(lines);
    assert at <= |lines|;
    hide Subsequence, Contiguous, ReportsPositions;
    assert lines == lines[..at] + lines[at..];
    PutBetween(lines[..at], imports, lines[at..]);
  }

  lemma PutBetween(above: seq<string>, block: seq<string>, below: seq<string>)
    ensures Subsequence(above + below, above + block + below) && Contiguous(block, above + block + below)
  {
    hide Subsequence, Contiguous;
    SubsequenceRefl(above);
    SubsequenceRefl(below);
    SubsequenceSkip(below, block, below);
    SubsequenceConcat(above, above, below, block + below);
    assert above + (block + below) == above + block + below;
    ContiguousInside(above, block, below);
  }

  /** The block stands somewhere in `lines` where no function is to be inserted into it. */
  ghost predicate InsertionsSpare(donor: Donor, parser: Parser, lines: seq<string>, block: seq<string>) {
    exists i :: 0 <= i <= |lines| && OccursAt(block, lines, i) &&
      SparesBlock(Insertions(donor, parser, lines), block, i)
  }

  /** The block stands somewhere in `lines` where the imports do not go. */
  ghost predicate ImportsSpare(parser: Parser, lines: seq<string>, block: seq<string>) {
    exists i :: 0 <= i <= |lines| && OccursAt(block, lines, i) &&
      (parser.importsAt(lines) <= i || i + |block| <= parser.importsAt(lines))
  }

  lemma ExtensionKeepsBlock(donor: Donor, parser: Parser, lines: seq<string>, block: seq<string>)
    requires ReportsPositions(parser) && parser.parses(lines) && InsertionsSpare(donor, parser, lines, block)
    ensures Contiguous(block, Extended(donor, parser, lines))
  {
    hide Simultaneous, SortEdits, Insertions;
    var i :| 0 <= i <= |lines| && OccursAt(block, lines, i) && SparesBlock(Insertions(donor, parser, lines), block, i);
    var inserts := SortEdits(Insertions(donor, parser, lines));
    InsertionChain(donor, parser, lines);
    SortEditsMembers(Insertions(donor, parser, lines));
    InsertionsSpareBlock(lines, inserts, block, i);
  }

  lemma ImportsKeepBlock(parser: Parser, lines: seq<string>, imports: seq<string>, block: seq<string>)
    requires ReportsPositions(parser) && parser.parses(lines) && ImportsSpare(parser, lines, block)
    ensures Contiguous(block, WithImports(parser, lines, imports))
  {
    var i :| 0 <= i <= |lines| && OccursAt(block, lines, i) &&
      (parser.importsAt(lines) <= i || i + |block| <= parser.importsAt(lines));
    var at := parser.importsAt(lines);
    hide OccursAt, SparesBlock;
    SplitAroundBlock(lines, block, i, at);
    if at <= i {
      ContiguousHead(block, lines[..at] + imports, lines[at..]);
    } else {
      ContiguousTail(block, lines[..at], imports + lines[at..]);
      assert lines[..at] + (imports + lines[at..]) == WithImports(parser, lines, imports);
    }
  }

  /** As long as nothing goes inside it where it stands, every grafted body and every inserted function stands
      unbroken in the module that is returned. */
  lemma BlocksStayWhole(skeleton: seq<string>, stubs: seq<Stub>, donor: Donor, parser: Parser, e: Edit<string>)
    requires StubsOf(stubs, |skeleton|) && ReportsPositions(parser)
    ensures var filled := Filled(skeleton, stubs, donor.functions);
      Grafted(skeleton, true, stubs, donor, parser).Merged? && parser.parses(filled) &&
      ((e in StubEdits(stubs, donor.functions) && InsertionsSpare(donor, parser, filled, e.ins)) ||
       e in Insertions(donor, parser, filled)) &&
      ImportsSpare(parser, Extended(donor, parser, filled), e.ins) ==>
        Contiguous(e.ins, Grafted(skeleton, true, stubs, donor, parser).lines)
  {
    hide Simultaneous, SortEdits, StubEdits, Contiguous, InsertionsSpare, ImportsSpare, Filled, Extended, WithImports,
      Subsequence, Insertions;
    SkeletonLinesSurvive(skeleton, stubs, donor, parser);
    if Grafted(skeleton, true, stubs, donor, parser).Merged? {
      var filled := Filled(skeleton, stubs, donor.functions);
      var extended := Extended(donor, parser, filled);
      if InsertionsSpare(donor, parser, filled, e.ins) {
        ExtensionKeepsBlock(donor, parser, filled, e.ins);
      }
      if ImportsSpare(parser, extended, e.ins) &&
         NeedsImports(|StubEdits(stubs, donor.functions)|, |Insertions(donor, parser, filled)|, donor.imports) {
        ImportsKeepBlock(parser, extended, donor.imports, e.ins);
      }
    }
  }

  // ----- a definition stands above its first use -----

  /** What an insertion puts in stands before all lines that followed its position. */
  lemma {:induction false} InsertedAbove<T>(lines: seq<T>, edits: seq<Edit<T>>, e: Edit<T>)
    returns (above: seq<T>, below: seq<T>)
    requires Chain(edits, |lines|) && PureInsertions(edits) && e in edits
    ensures e.at <= |lines| && Simultaneous(lines, edits) == above + below
    ensures Contiguous(e.ins, above) && Subsequence(lines[e.at..], below)
    decreases |edits|
  {
    hide Subsequence, Contiguous, Simultaneous, PureInsertions, Chain;
    var front, last := edits[..|edits| - 1], edits[|edits| - 1];
    LastInsertion(lines, edits);
    var head, tail := Simultaneous(lines[..last.at], front), lines[last.at..];
    if e == last {
      above, below := head + last.ins, tail;
      WholeIsContiguous(last.ins);
      ContiguousHead(last.ins, head, last.ins);
      SubsequenceRefl(tail);
    } else {
      assert edits == front + [last];
      var rest;
      above, rest := InsertedAbove(lines[..last.at], front, e);
      below := rest + (last.ins + tail);
      BelowGrows(lines, e.at, last.at, rest, last.ins);
      Regroup(above, rest, last.ins, tail);
    }
  }

  lemma LastInsertion<T>(lines: seq<T>, edits: seq<Edit<T>>)
    requires Chain(edits, |lines|) && PureInsertions(edits) && edits != []
    ensures var front, last := edits[..|edits| - 1], edits[|edits| - 1];
      last.at <= |lines| && Chain(front, last.at) && PureInsertions(front) &&
      Simultaneous(lines, edits) == Simultaneous(lines[..last.at], front) + last.ins + lines[last.at..]
  {
    var front, last := edits[..|edits| - 1], edits[|edits| - 1];
    assert last in edits && forall e :: e in front ==> e in edits;
  }

  lemma Regroup<T>(a: seq<T>, b: seq<T>, c: seq<T>, d: seq<T>)
    ensures a + b + c + d == a + (b + (c + d))
  {
  }

  lemma WholeIsContiguous<T>(block: seq<T>)
    ensures Contiguous(block, block)
  {
    assert OccursAt(block, block, 0);
  }

  lemma BelowGrows<T>(lines: seq<T>, at: nat, last: nat, rest: seq<T>, ins: seq<T>)
    requires at <= last <= |lines| && Subsequence(lines[..last][at..], rest)
    ensures Subsequence(lines[at..], rest + (ins + lines[last..]))
  {
    hide Subsequence;
    var tail := lines[last..];
    SubsequenceRefl(tail);
    SubsequenceSkip(tail, ins, tail);
    SubsequenceConcat(lines[..last][at..], rest, tail, ins + tail);
    assert lines[..last][at..] + tail == lines[at..];
  }

  lemma InsertionBeforeUse(donor: Donor, parser: Parser, lines: seq<string>, f: Function)
    requires ReportsPositions(parser) && parser.parses(lines) && Insertion(donor, parser, lines, f).Some?
    requires Parent(f.name) == "" && parser.firstUse(lines, BareName(f.name)).Some?
    ensures 1 <= parser.firstUse(lines, BareName(f.name)).value <= |lines|
    ensures Insertion(donor, parser, lines, f).value.at == parser.firstUse(lines, BareName(f.name)).value - 1
  {
    hide ReindentAll;
  }

  /** A top-level function that is inserted because the skeleton refers to it stands, in the extended module,
      above the first statement that uses its name and everything after it. */
  lemma DefinedBeforeUse(donor: Donor, parser: Parser, lines: seq<string>, e: Edit<string>, f: Function)
    returns (above: seq<string>, below: seq<string>)
    requires ReportsPositions(parser) && parser.parses(lines)
    requires e in Insertions(donor, parser, lines) && Insertion(donor, parser, lines, f) == Some(e.(rank := 0))
    requires Parent(f.name) == "" && parser.firstUse(lines, BareName(f.name)).Some?
    ensures var use := parser.firstUse(lines, BareName(f.name)).value;
      1 <= use <= |lines| && Extended(donor, parser, lines) == above + below &&
      Contiguous(e.ins, above) && Subsequence(lines[use - 1..], below)
  {
    hide Insertions, Insertion, SortEdits, Simultaneous, Subsequence, Contiguous, ReportsPositions, Chain,
      PureInsertions, Parent, BareName, LastDot;
    InsertionBeforeUse(donor, parser, lines, f);
    InsertionChain(donor, parser, lines);
    SortEditsMembers(Insertions(donor, parser, lines));
    above, below := InsertedAbove(lines, SortEdits(Insertions(donor, parser, lines)), e);
  }

  /** Grafting lets a parse error escape exactly when the module with its stubs filled, or the one
      imports are to be added to, does not parse; a bad final merge falls back to the skeleton. */
  lemma GraftRaisesIff(skeleton: seq<string>, generatedParses: bool, stubs: seq<Stub>,
                       donor: Donor, parser: Parser)
    requires StubsOf(stubs, |skeleton|) && ReportsPositions(parser)
    ensures Grafted(skeleton, generatedParses, stubs, donor, parser).Raised? <==>
      generatedParses &&
      var filled := Filled(skeleton, stubs, donor.functions);
      !parser.parses(filled) ||
      (NeedsImports(|StubEdits(stubs, donor.functions)|, |Insertions(donor, parser, filled)|, donor.imports) &&
       !parser.parses(Extended(donor, parser, filled)))
  {
    hide Simultaneous, SortEdits, ReindentAll;
    StubEditsAreSpans(stubs, donor.functions, |skeleton|);
  }

  /** A parser that rejects indentation mixing spaces and a tab. */
  function TabParser(): Parser {
    Parser(lines => forall l :: l in lines ==> !("   \t" <= l), lines => {"A.f"}, lines => map[], (lines, name) => None,
           lines => 0)
  }

  const TAB_SKELETON: seq<string> := ["class A:", "    def f(self):", "        pass", "    x = 1"]
  const TAB_BLOCK: Block := Block(["\tdef f(self):", "\t\treturn 1"], 1)

  /** A generated method indented by a tab, put in place of a stub four columns in: shifting it right by three
      spaces gives lines that do not parse, and the error escapes. */
  lemma TabIndentationRaises()
    ensures TabParser().parses(TAB_SKELETON) && StubsOf([Stub("A.f", 2, 3, 4)], |TAB_SKELETON|) &&
      ReportsPositions(TabParser()) &&
      var donor := Donor([Function("A.f", TAB_BLOCK)], {}, []);
      Grafted(TAB_SKELETON, true, [Stub("A.f", 2, 3, 4)], donor, TabParser()).Raised?
  {
    hide ReindentLine, ReindentAll, Filled, StubsOf, TabParser, Grafted, ReportsPositions;
    TabSkeletonParses();
    TabBlockShifted();
    assert |TAB_SKELETON| == 4;
    BadStubRaises(TAB_SKELETON, Stub("A.f", 2, 3, 4), TAB_BLOCK, "   \t");
  }

  lemma TabSkeletonParses()
    ensures TabParser().parses(TAB_SKELETON)
  {
    TabParserReads(TAB_SKELETON);
    hide TabParser, ReportsPositions;
    forall l | l in TAB_SKELETON ensures !("   \t" <= l) {
      assert l[3] != '\t';
    }
  }

  lemma TabBlockShifted()
    ensures var lines := ReindentAll(TAB_BLOCK.lines, TAB_BLOCK.col, 4);
      |lines| == |TAB_BLOCK.lines| == 2 && "   \t" <= lines[0]
  {
    ReindentAt(TAB_BLOCK.lines, 1, 4, 0);
    TabLine(TAB_BLOCK.lines[0]);
  }

  lemma TabParserReads(lines: seq<string>)
    ensures ReportsPositions(TabParser())
    ensures TabParser().parses(lines) <==> forall l :: l in lines ==> !("   \t" <= l)
  {
  }

  /** A grafted first line that mixes the indentation makes the whole graft raise. */
  lemma BadStubRaises(skeleton: seq<string>, stub: Stub, block: Block, bad: string)
    requires 1 <= stub.start <= stub.end <= |skeleton| && bad == "   \t" && block.lines != []
    requires |ReindentAll(block.lines, block.col, stub.col)| == |block.lines|
    requires bad <= ReindentAll(block.lines, block.col, stub.col)[0]
    ensures StubsOf([stub], |skeleton|) && ReportsPositions(TabParser()) &&
      Grafted(skeleton, true, [stub], Donor([Function(stub.name, block)], {}, []), TabParser()).Raised?
  {
    hide ReindentAll, StubsOf, TabParser, ReportsPositions, Filled;
    OneStub(skeleton, stub, block);
    var filled := Filled(skeleton, [stub], [Function(stub.name, block)]);
    TabParserReads(filled);
    assert filled[stub.start - 1] == ReindentAll(block.lines, block.col, stub.col)[0];
    assert filled[stub.start - 1] in filled;
    GraftRaisesIff(skeleton, true, [stub], Donor([Function(stub.name, block)], {}, []), TabParser());
  }

  lemma TabLine(line: string)
    requires line == "\tdef f(self):"
    ensures ReindentLine(line, 1, 4) == "   " + line
  {
    assert line[1] == 'd' && !IsSpace('d');
    assert Lead(line[1..]) == 0;
    assert Lead(line) < |line|;
    assert Spaces(3) == "   ";
  }

  /** With a single stub, filling is one replacement. */
  lemma OneStub(skeleton: seq<string>, stub: Stub, block: Block)
    requires 1 <= stub.start <= stub.end <= |skeleton|
    ensures StubsOf([stub], |skeleton|) && Filled(skeleton, [stub], [Function(stub.name, block)]) ==
        skeleton[..stub.start - 1] + ReindentAll(block.lines, block.col, stub.col) + skeleton[stub.end..]
  {
    hide ReindentAll, SortEdits, Simultaneous;
    var edit := StubEdit(stub, block);
    assert [stub][..0] == [];
    assert StubEdits([stub], [Function(stub.name, block)]) == [edit];
    SortOne(edit);
    OneEdit(skeleton, edit);
  }

  lemma SortOne<T>(e: Edit<T>)
    ensures SortEdits([e]) == [e]
  {
    assert [e][..0] == [];
  }

  lemma OneEdit<T>(lines: seq<T>, e: Edit<T>)
    requires e.at + e.del <= |lines|
    ensures Chain([e], |lines|) && Simultaneous(lines, [e]) == lines[..e.at] + e.ins + lines[e.at + e.del..]
  {
    LastEdit(lines, [e]);
    hide Chain, Simultaneous;
    assert [e][..0] == [];
    NoEdits(lines[..e.at], [e][..0]);
  }

  lemma NoEdits<T>(lines: seq<T>, edits: seq<Edit<T>>)
    requires edits == []
    ensures Chain(edits, |lines|) && Simultaneous(lines, edits) == lines
  {
  }

  /** Every stub is counted once: as grafted or as missing; and a fallback reports that nothing was done. */
  lemma StatsAddUp(skeleton: seq<string>, generatedParses: bool, stubs: seq<Stub>,
                   donor: Donor, parser: Parser)
    requires StubsOf(stubs, |skeleton|) && ReportsPositions(parser)
    ensures var r := Grafted(skeleton, generatedParses, stubs, donor, parser);
      (r.Merged? ==> r.stats.grafted + r.stats.missing == r.stats.stubs == |stubs| && !r.stats.failed) &&
      (r.Skeleton? ==> r.stats.grafted == r.stats.inserted == r.stats.importsAdded == 0 && r.stats.failed)
  {
    hide Simultaneous, SortEdits, ReindentAll;
    StubEditsAreSpans(stubs, donor.functions, |skeleton|);
  }
}
