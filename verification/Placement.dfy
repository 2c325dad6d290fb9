/** Where every line ends up: what each pass over a module puts where, line by line. */
module Placement {
  import opened Options
  import opened Graft

  // ----- positions after a pass -----

  /** How many lines the edits above line `k` add. */
  function Growth<T>(edits: seq<Edit<T>>, k: int): int {
    if edits == [] then 0 else
    var last := edits[|edits| - 1];
    Growth(edits[..|edits| - 1], k) + if last.at + last.del <= k then |last.ins| - last.del else 0
  }

  lemma GrowthLast<T>(edits: seq<Edit<T>>, k: int)
    requires edits != []
    ensures var last := edits[|edits| - 1];
      Growth(edits, k) ==
        Growth(edits[..|edits| - 1], k) + if last.at + last.del <= k then |last.ins| - last.del else 0
  {
  }

  lemma {:induction false} GrowthBeyond<T>(edits: seq<Edit<T>>, n: nat, k: nat)
    requires Chain(edits, n) && n <= k
    ensures Growth(edits, k) == Growth(edits, n)
  {
    if edits != [] {
      GrowthBeyond(edits[..|edits| - 1], n, k);
    }
  }

  lemma {:induction false} SimultaneousLength<T>(lines: seq<T>, edits: seq<Edit<T>>)
    requires Chain(edits, |lines|)
    ensures |Simultaneous(lines, edits)| == |lines| + Growth(edits, |lines|)
    decreases |edits|
  {
    if edits != [] {
      var front, last := edits[..|edits| - 1], edits[|edits| - 1];
      SimultaneousLength(lines[..last.at], front);
      LastEdit(lines, edits);
      hide Chain;
      GrowthBeyond(front, last.at, |lines|);
    }
  }

  /** No edit replaces line `k`. */
  ghost predicate Spared<T(!new)>(edits: seq<Edit<T>>, k: nat) {
    forall e :: e in edits ==> k < e.at || e.at + e.del <= k
  }

  lemma SparedFront<T(!new)>(edits: seq<Edit<T>>, k: nat)
    requires Spared(edits, k) && edits != []
    ensures Spared(edits[..|edits| - 1], k)
    ensures k < edits[|edits| - 1].at || edits[|edits| - 1].at + edits[|edits| - 1].del <= k
  {
    assert edits[|edits| - 1] in edits;
  }

  /** A line that no edit replaces moves down by what the edits above it add. */
  lemma {:induction false} LineLands<T(!new)>(lines: seq<T>, edits: seq<Edit<T>>, k: nat)
    requires Chain(edits, |lines|) && k < |lines| && Spared(edits, k)
    ensures 0 <= k + Growth(edits, k) < |Simultaneous(lines, edits)|
    ensures Simultaneous(lines, edits)[k + Growth(edits, k)] == lines[k]
    decreases |edits|
  {
    if edits != [] {
      hide Chain, Simultaneous, Growth, Spared;
      var front, last := edits[..|edits| - 1], edits[|edits| - 1];
      LastEdit(lines, edits);
      SparedFront(edits, k);
      GrowthLast(edits, k);
      var head, tail := lines[..last.at], lines[last.at + last.del..];
      if k < last.at {
        LineLands(head, front, k);
      } else {
        SimultaneousLength(head, front);
        GrowthBeyond(front, last.at, k);
        InTail(Simultaneous(head, front) + last.ins, tail, k - last.at - last.del);
      }
    }
  }

  lemma InTail<T>(above: seq<T>, tail: seq<T>, i: nat)
    requires i < |tail|
    ensures (above + tail)[|above| + i] == tail[i]
  {
  }

  /** What an edit puts in stands where the edits before it have moved its place. */
  lemma {:induction false} EditLands<T>(lines: seq<T>, edits: seq<Edit<T>>, i: nat)
    requires Chain(edits, |lines|) && i < |edits|
    ensures var at := edits[i].at + Growth(edits[..i], edits[i].at);
      at >= 0 && OccursAt(edits[i].ins, Simultaneous(lines, edits), at)
    decreases |edits|
  {
    hide Chain, Simultaneous, Growth, OccursAt;
    var front, last := edits[..|edits| - 1], edits[|edits| - 1];
    LastEdit(lines, edits);
    var head := lines[..last.at];
    var rest := last.ins + lines[last.at + last.del..];
    assert Simultaneous(lines, edits) == Simultaneous(head, front) + rest;
    SimultaneousLength(head, front);
    if i < |front| {
      EditLands(head, front, i);
      assert front[..i] == edits[..i];
      OccursBefore(edits[i].ins, Simultaneous(head, front), rest, edits[i].at + Growth(edits[..i], edits[i].at));
    } else {
      assert edits[..i] == front;
      OccursAfter(Simultaneous(head, front), last.ins, lines[last.at + last.del..]);
    }
  }

  lemma OccursAfter<T>(above: seq<T>, block: seq<T>, below: seq<T>)
    ensures OccursAt(block, above + block + below, |above|)
  {
  }

  lemma OccursBefore<T>(block: seq<T>, lines: seq<T>, more: seq<T>, i: nat)
    requires OccursAt(block, lines, i)
    ensures OccursAt(block, lines + more, i)
  {
    assert (lines + more)[i..i + |block|] == lines[i..i + |block|];
  }

  // ----- the order in which edits are listed does not matter -----

  lemma {:induction false} GrowthConcat<T>(a: seq<Edit<T>>, b: seq<Edit<T>>, k: int)
    ensures Growth(a + b, k) == Growth(a, k) + Growth(b, k)
    decreases |b|
  {
    if b == [] {
      assert a + b == a;
    } else {
      assert (a + b)[..|a + b| - 1] == a + b[..|b| - 1];
      GrowthConcat(a, b[..|b| - 1], k);
    }
  }

  lemma {:induction false} GrowthInserted<T>(edits: seq<Edit<T>>, e: Edit<T>, k: int)
    ensures Growth(InsertEdit(edits, e), k) == Growth(edits, k) + if e.at + e.del <= k then |e.ins| - e.del else 0
    decreases |edits|
  {
    hide Growth;
    var inserted := InsertEdit(edits, e);
    GrowthLast(inserted, k);
    if edits == [] || Before(edits[|edits| - 1], e) {
      assert inserted[..|inserted| - 1] == edits;
    } else {
      var front := edits[..|edits| - 1];
      GrowthInserted(front, e, k);
      GrowthLast(edits, k);
      assert inserted[..|inserted| - 1] == InsertEdit(front, e);
    }
  }

  lemma {:induction false} GrowthSorted<T>(edits: seq<Edit<T>>, k: int)
    ensures Growth(SortEdits(edits), k) == Growth(edits, k)
  {
    hide Growth, InsertEdit;
    if edits != [] {
      var front, last := edits[..|edits| - 1], edits[|edits| - 1];
      GrowthSorted(front, k);
      GrowthInserted(SortEdits(front), last, k);
      GrowthLast(edits, k);
    }
  }

  /** A span that replaces something stands where all edits above it have moved its place. */
  lemma SpanLands<T(!new)>(lines: seq<T>, edits: seq<Edit<T>>, e: Edit<T>)
    requires Chain(edits, |lines|) && e in edits && e.del > 0
    ensures var at := e.at + Growth(edits, e.at);
      at >= 0 && OccursAt(e.ins, Simultaneous(lines, edits), at)
  {
    hide Chain, Growth, Simultaneous, OccursAt;
    var i :| 0 <= i < |edits| && edits[i] == e;
    EditLands(lines, edits, i);
    assert edits == edits[..i] + edits[i..];
    GrowthConcat(edits[..i], edits[i..], e.at);
    SpanIsAbove(edits, i, |lines|);
    NoGrowth(edits[i..], e.at);
  }

  /** Every edit ends below line `k`. */
  ghost predicate EndsBelow<T(!new)>(edits: seq<Edit<T>>, k: nat) {
    forall e :: e in edits ==> e.at + e.del > k
  }

  lemma SpanIsAbove<T(!new)>(edits: seq<Edit<T>>, i: nat, n: nat)
    requires Chain(edits, n) && i < |edits| && edits[i].del > 0
    ensures EndsBelow(edits[i..], edits[i].at)
  {
    forall e | e in edits[i..] ensures e.at + e.del > edits[i].at {
      var j :| 0 <= j < |edits| - i && edits[i..][j] == e;
      assert edits[i + j] == e;
    }
  }

  lemma {:induction false} NoGrowth<T(!new)>(edits: seq<Edit<T>>, k: nat)
    requires EndsBelow(edits, k)
    ensures Growth(edits, k) == 0
  {
    if edits != [] {
      var front, last := edits[..|edits| - 1], edits[|edits| - 1];
      assert last in edits && forall e :: e in front ==> e in edits;
      NoGrowth(front, k);
    }
  }

  // ----- filled stubs -----

  /** The generated function of that name; of several the last one counts. */
  predicate IsDonor(functions: seq<Function>, name: string, j: nat) {
    j < |functions| && functions[j].name == name && forall n :: j < n < |functions| ==> functions[n].name != name
  }

  lemma {:induction false} BlockOfDonor(functions: seq<Function>, name: string, j: nat)
    requires IsDonor(functions, name, j)
    ensures BlockOf(functions, name) == Some(functions[j].block)
  {
    if j < |functions| - 1 {
      BlockOfDonor(functions[..|functions| - 1], name, j);
    }
  }

  lemma {:induction false} NoDonor(functions: seq<Function>, name: string)
    ensures BlockOf(functions, name) == None <==> forall f :: f in functions ==> f.name != name
  {
    if functions != [] {
      var front, last := functions[..|functions| - 1], functions[|functions| - 1];
      NoDonor(front, name);
      assert functions == front + [last];
      assert last in functions;
    }
  }

  predicate Generated(functions: seq<Function>, stub: Stub) {
    exists f :: f in functions && f.name == stub.name
  }

  /** How many lines filling the stubs that end above or at line `k` adds. */
  function Shift(stubs: seq<Stub>, functions: seq<Function>, k: int): int {
    if stubs == [] then 0 else
    var last := stubs[|stubs| - 1];
    var block := BlockOf(functions, last.name);
    Shift(stubs[..|stubs| - 1], functions, k) +
      if block.Some? && last.end <= k then |block.value.lines| - (last.end - last.start + 1) else 0
  }

  lemma {:induction false} ReindentLength(lines: seq<string>, fromCol: nat, toCol: nat)
    ensures |ReindentAll(lines, fromCol, toCol)| == |lines|
  {
    if lines != [] {
      ReindentLength(lines[..|lines| - 1], fromCol, toCol);
    }
  }

  lemma {:induction false} StubsShift(stubs: seq<Stub>, functions: seq<Function>, k: int)
    requires NonEmptySpans(stubs)
    ensures Growth(StubEdits(stubs, functions), k) == Shift(stubs, functions, k)
  {
    hide BlockOf, ReindentAll;
    if stubs != [] {
      var front, last := stubs[..|stubs| - 1], stubs[|stubs| - 1];
      StubsShift(front, functions, k);
      var block := BlockOf(functions, last.name);
      if block.Some? {
        var e := StubEdit(last, block.value);
        ReindentLength(block.value.lines, block.value.col, last.col);
        GrowthConcat(StubEdits(front, functions), [e], k);
        assert [e][..0] == [];
      } else {
        assert StubEdits(front, functions) + [] == StubEdits(front, functions);
      }
    }
  }

  lemma {:induction false} StubEditOf(stubs: seq<Stub>, functions: seq<Function>, i: nat)
    requires NonEmptySpans(stubs) && i < |stubs|
    ensures var block := BlockOf(functions, stubs[i].name);
      block.Some? ==> StubEdit(stubs[i], block.value) in StubEdits(stubs, functions)
  {
    hide BlockOf, ReindentAll;
    if i < |stubs| - 1 {
      StubEditOf(stubs[..|stubs| - 1], functions, i);
    }
  }

  lemma {:induction false} OnlyStubEdits(stubs: seq<Stub>, functions: seq<Function>, e: Edit<string>)
    requires NonEmptySpans(stubs) && e in StubEdits(stubs, functions)
    ensures exists i :: 0 <= i < |stubs| && Generated(functions, stubs[i]) && Covers(e, stubs[i])
  {
    hide BlockOf, ReindentAll;
    var front, last := stubs[..|stubs| - 1], stubs[|stubs| - 1];
    if e in StubEdits(front, functions) {
      OnlyStubEdits(front, functions, e);
      var i :| 0 <= i < |front| && Generated(functions, front[i]) && Covers(e, front[i]);
      assert stubs[i] == front[i];
    } else {
      NoDonor(functions, last.name);
      assert Covers(e, stubs[|stubs| - 1]);
    }
  }

  /** Every stub that was generated is filled: in place of its lines stands the block, shifted to its column. */
  lemma {:induction false} StubIsFilled(skeleton: seq<string>, stubs: seq<Stub>, functions: seq<Function>, i: nat,
                                        j: nat)
    requires StubsOf(stubs, |skeleton|) && i < |stubs| && IsDonor(functions, stubs[i].name, j)
    ensures var block, above := functions[j].block, stubs[i].start - 1;
      var at := above + Shift(stubs, functions, above);
      at >= 0 && OccursAt(ReindentAll(block.lines, block.col, stubs[i].col), Filled(skeleton, stubs, functions), at)
  {
    hide StubEdits, SortEdits, Simultaneous, BlockOf, ReindentAll, OccursAt, Shift, Growth;
    var edits := StubEdits(stubs, functions);
    BlockOfDonor(functions, stubs[i].name, j);
    StubEditOf(stubs, functions, i);
    var e := StubEdit(stubs[i], functions[j].block);
    SortEditsMembers(edits);
    StubChain(stubs, functions, |skeleton|);
    SpanLands(skeleton, SortEdits(edits), e);
    GrowthSorted(edits, e.at);
    StubsShift(stubs, functions, e.at);
  }

  /** Every other line stays, moved only by what the stubs above it have grown; and no line is added but those. */
  lemma OtherLinesStay(skeleton: seq<string>, stubs: seq<Stub>, functions: seq<Function>, k: nat)
    requires StubsOf(stubs, |skeleton|) && k < |skeleton|
    requires forall i :: 0 <= i < |stubs| && Generated(functions, stubs[i]) ==>
      k + 1 < stubs[i].start || stubs[i].end < k + 1
    ensures var filled, at := Filled(skeleton, stubs, functions), k + Shift(stubs, functions, k);
      |filled| == |skeleton| + Shift(stubs, functions, |skeleton|) && 0 <= at < |filled| && filled[at] == skeleton[k]
  {
    hide StubEdits, SortEdits, Simultaneous, BlockOf, ReindentAll, Shift, Growth, Generated;
    var edits := StubEdits(stubs, functions);
    SortEditsMembers(edits);
    StubChain(stubs, functions, |skeleton|);
    forall e | e in SortEdits(edits) ensures k < e.at || e.at + e.del <= k {
      OnlyStubEdits(stubs, functions, e);
    }
    LineLands(skeleton, SortEdits(edits), k);
    SimultaneousLength(skeleton, SortEdits(edits));
    GrowthSorted(edits, k);
    StubsShift(stubs, functions, k);
    GrowthSorted(edits, |skeleton|);
    StubsShift(stubs, functions, |skeleton|);
  }

  /** The stubs that were not generated. */
  function Ungenerated(stubs: seq<Stub>, functions: seq<Function>): set<nat> {
    set i: nat | i < |stubs| && !Generated(functions, stubs[i])
  }

  lemma {:induction false} StubCount(stubs: seq<Stub>, functions: seq<Function>)
    requires NonEmptySpans(stubs)
    ensures |StubEdits(stubs, functions)| + |Ungenerated(stubs, functions)| == |stubs|
  {
    hide BlockOf, ReindentAll, Generated;
    if stubs != [] {
      var front, last := stubs[..|stubs| - 1], stubs[|stubs| - 1];
      StubCount(front, functions);
      LastCounts(stubs, functions);
      LastGenerated(functions, last);
    }
  }

  lemma LastGenerated(functions: seq<Function>, stub: Stub)
    ensures Generated(functions, stub) <==> BlockOf(functions, stub.name).Some?
  {
    NoDonor(functions, stub.name);
  }

  lemma LastCounts(stubs: seq<Stub>, functions: seq<Function>)
    requires stubs != []
    ensures var front, last := stubs[..|stubs| - 1], stubs[|stubs| - 1];
      |Ungenerated(stubs, functions)| == |Ungenerated(front, functions)| + if Generated(functions, last) then 0 else 1
  {
    hide Generated;
    var front, n := stubs[..|stubs| - 1], |stubs| - 1;
    assert Ungenerated(stubs, functions) ==
      Ungenerated(front, functions) + if Generated(functions, stubs[n]) then {} else {n};
  }

  // ----- shifted lines -----

  /** Shifting a line that is not blank keeps its text and changes its leading white space by the difference of the
      columns, as far as there is any; a blank line stays. */
  lemma ShiftedLine(line: string, fromCol: nat, toCol: nat)
    ensures var r := ReindentLine(line, fromCol, toCol);
      if Blank(line) then r == line
      else
        r[Lead(r)..] == line[Lead(line)..] &&
        Lead(r) == if Lead(line) + toCol >= fromCol then Lead(line) + toCol - fromCol else 0
  {
    if !Blank(line) {
      if fromCol < toCol {
        LeadOfIndented(toCol - fromCol, line);
      } else {
        LeadOfCut(line, if fromCol - toCol < Lead(line) then fromCol - toCol else Lead(line));
      }
    }
  }

  lemma {:induction false} LeadOfCut(line: string, n: nat)
    requires n <= Lead(line)
    ensures Lead(line[n..]) == Lead(line) - n && line[n..][Lead(line[n..])..] == line[Lead(line)..]
  {
    if n > 0 {
      LeadOfCut(line[1..], n - 1);
      assert line[1..][n - 1..] == line[n..];
    }
  }

  // ----- inserted functions -----

  lemma NameParts(name: string, parent: string, bare: string)
    requires '.' !in bare
    ensures name == parent + "." + bare ==> Parent(name) == parent && BareName(name) == bare
    ensures name == bare ==> Parent(name) == "" && BareName(name) == bare
  {
    if name == parent + "." + bare {
      assert name[|parent|] == '.' && name[|parent| + 1..] == bare && name[..|parent|] == parent;
      assert forall i :: |parent| < i < |name| ==> name[i] == bare[i - |parent| - 1];
      forall i | 0 <= i < |parent| && name[i] == '.' ensures '.' in name[i + 1..] {
        assert name[i + 1..][|parent| - i - 1] == '.';
      }
    }
  }

  /** More edits add more, and none of them takes anything away. */
  lemma {:induction false} InsertionsGrow<T>(edits: seq<Edit<T>>, j: int, k: int)
    requires PureInsertions(edits) && j <= k
    ensures 0 <= Growth(edits, j) <= Growth(edits, k)
  {
    if edits != [] {
      var front, last := edits[..|edits| - 1], edits[|edits| - 1];
      assert last in edits && forall e :: e in front ==> e in edits;
      InsertionsGrow(front, j, k);
    }
  }

  /** An inserted block stands after the line above its place and before the line at it. */
  ghost predicate StandsAt<T(!new)>(edits: seq<Edit<T>>, e: Edit<T>, lines: seq<T>) {
    exists i :: 0 <= i <= |lines| && OccursAt(e.ins, lines, i) &&
      e.at - 1 + Growth(edits, e.at - 1) < i && i + |e.ins| <= e.at + Growth(edits, e.at)
  }

  lemma InsertionStands<T(!new)>(lines: seq<T>, edits: seq<Edit<T>>, e: Edit<T>)
    requires Chain(edits, |lines|) && PureInsertions(edits) && e in edits
    ensures StandsAt(edits, e, Simultaneous(lines, edits))
  {
    hide StandsAt, Simultaneous, Growth, PureInsertions, Chain, OccursAt;
    var i :| 0 <= i < |edits| && edits[i] == e;
    EditLands(lines, edits, i);
    GrowthAround(edits, i, |lines|);
    StandsThere(edits, e, Simultaneous(lines, edits), e.at + Growth(edits[..i], e.at));
  }

  lemma StandsThere<T(!new)>(edits: seq<Edit<T>>, e: Edit<T>, lines: seq<T>, i: nat)
    requires OccursAt(e.ins, lines, i)
    requires e.at - 1 + Growth(edits, e.at - 1) < i && i + |e.ins| <= e.at + Growth(edits, e.at)
    ensures StandsAt(edits, e, lines)
  {
  }

  lemma InsertionsFront<T>(edits: seq<Edit<T>>, i: nat, n: nat)
    requires Chain(edits, n) && PureInsertions(edits) && i < |edits|
    ensures var last := edits[|edits| - 1];
      Chain(edits[..|edits| - 1], n) && PureInsertions(edits[..|edits| - 1]) && last.del == 0 && edits[i].at <= last.at
  {
    assert edits[|edits| - 1] in edits;
  }

  /** What stands above the place of an insertion is above the block, and the block is above what stands below. */
  lemma {:induction false} GrowthAround<T>(edits: seq<Edit<T>>, i: nat, n: nat)
    requires Chain(edits, n) && PureInsertions(edits) && i < |edits|
    ensures var at := edits[i].at;
      Growth(edits, at - 1) <= Growth(edits[..i], at) && Growth(edits[..i], at) + |edits[i].ins| <= Growth(edits, at)
  {
    hide Growth, Chain, PureInsertions;
    var front, last := edits[..|edits| - 1], edits[|edits| - 1];
    InsertionsFront(edits, i, n);
    GrowthLast(edits, edits[i].at);
    GrowthLast(edits, edits[i].at - 1);
    if i < |front| {
      GrowthAround(front, i, n);
      assert front[..i] == edits[..i] && front[i] == edits[i];
    } else {
      InsertionsGrow(front, last.at - 1, last.at);
    }
  }

  /** What is inserted at line `at` of the module, and where every line of the module ends up. */
  ghost predicate InsertedAtLine(donor: Donor, parser: Parser, lines: seq<string>, block: seq<string>, at: nat)
    requires ReportsPositions(parser) && parser.parses(lines)
  {
    exists e :: e in Insertions(donor, parser, lines) && e.at == at && e.ins == block &&
      StandsAt(Insertions(donor, parser, lines), e, Extended(donor, parser, lines))
  }

  /** A method the module lacks is inserted below the last line of its class, after an empty line, as far in as the
      members of the class. */
  lemma MethodIsInserted(donor: Donor, parser: Parser, lines: seq<string>, f: Function, parent: string, bare: string)
    requires ReportsPositions(parser) && parser.parses(lines)
    requires f in donor.functions && f.name !in parser.functions(lines)
    requires f.name == parent + "." + bare && '.' !in bare && parent != "" && parent in parser.classes(lines)
    ensures var place := parser.classes(lines)[parent];
      InsertedAtLine(donor, parser, lines, [""] + ReindentAll(f.block.lines, f.block.col, place.indent), place.end)
  {
    hide Insertions, ReindentAll, Extended, Parent, BareName, Planned;
    NameParts(f.name, parent, bare);
    InsertionIsPlaced(donor, parser, lines, f);
  }

  /** A top-level function the skeleton refers to and the module lacks is inserted between empty lines above its first
      use, or at the end of a module that does not use it. */
  lemma FunctionIsInserted(donor: Donor, parser: Parser, lines: seq<string>, f: Function)
    requires ReportsPositions(parser) && parser.parses(lines)
    requires f in donor.functions && f.name !in parser.functions(lines)
    requires '.' !in f.name && f.name in donor.dangling
    ensures var use := parser.firstUse(lines, f.name);
      InsertedAtLine(donor, parser, lines, [""] + ReindentAll(f.block.lines, f.block.col, 0) + [""],
        if use.Some? then use.value - 1 else |lines|)
  {
    hide Insertions, ReindentAll, Extended, Parent, BareName, Planned;
    NameParts(f.name, "", f.name);
    InsertionIsPlaced(donor, parser, lines, f);
  }

  lemma InsertionIsPlaced(donor: Donor, parser: Parser, lines: seq<string>, f: Function)
    requires ReportsPositions(parser) && parser.parses(lines) && f in donor.functions
    ensures var e := Insertion(donor, parser, lines, f);
      e.Some? ==> InsertedAtLine(donor, parser, lines, e.value.ins, e.value.at)
  {
    hide Insertion, SortEdits, Simultaneous, ReportsPositions, Rank, Planned, StandsAt, Chain, PureInsertions;
    var planned, edits := Planned(donor, parser, lines, donor.functions), Insertions(donor, parser, lines);
    InsertionChain(donor, parser, lines);
    InsertedIff(donor, parser, lines, donor.functions);
    var e := Insertion(donor, parser, lines, f);
    if e.Some? {
      var i :| 0 <= i < |planned| && planned[i] == e.value;
      var ranked := edits[i];
      SortEditsMembers(edits);
      InsertionStands(lines, SortEdits(edits), ranked);
      SortedStands(edits, ranked, Extended(donor, parser, lines));
      assert ranked in edits && ranked.ins == e.value.ins && ranked.at == e.value.at;
    }
  }

  lemma SortedStands<T(!new)>(edits: seq<Edit<T>>, e: Edit<T>, lines: seq<T>)
    ensures StandsAt(SortEdits(edits), e, lines) <==> StandsAt(edits, e, lines)
  {
    hide SortEdits, Growth, OccursAt;
    GrowthSorted(edits, e.at);
    GrowthSorted(edits, e.at - 1);
  }

  predicate Lacking(donor: Donor, parser: Parser, lines: seq<string>, name: string) {
    name !in parser.functions(lines) &&
    (Parent(name) in parser.classes(lines) || (Parent(name) == "" && BareName(name) in donor.dangling))
  }

  /** Nothing else is inserted: every insertion is for a generated function that the module lacks and that is a method
      of one of its classes or a top-level function the skeleton refers to. */
  lemma NothingElseIsInserted(donor: Donor, parser: Parser, lines: seq<string>, e: Edit<string>)
    requires ReportsPositions(parser) && parser.parses(lines) && e in Insertions(donor, parser, lines)
    ensures |Insertions(donor, parser, lines)| <= |donor.functions|
    ensures exists f :: f in donor.functions && Lacking(donor, parser, lines, f.name)
  {
    hide ReindentAll, Rank, Planned, ReportsPositions;
    InsertedIff(donor, parser, lines, donor.functions);
    var planned := Planned(donor, parser, lines, donor.functions);
    var i :| 0 <= i < |planned| && e == planned[i].(rank := Rank(planned, planned[i].ins));
    assert planned[i] in planned;
    var f :| f in donor.functions && Insertion(donor, parser, lines, f) == Some(planned[i]);
  }

  /** Every line of the module stays, moved only by what is inserted above it. */
  lemma ExtendedLinesStay(donor: Donor, parser: Parser, lines: seq<string>, k: nat)
    requires ReportsPositions(parser) && parser.parses(lines) && k < |lines|
    ensures var edits, out := Insertions(donor, parser, lines), Extended(donor, parser, lines);
      |out| == |lines| + Growth(edits, |lines|) &&
      0 <= k + Growth(edits, k) < |out| && out[k + Growth(edits, k)] == lines[k]
  {
    hide Insertions, SortEdits, Simultaneous, Growth, ReportsPositions, Chain;
    var edits := Insertions(donor, parser, lines);
    InsertionChain(donor, parser, lines);
    LineLands(lines, SortEdits(edits), k);
    SimultaneousLength(lines, SortEdits(edits));
    GrowthSorted(edits, k);
    GrowthSorted(edits, |lines|);
  }

  // ----- the whole module -----

  /** A merged module is the skeleton with its stubs filled, extended, and then given the imports it lacks where the
      parser puts them, if anything was grafted or inserted; the counts say how many stubs, of all of them, no generated
      function has the name of, and what was added. */
  lemma MergedIsExact(skeleton: seq<string>, stubs: seq<Stub>, donor: Donor, parser: Parser)
    requires StubsOf(stubs, |skeleton|) && ReportsPositions(parser)
    ensures var filled := Filled(skeleton, stubs, donor.functions);
      var missing := |Ungenerated(stubs, donor.functions)|;
      match Grafted(skeleton, true, stubs, donor, parser)
      case Merged(lines, stats) =>
        parser.parses(filled) && parser.parses(lines) &&
        var inserted := |Insertions(donor, parser, filled)|;
        var extended := Extended(donor, parser, filled);
        var adds := donor.imports != [] && (missing < |stubs| || inserted > 0);
        (!adds ==> lines == extended) &&
        (adds ==>
          parser.parses(extended) && parser.importsAt(extended) <= |extended| &&
          lines[..parser.importsAt(extended)] == extended[..parser.importsAt(extended)] &&
          lines[parser.importsAt(extended)..] == donor.imports + extended[parser.importsAt(extended)..]) &&
        stats == Stats(|stubs|, stats.grafted, missing, inserted, if adds then |donor.imports| else 0, false) &&
        stats.grafted + missing == |stubs|
      case Skeleton(stats) => stats == Stats(|stubs|, 0, missing, 0, 0, true)
      case Raised => true
  {
    hide Filled, Extended, Insertions, StubEdits, ReindentAll, Ungenerated;
    StubEditsAreSpans(stubs, donor.functions, |skeleton|);
    StubCount(stubs, donor.functions);
    var filled := Filled(skeleton, stubs, donor.functions);
    if parser.parses(filled) {
      var extended := Extended(donor, parser, filled);
      if parser.parses(extended) {
        var at := parser.importsAt(extended);
        var lines := WithImports(parser, extended, donor.imports);
        assert lines[..at] == extended[..at] && lines[at..] == donor.imports + extended[at..];
      }
    }
  }
}
