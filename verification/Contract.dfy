/** Splitting the domain-knowledge file into contract and context, and appending to the contract. */
module Contract {
  import opened WhiteSpace

  const CONTRACT_MARKER := "<!-- anvil:contract -->"
  const CONTEXT_MARKER := "<!-- anvil:context -->"

  /** What a line means to the scanner once surrounding white space is stripped. */
  datatype Kind = OpensContract | OpensContext | Plain

  function StripStart(line: string): string {
    if line != [] && IsSpace(line[0]) then StripStart(line[1..]) else line
  }

  function StripEnd(line: string): string {
    if line != [] && IsSpace(line[|line| - 1]) then StripEnd(line[..|line| - 1]) else line
  }

  function KindOf(line: string): Kind {
    var stripped := StripStart(StripEnd(line));
    if stripped == CONTRACT_MARKER then OpensContract
    else if stripped == CONTEXT_MARKER then OpensContext
    else Plain
  }

  // ----- lines -----

  /** A line and the line break that ends it, empty for a last line without one. */
  datatype Line = Line(body: string, end: string)

  predicate IsBreak(c: char) {
    '\n' <= c <= '\r' || '\U{1c}' <= c <= '\U{1e}' || c == '\U{85}' || c == '\U{2028}' || c == '\U{2029}'
  }

  /** The break at the start of a text, if there is one; a carriage return takes a newline with it. */
  function BreakAt(text: string): (n: nat)
    ensures n <= 2 && n <= |text|
  {
    if text == [] || !IsBreak(text[0]) then 0
    else if text[0] == '\r' && |text| > 1 && text[1] == '\n' then 2
    else 1
  }

  function SplitLines(text: string): seq<Line> {
    SplitFrom(text, [])
  }

  function SplitFrom(text: string, line: string): seq<Line>
    decreases |text|
  {
    var n := BreakAt(text);
    if text == [] then (if line == [] then [] else [Line(line, "")])
    else if n > 0 then [Line(line, text[..n])] + SplitFrom(text[n..], [])
    else SplitFrom(text[1..], line + [text[0]])
  }

  function Bodies(lines: seq<Line>): seq<string> {
    if lines == [] then [] else [lines[0].body] + Bodies(lines[1..])
  }

  /** The lines as they were written, breaks included. */
  function TextOf(lines: seq<Line>): string {
    if lines == [] then [] else lines[0].body + lines[0].end + TextOf(lines[1..])
  }

  /** The same lines, all ended by newlines. */
  function Normal(lines: seq<Line>): seq<Line> {
    if lines == [] then [] else [Line(lines[0].body, "\n")] + Normal(lines[1..])
  }

  ghost predicate IsLine(line: string) {
    forall c :: c in line ==> !IsBreak(c)
  }

  lemma {:induction false} SplitOneLine(line: string, sofar: string, rest: string)
    requires IsLine(line)
    ensures SplitFrom(line + "\n" + rest, sofar) == [Line(sofar + line, "\n")] + SplitFrom(rest, [])
    decreases |line|
  {
    var text := line + "\n" + rest;
    if line == [] {
      assert text[0] == '\n' && text[1..] == rest && text[..1] == "\n" && sofar + line == sofar;
    } else {
      assert text[0] == line[0] && line[0] in line && text[1..] == line[1..] + "\n" + rest;
      SplitOneLine(line[1..], sofar + [line[0]], rest);
      assert sofar + [line[0]] + line[1..] == sofar + line;
    }
  }

  /** Splitting lines that were joined by newlines gives them back. */
  lemma {:induction false} SplitOfJoin(lines: seq<Line>)
    requires forall l :: l in lines ==> IsLine(l.body)
    ensures SplitLines(TextOf(Normal(lines))) == Normal(lines)
  {
    if lines != [] {
      var rest := TextOf(Normal(lines[1..]));
      SplitOfJoin(lines[1..]);
      SplitOneLine(lines[0].body, [], rest);
      assert [] + lines[0].body == lines[0].body;
      assert Normal(lines)[1..] == Normal(lines[1..]);
    }
  }

  lemma {:induction false} SplitGivesLines(text: string, line: string)
    requires IsLine(line)
    ensures forall l :: l in SplitFrom(text, line) ==> IsLine(l.body) && forall c :: c in l.end ==> IsBreak(c)
    decreases |text|
  {
    var n := BreakAt(text);
    if text != [] {
      if n > 0 {
        SplitGivesLines(text[n..], []);
      } else {
        SplitGivesLines(text[1..], line + [text[0]]);
      }
    }
  }

  /** Splitting loses nothing: the lines with their breaks are the text. */
  lemma {:induction false} SplitKeepsText(text: string, line: string)
    ensures TextOf(SplitFrom(text, line)) == line + text
    decreases |text|
  {
    hide BreakAt, IsBreak;
    var n := BreakAt(text);
    if text == [] {
      assert line + text == line && line + "" + [] == line;
    } else if n > 0 {
      SplitKeepsText(text[n..], []);
      assert text[..n] + ([] + text[n..]) == text;
      assert line + text[..n] + ([] + text[n..]) == line + text;
    } else {
      SplitKeepsText(text[1..], line + [text[0]]);
      assert line + [text[0]] + text[1..] == line + text;
    }
  }

  /** Only the last line may lack a break, every break is one character or a carriage return with its newline, and no
      such pair is torn apart. */
  lemma {:induction false} BreaksAreWhole(text: string, line: string, i: nat)
    requires i < |SplitFrom(text, line)|
    ensures var lines := SplitFrom(text, line);
      var end := lines[i].end;
      (end == "" ==> i == |lines| - 1) && (|end| <= 1 || end == "\r\n") &&
      (end == "\r" ==> !("\n" <= TextOf(lines[i + 1..])))
    decreases |text|
  {
    var n := BreakAt(text);
    if text != [] {
      if n > 0 {
        var first, rest := Line(line, text[..n]), SplitFrom(text[n..], []);
        assert SplitFrom(text, line) == [first] + rest;
        hide SplitFrom, IsBreak;
        if i > 0 {
          BreaksAreWhole(text[n..], [], i - 1);
          ConsAt(first, rest, i);
        } else {
          FirstBreakIsWhole(text, first, rest);
        }
      } else {
        hide IsBreak;
        BreaksAreWhole(text[1..], line + [text[0]], i);
      }
    }
  }

  lemma ConsAt(first: Line, rest: seq<Line>, i: nat)
    requires 0 < i <= |rest|
    ensures ([first] + rest)[i] == rest[i - 1] && ([first] + rest)[i + 1..] == rest[i..]
  {
  }

  lemma FirstBreakIsWhole(text: string, first: Line, rest: seq<Line>)
    requires BreakAt(text) > 0 && first.end == text[..BreakAt(text)] && rest == SplitLines(text[BreakAt(text)..])
    ensures (|first.end| == 1 || first.end == "\r\n") &&
      (first.end == "\r" ==> !("\n" <= TextOf(([first] + rest)[1..])))
  {
    hide SplitFrom, IsBreak;
    SplitKeepsText(text[BreakAt(text)..], []);
    assert ([first] + rest)[1..] == rest && [] + text[BreakAt(text)..] == text[BreakAt(text)..];
  }

  lemma {:induction false} StripEndIgnores(line: string, end: string)
    requires AllSpace(end)
    ensures StripEnd(line + end) == StripEnd(line)
    decreases |end|
  {
    if end == [] {
      assert line + end == line;
    } else {
      var front := end[..|end| - 1];
      assert end[|end| - 1] in end;
      assert (line + end)[..|line + end| - 1] == line + front;
      StripEndIgnores(line, front);
    }
  }

  // ----- scanning -----

  datatype Split = Split(contract: seq<Line>, context: seq<Line>, open: bool)

  /** The parts of the lines read so far, and whether the scanner is inside a contract section. */
  function Scan(lines: seq<Line>): Split {
    if lines == [] then Split([], [], false) else Classify(Scan(lines[..|lines| - 1]), lines[|lines| - 1])
  }

  function Classify(s: Split, line: Line): Split {
    match KindOf(line.body)
    case OpensContract => s.(open := true)
    case OpensContext => s.(open := false)
    case Plain => if s.open then s.(contract := s.contract + [line]) else s.(context := s.context + [line])
  }

  predicate HasOpening(lines: seq<Line>) {
    exists l :: l in lines && KindOf(l.body) == OpensContract
  }

  /** Where an addition goes: the end of the last contract section, if any section was opened. */
  function InsertionPoint(lines: seq<Line>): (at: int)
    ensures -1 <= at <= |lines|
  {
    if Scan(lines).open then |lines| else LastClosing(lines)
  }

  /** The last line that closed a contract section, or -1. */
  function LastClosing(lines: seq<Line>): (at: int)
    ensures -1 <= at < |lines|
  {
    if lines == [] then -1
    else
      var front := lines[..|lines| - 1];
      if KindOf(lines[|lines| - 1].body) == OpensContext && Scan(front).open then |front| else LastClosing(front)
  }

  /** A line counts as a marker whether or not its line break is still on it. */
  lemma KindIgnoresBreak(text: string, line: Line)
    requires line in SplitLines(text)
    ensures KindOf(line.body + line.end) == KindOf(line.body)
  {
    SplitGivesLines(text, []);
    StripEndIgnores(line.body, line.end);
  }

  // ----- the operations on texts -----

  predicate OccursAt(text: string, needle: string, i: nat) {
    i + |needle| <= |text| && text[i..i + |needle|] == needle
  }

  predicate Contains(text: string, needle: string) {
    exists i :: 0 <= i <= |text| && OccursAt(text, needle, i)
  }

  function StripNewlines(text: string): string {
    if text != [] && text[|text| - 1] == '\n' then StripNewlines(text[..|text| - 1]) else text
  }

  function TrimNewlines(text: string): string {
    if text != [] && text[0] == '\n' then TrimNewlines(text[1..]) else StripNewlines(text)
  }

  datatype ContractSplit = ContractSplit(hasMarkers: bool, contract: string, context: string)

  function SplitText(text: string): ContractSplit {
    if !Contains(text, CONTRACT_MARKER) then ContractSplit(false, "", text)
    else
      var parts := Scan(SplitLines(text));
      ContractSplit(true, TrimNewlines(TextOf(parts.contract)), TextOf(parts.context))
  }

  /** The contract and the context; a text without the marker is all context, as it is. */
  method SplitContract(text: string) returns (split: ContractSplit)
    ensures split == SplitText(text)
  {
    if !Contains(text, CONTRACT_MARKER) {
      return ContractSplit(false, "", text);
    }
    var lines := SplitLines(text);
    var contract: seq<Line>, context: seq<Line> := [], [];
    var inContract := false;
    var i := 0;
    while i < |lines|
      invariant 0 <= i <= |lines|
      invariant Split(contract, context, inContract) == Scan(lines[..i])
    {
      assert lines[..i + 1][..i] == lines[..i];
      KindIgnoresBreak(text, lines[i]);
      match KindOf(lines[i].body + lines[i].end) {
        case OpensContract => inContract := true;
        case OpensContext => inContract := false;
        case Plain =>
          if inContract {
            contract := contract + [lines[i]];
          } else {
            context := context + [lines[i]];
          }
      }
      i := i + 1;
    }
    assert lines[..i] == lines;
    split := ContractSplit(true, TrimNewlines(TextOf(contract)), TextOf(context));
  }

  /** The unmarkered format: at the end of the file, on a line of its own. */
  function AtEnd(text: string, addition: string): string {
    StripNewlines(text) + "\n" + addition + "\n"
  }

  function InsertedAt(lines: seq<Line>, at: nat, addition: seq<Line>): seq<Line>
    requires at <= |lines|
  {
    lines[..at] + addition + lines[at..]
  }

  function AppendText(text: string, addition: string): string {
    var lines := SplitLines(text);
    var at := InsertionPoint(lines);
    if !Contains(text, CONTRACT_MARKER) || at == -1 then AtEnd(text, addition)
    else TextOf(Normal(InsertedAt(lines, at, SplitLines(addition))))
  }

  lemma NothingScanned()
    ensures !Scan([]).open && LastClosing([]) == -1
  {
  }

  lemma ScanNext(lines: seq<Line>, i: nat)
    requires i < |lines|
    ensures var kind := KindOf(lines[i].body);
      (Scan(lines[..i + 1]).open <==> kind == OpensContract || (kind == Plain && Scan(lines[..i]).open)) &&
      LastClosing(lines[..i + 1]) ==
        if kind == OpensContext && Scan(lines[..i]).open then i else LastClosing(lines[..i])
  {
    hide KindOf;
    assert lines[..i + 1][..i] == lines[..i];
  }

  /** Append a block into the last contract section, or at the end of a file that has none. */
  method AppendBlock(text: string, addition: string) returns (out: string)
    ensures out == AppendText(text, addition)
  {
    hide KindOf, SplitLines, TextOf, Normal, Contains, AtEnd, Scan, LastClosing;
    if !Contains(text, CONTRACT_MARKER) {
      return AtEnd(text, addition);
    }
    var lines := SplitLines(text);
    var insertAt := -1;
    var inContract := false;
    NothingScanned();
    var i := 0;
    while i < |lines|
      invariant 0 <= i <= |lines|
      invariant inContract == Scan(lines[..i]).open && insertAt == LastClosing(lines[..i])
    {
      ScanNext(lines, i);
      match KindOf(lines[i].body) {
        case OpensContract =>
          inContract := true;
        case OpensContext =>
          if inContract {
            insertAt := i;
          }
          inContract := false;
        case Plain =>
      }
      i := i + 1;
    }
    assert lines[..i] == lines;
    if inContract {
      insertAt := |lines|;
    }
    if insertAt == -1 {
      return AtEnd(text, addition);
    }
    out := TextOf(Normal(lines[..insertAt] + SplitLines(addition) + lines[insertAt..]));
  }

  // ----- the editor and the parser agree -----

  /** Continue scanning from a state reached earlier. */
  function ScanFrom(s: Split, lines: seq<Line>): Split {
    if lines == [] then s else Classify(ScanFrom(s, lines[..|lines| - 1]), lines[|lines| - 1])
  }

  lemma {:induction false} ScanConcat(a: seq<Line>, b: seq<Line>)
    ensures Scan(a + b) == ScanFrom(Scan(a), b)
    decreases |b|
  {
    if b == [] {
      assert a + b == a;
    } else {
      assert (a + b)[..|a + b| - 1] == a + b[..|b| - 1];
      ScanConcat(a, b[..|b| - 1]);
    }
  }

  ghost predicate MarkerFree(lines: seq<Line>) {
    forall l :: l in lines ==> KindOf(l.body) == Plain
  }

  lemma {:induction false} PlainLinesAccumulate(s: Split, lines: seq<Line>)
    requires MarkerFree(lines)
    ensures ScanFrom(s, lines) ==
      if s.open then s.(contract := s.contract + lines) else s.(context := s.context + lines)
  {
    if lines == [] {
      assert s.contract + [] == s.contract && s.context + [] == s.context;
    } else {
      var front := lines[..|lines| - 1];
      PlainLinesAccumulate(s, front);
      assert lines == front + [lines[|lines| - 1]];
    }
  }

  /** After the last closing line nothing is contract any more: the scan only adds to the context. */
  lemma {:induction false} AfterLastClosing(lines: seq<Line>)
    requires !Scan(lines).open && LastClosing(lines) >= 0
    ensures var at := LastClosing(lines);
      Scan(lines[..at]).open && KindOf(lines[at].body) == OpensContext &&
      Scan(lines).contract == Scan(lines[..at]).contract &&
      (forall l :: l in lines[at..] ==> KindOf(l.body) != OpensContract)
  {
    hide KindOf;
    var front, last := lines[..|lines| - 1], lines[|lines| - 1];
    var at := LastClosing(lines);
    if KindOf(last.body) == OpensContext && Scan(front).open {
      assert lines[..at] == front && lines[at..] == [last];
    } else {
      AfterLastClosing(front);
      assert lines[..at] == front[..at] && lines[at..] == front[at..] + [last];
    }
  }

  /** No closing line and not open: no section was ever opened. */
  lemma {:induction false} NeverOpened(lines: seq<Line>)
    ensures !Scan(lines).open && LastClosing(lines) == -1 <==> !HasOpening(lines)
  {
    if lines != [] {
      var front, last := lines[..|lines| - 1], lines[|lines| - 1];
      NeverOpened(front);
      assert lines == front + [last];
      if HasOpening(front) {
        var l :| l in front && KindOf(l.body) == OpensContract;
        assert l in lines;
      }
      if KindOf(last.body) == OpensContract {
        assert last in lines;
      }
    }
  }

  /** Two scans that differ only in the contract lines collected so far keep differing only there,
      as long as nothing opens a contract section and both are outside one afterwards. */
  lemma {:induction false} ContextScanIgnoresContract(s: Split, contract: seq<Line>, lines: seq<Line>)
    requires forall l :: l in lines ==> KindOf(l.body) != OpensContract
    requires lines != [] && KindOf(lines[0].body) == OpensContext
    ensures var t := ScanFrom(s, lines);
      !t.open && t.contract == s.contract && ScanFrom(s.(contract := contract), lines) == t.(contract := contract)
    decreases |lines|
  {
    var front, last := lines[..|lines| - 1], lines[|lines| - 1];
    if front != [] {
      ContextScanIgnoresContract(s, contract, front);
    }
  }

  lemma OpenedHasInsertionPoint(lines: seq<Line>)
    ensures InsertionPoint(lines) >= 0 <==> HasOpening(lines)
  {
    NeverOpened(lines);
  }

  /** Inserting marker-free lines there adds exactly them at the end of the contract. */
  lemma InsertLandsInContract(lines: seq<Line>, addition: seq<Line>)
    requires HasOpening(lines) && MarkerFree(addition) && InsertionPoint(lines) >= 0
    ensures var after := InsertedAt(lines, InsertionPoint(lines), addition);
      Scan(after).contract == Scan(lines).contract + addition && Scan(after).context == Scan(lines).context &&
      HasOpening(after)
  {
    var at := InsertionPoint(lines);
    var before, after := lines[..at], lines[at..];
    assert lines == before + after;
    ScanConcat(before, after);
    ScanConcat(before + addition, after);
    ScanConcat(before, addition);
    PlainLinesAccumulate(Scan(before), addition);
    if Scan(lines).open {
      assert before == lines && after == [];
    } else {
      AfterLastClosing(lines);
      ContextScanIgnoresContract(Scan(before), Scan(before).contract + addition, after);
    }
    var l :| l in lines && KindOf(l.body) == OpensContract;
    assert l in InsertedAt(lines, at, addition);
  }

  /** The last marker line above line `i` opens a contract section. */
  predicate InContract(lines: seq<Line>, i: nat)
    requires i <= |lines|
  {
    exists j :: 0 <= j < i && KindOf(lines[j].body) == OpensContract &&
      forall n :: j < n < i ==> KindOf(lines[n].body) != OpensContext
  }

  /** The first `n` lines that are no markers and stand in a contract section, or outside one. */
  function Standing(lines: seq<Line>, n: nat, inside: bool): seq<Line>
    requires n <= |lines|
  {
    if n == 0 then [] else
    Standing(lines, n - 1, inside) +
      if KindOf(lines[n - 1].body) == Plain && InContract(lines, n - 1) == inside then [lines[n - 1]] else []
  }

  /** The scan puts each line that is no marker into the contract or the context, by the last marker above it. */
  lemma {:induction false} ScanPlacesLines(lines: seq<Line>, n: nat)
    requires n <= |lines|
    ensures Scan(lines[..n]) == Split(Standing(lines, n, true), Standing(lines, n, false), InContract(lines, n))
    decreases n
  {
    hide KindOf;
    if n > 0 {
      assert lines[..n][..n - 1] == lines[..n - 1];
      ScanPlacesLines(lines, n - 1);
      OneMoreLine(lines, n - 1);
    }
  }

  lemma OneMoreLine(lines: seq<Line>, i: nat)
    requires i < |lines|
    ensures InContract(lines, i + 1) <==>
      KindOf(lines[i].body) == OpensContract || (InContract(lines, i) && KindOf(lines[i].body) == Plain)
  {
    hide KindOf;
  }

  lemma {:induction false} NoContractWithoutOpening(lines: seq<Line>)
    requires !HasOpening(lines)
    ensures Scan(lines).contract == [] && !Scan(lines).open
  {
    if lines != [] {
      var front := lines[..|lines| - 1];
      assert forall l :: l in front ==> l in lines;
      assert lines[|lines| - 1] in lines;
      NoContractWithoutOpening(front);
    }
  }

  lemma InsertionPointMoves(lines: seq<Line>, addition: seq<Line>)
    requires InsertionPoint(lines) >= 0 && MarkerFree(addition)
    ensures InsertionPoint(InsertedAt(lines, InsertionPoint(lines), addition)) == InsertionPoint(lines) + |addition|
  {
    var at := InsertionPoint(lines);
    var before, after := lines[..at], lines[at..];
    assert lines == before + after;
    ScanConcat(before, addition);
    PlainLinesAccumulate(Scan(before), addition);
    if Scan(lines).open {
      assert before == lines && after == [];
      assert InsertedAt(lines, at, addition) == before + addition;
    } else {
      AfterLastClosing(lines);
      ClosingAt(before + addition, after);
    }
  }

  lemma {:induction false} ClosingAt(before: seq<Line>, after: seq<Line>)
    requires Scan(before).open && after != [] && KindOf(after[0].body) == OpensContext
    requires forall l :: l in after ==> KindOf(l.body) != OpensContract
    ensures !Scan(before + after).open && LastClosing(before + after) == |before|
    decreases |after|
  {
    hide KindOf;
    var all := before + after;
    var front, last := after[..|after| - 1], after[|after| - 1];
    assert all[..|all| - 1] == before + front && all[|all| - 1] == last;
    if front == [] {
      assert before + front == before;
    } else {
      ClosingAt(before, front);
    }
  }

  // ----- substrings: an opening line means the marker occurs in the text -----

  lemma ContainsInside(prefix: string, middle: string, suffix: string, needle: string)
    requires Contains(middle, needle)
    ensures Contains(prefix + middle + suffix, needle)
  {
    var i :| 0 <= i <= |middle| && OccursAt(middle, needle, i);
    var all := prefix + middle + suffix;
    assert all[|prefix| + i..|prefix| + i + |needle|] == middle[i..i + |needle|];
    assert OccursAt(all, needle, |prefix| + i);
  }

  lemma ContainsItself(text: string)
    ensures Contains(text, text)
  {
    assert text[0..0 + |text|] == text;
    assert OccursAt(text, text, 0);
  }

  /** The marker stands in the line with nothing but white space around it. */
  predicate Alone(line: string, marker: string) {
    exists i :: 0 <= i <= |line| && OccursAt(line, marker, i) && AllSpace(line[..i]) && AllSpace(line[i + |marker|..])
  }

  predicate AllSpace(text: string) {
    forall c :: c in text ==> IsSpace(c)
  }

  lemma {:induction false} StripStartIsExact(line: string) returns (before: string)
    ensures line == before + StripStart(line) && AllSpace(before)
  {
    before := [];
    if line != [] && IsSpace(line[0]) {
      before := StripStartIsExact(line[1..]);
      before := [line[0]] + before;
    }
  }

  lemma {:induction false} StripEndIsExact(line: string) returns (after: string)
    ensures line == StripEnd(line) + after && AllSpace(after)
  {
    after := [];
    if line != [] && IsSpace(line[|line| - 1]) {
      after := StripEndIsExact(line[..|line| - 1]);
      after := after + [line[|line| - 1]];
    }
  }

  lemma {:induction false} StripStartIgnores(before: string, line: string)
    requires AllSpace(before) && line != [] && !IsSpace(line[0])
    ensures StripStart(before + line) == line
  {
    if before == [] {
      assert before + line == line;
    } else {
      assert before[0] in before && (before + line)[1..] == before[1..] + line;
      StripStartIgnores(before[1..], line);
    }
  }

  /** A line is a marker exactly when the marker stands alone in it. */
  lemma StripsToIff(line: string, marker: string)
    requires marker != [] && !IsSpace(marker[0]) && !IsSpace(marker[|marker| - 1])
    ensures StripStart(StripEnd(line)) == marker <==> Alone(line, marker)
  {
    hide AllSpace, StripStart, StripEnd;
    if StripStart(StripEnd(line)) == marker {
      var after := StripEndIsExact(line);
      var before := StripStartIsExact(StripEnd(line));
      assert line[..|before|] == before && line[|before| + |marker|..] == after;
      assert OccursAt(line, marker, |before|);
    }
    if i :| 0 <= i <= |line| && OccursAt(line, marker, i) && AllSpace(line[..i]) && AllSpace(line[i + |marker|..]) {
      var before, after := line[..i], line[i + |marker|..];
      assert line == (before + marker) + after;
      StripEndIgnores(before + marker, after);
      StripEndKeeps(before + marker);
      StripStartIgnores(before, marker);
    }
  }

  lemma StripEndKeeps(line: string)
    requires line != [] && !IsSpace(line[|line| - 1])
    ensures StripEnd(line) == line
  {
  }

  lemma KindIff(line: string)
    ensures KindOf(line) == OpensContract <==> Alone(line, CONTRACT_MARKER)
    ensures KindOf(line) == OpensContext <==> Alone(line, CONTEXT_MARKER)
  {
    hide Alone, StripStart, StripEnd;
    StripsToIff(line, CONTRACT_MARKER);
    StripsToIff(line, CONTEXT_MARKER);
  }

  lemma {:induction false} BodyIsInside(lines: seq<Line>, l: Line, needle: string)
    requires l in lines && Contains(l.body, needle)
    ensures Contains(TextOf(lines), needle)
  {
    hide Contains;
    var first, rest := lines[0].body + lines[0].end, TextOf(lines[1..]);
    if l == lines[0] {
      ContainsInside([], l.body, l.end + rest, needle);
      assert [] + l.body + (l.end + rest) == first + rest;
    } else {
      BodyIsInside(lines[1..], l, needle);
      ContainsInside(first, rest, [], needle);
      assert first + rest + [] == first + rest;
    }
  }

  lemma OpeningMeansMarker(text: string)
    requires HasOpening(SplitLines(text))
    ensures Contains(text, CONTRACT_MARKER)
  {
    hide Contains;
    var l :| l in SplitLines(text) && KindOf(l.body) == OpensContract;
    KindIff(l.body);
    AloneIsInside(l.body, CONTRACT_MARKER);
    BodyIsInside(SplitLines(text), l, CONTRACT_MARKER);
    SplitKeepsText(text, []);
    assert [] + text == text;
  }

  lemma AloneIsInside(line: string, marker: string)
    requires Alone(line, marker)
    ensures Contains(line, marker)
  {
    hide AllSpace;
  }

  // ----- lines of a text written at the end -----

  lemma {:induction false} SplitBreak(a: string, b: string, line: string)
    ensures SplitFrom(a + "\n" + b, line) == SplitFrom(a + "\n", line) + SplitFrom(b, [])
    decreases |a|
  {
    var text, first := a + "\n" + b, a + "\n";
    var n := BreakAt(text);
    assert BreakAt(first) == n && text[..n] == first[..n];
    if n == |first| {
      assert text[n..] == b && first[n..] == [];
      assert [Line(line, text[..n])] + ([] + SplitFrom(b, [])) == [Line(line, text[..n])] + SplitFrom(b, []);
    } else if n > 0 {
      assert text[n..] == a[n..] + "\n" + b && first[n..] == a[n..] + "\n";
      SplitBreak(a[n..], b, []);
      assert [Line(line, text[..n])] + (SplitFrom(first[n..], []) + SplitFrom(b, [])) ==
             [Line(line, text[..n])] + SplitFrom(first[n..], []) + SplitFrom(b, []);
    } else {
      assert text[1..] == a[1..] + "\n" + b && first[1..] == a[1..] + "\n";
      SplitBreak(a[1..], b, line + [a[0]]);
    }
  }

  /** The lines that are not empty, without their breaks. */
  function Written(lines: seq<Line>): seq<string> {
    if lines == [] then [] else (if lines[0].body == [] then [] else [lines[0].body]) + Written(lines[1..])
  }

  lemma {:induction false} WrittenConcat(a: seq<Line>, b: seq<Line>)
    ensures Written(a + b) == Written(a) + Written(b)
  {
    if a == [] {
      assert a + b == b;
    } else {
      assert (a + b)[1..] == a[1..] + b;
      WrittenConcat(a[1..], b);
    }
  }

  lemma {:induction false} WrittenMembers(lines: seq<Line>, body: string)
    ensures body in Written(lines) <==> body != [] && exists l :: l in lines && l.body == body
  {
    if lines != [] {
      WrittenMembers(lines[1..], body);
      assert lines == [lines[0]] + lines[1..];
    }
  }

  /** Ending a text with one more newline adds no line but possibly an empty one. */
  lemma {:induction false} FinalNewline(a: string, line: string)
    ensures Written(SplitFrom(a + "\n", line)) == Written(SplitFrom(a, line))
    decreases |a|
  {
    var text := a + "\n";
    var n := BreakAt(text);
    if n == |text| {
      assert text[n..] == [];
      if a != [] {
        assert BreakAt(a) == 1 && a[1..] == [];
      }
    } else if n > 0 {
      assert BreakAt(a) == n && text[n..] == a[n..] + "\n" && text[..n] == a[..n];
      FinalNewline(a[n..], []);
      WrittenConcat([Line(line, a[..n])], SplitFrom(a[n..], []));
      WrittenConcat([Line(line, a[..n])], SplitFrom(text[n..], []));
    } else {
      assert text[1..] == a[1..] + "\n";
      FinalNewline(a[1..], line + [a[0]]);
    }
  }

  predicate AllNewlines(text: string) {
    forall c :: c in text ==> c == '\n'
  }

  /** Stripping removes newlines only, and all of them that end the text. */
  lemma {:induction false} StripIsExact(text: string)
    ensures var kept := StripNewlines(text);
      kept <= text && AllNewlines(text[|kept|..]) && (kept != [] ==> kept[|kept| - 1] != '\n')
    ensures Written(SplitLines(StripNewlines(text))) == Written(SplitLines(text))
  {
    hide SplitFrom, Written;
    if text != [] && text[|text| - 1] == '\n' {
      var shorter := text[..|text| - 1];
      StripIsExact(shorter);
      FinalNewline(shorter, []);
      assert shorter + "\n" == text;
      var kept := StripNewlines(text);
      assert text[|kept|..] == shorter[|kept|..] + "\n";
    }
  }

  /** Trimming removes newlines only, and all of them at both ends. */
  lemma {:induction false} TrimIsExact(text: string) returns (before: string, after: string)
    ensures text == before + TrimNewlines(text) + after && AllNewlines(before) && AllNewlines(after)
    ensures var kept := TrimNewlines(text); kept != [] ==> kept[0] != '\n' && kept[|kept| - 1] != '\n'
  {
    if text != [] && text[0] == '\n' {
      var inner, kept := text[1..], TrimNewlines(text[1..]);
      before, after := TrimIsExact(inner);
      assert TrimNewlines(text) == kept;
      hide TrimNewlines, AllNewlines;
      FirstBack(text, before, kept, after);
      before := [text[0]] + before;
    } else {
      assert TrimNewlines(text) == StripNewlines(text);
      hide TrimNewlines, StripNewlines;
      OnlyTheEnd(text);
      before, after := [], text[|StripNewlines(text)|..];
    }
  }

  lemma OnlyTheEnd(text: string)
    requires text != [] ==> text[0] != '\n'
    ensures var kept := StripNewlines(text);
      |kept| <= |text| && text == [] + kept + text[|kept|..] && AllNewlines([]) && AllNewlines(text[|kept|..]) &&
      (kept != [] ==> kept[0] != '\n' && kept[|kept| - 1] != '\n')
  {
    hide StripNewlines, SplitFrom, Written;
    StripIsExact(text);
  }

  lemma FirstBack(text: string, before: string, kept: string, after: string)
    requires text != [] && text[1..] == before + kept + after
    ensures text == ([text[0]] + before) + kept + after
    ensures text[0] == '\n' && AllNewlines(before) ==> AllNewlines([text[0]] + before)
  {
  }

  /** On a file without an opening marker line the block goes to the end, on a line of its own: what stands there is
      kept up to the newlines that end it, and no line is lost but empty ones. */
  lemma AppendAtEndKeepsText(text: string, addition: string) returns (kept: string)
    requires !HasOpening(SplitLines(text))
    ensures AppendText(text, addition) == kept + "\n" + addition + "\n"
    ensures kept <= text && AllNewlines(text[|kept|..])
    ensures kept != [] ==> kept[|kept| - 1] != '\n'
    ensures Written(SplitLines(AppendText(text, addition))) ==
      Written(SplitLines(text)) + Written(SplitLines(addition))
  {
    hide SplitFrom, Contains, HasOpening, Scan, LastClosing;
    OpenedHasInsertionPoint(SplitLines(text));
    kept := StripNewlines(text);
    StripIsExact(text);
    SplitBreak(kept, addition + "\n", []);
    assert kept + "\n" + addition + "\n" == kept + "\n" + (addition + "\n");
    WrittenConcat(SplitFrom(kept + "\n", []), SplitFrom(addition + "\n", []));
    FinalNewline(kept, []);
    FinalNewline(addition, []);
  }

  // ----- line breaks do not matter to the scan -----

  lemma {:induction false} NormalLength(lines: seq<Line>)
    ensures |Normal(lines)| == |lines|
  {
    if lines != [] {
      NormalLength(lines[1..]);
    }
  }

  lemma {:induction false} NormalConcat(a: seq<Line>, b: seq<Line>)
    ensures Normal(a + b) == Normal(a) + Normal(b)
  {
    if a == [] {
      assert a + b == b;
    } else {
      assert (a + b)[1..] == a[1..] + b;
      NormalConcat(a[1..], b);
    }
  }

  lemma NormalSnoc(lines: seq<Line>, l: Line)
    ensures Normal(lines + [l]) == Normal(lines) + [Line(l.body, "\n")]
  {
    NormalConcat(lines, [l]);
    assert [l][1..] == [];
  }

  lemma {:induction false} NormalTwice(lines: seq<Line>)
    ensures Normal(Normal(lines)) == Normal(lines)
  {
    if lines != [] {
      NormalTwice(lines[1..]);
    }
  }

  lemma {:induction false} ScanNormal(lines: seq<Line>)
    ensures var s := Scan(lines);
      Scan(Normal(lines)) == Split(Normal(s.contract), Normal(s.context), s.open) &&
      LastClosing(Normal(lines)) == LastClosing(lines) && |Normal(lines)| == |lines|
    decreases |lines|
  {
    hide KindOf, Normal;
    NormalLength(lines);
    if lines == [] {
      NormalLength([]);
    } else {
      var front, last := lines[..|lines| - 1], lines[|lines| - 1];
      ScanNormal(front);
      assert lines == front + [last];
      NormalSnoc(front, last);
      assert Normal(lines)[..|lines| - 1] == Normal(front);
      NormalSnoc(Scan(front).contract, last);
      NormalSnoc(Scan(front).context, last);
    }
  }

  lemma InsertNormal(lines: seq<Line>, at: nat, addition: seq<Line>)
    requires at <= |lines|
    ensures |Normal(lines)| == |lines|
    ensures Normal(InsertedAt(Normal(lines), at, addition)) == Normal(InsertedAt(lines, at, addition))
  {
    hide Normal;
    var n := Normal(lines);
    NormalLength(lines);
    assert lines == lines[..at] + lines[at..];
    NormalLength(lines[..at]);
    NormalConcat(lines[..at], lines[at..]);
    assert n[..at] == Normal(lines[..at]) && n[at..] == Normal(lines[at..]);
    NormalTwice(lines[..at]);
    NormalTwice(lines[at..]);
    NormalConcat(n[..at], addition);
    NormalConcat(n[..at] + addition, n[at..]);
    NormalConcat(lines[..at], addition);
    NormalConcat(lines[..at] + addition, lines[at..]);
  }

  // ----- the theorems -----

  /** The contract lines a text resolves to. */
  function ContractLines(text: string): seq<string> {
    if !Contains(text, CONTRACT_MARKER) then [] else Bodies(Scan(SplitLines(text)).contract)
  }

  function ContextLines(text: string): seq<string> {
    if !Contains(text, CONTRACT_MARKER) then Bodies(SplitLines(text)) else Bodies(Scan(SplitLines(text)).context)
  }

  lemma {:induction false} BodiesConcat(a: seq<Line>, b: seq<Line>)
    ensures Bodies(a + b) == Bodies(a) + Bodies(b)
  {
    if a == [] {
      assert a + b == b;
    } else {
      assert (a + b)[1..] == a[1..] + b;
      BodiesConcat(a[1..], b);
    }
  }

  lemma {:induction false} BodiesNormal(lines: seq<Line>)
    ensures Bodies(Normal(lines)) == Bodies(lines)
  {
    if lines != [] {
      BodiesNormal(lines[1..]);
      assert Normal(lines)[1..] == Normal(lines[1..]);
    }
  }

  /** Appending writes the lines of the file with the added ones in place. */
  lemma AppendedLines(text: string, addition: string)
    requires HasOpening(SplitLines(text))
    ensures InsertionPoint(SplitLines(text)) >= 0
    ensures SplitLines(AppendText(text, addition)) ==
      Normal(InsertedAt(SplitLines(text), InsertionPoint(SplitLines(text)), SplitLines(addition)))
  {
    hide Contains, HasOpening, KindOf, Scan, LastClosing, SplitFrom;
    var lines, added := SplitLines(text), SplitLines(addition);
    OpeningMeansMarker(text);
    OpenedHasInsertionPoint(lines);
    var after := InsertedAt(lines, InsertionPoint(lines), added);
    SplitGivesLines(text, []);
    SplitGivesLines(addition, []);
    forall l | l in after ensures IsLine(l.body) {
      assert l in lines || l in added;
    }
    SplitOfJoin(after);
  }

  lemma NormalHasOpening(lines: seq<Line>)
    ensures HasOpening(Normal(lines)) <==> HasOpening(lines)
  {
    NeverOpened(lines);
    ScanNormal(lines);
    NeverOpened(Normal(lines));
  }

  /** Appending a marker-free block to a file with an opening marker line and splitting the result
      again: the contract lines are the old ones followed by the block's, the context lines are
      unchanged, and the file still has its opening line. */
  lemma AppendThenSplit(text: string, addition: string)
    requires HasOpening(SplitLines(text)) && MarkerFree(SplitLines(addition))
    ensures var after := AppendText(text, addition);
      ContractLines(after) == ContractLines(text) + Bodies(SplitLines(addition)) &&
      ContextLines(after) == ContextLines(text) && HasOpening(SplitLines(after))
    ensures var before := Scan(SplitLines(text));
      SplitText(AppendText(text, addition)) ==
        ContractSplit(true, TrimNewlines(TextOf(Normal(before.contract + SplitLines(addition)))),
          TextOf(Normal(before.context)))
  {
    hide Contains, HasOpening, KindOf, SplitLines, InsertedAt, AppendText, InsertionPoint, TextOf, MarkerFree, Normal,
      Scan;
    var lines, added, after := SplitLines(text), SplitLines(addition), AppendText(text, addition);
    AppendedLines(text, addition);
    InsertLandsInContract(lines, added);
    var inserted := InsertedAt(lines, InsertionPoint(lines), added);
    ScanNormal(inserted);
    NormalHasOpening(inserted);
    OpeningMeansMarker(text);
    OpeningMeansMarker(after);
    BodiesNormal(Scan(inserted).contract);
    BodiesNormal(Scan(inserted).context);
    BodiesConcat(Scan(lines).contract, added);
  }

  /** In a file whose lines all end in newlines the context stays the same text. */
  lemma AppendKeepsContextText(text: string, addition: string)
    requires HasOpening(SplitLines(text)) && MarkerFree(SplitLines(addition))
    requires forall l :: l in SplitLines(text) ==> l.end == "\n"
    ensures SplitText(AppendText(text, addition)).context == SplitText(text).context
  {
    hide Contains, HasOpening, AppendText, KindOf, TextOf;
    var lines := SplitLines(text);
    AppendThenSplit(text, addition);
    OpeningMeansMarker(text);
    ScanNormal(lines);
    AlreadyNormal(lines);
  }

  lemma {:induction false} AlreadyNormal(lines: seq<Line>)
    requires forall l :: l in lines ==> l.end == "\n"
    ensures Normal(lines) == lines
  {
    if lines != [] {
      AlreadyNormal(lines[1..]);
    }
  }

  /** A file without the marker splits to itself as context, and no line of it opens a contract. */
  lemma UnmarkeredIsAllContext(text: string)
    requires !Contains(text, CONTRACT_MARKER)
    ensures SplitText(text) == ContractSplit(false, "", text) && !HasOpening(SplitLines(text))
    ensures TextOf(SplitLines(text)) == text && ContextLines(text) == Bodies(SplitLines(text))
  {
    if HasOpening(SplitLines(text)) {
      OpeningMeansMarker(text);
    }
    SplitKeepsText(text, []);
    assert [] + text == text;
  }

  /** A non-empty marker-free block becomes contract exactly when the file has an opening marker
      line; a marker inside a longer line is not enough. */
  lemma AppendIsBindingIff(text: string, addition: string)
    requires MarkerFree(SplitLines(addition)) && SplitLines(addition) != []
    ensures ContractLines(AppendText(text, addition)) == ContractLines(text) + Bodies(SplitLines(addition)) <==>
      HasOpening(SplitLines(text))
  {
    if HasOpening(SplitLines(text)) {
      AppendThenSplit(text, addition);
    } else {
      hide Contains;
      var kept := AppendAtEndKeepsText(text, addition);
      var lines := SplitLines(AppendText(text, addition));
      forall l | l in lines ensures KindOf(l.body) != OpensContract {
        EmptyLineIsPlain();
        WrittenMembers(lines, l.body);
        WrittenMembers(SplitLines(text), l.body);
        WrittenMembers(SplitLines(addition), l.body);
      }
      NoContractWithoutOpening(SplitLines(text));
      NoContractWithoutOpening(lines);
    }
  }

  lemma EmptyLineIsPlain()
    ensures KindOf([]) == Plain
  {
  }

  /** Recording two blocks one after the other is recording their lines together. */
  lemma AppendsCompose(text: string, a: string, b: string)
    requires HasOpening(SplitLines(text)) && MarkerFree(SplitLines(a)) && MarkerFree(SplitLines(b))
    ensures InsertionPoint(SplitLines(text)) >= 0
    ensures AppendText(AppendText(text, a), b) ==
      TextOf(Normal(InsertedAt(SplitLines(text), InsertionPoint(SplitLines(text)), SplitLines(a) + SplitLines(b))))
  {
    hide Contains, SplitLines, InsertedAt, Scan, LastClosing, HasOpening, Normal;
    var lines, la, lb := SplitLines(text), SplitLines(a), SplitLines(b);
    OpenedHasInsertionPoint(lines);
    var at := InsertionPoint(lines);
    AppendThenSplit(text, a);
    AppendedLines(text, a);
    var once := InsertedAt(lines, at, la);
    InsertionPointMoves(lines, la);
    ScanNormal(once);
    InsertTwice(lines, at, la, lb);
    InsertNormal(once, at + |la|, lb);
    OpeningMeansMarker(AppendText(text, a));
  }

  lemma InsertTwice(lines: seq<Line>, at: nat, a: seq<Line>, b: seq<Line>)
    requires at <= |lines|
    ensures at + |a| <= |InsertedAt(lines, at, a)|
    ensures InsertedAt(InsertedAt(lines, at, a), at + |a|, b) == InsertedAt(lines, at, a + b)
  {
    var once := InsertedAt(lines, at, a);
    assert once[..at + |a|] == lines[..at] + a && once[at + |a|..] == lines[at..];
  }

  // ----- blocks with markers in them -----

  /** Scanning collects at most one contract line for each line, and fewer when one of them is a marker. */
  lemma {:induction false} ContractGrowth(s: Split, lines: seq<Line>)
    ensures |ScanFrom(s, lines).contract| <= |s.contract| + |lines|
    ensures !MarkerFree(lines) ==> |ScanFrom(s, lines).contract| < |s.contract| + |lines|
    decreases |lines|
  {
    hide KindOf;
    if lines != [] {
      var front, last := lines[..|lines| - 1], lines[|lines| - 1];
      ContractGrowth(s, front);
      assert lines == front + [last];
    }
  }

  /** From a closing marker on, without an opening one, nothing is collected, whatever came before. */
  lemma {:induction false} ClosedCollectsNothing(s: Split, lines: seq<Line>)
    requires forall l :: l in lines ==> KindOf(l.body) != OpensContract
    requires lines != [] ==> KindOf(lines[0].body) == OpensContext
    ensures ScanFrom(s, lines).contract == s.contract
    ensures lines != [] ==> !ScanFrom(s, lines).open
    decreases |lines|
  {
    hide KindOf;
    if |lines| > 1 {
      ClosedCollectsNothing(s, lines[..|lines| - 1]);
    }
  }

  /** What an insertion with a marker in it adds to the contract is less than what is inserted. */
  lemma InsertWithMarker(lines: seq<Line>, addition: seq<Line>)
    requires InsertionPoint(lines) >= 0 && !MarkerFree(addition)
    ensures |Scan(InsertedAt(lines, InsertionPoint(lines), addition)).contract| < |Scan(lines).contract| + |addition|
  {
    hide KindOf, MarkerFree;
    var at := InsertionPoint(lines);
    var before, after := lines[..at], lines[at..];
    assert lines == before + after;
    ScanConcat(before + addition, after);
    ScanConcat(before, addition);
    ContractGrowth(Scan(before), addition);
    if Scan(lines).open {
      assert before == lines && after == [];
    } else {
      AfterLastClosing(lines);
    }
    ClosedCollectsNothing(Scan(before + addition), after);
  }

  lemma {:induction false} BodiesLength(lines: seq<Line>)
    ensures |Bodies(lines)| == |lines|
  {
    if lines != [] {
      BodiesLength(lines[1..]);
    }
  }

  /** On a file with an opening marker line, a block becomes contract line by line exactly when none of its lines is
      a marker. */
  lemma BindingIffMarkerFree(text: string, addition: string)
    requires HasOpening(SplitLines(text))
    ensures ContractLines(AppendText(text, addition)) == ContractLines(text) + Bodies(SplitLines(addition)) <==>
      MarkerFree(SplitLines(addition))
  {
    hide HasOpening, KindOf, SplitLines, InsertedAt, AppendText, InsertionPoint, MarkerFree, Normal, Scan, Contains,
      Bodies;
    if MarkerFree(SplitLines(addition)) {
      AppendThenSplit(text, addition);
    } else {
      var lines, added := SplitLines(text), SplitLines(addition);
      AppendedWithMarker(text, addition);
      OpeningMeansMarker(text);
      InsertWithMarker(lines, added);
      var inserted := InsertedAt(lines, InsertionPoint(lines), added);
      ScanNormal(inserted);
      BodiesNormal(Scan(inserted).contract);
      BodiesLength(Scan(inserted).contract);
      BodiesLength(Scan(lines).contract);
      BodiesLength(added);
    }
  }

  /** Whatever is appended, the lines written are those of the file with the added ones in place. */
  lemma AppendedWithMarker(text: string, addition: string)
    requires HasOpening(SplitLines(text))
    ensures InsertionPoint(SplitLines(text)) >= 0
    ensures SplitLines(AppendText(text, addition)) ==
      Normal(InsertedAt(SplitLines(text), InsertionPoint(SplitLines(text)), SplitLines(addition)))
    ensures HasOpening(SplitLines(AppendText(text, addition))) && Contains(AppendText(text, addition), CONTRACT_MARKER)
  {
    hide Contains, KindOf, Scan, LastClosing, SplitFrom, Normal;
    AppendedLines(text, addition);
    var lines, added := SplitLines(text), SplitLines(addition);
    var inserted := InsertedAt(lines, InsertionPoint(lines), added);
    var l :| l in lines && KindOf(l.body) == OpensContract;
    assert l in inserted;
    NormalHasOpening(inserted);
    OpeningMeansMarker(AppendText(text, addition));
  }
}
