/** What intake records in the domain-knowledge file: answered questions and assumptions. */
module IntakeNotes {
  import opened WhiteSpace
  import opened Contract

  /** The lines joined by newlines, without a final one. */
  function JoinLines(lines: seq<string>): string {
    if lines == [] then "" else if |lines| == 1 then lines[0] else lines[0] + "\n" + JoinLines(lines[1..])
  }

  function AnswerLines(questions: seq<string>, answers: seq<string>): seq<string> {
    if answers == [] then []
    else
      var n := |answers| - 1;
      AnswerLines(questions, answers[..n]) +
        ["- **Q:** " + (if n < |questions| then questions[n] else "(additional)"), "  **A:** " + answers[n]]
  }

  function ClarificationLines(questions: seq<string>, answers: seq<string>): seq<string> {
    ["", "## Clarifications", ""] + AnswerLines(questions, answers)
  }

  function Items(assumptions: seq<string>): seq<string> {
    if assumptions == [] then [] else Items(assumptions[..|assumptions| - 1]) + ["- " + assumptions[|assumptions| - 1]]
  }

  function AssumptionLines(assumptions: seq<string>): seq<string> {
    ["", "## Assumptions", ""] + Items(assumptions)
  }

  /** Record the answers; an answer beyond the questions is marked as additional. */
  method AppendClarifications(existing: string, questions: seq<string>, answers: seq<string>) returns (written: string)
    ensures written == AppendText(existing, JoinLines(ClarificationLines(questions, answers)))
  {
    var lines := ["", "## Clarifications", ""];
    var i := 0;
    while i < |answers|
      invariant 0 <= i <= |answers| && lines == ClarificationLines(questions, answers[..i])
    {
      assert answers[..i + 1][..i] == answers[..i];
      var question := if i < |questions| then questions[i] else "(additional)";
      lines := lines + ["- **Q:** " + question, "  **A:** " + answers[i]];
      i := i + 1;
    }
    assert answers[..i] == answers;
    written := AppendBlock(existing, JoinLines(lines));
  }

  /** Record the assumptions of a final round. */
  method AppendAssumptions(existing: string, assumptions: seq<string>) returns (written: string)
    ensures written == AppendText(existing, "\n## Assumptions\n\n" + JoinLines(Items(assumptions)))
  {
    var items: seq<string> := [];
    var i := 0;
    while i < |assumptions|
      invariant 0 <= i <= |assumptions| && items == Items(assumptions[..i])
    {
      assert assumptions[..i + 1][..i] == assumptions[..i];
      items := items + ["- " + assumptions[i]];
      i := i + 1;
    }
    assert assumptions[..i] == assumptions;
    written := AppendBlock(existing, "\n## Assumptions\n\n" + JoinLines(items));
  }

  // ----- the lines that are written -----

  lemma {:induction false} SplitUnbroken(text: string, sofar: string)
    requires IsLine(text)
    ensures SplitFrom(text, sofar) == if sofar + text == [] then [] else [Line(sofar + text, "")]
    decreases |text|
  {
    if text == [] {
      assert sofar + text == sofar;
    } else {
      assert text[0] in text;
      SplitUnbroken(text[1..], sofar + [text[0]]);
      assert sofar + [text[0]] + text[1..] == sofar + text;
    }
  }

  /** Lines without breaks, the last one not empty, are what their join splits into. */
  lemma {:induction false} SplitOfJoinLines(lines: seq<string>)
    requires (forall l :: l in lines ==> IsLine(l)) && lines != [] && lines[|lines| - 1] != ""
    ensures Bodies(SplitLines(JoinLines(lines))) == lines
  {
    if |lines| == 1 {
      SplitUnbroken(lines[0], []);
      assert [] + lines[0] == lines[0];
      assert Bodies([Line(lines[0], "")]) == [lines[0]];
    } else {
      var rest := lines[1..];
      SplitOfJoinLines(rest);
      SplitOneLine(lines[0], [], JoinLines(rest));
      assert [] + lines[0] == lines[0];
      assert SplitLines(JoinLines(lines))[1..] == SplitLines(JoinLines(rest));
    }
  }

  /** Stripping keeps the first character that is not white space. */
  lemma {:induction false} StripEndKeeps(line: string, i: nat)
    requires i < |line| && !IsSpace(line[i])
    ensures i < |StripEnd(line)| && StripEnd(line) <= line
  {
    if IsSpace(line[|line| - 1]) {
      StripEndKeeps(line[..|line| - 1], i);
    }
  }

  lemma {:induction false} StripStartKeeps(line: string, i: nat)
    requires i < |line| && !IsSpace(line[i]) && forall j :: 0 <= j < i ==> IsSpace(line[j])
    ensures StripStart(line) != "" && StripStart(line)[0] == line[i]
  {
    if i > 0 {
      StripStartKeeps(line[1..], i - 1);
    }
  }

  /** A line that starts, after white space, with anything but a bracket is no marker. */
  lemma StartsPlain(line: string, i: nat)
    requires i < |line| && !IsSpace(line[i]) && line[i] != '<' && forall j :: 0 <= j < i ==> IsSpace(line[j])
    ensures KindOf(line) == Plain
  {
    StripEndKeeps(line, i);
    StripStartKeeps(StripEnd(line), i);
    assert CONTRACT_MARKER[0] == '<' && CONTEXT_MARKER[0] == '<';
  }

  ghost predicate Unbroken(lines: seq<string>) {
    forall l :: l in lines ==> IsLine(l)
  }

  /** Recorded lines are plain and unbroken when what was asked, answered and assumed is unbroken. */
  lemma {:induction false} AnswerLinesArePlain(questions: seq<string>, answers: seq<string>)
    requires Unbroken(questions) && Unbroken(answers)
    ensures forall l :: l in AnswerLines(questions, answers) ==> IsLine(l) && KindOf(l) == Plain && l != ""
    ensures answers != [] ==> AnswerLines(questions, answers) != []
  {
    hide KindOf;
    if answers != [] {
      var n := |answers| - 1;
      AnswerLinesArePlain(questions, answers[..n]);
      var question := if n < |questions| then questions[n] else "(additional)";
      NoteIsPlain("- **Q:** ", question, 0);
      NoteIsPlain("  **A:** ", answers[n], 2);
    }
  }

  lemma NoteIsPlain(prefix: string, text: string, i: nat)
    requires IsLine(prefix) && IsLine(text) && i < |prefix| && !IsSpace(prefix[i]) && prefix[i] != '<'
    requires forall j :: 0 <= j < i ==> IsSpace(prefix[j])
    ensures IsLine(prefix + text) && KindOf(prefix + text) == Plain && prefix + text != ""
  {
    StartsPlain(prefix + text, i);
  }

  lemma {:induction false} ItemsArePlain(assumptions: seq<string>)
    requires Unbroken(assumptions)
    ensures forall l :: l in Items(assumptions) ==> IsLine(l) && KindOf(l) == Plain && l != ""
    ensures assumptions != [] ==> Items(assumptions) != []
  {
    hide KindOf;
    if assumptions != [] {
      ItemsArePlain(assumptions[..|assumptions| - 1]);
      NoteIsPlain("- ", assumptions[|assumptions| - 1], 0);
    }
  }

  lemma HeadingsArePlain()
    ensures KindOf("## Clarifications") == Plain && KindOf("## Assumptions") == Plain && KindOf("") == Plain
  {
    StartsPlain("## Clarifications", 0);
    StartsPlain("## Assumptions", 0);
  }

  lemma {:induction false} BodiesKinds(lines: seq<Line>)
    ensures MarkerFree(lines) <==> forall l :: l in Bodies(lines) ==> KindOf(l) == Plain
  {
    hide KindOf;
    if lines != [] {
      BodiesKinds(lines[1..]);
      assert lines == [lines[0]] + lines[1..];
    }
  }

  // ----- the theorems -----

  /** A block of unbroken plain lines lands in the contract line by line. */
  lemma NotesAreBinding(existing: string, lines: seq<string>)
    requires HasOpening(SplitLines(existing)) && lines != [] && lines[|lines| - 1] != ""
    requires forall l :: l in lines ==> IsLine(l) && KindOf(l) == Plain
    ensures var after := AppendText(existing, JoinLines(lines));
      ContractLines(after) == ContractLines(existing) + lines && ContextLines(after) == ContextLines(existing) &&
      HasOpening(SplitLines(after))
  {
    hide HasOpening, KindOf, ContractLines, ContextLines, AppendText, SplitLines, JoinLines;
    SplitOfJoinLines(lines);
    BodiesKinds(SplitLines(JoinLines(lines)));
    AppendThenSplit(existing, JoinLines(lines));
  }

  /** On a markered file, whatever was asked and answered becomes contract line by line exactly when no line of it is
      a marker. */
  lemma ClarificationsAreBindingIff(existing: string, questions: seq<string>, answers: seq<string>)
    requires HasOpening(SplitLines(existing))
    ensures var block := JoinLines(ClarificationLines(questions, answers));
      ContractLines(AppendText(existing, block)) == ContractLines(existing) + Bodies(SplitLines(block)) <==>
        MarkerFree(SplitLines(block))
  {
    BindingIffMarkerFree(existing, JoinLines(ClarificationLines(questions, answers)));
  }

  /** Without line breaks neither a question nor an answer can pass for a marker: the answers become contract lines
      under their questions, and the context is unchanged. */
  lemma ClarificationsAreBinding(existing: string, questions: seq<string>, answers: seq<string>)
    requires HasOpening(SplitLines(existing)) && Unbroken(questions) && Unbroken(answers)
    ensures var after := AppendText(existing, JoinLines(ClarificationLines(questions, answers)));
      ContractLines(after) == ContractLines(existing) + Recorded(questions, answers) &&
      ContextLines(after) == ContextLines(existing) && HasOpening(SplitLines(after))
  {
    hide HasOpening, KindOf, ContractLines, ContextLines, AppendText, SplitLines, JoinLines, AnswerLines;
    AnswerLinesArePlain(questions, answers);
    HeadingsArePlain();
    var lines, notes := ClarificationLines(questions, answers), AnswerLines(questions, answers);
    if answers == [] {
      NoAnswers(questions);
      NothingAnswered(existing);
    } else {
      assert lines[|lines| - 1] == notes[|notes| - 1] && notes[|notes| - 1] in notes;
      NotesAreBinding(existing, lines);
    }
  }

  /** The lines that are recorded: without an answer, the empty one at the end is lost. */
  function Recorded(questions: seq<string>, answers: seq<string>): seq<string> {
    if answers == [] then ["", "## Clarifications"] else ClarificationLines(questions, answers)
  }

  lemma NoAnswers(questions: seq<string>)
    ensures ClarificationLines(questions, []) == ["", "## Clarifications", ""]
  {
  }

  lemma NothingAnswered(existing: string)
    requires HasOpening(SplitLines(existing))
    ensures var after := AppendText(existing, JoinLines(["", "## Clarifications", ""]));
      ContractLines(after) == ContractLines(existing) + ["", "## Clarifications"] &&
      ContextLines(after) == ContextLines(existing) && HasOpening(SplitLines(after))
  {
    hide HasOpening, KindOf, ContractLines, ContextLines, AppendText;
    var block := JoinLines(["", "## Clarifications", ""]);
    HeadingsArePlain();
    EmptyHeading(block);
    hide SplitLines, JoinLines;
    BodiesKinds(SplitLines(block));
    AppendThenSplit(existing, block);
  }

  lemma EmptyHeading(block: string)
    requires block == JoinLines(["", "## Clarifications", ""])
    ensures Bodies(SplitLines(block)) == ["", "## Clarifications"]
  {
    hide JoinLines, SplitLines, Bodies;
    HeadingIsLine("## Clarifications");
    TitleAlone("## Clarifications");
  }

  lemma HeadingIsLine(title: string)
    requires title == "## Clarifications"
    ensures IsLine(title)
  {
  }

  lemma TitleAlone(title: string)
    requires IsLine(title)
    ensures Bodies(SplitLines(JoinLines(["", title, ""]))) == ["", title]
  {
    JoinThree("", title, "");
    SplitTwo("", title);
    BodiesOfTwo(Line("", "\n"), Line(title, "\n"));
  }

  lemma SplitTwo(a: string, b: string)
    requires IsLine(a) && IsLine(b)
    ensures SplitLines(a + "\n" + (b + "\n" + "")) == [Line(a, "\n"), Line(b, "\n")]
  {
    SplitOneLine(a, [], b + "\n" + "");
    SplitOneLine(b, [], "");
    assert [] + a == a && [] + b == b;
    assert SplitFrom("", []) == [];
  }

  lemma BodiesOfTwo(a: Line, b: Line)
    ensures Bodies([a, b]) == [a.body, b.body]
  {
    assert [a, b][1..] == [b];
    assert Bodies([b]) == [b.body];
  }

  lemma JoinThree(a: string, b: string, c: string)
    ensures JoinLines([a, b, c]) == a + "\n" + (b + "\n" + c)
  {
    assert [a, b, c][1..] == [b, c] && [b, c][1..] == [c];
    assert JoinLines([b, c]) == b + "\n" + c;
  }

  lemma {:induction false} AnswersStand(questions: seq<string>, answers: seq<string>, i: nat)
    requires i < |answers|
    ensures var lines := AnswerLines(questions, answers);
      |lines| == 2 * |answers| && lines[2 * i + 1] == "  **A:** " + answers[i] &&
      lines[2 * i] == "- **Q:** " + if i < |questions| then questions[i] else "(additional)"
  {
    var front := answers[..|answers| - 1];
    if i < |front| {
      AnswersStand(questions, front, i);
    } else if front != [] {
      AnswersStand(questions, front, 0);
    }
  }

  /** Every answer stands in the contract, each right under its question, in order, below the heading. */
  lemma EveryAnswerIsRecorded(existing: string, questions: seq<string>, answers: seq<string>, i: nat)
    requires HasOpening(SplitLines(existing)) && Unbroken(questions) && Unbroken(answers) && i < |answers|
    ensures var before := ContractLines(existing);
      var after := ContractLines(AppendText(existing, JoinLines(ClarificationLines(questions, answers))));
      |after| == |before| + 3 + 2 * |answers| && after[..|before|] == before &&
      after[|before|..|before| + 3] == ["", "## Clarifications", ""] &&
      after[|before| + 3 + 2 * i] == "- **Q:** " + (if i < |questions| then questions[i] else "(additional)") &&
      after[|before| + 3 + 2 * i + 1] == "  **A:** " + answers[i]
  {
    hide HasOpening, ContractLines, ContextLines, AppendText, SplitLines, JoinLines, AnswerLines;
    ClarificationsAreBinding(existing, questions, answers);
    AnswersStand(questions, answers, i);
    ThreeParts(ContractLines(existing), ["", "## Clarifications", ""], AnswerLines(questions, answers));
  }

  lemma ThreeParts<T>(a: seq<T>, b: seq<T>, c: seq<T>)
    ensures var all := a + (b + c);
      all[..|a|] == a && all[|a|..|a| + |b|] == b && |all| == |a| + |b| + |c| &&
      forall i :: 0 <= i < |c| ==> all[|a| + |b| + i] == c[i]
  {
  }

  lemma {:induction false} ItemsStand(assumptions: seq<string>, i: nat)
    requires i < |assumptions|
    ensures |Items(assumptions)| == |assumptions| && Items(assumptions)[i] == "- " + assumptions[i]
  {
    var front := assumptions[..|assumptions| - 1];
    if i < |front| {
      ItemsStand(front, i);
    } else if front != [] {
      ItemsStand(front, 0);
    }
  }

  /** Answers that are given again after a crash, because the process died between writing the file and saving the
      round, are recorded twice. */
  lemma AnswersRecordedTwice(existing: string, questions: seq<string>, answers: seq<string>)
    requires HasOpening(SplitLines(existing)) && Unbroken(questions) && Unbroken(answers)
    ensures var block := JoinLines(ClarificationLines(questions, answers));
      ContractLines(AppendText(AppendText(existing, block), block)) ==
        ContractLines(existing) + Recorded(questions, answers) + Recorded(questions, answers)
  {
    hide HasOpening, ContractLines, ContextLines, AppendText, SplitLines, JoinLines, Recorded, ClarificationLines;
    var block := JoinLines(ClarificationLines(questions, answers));
    ClarificationsAreBinding(existing, questions, answers);
    ClarificationsAreBinding(AppendText(existing, block), questions, answers);
  }

  /** So do assumptions. */
  lemma AssumptionsAreBinding(existing: string, assumptions: seq<string>)
    requires HasOpening(SplitLines(existing)) && assumptions != [] && Unbroken(assumptions)
    ensures var after := AppendText(existing, "\n## Assumptions\n\n" + JoinLines(Items(assumptions)));
      ContractLines(after) == ContractLines(existing) + AssumptionLines(assumptions) &&
      ContextLines(after) == ContextLines(existing)
  {
    hide HasOpening, KindOf, ContractLines, ContextLines, AppendText, SplitLines, Items;
    ItemsArePlain(assumptions);
    HeadingsArePlain();
    var lines, items := AssumptionLines(assumptions), Items(assumptions);
    assert lines[|lines| - 1] == items[|items| - 1] && items[|items| - 1] in items;
    AssumptionBlock(items);
    hide JoinLines;
    NotesAreBinding(existing, lines);
  }

  lemma AssumptionBlock(items: seq<string>)
    requires items != []
    ensures JoinLines(["", "## Assumptions", ""] + items) == "\n## Assumptions\n\n" + JoinLines(items)
  {
    HeadedBlock("## Assumptions", items);
    hide JoinLines;
    assert "\n" + "## Assumptions" + "\n\n" == "\n## Assumptions\n\n";
  }

  lemma HeadedBlock(title: string, items: seq<string>)
    requires items != []
    ensures JoinLines(["", title, ""] + items) == "\n" + title + "\n\n" + JoinLines(items)
  {
    var all := ["", title, ""] + items;
    assert all[1..] == [title, ""] + items && all[1..][1..] == [""] + items && all[1..][1..][1..] == items;
    assert JoinLines([""] + items) == "" + "\n" + JoinLines(items);
    assert JoinLines([title, ""] + items) == title + "\n" + JoinLines([""] + items);
    assert JoinLines(all) == "" + "\n" + JoinLines([title, ""] + items);
  }
}
