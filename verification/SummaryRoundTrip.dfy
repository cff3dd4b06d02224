/** Exactly which summaries survive being printed and parsed back. */
module SummaryRoundTrip {
  import opened Text
  import opened SummaryMarkdown

  // ---- The condition, in terms a caller can check ----

  /** One non-empty line without white space at its ends. */
  predicate Plain(line: string) {
    line != "" && Trimmed(line) && '\n' !in line
  }

  /** A plain line that does not start like a bullet and is not the placeholder. */
  predicate Faithful(line: string) {
    Plain(line) && !IsBullet(line[0]) && line != PLACEHOLDER
  }

  function GoalLines(goal: string): seq<string> {
    if goal == "" then [] else Split(goal)
  }

  predicate AllFaithful(lines: seq<string>) {
    forall line :: line in lines ==> Faithful(line)
  }

  predicate AllMarked(lines: seq<string>, mark: string -> bool) {
    forall line :: line in lines ==> Faithful(line) && mark(line)
  }

  predicate IsPreference(line: string) {
    !IsConstraint(line)
  }

  predicate IsOpenTask(line: string) {
    !IsNextStep(line)
  }

  predicate NotHeading(line: string) {
    !HasPrefix(line, "## ")
  }

  predicate WellFormed(s: Summary) {
    && AllMarked(GoalLines(s.currentGoal), NotHeading)
    && AllMarked(s.preferences, IsPreference) && AllMarked(s.constraints, IsConstraint)
    && AllFaithful(s.decisions) && AllFaithful(s.completedWork) && AllFaithful(s.modifiedFiles)
    && AllFaithful(s.toolVerification) && AllFaithful(s.problems)
    && AllMarked(s.openTasks, IsOpenTask) && AllMarked(s.nextSteps, IsNextStep)
    && AllFaithful(s.references)
  }

  predicate AllPlain(lines: seq<string>) {
    forall line :: line in lines ==> Plain(line)
  }

  predicate PlainSummary(s: Summary) {
    && AllPlain(GoalLines(s.currentGoal))
    && AllPlain(s.preferences) && AllPlain(s.constraints)
    && AllPlain(s.decisions) && AllPlain(s.completedWork) && AllPlain(s.modifiedFiles)
    && AllPlain(s.toolVerification) && AllPlain(s.problems)
    && AllPlain(s.openTasks) && AllPlain(s.nextSteps)
    && AllPlain(s.references)
  }

  // ---- Whatever the parser returns is made of plain lines ----

  lemma {:induction false} TrimKeepsAbsence(s: string, cut: char -> bool, c: char)
    requires c !in s
    ensures c !in TrimLeft(s, cut) && c !in TrimRight(s, cut)
    decreases |s|
  {
    if s != "" {
      TrimKeepsAbsence(s[1..], cut, c);
      TrimKeepsAbsence(s[..|s| - 1], cut, c);
    }
  }

  lemma StripIsPlain(line: string)
    requires '\n' !in line && Strip(line) != ""
    ensures Plain(Strip(line))
  {
    var a := TrimLeft(line, IsSpace);
    TrimKeepsAbsence(line, IsSpace, '\n');
    TrimKeepsAbsence(a, IsSpace, '\n');
    var b := TrimSpace(line);
    TrimKeepsAbsence(b, IsBullet, '\n');
    var d := TrimLeft(b, IsBullet);
    TrimKeepsAbsence(d, IsSpace, '\n');
    TrimKeepsAbsence(TrimLeft(d, IsSpace), IsSpace, '\n');
    TrimSpaceFixesTrimmed(d);
  }

  lemma {:induction false} SplitSingle(line: string)
    requires '\n' !in line
    ensures Split(line) == [line]
  {
    if line != "" {
      SplitSingle(line[1..]);
      assert [line[0]] + line[1..] == line;
    }
  }

  lemma GoalGrows(goal: string, line: string)
    requires Plain(line)
    ensures GoalLines(AppendText(goal, line)) == GoalLines(goal) + [line]
  {
    SplitSingle(line);
    SplitConcat(goal, line);
  }

  lemma AddLineKeepsPlain(s: Summary, section: Kind, line: string)
    requires PlainSummary(s) && Plain(line)
    ensures PlainSummary(AddLine(s, section, line))
  {
    hide Plain, IsConstraint, IsNextStep, GoalLines, AppendText;
    GoalGrows(s.currentGoal, line);
  }

  lemma StepKeepsPlain(st: State, line: string)
    requires PlainSummary(st.summary) && '\n' !in line
    ensures PlainSummary(Step(st, line).summary)
  {
    hide Strip, IsHeading, AddLine, PlainSummary, Plain;
    if !IsHeading(line) && !Dropped(Strip(line)) {
      StripIsPlain(line);
      AddLineKeepsPlain(st.summary, st.section, Strip(line));
    }
  }

  lemma {:induction false} FoldKeepsPlain(st: State, lines: seq<string>)
    requires PlainSummary(st.summary)
    requires forall line :: line in lines ==> '\n' !in line
    ensures PlainSummary(Fold(st, lines).summary)
    decreases lines
  {
    if lines != [] {
      StepKeepsPlain(st, lines[0]);
      FoldKeepsPlain(Step(st, lines[0]), lines[1..]);
    }
  }

  lemma ParseIsPlain(markdown: string)
    ensures PlainSummary(Parse(markdown))
  {
    FoldKeepsPlain(START, Split(markdown));
  }

  // ---- The lines a plain summary prints ----

  function ItemLines(values: seq<string>): (lines: seq<string>)
    ensures |lines| == |values|
    ensures forall i :: 0 <= i < |values| ==> lines[i] == "- " + values[i]
  {
    if values == [] then [] else ["- " + values[0]] + ItemLines(values[1..])
  }

  function SectionLines(kind: Kind, body: seq<string>): seq<string> {
    ["## " + Title(kind)] + if body == [] then ["- " + PLACEHOLDER] else body
  }

  function ListLines(s: Summary): seq<string> {
    SectionLines(Preferences, ItemLines(s.preferences + s.constraints))
    + SectionLines(Decisions, ItemLines(s.decisions))
    + SectionLines(Completed, ItemLines(s.completedWork))
    + SectionLines(Files, ItemLines(s.modifiedFiles))
    + SectionLines(Verification, ItemLines(s.toolVerification))
    + SectionLines(Problems, ItemLines(s.problems))
    + SectionLines(Tasks, ItemLines(s.openTasks + s.nextSteps))
    + SectionLines(References, ItemLines(s.references))
  }

  function Lines(s: Summary): seq<string> {
    SectionLines(Goal, GoalLines(s.currentGoal)) + ListLines(s)
  }

  lemma {:induction false} ItemsAreLines(values: seq<string>)
    requires AllPlain(values)
    ensures Items(values) == Unlines(ItemLines(values))
  {
    if values != [] {
      TrimSpaceFixesTrimmed(values[0]);
      assert Plain(values[0]);
      ItemsAreLines(values[1..]);
      assert ItemLines(values)[1..] == ItemLines(values[1..]);
    }
  }

  lemma ListSectionIsLines(kind: Kind, values: seq<string>)
    requires AllPlain(values)
    ensures Section(kind, "", values) == Unlines(SectionLines(kind, ItemLines(values)))
  {
    ItemsAreLines(values);
    var body := if values == [] then ["- " + PLACEHOLDER] else ItemLines(values);
    assert TrimSpace("") == "";
    assert Unlines(["- " + PLACEHOLDER]) == "- " + PLACEHOLDER + "\n" + "";
    UnlinesAppend(["## " + Title(kind)], body);
    assert Unlines(["## " + Title(kind)]) == "## " + Title(kind) + "\n" + "";
    assert Section(kind, "", values) == ("## " + Title(kind) + "\n") + "" + Unlines(body);
  }

  lemma SplitStart(s: string)
    requires s != ""
    ensures Split(s)[0] != "" ==> Split(s)[0][0] == s[0]
  {
  }

  lemma InFrontEnd(c: char, lines: seq<string>)
    requires lines != []
    ensures var r := InFront(c, lines);
            r[|r| - 1] == if |lines| > 1 || c == '\n' then lines[|lines| - 1] else [c] + lines[0]
  {
  }

  lemma {:induction false} SplitEnd(s: string)
    requires s != ""
    ensures var last := Split(s)[|Split(s)| - 1];
            last != "" ==> last[|last| - 1] == s[|s| - 1]
  {
    var rest := Split(s[1..]);
    InFrontEnd(s[0], rest);
    assert Split(s) == InFront(s[0], rest);
    if |s| > 1 {
      SplitEnd(s[1..]);
      assert s[1..][|s| - 2] == s[|s| - 1];
      SplitIsOne(s[1..]);
    } else {
      assert rest == [""];
    }
    hide Split, InFront;
  }

  lemma SplitIsOne(s: string)
    requires s != ""
    ensures Split(s) != [""]
  {
    if s[0] != '\n' {
      assert Split(s)[0] == [s[0]] + Split(s[1..])[0];
    }
  }

  lemma GoalSectionIsLines(goal: string)
    requires AllPlain(GoalLines(goal))
    ensures Section(Goal, goal, []) == Unlines(SectionLines(Goal, GoalLines(goal)))
  {
    if goal == "" {
      ListSectionIsLines(Goal, []);
    } else {
      var lines := Split(goal);
      SplitStart(goal);
      SplitEnd(goal);
      assert Plain(lines[0]) && Plain(lines[|lines| - 1]);
      TrimSpaceFixesTrimmed(goal);
      UnlinesSplit(goal);
      UnlinesAppend(["## " + Title(Goal)], lines);
      assert Unlines(["## " + Title(Goal)]) == "## " + Title(Goal) + "\n" + "";
      assert Items([]) == "";
    }
  }

  lemma DocumentIsLines(s: Summary)
    requires PlainSummary(s)
    ensures Document(s) == Unlines(Lines(s))
  {
    var a0 := SectionLines(Goal, GoalLines(s.currentGoal));
    var a1 := SectionLines(Preferences, ItemLines(s.preferences + s.constraints));
    var a2 := SectionLines(Decisions, ItemLines(s.decisions));
    var a3 := SectionLines(Completed, ItemLines(s.completedWork));
    var a4 := SectionLines(Files, ItemLines(s.modifiedFiles));
    var a5 := SectionLines(Verification, ItemLines(s.toolVerification));
    var a6 := SectionLines(Problems, ItemLines(s.problems));
    var a7 := SectionLines(Tasks, ItemLines(s.openTasks + s.nextSteps));
    var a8 := SectionLines(References, ItemLines(s.references));
    GoalSectionIsLines(s.currentGoal);
    ListSectionIsLines(Preferences, s.preferences + s.constraints);
    ListSectionIsLines(Decisions, s.decisions);
    ListSectionIsLines(Completed, s.completedWork);
    ListSectionIsLines(Files, s.modifiedFiles);
    ListSectionIsLines(Verification, s.toolVerification);
    ListSectionIsLines(Problems, s.problems);
    ListSectionIsLines(Tasks, s.openTasks + s.nextSteps);
    ListSectionIsLines(References, s.references);
    UnlinesAppend(a1, a2);
    UnlinesAppend(a1 + a2, a3);
    UnlinesAppend(a1 + a2 + a3, a4);
    UnlinesAppend(a1 + a2 + a3 + a4, a5);
    UnlinesAppend(a1 + a2 + a3 + a4 + a5, a6);
    UnlinesAppend(a1 + a2 + a3 + a4 + a5 + a6, a7);
    UnlinesAppend(a1 + a2 + a3 + a4 + a5 + a6 + a7, a8);
    UnlinesAppend(a0, ListLines(s));
    Regroup(Unlines(a0), Unlines(a1), Unlines(a2), Unlines(a3), Unlines(a4), Unlines(a5), Unlines(a6), Unlines(a7), Unlines(a8));
  }

  lemma Regroup(x0: string, x1: string, x2: string, x3: string, x4: string, x5: string, x6: string, x7: string, x8: string)
    ensures "" + x0 + x1 + x2 + x3 + x4 + x5 + x6 + x7 + x8 == x0 + (x1 + x2 + x3 + x4 + x5 + x6 + x7 + x8)
  {
  }

  /** Printing and parsing a plain summary is folding the parser over its printed lines. */
  lemma ReparseIsFold(s: Summary)
    requires PlainSummary(s)
    ensures Parse(Render(s)) == Fold(START, Lines(s)).summary
  {
    ParseIgnoresOuterSpace(Document(s));
    DocumentIsLines(s);
    SplitUnlines(Lines(s)) by {
      LinesHaveNoBreaks(s);
    }
    FoldAppend(START, Lines(s), [""]);
    BlankLine(Fold(START, Lines(s)));
    assert Fold(Fold(START, Lines(s)), [""]) == Step(Fold(START, Lines(s)), "");
  }

  predicate NoBreaks(lines: seq<string>) {
    forall line :: line in lines ==> '\n' !in line
  }

  lemma TitleHasNoBreak(kind: Kind)
    ensures '\n' !in Title(kind)
  {
  }

  lemma GoalHasNoBreaks(goal: string)
    requires AllPlain(GoalLines(goal))
    ensures NoBreaks(SectionLines(Goal, GoalLines(goal)))
  {
  }

  lemma SectionHasNoBreaks(kind: Kind, values: seq<string>)
    requires AllPlain(values)
    ensures NoBreaks(SectionLines(kind, ItemLines(values)))
  {
    TitleHasNoBreak(kind);
    var body := ItemLines(values);
    forall line | line in body ensures '\n' !in line {
      var i :| 0 <= i < |body| && body[i] == line;
      assert Plain(values[i]);
    }
  }

  lemma NoBreaksConcat(a: seq<string>, b: seq<string>)
    requires NoBreaks(a) && NoBreaks(b)
    ensures NoBreaks(a + b)
  {
  }

  lemma LinesHaveNoBreaks(s: Summary)
    requires PlainSummary(s)
    ensures NoBreaks(Lines(s))
  {
    var a0 := SectionLines(Goal, GoalLines(s.currentGoal));
    var a1 := SectionLines(Preferences, ItemLines(s.preferences + s.constraints));
    var a2 := SectionLines(Decisions, ItemLines(s.decisions));
    var a3 := SectionLines(Completed, ItemLines(s.completedWork));
    var a4 := SectionLines(Files, ItemLines(s.modifiedFiles));
    var a5 := SectionLines(Verification, ItemLines(s.toolVerification));
    var a6 := SectionLines(Problems, ItemLines(s.problems));
    var a7 := SectionLines(Tasks, ItemLines(s.openTasks + s.nextSteps));
    var a8 := SectionLines(References, ItemLines(s.references));
    hide Title, SectionLines, ItemLines, GoalLines, NoBreaks, Plain;
    SectionHasNoBreaks(Preferences, s.preferences + s.constraints);
    SectionHasNoBreaks(Decisions, s.decisions);
    SectionHasNoBreaks(Completed, s.completedWork);
    SectionHasNoBreaks(Files, s.modifiedFiles);
    SectionHasNoBreaks(Verification, s.toolVerification);
    SectionHasNoBreaks(Problems, s.problems);
    SectionHasNoBreaks(Tasks, s.openTasks + s.nextSteps);
    SectionHasNoBreaks(References, s.references);
    GoalHasNoBreaks(s.currentGoal);
    hide *;
    NoBreaksConcat(a1, a2);
    NoBreaksConcat(a1 + a2, a3);
    NoBreaksConcat(a1 + a2 + a3, a4);
    NoBreaksConcat(a1 + a2 + a3 + a4, a5);
    NoBreaksConcat(a1 + a2 + a3 + a4 + a5, a6);
    NoBreaksConcat(a1 + a2 + a3 + a4 + a5 + a6, a7);
    NoBreaksConcat(a1 + a2 + a3 + a4 + a5 + a6 + a7, a8);
    NoBreaksConcat(a0, a1 + a2 + a3 + a4 + a5 + a6 + a7 + a8);
    LinesAreSections(s);
  }

  lemma LinesAreSections(s: Summary)
    ensures Lines(s) ==
            SectionLines(Goal, GoalLines(s.currentGoal))
            + (SectionLines(Preferences, ItemLines(s.preferences + s.constraints))
               + SectionLines(Decisions, ItemLines(s.decisions))
               + SectionLines(Completed, ItemLines(s.completedWork))
               + SectionLines(Files, ItemLines(s.modifiedFiles))
               + SectionLines(Verification, ItemLines(s.toolVerification))
               + SectionLines(Problems, ItemLines(s.problems))
               + SectionLines(Tasks, ItemLines(s.openTasks + s.nextSteps))
               + SectionLines(References, ItemLines(s.references)))
  {
  }

  // ---- What the parser makes of those lines ----

  /** The entries the parser keeps of a list of lines. */
  function Kept(lines: seq<string>): seq<string> {
    if lines == [] then []
    else (if Dropped(Strip(lines[0])) then [] else [Strip(lines[0])]) + Kept(lines[1..])
  }

  function AddAll(s: Summary, section: Kind, lines: seq<string>): Summary
    decreases lines
  {
    if lines == [] then s else AddAll(AddLine(s, section, lines[0]), section, lines[1..])
  }

  lemma ItemLine(value: string)
    requires Plain(value)
    ensures !IsHeading("- " + value) && Strip("- " + value) == Strip(value)
  {
    var line := "- " + value;
    assert line[|line| - 1] == value[|value| - 1];
    TrimSpaceFixesTrimmed(line);
    TrimSpaceFixesTrimmed(value);
    assert line[1..] == " " + value && line[1..][1..] == value;
    assert TrimLeft(line, IsBullet) == TrimLeft(line[1..], IsBullet) == TrimLeft(value, IsBullet);
    assert line[0] == '-' && "## "[0] == '#';
  }

  lemma HeadingNames(st: State, title: string)
    requires title != "" && Trimmed(title)
    ensures Step(st, "## " + title) == State(KindOf(title), st.summary)
  {
    var line := "## " + title;
    assert line[|line| - 1] == title[|title| - 1];
    TrimSpaceFixesTrimmed(line);
    TrimSpaceFixesTrimmed(title);
    assert line[3..] == title && line[..3] == "## ";
  }

  lemma HeadingLine(st: State, kind: Kind)
    requires kind != Unknown
    ensures Step(st, "## " + Title(kind)) == State(kind, st.summary)
  {
    TitlesAreDistinct(kind);
    assert Title(kind) != "" && Trimmed(Title(kind));
    HeadingNames(st, Title(kind));
  }

  lemma {:induction false} FoldItems(st: State, values: seq<string>)
    requires AllPlain(values)
    ensures Fold(st, ItemLines(values)) == State(st.section, AddAll(st.summary, st.section, Kept(values)))
    decreases values
  {
    hide Strip, AddLine, IsHeading, Dropped;
    if values != [] {
      var lines := ItemLines(values);
      var item := Strip(values[0]);
      ItemLine(values[0]);
      var next := Step(st, lines[0]);
      FoldItems(next, values[1..]);
      assert lines[1..] == ItemLines(values[1..]);
      if Dropped(item) {
        assert Kept(values) == Kept(values[1..]);
      } else {
        assert Kept(values)[1..] == Kept(values[1..]);
      }
    }
  }

  lemma FoldListSection(st: State, kind: Kind, values: seq<string>)
    requires AllPlain(values) && kind != Unknown
    ensures Fold(st, SectionLines(kind, ItemLines(values))) == State(kind, AddAll(st.summary, kind, Kept(values)))
  {
    hide Step, Strip, AddLine, IsHeading, Dropped;
    var body := if values == [] then ["- " + PLACEHOLDER] else ItemLines(values);
    HeadingLine(st, kind);
    assert SectionLines(kind, ItemLines(values))[1..] == body;
    var mid := State(kind, st.summary);
    assert Fold(st, SectionLines(kind, ItemLines(values))) == Fold(mid, body);
    if values == [] {
      PlaceholderLine(mid);
      assert Fold(mid, body) == Step(mid, body[0]);
    } else {
      FoldItems(mid, values);
    }
  }

  lemma PlaceholderLine(st: State)
    ensures Step(st, "- " + PLACEHOLDER) == st
  {
    assert Plain(PLACEHOLDER);
    ItemLine(PLACEHOLDER);
    FaithfulIsKept(PLACEHOLDER);
  }

  lemma FaithfulIsKept(line: string)
    requires Plain(line)
    ensures !IsBullet(line[0]) <==> Strip(line) == line
    ensures Faithful(line) <==> Strip(line) == line && !Dropped(line)
  {
  }

  function Filter(lines: seq<string>, p: string -> bool): seq<string> {
    if lines == [] then [] else (if p(lines[0]) then [lines[0]] else []) + Filter(lines[1..], p)
  }

  /** All entries of one list section at once. */
  function Put(s: Summary, section: Kind, k: seq<string>): Summary {
    match section
    case Preferences => s.(preferences := s.preferences + Filter(k, IsPreference), constraints := s.constraints + Filter(k, IsConstraint))
    case Decisions => s.(decisions := s.decisions + k)
    case Completed => s.(completedWork := s.completedWork + k)
    case Files => s.(modifiedFiles := s.modifiedFiles + k)
    case Verification => s.(toolVerification := s.toolVerification + k)
    case Problems => s.(problems := s.problems + k)
    case Tasks => s.(openTasks := s.openTasks + Filter(k, IsOpenTask), nextSteps := s.nextSteps + Filter(k, IsNextStep))
    case References => s.(references := s.references + k)
    case _ => s
  }

  lemma Shift(a: seq<string>, x: string, b: seq<string>)
    ensures (a + [x]) + b == a + ([x] + b)
    ensures a + b == a + ([] + b)
  {
  }

  lemma PutOne(s: Summary, section: Kind, x: string, k: seq<string>)
    requires section != Goal
    ensures Put(AddLine(s, section, x), section, k) == Put(s, section, [x] + k)
  {
    hide IsConstraint, IsNextStep;
    assert ([x] + k)[1..] == k;
    match section
    case Preferences =>
      Shift(s.preferences, x, Filter(k, IsPreference));
      Shift(s.constraints, x, Filter(k, IsConstraint));
    case Decisions => Shift(s.decisions, x, k);
    case Completed => Shift(s.completedWork, x, k);
    case Files => Shift(s.modifiedFiles, x, k);
    case Verification => Shift(s.toolVerification, x, k);
    case Problems => Shift(s.problems, x, k);
    case Tasks =>
      Shift(s.openTasks, x, Filter(k, IsOpenTask));
      Shift(s.nextSteps, x, Filter(k, IsNextStep));
    case References => Shift(s.references, x, k);
    case Unknown =>
  }

  lemma {:induction false} AddAllIsPut(s: Summary, section: Kind, k: seq<string>)
    requires section != Goal
    ensures AddAll(s, section, k) == Put(s, section, k)
    decreases k
  {
    hide AddLine;
    if k == [] {
      assert forall a: seq<string> :: a + [] == a;
    } else {
      AddAllIsPut(AddLine(s, section, k[0]), section, k[1..]);
      PutOne(s, section, k[0], k[1..]);
      assert [k[0]] + k[1..] == k;
    }
  }

  /** What the list sections parse back to, on top of a summary that holds only a goal. */
  function ReparsedLists(s: Summary, goal: string): Summary {
    var merged := Kept(s.preferences + s.constraints);
    var tasks := Kept(s.openTasks + s.nextSteps);
    Summary(goal,
            Filter(merged, IsPreference), Filter(merged, IsConstraint),
            Kept(s.decisions), Kept(s.completedWork), Kept(s.modifiedFiles),
            Kept(s.toolVerification), Kept(s.problems),
            Filter(tasks, IsOpenTask), Filter(tasks, IsNextStep),
            Kept(s.references))
  }

  lemma FoldLists(st: State, s: Summary)
    requires PlainSummary(s)
    ensures Fold(st, ListLines(s)).summary.currentGoal == st.summary.currentGoal
    ensures st.summary == EMPTY.(currentGoal := st.summary.currentGoal) ==>
              Fold(st, ListLines(s)).summary == ReparsedLists(s, st.summary.currentGoal)
  {
    var a1 := SectionLines(Preferences, ItemLines(s.preferences + s.constraints));
    var a2 := SectionLines(Decisions, ItemLines(s.decisions));
    var a3 := SectionLines(Completed, ItemLines(s.completedWork));
    var a4 := SectionLines(Files, ItemLines(s.modifiedFiles));
    var a5 := SectionLines(Verification, ItemLines(s.toolVerification));
    var a6 := SectionLines(Problems, ItemLines(s.problems));
    var a7 := SectionLines(Tasks, ItemLines(s.openTasks + s.nextSteps));
    var a8 := SectionLines(References, ItemLines(s.references));
    hide Step, Strip, SectionLines, ItemLines, Kept, Filter, IsConstraint, IsNextStep, AddAll, Fold, Plain, AddLine;
    FoldAppend(st, a1 + a2 + a3 + a4 + a5 + a6 + a7, a8);
    FoldAppend(st, a1 + a2 + a3 + a4 + a5 + a6, a7);
    FoldAppend(st, a1 + a2 + a3 + a4 + a5, a6);
    FoldAppend(st, a1 + a2 + a3 + a4, a5);
    FoldAppend(st, a1 + a2 + a3, a4);
    FoldAppend(st, a1 + a2, a3);
    FoldAppend(st, a1, a2);
    var s1 := FoldPut(st, Preferences, s.preferences + s.constraints);
    var s2 := FoldPut(s1, Decisions, s.decisions);
    var s3 := FoldPut(s2, Completed, s.completedWork);
    var s4 := FoldPut(s3, Files, s.modifiedFiles);
    var s5 := FoldPut(s4, Verification, s.toolVerification);
    var s6 := FoldPut(s5, Problems, s.problems);
    var s7 := FoldPut(s6, Tasks, s.openTasks + s.nextSteps);
    var s8 := FoldPut(s7, References, s.references);
    assert forall a: seq<string> :: [] + a == a;
  }

  lemma FoldPut(st: State, kind: Kind, values: seq<string>) returns (next: State)
    requires AllPlain(values) && kind != Unknown && kind != Goal
    ensures next == Fold(st, SectionLines(kind, ItemLines(values)))
    ensures next == State(kind, Put(st.summary, kind, Kept(values)))
  {
    hide Step;
    next := Fold(st, SectionLines(kind, ItemLines(values)));
    FoldListSection(st, kind, values);
    AddAllIsPut(st.summary, kind, Kept(values));
  }

  // ---- The goal: every line that becomes a heading or is dropped makes it shorter ----

  lemma {:induction false} GoalLinesBound(st: State, lines: seq<string>)
    requires NoBreaks(lines) && AllPlain(GoalLines(st.summary.currentGoal))
    ensures |GoalLines(Fold(st, lines).summary.currentGoal)| <= |GoalLines(st.summary.currentGoal)| + |lines|
    ensures |GoalLines(Fold(st, lines).summary.currentGoal)| == |GoalLines(st.summary.currentGoal)| + |lines|
            ==> forall line :: line in lines ==> !IsHeading(line) && !Dropped(Strip(line))
    decreases lines
  {
    hide IsHeading, Strip, GoalLines, IsConstraint, IsNextStep, Plain;
    if lines != [] {
      var line := lines[0];
      var next := Step(st, line);
      if !IsHeading(line) && !Dropped(Strip(line)) {
        StripIsPlain(line);
        GoalGrows(st.summary.currentGoal, Strip(line));
      }
      assert |GoalLines(next.summary.currentGoal)| <= |GoalLines(st.summary.currentGoal)| + 1;
      assert AllPlain(GoalLines(next.summary.currentGoal));
      GoalLinesBound(next, lines[1..]);
    }
  }

  lemma {:induction false} FoldGoal(summary: Summary, lines: seq<string>)
    requires NoBreaks(lines) && AllPlain(GoalLines(summary.currentGoal))
    requires forall line :: line in lines ==> !IsHeading(line)
    ensures var r := Fold(State(Goal, summary), lines);
            && r == State(Goal, summary.(currentGoal := r.summary.currentGoal))
            && GoalLines(r.summary.currentGoal) == GoalLines(summary.currentGoal) + Kept(lines)
    decreases lines
  {
    hide IsHeading, Strip, GoalLines, IsConstraint, IsNextStep, Plain;
    if lines != [] {
      var line := lines[0];
      var next := Step(State(Goal, summary), line);
      if Dropped(Strip(line)) {
        assert Kept(lines) == Kept(lines[1..]);
      } else {
        StripIsPlain(line);
        GoalGrows(summary.currentGoal, Strip(line));
        assert GoalLines(summary.currentGoal) + [Strip(line)] + Kept(lines[1..]) == GoalLines(summary.currentGoal) + Kept(lines);
      }
      FoldGoal(next.summary, lines[1..]);
    }
  }

  // ---- The two directions ----

  lemma {:induction false} KeptFaithful(lines: seq<string>)
    requires AllPlain(lines)
    ensures |Kept(lines)| <= |lines|
    ensures Kept(lines) == lines <==> AllFaithful(lines)
  {
    hide Plain, Strip, Faithful;
    if lines != [] {
      KeptFaithful(lines[1..]);
      FaithfulIsKept(lines[0]);
      if Dropped(Strip(lines[0])) {
        assert |Kept(lines)| < |lines|;
      } else {
        assert Kept(lines)[1..] == Kept(lines[1..]) && Kept(lines)[0] == Strip(lines[0]);
        assert forall line :: line in lines <==> line == lines[0] || line in lines[1..];
      }
    }
  }

  lemma Assoc(a: seq<string>, b: seq<string>, c: seq<string>)
    ensures (a + b) + c == a + (b + c)
  {
  }

  lemma {:induction false} KeptConcat(a: seq<string>, b: seq<string>)
    ensures Kept(a + b) == Kept(a) + Kept(b)
    decreases a
  {
    hide Strip, Dropped;
    if a == [] {
      assert a + b == b;
    } else {
      KeptConcat(a[1..], b);
      assert (a + b)[1..] == a[1..] + b;
      var head := if Dropped(Strip(a[0])) then [] else [Strip(a[0])];
      Assoc(head, Kept(a[1..]), Kept(b));
    }
  }

  lemma {:induction false} FilterConcat(a: seq<string>, b: seq<string>, p: string -> bool)
    ensures Filter(a + b, p) == Filter(a, p) + Filter(b, p)
  {
    if a == [] {
      assert a + b == b;
    } else {
      FilterConcat(a[1..], b, p);
      assert (a + b)[1..] == a[1..] + b;
      Assoc(if p(a[0]) then [a[0]] else [], Filter(a[1..], p), Filter(b, p));
    }
  }

  lemma {:induction false} FilterMembers(lines: seq<string>, p: string -> bool)
    ensures forall line :: line in Filter(lines, p) <==> line in lines && p(line)
    ensures (forall line :: line in lines ==> p(line)) ==> Filter(lines, p) == lines
    ensures (forall line :: line in lines ==> !p(line)) ==> Filter(lines, p) == []
  {
    if lines != [] {
      FilterMembers(lines[1..], p);
      assert [lines[0]] + lines[1..] == lines;
      assert forall line :: line in lines <==> line == lines[0] || line in lines[1..];
    }
  }

  lemma MergedKept(a: seq<string>, b: seq<string>, p: string -> bool, q: string -> bool)
    requires AllPlain(a) && AllPlain(b)
    requires forall line :: p(line) <==> !q(line)
    requires AllMarked(a, p) && AllMarked(b, q)
    ensures Filter(Kept(a + b), p) == a && Filter(Kept(a + b), q) == b
  {
    hide Faithful, Plain, Kept, Filter;
    KeptConcat(a, b);
    KeptFaithful(a);
    KeptFaithful(b);
    FilterConcat(a, b, p);
    FilterConcat(a, b, q);
    FilterMembers(a, p);
    FilterMembers(a, q);
    FilterMembers(b, p);
    FilterMembers(b, q);
  }

  lemma KeptMarked(a: seq<string>, b: seq<string>, p: string -> bool, q: string -> bool)
    requires AllPlain(a) && AllPlain(b)
    requires forall line :: p(line) <==> !q(line)
    requires forall line :: Plain(line) && q(line) ==> Faithful(line)
    requires Filter(Kept(a + b), p) == a && Filter(Kept(a + b), q) == b
    ensures AllMarked(a, p) && AllMarked(b, q)
  {
    hide Faithful, Plain, Kept, Filter;
    var k := Kept(a + b);
    FilterMembers(k, p);
    FilterMembers(k, q);
    KeptConcat(a, b);
    assert AllMarked(b, q);
    KeptFaithful(b);
    FilterConcat(Kept(a), b, p);
    FilterConcat(Kept(a), b, q);
    FilterMembers(b, p);
    FilterMembers(b, q);
    assert |Filter(Kept(a), q) + b| == |b|;
    assert Filter(Kept(a), q) == [];
    FilterMembers(Kept(a), p);
    FilterMembers(Kept(a), q);
    assert Filter(Kept(a), p) + [] == Kept(a);
    KeptFaithful(a);
  }

  /**
   * Two lists printed into one section and told apart by a marker `q` come back
   * unchanged exactly when all lines are faithful and carry the marker of their list.
   */
  lemma MergedSection(a: seq<string>, b: seq<string>, p: string -> bool, q: string -> bool)
    requires AllPlain(a) && AllPlain(b)
    requires forall line :: p(line) <==> !q(line)
    requires forall line :: Plain(line) && q(line) ==> Faithful(line)
    ensures (Filter(Kept(a + b), p) == a && Filter(Kept(a + b), q) == b) <==> (AllMarked(a, p) && AllMarked(b, q))
  {
    hide Faithful, Plain, Kept, Filter, AllMarked, AllPlain;
    if AllMarked(a, p) && AllMarked(b, q) {
      MergedKept(a, b, p, q);
    }
    if Filter(Kept(a + b), p) == a && Filter(Kept(a + b), q) == b {
      KeptMarked(a, b, p, q);
    }
  }

  lemma MarkedIsFaithful(line: string)
    requires Plain(line)
    ensures IsConstraint(line) ==> Faithful(line)
    ensures IsNextStep(line) ==> Faithful(line)
  {
  }

  lemma GoalLinesInjective(a: string, b: string)
    requires GoalLines(a) == GoalLines(b)
    ensures a == b
  {
    if a != "" && b != "" {
      UnlinesSplit(a);
      UnlinesSplit(b);
      assert (a + "\n")[..|a|] == a && (b + "\n")[..|b|] == b;
    }
  }

  /** The goal section alone: it reproduces the goal exactly when no line of it is a heading or unfaithful. */
  lemma GoalSection(goal: string) returns (st: State)
    requires AllPlain(GoalLines(goal))
    ensures st == Fold(START, SectionLines(Goal, GoalLines(goal)))
    ensures st.summary.currentGoal == goal
            <==> AllMarked(GoalLines(goal), NotHeading)
    ensures st.summary.currentGoal == goal ==> st.summary == EMPTY.(currentGoal := goal)
  {
    hide Strip, IsConstraint, IsNextStep, Dropped, IsBullet;
    var lines := GoalLines(goal);
    var mid := State(Goal, EMPTY);
    HeadingLine(START, Goal);
    st := Fold(START, SectionLines(Goal, lines));
    if goal == "" {
      PlaceholderLine(mid);
      assert SectionLines(Goal, lines)[1..] == ["- " + PLACEHOLDER];
      assert Fold(mid, ["- " + PLACEHOLDER]) == Step(mid, "- " + PLACEHOLDER);
    } else {
      assert SectionLines(Goal, lines)[1..] == lines;
      GoalText(goal, mid);
    }
  }

  lemma GoalText(goal: string, mid: State)
    requires goal != "" && mid == State(Goal, EMPTY) && AllPlain(GoalLines(goal))
    ensures var st := Fold(mid, GoalLines(goal));
            && (st.summary.currentGoal == goal <==> AllMarked(GoalLines(goal), NotHeading))
            && (st.summary.currentGoal == goal ==> st.summary == EMPTY.(currentGoal := goal))
  {
    hide Strip, IsConstraint, IsNextStep, Dropped, IsBullet;
    var lines := GoalLines(goal);
    var st := Fold(mid, lines);
    forall line | line in lines ensures IsHeading(line) <==> HasPrefix(line, "## ") {
      TrimSpaceFixesTrimmed(line);
    }
    hide Plain, HasPrefix, IsHeading;
    GoalLinesBound(mid, lines);
    KeptFaithful(lines);
    if st.summary.currentGoal == goal || (forall line :: line in lines ==> !HasPrefix(line, "## ")) {
      assert forall line :: line in lines ==> !IsHeading(line);
      FoldGoal(EMPTY, lines);
      assert GoalLines(st.summary.currentGoal) == Kept(lines);
    }
    if Kept(lines) == lines && (forall line :: line in lines ==> !HasPrefix(line, "## ")) {
      GoalLinesInjective(st.summary.currentGoal, goal);
    }
  }

  /** The lists alone. */
  lemma ListSections(s: Summary)
    requires PlainSummary(s)
    requires AllMarked(GoalLines(s.currentGoal), NotHeading)
    ensures ReparsedLists(s, s.currentGoal) == s <==> WellFormed(s)
  {
    forall line | Plain(line) ensures IsConstraint(line) ==> Faithful(line) {
      MarkedIsFaithful(line);
    }
    forall line | Plain(line) ensures IsNextStep(line) ==> Faithful(line) {
      MarkedIsFaithful(line);
    }
    hide Plain, Strip, Dropped, Faithful, IsConstraint, IsNextStep, Filter, Kept, AllMarked, AllFaithful, AllPlain;
    MergedSection(s.preferences, s.constraints, IsPreference, IsConstraint);
    MergedSection(s.openTasks, s.nextSteps, IsOpenTask, IsNextStep);
    KeptFaithful(s.decisions);
    KeptFaithful(s.completedWork);
    KeptFaithful(s.modifiedFiles);
    KeptFaithful(s.toolVerification);
    KeptFaithful(s.problems);
    KeptFaithful(s.references);
    assert ReparsedLists(s, s.currentGoal) == s <==>
      && Filter(Kept(s.preferences + s.constraints), IsPreference) == s.preferences
      && Filter(Kept(s.preferences + s.constraints), IsConstraint) == s.constraints
      && Kept(s.decisions) == s.decisions && Kept(s.completedWork) == s.completedWork
      && Kept(s.modifiedFiles) == s.modifiedFiles && Kept(s.toolVerification) == s.toolVerification
      && Kept(s.problems) == s.problems
      && Filter(Kept(s.openTasks + s.nextSteps), IsOpenTask) == s.openTasks
      && Filter(Kept(s.openTasks + s.nextSteps), IsNextStep) == s.nextSteps
      && Kept(s.references) == s.references;
  }

  lemma WellFormedIsPlain(s: Summary)
    requires WellFormed(s)
    ensures PlainSummary(s)
  {
  }

  /** Printing a summary and parsing it back returns it exactly when the summary is well formed. */
  lemma RoundTrip(s: Summary)
    ensures Parse(Render(s)) == s <==> WellFormed(s)
  {
    hide WellFormed, Render, Parse, Fold, PlainSummary, ReparsedLists, ListLines, Faithful, SectionLines;
    if Parse(Render(s)) == s {
      ParseIsPlain(Render(s));
    }
    if WellFormed(s) {
      WellFormedIsPlain(s);
    }
    if PlainSummary(s) {
      RoundTripOfPlain(s);
    }
  }

  lemma RoundTripOfPlain(s: Summary)
    requires PlainSummary(s)
    ensures Parse(Render(s)) == s <==> WellFormed(s)
  {
    ReparseIsFold(s);
    FoldAppend(START, SectionLines(Goal, GoalLines(s.currentGoal)), ListLines(s));
    var st := GoalSection(s.currentGoal);
    FoldLists(st, s);
    if st.summary.currentGoal == s.currentGoal {
      ListSections(s);
    }
  }

  /** The failing side is not empty: a decision that begins like a bullet loses its first characters. */
  lemma BulletedItemChanges()
    ensures var s := EMPTY.(decisions := ["- keep"]);
            Parse(Render(s)) != s
  {
    var s := EMPTY.(decisions := ["- keep"]);
    assert "- keep" in s.decisions && !Faithful("- keep");
    RoundTrip(s);
    hide Parse, Render, Faithful;
  }

  // ---- The written form ----

  /** The items a section shows: trimmed, and without the blank ones. */
  function Tidied(values: seq<string>): seq<string> {
    if values == [] then []
    else (if TrimSpace(values[0]) != "" then [TrimSpace(values[0])] else []) + Tidied(values[1..])
  }

  /** Whatever its items are, a section shows each of them that is not blank, trimmed, on a line of its own. */
  lemma {:induction false} ItemsAreTidied(values: seq<string>)
    ensures Items(values) == Unlines(ItemLines(Tidied(values)))
  {
    hide TrimSpace;
    if values != [] {
      ItemsAreTidied(values[1..]);
      var lines := ItemLines(Tidied(values));
      if TrimSpace(values[0]) != "" {
        assert Tidied(values)[1..] == Tidied(values[1..]);
        assert lines[1..] == ItemLines(Tidied(values[1..]));
      } else {
        assert Tidied(values) == Tidied(values[1..]);
      }
    }
  }

  lemma ParseUnder(title: string, x: string)
    requires title != "" && Trimmed(title) && '\n' !in title && Faithful(x)
    ensures Parse("## " + title + "\n" + ("- " + x)) == AddLine(EMPTY, KindOf(title), x)
  {
    hide Parse, Step, AddLine, KindOf, Faithful, Trimmed;
    var heading, item := "## " + title, "- " + x;
    ItemStep(State(KindOf(title), EMPTY), x);
    HeadingNames(START, title);
    TwoLines(heading, item);
  }

  lemma TwoLines(a: string, b: string)
    requires '\n' !in a && '\n' !in b
    ensures Parse(a + "\n" + b) == Step(Step(START, a), b).summary
  {
    SplitConcat(a, b);
    SplitSingle(a);
    SplitSingle(b);
    hide Split, Step;
    assert [a] + [b] == [a, b] && [a, b][1..] == [b] && [b][1..] == [];
    assert Fold(START, [a, b]) == Fold(Step(START, a), [b]) == Step(Step(START, a), b);
  }

  lemma ItemStep(st: State, x: string)
    requires Faithful(x)
    ensures '\n' !in "- " + x && Step(st, "- " + x) == State(st.section, AddLine(st.summary, st.section, x))
  {
    ItemLine(x);
    FaithfulIsKept(x);
    hide Strip, Dropped, IsHeading, AddLine;
  }

  /** The titles a file may carry, and where an item under each of them is filed. */
  lemma HeadingsDecide(x: string)
    requires Faithful(x)
    ensures Parse("## " + "当前目标" + "\n" + ("- " + x)) == EMPTY.(currentGoal := x)
    ensures Parse("## " + "用户偏好与约束" + "\n" + ("- " + x)) == if IsConstraint(x) then EMPTY.(constraints := [x]) else EMPTY.(preferences := [x])
    ensures Parse("## " + "关键决策" + "\n" + ("- " + x)) == EMPTY.(decisions := [x])
    ensures Parse("## " + "已完成工作" + "\n" + ("- " + x)) == EMPTY.(completedWork := [x])
    ensures Parse("## " + "修改文件" + "\n" + ("- " + x)) == EMPTY.(modifiedFiles := [x])
    ensures Parse("## " + "工具与验证" + "\n" + ("- " + x)) == EMPTY.(toolVerification := [x])
    ensures Parse("## " + "问题与根因" + "\n" + ("- " + x)) == EMPTY.(problems := [x])
    ensures Parse("## " + "未完成任务与下一步" + "\n" + ("- " + x)) == if IsNextStep(x) then EMPTY.(nextSteps := [x]) else EMPTY.(openTasks := [x])
    ensures Parse("## " + "重要引用" + "\n" + ("- " + x)) == EMPTY.(references := [x])
  {
    hide Parse, Faithful, IsConstraint, IsNextStep, Plain;
    assert [] + [x] == [x];
    NamedKind(Goal, x, EMPTY.(currentGoal := x));
    NamedKind(Preferences, x, if IsConstraint(x) then EMPTY.(constraints := [x]) else EMPTY.(preferences := [x]));
    NamedKind(Decisions, x, EMPTY.(decisions := [x]));
    NamedKind(Completed, x, EMPTY.(completedWork := [x]));
    NamedKind(Files, x, EMPTY.(modifiedFiles := [x]));
    NamedKind(Verification, x, EMPTY.(toolVerification := [x]));
    NamedKind(Problems, x, EMPTY.(problems := [x]));
    NamedKind(Tasks, x, if IsNextStep(x) then EMPTY.(nextSteps := [x]) else EMPTY.(openTasks := [x]));
    NamedKind(References, x, EMPTY.(references := [x]));
  }

  lemma NamedKind(kind: Kind, x: string, s: Summary)
    requires kind != Unknown && Faithful(x) && AddLine(EMPTY, kind, x) == s
    ensures Parse("## " + Title(kind) + "\n" + ("- " + x)) == s
  {
    TitlesAreDistinct(kind);
    TitleHasNoBreak(kind);
    assert Title(kind) != "" && Trimmed(Title(kind));
    ParseUnder(Title(kind), x);
  }

  lemma PlaceholderIn(kind: Kind, body: seq<string>)
    requires kind != Unknown && forall line :: line in body ==> line != "- 无明确记录"
    ensures "- 无明确记录" in SectionLines(kind, body) <==> body == []
  {
    var lines := SectionLines(kind, body);
    assert "- " + PLACEHOLDER == "- 无明确记录";
    assert lines[0] == "## " + Title(kind) && lines[0][0] == '#' && "- 无明确记录"[0] == '-';
    assert lines[1..] == if body == [] then ["- 无明确记录"] else body;
  }

  lemma ItemsAreNoPlaceholder(values: seq<string>)
    requires AllFaithful(values)
    ensures forall line :: line in ItemLines(values) ==> line != "- 无明确记录"
    ensures ItemLines(values) == [] <==> values == []
  {
    forall line | line in ItemLines(values) ensures line != "- 无明确记录" {
      var i :| 0 <= i < |values| && ItemLines(values)[i] == line;
      assert Faithful(values[i]) && line[2..] == values[i] && "- 无明确记录"[2..] == PLACEHOLDER;
    }
  }

  lemma ListSaysNothing(kind: Kind, values: seq<string>)
    requires kind != Unknown && AllFaithful(values)
    ensures "- 无明确记录" in SectionLines(kind, ItemLines(values)) <==> values == []
  {
    ItemsAreNoPlaceholder(values);
    PlaceholderIn(kind, ItemLines(values));
    hide SectionLines, ItemLines, Faithful;
  }

  lemma GoalSaysNothing(goal: string)
    requires AllMarked(GoalLines(goal), NotHeading)
    ensures "- 无明确记录" in SectionLines(Goal, GoalLines(goal)) <==> goal == ""
  {
    assert "- 无明确记录"[0] == '-';
    forall line | line in GoalLines(goal) ensures line != "- 无明确记录" {
      assert Faithful(line);
    }
    PlaceholderIn(Goal, GoalLines(goal));
    hide SectionLines, Faithful;
  }

  /** A document says that nothing is recorded exactly when one of the nine sections has nothing to show. */
  lemma EmptySectionsSaySo(s: Summary)
    requires WellFormed(s)
    ensures "- 无明确记录" in Split(Document(s)) <==>
            || s.currentGoal == "" || (s.preferences == [] && s.constraints == []) || s.decisions == [] || s.completedWork == []
            || s.modifiedFiles == [] || s.toolVerification == [] || s.problems == [] || (s.openTasks == [] && s.nextSteps == [])
            || s.references == []
  {
    hide SectionLines, ItemLines, Faithful, Split, Document, GoalLines, Lines, ListLines, AllFaithful;
    SplitIsLines(s);
    InLines(s, "- 无明确记录");
    GoalSaysNothing(s.currentGoal);
    ListSaysNothing(Preferences, s.preferences + s.constraints);
    ListSaysNothing(Decisions, s.decisions);
    ListSaysNothing(Completed, s.completedWork);
    ListSaysNothing(Files, s.modifiedFiles);
    ListSaysNothing(Verification, s.toolVerification);
    ListSaysNothing(Problems, s.problems);
    ListSaysNothing(Tasks, s.openTasks + s.nextSteps);
    ListSaysNothing(References, s.references);
  }

  lemma InLines(s: Summary, line: string)
    ensures line in Lines(s) <==>
            || line in SectionLines(Goal, GoalLines(s.currentGoal))
            || line in SectionLines(Preferences, ItemLines(s.preferences + s.constraints))
            || line in SectionLines(Decisions, ItemLines(s.decisions)) || line in SectionLines(Completed, ItemLines(s.completedWork))
            || line in SectionLines(Files, ItemLines(s.modifiedFiles)) || line in SectionLines(Verification, ItemLines(s.toolVerification))
            || line in SectionLines(Problems, ItemLines(s.problems)) || line in SectionLines(Tasks, ItemLines(s.openTasks + s.nextSteps))
            || line in SectionLines(References, ItemLines(s.references))
  {
    hide SectionLines, ItemLines, GoalLines;
  }

  lemma SplitIsLines(s: Summary)
    requires WellFormed(s)
    ensures AllFaithful(s.preferences + s.constraints) && AllFaithful(s.openTasks + s.nextSteps)
    ensures forall line :: line in Split(Document(s)) <==> line in Lines(s) || line == ""
  {
    WellFormedIsPlain(s);
    DocumentIsLines(s);
    LinesHaveNoBreaks(s);
    SplitUnlines(Lines(s));
    hide SectionLines, ItemLines, Faithful, Split, Document, Unlines, GoalLines, ListLines, Lines;
    assert forall line :: line in Lines(s) + [""] <==> line in Lines(s) || line == "";
  }
}
