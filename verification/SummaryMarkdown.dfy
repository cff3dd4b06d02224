/** The Markdown view of a compaction summary: printer, parser, and when they are inverse. */
module SummaryMarkdown {
  import opened Text

  datatype Summary = Summary(
    currentGoal: string,
    preferences: seq<string>, constraints: seq<string>,
    decisions: seq<string>, completedWork: seq<string>, modifiedFiles: seq<string>,
    toolVerification: seq<string>, problems: seq<string>,
    openTasks: seq<string>, nextSteps: seq<string>,
    references: seq<string>)

  const EMPTY := Summary("", [], [], [], [], [], [], [], [], [], [])

  const PLACEHOLDER := "无明确记录"

  /** The sections the parser knows; a heading with any other title opens `Unknown`. */
  datatype Kind = Goal | Preferences | Decisions | Completed | Files | Verification | Problems | Tasks | References | Unknown

  function Title(kind: Kind): string {
    match kind
    case Goal => "当前目标"
    case Preferences => "用户偏好与约束"
    case Decisions => "关键决策"
    case Completed => "已完成工作"
    case Files => "修改文件"
    case Verification => "工具与验证"
    case Problems => "问题与根因"
    case Tasks => "未完成任务与下一步"
    case References => "重要引用"
    case Unknown => ""
  }

  function KindOf(title: string): Kind {
    if title == Title(Goal) then Goal
    else if title == Title(Preferences) then Preferences
    else if title == Title(Decisions) then Decisions
    else if title == Title(Completed) then Completed
    else if title == Title(Files) then Files
    else if title == Title(Verification) then Verification
    else if title == Title(Problems) then Problems
    else if title == Title(Tasks) then Tasks
    else if title == Title(References) then References
    else Unknown
  }

  lemma TitlesAreDistinct(kind: Kind)
    ensures KindOf(Title(kind)) == kind
  {
  }

  predicate IsBullet(c: char) {
    c == '-' || c == '*' || c == ' '
  }

  predicate IsConstraint(line: string) {
    HasPrefix(line, "约束") || HasPrefix(line, "Constraint")
  }

  predicate IsNextStep(line: string) {
    HasPrefix(line, "下一步") || HasPrefix(line, "Next")
  }

  // ---- Printer ----

  function Items(values: seq<string>): string {
    if values == [] then ""
    else
      var value := TrimSpace(values[0]);
      (if value != "" then "- " + value + "\n" else "") + Items(values[1..])
  }

  function Section(kind: Kind, scalar: string, values: seq<string>): string {
    "## " + Title(kind) + "\n"
    + (if TrimSpace(scalar) != "" then TrimSpace(scalar) + "\n" else "")
    + (if values == [] && TrimSpace(scalar) == "" then "- " + PLACEHOLDER + "\n" else Items(values))
  }

  function Document(s: Summary): string {
    "" + Section(Goal, s.currentGoal, [])
    + Section(Preferences, "", s.preferences + s.constraints)
    + Section(Decisions, "", s.decisions)
    + Section(Completed, "", s.completedWork)
    + Section(Files, "", s.modifiedFiles)
    + Section(Verification, "", s.toolVerification)
    + Section(Problems, "", s.problems)
    + Section(Tasks, "", s.openTasks + s.nextSteps)
    + Section(References, "", s.references)
  }

  function Render(s: Summary): string {
    TrimSpace(Document(s))
  }

  // ---- Parser ----

  function AppendText(existing: string, value: string): string {
    if existing == "" then value else existing + "\n" + value
  }

  function AddLine(s: Summary, section: Kind, line: string): Summary {
    match section
    case Goal => s.(currentGoal := AppendText(s.currentGoal, line))
    case Preferences =>
      if IsConstraint(line) then s.(constraints := s.constraints + [line])
      else s.(preferences := s.preferences + [line])
    case Decisions => s.(decisions := s.decisions + [line])
    case Completed => s.(completedWork := s.completedWork + [line])
    case Files => s.(modifiedFiles := s.modifiedFiles + [line])
    case Verification => s.(toolVerification := s.toolVerification + [line])
    case Problems => s.(problems := s.problems + [line])
    case Tasks =>
      if IsNextStep(line) then s.(nextSteps := s.nextSteps + [line])
      else s.(openTasks := s.openTasks + [line])
    case References => s.(references := s.references + [line])
    case Unknown => s
  }

  /** Parser position: the section being read and what has been collected. */
  datatype State = State(section: Kind, summary: Summary)

  const START := State(Unknown, EMPTY)

  predicate IsHeading(line: string) {
    HasPrefix(TrimSpace(line), "## ")
  }

  /** The text of a body line without its bullet. */
  function Strip(line: string): string {
    TrimSpace(TrimLeft(TrimSpace(line), IsBullet))
  }

  predicate Dropped(item: string) {
    item == "" || item == PLACEHOLDER || item == "- " + PLACEHOLDER
  }

  function Step(st: State, line: string): State {
    if IsHeading(line) then State(KindOf(TrimSpace(TrimSpace(line)[3..])), st.summary)
    else if Dropped(Strip(line)) then st
    else st.(summary := AddLine(st.summary, st.section, Strip(line)))
  }

  function Fold(st: State, lines: seq<string>): State
    decreases lines
  {
    if lines == [] then st else Fold(Step(st, lines[0]), lines[1..])
  }

  function Parse(markdown: string): Summary {
    Fold(START, Split(markdown)).summary
  }

  /** Dashes, stars and blanks in front of an item do not belong to it, in any number and order. */
  lemma {:induction false} BulletsAreAlike(st: State, bullets: string, item: string)
    requires Trimmed(item) && item != "" && !IsBullet(item[0])
    requires bullets != "" && !IsSpace(bullets[0]) && forall c :: c in bullets ==> c == '-' || c == '*' || c == ' '
    ensures Strip(bullets + item) == item
    ensures !Dropped(item) ==> Step(st, bullets + item) == State(st.section, AddLine(st.summary, st.section, item))
  {
    TrimSpaceFixesTrimmed(bullets + item);
    assert Trimmed(bullets + item);
    TrimSpaceFixesTrimmed(item);
    BulletsCut(bullets, item);
    hide TrimSpace, AddLine;
    assert (bullets + item)[0] != '#';
  }

  lemma {:induction false} BulletsCut(bullets: string, item: string)
    requires item != "" && !IsBullet(item[0]) && forall c :: c in bullets ==> IsBullet(c)
    ensures TrimLeft(bullets + item, IsBullet) == item
  {
    hide IsBullet;
    if bullets == "" {
      assert bullets + item == item;
    } else {
      BulletsCut(bullets[1..], item);
      assert (bullets + item)[1..] == bullets[1..] + item;
    }
  }

  /** What a line of the two shared sections is filed under. */
  lemma MarkersDecide(s: Summary, line: string)
    ensures var p := AddLine(s, Preferences, line);
            if HasPrefix(line, "约束") || HasPrefix(line, "Constraint")
            then p == s.(constraints := s.constraints + [line]) else p == s.(preferences := s.preferences + [line])
    ensures var t := AddLine(s, Tasks, line);
            if HasPrefix(line, "下一步") || HasPrefix(line, "Next")
            then t == s.(nextSteps := s.nextSteps + [line]) else t == s.(openTasks := s.openTasks + [line])
  {
  }

  // ---- The program's loops compute these functions ----

  lemma Assoc(a: string, b: string, c: string)
    ensures a + (b + c) == (a + b) + c
  {
  }

  method WriteSection(builder: string, kind: Kind, scalar: string, values: seq<string>) returns (result: string)
    ensures result == builder + Section(kind, scalar, values)
  {
    hide TrimSpace;
    var heading := "## " + Title(kind) + "\n";
    if TrimSpace(scalar) != "" {
      heading := heading + (TrimSpace(scalar) + "\n");
    } else {
      assert heading + "" == heading;
    }
    if |values| == 0 && TrimSpace(scalar) == "" {
      result := builder + (heading + ("- " + PLACEHOLDER + "\n"));
      return;
    }
    var items := WriteItems(values);
    result := builder + (heading + items);
  }

  method WriteItems(values: seq<string>) returns (items: string)
    ensures items == Items(values)
  {
    hide TrimSpace;
    items := "";
    var i := 0;
    while i < |values|
      invariant 0 <= i <= |values|
      invariant items + Items(values[i..]) == Items(values)
    {
      var value := TrimSpace(values[i]);
      assert values[i..][1..] == values[i + 1..];
      if value != "" {
        Assoc(items, "- " + value + "\n", Items(values[i + 1..]));
        items := items + ("- " + value + "\n");
      } else {
        assert "" + Items(values[i + 1..]) == Items(values[i + 1..]);
      }
      i := i + 1;
    }
    assert values[i..] == [] && items + "" == items;
  }

  method RenderMarkdown(s: Summary) returns (markdown: string)
    ensures markdown == Render(s)
  {
    var builder := WriteSection("", Goal, s.currentGoal, []);
    builder := WriteSection(builder, Preferences, "", s.preferences + s.constraints);
    builder := WriteSection(builder, Decisions, "", s.decisions);
    builder := WriteSection(builder, Completed, "", s.completedWork);
    builder := WriteSection(builder, Files, "", s.modifiedFiles);
    builder := WriteSection(builder, Verification, "", s.toolVerification);
    builder := WriteSection(builder, Problems, "", s.problems);
    builder := WriteSection(builder, Tasks, "", s.openTasks + s.nextSteps);
    builder := WriteSection(builder, References, "", s.references);
    markdown := TrimSpace(builder);
  }

  method ParseSummary(markdown: string) returns (summary: Summary)
    ensures summary == Parse(markdown)
  {
    summary := EMPTY;
    var section := "";
    TitlesAreDistinct(Unknown);
    var lines := Split(markdown);
    var i := 0;
    while i < |lines|
      invariant 0 <= i <= |lines|
      invariant Fold(State(KindOf(section), summary), lines[i..]).summary == Parse(markdown)
    {
      assert lines[i..][1..] == lines[i + 1..];
      var line := TrimSpace(lines[i]);
      i := i + 1;
      if HasPrefix(line, "## ") {
        section := TrimSpace(line[3..]);
        continue;
      }
      line := TrimSpace(TrimLeft(line, IsBullet));
      if Dropped(line) {
        continue;
      }
      summary := AddLine(summary, KindOf(section), line);
    }
  }

  // ---- The parser does not see white space around the document ----

  lemma {:induction false} FoldAppend(st: State, a: seq<string>, b: seq<string>)
    ensures Fold(st, a + b) == Fold(Fold(st, a), b)
    decreases a
  {
    hide Step;
    if a == [] {
      assert a + b == b;
    } else {
      FoldAppend(Step(st, a[0]), a[1..], b);
      assert (a + b)[1..] == a[1..] + b;
    }
  }

  lemma BlankLine(st: State)
    ensures Step(st, "") == st
  {
  }

  lemma SpaceInFront(st: State, c: char, s: string)
    requires IsSpace(c)
    ensures Fold(st, Split([c] + s)) == Fold(st, Split(s))
  {
  }

  /** Puts one more character behind a text given as lines. */
  function Behind(lines: seq<string>, c: char): seq<string>
    requires lines != []
  {
    lines[..|lines| - 1] + [lines[|lines| - 1] + [c]]
  }

  lemma InFrontBehind(x: char, lines: seq<string>, c: char)
    requires lines != []
    ensures InFront(x, Behind(lines, c)) == Behind(InFront(x, lines), c)
  {
    if |lines| == 1 && x != '\n' {
      assert [x] + (lines[0] + [c]) == ([x] + lines[0]) + [c];
    }
  }

  lemma {:induction false} SplitBack(s: string, c: char)
    requires c != '\n'
    ensures Split(s + [c]) == Behind(Split(s), c)
  {
    if s == "" {
      assert s + [c] == [c] && [c][1..] == "";
      assert [c] + "" == "" + [c];
    } else {
      SplitBack(s[1..], c);
      assert (s + [c])[1..] == s[1..] + [c];
      InFrontBehind(s[0], Split(s[1..]), c);
    }
  }

  lemma SpaceBehind(st: State, s: string, c: char)
    requires IsSpace(c)
    ensures Fold(st, Split(s + [c])) == Fold(st, Split(s))
  {
    var lines := Split(s);
    if c == '\n' {
      SplitConcat(s, "");
      assert s + "\n" + "" == s + [c];
      FoldAppend(st, lines, [""]);
      BlankLine(Fold(st, lines));
      assert Fold(Fold(st, lines), [""]) == Step(Fold(st, lines), "");
    } else {
      SplitBack(s, c);
      var front, last := lines[..|lines| - 1], lines[|lines| - 1];
      assert lines == front + [last];
      FoldAppend(st, front, [last]);
      FoldAppend(st, front, [last + [c]]);
      TrimSpaceDropsBack(last, c);
      var mid := Fold(st, front);
      assert Fold(mid, [last]) == Step(mid, last);
      assert Fold(mid, [last + [c]]) == Step(mid, last + [c]);
    }
  }

  lemma {:induction false} TrimLeftUnseen(st: State, s: string)
    ensures Fold(st, Split(TrimLeft(s, IsSpace))) == Fold(st, Split(s))
  {
    if s != "" && IsSpace(s[0]) {
      TrimLeftUnseen(st, s[1..]);
      SpaceInFront(st, s[0], s[1..]);
      assert [s[0]] + s[1..] == s;
    }
  }

  lemma {:induction false} TrimRightUnseen(st: State, s: string)
    ensures Fold(st, Split(TrimRight(s, IsSpace))) == Fold(st, Split(s))
  {
    if s != "" && IsSpace(s[|s| - 1]) {
      var front := s[..|s| - 1];
      TrimRightUnseen(st, front);
      SpaceBehind(st, front, s[|s| - 1]);
      assert front + [s[|s| - 1]] == s;
    }
  }

  /** Trimming a document never changes what it parses to. */
  lemma ParseIgnoresOuterSpace(markdown: string)
    ensures Parse(TrimSpace(markdown)) == Parse(markdown)
  {
    TrimLeftUnseen(START, markdown);
    TrimRightUnseen(START, TrimLeft(markdown, IsSpace));
  }
}
