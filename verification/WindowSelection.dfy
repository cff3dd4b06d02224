/** Choosing what the model sees: fixed context, summary, and the newest blocks that fit. */
module WindowSelection {
  import opened Text
  import opened TokenBudget
  import opened Messages
  import opened ContextWindow

  datatype Info = Info(
    windowK: int, fullTokens: nat, selectedTokens: nat, summaryTokens: nat,
    fullMessages: nat, selectedMessages: nat, compactedMessages: int, hasSummary: bool, truncated: bool)

  function NormalizeWindowK(windowK: int): int {
    if windowK <= 0 then 16 else windowK
  }

  function Max(a: int, b: int): int {
    if a < b then b else a
  }

  function Budget(windowK: int, reserved: int): nat {
    Max(0, NormalizeWindowK(windowK) * 1000 - Max(0, reserved))
  }

  /** Base and the blocks from `k` on, as tokens. */
  function TailTokens(base: seq<Message>, chunks: seq<seq<Message>>, k: nat): nat
    requires k <= |chunks|
  {
    Tokens(base + Flatten(chunks[k..]))
  }

  /**
   * The selection starts at block `k`: the longest run of trailing blocks within the budget,
   * or the last block alone when not even that fits.
   */
  ghost predicate IsWindow(base: seq<Message>, chunks: seq<seq<Message>>, budget: nat, k: int) {
    && 0 <= k <= |chunks|
    && (chunks != [] ==> k < |chunks|)
    && (k < |chunks| - 1 ==> TailTokens(base, chunks, k) <= budget)
    && forall j :: 0 <= j < k && j < |chunks| - 1 ==> TailTokens(base, chunks, j) > budget
  }

  lemma TailGrows(base: seq<Message>, chunks: seq<seq<Message>>, k: nat)
    requires k < |chunks|
    ensures TailTokens(base, chunks, k) == TailTokens(base, chunks, k + 1) + Tokens(chunks[k])
  {
    hide MessageTokens;
    var rest := Flatten(chunks[k + 1..]);
    assert chunks[k..][1..] == chunks[k + 1..];
    TokensAdd(base, chunks[k] + rest);
    TokensAdd(chunks[k], rest);
    TokensAdd(base, rest);
  }

  lemma {:induction false} LongerTailsCostMore(base: seq<Message>, chunks: seq<seq<Message>>, j: nat, k: nat)
    requires j <= k <= |chunks|
    ensures TailTokens(base, chunks, j) >= TailTokens(base, chunks, k)
    decreases k - j
  {
    hide TailTokens;
    if j < k {
      TailGrows(base, chunks, j);
      LongerTailsCostMore(base, chunks, j + 1, k);
    }
  }

  /** A budget and a grouping have one window. */
  lemma WindowUnique(base: seq<Message>, chunks: seq<seq<Message>>, budget: nat, k: int, k': int)
    requires IsWindow(base, chunks, budget, k) && IsWindow(base, chunks, budget, k')
    ensures k == k'
  {
  }

  method AnalyzePrepared(
      base: seq<Message>, recent: seq<Message>, full: seq<Message>, windowK: int,
      hasSummary: bool, summaryTokens: nat, compacted: int, reserved: int)
    returns (info: Info, selected: seq<Message>, ghost from: nat)
    ensures var chunks := ChunksFrom(recent, 0);
            && IsWindow(base, chunks, Budget(windowK, reserved), from)
            && selected == base + Flatten(chunks[from..])
    ensures info.windowK == NormalizeWindowK(windowK) && info.summaryTokens == summaryTokens
    ensures info.compactedMessages == compacted && info.hasSummary == hasSummary
    ensures info.selectedTokens == Tokens(selected) && info.selectedMessages == |selected|
    ensures info.truncated <==> Tokens(base + recent) > Budget(windowK, reserved)
    ensures base + recent != [] ==> info.fullTokens == Tokens(full) && info.fullMessages == |full|
    ensures var chunks, room := ChunksFrom(recent, 0), 1000 * (if windowK <= 0 then 16 else windowK) - if reserved > 0 then reserved else 0;
            && (from < |chunks| - 1 ==> Tokens(selected) <= room)
            && (0 < from <= |chunks| ==> Tokens(base + Flatten(chunks[from - 1..])) > room)
  {
    WindowsUseTheRoom(base, recent, windowK, reserved);
    hide MessageTokens, IsWindow, TailTokens, BlockEnd, ChunksFrom;
    var chunks := MessageChunks(recent);
    ChunksPartition(recent, 0);
    assert recent[0..] == recent;
    if |base| == 0 && |recent| == 0 {
      EmptyWindow(base, chunks, Budget(windowK, reserved));
      return Info(NormalizeWindowK(windowK), 0, 0, summaryTokens, 0, 0, compacted, hasSummary, false), [], 0;
    }
    var fullTokens := EstimateMessagesTokens(full);
    var budget := Budget(windowK, reserved);
    var baseTokens := EstimateMessagesTokens(base);
    var selectedTokens: int;
    from, selectedTokens, selected := SelectNewest(base, chunks, baseTokens, budget);
    var all := EstimateMessagesTokens(base + recent);
    Truncation(base, chunks, budget, from);
    info := Info(NormalizeWindowK(windowK), fullTokens, selectedTokens, summaryTokens, |full|, |selected|,
                 compacted, hasSummary, |selected| < |base| + |recent| || all > budget);
  }

  /** Next to what is reserved, the selection fits the window and one block more would not. */
  lemma WindowsUseTheRoom(base: seq<Message>, recent: seq<Message>, windowK: int, reserved: int)
    ensures var chunks, room := ChunksFrom(recent, 0), 1000 * (if windowK <= 0 then 16 else windowK) - if reserved > 0 then reserved else 0;
            forall k :: IsWindow(base, chunks, Budget(windowK, reserved), k) ==>
              && (k < |chunks| - 1 ==> Tokens(base + Flatten(chunks[k..])) <= room)
              && (0 < k ==> Tokens(base + Flatten(chunks[k - 1..])) > room)
  {
    ChunksPartition(recent, 0);
    var chunks := ChunksFrom(recent, 0);
    hide ChunksFrom, Tokens;
    forall k | IsWindow(base, chunks, Budget(windowK, reserved), k) && k < |chunks| - 1 ensures Tokens(base + Flatten(chunks[k..])) > 0 {
      assert chunks[k..][0] != [];
      var all := base + Flatten(chunks[k..]);
      assert |all| > 0;
      SomethingCosts(all);
    }
    forall k | IsWindow(base, chunks, Budget(windowK, reserved), k) && 0 < k
      ensures Tokens(base + Flatten(chunks[k - 1..])) > Budget(windowK, reserved)
    {
      assert TailTokens(base, chunks, k - 1) > Budget(windowK, reserved);
    }
  }

  lemma SomethingCosts(messages: seq<Message>)
    requires messages != []
    ensures Tokens(messages) > 0
  {
  }

  lemma EmptyWindow(base: seq<Message>, chunks: seq<seq<Message>>, budget: nat)
    requires base == [] && Flatten(chunks) == []
    requires forall i :: 0 <= i < |chunks| ==> chunks[i] != []
    ensures chunks == [] && IsWindow(base, chunks, budget, 0)
  {
  }

  /** The backward loop over the blocks. */
  method SelectNewest(base: seq<Message>, chunks: seq<seq<Message>>, baseTokens: nat, budget: nat)
    returns (ghost from: nat, selectedTokens: nat, selected: seq<Message>)
    requires baseTokens == Tokens(base)
    ensures IsWindow(base, chunks, budget, from)
    ensures selected == base + Flatten(chunks[from..])
    ensures selectedTokens == Tokens(selected)
  {
    hide MessageTokens, Tokens;
    selectedTokens := baseTokens;
    var tail: seq<Message> := [];
    var i := |chunks| - 1;
    from := |chunks|;
    assert base + [] == base;
    assert chunks[from..] == [];
    while i >= 0
      invariant -1 <= i < |chunks| && from == i + 1
      invariant tail == Flatten(chunks[from..])
      invariant selectedTokens == TailTokens(base, chunks, from)
      invariant from < |chunks| - 1 ==> selectedTokens <= budget
    {
      var chunk := chunks[i];
      var chunkTokens := EstimateMessagesTokens(chunk);
      TailGrows(base, chunks, i);
      var shouldInclude := selectedTokens + chunkTokens <= budget;
      if !shouldInclude && i == |chunks| - 1 {
        shouldInclude := true;
      }
      if !shouldInclude {
        break;
      }
      assert chunks[i..][1..] == chunks[from..];
      tail := chunk + tail;
      selectedTokens := selectedTokens + chunkTokens;
      from := i;
      i := i - 1;
    }
    forall j | 0 <= j < from && j < |chunks| - 1 ensures TailTokens(base, chunks, j) > budget {
      if i >= 0 {
        TailGrows(base, chunks, i);
        LongerTailsCostMore(base, chunks, j, i);
      }
    }
    selected := base + tail;
  }

  /**
   * Blocks are left out exactly when there are several and all of them exceed the budget; a single block is
   * selected whatever it costs.
   */
  lemma Truncation(base: seq<Message>, chunks: seq<seq<Message>>, budget: nat, from: nat)
    requires IsWindow(base, chunks, budget, from)
    requires forall i :: 0 <= i < |chunks| ==> chunks[i] != []
    ensures |base + Flatten(chunks[from..])| <= |base + Flatten(chunks)|
    ensures |base + Flatten(chunks[from..])| < |base + Flatten(chunks)| <==>
            |chunks| > 1 && Tokens(base + Flatten(chunks)) > budget
  {
    hide Tokens;
    assert chunks[0..] == chunks;
    FlattenConcat(chunks[..from], chunks[from..]);
    assert chunks[..from] + chunks[from..] == chunks;
    assert from > 0 <==> |chunks| > 1 && TailTokens(base, chunks, 0) > budget;
    if from > 0 {
      assert Flatten(chunks[..from]) == chunks[0] + Flatten(chunks[..from][1..]);
    }
  }

  lemma {:induction false} FlattenConcat(a: seq<seq<Message>>, b: seq<seq<Message>>)
    ensures Flatten(a + b) == Flatten(a) + Flatten(b)
  {
    if a == [] {
      assert a + b == b;
    } else {
      FlattenConcat(a[1..], b);
      assert (a + b)[1..] == a[1..] + b;
      assert a[0] + (Flatten(a[1..]) + Flatten(b)) == (a[0] + Flatten(a[1..])) + Flatten(b);
    }
  }

  // ---- Base and recent ----

  function SystemPart(messages: seq<Message>): seq<Message> {
    if messages == [] || messages[0].role != System then [] else messages[..1]
  }

  function FixedPart(fixed: seq<string>): seq<Message> {
    if fixed == [] then []
    else (if TrimSpace(fixed[0]) != "" then [SystemText(TrimSpace(fixed[0]))] else []) + FixedPart(fixed[1..])
  }

  function Base(messages: seq<Message>, summary: string, fixed: seq<string>): seq<Message> {
    SystemPart(messages) + FixedPart(fixed) + if TrimSpace(summary) != "" then [CompactionSummary(TrimSpace(summary))] else []
  }

  function Recent(messages: seq<Message>, compacted: int): seq<Message> {
    var start := NormalizeCompacted(messages, compacted);
    if start > 1 then messages[start..] else messages[|SystemPart(messages)|..]
  }

  /** How many items have text. */
  function Texts(fixed: seq<string>): nat {
    if fixed == [] then 0 else (if TrimSpace(fixed[0]) != "" then 1 else 0) + Texts(fixed[1..])
  }

  /** `parts` are the items with text, trimmed, in their order, as system messages. */
  ghost predicate AreTexts(parts: seq<Message>, fixed: seq<string>) {
    && |parts| == Texts(fixed)
    && forall i :: 0 <= i < |fixed| && TrimSpace(fixed[i]) != "" ==>
         var k := Texts(fixed[..i]);
         k < |parts| && parts[k] == Message(System, "", "", [TextPart(TrimSpace(fixed[i]))])
  }

  lemma {:induction false} FixedPartIsTexts(fixed: seq<string>)
    ensures AreTexts(FixedPart(fixed), fixed)
  {
    hide TrimSpace;
    if fixed != [] {
      var rest, first := fixed[1..], if TrimSpace(fixed[0]) != "" then 1 else 0;
      FixedPartIsTexts(rest);
      forall i | 0 <= i < |fixed| && TrimSpace(fixed[i]) != ""
        ensures var k := Texts(fixed[..i]);
                k < |FixedPart(fixed)| && FixedPart(fixed)[k] == Message(System, "", "", [TextPart(TrimSpace(fixed[i]))])
      {
        if i > 0 {
          assert fixed[..i][1..] == rest[..i - 1];
          assert Texts(fixed[..i]) == first + Texts(rest[..i - 1]);
          assert FixedPart(fixed)[first + Texts(rest[..i - 1])] == FixedPart(rest)[Texts(rest[..i - 1])];
        }
      }
    }
  }

  /** System message, fixed context and summary, in this order and with their texts. */
  ghost predicate IsBase(base: seq<Message>, messages: seq<Message>, summary: string, fixed: seq<string>) {
    var first := if messages != [] && messages[0].role == System then 1 else 0;
    var last := if TrimSpace(summary) != "" then 1 else 0;
    && |base| == first + Texts(fixed) + last
    && (first == 1 ==> base[0] == messages[0])
    && AreTexts(base[first..first + Texts(fixed)], fixed)
    && (last == 1 ==> IsSummaryOf(base[|base| - 1], summary))
  }

  lemma BaseIsBase(messages: seq<Message>, summary: string, fixed: seq<string>)
    ensures IsBase(Base(messages, summary, fixed), messages, summary, fixed)
  {
    FixedPartIsTexts(fixed);
    SummaryIsCarried(summary);
    var base, system, parts := Base(messages, summary, fixed), SystemPart(messages), FixedPart(fixed);
    hide TrimSpace, FixedPart, IsSummaryOf, AreTexts, Texts, CompactionSummary;
    assert AreTexts(parts, fixed) && |parts| == Texts(fixed) by {
      AreAsMany(parts, fixed);
    }
    assert base[|system|..|system| + |parts|] == parts;
  }

  lemma AreAsMany(parts: seq<Message>, fixed: seq<string>)
    requires AreTexts(parts, fixed)
    ensures |parts| == Texts(fixed)
  {
  }

  method BuildBaseAndRecent(messages: seq<Message>, summary: string, compacted: int, fixed: seq<string>)
    returns (base: seq<Message>, recent: seq<Message>)
    ensures base == Base(messages, summary, fixed) && IsBase(base, messages, summary, fixed)
    ensures recent == Recent(messages, compacted)
    ensures var behind := if messages == [] then 0
                          else if compacted > 1 && |messages| > 1 then (if compacted < |messages| then compacted else |messages|)
                          else if messages[0].role == System then 1 else 0;
            recent == messages[behind..]
  {
    BaseIsBase(messages, summary, fixed);
    hide TrimSpace, IsBase;
    var system, rest: seq<Message> := [], messages;
    if |messages| > 0 && messages[0].role == System {
      system, rest := messages[..1], messages[1..];
    }
    assert rest == messages[|SystemPart(messages)|..];
    base := system;
    var summary' := TrimSpace(summary);
    var i := 0;
    assert base + FixedPart(fixed) == system + FixedPart(fixed);
    while i < |fixed|
      invariant 0 <= i <= |fixed|
      invariant base + FixedPart(fixed[i..]) == system + FixedPart(fixed)
    {
      var item := TrimSpace(fixed[i]);
      assert fixed[i..][1..] == fixed[i + 1..];
      if item != "" {
        assert (base + [SystemText(item)]) + FixedPart(fixed[i + 1..]) == base + ([SystemText(item)] + FixedPart(fixed[i + 1..]));
        base := base + [SystemText(item)];
      }
      i := i + 1;
    }
    assert fixed[i..] == [];
    assert base == system + FixedPart(fixed);
    if summary' != "" {
      base := base + [CompactionSummary(summary')];
    }
    var start := NormalizeCompacted(messages, compacted);
    if start > 1 {
      recent := messages[start..];
    } else {
      recent := rest;
    }
  }

  // ---- History that is left out is represented, or it is not ----

  /** What of the history is neither in the base nor a candidate for selection. */
  function LeftOut(messages: seq<Message>, compacted: int): seq<Message> {
    messages[|SystemPart(messages)|..|messages| - |Recent(messages, compacted)|]
  }

  /** A message of the base is marked as a summary and carries the text of this one. */
  ghost predicate Summarized(base: seq<Message>, summary: string) {
    exists i :: 0 <= i < |base| && IsSummaryOf(base[i], summary)
  }

  lemma {:induction false} FixedPartIsPlain(fixed: seq<string>)
    ensures forall m :: m in FixedPart(fixed) ==> m.reason == "" && m.role == System
  {
    if fixed != [] {
      FixedPartIsPlain(fixed[1..]);
    }
  }

  lemma BaseSummarized(messages: seq<Message>, summary: string, fixed: seq<string>)
    requires forall m :: m in SystemPart(messages) ==> m.reason != "compaction_summary"
    ensures Summarized(Base(messages, summary, fixed), summary) <==> TrimSpace(summary) != ""
  {
    BaseIsBase(messages, summary, fixed);
    hide TrimSpace, FixedPart;
    FixedPartIsPlain(fixed);
    var base := Base(messages, summary, fixed);
    var plain := SystemPart(messages) + FixedPart(fixed);
    if TrimSpace(summary) != "" {
      assert IsSummaryOf(base[|base| - 1], summary);
    } else {
      assert base == plain;
      forall i | 0 <= i < |plain| ensures plain[i].reason != "compaction_summary" {
        assert plain[i] in SystemPart(messages) || plain[i] in FixedPart(fixed);
      }
    }
  }

  /**
   * Compacted history is represented by a summary exactly when there is a summary with
   * text or nothing was compacted; the caller's system message is not itself a summary.
   */
  lemma LeftOutIsSummarized(messages: seq<Message>, summary: string, compacted: int, fixed: seq<string>)
    requires forall m :: m in SystemPart(messages) ==> m.reason != "compaction_summary"
    ensures LeftOut(messages, compacted) == [] || Summarized(Base(messages, summary, fixed), summary)
            <==> TrimSpace(summary) != "" || compacted <= 1 || |messages| <= 1
  {
    hide TrimSpace, Base, Summarized;
    BaseSummarized(messages, summary, fixed);
    var left := LeftOut(messages, compacted);
    var start := NormalizeCompacted(messages, compacted);
    if start > 1 {
      assert |left| == start - |SystemPart(messages)|;
    } else {
      assert |left| == 0;
    }
  }

  /** The failing side is not empty: three messages compacted under a blank summary disappear. */
  lemma BlankSummaryLosesHistory()
    ensures var u := Message(User, "", "", []);
            var messages := [SystemText("s"), u, u, u];
            LeftOut(messages, 3) == [u, u] && !Summarized(Base(messages, " ", []), " ")
  {
  }

  // ---- Tool results in what the model sees ----

  ghost predicate PairedBehind(messages: seq<Message>, n: nat) {
    forall i :: n <= i < |messages| && IsTool(messages[i]) ==> i > n && Answers(messages, i)
  }

  /** Blocks of a suffix that starts between blocks are themselves between blocks. */
  lemma {:induction false} TailIsSuffix(messages: seq<Message>, start: nat, k: nat) returns (cut: nat)
    requires start <= |messages| && k <= |ChunksFrom(messages, start)|
    ensures start <= cut <= |messages| && IsBoundary(messages, start, cut)
    ensures Flatten(ChunksFrom(messages, start)[k..]) == messages[cut..]
    decreases k
  {
    hide BlockEnd;
    var chunks := ChunksFrom(messages, start);
    if k == 0 {
      ChunksPartition(messages, start);
      assert chunks[0..] == chunks;
      cut := start;
    } else {
      var end := BlockEnd(messages, start);
      cut := TailIsSuffix(messages, end, k - 1);
      assert chunks[1..] == ChunksFrom(messages, end);
      assert chunks[k..] == chunks[1..][k - 1..];
    }
  }

  /**
   * Whatever the budget and whatever was compacted: in a selection from a history that opens with a system
   * message and pairs its tool results, every tool result has its call or another result in front of it
   * exactly when the first selected message is not one that its marking splits off.
   */
  lemma SelectionKeepsAnswersPaired(h: History, summary: string, fixed: seq<string>, from: nat)
    requires CutSafely(h) && Paired(h.messages) && h.messages[0].role == System
    requires var recent := Recent(h.messages, h.compacted); from <= |ChunksFrom(recent, 0)|
    ensures var base, kept := Base(h.messages, summary, fixed), Flatten(ChunksFrom(Recent(h.messages, h.compacted), 0)[from..]);
            && |kept| <= |h.messages|
            && (PairedBehind(base + kept, |base|) <==> !SplitsOff(h.messages, 1, |h.messages| - |kept|))
  {
    hide Base, TrimSpace, BlockEnd, CallsTools, IsSynthetic, IsPreamble, IsOpener, IsBoundary, TurnBegun, Flatten, Paired, PairedBehind;
    var messages := h.messages;
    var start := Effective(h);
    var recent := Recent(messages, h.compacted);
    assert recent == messages[start..] by {
      assert SystemPart(messages) == messages[..1];
    }
    ChunksShifted(messages, start, 0);
    var cut := TailIsSuffix(messages, start, from);
    BoundaryTransitive(messages, 1, start, cut);
    SecondIsNoAnswer(messages);
    if cut < |messages| && IsTool(messages[cut]) {
      ResultOpensBlock(messages, 1, cut);
    }
    SelectedAnswers(messages, Base(messages, summary, fixed), cut);
  }

  lemma SelectedAnswers(messages: seq<Message>, base: seq<Message>, cut: nat)
    requires Paired(messages) && cut <= |messages|
    ensures PairedBehind(base + messages[cut..], |base|) <==> cut == |messages| || !IsTool(messages[cut])
  {
    var selected := base + messages[cut..];
    if cut < |messages| {
      assert selected[|base|] == messages[cut];
    }
    forall i | |base| < i < |selected| && IsTool(selected[i]) ensures Answers(selected, i) {
      assert Answers(messages, cut + i - |base|);
    }
  }
}
