/** Grouping a history into blocks, compacting its old part, and selecting what the model sees. */
module ContextWindow {
  import opened Text
  import opened TokenBudget
  import opened Messages

  // ---- Blocks ----

  /** Generated material that belongs in front of the user message it prepares. */
  predicate IsPreamble(m: Message) {
    IsSynthetic(m) && !IsTurnContext(m)
  }

  /** Material that stays with the user message in front of it. */
  predicate Continues(m: Message) {
    IsTurnContext(m) || (!IsSynthetic(m) && m.role != User)
  }

  predicate IsTool(m: Message) {
    m.role == Tool
  }

  predicate CallsTools(m: Message) {
    m.role == Assistant && HasToolCall(m)
  }

  function Skip(messages: seq<Message>, i: nat, p: Message -> bool): (end: nat)
    requires i <= |messages|
    ensures i <= end <= |messages|
    ensures end < |messages| ==> !p(messages[end])
    decreases |messages| - i
  {
    if i < |messages| && p(messages[i]) then Skip(messages, i + 1, p) else i
  }

  function BlockEnd(messages: seq<Message>, start: nat): (end: nat)
    requires start < |messages|
    ensures start < end <= |messages|
  {
    var first := messages[start];
    if IsPreamble(first) then
      var preamble := Skip(messages, start + 1, IsPreamble);
      Skip(messages, if preamble < |messages| && messages[preamble].role == User then preamble + 1 else preamble, Continues)
    else if first.role == User then Skip(messages, start + 1, Continues)
    else if CallsTools(first) then Skip(messages, start + 1, IsTool)
    else start + 1
  }

  function ChunksFrom(messages: seq<Message>, start: nat): seq<seq<Message>>
    requires start <= |messages|
    decreases |messages| - start
  {
    if start == |messages| then []
    else
      var end := BlockEnd(messages, start);
      [messages[start..end]] + ChunksFrom(messages, end)
  }

  method MessageChunks(messages: seq<Message>) returns (chunks: seq<seq<Message>>)
    ensures chunks == ChunksFrom(messages, 0)
  {
    hide BlockEnd;
    chunks := [];
    var start := 0;
    while start < |messages|
      invariant 0 <= start <= |messages|
      invariant chunks + ChunksFrom(messages, start) == ChunksFrom(messages, 0)
    {
      var end := EndOfBlock(messages, start);
      assert (chunks + [messages[start..end]]) + ChunksFrom(messages, end) == chunks + ([messages[start..end]] + ChunksFrom(messages, end));
      chunks := chunks + [messages[start..end]];
      start := end;
    }
  }

  /** The body of that loop: the end of the block that begins at `start`. */
  method EndOfBlock(messages: seq<Message>, start: nat) returns (end: nat)
    requires start < |messages|
    ensures end == BlockEnd(messages, start)
  {
    hide IsPreamble, Continues, IsTool, CallsTools, Skip;
    end := start + 1;
    if IsPreamble(messages[start]) {
      end := SkipWhile(messages, end, IsPreamble);
      if end < |messages| && messages[end].role == User {
        end := end + 1;
      }
      end := SkipWhile(messages, end, Continues);
    } else if messages[start].role == User {
      end := SkipWhile(messages, end, Continues);
    } else if CallsTools(messages[start]) {
      end := SkipWhile(messages, end, IsTool);
    }
  }

  /** The inner loops. */
  method SkipWhile(messages: seq<Message>, i: nat, p: Message -> bool) returns (end: nat)
    requires i <= |messages|
    ensures end == Skip(messages, i, p)
  {
    end := i;
    while end < |messages| && p(messages[end])
      invariant i <= end <= |messages|
      invariant Skip(messages, end, p) == Skip(messages, i, p)
    {
      end := end + 1;
    }
  }

  function Flatten(chunks: seq<seq<Message>>): seq<Message> {
    if chunks == [] then [] else chunks[0] + Flatten(chunks[1..])
  }

  /** Blocks partition the history, in order, into non-empty pieces. */
  lemma {:induction false} ChunksPartition(messages: seq<Message>, start: nat)
    requires start <= |messages|
    ensures Flatten(ChunksFrom(messages, start)) == messages[start..]
    ensures forall i :: 0 <= i < |ChunksFrom(messages, start)| ==> ChunksFrom(messages, start)[i] != []
    decreases |messages| - start
  {
    hide BlockEnd;
    if start < |messages| {
      var end := BlockEnd(messages, start);
      ChunksPartition(messages, end);
      assert messages[start..end] + messages[end..] == messages[start..];
      assert ChunksFrom(messages, start)[1..] == ChunksFrom(messages, end);
    }
  }

  /** `k` is where a block of the history from `start` begins, or its end. */
  predicate IsBoundary(messages: seq<Message>, start: nat, k: int)
    requires start <= |messages|
    decreases |messages| - start
  {
    k == start || (start < |messages| && IsBoundary(messages, BlockEnd(messages, start), k))
  }

  /** Where the history is after its first `n` blocks. */
  function AfterBlocks(messages: seq<Message>, start: nat, n: nat): (k: nat)
    requires start <= |messages|
    ensures start <= k <= |messages|
    ensures IsBoundary(messages, start, k)
    decreases n
  {
    if n == 0 || start == |messages| then start else AfterBlocks(messages, BlockEnd(messages, start), n - 1)
  }

  lemma {:induction false} SkipShifted(messages: seq<Message>, k: nat, i: nat, p: Message -> bool)
    requires k + i <= |messages|
    ensures Skip(messages[k..], i, p) + k == Skip(messages, k + i, p)
    decreases |messages| - k - i
  {
    if k + i < |messages| && p(messages[k + i]) {
      SkipShifted(messages, k, i + 1, p);
    }
  }

  lemma BlockEndShifted(messages: seq<Message>, k: nat, i: nat)
    requires k + i < |messages|
    ensures BlockEnd(messages[k..], i) + k == BlockEnd(messages, k + i)
  {
    hide IsPreamble, Continues, IsTool, CallsTools, Skip;
    var rest := messages[k..];
    SkipShifted(messages, k, i + 1, IsPreamble);
    SkipShifted(messages, k, i + 1, Continues);
    SkipShifted(messages, k, i + 1, IsTool);
    var preamble := Skip(rest, i + 1, IsPreamble);
    SkipShifted(messages, k, preamble, Continues);
    if preamble < |rest| {
      SkipShifted(messages, k, preamble + 1, Continues);
    }
  }

  /** Grouping the rest of a history again gives the remaining blocks. */
  lemma {:induction false} ChunksShifted(messages: seq<Message>, k: nat, i: nat)
    requires k + i <= |messages|
    ensures ChunksFrom(messages[k..], i) == ChunksFrom(messages, k + i)
    decreases |messages| - k - i
  {
    hide BlockEnd;
    if k + i < |messages| {
      BlockEndShifted(messages, k, i);
      var end := BlockEnd(messages[k..], i);
      ChunksShifted(messages, k, end);
      assert messages[k..][i..end] == messages[k + i..k + end];
    }
  }

  // ---- Growth: only the last block depends on what comes later ----

  lemma {:induction false} SkipStable(messages: seq<Message>, more: seq<Message>, i: nat, p: Message -> bool)
    requires i <= |messages|
    ensures Skip(messages, i, p) < |messages| ==> Skip(messages + more, i, p) == Skip(messages, i, p)
    decreases |messages| - i
  {
    if i < |messages| && p(messages[i]) {
      SkipStable(messages, more, i + 1, p);
    }
  }

  lemma BlockEndStable(messages: seq<Message>, more: seq<Message>, start: nat)
    requires start < |messages|
    ensures BlockEnd(messages, start) < |messages| ==> BlockEnd(messages + more, start) == BlockEnd(messages, start)
  {
    hide IsPreamble, Continues, IsTool, CallsTools, Skip;
    SkipStable(messages, more, start + 1, IsPreamble);
    SkipStable(messages, more, start + 1, Continues);
    SkipStable(messages, more, start + 1, IsTool);
    var preamble := Skip(messages, start + 1, IsPreamble);
    SkipStable(messages, more, preamble, Continues);
    if preamble < |messages| {
      SkipStable(messages, more, preamble + 1, Continues);
    }
  }

  /** Appending messages keeps every block but the last. */
  lemma {:induction false} ChunksStable(messages: seq<Message>, more: seq<Message>, start: nat)
    requires start < |messages|
    ensures var chunks := ChunksFrom(messages, start);
            chunks != [] && chunks[..|chunks| - 1] <= ChunksFrom(messages + more, start)
    decreases |messages| - start
  {
    hide BlockEnd;
    var end := BlockEnd(messages, start);
    if end < |messages| {
      BlockEndStable(messages, more, start);
      ChunksStable(messages, more, end);
      var rest, rest' := ChunksFrom(messages, end), ChunksFrom(messages + more, end);
      var chunks := ChunksFrom(messages, start);
      assert (messages + more)[start..end] == messages[start..end];
      assert chunks[..|chunks| - 1] == [messages[start..end]] + rest[..|rest| - 1];
      assert ChunksFrom(messages + more, start) == [messages[start..end]] + rest';
    }
  }

  lemma {:induction false} BoundaryStable(messages: seq<Message>, more: seq<Message>, start: nat, k: int)
    requires start <= |messages| && IsBoundary(messages, start, k)
    requires k < |messages| || k == start
    ensures IsBoundary(messages + more, start, k)
    decreases |messages| - start
  {
    hide BlockEnd;
    if k != start {
      var end := BlockEnd(messages, start);
      BlockEndStable(messages, more, start);
      BoundaryInside(messages, end, k);
      BoundaryStable(messages, more, end, k);
    }
  }

  lemma {:induction false} BoundaryInside(messages: seq<Message>, start: nat, k: int)
    requires start <= |messages| && IsBoundary(messages, start, k)
    ensures start <= k <= |messages|
    decreases |messages| - start
  {
    if k != start {
      BoundaryInside(messages, BlockEnd(messages, start), k);
    }
  }

  lemma NoBoundaryBefore(messages: seq<Message>, start: nat, k: int)
    requires k < start <= |messages|
    ensures !IsBoundary(messages, start, k)
  {
    if IsBoundary(messages, start, k) {
      BoundaryInside(messages, start, k);
    }
  }

  lemma {:induction false} BoundaryTransitive(messages: seq<Message>, a: nat, b: nat, k: int)
    requires a <= |messages| && b <= |messages|
    requires IsBoundary(messages, a, b) && IsBoundary(messages, b, k)
    ensures IsBoundary(messages, a, k)
    decreases |messages| - a
  {
    if a != b {
      BoundaryTransitive(messages, BlockEnd(messages, a), b, k);
    }
  }

  // ---- Tool results stay with their calls ----

  /** A tool result follows its call or another result of it. */
  ghost predicate Answers(messages: seq<Message>, i: int)
    requires 0 <= i < |messages|
  {
    0 < i && (IsTool(messages[i - 1]) || CallsTools(messages[i - 1]))
  }

  ghost predicate Paired(messages: seq<Message>) {
    forall i :: 0 <= i < |messages| && IsTool(messages[i]) ==> Answers(messages, i)
  }

  /** What begins a block in the middle of a history. */
  predicate IsOpener(m: Message) {
    m.role == User || IsPreamble(m)
  }

  /** Generated context or a person's message opens a block, unless generated context is directly in front of it. */
  predicate OpensTurn(before: Message, m: Message) {
    && (if m.reason == "" then m.role == User else m.reason != "environment_context" && m.reason != "plan_context")
    && (before.reason == "" || before.reason == "environment_context" || before.reason == "plan_context")
  }

  /** A turn has begun between `start` and `k`. */
  ghost predicate TurnBegun(messages: seq<Message>, start: nat, k: nat)
    requires k <= |messages|
  {
    exists j :: start <= j < k && IsOpener(messages[j]) && !IsTool(messages[j])
  }

  /** A tool result marked as generated context, with nothing so marked in front of it, inside a turn. */
  ghost predicate SplitsOff(messages: seq<Message>, start: nat, k: nat) {
    && start < k < |messages| && IsTool(messages[k])
    && IsPreamble(messages[k]) && !IsPreamble(messages[k - 1]) && TurnBegun(messages, start, k)
  }

  lemma {:induction false} SkipAll(messages: seq<Message>, i: nat, p: Message -> bool, k: nat)
    requires i <= |messages| && i <= k < Skip(messages, i, p)
    ensures p(messages[k])
    decreases |messages| - i
  {
    if k > i {
      SkipAll(messages, i + 1, p, k);
    }
  }

  /** Where the generated context at the beginning of a turn's block ends, and where its answers begin. */
  function Preamble(messages: seq<Message>, start: nat): (k: nat)
    requires start < |messages|
    ensures k <= |messages|
  {
    if IsPreamble(messages[start]) then Skip(messages, start + 1, IsPreamble) else start
  }

  function Body(messages: seq<Message>, start: nat): (k: nat)
    requires start < |messages|
    ensures k <= |messages|
  {
    var k := Preamble(messages, start);
    if k < |messages| && messages[k].role == User then k + 1 else k
  }

  lemma BlockEndsAt(messages: seq<Message>, start: nat)
    requires start < |messages| && IsOpener(messages[start])
    ensures BlockEnd(messages, start) == Skip(messages, Body(messages, start), Continues)
  {
    hide Skip, IsSynthetic, IsTurnContext, CallsTools;
  }

  lemma PreambleStops(messages: seq<Message>, start: nat)
    requires start < |messages|
    ensures Preamble(messages, start) < |messages| ==> !IsPreamble(messages[Preamble(messages, start)])
    ensures IsOpener(messages[start]) && !IsPreamble(messages[start]) ==> Body(messages, start) == start + 1
  {
    hide Skip, IsPreamble;
  }

  lemma AroundEnd(messages: seq<Message>, body: nat)
    requires body <= |messages|
    ensures var end := Skip(messages, body, Continues);
            && (end < |messages| ==> !Continues(messages[end])) && (body < end ==> Continues(messages[end - 1]))
  {
    hide Continues;
    var end := Skip(messages, body, Continues);
    if body < end {
      SkipAll(messages, body, Continues, end - 1);
    }
  }

  /** In front of an empty rest of the block is its user message. */
  lemma BeforeBody(messages: seq<Message>, start: nat)
    requires start < |messages| && IsOpener(messages[start])
    ensures var body := Body(messages, start);
            0 < body && (body < |messages| && IsOpener(messages[body]) ==> !IsPreamble(messages[body - 1]))
  {
    PreambleStops(messages, start);
    hide Skip, IsPreamble;
  }

  lemma OpensAt(messages: seq<Message>, body: nat, end: nat)
    requires 0 < body <= end < |messages| && !Continues(messages[end]) && (body < end ==> Continues(messages[end - 1]))
    requires IsOpener(messages[body]) ==> !IsPreamble(messages[body - 1])
    ensures OpensTurn(messages[end - 1], messages[end])
  {
  }

  /** Behind the block of a turn the next one opens. */
  lemma BehindTurn(messages: seq<Message>, start: nat)
    requires start < |messages| && IsOpener(messages[start])
    ensures var end := BlockEnd(messages, start);
            end < |messages| ==> IsOpener(messages[end]) && OpensTurn(messages[end - 1], messages[end])
  {
    BlockEndsAt(messages, start);
    hide BlockEnd, Skip, Body, Preamble, IsOpener, IsPreamble, Continues, OpensTurn;
    var body := Body(messages, start);
    AroundEnd(messages, body);
    BeforeBody(messages, start);
    var end := Skip(messages, body, Continues);
    if end < |messages| {
      OpensAt(messages, body, end);
      OpenerOpens(messages[end - 1], messages[end]);
    }
  }

  lemma OpenerOpens(before: Message, m: Message)
    ensures OpensTurn(before, m) ==> IsOpener(m)
    ensures IsPreamble(before) || Continues(m) ==> !OpensTurn(before, m)
    ensures IsTool(m) ==> (OpensTurn(before, m) <==> IsPreamble(m) && !IsPreamble(before))
  {
  }

  /** Inside the block of a turn nothing opens. */
  lemma InsideTurn(messages: seq<Message>, start: nat, k: nat)
    requires start < |messages| && IsOpener(messages[start]) && start < k < BlockEnd(messages, start)
    ensures !OpensTurn(messages[k - 1], messages[k])
  {
    BlockEndsAt(messages, start);
    OpenerOpens(messages[k - 1], messages[k]);
    hide BlockEnd, Skip, IsPreamble, Continues, OpensTurn;
    if Body(messages, start) <= k {
      SkipAll(messages, Body(messages, start), Continues, k);
    } else if start < k - 1 {
      SkipAll(messages, start + 1, IsPreamble, k - 1);
    }
  }

  /**
   * From the beginning of a turn on, whatever the history, a block begins exactly with generated context or a
   * person's message that has no generated context directly in front of it.
   */
  lemma {:induction false} TurnsOpenBlocks(messages: seq<Message>, start: nat, k: nat)
    requires start < k < |messages| && IsOpener(messages[start])
    ensures IsBoundary(messages, start, k) <==> OpensTurn(messages[k - 1], messages[k])
    decreases |messages| - start
  {
    var end := BlockEnd(messages, start);
    BehindTurn(messages, start);
    hide BlockEnd, IsPreamble, IsOpener, OpensTurn;
    if k < end {
      InsideTurn(messages, start, k);
      NoBoundaryBefore(messages, end, k);
    } else if end < k {
      TurnsOpenBlocks(messages, end, k);
    }
  }

  /** So a tool result begins a block when it is marked as generated context and the message in front of it is not. */
  lemma ResultInTurnOpensBlock(messages: seq<Message>, start: nat, k: nat)
    requires start < k < |messages| && IsOpener(messages[start]) && IsTool(messages[k])
    ensures IsBoundary(messages, start, k) <==> IsPreamble(messages[k]) && !IsPreamble(messages[k - 1])
  {
    TurnsOpenBlocks(messages, start, k);
    OpenerOpens(messages[k - 1], messages[k]);
    hide IsBoundary, OpensTurn, IsPreamble, IsOpener;
  }

  /** A block that does not begin a turn is a call with its results or one message. */
  lemma PlainBlock(messages: seq<Message>, start: nat)
    requires Paired(messages) && start < |messages| && !IsOpener(messages[start]) && !IsTool(messages[start])
    ensures var end := BlockEnd(messages, start);
            && (forall j :: start < j < end ==> IsTool(messages[j]))
            && (end < |messages| ==> !IsTool(messages[end]))
  {
    var end := BlockEnd(messages, start);
    forall j | start < j < end ensures IsTool(messages[j]) {
      SkipAll(messages, start + 1, IsTool, j);
    }
  }

  /**
   * Every block of a history whose tool results follow their calls: before the first turn each message but a
   * tool result begins one, and from then on it goes by turns.
   */
  lemma {:induction false} BlocksBegin(messages: seq<Message>, start: nat, k: nat)
    requires Paired(messages) && start < k < |messages| && !IsTool(messages[start])
    ensures IsBoundary(messages, start, k) <==>
            if TurnBegun(messages, start, k) then OpensTurn(messages[k - 1], messages[k]) else !IsTool(messages[k])
    decreases |messages| - start
  {
    if IsOpener(messages[start]) {
      TurnsOpenBlocks(messages, start, k);
      assert TurnBegun(messages, start, k);
    } else {
      var end := BlockEnd(messages, start);
      PlainBlock(messages, start);
      hide BlockEnd, IsOpener, Paired, OpensTurn;
      if k < end {
        NoBoundaryBefore(messages, end, k);
      } else if end < k {
        BlocksBegin(messages, end, k);
        assert TurnBegun(messages, start, k) <==> TurnBegun(messages, end, k);
      }
    }
  }

  /** So its tool results stay with their calls, except those split off by their marking. */
  lemma ResultOpensBlock(messages: seq<Message>, start: nat, k: nat)
    requires Paired(messages) && start <= k < |messages| && !IsTool(messages[start]) && IsTool(messages[k])
    ensures IsBoundary(messages, start, k) <==> SplitsOff(messages, start, k)
  {
    BlocksBegin(messages, start, k);
    OpenerOpens(messages[k - 1], messages[k]);
    hide IsBoundary, OpensTurn, IsPreamble, TurnBegun, Paired;
  }

  /** No block begins with a tool result exactly when no tool result is split off by its marking. */
  lemma BoundaryNeverSplitsAnswers(messages: seq<Message>, start: nat)
    requires Paired(messages) && start < |messages| && !IsTool(messages[start])
    ensures (forall k :: start <= k < |messages| && IsBoundary(messages, start, k) ==> !IsTool(messages[k])) <==>
            forall k :: !SplitsOff(messages, start, k)
  {
    forall k | start <= k < |messages| && IsTool(messages[k])
      ensures IsBoundary(messages, start, k) <==> SplitsOff(messages, start, k)
    {
      ResultOpensBlock(messages, start, k);
    }
    hide IsBoundary, Paired;
  }

  /** The failing side is not empty: a tool result marked as generated context opens a block behind its call. */
  lemma GeneratedAnswerOpensBlock()
    ensures var call := Message(Assistant, "", "", [CallPart(Some(ToolCall("1", "function", "f", "{}")))]);
            var answer := Message(Tool, "hook_context", "", []);
            var messages := [SystemText("s"), Message(User, "", "", []), call, answer];
            Paired(messages) && SplitsOff(messages, 1, 3) && IsBoundary(messages, 1, 3)
  {
    var call := Message(Assistant, "", "", [CallPart(Some(ToolCall("1", "function", "f", "{}")))]);
    var answer := Message(Tool, "hook_context", "", []);
    var messages := [SystemText("s"), Message(User, "", "", []), call, answer];
    assert call.parts[0].CallPart?;
    assert "hook_context"[0] != "environment_context"[0] && "hook_context"[0] != "plan_context"[0];
    assert IsOpener(messages[1]);
    ResultOpensBlock(messages, 1, 3);
  }

  // ---- Compaction ----

  function NormalizeCompacted(messages: seq<Message>, compacted: int): (start: nat)
    ensures start <= |messages|
  {
    if messages == [] then 0
    else if compacted < 1 then 1
    else if compacted > |messages| then |messages|
    else compacted
  }

  function KeepChunks(keep: int): nat {
    if keep <= 0 then 8 else keep
  }

  /** Where a compaction cuts: all blocks but the last `keep`. */
  function Cutoff(messages: seq<Message>, compacted: int, keep: int): (cutoff: nat)
    ensures NormalizeCompacted(messages, compacted) <= cutoff <= |messages|
  {
    var start := NormalizeCompacted(messages, compacted);
    var blocks := |ChunksFrom(messages, start)|;
    if blocks <= KeepChunks(keep) then start else AfterBlocks(messages, start, blocks - KeepChunks(keep))
  }

  lemma {:induction false} AfterBlocksIsLength(messages: seq<Message>, start: nat, n: nat)
    requires start <= |messages| && n <= |ChunksFrom(messages, start)|
    ensures AfterBlocks(messages, start, n) == start + |Flatten(ChunksFrom(messages, start)[..n])|
    decreases n
  {
    hide BlockEnd;
    if n > 0 {
      var end := BlockEnd(messages, start);
      AfterBlocksIsLength(messages, end, n - 1);
      var chunks := ChunksFrom(messages, start);
      assert chunks[..n][1..] == chunks[1..][..n - 1];
      assert chunks[1..] == ChunksFrom(messages, end);
    }
  }

  lemma {:induction false} AfterSomeBlocks(messages: seq<Message>, start: nat, n: nat)
    requires start <= |messages| && n < |ChunksFrom(messages, start)|
    ensures AfterBlocks(messages, start, n) < |messages|
    ensures n > 0 ==> AfterBlocks(messages, start, n) > start
    decreases n
  {
    hide BlockEnd;
    if n > 0 {
      AfterSomeBlocks(messages, BlockEnd(messages, start), n - 1);
    }
  }

  lemma {:induction false} BlocksBehind(messages: seq<Message>, start: nat, n: nat)
    requires start <= |messages| && n <= |ChunksFrom(messages, start)|
    ensures |ChunksFrom(messages, AfterBlocks(messages, start, n))| == |ChunksFrom(messages, start)| - n
    decreases n
  {
    hide BlockEnd;
    if n > 0 {
      BlocksBehind(messages, BlockEnd(messages, start), n - 1);
    }
  }

  /** A cut moves exactly when there are more blocks than are kept, and keeps exactly that many, eight unless told otherwise. */
  lemma CutoffKeeps(messages: seq<Message>, compacted: int, keepChunks: int)
    ensures var start, keep := NormalizeCompacted(messages, compacted), if keepChunks <= 0 then 8 else keepChunks;
            var cutoff := Cutoff(messages, compacted, keepChunks);
            && (cutoff == start <==> |ChunksFrom(messages, start)| <= keep)
            && (cutoff > start ==> |ChunksFrom(messages, cutoff)| == |ChunksFrom(messages[cutoff..], 0)| == keep && cutoff < |messages|)
  {
    hide BlockEnd, ChunksFrom, AfterBlocks;
    var start := NormalizeCompacted(messages, compacted);
    var cutoff, extra := Cutoff(messages, compacted, keepChunks), |ChunksFrom(messages, start)| - KeepChunks(keepChunks);
    if extra > 0 {
      BlocksBehind(messages, start, extra);
      AfterSomeBlocks(messages, start, extra);
      ChunksShifted(messages, cutoff, 0);
    }
  }

  method CompactSplit(messages: seq<Message>, compacted: int, keepChunks: int)
    returns (replaced: seq<Message>, recent: seq<Message>, cutoff: int)
    ensures cutoff == Cutoff(messages, compacted, keepChunks)
    ensures var start := NormalizeCompacted(messages, compacted);
            replaced == messages[start..cutoff] && recent == messages[cutoff..]
    ensures var start, keep := NormalizeCompacted(messages, compacted), if keepChunks <= 0 then 8 else keepChunks;
            && (replaced == [] <==> |ChunksFrom(messages, start)| <= keep)
            && (replaced != [] ==> |ChunksFrom(recent, 0)| == keep)
  {
    CutoffKeeps(messages, compacted, keepChunks);
    hide BlockEnd, ChunksFrom, AfterBlocks;
    var keep := keepChunks;
    if keep <= 0 {
      keep := 8;
    }
    var start := NormalizeCompacted(messages, compacted);
    if start >= |messages| {
      return [], [], start;
    }
    var chunks := MessageChunks(messages[start..]);
    ChunksShifted(messages, start, 0);
    if |chunks| <= keep {
      assert messages[start..start] == [];
      return [], messages[start..], start;
    }
    var compactChunkCount := |chunks| - keep;
    var compactableCount := 0;
    var i := 0;
    while i < compactChunkCount
      invariant 0 <= i <= compactChunkCount
      invariant compactableCount == |Flatten(chunks[..i])|
    {
      FlattenAppend(chunks[..i], chunks[i]);
      assert chunks[..i + 1] == chunks[..i] + [chunks[i]];
      compactableCount := compactableCount + |chunks[i]|;
      i := i + 1;
    }
    AfterBlocksIsLength(messages, start, compactChunkCount);
    cutoff := start + compactableCount;
    replaced, recent := messages[start..cutoff], messages[cutoff..];
  }

  lemma {:induction false} FlattenAppend(chunks: seq<seq<Message>>, chunk: seq<Message>)
    ensures Flatten(chunks + [chunk]) == Flatten(chunks) + chunk
  {
    if chunks == [] {
      assert chunks + [chunk] == [chunk];
    } else {
      FlattenAppend(chunks[1..], chunk);
      assert (chunks + [chunk])[1..] == chunks[1..] + [chunk];
      assert chunks[0] + (Flatten(chunks[1..]) + chunk) == (chunks[0] + Flatten(chunks[1..])) + chunk;
    }
  }

  // ---- A session: appended to and compacted any number of times ----

  datatype History = History(messages: seq<Message>, compacted: int)

  ghost predicate Start(h: History) {
    h.messages != [] && h.compacted == 0
  }

  ghost predicate Appends(h: History, h': History) {
    h.messages <= h'.messages && h'.compacted == h.compacted
  }

  /** A compaction keeps its cutoff only when it found something to summarize. */
  ghost predicate Compacts(h: History, h': History, keep: int) {
    && h'.messages == h.messages
    && h'.compacted == if Cutoff(h.messages, h.compacted, keep) > NormalizeCompacted(h.messages, h.compacted)
                       then Cutoff(h.messages, h.compacted, keep) else h.compacted
  }

  ghost predicate Next(h: History, h': History) {
    Appends(h, h') || exists keep :: Compacts(h, h', keep)
  }

  ghost predicate Run(trace: seq<History>) {
    trace != [] && Start(trace[0]) && forall i :: 0 < i < |trace| ==> Next(trace[i - 1], trace[i])
  }

  function Effective(h: History): nat {
    NormalizeCompacted(h.messages, h.compacted)
  }

  /** The cut is at a block boundary of the history behind its first message. */
  ghost predicate CutSafely(h: History) {
    && h.messages != [] && h.compacted <= |h.messages|
    && IsBoundary(h.messages, 1, Effective(h))
    && (Effective(h) == 1 || Effective(h) < |h.messages|)
  }

  lemma AppendCutsSafely(h: History, more: seq<Message>)
    requires CutSafely(h)
    ensures var h' := History(h.messages + more, h.compacted);
            CutSafely(h') && Effective(h) == Effective(h')
  {
    hide BlockEnd, IsBoundary;
    BoundaryStable(h.messages, more, 1, Effective(h));
  }

  lemma CompactCutsSafely(h: History, keep: int)
    requires CutSafely(h) && Cutoff(h.messages, h.compacted, keep) > Effective(h)
    ensures CutSafely(h.(compacted := Cutoff(h.messages, h.compacted, keep)))
  {
    hide BlockEnd, IsBoundary, ChunksFrom;
    var start := Effective(h);
    var n := |ChunksFrom(h.messages, start)| - KeepChunks(keep);
    AfterSomeBlocks(h.messages, start, n);
    BoundaryTransitive(h.messages, 1, start, Cutoff(h.messages, h.compacted, keep));
  }

  lemma NextCutsSafely(h: History, h': History)
    requires CutSafely(h) && Next(h, h')
    ensures CutSafely(h') && Effective(h) <= Effective(h')
  {
    hide Cutoff, CutSafely, IsBoundary;
    if Appends(h, h') {
      var more := h'.messages[|h.messages|..];
      assert h' == History(h.messages + more, h.compacted);
      AppendCutsSafely(h, more);
    } else {
      var keep :| Compacts(h, h', keep);
      if Cutoff(h.messages, h.compacted, keep) > Effective(h) {
        CompactCutsSafely(h, keep);
        assert h' == h.(compacted := Cutoff(h.messages, h.compacted, keep));
      }
    }
    CutsHaveMessages(h');
  }

  lemma CutsHaveMessages(h: History)
    requires CutSafely(h)
    ensures h.messages != [] && 1 <= Effective(h) <= |h.messages|
  {
  }

  /**
   * Over every run of a session the cut only moves forward and always lies between blocks. When tool results
   * follow their calls and the history opens with a system message, the first message kept verbatim
   * is a tool result exactly when its marking splits it off.
   */
  lemma {:induction false} CompactionIsSafe(trace: seq<History>, i: nat, j: nat)
    requires Run(trace) && i <= j < |trace|
    ensures CutSafely(trace[j]) && Effective(trace[i]) <= Effective(trace[j])
    ensures var h := trace[j];
            Paired(h.messages) && h.messages[0].role == System && Effective(h) < |h.messages|
            ==> (IsTool(h.messages[Effective(h)]) <==> SplitsOff(h.messages, 1, Effective(h)))
    decreases j
  {
    hide Paired;
    if j > 0 {
      CompactionIsSafe(trace, if i < j then i else j - 1, j - 1);
      NextCutsSafely(trace[j - 1], trace[j]);
    }
    var h := trace[j];
    if Paired(h.messages) && h.messages[0].role == System && Effective(h) < |h.messages| {
      SecondIsNoAnswer(h.messages);
      if IsTool(h.messages[Effective(h)]) {
        ResultOpensBlock(h.messages, 1, Effective(h));
      }
    }
  }

  lemma SecondIsNoAnswer(messages: seq<Message>)
    requires Paired(messages) && messages != [] && messages[0].role == System
    ensures |messages| > 1 ==> !IsTool(messages[1])
  {
  }
}
