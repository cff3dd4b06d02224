/** Conversation messages and their token estimate. */
module Messages {
  import opened Text
  import opened TokenBudget

  datatype Role = System | User | Assistant | Tool

  datatype ToolCall = ToolCall(id: string, kind: string, name: string, arguments: string)

  /** `prompt` is the encoded result text the model is shown. */
  datatype ToolResult = ToolResult(callId: string, name: string, prompt: string)

  datatype Part =
    | TextPart(text: string)
    | CallPart(call: Option<ToolCall>)
    | ResultPart(result: Option<ToolResult>)
    | OtherPart(printed: string)

  /** `reason` is empty for messages a person, model or tool produced. */
  datatype Message = Message(role: Role, reason: string, reasoning: string, parts: seq<Part>)

  predicate IsSynthetic(m: Message) {
    m.reason != ""
  }

  predicate IsTurnContext(m: Message) {
    m.reason == "environment_context" || m.reason == "plan_context"
  }

  predicate HasToolCall(m: Message) {
    exists i :: 0 <= i < |m.parts| && m.parts[i].CallPart? && m.parts[i].call.Some?
  }

  const COMPACTION_SUMMARY_PREFIX := "Previous conversation summary (context only):"

  function SystemText(text: string): Message {
    Message(System, "", "", [TextPart(text)])
  }

  function CompactionSummary(text: string): Message {
    Message(User, "compaction_summary", "", [TextPart(COMPACTION_SUMMARY_PREFIX + "\n" + TrimSpace(text))])
  }

  /** `text` ends in `end`. */
  predicate EndsIn(text: string, end: string) {
    |end| <= |text| && text[|text| - |end|..] == end
  }

  /** A contextual message of the user, marked as a summary, whose one text ends in the trimmed summary. */
  predicate IsSummaryOf(m: Message, summary: string) {
    && m.role == User && m.reason == "compaction_summary" && m.reasoning == ""
    && |m.parts| == 1 && m.parts[0].TextPart? && EndsIn(m.parts[0].text, TrimSpace(summary))
  }

  lemma SummaryIsCarried(summary: string)
    ensures IsSummaryOf(CompactionSummary(TrimSpace(summary)), summary)
  {
    TrimSpaceFixesTrimmed(summary);
    TrimSpaceFixesTrimmed(TrimSpace(summary));
    hide TrimSpace;
    var m, text := CompactionSummary(TrimSpace(summary)), TrimSpace(summary);
    assert m.parts[0].text == (COMPACTION_SUMMARY_PREFIX + "\n") + text;
  }

  function PartTokens(part: Part): nat {
    match part
    case TextPart(text) => Estimate(text)
    case CallPart(None) => 0
    case CallPart(Some(c)) => Estimate(c.id + " " + c.kind + " " + c.name + " " + c.arguments)
    case ResultPart(None) => 0
    case ResultPart(Some(r)) => Estimate(r.callId + " " + r.name + " " + r.prompt)
    case OtherPart(printed) => Estimate(printed)
  }

  function PartsTokens(parts: seq<Part>): nat {
    if parts == [] then 0 else PartTokens(parts[0]) + PartsTokens(parts[1..])
  }

  function MessageTokens(m: Message): (tokens: nat)
    ensures tokens >= 4
  {
    4 + Estimate(m.reasoning) + PartsTokens(m.parts)
  }

  function Tokens(messages: seq<Message>): nat {
    if messages == [] then 0 else MessageTokens(messages[0]) + Tokens(messages[1..])
  }

  lemma {:induction false} TokensAdd(a: seq<Message>, b: seq<Message>)
    ensures Tokens(a + b) == Tokens(a) + Tokens(b)
  {
    hide MessageTokens;
    if a == [] {
      assert a + b == b;
    } else {
      TokensAdd(a[1..], b);
      assert (a + b)[1..] == a[1..] + b;
    }
  }

  /** A piece of text is part of what a part prints. */
  predicate Prints(part: Part, text: string) {
    match part
    case TextPart(t) => text == t
    case CallPart(None) => false
    case CallPart(Some(c)) => text in {c.id, c.kind, c.name, c.arguments}
    case ResultPart(None) => false
    case ResultPart(Some(r)) => text in {r.callId, r.name, r.prompt}
    case OtherPart(printed) => text == printed
  }

  /** Nothing a message says is free. */
  lemma TextIsCounted(m: Message, i: nat, text: string)
    requires i < |m.parts| && Prints(m.parts[i], text)
    ensures 4 + Estimate(m.reasoning) + Estimate(text) <= MessageTokens(m)
  {
    PrintedIsCounted(m.parts[i], text);
    PartIsCounted(m.parts, i);
    hide PartTokens, PartsTokens, Estimate, Prints;
  }

  lemma PrintedIsCounted(part: Part, text: string)
    requires Prints(part, text)
    ensures Estimate(text) <= PartTokens(part)
  {
    hide Estimate;
    match part {
      case CallPart(Some(c)) =>
        FourPieces(c.id, c.kind, c.name, c.arguments);
      case ResultPart(Some(r)) =>
        ThreePieces(r.callId, r.name, r.prompt);
      case _ =>
    }
  }

  lemma ThreePieces(a: string, b: string, c: string)
    ensures var all := a + " " + b + " " + c;
            Estimate(a) <= Estimate(all) && Estimate(b) <= Estimate(all) && Estimate(c) <= Estimate(all)
  {
    hide Estimate;
    EstimateSplits(a + " " + b + " ", c);
    EstimateSplits(a, " " + b + " " + c);
    assert a + (" " + b + " " + c) == a + " " + b + " " + c;
    EstimateSplits(b, " " + c);
    EstimateSplits(a + " ", b + (" " + c));
    assert a + " " + (b + (" " + c)) == a + " " + b + " " + c;
  }

  lemma FourPieces(a: string, b: string, c: string, d: string)
    ensures var all := a + " " + b + " " + c + " " + d;
            Estimate(a) <= Estimate(all) && Estimate(b) <= Estimate(all) && Estimate(c) <= Estimate(all) && Estimate(d) <= Estimate(all)
  {
    hide Estimate;
    ThreePieces(a, b, c);
    EstimateSplits(a + " " + b + " " + c, " " + d);
    EstimateSplits(a + " " + b + " " + c + " ", d);
    assert a + " " + b + " " + c + (" " + d) == a + " " + b + " " + c + " " + d;
  }

  lemma {:induction false} PartIsCounted(parts: seq<Part>, i: nat)
    requires i < |parts|
    ensures PartTokens(parts[i]) <= PartsTokens(parts)
  {
    hide PartTokens;
    if i > 0 {
      PartIsCounted(parts[1..], i - 1);
    }
  }

  method EstimateMessagesTokens(messages: seq<Message>) returns (total: nat)
    ensures total == Tokens(messages)
  {
    hide Estimate, PartTokens;
    total := 0;
    var i := 0;
    while i < |messages|
      invariant 0 <= i <= |messages|
      invariant total + Tokens(messages[i..]) == Tokens(messages)
    {
      var message := messages[i];
      assert messages[i..][1..] == messages[i + 1..];
      ghost var before := total;
      total := total + 4;
      var reasoning := EstimateTextTokens(message.reasoning);
      total := total + reasoning;
      var j := 0;
      while j < |message.parts|
        invariant 0 <= j <= |message.parts|
        invariant total + PartsTokens(message.parts[j..]) == before + MessageTokens(message)
      {
        assert message.parts[j..][1..] == message.parts[j + 1..];
        total := total + PartTokens(message.parts[j]);
        j := j + 1;
      }
      i := i + 1;
    }
  }
}
