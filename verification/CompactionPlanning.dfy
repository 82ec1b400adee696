/** Planning a compaction by binary search, and the token estimate it runs on
    (crux-ai/core/compaction.go, crux-ai/core/overflow.go). */
module CompactionPlanning {
  import opened Text
  import opened Messages

  /** `threshold` is a real here; the program compares floating-point ratios. */
  datatype Config = Config(contextWindow: int, maxOutput: int, headroom: int, threshold: real, minMessagesToKeep: int)

  datatype Request = Request(toSummarize: seq<Message>, toKeep: seq<Message>, tokensBefore: int, tokensKept: int,
                             splitIndex: nat)

  datatype Plan = Planned(request: Request) | NotEnoughMessages | NoBudget | NotNeeded | OutOfRange

  type Counter = seq<Message> -> int

  function AvailableBudget(c: Config): (b: nat)
    ensures b + c.maxOutput + c.headroom >= c.contextWindow
    ensures b > 0 ==> b + c.maxOutput + c.headroom == c.contextWindow
  {
    var avail := c.contextWindow - c.maxOutput - c.headroom;
    if avail < 0 then 0 else avail
  }

  predicate NeedsCompaction(count: Counter, messages: seq<Message>, c: Config) {
    && |messages| > c.minMessagesToKeep
    && AvailableBudget(c) != 0
    && Ratio(count(messages), AvailableBudget(c)) >= c.threshold
  }

  function Ratio(used: int, available: nat): (r: real)
    requires available != 0
    ensures r * available as real == used as real
  {
    used as real / available as real
  }

  /** At least one message stays, and at least one goes. */
  function MinKeep(n: nat, c: Config): int {
    var m := if c.minMessagesToKeep < 1 then 1 else c.minMessagesToKeep;
    if m > n - 1 then n - 1 else m
  }

  predicate Fits(count: Counter, messages: seq<Message>, c: Config, split: nat)
    requires split <= |messages|
  {
    count(messages[split..]) <= AvailableBudget(c)
  }

  /** Dropping more from the front never costs more tokens. */
  ghost predicate SuffixAntitone(count: Counter, messages: seq<Message>) {
    forall i, j | 0 <= i <= j <= |messages| :: count(messages[j..]) <= count(messages[i..])
  }

  /** The binary search settles between a split that is too long and one that fits. */
  method FindSplit(count: Counter, messages: seq<Message>, c: Config, last: nat) returns (split: nat)
    requires last <= |messages|
    ensures split <= last
    ensures split < last ==> Fits(count, messages, c, split)
    ensures split > 0 ==> !Fits(count, messages, c, split - 1)
    ensures SuffixAntitone(count, messages) ==> forall k | 0 <= k < split :: !Fits(count, messages, c, k)
  {
    var low, high := 0, last;
    while low < high
      invariant 0 <= low <= high <= last
      invariant high < last ==> Fits(count, messages, c, high)
      invariant low > 0 ==> !Fits(count, messages, c, low - 1)
    {
      var mid := (low + high) / 2;
      if count(messages[mid..]) <= AvailableBudget(c) {
        high := mid;
      } else {
        low := mid + 1;
      }
    }
    split := low;
    if SuffixAntitone(count, messages) && split > 0 {
      NothingShorterFits(count, messages, c, split);
    }
  }

  lemma NothingShorterFits(count: Counter, messages: seq<Message>, c: Config, split: nat)
    requires SuffixAntitone(count, messages) && 0 < split <= |messages| && !Fits(count, messages, c, split - 1)
    ensures forall k | 0 <= k < split :: !Fits(count, messages, c, k)
  {
    forall k | 0 <= k < split
      ensures !Fits(count, messages, c, k)
    {
      assert count(messages[split - 1..]) <= count(messages[k..]);
    }
  }

  /** A plan exists exactly when compaction is needed; it splits the history at the first point in range
      whose rest fits, or at the last point in range. The one exception is an empty history under a
      negative minimum whose empty rest is over budget: there the program slices out of range. */
  method PlanCompaction(count: Counter, messages: seq<Message>, c: Config) returns (plan: Plan)
    ensures plan.Planned? || plan.OutOfRange? <==> NeedsCompaction(count, messages, c)
    ensures plan.OutOfRange? <==>
              NeedsCompaction(count, messages, c) && messages == [] && count([]) > AvailableBudget(c)
    ensures plan.Planned? ==> SplitsWell(count, messages, c, plan.request)
    ensures plan.NotEnoughMessages? <==> |messages| <= c.minMessagesToKeep
    ensures plan.NoBudget? <==> |messages| > c.minMessagesToKeep && AvailableBudget(c) == 0
  {
    hide Ratio, SuffixAntitone, Fits, AvailableBudget;
    if |messages| <= c.minMessagesToKeep {
      return NotEnoughMessages;
    }
    var tokensUsed := count(messages);
    var available := AvailableBudget(c);
    if available == 0 {
      return NoBudget;
    }
    if Ratio(tokensUsed, available) < c.threshold {
      return NotNeeded;
    }
    var minKeep := c.minMessagesToKeep;
    if minKeep < 1 {
      minKeep := 1;
    }
    if minKeep > |messages| - 1 {
      minKeep := |messages| - 1;
    }
    if |messages| == 0 {
      // minKeep is -1, so the search runs over the splits 0 and 1.
      if count(messages[0..]) <= available {
        return Planned(Request([], [], tokensUsed, count([]), 0));
      }
      return OutOfRange;
    }
    var splitIdx := FindSplit(count, messages, c, |messages| - minKeep);
    var maxSplitIdx := |messages| - minKeep;
    ghost var found := splitIdx;
    if splitIdx > maxSplitIdx {
      splitIdx := maxSplitIdx;
    }
    if |messages| - splitIdx < minKeep {
      splitIdx := |messages| - minKeep;
    }
    assert splitIdx == found;
    var toKeep := messages[splitIdx..];
    plan := Planned(Request(messages[..splitIdx], toKeep, tokensUsed, count(toKeep), splitIdx));
  }

  ghost predicate SplitsWell(count: Counter, messages: seq<Message>, c: Config, r: Request) {
    && r.toSummarize + r.toKeep == messages && |r.toSummarize| == r.splitIndex
    && |r.toKeep| >= MinKeep(|messages|, c)
    && r.tokensBefore == count(messages) && r.tokensKept == count(r.toKeep)
    && (r.tokensKept <= AvailableBudget(c) || |r.toKeep| == MinKeep(|messages|, c))
    && (SuffixAntitone(count, messages) ==> forall k | 0 <= k < r.splitIndex :: !Fits(count, messages, c, k))
  }

  // ---------------------------------------------------------------- the token estimate

  datatype Tool = Tool(name: string, description: string, parameters: string)

  const CHARS_PER_TOKEN: nat := 4
  const ESTIMATED_IMAGE_CHARS: nat := 4800

  function Tokens(s: string): nat {
    (ByteLength(s) + CHARS_PER_TOKEN - 1) / CHARS_PER_TOKEN
  }

  function EstimateBlock(b: ContentBlock): nat {
    match b
    case TextContent(text, _) => Tokens(text)
    case ThinkingContent(thinking, _, _) => Tokens(thinking)
    case ImageContent(_, _) => ESTIMATED_IMAGE_CHARS / CHARS_PER_TOKEN
    case ToolCall(call) =>
      (ByteLength(call.name) + ByteLength(call.arguments) + CHARS_PER_TOKEN - 1) / CHARS_PER_TOKEN + 4
    case ForeignBlock(_) => 0
  }

  function BlocksTotal(blocks: seq<ContentBlock>): nat {
    if blocks == [] then 0 else BlocksTotal(blocks[..|blocks| - 1]) + EstimateBlock(blocks[|blocks| - 1])
  }

  function MessageTotal(m: Message): nat {
    match m
    case UserMessage(Plain(text), _) => Tokens(text)
    case UserMessage(Blocks(blocks), _) => BlocksTotal(blocks)
    case UserMessage(OtherContent, _) => 0
    case AssistantMessage(turn) => BlocksTotal(turn.content)
    case ToolResultMessage(_, _, result, _, _) => BlocksTotal(result)
    case NilMessage => 0
    case ForeignMessage(_) => 0
  }

  function MessagesTotal(messages: seq<Message>): nat {
    if messages == [] then 0 else MessagesTotal(messages[..|messages| - 1]) + MessageTotal(messages[|messages| - 1])
  }

  function ToolsTotal(tools: seq<Tool>): nat {
    if tools == [] then 0
    else
      var t := tools[|tools| - 1];
      ToolsTotal(tools[..|tools| - 1]) + Tokens(t.name) + Tokens(t.description) + Tokens(t.parameters)
  }

  function Estimate(systemPrompt: string, messages: seq<Message>, tools: seq<Tool>): nat {
    Tokens(systemPrompt) + MessagesTotal(messages) + ToolsTotal(tools)
  }

  method EstimateBlocks(blocks: seq<ContentBlock>) returns (total: nat)
    ensures total == BlocksTotal(blocks)
  {
    total := 0;
    for i := 0 to |blocks|
      invariant total == BlocksTotal(blocks[..i])
    {
      assert blocks[..i + 1][..i] == blocks[..i];
      total := total + EstimateBlock(blocks[i]);
    }
    assert blocks[..|blocks|] == blocks;
  }

  method EstimateMessage(m: Message) returns (total: nat)
    ensures total == MessageTotal(m)
  {
    match m
    case UserMessage(content, _) =>
      match content {
        case Plain(text) => total := Tokens(text);
        case Blocks(blocks) => total := EstimateBlocks(blocks);
        case OtherContent => total := 0;
      }
    case AssistantMessage(turn) => total := EstimateBlocks(turn.content);
    case ToolResultMessage(_, _, result, _, _) => total := EstimateBlocks(result);
    case NilMessage => total := 0;
    case ForeignMessage(_) => total := 0;
  }

  method EstimateTokens(systemPrompt: string, messages: seq<Message>, tools: seq<Tool>) returns (total: nat)
    ensures total == Estimate(systemPrompt, messages, tools)
  {
    total := 0;
    if systemPrompt != "" {
      total := total + Tokens(systemPrompt);
    }
    ghost var prompt := total;
    for i := 0 to |messages|
      invariant total == prompt + MessagesTotal(messages[..i])
    {
      assert messages[..i + 1][..i] == messages[..i];
      var m := EstimateMessage(messages[i]);
      total := total + m;
    }
    assert messages[..|messages|] == messages;
    for i := 0 to |tools|
      invariant total == prompt + MessagesTotal(messages) + ToolsTotal(tools[..i])
    {
      assert tools[..i + 1][..i] == tools[..i];
      total := total + Tokens(tools[i].name);
      total := total + Tokens(tools[i].description);
      if |tools[i].parameters| > 0 {
        total := total + Tokens(tools[i].parameters);
      }
    }
    assert tools[..|tools|] == tools;
  }

  // ---------------------------------------------------------------- the estimate in bytes

  /** The bytes of the text, the thinking and the calls of a block list; an image counts as a fixed number, and
      every call as 16 more. */
  function ContentBytes(blocks: seq<ContentBlock>): nat {
    if blocks == [] then 0
    else
      ContentBytes(blocks[..|blocks| - 1])
      + match blocks[|blocks| - 1]
        case TextContent(text, _) => ByteLength(text)
        case ThinkingContent(thinking, _, _) => ByteLength(thinking)
        case ImageContent(_, _) => 4800
        case ToolCall(call) => ByteLength(call.name) + ByteLength(call.arguments) + 16
        case ForeignBlock(_) => 0
  }

  /** The blocks a message is made of; plain text counts as one. */
  function ContentOf(m: Message): seq<ContentBlock> {
    match m
    case UserMessage(Plain(text), _) => [TextContent(text, "")]
    case UserMessage(Blocks(blocks), _) => blocks
    case AssistantMessage(turn) => turn.content
    case ToolResultMessage(_, _, result, _, _) => result
    case _ => []
  }

  predicate InBytes(tokens: nat, bytes: nat, parts: nat) {
    bytes <= 4 * tokens <= bytes + 3 * parts
  }

  lemma TokensInBytes(n: nat)
    ensures InBytes((n + CHARS_PER_TOKEN - 1) / CHARS_PER_TOKEN, n, 1)
  {
  }

  lemma {:induction false} BlocksInBytes(blocks: seq<ContentBlock>)
    ensures InBytes(BlocksTotal(blocks), ContentBytes(blocks), |blocks|)
  {
    if blocks != [] {
      hide ByteLength;
      BlocksInBytes(blocks[..|blocks| - 1]);
      match blocks[|blocks| - 1]
      case TextContent(text, _) => TokensInBytes(ByteLength(text));
      case ThinkingContent(thinking, _, _) => TokensInBytes(ByteLength(thinking));
      case ToolCall(call) => TokensInBytes(ByteLength(call.name) + ByteLength(call.arguments));
      case _ =>
    }
  }

  /** What a message is estimated at: a quarter of its bytes, each block rounded up. */
  lemma MessageInBytes(m: Message)
    ensures InBytes(MessageTotal(m), ContentBytes(ContentOf(m)), |ContentOf(m)|)
  {
    BlocksInBytes(ContentOf(m));
    if m.UserMessage? && m.userContent.Plain? {
      var b := TextContent(m.userContent.text, "");
      assert [b][..0] == [];
    }
  }

  function HistoryBytes(messages: seq<Message>): nat {
    if messages == [] then 0
    else HistoryBytes(messages[..|messages| - 1]) + ContentBytes(ContentOf(messages[|messages| - 1]))
  }

  function HistoryParts(messages: seq<Message>): nat {
    if messages == [] then 0 else HistoryParts(messages[..|messages| - 1]) + |ContentOf(messages[|messages| - 1])|
  }

  function ToolBytes(tools: seq<Tool>): nat {
    if tools == [] then 0
    else
      var t := tools[|tools| - 1];
      ToolBytes(tools[..|tools| - 1]) + ByteLength(t.name) + ByteLength(t.description) + ByteLength(t.parameters)
  }

  lemma {:induction false} HistoryInBytes(messages: seq<Message>)
    ensures InBytes(MessagesTotal(messages), HistoryBytes(messages), HistoryParts(messages))
  {
    if messages != [] {
      hide MessageTotal, ContentBytes;
      HistoryInBytes(messages[..|messages| - 1]);
      MessageInBytes(messages[|messages| - 1]);
    }
  }

  lemma {:induction false} ToolsInBytes(tools: seq<Tool>)
    ensures InBytes(ToolsTotal(tools), ToolBytes(tools), 3 * |tools|)
  {
    if tools != [] {
      hide ByteLength;
      var t := tools[|tools| - 1];
      ToolsInBytes(tools[..|tools| - 1]);
      TokensInBytes(ByteLength(t.name));
      TokensInBytes(ByteLength(t.description));
      TokensInBytes(ByteLength(t.parameters));
    }
  }

  /** The whole estimate: four bytes a token, each of its parts rounded up. */
  lemma EstimateInBytes(systemPrompt: string, messages: seq<Message>, tools: seq<Tool>)
    ensures InBytes(Estimate(systemPrompt, messages, tools),
                    ByteLength(systemPrompt) + HistoryBytes(messages) + ToolBytes(tools),
                    1 + HistoryParts(messages) + 3 * |tools|)
  {
    hide ByteLength, MessagesTotal, ToolsTotal, HistoryBytes, HistoryParts, ToolBytes;
    TokensInBytes(ByteLength(systemPrompt));
    HistoryInBytes(messages);
    ToolsInBytes(tools);
  }

  lemma {:induction false} TotalSplits(a: seq<Message>, b: seq<Message>)
    ensures MessagesTotal(a + b) == MessagesTotal(a) + MessagesTotal(b)
  {
    if b == [] {
      assert a + b == a;
    } else {
      assert (a + b)[..|a + b| - 1] == a + b[..|b| - 1];
      TotalSplits(a, b[..|b| - 1]);
    }
  }

  /** The estimate meets the condition under which the search finds the least split. */
  lemma EstimateIsSuffixAntitone(systemPrompt: string, messages: seq<Message>, tools: seq<Tool>)
    ensures SuffixAntitone((m: seq<Message>) => Estimate(systemPrompt, m, tools), messages)
  {
    forall i, j | 0 <= i <= j <= |messages|
      ensures Estimate(systemPrompt, messages[j..], tools) <= Estimate(systemPrompt, messages[i..], tools)
    {
      assert messages[i..] == messages[i..j] + messages[j..];
      TotalSplits(messages[i..j], messages[j..]);
    }
  }
}
