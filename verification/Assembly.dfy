/** The engine's side of streaming: folding canonical events back into a message (agent-engine/engine/loop.go). */
module Assembly {
  import opened Wrappers
  import opened Messages
  import opened Bridge

  // ---------------------------------------------------------------- which block a helper writes to

  function LastText(blocks: seq<ContentBlock>): (i: int)
    ensures -1 <= i < |blocks|
    ensures 0 <= i ==> blocks[i].TextContent?
    ensures forall k | i < k < |blocks| :: !blocks[k].TextContent?
  {
    if blocks == [] then -1
    else if blocks[|blocks| - 1].TextContent? then |blocks| - 1
    else LastText(blocks[..|blocks| - 1])
  }

  function LastThinking(blocks: seq<ContentBlock>): (i: int)
    ensures -1 <= i < |blocks|
    ensures 0 <= i ==> blocks[i].ThinkingContent?
    ensures forall k | i < k < |blocks| :: !blocks[k].ThinkingContent?
  {
    if blocks == [] then -1
    else if blocks[|blocks| - 1].ThinkingContent? then |blocks| - 1
    else LastThinking(blocks[..|blocks| - 1])
  }

  /** The first block that satisfies `p`, or -1. */
  function First(blocks: seq<ContentBlock>, p: ContentBlock -> bool): (i: int)
    ensures -1 <= i < |blocks|
    ensures 0 <= i ==> p(blocks[i]) && forall k | 0 <= k < i :: !p(blocks[k])
    ensures i < 0 ==> forall k | 0 <= k < |blocks| :: !p(blocks[k])
  {
    if blocks == [] then -1
    else
      var i := First(blocks[..|blocks| - 1], p);
      if i >= 0 then i else if p(blocks[|blocks| - 1]) then |blocks| - 1 else -1
  }

  predicate IsText(b: ContentBlock) { b.TextContent? }

  predicate IsThinking(b: ContentBlock) { b.ThinkingContent? }

  function IsCall(id: string): ContentBlock -> bool {
    (b: ContentBlock) => b.ToolCall? && b.call.id == id
  }

  function TextAppended(blocks: seq<ContentBlock>, delta: string): seq<ContentBlock> {
    var i := LastText(blocks);
    if i < 0 then blocks + [TextContent(delta, "")]
    else blocks[i := TextContent(blocks[i].text + delta, blocks[i].textSignature)]
  }

  function ThinkingAppended(blocks: seq<ContentBlock>, delta: string): seq<ContentBlock> {
    var i := LastThinking(blocks);
    if i < 0 then blocks + [ThinkingContent(delta, "", false)]
    else blocks[i := ThinkingContent(blocks[i].thinking + delta, blocks[i].thinkingSignature, false)]
  }

  function ArgsAppended(blocks: seq<ContentBlock>, id: string, delta: string): seq<ContentBlock> {
    var i := First(blocks, IsCall(id));
    if i < 0 then blocks else blocks[i := ToolCall(Call(id, blocks[i].call.name, blocks[i].call.arguments + delta, ""))]
  }

  function ArgsFinalized(blocks: seq<ContentBlock>, id: string, args: string): seq<ContentBlock> {
    var i := First(blocks, IsCall(id));
    if i < 0 || args == "" then blocks else blocks[i := ToolCall(Call(id, blocks[i].call.name, args, ""))]
  }

  function TextSigned(blocks: seq<ContentBlock>, signature: string): seq<ContentBlock> {
    var i := First(blocks, IsText);
    if i < 0 then blocks else blocks[i := TextContent(blocks[i].text, signature)]
  }

  function ThinkingSigned(blocks: seq<ContentBlock>, signature: string): seq<ContentBlock> {
    var i := First(blocks, IsThinking);
    if i < 0 then blocks else blocks[i := ThinkingContent(blocks[i].thinking, signature, false)]
  }

  function Applied(msg: Assistant, e: Event): Assistant {
    match e
    case Start(api, provider, model) => msg.(api := api, provider := provider, model := model)
    case TextPiece(_, d) => msg.(content := TextAppended(msg.content, d))
    case ThinkingPiece(_, d) => msg.(content := ThinkingAppended(msg.content, d))
    case CallStart(_, id, name) => msg.(content := msg.content + [ToolCall(Call(id, name, "", ""))])
    case CallPiece(_, id, d) => msg.(content := ArgsAppended(msg.content, id, d))
    case CallEnd(_, id, args) => msg.(content := ArgsFinalized(msg.content, id, args))
    case TextEnd(_, _, sig) => if sig == "" then msg else msg.(content := TextSigned(msg.content, sig))
    case ThinkingEnd(_, _, sig) => if sig == "" then msg else msg.(content := ThinkingSigned(msg.content, sig))
    case Done(_, message) => message
    case _ => msg
  }

  function Folded(msg: Assistant, events: seq<Event>): Assistant {
    if events == [] then msg else Applied(Folded(msg, events[..|events| - 1]), events[|events| - 1])
  }

  /** What an event is about: the blocks it can change. */
  predicate Concerns(e: Event, b: ContentBlock) {
    match e
    case TextEnd(_, _, _) => b.TextContent?
    case ThinkingEnd(_, _, _) => b.ThinkingContent?
    case CallPiece(_, id, _) => b.ToolCall? && b.call.id == id
    case CallEnd(_, id, _) => b.ToolCall? && b.call.id == id
    case _ => false
  }

  /** A signature goes to the first block of its kind, arguments to the first call with their id, and all else stays;
      without such a block nothing changes. Signatures and final arguments that are empty change nothing. */
  lemma FirstBlockChanges(msg: Assistant, e: Event, i: nat)
    requires e.TextEnd? || e.ThinkingEnd? || e.CallPiece? || e.CallEnd?
    requires i <= |msg.content| && (i < |msg.content| ==> Concerns(e, msg.content[i]))
    requires forall k | 0 <= k < i :: !Concerns(e, msg.content[k])
    ensures Applied(msg, e) ==
            if i == |msg.content| then msg
            else
              var b := msg.content[i];
              var b' := match e
                        case TextEnd(_, _, sig) => if sig == "" then b else b.(textSignature := sig)
                        case ThinkingEnd(_, _, sig) =>
                          if sig == "" then b else b.(thinkingSignature := sig, redacted := false)
                        case CallPiece(_, _, d) =>
                          ToolCall(b.call.(arguments := b.call.arguments + d, thoughtSignature := ""))
                        case CallEnd(_, _, args) =>
                          if args == "" then b else ToolCall(b.call.(arguments := args, thoughtSignature := ""))
                        case _ => b;
              msg.(content := msg.content[i := b'])
  {
    assert i < |msg.content| ==> msg.content[i := msg.content[i]] == msg.content;
  }

  // ---------------------------------------------------------------- the engine's code

  /** The message under construction; its block list is updated block by block. */
  class Assembler {
    var msg: Assistant

    constructor (timestamp: int)
      ensures msg == Assistant([], "", "", "", Unset, "", timestamp)
    {
      msg := Assistant([], "", "", "", Unset, "", timestamp);
    }

    method AppendOrUpdateText(delta: string)
      modifies this
      ensures msg == old(msg).(content := TextAppended(old(msg.content), delta))
    {
      var blocks := msg.content;
      var i := |blocks| - 1;
      while i >= 0
        invariant -1 <= i < |blocks|
        invariant forall k | i < k < |blocks| :: !blocks[k].TextContent?
        invariant msg == old(msg)
      {
        if blocks[i].TextContent? {
          msg := msg.(content := blocks[i := TextContent(blocks[i].text + delta, blocks[i].textSignature)]);
          return;
        }
        i := i - 1;
      }
      msg := msg.(content := blocks + [TextContent(delta, "")]);
    }

    method AppendOrUpdateThinking(delta: string)
      modifies this
      ensures msg == old(msg).(content := ThinkingAppended(old(msg.content), delta))
    {
      var blocks := msg.content;
      var i := |blocks| - 1;
      while i >= 0
        invariant -1 <= i < |blocks|
        invariant forall k | i < k < |blocks| :: !blocks[k].ThinkingContent?
        invariant msg == old(msg)
      {
        if blocks[i].ThinkingContent? {
          var b := ThinkingContent(blocks[i].thinking + delta, blocks[i].thinkingSignature, false);
          msg := msg.(content := blocks[i := b]);
          return;
        }
        i := i - 1;
      }
      msg := msg.(content := blocks + [ThinkingContent(delta, "", false)]);
    }

    method UpdateToolCallArgs(id: string, delta: string)
      modifies this
      ensures msg == old(msg).(content := ArgsAppended(old(msg.content), id, delta))
    {
      for i := 0 to |msg.content|
        invariant msg == old(msg)
        invariant forall k | 0 <= k < i :: !IsCall(id)(msg.content[k])
      {
        var b := msg.content[i];
        if b.ToolCall? && b.call.id == id {
          msg := msg.(content := msg.content[i := ToolCall(Call(id, b.call.name, b.call.arguments + delta, ""))]);
          return;
        }
      }
    }

    method FinalizeToolCallArgs(id: string, args: string)
      modifies this
      ensures msg == old(msg).(content := ArgsFinalized(old(msg.content), id, args))
    {
      for i := 0 to |msg.content|
        invariant msg == old(msg)
        invariant forall k | 0 <= k < i :: !IsCall(id)(msg.content[k])
      {
        var b := msg.content[i];
        if b.ToolCall? && b.call.id == id {
          if |args| > 0 {
            msg := msg.(content := msg.content[i := ToolCall(Call(id, b.call.name, args, ""))]);
          }
          return;
        }
      }
    }

    method SetTextSignature(signature: string)
      modifies this
      ensures msg == old(msg).(content := TextSigned(old(msg.content), signature))
    {
      for i := 0 to |msg.content|
        invariant msg == old(msg)
        invariant forall k | 0 <= k < i :: !IsText(msg.content[k])
      {
        if msg.content[i].TextContent? {
          msg := msg.(content := msg.content[i := TextContent(msg.content[i].text, signature)]);
          return;
        }
      }
    }

    method SetThinkingSignature(signature: string)
      modifies this
      ensures msg == old(msg).(content := ThinkingSigned(old(msg.content), signature))
    {
      for i := 0 to |msg.content|
        invariant msg == old(msg)
        invariant forall k | 0 <= k < i :: !IsThinking(msg.content[k])
      {
        if msg.content[i].ThinkingContent? {
          msg := msg.(content := msg.content[i := ThinkingContent(msg.content[i].thinking, signature, false)]);
          return;
        }
      }
    }

    method ApplyAssistantEvent(e: Event)
      modifies this
      ensures msg == Applied(old(msg), e)
    {
      match e
      case Start(api, provider, model) => msg := msg.(api := api, provider := provider, model := model);
      case TextPiece(_, d) => AppendOrUpdateText(d);
      case ThinkingPiece(_, d) => AppendOrUpdateThinking(d);
      case CallStart(_, id, name) => msg := msg.(content := msg.content + [ToolCall(Call(id, name, "", ""))]);
      case CallPiece(_, id, d) => UpdateToolCallArgs(id, d);
      case CallEnd(_, id, args) => FinalizeToolCallArgs(id, args);
      case TextEnd(_, _, signature) =>
        if signature != "" {
          SetTextSignature(signature);
        }
      case ThinkingEnd(_, _, signature) =>
        if signature != "" {
          SetThinkingSignature(signature);
        }
      case Done(_, message) => msg := message;
      case _ =>
    }
  }

  /** `consumeStreamEvents` over a stream that delivers `events` and then its outcome. */
  method ConsumeStreamEvents(events: seq<Event>, err: Option<string>, timestamp: int)
    returns (result: Option<Assistant>)
    ensures result == if err.Some? then None
                      else Some(Folded(Assistant([], "", "", "", Unset, "", timestamp), events))
  {
    var assembler := new Assembler(timestamp);
    ghost var start := assembler.msg;
    for i := 0 to |events|
      invariant assembler.msg == Folded(start, events[..i])
    {
      assert events[..i + 1][..i] == events[..i];
      assembler.ApplyAssistantEvent(events[i]);
    }
    assert events[..|events|] == events;
    return if err.Some? then None else Some(assembler.msg);
  }
}
