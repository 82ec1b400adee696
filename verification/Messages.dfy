/** The message and content-block values shared by the transformer, the bridge and the agent engine. */
module Messages {

  datatype Call = Call(id: string, name: string, arguments: string, thoughtSignature: string)

  /** A content block. `ForeignBlock` stands for any other implementation of the interface,
      which every type switch of the program lets through unchanged. */
  datatype ContentBlock =
    | TextContent(text: string, textSignature: string)
    | ThinkingContent(thinking: string, thinkingSignature: string, redacted: bool)
    | ImageContent(data: string, mimeType: string)
    | ToolCall(call: Call)
    | ForeignBlock(tag: nat)

  datatype UserContent =
    | Plain(text: string)
    | Blocks(blocks: seq<ContentBlock>)
    | OtherContent

  datatype StopReason = StopStop | StopLength | StopToolUse | StopError | StopAborted | Unset

  datatype Assistant = Assistant(content: seq<ContentBlock>, api: string, provider: string, model: string,
                                 stopReason: StopReason, errorMessage: string, timestamp: int)

  datatype Message =
    | UserMessage(userContent: UserContent, timestamp: int)
    | AssistantMessage(turn: Assistant)
    | ToolResultMessage(toolCallId: string, toolName: string, result: seq<ContentBlock>,
                        isError: bool, timestamp: int)
    | NilMessage
    | ForeignMessage(tag: nat)

  /** The tool calls of a block list, in order. */
  function Calls(blocks: seq<ContentBlock>): seq<Call> {
    if blocks == [] then []
    else
      var rest := Calls(blocks[..|blocks| - 1]);
      var b := blocks[|blocks| - 1];
      if b.ToolCall? then rest + [b.call] else rest
  }

  function CallIds(blocks: seq<ContentBlock>): set<string> {
    if blocks == [] then {}
    else
      var b := blocks[|blocks| - 1];
      CallIds(blocks[..|blocks| - 1]) + if b.ToolCall? then {b.call.id} else {}
  }

  predicate FailedStop(r: StopReason) {
    r.StopError? || r.StopAborted?
  }

  /** The calls of a list are the calls of its tool-call blocks. */
  lemma {:induction false} CallsMembers(blocks: seq<ContentBlock>, c: Call)
    ensures c in Calls(blocks) <==> ToolCall(c) in blocks
  {
    if blocks != [] {
      var front, last := blocks[..|blocks| - 1], blocks[|blocks| - 1];
      assert blocks == front + [last];
      CallsMembers(front, c);
    }
  }

  lemma {:induction false} CallIdsMembers(blocks: seq<ContentBlock>)
    ensures forall id :: id in CallIds(blocks) <==> exists c :: c in Calls(blocks) && c.id == id
  {
    if blocks != [] {
      var front, b := blocks[..|blocks| - 1], blocks[|blocks| - 1];
      CallIdsMembers(front);
      assert forall c :: c in Calls(blocks) <==> c in Calls(front) || (b.ToolCall? && c == b.call);
    }
  }
}
