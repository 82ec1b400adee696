/** The folded message and the bridge's partial message show the same text, thinking and calls. */
module AssemblyTheorems {
  import opened Messages
  import opened Bridge
  import opened BridgeGrammar
  import opened Assembly

  /** All text of a block list, concatenated. */
  function Texts(blocks: seq<ContentBlock>): string {
    if blocks == [] then ""
    else
      var b := blocks[|blocks| - 1];
      Texts(blocks[..|blocks| - 1]) + if b.TextContent? then b.text else ""
  }

  function Thoughts(blocks: seq<ContentBlock>): string {
    if blocks == [] then ""
    else
      var b := blocks[|blocks| - 1];
      Thoughts(blocks[..|blocks| - 1]) + if b.ThinkingContent? then b.thinking else ""
  }

  // ---------------------------------------------------------------- what each helper does to the three views

  lemma {:induction false} LastTextSplits(blocks: seq<ContentBlock>, delta: string)
    ensures Texts(TextAppended(blocks, delta)) == Texts(blocks) + delta
    ensures Thoughts(TextAppended(blocks, delta)) == Thoughts(blocks)
    ensures Calls(TextAppended(blocks, delta)) == Calls(blocks)
  {
    var out := TextAppended(blocks, delta);
    if LastText(blocks) < 0 {
      assert out[..|out| - 1] == blocks;
    } else {
      var front, b := blocks[..|blocks| - 1], blocks[|blocks| - 1];
      if b.TextContent? {
        assert out[..|out| - 1] == front;
      } else {
        LastTextSplits(front, delta);
        assert out[..|out| - 1] == TextAppended(front, delta);
      }
    }
  }

  lemma {:induction false} LastThinkingSplits(blocks: seq<ContentBlock>, delta: string)
    ensures Texts(ThinkingAppended(blocks, delta)) == Texts(blocks)
    ensures Thoughts(ThinkingAppended(blocks, delta)) == Thoughts(blocks) + delta
    ensures Calls(ThinkingAppended(blocks, delta)) == Calls(blocks)
  {
    var out := ThinkingAppended(blocks, delta);
    if LastThinking(blocks) < 0 {
      assert out[..|out| - 1] == blocks;
    } else {
      var front, b := blocks[..|blocks| - 1], blocks[|blocks| - 1];
      if b.ThinkingContent? {
        assert out[..|out| - 1] == front;
      } else {
        LastThinkingSplits(front, delta);
        assert out[..|out| - 1] == ThinkingAppended(front, delta);
      }
    }
  }

  /** Replacing a block by one with the same text, thinking and call changes no view. */
  lemma {:induction false} SameViews(blocks: seq<ContentBlock>, i: nat, b: ContentBlock)
    requires i < |blocks|
    requires (b.TextContent? && blocks[i].TextContent? && b.text == blocks[i].text)
          || (b.ThinkingContent? && blocks[i].ThinkingContent? && b.thinking == blocks[i].thinking)
    ensures Texts(blocks[i := b]) == Texts(blocks)
    ensures Thoughts(blocks[i := b]) == Thoughts(blocks)
    ensures Calls(blocks[i := b]) == Calls(blocks)
  {
    var front := blocks[..|blocks| - 1];
    if i == |blocks| - 1 {
      assert blocks[i := b][..i] == front;
    } else {
      SameViews(front, i, b);
      assert blocks[i := b][..|blocks| - 1] == front[i := b];
    }
  }

  /** Replacing a call by a call changes the call list at that call's position only. */
  lemma {:induction false} ReplaceCall(blocks: seq<ContentBlock>, i: nat, c: Call)
    requires i < |blocks| && blocks[i].ToolCall?
    ensures Texts(blocks[i := ToolCall(c)]) == Texts(blocks)
    ensures Thoughts(blocks[i := ToolCall(c)]) == Thoughts(blocks)
    ensures |Calls(blocks[..i])| < |Calls(blocks)| && Calls(blocks)[|Calls(blocks[..i])|] == blocks[i].call
    ensures Calls(blocks[i := ToolCall(c)]) == Calls(blocks)[|Calls(blocks[..i])| := c]
  {
    var front := blocks[..|blocks| - 1];
    if i == |blocks| - 1 {
      assert blocks[i := ToolCall(c)][..i] == front;
    } else {
      ReplaceCall(front, i, c);
      assert blocks[i := ToolCall(c)][..|blocks| - 1] == front[i := ToolCall(c)];
      assert front[..i] == blocks[..i];
    }
  }

  /** The first call with the id, or -1. */
  function FirstCall(calls: seq<Call>, id: string): (i: int)
    ensures -1 <= i < |calls|
    ensures 0 <= i ==> calls[i].id == id && forall k | 0 <= k < i :: calls[k].id != id
    ensures i < 0 ==> forall k | 0 <= k < |calls| :: calls[k].id != id
  {
    if calls == [] then -1
    else
      var i := FirstCall(calls[..|calls| - 1], id);
      if i >= 0 then i else if calls[|calls| - 1].id == id then |calls| - 1 else -1
  }

  function CallsFinalized(calls: seq<Call>, id: string, args: string): seq<Call> {
    var i := FirstCall(calls, id);
    if i < 0 || args == "" then calls else calls[i := Call(id, calls[i].name, args, "")]
  }

  lemma {:induction false} FirstAmongCalls(blocks: seq<ContentBlock>, id: string)
    ensures var i := First(blocks, IsCall(id));
            FirstCall(Calls(blocks), id) == if i < 0 then -1 else |Calls(blocks[..i])|
  {
    if blocks != [] {
      var front, b := blocks[..|blocks| - 1], blocks[|blocks| - 1];
      FirstAmongCalls(front, id);
      var i := First(front, IsCall(id));
      if i >= 0 {
        assert front[..i] == blocks[..i];
      }
      if b.ToolCall? {
        assert Calls(blocks)[..|Calls(blocks)| - 1] == Calls(front);
      }
    }
  }

  /** Finalizing in the block list is finalizing in its call list. */
  lemma FinalizingViews(blocks: seq<ContentBlock>, id: string, args: string)
    ensures Texts(ArgsFinalized(blocks, id, args)) == Texts(blocks)
    ensures Thoughts(ArgsFinalized(blocks, id, args)) == Thoughts(blocks)
    ensures Calls(ArgsFinalized(blocks, id, args)) == CallsFinalized(Calls(blocks), id, args)
  {
    var i := First(blocks, IsCall(id));
    FirstAmongCalls(blocks, id);
    if i >= 0 {
      ReplaceCall(blocks, i, Call(id, blocks[i].call.name, args, ""));
    }
  }

  lemma AppendBlock(blocks: seq<ContentBlock>, b: ContentBlock)
    ensures Texts(blocks + [b]) == Texts(blocks) + if b.TextContent? then b.text else ""
    ensures Thoughts(blocks + [b]) == Thoughts(blocks) + if b.ThinkingContent? then b.thinking else ""
    ensures Calls(blocks + [b]) == Calls(blocks) + if b.ToolCall? then [b.call] else []
  {
    assert (blocks + [b])[..|blocks|] == blocks;
  }

  // ---------------------------------------------------------------- the two call lists

  /** Call `k` repeats the id of an earlier call. */
  ghost predicate Repeats(calls: seq<Call>, k: nat)
    requires k < |calls|
  {
    exists j | 0 <= j < k :: calls[j].id == calls[k].id
  }

  /** Only calls without arguments repeat an earlier id; distinct ids are a special case. */
  ghost predicate RepeatsCarryNothing(calls: seq<Call>) {
    forall k | 0 <= k < |calls| && Repeats(calls, k) :: calls[k].arguments == ""
  }

  /** `engine` is what folding makes of the streamed calls `bridge`. */
  ghost predicate FoldedCalls(engine: seq<Call>, bridge: seq<Call>) {
    && |engine| == |bridge|
    && (forall k | 0 <= k < |bridge| :: engine[k].id == bridge[k].id && engine[k].name == bridge[k].name)
    && (forall k | 0 <= k < |bridge| && Repeats(bridge, k) :: engine[k].arguments == "")
    && (RepeatsCarryNothing(bridge) ==> engine == bridge)
  }

  lemma FoldOneCall(engine: seq<Call>, bridge: seq<Call>, c: Call)
    requires FoldedCalls(engine, bridge) && c.thoughtSignature == ""
    ensures FoldedCalls(CallsFinalized(engine + [Call(c.id, c.name, "", "")], c.id, c.arguments), bridge + [c])
  {
    var started := engine + [Call(c.id, c.name, "", "")];
    var i := FirstCall(started, c.id);
    var bridge' := bridge + [c];
    assert started[|engine|].id == c.id;
    assert Repeats(bridge', |bridge|) <==> i < |engine| by {
      if i < |engine| {
        assert bridge'[i].id == c.id;
      }
      if Repeats(bridge', |bridge|) {
        var j :| 0 <= j < |bridge| && bridge'[j].id == c.id;
        assert started[j].id == c.id;
      }
    }
    forall k | 0 <= k < |bridge|
      ensures Repeats(bridge', k) <==> Repeats(bridge, k)
    {
      assert forall j | 0 <= j < k :: bridge'[j] == bridge[j];
    }
    assert i < |engine| ==> !Repeats(bridge', i);
  }

  lemma FoldedCallsAgree(engine: seq<Call>, bridge: seq<Call>)
    requires FoldedCalls(engine, bridge)
    ensures engine == bridge <==> RepeatsCarryNothing(bridge)
  {
  }

  // ---------------------------------------------------------------- folding what the bridge shows

  /** The engine's content agrees with the streamed blocks: text and thinking exactly, calls as above. */
  ghost predicate Agrees(content: seq<ContentBlock>, blocks: seq<Block>) {
    && Texts(content) == Texts(Contents(blocks))
    && Thoughts(content) == Thoughts(Contents(blocks))
    && FoldedCalls(Calls(content), Calls(Contents(blocks)))
  }

  lemma {:induction false} FoldConcat(msg: Assistant, a: seq<Event>, b: seq<Event>)
    ensures Folded(msg, a + b) == Folded(Folded(msg, a), b)
  {
    if b == [] {
      assert a + b == a;
    } else {
      assert (a + b)[..|a + b| - 1] == a + b[..|b| - 1];
      FoldConcat(msg, a, b[..|b| - 1]);
    }
  }

  lemma FoldNone(msg: Assistant)
    ensures Folded(msg, []) == msg
  {
  }

  lemma FoldOne(msg: Assistant, e: Event)
    ensures Folded(msg, [e]) == Applied(msg, e)
  {
    assert [e][..0] == [];
  }

  lemma FoldLast(msg: Assistant, events: seq<Event>, e: Event)
    ensures Folded(msg, events + [e]) == Applied(Folded(msg, events), e)
  {
    assert (events + [e])[..|events|] == events;
  }

  lemma {:induction false} FoldTextPieces(msg: Assistant, i: int, deltas: seq<string>)
    ensures var out := Folded(msg, TextPieces(i, deltas)).content;
            && Texts(out) == Texts(msg.content) + Joined(deltas)
            && Thoughts(out) == Thoughts(msg.content)
            && Calls(out) == Calls(msg.content)
  {
    hide Texts, Thoughts, Calls, TextAppended, Folded;
    if deltas == [] {
      FoldNone(msg);
    } else {
      var k := |deltas| - 1;
      FoldTextPieces(msg, i, deltas[..k]);
      FoldLast(msg, TextPieces(i, deltas[..k]), TextPiece(i, deltas[k]));
      LastTextSplits(Folded(msg, TextPieces(i, deltas[..k])).content, deltas[k]);
    }
  }

  lemma {:induction false} FoldThinkingPieces(msg: Assistant, i: int, deltas: seq<string>)
    ensures var out := Folded(msg, ThinkingPieces(i, deltas)).content;
            && Texts(out) == Texts(msg.content)
            && Thoughts(out) == Thoughts(msg.content) + Joined(deltas)
            && Calls(out) == Calls(msg.content)
  {
    hide Texts, Thoughts, Calls, ThinkingAppended, Folded;
    if deltas == [] {
      FoldNone(msg);
    } else {
      var k := |deltas| - 1;
      FoldThinkingPieces(msg, i, deltas[..k]);
      FoldLast(msg, ThinkingPieces(i, deltas[..k]), ThinkingPiece(i, deltas[k]));
      LastThinkingSplits(Folded(msg, ThinkingPieces(i, deltas[..k])).content, deltas[k]);
    }
  }

  lemma FoldOpening(msg: Assistant, blocks: seq<Block>, b: Block)
    requires Agrees(msg.content, blocks)
    ensures Agrees(Folded(msg, Opening(|blocks|, b)).content, blocks + [b])
  {
    hide Calls, Texts, Thoughts, Joined, Contents, CallsFinalized, Folded;
    AddContent(blocks, b);
    AppendBlock(Contents(blocks), ContentOf(b));
    match b
    case TextBlock(deltas, _) =>
      FoldConcat(msg, [TextStart(|blocks|)], TextPieces(|blocks|, deltas));
      FoldOne(msg, TextStart(|blocks|));
      FoldTextPieces(msg, |blocks|, deltas);
    case ThinkingBlock(deltas, _) =>
      FoldConcat(msg, [ThinkingStart(|blocks|)], ThinkingPieces(|blocks|, deltas));
      FoldOne(msg, ThinkingStart(|blocks|));
      FoldThinkingPieces(msg, |blocks|, deltas);
    case CallBlock(id, name, arguments) =>
      FoldCallEvents(msg, |blocks|, id, name, arguments);
      FoldOneCall(Calls(msg.content), Calls(Contents(blocks)), Call(id, name, arguments, ""));
  }

  lemma FoldCallEvents(msg: Assistant, i: int, id: string, name: string, arguments: string)
    ensures var out := Folded(msg, [CallStart(i, id, name), CallEnd(i, id, arguments)]).content;
            && Texts(out) == Texts(msg.content)
            && Thoughts(out) == Thoughts(msg.content)
            && Calls(out) == CallsFinalized(Calls(msg.content) + [Call(id, name, "", "")], id, arguments)
  {
    hide Folded, Texts, Thoughts, Calls, CallsFinalized, ArgsFinalized;
    assert [CallStart(i, id, name), CallEnd(i, id, arguments)]
        == [CallStart(i, id, name)] + [CallEnd(i, id, arguments)];
    FoldConcat(msg, [CallStart(i, id, name)], [CallEnd(i, id, arguments)]);
    FoldOne(msg, CallStart(i, id, name));
    FoldOne(Applied(msg, CallStart(i, id, name)), CallEnd(i, id, arguments));
    AppendBlock(msg.content, ToolCall(Call(id, name, "", "")));
    FinalizingViews(msg.content + [ToolCall(Call(id, name, "", ""))], id, arguments);
  }

  /** Block ends only sign blocks. */
  lemma FoldClosing(msg: Assistant, i: int, b: Block)
    ensures var out := Folded(msg, Closing(i, b)).content;
            Texts(out) == Texts(msg.content) && Thoughts(out) == Thoughts(msg.content)
                && Calls(out) == Calls(msg.content)
  {
    if !b.CallBlock? {
      FoldOne(msg, Closing(i, b)[0]);
      var t := if b.TextBlock? then First(msg.content, IsText) else First(msg.content, IsThinking);
      if t >= 0 {
        SameViews(msg.content, t,
          if b.TextBlock? then TextContent(msg.content[t].text, b.signature)
          else ThinkingContent(msg.content[t].thinking, b.signature, false));
      }
    }
  }

  lemma FoldWhole(msg: Assistant, events: seq<Event>, front: seq<Block>, b: Block)
    requires Agrees(Folded(msg, events).content, front)
    ensures Agrees(Folded(msg, events + Opening(|front|, b)).content, front + [b])
    ensures Agrees(Folded(msg, events + Opening(|front|, b) + Closing(|front|, b)).content, front + [b])
  {
    hide Folded, Texts, Thoughts, Calls, Contents, FoldedCalls, Opening, Closing;
    FoldConcat(msg, events, Opening(|front|, b));
    FoldOpening(Folded(msg, events), front, b);
    FoldConcat(msg, events + Opening(|front|, b), Closing(|front|, b));
    FoldClosing(Folded(msg, events + Opening(|front|, b)), |front|, b);
  }

  lemma FoldNothing(msg: Assistant)
    requires msg.content == []
    ensures Agrees(Folded(msg, Bracketed([])).content, [])
  {
  }

  lemma {:induction false} FoldBracketed(msg: Assistant, blocks: seq<Block>)
    requires msg.content == []
    ensures Agrees(Folded(msg, Bracketed(blocks)).content, blocks)
  {
    hide Agrees, Folded, Opening, Closing;
    if blocks == [] {
      FoldNothing(msg);
    } else {
      var i := |blocks| - 1;
      FoldBracketed(msg, blocks[..i]);
      FoldWhole(msg, Bracketed(blocks[..i]), blocks[..i], blocks[i]);
      assert blocks[..i] + [blocks[i]] == blocks;
    }
  }

  lemma FoldRendered(msg: Assistant, blocks: seq<Block>, open: bool)
    requires msg.content == []
    ensures Agrees(Folded(msg, Rendered(blocks, open)).content, blocks)
  {
    hide Agrees, Folded, Opening, Closing;
    if open && blocks != [] {
      var i := |blocks| - 1;
      FoldBracketed(msg, blocks[..i]);
      FoldWhole(msg, Bracketed(blocks[..i]), blocks[..i], blocks[i]);
      assert blocks[..i] + [blocks[i]] == blocks;
    } else {
      FoldBracketed(msg, blocks);
    }
  }

  // ---------------------------------------------------------------- main results

  /** After any provider prefix, the engine's live message and the bridge's partial message show the same text
      and thinking; they show the same calls exactly when no call that repeats an id carries arguments. */
  lemma LiveAgreement(msg: Assistant, events: seq<ProviderEvent>, origin: Origin)
    requires msg.content == []
    ensures var r := Read(events);
            var engine, bridge := Folded(msg, Shown(r, origin)).content, Contents(r.blocks);
            && Texts(engine) == Texts(bridge)
            && Thoughts(engine) == Thoughts(bridge)
            && (Calls(engine) == Calls(bridge) <==> RepeatsCarryNothing(Calls(bridge)))
  {
    var r := Read(events);
    var started := Folded(msg, StartPart(r.started, origin));
    if r.started {
      FoldOne(msg, StartPart(true, origin)[0]);
    }
    FoldConcat(msg, StartPart(r.started, origin), Rendered(r.blocks, r.open));
    FoldRendered(started, r.blocks, r.open);
    FoldedCallsAgree(Calls(Folded(msg, Shown(r, origin)).content), Calls(Contents(r.blocks)));
  }

  /** Distinct call ids are enough for full agreement. */
  lemma DistinctIdsAgree(calls: seq<Call>)
    requires forall j, k | 0 <= j < k < |calls| :: calls[j].id != calls[k].id
    ensures RepeatsCarryNothing(calls)
  {
  }

  /** A completed stream folds to exactly the stream's result. */
  lemma DoneAgreement(msg: Assistant, events: seq<ProviderEvent>, ending: Ending, origin: Origin)
    requires Delivered(events, ending, origin).1.Completed?
    ensures var (accepted, outcome) := Delivered(events, ending, origin);
            Folded(msg, accepted) == outcome.message
  {
    DeliversTheProtocol(events, ending, origin);
  }
}
