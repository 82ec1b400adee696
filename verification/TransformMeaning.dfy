/** What `TransformMessages` makes of each message, said of the history alone (crux-ai/core/transform.go). */
module TransformMeaning {
  import opened Text
  import opened Messages
  import opened Transform
  import opened TransformTheorems

  // ---------------------------------------------------------------- the content of a turn

  /** Encrypted thinking of another model, and blank thinking unless the same model has signed it. */
  predicate Lost(b: ContentBlock, same: bool) {
    && b.ThinkingContent?
    && if b.redacted then !same else IsBlank(b.thinking) && (same ==> b.thinkingSignature == "")
  }

  /** A block as it is for the model that wrote it. For any other model thinking is text, signatures are gone
      and call ids are normalized. */
  predicate BlockCarried(b: ContentBlock, out: ContentBlock, same: bool, model: Model, normalize: Normalizer) {
    if same then out == b
    else
      match b
      case TextContent(text, _) => out == TextContent(text, "")
      case ThinkingContent(thinking, _, _) => out == TextContent(thinking, "")
      case ToolCall(c) => out == ToolCall(Call(normalize(c.id, model), c.name, c.arguments, ""))
      case _ => out == b
  }

  /** `out` carries `content` block by block, in order, without the lost ones. */
  predicate TurnCarried(content: seq<ContentBlock>, out: seq<ContentBlock>, same: bool, model: Model,
                        normalize: Normalizer)
  {
    if content == [] then out == []
    else
      var front, b := content[..|content| - 1], content[|content| - 1];
      if Lost(b, same) then TurnCarried(front, out, same, model, normalize)
      else
        && out != [] && BlockCarried(b, out[|out| - 1], same, model, normalize)
        && TurnCarried(front, out[..|out| - 1], same, model, normalize)
  }

  lemma {:induction false} RewritingCarries(content: seq<ContentBlock>, same: bool, model: Model,
                                            normalize: Normalizer)
    ensures TurnCarried(content, RewrittenContent(content, same, Renaming(normalize, model)), same, model, normalize)
  {
    if content != [] {
      hide TurnCarried, RewrittenBlock;
      var front, rename := content[..|content| - 1], Renaming(normalize, model);
      RewritingCarries(front, same, model, normalize);
      OneBlockCarried(content[|front|], same, model, normalize);
      assert front + [content[|front|]] == content;
      TurnCarriedNext(front, content[|front|], RewrittenContent(front, same, rename),
                      RewrittenBlock(content[|front|], same, rename), same, model, normalize);
    } else {
      assert RewrittenContent(content, same, Renaming(normalize, model)) == [];
    }
  }

  lemma OneBlockCarried(b: ContentBlock, same: bool, model: Model, normalize: Normalizer)
    ensures var last := RewrittenBlock(b, same, Renaming(normalize, model));
            if Lost(b, same) then last == []
            else |last| == 1 && BlockCarried(b, last[0], same, model, normalize)
  {
    hide IsBlank;
  }

  lemma TurnCarriedNext(front: seq<ContentBlock>, b: ContentBlock, out: seq<ContentBlock>, last: seq<ContentBlock>,
                        same: bool, model: Model, normalize: Normalizer)
    requires TurnCarried(front, out, same, model, normalize)
    requires if Lost(b, same) then last == [] else |last| == 1 && BlockCarried(b, last[0], same, model, normalize)
    ensures TurnCarried(front + [b], out + last, same, model, normalize)
  {
    hide Lost, BlockCarried;
    assert (front + [b])[..|front|] == front;
    if Lost(b, same) {
      assert out + last == out;
    } else {
      assert (out + last)[..|out|] == out;
    }
  }

  /** The texts of the text blocks, in order. */
  function Texts(content: seq<ContentBlock>): seq<string> {
    if content == [] then []
    else
      var b := content[|content| - 1];
      Texts(content[..|content| - 1]) + if b.TextContent? then [b.text] else []
  }

  /** What a model can read of another model's turn: its text and its legible thinking, in order. */
  function Legible(content: seq<ContentBlock>): seq<string> {
    if content == [] then []
    else
      var b := content[|content| - 1];
      Legible(content[..|content| - 1])
      + if b.TextContent? then [b.text]
        else if b.ThinkingContent? && !b.redacted && !IsBlank(b.thinking) then [b.thinking]
        else []
  }

  /** The blocks that are neither text nor thinking nor calls, in order. */
  function Others(content: seq<ContentBlock>): seq<ContentBlock> {
    if content == [] then []
    else
      var b := content[|content| - 1];
      Others(content[..|content| - 1]) + if b.TextContent? || b.ThinkingContent? || b.ToolCall? then [] else [b]
  }

  /** Nothing that only the model that wrote it may see. */
  predicate Unsigned(b: ContentBlock) {
    !b.ThinkingContent? && (b.TextContent? ==> b.textSignature == "") && (b.ToolCall? ==> b.call.thoughtSignature == "")
  }

  predicate CallsCarried(calls: seq<Call>, out: seq<Call>, model: Model, normalize: Normalizer) {
    && |out| == |calls|
    && forall k | 0 <= k < |calls| ::
         && out[k].id == normalize(calls[k].id, model)
         && out[k].name == calls[k].name && out[k].arguments == calls[k].arguments
  }

  /** What a turn of another model reads like. */
  ghost predicate CrossCarried(content: seq<ContentBlock>, out: seq<ContentBlock>, model: Model,
                               normalize: Normalizer) {
    && Texts(out) == Legible(content)
    && (forall b | b in out :: Unsigned(b))
    && CallsCarried(Calls(content), Calls(out), model, normalize)
    && Others(out) == Others(content)
  }

  lemma {:induction false} CrossContent(content: seq<ContentBlock>, model: Model, normalize: Normalizer)
    ensures CrossCarried(content, RewrittenContent(content, false, Renaming(normalize, model)), model, normalize)
  {
    if content == [] {
      assert RewrittenContent(content, false, Renaming(normalize, model)) == [];
    } else {
      hide CrossCarried, RewrittenBlock;
      var front, rename := content[..|content| - 1], Renaming(normalize, model);
      CrossContent(front, model, normalize);
      CrossBlock(content[|front|], model, normalize);
      assert front + [content[|front|]] == content;
      CrossNext(front, [content[|front|]], RewrittenContent(front, false, rename),
                RewrittenBlock(content[|front|], false, rename), model, normalize);
    }
  }

  lemma CrossBlock(b: ContentBlock, model: Model, normalize: Normalizer)
    ensures var out := RewrittenBlock(b, false, Renaming(normalize, model));
            |out| <= 1 && CrossCarried([b], out, model, normalize)
  {
    hide IsBlank, Texts, Legible, Calls, Others;
    var out := RewrittenBlock(b, false, Renaming(normalize, model));
    Single(b);
    if out == [] {
      assert Texts([]) == [] && Calls([]) == [] && Others([]) == [] by {
        NoBlocks();
      }
    } else {
      Single(out[0]);
      assert out == [out[0]];
    }
  }

  lemma NoBlocks()
    ensures Texts([]) == [] && Legible([]) == [] && Calls([]) == [] && Others([]) == []
  {
  }

  lemma Single(b: ContentBlock)
    ensures Texts([b]) == if b.TextContent? then [b.text] else []
    ensures Legible([b]) == if b.TextContent? then [b.text]
                            else if b.ThinkingContent? && !b.redacted && !IsBlank(b.thinking) then [b.thinking]
                            else []
    ensures Calls([b]) == if b.ToolCall? then [b.call] else []
    ensures Others([b]) == if b.TextContent? || b.ThinkingContent? || b.ToolCall? then [] else [b]
  {
    assert [b][..0] == [];
  }

  /** The views of a list with one block more, or none. */
  lemma ViewsAdd(content: seq<ContentBlock>, last: seq<ContentBlock>)
    requires |last| <= 1
    ensures Texts(content + last) == Texts(content) + Texts(last)
    ensures Legible(content + last) == Legible(content) + Legible(last)
    ensures Calls(content + last) == Calls(content) + Calls(last)
    ensures Others(content + last) == Others(content) + Others(last)
  {
    if last == [] {
      NoBlocks();
      assert content + last == content;
      hide Texts, Legible, Calls, Others;
    } else {
      Single(last[0]);
      OneMore(content, last[0]);
      assert last == [last[0]];
      hide Texts, Legible, Calls, Others;
    }
  }

  lemma OneMore(content: seq<ContentBlock>, b: ContentBlock)
    ensures Texts(content + [b]) == Texts(content) + if b.TextContent? then [b.text] else []
    ensures Legible(content + [b]) == Legible(content) + if b.TextContent? then [b.text]
                            else if b.ThinkingContent? && !b.redacted && !IsBlank(b.thinking) then [b.thinking]
                            else []
    ensures Calls(content + [b]) == Calls(content) + if b.ToolCall? then [b.call] else []
    ensures Others(content + [b]) == Others(content) + if b.TextContent? || b.ThinkingContent? || b.ToolCall? then []
              else [b]
  {
    hide IsBlank;
    assert (content + [b])[..|content|] == content;
  }

  lemma CrossNext(front: seq<ContentBlock>, b: seq<ContentBlock>, out: seq<ContentBlock>, last: seq<ContentBlock>,
                  model: Model, normalize: Normalizer)
    requires |b| <= 1 && |last| <= 1
    requires CrossCarried(front, out, model, normalize) && CrossCarried(b, last, model, normalize)
    ensures CrossCarried(front + b, out + last, model, normalize)
  {
    hide Texts, Legible, Calls, Others, Unsigned;
    ViewsAdd(front, b);
    ViewsAdd(out, last);
  }

  // ---------------------------------------------------------------- the images of a message

  /** The block `b` before an image makes a placeholder for that image superfluous. */
  predicate CoversNext(b: ContentBlock, placeholder: string) {
    b.ImageContent? || (b.TextContent? && b.text == placeholder)
  }

  /** Every block but the images stays; an image leaves a placeholder unless the block before it covers it. */
  predicate ImagesReplaced(content: seq<ContentBlock>, out: seq<ContentBlock>, placeholder: string) {
    if content == [] then out == []
    else
      var front, b := content[..|content| - 1], content[|content| - 1];
      if b.ImageContent? && front != [] && CoversNext(front[|front| - 1], placeholder)
      then ImagesReplaced(front, out, placeholder)
      else
        && out != [] && out[|out| - 1] == (if b.ImageContent? then TextContent(placeholder, "") else b)
        && ImagesReplaced(front, out[..|out| - 1], placeholder)
  }

  predicate ContentCarried(content: seq<ContentBlock>, out: seq<ContentBlock>, model: Model, placeholder: string) {
    if "image" in model.input then out == content else ImagesReplaced(content, out, placeholder)
  }

  lemma {:induction false} ImagesAreReplaced(content: seq<ContentBlock>, placeholder: string)
    ensures ImagesReplaced(content, WithoutImages(content, placeholder), placeholder)
  {
    if content != [] {
      var front, b := content[..|content| - 1], content[|content| - 1];
      ImagesAreReplaced(front, placeholder);
      var out, last := WithoutImages(front, placeholder), LastWithoutImage(content, placeholder);
      if last == [] {
        assert out + last == out;
      } else {
        assert (out + last)[..|out|] == out;
      }
    }
  }

  // ---------------------------------------------------------------- a message

  /** Failed turns and internal markers are not replayed. */
  predicate Replayed(m: Message) {
    match m
    case NilMessage => false
    case AssistantMessage(turn) => turn.stopReason != StopError && turn.stopReason != StopAborted
    case _ => true
  }

  predicate WrittenBy(turn: Assistant, model: Model) {
    turn.provider == model.provider && turn.api == model.api && turn.model == model.id
  }

  /** Some replayed turn of another model calls a tool with this id. */
  ghost predicate CalledElsewhere(history: seq<Message>, model: Model, id: string) {
    exists i, c | 0 <= i < |history| && history[i].AssistantMessage? && ToolCall(c) in history[i].turn.content ::
      c.id == id && Replayed(history[i]) && !WrittenBy(history[i].turn, model)
  }

  /** What the output holds of the message `m` of the history. */
  ghost predicate MessageCarried(history: seq<Message>, m: Message, out: Message, model: Model,
                                 normalize: Normalizer)
  {
    match m
    case UserMessage(Blocks(blocks), timestamp) =>
      && out.UserMessage? && out.timestamp == timestamp && out.userContent.Blocks?
      && ContentCarried(blocks, out.userContent.blocks, model, USER_PLACEHOLDER)
    case AssistantMessage(turn) =>
      && out.AssistantMessage? && out.turn == turn.(content := out.turn.content)
      && TurnCarried(turn.content, out.turn.content, WrittenBy(turn, model), model, normalize)
    case ToolResultMessage(id, name, result, isError, timestamp) =>
      && out.ToolResultMessage?
      && out.toolCallId == (if CalledElsewhere(history, model, id) then normalize(id, model) else id)
      && out.toolName == name && out.isError == isError && out.timestamp == timestamp
      && ContentCarried(result, out.result, model, TOOL_PLACEHOLDER)
    case _ => out == m
  }

  lemma {:induction false} CrossIdsAre(ms: seq<Message>, model: Model, id: string)
    ensures id in CrossIds(ms, model) <==> CalledElsewhere(ms, model, id)
  {
    if ms != [] {
      var front, last := ms[..|ms| - 1], ms[|ms| - 1];
      CrossIdsAre(front, model, id);
      CalledInFront(front, last, model, id);
      assert ms == front + [last];
      if CrossModel(last, model) {
        CallIdsMembers(last.turn.content);
        forall c: Call
          ensures c in Calls(last.turn.content) <==> ToolCall(c) in last.turn.content
        {
          CallsMembers(last.turn.content, c);
        }
      }
    }
  }

  lemma CalledInFront(front: seq<Message>, last: Message, model: Model, id: string)
    ensures CalledElsewhere(front + [last], model, id)
       <==> CalledElsewhere(front, model, id)
            || (last.AssistantMessage? && Replayed(last) && !WrittenBy(last.turn, model)
                && exists c :: ToolCall(c) in last.turn.content && c.id == id)
  {
    hide Replayed, WrittenBy;
    var ms := front + [last];
    if CalledElsewhere(front, model, id) {
      var i, c :| 0 <= i < |front| && front[i].AssistantMessage? && ToolCall(c) in front[i].turn.content
               && c.id == id && Replayed(front[i]) && !WrittenBy(front[i].turn, model);
      assert ms[i] == front[i];
    }
    if last.AssistantMessage? && Replayed(last) && !WrittenBy(last.turn, model)
       && exists c :: ToolCall(c) in last.turn.content && c.id == id {
      assert ms[|front|] == last;
    }
  }

  /** Downgrading leaves turns alone. */
  lemma TurnsStay(history: seq<Message>, model: Model, id: string)
    ensures CalledElsewhere(Downgraded(history, model), model, id) <==> CalledElsewhere(history, model, id)
  {
    var ms := Downgraded(history, model);
    assert |ms| == |history|;
    assert forall i | 0 <= i < |history| ::
        (history[i].AssistantMessage? <==> ms[i].AssistantMessage?)
            && (ms[i].AssistantMessage? ==> ms[i] == history[i]);
    hide Downgraded, Replayed, WrittenBy;
  }

  lemma RewrittenCarries(history: seq<Message>, m: Message, cross: set<string>, model: Model, normalize: Normalizer)
    requires forall id :: id in cross <==> CalledElsewhere(history, model, id)
    ensures MessageCarried(history, m,
                           RewrittenMessage(DowngradedMessage(m, model), cross, model, Renaming(normalize, model)),
                           model, normalize)
  {
    hide CalledElsewhere, ImagesReplaced, TurnCarried, WithoutImages;
    match m
    case UserMessage(Blocks(blocks), _) =>
      ImagesAreReplaced(blocks, USER_PLACEHOLDER);
    case ToolResultMessage(_, _, result, _, _) =>
      ImagesAreReplaced(result, TOOL_PLACEHOLDER);
    case AssistantMessage(turn) =>
      RewritingCarries(turn.content, WrittenBy(turn, model), model, normalize);
    case _ =>
  }

  // ---------------------------------------------------------------- the whole output

  /** `src` lists positions below `n` from left to right. */
  ghost predicate Increasing(src: seq<nat>, n: nat) {
    && (forall k | 0 <= k < |src| :: src[k] < n)
    && (forall j, k | 0 <= j < k < |src| :: src[j] < src[k])
  }

  /** Message `k` of `kept` carries message `src[k]` of the history, and all replayed messages are carried. */
  ghost predicate HistoryCarried(history: seq<Message>, kept: seq<Message>, src: seq<nat>, model: Model,
                                 normalize: Normalizer)
  {
    && |src| == |kept| && Increasing(src, |history|)
    && (forall i | 0 <= i < |history| :: i in src <==> Replayed(history[i]))
    && (forall k | 0 <= k < |kept| :: MessageCarried(history, history[src[k]], kept[k], model, normalize))
  }

  /** The output, said of the history alone: the replayed messages, in order, each carried as its kind, its
      writer and the model demand; between them only error results for the calls no result answers. */
  lemma OutputCarriesHistory(history: seq<Message>, model: Model, normalize: Normalizer, now: Clock)
    returns (inserted: seq<bool>, src: seq<nat>)
    ensures var out := Transformed(history, model, normalize, now);
            && |inserted| == |out| && Explained(out, inserted, [], {})
            && HistoryCarried(history, Erased(out, inserted), src, model, normalize)
  {
    hide Explained, Transformed, CalledElsewhere, MessageCarried, RewrittenMessage;
    var imageAware, rename := Downgraded(history, model), Renaming(normalize, model);
    var cross := CrossIds(imageAware, model);
    inserted, src := OutputIsRewrittenHistory(history, model, normalize, now);
    var kept := Erased(Transformed(history, model, normalize, now), inserted);
    forall id
      ensures id in cross <==> CalledElsewhere(history, model, id)
    {
      CrossIdsAre(imageAware, model, id);
      TurnsStay(history, model, id);
    }
    forall k | 0 <= k < |kept|
      ensures MessageCarried(history, history[src[k]], kept[k], model, normalize)
    {
      RewrittenCarries(history, history[src[k]], cross, model, normalize);
    }
    forall i | 0 <= i < |history|
      ensures Kept(imageAware[i]) <==> Replayed(history[i])
    {
    }
    assert |imageAware| == |history|;
  }

  /** A replayed turn of another model: its text blocks are now its text and its legible thinking, in order;
      nothing is signed and no thinking is left; its calls are the same, with normalized ids; the other blocks
      and the rest of the turn are unchanged. */
  lemma CrossTurnCarried(history: seq<Message>, i: nat, model: Model, normalize: Normalizer, now: Clock)
    returns (p: nat)
    requires i < |history| && history[i].AssistantMessage? && Replayed(history[i])
    requires !WrittenBy(history[i].turn, model)
    ensures var out := Transformed(history, model, normalize, now);
            && p < |out| && out[p].AssistantMessage?
            && out[p].turn == history[i].turn.(content := out[p].turn.content)
            && CrossCarried(history[i].turn.content, out[p].turn.content, model, normalize)
  {
    hide Explained, Transformed, CrossCarried, CrossIds;
    var imageAware, rename := Downgraded(history, model), Renaming(normalize, model);
    var cross := CrossIds(imageAware, model);
    var out := Transformed(history, model, normalize, now);
    var inserted, src := OutputIsRewrittenHistory(history, model, normalize, now);
    assert |imageAware| == |history| && imageAware[i] == history[i];
    var k := KeptPosition(out, inserted, imageAware, src, cross, model, rename, i);
    p := PositionOf(inserted, k);
    CrossContent(history[i].turn.content, model, normalize);
  }
}
