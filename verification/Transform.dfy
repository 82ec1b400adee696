/** Cross-provider history rewriting (crux-ai/core/transform.go). */
module Transform {
  import opened Wrappers
  import opened Text
  import opened Messages

  datatype Model = Model(id: string, api: string, provider: string, input: seq<string>)

  type Normalizer = (string, Model) -> string

  function Renaming(normalize: Normalizer, model: Model): string -> string {
    id => normalize(id, model)
  }

  // ---------------------------------------------------------------- tool call ids

  predicate SafeChar(c: char) {
    'a' <= c <= 'z' || 'A' <= c <= 'Z' || '0' <= c <= '9' || c == '_' || c == '-'
  }

  /** What Anthropic-compatible targets accept, or the empty id, which is never rewritten. */
  predicate AcceptableId(id: string) {
    |id| <= 64 && forall k | 0 <= k < |id| :: SafeChar(id[k])
  }

  /** A SHA-256 digest in hexadecimal: the digest itself is an uninterpreted function. */
  type HexDigest = s: string | |s| == 64 && forall k | 0 <= k < |s| :: IsDigit(s[k]) || 'a' <= s[k] <= 'f'
    witness seq(64, _ => '0')

  type Digest = string -> HexDigest

  function DefaultNormalize(sha: Digest, id: string): (r: string)
    ensures AcceptableId(r)
    ensures if AcceptableId(id) then r == id else r == "tc_" + sha(id)[..32]
  {
    ByteLengthBounds(id);
    if id == "" then id
    else if ByteLength(id) <= 64 && forall k | 0 <= k < |id| :: SafeChar(id[k]) then id
    else "tc_" + sha(id)[..32]
  }

  ghost predicate IdempotentFor(normalize: Normalizer, model: Model) {
    forall id :: normalize(normalize(id, model), model) == normalize(id, model)
  }

  /** The default normalizer meets the hypothesis of the idempotence theorem. */
  lemma DefaultNormalizerIdempotent(sha: Digest, model: Model)
    ensures IdempotentFor((id, m) => DefaultNormalize(sha, id), model)
  {
  }

  // ---------------------------------------------------------------- images

  const USER_PLACEHOLDER := "(image omitted: model does not support images)"
  const TOOL_PLACEHOLDER := "(tool image omitted: model does not support images)"

  predicate SupportsVision(model: Model) {
    "image" in model.input
  }

  /** An image, or a text block that already reads like the placeholder. */
  predicate Marks(b: ContentBlock, placeholder: string) {
    b.ImageContent? || (b.TextContent? && b.text == placeholder)
  }

  /** What the last block of `content` becomes: the first image of a run becomes the placeholder. */
  function LastWithoutImage(content: seq<ContentBlock>, placeholder: string): seq<ContentBlock>
    requires content != []
  {
    var k := |content| - 1;
    if !content[k].ImageContent? then [content[k]]
    else if k > 0 && Marks(content[k - 1], placeholder) then []
    else [TextContent(placeholder, "")]
  }

  function WithoutImages(content: seq<ContentBlock>, placeholder: string): seq<ContentBlock> {
    if content == [] then []
    else WithoutImages(content[..|content| - 1], placeholder) + LastWithoutImage(content, placeholder)
  }

  predicate ImageFree(content: seq<ContentBlock>) {
    forall b | b in content :: !b.ImageContent?
  }

  /** The list with every run of images and placeholders shrunk to one mark, `None`. */
  function RunsMarked(content: seq<ContentBlock>, placeholder: string): seq<Option<ContentBlock>> {
    if content == [] then []
    else AddRun(RunsMarked(content[..|content| - 1], placeholder), content[|content| - 1], placeholder)
  }

  function AddRun(runs: seq<Option<ContentBlock>>, b: ContentBlock, placeholder: string): seq<Option<ContentBlock>> {
    if !Marks(b, placeholder) then runs + [Some(b)]
    else if runs != [] && runs[|runs| - 1].None? then runs
    else runs + [None]
  }

  lemma RunsOneMore(front: seq<ContentBlock>, b: ContentBlock, placeholder: string)
    ensures RunsMarked(front + [b], placeholder) == AddRun(RunsMarked(front, placeholder), b, placeholder)
  {
    assert (front + [b])[..|front|] == front;
  }

  lemma LastRun(content: seq<ContentBlock>, placeholder: string)
    requires content != []
    ensures var runs := RunsMarked(content, placeholder);
            runs != [] && (runs[|runs| - 1].None? <==> Marks(content[|content| - 1], placeholder))
  {
    hide Marks;
  }

  /** No image survives, an image-free list is left alone, and runs of images and placeholders stay where
      they were, between the same other blocks. */
  lemma WithoutImagesMeaning(content: seq<ContentBlock>, placeholder: string)
    ensures ImageFree(WithoutImages(content, placeholder))
    ensures ImageFree(content) ==> WithoutImages(content, placeholder) == content
    ensures RunsMarked(WithoutImages(content, placeholder), placeholder) == RunsMarked(content, placeholder)
  {
    RunsStay(content, placeholder);
    ImagesGone(content, placeholder);
  }

  lemma {:induction false} ImagesGone(content: seq<ContentBlock>, placeholder: string)
    ensures ImageFree(WithoutImages(content, placeholder))
    ensures ImageFree(content) ==> WithoutImages(content, placeholder) == content
  {
    hide Marks;
    if content != [] {
      var front, b := content[..|content| - 1], content[|content| - 1];
      ImagesGone(front, placeholder);
      assert content == front + [b];
      assert forall x | x in front :: x in content;
    }
  }

  lemma {:induction false} RunsStay(content: seq<ContentBlock>, placeholder: string)
    ensures RunsMarked(WithoutImages(content, placeholder), placeholder) == RunsMarked(content, placeholder)
  {
    if content != [] {
      hide RunsMarked, Marks;
      var front, b := content[..|content| - 1], content[|content| - 1];
      RunsStay(front, placeholder);
      assert content == front + [b];
      RunsOneMore(front, b, placeholder);
      if front != [] {
        LastRun(front, placeholder);
      }
      ImagesMark(b, placeholder);
      var last := LastWithoutImage(content, placeholder);
      assert WithoutImages(content, placeholder) == WithoutImages(front, placeholder) + last;
      if last == [] {
        assert WithoutImages(front, placeholder) + last == WithoutImages(front, placeholder);
      } else {
        assert last == [last[0]];
        RunsOneMore(WithoutImages(front, placeholder), last[0], placeholder);
      }
    }
  }

  lemma ImagesMark(b: ContentBlock, placeholder: string)
    ensures b.ImageContent? ==> Marks(b, placeholder)
    ensures Marks(TextContent(placeholder, ""), placeholder)
  {
  }

  method ReplaceImagesWithPlaceholder(content: seq<ContentBlock>, placeholder: string)
    returns (out: seq<ContentBlock>)
    ensures out == WithoutImages(content, placeholder)
  {
    out := [];
    var prevWasPlaceholder := false;
    for i := 0 to |content|
      invariant out == WithoutImages(content[..i], placeholder)
      invariant prevWasPlaceholder == (i > 0 && Marks(content[i - 1], placeholder))
    {
      assert content[..i + 1][..i] == content[..i];
      var b := content[i];
      if b.ImageContent? {
        if !prevWasPlaceholder {
          out := out + [TextContent(placeholder, "")];
        }
        prevWasPlaceholder := true;
      } else {
        out := out + [b];
        prevWasPlaceholder := b.TextContent? && b.text == placeholder;
      }
    }
    assert content[..|content|] == content;
  }

  function DowngradedMessage(msg: Message, model: Model): Message {
    if SupportsVision(model) then msg
    else
      match msg
      case UserMessage(Blocks(blocks), _) =>
        msg.(userContent := Blocks(WithoutImages(blocks, USER_PLACEHOLDER)))
      case ToolResultMessage(_, _, content, _, _) =>
        msg.(result := WithoutImages(content, TOOL_PLACEHOLDER))
      case _ => msg
  }

  function Downgraded(messages: seq<Message>, model: Model): seq<Message> {
    seq(|messages|, i requires 0 <= i < |messages| => DowngradedMessage(messages[i], model))
  }

  method DowngradeUnsupportedImages(messages: seq<Message>, model: Model) returns (out: seq<Message>)
    ensures out == Downgraded(messages, model)
  {
    if SupportsVision(model) {
      return messages;
    }
    out := [];
    for i := 0 to |messages|
      invariant |out| == i
      invariant forall k | 0 <= k < i :: out[k] == DowngradedMessage(messages[k], model)
    {
      var m := messages[i];
      match m
      case UserMessage(Blocks(blocks), _) =>
        var replaced := ReplaceImagesWithPlaceholder(blocks, USER_PLACEHOLDER);
        out := out + [m.(userContent := Blocks(replaced))];
      case ToolResultMessage(_, _, content, _, _) =>
        var replaced := ReplaceImagesWithPlaceholder(content, TOOL_PLACEHOLDER);
        out := out + [m.(result := replaced)];
      case _ =>
        out := out + [m];
    }
  }

  // ---------------------------------------------------------------- rewriting one message

  predicate SameModel(am: Assistant, model: Model) {
    am.provider == model.provider && am.api == model.api && am.model == model.id
  }

  /** Turns that are replayed at all: markers and failed assistant turns are not. */
  predicate Kept(msg: Message) {
    !msg.NilMessage? && (msg.AssistantMessage? ==> !FailedStop(msg.turn.stopReason))
  }

  predicate CrossModel(msg: Message, model: Model) {
    msg.AssistantMessage? && Kept(msg) && !SameModel(msg.turn, model)
  }

  /** What one block of a kept assistant message becomes: nothing or one block. */
  function RewrittenBlock(b: ContentBlock, same: bool, rename: string -> string): seq<ContentBlock> {
    match b
    case ThinkingContent(thinking, signature, redacted) =>
      if redacted then (if same then [b] else [])
      else if same && signature != "" then [b]
      else if IsBlank(thinking) then []
      else if same then [b]
      else [TextContent(thinking, "")]
    case TextContent(text, _) =>
      if same then [b] else [TextContent(text, "")]
    case ToolCall(c) =>
      if same then [b] else [ToolCall(RenamedCall(c, rename))]
    case _ => [b]
  }

  function RenamedCall(c: Call, rename: string -> string): Call {
    c.(id := rename(c.id), thoughtSignature := "")
  }

  function RewrittenContent(content: seq<ContentBlock>, same: bool, rename: string -> string): seq<ContentBlock> {
    if content == [] then []
    else
      RewrittenContent(content[..|content| - 1], same, rename)
      + RewrittenBlock(content[|content| - 1], same, rename)
  }

  /** The ids borne by a call of some kept message that another model produced. */
  function CrossIds(messages: seq<Message>, model: Model): set<string> {
    if messages == [] then {}
    else
      var last := messages[|messages| - 1];
      CrossIds(messages[..|messages| - 1], model)
      + if CrossModel(last, model) then CallIds(last.turn.content) else {}
  }

  function RewrittenTurn(am: Assistant, model: Model, rename: string -> string): Assistant {
    am.(content := RewrittenContent(am.content, SameModel(am, model), rename))
  }

  function RewrittenMessage(msg: Message, cross: set<string>, model: Model, rename: string -> string): Message {
    match msg
    case AssistantMessage(am) => AssistantMessage(RewrittenTurn(am, model, rename))
    case ToolResultMessage(id, _, _, _, _) =>
      if id in cross then msg.(toolCallId := rename(id)) else msg
    case _ => msg
  }

  function Rewritten(messages: seq<Message>, cross: set<string>, model: Model, rename: string -> string)
    : seq<Message>
  {
    if messages == [] then []
    else if !Kept(messages[0]) then Rewritten(messages[1..], cross, model, rename)
    else [RewrittenMessage(messages[0], cross, model, rename)] + Rewritten(messages[1..], cross, model, rename)
  }

  // ---------------------------------------------------------------- synthetic results

  /** The clock: the time at which the message at an output position was synthesized. */
  type Clock = nat -> int

  function SyntheticResult(call: Call, time: int): Message {
    ToolResultMessage(call.id, call.name, [TextContent("No result provided", "")], true, time)
  }

  /** Error results for the pending calls whose id is not in `answered`, in call order. */
  function Synthesized(pending: seq<Call>, answered: set<string>, now: Clock, pos: nat): seq<Message> {
    if pending == [] then []
    else if pending[0].id in answered then Synthesized(pending[1..], answered, now, pos)
    else [SyntheticResult(pending[0], now(pos))] + Synthesized(pending[1..], answered, now, pos + 1)
  }

  /** The results due before `m` is emitted: all that are missing when `m` opens a new turn. */
  function DueBefore(m: Message, pending: seq<Call>, answered: set<string>, now: Clock, pos: nat): seq<Message> {
    if m.AssistantMessage? then Synthesized(pending, answered, now, pos) else []
  }

  function PendingAfter(m: Message, pending: seq<Call>): seq<Call> {
    if m.AssistantMessage? then Calls(m.turn.content) else pending
  }

  function AnsweredAfter(m: Message, answered: set<string>): set<string> {
    if m.AssistantMessage? then {} else if m.ToolResultMessage? then answered + {m.toolCallId} else answered
  }

  /** `messages` with the unanswered calls of each turn answered just before the next turn.
      `pending` and `answered` describe the turn that is open where `messages` starts. */
  function Completed(messages: seq<Message>, pending: seq<Call>, answered: set<string>, now: Clock, pos: nat)
    : seq<Message>
    decreases messages
  {
    if messages == [] then Synthesized(pending, answered, now, pos)
    else
      var m := messages[0];
      var due := DueBefore(m, pending, answered, now, pos);
      due + [m] + Completed(messages[1..], PendingAfter(m, pending), AnsweredAfter(m, answered), now, pos + |due| + 1)
  }

  /** The specification: downgrade images, rewrite each kept message on its own, complete the turns. */
  function Transformed(messages: seq<Message>, model: Model, normalize: Normalizer, now: Clock): seq<Message> {
    var imageAware := Downgraded(messages, model);
    var rename := Renaming(normalize, model);
    Completed(Rewritten(imageAware, CrossIds(imageAware, model), model, rename), [], {}, now, 0)
  }

  // ---------------------------------------------------------------- the two passes

  ghost predicate IdMapFor(idMap: map<string, string>, cross: set<string>, rename: string -> string) {
    && (forall id :: id in idMap <==> id in cross && rename(id) != id)
    && (forall id | id in idMap :: idMap[id] == rename(id))
  }

  /** Records the renamings of the calls of one cross-model turn. */
  method AddRenamings(content: seq<ContentBlock>, idMap0: map<string, string>, model: Model, normalize: Normalizer,
                      ghost before: set<string>)
    returns (idMap: map<string, string>)
    requires IdMapFor(idMap0, before, Renaming(normalize, model))
    ensures IdMapFor(idMap, before + CallIds(content), Renaming(normalize, model))
  {
    idMap := idMap0;
    for j := 0 to |content|
      invariant IdMapFor(idMap, before + CallIds(content[..j]), Renaming(normalize, model))
    {
      assert content[..j + 1][..j] == content[..j];
      var b := content[j];
      if b.ToolCall? {
        var normalized := normalize(b.call.id, model);
        if normalized != b.call.id {
          idMap := idMap[b.call.id := normalized];
        }
      }
    }
    assert content[..|content|] == content;
  }

  /** Pass 1: the renaming of every call id that occurs in a kept cross-model turn. */
  method BuildIdMap(messages: seq<Message>, model: Model, normalize: Normalizer)
    returns (idMap: map<string, string>)
    ensures IdMapFor(idMap, CrossIds(messages, model), Renaming(normalize, model))
  {
    idMap := map[];
    for i := 0 to |messages|
      invariant IdMapFor(idMap, CrossIds(messages[..i], model), Renaming(normalize, model))
    {
      assert messages[..i + 1][..i] == messages[..i];
      if !messages[i].AssistantMessage? || FailedStop(messages[i].turn.stopReason) {
        continue;
      }
      if !SameModel(messages[i].turn, model) {
        idMap := AddRenamings(messages[i].turn.content, idMap, model, normalize, CrossIds(messages[..i], model));
      }
    }
    assert messages[..|messages|] == messages;
  }

  lemma {:induction false} CrossIdsContain(messages: seq<Message>, model: Model, i: nat)
    requires i < |messages| && CrossModel(messages[i], model)
    ensures CallIds(messages[i].turn.content) <= CrossIds(messages, model)
  {
    if i < |messages| - 1 {
      CrossIdsContain(messages[..|messages| - 1], model, i);
    }
  }

  method RewriteContent(content: seq<ContentBlock>, same: bool, idMap: map<string, string>,
                        ghost cross: set<string>, ghost rename: string -> string)
    returns (out: seq<ContentBlock>)
    requires IdMapFor(idMap, cross, rename)
    requires !same ==> CallIds(content) <= cross
    ensures out == RewrittenContent(content, same, rename)
  {
    out := [];
    for i := 0 to |content|
      invariant out == RewrittenContent(content[..i], same, rename)
    {
      assert content[..i + 1][..i] == content[..i];
      var b := content[i];
      match b
      case ThinkingContent(thinking, signature, redacted) =>
        if redacted {
          if same {
            out := out + [b];
          }
          continue;
        }
        if same && signature != "" {
          out := out + [b];
          continue;
        }
        if IsBlank(thinking) {
          continue;
        }
        if same {
          out := out + [b];
          continue;
        }
        out := out + [TextContent(thinking, "")];
      case TextContent(text, _) =>
        out := out + [if same then b else TextContent(text, "")];
      case ToolCall(call) =>
        var tc := call;
        if !same && tc.thoughtSignature != "" {
          tc := tc.(thoughtSignature := "");
        }
        if !same {
          CallsMembers(content, call);
          CallIdsMembers(content);
          assert call.id in CallIds(content);
          if tc.id in idMap {
            tc := tc.(id := idMap[tc.id]);
          }
        }
        out := out + [ToolCall(tc)];
      case _ =>
        out := out + [b];
    }
    assert content[..|content|] == content;
  }

  /** `flushPending`: answers what is pending at the end of `transformed`. */
  method FlushPending(transformed: seq<Message>, pending: seq<Call>, existing: set<string>, now: Clock)
    returns (out: seq<Message>)
    ensures out == transformed + Synthesized(pending, existing, now, |transformed|)
  {
    out := transformed;
    for i := 0 to |pending|
      invariant out + Synthesized(pending[i..], existing, now, |out|)
             == transformed + Synthesized(pending, existing, now, |transformed|)
    {
      var tc := pending[i];
      assert pending[i..][1..] == pending[i + 1..];
      if tc.id in existing {
        continue;
      }
      ghost var rest := Synthesized(pending[i + 1..], existing, now, |out| + 1);
      assert out + ([SyntheticResult(tc, now(|out|))] + rest) == out + [SyntheticResult(tc, now(|out|))] + rest;
      out := out + [SyntheticResult(tc, now(|out|))];
    }
    assert out + [] == out;
  }

  /** What the second pass returns once it has emitted `done` and has `messages` left to emit. */
  ghost function Emitted(done: seq<Message>, messages: seq<Message>, pending: seq<Call>, answered: set<string>,
                         now: Clock)
    : seq<Message>
  {
    done + Completed(messages, pending, answered, now, |done|)
  }

  lemma EmitOne(done: seq<Message>, m: Message, rest: seq<Message>, pending: seq<Call>, answered: set<string>,
                now: Clock)
    ensures Emitted(done, [m] + rest, pending, answered, now)
         == Emitted(done + DueBefore(m, pending, answered, now, |done|) + [m], rest,
                    PendingAfter(m, pending), AnsweredAfter(m, answered), now)
  {
    hide DueBefore, PendingAfter, AnsweredAfter;
    assert ([m] + rest)[1..] == rest;
  }

  /** Pass 1 and pass 2, with the deferred flush. */
  method TransformMessages(messages: seq<Message>, model: Model, normalize: Normalizer, now: Clock)
    returns (transformed: seq<Message>)
    ensures transformed == Transformed(messages, model, normalize, now)
  {
    var imageAware := DowngradeUnsupportedImages(messages, model);
    var idMap := BuildIdMap(imageAware, model, normalize);
    ghost var rename := Renaming(normalize, model);
    ghost var cross := CrossIds(imageAware, model);
    transformed := [];
    var pendingTCs: seq<Call> := [];
    var existingResults: set<string> := {};
    for i := 0 to |imageAware|
      invariant Emitted(transformed, Rewritten(imageAware[i..], cross, model, rename), pendingTCs, existingResults, now)
             == Transformed(messages, model, normalize, now)
    {
      var msg := imageAware[i];
      assert imageAware[i..][1..] == imageAware[i + 1..];
      if msg.NilMessage? || (msg.AssistantMessage? && FailedStop(msg.turn.stopReason)) {
        continue;
      }
      EmitOne(transformed, RewrittenMessage(msg, cross, model, rename),
              Rewritten(imageAware[i + 1..], cross, model, rename), pendingTCs, existingResults, now);
      if msg.AssistantMessage? {
        transformed := FlushPending(transformed, pendingTCs, existingResults, now);
        pendingTCs, existingResults := [], {};
        var am := msg.turn;
        var same := SameModel(am, model);
        if !same {
          CrossIdsContain(imageAware, model, i);
        }
        var newContent := RewriteContent(am.content, same, idMap, cross, rename);
        var tcs := Calls(newContent);
        if |tcs| > 0 {
          pendingTCs := tcs;
        }
        transformed := transformed + [AssistantMessage(am.(content := newContent))];
        continue;
      }
      assert transformed + [] == transformed;
      if msg.ToolResultMessage? {
        var tr := msg;
        if tr.toolCallId in idMap {
          tr := tr.(toolCallId := idMap[tr.toolCallId]);
        }
        existingResults := existingResults + {tr.toolCallId};
        transformed := transformed + [tr];
        continue;
      }
      transformed := transformed + [msg];
    }
    transformed := FlushPending(transformed, pendingTCs, existingResults, now);
  }
}
