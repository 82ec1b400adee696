/** From atomic provider deltas to the bracketed Start/Delta/End protocol (crux-ai/core/provider_events.go). */
module Bridge {
  import opened Wrappers
  import opened Messages

  datatype ProviderEvent =
    | ResponseStart
    | TextDelta(delta: string)
    | ThinkingDelta(delta: string)
    | WholeCall(id: string, name: string, arguments: string)
    | ResponseEnd(message: Assistant, finishReason: string)
    | ProviderError(message': string)
    | BlockStop(textSignature: string, thinkingSignature: string)
    | Retry

  /** How the provider stream stops: with an error, or without one (a plain end signal or a closed channel). */
  datatype Ending = EndedWith(err: string) | EndedSilently

  datatype Event =
    | Start(api: string, provider: string, model: string)
    | TextStart(index: int)
    | TextPiece(index: int, delta: string)
    | TextEnd(index: int, text: string, signature: string)
    | ThinkingStart(index: int)
    | ThinkingPiece(index: int, delta: string)
    | ThinkingEnd(index: int, text: string, signature: string)
    | CallStart(index: int, id: string, name: string)
    | CallPiece(index: int, id: string, argumentsDelta: string)
    | CallEnd(index: int, id: string, arguments: string)
    | Done(reason: StopReason, message: Assistant)
    | Failed(errorMessage: string)

  datatype Origin = Origin(api: string, provider: string, model: string)

  const NO_TERMINAL := "Provider stream ended without a terminal event"

  // ---------------------------------------------------------------- reference: a stream as a list of blocks

  /** A content block as the provider streamed it. */
  datatype Block =
    | TextBlock(deltas: seq<string>, signature: string)
    | ThinkingBlock(deltas: seq<string>, signature: string)
    | CallBlock(id: string, name: string, arguments: string)

  /** What a provider prefix without a terminal event says; when `open`, the last block may still grow. */
  datatype Reading = Reading(started: bool, blocks: seq<Block>, open: bool) {
    predicate Grows(text: bool) {
      open && blocks != [] && if text then blocks[|blocks| - 1].TextBlock? else blocks[|blocks| - 1].ThinkingBlock?
    }

    function Last(): Block
      requires blocks != []
    {
      blocks[|blocks| - 1]
    }

    function WithLast(b: Block): Reading
      requires blocks != []
    {
      this.(blocks := blocks[..|blocks| - 1] + [b])
    }
  }

  function ReadText(r: Reading, d: string): Reading {
    if r.Grows(true) then r.WithLast(TextBlock(r.Last().deltas + [d], ""))
    else Reading(r.started, r.blocks + [TextBlock([d], "")], true)
  }

  function ReadThinking(r: Reading, d: string): Reading {
    if r.Grows(false) then r.WithLast(ThinkingBlock(r.Last().deltas + [d], ""))
    else Reading(r.started, r.blocks + [ThinkingBlock([d], "")], true)
  }

  function ReadStop(r: Reading, textSignature: string, thinkingSignature: string): Reading {
    if r.Grows(true) then r.WithLast(TextBlock(r.Last().deltas, textSignature)).(open := false)
    else if r.Grows(false) then r.WithLast(ThinkingBlock(r.Last().deltas, thinkingSignature)).(open := false)
    else r.(open := false)
  }

  function ReadEvent(r: Reading, e: ProviderEvent): Reading {
    var s := r.(started := true);
    match e
    case Retry => r
    case ResponseStart => s
    case TextDelta(d) => ReadText(s, d)
    case ThinkingDelta(d) => ReadThinking(s, d)
    case WholeCall(id, name, arguments) => Reading(true, r.blocks + [CallBlock(id, name, arguments)], false)
    case BlockStop(textSignature, thinkingSignature) => ReadStop(s, textSignature, thinkingSignature)
    case ResponseEnd(_, _) => s.(open := false)
    case ProviderError(_) => s
  }

  function Read(events: seq<ProviderEvent>): Reading {
    if events == [] then Reading(false, [], false)
    else ReadEvent(Read(events[..|events| - 1]), events[|events| - 1])
  }

  predicate Terminal(e: ProviderEvent) {
    e.ResponseEnd? || e.ProviderError?
  }

  /** The position of the first terminal event, or the length. */
  function TerminalAt(events: seq<ProviderEvent>): (n: nat)
    ensures n <= |events|
    ensures forall k | 0 <= k < n :: !Terminal(events[k])
    ensures n < |events| ==> Terminal(events[n])
  {
    if events == [] || Terminal(events[0]) then 0 else 1 + TerminalAt(events[1..])
  }

  function Joined(deltas: seq<string>): string {
    if deltas == [] then "" else Joined(deltas[..|deltas| - 1]) + deltas[|deltas| - 1]
  }

  // ---------------------------------------------------------------- reference: rendering blocks as events

  function TextPieces(i: int, deltas: seq<string>): seq<Event> {
    if deltas == [] then [] else TextPieces(i, deltas[..|deltas| - 1]) + [TextPiece(i, deltas[|deltas| - 1])]
  }

  function ThinkingPieces(i: int, deltas: seq<string>): seq<Event> {
    if deltas == [] then [] else ThinkingPieces(i, deltas[..|deltas| - 1]) + [ThinkingPiece(i, deltas[|deltas| - 1])]
  }

  function Opening(i: int, b: Block): seq<Event> {
    match b
    case TextBlock(deltas, _) => [TextStart(i)] + TextPieces(i, deltas)
    case ThinkingBlock(deltas, _) => [ThinkingStart(i)] + ThinkingPieces(i, deltas)
    case CallBlock(id, name, arguments) => [CallStart(i, id, name), CallEnd(i, id, arguments)]
  }

  function Closing(i: int, b: Block): seq<Event> {
    match b
    case TextBlock(deltas, signature) => [TextEnd(i, Joined(deltas), signature)]
    case ThinkingBlock(deltas, signature) => [ThinkingEnd(i, Joined(deltas), signature)]
    case CallBlock(_, _, _) => []
  }

  /** Complete blocks, numbered from 0. */
  function Bracketed(blocks: seq<Block>): seq<Event> {
    if blocks == [] then []
    else
      var i := |blocks| - 1;
      Bracketed(blocks[..i]) + Opening(i, blocks[i]) + Closing(i, blocks[i])
  }

  /** As `Bracketed`, except that the last block is not closed when `open`. */
  function Rendered(blocks: seq<Block>, open: bool): seq<Event> {
    if open && blocks != []
    then Bracketed(blocks[..|blocks| - 1]) + Opening(|blocks| - 1, blocks[|blocks| - 1])
    else Bracketed(blocks)
  }

  function StartPart(started: bool, origin: Origin): seq<Event> {
    if started then [Start(origin.api, origin.provider, origin.model)] else []
  }

  /** What has been accepted while the stream is live. */
  function Shown(r: Reading, origin: Origin): seq<Event> {
    StartPart(r.started, origin) + Rendered(r.blocks, r.open)
  }

  function ContentOf(b: Block): ContentBlock {
    match b
    case TextBlock(deltas, _) => TextContent(Joined(deltas), "")
    case ThinkingBlock(deltas, _) => ThinkingContent(Joined(deltas), "", false)
    case CallBlock(id, name, arguments) => ToolCall(Call(id, name, arguments, ""))
  }

  /** The content that a block list streams. */
  function Contents(blocks: seq<Block>): (content: seq<ContentBlock>)
    ensures |content| == |blocks|
    ensures blocks != [] ==> content[|blocks| - 1] == ContentOf(blocks[|blocks| - 1])
  {
    if blocks == [] then [] else Contents(blocks[..|blocks| - 1]) + [ContentOf(blocks[|blocks| - 1])]
  }

  function NormalizeStopReason(reason: string, hasToolCalls: bool): StopReason {
    if hasToolCalls then StopToolUse
    else if reason in {"tool_calls", "tool_use", "toolUse"} then StopToolUse
    else if reason in {"length", "max_tokens", "MAX_TOKENS", "incomplete"} then StopLength
    else if reason in {"error", "failed"} then StopError
    else StopStop
  }

  predicate HasToolCalls(content: seq<ContentBlock>) {
    exists b | b in content :: b.ToolCall?
  }

  /** The message of a completed response: streamed content first, the provider's own content otherwise. */
  function FinalMessage(content: seq<ContentBlock>, message: Assistant, finishReason: string,
                        origin: Origin): Assistant {
    var finalContent := if content != [] then content else message.content;
    message.(content := finalContent, api := origin.api, provider := origin.provider, model := origin.model,
             stopReason := NormalizeStopReason(finishReason, HasToolCalls(finalContent)))
  }

  datatype Outcome = Completed(message: Assistant) | Broken(err: string)

  /** What is delivered once terminal event `e` follows the reading `r`. */
  function DeliveredAt(r: Reading, e: ProviderEvent, origin: Origin): (seq<Event>, Outcome)
    requires Terminal(e)
  {
    match e
    case ResponseEnd(message, finishReason) =>
      var final := FinalMessage(Contents(r.blocks), message, finishReason, origin);
      (StartPart(true, origin) + Bracketed(r.blocks) + [Done(final.stopReason, final)], Completed(final))
    case ProviderError(message) =>
      (StartPart(true, origin) + Rendered(r.blocks, r.open) + [Failed(message)], Broken(message))
  }

  /** Everything the bridge delivers: the accepted events and the stream's outcome. */
  function Delivered(events: seq<ProviderEvent>, ending: Ending, origin: Origin): (seq<Event>, Outcome) {
    var n := TerminalAt(events);
    var r := Read(events[..n]);
    if n < |events| then DeliveredAt(r, events[n], origin)
    else
      var message := if ending.EndedWith? then ending.err else NO_TERMINAL;
      (Shown(r, origin) + [Failed(message)], Broken(message))
  }

  // ---------------------------------------------------------------- one more event, seen on the reference side

  /** Blocks come after the start, and only unsigned text and thinking blocks are ever open. */
  ghost predicate WellOpen(r: Reading) {
    && (r.open ==> r.blocks != [] && !r.Last().CallBlock? && r.Last().signature == "")
    && (!r.started ==> r.blocks == [])
  }

  /** Closing what is open gives the bracketed form. */
  lemma CloseOpen(r: Reading)
    requires r.open && r.blocks != []
    ensures Rendered(r.blocks, true) + Closing(|r.blocks| - 1, r.Last()) == Bracketed(r.blocks)
  {
  }

  /** Growing the open block by one event. */
  lemma GrowLast(blocks: seq<Block>, b: Block, e: Event)
    requires blocks != [] && Opening(|blocks| - 1, b) == Opening(|blocks| - 1, blocks[|blocks| - 1]) + [e]
    ensures Rendered(blocks[..|blocks| - 1] + [b], true) == Rendered(blocks, true) + [e]
  {
    hide Opening, Bracketed;
    assert (blocks[..|blocks| - 1] + [b])[..|blocks| - 1] == blocks[..|blocks| - 1];
  }

  lemma GrowContent(blocks: seq<Block>, b: Block)
    requires blocks != []
    ensures Contents(blocks[..|blocks| - 1] + [b]) == Contents(blocks)[|blocks| - 1 := ContentOf(b)]
  {
    AddContent(blocks[..|blocks| - 1], b);
  }

  lemma GrowShown(r: Reading, b: Block, e: Event, origin: Origin)
    requires r.open && r.blocks != [] && Opening(|r.blocks| - 1, b) == Opening(|r.blocks| - 1, r.Last()) + [e]
    ensures Shown(r.WithLast(b), origin) == Shown(r, origin) + [e]
    ensures Contents(r.WithLast(b).blocks) == Contents(r.blocks)[|r.blocks| - 1 := ContentOf(b)]
  {
    hide Rendered, Contents, Opening;
    GrowLast(r.blocks, b, e);
    GrowContent(r.blocks, b);
  }

  lemma OneMoreDelta(i: int, deltas: seq<string>, d: string)
    ensures Opening(i, TextBlock(deltas + [d], "")) == Opening(i, TextBlock(deltas, "")) + [TextPiece(i, d)]
    ensures Opening(i, ThinkingBlock(deltas + [d], "")) == Opening(i, ThinkingBlock(deltas, "")) + [ThinkingPiece(i, d)]
    ensures Joined(deltas + [d]) == Joined(deltas) + d
  {
    assert (deltas + [d])[..|deltas|] == deltas;
  }

  /** A block list with one more block, of which only the opening is shown. */
  lemma AddBlock(blocks: seq<Block>, b: Block)
    ensures Rendered(blocks + [b], true) == Bracketed(blocks) + Opening(|blocks|, b)
    ensures b.CallBlock? ==> Rendered(blocks + [b], false) == Bracketed(blocks) + Opening(|blocks|, b)
  {
    assert (blocks + [b])[..|blocks|] == blocks;
    if b.CallBlock? {
      assert Bracketed(blocks) + Opening(|blocks|, b) + [] == Bracketed(blocks) + Opening(|blocks|, b);
    }
  }

  lemma AddContent(blocks: seq<Block>, b: Block)
    ensures Contents(blocks + [b]) == Contents(blocks) + [ContentOf(b)]
  {
    assert (blocks + [b])[..|blocks|] == blocks;
  }

  /** What is shown once the open block, if any, is closed without a signature. */
  function ShownClosed(r: Reading, origin: Origin): seq<Event> {
    StartPart(r.started, origin) + Bracketed(r.blocks)
  }

  function Opened(r: Reading, text: bool): Reading {
    Reading(r.started, r.blocks + [if text then TextBlock([], "") else ThinkingBlock([], "")], true)
  }

  lemma OpenBlock(r: Reading, text: bool, origin: Origin)
    ensures var i := |r.blocks|;
            Shown(Opened(r, text), origin) == ShownClosed(r, origin) + [if text then TextStart(i) else ThinkingStart(i)]
    ensures Shown(r.(open := false), origin) == ShownClosed(r, origin)
    ensures Contents(Opened(r, text).blocks) == Contents(r.blocks)
              + [if text then TextContent("", "") else ThinkingContent("", "", false)]
  {
    hide Contents, Bracketed;
    var b := if text then TextBlock([], "") else ThinkingBlock([], "");
    AddBlock(r.blocks, b);
    AddContent(r.blocks, b);
    assert Opening(|r.blocks|, b) == [if text then TextStart(|r.blocks|) else ThinkingStart(|r.blocks|)];
  }

  /** A delta of another kind opens its block and then grows it. */
  lemma OpenThenGrow(r: Reading, d: string)
    requires r.started
    ensures !r.Grows(true) ==> ReadText(r, d) == ReadText(Opened(r, true), d)
    ensures !r.Grows(false) ==> ReadThinking(r, d) == ReadThinking(Opened(r, false), d)
  {
    assert [] + [d] == [d];
    assert (r.blocks + [TextBlock([], "")])[..|r.blocks|] == r.blocks;
    assert (r.blocks + [ThinkingBlock([], "")])[..|r.blocks|] == r.blocks;
  }

  lemma AddCall(r: Reading, id: string, name: string, arguments: string, origin: Origin)
    requires !r.open && r.started
    ensures var r' := Reading(true, r.blocks + [CallBlock(id, name, arguments)], false);
            && Shown(r', origin) == Shown(r, origin) + [CallStart(|r.blocks|, id, name)]
                + [CallEnd(|r.blocks|, id, arguments)]
            && Contents(r'.blocks) == Contents(r.blocks) + [ToolCall(Call(id, name, arguments, ""))]
  {
    AddBlock(r.blocks, CallBlock(id, name, arguments));
    AddContent(r.blocks, CallBlock(id, name, arguments));
  }

  lemma SignBlock(r: Reading, textSignature: string, thinkingSignature: string)
    requires WellOpen(r) && r.open
    ensures var r' := ReadStop(r, textSignature, thinkingSignature);
            && Contents(r'.blocks) == Contents(r.blocks)
            && Rendered(r'.blocks, r'.open) == Rendered(r.blocks, true) +
               (if r.Last().TextBlock? then [TextEnd(|r.blocks| - 1, Joined(r.Last().deltas), textSignature)]
                else [ThinkingEnd(|r.blocks| - 1, Joined(r.Last().deltas), thinkingSignature)])
  {
    var r' := ReadStop(r, textSignature, thinkingSignature);
    assert r'.blocks[..|r.blocks| - 1] == r.blocks[..|r.blocks| - 1];
    CloseOpen(Reading(true, r'.blocks, true));
    GrowContent(r.blocks, r'.Last());
  }

  lemma StopShown(r: Reading, textSignature: string, thinkingSignature: string, origin: Origin)
    requires WellOpen(r) && r.started
    ensures var r' := ReadStop(r, textSignature, thinkingSignature);
            && WellOpen(r') && r'.started && !r'.open && |r'.blocks| == |r.blocks|
                && Contents(r'.blocks) == Contents(r.blocks)
            && Shown(r', origin) ==
                 if !r.open then Shown(r, origin)
                 else
                   var text := Joined(r.Last().deltas);
                   Shown(r, origin) + (if r.Last().TextBlock? then [TextEnd(|r.blocks| - 1, text, textSignature)]
                                       else [ThinkingEnd(|r.blocks| - 1, text, thinkingSignature)])
  {
    hide Contents, Rendered;
    if r.open {
      SignBlock(r, textSignature, thinkingSignature);
    }
  }

  lemma StartedOrNot(r: Reading, e: ProviderEvent, origin: Origin)
    requires !e.Retry?
    ensures ReadEvent(r.(started := true), e) == ReadEvent(r, e)
    ensures Terminal(e) ==> DeliveredAt(r.(started := true), e, origin) == DeliveredAt(r, e, origin)
  {
  }

  lemma DeliveredError(r: Reading, message: string, origin: Origin)
    requires r.started
    ensures DeliveredAt(r, ProviderError(message), origin) == (Shown(r, origin) + [Failed(message)], Broken(message))
  {
  }

  lemma ReadStep(events: seq<ProviderEvent>, i: nat)
    requires i < |events|
    ensures Read(events[..i + 1]) == ReadEvent(Read(events[..i]), events[i])
  {
    assert events[..i + 1][..i] == events[..i];
  }

  // ---------------------------------------------------------------- the bridge

  /** The append-only view of an event stream (crux-ai/core/events.go): one producer, a consumer that keeps up. */
  class EventStream {
    var accepted: seq<Event>
    var closed: bool
    var result: Option<Assistant>
    var err: Option<string>

    constructor ()
      ensures accepted == [] && !closed && result == None && err == None
    {
      accepted, closed, result, err := [], false, None, None;
    }

    /** Appends the event, or drops it when the stream is closed. */
    method Push(event: Event) returns (ok: bool)
      modifies this`accepted
      ensures ok == !closed
      ensures accepted == if closed then old(accepted) else old(accepted) + [event]
    {
      if closed {
        return false;
      }
      accepted := accepted + [event];
      return true;
    }

    method End(r: Assistant)
      modifies this`closed, this`result
      ensures closed && result == if old(closed) then old(result) else Some(r)
    {
      if !closed {
        closed, result := true, Some(r);
      }
    }

    method Error(message: string)
      modifies this`closed, this`err
      ensures closed && err == if old(closed) then old(err) else Some(message)
    {
      if !closed {
        closed, err := true, Some(message);
      }
    }
  }

  /** The local variables of the bridge's goroutine, and the stream it writes to. */
  class Canonicalizer {
    const out: EventStream
    const origin: Origin
    var partial: seq<ContentBlock>
    var activeIndex: int
    var activeKind: string
    var started: bool
    var terminal: bool
    ghost var pushed: seq<Event>  // every push that would be accepted if the stream never closed

    constructor (origin: Origin)
      ensures fresh(out) && this.origin == origin
      ensures Tracks(Reading(false, [], false)) && Live() && !terminal
    {
      this.out := new EventStream();
      this.origin := origin;
      partial, activeIndex, activeKind, started, terminal := [], -1, "", false, false;
      pushed := [];
    }

    /** The variables describe the reading `r`; in particular the active block has the active kind. */
    ghost predicate Tracks(r: Reading)
      reads this
    {
      && WellOpen(r)
      && started == r.started
      && partial == Contents(r.blocks)
      && activeIndex == (if r.open then |r.blocks| - 1 else -1)
      && activeKind == (if !r.open then "" else if r.Last().TextBlock? then "text" else "thinking")
      && pushed == Shown(r, origin)
    }

    /** Nothing terminal has happened: everything pushed has been accepted. */
    ghost predicate Live()
      reads this, out
    {
      !out.closed && out.result == None && out.err == None && out.accepted == pushed
    }

    /** The stream delivers `delivered`, and nothing else from now on. */
    ghost predicate HasDelivered(delivered: (seq<Event>, Outcome))
      reads this, out
    {
      && out.closed
      && out.accepted == delivered.0
      && match delivered.1
         case Completed(message) => out.result == Some(message) && out.err == None
         case Broken(err) => out.err == Some(err) && out.result == None
    }

    method Emit(e: Event)
      modifies this`pushed, out`accepted
      ensures pushed == old(pushed) + [e]
      ensures out.accepted == if out.closed then old(out.accepted) else old(out.accepted) + [e]
    {
      var _ := out.Push(e);
      pushed := pushed + [e];
    }

    method EndActiveBlock(textSignature: string, thinkingSignature: string)
      requires 0 <= activeIndex < |partial| ==>
                 partial[activeIndex].TextContent? || partial[activeIndex].ThinkingContent?
      modifies this`pushed, out`accepted
      ensures out.closed ==> out.accepted == old(out.accepted)
      ensures old(Live()) ==> Live()
      ensures if 0 <= activeIndex < |partial| then
                pushed == old(pushed) +
                  (match partial[activeIndex]
                   case TextContent(text, _) => [TextEnd(activeIndex, text, textSignature)]
                   case ThinkingContent(thinking, _, _) => [ThinkingEnd(activeIndex, thinking, thinkingSignature)]
                   case _ => [])
              else pushed == old(pushed)
    {
      if activeIndex < 0 || activeIndex >= |partial| {
        return;
      }
      match partial[activeIndex]
      case TextContent(text, _) => Emit(TextEnd(activeIndex, text, textSignature));
      case ThinkingContent(thinking, _, _) => Emit(ThinkingEnd(activeIndex, thinking, thinkingSignature));
      case _ =>
    }

    /** Closes what is active, without signatures. */
    method CloseActive(ghost r: Reading)
      requires Tracks(r)
      modifies this`activeIndex, this`activeKind, this`pushed, out`accepted
      ensures Tracks(r.(open := false))
      ensures out.closed ==> out.accepted == old(out.accepted)
      ensures old(Live()) ==> Live()
    {
      if r.open {
        CloseOpen(r);
      }
      EndActiveBlock("", "");
      activeIndex, activeKind := -1, "";
    }

    /** Closes what is active and starts a block of the other kind. */
    method StartBlock(text: bool, ghost r: Reading)
      requires Tracks(r) && started
      modifies this`partial, this`activeIndex, this`activeKind, this`pushed, out`accepted
      ensures Tracks(Opened(r, text))
      ensures out.closed ==> out.accepted == old(out.accepted)
      ensures old(Live()) ==> Live()
    {
      hide Shown, Contents, ShownClosed;
      CloseActive(r);
      OpenBlock(r, text, origin);
      activeIndex, activeKind := |partial|, if text then "text" else "thinking";
      partial := partial + [if text then TextContent("", "") else ThinkingContent("", "", false)];
      Emit(if text then TextStart(activeIndex) else ThinkingStart(activeIndex));
    }

    /** Replaces the active block by a grown one and reports the growth. */
    method Grow(content: ContentBlock, e: Event, ghost r: Reading, ghost b: Block)
      requires Tracks(r) && r.open && !b.CallBlock? && b.signature == "" && (b.TextBlock? <==> r.Last().TextBlock?)
      requires content == ContentOf(b)
      requires Opening(|r.blocks| - 1, b) == Opening(|r.blocks| - 1, r.Last()) + [e]
      modifies this`partial, this`pushed, out`accepted
      ensures Tracks(r.WithLast(b))
      ensures out.closed ==> out.accepted == old(out.accepted)
      ensures old(Live()) ==> Live()
    {
      hide Shown, Contents, Opening, ContentOf;
      GrowShown(r, b, e, origin);
      partial := partial[activeIndex := content];
      Emit(e);
    }

    method GrowText(d: string, ghost r: Reading)
      requires Tracks(r) && r.Grows(true)
      modifies this`partial, this`pushed, out`accepted
      ensures Tracks(ReadText(r, d))
      ensures out.closed ==> out.accepted == old(out.accepted)
      ensures old(Live()) ==> Live()
    {
      hide Shown, Contents, Opening, Joined;
      OneMoreDelta(activeIndex, r.Last().deltas, d);
      var tc := partial[activeIndex];
      Grow(tc.(text := tc.text + d), TextPiece(activeIndex, d), r, TextBlock(r.Last().deltas + [d], ""));
    }

    method OnTextDelta(d: string, ghost r: Reading)
      requires Tracks(r) && started
      modifies this`partial, this`activeIndex, this`activeKind, this`pushed, out`accepted
      ensures Tracks(ReadText(r, d))
      ensures out.closed ==> out.accepted == old(out.accepted)
      ensures old(Live()) ==> Live()
    {
      hide Shown, Contents, Opening, ReadText;
      if activeKind == "text" {
        GrowText(d, r);
      } else {
        StartBlock(true, r);
        OpenThenGrow(r, d);
        GrowText(d, Opened(r, true));
      }
    }

    method GrowThinking(d: string, ghost r: Reading)
      requires Tracks(r) && r.Grows(false)
      modifies this`partial, this`pushed, out`accepted
      ensures Tracks(ReadThinking(r, d))
      ensures out.closed ==> out.accepted == old(out.accepted)
      ensures old(Live()) ==> Live()
    {
      hide Shown, Contents, Opening, Joined;
      OneMoreDelta(activeIndex, r.Last().deltas, d);
      var tc := partial[activeIndex];
      Grow(tc.(thinking := tc.thinking + d), ThinkingPiece(activeIndex, d), r,
           ThinkingBlock(r.Last().deltas + [d], ""));
    }

    method OnThinkingDelta(d: string, ghost r: Reading)
      requires Tracks(r) && started
      modifies this`partial, this`activeIndex, this`activeKind, this`pushed, out`accepted
      ensures Tracks(ReadThinking(r, d))
      ensures out.closed ==> out.accepted == old(out.accepted)
      ensures old(Live()) ==> Live()
    {
      hide Shown, Contents, Opening, ReadThinking;
      if activeKind == "thinking" {
        GrowThinking(d, r);
      } else {
        StartBlock(false, r);
        OpenThenGrow(r, d);
        GrowThinking(d, Opened(r, false));
      }
    }

    method OnToolCall(id: string, name: string, arguments: string, ghost r: Reading)
      requires Tracks(r) && started
      modifies this`partial, this`activeIndex, this`activeKind, this`pushed, out`accepted
      ensures Tracks(Reading(true, r.blocks + [CallBlock(id, name, arguments)], false))
      ensures out.closed ==> out.accepted == old(out.accepted)
      ensures old(Live()) ==> Live()
    {
      hide Shown, Contents;
      CloseActive(r);
      AddCall(r.(open := false), id, name, arguments, origin);
      var index := |partial|;
      partial := partial + [ToolCall(Call(id, name, arguments, ""))];
      Emit(CallStart(index, id, name));
      Emit(CallEnd(index, id, arguments));
    }

    method OnBlockStop(textSignature: string, thinkingSignature: string, ghost r: Reading)
      requires Tracks(r) && started
      modifies this`activeIndex, this`activeKind, this`pushed, out`accepted
      ensures Tracks(ReadStop(r, textSignature, thinkingSignature))
      ensures out.closed ==> out.accepted == old(out.accepted)
      ensures old(Live()) ==> Live()
    {
      hide Shown, Contents, ReadStop;
      StopShown(r, textSignature, thinkingSignature, origin);
      EndActiveBlock(textSignature, thinkingSignature);
      activeIndex, activeKind := -1, "";
    }

    method EnsureStarted(ghost r: Reading)
      requires Tracks(r)
      modifies this`started, this`pushed, out`accepted
      ensures Tracks(r.(started := true))
      ensures out.closed ==> out.accepted == old(out.accepted)
      ensures old(Live()) ==> Live()
    {
      if !started {
        started := true;
        Emit(Start(origin.api, origin.provider, origin.model));
      }
    }

    method Fail(message: string, ghost r: Reading)
      requires Tracks(r) && Live()
      modifies this`terminal, out
      ensures terminal && HasDelivered((Shown(r, origin) + [Failed(message)], Broken(message)))
    {
      var _ := out.Push(Failed(message));
      out.Error(message);
      terminal := true;
    }

    method OnResponseEnd(message: Assistant, finishReason: string, ghost r: Reading)
      requires Tracks(r) && started
      requires terminal ==> out.closed
      requires !terminal ==> Live()
      modifies this`activeIndex, this`activeKind, this`terminal, this`pushed, out
      ensures Tracks(r.(open := false)) && terminal
      ensures old(terminal) ==> Frozen()
      ensures !old(terminal) ==> HasDelivered(DeliveredAt(r, ResponseEnd(message, finishReason), origin))
    {
      CloseActive(r);
      var final := message.(api := origin.api, provider := origin.provider, model := origin.model);
      if |partial| > 0 {
        final := final.(content := partial);
      }
      final := final.(stopReason := NormalizeStopReason(finishReason, HasToolCalls(final.content)));
      var _ := out.Push(Done(final.stopReason, final));
      out.End(final);
      terminal := true;
    }

    /** A closed stream delivers what it had delivered. */
    twostate predicate Frozen()
      reads this, out
    {
      out.closed && out.accepted == old(out.accepted) && out.result == old(out.result) && out.err == old(out.err)
    }

    /** A provider event that carries content or closes it. */
    method OnContent(e: ProviderEvent, ghost r: Reading)
      requires Tracks(r) && started && !Terminal(e) && !e.Retry?
      modifies this`partial, this`activeIndex, this`activeKind, this`pushed, out`accepted
      ensures Tracks(ReadEvent(r, e))
      ensures out.closed ==> out.accepted == old(out.accepted)
      ensures old(Live()) ==> Live()
    {
      assert r.(started := true) == r;
      match e
      case BlockStop(textSignature, thinkingSignature) =>
        OnBlockStop(textSignature, thinkingSignature, r);
      case TextDelta(d) =>
        OnTextDelta(d, r);
      case ThinkingDelta(d) =>
        OnThinkingDelta(d, r);
      case WholeCall(id, name, arguments) =>
        OnToolCall(id, name, arguments, r);
      case _ =>
    }

    /** One provider event. */
    method Step(e: ProviderEvent, ghost r: Reading)
      requires Tracks(r)
      requires terminal ==> out.closed
      requires !terminal ==> Live()
      modifies this`partial, this`activeIndex, this`activeKind, this`started, this`terminal, this`pushed, out
      ensures Tracks(ReadEvent(r, e))
      ensures terminal <==> old(terminal) || Terminal(e)
      ensures old(terminal) ==> Frozen()
      ensures !terminal ==> Live()
      ensures !old(terminal) && Terminal(e) ==> HasDelivered(DeliveredAt(r, e, origin))
    {
      hide Shown, Contents, DeliveredAt, ReadText, ReadThinking, ReadStop;
      if e.Retry? {
        return;
      }
      EnsureStarted(r);
      StartedOrNot(r, e, origin);
      ghost var r1 := r.(started := true);
      if e.ResponseEnd? {
        OnResponseEnd(e.message, e.finishReason, r1);
      } else if e.ProviderError? {
        DeliveredError(r1, e.message', origin);
        if !terminal {
          Fail(e.message', r1);
        }
      } else {
        OnContent(e, r1);
      }
    }

    /** The loop over the provider's events, and what happens when they stop. */
    method Run(events: seq<ProviderEvent>, ending: Ending)
      requires Tracks(Reading(false, [], false)) && Live() && !terminal
      modifies this`partial, this`activeIndex, this`activeKind, this`started, this`terminal, this`pushed, out
      ensures HasDelivered(Delivered(events, ending, origin))
    {
      hide Shown, ReadEvent, DeliveredAt, Contents;
      ghost var n := TerminalAt(events);
      ghost var r := Reading(false, [], false);
      for i := 0 to |events|
        invariant r == Read(events[..i]) && Tracks(r)
        invariant terminal <==> n < i
        invariant !terminal ==> Live()
        invariant terminal ==> HasDelivered(DeliveredAt(Read(events[..n]), events[n], origin))
      {
        ReadStep(events, i);
        Step(events[i], r);
        r := ReadEvent(r, events[i]);
      }
      assert events[..|events|] == events;
      if ending.EndedWith? && !terminal {
        Fail(ending.err, r);
      }
      if !terminal {
        Fail(NO_TERMINAL, r);
      }
    }
  }

  /** The whole bridge: what it delivers is what the reference reads from the provider's events.
      Every access to the active block as text or as thinking is safe, as the checks of its class show. */
  method CanonicalizeProviderStream(events: seq<ProviderEvent>, ending: Ending, origin: Origin)
    returns (out: EventStream)
    ensures fresh(out) && out.closed
    ensures var (accepted, outcome) := Delivered(events, ending, origin);
            && out.accepted == accepted
            && match outcome
               case Completed(message) => out.result == Some(message) && out.err == None
               case Broken(err) => out.err == Some(err) && out.result == None
  {
    var bridge := new Canonicalizer(origin);
    bridge.Run(events, ending);
    out := bridge.out;
  }
}
