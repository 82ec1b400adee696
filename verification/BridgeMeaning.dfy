/** What the bridge delivers, said of the provider's events alone (crux-ai/core/provider_events.go). */
module BridgeMeaning {
  import opened Messages
  import opened Bridge
  import opened BridgeGrammar
  import opened AssemblyTheorems

  // ---------------------------------------------------------------- what each provider event adds

  /** The kind of block a provider prefix leaves open. */
  datatype Kind = NoBlock | TextOpen | ThinkingOpen

  function OpenKind(pre: seq<ProviderEvent>): Kind {
    if pre == [] then NoBlock
    else
      match pre[|pre| - 1]
      case TextDelta(_) => TextOpen
      case ThinkingDelta(_) => ThinkingOpen
      case Retry | ResponseStart | ProviderError(_) => OpenKind(pre[..|pre| - 1])
      case _ => NoBlock
  }

  predicate Begun(pre: seq<ProviderEvent>) {
    exists e | e in pre :: !e.Retry?
  }

  /** The end of the open block, if one is open, with the signature for its kind. */
  predicate Ends(kind: Kind, textSignature: string, thinkingSignature: string, part: seq<Event>) {
    match kind
    case NoBlock => part == []
    case TextOpen => |part| == 1 && part[0].TextEnd? && part[0].signature == textSignature
    case ThinkingOpen => |part| == 1 && part[0].ThinkingEnd? && part[0].signature == thinkingSignature
  }

  /** The delivered events `part` tell the provider event `e`, which finds a block of the kind open. Text goes on
      in an open text block and thinking in an open thinking block; whatever else comes ends the block. */
  predicate Tells(kind: Kind, e: ProviderEvent, part: seq<Event>) {
    var n := |part|;
    match e
    case Retry | ResponseStart | ProviderError(_) => part == []
    case TextDelta(d) =>
      && n > 0 && part[n - 1].TextPiece? && part[n - 1].delta == d
      && if kind == TextOpen then n == 1 else n > 1 && part[n - 2].TextStart? && Ends(kind, "", "", part[..n - 2])
    case ThinkingDelta(d) =>
      && n > 0 && part[n - 1].ThinkingPiece? && part[n - 1].delta == d
      && if kind == ThinkingOpen then n == 1
         else n > 1 && part[n - 2].ThinkingStart? && Ends(kind, "", "", part[..n - 2])
    case WholeCall(id, name, arguments) =>
      && n > 1 && part[n - 2].CallStart? && part[n - 2].id == id && part[n - 2].name == name
      && part[n - 1].CallEnd? && part[n - 1].id == id && part[n - 1].arguments == arguments
      && Ends(kind, "", "", part[..n - 2])
    case BlockStop(textSignature, thinkingSignature) => Ends(kind, textSignature, thinkingSignature, part)
    case ResponseEnd(_, _) => Ends(kind, "", "", part)
  }

  /** As `Tells`, for the event that follows the prefix `pre`: the first one is announced by the start. */
  predicate Adds(pre: seq<ProviderEvent>, e: ProviderEvent, origin: Origin, part: seq<Event>) {
    if e.Retry? then part == []
    else if Begun(pre) then Tells(OpenKind(pre), e, part)
    else part != [] && part[0] == Start(origin.api, origin.provider, origin.model) && Tells(NoBlock, e, part[1..])
  }

  /** `told` consists of what each event of the prefix adds, in order. */
  ghost predicate Told(pre: seq<ProviderEvent>, told: seq<Event>, origin: Origin) {
    if pre == [] then told == []
    else
      exists m | 0 <= m <= |told| ::
        && Told(pre[..|pre| - 1], told[..m], origin)
        && Adds(pre[..|pre| - 1], pre[|pre| - 1], origin, told[m..])
  }

  function KindOf(r: Reading): Kind
    requires WellOpen(r)
  {
    if !r.open then NoBlock else if r.Last().TextBlock? then TextOpen else ThinkingOpen
  }

  lemma BegunNext(pre: seq<ProviderEvent>, e: ProviderEvent)
    ensures Begun(pre + [e]) <==> Begun(pre) || !e.Retry?
    ensures !Begun([])
  {
    if Begun(pre) {
      var x :| x in pre && !x.Retry?;
      assert x in pre + [e];
    }
    assert e in pre + [e];
  }

  /** The reading knows whether something has begun and what is open. */
  ghost predicate Knows(r: Reading, pre: seq<ProviderEvent>) {
    WellOpen(r) && r.started == Begun(pre) && KindOf(r) == OpenKind(pre)
  }

  lemma {:induction false} ReadKnows(pre: seq<ProviderEvent>)
    requires forall e | e in pre :: !Terminal(e)
    ensures Knows(Read(pre), pre)
  {
    if pre == [] {
      BegunNext([], Retry);
    } else {
      hide Knows, Begun, OpenKind, WellOpen, ReadEvent;
      var front, e := pre[..|pre| - 1], pre[|pre| - 1];
      assert forall x | x in front :: x in pre;
      assert pre == front + [e];
      ReadKnows(front);
      KnowsNext(Read(front), front, e);
    }
  }

  lemma KnowsNext(r: Reading, pre: seq<ProviderEvent>, e: ProviderEvent)
    requires Knows(r, pre) && !Terminal(e)
    ensures Knows(ReadEvent(r, e), pre + [e])
  {
    BegunNext(pre, e);
    hide Begun;
    assert (pre + [e])[..|pre|] == pre;
  }

  lemma CloseAdds(r: Reading, origin: Origin) returns (part: seq<Event>)
    requires WellOpen(r)
    ensures ShownClosed(r, origin) == Shown(r, origin) + part && Ends(KindOf(r), "", "", part)
  {
    part := [];
    if r.open {
      CloseOpen(r);
      part := Closing(|r.blocks| - 1, r.Last());
    }
  }

  lemma TextAdds(r: Reading, d: string, origin: Origin) returns (part: seq<Event>)
    requires WellOpen(r) && r.started
    ensures Shown(ReadText(r, d), origin) == Shown(r, origin) + part && Tells(KindOf(r), TextDelta(d), part)
  {
    hide Shown, Opening, ShownClosed, Contents, Joined, Rendered;
    if r.Grows(true) {
      OneMoreDelta(|r.blocks| - 1, r.Last().deltas, d);
      part := [TextPiece(|r.blocks| - 1, d)];
      GrowShown(r, TextBlock(r.Last().deltas + [d], ""), part[0], origin);
    } else {
      var ends := CloseAdds(r, origin);
      var empty := Opened(r, true);
      OpenBlock(r, true, origin);
      OpenThenGrow(r, d);
      OneMoreDelta(|r.blocks|, [], d);
      GrowShown(empty, TextBlock([] + [d], ""), TextPiece(|r.blocks|, d), origin);
      part := ends + [TextStart(|r.blocks|), TextPiece(|r.blocks|, d)];
      assert part[..|part| - 2] == ends;
    }
  }

  lemma ThinkingAdds(r: Reading, d: string, origin: Origin) returns (part: seq<Event>)
    requires WellOpen(r) && r.started
    ensures Shown(ReadThinking(r, d), origin) == Shown(r, origin) + part
    ensures Tells(KindOf(r), ThinkingDelta(d), part)
  {
    hide Shown, Opening, ShownClosed, Contents, Joined, Rendered;
    if r.Grows(false) {
      OneMoreDelta(|r.blocks| - 1, r.Last().deltas, d);
      part := [ThinkingPiece(|r.blocks| - 1, d)];
      GrowShown(r, ThinkingBlock(r.Last().deltas + [d], ""), part[0], origin);
    } else {
      var ends := CloseAdds(r, origin);
      var empty := Opened(r, false);
      OpenBlock(r, false, origin);
      OpenThenGrow(r, d);
      OneMoreDelta(|r.blocks|, [], d);
      GrowShown(empty, ThinkingBlock([] + [d], ""), ThinkingPiece(|r.blocks|, d), origin);
      part := ends + [ThinkingStart(|r.blocks|), ThinkingPiece(|r.blocks|, d)];
      assert part[..|part| - 2] == ends;
    }
  }

  lemma CallAdds(r: Reading, id: string, name: string, arguments: string, origin: Origin) returns (part: seq<Event>)
    requires WellOpen(r) && r.started
    ensures Shown(ReadEvent(r, WholeCall(id, name, arguments)), origin) == Shown(r, origin) + part
    ensures Tells(KindOf(r), WholeCall(id, name, arguments), part)
  {
    hide Shown, ShownClosed, Contents;
    var ends := CloseAdds(r, origin);
    OpenBlock(r, true, origin);
    AddCall(r.(open := false), id, name, arguments, origin);
    part := ends + [CallStart(|r.blocks|, id, name), CallEnd(|r.blocks|, id, arguments)];
    assert part[..|part| - 2] == ends;
  }

  lemma StopAdds(r: Reading, textSignature: string, thinkingSignature: string, origin: Origin)
    returns (part: seq<Event>)
    requires WellOpen(r) && r.started
    ensures Shown(ReadStop(r, textSignature, thinkingSignature), origin) == Shown(r, origin) + part
    ensures Tells(KindOf(r), BlockStop(textSignature, thinkingSignature), part)
  {
    hide Shown, ReadStop, Contents;
    StopShown(r, textSignature, thinkingSignature, origin);
    part := [];
    if r.open {
      var i, text := |r.blocks| - 1, Joined(r.Last().deltas);
      part := [if r.Last().TextBlock? then TextEnd(i, text, textSignature)
          else ThinkingEnd(i, text, thinkingSignature)];
    }
  }

  /** What a further event adds once the stream has begun. */
  lemma StartedAdds(r: Reading, e: ProviderEvent, origin: Origin) returns (part: seq<Event>)
    requires WellOpen(r) && r.started && !Terminal(e)
    ensures Shown(ReadEvent(r, e), origin) == Shown(r, origin) + part && Tells(KindOf(r), e, part)
  {
    hide Shown, ReadText, ReadThinking, ReadStop, Tells;
    assert r.(started := true) == r;
    var kind := KindOf(r);
    match e
    case TextDelta(d) => part := TextAdds(r, d, origin);
    case ThinkingDelta(d) => part := ThinkingAdds(r, d, origin);
    case WholeCall(id, name, arguments) => part := CallAdds(r, id, name, arguments, origin);
    case BlockStop(textSignature, thinkingSignature) => part := StopAdds(r, textSignature, thinkingSignature, origin);
    case _ =>
      part := [];
      TellsNothing(kind, e);
  }

  lemma TellsNothing(kind: Kind, e: ProviderEvent)
    requires e.Retry? || e.ResponseStart? || e.ProviderError?
    ensures Tells(kind, e, [])
  {
  }

  /** Before the start nothing is shown. */
  lemma StartAdds(r: Reading, origin: Origin)
    requires WellOpen(r) && !r.started
    ensures Shown(r, origin) == [] && KindOf(r) == NoBlock && WellOpen(r.(started := true))
    ensures Shown(r.(started := true), origin) == [Start(origin.api, origin.provider, origin.model)]
    ensures KindOf(r.(started := true)) == NoBlock
  {
  }

  lemma EventAdds(r: Reading, pre: seq<ProviderEvent>, e: ProviderEvent, origin: Origin) returns (part: seq<Event>)
    requires Knows(r, pre) && !Terminal(e)
    ensures Shown(ReadEvent(r, e), origin) == Shown(r, origin) + part && Adds(pre, e, origin, part)
  {
    hide Shown, Tells, Begun;
    if e.Retry? {
      part := [];
    } else if r.started {
      part := StartedAdds(r, e, origin);
    } else {
      StartAdds(r, origin);
      part := StartedAdds(r.(started := true), e, origin);
      StartedOrNot(r, e, origin);
      part := [Start(origin.api, origin.provider, origin.model)] + part;
    }
  }

  lemma {:induction false} ShownIsTold(pre: seq<ProviderEvent>, origin: Origin)
    requires forall e | e in pre :: !Terminal(e)
    ensures Told(pre, Shown(Read(pre), origin), origin)
  {
    if pre != [] {
      hide Shown, Adds, ReadEvent, Knows;
      var front, e := pre[..|pre| - 1], pre[|pre| - 1];
      assert forall x | x in front :: x in pre;
      ShownIsTold(front, origin);
      ReadKnows(front);
      var part := EventAdds(Read(front), front, e, origin);
      var told, m := Shown(Read(pre), origin), |Shown(Read(front), origin)|;
      assert told[..m] == Shown(Read(front), origin) && told[m..] == part;
    }
  }

  // ---------------------------------------------------------------- the whole delivery

  /** The delivery is told by the provider events before the first terminal one, and by that one, or else by the
      way in which the stream ended. Its first `m` events are told before the end. */
  lemma DeliveryIsTold(events: seq<ProviderEvent>, ending: Ending, origin: Origin) returns (m: nat)
    ensures var n, (accepted, outcome) := TerminalAt(events), Delivered(events, ending, origin);
            && m < |accepted| && Told(events[..n], accepted[..m], origin)
            && if n == |events| then
                 && m == |accepted| - 1
                 && outcome == Broken(if ending.EndedWith? then ending.err else NO_TERMINAL)
               else
                 && Adds(events[..n], events[n], origin, accepted[m..|accepted| - 1])
                 && if events[n].ProviderError? then outcome == Broken(events[n].message') else outcome.Completed?
  {
    hide Shown, Told, Adds, Read, OpenKind, Rendered, Bracketed;
    var n := TerminalAt(events);
    var pre, r, accepted := events[..n], Read(events[..n]), Delivered(events, ending, origin).0;
    ReadKnows(pre);
    ShownIsTold(pre, origin);
    m := |Shown(r, origin)|;
    if n < |events| {
      var part := TerminalAdds(r, pre, events[n], origin);
      assert accepted[..|accepted| - 1] == Shown(r, origin) + part;
      assert accepted[..m] == Shown(r, origin) && accepted[m..|accepted| - 1] == part;
    } else {
      assert accepted[..m] == Shown(r, origin);
    }
  }

  lemma TerminalAdds(r: Reading, pre: seq<ProviderEvent>, e: ProviderEvent, origin: Origin) returns (part: seq<Event>)
    requires Knows(r, pre) && Terminal(e)
    ensures Adds(pre, e, origin, part)
    ensures var accepted := DeliveredAt(r, e, origin).0;
            accepted != [] && accepted[..|accepted| - 1] == Shown(r, origin) + part
  {
    hide Rendered, Bracketed, Begun, Contents;
    part := if r.started then [] else [Start(origin.api, origin.provider, origin.model)];
    if r.started && e.ResponseEnd? {
      part := CloseAdds(r, origin);
    } else if !r.started {
      StartAdds(r, origin);
      NoBracketed();
    }
  }

  lemma NoBracketed()
    ensures Bracketed([]) == [] && Rendered([], false) == []
  {
  }

  // ---------------------------------------------------------------- what was said

  /** The deltas and calls a consumer is handed, in order, without their block numbers. */
  function Heard(events: seq<Event>): seq<Event> {
    if events == [] then [] else Heard(events[..|events| - 1]) + HeardOne(events[|events| - 1])
  }

  function HeardOne(e: Event): seq<Event> {
    match e
    case TextPiece(_, d) => [TextPiece(0, d)]
    case ThinkingPiece(_, d) => [ThinkingPiece(0, d)]
    case CallStart(_, id, name) => [CallStart(0, id, name)]
    case CallEnd(_, id, arguments) => [CallEnd(0, id, arguments)]
    case _ => []
  }

  /** The deltas and calls a provider sent, in order. */
  function Said(pre: seq<ProviderEvent>): seq<Event> {
    if pre == [] then [] else Said(pre[..|pre| - 1]) + SaidOne(pre[|pre| - 1])
  }

  function SaidOne(e: ProviderEvent): seq<Event> {
    match e
    case TextDelta(d) => [TextPiece(0, d)]
    case ThinkingDelta(d) => [ThinkingPiece(0, d)]
    case WholeCall(id, name, arguments) => [CallStart(0, id, name), CallEnd(0, id, arguments)]
    case _ => []
  }

  lemma {:induction false} HeardConcat(a: seq<Event>, b: seq<Event>)
    ensures Heard(a + b) == Heard(a) + Heard(b)
  {
    hide HeardOne;
    if b == [] {
      assert a + b == a;
    } else {
      assert (a + b)[..|a + b| - 1] == a + b[..|b| - 1];
      HeardConcat(a, b[..|b| - 1]);
    }
  }

  lemma HeardSingle(e: Event)
    ensures Heard([e]) == HeardOne(e)
  {
    assert [e][..0] == [];
  }

  lemma EndsHeard(kind: Kind, textSignature: string, thinkingSignature: string, part: seq<Event>)
    requires Ends(kind, textSignature, thinkingSignature, part)
    ensures Heard(part) == []
  {
    if part != [] {
      assert part == [part[0]];
      HeardSingle(part[0]);
    }
  }

  lemma HeardLastTwo(part: seq<Event>)
    requires |part| > 1
    ensures Heard(part) == Heard(part[..|part| - 2]) + HeardOne(part[|part| - 2]) + HeardOne(part[|part| - 1])
  {
    assert part[..|part| - 1][..|part| - 2] == part[..|part| - 2];
  }

  lemma TellsHeard(kind: Kind, e: ProviderEvent, part: seq<Event>)
    requires Tells(kind, e, part)
    ensures Heard(part) == SaidOne(e)
  {
    hide Heard, Ends;
    match e
    case BlockStop(textSignature, thinkingSignature) => EndsHeard(kind, textSignature, thinkingSignature, part);
    case ResponseEnd(_, _) => EndsHeard(kind, "", "", part);
    case TextDelta(_) => PieceHeard(kind, e, part);
    case ThinkingDelta(_) => PieceHeard(kind, e, part);
    case WholeCall(_, _, _) => PieceHeard(kind, e, part);
    case _ => NothingHeard();
  }

  lemma NothingHeard()
    ensures Heard([]) == []
  {
  }

  lemma PieceHeard(kind: Kind, e: ProviderEvent, part: seq<Event>)
    requires Tells(kind, e, part) && (e.TextDelta? || e.ThinkingDelta? || e.WholeCall?)
    ensures Heard(part) == SaidOne(e)
  {
    hide Heard, Ends;
    var n := |part|;
    if n == 1 {
      assert part == [part[0]];
      HeardSingle(part[0]);
    } else {
      EndsHeard(kind, "", "", part[..n - 2]);
      HeardLastTwo(part);
    }
  }

  lemma AddsHeard(pre: seq<ProviderEvent>, e: ProviderEvent, origin: Origin, part: seq<Event>)
    requires Adds(pre, e, origin, part)
    ensures Heard(part) == SaidOne(e)
  {
    hide Heard, Tells, Begun;
    if e.Retry? {
      NothingHeard();
    } else if Begun(pre) {
      TellsHeard(OpenKind(pre), e, part);
    } else {
      TellsHeard(NoBlock, e, part[1..]);
      HeardSingle(part[0]);
      HeardConcat([part[0]], part[1..]);
      assert [part[0]] + part[1..] == part;
    }
  }

  lemma {:induction false} ToldIsHeard(pre: seq<ProviderEvent>, told: seq<Event>, origin: Origin)
    requires Told(pre, told, origin)
    ensures Heard(told) == Said(pre)
  {
    if pre != [] {
      hide Heard, Adds;
      var front, e := pre[..|pre| - 1], pre[|pre| - 1];
      var m :| 0 <= m <= |told| && Told(front, told[..m], origin) && Adds(front, e, origin, told[m..]);
      ToldIsHeard(front, told[..m], origin);
      AddsHeard(front, e, origin, told[m..]);
      HeardParts(told, m);
    }
  }

  /** Whatever happens, a consumer is handed exactly the deltas and calls that the provider sent before its first
      terminal event, each as what it is and in order. */
  lemma HeardAsSaid(events: seq<ProviderEvent>, ending: Ending, origin: Origin)
    ensures Heard(Delivered(events, ending, origin).0) == Said(events[..TerminalAt(events)])
  {
    hide Heard, Said, Told, Adds, Delivered;
    var n, accepted := TerminalAt(events), Delivered(events, ending, origin).0;
    var m := DeliveryIsTold(events, ending, origin);
    LastUnheard(events, ending, origin);
    var front := accepted[..|accepted| - 1];
    assert front[..m] == accepted[..m] && front[m..] == accepted[m..|accepted| - 1];
    ToldIsHeard(events[..n], front[..m], origin);
    if n < |events| {
      AddsHeard(events[..n], events[n], origin, front[m..]);
      TerminalSaysNothing(events[n]);
      HeardParts(front, m);
    } else {
      assert front == front[..m];
    }
  }

  lemma TerminalSaysNothing(e: ProviderEvent)
    requires Terminal(e)
    ensures SaidOne(e) == []
  {
  }

  lemma HeardParts(front: seq<Event>, m: nat)
    requires m <= |front|
    ensures Heard(front) == Heard(front[..m]) + Heard(front[m..])
  {
    hide Heard;
    assert front[..m] + front[m..] == front;
    HeardConcat(front[..m], front[m..]);
  }

  /** The last event of a delivery says nothing but how it ended. */
  lemma LastUnheard(events: seq<ProviderEvent>, ending: Ending, origin: Origin)
    ensures var accepted := Delivered(events, ending, origin).0;
            accepted != [] && Heard(accepted) == Heard(accepted[..|accepted| - 1])
  {
    hide Delivered, ScanAll;
    DeliversTheProtocol(events, ending, origin);
  }

  // ---------------------------------------------------------------- the completed message

  function TextSaid(pre: seq<ProviderEvent>): string {
    if pre == [] then ""
    else
      var e := pre[|pre| - 1];
      TextSaid(pre[..|pre| - 1]) + if e.TextDelta? then e.delta else ""
  }

  function ThinkingSaid(pre: seq<ProviderEvent>): string {
    if pre == [] then ""
    else
      var e := pre[|pre| - 1];
      ThinkingSaid(pre[..|pre| - 1]) + if e.ThinkingDelta? then e.delta else ""
  }

  function CallsSaid(pre: seq<ProviderEvent>): seq<Call> {
    if pre == [] then []
    else
      var e := pre[|pre| - 1];
      CallsSaid(pre[..|pre| - 1]) + if e.WholeCall? then [Call(e.id, e.name, e.arguments, "")] else []
  }

  predicate Streams(pre: seq<ProviderEvent>) {
    exists e | e in pre :: e.TextDelta? || e.ThinkingDelta? || e.WholeCall?
  }

  /** The content holds the text, the thinking and the calls the provider sent. */
  ghost predicate Holds(content: seq<ContentBlock>, pre: seq<ProviderEvent>) {
    && Texts(content) == TextSaid(pre) && Thoughts(content) == ThinkingSaid(pre) && Calls(content) == CallsSaid(pre)
    && (content != [] <==> Streams(pre))
  }

  lemma HoldsNext(content: seq<ContentBlock>, content': seq<ContentBlock>, pre: seq<ProviderEvent>, e: ProviderEvent)
    requires Holds(content, pre)
    requires Texts(content') == Texts(content) + if e.TextDelta? then e.delta else ""
    requires Thoughts(content') == Thoughts(content) + if e.ThinkingDelta? then e.delta else ""
    requires Calls(content') == Calls(content)
                                + if e.WholeCall? then [Call(e.id, e.name, e.arguments, "")] else []
    requires content' != [] <==> content != [] || e.TextDelta? || e.ThinkingDelta? || e.WholeCall?
    ensures Holds(content', pre + [e])
  {
    hide Texts, Thoughts, Calls, Streams;
    assert (pre + [e])[..|pre|] == pre;
    StreamsNext(pre, e);
  }

  lemma StreamsNext(pre: seq<ProviderEvent>, e: ProviderEvent)
    ensures Streams(pre + [e]) <==> Streams(pre) || e.TextDelta? || e.ThinkingDelta? || e.WholeCall?
  {
    assert e in pre + [e];
    assert forall x | x in pre :: x in pre + [e];
    assert forall x | x in pre + [e] :: x in pre || x == e;
  }

  lemma GrownContent(r: Reading, b: Block)
    requires r.blocks != []
    ensures var front := Contents(r.blocks[..|r.blocks| - 1]);
            Contents(r.WithLast(b).blocks) == front + [ContentOf(b)]
              && Contents(r.blocks) == front + [ContentOf(r.Last())]
  {
    AddContent(r.blocks[..|r.blocks| - 1], b);
  }

  lemma TextNext(r: Reading, d: string)
    ensures var old', new' := Contents(r.blocks), Contents(ReadText(r, d).blocks);
            && Texts(new') == Texts(old') + d && Thoughts(new') == Thoughts(old') + ""
            && Calls(new') == Calls(old') + [] && new' != []
  {
    hide Texts, Thoughts, Calls, Contents, Joined;
    if r.Grows(true) {
      var b := TextBlock(r.Last().deltas + [d], "");
      GrownContent(r, b);
      ContentGrows(Contents(r.blocks[..|r.blocks| - 1]), r.Last(), b, d);
    } else {
      AddContent(r.blocks, TextBlock([d], ""));
      ContentAdds(Contents(r.blocks), TextBlock([d], ""), d);
    }
  }

  lemma ThinkingNext(r: Reading, d: string)
    ensures var old', new' := Contents(r.blocks), Contents(ReadThinking(r, d).blocks);
            && Texts(new') == Texts(old') + "" && Thoughts(new') == Thoughts(old') + d
            && Calls(new') == Calls(old') + [] && new' != []
  {
    hide Texts, Thoughts, Calls, Contents, Joined;
    if r.Grows(false) {
      var b := ThinkingBlock(r.Last().deltas + [d], "");
      GrownContent(r, b);
      ContentGrows(Contents(r.blocks[..|r.blocks| - 1]), r.Last(), b, d);
    } else {
      AddContent(r.blocks, ThinkingBlock([d], ""));
      ContentAdds(Contents(r.blocks), ThinkingBlock([d], ""), d);
    }
  }

  /** What one more event does to the views of the content. */
  lemma ContentNext(r: Reading, pre: seq<ProviderEvent>, e: ProviderEvent)
    requires WellOpen(r) && Holds(Contents(r.blocks), pre) && !Terminal(e)
    ensures Holds(Contents(ReadEvent(r, e).blocks), pre + [e])
  {
    hide Texts, Thoughts, Calls, Contents, Holds, ReadText, ReadThinking, ReadStop;
    var s := r.(started := true);
    match e {
    case TextDelta(d) =>
      TextNext(s, d);
    case ThinkingDelta(d) =>
      ThinkingNext(s, d);
    case WholeCall(id, name, arguments) =>
      AddContent(r.blocks, CallBlock(id, name, arguments));
      AppendBlock(Contents(r.blocks), ToolCall(Call(id, name, arguments, "")));
    case BlockStop(textSignature, thinkingSignature) =>
      StopContent(s, textSignature, thinkingSignature);
      NothingMore(Contents(r.blocks));
    case _ =>
      NothingMore(Contents(r.blocks));
    }
    HoldsNext(Contents(r.blocks), Contents(ReadEvent(r, e).blocks), pre, e);
  }

  lemma StopContent(r: Reading, textSignature: string, thinkingSignature: string)
    requires WellOpen(r) && r.started
    ensures Contents(ReadStop(r, textSignature, thinkingSignature).blocks) == Contents(r.blocks)
  {
    hide Contents, ReadStop;
    StopShown(r, textSignature, thinkingSignature, Origin("", "", ""));
  }

  lemma NothingMore(content: seq<ContentBlock>)
    ensures Texts(content) + "" == Texts(content) && Thoughts(content) + "" == Thoughts(content)
    ensures Calls(content) + [] == Calls(content)
  {
  }

  lemma ContentGrows(front: seq<ContentBlock>, b: Block, b': Block, d: string)
    requires (b.TextBlock? && b'.TextBlock?) || (b.ThinkingBlock? && b'.ThinkingBlock?)
    requires b'.deltas == b.deltas + [d]
    ensures var old', new' := front + [ContentOf(b)], front + [ContentOf(b')];
            && Texts(new') == Texts(old') + (if b.TextBlock? then d else "")
            && Thoughts(new') == Thoughts(old') + (if b.TextBlock? then "" else d)
            && Calls(new') == Calls(old') + []
  {
    hide Texts, Thoughts, Calls, Joined;
    OneMoreDelta(0, b.deltas, d);
    AppendBlock(front, ContentOf(b));
    AppendBlock(front, ContentOf(b'));
  }

  lemma ContentAdds(content: seq<ContentBlock>, b: Block, d: string)
    requires !b.CallBlock? && b.deltas == [d]
    ensures var new' := content + [ContentOf(b)];
            && Texts(new') == Texts(content) + (if b.TextBlock? then d else "")
            && Thoughts(new') == Thoughts(content) + (if b.TextBlock? then "" else d)
            && Calls(new') == Calls(content) + []
  {
    hide Texts, Thoughts, Calls;
    OneMoreDelta(0, [], d);
    assert [] + [d] == [d];
    AppendBlock(content, ContentOf(b));
  }

  lemma {:induction false} ContentsHold(pre: seq<ProviderEvent>)
    requires forall e | e in pre :: !Terminal(e)
    ensures Holds(Contents(Read(pre).blocks), pre)
  {
    if pre != [] {
      hide Holds, WellOpen, ReadEvent;
      var front, e := pre[..|pre| - 1], pre[|pre| - 1];
      assert forall x | x in front :: x in pre;
      ContentsHold(front);
      ReadWellOpen(front);
      ContentNext(Read(front), front, e);
      assert front + [e] == pre;
    }
  }

  /** A response with calls stops for them, whatever the provider says; otherwise the provider's reason decides. */
  predicate StopsAs(hasCalls: bool, reason: string, stop: StopReason) {
    stop ==
    if hasCalls then StopToolUse
    else
      match reason
      case "tool_calls" | "tool_use" | "toolUse" => StopToolUse
      case "length" | "max_tokens" | "MAX_TOKENS" | "incomplete" => StopLength
      case "error" | "failed" => StopError
      case _ => StopStop
  }

  /** Block `i` of the content is what the events numbered `i` say. */
  predicate Matches(e: Event, content: seq<ContentBlock>) {
    match e
    case TextEnd(i, text, _) => 0 <= i < |content| && content[i] == TextContent(text, "")
    case ThinkingEnd(i, text, _) => 0 <= i < |content| && content[i] == ThinkingContent(text, "", false)
    case CallStart(i, id, name) =>
      0 <= i < |content| && content[i].ToolCall? && content[i].call.id == id && content[i].call.name == name
    case CallEnd(i, id, arguments) =>
      && 0 <= i < |content| && content[i].ToolCall? && content[i].call.id == id
      && content[i].call.arguments == arguments && content[i].call.thoughtSignature == ""
    case _ => true
  }

  ghost predicate AllMatch(events: seq<Event>, content: seq<ContentBlock>) {
    forall e | e in events :: Matches(e, content)
  }

  lemma AllMatchConcat(a: seq<Event>, b: seq<Event>, content: seq<ContentBlock>)
    requires AllMatch(a, content) && AllMatch(b, content)
    ensures AllMatch(a + b, content)
  {
    hide Matches;
  }

  lemma AllMatchMore(events: seq<Event>, content: seq<ContentBlock>, b: ContentBlock)
    requires AllMatch(events, content)
    ensures AllMatch(events, content + [b])
  {
    forall e | e in events
      ensures Matches(e, content + [b])
    {
      assert Matches(e, content);
    }
  }

  lemma {:induction false} PiecesMatch(i: int, deltas: seq<string>, content: seq<ContentBlock>)
    ensures AllMatch(TextPieces(i, deltas), content) && AllMatch(ThinkingPieces(i, deltas), content)
  {
    if deltas != [] {
      PiecesMatch(i, deltas[..|deltas| - 1], content);
    }
  }

  lemma BlockMatches(front: seq<ContentBlock>, b: Block)
    ensures AllMatch(Opening(|front|, b) + Closing(|front|, b), front + [ContentOf(b)])
  {
    if !b.CallBlock? {
      PiecesMatch(|front|, b.deltas, front + [ContentOf(b)]);
    }
    hide TextPieces, ThinkingPieces, Joined;
  }

  lemma {:induction false} BracketedMatches(blocks: seq<Block>)
    ensures AllMatch(Bracketed(blocks), Contents(blocks))
  {
    if blocks != [] {
      hide AllMatch, Opening, Closing;
      var i := |blocks| - 1;
      BracketedMatches(blocks[..i]);
      AllMatchMore(Bracketed(blocks[..i]), Contents(blocks[..i]), ContentOf(blocks[i]));
      BlockMatches(Contents(blocks[..i]), blocks[i]);
      AllMatchConcat(Bracketed(blocks[..i]), Opening(i, blocks[i]) + Closing(i, blocks[i]), Contents(blocks));
      assert Bracketed(blocks) == Bracketed(blocks[..i]) + (Opening(i, blocks[i]) + Closing(i, blocks[i]));
    }
  }

  /** The message of a completed response. If anything was streamed, its content is what was streamed: all the text,
      all the thinking and all the calls, block by block as the consumer was told; otherwise the provider's own
      content stands. The origin is the caller's, the stop reason the one the content or else the provider gives,
      and all else is the provider's. */
  lemma CompletedMessage(events: seq<ProviderEvent>, ending: Ending, origin: Origin)
    requires Delivered(events, ending, origin).1.Completed?
    ensures var n := TerminalAt(events);
            var (accepted, outcome) := Delivered(events, ending, origin);
            var m := outcome.message;
            && n < |events| && events[n].ResponseEnd?
            && m == events[n].message.(content := m.content, stopReason := m.stopReason, api := origin.api,
                                       provider := origin.provider, model := origin.model)
            && (if Streams(events[..n]) then Holds(m.content, events[..n]) && AllMatch(accepted, m.content)
                else m.content == events[n].message.content)
            && StopsAs(Calls(m.content) != [], events[n].finishReason, m.stopReason)
  {
    hide Read, Holds, Streams, AllMatch, StopsAs, Contents, FinalMessage, Bracketed, Calls, Delivered;
    var n := TerminalAt(events);
    var content := Contents(Read(events[..n]).blocks);
    CompletedWith(events, ending, origin);
    FinalFields(content, events[n].message, events[n].finishReason, origin);
    ContentsHold(events[..n]);
    ContentWhenStreamed(content, events[..n]);
  }

  lemma FinalFields(content: seq<ContentBlock>, message: Assistant, finishReason: string, origin: Origin)
    ensures var m := FinalMessage(content, message, finishReason, origin);
            && m == message.(content := m.content, stopReason := m.stopReason, api := origin.api,
                             provider := origin.provider, model := origin.model)
            && m.content == (if content != [] then content else message.content)
            && StopsAs(Calls(m.content) != [], finishReason, m.stopReason)
  {
    HasCalls(if content != [] then content else message.content);
    hide Calls, HasToolCalls;
  }

  lemma CompletedWith(events: seq<ProviderEvent>, ending: Ending, origin: Origin)
    requires Delivered(events, ending, origin).1.Completed?
    ensures var n := TerminalAt(events);
            var (accepted, outcome) := Delivered(events, ending, origin);
            && n < |events| && events[n].ResponseEnd?
            && var content := Contents(Read(events[..n]).blocks);
               outcome.message == FinalMessage(content, events[n].message, events[n].finishReason, origin)
               && AllMatch(accepted, content)
  {
    hide Read, Contents, FinalMessage, Bracketed, AllMatch;
    var n := TerminalAt(events);
    var blocks := Read(events[..n]).blocks;
    var m := Delivered(events, ending, origin).1.message;
    BracketedMatches(blocks);
    EdgesMatch(origin, m, Contents(blocks));
    AllMatchConcat(StartPart(true, origin), Bracketed(blocks), Contents(blocks));
    AllMatchConcat(StartPart(true, origin) + Bracketed(blocks), [Done(m.stopReason, m)], Contents(blocks));
  }

  lemma EdgesMatch(origin: Origin, m: Assistant, content: seq<ContentBlock>)
    ensures AllMatch(StartPart(true, origin), content) && AllMatch([Done(m.stopReason, m)], content)
  {
  }

  lemma ContentWhenStreamed(content: seq<ContentBlock>, pre: seq<ProviderEvent>)
    requires Holds(content, pre)
    ensures content != [] <==> Streams(pre)
  {
  }

  lemma {:induction false} HasCalls(content: seq<ContentBlock>)
    ensures HasToolCalls(content) <==> Calls(content) != []
  {
    if content != [] {
      var front, b := content[..|content| - 1], content[|content| - 1];
      HasCalls(front);
      assert content == front + [b];
      if HasToolCalls(content) && !b.ToolCall? {
        var x :| x in content && x.ToolCall?;
        assert x in front;
      }
      if b.ToolCall? {
        assert b in content;
      }
    }
  }
}
