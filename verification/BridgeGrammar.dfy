/** The protocol a consumer may rely on: a recogniser of event sequences, and the proof that it accepts
    whatever the bridge delivers. */
module BridgeGrammar {
  import opened Messages
  import opened Bridge

  datatype Active = Idle | InText(text: string) | InThinking(text: string) | InCall(id: string)

  /** `Unstarted` accepts an optional start; `Within(next, active)` expects block `next`; `Finished` accepts nothing. */
  datatype Scan = Unstarted | Within(next: nat, active: Active) | Finished(clean: bool) | Rejected

  function ScanEvent(s: Scan, e: Event): Scan {
    if e.Start? then if s.Unstarted? then Within(0, Idle) else Rejected
    else if e.Failed? then
      if s.Unstarted? || (s.Within? && !s.active.InCall?) then Finished(false) else Rejected
    else if !s.Within? then Rejected
    else if e.Done? then if s.active.Idle? then Finished(true) else Rejected
    else if e.index != s.next then Rejected
    else ScanBlockEvent(s.next, s.active, e)
  }

  /** An event of block `n`: the end of a block must repeat what its pieces said. */
  function ScanBlockEvent(n: nat, active: Active, e: Event): Scan {
    match active
    case Idle =>
      if e.TextStart? then Within(n, InText(""))
      else if e.ThinkingStart? then Within(n, InThinking(""))
      else if e.CallStart? then Within(n, InCall(e.id))
      else Rejected
    case InText(text) =>
      if e.TextPiece? then Within(n, InText(text + e.delta))
      else if e.TextEnd? && e.text == text then Within(n + 1, Idle)
      else Rejected
    case InThinking(text) =>
      if e.ThinkingPiece? then Within(n, InThinking(text + e.delta))
      else if e.ThinkingEnd? && e.text == text then Within(n + 1, Idle)
      else Rejected
    case InCall(id) =>
      if e.CallEnd? && e.id == id then Within(n + 1, Idle) else Rejected
  }

  function ScanAll(s: Scan, events: seq<Event>): Scan {
    if events == [] then s else ScanEvent(ScanAll(s, events[..|events| - 1]), events[|events| - 1])
  }

  lemma {:induction false} ScanConcat(s: Scan, a: seq<Event>, b: seq<Event>)
    ensures ScanAll(s, a + b) == ScanAll(ScanAll(s, a), b)
  {
    if b == [] {
      assert a + b == a;
    } else {
      assert (a + b)[..|a + b| - 1] == a + b[..|b| - 1];
      ScanConcat(s, a, b[..|b| - 1]);
    }
  }

  lemma ScanOne(s: Scan, e: Event)
    ensures ScanAll(s, [e]) == ScanEvent(s, e)
  {
    assert [e][..0] == [];
  }

  lemma {:induction false} ScanPieces(i: nat, deltas: seq<string>)
    ensures ScanAll(Within(i, InText("")), TextPieces(i, deltas)) == Within(i, InText(Joined(deltas)))
    ensures ScanAll(Within(i, InThinking("")), ThinkingPieces(i, deltas)) == Within(i, InThinking(Joined(deltas)))
  {
    if deltas != [] {
      var front, last := deltas[..|deltas| - 1], deltas[|deltas| - 1];
      ScanPieces(i, front);
      ScanConcat(Within(i, InText("")), TextPieces(i, front), [TextPiece(i, last)]);
      ScanOne(Within(i, InText(Joined(front))), TextPiece(i, last));
      ScanConcat(Within(i, InThinking("")), ThinkingPieces(i, front), [ThinkingPiece(i, last)]);
      ScanOne(Within(i, InThinking(Joined(front))), ThinkingPiece(i, last));
    }
  }

  function ActiveOf(b: Block): Active {
    match b
    case TextBlock(deltas, _) => InText(Joined(deltas))
    case ThinkingBlock(deltas, _) => InThinking(Joined(deltas))
    case CallBlock(_, _, _) => Idle
  }

  lemma ScanOpening(i: nat, b: Block)
    ensures ScanAll(Within(i, Idle), Opening(i, b)) == Within(if b.CallBlock? then i + 1 else i, ActiveOf(b))
  {
    hide ScanAll, TextPieces, ThinkingPieces, Joined;
    match b
    case TextBlock(deltas, _) =>
      ScanConcat(Within(i, Idle), [TextStart(i)], TextPieces(i, deltas));
      ScanOne(Within(i, Idle), TextStart(i));
      ScanPieces(i, deltas);
    case ThinkingBlock(deltas, _) =>
      ScanConcat(Within(i, Idle), [ThinkingStart(i)], ThinkingPieces(i, deltas));
      ScanOne(Within(i, Idle), ThinkingStart(i));
      ScanPieces(i, deltas);
    case CallBlock(id, name, arguments) =>
      assert Opening(i, b) == [CallStart(i, id, name)] + [CallEnd(i, id, arguments)];
      ScanConcat(Within(i, Idle), [CallStart(i, id, name)], [CallEnd(i, id, arguments)]);
      ScanOne(Within(i, Idle), CallStart(i, id, name));
      ScanOne(Within(i, InCall(id)), CallEnd(i, id, arguments));
  }

  lemma ScanClosing(i: nat, b: Block)
    ensures ScanAll(Within(if b.CallBlock? then i + 1 else i, ActiveOf(b)), Closing(i, b)) == Within(i + 1, Idle)
  {
    if !b.CallBlock? {
      ScanOne(Within(i, ActiveOf(b)), Closing(i, b)[0]);
    }
  }

  lemma {:induction false} ScanBracketed(blocks: seq<Block>)
    ensures ScanAll(Within(0, Idle), Bracketed(blocks)) == Within(|blocks|, Idle)
  {
    hide ScanEvent, Opening, Closing, ActiveOf;
    if blocks != [] {
      var i := |blocks| - 1;
      ScanBracketed(blocks[..i]);
      ScanConcat(Within(0, Idle), Bracketed(blocks[..i]) + Opening(i, blocks[i]), Closing(i, blocks[i]));
      ScanConcat(Within(0, Idle), Bracketed(blocks[..i]), Opening(i, blocks[i]));
      ScanOpening(i, blocks[i]);
      ScanClosing(i, blocks[i]);
    }
  }

  lemma ScanRendered(r: Reading)
    requires WellOpen(r) && r.open
    ensures ScanAll(Within(0, Idle), Rendered(r.blocks, true)) == Within(|r.blocks| - 1, ActiveOf(r.Last()))
  {
    hide ScanAll, Opening, ScanEvent;
    var i := |r.blocks| - 1;
    ScanBracketed(r.blocks[..i]);
    ScanConcat(Within(0, Idle), Bracketed(r.blocks[..i]), Opening(i, r.blocks[i]));
    ScanOpening(i, r.blocks[i]);
  }

  lemma {:induction false} ReadWellOpen(events: seq<ProviderEvent>)
    ensures WellOpen(Read(events))
  {
    if events != [] {
      ReadWellOpen(events[..|events| - 1]);
    }
  }

  lemma ScanShown(r: Reading, origin: Origin)
    requires WellOpen(r)
    ensures ScanAll(Unstarted, Shown(r, origin))
         == if !r.started then Unstarted
            else if r.open then Within(|r.blocks| - 1, ActiveOf(r.Last())) else Within(|r.blocks|, Idle)
  {
    if r.started {
      ScanConcat(Unstarted, StartPart(true, origin), Rendered(r.blocks, r.open));
      ScanOne(Unstarted, StartPart(true, origin)[0]);
      if r.open {
        ScanRendered(r);
      } else {
        ScanBracketed(r.blocks);
      }
    }
  }

  lemma ScanLast(events: seq<Event>, last: Event)
    ensures ScanAll(Unstarted, events + [last]) == ScanEvent(ScanAll(Unstarted, events), last)
  {
    assert (events + [last])[..|events|] == events;
  }

  lemma FailureFinishes(r: Reading, err: string, origin: Origin)
    requires WellOpen(r)
    ensures ScanAll(Unstarted, Shown(r, origin) + [Failed(err)]) == Finished(false)
  {
    ScanShown(r, origin);
    ScanLast(Shown(r, origin), Failed(err));
  }

  lemma DoneFinishes(r: Reading, message: Assistant, origin: Origin)
    requires WellOpen(r) && r.started && !r.open
    ensures ScanAll(Unstarted, Shown(r, origin) + [Done(message.stopReason, message)]) == Finished(true)
  {
    ScanShown(r, origin);
    ScanLast(Shown(r, origin), Done(message.stopReason, message));
  }

  lemma TerminalFinishes(r: Reading, e: ProviderEvent, origin: Origin)
    requires WellOpen(r) && Terminal(e)
    ensures var (accepted, outcome) := DeliveredAt(r, e, origin);
            && ScanAll(Unstarted, accepted) == Finished(outcome.Completed?)
            && accepted != []
            && accepted[|accepted| - 1] ==
                 match outcome
                 case Completed(message) => Done(message.stopReason, message)
                 case Broken(err) => Failed(err)
  {
    match e
    case ProviderError(message) =>
      FailureFinishes(r.(started := true), message, origin);
    case ResponseEnd(message, finishReason) =>
      var final := FinalMessage(Contents(r.blocks), message, finishReason, origin);
      DoneFinishes(r.(started := true, open := false), final, origin);
  }

  /** For every provider event sequence the delivered events are an optional start, bracketed blocks numbered
      0, 1, 2, … whose ends repeat their deltas, and exactly one terminal event, the last one; only when that is
      an error may the last block be open. The terminal event and the stream's outcome agree. */
  lemma DeliversTheProtocol(events: seq<ProviderEvent>, ending: Ending, origin: Origin)
    ensures var (accepted, outcome) := Delivered(events, ending, origin);
            && accepted != []
            && match outcome
               case Completed(message) =>
                 && ScanAll(Unstarted, accepted) == Finished(true)
                 && accepted[|accepted| - 1] == Done(message.stopReason, message)
               case Broken(err) =>
                 && ScanAll(Unstarted, accepted) == Finished(false)
                 && accepted[|accepted| - 1] == Failed(err)
  {
    var n := TerminalAt(events);
    ReadWellOpen(events[..n]);
    if n == |events| {
      FailureFinishes(Read(events[..n]), if ending.EndedWith? then ending.err else NO_TERMINAL, origin);
    } else {
      TerminalFinishes(Read(events[..n]), events[n], origin);
    }
  }
}
