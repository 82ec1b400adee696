/** The context compactors of the engine (agent-engine/defaults/compaction.go). */
module Compaction {
  import opened Text
  import opened Messages

  /** A strategy; `summarize` is the summarizer's answer for the dropped messages, absent when it is not configured. */
  datatype Strategy =
    | SlideWindow(maxMessages: nat)
    | LLMSummarize(keepLast: int, minTrigger: int, summarize: Summarizer)

  datatype Summarizer = NoSummarizer | Summarizer(answer: seq<Message> -> Summary)

  datatype Summary = Summarized(text: string) | SummaryFailed(err: string)

  datatype Compacted = Unchanged | Changed(messages: seq<Message>) | CompactError(err: string)

  function Tail(messages: seq<Message>, n: nat): seq<Message>
    requires n <= |messages|
  {
    messages[|messages| - n..]
  }

  function Slid(messages: seq<Message>, maxMessages: nat): Compacted {
    if |messages| <= maxMessages then Unchanged else Changed(Tail(messages, maxMessages))
  }

  function EffectiveKeepLast(keepLast: int): nat {
    if keepLast <= 0 then 10 else keepLast
  }

  function EffectiveMinTrigger(minTrigger: int): nat {
    if minTrigger <= 0 then 30 else minTrigger
  }

  /** How many messages stay in front of the summary: the first one, unless a user sent it. */
  function HeadLength(messages: seq<Message>): nat {
    if messages != [] && !messages[0].UserMessage? then 1 else 0
  }

  function ElidedText(n: nat): string {
    "[summary of " + Digits(n) + " older messages elided]"
  }

  function SummaryOf(summarize: Summarizer, dropped: seq<Message>): Summary {
    match summarize
    case NoSummarizer => Summarized(ElidedText(|dropped|))
    case Summarizer(answer) => answer(dropped)
  }

  function Condensed(messages: seq<Message>, keepLast: int, minTrigger: int, summarize: Summarizer): Compacted {
    var keep := EffectiveKeepLast(keepLast);
    if |messages| < EffectiveMinTrigger(minTrigger) || |messages| <= keep + 1 then Unchanged
    else
      var head := HeadLength(messages);
      match SummaryOf(summarize, messages[head..|messages| - keep])
      case SummaryFailed(err) => CompactError("summarize: " + err)
      case Summarized(text) => Changed(messages[..head] + [UserMessage(Plain(text), 0)] + Tail(messages, keep))
  }

  function Compact(s: Strategy, messages: seq<Message>): Compacted {
    match s
    case SlideWindow(maxMessages) => Slid(messages, maxMessages)
    case LLMSummarize(keepLast, minTrigger, summarize) => Condensed(messages, keepLast, minTrigger, summarize)
  }

  /** The first strategy that changes something, or fails, decides. */
  function Chained(strategies: seq<Strategy>, messages: seq<Message>): Compacted {
    if strategies == [] then Unchanged
    else
      var first := Compact(strategies[0], messages);
      if first.Unchanged? then Chained(strategies[1..], messages) else first
  }

  method CompactOne(s: Strategy, messages: seq<Message>) returns (out: seq<Message>, changed: bool, err: string)
    ensures match Compact(s, messages)
            case Unchanged => out == messages && !changed && err == ""
            case Changed(m) => out == m && changed && err == ""
            case CompactError(e) => out == messages && !changed && err == e && err != ""
  {
    match s
    case SlideWindow(maxMessages) =>
      if |messages| <= maxMessages {
        return messages, false, "";
      }
      return messages[|messages| - maxMessages..], true, "";
    case LLMSummarize(keepLast0, minTrigger0, summarize) =>
      var minTrigger := minTrigger0;
      if minTrigger <= 0 {
        minTrigger := 30;
      }
      if |messages| < minTrigger {
        return messages, false, "";
      }
      var keepLast := keepLast0;
      if keepLast <= 0 {
        keepLast := 10;
      }
      if |messages| <= keepLast + 1 {
        return messages, false, "";
      }
      var start := 1;
      if messages[0].UserMessage? {
        start := 0;
      }
      var head := messages[..start];
      var dropped := messages[start..|messages| - keepLast];
      var tail := messages[|messages| - keepLast..];
      var summary := "";
      if summarize.Summarizer? {
        var answer := summarize.answer(dropped);
        if answer.SummaryFailed? {
          return messages, false, "summarize: " + answer.err;
        }
        summary := answer.text;
      } else {
        summary := ElidedText(|dropped|);
      }
      out := head;
      out := out + [UserMessage(Plain(summary), 0)];
      out := out + tail;
      return out, true, "";
  }

  method ChainedCompact(strategies: seq<Strategy>, messages: seq<Message>)
    returns (out: seq<Message>, changed: bool, err: string)
    ensures match Chained(strategies, messages)
            case Unchanged => out == messages && !changed && err == ""
            case Changed(m) => out == m && changed && err == ""
            case CompactError(e) => out == messages && !changed && err == e && err != ""
  {
    for i := 0 to |strategies|
      invariant Chained(strategies, messages) == Chained(strategies[i..], messages)
    {
      out, changed, err := CompactOne(strategies[i], messages);
      if err != "" {
        return messages, false, err;
      }
      if changed {
        return;
      }
    }
    return messages, false, "";
  }

  /** A window drops messages from the front until at most its size are left. */
  lemma WindowDropsFront(messages: seq<Message>, maxMessages: nat) returns (dropped: seq<Message>)
    ensures var c := Compact(SlideWindow(maxMessages), messages);
            if |messages| <= maxMessages then c == Unchanged
            else c.Changed? && dropped + c.messages == messages && |c.messages| == maxMessages
  {
    dropped := if |messages| <= maxMessages then [] else messages[..|messages| - maxMessages];
  }

  /** A summary stands for the messages the summarizer was given; with those kept before and after it they are the
      whole history. A leading message is kept unless a user sent it. Without a summarizer the summary counts them. */
  lemma SummaryStandsFor(messages: seq<Message>, keepLast: int, minTrigger: int, summarize: Summarizer)
    returns (head: seq<Message>, given: seq<Message>, tail: seq<Message>)
    ensures var c := Compact(LLMSummarize(keepLast, minTrigger, summarize), messages);
            var keep := if keepLast <= 0 then 10 else keepLast;
            if |messages| < (if minTrigger <= 0 then 30 else minTrigger) || |messages| <= keep + 1 then c == Unchanged
            else
              && head + given + tail == messages && |tail| == keep
              && |head| == (if messages[0].UserMessage? then 0 else 1)
              && var answer := if summarize.Summarizer? then summarize.answer(given)
                               else Summarized("[summary of " + Digits(|given|) + " older messages elided]");
                 match answer
                 case Summarized(text) => c == Changed(head + [UserMessage(Plain(text), 0)] + tail)
                 case SummaryFailed(err) => c == CompactError("summarize: " + err)
  {
    var keep := if keepLast <= 0 then 10 else keepLast;
    head, given, tail := [], [], [];
    if |messages| > keep + 1 {
      var start := if messages[0].UserMessage? then 0 else 1;
      head, given, tail := messages[..start], messages[start..|messages| - keep], messages[|messages| - keep..];
    }
  }

  // ---------------------------------------------------------------- what a compaction keeps

  /** The most recent messages that every strategy of the chain keeps. */
  function KeptBy(strategies: seq<Strategy>, atMost: nat): nat {
    if strategies == [] then atMost
    else
      var keep := match strategies[0]
                  case SlideWindow(maxMessages) => maxMessages
                  case LLMSummarize(keepLast, _, _) => EffectiveKeepLast(keepLast);
      KeptBy(strategies[1..], if keep < atMost then keep else atMost)
  }

  /** `out` ends with the last `n` messages of `messages`. */
  ghost predicate KeepsTail(messages: seq<Message>, out: seq<Message>, n: nat) {
    n <= |messages| && n <= |out| && Tail(out, n) == Tail(messages, n)
  }

  lemma {:induction false} KeptByBound(strategies: seq<Strategy>, atMost: nat)
    ensures KeptBy(strategies, atMost) <= atMost
  {
    if strategies != [] {
      var keep := match strategies[0]
                  case SlideWindow(maxMessages) => maxMessages
                  case LLMSummarize(keepLast, _, _) => EffectiveKeepLast(keepLast);
      KeptByBound(strategies[1..], if keep < atMost then keep else atMost);
    }
  }

  /** Whatever the chain answers, the messages that every strategy keeps are still its last ones. It never
      lengthens the history, and a chain of sliding windows shortens what it changes. */
  lemma {:induction false} ChainKeepsTail(strategies: seq<Strategy>, messages: seq<Message>, atMost: nat)
    ensures Chained(strategies, messages).Changed? ==>
              && KeepsTail(messages, Chained(strategies, messages).messages, KeptBy(strategies, atMost))
              && |Chained(strategies, messages).messages| <= |messages|
              && ((forall s | s in strategies :: s.SlideWindow?) ==>
                  |Chained(strategies, messages).messages| < |messages|)
  {
    if strategies != [] {
      var s := strategies[0];
      var keep := match s
                  case SlideWindow(maxMessages) => maxMessages
                  case LLMSummarize(keepLast, _, _) => EffectiveKeepLast(keepLast);
      var atMost' := if keep < atMost then keep else atMost;
      if Compact(s, messages).Unchanged? {
        ChainKeepsTail(strategies[1..], messages, atMost');
      } else if Compact(s, messages).Changed? {
        var out := Compact(s, messages).messages;
        KeptByBound(strategies[1..], atMost');
        assert Tail(out, keep) == Tail(messages, keep);
        ShorterTail(messages, out, keep, KeptBy(strategies, atMost));
      }
    }
  }

  lemma ShorterTail(messages: seq<Message>, out: seq<Message>, n: nat, m: nat)
    requires KeepsTail(messages, out, n) && m <= n
    ensures KeepsTail(messages, out, m)
  {
    assert Tail(messages, m) == Tail(Tail(messages, n), m);
    assert Tail(out, m) == Tail(Tail(out, n), m);
  }

  lemma TailKeptTwice(a: seq<Message>, b: seq<Message>, c: seq<Message>, n: nat)
    requires KeepsTail(a, b, n) && KeepsTail(b, c, n)
    ensures KeepsTail(a, c, n)
  {
  }
}
