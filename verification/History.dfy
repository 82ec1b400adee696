/** Answered histories: every tool call has a result with its id (agent-engine/engine/agent.go). */
module History {
  import opened Messages
  import opened Compaction

  function CallIdsOf(m: Message): set<string> {
    if m.AssistantMessage? then CallIds(m.turn.content) else {}
  }

  function ResultIds(h: seq<Message>): set<string> {
    if h == [] then {}
    else
      var m := h[|h| - 1];
      ResultIds(h[..|h| - 1]) + if m.ToolResultMessage? then {m.toolCallId} else {}
  }

  /** Every call of the history has a result with its id somewhere in it. */
  ghost predicate Answered(h: seq<Message>) {
    forall i | 0 <= i < |h| :: CallIdsOf(h[i]) <= ResultIds(h)
  }

  /** Every call of the history has a result with its id after it. */
  ghost predicate AnsweredLater(h: seq<Message>) {
    forall i | 0 <= i < |h| :: CallIdsOf(h[i]) <= ResultIds(h[i + 1..])
  }

  /** A message that stays in front of a summary must not carry calls whose results are summarized away. */
  ghost predicate SafeHead(h: seq<Message>) {
    h != [] && CallIdsOf(h[0]) == {}
  }

  /** What is claimed of a history: nothing, an answer to every call anywhere, an answer after every call, or
      that behind a first message that carries no calls. */
  datatype Form = Unclaimed | Anywhere | Afterwards | BehindSafeHead

  ghost predicate Closed(h: seq<Message>, form: Form) {
    match form
    case Unclaimed => true
    case Anywhere => Answered(h)
    case Afterwards => AnsweredLater(h)
    case BehindSafeHead => AnsweredLater(h) && SafeHead(h)
  }

  /** Messages that can be injected anywhere. */
  predicate CallFree(h: seq<Message>) {
    forall m | m in h :: CallIdsOf(m) == {}
  }

  lemma {:induction false} ResultIdsConcat(a: seq<Message>, b: seq<Message>)
    ensures ResultIds(a + b) == ResultIds(a) + ResultIds(b)
  {
    if b == [] {
      assert a + b == a;
    } else {
      assert (a + b)[..|a + b| - 1] == a + b[..|b| - 1];
      ResultIdsConcat(a, b[..|b| - 1]);
    }
  }

  lemma {:induction false} ResultIdsMember(h: seq<Message>, i: nat)
    requires i < |h| && h[i].ToolResultMessage?
    ensures h[i].toolCallId in ResultIds(h)
  {
    if i < |h| - 1 {
      ResultIdsMember(h[..|h| - 1], i);
    }
  }

  /** What `ResultIds` means. */
  lemma {:induction false} ResultIdsPosition(h: seq<Message>, id: string) returns (i: nat)
    requires id in ResultIds(h)
    ensures i < |h| && h[i].ToolResultMessage? && h[i].toolCallId == id
  {
    var m := h[|h| - 1];
    if m.ToolResultMessage? && m.toolCallId == id {
      i := |h| - 1;
    } else {
      i := ResultIdsPosition(h[..|h| - 1], id);
    }
  }

  lemma LaterIsAnswered(h: seq<Message>)
    requires AnsweredLater(h)
    ensures Answered(h)
  {
    forall i | 0 <= i < |h|
      ensures CallIdsOf(h[i]) <= ResultIds(h)
    {
      assert h == h[..i + 1] + h[i + 1..];
      ResultIdsConcat(h[..i + 1], h[i + 1..]);
    }
  }

  /** Appending what carries no calls keeps a history answered. */
  lemma AppendCallFree(h: seq<Message>, more: seq<Message>, form: Form)
    requires Closed(h, form) && (form.Unclaimed? || CallFree(more))
    ensures Closed(h + more, form)
  {
    if form.Unclaimed? {
      return;
    }
    forall i | 0 <= i < |h + more|
      ensures CallIdsOf((h + more)[i]) <= ResultIds(h + more)
      ensures !form.Anywhere? ==> CallIdsOf((h + more)[i]) <= ResultIds((h + more)[i + 1..])
    {
      if i < |h| {
        OldCallsStayAnswered(h, more, form, i);
      } else {
        assert (h + more)[i] in more;
      }
    }
  }

  /** What is appended takes no result away. */
  lemma ResultsGrow(h: seq<Message>, more: seq<Message>, i: nat)
    requires i < |h|
    ensures ResultIds(h) <= ResultIds(h + more) && ResultIds(h[i + 1..]) <= ResultIds((h + more)[i + 1..])
  {
    ResultIdsConcat(h, more);
    assert (h + more)[i + 1..] == h[i + 1..] + more;
    ResultIdsConcat(h[i + 1..], more);
  }

  lemma OldCallsStayAnswered(h: seq<Message>, more: seq<Message>, form: Form, i: nat)
    requires Closed(h, form) && !form.Unclaimed? && i < |h|
    ensures CallIdsOf(h[i]) <= ResultIds(h + more)
    ensures !form.Anywhere? ==> CallIdsOf(h[i]) <= ResultIds((h + more)[i + 1..])
  {
    hide ResultIds, CallIdsOf;
    ResultsGrow(h, more, i);
    if !form.Anywhere? {
      LaterIsAnswered(h);
    }
  }

  lemma TurnIsAnswered(turn: Message, results: seq<Message>, k: nat)
    requires k <= |results| && CallFree(results) && CallIdsOf(turn) <= ResultIds(results)
    ensures CallIdsOf(([turn] + results)[k]) <= ResultIds(([turn] + results)[k + 1..])
  {
    hide ResultIds, CallIdsOf;
    if k == 0 {
      assert ([turn] + results)[1..] == results;
    } else {
      assert results[k - 1] in results;
    }
  }

  /** Appending a turn together with results for all its calls keeps a history answered. */
  lemma AppendTurn(h: seq<Message>, turn: Message, results: seq<Message>, form: Form)
    requires Closed(h, form) && CallFree(results) && CallIdsOf(turn) <= ResultIds(results)
    ensures Closed(h + [turn] + results, form)
  {
    if form.Unclaimed? {
      return;
    }
    var more := [turn] + results;
    var out := h + more;
    assert out == h + [turn] + results;
    hide ResultIds, CallIdsOf, CallFree;
    forall i | 0 <= i < |out|
      ensures CallIdsOf(out[i]) <= ResultIds(out) && (!form.Anywhere? ==> CallIdsOf(out[i]) <= ResultIds(out[i + 1..]))
    {
      if i < |h| {
        OldCallsStayAnswered(h, more, form, i);
      } else {
        TurnIsAnswered(turn, results, i - |h|);
        assert out[i + 1..] == more[i - |h| + 1..];
        SuffixResults(out, i + 1);
      }
    }
  }

  lemma SuffixResults(h: seq<Message>, k: nat)
    requires k <= |h|
    ensures ResultIds(h[k..]) <= ResultIds(h)
  {
    assert h == h[..k] + h[k..];
    ResultIdsConcat(h[..k], h[k..]);
  }

  // ---------------------------------------------------------------- interrupted runs

  const INTERRUPTED := "Tool call interrupted by user"

  function InterruptedResult(c: Call): Message {
    ToolResultMessage(c.id, c.name, [TextContent(INTERRUPTED, "")], true, 0)
  }

  /** All calls of a history, in order. */
  function AllCalls(h: seq<Message>): seq<Call> {
    if h == [] then []
    else
      var m := h[|h| - 1];
      AllCalls(h[..|h| - 1]) + if m.AssistantMessage? then Calls(m.turn.content) else []
  }

  /** One stub for each id that is called but not in `returned`, in the order of the first calls. */
  function Stubs(calls: seq<Call>, returned: set<string>): seq<Message> {
    if calls == [] then []
    else
      var front, c := Stubs(calls[..|calls| - 1], returned), calls[|calls| - 1];
      if c.id in returned || c.id in ResultIds(front) then front else front + [InterruptedResult(c)]
  }

  /** `appendInterruptedToolResults`: answers what no result answers, once per id, in order. */
  method AppendInterruptedToolResults(h: seq<Message>) returns (out: seq<Message>, added: nat)
    ensures out == h + Stubs(AllCalls(h), ResultIds(h)) && added == |out| - |h|
  {
    var returnedIDs: set<string> := {};
    for i := 0 to |h|
      invariant returnedIDs == ResultIds(h[..i])
    {
      assert h[..i + 1][..i] == h[..i];
      if h[i].ToolResultMessage? {
        returnedIDs := returnedIDs + {h[i].toolCallId};
      }
    }
    assert h[..|h|] == h;
    var stubs: seq<Message> := [];
    for i := 0 to |h|
      invariant stubs == Stubs(AllCalls(h[..i]), ResultIds(h))
      invariant returnedIDs == ResultIds(h) + ResultIds(stubs)
    {
      assert h[..i + 1][..i] == h[..i];
      if !h[i].AssistantMessage? || |h[i].turn.content| == 0 {
        assert AllCalls(h[..i]) + [] == AllCalls(h[..i]);
        continue;
      }
      stubs, returnedIDs := AppendStubs(Calls(h[i].turn.content), stubs, returnedIDs, AllCalls(h[..i]), ResultIds(h));
    }
    out, added := h + stubs, |stubs|;
  }

  /** The inner loop, over the calls of one turn. */
  method AppendStubs(calls: seq<Call>, stubs0: seq<Message>, returned0: set<string>,
                     ghost before: seq<Call>, ghost results: set<string>)
    returns (stubs: seq<Message>, returnedIDs: set<string>)
    requires stubs0 == Stubs(before, results) && returned0 == results + ResultIds(stubs0)
    ensures stubs == Stubs(before + calls, results) && returnedIDs == results + ResultIds(stubs)
  {
    hide Stubs, ResultIds, InterruptedResult;
    stubs, returnedIDs := stubs0, returned0;
    assert before + calls[..0] == before;
    for j := 0 to |calls|
      invariant stubs == Stubs(before + calls[..j], results)
      invariant returnedIDs == results + ResultIds(stubs)
    {
      assert before + calls[..j + 1] == before + calls[..j] + [calls[j]];
      OneMoreStub(before + calls[..j], calls[j], results);
      if calls[j].id in returnedIDs {
        continue;
      }
      returnedIDs := returnedIDs + {calls[j].id};
      ResultIdsConcat(stubs, [InterruptedResult(calls[j])]);
      StubAnswers(calls[j]);
      stubs := stubs + [InterruptedResult(calls[j])];
    }
    assert calls[..|calls|] == calls;
  }

  lemma OneMoreStub(front: seq<Call>, c: Call, results: set<string>)
    ensures Stubs(front + [c], results) ==
              if c.id in results || c.id in ResultIds(Stubs(front, results)) then Stubs(front, results)
              else Stubs(front, results) + [InterruptedResult(c)]
  {
    assert (front + [c])[..|front|] == front;
  }

  lemma StubAnswers(c: Call)
    ensures ResultIds([InterruptedResult(c)]) == {c.id}
  {
    OneResult(InterruptedResult(c));
  }

  lemma OneResult(m: Message)
    requires m.ToolResultMessage?
    ensures ResultIds([m]) == {m.toolCallId}
  {
    assert [m][..0] == [];
  }

  lemma {:induction false} StubsAnswer(calls: seq<Call>, returned: set<string>)
    ensures var stubs := Stubs(calls, returned);
            && (forall c | c in calls :: c.id in returned + ResultIds(stubs))
            && ResultIds(stubs) !! returned
            && CallFree(stubs)
            && (stubs == [] <==> forall c | c in calls :: c.id in returned)
  {
    if calls != [] {
      var front, c := calls[..|calls| - 1], calls[|calls| - 1];
      StubsAnswer(front, returned);
      ResultIdsConcat(Stubs(front, returned), [InterruptedResult(c)]);
      OneResult(InterruptedResult(c));
      assert calls == front + [c];
    }
  }

  /** Results whose ids are all different. */
  ghost predicate DistinctResults(h: seq<Message>) {
    && (forall i | 0 <= i < |h| :: h[i].ToolResultMessage?)
    && forall i, j | 0 <= i < j < |h| :: h[i].toolCallId != h[j].toolCallId
  }

  lemma OneMoreResult(h: seq<Message>, m: Message)
    requires DistinctResults(h) && m.ToolResultMessage? && m.toolCallId !in ResultIds(h)
    ensures DistinctResults(h + [m])
  {
    forall i | 0 <= i < |h|
      ensures h[i].toolCallId != m.toolCallId
    {
      ResultIdsMember(h, i);
    }
  }

  /** The stub is an error result for the call, and says that the user interrupted it. */
  predicate ReportsInterrupted(m: Message, c: Call) {
    && m.ToolResultMessage? && m.toolCallId == c.id && m.toolName == c.name && m.isError
    && m.result == [TextContent("Tool call interrupted by user", "")]
  }

  /** Stub `k` reports call `src[k]`, the first one with its id, and no result bears that id. */
  ghost predicate StubsFor(calls: seq<Call>, returned: set<string>, stubs: seq<Message>, src: seq<nat>) {
    && |src| == |stubs|
    && (forall k | 0 <= k < |src| :: StubFor(calls, returned, stubs[k], src[k]))
    && (forall j, k | 0 <= j < k < |src| :: src[j] < src[k])
  }

  ghost predicate StubFor(calls: seq<Call>, returned: set<string>, stub: Message, i: nat) {
    && i < |calls| && ReportsInterrupted(stub, calls[i]) && calls[i].id !in returned
    && forall j | 0 <= j < i :: calls[j].id != calls[i].id
  }

  lemma StubsForMore(calls: seq<Call>, c: Call, returned: set<string>, stubs: seq<Message>, src: seq<nat>)
    requires StubsFor(calls, returned, stubs, src)
    ensures StubsFor(calls + [c], returned, stubs, src)
  {
    hide ReportsInterrupted;
    forall k | 0 <= k < |src|
      ensures StubFor(calls + [c], returned, stubs[k], src[k])
    {
      assert StubFor(calls, returned, stubs[k], src[k]);
    }
  }

  lemma StubsForOne(calls: seq<Call>, c: Call, returned: set<string>, stubs: seq<Message>, src: seq<nat>, m: Message)
    requires StubsFor(calls + [c], returned, stubs, src) && StubFor(calls + [c], returned, m, |calls|)
    requires forall k | 0 <= k < |src| :: src[k] < |calls|
    ensures StubsFor(calls + [c], returned, stubs + [m], src + [|calls|])
  {
    hide StubFor;
  }

  lemma StubsBelow(calls: seq<Call>, returned: set<string>, stubs: seq<Message>, src: seq<nat>)
    requires StubsFor(calls, returned, stubs, src)
    ensures forall k | 0 <= k < |src| :: src[k] < |calls|
  {
    assert forall k | 0 <= k < |src| :: StubFor(calls, returned, stubs[k], src[k]);
  }

  lemma FirstUnanswered(calls: seq<Call>, c: Call, returned: set<string>)
    requires c.id !in returned && c.id !in ResultIds(Stubs(calls, returned))
    ensures StubFor(calls + [c], returned, InterruptedResult(c), |calls|)
  {
    StubsAnswer(calls, returned);
    hide Stubs, ResultIds, CallFree;
    forall j | 0 <= j < |calls|
      ensures (calls + [c])[j].id != c.id
    {
      assert calls[j] in calls;
    }
  }

  /** The stubs stand in the order of the calls they report. */
  lemma {:induction false} StubsReport(calls: seq<Call>, returned: set<string>) returns (src: seq<nat>)
    ensures StubsFor(calls, returned, Stubs(calls, returned), src)
  {
    src := [];
    if calls != [] {
      hide StubsFor, StubFor, InterruptedResult, ResultIds;
      var n := |calls| - 1;
      src := StubsReport(calls[..n], returned);
      assert calls[..n] + [calls[n]] == calls;
      var front := Stubs(calls[..n], returned);
      StubsBelow(calls[..n], returned, front, src);
      StubsForMore(calls[..n], calls[n], returned, front, src);
      if calls[n].id !in returned && calls[n].id !in ResultIds(front) {
        FirstUnanswered(calls[..n], calls[n], returned);
        StubsForOne(calls[..n], calls[n], returned, front, src, InterruptedResult(calls[n]));
        src := src + [n];
      }
    }
  }

  /** No id is answered by two stubs. */
  lemma {:induction false} StubsDistinct(calls: seq<Call>, returned: set<string>)
    ensures DistinctResults(Stubs(calls, returned))
  {
    if calls != [] {
      var front, c := Stubs(calls[..|calls| - 1], returned), calls[|calls| - 1];
      StubsDistinct(calls[..|calls| - 1], returned);
      if c.id !in ResultIds(front) {
        OneMoreResult(front, InterruptedResult(c));
      }
    }
  }

  lemma {:induction false} AllCallsMembers(h: seq<Message>, returned: set<string>)
    ensures (forall c | c in AllCalls(h) :: c.id in returned) <==>
              (forall i | 0 <= i < |h| :: CallIdsOf(h[i]) <= returned)
  {
    if h != [] {
      var front, m := h[..|h| - 1], h[|h| - 1];
      AllCallsMembers(front, returned);
      if m.AssistantMessage? {
        CallIdsMembers(m.turn.content);
      }
      assert forall i | 0 <= i < |front| :: front[i] == h[i];
      assert h[|h| - 1] == m;
      assert (forall i | 0 <= i < |h| :: CallIdsOf(h[i]) <= returned)
        <==> (forall i | 0 <= i < |front| :: CallIdsOf(front[i]) <= returned) && CallIdsOf(m) <= returned;
    }
  }

  /** An aborted history becomes answered; an answered one is left alone, and no id is answered again. */
  lemma InterruptedHistoryAnswered(h: seq<Message>)
    ensures var stubs := Stubs(AllCalls(h), ResultIds(h));
            && Answered(h + stubs)
            && (Answered(h) <==> stubs == [])
            && ResultIds(stubs) !! ResultIds(h)
            && DistinctResults(stubs)
  {
    var stubs := Stubs(AllCalls(h), ResultIds(h));
    StubsDistinct(AllCalls(h), ResultIds(h));
    StubsAnswer(AllCalls(h), ResultIds(h));
    AllCallsMembers(h, ResultIds(h));
    AllCallsMembers(h, ResultIds(h) + ResultIds(stubs));
    ResultIdsConcat(h, stubs);
    forall i | 0 <= i < |h + stubs|
      ensures CallIdsOf((h + stubs)[i]) <= ResultIds(h + stubs)
    {
      assert i >= |h| ==> (h + stubs)[i] in stubs;
    }
  }

  /** A call is answered after it, or not at all. */
  ghost predicate AnsweredInOrder(h: seq<Message>, i: nat)
    requires i < |h|
  {
    CallIdsOf(h[i]) * ResultIds(h) <= ResultIds(h[i + 1..])
  }

  lemma AnsweredAfterStubs(h: seq<Message>, stubs: seq<Message>, i: nat)
    requires i < |h| && CallIdsOf(h[i]) <= ResultIds(h) + ResultIds(stubs) && ResultIds(stubs) !! ResultIds(h)
    ensures CallIdsOf(h[i]) <= ResultIds((h + stubs)[i + 1..]) <==> AnsweredInOrder(h, i)
  {
    assert (h + stubs)[i + 1..] == h[i + 1..] + stubs && h == h[..i + 1] + h[i + 1..];
    ResultIdsConcat(h[i + 1..], stubs);
    ResultIdsConcat(h[..i + 1], h[i + 1..]);
    hide ResultIds, CallIdsOf;
  }

  /** The stubs make every call answered after it exactly when no result came before its call. */
  lemma InterruptedHistoryAnsweredLater(h: seq<Message>)
    ensures AnsweredLater(h + Stubs(AllCalls(h), ResultIds(h))) <==> forall i | 0 <= i < |h| :: AnsweredInOrder(h, i)
  {
    var stubs := Stubs(AllCalls(h), ResultIds(h));
    InterruptedHistoryAnswered(h);
    StubsAnswer(AllCalls(h), ResultIds(h));
    ResultIdsConcat(h, stubs);
    hide ResultIds, CallIdsOf, Stubs, AllCalls, AnsweredInOrder;
    forall i | 0 <= i < |h + stubs|
      ensures if i < |h| then CallIdsOf((h + stubs)[i]) <= ResultIds((h + stubs)[i + 1..]) <==> AnsweredInOrder(h, i)
              else CallIdsOf((h + stubs)[i]) == {}
    {
      if i < |h| {
        assert CallIdsOf((h + stubs)[i]) <= ResultIds(h + stubs);
        AnsweredAfterStubs(h, stubs, i);
      } else {
        assert (h + stubs)[i] in stubs;
      }
    }
  }

  // ---------------------------------------------------------------- compaction and answered histories

  lemma SuffixAnswered(h: seq<Message>, n: nat)
    requires AnsweredLater(h) && n <= |h|
    ensures AnsweredLater(Tail(h, n))
  {
    forall i | 0 <= i < n
      ensures CallIdsOf(Tail(h, n)[i]) <= ResultIds(Tail(h, n)[i + 1..])
    {
      assert Tail(h, n)[i + 1..] == h[|h| - n + i + 1..];
    }
  }

  /** Whether the strategy that decides leaves every call answered: a window does, and a summary does unless the
      kept first message has calls whose results are not among the kept last messages. */
  ghost predicate HeadAnswered(strategies: seq<Strategy>, h: seq<Message>) {
    strategies != [] ==>
      if Compact(strategies[0], h).Unchanged? then HeadAnswered(strategies[1..], h)
      else strategies[0].LLMSummarize? ==> SummaryAnswers(h, strategies[0].keepLast)
  }

  ghost predicate SummaryAnswers(h: seq<Message>, keepLast: int) {
    && EffectiveKeepLast(keepLast) <= |h|
    && (HeadLength(h) == 1 ==> CallIdsOf(h[0]) <= ResultIds(Tail(h, EffectiveKeepLast(keepLast))))
  }

  lemma AnsweredLaterCons(m: Message, h: seq<Message>)
    ensures AnsweredLater([m] + h) <==> CallIdsOf(m) <= ResultIds(h) && AnsweredLater(h)
  {
    assert ([m] + h)[1..] == h;
    forall i | 0 <= i < |h|
      ensures ([m] + h)[i + 1] == h[i] && ([m] + h)[i + 1 + 1..] == h[i + 1..]
    {
    }
    if AnsweredLater([m] + h) {
      assert CallIdsOf(([m] + h)[0]) <= ResultIds(([m] + h)[0 + 1..]);
      forall i | 0 <= i < |h|
        ensures CallIdsOf(h[i]) <= ResultIds(h[i + 1..])
      {
        assert CallIdsOf(([m] + h)[i + 1]) <= ResultIds(([m] + h)[i + 1 + 1..]);
      }
    }
    if CallIdsOf(m) <= ResultIds(h) && AnsweredLater(h) {
      forall i | 0 <= i < |[m] + h|
        ensures CallIdsOf(([m] + h)[i]) <= ResultIds(([m] + h)[i + 1..])
      {
        assert i > 0 ==> CallIdsOf(h[i - 1]) <= ResultIds(h[i - 1 + 1..]);
      }
    }
  }

  /** What a summary leaves: the kept first message, if any, the summary, the last messages. */
  lemma CondensedParts(h: seq<Message>, keepLast: int, minTrigger: int, summarize: Summarizer)
    returns (summary: Message)
    requires Condensed(h, keepLast, minTrigger, summarize).Changed?
    ensures EffectiveKeepLast(keepLast) <= |h| && summary.UserMessage?
    ensures var rest := [summary] + Tail(h, EffectiveKeepLast(keepLast));
            Condensed(h, keepLast, minTrigger, summarize).messages == if HeadLength(h) == 1 then [h[0]] + rest else rest
  {
    summary := Condensed(h, keepLast, minTrigger, summarize).messages[HeadLength(h)];
    assert h[..HeadLength(h)] == if HeadLength(h) == 1 then [h[0]] else [];
  }

  lemma PrependPrompt(summary: Message, h: seq<Message>)
    requires summary.UserMessage? && AnsweredLater(h)
    ensures AnsweredLater([summary] + h) && ResultIds([summary] + h) == ResultIds(h)
  {
    AnsweredLaterCons(summary, h);
    ResultIdsConcat([summary], h);
    assert [summary][..0] == [];
  }

  /** A summary keeps an answered history answered exactly when the first message it keeps is answered by the last. */
  lemma SummaryKeepsAnswered(h: seq<Message>, keepLast: int, minTrigger: int, summarize: Summarizer)
    requires AnsweredLater(h) && Condensed(h, keepLast, minTrigger, summarize).Changed?
    ensures AnsweredLater(Condensed(h, keepLast, minTrigger, summarize).messages) <==> SummaryAnswers(h, keepLast)
  {
    hide Condensed, ResultIds, AnsweredLater, CallIdsOf;
    var summary := CondensedParts(h, keepLast, minTrigger, summarize);
    var tail := Tail(h, EffectiveKeepLast(keepLast));
    SuffixAnswered(h, EffectiveKeepLast(keepLast));
    PrependPrompt(summary, tail);
    if HeadLength(h) == 1 {
      AnsweredLaterCons(h[0], [summary] + tail);
    }
  }

  lemma SummaryKeepsSafeHead(h: seq<Message>, keepLast: int, minTrigger: int, summarize: Summarizer)
    requires SafeHead(h) && Condensed(h, keepLast, minTrigger, summarize).Changed?
    ensures SafeHead(Condensed(h, keepLast, minTrigger, summarize).messages) && SummaryAnswers(h, keepLast)
  {
    hide Condensed;
    var summary := CondensedParts(h, keepLast, minTrigger, summarize);
  }

  /** The same for whole chains. */
  lemma {:induction false} ChainKeepsAnswered(strategies: seq<Strategy>, h: seq<Message>)
    requires AnsweredLater(h) && Chained(strategies, h).Changed?
    ensures AnsweredLater(Chained(strategies, h).messages) <==> HeadAnswered(strategies, h)
  {
    if Compact(strategies[0], h).Unchanged? {
      ChainKeepsAnswered(strategies[1..], h);
    } else {
      match strategies[0]
      case SlideWindow(maxMessages) =>
        SuffixAnswered(h, maxMessages);
      case LLMSummarize(keepLast, minTrigger, summarize) =>
        SummaryKeepsAnswered(h, keepLast, minTrigger, summarize);
    }
  }

  /** Every window stands behind a summarizer that acts whenever the window would. */
  predicate Shadowed(strategies: seq<Strategy>) {
    forall k | 0 <= k < |strategies| && strategies[k].SlideWindow? :: ShadowedAt(strategies, k)
  }

  predicate ShadowedAt(strategies: seq<Strategy>, k: nat)
    requires k < |strategies| && strategies[k].SlideWindow?
  {
    exists j | 0 <= j < k :: ActsBeyond(strategies[j], strategies[k].maxMessages)
  }

  predicate ActsBeyond(s: Strategy, n: nat) {
    s.LLMSummarize? && EffectiveMinTrigger(s.minTrigger) <= n + 1 && EffectiveKeepLast(s.keepLast) < n
  }

  /** In such a chain a summarizer decides, and a safe head stays safe. */
  lemma ShadowedChainKeepsSafeHead(strategies: seq<Strategy>, h: seq<Message>)
    requires Shadowed(strategies) && Closed(h, BehindSafeHead) && Chained(strategies, h).Changed?
    ensures Closed(Chained(strategies, h).messages, BehindSafeHead)
  {
    hide AnsweredLater, SafeHead, Chained, Shadowed, Condensed;
    assert strategies[0..] == strategies;
    var k := Decider(strategies, h, 0);
    SummarizerDecides(strategies, h, k);
    var s := strategies[k];
    SummaryKeepsAnswered(h, s.keepLast, s.minTrigger, s.summarize);
    SummaryKeepsSafeHead(h, s.keepLast, s.minTrigger, s.summarize);
  }

  lemma SummarizerDecides(strategies: seq<Strategy>, h: seq<Message>, k: nat)
    requires Shadowed(strategies) && k < |strategies| && Compact(strategies[k], h).Changed?
    requires forall j | 0 <= j < k :: Compact(strategies[j], h).Unchanged?
    ensures strategies[k].LLMSummarize?
  {
    hide Compact, ActsBeyond;
    forall j, n: nat | 0 <= j < k && n < |h|
      ensures !ActsBeyond(strategies[j], n)
    {
      ActsOnLonger(strategies[j], n, h);
    }
    WindowActsOnLonger(strategies[k], h);
  }

  lemma ActsOnLonger(s: Strategy, n: nat, h: seq<Message>)
    requires n < |h|
    ensures ActsBeyond(s, n) ==> !Compact(s, h).Unchanged?
  {
  }

  lemma WindowActsOnLonger(s: Strategy, h: seq<Message>)
    ensures s.SlideWindow? && Compact(s, h).Changed? ==> s.maxMessages < |h|
  {
  }

  /** The first strategy that does not leave the history alone. */
  lemma {:induction false} Decider(strategies: seq<Strategy>, h: seq<Message>, from: nat) returns (k: nat)
    requires from <= |strategies| && Chained(strategies[from..], h).Changed?
    ensures from <= k < |strategies| && Chained(strategies[from..], h) == Compact(strategies[k], h)
    ensures forall j | from <= j < k :: Compact(strategies[j], h).Unchanged?
    decreases |strategies| - from
  {
    assert from < |strategies| ==> strategies[from..][1..] == strategies[from + 1..];
    k := from;
    if Compact(strategies[from], h).Unchanged? {
      k := Decider(strategies, h, from + 1);
    }
  }

  function Prompts(n: nat): (h: seq<Message>)
    ensures |h| == n && forall i | 0 <= i < n :: h[i] == UserMessage(Plain(""), 0)
  {
    if n == 0 then [] else Prompts(n - 1) + [UserMessage(Plain(""), 0)]
  }

  lemma {:induction false} PromptsHaveNoResults(n: nat)
    ensures ResultIds(Prompts(n)) == {}
  {
    if n > 0 {
      PromptsHaveNoResults(n - 1);
    }
  }

  /** An answered history whose first message calls `id`; the summary drops the result and keeps the call. */
  lemma SummaryOrphansACall(id: string) returns (h: seq<Message>)
    ensures AnsweredLater(h)
    ensures Condensed(h, 10, 30, NoSummarizer).Changed?
    ensures !AnsweredLater(Condensed(h, 10, 30, NoSummarizer).messages)
  {
    var call := ToolCall(Call(id, "", "", ""));
    var turn := AssistantMessage(Assistant([call], "", "", "", StopToolUse, "", 0));
    var result := ToolResultMessage(id, "", [], false, 0);
    h := [turn] + ([result] + Prompts(28));
    PromptsHaveNoResults(28);
    PromptsHaveNoResults(10);
    assert [call][..0] == [];
    assert CallIdsOf(turn) == CallIds([]) + {id};
    ResultIdsConcat([result], Prompts(28));
    assert [result][..0] == [];
    assert AnsweredLater(Prompts(28));
    AnsweredLaterCons(result, Prompts(28));
    AnsweredLaterCons(turn, [result] + Prompts(28));
    assert Tail(h, 10) == Prompts(10);
    SummaryKeepsAnswered(h, 10, 30, NoSummarizer);
  }
}
