/** Tool execution of one assistant turn (agent-engine/engine/tools.go). */
module Tools {
  import opened Wrappers
  import opened Messages
  import opened History

  datatype ToolResult = ToolResult(content: seq<ContentBlock>, isError: bool, terminate: bool)

  /** What the code around one call does: the hooks and the tool are oracles. A hook that is not
      installed behaves like `Pass` or `Keep`. */
  datatype Before = Pass | Veto(reason: string) | BeforePanics(text: string)
  datatype Execution = Returned(result: ToolResult) | Errored(err: string) | ExecutionPanics(text: string)
  datatype After =
    | Keep
    | Override(content: Option<seq<ContentBlock>>, isError: Option<bool>, terminate: Option<bool>)
    | AfterPanics(text: string)
  datatype Script = Script(found: bool, before: Before, execution: Execution, after: After)

  function TextResult(text: string): ToolResult {
    ToolResult([TextContent(text, "")], true, false)
  }

  function PanicResult(text: string): ToolResult {
    TextResult("panic in tool execution: " + text)
  }

  function ResultMessage(c: Call, r: ToolResult): Message {
    ToolResultMessage(c.id, c.name, r.content, r.isError, 0)
  }

  function CancelledMessage(c: Call): Message {
    ToolResultMessage(c.id, c.name, [TextContent("Tool call cancelled", "")], true, 0)
  }

  /** The outcome of the preparation and the tool, or the text of a panic. */
  function Prepared(c: Call, s: Script): Result<ToolResult, string> {
    if !s.found then Ok(TextResult("Tool not found: " + c.name))
    else
      match s.before
      case BeforePanics(text) => Err(text)
      case Veto(reason) => Ok(TextResult(if reason == "" then "Tool execution blocked" else reason))
      case Pass =>
        match s.execution
        case ExecutionPanics(text) => Err(text)
        case Errored(err) => Ok(TextResult("Tool execution error: " + err))
        case Returned(result) => Ok(result)
  }

  function Finalized(s: Script, r: ToolResult): Result<ToolResult, string> {
    match s.after
    case Keep => Ok(r)
    case AfterPanics(text) => Err(text)
    case Override(content, isError, terminate) =>
      Ok(ToolResult(if content.Some? then content.value else r.content,
                    if isError.Some? then isError.value else r.isError,
                    if terminate.Some? then terminate.value else r.terminate))
  }

  /** `executeSingleToolCall`: a panic of a hook or of the tool becomes an error result. */
  function Single(c: Call, s: Script): ToolResult {
    match Prepared(c, s)
    case Err(text) => PanicResult(text)
    case Ok(r) =>
      match Finalized(s, r)
      case Err(text) => PanicResult(text)
      case Ok(r') => r'
  }

  // ---------------------------------------------------------------- what a reported result means

  /** A hook or the tool panics, and nothing before it has stopped the call. */
  predicate PanicsWith(s: Script, text: string) {
    || (s.found && s.before == BeforePanics(text))
    || (s.found && s.before.Pass? && s.execution == ExecutionPanics(text))
    || (s.after == AfterPanics(text)
        && (!s.found || s.before.Veto? || (s.before.Pass? && !s.execution.ExecutionPanics?)))
  }

  /** An error result of one text block that does not terminate the run. */
  predicate IsNotice(r: ToolResult, text: string) {
    r.isError && !r.terminate && r.content == [TextContent(text, "")]
  }

  /** What the hook after the call sees: the tool's own result, or why there is none. */
  predicate Unhooked(c: Call, s: Script, r: ToolResult) {
    if !s.found then IsNotice(r, "Tool not found: " + c.name)
    else if s.before.Veto? then
      IsNotice(r, if s.before.reason == "" then "Tool execution blocked" else s.before.reason)
    else if s.execution.Errored? then IsNotice(r, "Tool execution error: " + s.execution.err)
    else s.execution.Returned? && r == s.execution.result
  }

  /** The hook replaces exactly the fields it gives. */
  predicate Hooked(after: After, r: ToolResult, r': ToolResult) {
    if !after.Override? then r' == r
    else
      && r'.content == (if after.content.Some? then after.content.value else r.content)
      && r'.isError == (if after.isError.Some? then after.isError.value else r.isError)
      && r'.terminate == (if after.terminate.Some? then after.terminate.value else r.terminate)
  }

  /** `m` reports what became of the call: a panic as an error, anything else as the tool and the hook left it. */
  ghost predicate Reported(c: Call, s: Script, m: Message, terminates: bool) {
    && m.ToolResultMessage? && m.toolCallId == c.id && m.toolName == c.name
    && var r' := ToolResult(m.result, m.isError, terminates);
       && (forall text | PanicsWith(s, text) :: IsNotice(r', "panic in tool execution: " + text))
       && ((forall text :: !PanicsWith(s, text)) ==> exists r :: Unhooked(c, s, r) && Hooked(s.after, r, r'))
  }

  predicate ReportsCancellation(c: Call, m: Message) {
    && m.ToolResultMessage? && m.toolCallId == c.id && m.toolName == c.name
    && m.isError && m.result == [TextContent("Tool call cancelled", "")]
  }

  lemma SingleIsReported(c: Call, s: Script)
    ensures Reported(c, s, ResultMessage(c, Single(c, s)), Single(c, s).terminate)
  {
    var panics := Prepared(c, s).Err? || Finalized(s, Prepared(c, s).value).Err?;
    if panics {
      var text := if Prepared(c, s).Err? then Prepared(c, s).error else Finalized(s, Prepared(c, s).value).error;
      assert PanicsWith(s, text);
    } else {
      assert Unhooked(c, s, Prepared(c, s).value);
    }
  }

  /** A tool that is found, passes, returns and is kept is reported with its own content and error flag. */
  lemma ReturnedIsReported(c: Call, s: Script, m: Message, terminates: bool)
    requires Reported(c, s, m, terminates)
    requires s.found && s.before.Pass? && s.execution.Returned? && s.after.Keep?
    ensures m.result == s.execution.result.content && m.isError == s.execution.result.isError
    ensures terminates == s.execution.result.terminate
  {
  }

  /** What is reported for call `i` of a batch, and whether it asks to terminate. */
  ghost predicate BatchReports(calls: seq<Call>, script: nat -> Script, cancelled: nat -> bool, sequential: bool,
                               i: nat, m: Message, terminates: bool)
    requires i < |calls|
  {
    if cancelled(i) then !sequential && !terminates && ReportsCancellation(calls[i], m)
    else Reported(calls[i], script(i), m, terminates)
  }

  lemma BatchReported(calls: seq<Call>, script: nat -> Script, cancelled: nat -> bool, sequential: bool, i: nat,
                      m: Message, terminates: bool)
    requires i < |calls| && BatchReports(calls, script, cancelled, sequential, i, m, terminates)
    ensures m.ToolResultMessage? && m.toolCallId == calls[i].id && m.toolName == calls[i].name
  {
  }

  // ---------------------------------------------------------------- sequential execution

  /** How many calls run: up to the first that terminates, or to the first cancellation check that fires. */
  function RunCount(calls: seq<Call>, script: nat -> Script, cancelled: nat -> bool, from: nat): (n: nat)
    requires from <= |calls|
    ensures from <= n <= |calls|
    decreases |calls| - from
  {
    if from == |calls| || cancelled(from) then from
    else if Single(calls[from], script(from)).terminate then from + 1
    else RunCount(calls, script, cancelled, from + 1)
  }

  /** The messages of the first `n` calls. */
  function Outcomes(calls: seq<Call>, script: nat -> Script, n: nat): (r: seq<Message>)
    requires n <= |calls|
    ensures |r| == n && forall i | 0 <= i < n :: r[i] == ResultMessage(calls[i], Single(calls[i], script(i)))
  {
    if n == 0 then []
    else Outcomes(calls, script, n - 1) + [ResultMessage(calls[n - 1], Single(calls[n - 1], script(n - 1)))]
  }

  method ExecuteToolCallsSequential(calls: seq<Call>, script: nat -> Script, cancelled: nat -> bool)
    returns (results: seq<Message>, shouldTerminate: bool)
    ensures results == Outcomes(calls, script, RunCount(calls, script, cancelled, 0))
    ensures shouldTerminate <==> |results| > 0 && Single(calls[|results| - 1], script(|results| - 1)).terminate
    ensures |results| < |calls| && !shouldTerminate ==> cancelled(|results|)
    ensures |results| <= |calls| && forall i | 0 <= i < |results| ::
              BatchReports(calls, script, cancelled, true, i, results[i], shouldTerminate && i == |results| - 1)
  {
    hide Single, BatchReports, RunCount;
    results, shouldTerminate := [], false;
    for i := 0 to |calls|
      invariant results == Outcomes(calls, script, i)
      invariant RunCount(calls, script, cancelled, 0) == RunCount(calls, script, cancelled, i)
      invariant !shouldTerminate && (i > 0 ==> !Single(calls[i - 1], script(i - 1)).terminate)
      invariant forall k | 0 <= k < i :: BatchReports(calls, script, cancelled, true, k, results[k], false)
    {
      RunCountStep(calls, script, cancelled, i);
      if cancelled(i) {
        break;
      }
      RanIsReported(calls, script, cancelled, i);
      var result := Single(calls[i], script(i));
      results := results + [ResultMessage(calls[i], result)];
      if result.terminate {
        shouldTerminate := true;
        break;
      }
    }
    NothingLeftToRun(calls, script, cancelled);
  }

  lemma NothingLeftToRun(calls: seq<Call>, script: nat -> Script, cancelled: nat -> bool)
    ensures RunCount(calls, script, cancelled, |calls|) == |calls|
  {
  }

  lemma RunCountStep(calls: seq<Call>, script: nat -> Script, cancelled: nat -> bool, i: nat)
    requires i < |calls|
    ensures RunCount(calls, script, cancelled, i) ==
              if cancelled(i) then i
              else if Single(calls[i], script(i)).terminate then i + 1
              else RunCount(calls, script, cancelled, i + 1)
  {
  }

  lemma RanIsReported(calls: seq<Call>, script: nat -> Script, cancelled: nat -> bool, i: nat)
    requires i < |calls| && !cancelled(i)
    ensures var r := Single(calls[i], script(i));
            BatchReports(calls, script, cancelled, true, i, ResultMessage(calls[i], r), r.terminate)
  {
    SingleIsReported(calls[i], script(i));
  }

  // ---------------------------------------------------------------- parallel execution

  /** What goroutine `i` sends: a cancellation notice or the call's outcome. */
  function Slot(calls: seq<Call>, script: nat -> Script, cancelled: nat -> bool, i: nat): (Message, bool)
    requires i < |calls|
  {
    if cancelled(i) then (CancelledMessage(calls[i]), false)
    else
      var r := Single(calls[i], script(i));
      (ResultMessage(calls[i], r), r.terminate)
  }

  /** The order in which the goroutines finish: every index once. */
  ghost predicate CompletionOrder(order: seq<nat>, n: nat) {
    && |order| == n
    && (forall k | 0 <= k < n :: order[k] < n)
    && (forall j, k | 0 <= j < k < n :: order[j] != order[k])
  }

  function Below(n: nat): (s: set<nat>)
    ensures |s| == n && forall k: nat :: k in s <==> k < n
  {
    if n == 0 then {} else Below(n - 1) + {n - 1}
  }

  function Elements(order: seq<nat>): (s: set<nat>)
    ensures forall k: nat :: k in s <==> k in order
    ensures (forall j, k | 0 <= j < k < |order| :: order[j] != order[k]) ==> |s| == |order|
  {
    if order == [] then {} else Elements(order[..|order| - 1]) + {order[|order| - 1]}
  }

  lemma CompletionOrderIsOnto(order: seq<nat>, n: nat, i: nat)
    requires CompletionOrder(order, n) && i < n
    ensures i in order
  {
    if i !in order {
      assert Elements(order) <= Below(n) - {i};
      SubsetSize(Elements(order), Below(n) - {i});
    }
  }

  lemma {:induction false} SubsetSize(a: set<nat>, b: set<nat>)
    requires a <= b
    ensures |a| <= |b|
  {
    if a != {} {
      var x :| x in a;
      SubsetSize(a - {x}, b - {x});
    }
  }

  /** Whatever the completion order, slot `i` holds the outcome of call `i`, and termination is the
      disjunction over all slots. */
  method ExecuteToolCallsParallel(calls: seq<Call>, script: nat -> Script, cancelled: nat -> bool, order: seq<nat>)
    returns (results: array<Message>, terminated: bool)
    requires CompletionOrder(order, |calls|)
    ensures fresh(results) && results.Length == |calls|
    ensures forall i | 0 <= i < |calls| :: results[i] == Slot(calls, script, cancelled, i).0
    ensures terminated <==> exists i | 0 <= i < |calls| :: Slot(calls, script, cancelled, i).1
    ensures forall i | 0 <= i < |calls| ::
              BatchReports(calls, script, cancelled, false, i, results[i], Slot(calls, script, cancelled, i).1)
  {
    hide Reported, Single;
    results := new Message[|calls|](_ => ToolResultMessage("", "", [], false, 0));
    terminated := false;
    for k := 0 to |order|
      invariant forall j | 0 <= j < k :: results[order[j]] == Slot(calls, script, cancelled, order[j]).0
      invariant terminated <==> exists j | 0 <= j < k :: Slot(calls, script, cancelled, order[j]).1
    {
      var received := Slot(calls, script, cancelled, order[k]);
      results[order[k]] := received.0;
      if received.1 {
        terminated := true;
      }
    }
    forall i | 0 <= i < |calls|
      ensures results[i] == Slot(calls, script, cancelled, i).0
      ensures Slot(calls, script, cancelled, i).1 ==> terminated
      ensures BatchReports(calls, script, cancelled, false, i, results[i], Slot(calls, script, cancelled, i).1)
    {
      SingleIsReported(calls[i], script(i));
      CompletionOrderIsOnto(order, |calls|, i);
    }
  }

  // ---------------------------------------------------------------- choosing the mode

  datatype Mode = Unspecified | Parallel | Sequential

  /** Sequential if configured, or if any called tool asks for it; `toolMode` is the mode of a named tool, if known. */
  predicate RunsSequentially(mode: Mode, toolMode: string -> Option<Mode>, calls: seq<Call>) {
    mode.Sequential? || exists i | 0 <= i < |calls| :: toolMode(calls[i].name) == Some(Sequential)
  }

  method ResolveExecutionMode(mode: Mode, toolMode: string -> Option<Mode>, calls: seq<Call>) returns (resolved: Mode)
    ensures resolved.Sequential? <==> RunsSequentially(mode, toolMode, calls)
    ensures !resolved.Unspecified?
  {
    resolved := if mode.Unspecified? then Parallel else mode;
    for i := 0 to |calls|
      invariant forall k | 0 <= k < i :: toolMode(calls[k].name) != Some(Sequential)
    {
      if toolMode(calls[i].name) == Some(Sequential) {
        return Sequential;
      }
    }
  }

  /** A batch answers all its calls, unless it was cut short by a terminating tool or by cancellation. Each result
      reports what became of its call; the run is asked to terminate exactly when one of them asks. */
  method ExecuteToolCalls(calls: seq<Call>, mode: Mode, toolMode: string -> Option<Mode>, script: nat -> Script,
                          cancelled: nat -> bool, order: seq<nat>)
    returns (results: seq<Message>, terminate: bool, ghost flags: seq<bool>)
    requires CompletionOrder(order, |calls|)
    ensures CallFree(results) && |results| <= |calls| && |flags| == |results|
    ensures forall i | 0 <= i < |results| ::
              && results[i].ToolResultMessage?
              && results[i].toolCallId == calls[i].id && results[i].toolName == calls[i].name
    ensures forall i | 0 <= i < |results| ::
              BatchReports(calls, script, cancelled, RunsSequentially(mode, toolMode, calls), i, results[i], flags[i])
    ensures terminate <==> exists i | 0 <= i < |flags| :: flags[i]
    ensures RunsSequentially(mode, toolMode, calls) ==> forall i | 0 <= i < |flags| - 1 :: !flags[i]
    ensures |results| < |calls| ==>
              RunsSequentially(mode, toolMode, calls) && (terminate || cancelled(|results|))
  {
    var resolved := ResolveExecutionMode(mode, toolMode, calls);
    hide BatchReports, RunCount, Single, RunsSequentially;
    if resolved.Sequential? {
      results, terminate := ExecuteToolCallsSequential(calls, script, cancelled);
      flags := LastFlag(|results|, terminate);
    } else {
      var slots;
      slots, terminate := ExecuteToolCallsParallel(calls, script, cancelled, order);
      results := slots[..];
      flags := SlotFlags(calls, script, cancelled, |calls|);
    }
    forall i | 0 <= i < |results|
      ensures results[i].ToolResultMessage?
      ensures results[i].toolCallId == calls[i].id && results[i].toolName == calls[i].name
    {
      BatchReported(calls, script, cancelled, resolved.Sequential?, i, results[i], flags[i]);
    }
  }

  /** Only the last of a sequential batch asks to terminate, if any does. */
  ghost function LastFlag(n: nat, terminate: bool): (flags: seq<bool>)
    ensures |flags| == n && forall i | 0 <= i < n :: flags[i] == (terminate && i == n - 1)
  {
    seq(n, i => terminate && i == n - 1)
  }

  ghost function SlotFlags(calls: seq<Call>, script: nat -> Script, cancelled: nat -> bool, n: nat): (flags: seq<bool>)
    requires n <= |calls|
    ensures |flags| == n && forall i | 0 <= i < n :: flags[i] == Slot(calls, script, cancelled, i).1
  {
    if n == 0 then [] else SlotFlags(calls, script, cancelled, n - 1) + [Slot(calls, script, cancelled, n - 1).1]
  }

  /** Results with the ids of the calls, position by position, answer a turn. */
  lemma {:induction false} ResultsAnswer(content: seq<ContentBlock>, results: seq<Message>)
    requires |results| == |Calls(content)|
    requires forall i | 0 <= i < |results| :: results[i].ToolResultMessage?
               && results[i].toolCallId == Calls(content)[i].id
    ensures CallIds(content) <= ResultIds(results)
  {
    CallIdsMembers(content);
    forall id | id in CallIds(content)
      ensures id in ResultIds(results)
    {
      var i :| 0 <= i < |results| && Calls(content)[i].id == id;
      ResultIdsMember(results, i);
    }
  }
}
