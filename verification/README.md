# Verified model of a Go agent framework

This project models the state-changing core of the framework in Dafny and proves what that core is for:
how a conversation history is rewritten for another provider, how provider deltas become a bracketed event
protocol and are folded back into a message, how the agent loop runs tools and recovers from context overflow,
how a turn is driven through its states, how plugins and containers live and die, how JSON-RPC responses find
their callers, how a session log is replayed, how a compaction is planned, and how a scene file is read and
written. `dafny verify dfyconfig.toml` checks everything.

Code that works by changing things is a method or a class with the loops of the original, proved against a
specification function or predicate; what the code promises is then proved about that specification. What lies
outside (models, tools, hooks, clocks, contexts, stores) is a function of a clock that advances at every
consultation, so that every statement holds for every behaviour of the outside world. A concurrent component is a
transition system over its atomic steps, and its statements hold for every interleaving.

## Modules

* `Transform`, `TransformTheorems`, `TransformMeaning`: the passes of `TransformMessages`. The loops are proved equal to a
  specification in three steps (downgrade images, rewrite each kept message alone, complete the turns). On it:
  idempotence for every idempotent normalizer, and failure of idempotence for every other; every call answered
  before the next assistant message; acceptable ids; a result that shares an id with a cross-model call
  is itself kept and shares the new one; nothing is inserted but results for calls that no kept result answers.
  `TransformMeaning` says what the output holds of every message without naming the specification: a turn of another
  model arrives with all its text and legible thinking, its calls and nothing signed.
* `Bridge`, `BridgeGrammar`, `BridgeMeaning`: the provider bridge as a transducer with its mutable locals, proved equal
  to a direct reading of the provider's events; an independent recogniser of the bracketed protocol accepts whatever it
  delivers, and what is delivered and completed is what the provider sent, said of its events alone.
* `Assembly`, `AssemblyTheorems`: the engine's fold with its in-place block helpers. Its live message agrees with
  the bridge's partial message in text and thinking always, and in calls exactly when no repeated id carries arguments.
* `Compaction`, `History`, `Tools`, `AgentLoop`: compactors, interrupted histories, both tool-execution modes and the
  nested loops with overflow recovery. Whatever the compactor does, every history sent to the model is answered exactly
  when no compaction has broken an answered history, and so is what it is shown of it. Chains of windows never break a
  history in which every call is answered after it, nor do summarizer chains such as the application's behind a first
  message without calls. A record of the rounds says what each did and why the run went on or ended, and every tool
  result reports what became of its call. The number of model calls is bounded, and every retry is strictly
  shorter and ends with the messages that all strategies keep.
* `TurnMachine`: handlers, driver, approval gate and persistence. The histories sent to the model answer
  every call of the run exactly when approval was never asked of a call with others behind it. The trace of a run says
  what every handler did, and every error it ends with has a named cause.
* `Fiber`, `Containers`: the plugin life cycle under every interleaving, and disposal of a whole
  tree of containers in LIFO order with every held disposer called exactly once.
* `JsonRpc`: callers, pending map and reader under every interleaving (JSON-RPC 2.0, sections 4 and 5). For a given
  sequence of responses no schedule stops the reader exactly when no drawable id is answered twice.
* `Session`: paths in the entry tree, and replay against a direct account of which rows survive and where they stand.
* `CompactionPlanning`: the binary search, its exact success condition, and the token estimate.
* `Scene`: parser, printer and the store's touch. A scene survives printing and parsing exactly when it is clean, and
  everything the parser yields is clean.
* `Messages`, `Text`, `Wrappers`: shared values.

## Where the code differs from what it says

* `crux-turn/states.go:122-134` says that approval of the last of N calls drops the earlier ones. The earlier ones have
  run by then; it is the calls *after* the gated one that are dropped, because the pending list becomes that one call
  (`states.go:268`). The model follows the code; `TurnMachine.EarlyApprovalLosesTheRest` is a run that shows it, and
  approval of the last pending call is proved harmless.
* `TransformMessages` is idempotent exactly for idempotent normalizers; the default one is.
* The engine's live message and the bridge's partial message differ when two calls share an id and the later one
  has arguments: the engine gives them to the first call. `AssemblyTheorems.LiveAgreement` is an if-and-only-if.
* `PlanCompaction` with an empty history, a negative minimum and an empty rest that is over budget slices out of range.
  With one message and a minimum of at most one, the clamped minimum is 0 and the plan may keep nothing.
* Follow-up messages are reached only after an inner loop has used all 50 rounds (`agent-engine/engine/loop.go:79-85`).
* `SlideWindow` keeps the last N messages only; nothing at the front is kept.
* `LLMSummarize` keeps a first message that is not a user's, but not the results of its calls
  (`agent-engine/defaults/compaction.go:112-141`): an answered history can lose an answer. `History.SummaryKeepsAnswered`
  gives the exact condition, `History.SummaryOrphansACall` a history.
* `PluginFiber.Reload` does not advance the epoch by itself; it takes the one it is given. A loader that returns a
  disposer together with an error loses the disposer.
* One duplicate response and a cancellation can stop the JSON-RPC reader for good; `JsonRpc.RoomExactlyWithoutDuplicates`
  says for which responses.
* Session replay needs no distinct ids for its account to hold.

## Model

| member | source | states |
|---|---|---|
| Transform.DefaultNormalize | crux-ai/core/transform.go:70-83 | an empty id and one of at most 64 safe characters stay; any other becomes `tc_` and 32 digits of its digest, which is acceptable again |
| Transform.DefaultNormalizerIdempotent | crux-ai/core/transform.go:70-83 | the default normalizer meets the hypothesis of the idempotence theorem |
| Transform.WithoutImagesMeaning | crux-ai/core/transform.go:99-117 | no image is left, a list without images is unchanged, and runs of images and placeholders stay between the same other blocks |
| Transform.ReplaceImagesWithPlaceholder | crux-ai/core/transform.go:99-117 | the loop yields one placeholder per run of images, none after a text that already reads like it |
| Transform.DowngradeUnsupportedImages | crux-ai/core/transform.go:122-142 | user and tool-result images go when the model has no vision; everything else stays |
| Transform.BuildIdMap | crux-ai/core/transform.go:165-180 | the map holds exactly the changed ids of kept cross-model turns, each with its normalized form |
| Transform.RewriteContent | crux-ai/core/transform.go:213-256 | the block loop does what the block-wise rewriting says: thinking, text, signatures, call ids |
| Transform.FlushPending | crux-ai/core/transform.go:186-202 | appends one error result per pending call whose id has no result, in order, stamped by the clock |
| Transform.TransformMessages | crux-ai/core/transform.go:155-283 | the two imperative passes with the deferred flush equal the three-step specification on every history |
| TransformTheorems.Idempotent | crux-ai/core/transform.go:155-283 | for every history, model, clock and idempotent normalizer, transforming the output again changes nothing |
| TransformTheorems.IdempotenceNeedsIdempotentNormalizer | crux-ai/core/transform.go:155-283 | for any id on which a normalizer is not idempotent, a one-call history is a counterexample |
| TransformTheorems.EveryCallAnswered | crux-ai/core/transform.go:186-202 | every call of the output has a result with its id before the next assistant message or the end |
| TransformTheorems.CrossIdsAcceptable | crux-ai/core/transform.go:70-83 | with the default normalizer every cross-model call id of the output is empty or at most 64 safe characters |
| TransformTheorems.SharedIdSurvives | crux-ai/core/transform.go:162-180 | a call of a kept cross-model turn and a result of the history with its id: the output holds that turn and that very result, with the same new id, otherwise as they were rewritten, and in the order in which they stood |
| TransformTheorems.OutputIsRewrittenHistory | crux-ai/core/transform.go:182-283 | the output is the kept messages of the history, in order, each rewritten on its own, and between them error results: per turn at most one for each of its calls, in their order, with id, name and fixed text, and only for calls that no kept result of that turn answers |
| TransformMeaning.OutputCarriesHistory | crux-ai/core/transform.go:155-283 | said of the history alone: which messages are replayed, in order; what becomes of a user message, a result and a turn by kind, writer and vision: texts, thinking, signatures, calls, images, ids, flags and times |
| TransformMeaning.CrossTurnCarried | crux-ai/core/transform.go:204-256 | a replayed turn of another model: its text blocks are its text and its legible thinking in order; no thinking and no signature is left; the calls are the same in number, order, name and arguments, with normalized ids; all other blocks and fields are unchanged |
| TransformMeaning.RewritingCarries | crux-ai/core/transform.go:213-256 | block by block and in order: for the model that wrote the turn every block stays but blank, unsigned, open thinking; for another one encrypted and blank thinking go and every other block becomes what the rules say |
| TransformMeaning.ImagesAreReplaced | crux-ai/core/transform.go:99-117 | every block but the images stays in its place; an image leaves a placeholder unless an image or a placeholder stands before it |
| Bridge.EventStream.Push | crux-ai/core/events.go:48-66 | appends to the accepted events unless the stream is closed |
| Bridge.EventStream.End | crux-ai/core/events.go:91-105 | closes the stream; only the first close sets the result |
| Bridge.EventStream.Error | crux-ai/core/events.go:108-122 | closes the stream; only the first close sets the error |
| Bridge.Canonicalizer.EndActiveBlock | crux-ai/core/provider_events.go:382-402 | emits the end of the active block with its text and signature, and nothing if none is active |
| Bridge.Canonicalizer.OnTextDelta | crux-ai/core/provider_events.go:254-273 | closes a block of another kind, opens a text block if needed, grows it and reports the delta |
| Bridge.Canonicalizer.OnThinkingDelta | crux-ai/core/provider_events.go:275-294 | the same for thinking |
| Bridge.Canonicalizer.OnToolCall | crux-ai/core/provider_events.go:296-321 | closes the active block and emits a complete call block |
| Bridge.Canonicalizer.OnBlockStop | crux-ai/core/provider_events.go:249-252 | signs and closes the active block |
| Bridge.Canonicalizer.OnResponseEnd | crux-ai/core/provider_events.go:323-348 | closes the active block, completes the message and ends the stream with it; frozen if already terminal |
| Bridge.Canonicalizer.Step | crux-ai/core/provider_events.go:201-362 | one provider event moves the locals as the reading moves, and a terminal one delivers exactly what the reference says |
| Bridge.CanonicalizeProviderStream | crux-ai/core/provider_events.go:175-373 | accepted events, result and error are those of the reference reading, for every event sequence and ending |
| BridgeGrammar.DeliversTheProtocol | crux-ai/core/provider_events.go:201-373 | an optional start, blocks 0, 1, 2, … whose ends repeat their deltas, exactly one terminal at the end; only an error leaves a block open; terminal and outcome agree |
| BridgeMeaning.DeliveryIsTold | crux-ai/core/provider_events.go:201-373 | what each provider event adds to the delivery, said of the events before it: the start, the pieces, when a block opens and ends, and the signature of its end (text for text, thinking for thinking); then the terminal event and the outcome |
| BridgeMeaning.HeardAsSaid | crux-ai/core/provider_events.go:249-321 | in every delivery the text deltas, thinking deltas, call starts and call ends are those the provider sent before its first terminal event, each as what it is and in order |
| BridgeMeaning.CompletedMessage | crux-ai/core/provider_events.go:323-348 | the completed message holds all the streamed text, thinking and calls, block by block as delivered, or the provider's own content when nothing was streamed; origin, stop reason and all other fields are said |
| BridgeMeaning.FinalFields | crux-ai/core/provider_events.go:447-466 | calls stop for tool use whatever the provider says; otherwise its reason decides between tool use, length, error and plain stop |
| Assembly.Assembler.AppendOrUpdateText | agent-engine/engine/loop.go:305-313 | grows the last text block, or appends one |
| Assembly.Assembler.AppendOrUpdateThinking | agent-engine/engine/loop.go:315-326 | grows the last thinking block, or appends one |
| Assembly.Assembler.UpdateToolCallArgs | agent-engine/engine/loop.go:328-340 | grows the arguments of the first call with the id |
| Assembly.Assembler.FinalizeToolCallArgs | agent-engine/engine/loop.go:342-355 | sets the arguments of the first call with the id |
| Assembly.Assembler.ApplyAssistantEvent | agent-engine/engine/loop.go:271-303 | one event changes the message as the fold says |
| Assembly.FirstBlockChanges | agent-engine/engine/loop.go:328-378 | signatures go to the first block of their kind, arguments to the first call with their id, nothing else changes; without such a block, or with an empty signature or final argument text, nothing changes at all |
| Assembly.ConsumeStreamEvents | agent-engine/engine/loop.go:253-269 | the loop over the stream computes the fold |
| AssemblyTheorems.LiveAgreement | agent-engine/engine/loop.go:271-355 | after any provider prefix text and thinking agree with the bridge; calls agree exactly when no repeated id carries arguments |
| AssemblyTheorems.DistinctIdsAgree | agent-engine/engine/loop.go:328-355 | distinct call ids meet that condition |
| AssemblyTheorems.DoneAgreement | crux-ai/core/provider_events.go:323-348 | when the response completes, the folded message is the stream's result |
| Compaction.CompactOne | agent-engine/defaults/compaction.go:54-142 | both strategies with their defaults, early exits and error text |
| Compaction.WindowDropsFront | agent-engine/defaults/compaction.go:54-61 | a window drops messages from the front until its size is left |
| Compaction.SummaryStandsFor | agent-engine/defaults/compaction.go:95-142 | what stays in front, what the summarizer is given and what stays behind make up the history; the defaults, the early exits, and the count when there is no summarizer |
| Compaction.ChainedCompact | agent-engine/defaults/compaction.go:155-171 | the first strategy that changes something or fails decides |
| Compaction.ChainKeepsTail | agent-engine/defaults/compaction.go:54-171 | the last messages every strategy keeps stay last; the history never grows, and windows shorten what they change |
| History.AppendInterruptedToolResults | agent-engine/engine/agent.go:238-268 | appends one interruption result per unanswered id, in the order of the first calls |
| History.StubsReport | agent-engine/engine/agent.go:252-264 | each appended result is an error result with the id and name of the first call with its id, which no result answers, in the order of the calls |
| History.InterruptedHistoryAnswered | agent-engine/engine/agent.go:238-268 | the result is answered; nothing is appended exactly when it already was; no id is answered again or twice |
| History.InterruptedHistoryAnsweredLater | agent-engine/engine/agent.go:238-268 | every call is answered after it exactly when no result came before its call |
| History.SummaryKeepsAnswered | agent-engine/defaults/compaction.go:95-142 | a summary keeps an answered history answered exactly when the first message it keeps, if any, is answered by the last ones it keeps |
| History.ChainKeepsAnswered | agent-engine/defaults/compaction.go:155-171 | a chain keeps an answered history answered exactly when a window decides or the summary that decides meets that condition |
| History.SummaryOrphansACall | agent-engine/defaults/compaction.go:112-141 | an answered history, for every call id, whose summary keeps the call and drops the result |
| History.ShadowedChainKeepsSafeHead | agent-engine/defaults/compaction.go:155-171 | when every window stands behind an earlier summarizer, an answered history behind a call-free first message stays so |
| Tools.ExecuteToolCallsSequential | agent-engine/engine/tools.go:43-59 | results of the calls up to the first terminating one or the first cancellation, each reporting what became of its call, and why it stopped |
| Tools.ExecuteToolCallsParallel | agent-engine/engine/tools.go:63-109 | for every completion order slot i reports what became of call i, or its cancellation, and termination is the disjunction |
| Tools.ResolveExecutionMode | agent-engine/engine/tools.go:28-41 | sequential exactly when configured so or when a called tool asks for it |
| Tools.ExecuteToolCalls | agent-engine/engine/tools.go:18-26 | each result reports what became of its call: the tool's own content and flag, an unknown tool, a veto or an error by name, a panic as an error that does not terminate, and what the hook after it replaces; the run is asked to terminate exactly when a result asks; a batch is cut short only sequentially, by a terminating tool or by cancellation |
| Tools.SingleIsReported | agent-engine/engine/tools.go:113-217 | the single-call pipeline produces what such a report says, for every combination of lookup, hooks, outcome and panic |
| Tools.ReturnedIsReported | agent-engine/engine/tools.go:151-190 | a tool that is found, passes, returns and is kept is reported with its own content and error flag, and terminates the run exactly when it asks |
| Tools.ResultsAnswer | agent-engine/engine/tools.go:43-109 | results with the calls' ids answer the turn |
| AgentLoop.Run.RetryOnce | agent-engine/engine/stream.go:116-166 | one pass of the retry loop gives up or asks again, with a strictly shorter history that ends with the kept messages |
| AgentLoop.Run.RetryWithCompaction | agent-engine/engine/stream.go:100-171 | with any compactor: at most the configured retries, each with what the compactor made of the history before it, strictly shorter and ending with the kept last messages of the history that overflowed; they follow overflows only and end with an answer, a failure or for want of retries |
| AgentLoop.Run.StreamAssistantResponse | agent-engine/engine/stream.go:27-97 | pre-call compaction, one model call and at most the configured retries; what was sent is answered exactly when no compaction broke it |
| AgentLoop.Run.DispatchTools | agent-engine/engine/loop.go:124-136 | after the batch the history is answered unless the run is over |
| AgentLoop.Run.RunTurn | agent-engine/engine/loop.go:99-162 | one round: steering, the model with its retries, the batch, the stop hook; it goes on exactly when none of the five reasons holds (model failed, reply failed or aborted, batch terminated, hook fired, neither calls nor steering); what it leaves is the last history sent, the reply and the results; the history stays answered while the run goes on, unless a compaction has broken it |
| AgentLoop.Run.RunInnerLoop | agent-engine/engine/loop.go:99-162 | at most 50 recorded rounds, each beginning with the history and the invocation the one before it left off with; it stops only for the reason of its last round, for cancellation, or after all 50; without compaction histories only grow |
| AgentLoop.Run.InjectFollowUpMessages | agent-engine/engine/loop.go:192-200 | the next non-empty batch is appended, whole and once |
| AgentLoop.Run.RunLoop | agent-engine/engine/loop.go:69-95 | with any compactor every history sent in the whole run is answered exactly when no compaction broke an answered one, and what the model is shown is answered accordingly; the record of all rounds and why the run is over; at most 50·(1+F)·(1+R) model calls, and at least 50 per follow-up batch; without a compactor the batches stand in the history whole and in order |
| AgentLoop.NextHistory | agent-engine/engine/loop.go:99-162 | without a compactor the history sent after a round is the last one sent, the reply, all results of its calls and the queued steering |
| AgentLoop.ForLlmShows | agent-engine/engine/types.go:363-372 | the model is shown every user, assistant and result message, once and in order, and no other |
| AgentLoop.ForLlmKeepsAnswered | agent-engine/engine/loop.go:209-214 | what the model is shown of a history is answered, in either sense, exactly when the history is |
| AgentLoop.WindowChainKeeps | agent-engine/defaults/compaction.go:54-61 | a chain of windows never breaks a history in which every call is answered after it |
| AgentLoop.WindowOrphansACall | agent-engine/defaults/compaction.go:54-61 | a history, for every call id, that is answered only before its call and that a window breaks |
| AgentLoop.SummarizerChainKeeps | agent-engine/defaults/compaction.go:95-171 | a chain whose windows stand behind summarizers never breaks an answered history behind a call-free first message |
| AgentLoop.ChainTailKept | agent-engine/defaults/compaction.go:54-171 | every stock chain meets the loop's assumption that the last messages all strategies keep stay last |
| AgentLoop.ApplicationChainFits | chat-app/app.go:1778-1797 | the application's chain, whatever the summarizer answers, never breaks a history behind a call-free first message and keeps the last 8 messages |
| TurnMachine.VerdictIs | crux-turn/states.go:197-233 | a call runs, with the id and content its executor produced, exactly when the dispatcher allows it or, without one, the tool function returns; it waits exactly when approval is asked; otherwise it fails the turn |
| TurnMachine.FailsForACause | crux-turn/states.go:57-296 | a handler fails exactly for a named cause: an unexpected event, no model function, a failed or panicking model call or callback, a pending call that neither runs nor waits or whose approval panics, a denial or abort, an unrecorded or unfound call |
| TurnMachine.LatestCallFinds | crux-turn/states.go:257-275 | the search succeeds exactly when some assistant message asked for a call with the id |
| TurnMachine.Machine.HandleStreaming | crux-turn/states.go:82-118 | one model call per round while rounds are left; what becomes of the reply; the transcript invariant is kept |
| TurnMachine.Machine.HandleDispatching | crux-turn/states.go:135-185 | the calls before the first that is not allowed have run, in order, and are recorded as run; then steering, the gate or failure; calls are lost exactly when the gated one is not the last |
| TurnMachine.Machine.FindCall | crux-turn/states.go:257-275 | the backward search finds the call in the latest assistant message that has the id |
| TurnMachine.Machine.HandleAwaitingApproval | crux-turn/states.go:242-284 | succeeds exactly on an approval whose recorded call is found; the placeholder is gone and that call alone is pending |
| TurnMachine.SteeringAnticipatesStreaming | crux-turn/states.go:287-294 | the steering handler ends a turn exactly where the streaming handler, entered instead, would end it without asking the model |
| TurnMachine.Machine.Invoke | crux-turn/turn.go:401-417 | every handler takes only the drawn transitions and keeps the transcript invariant; a panic is a handler error |
| TurnMachine.Machine.Transition | crux-turn/turn.go:299-329 | the store holds the turn before and, unless the save fails, after each handler; it fails with the handler's error exactly when the handler has a cause to fail, and otherwise with a failed save exactly when the save fails |
| TurnMachine.Machine.WaitForTrigger | crux-turn/turn.go:357-376 | creates the turn's channel and takes the next event, or reports cancellation |
| TurnMachine.Machine.Drive | crux-turn/turn.go:279-354 | terminates by rounds left, events left and state rank; the whole trace of handlers, each begun with the turn, event and time the one before it left, and how the last one ended the run; every history sent is answered exactly when nothing was lost; no failed save is reported when all saves succeed |
| TurnMachine.Machine.RunUntilBlock | crux-turn/turn.go:279-354 | the same, and the trigger channel is gone on every return |
| TurnMachine.Machine.Start | crux-turn/turn.go:213-236 | from a fresh turn: at most MaxRounds − Round model calls, Failed carries the error, histories answer every call of the run exactly when nothing was lost; the trace from the saved turn on; with saves succeeding and replies without calls it ends completed after exactly one model call |
| TurnMachine.Machine.Resume | crux-turn/turn.go:239-252 | a turn that cannot be loaded or is terminal is refused; a stored one continues, on its own copy, with all the guarantees of the driver |
| TurnMachine.ErrorsHaveCauses | crux-turn/turn.go:299-329 | a run that reports a failed handler ended with a step that had a cause to fail, and one that reports a failed save ended with a failing save |
| TurnMachine.AnsweredAtOnce | crux-turn/turn.go:279-354 | a fresh turn with rounds left takes exactly three steps to Completed when saves succeed and the reply has no calls |
| TurnMachine.ReplyOpensRound | crux-turn/states.go:98-115 | a reply to an answered transcript leaves exactly its calls pending |
| TurnMachine.ResultsAdvance | crux-turn/states.go:141-179 | each allowed result shortens the pending list by its call |
| TurnMachine.FindsGatedCall | crux-turn/states.go:257-275 | with distinct ids the search after an approval finds the very call the placeholder stood for |
| TurnMachine.DispatchLoses | crux-turn/states.go:147-174 | once a call is dropped, its answer is missing and cannot come any more |
| TurnMachine.LostMeansUnanswered | crux-turn/states.go:147-174 | a history sent after a loss does not answer every call |
| TurnMachine.EarlyApprovalLosesTheRest | crux-turn/states.go:122-174 | a whole trace from a fresh turn: two calls, approval of the first drops the second, and the history of the next model call does not answer it |
| Fiber.PluginFiber.BeginLoad | crux-kernel/fiber/fiber.go:116-127 | only from pending or failed: to loading, with the error cleared; otherwise refused with nothing changed |
| Fiber.PluginFiber.EndLoad | crux-kernel/fiber/fiber.go:128-139 | an error leads to failed and drops whatever came with it; success leads to active with the loader's disposer |
| Fiber.PluginFiber.Dispose | crux-kernel/fiber/fiber.go:143-159 | calls the held disposer once, or refuses, or does nothing when disposed |
| Fiber.PluginFiber.BeginReload | crux-kernel/fiber/fiber.go:166-202 | rejected unless active or failed, skipped for the epoch it has unless given a configuration; otherwise takes over what it is given, takes the disposer and goes back to pending |
| Fiber.PluginFiber.Reload | crux-kernel/fiber/fiber.go:166-215 | an undisturbed reload runs the old disposer before the new loader, takes over the given loader, configuration and epoch, ends active with the new disposer or failed with the error, and reports both errors |
| Fiber.StepKeepsInv | crux-kernel/fiber/fiber.go:116-215 | every atomic step of every goroutine keeps the invariant |
| Fiber.EveryInterleaving | crux-kernel/fiber/fiber.go:116-215 | at most one loader in flight, and only in state loading; a held disposer means active; every disposer made is run, in hand, held or dropped with an error, exactly once |
| Fiber.DisposedForGood | crux-kernel/fiber/fiber.go:143-159 | after disposal no step changes the fiber and no loader runs |
| Fiber.NothingLeaks | crux-kernel/fiber/fiber.go:116-215 | when all goroutines have returned and the fiber is not active, every disposer has been run once or dropped with an error |
| Fiber.OnlyFailedLoadsDrop | crux-kernel/fiber/fiber.go:128-139 | a run drops nothing exactly when no loader in it does that |
| Containers.Container.Isolate | crux-kernel/container/container.go:291-312 | one child per name, created on first use, none from a disposed container; the tree stays well formed |
| Containers.Container.BeginPlugin | crux-kernel/container/container.go:216-232 | a new name is registered last and its fiber is loading in a well-formed tree, which the plugin function may use; a taken name or a disposed container yields a failed fiber and no change |
| Containers.Container.PluginWithConfig | crux-kernel/container/container.go:216-257 | the same, and the load completed |
| Containers.Container.Get | crux-kernel/container/container.go:140-170 | the service of the nearest ancestor that has one, unless a disposed container comes first |
| Containers.Container.DisposePlugins | crux-kernel/container/container.go:386-396 | the container's plugins are disposed from the last registered to the first |
| Containers.Container.DisposeChildren | crux-kernel/container/container.go:379-384 | whatever order the map yields, all children are disposed, each subtree on its own |
| Containers.Container.Dispose | crux-kernel/container/container.go:357-402 | exactly the tree below is disposed; each held disposer is called; no ancestor's plugin goes first and plugins of one container go in reverse order; an error exactly when a disposer fails; a second call does nothing |
| Containers.EachOnce | crux-kernel/container/container.go:386-396 | no disposer is called twice |
| JsonRpc.StepKeepsInv | crux-plugin/process.go:137-318 | every atomic step of callers, reader and Stop keeps the invariant |
| JsonRpc.DistinctIds | crux-plugin/process.go:138 | request ids are pairwise distinct |
| JsonRpc.PendingIsInside | crux-plugin/process.go:145-158 | the pending map holds exactly the registered calls that have not returned |
| JsonRpc.OwnResponseOnly | crux-plugin/process.go:175-184 | a delivered response bears its caller's id, and none is delivered to two callers |
| JsonRpc.DeliveredWasRead | crux-plugin/process.go:304-318 | what a caller is given is, body included, a response that the plugin sent while that id was pending |
| JsonRpc.MatchedOnce | crux-plugin/process.go:304-318 | every matched response is in the reader's hand, in one channel or delivered, exactly once |
| JsonRpc.UndisturbedCall | crux-plugin/process.go:137-184 | from any state, a call whose response comes back before anything else happens returns that response and leaves nothing pending; on a stopped process it is refused |
| JsonRpc.OutcomesTell | crux-plugin/process.go:137-184 | what a call returns tells what happened to it: a failed write, a cancellation, a bad request, a stopped process, or a response received after a successful write |
| JsonRpc.StoppedAdmitsNobody | crux-plugin/process.go:145-152 | once the process has been stopped no call is registered any more |
| JsonRpc.ReaderNeverBlocks | crux-plugin/process.go:310-317 | with at most one response per id that can be drawn the reader always finds room |
| JsonRpc.StuckForGood | crux-plugin/process.go:310-317 | a reader waiting on a caller that has left waits for ever |
| JsonRpc.DuplicateStopsTheReader | crux-plugin/process.go:310-317 | for every number of callers and every sequence of responses that answers a drawable id twice, a schedule that stops the reader |
| JsonRpc.RoomExactlyWithoutDuplicates | crux-plugin/process.go:310-317 | for every sequence of responses all schedules leave the reader room, and none stops it, exactly when no drawable id is answered twice |
| JsonRpc.Process.DrawId | crux-plugin/process.go:138-143 | the id counter step; an id is spent even when the request cannot be encoded |
| JsonRpc.Process.AddPending | crux-plugin/process.go:145-152 | registration under the lock, refused when not running |
| JsonRpc.Process.Await | crux-plugin/process.go:175-184 | a response is taken out of the channel, or the call leaves cancelled with the channel as it is |
| JsonRpc.Process.DropPending | crux-plugin/process.go:154-158 | on every way out after registration the caller's own id leaves the pending map |
| JsonRpc.Process.Lookup | crux-plugin/process.go:310-317 | the reader's lookup; an unknown id changes nothing |
| JsonRpc.Process.Deliver | crux-plugin/process.go:313-315 | the response goes to the channel found at the lookup, even if that caller has left |
| JsonRpc.Process.Interleave | crux-plugin/process.go:137-318 | any schedule of the critical sections on the object is a run of the model: distinct ids, to each caller a response sent for its id or none, and no response to two callers |
| Session.PathToEntry | agent-engine/defaults/session.go:111-145 | terminates on every graph; succeeds exactly when ids are distinct and the parents of the leaf reach a root; the path runs from root to leaf without repetition; which error means what |
| Session.Climb | agent-engine/defaults/session.go:123-138 | the parent loop fails only when no number of steps reaches a root |
| Session.CycleHasNoRoot | agent-engine/defaults/session.go:128-131 | on a cycle no number of steps reaches a root |
| Session.Reverse | agent-engine/defaults/session.go:140-143 | the swap loop reverses the path |
| Session.ReplayEntries | agent-engine/defaults/session.go:182-262 | the messages are exactly the surviving entries, ordered by place, each shown as its own message or as a user message with the text of its summary, and the settings are the last ones set |
| Session.RowShows | agent-engine/defaults/session.go:192-248 | exactly the entries with a message, branch summaries and compactions make a row, and what that row shows |
| Session.CompactRows | agent-engine/defaults/session.go:215-245 | one compaction turns the conversation before it into the conversation after it |
| Session.PlaceOfFirstHit | agent-engine/defaults/session.go:226-236 | the summary stands where the first replaced row stood |
| Session.PlaceWithoutHit | agent-engine/defaults/session.go:239-244 | a compaction that replaces nothing puts its summary at the end |
| Session.OneConversation | agent-engine/defaults/session.go:182-262 | the direct account has exactly one solution |
| Session.LogOrderKept | agent-engine/defaults/session.go:182-262 | surviving messages and branch summaries keep their log order |
| CompactionPlanning.FindSplit | crux-ai/core/compaction.go:109-124 | the search ends at a split that fits, or the last one, whose predecessor does not fit; the least one when the counter is suffix-antitone |
| CompactionPlanning.PlanCompaction | crux-ai/core/compaction.go:76-148 | a plan exists exactly when compaction is needed (one named exception); parts concatenate, the minimum is kept, the split is the least that fits, the clamps do nothing |
| CompactionPlanning.EstimateTokens | crux-ai/core/overflow.go:232-248 | the loops compute the total over prompt, messages and tools, in UTF-8 bytes |
| CompactionPlanning.EstimateMessage | crux-ai/core/overflow.go:250-277 | the block loop computes the total of one message, by its kind |
| CompactionPlanning.MessageInBytes | crux-ai/core/overflow.go:250-292 | for each kind of message, four times the estimate is at least its bytes (images at a fixed size, calls with 16 more) and exceeds them by at most three per block |
| CompactionPlanning.EstimateInBytes | crux-ai/core/overflow.go:232-292 | the same bound for a whole context: prompt, messages and tools |
| CompactionPlanning.EstimateIsSuffixAntitone | crux-ai/core/overflow.go:232-292 | dropping messages from the front never raises the estimate |
| Scene.AtoiReadsItoa | crux-memory/l2/scene.go:139-142 | every 64-bit integer reads back from its decimal form |
| Scene.AtoiIs | crux-memory/l2/scene.go:139-142 | a signed digit string gives its value as far as 64 bits hold it, digits beyond them decide at once, and everything else reads as 0 |
| Scene.TrimWithin | crux-memory/l2/scene.go:129-137 | trimming cuts off blanks only and leaves no space at either end |
| Scene.ParsedIsClean | crux-memory/l2/scene.go:92-114 | whatever the parser yields has trimmed one-line fields without the end marker, a 64-bit heat and trimmed content |
| Scene.ContentIsText | crux-memory/l2/scene.go:92-114 | the content is all the text, or all of it behind the first end marker, but for outer blanks; without both markers in order there are no fields |
| Scene.FieldIsFirst | crux-memory/l2/scene.go:129-137 | a field is what follows its key in the first line that starts with it |
| Scene.EndMarkerFound | crux-memory/l2/scene.go:117-127 | in a printed clean scene the first end marker is the printed one |
| Scene.FieldsReadBack | crux-memory/l2/scene.go:129-137 | each printed field is extracted as it was |
| Scene.RoundTrip | crux-memory/l2/scene.go:92-127 | parsing a printed scene gives it back exactly when it is clean |
| Scene.ParseIsStable | crux-memory/l2/scene.go:92-127 | printing and parsing what was parsed changes nothing, for every text whose markers do not overlap |
| Scene.Store.Touch | crux-memory/l2/scene.go:145-153 | reading after a touch shows one more heat (wrapping at 64 bits), the new date and nothing else changed; other files stay |

## Left out

- HTTP, server-sent events, subprocesses, files, terminals, provider adapters, user interfaces and command lines.
- JSON encoding of sessions and messages, and session migrations: entries and messages are datatypes; no persisted round trip is claimed.
- Strings are sequences of Unicode characters; where the program measures bytes (token estimate, id length) the model counts the bytes of their UTF-8 form. Text that is not valid UTF-8 is not modelled. SHA-256 is an uninterpreted function with 64 hexadecimal characters, of which the normalizer takes 32.
- Type tags, roles, usage and cost, and most timestamps; synthetic results and user-visible results that the engine stamps with the current time have time 0 or a clock parameter.
- Bridge.EventStream.Push: does not model a full buffer or an external stop. Event streams are a FIFO of accepted pushes with one producer, no external stop and a consumer that keeps up, so no push is dropped for a full buffer. `copyReplayMetadata` writes only to copies and is left out.
- Slices are values: aliasing between the engine's message and the copies it sends as updates is not modelled.
- Floating-point ratios are reals, so rounding in the threshold comparison is not modelled.
- AgentLoop.Run.RunLoop: assumes that injected messages carry no calls (for what it says about answers) and that no hook rewrites the history: context transformation and custom conversion are absent. With a compactor, injected batches may be compacted away. That a run starts from an answered history is the caller's part, as an interrupted run's results provide.
- AgentLoop.Run.RetryWithCompaction: how many last messages every compaction keeps is a parameter, 0 for an arbitrary compactor; `ChainTailKept` gives the number for every stock chain.
- Compaction.CompactOne: the summarizing strategy stores its default limits back into its own fields; here they are defaults of each call.
- AgentLoop.Run.RunTurn: does not model the `PrepareNextTurn` hook as such. The oracles depend on the clock, so that steering, stop hooks, tools, execution mode and the compactor's answers may change between rounds, but whether there is a compactor, how many retries it gets and the queue of follow-ups are fixed for a run.
- Loop events, hooks that only observe, tool progress updates and the pre-call token counter's value (an oracle decides whether the history is over budget).
- TurnMachine.Machine.Start: assumes replies with role assistant and distinct call ids, and results that bear the id of their call, for its statement about transcripts; the other statements hold without these. The saving context, timestamps and the metadata other than the awaited call id are left out.
- TurnMachine.Machine.Drive: requires one runner per turn, and the events that arrive are a finite sequence after which the context is cancelled; a turn that waits for ever is the limit of such runs. Pending values of a foreign type, custom handlers, a handler for `agent_running` (none is registered by default, so the run stops there) and the fallback to a global trigger are left out.
- Aliasing in the in-memory turn store, whose Load copies the struct only.
- Fiber.EveryInterleaving: a panic of a loader or of a disposer is not modelled. A disposer runs under the lock in Dispose and outside it in Reload, as in the code.
- Containers.Container.Dispose: requires that no load is in flight below the container, and that nobody else uses the tree meanwhile. The children are disposed in whatever order the map yields.
- Containers.Container.PluginWithConfig: has nothing between the begin and the end of the load; `BeginPlugin` leaves the tree in a state in which the plugin function may use it.
- Service registration by reflection, hot reload by name, and the event bus: table lookups without an invariant that spans them.
- JsonRpc.DistinctIds: the 64-bit request counter does not wrap. Restarting a stopped process, notifications to the host and the process itself are left out; a call made by Stop is a call like any other.
- Session.PathToEntry: which of two duplicate ids is reported is not stated.
- Session files, locking, id generation and the summary prefixes for agents.
- CompactionPlanning.PlanCompaction: error texts are constructors; building the compacted message list from a summary is left out.
- Scene.Store.Touch: the new date is assumed to be a clean field, as an RFC 3339 time is. File system errors other than a missing file, listing and buffered reading are left out. Where the markers overlap the parser slices out of range; the model says so by `None`.
- Approval lists, registries, the key-value memory, clamp helpers, retry backoff, checkpoints, prompt builders and keyword filters: each is a direct computation or a map of its own, independent of the components here.
