/** The agent loop with tool dispatch and overflow recovery (agent-engine/engine/loop.go, stream.go). */
module AgentLoop {
  import opened Wrappers
  import opened Messages
  import opened Compaction
  import opened History
  import opened Tools

  const MAX_AGENT_ROUNDS: nat := 50

  datatype LlmOutcome = Answer(turn: Assistant) | ContextOverflow(err: string) | LlmFailed(err: string)

  datatype Attempt = GaveUp(err: string) | Asked(outcome: LlmOutcome)

  /** Everything outside the loop, as functions of a clock that advances at every consultation. */
  datatype Env = Env(
    cancelled: nat -> bool,                       // ctx.Err() != nil
    llm: nat -> LlmOutcome,                       // one model invocation
    hasCompactor: bool,
    overBudget: nat -> bool,                      // the pre-call token check
    compact: (nat, seq<Message>) -> Compacted,    // the configured compactor
    overflowRetries: int,
    steering: nat -> seq<Message>,                // queued steering messages
    followUps: seq<seq<Message>>,                 // follow-up batches up to the first empty one
    shouldStop: nat -> bool,                      // ShouldStopAfterTurn
    mode: nat -> Mode, toolMode: nat -> string -> Option<Mode>,
    script: nat -> nat -> Script,                 // the calls of the batch that starts at a time
    order: (nat, nat) -> seq<nat>,                // completion order of a parallel batch
    delay: nat -> nat -> nat, span: nat -> nat    // when call i checks ctx, and how long the batch lasts
  ) {
    /** `retries` in `retryWithCompaction`. */
    function Retries(): nat {
      if overflowRetries <= 0 then 1 else overflowRetries
    }
  }

  /** Cancellation is final, batches complete, every compaction keeps the last `kept` messages (any does for
      `kept == 0`), and what is injected carries no calls if anything is claimed. Of the compactor's effect on
      answered histories nothing is assumed. */
  ghost predicate Sound(env: Env, form: Form, kept: nat) {
    && (forall s, t | s <= t && env.cancelled(s) :: env.cancelled(t))
    && (forall t, i :: env.delay(t)(i) <= env.span(t))
    && (forall t, n :: CompletionOrder(env.order(t, n), n))
    && (forall t :: Injectable(form, env.steering(t)))
    && (forall k | 0 <= k < |env.followUps| :: Injectable(form, env.followUps[k]) && env.followUps[k] != [])
    && (forall t, h :: TailKept(h, env.compact(t, h), kept))
  }

  ghost predicate Injectable(form: Form, batch: seq<Message>) {
    form.Unclaimed? || CallFree(batch)
  }

  ghost predicate TailKept(h: seq<Message>, c: Compacted, kept: nat) {
    c.Changed? ==> KeepsTail(h, c.messages, kept)
  }

  /** Every compaction of a history of the claimed form has that form again. */
  ghost predicate CompactorKeeps(env: Env, form: Form) {
    forall t, h :: FormKept(h, env.compact(t, h), form)
  }

  ghost predicate FormKept(h: seq<Message>, c: Compacted, form: Form) {
    c.Changed? && Closed(h, form) ==> Closed(c.messages, form)
  }

  lemma SoundCompaction(env: Env, form: Form, kept: nat, t: nat, h: seq<Message>)
    requires Sound(env, form, kept) && env.compact(t, h).Changed?
    ensures KeepsTail(h, env.compact(t, h).messages, kept)
    ensures CompactorKeeps(env, form) && Closed(h, form) ==> Closed(env.compact(t, h).messages, form)
  {
    assert TailKept(h, env.compact(t, h), kept);
    assert CompactorKeeps(env, form) ==> FormKept(h, env.compact(t, h), form);
  }

  lemma SoundOrder(env: Env, form: Form, kept: nat, t: nat, n: nat)
    requires Sound(env, form, kept)
    ensures CompletionOrder(env.order(t, n), n)
  {
  }

  /** Whether call `i` of the batch that starts at `t` finds the context cancelled. */
  function CancelledDuring(env: Env, t: nat): (cancelled: nat -> bool)
    ensures forall i :: cancelled(i) <==> env.cancelled(t + env.delay(t)(i))
  {
    (i: nat) => env.cancelled(t + env.delay(t)(i))
  }

  lemma CancelledAfter(env: Env, form: Form, kept: nat, t: nat, i: nat)
    requires Sound(env, form, kept) && CancelledDuring(env, t)(i)
    ensures env.cancelled(t + env.span(t))
  {
    assert env.delay(t)(i) <= env.span(t);
  }

  predicate AppendOnly(env: Env) {
    !env.hasCompactor
  }

  /** What the model is shown of a history. */
  function ForLlm(h: seq<Message>): seq<Message> {
    if h == [] then []
    else
      var m := h[|h| - 1];
      ForLlm(h[..|h| - 1]) + if m.UserMessage? || m.AssistantMessage? || m.ToolResultMessage? then [m] else []
  }

  /** Every model invocation saw a history of the claimed form. */
  ghost predicate SentClosed(sent: seq<seq<Message>>, form: Form) {
    forall k | 0 <= k < |sent| :: Closed(sent[k], form)
  }

  /** All histories sent have the claimed form exactly when no compaction has broken it. */
  ghost predicate Judged(sent: seq<seq<Message>>, form: Form, broken: bool) {
    SentClosed(sent, form) <==> !broken
  }

  lemma JudgeOneMore(sent: seq<seq<Message>>, form: Form, broken: bool, h: seq<Message>, broken': bool)
    requires Judged(sent, form, broken) && (broken ==> broken') && (broken' ==> broken || !Closed(h, form))
    requires !broken' ==> Closed(h, form)
    ensures Judged(sent + [h], form, broken')
  {
    hide Closed;
    assert forall k | 0 <= k < |sent| :: (sent + [h])[k] == sent[k];
    assert (sent + [h])[|sent|] == h;
    assert Closed((sent + [h])[|sent|], form) <==> Closed(h, form);
    if !SentClosed(sent, form) {
      var k :| 0 <= k < |sent| && !Closed(sent[k], form);
      assert !Closed((sent + [h])[k], form);
    }
  }

  /** History `k` is shorter than the one before it (`overflowed` before the first) and still ends with
      the last `kept` messages of `overflowed`. */
  ghost predicate ShorterAt(sent: seq<seq<Message>>, from: nat, overflowed: seq<Message>, kept: nat, k: nat)
    requires from <= k < |sent|
  {
    && |sent[k]| < (if k == from then |overflowed| else |sent[k - 1]|)
    && KeepsTail(overflowed, sent[k], kept)
  }

  ghost predicate ShorterAndShorter(sent: seq<seq<Message>>, from: nat, overflowed: seq<Message>, kept: nat) {
    forall k | from <= k < |sent| :: ShorterAt(sent, from, overflowed, kept, k)
  }

  lemma OneShorter(sent: seq<seq<Message>>, from: nat, overflowed: seq<Message>, kept: nat, out: seq<Message>)
    requires ShorterAndShorter(sent, from, overflowed, kept) && from <= |sent|
    requires |out| < (if from == |sent| then |overflowed| else |sent[|sent| - 1]|) && KeepsTail(overflowed, out, kept)
    ensures ShorterAndShorter(sent + [out], from, overflowed, kept)
  {
    hide KeepsTail;
    forall k | from <= k < |sent + [out]|
      ensures ShorterAt(sent + [out], from, overflowed, kept, k)
    {
      assert k < |sent| ==> ShorterAt(sent, from, overflowed, kept, k);
    }
  }

  lemma LastKeepsTail(sent: seq<seq<Message>>, from: nat, overflowed: seq<Message>, kept: nat)
    requires ShorterAndShorter(sent, from, overflowed, kept) && from < |sent|
    ensures KeepsTail(overflowed, sent[|sent| - 1], kept)
  {
    assert ShorterAt(sent, from, overflowed, kept, |sent| - 1);
  }

  /** All histories since `from` extend `first`, and `last` extends all of them. */
  ghost predicate Growing(sent: seq<seq<Message>>, from: nat, first: seq<Message>, last: seq<Message>) {
    first <= last && forall k | from <= k < |sent| :: first <= sent[k] <= last
  }

  /** The first `n` follow-up batches stand in the history, each whole and in order. */
  ghost predicate AllInjected(followUps: seq<seq<Message>>, n: nat, h: seq<Message>)
    requires n <= |followUps|
  {
    n > 0 ==> exists at: nat :: StandsAt(h, followUps[n - 1], at) && AllInjected(followUps, n - 1, h[..at])
  }

  predicate StandsAt(h: seq<Message>, batch: seq<Message>, at: nat) {
    at + |batch| <= |h| && h[at..at + |batch|] == batch
  }

  lemma InjectedNext(followUps: seq<seq<Message>>, n: nat, h: seq<Message>)
    requires n < |followUps| && AllInjected(followUps, n, h)
    ensures AllInjected(followUps, n + 1, h + followUps[n])
  {
    assert StandsAt(h + followUps[n], followUps[n], |h|) && (h + followUps[n])[..|h|] == h;
  }

  lemma InjectedStays(followUps: seq<seq<Message>>, n: nat, h: seq<Message>, h': seq<Message>)
    requires n <= |followUps| && h <= h' && AllInjected(followUps, n, h)
    ensures AllInjected(followUps, n, h')
  {
    if n > 0 {
      var at: nat :| StandsAt(h, followUps[n - 1], at) && AllInjected(followUps, n - 1, h[..at]);
      assert h'[..at] == h[..at] && StandsAt(h', followUps[n - 1], at);
    }
  }

  /** What `rounds` rounds of one call and `retries` retries can cost. */
  function CallBudget(rounds: nat, retries: nat): nat {
    if rounds == 0 then 0 else CallBudget(rounds - 1, retries) + 1 + retries
  }

  lemma {:induction false} CallBudgetIs(rounds: nat, retries: nat)
    ensures CallBudget(rounds, retries) == rounds * (1 + retries)
  {
    if rounds > 0 {
      CallBudgetIs(rounds - 1, retries);
    }
  }

  lemma {:induction false} CallBudgetAdds(a: nat, b: nat, retries: nat)
    ensures CallBudget(a + b, retries) == CallBudget(a, retries) + CallBudget(b, retries)
  {
    if b > 0 {
      CallBudgetAdds(a, b - 1, retries);
    }
  }

  lemma {:induction false} CallBudgetGrows(a: nat, b: nat, retries: nat)
    requires a <= b
    ensures CallBudget(a, retries) <= CallBudget(b, retries)
  {
    CallBudgetAdds(a, b - a, retries);
  }

  /** A compaction that leaves nothing to retry with. */
  predicate NoProgress(h: seq<Message>, c: Compacted) {
    !c.Changed? || |c.messages| >= |h|
  }

  /** The history as the pre-call compaction leaves it. */
  function BeforeCall(env: Env, t: nat, h: seq<Message>): seq<Message> {
    if env.hasCompactor && env.overBudget(t)
        && env.compact(t + 1, h).Changed? then env.compact(t + 1, h).messages else h
  }

  /** A retry asks about what the compactor made of the history before it. */
  ghost predicate Recompacted(env: Env, h: seq<Message>, h': seq<Message>) {
    exists t: nat :: env.compact(t, h) == Changed(h')
  }

  /** So do all retries from `from` on, the first one about `h`. */
  ghost predicate AllRecompacted(env: Env, sent: seq<seq<Message>>, from: nat, h: seq<Message>) {
    forall k | from <= k < |sent| :: RecompactedAt(env, sent, from, h, k)
  }

  ghost predicate RecompactedAt(env: Env, sent: seq<seq<Message>>, from: nat, h: seq<Message>, k: nat)
    requires from <= k < |sent|
  {
    Recompacted(env, if k == from then h else sent[k - 1], sent[k])
  }

  lemma OneRecompacted(env: Env, sent: seq<seq<Message>>, from: nat, h: seq<Message>, h': seq<Message>)
    requires from <= |sent| && AllRecompacted(env, sent, from, h)
    requires Recompacted(env, if from == |sent| then h else sent[|sent| - 1], h')
    ensures AllRecompacted(env, sent + [h'], from, h)
  {
    hide Recompacted;
    forall k | from <= k < |sent + [h']|
      ensures RecompactedAt(env, sent + [h'], from, h, k)
    {
      assert k < |sent| ==> RecompactedAt(env, sent, from, h, k);
    }
  }

  ghost predicate AllOverflowed(env: Env, askedAt: seq<nat>, from: nat, to: nat)
    requires to <= |askedAt|
  {
    forall k | from <= k < to :: env.llm(askedAt[k]).ContextOverflow?
  }

  /** Why there are no more retries for the history `h`: none is left, or compacting it makes no progress. */
  ghost predicate OutOfRetries(env: Env, retried: nat, h: seq<Message>) {
    !env.hasCompactor || retried == env.Retries() || exists t :: NoProgress(h, env.compact(t, h))
  }

  /** Retries follow overflows only, and end with an answer, a failure, or for want of retries. */
  ghost predicate RetriesEnd(env: Env, sent: seq<seq<Message>>, askedAt: seq<nat>, from: nat, h: seq<Message>,
                             r: Result<Assistant, string>)
  {
    && from <= |sent| == |askedAt|
    && if from == |sent| then r.Err?
        && OutOfRetries(env, 0, h) else EndsWith(env, sent, askedAt, from, |sent| - 1, |sent| - from, r)
  }

  /** The invocations from `from` to `last` overflowed, but for the last one, which decided. */
  ghost predicate EndsWith(env: Env, sent: seq<seq<Message>>, askedAt: seq<nat>, from: nat, last: nat, retried: nat,
                           r: Result<Assistant, string>)
  {
    && from <= last < |sent| == |askedAt| && AllOverflowed(env, askedAt, from, last)
    && (forall k | from < k <= last :: Recompacted(env, sent[k - 1], sent[k]))
    && match env.llm(askedAt[last])
       case Answer(turn) => r == Ok(turn)
       case LlmFailed(err) => r == Err(err)
       case ContextOverflow(_) => r.Err? && OutOfRetries(env, retried, sent[last])
  }

  /** All retries so far have overflowed. */
  ghost predicate Retrying(env: Env, sent: seq<seq<Message>>, askedAt: seq<nat>, from: nat, h: seq<Message>) {
    from <= |sent| == |askedAt| && AllOverflowed(env, askedAt, from, |askedAt|) && AllRecompacted(env, sent, from, h)
  }

  lemma NothingRetried(env: Env, sent: seq<seq<Message>>, askedAt: seq<nat>, h: seq<Message>)
    requires |sent| == |askedAt|
    ensures Retrying(env, sent, askedAt, |sent|, h)
  {
  }

  /** One more retry: it overflows again, or it decides. */
  lemma RetryAsked(env: Env, sent: seq<seq<Message>>, askedAt: seq<nat>, sent': seq<seq<Message>>, askedAt': seq<nat>,
                   from: nat, h: seq<Message>, current: seq<Message>, out: seq<Message>)
    requires Retrying(env, sent, askedAt, from, h) && sent' == sent + [out]
    requires askedAt <= askedAt' && |askedAt'| == |sent'| && Recompacted(env, current, out)
    requires current == if from == |sent| then h else sent[|sent| - 1]
    ensures match env.llm(askedAt'[|askedAt'| - 1])
            case Answer(turn) => RetriesEnd(env, sent', askedAt', from, out, Ok(turn))
            case LlmFailed(err) => RetriesEnd(env, sent', askedAt', from, out, Err(err))
            case ContextOverflow(_) => Retrying(env, sent', askedAt', from, h)
    ensures AllRecompacted(env, sent', from, h)
  {
    hide Recompacted, AllRecompacted, OutOfRetries;
    OneRecompacted(env, sent, from, h, out);
    RecompactedInOrder(env, sent', from, h);
  }

  lemma RecompactedInOrder(env: Env, sent: seq<seq<Message>>, from: nat, h: seq<Message>)
    requires AllRecompacted(env, sent, from, h)
    ensures forall k | from < k < |sent| :: Recompacted(env, sent[k - 1], sent[k])
  {
    hide Recompacted;
    forall k | from < k < |sent|
      ensures Recompacted(env, sent[k - 1], sent[k])
    {
      assert RecompactedAt(env, sent, from, h, k);
    }
  }

  lemma RetriesOver(env: Env, sent: seq<seq<Message>>, askedAt: seq<nat>, from: nat, h: seq<Message>, out: seq<Message>,
                    err: string)
    requires Retrying(env, sent, askedAt, from, h) && OutOfRetries(env, |sent| - from, out)
    requires out == if from == |sent| then h else sent[|sent| - 1]
    ensures RetriesEnd(env, sent, askedAt, from, out, Err(err)) && AllRecompacted(env, sent, from, h)
  {
    hide Recompacted, AllRecompacted, OutOfRetries;
    RecompactedInOrder(env, sent, from, h);
  }

  lemma GivesUp(env: Env, retried: nat, h: seq<Message>, t: nat)
    requires !env.hasCompactor || retried == env.Retries() || NoProgress(h, env.compact(t, h))
    ensures OutOfRetries(env, retried, h)
  {
  }

  /** One call of the model with its retries, the invocations from `from` on. */
  ghost predicate CallEnds(env: Env, sent: seq<seq<Message>>, askedAt: seq<nat>, from: nat, r: Result<Assistant,
                           string>) {
    from < |sent| && EndsWith(env, sent, askedAt, from, |sent| - 1, |sent| - 1 - from, r)
  }

  /** The results of a batch of calls, and whether one of them asks to terminate. */
  ghost predicate BatchDone(env: Env, t: nat, calls: seq<Call>, results: seq<Message>, terminate: bool) {
    exists flags :: BatchFlags(env, t, calls, results, terminate, flags)
  }

  ghost predicate BatchFlags(env: Env, t: nat, calls: seq<Call>, results: seq<Message>, terminate: bool,
                             flags: seq<bool>) {
    && |flags| == |results| <= |calls|
    && (forall i | 0 <= i < |results| ::
          BatchReports(calls, env.script(t), CancelledDuring(env, t),
                       RunsSequentially(env.mode(t), env.toolMode(t), calls), i, results[i], flags[i]))
    && (terminate <==> exists i | 0 <= i < |flags| :: flags[i])
    && (|results| < |calls| ==>
          RunsSequentially(env.mode(t), env.toolMode(t), calls) && (terminate || CancelledDuring(env, t)(|results|)))
  }

  /** Why the run goes on after a round, or ends with it. */
  datatype Why = GoesOn | ModelFailed | ReplyStopped | BatchTerminated | StopHookFired | NothingLeft

  /** The record of a round: when it began and with which history, the invocations of the model, its batch of
      tool results, when the stop hook was asked, and the history it left. */
  datatype Round = Round(at: nat, before: seq<Message>, first: nat, last: nat, batchAt: nat, results: seq<Message>,
                         terminated: bool, stopAt: nat, after: seq<Message>, why: Why)

  /** What happened in a round, and why it ended the run or did not. */
  ghost predicate RoundOk(env: Env, sent: seq<seq<Message>>, askedAt: seq<nat>, o: Round) {
    var steered := o.before + env.steering(o.at);
    && o.first <= o.last < |sent| == |askedAt|
    && sent[o.first] == BeforeCall(env, o.at + 1, steered)
    && exists r :: EndsWith(env, sent, askedAt, o.first, o.last, o.last - o.first, r)
        && RoundEnds(env, sent, o, steered, r)
  }

  ghost predicate RoundEnds(env: Env, sent: seq<seq<Message>>, o: Round, steered: seq<Message>, r: Result<Assistant,
                            string>)
    requires o.last < |sent|
  {
    if r.Err? then
      && o.why.ModelFailed?
      && o.after == steered + [AssistantMessage(Assistant([], "", "", "", StopError, r.error, 0))]
    else
      var calls := Calls(r.value.content);
      && o.after == sent[o.last] + [AssistantMessage(r.value)] + o.results
      && (if FailedStop(r.value.stopReason) || calls == [] then o.results == [] && !o.terminated
          else BatchDone(env, o.batchAt, calls, o.results, o.terminated))
      && !o.why.ModelFailed?
      && (o.why.ReplyStopped? <==> FailedStop(r.value.stopReason))
      && (o.why.BatchTerminated? <==> o.terminated)
      && (o.why.StopHookFired? <==> !o.why.ReplyStopped? && !o.terminated && env.shouldStop(o.stopAt))
      && (o.why.NothingLeft? <==> !o.why.ReplyStopped? && !o.terminated && !env.shouldStop(o.stopAt)
                                  && calls == [] && env.steering(o.at) == [])
  }

  lemma FailedRound(env: Env, sent: seq<seq<Message>>, askedAt: seq<nat>, o: Round, r: Result<Assistant, string>,
                    out: seq<Message>)
    requires r.Err? && CallEnds(env, sent, askedAt, o.first, r) && o.last == |sent| - 1 && o.why.ModelFailed?
    requires sent[o.first] == BeforeCall(env, o.at + 1, o.before + env.steering(o.at))
    requires out == o.before + env.steering(o.at) + [AssistantMessage(Assistant([], "", "", "", StopError, r.error, 0))]
    ensures RoundOk(env, sent, askedAt, o.(after := out))
  {
    hide AllOverflowed, BeforeCall, OutOfRetries;
    assert RoundEnds(env, sent, o.(after := out), o.before + env.steering(o.at), r);
  }

  lemma RepliedRound(env: Env, sent: seq<seq<Message>>, askedAt: seq<nat>, o: Round, r: Result<Assistant, string>)
    requires r.Ok? && CallEnds(env, sent, askedAt, o.first, r) && o.last == |sent| - 1
    requires sent[o.first] == BeforeCall(env, o.at + 1, o.before + env.steering(o.at))
    requires RoundEnds(env, sent, o, o.before + env.steering(o.at), r)
    ensures RoundOk(env, sent, askedAt, o)
  {
    hide AllOverflowed, BeforeCall, OutOfRetries, RoundEnds;
  }

  /** An overflow, and the retries after it. */
  lemma CallGoesOn(env: Env, sent: seq<seq<Message>>, askedAt: seq<nat>, first: nat, h: seq<Message>,
                   r: Result<Assistant, string>)
    requires first < |sent| && RetriesEnd(env, sent, askedAt, first + 1, h, r)
    requires env.llm(askedAt[first]).ContextOverflow? && (first + 1 == |sent| ==> sent[first] == h)
    requires AllRecompacted(env, sent, first + 1, sent[first])
    ensures CallEnds(env, sent, askedAt, first, r)
  {
    hide OutOfRetries, Recompacted;
    forall k | first < k < |sent|
      ensures Recompacted(env, sent[k - 1], sent[k])
    {
      assert RecompactedAt(env, sent, first + 1, sent[first], k);
    }
  }

  lemma NothingShorter(sent: seq<seq<Message>>, overflowed: seq<Message>, kept: nat)
    ensures ShorterAndShorter(sent, |sent|, overflowed, kept)
  {
  }

  /** Rounds `from` to `to - 1` of an inner loop that took `before` to `out`: each begins where the one before it
      left off, with the next invocation, while the context is not cancelled; all but the last go on. */
  ghost predicate InnerLoop(env: Env, sent: seq<seq<Message>>, askedAt: seq<nat>, rounds: seq<Round>, from: nat,
                            to: nat,
                            before: seq<Message>, out: seq<Message>)
  {
    && from <= to <= |rounds| && to - from <= MAX_AGENT_ROUNDS
    && (forall k | from <= k < to :: RoundOk(env, sent, askedAt, rounds[k]) && !env.cancelled(rounds[k].at))
    && (forall k | from < k < to :: Follows(rounds, k))
    && if from == to then out == before else rounds[from].before == before && rounds[to - 1].after == out
  }

  predicate Follows(rounds: seq<Round>, k: nat)
    requires 0 < k < |rounds|
  {
    && rounds[k - 1].why.GoesOn? && rounds[k].before == rounds[k - 1].after
    && rounds[k].first == rounds[k - 1].last + 1
  }

  lemma RoundStays(env: Env, sent: seq<seq<Message>>, askedAt: seq<nat>, sent': seq<seq<Message>>, askedAt': seq<nat>,
                   o: Round)
    requires RoundOk(env, sent, askedAt, o) && sent <= sent' && askedAt <= askedAt' && |sent'| == |askedAt'|
    ensures RoundOk(env, sent', askedAt', o)
  {
    hide BeforeCall, OutOfRetries, BatchDone, Calls, FailedStop;
    var steered := o.before + env.steering(o.at);
    var r :| EndsWith(env, sent, askedAt, o.first, o.last, o.last - o.first, r) && RoundEnds(env, sent, o, steered, r);
    assert EndsWith(env, sent', askedAt', o.first, o.last, o.last - o.first, r);
    assert RoundEnds(env, sent', o, steered, r);
  }

  lemma LoopStays(env: Env, sent: seq<seq<Message>>, askedAt: seq<nat>, rounds: seq<Round>,
                  sent': seq<seq<Message>>, askedAt': seq<nat>, rounds': seq<Round>, from: nat, to: nat,
                  before: seq<Message>, out: seq<Message>)
    requires InnerLoop(env, sent, askedAt, rounds, from, to, before, out)
    requires sent <= sent' && askedAt <= askedAt' && |sent'| == |askedAt'| && rounds <= rounds'
    ensures InnerLoop(env, sent', askedAt', rounds', from, to, before, out)
  {
    hide RoundOk;
    forall k | from <= k < to
      ensures RoundOk(env, sent', askedAt', rounds'[k])
    {
      RoundStays(env, sent, askedAt, sent', askedAt', rounds[k]);
    }
    forall k | from < k < to
      ensures Follows(rounds', k)
    {
      assert Follows(rounds, k);
    }
  }

  /** One more round of a loop whose last round went on. */
  lemma LoopGrows(env: Env, sent: seq<seq<Message>>, askedAt: seq<nat>, rounds: seq<Round>,
                  sent': seq<seq<Message>>, askedAt': seq<nat>, o: Round, from: nat, before: seq<Message>,
                  out: seq<Message>)
    requires InnerLoop(env, sent, askedAt, rounds, from, |rounds|, before, out) && |rounds| - from < MAX_AGENT_ROUNDS
    requires sent <= sent' && askedAt <= askedAt' && |sent'| == |askedAt'|
    requires RoundOk(env, sent', askedAt', o) && !env.cancelled(o.at) && o.before == out
    requires from < |rounds| ==>
               rounds[|rounds| - 1].why.GoesOn? && o.first == rounds[|rounds| - 1].last + 1
    ensures InnerLoop(env, sent', askedAt', rounds + [o], from, |rounds| + 1, before, o.after)
  {
    hide RoundOk;
    var rounds' := rounds + [o];
    LoopStays(env, sent, askedAt, rounds, sent', askedAt', rounds', from, |rounds|, before, out);
    forall k | from < k < |rounds'|
      ensures Follows(rounds', k)
    {
      assert k < |rounds| ==> Follows(rounds, k);
    }
  }

  lemma NoRounds(env: Env, sent: seq<seq<Message>>, askedAt: seq<nat>, rounds: seq<Round>, before: seq<Message>)
    ensures InnerLoop(env, sent, askedAt, rounds, |rounds|, |rounds|, before, before)
  {
  }

  /** Without a compactor, a round that is followed by another one had a reply, and the next history sent is
      the last one, that reply, the results of its calls and what was queued as steering. */
  lemma NextHistory(env: Env, sent: seq<seq<Message>>, askedAt: seq<nat>, rounds: seq<Round>, from: nat, to: nat,
                    before: seq<Message>, out: seq<Message>, k: nat) returns (turn: Assistant)
    requires AppendOnly(env) && InnerLoop(env, sent, askedAt, rounds, from, to, before, out) && from < k < to
    ensures rounds[k - 1].last < |sent| == |askedAt| && rounds[k].first == rounds[k - 1].last + 1 < |sent|
    ensures env.llm(askedAt[rounds[k - 1].last]) == Answer(turn) && !FailedStop(turn.stopReason)
    ensures sent[rounds[k].first] == sent[rounds[k - 1].last] + [AssistantMessage(turn)] + rounds[k - 1].results
                                     + env.steering(rounds[k].at)
    ensures if Calls(turn.content) == [] then rounds[k - 1].results == []
            else BatchDone(env, rounds[k - 1].batchAt, Calls(turn.content), rounds[k - 1].results, false)
  {
    hide Calls, FailedStop, BatchDone, RoundOk;
    assert Follows(rounds, k);
    turn := ReplyOf(env, sent, askedAt, rounds[k - 1]);
    AsksFirst(env, sent, askedAt, rounds[k]);
  }

  /** A round that goes on had a reply. */
  lemma ReplyOf(env: Env, sent: seq<seq<Message>>, askedAt: seq<nat>, o: Round) returns (turn: Assistant)
    requires RoundOk(env, sent, askedAt, o) && o.why.GoesOn?
    ensures o.last < |sent| == |askedAt| && env.llm(askedAt[o.last]) == Answer(turn) && !FailedStop(turn.stopReason)
    ensures o.after == sent[o.last] + [AssistantMessage(turn)] + o.results
    ensures if Calls(turn.content) == [] then o.results == []
            else BatchDone(env, o.batchAt, Calls(turn.content), o.results, false)
  {
    hide Calls, FailedStop, BatchDone, OutOfRetries, AllOverflowed, Recompacted, BeforeCall;
    var r :| EndsWith(env, sent, askedAt, o.first, o.last, o.last - o.first, r)
             && RoundEnds(env, sent, o, o.before + env.steering(o.at), r);
    turn := r.value;
  }

  lemma AsksFirst(env: Env, sent: seq<seq<Message>>, askedAt: seq<nat>, o: Round)
    requires RoundOk(env, sent, askedAt, o) && AppendOnly(env)
    ensures o.first < |sent| && sent[o.first] == o.before + env.steering(o.at)
  {
    hide EndsWith, RoundEnds;
  }

  /** The history with which inner loop `j` of a run begins. */
  function LoopStart(env: Env, rounds: seq<Round>, messages: seq<Message>, j: nat): seq<Message>
    requires j <= |env.followUps| && MAX_AGENT_ROUNDS * j <= |rounds|
  {
    if j == 0 then messages else rounds[MAX_AGENT_ROUNDS * j - 1].after + env.followUps[j - 1]
  }

  /** Inner loop `j` has run all its rounds, and all of them go on. */
  ghost predicate FullLoop(env: Env, sent: seq<seq<Message>>, askedAt: seq<nat>, rounds: seq<Round>,
                           messages: seq<Message>, j: nat)
  {
    && j <= |env.followUps| && MAX_AGENT_ROUNDS * (j + 1) <= |rounds|
    && var last := rounds[MAX_AGENT_ROUNDS * (j + 1) - 1];
       && last.why.GoesOn?
       && InnerLoop(env, sent, askedAt, rounds, MAX_AGENT_ROUNDS * j, MAX_AGENT_ROUNDS * (j + 1),
                    LoopStart(env, rounds, messages, j), last.after)
  }

  ghost predicate FullLoops(env: Env, sent: seq<seq<Message>>, askedAt: seq<nat>, rounds: seq<Round>,
                            messages: seq<Message>, n: nat)
  {
    forall j | 0 <= j < n :: FullLoop(env, sent, askedAt, rounds, messages, j)
  }

  lemma FullLoopsStay(env: Env, sent: seq<seq<Message>>, askedAt: seq<nat>, rounds: seq<Round>,
                      sent': seq<seq<Message>>, askedAt': seq<nat>, rounds': seq<Round>, messages: seq<Message>, n: nat)
    requires FullLoops(env, sent, askedAt, rounds, messages, n)
    requires sent <= sent' && askedAt <= askedAt' && |sent'| == |askedAt'| && rounds <= rounds'
    ensures FullLoops(env, sent', askedAt', rounds', messages, n)
  {
    hide InnerLoop;
    forall j | 0 <= j < n
      ensures FullLoop(env, sent', askedAt', rounds', messages, j)
    {
      assert FullLoop(env, sent, askedAt, rounds, messages, j);
      LoopStays(env, sent, askedAt, rounds, sent', askedAt', rounds', MAX_AGENT_ROUNDS * j,
                MAX_AGENT_ROUNDS * (j + 1), LoopStart(env, rounds, messages, j),
                rounds[MAX_AGENT_ROUNDS * (j + 1) - 1].after);
    }
  }

  lemma OneMoreLoop(env: Env, sent: seq<seq<Message>>, askedAt: seq<nat>, rounds: seq<Round>, messages: seq<Message>,
                    n: nat, out: seq<Message>)
    requires n <= |env.followUps| && FullLoops(env, sent, askedAt, rounds, messages, n)
    requires |rounds| == MAX_AGENT_ROUNDS * (n + 1) && rounds[|rounds| - 1].why.GoesOn?
    requires InnerLoop(env, sent, askedAt, rounds, MAX_AGENT_ROUNDS * n, |rounds|,
                       LoopStart(env, rounds, messages, n), out)
    ensures FullLoops(env, sent, askedAt, rounds, messages, n + 1) && out == rounds[|rounds| - 1].after
  {
    hide InnerLoop;
    LoopEnds(env, sent, askedAt, rounds, MAX_AGENT_ROUNDS * n, |rounds|, LoopStart(env, rounds, messages, n), out);
    assert FullLoop(env, sent, askedAt, rounds, messages, n);
  }

  lemma LoopEnds(env: Env, sent: seq<seq<Message>>, askedAt: seq<nat>, rounds: seq<Round>, from: nat, to: nat,
                 before: seq<Message>, out: seq<Message>)
    requires InnerLoop(env, sent, askedAt, rounds, from, to, before, out) && from < to
    ensures to <= |rounds| && rounds[to - 1].after == out
  {
    hide RoundOk, Follows;
  }

  /** Why a run is over: its last round ended it, the context is cancelled, or there are no follow-ups left. */
  ghost predicate RunOver(env: Env, rounds: seq<Round>, clock: nat, nextFollowUp: nat) {
    || (rounds != [] && !rounds[|rounds| - 1].why.GoesOn?)
    || env.cancelled(clock)
    || (nextFollowUp == |env.followUps| && |rounds| == MAX_AGENT_ROUNDS * (nextFollowUp + 1))
  }

  /** `n` inner loops have run in full, and the next one begins with `out`. */
  ghost predicate LoopsSoFar(env: Env, sent: seq<seq<Message>>, askedAt: seq<nat>, rounds: seq<Round>,
                             messages: seq<Message>, out: seq<Message>, n: nat)
  {
    && n <= |env.followUps| && |rounds| == MAX_AGENT_ROUNDS * n
    && FullLoops(env, sent, askedAt, rounds, messages, n) && out == LoopStart(env, rounds, messages, n)
  }

  lemma NoLoops(env: Env, sent: seq<seq<Message>>, askedAt: seq<nat>, rounds: seq<Round>, messages: seq<Message>)
    requires rounds == []
    ensures LoopsSoFar(env, sent, askedAt, rounds, messages, messages, 0)
  {
  }

  /** The run as it stands: `n` inner loops in full, and one that took it to `out`. */
  ghost predicate RunRecord(env: Env, sent: seq<seq<Message>>, askedAt: seq<nat>, rounds: seq<Round>,
                            messages: seq<Message>, out: seq<Message>, n: nat)
  {
    && n <= |env.followUps| && MAX_AGENT_ROUNDS * n <= |rounds|
    && FullLoops(env, sent, askedAt, rounds, messages, n)
    && InnerLoop(env, sent, askedAt, rounds, MAX_AGENT_ROUNDS * n, |rounds|, LoopStart(env, rounds, messages, n), out)
  }

  lemma LoopCancelled(env: Env, sent: seq<seq<Message>>, askedAt: seq<nat>, rounds: seq<Round>,
                      messages: seq<Message>, out: seq<Message>, n: nat, clock: nat)
    requires LoopsSoFar(env, sent, askedAt, rounds, messages, out, n) && env.cancelled(clock)
    ensures RunRecord(env, sent, askedAt, rounds, messages, out, n) && RunOver(env, rounds, clock, n)
  {
    hide FullLoops, LoopStart;
    NoRounds(env, sent, askedAt, rounds, out);
  }

  /** The inner loop after `n` full ones has run: the run may stop here, or go on with the next follow-ups. */
  lemma LoopDone(env: Env, sent: seq<seq<Message>>, askedAt: seq<nat>, rounds: seq<Round>,
                 sent': seq<seq<Message>>, askedAt': seq<nat>, rounds': seq<Round>,
                 messages: seq<Message>, before: seq<Message>, out: seq<Message>, n: nat)
    requires LoopsSoFar(env, sent, askedAt, rounds, messages, before, n)
    requires sent <= sent' && askedAt <= askedAt' && |sent'| == |askedAt'| && rounds <= rounds'
    requires InnerLoop(env, sent', askedAt', rounds', |rounds|, |rounds'|, before, out)
    ensures RunRecord(env, sent', askedAt', rounds', messages, out, n) && |rounds| == MAX_AGENT_ROUNDS * n
    ensures n < |env.followUps| && |rounds'| == |rounds| + MAX_AGENT_ROUNDS && rounds'[|rounds'| - 1].why.GoesOn? ==>
              LoopsSoFar(env, sent', askedAt', rounds', messages, out + env.followUps[n], n + 1)
  {
    hide FullLoops, InnerLoop;
    FullLoopsStay(env, sent, askedAt, rounds, sent', askedAt', rounds', messages, n);
    if |rounds'| == |rounds| + MAX_AGENT_ROUNDS && rounds'[|rounds'| - 1].why.GoesOn? {
      OneMoreLoop(env, sent', askedAt', rounds', messages, n, out);
    }
  }

  lemma RunIsOver(env: Env, rounds: seq<Round>, clock: nat, n: nat)
    requires (rounds != [] && !rounds[|rounds| - 1].why.GoesOn?) || env.cancelled(clock)
             || (n == |env.followUps| && |rounds| == MAX_AGENT_ROUNDS * (n + 1))
    ensures RunOver(env, rounds, clock, n)
  {
  }

  class Run {
    const env: Env
    ghost const form: Form
    ghost const kept: nat
    var clock: nat
    var nextFollowUp: nat
    ghost var sent: seq<seq<Message>>  // the history of every model invocation
    ghost var askedAt: seq<nat>        // and its time
    ghost var rounds: seq<Round>
    ghost var broken: bool             // a compaction took a history of the claimed form out of it

    constructor (env: Env, ghost form: Form, ghost kept: nat)
      ensures this.env == env && this.form == form && this.kept == kept
      ensures clock == 0 && nextFollowUp == 0 && sent == [] && askedAt == [] && rounds == [] && !broken
    {
      this.env, this.form, this.kept := env, form, kept;
      clock, nextFollowUp, sent, askedAt, rounds, broken := 0, 0, [], [], [], false;
    }

    ghost predicate InStep()
      reads this`sent, this`askedAt
    {
      |askedAt| == |sent|
    }

    /** A history of the run has the claimed form unless a compaction has broken it. */
    ghost predicate Fine(h: seq<Message>)
      reads this`broken
    {
      broken || Closed(h, form)
    }

    /** Asks the model about what a compaction made of `before`; this is where the form can break. */
    method AskCompacted(before: seq<Message>, after: seq<Message>) returns (outcome: LlmOutcome)
      requires InStep() && Judged(sent, form, broken) && Fine(before)
      modifies this`clock, this`sent, this`askedAt, this`broken
      ensures clock >= old(clock) && sent == old(sent) + [after]
      ensures askedAt == old(askedAt) + [old(clock)] && outcome == env.llm(old(clock))
      ensures InStep() && Judged(sent, form, broken) && Fine(after)
      ensures broken <==> old(broken) || (Closed(before, form) && !Closed(after, form))
    {
      hide Closed, Judged;
      ghost var broken' := broken || (Closed(before, form) && !Closed(after, form));
      JudgeOneMore(sent, form, broken, after, broken');
      broken := broken';
      sent, askedAt := sent + [after], askedAt + [clock];
      outcome := env.llm(clock);
      clock := clock + 1;
    }

    /** One pass of the retry loop: compact, and unless that makes no progress, ask the model again. */
    method RetryOnce(current: seq<Message>, ghost from: nat, ghost overflowed: seq<Message>)
      returns (attempt: Attempt, out: seq<Message>)
      requires Sound(env, form, kept) && InStep() && Judged(sent, form, broken) && Fine(current)
      requires from <= |sent| && ShorterAndShorter(sent, from, overflowed, kept)
      requires current == if from == |sent| then overflowed else sent[|sent| - 1]
      modifies this`clock, this`sent, this`askedAt, this`broken
      ensures clock >= old(clock)
      ensures InStep() && Judged(sent, form, broken) && Fine(out)
                && (CompactorKeeps(env, form) ==> broken == old(broken))
      ensures attempt.GaveUp? ==> sent == old(sent) && askedAt == old(askedAt) && out == current
      ensures attempt.GaveUp? ==> NoProgress(current, env.compact(old(clock), current))
      ensures !attempt.GaveUp? ==> sent == old(sent) + [out] && old(askedAt) < askedAt
      ensures !attempt.GaveUp? ==>
                attempt.outcome == env.llm(askedAt[|askedAt| - 1]) && Recompacted(env, current, out)
      ensures ShorterAndShorter(sent, from, overflowed, kept)
    {
      hide Sound, Closed, Judged, CompactorKeeps, ShorterAndShorter, KeepsTail;
      out := current;
      var compacted := env.compact(clock, current);
      clock := clock + 1;
      if compacted.CompactError? {
        return GaveUp(compacted.err), out;
      }
      if compacted.Unchanged? || |compacted.messages| >= |current| {
        return GaveUp("compactor made no progress"), out;
      }
      SoundCompaction(env, form, kept, clock - 1, current);
      out := compacted.messages;
      if from < |sent| {
        LastKeepsTail(sent, from, overflowed, kept);
        TailKeptTwice(overflowed, current, out, kept);
      }
      OneShorter(sent, from, overflowed, kept, out);
      var outcome := AskCompacted(current, out);
      attempt := Asked(outcome);
    }

    /** At most the configured retries, on shorter and shorter histories that end with the kept messages. */
    method RetryWithCompaction(messages: seq<Message>) returns (r: Result<Assistant, string>, out: seq<Message>)
      requires Sound(env, form, kept) && InStep() && Judged(sent, form, broken) && Fine(messages)
      modifies this`clock, this`sent, this`askedAt, this`broken
      ensures clock >= old(clock)
      ensures old(sent) <= sent && |sent| <= |old(sent)| + env.Retries()
      ensures ShorterAndShorter(sent, |old(sent)|, messages, kept)
      ensures InStep() && Judged(sent, form, broken) && Fine(out)
                && (CompactorKeeps(env, form) ==> broken == old(broken))
      ensures AppendOnly(env) ==> out == messages && sent == old(sent) && broken == old(broken)
      ensures r.Ok? ==> |sent| > |old(sent)| && sent[|sent| - 1] == out
      ensures old(askedAt) <= askedAt && RetriesEnd(env, sent, askedAt, |old(sent)|, out, r)
      ensures AllRecompacted(env, sent, |old(sent)|, messages)
      ensures |sent| == |old(sent)| ==> out == messages
    {
      hide Sound, Closed, Judged, CompactorKeeps, ShorterAndShorter, AllRecompacted, Recompacted, RetriesEnd;
      hide Retrying, OutOfRetries, NoProgress;
      NothingRetried(env, sent, askedAt, messages);
      NothingShorter(sent, messages, kept);
      out := messages;
      if !env.hasCompactor {
        GivesUp(env, 0, messages, clock);
        RetriesOver(env, sent, askedAt, |sent|, messages, messages, "compaction not configured");
        return Err("compaction not configured"), out;
      }
      var retries := env.overflowRetries;
      if retries <= 0 {
        retries := 1;
      }
      var lastErr := "exhausted overflow retries";
      ghost var base := |sent|;
      for i := 0 to retries
        invariant clock >= old(clock)
        invariant old(sent) <= sent && |sent| == base + i
        invariant ShorterAndShorter(sent, base, messages, kept)
        invariant InStep() && Judged(sent, form, broken) && Fine(out)
                    && (CompactorKeeps(env, form) ==> broken == old(broken))
        invariant out == if i == 0 then messages else sent[|sent| - 1]
        invariant old(askedAt) <= askedAt && Retrying(env, sent, askedAt, base, messages)
      {
        var attempt;
        ghost var sent0, askedAt0, current, t := sent, askedAt, out, clock;
        attempt, out := RetryOnce(out, base, messages);
        if attempt.Asked? {
          RetryAsked(env, sent0, askedAt0, sent, askedAt, base, messages, current, out);
        }
        match attempt
        case GaveUp(err) =>
          GivesUp(env, |sent| - base, out, t);
          RetriesOver(env, sent, askedAt, base, messages, out, err);
          return Err(err), out;
        case Asked(Answer(turn)) =>
          return Ok(turn), out;
        case Asked(LlmFailed(err)) =>
          return Err(err), out;
        case Asked(ContextOverflow(err)) =>
          lastErr := err;
      }
      r := Err(lastErr);
      GivesUp(env, retries, out, clock);
      RetriesOver(env, sent, askedAt, base, messages, out, lastErr);
    }

    /** The pre-call compaction, if the history is over budget, and the first question to the model. */
    method FirstCall(messages: seq<Message>) returns (outcome: LlmOutcome, trimmed: seq<Message>)
      requires Sound(env, form, kept) && InStep() && Judged(sent, form, broken) && Fine(messages)
      modifies this`clock, this`sent, this`askedAt, this`broken
      ensures clock >= old(clock) && sent == old(sent) + [trimmed]
      ensures old(askedAt) < askedAt && outcome == env.llm(askedAt[|askedAt| - 1])
      ensures trimmed == BeforeCall(env, old(clock), messages)
      ensures InStep() && Judged(sent, form, broken) && Fine(trimmed)
                && (CompactorKeeps(env, form) ==> broken == old(broken))
      ensures AppendOnly(env) ==> trimmed == messages && broken == old(broken)
    {
      hide Sound, Closed, Judged, CompactorKeeps, KeepsTail;
      trimmed := messages;
      if env.hasCompactor && env.overBudget(clock) {
        var compacted := env.compact(clock + 1, trimmed);
        clock := clock + 2;
        if compacted.Changed? {
          SoundCompaction(env, form, kept, clock - 1, trimmed);
          trimmed := compacted.messages;
        }
      }
      outcome := AskCompacted(messages, trimmed);
    }

    method StreamAssistantResponse(messages: seq<Message>) returns (r: Result<Assistant, string>, trimmed: seq<Message>)
      requires Sound(env, form, kept) && InStep() && Judged(sent, form, broken) && Fine(messages)
      modifies this`clock, this`sent, this`askedAt, this`broken
      ensures clock >= old(clock)
      ensures old(sent) < sent && |sent| <= |old(sent)| + 1 + env.Retries()
      ensures ShorterAndShorter(sent, |old(sent)| + 1, sent[|old(sent)|], kept)
      ensures InStep() && Judged(sent, form, broken) && Fine(trimmed)
                && (CompactorKeeps(env, form) ==> broken == old(broken))
      ensures AppendOnly(env) ==> trimmed == messages && sent == old(sent) + [messages] && broken == old(broken)
      ensures r.Ok? ==> sent[|sent| - 1] == trimmed
      ensures old(askedAt) < askedAt && CallEnds(env, sent, askedAt, |old(sent)|, r)
      ensures sent[|old(sent)|] == BeforeCall(env, old(clock), messages)
    {
      hide Sound, Closed, Judged, CompactorKeeps, KeepsTail, ShorterAndShorter, RetriesEnd, BeforeCall;
      var outcome;
      outcome, trimmed := FirstCall(messages);
      NothingShorter(sent, trimmed, kept);
      match outcome
      case Answer(turn) =>
        r := Ok(turn);
      case LlmFailed(err) =>
        r := Err(err);
      case ContextOverflow(_) =>
        r, trimmed := RetryWithCompaction(trimmed);
        CallGoesOn(env, sent, askedAt, |old(sent)|, trimmed, r);
    }

    /** One batch of calls, and the time it takes: cut short only by a terminating tool or by cancellation. */
    method RunBatch(calls: seq<Call>) returns (results: seq<Message>, terminate: bool)
      requires Sound(env, form, kept)
      modifies this`clock
      ensures clock >= old(clock) && CallFree(results) && |results| <= |calls|
      ensures forall i | 0 <= i < |results| :: results[i].ToolResultMessage? && results[i].toolCallId == calls[i].id
      ensures |results| < |calls| ==> terminate || env.cancelled(clock)
      ensures BatchDone(env, old(clock), calls, results, terminate)
    {
      hide Sound, CallFree, RunsSequentially, BatchReports, CompletionOrder, CancelledDuring;
      var t := clock;
      SoundOrder(env, form, kept, t, |calls|);
      ghost var flags;
      results, terminate, flags := ExecuteToolCalls(calls, env.mode(t), env.toolMode(t), env.script(t),
                                             CancelledDuring(env, t), env.order(t, |calls|));
      clock := t + env.span(t);
      if |results| < |calls| && !terminate {
        CancelledAfter(env, form, kept, t, |results|);
      }
      assert BatchFlags(env, t, calls, results, terminate, flags);
    }

    /** Runs the calls of a turn and appends their results; all are answered unless the run is over. */
    method DispatchTools(trimmed: seq<Message>, turn: Assistant)
      returns (terminate: bool, out: seq<Message>, ghost results: seq<Message>)
      requires Sound(env, form, kept) && Fine(trimmed)
      modifies this`clock
      ensures clock >= old(clock)
      ensures out == trimmed + [AssistantMessage(turn)] + results
      ensures BatchDone(env, old(clock), Calls(turn.content), results, terminate)
      ensures Fine(out) || terminate || env.cancelled(clock)
    {
      hide Sound, Closed, CallFree, Calls, BatchDone;
      var answers;
      answers, terminate := RunBatch(Calls(turn.content));
      results := answers;
      out := trimmed + [AssistantMessage(turn)] + answers;
      if |results| == |Calls(turn.content)| && Closed(trimmed, form) {
        BatchAnswers(trimmed, turn, results, form);
      }
    }

    /** What follows a reply: the tools, the stop hooks, and the decision to go on. */
    method AfterReply(trimmed: seq<Message>, turn: Assistant, hasSteering: bool, ghost base: Round)
      returns (goOn: bool, out: seq<Message>, ghost o: Round)
      requires Sound(env, form, kept) && Fine(trimmed)
      requires base.last < |sent| && sent[base.last] == trimmed && (hasSteering <==> env.steering(base.at) != [])
      modifies this`clock
      ensures clock >= old(clock) && (goOn ==> Fine(out) || env.cancelled(clock))
      ensures trimmed <= out
      ensures o.at == base.at && o.before == base.before && o.first == base.first && o.last == base.last
      ensures o.after == out && (goOn <==> o.why.GoesOn?)
      ensures RoundEnds(env, sent, o, base.before + env.steering(base.at), Ok(turn))
    {
      hide Sound, Closed, BatchDone, Calls;
      out := trimmed + [AssistantMessage(turn)];
      o := base.(batchAt := clock, results := [], terminated := false, stopAt := clock, after := out);
      if FailedStop(turn.stopReason) {
        o := o.(why := ReplyStopped);
        return false, out, o;
      }
      var calls := Calls(turn.content);
      if |calls| > 0 {
        var terminate;
        ghost var results;
        terminate, out, results := DispatchTools(trimmed, turn);
        o := o.(results := results, terminated := terminate, stopAt := clock, after := out);
        if terminate {
          o := o.(why := BatchTerminated);
          return false, out, o;
        }
      } else if Closed(trimmed, form) {
        AppendSilentTurn(trimmed, turn, form);
      }
      if env.shouldStop(clock) {
        o := o.(why := StopHookFired);
        return false, out, o;
      }
      goOn := |calls| > 0 || hasSteering;
      o := o.(why := if goOn then GoesOn else NothingLeft);
    }

    /** One round after its cancellation check: steering, the model, the tools, the stop hooks. The record of
        the round says what it did and why the run goes on or ends. */
    method RunTurn(messages: seq<Message>) returns (goOn: bool, out: seq<Message>)
      requires Sound(env, form, kept) && InStep() && Judged(sent, form, broken) && Fine(messages)
      modifies this`clock, this`sent, this`askedAt, this`broken, this`rounds
      ensures clock >= old(clock)
      ensures old(sent) < sent && old(askedAt) < askedAt && |sent| <= |old(sent)| + 1 + env.Retries()
      ensures InStep() && Judged(sent, form, broken) && (CompactorKeeps(env, form) ==> broken == old(broken))
      ensures goOn ==> Fine(out) || env.cancelled(clock)
      ensures AppendOnly(env) ==>
                && broken == old(broken) && sent == old(sent) + [messages + env.steering(old(clock))]
                && sent[|sent| - 1] <= out
      ensures old(rounds) < rounds && |rounds| == |old(rounds)| + 1
      ensures var o := rounds[|rounds| - 1];
              && RoundOk(env, sent, askedAt, o) && o.at == old(clock) && o.before == messages && o.after == out
              && o.first == |old(sent)| && o.last == |sent| - 1 && (goOn <==> o.why.GoesOn?)
    {
      hide Sound, Closed, Judged, CompactorKeeps, ShorterAndShorter, RoundOk, RoundEnds, CallEnds, BeforeCall;
      ghost var at := clock;
      var steering := env.steering(clock);
      clock := clock + 1;
      var history := messages + steering;
      if Closed(messages, form) {
        SteeringFits(env, form, kept, at, messages);
      }
      var r, trimmed := StreamAssistantResponse(history);
      ghost var o := Round(at, messages, |old(sent)|, |sent| - 1, clock, [], false, clock, [], ModelFailed);
      if r.Err? {
        goOn, out := false, history + [AssistantMessage(Assistant([], "", "", "", StopError, r.error, 0))];
        FailedRound(env, sent, askedAt, o, r, out);
        o := o.(after := out);
      } else {
        goOn, out, o := AfterReply(trimmed, r.value, |steering| > 0, o);
        RepliedRound(env, sent, askedAt, o, r);
      }
      rounds := rounds + [o];
    }

    /** `runInnerLoop`: at most `MAX_AGENT_ROUNDS` rounds; more turns are left only if all of them have run. */
    method RunInnerLoop(messages: seq<Message>) returns (hasMoreTurns: bool, out: seq<Message>)
      requires Sound(env, form, kept) && InStep() && Judged(sent, form, broken) && Fine(messages)
      modifies this`clock, this`sent, this`askedAt, this`broken, this`rounds
      ensures clock >= old(clock)
      ensures old(sent) <= sent && |sent| <= |old(sent)| + CallBudget(MAX_AGENT_ROUNDS, env.Retries())
      ensures hasMoreTurns ==> |sent| >= |old(sent)| + MAX_AGENT_ROUNDS
      ensures InStep() && Judged(sent, form, broken) && (CompactorKeeps(env, form) ==> broken == old(broken))
      ensures hasMoreTurns ==> Fine(out) || env.cancelled(clock)
      ensures AppendOnly(env) ==> broken == old(broken) && Growing(sent, |old(sent)|, messages, out)
      ensures old(askedAt) <= askedAt && old(rounds) <= rounds
      ensures InnerLoop(env, sent, askedAt, rounds, |old(rounds)|, |rounds|, messages, out)
      ensures |rounds| > |old(rounds)| ==>
                rounds[|old(rounds)|].first == |old(sent)| && rounds[|rounds| - 1].last == |sent| - 1
      ensures |rounds| == |old(rounds)| ==> sent == old(sent)
      ensures hasMoreTurns ==>
                |rounds| == |old(rounds)| + MAX_AGENT_ROUNDS && rounds[|rounds| - 1].why.GoesOn?
      ensures !hasMoreTurns ==>
                (|rounds| > |old(rounds)| && !rounds[|rounds| - 1].why.GoesOn?) || env.cancelled(clock)
    {
      hide Closed, AppendOnly, Sound, Judged, CompactorKeeps, RoundOk, InnerLoop, Growing;
      NoRounds(env, sent, askedAt, rounds, messages);
      GrowsFromHere(sent, messages);
      out := messages;
      ghost var base := |sent|;
      for round := 0 to MAX_AGENT_ROUNDS
        invariant clock >= old(clock)
        invariant old(sent) <= sent && base + round <= |sent| <= base + CallBudget(round, env.Retries())
        invariant InStep() && Judged(sent, form, broken) && (CompactorKeeps(env, form) ==> broken == old(broken))
        invariant Fine(out) || env.cancelled(clock)
        invariant AppendOnly(env) ==> broken == old(broken) && Growing(sent, base, messages, out)
        invariant old(askedAt) <= askedAt && old(rounds) <= rounds && |rounds| == |old(rounds)| + round
        invariant InnerLoop(env, sent, askedAt, rounds, |old(rounds)|, |rounds|, messages, out)
        invariant round > 0 ==> rounds[|old(rounds)|].first == base && rounds[|rounds| - 1].last == |sent| - 1
        invariant round > 0 ==> rounds[|rounds| - 1].why.GoesOn?
        invariant round == 0 ==> sent == old(sent)
      {
        CallBudgetGrows(round + 1, MAX_AGENT_ROUNDS, env.Retries());
        if env.cancelled(clock) {
          return false, out;
        }
        ghost var sent0, askedAt0, rounds0, out0 := sent, askedAt, rounds, out;
        var goOn;
        goOn, out := RunTurn(out);
        LoopGrows(env, sent0, askedAt0, rounds0, sent, askedAt, rounds[|rounds0|], |old(rounds)|, messages, out0);
        assert rounds == rounds0 + [rounds[|rounds0|]];
        if AppendOnly(env) {
          GrowsByOne(sent0, base, messages, out0, sent[|sent0|], out);
        }
        if !goOn {
          return false, out;
        }
      }
      hasMoreTurns := true;
    }

    method InjectFollowUpMessages(messages: seq<Message>) returns (out: seq<Message>, hasFollowUp: bool)
      requires Sound(env, form, kept) && nextFollowUp <= |env.followUps|
      modifies this`nextFollowUp
      ensures hasFollowUp <==> old(nextFollowUp) < |env.followUps|
      ensures hasFollowUp ==> nextFollowUp == old(nextFollowUp) + 1
      ensures hasFollowUp ==> out == messages + env.followUps[old(nextFollowUp)]
      ensures !hasFollowUp ==> nextFollowUp == old(nextFollowUp) && out == messages
      ensures Fine(messages) ==> Fine(out)
    {
      if nextFollowUp == |env.followUps| {
        return messages, false;
      }
      out, hasFollowUp := messages + env.followUps[nextFollowUp], true;
      if Closed(messages, form) {
        AppendCallFree(messages, env.followUps[nextFollowUp], form);
      }
      nextFollowUp := nextFollowUp + 1;
    }

    /** After `n` full inner loops, the next of which begins with `out`. */
    ghost predicate Going(messages: seq<Message>, out: seq<Message>, n: nat)
      reads this`sent, this`askedAt, this`rounds, this`broken
    {
      && InStep() && Judged(sent, form, broken) && (CompactorKeeps(env, form) || AppendOnly(env) ==> !broken)
      && MAX_AGENT_ROUNDS * n <= |sent| <= LoopBudget(env, n)
      && AppendsSoFar(env, sent, messages, out, n) && LoopsSoFar(env, sent, askedAt, rounds, messages, out, n)
    }

    /** The run has ended with `out`, in the inner loop after the `n` full ones. */
    ghost predicate Ended(messages: seq<Message>, out: seq<Message>, n: nat)
      reads this`sent, this`askedAt, this`rounds, this`broken, this`clock
    {
      && InStep() && Judged(sent, form, broken) && (CompactorKeeps(env, form) || AppendOnly(env) ==> !broken)
      && MAX_AGENT_ROUNDS * n <= |sent| <= LoopBudget(env, n + 1)
      && AppendsSoFar(env, sent, messages, out, n) && RunRecord(env, sent, askedAt, rounds, messages, out, n)
      && RunOver(env, rounds, clock, n)
    }

    lemma StartsGoing(messages: seq<Message>)
      requires sent == [] && askedAt == [] && rounds == [] && !broken
      ensures Going(messages, messages, 0) && (Closed(messages, form) ==> Fine(messages))
    {
      NothingAppended(env, messages);
      NoLoops(env, sent, askedAt, rounds, messages);
      LoopBudgetBound(env, 0);
    }

    lemma EndsCancelled(messages: seq<Message>, out: seq<Message>, n: nat)
      requires Going(messages, out, n) && env.cancelled(clock)
      ensures Ended(messages, out, n)
    {
      hide Judged, AppendsSoFar, LoopsSoFar, RunRecord, RunOver;
      LoopCancelled(env, sent, askedAt, rounds, messages, out, n, clock);
      CallBudgetGrows(n * MAX_AGENT_ROUNDS, (n + 1) * MAX_AGENT_ROUNDS, env.Retries());
    }

    /** An inner loop: the run ends with it, or more turns are left. */
    method NextLoop(ghost messages: seq<Message>, before: seq<Message>, ghost n: nat)
      returns (hasMoreTurns: bool, out: seq<Message>)
      requires Sound(env, form, kept) && Fine(before) && n <= |env.followUps| && Going(messages, before, n)
      modifies this`clock, this`sent, this`askedAt, this`broken, this`rounds
      ensures hasMoreTurns ==> Fine(out) || env.cancelled(clock)
      ensures !hasMoreTurns || n == |env.followUps| ==> Ended(messages, out, n)
      ensures hasMoreTurns && n < |env.followUps| ==> Going(messages, out + env.followUps[n], n + 1)
    {
      hide Closed, AppendOnly, Sound, CompactorKeeps, RunOver, Growing, Judged, RunRecord;
      hide CallBudget, LoopBudget, InnerLoop, AppendsSoFar, LoopsSoFar;
      LoopBudgetBound(env, n);
      ghost var sent0, askedAt0, rounds0 := sent, askedAt, rounds;
      hasMoreTurns, out := RunInnerLoop(before);
      AppendsMore(env, sent0, sent, messages, before, out, n);
      LoopDone(env, sent0, askedAt0, rounds0, sent, askedAt, rounds, messages, before, out, n);
      if !hasMoreTurns || n == |env.followUps| {
        RunIsOver(env, rounds, clock, n);
      }
    }

    /** `runLoop`: inner loops, separated by follow-up batches. Whatever the compactor does, every history sent
        has the claimed form exactly when no compaction has broken it, what the model is shown of it is answered
        accordingly, and the number of model calls is bounded. The record of its rounds says how they follow
        each other and why the run is over. */
    method RunLoop(messages: seq<Message>) returns (out: seq<Message>)
      requires Sound(env, form, kept) && Closed(messages, form) && nextFollowUp == 0 && sent == [] && !broken
      requires askedAt == [] && rounds == []
      modifies this`clock, this`sent, this`askedAt, this`broken, this`nextFollowUp, this`rounds
      ensures SentClosed(sent, form) <==> !broken
      ensures !broken ==> ShownAnswered(sent, form)
      ensures form.Anywhere? || form.Afterwards? ==> (ShownAnswered(sent, form) <==> !broken)
      ensures CompactorKeeps(env, form) || AppendOnly(env) ==> !broken
      ensures |sent| <= CallBound(env)
      ensures nextFollowUp <= |env.followUps| && |sent| >= MAX_AGENT_ROUNDS * nextFollowUp
      ensures AppendOnly(env) ==> Growing(sent, 0, messages, out) && AllInjected(env.followUps, nextFollowUp, out)
      ensures RunOver(env, rounds, clock, nextFollowUp)
      ensures RunRecord(env, sent, askedAt, rounds, messages, out, nextFollowUp)
    {
      hide Closed, AppendOnly, Sound, SentClosed, ShownAnswered, CompactorKeeps, RunOver, Growing, Judged, RunRecord;
      hide Going, Ended, Fine, CallBound, AllInjected;
      StartsGoing(messages);
      out := messages;
      while true
        invariant nextFollowUp <= |env.followUps|
        invariant Fine(out) || env.cancelled(clock)
        invariant Going(messages, out, nextFollowUp)
        decreases |env.followUps| - nextFollowUp
      {
        if env.cancelled(clock) {
          EndsCancelled(messages, out, nextFollowUp);
          break;
        }
        var hasMoreTurns, hasFollowUp;
        hasMoreTurns, out := NextLoop(messages, out, nextFollowUp);
        if !hasMoreTurns {
          break;
        }
        out, hasFollowUp := InjectFollowUpMessages(out);
        if !hasFollowUp {
          break;
        }
      }
      RunEnded(messages, out, nextFollowUp);
    }

    lemma RunEnded(messages: seq<Message>, out: seq<Message>, n: nat)
      requires Ended(messages, out, n)
      ensures SentClosed(sent, form) <==> !broken
      ensures !broken ==> ShownAnswered(sent, form)
      ensures form.Anywhere? || form.Afterwards? ==> (ShownAnswered(sent, form) <==> !broken)
      ensures CompactorKeeps(env, form) || AppendOnly(env) ==> !broken
      ensures |sent| <= CallBound(env)
      ensures n <= |env.followUps| && |sent| >= MAX_AGENT_ROUNDS * n
      ensures AppendOnly(env) ==> Growing(sent, 0, messages, out) && AllInjected(env.followUps, n, out)
      ensures RunOver(env, rounds, clock, n) && RunRecord(env, sent, askedAt, rounds, messages, out, n)
    {
      RunAppends(env, sent, messages, out, n);
      WithinBudget(env, n, |sent|);
      SentIsShown(sent, form);
      hide SentClosed, ShownAnswered, CompactorKeeps, RunOver, Growing, AllInjected, AppendOnly, RunRecord, LoopBudget;
      hide CallBound;
    }
  }

  lemma SteeringFits(env: Env, form: Form, kept: nat, t: nat, h: seq<Message>)
    requires Sound(env, form, kept) && Closed(h, form)
    ensures Closed(h + env.steering(t), form)
  {
    assert Injectable(form, env.steering(t));
    AppendCallFree(h, env.steering(t), form);
  }

  /** What `k` inner loops can cost. */
  function LoopBudget(env: Env, k: nat): nat {
    CallBudget(k * MAX_AGENT_ROUNDS, env.Retries())
  }

  /** What a whole run can cost. */
  function CallBound(env: Env): nat {
    MAX_AGENT_ROUNDS * (1 + |env.followUps|) * (1 + env.Retries())
  }

  lemma WithinBudget(env: Env, k: nat, n: nat)
    requires k <= |env.followUps| && n <= LoopBudget(env, k + 1)
    ensures n <= CallBound(env)
  {
    LoopBudgetBound(env, k);
  }

  lemma LoopBudgetBound(env: Env, k: nat)
    requires k <= |env.followUps|
    ensures k == 0 ==> LoopBudget(env, k) == 0
    ensures LoopBudget(env, k + 1) == LoopBudget(env, k) + CallBudget(MAX_AGENT_ROUNDS, env.Retries())
    ensures LoopBudget(env, k) <= LoopBudget(env, k + 1)
    ensures LoopBudget(env, k + 1) <= CallBound(env)
  {
    CallBudgetAdds(k * MAX_AGENT_ROUNDS, MAX_AGENT_ROUNDS, env.Retries());
    CallBudgetGrows((k + 1) * MAX_AGENT_ROUNDS, MAX_AGENT_ROUNDS * (1 + |env.followUps|), env.Retries());
    CallBudgetIs(MAX_AGENT_ROUNDS * (1 + |env.followUps|), env.Retries());
  }

  lemma GrowsFromHere(sent: seq<seq<Message>>, messages: seq<Message>)
    ensures Growing(sent, |sent|, messages, messages)
  {
  }

  lemma GrowsByOne(sent: seq<seq<Message>>, from: nat, first: seq<Message>, out: seq<Message>, shown: seq<Message>,
                   out': seq<Message>)
    requires Growing(sent, from, first, out) && out <= shown <= out'
    ensures Growing(sent + [shown], from, first, out')
  {
  }

  lemma GrowingEnds(sent: seq<seq<Message>>, from: nat, first: seq<Message>, last: seq<Message>)
    requires Growing(sent, from, first, last)
    ensures first <= last
  {
  }

  lemma GrowsOn(sent: seq<seq<Message>>, sent': seq<seq<Message>>, first: seq<Message>, middle: seq<Message>,
                last: seq<Message>, last': seq<Message>)
    requires Growing(sent, 0, first, middle) && sent <= sent' && Growing(sent', |sent|, middle, last) && last <= last'
    ensures Growing(sent', 0, first, last')
  {
  }

  /** Without a compactor, every history sent extends the first, and the follow-ups so far stand in the last. */
  ghost predicate AppendsSoFar(env: Env, sent: seq<seq<Message>>, messages: seq<Message>, out: seq<Message>, n: nat) {
    n <= |env.followUps| && (AppendOnly(env) ==> Growing(sent, 0, messages, out) && AllInjected(env.followUps, n, out))
  }

  lemma NothingAppended(env: Env, messages: seq<Message>)
    ensures AppendsSoFar(env, [], messages, messages, 0)
  {
  }

  lemma AppendsMore(env: Env, sent: seq<seq<Message>>, sent': seq<seq<Message>>, messages: seq<Message>,
                    before: seq<Message>, out: seq<Message>, n: nat)
    requires AppendsSoFar(env, sent, messages, before, n) && sent <= sent'
    requires AppendOnly(env) ==> Growing(sent', |sent|, before, out)
    ensures AppendsSoFar(env, sent', messages, out, n)
    ensures n < |env.followUps| ==> AppendsSoFar(env, sent', messages, out + env.followUps[n], n + 1)
  {
    if AppendOnly(env) {
      hide Growing, AllInjected, AppendOnly;
      GrowingEnds(sent', |sent|, before, out);
      GrowsOn(sent, sent', messages, before, out, out);
      InjectedStays(env.followUps, n, before, out);
      if n < |env.followUps| {
        GrowsOn(sent, sent', messages, before, out, out + env.followUps[n]);
        InjectedNext(env.followUps, n, out);
      }
    }
  }

  lemma RunAppends(env: Env, sent: seq<seq<Message>>, messages: seq<Message>, out: seq<Message>, n: nat)
    requires AppendsSoFar(env, sent, messages, out, n)
    ensures n <= |env.followUps|
    ensures AppendOnly(env) ==> Growing(sent, 0, messages, out) && AllInjected(env.followUps, n, out)
  {
  }

  lemma BatchAnswers(h: seq<Message>, turn: Assistant, results: seq<Message>, form: Form)
    requires Closed(h, form) && CallFree(results) && |results| == |Calls(turn.content)|
    requires forall i | 0 <= i < |results| ::
               results[i].ToolResultMessage? && results[i].toolCallId == Calls(turn.content)[i].id
    ensures Closed(h + [AssistantMessage(turn)] + results, form)
  {
    ResultsAnswer(turn.content, results);
    AppendTurn(h, AssistantMessage(turn), results, form);
  }

  lemma AppendSilentTurn(h: seq<Message>, turn: Assistant, form: Form)
    requires Closed(h, form) && Calls(turn.content) == []
    ensures Closed(h + [AssistantMessage(turn)], form)
  {
    CallIdsMembers(turn.content);
    AppendTurn(h, AssistantMessage(turn), [], form);
    assert h + [AssistantMessage(turn)] + [] == h + [AssistantMessage(turn)];
  }

  // ---------------------------------------------------------------- what the model is shown, and the stock compactors

  lemma {:induction false} ForLlmConcat(a: seq<Message>, b: seq<Message>)
    ensures ForLlm(a + b) == ForLlm(a) + ForLlm(b)
  {
    if b == [] {
      assert a + b == a;
    } else {
      assert (a + b)[..|a + b| - 1] == a + b[..|b| - 1];
      ForLlmConcat(a, b[..|b| - 1]);
    }
  }

  /** The model is shown every message of the three kinds it knows, once and in order, and no other. */
  lemma ForLlmShows(a: seq<Message>, m: Message, b: seq<Message>)
    ensures ForLlm(a + [m] + b) == ForLlm(a) + ForLlm([m]) + ForLlm(b)
    ensures ForLlm([m]) == if m.NilMessage? || m.ForeignMessage? then [] else [m]
  {
    ForLlmConcat(a + [m], b);
    ForLlmConcat(a, [m]);
    assert [m][..0] == [];
  }

  lemma {:induction false} ForLlmResults(h: seq<Message>)
    ensures ResultIds(ForLlm(h)) == ResultIds(h)
    ensures forall m | m in ForLlm(h) :: m in h
  {
    if h != [] {
      var front, m := h[..|h| - 1], h[|h| - 1];
      ForLlmResults(front);
      ResultIdsConcat(ForLlm(front), [m]);
      ResultIdsConcat(front, [m]);
      assert front + [m] == h;
      assert [m][..0] == [] && ForLlm(front) + [] == ForLlm(front);
    }
  }

  /** Only messages without calls are not shown. */
  lemma ForLlmCons(m: Message, h: seq<Message>)
    ensures ForLlm([m] + h) == [m] + ForLlm(h) || (ForLlm([m] + h) == ForLlm(h) && CallIdsOf(m) == {})
  {
    ForLlmConcat([m], h);
    assert [m][..0] == [] && [] + ForLlm(h) == ForLlm(h);
    assert ForLlm([m]) == [m] || ForLlm([m]) == [];
  }

  lemma {:induction false} ForLlmKeepsAnsweredLater(h: seq<Message>)
    ensures AnsweredLater(ForLlm(h)) <==> AnsweredLater(h)
    decreases h
  {
    if h != [] {
      hide ForLlm, AnsweredLater, ResultIds, CallIdsOf;
      assert h == [h[0]] + h[1..];
      ForLlmKeepsAnsweredLater(h[1..]);
      ForLlmCons(h[0], h[1..]);
      ForLlmResults(h[1..]);
      AnsweredLaterCons(h[0], h[1..]);
      AnsweredLaterCons(h[0], ForLlm(h[1..]));
    }
  }

  /** Converting a history for the model drops no call and no result: it is answered, in either sense, exactly
      when the history is. */
  lemma ForLlmKeepsAnswered(h: seq<Message>)
    ensures Answered(ForLlm(h)) <==> Answered(h)
    ensures AnsweredLater(ForLlm(h)) <==> AnsweredLater(h)
  {
    ForLlmResults(h);
    ForLlmCalls(h, ResultIds(h));
    ForLlmKeepsAnsweredLater(h);
    hide ForLlm, ResultIds, CallIdsOf, AnsweredLater;
  }

  /** The calls shown are the calls of the history. */
  lemma {:induction false} ForLlmCalls(h: seq<Message>, ids: set<string>)
    ensures (forall i | 0 <= i < |ForLlm(h)| :: CallIdsOf(ForLlm(h)[i]) <= ids)
       <==> (forall i | 0 <= i < |h| :: CallIdsOf(h[i]) <= ids)
  {
    if h != [] {
      var front, m := h[..|h| - 1], h[|h| - 1];
      ForLlmCalls(front, ids);
      CallsWithinConcat(ForLlm(front), if ForLlm(h) == ForLlm(front) then [] else [m], ids);
      CallsWithinConcat(front, [m], ids);
      assert front + [m] == h;
      assert ForLlm(front) + [] == ForLlm(front);
      assert |ForLlm(front) + [m]| == |ForLlm(front)| + 1;
    }
  }

  lemma CallsWithinConcat(a: seq<Message>, b: seq<Message>, ids: set<string>)
    ensures (forall i | 0 <= i < |a + b| :: CallIdsOf((a + b)[i]) <= ids)
       <==> (forall i | 0 <= i < |a| :: CallIdsOf(a[i]) <= ids) && (forall i | 0 <= i < |b| :: CallIdsOf(b[i]) <= ids)
  {
    if forall i | 0 <= i < |a + b| :: CallIdsOf((a + b)[i]) <= ids {
      forall i | 0 <= i < |a|
        ensures CallIdsOf(a[i]) <= ids
      {
        assert (a + b)[i] == a[i];
      }
      forall i | 0 <= i < |b|
        ensures CallIdsOf(b[i]) <= ids
      {
        assert (a + b)[|a| + i] == b[i];
      }
    }
  }

  /** What the model was shown is answered: anywhere, or after each call. */
  ghost predicate ShownAnswered(sent: seq<seq<Message>>, form: Form) {
    forall k | 0 <= k < |sent| ::
      (form.Anywhere? ==> Answered(ForLlm(sent[k])))
      && (form.Afterwards? || form.BehindSafeHead? ==> AnsweredLater(ForLlm(sent[k])))
  }

  /** So it is whenever the histories sent have the claimed form, and, where no safe head is claimed, only then. */
  lemma SentIsShown(sent: seq<seq<Message>>, form: Form)
    ensures SentClosed(sent, form) ==> ShownAnswered(sent, form)
    ensures form.Anywhere? || form.Afterwards? ==> (SentClosed(sent, form) <==> ShownAnswered(sent, form))
  {
    forall k | 0 <= k < |sent|
      ensures Answered(ForLlm(sent[k])) <==> Answered(sent[k])
      ensures AnsweredLater(ForLlm(sent[k])) <==> AnsweredLater(sent[k])
    {
      ForLlmKeepsAnswered(sent[k]);
    }
    hide Answered, AnsweredLater, ForLlm;
  }

  /** Every stock chain keeps the messages that all its strategies keep. */
  lemma ChainTailKept(strategies: seq<Strategy>, h: seq<Message>, atMost: nat)
    ensures TailKept(h, Chained(strategies, h), KeptBy(strategies, atMost))
  {
    ChainKeepsTail(strategies, h, atMost);
  }

  /** A chain of windows never breaks a history in which every call is answered after it. */
  lemma WindowChainKeeps(strategies: seq<Strategy>, h: seq<Message>)
    requires forall s | s in strategies :: s.SlideWindow?
    ensures FormKept(h, Chained(strategies, h), Afterwards)
  {
    if AnsweredLater(h) && Chained(strategies, h).Changed? {
      WindowsAnswer(strategies, h);
      ChainKeepsAnswered(strategies, h);
    }
  }

  /** It can break one whose answers stand before their calls. */
  lemma WindowOrphansACall(id: string) returns (h: seq<Message>)
    ensures Answered(h) && !FormKept(h, Chained([SlideWindow(1)], h), Anywhere)
  {
    var call := ToolCall(Call(id, "", "", ""));
    var turn := AssistantMessage(Assistant([call], "", "", "", StopToolUse, "", 0));
    var result := ToolResultMessage(id, "", [], false, 0);
    h := [result, turn];
    assert [call][..0] == [] && [turn][..0] == [] && h[..1] == [result] && [result][..0] == [];
    assert CallIdsOf(turn) == CallIds([]) + {id};
    assert ResultIds(h) == ResultIds([result]) + {};
    assert Chained([SlideWindow(1)], h) == Changed([turn]);
    assert CallIdsOf([turn][0]) == {id} && ResultIds([turn]) == {};
  }

  lemma {:induction false} WindowsAnswer(strategies: seq<Strategy>, h: seq<Message>)
    requires forall s | s in strategies :: s.SlideWindow?
    ensures HeadAnswered(strategies, h)
  {
    if strategies != [] {
      WindowsAnswer(strategies[1..], h);
    }
  }

  /** A chain in which every window stands behind an earlier summarizer never breaks an answered history
      behind a safe head. */
  lemma SummarizerChainKeeps(strategies: seq<Strategy>, h: seq<Message>)
    requires Shadowed(strategies)
    ensures FormKept(h, Chained(strategies, h), BehindSafeHead)
  {
    if Closed(h, BehindSafeHead) && Chained(strategies, h).Changed? {
      ShadowedChainKeepsSafeHead(strategies, h);
    }
  }

  /** The application's chain: a summarizer that keeps 8 of at least 20 messages, then a window of 40. */
  function ApplicationChain(summarize: Summarizer): seq<Strategy> {
    [LLMSummarize(8, 20, summarize), SlideWindow(40)]
  }

  /** With that chain, whatever the summarizer answers, a run never breaks an answered history behind a safe
      head, and every compaction keeps the last 8 messages. */
  lemma ApplicationChainFits(env: Env, summarize: nat -> Summarizer)
    requires forall t, h :: env.compact(t, h) == Chained(ApplicationChain(summarize(t)), h)
    ensures CompactorKeeps(env, BehindSafeHead)
    ensures forall t, h :: TailKept(h, env.compact(t, h), 8)
  {
    forall t, h
      ensures FormKept(h, env.compact(t, h), BehindSafeHead) && TailKept(h, env.compact(t, h), 8)
    {
      var chain := ApplicationChain(summarize(t));
      assert ActsBeyond(chain[0], 40);
      assert ShadowedAt(chain, 1);
      SummarizerChainKeeps(chain, h);
      ChainTailKept(chain, h, 8);
      assert chain[1..] == [SlideWindow(40)] && chain[1..][1..] == [];
      assert KeptBy([], 8) == 8 && KeptBy([SlideWindow(40)], 8) == 8 && KeptBy(chain, 8) == 8;
    }
  }
}
