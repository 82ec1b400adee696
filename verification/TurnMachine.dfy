/** The turn state machine: handlers, driver loop, approval gate and persistence
    (crux-turn/states.go, crux-turn/turn.go). */
module TurnMachine {
  import opened Wrappers
  import opened Messages

  datatype Role = UserRole | AssistantRole | ToolRole | OtherRole(name: string)

  /** What the adapter exposes of a message. */
  datatype Msg = Msg(role: Role, content: string, calls: seq<Call>, callId: string, name: string)

  datatype State =
    | Unset
    | Received | Provisioning | Streaming | Dispatching | AwaitingApproval | Executing | Steering | AgentRunning
    | Completed | Failed
    | Unknown(name: string)

  predicate IsTerminal(s: State) {
    s.Completed? || s.Failed?
  }

  predicate IsValid(s: State) {
    !s.Unset? && !s.Unknown?
  }

  datatype Event = Start | Resumed | Continue | ApprovalResolved | ApprovalDenied | Abort | OtherEvent(name: string)

  /** The persisted fields of a turn that the machine reads. */
  datatype Snapshot = Snapshot(state: State, round: int, messages: seq<Msg>, pending: seq<Call>,
                               awaitingCallId: string, error: string)

  datatype StreamOutcome = Replied(reply: Msg) | StreamFailed(err: string) | StreamPanics(text: string)

  datatype Decision =
    | Allow(resultId: string, content: string)
    | NeedsApproval
    | Deny(layer: string, rule: string)
    | Block(layer: string, rule: string)
    | UnknownOutcome(outcome: string)
    | DispatchFailed(err: string)
    | DispatchPanics(text: string)

  datatype Executor =
    | WithDispatcher(decide: (nat, Call) -> Decision)
    | WithToolFn(run: (nat, Call) -> Result<(string, string), string>)  // result id and content, or a panic
    | NoExecutor

  /** Everything outside the machine, as functions of a clock that advances at every consultation. */
  datatype Env = Env(
    streamFn: Option<nat -> StreamOutcome>,
    executor: Executor,
    callbackPanics: nat -> bool,     // OnStreaming or OnToolCall
    createPanics: nat -> bool,       // Approval.Create
    maxRounds: int,
    events: seq<Event>,              // external events; afterwards ctx is cancelled
    saves: nat -> bool               // whether a Save succeeds
  ) {
    function MaxRounds(): int {
      if maxRounds == 0 then 50 else maxRounds
    }
  }

  function ToolMessage(id: string, name: string, content: string): Msg {
    Msg(ToolRole, content, [], id, name)
  }

  function Placeholder(c: Call): Msg {
    ToolMessage(c.id, c.name, "AWAITING_APPROVAL")
  }

  predicate IsPlaceholder(m: Msg) {
    m.role.ToolRole? && m.content == "AWAITING_APPROVAL"
  }

  datatype HandlerResult = Next(state: State) | HandlerError(err: string)

  // ---------------------------------------------------------------- dispatching one batch

  /** What becomes of one call: it ran, it waits for approval, or it fails the turn. */
  datatype Verdict = Ran(resultId: string, content: string) | Gate | Fails(err: string)

  function DispatchOneTool(env: Env, t: nat, c: Call): (v: Verdict)
    ensures v.Fails? ==> v.err != ""
  {
    match env.executor
    case NoExecutor => Fails("no executor configured")
    case WithToolFn(run) =>
      (match run(t, c)
       case Err(text) => Fails("handler panicked in state dispatching: " + text)
       case Ok(result) => Ran(result.0, result.1))
    case WithDispatcher(decide) =>
      match decide(t, c)
      case Allow(id, content) => Ran(id, content)
      case NeedsApproval => Gate
      case Deny(layer, rule) => Fails("dispatching: denied by " + layer + " (rule=" + rule + ")")
      case Block(layer, rule) => Fails("dispatching: blocked by " + layer + " (rule=" + rule + ")")
      case UnknownOutcome(outcome) => Fails("dispatching: unknown DispatchOutcome " + outcome)
      case DispatchFailed(err) => Fails("dispatching: dispatcher error: " + err)
      case DispatchPanics(text) => Fails("handler panicked in state dispatching: " + text)
  }

  /** A call runs when the dispatcher allows it, or, without a dispatcher, when the tool function returns. */
  predicate CallRuns(env: Env, t: nat, c: Call) {
    match env.executor
    case WithDispatcher(decide) => decide(t, c).Allow?
    case WithToolFn(run) => run(t, c).Ok?
    case NoExecutor => false
  }

  /** A call waits when the dispatcher asks for approval. */
  predicate CallWaits(env: Env, t: nat, c: Call) {
    env.executor.WithDispatcher? && env.executor.decide(t, c).NeedsApproval?
  }

  /** What a call that runs produces: the id and the content of its result. */
  function Produced(env: Env, t: nat, c: Call): (string, string)
    requires CallRuns(env, t, c)
  {
    match env.executor
    case WithDispatcher(decide) => (decide(t, c).resultId, decide(t, c).content)
    case WithToolFn(run) => run(t, c).value
  }

  /** A call runs, with what its executor produced, exactly when it is allowed to; it waits exactly when approval
      is asked for; in every other case it fails the turn. */
  lemma VerdictIs(env: Env, t: nat, c: Call)
    ensures var v := DispatchOneTool(env, t, c);
            && (v.Ran? <==> CallRuns(env, t, c)) && (v.Gate? <==> CallWaits(env, t, c))
            && (v.Ran? ==> Produced(env, t, c) == (v.resultId, v.content))
  {
  }

  predicate Allowed(env: Env, t: nat, c: Call) {
    DispatchOneTool(env, t, c).Ran?
  }

  /** How many of the calls run before one is not allowed; call `i` is decided at `t + i`. */
  function AllowedCount(env: Env, t: nat, calls: seq<Call>, from: nat): (n: nat)
    requires from <= |calls|
    ensures from <= n <= |calls|
    ensures forall i | from <= i < n :: Allowed(env, t + i, calls[i])
    ensures n < |calls| ==> !Allowed(env, t + n, calls[n])
    decreases |calls| - from
  {
    if from == |calls| || !Allowed(env, t + from, calls[from]) then from
    else AllowedCount(env, t, calls, from + 1)
  }

  function AllowedMessage(env: Env, t: nat, c: Call): Msg
    requires Allowed(env, t, c)
  {
    var v := DispatchOneTool(env, t, c);
    ToolMessage(v.resultId, c.name, v.content)
  }

  function ResultMessages(env: Env, t: nat, calls: seq<Call>, n: nat): (r: seq<Msg>)
    requires n <= |calls| && forall i | 0 <= i < n :: Allowed(env, t + i, calls[i])
    ensures |r| == n
    ensures forall i | 0 <= i < n :: r[i] == AllowedMessage(env, t + i, calls[i])
  {
    if n == 0 then [] else ResultMessages(env, t, calls, n - 1) + [AllowedMessage(env, t + n - 1, calls[n - 1])]
  }

  function AllowedRun(env: Env, t: nat, c: Call): Execution
    requires Allowed(env, t, c)
  {
    Execution(c, DispatchOneTool(env, t, c).content)
  }

  lemma NothingRun(env: Env, t: nat, calls: seq<Call>)
    ensures Executions(env, t, calls, 0) == {} && ResultMessages(env, t, calls, 0) == []
    ensures calls == [] ==> AllowedCount(env, t, calls, 0) == 0
  {
  }

  /** The executions of the first `n` calls. */
  function Executions(env: Env, t: nat, calls: seq<Call>, n: nat): set<Execution>
    requires n <= |calls| && forall i | 0 <= i < n :: Allowed(env, t + i, calls[i])
  {
    if n == 0 then {} else Executions(env, t, calls, n - 1) + {AllowedRun(env, t + n - 1, calls[n - 1])}
  }

  lemma {:induction false} ExecutionsHold(env: Env, t: nat, calls: seq<Call>, n: nat, i: nat)
    requires i < n <= |calls| && forall i | 0 <= i < n :: Allowed(env, t + i, calls[i])
    ensures AllowedRun(env, t + i, calls[i]) in Executions(env, t, calls, n)
  {
    if i < n - 1 {
      ExecutionsHold(env, t, calls, n - 1, i);
    }
  }

  /** One more allowed call is one more result. */
  lemma OneMoreAllowed(env: Env, t: nat, calls: seq<Call>, i: nat)
    requires i < |calls| && AllowedCount(env, t, calls, 0) == AllowedCount(env, t, calls, i)
    requires Allowed(env, t + i, calls[i])
    ensures AllowedCount(env, t, calls, 0) == AllowedCount(env, t, calls, i + 1)
    ensures ResultMessages(env, t, calls, i + 1) == ResultMessages(env, t, calls, i)
              + [AllowedMessage(env, t + i, calls[i])]
    ensures Executions(env, t, calls, i + 1) == Executions(env, t, calls, i)
              + {AllowedRun(env, t + i, calls[i])}
  {
  }

  /** The call the last assistant message with this id asked for. */
  function FirstWithId(calls: seq<Call>, id: string): (c: Option<Call>)
    ensures c.Some? ==> c.value in calls && c.value.id == id
    ensures c.None? ==> forall k | 0 <= k < |calls| :: calls[k].id != id
  {
    if calls == [] then None
    else if calls[0].id == id then Some(calls[0])
    else FirstWithId(calls[1..], id)
  }

  function LatestCall(ms: seq<Msg>, id: string): Option<Call> {
    if ms == [] then None
    else
      var m := ms[|ms| - 1];
      var found := if m.role.AssistantRole? then FirstWithId(m.calls, id) else None;
      if found.Some? then found else LatestCall(ms[..|ms| - 1], id)
  }

  // ---------------------------------------------------------------- what a transcript must look like

  /** A call that was run, and what it produced. */
  datatype Execution = Execution(call: Call, content: string)

  /** `m` reports an execution of `c` that has taken place. */
  predicate Answers(ran: set<Execution>, c: Call, m: Msg) {
    && m.role == ToolRole && m.callId == c.id && m.name == c.name && m.calls == []
    && Execution(c, m.content) in ran
  }

  /** The assistant message at `p` is followed by one answer per call, in order, and then by the next
      assistant message or the end. */
  ghost predicate AnsweredAt(ran: set<Execution>, ms: seq<Msg>, p: nat)
    requires p < |ms|
  {
    ms[p].role.AssistantRole? ==>
      && p + |ms[p].calls| < |ms|
      && (forall j | 0 <= j < |ms[p].calls| :: Answers(ran, ms[p].calls[j], ms[p + 1 + j]))
      && (p + 1 + |ms[p].calls| == |ms| || ms[p + 1 + |ms[p].calls|].role.AssistantRole?)
  }

  /** The messages from `from` on are assistant messages, each with all its answers. */
  ghost predicate AllAnswered(ran: set<Execution>, ms: seq<Msg>, from: nat) {
    && from <= |ms| && (from < |ms| ==> ms[from].role.AssistantRole?)
    && forall p | from <= p < |ms| :: AnsweredAt(ran, ms, p)
  }

  predicate DistinctIds(calls: seq<Call>) {
    forall i, j | 0 <= i < j < |calls| :: calls[i].id != calls[j].id
  }

  /** The assistant message at `p` is the last one; the answers so far leave exactly `pending`. */
  ghost predicate Underway(ran: set<Execution>, ms: seq<Msg>, from: nat, p: nat, pending: seq<Call>) {
    && from <= p < |ms| && AllAnswered(ran, ms[..p], from)
    && ms[p].role.AssistantRole? && DistinctIds(ms[p].calls)
    && |ms| - p - 1 <= |ms[p].calls| && pending == ms[p].calls[|ms| - p - 1..]
    && forall j | 0 <= j < |ms| - p - 1 :: Answers(ran, ms[p].calls[j], ms[p + 1 + j])
  }

  /** The oracles keep the framework's conventions: replies are assistant messages whose calls have
      distinct ids, and a result bears the id of its call. */
  ghost predicate Sound(env: Env) {
    && (env.streamFn.Some? ==> forall t :: SoundReply(env.streamFn.value(t)))
    && forall t, c :: SoundDecision(c, DispatchOneTool(env, t, c))
  }

  predicate SoundReply(r: StreamOutcome) {
    r.Replied? ==> r.reply.role.AssistantRole? && DistinctIds(r.reply.calls)
  }

  predicate SoundDecision(c: Call, v: Verdict) {
    v.Ran? ==> v.resultId == c.id
  }

  /** The history without a trailing placeholder. */
  function Body(s: Snapshot): seq<Msg> {
    if s.state.AwaitingApproval? && |s.messages| > 0 then s.messages[..|s.messages| - 1] else s.messages
  }

  /** How many answers are still to come before the model is asked again. */
  function Todo(s: Snapshot): nat {
    if s.state.AwaitingApproval? then 1
    else if s.state.Dispatching? || s.state.Executing? then |s.pending|
    else 0
  }

  /** No call has been lost: between rounds everything is answered; within one, the rest is pending. */
  ghost predicate Intact(ran: set<Execution>, s: Snapshot, from: nat) {
    if s.state.Dispatching? || s.state.Executing? then BatchPending(ran, s.messages, from, s.pending)
    else if s.state.AwaitingApproval? then exists p, c :: GateAt(ran, s, from, p, c)
    else AllAnswered(ran, s.messages, from)
  }

  ghost predicate BatchPending(ran: set<Execution>, ms: seq<Msg>, from: nat, pending: seq<Call>) {
    (pending == [] && AllAnswered(ran, ms, from)) || exists p :: Underway(ran, ms, from, p, pending)
  }

  /** Only the gated call is still unanswered. */
  ghost predicate GateAt(ran: set<Execution>, s: Snapshot, from: nat, p: nat, c: Call) {
    Underway(ran, Body(s), from, p, [c]) && c.id == s.awaitingCallId
  }

  /** A later assistant message stands where an answer to the one at `p` should. */
  predicate Overtaken(ms: seq<Msg>, p: nat, q: nat) {
    p < q < |ms| && ms[p].role.AssistantRole? && ms[q].role.AssistantRole? && q <= p + |ms[p].calls|
  }

  /** Some answer to the assistant message at `p` is missing and can no longer come. */
  ghost predicate LostAt(s: Snapshot, from: nat, p: nat) {
    && from <= p < |s.messages| && s.messages[p].role.AssistantRole?
    && ((exists q :: Overtaken(s.messages, p, q)) || |Body(s)| + Todo(s) <= p + |s.messages[p].calls|)
  }

  ghost predicate Shape(ran: set<Execution>, s: Snapshot, from: nat, lost: bool) {
    && from <= |s.messages|
    && (s.state.AwaitingApproval? ==> |s.messages| > from && IsPlaceholder(s.messages[|s.messages| - 1]))
    && if lost then exists p :: LostAt(s, from, p) else Intact(ran, s, from)
  }

  // ---------------------------------------------------------------- lemmas about transcripts

  /** A reply opens a round in which all its calls are pending. */
  lemma ReplyOpensRound(ran: set<Execution>, ms: seq<Msg>, from: nat, reply: Msg)
    requires AllAnswered(ran, ms, from) && reply.role.AssistantRole? && DistinctIds(reply.calls)
    ensures Underway(ran, ms + [reply], from, |ms|, reply.calls)
    ensures reply.calls == [] ==> AllAnswered(ran, ms + [reply], from)
  {
    assert (ms + [reply])[..|ms|] == ms;
    assert Underway(ran, ms + [reply], from, |ms|, reply.calls);
    if reply.calls == [] {
      RoundCloses(ran, ms + [reply], from, |ms|);
    }
  }

  /** With nothing pending the round is complete. */
  lemma RoundCloses(ran: set<Execution>, ms: seq<Msg>, from: nat, p: nat)
    requires Underway(ran, ms, from, p, [])
    ensures AllAnswered(ran, ms, from)
  {
    hide Answers;
    forall i | from <= i < |ms|
      ensures AnsweredAt(ran, ms, i)
    {
      if i < p {
        assert AnsweredAt(ran, ms[..p], i);
      } else if i > p {
        assert Answers(ran, ms[p].calls[i - p - 1], ms[p + 1 + (i - p - 1)]);
        AnswersAreToolMessages(ran, ms[p].calls[i - p - 1], ms[i]);
      }
    }
    assert from < |ms| ==> from == p || ms[from] == ms[..p][from];
  }

  lemma AnswersAreToolMessages(ran: set<Execution>, c: Call, m: Msg)
    requires Answers(ran, c, m)
    ensures m.role.ToolRole? && m.calls == []
  {
  }

  lemma AllowedReports(env: Env, ran: set<Execution>, t: nat, c: Call)
    requires Sound(env) && Allowed(env, t, c) && AllowedRun(env, t, c) in ran
    ensures Answers(ran, c, AllowedMessage(env, t, c))
  {
    assert SoundDecision(c, DispatchOneTool(env, t, c));
  }

  /** What has been answered stays answered as more is run. */
  lemma AnsweredStays(ran: set<Execution>, ran': set<Execution>, ms: seq<Msg>, from: nat)
    requires ran <= ran' && AllAnswered(ran, ms, from)
    ensures AllAnswered(ran', ms, from)
  {
    forall p | from <= p < |ms|
      ensures AnsweredAt(ran', ms, p)
    {
      assert AnsweredAt(ran, ms, p);
    }
  }

  lemma UnderwayStays(ran: set<Execution>, ran': set<Execution>, ms: seq<Msg>, from: nat, p: nat, pending: seq<Call>)
    requires ran <= ran' && Underway(ran, ms, from, p, pending)
    ensures Underway(ran', ms, from, p, pending)
  {
    AnsweredStays(ran, ran', ms[..p], from);
    hide AllAnswered, DistinctIds;
  }

  /** One answer shortens the pending list. */
  lemma OneAdvances(ran: set<Execution>, ms: seq<Msg>, from: nat, p: nat, pending: seq<Call>, m: Msg)
    requires Underway(ran, ms, from, p, pending) && pending != [] && Answers(ran, pending[0], m)
    ensures Underway(ran, ms + [m], from, p, pending[1..])
  {
    hide AllAnswered, DistinctIds, Answers;
    var k := |ms| - p - 1;
    assert (ms + [m])[..p] == ms[..p];
    assert ms[p].calls[k..][0] == ms[p].calls[k] && ms[p].calls[k..][1..] == ms[p].calls[k + 1..];
  }

  /** The results of allowed calls shorten the pending list. */
  lemma {:induction false} ResultsAdvance(env: Env, ran: set<Execution>, ms: seq<Msg>, from: nat, p: nat,
                                          pending: seq<Call>, t: nat, n: nat)
    requires Sound(env) && Underway(ran, ms, from, p, pending)
    requires n <= |pending| && forall i | 0 <= i < n :: Allowed(env, t + i, pending[i])
    requires Executions(env, t, pending, n) <= ran
    ensures Underway(ran, ms + ResultMessages(env, t, pending, n), from, p, pending[n..])
  {
    hide Underway, Answers, Allowed, AllowedMessage, Sound;
    if n == 0 {
      assert ms + [] == ms && pending[0..] == pending;
    } else {
      var c := pending[n - 1];
      ResultsAdvance(env, ran, ms, from, p, pending, t, n - 1);
      ExecutionsHold(env, t, pending, n, n - 1);
      AllowedReports(env, ran, t + n - 1, c);
      var before, m := ms + ResultMessages(env, t, pending, n - 1), AllowedMessage(env, t + n - 1, c);
      OneAdvances(ran, before, from, p, pending[n - 1..], m);
      assert before + [m] == ms + ResultMessages(env, t, pending, n) && pending[n - 1..][1..] == pending[n..];
    }
  }

  /** The search after an approval finds the call the placeholder stands for. */
  lemma FindsGatedCall(ran: set<Execution>, ms: seq<Msg>, from: nat, p: nat, c: Call)
    requires Underway(ran, ms, from, p, [c])
    ensures LatestCall(ms, c.id) == Some(c)
  {
    hide AllAnswered;
    assert c == ms[p].calls[|ms| - p - 1..][0];
    assert c == ms[p].calls[|ms| - p - 1];
    assert FirstWithId(ms[p].calls, c.id) == Some(c);
    assert LatestCall(ms[..p + 1], c.id) == Some(c);
    SkipsToolMessages(ran, ms, from, p, [c], c.id, |ms|);
    assert ms[..|ms|] == ms;
  }

  lemma {:induction false} SkipsToolMessages(ran: set<Execution>, ms: seq<Msg>, from: nat, p: nat, pending: seq<Call>,
                                             id: string, n: nat)
    requires Underway(ran, ms, from, p, pending) && p + 1 <= n <= |ms|
    ensures LatestCall(ms[..n], id) == LatestCall(ms[..p + 1], id)
    decreases n
  {
    hide AllAnswered;
    if n > p + 1 {
      SkipsToolMessages(ran, ms, from, p, pending, id, n - 1);
      assert Answers(ran, ms[p].calls[n - 2 - p], ms[p + 1 + (n - 2 - p)]);
      AnswersAreToolMessages(ran, ms[p].calls[n - 2 - p], ms[n - 1]);
      assert ms[..n][..n - 1] == ms[..n - 1];
    }
  }

  /** Between rounds, a lost answer is missing from the history that is sent. */
  lemma LostMeansUnanswered(ran: set<Execution>, s: Snapshot, from: nat, p: nat)
    requires LostAt(s, from, p) && s.state.Streaming?
    ensures !AllAnswered(ran, s.messages, from)
  {
    if AllAnswered(ran, s.messages, from) {
      assert AnsweredAt(ran, s.messages, p);
      if q: nat :| Overtaken(s.messages, p, q) {
        NotOvertaken(ran, s.messages, p, q);
      }
    }
  }

  lemma NotOvertaken(ran: set<Execution>, ms: seq<Msg>, p: nat, q: nat)
    requires p < q < |ms| && AnsweredAt(ran, ms, p) && q <= p + |ms[p].calls|
    ensures ms[p].role.AssistantRole? ==> !ms[q].role.AssistantRole?
  {
    assert ms[p].role.AssistantRole? ==> Answers(ran, ms[p].calls[q - p - 1], ms[p + 1 + (q - p - 1)]);
  }

  // ---------------------------------------------------------------- what each handler does to the shape

  /** The dispatching handler ran the calls up to the first that is not allowed and stopped there.
      Approval of a call before the last drops the calls after it. */
  ghost predicate Dispatched(env: Env, t: nat, s: Snapshot, r: HandlerResult, s': Snapshot, lost: bool, lost': bool) {
    var n := AllowedCount(env, t, s.pending, 0);
    var results := s.messages + ResultMessages(env, t, s.pending, n);
    && s'.state == s.state && s'.round == s.round && s'.error == s.error
    && match r
    case Next(AwaitingApproval) =>
      && n < |s.pending| && DispatchOneTool(env, t + n, s.pending[n]).Gate? && !env.createPanics(t + n)
      && s'.messages == results + [Placeholder(s.pending[n])] && s'.awaitingCallId == s.pending[n].id
      && (lost' <==> lost || n + 1 < |s.pending|)
    case Next(next) => next.Steering? && n == |s.pending| && s'.messages == results && s'.pending == [] && lost' == lost
    case HandlerError(err) =>
      && n < |s.pending| && s'.messages == results && lost' == lost
      && (DispatchOneTool(env, t + n, s.pending[n]) == Fails(err)
          || (DispatchOneTool(env, t + n, s.pending[n]).Gate? && env.createPanics(t + n)))
  }

  /** One invocation of the model, at time `t`, and what becomes of its reply. */
  predicate Streamed(env: Env, t: nat, s: Snapshot, r: HandlerResult, s': Snapshot) {
    if env.streamFn.None? then r.HandlerError? && s' == s
    else if s.round >= env.MaxRounds() then r == Next(Completed) && s' == s
    else
      match env.streamFn.value(t)
      case Replied(reply) =>
        && s' == s.(messages := s.messages + [reply], round := s.round + 1, pending := s'.pending)
        && (env.callbackPanics(t + 1) <==> r.HandlerError?)
        && (r.Next? ==> if reply.calls == [] then r.state.Completed? && s'.pending == s.pending
                        else r.state.Dispatching? && s'.pending == reply.calls)
      case _ => r.HandlerError? && s' == s.(round := s.round + 1)
  }

  /** Where the steering handler goes. */
  function SteeringNext(env: Env, round: int): State {
    if round < env.MaxRounds() then Streaming else Completed
  }

  /** Steering ends a turn exactly where the streaming handler, entered instead, would end it without asking the
      model, and goes on exactly where that asks. */
  lemma SteeringAnticipatesStreaming(env: Env, t: nat, s: Snapshot, r: HandlerResult, s': Snapshot)
    requires env.streamFn.Some? && Streamed(env, t, s.(state := Streaming), r, s')
    ensures SteeringNext(env, s.round).Completed? <==> r == Next(Completed) && s'.messages == s.messages
    ensures SteeringNext(env, s.round).Streaming? <==> s'.round == s.round + 1
  {
  }

  function Popped(ms: seq<Msg>): seq<Msg> {
    if |ms| > 0 && IsPlaceholder(ms[|ms| - 1]) then ms[..|ms| - 1] else ms
  }

  /** The approved call replaces the placeholder as the only pending call. */
  ghost predicate Approved(s: Snapshot, s': Snapshot) {
    var popped := Popped(s.messages);
    && s.awaitingCallId != "" && LatestCall(popped, s.awaitingCallId).Some?
    && s' == s.(messages := popped, pending := [LatestCall(popped, s.awaitingCallId).value], awaitingCallId := "")
  }

  // ---------------------------------------------------------------- why a handler fails

  /** Some assistant message asked for a call with this id. */
  ghost predicate AskedFor(ms: seq<Msg>, id: string) {
    exists p, k | 0 <= p < |ms| && ms[p].role.AssistantRole? && 0 <= k < |ms[p].calls| :: ms[p].calls[k].id == id
  }

  lemma {:induction false} LatestCallFinds(ms: seq<Msg>, id: string)
    ensures LatestCall(ms, id).Some? <==> AskedFor(ms, id)
    ensures LatestCall(ms, id).Some? ==> LatestCall(ms, id).value.id == id
  {
    if ms != [] {
      var front, m := ms[..|ms| - 1], ms[|ms| - 1];
      LatestCallFinds(front, id);
      assert FirstWithId(m.calls, id).Some? ==> exists k | 0 <= k < |m.calls| :: m.calls[k].id == id;
      if AskedFor(front, id) {
        var p, k :| 0 <= p < |front| && front[p].role.AssistantRole? && 0 <= k < |front[p].calls|
                 && front[p].calls[k].id == id;
        assert ms[p] == front[p];
      }
    }
  }

  /** The first `n` pending calls run, and the next one fails the turn: it neither runs nor waits, or it waits but
      the approval cannot be created. */
  predicate FailsAt(env: Env, t: nat, pending: seq<Call>, n: nat) {
    && n < |pending| && (forall i | 0 <= i < n :: CallRuns(env, t + i, pending[i]))
    && !CallRuns(env, t + n, pending[n]) && (CallWaits(env, t + n, pending[n]) ==> env.createPanics(t + n))
  }

  /** The reasons for which a handler, entered at time `t` with an event, fails its turn. */
  ghost predicate FailureCause(env: Env, t: nat, s: Snapshot, event: Event) {
    match s.state
    case Received => event != Event.Start && event != Resumed
    case Streaming =>
      || env.streamFn.None?
      || (s.round < env.MaxRounds() && (!env.streamFn.value(t).Replied? || env.callbackPanics(t + 1)))
    case Dispatching => exists n :: FailsAt(env, t, s.pending, n)
    case AwaitingApproval =>
      || event != ApprovalResolved || s.awaitingCallId == ""
      || !AskedFor(Popped(s.messages), s.awaitingCallId)
    case _ => false
  }

  ghost predicate DispatchedSomehow(env: Env, t: nat, s: Snapshot, r: HandlerResult, s': Snapshot) {
    exists lost, lost' :: Dispatched(env, t, s, r, s', lost, lost')
  }

  /** What the handler of the state of `s` makes of the turn, entered at time `t` with an event. */
  ghost predicate Handled(env: Env, t: nat, s: Snapshot, event: Event, r: HandlerResult, s': Snapshot) {
    match s.state
    case Received => s' == s && if event.Start? || event.Resumed? then r == Next(Provisioning) else r.HandlerError?
    case Provisioning => s' == s && r == Next(Streaming)
    case Streaming => Streamed(env, t, s, r, s')
    case Dispatching => DispatchedSomehow(env, t, s, r, s')
    case AwaitingApproval =>
      if event.ApprovalResolved? && s.awaitingCallId != "" && LatestCall(Popped(s.messages), s.awaitingCallId).Some?
      then r == Next(Dispatching) && Approved(s, s')
      else r.HandlerError? && s' == s.(messages := s'.messages)
    case Executing => s' == s && r == Next(Dispatching)
    case Steering => s' == s && r == Next(if s.round < env.MaxRounds() then Streaming else Completed)
    case _ => false
  }

  /** What the handler of the state of `s` and the driver make of the turn: a failing handler ends it in `Failed`,
      with its error; otherwise it goes to the state the handler names. */
  ghost predicate Moved(env: Env, t: nat, s: Snapshot, event: Event, s': Snapshot) {
    && Handled(env, t, s, event, if s'.state.Failed? then HandlerError(s'.error) else Next(s'.state),
               s'.(state := s.state, error := s.error))
    && (s'.state.Failed? || s'.error == s.error)
  }

  /** A handler fails exactly for these reasons. */
  lemma FailsForACause(env: Env, t: nat, s: Snapshot, event: Event, r: HandlerResult, s': Snapshot)
    requires Handled(env, t, s, event, r, s')
    ensures r.HandlerError? <==> FailureCause(env, t, s, event)
  {
    match s.state
    case Dispatching =>
      var lost, lost' :| Dispatched(env, t, s, r, s', lost, lost');
      DispatchFails(env, t, s, r, s', lost, lost');
    case AwaitingApproval =>
      LatestCallFinds(Popped(s.messages), s.awaitingCallId);
      hide LatestCall, Popped, AskedFor;
    case _ =>
  }

  lemma DispatchFails(env: Env, t: nat, s: Snapshot, r: HandlerResult, s': Snapshot, lost: bool, lost': bool)
    requires Dispatched(env, t, s, r, s', lost, lost')
    ensures r.HandlerError? <==> exists n :: FailsAt(env, t, s.pending, n)
  {
    hide DispatchOneTool, CallRuns, CallWaits, ResultMessages;
    var n := AllowedCount(env, t, s.pending, 0);
    forall i | 0 <= i < |s.pending|
      ensures Allowed(env, t + i, s.pending[i]) <==> CallRuns(env, t + i, s.pending[i])
    {
      VerdictIs(env, t + i, s.pending[i]);
    }
    if n < |s.pending| {
      VerdictIs(env, t + n, s.pending[n]);
      assert r.HandlerError? ==> FailsAt(env, t, s.pending, n);
    }
    if m: nat :| FailsAt(env, t, s.pending, m) {
      assert m == n;
    }
  }

  lemma DispatchKeepsIntact(env: Env, ran: set<Execution>, ran': set<Execution>, t: nat, s: Snapshot,
                            r: HandlerResult, s': Snapshot, from: nat, p: nat)
    requires Sound(env) && Underway(ran, s.messages, from, p, s.pending)
    requires Dispatched(env, t, s, r, s', false, false) && r.Next?
    requires ran' == ran + Executions(env, t, s.pending, AllowedCount(env, t, s.pending, 0))
    ensures Shape(ran', s'.(state := r.state), from, false)
  {
    hide AllAnswered, Answers, Sound, AllowedCount, ResultMessages, Executions;
    var n := AllowedCount(env, t, s.pending, 0);
    var results := s.messages + ResultMessages(env, t, s.pending, n);
    UnderwayStays(ran, ran', s.messages, from, p, s.pending);
    ResultsAdvance(env, ran', s.messages, from, p, s.pending, t, n);
    var after := s'.(state := r.state);
    if r.state.AwaitingApproval? {
      assert Body(after) == results;
      assert s.pending[n..] == [s.pending[n]];
      assert GateAt(ran', after, from, p, s.pending[n]);
    } else {
      assert s.pending[n..] == [];
      RoundCloses(ran', results, from, p);
    }
  }

  lemma DispatchLoses(env: Env, ran: set<Execution>, ran': set<Execution>, t: nat, s: Snapshot, r: HandlerResult,
                      s': Snapshot, lost: bool, from: nat, p: nat)
    requires s.state.Dispatching? && Dispatched(env, t, s, r, s', lost, true) && r.Next?
    requires if lost then LostAt(s, from, p) else Underway(ran, s.messages, from, p, s.pending)
    ensures Shape(ran', s'.(state := r.state), from, true)
  {
    hide AllAnswered, Answers;
    var after := s'.(state := r.state);
    assert s.messages <= s'.messages;
    if q: nat :| Overtaken(s.messages, p, q) {
      assert Overtaken(after.messages, p, q);
    }
    assert LostAt(after, from, p);
  }

  lemma DispatchKeepsShape(env: Env, ran: set<Execution>, ran': set<Execution>, t: nat, s: Snapshot,
                           r: HandlerResult, s': Snapshot, lost: bool, lost': bool, from: nat)
    requires Sound(env) && s.state.Dispatching? && Shape(ran, s, from, lost)
    requires Dispatched(env, t, s, r, s', lost, lost') && r.Next?
    requires ran' == ran + Executions(env, t, s.pending, AllowedCount(env, t, s.pending, 0))
    ensures Shape(ran', s'.(state := r.state), from, lost')
  {
    hide AllAnswered, Answers, Sound, Underway, LostAt;
    if lost {
      var p :| LostAt(s, from, p);
      DispatchLoses(env, ran, ran', t, s, r, s', lost, from, p);
    } else if s.pending == [] && AllAnswered(ran, s.messages, from) {
      AnsweredStays(ran, ran', s.messages, from);
      assert s'.messages == s.messages;
    } else {
      var p :| Underway(ran, s.messages, from, p, s.pending);
      if lost' {
        DispatchLoses(env, ran, ran', t, s, r, s', lost, from, p);
      } else {
        DispatchKeepsIntact(env, ran, ran', t, s, r, s', from, p);
      }
    }
  }

  lemma ApprovalKeepsShape(ran: set<Execution>, s: Snapshot, s': Snapshot, lost: bool, from: nat)
    requires s.state.AwaitingApproval? && Shape(ran, s, from, lost) && Approved(s, s')
    ensures Shape(ran, s'.(state := Dispatching), from, lost)
  {
    hide AllAnswered, Answers;
    var after := s'.(state := Dispatching);
    if lost {
      var p :| LostAt(s, from, p);
      if q: nat :| Overtaken(s.messages, p, q) {
        assert Overtaken(after.messages, p, q);
      }
      assert LostAt(after, from, p);
    } else {
      var p, c :| GateAt(ran, s, from, p, c);
      FindsGatedCall(ran, Body(s), from, p, c);
      assert Underway(ran, after.messages, from, p, after.pending);
    }
  }

  /** A reply to a history that has lost an answer stands where the answer should. */
  lemma ReplyKeepsShape(ran: set<Execution>, s: Snapshot, reply: Msg, pending: seq<Call>, round: int, lost: bool,
                        from: nat)
    requires s.state.Streaming? && Shape(ran, s, from, lost)
    requires reply.role.AssistantRole? && DistinctIds(reply.calls)
    requires reply.calls != [] ==> pending == reply.calls
    ensures Shape(ran, Snapshot(if reply.calls == [] then Completed else Dispatching, round, s.messages + [reply],
                                pending, s.awaitingCallId, s.error), from, lost)
  {
    hide AllAnswered, Answers;
    var after := Snapshot(if reply.calls == [] then Completed else Dispatching, round, s.messages + [reply],
                          pending, s.awaitingCallId, s.error);
    if lost {
      var p :| LostAt(s, from, p);
      if q: nat :| Overtaken(s.messages, p, q) {
        assert Overtaken(after.messages, p, q);
      } else {
        assert Overtaken(after.messages, p, |s.messages|);
      }
      assert LostAt(after, from, p);
    } else {
      ReplyOpensRound(ran, s.messages, from, reply);
    }
  }

  // ---------------------------------------------------------------- the machine

  class Turn {
    const id: string
    var state: State
    var round: int
    var messages: seq<Msg>
    var pending: seq<Call>
    var awaitingCallId: string   // Metadata["awaiting_call_id"]
    var error: string

    constructor (id: string, messages: seq<Msg>)
      ensures this.id == id && Value() == Snapshot(State.Unset, 0, messages, [], "", "")
    {
      this.id := id;
      state, round, this.messages, pending, awaitingCallId, error := State.Unset, 0, messages, [], "", "";
    }

    constructor Loaded(id: string, s: Snapshot)
      ensures this.id == id && Value() == s
    {
      this.id := id;
      state, round, messages := s.state, s.round, s.messages;
      pending, awaitingCallId, error := s.pending, s.awaitingCallId, s.error;
    }

    function Value(): Snapshot
      reads this
    {
      Snapshot(state, round, messages, pending, awaitingCallId, error)
    }
  }

  /** A model invocation: the history it was given, whether a call had been lost by then, and what had been run. */
  datatype Sent = Sent(history: seq<Msg>, lost: bool, ran: set<Execution>)

  /** A handler invocation: the turn, what the store held for it at that moment, the event, the time and the number
      of external events consumed so far; and the turn after it, saved at `savedAt`. */
  datatype Invocation = Invocation(turn: Snapshot, stored: Option<Snapshot>, event: Event, at: nat, heard: nat,
                                   after: Snapshot, savedAt: nat)

  datatype RunError =
    | BadTurn(reason: string)
    | HandlerFailed(state: State, err: string)
    | NoHandler(state: State)
    | SaveFailed
    | WaitCancelled

  class Machine {
    const env: Env
    var clock: nat
    var nextEvent: nat
    var stored: map<string, Snapshot>
    var turnTriggers: set<string>
    ghost var sent: seq<Sent>
    ghost var invoked: seq<Invocation>
    ghost var ran: set<Execution>
    ghost var lost: bool  // a call was dropped because approval was asked of an earlier one

    constructor (env: Env)
      ensures this.env == env && clock == 0 && nextEvent == 0 && stored == map[] && turnTriggers == {}
      ensures sent == [] && invoked == [] && ran == {} && !lost
    {
      this.env := env;
      clock, nextEvent, stored, turnTriggers := 0, 0, map[], {};
      sent, invoked, ran, lost := [], [], {}, false;
    }

    method Save(turn: Turn) returns (ok: bool)
      modifies this`clock, this`stored
      ensures clock == old(clock) + 1 && ok == env.saves(old(clock))
      ensures stored == if ok then old(stored)[turn.id := turn.Value()] else old(stored)
    {
      ok := env.saves(clock);
      clock := clock + 1;
      if ok {
        stored := stored[turn.id := turn.Value()];
      }
    }

    method HandleReceived(event: Event) returns (r: HandlerResult)
      ensures r == if event.Start? || event.Resumed? then Next(Provisioning)
                else HandlerError("received: unexpected event")
    {
      if !event.Start? && !event.Resumed? {
        return HandlerError("received: unexpected event");
      }
      r := Next(Provisioning);
    }

    /** The model is asked once, unless the rounds are used up. */
    method HandleStreaming(turn: Turn, ghost from: nat) returns (r: HandlerResult)
      requires turn.state.Streaming?
      modifies turn`round, turn`messages, turn`pending, this`clock, this`sent
      ensures clock >= old(clock)
      ensures r.HandlerError? ==> r.err != ""
      ensures Streamed(env, old(clock), old(turn.Value()), r, turn.Value())
      ensures sent == if turn.round > old(turn.round) then old(sent) + [Sent(old(turn.messages), lost, ran)]
                else old(sent)
      ensures Sound(env) && Shape(ran, old(turn.Value()), from, lost) && r.Next? ==>
                Shape(ran, turn.Value().(state := r.state), from, lost)
    {
      hide Shape;
      if env.streamFn.None? {
        return HandlerError("streaming: no StreamFn configured");
      }
      if turn.round >= env.MaxRounds() {
        EndsIntact(ran, turn.Value(), from, lost, Completed);
        return Next(Completed);
      }
      turn.round := turn.round + 1;
      sent := sent + [Sent(turn.messages, lost, ran)];
      var response := env.streamFn.value(clock);
      ghost var asked := clock;
      clock := clock + 1;
      match response
      case StreamFailed(err) =>
        return HandlerError("streaming: llm call failed: " + err);
      case StreamPanics(text) =>
        return HandlerError("handler panicked in state streaming: " + text);
      case Replied(reply) =>
        turn.messages := turn.messages + [reply];
        if env.callbackPanics(clock) {
          return HandlerError("handler panicked in state streaming");
        }
        if |reply.calls| > 0 {
          turn.pending := reply.calls;
        }
        r := Next(if |reply.calls| > 0 then Dispatching else Completed);
        if Sound(env) && Shape(ran, old(turn.Value()), from, lost) {
          assert SoundReply(env.streamFn.value(asked));
          ReplyKeepsShape(ran, old(turn.Value()), reply, turn.pending, turn.round, lost, from);
        }
    }

    /** Asks for approval and leaves a placeholder in the transcript. */
    method Hold(turn: Turn, call: Call) returns (r: HandlerResult)
      modifies turn`messages, turn`awaitingCallId
      ensures turn.awaitingCallId == call.id
      ensures r == if env.createPanics(clock) then HandlerError("handler panicked in state dispatching")
                else Next(AwaitingApproval)
      ensures turn.messages == old(turn.messages) + if r.Next? then [Placeholder(call)] else []
    {
      turn.awaitingCallId := call.id;
      if env.createPanics(clock) {
        return HandlerError("handler panicked in state dispatching");
      }
      turn.messages := turn.messages + [Placeholder(call)];
      r := Next(AwaitingApproval);
    }

    /** Runs the pending calls in order, up to the first that is not allowed. */
    method RunAllowed(turn: Turn) returns (n: nat)
      modifies turn`messages, this`clock, this`ran
      ensures n == AllowedCount(env, old(clock), turn.pending, 0) && clock == old(clock) + n
      ensures turn.messages == old(turn.messages) + ResultMessages(env, old(clock), turn.pending, n)
      ensures ran == old(ran) + Executions(env, old(clock), turn.pending, n)
    {
      hide DispatchOneTool, ResultMessages, Executions;
      NothingRun(env, clock, turn.pending);
      n := 0;
      while n < |turn.pending|
        invariant n <= |turn.pending| && clock == old(clock) + n
        invariant AllowedCount(env, old(clock), turn.pending, 0) == AllowedCount(env, old(clock), turn.pending, n)
        invariant turn.messages == old(turn.messages) + ResultMessages(env, old(clock), turn.pending, n)
        invariant ran == old(ran) + Executions(env, old(clock), turn.pending, n)
      {
        var call := turn.pending[n];
        var verdict := DispatchOneTool(env, clock, call);
        if !verdict.Ran? {
          return;
        }
        OneMoreAllowed(env, old(clock), turn.pending, n);
        ran := ran + {Execution(call, verdict.content)};
        turn.messages := turn.messages + [ToolMessage(verdict.resultId, call.name, verdict.content)];
        clock := clock + 1;
        n := n + 1;
      }
    }

    /** The dispatching handler: after the allowed calls come steering, the gate, or failure. */
    method HandleDispatching(turn: Turn) returns (r: HandlerResult)
      requires turn.state.Dispatching?
      modifies turn`messages, turn`pending, turn`awaitingCallId, this`clock, this`lost, this`ran
      ensures clock >= old(clock)
      ensures r.HandlerError? ==> r.err != ""
      ensures Dispatched(env, old(clock), old(turn.Value()), r, turn.Value(), old(lost), lost)
      ensures var calls := old(turn.pending);
              ran == old(ran) + Executions(env, old(clock), calls, AllowedCount(env, old(clock), calls, 0))
    {
      hide DispatchOneTool, AllowedCount, ResultMessages, Executions;
      var n := RunAllowed(turn);
      if n == |turn.pending| {
        turn.pending := [];
        return Next(Steering);
      }
      var call := turn.pending[n];
      match DispatchOneTool(env, clock, call)
      case Fails(err) =>
        r := HandlerError(err);
      case Gate =>
        lost := lost || (!env.createPanics(clock) && n + 1 < |turn.pending|);
        r := Hold(turn, call);
    }

    /** The last assistant message that has a call with this id decides. */
    method FindCall(messages: seq<Msg>, id: string) returns (c: Option<Call>)
      ensures c == LatestCall(messages, id)
    {
      var i := |messages|;
      assert messages[..i] == messages;
      while i > 0
        invariant 0 <= i <= |messages| && LatestCall(messages, id) == LatestCall(messages[..i], id)
      {
        i := i - 1;
        assert messages[..i + 1][..i] == messages[..i];
        if messages[i].role.AssistantRole? {
          c := FirstWithId(messages[i].calls, id);
          if c.Some? {
            return c;
          }
        }
      }
      c := None;
    }

    method HandleAwaitingApproval(turn: Turn, event: Event) returns (r: HandlerResult)
      requires turn.state.AwaitingApproval?
      modifies turn`messages, turn`pending, turn`awaitingCallId
      ensures r.HandlerError? ==> r.err != ""
      ensures Handled(env, old(clock), old(turn.Value()), event, r, turn.Value())
      ensures !event.ApprovalResolved? ==> turn.Value() == old(turn.Value())
    {
      if event.ApprovalDenied? {
        return HandlerError("denied by user");
      }
      if event.Abort? {
        return HandlerError("aborted");
      }
      if !event.ApprovalResolved? {
        return HandlerError("awaiting_approval: unexpected event");
      }
      if turn.awaitingCallId == "" {
        return HandlerError("approval resolved but no awaiting_call_id recorded");
      }
      if |turn.messages| > 0 && IsPlaceholder(turn.messages[|turn.messages| - 1]) {
        turn.messages := turn.messages[..|turn.messages| - 1];
      }
      var found := FindCall(turn.messages, turn.awaitingCallId);
      if found.None? {
        return HandlerError("approval resolved but original tool call " + turn.awaitingCallId + " not found");
      }
      turn.pending := [found.value];
      turn.awaitingCallId := "";
      r := Next(Dispatching);
    }

    method HandleSteering(turn: Turn) returns (r: HandlerResult)
      ensures r == Next(SteeringNext(env, turn.round))
    {
      if turn.round < env.MaxRounds() {
        return Next(Streaming);
      }
      r := Next(Completed);
    }

    /** The dispatching handler keeps the shape. */
    method InvokeDispatching(turn: Turn, ghost from: nat) returns (r: HandlerResult)
      requires turn.state.Dispatching?
      modifies turn`messages, turn`pending, turn`awaitingCallId, this`clock, this`lost, this`ran
      ensures clock >= old(clock) && (old(lost) ==> lost)
      ensures forall event :: Handled(env, old(clock), old(turn.Value()), event, r, turn.Value())
      ensures if r.HandlerError? then r.err != "" else r.state.Steering? || r.state.AwaitingApproval?
      ensures Sound(env) && Shape(old(ran), old(turn.Value()), from, old(lost)) && r.Next? ==>
                Shape(ran, turn.Value().(state := r.state), from, lost)
    {
      hide Shape, Dispatched, Sound;
      r := HandleDispatching(turn);
      DispatchNext(env, old(clock), old(turn.Value()), r, turn.Value(), old(lost), lost);
      assert DispatchedSomehow(env, old(clock), old(turn.Value()), r, turn.Value());
      if Sound(env) && Shape(old(ran), old(turn.Value()), from, old(lost)) && r.Next? {
        DispatchKeepsShape(env, old(ran), ran, old(clock), old(turn.Value()), r, turn.Value(), old(lost), lost, from);
      }
    }

    /** So does the approval handler. */
    method InvokeAwaitingApproval(turn: Turn, event: Event, ghost from: nat) returns (r: HandlerResult)
      requires turn.state.AwaitingApproval?
      modifies turn`messages, turn`pending, turn`awaitingCallId
      ensures if r.HandlerError? then r.err != "" else r.state.Dispatching? && event.ApprovalResolved?
      ensures Handled(env, clock, old(turn.Value()), event, r, turn.Value())
      ensures Shape(ran, old(turn.Value()), from, lost) && r.Next? ==>
                Shape(ran, turn.Value().(state := r.state), from, lost)
    {
      hide Shape, Approved, LatestCall, Popped;
      r := HandleAwaitingApproval(turn, event);
      if Shape(ran, old(turn.Value()), from, lost) && r.Next? {
        ApprovalKeepsShape(ran, old(turn.Value()), turn.Value(), lost, from);
      }
    }

    /** One handler invocation. A panic of a callback has become an error of the handler. */
    method Invoke(turn: Turn, event: Event, ghost from: nat) returns (r: HandlerResult)
      requires HasHandler(turn.state)
      modifies turn`round, turn`messages, turn`pending, turn`awaitingCallId, this`clock, this`sent, this`lost, this`ran
      ensures clock >= old(clock)
      ensures r.HandlerError? ==> r.err != ""
      ensures r.Next? ==> Follows(old(turn.state), r.state, event)
      ensures turn.round == old(turn.round) || (turn.round == old(turn.round) + 1 && old(turn.round) < env.MaxRounds())
      ensures r.Next? && old(turn.state).Streaming? && r.state.Dispatching? ==> turn.round > old(turn.round)
      ensures sent == if turn.round > old(turn.round) then old(sent) + [Sent(old(turn.messages), old(lost), old(ran))]
                else old(sent)
      ensures turn.round > old(turn.round) ==> old(turn.state).Streaming?
      ensures old(lost) ==> lost
      ensures Handled(env, old(clock), old(turn.Value()), event, r, turn.Value())
      ensures Sound(env) && Shape(old(ran), old(turn.Value()), from, old(lost)) && r.Next? ==>
                Shape(ran, turn.Value().(state := r.state), from, lost)
    {
      hide Shape, Sound, Approved, DispatchedSomehow, LatestCall, Popped;
      match turn.state
      case Received =>
        r := HandleReceived(event);
        EndsIntact(ran, turn.Value(), from, lost, Provisioning);
      case Provisioning =>
        r := Next(Streaming);
        EndsIntact(ran, turn.Value(), from, lost, Streaming);
      case Streaming =>
        r := HandleStreaming(turn, from);
      case Dispatching =>
        r := InvokeDispatching(turn, from);
      case AwaitingApproval =>
        r := InvokeAwaitingApproval(turn, event, from);
      case Executing =>
        r := Next(Dispatching);
        ExecutingKeepsShape(ran, turn.Value(), from, lost);
      case Steering =>
        r := HandleSteering(turn);
        EndsIntact(ran, turn.Value(), from, lost, r.state);
    }

    method WaitForTrigger(turnId: string) returns (event: Option<Event>)
      requires nextEvent <= |env.events|
      modifies this`nextEvent, this`turnTriggers
      ensures turnTriggers == old(turnTriggers) + {turnId}
      ensures event.Some? <==> old(nextEvent) < |env.events|
      ensures event.Some? ==> event.value == env.events[old(nextEvent)] && nextEvent == old(nextEvent) + 1
      ensures event.None? ==> nextEvent == old(nextEvent)
    {
      if turnId !in turnTriggers {
        turnTriggers := turnTriggers + {turnId};
      }
      if nextEvent < |env.events| {
        event := Some(env.events[nextEvent]);
        nextEvent := nextEvent + 1;
      } else {
        event := None;
      }
    }

    /** Saves a turn whose handler has returned: in the state it named, or as failed. */
    method SaveOutcome(turn: Turn, next: HandlerResult) returns (failure: Option<RunError>)
      requires next.Next? ==> !next.state.Failed?
      modifies this`clock, this`stored, turn`state, turn`error
      ensures clock == old(clock) + 1
      ensures turn.state == (if next.Next? then next.state else Failed)
      ensures turn.error == if next.Next? then old(turn.error) else next.err
      ensures failure == if next.HandlerError? then Some(HandlerFailed(old(turn.state), next.err))
                else if env.saves(old(clock)) then None else Some(SaveFailed)
      ensures failure.None? ==> turn.id in stored && stored[turn.id] == turn.Value()
    {
      var current := turn.state;
      match next
      case HandlerError(err) =>
        turn.state := Failed;
        turn.error := err;
        var _ := Save(turn);
        failure := Some(HandlerFailed(current, err));
      case Next(state) =>
        turn.state := state;
        var saved := Save(turn);
        failure := if saved then None else Some(SaveFailed);
    }

    /** Invokes the handler of the current state and saves what became of the turn. It fails when the handler does,
        and otherwise exactly when the save does. */
    method Transition(turn: Turn, event: Event, ghost from: nat) returns (failure: Option<RunError>)
      requires HasHandler(turn.state)
      requires turn.id in stored && stored[turn.id] == turn.Value()
      modifies this`clock, this`sent, this`lost, this`ran, this`invoked, this`stored, turn
      ensures sent == if turn.round > old(turn.round) then old(sent) + [Sent(old(turn.messages), old(lost), old(ran))]
                else old(sent)
      ensures turn.round > old(turn.round) ==> old(turn.state).Streaming?
      ensures turn.round == old(turn.round) || (turn.round == old(turn.round) + 1 && old(turn.round) < env.MaxRounds())
      ensures |invoked| == |old(invoked)| + 1 && old(invoked) <= invoked
      ensures var step := invoked[|old(invoked)|];
              && StepOk(env, step) && step.turn == old(turn.Value()) && step.event == event && step.heard == nextEvent
              && step.at == old(clock) && step.after == turn.Value() && step.savedAt < clock
              && failure == FailureOf(env, step)
      ensures failure.None? ==>
                && Follows(old(turn.state), turn.state, event)
                && turn.id in stored && stored[turn.id] == turn.Value()
                && (old(turn.state).Streaming? && turn.state.Dispatching? ==> turn.round > old(turn.round))
      ensures failure.Some? ==> forall e: nat :: StopsFor(Err(failure.value), turn.state, e)
      ensures turn.state.Failed? ==> failure.Some? && FailureReported(Err(failure.value), turn.error)
      ensures Sound(env) && Shape(old(ran), old(turn.Value()), from, old(lost)) && !turn.state.Failed? ==>
                Shape(ran, turn.Value(), from, lost)
    {
      hide Shape, Sound, AllAnswered, Handled, StepOk, StopsFor, FailureReported;
      ghost var at, before, held := clock, turn.Value(), Some(stored[turn.id]);
      var next := Invoke(turn, event, from);
      ghost var handled := turn.Value();
      failure := SaveOutcome(turn, next);
      ghost var step := Invocation(before, held, event, at, nextEvent, turn.Value(), clock - 1);
      StepDone(env, step, next, handled);
      StopsAfter(env, step);
      invoked := invoked + [step];
    }

    /** One pass of the driver's loop: a transition, and the wait for an event if the turn now awaits approval. */
    method Advance(turn: Turn, event: Event, ghost from: nat)
      returns (stop: Option<Result<State, RunError>>, next: Event, waits: bool)
      requires HasHandler(turn.state) && nextEvent <= |env.events|
      requires turn.id in stored && stored[turn.id] == turn.Value()
      modifies this, turn
      ensures old(nextEvent) <= nextEvent <= |env.events|
      ensures turnTriggers == if waits then old(turnTriggers) + {turn.id} else old(turnTriggers)
      ensures sent == if turn.round > old(turn.round) then old(sent) + [Sent(old(turn.messages), old(lost), old(ran))]
                else old(sent)
      ensures turn.round > old(turn.round) ==> old(turn.state).Streaming?
      ensures turn.round == old(turn.round) || (turn.round == old(turn.round) + 1 && old(turn.round) < env.MaxRounds())
      ensures |invoked| == |old(invoked)| + 1 && old(invoked) <= invoked
      ensures var step := invoked[|old(invoked)|];
              && StepOk(env, step) && step.turn == old(turn.Value()) && step.event == event
              && step.heard == old(nextEvent) && step.at == old(clock)
              && if stop.Some? then step.after == turn.Value() && EndsFor(env, step, stop.value)
                 else Awaits(env, step, turn.Value(), next, nextEvent, clock)
      ensures stop.Some? ==>
                && StopsFor(stop.value, turn.state, |env.events| - nextEvent)
                && (turn.state.Failed? ==> FailureReported(stop.value, turn.error))
                && (stop.value.Ok? ==> turn.id in stored && stored[turn.id] == turn.Value())
      ensures stop.None? ==>
                && Follows(old(turn.state), turn.state, event) && !IsTerminal(turn.state)
                && turn.id in stored && stored[turn.id] == turn.Value()
                && (old(turn.state).Streaming? && turn.state.Dispatching? ==> turn.round > old(turn.round))
                && nextEvent == old(nextEvent) + (if turn.state.AwaitingApproval? then 1 else 0)
      ensures Sound(env) && Shape(old(ran), old(turn.Value()), from, old(lost)) && !turn.state.Failed? ==>
                Shape(ran, turn.Value(), from, lost)
    {
      hide Shape, Sound, FailureReported, StopsFor, StepOk;
      waits, next, stop := false, Continue, None;
      var failure := Transition(turn, event, from);
      WaysToStop(turn.state, |env.events| - nextEvent);
      if failure.Some? {
        stop := Some(Err(failure.value));
      } else if turn.state.AwaitingApproval? {
        waits := true;
        var received := WaitForTrigger(turn.id);
        if received.None? {
          stop := Some(Err(WaitCancelled));
        } else {
          next := received.value;
        }
      } else if IsTerminal(turn.state) {
        stop := Some(Ok(turn.state));
      }
    }

    /** Where the driver stands: the run so far, since `k` handler and `n` model invocations, from the turn `was`. */
    ghost predicate Driving(turn: Turn, event: Event, k: nat, n: nat, was: Snapshot, start: Event, heard: nat,
                            from: nat, safe: bool)
      reads this, turn
    {
      && n <= |sent| && RoundsSpent(env, was.round, turn.round, |sent| - n)
      && TraceReady(env, invoked, k, was, start, heard, turn.Value(), event, nextEvent, clock)
      && (turn.state.Failed? ==> was.state.Failed?)
      && (safe ==> Shape(ran, turn.Value(), from, lost) && FaithfulSince(sent, n, from))
    }

    /** What the driver has to show for a run that stopped with `r`. */
    ghost predicate Driven(turn: Turn, r: Result<State, RunError>, k: nat, n: nat, was: Snapshot, start: Event,
                           heard: nat, from: nat, safe: bool)
      reads this, turn
    {
      && n <= |sent| && |sent| - n == turn.round - was.round && |sent| - n <= RoundsLeft(env, was.round)
      && RunTrace(env, invoked, k, was, start, heard, r, turn.Value())
      && nextEvent <= |env.events| && StopsFor(r, turn.state, |env.events| - nextEvent)
      && (turn.state.Failed? && !was.state.Failed? ==> FailureReported(r, turn.error))
      && (safe ==> FaithfulSince(sent, n, from) && (turn.state.Completed? ==> Shape(ran, turn.Value(), from, lost)))
    }

    lemma StartsDriving(turn: Turn, start: Event, from: nat, safe: bool)
      requires safe ==> Shape(ran, turn.Value(), from, lost)
      ensures Driving(turn, start, |invoked|, |sent|, turn.Value(), start, nextEvent, from, safe)
    {
      hide Shape, TraceReady;
      NothingSentYet(sent, from);
      NothingInvokedYet(env, invoked, turn.Value(), start, nextEvent, clock);
      RoundsBounded(env, turn.round, turn.round, 0);
    }

    lemma StopsDriving(turn: Turn, event: Event, k: nat, n: nat, was: Snapshot, start: Event, heard: nat, from: nat,
                       safe: bool)
      requires nextEvent <= |env.events| && !HasHandler(turn.state)
      requires Driving(turn, event, k, n, was, start, heard, from, safe)
      ensures Driven(turn, if IsTerminal(turn.state) then Ok(turn.state) else Err(NoHandler(turn.state)), k, n, was,
                     start, heard, from, safe)
    {
      hide Shape, FaithfulSince, FailureReported, StopsFor, TraceReady, RunTrace, RoundsSpent, RoundsLeft;
      WaysToStop(turn.state, |env.events| - nextEvent);
      RoundsBounded(env, was.round, turn.round, |sent| - n);
      TraceStops(env, invoked, k, was, start, heard, turn.Value(), event, nextEvent, clock);
    }

    /** A pass of the loop in a state that has a handler. */
    method DriveOnce(turn: Turn, event: Event, ghost k: nat, ghost n: nat, ghost was: Snapshot, ghost start: Event,
                     ghost heard: nat, ghost from: nat, ghost safe: bool)
      returns (stop: Option<Result<State, RunError>>, next: Event, waits: bool)
      requires HasHandler(turn.state) && nextEvent <= |env.events|
      requires turn.id in stored && stored[turn.id] == turn.Value() && (safe ==> Sound(env))
      requires Driving(turn, event, k, n, was, start, heard, from, safe)
      modifies this, turn
      ensures old(nextEvent) <= nextEvent <= |env.events| && old(sent) <= sent && old(invoked) <= invoked
      ensures turnTriggers == if waits then old(turnTriggers) + {turn.id} else old(turnTriggers)
      ensures stop.Some? ==>
                && Driven(turn, stop.value, k, n, was, start, heard, from, safe)
                && (stop.value.Ok? ==> turn.id in stored && stored[turn.id] == turn.Value())
      ensures stop.None? ==>
                && turn.id in stored && stored[turn.id] == turn.Value()
                && Driving(turn, next, k, n, was, start, heard, from, safe)
                && Shrinks(env, old(turn.Value()), old(nextEvent), turn.Value(), nextEvent)
    {
      hide Shape, Sound, FaithfulSince, FailureReported, StopsFor, TraceReady, RunTrace, RoundsSpent, RoundsLeft;
      hide StepOk, EndsFor, Awaits;
      if safe && turn.state.Streaming? {
        SendsFaithfully(sent, n, turn.Value(), from, lost, ran);
      }
      RoundSpent(env, was.round, turn.round, |sent| - n);
      ghost var trace0, s0, heard0, clock0 := invoked, turn.Value(), nextEvent, clock;
      stop, next, waits := Advance(turn, event, from);
      TraceGoesOn(env, trace0, k, was, start, heard, s0, event, heard0, clock0,
                  invoked, turn.Value(), stop, next, nextEvent, clock);
      RoundsBounded(env, was.round, turn.round, |sent| - n);
      if stop.None? {
        StepShrinks(env, s0, heard0, turn.Value(), nextEvent, event);
      }
    }

    /** Runs the handlers until the turn ends, its handler fails, or nothing can wake it up any more. */
    method Drive(turn: Turn, start: Event, ghost from: nat) returns (r: Result<State, RunError>, waited: bool)
      requires nextEvent <= |env.events|
      requires turn.id in stored && stored[turn.id] == turn.Value()
      modifies this, turn
      ensures nextEvent <= |env.events|
      ensures turnTriggers == if waited then old(turnTriggers) + {turn.id} else old(turnTriggers)
      ensures old(sent) <= sent && |sent| - |old(sent)| == turn.round - old(turn.round)
      ensures |sent| - |old(sent)| <= RoundsLeft(env, old(turn.round))
      ensures old(invoked) <= invoked
      ensures RunTrace(env, invoked, |old(invoked)|, old(turn.Value()), start, old(nextEvent), r, turn.Value())
      ensures (forall t :: env.saves(t)) ==> r != Err(SaveFailed)
      ensures StopsFor(r, turn.state, |env.events| - nextEvent)
      ensures r.Ok? ==> turn.id in stored && stored[turn.id] == turn.Value()
      ensures turn.state.Failed? && !old(turn.state.Failed?) ==> FailureReported(r, turn.error)
      ensures Sound(env) && Shape(old(ran), old(turn.Value()), from, old(lost)) ==>
                FaithfulSince(sent, |old(sent)|, from)
      ensures Sound(env) && Shape(old(ran), old(turn.Value()), from, old(lost)) && turn.state.Completed? ==>
                Shape(ran, turn.Value(), from, lost)
    {
      hide Shape, Sound, FaithfulSince, FailureReported, StopsFor, RunTrace, RoundsLeft, Driving;
      waited := false;
      var event := start;
      ghost var k, n, was, heard := |invoked|, |sent|, turn.Value(), nextEvent;
      ghost var safe := Sound(env) && Shape(ran, was, from, lost);
      StartsDriving(turn, start, from, safe);
      while true
        invariant nextEvent <= |env.events| && turn.id in stored && stored[turn.id] == turn.Value()
        invariant turnTriggers == if waited then old(turnTriggers) + {turn.id} else old(turnTriggers)
        invariant old(sent) <= sent && old(invoked) <= invoked
        invariant Driving(turn, event, k, n, was, start, heard, from, safe)
        decreases RoundsLeft(env, turn.round),
                  |env.events| - nextEvent + if turn.state.AwaitingApproval? then 1 else 0,
                  Rank(turn.state)
      {
        if IsTerminal(turn.state) {
          StopsDriving(turn, event, k, n, was, start, heard, from, safe);
          return Ok(turn.state), waited;
        }
        if !HasHandler(turn.state) {
          StopsDriving(turn, event, k, n, was, start, heard, from, safe);
          return Err(NoHandler(turn.state)), waited;
        }
        var stop, waits;
        stop, event, waits := DriveOnce(turn, event, k, n, was, start, heard, from, safe);
        waited := waited || waits;
        if stop.Some? {
          ErrorsHaveCauses(env, invoked, k, was, start, heard, stop.value, turn.Value());
          return stop.value, waited;
        }
      }
    }

    /** The trigger channel of the turn does not outlive the run. */
    method RunUntilBlock(turn: Turn, event: Event, ghost from: nat) returns (r: Result<State, RunError>)
      requires nextEvent <= |env.events|
      requires turn.id in stored && stored[turn.id] == turn.Value() && turn.id !in turnTriggers
      modifies this, turn
      ensures nextEvent <= |env.events| && turnTriggers == old(turnTriggers)
      ensures old(sent) <= sent && |sent| - |old(sent)| == turn.round - old(turn.round)
      ensures |sent| - |old(sent)| <= RoundsLeft(env, old(turn.round))
      ensures old(invoked) <= invoked
      ensures RunTrace(env, invoked, |old(invoked)|, old(turn.Value()), event, old(nextEvent), r, turn.Value())
      ensures (forall t :: env.saves(t)) ==> r != Err(SaveFailed)
      ensures StopsFor(r, turn.state, |env.events| - nextEvent)
      ensures r.Ok? ==> turn.id in stored && stored[turn.id] == turn.Value()
      ensures turn.state.Failed? && !old(turn.state.Failed?) ==> FailureReported(r, turn.error)
      ensures Sound(env) && Shape(old(ran), old(turn.Value()), from, old(lost)) ==>
                FaithfulSince(sent, |old(sent)|, from)
      ensures Sound(env) && Shape(old(ran), old(turn.Value()), from, old(lost)) && turn.state.Completed? ==>
                Shape(ran, turn.Value(), from, lost)
    {
      hide Shape, Sound, SentFaithfully, RunTrace;
      var waited;
      r, waited := Drive(turn, event, from);
      if waited {
        turnTriggers := turnTriggers - {turn.id};
      }
    }

    /** Starts a turn. From a fresh one, every history sent to the model answers each call of this run
        exactly when no call has been lost; `|turn.messages|` marks where the run begins. */
    method Start(turn: Turn) returns (r: Result<State, RunError>)
      requires nextEvent <= |env.events| && turn.id !in turnTriggers
      modifies this, turn
      ensures turnTriggers == old(turnTriggers)
      ensures turn.id == "" || old(turn.state).Unknown? ==> r.Err? && sent == old(sent) && stored == old(stored)
      ensures old(sent) <= sent && |sent| - |old(sent)| <= RoundsLeft(env, old(turn.round))
      ensures old(invoked) <= invoked
      ensures r.Ok? || !r.error.BadTurn? ==>
                if env.saves(old(clock))
                then RunTrace(env, invoked, |old(invoked)|, Entered(old(turn.Value())), Event.Start, old(nextEvent), r,
                              turn.Value())
                else r == Err(SaveFailed) && sent == old(sent) && stored == old(stored)
      ensures (forall t :: env.saves(t)) ==> r != Err(SaveFailed)
      ensures AnswersAtOnce(env) && turn.id != "" && (old(turn.state).Unset? || old(turn.state).Received?)
                && old(turn.round) < env.MaxRounds() ==>
                && r == Ok(Completed) && turn.round == old(turn.round) + 1 && |sent| == |old(sent)| + 1
                && exists t :: turn.messages == old(turn.messages) + [env.streamFn.value(t).reply]
      ensures r.Ok? ==> IsTerminal(turn.state) && turn.id in stored && stored[turn.id] == turn.Value()
      ensures turn.state.Failed? && !old(turn.state.Failed?) ==> FailureReported(r, turn.error)
      ensures Sound(env) && (old(turn.state).Unset? || old(turn.state).Received?) && !old(lost) ==>
                FaithfulSince(sent, |old(sent)|, |old(turn.messages)|)
      ensures Sound(env) && (old(turn.state).Unset? || old(turn.state).Received?) && !old(lost)
                && turn.state.Completed? ==>
                (AllAnswered(ran, turn.messages, |old(turn.messages)|) || lost)
    {
      hide Sound, SentFaithfully, AnsweredAt, LostAt, RunTrace, AnswersAtOnce;
      if turn.id == "" {
        return Err(BadTurn("turn.ID is required"));
      }
      if turn.state.Unset? {
        turn.state := Received;
      }
      if !IsValid(turn.state) {
        return Err(BadTurn("invalid initial state"));
      }
      if AnswersAtOnce(env) {
        SavesSucceed(env, clock);
      }
      var saved := Save(turn);
      if !saved {
        return Err(SaveFailed);
      }
      ghost var entered, heard := turn.Value(), nextEvent;
      r := RunUntilBlock(turn, Event.Start, |turn.messages|);
      if AnswersAtOnce(env) && entered.state.Received? && entered.round < env.MaxRounds() {
        AnsweredAtOnce(env, invoked, |old(invoked)|, entered, heard, r, turn.Value());
      }
    }

    /** Continues a stored turn, on a copy of its own. A turn that an earlier run saved has the shape that run kept. */
    method Resume(turnId: string, readable: bool, ghost from: nat) returns (r: Result<State, RunError>, turn: Turn?)
      requires nextEvent <= |env.events| && turnId !in turnTriggers
      modifies this
      ensures nextEvent <= |env.events| && turnTriggers == old(turnTriggers)
      ensures old(sent) <= sent && old(invoked) <= invoked
      ensures turn == null <==> !readable || turnId !in old(stored)
      ensures turn == null || IsTerminal(old(stored)[turnId].state) ==>
                r.Err? && r.error.BadTurn? && sent == old(sent) && stored == old(stored)
      ensures turn != null && !IsTerminal(old(stored)[turnId].state) ==>
                RunTrace(env, invoked, |old(invoked)|, old(stored)[turnId], ResumeEvent(old(stored)[turnId].state),
                         old(nextEvent), r, turn.Value())
      ensures (forall t :: env.saves(t)) ==> r != Err(SaveFailed)
      ensures turn != null ==> Continues(turnId, turn, old(stored)[turnId], r, |old(sent)|, old(lost), old(ran), from)
    {
      hide Shape, Sound, SentFaithfully;
      turn := null;
      if !readable || turnId !in stored {
        return Err(BadTurn("load turn")), null;
      }
      turn := new Turn.Loaded(turnId, stored[turnId]);
      if IsTerminal(turn.state) {
        NothingSentYet(sent, from);
        return Err(BadTurn("already in terminal state")), turn;
      }
      var event := Resumed;
      if turn.state.AwaitingApproval? {
        event := ApprovalResolved;
      }
      r := RunUntilBlock(turn, event, from);
    }

    /** The guarantees of the driver for a turn that started as `was`. */
    ghost predicate Continues(turnId: string, turn: Turn, was: Snapshot, r: Result<State, RunError>, k: nat,
                              wasLost: bool, wasRan: set<Execution>, from: nat)
      reads this, turn
    {
      && turn.id == turnId && nextEvent <= |env.events|
      && |sent| - k <= RoundsLeft(env, was.round)
      && (!IsTerminal(was.state) ==> StopsFor(r, turn.state, |env.events| - nextEvent))
      && (r.Ok? ==> turnId in stored && stored[turnId] == turn.Value())
      && (turn.state.Failed? && !was.state.Failed? ==> FailureReported(r, turn.error))
      && (Sound(env) && Shape(wasRan, was, from, wasLost) ==>
            FaithfulSince(sent, k, from) && (turn.state.Completed? ==> Shape(ran, turn.Value(), from, lost)))
    }
  }

  // ---------------------------------------------------------------- lemmas about the run

  predicate HasHandler(s: State) {
    s.Received? || s.Provisioning? || s.Streaming? || s.Dispatching? || s.AwaitingApproval? || s.Executing?
        || s.Steering?
  }

  /** The transitions the handlers take. */
  predicate Follows(s: State, s': State, event: Event) {
    match s
    case Received => s'.Provisioning? && (event.Start? || event.Resumed?)
    case Provisioning => s'.Streaming?
    case Streaming => s'.Dispatching? || s'.Completed?
    case Dispatching => s'.Steering? || s'.AwaitingApproval?
    case AwaitingApproval => s'.Dispatching? && event.ApprovalResolved?
    case Executing => s'.Dispatching?
    case Steering => s'.Streaming? || s'.Completed?
    case _ => false
  }

  function RoundsLeft(env: Env, round: int): nat {
    if round < env.MaxRounds() then env.MaxRounds() - round else 0
  }

  function Rank(s: State): nat {
    match s
    case Received => 7
    case Provisioning => 6
    case Executing => 5
    case Dispatching => 4
    case Steering => 3
    case Streaming => 2
    case AwaitingApproval => 1
    case _ => 0
  }

  /** One handler invocation: the store held the turn, the handler moved it, or failed for a cause, and the outcome
      was saved afterwards. */
  ghost predicate StepOk(env: Env, step: Invocation) {
    && HasHandler(step.turn.state) && step.stored == Some(step.turn) && step.at <= step.savedAt
    && Moved(env, step.at, step.turn, step.event, step.after)
    && (step.after.state.Failed? <==> FailureCause(env, step.at, step.turn, step.event))
  }

  lemma StepDone(env: Env, step: Invocation, r: HandlerResult, handled: Snapshot)
    requires HasHandler(step.turn.state) && step.stored == Some(step.turn) && step.at <= step.savedAt
    requires Handled(env, step.at, step.turn, step.event, r, handled)
    requires step.after.state == (if r.Next? then r.state else Failed) && (r.Next? ==> !r.state.Failed?)
    requires step.after.error == if r.Next? then step.turn.error else r.err
    requires handled == step.after.(state := step.turn.state, error := step.turn.error)
    ensures StepOk(env, step)
  {
    FailsForACause(env, step.at, step.turn, step.event, r, handled);
    hide Handled, FailureCause;
  }

  lemma StopsAfter(env: Env, step: Invocation)
    requires step.after.state.Failed? ==> step.after.error != ""
    ensures var failure := FailureOf(env, step);
            && (failure.Some? ==> forall e: nat :: StopsFor(Err(failure.value), step.after.state, e))
            && (step.after.state.Failed? ==>
                  failure.Some? && FailureReported(Err(failure.value), step.after.error))
  {
  }

  /** A step stops the run when its handler fails, and otherwise when the save does. */
  function FailureOf(env: Env, step: Invocation): Option<RunError> {
    if step.after.state.Failed? then Some(HandlerFailed(step.turn.state, step.after.error))
    else if env.saves(step.savedAt) then None
    else Some(SaveFailed)
  }

  /** After `last` the run goes on with the turn `s`, and with the next external event if `s` awaits approval. */
  predicate Awaits(env: Env, last: Invocation, s: Snapshot, event: Event, heard: nat, clock: nat) {
    && FailureOf(env, last).None? && s == last.after && !IsTerminal(s.state) && last.savedAt < clock
    && if s.state.AwaitingApproval?
       then last.heard < |env.events| && event == env.events[last.heard] && heard == last.heard + 1
       else event == Continue && heard == last.heard
  }

  /** How a run ends with its last step. */
  predicate EndsFor(env: Env, last: Invocation, r: Result<State, RunError>) {
    match FailureOf(env, last)
    case Some(failure) => r == Err(failure)
    case None =>
      if last.after.state.AwaitingApproval? then r == Err(WaitCancelled) && last.heard == |env.events|
      else r == Ok(last.after.state) && IsTerminal(last.after.state)
  }

  /** The steps since `k`: each goes on where the one before it left off. */
  ghost predicate Trace(env: Env, invoked: seq<Invocation>, k: nat) {
    && k <= |invoked|
    && (forall i | k <= i < |invoked| :: StepOk(env, invoked[i]))
    && (forall i | k < i < |invoked| :: Linked(env, invoked, i))
  }

  predicate Linked(env: Env, invoked: seq<Invocation>, i: nat)
    requires 0 < i < |invoked|
  {
    Awaits(env, invoked[i - 1], invoked[i].turn, invoked[i].event, invoked[i].heard, invoked[i].at + 1)
  }

  predicate StartsWith(step: Invocation, s: Snapshot, event: Event, heard: nat) {
    step.turn == s && step.event == event && step.heard == heard
  }

  /** A whole run, from the turn `s0` and the event `start` to the result `r` and the turn `s`. */
  ghost predicate RunTrace(env: Env, invoked: seq<Invocation>, k: nat, s0: Snapshot, start: Event, heard: nat,
                           r: Result<State, RunError>, s: Snapshot)
  {
    && Trace(env, invoked, k)
    && if |invoked| == k then
         s == s0 && !HasHandler(s.state) && r == if IsTerminal(s.state) then Ok(s.state) else Err(NoHandler(s.state))
       else
         && StartsWith(invoked[k], s0, start, heard)
         && invoked[|invoked| - 1].after == s && EndsFor(env, invoked[|invoked| - 1], r)
  }

  /** A run that goes on with the turn `s`. */
  ghost predicate TraceReady(env: Env, invoked: seq<Invocation>, k: nat, s0: Snapshot, start: Event, heard0: nat,
                             s: Snapshot, event: Event, heard: nat, clock: nat)
  {
    && Trace(env, invoked, k)
    && if |invoked| == k then s == s0 && event == start && heard == heard0
       else
         && StartsWith(invoked[k], s0, start, heard0)
         && Awaits(env, invoked[|invoked| - 1], s, event, heard, clock + 1)
  }

  /** A stored turn that awaits approval is resumed as if it had been given. */
  function ResumeEvent(state: State): Event {
    if state.AwaitingApproval? then ApprovalResolved else Resumed
  }

  /** The turn as `Start` saves it. */
  function Entered(s: Snapshot): Snapshot {
    if s.state.Unset? then s.(state := Received) else s
  }

  /** Why a run stops: the turn ended, nobody handles its state, a save failed, or nothing can wake it up. */
  predicate StopsFor(r: Result<State, RunError>, state: State, eventsLeft: nat) {
    match r
    case Ok(s) => s == state && IsTerminal(state)
    case Err(HandlerFailed(_, _)) => state.Failed?
    case Err(NoHandler(s)) => s == state && !HasHandler(state) && !IsTerminal(state)
    case Err(WaitCancelled) => state.AwaitingApproval? && eventsLeft == 0
    case Err(SaveFailed) => !state.Failed?
    case Err(BadTurn(_)) => false
  }

  predicate FailureReported(r: Result<State, RunError>, error: string) {
    r.Err? && r.error.HandlerFailed? && r.error.err == error && error != ""
  }

  /** The history answers every call of the run exactly when none had been lost. */
  ghost predicate SentFaithfully(s: Sent, from: nat) {
    AllAnswered(s.ran, s.history, from) <==> !s.lost
  }

  ghost predicate FaithfulSince(sent: seq<Sent>, k: nat, from: nat) {
    forall i | k <= i < |sent| :: SentFaithfully(sent[i], from)
  }

  lemma WaysToStop(state: State, eventsLeft: nat)
    ensures IsTerminal(state) ==> StopsFor(Ok(state), state, eventsLeft)
    ensures !HasHandler(state) && !IsTerminal(state) ==> StopsFor(Err(NoHandler(state)), state, eventsLeft)
    ensures state.AwaitingApproval? && eventsLeft == 0 ==> StopsFor(Err(WaitCancelled), state, eventsLeft)
  {
  }

  /** A pass of the driver's loop uses up a round, or an external event, or comes closer to doing so. */
  predicate Shrinks(env: Env, s: Snapshot, heard: nat, s': Snapshot, heard': nat) {
    var waits, waits' := if s.state.AwaitingApproval? then 1 else 0, if s'.state.AwaitingApproval? then 1 else 0;
    || RoundsLeft(env, s'.round) < RoundsLeft(env, s.round)
    || (s'.round == s.round && (waits' - heard' < waits - heard
                                || (waits' - heard' == waits - heard && Rank(s'.state) < Rank(s.state))))
  }

  lemma StepShrinks(env: Env, s: Snapshot, heard: nat, s': Snapshot, heard': nat, event: Event)
    requires Follows(s.state, s'.state, event) && heard' == heard + if s'.state.AwaitingApproval? then 1 else 0
    requires s'.round == s.round || (s'.round == s.round + 1 && s.round < env.MaxRounds())
    requires s.state.Streaming? && s'.state.Dispatching? ==> s'.round > s.round
    requires !IsTerminal(s'.state)
    ensures Shrinks(env, s, heard, s', heard')
  {
  }

  /** Since round `was`, `asked` model calls have used up the rounds to `round`. */
  predicate RoundsSpent(env: Env, was: int, round: int, asked: int) {
    asked == round - was && asked + RoundsLeft(env, round) <= RoundsLeft(env, was)
  }

  lemma RoundsBounded(env: Env, was: int, round: int, asked: int)
    ensures RoundsSpent(env, was, round, asked) ==> asked == round - was && asked <= RoundsLeft(env, was)
    ensures RoundsSpent(env, was, was, 0)
  {
  }

  lemma RoundSpent(env: Env, was: int, round: int, asked: int)
    requires RoundsSpent(env, was, round, asked)
    ensures round < env.MaxRounds() ==>
              && RoundsLeft(env, round + 1) < RoundsLeft(env, round)
              && RoundsSpent(env, was, round + 1, asked + 1)
  {
  }

  lemma NothingInvokedYet(env: Env, invoked: seq<Invocation>, s: Snapshot, start: Event, heard: nat, clock: nat)
    ensures TraceReady(env, invoked, |invoked|, s, start, heard, s, start, heard, clock)
  {
  }

  /** A run cannot stop between two steps in a state that has a handler. */
  lemma TraceStops(env: Env, invoked: seq<Invocation>, k: nat, s0: Snapshot, start: Event, heard0: nat, s: Snapshot,
                   event: Event, heard: nat, clock: nat)
    requires TraceReady(env, invoked, k, s0, start, heard0, s, event, heard, clock)
    ensures !HasHandler(s.state) ==>
              RunTrace(env, invoked, k, s0, start, heard0,
                       if IsTerminal(s.state) then Ok(s.state) else Err(NoHandler(s.state)), s)
  {
    hide FailureCause, Handled;
    if |invoked| > k {
      assert StepOk(env, invoked[|invoked| - 1]);
      MovesToHandled(env, invoked[|invoked| - 1]);
    }
  }

  /** Every handler leads to a state that has one, or to the end. */
  lemma MovesToHandled(env: Env, step: Invocation)
    requires StepOk(env, step)
    ensures HasHandler(step.after.state) || IsTerminal(step.after.state)
  {
  }

  lemma TraceGoesOn(env: Env, invoked: seq<Invocation>, k: nat, s0: Snapshot, start: Event, heard0: nat, s: Snapshot,
                    event: Event, heard: nat, clock: nat, invoked': seq<Invocation>, s': Snapshot,
                    stop: Option<Result<State, RunError>>, event': Event, heard': nat, clock': nat)
    requires TraceReady(env, invoked, k, s0, start, heard0, s, event, heard, clock)
    requires |invoked'| == |invoked| + 1 && invoked <= invoked'
    requires var step := invoked'[|invoked|];
             && StepOk(env, step) && StartsWith(step, s, event, heard) && step.at == clock
             && if stop.Some? then step.after == s' && EndsFor(env, step, stop.value)
                else Awaits(env, step, s', event', heard', clock')
    ensures stop.Some? ==> RunTrace(env, invoked', k, s0, start, heard0, stop.value, s')
    ensures stop.None? ==> TraceReady(env, invoked', k, s0, start, heard0, s', event', heard', clock')
  {
    hide StepOk, FailureOf;
    forall i | k < i < |invoked'|
      ensures Linked(env, invoked', i)
    {
      assert i < |invoked| ==> Linked(env, invoked, i);
    }
  }

  // ---------------------------------------------------------------- what a run that stops tells

  /** The last step of a run explains its error: a handler failed for a cause, or a save failed. */
  lemma ErrorsHaveCauses(env: Env, invoked: seq<Invocation>, k: nat, s0: Snapshot, start: Event, heard: nat,
                         r: Result<State, RunError>, s: Snapshot)
    requires RunTrace(env, invoked, k, s0, start, heard, r, s)
    ensures r.Err? && r.error.HandlerFailed? ==>
              && |invoked| > k && s.error == r.error.err
              && var last := invoked[|invoked| - 1];
                 last.turn.state == r.error.state && FailureCause(env, last.at, last.turn, last.event)
    ensures r == Err(SaveFailed) ==> |invoked| > k && !env.saves(invoked[|invoked| - 1].savedAt)
    ensures (forall t :: env.saves(t)) ==> r != Err(SaveFailed)
  {
    hide FailureCause, Moved;
    if |invoked| > k {
      assert StepOk(env, invoked[|invoked| - 1]);
    }
  }

  /** Saves succeed, no callback panics, and the model answers without calls. */
  ghost predicate AnswersAtOnce(env: Env) {
    && env.streamFn.Some?
    && forall t :: env.saves(t) && !env.callbackPanics(t)
                   && env.streamFn.value(t).Replied? && env.streamFn.value(t).reply.calls == []
  }

  lemma NotOverBefore(env: Env, invoked: seq<Invocation>, k: nat, i: nat)
    requires Trace(env, invoked, k) && k < i < |invoked|
    ensures !IsTerminal(invoked[i - 1].after.state)
  {
    assert Linked(env, invoked, i);
  }

  lemma SavesSucceed(env: Env, t: nat)
    requires AnswersAtOnce(env)
    ensures env.saves(t)
  {
  }

  /** A fresh turn with rounds left is then completed by the first answer. */
  lemma AnsweredAtOnce(env: Env, invoked: seq<Invocation>, k: nat, s0: Snapshot, heard: nat,
                       r: Result<State, RunError>, s: Snapshot)
    requires AnswersAtOnce(env) && RunTrace(env, invoked, k, s0, Event.Start, heard, r, s)
    requires s0.state.Received? && s0.round < env.MaxRounds()
    ensures r == Ok(Completed) && |invoked| == k + 3 && s.round == s0.round + 1
    ensures exists t :: s.messages == s0.messages + [env.streamFn.value(t).reply]
  {
    hide AnswersAtOnce;
    EasyStep(env, invoked, k, k, r);
    assert Linked(env, invoked, k + 1);
    EasyStep(env, invoked, k, k + 1, r);
    assert Linked(env, invoked, k + 2);
    EasyStep(env, invoked, k, k + 2, r);
    var last := invoked[k + 2];
    if |invoked| > k + 3 {
      NotOverBefore(env, invoked, k, k + 3);
    }
    SavesSucceed(env, last.savedAt);
  }

  /** What a step of such a turn does; unless it completes the turn another step follows. */
  lemma EasyStep(env: Env, invoked: seq<Invocation>, k: nat, i: nat, r: Result<State, RunError>)
    requires AnswersAtOnce(env) && Trace(env, invoked, k) && k <= i < |invoked|
    requires EndsFor(env, invoked[|invoked| - 1], r)
    requires var step := invoked[i];
             || (step.turn.state.Received? && step.event == Event.Start) || step.turn.state.Provisioning?
             || (step.turn.state.Streaming? && step.turn.round < env.MaxRounds())
    ensures var step := invoked[i];
            && (step.turn.state.Received? ==> step.after == step.turn.(state := Provisioning) && i + 1 < |invoked|)
            && (step.turn.state.Provisioning? ==> step.after == step.turn.(state := Streaming) && i + 1 < |invoked|)
            && (step.turn.state.Streaming? ==>
                  && step.after.state.Completed? && step.after.round == step.turn.round + 1
                  && env.streamFn.Some? && env.streamFn.value(step.at).Replied?
                  && step.after.messages == step.turn.messages + [env.streamFn.value(step.at).reply])
  {
    assert StepOk(env, invoked[i]);
  }

  lemma NothingSentYet(sent: seq<Sent>, from: nat)
    ensures FaithfulSince(sent, |sent|, from)
  {
  }

  lemma SendsFaithfully(sent: seq<Sent>, k: nat, s: Snapshot, from: nat, lost: bool, ran: set<Execution>)
    requires s.state.Streaming? && Shape(ran, s, from, lost) && FaithfulSince(sent, k, from)
    ensures FaithfulSince(sent + [Sent(s.messages, lost, ran)], k, from)
  {
    hide AllAnswered;
    if lost {
      var p :| LostAt(s, from, p);
      LostMeansUnanswered(ran, s, from, p);
    }
  }

  lemma DispatchNext(env: Env, t: nat, s: Snapshot, r: HandlerResult, s': Snapshot, lost: bool, lost': bool)
    requires Dispatched(env, t, s, r, s', lost, lost')
    ensures r.Next? ==> r.state.Steering? || r.state.AwaitingApproval?
    ensures lost ==> lost'
  {
  }

  lemma ExecutingKeepsShape(ran: set<Execution>, s: Snapshot, from: nat, lost: bool)
    requires s.state.Executing?
    ensures Shape(ran, s, from, lost) ==> Shape(ran, s.(state := Dispatching), from, lost)
  {
    hide AllAnswered, BatchPending;
    if Shape(ran, s, from, lost) && lost {
      var p :| LostAt(s, from, p);
      assert LostAt(s.(state := Dispatching), from, p);
    }
  }

  /** Between rounds nothing depends on which state comes next. */
  lemma EndsIntact(ran: set<Execution>, s: Snapshot, from: nat, lost: bool, next: State)
    requires s.state.Received? || s.state.Provisioning? || s.state.Streaming? || s.state.Steering?
    requires next.Provisioning? || next.Streaming? || next.Completed?
    ensures Shape(ran, s, from, lost) ==> Shape(ran, s.(state := next), from, lost)
  {
    hide AllAnswered;
    if Shape(ran, s, from, lost) && lost {
      var p :| LostAt(s, from, p);
      assert LostAt(s.(state := next), from, p);
    }
  }

  // ---------------------------------------------------------------- approval of a call that is not the last

  const FIRST: Call := Call("a", "run", "", "")
  const SECOND: Call := Call("b", "run", "", "")
  const REPLY: Msg := Msg(AssistantRole, "", [FIRST, SECOND], "", "")

  /** The model always asks for both calls; approval is wanted up to time 5, and everything is allowed afterwards. */
  function AsksOnce(): Env {
    Env(Some((t: nat) => Replied(REPLY)),
        WithDispatcher((t: nat, c: Call) => if t <= 5 then NeedsApproval else Allow(c.id, "ok")),
        t => false, t => false, 50, [ApprovalResolved], t => true)
  }

  lemma AsksOnceIsSound()
    ensures Sound(AsksOnce())
  {
    assert SoundReply(Replied(REPLY));
  }

  /** The turn in that run, before and after each of its handlers. */
  function Snapshots(): seq<Snapshot> {
    var answer := ToolMessage("a", "run", "ok");
    [Snapshot(Received, 0, [], [], "", ""),
     Snapshot(Provisioning, 0, [], [], "", ""),
     Snapshot(Streaming, 0, [], [], "", ""),
     Snapshot(Dispatching, 1, [REPLY], [FIRST, SECOND], "", ""),
     Snapshot(AwaitingApproval, 1, [REPLY, Placeholder(FIRST)], [FIRST, SECOND], "a", ""),
     Snapshot(Dispatching, 1, [REPLY], [FIRST], "", ""),
     Snapshot(Steering, 1, [REPLY, answer], [], "", ""),
     Snapshot(Streaming, 1, [REPLY, answer], [], "", ""),
     Snapshot(Dispatching, 2, [REPLY, answer, REPLY], [FIRST, SECOND], "", "")]
  }

  /** Its handler invocations, each with its event, its time, the events consumed, and the time of its save. */
  function Steps(): seq<Invocation> {
    var s := Snapshots();
    [Invocation(s[0], Some(s[0]), Event.Start, 1, 0, s[1], 1),
     Invocation(s[1], Some(s[1]), Continue, 2, 0, s[2], 2),
     Invocation(s[2], Some(s[2]), Continue, 3, 0, s[3], 4),
     Invocation(s[3], Some(s[3]), Continue, 5, 0, s[4], 5),
     Invocation(s[4], Some(s[4]), ApprovalResolved, 6, 1, s[5], 6),
     Invocation(s[5], Some(s[5]), Continue, 7, 1, s[6], 8),
     Invocation(s[6], Some(s[6]), Continue, 9, 1, s[7], 9),
     Invocation(s[7], Some(s[7]), Continue, 10, 1, s[8], 11)]
  }

  lemma StepsHandled(i: nat)
    requires i < 8
    ensures var step := Steps()[i];
            && HasHandler(step.turn.state) && !step.after.state.Failed?
            && Handled(AsksOnce(), step.at, step.turn, step.event, Next(step.after.state),
                       step.after.(state := step.turn.state))
  {
    if i == 3 {
      HoldsFirst();
    } else if i == 4 {
      assert [REPLY, Placeholder(FIRST)][..1] == [REPLY] && [REPLY][..0] == [];
    } else if i == 5 {
      RunsFirst();
    }
  }

  lemma HoldsFirst()
    ensures var s := Snapshots();
            DispatchedSomehow(AsksOnce(), 5, s[3], Next(AwaitingApproval), s[4].(state := Dispatching))
  {
    var s := Snapshots();
    assert AllowedCount(AsksOnce(), 5, [FIRST, SECOND], 0) == 0;
    assert Dispatched(AsksOnce(), 5, s[3], Next(AwaitingApproval), s[4].(state := Dispatching), false, true);
  }

  lemma RunsFirst()
    ensures var s := Snapshots();
            DispatchedSomehow(AsksOnce(), 7, s[5], Next(Steering), s[6].(state := Dispatching))
  {
    var s := Snapshots();
    assert AllowedCount(AsksOnce(), 7, [FIRST], 0) == 1;
    assert ResultMessages(AsksOnce(), 7, [FIRST], 1) == [AllowedMessage(AsksOnce(), 7, FIRST)];
    assert Dispatched(AsksOnce(), 7, s[5], Next(Steering), s[6].(state := Dispatching), true, true);
  }

  /** A whole run from a fresh turn: the model asks for two calls, approval of the first drops the second, and the
      history of the next model call does not answer it. */
  lemma EarlyApprovalLosesTheRest()
    ensures Sound(AsksOnce()) && Trace(AsksOnce(), Steps(), 0)
    ensures StartsWith(Steps()[0], Snapshot(Received, 0, [], [], "", ""), Event.Start, 0)
    ensures var last := Steps()[7];
            && last.turn.state.Streaming? && last.after.round == last.turn.round + 1
            && forall ran :: !AllAnswered(ran, last.turn.messages, 0)
  {
    AsksOnceIsSound();
    hide Sound, StepOk, Linked, AllAnswered;
    assert |Steps()| == 8;
    forall i | 0 <= i < 8
      ensures StepOk(AsksOnce(), Steps()[i]) && (i > 0 ==> Linked(AsksOnce(), Steps(), i))
    {
      StepsOk(i);
    }
    forall ran
      ensures !AllAnswered(ran, Steps()[7].turn.messages, 0)
    {
      SecondUnanswered(ran);
    }
  }

  lemma StepsOk(i: nat)
    requires i < 8
    ensures StepOk(AsksOnce(), Steps()[i]) && (i > 0 ==> Linked(AsksOnce(), Steps(), i))
  {
    hide Handled, FailureCause;
    var step := Steps()[i];
    StepsHandled(i);
    FailsForACause(AsksOnce(), step.at, step.turn, step.event, Next(step.after.state),
                   step.after.(state := step.turn.state));
  }

  lemma SecondUnanswered(ran: set<Execution>)
    ensures !AllAnswered(ran, Steps()[7].turn.messages, 0)
  {
    assert !AnsweredAt(ran, Steps()[7].turn.messages, 0);
  }
}
