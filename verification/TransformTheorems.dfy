/** What `TransformMessages` guarantees (crux-ai/core/transform.go, rules 1 to 5 of its file comment). */
module TransformTheorems {
  import opened Messages
  import opened Transform

  // ---------------------------------------------------------------- turns and their results

  /** The ids of the results that precede the next assistant message. */
  function TurnResults(ms: seq<Message>): set<string> {
    if ms == [] || ms[0].AssistantMessage? then {}
    else (if ms[0].ToolResultMessage? then {ms[0].toolCallId} else {}) + TurnResults(ms[1..])
  }

  ghost predicate TurnsAnswered(ms: seq<Message>) {
    ms == [] || ((ms[0].AssistantMessage? ==> CallIds(ms[0].turn.content) <= TurnResults(ms[1..]))
        && TurnsAnswered(ms[1..]))
  }

  /** Call `id` of message `i` has a result before the next assistant message. */
  ghost predicate AnsweredInTurn(ms: seq<Message>, i: nat, id: string) {
    exists j | i < j < |ms| :: ms[j].ToolResultMessage? && ms[j].toolCallId == id
                            && forall k | i < k < j :: !ms[k].AssistantMessage?
  }

  lemma {:induction false} TurnResultPosition(ms: seq<Message>, id: string) returns (j: nat)
    requires id in TurnResults(ms)
    ensures j < |ms| && ms[j].ToolResultMessage? && ms[j].toolCallId == id
    ensures forall k | 0 <= k < j :: !ms[k].AssistantMessage?
  {
    if ms[0].ToolResultMessage? && ms[0].toolCallId == id {
      j := 0;
    } else {
      j := TurnResultPosition(ms[1..], id);
      j := j + 1;
    }
  }

  lemma {:induction false} TurnsAnsweredAt(ms: seq<Message>, i: nat, c: Call)
    requires TurnsAnswered(ms) && i < |ms| && ms[i].AssistantMessage? && c in Calls(ms[i].turn.content)
    ensures AnsweredInTurn(ms, i, c.id)
    decreases i
  {
    if i == 0 {
      CallIdsMembers(ms[0].turn.content);
      assert c.id in CallIds(ms[0].turn.content);
      var j := TurnResultPosition(ms[1..], c.id);
      assert ms[j + 1] == ms[1..][j];
      assert forall k | 0 < k < j + 1 :: ms[k] == ms[1..][k - 1];
    } else {
      TurnsAnsweredAt(ms[1..], i - 1, c);
      var j :| i - 1 < j < |ms[1..]| && ms[1..][j].ToolResultMessage? && ms[1..][j].toolCallId == c.id
            && forall k | i - 1 < k < j :: !ms[1..][k].AssistantMessage?;
      assert ms[j + 1] == ms[1..][j];
      assert forall k | i < k < j + 1 :: ms[k] == ms[1..][k - 1];
    }
  }

  lemma {:induction false} SynthesizedAnswers(pending: seq<Call>, answered: set<string>, now: Clock, pos: nat,
                                              rest: seq<Message>)
    ensures var out := Synthesized(pending, answered, now, pos) + rest;
            && (TurnsAnswered(out) <==> TurnsAnswered(rest))
            && TurnResults(rest) <= TurnResults(out)
            && (forall c | c in pending :: c.id in answered + TurnResults(out))
  {
    var out := Synthesized(pending, answered, now, pos) + rest;
    if pending == [] {
      assert out == rest;
    } else if pending[0].id in answered {
      SynthesizedAnswers(pending[1..], answered, now, pos, rest);
    } else {
      SynthesizedAnswers(pending[1..], answered, now, pos + 1, rest);
      assert out[1..] == Synthesized(pending[1..], answered, now, pos + 1) + rest;
    }
  }

  lemma {:induction false} CompletedAnswers(ms: seq<Message>, pending: seq<Call>, answered: set<string>, now: Clock,
                                            pos: nat)
    ensures TurnsAnswered(Completed(ms, pending, answered, now, pos))
    ensures forall c | c in pending :: c.id in answered + TurnResults(Completed(ms, pending, answered, now, pos))
    decreases ms
  {
    if ms == [] {
      SynthesizedAnswers(pending, answered, now, pos, []);
      assert Completed(ms, pending, answered, now, pos) == Completed(ms, pending, answered, now, pos) + [];
    } else {
      var m := ms[0];
      var due := DueBefore(m, pending, answered, now, pos);
      var rest := Completed(ms[1..], PendingAfter(m, pending), AnsweredAfter(m, answered), now, pos + |due| + 1);
      CompletedAnswers(ms[1..], PendingAfter(m, pending), AnsweredAfter(m, answered), now, pos + |due| + 1);
      assert Completed(ms, pending, answered, now, pos) == due + ([m] + rest);
      assert TurnsAnswered([m] + rest) by {
        assert ([m] + rest)[1..] == rest;
        if m.AssistantMessage? {
          OpenedTurnAnswered(m, rest);
        }
      }
      if m.AssistantMessage? {
        SynthesizedAnswers(pending, answered, now, pos, [m] + rest);
      } else {
        assert due + ([m] + rest) == [m] + rest;
        assert ([m] + rest)[1..] == rest;
      }
    }
  }

  lemma OpenedTurnAnswered(m: Message, rest: seq<Message>)
    requires m.AssistantMessage? && forall c | c in Calls(m.turn.content) :: c.id in TurnResults(rest)
    ensures CallIds(m.turn.content) <= TurnResults(rest)
  {
    CallIdsMembers(m.turn.content);
  }

  lemma {:induction false} NothingToSynthesize(pending: seq<Call>, answered: set<string>, now: Clock, pos: nat)
    ensures Synthesized(pending, answered, now, pos) == [] <==> forall c | c in pending :: c.id in answered
  {
    if pending != [] {
      assert pending == [pending[0]] + pending[1..];
      if pending[0].id in answered {
        NothingToSynthesize(pending[1..], answered, now, pos);
      }
    }
  }

  lemma {:induction false} CompletedIdentity(ms: seq<Message>, pending: seq<Call>, answered: set<string>, now: Clock,
                                             pos: nat)
    requires TurnsAnswered(ms)
    requires forall c | c in pending :: c.id in answered + TurnResults(ms)
    ensures Completed(ms, pending, answered, now, pos) == ms
    decreases ms
  {
    NothingToSynthesize(pending, answered, now, pos);
    if ms != [] {
      if ms[0].AssistantMessage? {
        CallIdsMembers(ms[0].turn.content);
      }
      CompletedIdentity(ms[1..], PendingAfter(ms[0], pending), AnsweredAfter(ms[0], answered), now, pos + 1);
      assert DueBefore(ms[0], pending, answered, now, pos) == [];
    }
  }

  // ---------------------------------------------------------------- fixpoints of the rewriting

  /** A message on which downgrading and rewriting have nothing left to do. */
  ghost predicate Settled(msg: Message, model: Model, rename: string -> string) {
    && Kept(msg)
    && DowngradedMessage(msg, model) == msg
    && (msg.AssistantMessage? ==>
          && RewrittenContent(msg.turn.content, SameModel(msg.turn, model), rename) == msg.turn.content
          && (CrossModel(msg, model) ==> forall c | c in Calls(msg.turn.content) :: rename(c.id) == c.id))
  }

  /** A rewritten block stays as it is. */
  lemma BlockSettles(b: ContentBlock, same: bool, rename: string -> string)
    requires forall id :: rename(rename(id)) == rename(id)
    ensures var out := RewrittenBlock(b, same, rename);
            out == [] || (|out| == 1 && SettledBlock(out[0], same, rename))
  {
  }

  ghost predicate SettledBlock(b: ContentBlock, same: bool, rename: string -> string) {
    RewrittenBlock(b, same, rename) == [b] && (!same && b.ToolCall? ==> rename(b.call.id) == b.call.id)
  }

  lemma {:induction false} RewrittenContentSettles(content: seq<ContentBlock>, same: bool, rename: string -> string)
    requires forall id :: rename(rename(id)) == rename(id)
    ensures forall b | b in RewrittenContent(content, same, rename) :: SettledBlock(b, same, rename)
  {
    if content != [] {
      RewrittenContentSettles(content[..|content| - 1], same, rename);
      BlockSettles(content[|content| - 1], same, rename);
    }
  }

  lemma {:induction false} SettledBlocksStay(content: seq<ContentBlock>, same: bool, rename: string -> string)
    requires forall b | b in content :: SettledBlock(b, same, rename)
    ensures RewrittenContent(content, same, rename) == content
  {
    if content != [] {
      SettledBlocksStay(content[..|content| - 1], same, rename);
      assert SettledBlock(content[|content| - 1], same, rename);
    }
  }

  lemma ImagesSettle(content: seq<ContentBlock>, placeholder: string)
    ensures var out := WithoutImages(content, placeholder); WithoutImages(out, placeholder) == out
  {
    WithoutImagesMeaning(content, placeholder);
    WithoutImagesMeaning(WithoutImages(content, placeholder), placeholder);
  }

  lemma AssistantSettles(msg: Message, cross: set<string>, model: Model, rename: string -> string)
    requires msg.AssistantMessage? && Kept(msg) && forall id :: rename(rename(id)) == rename(id)
    ensures Settled(RewrittenMessage(msg, cross, model, rename), model, rename)
  {
    var same := SameModel(msg.turn, model);
    var out := RewrittenContent(msg.turn.content, same, rename);
    RewrittenContentSettles(msg.turn.content, same, rename);
    SettledBlocksStay(out, same, rename);
    forall c | c in Calls(out)
      ensures !same ==> rename(c.id) == c.id
    {
      CallsMembers(out, c);
    }
  }

  lemma MessageSettles(msg: Message, cross: set<string>, model: Model, rename: string -> string)
    requires Kept(msg) && forall id :: rename(rename(id)) == rename(id)
    ensures Settled(RewrittenMessage(DowngradedMessage(msg, model), cross, model, rename), model, rename)
  {
    if msg.AssistantMessage? {
      AssistantSettles(msg, cross, model, rename);
    } else if msg.ToolResultMessage? {
      ImagesSettle(msg.result, TOOL_PLACEHOLDER);
    } else if msg.UserMessage? && msg.userContent.Blocks? {
      ImagesSettle(msg.userContent.blocks, USER_PLACEHOLDER);
    }
  }

  ghost predicate AllSettled(ms: seq<Message>, model: Model, rename: string -> string) {
    forall m | m in ms :: Settled(m, model, rename)
  }

  lemma {:induction false} RewritingSettles(ms: seq<Message>, cross: set<string>, model: Model,
                                            rename: string -> string)
    requires forall id :: rename(rename(id)) == rename(id)
    ensures AllSettled(Rewritten(Downgraded(ms, model), cross, model, rename), model, rename)
  {
    if ms != [] {
      assert Downgraded(ms, model)[1..] == Downgraded(ms[1..], model);
      RewritingSettles(ms[1..], cross, model, rename);
      if Kept(ms[0]) {
        MessageSettles(ms[0], cross, model, rename);
      }
    }
  }

  lemma SyntheticSettled(c: Call, time: int, model: Model, rename: string -> string)
    ensures Settled(SyntheticResult(c, time), model, rename)
  {
    hide RunsMarked, WithoutImages;
    WithoutImagesMeaning(SyntheticResult(c, time).result, TOOL_PLACEHOLDER);
  }

  lemma SynthesizedSettled(pending: seq<Call>, answered: set<string>, now: Clock, pos: nat, model: Model,
                           rename: string -> string)
    ensures AllSettled(Synthesized(pending, answered, now, pos), model, rename)
  {
    SynthesizedAreSynthetic(pending, answered, now, pos);
    forall m | m in Synthesized(pending, answered, now, pos)
      ensures Settled(m, model, rename)
    {
      var c: Call, time :| m == SyntheticResult(c, time);
      SyntheticSettled(c, time, model, rename);
    }
  }

  lemma {:induction false} CompletingKeepsSettled(ms: seq<Message>, pending: seq<Call>, answered: set<string>,
                                                  now: Clock, pos: nat, model: Model, rename: string -> string)
    requires AllSettled(ms, model, rename)
    ensures AllSettled(Completed(ms, pending, answered, now, pos), model, rename)
    decreases ms
  {
    SynthesizedSettled(pending, answered, now, pos, model, rename);
    if ms != [] {
      var due := DueBefore(ms[0], pending, answered, now, pos);
      CompletingKeepsSettled(ms[1..], PendingAfter(ms[0], pending), AnsweredAfter(ms[0], answered), now,
                             pos + |due| + 1, model, rename);
    }
  }

  lemma {:induction false} SettledCrossIds(ms: seq<Message>, model: Model, rename: string -> string)
    requires AllSettled(ms, model, rename)
    ensures forall id | id in CrossIds(ms, model) :: rename(id) == id
  {
    if ms != [] {
      var last := ms[|ms| - 1];
      assert Settled(last, model, rename);
      if last.AssistantMessage? {
        CallIdsMembers(last.turn.content);
      }
      SettledCrossIds(ms[..|ms| - 1], model, rename);
    }
  }

  lemma {:induction false} SettledRewriting(ms: seq<Message>, cross: set<string>, model: Model,
                                            rename: string -> string)
    requires AllSettled(ms, model, rename) && forall id | id in cross :: rename(id) == id
    ensures Rewritten(ms, cross, model, rename) == ms
  {
    if ms != [] {
      assert Settled(ms[0], model, rename);
      assert RewrittenMessage(ms[0], cross, model, rename) == ms[0];
      SettledRewriting(ms[1..], cross, model, rename);
    }
  }

  // ---------------------------------------------------------------- main results

  /** Transforming an output again returns it unchanged, whatever the clock shows. */
  lemma Idempotent(history: seq<Message>, model: Model, normalize: Normalizer, now: Clock, later: Clock)
    requires IdempotentFor(normalize, model)
    ensures var out := Transformed(history, model, normalize, now);
            Transformed(out, model, normalize, later) == out
  {
    var rename := Renaming(normalize, model);
    var imageAware := Downgraded(history, model);
    var cross := CrossIds(imageAware, model);
    var rewritten := Rewritten(imageAware, cross, model, rename);
    var out := Completed(rewritten, [], {}, now, 0);
    RewritingSettles(history, cross, model, rename);
    CompletingKeepsSettled(rewritten, [], {}, now, 0, model, rename);
    assert forall i | 0 <= i < |out| :: out[i] in out;
    assert Downgraded(out, model) == out;
    SettledCrossIds(out, model, rename);
    SettledRewriting(out, CrossIds(out, model), model, rename);
    CompletedAnswers(rewritten, [], {}, now, 0);
    CompletedIdentity(out, [], {}, later, 0);
  }

  /** Every call of the output has a result with its id before the next assistant message. */
  lemma EveryCallAnswered(history: seq<Message>, model: Model, normalize: Normalizer, now: Clock)
    ensures var out := Transformed(history, model, normalize, now);
            forall i, c | 0 <= i < |out| && out[i].AssistantMessage? && c in Calls(out[i].turn.content) ::
              AnsweredInTurn(out, i, c.id)
  {
    var imageAware := Downgraded(history, model);
    var rewritten := Rewritten(imageAware, CrossIds(imageAware, model), model, Renaming(normalize, model));
    var out := Completed(rewritten, [], {}, now, 0);
    CompletedAnswers(rewritten, [], {}, now, 0);
    forall i, c | 0 <= i < |out| && out[i].AssistantMessage? && c in Calls(out[i].turn.content)
      ensures AnsweredInTurn(out, i, c.id)
    {
      TurnsAnsweredAt(out, i, c);
    }
  }

  /** A turn of some other model that makes one call. */
  function OneCallTurn(id: string, model: Model): Message {
    AssistantMessage(Assistant([ToolCall(Call(id, "", "", ""))], "", model.provider + "'", "", StopStop, "", 0))
  }

  /** A normalizer that is not idempotent breaks the theorem: `Idempotent` has the exact hypothesis. */
  lemma IdempotenceNeedsIdempotentNormalizer(id: string, model: Model, normalize: Normalizer, now: Clock, later: Clock)
    requires normalize(normalize(id, model), model) != normalize(id, model)
    ensures var out := Transformed([OneCallTurn(id, model)], model, normalize, now);
            Transformed(out, model, normalize, later) != out
  {
    var rename := Renaming(normalize, model);
    var turn := OneCallTurn(id, model);
    var out := Transformed([turn], model, normalize, now);
    assert Downgraded([turn], model) == [turn];
    FirstMessage([turn], model, normalize, now);
    OneCallRewritten(id, model, rename);
    assert out[0] == OneCallTurn(rename(id), model);
    FirstMessage(out, model, normalize, later);
    OneCallRewritten(rename(id), model, rename);
  }

  lemma OneCallRewritten(id: string, model: Model, rename: string -> string)
    ensures CrossModel(OneCallTurn(id, model), model)
    ensures AssistantMessage(RewrittenTurn(OneCallTurn(id, model).turn, model, rename))
         == OneCallTurn(rename(id), model)
  {
    assert |model.provider + "'"| == |model.provider| + 1;
    var b := ToolCall(Call(id, "", "", ""));
    assert [b][..0] == [];
    assert RewrittenContent([b], false, rename) == [] + RewrittenBlock(b, false, rename);
  }

  lemma FirstMessage(history: seq<Message>, model: Model, normalize: Normalizer, now: Clock)
    requires history != [] && history[0].AssistantMessage? && Kept(history[0])
    ensures var imageAware := Downgraded(history, model);
            var out := Transformed(history, model, normalize, now);
            && out != []
            && out[0] == RewrittenMessage(imageAware[0], CrossIds(imageAware, model), model, Renaming(normalize, model))
  {
  }

  /** With the default normalizer every call id of another model is empty or short and safe. */
  lemma CrossIdsAcceptable(history: seq<Message>, model: Model, sha: Digest, now: Clock)
    ensures var out := Transformed(history, model, (id, m) => DefaultNormalize(sha, id), now);
            forall i, c | 0 <= i < |out| && CrossModel(out[i], model) && c in Calls(out[i].turn.content) ::
                AcceptableId(c.id)
  {
    var normalize := (id, m) => DefaultNormalize(sha, id);
    var rename := Renaming(normalize, model);
    var imageAware := Downgraded(history, model);
    var cross := CrossIds(imageAware, model);
    var out := Transformed(history, model, normalize, now);
    RewritingSettles(history, cross, model, rename);
    CompletingKeepsSettled(Rewritten(imageAware, cross, model, rename), [], {}, now, 0, model, rename);
    forall i, c | 0 <= i < |out| && CrossModel(out[i], model) && c in Calls(out[i].turn.content)
      ensures AcceptableId(c.id)
    {
      assert Settled(out[i], model, rename);
      assert rename(c.id) == DefaultNormalize(sha, c.id);
    }
  }

  /** `out` without the messages marked as inserted. */
  function Erased(out: seq<Message>, inserted: seq<bool>): seq<Message>
    requires |inserted| == |out|
  {
    if out == [] then []
    else if inserted[0] then Erased(out[1..], inserted[1..])
    else [out[0]] + Erased(out[1..], inserted[1..])
  }

  /** The ids of the results that are not inserted, up to the next assistant message. */
  function KeptResults(out: seq<Message>, inserted: seq<bool>): set<string>
    requires |inserted| == |out|
  {
    if out == [] || out[0].AssistantMessage? then {}
    else
      KeptResults(out[1..], inserted[1..])
      + if !inserted[0] && out[0].ToolResultMessage? then {out[0].toolCallId} else {}
  }

  /** An error result for the call `c`, which no result answers. */
  predicate SynthesizedFor(m: Message, c: Call, answered: set<string>) {
    && c.id !in answered && m.ToolResultMessage? && m.toolCallId == c.id && m.toolName == c.name && m.isError
    && m.result == [TextContent("No result provided", "")]
  }

  /** Every inserted message answers a call of the last assistant message before it, and no result that is kept
      in the same turn, before or after it, bears the id of that call. The calls of a turn are answered in their
      order, each once. `pending` and `answered` describe the turn that is open where `out` starts: the calls not
      passed yet, and the ids of its results. */
  ghost predicate Explained(out: seq<Message>, inserted: seq<bool>, pending: seq<Call>, answered: set<string>)
    requires |inserted| == |out|
    decreases out
  {
    out == [] ||
    if inserted[0] then
      exists i | 0 <= i < |pending| ::
        && SynthesizedFor(out[0], pending[i], answered + KeptResults(out[1..], inserted[1..]))
        && Explained(out[1..], inserted[1..], pending[i + 1..], answered)
    else
      match out[0]
      case AssistantMessage(turn) => Explained(out[1..], inserted[1..], Calls(turn.content), {})
      case ToolResultMessage(id, _, _, _, _) => Explained(out[1..], inserted[1..], pending, answered + {id})
      case _ => Explained(out[1..], inserted[1..], pending, answered)
  }

  /** `out` is `ms`, in order, with nothing but explained error results inserted. */
  ghost predicate OnlyInserts(ms: seq<Message>, out: seq<Message>, inserted: seq<bool>, pending: seq<Call>,
                              answered: set<string>) {
    |inserted| == |out| && Erased(out, inserted) == ms && Explained(out, inserted, pending, answered)
  }

  lemma KeepOne(m: Message, ms: seq<Message>, out: seq<Message>, inserted: seq<bool>, pending: seq<Call>,
                answered: set<string>)
    requires OnlyInserts(ms, out, inserted, PendingAfter(m, pending), AnsweredAfter(m, answered))
    ensures OnlyInserts([m] + ms, [m] + out, [false] + inserted, pending, answered)
    ensures m.AssistantMessage? ==> KeptResults([m] + out, [false] + inserted) == {}
  {
    assert ([m] + out)[1..] == out && ([false] + inserted)[1..] == inserted;
  }

  /** What is explained with fewer pending calls is explained with more. */
  lemma {:induction false} MorePending(out: seq<Message>, inserted: seq<bool>, pending: seq<Call>,
                                       answered: set<string>)
    requires |inserted| == |out| && pending != [] && Explained(out, inserted, pending[1..], answered)
    ensures Explained(out, inserted, pending, answered)
    decreases out
  {
    if out != [] {
      if inserted[0] {
        var i :| 0 <= i < |pending[1..]|
              && SynthesizedFor(out[0], pending[1..][i], answered + KeptResults(out[1..], inserted[1..]))
              && Explained(out[1..], inserted[1..], pending[1..][i + 1..], answered);
        assert pending[1..][i] == pending[i + 1] && pending[1..][i + 1..] == pending[i + 2..];
      } else if !out[0].AssistantMessage? {
        MorePending(out[1..], inserted[1..], pending, if out[0].ToolResultMessage? then answered + {out[0].toolCallId}
            else answered);
      }
    }
  }

  lemma InsertOne(c: Call, time: int, rest: seq<Call>, ms: seq<Message>, out: seq<Message>, inserted: seq<bool>,
                  answered: set<string>)
    requires c.id !in answered && OnlyInserts(ms, out, inserted, rest, answered) && KeptResults(out, inserted) == {}
    ensures OnlyInserts(ms, [SyntheticResult(c, time)] + out, [true] + inserted, [c] + rest, answered)
    ensures KeptResults([SyntheticResult(c, time)] + out, [true] + inserted) == {}
  {
    var m := SyntheticResult(c, time);
    assert ([m] + out)[1..] == out && ([true] + inserted)[1..] == inserted;
    assert answered + KeptResults(out, inserted) == answered;
    assert ([c] + rest)[0] == c && ([c] + rest)[0 + 1..] == rest;
    assert SynthesizedFor(m, ([c] + rest)[0], answered + KeptResults(out, inserted));
  }

  /** Before a turn ends, error results for its pending calls can be inserted. */
  lemma {:induction false} InsertMissing(ms: seq<Message>, out: seq<Message>, inserted: seq<bool>,
                                         pending: seq<Call>, answered: set<string>, now: Clock, pos: nat)
    returns (inserted': seq<bool>)
    requires OnlyInserts(ms, out, inserted, [], answered) && KeptResults(out, inserted) == {}
    ensures var due := Synthesized(pending, answered, now, pos);
            OnlyInserts(ms, due + out, inserted', pending, answered) && KeptResults(due + out, inserted') == {}
  {
    hide KeptResults, Explained;
    if pending == [] {
      inserted' := inserted;
      assert [] + out == out;
    } else if pending[0].id in answered {
      inserted' := InsertMissing(ms, out, inserted, pending[1..], answered, now, pos);
      MorePending(Synthesized(pending, answered, now, pos) + out, inserted', pending, answered);
    } else {
      var rest := Synthesized(pending[1..], answered, now, pos + 1) + out;
      inserted' := InsertMissing(ms, out, inserted, pending[1..], answered, now, pos + 1);
      InsertOne(pending[0], now(pos), pending[1..], ms, rest, inserted', answered);
      inserted' := [true] + inserted';
      assert [pending[0]] + pending[1..] == pending;
      assert Synthesized(pending, answered, now, pos) + out == [SyntheticResult(pending[0], now(pos))] + rest;
    }
  }

  lemma NothingInserted(pending: seq<Call>, answered: set<string>)
    ensures OnlyInserts([], [], [], pending, answered) && KeptResults([], []) == {}
  {
  }

  lemma InsertedLength(ms: seq<Message>, out: seq<Message>, inserted: seq<bool>, pending: seq<Call>,
                       answered: set<string>)
    requires OnlyInserts(ms, out, inserted, pending, answered)
    ensures |inserted| == |out|
  {
  }

  /** Completing inserts error results for unanswered calls and changes nothing else. */
  lemma {:induction false} OnlyResultsInserted(ms: seq<Message>, pending: seq<Call>, answered: set<string>,
                                               now: Clock, pos: nat)
    returns (inserted: seq<bool>)
    ensures OnlyInserts(ms, Completed(ms, pending, answered, now, pos), inserted, pending, answered)
    decreases ms
  {
    hide OnlyInserts, SynthesizedFor, Synthesized, KeptResults;
    NothingInserted([], answered);
    if ms == [] {
      var due := Synthesized(pending, answered, now, pos);
      inserted := InsertMissing([], [], [], pending, answered, now, pos);
      assert Completed(ms, pending, answered, now, pos) == due + [];
    } else {
      var m := ms[0];
      var due := DueBefore(m, pending, answered, now, pos);
      var pending', answered' := PendingAfter(m, pending), AnsweredAfter(m, answered);
      var rest := Completed(ms[1..], pending', answered', now, pos + |due| + 1);
      inserted := OnlyResultsInserted(ms[1..], pending', answered', now, pos + |due| + 1);
      InsertedLength(ms[1..], rest, inserted, pending', answered');
      KeepOne(m, ms[1..], rest, inserted, if m.AssistantMessage? then [] else pending, answered);
      inserted := [false] + inserted;
      assert [m] + ms[1..] == ms;
      if m.AssistantMessage? {
        inserted := InsertMissing(ms, [m] + rest, inserted, pending, answered, now, pos);
        assert due + ([m] + rest) == due + [m] + rest;
      } else {
        assert due + [m] + rest == [m] + rest;
      }
    }
  }

  /** The position of the `k`-th message that is not inserted. */
  function PositionOf(inserted: seq<bool>, k: nat): nat
    decreases |inserted|
  {
    if inserted == [] then 0
    else if inserted[0] then 1 + PositionOf(inserted[1..], k)
    else if k == 0 then 0
    else 1 + PositionOf(inserted[1..], k - 1)
  }

  lemma {:induction false} ErasedPosition(out: seq<Message>, inserted: seq<bool>, k: nat)
    requires |inserted| == |out| && k < |Erased(out, inserted)|
    ensures PositionOf(inserted, k) < |out| && out[PositionOf(inserted, k)] == Erased(out, inserted)[k]
    ensures !inserted[PositionOf(inserted, k)]
    decreases |out|
  {
    if inserted[0] {
      ErasedPosition(out[1..], inserted[1..], k);
    } else if k > 0 {
      ErasedPosition(out[1..], inserted[1..], k - 1);
    }
  }

  lemma {:induction false} PositionsInOrder(out: seq<Message>, inserted: seq<bool>, k: nat, l: nat)
    requires |inserted| == |out| && k < l < |Erased(out, inserted)|
    ensures PositionOf(inserted, k) < PositionOf(inserted, l)
    decreases |out|
  {
    if inserted[0] {
      PositionsInOrder(out[1..], inserted[1..], k, l);
    } else if k > 0 {
      PositionsInOrder(out[1..], inserted[1..], k - 1, l - 1);
    }
  }

  /** The kept messages of a suffix, rewritten one by one, in order. */
  lemma {:induction false} RewrittenFrom(ms: seq<Message>, from: nat, cross: set<string>, model: Model,
                                         rename: string -> string)
    returns (src: seq<nat>)
    requires from <= |ms|
    ensures RewritesInOrder(ms, from, Rewritten(ms[from..], cross, model, rename), src, cross, model, rename)
    decreases |ms| - from
  {
    hide RewrittenMessage, Kept;
    src := [];
    if from < |ms| {
      assert ms[from..][1..] == ms[from + 1..];
      var rest := RewrittenFrom(ms, from + 1, cross, model, rename);
      src := if Kept(ms[from]) then [from] + rest else rest;
    }
  }

  /** Message `k` of `out` rewrites message `src[k]` of `ms`; the sources are the kept messages from `from` on, in
      order. */
  ghost predicate RewritesInOrder(ms: seq<Message>, from: nat, out: seq<Message>, src: seq<nat>,
                                  cross: set<string>, model: Model, rename: string -> string) {
    && |src| == |out|
    && (forall k | 0 <= k < |src| ::
          from <= src[k] < |ms| && Kept(ms[src[k]]) && out[k] == RewrittenMessage(ms[src[k]], cross, model, rename))
    && (forall j, k | 0 <= j < k < |src| :: src[j] < src[k])
    && forall i | from <= i < |ms| && Kept(ms[i]) :: i in src
  }

  /** The whole output: the kept messages of the history, in order, each rewritten on its own, and between them
      error results for calls that no kept result of their turn answers. */
  lemma OutputIsRewrittenHistory(history: seq<Message>, model: Model, normalize: Normalizer, now: Clock)
    returns (inserted: seq<bool>, src: seq<nat>)
    ensures var imageAware := Downgraded(history, model);
            var out := Transformed(history, model, normalize, now);
            && |inserted| == |out| && Explained(out, inserted, [], {})
            && RewritesInOrder(imageAware, 0, Erased(out, inserted), src,
                               CrossIds(imageAware, model), model, Renaming(normalize, model))
  {
    var imageAware := Downgraded(history, model);
    var cross, rename := CrossIds(imageAware, model), Renaming(normalize, model);
    inserted := OnlyResultsInserted(Rewritten(imageAware, cross, model, rename), [], {}, now, 0);
    assert imageAware[0..] == imageAware;
    src := RewrittenFrom(imageAware, 0, cross, model, rename);
  }

  ghost predicate IsSynthetic(m: Message) {
    exists c: Call, time :: m == SyntheticResult(c, time)
  }

  lemma {:induction false} SynthesizedAreSynthetic(pending: seq<Call>, answered: set<string>, now: Clock, pos: nat)
    ensures forall m | m in Synthesized(pending, answered, now, pos) :: IsSynthetic(m)
  {
    if pending != [] {
      SynthesizedAreSynthetic(pending[1..], answered, now, pos);
      SynthesizedAreSynthetic(pending[1..], answered, now, pos + 1);
      assert IsSynthetic(SyntheticResult(pending[0], now(pos)));
    }
  }

  /** Where a kept message of the history stands in the output, rewritten. */
  lemma KeptPosition(out: seq<Message>, inserted: seq<bool>, ms: seq<Message>, src: seq<nat>, cross: set<string>,
                     model: Model, rename: string -> string, i: nat)
    returns (k: nat)
    requires |inserted| == |out| && RewritesInOrder(ms, 0, Erased(out, inserted), src, cross, model, rename)
    requires i < |ms| && Kept(ms[i])
    ensures k < |src| && src[k] == i && PositionOf(inserted, k) < |out|
    ensures out[PositionOf(inserted, k)] == RewrittenMessage(ms[i], cross, model, rename)
  {
    hide RewrittenMessage, Kept;
    k :| k < |src| && src[k] == i;
    ErasedPosition(out, inserted, k);
  }

  /** What becomes of a cross-model turn and of a result of one of its calls. */
  lemma SharedIdRewritten(history: seq<Message>, i: nat, c: Call, j: nat, model: Model, rename: string -> string)
    requires i < |history| && CrossModel(history[i], model) && c in Calls(history[i].turn.content)
    requires j < |history| && history[j].ToolResultMessage? && history[j].toolCallId == c.id
    ensures var imageAware := Downgraded(history, model);
            var cross := CrossIds(imageAware, model);
            && Kept(imageAware[i]) && Kept(imageAware[j])
            && RewrittenMessage(imageAware[i], cross, model, rename)
               == AssistantMessage(RewrittenTurn(history[i].turn, model, rename))
            && RewrittenMessage(imageAware[j], cross, model, rename)
               == DowngradedMessage(history[j], model).(toolCallId := rename(c.id))
    ensures RenamedCall(c, rename) in Calls(RewrittenTurn(history[i].turn, model, rename).content)
  {
    var content := history[i].turn.content;
    CrossIdsContain(Downgraded(history, model), model, i);
    CallIdsMembers(content);
    CallsMembers(content, c);
    RenamedCallKept(content, c, rename);
    CallsMembers(RewrittenContent(content, false, rename), RenamedCall(c, rename));
  }

  /** A call of a kept cross-model turn and a result of the history with its id: the output holds that turn, with
      the call renamed, and that very result, with the same new id and otherwise only its images changed. They
      stand in the order in which they stood. */
  lemma SharedIdSurvives(history: seq<Message>, i: nat, c: Call, j: nat, model: Model, normalize: Normalizer,
                         now: Clock)
    returns (p: nat, q: nat)
    requires i < |history| && CrossModel(history[i], model) && c in Calls(history[i].turn.content)
    requires j < |history| && history[j].ToolResultMessage? && history[j].toolCallId == c.id
    ensures var out := Transformed(history, model, normalize, now);
            var rename := Renaming(normalize, model);
            && p < |out| && q < |out| && (i < j <==> p < q)
            && out[p] == AssistantMessage(RewrittenTurn(history[i].turn, model, rename))
            && RenamedCall(c, rename) in Calls(out[p].turn.content)
            && out[q] == DowngradedMessage(history[j], model).(toolCallId := normalize(c.id, model))
  {
    hide RewrittenMessage, RewrittenTurn, Kept, CrossModel, CrossIds, Calls, Transformed, Downgraded, RewritesInOrder;
    hide DowngradedMessage, RenamedCall, PositionOf, Erased, Explained;
    var rename := Renaming(normalize, model);
    var imageAware := Downgraded(history, model);
    var cross := CrossIds(imageAware, model);
    var out := Transformed(history, model, normalize, now);
    SameLength(history, model);
    SharedIdRewritten(history, i, c, j, model, rename);
    var inserted, src := OutputIsRewrittenHistory(history, model, normalize, now);
    SourcesInOrder(imageAware, Erased(out, inserted), src, cross, model, rename);
    var k := KeptPosition(out, inserted, imageAware, src, cross, model, rename, i);
    var l := KeptPosition(out, inserted, imageAware, src, cross, model, rename, j);
    p, q := PositionOf(inserted, k), PositionOf(inserted, l);
    if k < l {
      PositionsInOrder(out, inserted, k, l);
    } else if l < k {
      PositionsInOrder(out, inserted, l, k);
    }
  }

  lemma SameLength(history: seq<Message>, model: Model)
    ensures |Downgraded(history, model)| == |history|
  {
  }

  lemma SourcesInOrder(ms: seq<Message>, out: seq<Message>, src: seq<nat>, cross: set<string>, model: Model,
                       rename: string -> string)
    requires RewritesInOrder(ms, 0, out, src, cross, model, rename)
    ensures |src| == |out| && forall j, k | 0 <= j < k < |src| :: src[j] < src[k]
  {
  }

  lemma {:induction false} RenamedCallKept(content: seq<ContentBlock>, c: Call, rename: string -> string)
    requires ToolCall(c) in content
    ensures ToolCall(RenamedCall(c, rename)) in RewrittenContent(content, false, rename)
  {
    var front, b := content[..|content| - 1], content[|content| - 1];
    if b != ToolCall(c) {
      RenamedCallKept(front, c, rename);
    }
  }
}
