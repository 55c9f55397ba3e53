/** The request handler: the agent loop over a shared message list, and the response. */
module Agent {
  import opened Wrappers
  import opened Messages
  import opened Conversation
  import opened Dispatch

  const MAX_ITERATIONS: nat := 5

  /** How the agent loop ends. `Exhausted` is the `undefined` that `agent` falls through to;
      `Fault` is an exception thrown inside the loop. */
  datatype Outcome = Answer(text: Option<string>) | Exhausted | Fault

  /** One loop iteration: the loop goes on with the new list, or ends with an outcome. */
  datatype TurnResult = Continue(msgs: seq<Message>) | Finished(outcome: Outcome, msgs: seq<Message>)

  /** One iteration of the loop on message list `msgs`: ask the model, push its message,
      then answer, dispatch the requested tools, or simply go on. */
  function Turn(env: Env, i: nat, msgs: seq<Message>): (r: TurnResult)
    ensures |msgs| <= |r.msgs| && r.msgs[..|msgs|] == msgs
    ensures env.complete(i, msgs).None? ==> r == Finished(Fault, msgs)
    ensures r.Finished? && r.outcome.Answer? ==>
      var c := env.complete(i, msgs);
      c.Some? && c.value.finishReason == Stop && r.outcome.text == c.value.message.content
    ensures r.Finished? ==> !r.outcome.Exhausted?
  {
    match env.complete(i, msgs)
    case None => Finished(Fault, msgs)
    case Some(c) =>
      var pushed := msgs + [c.message];
      match c.finishReason
      case Stop => Finished(Answer(c.message.content), pushed + [AssistantCopy(c.message.content)])
      case ToolCalls =>
        (match c.message.toolCalls
         case None => Finished(Fault, pushed)
         case Some(calls) =>
           match DispatchAll(env, calls)
           case Completed(ts) => Continue(pushed + ts)
           case Aborted(ts) => Finished(Fault, pushed + ts))
      case OtherReason(_) => Continue(pushed)
  }

  /** On `"stop"` the list grows by the model's message and an assistant copy of its content,
      and the answer is that content. */
  lemma TurnOnStop(env: Env, i: nat, msgs: seq<Message>, c: Completion)
    requires env.complete(i, msgs) == Some(c) && c.finishReason == Stop
    ensures Turn(env, i, msgs) ==
      Finished(Answer(c.message.content), msgs + [c.message, AssistantCopy(c.message.content)])
  {
    assert msgs + [c.message] + [AssistantCopy(c.message.content)] ==
      msgs + [c.message, AssistantCopy(c.message.content)];
  }

  /** With any finish reason other than `"stop"` and `"tool_calls"`, only the model's message
      is pushed and the loop goes on. */
  lemma TurnOnOtherReason(env: Env, i: nat, msgs: seq<Message>, c: Completion)
    requires env.complete(i, msgs) == Some(c) && c.finishReason.OtherReason?
    ensures Turn(env, i, msgs) == Continue(msgs + [c.message])
  {
  }

  /** On `"tool_calls"` whose calls all dispatch, the list grows by the model's message and
      then one tool message per call, in request order, each correlated with its call. */
  lemma TurnOnToolCalls(env: Env, i: nat, msgs: seq<Message>, c: Completion, calls: seq<ToolCall>)
    requires env.complete(i, msgs) == Some(c) && c.finishReason == ToolCalls
    requires c.message.toolCalls == Some(calls)
    requires forall k :: 0 <= k < |calls| ==> DispatchCall(env, calls[k]).Delivered?
    ensures var r := Turn(env, i, msgs);
      r.Continue? &&
      |r.msgs| == |msgs| + 1 + |calls| &&
      r.msgs[|msgs|] == c.message &&
      forall k :: 0 <= k < |calls| ==>
        r.msgs[|msgs| + 1 + k] == DispatchCall(env, calls[k]).msg &&
        r.msgs[|msgs| + 1 + k] == ToolMessage(calls[k].id, calls[k].name, r.msgs[|msgs| + 1 + k].content)
  {
    DispatchAllOutcome(env, calls);
    var ts := DispatchAll(env, calls).msgs;
    assert Turn(env, i, msgs) == Continue(msgs + [c.message] + ts);
    forall k | 0 <= k < |calls|
      ensures (msgs + [c.message] + ts)[|msgs| + 1 + k] == ts[k]
    {
    }
  }

  /** On `"tool_calls"` where call `j` cannot be dispatched (unknown name, unparseable
      arguments, or a handler that throws), the request faults after the model's message and
      the tool messages of the calls before `j`; no message is pushed for call `j`. */
  lemma TurnOnDispatchFault(env: Env, i: nat, msgs: seq<Message>, c: Completion, calls: seq<ToolCall>, j: nat)
    requires env.complete(i, msgs) == Some(c) && c.finishReason == ToolCalls
    requires c.message.toolCalls == Some(calls)
    requires j < |calls| && DispatchCall(env, calls[j]).Faulted?
    requires forall k :: 0 <= k < j ==> DispatchCall(env, calls[k]).Delivered?
    ensures var r := Turn(env, i, msgs);
      r.Finished? && r.outcome == Fault &&
      |r.msgs| == |msgs| + 1 + j &&
      r.msgs[|msgs|] == c.message &&
      forall k :: 0 <= k < j ==> r.msgs[|msgs| + 1 + k] == DispatchCall(env, calls[k]).msg
  {
    DispatchAllStopsAt(env, calls, j);
    var ts := DispatchAll(env, calls).msgs;
    assert Turn(env, i, msgs) == Finished(Fault, msgs + [c.message] + ts);
    forall k | 0 <= k < j
      ensures (msgs + [c.message] + ts)[|msgs| + 1 + k] == ts[k]
    {
    }
  }

  /** Once a prefix of a batch has aborted, the whole batch aborts with the same messages. */
  lemma {:induction false} AbortedStaysAborted(env: Env, calls: seq<ToolCall>, n: nat)
    requires n <= |calls| && DispatchAll(env, calls[..n]).Aborted?
    ensures DispatchAll(env, calls) == DispatchAll(env, calls[..n])
    decreases |calls| - n
  {
    if n < |calls| {
      assert calls[..n + 1][..n] == calls[..n];
      AbortedStaysAborted(env, calls, n + 1);
    } else {
      assert calls[..n] == calls;
    }
  }

  /** The loop from iteration `i` on, as `(outcome, final message list)`. */
  function Run(env: Env, i: nat, msgs: seq<Message>): (r: (Outcome, seq<Message>))
    ensures |msgs| <= |r.1| && r.1[..|msgs|] == msgs
    ensures r.0 != Exhausted ==> i < MAX_ITERATIONS
    decreases MAX_ITERATIONS - i
  {
    if i >= MAX_ITERATIONS then (Exhausted, msgs)
    else match Turn(env, i, msgs)
      case Finished(o, ms) => (o, ms)
      case Continue(ms) => Run(env, i + 1, ms)
  }

  /** The loop only appends: the messages it started with are never changed. */
  lemma {:induction false} RunExtends(env: Env, i: nat, msgs: seq<Message>)
    ensures var r := Run(env, i, msgs); |msgs| <= |r.1| && r.1[..|msgs|] == msgs
    decreases MAX_ITERATIONS - i
  {
    if i < MAX_ITERATIONS {
      var t := Turn(env, i, msgs);
      if t.Continue? {
        RunExtends(env, i + 1, t.msgs);
        var r := Run(env, i + 1, t.msgs);
        assert r.1[..|msgs|] == r.1[..|t.msgs|][..|msgs|];
      }
    }
  }

  /** An answer comes only from a model reply with finish reason `"stop"` on one of the
      `MAX_ITERATIONS` calls; that reply and the assistant copy of its content end the list. */
  lemma {:induction false} RunAnswer(env: Env, i: nat, msgs: seq<Message>)
    requires Run(env, i, msgs).0.Answer?
    ensures var (o, ms) := Run(env, i, msgs);
      |ms| >= 2 &&
      ms[|ms| - 1] == AssistantCopy(o.text) &&
      ms[|ms| - 2].content == o.text &&
      AnsweredOn(env, i, ms[..|ms| - 2], ms[|ms| - 2])
    decreases MAX_ITERATIONS - i
  {
    var t := Turn(env, i, msgs);
    if t.Continue? {
      RunAnswer(env, i + 1, t.msgs);
    } else {
      var c := env.complete(i, msgs).value;
      TurnOnStop(env, i, msgs, c);
      var ms := t.msgs;
      assert ms[..|ms| - 2] == msgs;
      assert StopsWith(env, i, ms[..|ms| - 2], ms[|ms| - 2]);
    }
  }

  /** The model, asked on iteration `k` with list `msgs`, replies `m` with finish reason `"stop"`. */
  predicate StopsWith(env: Env, k: nat, msgs: seq<Message>, m: Message) {
    env.complete(k, msgs) == Some(Completion(Stop, m))
  }

  /** On some iteration from `i` on, the model replied `m` with `"stop"` when asked with `msgs`. */
  predicate AnsweredOn(env: Env, i: nat, msgs: seq<Message>, m: Message) {
    exists k: nat :: i <= k < MAX_ITERATIONS && StopsWith(env, k, msgs, m)
  }

  /** A model reply that never says `"stop"`, never faults, and whose tool calls (if any) all
      dispatch, drives the loop to exhaustion after `MAX_ITERATIONS` calls. */
  predicate KeepsGoing(env: Env, c: Option<Completion>) {
    c.Some? && c.value.finishReason != Stop &&
    (c.value.finishReason == ToolCalls ==>
      c.value.message.toolCalls.Some? &&
      forall k :: 0 <= k < |c.value.message.toolCalls.value| ==>
        DispatchCall(env, c.value.message.toolCalls.value[k]).Delivered?)
  }

  lemma {:induction false} RunExhausts(env: Env, i: nat, msgs: seq<Message>)
    requires forall k, ms :: i <= k < MAX_ITERATIONS ==> KeepsGoing(env, env.complete(k, ms))
    ensures Run(env, i, msgs).0 == Exhausted
    decreases MAX_ITERATIONS - i
  {
    if i < MAX_ITERATIONS {
      var c := env.complete(i, msgs);
      assert KeepsGoing(env, c);
      if c.value.finishReason == ToolCalls {
        DispatchAllOutcome(env, c.value.message.toolCalls.value);
      }
      assert Turn(env, i, msgs).Continue?;
      RunExhausts(env, i + 1, Turn(env, i, msgs).msgs);
    }
  }

  /** The model is asked at most `MAX_ITERATIONS` times: replies it would give on later
      iterations make no difference. */
  lemma {:induction false} RunUsesFirstCalls(env: Env, f: (nat, seq<Message>) -> Option<Completion>, i: nat, msgs: seq<Message>)
    requires forall k: nat, ms :: k < MAX_ITERATIONS ==> f(k, ms) == env.complete(k, ms)
    ensures Run(env.(complete := f), i, msgs) == Run(env, i, msgs)
    decreases MAX_ITERATIONS - i
  {
    if i < MAX_ITERATIONS {
      var c := env.complete(i, msgs);
      if c.Some? && c.value.finishReason == ToolCalls && c.value.message.toolCalls.Some? {
        DispatchAllIgnoresCompletion(env, f, c.value.message.toolCalls.value);
      }
      assert Turn(env.(complete := f), i, msgs) == Turn(env, i, msgs);
      var t := Turn(env, i, msgs);
      if t.Continue? {
        RunUsesFirstCalls(env, f, i + 1, t.msgs);
      }
    }
  }

  /** The message list of one request (`messages` in the handler), which the loop pushes onto. */
  class MessageLog {
    var messages: seq<Message>

    constructor (initial: seq<Message>)
      ensures messages == initial
    {
      messages := initial;
    }

    /** The `splice` that drops the oldest messages after the system prefix. */
    method Truncate()
      modifies this
      ensures messages == Truncated(old(messages))
    {
      if |messages| > MAX_HISTORY_LENGTH {
        messages := Splice(messages, |SystemPrefix|, |messages| - MAX_HISTORY_LENGTH);
      }
    }

    /** `agent(query)`: at most `MAX_ITERATIONS` model calls, pushing onto `messages`. */
    method RunAgent(env: Env) returns (outcome: Outcome)
      modifies this
      ensures (outcome, messages) == Run(env, 0, old(messages))
    {
      for i := 0 to MAX_ITERATIONS
        invariant Run(env, i, messages) == Run(env, 0, old(messages))
      {
        var response := env.complete(i, messages);
        if response.None? {
          assert Turn(env, i, messages) == Finished(Fault, messages);
          return Fault;
        }
        var message := response.value.message;
        ghost var before := messages;
        messages := messages + [message];
        if response.value.finishReason == Stop {
          messages := messages + [AssistantCopy(message.content)];
          assert Turn(env, i, before) == Finished(Answer(message.content), messages);
          return Answer(message.content);
        } else if response.value.finishReason == ToolCalls {
          if message.toolCalls.None? {
            assert Turn(env, i, before) == Finished(Fault, messages);
            return Fault;
          }
          var calls := message.toolCalls.value;
          ghost var pushed := messages;
          for j := 0 to |calls|
            invariant |pushed| <= |messages| && messages[..|pushed|] == pushed
            invariant DispatchAll(env, calls[..j]) == Completed(messages[|pushed|..])
          {
            assert calls[..j + 1][..j] == calls[..j];
            var r := DispatchCall(env, calls[j]);
            if r.Faulted? {
              assert DispatchAll(env, calls[..j + 1]) == Aborted(messages[|pushed|..]);
              AbortedStaysAborted(env, calls, j + 1);
              assert messages == pushed + messages[|pushed|..];
              assert Turn(env, i, before) == Finished(Fault, messages);
              return Fault;
            }
            ghost var prev := messages;
            messages := messages + [r.msg];
            assert messages[|pushed|..] == prev[|pushed|..] + [r.msg];
          }
          assert calls[..|calls|] == calls;
          assert messages == pushed + messages[|pushed|..];
          assert Turn(env, i, before) == Continue(messages);
        } else {
          assert Turn(env, i, before) == Continue(messages);
        }
      }
      return Exhausted;
    }
  }
}
