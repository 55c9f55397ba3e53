/** One POST request end to end: assemble, truncate, run the agent, and build the response. */
module Request {
  import opened Wrappers
  import opened Messages
  import opened Conversation
  import opened Dispatch
  import opened Agent

  /** The response: status 200 with the answer and the returned history, or the status-500
      error response of the catch-all handler. */
  datatype Response = Ok(answer: Option<string>, history: seq<Message>) | ServerError

  /** The response to a request with caller history `history` and query `query`. Both an
      exhausted loop (reading `answer` of `undefined` throws) and a fault end in status 500. */
  function Serve(history: seq<Message>, query: Option<string>, env: Env): (r: Response)
    ensures r.Ok? ==> |r.history| <= |SystemPrefix|
    ensures r.Ok? ==> forall k :: 0 <= k < |r.history| ==> r.history[k].role != System
  {
    var (o, ms) := Run(env, 0, Truncated(Assemble(history, query)));
    if o.Answer? then Ok(o.text, ReturnedHistory(ms)) else ServerError
  }

  /** The request handler's body inside its `try`. */
  method HandleRequest(history: seq<Message>, query: Option<string>, env: Env) returns (resp: Response)
    ensures resp == Serve(history, query, env)
  {
    var log := new MessageLog(Assemble(history, query));
    log.Truncate();
    var outcome := log.RunAgent(env);
    if outcome.Answer? {
      resp := Ok(outcome.text, ReturnedHistory(log.messages));
    } else {
      resp := ServerError;
    }
  }

  /** A model that never finishes with `"stop"` (and whose tool calls all dispatch) yields the
      status-500 response after `MAX_ITERATIONS` calls, never an answer. */
  lemma ServeNeverStops(history: seq<Message>, query: Option<string>, env: Env)
    requires forall k, ms :: 0 <= k < MAX_ITERATIONS ==> KeepsGoing(env, env.complete(k, ms))
    ensures Serve(history, query, env) == ServerError
  {
    RunExhausts(env, 0, Truncated(Assemble(history, query)));
  }

  /** A successful response returns at least the new user message and the assistant copy of
      the answer, which comes last; nothing returned is a system message. */
  lemma ServeAnswer(history: seq<Message>, query: Option<string>, env: Env)
    requires Serve(history, query, env).Ok?
    ensures var r := Serve(history, query, env);
      2 <= |r.history| <= |SystemPrefix| &&
      r.history[|r.history| - 1] == AssistantCopy(r.answer) &&
      forall k :: 0 <= k < |r.history| ==> r.history[k].role != System
  {
    var start := Truncated(Assemble(history, query));
    var run := Run(env, 0, start);
    assert |start| + 2 <= |run.1| && run.1[..|start|] == start &&
      run.1[|run.1| - 1] == AssistantCopy(run.0.text) by {
      RunAnswer(env, 0, start);
      RunExtends(env, 0, start);
      RunAnswerAfterStart(env, start);
    }
    assert 1 <= |start| && start[|start| - 1] == UserMessage(query) by {
      TruncatedAssembly(history, query);
    }
    AnsweredHistory(start, run.1, UserMessage(query), AssistantCopy(run.0.text));
  }

  /** Returned history of a final list that extends `start` (ending with `user`) and ends
      with `copy`. */
  lemma AnsweredHistory(start: seq<Message>, ms: seq<Message>, user: Message, copy: Message)
    requires 1 <= |start| && |start| + 2 <= |ms| && ms[..|start|] == start
    requires start[|start| - 1] == user && user.role != System
    requires ms[|ms| - 1] == copy && copy.role != System
    ensures var h := ReturnedHistory(ms); 2 <= |h| && h[|h| - 1] == copy
  {
    var front, back := ms[..|start|], ms[|start|..];
    assert ms == front + back;
    NonSystemAppend(front, back);
    EndsNonSystem(front, user);
    EndsNonSystem(back, copy);
  }

  /** A list ending with a non-system message filters to a list ending with it. */
  lemma EndsNonSystem(ms: seq<Message>, last: Message)
    requires ms != [] && ms[|ms| - 1] == last && last.role != System
    ensures var f := NonSystem(ms); f != [] && f[|f| - 1] == last
  {
  }

  /** An answer is produced after at least the model's message and the copy were pushed. */
  lemma RunAnswerAfterStart(env: Env, start: seq<Message>)
    requires Run(env, 0, start).0.Answer?
    ensures |start| + 2 <= |Run(env, 0, start).1|
  {
    RunAnswerGrows(env, 0, start);
  }

  lemma {:induction false} RunAnswerGrows(env: Env, i: nat, msgs: seq<Message>)
    requires Run(env, i, msgs).0.Answer?
    ensures |msgs| + 2 <= |Run(env, i, msgs).1|
    decreases MAX_ITERATIONS - i
  {
    var t := Turn(env, i, msgs);
    if t.Continue? {
      RunAnswerGrows(env, i + 1, t.msgs);
      RunExtends(env, i + 1, t.msgs);
    } else {
      TurnOnStop(env, i, msgs, env.complete(i, msgs).value);
    }
  }

  /** A first request answered directly: the returned history is the user message, the
      model's message and its assistant copy. */
  lemma ServeDirectAnswer(query: Option<string>, env: Env, m: Message)
    requires env.complete(0, Assemble([], query)) == Some(Completion(Stop, m))
    requires m.role != System
    ensures Serve([], query, env) == Ok(m.content, [UserMessage(query), m, AssistantCopy(m.content)])
  {
    var start := Assemble([], query);
    assert Truncated(start) == start;
    TurnOnStop(env, 0, start, Completion(Stop, m));
    var ms := start + [m, AssistantCopy(m.content)];
    assert Run(env, 0, start) == (Answer(m.content), ms);
    var tail := [UserMessage(query), m, AssistantCopy(m.content)];
    assert ms == SystemPrefix + tail;
    NonSystemAfterPrefix(tail);
  }
}
