/** The tool registry (`availableFunctions`) and the dispatch of one requested tool call. */
module Dispatch {
  import opened Wrappers
  import opened Messages

  /** The world outside the request handler, as parameters:
      - `complete(i, messages)` is the completion provider's answer on loop iteration `i`
        (`None` when the call throws or returns no choice);
      - `parse` is `JSON.parse` (`None` when it throws);
      - `forecast(location)` is what `getCurrentWeather` returns for the `location` argument
        (a serialized forecast or a serialized error; it never throws);
      - `locate(ip)` is what `getLocation` returns for the caller's address (`None` when
        the lookup fails and the function falls through to `undefined`);
      - `userIP` is the `CF-Connecting-IP` request header (`None` when absent). */
  datatype Env = Env(
    complete: (nat, seq<Message>) -> Option<Completion>,
    parse: string -> Option<Json>,
    forecast: Option<Json> -> string,
    locate: Option<string> -> Option<string>,
    userIP: Option<string>)

  const WEATHER_TOOL := "getCurrentWeather"
  const LOCATION_TOOL := "getLocation"

  /** The names that `availableFunctions` (and the `tools` schema list) registers. */
  const ToolNames: set<string> := {WEATHER_TOOL, LOCATION_TOOL}

  datatype Handler = CurrentWeather | Location

  /** `availableFunctions[functionName]`; `None` is the `undefined` of a missing key. */
  function Lookup(name: string): (h: Option<Handler>)
    ensures h.Some? <==> name in ToolNames
    ensures h == Some(CurrentWeather) <==> name == WEATHER_TOOL
    ensures h == Some(Location) <==> name == LOCATION_TOOL
  {
    if name == WEATHER_TOOL then Some(CurrentWeather)
    else if name == LOCATION_TOOL then Some(Location)
    else None
  }

  /** What awaiting a handler yields: a value for the tool message's `content`
      (`None` is `undefined`), or a thrown exception. */
  datatype HandlerOutcome = Returned(content: Option<string>) | Threw

  /** The `location` property read by the destructuring `{ location }` of the parsed
      arguments; any value other than an object with that key yields `undefined`. */
  function LocationArgument(args: Json): Option<Json> {
    if args.JObject? && "location" in args.fields then Some(args.fields["location"]) else None
  }

  /** Calls a registered handler. `getCurrentWeather` destructures its argument, which
      throws on JSON `null`; the `getLocation` binding ignores its arguments and looks up the
      caller's address. */
  function Invoke(env: Env, h: Handler, args: Json): HandlerOutcome {
    match h
    case CurrentWeather => if args.JNull? then Threw else Returned(Some(env.forecast(LocationArgument(args))))
    case Location => Returned(env.locate(env.userIP))
  }

  /** The `getLocation` binding never throws and ignores the parsed arguments: every argument
      gives the lookup of the caller's address. */
  lemma LocationIgnoresArguments(env: Env, a: Json, b: Json)
    ensures Invoke(env, Location, a) == Invoke(env, Location, b)
    ensures Invoke(env, Location, a) == Returned(env.locate(env.userIP))
  {
  }

  /** `getCurrentWeather` throws only where destructuring throws, on `null`, and otherwise
      depends on nothing but the `location` property of its arguments. */
  lemma WeatherReadsOnlyLocation(env: Env, a: Json, b: Json)
    requires LocationArgument(a) == LocationArgument(b)
    ensures Invoke(env, CurrentWeather, a).Threw? <==> a == JNull
    ensures a != JNull && b != JNull ==> Invoke(env, CurrentWeather, a) == Invoke(env, CurrentWeather, b)
  {
  }

  /** The result of dispatching one call: the tool message to push, or an exception that
      aborts the whole request. */
  datatype Dispatched = Delivered(msg: Message) | Faulted

  /** Dispatching one tool call: look the handler up, parse the arguments, await the handler
      and build the tool message. A parse failure, an unregistered name (calling `undefined`)
      and a throwing handler all fault. */
  function DispatchCall(env: Env, call: ToolCall): (r: Dispatched)
    ensures r.Delivered? <==>
      call.name in ToolNames &&
      env.parse(call.arguments).Some? &&
      !(call.name == WEATHER_TOOL && env.parse(call.arguments) == Some(JNull))
    ensures r.Delivered? ==>
      r.msg.role == Tool && r.msg.toolCallId == Some(call.id) && r.msg.name == Some(call.name) &&
      r.msg.toolCalls == None
    ensures r.Delivered? && call.name == LOCATION_TOOL ==>
      r.msg.content == env.locate(env.userIP)
    ensures r.Delivered? && call.name == WEATHER_TOOL ==>
      r.msg.content == Some(env.forecast(LocationArgument(env.parse(call.arguments).value)))
  {
    var handler := Lookup(call.name);
    var args := env.parse(call.arguments);
    if args.None? then Faulted
    else if handler.None? then Faulted
    else match Invoke(env, handler.value, args.value)
      case Threw => Faulted
      case Returned(content) => Delivered(ToolMessage(call.id, call.name, content))
  }

  /** The result of dispatching a batch in order: every tool message was pushed, or a call
      faulted after the messages of the calls before it had been pushed. */
  datatype Batch = Completed(msgs: seq<Message>) | Aborted(msgs: seq<Message>)

  /** The `for...of` over a batch of tool calls, as the tool messages it pushes. */
  function DispatchAll(env: Env, calls: seq<ToolCall>): (r: Batch)
    ensures |r.msgs| <= |calls|
    ensures r.Completed? ==> |r.msgs| == |calls|
    ensures forall k :: 0 <= k < |r.msgs| ==> r.msgs[k].role == Tool
    decreases |calls|
  {
    if calls == [] then Completed([])
    else match DispatchAll(env, calls[..|calls| - 1])
      case Aborted(ms) => Aborted(ms)
      case Completed(ms) =>
        match DispatchCall(env, calls[|calls| - 1])
        case Faulted => Aborted(ms)
        case Delivered(m) => Completed(ms + [m])
  }

  /** Every call delivers its own message, in request order, or the batch stops at the first
      call that faults, with exactly the messages of the calls before it. */
  lemma {:induction false} DispatchAllOutcome(env: Env, calls: seq<ToolCall>)
    ensures var b := DispatchAll(env, calls);
      (b.Completed? <==> forall k :: 0 <= k < |calls| ==> DispatchCall(env, calls[k]).Delivered?) &&
      (b.Completed? ==> |b.msgs| == |calls|) &&
      (b.Aborted? ==> |b.msgs| < |calls| && DispatchCall(env, calls[|b.msgs|]).Faulted?) &&
      (forall k :: 0 <= k < |b.msgs| ==>
        DispatchCall(env, calls[k]).Delivered? && b.msgs[k] == DispatchCall(env, calls[k]).msg)
    decreases |calls|
  {
    if calls != [] {
      var front := calls[..|calls| - 1];
      DispatchAllOutcome(env, front);
      assert forall k :: 0 <= k < |front| ==> calls[k] == front[k];
    }
  }

  /** When call `j` is the first that faults, the batch aborts with the messages of the calls
      before it. */
  lemma {:induction false} DispatchAllStopsAt(env: Env, calls: seq<ToolCall>, j: nat)
    requires j < |calls| && DispatchCall(env, calls[j]).Faulted?
    requires forall k :: 0 <= k < j ==> DispatchCall(env, calls[k]).Delivered?
    ensures var b := DispatchAll(env, calls);
      b.Aborted? && |b.msgs| == j &&
      forall k :: 0 <= k < j ==> b.msgs[k] == DispatchCall(env, calls[k]).msg
    decreases |calls|
  {
    var front := calls[..|calls| - 1];
    DispatchAllOutcome(env, front);
    DispatchAllOutcome(env, calls);
    if j < |front| {
      assert front[j] == calls[j];
      assert forall k :: 0 <= k < j ==> front[k] == calls[k];
      DispatchAllStopsAt(env, front, j);
    } else {
      assert forall k :: 0 <= k < |front| ==> front[k] == calls[k];
      assert DispatchAll(env, front).Completed?;
    }
  }

  /** The tool messages of a completed batch correlate one to one with the calls. */
  lemma BatchCorrelation(env: Env, calls: seq<ToolCall>)
    requires DispatchAll(env, calls).Completed?
    ensures var ms := DispatchAll(env, calls).msgs;
      |ms| == |calls| &&
      forall k :: 0 <= k < |calls| ==>
        ms[k].role == Tool && ms[k].toolCallId == Some(calls[k].id) && ms[k].name == Some(calls[k].name)
  {
    DispatchAllOutcome(env, calls);
  }

  /** Dispatch never consults the completion provider. */
  lemma {:induction false} DispatchAllIgnoresCompletion(env: Env, f: (nat, seq<Message>) -> Option<Completion>, calls: seq<ToolCall>)
    ensures DispatchAll(env.(complete := f), calls) == DispatchAll(env, calls)
    decreases |calls|
  {
    if calls != [] {
      DispatchAllIgnoresCompletion(env, f, calls[..|calls| - 1]);
    }
  }
}
