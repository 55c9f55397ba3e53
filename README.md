# GeoBot backend: a Dafny model of the request handler and the forecast reshaping

GeoBot is a request handler that answers a user query through a tool-using chat model. The
handler does four things:

1. It builds the message list: three fixed system directives, then the caller's history, then
   the new user message.
2. It trims that list to 20 messages.
3. It runs an agent loop of at most five model calls. On each call, the model either answers
   (`"stop"`) or requests tool calls (`"tool_calls"`). Requested tools are dispatched by name to
   `getCurrentWeather` or `getLocation`, and each result is pushed onto the list as a `tool`
   message.
4. It replies with the answer and the last three non-system messages. If anything throws, it
   replies with status 500.

The weather tool reshapes the upstream forecast with `processForecast`. That function groups
readings by UTC day and summarises the first three days. It uses `mode` to pick the most
frequent weather condition.

The model has nine modules:

- `Wrappers`: the `Option` type.
- `Numbers`: `Min`.
- `Messages`: messages, tool calls, completions and JSON values.
- `Conversation`: assembly, truncation and the returned history.
- `Dispatch`: the tool registry and dispatching one call or a batch of calls.
- `Agent`: one loop iteration (`Turn`), the whole loop (`Run`), and the class `MessageLog`.
  `MessageLog` holds the mutable `messages` list. Its `Truncate` and `RunAgent` methods are
  proved against `Truncated` and `Run`.
- `Request`: the response to one request (`Serve`) and the method that computes it.
- `Forecast`: `processForecast`.
- `Mode`: `mode`.

The outside world is passed in as parameters, in `Dispatch.Env`:

- the completion provider, as a function of the iteration number and the message list;
- `JSON.parse`, as a partial function;
- the two tools' network lookups;
- the caller's IP header.

Some behaviours of the code are easy to miss; the model follows the code:

- An unknown tool name, unparseable tool arguments, or JSON `null` arguments to
  `getCurrentWeather` abort the whole request with status 500. No error tool message is
  produced.
- Running out of iterations is not a separate outcome. `agent` returns `undefined`, reading
  `answer` from it throws, and the reply is status 500.
- On `"stop"`, the model's message and an assistant copy of its content are both pushed. Only
  the last three non-system messages are returned. A first request that is answered directly
  therefore returns three messages (user, model message, copy). `ServeDirectAnswer`
  proves this.
- Tool calls are dispatched one after another, in request order.

## Model

| member | source | states |
|---|---|---|
| `Conversation.SystemPrefixShape` | src/index.js:23-52 | the fixed prefix is three messages, all with role `system` |
| `Conversation.Assemble` | src/index.js:59-63 | the list is the system prefix, then the caller's history unchanged, then the new user message; its length is 3 + \|history\| + 1 |
| `Conversation.Splice` | src/index.js:68-71 | `splice` clamps its start and its count to the array; the elements before the start are kept, the clamped count of elements after it are removed, and the rest follow in order |
| `Conversation.Truncated` | src/index.js:66-72 | a list of at most 20 is unchanged; a longer list becomes exactly 20, keeps its first 3 entries, and keeps its last 17 |
| `Conversation.TruncatedAssembly` | src/index.js:59-72 | after truncation: length min(20, 4 + \|history\|), the system prefix first, the new user message last, and only the newest part of the caller's history in between |
| `Agent.MessageLog.Truncate` | src/index.js:66-72 | the in-place `splice` leaves `messages` equal to `Truncated` of the old list |
| `Conversation.NonSystem` | src/index.js:127-128 | the filtered list is no longer than the input and has no `system` message |
| `Conversation.NonSystemMembers` | src/index.js:127-128 | a message is kept by the filter iff it is in the list and its role is not `system` |
| `Conversation.LastN` | src/index.js:129 | for n > 0, `slice(-n)` gives the last min(n, \|xs\|) elements, in order; `slice(-0)` gives the whole list |
| `Conversation.ReturnedHistory` | src/index.js:126-129 | the returned history has no `system` message, has length min(3, number of non-system messages), and is the suffix of the non-system messages |
| `Conversation.ReturnedHistoryEnd` | src/index.js:127-129 | up to three non-system messages that end the list end the returned history, in order |
| `Dispatch.Lookup` | src/index.js:80-83 | a name resolves to a handler iff it is `getCurrentWeather` or `getLocation`, each to its own handler |
| `Dispatch.LocationIgnoresArguments` | src/index.js:78-82 | the `getLocation` binding never throws, and any two argument values give the same result: the lookup of the caller's IP |
| `Dispatch.WeatherReadsOnlyLocation` | src/tools.js:1 | `getCurrentWeather` throws iff its arguments are `null` (the destructuring fails); two non-null argument values with the same `location` property give the same result |
| `Dispatch.DispatchCall` | src/index.js:106-115 | a call yields a tool message iff its name is registered, its arguments parse, and the handler does not throw; the message has role `tool`, the call's `id` as `tool_call_id`, the call's name, and the handler's result as content |
| `Dispatch.DispatchAll` | src/index.js:105-116 | the `for...of` pushes at most one message per call, all with role `tool`, and exactly one per call when it completes (per-call contents: `DispatchAllOutcome`) |
| `Dispatch.DispatchAllOutcome` | src/index.js:105-116 | a batch completes iff every call dispatches; it then has one message per call, with message k coming from call k; otherwise it stops at the first call that faults, holding the messages of the calls before it |
| `Dispatch.DispatchAllStopsAt` | src/index.js:105-116 | if call j is the first to fault, the batch aborts with exactly j messages, those of calls 0..j-1 |
| `Dispatch.BatchCorrelation` | src/index.js:110-115 | in a completed batch, tool message k has role `tool` and carries call k's `id` and name |
| `Agent.Turn` | src/index.js:90-117 | an iteration only appends; a failed model call faults without appending; an answer comes only from a `"stop"` reply and equals that reply's content; a finished iteration is never `Exhausted` |
| `Agent.TurnOnStop` | src/index.js:99-103 | on `"stop"` the list grows by exactly two (the model's message, then an assistant copy of its content), and the answer is that content |
| `Agent.TurnOnOtherReason` | src/index.js:99-117 | on any other finish reason, only the model's message is appended and the loop goes on |
| `Agent.TurnOnToolCalls` | src/index.js:104-116 | on `"tool_calls"` whose calls all dispatch, the list grows by 1 + \|calls\|; the model's message comes first, then tool message k for call k, in request order |
| `Agent.TurnOnDispatchFault` | src/index.js:105-116 | when call j cannot be dispatched, the request faults; the model's message and the tool messages of calls 0..j-1 were already appended, and nothing is appended for call j |
| `Agent.Run` | src/index.js:85-120 | the loop only appends to the list it starts with, and any outcome other than exhaustion needs an iteration below five (answers and faults: `RunAnswer`, `RunExhausts`) |
| `Agent.RunExtends` | src/index.js:85-120 | the loop never changes the messages it started with |
| `Agent.RunAnswer` | src/index.js:89-103 | an answer comes from a `"stop"` reply on one of the five iterations; that reply and the assistant copy of its content are the last two messages |
| `Agent.RunExhausts` | src/index.js:87-119 | if the model never says `"stop"` and nothing faults, the loop ends `Exhausted` after five calls |
| `Agent.RunUsesFirstCalls` | src/index.js:87-94 | the model is consulted only on iterations 0..4; replies it would give later change nothing |
| `Agent.MessageLog.RunAgent` | src/index.js:85-120 | the loop with its nested dispatch loop returns `Run`'s outcome and leaves `messages` equal to `Run`'s final list |
| `Request.HandleRequest` | src/index.js:56-138 | the handler's response equals `Serve`: an answer gives status 200 with the answer and the returned history; exhaustion and every fault give status 500 |
| `Request.Serve` | src/index.js:122-138 | a status-200 response returns at most three messages and none of them is `system` (see also `ServeAnswer`, `ServeNeverStops`) |
| `Request.ServeNeverStops` | src/index.js:122-138 | a model that never says `"stop"` (and whose tool calls all dispatch) always gets the status-500 response, never an answer |
| `Request.ServeAnswer` | src/index.js:122-129 | a successful response returns 2 or 3 messages, none of them `system`, and the last is the assistant copy of the answer |
| `Request.ServeDirectAnswer` | src/index.js:99-129 | a first request answered directly returns exactly the user message, the model's message and its copy |
| `Forecast.Day` | src/tools.js:26 | the date key of `dt` is the UTC day that contains it: day d covers the seconds 86400·d up to, not including, 86400·(d + 1) |
| `Forecast.GroupByDay` | src/tools.js:22-41 | the `forEach` fails iff some item has no `weather` entry; otherwise the keys are `DaysInOrder` of the list and each day's bucket is `BucketOf` the list for that day |
| `Forecast.OnDayItems` | src/tools.js:25-40 | every item in a day's bucket comes from the input and falls on that UTC day |
| `Forecast.DaysInOrderMembers` | src/tools.js:25-35 | each day has one bucket; a day has a bucket iff some item falls on it; every item's day has a bucket |
| `Forecast.DaysInOrderPrefix` | src/tools.js:27-45 | buckets are in order of first appearance: the days seen in any prefix of the input are the first days of the order |
| `Forecast.SameBucketIffSameDay` | src/tools.js:25-35 | two items share a bucket iff their `dt` falls on the same UTC day |
| `Forecast.BucketsPartition` | src/tools.js:25-41 | every item lands in exactly one bucket: the bucket sizes add up to the number of items |
| `Forecast.BucketShape` | src/tools.js:27-40 | a bucket's temps, conditions, humidity and wind speeds have equal, non-zero length, one entry per item of that day |
| `Forecast.MaxOf` | src/tools.js:49 | `Math.max` of a non-empty list is one of its elements and at least every element |
| `Forecast.MinOf` | src/tools.js:50 | `Math.min` of a non-empty list is one of its elements and at most every element |
| `Forecast.Sum` | src/tools.js:51 | the `reduce` sum of non-negative readings is non-negative and of non-positive readings non-positive (bounds: `SumBetween`) |
| `Forecast.RoundDiv` | src/tools.js:51 | `Math.round(p / q)` is the integer nearest to p / q, halves rounded up: q·(2r − 1) ≤ 2p < q·(2r + 1) |
| `Forecast.RoundDivBetween` | src/tools.js:51 | `Math.round` of a quotient that lies between two integers stays between them |
| `Forecast.SumBetween` | src/tools.js:51 | the `reduce` sum lies between \|s\| times any lower bound and \|s\| times any upper bound of the elements |
| `Forecast.MeanBetween` | src/tools.js:49-51 | low ≤ rounded average ≤ high |
| `Forecast.Summarise` | src/tools.js:46-56 | a day's summary has its day, the maximum and minimum temperature, the rounded average, a most frequent condition, and the rounded humidity and wind averages; low ≤ average ≤ high |
| `Forecast.ProcessForecast` | src/tools.js:21-63 | fails iff an item has no `weather` entry; otherwise `location` and `country` come from `city`, and the forecast has min(3, number of days) entries, entry k summarising the k-th day in order of first appearance |
| `Mode.Count` | src/tools.js:68-69 | `filter(v => v === x).length` is the number of occurrences of `x` |
| `Mode.SortByCount` | src/tools.js:67-69 | the in-place sort permutes the array into non-decreasing order of occurrence count |
| `Mode.LastIsMostFrequent` | src/tools.js:66-70 | the last element of a permutation sorted by count is an element of the original with maximal count |
| `Mode.Mode` | src/tools.js:66-71 | `mode` sorts its argument in place by count and pops the last element, which is an element of maximal count; `None` iff the array is empty |
| `Mode.MostFrequent` | src/tools.js:53 | applied to a day's conditions, `mode` returns a condition that occurs at least as often as any other |

## Left out

- HTTP transport: the OPTIONS/CORS reply, the 405 rejection, `request.json()`, serialisation of
  the response, and the `error` message text of the 500 reply. Only the outcome is modelled: an
  answer with the returned history, or status 500.
- The OpenAI client call. It is the oracle `Env.complete`, keyed by iteration number and message
  list. A `None` reply covers a thrown call and a response without choices. The model name and
  the `tools` schema sent with the call are not modelled.
- The `tools` schema literal: only its two names (`ToolNames`) are kept.
- The network parts of `getCurrentWeather` and `getLocation`, including `getCurrentWeather`'s
  catch-all error string. They are the oracles `Env.forecast` and `Env.locate`.
  `ProcessForecast` is modelled on its own and is not linked to `Env.forecast`.
- `JSON.parse` is the partial function `Env.parse`. `JSON.stringify` is not modelled.
- Property lookups that reach `Object.prototype`: in the source, a tool name such as
  `toString` resolves to an inherited function. The model treats every name other than the two
  tools as unregistered.
- Malformed shapes that only a non-conforming peer could send are not modelled: roles outside
  the four, tool calls without a `function` field, a `history` that is not an array. `query` is
  modelled as an optional string.
- The directive texts of the three system messages are abbreviated. Only their role, number and
  order are modelled.
- Calendar formatting: the date key is the UTC day number `dt / 86400`. The `RangeError` of
  out-of-range timestamps is not modelled.
- Floating point. Readings are integers. `Math.round(p / q)` is modelled exactly, as
  floor((2p + q) / 2q). `parseFloat(x.toFixed(1))` is modelled as the average in tenths, rounded
  half up. That matches the source only when an average ending in exactly .x5 is a binary
  fraction (for instance, with at most 8 readings a day). Otherwise the double nearest to the
  average can lie just below the half, and `toFixed(1)` then rounds down. For example, 20
  readings summing to 3 give 0.1 in the source and 2 tenths in the model. `Math.round` of a
  maximum or minimum is the identity on integers.
- Logging (`console.error`, `console.log`) and the IP header lookup. The IP is `Env.userIP`.
- Mode.Mode: does not state which of several equally frequent conditions is returned. The
  source relies on the engine's stable sort; the model's insertion sort passes only strictly
  more frequent elements, but stability is not proved.
- Mode.Mode: a Dafny array cannot shrink. What remains in the array after `pop` is `a[..a.Length - 1]`.
