/** Values exchanged between the request handler, the completion provider and the tools. */
module Messages {
  import opened Wrappers

  /** The role of a chat message. */
  datatype Role = System | User | Assistant | Tool

  /** One tool invocation requested by the model: `{ id, function: { name, arguments } }`.
      `arguments` is serialized JSON text that is parsed before dispatch. */
  datatype ToolCall = ToolCall(id: string, name: string, arguments: string)

  /** A chat message. `content` is absent (undefined/null) on an assistant message that only
      requests tools; `toolCalls` is present only on such a message; `toolCallId` and `name`
      are set on `tool` messages only. */
  datatype Message = Message(
    role: Role,
    content: Option<string>,
    toolCalls: Option<seq<ToolCall>>,
    toolCallId: Option<string>,
    name: Option<string>)

  /** Why the completion provider stopped: `"stop"`, `"tool_calls"`, or anything else
      (`"length"`, `"content_filter"`, ...). */
  datatype FinishReason = Stop | ToolCalls | OtherReason(reason: string)

  /** The first choice of a completion response: its finish reason and its message. */
  datatype Completion = Completion(finishReason: FinishReason, message: Message)

  /** Parsed JSON values, as produced by `JSON.parse`. */
  datatype Json =
    | JNull
    | JBool(b: bool)
    | JNumber(n: int)
    | JString(s: string)
    | JArray(items: seq<Json>)
    | JObject(fields: map<string, Json>)

  /** `{ role: "user", content: query }` */
  function UserMessage(query: Option<string>): Message {
    Message(User, query, None, None, None)
  }

  /** `{ role: "assistant", content }`, the copy pushed after a final answer. */
  function AssistantCopy(content: Option<string>): Message {
    Message(Assistant, content, None, None, None)
  }

  /** `{ tool_call_id, role: "tool", name, content }` */
  function ToolMessage(id: string, name: string, content: Option<string>): Message {
    Message(Tool, content, None, Some(id), Some(name))
  }
}
