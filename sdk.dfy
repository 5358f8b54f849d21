/** The values the external agent SDK exchanges with this system, as abstract data. The SDK's
    `query()` itself is not modelled: its output is a finite sequence of `Message`s given by
    the caller. */
module Sdk {
  import opened Wrappers

  /** A JSON value, for the SDK's untyped tool input. */
  datatype Json =
    | JNull
    | JBool(b: bool)
    | JInt(i: int)
    | JNumber(r: real)
    | JString(s: string)
    | JArray(items: seq<Json>)
    | JObject(fields: seq<(string, Json)>)

  /** A content block of an assistant message; `OtherBlock` stands for every other block kind
      (thinking, tool results, ...). */
  datatype ContentBlock =
    | TextBlock(text: string)
    | ToolUseBlock(id: string, name: string, input: Json)
    | OtherBlock

  /** A message yielded by `query()`. A result message's attributes may be absent, as
      `getattr` with a default allows; `OtherMessage` stands for every other message kind. */
  datatype Message =
    | AssistantMessage(content: seq<ContentBlock>)
    | ResultMessage(isError: Option<bool>, totalCostUsd: Option<real>, durationMs: Option<int>)
    | OtherMessage
}
