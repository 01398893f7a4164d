/**
 * The parts of a VS Code chat export (GitHub Copilot Chat) that the
 * renderer reads through its TypeScript types. Response items and tool
 * arguments stay JSON values, because the renderer inspects them with `in`
 * and `typeof`.
 */
module VSCodeTypes {
  import opened Js

  /** `ToolCallResult`: its content entries, each an object with a `value`. */
  datatype CallResult = CallResult(content: seq<JObject>)

  /** One call of a tool-call round; `result` is filled in by the renderer. */
  datatype ToolCall = ToolCall(name: string, arguments: Option<string>, id: string, result: Option<CallResult>)

  datatype RoundThinking = RoundThinking(id: string, text: string)

  /** `ToolCallRound`: the model's reply text and the calls it made. */
  datatype Round = Round(response: Prop, toolCalls: seq<ToolCall>, id: string, thinking: Option<RoundThinking>)

  /** `result.metadata`, with the per-round calls and their results by call id. */
  datatype ResultMetadata = ResultMetadata(toolCallRounds: Option<seq<Round>>, toolCallResults: Option<map<string, CallResult>>)

  /** One request: the prompt, its attached variables, the response items
    * and, when present, `result.metadata`. */
  datatype Request = Request(
    requestId: string,
    messageText: string,
    variables: Option<seq<JValue>>,
    response: Option<seq<JObject>>,
    result: Option<ResultMetadata>,
    modelId: Prop)
}
