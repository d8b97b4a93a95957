/**
 * The parts that flow through the tool-result stage: every kind of
 * language-model stream part plus the `annotations`, `data`, `tool-result`
 * and `step-finish` parts added by the runtime (ToolResultStreamPart).
 * Payloads the stage never inspects are kept as opaque values.
 */
module StreamParts {

  datatype Option<+T> = None | Some(value: T)

  /** A JavaScript value carried by a part; only `undefined` is ever told apart by the stage. */
  datatype Value =
    | Undefined
    | Str(text: string)
    | Structured(json: string)  // any other JSON value, kept as its serialised text

  /** The call kind of a tool call; the protocol defines only "function". */
  datatype CallType = Function

  datatype FinishReason = Stop | Length | ContentFilter | ToolCalls | ErrorReason | Other | Unknown

  datatype Usage = Usage(promptTokens: int, completionTokens: int)

  datatype Part =
    | TextDelta(textDelta: string)
    | Reasoning(textDelta: string)
    | ToolCall(toolCallType: CallType, toolCallId: string, toolName: string, args: string)
    | ToolCallDelta(toolCallType: CallType, toolCallId: string, toolName: string, argsTextDelta: string)
    | ToolResult(toolCallType: CallType, toolCallId: string, toolName: string, result: Value, isError: Option<bool>)
    | StepFinish(finishReason: FinishReason, usage: Usage, isContinued: bool)
    | Finish(finishReason: FinishReason, usage: Usage)
    | Error(error: Value)
    | ResponseMetadata(metadata: Value)
    | Annotations(annotations: seq<Value>)
    | Data(data: seq<Value>)
}
