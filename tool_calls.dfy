/**
 * The pure decisions the stage takes for one tool call: whether the call is
 * dispatched at all, which handler runs, and which `tool-result` part is
 * built from the call and the handler's outcome.
 */
module ToolCalls {
  import opened StreamParts

  /** Outcome of the Zod schema's `safeParse`; `issues` is the serialised issue list. */
  datatype Validation = Accepted | Rejected(issues: string)

  /** A tool's `parameters`: a Zod schema is checked; anything else (a plain JSON schema) is not. */
  datatype Parameters = ZodSchema(safeParse: Value -> Validation) | PlainSchema

  /** A tool definition: whether it has `execute` and `experimental_onSchemaValidationError`. */
  datatype Tool = Tool(hasExecute: bool, parameters: Parameters, hasOnSchemaValidationError: bool)

  /** Outcome of the hardened JSON parser on the argument text. */
  datatype ParseResult = Parsed(value: Value) | ParseFailed(message: string)

  /** How an invoked handler settles: it returns a value (possibly `undefined`) or throws. */
  datatype Outcome = Returned(value: Value) | Threw(error: string)

  /** The handler chosen for a call once its arguments are parsed. */
  datatype Handler =
    | Execute
    | OnSchemaValidationError
    | ValidationThrower(issues: string)  // the stand-in that throws when no custom handler exists

  /** What an outstanding execution remembers of its call. */
  datatype Pending = Pending(callType: CallType, callId: string, toolName: string, handler: Handler)

  const ParsingFailedPrefix: string := "Function parameter parsing failed. "
  const ValidationFailedPrefix: string := "Function parameter validation failed. "
  const ErrorPrefix: string := "Error: "
  const NoResult: string := "<no result>"

  /** `tools?.[name]`: nothing when there are no tools or no tool of that name. */
  function Lookup(tools: Option<map<string, Tool>>, name: string): (r: Option<Tool>)
    ensures r.Some? <==> tools.Some? && name in tools.value
    ensures r.Some? ==> r.value == tools.value[name]
  {
    match tools
    case None => None
    case Some(m) => if name in m then Some(m[name]) else None
  }

  /** A chunk goes past forwarding only when it is a tool call to a known tool with `execute`. */
  predicate Dispatches(tools: Option<map<string, Tool>>, chunk: Part)
    ensures Dispatches(tools, chunk) <==>
              chunk.ToolCall? && tools.Some? && chunk.toolName in tools.value && tools.value[chunk.toolName].hasExecute
  {
    chunk.ToolCall? && Lookup(tools, chunk.toolName).Some? && Lookup(tools, chunk.toolName).value.hasExecute
  }

  /** The tool declares a Zod schema and that schema rejects the arguments. */
  predicate Rejects(tool: Tool, args: Value)
  {
    tool.parameters.ZodSchema? && tool.parameters.safeParse(args).Rejected?
  }

  /** The effective handler for a call whose arguments parsed to `args`. */
  function ResolveHandler(tool: Tool, args: Value): (h: Handler)
    ensures h.Execute? <==> !Rejects(tool, args)
    ensures h.OnSchemaValidationError? <==> Rejects(tool, args) && tool.hasOnSchemaValidationError
    ensures h.ValidationThrower? <==> Rejects(tool, args) && !tool.hasOnSchemaValidationError
    ensures h.ValidationThrower? ==> h.issues == tool.parameters.safeParse(args).issues
  {
    if tool.parameters.ZodSchema? then
      match tool.parameters.safeParse(args)
      case Accepted => Execute
      case Rejected(issues) =>
        if tool.hasOnSchemaValidationError then OnSchemaValidationError else ValidationThrower(issues)
    else
      Execute
  }

  /** What the stand-in handler does when invoked: it throws the validation message. */
  function ThrowerOutcome(issues: string): (o: Outcome)
    ensures o.Threw? && |o.error| == |ValidationFailedPrefix| + |issues|
    ensures o.error[..|ValidationFailedPrefix|] == ValidationFailedPrefix
    ensures o.error[|ValidationFailedPrefix|..] == issues
  {
    Threw(ValidationFailedPrefix + issues)
  }

  /** `result` answers the tool call `call`: same id, call kind and tool name. */
  predicate Answers(result: Part, call: Part)
  {
    && result.ToolResult? && call.ToolCall?
    && result.toolCallType == call.toolCallType
    && result.toolCallId == call.toolCallId
    && result.toolName == call.toolName
  }

  /** `p` is the outstanding execution of the tool call `call`. */
  predicate Serves(p: Pending, call: Part)
  {
    && call.ToolCall?
    && p.callType == call.toolCallType
    && p.callId == call.toolCallId
    && p.toolName == call.toolName
  }

  /** `result` answers the outstanding execution `p`. */
  predicate AnswersPending(result: Part, p: Pending)
  {
    && result.ToolResult?
    && result.toolCallType == p.callType
    && result.toolCallId == p.callId
    && result.toolName == p.toolName
  }

  /** The execution record started for a dispatched call with handler `h`. */
  function PendingFor(call: Part, h: Handler): (p: Pending)
    requires call.ToolCall?
    ensures Serves(p, call) && p.handler == h
  {
    Pending(call.toolCallType, call.toolCallId, call.toolName, h)
  }

  /** The error result emitted at once when the argument text does not parse. */
  function ParseFailureResult(call: Part, message: string): (r: Part)
    requires call.ToolCall?
    ensures Answers(r, call)
    ensures r.isError == Some(true)
    ensures r.result.Str? && |r.result.text| == |ParsingFailedPrefix| + |message|
    ensures r.result.text[..|ParsingFailedPrefix|] == ParsingFailedPrefix
    ensures r.result.text[|ParsingFailedPrefix|..] == message
  {
    ToolResult(call.toolCallType, call.toolCallId, call.toolName,
               Str(ParsingFailedPrefix + message), Some(true))
  }

  /** The result emitted when the execution `p` settles with outcome `o`. */
  function SettledResult(p: Pending, o: Outcome): (r: Part)
    ensures AnswersPending(r, p)
    ensures r.result != Undefined
    ensures r.isError == Some(true) <==> o.Threw?
    ensures o.Returned? ==> r.isError == None
    ensures o.Returned? && o.value != Undefined ==> r.result == o.value
    ensures o.Returned? && o.value == Undefined ==> r.result == Str(NoResult)
    ensures o.Threw? ==> r.result == Str(ErrorPrefix + o.error)
  {
    match o
    case Returned(v) =>
      ToolResult(p.callType, p.callId, p.toolName, if v == Undefined then Str(NoResult) else v, None)
    case Threw(e) =>
      ToolResult(p.callType, p.callId, p.toolName, Str(ErrorPrefix + e), Some(true))
  }
}
