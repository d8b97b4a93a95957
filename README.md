# Tool-result stream stage

A Dafny model of `toolResultStream`. This is the pass-through stage of the edge runtime that sits
in the language-model event stream. It forwards every part unchanged. For each `tool-call` part
that names a tool with an `execute` function, it parses the argument text, picks a handler
(validating against the tool's Zod schema if there is one), runs the handler asynchronously and
enqueues a `tool-result` part when the handler settles. Its `flush` waits for the executions the
stage has registered before the stream closes.

The asynchronous part is made explicit. An execution whose closure is still waiting on its
handler is an entry of `running`, keyed by a task number. The source's `toolCallExecutions` map is
`executions`: it maps a call id to the task stored for it, standing in for the stored promise. A
run is any interleaving of four steps:

- `Chunk`: `transform` is called with one part;
- `TaskSettles`: a running execution's handler settles, with an outcome supplied by the environment;
- `EndOfInput`: `flush` is called;
- `CompletionCheck`: the `Promise.all` in `flush` resolves if it can, and the stream closes.

Modules:

- `StreamParts` (`parts.dfy`): the part variant and its payloads.
- `ToolCalls` (`tool_calls.dfy`): the pure decisions. These are the tool lookup, the dispatch
  test, handler resolution, and construction of the `tool-result` parts.
- `Stage` (`stage.dfy`): the stage's state and its transitions as functions.
- `Runs` (`runs.dfy`): whole runs and the properties proved about every reachable state.
- `ReusedIds` (`reused_ids.dfy`): a concrete run in which two calls share an id.
- `TransformStage` (`stream.dfy`): the class `ToolResultStream`. Its fields are updated in place.
  Each public step method (`Transform`, `Settle`, `Flush`, `Complete`) is proved to perform
  exactly one `Stage` transition; `Enqueue` and `Start` are the parts `Transform` is built from.

Behaviour of the code that the model keeps, where it differs from a simpler reading:

- The async closure runs synchronously up to its first `await`. The stand-in handler used when the
  schema rejects and there is no `experimental_onSchemaValidationError` throws at once. So its error
  result is enqueued inside the same `transform` call. Its `finally` deletes the call id *before*
  `Map.set` stores the (already settled) promise under that id. After such a call the map
  therefore holds an entry for an execution that has already finished.
- `flush` waits for the promises in the map when it is called (`awaited`), not for the map to
  become empty. The stream closes once none of those executions is still running, even if the map
  still holds entries (for example the settled entries above).
- A result that settles after the stream has closed is not emitted. The enqueue throws, and so
  does the enqueue in the `catch`. The `finally` deletion still runs, and the execution's promise
  then rejects with the second enqueue's error. The model keeps the deletion and the missing
  output; the rejection is left out (see below).
- A repeated call id is not rejected. `Map.set` overwrites the earlier entry, and each execution's
  `finally` deletes by id, even when the id now belongs to a later execution. The exactly-once
  property is therefore proved under the hypothesis that dispatched call ids are distinct.
  `ReusedIds.ReusedCallIdLosesResult` is a run with two calls that share an id. In that run the
  stream closes while one execution is still running, and that execution's result is never
  emitted.

## Model

| member | source | states |
|---|---|---|
| `ToolCalls.Lookup` | packages/react/src/runtimes/edge/streams/toolResultStream.ts:58 | a tool is found exactly when a tool map is given and has the name, and it is that entry |
| `ToolCalls.Dispatches` | packages/react/src/runtimes/edge/streams/toolResultStream.ts:55-59 | a chunk starts an execution exactly when it is a tool call whose tool name is an own entry of the given tool map and that tool has `execute` |
| `ToolCalls.ResolveHandler` | packages/react/src/runtimes/edge/streams/toolResultStream.ts:83-97 | the handler is `execute` iff no Zod schema rejects the arguments; it is `experimental_onSchemaValidationError` iff the schema rejects and that handler exists; otherwise it is the thrower, carrying the schema's issues |
| `ToolCalls.ThrowerOutcome` | packages/react/src/runtimes/edge/streams/toolResultStream.ts:88-95 | the stand-in handler throws, and what it throws is "Function parameter validation failed. " followed by the schema's issues |
| `ToolCalls.ParseFailureResult` | packages/react/src/runtimes/edge/streams/toolResultStream.ts:64-74 | the parse-failure result answers the call (same id, call kind, tool name), is an error, and its text is "Function parameter parsing failed. " followed by the parser's message |
| `ToolCalls.SettledResult` | packages/react/src/runtimes/edge/streams/toolResultStream.ts:105-120 | the settle result answers the execution; its result is never `undefined`; a returned value is kept, with "<no result>" in place of `undefined`, and `isError` is absent; a throw gives an error with text "Error: " followed by the error |
| `ToolCalls.PendingFor` | packages/react/src/runtimes/edge/streams/toolResultStream.ts:57 | the execution record carries the call's id, call kind and tool name |
| `Stage.Transform` | packages/react/src/runtimes/edge/streams/toolResultStream.ts:49-147 | the chunk is enqueued first and the old output is kept; at most one further part follows, a result answering this chunk; a chunk that is not dispatched changes nothing else; a parse failure enqueues one error result and leaves the map and the running set alone; parsed arguments start exactly one new task, numbered by the counter, which advances by one, and leave the map holding the call id with that task, all other entries unchanged; the task runs the handler `ResolveHandler` picks for the tool and the arguments: `execute` or `experimental_onSchemaValidationError` leave it running with nothing more enqueued, while the validation thrower settles it at once, enqueuing its error result, deleting the call id before `Map.set` stores it again, and leaving no new task running |
| `Stage.Settle` | packages/react/src/runtimes/edge/streams/toolResultStream.ts:99-123 | settling, on either outcome, deletes the execution's call id from the map and nothing else; it ends the execution; it enqueues exactly its result, unless the stream has closed |
| `Stage.Flush` | packages/react/src/runtimes/edge/streams/toolResultStream.ts:149-150 | flushing moves to draining and awaits exactly the executions held in the map at that moment |
| `Stage.Complete` | packages/react/src/runtimes/edge/streams/toolResultStream.ts:149-151 | the stream closes iff no awaited execution is still running; otherwise nothing changes |
| `Stage.RejectedArgumentsFailAtOnce` | packages/react/src/runtimes/edge/streams/toolResultStream.ts:83-120 | when the tool's Zod schema rejects the parsed arguments and the tool has no `experimental_onSchemaValidationError`, that same `transform` enqueues the chunk and then an error result for the call whose text is "Error: Function parameter validation failed. " followed by the issues; no new task is left running, and the task the map now holds for the call id has already finished |
| `Runs.ForwardingIsLossless` | packages/react/src/runtimes/edge/streams/toolResultStream.ts:49-51 | in every run, the forwarded parts of the output are exactly the input chunks, in order |
| `Runs.StepExtendsOutput` | packages/react/src/runtimes/edge/streams/toolResultStream.ts:51 | no step removes or reorders output, and a chunk's forwarded copy comes before anything produced for it |
| `Runs.StepPhase` | packages/react/src/runtimes/edge/streams/toolResultStream.ts:149-151 | phases only move Open, Draining, Closed; leaving Open is the end of input; reaching Closed needs every awaited execution settled |
| `Runs.ResultsAnswerDispatchedCalls` | packages/react/src/runtimes/edge/streams/toolResultStream.ts:65-120 | in every run, each result the stage produced has the id, call kind and tool name of a tool call it dispatched |
| `Runs.ExactlyOneResultPerCall` | packages/react/src/runtimes/edge/streams/toolResultStream.ts:78-151 | with distinct dispatched ids: no id gets two results and an undispatched id gets none; once closed, no execution is running and every dispatched call has exactly one result |
| `ReusedIds.ReusedCallIdLosesResult` | packages/react/src/runtimes/edge/streams/toolResultStream.ts:78-123 | two dispatched calls share an id; the stream reaches Closed with an execution still running, and the run ends with one result for the two calls |
| `TransformStage.ToolResultStream.constructor` | packages/react/src/runtimes/edge/streams/toolResultStream.ts:42-48 | a new stage is open, with an empty queue, an empty map and no executions |
| `TransformStage.ToolResultStream.Transform` | packages/react/src/runtimes/edge/streams/toolResultStream.ts:49-147 | updates the queue and the map in place exactly as `Stage.Transform`; the chunk is appended to the queue unchanged |
| `TransformStage.ToolResultStream.Start` | packages/react/src/runtimes/edge/streams/toolResultStream.ts:78-124 | for a dispatched call whose arguments parsed, starting the execution, settling it at once if the handler is the validation thrower, and storing its task under the call id together complete exactly the `Stage.Transform` step |
| `TransformStage.ToolResultStream.Settle` | packages/react/src/runtimes/edge/streams/toolResultStream.ts:99-123 | updates the queue and the map in place exactly as `Stage.Settle`; the queue gains the settle result unless the stream has closed |
| `TransformStage.ToolResultStream.Flush` | packages/react/src/runtimes/edge/streams/toolResultStream.ts:149-150 | performs `Stage.Flush` in place |
| `TransformStage.ToolResultStream.Complete` | packages/react/src/runtimes/edge/streams/toolResultStream.ts:149-151 | performs `Stage.Complete` in place and reports whether the stream closed, which happens iff no awaited execution is running |

## Left out

- Promise scheduling and the `TransformStream` controller. These are replaced by the four explicit
  steps of a run and by the output sequence. Any interleaving is allowed; timing is not modelled.
- The JSON parser `secure-json-parse`. It is a function parameter of the stage (`Env.parse`) that
  returns a parsed value or a failure message. Its prototype-pollution hardening is not modelled.
- Zod's `safeParse`. It is a function from the parsed arguments to accepted or rejected-with-issues.
- The tool handlers. Their outcome, a returned value (possibly `undefined`) or a thrown error, is
  supplied when an execution settles.
- The `abortSignal` and the `{ toolCallId, abortSignal }` context. They are only passed to the
  handlers, which are not modelled.
- A user `execute` or `experimental_onSchemaValidationError` that throws synchronously. The model
  lets every user handler settle in a later step. In the source, such a throw is handled before
  `Map.set`, the same way as the validation thrower, so the error result comes at once.
- String formatting. `JSON.stringify` of the parse error's message and of the schema issues, and
  the JavaScript string conversion in `"Error: " + error`, are opaque texts. Only the fixed prefixes
  are exact.
- The `never` default branch of the switch (lines 142-145). The closed `Part` datatype has no other
  kinds, so that branch cannot be reached.
- The second `if (!tool.execute) return;` at line 81. Line 59 already ensures it.
- The payload fields of the parts the stage only forwards. They are kept as opaque values.
- An `isError` that is absent. It is `None`.
- Keys inherited through the object prototype in `tools?.[toolName]`. `Lookup` sees only the map's
  own entries; an inherited entry has no `execute`, so it is not dispatched either way.
- Cancellation or errors of the surrounding streams (a consumer cancelling, the upstream erroring).
  They are not modelled.
- `ToolCalls.Validation`: a `safeParse` that throws is not modelled. Line 86 runs before the `try`
  at line 99. Such a throw rejects the execution's promise: no result is enqueued, the `finally`
  deletion does not run, and the `Promise.all` at line 150 rejects, so the stream errors instead of
  closing.
- `ToolCalls.Outcome`: a thrown value whose conversion in `"Error: " + error` itself throws is not
  modelled. That happens for a Symbol or an object without a usable `toString`. The `catch` then
  throws, no result is enqueued, and `flush` rejects if it awaits that execution.
- `Runs.ExactlyOneResultPerCall`: holds only in runs where neither of the two throws above
  happens. Every outcome the model allows is a returned value or a throw that converts to text.
- `Stage.Settle`: the rejected promise of an execution that settles after the stream has closed is
  not modelled. Its two enqueues throw, the `finally` deletion runs, and the closure's promise
  rejects with that error. No one holds that promise: it is not in the map any more and not among
  those `flush` awaited. So the rejection goes unhandled, which by Node's default ends the process.
  The model keeps only the deletion and the missing output. Under distinct call ids no execution is
  running at close (`Runs.ExactlyOneResultPerCall`), so this needs a reused id, as in the run of
  `ReusedIds.ReusedCallIdLosesResult`.
