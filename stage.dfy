/**
 * The stage as a state machine over values. Each transition is one thing
 * the JavaScript runtime does with the stage:
 *   - Transform: the stream hands the stage one chunk (`transform`);
 *   - Settle:    one outstanding execution's handler settles (the code after its `await`);
 *   - Flush:     the input ends and `flush` starts waiting;
 *   - Complete:  `Promise.all` over the awaited executions resolves, and the stream closes.
 * The asynchronous closures are made explicit as the `running` tasks.
 */
module Stage {
  import opened StreamParts
  import opened ToolCalls

  datatype Phase = Open | Draining | Closed

  /** An enqueued part together with where it came from: forwarded input, or produced by the stage. */
  datatype Emission = Forwarded(part: Part) | Produced(part: Part)

  /** What the stage is created with: the tools and the JSON parser it uses on argument text. */
  datatype Env = Env(tools: Option<map<string, Tool>>, parse: string -> ParseResult)

  /**
   * output:     the controller's queue, in order, with each part's provenance;
   * executions: the `toolCallExecutions` map, from call id to the task (promise) stored for it;
   * running:    the tasks whose closure has not yet finished, by task number;
   * nextTask:   the number the next task gets;
   * awaited:    the tasks `flush` waits for (the map's values when `flush` was called).
   */
  datatype State = State(
    phase: Phase,
    output: seq<Emission>,
    executions: map<string, nat>,
    running: map<nat, Pending>,
    nextTask: nat,
    awaited: set<nat>)

  const Initial: State := State(Open, [], map[], map[], 0, {})

  /** The parts as a consumer of the stream sees them. */
  function Parts(log: seq<Emission>): (r: seq<Part>)
    ensures |r| == |log|
  {
    if log == [] then [] else Parts(log[..|log| - 1]) + [log[|log| - 1].part]
  }

  /** The forwarded parts only, in order. */
  function ForwardedParts(log: seq<Emission>): seq<Part>
  {
    if log == [] then []
    else ForwardedParts(log[..|log| - 1]) + (if log[|log| - 1].Forwarded? then [log[|log| - 1].part] else [])
  }

  /** How many results the stage itself produced for the call id `id`. */
  function CountProduced(log: seq<Emission>, id: string): nat
  {
    if log == [] then 0
    else
      var e := log[|log| - 1];
      CountProduced(log[..|log| - 1], id)
        + (if e.Produced? && e.part.ToolResult? && e.part.toolCallId == id then 1 else 0)
  }

  lemma AppendOne(log: seq<Emission>, e: Emission)
    ensures Parts(log + [e]) == Parts(log) + [e.part]
    ensures ForwardedParts(log + [e]) == ForwardedParts(log) + (if e.Forwarded? then [e.part] else [])
    ensures forall id :: CountProduced(log + [e], id)
                      == CountProduced(log, id) + (if e.Produced? && e.part.ToolResult? && e.part.toolCallId == id then 1 else 0)
  {
    assert (log + [e])[..|log|] == log;
  }

  /**
   * One execution settles with outcome `o`: its result is enqueued (which throws, and so
   * emits nothing, once the stream is closed), and the `finally` block deletes the
   * execution's call id from the map, whichever task that id now maps to.
   */
  function Settle(s: State, task: nat, o: Outcome): (s': State)
    requires task in s.running
    ensures s'.executions == s.executions - {s.running[task].callId}
    ensures s'.running == s.running - {task}
    ensures s.phase != Closed ==> s'.output == s.output + [Produced(SettledResult(s.running[task], o))]
    ensures s.phase == Closed ==> s'.output == s.output
    ensures s'.phase == s.phase && s'.nextTask == s.nextTask && s'.awaited == s.awaited
  {
    var p := s.running[task];
    s.(output := if s.phase == Closed then s.output else s.output + [Produced(SettledResult(p, o))],
       executions := s.executions - {p.callId},
       running := s.running - {task})
  }

  /**
   * The stage receives one chunk. It is forwarded first. A dispatched tool call then
   * either fails to parse (an error result at once) or starts a task. The task's closure
   * runs synchronously up to its first `await`, so a stand-in validation thrower
   * settles before `Map.set` stores the task under the call id.
   */
  function Transform(env: Env, s: State, chunk: Part): (s': State)
    requires s.phase == Open
    ensures |s'.output| > |s.output| && s'.output[..|s.output|] == s.output
    ensures s'.output[|s.output|] == Forwarded(chunk)
    ensures forall i :: |s.output| < i < |s'.output| ==> s'.output[i].Produced? && Answers(s'.output[i].part, chunk)
    ensures |s'.output| <= |s.output| + 2
    ensures s'.phase == Open && s'.awaited == s.awaited
    ensures !Dispatches(env.tools, chunk) ==> s' == s.(output := s.output + [Forwarded(chunk)])
    ensures Dispatches(env.tools, chunk) && env.parse(chunk.args).ParseFailed? ==>
              && s'.executions == s.executions && s'.running == s.running && s'.nextTask == s.nextTask
              && s'.output == s.output + [Forwarded(chunk), Produced(ParseFailureResult(chunk, env.parse(chunk.args).message))]
    ensures Dispatches(env.tools, chunk) && env.parse(chunk.args).Parsed? ==>
              && chunk.toolCallId in s'.executions && s'.executions[chunk.toolCallId] == s.nextTask
              && s'.executions - {chunk.toolCallId} == s.executions - {chunk.toolCallId}
              && s'.nextTask == s.nextTask + 1
    ensures Dispatches(env.tools, chunk) && env.parse(chunk.args).Parsed? ==>
              var h := ResolveHandler(Lookup(env.tools, chunk.toolName).value, env.parse(chunk.args).value);
              if h.ValidationThrower? then
                && s'.running == s.running - {s.nextTask}
                && s'.output == s.output + [Forwarded(chunk),
                                            Produced(SettledResult(PendingFor(chunk, h), ThrowerOutcome(h.issues)))]
              else
                && s'.running == s.running[s.nextTask := PendingFor(chunk, h)]
                && s'.output == s.output + [Forwarded(chunk)]
  {
    var forwarded := s.(output := s.output + [Forwarded(chunk)]);
    if !Dispatches(env.tools, chunk) then forwarded
    else
      var tool := Lookup(env.tools, chunk.toolName).value;
      match env.parse(chunk.args)
      case ParseFailed(message) =>
        forwarded.(output := forwarded.output + [Produced(ParseFailureResult(chunk, message))])
      case Parsed(args) =>
        var task := s.nextTask;
        var handler := ResolveHandler(tool, args);
        var started := forwarded.(running := s.running[task := PendingFor(chunk, handler)], nextTask := task + 1);
        var ran := if handler.ValidationThrower? then Settle(started, task, ThrowerOutcome(handler.issues)) else started;
        ran.(executions := ran.executions[chunk.toolCallId := task])
  }

  /** The state `Transform` builds for a call whose arguments parse, step by step as the closure runs. */
  lemma TransformStarts(env: Env, s: State, chunk: Part, args: Value, h: Handler, ran: State)
    requires s.phase == Open && Dispatches(env.tools, chunk) && env.parse(chunk.args) == Parsed(args)
    requires h == ResolveHandler(Lookup(env.tools, chunk.toolName).value, args)
    requires var started := s.(output := s.output + [Forwarded(chunk)],
                               running := s.running[s.nextTask := PendingFor(chunk, h)],
                               nextTask := s.nextTask + 1);
             ran == if h.ValidationThrower? then Settle(started, s.nextTask, ThrowerOutcome(h.issues)) else started
    ensures Transform(env, s, chunk) == ran.(executions := ran.executions[chunk.toolCallId := s.nextTask])
  {
  }

  /** The input has ended: `flush` starts waiting for the executions the map holds now. */
  function Flush(s: State): (s': State)
    requires s.phase == Open
    ensures s'.phase == Draining && s'.awaited == s.executions.Values
    ensures s'.output == s.output && s'.executions == s.executions && s'.running == s.running
  {
    s.(phase := Draining, awaited := s.executions.Values)
  }

  /** The stream closes exactly when no awaited execution is still running. */
  function Complete(s: State): (s': State)
    requires s.phase == Draining
    ensures s'.phase == Closed <==> s.awaited !! s.running.Keys
    ensures s'.phase != Closed ==> s' == s
    ensures s'.output == s.output && s'.executions == s.executions && s'.running == s.running
  {
    if s.awaited !! s.running.Keys then s.(phase := Closed) else s
  }

  /**
   * A call whose Zod schema rejects its arguments, on a tool without a custom handler for
   * that case: the stand-in throws at once, so the same `transform` enqueues the error
   * result carrying the issues, and no execution is left running.
   */
  lemma RejectedArgumentsFailAtOnce(env: Env, s: State, chunk: Part, args: Value)
    requires s.phase == Open && Dispatches(env.tools, chunk)
    requires env.parse(chunk.args) == Parsed(args)
    requires Rejects(Lookup(env.tools, chunk.toolName).value, args)
    requires !Lookup(env.tools, chunk.toolName).value.hasOnSchemaValidationError
    ensures Transform(env, s, chunk).output
         == s.output + [Forwarded(chunk),
                        Produced(ToolResult(chunk.toolCallType, chunk.toolCallId, chunk.toolName,
                                            Str(ErrorPrefix + ValidationFailedPrefix
                                                + Lookup(env.tools, chunk.toolName).value.parameters.safeParse(args).issues),
                                            Some(true)))]
    ensures Transform(env, s, chunk).running == s.running - {s.nextTask}
    ensures chunk.toolCallId in Transform(env, s, chunk).executions
    ensures Transform(env, s, chunk).executions[chunk.toolCallId] !in Transform(env, s, chunk).running
  {
    var tool := Lookup(env.tools, chunk.toolName).value;
    var h := ResolveHandler(tool, args);
    assert h == ValidationThrower(tool.parameters.safeParse(args).issues);
    assert ErrorPrefix + (ValidationFailedPrefix + h.issues) == ErrorPrefix + ValidationFailedPrefix + h.issues;
  }
}
