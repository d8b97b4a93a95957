/**
 * The stage as the object the source builds: the tool map and parser are fixed at
 * creation, the controller's queue and the `toolCallExecutions` map are updated in
 * place. Each method is proved to perform exactly one transition of `Stage`, so
 * every property proved about runs in `Runs` holds of the object.
 */
module TransformStage {
  import opened StreamParts
  import opened ToolCalls
  import Stage

  class ToolResultStream {
    const env: Stage.Env
    var phase: Stage.Phase
    /** The controller's queue: what the consumer reads. */
    var queue: seq<Part>
    /** Where each queued part came from. */
    ghost var log: seq<Stage.Emission>
    var toolCallExecutions: map<string, nat>
    /** The execution closures that have not finished yet. */
    var running: map<nat, Pending>
    var nextTask: nat
    /** The executions `flush` waits for. */
    var awaited: set<nat>

    ghost predicate Valid()
      reads this
    {
      queue == Stage.Parts(log)
    }

    ghost function Model(): Stage.State
      reads this
    {
      Stage.State(phase, log, toolCallExecutions, running, nextTask, awaited)
    }

    constructor (tools: Option<map<string, Tool>>, parse: string -> ParseResult)
      ensures Valid() && env == Stage.Env(tools, parse)
      ensures Model() == Stage.Initial && queue == []
    {
      env := Stage.Env(tools, parse);
      phase := Stage.Open;
      queue := [];
      log := [];
      toolCallExecutions := map[];
      running := map[];
      nextTask := 0;
      awaited := {};
    }

    /** `controller.enqueue`. */
    method Enqueue(e: Stage.Emission)
      requires Valid()
      modifies this
      ensures Valid() && queue == old(queue) + [e.part] && log == old(log) + [e]
      ensures phase == old(phase) && toolCallExecutions == old(toolCallExecutions)
      ensures running == old(running) && nextTask == old(nextTask) && awaited == old(awaited)
    {
      Stage.AppendOne(log, e);
      queue := queue + [e.part];
      log := log + [e];
    }

    /** One execution's handler settles with `outcome`. */
    method Settle(task: nat, outcome: Outcome)
      requires Valid() && task in running
      modifies this
      ensures Valid() && Model() == Stage.Settle(old(Model()), task, outcome)
      ensures queue == (if old(phase) == Stage.Closed then old(queue)
                        else old(queue) + [SettledResult(old(running)[task], outcome)])
    {
      var p := running[task];
      if phase != Stage.Closed {
        Enqueue(Stage.Produced(SettledResult(p, outcome)));
      }
      toolCallExecutions := toolCallExecutions - {p.callId};
      running := running - {task};
    }

    /**
     * A dispatched call whose arguments parsed: its closure runs up to its first `await`
     * (settling at once for the validation thrower), then `Map.set` stores its task.
     */
    method Start(chunk: Part, tool: Tool, args: Value, ghost s0: Stage.State)
      requires Valid() && s0.phase == Stage.Open && Model() == s0.(output := s0.output + [Stage.Forwarded(chunk)])
      requires Dispatches(env.tools, chunk) && tool == Lookup(env.tools, chunk.toolName).value
      requires env.parse(chunk.args) == Parsed(args)
      modifies this
      ensures Valid() && Model() == Stage.Transform(env, s0, chunk)
      ensures queue[..|old(queue)|] == old(queue)
    {
      var task := nextTask;
      var handler := ResolveHandler(tool, args);
      running := running[task := PendingFor(chunk, handler)];
      nextTask := nextTask + 1;
      if handler.ValidationThrower? {
        Settle(task, ThrowerOutcome(handler.issues));
      }
      ghost var ran := Model();
      toolCallExecutions := toolCallExecutions[chunk.toolCallId := task];
      Stage.TransformStarts(env, s0, chunk, args, handler, ran);
    }

    /** `transform(chunk, controller)`. */
    method Transform(chunk: Part)
      requires Valid() && phase == Stage.Open
      modifies this
      ensures Valid() && Model() == Stage.Transform(env, old(Model()), chunk)
      ensures |queue| > |old(queue)| && queue[..|old(queue)|] == old(queue) && queue[|old(queue)|] == chunk
    {
      ghost var s0 := Model();
      Enqueue(Stage.Forwarded(chunk));
      if !chunk.ToolCall? {
        return;
      }
      var tool := Lookup(env.tools, chunk.toolName);
      if tool.None? || !tool.value.hasExecute {
        return;
      }
      match env.parse(chunk.args)
      case ParseFailed(message) =>
        Enqueue(Stage.Produced(ParseFailureResult(chunk, message)));
      case Parsed(args) =>
        Start(chunk, tool.value, args, s0);
    }

    /** `flush()` is called: it waits for the executions the map holds now. */
    method Flush()
      requires Valid() && phase == Stage.Open
      modifies this
      ensures Valid() && Model() == Stage.Flush(old(Model()))
    {
      phase := Stage.Draining;
      awaited := toolCallExecutions.Values;
    }

    /** The wait in `flush()` ends, and the stream closes, once every awaited execution has settled. */
    method Complete() returns (closed: bool)
      requires Valid() && phase == Stage.Draining
      modifies this
      ensures Valid() && Model() == Stage.Complete(old(Model()))
      ensures closed <==> awaited !! running.Keys
    {
      closed := awaited !! running.Keys;
      if closed {
        phase := Stage.Closed;
      }
    }
  }
}
