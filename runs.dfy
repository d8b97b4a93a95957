/**
 * Whole runs of the stage: any interleaving of incoming chunks, settling
 * executions, the end of input and the completion check. The properties the
 * stage promises are stated here about every state a run can reach.
 */
module Runs {
  import opened StreamParts
  import opened ToolCalls
  import opened Stage

  /** One thing that can happen to the stage. */
  datatype Step =
    | Chunk(chunk: Part)                       // `transform` is called
    | TaskSettles(task: nat, outcome: Outcome)  // a running execution's handler settles
    | EndOfInput                               // `flush` is called
    | CompletionCheck                          // `Promise.all` in `flush` may resolve

  predicate Enabled(s: State, step: Step)
  {
    match step
    case Chunk(_) => s.phase == Open
    case TaskSettles(task, _) => task in s.running
    case EndOfInput => s.phase == Open
    case CompletionCheck => s.phase == Draining
  }

  function Apply(env: Env, s: State, step: Step): State
    requires Enabled(s, step)
  {
    match step
    case Chunk(c) => Transform(env, s, c)
    case TaskSettles(task, o) => Settle(s, task, o)
    case EndOfInput => Flush(s)
    case CompletionCheck => Complete(s)
  }

  /** The state after `steps` from a fresh stage, or None if some step was not enabled. */
  function Run(env: Env, steps: seq<Step>): Option<State>
  {
    if steps == [] then Some(Initial)
    else
      match Run(env, steps[..|steps| - 1])
      case None => None
      case Some(s) =>
        var last := steps[|steps| - 1];
        if Enabled(s, last) then Some(Apply(env, s, last)) else None
  }

  /** The chunks the stage received, in order. */
  function Inputs(steps: seq<Step>): seq<Part>
  {
    if steps == [] then []
    else
      var last := steps[|steps| - 1];
      Inputs(steps[..|steps| - 1]) + (if last.Chunk? then [last.chunk] else [])
  }

  /** The tool calls the stage dispatched (known tool with `execute`), in order. */
  function Dispatched(env: Env, steps: seq<Step>): seq<Part>
  {
    if steps == [] then []
    else
      var last := steps[|steps| - 1];
      Dispatched(env, steps[..|steps| - 1])
        + (if last.Chunk? && Dispatches(env.tools, last.chunk) then [last.chunk] else [])
  }

  /** The call ids of the dispatched tool calls, in order. */
  function DispatchedIds(env: Env, steps: seq<Step>): seq<string>
  {
    if steps == [] then []
    else
      var last := steps[|steps| - 1];
      DispatchedIds(env, steps[..|steps| - 1])
        + (if last.Chunk? && Dispatches(env.tools, last.chunk) then [last.chunk.toolCallId] else [])
  }

  predicate Distinct(ids: seq<string>)
  {
    forall i, j :: 0 <= i < j < |ids| ==> ids[i] != ids[j]
  }

  lemma DistinctSnoc(ids: seq<string>, extra: seq<string>)
    requires |extra| <= 1 && Distinct(ids + extra)
    ensures Distinct(ids)
    ensures forall x :: x in extra ==> x !in ids
  {
    forall i, j | 0 <= i < j < |ids| ensures ids[i] != ids[j] {
      assert ids[i] == (ids + extra)[i] && ids[j] == (ids + extra)[j];
    }
    forall x | x in extra ensures x !in ids {
      forall i | 0 <= i < |ids| ensures ids[i] != x {
        assert (ids + extra)[i] == ids[i] && (ids + extra)[|ids|] == x;
      }
    }
  }

  // ---------------------------------------------------------------------------
  // Forwarding is lossless and in order.

  lemma StepForwards(env: Env, s: State, step: Step)
    requires Enabled(s, step)
    ensures ForwardedParts(Apply(env, s, step).output)
         == ForwardedParts(s.output) + (if step.Chunk? then [step.chunk] else [])
  {
    match step
    case Chunk(c) =>
      var s' := Transform(env, s, c);
      AppendOne(s.output, Forwarded(c));
      if |s'.output| == |s.output| + 2 {
        assert s'.output == s.output + [Forwarded(c)] + [s'.output[|s.output| + 1]];
        AppendOne(s.output + [Forwarded(c)], s'.output[|s.output| + 1]);
      } else {
        assert s'.output == s.output + [Forwarded(c)];
      }
    case TaskSettles(task, o) =>
      if s.phase != Closed {
        AppendOne(s.output, Produced(SettledResult(s.running[task], o)));
      }
    case EndOfInput =>
    case CompletionCheck =>
  }

  /** The output with the stage's own results taken out is exactly the input, in order. */
  lemma {:induction false} ForwardingIsLossless(env: Env, steps: seq<Step>, s: State)
    requires Run(env, steps) == Some(s)
    ensures ForwardedParts(s.output) == Inputs(steps)
  {
    if steps != [] {
      var prefix := steps[..|steps| - 1];
      var s0 := Run(env, prefix).value;
      ForwardingIsLossless(env, prefix, s0);
      StepForwards(env, s0, steps[|steps| - 1]);
    }
  }

  /** Nothing once enqueued is ever taken back or reordered: the output only grows. */
  lemma StepExtendsOutput(env: Env, s: State, step: Step)
    requires Enabled(s, step)
    ensures |Apply(env, s, step).output| >= |s.output|
    ensures Apply(env, s, step).output[..|s.output|] == s.output
    ensures step.Chunk? ==> Apply(env, s, step).output[|s.output|] == Forwarded(step.chunk)
  {
  }

  // ---------------------------------------------------------------------------
  // The phases only move forward, and closing needs every awaited execution settled.

  function Rank(p: Phase): nat
  {
    match p
    case Open => 0
    case Draining => 1
    case Closed => 2
  }

  lemma StepPhase(env: Env, s: State, step: Step)
    requires Enabled(s, step)
    ensures Rank(s.phase) <= Rank(Apply(env, s, step).phase)
    ensures s.phase == Open && Apply(env, s, step).phase != Open ==>
              step == EndOfInput && Apply(env, s, step).phase == Draining
              && Apply(env, s, step).awaited == s.executions.Values
    ensures s.phase != Closed && Apply(env, s, step).phase == Closed ==>
              step == CompletionCheck && s.phase == Draining && s.awaited !! s.running.Keys
  {
  }

  // ---------------------------------------------------------------------------
  // Every produced result answers a dispatched call.

  ghost predicate Correlated(s: State, calls: seq<Part>)
  {
    && (forall i :: 0 <= i < |s.output| && s.output[i].Produced? ==>
          exists c :: c in calls && Answers(s.output[i].part, c))
    && (forall t :: t in s.running ==> exists c :: c in calls && Serves(s.running[t], c))
  }

  lemma StepCorrelated(env: Env, s: State, step: Step, calls: seq<Part>)
    requires Enabled(s, step) && Correlated(s, calls)
    ensures Correlated(Apply(env, s, step),
                       calls + (if step.Chunk? && Dispatches(env.tools, step.chunk) then [step.chunk] else []))
  {
    var s' := Apply(env, s, step);
    var calls' := calls + (if step.Chunk? && Dispatches(env.tools, step.chunk) then [step.chunk] else []);
    forall i | 0 <= i < |s'.output| && s'.output[i].Produced?
      ensures exists c :: c in calls' && Answers(s'.output[i].part, c)
    {
      if i < |s.output| {
        assert s'.output[i] == s.output[i];
        var c :| c in calls && Answers(s.output[i].part, c);
        assert c in calls';
      } else if step.Chunk? {
        assert Answers(s'.output[i].part, step.chunk);
        assert step.chunk in calls';
      } else {
        assert step.TaskSettles? && s.phase != Closed;
        var p := s.running[step.task];
        assert s'.output[i].part == SettledResult(p, step.outcome);
        var c :| c in calls && Serves(p, c);
        assert c in calls' && Answers(s'.output[i].part, c);
      }
    }
    forall t | t in s'.running ensures exists c :: c in calls' && Serves(s'.running[t], c)
    {
      if t in s.running && s'.running[t] == s.running[t] {
        var c :| c in calls && Serves(s.running[t], c);
        assert c in calls';
      } else {
        assert step.Chunk? && Dispatches(env.tools, step.chunk);
        assert Serves(s'.running[t], step.chunk);
        assert step.chunk in calls';
      }
    }
  }

  /**
   * Every result the stage produces carries the call id, call kind and tool name
   * of a tool call it dispatched earlier.
   */
  lemma {:induction false} ResultsAnswerDispatchedCalls(env: Env, steps: seq<Step>, s: State)
    requires Run(env, steps) == Some(s)
    ensures forall i :: 0 <= i < |s.output| && s.output[i].Produced? ==>
              exists c :: c in Dispatched(env, steps) && Answers(s.output[i].part, c)
  {
    CorrelatedHolds(env, steps, s);
  }

  lemma {:induction false} CorrelatedHolds(env: Env, steps: seq<Step>, s: State)
    requires Run(env, steps) == Some(s)
    ensures Correlated(s, Dispatched(env, steps))
  {
    if steps != [] {
      var prefix := steps[..|steps| - 1];
      var s0 := Run(env, prefix).value;
      CorrelatedHolds(env, prefix, s0);
      StepCorrelated(env, s0, steps[|steps| - 1], Dispatched(env, prefix));
    }
  }

  // ---------------------------------------------------------------------------
  // With distinct call ids, each dispatched call gets exactly one result, and the
  // stage never closes while an execution is still running.

  /** The map still holds the call id `y`, and the task stored for it has not settled. */
  ghost predicate RunningFor(s: State, y: string)
  {
    y in s.executions && s.executions[y] in s.running
  }

  ghost predicate Inv(s: State, ids: seq<string>)
  {
    && (forall t :: t in s.running ==> t < s.nextTask)
    && (forall y :: y in s.executions ==> s.executions[y] < s.nextTask)
    && (forall t :: t in s.running ==>
          s.running[t].callId in s.executions && s.executions[s.running[t].callId] == t)
    && (forall y :: RunningFor(s, y) ==> s.running[s.executions[y]].callId == y)
    && (forall y :: CountProduced(s.output, y) + (if RunningFor(s, y) then 1 else 0)
                   == (if y in ids then 1 else 0))
    && (s.phase != Open ==> s.running.Keys <= s.awaited)
    && (s.phase == Closed ==> s.running == map[])
  }

  lemma SettleKeepsInv(s: State, task: nat, o: Outcome, ids: seq<string>)
    requires Inv(s, ids) && task in s.running
    ensures Inv(Settle(s, task, o), ids)
  {
    var s' := Settle(s, task, o);
    var x := s.running[task].callId;
    AppendOne(s.output, Produced(SettledResult(s.running[task], o)));
    forall y ensures CountProduced(s'.output, y) + (if RunningFor(s', y) then 1 else 0)
                   == (if y in ids then 1 else 0)
    {
      if y != x {
        assert RunningFor(s', y) == RunningFor(s, y);
      }
    }
  }

  /** A chunk that is only forwarded. */
  lemma ForwardKeepsInv(s: State, c: Part, ids: seq<string>)
    requires Inv(s, ids) && s.phase == Open
    ensures Inv(s.(output := s.output + [Forwarded(c)]), ids)
  {
    var s' := s.(output := s.output + [Forwarded(c)]);
    AppendOne(s.output, Forwarded(c));
    forall y ensures RunningFor(s', y) == RunningFor(s, y) {}
  }

  /** A dispatched call whose arguments do not parse: one error result, no task. */
  lemma ParseFailureKeepsInv(s: State, c: Part, message: string, ids: seq<string>)
    requires Inv(s, ids) && s.phase == Open && c.ToolCall? && c.toolCallId !in ids
    ensures Inv(s.(output := s.output + [Forwarded(c), Produced(ParseFailureResult(c, message))]),
                ids + [c.toolCallId])
  {
    var r := ParseFailureResult(c, message);
    var s' := s.(output := s.output + [Forwarded(c), Produced(r)]);
    assert s'.output == s.output + [Forwarded(c)] + [Produced(r)];
    AppendOne(s.output, Forwarded(c));
    AppendOne(s.output + [Forwarded(c)], Produced(r));
    forall y ensures RunningFor(s', y) == RunningFor(s, y) {}
  }

  /** A dispatched call whose validation thrower settles before the task is stored. */
  lemma ThrowerKeepsInv(s: State, s': State, c: Part, r: Part, ids: seq<string>)
    requires Inv(s, ids) && s.phase == Open && c.ToolCall? && c.toolCallId !in ids
    requires r.ToolResult? && r.toolCallId == c.toolCallId
    requires s'.phase == s.phase && s'.running == s.running && s'.awaited == s.awaited
    requires s'.output == s.output + [Forwarded(c), Produced(r)]
    requires s'.executions == (s.executions - {c.toolCallId})[c.toolCallId := s.nextTask]
    requires s'.nextTask == s.nextTask + 1
    ensures Inv(s', ids + [c.toolCallId])
  {
    var x := c.toolCallId;
    var ids' := ids + [x];
    assert s.nextTask !in s.running;
    assert !RunningFor(s, x) && !RunningFor(s', x);
    forall y | y != x ensures RunningFor(s', y) == RunningFor(s, y) {
      assert y in s'.executions <==> y in s.executions;
      if y in s.executions {
        assert s'.executions[y] == s.executions[y];
      }
    }
    assert s'.output == s.output + [Forwarded(c)] + [Produced(r)];
    AppendOne(s.output, Forwarded(c));
    AppendOne(s.output + [Forwarded(c)], Produced(r));
    forall y ensures CountProduced(s'.output, y) + (if RunningFor(s', y) then 1 else 0)
                   == (if y in ids' then 1 else 0)
    {
      assert CountProduced(s'.output, y) == CountProduced(s.output, y) + (if y == x then 1 else 0);
    }
    forall t | t in s'.running
      ensures s'.running[t].callId in s'.executions && s'.executions[s'.running[t].callId] == t
    {
      assert RunningFor(s, s.running[t].callId);
    }
  }

  /** A dispatched call whose task starts and stays outstanding. */
  lemma StartKeepsInv(s: State, s': State, c: Part, p: Pending, ids: seq<string>)
    requires Inv(s, ids) && s.phase == Open && c.ToolCall? && c.toolCallId !in ids
    requires p.callId == c.toolCallId
    requires s'.phase == s.phase && s'.awaited == s.awaited
    requires s'.output == s.output + [Forwarded(c)]
    requires s'.executions == s.executions[c.toolCallId := s.nextTask]
    requires s'.running == s.running[s.nextTask := p]
    requires s'.nextTask == s.nextTask + 1
    ensures Inv(s', ids + [c.toolCallId])
  {
    var x := c.toolCallId;
    var task := s.nextTask;
    var ids' := ids + [x];
    AppendOne(s.output, Forwarded(c));
    assert !RunningFor(s, x) && RunningFor(s', x);
    forall y | y != x ensures RunningFor(s', y) == RunningFor(s, y) {}
    forall y ensures CountProduced(s'.output, y) + (if RunningFor(s', y) then 1 else 0)
                   == (if y in ids' then 1 else 0)
    {
      assert CountProduced(s'.output, y) == CountProduced(s.output, y);
    }
    forall t | t in s'.running
      ensures s'.running[t].callId in s'.executions && s'.executions[s'.running[t].callId] == t
    {
      if t != task {
        assert RunningFor(s, s.running[t].callId);
      }
    }
  }

  lemma TransformKeepsInv(env: Env, s: State, c: Part, ids: seq<string>)
    requires Inv(s, ids) && s.phase == Open
    requires Dispatches(env.tools, c) ==> c.toolCallId !in ids
    ensures Inv(Transform(env, s, c), ids + (if Dispatches(env.tools, c) then [c.toolCallId] else []))
  {
    if !Dispatches(env.tools, c) {
      assert ids + [] == ids;
      ForwardKeepsInv(s, c, ids);
    } else {
      var tool := Lookup(env.tools, c.toolName).value;
      match env.parse(c.args)
      case ParseFailed(message) =>
        ParseFailureKeepsInv(s, c, message, ids);
      case Parsed(args) =>
        var task := s.nextTask;
        var handler := ResolveHandler(tool, args);
        var p := PendingFor(c, handler);
        if handler.ValidationThrower? {
          var r := SettledResult(p, ThrowerOutcome(handler.issues));
          assert s.running[task := p] - {task} == s.running;
          ThrowerKeepsInv(s, Transform(env, s, c), c, r, ids);
        } else {
          StartKeepsInv(s, Transform(env, s, c), c, p, ids);
        }
    }
  }

  lemma StepKeepsInv(env: Env, s: State, step: Step, ids: seq<string>)
    requires Inv(s, ids) && Enabled(s, step)
    requires step.Chunk? && Dispatches(env.tools, step.chunk) ==> step.chunk.toolCallId !in ids
    ensures Inv(Apply(env, s, step),
                ids + (if step.Chunk? && Dispatches(env.tools, step.chunk) then [step.chunk.toolCallId] else []))
  {
    match step
    case Chunk(c) => TransformKeepsInv(env, s, c, ids);
    case TaskSettles(task, o) => SettleKeepsInv(s, task, o, ids);
    case EndOfInput =>
      forall t | t in s.running ensures t in s.executions.Values {
        assert s.executions[s.running[t].callId] == t;
      }
    case CompletionCheck =>
  }

  lemma {:induction false} InvHolds(env: Env, steps: seq<Step>, s: State)
    requires Run(env, steps) == Some(s)
    requires Distinct(DispatchedIds(env, steps))
    ensures Inv(s, DispatchedIds(env, steps))
  {
    if steps != [] {
      var prefix := steps[..|steps| - 1];
      var last := steps[|steps| - 1];
      var s0 := Run(env, prefix).value;
      var extra := if last.Chunk? && Dispatches(env.tools, last.chunk) then [last.chunk.toolCallId] else [];
      DistinctSnoc(DispatchedIds(env, prefix), extra);
      InvHolds(env, prefix, s0);
      StepKeepsInv(env, s0, last, DispatchedIds(env, prefix));
    }
  }

  /**
   * When no two dispatched tool calls share a call id: no call id ever gets two results,
   * an id nobody dispatched gets none, and once the stage has closed no execution is
   * left running and every dispatched call has exactly one result.
   */
  lemma {:induction false} ExactlyOneResultPerCall(env: Env, steps: seq<Step>, s: State)
    requires Run(env, steps) == Some(s)
    requires Distinct(DispatchedIds(env, steps))
    ensures forall x :: CountProduced(s.output, x) <= 1
    ensures forall x :: x !in DispatchedIds(env, steps) ==> CountProduced(s.output, x) == 0
    ensures s.phase == Closed ==> s.running == map[]
    ensures s.phase == Closed ==>
              forall x :: x in DispatchedIds(env, steps) ==> CountProduced(s.output, x) == 1
  {
    InvHolds(env, steps, s);
  }
}
