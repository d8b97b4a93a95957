/**
 * What happens when two tool calls share a call id. `Map.set` stores the second
 * task over the first, and the first task's `finally` deletes the id, removing
 * the second task's entry. `flush` then waits for nothing, the stream closes
 * while the second execution is still running, and its result is lost.
 */
module ReusedIds {
  import opened StreamParts
  import opened ToolCalls
  import opened Stage
  import opened Runs

  const LookupTool: Tool := Tool(true, PlainSchema, false)

  const Env0: Env := Env(Some(map["lookup" := LookupTool]), (text: string) => Parsed(Structured("{}")))

  const Call: Part := ToolCall(Function, "call-1", "lookup", "{}")

  /** Two calls with the same id; the first settles, the input ends, the stream closes, the second settles. */
  const Steps: seq<Step> := [
    Chunk(Call),
    Chunk(Call),
    TaskSettles(0, Returned(Str("first"))),
    EndOfInput,
    CompletionCheck,
    TaskSettles(1, Returned(Str("second")))
  ]

  lemma RunSnoc(env: Env, steps: seq<Step>, step: Step)
    ensures Run(env, steps + [step])
         == match Run(env, steps)
            case None => None
            case Some(s) => if Enabled(s, step) then Some(Apply(env, s, step)) else None
  {
    assert (steps + [step])[..|steps|] == steps;
  }

  const P: Pending := Pending(Function, "call-1", "lookup", Execute)
  const R0: Part := SettledResult(P, Returned(Str("first")))

  // The states after each step.
  const S1: State := Initial.(output := [Forwarded(Call)], executions := map["call-1" := 0],
                              running := map[0 := P], nextTask := 1)
  const S2: State := S1.(output := [Forwarded(Call), Forwarded(Call)], executions := map["call-1" := 1],
                         running := map[0 := P, 1 := P], nextTask := 2)
  const S3: State := S2.(output := S2.output + [Produced(R0)], executions := map[], running := map[1 := P])
  const S4: State := S3.(phase := Draining, awaited := {})
  const S5: State := S4.(phase := Closed)
  const S6: State := S5.(running := map[])

  lemma RunTo1() ensures Run(Env0, Steps[..1]) == Some(S1)
  {
    assert Dispatches(Env0.tools, Call);
    assert ResolveHandler(LookupTool, Structured("{}")) == Execute;
    RunSnoc(Env0, [], Steps[0]);
    assert [] + [Steps[0]] == Steps[..1];
  }

  lemma SecondCallStarts() ensures Enabled(S1, Chunk(Call)) && Apply(Env0, S1, Chunk(Call)) == S2
  {
    assert Dispatches(Env0.tools, Call);
    assert ResolveHandler(LookupTool, Structured("{}")) == Execute;
    var t := Transform(Env0, S1, Call);
    assert t.output == S2.output && t.running == S1.running[1 := P] == S2.running;
    assert t.executions == S1.executions["call-1" := 1] == S2.executions;
  }

  lemma RunTo2() ensures Run(Env0, Steps[..2]) == Some(S2)
  {
    RunTo1();
    SecondCallStarts();
    assert Steps[..1] + [Chunk(Call)] == Steps[..2];
    RunSnoc(Env0, Steps[..1], Chunk(Call));
  }

  lemma FirstSettles() ensures Enabled(S2, Steps[2]) && Apply(Env0, S2, Steps[2]) == S3
  {
    assert S2.executions - {"call-1"} == map[];
    assert S2.running - {0} == map[1 := P];
  }

  lemma RunTo3() ensures Run(Env0, Steps[..3]) == Some(S3)
  {
    RunTo2();
    FirstSettles();
    assert Steps[..2] + [Steps[2]] == Steps[..3];
    RunSnoc(Env0, Steps[..2], Steps[2]);
  }

  lemma DrainAndClose()
    ensures Enabled(S3, EndOfInput) && Apply(Env0, S3, EndOfInput) == S4
    ensures Enabled(S4, CompletionCheck) && Apply(Env0, S4, CompletionCheck) == S5
  {
    assert S3.executions.Values == {};
  }

  lemma RunTo5() ensures Run(Env0, Steps[..4]) == Some(S4) && Run(Env0, Steps[..5]) == Some(S5)
  {
    RunTo3();
    DrainAndClose();
    assert Steps[..3] + [EndOfInput] == Steps[..4];
    RunSnoc(Env0, Steps[..3], EndOfInput);
    assert Steps[..4] + [CompletionCheck] == Steps[..5];
    RunSnoc(Env0, Steps[..4], CompletionCheck);
  }

  lemma LateSettle() ensures Enabled(S5, Steps[5]) && Apply(Env0, S5, Steps[5]) == S6
  {
    assert map[1 := P] - {1} == map[];
  }

  lemma RunTo6() ensures Run(Env0, Steps) == Some(S6)
  {
    RunTo5();
    LateSettle();
    assert Steps[..5] + [Steps[5]] == Steps;
    RunSnoc(Env0, Steps[..5], Steps[5]);
  }

  lemma OneResult() ensures CountProduced(S6.output, "call-1") == 1
  {
    assert S6.output == [Forwarded(Call)] + [Forwarded(Call)] + [Produced(R0)];
    AppendOne([], Forwarded(Call));
    assert [] + [Forwarded(Call)] == [Forwarded(Call)];
    AppendOne([Forwarded(Call)], Forwarded(Call));
    AppendOne([Forwarded(Call)] + [Forwarded(Call)], Produced(R0));
  }

  lemma DispatchedTwice() ensures DispatchedIds(Env0, Steps) == ["call-1", "call-1"]
  {
    assert Dispatches(Env0.tools, Call);
    assert Steps[..1][..0] == [];
    assert Steps[..2][..1] == Steps[..1];
    assert Steps[..3][..2] == Steps[..2];
    assert Steps[..4][..3] == Steps[..3];
    assert Steps[..5][..4] == Steps[..4];
    assert Steps[..5] == Steps[..|Steps| - 1];
    assert DispatchedIds(Env0, Steps[..1]) == ["call-1"];
    assert DispatchedIds(Env0, Steps[..2]) == ["call-1", "call-1"];
    assert DispatchedIds(Env0, Steps[..3]) == ["call-1", "call-1"];
    assert DispatchedIds(Env0, Steps[..4]) == ["call-1", "call-1"];
    assert DispatchedIds(Env0, Steps[..5]) == ["call-1", "call-1"];
  }

  /**
   * Two dispatched calls share the id "call-1". After five steps the stream is closed
   * although execution 1 is still running, and when it settles nothing is emitted:
   * the run ends with one result for two calls.
   */
  lemma ReusedCallIdLosesResult()
    ensures DispatchedIds(Env0, Steps) == ["call-1", "call-1"]
    ensures Run(Env0, Steps[..5]).Some?
    ensures Run(Env0, Steps[..5]).value.phase == Closed
    ensures 1 in Run(Env0, Steps[..5]).value.running
    ensures Run(Env0, Steps).Some?
    ensures CountProduced(Run(Env0, Steps).value.output, "call-1") == 1
  {
    DispatchedTwice();
    RunTo5();
    RunTo6();
    OneResult();
  }
}
