/**
 * The runner tests as methods: each drives the runner classes as the test
 * does and returns what the test observes; the postconditions are the
 * test's assertions.
 */
module AgentScenarios {
  import opened Wrappers
  import opened Text
  import opened AgentTypes
  import opened MockWorkers
  import opened AgentRunners
  import opened AgentProperties

  lemma CounterTexts()
    ensures IntToString(10) == "10" && IntToString(20) == "20"
    ensures CounterOutput(1) == "counter: 1" && CounterOutput(2) == "counter: 2"
    ensures CounterOutput(10) == "counter: 10" && CounterOutput(20) == "counter: 20"
  {
    assert NatToDigits(10) == NatToDigits(1) + [DigitChar(0)];
    assert NatToDigits(20) == NatToDigits(2) + [DigitChar(0)];
  }

  /**
   * `test_agent`, first part: with limit 2, the first step brings the
   * counter to 1 and is not the last; the registry lists the one task and
   * returns it; the second step brings the counter to 2 and is the last,
   * with two steps completed.
   */
  method TestAgent() returns (input: string, registered: bool, counter1: int, output1: string, last1: bool,
                              listed: nat, sameTask: bool, counter2: int, output2: string, last2: bool, completed: nat)
    ensures input == "hello world" && registered
    ensures counter1 == 1 && output1 == "counter: 1" && !last1
    ensures listed == 1 && sameTask
    ensures counter2 == 2 && output2 == "counter: 2" && last2 && completed == 2
  {
    CounterTexts();
    var runner := new AgentRunner(Counter(2));
    var created := runner.CreateTask("hello world");
    var task := created.value;
    input := task.input;
    registered := task.taskId in runner.state.taskDict;
    ghost var p0 := runner.state.Snapshot(task.taskId, runner.memory);
    assert p0.extraState == map["counter" := 0];
    CounterSequentialStep(2, p0);
    var step1 := runner.RunStep(task.taskId);
    output1, last1 := step1.value.output, step1.value.isLast;
    counter1 := task.extraState["counter"];
    var tasks := runner.ListTasks();
    listed := |tasks|;
    var got := runner.GetTask(task.taskId);
    sameTask := got == Ok(task);
    ghost var p1 := runner.state.Snapshot(task.taskId, runner.memory);
    CounterSequentialStep(2, p1);
    var step2 := runner.RunStep(task.taskId);
    output2, last2 := step2.value.output, step2.value.isLast;
    counter2 := task.extraState["counter"];
    completed := |runner.state.taskDict[task.taskId].completed|;
  }

  /** `test_agent`, second part: `chat` with limit 10 answers `counter: 10`, leaving one task registered. */
  method TestAgentChat() returns (response: string, tasks: nat)
    ensures response == "counter: 10" && tasks == 1
  {
    CounterTexts();
    var runner := new AgentRunner(Counter(10));
    ChatCounter(10, runner.state.nextTaskId, "hello world", runner.memory.messages, runner.state.nextStepId);
    var r := runner.Chat("hello world");
    response := r.value;
    tasks := |runner.state.taskDict|;
  }

  /** The runner after a reset and one chat with the memory worker: one task, and the answer in memory. */
  ghost predicate FirstChatDone(runner: AgentRunner)
    reads runner, runner.state, runner.memory
  {
    |runner.state.taskDict| == 1 && runner.memory.messages == [ChatMessage(UserRole, "10")]
  }

  /** A round of `test_agent_with_reset` that resets first: the chat starts from an empty memory. */
  method ResetAndChat(runner: AgentRunner) returns (response: string)
    requires runner.Valid() && runner.worker == CounterWithMemory(10)
    modifies runner.state, runner.memory
    ensures runner.Valid() && response == "counter: 10" && FirstChatDone(runner)
  {
    CounterTexts();
    runner.Reset();
    ChatMemory(10, runner.state.nextTaskId, "hello world", runner.memory.messages, runner.state.nextStepId, 0);
    var r := runner.Chat("hello world");
    response := r.value;
  }

  /** A round of `test_agent_with_reset` without a reset: the chat continues from the value in memory. */
  method ChatAgain(runner: AgentRunner) returns (response: string)
    requires runner.Valid() && runner.worker == CounterWithMemory(10)
    requires FirstChatDone(runner)
    modifies runner.state, runner.memory
    ensures runner.Valid() && response == "counter: 20"
    ensures |runner.state.taskDict| == 2 && |runner.memory.messages| == 2
  {
    CounterTexts();
    ghost var before, id := runner.state.taskDict, runner.state.nextTaskId;
    assert id !in before;
    ChatMemory(10, id, "hello world", runner.memory.messages, runner.state.nextStepId, 10);
    var r := runner.Chat("hello world");
    response := r.value;
  }

  /** The answers of the first `n` rounds of `test_agent_with_reset`: 10 after a reset, 20 after that. */
  function ExpectedResponses(n: nat): seq<string>
  {
    if n == 0 then [] else ExpectedResponses(n - 1) + [if (n - 1) % 2 == 0 then "counter: 10" else "counter: 20"]
  }

  /** The task and memory counts after the first `n` rounds: 1 after a reset, 2 after that. */
  function ExpectedCounts(n: nat): seq<int>
  {
    if n == 0 then [] else ExpectedCounts(n - 1) + [if (n - 1) % 2 == 0 then 1 else 2]
  }

  lemma ExpectedRounds()
    ensures ExpectedResponses(4) == ["counter: 10", "counter: 20", "counter: 10", "counter: 20"]
    ensures ExpectedCounts(4) == [1, 2, 1, 2]
  {
    assert ExpectedResponses(2) == ["counter: 10", "counter: 20"];
    assert ExpectedCounts(2) == [1, 2];
  }

  /**
   * `test_agent_with_reset`: four chats with the memory worker and limit 10,
   * resetting before the first and the third. A chat after a reset answers
   * `counter: 10` with one task and one message in memory; the next
   * continues from it and answers `counter: 20` with two of each.
   */
  method TestAgentWithReset() returns (responses: seq<string>, taskCounts: seq<int>, memorySizes: seq<int>)
    ensures responses == ["counter: 10", "counter: 20", "counter: 10", "counter: 20"]
    ensures taskCounts == [1, 2, 1, 2] && memorySizes == [1, 2, 1, 2]
  {
    var runner := new AgentRunner(CounterWithMemory(10));
    responses, taskCounts, memorySizes := [], [], [];
    for idx := 0 to 4
      invariant runner.Valid()
      invariant responses == ExpectedResponses(idx)
      invariant taskCounts == ExpectedCounts(idx) && memorySizes == ExpectedCounts(idx)
      invariant idx == 1 || idx == 3 ==> FirstChatDone(runner)
    {
      var response;
      if idx % 2 == 0 {
        response := ResetAndChat(runner);
      } else {
        assert idx == 1 || idx == 3;
        response := ChatAgain(runner);
      }
      responses := responses + [response];
      taskCounts := taskCounts + [|runner.state.taskDict|];
      memorySizes := memorySizes + [|runner.memory.messages|];
    }
    ExpectedRounds();
  }

  /**
   * `test_dag_agent`: the fork engine with limit 2 in waves. The first wave
   * returns the root "0", not the last; the second returns "00" and "01" in
   * that order, both the last, with three steps completed.
   */
  method TestDagAgent() returns (num0: string, output0: string, last0: bool,
                                 num00: string, num01: string, last00: bool, last01: bool, completed: nat)
    ensures num0 == "0" && output0 == "0" && !last0
    ensures num00 == "00" && num01 == "01" && last00 && last01 && completed == 3
  {
    var runner := new ParallelAgentRunner(ForkStepEngine(2));
    DagWaves(runner.state.nextTaskId, "hello world", runner.memory.messages, runner.state.nextStepId);
    var created := runner.CreateTask("hello world");
    var task := created.value;
    var wave1 := runner.RunStepsInQueue(task.taskId);
    var first := wave1.value[0];
    num0, output0, last0 := first.taskStep.stepState.value.num, first.output, first.isLast;
    var wave2 := runner.RunStepsInQueue(task.taskId);
    var a, b := wave2.value[0], wave2.value[1];
    num00, num01, last00, last01 := a.taskStep.stepState.value.num, b.taskStep.stepState.value.num, a.isLast, b.isLast;
    completed := |runner.state.taskDict[task.taskId].completed|;
  }
}
