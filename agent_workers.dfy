/**
 * The three mock agent workers: a counter, a counter that continues from the
 * last value in memory, and an engine that forks every step in two. A worker
 * is a value of `Worker`; `InitialExtraState`, `InitialStepState` and `Run`
 * say what its `initialize_step` and `run_step` compute, and the methods
 * `InitializeStep` and `RunStep` carry that out on a `Task` in place.
 * Step ids the source draws from `uuid4` come from the caller as `nextId`,
 * `nextId + 1`, ...
 */
module MockWorkers {
  import opened Wrappers
  import opened Text
  import opened AgentTypes

  datatype Worker =
    | Counter(limit: int)
    | CounterWithMemory(limit: int)
    | ForkStepEngine(limit: int)

  datatype WorkerError = KeyError(key: string) | ValueError(message: string)

  /** A counter worker's output text: "counter: " and the counter in decimal. */
  function CounterOutput(counter: int): string
  {
    "counter: " + IntToString(counter)
  }

  /** The output opens with "counter: " and the counter reads back from the rest. */
  lemma CounterOutputReadsBack(counter: int)
    ensures var r := CounterOutput(counter);
            |r| > 9 && r[..9] == "counter: " && ParseInt(r[9..]) == Some(counter)
  {
    var head := "counter: ";
    ParseIntOfIntToString(counter);
    assert (head + IntToString(counter))[9..] == IntToString(counter);
  }

  /** The task's extra state after `initialize_step`. */
  function InitialExtraState(w: Worker, extraState: map<string, int>, memory: seq<ChatMessage>): Result<map<string, int>, WorkerError>
  {
    match w
    case Counter(_) => Ok(extraState["counter" := 0])
    case CounterWithMemory(_) =>
      var start := if |memory| > 0 then ParseInt(memory[|memory| - 1].content) else Some(0);
      if start.None? then Err(ValueError("invalid literal for int() with base 10"))
      else Ok(extraState["counter" := 0]["start" := start.value])
    case ForkStepEngine(_) => Ok(extraState)
  }

  /**
   * `initialize_step`: the counters start the count at 0, the memory counter
   * also records its start (the last memory message read as an integer, 0 for
   * an empty memory, ValueError when it is not one), the fork engine changes
   * nothing, and no other key is touched.
   */
  lemma InitialExtraStateMeaning(w: Worker, extraState: map<string, int>, memory: seq<ChatMessage>)
    ensures var r := InitialExtraState(w, extraState, memory);
            var start := if |memory| > 0 then ParseInt(memory[|memory| - 1].content) else Some(0);
            && (r.Err? <==> w.CounterWithMemory? && start.None?)
            && (w.ForkStepEngine? ==> r == Ok(extraState))
            && (r.Ok? && !w.ForkStepEngine? ==> "counter" in r.value && r.value["counter"] == 0)
            && (r.Ok? && w.CounterWithMemory? ==> "start" in r.value && Some(r.value["start"]) == start)
            && (r.Ok? ==> forall k :: k in extraState && k != "counter" && k != "start" ==> k in r.value && r.value[k] == extraState[k])
  {
  }

  /** The first step's state: the fork engine's root is number "0" with counter 0. */
  function InitialStepState(w: Worker): (r: Option<ForkState>)
    ensures r.Some? <==> w.ForkStepEngine?
    ensures r.Some? ==> r.value.num == "0" && r.value.counter == 0
  {
    if w.ForkStepEngine? then Some(ForkState("0", 0)) else None
  }

  /** What one `run_step` leaves behind. */
  datatype Outcome = Outcome(output: TaskStepOutput, extraState: map<string, int>, memory: seq<ChatMessage>)

  /**
   * The output keeps the step's identity, and the successors belong to the
   * same task and input and take the ids `nextId`, `nextId + 1`, ...
   */
  ghost predicate MintsFreshIds(step: TaskStep, out: TaskStepOutput, nextId: nat)
  {
    && out.taskStep.taskId == step.taskId && out.taskStep.stepId == step.stepId && out.taskStep.input == step.input
    && forall i :: 0 <= i < |out.nextSteps| ==>
         out.nextSteps[i].stepId == nextId + i && out.nextSteps[i].taskId == step.taskId && out.nextSteps[i].input == step.input
  }

  /** `run_step(step, task)` on the task's extra state and memory. */
  function Run(w: Worker, step: TaskStep, extraState: map<string, int>, memory: seq<ChatMessage>, nextId: nat): (r: Result<Outcome, WorkerError>)
    ensures r.Ok? ==> MintsFreshIds(step, r.value.output, nextId) && |r.value.output.nextSteps| <= 2
  {
    match w
    case Counter(limit) =>
      if "counter" !in extraState then Err(KeyError("counter"))
      else
        var counter := extraState["counter"] + 1;
        Ok(Outcome(TaskStepOutput(CounterOutput(counter), step, counter >= limit, [NextStep(step, nextId, None)]),
                   extraState["counter" := counter], memory))
    case CounterWithMemory(limit) =>
      if "counter" !in extraState then Err(KeyError("counter"))
      else if "start" !in extraState then Err(KeyError("start"))
      else
        var steps := extraState["counter"] + 1;
        var counter := steps + extraState["start"];
        var isDone := steps >= limit;
        Ok(Outcome(TaskStepOutput(CounterOutput(counter), step, isDone, [NextStep(step, nextId, None)]),
                   extraState["counter" := steps],
                   if isDone then memory + [ChatMessage(UserRole, IntToString(counter))] else memory))
    case ForkStepEngine(limit) =>
      if step.stepState.None? then Err(KeyError("counter"))
      else
        var num := step.stepState.value.num;
        var counter := step.stepState.value.counter + 1;
        var current := step.(stepState := Some(ForkState(num, counter)));
        var isDone := counter >= limit;
        var next := if isDone then [] else [NextStep(current, nextId, Some(ForkState(num + "0", counter))),
                                            NextStep(current, nextId + 1, Some(ForkState(num + "1", counter)))];
        Ok(Outcome(TaskStepOutput(num, current, isDone, next), extraState, memory))
  }

  /** `initialize_step(task)`: sets up the task's extra state and returns its first step. */
  method InitializeStep(w: Worker, task: Task, stepId: nat) returns (r: Result<TaskStep, WorkerError>)
    modifies task
    ensures var e := InitialExtraState(w, old(task.extraState), task.memory.messages);
            && (e.Err? ==> r == Err(e.error) && task.extraState == old(task.extraState))
            && (e.Ok? ==> r == Ok(TaskStep(task.taskId, stepId, task.input, InitialStepState(w))) && task.extraState == e.value)
  {
    match w {
      case Counter(_) =>
        task.extraState := task.extraState["counter" := 0];
      case CounterWithMemory(_) =>
        var start := 0;
        var all := task.memory.messages;
        if |all| > 0 {
          var parsed := ParseInt(all[|all| - 1].content);
          if parsed.None? {
            return Err(ValueError("invalid literal for int() with base 10"));
          }
          start := parsed.value;
        }
        task.extraState := task.extraState["counter" := 0];
        task.extraState := task.extraState["start" := start];
      case ForkStepEngine(_) =>
    }
    r := Ok(TaskStep(task.taskId, stepId, task.input, InitialStepState(w)));
  }

  /** `run_step(step, task)`: updates the task's extra state and memory in place. */
  method RunStep(w: Worker, step: TaskStep, task: Task, nextId: nat) returns (r: Result<TaskStepOutput, WorkerError>)
    modifies task, task.memory
    ensures var o := Run(w, step, old(task.extraState), old(task.memory.messages), nextId);
            && (o.Err? ==> r == Err(o.error) && task.extraState == old(task.extraState) && task.memory.messages == old(task.memory.messages))
            && (o.Ok? ==> r == Ok(o.value.output) && task.extraState == o.value.extraState && task.memory.messages == o.value.memory)
  {
    match w {
      case Counter(limit) =>
        if "counter" !in task.extraState {
          return Err(KeyError("counter"));
        }
        var counter := task.extraState["counter"] + 1;
        task.extraState := task.extraState["counter" := counter];
        var isDone := counter >= limit;
        var newSteps := [NextStep(step, nextId, None)];
        r := Ok(TaskStepOutput(CounterOutput(counter), step, isDone, newSteps));
      case CounterWithMemory(limit) =>
        if "counter" !in task.extraState {
          return Err(KeyError("counter"));
        }
        if "start" !in task.extraState {
          return Err(KeyError("start"));
        }
        task.extraState := task.extraState["counter" := task.extraState["counter"] + 1];
        var counter := task.extraState["counter"] + task.extraState["start"];
        var isDone := task.extraState["counter"] >= limit;
        var newSteps := [NextStep(step, nextId, None)];
        if isDone {
          task.memory.Put(ChatMessage(UserRole, IntToString(counter)));
        }
        r := Ok(TaskStepOutput(CounterOutput(counter), step, isDone, newSteps));
      case ForkStepEngine(limit) =>
        if step.stepState.None? {
          return Err(KeyError("counter"));
        }
        var counter := step.stepState.value.counter + 1;
        var current := step.(stepState := Some(ForkState(step.stepState.value.num, counter)));
        var isDone := counter >= limit;
        var curNum := step.stepState.value.num;
        var newSteps := [];
        if !isDone {
          newSteps := [NextStep(current, nextId, Some(ForkState(curNum + "0", counter))),
                       NextStep(current, nextId + 1, Some(ForkState(curNum + "1", counter)))];
        }
        r := Ok(TaskStepOutput(curNum, current, isDone, newSteps));
    }
  }

  // ---------------------------------------------------------------------------
  // Properties of the workers

  /** The counter worker adds one to the task's counter and is done once it reaches the limit. */
  lemma CounterStep(limit: int, step: TaskStep, extraState: map<string, int>, memory: seq<ChatMessage>, nextId: nat)
    requires "counter" in extraState
    ensures var r := Run(Counter(limit), step, extraState, memory, nextId);
            var c := extraState["counter"] + 1;
            && r.Ok? && r.value.extraState["counter"] == c && r.value.memory == memory
            && r.value.output.output == CounterOutput(c)
            && (r.value.output.isLast <==> c >= limit)
            && |r.value.output.nextSteps| == 1
  {
  }

  /**
   * The memory worker starts from the last value in memory (0 when memory is
   * empty), zeroes its step counter, and puts its final value on completion.
   */
  lemma MemoryWorkerStart(limit: int, extraState: map<string, int>, memory: seq<ChatMessage>, start: int)
    requires if |memory| == 0 then start == 0 else memory[|memory| - 1].content == IntToString(start)
    ensures var e := InitialExtraState(CounterWithMemory(limit), extraState, memory);
            e.Ok? && e.value["counter"] == 0 && e.value["start"] == start
  {
    ParseIntOfIntToString(start);
  }

  lemma MemoryWorkerStep(limit: int, step: TaskStep, extraState: map<string, int>, memory: seq<ChatMessage>, nextId: nat)
    requires "counter" in extraState && "start" in extraState
    ensures var r := Run(CounterWithMemory(limit), step, extraState, memory, nextId);
            var c := extraState["counter"] + 1;
            var value := c + extraState["start"];
            && r.Ok? && r.value.extraState == extraState["counter" := c]
            && r.value.output.output == CounterOutput(value)
            && (r.value.output.isLast <==> c >= limit)
            && r.value.memory == (if c >= limit then memory + [ChatMessage(UserRole, IntToString(value))] else memory)
  {
  }

  /**
   * A fork step outputs its own number. Unless it is terminal, it has
   * exactly two successors numbered `num + "0"` and `num + "1"` that carry
   * the incremented counter. A terminal step has none.
   */
  lemma ForkFanOut(limit: int, step: TaskStep, extraState: map<string, int>, memory: seq<ChatMessage>, nextId: nat)
    requires step.stepState.Some?
    ensures var r := Run(ForkStepEngine(limit), step, extraState, memory, nextId);
            var s := step.stepState.value;
            var out := r.value.output;
            && r.Ok? && r.value.extraState == extraState && r.value.memory == memory
            && out.output == s.num && out.taskStep.stepState == Some(ForkState(s.num, s.counter + 1))
            && (out.isLast <==> s.counter + 1 >= limit)
            && (out.isLast ==> out.nextSteps == [])
            && (!out.isLast ==>
                  && |out.nextSteps| == 2
                  && out.nextSteps[0].stepState == Some(ForkState(s.num + "0", s.counter + 1))
                  && out.nextSteps[1].stepState == Some(ForkState(s.num + "1", s.counter + 1)))
  {
  }

  /** Any worker's successors have pairwise distinct ids, all at or above `nextId`. */
  lemma SuccessorIdsDistinct(w: Worker, step: TaskStep, extraState: map<string, int>, memory: seq<ChatMessage>, nextId: nat)
    requires Run(w, step, extraState, memory, nextId).Ok?
    ensures var next := Run(w, step, extraState, memory, nextId).value.output.nextSteps;
            forall i, j :: 0 <= i < j < |next| ==> nextId <= next[i].stepId < next[j].stepId
  {
  }
}
