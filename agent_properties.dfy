/**
 * What the mock workers do when a runner drives them: the counter worker
 * after `k` sequential steps, `chat` to the end for both counter workers,
 * and the two waves of the fork engine with limit 2.
 */
module AgentProperties {
  import opened Wrappers
  import opened Text
  import opened AgentTypes
  import opened MockWorkers
  import opened AgentRunners

  /**
   * `k` calls of `run_step` on one task (at least one): the `k`-th output and
   * the progress after it; the first error ends the run.
   */
  function SequentialSteps(w: Worker, p: Progress, k: nat): (r: Result<(TaskStepOutput, Progress), RunnerError>)
    requires k >= 1
    ensures r.Ok? ==> |r.value.1.completed| == |p.completed| + k
                      && r.value.1.completed[|r.value.1.completed| - 1] == r.value.0
    decreases k
  {
    match SequentialStep(WorkerRun(w), p)
    case Err(e) => Err(e)
    case Ok(s) => if k == 1 then Ok(s) else SequentialSteps(w, s.1, k - 1)
  }

  /** The larger of the counter's next value and the limit: where a counter worker stops. */
  function FinalCount(counter: int, limit: int): (f: int)
    ensures f > counter && f >= limit
    ensures f == counter + 1 || f == limit
  {
    if counter + 1 >= limit then counter + 1 else limit
  }

  // ---------------------------------------------------------------------------
  // The counter worker

  /** One sequential step of the counter worker adds one to the counter; the pending step stays only while below the limit. */
  lemma CounterSequentialStep(limit: int, p: Progress)
    requires |p.queue| == 1 && "counter" in p.extraState
    ensures var s := SequentialStep(WorkerRun(Counter(limit)), p);
            var c := p.extraState["counter"] + 1;
            && s.Ok? && s.value.0.output == CounterOutput(c) && (s.value.0.isLast <==> c >= limit)
            && s.value.1.extraState == p.extraState["counter" := c] && s.value.1.memory == p.memory
            && s.value.1.completed == p.completed + [s.value.0]
            && |s.value.1.queue| == (if c >= limit then 0 else 1)
  {
    var step := p.queue[0];
    assert WorkerRun(Counter(limit))(step, p.extraState, p.memory, p.nextId) == Run(Counter(limit), step, p.extraState, p.memory, p.nextId);
    CounterStep(limit, step, p.extraState, p.memory, p.nextId);
  }

  /** `CounterSequentialStep` without the output text: what the induction over many steps needs. */
  lemma CounterStepState(limit: int, p: Progress)
    requires |p.queue| == 1 && "counter" in p.extraState
    ensures var s := SequentialStep(WorkerRun(Counter(limit)), p);
            var c := p.extraState["counter"] + 1;
            && s.Ok? && (s.value.0.isLast <==> c >= limit)
            && s.value.1.extraState == p.extraState["counter" := c] && s.value.1.memory == p.memory
            && |s.value.1.queue| == (if c >= limit then 0 else 1)
  {
    CounterSequentialStep(limit, p);
  }

  /** The `k`-th of `k` sequential steps is one more step after the first `k - 1`. */
  lemma {:induction false} SequentialStepsSnoc(w: Worker, p: Progress, k: nat)
    requires k > 1 && SequentialSteps(w, p, k - 1).Ok?
    ensures SequentialSteps(w, p, k) == SequentialStep(WorkerRun(w), SequentialSteps(w, p, k - 1).value.1)
    decreases k
  {
    var q := SequentialStep(WorkerRun(w), p).value.1;
    if k > 2 {
      SequentialStepsSnoc(w, q, k - 1);
    }
  }

  /**
   * After `k` steps of the counter worker from `p` the counter is `c`, the
   * memory is untouched, and the `k`-th step is the last iff the counter
   * reached the limit.
   */
  ghost predicate CounterAfter(limit: int, p: Progress, k: nat, c: int)
    requires k >= 1 && "counter" in p.extraState
  {
    var s := SequentialSteps(Counter(limit), p, k);
    && s.Ok? && s.value.1.extraState == p.extraState["counter" := c] && s.value.1.memory == p.memory
    && (s.value.0.isLast <==> c >= limit)
    && |s.value.1.queue| == (if c >= limit then 0 else 1)
  }

  /** The first step takes the counter one up. */
  lemma CounterFirst(limit: int, p: Progress, c: int)
    requires |p.queue| == 1 && "counter" in p.extraState && c == p.extraState["counter"] + 1
    ensures CounterAfter(limit, p, 1, c)
  {
    CounterStepState(limit, p);
  }

  /** One more step below the limit takes the counter from `c - 1` to `c`. */
  lemma CounterOneMore(limit: int, p: Progress, k: nat, c: int)
    requires "counter" in p.extraState && k > 1 && c - 1 < limit
    requires CounterAfter(limit, p, k - 1, c - 1)
    ensures CounterAfter(limit, p, k, c)
  {
    var q := SequentialSteps(Counter(limit), p, k - 1).value.1;
    SequentialStepsSnoc(Counter(limit), p, k);
    CounterStepState(limit, q);
    UpdateTwice(p.extraState, "counter", c - 1, c);
  }

  /**
   * While every step before the `k`-th stays below the limit, `k` steps of
   * the counter worker from `p` leave the counter `k` higher.
   */
  lemma {:induction false} CounterSteps(limit: int, p: Progress, k: nat, c: int)
    requires |p.queue| == 1 && "counter" in p.extraState
    requires k >= 1 && (k == 1 || p.extraState["counter"] + k - 1 < limit)
    requires c == p.extraState["counter"] + k
    ensures CounterAfter(limit, p, k, c)
    decreases k
  {
    if k == 1 {
      CounterFirst(limit, p, c);
    } else {
      CounterSteps(limit, p, k - 1, c - 1);
      CounterOneMore(limit, p, k, c);
    }
  }

  /** Under the same conditions, the `k`-th output shows the counter after it. */
  lemma CounterStepsOutput(limit: int, p: Progress, k: nat, c: int)
    requires |p.queue| == 1 && "counter" in p.extraState
    requires k >= 1 && (k == 1 || p.extraState["counter"] + k - 1 < limit)
    requires c == p.extraState["counter"] + k
    ensures var s := SequentialSteps(Counter(limit), p, k);
            s.Ok? && s.value.0.output == CounterOutput(c)
  {
    if k == 1 {
      CounterSequentialStep(limit, p);
    } else {
      CounterSteps(limit, p, k - 1, c - 1);
      var q := SequentialSteps(Counter(limit), p, k - 1).value.1;
      assert q.extraState["counter"] + 1 == c;
      SequentialStepsSnoc(Counter(limit), p, k);
      CounterSequentialStep(limit, q);
    }
  }

  /**
   * The counter worker on a freshly created task: after `k` steps, with `k`
   * up to the limit (at least one step is always possible), the counter is
   * `k`, `k` steps are completed, the last output is `counter: k`, and it is
   * the last step iff `k` reached the limit.
   */
  lemma CounterAfterSteps(limit: int, taskId: nat, input: string, memory: seq<ChatMessage>, nextId: nat, k: nat)
    requires 1 <= k && (k == 1 || k <= limit)
    ensures var c := Created(Counter(limit), taskId, input, memory, nextId);
            var s := SequentialSteps(Counter(limit), c.value, k);
            && c.Ok? && s.Ok? && "counter" in s.value.1.extraState && s.value.1.extraState["counter"] == k
            && |s.value.1.completed| == k && s.value.1.completed[k - 1] == s.value.0
            && s.value.0.output == CounterOutput(k) && (s.value.0.isLast <==> k >= limit)
  {
    var p := Created(Counter(limit), taskId, input, memory, nextId).value;
    assert p.extraState == map["counter" := 0];
    CounterSteps(limit, p, k, k);
    CounterStepsOutput(limit, p, k, k);
  }

  /** `chat` with the counter worker stops at the limit (after one step at least), with the memory untouched. */
  lemma {:induction false} CounterRunToEnd(limit: int, p: Progress)
    requires |p.queue| == 1 && "counter" in p.extraState
    ensures var f := FinalCount(p.extraState["counter"], limit);
            var e := RunToEnd(Counter(limit), p);
            && e.Ok? && e.value.0.output == CounterOutput(f)
            && e.value.1.extraState == p.extraState["counter" := f] && e.value.1.memory == p.memory
            && |e.value.1.completed| == |p.completed| + (f - p.extraState["counter"])
            && e.value.1.queue == []
    decreases if limit > p.extraState["counter"] then limit - p.extraState["counter"] else 0
  {
    var c := p.extraState["counter"];
    CounterSequentialStep(limit, p);
    var q := SequentialStep(WorkerRun(Counter(limit)), p).value.1;
    if c + 1 < limit {
      CounterRunToEnd(limit, q);
      UpdateTwice(p.extraState, "counter", c + 1, FinalCount(c + 1, limit));
    }
  }

  /** `chat` on a fresh task of the counter worker answers `counter: limit` (`counter: 1` for a limit below one). */
  lemma ChatCounter(limit: int, taskId: nat, input: string, memory: seq<ChatMessage>, nextId: nat)
    ensures var c := Created(Counter(limit), taskId, input, memory, nextId);
            var e := RunToEnd(Counter(limit), c.value);
            && c.Ok? && e.Ok? && e.value.0.output == CounterOutput(if limit >= 1 then limit else 1)
            && e.value.1.memory == memory
  {
    var p := Created(Counter(limit), taskId, input, memory, nextId).value;
    assert p.extraState == map["counter" := 0];
    CounterRunToEnd(limit, p);
  }

  // ---------------------------------------------------------------------------
  // The counter worker with memory

  lemma MemorySequentialStep(limit: int, p: Progress)
    requires |p.queue| == 1 && "counter" in p.extraState && "start" in p.extraState
    ensures var s := SequentialStep(WorkerRun(CounterWithMemory(limit)), p);
            var c := p.extraState["counter"] + 1;
            var value := c + p.extraState["start"];
            && s.Ok? && s.value.0.output == CounterOutput(value) && (s.value.0.isLast <==> c >= limit)
            && s.value.1.extraState == p.extraState["counter" := c]
            && s.value.1.memory == (if c >= limit then p.memory + [ChatMessage(UserRole, IntToString(value))] else p.memory)
            && |s.value.1.completed| == |p.completed| + 1
            && |s.value.1.queue| == (if c >= limit then 0 else 1)
  {
    var step := p.queue[0];
    assert WorkerRun(CounterWithMemory(limit))(step, p.extraState, p.memory, p.nextId)
        == Run(CounterWithMemory(limit), step, p.extraState, p.memory, p.nextId);
    MemoryWorkerStep(limit, step, p.extraState, p.memory, p.nextId);
  }

  /** `chat` with the memory worker answers its start plus its step count, and puts that value into the memory once. */
  lemma {:induction false} MemoryRunToEnd(limit: int, p: Progress)
    requires |p.queue| == 1 && "counter" in p.extraState && "start" in p.extraState
    ensures var f := FinalCount(p.extraState["counter"], limit);
            var value := p.extraState["start"] + f;
            var e := RunToEnd(CounterWithMemory(limit), p);
            && e.Ok? && e.value.0.output == CounterOutput(value)
            && e.value.1.memory == p.memory + [ChatMessage(UserRole, IntToString(value))]
            && e.value.1.extraState == p.extraState["counter" := f]
            && e.value.1.queue == []
    decreases if limit > p.extraState["counter"] then limit - p.extraState["counter"] else 0
  {
    var c := p.extraState["counter"];
    MemorySequentialStep(limit, p);
    var q := SequentialStep(WorkerRun(CounterWithMemory(limit)), p).value.1;
    if c + 1 < limit {
      assert q.extraState["start"] == p.extraState["start"];
      MemoryRunToEnd(limit, q);
      UpdateTwice(p.extraState, "counter", c + 1, FinalCount(c + 1, limit));
    }
  }

  /**
   * `chat` on a fresh task of the memory worker continues from the last
   * value in memory (0 for an empty memory): it answers that value plus the
   * limit and appends the answer to the memory.
   */
  lemma ChatMemory(limit: int, taskId: nat, input: string, memory: seq<ChatMessage>, nextId: nat, start: int)
    requires if |memory| == 0 then start == 0 else memory[|memory| - 1].content == IntToString(start)
    ensures var c := Created(CounterWithMemory(limit), taskId, input, memory, nextId);
            var value := start + (if limit >= 1 then limit else 1);
            && c.Ok?
            && var e := RunToEnd(CounterWithMemory(limit), c.value);
               && e.Ok? && e.value.0.output == CounterOutput(value)
               && e.value.1.memory == memory + [ChatMessage(UserRole, IntToString(value))]
  {
    MemoryWorkerStart(limit, map[], memory, start);
    var p := Created(CounterWithMemory(limit), taskId, input, memory, nextId).value;
    MemoryRunToEnd(limit, p);
  }

  // ---------------------------------------------------------------------------
  // The fork engine in waves

  /** A wave of fork steps runs the first step, records it, and goes on with the rest. */
  lemma ForkWaveCons(limit: int, steps: seq<TaskStep>, p: Progress)
    requires steps != [] && steps[0].stepState.Some?
    ensures var o := Run(ForkStepEngine(limit), steps[0], p.extraState, p.memory, p.nextId);
            var rest := WaveFrom(WorkerRun(ForkStepEngine(limit)), steps[1..], Record(p, o.value));
            && o.Ok?
            && WaveFrom(WorkerRun(ForkStepEngine(limit)), steps, p) == Wave([o.value.output] + rest.outputs, rest.progress, rest.error)
  {
    var run := WorkerRun(ForkStepEngine(limit));
    assert run(steps[0], p.extraState, p.memory, p.nextId) == Run(ForkStepEngine(limit), steps[0], p.extraState, p.memory, p.nextId);
  }

  /** The first wave with limit 2 runs the root "0", which is not the last, and queues "00" then "01". */
  lemma DagFirstWave(p: Progress)
    requires |p.queue| == 1 && p.queue[0].stepState == Some(ForkState("0", 0))
    ensures var w := ParallelWave(WorkerRun(ForkStepEngine(2)), p);
            && w.error.None? && |w.outputs| == 1
            && w.outputs[0].taskStep.stepState == Some(ForkState("0", 1))
            && w.outputs[0].output == "0" && !w.outputs[0].isLast
            && |w.progress.completed| == |p.completed| + 1 && |w.progress.queue| == 2
            && w.progress.queue[0].stepState == Some(ForkState("00", 1))
            && w.progress.queue[1].stepState == Some(ForkState("01", 1))
  {
    var q := p.(queue := []);
    var root := p.queue[0];
    ForkWaveCons(2, p.queue, q);
    ForkFanOut(2, root, q.extraState, q.memory, q.nextId);
    var o := Run(ForkStepEngine(2), root, q.extraState, q.memory, q.nextId).value;
    assert p.queue[1..] == [];
    assert WaveFrom(WorkerRun(ForkStepEngine(2)), [], Record(q, o)).progress.queue == [] + o.output.nextSteps;
    assert "0" + "0" == "00" && "0" + "1" == "01";
  }

  /** The second wave with limit 2 runs "00" and then "01", both the last, and queues nothing. */
  lemma DagSecondWave(p: Progress)
    requires |p.queue| == 2
    requires p.queue[0].stepState == Some(ForkState("00", 1)) && p.queue[1].stepState == Some(ForkState("01", 1))
    ensures var w := ParallelWave(WorkerRun(ForkStepEngine(2)), p);
            && w.error.None? && |w.outputs| == 2
            && w.outputs[0].taskStep.stepState == Some(ForkState("00", 2)) && w.outputs[0].isLast
            && w.outputs[1].taskStep.stepState == Some(ForkState("01", 2)) && w.outputs[1].isLast
            && |w.progress.completed| == |p.completed| + 2 && w.progress.queue == []
  {
    var q := p.(queue := []);
    var a := p.queue[0];
    ForkWaveCons(2, p.queue, q);
    ForkFanOut(2, a, q.extraState, q.memory, q.nextId);
    var qa := Record(q, Run(ForkStepEngine(2), a, q.extraState, q.memory, q.nextId).value);
    var rest := p.queue[1..];
    ForkWaveCons(2, rest, qa);
    ForkFanOut(2, rest[0], qa.extraState, qa.memory, qa.nextId);
    assert rest[1..] == [];
  }

  /**
   * The fork engine with limit 2, run in waves on a fresh task: the first
   * wave runs the root, numbered "0", which is not the last; the second runs
   * its two successors "00" and "01" in that order, both the last, leaving
   * three completed steps and nothing queued.
   */
  lemma DagWaves(taskId: nat, input: string, memory: seq<ChatMessage>, nextId: nat)
    ensures var c := Created(ForkStepEngine(2), taskId, input, memory, nextId);
            var w1 := ParallelWave(WorkerRun(ForkStepEngine(2)), c.value);
            var w2 := ParallelWave(WorkerRun(ForkStepEngine(2)), w1.progress);
            && c.Ok? && w1.error.None? && |w1.outputs| == 1
            && w1.outputs[0].taskStep.stepState == Some(ForkState("0", 1))
            && w1.outputs[0].output == "0" && !w1.outputs[0].isLast
            && w2.error.None? && |w2.outputs| == 2
            && w2.outputs[0].taskStep.stepState == Some(ForkState("00", 2)) && w2.outputs[0].isLast
            && w2.outputs[1].taskStep.stepState == Some(ForkState("01", 2)) && w2.outputs[1].isLast
            && |w2.progress.completed| == 3 && w2.progress.queue == []
  {
    var p0 := Created(ForkStepEngine(2), taskId, input, memory, nextId).value;
    DagFirstWave(p0);
    DagSecondWave(ParallelWave(WorkerRun(ForkStepEngine(2)), p0).progress);
  }
}
