/**
 * The agent runners. `AgentState` is the task registry: each task's record
 * holds the task, its queue of pending steps and its append-only list of
 * completed step outputs. `AgentRunner` runs one pending step per call and
 * keeps at most one step pending; `ParallelAgentRunner` drains the whole
 * queue per call, in waves. Task and step ids, which the source draws from
 * `uuid4`, are counters on the registry that `reset` never rewinds.
 *
 * The value functions `SequentialStep`, `WaveFrom` and `RunToEnd` say what a
 * call does to a snapshot (`Progress`) of one task; the runners' methods are
 * proved to carry them out on the objects.
 */
module AgentRunners {
  import opened Wrappers
  import opened AgentTypes
  import opened MockWorkers

  datatype RunnerError = TaskNotFoundError | NoPendingStepError | WorkerFailed(error: WorkerError)

  /** The registry's record of one task. */
  datatype TaskState = TaskState(task: Task, queue: seq<TaskStep>, completed: seq<TaskStepOutput>)

  /** A snapshot of one task's execution, with the next id to hand out. */
  datatype Progress = Progress(extraState: map<string, int>, memory: seq<ChatMessage>,
                               queue: seq<TaskStep>, completed: seq<TaskStepOutput>, nextId: nat)

  // ---------------------------------------------------------------------------
  // Step ids

  function StepIds(steps: seq<TaskStep>): (r: seq<nat>)
    ensures |r| == |steps| && forall i :: 0 <= i < |steps| ==> r[i] == steps[i].stepId
  {
    if steps == [] then [] else [steps[0].stepId] + StepIds(steps[1..])
  }

  function OutputIds(outputs: seq<TaskStepOutput>): (r: seq<nat>)
    ensures |r| == |outputs| && forall i :: 0 <= i < |outputs| ==> r[i] == outputs[i].taskStep.stepId
  {
    if outputs == [] then [] else [outputs[0].taskStep.stepId] + OutputIds(outputs[1..])
  }

  /** Pairwise distinct ids, all below `bound` (so `bound` and above are still free). */
  ghost predicate FreshIds(ids: seq<nat>, bound: nat)
  {
    && (forall i, j :: 0 <= i < j < |ids| ==> ids[i] != ids[j])
    && (forall i :: 0 <= i < |ids| ==> ids[i] < bound)
  }

  /** The ids of a task's executed and pending steps are distinct and below `bound`. */
  ghost predicate IdsFresh(completed: seq<TaskStepOutput>, queue: seq<TaskStep>, bound: nat)
  {
    FreshIds(OutputIds(completed) + StepIds(queue), bound)
  }

  lemma FreshIdsExtend(xs: seq<nat>, ys: seq<nat>, n: nat, k: nat)
    requires FreshIds(xs, n)
    requires forall i, j :: 0 <= i < j < |ys| ==> ys[i] != ys[j]
    requires forall i :: 0 <= i < |ys| ==> n <= ys[i] < n + k
    ensures FreshIds(xs + ys, n + k)
  {
    var zs := xs + ys;
    forall i, j | 0 <= i < j < |zs| ensures zs[i] != zs[j] {
      if j >= |xs| && i < |xs| { assert zs[i] == xs[i] && zs[j] == ys[j - |xs|]; }
    }
  }

  // ---------------------------------------------------------------------------
  // A worker's run_step as a value

  /** `run_step(step, task)` on the task's extra state and memory, with the next free id. */
  type StepFunction = (TaskStep, map<string, int>, seq<ChatMessage>, nat) -> Result<Outcome, WorkerError>

  function WorkerRun(w: Worker): (r: StepFunction)
    ensures MintsFresh(r)
  {
    (step: TaskStep, extraState: map<string, int>, memory: seq<ChatMessage>, nextId: nat) => Run(w, step, extraState, memory, nextId)
  }

  /** Every output keeps its step's id and numbers its successors from the next free id. */
  ghost predicate MintsFresh(run: StepFunction)
  {
    forall step, extraState, memory, nextId :: run(step, extraState, memory, nextId).Ok? ==>
      MintsFreshIds(step, run(step, extraState, memory, nextId).value.output, nextId)
  }

  lemma WorkerRunMintsFresh(w: Worker)
    ensures MintsFresh(WorkerRun(w))
  {
  }

  // ---------------------------------------------------------------------------
  // One sequential step

  /**
   * `AgentRunner.run_step`: pop the pending step and run it. Unless the
   * output is the last, its first successor becomes the pending step.
   */
  function SequentialStep(run: StepFunction, p: Progress): (r: Result<(TaskStepOutput, Progress), RunnerError>)
    ensures p.queue == [] ==> r == Err(NoPendingStepError)
    ensures r.Ok? ==> var (out, q) := r.value;
              && q.completed == p.completed + [out]
              && q.queue == p.queue[1..] + (if !out.isLast && out.nextSteps != [] then [out.nextSteps[0]] else [])
              && q.nextId >= p.nextId
  {
    if p.queue == [] then Err(NoPendingStepError)
    else
      match run(p.queue[0], p.extraState, p.memory, p.nextId)
      case Err(e) => Err(WorkerFailed(e))
      case Ok(o) =>
        var out := o.output;
        var next := if !out.isLast && out.nextSteps != [] then [out.nextSteps[0]] else [];
        Ok((out, Progress(o.extraState, o.memory, p.queue[1..] + next, p.completed + [out], p.nextId + |out.nextSteps|)))
  }

  /** A sequential step hands out only fresh ids, so a task's step ids stay distinct. */
  lemma SequentialStepKeepsIdsFresh(run: StepFunction, p: Progress)
    requires MintsFresh(run) && IdsFresh(p.completed, p.queue, p.nextId)
    requires SequentialStep(run, p).Ok?
    ensures var q := SequentialStep(run, p).value.1;
            IdsFresh(q.completed, q.queue, q.nextId)
  {
    var (out, q) := SequentialStep(run, p).value;
    var step := p.queue[0];
    assert MintsFreshIds(step, out, p.nextId);
    var next := if !out.isLast && out.nextSteps != [] then [out.nextSteps[0]] else [];
    var done := OutputIds(p.completed);
    var rest := StepIds(p.queue[1..]);
    assert OutputIds(q.completed) == done + [step.stepId] by {
      OutputIdsConcat(p.completed, [out]);
    }
    assert StepIds(q.queue) == rest + StepIds(next) by {
      StepIdsConcat(p.queue[1..], next);
    }
    assert StepIds(p.queue) == [step.stepId] + rest by {
      StepIdsConcat([step], p.queue[1..]);
      assert [step] + p.queue[1..] == p.queue;
    }
    calc {
      OutputIds(q.completed) + StepIds(q.queue);
      (done + [step.stepId]) + (rest + StepIds(next));
      { ConcatAssoc(done + [step.stepId], rest, StepIds(next)); }
      ((done + [step.stepId]) + rest) + StepIds(next);
      { ConcatAssoc(done, [step.stepId], rest); }
      (done + StepIds(p.queue)) + StepIds(next);
    }
    ConsecutiveIds(next, p.nextId, |out.nextSteps|);
    FreshIdsExtend(done + StepIds(p.queue), StepIds(next), p.nextId, |out.nextSteps|);
  }

  // ---------------------------------------------------------------------------
  // One parallel wave

  datatype Wave = Wave(outputs: seq<TaskStepOutput>, progress: Progress, error: Option<WorkerError>)

  /** The successors a wave's outputs enqueue: those of every output that is not the last. */
  function Enqueued(outputs: seq<TaskStepOutput>): seq<TaskStep>
  {
    if outputs == [] then []
    else (if outputs[0].isLast then [] else outputs[0].nextSteps) + Enqueued(outputs[1..])
  }

  lemma EnqueuedCons(out: TaskStepOutput, rest: seq<TaskStepOutput>)
    ensures Enqueued([out] + rest) == (if out.isLast then [] else out.nextSteps) + Enqueued(rest)
  {
    assert ([out] + rest)[1..] == rest;
  }

  lemma ConcatAssoc<T>(a: seq<T>, b: seq<T>, c: seq<T>)
    ensures (a + b) + c == a + (b + c)
  {
  }

  /** The snapshot after one step of a wave: its output recorded, its successors enqueued unless it was the last. */
  function Record(p: Progress, o: Outcome): (q: Progress)
    ensures q.completed == p.completed + [o.output]
    ensures q.queue == p.queue + (if o.output.isLast then [] else o.output.nextSteps)
    ensures q.extraState == o.extraState && q.memory == o.memory && q.nextId == p.nextId + |o.output.nextSteps|
  {
    Progress(o.extraState, o.memory, p.queue + (if o.output.isLast then [] else o.output.nextSteps),
             p.completed + [o.output], p.nextId + |o.output.nextSteps|)
  }

  /**
   * Run `steps` in order on `p`, recording each output and enqueueing its
   * successors as it goes; a worker error stops the wave and keeps what was
   * done before it.
   */
  function WaveFrom(run: StepFunction, steps: seq<TaskStep>, p: Progress): (r: Wave)
    ensures r.progress.completed == p.completed + r.outputs
    ensures r.progress.queue == p.queue + Enqueued(r.outputs)
    ensures r.error.None? ==> |r.outputs| == |steps|
    ensures |r.outputs| <= |steps|
    ensures r.progress.nextId >= p.nextId
  {
    if steps == [] then Wave([], p, None)
    else
      match run(steps[0], p.extraState, p.memory, p.nextId)
      case Err(e) => Wave([], p, Some(e))
      case Ok(o) =>
        var out := o.output;
        var rest := WaveFrom(run, steps[1..], Record(p, o));
        EnqueuedCons(out, rest.outputs);
        ConcatAssoc(p.completed, [out], rest.outputs);
        ConcatAssoc(p.queue, if out.isLast then [] else out.nextSteps, Enqueued(rest.outputs));
        Wave([out] + rest.outputs, rest.progress, rest.error)
  }

  /** The wave `wave` is `outputs` followed by the remaining wave `rest`. */
  ghost predicate Resumes(wave: Wave, outputs: seq<TaskStepOutput>, rest: Wave)
  {
    wave == Wave(outputs + rest.outputs, rest.progress, rest.error)
  }

  /** One turn of `run_steps_in_queue`'s loop: the next step either ends the wave with its error or is recorded. */
  lemma ResumeStep(run: StepFunction, rest: seq<TaskStep>, cur: Progress, outputs: seq<TaskStepOutput>, wave: Wave)
    requires rest != [] && Resumes(wave, outputs, WaveFrom(run, rest, cur))
    ensures var s := run(rest[0], cur.extraState, cur.memory, cur.nextId);
            && (s.Err? ==> wave == Wave(outputs, cur, Some(s.error)))
            && (s.Ok? ==> Resumes(wave, outputs + [s.value.output], WaveFrom(run, rest[1..], Record(cur, s.value))))
  {
    var s := run(rest[0], cur.extraState, cur.memory, cur.nextId);
    if s.Ok? {
      var tail := WaveFrom(run, rest[1..], Record(cur, s.value));
      ConcatAssoc(outputs, [s.value.output], tail.outputs);
    } else {
      assert outputs + [] == outputs;
    }
  }

  /**
   * `ParallelAgentRunner.run_steps_in_queue`: drain the queue, then run the
   * drained steps as one wave. Afterwards the queue holds only the successors
   * of the steps that ran; a failure at a drained step leaves the later
   * drained steps neither run nor re-queued.
   */
  function ParallelWave(run: StepFunction, p: Progress): (r: Wave)
    ensures r.progress.completed == p.completed + r.outputs
    ensures r.progress.queue == Enqueued(r.outputs)
    ensures |r.outputs| <= |p.queue| && (r.error.None? ==> |r.outputs| == |p.queue|)
  {
    WaveFrom(run, p.queue, p.(queue := []))
  }

  lemma {:induction false} WaveKeepsIdsFresh(run: StepFunction, steps: seq<TaskStep>, p: Progress)
    requires MintsFresh(run)
    requires FreshIds(OutputIds(p.completed) + StepIds(steps) + StepIds(p.queue), p.nextId)
    ensures var q := WaveFrom(run, steps, p).progress;
            IdsFresh(q.completed, q.queue, q.nextId)
    decreases |steps|
  {
    if steps == [] {
      assert OutputIds(p.completed) + StepIds(steps) + StepIds(p.queue) == OutputIds(p.completed) + StepIds(p.queue);
    } else if run(steps[0], p.extraState, p.memory, p.nextId).Err? {
      FreshIdsDropMiddle(OutputIds(p.completed), StepIds(steps), StepIds(p.queue), p.nextId);
    } else {
      var p1 := WaveStepIds(run, steps, p);
      WaveKeepsIdsFresh(run, steps[1..], p1);
    }
  }

  /** The first step of a wave keeps the wave's ids fresh; `p1` is the snapshot after it. */
  lemma WaveStepIds(run: StepFunction, steps: seq<TaskStep>, p: Progress) returns (p1: Progress)
    requires MintsFresh(run) && steps != [] && run(steps[0], p.extraState, p.memory, p.nextId).Ok?
    requires FreshIds(OutputIds(p.completed) + StepIds(steps) + StepIds(p.queue), p.nextId)
    ensures WaveFrom(run, steps[1..], p1) == WaveFrom(run, steps, p).(outputs := WaveFrom(run, steps, p).outputs[1..])
    ensures FreshIds(OutputIds(p1.completed) + StepIds(steps[1..]) + StepIds(p1.queue), p1.nextId)
  {
    var o := run(steps[0], p.extraState, p.memory, p.nextId).value;
    var out := o.output;
    var next := if out.isLast then [] else out.nextSteps;
    p1 := Record(p, o);
    assert MintsFreshIds(steps[0], out, p.nextId);
    var done := OutputIds(p.completed);
    var later := StepIds(steps[1..]);
    var queued := StepIds(p.queue);
    assert OutputIds(p1.completed) == done + [steps[0].stepId] by {
      OutputIdsConcat(p.completed, [out]);
    }
    assert StepIds(p1.queue) == queued + StepIds(next) by {
      StepIdsConcat(p.queue, next);
    }
    assert StepIds(steps) == [steps[0].stepId] + later by {
      StepIdsConcat([steps[0]], steps[1..]);
      assert [steps[0]] + steps[1..] == steps;
    }
    calc {
      OutputIds(p1.completed) + StepIds(steps[1..]) + StepIds(p1.queue);
      (done + [steps[0].stepId]) + later + (queued + StepIds(next));
      { ConcatAssoc((done + [steps[0].stepId]) + later, queued, StepIds(next)); }
      ((done + [steps[0].stepId]) + later + queued) + StepIds(next);
      { ConcatAssoc(done, [steps[0].stepId], later); }
      (done + StepIds(steps) + queued) + StepIds(next);
    }
    ConsecutiveIds(next, p.nextId, |out.nextSteps|);
    FreshIdsExtend(done + StepIds(steps) + queued, StepIds(next), p.nextId, |out.nextSteps|);
  }

  /** A wave's outputs are those of its steps, in queue order. */
  lemma {:induction false} WaveOutputsInOrder(run: StepFunction, steps: seq<TaskStep>, p: Progress)
    requires MintsFresh(run)
    ensures var w := WaveFrom(run, steps, p);
            forall i :: 0 <= i < |w.outputs| ==>
              w.outputs[i].taskStep.stepId == steps[i].stepId && w.outputs[i].taskStep.taskId == steps[i].taskId
    decreases |steps|
  {
    if steps != [] && run(steps[0], p.extraState, p.memory, p.nextId).Ok? {
      var o := run(steps[0], p.extraState, p.memory, p.nextId).value;
      assert MintsFreshIds(steps[0], o.output, p.nextId);
      var rest := WaveFrom(run, steps[1..], Record(p, o));
      WaveOutputsInOrder(run, steps[1..], Record(p, o));
      var w := WaveFrom(run, steps, p);
      assert w.outputs == [o.output] + rest.outputs;
      forall i | 1 <= i < |w.outputs|
        ensures w.outputs[i].taskStep.stepId == steps[i].stepId && w.outputs[i].taskStep.taskId == steps[i].taskId
      {
        assert w.outputs[i] == rest.outputs[i - 1] && steps[i] == steps[1..][i - 1];
      }
    }
  }

  lemma ConsecutiveIds(next: seq<TaskStep>, n: nat, k: nat)
    requires |next| <= k && forall i :: 0 <= i < |next| ==> next[i].stepId == n + i
    ensures forall i, j :: 0 <= i < j < |StepIds(next)| ==> StepIds(next)[i] != StepIds(next)[j]
    ensures forall i :: 0 <= i < |StepIds(next)| ==> n <= StepIds(next)[i] < n + k
  {
  }

  lemma StepIdsConcat(a: seq<TaskStep>, b: seq<TaskStep>)
    ensures StepIds(a + b) == StepIds(a) + StepIds(b)
  {
  }

  lemma OutputIdsConcat(a: seq<TaskStepOutput>, b: seq<TaskStepOutput>)
    ensures OutputIds(a + b) == OutputIds(a) + OutputIds(b)
  {
  }

  lemma FreshIdsDropMiddle(a: seq<nat>, b: seq<nat>, c: seq<nat>, n: nat)
    requires FreshIds(a + b + c, n)
    ensures FreshIds(a + c, n)
  {
    var xs := a + b + c;
    var ys := a + c;
    assert forall i :: 0 <= i < |ys| ==> ys[i] == xs[if i < |a| then i else i + |b|];
  }

  /** A wave hands out only fresh ids, so a task's step ids stay distinct. */
  lemma ParallelWaveKeepsIdsFresh(run: StepFunction, p: Progress)
    requires MintsFresh(run) && IdsFresh(p.completed, p.queue, p.nextId)
    ensures var q := ParallelWave(run, p).progress;
            IdsFresh(q.completed, q.queue, q.nextId)
  {
    assert OutputIds(p.completed) + StepIds(p.queue) + StepIds([]) == OutputIds(p.completed) + StepIds(p.queue);
    WaveKeepsIdsFresh(run, p.queue, p.(queue := []));
  }

  // ---------------------------------------------------------------------------
  // Creating a task and driving it to the end

  /** `create_task(input)`: a task with empty extra state, initialised by the worker, one step pending. */
  function Created(w: Worker, taskId: nat, input: string, memory: seq<ChatMessage>, nextId: nat): (r: Result<Progress, WorkerError>)
    ensures r.Ok? ==> |r.value.queue| == 1 && r.value.completed == [] && r.value.queue[0].stepId == nextId
                      && r.value.nextId == nextId + 1 && IdsFresh(r.value.completed, r.value.queue, r.value.nextId)
  {
    match InitialExtraState(w, map[], memory)
    case Err(e) => Err(e)
    case Ok(extraState) =>
      var r := Progress(extraState, memory, [TaskStep(taskId, nextId, input, InitialStepState(w))], [], nextId + 1);
      assert OutputIds(r.completed) + StepIds(r.queue) == [nextId];
      Ok(r)
  }

  /** How many more steps the pending step has before its counter reaches the worker's limit. */
  function Remaining(w: Worker, p: Progress): nat
  {
    if p.queue == [] then 0
    else
      var counter :=
        if w.ForkStepEngine? then (if p.queue[0].stepState.Some? then p.queue[0].stepState.value.counter else w.limit)
        else if "counter" in p.extraState then p.extraState["counter"] else w.limit;
      if w.limit - counter > 0 then w.limit - counter else 0
  }

  /**
   * With at most one step pending, every step that is not the last brings
   * each mock worker closer to its limit, and leaves at most one step pending.
   */
  lemma RemainingDecreases(w: Worker, p: Progress)
    requires |p.queue| <= 1
    requires SequentialStep(WorkerRun(w), p).Ok? && !SequentialStep(WorkerRun(w), p).value.0.isLast
    ensures var q := SequentialStep(WorkerRun(w), p).value.1;
            |q.queue| == 1 && Remaining(w, q) < Remaining(w, p)
  {
    var step := p.queue[0];
    var o := Run(w, step, p.extraState, p.memory, p.nextId).value;
    assert WorkerRun(w)(step, p.extraState, p.memory, p.nextId) == Run(w, step, p.extraState, p.memory, p.nextId);
    var q := SequentialStep(WorkerRun(w), p).value.1;
    assert q.queue == [o.output.nextSteps[0]];
    match w {
      case Counter(limit) =>
        assert o.extraState["counter"] == p.extraState["counter"] + 1 < limit;
      case CounterWithMemory(limit) =>
        assert o.extraState["counter"] == p.extraState["counter"] + 1 < limit;
      case ForkStepEngine(limit) =>
        assert q.queue[0].stepState.value.counter == step.stepState.value.counter + 1 < limit;
    }
  }

  /** `chat`'s loop: run steps until one is the last, and return that output. */
  function RunToEnd(w: Worker, p: Progress): (r: Result<(TaskStepOutput, Progress), RunnerError>)
    requires |p.queue| <= 1
    ensures r.Ok? ==> r.value.0.isLast && |r.value.1.completed| > |p.completed|
    decreases Remaining(w, p)
  {
    match SequentialStep(WorkerRun(w), p)
    case Err(e) => Err(e)
    case Ok(res) =>
      if res.0.isLast then Ok(res)
      else
        RemainingDecreases(w, p);
        RunToEnd(w, res.1)
  }

  /** One turn of `chat`'s loop. */
  lemma RunToEndUnfold(w: Worker, p: Progress)
    requires |p.queue| <= 1
    ensures var s := SequentialStep(WorkerRun(w), p);
            && (s.Err? ==> RunToEnd(w, p) == Err(s.error))
            && (s.Ok? && s.value.0.isLast ==> RunToEnd(w, p) == s)
            && (s.Ok? && !s.value.0.isLast ==> |s.value.1.queue| <= 1 && RunToEnd(w, p) == RunToEnd(w, s.value.1))
  {
    var s := SequentialStep(WorkerRun(w), p);
    if s.Ok? && !s.value.0.isLast {
      RemainingDecreases(w, p);
    }
  }

  // ---------------------------------------------------------------------------
  // The registry

  /** Records are filed under their task's id, ids are below the counters, and step ids are distinct per task. */
  ghost predicate RegistryValid(d: map<nat, TaskState>, nextTaskId: nat, nextStepId: nat)
  {
    forall id :: id in d ==>
      && d[id].task.taskId == id && id < nextTaskId
      && IdsFresh(d[id].completed, d[id].queue, nextStepId)
  }

  /** Raising the counters keeps the registry valid. */
  lemma RegistryRaise(d: map<nat, TaskState>, n0: nat, m0: nat, n: nat, m: nat)
    requires RegistryValid(d, n0, m0) && n0 <= n && m0 <= m
    ensures RegistryValid(d, n, m)
  {
  }

  /** Replacing a task's record by one for the same task with fresh ids keeps the registry valid. */
  lemma RegistryUpdate(d: map<nat, TaskState>, n: nat, m0: nat, m: nat, id: nat, rec: TaskState)
    requires RegistryValid(d, n, m0) && m0 <= m && id in d && rec.task == d[id].task
    requires IdsFresh(rec.completed, rec.queue, m)
    ensures RegistryValid(d[id := rec], n, m)
  {
    RegistryRaise(d, n, m0, n, m);
  }

  /** Filing a new task under the next task id keeps the registry valid. */
  lemma RegistryAdd(d: map<nat, TaskState>, n: nat, m0: nat, m: nat, rec: TaskState)
    requires RegistryValid(d, n, m0) && m0 <= m && rec.task.taskId == n
    requires IdsFresh(rec.completed, rec.queue, m)
    ensures RegistryValid(d[n := rec], n + 1, m)
  {
    RegistryRaise(d, n, m0, n + 1, m);
  }

  /** The tasks of the records of `d`, in ascending id order. */
  method TasksOf(d: map<nat, TaskState>, n: nat) returns (tasks: seq<Task>)
    requires forall k :: k in d ==> k < n && d[k].task.taskId == k
    ensures |tasks| == |d|
    ensures forall i :: 0 <= i < |tasks| ==> tasks[i].taskId in d && d[tasks[i].taskId].task == tasks[i]
    ensures forall i, j :: 0 <= i < j < |tasks| ==> tasks[i].taskId < tasks[j].taskId
  {
    tasks := [];
    for id := 0 to n
      invariant |tasks| == |set k | k in d && k < id|
      invariant forall i :: 0 <= i < |tasks| ==> tasks[i].taskId in d && d[tasks[i].taskId].task == tasks[i]
      invariant forall i :: 0 <= i < |tasks| ==> tasks[i].taskId < id
      invariant forall i, j :: 0 <= i < j < |tasks| ==> tasks[i].taskId < tasks[j].taskId
    {
      KeysBelowStep(d, id);
      if id in d {
        tasks := tasks + [d[id].task];
      }
    }
    KeysBelowAll(d, n);
  }

  lemma UpdateTwice<K, V>(m: map<K, V>, k: K, a: V, b: V)
    ensures m[k := a][k := b] == m[k := b]
  {
  }

  lemma KeysBelowStep<V>(m: map<nat, V>, id: nat)
    ensures |set k | k in m && k < id + 1| == |set k | k in m && k < id| + (if id in m then 1 else 0)
  {
    var below := set k | k in m && k < id;
    if id in m {
      assert (set k | k in m && k < id + 1) == below + {id};
    } else {
      assert (set k | k in m && k < id + 1) == below;
    }
  }

  lemma KeysBelowAll<V>(m: map<nat, V>, bound: nat)
    requires forall k :: k in m ==> k < bound
    ensures (set k | k in m && k < bound) == m.Keys
  {
  }

  class AgentState {
    var taskDict: map<nat, TaskState>
    var nextTaskId: nat
    var nextStepId: nat

    constructor ()
      ensures taskDict == map[] && Valid()
    {
      taskDict := map[];
      nextTaskId := 0;
      nextStepId := 0;
    }

    /** The registry invariant, `RegistryValid`, on the current fields. */
    ghost predicate Valid()
      reads this
    {
      RegistryValid(taskDict, nextTaskId, nextStepId)
    }

    /** One task's snapshot, with the memory it shares. */
    ghost function Snapshot(taskId: nat, memory: Memory): Progress
      requires taskId in taskDict
      reads this, taskDict[taskId].task, memory
    {
      var ts := taskDict[taskId];
      Progress(ts.task.extraState, memory.messages, ts.queue, ts.completed, nextStepId)
    }

    /** The task of record `ts` now stands at `p`, and no other record has changed. */
    twostate predicate Advanced(ts: TaskState, memory: Memory, p: Progress)
      reads this, ts.task, memory
    {
      && taskDict == old(taskDict)[ts.task.taskId := ts.(queue := p.queue, completed := p.completed)]
      && ts.task.extraState == p.extraState && memory.messages == p.memory
      && nextStepId == p.nextId && nextTaskId == old(nextTaskId)
    }

    /** `list_tasks`: every registered task, oldest first. */
    method ListTasks() returns (tasks: seq<Task>)
      requires Valid()
      ensures |tasks| == |taskDict|
      ensures forall i :: 0 <= i < |tasks| ==> tasks[i].taskId in taskDict && taskDict[tasks[i].taskId].task == tasks[i]
      ensures forall i, j :: 0 <= i < j < |tasks| ==> tasks[i].taskId < tasks[j].taskId
    {
      tasks := TasksOf(taskDict, nextTaskId);
    }

    /** `get_task(task_id)`. */
    method GetTask(taskId: nat) returns (r: Result<Task, RunnerError>)
      ensures taskId in taskDict ==> r == Ok(taskDict[taskId].task)
      ensures taskId !in taskDict ==> r == Err(TaskNotFoundError)
    {
      if taskId !in taskDict {
        return Err(TaskNotFoundError);
      }
      r := Ok(taskDict[taskId].task);
    }

    /** `state.reset()`: forget every task. */
    method Reset()
      requires Valid()
      modifies this
      ensures taskDict == map[] && nextTaskId == old(nextTaskId) && nextStepId == old(nextStepId) && Valid()
    {
      taskDict := map[];
    }
  }

  /**
   * `create_task(input)`, shared by both runners: register a fresh task on
   * the runner's memory, with the step the worker initialises pending. A
   * worker error leaves the registry without the task.
   */
  method CreateTaskIn(w: Worker, state: AgentState, memory: Memory, input: string) returns (r: Result<Task, RunnerError>)
    requires state.Valid()
    modifies state
    ensures state.Valid()
    ensures state.nextTaskId == old(state.nextTaskId) + 1 && state.nextStepId == old(state.nextStepId) + 1
    ensures var c := Created(w, old(state.nextTaskId), input, memory.messages, old(state.nextStepId));
            && (c.Err? ==> r == Err(WorkerFailed(c.error)) && state.taskDict == old(state.taskDict))
            && (c.Ok? ==>
                  && r.Ok? && fresh(r.value) && r.value.taskId == old(state.nextTaskId)
                  && r.value.input == input && r.value.memory == memory
                  && state.taskDict == old(state.taskDict)[r.value.taskId := TaskState(r.value, c.value.queue, [])]
                  && state.Snapshot(r.value.taskId, memory) == c.value)
  {
    ghost var d0, n0, m0 := state.taskDict, state.nextTaskId, state.nextStepId;
    var task := new Task(state.nextTaskId, input, memory);
    var stepId := state.nextStepId;
    state.nextTaskId := state.nextTaskId + 1;
    state.nextStepId := state.nextStepId + 1;
    ghost var c := Created(w, n0, input, memory.messages, m0);
    var first := InitializeStep(w, task, stepId);
    if first.Err? {
      assert c == Err(first.error);
      RegistryRaise(d0, n0, m0, n0 + 1, m0 + 1);
      return Err(WorkerFailed(first.error));
    }
    var rec := TaskState(task, [first.value], []);
    assert c == Ok(Progress(task.extraState, memory.messages, rec.queue, [], m0 + 1));
    RegistryAdd(d0, n0, m0, m0 + 1, rec);
    state.taskDict := state.taskDict[task.taskId := rec];
    assert state.Valid();
    assert state.Snapshot(task.taskId, memory) == c.value;
    r := Ok(task);
  }

  /**
   * Run one step on `task` and record its output: the output joins the
   * completed steps, its successors join the queue unless it is the last, and
   * the id counter moves past them. A worker error changes nothing.
   */
  method RecordStep(w: Worker, step: TaskStep, task: Task, queue: seq<TaskStep>, done: seq<TaskStepOutput>, id: nat)
    returns (out: Result<TaskStepOutput, WorkerError>, queue': seq<TaskStep>, done': seq<TaskStepOutput>, id': nat)
    modifies task, task.memory
    ensures var o := Run(w, step, old(task.extraState), old(task.memory.messages), id);
            && (o.Err? ==> out == Err(o.error) && task.extraState == old(task.extraState)
                           && task.memory.messages == old(task.memory.messages)
                           && queue' == queue && done' == done && id' == id)
            && (o.Ok? ==> out == Ok(o.value.output)
                          && Progress(task.extraState, task.memory.messages, queue', done', id')
                             == Record(Progress(old(task.extraState), old(task.memory.messages), queue, done, id), o.value))
  {
    queue', done', id' := queue, done, id;
    out := MockWorkers.RunStep(w, step, task, id);
    if out.Ok? {
      var o := out.value;
      done' := done + [o];
      if !o.isLast {
        queue' := queue + o.nextSteps;
      }
      id' := id + |o.nextSteps|;
    }
  }

  /** One recorded step of worker `w` keeps the wave resumable, or ends it with the step's error. */
  lemma ResumeRecorded(w: Worker, rest: seq<TaskStep>, cur: Progress, outputs: seq<TaskStepOutput>, all: Wave,
                       out: Result<TaskStepOutput, WorkerError>, next: Progress)
    requires rest != [] && Resumes(all, outputs, WaveFrom(WorkerRun(w), rest, cur))
    requires var o := Run(w, rest[0], cur.extraState, cur.memory, cur.nextId);
             && (o.Err? ==> out == Err(o.error) && next == cur)
             && (o.Ok? ==> out == Ok(o.value.output) && next == Record(cur, o.value))
    ensures out.Err? ==> all == Wave(outputs, next, Some(out.error))
    ensures out.Ok? ==> Resumes(all, outputs + [out.value], WaveFrom(WorkerRun(w), rest[1..], next))
  {
    var run := WorkerRun(w);
    assert run(rest[0], cur.extraState, cur.memory, cur.nextId) == Run(w, rest[0], cur.extraState, cur.memory, cur.nextId);
    ResumeStep(run, rest, cur, outputs, all);
  }

  /**
   * Run `steps` in order on `task` with nothing queued, as `run_steps_in_queue`
   * does once it has drained the queue; a worker error ends the wave.
   */
  method RunWave(w: Worker, steps: seq<TaskStep>, task: Task, completed: seq<TaskStepOutput>, nextId: nat) returns (wave: Wave)
    modifies task, task.memory
    ensures wave == WaveFrom(WorkerRun(w), steps, Progress(old(task.extraState), old(task.memory.messages), [], completed, nextId))
    ensures task.extraState == wave.progress.extraState && task.memory.messages == wave.progress.memory
  {
    ghost var all := WaveFrom(WorkerRun(w), steps, Progress(task.extraState, task.memory.messages, [], completed, nextId));
    var queue := [];
    var done := completed;
    var outputs := [];
    var id: nat := nextId;
    var rest := steps;
    while rest != []
      invariant Resumes(all, outputs, WaveFrom(WorkerRun(w), rest, Progress(task.extraState, task.memory.messages, queue, done, id)))
    {
      ghost var cur := Progress(task.extraState, task.memory.messages, queue, done, id);
      var out;
      out, queue, done, id := RecordStep(w, rest[0], task, queue, done, id);
      ResumeRecorded(w, rest, cur, outputs, all, out, Progress(task.extraState, task.memory.messages, queue, done, id));
      if out.Err? {
        return Wave(outputs, Progress(task.extraState, task.memory.messages, queue, done, id), Some(out.error));
      }
      outputs := outputs + [out.value];
      rest := rest[1..];
    }
    assert outputs + [] == outputs;
    wave := Wave(outputs, Progress(task.extraState, task.memory.messages, queue, done, id), None);
  }

  // ---------------------------------------------------------------------------
  // The runners

  /** `AgentRunner`: one step per call. */
  class AgentRunner {
    const worker: Worker
    const memory: Memory
    const state: AgentState

    constructor (worker: Worker)
      ensures this.worker == worker && fresh(memory) && fresh(state)
      ensures memory.messages == [] && state.taskDict == map[] && Valid()
    {
      this.worker := worker;
      memory := new Memory();
      state := new AgentState();
    }

    /** Every task shares the runner's memory and has at most one pending step. */
    ghost predicate Valid()
      reads this, state
    {
      && state.Valid()
      && forall id :: id in state.taskDict ==> state.taskDict[id].task.memory == memory && |state.taskDict[id].queue| <= 1
    }

    /** `run_step(task_id)`. */
    method RunStep(taskId: nat) returns (r: Result<TaskStepOutput, RunnerError>)
      requires Valid()
      modifies state, memory, if taskId in state.taskDict then {state.taskDict[taskId].task} else {}
      ensures Valid()
      ensures taskId !in old(state.taskDict) ==>
                r == Err(TaskNotFoundError) && unchanged(state) && unchanged(memory)
      ensures taskId in old(state.taskDict) ==>
                var ts := old(state.taskDict[taskId]);
                var s := SequentialStep(WorkerRun(worker), old(state.Snapshot(taskId, memory)));
                && (s.Err? ==> r == Err(s.error) && state.Advanced(ts, memory, old(state.Snapshot(taskId, memory))))
                && (s.Ok? ==> r == Ok(s.value.0) && state.Advanced(ts, memory, s.value.1))
                && taskId in state.taskDict && state.taskDict[taskId].task == ts.task
                && state.taskDict == old(state.taskDict)[taskId := state.taskDict[taskId]]
                && state.Snapshot(taskId, memory) == (if s.Ok? then s.value.1 else old(state.Snapshot(taskId, memory)))
    {
      if taskId !in state.taskDict {
        return Err(TaskNotFoundError);
      }
      var ts := state.taskDict[taskId];
      ghost var p := state.Snapshot(taskId, memory);
      ghost var d0 := state.taskDict;
      if ts.queue == [] {
        return Err(NoPendingStepError);
      }
      var step := ts.queue[0];
      var out := MockWorkers.RunStep(worker, step, ts.task, state.nextStepId);
      if out.Err? {
        return Err(WorkerFailed(out.error));
      }
      var o := out.value;
      var next := if !o.isLast && o.nextSteps != [] then [o.nextSteps[0]] else [];
      state.taskDict := state.taskDict[taskId := ts.(queue := ts.queue[1..] + next, completed := ts.completed + [o])];
      state.nextStepId := state.nextStepId + |o.nextSteps|;
      WorkerRunMintsFresh(worker);
      SequentialStepKeepsIdsFresh(WorkerRun(worker), p);
      RegistryUpdate(d0, state.nextTaskId, p.nextId, state.nextStepId, taskId, state.taskDict[taskId]);
      r := Ok(o);
    }

    /** `create_task(input)`. */
    method CreateTask(input: string) returns (r: Result<Task, RunnerError>)
      requires Valid()
      modifies state
      ensures Valid()
      ensures state.nextTaskId == old(state.nextTaskId) + 1 && state.nextStepId == old(state.nextStepId) + 1
      ensures var c := Created(worker, old(state.nextTaskId), input, memory.messages, old(state.nextStepId));
              && (c.Err? ==> r == Err(WorkerFailed(c.error)) && state.taskDict == old(state.taskDict))
              && (c.Ok? ==>
                    && r.Ok? && fresh(r.value) && r.value.taskId == old(state.nextTaskId)
                    && r.value.input == input && r.value.memory == memory
                    && state.taskDict == old(state.taskDict)[r.value.taskId := TaskState(r.value, c.value.queue, [])]
                    && state.Snapshot(r.value.taskId, memory) == c.value)
    {
      r := CreateTaskIn(worker, state, memory, input);
    }

    /** `list_tasks()`. */
    method ListTasks() returns (tasks: seq<Task>)
      requires Valid()
      ensures |tasks| == |state.taskDict|
      ensures forall i :: 0 <= i < |tasks| ==> tasks[i].taskId in state.taskDict && state.taskDict[tasks[i].taskId].task == tasks[i]
      ensures forall i, j :: 0 <= i < j < |tasks| ==> tasks[i].taskId < tasks[j].taskId
    {
      tasks := state.ListTasks();
    }

    /** `get_task(task_id)`. */
    method GetTask(taskId: nat) returns (r: Result<Task, RunnerError>)
      ensures taskId in state.taskDict ==> r == Ok(state.taskDict[taskId].task)
      ensures taskId !in state.taskDict ==> r == Err(TaskNotFoundError)
    {
      r := state.GetTask(taskId);
    }

    /** `chat(input)`: create a task and run its steps until the last, returning that output's text. */
    method Chat(input: string) returns (r: Result<string, RunnerError>)
      requires Valid()
      modifies state, memory
      ensures Valid() && state.nextTaskId == old(state.nextTaskId) + 1
      ensures var c := Created(worker, old(state.nextTaskId), input, old(memory.messages), old(state.nextStepId));
              && (c.Err? ==> r == Err(WorkerFailed(c.error)) && state.taskDict == old(state.taskDict))
              && (c.Ok? ==>
                    var e := RunToEnd(worker, c.value);
                    && old(state.nextTaskId) in state.taskDict
                    && state.taskDict == old(state.taskDict)[old(state.nextTaskId) := state.taskDict[old(state.nextTaskId)]]
                    && (e.Err? ==> r == Err(e.error))
                    && (e.Ok? ==> r == Ok(e.value.0.output) && memory.messages == e.value.1.memory
                                  && state.Snapshot(old(state.nextTaskId), memory) == e.value.1))
    {
      var created := CreateTask(input);
      if created.Err? {
        return Err(created.error);
      }
      var task := created.value;
      var taskId := task.taskId;
      ghost var p0 := state.Snapshot(taskId, memory);
      ghost var before := old(state.taskDict);
      while true
        invariant Valid() && taskId in state.taskDict && state.taskDict[taskId].task == task
        invariant state.nextTaskId == old(state.nextTaskId) + 1
        invariant state.taskDict == before[taskId := state.taskDict[taskId]]
        invariant RunToEnd(worker, state.Snapshot(taskId, memory)) == RunToEnd(worker, p0)
        decreases Remaining(worker, state.Snapshot(taskId, memory))
      {
        ghost var ts := state.taskDict[taskId];
        ghost var p := state.Snapshot(taskId, memory);
        ghost var s := SequentialStep(WorkerRun(worker), p);
        RunToEndUnfold(worker, p);
        ghost var d := state.taskDict;
        var step := RunStep(taskId);
        UpdateTwice(before, taskId, d[taskId], state.taskDict[taskId]);
        if step.Err? {
          return Err(step.error);
        }
        if step.value.isLast {
          return Ok(step.value.output);
        }
        RemainingDecreases(worker, p);
      }
    }

    /** `reset()`: clear the memory and the registry. */
    method Reset()
      requires Valid()
      modifies state, memory
      ensures Valid() && state.taskDict == map[] && memory.messages == []
      ensures state.nextTaskId == old(state.nextTaskId) && state.nextStepId == old(state.nextStepId)
    {
      memory.Reset();
      state.Reset();
    }
  }

  /** `ParallelAgentRunner`: the whole queue per call. */
  class ParallelAgentRunner {
    const worker: Worker
    const memory: Memory
    const state: AgentState

    constructor (worker: Worker)
      ensures this.worker == worker && fresh(memory) && fresh(state)
      ensures memory.messages == [] && state.taskDict == map[] && Valid()
    {
      this.worker := worker;
      memory := new Memory();
      state := new AgentState();
    }

    ghost predicate Valid()
      reads this, state
    {
      && state.Valid()
      && forall id :: id in state.taskDict ==> state.taskDict[id].task.memory == memory
    }

    /** `create_task(input)`. */
    method CreateTask(input: string) returns (r: Result<Task, RunnerError>)
      requires Valid()
      modifies state
      ensures Valid()
      ensures state.nextTaskId == old(state.nextTaskId) + 1 && state.nextStepId == old(state.nextStepId) + 1
      ensures var c := Created(worker, old(state.nextTaskId), input, memory.messages, old(state.nextStepId));
              && (c.Err? ==> r == Err(WorkerFailed(c.error)) && state.taskDict == old(state.taskDict))
              && (c.Ok? ==>
                    && r.Ok? && fresh(r.value) && r.value.taskId == old(state.nextTaskId)
                    && r.value.input == input && r.value.memory == memory
                    && state.taskDict == old(state.taskDict)[r.value.taskId := TaskState(r.value, c.value.queue, [])]
                    && state.Snapshot(r.value.taskId, memory) == c.value)
    {
      r := CreateTaskIn(worker, state, memory, input);
    }

    /**
     * `run_steps_in_queue(task_id)`: the outputs of the steps pending at the
     * call, in queue order; their successors form the next queue.
     */
    method RunStepsInQueue(taskId: nat) returns (r: Result<seq<TaskStepOutput>, RunnerError>)
      requires Valid()
      modifies state, memory, if taskId in state.taskDict then {state.taskDict[taskId].task} else {}
      ensures Valid()
      ensures taskId !in old(state.taskDict) ==>
                r == Err(TaskNotFoundError) && unchanged(state) && unchanged(memory)
      ensures taskId in old(state.taskDict) ==>
                var ts := old(state.taskDict[taskId]);
                var wave := ParallelWave(WorkerRun(worker), old(state.Snapshot(taskId, memory)));
                && state.Advanced(ts, memory, wave.progress)
                && r == (if wave.error.None? then Ok(wave.outputs) else Err(WorkerFailed(wave.error.value)))
                && taskId in state.taskDict && state.taskDict[taskId].task == ts.task
                && state.taskDict == old(state.taskDict)[taskId := state.taskDict[taskId]]
                && state.Snapshot(taskId, memory) == wave.progress
    {
      if taskId !in state.taskDict {
        return Err(TaskNotFoundError);
      }
      var ts := state.taskDict[taskId];
      ghost var p := state.Snapshot(taskId, memory);
      var wave := RunWave(worker, ts.queue, ts.task, ts.completed, state.nextStepId);
      state.taskDict := state.taskDict[taskId := ts.(queue := wave.progress.queue, completed := wave.progress.completed)];
      state.nextStepId := wave.progress.nextId;
      WorkerRunMintsFresh(worker);
      ParallelWaveKeepsIdsFresh(WorkerRun(worker), p);
      RegistryUpdate(old(state.taskDict), state.nextTaskId, p.nextId, state.nextStepId, taskId, state.taskDict[taskId]);
      r := if wave.error.None? then Ok(wave.outputs) else Err(WorkerFailed(wave.error.value));
    }

    /** `reset()`: clear the memory and the registry. */
    method Reset()
      requires Valid()
      modifies state, memory
      ensures Valid() && state.taskDict == map[] && memory.messages == []
      ensures state.nextTaskId == old(state.nextTaskId) && state.nextStepId == old(state.nextStepId)
    {
      memory.Reset();
      state.Reset();
    }
  }
}
