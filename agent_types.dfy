/**
 * The values and objects the agent runner and its workers share: memory,
 * tasks, steps and step outputs.
 */
module AgentTypes {
  import opened Wrappers

  const UserRole := "user"

  datatype ChatMessage = ChatMessage(role: string, content: string)

  /** Long-lived conversation memory, shared by every task of a runner. */
  class Memory {
    var messages: seq<ChatMessage>

    constructor ()
      ensures messages == []
    {
      messages := [];
    }

    /** `memory.put(message)`. */
    method Put(message: ChatMessage)
      modifies this
      ensures messages == old(messages) + [message]
    {
      messages := messages + [message];
    }

    /** `memory.reset()`. */
    method Reset()
      modifies this
      ensures messages == []
    {
      messages := [];
    }
  }

  /** A task: its id, its input, the runner's memory and a mutable extra-state bag. */
  class Task {
    const taskId: nat
    const input: string
    const memory: Memory
    var extraState: map<string, int>

    constructor (taskId: nat, input: string, memory: Memory)
      ensures this.taskId == taskId && this.input == input && this.memory == memory
      ensures extraState == map[]
    {
      this.taskId := taskId;
      this.input := input;
      this.memory := memory;
      extraState := map[];
    }
  }

  /** The step state the fork engine keeps: `{"num": ..., "counter": ...}`. */
  datatype ForkState = ForkState(num: string, counter: int)

  /** A step; the counter workers leave the step state empty (`None`). */
  datatype TaskStep = TaskStep(taskId: nat, stepId: nat, input: string, stepState: Option<ForkState>)

  /** `step.get_next_step(step_id, step_state)`: same task and input, a new id. */
  function NextStep(step: TaskStep, stepId: nat, stepState: Option<ForkState>): TaskStep
  {
    TaskStep(step.taskId, stepId, step.input, stepState)
  }

  /** A step's result; `output` is the text of the response. */
  datatype TaskStepOutput = TaskStepOutput(output: string, taskStep: TaskStep, isLast: bool, nextSteps: seq<TaskStep>)
}
