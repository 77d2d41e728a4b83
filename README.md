# A verified model of four llama-index components

This project models, in Dafny, four small pieces of the llama-index repository and proves what their code and
tests promise of them.

- **Agent runner and its mock workers** (`agent_types.dfy`, `agent_workers.dfy`, `agent_runner.dfy`,
  `agent_properties.dfy`, `agent_scenarios.dfy`).
  - The three workers of the runner test are modelled step for step: the counter worker, the counter worker with
    memory and the binary fork engine. One difference: a step that fails changes nothing in the model (see
    "## Left out").
  - `AgentRunner` runs one pending step per call. `ParallelAgentRunner` runs the whole queue of pending steps, one
    "wave" per call.
  - The runners are classes over a shared task registry (`task_dict` with its step queues and append-only
    `completed_steps`) and a shared conversation memory.
  - Every step is specified by a function on a snapshot of the task (`SequentialStep`, `ParallelWave`, `RunToEnd`).
  - The three tests become methods whose postconditions are the tests' assertions.
  - Step ids, which the workers mint with `uuid4`, are drawn from a counter on the registry. The model proves that the
    ids of a task's completed and queued steps stay pairwise distinct.
- **Bedrock Converse helpers** (`bedrock_types.dfy`, `bedrock_models.dfy`, `bedrock_messages.dfy`, `bedrock_tools.dfy`,
  `bedrock_join.dfy`). Covered are:
  - the model tables;
  - the conversion of chat messages into Converse messages plus a system prompt;
  - the merging of consecutive messages of one role;
  - the tool-spec fallback;
  - `force_single_tool_call`;
  - the recursive `join_two_dicts`.
- **Milvus filter expressions** (`milvus_filter.dfy`).
  - `_to_milvus_filter` renders standard metadata filters and Milvus scalar filters as boolean expression strings.
  - Its source (the Milvus vector store's `base.py`) is not part of this model. The renderer follows the exact
    strings the vector store's tests pin, and each of those strings is proved as a lemma.
- **Azure chat store** (`azure_chat_store.dfy`, with `lex_order.dfy`).
  - The two Azure tables are maps from (PartitionKey, RowKey) to an entity.
  - The class's methods update them as the store's methods do.
  - Lemmas prove that the per-key metadata (`MessageCount`, `LastMessageRowKey`) stays consistent with the stored
    rows, and that reading a key back returns the messages written.
  - `set_messages` as written is refused by the service on a key that already holds messages (see "## Findings");
    the intended replacement is modelled beside it.

`text.dfy` holds the Python string builtins these rely on: `str(int)`, `int(str)`, `f"{i:0{w}}"`, `strip()` and
`join`. `wrappers.dfy` holds `Option` and `Result`.

The runner's own source (`llama_index/core/agent/runner/base.py` and `parallel.py`, and `TaskStep.get_next_step`) is
not part of this model. Its behaviour is taken from what the test observes, with these choices where the test is silent:
- the sequential runner enqueues the first successor of a step that is not the last;
- the parallel runner runs every queued step in queue order and enqueues the successors of each non-terminal output;
- `chat` creates a task and runs steps until one is the last.

## Model

| member | source | states |
|---|---|---|
| AgentTypes.Memory.constructor | llama-index-core/tests/agent/runner/test_base.py:186 | A runner's memory starts empty. |
| AgentTypes.Memory.Put | llama-index-core/tests/agent/runner/test_base.py:104-105 | `memory.put` appends the message after the existing ones. |
| AgentTypes.Memory.Reset | llama-index-core/tests/agent/runner/test_base.py:223-225 | After a reset the memory holds no message. |
| AgentTypes.Task.constructor | llama-index-core/tests/agent/runner/test_base.py:189-191 | A new task keeps its id, its input and the runner's shared memory, and starts with empty extra state. |
| MockWorkers.Run | llama-index-core/tests/agent/runner/test_base.py:37-50 | Every worker's output keeps the identity of the step it answers. Its successors belong to the same task and input and take fresh ids from the next id upward. There are at most two successors. |
| MockWorkers.InitialExtraStateMeaning | llama-index-core/tests/agent/runner/test_base.py:80-88 | `initialize_step` fails with ValueError exactly for the memory worker whose last memory message is not an integer. Both counters set `counter` to 0. The memory worker sets `start` to that integer, or to 0 for an empty memory. The fork engine leaves the extra state as it is, and no other key changes. |
| MockWorkers.InitialStepState | llama-index-core/tests/agent/runner/test_base.py:123-131 | Only the fork engine gives its first step a step state, and that state is number "0" with counter 0. |
| MockWorkers.CounterOutputReadsBack | llama-index-core/tests/agent/runner/test_base.py:46 | The output is "counter: " followed by text that `int()` reads back as the counter. |
| MockWorkers.InitializeStep | llama-index-core/tests/agent/runner/test_base.py:26-35 | On success the task's extra state becomes the worker's initial state and the step returned is the task's first step with the given id. On a worker error nothing changes. |
| MockWorkers.RunStep | llama-index-core/tests/agent/runner/test_base.py:37-50 | The task's extra state and memory become exactly what the worker's step computes. On a worker error both are left as they were. |
| MockWorkers.CounterStep | llama-index-core/tests/agent/runner/test_base.py:37-50 | The counter goes up by one and the output is `counter: c`. The step is the last iff c reaches the limit. It has exactly one successor and the memory is untouched. |
| MockWorkers.MemoryWorkerStart | llama-index-core/tests/agent/runner/test_base.py:80-94 | The memory worker starts its counter at 0 and its start at the integer in the last memory message, or at 0 when the memory is empty. |
| MockWorkers.MemoryWorkerStep | llama-index-core/tests/agent/runner/test_base.py:96-112 | The counter goes up by one and the output reports start + counter. The final value is put in memory as a user message on the last step only. |
| MockWorkers.ForkFanOut | llama-index-core/tests/agent/runner/test_base.py:134-161 | The output is the step's `num`, and the step state carries the incremented counter. The step is the last iff that counter reaches the limit, and then it has no successor. Otherwise it has exactly two, numbered `num`+"0" and `num`+"1" with the incremented counter. |
| MockWorkers.SuccessorIdsDistinct | llama-index-core/tests/agent/runner/test_base.py:43 | The successors' step ids strictly increase from the next id, so they are distinct and fresh. |
| AgentRunners.WorkerRunMintsFresh | llama-index-core/tests/agent/runner/test_base.py:142-154 | Each of the three workers mints fresh successor ids. |
| AgentRunners.WorkerRun | llama-index-core/tests/agent/runner/test_base.py:37-50 | Every worker's `run_step`, as a step function, keeps the step's task, id and input and numbers its successors from the next free id. |
| AgentRunners.SequentialStep | llama-index-core/tests/agent/runner/test_base.py:194-208 | An empty queue gives `NoPendingStepError`. Otherwise the output is appended to the completed steps; the head of the queue is removed, followed by the first successor unless the step was the last; ids only grow. |
| AgentRunners.SequentialStepKeepsIdsFresh | llama-index-core/tests/agent/runner/test_base.py:194-208 | After a step, the ids of all completed and queued steps are still pairwise distinct and below the next id. |
| AgentRunners.Record | llama-index-core/tests/agent/runner/test_base.py:246-259 | Recording one output of a wave appends it to the completed steps and, unless the output is the last, enqueues its successors. |
| AgentRunners.WaveFrom | llama-index-core/tests/agent/runner/test_base.py:246-259 | A wave appends its outputs to the completed steps and their successors to the queue. Without an error it has one output per queued step. |
| AgentRunners.WaveKeepsIdsFresh | llama-index-core/tests/agent/runner/test_base.py:246-259 | Running a wave keeps every id of the task distinct and below the next id. |
| AgentRunners.WaveOutputsInOrder | llama-index-core/tests/agent/runner/test_base.py:253-259 | The i-th output of a wave answers the i-th queued step: same step id and task. |
| AgentRunners.ParallelWave | llama-index-core/tests/agent/runner/test_base.py:246-259 | The task's completed steps gain the wave's outputs. The queue ends up holding exactly the successors of the outputs that are not last. Without an error every drained step ran; otherwise no more steps ran than were drained. |
| AgentRunners.ParallelWaveKeepsIdsFresh | llama-index-core/tests/agent/runner/test_base.py:246-259 | `run_steps_in_queue` keeps the task's ids pairwise distinct. |
| AgentRunners.Created | llama-index-core/tests/agent/runner/test_base.py:189-191 | A new task has one queued step carrying the next id, and nothing completed. |
| AgentRunners.RemainingDecreases | llama-index-core/tests/agent/runner/test_base.py:212-215 | A step that is not the last leaves one step queued and brings the task strictly closer to its end, so `chat` terminates. |
| AgentRunners.RunToEnd | llama-index-core/tests/agent/runner/test_base.py:212-215 | `chat` ends with an output that is the last, having completed at least one more step. |
| AgentRunners.RunToEndUnfold | llama-index-core/tests/agent/runner/test_base.py:212-215 | `chat` stops at the first error or last step, and otherwise continues from the state after the step. |
| AgentRunners.AgentState.constructor | llama-index-core/tests/agent/runner/test_base.py:186 | The registry starts empty. |
| AgentRunners.AgentState.ListTasks | llama-index-core/tests/agent/runner/test_base.py:200 | Every registered task appears exactly once, oldest first. |
| AgentRunners.AgentState.GetTask | llama-index-core/tests/agent/runner/test_base.py:201 | The registered task for its id, or `TaskNotFoundError`. |
| AgentRunners.AgentState.Reset | llama-index-core/tests/agent/runner/test_base.py:223-225 | The registry is empty, and the id counters are not reused. |
| AgentRunners.RunWave | llama-index-core/tests/agent/runner/test_base.py:246-259 | The loop over the queued steps computes exactly the wave the specification function describes, leaving the task's state as the wave's. |
| AgentRunners.AgentRunner.constructor | llama-index-core/tests/agent/runner/test_base.py:186 | A runner starts with an empty memory and registry over the given worker. |
| AgentRunners.AgentRunner.RunStep | llama-index-core/tests/agent/runner/test_base.py:194-208 | An unknown task id gives `TaskNotFoundError` and changes nothing. Otherwise the task advances exactly as `SequentialStep` says and every other task is untouched. The registry's invariant is kept. |
| AgentRunners.AgentRunner.CreateTask | llama-index-core/tests/agent/runner/test_base.py:189-191 | The new task keeps the input and shares the memory, and it is registered under a fresh id with its first step queued; a worker error registers nothing. |
| AgentRunners.AgentRunner.ListTasks | llama-index-core/tests/agent/runner/test_base.py:200 | Every registered task exactly once, oldest first. |
| AgentRunners.AgentRunner.GetTask | llama-index-core/tests/agent/runner/test_base.py:201 | The registered task, or `TaskNotFoundError`. |
| AgentRunners.AgentRunner.Chat | llama-index-core/tests/agent/runner/test_base.py:212-215 | One new task is registered and others are untouched. It is run until its last step, and the answer is that step's output. The memory and the task end as `RunToEnd` says. |
| AgentRunners.AgentRunner.Reset | llama-index-core/tests/agent/runner/test_base.py:223-225 | `reset` empties both the memory and the registry. |
| AgentRunners.ParallelAgentRunner.constructor | llama-index-core/tests/agent/runner/test_base.py:240 | A parallel runner starts with an empty memory and registry. |
| AgentRunners.ParallelAgentRunner.CreateTask | llama-index-core/tests/agent/runner/test_base.py:243 | As for the sequential runner: a fresh id with the first step queued. |
| AgentRunners.ParallelAgentRunner.RunStepsInQueue | llama-index-core/tests/agent/runner/test_base.py:246-259 | An unknown task id gives `TaskNotFoundError`. Otherwise the whole queue runs as one wave; the outputs come back in queue order, or the worker's error does. The task advances exactly as `ParallelWave` says. |
| AgentRunners.ParallelAgentRunner.Reset | llama-index-core/tests/agent/runner/test_base.py:223-225 | The memory and the registry are empty. |
| AgentProperties.SequentialSteps | llama-index-core/tests/agent/runner/test_base.py:194-208 | k consecutive steps add k completed steps, the last of which is the output returned. |
| AgentProperties.FinalCount | llama-index-core/tests/agent/runner/test_base.py:39-41 | The counter at which a counter worker stops is above the current one and at least the limit: one more, or the limit. |
| AgentProperties.CounterSequentialStep | llama-index-core/tests/agent/runner/test_base.py:194-208 | A runner step with the counter worker makes the counter c + 1 and outputs `counter: c+1`. It is the last iff the limit is reached, and it leaves the memory untouched and one step queued unless last. |
| AgentProperties.CounterSteps | llama-index-core/tests/agent/runner/test_base.py:26-50 | After k steps, the counter has risen by k, the step is the last iff the limit is reached, and the memory is untouched. |
| AgentProperties.CounterStepsOutput | llama-index-core/tests/agent/runner/test_base.py:26-50 | The k-th step's output is `counter: c` for the counter c it reached. |
| AgentProperties.CounterAfterSteps | llama-index-core/tests/agent/runner/test_base.py:26-50 | From a new task, k steps (k at most the limit) leave the counter at k, with k steps completed. The last output is `counter: k` and is the last iff k reaches the limit. |
| AgentProperties.CounterRunToEnd | llama-index-core/tests/agent/runner/test_base.py:212-215 | `chat` with the counter worker stops at the final count, with `counter: f` as the answer and an empty queue. |
| AgentProperties.ChatCounter | llama-index-core/tests/agent/runner/test_base.py:212-215 | A chat with limit L answers `counter: L` (1 when L < 1), and the memory is unchanged. |
| AgentProperties.MemorySequentialStep | llama-index-core/tests/agent/runner/test_base.py:96-112 | A runner step with the memory worker reports start + counter. On the last step only, it appends that value to the memory. |
| AgentProperties.MemoryRunToEnd | llama-index-core/tests/agent/runner/test_base.py:96-112 | A chat with the memory worker answers start + final count with the value appended to memory. |
| AgentProperties.ChatMemory | llama-index-core/tests/agent/runner/test_base.py:218-235 | A fresh chat with the memory worker continues from the value in the last memory message: it answers `counter: start+L` and appends that value. |
| AgentProperties.DagFirstWave | llama-index-core/tests/agent/runner/test_base.py:246-250 | The first wave of the fork engine returns one output, `num` "0", which is not the last. It queues "00" and "01". |
| AgentProperties.DagSecondWave | llama-index-core/tests/agent/runner/test_base.py:253-259 | The second wave returns "00" then "01", both the last, and empties the queue. |
| AgentProperties.DagWaves | llama-index-core/tests/agent/runner/test_base.py:238-259 | From task creation, the two waves give those outputs with three steps completed. |
| AgentScenarios.TestAgent | llama-index-core/tests/agent/runner/test_base.py:184-208 | `test_agent`, first part: counter 1 with `counter: 1` and not last; one task listed and the same task returned; counter 2 with `counter: 2`, last, two steps completed. |
| AgentScenarios.TestAgentChat | llama-index-core/tests/agent/runner/test_base.py:212-215 | `chat` with limit 10 answers `counter: 10` and leaves one task registered. |
| AgentScenarios.ResetAndChat | llama-index-core/tests/agent/runner/test_base.py:223-231 | After a reset, a chat answers `counter: 10` with one task and one memory message. |
| AgentScenarios.ChatAgain | llama-index-core/tests/agent/runner/test_base.py:232-235 | The next chat answers `counter: 20` with two tasks and two memory messages. |
| AgentScenarios.TestAgentWithReset | llama-index-core/tests/agent/runner/test_base.py:218-235 | The four rounds answer 10, 20, 10, 20, with task and memory counts 1, 2, 1, 2. |
| AgentScenarios.TestDagAgent | llama-index-core/tests/agent/runner/test_base.py:238-259 | `test_dag_agent`: "0" not last; then "00" and "01", both last; three steps completed. |
| Text.NatToDigitsShape | llama-index-integrations/storage/chat_store/llama-index-storage-chat-store-azure/llama_index/storage/chat_store/azure/base.py:359-361 | `str(n)` is a non-empty string of digits without a leading zero. |
| Text.IntToString | llama-index-core/tests/agent/runner/test_base.py:46 | `str(i)` is non-empty and starts with '-' exactly when `i` is negative. The rest is at least one decimal digit. |
| Text.ParseInt | llama-index-core/tests/agent/runner/test_base.py:84 | `int(s)` succeeds exactly on a non-empty run of ASCII digits with at most one leading sign. Without a '-' the value is not negative, and with one it is not positive. |
| Text.ParseIntOfIntToString | llama-index-core/tests/agent/runner/test_base.py:84-105 | `int(str(i)) == i` for every integer: the value the memory worker writes is the value it reads back. |
| Text.IntToStringInjective | llama-index-core/tests/agent/runner/test_base.py:46 | Distinct counters give distinct texts. |
| Text.FormatZeroPadded | llama-index-integrations/storage/chat_store/llama-index-storage-chat-store-azure/llama_index/storage/chat_store/azure/base.py:359-361 | `f"{i:0{w}}"` is at least w characters wide. |
| Text.ParseIntOfZeroPadded | llama-index-integrations/storage/chat_store/llama-index-storage-chat-store-azure/llama_index/storage/chat_store/azure/base.py:310 | `int(f"{i:0{w}}") == i` for every integer, negatives included. |
| Text.FormatZeroPaddedInjective | llama-index-integrations/storage/chat_store/llama-index-storage-chat-store-azure/llama_index/storage/chat_store/azure/base.py:359-361 | Distinct integers give distinct zero-padded texts. |
| Text.Strip | llama-index-integrations/llms/llama-index-llms-bedrock-converse/llama_index/llms/bedrock_converse/utils.py:146 | `strip()` returns the slice left after removing only whitespace from both ends; it neither starts nor ends with whitespace. |
| LexOrder.LexLeReflexive | llama-index-integrations/storage/chat_store/llama-index-storage-chat-store-azure/llama_index/storage/chat_store/azure/base.py:207-211 | Row-key order is reflexive. |
| LexOrder.LexLeTotal | llama-index-integrations/storage/chat_store/llama-index-storage-chat-store-azure/llama_index/storage/chat_store/azure/base.py:207-211 | Row-key order is total. |
| LexOrder.LexLeAntisymmetric | llama-index-integrations/storage/chat_store/llama-index-storage-chat-store-azure/llama_index/storage/chat_store/azure/base.py:207-211 | Row-key order is antisymmetric. |
| LexOrder.LexLeTransitive | llama-index-integrations/storage/chat_store/llama-index-storage-chat-store-azure/llama_index/storage/chat_store/azure/base.py:207-211 | Row-key order is transitive. |
| LexOrder.SortedOfSorted | llama-index-integrations/storage/chat_store/llama-index-storage-chat-store-azure/llama_index/storage/chat_store/azure/base.py:207-211 | The rows of a partition, as the service lists them, are strictly sorted and are exactly the given keys. |
| LexOrder.SortedUnique | llama-index-integrations/storage/chat_store/llama-index-storage-chat-store-azure/llama_index/storage/chat_store/azure/base.py:207-211 | Only one strictly sorted sequence has a given set of elements. |
| LexOrder.SortKeys | llama-index-integrations/storage/chat_store/llama-index-storage-chat-store-azure/llama_index/storage/chat_store/azure/base.py:322-325 | The method lists a set of keys in strictly increasing order, each exactly once. |
| LexOrder.ZeroPadIsFixedDigits | llama-index-integrations/storage/chat_store/llama-index-storage-chat-store-azure/llama_index/storage/chat_store/azure/base.py:359-361 | Zero-padding n to width w, for n < 10^w, gives n's w-digit representation. |
| LexOrder.FixedDigitsOrdered | llama-index-integrations/storage/chat_store/llama-index-storage-chat-store-azure/llama_index/storage/chat_store/azure/base.py:359-361 | Smaller numbers have smaller w-digit representations in string order. |
| AzureChatStore.RowKey | llama-index-integrations/storage/chat_store/llama-index-storage-chat-store-azure/llama_index/storage/chat_store/azure/base.py:359-361 | A row key is at least 10 characters wide. |
| AzureChatStore.RowKeyParses | llama-index-integrations/storage/chat_store/llama-index-storage-chat-store-azure/llama_index/storage/chat_store/azure/base.py:310 | `int(_to_row_key(i)) == i` for every integer. |
| AzureChatStore.RowKeyInjective | llama-index-integrations/storage/chat_store/llama-index-storage-chat-store-azure/llama_index/storage/chat_store/azure/base.py:359-361 | Distinct indices give distinct row keys. |
| AzureChatStore.RowKeyOfMinusOne | llama-index-integrations/storage/chat_store/llama-index-storage-chat-store-azure/llama_index/storage/chat_store/azure/base.py:196 | Setting an empty list stores `-000000001` as the last row key. |
| AzureChatStore.RowKeysOrdered | llama-index-integrations/storage/chat_store/llama-index-storage-chat-store-azure/llama_index/storage/chat_store/azure/base.py:359-361 | For indices in [0, 10^10), row keys are 10 characters and ordered as the indices are, so the service lists messages in index order. |
| AzureChatStore.DefaultMetadata | llama-index-integrations/storage/chat_store/llama-index-storage-chat-store-azure/llama_index/storage/chat_store/azure/base.py:363-370 | A key without a metadata record counts 0 messages, and its last row key is `rowkey(0)`, that is `0000000000`. |
| AzureChatStore.MetadataOrDefault | llama-index-integrations/storage/chat_store/llama-index-storage-chat-store-azure/llama_index/storage/chat_store/azure/base.py:372-382 | The stored metadata record of the key when it exists, and otherwise a record counting 0 messages whose last row key is `rowkey(0)`. |
| AzureChatStore.Partition | llama-index-integrations/storage/chat_store/llama-index-storage-chat-store-azure/llama_index/storage/chat_store/azure/base.py:167 | The entities of one key's partition, and no other. |
| AzureChatStore.OtherPartitions | llama-index-integrations/storage/chat_store/llama-index-storage-chat-store-azure/llama_index/storage/chat_store/azure/base.py:252-255 | Every entity outside the key's partition, and no other. |
| AzureChatStore.RowKeysOf | llama-index-integrations/storage/chat_store/llama-index-storage-chat-store-azure/llama_index/storage/chat_store/azure/base.py:167 | The row keys present in a key's partition. |
| AzureChatStore.RowsContents | llama-index-integrations/storage/chat_store/llama-index-storage-chat-store-azure/llama_index/storage/chat_store/azure/base.py:168-185 | `set_messages` writes message i at row key i of the key's partition, and nothing else. |
| AzureChatStore.MessagesAt | llama-index-integrations/storage/chat_store/llama-index-storage-chat-store-azure/llama_index/storage/chat_store/azure/base.py:207-211 | Reading rows returns the entities at the given keys, in order. |
| AzureChatStore.MessagesIn | llama-index-integrations/storage/chat_store/llama-index-storage-chat-store-azure/llama_index/storage/chat_store/azure/base.py:202-211 | `get_messages` gives one message per row of the partition, and every row's message is among them. |
| AzureChatStore.ReadRows | llama-index-integrations/storage/chat_store/llama-index-storage-chat-store-azure/llama_index/storage/chat_store/azure/base.py:207-211 | The loop over the queried rows returns those entities in order. |
| AzureChatStore.RowKeySeqSorted | llama-index-integrations/storage/chat_store/llama-index-storage-chat-store-azure/llama_index/storage/chat_store/azure/base.py:359-361 | The row keys of indices 0 to n-1 are strictly sorted. |
| AzureChatStore.RowKeysOfRows | llama-index-integrations/storage/chat_store/llama-index-storage-chat-store-azure/llama_index/storage/chat_store/azure/base.py:168-185 | A partition written by `set_messages` holds exactly the row keys of indices 0 to n-1. |
| AzureChatStore.RowsReadBack | llama-index-integrations/storage/chat_store/llama-index-storage-chat-store-azure/llama_index/storage/chat_store/azure/base.py:202-211 | Reading a partition laid out as `set_messages` writes returns exactly the messages, in order. |
| AzureChatStore.RowsNamedTwice | llama-index-integrations/storage/chat_store/llama-index-storage-chat-store-azure/llama_index/storage/chat_store/azure/base.py:167-185 | A row is named twice in `set_messages`' transaction exactly when it is in the key's partition and among the rows being created. |
| AzureChatStore.ResetOfNonEmptyChatIsRejected | llama-index-integrations/storage/chat_store/llama-index-storage-chat-store-azure/llama_index/storage/chat_store/azure/base.py:161-185 | On a key that holds messages, setting a non-empty list names row `rowkey(0)` both in a DELETE and in a CREATE. |
| AzureChatStore.PartitionOfSet | llama-index-integrations/storage/chat_store/llama-index-storage-chat-store-azure/llama_index/storage/chat_store/azure/base.py:161-185 | After the replacement (`ReplaceMessages`, or a `set_messages` whose transaction is accepted) the key's partition is exactly the new rows. |
| AzureChatStore.SetMessagesConsistent | llama-index-integrations/storage/chat_store/llama-index-storage-chat-store-azure/llama_index/storage/chat_store/azure/base.py:161-200 | After the replacement, rows and metadata agree: count n, last row key `rowkey(n-1)`. |
| AzureChatStore.DeleteMessagesConsistent | llama-index-integrations/storage/chat_store/llama-index-storage-chat-store-azure/llama_index/storage/chat_store/azure/base.py:247-263 | After `delete_messages`, rows and the default metadata agree on an empty chat. |
| AzureChatStore.AppendConsistent | llama-index-integrations/storage/chat_store/llama-index-storage-chat-store-azure/llama_index/storage/chat_store/azure/base.py:213-245 | When rows and metadata agree, the row at `MessageCount` is free, and appending there keeps them in agreement. |
| AzureChatStore.DeleteLastConsistent | llama-index-integrations/storage/chat_store/llama-index-storage-chat-store-azure/llama_index/storage/chat_store/azure/base.py:292-315 | When rows and metadata agree on a non-empty chat, `LastMessageRowKey` parses to n-1. Deleting that row keeps them in agreement on the first n-1 messages. |
| AzureChatStore.RowsDropLast | llama-index-integrations/storage/chat_store/llama-index-storage-chat-store-azure/llama_index/storage/chat_store/azure/base.py:307 | Removing the last row of n leaves the rows of the first n-1 messages. |
| AzureChatStore.SetThenGet | llama-index-integrations/storage/chat_store/llama-index-storage-chat-store-azure/llama_index/storage/chat_store/azure/base.py:161-211 | `get_messages` after the replacement returns exactly the messages set. |
| AzureChatStore.AppendThenGet | llama-index-integrations/storage/chat_store/llama-index-storage-chat-store-azure/llama_index/storage/chat_store/azure/base.py:213-245 | `get_messages` after appending returns the old messages followed by the new one. |
| AzureChatStore.DeleteLastThenGet | llama-index-integrations/storage/chat_store/llama-index-storage-chat-store-azure/llama_index/storage/chat_store/azure/base.py:292-315 | `get_messages` after `delete_last_message` returns all but the last message. |
| AzureChatStore.OtherPartitionUnchanged | llama-index-integrations/storage/chat_store/llama-index-storage-chat-store-azure/llama_index/storage/chat_store/azure/base.py:284 | Creating, deleting or clearing rows of one key leaves every other key's partition as it was. |
| AzureChatStore.DeleteEntities | llama-index-integrations/storage/chat_store/llama-index-storage-chat-store-azure/llama_index/storage/chat_store/azure/base.py:252-255 | The deletion loop removes exactly the key's partition. |
| AzureChatStore.AzureChatStore.constructor | llama-index-integrations/storage/chat_store/llama-index-storage-chat-store-azure/llama_index/storage/chat_store/azure/base.py:52-63 | The metadata partition key defaults to the chat table's name. |
| AzureChatStore.AzureChatStore.SetMessages | llama-index-integrations/storage/chat_store/llama-index-storage-chat-store-azure/llama_index/storage/chat_store/azure/base.py:161-200 | As written. The transaction fails with `TableTransactionError`, leaving both tables unchanged, exactly when it would delete and create the same row. Otherwise the key's partition is replaced by the messages at row keys 0..n-1, other partitions are kept, and the metadata becomes count n and last row key `rowkey(n-1)`. |
| AzureChatStore.AzureChatStore.ReplaceMessages | llama-index-integrations/storage/chat_store/llama-index-storage-chat-store-azure/llama_index/storage/chat_store/azure/base.py:161-200 | The intended replacement, always accepted. The key's partition becomes the messages at row keys 0..n-1, other partitions are kept, and the metadata becomes count n and last row key `rowkey(n-1)`. |
| AzureChatStore.AzureChatStore.GetMessages | llama-index-integrations/storage/chat_store/llama-index-storage-chat-store-azure/llama_index/storage/chat_store/azure/base.py:202-211 | The messages of the key's partition in row-key order. |
| AzureChatStore.AzureChatStore.AddMessage | llama-index-integrations/storage/chat_store/llama-index-storage-chat-store-azure/llama_index/storage/chat_store/azure/base.py:213-245 | An index beyond `MessageCount` raises `ValueError` before any write, and missing metadata counts as 0. An occupied row raises `ResourceExistsError`. Otherwise the message is written at the index (by default `MessageCount`) and the metadata becomes count + 1 with that row key as the last. |
| AzureChatStore.AzureChatStore.DeleteMessages | llama-index-integrations/storage/chat_store/llama-index-storage-chat-store-azure/llama_index/storage/chat_store/azure/base.py:247-263 | Every row of the key is removed and the metadata reset to the default: count 0, `rowkey(0)`. |
| AzureChatStore.AzureChatStore.DeleteMessage | llama-index-integrations/storage/chat_store/llama-index-storage-chat-store-azure/llama_index/storage/chat_store/azure/base.py:265-290 | Missing metadata raises `ResourceNotFoundError`, and an index at or beyond the count changes nothing. Otherwise the row is deleted; the metadata changes (count - 1, `rowkey(idx-1)`) only when the last index was deleted. |
| AzureChatStore.AzureChatStore.DeleteLastMessage | llama-index-integrations/storage/chat_store/llama-index-storage-chat-store-azure/llama_index/storage/chat_store/azure/base.py:292-315 | Missing metadata raises `ResourceNotFoundError`. Otherwise the row at `LastMessageRowKey` is deleted, the count drops by one, and the last row key moves down by one, clamped at 0. An unparsable last row key raises `ValueError` after the deletion. |
| AzureChatStore.AzureChatStore.GetKeys | llama-index-integrations/storage/chat_store/llama-index-storage-chat-store-azure/llama_index/storage/chat_store/azure/base.py:317-325 | Exactly the row keys of the metadata partition, each once, in row-key order. |
| BedrockModels.Lookup | llama-index-integrations/llms/llama-index-llms-bedrock-converse/llama_index/llms/bedrock_converse/utils.py:62-69 | Lookup fails exactly for names not in the table; otherwise it returns a size the table pairs with the name. |
| BedrockModels.LookupAt | llama-index-integrations/llms/llama-index-llms-bedrock-converse/llama_index/llms/bedrock_converse/utils.py:19-45 | The first entry of a name is the one its lookup returns. |
| BedrockModels.ContextSizeIn | llama-index-integrations/llms/llama-index-llms-bedrock-converse/llama_index/llms/bedrock_converse/utils.py:62-69 | Succeeds iff the name is a known model, with the table's size. Otherwise it raises `ValueError` with the unknown-model message. |
| BedrockModels.ModelNamesDistinct | llama-index-integrations/llms/llama-index-llms-bedrock-converse/llama_index/llms/bedrock_converse/utils.py:19-45 | The model table has no repeated name, as dictionary keys. |
| BedrockModels.ContextSizeOfKnownModel | llama-index-integrations/llms/llama-index-llms-bedrock-converse/llama_index/llms/bedrock_converse/utils.py:62-69 | Every listed model has its listed context size. |
| BedrockModels.FunctionCallingIndex | llama-index-integrations/llms/llama-index-llms-bedrock-converse/llama_index/llms/bedrock_converse/utils.py:47-55 | Each function-calling model is a key of the model table, with a context size of at least 32000. |
| BedrockModels.IsFunctionCallingModel | llama-index-integrations/llms/llama-index-llms-bedrock-converse/llama_index/llms/bedrock_converse/utils.py:58-59 | Every function-calling model is a model listed in the context-size table. |
| BedrockModels.FunctionCallingModelsKnown | llama-index-integrations/llms/llama-index-llms-bedrock-converse/llama_index/llms/bedrock_converse/utils.py:58-69 | A name that `is_bedrock_function_calling_model` accepts has a context size, of at least 32000. |
| BedrockModels.UnknownModelMessageNamesModel | llama-index-integrations/llms/llama-index-llms-bedrock-converse/llama_index/llms/bedrock_converse/utils.py:63-67 | For an unknown name the error message starts with `Unknown model: ` followed by the name. |
| BedrockModels.UnknownModelMessage | llama-index-integrations/llms/llama-index-llms-bedrock-converse/llama_index/llms/bedrock_converse/utils.py:64-67 | The message opens with "Unknown model: " followed by the model's name. |
| BedrockTools.ToolSpecOf | llama-index-integrations/llms/llama-index-llms-bedrock-converse/llama_index/llms/bedrock_converse/utils.py:160-182 | A tool's own truthy name and description are used as they are. Otherwise the metadata's are used, or for a function tool the function's name and docstring. A spec, when produced, has a non-empty name and description and the tool's parameters. Otherwise it is the `ValueError`. |
| BedrockTools.FunctionToolFallback | llama-index-integrations/llms/llama-index-llms-bedrock-converse/llama_index/llms/bedrock_converse/utils.py:164-171 | A function tool without a name or description takes its function's name and docstring. |
| BedrockTools.ToolsToConverseTools | llama-index-integrations/llms/llama-index-llms-bedrock-converse/llama_index/llms/bedrock_converse/utils.py:159-183 | Succeeds iff every tool has a spec, giving one spec per tool in order; otherwise the `ValueError`. |
| BedrockTools.SingleToolCall | llama-index-integrations/llms/llama-index-llms-bedrock-converse/llama_index/llms/bedrock_converse/utils.py:186-189 | At most one tool call remains, the original first. A list of at most one, or no list, is untouched. The other arguments are kept. |
| BedrockTools.SingleToolCallIdempotent | llama-index-integrations/llms/llama-index-llms-bedrock-converse/llama_index/llms/bedrock_converse/utils.py:186-189 | Forcing a single tool call twice is the same as once. |
| BedrockTools.ChatResponse.constructor | llama-index-integrations/llms/llama-index-llms-bedrock-converse/llama_index/llms/bedrock_converse/utils.py:186 | A response holds the given message. |
| BedrockTools.ChatResponse.ForceSingleToolCall | llama-index-integrations/llms/llama-index-llms-bedrock-converse/llama_index/llms/bedrock_converse/utils.py:186-189 | Only the message's tool calls change, to the single-call form. |
| BedrockMessages.MergeStepProperties | llama-index-integrations/llms/llama-index-llms-bedrock-converse/llama_index/llms/bedrock_converse/utils.py:77-84 | One iteration appends the message's content, and adds its role unless it repeats the last one. Messages that had no adjacent repeats still have none. |
| BedrockMessages.MergeStep | llama-index-integrations/llms/llama-index-llms-bedrock-converse/llama_index/llms/bedrock_converse/utils.py:78-84 | A step grows the output by at most one message and keeps every message before the last one. The output then ends with the new message's role. |
| BedrockMessages.Merged | llama-index-integrations/llms/llama-index-llms-bedrock-converse/llama_index/llms/bedrock_converse/utils.py:72-85 | Merging never lengthens the list, and a non-empty input gives an output whose last role is the input's last role. |
| BedrockMessages.MergedContents | llama-index-integrations/llms/llama-index-llms-bedrock-converse/llama_index/llms/bedrock_converse/utils.py:72-85 | Merging keeps the concatenation of all content lists, in order. |
| BedrockMessages.MergedNoRepeats | llama-index-integrations/llms/llama-index-llms-bedrock-converse/llama_index/llms/bedrock_converse/utils.py:72-85 | After merging, no two adjacent messages share a role, the output is never longer, and the last role is kept. |
| BedrockMessages.MergedRoles | llama-index-integrations/llms/llama-index-llms-bedrock-converse/llama_index/llms/bedrock_converse/utils.py:72-85 | The merged roles are the input's roles with each run of one role collapsed to one. |
| BedrockMessages.MergedProperties | llama-index-integrations/llms/llama-index-llms-bedrock-converse/llama_index/llms/bedrock_converse/utils.py:72-85 | No adjacent repeats, no longer, the same contents, runs of roles collapsed. |
| BedrockMessages.MergedUnchanged | llama-index-integrations/llms/llama-index-llms-bedrock-converse/llama_index/llms/bedrock_converse/utils.py:72-85 | Messages with no adjacent repeated role are returned as they are. |
| BedrockMessages.MergedIdempotent | llama-index-integrations/llms/llama-index-llms-bedrock-converse/llama_index/llms/bedrock_converse/utils.py:72-85 | Merging twice is merging once. |
| BedrockMessages.MergeMessage | llama-index-integrations/llms/llama-index-llms-bedrock-converse/llama_index/llms/bedrock_converse/utils.py:78-84 | One iteration of the loop: the same-role test and the extension or append, as `MergeStep` specifies. |
| BedrockMessages.MergeCommonRoleMsgs | llama-index-integrations/llms/llama-index-llms-bedrock-converse/llama_index/llms/bedrock_converse/utils.py:72-85 | The loop computes the merge: no adjacent repeats, no longer, same contents. |
| BedrockMessages.ToolUseBlocks | llama-index-integrations/llms/llama-index-llms-bedrock-converse/llama_index/llms/bedrock_converse/utils.py:134-139 | Every tool call becomes one `toolUse` item, in order, when none lacks a key. Otherwise the assertion of the first call that lacks `toolUseId`, `input` or `name` (checked in that order) fails. |
| BedrockMessages.ConvertMessage | llama-index-integrations/llms/llama-index-llms-bedrock-converse/llama_index/llms/bedrock_converse/utils.py:108-144 | A tool or function message becomes a `user` message with one `toolResult` carrying `tool_call_id` and the content. The status is carried, unchanged, only when truthy, and a missing `tool_call_id` is a `KeyError`. Any other message keeps its role; when its content is non-empty the first block is that text, otherwise no text block comes first; then one `toolUse` per tool call follows in order. It fails iff a tool call lacks a key. |
| BedrockMessages.ConvertAll | llama-index-integrations/llms/llama-index-llms-bedrock-converse/llama_index/llms/bedrock_converse/utils.py:102-144 | The loop gives at most one Converse message per chat message. When it fails, the error is one that some message raises. |
| BedrockMessages.ConvertAllMeaning | llama-index-integrations/llms/llama-index-llms-bedrock-converse/llama_index/llms/bedrock_converse/utils.py:102-144 | The loop's system prompt is the system contents, each followed by a newline. It produces one converted message per non-system message, in order. |
| BedrockMessages.ConvertAllError | llama-index-integrations/llms/llama-index-llms-bedrock-converse/llama_index/llms/bedrock_converse/utils.py:102-144 | The conversion fails iff some message fails, and then with the first failing message's error. |
| BedrockMessages.ConvertAllErrorSticks | llama-index-integrations/llms/llama-index-llms-bedrock-converse/llama_index/llms/bedrock_converse/utils.py:102-144 | Once a prefix of the messages fails, the whole conversion fails with that error. |
| BedrockMessages.SystemPrompt | llama-index-integrations/llms/llama-index-llms-bedrock-converse/llama_index/llms/bedrock_converse/utils.py:103-146 | The returned system prompt is the stripped concatenation of the system contents, each followed by a newline, and the returned messages have no adjacent repeated role. |
| BedrockMessages.NoSystemMessages | llama-index-integrations/llms/llama-index-llms-bedrock-converse/llama_index/llms/bedrock_converse/utils.py:103-146 | No returned Converse message has the role `system`. |
| BedrockMessages.ConvertToolCalls | llama-index-integrations/llms/llama-index-llms-bedrock-converse/llama_index/llms/bedrock_converse/utils.py:134-139 | The loop over the tool calls computes `ToolUseBlocks`. |
| BedrockMessages.MessagesToConverseMessages | llama-index-integrations/llms/llama-index-llms-bedrock-converse/llama_index/llms/bedrock_converse/utils.py:88-146 | The method computes the merged Converse messages and the stripped system prompt, or the first error. |
| BedrockMessages.MessagesToConverse | llama-index-integrations/llms/llama-index-llms-bedrock-converse/llama_index/llms/bedrock_converse/utils.py:88-146 | On success, adjacent Converse messages differ in role and there are no more of them than chat messages. On failure the error is one that some message raises. |
| BedrockJoin.AddInPlace | llama-index-integrations/llms/llama-index-llms-bedrock-converse/llama_index/llms/bedrock_converse/utils.py:271 | `+=` succeeds exactly for int + int, str + str and list + list or str, and otherwise is a `TypeError`. |
| BedrockJoin.JoinInto | llama-index-integrations/llms/llama-index-llms-bedrock-converse/llama_index/llms/bedrock_converse/utils.py:268-269 | Joining into a dictionary fails exactly when the dictionaries' join fails, and otherwise gives that join. A list survives only an empty dictionary, unchanged. Anything else raises TypeError. |
| BedrockJoin.Entry | llama-index-integrations/llms/llama-index-llms-bedrock-converse/llama_index/llms/bedrock_converse/utils.py:265-271 | Errors are TypeError. A key found only in dict2 whose value is not a dictionary is added to itself. |
| BedrockJoin.JoinDicts | llama-index-integrations/llms/llama-index-llms-bedrock-converse/llama_index/llms/bedrock_converse/utils.py:252-272 | The join fails with TypeError exactly when some entry of dict2 fails. Otherwise its keys are those of both dicts, and a key only in dict1 keeps its value. |
| BedrockJoin.JoinTwoDicts | llama-index-integrations/llms/llama-index-llms-bedrock-converse/llama_index/llms/bedrock_converse/utils.py:252-272 | The method, as written, computes `JoinDicts`. |
| BedrockJoin.CombineEntry | llama-index-integrations/llms/llama-index-llms-bedrock-converse/llama_index/llms/bedrock_converse/utils.py:265-271 | One iteration computes the joined entry for the key. |
| BedrockJoin.JoinValue | llama-index-integrations/llms/llama-index-llms-bedrock-converse/llama_index/llms/bedrock_converse/utils.py:268-269 | The recursive call on a value that may not be a dictionary computes `JoinInto`. |
| BedrockJoin.JoinWithEmpty | llama-index-integrations/llms/llama-index-llms-bedrock-converse/llama_index/llms/bedrock_converse/utils.py:263 | Joining with an empty dictionary returns a copy of the first. |
| BedrockJoin.JoinShape | llama-index-integrations/llms/llama-index-llms-bedrock-converse/llama_index/llms/bedrock_converse/utils.py:263-272 | The result's keys are the union of the inputs' keys, and a key only in dict1 keeps its value. A shared non-dict key gets dict1[k] + dict2[k], and a shared dict key is joined recursively. |
| BedrockJoin.NewKeysCombineWithThemselves | llama-index-integrations/llms/llama-index-llms-bedrock-converse/llama_index/llms/bedrock_converse/utils.py:265-267 | As written, a key only in dict2 is combined with itself: joining into {} equals joining dict2 with dict2. |
| BedrockJoin.IntDictsSum | llama-index-integrations/llms/llama-index-llms-bedrock-converse/llama_index/llms/bedrock_converse/utils.py:263-272 | On integer dictionaries every key gets dict1's value plus dict2's, and a key only in dict2 gets twice its value. |
| BedrockJoin.JoinExamples | llama-index-integrations/llms/llama-index-llms-bedrock-converse/llama_index/llms/bedrock_converse/utils.py:263-272 | 1 + 2 = 3; int + str is a `TypeError`; a list extended by a string gains its characters. |
| BedrockJoin.NewKeyDoubled | llama-index-integrations/llms/llama-index-llms-bedrock-converse/llama_index/llms/bedrock_converse/utils.py:265-267 | `join_two_dicts({}, {"n": 1})` is `{"n": 2}`. |
| BedrockJoin.IntendedJoinAddsNewKeys | llama-index-integrations/llms/llama-index-llms-bedrock-converse/llama_index/llms/bedrock_converse/utils.py:254 | The corrected join also has the union of the keys and keeps keys only in dict1. It adds a key only in dict2 with its own value and sums shared keys as before. |
| BedrockJoin.IntendedJoinIntoEmpty | llama-index-integrations/llms/llama-index-llms-bedrock-converse/llama_index/llms/bedrock_converse/utils.py:254 | The corrected join of {} and a dictionary is that dictionary. |
| MilvusFilter.SingleFilterUnwrapped | llama-index-integrations/vector_stores/llama-index-vector-stores-milvus/tests/test_vector_stores_milvus.py:55-57 | A single filter renders on its own, without parentheses, whatever the condition. |
| MilvusFilter.FilterExpr | llama-index-integrations/vector_stores/llama-index-vector-stores-milvus/tests/test_vector_stores_milvus.py:55-157 | Comparison, membership and `like` expressions begin with the key and a space. `array_contains`, `array_contains_any` and `array_contains_all` expressions are calls that close with ')'. |
| MilvusFilter.ScalarFilterShape | llama-index-integrations/vector_stores/llama-index-vector-stores-milvus/tests/test_vector_stores_milvus.py:22-51 | ARRAY_CONTAINS is a call on the key. ARRAY_LENGTH of the key is compared with `==`. NARRAY_CONTAINS is "not " before the ARRAY_CONTAINS expression on the same key and value. |
| MilvusFilter.Combine | llama-index-integrations/vector_stores/llama-index-vector-stores-milvus/tests/test_vector_stores_milvus.py:160-179 | One part is returned unchanged; several are joined by the separator and parenthesised. |
| MilvusFilter.CombineOpensWithFirst | llama-index-integrations/vector_stores/llama-index-vector-stores-milvus/tests/test_vector_stores_milvus.py:160-179 | With several parts the expression opens with '(' and the first part, and closes with ')'. |
| MilvusFilter.ToMilvusFilter | llama-index-integrations/vector_stores/llama-index-vector-stores-milvus/tests/test_vector_stores_milvus.py:55-179 | No filter gives the empty expression. One filter gives its own expression, whatever the condition. Several give a parenthesised expression. |
| MilvusFilter.ToMilvusScalarFilter | llama-index-integrations/vector_stores/llama-index-vector-stores-milvus/tests/test_vector_stores_milvus.py:22-51 | No scalar filter gives the empty expression. One gives its own expression, and several give a parenthesised expression. |
| MilvusFilter.TwoFiltersJoined | llama-index-integrations/vector_stores/llama-index-vector-stores-milvus/tests/test_vector_stores_milvus.py:160-179 | Two filters render as `(f <sep> g)`, the separator being the condition's ` and ` or ` or `. |
| MilvusFilter.SeveralFiltersParenthesised | llama-index-integrations/vector_stores/llama-index-vector-stores-milvus/tests/test_vector_stores_milvus.py:160-179 | With several filters, the expression opens with `(` and the first filter's expression, and closes with `)`. |
| MilvusFilter.StringOperandQuoted | llama-index-integrations/vector_stores/llama-index-vector-stores-milvus/tests/test_vector_stores_milvus.py:130-133 | A string operand of a comparison is single-quoted. |
| MilvusFilter.ScalarList | llama-index-integrations/vector_stores/llama-index-vector-stores-milvus/tests/test_vector_stores_milvus.py:40-51 | One scalar filter renders unwrapped; two are parenthesised and joined by ` and `. |
| MilvusFilter.ScalarArrayContainsDefault | llama-index-integrations/vector_stores/llama-index-vector-stores-milvus/tests/test_vector_stores_milvus.py:22-28 | The default scalar operator renders `ARRAY_CONTAINS(a, 1)`. |
| MilvusFilter.ScalarNotArrayContains | llama-index-integrations/vector_stores/llama-index-vector-stores-milvus/tests/test_vector_stores_milvus.py:30-38 | `NARRAY_CONTAINS` renders `not ARRAY_CONTAINS(a, 1)`. |
| MilvusFilter.ScalarFiltersJoinedByAnd | llama-index-integrations/vector_stores/llama-index-vector-stores-milvus/tests/test_vector_stores_milvus.py:40-51 | The pair renders `(not ARRAY_CONTAINS(a, 'b') and ARRAY_LENGTH(c) == 2)`. |
| MilvusFilter.EqualityOperators | llama-index-integrations/vector_stores/llama-index-vector-stores-milvus/tests/test_vector_stores_milvus.py:55-63 | EQ (the default) renders `a == 1`, NE renders `a != 1`. |
| MilvusFilter.GreaterOperators | llama-index-integrations/vector_stores/llama-index-vector-stores-milvus/tests/test_vector_stores_milvus.py:65-75 | GT renders `a > 1`, GTE renders `a >= 1`. |
| MilvusFilter.LessOperators | llama-index-integrations/vector_stores/llama-index-vector-stores-milvus/tests/test_vector_stores_milvus.py:77-87 | LT renders `a < 1`, LTE renders `a <= 1`. |
| MilvusFilter.OneTwoThree | llama-index-integrations/vector_stores/llama-index-vector-stores-milvus/tests/test_vector_stores_milvus.py:89-93 | The list `[1, 2, 3]` renders with ", " between bare integers. |
| MilvusFilter.InOperator | llama-index-integrations/vector_stores/llama-index-vector-stores-milvus/tests/test_vector_stores_milvus.py:89-93 | IN renders `a in [1, 2, 3]`. |
| MilvusFilter.NotInOperator | llama-index-integrations/vector_stores/llama-index-vector-stores-milvus/tests/test_vector_stores_milvus.py:95-99 | NIN renders `a not in [1, 2, 3]`. |
| MilvusFilter.TextMatchOperator | llama-index-integrations/vector_stores/llama-index-vector-stores-milvus/tests/test_vector_stores_milvus.py:101-109 | TEXT_MATCH renders `a like 'substring%'`. |
| MilvusFilter.ContainsOperator | llama-index-integrations/vector_stores/llama-index-vector-stores-milvus/tests/test_vector_stores_milvus.py:111-115 | CONTAINS renders `array_contains(a, 1)`, and with a string `array_contains(a, 'hello')`. |
| MilvusFilter.AnyIntegers | llama-index-integrations/vector_stores/llama-index-vector-stores-milvus/tests/test_vector_stores_milvus.py:117-121 | ANY renders `array_contains_any(a, [1, 2])`. |
| MilvusFilter.AllIntegers | llama-index-integrations/vector_stores/llama-index-vector-stores-milvus/tests/test_vector_stores_milvus.py:123-127 | ALL renders `array_contains_all(a, [1, 2])`. |
| MilvusFilter.StringEquality | llama-index-integrations/vector_stores/llama-index-vector-stores-milvus/tests/test_vector_stores_milvus.py:130-133 | A string value renders quoted: `a == 'hello'`. |
| MilvusFilter.YouMe | llama-index-integrations/vector_stores/llama-index-vector-stores-milvus/tests/test_vector_stores_milvus.py:143-149 | String list elements are single-quoted: `['you', 'me']`. |
| MilvusFilter.AnyStrings | llama-index-integrations/vector_stores/llama-index-vector-stores-milvus/tests/test_vector_stores_milvus.py:143-149 | ANY over strings renders `array_contains_any(a, ['you', 'me'])`. |
| MilvusFilter.AllStrings | llama-index-integrations/vector_stores/llama-index-vector-stores-milvus/tests/test_vector_stores_milvus.py:151-157 | ALL over strings renders `array_contains_all(a, ['you', 'me'])`. |
| MilvusFilter.MultipleFiltersAnd | llama-index-integrations/vector_stores/llama-index-vector-stores-milvus/tests/test_vector_stores_milvus.py:160-169 | Two filters under AND render `(a >= 1 and a <= 10)`. |
| MilvusFilter.MultipleFiltersOr | llama-index-integrations/vector_stores/llama-index-vector-stores-milvus/tests/test_vector_stores_milvus.py:171-179 | Two filters under OR render `(a < 1 or a > 10)`. |

## Left out

- The runner's source (`AgentRunner`, `ParallelAgentRunner`, `TaskStep.get_next_step`) is not part of this model. The runners are modelled from what the runner test observes of them, not from their code.
- Step ids are counters on the registry instead of `uuid4` strings. What is proved is their distinctness, which is what the random ids are for.
- The asynchronous and streaming worker methods (`arun_step`, `stream_step`, `astream_step`), `finalize_task` (it does nothing) and `test_agent_from_llm` are left out. The ReAct agent and the mock LLM are not part of this model.
- MockWorkers.RunStep: a worker error leaves the task's extra state and memory as they were before the step. In the source, `MockAgentWorkerWithMemory.run_step` (test_base.py:98-99) increments `counter` before it reads `start`, so a task without `start` keeps the incremented counter when the `KeyError` is raised. Inside a runner this cannot happen, because `initialize_step` always sets `start` (test_base.py:80-88); the model makes the error path atomic instead.
- A task's memory is the runner's single shared memory. The per-step memory of the source runner is not modelled.
- `chat` on the parallel runner, and stopping a parallel task on multiple last outputs, are left out; the test does not exercise them.
- Chat messages of the runner test carry a role string and a content only.
- Bedrock's retry plumbing (`_create_retry_decorator`, `converse_with_retry`) is left out: it is network, boto3 and backoff timing.
- `tool.metadata.get_parameters_dict()` is an opaque value carried into `inputSchema`. `tools_to_converse_tools` returns the list of specs without the surrounding `{"tools": ...}` dictionary.
- BedrockTools.ToolsToConverseTools: the `ValueError` message omits the tool's `repr`, which is not modelled.
- BedrockMessages.ToolUseBlocks: the failing assertion is identified by the missing key; its message with the call's `repr` is not modelled.
- BedrockModels.ContextSizeIn: the "Known models are" part of the message is built over the table, but nothing about its text is proved beyond the model's name.
- `join_two_dicts` works on values (ints, strings, lists, dictionaries). The aliasing between the input dictionaries and the result that `copy()` leaves for nested lists and dictionaries is not modelled. The `AttributeError` of a missing `.copy()` is folded into `TypeError`.
- Additional kwargs of a chat message distinguish present from absent keys only; a key present with the value `None` is treated as absent.
- The Azure SDK clients, credentials, constructors from connection strings or tokens, and the async client are left out. So are `serialize`, `deserialize` and `sanitize_table_name`, which are treated as the identity.
- The Azure Table service is not part of this model; its behaviour is assumed from its documentation. `query_entities` lists a partition's rows sorted by row key. `create_entity` on an existing row raises `ResourceExistsError` and changes nothing. `delete_entity` of a missing row does nothing. A transaction is atomic and is refused as a whole when it names an entity twice. The service's limit of 100 operations per transaction is not modelled.
- AzureChatStore.AzureChatStore.SetMessages: the refusal of a transaction that names an entity twice is the service's documented rule, not shown code; nothing else about the refusal, such as its error code, is modelled.
- AzureChatStore.AzureChatStore.SetMessages, AzureChatStore.AzureChatStore.GetMessages, AzureChatStore.AzureChatStore.DeleteMessages and AzureChatStore.AzureChatStore.GetKeys: the source splices the key, and for `get_keys` the metadata partition key, unescaped into the OData filter `PartitionKey eq '...'` (base.py:167, :207, :252 and :322-324). The model selects exactly the one partition, so it assumes keys contain no `'` and none of the characters the service forbids in keys (`/`, `\`, `#`, `?`, control characters). A key such as `a'b` makes the source's query malformed, and the service rejects it. A key such as `x' or PartitionKey ne 'x` makes it select every partition, so `get_messages` returns other chats' messages and `delete_messages` deletes them. `SetThenGet`, `PartitionOfSet` and `OtherPartitionUnchanged` hold only under this assumption.
- AzureChatStore.AzureChatStore.DeleteLastMessage: the `ValueError` of an unparsable last row key is stated without its message text.
- Negative indices are accepted as the code accepts them. `add_message` with a negative `idx` creates a row such as `-000000003`. `delete_message(key, -1)` on an empty chat writes count -1 and last row key `rowkey(-2)`. `delete_last_message` on an empty chat makes the count -1. Only the ordering lemma `RowKeysOrdered` is limited to indices in [0, 10^10): ten-digit padding orders those and no others.
- Text.ParseInt: models the part of Python's `int()` that the program relies on, an optional sign followed by ASCII decimal digits. `int()` also accepts surrounding whitespace, `_` between digits and non-ASCII decimal digits; those inputs are not modelled, because the modelled code parses only text that `str()` or `_to_row_key` produced.
- AgentRunners.ParallelWave: the whole queue is drained before the wave runs. After a worker error at one drained step, the later drained steps are neither run nor re-queued, and the outputs recorded before the error stay recorded. The runner's source is not part of this model, so this follows a loop that raises at the failing step. An empty queue gives an empty wave and no error; only `SequentialStep` and `RunStep` raise `NoPendingStepError`, on an empty queue. The tests never run a wave on an empty queue, so whether the runner raises there instead is not modelled.
- BedrockModels.ContextSize has no contract of its own, because a contract that names the whole model table is too costly to check. `ContextSizeIn` states the lookup over any table, and `ContextSizeOfKnownModel` and `FunctionCallingModelsKnown` state it for the built-in table.
- MilvusFilter.ScalarFilterExpr carries no ensures of its own, because its shape in every contract that mentions it makes the scalar list proof too costly. `ScalarFilterShape` states it.
- MockWorkers.CounterOutput and MockWorkers.InitialExtraState carry no ensures of their own, because their properties in every contract that mentions them make the counter proofs too costly. `CounterOutputReadsBack` and `InitialExtraStateMeaning` state them.
- The Milvus vector store itself, its client, and `test_class`'s check of the class hierarchy are left out. Filters mixed with scalar filters in one call are not modelled, because the tests do not pin their rendering.

## Findings

| source | as written | input that shows it | evidently intended | confidence | as-written member | corrected member |
|---|---|---|---|---|---|---|
| llama-index-integrations/llms/llama-index-llms-bedrock-converse/llama_index/llms/bedrock_converse/utils.py:265-271 | A key only in dict2 is first added and then, because the second test is an `if` rather than an `elif`, combined with itself. A number doubles, a string or list repeats, and a dictionary is joined with itself. | `join_two_dicts({}, {"n": 1})` gives `{"n": 2}` | As the docstring at line 254 says, a key only in dict2 is added with its own value, so the result here is `{"n": 1}` | not executed | BedrockJoin.NewKeyDoubled | BedrockJoin.IntendedJoinAddsNewKeys |
| llama-index-integrations/storage/chat_store/llama-index-storage-chat-store-azure/llama_index/storage/chat_store/azure/base.py:161-185 | `set_messages` puts a DELETE of every row in the partition and a CREATE of rows `rowkey(0)`..`rowkey(n-1)` into one entity-group transaction. On a key that already holds messages, both operations name row `rowkey(0)`. The Table service documents that an entity can appear only once in a transaction, so it refuses the batch. | `set_messages(key, [m])` when `key` already holds one message | The partition is replaced by the new messages, as the comment at line 163 says | not executed; rests on the service's documented rule, which was not exercised | AzureChatStore.ResetOfNonEmptyChatIsRejected | AzureChatStore.AzureChatStore.ReplaceMessages |

`BedrockJoin.JoinTwoDicts` models the code as written. `NewKeysCombineWithThemselves` and `IntDictsSum` state the doubling in general.

`AzureChatStore.AzureChatStore.SetMessages` models `set_messages` as written, with the refusal. `ReplaceMessages` deletes and then creates, and `SetThenGet` and `SetMessagesConsistent` state the intended result of it.
