# Workflow execution engine: a verified model

The platform runs process definitions: a Platform API executes the steps of a definition, hands agent steps to workers
over Redis streams, and announces every state change on a status stream that a WebSocket service fans out; a scheduler
starts executions on time. This project models that machinery in Dafny and proves what it keeps.

| files | what they model |
|---|---|
| `Protocol`, `ProtocolProofs`, `ProtocolOutcomes`, `ResultCounting`, `Dispatcher`, `ConsumerRefinement`, `AgentConsumer` | agent dispatch: executors, workers, result consumer and timeouts as one transition system, with the Future table, the consumer loop and the worker as mutable classes |
| `Composition` | one execution of a definition inside that protocol: the interpreter takes its agent outcomes from it |
| `Tree`, `Graph`, `TransformGraph`, `TransformCases`, `Transform` | `apply_transform`: a pure update on trees, lookups in a heap of shared dicts, the smallest failing configurations, and the in-place code proved against the pure update |
| `Contexts`, `ContextDicts` | contexts as dicts that share nothing: loading, storing, `{**context, key: value}`, and transforms that keep them so |
| `Workflow`, `Validator`, `ValidatedDefinition`, `Interpreter`, `Turns`, `References` | definitions, `validate_steps`, a pure interpreter with its termination, halting and frame theorems, what a turn of each kind does, and which definitions can fail on an unknown step |
| `Executor`, `ExecutionEvents` | the loop that mutates one execution row, whose context is a live dict, its commits and its events |
| `SchedulerLock`, `SchedulerDispatch`, `JobLoader` | the timed lock, the retry loop and the reconcile loop |
| `AgentLoop` | the agent's model/tool loop and the classification of its result |
| `StatusStream` | the status consumer, WebSocket rooms, and the end-to-end order of events |

One Platform API process and one WebSocket process are assumed, and any number of agent workers, executions and
scheduler instances. Everything a program cannot decide itself (model answers, tool outcomes, searches, comparisons,
publication failures, acknowledgement failures, the time an attempt takes) is a parameter over which the theorems
quantify.

Main results:

- **Dispatch.** In every interleaving, a value stored for an agent visit is the output of the one `completed` result of
  the agent call dispatched in that visit, although Futures are keyed by execution only (`Correlation`). Composed with
  the interpreter: what a run's context holds under an agent step's id, as long as no later step writes that key, is the
  output of the one `completed` result of the call that the step's own turn made (`ContextHoldsResults`; of the code for
  careful definitions, see below). Futures settle at most once, only for their own execution, and no result is lost on a
  registered Future; nothing is ever put into one that timed out (`TimedOutForGood`). Rejections are *not* correlated:
  `ForeignSettlement` says exactly when a result settles another visit's Future, `ForeignNeedsFailure` that its worker
  failed after publishing, and `DuplicateRejectsNextVisit` is a run in which it happens.
- **Transforms.** On a tree-shaped context, a call writes into a dict of its input if and only if the pure update gets
  through a destination that properly extends an earlier one, which the configuration and the context's value decide
  before the call (`CompletedAsPure`; `OverlapMutatesInput` is the smallest case). If it does not, the in-place code
  equals the pure update, and the result is a tree again if and only if the sources that stay in place share no dict
  (`ResultIsTree`; `SharedSourceIsNoTree`). With destinations none of which is a prefix of another, that update is the
  simultaneous one (`IndependentUpdate`).
- **Runs.** A definition is *careful* if in each of its transforms no destination properly extends an earlier one and no
  source is a prefix of another. For careful definitions the mutable executor, working in place on one context of
  dicts over the whole run, equals the pure interpreter, in row, commits and events (`NextTurn`, `ExecuteWorkflow`); what
  is proved of the interpreter's runs, `RunFrame` and `ContextHoldsResults` included, then holds of the code. Without
  that hypothesis it does not: `CompletesDifferently`, `RaisingCallMutates` and `SharingOutlivesTheCopy` are inputs for
  which the code's context differs from the interpreter's, within one call, through a call that raises, and from one
  step to the next.
- **Interpreter.** What a turn of a run does to the context, where it leads and how it fails is stated for each kind of
  step by lookups alone (`Turns`): a transform with prefix-incomparable destinations leaves the simultaneous update of
  the context, any other one is followed entry by entry. Acyclic definitions terminate; condition-free ones halt if and
  only if they do so within as many visits as there are steps. A definition all of whose references are null, empty or
  declared never fails on an unknown step (`SafeNeverDangles`); an undeclared branch of the first condition that a run
  comes to makes a run with the same agents fail (`UnsafeBranchDangles`).
- **Events, end to end.** Events equal the commits before them, nothing follows a terminal event, and over all failure
  patterns of the WebSocket service no client sees anything of an execution after its terminal event.
- **Scheduler.** The lock excludes a second instance if and only if the longest hold stays below the time to live;
  with the deployed constants, if and only if 3 · attempt + 6 + 4 · slack < 55 seconds. Beyond that, and only beyond
  that, some call deletes the unexpired lock of another that is still dispatching, and a third can enter at once.

Where the code and its documentation differ, the model follows the code:

- The scheduler's documentation says the lock prevents duplicate executions. It gives mutual exclusion while the
  time budget holds, not one dispatch per tick: the lock is deleted as soon as a holder is done, and a slower
  instance may then dispatch again (`NotOncePerTick`).
- The validator's "next references a declared step" covers string-valued `next` only, and not condition branches:
  `ValidDefinitionCanDangle` is a valid definition each of whose runs fails on a missing step.
- A branch to an unknown step fails the run *before* the current step is updated, so the failed row keeps the last step
  that was entered, not the one that was missing.

## Model

| member | source | states |
|---|---|---|
| `ProtocolProofs.RunKeeps` | services/platform-api/src/executions/executor.py:38-59 | the protocol's invariant survives any run of steps of executors, workers, consumer and timeouts |
| `ProtocolProofs.Correlation` | services/platform-api/src/executions/executor.py:102-104 | a value stored for a visit is the output of exactly one `completed` result, whose task was dispatched in that very visit |
| `ProtocolProofs.ValueFindsItsOwnFuture` | services/platform-api/src/executions/dispatcher.py:17-23 | a `completed` result that finds its execution's Future awaited finds the Future of its own task |
| `ProtocolProofs.FutureDiscipline` | services/platform-api/src/executions/dispatcher.py:9-32 | an unsettled Future is its execution's latest, is registered, and the execution is inside the dispatch for it or has failed (a Future that timed out is not unsettled: `TimedOutForGood`) |
| `ProtocolProofs.StepSettles` | services/platform-api/src/executions/dispatcher.py:17-32 | a step changes a Future only from unsettled, and only by a result of, or the timeout of, its own execution |
| `ProtocolProofs.SettledForGood` | services/platform-api/src/executions/dispatcher.py:17-32 | a settled Future keeps its state over every continuation of every run |
| `ProtocolProofs.NoLostWakeUp` | services/platform-api/src/executions/executor.py:56-59 | handling a result settles its own task's Future with that result's verdict, unless it was settled before; also before `wait_for` starts |
| `ProtocolProofs.WaiterCanCollect` | services/platform-api/src/executions/executor.py:56-59 | an execution waiting for a task whose result was applied can go on |
| `ProtocolProofs.HandledWakesUp` | services/platform-api/src/executions/redis_consumer.py:30-49 | while acknowledgements do not raise, an execution waiting for a task goes on once any result of the task was handled |
| `ProtocolProofs.ForeignSettlement` | services/agent-orchestration/src/consumer/redis_consumer.py:57-83 | a result settles another visit's Future if and only if its own task's value was delivered already, and then it is not `completed` |
| `ProtocolProofs.DuplicateRejectsNextVisit` | services/agent-orchestration/src/consumer/redis_consumer.py:57-83 | a reachable state in which the second result of task 0 has rejected visit 1's Future before task 1 was appended |
| `ProtocolOutcomes.TimedOutForGood` | services/platform-api/src/executions/executor.py:59 | `wait_for` can give up whenever it waits; it cancels an unsettled Future and leaves a settled one, and over every continuation nothing is ever put into that Future and the execution stays failed |
| `ProtocolOutcomes.DeadForGood` | services/platform-api/src/executions/executor.py:117-127 | a failed execution takes no further step in any continuation |
| `ProtocolOutcomes.ResultIsPutIn` | services/platform-api/src/executions/dispatcher.py:17-32 | handling the result of an unsettled visit puts exactly its output, or its error, into that visit's Future |
| `ProtocolOutcomes.WaiterTakesOver` | services/platform-api/src/executions/executor.py:59 | a waiting execution is never cancelled beforehand: it stores the value of its Future and goes on, fails with its error, or has to wait |
| `ProtocolOutcomes.AbandoningGivesUp` | services/platform-api/src/executions/redis_consumer.py:42-49 | what is left of a batch when its acknowledgement raises is never applied in any continuation |
| `ProtocolOutcomes.AppendedIsDelivered` | services/platform-api/src/executions/redis_consumer.py:23-30 | tasks and results can be read from their streams as soon as they are appended |
| `Dispatcher.PendingTable.RegisterPending` | services/platform-api/src/executions/dispatcher.py:9-14 | a new unsettled Future replaces whatever the execution had registered |
| `Dispatcher.PendingTable.SettlePending` | services/platform-api/src/executions/dispatcher.py:17-32 | the entry is popped; the Future is settled, and true returned, exactly if it was not done |
| `Dispatcher.PendingTable.ConsumeBatch` | services/platform-api/src/executions/redis_consumer.py:23-49 | a delivered batch is applied entry by entry, malformed ones skipped, up to the first entry neither of whose acknowledgements goes through |
| `Dispatcher.MessageSettles` | services/platform-api/src/executions/redis_consumer.py:33-40 | a `completed` message puts its output into the awaited Future, any other its error, or `Agent` and its status if it brings none or an empty one; every other Future is unchanged |
| `Dispatcher.FirstResultDecides` | services/platform-api/src/executions/redis_consumer.py:30-41 | of a batch, the first entry naming an execution decides its awaited Future, whatever follows |
| `Dispatcher.OtherExecutionsKept` | services/platform-api/src/executions/redis_consumer.py:30-41 | a batch that does not name an execution leaves its Future awaited |
| `ConsumerRefinement.BatchIsRun` | services/platform-api/src/executions/redis_consumer.py:30-49 | handling n entries of a batch, malformed ones among them, and giving up the rest if an acknowledgement raises, is a run of the protocol with the same table |
| `AgentConsumer.Worker.Publish` | services/agent-orchestration/src/publisher/result_publisher.py:1-13 | an append arrives, arrives and raises, or is lost and raises; whatever it raises is returned |
| `AgentConsumer.Worker.Process` | services/agent-orchestration/src/consumer/redis_consumer.py:52-87 | the results an entry adds under each failure pattern, and that every entry reaches the acknowledgement |
| `AgentConsumer.GainedMeaning` | services/agent-orchestration/src/consumer/redis_consumer.py:52-87 | the runner's result is published as it is, exactly if the run returned and the append was not lost; the handler's carries the text of whichever of run, publication and log write raised first |
| `AgentConsumer.Worker.ProcessBatch` | services/agent-orchestration/src/consumer/redis_consumer.py:36-50 | a batch adds what its processed entries add, up to the first raising acknowledgement |
| `AgentConsumer.ResultsPerTask` | services/agent-orchestration/src/consumer/redis_consumer.py:52-87 | over any failures, a task's results in a batch are those of its own entry: at most two, at most one not made by the handler, a second one always a handler-made `failed`, none exactly if every publication was lost |
| `ResultCounting.AtMostTwoResults` | services/agent-orchestration/src/consumer/redis_consumer.py:52-87 | in every reachable state, workers interleaving in any way, a task has at most two results, none while its worker runs, and only the first can be `completed` |
| `ResultCounting.NoThirdResult` | services/agent-orchestration/src/consumer/redis_consumer.py:52-87 | of two results of one task in the stream the later is not `completed`, and there is no third |
| `ResultCounting.ForeignNeedsFailure` | services/agent-orchestration/src/consumer/redis_consumer.py:57-83 | a run comes to a result that settles another visit's Future only if that result's worker failed after publishing |
| `Composition.PathKeeps` | services/platform-api/src/executions/executor.py:56-59 | along every path, each answered turn of the loop has its own later visit of the protocol, which stored its value, and a call in progress is for the step the run stands at |
| `Composition.ContextHoldsResults` | services/platform-api/src/executions/executor.py:102-109 | in the interpreter's run, under an agent step's id, unless a later step wrote it, the context holds the output of the one `completed` result of the task that this turn of the loop dispatched |
| `Composition.EarlierTurns` | services/platform-api/src/executions/executor.py:87-109 | what later agent calls yield does not change earlier turns of the run |
| `AgentConsumer.WorkerRefinesProtocol` | services/agent-orchestration/src/consumer/redis_consumer.py:52-87 | every way of processing a delivered task is a run of the protocol with the same results |
| `Tree.JoinSplit` | services/platform-api/src/executions/transform.py:19 | splitting a destination at its dots loses nothing |
| `Tree.SplitIsDotFree` | services/platform-api/src/executions/transform.py:19 | no segment of a split path contains a dot; with `JoinSplit` this determines the segments |
| `Tree.SplitJoin` | services/platform-api/src/executions/transform.py:19 | segments without dots are what their dotted path splits into |
| `Tree.ParsesMeaning` | services/platform-api/src/executions/transform.py:14 | a dotted source parses exactly if it is not empty, has no dot at either end and no two dots in a row |
| `Tree.SetNestedMeaning` | services/platform-api/src/executions/transform.py:18-23 | a write raises exactly when a non-dict is on its way; otherwise it reads back, the way becomes objects, all other paths are unchanged |
| `Tree.ApplyMeaning` | services/platform-api/src/executions/transform.py:6-15 | with prefix-incomparable destinations a transform is the simultaneous update, and raises exactly when some source does not parse or some destination is blocked in the original |
| `Tree.EntriesInTurn` | services/platform-api/src/executions/transform.py:13-15 | the entries take effect one after the other, and the first that raises ends the call |
| `Tree.OrderIrrelevant` | services/platform-api/src/executions/transform.py:12-15 | the order of the configuration's entries does not matter then |
| `Tree.TransformFrame` | services/platform-api/src/executions/transform.py:6-23 | only first segments of destinations change at the top level |
| `Graph.GraftMeaning` | services/platform-api/src/executions/transform.py:18-23 | what one in-place write changes if the written dict is met at one place only: below its destination, on its way, and nowhere else |
| `Graph.OffTheField` | services/platform-api/src/executions/transform.py:18-23 | for any sharing and from any value: a way that does not pass the written field leads where it led |
| `Graph.OnTheField` | services/platform-api/src/executions/transform.py:18-23 | for any sharing: at every place where the written dict is met without passing that field, what was grafted is met now |
| `TransformGraph.WriteIsProgress` | services/platform-api/src/executions/transform.py:13-15 | a write whose destination extends no earlier one keeps the input as it is, own dicts at one place each, and every source that is not overwritten in place |
| `TransformGraph.RefinesTree` | services/platform-api/src/executions/transform.py:6-23 | while no completed destination properly extends an earlier one, the heap spells out the pure update by the completed entries |
| `TransformGraph.ResultIsTree` | services/platform-api/src/executions/transform.py:13-14 | the result is a tree again if and only if the sources in place share no dict |
| `TransformGraph.ExtensionHitsInput` | services/platform-api/src/executions/transform.py:13-15 | the first write whose destination properly extends an earlier one goes into a dict of the input |
| `TransformGraph.InputIsWritten` | services/platform-api/src/executions/transform.py:6-23 | on a tree-shaped context a call writes into a dict of its input if and only if some destination it completes properly extends an earlier one |
| `TransformGraph.CompletedAsPure` | services/platform-api/src/executions/transform.py:6-23 | that is so if and only if the pure update gets through a destination that properly extends an earlier one |
| `TransformGraph.EntryRaises` | services/platform-api/src/executions/transform.py:14-22 | an entry raises on the dicts exactly when it does in the pure update, a source that does not parse before a blocked way |
| `TransformGraph.IncomparableSourcesApart` | services/platform-api/src/executions/transform.py:13-14 | in a tree, sources that are no prefixes of one another share no dict |
| `TransformCases.OverlapMutatesInput` | services/platform-api/src/executions/transform.py:12-15 | two destinations for which the second write changes the tree-shaped context of the caller although it was copied |
| `TransformCases.CompletesDifferently` | services/platform-api/src/executions/transform.py:12-15 | a configuration that completes with a key in its result that the pure update does not put there |
| `TransformCases.RaisingCallMutates` | services/platform-api/src/executions/executor.py:100-127 | a configuration that raises after changing a key of the caller's context with which no destination starts |
| `TransformCases.SharingOutlivesTheCopy` | services/platform-api/src/executions/executor.py:100-101 | two transforms, one after the other, of which the second changes a place it does not name |
| `TransformCases.SharedSourceIsNoTree` | services/platform-api/src/executions/transform.py:12-15 | two destinations with the same source, after which the result holds one dict at two places |
| `TransformGraph.StuckIsBlocked` | services/platform-api/src/executions/transform.py:20-22 | a way in the heap meets a non-dict exactly when the value spelled out does |
| `Transform.SetDefault` | services/platform-api/src/executions/transform.py:21-22 | `setdefault` returns what is there untouched, or hangs one new dict |
| `Transform.Walk` | services/platform-api/src/executions/transform.py:20-22 | the walk reaches the dict for the last key, hanging new ones where keys are missing, or stops unchanged at a non-dict |
| `Transform.SetNested` | services/platform-api/src/executions/transform.py:18-23 | the in-place walk grafts the value with new dicts below one existing dict, or raises having changed nothing, exactly when its way is stuck |
| `Transform.Traverse` | services/platform-api/src/executions/transform.py:12 | the dicts that a copy comes to: the context and all that fields lead to |
| `Transform.DeepCopy` | services/platform-api/src/executions/transform.py:12 | one fresh dict for each dict it comes to, so that sharing is kept |
| `Transform.Select` | services/platform-api/src/executions/transform.py:14 | a dotted selection returns a reference into the context, null where a field is missing |
| `Transform.ApplyEntry` | services/platform-api/src/executions/transform.py:13-15 | one turn of the loop, for any sharing: it grafts what the search finds now, or raises unchanged exactly when the source does not parse or the way is stuck |
| `Transform.ApplyTransform` | services/platform-api/src/executions/transform.py:6-15 | on a tree-shaped context: the input is written into exactly if the pure update gets through a destination that properly extends an earlier one; if not, it is unchanged, the call raises exactly when and as the pure update does, the result represents that update, and is a tree exactly if the sources in place share nothing |
| `Transform.IndependentUpdate` | services/platform-api/src/executions/transform.py:6-15 | with prefix-incomparable destinations the in-place result represents the simultaneous update |
| `Contexts.FieldSpells` | services/platform-api/src/executions/executor.py:104 | a tree that gets another tree under a key is a tree of the extended value |
| `Contexts.ShallowSpells` | services/platform-api/src/executions/executor.py:104 | `{**context}` is a tree of the same value |
| `Contexts.FieldOfTree` | services/platform-api/src/executions/executor.py:25-33 | a field of a tree is a tree of the field's value |
| `ContextDicts.Load` | services/platform-api/src/executions/executor.py:71-72 | a JSON value read in becomes new dicts that share nothing |
| `ContextDicts.Store` | services/platform-api/src/executions/executor.py:25-33 | storing or publishing a tree yields its value |
| `ContextDicts.WithKey` | services/platform-api/src/executions/executor.py:104 | `{**context, key: value}` makes a tree of the extended value |
| `ContextDicts.Update` | services/platform-api/src/executions/executor.py:100-101 | a careful transform raises as the pure update does, leaving the context's value, or makes a tree of what that update yields |
| `Validator.ValidateSteps` | services/platform-api/src/workflows/validator.py:7-37 | the errors are exactly the faults, each once and by increasing step; empty if and only if the definition is valid |
| `Validator.ValidMeansFaultless` | services/platform-api/src/workflows/validator.py:7-37 | validity as one condition on the whole list is the absence of every single fault |
| `Validator.AcceptedValues` | services/platform-api/src/workflows/validator.py:3-28 | exactly the six types are accepted, every id but a missing or empty one, and every timeout that is missing or positive |
| `ValidatedDefinition.ValidDefinitionRuns` | services/platform-api/src/executions/executor.py:78-90 | in a valid definition the step map leads each id to its own step, a run starts, and an unknown step can only come from a condition branch |
| `References.ValidDefinitionCanDangle` | services/platform-api/src/workflows/validator.py:30-35 | a valid definition whose run fails on the missing step that a branch names, with the condition still the row's current step |
| `References.SafeNeverDangles` | services/platform-api/src/executions/executor.py:88-99 | if every reference is null, empty or declared, no run, whatever its surroundings, meets an unknown step |
| `References.UnsafeBranchDangles` | services/platform-api/src/executions/condition.py:17-31 | each undeclared branch of the first condition a run comes to makes a run with the same context and agents fail there |
| `References.UnsafeNextDangles` | services/platform-api/src/executions/executor.py:108 | a run that completes a step with an undeclared `next` comes to an unknown step |
| `Interpreter.RunsAreWalks` | services/platform-api/src/executions/executor.py:87-108 | every run follows `next` edges and condition branches and enters only declared steps |
| `Interpreter.OneVisitPerTurn` | services/platform-api/src/executions/executor.py:87-94 | a turn that goes on enters exactly one step, and entered steps stay in the trace |
| `Interpreter.AcyclicTerminates` | services/platform-api/src/executions/executor.py:87-127 | over an acyclic definition every run enters no step twice and is over after as many turns as there are steps, plus one |
| `Interpreter.VisitsIterateNext` | services/platform-api/src/executions/executor.py:87-108 | without conditions the visits iterate the `next` map |
| `Interpreter.RepeatNeverHalts` | services/platform-api/src/executions/executor.py:87-108 | a condition-free run without failures that enters a step twice goes round for ever |
| `Interpreter.HaltingIsDecidedEarly` | services/platform-api/src/executions/executor.py:78-109 | such a run halts if and only if it halts within as many visits as there are steps, and if and only if it repeats none by then |
| `Interpreter.RunFrame` | services/platform-api/src/executions/executor.py:96-127 | over an interpreter's run a top-level key changes only if a completed agent step has it as id or a completed transform as first segment of a destination |
| `Interpreter.OnlyBranchesDangle` | services/platform-api/src/executions/executor.py:88-90 | with declared `next` references only a condition branch can name an unknown step |
| `Turns.Beginning` | services/platform-api/src/executions/executor.py:78-84 | a run begins at the first step with the given context, or at none |
| `Turns.LastOfItsId` | services/platform-api/src/executions/executor.py:78 | of several steps with one id the step map has the last |
| `Turns.IndependentTransformTurn` | services/platform-api/src/executions/executor.py:100-101 | over every run: a turn with a transform of prefix-incomparable destinations fails exactly if some source does not parse or some destination is blocked in the context as it was; if not, the context becomes the simultaneous update of itself at every path |
| `Turns.TransformTurnByEntry` | services/platform-api/src/executions/executor.py:100-101 | over every run and for any configuration: each entry reads the context from before the step and writes into what the entry before it left, and the first one that fails fails the run with the context as it was before the step |
| `Turns.AgentTurn` | services/platform-api/src/executions/executor.py:102-104 | an answer is stored under the step's id; a timeout and an exception fail the run with their texts under `_error` |
| `Turns.StubTurn` | services/platform-api/src/executions/executor.py:105-108 | the other types go on to `next` with the context as it was |
| `Turns.ConditionTurn` | services/platform-api/src/executions/condition.py:17-31 | the left operand is what the search finds in the run's context and the right one the configured value; each operator's outcome leads to its own branch, or fails the run if there is no such branch |
| `Turns.IncompleteConditionFails` | services/platform-api/src/executions/condition.py:27-31 | a missing part, an unknown operator or a search that raises fails the run, with the condition as the row's current step |
| `Turns.FalsyCompletes` | services/platform-api/src/executions/executor.py:87 | null, the empty string and other falsy references complete the run |
| `Turns.UnknownFails` | services/platform-api/src/executions/executor.py:88-90 | an undeclared id fails the run, and nothing is entered |
| `Executor.Execution.PerformStep` | services/platform-api/src/executions/executor.py:96-108 | on a live dict context, each kind of step goes on, raises and changes the context's value as in the interpreter; after a transform with prefix-incomparable destinations, the row's context is the simultaneous update of what it was, or is unchanged exactly if some entry fails on it |
| `Executor.Execution.Turn` | services/platform-api/src/executions/executor.py:87-109 | for careful definitions, one turn of the mutable loop is one turn of the interpreter, with its commits and events |
| `Executor.Execution.NextTurn` | services/platform-api/src/executions/executor.py:87-109 | for careful definitions, halting or not: a loop that stands where the interpreter's run stands after n turns stands or breaks off as that run does after n + 1 |
| `Executor.Execution.RunSteps` | services/platform-api/src/executions/executor.py:86-109 | for careful definitions, the loop stops where the interpreter's run does, with row and log to match |
| `Executor.Execution.Fail` | services/platform-api/src/executions/executor.py:117-127 | a failure keeps step and context and adds `_error`, then commits and announces |
| `Executor.Execution.Complete` | services/platform-api/src/executions/executor.py:111-115 | completion clears the step and sets the completion time, then commits and announces |
| `Executor.Execution.ExecuteWorkflow` | services/platform-api/src/executions/executor.py:62-127 | for careful definitions, the final row and all commits and events of a halting run are those of the interpreter's run, whose turns `Turns` describes kind by kind |
| `ExecutionEvents.EventsAgreeWithCommits` | services/platform-api/src/executions/executor.py:21-35 | every event equals the row committed just before it, for every pattern of lost events |
| `ExecutionEvents.EventsAreAnnouncements` | services/platform-api/src/executions/executor.py:81-127 | the stream receives exactly the announced rows whose publication goes through, in order |
| `ExecutionEvents.ReliableEvents` | services/platform-api/src/executions/executor.py:81-127 | without lost events: `running` without a step, one `running` per entered step in order, and one terminal event, which is the completed row with the run's context or the failed one with the exception's text |
| `ExecutionEvents.NothingAfterTerminal` | services/platform-api/src/executions/executor.py:111-127 | whatever is lost, no event of a run follows its terminal one |
| `ExecutionEvents.StateIsCommitted` | services/platform-api/src/executions/executor.py:81-127 | after every turn of every run, the last commit is the row that the turn leaves: context, entered step, and completion or `_error` once the run is over |
| `SchedulerLock.HoldIsShort` | services/scheduler-service/src/dispatcher.py:29-58 | a call never holds the lock longer than its attempts, back-offs and delays add up to |
| `SchedulerLock.TotalClosedForm` | services/scheduler-service/src/dispatcher.py:37-56 | attempt k starts at most k·A + (2^(k+1) − 2) + (k+1)·slack after acquiring |
| `SchedulerLock.ExclusiveIffBudget` | services/scheduler-service/src/dispatcher.py:17-32 | at most one instance is between acquiring and deleting in every run if and only if the longest hold is below the time to live |
| `SchedulerLock.DeletesOwnLock` | services/scheduler-service/src/dispatcher.py:29-32 | within the budget the unconditional delete removes the deleter's own unexpired lock |
| `SchedulerLock.DeletesForeignIffOverBudget` | services/scheduler-service/src/dispatcher.py:29-32 | some run comes to a call whose delete removes the unexpired lock of another call that is still under way, and leaves none, if and only if the longest hold reaches the time to live |
| `SchedulerLock.ThirdEnters` | services/scheduler-service/src/dispatcher.py:24-32 | after such a delete any further instance acquires the lock at once, while the other is still dispatching |
| `SchedulerLock.CrashLeavesLock` | services/scheduler-service/src/dispatcher.py:24-32 | within the budget, the lock of a call that crashed keeps everyone out until it expires |
| `SchedulerLock.DeployedBudget` | services/scheduler-service/src/dispatcher.py:13-14 | with three attempts and 55 seconds: if and only if 3·A + 6 + 4·slack < 55 |
| `SchedulerLock.NotOncePerTick` | services/scheduler-service/src/dispatcher.py:20-32 | whatever the budget, two instances can dispatch one after the other at the same moment, so the lock does not prevent duplicates |
| `SchedulerDispatch.DispatchWithRetry` | services/scheduler-service/src/dispatcher.py:35-61 | delivered if and only if some attempt succeeds; it stops there; the sleep after attempt k is 2^(k+1) seconds, n attempts sleep 2^n − 2 in all |
| `SchedulerDispatch.DispatchIsRun` | services/scheduler-service/src/dispatcher.py:17-61 | a call that gets the lock, with the outcome the retry loop reports and attempts in time, is a run of the lock's machine that leaves the lock free |
| `SchedulerDispatch.Redis.SetIfAbsent` | services/scheduler-service/src/dispatcher.py:24 | the key is set with its expiry exactly if it is not held |
| `SchedulerDispatch.Dispatch` | services/scheduler-service/src/dispatcher.py:17-32 | without the lock nothing is attempted or changed; with it the key is gone afterwards, delivered or not, and no other key is touched |
| `SchedulerDispatch.LockKeysDiffer` | services/scheduler-service/src/dispatcher.py:23 | different workflows have different keys, all in the lock's name space |
| `JobLoader.Scheduler.RemoveMissing` | services/scheduler-service/src/job_loader.py:56-60 | exactly the jobs without a row go, the others keep their triggers |
| `JobLoader.Scheduler.AddNew` | services/scheduler-service/src/job_loader.py:62-76 | new rows with a buildable trigger get a job, up to the first row that raises; existing jobs are untouched |
| `JobLoader.Scheduler.LoadJobs` | services/scheduler-service/src/job_loader.py:36-78 | the jobs after a load, whether it raises midway or not; in either case only ids of rows just read |
| `JobLoader.TriggerOfLastAddition` | services/scheduler-service/src/job_loader.py:53-76 | over any history of loads, raising ones included, a job has the trigger of the load that last added it |
| `JobLoader.IdsAfterReload` | services/scheduler-service/src/job_loader.py:53-76 | the ids after a load are the old ones still in the table and the new rows with a buildable trigger |
| `JobLoader.ReloadIsIdempotent` | services/scheduler-service/src/job_loader.py:41-46 | loading unchanged rows again changes nothing and stops at the same row |
| `JobLoader.TriggerMeaning` | services/scheduler-service/src/job_loader.py:20-33 | a cron entry decides, in its time zone or UTC, and is skipped if it is invalid; otherwise an interval of so many minutes, which raises if it is no number; otherwise nothing |
| `AgentLoop.ExecuteTools` | services/agent-orchestration/src/runner/nodes.py:19-37 | one reply per tool call in order: the tool's output, `Error:` and its exception, or that it is not registered |
| `AgentLoop.RunGraph` | services/agent-orchestration/src/runner/agent_runner.py:19-30 | the loop ends in the one way its environment determines |
| `AgentLoop.CountTokens` | services/agent-orchestration/src/runner/agent_runner.py:99-104 | the total is the sum over all messages |
| `AgentLoop.LastAi` | services/agent-orchestration/src/runner/agent_runner.py:75-77 | an AI message that no other AI message follows, or none if there is none |
| `AgentLoop.RunAgent` | services/agent-orchestration/src/runner/agent_runner.py:32-97 | the whole result for each way the loop can end: status, text, totals, model and error; `completed` exactly if the last message asks for no tools |
| `AgentLoop.ConversationShape` | services/agent-orchestration/src/runner/nodes.py:8-37 | every message list is a human message and blocks of an AI message with one reply per tool call, ids in order |
| `AgentLoop.TranscriptContents` | services/agent-orchestration/src/runner/nodes.py:19-37 | in every conversation, the model's answer of each round and the reply to each of its calls stand in their places, with the tool's output, `Error:` and its exception, or the not-registered text |
| `AgentLoop.TranscriptTotals` | services/agent-orchestration/src/runner/agent_runner.py:99-104 | token and message totals are sums over the rounds |
| `AgentLoop.LoopExit` | services/agent-orchestration/src/runner/nodes.py:40-48 | between 1 and max(1, max_iterations) model calls; the last message is an AI message, with tool calls only at exactly that maximum |
| `AgentLoop.EndIsUnique` | services/agent-orchestration/src/runner/agent_runner.py:53-73 | no environment allows two different ends |
| `StatusStream.OrderedAtMostOnce` | services/websocket-service/src/consumer/redis_consumer.py:21-57 | emissions, and what each client receives, are entries in stream order, each at most once, of the client's tenant only |
| `StatusStream.NothingSeenAfterTerminal` | services/websocket-service/src/consumer/redis_consumer.py:43-57 | no client sees anything of an execution after its terminal event, over all failures, joins and leaves |
| `StatusStream.NoEntrySkipped` | services/websocket-service/src/consumer/redis_consumer.py:21-57 | while acknowledgements do not raise, every entry since the start is acknowledged and, if it decodes, emitted |
| `StatusStream.FollowerMissesNothing` | services/websocket-service/src/consumer/redis_consumer.py:43-57 | a client that stays in a room receives every event of the execution read meanwhile |
| `StatusStream.OutsiderHearsNothing` | services/websocket-service/src/main.py:48-76 | a client outside a room receives nothing of that execution over any run in which it does not join |
| `StatusStream.GettingOutside` | services/websocket-service/src/main.py:48-76 | a new client, one that leaves and one that disconnects are outside, and the rooms of others are unchanged |
| `StatusStream.RaisingAckGivesUp` | services/websocket-service/src/consumer/redis_consumer.py:34-57 | what is left of a batch when an acknowledgement raises is never emitted in any continuation |
| `StatusStream.RunKeeps` | services/websocket-service/src/main.py:53-76 | among others, a client is only ever in rooms of its tenant's executions |
| `StatusStream.Service.ProcessEntry` | services/websocket-service/src/consumer/redis_consumer.py:43-57 | decode, emit and acknowledge, with every failure, are one step of the machine |
| `StatusStream.Service.Round` | services/websocket-service/src/consumer/redis_consumer.py:27-36 | a round reads up to ten entries and is a run of the machine; none of them is ever read again |
| `StatusStream.Service.ConnectClient` | services/websocket-service/src/main.py:33-44 | a client without a valid token is refused and changes nothing |
| `StatusStream.Service.JoinExecution` | services/websocket-service/src/main.py:52-68 | the room is entered exactly if the execution exists and is the tenant's; otherwise an error is the only effect |
| `StatusStream.Service.LeaveExecution` | services/websocket-service/src/main.py:71-76 | leaving a room removes that membership only |

## Left out

- Executor.Execution.ExecuteWorkflow: asks for a bound within which the run halts, because a method must terminate; a run that never halts is described turn by turn by `Executor.Execution.Turn`, and `RepeatNeverHalts` says when there is one.
- Executor.Execution.ExecuteWorkflow: asks for a careful definition, as do `Turn`, `NextTurn` and `RunSteps`; for others the code can leave dicts shared or go on from a changed input, `TransformCases` shows how, and whole runs on such contexts are not described.
- Executor.Execution.ExecuteWorkflow: starts from an execution and a definition that were found; a missing one only logs. The start time is not modelled.
- Executor.Execution.Turn: takes the outcome of an agent call from the environment; how it comes about is the subject of `Composition`.
- References.UnsafeBranchDangles: speaks of the first condition that a run comes to; later conditions may depend on the same searches and comparisons, so that not every combination of their branches need be possible.
- Transform.ApplyTransform: once a completed destination has properly extended an earlier one, or if the context shares dicts, the result is described write by write (`Graph.OffTheField`, `Graph.OnTheField`), not as a whole.
- Transform.ApplyTransform: the texts of exceptions are two constants, one for a source that does not parse and one for a non-dict on the way.
- Transform.Select: covers dotted field selection, with empty segments as the only syntax errors; other JMESPath expressions in transforms are not part of this model, and searches in conditions are an arbitrary function. Lists are leaves.
- Conditions: searches, ordering comparisons, equality and membership of JSON values are arbitrary functions; all but equality may raise.
- Protocol: commits of the execution row are assumed not to raise, processes do not crash, and tasks are not cancelled from outside; a worker that dies in the middle of a task is a run in which its next step never comes.
- SchedulerLock.ExclusiveIffBudget: one workflow's lock; different workflows have different keys (`SchedulerDispatch.Dispatch` touches no other key).
- SchedulerLock: delays other than attempts and sleeps are bounded by a `slack` parameter, an attempt by a parameter too, because the HTTP client's timeout is per phase.
- JobLoader.Scheduler.LoadJobs: cron and interval parsing are arbitrary functions that accept or not; when a trigger fires is not modelled.
- SchedulerDispatch.Dispatch: the method is one call at one moment; its course in time is `SchedulerDispatch.DispatchIsRun`, for an instance that is alone, and other instances acting meanwhile are the subject of `SchedulerLock`.
- AgentLoop.RunGraph: the graph library's step limit is a parameter; message ids are fresh, so adding messages is appending.
- AgentLoop.RunAgent: choosing a model and collecting the tool schemas come before it; the name of the model that the router used last is a parameter, since other tasks may change it meanwhile.
- StatusStream.Service.Round: entries appended before the consumer group was created at `$` are never read; a lost connection to Redis between rounds is a round that does not take place.
- Redis and asyncio internals: append, deliver once per group, acknowledge, set-if-absent with expiry, delete, settle, cancel and timeout are atomic steps.
- Several Platform API or WebSocket processes: Futures and rooms are local to a process.
- HTTP routers, schemas beyond the step dump, database models and row-level security, authentication, webhooks, HMAC and audit: plumbing around the core.
- LLM providers, the model router, tool bodies and agent memories: part of the environment.
- `on_error` policies, approvals, waits and notifications: declared by definitions but not acted on by the executor.
