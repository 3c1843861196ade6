# Koala.AI flow engine in Dafny

This project models the core of Koala.AI, a small Python workflow engine.

The engine has two kinds of flow:
- a DAG flow: steps joined by dependency edges;
- a state machine: states joined by event transitions.

Flows are built step by step with validated mutators. They convert to and from a plain structured form (`to_dict`/`from_dict`). They run on three executors:
- a local thread-pool executor;
- a process-pool executor;
- a simulated remote executor.

All three executors share one readiness algorithm: in-degree counting, where a step is released once all its predecessors have results.

Around the engine sit several small components:
- the pre-step and post-step guard chain;
- retry policies, redaction, metrics counters and a tracer;
- a tool registry with primitive schema checks;
- an API-key permission table;
- REST payload ingress;
- two in-memory key/value stores;
- a bounded FIFO queue and three topic pub/sub adapters;
- the tools of the two reference agents and the two formatters of the web-search agent.

The modules follow the source files:

| module | source |
|---|---|
| `Values` | the dynamic values (`Value` stands for Python's `Any`), errors, and `$result.<id>` argument references |
| `Text` | `str.split`, `" ".join`, `str()` of scalars, `int()` of digit strings, `sorted` on strings |
| `FlowData`, `Flow` | `Step`, `DAGFlow`, `FlowBuilder`, `dag`, `State`, `StateMachine` in `src/koala/flow.py` |
| `Graph`, `Toposort` | the `incoming`/`outgoing` tables and `DAGFlow._toposort` |
| `Scheduler`, `Executors` | `LocalExecutor`, `ProcessExecutor` and `DummyRemoteExecutor` |
| `Machine` | `StateMachine.run` and `LocalExecutor.run_state_machine` |
| `Guards` | `plugins/koala/guards.py` |
| `Observability` | `src/koala/observability.py` |
| `Tools`, `Auth` | `src/koala/tools.py`, `plugins/koala/auth.py` |
| `Ingress` | `src/koala/ingress.py` |
| `KeyValue`, `Memory`, `StateStore` | the Python dict with insertion order that both in-memory stores keep, and the two stores |
| `PubSub`, `QueueAdapter`, `KoalaQueue`, `QueueAdapterCompat` | the queue and the three `InMemoryQueue` classes |
| `AgentA`, `AgentB`, `WebSearch` | `examples/agent_a.py`, `examples/agent_b.py`, `cookbook/web_search_agent.py` |

Two choices make the executors verifiable without concurrency.

1. An action is an oracle. It maps the arguments and the attempt number (1, 2, …) to a returned value or a raised exception.
2. The completion loop picks ANY submitted step, which is the choice a thread pool makes. The loop records that step's result and releases its successors.

Two things are proved of every run of every executor:
- A successful run has a result for every declared step. It comes with a dependency order of the steps in which they completed.
- Each result is what that step's action (with retries and guards) computes from the results of its predecessors.

A failed run names the step whose specification produced the error. Otherwise it is the final "not all steps executed" check, and then the graph has no dependency order.

Classes model the objects whose fields the source updates in place. Each has `modifies` clauses and states its whole new state:
- `DagFlow`, `StateMachine`, `FlowBuilder`;
- `GuardsRegistry`, `MetricsCollector`, `Tracer`;
- `ToolsRegistry`, `AuthManager`;
- the stores and the queues.

Loops in the source are methods with loop invariants, each proved against a specification function:
- Kahn's algorithm, the graph-table build and the release loop;
- the retry loop and the guard folds;
- `redact`, the export loops and `call`'s schema check;
- the loop of `extract_context`.

`format_output` has no loop: it is a method whose `+=` steps build the report, proved equal to a specification function.

Behaviour of the code that the model keeps as written:

- **Unknown edge endpoints.** An edge naming a step that is not in the flow raises `KeyError` while the tables are built (src/koala/flow.py:86-88). The model returns `KeyError` naming the first bad endpoint.
- **Cycles in the executors.** The executors run every step they can reach and fail only at the final count (src/koala/flow.py:547-550). `_toposort` alone fails up front.
- **Duplicate step ids.** A deserialized flow can hold two steps with one id. The executors key `nodes` by id, so the later step wins, and the final check compares against the distinct ids, so such a run can succeed. `_toposort` compares against the full step list and fails.

## Model

| member | source | states |
|---|---|---|
| Values.ReferencedId | src/koala/flow.py:118-119 | the referenced id is what follows the `$result.` prefix |
| Values.Lookup | src/koala/flow.py:120 | `results.get(ref_id)`: the recorded result, or None when the step has none |
| Values.ResolveValue | src/koala/flow.py:117-122 | a reference becomes the looked-up result; any other value passes through unchanged |
| Values.ResolveArgs | src/koala/flow.py:116-122 | same keys as the step's args; references are replaced by their results (None if absent), all else unchanged |
| Values.ResolveArgsDependsOnReferences | src/koala/flow.py:378-384 | resolved args depend only on the results of the referenced steps |
| Text.Words | examples/agent_b.py:22 | `str.split()` yields only non-empty whitespace-free words |
| Text.WordsOfJoin | examples/agent_b.py:22 | splitting `" ".join(ws)` gives back the words `ws` |
| Text.NatToString | src/koala/observability.py:64 | the decimal form of a count is a non-empty digit string |
| Text.ParseInt | src/koala/observability.py:161 | `int()` of a string accepts only an optional sign followed by digits |
| Text.ParseIntOfIntToString | src/koala/observability.py:161 | `int(str(i)) == i` for every integer |
| Text.ParseDecimal | src/koala/observability.py:162-163 | `float()` of a string: an integer string reads as the same number |
| Text.ParseHalf | src/koala/observability.py:162 | `float("0.5")` is 0.5 |
| Text.ParseDecimalPoint | src/koala/observability.py:162-163 | `float(w + "." + f)` for digit strings is `int(w + f)` divided by ten to the number of fraction digits |
| Text.DigitsValueAppend | src/koala/observability.py:161 | the value of two digit strings put together shifts the first by the length of the second |
| Text.Display | cookbook/web_search_agent.py:428-431 | the f-string form of None, bools, ints and strings; a string is shown as itself |
| Text.DisplayIntParses | src/koala/observability.py:161 | an integer shown as text reads back with `int()` as the same integer |
| Text.SortedStrings | src/koala/tools.py:112 | `sorted` of a set of names: the same names, each once, strictly increasing |
| FlowData.StepIds | src/koala/flow.py:46 | the ids of the steps, position by position |
| FlowData.NodesOf | src/koala/flow.py:83 | `{s.id: s for s in steps}`: keys are the step ids, each mapped to a step with that id |
| FlowData.NodesOfUnique | src/koala/flow.py:83 | with distinct ids, every step is what `nodes` holds under its id |
| FlowData.KeyOrder | src/koala/flow.py:84 | the dict's key order lists each step id exactly once |
| FlowData.AddStepTo | src/koala/flow.py:45-48 | FlowError exactly when the id exists; otherwise the step is appended and nothing else changes |
| FlowData.AddEdgeTo | src/koala/flow.py:50-55 | FlowError naming the first unknown endpoint; otherwise exactly `(from, to)` is appended |
| FlowData.AddStateTo | src/koala/flow.py:168-173 | FlowError exactly when the id exists; otherwise appended, and `start_state` is set only if unset |
| FlowData.AddStepKeepsWellFormed | src/koala/flow.py:45-55 | the mutators keep step ids distinct and every edge between known steps |
| FlowData.AddEdgeKeepsWellFormed | src/koala/flow.py:50-55 | a successful `add_edge` keeps the flow well formed |
| FlowData.AddStateKeepsUnique | src/koala/flow.py:168-171 | a successful `add_state` keeps state ids distinct |
| FlowData.StepFromDoc | src/koala/flow.py:33-35 | a missing `id` or `action` is a KeyError |
| FlowData.DagFromDoc | src/koala/flow.py:65-72 | a missing `id` is a KeyError |
| FlowData.StateFromDoc | src/koala/flow.py:189-192 | a state document fails exactly when its `id` is missing |
| FlowData.SmFromDoc | src/koala/flow.py:185-193 | a missing `id` is a KeyError |
| FlowData.StepsRoundTrip | src/koala/flow.py:31-35 | reading back written steps gives the same steps, args included |
| FlowData.EdgesRoundTrip | src/koala/flow.py:62-71 | reading back written edges gives the same edge list |
| FlowData.StatesRoundTrip | src/koala/flow.py:180-192 | reading back written states gives the same states |
| FlowData.DagRoundTrip | src/koala/flow.py:57-72 | `from_dict(to_dict(f)) == f`: id, version, steps in order and edges |
| FlowData.SmRoundTrip | src/koala/flow.py:175-193 | `from_dict(to_dict(m)) == m`: id, version, start state and states |
| FlowData.FromDocDoesNotValidate | src/koala/flow.py:68-71 | `from_dict` accepts duplicate step ids and an edge to an unknown step |
| Flow.AnyStepWithId | src/koala/flow.py:46 | the `any(...)` scan finds a step with the id exactly when one exists |
| Flow.AnyStateWithId | src/koala/flow.py:169 | the `any(...)` scan finds a state with the id exactly when one exists |
| Flow.DagFlow.constructor | src/koala/flow.py:38-43 | a new flow has the given id and version, no steps and no edges |
| Flow.DagFlow.AddStep | src/koala/flow.py:45-48 | `add_step` in place: the new state is `AddStepTo` of the old one; nothing changes on error |
| Flow.DagFlow.AddEdge | src/koala/flow.py:50-55 | `add_edge` in place: the new state is `AddEdgeTo` of the old one; nothing changes on error |
| Flow.DagFlow.ToDoc | src/koala/flow.py:57-63 | `to_dict` is inverted by `from_dict` |
| Flow.DagFlow.Run | src/koala/flow.py:104-124 | KeyError for an unknown endpoint; FlowError when there is no order or ids repeat; otherwise the steps run in the FIFO Kahn order of `_toposort`, with that run's result |
| Flow.RunInOrder | src/koala/flow.py:110-124 | the loop over the order computes the run of the steps one after the other, each on the results before it |
| Flow.IndependentStepsKeepListOrder | src/koala/flow.py:81-102 | without edges, `_toposort` keeps the order in which the steps are listed |
| Flow.UnorderedReferenceSeesNone | src/koala/flow.py:116-123 | a step run before the step it references receives None for it, so the example action fails with TypeError |
| Flow.RunSeq | src/koala/flow.py:111-124 | a successful run has a result under every step id |
| Flow.RunSeqAppend | src/koala/flow.py:111-123 | running two stretches of the order is running them one after the other |
| Flow.RunSeqKeeps | src/koala/flow.py:123 | a step's result is never overwritten by a step with another id |
| Flow.RunSeqSeesPredecessors | src/koala/flow.py:109-123 | each step is run on the results recorded before it, which include all its predecessors, and these are the final results |
| Flow.AddMulExample | src/koala/flow.py:104-124 | the two-step add/multiply flow yields `{s1: 3, s2: 30}` |
| Flow.AddMulOrder | src/koala/flow.py:81-102 | the only dependency order of that flow is s1 then s2 |
| Flow.AddMulRun | src/koala/flow.py:111-123 | running s1 then s2 gives `{s1: 3, s2: 30}` |
| Flow.VersionOr | src/koala/flow.py:135 | `version or "0.1.0"`: an empty or missing version becomes the default |
| Flow.FlowBuilder.constructor | src/koala/flow.py:134-135 | the builder holds a fresh empty flow with the given id and version |
| Flow.FlowBuilder.Step | src/koala/flow.py:137-139 | adds the step through `add_step` and returns the builder itself |
| Flow.FlowBuilder.Edge | src/koala/flow.py:141-143 | adds the edge through `add_edge` and returns the builder itself |
| Flow.FlowBuilder.Build | src/koala/flow.py:145-146 | returns the flow it built |
| Flow.Dag | src/koala/flow.py:149-151 | `dag(id, version)` starts a builder over a fresh empty flow |
| Flow.StateMachine.constructor | src/koala/flow.py:161-166 | a new machine has no states and no start state |
| Flow.StateMachine.AddState | src/koala/flow.py:168-173 | `add_state` in place: the new state is `AddStateTo` of the old one; nothing changes on error |
| Flow.StateMachine.ToDoc | src/koala/flow.py:175-183 | `to_dict` is inverted by `from_dict` |
| Flow.StateMachine.Run | src/koala/flow.py:202-227 | the run is the machine specification with no guards |
| Graph.PendingInZero | src/koala/flow.py:96-97 | a step's count is zero exactly when every edge into it comes from a finished step |
| Graph.FirstBadEndpoint | src/koala/flow.py:86-88 | the endpoint the table build stops at is not a step id |
| Graph.FirstBadNone | src/koala/flow.py:86-88 | there is none exactly when every edge joins two step ids |
| Graph.CountEdges | src/koala/flow.py:86-88 | KeyError naming the first unknown endpoint; otherwise `outgoing` lists each step's targets in edge order and `incoming` counts its edges |
| Graph.EnterEdge | src/koala/flow.py:87-88 | one edge: KeyError for an unknown source, then for an unknown target; otherwise both tables extended by this edge |
| Graph.BuildTables | src/koala/flow.py:83-88 | `nodes`, `incoming` and `outgoing` for the steps and edges, or the KeyError |
| Graph.Ready | src/koala/flow.py:90 | the initial queue: the steps with no incoming edge, in key order |
| Graph.ReadyDistinct | src/koala/flow.py:90 | the initial queue holds each step once |
| Graph.ReadyOfZeros | src/koala/flow.py:90 | with every count zero the initial queue is all steps in key order |
| Graph.Release | src/koala/flow.py:95-98 | each successor's count drops by its number of edges from the step; released are exactly the successors now at zero, each once |
| Graph.ReleaseSpecCounts | src/koala/flow.py:95-98 | the release loop drops each successor's count by its number of edges from the step and releases, once each and in edge order, the successors reaching zero |
| Graph.IdSetCard | src/koala/flow.py:100 | there are as many distinct ids as steps exactly when ids do not repeat |
| Graph.ClosedCoreBlocksOrder | src/koala/flow.py:100-101 | steps that each wait on another of them can never all be ordered |
| Graph.SelfLoopBlocksOrder | src/koala/flow.py:100-101 | a self-loop leaves the flow without a dependency order |
| Toposort.KahnStart | src/koala/flow.py:90-91 | the initial queue and empty order satisfy the loop invariant |
| Toposort.KahnStep | src/koala/flow.py:92-98 | popping the queue head and releasing its successors keeps the invariant |
| Toposort.KahnDone | src/koala/flow.py:100-101 | at an empty queue, the order is a dependency order of all steps, or none exists |
| Toposort.KahnOrder | src/koala/flow.py:90-99 | the loop emits exactly the FIFO Kahn order (pop the queue head, append its released successors); these are distinct steps, all of them in a dependency order, or fewer exactly when there is a cycle |
| Toposort.StepsOf | src/koala/flow.py:94 | `order.append(nodes[n])`: the steps for the ordered ids |
| Toposort.OrderOutcome | src/koala/flow.py:100 | the length check passes exactly when ids are distinct and an order exists |
| Toposort.Toposort | src/koala/flow.py:81-102 | KeyError for an unknown endpoint; otherwise success exactly when ids are distinct and acyclic, returning every step once with each edge's source first, in the FIFO Kahn order from the initial queue; else FlowError |
| Toposort.NoEdgesKeepQueueOrder | src/koala/flow.py:92-98 | steps with no outgoing edges leave the queue in the order they stand in it |
| Guards.IdentityPost | plugins/koala/guards.py:30-33 | the base `post_step` returns the result unchanged |
| Guards.Guard.constructor | plugins/koala/guards.py:17-33 | a guard that overrides nothing passes args and results through |
| Guards.BaseGuardsChangeNothing | plugins/koala/guards.py:25-65 | guards that keep the base hooks, and no guards at all, leave args and result unchanged |
| Guards.PreChainAppend | plugins/koala/guards.py:52-57 | `run_pre` is a left fold: running two lists is running their concatenation, and an error skips the rest |
| Guards.PostChainAppend | plugins/koala/guards.py:62-65 | the same for `run_post` |
| Guards.PreChainStopsAtNonDict | plugins/koala/guards.py:55-56 | a non-dict from one guard ends the chain with GuardError, whatever later guards would do |
| Guards.PreChainStopsAtRaise | plugins/koala/guards.py:53-54 | an exception from a pre-step hook ends the chain with that exception |
| Guards.PostChainStopsAtRaise | plugins/koala/guards.py:63-64 | an exception from a post-step hook ends the chain with that exception |
| Guards.RemoveFirst | plugins/koala/guards.py:45 | `list.remove`: one occurrence fewer, or the list unchanged when absent |
| Guards.RemoveFirstSplits | plugins/koala/guards.py:45 | the occurrence removed is the first one |
| Guards.GuardsRegistry.constructor | plugins/koala/guards.py:36-38 | a new registry has no guards |
| Guards.GuardsRegistry.Register | plugins/koala/guards.py:40-41 | appends the guard at the end |
| Guards.GuardsRegistry.Unregister | plugins/koala/guards.py:43-47 | removes the first occurrence; an unregistered guard is ignored |
| Guards.GuardsRegistry.RunPre | plugins/koala/guards.py:49-57 | the loop computes the pre-step fold in registration order |
| Guards.GuardsRegistry.RunPost | plugins/koala/guards.py:59-65 | the loop threads the result through every post-step hook, each shown the same args |
| Guards.RegisterRunsLast | plugins/koala/guards.py:40-57 | a guard registered last runs after all earlier ones, on their output |
| Observability.NewRetryPolicy | src/koala/observability.py:147-154 | ValueError exactly when `max_attempts < 1`; otherwise the given fields |
| Observability.PolicyFromDict | src/koala/observability.py:156-164 | None for a falsy value; a truthy non-dict raises AttributeError |
| Observability.PolicyRoundTrip | src/koala/observability.py:156-164 | a policy written as a dict reads back as itself |
| Observability.PolicyDefaults | src/koala/observability.py:156-164 | missing fields take the defaults 3, 0.1 and 2.0 |
| Observability.PolicyRejectsNoAttempts | src/koala/observability.py:150-151 | a dict asking for fewer than one attempt gives ValueError |
| Observability.Retry | src/koala/observability.py:109-122 | at most `retries` calls, stopping at the first success; every earlier call failed; all fail gives the last failure; `retries <= 0` raises TypeError |
| Observability.Redact | src/koala/observability.py:167-179 | same keys; listed fields present with a non-None value become the replacement; all else unchanged |
| Observability.CounterLines | src/koala/observability.py:63-64 | one line per counter |
| Observability.NamedCounterLines | src/koala/observability.py:64 | each line is `"name value"` for the counter at that position |
| Observability.TimerLines | src/koala/observability.py:65-69 | a timer has lines exactly when it has samples |
| Observability.MetricsCollector.constructor | src/koala/observability.py:45-48 | no counters and no timings |
| Observability.MetricsCollector.Inc | src/koala/observability.py:51-53 | adds `amount` to the counter, starting from 0; other counters and the timings unchanged |
| Observability.MetricsCollector.Timing | src/koala/observability.py:55-57 | appends the sample to that timer only |
| Observability.MetricsCollector.ExportPrometheus | src/koala/observability.py:59-70 | the counter lines in name order, then the timer lines, joined by newlines |
| Observability.MetricsCollector.CounterSection | src/koala/observability.py:63-64 | the counter lines in increasing name order |
| Observability.MetricsCollector.TimingSection | src/koala/observability.py:65-69 | the timer lines in increasing name order |
| Observability.CounterLinesOf | src/koala/observability.py:63-64 | the counter loop builds the lines of the named counters, in order |
| Observability.TimingLinesOf | src/koala/observability.py:65-69 | the timer loop builds the lines of the named timers, in order |
| Observability.ExportShowsCounter | src/koala/observability.py:59-70 | every counter's `"name value"` line occurs in the export |
| Observability.Tracer.constructor | src/koala/observability.py:86-88 | no traces |
| Observability.Tracer.StartTrace | src/koala/observability.py:90-94 | returns the new id, under which an empty trace now exists |
| Observability.Tracer.Record | src/koala/observability.py:96-99 | appends the event to that trace, creating it if absent; other traces unchanged |
| Observability.Tracer.GetTrace | src/koala/observability.py:101-102 | the stored trace, or None for an unknown id |
| Tools.Callable.constructor | src/koala/tools.py:160-161 | a function object with its name and module |
| Tools.CheckType | src/koala/tools.py:30-36 | ToolsError exactly for an unknown type name; `"any"` accepts everything |
| Tools.ExtraArgumentsAccepted | src/koala/tools.py:127-135 | arguments not in the schema never cause a rejection |
| Tools.ToolsRegistry.constructor | src/koala/tools.py:66-67 | no tools |
| Tools.ToolsRegistry.Register | src/koala/tools.py:69-97 | re-registering the identical callable changes nothing; otherwise the entry is set to the new metadata and no other entry changes |
| Tools.Registered | src/koala/tools.py:69-97 | the table after `register`: the name is added, no other entry changes, and its entry is kept for the identical callable and replaced by the new metadata otherwise |
| Tools.RegisterTwiceIsOnce | src/koala/tools.py:77-81 | registering the same callable twice under one name is registering it once |
| Tools.ToolsRegistry.Unregister | src/koala/tools.py:99-103 | removes exactly that name; ToolsError and no change for an unknown name |
| Tools.ToolsRegistry.Get | src/koala/tools.py:105-109 | the stored metadata, or ToolsError for an unknown name |
| Tools.ToolsRegistry.ListTools | src/koala/tools.py:111-112 | every registered name once, in increasing order |
| Tools.ToolsRegistry.Actions | src/koala/ingress.py:57-59 | the name-to-function table handed to executors |
| Tools.ToolsRegistry.Call | src/koala/tools.py:114-138 | the function is invoked exactly when the tool exists, a given principal is allowed, and every schema parameter is present with its type; otherwise ToolsError |
| Tools.Tool | src/koala/tools.py:145-173 | registers as `register` does, under the given name or `__name__`, and returns the function; ToolsError without a name |
| Auth.AllowedSet | plugins/koala/auth.py:29 | `set(allowed_tools or [])`: no list allows nothing |
| Auth.AuthManager.constructor | plugins/koala/auth.py:22-24 | no keys |
| Auth.AuthManager.RegisterApiKey | plugins/koala/auth.py:26-29 | replaces the key's set; the key then allows exactly the listed tools, or all of them with `*`; other keys unchanged |
| Auth.AuthManager.UnregisterApiKey | plugins/koala/auth.py:31-33 | removes the key, after which it allows nothing; an absent key is a no-op |
| Auth.AuthManager.IsAllowed | plugins/koala/auth.py:35-43 | False for an unknown key; True with `*`; otherwise membership of the tool name |
| Auth.WildcardAndEmpty | plugins/koala/auth.py:40-43 | a `*` key allows every tool, an empty list none |
| Scheduler.RetryOutcome | src/koala/flow.py:446-458 | the outcome is that of the first successful attempt, or of the last one |
| Scheduler.RetryFailsOnlyIfAllFail | src/koala/flow.py:455-458 | a step fails only if every attempt up to `max_attempts` failed |
| Scheduler.SingleAttempt | src/koala/flow.py:439-461 | with the default policy the action is called once |
| Scheduler.RunWithRetries | src/koala/flow.py:439-461 | between 1 and `max_attempts` attempts; every earlier attempt failed; a failure means all attempts were used |
| Scheduler.ResolveActionPath | src/koala/flow.py:639-650 | a string is the path; a callable with module and name becomes `module.name`; anything else is FlowError |
| Scheduler.PathEntry | src/koala/flow.py:664-669 | an entry becomes a path exactly when it resolves; an unresolvable value is kept as is |
| Scheduler.PathEntryIdempotent | src/koala/flow.py:664-669 | resolving a resolved entry changes nothing |
| Scheduler.ActionPaths | src/koala/flow.py:663-669 | every registry entry resolved, under the same names |
| Scheduler.RemoteInvoke | src/koala/flow.py:774-783 | FlowError for a missing action; otherwise a single call |
| Scheduler.WrapPre | src/koala/flow.py:387-395 | a GuardError from `run_pre` becomes a FlowError naming the step; other errors pass through |
| Scheduler.WrapPost | src/koala/flow.py:517-525 | a GuardError from `run_post` becomes a FlowError naming the step |
| Scheduler.MissingActionFails | src/koala/flow.py:373-375 | a missing action is a FlowError at submission (local, process), or a failed step (remote) |
| Scheduler.LocalStripsReservedKeys | src/koala/flow.py:413-434 | the action never sees `__timeout__` or `__retry__`, and is retried by the policy `__retry__` held |
| Scheduler.LocalDefaultSingleCall | src/koala/flow.py:426-434 | without `__retry__`, one call; its failure is a FlowError naming the step |
| Scheduler.PreGuardErrorWrapped | src/koala/flow.py:387-395 | a pre-step GuardError fails the step with the pre-step FlowError |
| Scheduler.PostGuardErrorWrapped | src/koala/flow.py:516-525 | a post-step GuardError fails the step with the post-step FlowError |
| Scheduler.ReferenceSeesResult | src/koala/flow.py:380-382 | a reference to a finished step resolves to its recorded result |
| Scheduler.Submit | src/koala/flow.py:371-464 | `submit_step`: the outcome the step's worker will produce, and the args the post-step guards will see |
| Scheduler.SubmitAll | src/koala/flow.py:466-468 | submits the ids in turn; the first failing submission ends it, naming that step |
| Scheduler.CountStart | src/koala/flow.py:358 | the initial ready steps have no unfinished predecessor |
| Scheduler.CountStep | src/koala/flow.py:539-544 | completing a step and releasing its successors keeps the count invariant, and released steps have all predecessors done |
| Scheduler.CountDone | src/koala/flow.py:547-550 | when nothing is in flight, a step without a result means there is no dependency order |
| Scheduler.RecordCompletion | src/koala/flow.py:539 | recording a completed step keeps every result equal to its step's specification on its snapshot |
| Scheduler.CompleteRecord | src/koala/flow.py:539-544 | the completion order stays a prefix of a dependency order |
| Scheduler.Finished | src/koala/flow.py:547-550 | at the end, either every step has a result (in a dependency order) or no order exists |
| Scheduler.Advance | src/koala/flow.py:499-544 | one completion: record the result, release successors, submit them; progress is kept or a failing successor is named |
| Scheduler.Complete | src/koala/flow.py:516-544 | recording one result and releasing its successors |
| Scheduler.Launch | src/koala/flow.py:346-358 | graph build (KeyError on a bad edge) and submission of the initial ready steps |
| Scheduler.RunDag | src/koala/flow.py:339-553 | success: results for exactly the step ids, each its step's outcome on its predecessors' results, in a dependency order; failure: a named step's outcome, or no order |
| Scheduler.Drain | src/koala/flow.py:471-550 | the completion loop, picking any submitted step; same outcome as `RunDag` |
| Executors.LocalExecutor.constructor | src/koala/flow.py:321-326 | the default retry policy is one attempt |
| Executors.LocalExecutor.RunDagflow | src/koala/flow.py:339-553 | the shared scheduler with submission by registry, guards and retries |
| Executors.LocalExecutor.RunStateMachine | src/koala/flow.py:555-608 | the machine specification with the registry's guards |
| Executors.ProcessExecutor.constructor | src/koala/flow.py:636-637 | the importable table stands for dynamic import |
| Executors.ProcessExecutor.RunDagflow | src/koala/flow.py:652-729 | the shared scheduler with submission by resolved action path |
| Executors.DummyRemoteExecutor.constructor | src/koala/flow.py:756-758 | keeps the per-call delay, which only slows calls down |
| Executors.DummyRemoteExecutor.RunDagflow | src/koala/flow.py:760-825 | the shared scheduler with the action looked up inside the worker |
| Executors.RunRecorded | src/koala/flow.py:547-553 | a successful run records every step's outcome on its predecessors' results |
| Executors.StepSnapshot | src/koala/flow.py:378-384 | every step's recorded result is its outcome on a snapshot holding all its predecessors |
| Executors.RanOnce | src/koala/flow.py:439-461 | with the default policy, a result is a single call of the action |
| Executors.LocalAgreesWithSequential | src/koala/flow.py:371-464 | a step succeeds locally exactly when `DAGFlow.run` would, with the same result |
| Executors.EmptyGuardsSameAsNone | src/koala/flow.py:387-395 | an empty guards registry changes nothing |
| Executors.RemoteAgreesWithLocal | src/koala/flow.py:788-798 | for a registered action the remote executor computes what the local one does |
| Machine.RunFrom | src/koala/flow.py:214-227 | results only for states with an action, and earlier results are kept |
| Machine.MachineSpec | src/koala/flow.py:209-227 | FlowError without a start state; results only for known states with an action |
| Machine.RunStateMachine | src/koala/flow.py:209-227 | the event loop computes the machine specification |
| Machine.StopsAtMissingTransition | src/koala/flow.py:223-225 | the first event without a transition ends the run; later events are ignored |
| Machine.NoGuardsSameAsNone | src/koala/flow.py:579-599 | an empty guard list behaves as no guards |
| Machine.UnguardedVisit | src/koala/flow.py:218-222 | an action is called with `event` and `state` |
| Machine.EchoExample | src/koala/flow.py:202-227 | a two-state echo machine records `start:go` under `start` |
| Ingress.LoadFlow | src/koala/ingress.py:81-103 | IngressError without `flow`/`flow_id`, without a repo, or for an unknown id; `type == "state"` selects the machine form |
| Ingress.FlowIdTakesPrecedence | src/koala/ingress.py:89-96 | with `flow_id` present, `flow` is ignored |
| Ingress.InlineMachineRoundTrip | src/koala/ingress.py:97-98 | an inline state machine is loaded as written |
| Ingress.InlineDagRoundTrip | src/koala/ingress.py:99-100 | an inline DAG of any other type is loaded as written |
| Ingress.ActionsOf | src/koala/ingress.py:58 | the registry's name-to-function table |
| Ingress.ActionRefsOf | src/koala/ingress.py:58 | the same table as action references for the process executor |
| Ingress.Respond | src/koala/ingress.py:78 | success wraps the results as `{"results": r}`; errors pass through |
| Ingress.RunLoadedDag | src/koala/ingress.py:56-59 | a successful DAG run has results for exactly the step ids |
| Ingress.RunPlain | src/koala/ingress.py:74-76 | a successful plain `DAGFlow.run` has results for exactly the step ids |
| Ingress.RunLoadedMachine | src/koala/ingress.py:60-72 | the machine run with `events`, unguarded |
| Ingress.ProcessRestPayload | src/koala/ingress.py:20-78 | load errors pass through; the response is `{"results": ...}`; events default to `[]` |
| KeyValue.InsertKey | plugins/koala/state_store.py:42 | a new key goes last; an existing key keeps its place |
| KeyValue.RemoveKey | plugins/koala/state_store.py:50 | exactly that key leaves the order |
| KeyValue.KeysWithPrefix | plugins/koala/state_store.py:54-56 | the keys in order, those starting with the prefix when one is given |
| KeyValue.InsertKeepsValid | plugins/koala/memory.py:40 | setting keeps the table and its key order in step |
| KeyValue.RemoveKeepsValid | plugins/koala/memory.py:46 | deleting keeps the table and its key order in step |
| KeyValue.ListedKeysExact | plugins/koala/memory.py:48-51 | the listing holds exactly the stored keys with the prefix, each once |
| KeyValue.EmptyPrefixListsAll | plugins/koala/memory.py:51 | the empty prefix lists every key |
| Memory.InMemoryStore.constructor | plugins/koala/memory.py:36-37 | an empty store |
| Memory.InMemoryStore.Set | plugins/koala/memory.py:39-40 | that key gets the value, all others unchanged |
| Memory.InMemoryStore.Get | plugins/koala/memory.py:42-43 | the stored value, or None |
| Memory.InMemoryStore.Delete | plugins/koala/memory.py:45-46 | that key removed, others unchanged; an absent key is a no-op |
| Memory.InMemoryStore.ListKeys | plugins/koala/memory.py:48-51 | exactly the stored keys with the prefix (all without one), in insertion order, each once |
| Memory.SetGetDeleteScenario | plugins/koala/memory.py:39-51 | set then get returns the value, listing by prefix, get after delete is None |
| StateStore.InMemoryStateStore.constructor | plugins/koala/state_store.py:36-38 | an empty store |
| StateStore.InMemoryStateStore.Set | plugins/koala/state_store.py:40-42 | that key gets the value, all others unchanged |
| StateStore.InMemoryStateStore.Get | plugins/koala/state_store.py:44-46 | the stored value, or None |
| StateStore.InMemoryStateStore.Delete | plugins/koala/state_store.py:48-50 | that key removed, others unchanged; an absent key is a no-op |
| StateStore.InMemoryStateStore.ListKeys | plugins/koala/state_store.py:52-56 | exactly the stored keys with the prefix (all without one), in insertion order, each once |
| PubSub.HandlersOf | src/koala/queue.py:38 | no handlers for an unknown topic |
| PubSub.Subscribed | src/koala/queue.py:47-49 | appends the handler to its topic; other topics unchanged |
| PubSub.Deliveries | src/koala/queue.py:39-45 | every handler is called in order, whether or not an earlier one raised |
| PubSub.LastSubscriberCalledLast | src/koala/queue.py:36-49 | the handler subscribed last is called last |
| PubSub.OtherTopicsUnaffected | src/koala/queue.py:47-49 | subscribing changes nothing delivered on other topics |
| PubSub.Put | plugins/koala/queue_adapter.py:69-87 | Full exactly when full; otherwise the item goes at the back |
| PubSub.Get | plugins/koala/queue_adapter.py:89-106 | Empty exactly when empty; otherwise the front item comes out |
| PubSub.PutAllAppends | plugins/koala/queue_adapter.py:82 | a queue with room takes every item, in order, at the back |
| PubSub.GetNTakesFront | plugins/koala/queue_adapter.py:89-106 | gets take items from the front; one too many is Empty |
| PubSub.FirstInFirstOut | plugins/koala/queue_adapter.py:82-100 | items come out in the order they were put in |
| QueueAdapter.Queue.constructor | plugins/koala/queue_adapter.py:53-56 | an empty queue with the given bound |
| QueueAdapter.Queue.QSize | plugins/koala/queue_adapter.py:58-60 | the number of items |
| QueueAdapter.Queue.IsEmpty | plugins/koala/queue_adapter.py:62-63 | true exactly when there are no items |
| QueueAdapter.Queue.IsFull | plugins/koala/queue_adapter.py:65-67 | only a positive bound can be reached |
| QueueAdapter.Queue.PutNowait | plugins/koala/queue_adapter.py:85-87 | Full with the queue unchanged, or the item appended |
| QueueAdapter.Queue.GetNowait | plugins/koala/queue_adapter.py:104-106 | Empty with the queue unchanged, or the front item removed and returned |
| QueueAdapter.InMemoryQueue.constructor | plugins/koala/queue_adapter.py:108-113 | no topics |
| QueueAdapter.InMemoryQueue.Publish | plugins/koala/queue_adapter.py:116-125 | one delivery per handler subscribed now, in order; none for an unknown topic |
| QueueAdapter.InMemoryQueue.Subscribe | plugins/koala/queue_adapter.py:127-129 | appends the handler to its topic |
| KoalaQueue.InMemoryQueue.constructor | src/koala/queue.py:28-33 | no topics |
| KoalaQueue.InMemoryQueue.Publish | src/koala/queue.py:36-45 | one delivery per handler subscribed now, in order; none for an unknown topic |
| KoalaQueue.InMemoryQueue.Subscribe | src/koala/queue.py:47-49 | appends the handler to its topic |
| QueueAdapterCompat.InMemoryQueue.constructor | plugins/koala/_queue_adapter.py:21-26 | no topics |
| QueueAdapterCompat.InMemoryQueue.Publish | plugins/koala/_queue_adapter.py:29-36 | one delivery per handler subscribed now, in order; none for an unknown topic |
| QueueAdapterCompat.InMemoryQueue.Subscribe | plugins/koala/_queue_adapter.py:38-40 | appends the handler to its topic |
| AgentA.AlphaWords | examples/agent_a.py:31 | exactly the alphabetic tokens, in order |
| AgentA.StripAlphaWord | examples/agent_a.py:31 | stripping `<>/ ` leaves an alphabetic word unchanged |
| AgentA.Parser | examples/agent_a.py:28-32 | one record per alphabetic token, in order, with `score == len(word)` |
| AgentA.ParserScoresNumeric | examples/agent_a.py:32 | every parsed record has an integer score |
| AgentA.Normalized | examples/agent_a.py:40-48 | only scored dicts remain, no more than there were items |
| AgentA.NormalizedRecords | examples/agent_a.py:42-43 | scored dicts are kept as they are |
| AgentA.NormalizedMembers | examples/agent_a.py:41-48 | the normalised items are exactly the scored dicts among the items and `{"word": s, "score": len(s)}` for each string `s` among them |
| AgentA.NormalizedAppend | examples/agent_a.py:41-48 | normalising keeps the input order: a concatenation normalises part by part |
| AgentA.NormalizedOne | examples/agent_a.py:42-48 | one item: a scored dict is kept, a string becomes its record, anything else is dropped |
| AgentA.InsertByScore | examples/agent_a.py:49 | insertion adds exactly one item |
| AgentA.SortByScore | examples/agent_a.py:49 | the sort is a permutation |
| AgentA.SortIsOrdered | examples/agent_a.py:49 | the sort is by non-increasing score |
| AgentA.HeadScoresHighest | examples/agent_a.py:49 | after the sort, no item scores higher than the first |
| AgentA.InsertIsStable | examples/agent_a.py:49 | an inserted item goes after every item of its own score |
| AgentA.SortIsStable | examples/agent_a.py:49 | the sort is stable: the items of each score keep their input order |
| AgentA.SliceTo | examples/agent_a.py:49 | `xs[:k]`, including negative `k` |
| AgentA.TopByScore | examples/agent_a.py:49 | the cut sorted list is ordered and a sub-multiset of the input |
| AgentA.ReRank | examples/agent_a.py:35-49 | the normalize loop then sort and cut: ordered by score, a sub-multiset of the normalized items, at most `top_k` long |
| AgentA.OutputRecords | examples/agent_a.py:52-55 | `count` is the length and `top` the items |
| AgentA.DownloaderAction | examples/agent_a.py:20-25 | the fake page for the url; other arguments are a TypeError |
| AgentA.ParserAction | examples/agent_a.py:28-32 | succeeds exactly on one string `html`, with the parsed records |
| AgentA.ItemsOf | examples/agent_a.py:41 | iterating a list gives its items, a string its characters |
| AgentA.Cut | examples/agent_a.py:49 | `[:top_k]` for an int, None or bool, a prefix of the ranking; TypeError otherwise |
| AgentA.ReRankAction | examples/agent_a.py:35-49 | TypeError for missing `items`, unexpected keywords or non-iterable items |
| AgentA.ReRankActionRanks | examples/agent_a.py:40-49 | the output is ordered by score and drawn from the normalized items; without `top_k`, the best 5 |
| AgentA.OutputRecordsAction | examples/agent_a.py:52-55 | succeeds exactly on one sized `items`, with count and top |
| AgentA.BuildFlow | examples/agent_a.py:58-70 | the four-step flow download, parse, rank, out with its three edges |
| AgentA.AgentAIds | examples/agent_a.py:60-64 | the four ids, distinct |
| AgentA.AgentAOrder | examples/agent_a.py:65-68 | the only dependency order is download, parse, rank, out |
| AgentA.AgentAReport | examples/agent_a.py:52-55 | `out` holds the count of `top`, at most 5 records, ordered by score and taken from the parsed page |
| AgentA.RecordedIsComputed | examples/agent_a.py:58-78 | a recorded run holds exactly what the four tools compute in a chain |
| AgentA.RunAgentA | examples/agent_a.py:73-78 | `main`: a successful run yields that chain's results |
| AgentB.FirstWords | examples/agent_b.py:22 | the first at most 10 words |
| AgentB.SummaryIsLeadingWords | examples/agent_b.py:19-22 | the summary's words are the text's first at most 10 words |
| AgentB.SummarizeIdempotent | examples/agent_b.py:19-22 | summarizing a summary changes nothing |
| AgentB.AssignReviewer | examples/agent_b.py:25-28 | reviewer `"alice"`, summary unchanged |
| AgentB.ApproveStep | examples/agent_b.py:31-38 | TypeError for a non-dict, KeyError for a missing reviewer or summary; otherwise succeeds |
| AgentB.ApprovalOfAssignment | examples/agent_b.py:25-38 | approving an assignment copies the flag, `by = "alice"` and the summary |
| AgentB.SummarizerAction | examples/agent_b.py:19-22 | succeeds exactly on one string `text`, with its summary |
| AgentB.AssignReviewerAction | examples/agent_b.py:25-28 | the assignment for exactly one `summary` argument, else TypeError |
| AgentB.ApproveStepAction | examples/agent_b.py:31-38 | `approved` defaults to True; unexpected keywords are a TypeError |
| AgentB.BuildFlow | examples/agent_b.py:41-51 | the three-step flow sum, assign, approve with its two edges |
| AgentB.AgentBIds | examples/agent_b.py:43-46 | the three ids, distinct |
| AgentB.AgentBOrder | examples/agent_b.py:47-49 | the only dependency order is sum, assign, approve |
| AgentB.AgentBApproval | examples/agent_b.py:54-61 | the approval is granted, by `"alice"`, on the text's leading words |
| AgentB.RecordedIsComputed | examples/agent_b.py:41-61 | a recorded run holds exactly what the three tools compute in a chain |
| AgentB.RunAgentB | examples/agent_b.py:54-61 | `main`: a successful run yields that chain's results |
| WebSearch.Repeat | cookbook/web_search_agent.py:432 | `'-' * 80`: n copies of the character |
| WebSearch.Prefix | cookbook/web_search_agent.py:431 | `content[:1000]`: a prefix of at most n characters |
| WebSearch.Get | cookbook/web_search_agent.py:423-424 | `d.get(key, default)` |
| WebSearch.Shown | cookbook/web_search_agent.py:428-431 | the shown form of a scalar; TypeError otherwise |
| WebSearch.ContentOf | cookbook/web_search_agent.py:425 | `scraped_content` when truthy, else `content`, else `"No content"` |
| WebSearch.BlockOf | cookbook/web_search_agent.py:422-433 | AttributeError for a non-dict; otherwise the block of title (default `Untitled`), url (default empty) and content |
| WebSearch.BlocksErrPropagates | cookbook/web_search_agent.py:422-433 | the first result that fails decides the error |
| WebSearch.BlocksAreNumbered | cookbook/web_search_agent.py:422 | one block per result, numbered from 1 |
| WebSearch.BlockShape | cookbook/web_search_agent.py:427-433 | a block starts with `[Source i]`, ends with `...` and 80 dashes, and shows at most 1000 content characters |
| WebSearch.BlockDefaults | cookbook/web_search_agent.py:423-425 | an empty result shows `Untitled`, an empty url and `No content` |
| WebSearch.ScrapedContentWins | cookbook/web_search_agent.py:425 | non-empty scraped content is what the block shows |
| WebSearch.ExtractContext | cookbook/web_search_agent.py:408-435 | `"No search results available."` for an empty list; otherwise the blocks joined by newlines |
| WebSearch.ExtractContextBlocks | cookbook/web_search_agent.py:421-435 | one numbered block per result, each occurring in the context |
| WebSearch.Body | cookbook/web_search_agent.py:591-596 | a missing answer is a KeyError |
| WebSearch.FormatOutput | cookbook/web_search_agent.py:576-599 | the report accumulated with `+=` |
| WebSearch.ReportIsFramed | cookbook/web_search_agent.py:587-598 | the report is header, body and closing rule |
| WebSearch.ReportFrame | cookbook/web_search_agent.py:587-598 | starts with a newline and 80 `=`, ends with 80 `=` and a newline, shows the question |
| WebSearch.ReportOnSuccess | cookbook/web_search_agent.py:591-594 | on success the answer and the `Model:` line (default `Unknown`) appear |
| WebSearch.ReportOnFailure | cookbook/web_search_agent.py:595-596 | otherwise the answer appears after the cross mark |
| WebSearch.BuildWebSearchFlow | cookbook/web_search_agent.py:619-633 | the five-step flow with its four edges |
| WebSearch.WebSearchIds | cookbook/web_search_agent.py:620-627 | the five step ids |
| WebSearch.WebSearchOrder | cookbook/web_search_agent.py:628-631 | the only dependency order is the linear chain |

## Left out

- Concurrency: thread and process pools, `concurrent.futures.wait`, `asyncio.run`, locks and `BrokenProcessPool`. The completion loop is a sequential loop that picks any submitted step.
- Clocks: the `__timeout__` elapsed-time check, which needs a clock; the key is only stripped. Also retry backoff sleeps, `per_call_delay`, `perf_counter` durations, timestamps in traces and logs, and uuid trace ids (the caller supplies the fresh id).
- Tracer and logger calls inside `run_dagflow`, the step metrics it increments, and `StructuredLogger`: these are observability side effects that do not affect results.
- `FlowRepository` persistence and JSON text (`dumps`/`loads`). `to_dict`/`from_dict` work on a structured document, and the repository is a table from id to flow.
- `_process_invoke` dynamic import: an importable table from dotted path to action stands for it.
- `max_workers`, which only sizes the pools.
- `run_with_timeout`, SQL-backed stores, blocking `put`/`get` with condition waits, the web, metrics and LLM servers, and the Airflow executor and orchestrator: all I/O or concurrency.
- Timing averages in `export_prometheus`: they are floats, so an average's text is a caller-supplied formatting function.
- `web_search`, `scrape_urls` and `llm_summarize`, which are network tools.
- Handlers and tool functions are oracles. What they do beyond returning or raising is not modelled.
- `Text.ParseInt`: `int()` of a string accepts only an optional sign and ASCII digits. Python also accepts surrounding whitespace, underscores and other Unicode digits.
- `Text.ParseDecimal`: `float()` of a string accepts an optional sign and a plain decimal (`-0.5`, `.25`, `3.`). Python also accepts exponents (`1e-3`), `inf`, `nan`, surrounding whitespace, underscores and other Unicode digits; the model has these raise ValueError.
- `AgentA.AlphaWords`: `str.isalpha` is modelled for ASCII letters only.
- `Text.Display`: `str()` of floats, lists and dicts is not modelled; showing them in a report is an error in the model, while Python prints them.
- `WebSearch.Shown`: uses `Text.Display`, so a float, list or dict field in a search result is an error in the model, while Python prints it.
- `AgentA.ReRank`: requires numeric scores. `AgentA.ReRankAction` returns TypeError when a scored dict has a non-numeric score, while Python can also sort a list whose scores are all strings, and returns a single scored item as is whatever its score (`sorted` compares nothing for one item, so `[{"score": None}]` comes back unchanged).
- `AgentA.ReRankAction`: iterating a dict in `re_rank` would yield its keys; the model treats a dict as not iterable.
- `WebSearch.BlockOf`: content that is a list would be sliced by Python; the model reports TypeError.
- `AgentA.RunAgentA` and `AgentB.RunAgentB`: the chain's results are proved only for an input that is not itself a `$result.` reference, and success of the run is not proved.
- `Ingress.RunLoadedDag`: states only the result keys for a DAG run, because which executor runs the flow is a parameter.
- The tool registry of the agents holds only the agents' own tools, not everything a Python process may have registered.
- `Ingress.Payload`: `flow_id` and `events` are typed optional fields, so a payload cannot hold an explicit `"flow_id": None` (Python counts the key as present and looks None up in the repository, src/koala/ingress.py:40-43) or `"events": None` (Python hands None on to `run_state_machine`, src/koala/ingress.py:64).
