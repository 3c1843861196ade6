/** The REST ingress of src/koala/ingress.py: a payload names a stored
    flow (`flow_id`) or carries one inline (`flow`, with `type` "state" for
    a state machine); `process_rest_payload` loads it, runs it through the
    executor's matching entry point or the flow's own `run`, and answers
    `{"results": ...}`. */
module Ingress {

  import opened Values
  import opened FlowData
  import opened Graph
  import Tools
  import Machine
  import Scheduler
  import Executors
  import Flow

  /** The payload's keys; a missing key is None. */
  datatype Payload = Payload(flowId: Option<string>, flow: Option<FlowDoc>, flowType: Option<Value>,
                             events: Option<seq<string>>)

  /** A flow as `load_flow` or `from_dict` hands it back. */
  datatype LoadedFlow = LoadedDag(dag: DagData) | LoadedMachine(machine: SmData)

  /** `load_flow_from_payload(payload, repo)`. The repository is the table
      of stored flows by id (None: no repository configured); an id it does
      not hold is `load_flow` returning None. */
  function LoadFlow(payload: Payload, repo: Option<map<string, LoadedFlow>>): (r: Result<LoadedFlow>)
    ensures payload.flowId.None? && payload.flow.None? ==> r == Err(IngressError)
    ensures payload.flowId.Some? && repo.None? ==> r == Err(IngressError)
    ensures payload.flowId.Some? && repo.Some? ==>
      r == if payload.flowId.value in repo.value then Ok(repo.value[payload.flowId.value]) else Err(IngressError)
    ensures payload.flowId.None? && payload.flow.Some? ==>
      (r.Ok? <==> if payload.flowType == Some(VStr("state")) then SmFromDoc(payload.flow.value).Ok?
                  else DagFromDoc(payload.flow.value).Ok?)
  {
    if payload.flowId.Some? then
      if repo.None? then Err(IngressError)
      else if payload.flowId.value !in repo.value then Err(IngressError)
      else Ok(repo.value[payload.flowId.value])
    else if payload.flow.Some? then
      if payload.flowType == Some(VStr("state")) then
        var m :- SmFromDoc(payload.flow.value);
        Ok(LoadedMachine(m))
      else
        var d :- DagFromDoc(payload.flow.value);
        Ok(LoadedDag(d))
    else Err(IngressError)
  }

  /** With both keys present, `flow_id` decides and the inline flow is not
      looked at. */
  lemma FlowIdTakesPrecedence(payload: Payload, repo: Option<map<string, LoadedFlow>>, doc: FlowDoc)
    requires payload.flowId.Some?
    ensures LoadFlow(payload.(flow := Some(doc)), repo) == LoadFlow(payload.(flow := None), repo)
  {
  }

  /** A state machine sent inline with type "state" arrives as itself. */
  lemma InlineMachineRoundTrip(m: SmData, repo: Option<map<string, LoadedFlow>>, events: Option<seq<string>>)
    ensures LoadFlow(Payload(None, Some(SmToDoc(m)), Some(VStr("state")), events), repo) == Ok(LoadedMachine(m))
  {
    SmRoundTrip(m);
  }

  /** A DAG sent inline with any type but "state" (or none) arrives as itself. */
  lemma InlineDagRoundTrip(d: DagData, flowType: Option<Value>, repo: Option<map<string, LoadedFlow>>,
                           events: Option<seq<string>>)
    requires flowType != Some(VStr("state"))
    ensures LoadFlow(Payload(None, Some(DagToDoc(d)), flowType, events), repo) == Ok(LoadedDag(d))
  {
    DagRoundTrip(d);
  }

  /** The executor `process_rest_payload` is given: one of the three, or an
      object with neither entry point, for which the flow's own `run` is used. */
  datatype Runner =
    | LocalRunner(local: Executors.LocalExecutor)
    | ProcessRunner(process: Executors.ProcessExecutor)
    | RemoteRunner(remote: Executors.DummyRemoteExecutor)
    | PlainRunner

  /** `{name: meta.func for name, meta in registry._tools.items()}`. */
  function ActionsOf(tools: Tools.ToolsRegistry): (actions: map<string, ActionFn>)
    reads tools
    ensures actions.Keys == tools.tools.Keys
  {
    map name | name in tools.tools :: tools.tools[name].func.fn
  }

  /** The same table as the process executor is handed it: callables. */
  function ActionRefsOf(tools: Tools.ToolsRegistry): (refs: map<string, Scheduler.ActionRef>)
    reads tools
    ensures refs.Keys == tools.tools.Keys
  {
    map name | name in tools.tools :: Scheduler.FuncRef(tools.tools[name].func)
  }

  /** `{"results": results}`. */
  function Respond(results: Result<map<string, Value>>): (r: Result<Value>)
    ensures r.Ok? <==> results.Ok?
    ensures r.Err? ==> r.error == results.error
    ensures r.Ok? ==> r.value.VDict? && r.value.fields.Keys == {"results"} &&
                      r.value.fields["results"] == VDict(results.value)
  {
    if results.Err? then Err(results.error) else Ok(VDict(map["results" := VDict(results.value)]))
  }

  /** A loaded DAG run by the runner's `run_dagflow`, or by its own `run`:
      a result for every step. */
  method RunLoadedDag(d: DagData, runner: Runner, tools: Tools.ToolsRegistry, actions: map<string, ActionFn>)
    returns (results: Result<map<string, Value>>)
    requires actions == ActionsOf(tools)
    ensures results.Ok? ==> results.value.Keys == IdSet(d.steps)
  {
    ghost var schedule, snapshots, blame;
    var flow := new Flow.DagFlow(d.id, d.version);
    flow.steps := d.steps;
    flow.edges := d.edges;
    match runner {
      case LocalRunner(e) =>
        results, schedule, snapshots, blame := e.RunDagflow(flow, actions, null);
      case ProcessRunner(e) =>
        results, schedule, snapshots, blame := e.RunDagflow(flow, ActionRefsOf(tools));
      case RemoteRunner(e) =>
        results, schedule, snapshots, blame := e.RunDagflow(flow, actions);
      case PlainRunner =>
        results := RunPlain(flow, actions);
    }
  }

  /** `flow.run()`, for a runner without `run_dagflow`. */
  method RunPlain(flow: Flow.DagFlow, actions: map<string, ActionFn>) returns (results: Result<map<string, Value>>)
    ensures results.Ok? ==> results.value.Keys == IdSet(flow.steps)
  {
    ghost var order;
    results, order := flow.Run(actions);
    if results.Ok? {
      assert results.value.Keys == SetOf(StepIds(order));
      assert SetOf(StepIds(order)) == IdSet(flow.steps);
    }
  }

  /** A loaded state machine run by the local executor's
      `run_state_machine`, or by its own `run` under any other runner. */
  method RunLoadedMachine(m: SmData, runner: Runner, actions: map<string, ActionFn>, events: seq<string>)
    returns (results: Result<map<string, Value>>)
    ensures results == Machine.MachineSpec(m, actions, events, None)
  {
    var sm := new Flow.StateMachine(m.id, m.version);
    sm.states := m.states;
    sm.startState := m.startState;
    match runner {
      case LocalRunner(e) =>
        results := e.RunStateMachine(sm, actions, events, null);
      case _ =>
        results := sm.Run(actions, events);
    }
  }

  /** `process_rest_payload(payload, registry, executor, repo)`: the
      registry defaults to the module's default registry, the executor to a
      fresh `LocalExecutor`, the events to the empty list. */
  method ProcessRestPayload(payload: Payload, registry: Tools.ToolsRegistry?, defaultRegistry: Tools.ToolsRegistry,
                            executor: Option<Runner>, repo: Option<map<string, LoadedFlow>>)
    returns (r: Result<Value>)
    ensures LoadFlow(payload, repo).Err? ==> r == Err(LoadFlow(payload, repo).error)
    ensures r.Ok? ==> r.value.VDict? && r.value.fields.Keys == {"results"} && r.value.fields["results"].VDict?
    ensures LoadFlow(payload, repo).Ok? && LoadFlow(payload, repo).value.LoadedMachine? ==>
      r == Respond(Machine.MachineSpec(LoadFlow(payload, repo).value.machine,
                                       ActionsOf(if registry != null then registry else defaultRegistry),
                                       if payload.events.Some? then payload.events.value else [], None))
    ensures LoadFlow(payload, repo).Ok? && LoadFlow(payload, repo).value.LoadedDag? && r.Ok? ==>
      r.value.fields["results"].fields.Keys == IdSet(LoadFlow(payload, repo).value.dag.steps)
  {
    var loaded := LoadFlow(payload, repo);
    if loaded.Err? {
      return Err(loaded.error);
    }
    var tools := if registry != null then registry else defaultRegistry;
    var actions := ActionsOf(tools);
    var runner: Runner;
    if executor.Some? {
      runner := executor.value;
    } else {
      var local := new Executors.LocalExecutor();
      runner := LocalRunner(local);
    }
    var events := if payload.events.Some? then payload.events.value else [];
    var results: Result<map<string, Value>>;
    match loaded.value {
    case LoadedDag(d) =>
      results := RunLoadedDag(d, runner, tools, actions);
    case LoadedMachine(m) =>
      results := RunLoadedMachine(m, runner, actions, events);
    }
    r := Respond(results);
  }
}
