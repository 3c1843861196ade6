/** The executors of src/koala/flow.py: `LocalExecutor` (guards and
    per-step retry policies), `ProcessExecutor` (actions reached through
    dotted import paths) and `DummyRemoteExecutor` (the action looked up by
    the worker). All three run the one readiness loop of `Scheduler.RunDag`;
    they differ only in how a step reaches its action. */
module Executors {

  import opened Values
  import opened FlowData
  import opened Graph
  import Guards
  import Observability
  import Scheduler
  import Machine
  import Flow

  /** `LocalExecutor.default_retry`: one attempt, no backoff. */
  const LocalDefaultRetry: Observability.Policy := Observability.RetryPolicy(1, 0.0, 1.0)

  /** `if guards:` — any registry object, even one holding no guards, turns
      the guard calls on; no registry turns them off. */
  function GuardsOf(guards: Guards.GuardsRegistry?): Option<seq<Guards.Guard>>
    reads guards
  {
    if guards == null then None else Some(guards.guards)
  }

  /** What every `run_dagflow` promises for step semantics `v`: a bad edge
      endpoint is the KeyError of the graph build; a success records one
      result per declared step, each computed against results of all its
      predecessors, in an order that respects every edge; a failure is
      either some step's own failure or the final completeness check. */
  ghost predicate DagRun(v: Scheduler.Variant, steps: seq<Step>, edges: seq<Edge>, r: Result<map<string, Value>>,
                         schedule: seq<string>, snapshots: map<string, map<string, Value>>, blame: Option<string>)
  {
    (FirstBadEndpoint(edges, IdSet(steps)).Some? ==>
       r == Err(KeyError(FirstBadEndpoint(edges, IdSet(steps)).value))) &&
    (r.Ok? ==> r.value.Keys == IdSet(steps) && IsTopoOrder(schedule, IdSet(steps), edges)) &&
    (r.Ok? ==> forall x :: x in r.value ==>
       x in snapshots && Scheduler.SubMap(snapshots[x], r.value) &&
       Scheduler.AllPredsIn(x, snapshots[x].Keys, edges) &&
       Scheduler.StepSpec(v, NodesOf(steps)[x], snapshots[x]) == Ok(r.value[x])) &&
    (FirstBadEndpoint(edges, IdSet(steps)).None? && r.Err? ==>
       (blame.Some? && blame.value in snapshots && blame.value in IdSet(steps) &&
        Scheduler.AllPredsIn(blame.value, snapshots[blame.value].Keys, edges) &&
        Scheduler.StepSpec(v, NodesOf(steps)[blame.value], snapshots[blame.value]) == Err(r.error)) ||
       (blame.None? && r.error == FlowError(NotAllExecuted) && !HasTopoOrder(IdSet(steps), edges)))
  }

  /** Step `x` was recorded with the result its semantics give on a
      snapshot of earlier results that holds all of its predecessors. */
  ghost predicate StepDone(v: Scheduler.Variant, steps: seq<Step>, edges: seq<Edge>, results: map<string, Value>,
                           snapshots: map<string, map<string, Value>>, x: string) {
    x in results && x in snapshots && x in NodesOf(steps) &&
    Scheduler.SubMap(snapshots[x], results) && Scheduler.AllPredsIn(x, snapshots[x].Keys, edges) &&
    Scheduler.StepSpec(v, NodesOf(steps)[x], snapshots[x]) == Ok(results[x])
  }

  /** What a successful run records, one step at a time. */
  ghost predicate Recorded(v: Scheduler.Variant, steps: seq<Step>, edges: seq<Edge>, results: map<string, Value>,
                           snapshots: map<string, map<string, Value>>) {
    results.Keys == IdSet(steps) &&
    forall x {:trigger StepDone(v, steps, edges, results, snapshots, x)} :: x in results ==>
      StepDone(v, steps, edges, results, snapshots, x)
  }

  /** A successful run records every step. */
  lemma RunRecorded(v: Scheduler.Variant, steps: seq<Step>, edges: seq<Edge>, results: map<string, Value>,
                    schedule: seq<string>, snapshots: map<string, map<string, Value>>, blame: Option<string>)
    requires DagRun(v, steps, edges, Ok(results), schedule, snapshots, blame)
    ensures Recorded(v, steps, edges, results, snapshots)
  {
    forall x | x in results ensures StepDone(v, steps, edges, results, snapshots, x) {
    }
  }

  /** With unique ids, what the run recorded about the step at index `i`. */
  lemma StepSnapshot(v: Scheduler.Variant, steps: seq<Step>, edges: seq<Edge>, results: map<string, Value>,
                     snapshots: map<string, map<string, Value>>, i: nat)
    requires Recorded(v, steps, edges, results, snapshots) && UniqueIds(steps) && i < |steps|
    ensures var st := steps[i];
      st.id in results && st.id in snapshots && Scheduler.SubMap(snapshots[st.id], results) &&
      Scheduler.AllPredsIn(st.id, snapshots[st.id].Keys, edges) &&
      Scheduler.StepSpec(v, st, snapshots[st.id]) == Ok(results[st.id])
  {
    assert steps[i] in steps;
    NodesOfUnique(steps, i);
    assert StepDone(v, steps, edges, results, snapshots, steps[i].id);
  }

  /** On a fresh local executor without guards, a step without reserved
      keys that succeeded is its action's first outcome on the resolved
      arguments. */
  lemma RanOnce(registry: map<string, ActionFn>, step: Step, snapshot: map<string, Value>, result: Value)
    requires step.action in registry
    requires Scheduler.TimeoutKey !in step.args && Scheduler.RetryKey !in step.args
    requires Scheduler.StepSpec(Scheduler.Local(registry, None, LocalDefaultRetry), step, snapshot) == Ok(result)
    ensures registry[step.action](ResolveArgs(step.args, snapshot), 1) == Ok(result)
  {
    var args := ResolveArgs(step.args, snapshot);
    assert args - {Scheduler.TimeoutKey, Scheduler.RetryKey} == args;
    Scheduler.LocalDefaultSingleCall(registry, step, snapshot);
  }

  class LocalExecutor {
    /** The policy of a step whose `__retry__` gives none. */
    const defaultRetry: Observability.Policy

    constructor ()
      ensures defaultRetry == LocalDefaultRetry
    {
      defaultRetry := LocalDefaultRetry;
    }

    /** `run_dagflow(flow, registry, guards)`. */
    method RunDagflow(flow: Flow.DagFlow, registry: map<string, ActionFn>, guards: Guards.GuardsRegistry?)
      returns (r: Result<map<string, Value>>, ghost schedule: seq<string>,
               ghost snapshots: map<string, map<string, Value>>, ghost blame: Option<string>)
      ensures r.Ok? ==> r.value.Keys == IdSet(flow.steps)
      ensures DagRun(Scheduler.Local(registry, GuardsOf(guards), defaultRetry), flow.steps, flow.edges,
                     r, schedule, snapshots, blame)
    {
      var v := Scheduler.Local(registry, GuardsOf(guards), defaultRetry);
      r, schedule, snapshots, blame := Scheduler.RunDag(v, flow.steps, flow.edges);
    }

    /** `run_state_machine(sm, registry, events, guards)`: `StateMachine.run`
        with the guard calls of `run_dagflow`. */
    method RunStateMachine(sm: Flow.StateMachine, registry: map<string, ActionFn>, events: seq<string>,
                           guards: Guards.GuardsRegistry?)
      returns (r: Result<map<string, Value>>)
      ensures r == Machine.MachineSpec(sm.Data(), registry, events, GuardsOf(guards))
      ensures r.Ok? ==> forall k :: k in r.value ==> HasState(sm.states, k)
    {
      r := Machine.RunStateMachine(sm.Data(), registry, events, GuardsOf(guards));
    }
  }

  class ProcessExecutor {
    /** The callables an import by dotted path can reach. */
    const importable: map<string, ActionFn>

    constructor (importable: map<string, ActionFn>)
      ensures this.importable == importable
    {
      this.importable := importable;
    }

    /** `run_dagflow(flow, registry)`: each registry value is turned into a
        dotted path where possible, and the worker imports it. */
    method RunDagflow(flow: Flow.DagFlow, registry: map<string, Scheduler.ActionRef>)
      returns (r: Result<map<string, Value>>, ghost schedule: seq<string>,
               ghost snapshots: map<string, map<string, Value>>, ghost blame: Option<string>)
      ensures r.Ok? ==> r.value.Keys == IdSet(flow.steps)
      ensures DagRun(Scheduler.Process(registry, importable), flow.steps, flow.edges, r, schedule, snapshots, blame)
    {
      r, schedule, snapshots, blame := Scheduler.RunDag(Scheduler.Process(registry, importable), flow.steps, flow.edges);
    }
  }

  class DummyRemoteExecutor {
    /** The simulated network latency each call sleeps for; it changes no result. */
    const perCallDelay: real

    constructor (perCallDelay: real)
      ensures this.perCallDelay == perCallDelay
    {
      this.perCallDelay := perCallDelay;
    }

    /** `run_dagflow(flow, registry)`. */
    method RunDagflow(flow: Flow.DagFlow, registry: map<string, ActionFn>)
      returns (r: Result<map<string, Value>>, ghost schedule: seq<string>,
               ghost snapshots: map<string, map<string, Value>>, ghost blame: Option<string>)
      ensures r.Ok? ==> r.value.Keys == IdSet(flow.steps)
      ensures DagRun(Scheduler.Remote(registry), flow.steps, flow.edges, r, schedule, snapshots, blame)
    {
      r, schedule, snapshots, blame := Scheduler.RunDag(Scheduler.Remote(registry), flow.steps, flow.edges);
    }
  }

  // ---- how the executors relate to each other and to DAGFlow.run ----

  /** With no guards, the default policy and no reserved keys, a step of the
      local executor succeeds exactly when the step of `DAGFlow.run` does,
      with the same value; a failing action becomes FlowError instead of
      passing through. */
  lemma LocalAgreesWithSequential(registry: map<string, ActionFn>, step: Step, results: map<string, Value>)
    requires Scheduler.TimeoutKey !in step.args && Scheduler.RetryKey !in step.args
    ensures var local := Scheduler.StepSpec(Scheduler.Local(registry, None, LocalDefaultRetry), step, results);
      var seq1 := Flow.StepOutcome(registry, step, results);
      (local.Ok? <==> seq1.Ok?) && (local.Ok? ==> local.value == seq1.value) &&
      (step.action !in registry ==> local == seq1) &&
      (step.action in registry && seq1.Err? ==> local == Err(FlowError(StepFailed(step.id))))
  {
    if step.action in registry {
      var resolved := ResolveArgs(step.args, results);
      assert resolved - {Scheduler.TimeoutKey, Scheduler.RetryKey} == resolved;
      Scheduler.LocalDefaultSingleCall(registry, step, results);
    }
  }

  /** A guards registry holding no guards gives the same step results as no
      registry at all. */
  lemma EmptyGuardsSameAsNone(registry: map<string, ActionFn>, default: Observability.Policy,
                              step: Step, results: map<string, Value>)
    ensures Scheduler.StepSpec(Scheduler.Local(registry, Some([]), default), step, results) ==
            Scheduler.StepSpec(Scheduler.Local(registry, None, default), step, results)
  {
  }

  /** The remote executor passes the resolved arguments unchanged, so for a
      registered action and no reserved keys it agrees with the local
      executor's default single attempt. */
  lemma RemoteAgreesWithLocal(registry: map<string, ActionFn>, step: Step, results: map<string, Value>)
    requires step.action in registry
    requires Scheduler.TimeoutKey !in step.args && Scheduler.RetryKey !in step.args
    ensures Scheduler.StepSpec(Scheduler.Remote(registry), step, results) ==
            Scheduler.StepSpec(Scheduler.Local(registry, None, LocalDefaultRetry), step, results)
  {
    var resolved := ResolveArgs(step.args, results);
    assert resolved - {Scheduler.TimeoutKey, Scheduler.RetryKey} == resolved;
    Scheduler.LocalDefaultSingleCall(registry, step, results);
  }
}
