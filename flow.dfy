/** The flow objects of src/koala/flow.py: `DAGFlow` with its checked
    mutators, dictionary form and sequential `run`; the `FlowBuilder` DSL and
    `dag`; and `StateMachine` with `add_state`, its dictionary form and
    `run`. */
module Flow {

  import opened Values
  import opened FlowData
  import opened Graph
  import opened Toposort
  import Scheduler
  import Machine

  // ---- the sequential runner of DAGFlow.run ----

  /** One step of `DAGFlow.run` against the results so far: a missing action
      is FlowError; the action's own exception passes through. */
  function StepOutcome(registry: map<string, ActionFn>, s: Step, results: map<string, Value>): Result<Value> {
    if s.action !in registry then Err(FlowError(ActionNotFound(s.action)))
    else registry[s.action](ResolveArgs(s.args, results), 1)
  }

  /** Running the steps in `order`, each against the results of those before
      it; the first failure stops the run. */
  function RunSeq(order: seq<Step>, registry: map<string, ActionFn>, acc: map<string, Value>)
    : (r: Result<map<string, Value>>)
    ensures r.Ok? ==> r.value.Keys == acc.Keys + SetOf(StepIds(order))
    decreases |order|
  {
    if order == [] then Ok(acc)
    else
      var v :- StepOutcome(registry, order[0], acc);
      assert StepIds(order) == [order[0].id] + StepIds(order[1..]);
      RunSeq(order[1..], registry, acc[order[0].id := v])
  }

  /** Running `a + b` is running `a`, then `b` from where `a` left off. */
  lemma {:induction false} RunSeqAppend(a: seq<Step>, b: seq<Step>, registry: map<string, ActionFn>, acc: map<string, Value>)
    ensures RunSeq(a + b, registry, acc) ==
      match RunSeq(a, registry, acc)
      case Ok(m) => RunSeq(b, registry, m)
      case Err(e) => Err(e)
    decreases |a|
  {
    if a == [] {
      assert a + b == b;
    } else {
      assert (a + b)[0] == a[0] && (a + b)[1..] == a[1..] + b;
      var v := StepOutcome(registry, a[0], acc);
      if v.Ok? {
        RunSeqAppend(a[1..], b, registry, acc[a[0].id := v.value]);
      }
    }
  }

  /** A result recorded before the run that no later step overwrites is
      still there at the end. */
  lemma {:induction false} RunSeqKeeps(order: seq<Step>, registry: map<string, ActionFn>, acc: map<string, Value>, k: string)
    requires RunSeq(order, registry, acc).Ok? && k in acc && k !in StepIds(order)
    ensures RunSeq(order, registry, acc).value[k] == acc[k]
    decreases |order|
  {
    if order != [] {
      var v := StepOutcome(registry, order[0], acc);
      assert StepIds(order) == [order[0].id] + StepIds(order[1..]);
      RunSeqKeeps(order[1..], registry, acc[order[0].id := v.value], k);
    }
  }

  /** With unique ids, the step at `i + 1 + j` shares its id with no step at
      or before `i`. */
  lemma UniqueAfter(order: seq<Step>, i: nat, j: nat)
    requires UniqueIds(order) && i + 1 + j < |order|
    ensures order[i + 1 + j].id != order[i].id && order[i + 1 + j].id !in StepIds(order[..i])
  {
    var ids := StepIds(order[..i]);
    forall m | 0 <= m < |ids| ensures ids[m] != order[i + 1 + j].id {
      assert ids[m] == order[m].id;
    }
  }

  /** With unique ids, no step after position `i` shares an id with the
      step at `i` or with any step before it. */
  lemma UniqueSplit(order: seq<Step>, i: nat)
    requires UniqueIds(order) && i < |order|
    ensures order[i].id !in StepIds(order[i + 1..])
    ensures forall k :: k in StepIds(order[..i]) ==> k !in StepIds(order[i + 1..])
  {
    var after := StepIds(order[i + 1..]);
    forall j | 0 <= j < |after| ensures after[j] != order[i].id && after[j] !in StepIds(order[..i]) {
      assert after[j] == order[i + 1 + j].id;
      UniqueAfter(order, i, j);
    }
  }

  /** In a dependency order with unique ids, each step runs against the
      results of the steps before it, which hold the results of all its
      predecessors and are kept unchanged in the final map. */
  lemma RunSeqSeesPredecessors(order: seq<Step>, registry: map<string, ActionFn>, edges: seq<Edge>, i: nat)
    requires UniqueIds(order) && PredsBefore(StepIds(order), edges)
    requires RunSeq(order, registry, map[]).Ok? && i < |order|
    ensures var pre := RunSeq(order[..i], registry, map[]);
      var res := RunSeq(order, registry, map[]).value;
      pre.Ok? && Scheduler.AllPredsIn(order[i].id, pre.value.Keys, edges) && Scheduler.SubMap(pre.value, res) &&
      StepOutcome(registry, order[i], pre.value) == Ok(res[order[i].id])
  {
    var a := order[..i];
    var rest := order[i..];
    assert order == a + rest;
    RunSeqAppend(a, rest, registry, map[]);
    var pre := RunSeq(a, registry, map[]);
    assert pre.Ok?;
    var res := RunSeq(order, registry, map[]).value;
    var x := order[i];
    assert rest[0] == x;
    var v := StepOutcome(registry, x, pre.value);
    assert v.Ok?;
    var after := pre.value[x.id := v.value];
    assert res == RunSeq(rest[1..], registry, after).value;
    assert rest[1..] == order[i + 1..];
    UniqueSplit(order, i);
    RunSeqKeeps(rest[1..], registry, after, x.id);
    forall k | k in pre.value ensures k in res && res[k] == pre.value[k] {
      assert k in SetOf(StepIds(a));
      assert k != x.id;
      RunSeqKeeps(rest[1..], registry, after, k);
    }
    assert StepIds(order)[..i] == StepIds(a);
    assert PredsIn(StepIds(order)[i], StepIds(order)[..i], edges);
  }

  // ---- the add/mul flow ----

  /** `add(a, b)` on integers. */
  function Add(args: map<string, Value>, attempt: nat): Result<Value> {
    if "a" in args && "b" in args && args["a"].VInt? && args["b"].VInt?
    then Ok(VInt(args["a"].i + args["b"].i)) else Err(TypeError)
  }

  /** `mul(x, y)` on integers. */
  function Mul(args: map<string, Value>, attempt: nat): Result<Value> {
    if "x" in args && "y" in args && args["x"].VInt? && args["y"].VInt?
    then Ok(VInt(args["x"].i * args["y"].i)) else Err(TypeError)
  }

  const AddStep1: Step := Step("s1", "add", map["a" := VInt(1), "b" := VInt(2)])
  const MulStep2: Step := Step("s2", "mul", map["x" := VStr("$result.s1"), "y" := VInt(10)])

  const AddMulRegistry: map<string, ActionFn> := map["add" := Add, "mul" := Mul]

  /** With the edge s1 -> s2 the only dependency order is s1, s2. */
  lemma AddMulOrder(order: seq<Step>)
    requires |order| == 2 && forall s :: s in order ==> s in [AddStep1, MulStep2]
    requires IsTopoOrder(StepIds(order), {"s1", "s2"}, [("s1", "s2")])
    ensures order == [AddStep1, MulStep2]
  {
    var ids := StepIds(order);
    var e: seq<Edge> := [("s1", "s2")];
    assert PredsIn(ids[0], ids[..0], e);
    assert e[0].1 == "s2" && e[0].0 !in ids[..0];
    assert ids[0] == "s1";
    assert order[0] in order && order[1] in order;
    assert order[0] == AddStep1;
    assert ids[1] != ids[0];
    assert order[1] == MulStep2;
  }

  lemma AddMulIds()
    ensures IdSet([AddStep1, MulStep2]) == {"s1", "s2"}
  {
    assert [AddStep1, MulStep2][..1] == [AddStep1];
  }

  /** Run in the order s1, s2, the two-step flow gives s1 = 1 + 2 and
      s2 = s1's result * 10. */
  lemma AddMulRun()
    ensures RunSeq([AddStep1, MulStep2], AddMulRegistry, map[]) == Ok(map["s1" := VInt(3), "s2" := VInt(30)])
  {
    var reg := AddMulRegistry;
    var r1 := map["s1" := VInt(3)];
    assert ResolveArgs(AddStep1.args, map[]) == AddStep1.args;
    assert StepOutcome(reg, AddStep1, map[]) == Ok(VInt(3));
    assert IsReference(VStr("$result.s1")) && ReferencedId(VStr("$result.s1")) == "s1";
    var args2 := ResolveArgs(MulStep2.args, r1);
    assert args2["x"] == VInt(3) && args2["y"] == VInt(10);
    assert StepOutcome(reg, MulStep2, r1) == Ok(VInt(30));
    var both := map["s1" := VInt(3), "s2" := VInt(30)];
    assert RunSeq([], reg, both) == Ok(both);
    assert [MulStep2][1..] == [];
    assert r1[MulStep2.id := VInt(30)] == both;
    assert RunSeq([MulStep2], reg, r1) == Ok(both);
    assert [AddStep1, MulStep2][1..] == [MulStep2];
    var empty: map<string, Value> := map[];
    assert empty[AddStep1.id := VInt(3)] == r1;
  }

  /** `DAGFlow.run` on the two-step flow: whatever order `_toposort` gives
      satisfies the edge s1 -> s2, so the results are s1 = 3 and s2 = 30. */
  lemma AddMulExample(order: seq<Step>)
    requires |order| == 2 && forall s :: s in order ==> s in [AddStep1, MulStep2]
    requires IsTopoOrder(StepIds(order), IdSet([AddStep1, MulStep2]), [("s1", "s2")])
    ensures RunSeq(order, AddMulRegistry, map[]) == Ok(map["s1" := VInt(3), "s2" := VInt(30)])
  {
    AddMulIds();
    AddMulOrder(order);
    AddMulRun();
  }

  /** Without an edge, `_toposort` keeps the steps in list order. */
  lemma IndependentStepsKeepListOrder()
    ensures FifoOrder([MulStep2, AddStep1], []) == ["s2", "s1"]
  {
    var steps := [MulStep2, AddStep1];
    var e: seq<Edge> := [];
    var ids := IdSet(steps);
    ExampleTables();
    var incoming := InTable(ids, e);
    var outgoing := OutTable(ids, e);
    assert "s2" in incoming && incoming["s2"] == 0;
    assert "s1" in incoming && incoming["s1"] == 0;
    assert "s2" in outgoing && outgoing["s2"] == [];
    assert "s1" in outgoing && outgoing["s1"] == [];
    ReadyOfZeros(["s2", "s1"], incoming);
    NoEdgesKeepQueueOrder(outgoing, incoming, ["s2", "s1"], [], 2);
    assert [] + ["s2", "s1"] == ["s2", "s1"];
  }

  lemma ExampleTables()
    ensures IdSet([MulStep2, AddStep1]) == {"s2", "s1"} && |IdSet([MulStep2, AddStep1])| == 2
    ensures KeyOrder(StepIds([MulStep2, AddStep1])) == ["s2", "s1"]
  {
    assert [MulStep2, AddStep1][..1] == [MulStep2];
    assert StepIds([MulStep2, AddStep1]) == ["s2", "s1"];
    assert ["s2", "s1"][..1] == ["s2"];
    assert ["s2"][..0] == [];
  }

  /** A step listed before the step it references, with no edge between
      them, runs first and sees None: here `mul` fails. */
  lemma UnorderedReferenceSeesNone()
    ensures RunSeq([MulStep2, AddStep1], AddMulRegistry, map[]) == Err(TypeError)
  {
    var none: map<string, Value> := map[];
    var args := ResolveArgs(MulStep2.args, none);
    assert "x" in MulStep2.args && MulStep2.args["x"] == VStr("$result.s1");
    assert IsReference(VStr("$result.s1"));
    assert ReferencedId(VStr("$result.s1")) !in none;
    assert args["x"] == VNone;
    assert StepOutcome(AddMulRegistry, MulStep2, map[]) == Err(TypeError);
  }

  // ---- the `any(s.id == ... for s in ...)` scans ----

  method AnyStepWithId(steps: seq<Step>, id: string) returns (found: bool)
    ensures found <==> HasStep(steps, id)
  {
    for i := 0 to |steps|
      invariant !HasStep(steps[..i], id)
    {
      assert steps[..i + 1] == steps[..i] + [steps[i]];
      if steps[i].id == id {
        return true;
      }
    }
    assert steps[..|steps|] == steps;
    return false;
  }

  method AnyStateWithId(states: seq<State>, id: string) returns (found: bool)
    ensures found <==> HasState(states, id)
  {
    for i := 0 to |states|
      invariant !HasState(states[..i], id)
    {
      assert states[..i + 1] == states[..i] + [states[i]];
      if states[i].id == id {
        return true;
      }
    }
    assert states[..|states|] == states;
    return false;
  }

  // ---- DAGFlow ----

  /** The loop of `run`: each step in turn, against the results of those
      before it; a missing action or a failing action stops it. */
  method RunInOrder(sequence: seq<Step>, registry: map<string, ActionFn>) returns (r: Result<map<string, Value>>)
    ensures r == RunSeq(sequence, registry, map[])
  {
    var results: map<string, Value> := map[];
    for i := 0 to |sequence|
      invariant RunSeq(sequence[i..], registry, results) == RunSeq(sequence, registry, map[])
    {
      assert sequence[i..][0] == sequence[i] && sequence[i..][1..] == sequence[i + 1..];
      var step := sequence[i];
      if step.action !in registry {
        return Err(FlowError(ActionNotFound(step.action)));
      }
      var v := registry[step.action](ResolveArgs(step.args, results), 1);
      if v.Err? {
        return Err(v.error);
      }
      results := results[step.id := v.value];
    }
    assert sequence[|sequence|..] == [];
    return Ok(results);
  }

  class DagFlow {
    var id: string
    var version: string
    var steps: seq<Step>
    var edges: seq<Edge>

    constructor (id: string, version: string)
      ensures this.id == id && this.version == version && steps == [] && edges == []
    {
      this.id := id;
      this.version := version;
      steps := [];
      edges := [];
    }

    /** The flow as a value. */
    function Data(): DagData
      reads this
    {
      DagData(id, version, steps, edges)
    }

    /** `add_step`: a step whose id is taken is refused and nothing changes;
        otherwise it is appended. */
    method AddStep(step: Step) returns (r: Result<()>)
      modifies this
      ensures r.Err? <==> AddStepTo(old(Data()), step).Err?
      ensures r.Err? ==> r.error == AddStepTo(old(Data()), step).error && Data() == old(Data())
      ensures r.Ok? ==> Data() == AddStepTo(old(Data()), step).value
    {
      var taken := AnyStepWithId(steps, step.id);
      if taken {
        return Err(FlowError(DuplicateStep(step.id)));
      }
      steps := steps + [step];
      return Ok(());
    }

    /** `add_edge`: both ends must be existing steps (the source is checked
        first); on success the edge is appended. */
    method AddEdge(from: string, to: string) returns (r: Result<()>)
      modifies this
      ensures r.Err? <==> AddEdgeTo(old(Data()), from, to).Err?
      ensures r.Err? ==> r.error == AddEdgeTo(old(Data()), from, to).error && Data() == old(Data())
      ensures r.Ok? ==> Data() == AddEdgeTo(old(Data()), from, to).value
    {
      var hasFrom := AnyStepWithId(steps, from);
      if !hasFrom {
        return Err(FlowError(UnknownStep(from)));
      }
      var hasTo := AnyStepWithId(steps, to);
      if !hasTo {
        return Err(FlowError(UnknownStep(to)));
      }
      edges := edges + [(from, to)];
      return Ok(());
    }

    /** `to_dict`; `from_dict` reads it back as the same flow. */
    function ToDoc(): (doc: FlowDoc)
      reads this
      ensures DagFromDoc(doc) == Ok(Data())
    {
      DagRoundTrip(Data());
      DagToDoc(Data())
    }

    /** `DAGFlow.from_dict`: a new flow holding what the dictionary says. */
    static method FromDoc(doc: FlowDoc) returns (r: Result<DagFlow>)
      ensures r.Ok? <==> DagFromDoc(doc).Ok?
      ensures r.Err? ==> r.error == DagFromDoc(doc).error
      ensures r.Ok? ==> fresh(r.value) && r.value.Data() == DagFromDoc(doc).value
    {
      var d := DagFromDoc(doc);
      if d.Err? {
        return Err(d.error);
      }
      var f := new DagFlow(d.value.id, d.value.version);
      f.steps := d.value.steps;
      f.edges := d.value.edges;
      return Ok(f);
    }

    /** `run`: order the steps with `_toposort` (the FIFO Kahn order), then
        run them one by one in that order, each against the results of those
        before it. */
    method Run(registry: map<string, ActionFn>) returns (r: Result<map<string, Value>>, ghost order: seq<Step>)
      ensures FirstBadEndpoint(edges, IdSet(steps)).Some? ==>
        r == Err(KeyError(FirstBadEndpoint(edges, IdSet(steps)).value))
      ensures FirstBadEndpoint(edges, IdSet(steps)).None? && !(UniqueIds(steps) && HasTopoOrder(IdSet(steps), edges)) ==>
        r == Err(FlowError(CycleOrMissing))
      ensures FirstBadEndpoint(edges, IdSet(steps)).None? && UniqueIds(steps) && HasTopoOrder(IdSet(steps), edges) ==>
        |order| == |steps| && (forall s :: s in order ==> s in steps) &&
        IsTopoOrder(StepIds(order), IdSet(steps), edges) && r == RunSeq(order, registry, map[])
      ensures FirstBadEndpoint(edges, IdSet(steps)).None? && UniqueIds(steps) && HasTopoOrder(IdSet(steps), edges) ==>
        StepIds(order) == FifoOrder(steps, edges) && order == StepsOf(NodesOf(steps), FifoOrder(steps, edges))
    {
      order := [];
      var sorted := Toposort.Toposort(steps, edges);
      if sorted.Err? {
        return Err(sorted.error), order;
      }
      order := sorted.value;
      r := RunInOrder(sorted.value, registry);
    }
  }

  // ---- the builder DSL ----

  /** `version or "0.1.0"`: a missing or empty version takes the default. */
  function VersionOr(version: Option<string>): string {
    if version.None? || version.value == "" then DefaultVersion else version.value
  }

  class FlowBuilder {
    const flow: DagFlow

    constructor (id: string, version: Option<string>)
      ensures fresh(flow) && flow.Data() == DagData(id, VersionOr(version), [], [])
    {
      flow := new DagFlow(id, VersionOr(version));
    }

    /** `.step(id, action, **kwargs)`: adds the step and returns the builder. */
    method Step(id: string, action: string, kwargs: map<string, Value>) returns (r: Result<FlowBuilder>)
      modifies flow
      ensures r.Ok? ==> r.value == this
      ensures r.Ok? <==> AddStepTo(old(flow.Data()), FlowData.Step(id, action, kwargs)).Ok?
      ensures r.Ok? ==> flow.Data() == AddStepTo(old(flow.Data()), FlowData.Step(id, action, kwargs)).value
      ensures r.Err? ==> flow.Data() == old(flow.Data())
    {
      var added := flow.AddStep(FlowData.Step(id, action, kwargs));
      if added.Err? {
        return Err(added.error);
      }
      return Ok(this);
    }

    /** `.edge(from_id, to_id)`: adds the edge and returns the builder. */
    method Edge(from: string, to: string) returns (r: Result<FlowBuilder>)
      modifies flow
      ensures r.Ok? ==> r.value == this
      ensures r.Ok? <==> AddEdgeTo(old(flow.Data()), from, to).Ok?
      ensures r.Ok? ==> flow.Data() == AddEdgeTo(old(flow.Data()), from, to).value
      ensures r.Err? ==> flow.Data() == old(flow.Data())
    {
      var added := flow.AddEdge(from, to);
      if added.Err? {
        return Err(added.error);
      }
      return Ok(this);
    }

    /** `.build()`: the flow itself, not a copy. */
    method Build() returns (f: DagFlow)
      ensures f == flow
    {
      return flow;
    }
  }

  /** `dag(id, version)`: a fresh builder. */
  method Dag(id: string, version: Option<string>) returns (b: FlowBuilder)
    ensures fresh(b) && fresh(b.flow) && b.flow.Data() == DagData(id, VersionOr(version), [], [])
  {
    b := new FlowBuilder(id, version);
  }

  // ---- StateMachine ----

  class StateMachine {
    var id: string
    var version: string
    var states: seq<State>
    var startState: Option<string>

    constructor (id: string, version: string)
      ensures this.id == id && this.version == version && states == [] && startState.None?
    {
      this.id := id;
      this.version := version;
      states := [];
      startState := None;
    }

    function Data(): SmData
      reads this
    {
      SmData(id, version, states, startState)
    }

    /** `add_state`: a duplicate id is refused and nothing changes; otherwise
        the state is appended and becomes the start state if none is set. */
    method AddState(st: State) returns (r: Result<()>)
      modifies this
      ensures r.Err? <==> AddStateTo(old(Data()), st).Err?
      ensures r.Err? ==> r.error == AddStateTo(old(Data()), st).error && Data() == old(Data())
      ensures r.Ok? ==> Data() == AddStateTo(old(Data()), st).value
    {
      var taken := AnyStateWithId(states, st.id);
      if taken {
        return Err(FlowError(DuplicateState(st.id)));
      }
      states := states + [st];
      if startState.None? {
        startState := Some(st.id);
      }
      return Ok(());
    }

    /** `to_dict`; `from_dict` reads it back as the same machine. */
    function ToDoc(): (doc: FlowDoc)
      reads this
      ensures SmFromDoc(doc) == Ok(Data())
    {
      SmRoundTrip(Data());
      SmToDoc(Data())
    }

    static method FromDoc(doc: FlowDoc) returns (r: Result<StateMachine>)
      ensures r.Ok? <==> SmFromDoc(doc).Ok?
      ensures r.Err? ==> r.error == SmFromDoc(doc).error
      ensures r.Ok? ==> fresh(r.value) && r.value.Data() == SmFromDoc(doc).value
    {
      var d := SmFromDoc(doc);
      if d.Err? {
        return Err(d.error);
      }
      var m := new StateMachine(d.value.id, d.value.version);
      m.states := d.value.states;
      m.startState := d.value.startState;
      return Ok(m);
    }

    /** `run(registry, events)`: the state-machine loop without guards. */
    method Run(registry: map<string, ActionFn>, events: seq<string>) returns (r: Result<map<string, Value>>)
      ensures r == Machine.MachineSpec(Data(), registry, events, None)
    {
      r := Machine.RunStateMachine(Data(), registry, events, None);
    }
  }
}
