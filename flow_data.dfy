/** The flow definitions of src/koala/flow.py as values: steps and DAG
    flows, states and state machines, their dictionary forms (`to_dict` /
    `from_dict`) and the checked edits `add_step`, `add_edge` and
    `add_state`. */
module FlowData {

  import opened Values

  /** A unit of work: run the action named `action` with keyword `args`. */
  datatype Step = Step(id: string, action: string, args: map<string, Value>)

  /** A directed acyclic flow: steps and (from, to) edges between step ids. */
  datatype DagData = DagData(id: string, version: string, steps: seq<Step>, edges: seq<(string, string)>)

  /** A state: an optional action and the transition table event -> state. */
  datatype State = State(id: string, action: Option<string>, on: map<string, string>)

  datatype SmData = SmData(id: string, version: string, states: seq<State>, startState: Option<string>)

  const DefaultVersion: string := "0.1.0"

  // ---- ids ----

  predicate HasStep(steps: seq<Step>, id: string) {
    exists s :: s in steps && s.id == id
  }

  predicate HasState(states: seq<State>, id: string) {
    exists s :: s in states && s.id == id
  }

  function StepIds(steps: seq<Step>): (ids: seq<string>)
    ensures |ids| == |steps|
    ensures forall i :: 0 <= i < |steps| ==> ids[i] == steps[i].id
  {
    seq(|steps|, i requires 0 <= i < |steps| => steps[i].id)
  }

  function IdSet(steps: seq<Step>): (s: set<string>)
    ensures forall id :: id in s <==> HasStep(steps, id)
  {
    set st | st in steps :: st.id
  }

  predicate UniqueIds(steps: seq<Step>) {
    forall i, j :: 0 <= i < j < |steps| ==> steps[i].id != steps[j].id
  }

  predicate UniqueStateIds(states: seq<State>) {
    forall i, j :: 0 <= i < j < |states| ==> states[i].id != states[j].id
  }

  /** `{s.id: s for s in steps}`: later steps with the same id win. */
  function NodesOf(steps: seq<Step>): (nodes: map<string, Step>)
    ensures nodes.Keys == IdSet(steps)
    ensures forall id :: id in nodes ==> nodes[id] in steps && nodes[id].id == id
  {
    if steps == [] then map[]
    else
      var last := steps[|steps| - 1];
      var prefix := steps[..|steps| - 1];
      assert steps == prefix + [last];
      assert IdSet(steps) == IdSet(prefix) + {last.id};
      NodesOf(prefix)[last.id := last]
  }

  /** With unique ids the node table maps each id to its step. */
  lemma {:induction false} NodesOfUnique(steps: seq<Step>, i: nat)
    requires UniqueIds(steps) && i < |steps|
    ensures NodesOf(steps)[steps[i].id] == steps[i]
  {
    if i < |steps| - 1 {
      var prefix := steps[..|steps| - 1];
      NodesOfUnique(prefix, i);
      assert steps[i].id != steps[|steps| - 1].id;
    }
  }

  /** `{s.id: s for s in states}`. */
  function StatesOf(states: seq<State>): (m: map<string, State>)
    ensures forall id :: id in m <==> HasState(states, id)
    ensures forall id :: id in m ==> m[id] in states && m[id].id == id
  {
    if states == [] then map[]
    else
      var last := states[|states| - 1];
      var m := StatesOf(states[..|states| - 1]);
      assert forall s :: s in states ==> s in states[..|states| - 1] || s == last;
      m[last.id := last]
  }

  /** Dictionary key order of a dict keyed by `ids`: first occurrences, in order. */
  function KeyOrder(ids: seq<string>): (ks: seq<string>)
    ensures forall x :: x in ks <==> x in ids
    ensures forall i, j :: 0 <= i < j < |ks| ==> ks[i] != ks[j]
  {
    if ids == [] then []
    else
      var ks := KeyOrder(ids[..|ids| - 1]);
      assert forall x :: x in ids ==> x in ids[..|ids| - 1] || x == ids[|ids| - 1];
      if ids[|ids| - 1] in ks then ks else ks + [ids[|ids| - 1]]
  }

  // ---- checked edits ----

  /** `add_step`: refuses a second step with the same id. */
  function AddStepTo(d: DagData, s: Step): (r: Result<DagData>)
    ensures r.Err? <==> HasStep(d.steps, s.id)
    ensures r.Err? ==> r.error == FlowError(DuplicateStep(s.id))
    ensures r.Ok? ==> r.value == d.(steps := d.steps + [s])
  {
    if HasStep(d.steps, s.id) then Err(FlowError(DuplicateStep(s.id)))
    else Ok(d.(steps := d.steps + [s]))
  }

  /** `add_edge`: both ends must be existing steps, the source checked first. */
  function AddEdgeTo(d: DagData, from: string, to: string): (r: Result<DagData>)
    ensures !HasStep(d.steps, from) ==> r == Err(FlowError(UnknownStep(from)))
    ensures HasStep(d.steps, from) && !HasStep(d.steps, to) ==> r == Err(FlowError(UnknownStep(to)))
    ensures HasStep(d.steps, from) && HasStep(d.steps, to) ==> r == Ok(d.(edges := d.edges + [(from, to)]))
  {
    if !HasStep(d.steps, from) then Err(FlowError(UnknownStep(from)))
    else if !HasStep(d.steps, to) then Err(FlowError(UnknownStep(to)))
    else Ok(d.(edges := d.edges + [(from, to)]))
  }

  /** `add_state`: refuses a duplicate id; the first state added becomes the
      start state unless one is already set. */
  function AddStateTo(m: SmData, st: State): (r: Result<SmData>)
    ensures r.Err? <==> HasState(m.states, st.id)
    ensures r.Err? ==> r.error == FlowError(DuplicateState(st.id))
    ensures r.Ok? ==> r.value.states == m.states + [st] && r.value.id == m.id && r.value.version == m.version
    ensures r.Ok? ==> r.value.startState == (if m.startState.None? then Some(st.id) else m.startState)
  {
    if HasState(m.states, st.id) then Err(FlowError(DuplicateState(st.id)))
    else Ok(m.(states := m.states + [st], startState := if m.startState.None? then Some(st.id) else m.startState))
  }

  /** The invariant the checked edits keep: unique step ids, and every edge
      joins two existing steps. */
  predicate WellFormed(d: DagData) {
    UniqueIds(d.steps) &&
    forall k :: 0 <= k < |d.edges| ==> HasStep(d.steps, d.edges[k].0) && HasStep(d.steps, d.edges[k].1)
  }

  lemma AddStepKeepsWellFormed(d: DagData, s: Step)
    requires WellFormed(d) && AddStepTo(d, s).Ok?
    ensures WellFormed(AddStepTo(d, s).value)
  {
    var d' := AddStepTo(d, s).value;
    forall i, j | 0 <= i < j < |d'.steps| ensures d'.steps[i].id != d'.steps[j].id {
      if j == |d.steps| {
        assert d'.steps[i] in d.steps;
      }
    }
    forall k | 0 <= k < |d'.edges| ensures HasStep(d'.steps, d'.edges[k].0) && HasStep(d'.steps, d'.edges[k].1) {
      assert HasStep(d.steps, d.edges[k].0) && HasStep(d.steps, d.edges[k].1);
    }
  }

  lemma AddEdgeKeepsWellFormed(d: DagData, from: string, to: string)
    requires WellFormed(d) && AddEdgeTo(d, from, to).Ok?
    ensures WellFormed(AddEdgeTo(d, from, to).value)
  {
  }

  /** The same step id never appears twice in a state machine built with add_state. */
  lemma AddStateKeepsUnique(m: SmData, st: State)
    requires UniqueStateIds(m.states) && AddStateTo(m, st).Ok?
    ensures UniqueStateIds(AddStateTo(m, st).value.states)
  {
    var s' := AddStateTo(m, st).value.states;
    forall i, j | 0 <= i < j < |s'| ensures s'[i].id != s'[j].id {
      if j == |m.states| {
        assert s'[i] in m.states;
      }
    }
  }

  // ---- dictionary forms ----

  /** A step's dict as read back; a missing key is None. */
  datatype StepDoc = StepDoc(id: Option<string>, action: Option<string>, args: Option<map<string, Value>>)

  datatype StateDoc = StateDoc(id: Option<string>, action: Option<string>, on: Option<map<string, string>>)

  /** A flow's dict: the DAG keys and the state-machine keys. Edges are the
      lists `[from, to]` that `to_dict` writes. */
  datatype FlowDoc = FlowDoc(
    id: Option<string>,
    version: Option<string>,
    steps: Option<seq<StepDoc>>,
    edges: Option<seq<seq<string>>>,
    startState: Option<string>,
    states: Option<seq<StateDoc>>)

  function StepToDoc(s: Step): StepDoc {
    StepDoc(Some(s.id), Some(s.action), Some(s.args))
  }

  /** `Step.from_dict`: id and action are required (KeyError), args default to {}. */
  function StepFromDoc(d: StepDoc): (r: Result<Step>)
    ensures d.id.None? ==> r == Err(KeyError("id"))
    ensures d.id.Some? && d.action.None? ==> r == Err(KeyError("action"))
  {
    if d.id.None? then Err(KeyError("id"))
    else if d.action.None? then Err(KeyError("action"))
    else Ok(Step(d.id.value, d.action.value, if d.args.Some? then d.args.value else map[]))
  }

  function StepsFromDocs(ds: seq<StepDoc>): Result<seq<Step>> {
    if ds == [] then Ok([])
    else
      var s :- StepFromDoc(ds[0]);
      var rest :- StepsFromDocs(ds[1..]);
      Ok([s] + rest)
  }

  /** Unpacking `for f, t in edges`: an edge that is not a pair is a ValueError. */
  function EdgesFromDocs(es: seq<seq<string>>): Result<seq<(string, string)>> {
    if es == [] then Ok([])
    else if |es[0]| != 2 then Err(ValueError)
    else
      var rest :- EdgesFromDocs(es[1..]);
      Ok([(es[0][0], es[0][1])] + rest)
  }

  function StepDocs(steps: seq<Step>): seq<StepDoc> {
    seq(|steps|, i requires 0 <= i < |steps| => StepToDoc(steps[i]))
  }

  function EdgeDocs(edges: seq<(string, string)>): seq<seq<string>> {
    seq(|edges|, i requires 0 <= i < |edges| => [edges[i].0, edges[i].1])
  }

  /** `DAGFlow.to_dict`. */
  function DagToDoc(d: DagData): FlowDoc {
    FlowDoc(Some(d.id), Some(d.version), Some(StepDocs(d.steps)), Some(EdgeDocs(d.edges)), None, None)
  }

  /** `DAGFlow.from_dict`: id is required, version defaults, steps and edges
      default to empty; nothing else is checked. */
  function DagFromDoc(doc: FlowDoc): (r: Result<DagData>)
    ensures doc.id.None? ==> r == Err(KeyError("id"))
  {
    if doc.id.None? then Err(KeyError("id"))
    else
      var steps :- StepsFromDocs(if doc.steps.Some? then doc.steps.value else []);
      var edges :- EdgesFromDocs(if doc.edges.Some? then doc.edges.value else []);
      Ok(DagData(doc.id.value, if doc.version.Some? then doc.version.value else DefaultVersion, steps, edges))
  }

  function StateToDoc(s: State): StateDoc {
    StateDoc(Some(s.id), s.action, Some(s.on))
  }

  /** The state part of `StateMachine.from_dict`: id required, action
      optional, transitions default to {}. */
  function StateFromDoc(d: StateDoc): (r: Result<State>)
    ensures d.id.None? <==> r.Err?
  {
    if d.id.None? then Err(KeyError("id"))
    else Ok(State(d.id.value, d.action, if d.on.Some? then d.on.value else map[]))
  }

  function StatesFromDocs(ds: seq<StateDoc>): Result<seq<State>> {
    if ds == [] then Ok([])
    else
      var s :- StateFromDoc(ds[0]);
      var rest :- StatesFromDocs(ds[1..]);
      Ok([s] + rest)
  }

  function StateDocs(states: seq<State>): seq<StateDoc> {
    seq(|states|, i requires 0 <= i < |states| => StateToDoc(states[i]))
  }

  /** `StateMachine.to_dict`. */
  function SmToDoc(m: SmData): FlowDoc {
    FlowDoc(Some(m.id), Some(m.version), None, None, m.startState, Some(StateDocs(m.states)))
  }

  function SmFromDoc(doc: FlowDoc): (r: Result<SmData>)
    ensures doc.id.None? ==> r == Err(KeyError("id"))
  {
    if doc.id.None? then Err(KeyError("id"))
    else
      var states :- StatesFromDocs(if doc.states.Some? then doc.states.value else []);
      Ok(SmData(doc.id.value, if doc.version.Some? then doc.version.value else DefaultVersion, states, doc.startState))
  }

  lemma {:induction false} StepsRoundTrip(steps: seq<Step>)
    ensures StepsFromDocs(StepDocs(steps)) == Ok(steps)
  {
    if steps != [] {
      StepsRoundTrip(steps[1..]);
      assert StepDocs(steps)[1..] == StepDocs(steps[1..]);
      assert steps == [steps[0]] + steps[1..];
    }
  }

  lemma {:induction false} EdgesRoundTrip(edges: seq<(string, string)>)
    ensures EdgesFromDocs(EdgeDocs(edges)) == Ok(edges)
  {
    if edges != [] {
      EdgesRoundTrip(edges[1..]);
      assert EdgeDocs(edges)[1..] == EdgeDocs(edges[1..]);
      assert edges == [edges[0]] + edges[1..];
    }
  }

  lemma {:induction false} StatesRoundTrip(states: seq<State>)
    ensures StatesFromDocs(StateDocs(states)) == Ok(states)
  {
    if states != [] {
      StatesRoundTrip(states[1..]);
      assert StateDocs(states)[1..] == StateDocs(states[1..]);
      assert states == [states[0]] + states[1..];
    }
  }

  /** `DAGFlow.from_dict(f.to_dict())` rebuilds the same flow. */
  lemma DagRoundTrip(d: DagData)
    ensures DagFromDoc(DagToDoc(d)) == Ok(d)
  {
    StepsRoundTrip(d.steps);
    EdgesRoundTrip(d.edges);
  }

  /** `StateMachine.from_dict(m.to_dict())` rebuilds the same machine. */
  lemma SmRoundTrip(m: SmData)
    ensures SmFromDoc(SmToDoc(m)) == Ok(m)
  {
    StatesRoundTrip(m.states);
  }

  /** `from_dict` does not re-check what `add_step` and `add_edge` check:
      duplicate ids and dangling edges are accepted. */
  lemma FromDocDoesNotValidate()
    ensures var doc := FlowDoc(Some("f"), None,
                               Some([StepDoc(Some("a"), Some("x"), None), StepDoc(Some("a"), Some("y"), None)]),
                               Some([["a", "zz"]]), None, None);
      DagFromDoc(doc).Ok? && !WellFormed(DagFromDoc(doc).value)
  {
    var ds := [StepDoc(Some("a"), Some("x"), None), StepDoc(Some("a"), Some("y"), None)];
    var doc := FlowDoc(Some("f"), None, Some(ds), Some([["a", "zz"]]), None, None);
    assert StepsFromDocs(ds[1..][1..]) == Ok([]);
    var tail := StepsFromDocs(ds[1..]);
    assert StepFromDoc(ds[1..][0]).Ok?;
    assert tail.Ok? && tail.value == [Step("a", "y", map[])];
    var all := StepsFromDocs(ds);
    assert StepFromDoc(ds[0]).Ok?;
    assert all.Ok? && all.value == [Step("a", "x", map[]), Step("a", "y", map[])];
    var es: seq<seq<string>> := [["a", "zz"]];
    assert EdgesFromDocs(es[1..]) == Ok([]);
    var edges := EdgesFromDocs(es);
    assert edges.Ok?;
    var d := DagFromDoc(doc);
    assert d.Ok? && d.value.steps == all.value;
    assert d.value.steps[0].id == d.value.steps[1].id;
  }
}
