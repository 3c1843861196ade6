/** Running a state machine: `StateMachine.run` and
    `LocalExecutor.run_state_machine` of src/koala/flow.py, one loop over the
    events that visits the current state, records its action's result and
    follows the transition for the event. `StateMachine.run` is the same
    loop without guards. */
module Machine {

  import opened Values
  import opened FlowData
  import opened Guards
  import Scheduler

  /** The keyword arguments a state's action is called with. */
  function EventArgs(ev: string, state: string): map<string, Value> {
    map["event" := VStr(ev), "state" := VStr(state)]
  }

  /** `if st.action:` — a missing or empty action name means no action. */
  predicate HasAction(st: State) {
    st.action.Some? && st.action.value != ""
  }

  /** Visiting state `st` on event `ev`: None when it has no action;
      otherwise the action's result after the guards, or the error that
      stops the run. A GuardError from a hook becomes FlowError; any other
      exception, from a hook or from the action, passes through unchanged. */
  function Visit(st: State, ev: string, registry: map<string, ActionFn>, guards: Option<seq<Guard>>)
    : Result<Option<Value>>
  {
    if !HasAction(st) then Ok(None)
    else
      var a := st.action.value;
      if a !in registry then Err(FlowError(ActionNotFound(a)))
      else
        var args :- if guards.Some? then Scheduler.WrapPre(PreChain(guards.value, st.id, a, EventArgs(ev, st.id)), st.id)
                    else Ok(EventArgs(ev, st.id));
        var res :- registry[a](args, 1);
        var post :- if guards.Some? then Scheduler.WrapPost(PostChain(guards.value, st.id, a, args, res), st.id)
                    else Ok(res);
        Ok(Some(post))
  }

  /** The rest of a run from state `current` with the remaining `events`
      and the results recorded so far. A state with no transition for the
      event ends the run. */
  function RunFrom(states: map<string, State>, current: string, events: seq<string>,
                   registry: map<string, ActionFn>, guards: Option<seq<Guard>>, results: map<string, Value>)
    : (r: Result<map<string, Value>>)
    requires forall k :: k in states ==> states[k].id == k
    ensures r.Ok? ==> results.Keys <= r.value.Keys
    ensures r.Ok? ==> forall k :: k in r.value && k !in results ==> k in states && HasAction(states[k])
    decreases |events|
  {
    if events == [] then Ok(results)
    else if current !in states then Err(FlowError(UnknownState(current)))
    else
      var st := states[current];
      var v :- Visit(st, events[0], registry, guards);
      var results' := if v.Some? then results[current := v.value] else results;
      if events[0] !in st.on then Ok(results')
      else RunFrom(states, st.on[events[0]], events[1..], registry, guards, results')
  }

  /** The states table `{s.id: s for s in states}` keyed by each state's id. */
  lemma StatesOfKeys(states: seq<State>)
    ensures forall k :: k in StatesOf(states) ==> StatesOf(states)[k].id == k
  {
  }

  /** A whole run: the start state must be set and non-empty. */
  function MachineSpec(m: SmData, registry: map<string, ActionFn>, events: seq<string>, guards: Option<seq<Guard>>)
    : (r: Result<map<string, Value>>)
    ensures m.startState.None? || m.startState.value == "" ==> r == Err(FlowError(NoStartState))
    ensures r.Ok? ==> forall k :: k in r.value ==> HasState(m.states, k) && HasAction(StatesOf(m.states)[k])
  {
    if m.startState.None? || m.startState.value == "" then Err(FlowError(NoStartState))
    else
      StatesOfKeys(m.states);
      RunFrom(StatesOf(m.states), m.startState.value, events, registry, guards, map[])
  }

  /** `run_state_machine`: the loop over the events. */
  method RunStateMachine(m: SmData, registry: map<string, ActionFn>, events: seq<string>, guards: Option<seq<Guard>>)
    returns (r: Result<map<string, Value>>)
    ensures r == MachineSpec(m, registry, events, guards)
  {
    if m.startState.None? || m.startState.value == "" {
      return Err(FlowError(NoStartState));
    }
    var states := StatesOf(m.states);
    StatesOfKeys(m.states);
    var current := m.startState.value;
    var results: map<string, Value> := map[];
    for i := 0 to |events|
      invariant RunFrom(states, current, events[i..], registry, guards, results) == MachineSpec(m, registry, events, guards)
    {
      assert events[i..][0] == events[i] && events[i..][1..] == events[i + 1..];
      if current !in states {
        return Err(FlowError(UnknownState(current)));
      }
      var st := states[current];
      var v := Visit(st, events[i], registry, guards);
      if v.Err? {
        return Err(v.error);
      }
      if v.value.Some? {
        results := results[current := v.value.value];
      }
      if events[i] !in st.on {
        return Ok(results);
      }
      current := st.on[events[i]];
    }
    assert events[|events|..] == [];
    return Ok(results);
  }

  /** Once the current state has no transition for the next event, the
      events after it are never looked at. */
  lemma StopsAtMissingTransition(states: map<string, State>, current: string, events: seq<string>, more: seq<string>,
                                 registry: map<string, ActionFn>, guards: Option<seq<Guard>>, results: map<string, Value>)
    requires forall k :: k in states ==> states[k].id == k
    requires events != [] && current in states && events[0] !in states[current].on
    ensures RunFrom(states, current, events + more, registry, guards, results) ==
            RunFrom(states, current, [events[0]], registry, guards, results)
  {
    assert (events + more)[0] == events[0];
  }

  /** A guards registry with no guards behaves as no registry at all. */
  lemma {:induction false} NoGuardsSameAsNone(states: map<string, State>, current: string, events: seq<string>,
                                              registry: map<string, ActionFn>, results: map<string, Value>)
    requires forall k :: k in states ==> states[k].id == k
    ensures RunFrom(states, current, events, registry, Some([]), results) ==
            RunFrom(states, current, events, registry, None, results)
    decreases |events|
  {
    if events != [] && current in states {
      var st := states[current];
      assert Visit(st, events[0], registry, Some([])) == Visit(st, events[0], registry, None);
      var v := Visit(st, events[0], registry, None);
      if v.Ok? && events[0] in st.on {
        var results' := if v.value.Some? then results[current := v.value.value] else results;
        NoGuardsSameAsNone(states, st.on[events[0]], events[1..], registry, results');
      }
    }
  }

  /** Without guards an action is called with exactly the event and the
      state's id, and its result (or exception) is taken as is. */
  lemma UnguardedVisit(st: State, ev: string, registry: map<string, ActionFn>)
    requires HasAction(st) && st.action.value in registry
    ensures var r := registry[st.action.value](EventArgs(ev, st.id), 1);
      Visit(st, ev, registry, None) == if r.Ok? then Ok(Some(r.value)) else Err(r.error)
  {
  }

  /** An action that answers `"<state>:<event>"`. */
  function Echo(args: map<string, Value>, attempt: nat): Result<Value> {
    if "state" in args && "event" in args && args["state"].VStr? && args["event"].VStr?
    then Ok(VStr(args["state"].s + ":" + args["event"].s)) else Err(TypeError)
  }

  /** The two-state echo machine: on "go" the start state's action runs with
      event "go" and state "start", and the run ends in "end" with one result. */
  lemma EchoExample()
    ensures var m := SmData("sm1", DefaultVersion,
                            [State("start", Some("echo"), map["go" := "end"]), State("end", Some("echo"), map[])],
                            Some("start"));
            MachineSpec(m, map["echo" := Echo], ["go"], None) == Ok(map["start" := VStr("start:go")])
  {
    var s0 := State("start", Some("echo"), map["go" := "end"]);
    var s1 := State("end", Some("echo"), map[]);
    var m := SmData("sm1", DefaultVersion, [s0, s1], Some("start"));
    var states := StatesOf(m.states);
    assert [s0, s1][..1] == [s0];
    assert StatesOf([s0]) == map["start" := s0];
    assert states == map["start" := s0, "end" := s1];
    var reg: map<string, ActionFn> := map["echo" := Echo];
    var args := EventArgs("go", "start");
    assert args["state"] == VStr("start") && args["event"] == VStr("go");
    assert "start" + ":" + "go" == "start:go";
    assert Echo(args, 1) == Ok(VStr("start:go"));
    assert Visit(s0, "go", reg, None) == Ok(Some(VStr("start:go")));
    var after := map["start" := VStr("start:go")];
    assert RunFrom(states, "end", [], reg, None, after) == Ok(after);
    assert ["go"][1..] == [];
    assert RunFrom(states, "start", ["go"], reg, None, map[]) == Ok(after);
  }
}
