/** The readiness scheduler shared by `LocalExecutor.run_dagflow`,
    `ProcessExecutor.run_dagflow` and `DummyRemoteExecutor.run_dagflow`
    (src/koala/flow.py), as a sequential loop.

    A step is submitted once its in-degree count reaches zero: its arguments
    are resolved against the results recorded so far and its action's
    outcome is fixed (actions are oracles from arguments and attempt number
    to an outcome). Completion takes ANY submitted step (the choice a thread
    pool makes), records its result and releases its successors. What the
    three executors do differently at submission and completion is the
    `Variant`. */
module Scheduler {

  import opened Values
  import opened FlowData
  import opened Graph
  import opened Toposort
  import opened Guards
  import Observability
  import Tools

  // ---- the per-step retry loop ----

  /** Attempts `k`, `k + 1`, ... up to `maxAttempts`, stopping at the first
      success; the last failure is what remains. */
  function RetryFrom(fn: ActionFn, args: map<string, Value>, k: nat, maxAttempts: nat): Result<Value>
    requires 1 <= k <= maxAttempts
    decreases maxAttempts - k
  {
    var o := fn(args, k);
    if o.Ok? || k == maxAttempts then o else RetryFrom(fn, args, k + 1, maxAttempts)
  }

  function RetrySpec(fn: ActionFn, args: map<string, Value>, maxAttempts: nat): Result<Value>
    requires maxAttempts >= 1
  {
    RetryFrom(fn, args, 1, maxAttempts)
  }

  /** The outcome is that of attempt `a` whenever every earlier attempt
      failed and `a` succeeded or was the last one allowed. */
  lemma {:induction false} RetryFromIs(fn: ActionFn, args: map<string, Value>, k: nat, maxAttempts: nat, a: nat)
    requires 1 <= k <= a <= maxAttempts
    requires forall j :: k <= j < a ==> fn(args, j).Err?
    requires fn(args, a).Ok? || a == maxAttempts
    ensures RetryFrom(fn, args, k, maxAttempts) == fn(args, a)
    decreases a - k
  {
    if k < a {
      RetryFromIs(fn, args, k + 1, maxAttempts, a);
    }
  }

  lemma RetryOutcome(fn: ActionFn, args: map<string, Value>, maxAttempts: nat, a: nat)
    requires 1 <= a <= maxAttempts
    requires forall j :: 1 <= j < a ==> fn(args, j).Err?
    requires fn(args, a).Ok? || a == maxAttempts
    ensures RetrySpec(fn, args, maxAttempts) == fn(args, a)
  {
    RetryFromIs(fn, args, 1, maxAttempts, a);
  }

  /** A failure surfaces only after every allowed attempt has failed. */
  lemma {:induction false} RetryFailsOnlyIfAllFail(fn: ActionFn, args: map<string, Value>, k: nat, maxAttempts: nat)
    requires 1 <= k <= maxAttempts
    requires RetryFrom(fn, args, k, maxAttempts).Err?
    ensures forall j :: k <= j <= maxAttempts ==> fn(args, j).Err?
    decreases maxAttempts - k
  {
    if k < maxAttempts && fn(args, k).Err? {
      RetryFailsOnlyIfAllFail(fn, args, k + 1, maxAttempts);
    }
  }

  /** With one allowed attempt (the executor's default policy) the action
      runs exactly once. */
  lemma SingleAttempt(fn: ActionFn, args: map<string, Value>)
    ensures RetrySpec(fn, args, 1) == fn(args, 1)
  {
    RetryOutcome(fn, args, 1, 1);
  }

  /** `_run_with_retries`: call, and call again after a failure while
      attempts remain; the last failure is re-raised. */
  method RunWithRetries(fn: ActionFn, args: map<string, Value>, policy: Observability.Policy)
    returns (r: Result<Value>, attempts: nat)
    ensures r == RetrySpec(fn, args, policy.maxAttempts)
    ensures 1 <= attempts <= policy.maxAttempts && r == fn(args, attempts)
    ensures forall j :: 1 <= j < attempts ==> fn(args, j).Err?
    ensures r.Err? ==> attempts == policy.maxAttempts
  {
    var maxAttempts: nat := policy.maxAttempts;
    attempts := 1;
    r := fn(args, attempts);
    while r.Err? && attempts < maxAttempts
      invariant 1 <= attempts <= maxAttempts
      invariant r == fn(args, attempts)
      invariant forall j :: 1 <= j < attempts ==> fn(args, j).Err?
      invariant RetrySpec(fn, args, maxAttempts) == RetryFrom(fn, args, attempts, maxAttempts)
      decreases maxAttempts - attempts
    {
      attempts := attempts + 1;
      r := fn(args, attempts);
    }
  }

  // ---- how each executor reaches an action ----

  /** A `ProcessExecutor` registry value: a dotted import path, a callable,
      None, or anything else. */
  datatype ActionRef = PathRef(path: string) | FuncRef(func: Tools.Callable) | NoneRef | OtherRef

  /** `_resolve_action_path`: a string is the path itself; a callable with a
      truthy `__module__` and `__name__` becomes `module.name`; anything else
      raises FlowError. */
  function ResolveActionPath(val: ActionRef): (r: Result<string>)
    ensures val.PathRef? ==> r == Ok(val.path)
    ensures r.Err? ==> r.error == FlowError(NoActionPath)
    ensures val.FuncRef? ==> (r.Ok? <==>
      val.func.moduleName.Some? && val.func.moduleName.value != "" && val.func.name.Some? && val.func.name.value != "")
    ensures val.FuncRef? && r.Ok? ==> r.value == val.func.moduleName.value + "." + val.func.name.value
    ensures val.NoneRef? || val.OtherRef? ==> r.Err?
  {
    match val
    case PathRef(p) => Ok(p)
    case FuncRef(c) =>
      if c.moduleName.Some? && c.moduleName.value != "" && c.name.Some? && c.name.value != "" then
        Ok(c.moduleName.value + "." + c.name.value)
      else Err(FlowError(NoActionPath))
    case _ => Err(FlowError(NoActionPath))
  }

  /** The `action_paths` entry for a registry value: its path when one
      resolves, otherwise the value kept as it is. */
  function PathEntry(val: ActionRef): (e: ActionRef)
    ensures e.PathRef? <==> ResolveActionPath(val).Ok?
    ensures e.NoneRef? <==> val.NoneRef?
  {
    var p := ResolveActionPath(val);
    if p.Ok? then PathRef(p.value) else val
  }

  /** Resolving an entry again changes nothing. */
  lemma PathEntryIdempotent(val: ActionRef)
    ensures PathEntry(PathEntry(val)) == PathEntry(val)
  {
  }

  function ActionPaths(registry: map<string, ActionRef>): (paths: map<string, ActionRef>)
    ensures paths.Keys == registry.Keys
    ensures forall a :: a in registry ==> paths[a] == PathEntry(registry[a])
  {
    map a | a in registry :: PathEntry(registry[a])
  }

  /** `_process_invoke(path, kwargs)`: split at the last dot (a path without
      one raises ValueError) and import the callable, which is looked up in
      the table of importable callables. */
  function ProcessInvoke(path: string, args: map<string, Value>, importable: map<string, ActionFn>): Result<Value> {
    if '.' !in path then Err(ValueError)
    else if path in importable then importable[path](args, 1)
    else Err(AttributeError)
  }

  /** What a process worker does with an `action_paths` entry. */
  function ProcessCall(val: ActionRef, args: map<string, Value>, importable: map<string, ActionFn>): Result<Value> {
    match val
    case PathRef(p) => ProcessInvoke(p, args, importable)
    case FuncRef(c) => c.fn(args, 1)
    case _ => Err(TypeError)
  }

  /** `_invoke` of the remote executor: the lookup happens in the worker. */
  function RemoteInvoke(registry: map<string, ActionFn>, action: string, args: map<string, Value>): (r: Result<Value>)
    ensures action !in registry ==> r == Err(FlowError(ActionNotFound(action)))
    ensures action in registry ==> r == registry[action](args, 1)
  {
    if action !in registry then Err(FlowError(ActionNotFound(action))) else registry[action](args, 1)
  }

  // ---- submission and completion ----

  datatype Variant =
    | Local(registry: map<string, ActionFn>, guards: Option<seq<Guard>>, defaultPolicy: Observability.Policy)
    | Process(paths: map<string, ActionRef>, importable: map<string, ActionFn>)
    | Remote(actions: map<string, ActionFn>)

  /** A submitted step: the outcome its worker produces, and the arguments
      the post-step guards will be shown. */
  datatype Pending = Pending(outcome: Result<Value>, postArgs: map<string, Value>)

  const TimeoutKey: string := "__timeout__"
  const RetryKey: string := "__retry__"

  /** The step's own policy when `__retry__` holds one `from_dict` accepts;
      otherwise (absent, falsy, or raising) the executor's default. */
  function PolicyOf(args: map<string, Value>, default: Observability.Policy): Observability.Policy {
    if RetryKey in args then
      var pr := Observability.PolicyFromDict(args[RetryKey]);
      if pr.Ok? && pr.value.Some? then pr.value.value else default
    else default
  }

  /** A GuardError escaping a pre-step guard becomes FlowError; any other
      exception passes through. */
  function WrapPre(r: Result<map<string, Value>>, id: string): (w: Result<map<string, Value>>)
    ensures r.Ok? ==> w == r
    ensures r.Err? && r.error == GuardError ==> w == Err(FlowError(PreGuardFailed(id)))
    ensures r.Err? && r.error != GuardError ==> w == r
  {
    if r.Err? && r.error == GuardError then Err(FlowError(PreGuardFailed(id))) else r
  }

  function WrapPost(r: Result<Value>, id: string): (w: Result<Value>)
    ensures r.Ok? ==> w == r
    ensures r.Err? && r.error == GuardError ==> w == Err(FlowError(PostGuardFailed(id)))
    ensures r.Err? && r.error != GuardError ==> w == r
  {
    if r.Err? && r.error == GuardError then Err(FlowError(PostGuardFailed(id))) else r
  }

  /** `submit_step(nid)` for a step whose arguments resolve against `results`. */
  function SubmitSpec(v: Variant, step: Step, results: map<string, Value>): Result<Pending> {
    match v
    case Local(registry, guards, default) =>
      if step.action !in registry then Err(FlowError(ActionNotFound(step.action)))
      else
        var resolved := ResolveArgs(step.args, results);
        var guarded :- if guards.Some? then WrapPre(PreChain(guards.value, step.id, step.action, resolved), step.id)
                       else Ok(resolved);
        var stripped := guarded - {TimeoutKey, RetryKey};
        var policy := PolicyOf(guarded, default);
        Ok(Pending(RetrySpec(registry[step.action], stripped, policy.maxAttempts), stripped))
    case Process(registry, importable) =>
      var paths := ActionPaths(registry);
      if step.action !in paths || paths[step.action].NoneRef? then Err(FlowError(ActionNotFound(step.action)))
      else
        var resolved := ResolveArgs(step.args, results);
        Ok(Pending(ProcessCall(paths[step.action], resolved, importable), resolved))
    case Remote(actions) =>
      var resolved := ResolveArgs(step.args, results);
      Ok(Pending(RemoteInvoke(actions, step.action, resolved), resolved))
  }

  /** What happens when the step's future is done: a failed worker becomes
      FlowError; the local executor then runs the post-step guards. */
  function CompleteSpec(v: Variant, step: Step, p: Pending): Result<Value> {
    if p.outcome.Err? then Err(FlowError(StepFailed(step.id)))
    else if v.Local? && v.guards.Some? then
      WrapPost(PostChain(v.guards.value, step.id, step.action, p.postArgs, p.outcome.value), step.id)
    else Ok(p.outcome.value)
  }

  /** The result a step records when submitted against `results`. */
  function StepSpec(v: Variant, step: Step, results: map<string, Value>): Result<Value> {
    var p :- SubmitSpec(v, step, results);
    CompleteSpec(v, step, p)
  }

  // ---- what the step semantics promise ----

  /** A missing action is a FlowError at submission in the local and process
      executors, and a step failure in the remote one. */
  lemma MissingActionFails(v: Variant, step: Step, results: map<string, Value>)
    requires v.Local? ==> step.action !in v.registry
    requires v.Process? ==> step.action !in v.paths
    requires v.Remote? ==> step.action !in v.actions
    ensures v.Local? || v.Process? ==> StepSpec(v, step, results) == Err(FlowError(ActionNotFound(step.action)))
    ensures v.Remote? ==> StepSpec(v, step, results) == Err(FlowError(StepFailed(step.id)))
  {
  }

  /** The local executor hands the action the guarded arguments without the
      two reserved keys, and allows it as many attempts as the step's policy. */
  lemma LocalStripsReservedKeys(registry: map<string, ActionFn>, guards: Option<seq<Guard>>,
                                default: Observability.Policy, step: Step, results: map<string, Value>)
    requires SubmitSpec(Local(registry, guards, default), step, results).Ok?
    ensures var p := SubmitSpec(Local(registry, guards, default), step, results).value;
      TimeoutKey !in p.postArgs && RetryKey !in p.postArgs &&
      exists guarded: map<string, Value> ::
        p.postArgs == guarded - {TimeoutKey, RetryKey} &&
        p.outcome == RetrySpec(registry[step.action], p.postArgs, PolicyOf(guarded, default).maxAttempts)
  {
  }

  /** Without guards and without `__retry__`, the default policy of one
      attempt applies: the step's result is the action's first outcome. */
  lemma LocalDefaultSingleCall(registry: map<string, ActionFn>, step: Step, results: map<string, Value>)
    requires step.action in registry
    requires RetryKey !in step.args
    ensures var args := ResolveArgs(step.args, results) - {TimeoutKey, RetryKey};
      StepSpec(Local(registry, None, Observability.RetryPolicy(1, 0.0, 1.0)), step, results) ==
        if registry[step.action](args, 1).Ok? then registry[step.action](args, 1)
        else Err(FlowError(StepFailed(step.id)))
  {
    var args := ResolveArgs(step.args, results) - {TimeoutKey, RetryKey};
    SingleAttempt(registry[step.action], args);
  }

  /** A GuardError from a pre-step guard fails the step with FlowError
      before its action runs. */
  lemma PreGuardErrorWrapped(registry: map<string, ActionFn>, gs: seq<Guard>, default: Observability.Policy,
                             step: Step, results: map<string, Value>)
    requires step.action in registry
    requires PreChain(gs, step.id, step.action, ResolveArgs(step.args, results)) == Err(GuardError)
    ensures StepSpec(Local(registry, Some(gs), default), step, results) == Err(FlowError(PreGuardFailed(step.id)))
  {
  }

  /** A GuardError from a post-step guard after a successful action fails
      the step with FlowError. */
  lemma PostGuardErrorWrapped(registry: map<string, ActionFn>, gs: seq<Guard>, default: Observability.Policy,
                              step: Step, results: map<string, Value>)
    requires SubmitSpec(Local(registry, Some(gs), default), step, results).Ok?
    requires var p := SubmitSpec(Local(registry, Some(gs), default), step, results).value;
      p.outcome.Ok? && PostChain(gs, step.id, step.action, p.postArgs, p.outcome.value) == Err(GuardError)
    ensures StepSpec(Local(registry, Some(gs), default), step, results) == Err(FlowError(PostGuardFailed(step.id)))
  {
  }

  /** `m` maps every key of `sub` as `sub` does. */
  ghost predicate SubMap(sub: map<string, Value>, m: map<string, Value>) {
    forall k :: k in sub ==> k in m && m[k] == sub[k]
  }

  /** Every source of an edge into `x` is in `s`. */
  ghost predicate AllPredsIn(x: string, s: set<string>, edges: seq<Edge>) {
    forall k :: 0 <= k < |edges| && edges[k].1 == x ==> edges[k].0 in s
  }

  /** A `$result.<p>` argument of a step submitted after `p` recorded its
      result resolves to that result. */
  lemma ReferenceSeesResult(snapshot: map<string, Value>, results: map<string, Value>, p: string)
    requires SubMap(snapshot, results) && p in snapshot
    ensures ResolveValue(VStr(ResultPrefix + p), snapshot) == results[p]
  {
    assert StartsWith(ResultPrefix + p, ResultPrefix) by {
      assert (ResultPrefix + p)[..|ResultPrefix|] == ResultPrefix;
    }
    assert (ResultPrefix + p)[|ResultPrefix|..] == p;
  }

  // ---- the submission methods ----

  /** `submit_step` for one step. */
  method Submit(v: Variant, step: Step, results: map<string, Value>) returns (r: Result<Pending>)
    ensures r == SubmitSpec(v, step, results)
  {
    match v
    case Local(registry, guards, default) =>
      if step.action !in registry {
        return Err(FlowError(ActionNotFound(step.action)));
      }
      var fn := registry[step.action];
      var resolved := ResolveArgs(step.args, results);
      if guards.Some? {
        var pre := WrapPre(PreChain(guards.value, step.id, step.action, resolved), step.id);
        if pre.Err? {
          return Err(pre.error);
        }
        resolved := pre.value;
      }
      var policy := PolicyOf(resolved, default);
      var stripped := resolved - {TimeoutKey, RetryKey};
      var outcome, attempts := RunWithRetries(fn, stripped, policy);
      return Ok(Pending(outcome, stripped));
    case Process(registry, importable) =>
      var paths := ActionPaths(registry);
      if step.action !in paths || paths[step.action].NoneRef? {
        return Err(FlowError(ActionNotFound(step.action)));
      }
      var resolved := ResolveArgs(step.args, results);
      return Ok(Pending(ProcessCall(paths[step.action], resolved, importable), resolved));
    case Remote(actions) =>
      var resolved := ResolveArgs(step.args, results);
      return Ok(Pending(RemoteInvoke(actions, step.action, resolved), resolved));
  }

  /** `for nid in ids: submit_step(nid)`, stopping at the first that raises. */
  method SubmitAll(v: Variant, nodes: map<string, Step>, ids: seq<string>, results: map<string, Value>,
                   pending0: map<string, Pending>)
    returns (pending: map<string, Pending>, r: Result<()>, ghost failed: string)
    requires forall x :: x in ids ==> x in nodes
    ensures r.Ok? ==> pending.Keys == pending0.Keys + SetOf(ids)
    ensures r.Ok? ==> forall x :: x in pending && x in ids ==> SubmitSpec(v, nodes[x], results) == Ok(pending[x])
    ensures r.Ok? ==> forall x :: x in pending && x !in ids ==> pending[x] == pending0[x]
    ensures r.Err? ==> failed in ids && SubmitSpec(v, nodes[failed], results) == Err(r.error)
  {
    pending := pending0;
    failed := "";
    for j := 0 to |ids|
      invariant pending.Keys == pending0.Keys + SetOf(ids[..j])
      invariant forall x :: x in pending && x in ids[..j] ==> SubmitSpec(v, nodes[x], results) == Ok(pending[x])
      invariant forall x :: x in pending && x !in ids[..j] ==> pending[x] == pending0[x]
    {
      assert ids[..j + 1] == ids[..j] + [ids[j]];
      var p := Submit(v, nodes[ids[j]], results);
      if p.Err? {
        failed := ids[j];
        return pending, Err(p.error), failed;
      }
      pending := pending[ids[j] := p.value];
    }
    assert ids[..|ids|] == ids;
    r := Ok(());
  }

  // ---- the readiness loop ----

  /** The in-degree bookkeeping with `done` the steps that have results and
      `sub` those submitted and not yet completed. */
  ghost predicate CountInv(nodes: set<string>, edges: seq<Edge>, incoming: map<string, int>,
                           done: set<string>, sub: set<string>) {
    incoming.Keys == nodes && done * sub == {} && done + sub <= nodes &&
    (forall x :: x in incoming ==> incoming[x] == PendingIn(edges, x, done)) &&
    (forall x :: x in nodes && x !in done && x !in sub ==> incoming[x] > 0) &&
    (forall x :: x in done + sub ==> PendingIn(edges, x, done) == 0)
  }

  /** A step in flight is not done. */
  lemma InFlightNotDone(done: set<string>, sub: set<string>, n: string)
    requires done * sub == {} && n in sub
    ensures n !in done
  {
    assert n in done ==> n in done * sub;
  }

  lemma CountStart(nodes: set<string>, edges: seq<Edge>, incoming: map<string, int>, keyOrder: seq<string>)
    requires incoming.Keys == nodes
    requires forall x :: x in incoming ==> incoming[x] == PendingIn(edges, x, {})
    requires Distinct(keyOrder) && forall x :: x in keyOrder <==> x in nodes
    ensures CountInv(nodes, edges, incoming, {}, SetOf(Ready(keyOrder, incoming)))
    ensures forall x :: x in Ready(keyOrder, incoming) ==> x in nodes && AllPredsIn(x, {}, edges)
  {
    var ready := Ready(keyOrder, incoming);
    forall x | x in ready ensures AllPredsIn(x, {}, edges) {
      PendingInZero(edges, x, {});
    }
  }

  /** Completing `n` and releasing its successors keeps the bookkeeping;
      the released steps are new and have all their predecessors done. */
  lemma CountStep(nodes: set<string>, edges: seq<Edge>, incoming: map<string, int>,
                  done: set<string>, sub: set<string>, n: string, after: map<string, int>, released: seq<string>)
    requires CountInv(nodes, edges, incoming, done, sub) && EndpointsIn(edges, nodes)
    requires n in sub
    requires after.Keys == incoming.Keys
    requires forall x :: x in incoming ==> after[x] == incoming[x] - multiset(Succs(edges, n))[x]
    requires forall x :: x in released <==> x in Succs(edges, n) && x in after && after[x] == 0
    ensures CountInv(nodes, edges, after, done + {n}, (sub - {n}) + SetOf(released))
    ensures forall x :: x in released ==> x !in done && x !in sub && x in nodes && AllPredsIn(x, done + {n}, edges)
  {
    var succ := Succs(edges, n);
    var done' := done + {n};
    InFlightNotDone(done, sub, n);
    assert n !in done && incoming.Keys == nodes;
    AfterCounts(edges, incoming, done, n, after);
    SuccsPending(nodes, edges, done, sub, n);
    ReleasedReady(edges, done', after, released, succ);
    StillNoneWaiting(edges, done, sub, n);
    StillWaiting(nodes, incoming, done, sub, n, after, released, succ);
  }

  /** Finishing one more step leaves nothing pending for a step that had
      nothing pending. */
  lemma StillNoneWaiting(edges: seq<Edge>, done: set<string>, sub: set<string>, n: string)
    requires forall x :: x in done + sub ==> PendingIn(edges, x, done) == 0
    ensures forall x :: x in done + sub ==> PendingIn(edges, x, done + {n}) == 0
  {
    forall x | x in done + sub ensures PendingIn(edges, x, done + {n}) == 0 {
      PendingInMonotone(edges, x, done, done + {n});
    }
  }

  /** A step neither done, submitted nor released still has a positive count. */
  lemma StillWaiting(nodes: set<string>, incoming: map<string, int>, done: set<string>, sub: set<string>,
                     n: string, after: map<string, int>, released: seq<string>, succ: seq<string>)
    requires incoming.Keys == nodes && after.Keys == nodes
    requires forall x :: x in nodes && x !in done && x !in sub ==> incoming[x] > 0
    requires forall x :: x in incoming ==> after[x] == incoming[x] - multiset(succ)[x]
    requires forall x :: x in after ==> after[x] >= 0
    requires forall x :: x in released <==> x in succ && x in after && after[x] == 0
    ensures forall x :: x in nodes && x !in done + {n} && x !in (sub - {n}) + SetOf(released) ==> after[x] > 0
  {
    forall x | x in nodes && x !in done + {n} && x !in (sub - {n}) + SetOf(released) ensures after[x] > 0 {
      if x !in succ {
        assert multiset(succ)[x] == 0;
      }
    }
  }

  /** The counts after completing `n` are the pending counts with `n` done. */
  lemma AfterCounts(edges: seq<Edge>, incoming: map<string, int>, done: set<string>, n: string,
                    after: map<string, int>)
    requires n !in done && after.Keys == incoming.Keys
    requires forall x :: x in incoming ==> incoming[x] == PendingIn(edges, x, done)
    requires forall x :: x in incoming ==> after[x] == incoming[x] - multiset(Succs(edges, n))[x]
    ensures forall x :: x in after ==> after[x] == PendingIn(edges, x, done + {n})
  {
    forall x | x in after ensures after[x] == PendingIn(edges, x, done + {n}) {
      PendingInSplit(edges, x, done, n);
    }
  }

  /** A successor of an unfinished step still waits for it, so it is
      neither done nor submitted. */
  lemma SuccsPending(nodes: set<string>, edges: seq<Edge>, done: set<string>, sub: set<string>, n: string)
    requires EndpointsIn(edges, nodes) && n !in done
    requires forall x :: x in done + sub ==> PendingIn(edges, x, done) == 0
    ensures forall x :: x in Succs(edges, n) ==> x in nodes && x !in done && x !in sub
  {
    forall x | x in Succs(edges, n) ensures x in nodes && x !in done && x !in sub {
      SuccsEdge(edges, n, x);
      PendingInSplit(edges, x, done, n);
    }
  }

  /** A released successor has all its predecessors done. */
  lemma ReleasedReady(edges: seq<Edge>, done: set<string>, after: map<string, int>, released: seq<string>,
                      succ: seq<string>)
    requires forall x :: x in after ==> after[x] == PendingIn(edges, x, done)
    requires forall x :: x in released <==> x in succ && x in after && after[x] == 0
    ensures forall x :: x in released ==> AllPredsIn(x, done, edges)
  {
    forall x | x in released ensures AllPredsIn(x, done, edges) {
      PendingInZero(edges, x, done);
    }
  }

  /** Releasing the successors of `n` needs each successor's count to cover
      its edges from `n`. */
  lemma CountReleasable(nodes: set<string>, edges: seq<Edge>, incoming: map<string, int>,
                        done: set<string>, sub: set<string>, n: string)
    requires CountInv(nodes, edges, incoming, done, sub) && EndpointsIn(edges, nodes)
    requires n in sub
    ensures forall x :: x in Succs(edges, n) ==> x in incoming && incoming[x] >= multiset(Succs(edges, n))[x]
  {
    InFlightNotDone(done, sub, n);
    forall x | x in Succs(edges, n) ensures x in incoming && incoming[x] >= multiset(Succs(edges, n))[x] {
      SuccsEdge(edges, n, x);
      PendingInSplit(edges, x, done, n);
    }
  }

  /** With nothing left in flight, either every step has a result or the
      steps without one form a closed core, and no dependency order exists. */
  lemma CountDone(nodes: set<string>, edges: seq<Edge>, incoming: map<string, int>, done: set<string>)
    requires CountInv(nodes, edges, incoming, done, {}) && EndpointsIn(edges, nodes)
    ensures done != nodes ==> !HasTopoOrder(nodes, edges)
  {
    if done != nodes {
      var core := nodes - done;
      forall x | x in core ensures HasPredIn(x, core, edges) {
        PendingInPositive(edges, x, done);
        var k :| 0 <= k < |edges| && edges[k].1 == x && edges[k].0 !in done;
        assert edges[k].0 in core;
      }
      ClosedCoreBlocksOrder(core, nodes, edges);
    }
  }

  /** Each submitted or completed step's snapshot of the results it was
      submitted against holds all its predecessors and agrees with the
      results recorded since. */
  ghost predicate SnapshotsOk(nodes: map<string, Step>, edges: seq<Edge>, results: map<string, Value>,
                              pending: map<string, Pending>, snapshots: map<string, map<string, Value>>) {
    snapshots.Keys == results.Keys + pending.Keys &&
    forall x :: x in snapshots ==> x in nodes && SubMap(snapshots[x], results) && AllPredsIn(x, snapshots[x].Keys, edges)
  }

  /** Every recorded result is what the step yields against its snapshot. */
  ghost predicate ResultsOk(v: Variant, nodes: map<string, Step>, results: map<string, Value>,
                            snapshots: map<string, map<string, Value>>) {
    forall x :: x in results ==> x in nodes && x in snapshots && StepSpec(v, nodes[x], snapshots[x]) == Ok(results[x])
  }

  /** Every step in flight was submitted against its snapshot. */
  ghost predicate PendingOk(v: Variant, nodes: map<string, Step>, pending: map<string, Pending>,
                            snapshots: map<string, map<string, Value>>) {
    forall x :: x in pending ==> x in nodes && x in snapshots && SubmitSpec(v, nodes[x], snapshots[x]) == Ok(pending[x])
  }

  ghost predicate Recorded(v: Variant, nodes: map<string, Step>, edges: seq<Edge>, results: map<string, Value>,
                           pending: map<string, Pending>, snapshots: map<string, map<string, Value>>) {
    SnapshotsOk(nodes, edges, results, pending, snapshots) &&
    ResultsOk(v, nodes, results, snapshots) && PendingOk(v, nodes, pending, snapshots)
  }

  lemma CompletionSnapshots(nodes: map<string, Step>, edges: seq<Edge>, results: map<string, Value>,
                            pending: map<string, Pending>, snapshots: map<string, map<string, Value>>, n: string, res: Value)
    requires SnapshotsOk(nodes, edges, results, pending, snapshots)
    requires n in pending && n !in results
    ensures SnapshotsOk(nodes, edges, results[n := res], pending - {n}, snapshots)
  {
    forall x | x in snapshots ensures SubMap(snapshots[x], results[n := res]) {
      assert SubMap(snapshots[x], results);
    }
  }

  lemma CompletionResults(v: Variant, nodes: map<string, Step>, results: map<string, Value>,
                          pending: map<string, Pending>, snapshots: map<string, map<string, Value>>, n: string, res: Value)
    requires ResultsOk(v, nodes, results, snapshots) && PendingOk(v, nodes, pending, snapshots)
    requires n in pending
    requires CompleteSpec(v, nodes[n], pending[n]) == Ok(res)
    ensures ResultsOk(v, nodes, results[n := res], snapshots)
  {
    assert SubmitSpec(v, nodes[n], snapshots[n]) == Ok(pending[n]);
  }

  lemma CompletionPending(v: Variant, nodes: map<string, Step>, pending: map<string, Pending>,
                          snapshots: map<string, map<string, Value>>, n: string)
    requires PendingOk(v, nodes, pending, snapshots)
    ensures PendingOk(v, nodes, pending - {n}, snapshots)
  {
  }

  lemma RecordCompletion(v: Variant, nodes: map<string, Step>, edges: seq<Edge>, results: map<string, Value>,
                         pending: map<string, Pending>, snapshots: map<string, map<string, Value>>, n: string, res: Value)
    requires Recorded(v, nodes, edges, results, pending, snapshots)
    requires n in pending && n !in results
    requires CompleteSpec(v, nodes[n], pending[n]) == Ok(res)
    ensures Recorded(v, nodes, edges, results[n := res], pending - {n}, snapshots)
  {
    CompletionSnapshots(nodes, edges, results, pending, snapshots, n, res);
    CompletionResults(v, nodes, results, pending, snapshots, n, res);
    CompletionPending(v, nodes, pending, snapshots, n);
  }

  function Extend(snapshots: map<string, map<string, Value>>, ids: seq<string>, results: map<string, Value>)
    : (r: map<string, map<string, Value>>)
    ensures r.Keys == snapshots.Keys + SetOf(ids)
    ensures forall x :: x in r ==> r[x] == if x in SetOf(ids) then results else snapshots[x]
  {
    snapshots + map x | x in SetOf(ids) :: results
  }

  lemma SubmissionSnapshots(nodes: map<string, Step>, edges: seq<Edge>, results: map<string, Value>,
                            pending0: map<string, Pending>, pending: map<string, Pending>,
                            snapshots: map<string, map<string, Value>>, ids: seq<string>)
    requires SnapshotsOk(nodes, edges, results, pending0, snapshots)
    requires forall x :: x in ids ==> x in nodes && AllPredsIn(x, results.Keys, edges)
    requires pending.Keys == pending0.Keys + SetOf(ids)
    ensures SnapshotsOk(nodes, edges, results, pending, Extend(snapshots, ids, results))
  {
    var snaps := Extend(snapshots, ids, results);
    forall x | x in snaps
      ensures x in nodes && SubMap(snaps[x], results) && AllPredsIn(x, snaps[x].Keys, edges)
    {
      if x !in SetOf(ids) {
        assert snaps[x] == snapshots[x];
      }
    }
  }

  lemma SubmissionResults(v: Variant, nodes: map<string, Step>, results: map<string, Value>,
                          snapshots: map<string, map<string, Value>>, ids: seq<string>)
    requires ResultsOk(v, nodes, results, snapshots)
    requires forall x :: x in ids ==> x !in results
    ensures ResultsOk(v, nodes, results, Extend(snapshots, ids, results))
  {
    var snaps := Extend(snapshots, ids, results);
    forall x | x in results ensures x in snaps && StepSpec(v, nodes[x], snaps[x]) == Ok(results[x]) {
      assert x !in SetOf(ids);
    }
  }

  lemma SubmissionPending(v: Variant, nodes: map<string, Step>, results: map<string, Value>,
                          pending0: map<string, Pending>, pending: map<string, Pending>,
                          snapshots: map<string, map<string, Value>>, ids: seq<string>)
    requires PendingOk(v, nodes, pending0, snapshots)
    requires forall x :: x in ids ==> x in nodes && x !in pending0
    requires pending.Keys == pending0.Keys + SetOf(ids)
    requires forall x :: x in pending && x in ids ==> SubmitSpec(v, nodes[x], results) == Ok(pending[x])
    requires forall x :: x in pending && x !in ids ==> pending[x] == pending0[x]
    ensures PendingOk(v, nodes, pending, Extend(snapshots, ids, results))
  {
    var snaps := Extend(snapshots, ids, results);
    forall x | x in pending ensures x in nodes && x in snaps && SubmitSpec(v, nodes[x], snaps[x]) == Ok(pending[x]) {
      if x !in SetOf(ids) {
        assert snaps[x] == snapshots[x];
        assert SubmitSpec(v, nodes[x], snapshots[x]) == Ok(pending0[x]);
      }
    }
  }

  lemma RecordSubmissions(v: Variant, nodes: map<string, Step>, edges: seq<Edge>, results: map<string, Value>,
                          pending0: map<string, Pending>, pending: map<string, Pending>,
                          snapshots: map<string, map<string, Value>>, ids: seq<string>)
    requires Recorded(v, nodes, edges, results, pending0, snapshots)
    requires forall x :: x in ids ==> x !in results && x !in pending0 && x in nodes && AllPredsIn(x, results.Keys, edges)
    requires pending.Keys == pending0.Keys + SetOf(ids)
    requires forall x :: x in pending && x in ids ==> SubmitSpec(v, nodes[x], results) == Ok(pending[x])
    requires forall x :: x in pending && x !in ids ==> pending[x] == pending0[x]
    ensures Recorded(v, nodes, edges, results, pending, Extend(snapshots, ids, results))
  {
    SubmissionSnapshots(nodes, edges, results, pending0, pending, snapshots, ids);
    SubmissionResults(v, nodes, results, snapshots, ids);
    SubmissionPending(v, nodes, results, pending0, pending, snapshots, ids);
  }

  /** The state of the readiness loop: the bookkeeping of counts, the
      completion order so far, and what is recorded about every step. */
  ghost predicate Progress(v: Variant, ids: set<string>, nodes: map<string, Step>, edges: seq<Edge>,
                           incoming: map<string, int>, results: map<string, Value>, pending: map<string, Pending>,
                           schedule: seq<string>, snapshots: map<string, map<string, Value>>) {
    CountInv(ids, edges, incoming, results.Keys, pending.Keys) &&
    Distinct(schedule) && SetOf(schedule) == results.Keys && PredsBefore(schedule, edges) &&
    Recorded(v, nodes, edges, results, pending, snapshots)
  }

  /** Recording `res` for the step `n` in flight keeps the schedule a
      dependency order of the results and every result and submission what
      the step semantics give. */
  lemma CompleteRecord(v: Variant, nodes: map<string, Step>, edges: seq<Edge>,
                       results: map<string, Value>, pending: map<string, Pending>,
                       schedule: seq<string>, snapshots: map<string, map<string, Value>>, n: string, res: Value)
    requires Distinct(schedule) && SetOf(schedule) == results.Keys && PredsBefore(schedule, edges)
    requires Recorded(v, nodes, edges, results, pending, snapshots)
    requires n in pending && n !in results && PendingIn(edges, n, results.Keys) == 0
    requires CompleteSpec(v, nodes[n], pending[n]) == Ok(res)
    ensures Distinct(schedule + [n]) && SetOf(schedule + [n]) == results.Keys + {n}
    ensures PredsBefore(schedule + [n], edges)
    ensures Recorded(v, nodes, edges, results[n := res], pending - {n}, snapshots)
  {
    SetOfSnoc(schedule, n);
    RecordCompletion(v, nodes, edges, results, pending, snapshots, n, res);
    PredsBeforeSnoc(schedule, n, edges);
    DistinctConcat(schedule, [n]);
  }

  /** Completing `n` with `res` and releasing its successors keeps the
      bookkeeping, with the released steps counted as in flight. */
  lemma CompleteAndRelease(v: Variant, ids: set<string>, nodes: map<string, Step>, edges: seq<Edge>,
                           incoming: map<string, int>, results: map<string, Value>, pending: map<string, Pending>,
                           schedule: seq<string>, snapshots: map<string, map<string, Value>>,
                           n: string, res: Value, after: map<string, int>, released: seq<string>)
    requires EndpointsIn(edges, ids) && nodes.Keys == ids
    requires Progress(v, ids, nodes, edges, incoming, results, pending, schedule, snapshots)
    requires n in pending && CompleteSpec(v, nodes[n], pending[n]) == Ok(res)
    requires after.Keys == incoming.Keys
    requires forall x :: x in incoming ==> after[x] == incoming[x] - multiset(Succs(edges, n))[x]
    requires forall x :: x in released <==> x in Succs(edges, n) && x in after && after[x] == 0
    ensures n !in results
    ensures CountInv(ids, edges, after, results.Keys + {n}, (pending.Keys - {n}) + SetOf(released))
    ensures Distinct(schedule + [n]) && SetOf(schedule + [n]) == results.Keys + {n}
    ensures PredsBefore(schedule + [n], edges)
    ensures Recorded(v, nodes, edges, results[n := res], pending - {n}, snapshots)
    ensures forall x :: x in released ==>
      x !in results && x != n && x !in pending && x in nodes && AllPredsIn(x, results.Keys + {n}, edges)
  {
    InFlightNotDone(results.Keys, pending.Keys, n);
    CompleteRecord(v, nodes, edges, results, pending, schedule, snapshots, n, res);
    CountStep(ids, edges, incoming, results.Keys, pending.Keys, n, after, released);
  }

  lemma SetOfSnoc(s: seq<string>, x: string)
    ensures SetOf(s + [x]) == SetOf(s) + {x}
  {
    assert forall y :: y in s + [x] <==> y in s || y == x;
  }

  /** The step completing next is not done yet, so one more step is done. */
  lemma OneMoreDone(v: Variant, ids: set<string>, nodes: map<string, Step>, edges: seq<Edge>,
                    incoming: map<string, int>, results: map<string, Value>, pending: map<string, Pending>,
                    schedule: seq<string>, snapshots: map<string, map<string, Value>>, n: string)
    requires Progress(v, ids, nodes, edges, incoming, results, pending, schedule, snapshots)
    requires n in pending
    ensures n !in results && results.Keys + {n} <= ids
    ensures |results.Keys| < |results.Keys + {n}| <= |ids|
  {
    InFlightNotDone(results.Keys, pending.Keys, n);
    SubsetCard(results.Keys + {n}, ids);
  }

  /** A step in flight whose completion raises is a step that raises
      against its snapshot. */
  lemma InFlightFails(v: Variant, nodes: map<string, Step>, edges: seq<Edge>, results: map<string, Value>,
                      pending: map<string, Pending>, snapshots: map<string, map<string, Value>>, n: string)
    requires Recorded(v, nodes, edges, results, pending, snapshots)
    requires n in pending && CompleteSpec(v, nodes[n], pending[n]).Err?
    ensures n in snapshots && n in nodes && AllPredsIn(n, snapshots[n].Keys, edges)
    ensures StepSpec(v, nodes[n], snapshots[n]) == CompleteSpec(v, nodes[n], pending[n])
  {
    assert SubmitSpec(v, nodes[n], snapshots[n]) == Ok(pending[n]);
  }

  /** With nothing in flight, either every step has its result, recorded
      in a dependency order, or no dependency order exists. */
  lemma Finished(v: Variant, ids: set<string>, nodes: map<string, Step>, edges: seq<Edge>,
                 incoming: map<string, int>, results: map<string, Value>, pending: map<string, Pending>,
                 schedule: seq<string>, snapshots: map<string, map<string, Value>>)
    requires EndpointsIn(edges, ids) && nodes.Keys == ids
    requires Progress(v, ids, nodes, edges, incoming, results, pending, schedule, snapshots)
    requires pending.Keys == {}
    ensures |results| != |nodes| ==> !HasTopoOrder(ids, edges)
    ensures |results| == |nodes| ==> results.Keys == ids && IsTopoOrder(schedule, ids, edges)
    ensures forall x :: x in results ==>
      x in snapshots && SubMap(snapshots[x], results) && AllPredsIn(x, snapshots[x].Keys, edges) &&
      StepSpec(v, nodes[x], snapshots[x]) == Ok(results[x])
  {
    CountDone(ids, edges, incoming, results.Keys);
    SubsetCard(results.Keys, ids);
    assert |results| == |results.Keys| && |nodes| == |nodes.Keys|;
  }

  /** One turn of the readiness loop after step `n` completed with `res`:
      record its result, release the successors whose counts reach zero and
      submit them against the results so far. */
  method Advance(v: Variant, ghost ids: set<string>, nodes: map<string, Step>, edges: seq<Edge>,
                 outgoing: map<string, seq<string>>, incoming: map<string, int>,
                 results: map<string, Value>, pending: map<string, Pending>,
                 ghost schedule: seq<string>, ghost snapshots: map<string, map<string, Value>>,
                 n: string, res: Value)
    returns (incoming': map<string, int>, results': map<string, Value>, pending': map<string, Pending>,
             ghost schedule': seq<string>, ghost snapshots': map<string, map<string, Value>>,
             submitted: Result<()>, ghost failed: string)
    requires EndpointsIn(edges, ids) && nodes.Keys == ids
    requires forall x :: x in ids ==> x in outgoing && outgoing[x] == Succs(edges, x)
    requires Progress(v, ids, nodes, edges, incoming, results, pending, schedule, snapshots)
    requires n in pending && CompleteSpec(v, nodes[n], pending[n]) == Ok(res)
    ensures n !in results && results'.Keys == results.Keys + {n}
    ensures submitted.Ok? ==> Progress(v, ids, nodes, edges, incoming', results', pending', schedule', snapshots')
    ensures submitted.Err? ==> failed in ids && AllPredsIn(failed, results'.Keys, edges)
    ensures submitted.Err? ==> StepSpec(v, nodes[failed], results') == Err(submitted.error)
  {
    var released;
    incoming', released := Complete(v, ids, nodes, edges, outgoing, incoming, results, pending, schedule, snapshots, n, res);
    schedule' := schedule + [n];
    results' := results[n := res];
    var pending0 := pending - {n};
    pending', submitted, failed := SubmitAll(v, nodes, released, results', pending0);
    if submitted.Err? {
      snapshots' := snapshots;
      return;
    }
    snapshots' := Extend(snapshots, released, results');
    SubmittedProgress(v, ids, nodes, edges, incoming', results', pending0, pending', schedule', snapshots, released);
  }

  /** Recording `res` for `n` and lowering its successors' counts: the
      successors that reach zero are released, and the bookkeeping holds
      with them counted as in flight. */
  method Complete(v: Variant, ghost ids: set<string>, nodes: map<string, Step>, edges: seq<Edge>,
                  outgoing: map<string, seq<string>>, incoming: map<string, int>,
                  results: map<string, Value>, pending: map<string, Pending>,
                  ghost schedule: seq<string>, ghost snapshots: map<string, map<string, Value>>,
                  n: string, res: Value)
    returns (incoming': map<string, int>, released: seq<string>)
    requires EndpointsIn(edges, ids) && nodes.Keys == ids
    requires forall x :: x in ids ==> x in outgoing && outgoing[x] == Succs(edges, x)
    requires Progress(v, ids, nodes, edges, incoming, results, pending, schedule, snapshots)
    requires n in pending && CompleteSpec(v, nodes[n], pending[n]) == Ok(res)
    ensures results[n := res].Keys == results.Keys + {n} && (pending - {n}).Keys == pending.Keys - {n}
    ensures n !in results
    ensures CountInv(ids, edges, incoming', results.Keys + {n}, (pending.Keys - {n}) + SetOf(released))
    ensures Distinct(schedule + [n]) && SetOf(schedule + [n]) == results.Keys + {n}
    ensures PredsBefore(schedule + [n], edges)
    ensures Recorded(v, nodes, edges, results[n := res], pending - {n}, snapshots)
    ensures forall x :: x in released ==>
      x !in results && x != n && x !in pending && x in nodes && AllPredsIn(x, results.Keys + {n}, edges)
  {
    assert results[n := res].Keys == results.Keys + {n};
    assert (pending - {n}).Keys == pending.Keys - {n};
    CountReleasable(ids, edges, incoming, results.Keys, pending.Keys, n);
    incoming', released := Graph.Release(incoming, outgoing[n]);
    CompleteAndRelease(v, ids, nodes, edges, incoming, results, pending, schedule, snapshots,
                       n, res, incoming', released);
  }

  /** Submitting the released steps against the results so far restores
      the state of the readiness loop. */
  lemma SubmittedProgress(v: Variant, ids: set<string>, nodes: map<string, Step>, edges: seq<Edge>,
                          incoming: map<string, int>, results: map<string, Value>,
                          pending0: map<string, Pending>, pending: map<string, Pending>,
                          schedule: seq<string>, snapshots: map<string, map<string, Value>>, released: seq<string>)
    requires CountInv(ids, edges, incoming, results.Keys, pending0.Keys + SetOf(released))
    requires Distinct(schedule) && SetOf(schedule) == results.Keys && PredsBefore(schedule, edges)
    requires Recorded(v, nodes, edges, results, pending0, snapshots)
    requires forall x :: x in released ==> x !in results && x !in pending0 && x in nodes && AllPredsIn(x, results.Keys, edges)
    requires pending.Keys == pending0.Keys + SetOf(released)
    requires forall x :: x in pending && x in released ==> SubmitSpec(v, nodes[x], results) == Ok(pending[x])
    requires forall x :: x in pending && x !in released ==> pending[x] == pending0[x]
    ensures Progress(v, ids, nodes, edges, incoming, results, pending, schedule, Extend(snapshots, released, results))
  {
    RecordSubmissions(v, nodes, edges, results, pending0, pending, snapshots, released);
  }

  /** The start of a run: the dependency tables, and every step without
      predecessors submitted in the steps' insertion order. */
  method Launch(v: Variant, steps: seq<Step>, edges: seq<Edge>)
    returns (tables: Result<Tables>, pending: map<string, Pending>, submitted: Result<()>,
             ghost failed: string, ghost snapshots: map<string, map<string, Value>>)
    ensures FirstBadEndpoint(edges, IdSet(steps)).Some? ==>
      tables == Err(KeyError(FirstBadEndpoint(edges, IdSet(steps)).value))
    ensures FirstBadEndpoint(edges, IdSet(steps)).None? ==>
      tables.Ok? && TablesFor(tables.value, steps, edges) && EndpointsIn(edges, IdSet(steps))
    ensures tables.Ok? && submitted.Ok? ==>
      Progress(v, IdSet(steps), tables.value.nodes, edges, tables.value.incoming, map[], pending, [], snapshots)
    ensures tables.Ok? && submitted.Err? ==>
      failed in IdSet(steps) && AllPredsIn(failed, {}, edges) &&
      StepSpec(v, tables.value.nodes[failed], map[]) == Err(submitted.error)
  {
    pending, submitted, failed, snapshots := map[], Ok(()), "", map[];
    tables := BuildTables(steps, edges);
    if tables.Err? {
      return;
    }
    var t := tables.value;
    TablesReady(t, steps, edges);
    var ready := Ready(t.keyOrder, t.incoming);
    CountStart(IdSet(steps), edges, t.incoming, t.keyOrder);
    var none: map<string, Value> := map[];
    pending, submitted, failed := SubmitAll(v, t.nodes, ready, none, map[]);
    if submitted.Err? {
      return;
    }
    assert pending.Keys == SetOf(ready);
    assert none.Keys == {};
    RecordSubmissions(v, t.nodes, edges, map[], map[], pending, map[], ready);
    snapshots := Extend(map[], ready, map[]);
    assert SetOf([]) == {};
  }

  /** One executor's `run_dagflow`: KeyError for an edge whose endpoint is
      not a step, otherwise either every step's result, or the first failure
      raised, or FlowError when some steps never became ready.

      `schedule` is the order steps completed in, `snapshots[x]` the results
      step `x` was submitted against, and `blame` the step that raised. */
  method RunDag(v: Variant, steps: seq<Step>, edges: seq<Edge>)
    returns (r: Result<map<string, Value>>, ghost schedule: seq<string>,
             ghost snapshots: map<string, map<string, Value>>, ghost blame: Option<string>)
    ensures FirstBadEndpoint(edges, IdSet(steps)).Some? ==>
      r == Err(KeyError(FirstBadEndpoint(edges, IdSet(steps)).value))
    ensures r.Ok? ==> r.value.Keys == IdSet(steps) && IsTopoOrder(schedule, IdSet(steps), edges)
    ensures r.Ok? ==> forall x :: x in r.value ==>
      x in snapshots && SubMap(snapshots[x], r.value) && AllPredsIn(x, snapshots[x].Keys, edges) &&
      StepSpec(v, NodesOf(steps)[x], snapshots[x]) == Ok(r.value[x])
    ensures FirstBadEndpoint(edges, IdSet(steps)).None? && r.Err? ==>
      (blame.Some? && blame.value in snapshots && blame.value in IdSet(steps) &&
       AllPredsIn(blame.value, snapshots[blame.value].Keys, edges) &&
       StepSpec(v, NodesOf(steps)[blame.value], snapshots[blame.value]) == Err(r.error)) ||
      (blame.None? && r.error == FlowError(NotAllExecuted) && !HasTopoOrder(IdSet(steps), edges))
  {
    schedule := [];
    blame := None;
    var tables, pending, submitted;
    ghost var failed;
    tables, pending, submitted, failed, snapshots := Launch(v, steps, edges);
    if tables.Err? {
      return Err(tables.error), schedule, snapshots, blame;
    }
    var t := tables.value;
    ghost var ids := IdSet(steps);
    if submitted.Err? {
      snapshots := map[failed := map[]];
      blame := Some(failed);
      r := Err(submitted.error);
      return;
    }
    r, schedule, snapshots, blame := Drain(v, ids, t.nodes, edges, t.outgoing, t.incoming, pending, snapshots);
  }

  /** The readiness loop of `run_dagflow`: wait for a step in flight,
      record its result, release and submit its successors, until nothing
      is in flight; then either every step has a result or some never
      became ready. */
  method Drain(v: Variant, ghost ids: set<string>, nodes: map<string, Step>, edges: seq<Edge>,
               outgoing: map<string, seq<string>>, incoming: map<string, int>,
               pending: map<string, Pending>, ghost snapshots: map<string, map<string, Value>>)
    returns (r: Result<map<string, Value>>, ghost schedule: seq<string>,
             ghost snapshots': map<string, map<string, Value>>, ghost blame: Option<string>)
    requires EndpointsIn(edges, ids) && nodes.Keys == ids
    requires forall x :: x in ids ==> x in outgoing && outgoing[x] == Succs(edges, x)
    requires Progress(v, ids, nodes, edges, incoming, map[], pending, [], snapshots)
    ensures r.Ok? ==> r.value.Keys == ids && IsTopoOrder(schedule, ids, edges)
    ensures r.Ok? ==> forall x :: x in r.value ==>
      x in snapshots' && SubMap(snapshots'[x], r.value) && AllPredsIn(x, snapshots'[x].Keys, edges) &&
      StepSpec(v, nodes[x], snapshots'[x]) == Ok(r.value[x])
    ensures r.Err? ==>
      (blame.Some? && blame.value in snapshots' && blame.value in ids &&
       AllPredsIn(blame.value, snapshots'[blame.value].Keys, edges) &&
       StepSpec(v, nodes[blame.value], snapshots'[blame.value]) == Err(r.error)) ||
      (blame.None? && r.error == FlowError(NotAllExecuted) && !HasTopoOrder(ids, edges))
  {
    schedule, snapshots', blame := [], snapshots, None;
    var incoming, pending := incoming, pending;
    var results: map<string, Value> := map[];
    while pending.Keys != {}
      invariant Progress(v, ids, nodes, edges, incoming, results, pending, schedule, snapshots')
      decreases |ids| - |results.Keys|
    {
      var n :| n in pending.Keys;
      var res := CompleteSpec(v, nodes[n], pending[n]);
      if res.Err? {
        InFlightFails(v, nodes, edges, results, pending, snapshots', n);
        blame := Some(n);
        r := Err(res.error);
        return;
      }
      OneMoreDone(v, ids, nodes, edges, incoming, results, pending, schedule, snapshots', n);
      var submitted;
      ghost var failed;
      incoming, results, pending, schedule, snapshots', submitted, failed :=
        Advance(v, ids, nodes, edges, outgoing, incoming, results, pending, schedule, snapshots', n, res.value);
      if submitted.Err? {
        snapshots' := snapshots'[failed := results];
        blame := Some(failed);
        r := Err(submitted.error);
        return;
      }
    }
    Finished(v, ids, nodes, edges, incoming, results, pending, schedule, snapshots');
    if |results| != |nodes| {
      r := Err(FlowError(NotAllExecuted));
      return;
    }
    r := Ok(results);
  }
}
