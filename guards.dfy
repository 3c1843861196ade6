/** Guards: pre-step hooks that may transform a step's arguments and
    post-step hooks that may transform its result, run as an ordered chain
    by a registry (plugins/koala/guards.py). */
module Guards {

  import opened Values

  /** What a hook did: returned a value, or raised an exception. */
  datatype HookResult = HookReturned(v: Value) | HookRaised(e: Error)

  /** `pre_step(step_id, action, args)`. */
  type PreHook = (string, string, map<string, Value>) -> HookResult

  /** `post_step(step_id, action, args, result)`. */
  type PostHook = (string, string, map<string, Value>, Value) -> HookResult

  /** The base class's hooks: arguments and result pass through unchanged. */
  function IdentityPre(stepId: string, action: string, args: map<string, Value>): HookResult {
    HookReturned(VDict(args))
  }

  function IdentityPost(stepId: string, action: string, args: map<string, Value>, result: Value): HookResult {
    HookReturned(result)
  }

  /** A guard object. Its hooks are fixed when it is created: a subclass that
      overrides neither hook behaves as the base class. Guards are compared
      by identity, as `list.remove` compares plain objects. */
  class Guard {
    const preStep: PreHook
    const postStep: PostHook

    /** A guard of the base class, or of a subclass overriding the given hooks. */
    constructor (pre: Option<PreHook>, post: Option<PostHook>)
      ensures pre.None? ==> forall s, a, args :: preStep(s, a, args) == HookReturned(VDict(args))
      ensures pre.Some? ==> preStep == pre.value
      ensures post.None? ==> forall s, a, args, r :: postStep(s, a, args, r) == HookReturned(r)
      ensures post.Some? ==> postStep == post.value
    {
      var basePre: PreHook := (s, a, args) => IdentityPre(s, a, args);
      var basePost: PostHook := (s, a, args, r) => IdentityPost(s, a, args, r);
      if pre.Some? {
        var h: PreHook := pre.value;
        preStep := h;
      } else {
        preStep := basePre;
      }
      if post.Some? {
        var h: PostHook := post.value;
        postStep := h;
      } else {
        postStep := basePost;
      }
    }
  }

  ghost predicate PassesArgs(g: Guard) {
    forall s, a, args :: g.preStep(s, a, args) == HookReturned(VDict(args))
  }

  ghost predicate PassesResult(g: Guard) {
    forall s, a, args, r :: g.postStep(s, a, args, r) == HookReturned(r)
  }

  /** The pre-step chain: each guard sees the previous guard's output, in
      registration order; a raised exception or a non-dict return stops the
      chain (the latter as GuardError). */
  function PreChain(gs: seq<Guard>, stepId: string, action: string, args: map<string, Value>): Result<map<string, Value>>
  {
    if gs == [] then Ok(args)
    else
      match gs[0].preStep(stepId, action, args)
      case HookRaised(e) => Err(e)
      case HookReturned(v) =>
        if v.VDict? then PreChain(gs[1..], stepId, action, v.fields) else Err(GuardError)
  }

  /** The post-step chain: the result is threaded through every guard in
      registration order, each given the same arguments; no type check. */
  function PostChain(gs: seq<Guard>, stepId: string, action: string, args: map<string, Value>, result: Value): Result<Value>
  {
    if gs == [] then Ok(result)
    else
      match gs[0].postStep(stepId, action, args, result)
      case HookRaised(e) => Err(e)
      case HookReturned(v) => PostChain(gs[1..], stepId, action, args, v)
  }

  /** Running two chains one after the other is running their concatenation;
      an error in the first means the second is never consulted. */
  lemma {:induction false} PreChainAppend(gs1: seq<Guard>, gs2: seq<Guard>, stepId: string, action: string, args: map<string, Value>)
    ensures PreChain(gs1 + gs2, stepId, action, args) ==
      match PreChain(gs1, stepId, action, args)
      case Ok(a) => PreChain(gs2, stepId, action, a)
      case Err(e) => Err(e)
  {
    if gs1 == [] {
      assert gs1 + gs2 == gs2;
    } else {
      assert (gs1 + gs2)[0] == gs1[0];
      assert (gs1 + gs2)[1..] == gs1[1..] + gs2;
      match gs1[0].preStep(stepId, action, args)
      case HookRaised(e) =>
      case HookReturned(v) =>
        if v.VDict? { PreChainAppend(gs1[1..], gs2, stepId, action, v.fields); }
    }
  }

  lemma {:induction false} PostChainAppend(gs1: seq<Guard>, gs2: seq<Guard>, stepId: string, action: string, args: map<string, Value>, result: Value)
    ensures PostChain(gs1 + gs2, stepId, action, args, result) ==
      match PostChain(gs1, stepId, action, args, result)
      case Ok(r) => PostChain(gs2, stepId, action, args, r)
      case Err(e) => Err(e)
  {
    if gs1 == [] {
      assert gs1 + gs2 == gs2;
    } else {
      assert (gs1 + gs2)[0] == gs1[0];
      assert (gs1 + gs2)[1..] == gs1[1..] + gs2;
      match gs1[0].postStep(stepId, action, args, result)
      case HookRaised(e) =>
      case HookReturned(v) => PostChainAppend(gs1[1..], gs2, stepId, action, args, v);
    }
  }

  /** A guard that returns a non-dict stops the pre-step chain with
      GuardError, whatever the guards after it would do. */
  lemma PreChainStopsAtNonDict(gs: seq<Guard>, i: nat, stepId: string, action: string, args: map<string, Value>, before: map<string, Value>)
    requires i < |gs|
    requires PreChain(gs[..i], stepId, action, args) == Ok(before)
    requires gs[i].preStep(stepId, action, before).HookReturned?
    requires !gs[i].preStep(stepId, action, before).v.VDict?
    ensures PreChain(gs, stepId, action, args) == Err(GuardError)
  {
    assert gs == gs[..i] + gs[i..];
    PreChainAppend(gs[..i], gs[i..], stepId, action, args);
  }

  /** An exception raised by a hook ends the chain with that exception. */
  lemma PreChainStopsAtRaise(gs: seq<Guard>, i: nat, stepId: string, action: string, args: map<string, Value>, before: map<string, Value>)
    requires i < |gs|
    requires PreChain(gs[..i], stepId, action, args) == Ok(before)
    requires gs[i].preStep(stepId, action, before).HookRaised?
    ensures PreChain(gs, stepId, action, args) == Err(gs[i].preStep(stepId, action, before).e)
  {
    assert gs == gs[..i] + gs[i..];
    PreChainAppend(gs[..i], gs[i..], stepId, action, args);
  }

  lemma PostChainStopsAtRaise(gs: seq<Guard>, i: nat, stepId: string, action: string, args: map<string, Value>, result: Value, before: Value)
    requires i < |gs|
    requires PostChain(gs[..i], stepId, action, args, result) == Ok(before)
    requires gs[i].postStep(stepId, action, args, before).HookRaised?
    ensures PostChain(gs, stepId, action, args, result) == Err(gs[i].postStep(stepId, action, args, before).e)
  {
    assert gs == gs[..i] + gs[i..];
    PostChainAppend(gs[..i], gs[i..], stepId, action, args, result);
  }

  /** Guards that keep the base hooks leave arguments and results unchanged;
      in particular an empty registry does. */
  lemma {:induction false} BaseGuardsChangeNothing(gs: seq<Guard>, stepId: string, action: string, args: map<string, Value>, result: Value)
    requires forall i :: 0 <= i < |gs| ==> PassesArgs(gs[i]) && PassesResult(gs[i])
    ensures PreChain(gs, stepId, action, args) == Ok(args)
    ensures PostChain(gs, stepId, action, args, result) == Ok(result)
  {
    if gs != [] {
      assert PassesArgs(gs[0]) && PassesResult(gs[0]);
      BaseGuardsChangeNothing(gs[1..], stepId, action, args, result);
    }
  }

  /** `list.remove`: drop the first occurrence, or leave the list alone. */
  function RemoveFirst(gs: seq<Guard>, g: Guard): (r: seq<Guard>)
    ensures g !in gs ==> r == gs
    ensures g in gs ==> |r| == |gs| - 1 && multiset(r) == multiset(gs) - multiset{g}
  {
    if gs == [] then []
    else
      assert gs == [gs[0]] + gs[1..];
      if gs[0] == g then gs[1..]
      else [gs[0]] + RemoveFirst(gs[1..], g)
  }

  /** RemoveFirst removes exactly at the first occurrence. */
  lemma {:induction false} RemoveFirstSplits(gs: seq<Guard>, g: Guard, i: nat)
    requires i < |gs| && gs[i] == g && g !in gs[..i]
    ensures RemoveFirst(gs, g) == gs[..i] + gs[i + 1..]
  {
    if i > 0 {
      assert gs[1..][..i - 1] == gs[..i][1..];
      RemoveFirstSplits(gs[1..], g, i - 1);
      assert gs[..i] == [gs[0]] + gs[1..][..i - 1];
    }
  }

  class GuardsRegistry {
    var guards: seq<Guard>

    constructor ()
      ensures guards == []
    {
      guards := [];
    }

    method Register(g: Guard)
      modifies this
      ensures guards == old(guards) + [g]
    {
      guards := guards + [g];
    }

    /** Removes one occurrence; an unregistered guard is silently ignored. */
    method Unregister(g: Guard)
      modifies this
      ensures guards == RemoveFirst(old(guards), g)
    {
      guards := RemoveFirst(guards, g);
    }

    method RunPre(stepId: string, action: string, args: map<string, Value>) returns (r: Result<map<string, Value>>)
      ensures r == PreChain(guards, stepId, action, args)
    {
      var cur := args;
      var i := 0;
      while i < |guards|
        invariant 0 <= i <= |guards|
        invariant PreChain(guards[i..], stepId, action, cur) == PreChain(guards, stepId, action, args)
      {
        assert guards[i..][0] == guards[i] && guards[i..][1..] == guards[i + 1..];
        var h := guards[i].preStep(stepId, action, cur);
        if h.HookRaised? {
          return Err(h.e);
        }
        if !h.v.VDict? {
          return Err(GuardError);
        }
        cur := h.v.fields;
        i := i + 1;
      }
      return Ok(cur);
    }

    method RunPost(stepId: string, action: string, args: map<string, Value>, result: Value) returns (r: Result<Value>)
      ensures r == PostChain(guards, stepId, action, args, result)
    {
      var cur := result;
      var i := 0;
      while i < |guards|
        invariant 0 <= i <= |guards|
        invariant PostChain(guards[i..], stepId, action, args, cur) == PostChain(guards, stepId, action, args, result)
      {
        assert guards[i..][0] == guards[i] && guards[i..][1..] == guards[i + 1..];
        var h := guards[i].postStep(stepId, action, args, cur);
        if h.HookRaised? {
          return Err(h.e);
        }
        cur := h.v;
        i := i + 1;
      }
      return Ok(cur);
    }
  }

  /** Registering a guard runs it after all earlier ones. */
  lemma RegisterRunsLast(gs: seq<Guard>, g: Guard, stepId: string, action: string, args: map<string, Value>)
    ensures PreChain(gs + [g], stepId, action, args) ==
      match PreChain(gs, stepId, action, args)
      case Ok(a) => PreChain([g], stepId, action, a)
      case Err(e) => Err(e)
  {
    PreChainAppend(gs, [g], stepId, action, args);
  }
}
