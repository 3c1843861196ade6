/** Shared value and error types.

    Step arguments, step results and payload fields are dynamically typed in
    the system; `Value` stands for the values that occur there.  Exceptions
    become `Error`, and every operation that can raise returns a `Result`. */
module Values {

  /** A dynamically typed value: None, bool, int, float, str, list or dict. */
  datatype Value =
    | VNone
    | VBool(b: bool)
    | VInt(i: int)
    | VFloat(r: real)
    | VStr(s: string)
    | VList(items: seq<Value>)
    | VDict(fields: map<string, Value>)

  /** Why a flow operation raised FlowError. */
  datatype FlowFault =
    | DuplicateStep(id: string)
    | UnknownStep(id: string)
    | CycleOrMissing
    | ActionNotFound(action: string)
    | PreGuardFailed(step: string)
    | PostGuardFailed(step: string)
    | StepFailed(step: string)
    | PoolBroken(step: string)
    | NotAllExecuted
    | NoStartState
    | UnknownState(state: string)
    | DuplicateState(id: string)
    | NoActionPath

  /** The exceptions the modelled code raises or lets through. `Raised` is any
      other exception raised by user code (an action, a hook, a handler). */
  datatype Error =
    | FlowError(fault: FlowFault)
    | GuardError
    | KeyError(key: string)
    | ValueError
    | TypeError
    | AttributeError
    | ToolsError
    | IngressError
    | Full
    | Empty
    | Raised(code: nat)

  datatype Option<+T> = None | Some(value: T)

  /** A value or the exception that was raised instead. */
  datatype Result<+T> = Ok(value: T) | Err(error: Error) {
    predicate IsFailure() { Err? }
    function PropagateFailure<U>(): Result<U> requires Err? { Err(error) }
    function Extract(): T requires Ok? { value }
  }

  /** A user-supplied callable (an action, a tool): the outcome of its
      `attempt`-th invocation (counting from 1) with the given keyword
      arguments. What the code does is outside the model; only its outcomes
      are. */
  type ActionFn = (map<string, Value>, nat) -> Result<Value>

  /** Python truthiness: None, False, 0, 0.0 and empty containers are false. */
  predicate Truthy(v: Value) {
    match v
    case VNone => false
    case VBool(b) => b
    case VInt(i) => i != 0
    case VFloat(r) => r != 0.0
    case VStr(s) => s != ""
    case VList(xs) => xs != []
    case VDict(m) => m != map[]
  }

  predicate StartsWith(s: string, prefix: string) {
    |prefix| <= |s| && s[..|prefix|] == prefix
  }

  /** The marker of a step argument that refers to an earlier step's result. */
  const ResultPrefix: string := "$result."

  /** A string argument beginning with `$result.` is a result reference. */
  predicate IsReference(v: Value) {
    v.VStr? && StartsWith(v.s, ResultPrefix)
  }

  /** The step id a reference names: everything after the first `$result.`,
      which is at the very start. */
  function ReferencedId(v: Value): (id: string)
    requires IsReference(v)
    ensures ResultPrefix + id == v.s
  {
    v.s[|ResultPrefix|..]
  }

  /** The result a reference resolves to: the recorded result, or None when
      the referenced step has no result (yet). */
  function Lookup(results: map<string, Value>, id: string): (v: Value)
    ensures id in results ==> v == results[id]
    ensures id !in results ==> v == VNone
  {
    if id in results then results[id] else VNone
  }

  /** One argument after reference resolution. */
  function ResolveValue(v: Value, results: map<string, Value>): (r: Value)
    ensures !IsReference(v) ==> r == v
    ensures IsReference(v) ==> r == Lookup(results, ReferencedId(v))
  {
    if IsReference(v) then Lookup(results, ReferencedId(v)) else v
  }

  /** All arguments after reference resolution; the keys are unchanged. */
  function ResolveArgs(args: map<string, Value>, results: map<string, Value>): (r: map<string, Value>)
    ensures r.Keys == args.Keys
    ensures forall k :: k in args && !IsReference(args[k]) ==> r[k] == args[k]
    ensures forall k :: k in args && IsReference(args[k]) ==>
      r[k] == Lookup(results, ReferencedId(args[k]))
  {
    map k | k in args :: ResolveValue(args[k], results)
  }

  /** Resolving a single argument. */
  lemma ResolveOne(k: string, v: Value, results: map<string, Value>)
    ensures ResolveArgs(map[k := v], results) == map[k := ResolveValue(v, results)]
  {
  }

  /** Resolution only looks at the results the references name: two result
      maps that agree on every referenced step give the same arguments. */
  lemma ResolveArgsDependsOnReferences(args: map<string, Value>, r1: map<string, Value>, r2: map<string, Value>)
    requires forall k :: k in args && IsReference(args[k]) ==>
      Lookup(r1, ReferencedId(args[k])) == Lookup(r2, ReferencedId(args[k]))
    ensures ResolveArgs(args, r1) == ResolveArgs(args, r2)
  {
  }

  /** No id occurs twice. */
  ghost predicate Distinct(s: seq<string>) {
    forall i, j :: 0 <= i < j < |s| ==> s[i] != s[j]
  }
}
