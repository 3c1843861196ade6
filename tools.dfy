/** The tools registry (src/koala/tools.py): named callables with an input
    schema mapping parameter names to primitive type names, checked before
    every call, and an optional per-principal access check. */
module Tools {

  import opened Values
  import Auth
  import Text

  /** A Python function object. Identity matters (`existing.func is func`);
      the names are the attributes `__name__`, `__qualname__` and
      `__module__`, any of which may be missing or empty. */
  class Callable {
    const name: Option<string>
    const qualname: Option<string>
    const moduleName: Option<string>
    const fn: ActionFn

    constructor (name: Option<string>, qualname: Option<string>, moduleName: Option<string>, fn: ActionFn)
      ensures this.name == name && this.qualname == qualname && this.moduleName == moduleName && this.fn == fn
    {
      this.name := name;
      this.qualname := qualname;
      this.moduleName := moduleName;
      this.fn := fn;
    }
  }

  datatype ToolMeta = ToolMeta(
    name: string,
    func: Callable,
    inputSchema: map<string, string>,
    outputSchema: map<string, string>,
    description: string)

  function SchemaOrEmpty(schema: Option<map<string, string>>): map<string, string> {
    if schema.Some? then schema.value else map[]
  }

  /** `ToolMeta(...)`: a missing schema is empty, a missing description "". */
  function NewToolMeta(name: string, func: Callable, inputSchema: Option<map<string, string>>,
                       outputSchema: Option<map<string, string>>, description: Option<string>): ToolMeta
  {
    ToolMeta(name, func, SchemaOrEmpty(inputSchema), SchemaOrEmpty(outputSchema),
             if description.Some? then description.value else "")
  }

  /** `_check_type(expected, value)`: "any" accepts everything, an unknown
      type name raises ToolsError, otherwise `isinstance`, under which a bool
      is also an int but an int is not a float. */
  function CheckType(expected: string, v: Value): (r: Result<bool>)
    ensures r.Err? <==> expected !in {"any", "int", "str", "float", "bool"}
    ensures r.Err? ==> r.error == ToolsError
    ensures expected == "any" ==> r == Ok(true)
  {
    if expected == "any" then Ok(true)
    else if expected == "int" then Ok(v.VInt? || v.VBool?)
    else if expected == "str" then Ok(v.VStr?)
    else if expected == "float" then Ok(v.VFloat?)
    else if expected == "bool" then Ok(v.VBool?)
    else Err(ToolsError)
  }

  /** Every schema parameter is supplied with a value of its declared type. */
  predicate SchemaAccepts(schema: map<string, string>, kwargs: map<string, Value>) {
    forall p :: p in schema ==> p in kwargs && CheckType(schema[p], kwargs[p]) == Ok(true)
  }

  /** Arguments the schema does not mention never cause a rejection. */
  lemma ExtraArgumentsAccepted(schema: map<string, string>, kwargs: map<string, Value>, extra: string, v: Value)
    requires extra !in schema
    ensures SchemaAccepts(schema, kwargs[extra := v]) <==> SchemaAccepts(schema, kwargs)
  {
    if SchemaAccepts(schema, kwargs[extra := v]) {
      forall p | p in schema ensures p in kwargs && CheckType(schema[p], kwargs[p]) == Ok(true) {
        assert p != extra;
      }
    }
  }

  /** The access check `call` makes when a truthy principal is given. */
  predicate Denied(auth: Auth.AuthManager, principal: Option<string>, name: string)
    reads auth
  {
    principal.Some? && principal.value != "" && !auth.IsAllowed(principal.value, name)
  }

  /** The table after `register(name, func, ...)`: the very same callable
      already under `name` leaves it as it is; anything else (re)places the
      entry. */
  function Registered(tools: map<string, ToolMeta>, name: string, func: Callable,
                      inputSchema: Option<map<string, string>>, outputSchema: Option<map<string, string>>,
                      description: Option<string>): (t: map<string, ToolMeta>)
    ensures t.Keys == tools.Keys + {name}
    ensures forall other :: other in tools && other != name ==> t[other] == tools[other]
    ensures name in tools && tools[name].func == func ==> t[name] == tools[name]
    ensures !(name in tools && tools[name].func == func) ==>
      t[name] == NewToolMeta(name, func, inputSchema, outputSchema, description)
  {
    if name in tools && tools[name].func == func then tools
    else tools[name := NewToolMeta(name, func, inputSchema, outputSchema, description)]
  }

  /** Registering the same callable twice is the same as registering it
      once, whatever the second call's schemas and description say. */
  lemma RegisterTwiceIsOnce(tools: map<string, ToolMeta>, name: string, func: Callable,
                            in1: Option<map<string, string>>, out1: Option<map<string, string>>, d1: Option<string>,
                            in2: Option<map<string, string>>, out2: Option<map<string, string>>, d2: Option<string>)
    ensures Registered(Registered(tools, name, func, in1, out1, d1), name, func, in2, out2, d2) ==
            Registered(tools, name, func, in1, out1, d1)
  {
  }

  class ToolsRegistry {
    var tools: map<string, ToolMeta>

    constructor ()
      ensures tools == map[]
    {
      tools := map[];
    }

    /** Re-registering the very same callable is a no-op that keeps the old
        metadata; anything else (re)places the entry. */
    method Register(name: string, func: Callable, inputSchema: Option<map<string, string>>,
                    outputSchema: Option<map<string, string>>, description: Option<string>)
      modifies this
      ensures name in old(tools) && old(tools)[name].func == func ==> tools == old(tools)
      ensures !(name in old(tools) && old(tools)[name].func == func) ==>
        tools == old(tools)[name := NewToolMeta(name, func, inputSchema, outputSchema, description)]
      ensures tools == Registered(old(tools), name, func, inputSchema, outputSchema, description)
    {
      if name in tools {
        var existing := tools[name];
        if existing.func == func {
          return;
        }
        tools := tools[name := NewToolMeta(name, func, inputSchema, outputSchema, description)];
        return;
      }
      tools := tools[name := NewToolMeta(name, func, inputSchema, outputSchema, description)];
    }

    method Unregister(name: string) returns (r: Result<()>)
      modifies this
      ensures name in old(tools) ==> r == Ok(()) && tools == old(tools) - {name}
      ensures name !in old(tools) ==> r == Err(ToolsError) && tools == old(tools)
    {
      if name in tools {
        tools := tools - {name};
        return Ok(());
      }
      return Err(ToolsError);
    }

    function Get(name: string): (r: Result<ToolMeta>)
      reads this
      ensures r.Ok? <==> name in tools
      ensures r.Ok? ==> r.value == tools[name]
      ensures r.Err? ==> r.error == ToolsError
    {
      if name in tools then Ok(tools[name]) else Err(ToolsError)
    }

    /** `list_tools()`: the registered names in increasing order. */
    function ListTools(): (names: seq<string>)
      reads this
      ensures forall n :: n in names <==> n in tools
      ensures |names| == |tools|
      ensures Text.StrictlyIncreasing(names)
    {
      Text.SortedStrings(tools.Keys)
    }

    /** The plain name-to-function view the executors are given. */
    function Actions(): (table: map<string, ActionFn>)
      reads this
      ensures table.Keys == tools.Keys
      ensures forall n :: n in tools ==> table[n] == tools[n].func.fn
    {
      map n | n in tools :: tools[n].func.fn
    }

    /** `call(name, principal, **kwargs)`: the tool must exist, a truthy
        principal must be allowed, and the arguments must satisfy the input
        schema; only then is the function invoked, once. Every refusal is a
        ToolsError. */
    method Call(name: string, principal: Option<string>, kwargs: map<string, Value>, auth: Auth.AuthManager)
      returns (r: Result<Value>, ghost invoked: bool)
      ensures invoked <==> name in tools && !Denied(auth, principal, name) && SchemaAccepts(tools[name].inputSchema, kwargs)
      ensures invoked ==> r == tools[name].func.fn(kwargs, 1)
      ensures !invoked ==> r == Err(ToolsError)
    {
      invoked := false;
      var t :- Get(name);
      if principal.Some? && principal.value != "" {
        if !auth.IsAllowed(principal.value, name) {
          return Err(ToolsError), false;
        }
      }
      var schema := t.inputSchema;
      var todo := schema.Keys;
      while todo != {}
        invariant todo <= schema.Keys
        invariant forall p :: p in schema && p !in todo ==> p in kwargs && CheckType(schema[p], kwargs[p]) == Ok(true)
        decreases |todo|
      {
        var p :| p in todo;
        if p !in kwargs {
          return Err(ToolsError), false;
        }
        var ok :- CheckType(schema[p], kwargs[p]);
        if !ok {
          return Err(ToolsError), false;
        }
        todo := todo - {p};
      }
      return t.func.fn(kwargs, 1), true;
    }
  }

  /** The `tool(...)` decorator applied to `func`: registers it under the
      given name or else its `__name__`, and hands the function back. */
  method Tool(name: Option<string>, func: Callable, inputSchema: Option<map<string, string>>,
              outputSchema: Option<map<string, string>>, description: Option<string>, registry: ToolsRegistry)
    returns (r: Result<Callable>)
    modifies registry
    ensures var nm := if name.Some? && name.value != "" then name else func.name;
      (nm.None? || nm.value == "") ==> r == Err(ToolsError) && registry.tools == old(registry.tools)
    ensures var nm := if name.Some? && name.value != "" then name else func.name;
      nm.Some? && nm.value != "" ==>
        r == Ok(func) && nm.value in registry.tools && registry.tools[nm.value].func == func &&
        registry.tools == Registered(old(registry.tools), nm.value, func, inputSchema, outputSchema, description)
  {
    var nm := if name.Some? && name.value != "" then name else func.name;
    if nm.None? || nm.value == "" {
      return Err(ToolsError);
    }
    registry.Register(nm.value, func, inputSchema, outputSchema, description);
    return Ok(func);
  }
}
