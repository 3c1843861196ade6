/** In-memory metrics and tracing, the retry policy carried by a step's
    `__retry__` argument, the generic retry wrapper and field redaction
    (src/koala/observability.py). Timestamps, trace-id generation, sleeping
    and locking are outside the model: a fresh trace id is a parameter and
    every operation is atomic. */
module Observability {

  import opened Values
  import Text

  // ---- retry policy ----

  datatype RetryPolicy = RetryPolicy(maxAttempts: int, backoff: real, multiplier: real)

  /** A policy the constructor accepts: at least one attempt. */
  type Policy = p: RetryPolicy | p.maxAttempts >= 1 witness RetryPolicy(1, 0.0, 1.0)

  const DefaultMaxAttempts: int := 3
  const DefaultBackoff: real := 0.1
  const DefaultMultiplier: real := 2.0

  /** `RetryPolicy(max_attempts, backoff, multiplier)`: ValueError below one attempt. */
  function NewRetryPolicy(maxAttempts: int, backoff: real, multiplier: real): (r: Result<Policy>)
    ensures r.Ok? <==> maxAttempts >= 1
    ensures r.Ok? ==> r.value == RetryPolicy(maxAttempts, backoff, multiplier)
    ensures r.Err? ==> r.error == ValueError
  {
    if maxAttempts < 1 then Err(ValueError) else Ok(RetryPolicy(maxAttempts, backoff, multiplier))
  }

  /** Python's `int(x)`; strings are limited to an optional sign and digits. */
  function ToInt(v: Value): Result<int> {
    match v
    case VInt(i) => Ok(i)
    case VBool(b) => Ok(if b then 1 else 0)
    case VFloat(r) => Ok(if r >= 0.0 then r.Floor else -((-r).Floor))
    case VStr(s) =>
      var p := Text.ParseInt(s);
      if p.Some? then Ok(p.value) else Err(ValueError)
    case _ => Err(TypeError)
  }

  /** Python's `float(x)`; strings are limited to an optional sign and a
      plain decimal. */
  function ToFloat(v: Value): Result<real> {
    match v
    case VInt(i) => Ok(i as real)
    case VBool(b) => Ok(if b then 1.0 else 0.0)
    case VFloat(r) => Ok(r)
    case VStr(s) =>
      var p := Text.ParseDecimal(s);
      if p.Some? then Ok(p.value) else Err(ValueError)
    case _ => Err(TypeError)
  }

  /** `d.get(key, default)`. */
  function Get(d: map<string, Value>, key: string, default: Value): Value {
    if key in d then d[key] else default
  }

  /** `RetryPolicy.from_dict(d)`: None for a falsy value, otherwise each
      field converted in turn with its default, then the constructor's
      check. A truthy non-dict has no `.get`. */
  function PolicyFromDict(d: Value): (r: Result<Option<Policy>>)
    ensures !Truthy(d) ==> r == Ok(None)
    ensures Truthy(d) ==> r != Ok(None)
    ensures Truthy(d) && !d.VDict? ==> r == Err(AttributeError)
  {
    if !Truthy(d) then Ok(None)
    else if !d.VDict? then Err(AttributeError)
    else
      var m :- ToInt(Get(d.fields, "max_attempts", VInt(DefaultMaxAttempts)));
      var b :- ToFloat(Get(d.fields, "backoff", VFloat(DefaultBackoff)));
      var k :- ToFloat(Get(d.fields, "multiplier", VFloat(DefaultMultiplier)));
      var p :- NewRetryPolicy(m, b, k);
      Ok(Some(p))
  }

  /** The dict form of a policy, as a step writes it under `__retry__`. */
  function PolicyToValue(p: RetryPolicy): Value {
    VDict(map["max_attempts" := VInt(p.maxAttempts), "backoff" := VFloat(p.backoff),
              "multiplier" := VFloat(p.multiplier)])
  }

  /** Reading back a written policy gives the same policy. */
  lemma PolicyRoundTrip(p: Policy)
    ensures PolicyFromDict(PolicyToValue(p)) == Ok(Some(p))
  {
    var d := PolicyToValue(p).fields;
    assert "max_attempts" in d && "backoff" in d && "multiplier" in d;
  }

  /** Fields left out of a non-empty dict take their defaults. */
  lemma PolicyDefaults(d: map<string, Value>)
    requires d != map[]
    requires "max_attempts" !in d && "backoff" !in d && "multiplier" !in d
    ensures PolicyFromDict(VDict(d)) == Ok(Some(RetryPolicy(DefaultMaxAttempts, DefaultBackoff, DefaultMultiplier)))
  {
  }

  /** A dict asking for fewer than one attempt is refused with ValueError. */
  lemma PolicyRejectsNoAttempts(d: map<string, Value>, n: int)
    requires "max_attempts" in d && d["max_attempts"] == VInt(n) && n < 1
    requires "backoff" !in d && "multiplier" !in d
    ensures PolicyFromDict(VDict(d)) == Err(ValueError)
  {
  }

  // ---- retry wrapper ----

  /** `retry(func, retries)(...)`: calls `call(1)`, `call(2)`, ... until one
      succeeds, at most `retries` times, and re-raises the last failure.
      With no attempt at all there is nothing to re-raise and `raise None`
      is itself a TypeError. */
  method Retry(call: nat -> Result<Value>, retries: int) returns (r: Result<Value>, calls: nat)
    ensures retries <= 0 ==> r == Err(TypeError) && calls == 0
    ensures retries > 0 ==> 1 <= calls <= retries && r == call(calls)
    ensures forall j :: 1 <= j < calls ==> call(j).Err?
    ensures retries > 0 && r.Err? ==> calls == retries
  {
    var last: Option<Error> := None;
    calls := 0;
    var i := 0;
    while i < retries
      invariant 0 <= i && (retries > 0 ==> i <= retries) && (retries <= 0 ==> i == 0)
      invariant calls == i
      invariant forall j :: 1 <= j <= i ==> call(j).Err?
      invariant i == 0 <==> last.None?
      invariant i > 0 ==> Err(last.value) == call(i)
    {
      calls := calls + 1;
      var out := call(calls);
      if out.Ok? {
        return out, calls;
      }
      last := Some(out.error);
      i := i + 1;
    }
    if last.None? {
      return Err(TypeError), calls;
    }
    r := Err(last.value);
  }

  // ---- redaction ----

  /** `redact(data, fields, replacement)`: a copy in which every listed field
      that is present and not None holds the replacement. */
  method Redact(data: map<string, Value>, fields: seq<string>, replacement: string) returns (out: map<string, Value>)
    ensures out.Keys == data.Keys
    ensures forall k :: k in data && k in fields && data[k] != VNone ==> out[k] == VStr(replacement)
    ensures forall k :: k in data && (k !in fields || data[k] == VNone) ==> out[k] == data[k]
  {
    out := data;
    for i := 0 to |fields|
      invariant out.Keys == data.Keys
      invariant forall k :: k in data && k in fields[..i] && data[k] != VNone ==> out[k] == VStr(replacement)
      invariant forall k :: k in data && (k !in fields[..i] || data[k] == VNone) ==> out[k] == data[k]
    {
      var f := fields[i];
      if f in out && out[f] != VNone {
        out := out[f := VStr(replacement)];
      }
      assert fields[..i + 1] == fields[..i] + [f];
    }
    assert fields[..|fields|] == fields;
  }

  // ---- metrics ----

  function CounterValue(counters: map<string, int>, name: string): int {
    if name in counters then counters[name] else 0
  }

  function Sum(xs: seq<real>): real {
    if xs == [] then 0.0 else Sum(xs[..|xs| - 1]) + xs[|xs| - 1]
  }

  /** One exposition line per counter, in increasing name order. */
  function CounterLines(counters: map<string, int>): (lines: seq<string>)
    ensures |lines| == |counters|
  {
    NamedCounterLines(Text.SortedStrings(counters.Keys), counters)
  }

  function NamedCounterLines(names: seq<string>, counters: map<string, int>): (lines: seq<string>)
    requires forall i :: 0 <= i < |names| ==> names[i] in counters
    ensures |lines| == |names|
    ensures forall i :: 0 <= i < |names| ==> lines[i] == names[i] + " " + Text.IntToString(counters[names[i]])
  {
    if names == [] then []
    else
      var last := names[|names| - 1];
      NamedCounterLines(names[..|names| - 1], counters) + [last + " " + Text.IntToString(counters[last])]
  }

  /** A count line and an average line per timer with samples, in
      increasing name order; the average is printed by `formatAvg`. */
  function TimingLines(names: seq<string>, timings: map<string, seq<real>>, formatAvg: real -> string): seq<string>
    requires forall i :: 0 <= i < |names| ==> names[i] in timings
  {
    if names == [] then []
    else
      var last := names[|names| - 1];
      TimingLines(names[..|names| - 1], timings, formatAvg) + TimerLines(last, timings[last], formatAvg)
  }

  /** The count and average lines of one timer; none for a timer without samples. */
  function TimerLines(name: string, vals: seq<real>, formatAvg: real -> string): (lines: seq<string>)
    ensures vals == [] <==> lines == []
  {
    if vals == [] then []
    else [name + "_count " + Text.IntToString(|vals|), name + "_avg " + formatAvg(Sum(vals) / (|vals| as real))]
  }

  function ExportLines(counters: map<string, int>, timings: map<string, seq<real>>, formatAvg: real -> string): seq<string> {
    CounterLines(counters) + TimingLines(Text.SortedStrings(timings.Keys), timings, formatAvg)
  }

  class MetricsCollector {
    var counters: map<string, int>
    var timings: map<string, seq<real>>

    constructor ()
      ensures counters == map[] && timings == map[]
    {
      counters := map[];
      timings := map[];
    }

    method Inc(name: string, amount: int)
      modifies this
      ensures counters == old(counters)[name := CounterValue(old(counters), name) + amount]
      ensures timings == old(timings)
    {
      counters := counters[name := CounterValue(counters, name) + amount];
    }

    method Timing(name: string, seconds: real)
      modifies this
      ensures timings == old(timings)[name := (if name in old(timings) then old(timings)[name] else []) + [seconds]]
      ensures counters == old(counters)
    {
      var vals := if name in timings then timings[name] else [];
      timings := timings[name := vals + [seconds]];
    }

    /** `export_prometheus()`: counter lines, then timer lines, joined by newlines. */
    method ExportPrometheus(formatAvg: real -> string) returns (text: string)
      ensures text == Text.Join("\n", ExportLines(counters, timings, formatAvg))
    {
      var lines := CounterSection();
      var tlines := TimingSection(formatAvg);
      text := Text.Join("\n", lines + tlines);
    }

    method CounterSection() returns (lines: seq<string>)
      ensures lines == CounterLines(counters)
    {
      lines := CounterLinesOf(Text.SortedStrings(counters.Keys), counters);
    }

    method TimingSection(formatAvg: real -> string) returns (lines: seq<string>)
      ensures lines == TimingLines(Text.SortedStrings(timings.Keys), timings, formatAvg)
    {
      lines := TimingLinesOf(Text.SortedStrings(timings.Keys), timings, formatAvg);
    }
  }

  /** The loop of `export_prometheus` over the counters, in name order. */
  method CounterLinesOf(names: seq<string>, counters: map<string, int>) returns (lines: seq<string>)
    requires forall i :: 0 <= i < |names| ==> names[i] in counters
    ensures lines == NamedCounterLines(names, counters)
  {
    lines := [];
    for i := 0 to |names|
      invariant lines == NamedCounterLines(names[..i], counters)
    {
      lines := lines + [names[i] + " " + Text.IntToString(counters[names[i]])];
      assert names[..i + 1][..i] == names[..i];
    }
    assert names[..|names|] == names;
  }

  /** The loop of `export_prometheus` over the timers, in name order. */
  method TimingLinesOf(names: seq<string>, timings: map<string, seq<real>>, formatAvg: real -> string)
    returns (lines: seq<string>)
    requires forall i :: 0 <= i < |names| ==> names[i] in timings
    ensures lines == TimingLines(names, timings, formatAvg)
  {
    lines := [];
    for i := 0 to |names|
      invariant lines == TimingLines(names[..i], timings, formatAvg)
    {
      var vals := timings[names[i]];
      if vals != [] {
        lines := lines + [names[i] + "_count " + Text.IntToString(|vals|),
                          names[i] + "_avg " + formatAvg(Sum(vals) / (|vals| as real))];
      }
      assert names[..i + 1][..i] == names[..i];
    }
    assert names[..|names|] == names;
  }

  /** After `inc(name, n)` on a fresh collector the export holds the line
      `name n`. */
  lemma ExportShowsCounter(counters: map<string, int>, timings: map<string, seq<real>>, formatAvg: real -> string, name: string)
    requires name in counters
    ensures Text.IsFactor(name + " " + Text.IntToString(counters[name]),
                          Text.Join("\n", ExportLines(counters, timings, formatAvg)))
  {
    var names := Text.SortedStrings(counters.Keys);
    var i :| 0 <= i < |names| && names[i] == name;
    var lines := ExportLines(counters, timings, formatAvg);
    assert lines[i] == CounterLines(counters)[i];
    Text.JoinHasFactor("\n", lines, i);
  }

  // ---- tracing ----

  /** The record `record(trace_id, event, **kwargs)` stores, without the timestamp. */
  function EventRecord(event: string, kwargs: map<string, Value>): map<string, Value> {
    kwargs["event" := VStr(event)]
  }

  class Tracer {
    var store: map<string, seq<map<string, Value>>>

    constructor ()
      ensures store == map[]
    {
      store := map[];
    }

    /** Starts an empty trace under the caller-supplied fresh id. */
    method StartTrace(freshId: string) returns (tid: string)
      modifies this
      ensures tid == freshId
      ensures store == old(store)[tid := []]
    {
      tid := freshId;
      store := store[tid := []];
    }

    /** Appends an event, starting the trace if the id is unknown. */
    method Record(traceId: string, event: string, kwargs: map<string, Value>)
      requires "event" !in kwargs
      modifies this
      ensures store == old(store)[traceId := (if traceId in old(store) then old(store)[traceId] else []) + [EventRecord(event, kwargs)]]
    {
      var lst := if traceId in store then store[traceId] else [];
      store := store[traceId := lst + [EventRecord(event, kwargs)]];
    }

    function GetTrace(traceId: string): (r: Option<seq<map<string, Value>>>)
      reads this
      ensures r.Some? <==> traceId in store
      ensures r.Some? ==> r.value == store[traceId]
    {
      if traceId in store then Some(store[traceId]) else None
    }
  }
}
