/** The dependency graph the schedulers of src/koala/flow.py build from a
    flow's edges (`incoming` counts and `outgoing` lists), the notions of a
    dependency order and of a cycle, and the facts about them that the
    schedulers' proofs share. */
module Graph {

  import opened Values
  import opened FlowData

  type Edge = (string, string)

  // ---- the graph tables ----

  /** `outgoing[f]`: the targets of `f`'s edges, in edge order, repeats kept. */
  function Succs(edges: seq<Edge>, f: string): seq<string> {
    if edges == [] then []
    else
      var last := edges[|edges| - 1];
      Succs(edges[..|edges| - 1], f) + (if last.0 == f then [last.1] else [])
  }

  /** The number of edges into `t` whose source is not in `done`: the value
      of `incoming[t]` once the steps in `done` have finished. */
  function PendingIn(edges: seq<Edge>, t: string, done: set<string>): nat {
    if edges == [] then 0
    else
      var last := edges[|edges| - 1];
      PendingIn(edges[..|edges| - 1], t, done) + (if last.1 == t && last.0 !in done then 1 else 0)
  }

  /** Finishing `n` removes exactly its edges from the pending counts. */
  lemma {:induction false} PendingInSplit(edges: seq<Edge>, t: string, done: set<string>, n: string)
    requires n !in done
    ensures PendingIn(edges, t, done) == PendingIn(edges, t, done + {n}) + multiset(Succs(edges, n))[t]
  {
    if edges != [] {
      PendingInSplit(edges[..|edges| - 1], t, done, n);
    }
  }

  lemma {:induction false} PendingInMonotone(edges: seq<Edge>, t: string, d1: set<string>, d2: set<string>)
    requires d1 <= d2
    ensures PendingIn(edges, t, d2) <= PendingIn(edges, t, d1)
  {
    if edges != [] {
      PendingInMonotone(edges[..|edges| - 1], t, d1, d2);
    }
  }

  /** No pending edge into `t` exactly when every source of an edge into `t` is done. */
  lemma {:induction false} PendingInZero(edges: seq<Edge>, t: string, done: set<string>)
    ensures PendingIn(edges, t, done) == 0 <==>
      forall k :: 0 <= k < |edges| && edges[k].1 == t ==> edges[k].0 in done
  {
    if edges != [] {
      var prefix := edges[..|edges| - 1];
      PendingInZero(prefix, t, done);
      assert forall k :: 0 <= k < |prefix| ==> prefix[k] == edges[k];
    }
  }

  /** Before anything is done the pending count is the in-degree. */
  lemma PendingInPositive(edges: seq<Edge>, t: string, done: set<string>)
    requires PendingIn(edges, t, done) > 0
    ensures exists k :: 0 <= k < |edges| && edges[k].1 == t && edges[k].0 !in done
  {
    PendingInZero(edges, t, done);
  }

  /** The first endpoint the table building stumbles on: `outgoing[f]` is
      looked up before `incoming[t]`. */
  function FirstBadEndpoint(edges: seq<Edge>, nodes: set<string>): (r: Option<string>)
    ensures r.Some? ==> r.value !in nodes
  {
    if edges == [] then None
    else if edges[0].0 !in nodes then Some(edges[0].0)
    else if edges[0].1 !in nodes then Some(edges[0].1)
    else FirstBadEndpoint(edges[1..], nodes)
  }

  /** The table building succeeds exactly when every endpoint is a step. */
  lemma {:induction false} FirstBadNone(edges: seq<Edge>, nodes: set<string>)
    ensures FirstBadEndpoint(edges, nodes).None? <==>
      forall k :: 0 <= k < |edges| ==> edges[k].0 in nodes && edges[k].1 in nodes
  {
    if edges != [] {
      FirstBadNone(edges[1..], nodes);
      assert forall k :: 1 <= k < |edges| ==> edges[k] == edges[1..][k - 1];
    }
  }

  /** A well-formed flow never makes the table building raise KeyError. */
  lemma WellFormedHasNoBadEndpoint(d: DagData)
    requires WellFormed(d)
    ensures FirstBadEndpoint(d.edges, IdSet(d.steps)).None?
  {
    FirstBadNone(d.edges, IdSet(d.steps));
  }

  datatype Tables = Tables(
    nodes: map<string, Step>,
    keyOrder: seq<string>,
    incoming: map<string, int>,
    outgoing: map<string, seq<string>>)

  /** The tables the schedulers build for a flow with these steps and edges. */
  ghost predicate TablesFor(t: Tables, steps: seq<Step>, edges: seq<Edge>) {
    t.nodes == NodesOf(steps) &&
    t.keyOrder == KeyOrder(StepIds(steps)) &&
    t.incoming.Keys == IdSet(steps) && t.outgoing.Keys == IdSet(steps) &&
    (forall x :: x in t.incoming ==> t.incoming[x] == PendingIn(edges, x, {})) &&
    (forall x :: x in t.outgoing ==> t.outgoing[x] == Succs(edges, x))
  }

  lemma FirstBadStep(edges: seq<Edge>, i: nat, nodes: set<string>)
    requires i < |edges|
    ensures FirstBadEndpoint(edges[i..], nodes) ==
      if edges[i].0 !in nodes then Some(edges[i].0)
      else if edges[i].1 !in nodes then Some(edges[i].1)
      else FirstBadEndpoint(edges[i + 1..], nodes)
  {
    assert edges[i..][0] == edges[i];
    assert edges[i..][1..] == edges[i + 1..];
  }

  /** Edges whose endpoints are all steps do not decide the first bad one. */
  lemma {:induction false} FirstBadAfterGood(edges: seq<Edge>, i: nat, nodes: set<string>)
    requires i <= |edges|
    requires forall k :: 0 <= k < i ==> edges[k].0 in nodes && edges[k].1 in nodes
    ensures FirstBadEndpoint(edges, nodes) == FirstBadEndpoint(edges[i..], nodes)
    decreases i
  {
    if i > 0 {
      FirstBadAfterGood(edges[1..], i - 1, nodes);
      assert edges[1..][i - 1..] == edges[i..];
    }
  }

  /** The tables after the first `i` edges have been entered. */
  ghost predicate TablesUpTo(incoming: map<string, int>, outgoing: map<string, seq<string>>,
                             ids: set<string>, edges: seq<Edge>, i: nat) {
    i <= |edges| && incoming.Keys == ids && outgoing.Keys == ids &&
    (forall x :: x in incoming ==> incoming[x] == PendingIn(edges[..i], x, {})) &&
    (forall x :: x in outgoing ==> outgoing[x] == Succs(edges[..i], x))
  }

  /** The two tables once the edges `es` have been entered. */
  function InTable(ids: set<string>, es: seq<Edge>): map<string, int> {
    map x | x in ids :: PendingIn(es, x, {})
  }

  function OutTable(ids: set<string>, es: seq<Edge>): map<string, seq<string>> {
    map x | x in ids :: Succs(es, x)
  }

  lemma TablesAreTables(ids: set<string>, edges: seq<Edge>, i: nat)
    requires i <= |edges|
    ensures TablesUpTo(InTable(ids, edges[..i]), OutTable(ids, edges[..i]), ids, edges, i)
  {
  }

  lemma TablesStart(ids: set<string>, edges: seq<Edge>)
    ensures InTable(ids, edges[..0]) == map x | x in ids :: 0
    ensures OutTable(ids, edges[..0]) == map x | x in ids :: []
  {
    assert edges[..0] == [];
  }

  /** Entering edge `i` adds one to its target's count and its target to
      its source's list. */
  lemma TablesExtend(ids: set<string>, edges: seq<Edge>, i: nat)
    requires i < |edges| && edges[i].0 in ids && edges[i].1 in ids
    ensures var incoming := InTable(ids, edges[..i]);
      InTable(ids, edges[..i + 1]) == incoming[edges[i].1 := incoming[edges[i].1] + 1]
    ensures var outgoing := OutTable(ids, edges[..i]);
      OutTable(ids, edges[..i + 1]) == outgoing[edges[i].0 := outgoing[edges[i].0] + [edges[i].1]]
  {
    var pre, post := edges[..i], edges[..i + 1];
    assert post[..i] == pre && post[i] == edges[i];
    var incoming, incoming' := InTable(ids, pre), InTable(ids, post);
    var outgoing, outgoing' := OutTable(ids, pre), OutTable(ids, post);
    forall x | x in ids
      ensures incoming'[x] == incoming[edges[i].1 := incoming[edges[i].1] + 1][x]
      ensures outgoing'[x] == outgoing[edges[i].0 := outgoing[edges[i].0] + [edges[i].1]][x]
    {
      assert incoming'[x] == PendingIn(post, x, {});
      assert outgoing'[x] == Succs(post, x);
    }
  }

  /** The `for f, t in flow.edges` loop over tables keyed by `ids`. */
  method CountEdges(ids: set<string>, edges: seq<Edge>) returns (r: Result<(map<string, int>, map<string, seq<string>>)>)
    ensures FirstBadEndpoint(edges, ids).Some? ==> r == Err(KeyError(FirstBadEndpoint(edges, ids).value))
    ensures FirstBadEndpoint(edges, ids).None? ==> r.Ok? && TablesUpTo(r.value.0, r.value.1, ids, edges, |edges|)
  {
    var incoming: map<string, int> := map x | x in ids :: 0;
    var outgoing: map<string, seq<string>> := map x | x in ids :: [];
    var i := 0;
    TablesStart(ids, edges);
    while i < |edges|
      invariant 0 <= i <= |edges|
      invariant forall k :: 0 <= k < i ==> edges[k].0 in ids && edges[k].1 in ids
      invariant incoming == InTable(ids, edges[..i]) && outgoing == OutTable(ids, edges[..i])
    {
      var entered := EnterEdge(incoming, outgoing, ids, edges, i);
      if entered.Err? {
        FirstBadAfterGood(edges, i, ids);
        FirstBadStep(edges, i, ids);
        return Err(entered.error);
      }
      incoming, outgoing := entered.value.0, entered.value.1;
      i := i + 1;
    }
    FirstBadNone(edges, ids);
    TablesAreTables(ids, edges, |edges|);
    return Ok((incoming, outgoing));
  }

  /** One pass of that loop: `outgoing[f].append(t)` then `incoming[t] += 1`,
      each raising KeyError for an endpoint that is not a step. */
  method EnterEdge(incoming: map<string, int>, outgoing: map<string, seq<string>>,
                   ids: set<string>, edges: seq<Edge>, i: nat)
    returns (r: Result<(map<string, int>, map<string, seq<string>>)>)
    requires i < |edges| && incoming == InTable(ids, edges[..i]) && outgoing == OutTable(ids, edges[..i])
    ensures edges[i].0 !in ids ==> r == Err(KeyError(edges[i].0))
    ensures edges[i].0 in ids && edges[i].1 !in ids ==> r == Err(KeyError(edges[i].1))
    ensures edges[i].0 in ids && edges[i].1 in ids ==>
      r == Ok((InTable(ids, edges[..i + 1]), OutTable(ids, edges[..i + 1])))
  {
    var e := edges[i];
    if e.0 !in outgoing {
      return Err(KeyError(e.0));
    }
    var out := outgoing[e.0 := outgoing[e.0] + [e.1]];
    if e.1 !in incoming {
      return Err(KeyError(e.1));
    }
    TablesExtend(ids, edges, i);
    return Ok((incoming[e.1 := incoming[e.1] + 1], out));
  }

  /** `nodes`, `incoming` and `outgoing` as every scheduler builds them; an
      edge with an unknown endpoint raises KeyError. */
  method BuildTables(steps: seq<Step>, edges: seq<Edge>) returns (r: Result<Tables>)
    ensures FirstBadEndpoint(edges, IdSet(steps)).Some? ==>
      r == Err(KeyError(FirstBadEndpoint(edges, IdSet(steps)).value))
    ensures FirstBadEndpoint(edges, IdSet(steps)).None? ==> r.Ok? && TablesFor(r.value, steps, edges)
  {
    var nodes := NodesOf(steps);
    var counts := CountEdges(IdSet(steps), edges);
    if counts.Err? {
      return Err(counts.error);
    }
    var (incoming, outgoing) := counts.value;
    assert edges[..|edges|] == edges;
    return Ok(Tables(nodes, KeyOrder(StepIds(steps)), incoming, outgoing));
  }

  /** `[nid for nid, deg in incoming.items() if deg == 0]`. */
  function Ready(keyOrder: seq<string>, incoming: map<string, int>): (ready: seq<string>)
    ensures forall x :: x in ready <==> x in keyOrder && x in incoming && incoming[x] == 0
  {
    if keyOrder == [] then []
    else
      var x := keyOrder[|keyOrder| - 1];
      Ready(keyOrder[..|keyOrder| - 1], incoming) + (if x in incoming && incoming[x] == 0 then [x] else [])
  }

  /** With every count zero, the initial queue is the whole key order. */
  lemma {:induction false} ReadyOfZeros(keyOrder: seq<string>, incoming: map<string, int>)
    requires forall x :: x in keyOrder ==> x in incoming && incoming[x] == 0
    ensures Ready(keyOrder, incoming) == keyOrder
  {
    if keyOrder != [] {
      var p := keyOrder[..|keyOrder| - 1];
      var x := keyOrder[|keyOrder| - 1];
      assert keyOrder == p + [x];
      ReadyOfZeros(p, incoming);
    }
  }

  // ---- sequences without repeats ----

  lemma ReadyDistinct(keyOrder: seq<string>, incoming: map<string, int>)
    requires Distinct(keyOrder)
    ensures Distinct(Ready(keyOrder, incoming))
  {
    if keyOrder != [] {
      var p := keyOrder[..|keyOrder| - 1];
      assert Distinct(p);
      ReadyDistinct(p, incoming);
    }
  }

  function SetOf(s: seq<string>): set<string> {
    set x | x in s
  }

  lemma {:induction false} DistinctSetCard(s: seq<string>)
    requires Distinct(s)
    ensures |SetOf(s)| == |s|
  {
    if s != [] {
      var p := s[..|s| - 1];
      assert Distinct(p);
      DistinctSetCard(p);
      assert SetOf(s) == SetOf(p) + {s[|s| - 1]};
      assert s[|s| - 1] !in SetOf(p);
    }
  }

  lemma SubsetCard(a: set<string>, b: set<string>)
    requires a <= b
    ensures |a| <= |b|
    ensures |a| == |b| ==> a == b
    decreases |b|
  {
    if b != {} {
      var x :| x in b;
      SubsetCard(a - {x}, b - {x});
      assert |b - {x}| == |b| - 1;
      if x !in a {
        assert a - {x} == a;
      } else {
        assert |a - {x}| == |a| - 1;
        if |a| == |b| {
          assert a - {x} == b - {x};
          assert a == (a - {x}) + {x} && b == (b - {x}) + {x};
        }
      }
    }
  }

  /** A sequence without repeats drawn from `nodes` is no longer than
      `nodes`, and covers it when it is as long. */
  lemma DistinctWithin(s: seq<string>, nodes: set<string>)
    requires Distinct(s) && forall x :: x in s ==> x in nodes
    ensures |s| <= |nodes|
    ensures |s| == |nodes| ==> forall x :: x in nodes ==> x in s
  {
    DistinctSetCard(s);
    SubsetCard(SetOf(s), nodes);
  }

  lemma UniqueIdsAppend(p: seq<Step>, last: Step)
    ensures UniqueIds(p + [last]) <==> UniqueIds(p) && !HasStep(p, last.id)
  {
    var steps := p + [last];
    if UniqueIds(steps) {
      assert forall i, j :: 0 <= i < j < |p| ==> p[i] == steps[i] && p[j] == steps[j];
      forall s | s in p ensures s.id != last.id {
        var k :| 0 <= k < |p| && p[k] == s;
        assert steps[k] == s && steps[|p|] == last;
      }
    }
    if UniqueIds(p) && !HasStep(p, last.id) {
      forall i, j | 0 <= i < j < |steps| ensures steps[i].id != steps[j].id {
        if j == |p| {
          assert steps[i] in p;
        } else {
          assert steps[i] == p[i] && steps[j] == p[j];
        }
      }
    }
  }

  /** `len(nodes) <= len(steps)`, with equality exactly for unique ids. */
  lemma {:induction false} IdSetCard(steps: seq<Step>)
    ensures |IdSet(steps)| <= |steps|
    ensures |IdSet(steps)| == |steps| <==> UniqueIds(steps)
  {
    if steps != [] {
      var p := steps[..|steps| - 1];
      var last := steps[|steps| - 1];
      IdSetCard(p);
      assert steps == p + [last];
      UniqueIdsAppend(p, last);
      assert IdSet(steps) == IdSet(p) + {last.id};
      if HasStep(p, last.id) {
        assert IdSet(steps) == IdSet(p);
      } else {
        assert last.id !in IdSet(p);
      }
    }
  }

  // ---- dependency orders and cycles ----

  /** Every source of an edge into `x` is in `before`. */
  ghost predicate PredsIn(x: string, before: seq<string>, edges: seq<Edge>) {
    forall k :: 0 <= k < |edges| && edges[k].1 == x ==> edges[k].0 in before
  }

  /** Every step in `order` comes after the sources of all its incoming edges. */
  ghost predicate PredsBefore(order: seq<string>, edges: seq<Edge>) {
    forall i :: 0 <= i < |order| ==> PredsIn(order[i], order[..i], edges)
  }

  /** A dependency (topological) order of `nodes`. */
  ghost predicate IsTopoOrder(order: seq<string>, nodes: set<string>, edges: seq<Edge>) {
    Distinct(order) && (forall x :: x in order <==> x in nodes) && PredsBefore(order, edges)
  }

  ghost predicate HasTopoOrder(nodes: set<string>, edges: seq<Edge>) {
    exists order :: IsTopoOrder(order, nodes, edges)
  }

  /** A non-empty set of steps each of which has an incoming edge from within
      the set: a cycle, or steps hanging off one. */
  ghost predicate ClosedCore(core: set<string>, edges: seq<Edge>) {
    core != {} && forall x :: x in core ==> HasPredIn(x, core, edges)
  }

  ghost predicate HasPredIn(x: string, core: set<string>, edges: seq<Edge>) {
    exists k :: 0 <= k < |edges| && edges[k].1 == x && edges[k].0 in core
  }

  lemma {:induction false} CoreAvoidsPrefix(order: seq<string>, edges: seq<Edge>, core: set<string>, i: nat)
    requires PredsBefore(order, edges) && ClosedCore(core, edges)
    requires i < |order|
    ensures order[i] !in core
    decreases i
  {
    if order[i] in core {
      assert HasPredIn(order[i], core, edges);
      var k :| 0 <= k < |edges| && edges[k].1 == order[i] && edges[k].0 in core;
      assert PredsIn(order[i], order[..i], edges);
      assert edges[k].0 in order[..i];
      var j :| 0 <= j < i && order[j] == edges[k].0;
      CoreAvoidsPrefix(order, edges, core, j);
    }
  }

  /** A closed core inside the steps rules out every dependency order. */
  lemma ClosedCoreBlocksOrder(core: set<string>, nodes: set<string>, edges: seq<Edge>)
    requires ClosedCore(core, edges) && core <= nodes
    ensures !HasTopoOrder(nodes, edges)
  {
    if HasTopoOrder(nodes, edges) {
      var order :| IsTopoOrder(order, nodes, edges);
      var x :| x in core;
      assert x in order;
      var i :| 0 <= i < |order| && order[i] == x;
      CoreAvoidsPrefix(order, edges, core, i);
    }
  }

  /** A self-loop is a cycle: no flow with one can be ordered. */
  lemma SelfLoopBlocksOrder(nodes: set<string>, edges: seq<Edge>, k: nat)
    requires k < |edges| && edges[k].0 == edges[k].1 && edges[k].0 in nodes
    ensures !HasTopoOrder(nodes, edges)
  {
    var core := {edges[k].0};
    assert forall x :: x in core ==> HasPredIn(x, core, edges);
    ClosedCoreBlocksOrder(core, nodes, edges);
  }

  // ---- releasing the successors of a finished step ----

  /** `for m in outgoing[n]: incoming[m] -= 1; if incoming[m] == 0:
      queue.append(m)`, one successor after the other: the new counts, and
      the successors that reached zero, in the order they did. */
  function ReleaseSpec(incoming: map<string, int>, succ: seq<string>): (map<string, int>, seq<string>) {
    if succ == [] then (incoming, [])
    else
      var (after, released) := ReleaseSpec(incoming, succ[..|succ| - 1]);
      var m := succ[|succ| - 1];
      if m !in after then (after, released)
      else
        var after' := after[m := after[m] - 1];
        (after', if after'[m] == 0 then released + [m] else released)
  }

  lemma ReleaseSpecSnoc(incoming: map<string, int>, succ: seq<string>, j: nat)
    requires j < |succ| && succ[j] in ReleaseSpec(incoming, succ[..j]).0
    ensures var (after, released) := ReleaseSpec(incoming, succ[..j]);
      var after' := after[succ[j] := after[succ[j]] - 1];
      ReleaseSpec(incoming, succ[..j + 1]) ==
        (after', if after'[succ[j]] == 0 then released + [succ[j]] else released)
  {
    assert succ[..j + 1][..j] == succ[..j];
  }

  /** What the release loop promises when no count would drop below zero:
      each successor's count drops by its number of edges from the step,
      and exactly the successors now at zero come out, each once. */
  lemma {:induction false} ReleaseSpecCounts(incoming: map<string, int>, succ: seq<string>)
    requires forall x :: x in succ ==> x in incoming && incoming[x] >= multiset(succ)[x]
    ensures var (after, released) := ReleaseSpec(incoming, succ);
      after.Keys == incoming.Keys &&
      (forall x :: x in incoming ==> after[x] == incoming[x] - multiset(succ)[x]) &&
      Distinct(released) &&
      (forall x :: x in released <==> x in succ && after[x] == 0)
  {
    if succ != [] {
      var p := succ[..|succ| - 1];
      var m := succ[|succ| - 1];
      assert succ == p + [m];
      assert multiset(succ) == multiset(p) + multiset{m};
      forall x | x in p ensures x in incoming && incoming[x] >= multiset(p)[x] {
        assert x in succ;
      }
      ReleaseSpecCounts(incoming, p);
      var (after, released) := ReleaseSpec(incoming, p);
      assert after[m] >= 1;
      assert m !in released;
    }
  }

  /** The release loop, proved against `ReleaseSpec`. */
  method Release(incoming: map<string, int>, succ: seq<string>) returns (after: map<string, int>, released: seq<string>)
    requires forall x :: x in succ ==> x in incoming && incoming[x] >= multiset(succ)[x]
    ensures (after, released) == ReleaseSpec(incoming, succ)
    ensures after.Keys == incoming.Keys
    ensures forall x :: x in incoming ==> after[x] == incoming[x] - multiset(succ)[x]
    ensures Distinct(released)
    ensures forall x :: x in released <==> x in succ && after[x] == 0
  {
    after := incoming;
    released := [];
    for j := 0 to |succ|
      invariant after.Keys == incoming.Keys
      invariant (after, released) == ReleaseSpec(incoming, succ[..j])
    {
      var m := succ[j];
      ReleaseSpecSnoc(incoming, succ, j);
      after := after[m := after[m] - 1];
      if after[m] == 0 {
        released := released + [m];
      }
    }
    assert succ[..|succ|] == succ;
    ReleaseSpecCounts(incoming, succ);
  }
}
