/** `DAGFlow._toposort` (src/koala/flow.py): Kahn's algorithm over the
    tables of module Graph. It raises KeyError for an edge with an unknown
    endpoint, and FlowError when fewer steps come out than went in, which
    happens exactly when the edges have a cycle or two steps share an id. */
module Toposort {

  import opened Values
  import opened FlowData
  import opened Graph

  /** Every edge joins two known steps. */
  ghost predicate EndpointsIn(edges: seq<Edge>, nodes: set<string>) {
    forall k :: 0 <= k < |edges| ==> edges[k].0 in nodes && edges[k].1 in nodes
  }

  lemma SuccsEdge(edges: seq<Edge>, f: string, x: string)
    requires x in Succs(edges, f)
    ensures exists k :: 0 <= k < |edges| && edges[k].0 == f && edges[k].1 == x
  {
    var p := edges[..|edges| - 1];
    if x in Succs(p, f) {
      SuccsEdge(p, f, x);
      var k :| 0 <= k < |p| && p[k].0 == f && p[k].1 == x;
      assert edges[k] == p[k];
    }
  }

  lemma DistinctConcat(a: seq<string>, b: seq<string>)
    requires Distinct(a) && Distinct(b)
    requires forall x :: x in b ==> x !in a
    ensures Distinct(a + b)
  {
    var c := a + b;
    forall i, j | 0 <= i < j < |c| ensures c[i] != c[j] {
      if j >= |a| && i < |a| {
        assert c[j] == b[j - |a|] && c[i] == a[i];
        assert c[j] in b;
      } else if i >= |a| {
        assert c[j] == b[j - |a|] && c[i] == b[i - |a|];
      } else {
        assert c[j] == a[j] && c[i] == a[i];
      }
    }
  }

  /** The loop invariant of Kahn's algorithm, with `done` the steps output
      so far and `queue` the steps whose predecessors are all done. */
  ghost predicate KahnInv(nodes: set<string>, edges: seq<Edge>, incoming: map<string, int>,
                          order: seq<string>, queue: seq<string>) {
    incoming.Keys == nodes &&
    Distinct(order + queue) &&
    (forall x :: x in order + queue ==> x in nodes) &&
    (forall x :: x in incoming ==> incoming[x] == PendingIn(edges, x, SetOf(order))) &&
    (forall x :: x in nodes && x !in order && x !in queue ==> incoming[x] > 0) &&
    (forall x :: x in order + queue ==> PendingIn(edges, x, SetOf(order)) == 0) &&
    PredsBefore(order, edges)
  }

  lemma KahnStart(nodes: set<string>, edges: seq<Edge>, incoming: map<string, int>, keyOrder: seq<string>)
    requires incoming.Keys == nodes
    requires forall x :: x in incoming ==> incoming[x] == PendingIn(edges, x, {})
    requires Distinct(keyOrder) && forall x :: x in keyOrder <==> x in nodes
    ensures KahnInv(nodes, edges, incoming, [], Ready(keyOrder, incoming))
  {
    ReadyDistinct(keyOrder, incoming);
    var queue := Ready(keyOrder, incoming);
    assert [] + queue == queue;
    assert SetOf([]) == {};
  }

  lemma KahnBound(nodes: set<string>, edges: seq<Edge>, incoming: map<string, int>,
                  order: seq<string>, queue: seq<string>)
    requires KahnInv(nodes, edges, incoming, order, queue)
    ensures |order| + |queue| <= |nodes|
  {
    DistinctWithin(order + queue, nodes);
  }

  /** The step taken from the queue has not been output yet. */
  lemma HeadNotDone(order: seq<string>, queue: seq<string>)
    requires Distinct(order + queue) && queue != []
    ensures queue[0] !in SetOf(order)
  {
    forall i | 0 <= i < |order| ensures order[i] != queue[0] {
      assert (order + queue)[i] == order[i] && (order + queue)[|order|] == queue[0];
    }
  }

  /** The successors of the step taken from the queue are all waiting, each
      with at least as many pending edges as edges from that step. */
  lemma KahnReleasable(nodes: set<string>, edges: seq<Edge>, incoming: map<string, int>,
                       order: seq<string>, queue: seq<string>)
    requires KahnInv(nodes, edges, incoming, order, queue) && EndpointsIn(edges, nodes)
    requires queue != []
    ensures forall x :: x in Succs(edges, queue[0]) ==>
      x in incoming && incoming[x] >= multiset(Succs(edges, queue[0]))[x] && x !in order + queue
  {
    var n := queue[0];
    var succ := Succs(edges, n);
    var done := SetOf(order);
    HeadNotDone(order, queue);
    forall x | x in succ
      ensures x in incoming && incoming[x] >= multiset(succ)[x] && x !in order + queue
    {
      SuccsEdge(edges, n, x);
      PendingInSplit(edges, x, done, n);
    }
  }

  lemma PredsBeforeSnoc(order: seq<string>, n: string, edges: seq<Edge>)
    requires PredsBefore(order, edges)
    requires PendingIn(edges, n, SetOf(order)) == 0
    ensures PredsBefore(order + [n], edges)
  {
    var o := order + [n];
    PendingInZero(edges, n, SetOf(order));
    forall i | 0 <= i < |o| ensures PredsIn(o[i], o[..i], edges) {
      if i < |order| {
        assert o[..i] == order[..i] && o[i] == order[i];
        assert PredsIn(order[i], order[..i], edges);
      } else {
        assert o[..i] == order;
      }
    }
  }

  /** One round of the `while queue` loop keeps the invariant. */
  lemma KahnStep(nodes: set<string>, edges: seq<Edge>, incoming: map<string, int>,
                 order: seq<string>, queue: seq<string>, after: map<string, int>, released: seq<string>)
    requires KahnInv(nodes, edges, incoming, order, queue) && EndpointsIn(edges, nodes)
    requires queue != []
    requires after.Keys == incoming.Keys
    requires forall x :: x in incoming ==> after[x] == incoming[x] - multiset(Succs(edges, queue[0]))[x]
    requires Distinct(released)
    requires forall x :: x in released <==> x in Succs(edges, queue[0]) && x in after && after[x] == 0
    ensures KahnInv(nodes, edges, after, order + [queue[0]], queue[1..] + released)
  {
    KahnStepCounts(nodes, edges, incoming, order, queue, after, released);
    KahnStepQueue(nodes, edges, incoming, order, queue, after, released);
  }

  /** The counts part of `KahnStep`. */
  lemma KahnStepCounts(nodes: set<string>, edges: seq<Edge>, incoming: map<string, int>,
                 order: seq<string>, queue: seq<string>, after: map<string, int>, released: seq<string>)
    requires KahnInv(nodes, edges, incoming, order, queue) && EndpointsIn(edges, nodes)
    requires queue != []
    requires after.Keys == incoming.Keys
    requires forall x :: x in incoming ==> after[x] == incoming[x] - multiset(Succs(edges, queue[0]))[x]
    requires Distinct(released)
    requires forall x :: x in released <==> x in Succs(edges, queue[0]) && x in after && after[x] == 0
    ensures forall x :: x in after ==> after[x] == PendingIn(edges, x, SetOf(order + [queue[0]]))
    ensures forall x :: x in nodes && x !in order + [queue[0]] && x !in queue[1..] + released ==> after[x] > 0
  {
    var n := queue[0];
    var succ := Succs(edges, n);
    var done := SetOf(order);
    var order' := order + [n];
    var queue' := queue[1..] + released;
    assert SetOf(order') == done + {n};
    HeadNotDone(order, queue);
    KahnReleasable(nodes, edges, incoming, order, queue);
    forall x | x in incoming ensures after[x] == PendingIn(edges, x, SetOf(order')) {
      PendingInSplit(edges, x, done, n);
    }
    forall x | x in nodes && x !in order' && x !in queue' ensures after[x] > 0 {
      if x !in succ {
        assert x != n && x !in queue;
      }
    }
  }

  /** The order-and-queue part of `KahnStep`. */
  lemma KahnStepQueue(nodes: set<string>, edges: seq<Edge>, incoming: map<string, int>,
                 order: seq<string>, queue: seq<string>, after: map<string, int>, released: seq<string>)
    requires KahnInv(nodes, edges, incoming, order, queue) && EndpointsIn(edges, nodes)
    requires queue != []
    requires after.Keys == incoming.Keys
    requires forall x :: x in incoming ==> after[x] == incoming[x] - multiset(Succs(edges, queue[0]))[x]
    requires Distinct(released)
    requires forall x :: x in released <==> x in Succs(edges, queue[0]) && x in after && after[x] == 0
    requires forall x :: x in after ==> after[x] == PendingIn(edges, x, SetOf(order + [queue[0]]))
    ensures Distinct(order + [queue[0]] + (queue[1..] + released))
    ensures forall x :: x in order + [queue[0]] + (queue[1..] + released) ==> x in nodes
    ensures forall x :: x in order + [queue[0]] + (queue[1..] + released) ==>
      PendingIn(edges, x, SetOf(order + [queue[0]])) == 0
    ensures PredsBefore(order + [queue[0]], edges)
  {
    var n := queue[0];
    var succ := Succs(edges, n);
    var done := SetOf(order);
    var order' := order + [n];
    var queue' := queue[1..] + released;
    assert SetOf(order') == done + {n};
    HeadNotDone(order, queue);
    KahnReleasable(nodes, edges, incoming, order, queue);
    assert order' + queue' == (order + queue) + released by {
      assert queue == [n] + queue[1..];
    }
    forall x | x in released ensures x !in order + queue {
      assert x in succ;
    }
    DistinctConcat(order + queue, released);
    forall x | x in order' + queue' ensures x in nodes {
      if x in released {
        SuccsEdge(edges, n, x);
      }
    }
    forall x | x in order' + queue' ensures PendingIn(edges, x, SetOf(order')) == 0 {
      if x in order + queue {
        PendingInMonotone(edges, x, done, SetOf(order'));
      } else {
        assert x in released;
        SuccsEdge(edges, n, x);
      }
    }
    assert n in order + queue;
    PredsBeforeSnoc(order, n, edges);
  }

  /** When the queue runs dry, either every step is out in a dependency
      order or the steps still waiting form a closed core. */
  lemma KahnDone(nodes: set<string>, edges: seq<Edge>, incoming: map<string, int>, order: seq<string>)
    requires KahnInv(nodes, edges, incoming, order, []) && EndpointsIn(edges, nodes)
    ensures |order| <= |nodes|
    ensures |order| == |nodes| ==> IsTopoOrder(order, nodes, edges)
    ensures |order| < |nodes| ==> !HasTopoOrder(nodes, edges)
  {
    assert order + [] == order;
    DistinctWithin(order, nodes);
    if |order| < |nodes| {
      var core := nodes - SetOf(order);
      DistinctSetCard(order);
      if core == {} {
        forall x | x in nodes ensures x in SetOf(order) {
          assert x !in core;
        }
        SubsetCard(nodes, SetOf(order));
      }
      forall x | x in core ensures HasPredIn(x, core, edges) {
        PendingInPositive(edges, x, SetOf(order));
        var k :| 0 <= k < |edges| && edges[k].1 == x && edges[k].0 !in SetOf(order);
        assert edges[k].0 in core;
      }
      ClosedCoreBlocksOrder(core, nodes, edges);
    }
  }

  /** The `while queue` loop as a function: take the queue's head
      (`pop(0)`), output it, release its successors in `outgoing` order and
      append the ones released to the back of the queue. `fuel` is the
      number of rounds left; the loop makes at most one round per step, so
      the number of steps is enough. */
  function KahnFifo(outgoing: map<string, seq<string>>, incoming: map<string, int>,
                    queue: seq<string>, order: seq<string>, fuel: nat): seq<string>
    decreases fuel
  {
    if queue == [] || fuel == 0 || queue[0] !in outgoing then order
    else
      var (after, released) := ReleaseSpec(incoming, outgoing[queue[0]]);
      KahnFifo(outgoing, after, queue[1..] + released, order + [queue[0]], fuel - 1)
  }

  /** With no successors anywhere, the FIFO loop outputs its queue as it is. */
  lemma {:induction false} NoEdgesKeepQueueOrder(outgoing: map<string, seq<string>>, incoming: map<string, int>,
                                                 queue: seq<string>, order: seq<string>, fuel: nat)
    requires forall x :: x in queue ==> x in outgoing && outgoing[x] == []
    requires fuel >= |queue|
    ensures KahnFifo(outgoing, incoming, queue, order, fuel) == order + queue
    decreases |queue|
  {
    if queue == [] {
      assert order + queue == order;
    } else {
      assert ReleaseSpec(incoming, []) == (incoming, []);
      assert queue[1..] + [] == queue[1..];
      NoEdgesKeepQueueOrder(outgoing, incoming, queue[1..], order + [queue[0]], fuel - 1);
      assert order + [queue[0]] + queue[1..] == order + queue;
    }
  }

  /** The order `_toposort` produces for a flow: FIFO Kahn from the steps
      with no incoming edge, in the order of the `nodes` keys. */
  function FifoOrder(steps: seq<Step>, edges: seq<Edge>): seq<string> {
    var ids := IdSet(steps);
    var incoming := InTable(ids, edges);
    KahnFifo(OutTable(ids, edges), incoming, Ready(KeyOrder(StepIds(steps)), incoming), [], |ids|)
  }

  /** One turn of the `while queue` loop, as `KahnFifo` takes it. */
  lemma KahnFifoStep(outgoing: map<string, seq<string>>, incoming: map<string, int>, queue: seq<string>,
                     order: seq<string>, fuel: nat,
                     incoming': map<string, int>, queue': seq<string>, order': seq<string>, fuel': nat)
    requires queue != [] && fuel > 0 && queue[0] in outgoing
    requires var (after, released) := ReleaseSpec(incoming, outgoing[queue[0]]);
      incoming' == after && queue' == queue[1..] + released && order' == order + [queue[0]] && fuel' == fuel - 1
    ensures KahnFifo(outgoing, incoming, queue, order, fuel) == KahnFifo(outgoing, incoming', queue', order', fuel')
  {
  }

  /** The `while queue` loop: the ids in the order they leave the queue. */
  method KahnOrder(nodes: set<string>, edges: seq<Edge>, incoming0: map<string, int>,
                   outgoing: map<string, seq<string>>, keyOrder: seq<string>)
    returns (order: seq<string>)
    requires EndpointsIn(edges, nodes)
    requires incoming0.Keys == nodes && outgoing.Keys == nodes
    requires forall x :: x in incoming0 ==> incoming0[x] == PendingIn(edges, x, {})
    requires forall x :: x in outgoing ==> outgoing[x] == Succs(edges, x)
    requires Distinct(keyOrder) && forall x :: x in keyOrder <==> x in nodes
    ensures Distinct(order) && forall x :: x in order ==> x in nodes
    ensures |order| <= |nodes|
    ensures |order| == |nodes| ==> IsTopoOrder(order, nodes, edges)
    ensures |order| < |nodes| ==> !HasTopoOrder(nodes, edges)
    ensures order == KahnFifo(outgoing, incoming0, Ready(keyOrder, incoming0), [], |nodes|)
  {
    var incoming := incoming0;
    var queue := Ready(keyOrder, incoming);
    order := [];
    ghost var fuel: nat := |nodes|;
    ghost var fifo := KahnFifo(outgoing, incoming, queue, order, fuel);
    KahnStart(nodes, edges, incoming, keyOrder);
    while queue != []
      invariant KahnInv(nodes, edges, incoming, order, queue)
      invariant fuel + |order| == |nodes|
      invariant KahnFifo(outgoing, incoming, queue, order, fuel) == fifo
      decreases fuel
    {
      KahnBound(nodes, edges, incoming, order, queue);
      var n := queue[0];
      KahnReleasable(nodes, edges, incoming, order, queue);
      var after, released := Release(incoming, outgoing[n]);
      KahnStep(nodes, edges, incoming, order, queue, after, released);
      ghost var (incoming', queue', order', fuel') := (incoming, queue, order, fuel);
      order := order + [n];
      queue := queue[1..] + released;
      incoming := after;
      fuel := fuel - 1;
      KahnFifoStep(outgoing, incoming', queue', order', fuel', incoming, queue, order, fuel);
    }
    KahnDone(nodes, edges, incoming, order);
    assert order + [] == order;
  }

  /** `nodes[n]` for every id of the order. */
  function StepsOf(nodes: map<string, Step>, order: seq<string>): (r: seq<Step>)
    requires forall x :: x in order ==> x in nodes
    ensures |r| == |order|
    ensures forall i :: 0 <= i < |order| ==> r[i] == nodes[order[i]]
  {
    seq(|order|, i requires 0 <= i < |order| => nodes[order[i]])
  }

  /** The tables built for a flow whose endpoints are all steps meet the
      needs of the `while queue` loop. */
  lemma TablesReady(t: Tables, steps: seq<Step>, edges: seq<Edge>)
    requires TablesFor(t, steps, edges) && FirstBadEndpoint(edges, IdSet(steps)).None?
    ensures EndpointsIn(edges, IdSet(steps))
    ensures Distinct(t.keyOrder) && forall x :: x in t.keyOrder <==> x in IdSet(steps)
  {
    FirstBadNone(edges, IdSet(steps));
    forall x ensures x in t.keyOrder <==> x in IdSet(steps) {
      if x in IdSet(steps) {
        var s :| s in steps && s.id == x;
        var i :| 0 <= i < |steps| && steps[i] == s;
        assert StepIds(steps)[i] == x;
      }
      if x in StepIds(steps) {
        var i :| 0 <= i < |steps| && StepIds(steps)[i] == x;
        assert steps[i] in steps;
      }
    }
  }

  /** The tables built for a flow are the tables `InTable` and `OutTable`
      describe. */
  lemma IncomingIsInTable(t: Tables, steps: seq<Step>, edges: seq<Edge>)
    requires TablesFor(t, steps, edges)
    ensures t.incoming == InTable(IdSet(steps), edges)
  {
    var table := InTable(IdSet(steps), edges);
    assert t.incoming.Keys == table.Keys;
    forall x | x in t.incoming ensures t.incoming[x] == table[x] {
    }
  }

  lemma OutgoingIsOutTable(t: Tables, steps: seq<Step>, edges: seq<Edge>)
    requires TablesFor(t, steps, edges)
    ensures t.outgoing == OutTable(IdSet(steps), edges)
  {
    var table := OutTable(IdSet(steps), edges);
    assert t.outgoing.Keys == table.Keys;
    forall x | x in t.outgoing ensures t.outgoing[x] == table[x] {
    }
  }

  /** The loop's output has as many steps as the flow exactly when the ids
      are unique and the edges admit a dependency order. */
  lemma OrderOutcome(steps: seq<Step>, edges: seq<Edge>, order: seq<string>)
    requires |order| <= |IdSet(steps)|
    requires |order| == |IdSet(steps)| ==> IsTopoOrder(order, IdSet(steps), edges)
    requires |order| < |IdSet(steps)| ==> !HasTopoOrder(IdSet(steps), edges)
    ensures |order| == |steps| <==> UniqueIds(steps) && HasTopoOrder(IdSet(steps), edges)
  {
    IdSetCard(steps);
  }

  /** Looking the ids of a dependency order up in the node table gives the
      steps in that order. */
  lemma StepsOfIds(steps: seq<Step>, order: seq<string>, out: seq<Step>)
    requires forall x :: x in order ==> x in NodesOf(steps)
    requires out == StepsOf(NodesOf(steps), order)
    ensures StepIds(out) == order
    ensures forall s :: s in out ==> s in steps
  {
  }

  /** `_toposort()`: a KeyError for the first edge endpoint that is not a
      step; otherwise the steps in a dependency order when the edges have no
      cycle and the ids are unique, and FlowError when they do not. */
  method Toposort(steps: seq<Step>, edges: seq<Edge>) returns (r: Result<seq<Step>>)
    ensures FirstBadEndpoint(edges, IdSet(steps)).Some? ==>
      r == Err(KeyError(FirstBadEndpoint(edges, IdSet(steps)).value))
    ensures FirstBadEndpoint(edges, IdSet(steps)).None? ==>
      (r.Ok? <==> UniqueIds(steps) && HasTopoOrder(IdSet(steps), edges))
    ensures FirstBadEndpoint(edges, IdSet(steps)).None? && r.Err? ==> r.error == FlowError(CycleOrMissing)
    ensures r.Ok? ==> |r.value| == |steps| && forall s :: s in r.value ==> s in steps
    ensures r.Ok? ==> IsTopoOrder(StepIds(r.value), IdSet(steps), edges)
    ensures r.Ok? ==> StepIds(r.value) == FifoOrder(steps, edges)
    ensures r.Ok? ==> (forall x :: x in FifoOrder(steps, edges) ==> x in NodesOf(steps)) &&
                      r.value == StepsOf(NodesOf(steps), FifoOrder(steps, edges))
  {
    var t :- BuildTables(steps, edges);
    var ids := IdSet(steps);
    TablesReady(t, steps, edges);
    IncomingIsInTable(t, steps, edges);
    OutgoingIsOutTable(t, steps, edges);
    var order := KahnOrder(ids, edges, t.incoming, t.outgoing, t.keyOrder);
    assert order == FifoOrder(steps, edges);
    OrderOutcome(steps, edges, order);
    var out := StepsOf(NodesOf(steps), order);
    if |out| != |steps| {
      return Err(FlowError(CycleOrMissing));
    }
    StepsOfIds(steps, order, out);
    return Ok(out);
  }
}
