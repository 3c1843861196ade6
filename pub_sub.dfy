/** What the in-memory queue adapters share (plugins/koala/queue_adapter.py,
    src/koala/queue.py, plugins/koala/_queue_adapter.py): topics holding
    subscribed handlers, synchronous delivery to each of them in
    subscription order with handler exceptions swallowed; and the bounded
    FIFO `Queue` of plugins/koala/queue_adapter.py as values. */
module PubSub {

  import opened Values

  type Message = map<string, Value>

  /** A handler callable: compared by identity; what it does with a message
      is outside the model, only whether it returns or raises. */
  class Handler {
    const onMessage: Message -> Result<()>

    constructor (onMessage: Message -> Result<()>)
      ensures this.onMessage == onMessage
    {
      this.onMessage := onMessage;
    }
  }

  /** One call `h(message)` made by `publish`, and how it ended. */
  datatype Delivery = Delivery(handler: Handler, outcome: Result<()>)

  /** `self._topics.get(topic, [])`. */
  function HandlersOf(topics: map<string, seq<Handler>>, topic: string): (hs: seq<Handler>)
    ensures topic !in topics ==> hs == []
  {
    if topic in topics then topics[topic] else []
  }

  /** `setdefault(topic, []).append(handler)`. */
  function Subscribed(topics: map<string, seq<Handler>>, topic: string, handler: Handler)
    : (t: map<string, seq<Handler>>)
    ensures t.Keys == topics.Keys + {topic}
    ensures HandlersOf(t, topic) == HandlersOf(topics, topic) + [handler]
    ensures forall other :: other != topic ==> HandlersOf(t, other) == HandlersOf(topics, other)
  {
    topics[topic := HandlersOf(topics, topic) + [handler]]
  }

  /** Delivering to `hs` in order: every handler is called, whether or not
      an earlier one raised. */
  function Deliveries(hs: seq<Handler>, message: Message): (ds: seq<Delivery>)
    ensures |ds| == |hs|
    ensures forall i :: 0 <= i < |hs| ==> ds[i].handler == hs[i] && ds[i].outcome == hs[i].onMessage(message)
  {
    if hs == [] then []
    else Deliveries(hs[..|hs| - 1], message) + [Delivery(hs[|hs| - 1], hs[|hs| - 1].onMessage(message))]
  }

  /** The handler subscribed last to a topic is the one called last. */
  lemma {:induction false} LastSubscriberCalledLast(topics: map<string, seq<Handler>>, topic: string,
                                                    handler: Handler, message: Message)
    ensures var ds := Deliveries(HandlersOf(Subscribed(topics, topic, handler), topic), message);
      ds == Deliveries(HandlersOf(topics, topic), message) + [Delivery(handler, handler.onMessage(message))]
  {
    var hs := HandlersOf(Subscribed(topics, topic, handler), topic);
    assert hs[..|hs| - 1] == HandlersOf(topics, topic);
  }

  /** Subscribing to one topic changes nothing delivered on another. */
  lemma OtherTopicsUnaffected(topics: map<string, seq<Handler>>, topic: string, handler: Handler,
                              other: string, message: Message)
    requires other != topic
    ensures Deliveries(HandlersOf(Subscribed(topics, topic, handler), other), message) ==
            Deliveries(HandlersOf(topics, other), message)
  {
  }

  // ---- the bounded FIFO queue as values ----

  /** `full()`: only a positive `maxsize` bounds the queue. */
  predicate IsFull(items: seq<Value>, maxsize: int) {
    maxsize > 0 && |items| >= maxsize
  }

  /** `put_nowait(item)`: Full when full, otherwise appended at the back. */
  function Put(items: seq<Value>, maxsize: int, item: Value): (r: Result<seq<Value>>)
    ensures r.Err? <==> IsFull(items, maxsize)
    ensures r.Err? ==> r.error == Full
    ensures r.Ok? ==> |r.value| == |items| + 1 && r.value[..|items|] == items && r.value[|items|] == item
  {
    if IsFull(items, maxsize) then Err(Full) else Ok(items + [item])
  }

  /** `get_nowait()`: Empty when empty, otherwise the front item. */
  function Get(items: seq<Value>): (r: Result<(Value, seq<Value>)>)
    ensures r.Err? <==> items == []
    ensures r.Err? ==> r.error == Empty
    ensures r.Ok? ==> [r.value.0] + r.value.1 == items
  {
    if items == [] then Err(Empty) else Ok((items[0], items[1..]))
  }

  /** Putting each of `xs` in turn; the first refusal stops. */
  function PutAll(items: seq<Value>, maxsize: int, xs: seq<Value>): Result<seq<Value>>
    decreases |xs|
  {
    if xs == [] then Ok(items)
    else
      var next :- Put(items, maxsize, xs[0]);
      PutAll(next, maxsize, xs[1..])
  }

  /** Getting `n` items in turn: what came out, and what is left. */
  function GetN(items: seq<Value>, n: nat): Result<(seq<Value>, seq<Value>)>
    decreases n
  {
    if n == 0 then Ok(([], items))
    else
      var first :- Get(items);
      var rest :- GetN(first.1, n - 1);
      Ok(([first.0] + rest.0, rest.1))
  }

  /** A queue with room for everything takes it all, in order, at the back. */
  lemma {:induction false} PutAllAppends(items: seq<Value>, maxsize: int, xs: seq<Value>)
    requires maxsize <= 0 || |items| + |xs| <= maxsize
    ensures PutAll(items, maxsize, xs) == Ok(items + xs)
    decreases |xs|
  {
    if xs != [] {
      assert Put(items, maxsize, xs[0]) == Ok(items + [xs[0]]);
      PutAllAppends(items + [xs[0]], maxsize, xs[1..]);
      assert items + [xs[0]] + xs[1..] == items + xs;
      assert PutAll(items, maxsize, xs) == PutAll(items + [xs[0]], maxsize, xs[1..]);
    } else {
      assert items + xs == items;
    }
  }

  /** Getting takes items from the front; one get too many is Empty. */
  lemma {:induction false} GetNTakesFront(items: seq<Value>, n: nat)
    ensures n <= |items| ==> GetN(items, n) == Ok((items[..n], items[n..]))
    ensures n > |items| ==> GetN(items, n) == Err(Empty)
    decreases n
  {
    if n > 0 && items != [] {
      GetNTakesFront(items[1..], n - 1);
      if n <= |items| {
        assert [items[0]] + items[1..][..n - 1] == items[..n];
        assert items[1..][n - 1..] == items[n..];
      }
    }
  }

  /** FIFO: whatever is put into an empty queue with room for it comes out
      of it in the same order, and the queue is empty again. */
  lemma FirstInFirstOut(maxsize: int, xs: seq<Value>)
    requires maxsize <= 0 || |xs| <= maxsize
    ensures PutAll([], maxsize, xs) == Ok(xs)
    ensures GetN(xs, |xs|) == Ok((xs, []))
  {
    PutAllAppends([], maxsize, xs);
    assert [] + xs == xs;
    GetNTakesFront(xs, |xs|);
    assert xs[..|xs|] == xs && xs[|xs|..] == [];
  }
}
