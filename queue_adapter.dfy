/** plugins/koala/queue_adapter.py: a stand-in for the standard `queue`
    module's bounded FIFO `Queue` (only its non-blocking operations) and
    the in-memory publish/subscribe adapter. */
module QueueAdapter {

  import opened Values
  import opened PubSub

  /** `Queue(maxsize)`: a FIFO that is bounded only when `maxsize > 0`. */
  class Queue {
    const maxsize: int
    var items: seq<Value>

    constructor (maxsize: int)
      ensures this.maxsize == maxsize && items == []
    {
      this.maxsize := maxsize;
      items := [];
    }

    method QSize() returns (n: nat)
      ensures n == |items|
    {
      n := |items|;
    }

    /** `empty()`: `qsize() == 0`. */
    method IsEmpty() returns (b: bool)
      ensures b <==> items == []
    {
      var n := QSize();
      b := n == 0;
    }

    /** `full()`: a queue with `maxsize <= 0` is never full. */
    method IsFull() returns (b: bool)
      ensures b <==> PubSub.IsFull(items, maxsize)
      ensures maxsize <= 0 ==> !b
    {
      b := maxsize > 0 && |items| >= maxsize;
    }

    /** `put_nowait(item)`: Full and no change when full, otherwise the
        item joins at the back. */
    method PutNowait(item: Value) returns (r: Result<()>)
      modifies this
      ensures var p := Put(old(items), maxsize, item);
        (p.Err? ==> r == Err(Full) && items == old(items)) && (p.Ok? ==> r == Ok(()) && items == p.value)
    {
      var full := IsFull();
      if full {
        return Err(Full);
      }
      items := items + [item];
      r := Ok(());
    }

    /** `get_nowait()`: Empty when empty, otherwise the front item leaves. */
    method GetNowait() returns (r: Result<Value>)
      modifies this
      ensures var g := Get(old(items));
        (g.Err? ==> r == Err(Empty) && items == old(items)) && (g.Ok? ==> r == Ok(g.value.0) && items == g.value.1)
    {
      if items == [] {
        return Err(Empty);
      }
      r := Ok(items[0]);
      items := items[1..];
    }
  }

  /** The topics and the handlers subscribed to each, in subscription order. */
  class InMemoryQueue {
    var topics: map<string, seq<Handler>>

    constructor ()
      ensures topics == map[]
    {
      topics := map[];
    }

    /** `publish(topic, message)`: the handlers subscribed now are called
        one by one in subscription order; an exception from one is swallowed
        and the next is still called. No subscriber, no call. */
    method Publish(topic: string, message: Message) returns (deliveries: seq<Delivery>)
      ensures deliveries == Deliveries(HandlersOf(topics, topic), message)
      ensures topic !in topics ==> deliveries == []
    {
      var handlers := HandlersOf(topics, topic);
      deliveries := [];
      for i := 0 to |handlers|
        invariant deliveries == Deliveries(handlers[..i], message)
      {
        assert handlers[..i + 1][..i] == handlers[..i];
        var outcome := handlers[i].onMessage(message);
        deliveries := deliveries + [Delivery(handlers[i], outcome)];
      }
      assert handlers[..|handlers|] == handlers;
    }

    /** `subscribe(topic, handler)`: the handler goes to the end of the
        topic's list, which is created if need be; other topics are as they were. */
    method Subscribe(topic: string, handler: Handler)
      modifies this
      ensures topics == Subscribed(old(topics), topic, handler)
    {
      topics := topics[topic := HandlersOf(topics, topic) + [handler]];
    }
  }
}
