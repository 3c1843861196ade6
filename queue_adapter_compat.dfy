/** plugins/koala/_queue_adapter.py: the in-memory publish/subscribe queue
    adapter, as in src/koala/queue.py. */
module QueueAdapterCompat {

  import opened Values
  import opened PubSub

  /** The topics and the handlers subscribed to each, in subscription order. */
  class InMemoryQueue {
    var topics: map<string, seq<Handler>>

    constructor ()
      ensures topics == map[]
    {
      topics := map[];
    }

    /** `publish(topic, message)`: the handlers subscribed now are called
        one by one in subscription order; an exception from one is swallowed
        and the next is still called. No subscriber, no call. */
    method Publish(topic: string, message: Message) returns (deliveries: seq<Delivery>)
      ensures deliveries == Deliveries(HandlersOf(topics, topic), message)
      ensures topic !in topics ==> deliveries == []
    {
      var handlers := HandlersOf(topics, topic);
      deliveries := [];
      for i := 0 to |handlers|
        invariant deliveries == Deliveries(handlers[..i], message)
      {
        assert handlers[..i + 1][..i] == handlers[..i];
        var outcome := handlers[i].onMessage(message);
        deliveries := deliveries + [Delivery(handlers[i], outcome)];
      }
      assert handlers[..|handlers|] == handlers;
    }

    /** `subscribe(topic, handler)`: the handler goes to the end of the
        topic's list, which is created if need be; other topics are as they were. */
    method Subscribe(topic: string, handler: Handler)
      modifies this
      ensures topics == Subscribed(old(topics), topic, handler)
    {
      topics := topics[topic := HandlersOf(topics, topic) + [handler]];
    }
  }
}
