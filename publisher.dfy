/** Publishers: an actor that sends publish requests to the broker. */
module Publishers {
  import opened Actors
  import opened Brokers

  class Publisher {
    const actor: Actor
    const broker: Broker

    /** The publisher's actor is not the broker's. */
    ghost predicate Valid()
    {
      actor != broker.actor
    }

    /** NewPublisher: an actor named "Publisher" without a parent, bound to `broker`. */
    constructor (broker: Broker)
      ensures fresh(actor) && actor.name == "Publisher" && actor.parent == null
      ensures actor.queue == [] && !actor.closed
      ensures this.broker == broker && Valid()
    {
      actor := new Actor("Publisher", null);
      this.broker := broker;
    }

    /**
     * Enqueues one message at the end of the broker's mailbox, with the given
     * topic and content, this publisher's actor as sender and `now` as its
     * timestamp. No other mailbox changes, the publisher's own included.
     */
    method Publish(topic: string, content: Content, now: Time)
      requires Valid() && broker.actor.Valid() && broker.actor.CanAccept()
      modifies broker.actor
      ensures broker.actor.Valid()
      ensures broker.actor.queue == old(broker.actor.queue) + [Msg(Message(topic, content, actor, now))]
      ensures broker.actor.closed == old(broker.actor.closed)
      ensures actor.queue == old(actor.queue) && actor.closed == old(actor.closed)
    {
      var message := Message(topic, content, actor, now);
      actor.Send(broker.actor, message);
    }
  }
}
