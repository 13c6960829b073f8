/**
 * Subscribers: an actor that registers for one topic when it is created and
 * then consumes the messages the broker forwards to it.
 */
module Subscribers {
  import opened Actors
  import opened Brokers

  class Subscriber {
    const actor: Actor
    const broker: Broker
    const topic: string
    /** Set once the consuming loop has met a stop signal: the process is gone. */
    var faulted: bool

    /** The subscriber's actor is not the broker's. */
    ghost predicate Valid()
    {
      actor != broker.actor
    }

    /**
     * NewSubscriber: an actor named "Subscriber-" + topic without a parent,
     * whose creation enqueues one subscribe request for `topic`, sent by that
     * actor, at the end of the broker's mailbox.
     */
    constructor (broker: Broker, topic: string, now: Time)
      requires broker.actor.Valid() && broker.actor.CanAccept()
      modifies broker.actor
      ensures fresh(actor) && actor.name == "Subscriber-" + topic && actor.parent == null
      ensures actor.queue == [] && !actor.closed
      ensures this.broker == broker && this.topic == topic && !faulted && Valid()
      ensures broker.actor.Valid()
      ensures broker.actor.queue == old(broker.actor.queue) + [Msg(Message(topic, SubscribeMarker, actor, now))]
      ensures broker.actor.closed == old(broker.actor.closed)
    {
      actor := new Actor("Subscriber-" + topic, null);
      this.broker := broker;
      this.topic := topic;
      faulted := false;
      new;
      var message := Message(topic, SubscribeMarker, actor, now);
      actor.Send(broker.actor, message);
    }

    /** Handles a forwarded message: it only logs, so it changes nothing. */
    method Receive(m: Message)
      ensures unchanged(actor)
    {
    }

    /**
     * The consuming loop, run over what the mailbox holds. It expects messages
     * only: it hands each message to Receive in mailbox order and stops at the
     * first stop signal, which is taken and faults the subscriber: the loop
     * cannot be started again after that.
     */
    method StartConsuming() returns (consumed: seq<Message>)
      requires actor.Valid() && !faulted
      modifies this, actor
      ensures actor.Valid() && actor.closed == old(actor.closed)
      ensures |consumed| <= |old(actor.queue)|
      ensures forall i :: 0 <= i < |consumed| ==> old(actor.queue)[i] == Msg(consumed[i])
      ensures faulted <==> |consumed| < |old(actor.queue)|
      ensures faulted ==> old(actor.queue)[|consumed|].Signal?
      ensures actor.queue == if faulted then old(actor.queue)[|consumed| + 1..] else []
    {
      consumed := [];
      while actor.queue != [] && !faulted
        invariant actor.Valid() && actor.closed == old(actor.closed)
        invariant |consumed| <= |old(actor.queue)|
        invariant forall i :: 0 <= i < |consumed| ==> old(actor.queue)[i] == Msg(consumed[i])
        invariant !faulted ==> actor.queue == old(actor.queue)[|consumed|..]
        invariant faulted ==> |consumed| < |old(actor.queue)| && old(actor.queue)[|consumed|].Signal? &&
                              actor.queue == old(actor.queue)[|consumed| + 1..]
        decreases |actor.queue|, !faulted
      {
        var e := actor.queue[0];
        actor.queue := actor.queue[1..];
        match e
        case Msg(m) =>
          Receive(m);
          consumed := consumed + [m];
        case Signal(_) =>
          faulted := true;
      }
    }
  }
}
