/**
 * End-to-end runs of the system, driven one loop turn at a time: what callers
 * of the broker, publishers and subscribers can rely on from their contracts.
 */
module Scenarios {
  import opened Actors
  import opened Brokers
  import opened Publishers
  import opened Subscribers

  /** A publish to a one-entry list: that entry gets the single copy, stamped clock(0). */
  lemma FanoutToOne(x: Actor, topic: string, content: Content, sender: Actor, clock: nat -> Time)
    ensures Count([x], x) == 1
    ensures Inbox(Fanout([x], topic, content, sender, clock), x) == [Msg(Message(topic, content, sender, clock(0)))]
  {
    assert [x][..0] == [];
    var d := Delivery(x, Message(topic, content, sender, clock(0)));
    FanoutInOrder([x], topic, content, sender, clock);
    assert Fanout([x], topic, content, sender, clock) == [] + [d];
    InboxSnoc([], d, x);
  }

  /** A publish to two distinct entries: each gets one copy, stamped in list order. */
  lemma FanoutToTwo(x: Actor, y: Actor, topic: string, content: Content, sender: Actor, clock: nat -> Time)
    requires x != y
    ensures Count([x, y], x) == 1 && Count([x, y], y) == 1
    ensures Inbox(Fanout([x, y], topic, content, sender, clock), x) == [Msg(Message(topic, content, sender, clock(0)))]
    ensures Inbox(Fanout([x, y], topic, content, sender, clock), y) == [Msg(Message(topic, content, sender, clock(1)))]
  {
    assert [x, y][..1] == [x] && [x][..0] == [];
    assert Count([x], x) == 1 && Count([x], y) == 0;
    var d1 := Delivery(x, Message(topic, content, sender, clock(0)));
    var d2 := Delivery(y, Message(topic, content, sender, clock(1)));
    FanoutInOrder([x, y], topic, content, sender, clock);
    assert Fanout([x, y], topic, content, sender, clock) == [] + [d1] + [d2];
    InboxSnoc([], d1, x);
    InboxSnoc([], d1, y);
    InboxSnoc([] + [d1], d2, x);
    InboxSnoc([] + [d1], d2, y);
  }

  /** Creates a broker and a subscriber on `topic`, and lets the broker register it. */
  method RegisterOne(topic: string, t0: Time, clock: nat -> Time) returns (b: Broker, s: Subscriber)
    ensures fresh(b.actor) && fresh(s.actor) && b.actor != s.actor
    ensures b.Valid() && !b.faulted && b.actor.queue == [] && !b.actor.closed
    ensures b.subscribers == map[topic := [s.actor]]
    ensures s.actor.Valid() && !s.faulted && s.actor.queue == [] && !s.actor.closed
  {
    b := new Broker();
    s := new Subscriber(b, topic, t0);
    var e, sent := b.Step(clock);
  }

  /**
   * A subscriber registers, the broker handles the request, a publisher then
   * publishes to the topic and the broker forwards it: the copy waits in the
   * subscriber's mailbox until the consuming loop runs, which sees it exactly
   * once, from the publisher, stamped at forwarding time.
   */
  method DeliveredAfterSubscribe(topic: string, text: string, t0: Time, t1: Time, clock: nat -> Time)
    returns (s: Subscriber, p: Publisher, consumed: seq<Message>)
    requires Text(text) != SubscribeMarker
    ensures consumed == [Message(topic, Text(text), p.actor, clock(0))]
  {
    var b;
    b, s := RegisterOne(topic, t0, clock);
    var x := s.actor;
    p := new Publisher(b);
    p.Publish(topic, Text(text), t1);
    FanoutToOne(x, topic, Text(text), p.actor, clock);
    assert CanDeliverAfterTake(b.subscribers[topic], b.actor);
    var e, sent := b.Step(clock);
    assert x in Audience(map[topic := [x]]) by {
      assert x in [x];
    }
    assert x.queue == [Msg(Message(topic, Text(text), p.actor, clock(0)))];
    consumed := s.StartConsuming();
  }

  /**
   * A publish handled before anyone subscribed to its topic is dropped, and a
   * subscriber that registers afterwards finds nothing in its mailbox.
   */
  method PublishBeforeSubscribe(topic: string, text: string, t0: Time, t1: Time, clock: nat -> Time)
    returns (b: Broker, s: Subscriber, consumed: seq<Message>)
    requires Text(text) != SubscribeMarker
    ensures b.subscribers == map[topic := [s.actor]]
    ensures consumed == []
  {
    b := new Broker();
    var p := new Publisher(b);
    p.Publish(topic, Text(text), t0);
    var e, sent := b.Step(clock);
    assert sent == [];
    s := new Subscriber(b, topic, t1);
    e, sent := b.Step(clock);
    consumed := s.StartConsuming();
  }

  /** Creates a broker and two subscribers on `topic`, and lets the broker register both. */
  method RegisterTwo(topic: string, t0: Time, t1: Time, clock: nat -> Time)
    returns (b: Broker, s1: Subscriber, s2: Subscriber)
    ensures fresh(b.actor) && fresh(s1.actor) && fresh(s2.actor)
    ensures s1.actor != s2.actor && b.actor != s1.actor && b.actor != s2.actor
    ensures b.Valid() && !b.faulted && b.actor.queue == [] && !b.actor.closed
    ensures b.subscribers == map[topic := [s1.actor, s2.actor]]
    ensures s1.actor.Valid() && !s1.faulted && s1.actor.queue == [] && !s1.actor.closed
    ensures s2.actor.Valid() && !s2.faulted && s2.actor.queue == [] && !s2.actor.closed
  {
    b := new Broker();
    s1 := new Subscriber(b, topic, t0);
    s2 := new Subscriber(b, topic, t1);
    var e, sent := b.Step(clock);
    assert b.subscribers == map[topic := [s1.actor]];
    assert b.actor.queue == [Msg(Message(topic, SubscribeMarker, s2.actor, t1))];
    e, sent := b.Step(clock);
    assert b.subscribers == map[topic := [s1.actor] + [s2.actor]];
    assert [s1.actor] + [s2.actor] == [s1.actor, s2.actor];
  }

  /**
   * Two subscribers on one topic each get their own copy of a publish, in
   * registration order: same topic, content and original sender, each with
   * the clock reading of its own forwarding.
   */
  method TwoSubscribers(topic: string, text: string, t0: Time, t1: Time, t2: Time, clock: nat -> Time)
    returns (p: Publisher, first: seq<Message>, second: seq<Message>)
    requires Text(text) != SubscribeMarker
    ensures first == [Message(topic, Text(text), p.actor, clock(0))]
    ensures second == [Message(topic, Text(text), p.actor, clock(1))]
  {
    var b, s1, s2 := RegisterTwo(topic, t0, t1, clock);
    var x, y := s1.actor, s2.actor;
    p := new Publisher(b);
    p.Publish(topic, Text(text), t2);
    FanoutToTwo(x, y, topic, Text(text), p.actor, clock);
    assert CanDeliverAfterTake(b.subscribers[topic], b.actor);
    var e, sent := b.Step(clock);
    assert x in Audience(map[topic := [x, y]]) && y in Audience(map[topic := [x, y]]) by {
      assert x in [x, y] && y in [x, y];
    }
    assert x.queue == [Msg(Message(topic, Text(text), p.actor, clock(0)))];
    assert y.queue == [Msg(Message(topic, Text(text), p.actor, clock(1)))];
    first := s1.StartConsuming();
    second := s2.StartConsuming();
  }

  /**
   * Publishing the content "subscribe" is a subscribe request: once the broker
   * handles it, the publisher itself is registered for the topic.
   */
  method PublisherSubscribes(topic: string, t0: Time, clock: nat -> Time)
    returns (b: Broker, p: Publisher)
    ensures b.subscribers == map[topic := [p.actor]]
  {
    b := new Broker();
    p := new Publisher(b);
    p.Publish(topic, Text("subscribe"), t0);
    var e, sent := b.Step(clock);
  }

  /**
   * A stop signal from an actor that is neither the target nor its parent is
   * dispatched by the target's loop and ignored: the mailbox stays open.
   */
  method StrangerStopIgnored() returns (parent: Actor, stranger: Actor, child: Actor, handled: seq<Entry>)
    ensures fresh(parent) && fresh(child) && child.parent == parent
    ensures stranger != child && stranger != parent
    ensures handled == [Signal(StopSignal(stranger))]
    ensures child.Valid() && child.queue == [] && !child.closed
  {
    parent := new Actor("parent", null);
    stranger := new Actor("stranger", null);
    child := new Actor("child", parent);
    stranger.Stop(child);
    handled := child.Start();
  }

  /**
   * After a stranger's stop signal was ignored, one from the parent closes
   * the mailbox, and a message queued behind that signal is still dispatched.
   */
  method StopAuthorization(m: Message) returns (parent: Actor, child: Actor, handled: seq<Entry>)
    ensures child.parent == parent
    ensures handled == [Signal(StopSignal(parent)), Msg(m)]
    ensures child.closed && child.queue == []
  {
    var stranger, first;
    parent, stranger, child, first := StrangerStopIgnored();
    parent.Stop(child);
    parent.Send(child, m);
    handled := child.Start();
    ClosedAfterIff(handled, false, child, parent);
    assert Closes(handled[0], child, parent);
  }
}
