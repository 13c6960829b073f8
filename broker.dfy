/**
 * Brokers: the subscription table, the routing of one received message
 * (subscribe or publish), and the broker actor that owns the table.
 */
module Brokers {
  import opened Actors

  /** Topic to subscribers, in subscription order, duplicates kept. */
  type Table = map<string, seq<Actor>>

  /** The content that makes a message a subscribe request. */
  const SubscribeMarker: Content := Text("subscribe")

  /** One forwarded copy: the mailbox it goes to and the message. */
  datatype Delivery = Delivery(to: Actor, msg: Message)

  /** The outcome of routing one message: the new table and the copies sent. */
  datatype Routed = Routed(table: Table, sent: seq<Delivery>)

  /** A topic's subscribers; an absent topic has none. */
  function Lookup(t: Table, topic: string): seq<Actor>
  {
    if topic in t then t[topic] else []
  }

  /** Every topic in the table has at least one subscriber. */
  ghost predicate WellFormed(t: Table)
  {
    forall k :: k in t ==> t[k] != []
  }

  /** Every actor subscribed to some topic. */
  ghost function Audience(t: Table): set<Actor>
  {
    set k, a | k in t && a in t[k] :: a
  }

  /** How many times `a` occurs in `subs`. */
  function Count(subs: seq<Actor>, a: Actor): nat
  {
    if subs == [] then 0
    else Count(subs[..|subs| - 1], a) + (if subs[|subs| - 1] == a then 1 else 0)
  }

  /** The mailbox entries that `ds` adds to `a`'s mailbox, in order. */
  function Inbox(ds: seq<Delivery>, a: Actor): seq<Entry>
  {
    if ds == [] then []
    else Inbox(ds[..|ds| - 1], a) + (if ds[|ds| - 1].to == a then [Msg(ds[|ds| - 1].msg)] else [])
  }

  /** Registering `who` for `topic` appends it to the topic's list and touches nothing else. */
  function Subscribe(t: Table, topic: string, who: Actor): (r: Table)
    ensures r.Keys == t.Keys + {topic}
    ensures |r[topic]| == |Lookup(t, topic)| + 1
    ensures r[topic][..|Lookup(t, topic)|] == Lookup(t, topic) && r[topic][|Lookup(t, topic)|] == who
    ensures forall k :: k in t && k != topic ==> r[k] == t[k]
  {
    t[topic := Lookup(t, topic) + [who]]
  }

  /** The copies one publish sends to the subscribers `subs`, the i-th stamped `clock(i)`. */
  function Fanout(subs: seq<Actor>, topic: string, content: Content, sender: Actor, clock: nat -> Time): seq<Delivery>
  {
    if subs == [] then []
    else
      var n := |subs| - 1;
      Fanout(subs[..n], topic, content, sender, clock) + [Delivery(subs[n], Message(topic, content, sender, clock(n)))]
  }

  /** What the broker does with one message it receives. */
  function Route(t: Table, m: Message, clock: nat -> Time): Routed
  {
    if m.content == SubscribeMarker then Routed(Subscribe(t, m.topic, m.sender), [])
    else if m.topic !in t then Routed(t, [])
    else Routed(t, Fanout(t[m.topic], m.topic, m.content, m.sender, clock))
  }

  /** Room for all copies of one publish: every listed mailbox is open and has a slot per occurrence. */
  ghost predicate CanDeliver(subs: seq<Actor>)
    reads set a | a in subs
  {
    forall a :: a in subs ==> a.Valid() && !a.closed && |a.queue| + Count(subs, a) <= Capacity
  }

  /**
   * A publish sends one copy per list entry, to that entry, in list order,
   * each carrying the original topic, content and sender; the i-th copy is
   * stamped with the i-th clock reading.
   */
  lemma {:induction false} FanoutInOrder(subs: seq<Actor>, topic: string, content: Content, sender: Actor, clock: nat -> Time)
    ensures var ds := Fanout(subs, topic, content, sender, clock);
            |ds| == |subs| &&
            forall i :: 0 <= i < |subs| ==> ds[i] == Delivery(subs[i], Message(topic, content, sender, clock(i)))
  {
    if subs != [] {
      FanoutInOrder(subs[..|subs| - 1], topic, content, sender, clock);
    }
  }

  /**
   * CanDeliver as seen before `taker` takes the publish out of its own
   * mailbox: that mailbox has one more free slot by the time copies are sent.
   */
  ghost predicate CanDeliverAfterTake(subs: seq<Actor>, taker: Actor)
    reads set a | a in subs
  {
    forall a :: a in subs ==>
      a.Valid() && !a.closed && |a.queue| + Count(subs, a) <= Capacity + (if a == taker then 1 else 0)
  }

  lemma LookupInAudience(t: Table, topic: string)
    ensures forall a :: a in Lookup(t, topic) ==> a in Audience(t)
  {
  }

  lemma InboxSnoc(ds: seq<Delivery>, d: Delivery, a: Actor)
    ensures Inbox(ds + [d], a) == Inbox(ds, a) + (if d.to == a then [Msg(d.msg)] else [])
  {
    assert (ds + [d])[..|ds|] == ds;
  }

  lemma FanoutSnoc(subs: seq<Actor>, i: nat, topic: string, content: Content, sender: Actor, clock: nat -> Time)
    requires i < |subs|
    ensures Fanout(subs[..i + 1], topic, content, sender, clock) ==
            Fanout(subs[..i], topic, content, sender, clock) + [Delivery(subs[i], Message(topic, content, sender, clock(i)))]
  {
    assert subs[..i + 1][..i] == subs[..i];
  }

  lemma {:induction false} CountPrefix(subs: seq<Actor>, i: nat, a: Actor)
    requires i <= |subs|
    ensures Count(subs[..i], a) <= Count(subs, a)
    decreases |subs| - i
  {
    if i < |subs| {
      CountPrefix(subs, i + 1, a);
      assert subs[..i + 1][..i] == subs[..i];
    } else {
      assert subs[..i] == subs;
    }
  }

  /** Before the i-th copy is sent, its recipient has had fewer copies than it will get in all. */
  lemma RoomLeft(subs: seq<Actor>, i: nat, topic: string, content: Content, sender: Actor, clock: nat -> Time)
    requires i < |subs|
    ensures |Inbox(Fanout(subs[..i], topic, content, sender, clock), subs[i])| < Count(subs, subs[i])
  {
    FanoutInbox(subs[..i], topic, content, sender, clock, subs[i]);
    CountPrefix(subs, i + 1, subs[i]);
    assert subs[..i + 1][..i] == subs[..i];
  }

  /**
   * What one publish puts in `a`'s mailbox: one copy per occurrence of `a` in
   * the list (two if `a` subscribed twice, none if it is not listed), each with
   * the original topic, content and sender.
   */
  lemma {:induction false} FanoutInbox(subs: seq<Actor>, topic: string, content: Content, sender: Actor, clock: nat -> Time, a: Actor)
    ensures |Inbox(Fanout(subs, topic, content, sender, clock), a)| == Count(subs, a)
    ensures a !in subs ==> Inbox(Fanout(subs, topic, content, sender, clock), a) == []
    ensures forall e :: e in Inbox(Fanout(subs, topic, content, sender, clock), a) ==>
              e.Msg? && e.msg.topic == topic && e.msg.content == content && e.msg.sender == sender
  {
    if subs != [] {
      var n := |subs| - 1;
      var prev := Fanout(subs[..n], topic, content, sender, clock);
      var d := Delivery(subs[n], Message(topic, content, sender, clock(n)));
      FanoutInbox(subs[..n], topic, content, sender, clock, a);
      InboxSnoc(prev, d, a);
      assert a !in subs ==> a !in subs[..n];
    }
  }

  /** Routing keeps every listed topic non-empty: keys are only created by appending. */
  lemma RoutePreservesWellFormed(t: Table, m: Message, clock: nat -> Time)
    requires WellFormed(t)
    ensures WellFormed(Route(t, m, clock).table)
  {
  }

  /**
   * A subscribe request appends its sender to the topic's list, sends nothing,
   * and leaves every other topic as it was.
   */
  lemma RouteSubscribe(t: Table, m: Message, clock: nat -> Time)
    requires m.content == SubscribeMarker
    ensures var r := Route(t, m, clock);
            r.sent == [] && r.table[m.topic] == Lookup(t, m.topic) + [m.sender] &&
            forall k :: k != m.topic ==> Lookup(r.table, k) == Lookup(t, k)
  {
  }

  /**
   * A publish never changes the table, and `a` receives exactly one copy per
   * occurrence in the topic's list, with the original topic, content and
   * sender; actors not listed for the topic receive nothing.
   */
  lemma {:induction false} RoutePublish(t: Table, m: Message, clock: nat -> Time, a: Actor)
    requires m.content != SubscribeMarker
    ensures var r := Route(t, m, clock);
            r.table == t &&
            |Inbox(r.sent, a)| == Count(Lookup(t, m.topic), a) &&
            (a !in Lookup(t, m.topic) ==> Inbox(r.sent, a) == []) &&
            forall e :: e in Inbox(r.sent, a) ==> e.Msg? && e == Msg(Message(m.topic, m.content, m.sender, e.msg.timestamp))
  {
    FanoutInbox(Lookup(t, m.topic), m.topic, m.content, m.sender, clock, a);
  }

  /**
   * A publish to a topic nobody has subscribed to is dropped: nothing is sent,
   * the table is unchanged, and a later subscribe to that topic does not bring
   * it back (the new subscriber is the topic's only entry and nothing is sent).
   */
  lemma LostBeforeSubscribe(t: Table, p: Message, s: Message, clock: nat -> Time)
    requires p.content != SubscribeMarker && p.topic !in t
    requires s.content == SubscribeMarker && s.topic == p.topic
    ensures Route(t, p, clock) == Routed(t, [])
    ensures Route(Route(t, p, clock).table, s, clock) == Routed(t[p.topic := [s.sender]], [])
  {
  }

  /**
   * After a subscribe, the subscriber is the last entry of the topic's list,
   * so the next publish to that topic sends it the last copy.
   */
  lemma SubscribeThenPublish(t: Table, s: Message, p: Message, clock: nat -> Time)
    requires s.content == SubscribeMarker
    requires p.content != SubscribeMarker && p.topic == s.topic
    ensures var sent := Route(Route(t, s, clock).table, p, clock).sent;
            |sent| == |Lookup(t, s.topic)| + 1 &&
            sent[|sent| - 1] == Delivery(s.sender, Message(p.topic, p.content, p.sender, clock(|sent| - 1)))
  {
    var subs := Route(t, s, clock).table[s.topic];
    FanoutInOrder(subs, p.topic, p.content, p.sender, clock);
  }

  class Broker {
    const actor: Actor
    var subscribers: Table
    /** Set once the loop has met a stop signal: the type assertion failed and the process is gone. */
    var faulted: bool

    ghost predicate Valid()
      reads this, actor
    {
      actor.Valid() && WellFormed(subscribers)
    }

    /** NewBroker: an actor named "Broker" without a parent and an empty table. */
    constructor ()
      ensures fresh(actor) && actor.name == "Broker" && actor.parent == null
      ensures actor.queue == [] && !actor.closed
      ensures subscribers == map[] && !faulted && Valid()
    {
      actor := new Actor("Broker", null);
      subscribers := map[];
      faulted := false;
    }

    /** Appends `sender` to `topic`'s list. */
    method HandleSubscribeRequest(topic: string, sender: Actor)
      modifies this
      ensures subscribers == Subscribe(old(subscribers), topic, sender)
      ensures faulted == old(faulted)
    {
      subscribers := Subscribe(subscribers, topic, sender);
    }

    /**
     * Forwards one copy to every subscriber of `topic`, in list order; does
     * nothing when the topic has no entry.
     */
    method HandlePublishRequest(topic: string, content: Content, sender: Actor, clock: nat -> Time)
      returns (sent: seq<Delivery>)
      requires CanDeliver(Lookup(subscribers, topic))
      modifies set a | a in Lookup(subscribers, topic)
      ensures sent == Fanout(Lookup(subscribers, topic), topic, content, sender, clock)
      ensures forall a :: a in Lookup(subscribers, topic) ==>
                a.Valid() && a.queue == old(a.queue) + Inbox(sent, a) && a.closed == old(a.closed)
    {
      if topic !in subscribers {
        return [];
      }
      var subs := subscribers[topic];
      sent := [];
      var i := 0;
      while i < |subs|
        invariant 0 <= i <= |subs|
        invariant sent == Fanout(subs[..i], topic, content, sender, clock)
        invariant forall a :: a in subs ==> a.queue == old(a.queue) + Inbox(sent, a) && a.closed == old(a.closed)
      {
        var to := subs[i];
        var m := Message(topic, content, sender, clock(i));
        assert to.Valid() && to.CanAccept() by {
          RoomLeft(subs, i, topic, content, sender, clock);
          assert to.queue == old(to.queue) + Inbox(sent, to) && to.closed == old(to.closed);
          assert !old(to.closed) && |old(to.queue)| + Count(subs, to) <= Capacity;
        }
        label before:
        actor.Send(to, m);
        FanoutSnoc(subs, i, topic, content, sender, clock);
        forall a | a in subs
          ensures a.queue == old(a.queue) + Inbox(sent + [Delivery(to, m)], a)
        {
          InboxSnoc(sent, Delivery(to, m), a);
          if a == to {
            assert a.queue == old@before(a.queue) + [Msg(m)];
          } else {
            assert a.queue == old@before(a.queue);
          }
        }
        sent := sent + [Delivery(to, m)];
        i := i + 1;
      }
      assert subs[..i] == subs;
      forall a | a in subs
        ensures a.Valid()
      {
        FanoutInbox(subs, topic, content, sender, clock, a);
      }
    }

    /** Handles one received message: a subscribe request or a publish. */
    method Receive(msg: Message, clock: nat -> Time) returns (sent: seq<Delivery>)
      requires Valid()
      requires msg.content != SubscribeMarker ==> CanDeliver(Lookup(subscribers, msg.topic))
      modifies this, set a | a in Lookup(subscribers, msg.topic)
      ensures Valid()
      ensures Routed(subscribers, sent) == Route(old(subscribers), msg, clock)
      ensures faulted == old(faulted)
      ensures forall a :: a in Audience(old(subscribers)) ==>
                a.queue == old(a.queue) + Inbox(sent, a) && a.closed == old(a.closed)
    {
      if msg.content == SubscribeMarker {
        HandleSubscribeRequest(msg.topic, msg.sender);
        sent := [];
      } else {
        sent := HandlePublishRequest(msg.topic, msg.content, msg.sender, clock);
        forall a | a in Audience(subscribers)
          ensures a.queue == old(a.queue) + Inbox(sent, a)
        {
          FanoutInbox(Lookup(subscribers, msg.topic), msg.topic, msg.content, msg.sender, clock, a);
        }
      }
    }

    /**
     * One turn of the broker's own loop: takes the oldest entry of its mailbox
     * and hands it to Receive. The loop expects messages only; a stop signal
     * is taken and faults the broker, which then takes no further turn, and
     * nothing else happens.
     */
    method Step(clock: nat -> Time) returns (e: Entry, sent: seq<Delivery>)
      requires Valid() && !faulted && actor.queue != []
      requires actor.queue[0].Msg? && actor.queue[0].msg.content != SubscribeMarker ==>
                 CanDeliverAfterTake(Lookup(subscribers, actor.queue[0].msg.topic), actor)
      modifies this, actor, Audience(subscribers)
      ensures Valid()
      ensures e == old(actor.queue[0])
      ensures faulted == e.Signal?
      ensures e.Msg? ==> Routed(subscribers, sent) == Route(old(subscribers), e.msg, clock)
      ensures e.Signal? ==> subscribers == old(subscribers) && sent == []
      ensures actor.queue == old(actor.queue[1..]) + Inbox(sent, actor) && actor.closed == old(actor.closed)
      ensures forall a :: a in Audience(old(subscribers)) && a != actor ==>
                a.queue == old(a.queue) + Inbox(sent, a) && a.closed == old(a.closed)
    {
      e := actor.queue[0];
      actor.queue := actor.queue[1..];
      match e
      case Msg(m) =>
        LookupInAudience(subscribers, m.topic);
        if m.content != SubscribeMarker {
          RoutePublish(subscribers, m, clock, actor);
        }
        sent := Receive(m, clock);
      case Signal(_) =>
        sent := [];
        faulted := true;
    }
  }
}
