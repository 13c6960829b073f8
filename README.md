# Actor-style publish/subscribe, modelled in Dafny

This project models the sequential core of a small actor-based publish/subscribe
runtime written in Go:

- **Actors** (`actor.dfy`, module `Actors`). An actor has a name, an optional
  parent and a FIFO mailbox of capacity 100 that can be closed. `Send` and `Stop`
  append a message or a stop signal to another actor's mailbox. The dispatch loop
  takes entries oldest first. It hands a message to `Receive` and a stop signal
  to `HandleStopSignal`. That handler closes the mailbox only when the signal
  comes from the actor itself or from its parent. Actors are objects, and an
  actor's identity is its reference, as in the Go code, which compares pointers.
- **Broker** (`broker.dfy`, module `Brokers`). The broker owns a table from topic
  to an ordered list of subscribers. A message whose content is the string
  `"subscribe"` appends its sender to the topic's list, without deduplication.
  Any other message is a publish. A publish to a topic without an entry is
  dropped. Otherwise the broker sends one copy to each listed subscriber, in list
  order. Each copy keeps the original topic, content and sender.
  The pure function `Route` states what one received message does. The broker's
  methods are proved against it, and the lemmas about the routing are stated on it.
- **Publisher and subscriber** (`publisher.dfy`, `subscriber.dfy`). These are thin
  wrappers that each build one message and enqueue it in the broker's mailbox.
  The subscriber also has a consuming loop that expects messages only.
- **Scenarios** (`scenarios.dfy`). These are end-to-end runs built only from the
  contracts above. A subscriber registers and then receives a later publish. A
  publish made before any subscription is lost. Two subscribers each get their
  own copy. A publisher that publishes `"subscribe"` becomes a subscriber. A stop
  signal from a stranger is ignored and one from the parent is honoured.

The payload (`interface{}` in Go) is the datatype `Content = Text(string) | Other(int)`.
The subscribe marker is `Text("subscribe")`, so any string payload equal to
`"subscribe"` counts as a subscribe request, as it does in Go. Timestamps are
opaque values supplied by the caller. A publisher or a new subscriber takes one
reading (`now`). The broker's fan-out takes a clock function, and the i-th copy
is stamped `clock(i)`.

Run-time faults of the Go code are modelled in two ways:

- A send to a full mailbox blocks in Go. A send to a closed mailbox panics, and
  so does a second close. These become preconditions: `CanAccept` on the
  target, and `NeverClosesTwice` or its one-step form for the dispatch loop.
- The broker's loop and the subscriber's loop assert that every entry is a
  message. A stop signal reaching either loop fails that type assertion, and
  the panic ends the process. In the model the entry is taken, nothing else
  changes, and the broker or subscriber is marked `faulted`. Every further
  turn of its loop requires `!faulted`, so nothing can happen after the crash.

Two consequences of the Go code are worth spelling out:

- A send to a closed mailbox panics in Go; it is not an error value the caller
  can handle. The model makes an open target a precondition of `Send` and `Stop`.
- A stop signal from the actor itself or its parent ends only the base actor
  loop (`Start`). The broker and subscriber loops never dispatch stop signals:
  there any stop signal is the type-assertion fault above.

## Model

| member | source | states |
|---|---|---|
| `Actors.Actor.constructor` | actor/actor.go:29-35 | a new actor has the given name and parent and an empty, open mailbox within capacity |
| `Actors.Actor.GetName` | actor/actor.go:43-45 | the name is the one given at construction (it is immutable) |
| `Actors.Actor.Send` | actor/actor.go:78-80 | the message is appended at the end of the target's mailbox; only the target changes; the target must be open and not full |
| `Actors.Actor.Stop` | actor/actor.go:83-86 | exactly one stop signal whose sender is the caller is appended to the target's mailbox |
| `Actors.Actor.Receive` | actor/actor.go:62-66 | the base message handler changes no state |
| `Actors.Actor.HandleStopSignal` | actor/actor.go:69-76 | the mailbox is closed iff it was closed or the sender is the actor itself or its parent; queued entries are kept; an authorised signal on a closed mailbox is excluded (double close) |
| `Actors.Actor.Step` | actor/actor.go:50-56 | one loop turn takes the oldest entry and leaves the rest in order; the mailbox is closed afterwards iff it was closed or that entry is an authorised stop signal |
| `Actors.Actor.Start` | actor/actor.go:48-59 | the loop dispatches every queued entry in enqueue order, also after a close, and the final closed state is that of the dispatched sequence |
| `Actors.ClosedAfterIff` | actor/actor.go:69-75 | after dispatching a sequence the mailbox is closed iff it was closed already or some entry is a stop signal from self or parent |
| `Actors.NeverClosesTwiceIff` | actor/actor.go:50-72 | a dispatch run is free of the double-close fault iff at most one close happens, counting an already closed mailbox as one |
| `Brokers.Subscribe` | pubsub/broker.go:64-65 | subscribing appends the sender at the end of the topic's list (creating it if absent), keeps duplicates, and leaves every other topic unchanged |
| `Brokers.FanoutInOrder` | pubsub/broker.go:50-60 | a publish sends one copy per list entry, to that entry, in list order, with the original topic, content and sender |
| `Brokers.FanoutInbox` | pubsub/broker.go:50-60 | an actor receives one copy per occurrence in the list (two if it subscribed twice, none if not listed), each with the original topic, content and sender |
| `Brokers.RoutePreservesWellFormed` | pubsub/broker.go:64-65 | every topic in the table keeps a non-empty list, because keys are only created by appending |
| `Brokers.RouteSubscribe` | pubsub/broker.go:35-36 | a message with content "subscribe" registers its sender for its topic, sends nothing and changes no other topic |
| `Brokers.RoutePublish` | pubsub/broker.go:43-61 | a publish never changes the table; each actor gets as many copies as it has entries for the topic, all with the original topic, content and sender |
| `Brokers.LostBeforeSubscribe` | pubsub/broker.go:44-47 | a publish to a topic without subscribers sends nothing and changes nothing, and a later subscribe leaves the new subscriber alone in the list with nothing sent |
| `Brokers.SubscribeThenPublish` | pubsub/broker.go:32-40 | after a subscribe, the next publish to that topic sends one copy more than before, and the last one goes to the new subscriber |
| `Brokers.Broker.constructor` | pubsub/broker.go:16-20 | a new broker has an actor named "Broker" without a parent, an empty open mailbox, an empty table, and has not faulted |
| `Brokers.Broker.HandleSubscribeRequest` | pubsub/broker.go:64-67 | the table becomes the old table with the sender appended to the topic's list |
| `Brokers.Broker.HandlePublishRequest` | pubsub/broker.go:43-61 | the copies sent are the fan-out of the topic's list, none for an absent topic; each listed mailbox gets exactly its copies appended, in order, and stays open |
| `Brokers.Broker.Receive` | pubsub/broker.go:32-40 | the new table and the copies sent are those of routing the message; every subscribed mailbox gets exactly the copies addressed to it |
| `Brokers.Broker.Step` | pubsub/broker.go:22-26 | one turn of the broker's loop, allowed only while the broker has not faulted, takes the oldest entry; a message is routed; a stop signal faults the broker for good and changes nothing else; every mailbox gets exactly the copies addressed to it |
| `Publishers.Publisher.constructor` | pubsub/publisher.go:16-21 | a new publisher has an actor named "Publisher" without a parent, distinct from the broker's, and keeps the broker |
| `Publishers.Publisher.Publish` | pubsub/publisher.go:24-35 | exactly one message with the given topic and content, sent by the publisher's actor, is appended to the broker's mailbox; the publisher's own mailbox is unchanged |
| `Subscribers.Subscriber.constructor` | pubsub/subscriber.go:17-34 | a new subscriber has an actor named "Subscriber-" + topic without a parent and an empty mailbox, and exactly one subscribe request for its topic, sent by it, is appended to the broker's mailbox; the subscriber has not faulted |
| `Subscribers.Subscriber.Receive` | pubsub/subscriber.go:46-48 | handling a forwarded message changes no state |
| `Subscribers.Subscriber.StartConsuming` | pubsub/subscriber.go:37-43 | the loop, which cannot run once the subscriber has faulted, consumes the longest run of messages at the head of the mailbox, in order, and faults for good exactly when it meets a stop signal |
| `Scenarios.DeliveredAfterSubscribe` | pubsub/subscriber.go:24-31 | after a subscriber's request is handled, a later publish reaches it and is consumed exactly once, with the publisher as sender |
| `Scenarios.PublishBeforeSubscribe` | pubsub/broker.go:44-47 | a publish handled before any subscription is lost: the later subscriber is alone in the list and consumes nothing |
| `Scenarios.TwoSubscribers` | pubsub/broker.go:50-60 | two subscribers on one topic each consume their own copy, with identical topic, content and sender, stamped clock(0) and clock(1) |
| `Scenarios.PublisherSubscribes` | pubsub/publisher.go:27-34 | publishing the content "subscribe" registers the publisher itself once the broker handles it |
| `Scenarios.StrangerStopIgnored` | actor/actor.go:69-75 | a stop signal from an actor that is neither the target nor its parent is dispatched and leaves the target's mailbox open |
| `Scenarios.StopAuthorization` | actor/actor.go:48-75 | after a stranger's stop was ignored, the loop dispatches the parent's stop signal and then the message queued behind it, and the mailbox ends closed |

## Left out

- `main.go` is a demo harness of goroutines and sleeps with no logic of its own.
- Goroutines and channel blocking are not modelled. A full mailbox is a precondition of `Send` and `Stop`, not a wait. `Actors.Actor.Start` and `Subscribers.Subscriber.StartConsuming` run over what the mailbox holds now. Waiting on an empty open mailbox, and the loop ending once the mailbox is closed and empty, are not modelled.
- `NewBroker` starts its own loop, and `main.go` also calls `broker.Start()`. This gives two consumers on one mailbox, and the second uses the base handler. That race is a concurrency artefact and is not modelled. `Brokers.Broker.Step` is one turn of the broker's own loop.
- Logging (`log.Printf`) and `time.Sleep` are side effects with no state.
- `time.Now()` readings are parameters. The claim that forwarding stamps are no earlier than the publish's receipt depends on the wall clock and is not stated.
- The `MessageQueue` accessor is not a separate member: the model reads the mailbox field directly.
- After a panic (a fault in the broker or subscriber loop) the Go process dies. The model marks the broker or subscriber `faulted`, and its loop cannot take another turn; the other actors are not affected in the model, though in Go they die with the process.
- `interface{}` payloads other than strings are represented by `Other(int)`. The model does not cover dynamic types beyond "string or not".
