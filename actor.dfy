/**
 * Actors: named units with a bounded FIFO mailbox that can be closed,
 * messages and stop signals, and the dispatch loop of an actor.
 *
 * Actors are objects, and an actor's identity is its reference: the
 * stop-signal authorisation compares references, never names.
 */
module Actors {

  /** Capacity of every actor's mailbox (a buffered channel of 100 slots). */
  const Capacity: nat := 100

  /** A timestamp: an opaque clock reading supplied by the caller. */
  type Time = int

  /** Message payload. A string payload is `Text`; any other payload is `Other`. */
  datatype Content = Text(text: string) | Other(code: int)

  /** The envelope passed between actors. */
  datatype Message = Message(topic: string, content: Content, sender: Actor, timestamp: Time)

  /** A request to stop the receiving actor. */
  datatype StopSignal = StopSignal(sender: Actor)

  /** What a mailbox holds: a message or a stop signal. */
  datatype Entry = Msg(msg: Message) | Signal(signal: StopSignal)

  /** Only the actor itself or its parent may stop it. */
  predicate Authorized(sender: Actor, self: Actor, parent: Actor?)
  {
    sender == self || sender == parent
  }

  /** Dispatching `e` in `self`'s loop closes `self`'s mailbox. */
  predicate Closes(e: Entry, self: Actor, parent: Actor?)
  {
    e.Signal? && Authorized(e.signal.sender, self, parent)
  }

  /** Whether the mailbox is closed after dispatching `es`, starting from `closed`. */
  function ClosedAfter(es: seq<Entry>, closed: bool, self: Actor, parent: Actor?): bool
  {
    if es == [] then closed
    else ClosedAfter(es[1..], closed || Closes(es[0], self, parent), self, parent)
  }

  /**
   * Dispatching `es` in order never closes a mailbox that is already closed
   * (closing a closed channel is a run-time fault).
   */
  predicate NeverClosesTwice(es: seq<Entry>, closed: bool, self: Actor, parent: Actor?)
  {
    es == [] ||
    (!(closed && Closes(es[0], self, parent)) &&
     NeverClosesTwice(es[1..], closed || Closes(es[0], self, parent), self, parent))
  }

  /** The number of entries of `es` that close the mailbox. */
  function ClosingCount(es: seq<Entry>, self: Actor, parent: Actor?): nat
  {
    if es == [] then 0
    else (if Closes(es[0], self, parent) then 1 else 0) + ClosingCount(es[1..], self, parent)
  }

  /**
   * The mailbox ends up closed if and only if it was closed already or some
   * dispatched entry is an authorised stop signal; unauthorised signals and
   * messages never close it.
   */
  lemma {:induction false} ClosedAfterIff(es: seq<Entry>, closed: bool, self: Actor, parent: Actor?)
    ensures ClosedAfter(es, closed, self, parent) <==>
            closed || exists i :: 0 <= i < |es| && Closes(es[i], self, parent)
  {
    if es != [] {
      var c := closed || Closes(es[0], self, parent);
      ClosedAfterIff(es[1..], c, self, parent);
      if ClosedAfter(es, closed, self, parent) && !closed && !Closes(es[0], self, parent) {
        var i :| 0 <= i < |es[1..]| && Closes(es[1..][i], self, parent);
        assert Closes(es[i + 1], self, parent);
      }
      if exists i :: 0 <= i < |es| && Closes(es[i], self, parent) {
        var i :| 0 <= i < |es| && Closes(es[i], self, parent);
        if i > 0 {
          assert Closes(es[1..][i - 1], self, parent);
        }
      }
    }
  }

  /**
   * A dispatch run is free of double closes exactly when at most one close
   * happens in all: the mailbox's own state counts as one when already closed,
   * and so a second authorised stop signal is always a fault.
   */
  lemma {:induction false} NeverClosesTwiceIff(es: seq<Entry>, closed: bool, self: Actor, parent: Actor?)
    ensures NeverClosesTwice(es, closed, self, parent) <==>
            ClosingCount(es, self, parent) + (if closed then 1 else 0) <= 1
  {
    if es != [] {
      var c := closed || Closes(es[0], self, parent);
      NeverClosesTwiceIff(es[1..], c, self, parent);
    }
  }

  class Actor {
    const name: string
    const parent: Actor?
    var queue: seq<Entry>
    var closed: bool

    /** The mailbox never holds more than its capacity. */
    ghost predicate Valid()
      reads this
    {
      |queue| <= Capacity
    }

    /** A send to this actor neither blocks (mailbox full) nor faults (mailbox closed). */
    predicate CanAccept()
      reads this
    {
      !closed && |queue| < Capacity
    }

    /** NewActor: the given name and parent, an empty and open mailbox. */
    constructor (name: string, parent: Actor?)
      ensures this.name == name && this.parent == parent
      ensures queue == [] && !closed && Valid()
    {
      this.name := name;
      this.parent := parent;
      queue := [];
      closed := false;
    }

    function GetName(): (n: string)
      ensures n == name
    {
      name
    }

    /** Enqueues `m` at the end of `target`'s mailbox. */
    method Send(target: Actor, m: Message)
      requires target.Valid() && target.CanAccept()
      modifies target
      ensures target.Valid()
      ensures target.queue == old(target.queue) + [Msg(m)]
      ensures target.closed == old(target.closed)
    {
      target.queue := target.queue + [Msg(m)];
    }

    /** Enqueues a stop signal, sent by this actor, at the end of `target`'s mailbox. */
    method Stop(target: Actor)
      requires target.Valid() && target.CanAccept()
      modifies target
      ensures target.Valid()
      ensures target.queue == old(target.queue) + [Signal(StopSignal(this))]
      ensures target.closed == old(target.closed)
    {
      target.queue := target.queue + [Signal(StopSignal(this))];
    }

    /** The base message handler: it only logs, so it changes nothing. */
    method Receive(m: Message)
      ensures unchanged(this)
    {
    }

    /**
     * Closes the mailbox when the signal comes from this actor or its parent,
     * and ignores it otherwise. Queued entries are kept either way.
     */
    method HandleStopSignal(signal: StopSignal)
      requires Authorized(signal.sender, this, parent) ==> !closed
      modifies this
      ensures queue == old(queue)
      ensures closed == (old(closed) || Authorized(signal.sender, this, parent))
    {
      if signal.sender == this || signal.sender == parent {
        closed := true;
      }
    }

    /**
     * One turn of the dispatch loop: takes the oldest entry and hands it to
     * Receive or HandleStopSignal according to its kind.
     */
    method Step() returns (e: Entry)
      requires Valid() && queue != []
      requires !(closed && Closes(queue[0], this, parent))
      modifies this
      ensures Valid()
      ensures e == old(queue[0]) && queue == old(queue[1..])
      ensures closed == (old(closed) || Closes(e, this, parent))
    {
      e := queue[0];
      queue := queue[1..];
      match e
      case Msg(m) =>
        Receive(m);
      case Signal(s) =>
        HandleStopSignal(s);
    }

    /**
     * The loop started by Start, run over what the mailbox holds: every entry
     * is dispatched, in the order it was enqueued, even after a stop signal
     * has closed the mailbox.
     */
    method Start() returns (handled: seq<Entry>)
      requires Valid()
      requires NeverClosesTwice(queue, closed, this, parent)
      modifies this
      ensures Valid()
      ensures handled == old(queue) && queue == []
      ensures closed == ClosedAfter(old(queue), old(closed), this, parent)
    {
      handled := [];
      while queue != []
        invariant Valid()
        invariant handled + queue == old(queue)
        invariant NeverClosesTwice(queue, closed, this, parent)
        invariant ClosedAfter(queue, closed, this, parent) ==
                  ClosedAfter(old(queue), old(closed), this, parent)
        decreases |queue|
      {
        ghost var rest := queue[1..];
        var e := Step();
        assert queue == rest;
        handled := handled + [e];
      }
    }
  }
}
