/**
 The doubly linked list of subscribers of lab3/src/chunk/subscription.c.
 */
module SubscriberList {
  import opened Connection

  class Subscriber {
    const socket: Socket
    var chunkLoaded: nat
    var next: Subscriber?
    var prev: Subscriber?

    constructor (socket: Socket, prev: Subscriber?)
      ensures this.socket == socket && chunkLoaded == 0 && next == null && this.prev == prev
    {
      this.socket, chunkLoaded := socket, 0;
      next, this.prev := null, prev;
    }
  }

  class List {
    var first: Subscriber?
    var last: Subscriber?
    var count: nat
    ghost var subscribers: seq<Subscriber>

    ghost predicate Linked()
      reads this, subscribers
    {
      && count == |subscribers|
      && (forall i, j :: 0 <= i < j < |subscribers| ==> subscribers[i] != subscribers[j])
      && (forall i {:trigger subscribers[i].next} :: 0 <= i < |subscribers| ==>
          subscribers[i].next == if i + 1 < |subscribers| then subscribers[i + 1] else null)
      && (forall i {:trigger subscribers[i].prev} :: 0 <= i < |subscribers| ==>
          subscribers[i].prev == if i > 0 then subscribers[i - 1] else null)
      && first == (if subscribers == [] then null else subscribers[0])
      && last == (if subscribers == [] then null else subscribers[|subscribers| - 1])
    }

    constructor ()
      ensures Linked() && subscribers == []
    {
      first, last, count, subscribers := null, null, 0, [];
    }

    /** subscribe, under the lock: a new subscriber, who has nothing yet, at the end. */
    method Subscribe(fd: Socket)
      requires Linked()
      modifies this, (if last == null then {} else {last})`next
      ensures Linked() && |subscribers| == old(|subscribers|) + 1
      ensures subscribers[..old(|subscribers|)] == old(subscribers)
      ensures
        var joined := subscribers[old(|subscribers|)];
        fresh(joined) && joined.socket == fd && joined.chunkLoaded == 0
    {
      var subscriber := new Subscriber(fd, last);
      if first == null {
        first := subscriber;
      } else {
        last.next := subscriber;
      }
      last := subscriber;
      count := count + 1;
      subscribers := subscribers + [subscriber];
    }

    /** unsubscribe, under the locks: exactly this subscriber leaves the list, and the others keep their order. */
    method Unsubscribe(subscriber: Subscriber, ghost i: nat)
      requires Linked() && i < |subscribers| && subscribers[i] == subscriber
      modifies this, (if subscriber.prev == null then {} else {subscriber.prev})`next
      modifies (if subscriber.next == null then {} else {subscriber.next})`prev
      ensures Linked() && subscribers == old(subscribers)[..i] + old(subscribers)[i + 1..]
    {
      var next, prev := subscriber.next, subscriber.prev;
      if next == null && prev == null {
        first, last := null, null;
      } else {
        if next == null {
          last := prev;
          prev.next := null;
        } else {
          next.prev := prev;
        }
        if prev == null {
          first := next;
          next.prev := null;
        } else {
          prev.next := next;
        }
      }
      count := count - 1;
      subscribers := subscribers[..i] + subscribers[i + 1..];
    }

    /** finish_pending_chunks: everybody leaves. */
    method FinishPending()
      requires Linked()
      modifies this, subscribers
      ensures Linked() && subscribers == [] && first == null && last == null && count == 0
    {
      var subscriber := first;
      while subscriber != null
        invariant Linked() && subscriber == first
        invariant forall c :: c in subscribers ==> c in old(subscribers)
        decreases |subscribers|
      {
        var next := subscriber.next;
        assert subscriber == subscribers[0] && subscriber.prev == null && (next == null || next == subscribers[1]);
        assert next != null ==> next in subscribers;
        Unsubscribe(subscriber, 0);
        subscriber := next;
      }
    }
  }
}
