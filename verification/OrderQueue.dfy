/** The order queue: orders wait in a channel of bounded length, at most once each, and an
    order that was handed to a worker may not be queued again before a delay has passed. */
module OrderQueue {
  import opened Basics
  import opened Batching

  // ----- The queue as its methods leave it -----

  /** The answer QueueOrder gives for a requeue table, by the clock alone. */
  predicate MayRequeue(requeueTime: map<OrderId, int>, id: OrderId, now: int) {
    id !in requeueTime || now >= requeueTime[id]
  }

  function Live(requeueTime: map<OrderId, int>, now: int): map<OrderId, int> {
    map id | id in requeueTime && now <= requeueTime[id] :: requeueTime[id]
  }

  /** Dropping what has run out changes no answer from then on. */
  lemma DroppedAreOver(requeueTime: map<OrderId, int>, now: int, id: OrderId, later: int)
    requires later >= now
    ensures MayRequeue(Live(requeueTime, now), id, later) == MayRequeue(requeueTime, id, later)
  {
  }

  class OrderQueue {
    const capacity: nat
    const requeueDelay: int
    var requeueTime: map<OrderId, int>
    var inQueue: set<OrderId>
    var channel: seq<OrderId>

    /** With no pop under way the in-queue map and the channel agree. */
    ghost predicate Valid()
      reads this
    {
      && |channel| <= capacity
      && (forall i, j :: 0 <= i < j < |channel| ==> channel[i] != channel[j])
      && (forall id :: id in inQueue <==> id in channel)
    }

    constructor (requeueDelay: int, capacity: nat)
      ensures Valid() && channel == [] && requeueTime == map[]
      ensures this.requeueDelay == requeueDelay && this.capacity == capacity
    {
      this.requeueDelay, this.capacity := requeueDelay, capacity;
      requeueTime, inQueue, channel := map[], {}, [];
    }

    method QueueOrder(id: OrderId, now: int) returns (queued: bool)
      requires Valid()
      modifies this`inQueue, this`channel
      ensures Valid()
      ensures queued <==> id !in old(channel) && MayRequeue(requeueTime, id, now) && |old(channel)| < capacity
      ensures channel == old(channel) + if queued then [id] else []
    {
      if id in inQueue {
        return false;
      }
      if id in requeueTime && now < requeueTime[id] {
        return false;
      }
      if |channel| >= capacity {
        return false;
      }
      channel := channel + [id];
      inQueue := inQueue + {id};
      queued := true;
    }

    /** A pop from start to end, with nothing in between: the order that has waited longest. */
    method PopOrder(now: int) returns (id: OrderId)
      requires Valid() && channel != []
      modifies this
      ensures Valid() && [id] + channel == old(channel)
      ensures requeueTime == old(requeueTime)[id := now + requeueDelay]
    {
      id := channel[0];
      channel := channel[1..];
      requeueTime := requeueTime[id := now + requeueDelay];
      inQueue := inQueue - {id};
      assert old(channel) == [id] + channel;
      forall x ensures x in inQueue <==> x in channel {
        assert x in old(channel) <==> x == id || x in channel;
      }
    }

    /** The cleanup loop, over the table in any order, leaves exactly what has not run out,
        and so no answer given from now on depends on whether it was made. */
    method Cleanup(now: int)
      modifies this`requeueTime
      ensures requeueTime == Live(old(requeueTime), now)
      ensures forall id, later :: later >= now ==>
              MayRequeue(requeueTime, id, later) == MayRequeue(old(requeueTime), id, later)
    {
      ghost var before := requeueTime;
      var order := AnyOrder(requeueTime.Keys);
      for i := 0 to |order|
        invariant forall id :: id in requeueTime <==> id in before && (id in order[..i] ==> now <= before[id])
        invariant forall id :: id in requeueTime ==> requeueTime[id] == before[id]
      {
        var id := order[i];
        assert id in order;
        assert order[..i + 1] == order[..i] + [id];
        if id in requeueTime && now > requeueTime[id] {
          requeueTime := requeueTime - {id};
        }
      }
      assert order[..|order|] == order;
      assert forall id :: id in before ==> id in order;
      forall id, later | later >= now ensures MayRequeue(requeueTime, id, later) == MayRequeue(before, id, later) {
        DroppedAreOver(before, now, id, later);
      }
    }
  }
}
