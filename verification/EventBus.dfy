/** The in-process event bus: numbering, the bounded replay buffer and the bounded subscriber queues. */
module Bus {
  import opened Prelude

  const REPLAY_BUFFER_SIZE: nat := 500

  type Capacity = n: nat | n > 0 witness 1

  /** The queue of an SSE connection or of a plain subscriber; other subscribers have queues of other sizes. */
  const QUEUE_SIZE: Capacity := 100

  /** `seqNo` counts publications from 1; `data` is the serialised payload. */
  datatype Event = Event(seqNo: nat, kind: string, data: string)

  datatype Item = Published(event: Event) | Shutdown

  datatype BusState = BusState(sequence: nat, replay: seq<Event>, shuttingDown: bool)

  const EMPTY_BUS := BusState(0, [], false)

  function NextEvent(bus: BusState, kind: string, data: string): Event {
    Event(bus.sequence + 1, kind, data)
  }

  /** What one publication does to the bus itself. */
  function Append(bus: BusState, kind: string, data: string): BusState {
    if bus.shuttingDown then bus
    else BusState(bus.sequence + 1, LastN(bus.replay + [NextEvent(bus, kind, data)], REPLAY_BUFFER_SIZE), false)
  }

  /** What one publication does to a subscriber's queue: a full queue loses its oldest item. */
  function Offer(capacity: Capacity, queue: seq<Item>, item: Item): seq<Item> {
    (if |queue| < capacity then queue else queue[1..]) + [item]
  }

  /** The shutdown sentinel never displaces an event. */
  function OfferShutdown(capacity: Capacity, queue: seq<Item>): seq<Item> {
    if |queue| < capacity then queue + [Shutdown] else queue
  }

  function ReplaySince(replay: seq<Event>, cursor: int): (missed: seq<Event>)
  {
    if replay == [] then []
    else (if replay[0].seqNo > cursor then [replay[0]] else []) + ReplaySince(replay[1..], cursor)
  }

  class SubscriberQueue {
    var items: seq<Item>
    const capacity: Capacity

    constructor (capacity: Capacity)
      ensures items == [] && this.capacity == capacity
    {
      items := [];
      this.capacity := capacity;
    }

    /** `put_nowait`, dropping the oldest item when the queue is full. */
    method Put(item: Item)
      modifies this
      ensures items == Offer(capacity, old(items), item)
    {
      if |items| >= capacity {
        items := items[1..];
      }
      items := items + [item];
    }

    method PutShutdown()
      modifies this
      ensures items == OfferShutdown(capacity, old(items))
    {
      if |items| < capacity {
        items := items + [Shutdown];
      }
    }
  }

  class EventBus {
    var subscribers: set<SubscriberQueue>
    var sequence: nat
    var replay: seq<Event>
    var shuttingDown: bool

    function State(): BusState
      reads this
    {
      BusState(sequence, replay, shuttingDown)
    }

    constructor ()
      ensures subscribers == {} && State() == EMPTY_BUS
    {
      subscribers, sequence, replay, shuttingDown := {}, 0, [], false;
    }

    method Publish(kind: string, data: string)
      modifies this, subscribers
      ensures subscribers == old(subscribers)
      ensures State() == Append(old(State()), kind, data)
      ensures old(shuttingDown) ==> forall q :: q in subscribers ==> q.items == old(q.items)
      ensures !old(shuttingDown) ==> forall q :: q in subscribers ==>
                q.items == Offer(q.capacity, old(q.items), Published(NextEvent(old(State()), kind, data)))
    {
      if shuttingDown {
        return;
      }
      sequence := sequence + 1;
      var payload := Event(sequence, kind, data);
      replay := replay + [payload];
      if |replay| > REPLAY_BUFFER_SIZE {
        replay := replay[|replay| - REPLAY_BUFFER_SIZE..];
      }
      Deliver(Published(payload));
    }

    method Deliver(item: Item)
      modifies subscribers
      ensures forall q :: q in subscribers ==> q.items == Offer(q.capacity, old(q.items), item)
    {
      var todo := subscribers;
      while todo != {}
        invariant todo <= subscribers
        invariant forall q :: q in todo ==> q.items == old(q.items)
        invariant forall q :: q in subscribers - todo ==> q.items == Offer(q.capacity, old(q.items), item)
        decreases |todo|
      {
        var queue :| queue in todo;
        queue.Put(item);
        todo := todo - {queue};
      }
    }

    method Stop()
      modifies this`shuttingDown, subscribers
      ensures State() == old(State()).(shuttingDown := true)
      ensures forall q :: q in subscribers ==> q.items == OfferShutdown(q.capacity, old(q.items))
    {
      shuttingDown := true;
      var todo := subscribers;
      while todo != {}
        invariant todo <= subscribers
        invariant forall q :: q in todo ==> q.items == old(q.items)
        invariant forall q :: q in subscribers - todo ==> q.items == OfferShutdown(q.capacity, old(q.items))
        modifies subscribers
        decreases |todo|
      {
        var queue :| queue in todo;
        queue.PutShutdown();
        todo := todo - {queue};
      }
    }
  }

  // ---------------------------------------------------------------------------
  // The bus as a window on the full history of publications
  // ---------------------------------------------------------------------------

  /** `log` is everything ever published, in order. */
  ghost predicate Numbered(log: seq<Event>) {
    forall i :: 0 <= i < |log| ==> log[i].seqNo == i + 1
  }

  ghost predicate Records(bus: BusState, log: seq<Event>) {
    Numbered(log) && bus.sequence == |log| && bus.replay == LastN(log, REPLAY_BUFFER_SIZE)
  }

  /** Position in the history from which a reconnection with `cursor` is replayed. */
  function ReplayFrom(published: nat, cursor: int): (first: nat)
    ensures first <= published
  {
    Min(published, Max(0, Max(cursor, published - REPLAY_BUFFER_SIZE)))
  }

  lemma AppendRecords(bus: BusState, log: seq<Event>, kind: string, data: string)
    requires Records(bus, log) && !bus.shuttingDown
    ensures Records(Append(bus, kind, data), log + [NextEvent(bus, kind, data)])
  {
    var e := NextEvent(bus, kind, data);
    if |log| >= REPLAY_BUFFER_SIZE {
      assert bus.replay + [e] == (log + [e])[|log| - REPLAY_BUFFER_SIZE..];
    }
  }

  lemma {:induction false} ReplaySinceSlice(log: seq<Event>, from: nat, cursor: int)
    requires Numbered(log) && from <= |log|
    ensures ReplaySince(log[from..], cursor) == log[Min(|log|, Max(from, cursor))..]
    decreases |log| - from
  {
    if from < |log| {
      assert log[from..][1..] == log[from + 1..];
      ReplaySinceSlice(log, from + 1, cursor);
      if cursor < from + 1 {
        assert log[from..] == [log[from]] + log[from + 1..];
      }
    } else {
      assert log[from..] == [];
    }
  }

  /** The replay is a contiguous tail of the history: everything after the cursor that is still retained. */
  lemma ReplayIsTail(bus: BusState, log: seq<Event>, cursor: int)
    requires Records(bus, log)
    ensures ReplaySince(bus.replay, cursor) == log[ReplayFrom(|log|, cursor)..]
  {
    var from := if |log| <= REPLAY_BUFFER_SIZE then 0 else |log| - REPLAY_BUFFER_SIZE;
    assert log[0..] == log;
    ReplaySinceSlice(log, from, cursor);
  }

  /** The buffer holds the last 500 events, or all if there are fewer. */
  lemma RetainsExactly(bus: BusState, log: seq<Event>, e: Event)
    requires Records(bus, log)
    ensures |bus.replay| == Min(|log|, 500)
    ensures e in bus.replay <==> e in log && e.seqNo > |log| - 500
  {
    var from := Max(0, |log| - 500);
    assert bus.replay == log[from..];
    if e in log && e.seqNo > |log| - 500 {
      var i :| 0 <= i < |log| && log[i] == e;
      assert log[from..][i - from] == e;
    }
  }
}
