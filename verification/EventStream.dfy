/**
 * One SSE connection: subscribe, replay, sync, then live delivery.
 *
 * A step is everything the generator does between two suspension points: a `yield`, or waiting for the queue.
 */
module Stream {
  import opened Prelude
  import opened Bus

  /** The resolved `Last-Event-ID`: missing, not an integer, or an integer. */
  datatype Cursor = Absent | Unreadable | At(n: int)

  datatype Frame = Data(event: Event) | Sync(seqNo: nat, keepalive: bool)

  /** `Replaying(missed, next)`: suspended at the yield of `missed[next]`. */
  datatype Phase = Created | Replaying(missed: seq<Event>, next: nat) | Live | Closed

  datatype Conn = Conn(phase: Phase, queue: seq<Item>, replayedUpTo: nat)

  function StartConn(bus: BusState, cursor: Cursor): (Conn, Option<Frame>) {
    var missed := if cursor.At? then ReplaySince(bus.replay, cursor.n) else [];
    if missed == [] then (Conn(Live, [], 0), Some(Sync(bus.sequence, false)))
    else (Conn(Replaying(missed, 0), [], 0), Some(Data(missed[0])))
  }

  function ResumeConn(c: Conn, bus: BusState): (Conn, Option<Frame>) {
    if c.phase.Replaying? && c.phase.next < |c.phase.missed| then
      var c' := c.(replayedUpTo := Max(c.replayedUpTo, c.phase.missed[c.phase.next].seqNo));
      var next := c.phase.next + 1;
      if next < |c.phase.missed|
      then (c'.(phase := Replaying(c.phase.missed, next)), Some(Data(c.phase.missed[next])))
      else (c'.(phase := Live), Some(Sync(bus.sequence, false)))
    else if c.phase.Live? && c.queue != [] then
      var c' := c.(queue := c.queue[1..]);
      match c.queue[0]
      case Shutdown => (c'.(phase := Closed), None)
      case Published(event) =>
        if event.seqNo != 0 && event.seqNo <= c.replayedUpTo then (c', None) else (c', Some(Data(event)))
    else (c, None)
  }

  function KeepaliveConn(c: Conn, bus: BusState): (Conn, Option<Frame>) {
    if c.phase.Live? && c.queue == [] then (c, Some(Sync(bus.sequence, true))) else (c, None)
  }

  class EventStream {
    const bus: EventBus
    const queue: SubscriberQueue
    var missed: seq<Event>
    var next: nat
    var replayedUpTo: nat
    var started: bool
    var replaying: bool
    var closed: bool

    constructor (bus: EventBus)
      ensures this.bus == bus && fresh(queue) && queue.capacity == QUEUE_SIZE && View() == Conn(Created, [], 0)
    {
      this.bus := bus;
      queue := new SubscriberQueue(QUEUE_SIZE);
      missed, next, replayedUpTo := [], 0, 0;
      started, replaying, closed := false, false, false;
    }

    function View(): Conn
      reads this, queue
    {
      Conn(if closed then Closed
           else if !started then Created
           else if replaying then Replaying(missed, next)
           else Live,
           queue.items, replayedUpTo)
    }

    /** Runs the generator up to its first `yield`. */
    method Start(cursor: Cursor) returns (frame: Option<Frame>)
      requires View() == Conn(Created, [], 0)
      modifies this, bus
      ensures (View(), frame) == StartConn(old(bus.State()), cursor)
      ensures bus.State() == old(bus.State()) && bus.subscribers == old(bus.subscribers) + {queue}
    {
      bus.subscribers := bus.subscribers + {queue};
      started, replaying := true, false;
      if cursor.At? {
        missed, next := ReplaySince(bus.replay, cursor.n), 0;
        if missed != [] {
          replaying := true;
          return Some(Data(missed[0]));
        }
      }
      return Some(Sync(bus.sequence, false));
    }

    /** Resumes after a `yield`, or delivers the item that `queue.get()` was waiting for. */
    method Resume() returns (frame: Option<Frame>)
      requires View().phase.Replaying? ==> next < |missed|
      requires View().phase.Live? ==> queue.items != []
      modifies this, queue, bus`subscribers
      ensures (View(), frame) == ResumeConn(old(View()), bus.State())
      ensures bus.subscribers == if closed && !old(closed) then old(bus.subscribers) - {queue} else old(bus.subscribers)
    {
      frame := None;
      if closed || !started {
        return;
      }
      if replaying {
        replayedUpTo := Max(replayedUpTo, missed[next].seqNo);
        next := next + 1;
        if next < |missed| {
          return Some(Data(missed[next]));
        }
        replaying := false;
        return Some(Sync(bus.sequence, false));
      }
      var item := queue.items[0];
      queue.items := queue.items[1..];
      if item == Shutdown {
        Close();
        return;
      }
      if item.event.seqNo != 0 && item.event.seqNo <= replayedUpTo {
        return;
      }
      return Some(Data(item.event));
    }

    /** `wait_for` gave up: nothing arrived for 30 seconds. */
    method TimeOut() returns (frame: Option<Frame>)
      requires View().phase.Live? && queue.items == []
      ensures (View(), frame) == KeepaliveConn(View(), bus.State())
    {
      return Some(Sync(bus.sequence, true));
    }

    /** The `finally` clause. */
    method Close()
      modifies this`closed, bus`subscribers
      ensures View() == old(View()).(phase := Closed) && bus.subscribers == old(bus.subscribers) - {queue}
    {
      closed := true;
      bus.subscribers := bus.subscribers - {queue};
    }
  }

  // ---------------------------------------------------------------------------
  // Runs: one connection, interleaved with publications in any order
  // ---------------------------------------------------------------------------

  function Events(queue: seq<Item>): seq<Event> {
    if queue == [] then []
    else (if queue[0].Published? then [queue[0].event] else []) + Events(queue[1..])
  }

  /** A frame handed to the client; `before`: data frames sent earlier; `waiting`: events still queued behind it. */
  datatype Sent = Sent(frame: Frame, before: nat, waiting: nat)

  /**
   * `log`: every event ever published; `past`: those published before the subscription;
   * `snapshot`: the replay, of which `replayed` frames have been sent; `live`: the events sent after the replay;
   * `taken`: everything that has left the queue; `dropped`: the part of it that overflow discarded.
   */
  datatype System = System(
    bus: BusState, conn: Conn, sent: seq<Sent>,
    log: seq<Event>, past: seq<Event>, snapshot: seq<Event>, replayed: nat,
    taken: seq<Event>, live: seq<Event>, dropped: seq<Event>)

  datatype Action = Publish(kind: string, data: string) | Stop | Resume | Keepalive | Disconnect

  /** Records a frame that the generator yielded, if any; in the live phase a data frame carries a live event. */
  function Emit(s: System, result: (Conn, Option<Frame>)): System {
    match result.1
    case None => s.(conn := result.0)
    case Some(frame) =>
      s.(conn := result.0,
         sent := s.sent + [Sent(frame, s.replayed + |s.live|, |Events(result.0.queue)|)],
         replayed := if frame.Data? && !s.conn.phase.Live? then s.replayed + 1 else s.replayed,
         live := if frame.Data? && s.conn.phase.Live? then s.live + [frame.event] else s.live)
  }

  function Open(bus: BusState, log: seq<Event>, cursor: Cursor): System {
    var snapshot := if cursor.At? then log[ReplayFrom(|log|, cursor.n)..] else [];
    Emit(System(bus, Conn(Created, [], 0), [], log, log, snapshot, 0, [], [], []), StartConn(bus, cursor))
  }

  predicate Overflows(s: System, a: Action) {
    a.Publish? && !s.bus.shuttingDown && !s.conn.phase.Closed? && |s.conn.queue| >= QUEUE_SIZE
  }

  function Step(s: System, a: Action): System {
    match a
    case Publish(kind, data) =>
      if s.bus.shuttingDown then s
      else
        var e := NextEvent(s.bus, kind, data);
        var s' := s.(bus := Append(s.bus, kind, data), log := s.log + [e]);
        if s.conn.phase.Closed? then s'
        else
          var lost := if Overflows(s, a) then Events(s.conn.queue[..1]) else [];
          s'.(conn := s.conn.(queue := Offer(QUEUE_SIZE, s.conn.queue, Published(e))),
              taken := s.taken + lost,
              dropped := s.dropped + lost)
    case Stop =>
      var s' := s.(bus := s.bus.(shuttingDown := true));
      if s.conn.phase.Closed? then s' else s'.(conn := s.conn.(queue := OfferShutdown(QUEUE_SIZE, s.conn.queue)))
    case Resume =>
      var got := if s.conn.phase.Live? && s.conn.queue != [] then Events(s.conn.queue[..1]) else [];
      Emit(s, ResumeConn(s.conn, s.bus)).(taken := s.taken + got)
    case Keepalive => Emit(s, KeepaliveConn(s.conn, s.bus))
    case Disconnect => s.(conn := s.conn.(phase := Closed))
  }

  function Run(s: System, actions: seq<Action>): System
    decreases |actions|
  {
    if actions == [] then s else Run(Step(s, actions[0]), actions[1..])
  }

  /** The events of the data frames sent so far, in order. */
  function Delivered(s: System): seq<Event> {
    s.snapshot[..Min(s.replayed, |s.snapshot|)] + s.live
  }

  // ---------------------------------------------------------------------------
  // The invariant
  // ---------------------------------------------------------------------------

  ghost predicate Increasing(events: seq<Event>) {
    forall i, j :: 0 <= i < j < |events| ==> events[i].seqNo < events[j].seqNo
  }

  /** The snapshot is a tail of the past. */
  ghost predicate Snapshots(s: System) {
    && |s.snapshot| <= |s.past|
    && s.snapshot == s.past[|s.past| - |s.snapshot|..]
    && Numbered(s.past)
  }

  /** Everything published since the subscription was taken off the queue, in order, or is still in it. */
  ghost predicate Conserves(s: System) {
    && (s.conn.phase.Closed? ==> s.past + s.taken <= s.log)
    && (!s.conn.phase.Closed? ==>
          && s.log == s.past + s.taken + Events(s.conn.queue)
          && (!s.bus.shuttingDown ==> |s.conn.queue| == |Events(s.conn.queue)|))
  }

  ghost predicate Progress(s: System) {
    && s.replayed <= |s.snapshot|
    && s.conn.replayedUpTo <= |s.past|
    && (s.live != [] ==> s.replayed == |s.snapshot|)
    && !s.conn.phase.Created?
    && (s.conn.phase.Live? ==> s.replayed == |s.snapshot|)
    && (s.conn.phase.Replaying? ==>
          s.conn.phase.missed == s.snapshot && s.replayed == s.conn.phase.next + 1 && s.live == [])
  }

  ghost predicate LiveOrdered(s: System) {
    && Increasing(s.live)
    && forall i :: 0 <= i < |s.live| ==> |s.past| < s.live[i].seqNo <= |s.past| + |s.taken|
  }

  ghost predicate Framing(s: System, k: nat)
    requires Progress(s) && k < |s.sent|
  {
    var x := s.sent[k];
    && x.before <= s.replayed + |s.live|
    && (x.frame.Data? ==>
          && x.before < s.replayed + |s.live|
          && x.frame.event == if x.before < s.replayed then s.snapshot[x.before] else s.live[x.before - s.replayed])
    && (x.frame.Sync? ==>
          && |s.past| <= x.frame.seqNo <= |s.log|
          && (x.waiting > 0 ==> s.snapshot != [] && !x.frame.keepalive)
          && (s.dropped == [] ==> x.frame.seqNo == |s.past| - |s.snapshot| + x.before + x.waiting))
  }

  function After(x: Sent): nat {
    if x.frame.Data? then x.before + 1 else x.before
  }

  /** The data frames carry exactly `Delivered`; a sync frame names the last event sent plus those still queued. */
  ghost predicate Framed(s: System)
    requires Progress(s)
  {
    && s.sent != [] && s.sent[0].before == 0
    && (forall j, k :: 0 <= j < k < |s.sent| && k == j + 1 ==> s.sent[k].before == After(s.sent[j]))
    && s.replayed + |s.live| == After(s.sent[|s.sent| - 1])
    && (forall k :: 0 <= k < |s.sent| ==> Framing(s, k))
  }

  ghost predicate Inv(s: System) {
    && Records(s.bus, s.log)
    && Snapshots(s)
    && Conserves(s)
    && Progress(s)
    && LiveOrdered(s)
    && Framed(s)
    && Interleaving(s.live, s.dropped, s.taken)
  }

  lemma {:induction false} EventsAppend(q: seq<Item>, item: Item)
    ensures Events(q + [item]) == Events(q) + if item.Published? then [item.event] else []
  {
    if q != [] {
      assert (q + [item])[1..] == q[1..] + [item];
      EventsAppend(q[1..], item);
    } else {
      assert (q + [item])[1..] == [];
    }
  }

  /** The head of the queue splits off. */
  lemma EventsHead(q: seq<Item>)
    requires q != []
    ensures Events(q) == Events(q[..1]) + Events(q[1..])
    ensures Events(q[..1]) == if q[0].Published? then [q[0].event] else []
  {
    assert q[..1][1..] == [];
  }

  lemma {:induction false} EventsBound(q: seq<Item>)
    ensures |Events(q)| <= |q|
    ensures |Events(q)| == |q| && q != [] ==> q[0].Published?
  {
    if q != [] { EventsBound(q[1..]); }
  }

  // ---------------------------------------------------------------------------
  // Every step keeps the invariant
  // ---------------------------------------------------------------------------

  lemma OpenInv(bus: BusState, log: seq<Event>, cursor: Cursor)
    requires Records(bus, log)
    ensures Inv(Open(bus, log, cursor))
    ensures Open(bus, log, cursor).dropped == []
  {
    if cursor.At? {
      ReplayIsTail(bus, log, cursor.n);
    }
    var s := Open(bus, log, cursor);
    assert log == log + [] + [];
    assert Framing(s, 0);
  }

  lemma PublishConserves(s: System, kind: string, data: string)
    requires Conserves(s) && !s.bus.shuttingDown
    ensures Conserves(Step(s, Publish(kind, data)))
  {
    var e := NextEvent(s.bus, kind, data);
    var q := s.conn.queue;
    if !s.conn.phase.Closed? {
      if |q| < QUEUE_SIZE {
        EventsAppend(q, Published(e));
      } else {
        EventsBound(q);
        EventsHead(q);
        EventsAppend(q[1..], Published(e));
      }
    }
  }

  lemma PublishInterleaves(s: System, kind: string, data: string)
    requires Interleaving(s.live, s.dropped, s.taken) && !s.bus.shuttingDown
    requires !s.conn.phase.Closed? ==> |s.conn.queue| == |Events(s.conn.queue)|
    ensures var s' := Step(s, Publish(kind, data)); Interleaving(s'.live, s'.dropped, s'.taken)
  {
    if Overflows(s, Publish(kind, data)) {
      EventsBound(s.conn.queue);
      EventsHead(s.conn.queue);
    } else {
      assert s.taken + [] == s.taken && s.dropped + [] == s.dropped;
    }
  }

  lemma PublishInv(s: System, kind: string, data: string)
    requires Inv(s) && !s.bus.shuttingDown
    ensures Inv(Step(s, Publish(kind, data)))
  {
    AppendRecords(s.bus, s.log, kind, data);
    PublishConserves(s, kind, data);
    PublishInterleaves(s, kind, data);
    FramesPersist(s, Step(s, Publish(kind, data)));
  }

  /** Framing looks at nothing but the sent frames and what was delivered; a drop only weakens it. */
  lemma FramesPersist(s: System, s': System)
    requires Progress(s) && Framed(s) && Progress(s')
    requires |s.log| <= |s'.log| && s'.sent == s.sent && s'.snapshot == s.snapshot && s'.past == s.past
    requires s'.replayed == s.replayed && s'.live == s.live && (s'.dropped == [] ==> s.dropped == [])
    ensures Framed(s')
  {
    forall k | 0 <= k < |s'.sent| ensures Framing(s', k) {
      assert Framing(s, k);
    }
  }

  /** A new frame at the end. */
  lemma FramesGrow(s: System, s': System, x: Sent)
    requires Progress(s) && Framed(s) && Progress(s')
    requires s'.log == s.log && s'.sent == s.sent + [x] && s'.snapshot == s.snapshot && s'.past == s.past && s'.dropped == s.dropped
    requires s.replayed <= s'.replayed && s.live <= s'.live
    requires x.before == s.replayed + |s.live| && After(x) == s'.replayed + |s'.live|
    requires s'.replayed > s.replayed ==> s.live == []
    requires Framing(s', |s.sent|)
    ensures Framed(s')
  {
    forall k | 0 <= k < |s'.sent| ensures Framing(s', k) {
      if k < |s.sent| {
        assert Framing(s, k);
        assert s'.sent[k] == s.sent[k];
      }
    }
  }

  lemma StopConserves(s: System)
    requires Conserves(s)
    ensures Conserves(Step(s, Stop))
  {
    EventsAppend(s.conn.queue, Shutdown);
  }

  lemma StopInv(s: System)
    requires Inv(s)
    ensures Inv(Step(s, Stop))
  {
    StopConserves(s);
    FramesPersist(s, Step(s, Stop));
  }

  lemma ReplayStepInv(s: System)
    requires Inv(s) && s.conn.phase.Replaying?
    ensures Inv(Step(s, Resume))
  {
    var s' := Step(s, Resume);
    InterleavingCounts([], s.dropped, s.taken);
    assert s.taken + [] == s.taken;
    FramesGrow(s, s', s'.sent[|s.sent|]);
  }

  /** Deduplication never fires: an event in the queue is newer than everything replayed. */
  lemma QueueIsNew(s: System)
    requires Inv(s) && s.conn.phase.Live? && s.conn.queue != [] && s.conn.queue[0].Published?
    ensures s.conn.queue[0].event.seqNo == |s.past| + |s.taken| + 1
    ensures s.conn.queue[0].event.seqNo > s.conn.replayedUpTo
  {
    EventsHead(s.conn.queue);
    assert s.log[|s.past| + |s.taken|] == s.conn.queue[0].event;
  }

  lemma LiveConserves(s: System)
    requires Conserves(s) && s.conn.phase.Live? && s.conn.queue != []
    ensures Conserves(Step(s, Resume))
  {
    var q := s.conn.queue;
    EventsHead(q);
    EventsBound(q);
    EventsBound(q[1..]);
    assert s.past + (s.taken + Events(q[..1])) + Events(q[1..]) == s.past + s.taken + Events(q);
  }

  lemma LiveDataStep(s: System)
    requires s.conn.phase.Live? && s.conn.queue != [] && s.conn.queue[0].Published?
    requires s.conn.queue[0].event.seqNo > s.conn.replayedUpTo
    ensures var e := s.conn.queue[0].event;
            var rest := s.conn.queue[1..];
            Step(s, Resume) == s.(
              conn := s.conn.(queue := rest),
              sent := s.sent + [Sent(Data(e), s.replayed + |s.live|, |Events(rest)|)],
              live := s.live + [e],
              taken := s.taken + [e])
  {
    EventsHead(s.conn.queue);
  }

  lemma LiveDataFrames(s: System)
    requires Progress(s) && LiveOrdered(s) && Framed(s)
    requires s.conn.phase.Live? && s.conn.queue != [] && s.conn.queue[0].Published?
    requires s.conn.queue[0].event.seqNo == |s.past| + |s.taken| + 1 > s.conn.replayedUpTo
    ensures var s' := Step(s, Resume); Progress(s') && LiveOrdered(s') && Framed(s')
  {
    LiveDataStep(s);
    LiveDataHistory(s, Step(s, Resume), s.conn.queue[0].event);
  }

  lemma LiveDataInv(s: System)
    requires Inv(s) && s.conn.phase.Live? && s.conn.queue != [] && s.conn.queue[0].Published?
    ensures Inv(Step(s, Resume))
  {
    QueueIsNew(s);
    LiveConserves(s);
    LiveDataFrames(s);
    LiveDataStep(s);
  }

  lemma LiveDataHistory(s: System, s': System, e: Event)
    requires Progress(s) && LiveOrdered(s) && Framed(s)
    requires s.conn.phase.Live? && e.seqNo == |s.past| + |s.taken| + 1
    requires s' == s.(conn := s'.conn, sent := s'.sent, live := s.live + [e], taken := s.taken + [e])
    requires s'.conn == s.conn.(queue := s'.conn.queue)
    requires |s'.sent| == |s.sent| + 1 && s'.sent[|s.sent|].frame == Data(e)
    requires s'.sent[|s.sent|].before == s.replayed + |s.live| && s'.sent[..|s.sent|] == s.sent
    ensures Progress(s') && LiveOrdered(s') && Framed(s')
  {
    FramesGrow(s, s', s'.sent[|s.sent|]);
  }

  lemma LiveShutdownInv(s: System)
    requires Inv(s) && s.conn.phase.Live? && s.conn.queue != [] && s.conn.queue[0].Shutdown?
    ensures Inv(Step(s, Resume))
  {
    EventsHead(s.conn.queue);
    var s' := s.(conn := s.conn.(queue := s.conn.queue[1..], phase := Closed));
    assert s.taken + [] == s.taken;
    assert Step(s, Resume) == s';
    FramesPersist(s, s');
  }

  lemma LiveStepInv(s: System)
    requires Inv(s) && s.conn.phase.Live? && s.conn.queue != []
    ensures Inv(Step(s, Resume))
  {
    if s.conn.queue[0].Published? {
      LiveDataInv(s);
    } else {
      LiveShutdownInv(s);
    }
  }

  lemma KeepaliveInv(s: System)
    requires Inv(s) && s.conn.phase.Live? && s.conn.queue == []
    ensures Inv(Step(s, Keepalive))
  {
    var s' := Step(s, Keepalive);
    InterleavingCounts(s.live, s.dropped, s.taken);
    FramesGrow(s, s', s'.sent[|s.sent|]);
  }

  lemma StepInv(s: System, a: Action)
    requires Inv(s)
    ensures Inv(Step(s, a))
  {
    match a
    case Publish(kind, data) => if !s.bus.shuttingDown { PublishInv(s, kind, data); }
    case Stop => StopInv(s);
    case Resume =>
      if s.conn.phase.Replaying? { ReplayStepInv(s); }
      else if s.conn.phase.Live? && s.conn.queue != [] { LiveStepInv(s); }
      else { assert s.taken + [] == s.taken; }
    case Keepalive => if s.conn.phase.Live? && s.conn.queue == [] { KeepaliveInv(s); }
    case Disconnect => FramesPersist(s, Step(s, a));
  }

  lemma {:induction false} RunInv(s: System, actions: seq<Action>)
    requires Inv(s)
    ensures Inv(Run(s, actions))
    decreases |actions|
  {
    if actions != [] {
      StepInv(s, actions[0]);
      RunInv(Step(s, actions[0]), actions[1..]);
    }
  }

  // ---------------------------------------------------------------------------
  // What a connection delivers, whatever happens around it
  // ---------------------------------------------------------------------------

  /** Data frames carry strictly increasing sequence numbers, all above a readable cursor of this bus. */
  lemma DeliveryIsOrdered(bus: BusState, log: seq<Event>, cursor: Cursor, actions: seq<Action>)
    requires Records(bus, log)
    ensures var s := Run(Open(bus, log, cursor), actions);
            && Increasing(Delivered(s))
            && (cursor.At? && cursor.n <= |log| ==> forall e :: e in Delivered(s) ==> e.seqNo > cursor.n)
  {
    OpenInv(bus, log, cursor);
    RunInv(Open(bus, log, cursor), actions);
    RunKeeps(Open(bus, log, cursor), actions);
    DeliveredIncreasing(Run(Open(bus, log, cursor), actions));
  }

  lemma DeliveredIncreasing(s: System)
    requires Inv(s)
    ensures Increasing(Delivered(s))
    ensures forall e :: e in Delivered(s) ==> e.seqNo > |s.past| - |s.snapshot|
    ensures forall e :: e in Delivered(s) ==> e.seqNo <= |s.past| + |s.taken|
  {
    var n := |s.past| - |s.snapshot|;
    assert forall i :: 0 <= i < |s.snapshot| ==> s.snapshot[i] == s.past[n + i];
  }

  /** What the subscription fixed stays fixed. */
  lemma {:induction false} RunKeeps(s: System, actions: seq<Action>)
    ensures Run(s, actions).past == s.past && Run(s, actions).snapshot == s.snapshot
    ensures |s.log| <= |Run(s, actions).log| && s.log == Run(s, actions).log[..|s.log|]
    ensures s.dropped != [] ==> Run(s, actions).dropped != []
    decreases |actions|
  {
    if actions != [] {
      RunKeeps(Step(s, actions[0]), actions[1..]);
    }
  }

  /** The events of the replay that have not been sent yet. */
  function Unsent(s: System): seq<Event> {
    s.snapshot[Min(s.replayed, |s.snapshot|)..]
  }

  /** Events published since the subscription. */
  function Since(s: System): seq<Event> {
    s.log[Min(|s.past|, |s.log|)..]
  }

  lemma SinceIsTaken(s: System)
    requires Conserves(s) && !s.conn.phase.Closed?
    ensures Since(s) == s.taken + Events(s.conn.queue)
  {
    assert s.log == s.past + (s.taken + Events(s.conn.queue));
  }

  lemma DeliveredAndUnsent(s: System)
    requires Progress(s)
    ensures Delivered(s) + Unsent(s) == s.snapshot + s.live
  {
    if s.live == [] {
      assert Delivered(s) + Unsent(s) == s.snapshot;
    }
  }

  lemma ExactState(s: System)
    requires Progress(s) && Conserves(s) && !s.conn.phase.Closed? && Interleaving(s.live, s.dropped, s.taken)
    ensures Delivered(s) + Unsent(s) + Events(s.conn.queue) == s.snapshot + Since(s) <==> s.dropped == []
  {
    var q := Events(s.conn.queue);
    SinceIsTaken(s);
    DeliveredAndUnsent(s);
    InterleavingCounts(s.live, s.dropped, s.taken);
    assert |s.snapshot + s.live + q| == |s.snapshot + Since(s)| - |s.dropped|;
    assert s.snapshot + s.live + q == s.snapshot + (s.live + q);
  }

  /**
   * Conservation, in order: while the connection is open, what was published since the subscription is an
   * interleaving of what was sent live and what overflowed, followed by what is still queued.
   */
  lemma Conservation(bus: BusState, log: seq<Event>, cursor: Cursor, actions: seq<Action>)
    requires Records(bus, log)
    ensures var s := Run(Open(bus, log, cursor), actions);
            && s.snapshot == (if cursor.At? then ReplaySince(bus.replay, cursor.n) else [])
            && Delivered(s) + Unsent(s) == s.snapshot + s.live
            && (!s.conn.phase.Closed? ==>
                  Since(s) == s.taken + Events(s.conn.queue) && Interleaving(s.live, s.dropped, s.taken))
  {
    var s0 := Open(bus, log, cursor);
    var s := Run(s0, actions);
    OpenInv(bus, log, cursor);
    RunInv(s0, actions);
    RunKeeps(s0, actions);
    if cursor.At? {
      ReplayIsTail(bus, log, cursor.n);
    }
    DeliveredAndUnsent(s);
    if !s.conn.phase.Closed? {
      SinceIsTaken(s);
    }
  }

  /** Nothing is lost and nothing is out of order exactly when this queue never overflowed. */
  lemma ExactDelivery(bus: BusState, log: seq<Event>, cursor: Cursor, actions: seq<Action>)
    requires Records(bus, log)
    requires !Run(Open(bus, log, cursor), actions).conn.phase.Closed?
    ensures var s := Run(Open(bus, log, cursor), actions);
            Delivered(s) + Unsent(s) + Events(s.conn.queue) == s.snapshot + Since(s) <==>
            NeverOverflows(Open(bus, log, cursor), actions)
  {
    OpenInv(bus, log, cursor);
    RunInv(Open(bus, log, cursor), actions);
    OverflowIsVisible(Open(bus, log, cursor), actions);
    ExactState(Run(Open(bus, log, cursor), actions));
  }

  /** No publication of the run meets a full queue. */
  predicate NeverOverflows(s: System, actions: seq<Action>)
    decreases |actions|
  {
    actions == [] || (!Overflows(s, actions[0]) && NeverOverflows(Step(s, actions[0]), actions[1..]))
  }

  lemma OverflowDrops(s: System, a: Action)
    requires Inv(s) && s.dropped == []
    ensures Step(s, a).dropped == [] <==> !Overflows(s, a)
  {
    if Overflows(s, a) {
      EventsBound(s.conn.queue);
      EventsHead(s.conn.queue);
    }
  }

  lemma {:induction false} OverflowIsVisible(s: System, actions: seq<Action>)
    requires Inv(s) && s.dropped == []
    ensures Run(s, actions).dropped == [] <==> NeverOverflows(s, actions)
    decreases |actions|
  {
    if actions != [] {
      StepInv(s, actions[0]);
      OverflowDrops(s, actions[0]);
      if Overflows(s, actions[0]) {
        RunKeeps(Step(s, actions[0]), actions[1..]);
      } else {
        OverflowIsVisible(Step(s, actions[0]), actions[1..]);
      }
    }
  }

  lemma WithoutReplay(s: System, queued: seq<Event>)
    requires s.snapshot == []
    ensures Delivered(s) + Unsent(s) + queued == s.snapshot + Since(s) <==> Delivered(s) + queued == Since(s)
  {
    assert Unsent(s) == [] && Delivered(s) + [] == Delivered(s);
    assert [] + Since(s) == Since(s);
  }

  /** A cursor ahead of the bus (the server restarted) suppresses nothing that is published from then on. */
  lemma StaleCursorSuppressesNothing(bus: BusState, log: seq<Event>, n: int, actions: seq<Action>)
    requires Records(bus, log) && n > |log|
    ensures var s := Run(Open(bus, log, At(n)), actions);
            && s.snapshot == []
            && (!s.conn.phase.Closed? && NeverOverflows(Open(bus, log, At(n)), actions) ==> Delivered(s) + Events(s.conn.queue) == Since(s))
  {
    var s0 := Open(bus, log, At(n));
    OpenInv(bus, log, At(n));
    RunKeeps(s0, actions);
    var s := Run(s0, actions);
    if !s.conn.phase.Closed? && NeverOverflows(s0, actions) {
      ExactDelivery(bus, log, At(n), actions);
      WithoutReplay(s, Events(s.conn.queue));
    }
  }

  /** A client without a readable cursor is served like one that has seen everything so far. */
  lemma NoCursorStartsHere(bus: BusState, log: seq<Event>, cursor: Cursor)
    requires Records(bus, log) && !cursor.At?
    ensures Open(bus, log, cursor) == Open(bus, log, At(|log|))
  {
    ReplayIsTail(bus, log, |log|);
    assert log[|log|..] == [];
  }

  /** A sync frame can run ahead of the queue only right after replayed frames; a keepalive never does. */
  lemma SyncsAreClean(bus: BusState, log: seq<Event>, cursor: Cursor, actions: seq<Action>)
    requires Records(bus, log)
    ensures var s := Run(Open(bus, log, cursor), actions);
            forall k :: 0 <= k < |s.sent| && s.sent[k].frame.Sync? && s.sent[k].waiting > 0 ==>
              s.snapshot != [] && !s.sent[k].frame.keepalive
  {
    OpenInv(bus, log, cursor);
    RunInv(Open(bus, log, cursor), actions);
    var s := Run(Open(bus, log, cursor), actions);
    forall k | 0 <= k < |s.sent| && s.sent[k].frame.Sync? && s.sent[k].waiting > 0
      ensures s.snapshot != [] && !s.sent[k].frame.keepalive
    {
      assert Framing(s, k);
    }
  }

  // ---------------------------------------------------------------------------
  // Sync frames, overflow and shutdown
  // ---------------------------------------------------------------------------

  /** A sync frame names the last event published when it is sent, and is a keepalive exactly after a time-out. */
  lemma SyncsAreCurrent(s: System, a: Action)
    requires Inv(s)
    ensures var s' := Step(s, a);
            |s'.sent| > |s.sent| && s'.sent[|s.sent|].frame.Sync? ==>
              && s'.sent[|s.sent|].frame.seqNo == |s.log|
              && (s'.sent[|s.sent|].frame.keepalive <==> a.Keepalive?)
    ensures a.Keepalive? ==>
              Step(s, a) == if s.conn.phase.Live? && s.conn.queue == []
                            then s.(sent := s.sent + [Sent(Sync(|s.log|, true), s.replayed + |s.live|, 0)]) else s
  {
  }

  /** A publication overflows exactly when 100 events are queued on an open connection. */
  lemma OverflowsExactly(s: System, a: Action)
    requires Inv(s)
    ensures Overflows(s, a) <==>
            a.Publish? && !s.bus.shuttingDown && !s.conn.phase.Closed? && |Events(s.conn.queue)| >= 100
  {
  }

  /** The connection is resumed `n` times, with nothing else in between. */
  function Resumes(n: nat): seq<Action> {
    if n == 0 then [] else [Resume] + Resumes(n - 1)
  }

  lemma ResumesOnce(s: System, n: nat)
    requires n > 0
    ensures Run(s, Resumes(n)) == Run(Step(s, Resume), Resumes(n - 1))
  {
    assert Resumes(n)[0] == Resume && Resumes(n)[1..] == Resumes(n - 1);
  }

  lemma {:induction false} Idles(s: System, n: nat)
    requires s.conn.phase.Closed? || (s.conn.phase.Live? && s.conn.queue == [])
    ensures Run(s, Resumes(n)) == s
  {
    if n > 0 {
      assert s.taken + [] == s.taken;
      assert Step(s, Resume) == s;
      ResumesOnce(s, n);
      Idles(s, n - 1);
    }
  }

  predicate EndsInShutdown(queue: seq<Item>) {
    queue != [] && queue[|queue| - 1].Shutdown?
  }

  /** Live, with nothing in the queue that has been replayed, and a sentinel at its end at most. */
  ghost predicate Drainable(s: System) {
    && s.conn.phase.Live? && s.replayed == |s.snapshot|
    && forall i :: 0 <= i < |s.conn.queue| ==>
         match s.conn.queue[i]
         case Published(e) => e.seqNo > s.conn.replayedUpTo
         case Shutdown => i == |s.conn.queue| - 1
  }

  lemma ResumeSends(s: System)
    requires Drainable(s) && s.conn.queue != [] && s.conn.queue[0].Published?
    ensures var s' := Step(s, Resume);
            && Drainable(s') && s'.conn.queue == s.conn.queue[1..] && s'.dropped == s.dropped
            && Delivered(s') == Delivered(s) + [s.conn.queue[0].event]
  {
    LiveDataStep(s);
  }

  lemma ResumeCloses(s: System)
    requires s.conn.phase.Live? && s.conn.queue != [] && s.conn.queue[0].Shutdown?
    ensures var s' := Step(s, Resume);
            s'.conn.phase.Closed? && s'.dropped == s.dropped && Delivered(s') == Delivered(s)
  {
  }

  lemma EventsSplit(q: seq<Item>, sent: seq<Event>)
    requires q != []
    ensures q[0].Published? ==> sent + [q[0].event] + Events(q[1..]) == sent + Events(q)
    ensures q[0].Shutdown? && |q| == 1 ==> Events(q) == []
  {
    EventsHead(q);
  }

  /** What becomes of a queue that is emptied: sent in order, and a sentinel at its end closes the connection. */
  ghost predicate Drained(queue: seq<Item>, s: System, s': System) {
    && Delivered(s') == Delivered(s) + Events(queue) && s'.dropped == s.dropped
    && (s'.conn.phase.Closed? <==> EndsInShutdown(queue))
  }

  lemma DrainedOn(q: seq<Item>, s: System, s1: System, s': System)
    requires q != [] && q[0].Published? && Drained(q[1..], s1, s')
    requires Delivered(s1) == Delivered(s) + [q[0].event] && s1.dropped == s.dropped
    ensures Drained(q, s, s')
  {
    EventsSplit(q, Delivered(s));
  }

  lemma DrainedAtOnce(q: seq<Item>, s: System, s': System)
    requires q == [] || (|q| == 1 && q[0].Shutdown?)
    requires Delivered(s') == Delivered(s) && s'.dropped == s.dropped && (s'.conn.phase.Closed? <==> q != [])
    ensures Drained(q, s, s')
  {
    if q != [] {
      EventsSplit(q, Delivered(s));
    }
  }

  lemma {:induction false} Drains(s: System, n: nat)
    requires Drainable(s) && n >= |s.conn.queue|
    ensures Drained(s.conn.queue, s, Run(s, Resumes(n)))
    decreases |s.conn.queue|
  {
    var q := s.conn.queue;
    if q == [] {
      Idles(s, n);
      DrainedAtOnce(q, s, s);
    } else {
      ResumesOnce(s, n);
      if q[0].Published? {
        ResumeSends(s);
        Drains(Step(s, Resume), n - 1);
        DrainedOn(q, s, Step(s, Resume), Run(s, Resumes(n)));
      } else {
        ResumeCloses(s);
        Idles(Step(s, Resume), n - 1);
        DrainedAtOnce(q, s, Step(s, Resume));
      }
    }
  }

  /** Everything queued is newer than the subscription. */
  lemma AllNew(s: System)
    requires Inv(s) && !s.conn.phase.Closed? && |Events(s.conn.queue)| == |s.conn.queue|
    ensures forall i :: 0 <= i < |s.conn.queue| ==>
              s.conn.queue[i].Published? && s.conn.queue[i].event.seqNo > s.conn.replayedUpTo
  {
    AllPublished(s.conn.queue);
    var before := |s.past + s.taken|;
    forall i | 0 <= i < |s.conn.queue| ensures s.conn.queue[i].event.seqNo > s.conn.replayedUpTo {
      assert s.log[before + i] == Events(s.conn.queue)[i] == s.conn.queue[i].event;
    }
  }

  /**
   * Shutdown loses nothing that is queued on a live connection. When all of it has been sent the connection closes,
   * except exactly if its queue was full, so that the sentinel found no room.
   */
  lemma ShutdownEndsExactly(s: System, n: nat)
    requires Inv(s) && s.conn.phase.Live? && !s.bus.shuttingDown && n > |s.conn.queue|
    ensures var s' := Run(Step(s, Stop), Resumes(n));
            && Delivered(s') == Delivered(s) + Events(s.conn.queue) && s'.dropped == s.dropped
            && (s'.conn.phase.Closed? <==> |Events(s.conn.queue)| < 100)
  {
    AllNew(s);
    EventsAppend(s.conn.queue, Shutdown);
    Drains(Step(s, Stop), n);
  }

  lemma {:induction false} AllPublished(q: seq<Item>)
    requires |Events(q)| == |q|
    ensures forall i :: 0 <= i < |q| ==> q[i].Published? && q[i].event == Events(q)[i]
  {
    if q != [] {
      EventsBound(q);
      EventsBound(q[1..]);
      AllPublished(q[1..]);
    }
  }

  /** A closed connection is left alone: nothing is queued, sent or dropped any more. */
  lemma {:induction false} ClosedIsFinal(s: System, actions: seq<Action>)
    requires s.conn.phase.Closed?
    ensures var s' := Run(s, actions);
            s'.conn == s.conn && s'.sent == s.sent && s'.taken == s.taken && s'.live == s.live && s'.dropped == s.dropped
    decreases |actions|
  {
    if actions != [] {
      assert s.taken + [] == s.taken;
      ClosedIsFinal(Step(s, actions[0]), actions[1..]);
    }
  }

  /** What deduplication goes by: the number of the last event replayed. */
  ghost predicate Remembers(c: Conn, snapshot: seq<Event>) {
    match c.phase
    case Replaying(missed, next) =>
      next < |missed| && missed == snapshot && c.replayedUpTo == if next == 0 then 0 else missed[next - 1].seqNo
    case Live => c.replayedUpTo == if snapshot == [] then 0 else snapshot[|snapshot| - 1].seqNo
    case _ => true
  }

  lemma SnapshotOrdered(s: System, i: nat)
    requires Snapshots(s) && 0 < i < |s.snapshot|
    ensures s.snapshot[i].seqNo > s.snapshot[i - 1].seqNo
  {
    var n := |s.past| - |s.snapshot|;
    assert s.snapshot[i] == s.past[n + i] && s.snapshot[i - 1] == s.past[n + i - 1];
  }

  lemma ResumeRemembers(c: Conn, bus: BusState, snapshot: seq<Event>)
    requires Remembers(c, snapshot)
    requires c.phase.Replaying? && c.phase.next > 0 ==> snapshot[c.phase.next].seqNo > snapshot[c.phase.next - 1].seqNo
    ensures Remembers(ResumeConn(c, bus).0, snapshot)
  {
  }

  /** Every other step leaves the phase and the number, or closes the connection. */
  lemma OthersRemember(s: System, a: Action)
    requires !a.Resume?
    ensures var c, c' := s.conn, Step(s, a).conn;
            (c'.phase == c.phase && c'.replayedUpTo == c.replayedUpTo) || c'.phase.Closed?
  {
  }

  lemma StepRemembers(s: System, a: Action)
    requires Snapshots(s) && Remembers(s.conn, s.snapshot)
    ensures Remembers(Step(s, a).conn, Step(s, a).snapshot)
  {
    if a.Resume? {
      if s.conn.phase.Replaying? && s.conn.phase.next > 0 {
        SnapshotOrdered(s, s.conn.phase.next);
      }
      ResumeRemembers(s.conn, s.bus, s.snapshot);
      assert Step(s, a).conn == ResumeConn(s.conn, s.bus).0;
    } else {
      OthersRemember(s, a);
    }
  }

  lemma {:induction false} RunRemembers(s: System, actions: seq<Action>)
    requires Inv(s) && Remembers(s.conn, s.snapshot)
    ensures Remembers(Run(s, actions).conn, Run(s, actions).snapshot)
    decreases |actions|
  {
    if actions != [] {
      StepRemembers(s, actions[0]);
      StepInv(s, actions[0]);
      RunRemembers(Step(s, actions[0]), actions[1..]);
    }
  }

  lemma OpenRemembers(bus: BusState, log: seq<Event>, cursor: Cursor)
    requires Records(bus, log)
    ensures Remembers(Open(bus, log, cursor).conn, Open(bus, log, cursor).snapshot)
  {
    if cursor.At? {
      ReplayIsTail(bus, log, cursor.n);
    }
  }

  /** Deduplication goes by the number of the last event replayed. */
  lemma ReplayedUpToIsLast(bus: BusState, log: seq<Event>, cursor: Cursor, actions: seq<Action>)
    requires Records(bus, log)
    ensures var s := Run(Open(bus, log, cursor), actions);
            s.conn.phase.Live? ==> s.conn.replayedUpTo == if s.snapshot == [] then 0 else s.snapshot[|s.snapshot| - 1].seqNo
  {
    OpenInv(bus, log, cursor);
    OpenRemembers(bus, log, cursor);
    RunRemembers(Open(bus, log, cursor), actions);
  }

  /** Of itself it lets through exactly what is newer or has no number. */
  lemma DeduplicatesReplayed(c: Conn, bus: BusState, e: Event)
    requires c.phase.Live? && c.queue != [] && c.queue[0] == Published(e)
    ensures ResumeConn(c, bus) ==
            (c.(queue := c.queue[1..]), if e.seqNo > c.replayedUpTo || e.seqNo == 0 then Some(Data(e)) else None)
  {
  }

  /** After shutdown nothing is published any more. */
  lemma {:induction false} NothingAfterStop(s: System, actions: seq<Action>)
    requires s.bus.shuttingDown
    ensures Run(s, actions).log == s.log && Run(s, actions).bus == s.bus
    ensures forall kind, data :: Append(s.bus, kind, data) == s.bus
    decreases |actions|
  {
    if actions != [] {
      NothingAfterStop(Step(s, actions[0]), actions[1..]);
    }
  }

  /** After that it goes on sending keepalives until the client goes away: nothing but another shutdown closes it. */
  lemma {:induction false} MissedShutdownNeverEnds(s: System, actions: seq<Action>)
    requires s.conn.phase.Live? && s.bus.shuttingDown && forall i :: 0 <= i < |s.conn.queue| ==> s.conn.queue[i].Published?
    requires forall i :: 0 <= i < |actions| ==> !actions[i].Stop? && !actions[i].Disconnect?
    ensures Run(s, actions).conn.phase.Live?
    decreases |actions|
  {
    if actions != [] {
      MissedShutdownNeverEnds(Step(s, actions[0]), actions[1..]);
    }
  }
}
