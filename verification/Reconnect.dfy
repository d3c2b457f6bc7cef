/**
 * A client that loses its connection any number of times and resumes from the largest id it has adopted.
 *
 * A data frame's id is always adopted; for a sync frame the client may or may not adopt it. Frames that were
 * sent but not received when the connection broke are gone. Some clients leave out an id of 0. A client may bring an id
 * of an earlier life of the backend, which counts from 0 again when it restarts.
 */
module Reconnection {
  import opened Prelude
  import opened Bus
  import opened Stream

  /**
   * Where the events of the history went: `received`, every data event the client ever got; `overflowed`, events that
   * it passed over on a connection because its queue had dropped them; and of what it had not reached when it came
   * back, `evicted`, what had left the replay buffer, and `skipped`, what was still in it but is not replayed.
   */
  datatype Tally = Tally(received: seq<Event>, evicted: seq<Event>, skipped: seq<Event>, overflowed: seq<Event>)

  /**
   * `reached`: how far into the history the client has come; `here`: data events got on the current connection; `got`:
   * frames of the current connection consumed. `omitsZero`: the client sends no id as long as its cursor is 0.
   */
  datatype World = World(
    sys: System, omitsZero: bool, base: nat, cursor: nat, reached: int, here: nat, got: nat, tally: Tally)

  datatype Move = Server(action: Action) | Receive(adopt: bool) | Reconnect

  /** The id that goes with a request. */
  function CursorOf(cursor: nat, omitsZero: bool): Cursor {
    if omitsZero && cursor == 0 then Absent else At(cursor)
  }

  /** What that id amounts to: without one the server starts at the end of the history. */
  function Asks(log: seq<Event>, cursor: nat, omitsZero: bool): nat {
    if omitsZero && cursor == 0 then |log| else cursor
  }

  function Asked(w: World): nat {
    Asks(w.sys.log, w.cursor, w.omitsZero)
  }

  /** Position of the first event after `reached` that the replay buffer still holds. */
  function Retained(log: seq<Event>, reached: int): int {
    Max(reached, |log| - REPLAY_BUFFER_SIZE)
  }

  /** `log[lo..hi]`, if that makes sense. */
  function Part(log: seq<Event>, lo: int, hi: int): seq<Event> {
    if 0 <= lo <= hi <= |log| then log[lo..hi] else []
  }

  /** Where the current connection's replay begins in the history. */
  function First(s: System): int {
    |s.past| - |s.snapshot|
  }

  /** The client gets a data frame; what lies between it and what the client had reached never comes. */
  function Add(t: Tally, log: seq<Event>, reached: int, e: Event): Tally {
    t.(received := t.received + [e], overflowed := t.overflowed + Part(log, reached, e.seqNo - 1))
  }

  function Got(w: World, e: Event): World {
    w.(tally := Add(w.tally, w.sys.log, w.reached, e),
       cursor := Max(w.cursor, e.seqNo), reached := e.seqNo, here := w.here + 1, got := w.got + 1)
  }

  /** The tally of a client that comes back. */
  function Settle(t: Tally, log: seq<Event>, reached: int, first: int): Tally {
    t.(evicted := t.evicted + Part(log, reached, Retained(log, reached)),
       skipped := t.skipped + Part(log, Retained(log, reached), first))
  }

  /**
   * The client connects; `base`: how much of this history it has before that, from there on it wants everything. After
   * a restart of the backend it has nothing of it, whatever its id.
   */
  function Arrive(bus: BusState, log: seq<Event>, base: nat, cursor: nat, omitsZero: bool): World {
    var sys := Open(bus, log, CursorOf(cursor, omitsZero));
    World(sys, omitsZero, base, cursor, First(sys), 0, 0, Settle(Tally([], [], [], []), log, base, First(sys)))
  }

  /** The id is not behind what the client has. */
  ghost predicate Arrives(bus: BusState, log: seq<Event>, base: nat, cursor: nat, omitsZero: bool) {
    Records(bus, log) && base <= |log| && base <= Asks(log, cursor, omitsZero)
  }

  function Advance(w: World, m: Move): World {
    match m
    case Server(action) => w.(sys := Step(w.sys, action))
    case Receive(adopt) =>
      if w.got >= |w.sys.sent| then w
      else (
        match w.sys.sent[w.got].frame
        case Data(e) => Got(w, e)
        case Sync(n, _) => w.(cursor := if adopt then Max(w.cursor, n) else w.cursor, got := w.got + 1)
      )
    case Reconnect =>
      var sys := Open(w.sys.bus, w.sys.log, CursorOf(w.cursor, w.omitsZero));
      w.(sys := sys, here := 0, got := 0, reached := First(sys),
         tally := Settle(w.tally, w.sys.log, w.reached, First(sys)))
  }

  function Travel(w: World, moves: seq<Move>): World
    decreases |moves|
  {
    if moves == [] then w else Travel(Advance(w, moves[0]), moves[1..])
  }

  // ---------------------------------------------------------------------------
  // At most once: no assumption at all
  // ---------------------------------------------------------------------------

  ghost predicate Consumed(w: World) {
    && w.got <= |w.sys.sent|
    && w.here <= |Delivered(w.sys)|
    && w.here == (if w.got == 0 then 0 else After(w.sys.sent[w.got - 1]))
    && w.reached == (if w.here == 0 then First(w.sys) else Delivered(w.sys)[w.here - 1].seqNo)
  }

  ghost predicate Received(w: World, earlier: seq<Event>)
    requires w.here <= |Delivered(w.sys)|
  {
    && w.tally.received == earlier + Delivered(w.sys)[..w.here]
    && Increasing(earlier)
    && forall e :: e in earlier ==> w.base < e.seqNo <= First(w.sys)
  }

  ghost predicate WorldInv(w: World) {
    && Inv(w.sys)
    && Consumed(w)
    && w.base <= First(w.sys)
    && (w.base <= w.cursor || (w.omitsZero && w.cursor == 0))
    && (exists earlier :: Received(w, earlier))
    && (forall e :: e in w.tally.received ==> e.seqNo <= w.cursor && e.seqNo <= |w.sys.log|)
  }

  lemma OpenFirst(bus: BusState, log: seq<Event>, cursor: nat, omitsZero: bool)
    ensures var s := Open(bus, log, CursorOf(cursor, omitsZero));
            First(s) == ReplayFrom(|log|, Asks(log, cursor, omitsZero)) && s.past == log && s.log == log && s.bus == bus
  {
  }

  lemma ArriveInv(bus: BusState, log: seq<Event>, base: nat, cursor: nat, omitsZero: bool)
    requires Arrives(bus, log, base, cursor, omitsZero)
    ensures WorldInv(Arrive(bus, log, base, cursor, omitsZero))
  {
    OpenInv(bus, log, CursorOf(cursor, omitsZero));
    OpenFirst(bus, log, cursor, omitsZero);
    assert Received(Arrive(bus, log, base, cursor, omitsZero), []);
  }

  lemma StepAppends(s: System, a: Action)
    requires Progress(s)
    ensures var s' := Step(s, a);
            && s'.past == s.past && s'.snapshot == s.snapshot
            && s.replayed <= s'.replayed && s.live <= s'.live
            && (s.replayed < s'.replayed ==> s.live == [])
            && s.sent <= s'.sent && s.log <= s'.log
  {
  }

  /** A server step only appends to what was delivered. */
  lemma StepDelivers(s: System, a: Action)
    requires Inv(s)
    ensures Inv(Step(s, a))
    ensures First(Step(s, a)) == First(s)
    ensures Delivered(s) <= Delivered(Step(s, a))
    ensures s.sent <= Step(s, a).sent
    ensures s.log <= Step(s, a).log
  {
    StepInv(s, a);
    StepAppends(s, a);
  }

  lemma ConsumedStays(w: World, s: System)
    requires Consumed(w) && w.sys.sent <= s.sent && Delivered(w.sys) <= Delivered(s) && First(s) == First(w.sys)
    ensures Consumed(w.(sys := s))
  {
    assert w.got > 0 ==> s.sent[w.got - 1] == w.sys.sent[w.got - 1];
    assert w.here > 0 ==> Delivered(s)[w.here - 1] == Delivered(w.sys)[w.here - 1];
  }

  lemma ReceivedStays(w: World, s: System, earlier: seq<Event>)
    requires w.here <= |Delivered(w.sys)| && Received(w, earlier)
    requires Delivered(w.sys) <= Delivered(s) && First(s) == First(w.sys)
    ensures Received(w.(sys := s), earlier)
  {
    SliceOfPrefix(Delivered(w.sys), Delivered(s), 0, w.here);
  }

  lemma ServerInv(w: World, a: Action)
    requires WorldInv(w)
    ensures WorldInv(Advance(w, Server(a)))
  {
    StepDelivers(w.sys, a);
    var earlier :| Received(w, earlier);
    ConsumedStays(w, Step(w.sys, a));
    ReceivedStays(w, Step(w.sys, a), earlier);
  }

  lemma DeliveredBounded(s: System, i: nat)
    requires Inv(s) && i < |Delivered(s)|
    ensures Delivered(s)[i].seqNo <= |s.log|
  {
    assert |s.past + s.taken| <= |s.log|;
    if i < s.replayed {
      assert Delivered(s)[i] == s.past[First(s) + i];
    } else {
      assert Delivered(s)[i] == s.live[i - s.replayed];
    }
  }

  /** The next data frame carries the next delivered event. */
  lemma NextFrame(w: World)
    requires Inv(w.sys) && Consumed(w) && w.got < |w.sys.sent|
    ensures var x := w.sys.sent[w.got];
            && x.before == w.here
            && (x.frame.Data? ==> w.here < |Delivered(w.sys)| && x.frame.event == Delivered(w.sys)[w.here])
            && (x.frame.Data? ==> First(w.sys) < x.frame.event.seqNo <= |w.sys.log|)
            && (x.frame.Sync? ==> |w.sys.past| <= x.frame.seqNo <= |w.sys.log|)
            && (x.frame.Sync? && w.sys.dropped == [] ==> x.frame.seqNo == First(w.sys) + w.here + x.waiting)
  {
    assert Framing(w.sys, w.got);
    if w.sys.sent[w.got].frame.Data? {
      DeliveredBounded(w.sys, w.here);
      DeliveredIncreasing(w.sys);
      assert Delivered(w.sys)[w.here] in Delivered(w.sys);
    }
  }

  lemma ReceivedSnoc(earlier: seq<Event>, all: seq<Event>, n: nat)
    requires n < |all|
    ensures earlier + all[..n] + [all[n]] == earlier + all[..n + 1]
  {
    assert all[..n + 1] == all[..n] + [all[n]];
  }

  lemma GotReceived(w: World, e: Event, earlier: seq<Event>)
    requires w.here < |Delivered(w.sys)| && Delivered(w.sys)[w.here] == e && Received(w, earlier)
    ensures Received(Got(w, e), earlier)
  {
    ReceivedSnoc(earlier, Delivered(w.sys), w.here);
  }

  lemma GotConsumed(w: World, e: Event)
    requires Inv(w.sys) && Consumed(w) && w.got < |w.sys.sent| && w.sys.sent[w.got].frame == Data(e)
    ensures Consumed(Got(w, e))
  {
    NextFrame(w);
  }

  lemma GotInv(w: World, e: Event)
    requires WorldInv(w) && w.got < |w.sys.sent| && w.sys.sent[w.got].frame == Data(e)
    ensures WorldInv(Got(w, e))
  {
    var earlier :| Received(w, earlier);
    NextFrame(w);
    GotConsumed(w, e);
    GotReceived(w, e, earlier);
  }

  lemma SyncInv(w: World, adopt: bool)
    requires WorldInv(w) && w.got < |w.sys.sent| && w.sys.sent[w.got].frame.Sync?
    ensures WorldInv(Advance(w, Receive(adopt)))
  {
    var earlier :| Received(w, earlier);
    NextFrame(w);
    assert Received(Advance(w, Receive(adopt)), earlier);
  }

  /** The client forgets the broken connection and starts over on `w'.sys`. */
  lemma FreshInv(w: World, w': World)
    requires WorldInv(w) && Inv(w'.sys) && w'.sys.log == w.sys.log && w.base <= First(w'.sys)
    requires forall e :: e in w.tally.received ==> e.seqNo <= First(w'.sys)
    requires w' == w.(sys := w'.sys, here := 0, got := 0, reached := First(w'.sys), tally := w'.tally)
    requires w'.tally.received == w.tally.received
    ensures WorldInv(w')
  {
    ReceivedIncreasing(w);
    assert w'.tally.received == w.tally.received + Delivered(w'.sys)[..0];
    assert Received(w', w.tally.received);
  }

  /** A return, without a look at how the connection is opened. */
  lemma Return(w: World)
    ensures var w' := Advance(w, Reconnect);
            var first := ReplayFrom(|w.sys.log|, Asked(w));
            && w' == w.(sys := w'.sys, here := 0, got := 0, reached := first,
                        tally := Settle(w.tally, w.sys.log, w.reached, first))
            && w'.sys == Open(w.sys.bus, w.sys.log, CursorOf(w.cursor, w.omitsZero))
            && First(w'.sys) == first && w'.sys.log == w.sys.log && w'.sys.bus == w.sys.bus
  {
    OpenFirst(w.sys.bus, w.sys.log, w.cursor, w.omitsZero);
  }

  lemma ReconnectInv(w: World)
    requires WorldInv(w)
    ensures WorldInv(Advance(w, Reconnect))
  {
    Return(w);
    OpenInv(w.sys.bus, w.sys.log, CursorOf(w.cursor, w.omitsZero));
    FreshInv(w, Advance(w, Reconnect));
  }

  lemma ReceivedIncreasing(w: World)
    requires WorldInv(w)
    ensures Increasing(w.tally.received)
    ensures forall e :: e in w.tally.received ==> w.base < e.seqNo <= w.cursor
  {
    var earlier :| Received(w, earlier);
    DeliveredIncreasing(w.sys);
    JoinReceived(earlier, Delivered(w.sys), w.here, First(w.sys), w.base);
  }

  lemma JoinReceived(earlier: seq<Event>, all: seq<Event>, here: nat, first: int, base: int)
    requires Increasing(earlier) && Increasing(all) && here <= |all| && base <= first
    requires forall e :: e in earlier ==> base < e.seqNo <= first
    requires forall e :: e in all ==> first < e.seqNo
    ensures Increasing(earlier + all[..here])
    ensures forall e :: e in earlier + all[..here] ==> base < e.seqNo
  {
    var part := all[..here];
    assert forall i :: 0 <= i < |part| ==> part[i] == all[i] && part[i] in all;
    IncreasingJoin(earlier, part, first);
  }

  lemma IncreasingJoin(a: seq<Event>, b: seq<Event>, n: int)
    requires Increasing(a) && Increasing(b)
    requires (forall e :: e in a ==> e.seqNo <= n) && (forall i :: 0 <= i < |b| ==> n < b[i].seqNo)
    ensures Increasing(a + b)
  {
    forall i, j | 0 <= i < j < |a + b| ensures (a + b)[i].seqNo < (a + b)[j].seqNo {
      if i < |a| <= j {
        assert a[i] in a;
      }
    }
  }

  lemma MoveInv(w: World, m: Move)
    requires WorldInv(w)
    ensures WorldInv(Advance(w, m))
  {
    match m
    case Server(a) => ServerInv(w, a);
    case Receive(adopt) =>
      if w.got < |w.sys.sent| {
        if w.sys.sent[w.got].frame.Data? { GotInv(w, w.sys.sent[w.got].frame.event); } else { SyncInv(w, adopt); }
      }
    case Reconnect => ReconnectInv(w);
  }

  lemma {:induction false} TravelInv(w: World, moves: seq<Move>)
    requires WorldInv(w)
    ensures WorldInv(Travel(w, moves))
    decreases |moves|
  {
    if moves != [] {
      MoveInv(w, moves[0]);
      TravelInv(Advance(w, moves[0]), moves[1..]);
    }
  }

  /**
   * Over any number of reconnections, with overflow, eviction, every choice of adopted ids, with or without an id of 0,
   * and with an id of an earlier life of the backend: no event is received twice or out of order.
   */
  lemma AtMostOnce(bus: BusState, log: seq<Event>, base: nat, cursor: nat, omitsZero: bool, moves: seq<Move>)
    requires Arrives(bus, log, base, cursor, omitsZero)
    ensures var w := Travel(Arrive(bus, log, base, cursor, omitsZero), moves);
            && Increasing(w.tally.received)
            && forall e :: e in w.tally.received ==> base < e.seqNo <= w.cursor
  {
    var w0 := Arrive(bus, log, base, cursor, omitsZero);
    ArriveInv(bus, log, base, cursor, omitsZero);
    TravelInv(w0, moves);
    TravelKeepsBase(w0, moves);
    ReceivedIncreasing(Travel(w0, moves));
  }

  lemma {:induction false} TravelKeepsBase(w: World, moves: seq<Move>)
    ensures Travel(w, moves).base == w.base && Travel(w, moves).omitsZero == w.omitsZero
    decreases |moves|
  {
    if moves != [] { TravelKeepsBase(Advance(w, moves[0]), moves[1..]); }
  }
}
