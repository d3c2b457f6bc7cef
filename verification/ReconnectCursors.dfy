/**
 * Which ids a reconnecting client may adopt: those with which it receives everything, and runs in which it does not.
 */
module Cursors {
  import opened Prelude
  import opened Bus
  import opened Stream
  import opened Reconnection
  import opened Accounts

  // ---------------------------------------------------------------------------
  // Clients that are never ahead
  // ---------------------------------------------------------------------------

  /** The client never adopts a sync id that runs ahead of the queue, and the queue does not overflow. */
  predicate Careful(w: World, m: Move) {
    match m
    case Server(action) => !Overflows(w.sys, action)
    case Receive(adopt) =>
      adopt && w.got < |w.sys.sent| && w.sys.sent[w.got].frame.Sync? ==> w.sys.sent[w.got].waiting == 0
    case Reconnect => true
  }

  predicate CarefulTravel(w: World, moves: seq<Move>)
    decreases |moves|
  {
    moves == [] || (Careful(w, moves[0]) && CarefulTravel(Advance(w, moves[0]), moves[1..]))
  }

  /** The cursor names the last event reached, unless evicted events lie between. */
  ghost predicate Level(w: World) {
    && w.sys.dropped == [] && (w.omitsZero ==> w.cursor > 0)
    && w.cursor <= w.reached && (w.tally.evicted == [] ==> w.cursor == w.reached)
  }

  lemma CarefulSync(w: World, adopt: bool)
    requires WorldInv(w) && Level(w) && Careful(w, Receive(adopt))
    requires w.got < |w.sys.sent| && w.sys.sent[w.got].frame.Sync?
    ensures Level(Advance(w, Receive(adopt)))
  {
    SyncNumber(w);
  }

  lemma CarefulReturn(w: World)
    requires WorldInv(w) && Complete(w) && Level(w)
    ensures Level(Advance(w, Reconnect)) && !ComesBackAhead(w, Reconnect)
  {
    Return(w);
    ReturnsBeyond(w.sys.log, w.cursor, w.reached);
    OpenDropsNothing(w.sys.bus, w.sys.log, CursorOf(w.cursor, w.omitsZero));
  }

  lemma CarefulStaysLevel(w: World, m: Move)
    requires WorldInv(w) && Complete(w) && Level(w) && Careful(w, m)
    ensures Level(Advance(w, m)) && !ComesBackAhead(w, m) && !PassesOver(w, m)
  {
    NextIsNext(w);
    match m
    case Server(a) => StepDropsNothing(w.sys, a);
    case Receive(adopt) =>
      if w.got < |w.sys.sent| {
        if w.sys.sent[w.got].frame.Data? { NextData(w); } else { CarefulSync(w, adopt); }
      }
    case Reconnect => CarefulReturn(w);
  }

  /** A careful client never comes back ahead and passes nothing over. */
  lemma {:induction false} CarefulIsNeverAhead(w: World, moves: seq<Move>)
    requires WorldInv(w) && Complete(w) && Level(w) && CarefulTravel(w, moves)
    ensures NeverAhead(w, moves) && NeverPassesOver(w, moves) && Level(Travel(w, moves))
    decreases |moves|
  {
    if moves != [] {
      CarefulStaysLevel(w, moves[0]);
      MoveComplete(w, moves[0]);
      MoveInv(w, moves[0]);
      CarefulIsNeverAhead(Advance(w, moves[0]), moves[1..]);
    }
  }

  lemma {:induction false} CarefulIsUndropped(w: World, moves: seq<Move>)
    requires CarefulTravel(w, moves)
    ensures Undropped(w, moves)
    decreases |moves|
  {
    if moves != [] { CarefulIsUndropped(Advance(w, moves[0]), moves[1..]); }
  }

  lemma ArriveLevel(bus: BusState, log: seq<Event>, base: nat, cursor: nat, omitsZero: bool)
    requires Arrives(bus, log, base, cursor, omitsZero) && cursor <= |log| && (omitsZero ==> cursor > 0)
    ensures Level(Arrive(bus, log, base, cursor, omitsZero))
  {
    OpenFirst(bus, log, cursor, omitsZero);
    OpenDropsNothing(bus, log, CursorOf(cursor, omitsZero));
    assert |Part(log, base, Retained(log, base))| == Retained(log, base) - base;
  }

  /**
   * A careful client passes nothing over. So it receives every retained event, once and in order, exactly when it never
   * comes ahead of one. If its id is one that this history has reached, and is sent, it is never ahead later, and only
   * the first connection decides. Without evictions it then receives all up to its cursor.
   */
  lemma CarefulReceivesAll(bus: BusState, log: seq<Event>, base: nat, cursor: nat, omitsZero: bool, moves: seq<Move>)
    requires Arrives(bus, log, base, cursor, omitsZero)
    requires CarefulTravel(Arrive(bus, log, base, cursor, omitsZero), moves)
    ensures var w0 := Arrive(bus, log, base, cursor, omitsZero);
            var w := Travel(w0, moves);
            var all := base <= w.reached <= |w.sys.log|
                       && Interleaving(w.tally.received, w.tally.evicted, w.sys.log[base..w.reached]);
            var behind := !Ahead(log, base, Asks(log, cursor, omitsZero));
            && NeverPassesOver(w0, moves)
            && (all <==> behind && NeverAhead(w0, moves))
            && (forall e :: e in w.tally.evicted ==> e !in w.sys.bus.replay)
            && (cursor <= |log| && (omitsZero ==> cursor > 0) ==>
                  && (all <==> behind)
                  && (behind && w.tally.evicted == [] ==>
                        base <= w.cursor <= |w.sys.log| && w.tally.received == w.sys.log[base..w.cursor]))
  {
    var w0 := Arrive(bus, log, base, cursor, omitsZero);
    var w := Travel(w0, moves);
    CarefulPassesNothing(bus, log, base, cursor, omitsZero, moves);
    ExactlyOnce(bus, log, base, cursor, omitsZero, moves);
    if cursor <= |log| && (omitsZero ==> cursor > 0) {
      CarefulFromLevel(bus, log, base, cursor, omitsZero, moves);
      if Interleaving(w.tally.received, w.tally.evicted, w.sys.log[base..w.reached]) {
        InterleavingCounts(w.tally.received, w.tally.evicted, w.sys.log[base..w.reached]);
      }
    }
  }

  lemma CarefulPassesNothing(bus: BusState, log: seq<Event>, base: nat, cursor: nat, omitsZero: bool, moves: seq<Move>)
    requires Arrives(bus, log, base, cursor, omitsZero)
    requires CarefulTravel(Arrive(bus, log, base, cursor, omitsZero), moves)
    ensures NeverPassesOver(Arrive(bus, log, base, cursor, omitsZero), moves)
  {
    var w0 := Arrive(bus, log, base, cursor, omitsZero);
    ArriveInv(bus, log, base, cursor, omitsZero);
    ArriveComplete(bus, log, base, cursor, omitsZero);
    OpenDropsNothing(bus, log, CursorOf(cursor, omitsZero));
    CarefulIsUndropped(w0, moves);
    UndroppedPassesNothing(w0, moves);
  }

  lemma CarefulFromLevel(bus: BusState, log: seq<Event>, base: nat, cursor: nat, omitsZero: bool, moves: seq<Move>)
    requires Arrives(bus, log, base, cursor, omitsZero) && cursor <= |log| && (omitsZero ==> cursor > 0)
    requires CarefulTravel(Arrive(bus, log, base, cursor, omitsZero), moves)
    ensures var w0 := Arrive(bus, log, base, cursor, omitsZero); NeverAhead(w0, moves) && Level(Travel(w0, moves))
  {
    ArriveInv(bus, log, base, cursor, omitsZero);
    ArriveComplete(bus, log, base, cursor, omitsZero);
    ArriveLevel(bus, log, base, cursor, omitsZero);
    CarefulIsNeverAhead(Arrive(bus, log, base, cursor, omitsZero), moves);
  }

  /** A client that adopts data ids only is careful as long as nothing overflows. */
  lemma {:induction false} DataIdsAreCareful(w: World, moves: seq<Move>)
    requires forall m :: m in moves ==> m.Server? || m == Receive(false) || m.Reconnect?
    requires forall i :: 0 <= i < |moves| && moves[i].Server? ==>
               !Overflows(Travel(w, moves[..i]).sys, moves[i].action)
    ensures CarefulTravel(w, moves)
    decreases |moves|
  {
    if moves != [] {
      assert moves[0] in moves;
      assert Travel(w, moves[..0]) == w;
      var w' := Advance(w, moves[0]);
      forall i | 0 <= i < |moves[1..]| && moves[1..][i].Server?
        ensures !Overflows(Travel(w', moves[1..][..i]).sys, moves[1..][i].action)
      {
        assert moves[..i + 1][1..] == moves[1..][..i];
        assert Travel(w, moves[..i + 1]) == Travel(w', moves[1..][..i]);
      }
      DataIdsAreCareful(w', moves[1..]);
    }
  }

  // ---------------------------------------------------------------------------
  // The hazard: a sync frame that runs ahead of the queue
  // ---------------------------------------------------------------------------

  lemma SyncNumber(w: World)
    requires Inv(w.sys) && Consumed(w) && w.sys.dropped == []
    requires w.got < |w.sys.sent| && w.sys.sent[w.got].frame.Sync?
    ensures w.sys.sent[w.got].frame.seqNo == w.reached + w.sys.sent[w.got].waiting <= |w.sys.log|
  {
    NextFrame(w);
    if w.here > 0 {
      ReachedIsCount(w.sys, w.here);
    }
  }

  lemma AdoptSync(w: World)
    requires Inv(w.sys) && Consumed(w) && w.sys.dropped == []
    requires w.got < |w.sys.sent| && w.sys.sent[w.got].frame.Sync?
    ensures 0 <= w.reached + w.sys.sent[w.got].waiting <= |w.sys.log|
    ensures Advance(w, Receive(true)) ==
            w.(cursor := Max(w.cursor, w.reached + w.sys.sent[w.got].waiting), got := w.got + 1)
  {
    SyncNumber(w);
  }

  /**
   * Adopting a sync id and reconnecting before the queued events arrive skips exactly those of the events queued
   * behind the frame that the buffer still holds, and so nothing exactly when it holds none. A larger id skips more.
   */
  lemma SyncSkipsTheQueue(w: World)
    requires WorldInv(w) && Complete(w) && w.sys.dropped == []
    requires w.got < |w.sys.sent| && w.sys.sent[w.got].frame.Sync?
    ensures var w1 := Advance(w, Receive(true));
            var from := Retained(w.sys.log, w.reached);
            var t := Advance(w1, Reconnect).tally;
            && w1.cursor == Max(w.cursor, w.reached + w.sys.sent[w.got].waiting)
            && t.received == w.tally.received
            && t.skipped == w.tally.skipped + Part(w.sys.log, from, Max(from, Min(|w.sys.log|, Asked(w1))))
            && (t.skipped == w.tally.skipped <==> Min(|w.sys.log|, Asked(w1)) <= from)
            && (w1.cursor > 0 ==> Asked(w1) == w1.cursor)
  {
    AdoptSync(w);
    var w1 := Advance(w, Receive(true));
    SyncComplete(w, true);
    Return(w1);
    ReturnsBeyond(w.sys.log, Asked(w1), w.reached);
  }

  /** Nothing from below the start of a connection, or below what the client asks for, arrives any more. */
  lemma MoveReceives(w: World, m: Move, n: nat)
    requires WorldInv(w) && n <= First(w.sys) && n <= Asked(w)
    ensures var w' := Advance(w, m);
            && (forall e :: e in w'.tally.received ==> e in w.tally.received || e.seqNo > n)
            && n <= First(w'.sys) && n <= Asked(w')
  {
    match m
    case Server(a) => StepDelivers(w.sys, a);
    case Receive(adopt) => ReceiveReceives(w, adopt, n);
    case Reconnect => Return(w);
  }

  lemma ReceiveReceives(w: World, adopt: bool, n: nat)
    requires WorldInv(w) && n <= First(w.sys) && n <= Asked(w)
    ensures var w' := Advance(w, Receive(adopt));
            && (forall e :: e in w'.tally.received ==> e in w.tally.received || e.seqNo > n)
            && w'.sys == w.sys && n <= Asked(w')
  {
    if w.got < |w.sys.sent| {
      NextFrame(w);
      match w.sys.sent[w.got].frame
      case Data(e) => GotReceives(w, e, n);
      case Sync(_, _) => assert First(w.sys) <= |w.sys.past|;
    }
  }

  lemma GotReceives(w: World, e: Event, n: nat)
    requires n < e.seqNo && n <= Asked(w)
    ensures var w' := Got(w, e);
            && (forall x :: x in w'.tally.received ==> x in w.tally.received || x.seqNo > n)
            && w'.sys == w.sys && n <= Asked(w')
  {
  }

  /** What a connection starts beyond is never received on it or on any later one. */
  lemma {:induction false} SkippedForGood(w: World, moves: seq<Move>, n: nat)
    requires WorldInv(w) && n <= First(w.sys) && n <= Asked(w)
    ensures forall e :: e in Travel(w, moves).tally.received ==> e in w.tally.received || e.seqNo > n
    decreases |moves|
  {
    if moves != [] {
      MoveInv(w, moves[0]);
      MoveReceives(w, moves[0], n);
      SkippedForGood(Advance(w, moves[0]), moves[1..], n);
    }
  }

  ghost predicate NeverReceived(w: World, e: Event) {
    forall moves :: e !in Travel(w, moves).tally.received
  }

  lemma NeverAfter(w: World, e: Event)
    requires WorldInv(w) && e.seqNo <= First(w.sys) && e.seqNo <= Asked(w) && e !in w.tally.received
    ensures NeverReceived(w, e)
  {
    forall moves ensures e !in Travel(w, moves).tally.received {
      SkippedForGood(w, moves, e.seqNo);
    }
  }

  /**
   * One publication while a replayed frame is being written is enough: publish, sync frame, both frames received and
   * the sync id adopted, reconnect. Event 2 is never received.
   */
  lemma SyncLosesAnEvent(bus: BusState, log: seq<Event>) returns (moves: seq<Move>)
    requires log == [Event(1, "a", "1")] && bus == BusState(1, log, false)
    ensures |moves| == 5 && moves[3] == Receive(true) && moves[4] == Reconnect
    ensures var w := Travel(Arrive(bus, log, 0, 0, false), moves);
            && w.sys.log == log + [Event(2, "b", "2")] && w.cursor == 2
            && w.tally == Tally(log, [], [Event(2, "b", "2")], []) && Event(2, "b", "2") in w.sys.bus.replay
            && NeverReceived(w, Event(2, "b", "2"))
  {
    var w0 := Arrive(bus, log, 0, 0, false);
    ArriveInv(bus, log, 0, 0, false);
    moves := SyncScenario(bus, log, w0);
    TravelInv(w0, moves);
    SecondEventIsLost(log, Travel(w0, moves));
  }

  lemma SecondEventIsLost(log: seq<Event>, w: World)
    requires WorldInv(w) && log == [Event(1, "a", "1")] && w.tally.received == log
    requires w.cursor == 2 && First(w.sys) == 2 && !w.omitsZero
    ensures NeverReceived(w, Event(2, "b", "2"))
  {
    NeverAfter(w, Event(2, "b", "2"));
  }

  lemma SyncScenario(bus: BusState, log: seq<Event>, w0: World) returns (moves: seq<Move>)
    requires log == [Event(1, "a", "1")] && bus == BusState(1, log, false) && w0 == Arrive(bus, log, 0, 0, false)
    ensures |moves| == 5 && moves[3] == Receive(true) && moves[4] == Reconnect
    ensures var w := Travel(w0, moves);
            && w.sys.log == log + [Event(2, "b", "2")] && w.sys.bus.replay == w.sys.log
            && w.tally == Tally(log, [], [Event(2, "b", "2")], []) && w.cursor == 2 && First(w.sys) == 2 && !w.omitsZero
  {
    var w2 := w0.(sys := System(
                    BusState(2, log + [Event(2, "b", "2")], false),
                    Conn(Live, [Published(Event(2, "b", "2"))], 1),
                    [Sent(Data(log[0]), 0, 0), Sent(Sync(2, false), 1, 1)],
                    log + [Event(2, "b", "2")], log, log, 1, [], [], []));
    SyncPrelude(bus, log, w0, w2);
    var w4 := SyncAdopted(log, w2);
    moves := [Server(Publish("b", "2")), Server(Resume), Receive(true), Receive(true), Reconnect];
    FiveMoves(w0, moves);
    SyncReconnect(log, w4);
  }

  lemma SyncReconnect(log: seq<Event>, w: World)
    requires log == [Event(1, "a", "1")] && w.sys.log == log + [Event(2, "b", "2")]
    requires w.sys.bus == BusState(2, w.sys.log, false) && !w.omitsZero
    requires w.reached == 1 && w.cursor == 2 && w.tally == Tally(log, [], [], [])
    ensures var w' := Advance(w, Reconnect);
            && w'.sys.log == w.sys.log && w'.sys.bus == w.sys.bus && !w'.omitsZero
            && w'.cursor == 2 && First(w'.sys) == 2 && w'.tally == Tally(log, [], [Event(2, "b", "2")], [])
  {
    Return(w);
    assert w.sys.log[1..2] == [Event(2, "b", "2")] && w.sys.log[1..1] == [];
  }

  lemma SyncAdopted(log: seq<Event>, w: World) returns (w': World)
    requires log == [Event(1, "a", "1")] && w.tally == Tally([], [], [], []) && w.got == 0 && w.here == 0
    requires w.cursor == 0 && w.reached == 0
    requires w.sys.sent == [Sent(Data(log[0]), 0, 0), Sent(Sync(2, false), 1, 1)]
    ensures w' == Advance(Advance(w, Receive(true)), Receive(true))
    ensures w' == w.(tally := Tally(log, [], [], []), got := 2, here := 1, cursor := 2, reached := 1)
  {
    var w3 := Advance(w, Receive(true));
    assert w3 == w.(tally := Tally(log, [], [], []), got := 1, here := 1, cursor := 1, reached := 1);
    w' := Advance(w3, Receive(true));
  }

  lemma SyncPrelude(bus: BusState, log: seq<Event>, w0: World, w2: World)
    requires log == [Event(1, "a", "1")] && bus == BusState(1, log, false) && w0 == Arrive(bus, log, 0, 0, false)
    requires w2 == w0.(sys := System(
                    BusState(2, log + [Event(2, "b", "2")], false),
                    Conn(Live, [Published(Event(2, "b", "2"))], 1),
                    [Sent(Data(log[0]), 0, 0), Sent(Sync(2, false), 1, 1)],
                    log + [Event(2, "b", "2")], log, log, 1, [], [], []))
    ensures w0.tally == Tally([], [], [], []) && w0.got == 0 && w0.here == 0 && w0.cursor == 0 && w0.reached == 0
    ensures !w0.omitsZero && Advance(Advance(w0, Server(Publish("b", "2"))), Server(Resume)) == w2
  {
    OpenFirst(bus, log, 0, false);
    SyncPublish(bus, log, w0.sys);
  }

  lemma SyncPublish(bus: BusState, log: seq<Event>, s: System)
    requires log == [Event(1, "a", "1")] && bus == BusState(1, log, false) && s == Open(bus, log, At(0))
    ensures var log2 := log + [Event(2, "b", "2")];
            Step(s, Publish("b", "2")) ==
            System(BusState(2, log2, false), Conn(Replaying(log, 0), [Published(Event(2, "b", "2"))], 0),
                   [Sent(Data(log[0]), 0, 0)], log2, log, log, 1, [], [], [])
  {
    ReplayIsTail(bus, log, 0);
    assert log[0..] == log;
    assert s == System(bus, Conn(Replaying(log, 0), [], 0), [Sent(Data(log[0]), 0, 0)], log, log, log, 1, [], [], []);
  }

  lemma FiveMoves(w: World, m: seq<Move>)
    requires |m| == 5
    ensures Travel(w, m) == Advance(Advance(Advance(Advance(Advance(w, m[0]), m[1]), m[2]), m[3]), m[4])
  {
    TravelStep(w, m);
    var w1 := Advance(w, m[0]);
    TravelStep(w1, m[1..]);
    var w2 := Advance(w1, m[1]);
    TravelStep(w2, m[1..][1..]);
    var w3 := Advance(w2, m[2]);
    TravelStep(w3, m[1..][1..][1..]);
    TravelStep(Advance(w3, m[3]), m[1..][1..][1..][1..]);
  }

  lemma TravelStep(w: World, moves: seq<Move>)
    requires moves != []
    ensures Travel(w, moves) == Travel(Advance(w, moves[0]), moves[1..])
    ensures |moves| == 1 ==> Travel(w, moves) == Advance(w, moves[0])
  {
  }

  // ---------------------------------------------------------------------------
  // The hazard of an id that is left out
  // ---------------------------------------------------------------------------

  /**
   * A client that leaves out an id of 0 connects before anything was published, adopts the sync id, which is 0, and
   * loses its connection. Event 1 is published meanwhile; the client comes back without an id and never receives it.
   */
  lemma OmittedZeroLosesAnEvent() returns (moves: seq<Move>)
    ensures moves == [Receive(true), Server(Publish("a", "1")), Reconnect]
    ensures var w := Travel(Arrive(EMPTY_BUS, [], 0, 0, true), moves);
            && w.sys.log == [Event(1, "a", "1")] && w.tally == Tally([], [], [Event(1, "a", "1")], [])
            && Event(1, "a", "1") in w.sys.bus.replay
            && NeverReceived(w, Event(1, "a", "1"))
  {
    moves := [Receive(true), Server(Publish("a", "1")), Reconnect];
    var w0 := Arrive(EMPTY_BUS, [], 0, 0, true);
    ArriveInv(EMPTY_BUS, [], 0, 0, true);
    TravelInv(w0, moves);
    OmittedScenario(w0, moves);
    FirstEventIsLost(Travel(w0, moves), Event(1, "a", "1"));
  }

  lemma FirstEventIsLost(w: World, e: Event)
    requires WorldInv(w) && e.seqNo == 1 && w.tally.received == [] && First(w.sys) == 1 && Asked(w) >= 1
    ensures NeverReceived(w, e)
  {
    NeverAfter(w, e);
  }

  lemma OmittedScenario(w0: World, moves: seq<Move>)
    requires w0 == Arrive(EMPTY_BUS, [], 0, 0, true) && moves == [Receive(true), Server(Publish("a", "1")), Reconnect]
    ensures var w := Travel(w0, moves);
            && w.sys.log == [Event(1, "a", "1")] && w.sys.bus == BusState(1, w.sys.log, false)
            && w.tally == Tally([], [], [Event(1, "a", "1")], []) && First(w.sys) == 1 && Asked(w) == 1
  {
    var w2 := OmittedPrelude(w0);
    ThreeMoves(w0, moves);
    OmittedReturn(w2);
  }

  lemma ThreeMoves(w: World, m: seq<Move>)
    requires |m| == 3
    ensures Travel(w, m) == Advance(Advance(Advance(w, m[0]), m[1]), m[2])
  {
    TravelStep(w, m);
    var w1 := Advance(w, m[0]);
    TravelStep(w1, m[1..]);
    TravelStep(Advance(w1, m[1]), m[1..][1..]);
  }

  lemma OmittedReturn(w: World)
    requires w.sys.log == [Event(1, "a", "1")] && w.sys.bus == BusState(1, w.sys.log, false)
    requires w.tally == Tally([], [], [], []) && w.cursor == 0 && w.reached == 0 && w.omitsZero
    ensures var w' := Advance(w, Reconnect);
            && w'.sys.log == w.sys.log && w'.sys.bus == w.sys.bus
            && w'.tally == Tally([], [], [Event(1, "a", "1")], []) && First(w'.sys) == 1 && Asked(w') == 1
  {
    Return(w);
    assert w.sys.log[0..1] == [Event(1, "a", "1")] && w.sys.log[0..0] == [];
  }

  lemma OmittedPrelude(w0: World) returns (w2: World)
    requires w0 == Arrive(EMPTY_BUS, [], 0, 0, true)
    ensures w2 == Advance(Advance(w0, Receive(true)), Server(Publish("a", "1")))
    ensures w2.sys.log == [Event(1, "a", "1")] && w2.sys.bus == BusState(1, w2.sys.log, false)
    ensures w2.tally == Tally([], [], [], []) && w2.cursor == 0 && w2.reached == 0 && w2.omitsZero
  {
    assert w0.sys.sent == [Sent(Sync(0, false), 0, 0)];
    assert w0.tally == Tally([], [], [], []) && w0.reached == 0;
    var w1 := Advance(w0, Receive(true));
    assert w1 == w0.(got := 1);
    w2 := Advance(w1, Server(Publish("a", "1")));
    assert [] + [Event(1, "a", "1")] == [Event(1, "a", "1")];
  }

  // ---------------------------------------------------------------------------
  // The hazard of an id from before a restart
  // ---------------------------------------------------------------------------

  /**
   * An id that the history has not passed is replayed nothing: a return skips every retained event that the client
   * lacks, and none exactly when the client has all there is.
   */
  lemma StaleReturnSkipsAll(w: World)
    requires WorldInv(w) && Complete(w) && Asked(w) >= |w.sys.log|
    ensures var t := Advance(w, Reconnect).tally;
            && t.received == w.tally.received
            && t.skipped == w.tally.skipped + Part(w.sys.log, Retained(w.sys.log, w.reached), |w.sys.log|)
            && (t.skipped == w.tally.skipped <==> w.reached == |w.sys.log|)
  {
    Return(w);
    ReturnSkips(w);
  }

  /**
   * The backend restarts and publishes its first event; a client comes back with an id of the earlier life. Event 1 is
   * in the buffer, and the client never receives it.
   */
  lemma RestartLosesAnEvent(bus: BusState, log: seq<Event>, cursor: nat, omitsZero: bool)
    requires log == [Event(1, "a", "1")] && bus == BusState(1, log, false) && cursor >= 1
    ensures var w := Arrive(bus, log, 0, cursor, omitsZero);
            && Arrives(bus, log, 0, cursor, omitsZero)
            && w.tally == Tally([], [], log, []) && log[0] in bus.replay && NeverReceived(w, log[0])
  {
    ArriveInv(bus, log, 0, cursor, omitsZero);
    RestartSkips(bus, log, cursor, omitsZero);
    FirstEventIsLost(Arrive(bus, log, 0, cursor, omitsZero), log[0]);
  }

  lemma RestartSkips(bus: BusState, log: seq<Event>, cursor: nat, omitsZero: bool)
    requires log == [Event(1, "a", "1")] && bus == BusState(1, log, false) && cursor >= 1
    ensures var w := Arrive(bus, log, 0, cursor, omitsZero);
            w.tally == Tally([], [], log, []) && First(w.sys) == 1 && Asked(w) == cursor
  {
    OpenFirst(bus, log, cursor, omitsZero);
    assert log[0..0] == [] && log[0..1] == log;
  }
}
