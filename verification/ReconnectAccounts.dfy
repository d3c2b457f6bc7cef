/**
 * Where every event of the history went, for a client that reconnects: received, evicted, skipped or passed over.
 */
module Accounts {
  import opened Prelude
  import opened Bus
  import opened Stream
  import opened Reconnection

  // ---------------------------------------------------------------------------
  // What the four parts of the tally are
  // ---------------------------------------------------------------------------

  lemma PartIsOld(log: seq<Event>, reached: int)
    requires Numbered(log)
    ensures forall e :: e in Part(log, reached, Retained(log, reached)) ==> e.seqNo <= |log| - REPLAY_BUFFER_SIZE
  {
  }

  /**
   * What the buffer holds when the client comes back: nothing of the part that counts as evicted, all of the part that
   * counts as skipped.
   */
  lemma EvictedIsGone(bus: BusState, log: seq<Event>, reached: int, first: int)
    requires Records(bus, log) && 0 <= reached <= |log|
    ensures forall e :: e in Part(log, reached, Retained(log, reached)) ==> e !in bus.replay
    ensures forall e :: e in Part(log, Retained(log, reached), first) ==> e in bus.replay
  {
    PartIsOld(log, reached);
    var from := Retained(log, reached);
    assert 0 <= from <= first <= |log| ==> forall i :: from <= i < first ==> log[i] in bus.replay;
  }

  /** A delivered event stands in the history under its number. */
  lemma DeliveredIsHistory(s: System, i: nat)
    requires Inv(s) && i < |Delivered(s)|
    ensures 1 <= Delivered(s)[i].seqNo <= |s.log| && s.log[Delivered(s)[i].seqNo - 1] == Delivered(s)[i]
  {
    LiveIsTaken(s);
    InHistoryOf(s, i);
  }

  lemma LiveIsTaken(s: System)
    requires Interleaving(s.live, s.dropped, s.taken)
    ensures forall e :: e in s.live ==> e in s.taken
  {
    forall e | e in s.live ensures e in s.taken {
      InterleavingHolds(s.live, s.dropped, s.taken, e);
    }
  }

  lemma InHistoryOf(s: System, i: nat)
    requires Conserves(s) && Numbered(s.log) && Snapshots(s) && Progress(s) && i < |Delivered(s)|
    requires forall e :: e in s.live ==> e in s.taken
    ensures 1 <= Delivered(s)[i].seqNo <= |s.log| && s.log[Delivered(s)[i].seqNo - 1] == Delivered(s)[i]
  {
    var e := Delivered(s)[i];
    if i < s.replayed {
      assert e == s.past[First(s) + i];
      InHistory(s, First(s) + i);
    } else {
      assert e == s.live[i - s.replayed] && e in s.live;
      var j :| 0 <= j < |s.taken| && s.taken[j] == e;
      InHistory(s, |s.past| + j);
    }
  }

  lemma InHistory(s: System, p: nat)
    requires Conserves(s) && Numbered(s.log) && p < |s.past| + |s.taken|
    ensures p < |s.log| && s.log[p] == (if p < |s.past| then s.past[p] else s.taken[p - |s.past|])
    ensures s.log[p].seqNo == p + 1
  {
    var all := s.past + s.taken;
    assert all <= s.log;
    assert s.log[p] == all[p];
  }

  lemma InterleavingHolds<T>(a: seq<T>, b: seq<T>, c: seq<T>, x: T)
    requires Interleaving(a, b, c)
    ensures x in c <==> x in a || x in b
  {
    InterleavingCounts(a, b, c);
    assert x in multiset(c) <==> x in multiset(a) + multiset(b);
  }

  /** What a client passes over on a connection has been dropped from its queue. */
  lemma GapIsDropped(s: System, here: nat, reached: int, p: int)
    requires Inv(s) && here < |Delivered(s)|
    requires reached == if here == 0 then First(s) else Delivered(s)[here - 1].seqNo
    requires reached <= p < Delivered(s)[here].seqNo - 1
    ensures 0 <= p < |s.log| && s.log[p] in s.dropped
  {
    DeliveredIncreasing(s);
    assert Delivered(s)[here] in Delivered(s);
    var e := s.log[p];
    InterleavingHolds(s.live, s.dropped, s.taken, e);
    if e in s.live {
      var k :| 0 <= k < |s.live| && s.live[k] == e;
      BetweenIsNothing(s, here, k);
    }
  }

  lemma BetweenIsNothing(s: System, here: nat, k: nat)
    requires Inv(s) && s.replayed <= here < |Delivered(s)| && k < |s.live|
    ensures s.live[k].seqNo >= Delivered(s)[here].seqNo || (here > 0 && s.live[k].seqNo <= Delivered(s)[here - 1].seqNo)
  {
    DeliveredIncreasing(s);
  }

  // ---------------------------------------------------------------------------
  // Exactly once: the parts add up to the history
  // ---------------------------------------------------------------------------

  /** What is asked for is beyond the first event after `reached` that the buffer still holds. */
  predicate Ahead(log: seq<Event>, reached: int, asked: nat) {
    Min(|log|, asked) > Retained(log, reached)
  }

  /** The client comes back with a cursor beyond the first event that it lacks and the buffer still holds. */
  predicate ComesBackAhead(w: World, m: Move) {
    m.Reconnect? && Ahead(w.sys.log, w.reached, Asked(w))
  }

  predicate NeverAhead(w: World, moves: seq<Move>)
    decreases |moves|
  {
    moves == [] || (!ComesBackAhead(w, moves[0]) && NeverAhead(Advance(w, moves[0]), moves[1..]))
  }

  /** The client gets a data frame whose number is not the next. */
  predicate PassesOver(w: World, m: Move) {
    m.Receive? && w.got < |w.sys.sent| && w.sys.sent[w.got].frame.Data?
    && w.sys.sent[w.got].frame.event.seqNo > w.reached + 1
  }

  predicate NeverPassesOver(w: World, moves: seq<Move>)
    decreases |moves|
  {
    moves == [] || (!PassesOver(w, moves[0]) && NeverPassesOver(Advance(w, moves[0]), moves[1..]))
  }

  /** Everything up to `reached` is in one part of the tally. */
  ghost predicate Accounted(log: seq<Event>, base: nat, reached: int, t: Tally) {
    base <= reached <= |log| && Balanced(log[base..reached], t) && InOrderUpTo(t.evicted, reached)
  }

  ghost predicate InOrderUpTo(events: seq<Event>, reached: int) {
    Increasing(events) && forall e :: e in events ==> e.seqNo <= reached
  }

  ghost predicate Balanced(all: seq<Event>, t: Tally) {
    multiset(t.received) + multiset(t.evicted) + multiset(t.skipped) + multiset(t.overflowed) == multiset(all)
  }

  /** And what the client asks for is behind only by events that the buffer no longer holds. */
  ghost predicate Tallied(log: seq<Event>, base: nat, asked: nat, reached: int, t: Tally) {
    && (asked >= reached || reached <= |log| - REPLAY_BUFFER_SIZE)
    && Accounted(log, base, reached, t)
  }

  ghost predicate Complete(w: World) {
    Tallied(w.sys.log, w.base, Asked(w), w.reached, w.tally)
  }

  lemma PartInOrder(events: seq<Event>, log: seq<Event>, lo: int, hi: int)
    requires Numbered(log) && 0 <= lo <= hi <= |log| && InOrderUpTo(events, lo)
    ensures InOrderUpTo(events + log[lo..hi], hi)
  {
    var part := log[lo..hi];
    assert forall e :: e in part ==> lo < e.seqNo <= hi;
  }

  lemma AccountedGrow(log: seq<Event>, log': seq<Event>, base: nat, reached: int, t: Tally)
    requires Accounted(log, base, reached, t) && log <= log'
    ensures Accounted(log', base, reached, t)
  {
    SliceOfPrefix(log, log', base, reached);
  }

  lemma ServerComplete(w: World, a: Action)
    requires Inv(w.sys) && Complete(w)
    ensures Complete(Advance(w, Server(a)))
  {
    StepDelivers(w.sys, a);
    AccountedGrow(w.sys.log, Step(w.sys, a).log, w.base, w.reached, w.tally);
  }

  lemma ThreeParts(log: seq<Event>, base: nat, reached: int, hi: int)
    requires base <= reached < hi <= |log|
    ensures log[base..reached] + log[reached..hi - 1] + [log[hi - 1]] == log[base..hi]
  {
  }

  lemma AddIs(t: Tally, log: seq<Event>, reached: int, e: Event, gap: seq<Event>)
    requires 0 <= reached < e.seqNo <= |log| && gap == log[reached..e.seqNo - 1]
    ensures Add(t, log, reached, e) == t.(received := t.received + [e], overflowed := t.overflowed + gap)
  {
  }

  lemma BalancedGap(log: seq<Event>, base: nat, reached: int, t: Tally, e: Event, gap: seq<Event>)
    requires base <= reached < e.seqNo <= |log| && log[e.seqNo - 1] == e
    requires Balanced(log[base..reached], t) && gap == log[reached..e.seqNo - 1]
    ensures Balanced(log[base..e.seqNo], t.(received := t.received + [e], overflowed := t.overflowed + gap))
  {
    ThreeParts(log, base, reached, e.seqNo);
  }

  lemma AccountedReceive(log: seq<Event>, base: nat, reached: int, t: Tally, e: Event)
    requires Accounted(log, base, reached, t) && reached < e.seqNo <= |log| && log[e.seqNo - 1] == e
    ensures Accounted(log, base, e.seqNo, Add(t, log, reached, e))
  {
    var gap := log[reached..e.seqNo - 1];
    BalancedGap(log, base, reached, t, e, gap);
    AddIs(t, log, reached, e, gap);
  }

  lemma GotComplete(w: World, e: Event)
    requires Complete(w) && w.reached < e.seqNo <= |w.sys.log| && w.sys.log[e.seqNo - 1] == e
    ensures Complete(Got(w, e))
  {
    AccountedReceive(w.sys.log, w.base, w.reached, w.tally, e);
  }

  /** The next data frame is beyond what was reached, and brings its own place in the history. */
  lemma NextData(w: World)
    requires Inv(w.sys) && Consumed(w) && w.got < |w.sys.sent| && w.sys.sent[w.got].frame.Data?
    ensures var e := w.sys.sent[w.got].frame.event;
            && w.reached < e.seqNo <= |w.sys.log| && w.sys.log[e.seqNo - 1] == e
            && w.here < |Delivered(w.sys)| && e == Delivered(w.sys)[w.here]
  {
    NextFrame(w);
    DeliveredIsHistory(w.sys, w.here);
    DeliveredIncreasing(w.sys);
  }

  /** As long as the cursor is 0 nothing has been received, so the client has reached no more than the replay's start. */
  lemma ZeroCursorReachedNothing(w: World)
    requires WorldInv(w) && w.cursor == 0
    ensures w.here == 0 && w.reached == First(w.sys) <= |w.sys.past|
  {
  }

  lemma SyncComplete(w: World, adopt: bool)
    requires WorldInv(w) && Complete(w) && w.got < |w.sys.sent| && w.sys.sent[w.got].frame.Sync?
    ensures Complete(Advance(w, Receive(adopt)))
  {
    NextFrame(w);
    if w.cursor == 0 {
      ZeroCursorReachedNothing(w);
    }
  }

  /** Where the new replay starts: beyond what the client reached, and beyond what the buffer lost. */
  lemma ReturnsBeyond(log: seq<Event>, asked: nat, reached: int)
    requires 0 <= reached <= |log|
    requires asked >= reached || reached <= |log| - REPLAY_BUFFER_SIZE
    ensures reached <= Retained(log, reached) <= ReplayFrom(|log|, asked) <= |log|
    ensures asked >= ReplayFrom(|log|, asked) || ReplayFrom(|log|, asked) <= |log| - REPLAY_BUFFER_SIZE
    ensures ReplayFrom(|log|, asked) == Max(Retained(log, reached), Min(|log|, asked))
    ensures Part(log, Retained(log, reached), ReplayFrom(|log|, asked)) == [] <==> !Ahead(log, reached, asked)
  {
    var from, first := Retained(log, reached), ReplayFrom(|log|, asked);
    assert |Part(log, from, first)| == first - from;
  }

  lemma AccountedReturn(log: seq<Event>, base: nat, reached: int, first: int, t: Tally)
    requires Numbered(log) && Accounted(log, base, reached, t) && reached <= Retained(log, reached) <= first <= |log|
    ensures Accounted(log, base, first, Settle(t, log, reached, first))
  {
    var from := Retained(log, reached);
    var all, gone, passed := log[base..reached], log[reached..from], log[from..first];
    assert all + gone + passed == log[base..first];
    PartInOrder(t.evicted, log, reached, from);
  }

  lemma TalliedReturn(log: seq<Event>, base: nat, asked: nat, reached: int, t: Tally)
    requires Numbered(log) && Tallied(log, base, asked, reached, t)
    ensures var first := ReplayFrom(|log|, asked); Tallied(log, base, asked, first, Settle(t, log, reached, first))
  {
    ReturnsBeyond(log, asked, reached);
    AccountedReturn(log, base, reached, ReplayFrom(|log|, asked), t);
  }

  lemma ArriveComplete(bus: BusState, log: seq<Event>, base: nat, cursor: nat, omitsZero: bool)
    requires Arrives(bus, log, base, cursor, omitsZero)
    ensures Complete(Arrive(bus, log, base, cursor, omitsZero))
    ensures Arrive(bus, log, base, cursor, omitsZero).tally.skipped == [] <==>
            !Ahead(log, base, Asks(log, cursor, omitsZero))
  {
    OpenFirst(bus, log, cursor, omitsZero);
    ReturnsBeyond(log, Asks(log, cursor, omitsZero), base);
    TalliedStart(log, base, Asks(log, cursor, omitsZero));
  }

  lemma TalliedStart(log: seq<Event>, base: nat, asked: nat)
    requires Numbered(log) && base <= |log| && base <= asked
    ensures var first := ReplayFrom(|log|, asked);
            Tallied(log, base, asked, first, Settle(Tally([], [], [], []), log, base, first))
  {
    assert log[base..base] == [];
    TalliedReturn(log, base, asked, base, Tally([], [], [], []));
  }

  lemma ReconnectComplete(w: World)
    requires Numbered(w.sys.log) && Complete(w)
    ensures Complete(Advance(w, Reconnect))
  {
    Return(w);
    TalliedReturn(w.sys.log, w.base, Asked(w), w.reached, w.tally);
  }

  lemma ReceiveComplete(w: World, adopt: bool)
    requires WorldInv(w) && Complete(w)
    ensures Complete(Advance(w, Receive(adopt)))
  {
    if w.got < |w.sys.sent| {
      match w.sys.sent[w.got].frame
      case Data(e) =>
        NextData(w);
        GotComplete(w, e);
      case Sync(_, _) =>
        SyncComplete(w, adopt);
    }
  }

  lemma MoveComplete(w: World, m: Move)
    requires WorldInv(w) && Complete(w)
    ensures Complete(Advance(w, m))
  {
    match m
    case Server(a) => ServerComplete(w, a);
    case Receive(adopt) => ReceiveComplete(w, adopt);
    case Reconnect => ReconnectComplete(w);
  }

  /**
   * A return skips something exactly when the client comes back ahead. What it adds to `evicted` has left the buffer by
   * then, what it adds to `skipped` has not.
   */
  lemma ReturnSkips(w: World)
    requires WorldInv(w) && Complete(w)
    ensures var t, t' := w.tally, Advance(w, Reconnect).tally;
            && t'.received == t.received && t'.overflowed == t.overflowed
            && t.skipped <= t'.skipped && (t'.skipped == t.skipped <==> !ComesBackAhead(w, Reconnect))
            && t.evicted <= t'.evicted
            && (forall e :: e in t'.evicted[|t.evicted|..] ==> e !in w.sys.bus.replay)
            && (forall e :: e in t'.skipped[|t.skipped|..] ==> e in w.sys.bus.replay)
  {
    var log, first := w.sys.log, ReplayFrom(|w.sys.log|, Asked(w));
    Return(w);
    ReturnsBeyond(log, Asked(w), w.reached);
    EvictedIsGone(w.sys.bus, log, w.reached, first);
  }

  /** A data frame passes something over exactly when its number is not the next; and that the queue had dropped. */
  lemma FramePassesOver(w: World)
    requires Inv(w.sys) && Consumed(w) && 0 <= w.reached && w.got < |w.sys.sent| && w.sys.sent[w.got].frame.Data?
    ensures var e := w.sys.sent[w.got].frame.event;
            var gap := Part(w.sys.log, w.reached, e.seqNo - 1);
            && Got(w, e).tally == w.tally.(received := w.tally.received + [e], overflowed := w.tally.overflowed + gap)
            && (gap == [] <==> e.seqNo == w.reached + 1)
            && (forall x :: x in gap ==> x in w.sys.dropped)
  {
    NextData(w);
    FrameGapDropped(w);
  }

  lemma FrameGapDropped(w: World)
    requires Inv(w.sys) && Consumed(w) && 0 <= w.reached && w.got < |w.sys.sent| && w.sys.sent[w.got].frame.Data?
    ensures forall x :: x in Part(w.sys.log, w.reached, w.sys.sent[w.got].frame.event.seqNo - 1) ==> x in w.sys.dropped
  {
    NextData(w);
    GapDropped(w.sys, w.here, w.reached);
  }

  lemma GapDropped(s: System, here: nat, reached: int)
    requires Inv(s) && here < |Delivered(s)| && 0 <= reached < Delivered(s)[here].seqNo <= |s.log|
    requires reached == if here == 0 then First(s) else Delivered(s)[here - 1].seqNo
    ensures forall x :: x in Part(s.log, reached, Delivered(s)[here].seqNo - 1) ==> x in s.dropped
  {
    forall p | reached <= p < Delivered(s)[here].seqNo - 1 ensures s.log[p] in s.dropped {
      GapIsDropped(s, here, reached, p);
    }
  }

  /** The two together: when a move adds to what is skipped or passed over. */
  lemma MoveSkips(w: World, m: Move)
    requires WorldInv(w) && Complete(w)
    ensures var t, t' := w.tally, Advance(w, m).tally;
            && t.skipped <= t'.skipped && (t'.skipped == t.skipped <==> !ComesBackAhead(w, m))
            && t.overflowed <= t'.overflowed && (t'.overflowed == t.overflowed <==> !PassesOver(w, m))
  {
    match m
    case Server(_) =>
    case Receive(_) =>
      if w.got < |w.sys.sent| && w.sys.sent[w.got].frame.Data? {
        NextData(w);
      }
    case Reconnect => ReturnSkips(w);
  }

  lemma {:induction false} TravelComplete(w: World, moves: seq<Move>)
    requires WorldInv(w) && Complete(w)
    ensures WorldInv(Travel(w, moves)) && Complete(Travel(w, moves))
    ensures var t, t' := w.tally, Travel(w, moves).tally;
            && t.skipped <= t'.skipped && (t'.skipped == t.skipped <==> NeverAhead(w, moves))
            && t.overflowed <= t'.overflowed && (t'.overflowed == t.overflowed <==> NeverPassesOver(w, moves))
    decreases |moves|
  {
    if moves != [] {
      MoveComplete(w, moves[0]);
      MoveInv(w, moves[0]);
      MoveSkips(w, moves[0]);
      TravelComplete(Advance(w, moves[0]), moves[1..]);
    }
  }

  /**
   * Exactly once, without any assumption on the run or on the id that the client brings: each event up to the point
   * the client has reached was received once, or had left the replay buffer when the client came for it, or was still
   * in it but skipped, or had been dropped from the client's queue. With nothing but evicted events missing, and in
   * order, exactly when the client never comes ahead of a retained event that it lacks, neither the first time nor
   * later, and never gets a number that is not the next.
   */
  lemma ExactlyOnce(bus: BusState, log: seq<Event>, base: nat, cursor: nat, omitsZero: bool, moves: seq<Move>)
    requires Arrives(bus, log, base, cursor, omitsZero)
    ensures var w0 := Arrive(bus, log, base, cursor, omitsZero);
            var w := Travel(w0, moves);
            var t := w.tally;
            var behind := !Ahead(log, base, Asks(log, cursor, omitsZero)) && NeverAhead(w0, moves);
            && base <= w.reached <= |w.sys.log|
            && multiset(t.received) + multiset(t.evicted) + multiset(t.skipped) + multiset(t.overflowed) ==
               multiset(w.sys.log[base..w.reached])
            && (t.skipped == [] <==> behind)
            && (t.overflowed == [] <==> NeverPassesOver(w0, moves))
            && (Interleaving(t.received, t.evicted, w.sys.log[base..w.reached]) <==>
                behind && NeverPassesOver(w0, moves))
            && (forall e :: e in t.evicted ==> e !in w.sys.bus.replay)
  {
    var w0 := Arrive(bus, log, base, cursor, omitsZero);
    var w := Travel(w0, moves);
    ArriveInv(bus, log, base, cursor, omitsZero);
    ArriveComplete(bus, log, base, cursor, omitsZero);
    TravelComplete(w0, moves);
    TravelKeepsBase(w0, moves);
    ReceivedIncreasing(w);
    AccountedMeans(w.sys.log, base, w.reached, w.tally);
    PartIsOld(log, base);
    EvictedStaysGone(w0, moves);
  }

  lemma AccountedMeans(log: seq<Event>, base: nat, reached: int, t: Tally)
    requires Numbered(log) && Accounted(log, base, reached, t) && Increasing(t.received)
    ensures Interleaving(t.received, t.evicted, log[base..reached]) <==> t.skipped == [] && t.overflowed == []
  {
    if t.skipped == [] && t.overflowed == [] {
      IncreasingInterleave(t.received, t.evicted, log[base..reached]);
    }
    if Interleaving(t.received, t.evicted, log[base..reached]) {
      InterleavingCounts(t.received, t.evicted, log[base..reached]);
      SizesAdd(log[base..reached], t);
    }
  }

  lemma SizesAdd(all: seq<Event>, t: Tally)
    requires Balanced(all, t)
    ensures |t.received| + |t.evicted| + |t.skipped| + |t.overflowed| == |all|
  {
    assert |multiset(all)| == |all|;
  }

  /** Ordered parts that add up to an ordered whole interleave to it. */
  lemma {:induction false} IncreasingInterleave(a: seq<Event>, b: seq<Event>, c: seq<Event>)
    requires Increasing(a) && Increasing(b) && Increasing(c)
    requires multiset(a) + multiset(b) == multiset(c)
    ensures Interleaving(a, b, c)
    decreases |c|
  {
    if c == [] {
      assert |multiset(a) + multiset(b)| == 0;
    } else {
      var x := c[|c| - 1];
      var c' := c[..|c| - 1];
      assert x in multiset(a) + multiset(b);
      if x in a {
        var a' := a[..|a| - 1];
        LastIsLast(a, b, c);
        TakeLast(a, b, c);
        IncreasingInterleave(a', b, c');
      } else {
        var b' := b[..|b| - 1];
        assert multiset(b) + multiset(a) == multiset(c);
        LastIsLast(b, a, c);
        TakeLast(b, a, c);
        IncreasingInterleave(a, b', c');
      }
    }
  }

  lemma LastIsLast(a: seq<Event>, b: seq<Event>, c: seq<Event>)
    requires Increasing(a) && Increasing(c) && c != [] && multiset(a) + multiset(b) == multiset(c) && c[|c| - 1] in a
    ensures a != [] && a[|a| - 1] == c[|c| - 1]
  {
    var y := a[|a| - 1];
    assert y in multiset(c);
    assert y.seqNo <= c[|c| - 1].seqNo;
  }

  lemma TakeLast<T>(a: seq<T>, b: seq<T>, c: seq<T>)
    requires a != [] && c != [] && a[|a| - 1] == c[|c| - 1] && multiset(a) + multiset(b) == multiset(c)
    ensures multiset(a[..|a| - 1]) + multiset(b) == multiset(c[..|c| - 1])
  {
    var a', c', x := a[..|a| - 1], c[..|c| - 1], c[|c| - 1];
    assert a == a' + [x] && c == c' + [x];
    assert multiset(a) == multiset(a') + multiset{x} && multiset(c) == multiset(c') + multiset{x};
    Cancel(multiset(a'), multiset(b), multiset(c'), multiset{x});
  }

  lemma Cancel<T>(a: multiset<T>, b: multiset<T>, c: multiset<T>, one: multiset<T>)
    requires a + one + b == c + one
    ensures a + b == c
  {
    forall y ensures (a + b)[y] == c[y] {
      assert (a + one + b)[y] == (c + one)[y];
    }
  }

  /** What was evicted is older than anything the buffer holds. */
  ghost predicate EvictedIsOld(w: World) {
    forall e :: e in w.tally.evicted ==> e.seqNo <= |w.sys.log| - REPLAY_BUFFER_SIZE
  }

  /** And stays so: it never comes back into the buffer. */
  lemma {:induction false} EvictedStaysGone(w: World, moves: seq<Move>)
    requires WorldInv(w)
    ensures EvictedIsOld(w) ==> forall e :: e in Travel(w, moves).tally.evicted ==> e !in Travel(w, moves).sys.bus.replay
    decreases |moves|
  {
    if moves != [] {
      MoveInv(w, moves[0]);
      MoveEvictsOld(w, moves[0]);
      EvictedStaysGone(Advance(w, moves[0]), moves[1..]);
    }
  }

  lemma MoveEvictsOld(w: World, m: Move)
    requires WorldInv(w)
    ensures EvictedIsOld(w) ==> EvictedIsOld(Advance(w, m))
  {
    match m
    case Server(a) => StepDelivers(w.sys, a);
    case Receive(_) =>
    case Reconnect =>
      Return(w);
      PartIsOld(w.sys.log, w.reached);
  }

  // ---------------------------------------------------------------------------
  // Without overflow
  // ---------------------------------------------------------------------------

  /** A queue never overflows during the run. */
  predicate Undropped(w: World, moves: seq<Move>)
    decreases |moves|
  {
    moves == [] || (
      && (moves[0].Server? ==> !Overflows(w.sys, moves[0].action))
      && Undropped(Advance(w, moves[0]), moves[1..]))
  }

  lemma StepDropsNothing(s: System, a: Action)
    requires !Overflows(s, a)
    ensures Step(s, a).dropped == s.dropped
  {
  }

  lemma OpenDropsNothing(bus: BusState, log: seq<Event>, cursor: Cursor)
    ensures Open(bus, log, cursor).dropped == []
  {
  }

  lemma MoveDropsNothing(w: World, m: Move)
    requires w.sys.dropped == [] && (m.Server? ==> !Overflows(w.sys, m.action))
    ensures Advance(w, m).sys.dropped == []
  {
    match m
    case Server(a) => StepDropsNothing(w.sys, a);
    case Receive(_) =>
    case Reconnect => OpenDropsNothing(w.sys.bus, w.sys.log, CursorOf(w.cursor, w.omitsZero));
  }

  /** Without drops the numbers follow each other. */
  lemma NextIsNext(w: World)
    requires WorldInv(w) && Complete(w) && w.sys.dropped == []
    ensures !PassesOver(w, Receive(true)) && !PassesOver(w, Receive(false))
  {
    if PassesOver(w, Receive(true)) {
      NextData(w);
      GapIsDropped(w.sys, w.here, w.reached, w.reached);
      assert false;
    }
  }

  /** So nothing is passed over if no queue overflows. */
  lemma {:induction false} UndroppedPassesNothing(w: World, moves: seq<Move>)
    requires WorldInv(w) && Complete(w) && w.sys.dropped == [] && Undropped(w, moves)
    ensures NeverPassesOver(w, moves)
    decreases |moves|
  {
    if moves != [] {
      NextIsNext(w);
      MoveDropsNothing(w, moves[0]);
      MoveComplete(w, moves[0]);
      MoveInv(w, moves[0]);
      UndroppedPassesNothing(Advance(w, moves[0]), moves[1..]);
    }
  }

  /** Without drops the client has reached as many events as it got. */
  lemma ReachedIsCount(s: System, here: nat)
    requires Inv(s) && s.dropped == [] && 0 < here <= |Delivered(s)|
    ensures Delivered(s)[here - 1].seqNo == First(s) + here
  {
    InterleavingCounts(s.live, s.dropped, s.taken);
    DeliveredIsHistory(s, here - 1);
    assert s.past + s.taken <= s.log;
    if here <= s.replayed {
      assert Delivered(s)[here - 1] == s.past[First(s) + here - 1];
    } else {
      var j := here - 1 - s.replayed;
      assert Delivered(s)[here - 1] == s.taken[j] == (s.past + s.taken)[|s.past| + j] == s.log[|s.past| + j];
    }
  }
}
