/** Paging through the stored taxonomy events of a range of days, newest first. A day is a day number. */
module ActivityHistory {
  import opened Prelude

  /** A line of a day's file; the lines are in the order in which they were written. */
  datatype Line<E> = Blank | Malformed | Record(event: E)

  datatype Page<E> = Page(events: seq<E>, total: nat, hasMore: bool) | Rejected

  function Parsed<E>(lines: seq<Line<E>>): seq<E> {
    if lines == [] then [] else (if lines[0].Record? then [lines[0].event] else []) + Parsed(lines[1..])
  }

  /** A day without a file has no events. */
  function Day<E>(files: map<int, seq<Line<E>>>, day: int): seq<E> {
    if day in files then Parsed(files[day]) else []
  }

  /** `s[offset : offset + count]`, which clips at the end. */
  function Slice<E>(s: seq<E>, offset: nat, count: nat): seq<E> {
    s[Min(offset, |s|)..Min(offset + count, |s|)]
  }

  function Reversed<E>(s: seq<E>): (r: seq<E>)
    ensures |r| == |s|
  {
    seq(|s|, i requires 0 <= i < |s| => s[|s| - 1 - i])
  }

  /** What the range holds, newest first. */
  function Whole<E>(files: map<int, seq<Line<E>>>, start: int, end: int): seq<E>
    decreases end - start
  {
    if end < start then [] else Reversed(Day(files, end)) + Whole(files, start, end - 1)
  }

  /** What the walk collects: of each day only what `get_history` returns for `limit + 1`. */
  function Walk<E>(files: map<int, seq<Line<E>>>, start: int, end: int, limit: nat): seq<E>
    decreases end - start
  {
    if end < start then []
    else Reversed(Slice(Day(files, end), 0, limit + 1)) + Walk(files, start, end - 1, limit)
  }

  // ---------------------------------------------------------------------------
  // The two loops
  // ---------------------------------------------------------------------------

  method GetHistory<E>(files: map<int, seq<Line<E>>>, day: int, limit: nat, offset: nat) returns (events: seq<E>)
    ensures events == Slice(Day(files, day), offset, limit)
  {
    if day !in files {
      return [];
    }
    var lines := files[day];
    events := [];
    for i := 0 to |lines|
      invariant Parsed(lines) == events + Parsed(lines[i..])
    {
      assert lines[i..][1..] == lines[i + 1..];
      if lines[i].Blank? || lines[i].Malformed? {
        continue;
      }
      events := events + [lines[i].event];
    }
    assert lines[|lines|..] == [];
    assert events == Parsed(lines) == Day(files, day);
    events := Slice(events, offset, limit);
  }

  /** Walks the days from the newest to the oldest; within a day the file is oldest first, so each day is reversed. */
  method Collect<E>(files: map<int, seq<Line<E>>>, start: int, end: int, limit: nat) returns (events: seq<E>)
    requires start <= end
    ensures events == Walk(files, start, end, limit)
  {
    events := [];
    var cursor := end;
    while cursor >= start
      invariant start - 1 <= cursor <= end
      invariant Walk(files, start, end, limit) == events + Walk(files, start, cursor, limit)
      decreases cursor - start
    {
      var dayEvents := GetHistory(files, cursor, limit + 1, 0);
      ConcatAssociates(events, Reversed(dayEvents), Walk(files, start, cursor - 1, limit));
      events := events + Reversed(dayEvents);
      cursor := cursor - 1;
    }
  }

  lemma SliceTwice<E>(all: seq<E>, offset: nat, limit: nat)
    ensures Slice(Slice(all, offset, limit + 1), 0, limit) == Slice(all, offset, limit)
    ensures |Slice(all, offset, limit + 1)| > limit <==> |all| > offset + limit
  {
  }

  method RangePage<E>(files: map<int, seq<Line<E>>>, start: int, end: int, limit: nat, offset: nat) returns (page: Page<E>)
    requires 1 <= limit <= 1000
    ensures page.Rejected? <==> end < start || end - start > 30
    ensures page.Page? ==>
              var all := Walk(files, start, end, limit);
              && page.events == Slice(all, offset, limit)
              && (page.hasMore <==> |all| > offset + limit)
              && (offset <= |all| ==> page.total == Min(|all|, offset + limit + 1))
              && (offset > |all| ==> page.total == offset)
  {
    if end < start || end - start > 30 {
      return Rejected;
    }
    var events := Collect(files, start, end, limit);
    SliceTwice(events, offset, limit);
    events := Slice(events, offset, limit + 1);
    var hasMore := |events| > limit;
    events := Slice(events, 0, limit);
    return Page(events, offset + |events| + (if hasMore then 1 else 0), hasMore);
  }

  // ---------------------------------------------------------------------------
  // Pages put together
  // ---------------------------------------------------------------------------

  /** The first `n` pages, at offsets 0, limit, 2 * limit and so on. */
  function Pages<E>(all: seq<E>, limit: nat, n: nat): seq<E> {
    if n == 0 then [] else Pages(all, limit, n - 1) + Slice(all, (n - 1) * limit, limit)
  }

  lemma {:induction false} PagesArePrefix<E>(all: seq<E>, limit: nat, n: nat)
    ensures Pages(all, limit, n) == all[..Min(n * limit, |all|)]
  {
    if n > 0 {
      PagesArePrefix(all, limit, n - 1);
      assert n * limit == (n - 1) * limit + limit;
      var lo, hi := Min((n - 1) * limit, |all|), Min(n * limit, |all|);
      assert all[..lo] + all[lo..hi] == all[..hi];
    }
  }

  ghost predicate DaysFit<E>(files: map<int, seq<Line<E>>>, start: int, end: int, limit: nat) {
    forall day :: start <= day <= end ==> |Day(files, day)| <= limit + 1
  }

  lemma {:induction false} WalkSize<E>(files: map<int, seq<Line<E>>>, start: int, end: int, limit: nat)
    ensures |Walk(files, start, end, limit)| <= |Whole(files, start, end)|
    ensures |Walk(files, start, end, limit)| == |Whole(files, start, end)| ==> DaysFit(files, start, end, limit)
    ensures DaysFit(files, start, end, limit) ==> Walk(files, start, end, limit) == Whole(files, start, end)
    decreases end - start
  {
    if end >= start {
      WalkSize(files, start, end - 1, limit);
      var day := Day(files, end);
      assert |day| <= limit + 1 ==> Slice(day, 0, limit + 1) == day;
      if DaysFit(files, start, end, limit) {
        assert DaysFit(files, start, end - 1, limit);
      }
    }
  }

  /**
   * Enough pages, put together, are the whole range, newest first and each event once, exactly when no day of the
   * range stores more than `limit + 1` events.
   */
  lemma {:induction false} PagesAreTheRange<E>(files: map<int, seq<Line<E>>>, start: int, end: int, limit: nat, n: nat)
    requires n * limit >= |Walk(files, start, end, limit)|
    ensures Pages(Walk(files, start, end, limit), limit, n) == Whole(files, start, end)
            <==> DaysFit(files, start, end, limit)
  {
    var all := Walk(files, start, end, limit);
    PagesArePrefix(all, limit, n);
    assert all[..|all|] == all;
    WalkSize(files, start, end, limit);
  }

  predicate HasMore<E>(all: seq<E>, offset: nat, limit: nat) {
    |all| > offset + limit
  }

  /** And under that same condition, and no weaker one, `has_more` says at every offset whether a later event exists. */
  lemma HasMoreIsRight<E>(files: map<int, seq<Line<E>>>, start: int, end: int, limit: nat)
    ensures var walk, whole := Walk(files, start, end, limit), Whole(files, start, end);
            (forall offset: nat :: HasMore(walk, offset, limit) <==> HasMore(whole, offset, limit))
            <==> DaysFit(files, start, end, limit)
  {
    var walk, whole := Walk(files, start, end, limit), Whole(files, start, end);
    WalkSize(files, start, end, limit);
    if !DaysFit(files, start, end, limit) {
      var day :| start <= day <= end && |Day(files, day)| > limit + 1;
      DayIsIn(files, start, end, limit, day);
      assert !HasMore(walk, |walk| - limit, limit) && HasMore(whole, |walk| - limit, limit);
    }
  }

  lemma {:induction false} DayIsIn<E>(files: map<int, seq<Line<E>>>, start: int, end: int, limit: nat, day: int)
    requires start <= day <= end
    ensures |Walk(files, start, end, limit)| >= Min(|Day(files, day)|, limit + 1)
    ensures |Whole(files, start, end)| >= |Day(files, day)|
    decreases end - start
  {
    if day < end {
      DayIsIn(files, start, end - 1, limit, day);
    }
  }

  lemma ReversedSlice<E>(s: seq<E>, count: nat, e: E)
    ensures e in Reversed(Slice(s, 0, count)) <==> e in s[..Min(count, |s|)]
    ensures e in Reversed(s) <==> e in s
  {
    ReversedMembers(Slice(s, 0, count), e);
    ReversedMembers(s, e);
  }

  lemma ReversedMembers<E>(s: seq<E>, e: E)
    ensures e in Reversed(s) <==> e in s
  {
    if e in s {
      var i :| 0 <= i < |s| && s[i] == e;
      assert Reversed(s)[|s| - 1 - i] == e;
    }
  }

  /**
   * What a crowded day loses are its newest events, those after the first `limit + 1`: they are on no page, although
   * the pages run newest first.
   */
  lemma {:induction false} NewestAreLost<E>(files: map<int, seq<Line<E>>>, start: int, end: int, limit: nat, day: int, e: E)
    requires start <= day <= end
    requires e in Day(files, day) && !Fetched(Day(files, day), limit, e)
    requires forall other :: start <= other <= end && other != day ==> e !in Day(files, other)
    ensures e in Whole(files, start, end) && e !in Walk(files, start, end, limit)
    decreases end - start
  {
    WalkMembers(files, start, end, limit, e);
    if day < end {
      NewestAreLost(files, start, end - 1, limit, day, e);
    } else {
      AbsentElsewhere(files, start, end - 1, limit, e);
    }
  }

  /** Among the first `limit + 1` of its day. */
  predicate Fetched<E(==)>(day: seq<E>, limit: nat, e: E) {
    e in day[..Min(limit + 1, |day|)]
  }

  /** Three events on one day, and pages of one: the newest event is on none of them. */
  lemma NewestOfThreeIsLost(files: map<int, seq<Line<int>>>)
    requires files == map[7 := [Record(1), Record(2), Record(3)]]
    ensures Whole(files, 7, 7) == [3, 2, 1] && Walk(files, 7, 7, 1) == [2, 1]
  {
  }

  lemma {:induction false} WalkMembers<E>(files: map<int, seq<Line<E>>>, start: int, end: int, limit: nat, e: E)
    requires start <= end
    ensures e in Walk(files, start, end, limit) <==>
              Fetched(Day(files, end), limit, e) || e in Walk(files, start, end - 1, limit)
    ensures e in Whole(files, start, end) <==> e in Day(files, end) || e in Whole(files, start, end - 1)
    ensures Fetched(Day(files, end), limit, e) ==> e in Day(files, end)
  {
    ReversedSlice(Day(files, end), limit + 1, e);
  }

  lemma {:induction false} AbsentElsewhere<E>(files: map<int, seq<Line<E>>>, start: int, end: int, limit: nat, e: E)
    requires forall other :: start <= other <= end ==> e !in Day(files, other)
    ensures e !in Walk(files, start, end, limit)
    decreases end - start
  {
    if end >= start {
      WalkMembers(files, start, end, limit, e);
      AbsentElsewhere(files, start, end - 1, limit, e);
    }
  }

  // ---------------------------------------------------------------------------
  // A single day
  // ---------------------------------------------------------------------------

  method DayPage<E>(files: map<int, seq<Line<E>>>, day: int, limit: nat, offset: nat) returns (page: Page<E>)
    requires 1 <= limit <= 1000
    ensures page.Page?
    ensures page.events == Reversed(Slice(Day(files, day), offset, limit))
    ensures page.hasMore <==> HasMore(Day(files, day), offset, limit)
  {
    var raw := GetHistory(files, day, limit + 1, offset);
    SliceTwice(Day(files, day), offset, limit);
    var hasMore := |raw| > limit;
    raw := Slice(raw, 0, limit);
    return Page(Reversed(raw), offset + |raw| + (if hasMore then 1 else 0), hasMore);
  }

  /** The first `n` pages of a day. */
  function DayPages<E>(day: seq<E>, limit: nat, n: nat): seq<E> {
    if n == 0 then [] else DayPages(day, limit, n - 1) + Reversed(Slice(day, (n - 1) * limit, limit))
  }

  ghost predicate Distinct<E>(s: seq<E>) {
    forall i, j :: 0 <= i < j < |s| ==> s[i] != s[j]
  }

  lemma LaterPage<E>(day: seq<E>, limit: nat, k: nat)
    requires k >= 1
    ensures |day| <= limit ==> Slice(day, k * limit, limit) == []
  {
    assert k * limit == (k - 1) * limit + limit;
  }

  lemma {:induction false} FirstPageComesFirst<E>(day: seq<E>, limit: nat, n: nat)
    requires n >= 1
    ensures Reversed(day[..Min(limit, |day|)]) <= DayPages(day, limit, n)
    ensures |day| <= limit ==> DayPages(day, limit, n) == Reversed(day[..Min(limit, |day|)])
  {
    if n > 1 {
      FirstPageComesFirst(day, limit, n - 1);
      LaterPage(day, limit, n - 1);
    }
  }

  /** Each page of a day runs newest first, but the pages themselves start with the oldest: only one page is in order. */
  lemma DayPagesInOrder<E>(day: seq<E>, limit: nat, n: nat)
    requires limit >= 1 && n >= 1 && Distinct(day)
    ensures DayPages(day, limit, n) == Reversed(day) <==> |day| <= limit
  {
    FirstPageComesFirst(day, limit, n);
    var first := Reversed(day[..Min(limit, |day|)]);
    if |day| > limit {
      assert first[0] == day[limit - 1] && DayPages(day, limit, n)[0] == first[0];
      assert Reversed(day)[0] == day[|day| - 1];
      assert day[limit - 1] != day[|day| - 1];
    } else {
      assert day[..|day|] == day;
    }
  }

  /** Two events and pages of one: the older event comes first. */
  lemma OldestPageFirst()
    ensures DayPages([1, 2], 1, 2) == [1, 2] && Reversed([1, 2]) == [2, 1]
  {
    assert Slice([1, 2], 0, 1) == [1] && Slice([1, 2], 1, 1) == [2];
    assert DayPages([1, 2], 1, 0) == [];
    assert DayPages([1, 2], 1, 1) == [] + Reversed(Slice([1, 2], 0, 1));
  }
}
