/** Event-stream text: the server's frame formatter and the incremental client-side reader. */
module SseText {
  import opened Prelude
  import opened Bus
  import opened Stream
  import opened Reconnection

  // ---------------------------------------------------------------------------
  // Splitting at the first blank line
  // ---------------------------------------------------------------------------

  predicate IsBreak(s: string, i: nat) {
    i + 1 < |s| && s[i] == '\n' && s[i + 1] == '\n'
  }

  /** Index of the first blank line, "\n\n", in `s`, or `|s|`. */
  function BreakAt(s: string): (i: nat)
    ensures i <= |s|
    ensures i < |s| ==> IsBreak(s, i)
    ensures forall j :: 0 <= j < i ==> !IsBreak(s, j)
  {
    if s == "" || IsBreak(s, 0) then 0
    else
      assert forall j :: 0 < j < |s| ==> IsBreak(s, j) == IsBreak(s[1..], j - 1);
      BreakAt(s[1..]) + 1
  }

  /** The complete blocks of a stream. */
  function Blocks(s: string): seq<string>
    decreases |s|
  {
    var i := BreakAt(s);
    if i < |s| then [s[..i]] + Blocks(s[i + 2..]) else []
  }

  /** What follows the last complete block. */
  function Rest(s: string): string
    decreases |s|
  {
    var i := BreakAt(s);
    if i < |s| then Rest(s[i + 2..]) else s
  }

  function Concat(parts: seq<string>): string {
    if parts == [] then "" else Concat(parts[..|parts| - 1]) + parts[|parts| - 1]
  }

  /** A break inside `s` stays the first break however the stream goes on. */
  lemma BreakStays(s: string, t: string)
    requires BreakAt(s) < |s|
    ensures BreakAt(s + t) == BreakAt(s)
  {
    var i, j := BreakAt(s), BreakAt(s + t);
    assert IsBreak(s + t, i);
    assert forall k :: 0 <= k < i ==> IsBreak(s + t, k) == IsBreak(s, k);
  }

  lemma BlocksUnfold(s: string, t: string)
    requires BreakAt(s) < |s|
    ensures Blocks(s + t) == [s[..BreakAt(s)]] + Blocks(s[BreakAt(s) + 2..] + t)
    ensures Rest(s + t) == Rest(s[BreakAt(s) + 2..] + t)
  {
    var i := BreakAt(s);
    BreakStays(s, t);
    assert (s + t)[..i] == s[..i];
    assert (s + t)[i + 2..] == s[i + 2..] + t;
  }

  /** Splitting can stop anywhere and resume from the unfinished rest. */
  lemma {:induction false} SplitResumes(s: string, t: string)
    ensures Blocks(s + t) == Blocks(s) + Blocks(Rest(s) + t)
    ensures Rest(s + t) == Rest(Rest(s) + t)
    decreases |s|
  {
    var i := BreakAt(s);
    if i < |s| {
      var rest := s[i + 2..];
      BlocksUnfold(s, t);
      SplitResumes(rest, t);
      assert Blocks(s) == [s[..i]] + Blocks(rest);
      ConcatAssociates([s[..i]], Blocks(rest), Blocks(Rest(rest) + t));
    } else {
      assert Blocks(s) == [] && Rest(s) == s;
    }
  }

  // ---------------------------------------------------------------------------
  // Reading one block
  // ---------------------------------------------------------------------------

  predicate SingleLine(s: string) {
    forall i :: 0 <= i < |s| ==> !IsLineEnd(s[i])
  }

  function LineLength(s: string): (n: nat)
    ensures n <= |s|
    ensures SingleLine(s[..n])
    ensures n < |s| ==> IsLineEnd(s[n])
  {
    if s == "" || IsLineEnd(s[0]) then 0 else LineLength(s[1..]) + 1
  }

  /** Python's `str.splitlines` on ASCII text: `\r\n` is one line end, and a final one opens no line. */
  function SplitLines(s: string): seq<string>
    decreases |s|
  {
    if s == "" then []
    else
      var n := LineLength(s);
      if n == |s| then [s]
      else
        var skip := if s[n] == '\r' && n + 1 < |s| && s[n + 1] == '\n' then 2 else 1;
        [s[..n]] + SplitLines(s[n + skip..])
  }

  /** The remainder of the first line that starts with `prefix`, or `""`. */
  function Field(lines: seq<string>, prefix: string): string {
    if lines == [] then ""
    else if prefix <= lines[0] then lines[0][|prefix|..]
    else Field(lines[1..], prefix)
  }

  function RStrip(s: string): string {
    if s != "" && IsSpace(s[|s| - 1]) then RStrip(s[..|s| - 1]) else s
  }

  function Strip(s: string): string {
    RStrip(LStrip(s))
  }

  datatype Message = Message(event: string, data: string)

  function ReadBlock(block: string): Message {
    var lines := SplitLines(block);
    Message(Strip(Field(lines, "event: ")), Field(lines, "data: "))
  }

  function ReadAll(blocks: seq<string>): seq<Message> {
    seq(|blocks|, i requires 0 <= i < |blocks| => ReadBlock(blocks[i]))
  }

  const TERMINAL := {"optimization_complete", "optimization_error", "passthrough"}

  /** `isJson` stands for the JSON decoder accepting a payload. */
  predicate IsFinal(m: Message, isJson: string -> bool) {
    m.data != "" && isJson(m.data) && m.event in TERMINAL
  }

  /** The last message that can be a result. */
  function LastFinal(messages: seq<Message>, isJson: string -> bool): Option<Message> {
    if messages == [] then None
    else
      var m := messages[|messages| - 1];
      if IsFinal(m, isJson) then Some(m) else LastFinal(messages[..|messages| - 1], isJson)
  }

  /** One of the three terminal events, with a payload that is JSON. */
  ghost predicate CanBeResult(m: Message, isJson: string -> bool) {
    && (m.event == "optimization_complete" || m.event == "optimization_error" || m.event == "passthrough")
    && |m.data| > 0 && isJson(m.data)
  }

  /** It is a message that can be a result, and none after it can. */
  lemma {:induction false} LastFinalIsLast(messages: seq<Message>, isJson: string -> bool) returns (k: nat)
    ensures LastFinal(messages, isJson).Some? ==>
              k < |messages| && LastFinal(messages, isJson).value == messages[k] && CanBeResult(messages[k], isJson)
    ensures forall i :: 0 <= i < |messages| && CanBeResult(messages[i], isJson) ==>
              LastFinal(messages, isJson).Some? && i <= k
  {
    k := 0;
    if messages != [] {
      var last := |messages| - 1;
      if IsFinal(messages[last], isJson) {
        k := last;
      } else {
        k := LastFinalIsLast(messages[..last], isJson);
      }
    }
  }

  /** The reader's result variable after it has read `blocks`. */
  function Absorb(final: Option<Message>, blocks: seq<string>, isJson: string -> bool): Option<Message>
    decreases |blocks|
  {
    if blocks == [] then final
    else
      var m := ReadBlock(blocks[0]);
      Absorb(if IsFinal(m, isJson) then Some(m) else final, blocks[1..], isJson)
  }

  lemma {:induction false} AbsorbConcat(final: Option<Message>, a: seq<string>, b: seq<string>, isJson: string -> bool)
    ensures Absorb(final, a + b, isJson) == Absorb(Absorb(final, a, isJson), b, isJson)
    decreases |a|
  {
    if a == [] {
      assert a + b == b;
    } else {
      assert (a + b)[1..] == a[1..] + b;
      var m := ReadBlock(a[0]);
      AbsorbConcat(if IsFinal(m, isJson) then Some(m) else final, a[1..], b, isJson);
    }
  }

  lemma {:induction false} AbsorbIsLast(blocks: seq<string>, isJson: string -> bool)
    ensures Absorb(None, blocks, isJson) == LastFinal(ReadAll(blocks), isJson)
    decreases |blocks|
  {
    if blocks != [] {
      var init, b := blocks[..|blocks| - 1], blocks[|blocks| - 1];
      assert blocks == init + [b];
      AbsorbConcat(None, init, [b], isJson);
      AbsorbIsLast(init, isJson);
      assert ReadAll(blocks)[..|init|] == ReadAll(init);
    }
  }

  /** The body of the inner loop, for one complete block. */
  method ReadOne(block: string, final0: Option<Message>, isJson: string -> bool) returns (final: Option<Message>)
    ensures final == if IsFinal(ReadBlock(block), isJson) then Some(ReadBlock(block)) else final0
  {
    final := final0;
    var lines := SplitLines(block);
    var event := Strip(Field(lines, "event: "));
    var dataLine := Field(lines, "data: ");
    if dataLine == "" {
      return;
    }
    if !isJson(dataLine) {
      return;
    }
    if event in TERMINAL {
      final := Some(Message(event, dataLine));
    }
  }

  /** The inner loop: consumes every complete block of the buffer. */
  method Drain(buf0: string, final0: Option<Message>, isJson: string -> bool)
    returns (buf: string, final: Option<Message>)
    ensures buf == Rest(buf0)
    ensures final == Absorb(final0, Blocks(buf0), isJson)
  {
    buf, final := buf0, final0;
    while BreakAt(buf) < |buf|
      invariant Rest(buf0) == Rest(buf)
      invariant Absorb(final0, Blocks(buf0), isJson) == Absorb(final, Blocks(buf), isJson)
      decreases |buf|
    {
      var i := BreakAt(buf);
      var block := buf[..i];
      assert Blocks(buf)[1..] == Blocks(buf[i + 2..]);
      buf := buf[i + 2..];
      final := ReadOne(block, final, isJson);
    }
  }

  /**
   * The reading loop of the client: `chunks` is the response body as it happened to arrive. The result depends on
   * the concatenation only, not on where it was cut.
   */
  method Consume(chunks: seq<string>, isJson: string -> bool) returns (final: Option<Message>)
    ensures final == LastFinal(ReadAll(Blocks(Concat(chunks))), isJson)
  {
    final := None;
    var buf := "";
    for k := 0 to |chunks|
      invariant buf == Rest(Concat(chunks[..k]))
      invariant final == Absorb(None, Blocks(Concat(chunks[..k])), isJson)
    {
      ghost var before := Concat(chunks[..k]);
      assert chunks[..k + 1][..k] == chunks[..k];
      SplitResumes(before, chunks[k]);
      AbsorbConcat(None, Blocks(before), Blocks(buf + chunks[k]), isJson);
      buf, final := Drain(buf + chunks[k], final, isJson);
    }
    assert chunks[..|chunks|] == chunks;
    AbsorbIsLast(Blocks(Concat(chunks)), isJson);
  }

  // ---------------------------------------------------------------------------
  // The server's formatter, and the round trip
  // ---------------------------------------------------------------------------

  function Digits(n: nat): (s: string)
    ensures s != "" && SingleLine(s)
  {
    var last := ['0' + (n % 10) as char];
    if n < 10 then last else Digits(n / 10) + last
  }

  function PayloadOf(f: Frame): string {
    match f
    case Data(e) => e.data
    case Sync(n, keepalive) => SYNC_HEAD + (Digits(n) + if keepalive then KEEPALIVE_END else SYNC_END)
  }

  function KindOf(f: Frame): string {
    if f.Data? then f.event.kind else "sync"
  }

  function IdOf(f: Frame): nat {
    if f.Data? then f.event.seqNo else f.seqNo
  }

  // ---------------------------------------------------------------------------
  // Reading numbers
  // ---------------------------------------------------------------------------

  predicate IsDigit(c: char) {
    '0' <= c <= '9'
  }

  /** A decimal number, most significant digit first. */
  function ReadNumber(s: string): Option<nat> {
    if s == "" || !IsDigit(s[|s| - 1]) then None
    else
      var last := (s[|s| - 1] - '0') as nat;
      if |s| == 1 then Some(last)
      else match ReadNumber(s[..|s| - 1])
        case None => None
        case Some(n) => Some(10 * n + last)
  }

  /** The number in the id line of a block: what a client keeps for its next connection. */
  function ReadId(block: string): Option<nat> {
    ReadNumber(Field(SplitLines(block), "id: "))
  }

  function DigitCount(s: string): (n: nat)
    ensures n <= |s|
  {
    if s == "" || !IsDigit(s[0]) then 0 else DigitCount(s[1..]) + 1
  }

  const SYNC_HEAD := "{\"seq\": "
  const SYNC_END := "}"
  const KEEPALIVE_END := ", \"keepalive\": true}"

  function ReadSyncTail(rest: string): Option<(nat, bool)> {
    var k := DigitCount(rest);
    match ReadNumber(rest[..k])
    case None => None
    case Some(n) =>
      if rest[k..] == SYNC_END then Some((n, false)) else if rest[k..] == KEEPALIVE_END then Some((n, true)) else None
  }

  /** The payload of a sync message: its number, and whether it is a keepalive. */
  function ReadSync(data: string): Option<(nat, bool)> {
    if SYNC_HEAD <= data then ReadSyncTail(data[|SYNC_HEAD|..]) else None
  }

  lemma {:induction false} DigitsRead(n: nat)
    ensures ReadNumber(Digits(n)) == Some(n)
    ensures forall i :: 0 <= i < |Digits(n)| ==> IsDigit(Digits(n)[i])
  {
    if n >= 10 {
      DigitsRead(n / 10);
      assert Digits(n)[..|Digits(n)| - 1] == Digits(n / 10);
    }
  }

  lemma {:induction false} DigitCountIs(s: string, t: string)
    requires forall i :: 0 <= i < |s| ==> IsDigit(s[i])
    requires t == "" || !IsDigit(t[0])
    ensures DigitCount(s + t) == |s|
  {
    if s == "" {
      assert s + t == t;
    } else {
      assert (s + t)[1..] == s[1..] + t;
      DigitCountIs(s[1..], t);
    }
  }

  lemma SyncTailRead(n: nat, end: string)
    requires end == SYNC_END || end == KEEPALIVE_END
    ensures ReadSyncTail(Digits(n) + end) == Some((n, end == KEEPALIVE_END))
  {
    var d := Digits(n);
    DigitsRead(n);
    DigitCountIs(d, end);
    assert (d + end)[..|d|] == d && (d + end)[|d|..] == end;
    assert |SYNC_END| != |KEEPALIVE_END|;
  }

  lemma SyncRead(n: nat, keepalive: bool)
    ensures ReadSync(PayloadOf(Sync(n, keepalive))) == Some((n, keepalive))
  {
    var end := if keepalive then KEEPALIVE_END else SYNC_END;
    SyncTailRead(n, end);
    assert (SYNC_HEAD + (Digits(n) + end))[|SYNC_HEAD|..] == Digits(n) + end;
    assert |SYNC_END| != |KEEPALIVE_END|;
  }

  function Block(id: string, kind: string, data: string): string {
    "id: " + id + "\n" + "event: " + kind + "\n" + "data: " + data
  }

  /** The three lines of a frame and the blank line that ends it. */
  function Print(f: Frame): string {
    Block(Digits(IdOf(f)), KindOf(f), PayloadOf(f)) + "\n\n"
  }

  function PrintAll(frames: seq<Frame>): string {
    if frames == [] then "" else Print(frames[0]) + PrintAll(frames[1..])
  }

  /** JSON serialisation and event names never contain a line end. */
  predicate Printable(f: Frame) {
    f.Data? ==> SingleLine(f.event.kind) && SingleLine(f.event.data)
  }

  lemma {:induction false} LineLengthIs(s: string, t: string)
    requires SingleLine(s) && (t == "" || IsLineEnd(t[0]))
    ensures LineLength(s + t) == |s|
  {
    if s != "" {
      assert (s + t)[1..] == s[1..] + t;
      LineLengthIs(s[1..], t);
    } else {
      assert s + t == t;
    }
  }

  lemma FirstLine(s: string, t: string)
    requires SingleLine(s)
    ensures SplitLines(s + "\n" + t) == [s] + SplitLines(t)
  {
    var u := s + "\n" + t;
    LineLengthIs(s, "\n" + t);
    assert u == s + ("\n" + t);
    assert u[|s| + 1..] == t;
    assert u[..|s|] == s;
  }

  lemma LastLine(s: string)
    requires SingleLine(s) && s != ""
    ensures SplitLines(s) == [s]
  {
    LineLengthIs(s, "");
    assert s + "" == s;
  }

  lemma ThreeLines(a: string, b: string, c: string)
    requires SingleLine(a) && SingleLine(b) && SingleLine(c) && c != ""
    ensures SplitLines(a + "\n" + (b + "\n" + c)) == [a, b, c]
  {
    FirstLine(a, b + "\n" + c);
    FirstLine(b, c);
    LastLine(c);
    assert [a] + ([b] + [c]) == [a, b, c];
  }

  lemma ReadFields(id: string, kind: string, data: string)
    ensures Field(["id: " + id, "event: " + kind, "data: " + data], "id: ") == id
    ensures Field(["id: " + id, "event: " + kind, "data: " + data], "event: ") == kind
    ensures Field(["id: " + id, "event: " + kind, "data: " + data], "data: ") == data
  {
    var a, b, c := "id: " + id, "event: " + kind, "data: " + data;
    assert a[0] == 'i' && b[0] == 'e' && c[0] == 'd';
    assert [a, b, c][1..] == [b, c] && [b, c][1..] == [c];
    assert Field([b, c], "data: ") == Field([c], "data: ") == c[|"data: "|..];
    assert a[|"id: "|..] == id && b[|"event: "|..] == kind && c[|"data: "|..] == data;
  }

  /** Reading a printed block gives back its event, up to surrounding blanks, and its data. */
  lemma ReadPrinted(id: string, kind: string, data: string)
    requires SingleLine(id) && SingleLine(kind) && SingleLine(data)
    ensures ReadBlock(Block(id, kind, data)) == Message(Strip(kind), data)
    ensures Field(SplitLines(Block(id, kind, data)), "id: ") == id
  {
    var a, b, c := "id: " + id, "event: " + kind, "data: " + data;
    assert Block(id, kind, data) == a + "\n" + (b + "\n" + c);
    ThreeLines(a, b, c);
    ReadFields(id, kind, data);
  }

  lemma BreakAfter(block: string, t: string)
    requires block != "" && block[|block| - 1] != '\n'
    requires forall i :: 0 <= i < |block| ==> !IsBreak(block, i)
    ensures BreakAt(block + "\n\n" + t) == |block|
  {
    var s := block + "\n\n" + t;
    assert IsBreak(s, |block|);
    assert forall i :: 0 <= i < |block| ==> s[i] == block[i];
    forall i | 0 <= i < |block| ensures !IsBreak(s, i) {
      assert !IsBreak(block, i);
    }
  }

  lemma BlockHead(block: string, t: string)
    requires block != "" && block[|block| - 1] != '\n'
    requires forall i :: 0 <= i < |block| ==> !IsBreak(block, i)
    ensures Blocks(block + "\n\n" + t) == [block] + Blocks(t)
    ensures Rest(block + "\n\n" + t) == Rest(t)
  {
    var s := block + "\n\n" + t;
    BreakAfter(block, t);
    assert s[..|block|] == block;
    assert s[|block| + 2..] == t;
  }

  function MessageOf(f: Frame): Message {
    Message(Strip(KindOf(f)), PayloadOf(f))
  }

  function MessagesOf(frames: seq<Frame>): seq<Message> {
    seq(|frames|, i requires 0 <= i < |frames| => MessageOf(frames[i]))
  }

  lemma NoBreakInside(id: string, kind: string, data: string)
    requires SingleLine(id) && SingleLine(kind) && SingleLine(data)
    ensures var b := Block(id, kind, data);
            b != "" && b[|b| - 1] != '\n' && forall i :: 0 <= i < |b| ==> !IsBreak(b, i)
  {
  }

  /**
   * What a block says about its frame: an event with its own number, name and payload, or a sync message with its
   * number in the id and in the payload.
   */
  ghost predicate Carries(block: string, f: Frame) {
    match f
    case Data(e) => ReadId(block) == Some(e.seqNo) && ReadBlock(block) == Message(Strip(e.kind), e.data)
    case Sync(n, keepalive) =>
      && ReadId(block) == Some(n) && ReadBlock(block).event == "sync"
      && ReadSync(ReadBlock(block).data) == Some((n, keepalive))
  }

  function BlockOf(f: Frame): string {
    Block(Digits(IdOf(f)), KindOf(f), PayloadOf(f))
  }

  lemma BlockCarries(f: Frame)
    requires Printable(f)
    ensures ReadBlock(BlockOf(f)) == MessageOf(f) && Carries(BlockOf(f), f)
  {
    ReadPrinted(Digits(IdOf(f)), KindOf(f), PayloadOf(f));
    DigitsRead(IdOf(f));
    if f.Sync? {
      SyncIsSync(f);
      SyncRead(f.seqNo, f.keepalive);
    }
  }

  lemma FrameHead(f: Frame, t: string)
    requires Printable(f)
    ensures Blocks(Print(f) + t) == [BlockOf(f)] + Blocks(t)
    ensures Rest(Print(f) + t) == Rest(t)
  {
    NoBreakInside(Digits(IdOf(f)), KindOf(f), PayloadOf(f));
    BlockHead(BlockOf(f), t);
  }

  function BlocksOf(frames: seq<Frame>): seq<string> {
    seq(|frames|, i requires 0 <= i < |frames| => BlockOf(frames[i]))
  }

  lemma BlocksCons(frames: seq<Frame>)
    requires frames != []
    ensures BlocksOf(frames) == [BlockOf(frames[0])] + BlocksOf(frames[1..])
  {
  }

  lemma {:induction false} BlocksPrinted(frames: seq<Frame>)
    requires forall i :: 0 <= i < |frames| ==> Printable(frames[i])
    ensures Blocks(PrintAll(frames)) == BlocksOf(frames) && Rest(PrintAll(frames)) == ""
  {
    if frames != [] {
      BlocksPrinted(frames[1..]);
      FrameHead(frames[0], PrintAll(frames[1..]));
      BlocksCons(frames);
    }
  }

  lemma BlocksCarry(frames: seq<Frame>)
    requires forall i :: 0 <= i < |frames| ==> Printable(frames[i])
    ensures forall i :: 0 <= i < |frames| ==> Carries(BlocksOf(frames)[i], frames[i])
    ensures ReadAll(BlocksOf(frames)) == MessagesOf(frames)
  {
    forall i | 0 <= i < |frames|
      ensures ReadBlock(BlocksOf(frames)[i]) == MessageOf(frames[i]) && Carries(BlocksOf(frames)[i], frames[i])
    {
      BlockCarries(frames[i]);
    }
  }

  /**
   * Printing any list of frames and reading the text back gives one block for each frame, in order, with its number,
   * event and payload, and nothing left over.
   */
  lemma RoundTrip(frames: seq<Frame>)
    requires forall i :: 0 <= i < |frames| ==> Printable(frames[i])
    ensures |Blocks(PrintAll(frames))| == |frames| && Rest(PrintAll(frames)) == ""
    ensures forall i :: 0 <= i < |frames| ==> Carries(Blocks(PrintAll(frames))[i], frames[i])
    ensures ReadAll(Blocks(PrintAll(frames))) == MessagesOf(frames)
  {
    BlocksPrinted(frames);
    BlocksCarry(frames);
  }

  // ---------------------------------------------------------------------------
  // End to end
  // ---------------------------------------------------------------------------

  function FramesOf(sent: seq<Sent>): seq<Frame> {
    seq(|sent|, i requires 0 <= i < |sent| => sent[i].frame)
  }

  function DataMessages(messages: seq<Message>): seq<Message> {
    if messages == [] then []
    else
      DataMessages(messages[..|messages| - 1]) +
      (if messages[|messages| - 1].event == "sync" then [] else [messages[|messages| - 1]])
  }

  function MessageOfEvent(e: Event): Message {
    Message(Strip(e.kind), e.data)
  }

  /** Every event of the history can be printed, and none is called "sync". */
  ghost predicate PrintableLog(log: seq<Event>) {
    forall i :: 0 <= i < |log| ==> SingleLine(log[i].kind) && SingleLine(log[i].data) && Strip(log[i].kind) != "sync"
  }

  function EventMessages(events: seq<Event>): seq<Message> {
    seq(|events|, i requires 0 <= i < |events| => MessageOfEvent(events[i]))
  }

  /** How many data events the first `k` frames carry. */
  function Count(s: System, k: nat): nat
    requires k <= |s.sent|
  {
    if k == 0 then 0 else After(s.sent[k - 1])
  }

  lemma CountStep(s: System, k: nat)
    requires Inv(s) && k < |s.sent|
    ensures s.sent[k].before == Count(s, k) && Count(s, k + 1) <= |Delivered(s)|
    ensures s.sent[k].frame.Data? ==> s.sent[k].frame.event == Delivered(s)[Count(s, k)]
  {
    assert Framing(s, k);
  }

  lemma EventMessagesSnoc(events: seq<Event>, n: nat)
    requires n < |events|
    ensures EventMessages(events[..n + 1]) == EventMessages(events[..n]) + [MessageOfEvent(events[n])]
  {
  }

  lemma MessagesSnoc(frames: seq<Frame>, k: nat)
    requires k < |frames|
    ensures MessagesOf(frames[..k + 1]) == MessagesOf(frames[..k]) + [MessageOf(frames[k])]
  {
  }

  lemma SyncIsSync(f: Frame)
    requires f.Sync?
    ensures MessageOf(f).event == "sync"
  {
    assert LStrip("sync") == "sync" && RStrip("sync") == "sync";
  }

  /** The first `k` frames carry the first delivered events. */
  lemma {:induction false} FramesCarryEvents(s: System, k: nat)
    requires Inv(s) && k <= |s.sent|
    requires forall i :: 0 <= i < |Delivered(s)| ==> Strip(Delivered(s)[i].kind) != "sync"
    ensures Count(s, k) <= |Delivered(s)|
    ensures DataMessages(MessagesOf(FramesOf(s.sent)[..k])) == EventMessages(Delivered(s)[..Count(s, k)])
  {
    if k != 0 {
      var f := s.sent[k - 1].frame;
      FramesCarryEvents(s, k - 1);
      CountStep(s, k - 1);
      MessagesSnoc(FramesOf(s.sent), k - 1);
      if f.Data? {
        EventMessagesSnoc(Delivered(s), Count(s, k - 1));
      } else {
        SyncIsSync(f);
      }
    }
  }

  lemma DeliveredIsPublished(s: System, e: Event)
    requires Inv(s) && e in Delivered(s)
    ensures e in s.log
  {
    InterleavingMembers(s.live, s.dropped, s.taken);
    assert forall i :: 0 <= i < |s.past + s.taken| ==> s.log[i] == (s.past + s.taken)[i];
    if e in s.live {
      var i :| 0 <= i < |s.taken| && s.taken[i] == e;
      assert s.log[|s.past| + i] == e;
    } else {
      var i :| 0 <= i < |s.snapshot| && s.snapshot[i] == e;
      assert s.log[|s.past| - |s.snapshot| + i] == e;
    }
  }

  lemma InterleavingMembers<T>(a: seq<T>, b: seq<T>, c: seq<T>)
    requires Interleaving(a, b, c)
    ensures forall x :: x in a ==> x in c
  {
    InterleavingCounts(a, b, c);
    forall x | x in a ensures x in c {
      assert x in multiset(a) + multiset(b);
    }
  }

  lemma StreamIsPrintable(s: System)
    requires Inv(s) && PrintableLog(s.log)
    ensures forall i :: 0 <= i < |Delivered(s)| ==> Strip(Delivered(s)[i].kind) != "sync"
    ensures forall k :: 0 <= k < |s.sent| ==> Printable(FramesOf(s.sent)[k])
  {
    forall i | 0 <= i < |Delivered(s)|
      ensures SingleLine(Delivered(s)[i].kind) && SingleLine(Delivered(s)[i].data)
      ensures Strip(Delivered(s)[i].kind) != "sync"
    {
      DeliveredIsPublished(s, Delivered(s)[i]);
    }
    forall k | 0 <= k < |s.sent| ensures Printable(FramesOf(s.sent)[k]) {
      CountStep(s, k);
    }
  }

  /** All the frames carry all the delivered events. */
  lemma AllFramesCarryEvents(s: System)
    requires Inv(s)
    requires forall i :: 0 <= i < |Delivered(s)| ==> Strip(Delivered(s)[i].kind) != "sync"
    ensures DataMessages(MessagesOf(FramesOf(s.sent))) == EventMessages(Delivered(s))
  {
    FramesCarryEvents(s, |s.sent|);
    assert FramesOf(s.sent)[..|s.sent|] == FramesOf(s.sent);
    assert Delivered(s)[..|Delivered(s)|] == Delivered(s);
  }

  lemma TextIsRecovered(s: System, text: string)
    requires Inv(s) && PrintableLog(s.log) && text == PrintAll(FramesOf(s.sent))
    ensures DataMessages(ReadAll(Blocks(text))) == EventMessages(Delivered(s)) && Rest(text) == ""
  {
    StreamIsPrintable(s);
    RoundTrip(FramesOf(s.sent));
    AllFramesCarryEvents(s);
  }

  /**
   * End to end: however the byte stream of a connection is cut, the reader recovers exactly the delivered events,
   * in order, between the sync messages.
   */
  lemma StreamIsRecovered(s: System, chunks: seq<string>)
    requires Inv(s) && PrintableLog(s.log)
    requires Concat(chunks) == PrintAll(FramesOf(s.sent))
    ensures DataMessages(ReadAll(Blocks(Concat(chunks)))) == EventMessages(Delivered(s))
    ensures Rest(Concat(chunks)) == ""
  {
    TextIsRecovered(s, Concat(chunks));
  }

  lemma NextBlock(w: World, text: string)
    requires Inv(w.sys) && w.got < |w.sys.sent|
    requires PrintableLog(w.sys.log) && text == PrintAll(FramesOf(w.sys.sent))
    ensures |Blocks(text)| == |w.sys.sent| && Carries(Blocks(text)[w.got], w.sys.sent[w.got].frame)
  {
    StreamIsPrintable(w.sys);
    RoundTrip(FramesOf(w.sys.sent));
    assert FramesOf(w.sys.sent)[w.got] == w.sys.sent[w.got].frame;
  }

  lemma NextIsNamed(w: World)
    requires Inv(w.sys) && Consumed(w) && w.got < |w.sys.sent| && PrintableLog(w.sys.log)
    ensures w.sys.sent[w.got].frame.Data? ==> Strip(w.sys.sent[w.got].frame.event.kind) != "sync"
  {
    StreamIsPrintable(w.sys);
    NextFrame(w);
  }

  /** The effect of the next frame, in terms of what its block says. */
  ghost predicate TakesBlock(w: World, adopt: bool, block: string, w': World) {
    && ReadId(block).Some?
    && w'.cursor == (if ReadBlock(block).event == "sync" && !adopt then w.cursor else Max(w.cursor, ReadId(block).value))
    && (ReadBlock(block).event != "sync" ==>
          && w'.reached == ReadId(block).value
          && exists e: Event :: e.seqNo == ReadId(block).value && MessageOfEvent(e) == ReadBlock(block)
                                && w'.tally.received == w.tally.received + [e])
  }

  lemma ReceiveTakes(w: World, adopt: bool, block: string)
    requires w.got < |w.sys.sent| && Carries(block, w.sys.sent[w.got].frame)
    requires w.sys.sent[w.got].frame.Data? ==> Strip(w.sys.sent[w.got].frame.event.kind) != "sync"
    ensures TakesBlock(w, adopt, block, Advance(w, Receive(adopt)))
  {
    if w.sys.sent[w.got].frame.Data? {
      var e := w.sys.sent[w.got].frame.event;
      assert MessageOfEvent(e) == ReadBlock(block);
    }
  }

  /**
   * What a client does with the id line is what it does in the protocol: reading the next block of the connection's
   * text, it adopts that number as its cursor; an event has that number, name and payload, and is the next one received.
   */
  lemma CursorIsRead(w: World, adopt: bool, text: string)
    requires Inv(w.sys) && Consumed(w) && w.got < |w.sys.sent|
    requires PrintableLog(w.sys.log) && text == PrintAll(FramesOf(w.sys.sent))
    ensures |Blocks(text)| == |w.sys.sent| && TakesBlock(w, adopt, Blocks(text)[w.got], Advance(w, Receive(adopt)))
  {
    NextBlock(w, text);
    NextIsNamed(w);
    ReceiveTakes(w, adopt, Blocks(text)[w.got]);
  }

  // ---------------------------------------------------------------------------
  // What the helpers of the reader do
  // ---------------------------------------------------------------------------

  function Joined(lines: seq<string>, ends: seq<string>): string
    requires |lines| == |ends|
  {
    if lines == [] then "" else lines[0] + ends[0] + Joined(lines[1..], ends[1..])
  }

  /** One line end, or none behind the last line, and never the first half of a longer one. */
  ghost predicate Ends(line: string, end: string, rest: string) {
    || (end == "" && rest == "" && line != "")
    || end == "\r\n"
    || (|end| == 1 && IsLineEnd(end[0]) && !(end == "\r" && rest != "" && rest[0] == '\n'))
  }

  ghost predicate Terminated(lines: seq<string>, ends: seq<string>)
    requires |lines| == |ends|
  {
    lines != [] ==>
      && SingleLine(lines[0])
      && Ends(lines[0], ends[0], Joined(lines[1..], ends[1..]))
      && Terminated(lines[1..], ends[1..])
  }

  lemma FrontLine(s: string, line: string, end: string, rest: string, ends: seq<string>)
    requires s == line + end + rest && SplitLines(s) == [line] + SplitLines(rest) && SingleLine(line)
    requires |ends| == |SplitLines(rest)| && Joined(SplitLines(rest), ends) == rest && Terminated(SplitLines(rest), ends)
    requires Ends(line, end, rest)
    ensures |SplitLines(s)| == |[end] + ends|
    ensures Joined(SplitLines(s), [end] + ends) == s && Terminated(SplitLines(s), [end] + ends)
  {
    assert SplitLines(s)[1..] == SplitLines(rest) && ([end] + ends)[1..] == ends;
  }

  /** The lines of a text and their line ends make up the text. */
  lemma {:induction false} LinesExactly(s: string) returns (ends: seq<string>)
    ensures |ends| == |SplitLines(s)| && Joined(SplitLines(s), ends) == s && Terminated(SplitLines(s), ends)
    decreases |s|
  {
    ends := [];
    if s != "" {
      var n := LineLength(s);
      var line := s[..n];
      var skip := if n == |s| then 0 else if s[n] == '\r' && n + 1 < |s| && s[n + 1] == '\n' then 2 else 1;
      var end, rest := s[n..n + skip], s[n + skip..];
      var more := LinesExactly(rest);
      assert s == line + end + rest;
      FrontLine(s, line, end, rest, more);
      ends := [end] + more;
    }
  }

  /** Stripping removes the white space at either end and nothing else. */
  lemma StripExactly(s: string) returns (front: string, back: string)
    ensures s == front + Strip(s) + back
    ensures (forall c :: c in front + back ==> IsSpace(c))
    ensures Strip(s) != "" ==> !IsSpace(Strip(s)[0]) && !IsSpace(Strip(s)[|Strip(s)| - 1])
  {
    front := LStripExactly(s);
    back := RStripExactly(LStrip(s));
    assert Strip(s) != "" ==> Strip(s)[0] == LStrip(s)[0];
  }

  lemma {:induction false} RStripExactly(s: string) returns (back: string)
    ensures s == RStrip(s) + back && forall c :: c in back ==> IsSpace(c)
    ensures RStrip(s) != "" ==> !IsSpace(RStrip(s)[|RStrip(s)| - 1])
  {
    back := "";
    if s != "" && IsSpace(s[|s| - 1]) {
      var more := RStripExactly(s[..|s| - 1]);
      back := more + [s[|s| - 1]];
    }
  }

  /** The value of a field is what follows the prefix on the first line that has it. */
  lemma {:induction false} FieldIsFirst(lines: seq<string>, prefix: string)
    ensures (forall i :: 0 <= i < |lines| ==> !(prefix <= lines[i])) ==> Field(lines, prefix) == ""
    ensures forall i :: 0 <= i < |lines| && prefix <= lines[i] && (forall j :: 0 <= j < i ==> !(prefix <= lines[j])) ==>
              lines[i] == prefix + Field(lines, prefix)
  {
    if lines != [] && !(prefix <= lines[0]) {
      FieldIsFirst(lines[1..], prefix);
      forall i | 0 <= i < |lines| && prefix <= lines[i] && forall j :: 0 <= j < i ==> !(prefix <= lines[j])
        ensures lines[i] == prefix + Field(lines, prefix)
      {
        assert lines[i] == lines[1..][i - 1];
        assert forall j :: 0 <= j < i - 1 ==> lines[1..][j] == lines[j + 1];
      }
    }
  }

  /** Putting chunks together neither adds nor loses anything. */
  lemma {:induction false} ConcatExactly(a: seq<string>, b: seq<string>, part: string)
    ensures Concat(a + b) == Concat(a) + Concat(b)
    ensures Concat([part]) == part && |Concat([])| == 0
    decreases |b|
  {
    assert Concat([part]) == Concat([part][..0]) + part && [part][..0] == [];
    if b == [] {
      assert a + b == a;
    } else {
      assert (a + b)[..|a + b| - 1] == a + b[..|b| - 1];
      ConcatExactly(a, b[..|b| - 1], part);
    }
  }
}
