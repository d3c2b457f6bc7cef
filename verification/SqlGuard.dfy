/** Detection of SQL writes behind leading comments, as the read-engine audit hook does it. ASCII text. */
module SqlGuard {
  import opened Prelude

  // ---------------------------------------------------------------------------
  // One leading comment
  // ---------------------------------------------------------------------------

  // Index of the first close of a block comment in `s` at or after `from`, or `|s|`.
  function CloseAt(s: string, from: nat): (i: nat)
    requires from <= |s|
    ensures from <= i <= |s|
    ensures i < |s| ==> i + 1 < |s| && s[i] == '*' && s[i + 1] == '/'
    decreases |s| - from
  {
    if from == |s| then |s|
    else if from + 1 < |s| && s[from] == '*' && s[from + 1] == '/' then from
    else CloseAt(s, from + 1)
  }

  function LineEndAt(s: string, from: nat): (i: nat)
    requires from <= |s|
    ensures from <= i <= |s|
    decreases |s| - from
  {
    if from == |s| || s[from] == '\n' then from else LineEndAt(s, from + 1)
  }

  predicate StartsWith(s: string, prefix: string) {
    prefix <= s
  }

  /** What follows the complete comment that `t` begins with, and the white space after it. */
  function AfterComment(t: string): (rest: Option<string>)
    ensures rest.Some? ==> |rest.value| < |t|
  {
    if StartsWith(t, "/*") then
      var close := CloseAt(t, 2);
      if close == |t| then None
      else
        LStripShorter(t[close + 2..]);
        Some(LStrip(t[close + 2..]))
    else if StartsWith(t, "--") then
      var end := LineEndAt(t, 2);
      var after := if end < |t| then t[end + 1..] else "";
      LStripShorter(after);
      Some(LStrip(after))
    else None
  }

  /** What the pattern leaves of `s` when it matches: white space, one complete comment, white space. */
  function DropComment(s: string): (rest: Option<string>)
    ensures rest.Some? ==> |rest.value| < |s|
  {
    LStripShorter(s);
    AfterComment(LStrip(s))
  }

  lemma {:induction false} LStripShorter(s: string)
    ensures |LStrip(s)| <= |s|
    ensures LStrip(s) != "" ==> !IsSpace(LStrip(s)[0])
  {
    if s != "" && IsSpace(s[0]) {
      LStripShorter(s[1..]);
    }
  }

  // ---------------------------------------------------------------------------
  // The classification
  // ---------------------------------------------------------------------------

  function DropComments(s: string): string
    decreases |s|
  {
    match DropComment(s)
    case Some(rest) => DropComments(rest)
    case None => s
  }

  function UpperChar(c: char): char {
    if 'a' <= c <= 'z' then c - 'a' + 'A' else c
  }

  function Upper(s: string): string {
    seq(|s|, i requires 0 <= i < |s| => UpperChar(s[i]))
  }

  const WRITES := ["INSERT", "UPDATE", "DELETE", "REPLACE"]

  predicate IsWordChar(c: char) {
    'a' <= c <= 'z' || 'A' <= c <= 'Z' || '0' <= c <= '9' || c == '_'
  }

  /** `word` occurs in `s` at `i` between word boundaries. */
  predicate WordAt(s: string, word: string, i: nat) {
    && i + |word| <= |s| && s[i..i + |word|] == word
    && (i == 0 || !IsWordChar(s[i - 1]))
    && (i + |word| == |s| || !IsWordChar(s[i + |word|]))
  }

  predicate HasWord(s: string, word: string) {
    exists i :: 0 <= i <= |s| && WordAt(s, word, i)
  }

  /** The verdict on text that begins with neither white space nor a comment. */
  predicate HeadWrites(s: string) {
    var upper := Upper(s);
    || (exists k :: 0 <= k < |WRITES| && StartsWith(upper, WRITES[k]))
    || (StartsWith(upper, "WITH") && exists k :: 0 <= k < |WRITES| && HasWord(upper, WRITES[k]))
  }

  /** What is left of a statement once its leading comments and white space are gone. */
  function Core(s: string): string {
    LStrip(DropComments(s))
  }

  predicate IsWrite(s: string) {
    HeadWrites(Core(s))
  }

  method IsWriteStatement(statement: string) returns (write: bool)
    ensures write == IsWrite(statement)
  {
    var s := statement;
    while true
      invariant DropComments(s) == DropComments(statement)
      decreases |s|
    {
      var s2 := match DropComment(s) case Some(rest) => rest case None => s;
      if s2 == s {
        break;
      }
      s := s2;
    }
    UpperStrip(s);
    var upper := LStrip(Upper(s));
    for k := 0 to |WRITES|
      invariant forall j :: 0 <= j < k ==> !StartsWith(upper, WRITES[j])
    {
      if StartsWith(upper, WRITES[k]) {
        return true;
      }
    }
    if StartsWith(upper, "WITH") {
      for k := 0 to |WRITES|
        invariant forall j :: 0 <= j < k ==> !HasWord(upper, WRITES[j])
      {
        if HasWord(upper, WRITES[k]) {
          return true;
        }
      }
    }
    return false;
  }

  lemma {:induction false} UpperStrip(s: string)
    ensures LStrip(Upper(s)) == Upper(LStrip(s))
  {
    if s != "" {
      assert IsSpace(Upper(s)[0]) == IsSpace(s[0]);
      assert Upper(s)[1..] == Upper(s[1..]);
      UpperStrip(s[1..]);
    }
  }

  // ---------------------------------------------------------------------------
  // Leading trivia never matter
  // ---------------------------------------------------------------------------

  /** Something that may precede a statement: a blank, a closed block comment, a line comment with its newline. */
  datatype Trivia = Blank(c: char) | BlockComment(body: string) | LineComment(body: string)

  ghost predicate WellFormed(t: Trivia) {
    match t
    case Blank(c) => IsSpace(c)
    case BlockComment(body) =>
      forall i :: 0 <= i < |body| ==> !(body[i] == '*' && (body + "*/")[i + 1] == '/')
    case LineComment(body) => '\n' !in body
  }

  function Text(t: Trivia): string {
    match t
    case Blank(c) => [c]
    case BlockComment(body) => "/*" + body + "*/"
    case LineComment(body) => "--" + body + "\n"
  }

  function TextAll(ts: seq<Trivia>): string {
    if ts == [] then "" else Text(ts[0]) + TextAll(ts[1..])
  }

  lemma {:induction false} LStripTwice(s: string)
    ensures LStrip(LStrip(s)) == LStrip(s)
  {
    if s != "" && IsSpace(s[0]) {
      LStripTwice(s[1..]);
    }
  }

  lemma CoreStrip(s: string)
    ensures Core(LStrip(s)) == Core(s)
  {
    if DropComment(s).None? {
      LStripTwice(s);
    }
  }

  lemma {:induction false} CloseAtIs(s: string, from: nat, at: nat)
    requires from <= at && at + 1 < |s| && s[at] == '*' && s[at + 1] == '/'
    requires forall i :: from <= i < at ==> !(s[i] == '*' && s[i + 1] == '/')
    ensures CloseAt(s, from) == at
    decreases at - from
  {
    if from < at {
      CloseAtIs(s, from + 1, at);
    }
  }

  lemma {:induction false} LineEndAtIs(s: string, from: nat, at: nat)
    requires from <= at < |s| && s[at] == '\n'
    requires forall i :: from <= i < at ==> s[i] != '\n'
    ensures LineEndAt(s, from) == at
    decreases at - from
  {
    if from < at {
      LineEndAtIs(s, from + 1, at);
    }
  }

  /** `u` begins with a block comment that closes at `at`. */
  lemma BlockDrops(u: string, at: nat)
    requires 2 <= at && at + 1 < |u| && u[0] == '/' && u[1] == '*' && u[at] == '*' && u[at + 1] == '/'
    requires forall i :: 2 <= i < at ==> !(u[i] == '*' && u[i + 1] == '/')
    ensures DropComment(u) == Some(LStrip(u[at + 2..]))
  {
    assert LStrip(u) == u;
    CloseAtIs(u, 2, at);
  }

  /** `u` begins with a line comment that ends at `at`. */
  lemma LineDrops(u: string, at: nat)
    requires 2 <= at < |u| && u[0] == '-' && u[1] == '-' && u[at] == '\n'
    requires forall i :: 2 <= i < at ==> u[i] != '\n'
    ensures DropComment(u) == Some(LStrip(u[at + 1..]))
  {
    assert LStrip(u) == u && !StartsWith(u, "/*");
    LineEndAtIs(u, 2, at);
  }

  lemma DropBlock(body: string, s: string)
    requires WellFormed(BlockComment(body))
    ensures DropComment("/*" + body + "*/" + s) == Some(LStrip(s))
  {
    var head, u := "/*" + body + "*/", "/*" + body + "*/" + s;
    var at := 2 + |body|;
    assert forall i :: 0 <= i < |head| ==> u[i] == head[i];
    forall i | 2 <= i < at ensures !(u[i] == '*' && u[i + 1] == '/') {
      assert head[i] == body[i - 2] && head[i + 1] == (body + "*/")[i - 1];
    }
    assert u[at + 2..] == s;
    BlockDrops(u, at);
  }

  lemma DropLine(body: string, s: string)
    requires WellFormed(LineComment(body))
    ensures DropComment("--" + body + "\n" + s) == Some(LStrip(s))
  {
    var head, u := "--" + body + "\n", "--" + body + "\n" + s;
    var at := 2 + |body|;
    assert forall i :: 0 <= i < |head| ==> u[i] == head[i];
    assert forall i :: 2 <= i < at ==> head[i] == body[i - 2];
    assert u[at + 1..] == s;
    LineDrops(u, at);
  }

  lemma DropTrivia(t: Trivia, s: string)
    requires WellFormed(t) && !t.Blank?
    ensures DropComment(Text(t) + s) == Some(LStrip(s))
  {
    match t
    case BlockComment(body) => DropBlock(body, s);
    case LineComment(body) => DropLine(body, s);
  }

  lemma CoreTrivia(t: Trivia, s: string)
    requires WellFormed(t)
    ensures Core(Text(t) + s) == Core(s)
  {
    CoreStrip(s);
    if t.Blank? {
      CoreStrip(Text(t) + s);
      assert LStrip(Text(t) + s) == LStrip((Text(t) + s)[1..]) == LStrip(s) by {
        assert (Text(t) + s)[1..] == s;
      }
    } else {
      DropTrivia(t, s);
    }
  }

  /** Prefixing any sequence of white space and closed comments changes neither the core nor the verdict. */
  lemma {:induction false} TriviaNeverMatter(ts: seq<Trivia>, s: string)
    requires forall i :: 0 <= i < |ts| ==> WellFormed(ts[i])
    ensures Core(TextAll(ts) + s) == Core(s)
    ensures IsWrite(TextAll(ts) + s) == IsWrite(s)
  {
    if ts == [] {
      assert TextAll(ts) + s == s;
    } else {
      TriviaNeverMatter(ts[1..], s);
      CoreTrivia(ts[0], TextAll(ts[1..]) + s);
      assert TextAll(ts) + s == Text(ts[0]) + (TextAll(ts[1..]) + s);
    }
  }

  // ---------------------------------------------------------------------------
  // What is left, and what was removed
  // ---------------------------------------------------------------------------

  /** Stripping reaches a fixpoint: no complete comment and no white space leads what is left. */
  lemma {:induction false} CoreIsBare(s: string)
    ensures DropComment(Core(s)).None?
    ensures Core(s) != "" ==> !IsSpace(Core(s)[0])
    ensures Core(Core(s)) == Core(s)
    decreases |s|
  {
    match DropComment(s)
    case Some(rest) => CoreIsBare(rest);
    case None =>
      LStripTwice(s);
      LStripShorter(s);
      assert DropComment(LStrip(s)).None?;
  }

  predicate Bare(s: string) {
    DropComment(s).None? && (s != "" ==> !IsSpace(s[0]))
  }

  /** Bare text: no white space in front, no line comment, and no block comment that is closed. */
  lemma BareExactly(s: string)
    ensures Bare(s) <==>
            && (s != "" ==> s[0] as int !in {9, 10, 11, 12, 13, 28, 29, 30, 31, 32})
            && !(|s| >= 2 && s[0] == '-' && s[1] == '-')
            && !(|s| >= 2 && s[0] == '/' && s[1] == '*' && exists i :: 2 <= i < |s| - 1 && s[i] == '*' && s[i + 1] == '/')
  {
    if s != "" {
      WhiteSpaceCodes(s[0]);
      if |s| >= 2 && s[0] == '/' && s[1] == '*' {
        CloseAtFirst(s, 2);
      }
    }
  }

  lemma {:induction false} SplitBlanks(s: string) returns (ts: seq<Trivia>)
    ensures forall i :: 0 <= i < |ts| ==> WellFormed(ts[i])
    ensures s == TextAll(ts) + LStrip(s)
  {
    ts := [];
    if s != "" && IsSpace(s[0]) {
      var more := SplitBlanks(s[1..]);
      ts := [Blank(s[0])] + more;
      assert s == [s[0]] + s[1..];
    }
  }

  lemma {:induction false} TextAllConcat(a: seq<Trivia>, b: seq<Trivia>)
    ensures TextAll(a + b) == TextAll(a) + TextAll(b)
  {
    if a == [] {
      assert a + b == b;
    } else {
      assert (a + b)[1..] == a[1..] + b;
      TextAllConcat(a[1..], b);
    }
  }

  lemma {:induction false} CloseAtFirst(s: string, from: nat)
    requires from <= |s|
    ensures forall i :: from <= i < CloseAt(s, from) && i + 1 < |s| ==> !(s[i] == '*' && s[i + 1] == '/')
    decreases |s| - from
  {
    if from < |s| && !(from + 1 < |s| && s[from] == '*' && s[from + 1] == '/') {
      CloseAtFirst(s, from + 1);
    }
  }

  lemma {:induction false} LineEndAtFirst(s: string, from: nat)
    requires from <= |s|
    ensures forall i :: from <= i < LineEndAt(s, from) ==> s[i] != '\n'
    ensures LineEndAt(s, from) < |s| ==> s[LineEndAt(s, from)] == '\n'
    decreases |s| - from
  {
    if from < |s| && s[from] != '\n' {
      LineEndAtFirst(s, from + 1);
    }
  }

  /** The comment that `DropComment` removes from unindented text, unless it is a line comment at the very end. */
  lemma RemovedComment(t: string) returns (c: Trivia, rest: string)
    requires LStrip(t) == t && DropComment(t).Some?
    requires !(StartsWith(t, "--") && LineEndAt(t, 2) == |t|)
    ensures WellFormed(c) && t == Text(c) + rest && DropComment(t) == Some(LStrip(rest))
  {
    if StartsWith(t, "/*") {
      var close := CloseAt(t, 2);
      CloseAtFirst(t, 2);
      c, rest := BlockComment(t[2..close]), t[close + 2..];
      forall i | 0 <= i < |c.body| ensures !(c.body[i] == '*' && (c.body + "*/")[i + 1] == '/') {
        assert c.body[i] == t[i + 2] && (c.body + "*/")[i + 1] == t[i + 3];
      }
      assert t == "/*" + t[2..close] + "*/" + t[close + 2..];
    } else {
      var end := LineEndAt(t, 2);
      LineEndAtFirst(t, 2);
      c, rest := LineComment(t[2..end]), t[end + 1..];
      assert t == "--" + t[2..end] + "\n" + t[end + 1..];
    }
  }

  /** A line comment that the text ends in. */
  predicate EndsInLineComment(s: string) {
    StartsWith(s, "--") && LineEndAt(s, 2) == |s|
  }

  ghost predicate Decomposes(s: string, core: string, ts: seq<Trivia>, tail: string) {
    && (forall i :: 0 <= i < |ts| ==> WellFormed(ts[i]))
    && s == TextAll(ts) + tail
    && ((tail == core && Bare(tail)) || (core == "" && EndsInLineComment(tail)))
  }

  lemma UnfinishedCore(t: string)
    requires EndsInLineComment(t)
    ensures DropComment(t) == Some("") && Core(t) == ""
  {
    assert t[0] == '-' && LStrip(t) == t;
    assert DropComments("") == "";
  }

  lemma TextOne(c: Trivia)
    ensures TextAll([c]) == Text(c)
  {
    assert [c][1..] == [];
  }

  lemma Regroup(a: string, b: string, c: string, d: string)
    ensures a + b + c + d == a + (b + (c + d))
  {
  }

  lemma Join(blanks: seq<Trivia>, c: Trivia, more: seq<Trivia>, end: string)
    ensures TextAll(blanks + [c] + more) + end == TextAll(blanks) + (Text(c) + (TextAll(more) + end))
  {
    TextAllConcat(blanks + [c], more);
    TextAllConcat(blanks, [c]);
    TextOne(c);
    Regroup(TextAll(blanks), Text(c), TextAll(more), end);
  }

  lemma DecomposesAlong(
    s: string, core: string, blanks: seq<Trivia>, c: Trivia, rest: string, more: seq<Trivia>, end: string)
    requires s == TextAll(blanks) + (Text(c) + rest) && WellFormed(c)
    requires forall i :: 0 <= i < |blanks| ==> WellFormed(blanks[i])
    requires Decomposes(rest, core, more, end)
    ensures Decomposes(s, core, blanks + [c] + more, end)
  {
    Join(blanks, c, more, end);
  }

  /** Every statement is trivia followed by its bare core, or trivia followed by an unfinished line comment. */
  lemma {:induction false} Decompose(s: string) returns (ts: seq<Trivia>, tail: string)
    ensures Decomposes(s, Core(s), ts, tail)
    decreases |s|
  {
    var blanks := SplitBlanks(s);
    var t := LStrip(s);
    LStripTwice(s);
    CoreStrip(s);
    LStripShorter(s);
    if DropComment(s).None? {
      ts, tail := blanks, t;
      CoreIsBare(s);
    } else if EndsInLineComment(t) {
      ts, tail := blanks, t;
      UnfinishedCore(t);
    } else {
      var c, rest := RemovedComment(t);
      var more, end := Decompose(rest);
      CoreTrivia(c, rest);
      ts, tail := blanks + [c] + more, end;
      DecomposesAlong(s, Core(s), blanks, c, rest, more, end);
    }
  }

  lemma BareIsCore(s: string)
    requires Bare(s)
    ensures Core(s) == s
  {
  }

  /** `word`, in capitals, stands in `s` at `i`, in any case. */
  ghost predicate Spelled(s: string, i: nat, word: string) {
    && i + |word| <= |s|
    && forall j :: 0 <= j < |word| ==> s[i + j] == word[j] || s[i + j] as int == word[j] as int + 32
  }

  /** A letter, a digit or an underscore, by its code. */
  ghost predicate InWord(c: char) {
    65 <= c as int <= 90 || 97 <= c as int <= 122 || 48 <= c as int <= 57 || c as int == 95
  }

  ghost predicate Verb(word: string) {
    word == "INSERT" || word == "UPDATE" || word == "DELETE" || word == "REPLACE"
  }

  ghost predicate VerbAsWord(s: string, i: nat, word: string) {
    && Verb(word) && Spelled(s, i, word)
    && (i > 0 ==> !InWord(s[i - 1])) && (i + |word| < |s| ==> !InWord(s[i + |word|]))
  }

  /** It begins with one of the four verbs, or with WITH and has one of them as a word, in any case. */
  ghost predicate BeginsLikeAWrite(s: string) {
    || (exists word :: Verb(word) && Spelled(s, 0, word))
    || (Spelled(s, 0, "WITH") && exists i, word :: VerbAsWord(s, i, word))
  }

  ghost predicate Capitals(word: string) {
    forall j :: 0 <= j < |word| ==> 'A' <= word[j] <= 'Z'
  }

  lemma SpelledIs(s: string, i: nat, word: string)
    requires Capitals(word)
    ensures Spelled(s, i, word) <==> i + |word| <= |s| && Upper(s)[i..i + |word|] == word
  {
    if i + |word| <= |s| {
      forall j | 0 <= j < |word|
        ensures Upper(s)[i..i + |word|][j] == word[j] <==> s[i + j] == word[j] || s[i + j] as int == word[j] as int + 32
      {
        assert Upper(s)[i + j] == UpperChar(s[i + j]);
      }
    }
  }

  lemma StartsIs(s: string, word: string)
    requires Capitals(word)
    ensures Spelled(s, 0, word) <==> StartsWith(Upper(s), word)
  {
    SpelledIs(s, 0, word);
    if |word| <= |s| {
      assert Upper(s)[0..|word|] == Upper(s)[..|word|];
      assert StartsWith(Upper(s), word) <==> Upper(s)[..|word|] == word;
    }
  }

  lemma WordIs(s: string, i: nat, word: string)
    requires Capitals(word)
    ensures Spelled(s, i, word) && (i > 0 ==> !InWord(s[i - 1])) && (i + |word| < |s| ==> !InWord(s[i + |word|]))
            <==> i <= |s| && WordAt(Upper(s), word, i)
  {
    SpelledIs(s, i, word);
    forall k | 0 <= k < |s| ensures InWord(s[k]) <==> IsWordChar(Upper(s)[k]) {
      assert Upper(s)[k] == UpperChar(s[k]);
    }
  }

  lemma HeadWritesExactly(s: string)
    ensures HeadWrites(s) <==> BeginsLikeAWrite(s)
  {
    VerbsAre();
    forall word | Verb(word) ensures Spelled(s, 0, word) <==> StartsWith(Upper(s), word) {
      StartsIs(s, word);
    }
    StartsIs(s, "WITH");
    forall i: nat, word | Verb(word) ensures VerbAsWord(s, i, word) <==> i <= |s| && WordAt(Upper(s), word, i) {
      WordIs(s, i, word);
    }
    VerbFirst(s);
    VerbInside(s);
  }

  lemma VerbsAre()
    ensures forall word :: Verb(word) <==> exists k :: 0 <= k < |WRITES| && WRITES[k] == word
    ensures forall word :: Verb(word) ==> Capitals(word)
  {
    forall word ensures Verb(word) <==> exists k :: 0 <= k < |WRITES| && WRITES[k] == word {
      assert WRITES[0] == "INSERT" && WRITES[1] == "UPDATE" && WRITES[2] == "DELETE" && WRITES[3] == "REPLACE";
    }
  }

  lemma VerbFirst(s: string)
    requires forall word :: Verb(word) <==> exists k :: 0 <= k < |WRITES| && WRITES[k] == word
    requires forall word :: Verb(word) ==> (Spelled(s, 0, word) <==> StartsWith(Upper(s), word))
    ensures (exists word :: Verb(word) && Spelled(s, 0, word)) <==>
            exists k :: 0 <= k < |WRITES| && StartsWith(Upper(s), WRITES[k])
  {
    if exists k :: 0 <= k < |WRITES| && StartsWith(Upper(s), WRITES[k]) {
      var k :| 0 <= k < |WRITES| && StartsWith(Upper(s), WRITES[k]);
      assert Verb(WRITES[k]) && Spelled(s, 0, WRITES[k]);
    }
  }

  lemma VerbInside(s: string)
    requires forall word :: Verb(word) <==> exists k :: 0 <= k < |WRITES| && WRITES[k] == word
    requires forall i: nat, word :: Verb(word) ==> (VerbAsWord(s, i, word) <==> i <= |s| && WordAt(Upper(s), word, i))
    ensures (exists i, word :: VerbAsWord(s, i, word)) <==> exists k :: 0 <= k < |WRITES| && HasWord(Upper(s), WRITES[k])
  {
    if exists i, word :: VerbAsWord(s, i, word) {
      var i, word :| VerbAsWord(s, i, word);
      var k :| 0 <= k < |WRITES| && WRITES[k] == word;
      assert HasWord(Upper(s), WRITES[k]);
    }
    if exists k :: 0 <= k < |WRITES| && HasWord(Upper(s), WRITES[k]) {
      var k :| 0 <= k < |WRITES| && HasWord(Upper(s), WRITES[k]);
      var i :| 0 <= i <= |Upper(s)| && WordAt(Upper(s), WRITES[k], i);
      assert Verb(WRITES[k]) && VerbAsWord(s, i, WRITES[k]);
    }
  }

  ghost predicate WriteBehindTrivia(s: string, ts: seq<Trivia>, rest: string) {
    && (forall i :: 0 <= i < |ts| ==> WellFormed(ts[i]))
    && s == TextAll(ts) + rest && Bare(rest) && BeginsLikeAWrite(rest)
  }

  /**
   * A statement is classified as a write exactly when, behind closed trivia, it begins with one of the four verbs, or
   * with WITH and has one of them as a word.
   */
  lemma WritesExactly(s: string)
    ensures IsWrite(s) <==> exists ts, rest :: WriteBehindTrivia(s, ts, rest)
  {
    if IsWrite(s) {
      var ts, rest := Decompose(s);
      EmptyIsNoWrite();
      HeadWritesExactly(rest);
      assert WriteBehindTrivia(s, ts, rest);
    }
    if exists ts, rest :: WriteBehindTrivia(s, ts, rest) {
      var ts, rest :| WriteBehindTrivia(s, ts, rest);
      TriviaNeverMatter(ts, rest);
      BareIsCore(rest);
      HeadWritesExactly(rest);
    }
  }

  lemma EmptyIsNoWrite()
    ensures !HeadWrites("")
  {
    assert |Upper("")| == 0;
  }
}
