/** Small definitions shared by every other module. */
module Prelude {

  datatype Option<+T> = None | Some(value: T)

  /** The last `n` elements of `s`: what a bounded deque of size `n` retains of `s`. */
  function LastN<T>(s: seq<T>, n: nat): seq<T> {
    if |s| <= n then s else s[|s| - n..]
  }

  function Max(a: int, b: int): int {
    if a < b then b else a
  }

  function Min(a: int, b: int): int {
    if a < b then a else b
  }

  /** ASCII characters that end a line for `str.splitlines`. */
  predicate IsLineEnd(c: char) {
    c == '\n' || c == '\r' || c == '\U{000B}' || c == '\U{000C}' || '\U{001C}' <= c <= '\U{001E}'
  }

  /** ASCII white space, for `str.strip` and for `\s` in a regular expression. */
  predicate IsSpace(c: char) {
    c == ' ' || c == '\t' || c == '\U{001F}' || IsLineEnd(c)
  }

  function LStrip(s: string): string {
    if s != "" && IsSpace(s[0]) then LStrip(s[1..]) else s
  }

  lemma {:induction false} LStripExactly(s: string) returns (front: string)
    ensures s == front + LStrip(s) && forall c :: c in front ==> IsSpace(c)
    ensures LStrip(s) != "" ==> !IsSpace(LStrip(s)[0])
  {
    front := "";
    if s != "" && IsSpace(s[0]) {
      var more := LStripExactly(s[1..]);
      front := [s[0]] + more;
    }
  }

  /** By their codes: tab, line feed, vertical tab, form feed, carriage return, the four separators, and the blank. */
  lemma WhiteSpaceCodes(c: char)
    ensures IsSpace(c) <==> c as int in {9, 10, 11, 12, 13, 28, 29, 30, 31, 32}
    ensures IsLineEnd(c) <==> c as int in {10, 11, 12, 13, 28, 29, 30}
  {
  }

  lemma ConcatAssociates<T>(a: seq<T>, b: seq<T>, c: seq<T>)
    ensures a + b + c == a + (b + c)
  {
  }

  lemma SliceOfPrefix<T>(s: seq<T>, t: seq<T>, lo: nat, hi: nat)
    requires s <= t && lo <= hi <= |s|
    ensures t[lo..hi] == s[lo..hi]
  {
  }

  /** `a` and `b` are disjoint subsequences of `c` that together use up all of `c`. */
  ghost predicate Interleaving<T>(a: seq<T>, b: seq<T>, c: seq<T>)
    decreases |c|
  {
    if c == [] then a == [] && b == []
    else
      || (a != [] && a[|a| - 1] == c[|c| - 1] && Interleaving(a[..|a| - 1], b, c[..|c| - 1]))
      || (b != [] && b[|b| - 1] == c[|c| - 1] && Interleaving(a, b[..|b| - 1], c[..|c| - 1]))
  }

  lemma {:induction false} InterleavingAppendRight<T>(a: seq<T>, b: seq<T>, c: seq<T>, d: seq<T>)
    requires Interleaving(a, b, c)
    ensures Interleaving(a, b + d, c + d)
    decreases |d|
  {
    if d == [] {
      assert b + d == b && c + d == c;
    } else {
      var d', x := d[..|d| - 1], d[|d| - 1];
      InterleavingAppendRight(a, b, c, d');
      assert b + d' + [x] == b + d && c + d' + [x] == c + d;
    }
  }

  lemma {:induction false} InterleavingCounts<T>(a: seq<T>, b: seq<T>, c: seq<T>)
    requires Interleaving(a, b, c)
    ensures |a| + |b| == |c|
    ensures b == [] ==> a == c
    ensures a == [] ==> b == c
    ensures multiset(a) + multiset(b) == multiset(c)
    decreases |c|
  {
    if c != [] {
      var c' := c[..|c| - 1];
      assert c == c' + [c[|c| - 1]];
      if a != [] && a[|a| - 1] == c[|c| - 1] && Interleaving(a[..|a| - 1], b, c') {
        assert a == a[..|a| - 1] + [a[|a| - 1]];
        InterleavingCounts(a[..|a| - 1], b, c');
      } else {
        assert b == b[..|b| - 1] + [b[|b| - 1]];
        InterleavingCounts(a, b[..|b| - 1], c');
      }
    }
  }
}
