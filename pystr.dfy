/** The handful of Python `str` operations the assistant relies on:
    `isspace`/`strip`, `split` on a one-character separator, `join` and
    `lower`. Both the conversation graph and the ingestion filter use them. */
module PyStr {

  /** Python's `str.isspace` set, which `str.strip()` with no argument removes:
      the C0 separators and controls U+0009..U+000D and U+001C..U+001F, the
      space, NEL, NO-BREAK SPACE, OGHAM SPACE MARK, U+2000..U+200A, the line and
      paragraph separators, U+202F, U+205F and the ideographic space. */
  predicate IsWhitespace(c: char) {
    var n := c as int;
    (0x09 <= n <= 0x0D) || (0x1C <= n <= 0x20) || n == 0x85 || n == 0xA0 || n == 0x1680
    || (0x2000 <= n <= 0x200A) || n == 0x2028 || n == 0x2029 || n == 0x202F
    || n == 0x205F || n == 0x3000
  }

  predicate AllWhitespace(s: string) {
    forall k :: 0 <= k < |s| ==> IsWhitespace(s[k])
  }

  /** Index of the first non-whitespace character (|s| when there is none). */
  function StripStart(s: string): (i: nat)
    ensures i <= |s|
    ensures forall k :: 0 <= k < i ==> IsWhitespace(s[k])
    ensures i < |s| ==> !IsWhitespace(s[i])
  {
    if s == [] || !IsWhitespace(s[0]) then 0 else 1 + StripStart(s[1..])
  }

  /** One past the index of the last non-whitespace character (0 when there is none). */
  function StripEnd(s: string): (j: nat)
    ensures j <= |s|
    ensures forall k :: j <= k < |s| ==> IsWhitespace(s[k])
    ensures 0 < j ==> !IsWhitespace(s[j - 1])
  {
    if s == [] || !IsWhitespace(s[|s| - 1]) then |s| else StripEnd(s[..|s| - 1])
  }

  /** `s.strip()`: the slice of `s` between its leading and trailing whitespace. */
  function Strip(s: string): (r: string)
    ensures r == [] <==> AllWhitespace(s)
    ensures r != [] ==> !IsWhitespace(r[0]) && !IsWhitespace(r[|r| - 1])
    ensures r != [] ==> StripStart(s) + |r| == StripEnd(s) && r == s[StripStart(s)..StripEnd(s)]
    ensures AllWhitespace(s[..StripStart(s)]) && AllWhitespace(s[StripStart(s) + |r|..])
  {
    var i, j := StripStart(s), StripEnd(s);
    if i == |s| then "" else s[i..j]
  }

  /** Python's truth value of `s.strip()`: the string has a non-whitespace character. */
  predicate HasContent(s: string): (b: bool)
    ensures b <==> exists k :: 0 <= k < |s| && !IsWhitespace(s[k])
  {
    Strip(s) != ""
  }

  /** `s.split(sep)` for a one-character separator: never empty, and "" splits to [""]. */
  function Split(s: string, sep: char): (parts: seq<string>)
    ensures |parts| >= 1
    ensures forall k :: 0 <= k < |parts| ==> sep !in parts[k]
  {
    if s == [] then [""]
    else
      var rest := Split(s[1..], sep);
      if s[0] == sep then [""] + rest
      else [[s[0]] + rest[0]] + rest[1..]
  }

  /** `sep.join(parts)`. */
  function Join(sep: string, parts: seq<string>): string {
    if parts == [] then ""
    else if |parts| == 1 then parts[0]
    else parts[0] + sep + Join(sep, parts[1..])
  }

  /** An empty list joins to "", whatever the separator. */
  lemma JoinOfNone(sep: string)
    ensures Join(sep, []) == ""
  {
  }

  /** Joining the pieces of a split with the same separator gives back the text. */
  lemma {:induction false} JoinSplit(s: string, sep: char)
    ensures Join([sep], Split(s, sep)) == s
  {
    if s != [] {
      var rest := Split(s[1..], sep);
      JoinSplit(s[1..], sep);
      if s[0] != sep && |rest| > 1 {
        assert rest == [rest[0]] + rest[1..];
        assert Join([sep], rest) == rest[0] + [sep] + Join([sep], rest[1..]);
        assert [[s[0]] + rest[0]] + rest[1..] == [[s[0]] + rest[0], rest[1]] + rest[2..];
        assert s == [s[0]] + s[1..];
      }
    }
  }

  /** A piece without the separator, followed by the separator, starts a new piece. */
  lemma {:induction false} SplitAfterPiece(a: string, b: string, sep: char)
    requires sep !in a
    ensures Split(a + [sep] + b, sep) == [a] + Split(b, sep)
  {
    if a != [] {
      var s := a + [sep] + b;
      SplitAfterPiece(a[1..], b, sep);
      assert s[1..] == a[1..] + [sep] + b;
      var rest := Split(s[1..], sep);
      assert rest[0] == a[1..] && rest[1..] == Split(b, sep);
      assert s[0] == a[0] && a[0] != sep;
      assert [a[0]] + a[1..] == a;
    } else {
      assert a + [sep] + b == [sep] + b;
      assert ([sep] + b)[1..] == b;
    }
  }

  /** A text without the separator splits to itself. */
  lemma {:induction false} SplitOfPiece(a: string, sep: char)
    requires sep !in a
    ensures Split(a, sep) == [a]
  {
    if a != [] {
      SplitOfPiece(a[1..], sep);
      assert a == [a[0]] + a[1..];
    }
  }

  /** Splitting a join restores the pieces, provided none of them holds the separator. */
  lemma {:induction false} SplitJoin(parts: seq<string>, sep: char)
    requires |parts| >= 1
    requires forall k :: 0 <= k < |parts| ==> sep !in parts[k]
    ensures Split(Join([sep], parts), sep) == parts
  {
    if |parts| == 1 {
      SplitOfPiece(parts[0], sep);
    } else {
      SplitJoin(parts[1..], sep);
      SplitAfterPiece(parts[0], Join([sep], parts[1..]), sep);
      assert parts == [parts[0]] + parts[1..];
    }
  }

  /** Where the `i`-th part starts in `Join(sep, parts)`. */
  function Offset(sep: string, parts: seq<string>, i: nat): nat
    requires i < |parts|
  {
    if i == 0 then 0 else |parts[0]| + |sep| + Offset(sep, parts[1..], i - 1)
  }

  /** A slice past the first operand of a concatenation is a slice of the second. */
  lemma SliceOfSecond(a: string, b: string, x: nat, y: nat)
    requires x <= y <= |b|
    ensures (a + b)[|a| + x..|a| + y] == b[x..y]
  {
    assert forall k :: 0 <= k < y - x ==> (a + b)[|a| + x..|a| + y][k] == b[x..y][k];
  }

  /** `Join` places the `i`-th part at its offset, and the last part ends the text. */
  lemma {:induction false} JoinPieceAt(sep: string, parts: seq<string>, i: nat)
    requires i < |parts|
    ensures Offset(sep, parts, i) + |parts[i]| <= |Join(sep, parts)|
    ensures Join(sep, parts)[Offset(sep, parts, i)..Offset(sep, parts, i) + |parts[i]|] == parts[i]
    ensures i + 1 == |parts| ==> Offset(sep, parts, i) + |parts[i]| == |Join(sep, parts)|
  {
    if |parts| > 1 {
      var rest := Join(sep, parts[1..]);
      var head := parts[0] + sep;
      assert Join(sep, parts) == head + rest;
      if i == 0 {
        assert (head + rest)[..|parts[0]|] == parts[0];
      } else {
        JoinPieceAt(sep, parts[1..], i - 1);
        var o := Offset(sep, parts[1..], i - 1);
        SliceOfSecond(head, rest, o, o + |parts[i]|);
      }
    }
  }

  /** Between the `i`-th part and the next one, `Join` puts exactly the separator. */
  lemma {:induction false} JoinSeparatorAfter(sep: string, parts: seq<string>, i: nat)
    requires i + 1 < |parts|
    ensures Offset(sep, parts, i + 1) == Offset(sep, parts, i) + |parts[i]| + |sep|
    ensures Offset(sep, parts, i + 1) <= |Join(sep, parts)|
    ensures Join(sep, parts)[Offset(sep, parts, i) + |parts[i]|..Offset(sep, parts, i + 1)] == sep
  {
    var rest := Join(sep, parts[1..]);
    var head := parts[0] + sep;
    assert Join(sep, parts) == head + rest;
    if i == 0 {
      JoinPieceAt(sep, parts[1..], 0);
      assert (head + rest)[|parts[0]|..|head|] == sep;
    } else {
      JoinSeparatorAfter(sep, parts[1..], i - 1);
      var o := Offset(sep, parts[1..], i - 1);
      SliceOfSecond(head, rest, o + |parts[i]|, Offset(sep, parts[1..], i));
    }
  }

  /** A text that starts and ends with a non-whitespace character is its own strip. */
  lemma StripOfContent(s: string)
    requires s != [] && !IsWhitespace(s[0]) && !IsWhitespace(s[|s| - 1])
    ensures Strip(s) == s
  {
    assert StripStart(s) == 0;
    assert StripEnd(s) == |s|;
  }

  /** `strip()` is idempotent. */
  lemma StripIdempotent(s: string)
    ensures Strip(Strip(s)) == Strip(s)
  {
    if Strip(s) != [] {
      StripOfContent(Strip(s));
    }
  }

  /** `c.lower()` restricted to ASCII: 'A'..'Z' become 'a'..'z', every other
      character is kept. */
  function LowerChar(c: char): (r: char)
    ensures 'A' <= c <= 'Z' ==> 'a' <= r <= 'z' && r as int - c as int == 32
    ensures !('A' <= c <= 'Z') ==> r == c
  {
    if 'A' <= c <= 'Z' then (c as int + 32) as char else c
  }

  function Lower(s: string): (r: string)
    ensures |r| == |s|
    ensures forall k :: 0 <= k < |s| ==> r[k] == LowerChar(s[k])
  {
    if s == [] then "" else [LowerChar(s[0])] + Lower(s[1..])
  }
}
