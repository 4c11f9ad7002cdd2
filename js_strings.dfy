/**
 * The pieces of JavaScript's string library the application relies on:
 * `String.prototype.trim`, `String.prototype.split` with a one-character
 * separator followed by indexing, and the decimal rendering of a
 * non-negative integer in a template literal.
 */
module JsStrings {
  import opened Wrappers

  /** The characters `trim` removes: ECMAScript WhiteSpace and LineTerminator. */
  predicate IsWhitespace(c: char) {
    c == '\t' || c == '\n' || c == '\U{B}' || c == '\U{C}' || c == '\r' || c == ' '
    || c == '\U{A0}' || c == '\U{1680}' || ('\U{2000}' <= c <= '\U{200A}')
    || c == '\U{2028}' || c == '\U{2029}' || c == '\U{202F}' || c == '\U{205F}'
    || c == '\U{3000}' || c == '\U{FEFF}'
  }

  /** A string that `trim` turns into the empty string, hence falsy after trimming. */
  predicate IsBlank(s: string) {
    forall k :: 0 <= k < |s| ==> IsWhitespace(s[k])
  }

  /** `s` begins with `prefix` (`String.prototype.startsWith`). */
  predicate StartsWith(s: string, prefix: string) {
    |prefix| <= |s| && s[..|prefix|] == prefix
  }

  /** A concatenation starts with its left operand. */
  lemma StartsWithAppend(s: string, t: string)
    ensures StartsWith(s + t, s)
  {
  }

  /** A prefix of a prefix is a prefix. */
  lemma StartsWithTransitive(s: string, t: string, u: string)
    requires StartsWith(s, t) && StartsWith(t, u)
    ensures StartsWith(s, u)
  {
  }

  /** Appending to a string keeps every prefix it had. */
  lemma StartsWithExtend(s: string, prefix: string, t: string)
    requires StartsWith(s, prefix)
    ensures StartsWith(s + t, prefix)
  {
  }

  /** `s` ends with `suffix` (`String.prototype.endsWith`). */
  predicate EndsWith(s: string, suffix: string) {
    |suffix| <= |s| && s[|s| - |suffix|..] == suffix
  }

  /** A concatenation ends with its right operand. */
  lemma EndsWithAppend(s: string, t: string)
    ensures EndsWith(s + t, t)
  {
  }

  /** A string ending with `suffix` agrees with it in its last `|suffix|` characters. */
  lemma EndsWithCharFromEnd(s: string, suffix: string, k: nat)
    requires EndsWith(s, suffix) && 1 <= k <= |suffix|
    ensures s[|s| - k] == suffix[|suffix| - k]
  {
  }

  /** The last characters of a concatenation are those of its right operand. */
  lemma CharFromEnd(s: string, t: string, k: nat)
    requires 1 <= k <= |t|
    ensures (s + t)[|s + t| - k] == t[|t| - k]
  {
  }

  /** A common right operand cancels. */
  lemma CancelRight(a: string, b: string, x: string)
    requires a + x == b + x
    ensures a == b
  {
    assert a == (a + x)[..|a|];
    assert b == (b + x)[..|b|];
  }

  /** `t` occurs in `s` starting at index `i`. */
  predicate OccursAt(s: string, t: string, i: nat) {
    i + |t| <= |s| && s[i..i + |t|] == t
  }

  /** A right operand occurs in a concatenation right after the left one. */
  lemma OccursAfter(s: string, t: string)
    ensures OccursAt(s + t, t, |s|)
  {
  }

  /** Appending to a string keeps every occurrence it had. */
  lemma OccursAtExtend(s: string, t: string, i: nat, u: string)
    requires OccursAt(s, t, i)
    ensures OccursAt(s + u, t, i)
  {
  }

  /** A suffix of the tail of `s` is a suffix of `s`. */
  lemma SuffixOfTail(s: string, r: string)
    requires 0 < |s| && |r| < |s|
    requires forall k :: 0 <= k < |r| ==> r[k] == s[1..][|s| - 1 - |r| + k]
    ensures forall k :: 0 <= k < |r| ==> r[k] == s[|s| - |r| + k]
  {
    forall k | 0 <= k < |r| ensures r[k] == s[|s| - |r| + k] {
      assert s[1..][|s| - 1 - |r| + k] == s[|s| - |r| + k];
    }
  }

  /** A whitespace character followed by `n` more leaves `n + 1` of them at the front of `s`. */
  lemma BlankBeforeTail(s: string, n: nat)
    requires n < |s| && IsWhitespace(s[0])
    requires forall k :: 0 <= k < n ==> IsWhitespace(s[1..][k])
    ensures forall k :: 0 <= k < n + 1 ==> IsWhitespace(s[k])
  {
    forall k | 0 < k < n + 1 ensures IsWhitespace(s[k]) {
      assert s[k] == s[1..][k - 1];
    }
  }

  /** Removes the leading whitespace: what remains is a suffix of `s` and starts with a non-space. */
  function TrimStart(s: string): (r: string)
    ensures |r| <= |s|
    ensures forall k :: 0 <= k < |r| ==> r[k] == s[|s| - |r| + k]
    ensures forall k :: 0 <= k < |s| - |r| ==> IsWhitespace(s[k])
    ensures r == [] || !IsWhitespace(r[0])
  {
    if |s| > 0 && IsWhitespace(s[0]) then
      var r := TrimStart(s[1..]);
      SuffixOfTail(s, r);
      BlankBeforeTail(s, |s| - 1 - |r|);
      r
    else
      s
  }

  /** Removes the trailing whitespace: what remains is a prefix of `s` and ends with a non-space. */
  function TrimEnd(s: string): (r: string)
    ensures |r| <= |s|
    ensures forall k :: 0 <= k < |r| ==> r[k] == s[k]
    ensures forall k :: |r| <= k < |s| ==> IsWhitespace(s[k])
    ensures r == [] || !IsWhitespace(r[|r| - 1])
  {
    if |s| > 0 && IsWhitespace(s[|s| - 1]) then
      var r := TrimEnd(s[..|s| - 1]);
      assert forall k :: 0 <= k < |r| ==> r[k] == s[k] by {
        forall k | 0 <= k < |r| ensures r[k] == s[k] {
          assert s[..|s| - 1][k] == s[k];
        }
      }
      assert forall k :: |r| <= k < |s| ==> IsWhitespace(s[k]) by {
        forall k | |r| <= k < |s| ensures IsWhitespace(s[k]) {
          if k < |s| - 1 {
            assert s[k] == s[..|s| - 1][k];
          }
        }
      }
      r
    else
      s
  }

  /**
   * `s.trim()`: the longest infix of `s` whose first and last characters
   * are not whitespace; it is empty exactly when `s` is blank.
   */
  function Trim(s: string): (r: string)
    ensures r == "" <==> IsBlank(s)
    ensures r != "" ==> !IsWhitespace(r[0]) && !IsWhitespace(r[|r| - 1])
    ensures |r| <= |s|
  {
    var t := TrimStart(s);
    var r := TrimEnd(t);
    assert t != "" ==> !IsWhitespace(t[0]);
    assert r != "" ==> !IsWhitespace(r[0]) by {
      if r != "" {
        assert r[0] == t[0];
      }
    }
    r
  }

  /** The index of the first occurrence of `c` in `s`. */
  function IndexOf(s: string, c: char): (i: nat)
    requires c in s
    ensures i < |s| && s[i] == c && c !in s[..i]
  {
    if s[0] == c then 0 else 1 + IndexOf(s[1..], c)
  }

  /** `s.split(sep)` for a one-character separator: the maximal separator-free pieces, left to right. */
  function Split(s: string, sep: char): (pieces: seq<string>)
    ensures |pieces| >= 1
    ensures forall k :: 0 <= k < |pieces| ==> sep !in pieces[k]
    decreases |s|
  {
    if sep in s then
      var i := IndexOf(s, sep);
      [s[..i]] + Split(s[i + 1..], sep)
    else
      [s]
  }

  /** `pieces.join(sep)`: the inverse of `Split`. */
  function Join(pieces: seq<string>, sep: char): string
    requires |pieces| >= 1
  {
    if |pieces| == 1 then pieces[0] else pieces[0] + [sep] + Join(pieces[1..], sep)
  }

  /** The first separator after a separator-free head is the one that ends it. */
  lemma {:induction false} IndexOfAfterHead(head: string, sep: char, tail: string)
    requires sep !in head
    ensures sep in head + [sep] + tail
    ensures IndexOf(head + [sep] + tail, sep) == |head|
    decreases |head|
  {
    var s := head + [sep] + tail;
    assert s[|head|] == sep;
    if head != [] {
      assert s[1..] == head[1..] + [sep] + tail;
      IndexOfAfterHead(head[1..], sep, tail);
    }
  }

  /** A separator-free head followed by the separator splits off as the first piece. */
  lemma SplitAfterHead(head: string, sep: char, rest: string)
    requires sep !in head
    ensures Split(head + [sep] + rest, sep) == [head] + Split(rest, sep)
  {
    var s := head + [sep] + rest;
    IndexOfAfterHead(head, sep, rest);
    assert s[..|head|] == head;
    assert s[|head| + 1..] == rest;
  }

  /** Splitting a join of separator-free pieces gives back the pieces. */
  lemma {:induction false} SplitJoin(pieces: seq<string>, sep: char)
    requires |pieces| >= 1
    requires forall k :: 0 <= k < |pieces| ==> sep !in pieces[k]
    ensures Split(Join(pieces, sep), sep) == pieces
    decreases |pieces|
  {
    if |pieces| > 1 {
      SplitAfterHead(pieces[0], sep, Join(pieces[1..], sep));
      SplitJoin(pieces[1..], sep);
      assert pieces == [pieces[0]] + pieces[1..];
    }
  }

  /** The first piece of a split: everything before the first separator. */
  lemma FirstPiece(s: string, sep: char)
    ensures sep in s ==> Split(s, sep)[0] == s[..IndexOf(s, sep)]
    ensures sep !in s ==> Split(s, sep)[0] == s
  {
  }

  /**
   * `s.split(sep)[1]`: `None` (JavaScript's `undefined`) when `s` has no
   * separator, and otherwise the text after the first separator up to the
   * next separator or the end of `s`.
   */
  function SecondField(s: string, sep: char): (r: Option<string>)
    ensures r.None? <==> sep !in s
    ensures r.Some? ==>
      var start := IndexOf(s, sep) + 1;
      && start + |r.value| <= |s|
      && r.value == s[start..start + |r.value|]
      && sep !in r.value
      && (start + |r.value| == |s| || s[start + |r.value|] == sep)
  {
    var pieces := Split(s, sep);
    if |pieces| >= 2 then
      var start := IndexOf(s, sep) + 1;
      var rest := s[start..];
      FirstPiece(rest, sep);
      if sep in rest then
        assert rest[IndexOf(rest, sep)] == sep;
        Some(pieces[1])
      else
        Some(pieces[1])
    else
      None
  }

  /** With exactly one separator, the second field is everything after it. */
  lemma SecondFieldOfPair(head: string, tail: string, sep: char)
    requires sep !in head && sep !in tail
    ensures SecondField(head + [sep] + tail, sep) == Some(tail)
  {
    SplitJoin([head, tail], sep);
    assert Join([head, tail], sep) == head + [sep] + tail;
  }

  /** A `string | undefined` interpolated into a template literal: `undefined` becomes the text "undefined". */
  function Interpolated(v: Option<string>): string {
    match v
    case Some(text) => text
    case None => "undefined"
  }

  /** The character of a decimal digit. */
  function DigitChar(d: nat): (c: char)
    requires d < 10
    ensures '0' <= c <= '9'
  {
    (('0' as int) + d) as char
  }

  /** The value of a decimal digit character. */
  function DigitValue(c: char): (d: nat)
    requires '0' <= c <= '9'
    ensures d < 10
  {
    (c as int) - ('0' as int)
  }

  predicate IsDecimal(s: string) {
    |s| >= 1 && forall k :: 0 <= k < |s| ==> '0' <= s[k] <= '9'
  }

  /**
   * The decimal text JavaScript produces for a non-negative integer in a
   * template literal: digits only, with no leading zero except for zero itself.
   */
  function NatToDecimal(n: nat): (s: string)
    ensures IsDecimal(s)
    ensures s[0] == '0' ==> n == 0
  {
    if n < 10 then [DigitChar(n)]
    else
      var s := NatToDecimal(n / 10) + [DigitChar(n % 10)];
      assert s[0] == NatToDecimal(n / 10)[0];
      s
  }

  /** The number a string of decimal digits denotes. */
  function ParseDecimal(s: string): nat
    requires forall k :: 0 <= k < |s| ==> '0' <= s[k] <= '9'
  {
    if s == [] then 0 else ParseDecimal(s[..|s| - 1]) * 10 + DigitValue(s[|s| - 1])
  }

  /** Reading back the decimal text of `n` gives `n`. */
  lemma {:induction false} ParseNatToDecimal(n: nat)
    ensures ParseDecimal(NatToDecimal(n)) == n
  {
    var s := NatToDecimal(n);
    if n >= 10 {
      ParseNatToDecimal(n / 10);
      assert s[..|s| - 1] == NatToDecimal(n / 10);
    }
  }
}
