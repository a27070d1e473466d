/**
 * String operations the source takes from JavaScript: toLowerCase, includes,
 * startsWith, indexOf, split on one character, trim and join.
 */
module Text {

  /** Lower-casing of one character, for the ASCII letters A-Z. */
  function LowerChar(c: char): char {
    if 'A' <= c <= 'Z' then (c as int - 'A' as int + 'a' as int) as char else c
  }

  /** `s.toLowerCase()`, character by character. */
  function Lower(s: string): (r: string)
    ensures |r| == |s|
    ensures forall k :: 0 <= k < |s| ==>
              if 'A' <= s[k] <= 'Z' then r[k] as int == s[k] as int - 'A' as int + 'a' as int
              else r[k] == s[k]
  {
    seq(|s|, i requires 0 <= i < |s| => LowerChar(s[i]))
  }

  /** `needle` occurs in `hay` starting at position `k`. */
  predicate OccursAt(hay: string, needle: string, k: int) {
    0 <= k && k + |needle| <= |hay| && hay[k..k + |needle|] == needle
  }

  /** `hay.includes(needle)`. */
  predicate Contains(hay: string, needle: string) {
    exists k :: 0 <= k <= |hay| && OccursAt(hay, needle, k)
  }

  /** `s.startsWith(prefix)`. */
  predicate StartsWith(s: string, prefix: string) {
    OccursAt(s, prefix, 0)
  }

  /** `s.indexOf(needle)`: the first position where `needle` occurs, or -1. */
  function IndexOf(s: string, needle: string): (r: int)
    ensures -1 <= r <= |s|
    ensures r == -1 <==> !Contains(s, needle)
    ensures r != -1 ==> OccursAt(s, needle, r) && forall k :: 0 <= k < r ==> !OccursAt(s, needle, k)
    decreases |s|
  {
    if |needle| > |s| then
      assert forall k :: !OccursAt(s, needle, k);
      -1
    else if s[..|needle|] == needle then
      assert OccursAt(s, needle, 0);
      0
    else
      var r' := IndexOf(s[1..], needle);
      assert forall k :: 0 < k ==> (OccursAt(s, needle, k) <==> OccursAt(s[1..], needle, k - 1));
      if r' == -1 then -1
      else
        assert OccursAt(s, needle, r' + 1);
        r' + 1
  }

  /** `s.split(sep)[0]` for a one-character separator: the text before the first `sep`. */
  function Before(s: string, sep: char): (r: string)
    ensures sep !in r
    ensures StartsWith(s, r)
    ensures |r| < |s| ==> s[|r|] == sep
    decreases |s|
  {
    if s == [] then []
    else if s[0] == sep then []
    else [s[0]] + Before(s[1..], sep)
  }

  /**
   * The characters `trim` removes: the white space and line terminators of
   * the ECMAScript grammar (tab, line feed, vertical tab, form feed, carriage
   * return, space, no-break space, the Unicode space separators, line and
   * paragraph separators, and the byte-order mark).
   */
  predicate IsSpace(c: char) {
    var n := c as int;
    (9 <= n <= 13) || n == 32 || n == 0xA0 || n == 0x1680 || (0x2000 <= n <= 0x200A) ||
    n == 0x2028 || n == 0x2029 || n == 0x202F || n == 0x205F || n == 0x3000 || n == 0xFEFF
  }

  predicate AllSpace(s: string) {
    forall k :: 0 <= k < |s| ==> IsSpace(s[k])
  }

  /** `s` has no white space at either end (the empty string included). */
  predicate Trimmed(s: string) {
    s == [] || (!IsSpace(s[0]) && !IsSpace(s[|s| - 1]))
  }

  /** The number of white-space characters `s` starts with. */
  function LeadingSpace(s: string): (n: nat)
    ensures n <= |s|
    ensures forall k :: 0 <= k < n ==> IsSpace(s[k])
    ensures n < |s| ==> !IsSpace(s[n])
    decreases |s|
  {
    if s != [] && IsSpace(s[0]) then
      var m := LeadingSpace(s[1..]);
      assert forall k :: 1 <= k < m + 1 ==> s[k] == s[1..][k - 1];
      1 + m
    else 0
  }

  /** The number of white-space characters `s` ends with. */
  function TrailingSpace(s: string): (n: nat)
    ensures n <= |s|
    ensures forall k :: |s| - n <= k < |s| ==> IsSpace(s[k])
    ensures n < |s| ==> !IsSpace(s[|s| - n - 1])
    decreases |s|
  {
    if s != [] && IsSpace(s[|s| - 1]) then
      var t := s[..|s| - 1];
      var m := TrailingSpace(t);
      assert forall k :: 0 <= k < |t| ==> s[k] == t[k];
      1 + m
    else 0
  }

  /** `s` with its leading white space removed. */
  function TrimStart(s: string): (r: string)
    ensures r == [] || !IsSpace(r[0])
  {
    s[LeadingSpace(s)..]
  }

  /** `s` with its trailing white space removed. */
  function TrimEnd(s: string): (r: string)
    ensures r == [] || !IsSpace(r[|r| - 1])
  {
    s[..|s| - TrailingSpace(s)]
  }

  /**
   * `s.trim()`: the middle of `s` once the white space at both ends is cut
   * off, leaving no white space at either end.
   */
  function Trim(s: string): (r: string)
    ensures Trimmed(r)
    ensures exists a, b :: AllSpace(a) && AllSpace(b) && s == a + r + b
  {
    var n := LeadingSpace(s);
    var t := TrimStart(s);
    var m := |t| - TrailingSpace(t);
    SpacePrefix(s, n);
    SpaceSuffix(t, m);
    assert s == s[..n] + t[..m] + t[m..];
    TrimEnd(t)
  }

  /** The first `n` characters, all white space, form a white-space string. */
  lemma SpacePrefix(s: string, n: nat)
    requires n <= |s|
    requires forall k :: 0 <= k < n ==> IsSpace(s[k])
    ensures AllSpace(s[..n])
  {
    forall k | 0 <= k < n ensures IsSpace(s[..n][k]) {
      assert s[..n][k] == s[k];
    }
  }

  /** The characters from `m` on, all white space, form a white-space string. */
  lemma SpaceSuffix(s: string, m: nat)
    requires m <= |s|
    requires forall k :: m <= k < |s| ==> IsSpace(s[k])
    ensures AllSpace(s[m..])
  {
    forall k | 0 <= k < |s| - m ensures IsSpace(s[m..][k]) {
      assert s[m..][k] == s[m + k];
    }
  }

  /** Trimming white space alone leaves nothing. */
  lemma TrimOfSpace(s: string)
    requires AllSpace(s)
    ensures Trim(s) == []
  {
    assert LeadingSpace(s) == |s|;
  }

  /** White space in front of a text that does not start with any is all `trimStart` removes. */
  lemma {:induction false} LeadingSpaceOfPadded(lead: string, x: string)
    requires AllSpace(lead) && (x == [] || !IsSpace(x[0]))
    ensures LeadingSpace(lead + x) == |lead|
    decreases |lead|
  {
    if lead == [] {
      assert lead + x == x;
    } else {
      assert (lead + x)[1..] == lead[1..] + x;
      LeadingSpaceOfPadded(lead[1..], x);
    }
  }

  /** Trimming white space off the front of an already trimmed, non-empty text gives that text back. */
  lemma TrimOfPadded(lead: string, x: string)
    requires AllSpace(lead) && x != [] && Trimmed(x)
    ensures Trim(lead + x) == x
  {
    LeadingSpaceOfPadded(lead, x);
    assert TrimStart(lead + x) == x;
    assert TrailingSpace(x) == 0;
  }

  /** White space after a text that does not end with any is all `trimEnd` removes. */
  lemma {:induction false} TrailingSpaceOfPadded(x: string, trail: string)
    requires AllSpace(trail) && (x == [] || !IsSpace(x[|x| - 1]))
    ensures TrailingSpace(x + trail) == |trail|
    decreases |trail|
  {
    if trail == [] {
      assert x + trail == x;
    } else {
      var s := x + trail;
      assert s[..|s| - 1] == x + trail[..|trail| - 1];
      TrailingSpaceOfPadded(x, trail[..|trail| - 1]);
    }
  }

  /** Trimming a trimmed, non-empty text padded with white space on both sides gives that text back. */
  lemma TrimOfSurrounded(lead: string, x: string, trail: string)
    requires AllSpace(lead) && AllSpace(trail) && x != [] && Trimmed(x)
    ensures Trim(lead + x + trail) == x
  {
    LeadingSpaceOfPadded(lead, x + trail);
    assert lead + x + trail == lead + (x + trail);
    assert TrimStart(lead + x + trail) == x + trail;
    TrailingSpaceOfPadded(x, trail);
    assert (x + trail)[..|x|] == x;
  }

  /** `s.split(sep)` for a one-character separator: the pieces between separators, at least one. */
  function Split(s: string, sep: char): (r: seq<string>)
    ensures |r| >= 1
    ensures forall k :: 0 <= k < |r| ==> sep !in r[k]
    decreases |s|
  {
    var head := Before(s, sep);
    if |head| == |s| then [head]
    else [head] + Split(s[|head| + 1..], sep)
  }

  /** `xs.join(sep)`. */
  function Join(xs: seq<string>, sep: string): string
    decreases |xs|
  {
    if xs == [] then []
    else if |xs| == 1 then xs[0]
    else xs[0] + sep + Join(xs[1..], sep)
  }

  /** Joining the pieces of a split with the separator gives back the text. */
  lemma {:induction false} JoinSplit(s: string, sep: char)
    ensures Join(Split(s, sep), [sep]) == s
    decreases |s|
  {
    var head := Before(s, sep);
    assert s[..|head|] == head;
    if |head| == |s| {
      assert head == s;
    } else {
      var rest := s[|head| + 1..];
      JoinSplit(rest, sep);
      var tail := Split(rest, sep);
      assert Split(s, sep) == [head] + tail;
      assert ([head] + tail)[1..] == tail;
      assert s == head + [sep] + rest;
    }
  }

  /** The text before the first separator, when the first piece has none. */
  lemma {:induction false} BeforeOfJoined(a: string, sep: char, b: string)
    requires sep !in a
    ensures Before(a + [sep] + b, sep) == a
    decreases |a|
  {
    if a != [] {
      assert (a + [sep] + b)[1..] == a[1..] + [sep] + b;
      BeforeOfJoined(a[1..], sep, b);
    }
  }

  /** Splitting at a separator peels off the piece before it. */
  lemma SplitOfJoined(a: string, sep: char, b: string)
    requires sep !in a
    ensures Split(a + [sep] + b, sep) == [a] + Split(b, sep)
  {
    BeforeOfJoined(a, sep, b);
    assert (a + [sep] + b)[|a| + 1..] == b;
  }

  /** A text without the separator splits into itself. */
  lemma SplitWithoutSeparator(s: string, sep: char)
    requires sep !in s
    ensures Split(s, sep) == [s]
  {
    var head := Before(s, sep);
    if |head| == |s| {
      assert s[..|head|] == head;
      assert s[..|s|] == s;
    }
  }
}
