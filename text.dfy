/**
 * The Python `str` operations the grading pipeline relies on, over `seq<char>`:
 * `isspace`, `strip`/`rstrip` without arguments, `sub in s`,
 * `splitlines()`, `"\n".join(...)` and `str(n)` for an integer.
 */
module Text {
  import opened Wrappers

  /** `c.isspace()`: the characters that `str.strip()` removes. */
  predicate IsSpace(c: char) {
    var n := c as int;
    (9 <= n <= 13) || (0x1C <= n <= 0x20) || n == 0x85 || n == 0xA0 || n == 0x1680
    || (0x2000 <= n <= 0x200A) || n == 0x2028 || n == 0x2029 || n == 0x202F
    || n == 0x205F || n == 0x3000
  }

  /** The line boundaries of `str.splitlines()` ("\r\n" is handled there as one boundary). */
  predicate IsLineBreak(c: char) {
    var n := c as int;
    (10 <= n <= 13) || (0x1C <= n <= 0x1E) || n == 0x85 || n == 0x2028 || n == 0x2029
  }

  /** Every character of `s` is whitespace (vacuously true of ""). */
  predicate AllSpace(s: string) {
    forall i :: 0 <= i < |s| ==> IsSpace(s[i])
  }

  /** Where `s.lstrip()` starts: the index of the first non-whitespace character, or `|s|`. */
  function SpanStart(s: string): (a: nat)
    ensures a <= |s|
    ensures AllSpace(s[..a])
    ensures a < |s| ==> !IsSpace(s[a])
    decreases |s|
  {
    if s == [] || !IsSpace(s[0]) then 0
    else
      var k := SpanStart(s[1..]);
      assert s[..1 + k] == [s[0]] + s[1..][..k];
      1 + k
  }

  /** The start of the whitespace run that ends at index `j` of `s`. */
  function SpaceRunBefore(s: string, j: nat): (b: nat)
    requires j <= |s|
    ensures b <= j
    ensures forall i :: b <= i < j ==> IsSpace(s[i])
    ensures b > 0 ==> !IsSpace(s[b - 1])
    decreases j
  {
    if j == 0 || !IsSpace(s[j - 1]) then j else SpaceRunBefore(s, j - 1)
  }

  /** Where `s.rstrip()` ends: just after the last non-whitespace character, or 0. */
  function SpanEnd(s: string): (b: nat)
    ensures b <= |s|
    ensures AllSpace(s[b..])
    ensures b > 0 ==> !IsSpace(s[b - 1])
  {
    var b := SpaceRunBefore(s, |s|);
    assert forall k :: 0 <= k < |s| - b ==> s[b..][k] == s[b + k];
    b
  }

  /** `s.rstrip()`: `s` without its trailing whitespace. */
  function RStrip(s: string): (r: string)
    ensures |r| <= |s| && r == s[..|r|]
    ensures AllSpace(s[|r|..])
    ensures r == [] || !IsSpace(r[|r| - 1])
  {
    s[..SpanEnd(s)]
  }

  /**
   * `s.strip()`: `s` without its leading and trailing whitespace. It is empty exactly
   * when `s` is all whitespace, and otherwise starts and ends with a non-space.
   */
  function Strip(s: string): (r: string)
    ensures |r| <= |s|
    ensures r == [] <==> AllSpace(s)
    ensures r != [] ==> !IsSpace(r[0]) && !IsSpace(r[|r| - 1])
  {
    var a, b := SpanStart(s), SpanEnd(s);
    if a == |s| then
      assert s[..a] == s;
      []
    else
      assert a < b by {
        forall i | b <= i < |s| ensures IsSpace(s[i]) {
          assert s[b..][i - b] == s[i];
        }
      }
      s[a..b]
  }

  /**
   * `s.strip()` is the contiguous piece of `s` that starts at its first non-whitespace
   * character, and what it cuts off at either end is whitespace.
   */
  lemma {:induction false} StripSlice(s: string)
    ensures var a := SpanStart(s);
      && a + |Strip(s)| <= |s| && Strip(s) == s[a..a + |Strip(s)|]
      && AllSpace(s[..a]) && AllSpace(s[a + |Strip(s)|..])
  {
    var a := SpanStart(s);
    if a < |s| {
      var b := SpanEnd(s);
      assert a < b by {
        forall i | b <= i < |s| ensures IsSpace(s[i]) {
          assert s[b..][i - b] == s[i];
        }
      }
    }
  }

  /** `not s.strip()`: the text has no non-whitespace character. */
  predicate IsBlank(s: string) {
    Strip(s) == []
  }

  /** `text is None or not text.strip()`: no text, or text that is only whitespace. */
  predicate MissingOrBlank(text: Option<string>) {
    text.None? || IsBlank(text.value)
  }

  /** Python's `sub in s`: `sub` occurs in `s` as a contiguous substring. */
  predicate Contains(s: string, sub: string)
    decreases |s|
  {
    sub <= s || (s != [] && Contains(s[1..], sub))
  }

  /** A string never contains a longer one. */
  lemma {:induction false} ContainsLength(s: string, sub: string)
    requires Contains(s, sub)
    ensures |sub| <= |s|
    decreases |s|
  {
    if !(sub <= s) {
      ContainsLength(s[1..], sub);
    }
  }

  /** Every character of a contained string occurs in the containing one. */
  lemma {:induction false} ContainsChar(s: string, sub: string, c: char)
    requires Contains(s, sub) && c in sub
    ensures c in s
    decreases |s|
  {
    if sub <= s {
      var k :| 0 <= k < |sub| && sub[k] == c;
      assert s[k] == c;
    } else {
      ContainsChar(s[1..], sub, c);
      assert s == [s[0]] + s[1..];
    }
  }

  /** A string lacking a character contains no string that has it. */
  lemma {:induction false} ContainsMissingChar(s: string, sub: string, c: char)
    requires c in sub && c !in s
    ensures !Contains(s, sub)
  {
    if Contains(s, sub) {
      ContainsChar(s, sub, c);
    }
  }

  /** Whatever contains `p + q` contains `p`. */
  lemma {:induction false} ContainsPrefix(s: string, p: string, q: string)
    requires Contains(s, p + q)
    ensures Contains(s, p)
    decreases |s|
  {
    if p + q <= s {
      assert p <= s by {
        assert forall k :: 0 <= k < |p| ==> (p + q)[k] == p[k];
      }
    } else {
      ContainsPrefix(s[1..], p, q);
    }
  }

  /** Index of the first line boundary in `s`, or `|s|` when there is none. */
  function FirstBreak(s: string): (i: nat)
    ensures i <= |s|
    ensures i < |s| ==> IsLineBreak(s[i])
    ensures forall k :: 0 <= k < i ==> !IsLineBreak(s[k])
    decreases |s|
  {
    if s == [] || IsLineBreak(s[0]) then 0 else 1 + FirstBreak(s[1..])
  }

  /**
   * `s.splitlines()`: the lines of `s` without their boundaries; a final boundary
   * does not start an empty last line, and "" has no lines at all.
   */
  function SplitLines(s: string): (lines: seq<string>)
    ensures lines == [] <==> s == []
    decreases |s|
  {
    if s == [] then []
    else
      var i := FirstBreak(s);
      if i == |s| then [s] else [s[..i]] + SplitLines(s[i + BreakWidth(s, i)..])
  }

  /** The width of the line boundary at `i`: "\r\n" counts as one boundary of two characters. */
  function BreakWidth(s: string, i: nat): (w: nat)
    requires i < |s|
    ensures 1 <= w <= 2 && i + w <= |s|
  {
    if s[i] == '\r' && i + 1 < |s| && s[i + 1] == '\n' then 2 else 1
  }

  /** A lone "\n" is a boundary of one character. */
  lemma {:induction false} NewlineWidth(s: string, i: nat)
    requires i < |s| && s[i] == '\n'
    ensures BreakWidth(s, i) == 1
  {
  }

  /** No line that `splitlines` yields holds a line boundary. */
  lemma {:induction false} SplitLinesNoBreaks(s: string)
    ensures var lines := SplitLines(s);
      forall k, j :: 0 <= k < |lines| && 0 <= j < |lines[k]| ==> !IsLineBreak(lines[k][j])
    decreases |s|
  {
    if s != [] {
      var i := FirstBreak(s);
      if i < |s| {
        var width := BreakWidth(s, i);
        SplitLinesNoBreaks(s[i + width..]);
        var lines := SplitLines(s);
        assert lines == [s[..i]] + SplitLines(s[i + width..]);
        forall k, j | 0 <= k < |lines| && 0 <= j < |lines[k]|
          ensures !IsLineBreak(lines[k][j])
        {
          if k == 0 {
            assert lines[0][j] == s[j];
          } else {
            assert lines[k] == SplitLines(s[i + width..])[k - 1];
          }
        }
      }
    }
  }

  /** `"\n".join(lines)`. */
  function JoinLines(lines: seq<string>): string
    decreases |lines|
  {
    if |lines| == 0 then ""
    else if |lines| == 1 then lines[0]
    else lines[0] + "\n" + JoinLines(lines[1..])
  }

  /** `str(n)` for a non-negative integer: its decimal digits. */
  function NatToString(n: nat): string
    decreases n
  {
    if n < 10 then ["0123456789"[n]] else NatToString(n / 10) + ["0123456789"[n % 10]]
  }

  /** `str(i)` for an integer. */
  function IntToString(i: int): string {
    if i < 0 then "-" + NatToString(-i) else NatToString(i)
  }
}
