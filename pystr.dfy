// The handful of Python `str` methods that the page analyser relies on:
// find, rfind, startswith, split(c, 1)[0], lower and strip.

module PyStr {

  /** `s.find(c)`: the index of the first `c` in `s`, or -1 when there is none. */
  function Find(s: string, c: char): (r: int)
    ensures -1 <= r < |s|
    ensures r >= 0 ==> s[r] == c
    ensures forall i | 0 <= i < |s| && (r < 0 || i < r) :: s[i] != c
  {
    if |s| == 0 then -1
    else if s[0] == c then 0
    else
      var k := Find(s[1..], c);
      if k == -1 then -1 else k + 1
  }

  /** `s.find(c, start)`: the first `c` at or after `start`, or -1. */
  function FindFrom(s: string, c: char, start: nat): (r: int)
    requires start <= |s|
    ensures r >= -1
    ensures r == -1 <==> c !in s[start..]
    ensures r >= 0 ==> start <= r < |s| && s[r] == c && c !in s[start..r]
  {
    var k := Find(s[start..], c);
    if k == -1 then -1
    else
      assert s[start..][..k] == s[start..start + k];
      start + k
  }

  /** `s.rfind(c)`: the index of the last `c` in `s`, or -1 when there is none. */
  function RFind(s: string, c: char): (r: int)
    ensures -1 <= r < |s|
    ensures r >= 0 ==> s[r] == c
    ensures forall i | r < i < |s| :: s[i] != c
  {
    if |s| == 0 then -1
    else if s[|s| - 1] == c then |s| - 1
    else RFind(s[..|s| - 1], c)
  }

  /** `s.startswith(c)` for a one-character prefix. */
  predicate StartsWith(s: string, c: char)
  {
    |s| > 0 && s[0] == c
  }

  /** `s.split(c, 1)[0]`: everything before the first `c`, or all of `s`. */
  function Before(s: string, c: char): (r: string)
    ensures |r| <= |s| && r == s[..|r|]
    ensures c !in r
    ensures |r| < |s| ==> s[|r|] == c
  {
    var k := Find(s, c);
    if k == -1 then s else s[..k]
  }

  /** Python's `str.isspace` for one character: the characters that `strip()` removes. */
  predicate IsSpace(c: char)
  {
    c == ' ' || ('\t' <= c <= '\r') || ('\U{1C}' <= c <= '\U{1F}') ||
    c == '\U{85}' || c == '\U{A0}' || c == '\U{1680}' || ('\U{2000}' <= c <= '\U{200A}') ||
    c == '\U{2028}' || c == '\U{2029}' || c == '\U{202F}' || c == '\U{205F}' || c == '\U{3000}'
  }

  /** `c.lower()` on the ASCII range: upper-case Latin letters become lower-case. */
  function LowerChar(c: char): (r: char)
    ensures 'A' <= c <= 'Z' ==> r as int == c as int + 32
    ensures !('A' <= c <= 'Z') ==> r == c
  {
    if 'A' <= c <= 'Z' then (c as int + 32) as char else c
  }

  /** `s.lower()`, character by character. */
  function Lower(s: string): (r: string)
    ensures |r| == |s|
    ensures forall i | 0 <= i < |s| :: r[i] == LowerChar(s[i])
  {
    seq(|s|, i requires 0 <= i < |s| => LowerChar(s[i]))
  }

  /** `s.lstrip()`: drops the leading whitespace. */
  function LStrip(s: string): (r: string)
  {
    if |s| > 0 && IsSpace(s[0]) then LStrip(s[1..]) else s
  }

  /** `s.rstrip()`: drops the trailing whitespace. */
  function RStrip(s: string): (r: string)
  {
    if |s| > 0 && IsSpace(s[|s| - 1]) then RStrip(s[..|s| - 1]) else s
  }

  /** `lstrip()` removes a whitespace prefix and nothing else, and leaves no whitespace in front. */
  lemma {:induction false} LStripShape(s: string)
    ensures |LStrip(s)| <= |s| && LStrip(s) == s[|s| - |LStrip(s)|..]
    ensures forall i | 0 <= i < |s| - |LStrip(s)| :: IsSpace(s[i])
    ensures LStrip(s) == [] || !IsSpace(LStrip(s)[0])
  {
    if |s| > 0 && IsSpace(s[0]) {
      LStripShape(s[1..]);
    }
  }

  /** `rstrip()` removes a whitespace suffix and nothing else, and leaves no whitespace at the end. */
  lemma {:induction false} RStripShape(s: string)
    ensures |RStrip(s)| <= |s| && RStrip(s) == s[..|RStrip(s)|]
    ensures forall i | |RStrip(s)| <= i < |s| :: IsSpace(s[i])
    ensures RStrip(s) == [] || !IsSpace(RStrip(s)[|RStrip(s)| - 1])
  {
    if |s| > 0 && IsSpace(s[|s| - 1]) {
      RStripShape(s[..|s| - 1]);
    }
  }

  /** `s.strip()`. */
  function Strip(s: string): (r: string)
  {
    RStrip(LStrip(s))
  }

  /** Lower-casing distributes over concatenation. */
  lemma LowerAppend(a: string, b: string)
    ensures Lower(a + b) == Lower(a) + Lower(b)
  {
  }

  /** `lstrip()` removes a whitespace prefix up to a character that is not whitespace. */
  lemma {:induction false} LStripSkips(lead: string, rest: string)
    requires forall i | 0 <= i < |lead| :: IsSpace(lead[i])
    requires rest == [] || !IsSpace(rest[0])
    ensures LStrip(lead + rest) == rest
  {
    if lead == [] {
      assert lead + rest == rest;
    } else {
      var s := lead + rest;
      assert s[0] == lead[0] && s[1..] == lead[1..] + rest;
      LStripSkips(lead[1..], rest);
    }
  }

  /** `rstrip()` removes a whitespace suffix back to a character that is not whitespace. */
  lemma {:induction false} RStripSkips(t: string, trail: string)
    requires forall i | 0 <= i < |trail| :: IsSpace(trail[i])
    requires t == [] || !IsSpace(t[|t| - 1])
    ensures RStrip(t + trail) == t
  {
    if trail == [] {
      assert t + trail == t;
    } else {
      var s := t + trail;
      var init := trail[..|trail| - 1];
      assert s[|s| - 1] == trail[|trail| - 1];
      assert s[..|s| - 1] == t + init;
      RStripSkips(t, init);
    }
  }

  /**
   * `strip()` removes exactly the surrounding whitespace: a text that neither
   * begins nor ends with whitespace comes back whole, whatever whitespace
   * surrounds it.
   */
  lemma StripSurrounded(lead: string, t: string, trail: string)
    requires forall i | 0 <= i < |lead| :: IsSpace(lead[i])
    requires forall i | 0 <= i < |trail| :: IsSpace(trail[i])
    requires t != [] && !IsSpace(t[0]) && !IsSpace(t[|t| - 1])
    ensures Strip(lead + t + trail) == t
  {
    assert lead + t + trail == lead + (t + trail);
    LStripSkips(lead, t + trail);
    RStripSkips(t, trail);
  }
}
